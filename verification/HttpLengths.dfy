/** The numbers that frame a body: decimal in `Content-Length`, hexadecimal in front of a chunk. */
module HttpLengths {
  import opened HttpChars
  import opened HttpTypes
  import opened HttpStep
  import opened HttpRun

  predicate Digits(ds: string, base: nat) {
    forall i :: 0 <= i < |ds| ==> 0 <= Unhex(ds[i]) < base
  }

  /** The number that a digit string spells. */
  function Spelled(ds: string, base: nat): nat
    requires Digits(ds, base)
  {
    if |ds| == 0 then 0 else Spelled(ds[..|ds| - 1], base) * base + Unhex(ds[|ds| - 1])
  }

  /** The largest number that passes the guard against overflow: ten or sixteen below 2^64, rounded up to
      the last number with the same leading digits. */
  function Largest(base: nat): nat {
    if base == 10 then 18446744073709551609 else 0xFFFF_FFFF_FFFF_FFEF
  }

  /** The guard looks at the number before the digit is appended; for the number after it, it is an exact bound. */
  lemma GuardIsBound(length: nat, base: nat, digit: nat)
    requires (base == 10 || base == 16) && digit < base
    ensures MayOverflow(length, base) <==> length * base + digit > Largest(base)
    ensures !MayOverflow(length, base) ==> Shift(length, base, digit) == length * base + digit < ULLONG_MAX
  {}

  /** The number sets the length and its flag, and leaves the rest of the message alone. */
  predicate SameButLength(p: Parser, q: Parser) {
    && q.kind == p.kind && q.verb == p.verb && q.statusCode == p.statusCode && q.upgrade == p.upgrade
    && q.flags == p.flags.(contentLength := true) && q.usesTransferEncoding == p.usesTransferEncoding
    && q.allowChunkedLength == p.allowChunkedLength && q.httpMajor == p.httpMajor && q.httpMinor == p.httpMinor
  }

  lemma FirstDecimal(p: Parser, ch: char, max: nat)
    requires p.state.HeaderValueDiscardWs? && p.headerState.ContentLength? && !p.flags.contentLength
    requires 0 <= Unhex(ch) < 10 && p.nread < max
    ensures var r := StepByte(p, ch, max);
      r.stop.Go? && r.p.contentLength == Unhex(ch) && InNumber(r.p) && r.p.nread == p.nread + 1 && SameButLength(p, r.p)
  {
    hide Perform, FlushAll;
  }

  /** The record inside the number of a `Content-Length` header. */
  predicate InNumber(p: Parser) {
    p.state.HeaderValue? && p.headerState.ContentLengthNum? && p.flags.contentLength
  }

  lemma NextDecimal(p: Parser, ch: char, max: nat)
    requires InNumber(p) && 0 <= Unhex(ch) < 10 && p.nread < max
    ensures var r := StepByte(p, ch, max);
      if MayOverflow(p.contentLength, 10) then r.stop == Fail(InvalidContentLength)
      else r.stop.Go? && r.p.contentLength == Shift(p.contentLength, 10, Unhex(ch)) && InNumber(r.p)
           && r.p.nread == p.nread + 1 && SameButLength(p, r.p)
  {
    hide Perform, FlushAll, MayOverflow, Shift, Dispatch;
    NumberState(p.(nread := p.nread + 1), ch);
  }

  lemma NumberState(p: Parser, ch: char)
    requires InNumber(p) && 0 <= Unhex(ch) < 10
    ensures Dispatch(p, ch) == LengthChar(p, ch)
  {
    hide LengthChar;
  }

  /** A byte that calls nothing back and meets no mark. */
  lemma QuietByte(p: Parser, ch: char, q: Parser, max: nat)
    requires EntryMark(p.state).NoMark? && !(ParsingHeader(p.state) && p.nread + 1 > max)
    requires Dispatch(if ParsingHeader(p.state) then p.(nread := p.nread + 1) else p, ch) == Ok(q, [])
    ensures StepByte(p, ch, max) == Result(q, [], Go)
  {
    hide Dispatch;
    var none: seq<Event> := [];
    assert none + none == none;
  }

  lemma ChunkSizeStates(p: Parser, ch: char)
    ensures p.state.ChunkSizeStart? ==> Dispatch(p, ch) == StepChunkSizeStart(p, ch)
    ensures p.state.ChunkSize? ==> Dispatch(p, ch) == StepChunkSize(p, ch)
  {
    hide StepChunkSize, StepChunkSizeStart;
  }

  lemma FirstHex(p: Parser, ch: char, max: nat)
    requires p.state.ChunkSizeStart? && p.flags.chunked && p.nread == 0 < max && 0 <= Unhex(ch) < 16
    ensures StepByte(p, ch, max) ==
      Result(p.(contentLength := Unhex(ch), state := ChunkSize, nread := 1), [], Go)
  {
    hide Dispatch, StepByte, Unhex;
    ChunkSizeStates(p.(nread := 1), ch);
    QuietByte(p, ch, p.(contentLength := Unhex(ch), state := ChunkSize, nread := 1), max);
  }

  lemma NextHex(p: Parser, ch: char, max: nat)
    requires p.state.ChunkSize? && p.flags.chunked && p.nread < max && 0 <= Unhex(ch) < 16
    ensures MayOverflow(p.contentLength, 16) ==> StepByte(p, ch, max).stop == Fail(InvalidContentLength)
    ensures !MayOverflow(p.contentLength, 16) ==>
      StepByte(p, ch, max)
      == Result(p.(contentLength := Shift(p.contentLength, 16, Unhex(ch)), nread := p.nread + 1), [], Go)
  {
    hide MayOverflow, Shift, Dispatch, Perform, FlushAll;
    var q := p.(nread := p.nread + 1);
    ChunkSizeStates(q, ch);
    assert ch != '\r';
    if !MayOverflow(p.contentLength, 16) {
      QuietByte(p, ch, q.(contentLength := Shift(p.contentLength, 16, Unhex(ch))), max);
    }
  }

  /** A digit string behind `Content-Length:` is accepted exactly up to the bound, and stored as the number it spells:
      never wrapped in 64 bits and never the "no length" value. Otherwise the header is refused. */
  lemma {:induction false} ContentLengthIsExact(p: Parser, ds: string, max: nat)
    requires p.state.HeaderValueDiscardWs? && p.headerState.ContentLength? && !p.flags.contentLength
    requires |ds| > 0 && Digits(ds, 10) && p.nread + |ds| <= max
    ensures var r := Run(p, ds, max);
      && (r.stop.Go? <==> Spelled(ds, 10) <= Largest(10))
      && (r.stop.Go? ==> r.p.contentLength == Spelled(ds, 10) < ULLONG_MAX && InNumber(r.p) && r.p.nread == p.nread + |ds|)
      && (r.stop.Go? ==> SameButLength(p, r.p))
      && (!r.stop.Go? ==> r.stop == Fail(InvalidContentLength))
  {
    hide StepByte, MayOverflow, Shift, Unhex;
    var init, ch := ds[..|ds| - 1], ds[|ds| - 1];
    if |ds| == 1 {
      assert Run(p, init, max) == Result(p, [], Go);
      FirstDecimal(p, ch, max);
    } else {
      ContentLengthIsExact(p, init, max);
      GuardIsBound(Spelled(init, 10), 10, Unhex(ch));
      if Run(p, init, max).stop.Go? { NextDecimal(Run(p, init, max).p, ch, max); }
    }
  }

  /** The same for the hexadecimal size of a chunk. */
  lemma {:induction false} ChunkSizeIsExact(p: Parser, ds: string, max: nat)
    requires p.state.ChunkSizeStart? && p.flags.chunked && p.nread == 0
    requires |ds| > 0 && Digits(ds, 16) && |ds| <= max
    ensures var r := Run(p, ds, max);
      && (r.stop.Go? <==> Spelled(ds, 16) <= Largest(16))
      && (r.stop.Go? ==>
            r == Result(p.(contentLength := Spelled(ds, 16), state := ChunkSize, nread := |ds|), [], Go)
            && Spelled(ds, 16) < ULLONG_MAX)
      && (!r.stop.Go? ==> r.stop == Fail(InvalidContentLength))
  {
    hide StepByte, MayOverflow, Shift, Unhex;
    var init, ch := ds[..|ds| - 1], ds[|ds| - 1];
    if |ds| == 1 {
      assert Run(p, init, max) == Result(p, [], Go);
      FirstHex(p, ch, max);
    } else {
      ChunkSizeIsExact(p, init, max);
      GuardIsBound(Spelled(init, 16), 16, Unhex(ch));
      if Run(p, init, max).stop.Go? { NextHex(Run(p, init, max).p, ch, max); }
    }
  }
}
