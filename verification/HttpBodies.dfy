/** Bodies framed by a length, and bodies framed by chunks (section 4.1 of RFC 7230). */
module HttpBodies {
  import opened HttpChars
  import opened HttpTypes
  import opened HttpStep
  import opened HttpRun
  import opened HttpRelate
  import opened HttpFragments
  import opened HttpLengths

  // ---- Single bytes ----

  lemma PerformOne(a: Act, marks: Marks, data: string, pos: nat)
    requires pos < |data| && MarksBefore(marks, pos)
    ensures Perform([a], marks, data, pos) == Perform1(a, marks, data, pos)
  {
    hide Perform1;
    assert [a][1..] == [];
    var (m1, e1) := Perform1(a, marks, data, pos);
    assert e1 + [] == e1;
  }

  lemma PerformCons(a: Act, rest: seq<Act>, marks: Marks, data: string, pos: nat)
    requires pos < |data| && MarksBefore(marks, pos)
    ensures var (m1, e1) := Perform1(a, marks, data, pos);
      var (m2, e2) := Perform(rest, m1, data, pos);
      Perform([a] + rest, marks, data, pos) == (m2, e1 + e2)
  {
    hide Perform1;
    assert ([a] + rest)[1..] == rest;
  }

  /** Bytes outside marked text: the signals they raise are all they report. */
  lemma CallByte(p: Parser, ch: char, o: Out, s: Signal, max: nat)
    requires EntryMark(p.state).NoMark? && !(ParsingHeader(p.state) && p.nread + 1 > max)
    requires Dispatch(if ParsingHeader(p.state) then p.(nread := p.nread + 1) else p, ch) == o && o.acts == [Call(s)]
    ensures StepByte(p, ch, max) == Result(o.p, [Notify(s)], o.stop)
  {
    hide Dispatch, Perform;
    PerformOne(Call(s), map[], [ch], 0);
    FlushAllPiece(NoMark, 0, [ch]);
    assert [Notify(s)] + [] == [Notify(s)];
  }

  lemma Call2Byte(p: Parser, ch: char, o: Out, s: Signal, t: Signal, max: nat)
    requires EntryMark(p.state).NoMark? && !(ParsingHeader(p.state) && p.nread + 1 > max)
    requires Dispatch(if ParsingHeader(p.state) then p.(nread := p.nread + 1) else p, ch) == o
      && o.acts == [Call(s), Call(t)]
    ensures StepByte(p, ch, max) == Result(o.p, [Notify(s), Notify(t)], o.stop)
  {
    hide Dispatch, Perform;
    PerformOne(Call(t), map[], [ch], 0);
    PerformCons(Call(s), [Call(t)], map[], [ch], 0);
    assert [Call(s)] + [Call(t)] == [Call(s), Call(t)];
    FlushAllPiece(NoMark, 0, [ch]);
    assert [Notify(s)] + [Notify(t)] + [] == [Notify(s), Notify(t)];
  }

  /** The body state of a record, and the length it still has to deliver. */
  predicate InBodyOf(p: Parser, k: nat) {
    p.contentLength == k < ULLONG_MAX && (p.state.BodyIdentity? || (p.state.ChunkData? && p.flags.chunked))
  }

  lemma BodyStates(p: Parser, ch: char)
    ensures p.state.BodyIdentity? ==> Dispatch(p, ch) == StepBodyIdentity(p)
    ensures p.state.ChunkData? ==> Dispatch(p, ch) == StepChunkData(p)
    ensures p.state.BodyIdentityEof? ==> Dispatch(p, ch) == Ok(p, [SetMark(Body)])
  {
    hide StepBodyIdentity, StepChunkData;
  }

  /** A body byte that is marked and handed over at the end of its buffer. */
  lemma MarkedByte(p: Parser, ch: char, q: Parser, max: nat)
    requires p.state.BodyIdentity? || p.state.ChunkData? || p.state.BodyIdentityEof?
    requires Dispatch(p, ch) == Ok(q, [SetMark(Body)])
    ensures StepByte(p, ch, max) == Result(q, [Data(Body, [ch])], Go)
  {
    hide Dispatch, Perform;
    PerformOne(SetMark(Body), map[], [ch], 0);
    FlushAllPiece(On(Body), 0, [ch]);
    assert [ch][0..1] == [ch];
    var none: seq<Event> := [];
    assert none + [Data(Body, [ch])] == [Data(Body, [ch])];
  }

  lemma InnerByte(p: Parser, ch: char, max: nat)
    requires InBodyOf(p, p.contentLength) && p.contentLength > 1
    ensures StepByte(p, ch, max) == Result(p.(contentLength := p.contentLength - 1), [Data(Body, [ch])], Go)
  {
    hide Dispatch, StepByte;
    BodyStates(p, ch);
    MarkedByte(p, ch, p.(contentLength := p.contentLength - 1), max);
  }

  lemma LastChunkByte(p: Parser, ch: char, max: nat)
    requires InBodyOf(p, 1) && p.state.ChunkData?
    ensures StepByte(p, ch, max) ==
      Result(p.(contentLength := 0, state := ChunkDataAlmostDone), [Data(Body, [ch])], Go)
  {
    hide Dispatch, StepByte;
    BodyStates(p, ch);
    MarkedByte(p, ch, p.(contentLength := 0, state := ChunkDataAlmostDone), max);
  }

  /** The record and the reason to stop once a message is complete. */
  function Completed(p: Parser): Parser {
    p.(contentLength := 0, state := NewMessage(p))
  }

  function StopOf(p: Parser): Stop { if p.upgrade then Exit else Go }

  lemma LastIdentityByte(p: Parser, ch: char, max: nat)
    requires InBodyOf(p, 1) && p.state.BodyIdentity?
    ensures StepByte(p, ch, max) == Result(Completed(p), [Data(Body, [ch]), Notify(MessageComplete)], StopOf(p))
  {
    hide Dispatch, Perform;
    BodyStates(p, ch);
    var o := Dispatch(p, ch);
    assert o == Out(Completed(p), [SetMark(Body), FlushWith(Body)] + [Call(MessageComplete)], StopOf(p));
    assert o.acts == [SetMark(Body)] + ([FlushWith(Body)] + [Call(MessageComplete)]);
    PerformOne(Call(MessageComplete), map[], [ch], 0);
    PerformCons(FlushWith(Body), [Call(MessageComplete)], map[Body := 0], [ch], 0);
    PerformCons(SetMark(Body), [FlushWith(Body)] + [Call(MessageComplete)], map[], [ch], 0);
    FlushAllPiece(NoMark, 0, [ch]);
    assert map[Body := 0] - {Body} == map[] && [ch][0..0 + 1] == [ch];
    assert [Data(Body, [ch])] + [Notify(MessageComplete)] == [Data(Body, [ch]), Notify(MessageComplete)];
    var e := [Data(Body, [ch]), Notify(MessageComplete)];
    assert [] + e == e && e + [] == e;
  }

  // ---- A body with a length ----

  lemma MergeNothing()
    ensures Merge([]) == []
  {}

  /** Merging keeps pace with one more body byte. */
  lemma BodyAndByte(es: seq<Event>, init: string, ch: char)
    requires Merge(es) == if init == "" then [] else [Data(Body, init)]
    ensures Merge(es + [Data(Body, [ch])]) == [Data(Body, init + [ch])]
  {
    MergeOne(es, Data(Body, [ch]));
    assert "" + [ch] == [ch];
  }

  /** Body bytes before the last are delivered one after another. */
  lemma {:induction false} InnerBytes(p: Parser, data: string, max: nat)
    requires InBodyOf(p, p.contentLength) && |data| < p.contentLength
    ensures var r := Run(p, data, max);
      && r.stop.Go? && r.p == p.(contentLength := p.contentLength - |data|)
      && Merge(r.events) == if data == "" then [] else [Data(Body, data)]
  {
    hide StepByte, Merge;
    if |data| > 0 {
      var init, ch := data[..|data| - 1], data[|data| - 1];
      InnerBytes(p, init, max);
      var r := Run(p, init, max);
      InnerByte(r.p, ch, max);
      BodyAndByte(r.events, init, ch);
      assert init + [ch] == data;
    } else {
      MergeNothing();
    }
  }

  /** What is left of the length does not decide whether the connection is kept. */
  lemma NewMessageOfRest(p: Parser, k: nat)
    requires p.contentLength < ULLONG_MAX && k < ULLONG_MAX
    ensures NewMessage(p.(contentLength := k)) == NewMessage(p)
  {}

  /** Identity framing: exactly the announced number of bytes is delivered, in order; then the message is complete,
      once, and the record waits for a new message. With fewer bytes it is not complete. */
  lemma IdentityBody(p: Parser, data: string, max: nat)
    requires InBodyOf(p, p.contentLength) && p.state.BodyIdentity? && 0 < |data| <= p.contentLength
    ensures var r := Run(p, data, max);
      if |data| < p.contentLength then
        r.stop.Go? && r.p == p.(contentLength := p.contentLength - |data|) && Merge(r.events) == [Data(Body, data)]
      else
        r.stop == StopOf(p) && r.p == Completed(p) && Merge(r.events) == [Data(Body, data), Notify(MessageComplete)]
  {
    hide StepByte, Merge, Run, NewMessage;
    if |data| < p.contentLength {
      InnerBytes(p, data, max);
    } else {
      var init, ch := data[..|data| - 1], data[|data| - 1];
      InnerBytes(p, init, max);
      var r := Run(p, init, max);
      LastIdentityByte(r.p, ch, max);
      NewMessageOfRest(p, 1);
      RunSnoc(p, init, ch, max);
      BodyAndByte(r.events, init, ch);
      assert init + [ch] == data;
      assert r.events + [Data(Body, [ch]), Notify(MessageComplete)] == r.events + [Data(Body, [ch])] + [Notify(MessageComplete)];
      MergeOne(r.events + [Data(Body, [ch])], Notify(MessageComplete));
      assert [Data(Body, data)] + [Notify(MessageComplete)] == [Data(Body, data), Notify(MessageComplete)];
    }
  }

  /** Joining starts afresh behind a signal. */
  lemma {:induction false} JoinBehindSignal(es: seq<Event>, more: seq<Event>)
    requires es == [] || es[|es| - 1].Notify?
    ensures JoinAll(es, more) == es + Merge(more)
  {
    if |more| > 0 {
      hide Join;
      var init, e := more[..|more| - 1], more[|more| - 1];
      JoinBehindSignal(es, init);
      JoinDeep(es, Merge(init), e);
      assert Merge(more) == Join(Merge(init), e);
    }
  }

  lemma JoinDeep(es: seq<Event>, m: seq<Event>, e: Event)
    requires es == [] || es[|es| - 1].Notify?
    ensures Join(es + m, e) == es + Join(m, e)
  {
    if |m| > 0 {
      assert (es + m)[|es + m| - 1] == m[|m| - 1];
      assert (es + m)[..|es + m| - 1] == es + m[..|m| - 1];
    }
  }

  lemma MergeBehindSignal(a: seq<Event>, b: seq<Event>)
    requires Merge(a) == [] || Merge(a)[|Merge(a)| - 1].Notify?
    ensures Merge(a + b) == Merge(a) + Merge(b)
  {
    MergeAppend(a, b);
    JoinBehindSignal(Merge(a), b);
  }

  /** However body and what follows it are split over the calls: the body, the end of the message, and then
      whatever the bytes behind it mean to a record that waits for a new message. */
  lemma IdentityFraming(p: Parser, calls: seq<Fed>, body: string, rest: string, max: nat)
    requires InBodyOf(p, |body|) && p.state.BodyIdentity? && |body| > 0
    requires Chain(p, calls, max) && Input(calls) == body + rest
    requires !p.upgrade ==> Run(Completed(p), rest, max).stop != Fail(HeaderOverflow)
    ensures var o, r := Outcome(p, calls), Run(Completed(p), rest, max);
      var done := [Data(Body, body), Notify(MessageComplete)];
      if p.upgrade then o.stop.Exit? && o.p == Completed(p) && Merge(o.events) == done
      else o.stop == r.stop && (!r.stop.Fail? ==> o.p == r.p && Merge(o.events) == done + Merge(r.events))
  {
    hide StepByte, Merge, Run;
    IdentityBody(p, body, max);
    RunAppend(p, body, rest, max);
    ChainIsRun(p, calls, max);
    if !p.upgrade {
      MergeBehindSignal(Run(p, body, max).events, Run(Completed(p), rest, max).events);
    }
  }

  // ---- Chunks ----

  lemma ChunkHeadStates(p: Parser, ch: char)
    ensures p.state.ChunkSize? ==> Dispatch(p, ch) == StepChunkSize(p, ch)
    ensures p.state.ChunkParameters? ==> Dispatch(p, ch) == StepChunkParameters(p, ch)
    ensures p.state.ChunkSizeAlmostDone? ==> Dispatch(p, ch) == StepChunkSizeAlmostDone(p, ch)
    ensures p.state.ChunkDataAlmostDone? ==> Dispatch(p, ch) == StepChunkDataAlmostDone(p, ch)
    ensures p.state.ChunkDataDone? ==> Dispatch(p, ch) == StepChunkDataDone(p, ch)
  {
    hide StepChunkSize, StepChunkParameters, StepChunkSizeAlmostDone, StepChunkDataAlmostDone, StepChunkDataDone;
  }

  lemma TrailerStates(p: Parser, ch: char)
    ensures p.state.HeaderFieldStart? ==> Dispatch(p, ch) == StepHeaderFieldStart(p, ch)
    ensures p.state.HeadersAlmostDone? ==> Dispatch(p, ch) == StepHeadersAlmostDone(p, ch)
  {
    hide StepHeaderFieldStart, StepHeadersAlmostDone;
  }

  /** Two bytes, one after the other. */
  lemma TwoBytes(p: Parser, a: char, b: char, max: nat)
    requires StepByte(p, a, max).stop.Go?
    ensures var r := StepByte(p, a, max);
      var s := StepByte(r.p, b, max);
      Run(p, [a, b], max) == s.(events := r.events + s.events)
  {
    hide StepByte;
    var none: seq<Event> := [];
    var s: string := [];
    assert Run(p, s, max) == Result(p, none, Go);
    RunSnoc(p, s, a, max);
    assert s + [a] == [a] && none + StepByte(p, a, max).events == StepByte(p, a, max).events;
    RunSnoc(p, [a], b, max);
    assert [a] + [b] == [a, b];
  }

  const CRLF := "\r\n"

  /** What may stand behind a chunk size: nothing, or anything that begins like an extension and stays in its line. */
  predicate IsExtension(ext: string) {
    ext != "" ==> (ext[0] == ';' || ext[0] == ' ') && '\r' !in ext
  }

  /** An extension is passed over. */
  lemma {:induction false} ExtensionRead(p: Parser, ext: string, max: nat)
    requires p.state.ChunkSize? && p.flags.chunked && IsExtension(ext) && p.nread + |ext| <= max
    ensures Run(p, ext, max)
      == Result(p.(state := if ext == "" then ChunkSize else ChunkParameters, nread := p.nread + |ext|), [], Go)
  {
    hide StepByte, Dispatch, Unhex;
    if ext != "" {
      var init, ch := ext[..|ext| - 1], ext[|ext| - 1];
      assert ch in ext;
      ExtensionRead(p, init, max);
      var r := Run(p, init, max).p;
      var q := r.(nread := r.nread + 1);
      ChunkHeadStates(q, ch);
      if init == "" { ExtensionBegins(ch); }
      QuietByte(r, ch, q.(state := ChunkParameters), max);
    }
  }

  lemma ExtensionBegins(ch: char)
    requires ch == ';' || ch == ' '
    ensures Unhex(ch) == -1
  {}

  /** The end of the line behind a chunk size. */
  lemma SizeLineEnds(p: Parser, max: nat)
    requires (p.state.ChunkSize? || p.state.ChunkParameters?) && p.flags.chunked && p.nread + 2 <= max
    ensures var q := if p.contentLength == 0 then p.(flags := p.flags.(trailing := true), state := HeaderFieldStart, nread := 0)
                     else p.(state := ChunkData, nread := 0);
      Run(p, CRLF, max) == Result(q, [Notify(ChunkHeader)], Go)
  {
    hide Dispatch, StepByte;
    var p1 := p.(nread := p.nread + 1);
    ChunkHeadStates(p1, '\r');
    var q := p1.(state := ChunkSizeAlmostDone);
    QuietByte(p, '\r', q, max);
    var q1 := q.(nread := p.nread + 2);
    ChunkHeadStates(q1, '\n');
    CallByte(q, '\n', StepChunkSizeAlmostDone(q1, '\n'), ChunkHeader, max);
    TwoBytes(p, '\r', '\n', max);
    assert [] + [Notify(ChunkHeader)] == [Notify(ChunkHeader)];
  }

  /** The end of the line behind the data. */
  lemma DataLineEnds(p: Parser, max: nat)
    requires p.state.ChunkDataAlmostDone? && p.flags.chunked && p.contentLength == 0
    ensures Run(p, CRLF, max) == Result(p.(state := ChunkSizeStart, nread := 0), [Notify(ChunkComplete)], Go)
  {
    hide Dispatch, StepByte;
    ChunkHeadStates(p, '\r');
    var q := p.(state := ChunkDataDone);
    UnmarkedFlush(p, '\r', q, max);
    ChunkHeadStates(q, '\n');
    CallByte(q, '\n', StepChunkDataDone(q, '\n'), ChunkComplete, max);
    TwoBytes(p, '\r', '\n', max);
    assert [] + [Notify(ChunkComplete)] == [Notify(ChunkComplete)];
  }

  /** With nothing marked a flush reports nothing. */
  lemma UnmarkedFlush(p: Parser, ch: char, q: Parser, max: nat)
    requires p.state.ChunkDataAlmostDone? && Dispatch(p, ch) == Ok(q, [Flush(Body)])
    ensures StepByte(p, ch, max) == Result(q, [], Go)
  {
    hide Dispatch, Perform;
    PerformOne(Flush(Body), map[], [ch], 0);
    FlushAllPiece(NoMark, 0, [ch]);
    var none: seq<Event> := [];
    assert none + none == none;
  }

  /** All the data of a chunk. */
  lemma ChunkBytes(p: Parser, data: string, max: nat)
    requires InBodyOf(p, |data|) && p.state.ChunkData? && |data| > 0
    ensures var r := Run(p, data, max);
      && r.stop.Go? && r.p == p.(contentLength := 0, state := ChunkDataAlmostDone)
      && Merge(r.events) == [Data(Body, data)]
  {
    hide StepByte, Merge;
    var init, ch := data[..|data| - 1], data[|data| - 1];
    InnerBytes(p, init, max);
    var r := Run(p, init, max);
    LastChunkByte(r.p, ch, max);
    BodyAndByte(r.events, init, ch);
    assert init + [ch] == data;
  }

  /** A chunk as it is sent: its size in any spelling, perhaps an extension, and its data. */
  datatype Chunk = Chunk(size: string, ext: string, data: string)

  /** The size is that of the data, and the line of the size is within the limit. */
  predicate Announces(c: Chunk, max: nat) {
    && |c.size| > 0 && Digits(c.size, 16) && Spelled(c.size, 16) == |c.data| && |c.data| <= Largest(16)
    && IsExtension(c.ext) && |c.size| + |c.ext| + 2 <= max
  }

  /** The line in front of the data. */
  function SizeLine(size: string, ext: string): string {
    size + (ext + CRLF)
  }

  function PrintChunk(c: Chunk): string {
    SizeLine(c.size, c.ext) + (c.data + CRLF)
  }

  /** The line of a chunk's size, with or without an extension. */
  lemma SizeLineRead(p: Parser, size: string, ext: string, max: nat)
    requires p.state.ChunkSizeStart? && p.flags.chunked && p.nread == 0
    requires |size| > 0 && Digits(size, 16) && Spelled(size, 16) <= Largest(16)
    requires IsExtension(ext) && |size| + |ext| + 2 <= max
    ensures var n := Spelled(size, 16);
      var q := if n == 0 then p.(contentLength := 0, flags := p.flags.(trailing := true), state := HeaderFieldStart)
               else p.(contentLength := n, state := ChunkData);
      Run(p, SizeLine(size, ext), max) == Result(q, [Notify(ChunkHeader)], Go)
  {
    hide Run, Digits, Spelled, IsExtension;
    ChunkSizeIsExact(p, size, max);
    var a := p.(contentLength := Spelled(size, 16), state := ChunkSize, nread := |size|);
    ExtensionRead(a, ext, max);
    var b := a.(state := if ext == "" then ChunkSize else ChunkParameters, nread := |size| + |ext|);
    SizeLineEnds(b, max);
    RunAppend(p, size, ext + CRLF, max);
    RunAppend(a, ext, CRLF, max);
    assert [] + [Notify(ChunkHeader)] == [Notify(ChunkHeader)];
  }

  function ChunkReport(data: string): seq<Event> {
    [Notify(ChunkHeader), Data(Body, data), Notify(ChunkComplete)]
  }

  lemma ChunkReportMerged(es: seq<Event>, data: string)
    requires Merge(es) == [Data(Body, data)]
    ensures Merge([Notify(ChunkHeader)] + (es + [Notify(ChunkComplete)])) == ChunkReport(data)
  {
    MergeOne([], Notify(ChunkHeader));
    assert [] + [Notify(ChunkHeader)] == [Notify(ChunkHeader)];
    MergeNothing();
    MergeOne(es, Notify(ChunkComplete));
    MergeBehindSignal([Notify(ChunkHeader)], es + [Notify(ChunkComplete)]);
  }

  /** One chunk: the header, the data, the end of the chunk, and the record back where it was. */
  lemma OneChunk(p: Parser, c: Chunk, max: nat)
    requires p.state.ChunkSizeStart? && p.flags.chunked && p.nread == 0
    requires Announces(c, max) && |c.data| > 0
    ensures var r := Run(p, PrintChunk(c), max);
      r.stop.Go? && r.p == p.(contentLength := 0) && Merge(r.events) == ChunkReport(c.data)
  {
    hide StepByte, Merge, Run, Digits, SizeLine, IsExtension;
    SizeLineRead(p, c.size, c.ext, max);
    var p1 := p.(contentLength := |c.data|, state := ChunkData);
    ChunkBytes(p1, c.data, max);
    var p2 := p.(contentLength := 0, state := ChunkDataAlmostDone);
    DataLineEnds(p2, max);
    RunAppend(p, SizeLine(c.size, c.ext), c.data + CRLF, max);
    RunAppend(p1, c.data, CRLF, max);
    ChunkReportMerged(Run(p1, c.data, max).events, c.data);
  }

  const LAST_CHUNK := "0\r\n\r\n"

  function Trailing(p: Parser): Parser {
    p.(contentLength := 0, flags := p.flags.(trailing := true), state := NewMessage(p), nread := 2)
  }

  const LAST_REPORT := [Notify(ChunkHeader), Notify(ChunkComplete), Notify(MessageComplete)]

  /** The second byte of the empty line. */
  lemma TrailerEnds(q: Parser, max: nat)
    requires q.state.HeadersAlmostDone? && q.flags.trailing && q.nread + 1 <= max
    ensures StepByte(q, '\n', max)
      == Result(q.(state := NewMessage(q), nread := q.nread + 1), [Notify(ChunkComplete), Notify(MessageComplete)], StopOf(q))
  {
    hide Dispatch, StepByte;
    var q1 := q.(nread := q.nread + 1);
    TrailerStates(q1, '\n');
    var o := StepHeadersAlmostDone(q1, '\n');
    assert o.acts == [Call(ChunkComplete), Call(MessageComplete)];
    Call2Byte(q, '\n', o, ChunkComplete, MessageComplete, max);
    assert NewMessage(q1.(state := MessageDone)) == NewMessage(q);
  }

  /** The empty line behind the last chunk and its trailer. */
  lemma EmptyLine(p: Parser, max: nat)
    requires p.state.HeaderFieldStart? && p.flags.trailing && p.nread + 2 <= max
    ensures Run(p, CRLF, max)
      == Result(p.(state := NewMessage(p), nread := p.nread + 2), [Notify(ChunkComplete), Notify(MessageComplete)], StopOf(p))
  {
    hide Dispatch, StepByte, StepHeadersAlmostDone;
    TrailerStates(p.(nread := p.nread + 1), '\r');
    var q := p.(nread := p.nread + 1, state := HeadersAlmostDone);
    QuietByte(p, '\r', q, max);
    TrailerEnds(q, max);
    assert NewMessage(q) == NewMessage(p);
    TwoBytes(p, '\r', '\n', max);
    assert [] + [Notify(ChunkComplete), Notify(MessageComplete)] == [Notify(ChunkComplete), Notify(MessageComplete)];
  }

  /** The final chunk completes the message. */
  lemma LastChunk(p: Parser, max: nat)
    requires p.state.ChunkSizeStart? && p.flags.chunked && p.nread == 0 && max >= 3
    ensures Run(p, LAST_CHUNK, max) == Result(Trailing(p), LAST_REPORT, StopOf(p))
  {
    hide StepByte, Run, NewMessage;
    assert Spelled("0", 16) == 0;
    SizeLineRead(p, "0", "", max);
    var q := p.(contentLength := 0, flags := p.flags.(trailing := true), state := HeaderFieldStart);
    EmptyLine(q, max);
    NewMessageTrailing(p);
    RunAppend(p, SizeLine("0", ""), CRLF, max);
    assert SizeLine("0", "") + CRLF == LAST_CHUNK;
    assert [Notify(ChunkHeader)] + [Notify(ChunkComplete), Notify(MessageComplete)] == LAST_REPORT;
  }

  /** In a chunked message neither the length nor the trailer decides whether the connection is kept. */
  lemma NewMessageTrailing(p: Parser)
    requires p.flags.chunked
    ensures NewMessage(p.(contentLength := 0, flags := p.flags.(trailing := true), state := HeaderFieldStart))
      == NewMessage(p)
  {}

  /** The chunks before the last. */
  type Chunks = seq<Chunk>

  predicate AllAnnounced(chunks: Chunks, max: nat) {
    forall i :: 0 <= i < |chunks| ==> Announces(chunks[i], max) && |chunks[i].data| > 0
  }

  function PrintData(chunks: Chunks): string {
    if |chunks| == 0 then "" else PrintData(chunks[..|chunks| - 1]) + PrintChunk(chunks[|chunks| - 1])
  }

  function PrintChunks(chunks: Chunks): string {
    PrintData(chunks) + LAST_CHUNK
  }

  function DataReport(chunks: Chunks): seq<Event> {
    if |chunks| == 0 then [] else DataReport(chunks[..|chunks| - 1]) + ChunkReport(chunks[|chunks| - 1].data)
  }

  function ReportOf(chunks: Chunks): seq<Event> {
    DataReport(chunks) + LAST_REPORT
  }

  /** Every chunk's data is delivered whole and in order between its header and its end. */
  lemma {:induction false} DataChunks(p: Parser, chunks: Chunks, max: nat)
    requires p.state.ChunkSizeStart? && p.flags.chunked && p.nread == 0 && AllAnnounced(chunks, max)
    ensures var r := Run(p, PrintData(chunks), max);
      && r.stop.Go? && r.p == (if chunks == [] then p else p.(contentLength := 0))
      && Merge(r.events) == DataReport(chunks)
    ensures DataReport(chunks) == [] || DataReport(chunks)[|DataReport(chunks)| - 1].Notify?
  {
    hide StepByte, Merge, Run, PrintChunk, Announces;
    if |chunks| == 0 {
      EmptyRun(p, max);
      MergeNothing();
    } else {
      var init, c := chunks[..|chunks| - 1], chunks[|chunks| - 1];
      DataChunks(p, init, max);
      var r := Run(p, PrintData(init), max);
      OneChunk(r.p, c, max);
      RunAppend(p, PrintData(init), PrintChunk(c), max);
      MergeBehindSignal(r.events, Run(r.p, PrintChunk(c), max).events);
    }
  }

  lemma EmptyRun(p: Parser, max: nat)
    ensures Run(p, "", max) == Result(p, [], Go)
  {}

  lemma LastReportMerged()
    ensures Merge(LAST_REPORT) == LAST_REPORT
  {
    var a, b, c := Notify(ChunkHeader), Notify(ChunkComplete), Notify(MessageComplete);
    MergeNothing();
    MergeOne([], a);
    MergeOne([a], b);
    MergeOne([a, b], c);
    assert [] + [a] == [a] && [a] + [b] == [a, b] && [a, b] + [c] == LAST_REPORT;
  }

  /** Chunked framing: every chunk's data is delivered whole and in order between its header and its end, and the
      message is complete exactly once, at the end. */
  lemma ChunkedBody(p: Parser, chunks: Chunks, max: nat)
    requires p.state.ChunkSizeStart? && p.flags.chunked && p.nread == 0 && max >= 3
    requires AllAnnounced(chunks, max)
    ensures var r := Run(p, PrintChunks(chunks), max);
      r.stop == StopOf(p) && r.p == Trailing(p) && Merge(r.events) == ReportOf(chunks)
  {
    hide StepByte, Merge, Run, AllAnnounced, NewMessage;
    DataChunks(p, chunks, max);
    var r := Run(p, PrintData(chunks), max);
    LastChunk(r.p, max);
    NewMessageLength(p);
    LastReportMerged();
    RunAppend(p, PrintData(chunks), LAST_CHUNK, max);
    MergeBehindSignal(r.events, LAST_REPORT);
  }

  lemma NewMessageLength(p: Parser)
    requires p.flags.chunked
    ensures NewMessage(p.(contentLength := 0)) == NewMessage(p)
  {}

  // ---- Printed by a server ----

  /** A size in upper-case hexadecimal. */
  function Hex(n: nat): (s: string)
    ensures |s| > 0
  {
    if n < 16 then ["0123456789ABCDEF"[n]] else Hex(n / 16) + ["0123456789ABCDEF"[n % 16]]
  }

  lemma HexDigit(d: nat)
    requires d < 16
    ensures Unhex("0123456789ABCDEF"[d]) == d
  {}

  lemma {:induction false} HexValue(n: nat)
    ensures Digits(Hex(n), 16) && Spelled(Hex(n), 16) == n
  {
    hide Unhex;
    HexDigit(n % 16);
    var ds := Hex(n);
    var init := ds[..|ds| - 1];
    if n < 16 {
      assert init == "" && Spelled(init, 16) == 0;
    } else {
      HexValue(n / 16);
      assert init == Hex(n / 16);
    }
  }

  /** Every sixteenfold takes one more digit. */
  lemma HexLength(n: nat, k: nat, bound: nat)
    requires n < bound && bound == Power16(k) && k > 0
    ensures |Hex(n)| <= k
  {
    if n >= 16 && k > 1 { HexLength(n / 16, k - 1, bound / 16); }
  }

  function Power16(k: nat): nat {
    if k == 0 then 1 else 16 * Power16(k - 1)
  }

  lemma Power16Of16()
    ensures Power16(16) == ULLONG_MAX + 1
  {
    assert Power16(4) == 65536;
    assert Power16(8) == 0x1_0000_0000;
    assert Power16(12) == 0x1_0000_0000_0000;
  }

  function Sized(datas: seq<string>): (chunks: Chunks)
    ensures |chunks| == |datas|
    ensures forall i :: 0 <= i < |datas| ==> chunks[i] == Chunk(Hex(|datas[i]|), "", datas[i])
  {
    seq(|datas|, i requires 0 <= i < |datas| => Chunk(Hex(|datas[i]|), "", datas[i]))
  }

  lemma SizesAnnounce(datas: seq<string>, max: nat)
    requires max >= 18 && forall i :: 0 <= i < |datas| ==> 0 < |datas[i]| <= Largest(16)
    ensures AllAnnounced(Sized(datas), max)
  {
    forall i | 0 <= i < |datas| ensures Announces(Chunk(Hex(|datas[i]|), "", datas[i]), max) {
      HexValue(|datas[i]|);
      Power16Of16();
      HexLength(|datas[i]|, 16, ULLONG_MAX + 1);
    }
  }

  /** Chunked round trip: any list of non-empty pieces, printed with upper-case sizes and a final chunk and fed in any
      split, is delivered piece by piece and completes the message once. */
  lemma ChunkedRoundTrip(p: Parser, datas: seq<string>, calls: seq<Fed>, max: nat)
    requires p.state.ChunkSizeStart? && p.flags.chunked && p.nread == 0 && max >= 18
    requires forall i :: 0 <= i < |datas| ==> 0 < |datas[i]| <= Largest(16)
    requires Chain(p, calls, max) && Input(calls) == PrintChunks(Sized(datas))
    ensures var o := Outcome(p, calls);
      o.stop == StopOf(p) && o.p == Trailing(p) && Merge(o.events) == ReportOf(Sized(datas))
    ensures DataOf(Merge(Outcome(p, calls).events)) == Concat(datas)
  {
    hide StepByte, Merge, Run, NewMessage;
    SizesAnnounce(datas, max);
    ChunkedBody(p, Sized(datas), max);
    ChainIsRun(p, calls, max);
    ReportIsData(datas);
  }

  function Concat(datas: seq<string>): string {
    if |datas| == 0 then "" else Concat(datas[..|datas| - 1]) + datas[|datas| - 1]
  }

  /** The body bytes of a list of callbacks. */
  function DataOf(es: seq<Event>): string {
    if |es| == 0 then ""
    else (if es[0].Data? && es[0].kind == Body then es[0].bytes else "") + DataOf(es[1..])
  }

  lemma {:induction false} DataOfAppend(a: seq<Event>, b: seq<Event>)
    ensures DataOf(a + b) == DataOf(a) + DataOf(b)
  {
    if |a| == 0 {
      assert a + b == b;
    } else {
      assert (a + b)[1..] == a[1..] + b;
      DataOfAppend(a[1..], b);
    }
  }

  lemma DataOfOne(e: Event)
    ensures DataOf([e]) == if e.Data? && e.kind == Body then e.bytes else ""
  {
    assert [e][1..] == [];
  }

  lemma DataOfChunk(data: string)
    ensures DataOf(ChunkReport(data)) == data && DataOf(LAST_REPORT) == ""
  {
    hide DataOf;
    DataOfOne(Notify(ChunkHeader));
    DataOfOne(Data(Body, data));
    DataOfOne(Notify(ChunkComplete));
    DataOfOne(Notify(MessageComplete));
    DataOfAppend([Notify(ChunkHeader)], [Data(Body, data)]);
    DataOfAppend([Notify(ChunkHeader)] + [Data(Body, data)], [Notify(ChunkComplete)]);
    assert ChunkReport(data) == [Notify(ChunkHeader)] + [Data(Body, data)] + [Notify(ChunkComplete)];
    DataOfAppend([Notify(ChunkHeader)], [Notify(ChunkComplete)]);
    DataOfAppend([Notify(ChunkHeader)] + [Notify(ChunkComplete)], [Notify(MessageComplete)]);
    assert LAST_REPORT == [Notify(ChunkHeader)] + [Notify(ChunkComplete)] + [Notify(MessageComplete)];
    assert "" + data + "" == data;
  }

  lemma {:induction false} ChunksAreData(datas: seq<string>)
    ensures DataOf(DataReport(Sized(datas))) == Concat(datas)
  {
    hide DataOf, ChunkReport;
    if |datas| == 0 {
      assert DataOf([]) == "" by { DataOfNothing(); }
    } else {
      var init, data := datas[..|datas| - 1], datas[|datas| - 1];
      ChunksAreData(init);
      assert Sized(datas)[..|datas| - 1] == Sized(init);
      DataOfAppend(DataReport(Sized(init)), ChunkReport(data));
      DataOfChunk(data);
    }
  }

  lemma DataOfNothing()
    ensures DataOf([]) == ""
  {}

  lemma ReportIsData(datas: seq<string>)
    ensures DataOf(ReportOf(Sized(datas))) == Concat(datas)
  {
    hide DataOf;
    ChunksAreData(datas);
    DataOfAppend(DataReport(Sized(datas)), LAST_REPORT);
    DataOfChunk("");
    assert Concat(datas) + "" == Concat(datas);
  }
}
