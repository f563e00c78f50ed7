/** The parser accepts nothing but streams of messages: the converse of what is proved of printed messages. */
module HttpAccepted {
  import opened Basics
  import opened HttpChars
  import opened HttpTypes
  import opened HttpStep
  import opened HttpRun
  import opened HttpRelate
  import opened HttpFragments
  import opened HttpLengths
  import opened HttpBodies
  import opened HttpHeaders
  import opened HttpLines
  import opened HttpFraming
  import opened HttpMessages
  import opened HttpStreams
  import opened HttpEndings
  import opened HttpBlocks
  import opened HttpLeads
  import HttpExecute

  // ---- Limits ----

  lemma ByteUnlimited(p: Parser, ch: char, max: nat, more: nat)
    requires max <= more && !StepByte(p, ch, max).stop.Fail?
    ensures StepByte(p, ch, more) == StepByte(p, ch, max)
  {
    hide Dispatch, Perform, FlushAll;
  }

  /** A limit that is not met does not matter. */
  lemma {:induction false} Unlimited(p: Parser, t: string, max: nat, more: nat)
    requires max <= more && !Run(p, t, max).stop.Fail?
    ensures Run(p, t, more) == Run(p, t, max)
  {
    hide StepByte;
    if t != "" {
      Unlimited(p, t[..|t| - 1], max, more);
      if Run(p, t[..|t| - 1], max).stop.Go? { ByteUnlimited(Run(p, t[..|t| - 1], max).p, t[|t| - 1], max, more); }
    }
  }

  // ---- Chunks ----

  predicate IsHexDigit(ch: char) { Unhex(ch) != -1 }

  predicate IsInExtension(ch: char) { ch != '\r' }

  lemma ChunkTaken(p: Parser, ch: char, max: nat)
    requires !StepByte(p, ch, max).stop.Fail?
    ensures p.state.ChunkSizeStart? ==> IsHexDigit(ch)
    ensures p.state.ChunkSize? ==> IsHexDigit(ch) || ch == '\r' || ch == ';' || ch == ' '
    ensures p.state.ChunkSizeAlmostDone? || p.state.ChunkDataDone? ==> ch == '\n'
    ensures p.state.ChunkDataAlmostDone? ==> ch == '\r'
  {
    hide Dispatch, StepByte, Unhex;
    var q := if ParsingHeader(p.state) then p.(nread := p.nread + 1) else p;
    Taken(p, ch, max);
    ChunkHeadStates(q, ch);
    StartState(q, ch);
    hide MayOverflow, Shift;
  }

  lemma StartState(p: Parser, ch: char)
    ensures p.state.ChunkSizeStart? ==> Dispatch(p, ch) == StepChunkSizeStart(p, ch)
  {
    hide StepChunkSizeStart;
  }

  lemma HexDigitsAll(ds: string)
    requires forall i | 0 <= i < |ds| :: IsHexDigit(ds[i])
    ensures Digits(ds, 16)
  {}

  /** An extension, as far as its line goes. */
  function ExtensionOf(t: string): string {
    if t != "" && (t[0] == ';' || t[0] == ' ') then t[..Span(t, IsInExtension)] else ""
  }

  lemma ExtensionIs(t: string)
    ensures ExtensionOf(t) <= t && IsExtension(ExtensionOf(t))
    ensures var u := t[|ExtensionOf(t)|..]; ExtensionOf(t) != "" && u != "" ==> u[0] == '\r'
    ensures t != "" && ExtensionOf(t) == "" ==> !(t[0] == ';' || t[0] == ' ')
  {}

  /** The end of a size line. */
  lemma SizeEndFound(p: Parser, t: string, max: nat) returns (whole: bool)
    requires (p.state.ChunkSize? || p.state.ChunkParameters?) && p.flags.chunked && (t != "" ==> t[0] == '\r')
    requires !Run(p, t, max).stop.Fail? && p.nread + |t| <= max
    ensures if whole then CRLF <= t else Cut(p, t, max)
  {
    hide Run, StepByte, Dispatch;
    if t == "" {
      EmptyRun(p, max);
      return false;
    }
    FirstTaken(p, t, max);
    ChunkHeadStates(p.(nread := p.nread + 1), '\r');
    var q := p.(nread := p.nread + 1, state := ChunkSizeAlmostDone);
    QuietByte(p, '\r', q, max);
    assert [t[0]] <= t;
    GoesOn(p, [t[0]], t, max);
    var u := t[1..];
    if u == "" {
      EmptyRun(q, max);
      return false;
    }
    FirstTaken(q, u, max);
    ChunkTaken(q, u[0], max);
    assert t[1] == '\n';
    return true;
  }

  /** The size line of a chunk, however many bytes the limit leaves it. */
  lemma SizeFound(p: Parser, t: string, max: nat) returns (f: Option<(string, string)>)
    requires AtChunk(p) && !Run(p, t, max).stop.Fail? && |t| <= max
    ensures match f
            case None => Cut(p, t, max)
            case Some(x) =>
              && x.0 != "" && Digits(x.0, 16) && Spelled(x.0, 16) <= Largest(16) && IsExtension(x.1) && SizeLine(x.0, x.1) <= t
  {
    hide Run, StepByte, Digits, Spelled, IsExtension, ExtensionOf;
    if t == "" {
      EmptyRun(p, max);
      return None;
    }
    FirstTaken(p, t, max);
    ChunkTaken(p, t[0], max);
    var k := Span(t, IsHexDigit);
    var ds, u := t[..k], t[k..];
    HexDigitsAll(ds);
    assert ds <= t && t == ds + u;
    Unfailed(p, ds, t, max);
    ChunkSizeIsExact(p, ds, max);
    GoesOn(p, ds, t, max);
    var q := Run(p, ds, max).p;
    if u == "" {
      EmptyRun(q, max);
      return None;
    }
    FirstTaken(q, u, max);
    ChunkTaken(q, u[0], max);
    var e := ExtensionEndFound(q, u, max);
    if e.None? { return None; }
    f := Some((ds, e.value));
    Prefixed(ds, e.value + CRLF, u);
  }

  lemma ExtensionEndFound(q: Parser, u: string, max: nat) returns (e: Option<string>)
    requires q.state.ChunkSize? && q.flags.chunked && u != "" && (u[0] == '\r' || u[0] == ';' || u[0] == ' ')
    requires !Run(q, u, max).stop.Fail? && q.nread + |u| <= max
    ensures match e case None => Cut(q, u, max) case Some(x) => IsExtension(x) && x + CRLF <= u
  {
    hide Run, StepByte, IsExtension, ExtensionOf;
    var ext := ExtensionOf(u);
    ExtensionIs(u);
    var v := u[|ext|..];
    assert u == ext + v;
    ExtensionRead(q, ext, max);
    GoesOn(q, ext, u, max);
    var r := q.(state := if ext == "" then ChunkSize else ChunkParameters, nread := q.nread + |ext|);
    var whole := SizeEndFound(r, v, max);
    if !whole { return None; }
    Prefixed(ext, CRLF, v);
    return Some(ext);
  }

  /** The line of a size that is read is within the limit. */
  lemma SizeBound(p: Parser, size: string, ext: string, max: nat)
    requires AtChunk(p) && size != "" && Digits(size, 16) && Spelled(size, 16) <= Largest(16) && IsExtension(ext)
    requires !Run(p, SizeLine(size, ext), max).stop.Fail?
    ensures |size| + |ext| + 2 <= max
  {
    hide Run, StepByte, Digits, Spelled, IsExtension;
    var t, big := size + ext + "\r", max + |size| + |ext| + 2;
    assert t + "\n" == SizeLine(size, ext) && t <= SizeLine(size, ext);
    Unfailed(p, t, SizeLine(size, ext), max);
    SizeReturn(p, size, ext, big);
    Unlimited(p, t, max, big);
    GoesOn(p, t, SizeLine(size, ext), max);
    var q := Run(p, t, max).p;
    assert SizeLine(size, ext)[|t|..] == "\n";
    FirstTaken(q, "\n", max);
    Limited(q, '\n', max);
  }

  lemma SizeReturn(p: Parser, size: string, ext: string, max: nat)
    requires AtChunk(p) && size != "" && Digits(size, 16) && Spelled(size, 16) <= Largest(16) && IsExtension(ext)
    requires |size| + |ext| + 2 <= max
    ensures var r := Run(p, size + ext + "\r", max);
      r.stop.Go? && r.p.state.ChunkSizeAlmostDone? && r.p.nread == |size| + |ext| + 1
  {
    hide Run, StepByte, Digits, Spelled, IsExtension, Dispatch;
    ChunkSizeIsExact(p, size, max);
    var a := Run(p, size, max).p;
    ExtensionRead(a, ext, max);
    var b := a.(state := if ext == "" then ChunkSize else ChunkParameters, nread := |size| + |ext|);
    ChunkHeadStates(b.(nread := b.nread + 1), '\r');
    QuietByte(b, '\r', b.(nread := b.nread + 1, state := ChunkSizeAlmostDone), max);
    OneByteRun(b, '\r', max);
    RunAppend(p, size, ext, max);
    RunAppend(p, size + ext, "\r", max);
  }

  // ---- The data of a chunk ----

  /** The data, and the line end behind it. */
  lemma DataFound(p: Parser, n: nat, t: string, max: nat) returns (whole: bool)
    requires InBodyOf(p, n) && n > 0 && p.state.ChunkData? && !Run(p, t, max).stop.Fail?
    ensures if whole then |t| >= n + 2 && t[n..n + 2] == CRLF else Cut(p, t, max)
  {
    hide Run, StepByte, Merge, Dispatch;
    if |t| < n {
      InnerBytes(p, t, max);
      return false;
    }
    var d, u := t[..n], t[n..];
    assert d <= t && t == d + u;
    ChunkBytes(p, d, max);
    GoesOn(p, d, t, max);
    var q := p.(contentLength := 0, state := ChunkDataAlmostDone);
    if u == "" {
      EmptyRun(q, max);
      return false;
    }
    FirstTaken(q, u, max);
    ChunkTaken(q, u[0], max);
    ChunkHeadStates(q, '\r');
    UnmarkedFlush(q, '\r', q.(state := ChunkDataDone), max);
    assert [u[0]] <= u;
    GoesOn(q, [u[0]], u, max);
    var r, v := q.(state := ChunkDataDone), u[1..];
    if v == "" {
      EmptyRun(r, max);
      return false;
    }
    FirstTaken(r, v, max);
    ChunkTaken(r, v[0], max);
    assert t[n..n + 2] == [u[0], v[0]] == CRLF;
    return true;
  }

  /** A chunk with data, the line of the last chunk, or the beginning of one of them. */
  datatype Piece = Half | One(chunk: Chunk) | Last(size: string, ext: string)

  lemma PieceFound(p: Parser, t: string, max: nat) returns (f: Piece)
    requires AtChunk(p) && !Run(p, t, max).stop.Fail?
    ensures match f
            case Half => Cut(p, t, max)
            case One(c) => Announces(c, max) && c.data != "" && PrintChunk(c) <= t
            case Last(size, ext) =>
              && size != "" && Digits(size, 16) && Spelled(size, 16) == 0 && IsExtension(ext) && |size| + |ext| + 2 <= max
              && SizeLine(size, ext) <= t
  {
    hide Run, StepByte, Digits, Spelled, IsExtension, SizeLine;
    var big := max + |t|;
    Unlimited(p, t, max, big);
    var x := SizeFound(p, t, big);
    if x.None? { return Half; }
    var (size, ext) := x.value;
    var line := SizeLine(size, ext);
    Unfailed(p, line, t, max);
    SizeBound(p, size, ext, max);
    SizeLineRead(p, size, ext, max);
    GoesOn(p, line, t, max);
    var n, u := Spelled(size, 16), t[|line|..];
    assert t == line + u;
    if n == 0 { return Last(size, ext); }
    var whole := DataFound(p.(contentLength := n, state := ChunkData), n, u, max);
    if !whole { return Half; }
    f := One(Chunk(size, ext, u[..n]));
    assert u[..n] + CRLF <= u;
    Prefixed(line, u[..n] + CRLF, u);
  }

  // ---- A chunked body ----

  lemma {:induction false} DataFirst(c: Chunk, cs: Chunks)
    ensures PrintData([c] + cs) == PrintChunk(c) + PrintData(cs)
  {
    hide PrintChunk;
    if |cs| == 0 {
      assert ([c] + cs)[..0] == [] && [c] + cs == [c] && PrintData([]) == "";
      assert "" + PrintChunk(c) == PrintChunk(c) + "";
    } else {
      var init, last := cs[..|cs| - 1], cs[|cs| - 1];
      DataFirst(c, init);
      assert ([c] + cs)[..|cs|] == [c] + init && ([c] + cs)[|cs|] == last;
      assert PrintChunk(c) + PrintData(init) + PrintChunk(last) == PrintChunk(c) + (PrintData(init) + PrintChunk(last));
    }
  }

  /** A body in chunks up to the line of the last one, or the beginning of one. */
  lemma {:induction false} ChunksFound(p: Parser, t: string, max: nat) returns (f: Option<(Chunks, string, string)>)
    requires AtChunk(p) && !Run(p, t, max).stop.Fail?
    ensures match f
            case None => Cut(p, t, max)
            case Some(x) =>
              && AllAnnounced(x.0, max) && x.1 != "" && Digits(x.1, 16) && Spelled(x.1, 16) == 0 && IsExtension(x.2)
              && |x.1| + |x.2| + 2 <= max && PrintData(x.0) + SizeLine(x.1, x.2) <= t
    decreases |t|
  {
    hide Run, Digits, Spelled, IsExtension, SizeLine, Announces, PrintChunk, Merge;
    var piece := PieceFound(p, t, max);
    match piece
    case Half => f := None;
    case Last(size, ext) =>
      f := Some(([], size, ext));
      assert PrintData([]) == "" && "" + SizeLine(size, ext) == SizeLine(size, ext);
    case One(c) =>
      OneChunk(p, c, max);
      GoesOn(p, PrintChunk(c), t, max);
      ChunkHasText(c);
      var u := t[|PrintChunk(c)|..];
      assert t == PrintChunk(c) + u;
      var rest := ChunksFound(p.(contentLength := 0), u, max);
      match rest
      case None => f := None;
      case Some(x) =>
        f := Some(([c] + x.0, x.1, x.2));
        DataFirst(c, x.0);
        Prefixed(PrintChunk(c), PrintData(x.0) + SizeLine(x.1, x.2), u);
        assert PrintChunk(c) + PrintData(x.0) + SizeLine(x.1, x.2) == PrintChunk(c) + (PrintData(x.0) + SizeLine(x.1, x.2));
  }

  lemma ChunkHasText(c: Chunk)
    ensures |PrintChunk(c)| > 0
  {}

  lemma PartIsInner(x: Partial)
    ensures Inner(StateAt(x))
  {}

  /** The whole of a chunked body, or the beginning of one. */
  lemma ChunkedFound(p: Parser, t: string, max: nat) returns (f: Option<(Chunks, Tail)>)
    requires AtChunk(p) && !Run(p, t, max).stop.Fail?
    ensures match f
            case None => Cut(p, t, max)
            case Some(x) =>
              && AllAnnounced(x.0, max) && IsTail(x.1, max) && FrameOf(TrailerFrame(p), x.1.fields).Good?
              && PrintBody(Chunked(x.0, x.1)) <= t
  {
    hide Run, Digits, Spelled, IsExtension, SizeLine, AllAnnounced, PrintData, TrailerFrame, Sees, FrameOf, AreLines, Merge,
      AtTrailer, HeaderText;
    var head := ChunksFound(p, t, max);
    match head
    case None => f := None;
    case Some(x) =>
      var line := PrintData(x.0) + SizeLine(x.1, x.2);
      ChunksEnd(p, x.0, x.1, x.2, max);
      GoesOn(p, line, t, max);
      var z, u := Run(p, line, max).p, t[|line|..];
      assert t == line + u;
      var block := HeadersFound(z, u, max);
      match block
      case Part(y) =>
        PartIsInner(y);
        f := None;
      case Block(ls, e) =>
        var tail := Tail(x.1, x.2, ls, e);
        TrailerGood(z, ls, e, u, max);
        f := Some((x.0, tail));
        Prefixed(line, HeaderText(ls, e), u);
        assert PrintBody(Chunked(x.0, tail)) == line + HeaderText(ls, e) by {
          assert PrintData(x.0) + (SizeLine(x.1, x.2) + HeaderText(ls, e)) == line + HeaderText(ls, e);
        }
  }

  /** The record behind the line of the last chunk. */
  lemma ChunksEnd(p: Parser, chunks: Chunks, size: string, ext: string, max: nat)
    requires AtChunk(p) && AllAnnounced(chunks, max)
    requires size != "" && Digits(size, 16) && Spelled(size, 16) == 0 && IsExtension(ext) && |size| + |ext| + 2 <= max
    ensures var r := Run(p, PrintData(chunks) + SizeLine(size, ext), max);
      && r.stop.Go? && r.p.state.HeaderFieldStart? && r.p.nread == 0 && r.p.flags.trailing && r.p.flags.chunked
      && r.p.contentLength == 0 && AtLine(r.p) && TrailerFrame(r.p) == TrailerFrame(p)
  {
    hide Run, Merge, AllAnnounced, SizeLine, Digits, Spelled, TrailerFrame, IsExtension;
    DataChunks(p, chunks, max);
    var r := Run(p, PrintData(chunks), max);
    SizeLineRead(r.p, size, ext, max);
    RunAppend(p, PrintData(chunks), SizeLine(size, ext), max);
    SameTrailer(p);
    TrailerOf(r.p);
  }

  /** A trailer that is not refused has a frame. */
  lemma TrailerGood(z: Parser, ls: seq<Line>, e: string, u: string, max: nat)
    requires AtLine(z) && z.flags.trailing && z.flags.chunked && z.contentLength == 0
    requires AreLines(ls) && IsEol(e) && z.nread + |HeaderText(ls, e)| <= max && HeaderText(ls, e) <= u
    requires !Run(z, u, max).stop.Fail?
    ensures FrameOf(TrailerFrame(z), ls).Good?
  {
    hide Run, FrameOf, TrailerFrame, AreLines, HeaderText, Merge;
    Unfailed(z, HeaderText(ls, e), u, max);
    TrailerRead(z, ls, e, max);
  }

  // ---- Bodies ----

  lemma LengthFound(q: Parser, n: nat, t: string, max: nat)
    requires InBodyOf(q, n) && n > 0 && q.state.BodyIdentity? && |t| < n
    ensures Cut(q, t, max)
  {
    hide Run, Merge;
    InnerBytes(q, t, max);
  }

  /** The whole of a body, or the beginning of one. */
  lemma BodyFound(p: Parser, g: Frame, q: Parser, t: string, max: nat) returns (c: Option<Content>)
    requires Knows(p, g, q) && Ends(p, g, q, Go) && !Decide(p, g).Complete? && !Run(q, t, max).stop.Fail?
    ensures match c
            case None => Cut(q, t, max)
            case Some(x) => Suits(p, g, x, max) && PrintBody(x) <= t && (x.Open? ==> PrintBody(x) == t)
  {
    hide Run, AllAnnounced, IsTail, FrameOf, Sees, Afterwards, TrailerFrame;
    match Decide(p, g)
    case Length(n) =>
      if |t| < n {
        LengthFound(q, n, t, max);
        c := None;
      } else {
        c := Some(Plain(t[..n]));
      }
    case UntilClose => c := Some(Open(t));
    case Chunks =>
      ChunksKnown(p, g, q);
      TrailerSees(q);
      var f := ChunkedFound(q, t, max);
      c := if f.Some? then Some(Chunked(f.value.0, f.value.1)) else None;
  }

  // ---- Messages ----

  /** A record between messages. */
  predicate Waits(p: Parser) {
    match p.kind
    case Request => p.state.StartReq? || p.state.Dead?
    case Response => p.state.StartRes? || p.state.Dead?
    case Both => p.state.StartReqOrRes?
  }

  lemma EitherFound(p: Parser, t: string, max: nat) returns (q: Parser)
    requires p.kind.Both? && p.state.StartReqOrRes? && |t| > 1 && !IsBreak(t[0]) && p.nread + 2 <= max
    requires !Run(p, t, max).stop.Fail?
    ensures q == p.(kind := Request, state := StartReq) || q == p.(kind := Response, state := StartRes)
    ensures Run(q, t, max) == Run(p, t, max)
  {
    hide Run, StepByte;
    FirstTaken(p, t, max);
    var u := t[1..];
    assert t == [t[0]] + u;
    StartGoes(p, t[0], max);
    if t[0] != 'H' {
      q := p.(kind := Request, state := StartReq);
      OtherLetter(p, t[0], max);
      OneByteRun(q, t[0], max);
      RunAppend(p, [t[0]], u, max);
      RunAppend(q, [t[0]], u, max);
    } else {
      FirstH(p, max);
      GoesOn(p, [t[0]], t, max);
      var h := StartMessage(p).(nread := p.nread + 1, state := ResOrRespH);
      FirstTaken(h, u, max);
      SecondTaken(h, u[0], max);
      q := if u[0] == 'E' then p.(kind := Request, state := StartReq) else p.(kind := Response, state := StartRes);
      LetterH(p, max);
      var w := if u[0] == 'E' then "HE" else "HT";
      assert t == w + t[2..];
      RunAppend(p, w, t[2..], max);
      RunAppend(q, w, t[2..], max);
    }
  }

  lemma SecondTaken(p: Parser, ch: char, max: nat)
    requires p.state.ResOrRespH? && !StepByte(p, ch, max).stop.Fail?
    ensures ch == 'E' || ch == 'T'
  {
    hide Dispatch, StepByte;
    Taken(p, ch, max);
    EitherHandlers(p.(nread := p.nread + 1), ch);
  }

  /** A first line, or the beginning of one. */
  lemma FirstFound(p: Parser, t: string, max: nat) returns (f: Option<First>)
    requires Waits(p) && !p.state.Dead? && t != "" && !IsBreak(t[0]) && !Run(p, t, max).stop.Fail? && p.nread + |t| <= max
    ensures match f case None => Cut(p, t, max) case Some(x) => Expects(p, x) && IsFirst(x) && FirstText(x) <= t
  {
    hide Run, StepByte, IsFirst, FirstText;
    var q := p;
    if p.kind.Both? {
      if |t| == 1 {
        FirstTaken(p, t, max);
        assert t == [t[0]];
        FirstByteInner(p, t[0], max);
        StartGoes(p, t[0], max);
        return None;
      }
      q := EitherFound(p, t, max);
    }
    if q.kind.Request? { f := RequestFound(q, t, max); } else { f := StatusFound(q, t, max); }
  }

  lemma StartGoes(p: Parser, ch: char, max: nat)
    requires p.state.StartReqOrRes? && !StepByte(p, ch, max).stop.Fail?
    ensures StepByte(p, ch, max).stop.Go?
  {
    hide Dispatch, Perform, FlushAll;
    EitherHandlers(p.(nread := p.nread + 1), ch);
    hide FirstCandidate;
  }

  /** What comes between and behind messages: line breaks, a message with what follows it, or the beginning of one. */
  datatype Next = Breaks | Beginning | Full(m: Message)

  lemma BreaksSpan(t: string) returns (k: nat)
    ensures k <= |t| && AreBreaks(t[..k]) && (k < |t| ==> !IsBreak(t[k]))
  {
    k := Span(t, IsBreak);
  }

  /** In front of the first line only line breaks are taken. */
  lemma {:induction false} BreaksTaken(p: Parser, b: string, t: string, max: nat)
    requires Idle(p.state) && AreBreaks(b) && b <= t && !Run(p, t, max).stop.Fail?
    ensures b != "" ==> p.nread + |b| <= max
    ensures Run(p, b, max) == Result(p.(nread := p.nread + |b|), [], Go)
  {
    hide Run, IsBreak;
    Unfailed(p, b, t, max);
    var big := max + p.nread + |b|;
    Unlimited(p, b, max, big);
    BreaksRead(p, b, big);
    if b != "" {
      var init, ch := b[..|b| - 1], b[|b| - 1];
      assert init + [ch] == b;
      Unfailed(p, init, b, max);
      Unlimited(p, init, max, big);
      BreaksRead(p, init, big);
      LastTaken(p, init, ch, max);
    }
  }

  lemma LastTaken(p: Parser, init: string, ch: char, max: nat)
    requires Idle(p.state) && Run(p, init, max) == Result(p.(nread := p.nread + |init|), [], Go)
    requires !Run(p, init + [ch], max).stop.Fail?
    ensures p.nread + |init| + 1 <= max
  {
    hide Run, StepByte;
    RunSnoc(p, init, ch, max);
    Limited(p.(nread := p.nread + |init|), ch, max);
  }

  /** The headers of a message and its body, behind its first line. */
  lemma RestFound(p: Parser, breaks: string, f: First, q: Parser, t: string, max: nat) returns (r: Next)
    requires AreBreaks(breaks) && Expects(p, f) && IsFirst(f)
    requires Opens(p, f, q, p.nread + |breaks + FirstText(f)|) && !Run(q, t, max).stop.Fail?
    ensures match r
            case Breaks => false
            case Beginning => Cut(q, t, max)
            case Full(m) =>
              && IsMessage(p, m, max) && m.breaks == breaks && m.first == f
              && var u := HeaderText(m.headers, m.end) + PrintBody(m.content);
                 u <= t && (m.content.Open? ==> u == t)
  {
    hide Run, IsFirst, FirstText, AreLines, FrameOf, Sees, HeaderText, Merge, Opened, IsBreak, Suits, PrintBody;
    var found := HeadersFound(q, t, max);
    match found
    case Part(y) =>
      PartIsInner(y);
      r := Beginning;
    case Block(ls, e) =>
      assert Front(Message(breaks, f, ls, e, NoBody)) == breaks + FirstText(f);
      var c := ContentFound(p, f, q, ls, e, t, max);
      match c
      case None => r := Beginning;
      case Some(x) =>
        var m := Message(breaks, f, ls, e, x);
        assert Front(m) == breaks + FirstText(f);
        r := Full(m);
  }

  /** The body behind headers that are read. */
  lemma ContentFound(p: Parser, f: First, q: Parser, ls: seq<Line>, e: string, t: string, max: nat) returns (c: Option<Content>)
    requires Opens(p, f, q, q.nread) && AreLines(ls) && IsEol(e) && q.nread + |HeaderText(ls, e)| <= max
    requires HeaderText(ls, e) <= t && !Run(q, t, max).stop.Fail?
    ensures FrameOf(NO_FRAME, ls).Good?
    ensures match c
            case None => Cut(q, t, max)
            case Some(x) =>
              && Suits(Opened(p, f), FrameOf(NO_FRAME, ls).frame, x, max)
              && HeaderText(ls, e) + PrintBody(x) <= t && (x.Open? ==> HeaderText(ls, e) + PrintBody(x) == t)
  {
    hide Run, AreLines, FrameOf, Sees, HeaderText, Merge, Opened, NoHeadersYet, Afterwards, AllAnnounced, IsTail;
    var head := HeaderText(ls, e);
    var u := t[|head|..];
    assert t == head + u;
    Unfailed(q, head, t, max);
    NoHeadersSeen(q);
    HeadersDecide(q, ls, e, NO_FRAME, max);
    var g, o := FrameOf(NO_FRAME, ls).frame, Opened(p, f);
    SameDecision(o, q, g);
    if Decide(q, g).Complete? {
      NothingPrinted(NoBody);
      assert head + "" == head;
      return Some(NoBody);
    }
    var z := Run(q, head, max).p;
    GoesOn(q, head, t, max);
    c := BodyFound(q, g, z, u, max);
    if c.Some? { Prefixed(head, PrintBody(c.value), u); }
  }

  /** A message behind its line breaks. */
  function Unbroken(m: Message): string {
    FirstText(m.first) + (HeaderText(m.headers, m.end) + PrintBody(m.content))
  }

  lemma LineFound(p: Parser, b: string, u: string, max: nat) returns (r: Next)
    requires Waits(p) && !p.state.Dead? && AreBreaks(b) && u != "" && !IsBreak(u[0])
    requires !Run(p.(nread := p.nread + |b|), u, max).stop.Fail?
    ensures match r
            case Breaks => false
            case Beginning => Cut(p.(nread := p.nread + |b|), u, max)
            case Full(m) =>
              IsMessage(p, m, max) && m.breaks == b && Unbroken(m) <= u && (m.content.Open? ==> Unbroken(m) == u)
  {
    hide Run, IsFirst, FirstText, IsMessage, Merge, Opens, IsBreak, HeaderText, PrintBody;
    var p1, big := p.(nread := p.nread + |b|), max + p.nread + |b| + |u|;
    Unlimited(p1, u, max, big);
    var f := FirstFound(p1, u, big);
    if f.None? { return Beginning; }
    var first, line := f.value, FirstText(f.value);
    FirstRead(p1, first, big);
    Unfailed(p1, line, u, max);
    Unlimited(p1, line, max, big);
    GoesOn(p1, line, u, max);
    var q, v := Run(p1, line, max).p, u[|line|..];
    assert u == line + v;
    OpenedLater(p, first, |b|, q);
    r := RestFound(p, b, first, q, v, max);
    if r.Full? { Prefixed(line, HeaderText(r.m.headers, r.m.end) + PrintBody(r.m.content), v); }
  }

  /** Whatever is not refused goes on with line breaks alone, with a message, or with the beginning of one. */
  lemma MessageFound(p: Parser, t: string, max: nat) returns (r: Next)
    requires Waits(p) && !Run(p, t, max).stop.Fail?
    ensures match r
            case Breaks => AreBreaks(t) && (t != "" ==> p.nread + |t| <= max)
            case Beginning => Cut(p, t, max)
            case Full(m) => IsMessage(p, m, max) && Print(m) <= t && (m.content.Open? ==> Print(m) == t)
  {
    hide Run, IsMessage, IsBreak, Unbroken;
    var k := BreaksSpan(t);
    var b, u := t[..k], t[k..];
    assert b <= t && t == b + u;
    BreaksTaken(p, b, t, max);
    if u == "" {
      assert t == b;
      return Breaks;
    }
    GoesOn(p, b, t, max);
    NotDead(p.(nread := p.nread + k), u, max);
    r := LineFound(p, b, u, max);
    if r.Full? {
      Prefixed(b, Unbroken(r.m), u);
      BodyPrinted(r.m);
    }
  }

  lemma BodyPrinted(m: Message)
    ensures Print(m) == m.breaks + Unbroken(m)
  {
    hide FirstText, HeaderText, PrintBody;
    var w := HeaderText(m.headers, m.end) + PrintBody(m.content);
    assert m.breaks + FirstText(m.first) + w == m.breaks + (FirstText(m.first) + w);
  }

  lemma OpenedLater(p: Parser, f: First, k: nat, q: Parser)
    requires Opens(p.(nread := p.nread + k), f, q, p.nread + k + |FirstText(f)|)
    ensures forall b: string | |b| == k :: Opens(p, f, q, p.nread + |b + FirstText(f)|)
    ensures Expects(p.(nread := p.nread + k), f) == Expects(p, f)
  {
    hide FirstText;
  }

  /** Behind a closed connection nothing but line breaks is taken. */
  lemma NotDead(p: Parser, t: string, max: nat)
    requires t != "" && !IsBreak(t[0]) && !Run(p, t, max).stop.Fail?
    ensures !p.state.Dead?
  {
    hide Run, StepByte, Dispatch;
    FirstTaken(p, t, max);
    Taken(p, t[0], max);
    StartHandlers(p.(nread := p.nread + 1), t[0]);
  }

  // ---- Streams ----

  /** What stands behind the messages of `ms` in `t`. */
  ghost predicate Remains(p: Parser, ms: seq<Message>, t: string, max: nat) {
    && IsStream(p, ms, max) && StreamText(ms) <= t
    && var rest := t[|StreamText(ms)|..];
       || EndsInSwitch(p, ms, max)
       || (EndOf(p, ms, max).state.BodyIdentityEof? && rest == "")
       || (!EndOf(p, ms, max).state.BodyIdentityEof? && AreBreaks(rest) && (rest != "" ==> EndOf(p, ms, max).nread + |rest| <= max))
       || Cut(p, t, max)
  }

  lemma LeftWaits(p: Parser, m: Message, max: nat)
    requires IsMessage(p, m, max) && !m.content.Open?
    ensures Waits(Left(p, m, max))
  {
    assert Expects(p, m.first);
    OpenedKind(p, m.first);
    hide IsMessage, Keeps, Opened;
  }

  lemma OpenedKind(p: Parser, f: First)
    ensures Expects(p, f) ==> Opened(p, f).kind == if f.Ask? then Request else Response
  {}

  /** A message in front of a stream. */
  lemma StreamFirst(p: Parser, m: Message, ms: seq<Message>, max: nat)
    requires IsMessage(p, m, max) && !Leaves(p, m) && IsStream(Left(p, m, max), ms, max)
    ensures IsStream(p, [m] + ms, max) && StreamText([m] + ms) == Print(m) + StreamText(ms)
    ensures EndOf(p, [m] + ms, max) == EndOf(Left(p, m, max), ms, max)
    ensures EndsInSwitch(p, [m] + ms, max) == EndsInSwitch(Left(p, m, max), ms, max)
  {
    hide IsMessage, Leaves, Left, Print;
    assert ([m] + ms)[1..] == ms;
    if |ms| == 0 { assert !EndsInSwitch(Left(p, m, max), ms, max); }
  }

  lemma OneMessage(p: Parser, m: Message, max: nat)
    requires IsMessage(p, m, max)
    ensures IsStream(p, [m], max) && StreamText([m]) == Print(m) && EndOf(p, [m], max) == Left(p, m, max)
    ensures EndsInSwitch(p, [m], max) == Leaves(p, m)
  {
    hide IsMessage, Leaves, Left, Print;
    assert [m][1..] == [] && StreamText([]) == "" && Print(m) + "" == Print(m);
    assert EndOf(Left(p, m, max), [], max) == Left(p, m, max);
  }

  lemma MessageHasText(m: Message)
    ensures |Print(m)| > 0
  {
    FirstLetters(m.first);
    hide FirstText;
  }

  lemma MessageFramed(p: Parser, m: Message, max: nat)
    requires IsMessage(p, m, max)
    ensures AreLines(m.headers) && FrameOf(NO_FRAME, m.headers).Good?
  {}

  /** Whatever is not refused is a stream of messages, with nothing behind it but line breaks, the beginning of another message,
      or the bytes of another protocol. */
  lemma {:induction false} StreamFound(p: Parser, t: string, max: nat) returns (ms: seq<Message>)
    requires Waits(p) && !Run(p, t, max).stop.Fail?
    ensures Remains(p, ms, t, max)
    decreases |t|
  {
    hide Run, IsMessage, Left, Leaves, Print, Merge, AreBreaks;
    var next := MessageFound(p, t, max);
    match next
    case Breaks =>
      ms := [];
      NothingRemains(p, t, max);
    case Beginning =>
      ms := [];
      NothingRemains(p, t, max);
    case Full(m) =>
      OneMessage(p, m, max);
      MessageHasText(m);
      MessageFramed(p, m, max);
      if Leaves(p, m) || m.content.Open? {
        OpenLeft(p, m, max);
        ms := [m];
      } else {
        MessageRead(p, m, max);
        GoesOn(p, Print(m), t, max);
        var q, l, u := Run(p, Print(m), max).p, Left(p, m, max), t[|Print(m)|..];
        LeftWaits(p, m, max);
        LikeWaits(l, q);
        var rest := StreamFound(q, u, max);
        LikeStream(q, l, rest, max);
        StreamFirst(p, m, rest, max);
        ms := [m] + rest;
        assert t == Print(m) + u;
        Prefixed(Print(m), StreamText(rest), u);
        assert t[|StreamText(ms)|..] == u[|StreamText(rest)|..];
      }
  }

  lemma NothingRemains(p: Parser, t: string, max: nat)
    ensures IsStream(p, [], max) && StreamText([]) == "" && t[|StreamText([])|..] == t && EndOf(p, [], max) == p
  {}

  lemma OpenLeft(p: Parser, m: Message, max: nat)
    requires IsMessage(p, m, max)
    ensures m.content.Open? ==> Left(p, m, max).state.BodyIdentityEof?
  {
    hide IsMessage;
  }

  lemma LikeWaits(p: Parser, q: Parser)
    requires Like(p, q) && Waits(p)
    ensures Waits(q) && Like(q, p)
  {}

  // ---- What is accepted ----

  /** Messages that leave the connection to no other protocol, with line breaks behind them where it is not read until the
      close. */
  ghost predicate IsWhole(p: Parser, ms: seq<Message>, b: string, max: nat) {
    && IsStream(p, ms, max) && !EndsInSwitch(p, ms, max) && AreBreaks(b)
    && (b != "" ==> !EndOf(p, ms, max).state.BodyIdentityEof? && EndOf(p, ms, max).nread + |b| <= max)
  }

  /** The end of the connection is no error. */
  predicate EndsWell(r: Result) {
    r.stop.Go? && HttpExecute.AtEof(r.p.state).1.Clean?
  }

  lemma WholeEndsWell(p: Parser, ms: seq<Message>, b: string, max: nat)
    requires Waits(p) && IsWhole(p, ms, b, max)
    ensures EndsWell(Run(p, StreamText(ms) + b, max))
  {
    hide Run, Merge, IsStream, EndOf, EndsInSwitch, AreBreaks, StreamText;
    StreamRead(p, ms, max);
    RunAppend(p, StreamText(ms), b, max);
    var q := Run(p, StreamText(ms), max).p;
    if ms == [] { NothingRemains(p, b, max); } else { EndState(p, ms, max); }
    if b == "" {
      EmptyRun(q, max);
    } else {
      BreaksRead(q, b, max);
    }
  }

  /** The end of the connection is no error exactly behind a stream of whole messages and line breaks: nothing else is accepted,
      and no such stream is refused. */
  lemma AcceptedExactly(p: Parser, t: string, max: nat)
    requires Waits(p)
    ensures EndsWell(Run(p, t, max)) <==> exists ms, b :: IsWhole(p, ms, b, max) && t == StreamText(ms) + b
  {
    hide Run, Merge, IsStream, EndOf, EndsInSwitch, AreBreaks, StreamText;
    if EndsWell(Run(p, t, max)) {
      var ms := StreamFound(p, t, max);
      var b := t[|StreamText(ms)|..];
      assert t == StreamText(ms) + b;
      NotSwitched(p, ms, t, max);
      NotCut(p, t, max);
      EmptyBreaks();
      assert IsWhole(p, ms, b, max);
    }
    if exists ms, b :: IsWhole(p, ms, b, max) && t == StreamText(ms) + b {
      var ms, b :| IsWhole(p, ms, b, max) && t == StreamText(ms) + b;
      WholeEndsWell(p, ms, b, max);
    }
  }

  lemma EmptyBreaks()
    ensures AreBreaks("")
  {}

  lemma NotCut(p: Parser, t: string, max: nat)
    requires EndsWell(Run(p, t, max))
    ensures !Cut(p, t, max)
  {
    hide Run;
    if Cut(p, t, max) { EndInside(Run(p, t, max).p.state); }
  }

  lemma NotSwitched(p: Parser, ms: seq<Message>, t: string, max: nat)
    requires IsStream(p, ms, max) && StreamText(ms) <= t && Run(p, t, max).stop.Go?
    ensures !EndsInSwitch(p, ms, max)
  {
    hide Run, Merge, IsStream, EndOf, EndsInSwitch, StreamText;
    StreamRead(p, ms, max);
    assert StreamText(ms) + t[|StreamText(ms)|..] == t;
    RunAppend(p, StreamText(ms), t[|StreamText(ms)|..], max);
  }

  /** The same however the bytes are split. */
  lemma AcceptedInAnySplit(p: Parser, calls: seq<Fed>, max: nat)
    requires Waits(p) && Chain(p, calls, max)
    ensures EndsWell(Outcome(p, calls)) <==> exists ms, b :: IsWhole(p, ms, b, max) && Input(calls) == StreamText(ms) + b
  {
    hide Run, Merge, Chain, Outcome, IsWhole, StreamText;
    AcceptedExactly(p, Input(calls), max);
    RefusedInEverySplit(p, calls, max);
    if !Run(p, Input(calls), max).stop.Fail? { ChainIsRun(p, calls, max); }
  }

  /** The parser stops for another protocol exactly behind a stream that ends in a change of protocol. */
  lemma HandedOverExactly(p: Parser, t: string, max: nat)
    requires Waits(p)
    ensures Run(p, t, max).stop.Exit? <==>
      exists ms :: IsStream(p, ms, max) && EndsInSwitch(p, ms, max) && StreamText(ms) <= t
  {
    hide Run, Merge, IsStream, EndOf, EndsInSwitch, AreBreaks, StreamText;
    if Run(p, t, max).stop.Exit? {
      var ms := StreamFound(p, t, max);
      if !EndsInSwitch(p, ms, max) { NoExit(p, ms, t, max); }
    }
    if exists ms :: IsStream(p, ms, max) && EndsInSwitch(p, ms, max) && StreamText(ms) <= t {
      var ms :| IsStream(p, ms, max) && EndsInSwitch(p, ms, max) && StreamText(ms) <= t;
      StreamRead(p, ms, max);
      assert StreamText(ms) + t[|StreamText(ms)|..] == t;
      RunAppend(p, StreamText(ms), t[|StreamText(ms)|..], max);
    }
  }

  lemma NoExit(p: Parser, ms: seq<Message>, t: string, max: nat)
    requires Waits(p) && Remains(p, ms, t, max) && !EndsInSwitch(p, ms, max)
    ensures Run(p, t, max).stop.Go?
  {
    hide Run, Merge, IsStream, EndOf, EndsInSwitch, AreBreaks, StreamText;
    if !Cut(p, t, max) {
      var b := t[|StreamText(ms)|..];
      assert t == StreamText(ms) + b;
      EmptyBreaks();
      assert IsWhole(p, ms, b, max);
      WholeEndsWell(p, ms, b, max);
    }
  }
}
