/** From the headers to the body that they frame: section 3.3.3 of RFC 7230, and the body itself. */
module HttpMessages {
  import opened Basics
  import opened HttpChars
  import opened HttpTypes
  import opened HttpStep
  import opened HttpRun
  import opened HttpRelate
  import opened HttpFragments
  import opened HttpLengths
  import opened HttpBodies
  import opened HttpHeaders
  import opened HttpLines
  import opened HttpOptions
  import opened HttpValues
  import opened HttpFraming

  /** A message of which the first line has been read and no header yet. */
  predicate NoHeadersYet(p: Parser) {
    p.state.HeaderFieldStart? && p.flags == NO_FLAGS && !p.usesTransferEncoding && p.contentLength == ULLONG_MAX
  }

  // ---- Messages with one header ----

  const BLANK_LINE := "\r\n\r\n"

  /** A header line, the blank line behind it. */
  function Block(name: string, gap: string, value: string): string {
    name + ":" + gap + value + BLANK_LINE
  }

  lemma BlockIsLine(name: string, gap: string, value: string)
    ensures Block(name, gap, value) == HeaderText([Line(name, gap, value, [], CRLF)], CRLF)
  {
    var l := Line(name, gap, value, [], CRLF);
    assert [l][..0] == [];
    assert Texts([l]) == Texts([]) + Text(l) && "" + Text(l) == Text(l);
    assert CRLF + CRLF == BLANK_LINE;
    assert FoldsText([]) == "" && value + "" == value;
    assert Text(l) == name + ":" + gap + value + CRLF;
  }

  lemma OneFrame(f: Frame, l: Line)
    requires IsLine(l)
    ensures AreLines([l]) && FrameOf(f, [l]) == After(f, l)
  {
    hide After, IsLine;
    assert [l][..0] == [];
    assert FrameOf(f, []) == Good(f);
  }

  /** A message with the single header `name`, white space between colon and value included. */
  lemma OneHeader(p: Parser, name: string, gap: string, value: string, max: nat)
    requires NoHeadersYet(p) && IsLine(Line(name, gap, value, [], CRLF)) && p.nread + |Block(name, gap, value)| <= max
    ensures var r := Run(p, Block(name, gap, value), max);
      match After(NO_FRAME, Line(name, gap, value, [], CRLF))
      case Bad(e) => r.stop == Fail(e)
      case Good(g) => Ends(p, g, r.p, r.stop) && (!Decide(p, g).Refuse? ==> Knows(p, g, r.p))
  {
    hide Run, After, IsLine, Ends, Knows;
    var l := Line(name, gap, value, [], CRLF);
    BlockIsLine(name, gap, value);
    OneFrame(NO_FRAME, l);
    HeadersDecide(p, [l], CRLF, NO_FRAME, max);
  }

  lemma DigitsAnnounce(ds: string)
    requires ds != "" && Digits(ds, 10)
    ensures IsContent(ds) && !IsBlank(ds[0]) && IsNum(ds[0])
    ensures LengthOf(ds) == if Spelled(ds, 10) <= Largest(10) then Some(Spelled(ds, 10)) else None
  {
    DigitsLead(ds);
    assert forall i | 0 <= i < |ds| :: 0 <= Unhex(ds[i]) < 10 ==> IsNum(ds[i]);
    assert ds[..|ds|] == ds && ds[|ds|..] == "";
  }

  lemma {:induction false} DigitsLead(ds: string)
    requires Digits(ds, 10)
    ensures Leading(ds) == |ds|
  {
    if ds != "" {
      assert 0 <= Unhex(ds[0]) < 10;
      DigitsLead(ds[1..]);
    }
  }

  /** `Content-Length`: the body has the announced length, or the message is complete, or the number is refused. Behind
      CONNECT it is complete whatever the length. */
  lemma LengthFrames(p: Parser, name: string, gap: string, ds: string, max: nat)
    requires NoHeadersYet(p) && IsName(name) && Folded(name) == CONTENT_LENGTH && IsGap(gap)
    requires ds != "" && Digits(ds, 10) && p.nread + |Block(name, gap, ds)| <= max
    ensures var r, n := Run(p, Block(name, gap, ds), max), Spelled(ds, 10);
      if n > Largest(10) then r.stop == Fail(InvalidContentLength)
      else if p.verb.CONNECT? then r.stop.Exit?
      else r.stop.Go? && !r.p.upgrade && r.p.contentLength == n
           && if n > 0 then r.p.state.BodyIdentity? && InBodyOf(r.p, n)
              else r.p.state == Afterwards(p, NO_FRAME.(length := Some(0)))
  {
    assert |Folded(name)| == |name|;
    hide Run, Digits, IsName, Afterwards, IsContent, LengthOf, Folded, IsGap;
    DigitsAnnounce(ds);
    NoFolds();
    OneHeader(p, name, gap, ds, max);
  }

  lemma SingleLook(v: string)
    ensures ChunkedSeen(v, []) == EndsChunked(v) && forall o :: Wants(v, [], o) == Asks(v, o)
  {
    hide EndsChunked, Has, Codings;
  }

  /** `Transfer-Encoding`: chunks follow exactly when the list of codings is seen to end in `chunked`; otherwise a request
      is refused and a response lasts until the connection is closed. Behind CONNECT the message is complete. */
  lemma CodingFrames(p: Parser, name: string, gap: string, v: string, max: nat)
    requires NoHeadersYet(p) && IsName(name) && Folded(name) == TRANSFER_ENCODING && IsGap(gap)
    requires IsContent(v) && (v != "" ==> !IsBlank(v[0])) && p.nread + |Block(name, gap, v)| <= max
    ensures var r := Run(p, Block(name, gap, v), max);
      if p.verb.CONNECT? then r.stop.Exit?
      else if EndsChunked(v) then
        r.stop.Go? && r.p.state.ChunkSizeStart? && r.p.flags.chunked && r.p.nread == 0 && !r.p.upgrade
      else if p.kind.Request? then r.stop == Fail(InvalidTransferEncoding)
      else r.stop.Go? && r.p.state.BodyIdentityEof?
  {
    assert |Folded(name)| == |name|;
    hide Run, IsName, Afterwards, IsContent, Folded, EndsChunked, IsGap, ChunkedSeen;
    FramersApart();
    SingleLook(v);
    OneHeader(p, name, gap, v, max);
  }

  lemma LongerName(x: string)
    requires x != "" && IsName(x)
    ensures var w := TRANSFER_ENCODING + x;
      IsName(w) && TRANSFER_ENCODING <= Folded(w) && |Folded(w)| == |w|
  {
    var w := TRANSFER_ENCODING + x;
    hide Token;
    forall i: nat | i < |w|
      ensures Token(w[i]) != '\0' && (i < |TRANSFER_ENCODING| ==> Token(w[i]) == TRANSFER_ENCODING[i])
    {
      if i < |TRANSFER_ENCODING| { LowerLetters(i); } else { assert w[i] == x[i - |TRANSFER_ENCODING|]; }
    }
  }

  /** A message whose only header has a name that goes on behind `transfer-encoding` is treated, whatever the value, as if
      it had a transfer coding other than `chunked`: a request is refused, a response lasts until the connection is
      closed. */
  lemma LongerNameFrames(p: Parser, x: string, gap: string, v: string, max: nat)
    requires NoHeadersYet(p) && x != "" && IsName(x) && IsGap(gap) && IsContent(v) && (v != "" ==> !IsBlank(v[0]))
    requires p.nread + |Block(TRANSFER_ENCODING + x, gap, v)| <= max
    ensures var r := Run(p, Block(TRANSFER_ENCODING + x, gap, v), max);
      if p.verb.CONNECT? then r.stop.Exit?
      else if p.kind.Request? then r.stop == Fail(InvalidTransferEncoding) else r.stop.Go? && r.p.state.BodyIdentityEof?
  {
    hide Run, IsName, IsContent, Folded, IsGap;
    LongerName(x);
    assert |CONTENT_LENGTH| < |TRANSFER_ENCODING| && |UPGRADE| < |TRANSFER_ENCODING|;
    assert |CONNECTION| < |TRANSFER_ENCODING| && |PROXY_CONNECTION| < |TRANSFER_ENCODING|;
    OneHeader(p, TRANSFER_ENCODING + x, gap, v, max);
  }

  /** `Connection`: the record waits for another message exactly when the options and the version keep the connection. Here
      of a message that has no body. */
  lemma OptionFrames(p: Parser, name: string, gap: string, v: string, max: nat)
    requires NoHeadersYet(p) && IsName(name) && IsGap(gap) && (Folded(name) == CONNECTION || Folded(name) == PROXY_CONNECTION)
    requires IsContent(v) && (v != "" ==> !IsBlank(v[0])) && p.nread + |Block(name, gap, v)| <= max
    requires p.kind.Request? || 100 <= p.statusCode < 200 || p.statusCode == 204 || p.statusCode == 304
    requires !p.verb.CONNECT?
    ensures var r := Run(p, Block(name, gap, v), max);
      && r.stop.Go?
      && r.p.state == if (if p.httpMajor > 0 && p.httpMinor > 0 then !Asks(v, Close) else Asks(v, KeepAlive))
                      then (if p.kind.Request? then StartReq else StartRes) else Dead
  {
    assert |Folded(name)| == |name|;
    hide Run, IsName, IsContent, Folded, Asks, IsGap, Wants;
    FramersApart();
    SingleLook(v);
    OneHeader(p, name, gap, v, max);
  }

  /** `Content-Length` and `Transfer-Encoding` together are refused, unless the list of codings is seen to end in `chunked` and
      the parser allows it; then chunks follow. */
  lemma LengthAndCoding(p: Parser, length: Line, coding: Line, max: nat)
    requires NoHeadersYet(p) && !p.verb.CONNECT? && IsLine(length) && IsLine(coding) && length.folds == [] && coding.folds == []
    requires Folded(length.name) == CONTENT_LENGTH && length.value != "" && Digits(length.value, 10)
    requires Spelled(length.value, 10) <= Largest(10) && Folded(coding.name) == TRANSFER_ENCODING
    requires p.nread + |HeaderText([length, coding], CRLF)| <= max
    ensures var r := Run(p, HeaderText([length, coding], CRLF), max);
      if EndsChunked(coding.value) && p.allowChunkedLength then r.stop.Go? && r.p.state.ChunkSizeStart?
      else r.stop == Fail(UnexpectedContentLength)
  {
    hide Run, IsLine, Folded, ChunkedSeen, EndsChunked, Sees, Afterwards, Digits, Spelled, LengthOf;
    FramersApart();
    SingleLook(coding.value);
    DigitsAnnounce(length.value);
    NoFolds();
    TwoFrames(length, coding);
    NoHeadersSeen(p);
    HeadersDecide(p, [length, coding], CRLF, NO_FRAME, max);
  }

  /** `Upgrade` and `Connection`: the bytes behind the headers belong to another protocol exactly when the connection option asks
      for it too, in a request or in a response of status 101. */
  lemma UpgradeFrames(p: Parser, upgrade: Line, connection: Line, max: nat)
    requires NoHeadersYet(p) && !p.verb.CONNECT? && IsLine(upgrade) && IsLine(connection)
    requires Folded(upgrade.name) == UPGRADE && upgrade.value != "" && connection.folds == []
    requires Folded(connection.name) == CONNECTION
    requires p.nread + |HeaderText([upgrade, connection], CRLF)| <= max
    ensures var r := Run(p, HeaderText([upgrade, connection], CRLF), max);
      if Asks(connection.value, Switch) && (p.kind.Request? || p.statusCode == 101) then r.stop.Exit? else r.stop.Go?
  {
    hide Run, IsLine, Folded, Asks, Wants, Sees, Afterwards;
    var ls := [upgrade, connection];
    FramersApart();
    SingleLook(connection.value);
    TwoFrames(upgrade, connection);
    NoHeadersSeen(p);
    HeadersDecide(p, ls, CRLF, NO_FRAME, max);
  }

  lemma TwoFrames(a: Line, b: Line)
    requires IsLine(a) && IsLine(b)
    ensures AreLines([a, b])
    ensures After(NO_FRAME, a).Good? ==> FrameOf(NO_FRAME, [a, b]) == After(After(NO_FRAME, a).frame, b)
  {
    hide After, IsLine;
    assert [a, b][..1] == [a];
    OneFrame(NO_FRAME, a);
  }

  /** A message without headers: a request, and a response that never has a body, is complete; any other response lasts
      until the connection is closed. Behind CONNECT the message is complete. */
  lemma NoHeaderFrames(p: Parser, max: nat)
    requires NoHeadersYet(p) && p.nread + 2 <= max
    ensures var r := Run(p, CRLF, max);
      && r.stop == (if p.verb.CONNECT? then Exit else Go)
      && r.p.state == if p.kind.Request? || 100 <= p.statusCode < 200 || p.statusCode == 204 || p.statusCode == 304 || p.verb.CONNECT?
                      then Afterwards(p, NO_FRAME) else BodyIdentityEof
  {
    hide Run, Afterwards;
    HeadersDecide(p, [], CRLF, NO_FRAME, max);
    assert HeaderText([], CRLF) == CRLF;
  }

  // ---- Chunks, their last line, and the trailer ----

  /** What a record behind the last chunk knows of the message. */
  function TrailerFrame(p: Parser): Frame {
    Frame(p.usesTransferEncoding, p.flags.chunked, if p.flags.contentLength then Some(0) else None,
          AskedOf(p.flags), p.flags.upgrade)
  }

  function AskedOf(f: Flags): set<Opt> {
    (if f.keepAlive then {KeepAlive} else {}) + (if f.close then {Close} else {}) + (if f.connUpgrade then {Switch} else {})
  }

  /** The frame of the trailer, by the frame of the headers. */
  function FrameBehind(g: Frame): Frame {
    g.(length := if g.length.Some? then Some(0) else None)
  }

  lemma TrailerSees(p: Parser)
    ensures p.contentLength == 0 ==> Sees(p, TrailerFrame(p))
    ensures forall g :: Sees(p, g) ==> TrailerFrame(p) == FrameBehind(g)
  {
    forall g | Sees(p, g) ensures TrailerFrame(p) == FrameBehind(g) {
      assert TrailerFrame(p).asked == g.asked by {
        forall o: Opt ensures o in TrailerFrame(p).asked <==> o in g.asked {
          match o case KeepAlive => case Close => case Switch =>
        }
      }
    }
  }

  /** The fields of the trailer are read and delivered like headers, and count like them; the blank line behind them ends the
      message. */
  lemma TrailerRead(p: Parser, ts: seq<Line>, e: string, max: nat)
    requires AtLine(p) && p.flags.trailing && p.flags.chunked && p.contentLength == 0
    requires AreLines(ts) && IsEol(e) && p.nread + |HeaderText(ts, e)| <= max
    ensures var r := Run(p, HeaderText(ts, e), max);
      match FrameOf(TrailerFrame(p), ts)
      case Bad(e) => r.stop == Fail(e)
      case Good(g) =>
        && r.stop == StopOf(p) && Finished(p, g, r.p, p.nread + |HeaderText(ts, e)|)
        && Merge(r.events) == Report(ts) + [Notify(ChunkComplete), Notify(MessageComplete)]
  {
    hide Run, Merge, AreLines, FrameOf, Finished, Settled, Pending, Doomed, TrailerFrame, Sees, StopOf;
    TrailerSees(p);
    LinesRead(p, TrailerFrame(p), ts, max);
    RunAppend(p, Texts(ts), e, max);
    var r := Run(p, Texts(ts), max);
    if r.stop.Go? {
      ReadyCount(r.p);
      SettledRun(r.p, e, max);
      if FrameOf(TrailerFrame(p), ts).Good? {
        StaysChunked(TrailerFrame(p), ts);
        TrailerChunked(p);
        TrailerEnd(p, r, FrameOf(TrailerFrame(p), ts).frame, ts, e, max);
      }
    }
  }

  lemma TrailerChunked(p: Parser)
    ensures TrailerFrame(p).chunked == p.flags.chunked
  {}

  lemma {:induction false} StaysChunked(f: Frame, ls: seq<Line>)
    requires AreLines(ls) && f.chunked && FrameOf(f, ls).Good?
    ensures FrameOf(f, ls).frame.chunked
  {
    hide IsLine, Folded, LengthSeen, ChunkedSeen, Options;
    if |ls| > 0 { StaysChunked(f, ls[..|ls| - 1]); }
  }

  /** The message of `p` is over, and `n` bytes count against the next. */
  predicate Finished(p: Parser, g: Frame, q: Parser, n: nat) {
    SameLead(p, q) && q.state == Afterwards(p, g) && q.nread == n
  }

  lemma TrailerEnd(p: Parser, r: Result, g: Frame, ts: seq<Line>, e: string, max: nat)
    requires Carries(p, g, r.p) && p.flags.trailing && g.chunked
    requires Merge(r.events + Pending(r.p)) == Report(ts) && IsEol(e) && r.p.nread + |e| <= max
    ensures var s := Run(r.p, e, max);
      && s.stop == StopOf(p) && Finished(p, g, s.p, r.p.nread + |e|)
      && Merge(r.events + s.events) == Report(ts) + [Notify(ChunkComplete), Notify(MessageComplete)]
  {
    hide Run, Merge, Settled, Pending, Doomed;
    var z, end := Ready(r.p), [Notify(ChunkComplete), Notify(MessageComplete)];
    ReadyCount(r.p);
    SettledRun(r.p, e, max);
    EmptyEol(z, e, max);
    KeepsExactly(p, g, z);
    hide Afterwards, NewMessage, Sees;
    MergeApart(r.events + Pending(r.p), end);
    EndMerged();
    assert r.events + (Pending(r.p) + end) == r.events + Pending(r.p) + end;
  }

  /** The empty line behind a trailer, with or without its carriage return. */
  lemma EmptyEol(p: Parser, e: string, max: nat)
    requires p.state.HeaderFieldStart? && p.flags.trailing && IsEol(e) && p.nread + |e| <= max
    ensures Run(p, e, max)
      == Result(p.(state := NewMessage(p), nread := p.nread + |e|), [Notify(ChunkComplete), Notify(MessageComplete)], StopOf(p))
  {
    hide Run, StepByte, NewMessage;
    if e == LF {
      FeedIsEnd(p, max);
      TrailerEnds(p.(state := HeadersAlmostDone), max);
      OneByteRun(p, '\n', max);
      NewMessageState(p);
    } else {
      EmptyLine(p, max);
    }
  }

  lemma NewMessageState(p: Parser)
    ensures NewMessage(p.(state := HeadersAlmostDone)) == NewMessage(p)
  {}

  lemma EndMerged()
    ensures Merge([Notify(ChunkComplete), Notify(MessageComplete)]) == [Notify(ChunkComplete), Notify(MessageComplete)]
  {
    var a, b := Notify(ChunkComplete), Notify(MessageComplete);
    MergeOf(a);
    MergeOne([a], b);
    assert [a] + [b] == [a, b];
  }

  /** The last chunk in any spelling of its size, perhaps with an extension, and the trailer behind it. */
  datatype Tail = Tail(size: string, ext: string, fields: seq<Line>, end: string)

  predicate IsTail(t: Tail, max: nat) {
    && |t.size| > 0 && Digits(t.size, 16) && Spelled(t.size, 16) == 0 && IsExtension(t.ext) && |t.size| + |t.ext| + 2 <= max
    && AreLines(t.fields) && IsEol(t.end) && |HeaderText(t.fields, t.end)| <= max
  }

  function PrintTail(t: Tail): string {
    SizeLine(t.size, t.ext) + HeaderText(t.fields, t.end)
  }

  function TailReport(t: Tail): seq<Event> {
    [Notify(ChunkHeader)] + (Report(t.fields) + [Notify(ChunkComplete), Notify(MessageComplete)])
  }

  lemma TailLines(t: Tail, max: nat)
    requires IsTail(t, max)
    ensures AreLines(t.fields)
  {}

  /** Among the chunks of a message. */
  predicate AtChunk(p: Parser) {
    p.state.ChunkSizeStart? && p.flags.chunked && p.nread == 0 && !p.flags.skipBody
  }

  /** The record behind the line of the last chunk. */
  function AtTrailer(p: Parser): Parser {
    p.(contentLength := 0, flags := p.flags.(trailing := true), state := HeaderFieldStart)
  }

  lemma TrailerOf(p: Parser)
    ensures var q := AtTrailer(p); TrailerFrame(q) == TrailerFrame(p) && StopOf(q) == StopOf(p)
    ensures forall g, r, n :: Finished(AtTrailer(p), g, r, n) == Finished(p, g, r, n)
    ensures AtChunk(p) ==> AtLine(AtTrailer(p)) && AtTrailer(p).flags.trailing && AtTrailer(p).flags.chunked
    ensures AtTrailer(p).contentLength == 0 && AtTrailer(p).nread == p.nread
  {}

  /** The last chunk and its trailer: each field is delivered, and the message is complete once; or the trailer is refused
      for a `Content-Length` that is malformed or one too many. */
  lemma LastChunkAndTrailer(p: Parser, t: Tail, max: nat)
    requires AtChunk(p) && IsTail(t, max)
    ensures var r := Run(p, PrintTail(t), max);
      match FrameOf(TrailerFrame(p), t.fields)
      case Bad(e) => r.stop == Fail(e)
      case Good(g) => r.stop == StopOf(p) && Finished(p, g, r.p, |HeaderText(t.fields, t.end)|) && Merge(r.events) == TailReport(t)
  {
    hide Run, Merge, AreLines, FrameOf, Digits, Spelled, SizeLine, HeaderText, IsExtension, Afterwards;
    SizeLineRead(p, t.size, t.ext, max);
    var q := AtTrailer(p);
    TrailerOf(p);
    hide TrailerFrame, StopOf, Finished, AtTrailer;
    TrailerRead(q, t.fields, t.end, max);
    RunAppend(p, SizeLine(t.size, t.ext), HeaderText(t.fields, t.end), max);
    MergeOf(Notify(ChunkHeader));
    MergeBehindSignal([Notify(ChunkHeader)], Run(q, HeaderText(t.fields, t.end), max).events);
  }

  // ---- Bodies ----

  /** What stands behind the headers: nothing, a body of announced length, chunks and a trailer, or whatever comes before the
      connection is closed. */
  datatype Content = NoBody | Plain(body: string) | Chunked(chunks: Chunks, tail: Tail) | Open(body: string)

  function PrintBody(c: Content): string {
    match c
    case NoBody => ""
    case Plain(body) => body
    case Chunked(chunks, tail) => PrintData(chunks) + PrintTail(tail)
    case Open(body) => body
  }

  /** The callbacks behind the end of the headers. */
  function BodyReport(c: Content): seq<Event> {
    match c
    case NoBody => [Notify(MessageComplete)]
    case Plain(body) => [Data(Body, body), Notify(MessageComplete)]
    case Chunked(chunks, tail) => DataReport(chunks) + TailReport(tail)
    case Open(body) => if body == "" then [] else [Data(Body, body)]
  }

  /** A body as headers of frame `g` announce it; a trailer is not refused. */
  predicate Suits(p: Parser, g: Frame, c: Content, max: nat) {
    match Decide(p, g)
    case Refuse(_) => false
    case Complete => c.NoBody?
    case Length(n) => c.Plain? && |c.body| == n
    case Chunks =>
      c.Chunked? && AllAnnounced(c.chunks, max) && IsTail(c.tail, max) && FrameOf(FrameBehind(g), c.tail.fields).Good?
    case UntilClose => c.Open?
  }

  /** The frame of headers and trailer. */
  function FullFrame(g: Frame, c: Content): Frame
    requires c.Chunked? ==> AreLines(c.tail.fields) && FrameOf(FrameBehind(g), c.tail.fields).Good?
  {
    if c.Chunked? then FrameOf(FrameBehind(g), c.tail.fields).frame else g
  }

  /** The bytes of a body that count against the header limit of the next message: those of the trailer. */
  function Spent(c: Content): nat {
    if c.Chunked? then |HeaderText(c.tail.fields, c.tail.end)| else 0
  }

  /** The message of `p` has been read up to `q`. */
  predicate Reaches(p: Parser, g: Frame, c: Content, q: Parser, max: nat)
    requires Suits(p, g, c, max)
  {
    && SameLead(p, q) && q.nread == Spent(c)
    && q.state == if c.Open? then BodyIdentityEof else Afterwards(p, FullFrame(g, c))
  }

  lemma ChunksRead(p: Parser, g: Frame, c: Content, q: Parser, max: nat)
    requires Knows(p, g, q) && AtChunk(q) && Decide(p, g).Chunks? && Suits(p, g, c, max)
    ensures var r := Run(q, PrintBody(c), max);
      r.stop == StopOf(q) && Reaches(p, g, c, r.p, max) && Merge(r.events) == BodyReport(c)
  {
    hide Run, Merge, AllAnnounced, IsTail, FrameOf, PrintTail, TrailerFrame, Afterwards, Decide, HeaderText, TailReport;
    DataChunks(q, c.chunks, max);
    var r := Run(q, PrintData(c.chunks), max);
    TrailerSees(q);
    assert TrailerFrame(r.p) == TrailerFrame(q) by { SameTrailer(q); }
    LastChunkAndTrailer(r.p, c.tail, max);
    assert AreLines(c.tail.fields) by { TailLines(c.tail, max); }
    SameDecision(p, r.p, FullFrame(g, c));
    RunAppend(q, PrintData(c.chunks), PrintTail(c.tail), max);
    MergeBehindSignal(r.events, Run(r.p, PrintTail(c.tail), max).events);
  }

  lemma SameTrailer(p: Parser)
    ensures TrailerFrame(p.(contentLength := 0)) == TrailerFrame(p)
  {}

  lemma UntilCloseByte(p: Parser, ch: char, max: nat)
    requires p.state.BodyIdentityEof?
    ensures StepByte(p, ch, max) == Result(p, [Data(Body, [ch])], Go)
  {
    hide Dispatch, StepByte;
    BodyStates(p, ch);
    MarkedByte(p, ch, p, max);
  }

  lemma {:induction false} UntilCloseBytes(p: Parser, body: string, max: nat)
    requires p.state.BodyIdentityEof?
    ensures var r := Run(p, body, max);
      r.stop.Go? && r.p == p && Merge(r.events) == if body == "" then [] else [Data(Body, body)]
  {
    hide StepByte, Merge;
    if body == "" {
      MergeNothing();
    } else {
      var init, ch := body[..|body| - 1], body[|body| - 1];
      UntilCloseBytes(p, init, max);
      UntilCloseByte(p, ch, max);
      TextGrows(Run(p, init, max).events, Body, init, [ch]);
      assert init + [ch] == body;
    }
  }

  lemma PlainRead(p: Parser, g: Frame, c: Content, q: Parser, max: nat)
    requires Knows(p, g, q) && Ends(p, g, q, Go) && Decide(p, g).Length? && Suits(p, g, c, max)
    ensures var r := Run(q, PrintBody(c), max);
      r.stop == StopOf(q) && Reaches(p, g, c, r.p, max) && Merge(r.events) == BodyReport(c)
  {
    hide Run, Merge, Afterwards, NewMessage;
    IdentityBody(q, c.body, max);
    KeepsExactly(p, g, q);
  }

  /** The body behind the headers, as they announce it. */
  lemma BodyRead(p: Parser, g: Frame, c: Content, q: Parser, max: nat)
    requires Knows(p, g, q) && Ends(p, g, q, Go) && !Decide(p, g).Complete? && Suits(p, g, c, max)
    ensures var r := Run(q, PrintBody(c), max);
      r.stop == StopOf(q) && Reaches(p, g, c, r.p, max) && Merge(r.events) == BodyReport(c)
  {
    hide Run, Merge, Afterwards, NewMessage, Sees, AllAnnounced, IsTail;
    match Decide(p, g)
    case Length(n) => PlainRead(p, g, c, q, max);
    case Chunks =>
      assert q.flags.chunked by { ChunksKnown(p, g, q); }
      ChunksRead(p, g, c, q, max);
    case UntilClose => UntilCloseBytes(q, c.body, max);
  }

  lemma ChunksKnown(p: Parser, g: Frame, q: Parser)
    requires Knows(p, g, q) && Decide(p, g).Chunks?
    ensures q.flags.chunked
  {}

  // ---- Headers and body ----

  /** Headers within the limit and a body that they announce. */
  predicate IsRest(p: Parser, ls: seq<Line>, e: string, c: Content, max: nat) {
    && NoHeadersYet(p) && AreLines(ls) && IsEol(e) && p.nread + |HeaderText(ls, e)| <= max
    && FrameOf(NO_FRAME, ls).Good? && Suits(p, FrameOf(NO_FRAME, ls).frame, c, max)
  }

  /** What is reported of headers and a body, one after the other. */
  lemma BodyFollows(p: Parser, block: string, body: string, lead: seq<Event>, max: nat)
    requires Run(p, block, max).stop.Go? && Merge(Run(p, block, max).events) == lead + [Notify(HeadersComplete)]
    ensures var r, b := Run(p, block + body, max), Run(Run(p, block, max).p, body, max);
      r.stop == b.stop && r.p == b.p && Merge(r.events) == lead + [Notify(HeadersComplete)] + Merge(b.events)
  {
    hide Run, Merge;
    RunAppend(p, block, body, max);
    MergeBehindSignal(Run(p, block, max).events, Run(Run(p, block, max).p, body, max).events);
  }

  /** What follows the first line: every header is delivered, the body is delivered as it is framed, and the message is complete
      once; then the record is in the state that version and options say, and stops where the protocol changes. */
  lemma RestRead(p: Parser, ls: seq<Line>, e: string, c: Content, max: nat)
    requires IsRest(p, ls, e, c, max)
    ensures var r, g := Run(p, HeaderText(ls, e) + PrintBody(c), max), FrameOf(NO_FRAME, ls).frame;
      && r.stop == (if Switches(p, g) then Exit else Go) && Reaches(p, g, c, r.p, max)
      && Merge(r.events) == Report(ls) + [Notify(HeadersComplete)] + BodyReport(c)
  {
    hide Run, Merge, AreLines, FrameOf, HeaderText, Report, PrintBody, Switches, Sees, Afterwards, AllAnnounced, IsTail, NoHeadersYet;
    var g := FrameOf(NO_FRAME, ls).frame;
    NoHeadersSeen(p);
    HeadersDecide(p, ls, e, NO_FRAME, max);
    var q := Run(p, HeaderText(ls, e), max).p;
    if Decide(p, g).Complete? {
      NothingPrinted(c);
      assert HeaderText(ls, e) + PrintBody(c) == HeaderText(ls, e);
      assert Report(ls) + [Notify(HeadersComplete), Notify(MessageComplete)]
        == Report(ls) + [Notify(HeadersComplete)] + [Notify(MessageComplete)];
    } else {
      BodyRead(p, g, c, q, max);
      BodyFollows(p, HeaderText(ls, e), PrintBody(c), Report(ls), max);
    }
  }

  lemma NothingPrinted(c: Content)
    ensures c.NoBody? ==> PrintBody(c) == ""
  {}

  lemma NoHeadersSeen(p: Parser)
    requires NoHeadersYet(p)
    ensures AtLine(p) && Sees(p, NO_FRAME) && !p.flags.trailing && p.contentLength == ULLONG_MAX
  {}

  // ---- Printed by a server ----

  /** Pieces printed without extensions and without a trailer. */
  function Printed(datas: seq<string>): Content {
    Chunked(Sized(datas), Tail("0", "", [], CRLF))
  }

  lemma PrintedPieces(datas: seq<string>, max: nat)
    requires max >= 18 && forall i :: 0 <= i < |datas| ==> 0 < |datas[i]| <= Largest(16)
    ensures var c := Printed(datas);
      && PrintBody(c) == PrintChunks(Sized(datas)) && BodyReport(c) == ReportOf(Sized(datas))
      && AllAnnounced(c.chunks, max) && IsTail(c.tail, max) && forall g: Frame :: FrameOf(g, c.tail.fields) == Good(g)
  {
    SizesAnnounce(datas, max);
    assert Spelled("0", 16) == 0;
    assert Texts([]) == "" && Report([]) == [];
    assert SizeLine("0", "") + CRLF == LAST_CHUNK && "" + CRLF == CRLF;
    assert [] + [Notify(ChunkComplete), Notify(MessageComplete)] == [Notify(ChunkComplete), Notify(MessageComplete)];
    assert [Notify(ChunkHeader)] + [Notify(ChunkComplete), Notify(MessageComplete)] == LAST_REPORT;
    hide AllAnnounced, Digits;
  }

  lemma {:induction false} HeadersAreNoData(ls: seq<Line>)
    ensures DataOf(Report(ls)) == ""
  {
    if |ls| == 0 {
      DataOfNothing();
    } else {
      hide DataOf;
      var l := ls[|ls| - 1];
      HeadersAreNoData(ls[..|ls| - 1]);
      DataOfOne(Data(Field, l.name));
      var v := Data(Value, l.value + Joined(l.folds));
      DataOfOne(v);
      DataOfAppend([Data(Field, l.name)], [v]);
      assert LineReport(l) == [Data(Field, l.name)] + [v];
      DataOfAppend(Report(ls[..|ls| - 1]), LineReport(l));
    }
  }
}
