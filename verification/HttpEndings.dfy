/** The end of the connection: which inputs it cuts short. */
module HttpEndings {
  import opened Basics
  import opened HttpChars
  import opened HttpTypes
  import opened HttpStep
  import opened HttpRun
  import opened HttpMarks
  import opened HttpRelate
  import opened HttpFragments
  import opened HttpLengths
  import opened HttpBodies
  import opened HttpHeaders
  import opened HttpLines
  import opened HttpVersions
  import opened HttpFraming
  import opened HttpMessages
  import opened HttpStreams
  import HttpExecute

  /** A state inside a message that is not read until the close. */
  predicate Inner(s: State) {
    !(s.Dead? || s.StartReq? || s.StartRes? || s.StartReqOrRes? || s.BodyIdentityEof? || s.HeadersDone?)
  }

  /** Neither the end of the headers nor the end of the message is among the acts. */
  predicate NoEnd(acts: seq<Act>) {
    Call(HeadersComplete) !in acts && Call(MessageComplete) !in acts
  }

  /** Inside a message only its headers' end or its own end lead out of it. */
  predicate StaysInner(o: Out) {
    o.stop.Go? && NoEnd(o.acts) ==> Inner(o.p.state)
  }

  lemma DoneLeaves(p: Parser, ch: char)
    ensures StaysInner(StepHeadersAlmostDone(p, ch)) && StaysInner(StepMessageDone(p))
  {
    hide StepHeadersDone, NewMessage;
    assert StepMessageDone(p).acts == [Call(MessageComplete)];
    if ch == '\n' && p.flags.trailing {
      var o := StepMessageDone(p.(state := MessageDone));
      assert ([Call(ChunkComplete)] + o.acts)[1] == Call(MessageComplete);
    } else if StepHeadersAlmostDone(p, ch).stop.Go? {
      assert StepHeadersAlmostDone(p, ch).acts[0] == Call(HeadersComplete);
    }
  }

  lemma HeaderStays(p: Parser, ch: char)
    requires InHeaders(p.state) && !p.state.HeadersDone?
    ensures StaysInner(Dispatch(p, ch))
  {
    hide StepHeadersAlmostDone, StepHeaderFieldStart, StepValueStart, StepHeaderValue, StepValueLws, StepDiscardLws,
      StepHeaderField, StepDiscardWs;
    match p.state
    case HeadersAlmostDone => DoneLeaves(p, ch);
    case HeaderFieldStart => FieldStartStays(p, ch);
    case HeaderField => FieldStays(p, ch);
    case HeaderValueStart => ValueStartStays(p, ch);
    case HeaderValue => ValueStays(p, ch);
    case HeaderValueLws => LwsStays(p, ch);
    case HeaderValueDiscardLws => LwsStays(p, ch);
    case HeaderValueDiscardWs => DiscardStays(p, ch);
    case _ =>
  }

  lemma FieldStartStays(p: Parser, ch: char)
    ensures StaysInner(StepHeaderFieldStart(p, ch))
  {
    hide StepHeadersAlmostDone;
    DoneLeaves(p.(state := HeadersAlmostDone), ch);
  }

  lemma FieldStays(p: Parser, ch: char)
    requires p.state.HeaderField?
    ensures StaysInner(StepHeaderField(p, ch))
  {}

  lemma ValueStartStays(p: Parser, ch: char)
    ensures StaysInner(StepValueStart(p, ch))
  {
    ValueStartActs(p, ch);
    hide StepValueStart;
  }

  lemma ValueStays(p: Parser, ch: char)
    requires p.state.HeaderValue?
    ensures StaysInner(StepHeaderValue(p, ch))
  {
    if !IsBreak(ch) { ValueCharQuiet(p, ch); }
    hide ValueChar;
  }

  lemma LwsStays(p: Parser, ch: char)
    ensures StaysInner(StepValueLws(p, ch)) && StaysInner(StepDiscardLws(p, ch))
  {
    hide StepValueStart, StepHeaderFieldStart;
    ValueStartStays(p.(headerState := if p.headerState.ContentLengthNum? then ContentLengthWs else p.headerState,
                       state := HeaderValueStart), ch);
    var q := p.(flags := HeaderFlag(p.headerState, p.flags), state := HeaderFieldStart);
    FieldStartStays(q, ch);
    var rest := StepHeaderFieldStart(q, ch).acts;
    assert forall a | a in rest :: a in [SetMark(Value), Flush(Value)] + rest;
  }

  lemma DiscardStays(p: Parser, ch: char)
    requires p.state.HeaderValueDiscardWs?
    ensures StaysInner(StepDiscardWs(p, ch))
  {
    hide StepValueStart;
    ValueStartStays(p, ch);
  }

  lemma BodyStays(p: Parser, ch: char)
    requires InBody(p.state) && !p.state.BodyIdentityEof?
    ensures StaysInner(Dispatch(p, ch))
  {
    hide StepMessageDone, StepBodyIdentity, StepChunkData, StepChunkSizeStart, StepChunkSize,
      StepChunkParameters, StepChunkSizeAlmostDone, StepChunkDataAlmostDone, StepChunkDataDone;
    match p.state
    case MessageDone => DoneLeaves(p, ch);
    case BodyIdentity => IdentityStays(p);
    case _ => ChunkStays(p, ch);
  }

  lemma IdentityStays(p: Parser)
    requires p.state.BodyIdentity?
    ensures StaysInner(StepBodyIdentity(p))
  {
    hide NewMessage;
    if LengthInUse(p) && p.contentLength == 1 {
      assert StepBodyIdentity(p).acts == [SetMark(Body), FlushWith(Body)] + [Call(MessageComplete)];
      assert ([SetMark(Body), FlushWith(Body)] + [Call(MessageComplete)])[2] == Call(MessageComplete);
    }
  }

  lemma ChunkStays(p: Parser, ch: char)
    ensures p.state.ChunkData? ==> StaysInner(StepChunkData(p))
    ensures p.state.ChunkSizeStart? ==> StaysInner(StepChunkSizeStart(p, ch))
    ensures p.state.ChunkSize? ==> StaysInner(StepChunkSize(p, ch))
    ensures p.state.ChunkParameters? ==> StaysInner(StepChunkParameters(p, ch))
    ensures p.state.ChunkSizeAlmostDone? ==> StaysInner(StepChunkSizeAlmostDone(p, ch))
    ensures p.state.ChunkDataAlmostDone? ==> StaysInner(StepChunkDataAlmostDone(p, ch))
    ensures p.state.ChunkDataDone? ==> StaysInner(StepChunkDataDone(p, ch))
  {
    hide Unhex, Shift, MayOverflow;
  }

  /** The states of a first line. */
  lemma LineStays(p: Parser, ch: char)
    requires Inner(p.state) && !InHeaders(p.state) && !InBody(p.state)
    ensures StaysInner(Dispatch(p, ch))
  {
    hide Dispatch;
    if InStatus(p.state) {
      StatusDispatch(p, ch);
    } else if InUrl(p.state) {
      UrlDispatch(p, ch);
    } else if InStart(p.state) {
      StartDispatch(p, ch);
    } else {
      LettersStay(p, ch);
    }
  }

  lemma StatusDispatch(p: Parser, ch: char)
    requires InStatus(p.state)
    ensures StaysInner(Dispatch(p, ch))
  {
    hide StepStatusCode, StepFirstStatusCode, StepStatusStart, StepStatus;
    StatusStays(p, ch);
  }

  lemma UrlDispatch(p: Parser, ch: char)
    requires InUrl(p.state)
    ensures StaysInner(Dispatch(p, ch))
  {
    hide StepSpacesBeforeUrl, StepUrlHead, StepUrlTail;
    UrlStays(p, ch);
  }

  lemma StartDispatch(p: Parser, ch: char)
    requires InStart(p.state) && Inner(p.state)
    ensures StaysInner(Dispatch(p, ch))
  {
    hide StepReqMethod, StepResOrRespH;
    StartStays(p, ch);
  }

  lemma StatusStays(p: Parser, ch: char)
    ensures p.state.ResStatusCode? ==> StaysInner(StepStatusCode(p, ch))
    ensures p.state.ResFirstStatusCode? ==> StaysInner(StepFirstStatusCode(p, ch))
    ensures p.state.ResStatusStart? ==> StaysInner(StepStatusStart(p, ch))
    ensures p.state.ResStatus? ==> StaysInner(StepStatus(p, ch))
  {}

  lemma UrlStays(p: Parser, ch: char)
    requires InUrl(p.state)
    ensures p.state.ReqSpacesBeforeUrl? ==> StaysInner(StepSpacesBeforeUrl(p, ch))
    ensures !p.state.ReqSpacesBeforeUrl? ==> StaysInner(StepUrlHead(p, ch)) && StaysInner(StepUrlTail(p, ch))
  {
    UrlStates(if p.state.ReqSpacesBeforeUrl? && p.verb.CONNECT? then ReqServerStart else p.state, ch);
    hide ParseUrlChar, EntryMark;
    UrlInner();
  }

  lemma UrlInner()
    ensures forall s: State :: EntryMark(s) == On(DataKind.Url) ==> Inner(s)
  {}

  lemma StartStays(p: Parser, ch: char)
    ensures p.state.ReqMethod? ==> StaysInner(StepReqMethod(p, ch))
    ensures p.state.ResOrRespH? ==> StaysInner(StepResOrRespH(p, ch))
  {
    hide MethodString, SwitchCandidate;
  }

  /** The states that wait for fixed letters or a version. */
  lemma LettersStay(p: Parser, ch: char)
    requires Inner(p.state) && !InHeaders(p.state) && !InBody(p.state)
    requires !InStatus(p.state) && !InUrl(p.state) && !InStart(p.state)
    ensures StaysInner(Dispatch(p, ch))
  {
    hide Dispatch;
    RequestHandlers(p, ch);
    StatusHandlers(p, ch);
  }

  lemma DispatchStays(p: Parser, ch: char)
    requires Inner(p.state)
    ensures StaysInner(Dispatch(p, ch))
  {
    hide Dispatch;
    if InHeaders(p.state) {
      HeaderStays(p, ch);
    } else if InBody(p.state) {
      BodyStays(p, ch);
    } else {
      LineStays(p, ch);
    }
  }

  // ---- Runs ----

  /** A signal among the acts is reported. */
  lemma {:induction false} CallsReported(acts: seq<Act>, marks: Marks, data: string, pos: nat, s: Signal)
    requires pos < |data| && MarksBefore(marks, pos)
    ensures Call(s) in acts ==> Notify(s) in Perform(acts, marks, data, pos).1
  {
    if |acts| > 0 {
      CallsReported(acts[1..], Perform1(acts[0], marks, data, pos).0, data, pos, s);
      assert Call(s) in acts <==> acts[0] == Call(s) || Call(s) in acts[1..];
    }
  }

  /** No end of headers or message among the callbacks. */
  predicate Silent(es: seq<Event>) {
    Notify(HeadersComplete) !in es && Notify(MessageComplete) !in es
  }

  lemma ByteStays(p: Parser, ch: char, max: nat)
    requires Inner(p.state) && StepByte(p, ch, max).stop.Go? && Silent(StepByte(p, ch, max).events)
    ensures Inner(StepByte(p, ch, max).p.state)
  {
    hide Dispatch, Perform, FlushAll;
    var q := if ParsingHeader(p.state) then p.(nread := p.nread + 1) else p;
    var o := Dispatch(q, ch);
    DispatchStays(q, ch);
    CallsReported(o.acts, MarksOf(EntryMark(p.state), 0), [ch], 0, HeadersComplete);
    CallsReported(o.acts, MarksOf(EntryMark(p.state), 0), [ch], 0, MessageComplete);
  }

  lemma {:induction false} RunStays(p: Parser, t: string, max: nat)
    requires Inner(p.state) && Run(p, t, max).stop.Go? && Silent(Run(p, t, max).events)
    ensures Inner(Run(p, t, max).p.state)
  {
    hide StepByte;
    if t != "" {
      RunStays(p, t[..|t| - 1], max);
      ByteStays(Run(p, t[..|t| - 1], max).p, t[|t| - 1], max);
    }
  }

  /** Joining data neither adds nor loses a signal. */
  lemma {:induction false} SignalsStay(es: seq<Event>, s: Signal)
    ensures Notify(s) in es <==> Notify(s) in Merge(es)
  {
    if |es| > 0 {
      var init, e := es[..|es| - 1], es[|es| - 1];
      SignalsStay(init, s);
      assert Notify(s) in es <==> Notify(s) in init || Notify(s) == e;
      var m := Merge(init);
      assert Merge(es) == Join(m, e);
      JoinSignals(m, e, s);
    }
  }

  lemma JoinSignals(m: seq<Event>, e: Event, s: Signal)
    ensures Notify(s) in Join(m, e) <==> Notify(s) in m || Notify(s) == e
  {
    if |m| > 0 { assert m == m[..|m| - 1] + [m[|m| - 1]]; }
  }

  // ---- Beginnings of messages ----

  /** The parser goes on, and is inside the message. */
  predicate Within(r: Result) {
    r.stop.Go? && Inner(r.p.state)
  }

  lemma {:induction false} ReportSilent(ls: seq<Line>)
    ensures Silent(Report(ls))
  {
    if |ls| > 0 { ReportSilent(ls[..|ls| - 1]); }
  }

  /** A carriage return in front of a header, or behind a line. */
  lemma ReturnSilent(q: Parser, max: nat)
    requires Ready(q).state.HeaderFieldStart? && !Doomed(q) && q.nread < max
    ensures Run(q, "\r", max).stop.Go? && Silent(Run(q, "\r", max).events)
  {
    hide Dispatch, StepByte, Run, Settled;
    var z := Ready(q);
    ReadyCount(q);
    SettledRun(q, "\r", max);
    NameStates(z.(nread := z.nread + 1), '\r');
    QuietByte(z, '\r', z.(state := HeadersAlmostDone, nread := z.nread + 1), max);
    OneByteRun(z, '\r', max);
  }

  /** Lines, and perhaps a carriage return, report no end. */
  lemma LinesSilent(q: Parser, f: Frame, ls: seq<Line>, max: nat)
    requires AtLine(q) && Sees(q, f) && AreLines(ls) && q.nread + |Texts(ls)| < max && FrameOf(f, ls).Good?
    ensures Run(q, Texts(ls), max).stop.Go? && Silent(Run(q, Texts(ls), max).events)
    ensures Run(q, Texts(ls) + "\r", max).stop.Go? && Silent(Run(q, Texts(ls) + "\r", max).events)
  {
    hide Run, Merge, AreLines, FrameOf, Sees, Pending, Doomed, Settled;
    LinesRead(q, f, ls, max);
    var r := Run(q, Texts(ls), max);
    ReportSilent(ls);
    SignalsStay(r.events + Pending(r.p), HeadersComplete);
    SignalsStay(r.events + Pending(r.p), MessageComplete);
    ReturnSilent(r.p, max);
    RunAppend(q, Texts(ls), "\r", max);
  }

  /** A beginning of headers, or of a trailer. */
  lemma HeadersBeginning(q: Parser, f: Frame, ls: seq<Line>, e: string, t: string, max: nat)
    requires AtLine(q) && Sees(q, f) && AreLines(ls) && IsEol(e) && q.nread + |HeaderText(ls, e)| <= max && FrameOf(f, ls).Good?
    requires t <= HeaderText(ls, e) && t != HeaderText(ls, e)
    ensures Within(Run(q, t, max))
  {
    hide Run, AreLines, FrameOf, Sees;
    LinesSilent(q, f, ls, max);
    var u := if |t| <= |Texts(ls)| then Texts(ls) else Texts(ls) + "\r";
    assert t <= u by {
      assert |t| < |Texts(ls)| + |e|;
      if |t| > |Texts(ls)| { assert t[|Texts(ls)|] == HeaderText(ls, e)[|Texts(ls)|] == e[0]; }
    }
    SilentRun(q, t, u, max);
  }

  lemma SilentRun(q: Parser, t: string, u: string, max: nat)
    requires Inner(q.state) && t <= u && Run(q, u, max).stop.Go? && Silent(Run(q, u, max).events)
    ensures Within(Run(q, t, max))
  {
    hide Run;
    assert t + u[|t|..] == u;
    RunAppend(q, t, u[|t|..], max);
    RunStays(q, t, max);
  }

  /** What follows a stretch that is read may leave the record inside the message. */
  lemma WithinBehind(p: Parser, a: string, b: string, max: nat)
    requires Run(p, a, max).stop.Go? && Within(Run(Run(p, a, max).p, b, max))
    ensures Within(Run(p, a + b, max))
  {
    hide Run, Inner;
    RunAppend(p, a, b, max);
  }

  /** The first byte that is no line break. */
  lemma FirstByteInner(p: Parser, ch: char, max: nat)
    requires Idle(p.state) && !IsBreak(ch)
    ensures StepByte(p, ch, max).stop.Go? ==> Inner(StepByte(p, ch, max).p.state)
  {
    hide Dispatch, Perform, FlushAll;
    StartHandlers(p.(nread := p.nread + 1), ch);
    hide FirstCandidate;
  }

  /** A beginning of the first line. */
  lemma FrontBeginning(p: Parser, m: Message, t: string, max: nat)
    requires IsHead(p, m, max) && t <= Front(m) && |t| > |m.breaks|
    ensures Within(Run(p, t, max))
  {
    hide Run, FirstText, Inner, Within, IsFirst;
    var q, v := p.(nread := p.nread + |m.breaks|), t[|m.breaks|..];
    assert t == m.breaks + v && v <= FirstText(m.first);
    BreaksRead(p, m.breaks, max);
    LineBeginning(q, m.first, v, max);
    WithinBehind(p, m.breaks, v, max);
  }

  lemma LineBeginning(q: Parser, f: First, v: string, max: nat)
    requires Expects(q, f) && IsFirst(f) && q.nread + |FirstText(f)| <= max && v != "" && v <= FirstText(f)
    ensures Within(Run(q, v, max))
  {
    hide Run, FirstText, Inner, IsFirst, Merge, StepByte;
    var u := FirstText(f);
    FirstLetters(f);
    FirstRead(q, f, max);
    FirstSilent(q, f, max);
    assert [u[0]] + u[1..] == u && [u[0]] + v[1..] == v;
    RunAppend(q, [u[0]], u[1..], max);
    OneByteRun(q, u[0], max);
    FirstByteInner(q, u[0], max);
    SilentRun(Run(q, [u[0]], max).p, v[1..], u[1..], max);
    WithinBehind(q, [u[0]], v[1..], max);
  }

  lemma FirstSilent(q: Parser, f: First, max: nat)
    requires Expects(q, f) && IsFirst(f) && q.nread + |FirstText(f)| <= max
    ensures Silent(Run(q, FirstText(f), max).events)
  {
    hide Run, Merge, IsFirst, FirstText;
    FirstRead(q, f, max);
    SignalsStay(Run(q, FirstText(f), max).events, HeadersComplete);
    SignalsStay(Run(q, FirstText(f), max).events, MessageComplete);
  }

  // ---- Beginnings of bodies ----

  lemma {:induction false} DataSilent(chunks: Chunks)
    ensures Silent(DataReport(chunks))
  {
    if |chunks| > 0 { DataSilent(chunks[..|chunks| - 1]); }
  }

  /** The chunks and the line of the last. */
  lemma ChunkInner(q: Parser)
    requires AtChunk(q)
    ensures Inner(q.state)
  {}

  lemma ChunksSilent(q: Parser, chunks: Chunks, t: Tail, max: nat)
    requires AtChunk(q) && AllAnnounced(chunks, max) && IsTail(t, max)
    ensures var u, z := PrintData(chunks) + SizeLine(t.size, t.ext), AtTrailer(Run(q, PrintData(chunks), max).p);
      && Run(q, u, max).stop.Go? && Silent(Run(q, u, max).events) && Run(q, u, max).p == z
      && AtLine(z) && Sees(z, TrailerFrame(z)) && z.nread == 0 && TrailerFrame(z) == TrailerFrame(q)
  {
    hide Run, Merge, AllAnnounced, SizeLine, Digits, Spelled, TrailerFrame, IsExtension, AreLines, Sees;
    DataChunks(q, chunks, max);
    var r := Run(q, PrintData(chunks), max);
    DataSilent(chunks);
    SignalsStay(r.events, HeadersComplete);
    SignalsStay(r.events, MessageComplete);
    SizeLineRead(r.p, t.size, t.ext, max);
    RunAppend(q, PrintData(chunks), SizeLine(t.size, t.ext), max);
    SameTrailer(q);
    TrailerOf(r.p);
    TrailerSees(AtTrailer(r.p));
  }

  /** A beginning of two texts is one of the first, or the first and a beginning of the second. */
  lemma CutInTwo(b: string, u: string, v: string)
    requires b <= u + v
    ensures if |b| <= |u| then b <= u else b == u + b[|u|..] && b[|u|..] <= v && (b != u + v ==> b[|u|..] != v)
  {}

  /** A proper beginning of a chunked body. */
  lemma ChunkedBeginning(q: Parser, chunks: Chunks, t: Tail, b: string, max: nat)
    requires AtChunk(q) && AllAnnounced(chunks, max) && IsTail(t, max) && FrameOf(TrailerFrame(q), t.fields).Good?
    requires b <= PrintBody(Chunked(chunks, t)) && b != PrintBody(Chunked(chunks, t))
    ensures Within(Run(q, b, max))
  {
    hide Run, AllAnnounced, SizeLine, FrameOf, Sees, TrailerFrame, AtLine, PrintData, AreLines, HeaderText, Within;
    var u := PrintData(chunks) + SizeLine(t.size, t.ext);
    ChunkInner(q);
    hide Inner;
    ChunksSilent(q, chunks, t, max);
    TailLines(t, max);
    assert PrintBody(Chunked(chunks, t)) == u + HeaderText(t.fields, t.end);
    CutInTwo(b, u, HeaderText(t.fields, t.end));
    if |b| <= |u| {
      SilentRun(q, b, u, max);
    } else {
      TrailerBeginning(q, u, t, b[|u|..], max);
    }
  }

  /** A beginning of the trailer, behind the line of the last chunk. */
  lemma TrailerBeginning(q: Parser, u: string, t: Tail, c: string, max: nat)
    requires Run(q, u, max).stop.Go? && IsTail(t, max)
    requires var z := Run(q, u, max).p;
      AtLine(z) && Sees(z, TrailerFrame(z)) && z.nread == 0 && FrameOf(TrailerFrame(z), t.fields).Good?
    requires c <= HeaderText(t.fields, t.end) && c != HeaderText(t.fields, t.end)
    ensures Within(Run(q, u + c, max))
  {
    hide Run, FrameOf, Sees, TrailerFrame, AtLine, AreLines, HeaderText, Within, Inner, IsExtension;
    var z := Run(q, u, max).p;
    HeadersBeginning(z, TrailerFrame(z), t.fields, t.end, c, max);
    WithinBehind(q, u, c, max);
  }

  /** A proper beginning of a body that is framed by a length or by chunks. */
  lemma BodyBeginning(p: Parser, g: Frame, c: Content, q: Parser, b: string, max: nat)
    requires Knows(p, g, q) && Ends(p, g, q, Go) && Suits(p, g, c, max) && !c.Open? && !c.NoBody?
    requires b <= PrintBody(c) && b != PrintBody(c)
    ensures Within(Run(q, b, max))
  {
    hide Run, AllAnnounced, IsTail, FrameOf, Sees, Afterwards, PrintBody, TrailerFrame;
    match Decide(p, g)
    case Length(n) =>
      PlainText(c);
      InnerBytes(q, b, max);
    case Chunks =>
      ChunksKnown(p, g, q);
      TrailerSees(q);
      ChunkedBeginning(q, c.chunks, c.tail, b, max);
  }

  lemma PlainText(c: Content)
    ensures c.Plain? ==> PrintBody(c) == c.body
  {}

  // ---- All together ----

  /** A proper beginning of the message, longer than the line breaks in front of it; of a message that is read until the close
      a beginning of its head. */
  predicate IsBeginning(m: Message, t: string) {
    && t <= Print(m) && t != Print(m) && |t| > |m.breaks|
    && (m.content.Open? ==> |t| < |Front(m) + HeaderText(m.headers, m.end)|)
  }

  /** Cut anywhere, in its first line, its headers, its body or its trailer, a message leaves the parser inside it. */
  lemma BeginningWithin(p: Parser, m: Message, t: string, max: nat)
    requires IsMessage(p, m, max) && IsBeginning(m, t)
    ensures Within(Run(p, t, max))
  {
    hide Run, Merge, IsFirst, AreLines, FrameOf, Opened, Suits, NoHeadersYet, Inner, HeaderText, PrintBody, Front;
    var head := HeaderText(m.headers, m.end);
    if |t| <= |Front(m)| {
      assert t <= Front(m);
      FrontBeginning(p, m, t, max);
    } else {
      var u := t[|Front(m)|..];
      assert t == Front(m) + u && u <= head + PrintBody(m.content);
      FrontRead(p, m, max);
      RunAppend(p, Front(m), u, max);
      HeadedWithin(p, m, Run(p, Front(m), max).p, u, max);
    }
  }

  lemma HeadedWithin(p: Parser, m: Message, q: Parser, u: string, max: nat)
    requires IsMessage(p, m, max) && q == Run(p, Front(m), max).p
    requires var all := HeaderText(m.headers, m.end) + PrintBody(m.content);
      u <= all && u != all && (m.content.Open? ==> |u| < |HeaderText(m.headers, m.end)|)
    ensures Within(Run(q, u, max))
  {
    hide Run, Merge, IsFirst, AreLines, FrameOf, Opened, NoHeadersYet, Inner, HeaderText, PrintBody, Front, Sees, Decide,
      AllAnnounced, IsTail, Afterwards;
    FrontRead(p, m, max);
    NoHeadersSeen(q);
    var g, head := FrameOf(NO_FRAME, m.headers).frame, HeaderText(m.headers, m.end);
    if |u| < |head| {
      assert u <= head;
      HeadersBeginning(q, NO_FRAME, m.headers, m.end, u, max);
    } else {
      var b := u[|head|..];
      assert u == head + b && b <= PrintBody(m.content);
      SameDecision(Opened(p, m.first), q, g);
      HeadersDecide(q, m.headers, m.end, NO_FRAME, max);
      NothingPrinted(m.content);
      RunAppend(q, head, b, max);
      BodyBeginning(q, g, m.content, Run(q, head, max).p, b, max);
    }
  }

  /** Inside a message the end of the connection is an error, and nothing is reported. */
  lemma EndInside(s: State)
    requires Inner(s)
    ensures HttpExecute.AtEof(s) == ([], HttpExecute.Broken(InvalidEofState), 1)
  {}

  /** A stream that the end of the connection cuts inside a message, however it is split: the parser has gone on until then, and
      the end reports nothing, leaves the parser broken, and returns 1. */
  lemma CutInAnySplit(p: Parser, ms: seq<Message>, m: Message, t: string, calls: seq<Fed>, max: nat)
    requires IsStream(p, ms, max) && !EndsInSwitch(p, ms, max) && IsMessage(EndOf(p, ms, max), m, max) && IsBeginning(m, t)
    requires Chain(p, calls, max) && Input(calls) == StreamText(ms) + t
    ensures var o := Outcome(p, calls);
      o.stop.Go? && HttpExecute.AtEof(o.p.state) == ([], HttpExecute.Broken(InvalidEofState), 1)
  {
    hide Run, Merge, Chain, Outcome, IsStream, EndOf, EndsInSwitch, IsMessage, Left, IsBeginning, Inner;
    StreamRead(p, ms, max);
    var q := Run(p, StreamText(ms), max).p;
    LikeMessage(EndOf(p, ms, max), q, m, max);
    BeginningWithin(q, m, t, max);
    RunAppend(p, StreamText(ms), t, max);
    ChainIsRun(p, calls, max);
    EndInside(Run(q, t, max).p.state);
  }
}
