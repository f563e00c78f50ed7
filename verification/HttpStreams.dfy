/** What goes through a connection in one direction: one message behind another. */
module HttpStreams {
  import opened Basics
  import opened HttpChars
  import opened HttpTypes
  import opened HttpStep
  import opened HttpRun
  import opened HttpRelate
  import opened HttpFragments
  import opened HttpLengths
  import opened HttpBodies
  import opened HttpHeaders
  import opened HttpLines
  import opened HttpFraming
  import opened HttpMessages
  import opened HttpVersions
  import opened HttpRequests
  import opened HttpResponses
  import HttpExecute
  import Url

  // ---- The first line ----

  /** A request line or a status line. */
  datatype First =
    | Ask(verb: Method, sp: string, url: string, version: Version)
    | Answer(major: char, minor: char, sp: string, code: string, phrase: Option<string>, eol: string)

  function FirstText(f: First): string {
    match f
    case Ask(m, sp, url, v) => RequestLine(m, sp, url, v)
    case Answer(a, b, sp, ds, phrase, e) => StatusLine(a, b, sp, ds, phrase, e)
  }

  function FirstReport(f: First): seq<Event> {
    match f
    case Ask(_, _, url, _) => [Notify(MessageBegin), Data(DataKind.Url, url)]
    case Answer(_, _, _, _, phrase, _) => [Notify(MessageBegin), Data(DataKind.Status, Phrase(phrase))]
  }

  /** A first line that is accepted: a URL that the splitter's automaton cuts and that may end there, or a code up to 999. */
  ghost predicate IsFirst(f: First) {
    match f
    case Ask(m, sp, url, v) =>
      && Spaces(sp) && url != "" && NoSpace(url) && IsVersion(v, m)
      && var cut := Url.Split(url, m.CONNECT?); cut.Some? && MayEnd(Url.StateOf(cut.value, m.CONNECT?))
    case Answer(a, b, sp, ds, phrase, e) =>
      && IsNum(a) && IsNum(b) && Spaces(sp) && ds != "" && Digits(ds, 10) && Spelled(ds, 10) <= 999
      && IsPhrase(Phrase(phrase)) && IsEol(e)
  }

  /** A record that waits for such a line, or for any first line. */
  predicate Expects(p: Parser, f: First) {
    || (p.kind.Both? && p.state.StartReqOrRes?)
    || if f.Ask? then p.kind.Request? && p.state.StartReq? else p.kind.Response? && p.state.StartRes?
  }

  /** The record once it knows what it waits for. */
  function Turned(p: Parser, f: First): Parser {
    if p.state.StartReqOrRes? then p.(kind := if f.Ask? then Request else Response, state := if f.Ask? then StartReq else StartRes)
    else p
  }

  /** What the first line says, in a record that waits for headers. */
  function Opened(p: Parser, f: First): Parser {
    var q := StartMessage(Turned(p, f)).(state := HeaderFieldStart);
    match f
    case Ask(m, _, _, v) => q.(verb := m, httpMajor := MajorOf(v), httpMinor := MinorOf(v))
    case Answer(a, b, _, ds, _, _) =>
      q.(statusCode := if Digits(ds, 10) then Spelled(ds, 10) else 0, httpMajor := if IsNum(a) then Digit(a) else 0,
         httpMinor := if IsNum(b) then Digit(b) else 0)
  }

  /** The record behind a first line. */
  predicate Opens(p: Parser, f: First, q: Parser, n: nat) {
    NoHeadersYet(q) && SameLead(Opened(p, f), q) && q.nread == n
  }

  // ---- Requests or responses ----

  lemma EitherHandlers(p: Parser, ch: char)
    ensures p.state.StartReqOrRes? ==> Dispatch(p, ch) == StepStartReqOrRes(p, ch)
    ensures p.state.ResOrRespH? ==> Dispatch(p, ch) == StepResOrRespH(p, ch)
    ensures p.state.StartReq? ==> Dispatch(p, ch) == StepStartReq(p, ch)
    ensures p.state.ReqMethod? ==> Dispatch(p, ch) == StepReqMethod(p, ch)
    ensures p.state.StartRes? ==> Dispatch(p, ch) == StepStartRes(p, ch)
    ensures p.state.ResH? ==> Dispatch(p, ch) == Expect(p, ch, 'T', ResHT, Strict)
  {
    hide StepStartReqOrRes, StepResOrRespH, StepStartReq, StepReqMethod, StepStartRes, Expect;
  }

  /** Any first letter but H makes it a request. */
  lemma OtherLetter(p: Parser, ch: char, max: nat)
    requires p.state.StartReqOrRes? && !IsBreak(ch) && ch != 'H'
    ensures StepByte(p, ch, max).stop.Go? || StepByte(p.(kind := Request, state := StartReq), ch, max).stop.Go? ==>
      StepByte(p, ch, max) == StepByte(p.(kind := Request, state := StartReq), ch, max)
    ensures StepByte(p, ch, max).stop == StepByte(p.(kind := Request, state := StartReq), ch, max).stop
  {
    hide Dispatch, Perform, FlushAll;
    EitherHandlers(p.(nread := p.nread + 1), ch);
    EitherHandlers(p.(kind := Request, state := StartReq, nread := p.nread + 1), ch);
    hide FirstCandidate;
  }

  /** The letter H may begin either; the next one tells. */
  lemma LetterH(p: Parser, max: nat)
    requires p.state.StartReqOrRes? && p.nread + 2 <= max
    ensures Run(p, "HE", max) == Run(p.(kind := Request, state := StartReq), "HE", max)
    ensures Run(p, "HT", max) == Run(p.(kind := Response, state := StartRes), "HT", max)
    ensures Run(p, "HE", max).stop.Go? && Run(p, "HT", max).stop.Go?
  {
    hide Dispatch, StepByte, Run;
    FirstH(p, max);
    SecondLetter(p, max);
    TwoBytes(p, 'H', 'E', max);
    TwoBytes(p, 'H', 'T', max);
    TwoBytes(p.(kind := Request, state := StartReq), 'H', 'E', max);
    TwoBytes(p.(kind := Response, state := StartRes), 'H', 'T', max);
    assert ['H', 'E'] == "HE" && ['H', 'T'] == "HT";
  }

  lemma FirstH(p: Parser, max: nat)
    requires p.state.StartReqOrRes? && p.nread < max
    ensures var q := StartMessage(p).(nread := p.nread + 1);
      && StepByte(p, 'H', max) == Result(q.(state := ResOrRespH), [Notify(MessageBegin)], Go)
      && StepByte(p.(kind := Request, state := StartReq), 'H', max)
         == Result(q.(kind := Request, verb := HEAD, index := 1, state := ReqMethod), [Notify(MessageBegin)], Go)
      && StepByte(p.(kind := Response, state := StartRes), 'H', max)
         == Result(q.(kind := Response, state := ResH), [Notify(MessageBegin)], Go)
  {
    hide Dispatch, StepByte;
    var n := p.nread + 1;
    var q := StartMessage(p).(nread := n);
    EitherHandlers(p.(nread := n), 'H');
    EitherHandlers(p.(kind := Request, state := StartReq, nread := n), 'H');
    EitherHandlers(p.(kind := Response, state := StartRes, nread := n), 'H');
    CallByte(p, 'H', Ok(q.(state := ResOrRespH), [Call(MessageBegin)]), MessageBegin, max);
    CallByte(p.(kind := Request, state := StartReq), 'H',
             Ok(q.(kind := Request, verb := HEAD, index := 1, state := ReqMethod), [Call(MessageBegin)]), MessageBegin, max);
    CallByte(p.(kind := Response, state := StartRes), 'H',
             Ok(q.(kind := Response, state := ResH), [Call(MessageBegin)]), MessageBegin, max);
  }

  lemma SecondLetter(p: Parser, max: nat)
    requires p.nread + 2 <= max
    ensures var q, n := StartMessage(p).(nread := p.nread + 1), p.nread + 2;
      && StepByte(q.(state := ResOrRespH), 'E', max)
         == Result(q.(kind := Request, verb := HEAD, index := 2, state := ReqMethod, nread := n), [], Go)
      && StepByte(q.(kind := Request, verb := HEAD, index := 1, state := ReqMethod), 'E', max)
         == Result(q.(kind := Request, verb := HEAD, index := 2, state := ReqMethod, nread := n), [], Go)
      && StepByte(q.(state := ResOrRespH), 'T', max) == Result(q.(kind := Response, state := ResHT, nread := n), [], Go)
      && StepByte(q.(kind := Response, state := ResH), 'T', max) == Result(q.(kind := Response, state := ResHT, nread := n), [], Go)
  {
    hide Dispatch, StepByte;
    var q, n := StartMessage(p).(nread := p.nread + 1), p.nread + 2;
    var head := q.(kind := Request, verb := HEAD, index := 1, state := ReqMethod);
    EitherHandlers(q.(state := ResOrRespH, nread := n), 'E');
    EitherHandlers(q.(state := ResOrRespH, nread := n), 'T');
    EitherHandlers(head.(nread := n), 'E');
    EitherHandlers(q.(kind := Response, state := ResH, nread := n), 'T');
    QuietByte(q.(state := ResOrRespH), 'E', head.(index := 2, nread := n), max);
    QuietByte(head, 'E', head.(index := 2, nread := n), max);
    QuietByte(q.(state := ResOrRespH), 'T', q.(kind := Response, state := ResHT, nread := n), max);
    QuietByte(q.(kind := Response, state := ResH), 'T', q.(kind := Response, state := ResHT, nread := n), max);
  }

  /** How first lines begin. */
  lemma FirstLetters(f: First)
    ensures |FirstText(f)| >= 2 && !IsBreak(FirstText(f)[0])
    ensures f.Answer? ==> FirstText(f)[..2] == "HT"
    ensures f.Ask? && FirstText(f)[0] == 'H' ==> FirstText(f)[..2] == "HE"
  {
    if f.Ask? {
      LettersOnly(f.verb);
      OnlyHead(f.verb);
      assert FirstText(f)[0] == MethodString(f.verb)[0];
      hide MethodString;
      if f.verb.HEAD? { assert FirstText(f)[..2] == MethodString(f.verb)[..2]; }
    } else {
      assert FirstText(f)[..2] == HTTP_WORD[..2] == "HT";
    }
  }

  lemma OnlyHead(m: Method)
    ensures MethodString(m)[0] == 'H' ==> m.HEAD?
    ensures MethodString(HEAD) == "HEAD" && |MethodString(m)| > 0
  {}

  /** A record that does not know yet whether it reads requests or responses reads the first line as if it knew. */
  lemma EitherFirst(p: Parser, f: First, max: nat)
    requires p.state.StartReqOrRes? && p.nread + |FirstText(f)| <= max
    ensures Run(Turned(p, f), FirstText(f), max).stop.Go? ==>
      Run(p, FirstText(f), max) == Run(Turned(p, f), FirstText(f), max)
    ensures Run(p, FirstText(f), max).stop == Run(Turned(p, f), FirstText(f), max).stop
  {
    hide StepByte, Run, FirstText;
    var t, q := FirstText(f), Turned(p, f);
    FirstLetters(f);
    if t[0] == 'H' {
      assert t[..2] + t[2..] == t;
      LetterH(p, max);
      RunAppend(p, t[..2], t[2..], max);
      RunAppend(q, t[..2], t[2..], max);
    } else {
      assert [t[0]] + t[1..] == t;
      OtherLetter(p, t[0], max);
      OneByteRun(p, t[0], max);
      OneByteRun(q, t[0], max);
      RunAppend(p, [t[0]], t[1..], max);
      RunAppend(q, [t[0]], t[1..], max);
    }
  }

  lemma FirstRead(p: Parser, f: First, max: nat)
    requires Expects(p, f) && IsFirst(f) && p.nread + |FirstText(f)| <= max
    ensures var r := Run(p, FirstText(f), max);
      r.stop.Go? && Opens(p, f, r.p, p.nread + |FirstText(f)|) && Merge(r.events) == FirstReport(f)
  {
    hide Run, Merge, RequestLine, StatusLine, NoSpace, MayEnd, Url.Split, Url.StateOf, Spaces, Digits, Spelled, IsPhrase,
      IsVersion, IsEol;
    if p.state.StartReqOrRes? { EitherFirst(p, f, max); }
    match f
    case Ask(m, sp, url, v) => RequestLineRead(Turned(p, f), m, sp, url, v, max);
    case Answer(a, b, sp, ds, phrase, e) => StatusLineRead(Turned(p, f), a, b, sp, ds, phrase, e, max);
  }

  // ---- A message ----

  /** A message, perhaps with line breaks in front of it. */
  datatype Message = Message(breaks: string, first: First, headers: seq<Line>, end: string, content: Content)

  predicate AreBreaks(s: string) {
    forall i | 0 <= i < |s| :: IsBreak(s[i])
  }

  /** The first line and what stands in front of it. */
  function Front(m: Message): string {
    m.breaks + FirstText(m.first)
  }

  function Print(m: Message): string {
    Front(m) + (HeaderText(m.headers, m.end) + PrintBody(m.content))
  }

  /** Every callback of the message, in order. */
  function MessageReport(m: Message): seq<Event> {
    FirstReport(m.first) + (Report(m.headers) + [Notify(HeadersComplete)] + BodyReport(m.content))
  }

  /** First line and headers are well-formed and within the limit. */
  ghost predicate IsHead(p: Parser, m: Message, max: nat) {
    && AreBreaks(m.breaks) && Expects(p, m.first) && IsFirst(m.first) && AreLines(m.headers) && IsEol(m.end)
    && p.nread + |Front(m)| + |HeaderText(m.headers, m.end)| <= max
  }

  /** The headers are not refused, and the body is as they announce it. */
  ghost predicate IsMessage(p: Parser, m: Message, max: nat) {
    && IsHead(p, m, max) && FrameOf(NO_FRAME, m.headers).Good?
    && Suits(Opened(p, m.first), FrameOf(NO_FRAME, m.headers).frame, m.content, max)
  }

  /** A record that waits for the next message, as far as it matters. */
  predicate Like(p: Parser, q: Parser) {
    SameLead(p, q) && q.state == p.state && q.nread == p.nread
  }

  /** What the message leaves: the state that its version and options say, and a header count of its trailer alone. */
  ghost function Left(p: Parser, m: Message, max: nat): Parser
    requires IsMessage(p, m, max)
  {
    var o, g := Opened(p, m.first), FrameOf(NO_FRAME, m.headers).frame;
    o.(nread := Spent(m.content),
       state := if m.content.Open? then BodyIdentityEof else Afterwards(o, FullFrame(g, m.content)))
  }

  /** The bytes behind the message belong to another protocol. */
  ghost predicate Leaves(p: Parser, m: Message)
    requires AreLines(m.headers) && FrameOf(NO_FRAME, m.headers).Good?
  {
    Switches(Opened(p, m.first), FrameOf(NO_FRAME, m.headers).frame)
  }

  /** Between messages. */
  predicate Idle(s: State) { s.StartReq? || s.StartRes? || s.StartReqOrRes? || s.Dead? }

  lemma BreakRead(p: Parser, ch: char, max: nat)
    requires Idle(p.state) && IsBreak(ch) && p.nread < max
    ensures StepByte(p, ch, max) == Result(p.(nread := p.nread + 1), [], Go)
  {
    hide Dispatch, StepByte;
    StartHandlers(p.(nread := p.nread + 1), ch);
    QuietByte(p, ch, p.(nread := p.nread + 1), max);
  }

  lemma StartHandlers(p: Parser, ch: char)
    ensures p.state.StartReq? ==> Dispatch(p, ch) == StepStartReq(p, ch)
    ensures p.state.StartRes? ==> Dispatch(p, ch) == StepStartRes(p, ch)
    ensures p.state.StartReqOrRes? ==> Dispatch(p, ch) == StepStartReqOrRes(p, ch)
    ensures p.state.Dead? ==> Dispatch(p, ch) == StepDead(p, ch)
  {
    hide StepStartReq, StepStartRes, StepStartReqOrRes;
  }

  /** Line breaks between messages are passed over. */
  lemma {:induction false} BreaksRead(p: Parser, s: string, max: nat)
    requires Idle(p.state) && AreBreaks(s) && p.nread + |s| <= max
    ensures Run(p, s, max) == Result(p.(nread := p.nread + |s|), [], Go)
  {
    hide StepByte, IsBreak;
    if s != "" {
      var init, ch := s[..|s| - 1], s[|s| - 1];
      BreaksRead(p, init, max);
      BreakRead(p.(nread := p.nread + |init|), ch, max);
    }
  }

  lemma FrontRead(p: Parser, m: Message, max: nat)
    requires IsHead(p, m, max)
    ensures var r := Run(p, Front(m), max);
      r.stop.Go? && Opens(p, m.first, r.p, p.nread + |Front(m)|) && Merge(r.events) == FirstReport(m.first)
  {
    hide Run, Merge, FirstText, IsFirst, FirstReport, Opened, NoHeadersYet;
    var q := p.(nread := p.nread + |m.breaks|);
    BreaksRead(p, m.breaks, max);
    FirstRead(q, m.first, max);
    RunAppend(p, m.breaks, FirstText(m.first), max);
    var es := Run(q, FirstText(m.first), max).events;
    assert [] + es == es;
    assert SameLead(Opened(q, m.first), Opened(p, m.first)) by { OpenedCount(p, q, m.first); }
  }

  lemma OpenedCount(p: Parser, q: Parser, f: First)
    requires SameLead(p, q) && q.state == p.state
    ensures SameLead(Opened(p, f), Opened(q, f)) && SameLead(Opened(q, f), Opened(p, f))
  {}

  // ---- The first line and the rest ----

  /** Headers begin with a name, or with the blank line. */
  lemma HeadersBegin(p: Parser, ls: seq<Line>, e: string, rest: string, max: nat)
    requires NoHeadersYet(p) && AreLines(ls) && IsEol(e) && p.nread + |HeaderText(ls, e)| <= max
    ensures var r := Run(p, HeaderText(ls, e) + rest, max);
      |r.events| > 0 && (r.events[0].Data? ==> r.events[0].kind == Field)
  {
    hide Run, IsLine, Texts;
    RunAppend(p, HeaderText(ls, e), rest, max);
    if |ls| == 0 {
      BlankLine(p, NO_FRAME, e, max);
      TextsOfNone();
      assert "" + e == e;
    } else {
      TextsOfFirst(ls);
      var t := Texts(ls)[|Text(ls[0])|..];
      FirstLine(ls);
      assert HeaderText(ls, e) == Text(ls[0]) + (t + e);
      RunAppend(p, Text(ls[0]), t + e, max);
      LineBegins(p, ls[0], max);
    }
  }

  lemma TextsOfNone()
    ensures Texts([]) == ""
  {}

  lemma FirstLine(ls: seq<Line>)
    requires |ls| > 0 && AreLines(ls)
    ensures IsLine(ls[0])
  {
    hide IsLine;
  }

  lemma {:induction false} TextsOfFirst(ls: seq<Line>)
    requires |ls| > 0
    ensures Text(ls[0]) <= Texts(ls)
  {
    hide Text;
    if |ls| > 1 {
      TextsOfFirst(ls[..|ls| - 1]);
    } else {
      assert ls[..0] == [] && Texts([]) == "";
    }
  }

  /** What a first line reports does not join with what headers report. */
  lemma FirstApart(f: First, e: Event)
    requires e.Data? ==> e.kind == Field
    ensures FirstReport(f) != [] && !SameKind(FirstReport(f)[|FirstReport(f)| - 1], e)
  {}

  /** The first line, and what follows it up to any byte. */
  lemma FrontThen(p: Parser, m: Message, rest: string, max: nat)
    requires IsHead(p, m, max)
    ensures var r, q := Run(p, Front(m) + (HeaderText(m.headers, m.end) + rest), max), Run(p, Front(m), max).p;
      var s := Run(q, HeaderText(m.headers, m.end) + rest, max);
      r.stop == s.stop && r.p == s.p && Merge(r.events) == FirstReport(m.first) + Merge(s.events)
  {
    hide Run, Merge, Front, IsFirst, AreLines, HeaderText, NoHeadersYet, FirstReport;
    FrontRead(p, m, max);
    var q, t := Run(p, Front(m), max).p, HeaderText(m.headers, m.end) + rest;
    RunAppend(p, Front(m), t, max);
    HeadersBegin(q, m.headers, m.end, rest, max);
    var es := Run(q, t, max).events;
    FirstApart(m.first, es[0]);
    MergeApart(Run(p, Front(m), max).events, es);
  }

  /** A message: its first line, every header, its body as it is framed, and one end. */
  lemma MessageRead(p: Parser, m: Message, max: nat)
    requires IsMessage(p, m, max)
    ensures var r := Run(p, Print(m), max);
      && r.stop == (if Leaves(p, m) then Exit else Go) && Like(Left(p, m, max), r.p)
      && Merge(r.events) == MessageReport(m)
  {
    hide Run, Merge, Front, IsFirst, AreLines, HeaderText, NoHeadersYet, FirstReport, FrameOf, Opened, Suits, PrintBody;
    FrontRead(p, m, max);
    FrontThen(p, m, PrintBody(m.content), max);
    RestOpened(p, m, max);
    RestRead(Run(p, Front(m), max).p, m.headers, m.end, m.content, max);
  }

  lemma RestOpened(p: Parser, m: Message, max: nat)
    requires IsMessage(p, m, max)
    ensures var q, g := Run(p, Front(m), max).p, FrameOf(NO_FRAME, m.headers).frame;
      && IsRest(q, m.headers, m.end, m.content, max) && Switches(q, g) == Leaves(p, m)
      && forall r :: Reaches(q, g, m.content, r, max) ==> Like(Left(p, m, max), r)
  {
    hide Run, Front, IsFirst, HeaderText, NoHeadersYet, FrameOf, Opened, AreLines, AllAnnounced, IsTail;
    FrontRead(p, m, max);
    var o, q, g := Opened(p, m.first), Run(p, Front(m), max).p, FrameOf(NO_FRAME, m.headers).frame;
    SameDecision(o, q, g);
    if m.content.Chunked? { TailLines(m.content.tail, max); }
    SameDecision(o, q, FullFrame(g, m.content));
    hide Decide, Afterwards;
  }

  /** How the parser takes a message of these headers: it refuses them, hands the connection over, or goes on. */
  function Verdict(p: Parser, ls: seq<Line>): Stop
    requires AreLines(ls)
  {
    match FrameOf(NO_FRAME, ls)
    case Bad(e) => Fail(e)
    case Good(g) =>
      match Decide(p, g)
      case Refuse(e) => Fail(e)
      case Complete => if Switches(p, g) then Exit else Go
      case _ => Go
  }

  /** The headers of a message, in any split: refused as they say together, with exactly this error, or the connection is handed
      over, both whatever follows; otherwise accepted. */
  lemma HeadDecided(p: Parser, m: Message, rest: string, calls: seq<Fed>, max: nat)
    requires IsHead(p, m, max) && Chain(p, calls, max) && Input(calls) == Front(m) + (HeaderText(m.headers, m.end) + rest)
    requires Verdict(Opened(p, m.first), m.headers).Go? ==> rest == ""
    ensures Outcome(p, calls).stop == Verdict(Opened(p, m.first), m.headers)
  {
    hide Run, Merge, Front, IsFirst, HeaderText, NoHeadersYet, FrameOf, Opened, AreLines, Decide, Switches, Chain, Outcome;
    FrontRead(p, m, max);
    FrontThen(p, m, rest, max);
    var o, q := Opened(p, m.first), Run(p, Front(m), max).p;
    if FrameOf(NO_FRAME, m.headers).Good? { SameDecision(o, q, FrameOf(NO_FRAME, m.headers).frame); }
    HeadersRun(q, m.headers, m.end, rest, max);
    ChainIsRun(p, calls, max);
  }

  /** Headers, whatever follows them. */
  lemma HeadersRun(q: Parser, ls: seq<Line>, e: string, rest: string, max: nat)
    requires NoHeadersYet(q) && AreLines(ls) && IsEol(e) && q.nread + |HeaderText(ls, e)| <= max
    requires Verdict(q, ls).Go? ==> rest == ""
    ensures Run(q, HeaderText(ls, e) + rest, max).stop == Verdict(q, ls) != Fail(HeaderOverflow)
  {
    hide Run, Merge, HeaderText, FrameOf, AreLines, Switches, Sees, NoHeadersYet;
    NoHeadersSeen(q);
    HeadersDecide(q, ls, e, NO_FRAME, max);
    RunAppend(q, HeaderText(ls, e), rest, max);
    FrameErrors(NO_FRAME, ls);
    EmptyRun(Run(q, HeaderText(ls, e), max).p, max);
  }

  // ---- Messages one behind another ----

  function StreamText(ms: seq<Message>): string {
    if |ms| == 0 then "" else Print(ms[0]) + StreamText(ms[1..])
  }

  function StreamReport(ms: seq<Message>): seq<Event> {
    if |ms| == 0 then [] else MessageReport(ms[0]) + StreamReport(ms[1..])
  }

  /** Messages of which each finds the record waiting for it: the ones in front keep the connection and its protocol. */
  ghost predicate IsStream(p: Parser, ms: seq<Message>, max: nat)
    decreases |ms|
  {
    |ms| == 0 ||
    (&& IsMessage(p, ms[0], max) && (|ms| > 1 ==> !Leaves(p, ms[0]))
     && IsStream(Left(p, ms[0], max), ms[1..], max))
  }

  /** The record that the last message leaves. */
  ghost function EndOf(p: Parser, ms: seq<Message>, max: nat): Parser
    requires IsStream(p, ms, max)
    decreases |ms|
  {
    if |ms| == 0 then p else EndOf(Left(p, ms[0], max), ms[1..], max)
  }

  /** The bytes behind the last message belong to another protocol. */
  ghost predicate EndsInSwitch(p: Parser, ms: seq<Message>, max: nat)
    requires IsStream(p, ms, max)
    decreases |ms|
  {
    if |ms| == 0 then false
    else if |ms| == 1 then Leaves(p, ms[0])
    else EndsInSwitch(Left(p, ms[0], max), ms[1..], max)
  }

  /** In a stream only a message that keeps the connection has another behind it. */
  lemma OnlyKeptGoOn(p: Parser, ms: seq<Message>, max: nat)
    requires IsStream(p, ms, max) && |ms| > 1
    ensures !ms[0].content.Open?
    ensures Keeps(Opened(p, ms[0].first), FullFrame(FrameOf(NO_FRAME, ms[0].headers).frame, ms[0].content))
  {
    hide IsFirst, FrameOf, AreLines, Suits, Keeps, Front, HeaderText, Opened, IsTail;
    assert IsStream(Left(p, ms[0], max), ms[1..], max);
    assert Expects(Left(p, ms[0], max), ms[1].first);
  }

  /** All that matters of a record between messages is its kind, its state and its count. */
  lemma LikeMessage(p: Parser, q: Parser, m: Message, max: nat)
    requires Like(p, q) && IsMessage(p, m, max)
    ensures IsMessage(q, m, max) && Like(Left(p, m, max), Left(q, m, max)) && Leaves(p, m) == Leaves(q, m)
  {
    hide IsFirst, FrameOf, AreLines, Front, HeaderText, Opened, AllAnnounced, IsTail;
    OpenedCount(p, q, m.first);
    var o, u, g := Opened(p, m.first), Opened(q, m.first), FrameOf(NO_FRAME, m.headers).frame;
    SameDecision(o, u, g);
    if m.content.Chunked? { TailLines(m.content.tail, max); }
    SameDecision(o, u, FullFrame(g, m.content));
    hide Decide, Afterwards;
  }

  lemma {:induction false} LikeStream(p: Parser, q: Parser, ms: seq<Message>, max: nat)
    requires Like(p, q) && IsStream(p, ms, max)
    ensures IsStream(q, ms, max) && Like(EndOf(p, ms, max), EndOf(q, ms, max))
    ensures EndsInSwitch(p, ms, max) == EndsInSwitch(q, ms, max)
    decreases |ms|
  {
    hide IsMessage, Leaves, Left;
    if |ms| > 0 {
      LikeMessage(p, q, ms[0], max);
      LikeStream(Left(p, ms[0], max), Left(q, ms[0], max), ms[1..], max);
    }
  }

  lemma MessageEnds(p: Parser, m: Message)
    requires !m.content.Open?
    ensures var r := MessageReport(m); |r| > 0 && r[|r| - 1].Notify?
  {
    hide Report, DataReport;
  }

  /** Pipelining: every message of a stream is reported, whole and in order. */
  lemma {:induction false} StreamRead(p: Parser, ms: seq<Message>, max: nat)
    requires IsStream(p, ms, max)
    ensures var r := Run(p, StreamText(ms), max);
      && r.stop == (if EndsInSwitch(p, ms, max) then Exit else Go) && Like(EndOf(p, ms, max), r.p)
      && Merge(r.events) == StreamReport(ms)
    decreases |ms|
  {
    hide Run, Merge, IsMessage, Leaves, Left, Print, MessageReport;
    if |ms| == 0 {
      EmptyRun(p, max);
      MergeNothing();
    } else {
      var m, rest := ms[0], ms[1..];
      MessageRead(p, m, max);
      var r, l := Run(p, Print(m), max), Left(p, m, max);
      RunAppend(p, Print(m), StreamText(rest), max);
      if |ms| == 1 {
        assert StreamText(rest) == "" && StreamReport(rest) == [] && EndOf(l, rest, max) == l;
        EmptyRun(r.p, max);
        assert r.events + [] == r.events && MessageReport(m) + [] == MessageReport(m);
      } else {
        OnlyKeptGoOn(p, ms, max);
        MessageEnds(p, m);
        LikeStream(l, r.p, rest, max);
        StreamRead(r.p, rest, max);
        MergeBehindSignal(r.events, Run(r.p, StreamText(rest), max).events);
      }
    }
  }

  // ---- In any split ----

  /** The completion that the end of the connection brings. */
  function Closing(p: Parser): seq<Event> {
    if p.state.BodyIdentityEof? then [Notify(MessageComplete)] else []
  }

  /** However the bytes of a stream are split: every message is reported, whole and in order; the record is as the last message
      leaves it, and the end of the connection is no error there, but ends a message that lasts until then. */
  lemma StreamInAnySplit(p: Parser, ms: seq<Message>, calls: seq<Fed>, max: nat)
    requires IsStream(p, ms, max) && Chain(p, calls, max) && Input(calls) == StreamText(ms)
    ensures var o := Outcome(p, calls);
      && o.stop == (if EndsInSwitch(p, ms, max) then Exit else Go) && Like(EndOf(p, ms, max), o.p)
      && Merge(o.events) == StreamReport(ms)
      && (ms != [] ==> HttpExecute.AtEof(o.p.state) == (Closing(o.p), HttpExecute.Clean, 0))
  {
    hide Run, Merge, Chain, Outcome, IsStream, EndOf, EndsInSwitch;
    StreamRead(p, ms, max);
    ChainIsRun(p, calls, max);
    if ms != [] { EndState(p, ms, max); }
  }

  lemma {:induction false} EndState(p: Parser, ms: seq<Message>, max: nat)
    requires IsStream(p, ms, max) && ms != []
    ensures var s := EndOf(p, ms, max).state; s.BodyIdentityEof? || s.Dead? || s.StartReq? || s.StartRes?
    decreases |ms|
  {
    hide IsMessage, Leaves;
    var l := Left(p, ms[0], max);
    if |ms| > 1 { EndState(l, ms[1..], max); } else { assert EndOf(l, ms[1..], max) == l; LeftState(p, ms[0], max); }
  }

  lemma LeftState(p: Parser, m: Message, max: nat)
    requires IsMessage(p, m, max)
    ensures var s := Left(p, m, max).state; s.BodyIdentityEof? || s.Dead? || s.StartReq? || s.StartRes?
  {
    hide IsMessage, Keeps, Opened;
  }

  /** A stream that ends in a change of protocol: whatever follows, and however it is split, the messages are reported and the
      parser stops. */
  lemma SwitchInAnySplit(p: Parser, ms: seq<Message>, rest: string, calls: seq<Fed>, max: nat)
    requires IsStream(p, ms, max) && EndsInSwitch(p, ms, max)
    requires Chain(p, calls, max) && Input(calls) == StreamText(ms) + rest
    ensures var o := Outcome(p, calls); o.stop.Exit? && Like(EndOf(p, ms, max), o.p) && Merge(o.events) == StreamReport(ms)
  {
    hide Run, Merge, Chain, Outcome, IsStream, EndOf, EndsInSwitch;
    StreamRead(p, ms, max);
    RunAppend(p, StreamText(ms), rest, max);
    ChainIsRun(p, calls, max);
  }

  /** A byte behind a closed message. */
  lemma {:induction false} DeadRun(p: Parser, rest: string, max: nat)
    requires p.state.Dead?
    ensures Run(p, rest, max).stop.Fail? <==> !AreBreaks(rest) || (rest != "" && p.nread + |rest| > max)
    ensures !Run(p, rest, max).stop.Exit?
  {
    hide StepByte, IsBreak;
    if rest != "" {
      var init, ch := rest[..|rest| - 1], rest[|rest| - 1];
      DeadRun(p, init, max);
      BreaksMore(rest);
      if AreBreaks(init) && (init == "" || p.nread + |init| <= max) {
        var q := p.(nread := p.nread + |init|);
        if init != "" { BreaksRead(p, init, max); }
        DeadByte(q, ch, max);
      }
    }
  }

  lemma BreaksMore(s: string)
    requires s != ""
    ensures AreBreaks(s) <==> AreBreaks(s[..|s| - 1]) && IsBreak(s[|s| - 1])
  {
    hide IsBreak;
    if AreBreaks(s[..|s| - 1]) && IsBreak(s[|s| - 1]) {
      forall i | 0 <= i < |s| ensures IsBreak(s[i]) {
        if i < |s| - 1 { assert s[i] == s[..|s| - 1][i]; }
      }
    }
  }

  lemma DeadByte(p: Parser, ch: char, max: nat)
    requires p.state.Dead?
    ensures StepByte(p, ch, max).stop.Fail? <==> !IsBreak(ch) || p.nread + 1 > max
    ensures !StepByte(p, ch, max).stop.Exit?
  {
    hide Dispatch, StepByte, IsBreak;
    StartHandlers(p.(nread := p.nread + 1), ch);
    if p.nread + 1 <= max { ByteRecord(p, ch, max); } else { Overflows(p, ch, max); }
  }

  lemma Overflows(p: Parser, ch: char, max: nat)
    requires ParsingHeader(p.state) && p.nread + 1 > max
    ensures StepByte(p, ch, max).stop == Fail(HeaderOverflow)
  {
    hide Dispatch;
  }

  /** Behind a message that closes the connection nothing but line breaks is accepted, however it is split. */
  lemma ClosedInAnySplit(p: Parser, ms: seq<Message>, rest: string, calls: seq<Fed>, max: nat)
    requires IsStream(p, ms, max) && !EndsInSwitch(p, ms, max) && EndOf(p, ms, max).state.Dead?
    requires Chain(p, calls, max) && Input(calls) == StreamText(ms) + rest
    ensures Outcome(p, calls).stop.Fail? <==>
      !AreBreaks(rest) || (rest != "" && EndOf(p, ms, max).nread + |rest| > max)
  {
    hide Run, Merge, Chain, Outcome, IsStream, EndOf, EndsInSwitch, AreBreaks;
    StreamRead(p, ms, max);
    RunAppend(p, StreamText(ms), rest, max);
    DeadRun(Run(p, StreamText(ms), max).p, rest, max);
    RefusedInEverySplit(p, calls, max);
  }

  // ---- Printed by a server ----

  /** A message whose body a server prints in chunks, in any split: the pieces, put together, are what was printed. */
  lemma PrintedMessage(p: Parser, m: Message, datas: seq<string>, calls: seq<Fed>, max: nat)
    requires IsHead(p, m, max) && FrameOf(NO_FRAME, m.headers).Good?
    requires Decide(Opened(p, m.first), FrameOf(NO_FRAME, m.headers).frame).Chunks?
    requires max >= 18 && forall i :: 0 <= i < |datas| ==> 0 < |datas[i]| <= Largest(16)
    requires m.content == Printed(datas) && Chain(p, calls, max) && Input(calls) == Print(m)
    ensures Merge(Outcome(p, calls).events)
      == FirstReport(m.first) + (Report(m.headers) + [Notify(HeadersComplete)] + ReportOf(Sized(datas)))
    ensures DataOf(Merge(Outcome(p, calls).events)) == Concat(datas)
  {
    hide Run, Merge, Front, IsFirst, AreLines, HeaderText, FirstReport, FrameOf, Opened, Decide, Chain, Outcome, PrintBody,
      AllAnnounced, IsTail, Report, ReportOf, BodyReport, Sized, Leaves, Left, IsHead;
    PrintedPieces(datas, max);
    assert IsMessage(p, m, max);
    MessageRead(p, m, max);
    ChainIsRun(p, calls, max);
    ReportIsData(datas);
    HeadersAreNoData(m.headers);
    FirstIsNoData(m.first);
    var a, b, c := FirstReport(m.first), Report(m.headers), [Notify(HeadersComplete)];
    DataOfOne(Notify(HeadersComplete));
    DataOfAppend(b, c);
    DataOfAppend(b + c, ReportOf(Sized(datas)));
    DataOfAppend(a, b + c + ReportOf(Sized(datas)));
    assert "" + Concat(datas) == Concat(datas);
  }

  lemma FirstIsNoData(f: First)
    ensures DataOf(FirstReport(f)) == ""
  {
    hide DataOf;
    var r := FirstReport(f);
    assert r == [r[0]] + [r[1]];
    DataOfOne(r[0]);
    DataOfOne(r[1]);
    DataOfAppend([r[0]], [r[1]]);
  }
}
