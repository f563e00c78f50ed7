/** What the headers of a message, taken together, say about its body: section 3.3.3 of RFC 7230. */
module HttpFraming {
  import opened Basics
  import opened HttpChars
  import opened HttpTypes
  import opened HttpStep
  import opened HttpRun
  import opened HttpRelate
  import opened HttpLengths
  import opened HttpBodies
  import opened HttpHeaders
  import opened HttpLines
  import opened HttpOptions
  import opened HttpValues

  // ---- What one line does ----

  /** What the headers read so far say: whether a transfer coding was announced, whether one was seen to be `chunked`,
      the announced length, the connection options that were asked for, and whether a change of protocol was offered. */
  datatype Frame = Frame(coded: bool, chunked: bool, length: Option<nat>, asked: set<Opt>, upgrade: bool)

  const NO_FRAME := Frame(false, false, None, {}, false)

  datatype Framed = Good(frame: Frame) | Bad(errno: Errno)

  /** The options that a `Connection` header asks for. */
  function Options(l: Line): set<Opt> {
    set o: Opt | Wants(l.value, l.folds, o)
  }

  function After(f: Frame, l: Line): Framed
    requires IsLine(l)
  {
    var low := Folded(l.name);
    if low == CONTENT_LENGTH then
      if l.value == "" || !IsNum(l.value[0]) then Bad(InvalidContentLength)
      else if f.length.Some? then Bad(UnexpectedContentLength)
      else match LengthSeen(l.value, l.folds) case None => Bad(InvalidContentLength) case Some(n) => Good(f.(length := Some(n)))
    else if low == TRANSFER_ENCODING then Good(f.(coded := true, chunked := f.chunked || ChunkedSeen(l.value, l.folds)))
    else if low == CONNECTION || low == PROXY_CONNECTION then Good(f.(asked := f.asked + Options(l)))
    else if low == UPGRADE then Good(f.(upgrade := f.upgrade || l.value != ""))
    else Good(f.(coded := f.coded || TRANSFER_ENCODING <= low))
  }

  predicate Asking(g: Flags, asked: set<Opt>) {
    g.keepAlive == (KeepAlive in asked) && g.close == (Close in asked) && g.connUpgrade == (Switch in asked)
  }

  /** The record knows what the frame says. */
  predicate Sees(p: Parser, f: Frame) {
    && p.usesTransferEncoding == f.coded && p.flags.chunked == f.chunked && p.flags.contentLength == f.length.Some?
    && (f.length.Some? ==> p.contentLength == f.length.value < ULLONG_MAX)
    && Asking(p.flags, f.asked) && p.flags.upgrade == f.upgrade
  }

  /** In front of a header line. */
  predicate AtLine(p: Parser) {
    p.state.HeaderFieldStart? && !p.flags.skipBody
  }

  /** A message of the same first line. */
  predicate SameLead(p: Parser, q: Parser) {
    && q.kind == p.kind && q.verb == p.verb && q.statusCode == p.statusCode && q.allowChunkedLength == p.allowChunkedLength
    && q.httpMajor == p.httpMajor && q.httpMinor == p.httpMinor
  }

  /** The same message. */
  predicate SameAim(p: Parser, q: Parser) {
    && SameLead(p, q) && q.upgrade == p.upgrade && q.flags.trailing == p.flags.trailing
    && (!q.flags.contentLength ==> !p.flags.contentLength && q.contentLength == p.contentLength)
  }

  /** The record once the next byte has shown that the value is not continued. */
  function Settled(q: Parser): Parser {
    q.(flags := HeaderFlag(q.headerState, q.flags), state := HeaderFieldStart)
  }

  /** The record `q` behind a value, once its line is over. */
  function LineOver(q: Parser, n: nat): Parser {
    Settled(q.(state := HeaderValueLws, nread := n))
  }

  /** From `p` a value has been read up to `q`, and the frame is `g`. */
  predicate Framing(p: Parser, g: Frame, q: Parser, n: nat) {
    AtLine(LineOver(q, n)) && Sees(LineOver(q, n), g) && SameAim(p, LineOver(q, n))
  }

  /** The record behind the name of a line and its colon. */
  lemma NameOutcome(p: Parser, l: Line, max: nat)
    requires AtLine(p) && IsLine(l) && p.nread + |Text(l)| <= max
    ensures var b, low := BeforeValue(p, l, max), Folded(l.name);
      && SameMessage(p, b) && (b.usesTransferEncoding <==> p.usesTransferEncoding || TRANSFER_ENCODING <= low)
      && (b.headerState.ContentLength? <==> low == CONTENT_LENGTH)
      && (b.headerState.TransferEncoding? <==> low == TRANSFER_ENCODING)
      && (b.headerState.Connection? <==> low == CONNECTION || low == PROXY_CONNECTION)
      && (b.headerState.Upgrade? <==> low == UPGRADE)
      && (Framer(low) || NamesNothing(b.headerState))
  {
    hide Run, IsName, IsContent, IsGap, Unknown, Begins, Folded;
    HeaderRecognised(p, l.name, max);
  }

  /** The names of headers that say something about the message. */
  predicate Framer(low: string) {
    low == CONTENT_LENGTH || low == TRANSFER_ENCODING || low == CONNECTION || low == PROXY_CONNECTION || low == UPGRADE
  }

  lemma FramersApart()
    ensures CONTENT_LENGTH != TRANSFER_ENCODING && !(TRANSFER_ENCODING <= CONTENT_LENGTH) && !(TRANSFER_ENCODING <= CONNECTION)
    ensures !(TRANSFER_ENCODING <= PROXY_CONNECTION) && !(TRANSFER_ENCODING <= UPGRADE)
    ensures CONTENT_LENGTH != CONNECTION && CONTENT_LENGTH != PROXY_CONNECTION && CONTENT_LENGTH != UPGRADE
    ensures UPGRADE != CONNECTION && UPGRADE != PROXY_CONNECTION
  {}

  /** A line within the limit whose value is not empty. */
  predicate Reads(p: Parser, f: Frame, l: Line, max: nat) {
    AtLine(p) && Sees(p, f) && IsLine(l) && p.nread + |Text(l)| <= max && l.value != ""
  }

  /** What follows the colon of the line. */
  function ContentRun(p: Parser, l: Line, max: nat): Result {
    Run(BeforeValue(p, l, max), Content(l), max)
  }

  /** The record behind the colon, and what may be said of it. */
  lemma ValueBegins(p: Parser, f: Frame, l: Line, max: nat)
    requires Reads(p, f, l, max)
    ensures var b := BeforeValue(p, l, max);
      BeginsValue(b, l.value, max) && AreFolds(l.folds) && b.nread + |Content(l)| <= max
  {
    hide Run, Text, Sees, IsFold, IsName, IsContent, IsGap, BeginsValue;
    LineRuns(p, l, max);
  }

  lemma LengthLine(p: Parser, f: Frame, l: Line, max: nat)
    requires Reads(p, f, l, max) && Folded(l.name) == CONTENT_LENGTH
    ensures var v := ContentRun(p, l, max);
      match After(f, l)
      case Bad(e) => v.stop == Fail(e)
      case Good(g) => v.stop.Go? && Framing(p, g, v.p, p.nread + |Text(l)|)
  {
    hide Run, StepByte, LengthSeen, Folded, Asking, AreFolds;
    NameOutcome(p, l, max);
    ValueBegins(p, f, l, max);
    FramersApart();
    var b := BeforeValue(p, l, max);
    hide IsLine, BeforeValue, Text;
    if !IsNum(l.value[0]) || f.length.Some? {
      NoDigit(b, l.value[0], max);
      ContentStops(b, l, max);
    } else {
      LengthContent(b, l.value, l.folds, max);
      LengthFlags(Run(b, Content(l), max).p);
    }
  }

  lemma LengthFlags(q: Parser)
    ensures InLength(q) ==> HeaderFlag(q.headerState, q.flags) == q.flags
    ensures forall g: Flags, asked :: Asking(g.(contentLength := true), asked) == Asking(g, asked)
  {}

  lemma ContentStops(b: Parser, l: Line, max: nat)
    requires l.value != "" && StepByte(b, l.value[0], max).stop.Fail?
    ensures Run(b, Content(l), max).stop == StepByte(b, l.value[0], max).stop
  {
    hide StepByte, Run;
    StopsAtOnce(b, l.value, max);
    RunAppend(b, l.value, FoldsText(l.folds), max);
  }

  lemma CodingLine(p: Parser, f: Frame, l: Line, max: nat)
    requires Reads(p, f, l, max) && Folded(l.name) == TRANSFER_ENCODING
    ensures var v, g := ContentRun(p, l, max), f.(coded := true, chunked := f.chunked || ChunkedSeen(l.value, l.folds));
      v.stop.Go? && Framing(p, g, v.p, p.nread + |Text(l)|)
  {
    hide Run, StepByte, ChunkedSeen, Folded, HeaderFlag, Asking, AreFolds;
    NameOutcome(p, l, max);
    ValueBegins(p, f, l, max);
    FramersApart();
    var b := BeforeValue(p, l, max);
    hide BeforeValue, IsLine, Text;
    CodingsSeen(b, l.value, l.folds, max);
    AskingSame();
  }

  lemma AskingSame()
    ensures forall g: Flags, c: bool, asked :: Asking(g.(chunked := c), asked) == Asking(g, asked)
    ensures forall g: Flags, c: bool, asked :: Asking(g.(upgrade := c), asked) == Asking(g, asked)
  {}

  lemma OptionLine(p: Parser, f: Frame, l: Line, max: nat)
    requires Reads(p, f, l, max) && (Folded(l.name) == CONNECTION || Folded(l.name) == PROXY_CONNECTION)
    ensures var v := ContentRun(p, l, max);
      v.stop.Go? && Framing(p, f.(asked := f.asked + Options(l)), v.p, p.nread + |Text(l)|)
  {
    hide Run, StepByte, Wants, Folded, HeaderFlag, AreFolds;
    NameOutcome(p, l, max);
    ValueBegins(p, f, l, max);
    FramersApart();
    var b := BeforeValue(p, l, max);
    hide BeforeValue, IsLine, Text;
    OptionsSeen(b, l.value, l.folds, max);
  }

  lemma OtherLine(p: Parser, f: Frame, l: Line, max: nat)
    requires Reads(p, f, l, max) && (!Framer(Folded(l.name)) || Folded(l.name) == UPGRADE)
    ensures var v := ContentRun(p, l, max);
      && v.stop.Go? && After(f, l).Good?
      && Framing(p, After(f, l).frame, v.p, p.nread + |Text(l)|)
  {
    hide Run, Folded, NamesNothing, AreFolds, Framing;
    NameOutcome(p, l, max);
    ValueBegins(p, f, l, max);
    var b := BeforeValue(p, l, max);
    OtherAfter(f, l);
    hide BeforeValue, IsLine, Text, After;
    OtherContent(b, l.value, l.folds, max);
    OtherFramed(p, f, b, |Content(l)|, Folded(l.name), p.nread + |Text(l)|);
  }

  /** What any other line adds to the frame. */
  lemma OtherAfter(f: Frame, l: Line)
    requires IsLine(l) && l.value != "" && (!Framer(Folded(l.name)) || Folded(l.name) == UPGRADE)
    ensures var low := Folded(l.name);
      After(f, l) == Good(f.(coded := f.coded || TRANSFER_ENCODING <= low, upgrade := f.upgrade || low == UPGRADE))
  {
    hide Folded, IsLine;
    FramersApart();
  }

  lemma OtherFramed(p: Parser, f: Frame, b: Parser, n: nat, low: string, k: nat)
    requires AtLine(p) && Sees(p, f) && SameMessage(p, b)
    requires b.usesTransferEncoding <==> p.usesTransferEncoding || TRANSFER_ENCODING <= low
    requires b.headerState.Upgrade? <==> low == UPGRADE
    ensures Framing(p, f.(coded := f.coded || TRANSFER_ENCODING <= low, upgrade := f.upgrade || low == UPGRADE), Passed(b, n), k)
  {
    AskingSame();
    hide Asking;
  }

  /** The record behind the lines read so far: in front of the first, or behind the last, whose value might be continued. */
  function Ready(q: Parser): Parser {
    if q.state.HeaderValueLws? || q.state.HeaderValueDiscardLws? then Settled(q) else q
  }

  /** An empty value is handed over with the next byte. */
  function Pending(q: Parser): seq<Event> {
    if q.state.HeaderValueDiscardLws? then [Data(Value, "")] else []
  }

  /** An empty length is refused with the next byte. */
  predicate Doomed(q: Parser) {
    q.state.HeaderValueDiscardLws? && q.headerState.ContentLength?
  }

  /** Refused, now or with the next byte. */
  predicate Refused(r: Result, e: Errno) {
    r.stop == Fail(e) || (r.stop.Go? && Doomed(r.p) && e == InvalidContentLength)
  }

  /** Lines of the message of `p` have been read up to `q`, and their frame is `g`. */
  predicate Carries(p: Parser, g: Frame, q: Parser) {
    !Doomed(q) && AtLine(Ready(q)) && Sees(Ready(q), g) && SameAim(p, Ready(q))
  }

  lemma BareLine(p: Parser, f: Frame, l: Line, max: nat)
    requires AtLine(p) && Sees(p, f) && IsLine(l) && p.nread + |Text(l)| <= max && l.value == ""
    ensures var r := Run(p, Text(l), max);
      && r.stop.Go? && r.p.nread == p.nread + |Text(l)|
      && match After(f, l)
         case Bad(e) => Refused(r, e)
         case Good(g) => Carries(p, g, r.p) && Merge(r.events + Pending(r.p)) == LineReport(l)
  {
    hide Run, Merge, Folded, BeforeValue, LengthSeen, Text, ChunkedSeen, Options, IsName, IsContent, IsGap, Carries, Asking;
    NameOutcome(p, l, max);
    BareLineRuns(p, l, max);
    FramersApart();
    NothingSeen(l);
    if Folded(l.name) != CONTENT_LENGTH { BareCarries(p, f, l, BeforeValue(p, l, max), Run(p, Text(l), max).p); }
    var es := Run(p, Text(l), max).events;
    MergeOne(es, Data(Value, ""));
    assert l.value + Joined(l.folds) == "";
    assert f.asked + {} == f.asked;
    assert [Data(Field, l.name)] + [Data(Value, "")] == [Data(Field, l.name), Data(Value, "")];
  }

  lemma BareCarries(p: Parser, f: Frame, l: Line, b: Parser, q: Parser)
    requires AtLine(p) && Sees(p, f) && SameMessage(p, b) && q == b.(state := HeaderValueDiscardLws, nread := q.nread)
    requires var low := Folded(l.name);
      && (b.usesTransferEncoding <==> p.usesTransferEncoding || TRANSFER_ENCODING <= low)
      && !b.headerState.ContentLength?
      && (NamesNothing(b.headerState) || b.headerState.TransferEncoding? || b.headerState.Connection? || b.headerState.Upgrade?)
    ensures Carries(p, f.(coded := f.coded || TRANSFER_ENCODING <= Folded(l.name)), q)
  {
    hide Folded, Asking;
  }

  /** An empty value says nothing. */
  lemma NothingSeen(l: Line)
    requires l.value == "" && l.folds == []
    ensures !ChunkedSeen(l.value, l.folds) && Options(l) == {}
  {
    assert Codings("") == [""] && !IsChunked("");
    OnlyEmpty();
    hide Has, Codings, IsChunked;
  }

  /** One line: refused, or read and handed over, with the frame moved on. */
  lemma LineRead(p: Parser, f: Frame, l: Line, max: nat)
    requires AtLine(p) && Sees(p, f) && IsLine(l) && p.nread + |Text(l)| <= max
    ensures var r := Run(p, Text(l), max);
      && (r.stop.Go? ==> r.p.nread == p.nread + |Text(l)|)
      && match After(f, l)
         case Bad(e) => Refused(r, e)
         case Good(g) => r.stop.Go? && Carries(p, g, r.p) && Merge(r.events + Pending(r.p)) == LineReport(l)
  {
    hide Run, Merge, Folded, BeforeValue, IsLine, Text, HeaderFlag, LengthSeen, ChunkedSeen, Options, LineReport, Content;
    if l.value == "" {
      BareLine(p, f, l, max);
    } else {
      LineRuns(p, l, max);
      var es := Run(p, Text(l), max).events;
      assert es + [] == es;
      FramersApart();
      if Folded(l.name) == CONTENT_LENGTH {
        LengthLine(p, f, l, max);
      } else if Folded(l.name) == TRANSFER_ENCODING {
        CodingLine(p, f, l, max);
      } else if Folded(l.name) == CONNECTION || Folded(l.name) == PROXY_CONNECTION {
        OptionLine(p, f, l, max);
      } else {
        OtherLine(p, f, l, max);
      }
    }
  }

  lemma SettledByte(q: Parser, ch: char, max: nat)
    requires q.state.HeaderValueLws? && !IsBlank(ch) && q.nread < max
    ensures StepByte(q, ch, max) == StepByte(Settled(q), ch, max)
  {
    hide Dispatch, Perform, FlushAll, HeaderFlag, StepHeaderFieldStart;
    EndStates(q.(nread := q.nread + 1), ch);
    NameStates(Settled(q).(nread := q.nread + 1), ch);
  }

  /** A mark that is set and taken at once hands over nothing but itself. */
  lemma EmptyText(acts: seq<Act>, k: DataKind, ch: char)
    ensures var (m, e) := Perform(acts, map[], [ch], 0);
      Perform([SetMark(k), Flush(k)] + acts, map[], [ch], 0) == (m, [Data(k, "")] + e)
  {
    var none: Marks := map[];
    assert [SetMark(k), Flush(k)] + acts == [SetMark(k)] + ([Flush(k)] + acts);
    PerformCons(SetMark(k), [Flush(k)] + acts, none, [ch], 0);
    PerformCons(Flush(k), acts, none[k := 0], [ch], 0);
    assert none[k := 0] - {k} == none && [ch][0..0] == "";
    hide Perform;
    var (m, e) := Perform(acts, none, [ch], 0);
    assert [] + ([Data(k, "")] + e) == [Data(k, "")] + e;
  }

  lemma BareDispatch(q: Parser, ch: char)
    requires q.state.HeaderValueDiscardLws? && !IsBlank(ch)
    ensures Doomed(q) ==> Dispatch(q, ch).stop == Fail(InvalidContentLength)
    ensures !Doomed(q) ==> Dispatch(q, ch) == Then([SetMark(Value), Flush(Value)], Dispatch(Settled(q), ch))
  {
    hide Dispatch, HeaderFlag, StepHeaderFieldStart;
    BareStates(q, ch);
    NameStates(Settled(q), ch);
  }

  /** The byte behind an empty value hands it over. */
  lemma BareByte(q: Parser, ch: char, max: nat)
    requires q.state.HeaderValueDiscardLws? && !IsBlank(ch) && q.nread < max
    ensures var r, s := StepByte(q, ch, max), StepByte(Settled(q), ch, max);
      if Doomed(q) then r.stop == Fail(InvalidContentLength)
      else r == s.(events := [Data(Value, "")] + s.events)
  {
    hide Dispatch, Perform, FlushAll, Settled, Doomed;
    var a := q.(nread := q.nread + 1);
    SettledFacts(q);
    BareDispatch(a, ch);
    DoomCounts(q);
    if !Doomed(q) {
      var o := Dispatch(Settled(a), ch);
      EmptyText(o.acts, Value, ch);
      var (m, e) := Perform(o.acts, map[], [ch], 0);
      assert o.stop.Go? ==> [Data(Value, "")] + e + FlushAll(m, [ch]) == [Data(Value, "")] + (e + FlushAll(m, [ch]));
    }
  }

  lemma SettledFacts(q: Parser)
    ensures var z := Settled(q);
      z.state.HeaderFieldStart? && z.nread == q.nread && Settled(q.(nread := q.nread + 1)) == z.(nread := q.nread + 1)
  {
    hide HeaderFlag;
  }

  lemma DoomCounts(q: Parser)
    ensures Doomed(q.(nread := q.nread + 1)) == Doomed(q)
  {}

  /** What follows a line that is not continued is read as if by a record that waits for a line. */
  lemma SettledRun(q: Parser, s: string, max: nat)
    requires s != "" && !IsBlank(s[0]) && q.nread < max
    ensures var r, z := Run(q, s, max), Run(Ready(q), s, max);
      if Doomed(q) then r.stop == Fail(InvalidContentLength)
      else r == z.(events := Pending(q) + z.events)
  {
    hide Run, StepByte, Settled;
    var z := Run(Ready(q), s, max);
    assert [] + z.events == z.events;
    if q.state.HeaderValueLws? || q.state.HeaderValueDiscardLws? {
      assert [s[0]] + s[1..] == s;
      if q.state.HeaderValueLws? { SettledByte(q, s[0], max); } else { BareByte(q, s[0], max); }
      OneByteRun(q, s[0], max);
      OneByteRun(Settled(q), s[0], max);
      RunAppend(q, [s[0]], s[1..], max);
      RunAppend(Settled(q), [s[0]], s[1..], max);
      if Run(q, [s[0]], max).stop.Go? {
        var a, b := Run(Settled(q), [s[0]], max).events, Run(Run(q, [s[0]], max).p, s[1..], max).events;
        assert Pending(q) + a + b == Pending(q) + (a + b);
      }
    }
  }

  lemma TextBegins(l: Line)
    requires IsLine(l)
    ensures Text(l) != "" && Text(l)[0] == l.name[0] && !IsBlank(Text(l)[0]) && Token(Text(l)[0]) != '\0'
  {
    assert Token(' ') == Token('\t') == '\0';
    hide Token;
  }

  // ---- All lines ----

  predicate AreLines(ls: seq<Line>) {
    forall i | 0 <= i < |ls| :: IsLine(ls[i])
  }

  function Texts(ls: seq<Line>): string {
    if |ls| == 0 then "" else Texts(ls[..|ls| - 1]) + Text(ls[|ls| - 1])
  }

  function Report(ls: seq<Line>): seq<Event> {
    if |ls| == 0 then [] else Report(ls[..|ls| - 1]) + LineReport(ls[|ls| - 1])
  }

  /** The frame behind all lines; the first line that cannot be right refuses the message. */
  function FrameOf(f: Frame, ls: seq<Line>): Framed
    requires AreLines(ls)
  {
    if |ls| == 0 then Good(f)
    else match FrameOf(f, ls[..|ls| - 1]) case Bad(e) => Bad(e) case Good(g) => After(g, ls[|ls| - 1])
  }

  lemma {:induction false} FrameErrors(f: Frame, ls: seq<Line>)
    requires AreLines(ls)
    ensures FrameOf(f, ls).Bad? ==>
      FrameOf(f, ls).errno == InvalidContentLength || FrameOf(f, ls).errno == UnexpectedContentLength
  {
    if |ls| > 0 { FrameErrors(f, ls[..|ls| - 1]); }
  }

  predicate SameKind(e: Event, f: Event) {
    e.Data? && f.Data? && e.kind == f.kind
  }

  /** Joining starts afresh where the kind of data changes. */
  lemma {:induction false} JoinApart(es: seq<Event>, more: seq<Event>)
    requires |es| > 0 && |more| > 0 && !SameKind(es[|es| - 1], more[0])
    ensures JoinAll(es, more) == es + Merge(more) && |Merge(more)| > 0
  {
    var init, e := more[..|more| - 1], more[|more| - 1];
    if |more| == 1 {
      assert more == [e];
      JoinAllOne(es, e);
      JoinAllOne([], e);
      assert [] + [e] == [e];
    } else {
      JoinApart(es, init);
      JoinInside(es, Merge(init), e);
      assert Merge(more) == Join(Merge(init), e) && JoinAll(es, more) == Join(es + Merge(init), e);
    }
  }

  lemma JoinInside(es: seq<Event>, m: seq<Event>, e: Event)
    requires |m| > 0
    ensures Join(es + m, e) == es + Join(m, e)
  {
    assert (es + m)[|es + m| - 1] == m[|m| - 1];
    assert (es + m)[..|es + m| - 1] == es + m[..|m| - 1];
  }

  /** Two lists of callbacks of which the second begins with another kind. */
  lemma MergeApart(a: seq<Event>, b: seq<Event>)
    requires |b| > 0 && (Merge(a) == [] || !SameKind(Merge(a)[|Merge(a)| - 1], b[0]))
    ensures Merge(a + b) == Merge(a) + Merge(b)
  {
    MergeAppend(a, b);
    if Merge(a) == [] {
      assert Merge(a) + Merge(b) == Merge(b);
    } else {
      JoinApart(Merge(a), b);
    }
  }

  lemma ReportEnds(ls: seq<Line>)
    ensures Report(ls) != [] ==> Report(ls)[|Report(ls)| - 1].Data? && Report(ls)[|Report(ls)| - 1].kind == Value
  {}

  /** A line begins with its name. */
  lemma LineBegins(p: Parser, l: Line, max: nat)
    requires p.state.HeaderFieldStart? && IsLine(l) && p.nread < max
    ensures |Run(p, Text(l), max).events| > 0 && Run(p, Text(l), max).events[0] == Data(Field, [l.name[0]])
  {
    hide Run, StepByte, Token, InName;
    var t := Text(l);
    TextBegins(l);
    NameByte(p, "", t[0], max);
    OneByteRun(p, t[0], max);
    assert [t[0]] + t[1..] == t;
    RunAppend(p, [t[0]], t[1..], max);
  }

  /** The lines behind `p`, in order: refused as their frame says, or read and handed over, with the record knowing the
      frame. */
  lemma {:induction false} LinesRead(p: Parser, f: Frame, ls: seq<Line>, max: nat)
    requires AtLine(p) && Sees(p, f) && AreLines(ls) && p.nread + |Texts(ls)| <= max
    ensures var r := Run(p, Texts(ls), max);
      && (r.stop.Go? ==> r.p.nread == p.nread + |Texts(ls)|)
      && match FrameOf(f, ls)
         case Bad(e) => Refused(r, e)
         case Good(g) => r.stop.Go? && Carries(p, g, r.p) && Merge(r.events + Pending(r.p)) == Report(ls)
  {
    hide StepByte, Merge, Run, IsLine, After, Settled;
    if |ls| == 0 {
      EmptyRun(p, max);
      MergeNothing();
      var none: seq<Event> := [];
      assert none + none == none;
    } else {
      var init, l := ls[..|ls| - 1], ls[|ls| - 1];
      LinesRead(p, f, init, max);
      RunAppend(p, Texts(init), Text(l), max);
      var r := Run(p, Texts(init), max);
      if r.stop.Go? {
        TextBegins(l);
        SettledRun(r.p, Text(l), max);
        if FrameOf(f, init).Good? { NextLine(p, r, FrameOf(f, init).frame, init, l, max); }
      }
    }
  }

  /** One more line behind those read so far. */
  lemma NextLine(p: Parser, r: Result, g: Frame, init: seq<Line>, l: Line, max: nat)
    requires Carries(p, g, r.p) && IsLine(l)
    requires Merge(r.events + Pending(r.p)) == Report(init) && r.p.nread + |Text(l)| <= max
    ensures var s := Run(r.p, Text(l), max);
      && (s.stop.Go? ==> s.p.nread == r.p.nread + |Text(l)|)
      && match After(g, l)
         case Bad(e) => Refused(s, e)
         case Good(h) =>
           && s.stop.Go? && Carries(p, h, s.p)
           && Merge(r.events + s.events + Pending(s.p)) == Report(init) + LineReport(l)
  {
    hide StepByte, Merge, Run, After, Folded, Token, Settled, Pending, IsLine, Text, Report, LineReport;
    var z := Ready(r.p);
    TextBegins(l);
    assert z.nread == r.p.nread by { ReadyCount(r.p); }
    SettledRun(r.p, Text(l), max);
    LineRead(z, g, l, max);
    hide Doomed, Ready;
    if After(g, l).Good? {
      var s := Run(z, Text(l), max);
      NextReport(r.events + Pending(r.p), s.events + Pending(s.p), z, init, l, max);
      assert r.events + (Pending(r.p) + s.events) + Pending(s.p) == r.events + Pending(r.p) + (s.events + Pending(s.p));
    }
  }

  lemma NextReport(es: seq<Event>, fs: seq<Event>, z: Parser, init: seq<Line>, l: Line, max: nat)
    requires Merge(es) == Report(init) && Merge(fs) == LineReport(l)
    requires z.state.HeaderFieldStart? && IsLine(l) && z.nread < max && Run(z, Text(l), max).events <= fs
    ensures Merge(es + fs) == Report(init) + LineReport(l)
  {
    hide Run, Merge, Text, IsLine, Report, LineReport;
    LineBegins(z, l, max);
    ReportEnds(init);
    MergeApart(es, fs);
  }

  lemma ReadyCount(q: Parser)
    ensures Ready(q).nread == q.nread
  {}

  // ---- What the frame means ----

  predicate IsLength(l: Line) { Folded(l.name) == CONTENT_LENGTH }

  predicate IsCoding(l: Line) { TRANSFER_ENCODING <= Folded(l.name) }

  predicate IsChunkedCoding(l: Line) { Folded(l.name) == TRANSFER_ENCODING && ChunkedSeen(l.value, l.folds) }

  predicate IsOffer(l: Line) { Folded(l.name) == UPGRADE && l.value != "" }

  predicate IsWish(l: Line, o: Opt) {
    (Folded(l.name) == CONNECTION || Folded(l.name) == PROXY_CONNECTION) && Wants(l.value, l.folds, o)
  }

  function WishFor(o: Opt): Line -> bool { (l: Line) => IsWish(l, o) }

  ghost predicate Any(ls: seq<Line>, f: Line -> bool) {
    exists i :: 0 <= i < |ls| && f(ls[i])
  }

  lemma AnyMore(init: seq<Line>, l: Line, f: Line -> bool)
    ensures Any(init + [l], f) <==> Any(init, f) || f(l)
  {
    var ls := init + [l];
    assert ls[|init|] == l && forall i | 0 <= i < |init| :: ls[i] == init[i];
    if Any(init, f) { var i :| 0 <= i < |init| && f(init[i]); assert f(ls[i]); }
  }

  /** Every `Content-Length` announces a length, and there is at most one. */
  ghost predicate OneLength(ls: seq<Line>) {
    && (forall i | 0 <= i < |ls| && IsLength(ls[i]) :: LengthSeen(ls[i].value, ls[i].folds).Some?)
    && (forall i, j | 0 <= i < j < |ls| && IsLength(ls[i]) :: !IsLength(ls[j]))
  }

  /** What a frame says, without the order in which the headers came. */
  ghost predicate Means(g: Frame, ls: seq<Line>) {
    && (g.coded <==> Any(ls, IsCoding)) && (g.chunked <==> Any(ls, IsChunkedCoding)) && (g.upgrade <==> Any(ls, IsOffer))
    && (g.length.Some? <==> Any(ls, IsLength))
    && (forall i | 0 <= i < |ls| && IsLength(ls[i]) :: g.length == LengthSeen(ls[i].value, ls[i].folds))
    && (forall o :: o in g.asked <==> Any(ls, WishFor(o)))
  }

  /** What a line adds to the frame, header by header. */
  lemma AfterParts(g: Frame, l: Line)
    requires IsLine(l)
    ensures IsLength(l) ==>
      (After(g, l).Good? <==> g.length.None? && LengthSeen(l.value, l.folds).Some?)
      && (After(g, l).Good? ==> After(g, l).frame == g.(length := LengthSeen(l.value, l.folds)))
      && !IsCoding(l) && !IsChunkedCoding(l) && !IsOffer(l) && forall o :: !IsWish(l, o)
    ensures !IsLength(l) ==>
      && After(g, l).Good?
      && var h := After(g, l).frame;
         && h.length == g.length && (h.coded <==> g.coded || IsCoding(l)) && (h.chunked <==> g.chunked || IsChunkedCoding(l))
         && (h.upgrade <==> g.upgrade || IsOffer(l)) && forall o :: o in h.asked <==> o in g.asked || IsWish(l, o)
  {
    hide LengthSeen, ChunkedSeen, Wants, Folded, IsLine;
    FramersApart();
    LengthNeedsDigit(l.value, l.folds);
  }

  lemma LengthNeedsDigit(v: string, fs: seq<Fold>)
    ensures LengthSeen(v, fs).Some? ==> v != "" && IsNum(v[0])
  {
    hide Spelled, Digits;
  }

  lemma LengthMore(g: Frame, init: seq<Line>, l: Line)
    requires IsLine(l) && OneLength(init) && Means(g, init)
    ensures After(g, l).Good? <==> OneLength(init + [l])
    ensures After(g, l).Good? ==>
      forall i | 0 <= i < |init + [l]| && IsLength((init + [l])[i]) ::
        After(g, l).frame.length == LengthSeen((init + [l])[i].value, (init + [l])[i].folds)
  {
    AfterParts(g, l);
    hide LengthSeen, IsLength, After, IsCoding, IsChunkedCoding, IsOffer, WishFor, IsLine;
    var ls := init + [l];
    assert ls[|init|] == l && forall i | 0 <= i < |init| :: ls[i] == init[i];
    if IsLength(l) && After(g, l).Good? { assert OneLength(ls); }
  }

  lemma AfterMeans(g: Frame, init: seq<Line>, l: Line)
    requires IsLine(l) && OneLength(init) && Means(g, init)
    ensures After(g, l).Good? <==> OneLength(init + [l])
    ensures After(g, l).Good? ==> Means(After(g, l).frame, init + [l])
  {
    LengthMore(g, init, l);
    AfterParts(g, l);
    AnyMore(init, l, IsLength);
    AnyMore(init, l, IsCoding);
    AnyMore(init, l, IsChunkedCoding);
    AnyMore(init, l, IsOffer);
    forall o: Opt ensures Any(init + [l], WishFor(o)) <==> Any(init, WishFor(o)) || IsWish(l, o) {
      AnyMore(init, l, WishFor(o));
    }
    hide After, Any, OneLength, IsLength, IsCoding, IsChunkedCoding, IsOffer, IsWish, WishFor, IsLine, LengthSeen;
  }

  /** The headers are refused exactly when a `Content-Length` announces no length or there are two of them; otherwise the
      frame says whether any header counts as a transfer coding, whether any `Transfer-Encoding` was seen to end in
      `chunked`, what the one length is, which options any `Connection` asked for, and whether there was an `Upgrade`. */
  lemma {:induction false} FrameMeans(ls: seq<Line>)
    requires AreLines(ls)
    ensures FrameOf(NO_FRAME, ls).Good? <==> OneLength(ls)
    ensures FrameOf(NO_FRAME, ls).Good? ==> Means(FrameOf(NO_FRAME, ls).frame, ls)
  {
    hide After, OneLength, Means, IsLine;
    if |ls| == 0 {
      EmptyMeans();
    } else {
      var init, l := ls[..|ls| - 1], ls[|ls| - 1];
      FrameMeans(init);
      assert init + [l] == ls;
      match FrameOf(NO_FRAME, init)
      case Bad(e) => MoreLengths(init, l);
      case Good(g) => AfterMeans(g, init, l);
    }
  }

  lemma EmptyMeans()
    ensures OneLength([]) && Means(NO_FRAME, [])
  {}

  lemma MoreLengths(init: seq<Line>, l: Line)
    requires !OneLength(init)
    ensures !OneLength(init + [l])
  {
    hide IsLength, LengthSeen;
    var ls := init + [l];
    assert forall i | 0 <= i < |init| :: ls[i] == init[i];
  }

  // ---- The decision ----

  datatype Decision = Refuse(errno: Errno) | Complete | Chunks | Length(n: nat) | UntilClose

  /** Whether the bytes behind the message belong to another protocol: by agreement, or behind CONNECT. */
  predicate Switches(p: Parser, f: Frame) {
    if f.upgrade && Switch in f.asked then p.kind.Request? || p.statusCode == 101 else p.verb.CONNECT?
  }

  /** A message that never has a body, by its kind and status. */
  predicate Bodiless(p: Parser) {
    p.kind.Request? || 100 <= p.statusCode < 200 || p.statusCode == 204 || p.statusCode == 304
  }

  /** How the body is framed, once all headers are read. */
  function Decide(p: Parser, f: Frame): Decision {
    if f.coded && f.length.Some? && !(f.chunked && p.allowChunkedLength) then Refuse(UnexpectedContentLength)
    else if Switches(p, f) && (p.verb.CONNECT? || (!f.chunked && (f.length.None? || f.length.value == 0))) then Complete
    else if f.chunked then Chunks
    else if f.coded then if p.kind.Request? then Refuse(InvalidTransferEncoding) else UntilClose
    else match f.length
         case Some(n) => if n == 0 then Complete else Length(n)
         case None => if Bodiless(p) then Complete else UntilClose
  }

  /** The connection is kept by the version of the message and the options that were asked for, unless only its end could
      end the message. */
  predicate Keeps(p: Parser, f: Frame) {
    && (if p.httpMajor > 0 && p.httpMinor > 0 then Close !in f.asked else KeepAlive in f.asked)
    && (Bodiless(p) || f.chunked || (!f.coded && f.length.Some?))
  }

  /** Where the record waits behind the message. */
  function Afterwards(p: Parser, f: Frame): State {
    if Keeps(p, f) then (if p.kind.Request? then StartReq else StartRes) else Dead
  }

  /** The record and the reason to stop that go with a decision. */
  predicate Ends(p: Parser, f: Frame, q: Parser, stop: Stop) {
    match Decide(p, f)
    case Refuse(e) => stop == Fail(e)
    case Complete => stop == StopOf(q) && q.state == Afterwards(p, f) && q.nread == 0
    case Chunks => stop.Go? && q.state.ChunkSizeStart? && q.nread == 0
    case Length(n) => stop.Go? && q.state.BodyIdentity? && InBodyOf(q, n) && q.nread == 0
    case UntilClose => stop.Go? && q.state.BodyIdentityEof? && q.nread == 0
  }

  /** What is reported at the blank line. */
  function EndReport(d: Decision): seq<Event> {
    if d.Complete? then [Notify(HeadersComplete), Notify(MessageComplete)] else [Notify(HeadersComplete)]
  }

  function EndActs(d: Decision): seq<Act> {
    if d.Complete? then [Call(HeadersComplete), Call(MessageComplete)] else [Call(HeadersComplete)]
  }

  /** In front of the last byte of the blank line. */
  predicate AtEnd(p: Parser, f: Frame) {
    && p.state.HeadersAlmostDone? && !p.flags.skipBody && !p.flags.trailing
    && Sees(p, f) && (f.length.None? ==> p.contentLength == ULLONG_MAX)
  }

  /** The record keeps what the first line and the headers said. */
  predicate Knows(p: Parser, f: Frame, q: Parser) {
    Sees(q, f) && SameLead(p, q) && q.upgrade == Switches(p, f) && !q.flags.skipBody && !q.flags.trailing
  }

  /** The connection is kept or not as the frame says. */
  lemma KeepsExactly(p: Parser, f: Frame, q: Parser)
    requires Sees(q, f) && SameLead(p, q) && !q.flags.skipBody
    requires f.length.None? && !f.chunked ==> q.contentLength == ULLONG_MAX
    ensures NewMessage(q) == Afterwards(p, f)
    ensures NeedsEof(q) <==> !(Bodiless(p) || f.chunked || (!f.coded && f.length.Some?))
  {}

  lemma Decided(p: Parser, f: Frame)
    requires AtEnd(p, f)
    ensures var o, d := StepHeadersAlmostDone(p, '\n'), Decide(p, f);
      Ends(p, f, o.p, o.stop) && (!d.Refuse? ==> o.acts == EndActs(d) && Knows(p, f, o.p))
  {
    if Decide(p, f) != Refuse(UnexpectedContentLength) {
      var q := p.(state := HeadersDone, upgrade := Switches(p, f));
      DoneDecided(q, f);
      var o := StepHeadersDone(q, '\n');
      hide StepHeadersDone, NewMessage;
      assert [Call(HeadersComplete)] + [Call(MessageComplete)] == [Call(HeadersComplete), Call(MessageComplete)];
      assert [Call(HeadersComplete)] + [] == [Call(HeadersComplete)];
    }
  }

  lemma DoneDecided(p: Parser, f: Frame)
    requires AtEnd(p.(state := HeadersAlmostDone), f) && p.upgrade == Switches(p, f)
    requires Decide(p, f) != Refuse(UnexpectedContentLength)
    ensures var o, d := StepHeadersDone(p, '\n'), Decide(p, f);
      && Ends(p, f, o.p, o.stop)
      && (!d.Refuse? ==> Knows(p, f, o.p) && o.acts == if d.Complete? then [Call(MessageComplete)] else [])
  {
    var q := p.(nread := 0);
    KeepsExactly(p, f, q);
    hide NewMessage, NeedsEof, Keeps;
  }

  lemma LastByte(a: Parser, f: Frame, max: nat)
    requires AtEnd(a, f) && a.nread + 1 <= max
    ensures var r, d := StepByte(a, '\n', max), Decide(a, f);
      Ends(a, f, r.p, r.stop) && (!d.Refuse? ==> r.events == EndReport(d) && Knows(a, f, r.p))
  {
    hide Dispatch, StepByte, StepHeadersAlmostDone, Ends, Knows, Decide;
    var b := a.(nread := a.nread + 1);
    EndStates(b, '\n');
    ByteRecord(a, '\n', max);
    Decided(b, f);
    SameDecision(b, a, f);
    var d, o := Decide(a, f), StepHeadersAlmostDone(b, '\n');
    if d.Complete? {
      Call2Byte(a, '\n', o, HeadersComplete, MessageComplete, max);
    } else if !d.Refuse? {
      CallByte(a, '\n', o, HeadersComplete, max);
    }
  }

  /** The first line decides with the frame. */
  lemma SameDecision(p: Parser, q: Parser, f: Frame)
    requires SameLead(p, q)
    ensures Decide(p, f) == Decide(q, f) && Afterwards(p, f) == Afterwards(q, f) && Switches(p, f) == Switches(q, f)
    ensures forall r, stop :: Ends(p, f, r, stop) == Ends(q, f, r, stop)
    ensures forall r :: Knows(p, f, r) == Knows(q, f, r)
  {}

  /** The blank line behind the headers, with or without its carriage return. */
  lemma BlankLine(p: Parser, f: Frame, e: string, max: nat)
    requires AtLine(p) && !p.flags.trailing && Sees(p, f) && (f.length.None? ==> p.contentLength == ULLONG_MAX)
    requires IsEol(e) && p.nread + |e| <= max
    ensures var r, d := Run(p, e, max), Decide(p, f);
      Ends(p, f, r.p, r.stop) && (!d.Refuse? ==> r.events == EndReport(d) && Knows(p, f, r.p))
  {
    hide Dispatch, StepByte, Ends, Knows, EndReport, Decide, Run, Sees;
    var a := p.(state := HeadersAlmostDone);
    SameDecision(a, p, f);
    if e == LF {
      FeedIsEnd(p, max);
      SeesState(p, f);
      LastByte(a, f, max);
      OneByteRun(p, '\n', max);
    } else {
      var b := a.(nread := p.nread + 1);
      NameStates(p.(nread := p.nread + 1), '\r');
      QuietByte(p, '\r', b, max);
      SeesState(p, f);
      LastByte(b, f, max);
      TwoBytes(p, '\r', '\n', max);
      SameDecision(b, p, f);
      assert [] + EndReport(Decide(p, f)) == EndReport(Decide(p, f));
    }
  }

  lemma SeesState(p: Parser, f: Frame)
    ensures forall s: State, n: nat :: Sees(p.(state := s, nread := n), f) == Sees(p, f)
    ensures forall s: State :: Sees(p.(state := s), f) == Sees(p, f)
  {}

  /** A line feed in front of a header is the end of the blank line. */
  lemma FeedIsEnd(p: Parser, max: nat)
    requires p.state.HeaderFieldStart? && p.nread < max
    ensures StepByte(p, '\n', max) == StepByte(p.(state := HeadersAlmostDone), '\n', max)
  {
    hide StepHeadersAlmostDone, Perform, FlushAll, Dispatch;
    var q := p.(nread := p.nread + 1);
    NameStates(q, '\n');
    EndStates(q.(state := HeadersAlmostDone), '\n');
  }

  /** The header lines and the blank line behind them. */
  function HeaderText(ls: seq<Line>, e: string): string {
    Texts(ls) + e
  }

  /** Framing: whatever the list of headers, the message is refused, or its headers are handed over one by one and its
      body is framed, as their frame says. */
  lemma HeadersDecide(p: Parser, ls: seq<Line>, e: string, f: Frame, max: nat)
    requires AtLine(p) && !p.flags.trailing && Sees(p, f) && (f.length.None? ==> p.contentLength == ULLONG_MAX)
    requires AreLines(ls) && IsEol(e) && p.nread + |HeaderText(ls, e)| <= max
    ensures var r := Run(p, HeaderText(ls, e), max);
      match FrameOf(f, ls)
      case Bad(e) => r.stop == Fail(e)
      case Good(g) =>
        && Ends(p, g, r.p, r.stop)
        && (!Decide(p, g).Refuse? ==> Merge(r.events) == Report(ls) + EndReport(Decide(p, g)) && Knows(p, g, r.p))
  {
    hide Run, Merge, AreLines, FrameOf, Ends, Knows, Settled, Pending, Doomed;
    LinesRead(p, f, ls, max);
    RunAppend(p, Texts(ls), e, max);
    var r := Run(p, Texts(ls), max);
    if r.stop.Go? {
      ReadyCount(r.p);
      SettledRun(r.p, e, max);
      if FrameOf(f, ls).Good? { HeadersEnd(p, r, FrameOf(f, ls).frame, ls, e, max); }
    }
  }

  /** The blank line behind the lines read. */
  lemma HeadersEnd(p: Parser, r: Result, g: Frame, ls: seq<Line>, e: string, max: nat)
    requires Carries(p, g, r.p) && !p.flags.trailing && (g.length.None? ==> p.contentLength == ULLONG_MAX)
    requires Merge(r.events + Pending(r.p)) == Report(ls) && IsEol(e) && r.p.nread + |e| <= max
    ensures var s, d := Run(r.p, e, max), Decide(p, g);
      && Ends(p, g, s.p, s.stop)
      && (!d.Refuse? ==> Merge(r.events + s.events) == Report(ls) + EndReport(d) && Knows(p, g, s.p))
  {
    hide Run, Merge, Ends, Knows, Settled, Pending, Doomed, Decide;
    var z := Ready(r.p);
    ReadyCount(r.p);
    SettledRun(r.p, e, max);
    BlankLine(z, g, e, max);
    var d := Decide(p, g);
    SameDecision(z, p, g);
    if !d.Refuse? {
      MergeApart(r.events + Pending(r.p), EndReport(d));
      EndReportMerged(d);
      assert r.events + (Pending(r.p) + EndReport(d)) == r.events + Pending(r.p) + EndReport(d);
    }
  }

  lemma EndReportMerged(d: Decision)
    ensures Merge(EndReport(d)) == EndReport(d)
  {
    var a, b := Notify(HeadersComplete), Notify(MessageComplete);
    MergeOf(a);
    MergeOne([a], b);
    assert [a] + [b] == [a, b];
  }
}
