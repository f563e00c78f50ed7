/** One header line: what it is read as, what it reports, and what it does to the framing of the message. */
module HttpLines {
  import opened Basics
  import opened HttpChars
  import opened HttpTypes
  import opened HttpStep
  import opened HttpRun
  import opened HttpRelate
  import opened HttpLengths
  import opened HttpBodies
  import opened HttpHeaders
  import HttpExecute
  import HttpFragments

  /** The end of a line. */
  predicate IsEol(e: string) { e == CRLF || e == LF }

  const LF := "\n"

  /** A line that continues the value of the line in front of it, with the end of that line. */
  datatype Fold = Fold(eol: string, text: string)

  /** A header line as it is sent: the gap stands between the colon and the value, which may be empty and may be continued on
      further lines. */
  datatype Line = Line(name: string, gap: string, value: string, folds: seq<Fold>, eol: string)

  predicate IsBlank(ch: char) { ch == ' ' || ch == '\t' }

  /** White space, in which new lines may begin. */
  predicate IsGap(s: string) {
    || s == ""
    || (IsBlank(s[0]) && IsGap(s[1..]))
    || (|s| > 2 && s[..2] == CRLF && IsBlank(s[2]) && IsGap(s[3..]))
    || (|s| > 1 && s[..1] == LF && IsBlank(s[1]) && IsGap(s[2..]))
  }

  predicate IsFold(f: Fold) {
    IsEol(f.eol) && f.text != "" && IsBlank(f.text[0]) && IsValue(f.text)
  }

  predicate AreFolds(fs: seq<Fold>) {
    forall i | 0 <= i < |fs| :: IsFold(fs[i])
  }

  predicate IsLine(l: Line) {
    && l.name != "" && IsName(l.name) && IsGap(l.gap)
    && IsContent(l.value) && (l.value != "" ==> !IsBlank(l.value[0]))
    && AreFolds(l.folds) && (l.value == "" ==> l.folds == []) && IsEol(l.eol)
  }

  function FoldText(f: Fold): string { f.eol + f.text }

  function FoldsText(fs: seq<Fold>): string {
    if |fs| == 0 then "" else FoldsText(fs[..|fs| - 1]) + FoldText(fs[|fs| - 1])
  }

  /** The folds without the line ends. */
  function Joined(fs: seq<Fold>): string {
    if |fs| == 0 then "" else Joined(fs[..|fs| - 1]) + fs[|fs| - 1].text
  }

  /** The value and the lines that continue it, as they are sent. */
  function Content(l: Line): string {
    l.value + FoldsText(l.folds)
  }

  function Text(l: Line): string {
    l.name + ":" + (l.gap + (Content(l) + l.eol))
  }

  /** The two callbacks of a line, once neighbouring data are joined. */
  function LineReport(l: Line): seq<Event> {
    [Data(Field, l.name), Data(Value, l.value + Joined(l.folds))]
  }

  // ---- Bytes of names and values ----

  /** Record and stop of a single byte, whatever it reports. */
  lemma ByteRecord(p: Parser, ch: char, max: nat)
    requires !(ParsingHeader(p.state) && p.nread + 1 > max)
    ensures var o := Dispatch(if ParsingHeader(p.state) then p.(nread := p.nread + 1) else p, ch);
      StepByte(p, ch, max).p == o.p && StepByte(p, ch, max).stop == o.stop
  {
    hide Dispatch, Perform, FlushAll;
  }

  /** A byte of marked text is handed over at the end of its buffer. */
  lemma TextByte(p: Parser, ch: char, q: Parser, k: DataKind, acts: seq<Act>, max: nat)
    requires p.nread < max && ParsingHeader(p.state)
    requires (EntryMark(p.state) == On(k) && acts == []) || (EntryMark(p.state).NoMark? && acts == [SetMark(k)])
    requires Dispatch(p.(nread := p.nread + 1), ch) == Ok(q, acts)
    ensures StepByte(p, ch, max) == Result(q, [Data(k, [ch])], Go)
  {
    hide Dispatch, Perform, FlushAll;
    if acts == [] { PerformNone(MarksOf(On(k), 0), [ch], 0); } else { PerformOne(SetMark(k), map[], [ch], 0); }
    FlushAllPiece(On(k), 0, [ch]);
    assert [ch][0..1] == [ch];
    var none: seq<Event> := [];
    assert none + [Data(k, [ch])] == [Data(k, [ch])];
  }

  lemma PerformNone(marks: Marks, data: string, pos: nat)
    requires pos < |data| && MarksBefore(marks, pos)
    ensures Perform([], marks, data, pos) == (marks, [])
  {}

  /** The byte behind marked text: in a buffer of its own it finds nothing in front of it. */
  lemma FlushByte(p: Parser, ch: char, q: Parser, k: DataKind, max: nat)
    requires p.nread < max && ParsingHeader(p.state) && EntryMark(p.state) == On(k)
    requires Dispatch(p.(nread := p.nread + 1), ch) == Ok(q, [Flush(k)])
    ensures StepByte(p, ch, max) == Result(q, [Data(k, "")], Go)
  {
    hide Dispatch, Perform;
    PerformOne(Flush(k), MarksOf(On(k), 0), [ch], 0);
    FlushAllPiece(NoMark, 0, [ch]);
    assert [ch][0..0] == "" && map[k := 0] - {k} == map[];
    assert [Data(k, "")] + [] == [Data(k, "")];
  }

  /** Joining keeps pace with one more byte of the same text, or with none. */
  lemma TextGrows(es: seq<Event>, k: DataKind, init: string, more: string)
    requires Merge(es) == if init == "" then [] else [Data(k, init)]
    ensures Merge(es + [Data(k, more)]) == [Data(k, init + more)]
  {
    MergeOne(es, Data(k, more));
    assert "" + more == more;
  }

  lemma OneByteRun(q: Parser, ch: char, max: nat)
    ensures Run(q, [ch], max) == StepByte(q, ch, max)
  {
    hide StepByte;
    assert [ch][..0] == "";
    assert Run(q, "", max) == Result(q, [], Go);
    var es := StepByte(q, ch, max).events;
    assert [] + es == es;
  }

  /** Two bytes that report nothing. */
  lemma QuietTwo(p: Parser, a: char, b: char, q: Parser, r: Parser, max: nat)
    requires StepByte(p, a, max) == Result(q, [], Go) && StepByte(q, b, max) == Result(r, [], Go)
    ensures Run(p, [a, b], max) == Result(r, [], Go)
  {
    hide StepByte, Run;
    TwoBytes(p, a, b, max);
    var none: seq<Event> := [];
    assert none + none == none;
  }

  /** Two stretches that report nothing. */
  lemma QuietAppend(p: Parser, x: string, y: string, q: Parser, r: Parser, max: nat)
    requires Run(p, x, max) == Result(q, [], Go) && Run(q, y, max) == Result(r, [], Go)
    ensures Run(p, x + y, max) == Result(r, [], Go)
  {
    hide Run;
    RunAppend(p, x, y, max);
    var none: seq<Event> := [];
    assert none + none == none;
  }

  // ---- The name ----

  lemma NameByte(p: Parser, low: string, ch: char, max: nat)
    requires p.nread < max && Token(ch) != '\0'
    requires p.state.HeaderFieldStart? || InName(p, low)
    ensures StepByte(p, ch, max).stop.Go? && StepByte(p, ch, max).events == [Data(Field, [ch])]
  {
    hide Dispatch, StepByte, Token, Named, FieldStep;
    var q := p.(nread := p.nread + 1);
    NameStates(q, ch);
    TokenOf(ch);
    if p.state.HeaderFieldStart? {
      TextByte(p, ch, Dispatch(q, ch).p, Field, [SetMark(Field)], max);
    } else {
      FieldState(p, low);
      TextByte(p, ch, Dispatch(q, ch).p, Field, [], max);
    }
  }

  lemma FieldState(p: Parser, low: string)
    requires InName(p, low)
    ensures IsFieldState(p.headerState)
  {
    hide Unknown, Begins;
  }

  lemma {:induction false} NameReport(p: Parser, w: string, max: nat)
    requires p.state.HeaderFieldStart? && w != "" && IsName(w) && p.nread + |w| <= max
    ensures Merge(Run(p, w, max).events) == [Data(Field, w)]
  {
    hide StepByte, Token, InName, Merge;
    var init, ch := w[..|w| - 1], w[|w| - 1];
    assert init + [ch] == w;
    if |w| == 1 {
      assert init == "" && Run(p, init, max) == Result(p, [], Go);
      MergeNothing();
      NameByte(p, "", ch, max);
    } else {
      NameReport(p, init, max);
      NameRecognised(p, init, max);
      NameByte(Run(p, init, max).p, Folded(init), ch, max);
    }
    TextGrows(Run(p, init, max).events, Field, init, [ch]);
  }

  /** The name is handed over whole at the colon. */
  lemma NameAndColon(p: Parser, w: string, max: nat)
    requires p.state.HeaderFieldStart? && w != "" && IsName(w) && p.nread + |w| + 1 <= max
    ensures Merge(Run(p, w + ":", max).events) == [Data(Field, w)]
  {
    hide StepByte, Dispatch, Run, Merge, Token, Named;
    NameRecognised(p, w, max);
    NameReport(p, w, max);
    var r := Run(p, w, max);
    var q := r.p.(nread := r.p.nread + 1);
    NameStates(q, ':');
    ColonIsNoToken();
    FlushByte(r.p, ':', q.(state := HeaderValueDiscardWs), Field, max);
    RunSnoc(p, w, ':', max);
    assert w + [':'] == w + ":";
    TextGrows(r.events, Field, w, "");
    assert w + "" == w;
  }

  lemma ColonIsNoToken()
    ensures Token(':') == '\0'
  {}

  // ---- The gap ----

  lemma BlankByte(p: Parser, ch: char, max: nat)
    requires p.state.HeaderValueDiscardWs? && IsBlank(ch) && p.nread < max
    ensures StepByte(p, ch, max) == Result(p.(nread := p.nread + 1), [], Go)
  {
    hide StepByte, Dispatch;
    ValueStates(p.(nread := p.nread + 1), ch);
    QuietByte(p, ch, p.(nread := p.nread + 1), max);
  }

  lemma NewLineByte(p: Parser, ch: char, max: nat)
    requires p.state.HeaderValueDiscardLws? && IsBlank(ch) && p.nread < max
    ensures StepByte(p, ch, max) == Result(p.(state := HeaderValueDiscardWs, nread := p.nread + 1), [], Go)
  {
    hide StepByte, Dispatch;
    BareStates(p.(nread := p.nread + 1), ch);
    QuietByte(p, ch, p.(state := HeaderValueDiscardWs, nread := p.nread + 1), max);
  }

  /** A new line and a blank. */
  lemma NewLineSkipped(p: Parser, e: string, ch: char, max: nat)
    requires p.state.HeaderValueDiscardWs? && IsEol(e) && IsBlank(ch) && p.nread + |e| + 1 <= max
    ensures Run(p, e + [ch], max) == Result(p.(nread := p.nread + |e| + 1), [], Go)
  {
    hide StepByte, Run;
    BareEnds(p, e, max);
    var q := p.(state := HeaderValueDiscardLws, nread := p.nread + |e|);
    NewLineByte(q, ch, max);
    OneByteRun(q, ch, max);
    RunAppend(p, e, [ch], max);
    var none: seq<Event> := [];
    assert none + none == none;
  }

  /** A new line, a blank, and the rest of a gap. */
  lemma NewLineThen(p: Parser, e: string, ch: char, rest: string, max: nat)
    requires p.state.HeaderValueDiscardWs? && IsEol(e) && IsBlank(ch) && p.nread + |e| + 1 + |rest| <= max
    requires Run(p.(nread := p.nread + |e| + 1), rest, max) == Result(p.(nread := p.nread + |e| + 1 + |rest|), [], Go)
    ensures Run(p, e + [ch] + rest, max) == Result(p.(nread := p.nread + |e| + 1 + |rest|), [], Go)
  {
    hide Run;
    NewLineSkipped(p, e, ch, max);
    RunAppend(p, e + [ch], rest, max);
    var none: seq<Event> := [];
    assert none + none == none;
  }

  /** The gap between colon and value is passed over. */
  lemma {:induction false} GapSkipped(p: Parser, gap: string, max: nat)
    requires p.state.HeaderValueDiscardWs? && IsGap(gap) && p.nread + |gap| <= max
    ensures Run(p, gap, max) == Result(p.(nread := p.nread + |gap|), [], Go)
    decreases |gap|
  {
    hide StepByte, Run;
    var none: seq<Event> := [];
    assert none + none == none;
    if gap == "" {
      EmptyRun(p, max);
    } else if IsBlank(gap[0]) && IsGap(gap[1..]) {
      assert [gap[0]] + gap[1..] == gap;
      BlankByte(p, gap[0], max);
      OneByteRun(p, gap[0], max);
      GapSkipped(p.(nread := p.nread + 1), gap[1..], max);
      RunAppend(p, [gap[0]], gap[1..], max);
    } else {
      var n := if |gap| > 2 && gap[..2] == CRLF && IsBlank(gap[2]) && IsGap(gap[3..]) then 2 else 1;
      assert gap[..n] + [gap[n]] + gap[n + 1..] == gap;
      GapSkipped(p.(nread := p.nread + n + 1), gap[n + 1..], max);
      NewLineThen(p, gap[..n], gap[n], gap[n + 1..], max);
    }
  }

  // ---- The value ----

  /** The header states inside a value. */
  predicate Inside(h: HeaderState) {
    !(h.Upgrade? || h.TransferEncoding? || h.ContentLength? || h.Connection?)
  }

  /** The first byte of a value begins the text, or the parser stops. */
  lemma FirstValueByte(p: Parser, ch: char, max: nat)
    requires p.state.HeaderValueDiscardWs? && p.nread < max && !IsBreak(ch) && !IsBlank(ch)
    ensures var o, r := StepValueStart(p.(nread := p.nread + 1), ch), StepByte(p, ch, max);
      && r.stop == o.stop && r.p == o.p
      && (r.stop.Go? ==> r.p.state.HeaderValue? && r.p.nread == p.nread + 1 && r.events == [Data(Value, [ch])])
      && (r.stop.Go? ==> Inside(r.p.headerState))
  {
    hide StepByte, Dispatch, StepValueStart, Inside;
    var q := p.(nread := p.nread + 1);
    ValueStates(q, ch);
    ByteRecord(p, ch, max);
    ValueStartActs(q, ch);
    if StepValueStart(q, ch).stop.Go? { TextByte(p, ch, StepValueStart(q, ch).p, Value, [SetMark(Value)], max); }
  }

  lemma ValueStartActs(p: Parser, ch: char)
    ensures var o := StepValueStart(p, ch);
      && o.acts == [SetMark(Value)] && o.p.state.HeaderValue? && o.p.nread == p.nread && !o.stop.Exit?
      && (o.stop.Go? ==> Inside(o.p.headerState))
  {
    hide Lower;
    match p.headerState
    case Upgrade => case TransferEncoding => case ContentLength => case Connection => case _ =>
  }

  /** A byte of a value continues the text, or the parser stops. */
  lemma NextValueByte(p: Parser, ch: char, max: nat)
    requires p.state.HeaderValue? && p.nread < max && !IsBreak(ch)
    ensures var o, r := ValueChar(p.(nread := p.nread + 1), ch), StepByte(p, ch, max);
      && r.stop == o.stop && r.p == o.p
      && (r.stop.Go? ==> r.p.state.HeaderValue? && r.p.nread == p.nread + 1 && r.events == [Data(Value, [ch])])
      && (r.stop.Go? && Inside(p.headerState) ==> Inside(r.p.headerState))
  {
    hide StepByte, Dispatch, ValueChar, Inside;
    var q := p.(nread := p.nread + 1);
    ValueStates(q, ch);
    ByteRecord(p, ch, max);
    HttpExecute.ValueCharCount(q, q.nread, ch);
    ValueCharInside(q, ch);
    if ValueChar(q, ch).stop.Go? { TextByte(p, ch, ValueChar(q, ch).p, Value, [], max); }
  }

  lemma ValueCharInside(p: Parser, ch: char)
    ensures ValueChar(p, ch).stop.Go? && Inside(p.headerState) ==> Inside(ValueChar(p, ch).p.headerState)
  {
    hide IsHeaderChar, Lower, Token, OptionFlag, Shift, MayOverflow, MatchName;
    MatchedNames();
    if InTe(p.headerState) {
      match p.headerState case MatchingTeTokenStart => case MatchingTeChunked => case MatchingTeToken => case TeChunked => case _ =>
    } else if InConn(p.headerState) {
      match p.headerState case MatchingConnTokenStart => case MatchingConnKeepAlive => case MatchingConnClose =>
      case MatchingConnUpgrade => case MatchingConnToken => case ConnKeepAlive => case ConnClose => case ConnUpgrade =>
      case _ =>
    }
  }

  lemma MatchedNames()
    ensures forall name, i: nat, c, a, b, d :: Inside(a) && Inside(b) && Inside(d) ==> Inside(MatchName(name, i, c, a, b, d))
  {}

  predicate BeginsValue(p: Parser, v: string, max: nat) {
    p.state.HeaderValueDiscardWs? && v != "" && IsContent(v) && !IsBlank(v[0]) && p.nread + |v| <= max
  }

  /** The text `v` has been read from `p` as a value. */
  predicate Delivers(p: Parser, r: Result, v: string, n: nat) {
    r.p.state.HeaderValue? && Inside(r.p.headerState) && r.p.nread == p.nread + n && Merge(r.events) == [Data(Value, v)]
  }

  /** A value that is not refused is handed over whole. */
  lemma {:induction false} ValueReport(p: Parser, v: string, max: nat)
    requires BeginsValue(p, v, max) && Run(p, v, max).stop.Go?
    ensures Delivers(p, Run(p, v, max), v, |v|)
  {
    hide StepByte, Merge, IsHeaderChar, StepValueStart, ValueChar, Inside;
    var init, ch := v[..|v| - 1], v[|v| - 1];
    assert init + [ch] == v;
    if |v| == 1 {
      assert init == "" && Run(p, init, max) == Result(p, [], Go);
      MergeNothing();
      FirstValueByte(p, ch, max);
    } else {
      ContentInit(v);
      ValueReport(p, init, max);
      NextValueByte(Run(p, init, max).p, ch, max);
    }
    TextGrows(Run(p, init, max).events, Value, init, [ch]);
  }

  /** More of a value. */
  lemma {:induction false} MoreReport(p: Parser, v: string, more: string, es: seq<Event>, max: nat)
    requires p.state.HeaderValue? && Inside(p.headerState) && IsValue(more) && p.nread + |more| <= max
    requires Merge(es) == [Data(Value, v)] && Run(p, more, max).stop.Go?
    ensures Delivers(p, Run(p, more, max).(events := es + Run(p, more, max).events), v + more, |more|)
  {
    hide StepByte, Merge, IsHeaderChar, ValueChar, Inside;
    if more == "" {
      assert es + [] == es && v + more == v;
    } else {
      var init, ch := more[..|more| - 1], more[|more| - 1];
      MoreReport(p, v, init, es, max);
      var r := Run(p, init, max);
      NextValueByte(r.p, ch, max);
      MergeOne(es + r.events, Data(Value, [ch]));
      assert es + (r.events + [Data(Value, [ch])]) == es + r.events + [Data(Value, [ch])];
      assert v + init + [ch] == v + more;
    }
  }

  // ---- Lines that continue it ----

  /** What a value goes on as on the next line: within a list, behind a comma, or within the spaces behind a length; otherwise
      the rest is not looked at. */
  function Resumed(h: HeaderState): HeaderState {
    match h
    case ContentLengthNum => ContentLengthWs
    case ContentLengthWs => ContentLengthWs
    case MatchingTeTokenStart => MatchingTeTokenStart
    case MatchingConnTokenStart => MatchingConnTokenStart
    case _ => General
  }

  /** The record behind the end `e` of a line and the blank that continues it. */
  function Resume(q: Parser, e: string): Parser {
    q.(headerState := Resumed(q.headerState), index := 0, nread := q.nread + |e| + 1)
  }

  lemma ResumeByte(q: Parser, ch: char, max: nat)
    requires q.state.HeaderValueLws? && Inside(q.headerState) && IsBlank(ch) && q.nread < max
    ensures StepByte(q, ch, max)
      == Result(q.(state := HeaderValue, headerState := Resumed(q.headerState), index := 0, nread := q.nread + 1),
                [Data(Value, [ch])], Go)
  {
    hide StepByte, Dispatch, Lower;
    var a := q.(nread := q.nread + 1);
    EndStates(a, ch);
    TextByte(q, ch, a.(state := HeaderValue, headerState := Resumed(q.headerState), index := 0), Value, [SetMark(Value)], max);
  }

  lemma Resumes(q: Parser, e: string, ch: char, max: nat)
    requires q.state.HeaderValue? && Inside(q.headerState) && IsEol(e) && IsBlank(ch) && q.nread + |e| + 1 <= max
    ensures Run(q, e + [ch], max) == Result(Resume(q, e), [Data(Value, ""), Data(Value, [ch])], Go)
    ensures Inside(Resume(q, e).headerState)
  {
    hide StepByte, Run;
    LineEnds(q, e, max);
    var a := q.(state := HeaderValueLws, nread := q.nread + |e|);
    ResumeByte(a, ch, max);
    OneByteRun(a, ch, max);
    RunAppend(q, e, [ch], max);
    assert [Data(Value, "")] + [Data(Value, [ch])] == [Data(Value, ""), Data(Value, [ch])];
  }

  /** What a fold comes to: its first blank, then the rest of it. */
  lemma FoldRuns(q: Parser, f: Fold, max: nat)
    requires q.state.HeaderValue? && Inside(q.headerState) && IsFold(f) && q.nread + |FoldText(f)| <= max
    ensures var r, s := Run(q, FoldText(f), max), Run(Resume(q, f.eol), f.text[1..], max);
      r.stop == s.stop && r.p == s.p && r.events == [Data(Value, ""), Data(Value, [f.text[0]])] + s.events
    ensures Inside(Resume(q, f.eol).headerState) && IsValue(f.text[1..])
  {
    hide StepByte, Run, IsHeaderChar, Inside, IsEol;
    Resumes(q, f.eol, f.text[0], max);
    RunAppend(q, f.eol + [f.text[0]], f.text[1..], max);
    assert f.eol + [f.text[0]] + f.text[1..] == FoldText(f);
  }

  /** A value goes on with a fold. */
  lemma FoldReport(p: Parser, r: Result, v: string, n: nat, f: Fold, max: nat)
    requires Delivers(p, r, v, n) && IsFold(f) && p.nread + n + |FoldText(f)| <= max && Run(r.p, FoldText(f), max).stop.Go?
    ensures var s := Run(r.p, FoldText(f), max);
      Delivers(p, s.(events := r.events + s.events), v + f.text, n + |FoldText(f)|)
  {
    hide Run, Merge, Inside, Resume, IsEol;
    FoldRuns(r.p, f, max);
    var q, t := Resume(r.p, f.eol), f.text;
    var s := Run(q, t[1..], max);
    var a, b := Data(Value, ""), Data(Value, [t[0]]);
    MergeOne(r.events, a);
    MergeOne(r.events + [a], b);
    assert v + "" == v && v + [t[0]] + t[1..] == v + t;
    ResumeCount(r.p, f.eol);
    MoreReport(q, v + [t[0]], t[1..], r.events + [a] + [b], max);
    assert r.events + ([a, b] + s.events) == r.events + [a] + [b] + s.events;
  }

  lemma ResumeCount(q: Parser, e: string)
    ensures Resume(q, e).nread == q.nread + |e| + 1 && Resume(q, e).state == q.state
  {}

  /** A value and the lines that continue it. */
  lemma {:induction false} ContentReport(p: Parser, v: string, fs: seq<Fold>, max: nat)
    requires BeginsValue(p, v, max) && AreFolds(fs) && p.nread + |v + FoldsText(fs)| <= max
    requires Run(p, v + FoldsText(fs), max).stop.Go?
    ensures Delivers(p, Run(p, v + FoldsText(fs), max), v + Joined(fs), |v + FoldsText(fs)|)
  {
    hide Run, BeginsValue, Delivers, IsFold, FoldText;
    if |fs| == 0 {
      assert v + "" == v;
      ValueReport(p, v, max);
    } else {
      var init, f := fs[..|fs| - 1], fs[|fs| - 1];
      assert v + FoldsText(init) + FoldText(f) == v + FoldsText(fs);
      RunAppend(p, v + FoldsText(init), FoldText(f), max);
      ContentReport(p, v, init, max);
      FoldReport(p, Run(p, v + FoldsText(init), max), v + Joined(init), |v + FoldsText(init)|, f, max);
      assert v + Joined(init) + f.text == v + Joined(fs);
    }
  }

  // ---- The end of the line ----

  lemma EndStates(p: Parser, ch: char)
    ensures p.state.HeaderValue? ==> Dispatch(p, ch) == StepHeaderValue(p, ch)
    ensures p.state.HeaderAlmostDone? ==> Dispatch(p, ch) == StepHeaderAlmostDone(p, ch)
    ensures p.state.HeaderValueLws? ==> Dispatch(p, ch) == StepValueLws(p, ch)
    ensures p.state.HeadersAlmostDone? ==> Dispatch(p, ch) == StepHeadersAlmostDone(p, ch)
  {
    hide StepHeaderValue, StepHeaderAlmostDone, StepValueLws, StepHeadersAlmostDone;
  }

  lemma LineEnds(q: Parser, e: string, max: nat)
    requires q.state.HeaderValue? && IsEol(e) && q.nread + |e| <= max
    ensures Run(q, e, max) == Result(q.(state := HeaderValueLws, nread := q.nread + |e|), [Data(Value, "")], Go)
  {
    hide Dispatch, StepByte;
    if e == LF { FeedEnds(q, max); } else { ReturnEnds(q, max); }
  }

  lemma ReturnEnds(q: Parser, max: nat)
    requires q.state.HeaderValue? && q.nread + 2 <= max
    ensures Run(q, CRLF, max) == Result(q.(state := HeaderValueLws, nread := q.nread + 2), [Data(Value, "")], Go)
  {
    hide Dispatch, StepByte;
    var a := q.(state := HeaderAlmostDone, nread := q.nread + 1);
    EndStates(q.(nread := q.nread + 1), '\r');
    FlushByte(q, '\r', a, Value, max);
    EndStates(a.(nread := a.nread + 1), '\n');
    QuietByte(a, '\n', a.(state := HeaderValueLws, nread := a.nread + 1), max);
    TwoBytes(q, '\r', '\n', max);
    assert [Data(Value, "")] + [] == [Data(Value, "")];
  }

  lemma FeedEnds(q: Parser, max: nat)
    requires q.state.HeaderValue? && q.nread + 1 <= max
    ensures Run(q, LF, max) == Result(q.(state := HeaderValueLws, nread := q.nread + 1), [Data(Value, "")], Go)
  {
    hide Dispatch, StepByte, Run;
    var a := q.(nread := q.nread + 1);
    EndStates(a, '\n');
    assert [Flush(Value)] + [] == [Flush(Value)];
    FlushByte(q, '\n', a.(state := HeaderValueLws), Value, max);
    OneByteRun(q, '\n', max);
  }

  // ---- The whole line ----

  /** The record in front of the value. */
  function BeforeValue(p: Parser, l: Line, max: nat): Parser {
    var q := Run(p, l.name + ":", max).p;
    q.(nread := q.nread + |l.gap|)
  }

  lemma TwoTexts(es: seq<Event>, fs: seq<Event>, w: string, v: string)
    requires Merge(es) == [Data(Field, w)] && Merge(fs) == [Data(Value, v)]
    ensures Merge(es + fs) == [Data(Field, w), Data(Value, v)]
  {
    hide Merge;
    MergeOf(Data(Field, w));
    MergeOf(Data(Value, v));
    HttpFragments.MergeCongruence(es, [Data(Field, w)], fs, [Data(Value, v)]);
    MergeOne([Data(Field, w)], Data(Value, v));
    assert [Data(Field, w)] + [Data(Value, v)] == [Data(Field, w), Data(Value, v)];
  }

  lemma MergeOf(e: Event)
    ensures Merge([e]) == [e]
  {
    MergeNothing();
    MergeOne([], e);
    assert [] + [e] == [e];
  }

  /** A line is read as its name and its value say: it is refused with its value, or it is handed over and the record
      stands behind it. */
  lemma LineRuns(p: Parser, l: Line, max: nat)
    requires p.state.HeaderFieldStart? && IsLine(l) && l.value != "" && p.nread + |Text(l)| <= max
    ensures BeginsValue(BeforeValue(p, l, max), l.value, max)
    ensures BeforeValue(p, l, max).nread + |Content(l)| <= max
    ensures var r, v := Run(p, Text(l), max), Run(BeforeValue(p, l, max), Content(l), max);
      if v.stop.Go? then
        && r.stop.Go? && v.p.state.HeaderValue? && r.p == v.p.(state := HeaderValueLws, nread := p.nread + |Text(l)|)
        && Merge(r.events) == LineReport(l)
      else r.stop == v.stop
  {
    hide Run, Merge, IsName, IsContent, IsGap, BeginsValue, Content, IsFold, IsEol, AreFolds;
    NamedReady(p, l, max);
    var q, b := Run(p, l.name + ":", max).p, BeforeValue(p, l, max);
    GapSkipped(q, l.gap, max);
    RunAppend(p, l.name + ":", l.gap + (Content(l) + l.eol), max);
    RunAppend(q, l.gap, Content(l) + l.eol, max);
    ContentEnds(b, l, max);
    if Run(b, Content(l), max).stop.Go? {
      var es := Run(b, Content(l) + l.eol, max).events;
      NameAndColon(p, l.name, max);
      TwoTexts(Run(p, l.name + ":", max).events, es, l.name, l.value + Joined(l.folds));
      assert [] + es == es;
    }
  }

  /** The value, the lines that continue it, and the end of the last. */
  lemma ContentEnds(b: Parser, l: Line, max: nat)
    requires BeginsValue(b, l.value, max) && AreFolds(l.folds) && IsEol(l.eol) && b.nread + |Content(l)| + |l.eol| <= max
    ensures var v, r := Run(b, Content(l), max), Run(b, Content(l) + l.eol, max);
      if v.stop.Go? then
        && r.stop.Go? && v.p.state.HeaderValue?
        && r.p == v.p.(state := HeaderValueLws, nread := b.nread + |Content(l)| + |l.eol|)
        && Merge(r.events) == [Data(Value, l.value + Joined(l.folds))]
      else r.stop == v.stop
  {
    hide Run, Merge, BeginsValue, Content, Inside, IsEol, AreFolds;
    RunAppend(b, Content(l), l.eol, max);
    var v := Run(b, Content(l), max);
    if v.stop.Go? {
      var w := l.value + Joined(l.folds);
      ContentDelivered(b, l, max);
      LineEnds(v.p, l.eol, max);
      MergeOne(v.events, Data(Value, ""));
      assert w + "" == w;
    }
  }

  lemma ContentDelivered(b: Parser, l: Line, max: nat)
    requires BeginsValue(b, l.value, max) && AreFolds(l.folds) && b.nread + |Content(l)| <= max
    requires Run(b, Content(l), max).stop.Go?
    ensures Delivers(b, Run(b, Content(l), max), l.value + Joined(l.folds), |Content(l)|)
  {
    hide Run, BeginsValue, Delivers, IsFold;
    ContentReport(b, l.value, l.folds, max);
  }

  lemma NamedReady(p: Parser, l: Line, max: nat)
    requires p.state.HeaderFieldStart? && IsLine(l) && p.nread + |Text(l)| <= max
    ensures Run(p, l.name + ":", max).stop.Go? && Run(p, l.name + ":", max).p.state.HeaderValueDiscardWs?
    ensures Run(p, l.name + ":", max).p.nread == p.nread + |l.name| + 1
    ensures l.value != "" ==> BeginsValue(BeforeValue(p, l, max), l.value, max)
  {
    hide Run, IsName, IsContent, IsGap, Named;
    HeaderRecognised(p, l.name, max);
  }

  lemma BareEnds(q: Parser, e: string, max: nat)
    requires q.state.HeaderValueDiscardWs? && IsEol(e) && q.nread + |e| <= max
    ensures Run(q, e, max) == Result(q.(state := HeaderValueDiscardLws, nread := q.nread + |e|), [], Go)
  {
    hide Dispatch, StepByte;
    if e == LF { BareFeed(q, max); } else { BareReturn(q, max); }
  }

  lemma BareReturn(q: Parser, max: nat)
    requires q.state.HeaderValueDiscardWs? && q.nread + 2 <= max
    ensures Run(q, CRLF, max) == Result(q.(state := HeaderValueDiscardLws, nread := q.nread + 2), [], Go)
  {
    hide Dispatch, StepByte;
    var a := q.(state := HeaderValueDiscardWsAlmostDone, nread := q.nread + 1);
    BareStates(q.(nread := q.nread + 1), '\r');
    QuietByte(q, '\r', a, max);
    BareStates(a.(nread := a.nread + 1), '\n');
    QuietByte(a, '\n', a.(state := HeaderValueDiscardLws, nread := a.nread + 1), max);
    TwoBytes(q, '\r', '\n', max);
    var none: seq<Event> := [];
    assert none + none == none;
  }

  lemma BareFeed(q: Parser, max: nat)
    requires q.state.HeaderValueDiscardWs? && q.nread + 1 <= max
    ensures Run(q, LF, max) == Result(q.(state := HeaderValueDiscardLws, nread := q.nread + 1), [], Go)
  {
    hide Dispatch, StepByte, Run;
    BareStates(q.(nread := q.nread + 1), '\n');
    QuietByte(q, '\n', q.(state := HeaderValueDiscardLws, nread := q.nread + 1), max);
    OneByteRun(q, '\n', max);
  }

  lemma BareStates(p: Parser, ch: char)
    ensures p.state.HeaderValueDiscardWs? ==> Dispatch(p, ch) == StepDiscardWs(p, ch)
    ensures p.state.HeaderValueDiscardWsAlmostDone? ==> Dispatch(p, ch) == Expect(p, ch, '\n', HeaderValueDiscardLws, Strict)
    ensures p.state.HeaderValueDiscardLws? ==> Dispatch(p, ch) == StepDiscardLws(p, ch)
  {
    hide StepDiscardWs, StepDiscardLws, Expect;
  }

  /** A line without a value: the name is handed over; the empty value will be with the next byte. */
  lemma BareLineRuns(p: Parser, l: Line, max: nat)
    requires p.state.HeaderFieldStart? && IsLine(l) && l.value == "" && p.nread + |Text(l)| <= max
    ensures var r := Run(p, Text(l), max);
      && r.stop.Go? && r.p == BeforeValue(p, l, max).(state := HeaderValueDiscardLws, nread := p.nread + |Text(l)|)
      && Merge(r.events) == [Data(Field, l.name)]
  {
    hide Run, Merge, IsName, IsContent, IsGap;
    NamedReady(p, l, max);
    var q, b := Run(p, l.name + ":", max).p, BeforeValue(p, l, max);
    GapSkipped(q, l.gap, max);
    assert FoldsText([]) == "" && Content(l) + l.eol == l.eol;
    RunAppend(p, l.name + ":", l.gap + (Content(l) + l.eol), max);
    RunAppend(q, l.gap, Content(l) + l.eol, max);
    BareEnds(b, l.eol, max);
    NameAndColon(p, l.name, max);
    var es := Run(p, l.name + ":", max).events;
    var none: seq<Event> := [];
    assert none + none == none && es + none == es;
  }
}
