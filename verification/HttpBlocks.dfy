/** What is read as headers is a list of header lines and a blank line, whatever the bytes were. */
module HttpBlocks {
  import opened Basics
  import opened HttpChars
  import opened HttpTypes
  import opened HttpStep
  import opened HttpRun
  import opened HttpRelate
  import opened HttpLengths
  import opened HttpBodies
  import opened HttpHeaders
  import opened HttpLines
  import opened HttpFraming
  import HttpExecute

  /** Header lines of which the last may not be over. */
  datatype Partial =
    | Over(ls: seq<Line>)
    | NamePart(ls: seq<Line>, name: string)
    | GapPart(ls: seq<Line>, name: string, gap: string, cr: bool)
    | ValuePart(ls: seq<Line>, name: string, gap: string, value: string, folds: seq<Fold>, cr: bool)
    | BlankPart(ls: seq<Line>)

  function Return(cr: bool): string { if cr then "\r" else "" }

  /** What has been read of the line that is not over. */
  function Rest(t: Partial): string {
    match t
    case Over(_) => ""
    case NamePart(_, name) => name
    case GapPart(_, name, gap, cr) => name + ":" + gap + Return(cr)
    case ValuePart(_, name, gap, value, folds, cr) => name + ":" + gap + (value + FoldsText(folds)) + Return(cr)
    case BlankPart(_) => "\r"
  }

  function Shown(t: Partial): string { Texts(t.ls) + Rest(t) }

  predicate IsPartial(t: Partial) {
    && AreLines(t.ls)
    && match t
       case Over(_) => true
       case NamePart(_, name) => name != "" && IsName(name)
       case GapPart(_, name, gap, _) => name != "" && IsName(name) && IsGap(gap)
       case ValuePart(_, name, gap, value, folds, _) =>
         name != "" && IsName(name) && IsGap(gap) && value != "" && IsContent(value) && !IsBlank(value[0]) && AreFolds(folds)
       case BlankPart(_) => true
  }

  /** The state of a record that has read so far. */
  function StateAt(t: Partial): State {
    match t
    case Over(ls) =>
      if |ls| == 0 then HeaderFieldStart else if ls[|ls| - 1].value == "" then HeaderValueDiscardLws else HeaderValueLws
    case NamePart(_, _) => HeaderField
    case GapPart(_, _, _, cr) => if cr then HeaderValueDiscardWsAlmostDone else HeaderValueDiscardWs
    case ValuePart(_, _, _, _, _, cr) => if cr then HeaderAlmostDone else HeaderValue
    case BlankPart(_) => HeadersAlmostDone
  }

  /** The line feed that ends the blank line. */
  predicate IsLast(t: Partial, ch: char) {
    ch == '\n' && (t.Over? || t.BlankPart?)
  }

  function Longer(fs: seq<Fold>, ch: char): seq<Fold>
    requires |fs| > 0
  {
    fs[..|fs| - 1] + [fs[|fs| - 1].(text := fs[|fs| - 1].text + [ch])]
  }

  /** One more byte. */
  function Grow(t: Partial, ch: char): Partial {
    match t
    case Over(ls) =>
      if |ls| > 0 && IsBlank(ch) then
        var init, l := ls[..|ls| - 1], ls[|ls| - 1];
        if l.value == "" then GapPart(init, l.name, l.gap + l.eol + [ch], false)
        else ValuePart(init, l.name, l.gap, l.value, l.folds + [Fold(l.eol, [ch])], false)
      else if ch == '\r' then BlankPart(ls) else NamePart(ls, [ch])
    case NamePart(ls, name) => if ch == ':' then GapPart(ls, name, "", false) else NamePart(ls, name + [ch])
    case GapPart(ls, name, gap, cr) =>
      if cr then Over(ls + [Line(name, gap, "", [], CRLF)])
      else if ch == '\r' then GapPart(ls, name, gap, true)
      else if ch == '\n' then Over(ls + [Line(name, gap, "", [], LF)])
      else if IsBlank(ch) then GapPart(ls, name, gap + [ch], false)
      else ValuePart(ls, name, gap, [ch], [], false)
    case ValuePart(ls, name, gap, value, folds, cr) =>
      if cr then Over(ls + [Line(name, gap, value, folds, CRLF)])
      else if ch == '\r' then ValuePart(ls, name, gap, value, folds, true)
      else if ch == '\n' then Over(ls + [Line(name, gap, value, folds, LF)])
      else if |folds| == 0 then ValuePart(ls, name, gap, value + [ch], folds, false)
      else ValuePart(ls, name, gap, value, Longer(folds, ch), false)
    case BlankPart(ls) => t
  }

  // ---- What is shown ----

  lemma LinesMore(ls: seq<Line>, l: Line)
    ensures Texts(ls + [l]) == Texts(ls) + Text(l)
    ensures AreLines(ls) && IsLine(l) ==> AreLines(ls + [l])
  {
    assert (ls + [l])[..|ls + [l]| - 1] == ls;
    hide IsLine;
  }

  lemma LastLine(ls: seq<Line>)
    requires |ls| > 0 && AreLines(ls)
    ensures AreLines(ls[..|ls| - 1]) && IsLine(ls[|ls| - 1])
    ensures Texts(ls) == Texts(ls[..|ls| - 1]) + Text(ls[|ls| - 1])
  {
    hide IsLine;
  }

  lemma LongerFold(f: Fold, ch: char)
    requires IsFold(f) && IsHeaderChar(ch) && !IsBreak(ch)
    ensures IsFold(f.(text := f.text + [ch]))
  {
    hide IsHeaderChar;
  }

  lemma FoldMore(fs: seq<Fold>, f: Fold)
    ensures FoldsText(fs + [f]) == FoldsText(fs) + FoldText(f)
    ensures AreFolds(fs) && IsFold(f) ==> AreFolds(fs + [f])
  {
    assert (fs + [f])[..|fs + [f]| - 1] == fs;
    hide IsFold;
  }

  lemma LongerText(fs: seq<Fold>, ch: char)
    requires |fs| > 0
    requires AreFolds(fs) && IsHeaderChar(ch) && !IsBreak(ch)
    ensures FoldsText(Longer(fs, ch)) == FoldsText(fs) + [ch] && AreFolds(Longer(fs, ch))
  {
    hide FoldsText, IsFold, IsHeaderChar, AreFolds;
    var init, f := fs[..|fs| - 1], fs[|fs| - 1];
    assert init + [f] == fs;
    FoldsApart(fs);
    LongerFold(f, ch);
    FoldMore(init, f);
    FoldMore(init, f.(text := f.text + [ch]));
    OneLonger(FoldsText(init), f, ch);
  }

  lemma FoldsApart(fs: seq<Fold>)
    requires |fs| > 0 && AreFolds(fs)
    ensures AreFolds(fs[..|fs| - 1]) && IsFold(fs[|fs| - 1])
  {
    hide IsFold;
  }

  lemma OneLonger(x: string, f: Fold, ch: char)
    ensures x + FoldText(f.(text := f.text + [ch])) == x + FoldText(f) + [ch]
  {
    assert f.eol + (f.text + [ch]) == f.eol + f.text + [ch];
  }

  lemma {:induction false} GapMore(gap: string, ch: char)
    requires IsGap(gap) && IsBlank(ch)
    ensures IsGap(gap + [ch])
    decreases |gap|
  {
    var g := gap + [ch];
    if gap == "" {
      assert g[1..] == "";
    } else if IsBlank(gap[0]) && IsGap(gap[1..]) {
      assert g[1..] == gap[1..] + [ch];
      GapMore(gap[1..], ch);
    } else {
      var n := if |gap| > 2 && gap[..2] == CRLF && IsBlank(gap[2]) && IsGap(gap[3..]) then 2 else 1;
      assert g[..n] == gap[..n] && g[n] == gap[n] && g[n + 1..] == gap[n + 1..] + [ch];
      GapMore(gap[n + 1..], ch);
    }
  }

  /** A new line within a gap. */
  lemma {:induction false} GapNewLine(gap: string, e: string, ch: char)
    requires IsGap(gap) && IsEol(e) && IsBlank(ch)
    ensures IsGap(gap + e + [ch])
    decreases |gap|
  {
    var g := gap + e + [ch];
    if gap == "" {
      assert g == e + [ch] && g[..|e|] == e && g[|e|] == ch && g[|e| + 1..] == "";
    } else if IsBlank(gap[0]) && IsGap(gap[1..]) {
      assert g[1..] == gap[1..] + e + [ch];
      GapNewLine(gap[1..], e, ch);
    } else {
      var n := if |gap| > 2 && gap[..2] == CRLF && IsBlank(gap[2]) && IsGap(gap[3..]) then 2 else 1;
      assert g[..n] == gap[..n] && g[n] == gap[n] && g[n + 1..] == gap[n + 1..] + e + [ch];
      GapNewLine(gap[n + 1..], e, ch);
    }
  }

  // ---- One byte ----

  /** What the byte must be where only some are taken. */
  predicate Fits(t: Partial, ch: char) {
    match t
    case Over(ls) => (|ls| > 0 && IsBlank(ch)) || ch == '\r' || Token(ch) != '\0'
    case NamePart(_, _) => Token(ch) != '\0' || ch == ':'
    case GapPart(_, _, _, cr) => cr ==> ch == '\n'
    case ValuePart(_, _, _, _, _, cr) => if cr then ch == '\n' else IsBreak(ch) || IsHeaderChar(ch)
    case BlankPart(_) => false
  }

  lemma ColonApart()
    ensures Token(':') == '\0' && Token('\r') == Token('\n') == Token(' ') == Token('\t') == '\0'
  {}

  /** The line that is over is continued: its value begins only now, or goes on. */
  lemma BareContinued(init: seq<Line>, l: Line, ch: char)
    requires AreLines(init) && IsLine(l) && IsBlank(ch) && l.value == ""
    ensures var t := GapPart(init, l.name, l.gap + l.eol + [ch], false);
      IsPartial(t) && Shown(t) == Texts(init) + Text(l) + [ch]
  {
    hide IsName, IsEol, AreLines, Texts;
    GapNewLine(l.gap, l.eol, ch);
    assert FoldsText(l.folds) == "" && Content(l) == "" && "" + l.eol == l.eol;
    var x, y := l.name + ":", Texts(init);
    assert x + (l.gap + l.eol + [ch]) + "" == x + (l.gap + l.eol) + [ch];
    assert y + (x + (l.gap + l.eol) + [ch]) == y + (x + (l.gap + l.eol)) + [ch];
  }

  lemma ValueContinued(init: seq<Line>, l: Line, ch: char)
    requires AreLines(init) && IsLine(l) && IsBlank(ch) && l.value != ""
    ensures var t := ValuePart(init, l.name, l.gap, l.value, l.folds + [Fold(l.eol, [ch])], false);
      IsPartial(t) && Shown(t) == Texts(init) + Text(l) + [ch]
  {
    hide IsName, IsEol, AreLines, Texts, IsGap, IsValue, FoldsText, AreFolds, IsFold;
    BlankFold(l.eol, ch);
    FoldMore(l.folds, Fold(l.eol, [ch]));
    var v, x, y := l.value + FoldsText(l.folds), l.name + ":", Texts(init);
    assert l.value + (FoldsText(l.folds) + (l.eol + [ch])) == v + (l.eol + [ch]);
    assert x + l.gap + (v + (l.eol + [ch])) + "" == x + (l.gap + (v + l.eol)) + [ch];
    assert y + (x + (l.gap + (v + l.eol)) + [ch]) == y + (x + (l.gap + (v + l.eol))) + [ch];
  }

  lemma Continued(ls: seq<Line>, ch: char)
    requires |ls| > 0 && AreLines(ls) && IsBlank(ch)
    ensures var t := Grow(Over(ls), ch); IsPartial(t) && Shown(t) == Texts(ls) + [ch]
  {
    hide IsPartial, Shown, Texts, IsLine, AreLines;
    var init, l := ls[..|ls| - 1], ls[|ls| - 1];
    LastLine(ls);
    if l.value == "" { BareContinued(init, l, ch); } else { ValueContinued(init, l, ch); }
  }

  lemma BlankFold(e: string, ch: char)
    requires IsEol(e) && IsBlank(ch)
    ensures IsFold(Fold(e, [ch]))
  {}

  lemma FinishGap(ls: seq<Line>, name: string, gap: string, e: string)
    requires AreLines(ls) && name != "" && IsName(name) && IsGap(gap) && IsEol(e)
    ensures var l := Line(name, gap, "", [], e);
      AreLines(ls + [l]) && Texts(ls + [l]) == Texts(ls) + (name + ":" + gap + e)
  {
    var l := Line(name, gap, "", [], e);
    LinesMore(ls, l);
    assert FoldsText([]) == "" && Content(l) == "" && "" + e == e;
    assert name + ":" + (gap + e) == name + ":" + gap + e;
  }

  lemma FinishValue(ls: seq<Line>, name: string, gap: string, value: string, folds: seq<Fold>, e: string)
    requires AreLines(ls) && name != "" && IsName(name) && IsGap(gap) && IsEol(e)
    requires value != "" && IsContent(value) && !IsBlank(value[0]) && AreFolds(folds)
    ensures var l := Line(name, gap, value, folds, e);
      AreLines(ls + [l]) && Texts(ls + [l]) == Texts(ls) + (name + ":" + gap + (value + FoldsText(folds)) + e)
  {
    hide IsName, IsGap, IsValue, AreFolds;
    var l := Line(name, gap, value, folds, e);
    LinesMore(ls, l);
    assert name + ":" + (gap + (value + FoldsText(folds) + e)) == name + ":" + gap + (value + FoldsText(folds)) + e;
  }

  lemma GrowGap(t: Partial, ch: char)
    requires t.GapPart? && IsPartial(t) && Fits(t, ch)
    ensures IsPartial(Grow(t, ch)) && Shown(Grow(t, ch)) == Shown(t) + [ch]
  {
    hide IsName, Texts, IsGap, AreLines, IsHeaderChar;
    var x, y := t.name + ":" + t.gap, Texts(t.ls);
    assert x + "" == x && y + (x + [ch]) == y + x + [ch];
    if t.cr {
      FinishGap(t.ls, t.name, t.gap, CRLF);
      assert "\r" + "\n" == CRLF && x + "\r" + [ch] == x + CRLF && y + (x + CRLF) + "" == y + (x + "\r") + [ch];
    } else if ch == '\n' {
      FinishGap(t.ls, t.name, t.gap, LF);
      assert [ch] == LF && y + (x + LF) + "" == y + x + [ch];
    } else if ch == '\r' {
      assert [ch] == "\r";
    } else if IsBlank(ch) {
      GapMore(t.gap, ch);
      assert t.name + ":" + (t.gap + [ch]) + "" == x + [ch];
    } else {
      assert FoldsText([]) == "" && x + ([ch] + "") + "" == x + [ch];
    }
  }

  lemma GrowValue(t: Partial, ch: char)
    requires t.ValuePart? && IsPartial(t) && Fits(t, ch)
    ensures IsPartial(Grow(t, ch)) && Shown(Grow(t, ch)) == Shown(t) + [ch]
  {
    hide IsName, Texts, IsGap, AreLines, IsHeaderChar, AreFolds, FoldsText;
    var v, y := t.value + FoldsText(t.folds), Texts(t.ls);
    var x := t.name + ":" + t.gap + v;
    assert x + "" == x && y + (x + [ch]) == y + x + [ch];
    if t.cr {
      FinishValue(t.ls, t.name, t.gap, t.value, t.folds, CRLF);
      assert "\r" + "\n" == CRLF && x + "\r" + [ch] == x + CRLF && y + (x + CRLF) + "" == y + (x + "\r") + [ch];
    } else if ch == '\n' {
      FinishValue(t.ls, t.name, t.gap, t.value, t.folds, LF);
      assert [ch] == LF && y + (x + LF) + "" == y + x + [ch];
    } else if ch == '\r' {
      assert [ch] == "\r";
    } else if |t.folds| == 0 {
      NoFolds(t.folds);
      assert t.name + ":" + t.gap + (t.value + [ch] + "") + "" == x + [ch];
    } else {
      LongerText(t.folds, ch);
      assert t.name + ":" + t.gap + (t.value + (FoldsText(t.folds) + [ch])) + "" == x + [ch];
    }
  }

  lemma NoFolds(fs: seq<Fold>)
    ensures |fs| == 0 ==> FoldsText(fs) == ""
  {}

  /** One more byte is one more byte of the text. */
  lemma GrowText(t: Partial, ch: char)
    requires IsPartial(t) && Fits(t, ch)
    ensures IsPartial(Grow(t, ch)) && Shown(Grow(t, ch)) == Shown(t) + [ch]
  {
    match t
    case Over(ls) =>
      if |ls| > 0 && IsBlank(ch) {
        Continued(ls, ch);
        assert Texts(ls) + "" == Texts(ls);
      } else {
        assert Texts(ls) + "" == Texts(ls) && [ch] == if ch == '\r' then "\r" else [ch];
      }
    case NamePart(ls, name) =>
      var y := Texts(ls);
      assert name + ":" + "" + "" == name + [':'] && y + (name + [ch]) == y + name + [ch];
    case GapPart(_, _, _, _) => GrowGap(t, ch);
    case ValuePart(_, _, _, _, _, _) => GrowValue(t, ch);
  }

  // ---- The record keeps pace ----

  /** The handler of a byte takes the record from what has been read to what has been read with it. */
  predicate Follows(o: Out, p: Parser, t: Partial, ch: char) {
    !o.stop.Fail? ==>
      o.stop.Go? && Fits(t, ch) && o.p.state == StateAt(Grow(t, ch)) && o.p.nread == p.nread
  }

  lemma LineStartFollows(p: Parser, ls: seq<Line>, ch: char)
    requires ch != '\n' && !(|ls| > 0 && IsBlank(ch))
    ensures Follows(StepHeaderFieldStart(p, ch), p, Over(ls), ch)
  {
    hide StepHeadersAlmostDone;
  }

  lemma OverFollows(p: Parser, ls: seq<Line>, ch: char)
    requires p.state == StateAt(Over(ls)) && ch != '\n'
    ensures Follows(Dispatch(p, ch), p, Over(ls), ch)
  {
    hide Dispatch, StepHeaderFieldStart, StepValueStart;
    NameStates(p, ch);
    EndStates(p, ch);
    BareStates(p, ch);
    if |ls| > 0 {
      if IsBlank(ch) {
        ValueStartActs(p.(headerState := if p.headerState.ContentLengthNum? then ContentLengthWs else p.headerState,
                          state := HeaderValueStart), ch);
      } else {
        LineStartFollows(p.(flags := HeaderFlag(p.headerState, p.flags), state := HeaderFieldStart), ls, ch);
      }
    } else {
      LineStartFollows(p, ls, ch);
    }
  }

  lemma NameFollows(p: Parser, t: Partial, ch: char)
    requires t.NamePart? && p.state == StateAt(t)
    ensures Follows(Dispatch(p, ch), p, t, ch)
  {
    hide Dispatch, FieldStep;
    NameStates(p, ch);
    ColonApart();
    hide Token;
    FieldCounts(p, ch);
  }

  lemma FieldCounts(p: Parser, ch: char)
    ensures FieldStep(p, ch).state == p.state && FieldStep(p, ch).nread == p.nread
  {}

  lemma GapFollows(p: Parser, t: Partial, ch: char)
    requires t.GapPart? && p.state == StateAt(t)
    ensures Follows(Dispatch(p, ch), p, t, ch)
  {
    hide Dispatch, StepValueStart;
    BareStates(p, ch);
    ValueStartActs(p, ch);
  }

  lemma ValueFollows(p: Parser, t: Partial, ch: char)
    requires t.ValuePart? && t.value != "" && p.state == StateAt(t)
    ensures Follows(Dispatch(p, ch), p, t, ch)
  {
    hide Dispatch, ValueChar;
    EndStates(p, ch);
    HttpExecute.ValueCharCount(p, p.nread, ch);
    ValueCharTakes(p, ch);
  }

  lemma ValueCharTakes(p: Parser, ch: char)
    ensures !ValueChar(p, ch).stop.Fail? ==> IsHeaderChar(ch)
  {
    hide TeChar, ConnChar, PlainValueChar, IsHeaderChar;
  }

  lemma DispatchFollows(p: Parser, t: Partial, ch: char)
    requires IsPartial(t) && p.state == StateAt(t) && !IsLast(t, ch)
    ensures Follows(Dispatch(p, ch), p, t, ch)
  {
    hide Dispatch, Follows;
    match t
    case Over(ls) => OverFollows(p, ls, ch);
    case NamePart(_, _) => NameFollows(p, t, ch);
    case GapPart(_, _, _, _) => GapFollows(p, t, ch);
    case ValuePart(_, _, _, _, _, _) => ValueFollows(p, t, ch);
    case BlankPart(_) => BlankFollows(p, t, ch);
  }

  /** Behind a carriage return only the line feed is taken. */
  lemma BlankFollows(p: Parser, t: Partial, ch: char)
    requires p.state.HeadersAlmostDone? && ch != '\n'
    ensures Follows(Dispatch(p, ch), p, t, ch)
  {
    hide Dispatch;
    EndStates(p, ch);
    hide Fits, Grow, StateAt;
  }

  // ---- Whole runs ----

  datatype Found = Part(t: Partial) | Block(ls: seq<Line>, e: string)

  /** What `t`, read from `p`, turns out to be: headers that are not over, or headers and more. */
  ghost predicate Finds(p: Parser, t: string, f: Found, max: nat) {
    match f
    case Part(x) =>
      && IsPartial(x) && Shown(x) == t && (t != "" ==> p.nread + |t| <= max)
      && var r := Run(p, t, max); r.stop.Go? && r.p.state == StateAt(x) && r.p.nread == p.nread + |t|
    case Block(ls, e) => AreLines(ls) && IsEol(e) && HeaderText(ls, e) <= t && p.nread + |HeaderText(ls, e)| <= max
  }

  lemma StateInHeader(t: Partial)
    ensures ParsingHeader(StateAt(t))
  {}

  /** One more byte of headers that are not over. */
  lemma FindMore(p: Parser, t: string, x: Partial, ch: char, max: nat) returns (f: Found)
    requires Finds(p, t, Part(x), max) && !StepByte(Run(p, t, max).p, ch, max).stop.Fail?
    ensures Finds(p, t + [ch], f, max)
  {
    hide StepByte, Run, IsPartial, Shown, Dispatch, StateAt, Grow, Fits;
    var q := Run(p, t, max).p;
    StateInHeader(x);
    Limited(q, ch, max);
    ByteRecord(q, ch, max);
    RunSnoc(p, t, ch, max);
    if IsLast(x, ch) {
      f := Block(x.ls, if x.Over? then LF else CRLF);
      BlockEnds(x, ch);
    } else {
      f := Part(Grow(x, ch));
      DispatchFollows(q.(nread := q.nread + 1), x, ch);
      GrowText(x, ch);
    }
  }

  lemma Limited(q: Parser, ch: char, max: nat)
    requires ParsingHeader(q.state) && !StepByte(q, ch, max).stop.Fail?
    ensures q.nread + 1 <= max
  {
    hide Dispatch, Perform;
  }

  lemma BlockEnds(x: Partial, ch: char)
    requires IsPartial(x) && IsLast(x, ch)
    ensures AreLines(x.ls) && HeaderText(x.ls, if x.Over? then LF else CRLF) == Shown(x) + [ch]
  {
    hide AreLines;
    assert Texts(x.ls) + "\r" + "\n" == Texts(x.ls) + CRLF && Texts(x.ls) + "" + "\n" == Texts(x.ls) + LF;
  }

  /** Whatever is read from a record that waits for headers is the beginning of a list of header lines, or begins with one and
      its blank line. */
  lemma {:induction false} HeadersFound(p: Parser, t: string, max: nat) returns (f: Found)
    requires p.state.HeaderFieldStart? && !Run(p, t, max).stop.Fail?
    ensures Finds(p, t, f, max)
  {
    hide StepByte, IsPartial, Shown, HeaderText;
    if t == "" {
      f := Part(Over([]));
      NothingShown();
    } else {
      var init, ch := t[..|t| - 1], t[|t| - 1];
      assert init + [ch] == t;
      var g := HeadersFound(p, init, max);
      if g.Part? { f := FindMore(p, init, g.t, ch, max); } else { f := g; }
    }
  }

  lemma NothingShown()
    ensures IsPartial(Over([])) && Shown(Over([])) == ""
  {}
}
