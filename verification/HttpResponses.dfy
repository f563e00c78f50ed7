/** The status line. */
module HttpResponses {
  import opened Basics
  import opened HttpChars
  import opened HttpTypes
  import opened HttpStep
  import opened HttpRun
  import opened HttpRelate
  import opened HttpLengths
  import opened HttpBodies
  import opened HttpHeaders
  import opened HttpLines
  import opened HttpVersions

  /** The reason phrase: anything within the line. */
  predicate IsPhrase(s: string) {
    forall i | 0 <= i < |s| :: !IsBreak(s[i])
  }

  /** A status line: `sp` stands in front of the code, and the phrase with the space in front of it may be missing. */
  function StatusLine(a: char, b: char, sp: string, ds: string, phrase: Option<string>, e: string): string {
    HTTP_WORD + ([a, '.'] + [b] + (" " + sp)) + (ds + (TailOf(phrase) + e))
  }

  function TailOf(phrase: Option<string>): string {
    match phrase case None => "" case Some(s) => " " + s
  }

  function Phrase(phrase: Option<string>): string {
    match phrase case None => "" case Some(s) => s
  }

  // ---- Fixed letters ----

  lemma StartHandler(p: Parser, ch: char)
    ensures p.state.StartRes? ==> Dispatch(p, ch) == StepStartRes(p, ch)
  {
    hide StepStartRes;
  }

  lemma CodeHandlers(p: Parser, ch: char)
    ensures p.state.ResFirstStatusCode? ==> Dispatch(p, ch) == StepFirstStatusCode(p, ch)
    ensures p.state.ResStatusCode? ==> Dispatch(p, ch) == StepStatusCode(p, ch)
    ensures p.state.ResStatusStart? ==> Dispatch(p, ch) == StepStatusStart(p, ch)
    ensures p.state.ResStatus? ==> Dispatch(p, ch) == StepStatus(p, ch)
  {
    hide StepFirstStatusCode, StepStatusCode, StepStatusStart, StepStatus;
  }

  /** The record of a new message. */
  function Fresh(p: Parser): Parser {
    StartMessage(p).(state := ResH, nread := p.nread + 1)
  }

  lemma FirstByte(p: Parser, max: nat)
    requires p.state.StartRes? && p.nread < max
    ensures StepByte(p, 'H', max) == Result(Fresh(p), [Notify(MessageBegin)], Go)
  {
    hide Dispatch, StepByte;
    StartHandler(p.(nread := p.nread + 1), 'H');
    CallByte(p, 'H', Ok(Fresh(p), [Call(MessageBegin)]), MessageBegin, max);
  }

  lemma WordRead(p: Parser, max: nat)
    requires p.state.StartRes? && p.nread + 5 <= max
    ensures Run(p, HTTP_WORD, max)
      == Result(Fresh(p).(state := ResHttpMajor, nread := p.nread + 5), [Notify(MessageBegin)], Go)
  {
    hide StepByte, Run, Walks;
    WordsWalk();
    FirstByte(p, max);
    OneByteRun(p, 'H', max);
    WalkRun(Fresh(p), "TTP/", max);
    RunAppend(p, ['H'], "TTP/", max);
    assert ['H'] + "TTP/" == HTTP_WORD;
    assert [Notify(MessageBegin)] + [] == [Notify(MessageBegin)];
  }

  lemma VersionAndSpaces(p: Parser, a: char, b: char, sp: string, max: nat)
    requires p.state.ResHttpMajor? && p.nread + 4 + |sp| <= max && IsNum(a) && IsNum(b) && Spaces(sp)
    ensures Run(p, [a, '.'] + [b] + (" " + sp), max)
      == Result(p.(httpMajor := Digit(a), httpMinor := Digit(b), state := ResFirstStatusCode, nread := p.nread + 4 + |sp|), [], Go)
  {
    hide StepByte, Run, Spaces, Walks;
    var y := p.(httpMajor := Digit(a), httpMinor := Digit(b), state := ResHttpEnd, nread := p.nread + 3);
    var z := y.(state := ResFirstStatusCode, nread := p.nread + 4);
    VersionRead(p, a, b, max);
    WalkByte(y, ' ', max);
    OneByteRun(y, ' ', max);
    SpacesWalk(ResFirstStatusCode, sp);
    WalkRun(z, sp, max);
    QuietAppend(y, " ", sp, z, z.(nread := p.nread + 4 + |sp|), max);
    QuietAppend(p, [a, '.'] + [b], " " + sp, y, z.(nread := p.nread + 4 + |sp|), max);
  }

  // ---- The code ----

  lemma FirstDigit(p: Parser, ch: char, max: nat)
    requires p.state.ResFirstStatusCode? && IsNum(ch) && p.nread < max
    ensures StepByte(p, ch, max) == Result(p.(statusCode := Digit(ch), state := ResStatusCode, nread := p.nread + 1), [], Go)
  {
    hide Dispatch, StepByte;
    CodeHandlers(p.(nread := p.nread + 1), ch);
    QuietByte(p, ch, p.(statusCode := Digit(ch), state := ResStatusCode, nread := p.nread + 1), max);
  }

  lemma NextDigit(p: Parser, ch: char, max: nat)
    requires p.state.ResStatusCode? && IsNum(ch) && p.nread < max
    ensures var code := p.statusCode * 10 + Digit(ch);
      if code > 999 then StepByte(p, ch, max).stop == Fail(InvalidStatus)
      else StepByte(p, ch, max) == Result(p.(statusCode := code, nread := p.nread + 1), [], Go)
  {
    hide Dispatch, StepByte;
    var q := p.(nread := p.nread + 1);
    CodeHandlers(q, ch);
    ByteRecord(p, ch, max);
    if p.statusCode * 10 + Digit(ch) <= 999 {
      QuietByte(p, ch, p.(statusCode := p.statusCode * 10 + Digit(ch), nread := p.nread + 1), max);
    }
  }

  lemma DigitValue(ch: char)
    ensures 0 <= Unhex(ch) < 10 ==> IsNum(ch) && Digit(ch) == Unhex(ch)
  {}

  /** The status code is accepted exactly when it is at most 999, and stored. */
  lemma {:induction false} CodeRead(p: Parser, ds: string, max: nat)
    requires p.state.ResFirstStatusCode? && ds != "" && Digits(ds, 10) && p.nread + |ds| <= max
    ensures var r, n := Run(p, ds, max), Spelled(ds, 10);
      if n > 999 then r.stop == Fail(InvalidStatus)
      else r == Result(p.(statusCode := n, state := ResStatusCode, nread := p.nread + |ds|), [], Go)
  {
    hide StepByte, Unhex;
    var init, ch := ds[..|ds| - 1], ds[|ds| - 1];
    DigitValue(ch);
    if |ds| == 1 {
      assert init == "" && Spelled(init, 10) == 0 && Run(p, init, max) == Result(p, [], Go);
      FirstDigit(p, ch, max);
    } else {
      CodeRead(p, init, max);
      if Spelled(init, 10) <= 999 {
        NextDigit(p.(statusCode := Spelled(init, 10), state := ResStatusCode, nread := p.nread + |init|), ch, max);
      }
    }
  }

  // ---- The phrase ----

  lemma PhraseByte(p: Parser, ch: char, max: nat)
    requires (p.state.ResStatusStart? || p.state.ResStatus?) && !IsBreak(ch) && p.nread < max
    ensures StepByte(p, ch, max)
      == Result(p.(state := ResStatus, index := if p.state.ResStatus? then p.index else 0, nread := p.nread + 1),
                [Data(DataKind.Status, [ch])], Go)
  {
    hide Dispatch, StepByte;
    var q := p.(nread := p.nread + 1);
    CodeHandlers(q, ch);
    TextByte(p, ch, q.(state := ResStatus, index := if p.state.ResStatus? then p.index else 0), DataKind.Status,
             if p.state.ResStatus? then [] else [SetMark(DataKind.Status)], max);
  }

  lemma {:induction false} PhraseRead(p: Parser, s: string, max: nat)
    requires p.state.ResStatusStart? && s != "" && IsPhrase(s) && p.nread + |s| <= max
    ensures var r := Run(p, s, max);
      && r.stop.Go? && r.p == p.(state := ResStatus, index := 0, nread := p.nread + |s|)
      && Merge(r.events) == [Data(DataKind.Status, s)]
  {
    hide StepByte, Merge;
    var init, ch := s[..|s| - 1], s[|s| - 1];
    assert init + [ch] == s;
    if |s| == 1 {
      assert init == "" && Run(p, init, max) == Result(p, [], Go);
      MergeNothing();
      PhraseByte(p, ch, max);
    } else {
      PhraseRead(p, init, max);
      PhraseByte(Run(p, init, max).p, ch, max);
    }
    TextGrows(Run(p, init, max).events, DataKind.Status, init, [ch]);
  }

  /** The end of the line behind a phrase, or behind none. */
  lemma BreakByte(p: Parser, ch: char, max: nat)
    requires (p.state.ResStatusCode? || p.state.ResStatusStart? || p.state.ResStatus?) && IsBreak(ch) && p.nread < max
    ensures StepByte(p, ch, max)
      == Result(p.(state := if ch == '\r' then ResLineAlmostDone else HeaderFieldStart,
                   index := if p.state.ResStatus? then p.index else 0, nread := p.nread + 1), [Data(DataKind.Status, "")], Go)
  {
    hide Dispatch, StepByte, Perform;
    var q := p.(nread := p.nread + 1, state := if ch == '\r' then ResLineAlmostDone else HeaderFieldStart);
    CodeHandlers(p.(nread := p.nread + 1), ch);
    if p.state.ResStatus? {
      FlushByte(p, ch, q, DataKind.Status, max);
    } else {
      MarkAndFlush(p, ch, q.(index := 0), max);
    }
  }

  lemma MarkAndFlush(p: Parser, ch: char, q: Parser, max: nat)
    requires p.nread < max && ParsingHeader(p.state) && EntryMark(p.state).NoMark?
    requires Dispatch(p.(nread := p.nread + 1), ch) == Ok(q, [SetMark(DataKind.Status), Flush(DataKind.Status)])
    ensures StepByte(p, ch, max) == Result(q, [Data(DataKind.Status, "")], Go)
  {
    hide Dispatch, Perform;
    var k := DataKind.Status;
    assert [SetMark(k), Flush(k)] == [SetMark(k)] + [Flush(k)];
    PerformCons(SetMark(k), [Flush(k)], map[], [ch], 0);
    PerformOne(Flush(k), map[k := 0], [ch], 0);
    FlushAllPiece(NoMark, 0, [ch]);
    assert [ch][0..0] == "" && map[k := 0] - {k} == map[];
    assert [] + [Data(k, "")] == [Data(k, "")] && [Data(k, "")] + [] == [Data(k, "")];
  }

  lemma LineBreak(p: Parser, e: string, max: nat)
    requires (p.state.ResStatusCode? || p.state.ResStatusStart? || p.state.ResStatus?) && IsEol(e) && p.nread + |e| <= max
    ensures var r := Run(p, e, max);
      && r.stop.Go? && r.p == p.(state := HeaderFieldStart, index := r.p.index, nread := p.nread + |e|)
      && r.events == [Data(DataKind.Status, "")]
  {
    hide StepByte, Run, Walks;
    BreakByte(p, e[0], max);
    OneByteRun(p, e[0], max);
    if e == CRLF {
      WordsWalk();
      assert ['\r'] + LF == CRLF;
      var q := StepByte(p, '\r', max).p;
      WalkRun(q, LF, max);
      RunAppend(p, ['\r'], LF, max);
      assert [Data(DataKind.Status, "")] + [] == [Data(DataKind.Status, "")];
    }
  }

  lemma SpaceByte(p: Parser, max: nat)
    requires p.state.ResStatusCode? && p.nread < max
    ensures StepByte(p, ' ', max) == Result(p.(state := ResStatusStart, nread := p.nread + 1), [], Go)
  {
    hide Dispatch, StepByte;
    CodeHandlers(p.(nread := p.nread + 1), ' ');
    QuietByte(p, ' ', p.(state := ResStatusStart, nread := p.nread + 1), max);
  }

  lemma PhraseThenBreak(p: Parser, s: string, e: string, max: nat)
    requires p.state.ResStatusStart? && IsPhrase(s) && IsEol(e) && p.nread + |s| + |e| <= max
    ensures var r := Run(p, s + e, max);
      && r.stop.Go? && r.p == p.(state := HeaderFieldStart, index := r.p.index, nread := p.nread + |s| + |e|)
      && Merge(r.events) == [Data(DataKind.Status, s)]
  {
    hide StepByte, Run, Merge;
    RunAppend(p, s, e, max);
    if s == "" {
      assert s + e == e;
      LineBreak(p, e, max);
      MergeOf(Data(DataKind.Status, ""));
    } else {
      PhraseRead(p, s, max);
      LineBreak(Run(p, s, max).p, e, max);
      TextGrows(Run(p, s, max).events, DataKind.Status, s, "");
      assert s + "" == s;
    }
  }

  lemma TailRead(p: Parser, phrase: Option<string>, e: string, max: nat)
    requires p.state.ResStatusCode? && IsPhrase(Phrase(phrase)) && IsEol(e) && p.nread + |TailOf(phrase)| + |e| <= max
    ensures var r := Run(p, TailOf(phrase) + e, max);
      && r.stop.Go? && r.p == p.(state := HeaderFieldStart, index := r.p.index, nread := p.nread + |TailOf(phrase)| + |e|)
      && Merge(r.events) == [Data(DataKind.Status, Phrase(phrase))]
  {
    hide StepByte, Run, Merge;
    match phrase
    case None =>
      assert "" + e == e;
      LineBreak(p, e, max);
      MergeOf(Data(DataKind.Status, ""));
    case Some(s) =>
      SpaceByte(p, max);
      OneByteRun(p, ' ', max);
      var q := p.(state := ResStatusStart, nread := p.nread + 1);
      PhraseThenBreak(q, s, e, max);
      RunAppend(p, " ", s + e, max);
      assert " " + s + e == " " + (s + e);
      var es := Run(q, s + e, max).events;
      assert [] + es == es;
  }

  // ---- The line ----

  /** The status line is accepted iff its code is at most 999; then the record knows version and code and waits for headers,
      and the phrase has been handed over whole, though it be empty. */
  lemma StatusLineRead(p: Parser, a: char, b: char, sp: string, ds: string, phrase: Option<string>, e: string, max: nat)
    requires p.state.StartRes? && IsNum(a) && IsNum(b) && Spaces(sp) && ds != "" && Digits(ds, 10) && IsPhrase(Phrase(phrase)) && IsEol(e)
    requires p.nread + |StatusLine(a, b, sp, ds, phrase, e)| <= max
    ensures var r, n := Run(p, StatusLine(a, b, sp, ds, phrase, e), max), Spelled(ds, 10);
      if n > 999 then r.stop == Fail(InvalidStatus)
      else
        && r.stop.Go?
        && r.p == StartMessage(p).(httpMajor := Digit(a), httpMinor := Digit(b), statusCode := n, state := HeaderFieldStart,
                                   index := r.p.index, nread := p.nread + |StatusLine(a, b, sp, ds, phrase, e)|)
        && Merge(r.events) == [Notify(MessageBegin), Data(DataKind.Status, Phrase(phrase))]
  {
    hide StepByte, Run, Merge, Spaces, Digits, Spelled, IsPhrase, TailOf, IsEol;
    var front, rest := [a, '.'] + [b] + (" " + sp), TailOf(phrase) + e;
    WordRead(p, max);
    var q := Fresh(p).(state := ResHttpMajor, nread := p.nread + 5);
    VersionAndSpaces(q, a, b, sp, max);
    var c := q.(httpMajor := Digit(a), httpMinor := Digit(b), state := ResFirstStatusCode, nread := q.nread + 4 + |sp|);
    RunAppend(p, HTTP_WORD, front, max);
    RunAppend(p, HTTP_WORD + front, ds + rest, max);
    CodeRead(c, ds, max);
    RunAppend(c, ds, rest, max);
    if Spelled(ds, 10) <= 999 {
      var d := c.(statusCode := Spelled(ds, 10), state := ResStatusCode, nread := c.nread + |ds|);
      TailRead(d, phrase, e, max);
      MergeOf(Notify(MessageBegin));
      MergeBehindSignal([Notify(MessageBegin)], Run(d, rest, max).events);
      assert [Notify(MessageBegin)] + [] == [Notify(MessageBegin)];
      assert [] + Run(d, rest, max).events == Run(d, rest, max).events;
      assert [Notify(MessageBegin)] + [Data(DataKind.Status, Phrase(phrase))]
        == [Notify(MessageBegin), Data(DataKind.Status, Phrase(phrase))];
    }
  }
}
