/** The values of the headers that frame a message, with the lines that continue them. */
module HttpValues {
  import opened Basics
  import opened HttpChars
  import opened HttpTypes
  import opened HttpStep
  import opened HttpRun
  import opened HttpRelate
  import opened HttpLengths
  import opened HttpBodies
  import opened HttpHeaders
  import opened HttpLines
  import opened HttpOptions

  // ---- The value of Content-Length ----

  /** How many digits `v` begins with. */
  function Leading(v: string): (k: nat)
    ensures k <= |v| && Digits(v[..k], 10) && (k < |v| ==> !IsNum(v[k]))
  {
    if v != "" && IsNum(v[0]) then
      assert v[..1 + Leading(v[1..])] == [v[0]] + v[1..][..Leading(v[1..])];
      1 + Leading(v[1..])
    else 0
  }

  /** The announced length: a number within the bound, with spaces behind it. */
  function LengthOf(v: string): Option<nat> {
    var k := Leading(v);
    if k > 0 && Spelled(v[..k], 10) <= Largest(10) && Spaces(v[k..]) then Some(Spelled(v[..k], 10)) else None
  }

  /** The record behind a value of `Content-Length`. */
  predicate InLength(p: Parser) {
    p.state.HeaderValue? && (p.headerState.ContentLengthNum? || p.headerState.ContentLengthWs?)
  }

  lemma TailByte(p: Parser, ch: char, max: nat)
    requires InLength(p) && p.nread < max && IsHeaderChar(ch) && !IsBreak(ch)
    requires p.headerState.ContentLengthNum? ==> !IsNum(ch)
    ensures var r := StepByte(p, ch, max);
      if ch == ' ' then r.stop.Go? && r.p == p.(headerState := ContentLengthWs, nread := p.nread + 1)
      else r.stop == Fail(InvalidContentLength)
  {
    hide StepByte, MayOverflow, Shift, IsHeaderChar;
    NextValueByte(p, ch, max);
  }

  lemma {:induction false} TailRead(p: Parser, t: string, max: nat)
    requires InLength(p) && IsValue(t) && p.nread + |t| <= max
    requires p.headerState.ContentLengthNum? && t != "" ==> !IsNum(t[0])
    ensures var r := Run(p, t, max);
      if Spaces(t) then
        && r.stop.Go? && InLength(r.p)
        && r.p == p.(headerState := r.p.headerState, nread := p.nread + |t|)
        && (t != "" ==> r.p.headerState.ContentLengthWs?)
      else r.stop == Fail(InvalidContentLength)
  {
    hide StepByte, IsHeaderChar, Run, Spaces;
    EmptyRun(p, max);
    if t == "" {
      assert Spaces(t) by { NoSpaces(); }
    } else {
      var init, ch := t[..|t| - 1], t[|t| - 1];
      assert init + [ch] == t;
      TailRead(p, init, max);
      SpacesMore(init, ch);
      RunAppend(p, init, [ch], max);
      if Spaces(init) {
        var q := Run(p, init, max).p;
        OneByteRun(q, ch, max);
        TailByte(q, ch, max);
      }
    }
  }

  lemma NoSpaces()
    ensures Spaces("")
  {}

  lemma NoDigit(p: Parser, ch: char, max: nat)
    requires p.state.HeaderValueDiscardWs? && p.headerState.ContentLength? && p.nread < max && !IsBreak(ch) && !IsBlank(ch)
    requires !IsNum(ch) || p.flags.contentLength
    ensures StepByte(p, ch, max).stop == Fail(if IsNum(ch) then UnexpectedContentLength else InvalidContentLength)
  {
    hide StepByte;
    FirstValueByte(p, ch, max);
  }

  /** A stop at the first byte is a stop. */
  lemma StopsAtOnce(p: Parser, v: string, max: nat)
    requires v != "" && StepByte(p, v[0], max).stop.Fail?
    ensures Run(p, v, max).stop == StepByte(p, v[0], max).stop
  {
    hide StepByte, Run;
    OneByteRun(p, v[0], max);
    assert [v[0]] + v[1..] == v;
    RunAppend(p, [v[0]], v[1..], max);
  }

  /** Any value behind `Content-Length:` is accepted exactly when it announces a length, which is then stored. */
  lemma LengthValue(p: Parser, v: string, max: nat)
    requires BeginsValue(p, v, max) && p.headerState.ContentLength? && !p.flags.contentLength
    ensures var r := Run(p, v, max);
      match LengthOf(v)
      case None => r.stop == Fail(InvalidContentLength)
      case Some(n) => r.stop.Go? && InLength(r.p) && r.p.contentLength == n < ULLONG_MAX && SameButLength(p, r.p)
  {
    hide Run, StepByte, IsHeaderChar, Digits, Spelled, SameButLength;
    var k := Leading(v);
    if k == 0 {
      NoDigit(p, v[0], max);
      StopsAtOnce(p, v, max);
    } else {
      ContentLengthIsExact(p, v[..k], max);
      TailOf(v, k);
      RunAppend(p, v[..k], v[k..], max);
      var r := Run(p, v[..k], max);
      if Spelled(v[..k], 10) <= Largest(10) {
        TailRead(r.p, v[k..], max);
        if Spaces(v[k..]) { TailKeeps(p, r.p, Run(r.p, v[k..], max).p); }
      }
    }
  }

  lemma TailOf(v: string, k: nat)
    requires 0 < k <= |v| && IsContent(v)
    ensures v[..k] + v[k..] == v && IsValue(v[k..])
  {
    hide IsHeaderChar;
    assert v[1..][k - 1..] == v[k..];
  }

  lemma TailKeeps(p: Parser, q: Parser, r: Parser)
    requires SameButLength(p, q) && r == q.(headerState := r.headerState, nread := r.nread)
    ensures SameButLength(p, r)
  {}

  // ---- A length and the lines that continue it ----

  /** A fold without its line end and its first character. */
  function Rest(f: Fold): string { if f.text == "" then "" else f.text[1..] }

  predicate OnlySpaces(fs: seq<Fold>) {
    forall i | 0 <= i < |fs| :: Spaces(Rest(fs[i]))
  }

  /** The length that a value announces: further lines may hold spaces only, behind their first blank. */
  function LengthSeen(v: string, fs: seq<Fold>): Option<nat> {
    if OnlySpaces(fs) then LengthOf(v) else None
  }

  lemma OnlySpacesMore(fs: seq<Fold>)
    requires |fs| > 0
    ensures OnlySpaces(fs) <==> OnlySpaces(fs[..|fs| - 1]) && Spaces(Rest(fs[|fs| - 1]))
  {
    hide Spaces;
    if OnlySpaces(fs[..|fs| - 1]) && Spaces(Rest(fs[|fs| - 1])) {
      forall i | 0 <= i < |fs| ensures Spaces(Rest(fs[i])) {
        if i < |fs| - 1 { assert fs[i] == fs[..|fs| - 1][i]; }
      }
    }
  }

  lemma LengthFold(q: Parser, f: Fold, max: nat)
    requires InLength(q) && IsFold(f) && q.nread + |FoldText(f)| <= max
    ensures var r := Run(q, FoldText(f), max);
      if Spaces(Rest(f)) then r.stop.Go? && InLength(r.p) && r.p == q.(headerState := r.p.headerState, index := 0, nread := q.nread + |FoldText(f)|)
      else r.stop == Fail(InvalidContentLength)
  {
    hide Run, Spaces, IsValue;
    FoldRuns(q, f, max);
    TailRead(Resume(q, f.eol), f.text[1..], max);
  }

  /** A `Content-Length` is accepted exactly when it announces a length, which is then stored. */
  lemma {:induction false} LengthContent(p: Parser, v: string, fs: seq<Fold>, max: nat)
    requires BeginsValue(p, v, max) && AreFolds(fs) && p.nread + |v + FoldsText(fs)| <= max
    requires p.headerState.ContentLength? && !p.flags.contentLength
    ensures var r := Run(p, v + FoldsText(fs), max);
      match LengthSeen(v, fs)
      case None => r.stop == Fail(InvalidContentLength)
      case Some(n) => r.stop.Go? && InLength(r.p) && r.p.contentLength == n < ULLONG_MAX && SameButLength(p, r.p)
  {
    hide Run, BeginsValue, InLength, SameButLength, OnlySpaces, LengthOf, IsFold;
    if |fs| == 0 {
      assert v + "" == v;
      assert OnlySpaces(fs) by { NoFolds(); }
      LengthValue(p, v, max);
    } else {
      var init, f := fs[..|fs| - 1], fs[|fs| - 1];
      assert v + FoldsText(init) + FoldText(f) == v + FoldsText(fs);
      LengthContent(p, v, init, max);
      RunAppend(p, v + FoldsText(init), FoldText(f), max);
      OnlySpacesMore(fs);
      if LengthSeen(v, init).Some? {
        var q := Run(p, v + FoldsText(init), max).p;
        ContentReport(p, v, init, max);
        LengthFold(q, f, max);
        if Spaces(Rest(f)) { StillLength(p, q, Run(q, FoldText(f), max).p); }
      }
    }
  }

  lemma NoFolds()
    ensures OnlySpaces([])
  {}

  lemma StillLength(p: Parser, q: Parser, r: Parser)
    requires SameButLength(p, q) && r == q.(headerState := r.headerState, index := 0, nread := r.nread)
    ensures SameButLength(p, r)
  {}

  // ---- Lists and the lines that continue them ----

  datatype List = OfCodings | OfOptions

  /** Behind a comma that separates, and spaces. */
  predicate Awaits(k: List, v: string) {
    var cs := Codings(v);
    && |cs| > 1 && Strip(cs[|cs| - 1]) == ""
    && (if k.OfCodings? then ReadingOf(cs) else ReadingAt(cs)).Read?
  }

  /** How far a list is looked at, and whether it still is. */
  datatype Look = Look(seen: string, on: bool)

  /** A further line is looked at, without its first blank, only behind a comma that separates. */
  function Onward(k: List, w: Look, f: Fold): Look {
    if w.on && Awaits(k, w.seen) then Look(w.seen + Rest(f), true) else Look(w.seen, false)
  }

  function Looked(k: List, v: string, fs: seq<Fold>): Look {
    if |fs| == 0 then Look(v, true) else Onward(k, Looked(k, v, fs[..|fs| - 1]), fs[|fs| - 1])
  }

  /** The list is looked at to its end, and ends in `chunked`. */
  predicate ChunkedSeen(v: string, fs: seq<Fold>) {
    var w := Looked(OfCodings, v, fs);
    w.on && EndsChunked(w.seen)
  }

  /** The options of the list: an option whose line is continued counts only behind its comma. */
  predicate Wants(v: string, fs: seq<Fold>, o: Opt) {
    var w := Looked(OfOptions, v, fs);
    var cs := Codings(w.seen);
    Has(if w.on then cs else cs[..|cs| - 1], o)
  }

  /** A value that is not looked at. */
  predicate InGeneral(p: Parser) {
    p.state.HeaderValue? && p.headerState.General?
  }

  lemma GeneralByte(p: Parser, ch: char, max: nat)
    requires InGeneral(p) && p.nread < max && IsHeaderChar(ch) && !IsBreak(ch)
    ensures var r := StepByte(p, ch, max); r.stop.Go? && r.p == p.(nread := p.nread + 1)
  {
    hide StepByte, IsHeaderChar;
    NextValueByte(p, ch, max);
  }

  lemma {:induction false} GeneralMore(p: Parser, more: string, max: nat)
    requires InGeneral(p) && IsValue(more) && p.nread + |more| <= max
    ensures Run(p, more, max).stop.Go? && Run(p, more, max).p == p.(nread := p.nread + |more|)
  {
    hide StepByte, IsHeaderChar;
    if more != "" {
      var init, ch := more[..|more| - 1], more[|more| - 1];
      GeneralMore(p, init, max);
      GeneralByte(Run(p, init, max).p, ch, max);
    }
  }

  /** Behind the end of a line the list is looked at only where it awaits another element. */
  lemma OffFold(q: Parser, f: Fold, max: nat)
    requires q.state.HeaderValue? && Inside(q.headerState) && Resumed(q.headerState).General?
    requires IsFold(f) && q.nread + |FoldText(f)| <= max
    ensures var r := Run(q, FoldText(f), max);
      r.stop.Go? && r.p == q.(headerState := General, index := 0, nread := q.nread + |FoldText(f)|)
  {
    hide Run, Inside, IsValue;
    FoldRuns(q, f, max);
    GeneralMore(Resume(q, f.eol), f.text[1..], max);
  }

  // ---- Codings ----

  /** The record behind a list of codings that has been looked at as `w` says. */
  predicate InCodings(p: Parser, w: Look) {
    if w.on then w.seen != "" && InValue(p, w.seen) else InGeneral(p)
  }

  lemma CodingWhere(p: Parser, v: string)
    requires InValue(p, v) && v != ""
    ensures p.state.HeaderValue? && Inside(p.headerState)
    ensures Resumed(p.headerState) == if Awaits(OfCodings, v) then MatchingTeTokenStart else General
    ensures Awaits(OfCodings, v) ==> p.headerState.MatchingTeTokenStart? && p.index == 0
  {
    hide Codings, ReadingOf, IsChunked, BeginsChunked, StartsToken, Strip;
    FirstIsBegun(v);
  }

  /** The same message, whatever has been read of it. */
  predicate SameCodings(p: Parser, q: Parser) {
    SameMessage(p, q) && q.usesTransferEncoding == p.usesTransferEncoding
  }

  lemma CodingFold(q: Parser, w: Look, f: Fold, max: nat)
    requires InCodings(q, w) && IsFold(f) && q.nread + |FoldText(f)| <= max
    ensures var r := Run(q, FoldText(f), max);
      r.stop.Go? && r.p.nread == q.nread + |FoldText(f)| && InCodings(r.p, Onward(OfCodings, w, f)) && SameCodings(q, r.p)
  {
    hide Run, Awaits, InValue, IsValue;
    if w.on { CodingWhere(q, w.seen); }
    if w.on && Awaits(OfCodings, w.seen) {
      FoldRuns(q, f, max);
      assert InValue(Resume(q, f.eol), w.seen) by { ResumedCodings(q, w.seen, f.eol); }
      MoreOfValue(Resume(q, f.eol), w.seen, Rest(f), max);
    } else {
      OffFold(q, f, max);
    }
  }

  lemma ResumedCodings(q: Parser, v: string, e: string)
    requires InValue(q, v) && q.headerState.MatchingTeTokenStart? && q.index == 0
    ensures InValue(Resume(q, e), v)
  {
    hide Stands, Codings, ReadingOf;
  }

  lemma {:induction false} CodingContent(p: Parser, v: string, fs: seq<Fold>, max: nat)
    requires BeginsValue(p, v, max) && AreFolds(fs) && p.nread + |v + FoldsText(fs)| <= max && p.headerState.TransferEncoding?
    ensures var r := Run(p, v + FoldsText(fs), max);
      r.stop.Go? && r.p.nread == p.nread + |v + FoldsText(fs)| && InCodings(r.p, Looked(OfCodings, v, fs)) && SameCodings(p, r.p)
  {
    hide Run, IsFold, InValue, Onward, IsHeaderChar;
    if |fs| == 0 {
      assert v + "" == v;
      ValueRun(p, v, max);
      ValueReport(p, v, max);
    } else {
      var init, f := fs[..|fs| - 1], fs[|fs| - 1];
      assert v + FoldsText(init) + FoldText(f) == v + FoldsText(fs);
      CodingContent(p, v, init, max);
      hide BeginsValue, InCodings;
      RunAppend(p, v + FoldsText(init), FoldText(f), max);
      CodingFold(Run(p, v + FoldsText(init), max).p, Looked(OfCodings, v, init), f, max);
    }
  }

  /** Transfer codings: the body is taken for chunked exactly when the list is looked at to its end and ends in `chunked`. */
  lemma CodingsSeen(p: Parser, v: string, fs: seq<Fold>, max: nat)
    requires BeginsValue(p, v, max) && AreFolds(fs) && p.nread + |v + FoldsText(fs)| <= max && p.headerState.TransferEncoding?
    ensures var r := Run(p, v + FoldsText(fs), max);
      && r.stop.Go? && r.p.state.HeaderValue? && r.p.nread == p.nread + |v + FoldsText(fs)| && SameCodings(p, r.p)
      && HeaderFlag(r.p.headerState, r.p.flags) == p.flags.(chunked := p.flags.chunked || ChunkedSeen(v, fs))
  {
    hide Run, BeginsValue, InValue, EndsChunked;
    CodingContent(p, v, fs, max);
    var w, q := Looked(OfCodings, v, fs), Run(p, v + FoldsText(fs), max).p;
    hide Looked;
    if w.on { CodingsFlag(q, w.seen); }
  }

  lemma CodingsFlag(p: Parser, v: string)
    requires InValue(p, v) && v != ""
    ensures p.state.HeaderValue?
    ensures HeaderFlag(p.headerState, p.flags) == p.flags.(chunked := p.flags.chunked || EndsChunked(v))
  {
    hide Codings, ReadingOf, IsChunked, BeginsChunked, StartsToken, Strip;
    FirstIsBegun(v);
    var cs := Codings(v);
    Apart7(if |cs| == 1 then cs[0] else Strip(cs[|cs| - 1]));
  }

  // ---- Options ----

  /** The record behind a list of options that has been looked at as `w` says. */
  predicate Listed(p: Parser, f: Flags, w: Look) {
    if w.on then w.seen != "" && InOptions(p, f, w.seen) else InGeneral(p) && p.flags == Before(f, Codings(w.seen))
  }

  lemma OptionWhere(p: Parser, f: Flags, v: string)
    requires InOptions(p, f, v) && v != ""
    ensures p.state.HeaderValue? && Inside(p.headerState) && p.flags == Before(f, Codings(v))
    ensures Resumed(p.headerState) == if Awaits(OfOptions, v) then MatchingConnTokenStart else General
    ensures Awaits(OfOptions, v) ==> p.headerState.MatchingConnTokenStart? && p.index == 0
  {
    hide Codings, ReadingAt, ShapeOf, StartsToken, Strip, Before;
    FirstIsBegun(v);
    EmptyShape();
  }

  lemma OptionFold(q: Parser, g: Flags, w: Look, f: Fold, max: nat)
    requires Listed(q, g, w) && IsFold(f) && q.nread + |FoldText(f)| <= max
    ensures var r := Run(q, FoldText(f), max);
      r.stop.Go? && r.p.nread == q.nread + |FoldText(f)| && Listed(r.p, g, Onward(OfOptions, w, f)) && SameApart(q, r.p)
  {
    hide Run, Awaits, InOptions, IsValue, Before, Codings;
    if w.on { OptionWhere(q, g, w.seen); }
    if w.on && Awaits(OfOptions, w.seen) {
      FoldRuns(q, f, max);
      assert InOptions(Resume(q, f.eol), g, w.seen) by { ResumedOptions(q, g, w.seen, f.eol); }
      MoreOptions(Resume(q, f.eol), g, w.seen, Rest(f), max);
    } else {
      OffFold(q, f, max);
    }
  }

  lemma ResumedOptions(q: Parser, g: Flags, v: string, e: string)
    requires InOptions(q, g, v) && q.headerState.MatchingConnTokenStart? && q.index == 0
    ensures InOptions(Resume(q, e), g, v)
  {
    hide Shows, Codings, ReadingAt, Before;
  }

  lemma {:induction false} OptionContent(p: Parser, v: string, fs: seq<Fold>, max: nat)
    requires BeginsValue(p, v, max) && AreFolds(fs) && p.nread + |v + FoldsText(fs)| <= max && p.headerState.Connection?
    ensures var r := Run(p, v + FoldsText(fs), max);
      && r.stop.Go? && r.p.nread == p.nread + |v + FoldsText(fs)|
      && Listed(r.p, p.flags, Looked(OfOptions, v, fs)) && SameApart(p, r.p)
  {
    hide Run, IsFold, InOptions, Onward, IsHeaderChar;
    if |fs| == 0 {
      assert v + "" == v;
      OptionsRun(p, v, max);
      ValueReport(p, v, max);
    } else {
      var init, f := fs[..|fs| - 1], fs[|fs| - 1];
      assert v + FoldsText(init) + FoldText(f) == v + FoldsText(fs);
      OptionContent(p, v, init, max);
      hide BeginsValue, Listed;
      RunAppend(p, v + FoldsText(init), FoldText(f), max);
      OptionFold(Run(p, v + FoldsText(init), max).p, p.flags, Looked(OfOptions, v, init), f, max);
    }
  }

  /** Connection options: exactly the flags of the options that are seen have been set once the line is over. */
  lemma OptionsSeen(p: Parser, v: string, fs: seq<Fold>, max: nat)
    requires BeginsValue(p, v, max) && AreFolds(fs) && p.nread + |v + FoldsText(fs)| <= max && p.headerState.Connection?
    ensures var r := Run(p, v + FoldsText(fs), max);
      && r.stop.Go? && r.p.state.HeaderValue? && r.p.nread == p.nread + |v + FoldsText(fs)| && SameApart(p, r.p)
      && HeaderFlag(r.p.headerState, r.p.flags)
         == p.flags.(keepAlive := p.flags.keepAlive || Wants(v, fs, KeepAlive), close := p.flags.close || Wants(v, fs, Close),
                     connUpgrade := p.flags.connUpgrade || Wants(v, fs, Switch))
  {
    hide Run, BeginsValue, InOptions, Has, Codings, HeaderFlag;
    OptionContent(p, v, fs, max);
    var w, q := Looked(OfOptions, v, fs), Run(p, v + FoldsText(fs), max).p;
    hide Looked;
    if w.on { OptionsFlag(q, p.flags, w.seen); } else { GeneralFlag(q); }
  }

  lemma OptionsFlag(p: Parser, f: Flags, v: string)
    requires InOptions(p, f, v)
    ensures p.state.HeaderValue? && HeaderFlag(p.headerState, p.flags) == Flagged(f, Codings(v))
  {
    hide Shows, Codings, ReadingAt, Before, Flagged, HeaderFlag, OptionFlag;
    LastFlag(p, f, Codings(v));
  }

  lemma GeneralFlag(p: Parser)
    requires p.headerState.General?
    ensures HeaderFlag(p.headerState, p.flags) == p.flags
  {}

  // ---- Any other value ----

  /** Header states behind a name of which the value says nothing about the message. */
  predicate NamesNothing(h: HeaderState) {
    || h.General? || h.C? || h.CO? || h.CON? || h.MatchingConnection? || h.MatchingProxyConnection?
    || h.MatchingContentLength? || h.MatchingTransferEncoding? || h.MatchingUpgrade?
  }

  lemma OtherFirst(p: Parser, ch: char, max: nat)
    requires p.state.HeaderValueDiscardWs? && (NamesNothing(p.headerState) || p.headerState.Upgrade?)
    requires p.nread < max && !IsBreak(ch) && !IsBlank(ch)
    ensures var r := StepByte(p, ch, max);
      && r.stop.Go? && InGeneral(r.p)
      && r.p == p.(state := HeaderValue, index := 0, headerState := General, nread := p.nread + 1, flags := r.p.flags)
      && r.p.flags == p.flags.(upgrade := p.flags.upgrade || p.headerState.Upgrade?)
  {
    hide StepByte, Lower;
    FirstValueByte(p, ch, max);
  }

  /** The record behind any other header, `n` bytes further on: an `Upgrade` header sets its flag, whatever it says. */
  function Passed(p: Parser, n: nat): Parser {
    p.(state := HeaderValue, index := 0, headerState := General, nread := p.nread + n,
       flags := p.flags.(upgrade := p.flags.upgrade || p.headerState.Upgrade?))
  }

  lemma OtherValue(p: Parser, v: string, max: nat)
    requires BeginsValue(p, v, max) && (NamesNothing(p.headerState) || p.headerState.Upgrade?)
    ensures Run(p, v, max).stop.Go? && Run(p, v, max).p == Passed(p, |v|)
  {
    hide StepByte, Run, IsHeaderChar, NamesNothing;
    OtherFirst(p, v[0], max);
    OneByteRun(p, v[0], max);
    assert [v[0]] + v[1..] == v;
    RunAppend(p, [v[0]], v[1..], max);
    GeneralMore(Passed(p, 1), v[1..], max);
  }

  lemma {:induction false} OtherContent(p: Parser, v: string, fs: seq<Fold>, max: nat)
    requires BeginsValue(p, v, max) && AreFolds(fs) && p.nread + |v + FoldsText(fs)| <= max
    requires NamesNothing(p.headerState) || p.headerState.Upgrade?
    ensures Run(p, v + FoldsText(fs), max).stop.Go? && Run(p, v + FoldsText(fs), max).p == Passed(p, |v + FoldsText(fs)|)
  {
    hide Run, IsFold, BeginsValue, NamesNothing;
    if |fs| == 0 {
      assert v + "" == v;
      OtherValue(p, v, max);
    } else {
      var init, f := fs[..|fs| - 1], fs[|fs| - 1];
      assert v + FoldsText(init) + FoldText(f) == v + FoldsText(fs);
      OtherContent(p, v, init, max);
      RunAppend(p, v + FoldsText(init), FoldText(f), max);
      OffFold(Passed(p, |v + FoldsText(init)|), f, max);
    }
  }
}
