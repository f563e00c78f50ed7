/** The value of a `Connection` header, and of `Proxy-Connection`: which options it is read as. */
module HttpOptions {
  import opened Basics
  import opened HttpChars
  import opened HttpTypes
  import opened HttpStep
  import opened HttpRun
  import opened HttpHeaders
  import opened HttpLines

  datatype Opt = KeepAlive | Close | Switch

  function Word(o: Opt): (w: string)
    ensures 5 <= |w| <= 10
  {
    match o case KeepAlive => KEEP_ALIVE case Close => CLOSE case Switch => UPGRADE
  }

  /** The word in any case of letters, and spaces behind it. */
  predicate IsWord(t: string, w: string) {
    |t| >= |w| && LowerAll(t[..|w|]) == w && Spaces(t[|w|..])
  }

  /** Letters of the word, not yet all. */
  predicate BeginsWord(t: string, w: string) {
    0 < |t| < |w| && LowerAll(t) <= w
  }

  /** The word that the first letter selects. */
  function Selected(c: char): Option<Opt> {
    if c == 'k' then Some(KeepAlive) else if c == 'c' then Some(Close) else if c == 'u' then Some(Switch) else None
  }

  datatype Shape = NoWord | Begun(o: Opt) | Whole(o: Opt)

  /** What an option without the spaces in front of it is. */
  function ShapeOf(t: string): Shape {
    if t == "" || Selected(Lower(t[0])).None? then NoWord
    else
      var o := Selected(Lower(t[0])).value;
      if BeginsWord(t, Word(o)) then Begun(o) else if IsWord(t, Word(o)) then Whole(o) else NoWord
  }

  /** An option is `o` exactly when its shape is that. */
  lemma ShapeIsWord(t: string, o: Opt)
    ensures ShapeOf(t) == Whole(o) <==> IsWord(t, Word(o))
  {
    if IsWord(t, Word(o)) {
      assert Lower(t[0]) == LowerAll(t[..|Word(o)|])[0] == Word(o)[0];
      if BeginsWord(t, Word(o)) { assert false; }
    }
  }

  function Trimmed(first: bool, c: string): string { if first then c else Strip(c) }

  /** How the option behind `c` is read: a comma directly behind a beginning of a word does not separate. */
  function Next(first: bool, r: Reading, c: string): Reading {
    match r
    case Stuck => Stuck
    case Skipped => Read
    case Read =>
      var t := Trimmed(first, c);
      if ShapeOf(t).Begun? || (first && t == "") then Skipped else if first || StartsToken(t) then Read else Stuck
  }

  function ReadingAt(cs: seq<string>): Reading
    requires |cs| > 0
  {
    if |cs| == 1 then Read else Next(|cs| == 2, ReadingAt(cs[..|cs| - 1]), cs[|cs| - 2])
  }

  /** The last of the options is looked at, and is `o`. */
  predicate LastIs(cs: seq<string>, o: Opt)
    requires |cs| > 0
  {
    ReadingAt(cs).Read? && ShapeOf(Trimmed(|cs| == 1, cs[|cs| - 1])) == Whole(o)
  }

  /** One of the options is looked at, and is `o`. */
  predicate Has(cs: seq<string>, o: Opt) {
    |cs| > 0 && (Has(cs[..|cs| - 1], o) || LastIs(cs, o))
  }

  /** The value asks for `o`. */
  predicate Asks(v: string, o: Opt) {
    Has(Codings(v), o)
  }

  /** The flags `f` with those of the options in `cs`. */
  function Flagged(f: Flags, cs: seq<string>): Flags {
    f.(keepAlive := f.keepAlive || Has(cs, KeepAlive), close := f.close || Has(cs, Close),
       connUpgrade := f.connUpgrade || Has(cs, Switch))
  }

  function Matching(o: Opt): HeaderState {
    match o case KeepAlive => MatchingConnKeepAlive case Close => MatchingConnClose case Switch => MatchingConnUpgrade
  }

  function Found(o: Opt): HeaderState {
    match o case KeepAlive => ConnKeepAlive case Close => ConnClose case Switch => ConnUpgrade
  }

  /** What a header state says about an option `t` that is looked at. */
  predicate ShowsText(h: HeaderState, i: nat, first: bool, t: string) {
    if t == "" then h.MatchingConnTokenStart? && i == 0
    else match ShapeOf(t)
         case Begun(o) => h == Matching(o) && i == |t| - 1
         case Whole(o) => h == Found(o)
         case NoWord => if first || StartsToken(t) then h.MatchingConnToken? else h.General?
  }

  /** What a header state says about the last option `c`, of which `r` says how it is read. */
  predicate Shows(h: HeaderState, i: nat, first: bool, r: Reading, c: string) {
    match r
    case Skipped => h.MatchingConnToken?
    case Stuck => h.General?
    case Read => ShowsText(h, i, first, Trimmed(first, c))
  }

  // ---- One more character ----

  lemma WordMore(t: string, ch: char, w: string)
    requires t != "" && |w| > 1
    ensures BeginsWord(t + [ch], w) <==> BeginsWord(t, w) && |t| + 1 < |w| && Lower(ch) == w[|t|]
    ensures IsWord(t + [ch], w) <==> (IsWord(t, w) && ch == ' ') || (BeginsWord(t, w) && |t| + 1 == |w| && Lower(ch) == w[|t|])
  {
    var u := t + [ch];
    LowerMore(t, ch);
    BeginsMore(LowerAll(t), Lower(ch), w);
    hide Lower;
    if |u| == |w| {
      assert u[..|w|] == u && u[|w|..] == "";
      assert LowerAll(u) == w ==> LowerAll(u) <= w;
    } else if |u| > |w| {
      assert u[..|w|] == t[..|w|] && u[|w|..] == t[|w|..] + [ch];
      SpacesMore(t[|w|..], ch);
    }
  }

  lemma FirstLetter(ch: char)
    ensures ShapeOf([ch]) == if Selected(Lower(ch)).Some? then Begun(Selected(Lower(ch)).value) else NoWord
    ensures Selected(Lower(ch)).Some? ==> StartsToken([ch])
  {
    assert LowerAll([ch]) == [Lower(ch)];
    assert Token('k') != '\0' && Token('c') != '\0' && Token('u') != '\0';
    hide Lower, Token;
    if Selected(Lower(ch)).Some? {
      var w := Word(Selected(Lower(ch)).value);
      assert [Lower(ch)] == w[..1];
    }
  }

  lemma ShapeGrows(t: string, ch: char)
    requires t != ""
    ensures ShapeOf(t + [ch]) ==
      match ShapeOf(t)
      case NoWord => NoWord
      case Begun(o) => if Lower(ch) != Word(o)[|t|] then NoWord else if |t| + 1 == |Word(o)| then Whole(o) else Begun(o)
      case Whole(o) => if ch == ' ' then Whole(o) else NoWord
    ensures ShapeOf(t).Begun? ==> |t| < |Word(ShapeOf(t).o)|
    ensures StartsToken(t + [ch]) <==> StartsToken(t)
    ensures !ShapeOf(t).NoWord? ==> StartsToken(t)
  {
    assert (t + [ch])[0] == t[0];
    assert Token('k') != '\0' && Token('c') != '\0' && Token('u') != '\0';
    hide Lower, Token;
    if Selected(Lower(t[0])).Some? {
      var w := Word(Selected(Lower(t[0])).value);
      WordMore(t, ch, w);
      hide IsWord, BeginsWord;
      BegunNotWhole(t, w);
    }
  }

  lemma BegunNotWhole(t: string, w: string)
    ensures !(BeginsWord(t, w) && IsWord(t, w)) && (BeginsWord(t, w) ==> |t| < |w|)
  {}

  lemma LetterMatches(w: string, i: nat, c: char, matching: HeaderState, found: HeaderState)
    requires i < |w|
    ensures MatchName(w, i, c, matching, MatchingConnToken, found)
      == if c != w[i] then MatchingConnToken else if i + 1 == |w| then found else matching
  {}

  /** A letter while a word is being matched. */
  lemma MatchingLetter(p: Parser, o: Opt, ch: char)
    requires p.headerState == Matching(o) && p.index + 1 < |Word(o)|
    ensures var q := ConnChar(p, ch);
      && q.index == p.index + 1
      && q.headerState == if Lower(ch) != Word(o)[p.index + 1] then MatchingConnToken
                          else if p.index + 2 == |Word(o)| then Found(o) else Matching(o)
  {
    LetterMatches(Word(o), p.index + 1, Lower(ch), p.headerState, Found(o));
    hide Lower, MatchName;
    match o case KeepAlive => case Close => case Switch =>
  }

  predicate InFound(h: HeaderState) { h.ConnKeepAlive? || h.ConnClose? || h.ConnUpgrade? }

  /** Only the header state, the index and, at a comma, the flags move. */
  lemma ConnFrame(p: Parser, ch: char)
    requires InConn(p.headerState)
    ensures var q := ConnChar(p, ch);
      && KeepsMessage(p.(flags := q.flags), q)
      && q.flags == if ch == ',' then OptionFlag(p.headerState, p.flags) else p.flags
  {
    hide Lower, Token, MatchName;
    match p.headerState
    case MatchingConnTokenStart =>
    case MatchingConnKeepAlive =>
    case MatchingConnClose =>
    case MatchingConnUpgrade =>
    case MatchingConnToken =>
    case ConnKeepAlive =>
    case ConnClose =>
    case ConnUpgrade =>
  }

  lemma ShowsWhere(h: HeaderState, i: nat, first: bool, r: Reading, c: string)
    requires Shows(h, i, first, r, c)
    ensures InConn(h) || h.General?
    ensures InFound(h) <==> r.Read? && ShapeOf(Trimmed(first, c)).Whole?
    ensures InFound(h) ==> h == Found(ShapeOf(Trimmed(first, c)).o)
  {
    hide ShapeOf, StartsToken, Trimmed;
    assert ShapeOf("") == NoWord by { EmptyShape(); }
  }

  lemma EmptyShape()
    ensures ShapeOf("") == NoWord && !StartsToken("") && Strip("") == ""
  {}

  /** The state of a value that is being read for options, or no more. */
  lemma ConnValue(p: Parser, ch: char)
    requires (InConn(p.headerState) || p.headerState.General?) && IsHeaderChar(ch) && !IsBreak(ch)
    ensures ValueChar(p, ch) == Ok(if InConn(p.headerState) then ConnChar(p, ch) else p, [])
  {
    hide ConnChar, IsHeaderChar;
  }

  /** A character behind a word, or behind none. */
  lemma OtherLetter(p: Parser, ch: char)
    requires ch != ','
    ensures var q := ConnChar(p, ch);
      && (InFound(p.headerState) ==> q.headerState == if ch == ' ' then p.headerState else MatchingConnToken)
      && (p.headerState.MatchingConnToken? ==> q.headerState == p.headerState)
  {
    hide Lower, MatchName, Token, OptionFlag;
  }

  /** One more character of an option that has begun. */
  lemma BegunText(p: Parser, first: bool, t: string, ch: char)
    requires ShowsText(p.headerState, p.index, first, t) && InConn(p.headerState) && ch != ',' && t != ""
    ensures var q := ConnChar(p, ch); ShowsText(q.headerState, q.index, first, t + [ch])
  {
    ShapeGrows(t, ch);
    OtherLetter(p, ch);
    hide ShapeOf, StartsToken, Lower, ConnChar, Matching, Word;
    match ShapeOf(t)
    case Begun(o) => MatchingLetter(p, o, ch);
    case Whole(o) => FoundApart(o, o);
    case NoWord =>
  }

  lemma BegunOption(p: Parser, first: bool, c: string, ch: char)
    requires Shows(p.headerState, p.index, first, Read, c) && InConn(p.headerState) && ch != ',' && Trimmed(first, c) != ""
    ensures var q := ConnChar(p, ch); Shows(q.headerState, q.index, first, Read, c + [ch])
  {
    if !first { StripMore(c, ch); }
    assert Trimmed(first, c + [ch]) == Trimmed(first, c) + [ch];
    BegunText(p, first, Trimmed(first, c), ch);
    hide ConnChar, ShowsText, Trimmed, InConn;
  }

  /** The first character of an option behind a comma and spaces, or one more space. */
  lemma BeginOption(p: Parser, c: string, ch: char)
    requires p.headerState.MatchingConnTokenStart? && p.index == 0 && Strip(c) == "" && ch != ',' && IsHeaderChar(ch)
    ensures var q := ConnChar(p, ch); Shows(q.headerState, q.index, false, Read, c + [ch])
  {
    StripMore(c, ch);
    FirstLetter(ch);
    EmptyShape();
    SpaceLetter(ch);
    hide ShapeOf, Strip, Lower, IsHeaderChar, Token;
  }

  /** One more character that is not a comma. */
  lemma OptionMore(p: Parser, first: bool, r: Reading, c: string, ch: char)
    requires Shows(p.headerState, p.index, first, r, c) && ch != ',' && IsHeaderChar(ch) && !IsBreak(ch) && (first ==> c != "")
    ensures var o := ValueChar(p, ch);
      o.stop.Go? && o.acts == [] && Shows(o.p.headerState, o.p.index, first, r, c + [ch]) && KeepsMessage(p, o.p)
  {
    ShowsWhere(p.headerState, p.index, first, r, c);
    ConnValue(p, ch);
    hide ValueChar, IsHeaderChar, ConnChar;
    if InConn(p.headerState) { ConnFrame(p, ch); }
    match r
    case Read =>
      if InConn(p.headerState) {
        if Trimmed(first, c) == "" { BeginOption(p, c, ch); } else { BegunOption(p, first, c, ch); }
      } else {
        StuckOption(p.headerState, p.index, c, ch);
      }
    case Skipped => SkippedOption(p, ch);
    case Stuck =>
  }

  lemma SkippedOption(p: Parser, ch: char)
    requires p.headerState.MatchingConnToken? && ch != ','
    ensures ConnChar(p, ch).headerState.MatchingConnToken?
  {}

  /** An option that begins with no token stays malformed. */
  lemma StuckOption(h: HeaderState, i: nat, c: string, ch: char)
    requires h.General? && Shows(h, i, false, Read, c)
    ensures Shows(h, i, false, Read, c + [ch])
  {
    StripMore(c, ch);
    ShapeGrows(Strip(c), ch);
    hide ShapeOf, StartsToken, Strip;
  }

  /** The flags when the options in front of the last have been read. */
  function Before(f: Flags, cs: seq<string>): Flags
    requires |cs| > 0
  {
    Flagged(f, cs[..|cs| - 1])
  }

  /** The comma behind an option. */
  lemma CommaOption(p: Parser, first: bool, r: Reading, c: string)
    requires Shows(p.headerState, p.index, first, r, c) && (first ==> c != "")
    ensures var o := ValueChar(p, ',');
      && o.stop.Go? && o.acts == [] && Shows(o.p.headerState, o.p.index, false, Next(first, r, c), "")
      && KeepsMessage(p.(flags := o.p.flags), o.p)
      && o.p.flags == OptionFlag(p.headerState, p.flags)
  {
    ShowsWhere(p.headerState, p.index, first, r, c);
    CommaLetter();
    ConnValue(p, ',');
    EmptyShape();
    hide ValueChar;
    if InConn(p.headerState) { ConnFrame(p, ','); }
    CommaState(p, first, r, c);
    hide ConnChar;
  }

  lemma CommaState(p: Parser, first: bool, r: Reading, c: string)
    requires Shows(p.headerState, p.index, first, r, c) && (first ==> c != "")
    ensures var q := if InConn(p.headerState) then ConnChar(p, ',') else p;
      Shows(q.headerState, q.index, false, Next(first, r, c), "")
  {
    EmptyShape();
    if r.Read? { CommaText(p, first, Trimmed(first, c)); } else if r.Skipped? { CommaSkipped(p); }
    hide ShapeOf, StartsToken, ConnChar, Strip, ShowsText;
    assert Trimmed(false, "") == "";
    assert forall h: HeaderState, i: nat :: ShowsText(h, i, false, "") == (h.MatchingConnTokenStart? && i == 0) by {
      EmptyText();
    }
  }

  lemma EmptyText()
    ensures forall h: HeaderState, i: nat :: ShowsText(h, i, false, "") == (h.MatchingConnTokenStart? && i == 0)
  {}

  lemma CommaSkipped(p: Parser)
    requires p.headerState.MatchingConnToken?
    ensures ConnChar(p, ',').headerState.MatchingConnTokenStart? && ConnChar(p, ',').index == 0
  {}

  /** The comma where no word is being matched. */
  lemma CommaConn(p: Parser)
    ensures var q := ConnChar(p, ',');
      && (p.headerState.MatchingConnTokenStart? ==> q.headerState.General?)
      && (p.headerState.MatchingConnToken? || InFound(p.headerState) ==> q.headerState.MatchingConnTokenStart? && q.index == 0)
  {
    CommaLetter();
    hide Lower, MatchName, Token, OptionFlag;
  }

  /** The comma behind an option that is looked at. */
  lemma CommaText(p: Parser, first: bool, t: string)
    requires ShowsText(p.headerState, p.index, first, t) && (first ==> t != "")
    ensures var q := if InConn(p.headerState) then ConnChar(p, ',') else p;
      if ShapeOf(t).Begun? then q.headerState.MatchingConnToken?
      else if first || StartsToken(t) then q.headerState.MatchingConnTokenStart? && q.index == 0
      else q.headerState.General?
  {
    CommaLetter();
    CommaConn(p);
    EmptyShape();
    if t != "" { ShapeGrows(t, ','); }
    hide ShapeOf, StartsToken, Lower, ConnChar, Token, Word, Matching;
    if t != "" {
      match ShapeOf(t)
      case Begun(o) =>
        CommaInNoWord(o);
        MatchingLetter(p, o, ',');
      case Whole(o) => FoundApart(o, o);
      case NoWord =>
    }
  }

  lemma CommaInNoWord(o: Opt)
    ensures forall i | 0 <= i < |Word(o)| :: Word(o)[i] != ','
  {}

  // ---- Whole values ----

  /** A header state behind the options `cs`. */
  predicate ShowsLast(h: HeaderState, i: nat, cs: seq<string>) {
    |cs| > 0 && Shows(h, i, |cs| == 1, ReadingAt(cs), cs[|cs| - 1])
  }

  /** The record behind the value read so far, of a message whose flags were `f` in front of it. */
  predicate InOptions(p: Parser, f: Flags, v: string) {
    var cs := Codings(v);
    && p.state.HeaderValue? && ShowsLast(p.headerState, p.index, cs)
    && p.flags == Before(f, cs)
  }

  /** Nothing but the flags may have changed. */
  predicate SameApart(p: Parser, q: Parser) {
    SameMessage(p.(flags := q.flags), q) && q.usesTransferEncoding == p.usesTransferEncoding
  }

  lemma OnlyEmpty()
    ensures forall o: Opt :: !Has([], o) && !Has([""], o)
    ensures ReadingAt([""]) == Read && ReadingAt(["", ""]) == Skipped
  {
    EmptyShape();
    assert [""][..0] == [] && ["", ""][..1] == [""];
    hide ShapeOf, StartsToken, Strip;
  }

  lemma NoFlags(f: Flags)
    ensures Flagged(f, []) == f && Flagged(f, [""]) == f
  {
    OnlyEmpty();
    hide Has;
  }

  lemma FirstOption(p: Parser, ch: char, max: nat)
    requires p.state.HeaderValueDiscardWs? && p.headerState.Connection? && p.nread < max
    requires !IsBreak(ch) && !IsBlank(ch)
    ensures var r := StepByte(p, ch, max); r.stop.Go? && InOptions(r.p, p.flags, [ch]) && SameApart(p, r.p)
  {
    hide StepByte, Lower, IsHeaderChar, ShapeOf, StartsToken, Token, ReadingAt, Codings, Flagged;
    FirstValueByte(p, ch, max);
    FirstLetter(ch);
    EmptyShape();
    CommaLetter();
    FirstCodings(ch);
    NoFlags(p.flags);
    OnlyEmpty();
    assert ReadingAt([[ch]]) == Read by { OneReading([ch]); }
    assert [[ch]][..0] == [] && ["", ""][..1] == [""];
  }

  lemma OneReading(c: string)
    ensures ReadingAt([c]) == Read
  {}

  lemma ReadingAtMore(v: string, ch: char)
    ensures var cs, ds := Codings(v), Codings(v + [ch]);
      if ch == ',' then |ds| == |cs| + 1 && ReadingAt(ds) == Next(|cs| == 1, ReadingAt(cs), cs[|cs| - 1]) && ds[|ds| - 1] == ""
                        && ds[..|ds| - 1] == cs
      else |ds| == |cs| && ReadingAt(ds) == ReadingAt(cs) && ds[|ds| - 1] == cs[|cs| - 1] + [ch] && ds[..|ds| - 1] == cs[..|cs| - 1]
  {
    CodingsMore(v, ch);
    hide Next, Codings;
    var cs, ds := Codings(v), Codings(v + [ch]);
    if ch == ',' {
      assert ds[..|ds| - 1] == cs;
    } else {
      assert ds[..|ds| - 1] == cs[..|cs| - 1];
    }
  }

  lemma FlagOf(f: Flags, a: bool, b: bool, c: bool, h: HeaderState)
    requires InConn(h) || h.General?
    ensures var g := f.(keepAlive := a, close := b, connUpgrade := c);
      HeaderFlag(h, g) == OptionFlag(h, g)
        == f.(keepAlive := a || h == Found(KeepAlive), close := b || h == Found(Close), connUpgrade := c || h == Found(Switch))
  {
    match h case ConnKeepAlive => case ConnClose => case ConnUpgrade => case _ =>
  }

  /** The flag of the last option is set when it is over. */
  lemma LastFlag(p: Parser, f: Flags, cs: seq<string>)
    requires |cs| > 0 && ShowsLast(p.headerState, p.index, cs) && p.flags == Before(f, cs)
    ensures HeaderFlag(p.headerState, p.flags) == OptionFlag(p.headerState, p.flags) == Flagged(f, cs)
  {
    hide HeaderFlag, OptionFlag, Found, Has, ShowsLast, InConn;
    var h, init := p.headerState, cs[..|cs| - 1];
    EachHas(cs, h, p.index);
    FlagOf(f, f.keepAlive || Has(init, KeepAlive), f.close || Has(init, Close), f.connUpgrade || Has(init, Switch), h);
  }

  lemma EachHas(cs: seq<string>, h: HeaderState, i: nat)
    requires ShowsLast(h, i, cs)
    ensures Has(cs, KeepAlive) <==> Has(cs[..|cs| - 1], KeepAlive) || h == Found(KeepAlive)
    ensures Has(cs, Close) <==> Has(cs[..|cs| - 1], Close) || h == Found(Close)
    ensures Has(cs, Switch) <==> Has(cs[..|cs| - 1], Switch) || h == Found(Switch)
    ensures InConn(h) || h.General?
  {
    hide ReadingAt, Found, Has, Shows, InConn;
    LastHas(cs, KeepAlive, h, i);
    LastHas(cs, Close, h, i);
    LastHas(cs, Switch, h, i);
    ShowsWhere(h, i, |cs| == 1, ReadingAt(cs), cs[|cs| - 1]);
  }

  lemma LastHas(cs: seq<string>, o: Opt, h: HeaderState, i: nat)
    requires |cs| > 0 && Shows(h, i, |cs| == 1, ReadingAt(cs), cs[|cs| - 1])
    ensures Has(cs, o) <==> Has(cs[..|cs| - 1], o) || h == Found(o)
    ensures h == Found(o) ==> InFound(h)
  {
    hide ReadingAt, ShapeOf, Trimmed;
    var r, t := ReadingAt(cs), Trimmed(|cs| == 1, cs[|cs| - 1]);
    ShowsWhere(h, i, |cs| == 1, r, cs[|cs| - 1]);
    if InFound(h) { FoundApart(o, ShapeOf(t).o); }
    hide Shows;
  }

  lemma FoundApart(o: Opt, o': Opt)
    ensures Found(o) == Found(o') <==> o == o'
    ensures InFound(Found(o))
  {}

  lemma NextOption(p: Parser, f: Flags, v: string, ch: char, max: nat)
    requires InOptions(p, f, v) && v != "" && p.nread < max && IsHeaderChar(ch) && !IsBreak(ch)
    ensures var r := StepByte(p, ch, max);
      r.stop.Go? && r.p.nread == p.nread + 1 && InOptions(r.p, f, v + [ch]) && SameApart(p, r.p)
  {
    hide StepByte, IsHeaderChar, Shows, ValueChar, Codings, ReadingAt, Next, Flagged;
    var q, cs := p.(nread := p.nread + 1), Codings(v);
    NextValueByte(p, ch, max);
    FirstIsBegun(v);
    ReadingAtMore(v, ch);
    if ch == ',' {
      LastFlag(p, f, cs);
      CommaOption(q, |cs| == 1, ReadingAt(cs), cs[|cs| - 1]);
    } else {
      OptionMore(q, |cs| == 1, ReadingAt(cs), cs[|cs| - 1], ch);
    }
  }

  lemma {:induction false} OptionsRun(p: Parser, v: string, max: nat)
    requires BeginsValue(p, v, max) && p.headerState.Connection?
    ensures var r := Run(p, v, max);
      r.stop.Go? && r.p.nread == p.nread + |v| && InOptions(r.p, p.flags, v) && SameApart(p, r.p)
  {
    hide StepByte, InOptions, IsHeaderChar;
    var init, ch := v[..|v| - 1], v[|v| - 1];
    assert init + [ch] == v;
    if |v| == 1 {
      assert init == "" && Run(p, init, max) == Result(p, [], Go);
      FirstOption(p, ch, max);
      OneByteRun(p, ch, max);
    } else {
      ContentInit(v);
      OptionsRun(p, init, max);
      NextOption(Run(p, init, max).p, p.flags, init, ch, max);
    }
    ValueReport(p, v, max);
  }

  /** More of a value. */
  lemma {:induction false} MoreOptions(p: Parser, f: Flags, v: string, more: string, max: nat)
    requires InOptions(p, f, v) && v != "" && IsValue(more) && p.nread + |more| <= max
    ensures var r := Run(p, more, max);
      r.stop.Go? && r.p.nread == p.nread + |more| && InOptions(r.p, f, v + more) && SameApart(p, r.p)
  {
    hide StepByte, InOptions, IsHeaderChar;
    if more == "" {
      assert v + more == v;
    } else {
      var init, ch := more[..|more| - 1], more[|more| - 1];
      MoreOptions(p, f, v, init, max);
      assert v + init + [ch] == v + more;
      NextOption(Run(p, init, max).p, f, v + init, ch, max);
    }
  }

  /** Connection options: once the line is over exactly the flags of the options that the value asks for have been set: those
      that are looked at and spell `keep-alive`, `close` or `upgrade`, in any case of letters and with spaces around them. */
  lemma OptionsRecognised(p: Parser, v: string, max: nat)
    requires BeginsValue(p, v, max) && p.headerState.Connection?
    ensures var r := Run(p, v, max);
      && r.stop.Go? && r.p.state.HeaderValue? && r.p.nread == p.nread + |v| && SameApart(p, r.p)
      && HeaderFlag(r.p.headerState, r.p.flags)
         == p.flags.(keepAlive := p.flags.keepAlive || Asks(v, KeepAlive), close := p.flags.close || Asks(v, Close),
                     connUpgrade := p.flags.connUpgrade || Asks(v, Switch))
  {
    hide Run, BeginsValue, Shows, Has, Codings, ReadingAt, HeaderFlag, OptionFlag;
    OptionsRun(p, v, max);
    LastFlag(Run(p, v, max).p, p.flags, Codings(v));
  }

  /** So of two options the second is overlooked exactly when the first is empty or a beginning of one of the three words, as
      in `c,close`. */
  lemma SwallowedOption(w: string, u: string, o: Opt)
    requires ',' !in w && ',' !in u && IsWord(Strip(u), Word(o)) && ShapeOf(w) != Whole(o)
    ensures Asks(w + "," + u, o) <==> w != "" && !ShapeOf(w).Begun?
  {
    TwoCodings(w, u);
    var cs := [w, u];
    ShapeIsWord(Strip(u), o);
    EmptyShape();
    hide ShapeOf, StartsToken, Strip, IsWord, Codings;
    assert cs[..1] == [w] && [w][..0] == [];
    assert !Has([w], o);
    assert ReadingAt(cs) == Next(true, ReadingAt([w]), w);
  }
}
