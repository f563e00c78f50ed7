/** What a request line and a status line share: fixed letters, and a version. */
module HttpVersions {
  import opened HttpChars
  import opened HttpTypes
  import opened HttpStep
  import opened HttpRun
  import opened HttpRelate
  import opened HttpLengths
  import opened HttpBodies
  import opened HttpHeaders
  import opened HttpLines

  lemma RequestHandlers(p: Parser, ch: char)
    ensures p.state.ReqSpacesBeforeUrl? ==> Dispatch(p, ch) == StepSpacesBeforeUrl(p, ch)
    ensures p.state.ReqHttpStart? ==> Dispatch(p, ch) == StepReqHttpStart(p, ch)
    ensures p.state.ReqHttpI? ==> Dispatch(p, ch) == Expect(p, ch, 'C', ReqHttpIC, Strict)
    ensures p.state.ReqHttpIC? ==> Dispatch(p, ch) == Expect(p, ch, 'E', ReqHttpHTTP, Strict)
    ensures p.state.ReqHttpH? ==> Dispatch(p, ch) == Expect(p, ch, 'T', ReqHttpHT, Strict)
    ensures p.state.ReqHttpHT? ==> Dispatch(p, ch) == Expect(p, ch, 'T', ReqHttpHTT, Strict)
    ensures p.state.ReqHttpHTT? ==> Dispatch(p, ch) == Expect(p, ch, 'P', ReqHttpHTTP, Strict)
    ensures p.state.ReqHttpHTTP? ==> Dispatch(p, ch) == Expect(p, ch, '/', ReqHttpMajor, Strict)
    ensures p.state.ReqHttpMajor? ==> Dispatch(p, ch) == StepMajor(p, ch, ReqHttpDot)
    ensures p.state.ReqHttpDot? ==> Dispatch(p, ch) == Expect(p, ch, '.', ReqHttpMinor, InvalidVersion)
    ensures p.state.ReqHttpMinor? ==> Dispatch(p, ch) == StepMinor(p, ch, ReqHttpEnd)
    ensures p.state.ReqHttpEnd? ==> Dispatch(p, ch) == StepReqHttpEnd(p, ch)
    ensures p.state.ReqLineAlmostDone? ==> Dispatch(p, ch) == Expect(p, ch, '\n', HeaderFieldStart, LfExpected)
  {
    hide StepSpacesBeforeUrl, StepReqHttpStart, Expect, StepMajor, StepMinor, StepReqHttpEnd;
  }

  lemma StatusHandlers(p: Parser, ch: char)
    ensures p.state.ResH? ==> Dispatch(p, ch) == Expect(p, ch, 'T', ResHT, Strict)
    ensures p.state.ResHT? ==> Dispatch(p, ch) == Expect(p, ch, 'T', ResHTT, Strict)
    ensures p.state.ResHTT? ==> Dispatch(p, ch) == Expect(p, ch, 'P', ResHTTP, Strict)
    ensures p.state.ResHTTP? ==> Dispatch(p, ch) == Expect(p, ch, '/', ResHttpMajor, Strict)
    ensures p.state.ResHttpMajor? ==> Dispatch(p, ch) == StepMajor(p, ch, ResHttpDot)
    ensures p.state.ResHttpDot? ==> Dispatch(p, ch) == Expect(p, ch, '.', ResHttpMinor, InvalidVersion)
    ensures p.state.ResHttpMinor? ==> Dispatch(p, ch) == StepMinor(p, ch, ResHttpEnd)
    ensures p.state.ResHttpEnd? ==> Dispatch(p, ch) == Expect(p, ch, ' ', ResFirstStatusCode, InvalidVersion)
    ensures p.state.ResFirstStatusCode? ==> Dispatch(p, ch) == StepFirstStatusCode(p, ch)
    ensures p.state.ResLineAlmostDone? ==> Dispatch(p, ch) == Expect(p, ch, '\n', HeaderFieldStart, Strict)
  {
    hide Expect, StepMajor, StepMinor, StepFirstStatusCode;
  }

  /** The states through the fixed letters of a first line. */
  function Walk(s: State, ch: char): State {
    match s
    case ReqSpacesBeforeUrl => if ch == ' ' then ReqSpacesBeforeUrl else Dead
    case ReqHttpStart => if ch == ' ' then ReqHttpStart else if ch == 'H' then ReqHttpH else Dead
    case ReqHttpI => if ch == 'C' then ReqHttpIC else Dead
    case ReqHttpIC => if ch == 'E' then ReqHttpHTTP else Dead
    case ReqHttpH => if ch == 'T' then ReqHttpHT else Dead
    case ReqHttpHT => if ch == 'T' then ReqHttpHTT else Dead
    case ReqHttpHTT => if ch == 'P' then ReqHttpHTTP else Dead
    case ReqHttpHTTP => if ch == '/' then ReqHttpMajor else Dead
    case ReqHttpDot => if ch == '.' then ReqHttpMinor else Dead
    case ReqHttpEnd => if ch == '\r' then ReqLineAlmostDone else if ch == '\n' then HeaderFieldStart else Dead
    case ReqLineAlmostDone => if ch == '\n' then HeaderFieldStart else Dead
    case ResH => if ch == 'T' then ResHT else Dead
    case ResHT => if ch == 'T' then ResHTT else Dead
    case ResHTT => if ch == 'P' then ResHTTP else Dead
    case ResHTTP => if ch == '/' then ResHttpMajor else Dead
    case ResHttpDot => if ch == '.' then ResHttpMinor else Dead
    case ResHttpEnd => if ch == ' ' then ResFirstStatusCode else Dead
    case ResFirstStatusCode => if ch == ' ' then ResFirstStatusCode else Dead
    case ResLineAlmostDone => if ch == '\n' then HeaderFieldStart else Dead
    case _ => Dead
  }

  lemma WalkOut(p: Parser, ch: char)
    requires !Walk(p.state, ch).Dead?
    ensures Dispatch(p, ch) == Ok(p.(state := Walk(p.state, ch)), [])
    ensures ParsingHeader(p.state) && EntryMark(p.state).NoMark?
  {
    hide Dispatch;
    RequestHandlers(p, ch);
    StatusHandlers(p, ch);
  }

  lemma WalkByte(p: Parser, ch: char, max: nat)
    requires !Walk(p.state, ch).Dead? && p.nread < max
    ensures StepByte(p, ch, max) == Result(p.(state := Walk(p.state, ch), nread := p.nread + 1), [], Go)
  {
    hide Dispatch, StepByte, Walk;
    WalkOut(p.(nread := p.nread + 1), ch);
    QuietByte(p, ch, p.(state := Walk(p.state, ch), nread := p.nread + 1), max);
  }

  /** The state behind fixed letters. */
  function Walks(s: State, t: string): State {
    if t == "" then s else Walk(Walks(s, t[..|t| - 1]), t[|t| - 1])
  }

  lemma WalksMore(s: State, t: string, ch: char)
    ensures Walks(s, t + [ch]) == Walk(Walks(s, t), ch)
  {
    assert (t + [ch])[..|t + [ch]| - 1] == t;
  }

  lemma {:induction false} WalksAlive(s: State, t: string)
    requires t != "" && !Walks(s, t).Dead?
    ensures !Walks(s, t[..|t| - 1]).Dead?
  {}

  /** Fixed letters report nothing. */
  lemma {:induction false} WalkRun(p: Parser, t: string, max: nat)
    requires !Walks(p.state, t).Dead? && p.nread + |t| <= max
    ensures Run(p, t, max) == Result(p.(state := Walks(p.state, t), nread := p.nread + |t|), [], Go)
  {
    hide StepByte, Walk;
    if t != "" {
      var init, ch := t[..|t| - 1], t[|t| - 1];
      WalksAlive(p.state, t);
      WalkRun(p, init, max);
      WalkByte(p.(state := Walks(p.state, init), nread := p.nread + |init|), ch, max);
    }
  }

  lemma {:induction false} SpacesWalk(s: State, sp: string)
    requires Spaces(sp) && Walk(s, ' ') == s
    ensures Walks(s, sp) == s
  {
    hide Walk;
    if sp != "" { SpacesWalk(s, sp[..|sp| - 1]); }
  }

  const HTTP_WORD := "HTTP/"

  /** The words of the protocol, behind their first letter, and the ends of lines. */
  lemma WordsWalk()
    ensures Walks(ReqHttpH, "TTP/") == ReqHttpMajor && Walks(ReqHttpI, "CE/") == ReqHttpMajor
    ensures Walks(ResH, "TTP/") == ResHttpMajor
    ensures Walks(ReqHttpEnd, CRLF) == HeaderFieldStart && Walks(ReqHttpEnd, LF) == HeaderFieldStart
    ensures Walks(ReqLineAlmostDone, LF) == HeaderFieldStart && Walks(ResLineAlmostDone, LF) == HeaderFieldStart
  {
    hide Walks, Walk;
    WordWalks();
    EndWalks();
  }

  lemma WordWalks()
    ensures Walks(ReqHttpH, "TTP/") == ReqHttpMajor && Walks(ReqHttpI, "CE/") == ReqHttpMajor
    ensures Walks(ResH, "TTP/") == ResHttpMajor
  {
    hide Walks;
    FourLetters(ReqHttpH, 'T', 'T', 'P', '/');
    FourLetters(ResH, 'T', 'T', 'P', '/');
    ThreeLetters(ReqHttpI, 'C', 'E', '/');
    assert ['T', 'T', 'P', '/'] == "TTP/" && ['C', 'E', '/'] == "CE/";
  }

  lemma EndWalks()
    ensures Walks(ReqHttpEnd, CRLF) == HeaderFieldStart && Walks(ReqHttpEnd, LF) == HeaderFieldStart
    ensures Walks(ReqLineAlmostDone, LF) == HeaderFieldStart && Walks(ResLineAlmostDone, LF) == HeaderFieldStart
  {
    hide Walks;
    TwoLetters(ReqHttpEnd, '\r', '\n');
    OneLetterWalks(ReqHttpEnd, '\n');
    OneLetterWalks(ReqLineAlmostDone, '\n');
    OneLetterWalks(ResLineAlmostDone, '\n');
    assert ['\r', '\n'] == CRLF && ['\n'] == LF;
  }

  lemma OneLetterWalks(s: State, a: char)
    ensures Walks(s, [a]) == Walk(s, a)
  {
    hide Walk;
    assert [a][..0] == "" && Walks(s, "") == s;
  }

  lemma TwoLetters(s: State, a: char, b: char)
    ensures Walks(s, [a, b]) == Walk(Walk(s, a), b)
  {
    hide Walk;
    OneLetterWalks(s, a);
    assert [a, b] == [a] + [b];
    WalksMore(s, [a], b);
  }

  lemma ThreeLetters(s: State, a: char, b: char, c: char)
    ensures Walks(s, [a, b, c]) == Walk(Walk(Walk(s, a), b), c)
  {
    hide Walk;
    TwoLetters(s, a, b);
    assert [a, b, c] == [a, b] + [c];
    WalksMore(s, [a, b], c);
  }

  lemma FourLetters(s: State, a: char, b: char, c: char, d: char)
    ensures Walks(s, [a, b, c, d]) == Walk(Walk(Walk(Walk(s, a), b), c), d)
  {
    hide Walk;
    ThreeLetters(s, a, b, c);
    assert [a, b, c, d] == [a, b, c] + [d];
    WalksMore(s, [a, b, c], d);
  }

  // ---- The version ----

  predicate AtMajor(s: State) { s.ReqHttpMajor? || s.ResHttpMajor? }

  function Dot(s: State): State { if s.ReqHttpMajor? then ReqHttpDot else ResHttpDot }

  function Minor(s: State): State { if s.ReqHttpMajor? then ReqHttpMinor else ResHttpMinor }

  function End(s: State): State { if s.ReqHttpMajor? then ReqHttpEnd else ResHttpEnd }

  lemma MajorByte(p: Parser, ch: char, max: nat)
    requires AtMajor(p.state) && IsNum(ch) && p.nread < max
    ensures StepByte(p, ch, max) == Result(p.(httpMajor := Digit(ch), state := Dot(p.state), nread := p.nread + 1), [], Go)
  {
    hide Dispatch, StepByte;
    RequestHandlers(p.(nread := p.nread + 1), ch);
    StatusHandlers(p.(nread := p.nread + 1), ch);
    QuietByte(p, ch, p.(httpMajor := Digit(ch), state := Dot(p.state), nread := p.nread + 1), max);
  }

  lemma MinorByte(p: Parser, s: State, ch: char, max: nat)
    requires AtMajor(s) && p.state == Minor(s) && IsNum(ch) && p.nread < max
    ensures StepByte(p, ch, max) == Result(p.(httpMinor := Digit(ch), state := End(s), nread := p.nread + 1), [], Go)
  {
    hide Dispatch, StepByte;
    RequestHandlers(p.(nread := p.nread + 1), ch);
    StatusHandlers(p.(nread := p.nread + 1), ch);
    QuietByte(p, ch, p.(httpMinor := Digit(ch), state := End(s), nread := p.nread + 1), max);
  }

  /** The version, one digit on each side of the dot. */
  lemma VersionRead(p: Parser, a: char, b: char, max: nat)
    requires AtMajor(p.state) && p.nread + 3 <= max && IsNum(a) && IsNum(b)
    ensures Run(p, [a, '.'] + [b], max)
      == Result(p.(httpMajor := Digit(a), httpMinor := Digit(b), state := End(p.state), nread := p.nread + 3), [], Go)
  {
    hide StepByte, Run;
    var n, s, x := p.nread, p.state, p.(httpMajor := Digit(a));
    var dot, minor := x.(state := Dot(s), nread := n + 1), x.(state := Minor(s), nread := n + 2);
    MajorByte(p, a, max);
    WalkByte(dot, '.', max);
    QuietTwo(p, a, '.', dot, minor, max);
    MinorByte(minor, s, b, max);
    OneByteRun(minor, b, max);
    QuietAppend(p, [a, '.'], [b], minor, x.(httpMinor := Digit(b), state := End(s), nread := n + 3), max);
  }
}
