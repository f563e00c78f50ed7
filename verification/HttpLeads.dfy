/** What is read as a first line is a request line or a status line, whatever the bytes were. */
module HttpLeads {
  import opened Basics
  import opened HttpChars
  import opened HttpTypes
  import opened HttpStep
  import opened HttpRun
  import opened HttpRelate
  import opened HttpMarks
  import opened HttpLengths
  import opened HttpBodies
  import opened HttpMethods
  import opened HttpHeaders
  import opened HttpLines
  import opened HttpVersions
  import opened HttpRequests
  import opened HttpResponses
  import opened HttpStreams
  import opened HttpEndings
  import Url

  // ---- Beginnings of one kind ----

  /** How long `t` goes on with characters of one kind. */
  function Span(t: string, f: char -> bool): (k: nat)
    ensures k <= |t| && (forall i | 0 <= i < k :: f(t[i])) && (k < |t| ==> !f(t[k]))
  {
    if t == "" || !f(t[0]) then 0 else 1 + Span(t[1..], f)
  }

  predicate IsSpace(ch: char) { ch == ' ' }

  predicate IsInTarget(ch: char) { ch != ' ' && !IsBreak(ch) }

  predicate IsInWord(ch: char) { ch != ' ' }

  predicate IsInPhrase(ch: char) { !IsBreak(ch) }

  /** The record is inside a message, and nothing has been refused. */
  ghost predicate Cut(p: Parser, t: string, max: nat) {
    Within(Run(p, t, max))
  }

  /** What follows a stretch that is read is read from the record that it leaves. */
  lemma GoesOn(p: Parser, a: string, t: string, max: nat)
    requires a <= t && !Run(p, t, max).stop.Fail? && Run(p, a, max).stop.Go?
    ensures var q := Run(p, a, max).p;
      && !Run(q, t[|a|..], max).stop.Fail? && (Cut(q, t[|a|..], max) ==> Cut(p, t, max))
  {
    hide Run;
    assert a + t[|a|..] == t;
    RunAppend(p, a, t[|a|..], max);
  }

  /** The first byte of what is not refused is not refused. */
  lemma FirstTaken(p: Parser, t: string, max: nat)
    requires t != "" && !Run(p, t, max).stop.Fail?
    ensures !StepByte(p, t[0], max).stop.Fail? && Run(p, [t[0]], max) == StepByte(p, t[0], max)
  {
    hide Run, StepByte;
    assert [t[0]] + t[1..] == t;
    OneByteRun(p, t[0], max);
    RunAppend(p, [t[0]], t[1..], max);
  }

  // ---- Fixed letters ----

  /** The letter that a state insists on. */
  function Forced(s: State): Option<char> {
    match s
    case ReqHttpH => Some('T')
    case ReqHttpHT => Some('T')
    case ReqHttpHTT => Some('P')
    case ReqHttpHTTP => Some('/')
    case ReqHttpI => Some('C')
    case ReqHttpIC => Some('E')
    case ReqHttpDot => Some('.')
    case ReqLineAlmostDone => Some('\n')
    case ResH => Some('T')
    case ResHT => Some('T')
    case ResHTT => Some('P')
    case ResHTTP => Some('/')
    case ResHttpDot => Some('.')
    case ResHttpEnd => Some(' ')
    case ResLineAlmostDone => Some('\n')
    case _ => None
  }

  /** The states insist on every letter of `w`. */
  predicate Insist(s: State, w: string)
    decreases |w|
  {
    w == "" || (Forced(s) == Some(w[0]) && !Walk(s, w[0]).Dead? && Insist(Walk(s, w[0]), w[1..]))
  }

  lemma ForcedByte(p: Parser, ch: char, max: nat)
    requires Forced(p.state).Some? && !StepByte(p, ch, max).stop.Fail?
    ensures Forced(p.state) == Some(ch)
  {
    hide Dispatch, StepByte;
    var q := p.(nread := p.nread + 1);
    RequestHandlers(q, ch);
    StatusHandlers(q, ch);
    Taken(p, ch, max);
  }

  /** A byte that is not refused is not refused by the handler of its state. */
  lemma Taken(p: Parser, ch: char, max: nat)
    requires !StepByte(p, ch, max).stop.Fail?
    ensures !Dispatch(if ParsingHeader(p.state) then p.(nread := p.nread + 1) else p, ch).stop.Fail?
    ensures ParsingHeader(p.state) ==> p.nread + 1 <= max
  {
    hide Dispatch, Perform, FlushAll;
  }

  /** Where the states insist on `w`, the input goes on with it, or is a beginning of it. */
  lemma {:induction false} Insisted(p: Parser, w: string, t: string, max: nat)
    requires Insist(p.state, w) && !p.state.Dead? && !Run(p, t, max).stop.Fail? && p.nread + |t| <= max
    ensures w <= t || (t <= w && Run(p, t, max) == Result(p.(state := Walks(p.state, t), nread := p.nread + |t|), [], Go)
                       && !Walks(p.state, t).Dead?)
    ensures !Walks(p.state, w).Dead?
    decreases |w|
  {
    hide Run, StepByte, Walk, Forced;
    if w != "" {
      var s := Walk(p.state, w[0]);
      OneLetterWalks(p.state, w[0]);
      InsistAlive(p.state, w);
      if t == "" {
        EmptyRun(p, max);
      } else {
        FirstTaken(p, t, max);
        ForcedByte(p, t[0], max);
        WalkByte(p, t[0], max);
        assert [t[0]] <= t;
        GoesOn(p, [t[0]], t, max);
        var q := p.(state := s, nread := p.nread + 1);
        Insisted(q, w[1..], t[1..], max);
        assert t == [t[0]] + t[1..] && w == [w[0]] + w[1..];
        if t[1..] <= w[1..] {
          WalksFirst(p.state, t);
          if !(w[1..] <= t[1..]) { QuietAppend(p, [t[0]], t[1..], q, q.(state := Walks(s, t[1..]), nread := q.nread + |t| - 1), max); }
        }
      }
    }
  }

  lemma {:induction false} WalksFirst(s: State, t: string)
    requires t != ""
    ensures Walks(s, t) == Walks(Walk(s, t[0]), t[1..])
  {
    hide Walk;
    if |t| == 1 {
      assert t == [t[0]] && t[1..] == "";
      OneLetterWalks(s, t[0]);
    } else {
      var init := t[..|t| - 1];
      WalksFirst(s, init);
      assert init[1..] == t[1..][..|t| - 2];
    }
  }

  lemma {:induction false} InsistAlive(s: State, w: string)
    requires Insist(s, w) && !s.Dead?
    ensures !Walks(s, w).Dead?
    decreases |w|
  {
    hide Walk, Forced;
    if w != "" {
      WalksFirst(s, w);
      InsistAlive(Walk(s, w[0]), w[1..]);
    }
  }

  lemma InsistMore(s: State, c: char, w: string)
    requires Forced(s) == Some(c) && !Walk(s, c).Dead? && Insist(Walk(s, c), w)
    ensures Insist(s, [c] + w)
  {
    hide Walk, Forced;
    assert ([c] + w)[1..] == w;
  }

  /** The words that are insisted on behind their first letter, and the line feed behind a carriage return. */
  lemma WordsInsisted()
    ensures Insist(ReqHttpH, "TTP/") && Insist(ReqHttpI, "CE/") && Insist(ResH, "TTP/")
    ensures Insist(ReqLineAlmostDone, LF) && Insist(ResLineAlmostDone, LF)
  {
    hide Insist;
    LastInsisted();
    RequestInsisted();
    StatusInsisted();
  }

  lemma RequestInsisted()
    ensures Insist(ReqHttpH, "TTP/") && Insist(ReqHttpI, "CE/")
  {
    hide Insist;
    LastInsisted();
    InsistMore(ReqHttpHTT, 'P', "/");
    InsistMore(ReqHttpHT, 'T', ['P'] + "/");
    InsistMore(ReqHttpH, 'T', ['T'] + (['P'] + "/"));
    InsistMore(ReqHttpIC, 'E', "/");
    InsistMore(ReqHttpI, 'C', ['E'] + "/");
    assert ['T'] + (['T'] + (['P'] + "/")) == "TTP/" && ['C'] + (['E'] + "/") == "CE/";
  }

  lemma StatusInsisted()
    ensures Insist(ResH, "TTP/")
  {
    hide Insist;
    LastInsisted();
    InsistMore(ResHTT, 'P', "/");
    InsistMore(ResHT, 'T', ['P'] + "/");
    InsistMore(ResH, 'T', ['T'] + (['P'] + "/"));
    assert ['T'] + (['T'] + (['P'] + "/")) == "TTP/";
  }

  lemma LastInsisted()
    ensures Insist(ReqHttpHTTP, "/") && Insist(ResHTTP, "/")
    ensures Insist(ReqLineAlmostDone, LF) && Insist(ResLineAlmostDone, LF)
  {
    assert "/"[1..] == "" && LF[1..] == "";
  }

  /** The states on the way through a word are inside a line. */
  lemma {:induction false} WalksInner(s: State, w: string)
    requires Inner(s) && !Walks(s, w).Dead?
    ensures Inner(Walks(s, w))
  {
    hide Walk;
    if w != "" {
      WalksAlive(s, w);
      WalksInner(s, w[..|w| - 1]);
      WalkInner(Walks(s, w[..|w| - 1]), w[|w| - 1]);
    }
  }

  lemma WalkInner(s: State, ch: char)
    requires Inner(s) && !Walk(s, ch).Dead?
    ensures Inner(Walk(s, ch))
  {}

  /** A word that is insisted on is read whole, or cut. */
  lemma WordFound(p: Parser, w: string, t: string, max: nat) returns (whole: bool)
    requires Insist(p.state, w) && Inner(p.state) && !Run(p, t, max).stop.Fail? && p.nread + |t| <= max
    ensures if whole then
        && w <= t && Run(p, w, max) == Result(p.(state := Walks(p.state, w), nread := p.nread + |w|), [], Go)
        && !Run(Run(p, w, max).p, t[|w|..], max).stop.Fail?
        && (Cut(Run(p, w, max).p, t[|w|..], max) ==> Cut(p, t, max))
      else Cut(p, t, max)
  {
    hide Run, Walks, Insist;
    Insisted(p, w, t, max);
    whole := w <= t;
    if whole {
      WalkRun(p, w, max);
      GoesOn(p, w, t, max);
    } else {
      WalksInner(p.state, t);
    }
  }

  // ---- Ends of lines ----

  /** The end of a line in the states that wait for nothing else. */
  lemma EolFound(p: Parser, t: string, max: nat) returns (e: Option<string>)
    requires p.state.ReqHttpEnd? && !Run(p, t, max).stop.Fail? && p.nread + |t| <= max
    ensures match e case None => Cut(p, t, max) case Some(x) => IsEol(x) && x <= t
  {
    hide Run, StepByte, Walks, Insist, Dispatch;
    if t == "" {
      EmptyRun(p, max);
      e := None;
    } else {
      FirstTaken(p, t, max);
      Taken(p, t[0], max);
      RequestHandlers(p.(nread := p.nread + 1), t[0]);
      WalkByte(p, t[0], max);
      assert [t[0]] <= t;
      GoesOn(p, [t[0]], t, max);
      if t[0] == '\n' {
        e := Some(LF);
      } else {
        WordsInsisted();
        var whole := WordFound(p.(state := ReqLineAlmostDone, nread := p.nread + 1), LF, t[1..], max);
        e := if whole then Some(CRLF) else None;
        assert whole ==> CRLF <= t by { if whole { assert t[1..][0] == '\n'; } }
      }
    }
  }

  // ---- The version ----

  lemma MajorTaken(p: Parser, ch: char, max: nat)
    requires (AtMajor(p.state) || p.state.ReqHttpMinor? || p.state.ResHttpMinor?) && !StepByte(p, ch, max).stop.Fail?
    ensures IsNum(ch)
  {
    hide Dispatch, StepByte;
    Taken(p, ch, max);
    RequestHandlers(p.(nread := p.nread + 1), ch);
    StatusHandlers(p.(nread := p.nread + 1), ch);
  }

  /** One digit on each side of a dot, or less. */
  lemma DigitsFound(p: Parser, t: string, max: nat) returns (whole: bool)
    requires AtMajor(p.state) && !Run(p, t, max).stop.Fail? && p.nread + |t| <= max
    ensures if whole then
        && |t| >= 3 && IsNum(t[0]) && t[1] == '.' && IsNum(t[2])
        && Run(p, t[..3], max)
           == Result(p.(httpMajor := Digit(t[0]), httpMinor := Digit(t[2]), state := HttpVersions.End(p.state), nread := p.nread + 3), [], Go)
        && !Run(Run(p, t[..3], max).p, t[3..], max).stop.Fail?
        && (Cut(Run(p, t[..3], max).p, t[3..], max) ==> Cut(p, t, max))
      else Cut(p, t, max)
  {
    hide Run, StepByte, Walks, Insist, Dispatch;
    if t == "" {
      EmptyRun(p, max);
      return false;
    }
    FirstTaken(p, t, max);
    MajorTaken(p, t[0], max);
    MajorByte(p, t[0], max);
    assert [t[0]] <= t;
    GoesOn(p, [t[0]], t, max);
    var q := p.(httpMajor := Digit(t[0]), state := Dot(p.state), nread := p.nread + 1);
    var u := t[1..];
    DotInsisted();
    var dot := WordFound(q, ".", u, max);
    if !dot { return false; }
    OneLetterWalks(q.state, '.');
    var r, v := Run(q, ".", max).p, u[1..];
    assert r == q.(state := Minor(p.state), nread := q.nread + 1);
    if v == "" {
      EmptyRun(r, max);
      return false;
    }
    FirstTaken(r, v, max);
    MajorTaken(r, v[0], max);
    assert t[..3] == [t[0], '.'] + [v[0]];
    VersionRead(p, t[0], v[0], max);
    assert t[..3] <= t;
    GoesOn(p, t[..3], t, max);
    return true;
  }

  lemma DotInsisted()
    ensures Insist(ReqHttpDot, ".") && Insist(ResHttpDot, ".")
  {
    assert "."[1..] == "";
  }

  /** Behind the name of the protocol and its slash: a version and the end of the line. */
  lemma NumbersFound(p: Parser, t: string, max: nat) returns (v: Option<(char, char, string)>)
    requires p.state.ReqHttpMajor? && !Run(p, t, max).stop.Fail? && p.nread + |t| <= max
    ensures match v
            case None => Cut(p, t, max)
            case Some(x) => IsNum(x.0) && IsNum(x.1) && IsEol(x.2) && [x.0, '.'] + [x.1] + x.2 <= t
  {
    hide Run, IsEol;
    var whole := DigitsFound(p, t, max);
    if !whole { return None; }
    var q := Run(p, t[..3], max).p;
    var e := EolFound(q, t[3..], max);
    match e
    case None => v := None;
    case Some(x) =>
      v := Some((t[0], t[2], x));
      assert t == t[..3] + t[3..] && t[..3] == [t[0], '.'] + [t[2]];
  }

  /** The first letter behind the spaces. */
  lemma LetterTaken(p: Parser, ch: char, max: nat)
    requires p.state.ReqHttpStart? && ch != ' ' && !StepByte(p, ch, max).stop.Fail?
    ensures ch == 'H' || (ch == 'I' && p.verb.SOURCE?)
  {
    hide Dispatch, StepByte;
    Taken(p, ch, max);
    RequestHandlers(p.(nread := p.nread + 1), ch);
  }

  /** The name of the protocol and its slash. */
  lemma NameFound(p: Parser, t: string, max: nat) returns (ice: bool, whole: bool)
    requires p.state.ReqHttpStart? && t != "" && t[0] != ' ' && !Run(p, t, max).stop.Fail? && p.nread + |t| <= max
    ensures if whole then
        && HttpWord(ice) <= t && (ice ==> p.verb.SOURCE?)
        && var q := p.(state := ReqHttpMajor, nread := p.nread + |HttpWord(ice)|);
           Run(p, HttpWord(ice), max) == Result(q, [], Go)
           && !Run(q, t[|HttpWord(ice)|..], max).stop.Fail? && (Cut(q, t[|HttpWord(ice)|..], max) ==> Cut(p, t, max))
      else Cut(p, t, max)
  {
    hide Run, StepByte, Walks, Insist;
    FirstTaken(p, t, max);
    LetterTaken(p, t[0], max);
    WordsInsisted();
    WordsWalk();
    ice := t[0] == 'I';
    if ice { IceByte(p, max); } else { WalkByte(p, 'H', max); }
    assert [t[0]] <= t;
    GoesOn(p, [t[0]], t, max);
    var q := p.(state := if ice then ReqHttpI else ReqHttpH, nread := p.nread + 1);
    whole := WordFound(q, if ice then "CE/" else "TTP/", t[1..], max);
    if whole {
      var w := HttpWord(ice);
      assert w == [t[0]] + (if ice then "CE/" else "TTP/") && t == [t[0]] + t[1..];
      HttpRequests.WordRead(p, ice, max);
      GoesOn(p, w, t, max);
    }
  }

  /** Behind the URL: the end of the line, or a space and a version. */
  lemma VersionFound(p: Parser, t: string, max: nat) returns (v: Option<Version>)
    requires MayEnd(p.state) && t != "" && (t[0] == ' ' || IsBreak(t[0])) && !Run(p, t, max).stop.Fail? && p.nread + |t| <= max
    ensures match v case None => Cut(p, t, max) case Some(x) => IsVersion(x, p.verb) && VersionText(x) <= t
  {
    hide Run, StepByte, Walks, Insist, MayEnd;
    FirstTaken(p, t, max);
    assert [t[0]] <= t;
    if t[0] == ' ' {
      UrlEnds(p, max);
      GoesOn(p, [t[0]], t, max);
      v := SpacedFound(p.(state := ReqHttpStart, nread := p.nread + 1), t[1..], max);
      assert v.Some? ==> VersionText(v.value) <= t by {
        assert t == " " + t[1..];
        if v.Some? { assert VersionText(v.value) == " " + VersionText(v.value)[1..]; }
      }
    } else {
      UrlBreak(p, t[0], max);
      if t[0] == '\n' {
        v := Some(NoVersion(LF));
      } else {
        GoesOn(p, [t[0]], t, max);
        WordsInsisted();
        var q := p.(httpMajor := 0, httpMinor := 9, state := ReqLineAlmostDone, nread := p.nread + 1);
        var whole := WordFound(q, LF, t[1..], max);
        v := if whole then Some(NoVersion(CRLF)) else None;
        assert whole ==> CRLF <= t by { if whole { assert t[1..][0] == '\n'; } }
      }
    }
  }

  lemma SpacedFound(p: Parser, t: string, max: nat) returns (v: Option<Version>)
    requires p.state.ReqHttpStart? && !Run(p, t, max).stop.Fail? && p.nread + |t| <= max
    ensures match v
            case None => Cut(p, t, max)
            case Some(x) => IsVersion(x, p.verb) && x.Version? && VersionText(x)[1..] <= t
  {
    hide Run, Walks, IsEol, HttpWord;
    var k := Span(t, IsSpace);
    var sp, u := t[..k], t[k..];
    SpacesWalk(ReqHttpStart, sp);
    WalkRun(p, sp, max);
    assert sp <= t;
    GoesOn(p, sp, t, max);
    var q := p.(nread := p.nread + k);
    if u == "" {
      EmptyRun(q, max);
      return None;
    }
    v := NamedFound(q, sp, u, max);
    assert v.Some? ==> VersionText(v.value)[1..] <= t by {
      assert t == sp + u;
      if v.Some? { Prefixed(sp, VersionText(v.value)[1 + |sp|..], u); VersionSpaced(v.value); }
    }
  }

  lemma Prefixed(a: string, b: string, u: string)
    requires b <= u
    ensures a + b <= a + u
  {}

  lemma VersionSpaced(v: Version)
    requires v.Version?
    ensures VersionText(v)[1..] == v.sp + VersionText(v)[1 + |v.sp|..]
    ensures VersionText(v)[1 + |v.sp|..] == HttpWord(v.ice) + ([v.major, '.'] + [v.minor] + v.eol)
  {}

  /** The version behind its spaces `sp`. */
  lemma NamedFound(p: Parser, sp: string, t: string, max: nat) returns (v: Option<Version>)
    requires p.state.ReqHttpStart? && t != "" && t[0] != ' ' && !Run(p, t, max).stop.Fail? && p.nread + |t| <= max
    requires forall i | 0 <= i < |sp| :: IsSpace(sp[i])
    ensures match v
            case None => Cut(p, t, max)
            case Some(x) => IsVersion(x, p.verb) && x.Version? && x.sp == sp && VersionText(x)[1 + |sp|..] <= t
  {
    hide Run, IsEol, HttpWord;
    var ice, whole := NameFound(p, t, max);
    if !whole { return None; }
    var w := HttpWord(ice);
    var n := NumbersFound(p.(state := ReqHttpMajor, nread := p.nread + |w|), t[|w|..], max);
    match n
    case None => v := None;
    case Some(x) =>
      v := Some(Version(sp, ice, x.0, x.1, x.2));
      assert t == w + t[|w|..];
      Prefixed(w, [x.0, '.'] + [x.1] + x.2, t[|w|..]);
      VersionSpaced(v.value);
  }

  // ---- Request lines ----

  lemma Unfailed(p: Parser, a: string, t: string, max: nat)
    requires a <= t && !Run(p, t, max).stop.Fail?
    ensures !Run(p, a, max).stop.Fail?
  {
    hide Run;
    assert a + t[|a|..] == t;
    RunAppend(p, a, t[|a|..], max);
  }

  lemma BreakNoTarget(p: Parser, ch: char, max: nat)
    requires p.state.ReqSpacesBeforeUrl? && IsBreak(ch)
    ensures StepByte(p, ch, max).stop.Fail?
  {
    hide Dispatch, StepByte;
    UrlHandlers(p.(nread := p.nread + 1), ch);
    if !StepByte(p, ch, max).stop.Fail? { Taken(p, ch, max); }
  }

  /** The record behind a target that is not refused. */
  lemma TargetKnown(p: Parser, url: string, max: nat)
    requires p.state.ReqSpacesBeforeUrl? && url != "" && NoSpace(url) && !Run(p, url, max).stop.Fail? && p.nread + |url| <= max
    ensures var r, cut := Run(p, url, max), Url.Split(url, p.verb.CONNECT?);
      && r.stop.Go? && cut.Some? && r.p == p.(state := Url.StateOf(cut.value, p.verb.CONNECT?), nread := p.nread + |url|)
      && Inner(r.p.state) && EntryMark(r.p.state) == On(DataKind.Url)
  {
    hide Run, Url.Split, Url.StateOf, EntryMark, Merge, Inner;
    UrlRead(p, url, max);
    UrlInner();
  }

  lemma MustEnd(q: Parser, u: string, max: nat)
    requires EntryMark(q.state) == On(DataKind.Url) && u != "" && (u[0] == ' ' || IsBreak(u[0])) && q.nread < max
    requires !Run(q, u, max).stop.Fail?
    ensures MayEnd(q.state)
  {
    hide Run, MayEnd, EntryMark;
    if !MayEnd(q.state) { UrlStops(q, u, max); }
  }

  /** The target and what follows it. */
  lemma TargetFound(p: Parser, m: Method, sp: string, t: string, max: nat) returns (f: Option<First>)
    requires p.state.ReqSpacesBeforeUrl? && p.verb == m && t != "" && t[0] != ' ' && Spaces(sp)
    requires !Run(p, t, max).stop.Fail? && p.nread + |t| <= max
    ensures match f
            case None => Cut(p, t, max)
            case Some(x) => IsFirst(x) && x.Ask? && x.verb == m && x.sp == sp && x.url + VersionText(x.version) <= t
  {
    hide Run, StepByte, Url.Split, Url.StateOf, MayEnd, Spaces, EntryMark, Inner, IsVersion, VersionText;
    var k := Span(t, IsInTarget);
    var url, u := t[..k], t[k..];
    FirstTaken(p, t, max);
    if k == 0 { BreakNoTarget(p, t[0], max); }
    assert url <= t && t == url + u;
    Unfailed(p, url, t, max);
    TargetKnown(p, url, max);
    GoesOn(p, url, t, max);
    var q := Run(p, url, max).p;
    if u == "" {
      EmptyRun(q, max);
      return None;
    }
    MustEnd(q, u, max);
    var v := VersionFound(q, u, max);
    match v
    case None => f := None;
    case Some(x) =>
      f := Some(Ask(m, sp, url, x));
      Prefixed(url, VersionText(x), u);
  }

  /** What is read from a record that waits for a request is the beginning of a request line, or begins with one. */
  lemma RequestFound(p: Parser, t: string, max: nat) returns (f: Option<First>)
    requires p.state.StartReq? && t != "" && !IsBreak(t[0]) && !Run(p, t, max).stop.Fail? && p.nread + |t| <= max
    ensures match f case None => Cut(p, t, max) case Some(x) => IsFirst(x) && x.Ask? && FirstText(x) <= t
  {
    hide Run, StepByte, MethodString, OnTrack, IsFirst, Spaces, Walks, Merge;
    var k := Span(t, IsInWord);
    var w := t[..k];
    if k == |t| {
      assert w == t;
      MethodPrefix(p, t, max);
      TrackState(Run(p, t, max).p, t);
      return None;
    }
    var head, u := w + " ", t[k + 1..];
    assert head <= t && t == head + u;
    Unfailed(p, head, t, max);
    OnlySpelled(p, w, max);
    var m := Run(p, head, max).p.verb;
    MethodRead(p, m, max);
    GoesOn(p, head, t, max);
    f := SpacedTarget(Run(p, head, max).p, m, u, max);
    match f
    case None =>
    case Some(x) =>
      Prefixed(head, x.sp + (x.url + VersionText(x.version)), u);
      AskText(x);
  }

  lemma AskText(x: First)
    requires x.Ask?
    ensures FirstText(x) == MethodString(x.verb) + " " + (x.sp + (x.url + VersionText(x.version)))
  {}

  lemma SpacedTarget(p: Parser, m: Method, t: string, max: nat) returns (f: Option<First>)
    requires p.state.ReqSpacesBeforeUrl? && p.verb == m && !Run(p, t, max).stop.Fail? && p.nread + |t| <= max
    ensures match f
            case None => Cut(p, t, max)
            case Some(x) => IsFirst(x) && x.Ask? && x.verb == m && x.sp + (x.url + VersionText(x.version)) <= t
  {
    hide Run, Walks, IsFirst;
    var k := Span(t, IsSpace);
    var sp, u := t[..k], t[k..];
    SpacesWalk(ReqSpacesBeforeUrl, sp);
    WalkRun(p, sp, max);
    assert sp <= t && t == sp + u;
    GoesOn(p, sp, t, max);
    var q := p.(nread := p.nread + k);
    if u == "" {
      EmptyRun(q, max);
      return None;
    }
    f := TargetFound(q, m, sp, u, max);
    if f.Some? { Prefixed(sp, f.value.url + VersionText(f.value.version), u); }
  }

  // ---- Status lines ----

  lemma CodeTaken(p: Parser, ch: char, max: nat)
    requires !StepByte(p, ch, max).stop.Fail?
    ensures p.state.ResFirstStatusCode? ==> IsNum(ch) || ch == ' '
    ensures p.state.ResStatusCode? ==> IsNum(ch) || ch == ' ' || IsBreak(ch)
    ensures p.state.StartRes? ==> ch == 'H' || IsBreak(ch)
  {
    hide Dispatch, StepByte;
    Taken(p, ch, max);
    CodeHandlers(p.(nread := p.nread + 1), ch);
    StartHandler(p.(nread := p.nread + 1), ch);
    hide StepStatusStart;
  }

  lemma NumDigits(ds: string)
    requires forall i | 0 <= i < |ds| :: IsNum(ds[i])
    ensures Digits(ds, 10)
  {}

  /** The end of the line behind a code or a phrase. */
  lemma LineEndFound(p: Parser, t: string, max: nat) returns (e: Option<string>)
    requires (p.state.ResStatusCode? || p.state.ResStatusStart? || p.state.ResStatus?) && (t != "" ==> IsBreak(t[0]))
    requires !Run(p, t, max).stop.Fail? && p.nread + |t| <= max
    ensures match e case None => Cut(p, t, max) case Some(x) => IsEol(x) && x <= t
  {
    hide Run, StepByte, Walks, Insist;
    if t == "" {
      EmptyRun(p, max);
      return None;
    }
    FirstTaken(p, t, max);
    BreakByte(p, t[0], max);
    if t[0] == '\n' { return Some(LF); }
    assert [t[0]] <= t;
    GoesOn(p, [t[0]], t, max);
    WordsInsisted();
    var whole := WordFound(Run(p, [t[0]], max).p, LF, t[1..], max);
    e := if whole then Some(CRLF) else None;
    assert whole ==> CRLF <= t by { if whole { assert t[1..][0] == '\n'; } }
  }

  /** The phrase, and the end of the line. */
  lemma PhraseFound(p: Parser, t: string, max: nat) returns (f: Option<(string, string)>)
    requires p.state.ResStatusStart? && !Run(p, t, max).stop.Fail? && p.nread + |t| <= max
    ensures match f case None => Cut(p, t, max) case Some(x) => IsPhrase(x.0) && IsEol(x.1) && x.0 + x.1 <= t
  {
    hide Run, IsEol, Merge;
    var k := Span(t, IsInPhrase);
    var s, u := t[..k], t[k..];
    var q := p;
    if s != "" {
      PhraseRead(p, s, max);
      q := Run(p, s, max).p;
    } else {
      EmptyRun(p, max);
    }
    assert s <= t && t == s + u;
    GoesOn(p, s, t, max);
    var e := LineEndFound(q, u, max);
    match e
    case None => f := None;
    case Some(x) =>
      f := Some((s, x));
      Prefixed(s, x, u);
  }

  /** What stands behind the digits of the code. */
  lemma TailFound(p: Parser, t: string, max: nat) returns (f: Option<(Option<string>, string)>)
    requires p.state.ResStatusCode? && (t != "" ==> !IsNum(t[0])) && !Run(p, t, max).stop.Fail? && p.nread + |t| <= max
    ensures match f
            case None => Cut(p, t, max)
            case Some(x) => IsPhrase(Phrase(x.0)) && IsEol(x.1) && TailOf(x.0) + x.1 <= t
  {
    hide Run, StepByte, IsEol;
    if t == "" {
      EmptyRun(p, max);
      return None;
    }
    FirstTaken(p, t, max);
    CodeTaken(p, t[0], max);
    if t[0] == ' ' {
      SpaceByte(p, max);
      assert [t[0]] <= t && t == " " + t[1..];
      GoesOn(p, [t[0]], t, max);
      var x := PhraseFound(p.(state := ResStatusStart, nread := p.nread + 1), t[1..], max);
      match x
      case None => f := None;
      case Some(y) =>
        f := Some((Some(y.0), y.1));
        Prefixed(" ", y.0 + y.1, t[1..]);
        assert " " + y.0 + y.1 == " " + (y.0 + y.1);
    } else {
      var e := LineEndFound(p, t, max);
      match e
      case None => f := None;
      case Some(x) =>
        f := Some((None, x));
        assert "" + x == x;
    }
  }

  /** Spaces, the code, and the rest of the line. */
  lemma CodeFound(p: Parser, t: string, max: nat) returns (f: Option<(string, string, Option<string>, string)>)
    requires p.state.ResFirstStatusCode? && !Run(p, t, max).stop.Fail? && p.nread + |t| <= max
    ensures match f
            case None => Cut(p, t, max)
            case Some(x) =>
              && Spaces(x.0) && x.1 != "" && Digits(x.1, 10) && Spelled(x.1, 10) <= 999 && IsPhrase(Phrase(x.2)) && IsEol(x.3)
              && x.0 + (x.1 + (TailOf(x.2) + x.3)) <= t
  {
    hide Run, IsEol, Walks, Digits, Spelled, IsPhrase, TailOf;
    var k := Span(t, IsSpace);
    var sp, u := t[..k], t[k..];
    SpacesWalk(ResFirstStatusCode, sp);
    WalkRun(p, sp, max);
    assert sp <= t && t == sp + u;
    GoesOn(p, sp, t, max);
    var q := p.(nread := p.nread + k);
    if u == "" {
      EmptyRun(q, max);
      return None;
    }
    var x := DigitsOfCode(q, u, max);
    match x
    case None => f := None;
    case Some(y) =>
      f := Some((sp, y.0, y.1, y.2));
      Prefixed(sp, y.0 + (TailOf(y.1) + y.2), u);
  }

  lemma DigitsOfCode(q: Parser, u: string, max: nat) returns (f: Option<(string, Option<string>, string)>)
    requires q.state.ResFirstStatusCode? && u != "" && u[0] != ' ' && !Run(q, u, max).stop.Fail? && q.nread + |u| <= max
    ensures match f
            case None => Cut(q, u, max)
            case Some(x) =>
              && x.0 != "" && Digits(x.0, 10) && Spelled(x.0, 10) <= 999 && IsPhrase(Phrase(x.1)) && IsEol(x.2)
              && x.0 + (TailOf(x.1) + x.2) <= u
  {
    hide Run, StepByte, IsEol, Digits, Spelled, IsPhrase, TailOf;
    FirstTaken(q, u, max);
    CodeTaken(q, u[0], max);
    var d := Span(u, IsNum);
    var ds, v := u[..d], u[d..];
    NumDigits(ds);
    assert ds <= u && u == ds + v;
    Unfailed(q, ds, u, max);
    CodeRead(q, ds, max);
    GoesOn(q, ds, u, max);
    var x := TailFound(Run(q, ds, max).p, v, max);
    match x
    case None => f := None;
    case Some(y) =>
      f := Some((ds, y.0, y.1));
      Prefixed(ds, TailOf(y.0) + y.1, v);
  }

  /** The name of the protocol. */
  lemma StatusNamed(p: Parser, t: string, max: nat) returns (whole: bool)
    requires p.state.StartRes? && t != "" && !IsBreak(t[0]) && !Run(p, t, max).stop.Fail? && p.nread + |t| <= max
    ensures var q := Fresh(p).(state := ResHttpMajor, nread := p.nread + 5);
      if whole then
        HTTP_WORD <= t && !Run(q, t[5..], max).stop.Fail? && (Cut(q, t[5..], max) ==> Cut(p, t, max))
      else Cut(p, t, max)
  {
    hide Run, StepByte, Walks, Insist;
    FirstTaken(p, t, max);
    CodeTaken(p, t[0], max);
    FirstByte(p, max);
    assert [t[0]] <= t && t == [t[0]] + t[1..];
    GoesOn(p, [t[0]], t, max);
    WordsInsisted();
    WordsWalk();
    whole := WordFound(Fresh(p), "TTP/", t[1..], max);
    if whole {
      assert ['H'] + "TTP/" == HTTP_WORD && t[1..][4..] == t[5..];
      Prefixed(['H'], "TTP/", t[1..]);
    }
  }

  /** What is read from a record that waits for a response is the beginning of a status line, or begins with one. */
  lemma StatusFound(p: Parser, t: string, max: nat) returns (f: Option<First>)
    requires p.state.StartRes? && t != "" && !IsBreak(t[0]) && !Run(p, t, max).stop.Fail? && p.nread + |t| <= max
    ensures match f case None => Cut(p, t, max) case Some(x) => IsFirst(x) && x.Answer? && FirstText(x) <= t
  {
    hide Run, IsFirst, AnswerTail, FirstText;
    var name := StatusNamed(p, t, max);
    if !name { return None; }
    f := NumberedFound(Fresh(p).(state := ResHttpMajor, nread := p.nread + 5), t[5..], max);
    match f
    case None =>
    case Some(x) =>
      assert t == HTTP_WORD + t[5..];
      Prefixed(HTTP_WORD, AnswerTail(x), t[5..]);
      AnswerText(x);
  }

  /** A status line behind the name of the protocol. */
  function AnswerTail(x: First): string
    requires x.Answer?
  {
    [x.major, '.'] + [x.minor] + (" " + (x.sp + (x.code + (TailOf(x.phrase) + x.eol))))
  }

  lemma AnswerText(x: First)
    requires x.Answer?
    ensures FirstText(x) == HTTP_WORD + AnswerTail(x)
  {
    hide TailOf;
    var n, r := [x.major, '.'] + [x.minor], x.code + (TailOf(x.phrase) + x.eol);
    assert HTTP_WORD + (n + (" " + x.sp)) + r == HTTP_WORD + (n + (" " + (x.sp + r)));
  }

  lemma NumberedFound(p: Parser, t: string, max: nat) returns (f: Option<First>)
    requires p.state.ResHttpMajor? && !Run(p, t, max).stop.Fail? && p.nread + |t| <= max
    ensures match f case None => Cut(p, t, max) case Some(x) => IsFirst(x) && x.Answer? && AnswerTail(x) <= t
  {
    hide Run, Walks, Insist, Spaces, Digits, Spelled, IsPhrase, IsEol, TailOf;
    var whole := DigitsFound(p, t, max);
    if !whole { return None; }
    var q, u := Run(p, t[..3], max).p, t[3..];
    SpaceInsisted();
    var space := WordFound(q, " ", u, max);
    if !space { return None; }
    OneLetterWalks(ResHttpEnd, ' ');
    var x := CodeFound(Run(q, " ", max).p, u[1..], max);
    match x
    case None => f := None;
    case Some(y) =>
      f := Some(Answer(t[0], t[2], y.0, y.1, y.2, y.3));
      assert t == [t[0], '.'] + [t[2]] + u && u == " " + u[1..];
      Prefixed(" ", y.0 + (y.1 + (TailOf(y.2) + y.3)), u[1..]);
      Prefixed([t[0], '.'] + [t[2]], " " + (y.0 + (y.1 + (TailOf(y.2) + y.3))), u);
  }

  lemma SpaceInsisted()
    ensures Insist(ResHttpEnd, " ")
  {
    assert " "[1..] == "";
  }
}
