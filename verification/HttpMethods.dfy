/** Recognising the method: one candidate at a time, changed when the next letter asks for it. */
module HttpMethods {
  import opened Basics
  import opened HttpChars
  import opened HttpTypes
  import opened HttpStep
  import opened HttpRun
  import opened HttpLengths
  import opened HttpBodies

  /** The candidate from which `m` is reached, and the index of the letter that decides; 0 for the first letter. */
  function Origin(m: Method): (Method, nat) {
    match m
    case PUT => (POST, 1) case PATCH => (POST, 1) case PROPFIND => (POST, 1)
    case PURGE => (PUT, 2) case PROPPATCH => (PROPFIND, 4)
    case CHECKOUT => (CONNECT, 1) case COPY => (CONNECT, 2)
    case MOVE => (MKCOL, 1) case MERGE => (MKCOL, 1) case MSEARCH => (MKCOL, 1)
    case MKACTIVITY => (MKCOL, 2) case MKCALENDAR => (MKCOL, 3)
    case SEARCH => (SUBSCRIBE, 1) case SOURCE => (SUBSCRIBE, 1)
    case REBIND => (REPORT, 2) case LINK => (LOCK, 1)
    case UNSUBSCRIBE => (UNLOCK, 2) case UNBIND => (UNLOCK, 2) case UNLINK => (UNLOCK, 3)
    case _ => (m, 0)
  }

  lemma OriginOfOrigin(m: Method)
    ensures Origin(m).1 > 0 ==> Origin(Origin(m).0).1 < Origin(m).1
  {}

  /** The candidate after the first `i` letters of `m`. */
  function Candidate(m: Method, i: nat): Method
    requires i > 0
    decreases Origin(m).1
  {
    OriginOfOrigin(m);
    if i > Origin(m).1 then m else Candidate(Origin(m).0, i)
  }

  /** The tables: a method shares the letters before the deciding one with its origin, and that letter selects it. */
  lemma Tables(m: Method)
    ensures var (q, b) := Origin(m);
      && b < |MethodString(m)|
      && (b == 0 ==> FirstCandidate(MethodString(m)[0]) == Some(m))
      && (b > 0 ==> b < |MethodString(q)| && MethodString(q)[b] != MethodString(m)[b])
      && (b > 0 ==> SwitchCandidate(q, b, MethodString(m)[b]) == Some(m))
  {}

  lemma SharedLetters(m: Method)
    ensures var (q, b) := Origin(m);
      b <= |MethodString(q)| && b <= |MethodString(m)| && MethodString(q)[..b] == MethodString(m)[..b]
  {
    var (q, b) := Origin(m);
    if b == 4 {
      assert "PROPFIND"[..4] == "PROPPATCH"[..4];
    }
  }

  lemma Letters(m: Method, i: nat)
    requires i < |MethodString(m)|
    ensures 'A' <= MethodString(m)[i] <= 'Z' || MethodString(m)[i] == '-'
  {}

  /** A candidate is only selected by its own deciding letter. */
  lemma Selected(c: Method, i: nat, ch: char)
    ensures SwitchCandidate(c, i, ch).Some? ==>
      var m := SwitchCandidate(c, i, ch).value;
      Origin(m) == (c, i) && i < |MethodString(m)| && MethodString(m)[i] == ch
  {
    SelectedLetter(c, i, ch);
    hide MethodString;
  }

  lemma SelectedLetter(c: Method, i: nat, ch: char)
    ensures SwitchCandidate(c, i, ch).Some? ==>
      var m := SwitchCandidate(c, i, ch).value;
      i < |MethodString(m)| && MethodString(m)[i] == ch
  {}

  lemma FirstSelected(ch: char)
    ensures FirstCandidate(ch).Some? ==>
      var m := FirstCandidate(ch).value;
      Origin(m).1 == 0 && |MethodString(m)| > 0 && MethodString(m)[0] == ch
  {}

  /** The letters read are the first ones of the candidate, so the table is read within its bounds. */
  predicate OnTrack(p: Parser, w: string) {
    && p.state.ReqMethod? && 0 < |w| == p.index <= |MethodString(p.verb)|
    && MethodString(p.verb)[..|w|] == w && Origin(p.verb).1 < |w|
  }

  lemma MethodState(p: Parser, ch: char)
    ensures p.state.ReqMethod? ==> Dispatch(p, ch) == StepReqMethod(p, ch)
    ensures p.state.StartReq? ==> Dispatch(p, ch) == StepStartReq(p, ch)
  {
    hide StepReqMethod, StepStartReq;
  }

  /** The first letter. */
  lemma FirstLetter(p: Parser, ch: char, max: nat)
    requires p.state.StartReq? && !IsBreak(ch) && p.nread < max
    ensures var r := StepByte(p, ch, max);
      match FirstCandidate(ch)
      case None => r.stop == Fail(InvalidMethod)
      case Some(m) => r.stop.Go? && OnTrack(r.p, [ch]) && r.p.verb == m && r.p.nread == p.nread + 1
                      && r.events == [Notify(MessageBegin)]
  {
    hide Dispatch, MethodString, FirstCandidate, Perform;
    var q := p.(nread := p.nread + 1);
    MethodState(q, ch);
    FirstSelected(ch);
    if FirstCandidate(ch).Some? { CallByte(p, ch, StepStartReq(q, ch), MessageBegin, max); }
  }

  /** The next letter: of the candidate, or one that selects another, or none. */
  lemma NextLetter(p: Parser, w: string, ch: char, max: nat)
    requires OnTrack(p, w) && ch != ' ' && p.nread < max
    ensures var r, i := StepByte(p, ch, max), |w|;
      var c := SwitchCandidate(p.verb, i, ch);
      if i < |MethodString(p.verb)| && MethodString(p.verb)[i] == ch then
        r.stop.Go? && OnTrack(r.p, w + [ch]) && r.p.verb == p.verb && r.p.nread == p.nread + 1 && r.events == []
      else if ('A' <= ch <= 'Z' || ch == '-') && c.Some? then
        r.stop.Go? && OnTrack(r.p, w + [ch]) && r.p.verb == c.value && r.p.nread == p.nread + 1 && r.events == []
      else r.stop == Fail(InvalidMethod)
  {
    hide Dispatch, MethodString, SwitchCandidate, Perform, FlushAll, Origin;
    var q := p.(nread := p.nread + 1);
    MethodState(q, ch);
    var i := |w|;
    if i < |MethodString(p.verb)| { Letters(p.verb, i); }
    Selected(p.verb, i, ch);
    var o := StepReqMethod(q, ch);
    if o.stop.Go? {
      QuietByte(p, ch, o.p, max);
      if o.p.verb != p.verb {
        SharedLetters(o.p.verb);
        assert MethodString(o.p.verb)[..i + 1] == MethodString(o.p.verb)[..i] + [ch];
      } else {
        assert MethodString(o.p.verb)[..i + 1] == MethodString(o.p.verb)[..i] + [MethodString(o.p.verb)[i]];
      }
    }
  }

  /** Whatever is read without a space is a prefix of the candidate, or refused. */
  lemma {:induction false} MethodPrefix(p: Parser, w: string, max: nat)
    requires p.state.StartReq? && |w| > 0 && !IsBreak(w[0]) && ' ' !in w && p.nread + |w| <= max
    ensures var r := Run(p, w, max);
      if r.stop.Go? then OnTrack(r.p, w) && r.p.nread == p.nread + |w| && r.events == [Notify(MessageBegin)]
      else r.stop == Fail(InvalidMethod)
  {
    hide StepByte, MethodString, SwitchCandidate, FirstCandidate, OnTrack;
    var init, ch := w[..|w| - 1], w[|w| - 1];
    if |w| == 1 {
      assert init == "" && Run(p, init, max) == Result(p, [], Go);
      FirstLetter(p, ch, max);
      assert w == [ch];
    } else {
      MethodPrefix(p, init, max);
      assert init + [ch] == w && ch in w;
      if Run(p, init, max).stop.Go? { NextLetter(Run(p, init, max).p, init, ch, max); }
    }
  }

  /** `i` letters of `m` have been read and the candidate is the right one. */
  ghost predicate Follows(p: Parser, m: Method, i: nat, max: nat)
    requires 0 < i <= |MethodString(m)|
  {
    var r := Run(p, MethodString(m)[..i], max);
    r.stop.Go? && OnTrack(r.p, MethodString(m)[..i]) && r.p.verb == Candidate(m, i) && r.p.nread == p.nread + i
  }

  lemma FollowsFirst(p: Parser, m: Method, max: nat)
    requires p.state.StartReq? && Origin(m).1 == 0 && |MethodString(m)| > 0 && p.nread < max
    ensures Follows(p, m, 1, max)
  {
    hide StepByte, MethodString, FirstCandidate, OnTrack, Origin;
    var w := MethodString(m);
    Tables(m);
    Letters(m, 0);
    assert w[..0] == "" && Run(p, w[..0], max) == Result(p, [], Go);
    RunSnoc(p, w[..0], w[0], max);
    FirstLetter(p, w[0], max);
    assert w[..0] + [w[0]] == w[..1] == [w[0]];
  }

  lemma FollowsNext(p: Parser, m: Method, i: nat, max: nat)
    requires 0 < i < |MethodString(m)| && Follows(p, m, i, max) && p.nread + i < max && i >= Origin(m).1
    ensures Follows(p, m, i + 1, max)
  {
    hide StepByte, MethodString, SwitchCandidate, OnTrack, Origin, Run;
    var w := MethodString(m);
    var (q, b) := Origin(m);
    Tables(m);
    Letters(m, i);
    OriginOfOrigin(m);
    assert w[..i + 1] == w[..i] + [w[i]];
    RunSnoc(p, w[..i], w[i], max);
    NextLetter(Run(p, w[..i], max).p, w[..i], w[i], max);
    if i == b { OriginCandidate(q, b); }
  }

  /** The first letters of a method lead to its candidate. */
  lemma {:induction false} MethodFollowed(p: Parser, m: Method, i: nat, max: nat)
    requires p.state.StartReq? && 0 < i <= |MethodString(m)| && p.nread + i <= max
    ensures Follows(p, m, i, max)
    decreases Origin(m).1, i
  {
    hide StepByte, MethodString, OnTrack, Origin, Run;
    var (q, b) := Origin(m);
    SharedLetters(m);
    OriginOfOrigin(m);
    if i <= b {
      assert MethodString(m)[..i] == MethodString(m)[..b][..i] == MethodString(q)[..i];
      MethodFollowed(p, q, i, max);
    } else if i == 1 {
      FollowsFirst(p, m, max);
    } else {
      MethodFollowed(p, m, i - 1, max);
      FollowsNext(p, m, i - 1, max);
    }
  }

  lemma OriginCandidate(q: Method, b: nat)
    requires b > Origin(q).1
    ensures Candidate(q, b) == q
  {}

  /** The space behind the method: it is taken where the candidate is complete. */
  lemma SpaceBehind(p: Parser, w: string, max: nat)
    requires OnTrack(p, w) && p.nread < max
    ensures var r := StepByte(p, ' ', max);
      if w == MethodString(p.verb) then r.stop.Go? && r.p.state.ReqSpacesBeforeUrl? && r.p.verb == p.verb
      else r.stop == Fail(InvalidMethod)
  {
    hide Dispatch, MethodString, SwitchCandidate, Perform, FlushAll, Origin;
    var q := p.(nread := p.nread + 1);
    MethodState(q, ' ');
    var s := MethodString(p.verb);
    assert |w| == |s| ==> s[..|s|] == s;
    if |w| < |s| { Letters(p.verb, |w|); }
    if w == s { QuietByte(p, ' ', StepReqMethod(q, ' ').p, max); }
  }

  /** If the run gets past the space, the bytes spell the method it names. */
  lemma OnlySpelled(p: Parser, w: string, max: nat)
    requires p.state.StartReq? && ' ' !in w && (w != "" ==> !IsBreak(w[0])) && p.nread + |w| + 1 <= max
    ensures var r := Run(p, w + " ", max);
      if r.stop.Go? then w == MethodString(r.p.verb) && r.p.state.ReqSpacesBeforeUrl? else r.stop == Fail(InvalidMethod)
  {
    hide StepByte, MethodString, OnTrack;
    assert (w + " ")[..|w + " "| - 1] == w;
    if w == "" {
      assert Run(p, w, max) == Result(p, [], Go);
      FirstLetter(p, ' ', max);
    } else {
      MethodPrefix(p, w, max);
      if Run(p, w, max).stop.Go? { SpaceBehind(Run(p, w, max).p, w, max); }
    }
  }

  lemma AllSpelled(p: Parser, m: Method, max: nat)
    requires p.state.StartReq? && p.nread + |MethodString(m)| + 1 <= max
    ensures Run(p, MethodString(m) + " ", max).stop.Go? && Run(p, MethodString(m) + " ", max).p.verb == m
  {
    hide StepByte, MethodString, OnTrack, Origin;
    var w := MethodString(m);
    Tables(m);
    MethodFollowed(p, m, |w|, max);
    OriginCandidate(m, |w|);
    assert w[..|w|] == w && w + [' '] == w + " ";
    RunSnoc(p, w, ' ', max);
    SpaceBehind(Run(p, w, max).p, w, max);
  }

  /** Method recognition: the bytes before the space lead to the URL with method `m` exactly when they spell `m`;
      all other bytes are refused. */
  lemma MethodRecognised(p: Parser, w: string, m: Method, max: nat)
    requires p.state.StartReq? && ' ' !in w && (w != "" ==> !IsBreak(w[0])) && p.nread + |w| + 1 <= max
    ensures var r := Run(p, w + " ", max);
      && (r.stop.Go? && r.p.state.ReqSpacesBeforeUrl? && r.p.verb == m <==> w == MethodString(m))
      && (!r.stop.Go? ==> r.stop == Fail(InvalidMethod))
  {
    hide StepByte, MethodString, Run;
    OnlySpelled(p, w, max);
    if w == MethodString(m) { AllSpelled(p, m, max); }
  }
}
