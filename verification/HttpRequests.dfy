/** The request line. */
module HttpRequests {
  import opened Basics
  import opened HttpChars
  import opened HttpTypes
  import opened HttpStep
  import opened HttpRun
  import opened HttpRelate
  import opened HttpLengths
  import opened HttpBodies
  import opened HttpHeaders
  import opened HttpLines
  import opened HttpVersions
  import opened HttpMethods
  import Url

  /** The record of a message of which only the first line has been looked at. */
  predicate Begun(p: Parser, q: Parser) {
    && q.kind == p.kind && q.flags == NO_FLAGS && !q.usesTransferEncoding && q.contentLength == ULLONG_MAX
    && q.allowChunkedLength == p.allowChunkedLength && q.statusCode == p.statusCode
  }

  // ---- The method ----

  lemma MethodByteKeeps(p: Parser, ch: char, max: nat)
    requires p.state.ReqMethod? && p.nread < max
    ensures Begun(p, p) ==> Begun(p, StepByte(p, ch, max).p)
  {
    hide Dispatch, StepByte;
    MethodState(p.(nread := p.nread + 1), ch);
    ByteRecord(p, ch, max);
    hide MethodString, SwitchCandidate;
  }

  lemma FirstByteBegins(p: Parser, ch: char, max: nat)
    requires p.state.StartReq? && !IsBreak(ch) && p.nread < max
    ensures Begun(p, StepByte(p, ch, max).p)
  {
    hide Dispatch, StepByte;
    MethodState(p.(nread := p.nread + 1), ch);
    ByteRecord(p, ch, max);
    hide FirstCandidate;
  }

  lemma {:induction false} MethodBegins(p: Parser, w: string, max: nat)
    requires p.state.StartReq? && |w| > 0 && !IsBreak(w[0]) && ' ' !in w && p.nread + |w| <= max
    ensures Run(p, w, max).stop.Go? ==> Begun(p, Run(p, w, max).p)
  {
    hide StepByte, OnTrack;
    var init, ch := w[..|w| - 1], w[|w| - 1];
    if |w| == 1 {
      assert init == "" && Run(p, init, max) == Result(p, [], Go);
      FirstByteBegins(p, ch, max);
    } else {
      assert ' ' !in init;
      MethodBegins(p, init, max);
      MethodPrefix(p, init, max);
      if Run(p, init, max).stop.Go? {
        TrackState(Run(p, init, max).p, init);
        MethodByteKeeps(Run(p, init, max).p, ch, max);
      }
    }
  }

  lemma TrackState(p: Parser, w: string)
    requires OnTrack(p, w)
    ensures p.state.ReqMethod?
  {
    hide MethodString;
  }

  /** A method and a space. */
  lemma MethodRead(p: Parser, m: Method, max: nat)
    requires p.state.StartReq? && p.nread + |MethodString(m)| + 1 <= max
    ensures var r := Run(p, MethodString(m) + " ", max);
      && r.stop.Go? && r.p.state.ReqSpacesBeforeUrl? && r.p.verb == m && Begun(p, r.p)
      && r.p.nread == p.nread + |MethodString(m)| + 1 && r.events == [Notify(MessageBegin)]
  {
    hide StepByte, MethodString, OnTrack;
    var w := MethodString(m);
    LettersOnly(m);
    AllSpelled(p, m, max);
    OnlySpelled(p, w, max);
    MethodPrefix(p, w, max);
    MethodBegins(p, w, max);
    assert w + [' '] == w + " " && (w + " ")[..|w + " "| - 1] == w;
    if Run(p, w, max).stop.Go? {
      RunSnoc(p, w, ' ', max);
      TrackState(Run(p, w, max).p, w);
      SpaceBehind(Run(p, w, max).p, w, max);
      MethodByteKeeps(Run(p, w, max).p, ' ', max);
      SpaceRecord(Run(p, w, max).p, w, max);
    }
  }

  lemma SpaceRecord(p: Parser, w: string, max: nat)
    requires OnTrack(p, w) && w == MethodString(p.verb) && p.nread < max
    ensures StepByte(p, ' ', max).events == [] && StepByte(p, ' ', max).p.nread == p.nread + 1
  {
    hide Dispatch, StepByte;
    var q := p.(nread := p.nread + 1);
    MethodState(q, ' ');
    QuietByte(p, ' ', StepReqMethod(q, ' ').p, max);
    hide MethodString;
  }

  lemma LettersOnly(m: Method)
    ensures ' ' !in MethodString(m) && !IsBreak(MethodString(m)[0])
  {
    forall i: nat | i < |MethodString(m)| ensures MethodString(m)[i] != ' ' && !IsBreak(MethodString(m)[i]) {
      Letters(m, i);
    }
    hide MethodString;
  }

  // ---- The URL ----

  /** The bytes that cannot be part of a URL in a request line. */
  predicate NoSpace(url: string) {
    forall i | 0 <= i < |url| :: url[i] != ' ' && !IsBreak(url[i])
  }

  /** States in which the URL may end. */
  predicate MayEnd(s: State) {
    || s.ReqServer? || s.ReqServerWithAt? || s.ReqPath? || s.ReqQueryStringStart? || s.ReqQueryString?
    || s.ReqFragmentStart? || s.ReqFragment?
  }

  lemma UrlHandlers(p: Parser, ch: char)
    ensures p.state.ReqSpacesBeforeUrl? ==> Dispatch(p, ch) == StepSpacesBeforeUrl(p, ch)
    ensures MayEnd(p.state) ==> Dispatch(p, ch) == StepUrlTail(p, ch)
    ensures EntryMark(p.state) == On(DataKind.Url) && !MayEnd(p.state) ==> Dispatch(p, ch) == StepUrlHead(p, ch)
  {
    hide StepSpacesBeforeUrl, StepUrlTail, StepUrlHead;
  }

  /** The state from which the automaton goes on. */
  function UrlFrom(p: Parser): State {
    if p.state.ReqSpacesBeforeUrl? && p.verb.CONNECT? then ReqServerStart else p.state
  }

  lemma UrlByte(p: Parser, ch: char, max: nat)
    requires (p.state.ReqSpacesBeforeUrl? || EntryMark(p.state) == On(DataKind.Url)) && p.nread < max && ch != ' ' && !IsBreak(ch)
    ensures var s, r := ParseUrlChar(UrlFrom(p), ch), StepByte(p, ch, max);
      if s.Dead? then r.stop == Fail(InvalidUrl)
      else r == Result(p.(state := s, nread := p.nread + 1), [Data(DataKind.Url, [ch])], Go)
  {
    hide Dispatch, StepByte, ParseUrlChar;
    var q, s := p.(nread := p.nread + 1), ParseUrlChar(UrlFrom(p), ch);
    UrlHandlers(q, ch);
    ByteRecord(p, ch, max);
    UrlParsing(p.state);
    if !s.Dead? {
      TextByte(p, ch, q.(state := s), DataKind.Url, if p.state.ReqSpacesBeforeUrl? then [SetMark(DataKind.Url)] else [], max);
    }
  }

  lemma UrlParsing(s: State)
    ensures s.ReqSpacesBeforeUrl? || EntryMark(s) == On(DataKind.Url) ==> ParsingHeader(s)
  {}

  lemma UrlMark(s: State, ch: char)
    ensures var s' := ParseUrlChar(s, ch); s'.Dead? || (EntryMark(s') == On(DataKind.Url) && !s'.ReqSpacesBeforeUrl?)
  {}

  /** What reading `url` from `p` comes to, when the automaton of the splitter cuts it into `cut`. */
  ghost predicate UrlOutcome(p: Parser, url: string, cut: Option<Url.Pieces>, r: Result) {
    match cut
    case None => r.stop == Fail(InvalidUrl)
    case Some(t) =>
      && r.stop.Go? && r.p == p.(state := Url.StateOf(t, p.verb.CONNECT?), nread := p.nread + |url|)
      && EntryMark(r.p.state) == On(DataKind.Url) && Merge(r.events) == [Data(DataKind.Url, url)]
  }

  lemma UrlFirst(p: Parser, ch: char, max: nat)
    requires p.state.ReqSpacesBeforeUrl? && ch != ' ' && !IsBreak(ch) && p.nread < max
    ensures UrlOutcome(p, [ch], Url.Split([ch], p.verb.CONNECT?), Run(p, [ch], max))
  {
    hide StepByte, Merge, Run, ParseUrlChar, Url.StateOf, Url.Extend, Url.Split;
    var connect := p.verb.CONNECT?;
    assert [ch][..|[ch]| - 1] == "";
    OneByteRun(p, ch, max);
    NothingState(connect);
    UrlByte(p, ch, max);
    UrlMark(UrlFrom(p), ch);
    Next([ch], connect);
    MergeNothing();
    MergeOne([], Data(DataKind.Url, [ch]));
    assert [] + [Data(DataKind.Url, [ch])] == [Data(DataKind.Url, [ch])];
  }

  lemma UrlNext(p: Parser, init: string, ch: char, max: nat)
    requires p.state.ReqSpacesBeforeUrl? && ch != ' ' && !IsBreak(ch) && p.nread + |init| < max
    requires UrlOutcome(p, init, Url.Split(init, p.verb.CONNECT?), Run(p, init, max)) && Run(p, init, max).stop.Go?
    ensures UrlOutcome(p, init + [ch], Url.Split(init + [ch], p.verb.CONNECT?), Run(p, init + [ch], max))
  {
    hide StepByte, Merge, Run, ParseUrlChar, Url.StateOf, Url.Extend, Url.Split;
    var r := Run(p, init, max);
    assert (init + [ch])[..|init + [ch]| - 1] == init;
    RunSnoc(p, init, ch, max);
    UrlByte(r.p, ch, max);
    UrlMark(r.p.state, ch);
    Next(init + [ch], p.verb.CONNECT?);
    MergeOne(r.events, Data(DataKind.Url, [ch]));
  }

  /** The URL of the request line is read by the automaton of the splitter: it is refused iff that cuts it nowhere. */
  lemma {:induction false} UrlRead(p: Parser, url: string, max: nat)
    requires p.state.ReqSpacesBeforeUrl? && url != "" && NoSpace(url) && p.nread + |url| <= max
    ensures UrlOutcome(p, url, Url.Split(url, p.verb.CONNECT?), Run(p, url, max))
  {
    hide StepByte, Merge, ParseUrlChar, Url.StateOf, Url.Extend;
    var init, ch := url[..|url| - 1], url[|url| - 1];
    if |url| == 1 {
      assert url == [ch];
      UrlFirst(p, ch, max);
    } else {
      assert NoSpace(init) && init + [ch] == url;
      UrlRead(p, init, max);
      if Run(p, init, max).stop.Go? { UrlNext(p, init, ch, max); } else { Next(url, p.verb.CONNECT?); }
    }
  }

  lemma NothingState(connect: bool)
    ensures Url.StateOf(Url.NOTHING, connect) == if connect then ReqServerStart else ReqSpacesBeforeUrl
  {}

  /** One byte of the cut. */
  lemma Next(url: string, connect: bool)
    requires url != ""
    ensures var before, ch := Url.Split(url[..|url| - 1], connect), url[|url| - 1];
      before.Some? ==>
        var s := ParseUrlChar(Url.StateOf(before.value, connect), ch);
        if s.Dead? then Url.Split(url, connect).None?
        else Url.Split(url, connect).Some? && Url.StateOf(Url.Split(url, connect).value, connect) == s
    ensures Url.Split(url[..|url| - 1], connect).None? ==> Url.Split(url, connect).None?
    ensures Url.Split("", connect) == Some(Url.NOTHING)
  {
    var init, ch := url[..|url| - 1], url[|url| - 1];
    if Url.Split(init, connect).Some? {
      Url.SplitPrints(init, connect);
      Url.ExtendLawful(Url.Split(init, connect).value, connect, ch);
    }
    hide Url.Lawful, Url.StateOf, Url.Extend, ParseUrlChar, Url.Print;
  }

  // ---- The rest of the line ----

  lemma UrlEnds(p: Parser, max: nat)
    requires MayEnd(p.state) && p.nread < max
    ensures StepByte(p, ' ', max) == Result(p.(state := ReqHttpStart, nread := p.nread + 1), [Data(DataKind.Url, "")], Go)
  {
    hide Dispatch, Perform;
    UrlHandlers(p.(nread := p.nread + 1), ' ');
    PerformOne(Flush(DataKind.Url), MarksOf(On(DataKind.Url), 0), " ", 0);
    FlushAllPiece(NoMark, 0, " ");
    assert " "[0..0] == "" && map[Url := 0] - {Url} == map[];
    assert [Data(DataKind.Url, "")] + [] == [Data(DataKind.Url, "")];
  }

  /** What stands behind the URL: a version with one digit on each side, or none, as in version 0.9. The method SOURCE may be
      followed by another word. */
  datatype Version = NoVersion(eol: string) | Version(sp: string, ice: bool, major: char, minor: char, eol: string)

  const ICE_WORD := "ICE/"

  function HttpWord(ice: bool): string { if ice then ICE_WORD else HTTP_WORD }

  function VersionText(v: Version): string {
    match v
    case NoVersion(e) => e
    case Version(sp, ice, a, b, e) => " " + sp + (HttpWord(ice) + ([a, '.'] + [b] + e))
  }

  predicate IsVersion(v: Version, m: Method) {
    IsEol(v.eol) && (v.Version? ==> Spaces(v.sp) && IsNum(v.major) && IsNum(v.minor) && (v.ice ==> m.SOURCE?))
  }

  function MajorOf(v: Version): nat { if v.Version? && IsNum(v.major) then Digit(v.major) else 0 }

  function MinorOf(v: Version): nat { if v.Version? && IsNum(v.minor) then Digit(v.minor) else if v.Version? then 0 else 9 }

  /** A request line. */
  function RequestLine(m: Method, sp: string, url: string, v: Version): string {
    MethodString(m) + " " + (sp + (url + VersionText(v)))
  }

  lemma IceByte(p: Parser, max: nat)
    requires p.state.ReqHttpStart? && p.verb.SOURCE? && p.nread < max
    ensures StepByte(p, 'I', max) == Result(p.(state := ReqHttpI, nread := p.nread + 1), [], Go)
  {
    hide Dispatch, StepByte;
    RequestHandlers(p.(nread := p.nread + 1), 'I');
    QuietByte(p, 'I', p.(state := ReqHttpI, nread := p.nread + 1), max);
  }

  lemma WordRead(p: Parser, ice: bool, max: nat)
    requires p.state.ReqHttpStart? && p.nread + |HttpWord(ice)| <= max && (ice ==> p.verb.SOURCE?)
    ensures Run(p, HttpWord(ice), max) == Result(p.(state := ReqHttpMajor, nread := p.nread + |HttpWord(ice)|), [], Go)
  {
    hide StepByte, Run, Walks;
    WordsWalk();
    if ice {
      IceByte(p, max);
      FirstThenWalk(p, 'I', "CE/", p.(state := ReqHttpI, nread := p.nread + 1), max);
      assert "I" + "CE/" == ICE_WORD;
    } else {
      WalkByte(p, 'H', max);
      FirstThenWalk(p, 'H', "TTP/", p.(state := ReqHttpH, nread := p.nread + 1), max);
      assert "H" + "TTP/" == HTTP_WORD;
    }
  }

  lemma FirstThenWalk(p: Parser, ch: char, t: string, q: Parser, max: nat)
    requires StepByte(p, ch, max) == Result(q, [], Go) && !Walks(q.state, t).Dead? && q.nread + |t| <= max
    ensures Run(p, [ch] + t, max) == Result(q.(state := Walks(q.state, t), nread := q.nread + |t|), [], Go)
  {
    hide StepByte, Run, Walks;
    OneByteRun(p, ch, max);
    WalkRun(q, t, max);
    QuietAppend(p, [ch], t, q, q.(state := Walks(q.state, t), nread := q.nread + |t|), max);
  }

  lemma NumbersRead(p: Parser, a: char, b: char, e: string, max: nat)
    requires p.state.ReqHttpMajor? && IsEol(e) && p.nread + 3 + |e| <= max && IsNum(a) && IsNum(b)
    ensures Run(p, [a, '.'] + [b] + e, max)
      == Result(p.(httpMajor := Digit(a), httpMinor := Digit(b), state := HeaderFieldStart, nread := p.nread + 3 + |e|), [], Go)
  {
    hide StepByte, Run, Walks;
    var y := p.(httpMajor := Digit(a), httpMinor := Digit(b), state := ReqHttpEnd, nread := p.nread + 3);
    VersionRead(p, a, b, max);
    WordsWalk();
    WalkRun(y, e, max);
    QuietAppend(p, [a, '.'] + [b], e, y, y.(state := HeaderFieldStart, nread := p.nread + 3 + |e|), max);
  }

  lemma SpacedRead(p: Parser, v: Version, max: nat)
    requires p.state.ReqHttpStart? && v.Version? && IsVersion(v, p.verb) && p.nread + |VersionText(v)| - 1 <= max
    ensures Run(p, v.sp + (HttpWord(v.ice) + ([v.major, '.'] + [v.minor] + v.eol)), max)
      == Result(p.(httpMajor := Digit(v.major), httpMinor := Digit(v.minor), state := HeaderFieldStart,
                   nread := p.nread + |VersionText(v)| - 1), [], Go)
  {
    hide StepByte, Run, Walks, Spaces;
    var q := p.(nread := p.nread + |v.sp|);
    var r := q.(state := ReqHttpMajor, nread := q.nread + |HttpWord(v.ice)|);
    var digits := [v.major, '.'] + [v.minor] + v.eol;
    SpacesWalk(ReqHttpStart, v.sp);
    WalkRun(p, v.sp, max);
    WordRead(q, v.ice, max);
    NumbersRead(r, v.major, v.minor, v.eol, max);
    var end := r.(httpMajor := Digit(v.major), httpMinor := Digit(v.minor), state := HeaderFieldStart, nread := r.nread + |digits|);
    QuietAppend(q, HttpWord(v.ice), digits, r, end, max);
    QuietAppend(p, v.sp, HttpWord(v.ice) + digits, q, end, max);
  }

  /** A URL may be the last thing in its line. */
  lemma UrlEndsLine(p: Parser, e: string, max: nat)
    requires MayEnd(p.state) && IsEol(e) && p.nread + |e| <= max
    ensures Run(p, e, max)
      == Result(p.(httpMajor := 0, httpMinor := 9, state := HeaderFieldStart, nread := p.nread + |e|), [Data(DataKind.Url, "")], Go)
  {
    hide Dispatch, StepByte, Run, MayEnd, Walks;
    WordsWalk();
    var q := p.(httpMajor := 0, httpMinor := 9, nread := p.nread + 1);
    UrlBreak(p, e[0], max);
    OneByteRun(p, e[0], max);
    if e == CRLF {
      assert ['\r'] + LF == CRLF;
      var a := q.(state := ReqLineAlmostDone);
      WalkRun(a, LF, max);
      RunAppend(p, ['\r'], LF, max);
      assert [Data(DataKind.Url, "")] + [] == [Data(DataKind.Url, "")];
    }
  }

  lemma UrlBreak(p: Parser, ch: char, max: nat)
    requires MayEnd(p.state) && IsBreak(ch) && p.nread < max
    ensures StepByte(p, ch, max)
      == Result(p.(httpMajor := 0, httpMinor := 9, state := if ch == '\r' then ReqLineAlmostDone else HeaderFieldStart,
                   nread := p.nread + 1), [Data(DataKind.Url, "")], Go)
  {
    hide Dispatch, Perform;
    UrlHandlers(p.(nread := p.nread + 1), ch);
    PerformOne(Flush(DataKind.Url), MarksOf(On(DataKind.Url), 0), [ch], 0);
    FlushAllPiece(NoMark, 0, [ch]);
    assert [ch][0..0] == "" && map[Url := 0] - {Url} == map[];
    assert [Data(DataKind.Url, "")] + [] == [Data(DataKind.Url, "")];
  }

  lemma LineTailRead(p: Parser, v: Version, max: nat)
    requires MayEnd(p.state) && IsVersion(v, p.verb) && p.nread + |VersionText(v)| <= max
    ensures Run(p, VersionText(v), max)
      == Result(p.(httpMajor := MajorOf(v), httpMinor := MinorOf(v), state := HeaderFieldStart,
                   nread := p.nread + |VersionText(v)|), [Data(DataKind.Url, "")], Go)
  {
    hide StepByte, Run, MayEnd, Spaces;
    match v
    case NoVersion(e) => UrlEndsLine(p, e, max);
    case Version(_, _, _, _, _) => SpaceAndVersion(p, v, max);
  }

  lemma SpaceAndVersion(p: Parser, v: Version, max: nat)
    requires MayEnd(p.state) && v.Version? && IsVersion(v, p.verb) && p.nread + |VersionText(v)| <= max
    ensures Run(p, VersionText(v), max)
      == Result(p.(httpMajor := Digit(v.major), httpMinor := Digit(v.minor), state := HeaderFieldStart,
                   nread := p.nread + |VersionText(v)|), [Data(DataKind.Url, "")], Go)
  {
    hide StepByte, Run, MayEnd, Spaces, IsEol;
    var q := p.(state := ReqHttpStart, nread := p.nread + 1);
    var rest := v.sp + (HttpWord(v.ice) + ([v.major, '.'] + [v.minor] + v.eol));
    UrlEnds(p, max);
    OneByteRun(p, ' ', max);
    assert " " + rest == VersionText(v);
    SpacedRead(q, v, max);
    RunAppend(p, " ", rest, max);
    assert [Data(DataKind.Url, "")] + [] == [Data(DataKind.Url, "")];
  }

  lemma UrlReport(es: seq<Event>, url: string)
    requires Merge(es) == [Data(DataKind.Url, url)]
    ensures Merge([Notify(MessageBegin)] + es + [Data(DataKind.Url, "")]) == [Notify(MessageBegin), Data(DataKind.Url, url)]
  {
    MergeOne(es, Data(DataKind.Url, ""));
    assert url + "" == url;
    MergeNothing();
    MergeOne([], Notify(MessageBegin));
    assert [] + [Notify(MessageBegin)] == [Notify(MessageBegin)];
    MergeBehindSignal([Notify(MessageBegin)], es + [Data(DataKind.Url, "")]);
    assert [Notify(MessageBegin)] + es + [Data(DataKind.Url, "")] == [Notify(MessageBegin)] + (es + [Data(DataKind.Url, "")]);
  }

  /** The request line is accepted iff its URL is cut by the automaton of the splitter and may end there; then the record
      knows method and version and waits for headers, and the URL has been handed over whole. */
  lemma RequestLineRead(p: Parser, m: Method, sp: string, url: string, v: Version, max: nat)
    requires p.state.StartReq? && Spaces(sp) && url != "" && NoSpace(url) && IsVersion(v, m)
    requires p.nread + |RequestLine(m, sp, url, v)| <= max
    ensures var r, cut := Run(p, RequestLine(m, sp, url, v), max), Url.Split(url, m.CONNECT?);
      if cut.Some? && MayEnd(Url.StateOf(cut.value, m.CONNECT?)) then
        && r.stop.Go? && r.p.state.HeaderFieldStart? && r.p.verb == m && Begun(p, r.p)
        && r.p.httpMajor == MajorOf(v) && r.p.httpMinor == MinorOf(v) && r.p.nread == p.nread + |RequestLine(m, sp, url, v)|
        && Merge(r.events) == [Notify(MessageBegin), Data(DataKind.Url, url)]
      else r.stop == Fail(InvalidUrl)
  {
    hide StepByte, Run, Merge, MayEnd, MethodString, NoSpace, Url.Split, Url.StateOf, Spaces, Walks, VersionText, IsVersion;
    var head, tail := MethodString(m) + " ", VersionText(v);
    MethodRead(p, m, max);
    var q := Run(p, head, max).p;
    SpacesWalk(ReqSpacesBeforeUrl, sp);
    WalkRun(q, sp, max);
    var w := q.(nread := q.nread + |sp|);
    UrlRead(w, url, max);
    RunAppend(p, head, sp + (url + tail), max);
    RunAppend(q, sp, url + tail, max);
    RunAppend(w, url, tail, max);
    var u := Run(w, url, max);
    if u.stop.Go? {
      if MayEnd(u.p.state) {
        LineTailRead(u.p, v, max);
        UrlReport(u.events, url);
        LineReports(u.events, url);
      } else {
        VersionBegins(v, m);
        UrlStops(u.p, tail, max);
      }
    }
  }

  lemma LineReports(es: seq<Event>, url: string)
    ensures [Notify(MessageBegin)] + ([] + (es + [Data(DataKind.Url, "")])) == [Notify(MessageBegin)] + es + [Data(DataKind.Url, "")]
  {}

  lemma VersionBegins(v: Version, m: Method)
    requires IsVersion(v, m)
    ensures VersionText(v) != "" && (VersionText(v)[0] == ' ' || IsBreak(VersionText(v)[0]))
  {}

  /** Where the URL may not end, neither a space nor a line end is accepted behind it. */
  lemma UrlStops(p: Parser, rest: string, max: nat)
    requires EntryMark(p.state) == On(DataKind.Url) && !MayEnd(p.state) && p.nread < max
    requires rest != "" && (rest[0] == ' ' || IsBreak(rest[0]))
    ensures Run(p, rest, max).stop == Fail(InvalidUrl)
  {
    hide StepByte, Run, Dispatch;
    UrlHandlers(p.(nread := p.nread + 1), rest[0]);
    UrlParsing(p.state);
    ByteRecord(p, rest[0], max);
    OneByteRun(p, rest[0], max);
    assert [rest[0]] + rest[1..] == rest;
    RunAppend(p, [rest[0]], rest[1..], max);
  }
}
