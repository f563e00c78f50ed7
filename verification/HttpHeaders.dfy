/** Recognising the headers that decide how a message is framed. */
module HttpHeaders {
  import opened HttpChars
  import opened HttpTypes
  import opened HttpStep
  import opened HttpRun

  // ---- Names ----

  predicate IsName(w: string) {
    forall i | 0 <= i < |w| :: Token(w[i]) != '\0'
  }

  /** A name with its letters in lower case. */
  function Folded(w: string): string {
    seq(|w|, i requires 0 <= i < |w| => Token(w[i]))
  }

  /** No header that matters has a name that begins with `low`. */
  predicate Unknown(low: string) {
    && !(low <= CONNECTION) && !(low <= PROXY_CONNECTION) && !(low <= CONTENT_LENGTH)
    && !(low <= TRANSFER_ENCODING) && !(low <= UPGRADE)
  }

  /** `low` is a proper beginning of `name`, and `i` the index of its last letter. */
  predicate Begins(low: string, name: string, i: nat) {
    |low| < |name| && low <= name && i + 1 == |low|
  }

  /** What a header state says about the name read so far. */
  predicate Named(h: HeaderState, i: nat, low: string) {
    match h
    case General => Unknown(low)
    case C => low == "c" && i == 0
    case CO => low == "co" && i == 1
    case CON => low == "con" && i == 2
    case MatchingConnection => |low| > 3 && Begins(low, CONNECTION, i)
    case MatchingContentLength => |low| > 3 && Begins(low, CONTENT_LENGTH, i)
    case MatchingProxyConnection => |low| > 0 && Begins(low, PROXY_CONNECTION, i)
    case MatchingTransferEncoding => |low| > 0 && Begins(low, TRANSFER_ENCODING, i)
    case MatchingUpgrade => |low| > 0 && Begins(low, UPGRADE, i)
    case Connection => low == CONNECTION || low == PROXY_CONNECTION
    case ContentLength => low == CONTENT_LENGTH
    case TransferEncoding => low == TRANSFER_ENCODING
    case Upgrade => low == UPGRADE
    case _ => false
  }

  lemma BeginsMore(low: string, c: char, name: string)
    ensures low + [c] <= name <==> low <= name && |low| < |name| && name[|low|] == c
  {}

  lemma MatchNamed(low: string, name: string, i: nat, c: char, matching: HeaderState, found: HeaderState)
    requires Begins(low, name, i) && c != '\0' && matching != found && matching != General && found != General
    ensures var h := MatchName(name, i + 1, c, matching, General, found);
      && (h == matching ==> Begins(low + [c], name, i + 1))
      && (h == found ==> low + [c] == name)
      && (h == General ==> !(low + [c] <= name))
      && (h == matching || h == found || h == General)
  {
    BeginsMore(low, c, name);
  }

  /** Letters that belong to one name do not begin another that differs from it early on. */
  lemma Apart(low: string, c: char, a: string, b: string, n: nat)
    requires low <= a && n < |low| && n < |b| && a[n] != b[n]
    ensures !(low + [c] <= b)
  {}

  /** Reading on in `name` keeps the other names away. */
  lemma OthersApart(low: string, c: char, name: string)
    requires |low| > 0 && low <= name && !(low + [c] <= name)
    requires (name == CONNECTION && |low| > 3) || name == PROXY_CONNECTION || (name == CONTENT_LENGTH && |low| > 3)
      || name == TRANSFER_ENCODING || name == UPGRADE
    ensures Unknown(low + [c])
  {
    if name != CONNECTION { Apart(low, c, name, CONNECTION, if name == CONTENT_LENGTH then 3 else 0); }
    if name != CONTENT_LENGTH { Apart(low, c, name, CONTENT_LENGTH, if name == CONNECTION then 3 else 0); }
    if name != PROXY_CONNECTION { Apart(low, c, name, PROXY_CONNECTION, 0); }
    if name != TRANSFER_ENCODING { Apart(low, c, name, TRANSFER_ENCODING, 0); }
    if name != UPGRADE { Apart(low, c, name, UPGRADE, 0); }
  }

  /** The first letters of `connection` and `content-length` are the same. */
  lemma EarlyStep(h: HeaderState, i: nat, low: string, c: char, ch: char)
    requires Named(h, i, low) && (h.C? || h.CO? || h.CON?)
    ensures Named(FieldChar(h, i + 1, c, ch), i + 1, low + [c])
  {
    BeginsMore(low, c, CONNECTION);
    BeginsMore(low, c, CONTENT_LENGTH);
    assert low == CONNECTION[..|low|];
    Apart(low, c, CONNECTION, PROXY_CONNECTION, 0);
    Apart(low, c, CONNECTION, TRANSFER_ENCODING, 0);
    Apart(low, c, CONNECTION, UPGRADE, 0);
    hide MatchName;
  }

  lemma MatchStep(h: HeaderState, i: nat, low: string, c: char, ch: char, name: string, found: HeaderState)
    requires Named(h, i, low) && c != '\0'
    requires match h
             case MatchingConnection => name == CONNECTION && found.Connection?
             case MatchingProxyConnection => name == PROXY_CONNECTION && found.Connection?
             case MatchingContentLength => name == CONTENT_LENGTH && found.ContentLength?
             case MatchingTransferEncoding => name == TRANSFER_ENCODING && found.TransferEncoding?
             case MatchingUpgrade => name == UPGRADE && found.Upgrade?
             case _ => false
    ensures Named(FieldChar(h, i + 1, c, ch), i + 1, low + [c])
  {
    MatchNamed(low, name, i, c, h, found);
    assert FieldChar(h, i + 1, c, ch) == MatchName(name, i + 1, c, h, General, found);
    if FieldChar(h, i + 1, c, ch).General? { OthersApart(low, c, name); }
    hide MatchName, FieldChar, Unknown;
  }

  /** A longer name than a known one is not known. */
  lemma LongerStep(h: HeaderState, i: nat, low: string, c: char)
    requires Named(h, i, low) && (h.General? || h.Connection? || h.ContentLength? || h.TransferEncoding? || h.Upgrade?)
    ensures forall ch :: ch != ' ' ==> FieldChar(h, i, c, ch).General? && Named(FieldChar(h, i, c, ch), i, low + [c])
  {
    if h.General? {
      Shorter(low, c, CONNECTION);
      Shorter(low, c, PROXY_CONNECTION);
      Shorter(low, c, CONTENT_LENGTH);
      Shorter(low, c, TRANSFER_ENCODING);
      Shorter(low, c, UPGRADE);
    } else {
      OthersApart(low, c, low);
    }
  }

  lemma Shorter(low: string, c: char, name: string)
    ensures low + [c] <= name ==> low <= name
  {
    BeginsMore(low, c, name);
  }

  lemma NamedIndex(h: HeaderState, i: nat, low: string)
    requires Named(h, i, low)
    ensures CountsIndex(h) ==> i < 17 && Inc(i) == i + 1
    ensures IsFieldState(h)
    ensures CountsIndex(h) || h.General? || h.Connection? || h.ContentLength? || h.TransferEncoding? || h.Upgrade?
  {}

  /** One more letter of a name of which the letters are counted. */
  lemma CountedStep(h: HeaderState, i: nat, low: string, c: char, ch: char)
    requires Named(h, i, low) && CountsIndex(h) && c != '\0'
    ensures Named(FieldChar(h, i + 1, c, ch), i + 1, low + [c])
  {
    hide FieldChar, Named;
    match h
    case C => EarlyStep(h, i, low, c, ch);
    case CO => EarlyStep(h, i, low, c, ch);
    case CON => EarlyStep(h, i, low, c, ch);
    case MatchingConnection => MatchStep(h, i, low, c, ch, CONNECTION, Connection);
    case MatchingProxyConnection => MatchStep(h, i, low, c, ch, PROXY_CONNECTION, Connection);
    case MatchingContentLength => MatchStep(h, i, low, c, ch, CONTENT_LENGTH, ContentLength);
    case MatchingTransferEncoding => MatchStep(h, i, low, c, ch, TRANSFER_ENCODING, TransferEncoding);
    case MatchingUpgrade => MatchStep(h, i, low, c, ch, UPGRADE, Upgrade);
  }

  /** One more letter of a name. */
  lemma NameStep(h: HeaderState, i: nat, low: string, ch: char)
    requires Named(h, i, low) && Token(ch) != '\0'
    ensures IsFieldState(h)
    ensures var i' := if CountsIndex(h) then Inc(i) else i;
      Named(FieldChar(h, i', Token(ch), ch), i', low + [Token(ch)])
  {
    TokenOf(ch);
    NamedIndex(h, i, low);
    hide Token, FieldChar, Named, CountsIndex, IsFieldState, Inc;
    if CountsIndex(h) { CountedStep(h, i, low, Token(ch), ch); } else { LongerStep(h, i, low, Token(ch)); }
  }

  /** Reading a header's name or value leaves the rest of the record alone. */
  predicate SameMessage(p: Parser, q: Parser) {
    && q.kind == p.kind && q.flags == p.flags && q.verb == p.verb && q.statusCode == p.statusCode && q.upgrade == p.upgrade
    && q.contentLength == p.contentLength && q.allowChunkedLength == p.allowChunkedLength
    && q.httpMajor == p.httpMajor && q.httpMinor == p.httpMinor
  }

  lemma NameStates(p: Parser, ch: char)
    ensures p.state.HeaderFieldStart? ==> Dispatch(p, ch) == StepHeaderFieldStart(p, ch)
    ensures p.state.HeaderField? ==> Dispatch(p, ch) == StepHeaderField(p, ch)
  {
    hide StepHeaderFieldStart, StepHeaderField;
  }

  /** A record inside a header name of which `low`, in lower case, has been read. */
  predicate InName(p: Parser, low: string) {
    p.state.HeaderField? && Named(p.headerState, p.index, low)
  }

  lemma FirstOfName(p: Parser, ch: char, max: nat)
    requires p.state.HeaderFieldStart? && Token(ch) != '\0' && p.nread < max
    ensures var r := StepByte(p, ch, max);
      && r.stop.Go? && InName(r.p, [Token(ch)]) && r.p.nread == p.nread + 1
      && r.p.usesTransferEncoding == p.usesTransferEncoding && SameMessage(p, r.p)
  {
    hide Dispatch, Perform, FlushAll, Token;
    NameStates(p.(nread := p.nread + 1), ch);
    TokenOf(ch);
    if Token(ch) !in {'c', 'p', 't', 'u'} { FirstUnknown(Token(ch)); }
  }

  lemma FirstUnknown(c: char)
    requires c !in {'c', 'p', 't', 'u'}
    ensures Unknown([c])
  {
    assert "" + [c] == [c];
    BeginsMore("", c, CONNECTION);
    BeginsMore("", c, PROXY_CONNECTION);
    BeginsMore("", c, CONTENT_LENGTH);
    BeginsMore("", c, TRANSFER_ENCODING);
    BeginsMore("", c, UPGRADE);
  }

  lemma TokenOf(ch: char)
    ensures Token('\r') == Token('\n') == Token(' ') == '\0'
  {}

  lemma CompletesName(h: HeaderState, i: nat, low: string, ch: char)
    requires Named(h, i, low) && Token(ch) != '\0'
    ensures var i' := if CountsIndex(h) then Inc(i) else i;
      (h.MatchingTransferEncoding? && FieldChar(h, i', Token(ch), ch).TransferEncoding?) <==> low + [Token(ch)] == TRANSFER_ENCODING
  {
    NameStep(h, i, low, ch);
    if low + [Token(ch)] == TRANSFER_ENCODING {
      assert low == TRANSFER_ENCODING[..|low|] && |low| == 16;
      assert low <= TRANSFER_ENCODING;
    }
    hide Token, FieldChar;
  }

  lemma NextOfName(p: Parser, low: string, ch: char, max: nat)
    requires InName(p, low) && Token(ch) != '\0' && p.nread < max
    ensures var r := StepByte(p, ch, max);
      && r.stop.Go? && r.p.state.HeaderField? && Named(r.p.headerState, r.p.index, low + [Token(ch)])
      && r.p.nread == p.nread + 1 && SameMessage(p, r.p)
      && (r.p.usesTransferEncoding <==> p.usesTransferEncoding || low + [Token(ch)] == TRANSFER_ENCODING)
  {
    hide Dispatch, Perform, FlushAll, Token, FieldChar, Named;
    NameStates(p.(nread := p.nread + 1), ch);
    NameStep(p.headerState, p.index, low, ch);
    CompletesName(p.headerState, p.index, low, ch);
  }

  /** Which states a whole name leads to. */
  lemma NamedExactly(h: HeaderState, i: nat, low: string)
    requires Named(h, i, low)
    ensures h.Connection? <==> low == CONNECTION || low == PROXY_CONNECTION
    ensures h.ContentLength? <==> low == CONTENT_LENGTH
    ensures h.TransferEncoding? <==> low == TRANSFER_ENCODING
    ensures h.Upgrade? <==> low == UPGRADE
  {
    if low == CONNECTION || low == PROXY_CONNECTION || low == CONTENT_LENGTH || low == TRANSFER_ENCODING || low == UPGRADE {
      assert low <= low;
      assert low[0] in {'c', 'p', 't', 'u'};
      assert low[0] == 'c' ==> low[3] in {'n', 't'};
    }
  }

  /** Header names are recognised whatever the case of their letters, each exactly when it is spelled out in full; but the
      flag for transfer codings is set by every name that begins with `transfer-encoding`. */
  lemma {:induction false} NameRecognised(p: Parser, w: string, max: nat)
    requires p.state.HeaderFieldStart? && w != "" && IsName(w) && p.nread + |w| <= max
    ensures var r := Run(p, w, max);
      && r.stop.Go? && InName(r.p, Folded(w)) && r.p.nread == p.nread + |w| && SameMessage(p, r.p)
      && (r.p.usesTransferEncoding <==> p.usesTransferEncoding || TRANSFER_ENCODING <= Folded(w))
  {
    hide StepByte, Token, Named;
    var init, ch := w[..|w| - 1], w[|w| - 1];
    if |w| == 1 {
      assert init == "" && Run(p, init, max) == Result(p, [], Go);
      FirstOfName(p, ch, max);
      assert Folded(w) == [Token(ch)];
    } else {
      NameRecognised(p, init, max);
      NextOfName(Run(p, init, max).p, Folded(init), ch, max);
      assert Folded(w) == Folded(init) + [Token(ch)];
    }
  }

  /** After the colon the record knows which header it reads. */
  lemma HeaderRecognised(p: Parser, w: string, max: nat)
    requires p.state.HeaderFieldStart? && w != "" && IsName(w) && p.nread + |w| + 1 <= max
    ensures var r := Run(p, w + ":", max);
      && r.stop.Go? && r.p.state.HeaderValueDiscardWs? && r.p.nread == p.nread + |w| + 1 && SameMessage(p, r.p)
      && Named(r.p.headerState, r.p.index, Folded(w))
      && (r.p.headerState.Connection? <==> Folded(w) == CONNECTION || Folded(w) == PROXY_CONNECTION)
      && (r.p.headerState.ContentLength? <==> Folded(w) == CONTENT_LENGTH)
      && (r.p.headerState.TransferEncoding? <==> Folded(w) == TRANSFER_ENCODING)
      && (r.p.headerState.Upgrade? <==> Folded(w) == UPGRADE)
      && (r.p.usesTransferEncoding <==> p.usesTransferEncoding || TRANSFER_ENCODING <= Folded(w))
  {
    hide StepByte, Token, Named, Run;
    NameRecognised(p, w, max);
    var r := Run(p, w, max);
    NamedExactly(r.p.headerState, r.p.index, Folded(w));
    RunSnoc(p, w, ':', max);
    assert w + [':'] == w + ":";
    ColonEnds(r.p, Folded(w), max);
  }

  lemma ColonEnds(p: Parser, low: string, max: nat)
    requires InName(p, low) && p.nread < max
    ensures var r := StepByte(p, ':', max);
      r.stop.Go? && r.p == p.(nread := p.nread + 1, state := HeaderValueDiscardWs)
  {
    hide Dispatch, Perform, FlushAll, Named;
    NameStates(p.(nread := p.nread + 1), ':');
  }

  lemma LowerLetters(i: nat)
    requires i < |TRANSFER_ENCODING|
    ensures Token(TRANSFER_ENCODING[i]) == TRANSFER_ENCODING[i] != '\0'
  {
    var c := TRANSFER_ENCODING[i];
    assert 'a' <= c <= 'z' || c == '-';
  }

  /** So a header whose name goes on behind `transfer-encoding` is not read as that header, and yet counts as it when the
      end of the body is decided. */
  lemma LongerNameCounts(p: Parser, x: string, max: nat)
    requires p.state.HeaderFieldStart? && x != "" && IsName(x) && p.nread + 18 + |x| <= max && !p.usesTransferEncoding
    ensures var r := Run(p, TRANSFER_ENCODING + x + ":", max);
      && r.stop.Go? && r.p.state.HeaderValueDiscardWs? && r.p.nread == p.nread + 18 + |x| && SameMessage(p, r.p)
      && r.p.usesTransferEncoding && r.p.headerState.General?
  {
    hide Token, Run;
    var w := TRANSFER_ENCODING + x;
    forall i: nat | i < |w| ensures Token(w[i]) != '\0' && (i < |TRANSFER_ENCODING| ==> Token(w[i]) == TRANSFER_ENCODING[i]) {
      if i < |TRANSFER_ENCODING| { LowerLetters(i); } else { assert w[i] == x[i - |TRANSFER_ENCODING|]; }
    }
    HeaderRecognised(p, w, max);
    assert TRANSFER_ENCODING <= Folded(w) && |Folded(w)| > |TRANSFER_ENCODING|;
  }

  // ---- The value of Transfer-Encoding ----

  predicate Spaces(s: string) {
    forall i | 0 <= i < |s| :: s[i] == ' '
  }

  function LowerAll(w: string): string {
    seq(|w|, i requires 0 <= i < |w| => Lower(w[i]))
  }

  /** `chunked` in any case of letters, and spaces behind it. */
  predicate IsChunked(t: string) {
    |t| >= 7 && LowerAll(t[..7]) == CHUNKED && Spaces(t[7..])
  }

  /** Letters of `chunked`, not yet all. */
  predicate BeginsChunked(t: string) {
    0 < |t| < 7 && LowerAll(t) <= CHUNKED
  }

  predicate StartsToken(t: string) {
    t != "" && Token(Lower(t[0])) != '\0'
  }

  /** A coding without the spaces in front of it. */
  function Strip(c: string): string {
    if c != "" && c[0] == ' ' then Strip(c[1..]) else c
  }

  /** The codings of a list: what stands between its commas. */
  function Codings(v: string): (cs: seq<string>)
    ensures |cs| > 0
  {
    if v == "" then [""]
    else
      var cs, ch := Codings(v[..|v| - 1]), v[|v| - 1];
      if ch == ',' then cs + [""] else cs[..|cs| - 1] + [cs[|cs| - 1] + [ch]]
  }

  /** Whether a coding is looked at: it is, or it is passed over with the one in front of it, or a malformed
      coding in front of it has put an end to looking. */
  datatype Reading = Read | Skipped | Stuck

  /** How the coding behind `c` is read: a comma directly behind `chunked`, or behind a beginning of it, does not separate. */
  function Behind(first: bool, r: Reading, c: string): Reading {
    match r
    case Stuck => Stuck
    case Skipped => Read
    case Read =>
      var t := if first then c else Strip(c);
      if BeginsChunked(t) || IsChunked(t) || (first && t == "") then Skipped
      else if first || StartsToken(t) then Read
      else Stuck
  }

  /** How the last of the codings is read. */
  function ReadingOf(cs: seq<string>): Reading
    requires |cs| > 0
  {
    if |cs| == 1 then Read
    else Behind(|cs| == 2, ReadingOf(cs[..|cs| - 1]), cs[|cs| - 2])
  }

  /** What a header state says about the last coding `c`, of which `r` says how it is read. */
  predicate Stands(h: HeaderState, i: nat, first: bool, r: Reading, c: string) {
    match r
    case Skipped => h.MatchingTeToken?
    case Stuck => h.General?
    case Read =>
      var t := if first then c else Strip(c);
      if t == "" then h.MatchingTeTokenStart? && i == 0
      else if BeginsChunked(t) then h.MatchingTeChunked? && i == |t| - 1
      else if IsChunked(t) then h.TeChunked?
      else if first || StartsToken(t) then h.MatchingTeToken?
      else h.General?
  }

  predicate IsValue(v: string) {
    forall i | 0 <= i < |v| :: IsHeaderChar(v[i]) && !IsBreak(v[i])
  }

  /** A whole value: its first byte is not looked at, but for line ends. */
  predicate IsContent(v: string) {
    v != "" ==> !IsBreak(v[0]) && IsValue(v[1..])
  }

  lemma ContentInit(v: string)
    requires |v| > 1 && IsContent(v)
    ensures IsContent(v[..|v| - 1]) && IsHeaderChar(v[|v| - 1]) && !IsBreak(v[|v| - 1])
  {
    hide IsHeaderChar;
    var w := v[1..];
    assert v[..|v| - 1][1..] == w[..|w| - 1];
    assert v[|v| - 1] == w[|w| - 1];
  }

  lemma LowerMore(v: string, ch: char)
    ensures LowerAll(v + [ch]) == LowerAll(v) + [Lower(ch)]
  {}

  lemma {:induction false} StripMore(c: string, ch: char)
    ensures Strip(c + [ch]) == if Strip(c) == "" then (if ch == ' ' then "" else [ch]) else Strip(c) + [ch]
  {
    if c == "" {
      assert c + [ch] == [ch] && [ch][1..] == "";
    } else if c[0] == ' ' {
      assert (c + [ch])[1..] == c[1..] + [ch];
      StripMore(c[1..], ch);
    }
  }

  /** The three shapes of a coding, and what one more character makes of them. */
  lemma ShapeMore(t: string, ch: char)
    requires t != ""
    ensures BeginsChunked(t + [ch]) <==> BeginsChunked(t) && |t| < 6 && Lower(ch) == CHUNKED[|t|]
    ensures IsChunked(t + [ch]) <==> (IsChunked(t) && ch == ' ') || (BeginsChunked(t) && |t| == 6 && Lower(ch) == CHUNKED[6])
    ensures StartsToken(t + [ch]) <==> StartsToken(t)
  {
    var u := t + [ch];
    LowerMore(t, ch);
    BeginsMore(LowerAll(t), Lower(ch), CHUNKED);
    hide Lower, Token;
    if |t| == 6 {
      assert u[..7] == u && u[7..] == "";
      SevenLetters(t, ch);
    } else if |t| > 6 {
      assert u[..7] == t[..7] && u[7..] == t[7..] + [ch];
      SpacesMore(t[7..], ch);
    }
  }

  lemma SevenLetters(t: string, ch: char)
    requires |t| == 6
    ensures LowerAll(t + [ch]) == CHUNKED <==> LowerAll(t) <= CHUNKED && Lower(ch) == CHUNKED[6]
  {
    LowerMore(t, ch);
    hide Lower;
    BeginsMore(LowerAll(t), Lower(ch), CHUNKED);
  }

  lemma SpacesMore(s: string, ch: char)
    ensures Spaces(s + [ch]) <==> Spaces(s) && ch == ' '
  {
    if Spaces(s + [ch]) {
      assert (s + [ch])[|s|] == ch;
      assert forall i | 0 <= i < |s| :: s[i] == (s + [ch])[i];
    }
  }

  lemma OneLetter(ch: char)
    ensures BeginsChunked([ch]) <==> Lower(ch) == 'c'
    ensures !IsChunked([ch]) && (Lower(ch) == 'c' ==> StartsToken([ch]))
  {
    assert LowerAll([ch]) == [Lower(ch)] == "" + [Lower(ch)];
    BeginsMore("", Lower(ch), CHUNKED);
    hide Lower;
  }

  lemma ChunkedLetter(p: Parser, ch: char)
    requires p.headerState.MatchingTeChunked? && p.index + 1 < 7
    ensures var q := TeChar(p, ch);
      && (q.headerState.MatchingTeToken? <==> Lower(ch) != CHUNKED[p.index + 1])
      && (q.headerState.TeChunked? <==> Lower(ch) == CHUNKED[p.index + 1] && p.index == 5)
      && (!q.headerState.MatchingTeToken? && !q.headerState.TeChunked? ==> q.headerState.MatchingTeChunked?)
      && q.index == p.index + 1
  {
    hide Lower;
  }

  /** One more character of a coding that is looked at and has begun. */
  lemma BegunStep(p: Parser, first: bool, c: string, ch: char)
    requires Stands(p.headerState, p.index, first, Read, c) && InTe(p.headerState) && ch != ','
    requires var t := if first then c else Strip(c); t != ""
    ensures var q := TeChar(p, ch); Stands(q.headerState, q.index, first, Read, c + [ch])
  {
    var t := if first then c else Strip(c);
    if !first { StripMore(c, ch); }
    ShapeMore(t, ch);
    ShapesStart(t);
    if p.headerState.MatchingTeChunked? { ChunkedLetter(p, ch); }
    hide BeginsChunked, IsChunked, StartsToken, Strip, Lower, MatchName;
  }

  /** The first character of a coding behind a comma and spaces, or one more space. */
  lemma BeginStep(p: Parser, c: string, ch: char)
    requires p.headerState.MatchingTeTokenStart? && p.index == 0 && Strip(c) == "" && ch != ',' && IsHeaderChar(ch)
    ensures var q := TeChar(p, ch); Stands(q.headerState, q.index, false, Read, c + [ch])
  {
    StripMore(c, ch);
    OneLetter(ch);
    NoShape();
    SpaceLetter(ch);
    hide BeginsChunked, IsChunked, Strip, Lower, IsHeaderChar, Token;
  }

  lemma SpaceLetter(ch: char)
    requires IsHeaderChar(ch)
    ensures (Lower(ch) == ' ' <==> ch == ' ') && Lower(ch) != '\t' && Token(' ') == '\0'
  {}

  /** One more character of a coding. */
  lemma CodingMore(p: Parser, first: bool, r: Reading, c: string, ch: char)
    requires Stands(p.headerState, p.index, first, r, c) && ch != ',' && IsHeaderChar(ch) && !IsBreak(ch) && (first ==> c != "")
    ensures var o := ValueChar(p, ch);
      o.stop.Go? && o.acts == [] && Stands(o.p.headerState, o.p.index, first, r, c + [ch]) && KeepsMessage(p, o.p)
  {
    KeepsTe(p, ch);
    if r.Read? && InTe(p.headerState) {
      var t := if first then c else Strip(c);
      if t == "" { BeginStep(p, c, ch); } else { BegunStep(p, first, c, ch); }
      hide Stands, TeChar;
    } else if r.Read? {
      StripMore(c, ch);
      ShapeMore(Strip(c), ch);
      hide BeginsChunked, IsChunked, StartsToken, Strip, TeChar;
    }
  }

  /** The comma behind a coding. */
  lemma CommaStep(p: Parser, first: bool, r: Reading, c: string)
    requires Stands(p.headerState, p.index, first, r, c) && (first ==> c != "")
    ensures var o := ValueChar(p, ',');
      o.stop.Go? && o.acts == [] && Stands(o.p.headerState, o.p.index, false, Behind(first, r, c), "") && KeepsMessage(p, o.p)
  {
    KeepsTe(p, ',');
    CommaLetter();
    if p.headerState.MatchingTeChunked? && p.index + 1 < 7 { ChunkedLetter(p, ','); }
    NoShape();
    hide BeginsChunked, IsChunked, StartsToken, Lower, MatchName, Token, Strip;
  }

  lemma ShapesStart(t: string)
    ensures BeginsChunked(t) ==> |t| < 7 && StartsToken(t)
    ensures IsChunked(t) ==> |t| >= 7 && StartsToken(t)
  {
    if BeginsChunked(t) { assert Lower(t[0]) == LowerAll(t)[0] == 'c'; }
    if IsChunked(t) { assert Lower(t[0]) == LowerAll(t[..7])[0] == 'c'; }
    assert Token('c') != '\0';
    hide Lower, Token;
  }

  lemma NoShape()
    ensures Strip("") == "" && !BeginsChunked("") && !IsChunked("") && !StartsToken("")
    ensures forall t :: BeginsChunked(t) ==> |t| < 7
  {}

  lemma CommaLetter()
    ensures Lower(',') == ',' && Token(',') == '\0' && IsHeaderChar(',')
    ensures forall i | 0 <= i < 7 :: CHUNKED[i] != ','
  {}

  predicate KeepsMessage(p: Parser, q: Parser) {
    q.nread == p.nread && q.state == p.state && SameMessage(p, q) && q.usesTransferEncoding == p.usesTransferEncoding
  }

  /** Only the header state and the index move. */
  lemma KeepsTe(p: Parser, ch: char)
    ensures KeepsMessage(p, TeChar(p, ch))
  {
    hide MatchName, Token, Lower;
    match p.headerState
    case MatchingTeTokenStart =>
    case MatchingTeChunked =>
    case MatchingTeToken =>
    case TeChunked =>
    case _ =>
  }

  // ---- Whole values ----

  lemma ValueStates(p: Parser, ch: char)
    ensures p.state.HeaderValueDiscardWs? ==> Dispatch(p, ch) == StepDiscardWs(p, ch)
    ensures p.state.HeaderValue? ==> Dispatch(p, ch) == StepHeaderValue(p, ch)
  {
    hide StepDiscardWs, StepHeaderValue;
  }

  /** The record behind the value read so far. */
  predicate InValue(p: Parser, v: string) {
    var cs := Codings(v);
    p.state.HeaderValue? && Stands(p.headerState, p.index, |cs| == 1, ReadingOf(cs), cs[|cs| - 1])
  }

  lemma FirstOfValue(p: Parser, ch: char, max: nat)
    requires p.state.HeaderValueDiscardWs? && p.headerState.TransferEncoding? && p.nread < max
    requires !IsBreak(ch) && ch != ' ' && ch != '\t'
    ensures var r := StepByte(p, ch, max);
      && r.stop.Go? && r.p.nread == p.nread + 1 && InValue(r.p, [ch])
      && SameMessage(p, r.p) && r.p.usesTransferEncoding == p.usesTransferEncoding
  {
    hide Dispatch, Perform, FlushAll, Lower, IsHeaderChar, BeginsChunked, IsChunked, StartsToken, Token;
    ValueStates(p.(nread := p.nread + 1), ch);
    OneLetter(ch);
    NoShape();
    CommaLetter();
    FirstCodings(ch);
  }

  lemma FirstCodings(ch: char)
    ensures Codings([ch]) == if ch == ',' then ["", ""] else [[ch]]
    ensures ReadingOf(Codings([ch])) == if ch == ',' then Skipped else Read
  {
    assert [ch][..0] == "" && Codings("") == [""];
    assert "" + [ch] == [ch];
    assert [""] + [""] == ["", ""] && [""][..0] + [[ch]] == [[ch]];
    assert ["", ""][..1] == [""];
  }

  lemma CodingsMore(v: string, ch: char)
    ensures var cs := Codings(v);
      Codings(v + [ch]) == if ch == ',' then cs + [""] else cs[..|cs| - 1] + [cs[|cs| - 1] + [ch]]
  {
    assert (v + [ch])[..|v + [ch]| - 1] == v;
  }

  /** A longer last coding is read as it was; the one behind a comma is read as the one in front of it says. */
  lemma ReadingMore(v: string, ch: char)
    ensures var cs, ds := Codings(v), Codings(v + [ch]);
      if ch == ',' then |ds| == |cs| + 1 && ReadingOf(ds) == Behind(|cs| == 1, ReadingOf(cs), cs[|cs| - 1]) && ds[|ds| - 1] == ""
      else |ds| == |cs| && ReadingOf(ds) == ReadingOf(cs) && ds[|ds| - 1] == cs[|cs| - 1] + [ch]
  {
    CodingsMore(v, ch);
    hide Behind, Codings;
    var cs, ds := Codings(v), Codings(v + [ch]);
    if ch == ',' {
      assert ds[..|ds| - 1] == cs;
    } else {
      assert ds[..|ds| - 1] == cs[..|cs| - 1];
    }
  }

  /** The first coding is empty only where the value begins with a comma. */
  lemma {:induction false} FirstIsBegun(v: string)
    requires v != ""
    ensures |Codings(v)| == 1 ==> Codings(v)[0] == v
  {
    if |v| > 1 {
      FirstIsBegun(v[..|v| - 1]);
      CodingsMore(v[..|v| - 1], v[|v| - 1]);
      assert v[..|v| - 1] + [v[|v| - 1]] == v;
    } else {
      FirstCodings(v[0]);
      assert v == [v[0]];
    }
  }

  lemma NextOfValue(p: Parser, v: string, ch: char, max: nat)
    requires InValue(p, v) && v != "" && p.nread < max && IsHeaderChar(ch) && !IsBreak(ch)
    ensures var r := StepByte(p, ch, max);
      && r.stop.Go? && r.p.nread == p.nread + 1 && InValue(r.p, v + [ch])
      && SameMessage(p, r.p) && r.p.usesTransferEncoding == p.usesTransferEncoding
  {
    hide Dispatch, Perform, FlushAll, IsHeaderChar, Stands, ValueChar, Codings, ReadingOf, Behind;
    var q, cs := p.(nread := p.nread + 1), Codings(v);
    ValueStates(q, ch);
    FirstIsBegun(v);
    ReadingMore(v, ch);
    if ch == ',' {
      CommaStep(q, |cs| == 1, ReadingOf(cs), cs[|cs| - 1]);
    } else {
      CodingMore(q, |cs| == 1, ReadingOf(cs), cs[|cs| - 1], ch);
    }
  }

  lemma {:induction false} ValueRun(p: Parser, v: string, max: nat)
    requires p.state.HeaderValueDiscardWs? && p.headerState.TransferEncoding? && p.nread + |v| <= max
    requires v != "" && IsContent(v) && v[0] != ' ' && v[0] != '\t'
    ensures var r := Run(p, v, max);
      && r.stop.Go? && r.p.nread == p.nread + |v| && InValue(r.p, v)
      && SameMessage(p, r.p) && r.p.usesTransferEncoding == p.usesTransferEncoding
  {
    hide StepByte, InValue, IsHeaderChar;
    var init, ch := v[..|v| - 1], v[|v| - 1];
    if |v| == 1 {
      assert init == "" && Run(p, init, max) == Result(p, [], Go) && v == [ch];
      FirstOfValue(p, ch, max);
    } else {
      ContentInit(v);
      ValueRun(p, init, max);
      assert init + [ch] == v;
      NextOfValue(Run(p, init, max).p, init, ch, max);
    }
  }

  /** More of a value. */
  lemma {:induction false} MoreOfValue(p: Parser, v: string, more: string, max: nat)
    requires InValue(p, v) && v != "" && IsValue(more) && p.nread + |more| <= max
    ensures var r := Run(p, more, max);
      && r.stop.Go? && r.p.nread == p.nread + |more| && InValue(r.p, v + more)
      && SameMessage(p, r.p) && r.p.usesTransferEncoding == p.usesTransferEncoding
  {
    hide StepByte, InValue, IsHeaderChar;
    if more == "" {
      assert v + more == v;
    } else {
      var init, ch := more[..|more| - 1], more[|more| - 1];
      MoreOfValue(p, v, init, max);
      assert v + init + [ch] == v + more;
      NextOfValue(Run(p, init, max).p, v + init, ch, max);
    }
  }

  /** The value names `chunked` as its last coding, and the coding is looked at. */
  predicate EndsChunked(v: string) {
    var cs := Codings(v);
    ReadingOf(cs).Read? && IsChunked(if |cs| == 1 then cs[0] else Strip(cs[|cs| - 1]))
  }

  /** Transfer codings: a body is taken for chunked exactly when the last coding of the list is looked at and is `chunked`,
      in any case of letters and with spaces around it. */
  lemma ChunkedRecognised(p: Parser, v: string, max: nat)
    requires p.state.HeaderValueDiscardWs? && p.headerState.TransferEncoding? && p.nread + |v| <= max
    requires v != "" && IsContent(v) && v[0] != ' ' && v[0] != '\t'
    ensures var r := Run(p, v, max);
      && r.stop.Go? && r.p.state.HeaderValue? && r.p.nread == p.nread + |v|
      && SameMessage(p, r.p) && r.p.usesTransferEncoding == p.usesTransferEncoding
      && (InTe(r.p.headerState) || r.p.headerState.General?)
      && (r.p.headerState.TeChunked? <==> EndsChunked(v))
  {
    hide Run, Codings, ReadingOf, IsChunked, BeginsChunked, StartsToken, Strip;
    ValueRun(p, v, max);
    FirstIsBegun(v);
    var cs := Codings(v);
    Apart7(if |cs| == 1 then cs[0] else Strip(cs[|cs| - 1]));
  }

  lemma Apart7(t: string)
    ensures !(BeginsChunked(t) && IsChunked(t)) && (IsChunked(t) ==> t != "")
  {}

  /** A single coding is always looked at. */
  lemma {:induction false} SingleCoding(v: string)
    requires ',' !in v
    ensures Codings(v) == [v]
  {
    if v != "" {
      var init, ch := v[..|v| - 1], v[|v| - 1];
      assert ch in v && init + [ch] == v;
      SingleCoding(init);
      CodingsMore(init, ch);
    }
  }

  lemma {:induction false} TwoCodings(w: string, u: string)
    requires ',' !in w && ',' !in u
    ensures Codings(w + "," + u) == [w, u]
  {
    hide Codings;
    if u == "" {
      assert w + "," + u == w + [','];
      SingleCoding(w);
      CodingsMore(w, ',');
    } else {
      var init, ch := u[..|u| - 1], u[|u| - 1];
      assert ch in u && init + [ch] == u;
      TwoCodings(w, init);
      assert w + "," + u == w + "," + init + [ch];
      CodingsMore(w + "," + init, ch);
    }
  }

  /** So of two codings the second is overlooked exactly when the first is empty, or `chunked`, or a beginning of it, as in
      `c,chunked` or `chunked,chunked`. */
  lemma SwallowedComma(w: string, u: string)
    requires ',' !in w && ',' !in u && IsChunked(Strip(u))
    ensures EndsChunked(w + "," + u) <==> !(w == "" || BeginsChunked(w) || IsChunked(w))
  {
    TwoCodings(w, u);
    var cs := [w, u];
    assert cs[..|cs| - 1] == [w] && ReadingOf([w]) == Read;
    assert ReadingOf(cs) == Behind(true, Read, w);
    hide BeginsChunked, IsChunked, StartsToken, Strip, Codings;
  }

  /** The comma behind the first coding `w` separates. */
  predicate Separates(w: string) {
    ',' !in w && !(w == "" || BeginsChunked(w) || IsChunked(w))
  }

  /** Spaces and tabs. */
  predicate Blanks(s: string) {
    forall i | 0 <= i < |s| :: s[i] == ' ' || s[i] == '\t'
  }

  lemma TabIsNoToken(t: string)
    requires t != "" && t[0] == '\t'
    ensures Strip(t) == t && !BeginsChunked(t) && !IsChunked(t) && !StartsToken(t)
  {
    ShapesStart(t);
    assert Lower('\t') == ')' && Token(')') == '\0';
  }

  /** The codings of `w,<tab>u`: the one behind the comma begins with the tab, and nothing behind it is looked at. */
  lemma {:induction false} CodingsBehindTab(w: string, u: string)
    requires Separates(w)
    ensures var cs := Codings(w + ",\t" + u);
      if |cs| == 2 then ReadingOf(cs).Read? && cs[1] != "" && cs[1][0] == '\t' else |cs| > 2 && ReadingOf(cs).Stuck?
  {
    hide Codings, BeginsChunked, IsChunked, Strip, StartsToken;
    if u == "" {
      TwoCodings(w, "");
      assert w + ",\t" + u == w + "," + "" + ['\t'];
      ReadingMore(w + "," + "", '\t');
      assert [w, ""][..1] == [w];
    } else {
      var init, ch := u[..|u| - 1], u[|u| - 1];
      CodingsBehindTab(w, init);
      assert w + ",\t" + u == w + ",\t" + init + [ch];
      ReadingMore(w + ",\t" + init, ch);
      var cs := Codings(w + ",\t" + init);
      if |cs| == 2 { TabIsNoToken(cs[1]); }
    }
  }

  /** A tab behind a comma that separates: whatever follows, chunks are not recognised. */
  lemma TabHidesChunked(w: string, u: string)
    requires Separates(w)
    ensures !EndsChunked(w + ",\t" + u)
  {
    CodingsBehindTab(w, u);
    hide Codings, ReadingOf, Separates;
    var cs := Codings(w + ",\t" + u);
    if |cs| == 2 { TabIsNoToken(cs[1]); }
  }

  lemma {:induction false} StripBlanks(s: string, c: string)
    requires Blanks(s) && c != "" && c[0] != ' '
    ensures Spaces(s) ==> Strip(s + c) == c
    ensures !Spaces(s) ==> Strip(s + c) != "" && Strip(s + c)[0] == '\t'
  {
    if s == "" {
      assert s + c == c;
    } else if s[0] == ' ' {
      assert (s + c)[1..] == s[1..] + c;
      StripBlanks(s[1..], c);
      assert Spaces(s[1..]) ==> Spaces(s) by {
        assert forall i | 1 <= i < |s| :: s[i] == s[1..][i - 1];
      }
    }
  }

  /** White space behind a comma that separates is passed over exactly when it is all spaces. */
  lemma BlanksBehindComma(w: string, s: string, c: string)
    requires Separates(w) && Blanks(s) && IsChunked(c) && ',' !in c
    ensures EndsChunked(w + "," + s + c) <==> Spaces(s)
  {
    ShapesStart(c);
    assert c[0] != ' ' by { assert Lower(c[0]) == LowerAll(c[..7])[0] == 'c'; }
    StripBlanks(s, c);
    assert w + "," + (s + c) == w + "," + s + c;
    hide BeginsChunked, IsChunked, Strip, StartsToken, Codings, ReadingOf;
    if Spaces(s) {
      SwallowedComma(w, s + c);
    } else {
      TwoCodings(w, s + c);
      TabIsNoToken(Strip(s + c));
    }
  }
}
