/** The character tables and the fixed words of the parser, against their spelling. */
module HttpTables {
  import opened Basics
  import opened HttpChars
  import opened HttpTypes
  import opened HttpStep
  import opened HttpRun
  import opened HttpRelate
  import opened HttpFragments
  import opened HttpLengths
  import opened HttpBodies
  import opened HttpMethods
  import opened HttpHeaders
  import opened HttpLines
  import opened HttpOptions
  import opened HttpValues
  import opened HttpFraming
  import opened HttpMessages
  import opened HttpVersions
  import opened HttpRequests
  import opened HttpResponses
  import opened HttpStreams
  import Url

  // ---- Letters ----

  predicate IsSmall(ch: char) { 'a' <= ch <= 'z' }

  predicate IsCapital(ch: char) { 'A' <= ch <= 'Z' }

  /** The same letter, small or capital, or the same character. */
  predicate SameLetter(a: char, b: char) {
    a == b || (IsCapital(a) && a as int + 32 == b as int) || (IsCapital(b) && b as int + 32 == a as int)
  }

  /** Both tables take a capital letter for the small one, 32 higher, and leave small letters, digits and the hyphen alone. */
  lemma LettersFold(ch: char)
    ensures IsCapital(ch) ==> Lower(ch) as int == Token(ch) as int == ch as int + 32
    ensures IsSmall(ch) || IsNum(ch) || ch == '-' ==> Lower(ch) == Token(ch) == ch
  {}

  /** The characters of a token. */
  lemma TokensAre(ch: char)
    ensures Token(ch) != '\0' <==> IsSmall(ch) || IsCapital(ch) || '0' <= ch <= '9' || ch in "!#$%&'*+-.^_`|~"
  {}

  /** The characters of the parts of a URL: any visible one in a path but those that end it. */
  lemma UrlCharsAre(ch: char)
    ensures IsUrlChar(ch) <==> '!' <= ch <= '~' && ch !in "#?"
    ensures IsUserinfoChar(ch) <==> IsSmall(ch) || IsCapital(ch) || '0' <= ch <= '9' || ch in "-_.!~*'()%;:&=+$,"
    ensures IsSchemaChar(ch) <==> IsSmall(ch) || IsCapital(ch) || '0' <= ch <= '9' || ch in "+-."
    ensures IsHostChar(ch) <==> IsSmall(ch) || IsCapital(ch) || '0' <= ch <= '9' || ch in "-."
  {}

  /** The characters of a header value: tab, line ends, and everything from the space on but the delete character. */
  lemma HeaderCharsAre(ch: char)
    ensures IsHeaderChar(ch) <==> ch in "\t\r\n" || (ch >= ' ' && ch as int != 127)
  {}

  /** But the first byte of a value is not looked at: any is accepted that ends no line and is no white space, though the same
      byte behind it is not. */
  lemma FirstByteUnchecked(p: Parser, ch: char, max: nat)
    requires NoHeadersYet(p) && !IsBreak(ch) && !IsBlank(ch) && p.nread + 6 <= max
    ensures Run(p, "a:" + [ch] + CRLF, max).stop.Go?
    ensures !IsHeaderChar(ch) ==> Run(p, "a:b" + [ch], max).stop == Fail(InvalidHeaderToken)
  {
    hide Run, Merge, Folded, IsHeaderChar;
    var l := Line("a", "", [ch], [], CRLF);
    assert Text(l) == "a:" + [ch] + CRLF by { assert FoldsText([]) == "" && "" + ([ch] + CRLF) == [ch] + CRLF; }
    PlainName();
    NoHeadersSeen(p);
    LineRead(p, NO_FRAME, l, max);
    if !IsHeaderChar(ch) { SecondByteChecked(p, ch, max); }
  }

  lemma PlainName()
    ensures Folded("a") == "a" && IsName("a")
  {
    assert Token('a') == 'a';
  }

  lemma PlainHeader(h: HeaderState, i: nat)
    requires Named(h, i, "a")
    ensures h.General?
  {}

  lemma SecondByteChecked(p: Parser, ch: char, max: nat)
    requires p.state.HeaderFieldStart? && !IsBreak(ch) && !IsHeaderChar(ch) && p.nread + 4 <= max
    ensures Run(p, "a:b" + [ch], max).stop == Fail(InvalidHeaderToken)
  {
    hide Run, StepByte, Folded, IsHeaderChar, Named, StepValueStart;
    PlainName();
    HeaderRecognised(p, "a", max);
    var q := Run(p, "a" + ":", max).p;
    FirstValueByte(q, 'b', max);
    PlainHeader(q.headerState, q.index);
    FirstGoes(q.(nread := q.nread + 1), 'b');
    OneByteRun(q, 'b', max);
    assert "a" + ":" + "b" == "a:b" && "b" == ['b'];
    RunAppend(p, "a" + ":", "b", max);
    RunSnocFail(p, "a:b", ch, max);
  }

  lemma FirstGoes(p: Parser, ch: char)
    requires p.headerState.General?
    ensures StepValueStart(p, ch).stop.Go?
  {}

  lemma RunSnocFail(p: Parser, t: string, ch: char, max: nat)
    requires Run(p, t, max).stop.Go? && Run(p, t, max).p.state.HeaderValue? && Run(p, t, max).p.nread < max
    requires !IsBreak(ch) && !IsHeaderChar(ch)
    ensures Run(p, t + [ch], max).stop == Fail(InvalidHeaderToken)
  {
    hide Run, StepByte, IsHeaderChar;
    var q := Run(p, t, max).p;
    NextValueByte(q, ch, max);
    RunSnoc(p, t, ch, max);
  }

  // ---- Digits ----

  /** A hexadecimal digit counts the same small or capital, and nothing else is one. */
  lemma HexDigitsAre(i: nat, ch: char)
    ensures i < 16 ==> Unhex("0123456789abcdef"[i]) == i == Unhex("0123456789ABCDEF"[i])
    ensures Unhex(ch) != -1 <==> ch in "0123456789" || ch in "abcdef" || ch in "ABCDEF"
  {}

  predicate AnyCase(w: string, name: string) {
    |w| == |name| && forall i | 0 <= i < |w| :: SameLetter(w[i], name[i])
  }

  lemma SameDigit(a: char, b: char)
    requires SameLetter(a, b)
    ensures Unhex(a) == Unhex(b)
  {}

  /** A chunk size spells the same number with small and with capital digits. */
  lemma {:induction false} SizeInAnyCase(ds: string, es: string)
    requires AnyCase(ds, es) && Digits(ds, 16)
    ensures Digits(es, 16) && Spelled(ds, 16) == Spelled(es, 16)
  {
    hide Unhex, SameLetter;
    forall i | 0 <= i < |ds| ensures Unhex(ds[i]) == Unhex(es[i]) { SameDigit(ds[i], es[i]); }
    if |ds| > 0 {
      SizeInAnyCase(ds[..|ds| - 1], es[..|es| - 1]);
    }
  }

  // ---- Header names ----

  /** Small letters and hyphens. */
  predicate IsPlain(name: string) {
    forall i | 0 <= i < |name| :: IsSmall(name[i]) || name[i] == '-'
  }

  lemma TokenIs(ch: char, d: char)
    requires IsSmall(d) || d == '-'
    ensures Token(ch) == d <==> SameLetter(ch, d)
  {}

  lemma FoldedIs(w: string, name: string)
    requires IsPlain(name)
    ensures Folded(w) == name <==> AnyCase(w, name)
  {
    hide Token, SameLetter;
    if |w| == |name| {
      forall i | 0 <= i < |w| ensures Folded(w)[i] == name[i] <==> SameLetter(w[i], name[i]) { TokenIs(w[i], name[i]); }
      if AnyCase(w, name) { assert Folded(w) == name; }
    }
  }

  lemma NamesArePlain()
    ensures IsPlain(CONNECTION) && IsPlain(PROXY_CONNECTION) && IsPlain(CONTENT_LENGTH) && IsPlain(TRANSFER_ENCODING)
      && IsPlain(UPGRADE)
    ensures CONNECTION == "connection" && PROXY_CONNECTION == "proxy-connection" && CONTENT_LENGTH == "content-length"
    ensures TRANSFER_ENCODING == "transfer-encoding" && UPGRADE == "upgrade"
  {}

  /** Each header that matters is recognised exactly by its name, letter by letter, small or capital. */
  lemma NamesInAnyCase(p: Parser, w: string, max: nat)
    requires p.state.HeaderFieldStart? && w != "" && IsName(w) && p.nread + |w| + 1 <= max
    ensures var r := Run(p, w + ":", max);
      && r.stop.Go? && r.p.state.HeaderValueDiscardWs?
      && (r.p.headerState.Connection? <==> AnyCase(w, "connection") || AnyCase(w, "proxy-connection"))
      && (r.p.headerState.ContentLength? <==> AnyCase(w, "content-length"))
      && (r.p.headerState.TransferEncoding? <==> AnyCase(w, "transfer-encoding"))
      && (r.p.headerState.Upgrade? <==> AnyCase(w, "upgrade"))
  {
    hide Run, Folded, IsName, AnyCase, IsPlain, Named;
    NamesArePlain();
    HeaderRecognised(p, w, max);
    FoldedIs(w, CONNECTION);
    FoldedIs(w, PROXY_CONNECTION);
    FoldedIs(w, CONTENT_LENGTH);
    FoldedIs(w, TRANSFER_ENCODING);
    FoldedIs(w, UPGRADE);
  }

  /** The usual spellings. */
  lemma UsualLengthNames()
    ensures AnyCase("Content-Length", "content-length") && AnyCase("CONTENT-LENGTH", "content-length")
  {}

  lemma UsualCodingNames()
    ensures AnyCase("Transfer-Encoding", "transfer-encoding") && AnyCase("TRANSFER-ENCODING", "transfer-encoding")
  {}

  lemma UsualConnectionNames()
    ensures AnyCase("Connection", "connection") && AnyCase("CONNECTION", "connection")
    ensures AnyCase("Upgrade", "upgrade") && AnyCase("UPGRADE", "upgrade")
  {}

  lemma UsualProxyNames()
    ensures AnyCase("Proxy-Connection", "proxy-connection") && AnyCase("PROXY-CONNECTION", "proxy-connection")
  {}

  lemma UsualWords()
    ensures AnyCase("Chunked", "chunked") && AnyCase("Keep-Alive", "keep-alive") && AnyCase("Close", "close")
    ensures AnyCase("chunked", "chunked") && AnyCase("keep-alive", "keep-alive") && AnyCase("close", "close")
  {}

  lemma AnyCaseIsName(w: string, name: string)
    requires AnyCase(w, name) && IsPlain(name)
    ensures IsName(w)
  {
    hide Token, SameLetter;
    forall i | 0 <= i < |w| ensures Token(w[i]) != '\0' {
      assert SameLetter(w[i], name[i]);
      TokenIs(w[i], name[i]);
    }
  }

  /** The header that a name is read as. */
  function HeaderAfter(p: Parser, w: string, max: nat): HeaderState { Run(p, w + ":", max).p.headerState }

  lemma NameRead(p: Parser, w: string, name: string, max: nat)
    requires p.state.HeaderFieldStart? && w != "" && AnyCase(w, name) && IsPlain(name) && p.nread + |w| + 1 <= max
    ensures name == "content-length" ==> HeaderAfter(p, w, max).ContentLength?
    ensures name == "transfer-encoding" ==> HeaderAfter(p, w, max).TransferEncoding?
    ensures name == "connection" || name == "proxy-connection" ==> HeaderAfter(p, w, max).Connection?
    ensures name == "upgrade" ==> HeaderAfter(p, w, max).Upgrade?
  {
    hide Run, AnyCase, IsName, IsPlain;
    AnyCaseIsName(w, name);
    NamesInAnyCase(p, w, max);
  }

  /** The usual spellings reach their headers. */
  lemma UsualNames(p: Parser, max: nat)
    requires p.state.HeaderFieldStart? && p.nread + 18 <= max
    ensures HeaderAfter(p, "Content-Length", max).ContentLength? && HeaderAfter(p, "CONTENT-LENGTH", max).ContentLength?
    ensures HeaderAfter(p, "Transfer-Encoding", max).TransferEncoding?
    ensures HeaderAfter(p, "TRANSFER-ENCODING", max).TransferEncoding?
    ensures HeaderAfter(p, "Connection", max).Connection? && HeaderAfter(p, "CONNECTION", max).Connection?
    ensures HeaderAfter(p, "Proxy-Connection", max).Connection? && HeaderAfter(p, "PROXY-CONNECTION", max).Connection?
    ensures HeaderAfter(p, "Upgrade", max).Upgrade? && HeaderAfter(p, "UPGRADE", max).Upgrade?
  {
    NamesArePlain();
    hide HeaderAfter, AnyCase, IsPlain;
    UsualLengthNames();
    UsualCodingNames();
    UsualConnectionNames();
    UsualProxyNames();
    NameRead(p, "Content-Length", "content-length", max);
    NameRead(p, "CONTENT-LENGTH", "content-length", max);
    NameRead(p, "Transfer-Encoding", "transfer-encoding", max);
    NameRead(p, "TRANSFER-ENCODING", "transfer-encoding", max);
    NameRead(p, "Connection", "connection", max);
    NameRead(p, "CONNECTION", "connection", max);
    NameRead(p, "Proxy-Connection", "proxy-connection", max);
    NameRead(p, "PROXY-CONNECTION", "proxy-connection", max);
    NameRead(p, "Upgrade", "upgrade", max);
    NameRead(p, "UPGRADE", "upgrade", max);
  }

  // ---- Words in values ----

  lemma LowerIs(ch: char, d: char)
    requires (IsSmall(d) || d == '-') && ch != '\r'
    ensures Lower(ch) == d <==> SameLetter(ch, d)
  {}

  lemma LowerAllIs(w: string, name: string)
    requires IsPlain(name) && '\r' !in w
    ensures LowerAll(w) == name <==> AnyCase(w, name)
  {
    hide Lower, SameLetter;
    if |w| == |name| {
      forall i | 0 <= i < |w| ensures LowerAll(w)[i] == name[i] <==> SameLetter(w[i], name[i]) { LowerIs(w[i], name[i]); }
      if AnyCase(w, name) { assert LowerAll(w) == name; }
    }
  }

  lemma WordsArePlain()
    ensures IsPlain(KEEP_ALIVE) && IsPlain(CLOSE) && IsPlain(UPGRADE) && IsPlain(CHUNKED)
    ensures KEEP_ALIVE == "keep-alive" && CLOSE == "close" && UPGRADE == "upgrade" && CHUNKED == "chunked"
  {}

  /** A word, small or capital, with spaces behind it. */
  predicate IsTyped(v: string, word: string) {
    |v| >= |word| && AnyCase(v[..|word|], word) && forall i | |word| <= i < |v| :: v[i] == ' '
  }

  lemma SpacesBehind(v: string, n: nat)
    requires n <= |v|
    ensures Spaces(v[n..]) <==> forall i | n <= i < |v| :: v[i] == ' '
  {
    if Spaces(v[n..]) { assert forall i | n <= i < |v| :: v[i] == v[n..][i - n]; }
  }

  /** What the codings and the options are spelled like. */
  lemma WordsInAnyCase(v: string)
    requires '\r' !in v
    ensures IsChunked(v) <==> IsTyped(v, "chunked")
    ensures IsWord(v, Word(KeepAlive)) <==> IsTyped(v, "keep-alive")
    ensures IsWord(v, Word(Close)) <==> IsTyped(v, "close")
    ensures IsWord(v, Word(Switch)) <==> IsTyped(v, "upgrade")
  {
    hide LowerAll, AnyCase, Spaces, IsPlain;
    WordsArePlain();
    if |v| >= 7 { LowerAllIs(v[..7], "chunked"); LowerAllIs(v[..7], "upgrade"); SpacesBehind(v, 7); }
    if |v| >= 10 { LowerAllIs(v[..10], "keep-alive"); SpacesBehind(v, 10); }
    if |v| >= 5 { LowerAllIs(v[..5], "close"); SpacesBehind(v, 5); }
  }

  /** A value that is such a word and nothing else is read as that word. */
  lemma SingleWords(v: string)
    requires '\r' !in v && ',' !in v
    ensures EndsChunked(v) <==> IsTyped(v, "chunked")
    ensures Asks(v, KeepAlive) <==> IsTyped(v, "keep-alive")
    ensures Asks(v, Close) <==> IsTyped(v, "close")
    ensures Asks(v, Switch) <==> IsTyped(v, "upgrade")
  {
    hide IsTyped, IsChunked, IsWord, Codings, ShapeOf, Word;
    WordsInAnyCase(v);
    SingleCoding(v);
    SingleOption(v, KeepAlive);
    SingleOption(v, Close);
    SingleOption(v, Switch);
    OneReadingOf(v);
  }

  /** The usual spellings are read. */
  lemma UsualValues()
    ensures EndsChunked("chunked") && EndsChunked("Chunked")
    ensures Asks("close", Close) && Asks("Close", Close) && Asks("keep-alive", KeepAlive) && Asks("Keep-Alive", KeepAlive)
  {
    hide EndsChunked, Asks, AnyCase;
    UsualWords();
    WholeWord("chunked", "chunked");
    WholeWord("Chunked", "chunked");
    WholeWord("close", "close");
    WholeWord("Close", "close");
    WholeWord("keep-alive", "keep-alive");
    WholeWord("Keep-Alive", "keep-alive");
    SingleWords("chunked");
    SingleWords("Chunked");
    SingleWords("close");
    SingleWords("Close");
    SingleWords("keep-alive");
    SingleWords("Keep-Alive");
  }

  lemma WholeWord(w: string, word: string)
    requires AnyCase(w, word)
    ensures IsTyped(w, word)
  {
    assert w[..|word|] == w;
  }

  lemma OneReadingOf(v: string)
    ensures ReadingOf([v]) == Read
  {}

  lemma SingleOption(v: string, o: Opt)
    requires Codings(v) == [v]
    ensures Asks(v, o) <==> IsWord(v, Word(o))
  {
    hide Codings, IsWord, ShapeOf;
    ShapeIsWord(v, o);
    assert [v][..0] == [] && !Has([], o);
    OneReading(v);
  }

  // ---- Methods ----

/** The request words. */
  predicate IsRequestWord(w: string, m: Method) {
    || (w == "DELETE" && m.DELETE?) || (w == "GET" && m.GET?) || (w == "HEAD" && m.HEAD?) || (w == "POST" && m.POST?)
    || (w == "PUT" && m.PUT?) || (w == "CONNECT" && m.CONNECT?) || (w == "OPTIONS" && m.OPTIONS?)
    || (w == "TRACE" && m.TRACE?) || (w == "COPY" && m.COPY?) || (w == "LOCK" && m.LOCK?)
    || (w == "MKCOL" && m.MKCOL?) || (w == "MOVE" && m.MOVE?) || (w == "PROPFIND" && m.PROPFIND?)
    || (w == "PROPPATCH" && m.PROPPATCH?) || (w == "SEARCH" && m.SEARCH?) || (w == "UNLOCK" && m.UNLOCK?)
    || (w == "BIND" && m.BIND?) || (w == "REBIND" && m.REBIND?) || (w == "UNBIND" && m.UNBIND?)
    || (w == "ACL" && m.ACL?) || (w == "REPORT" && m.REPORT?) || (w == "MKACTIVITY" && m.MKACTIVITY?)
    || (w == "CHECKOUT" && m.CHECKOUT?) || (w == "MERGE" && m.MERGE?) || (w == "M-SEARCH" && m.MSEARCH?)
    || (w == "NOTIFY" && m.NOTIFY?) || (w == "SUBSCRIBE" && m.SUBSCRIBE?) || (w == "UNSUBSCRIBE" && m.UNSUBSCRIBE?)
    || (w == "PATCH" && m.PATCH?) || (w == "PURGE" && m.PURGE?) || (w == "MKCALENDAR" && m.MKCALENDAR?)
    || (w == "LINK" && m.LINK?) || (w == "UNLINK" && m.UNLINK?) || (w == "SOURCE" && m.SOURCE?)
  }

  lemma RequestWords(m: Method)
    ensures IsRequestWord(MethodString(m), m)
  {}

  lemma OneWord(w: string, v: string, m: Method)
    requires IsRequestWord(w, m) && IsRequestWord(v, m)
    ensures w == v
  {}

  /** Each request word is read as its method. */
  lemma MethodWords(p: Parser, w: string, m: Method, max: nat)
    requires p.state.StartReq? && IsRequestWord(w, m) && p.nread + |w| + 1 <= max
    ensures var r := Run(p, w + " ", max); r.stop.Go? && r.p.state.ReqSpacesBeforeUrl? && r.p.verb == m
  {
    hide Run, MethodString, IsRequestWord;
    RequestWords(m);
    OneWord(w, MethodString(m), m);
    MethodRead(p, m, max);
  }

  // ---- Request targets ----

  /** A URL may be a request target unless it is a schema with nothing behind it but colon and slashes, or nothing at all. */
  lemma TargetsMayEnd(t: Url.Pieces, connect: bool)
    requires Url.Lawful(t, connect)
    ensures MayEnd(Url.StateOf(t, connect)) <==> t.authority != "" || t.path != "" || t.question || t.hashes > 0
  {}

  predicate IsVisible(s: string) {
    forall c | c in s :: '!' <= c <= '~' && c != '#' && c != '?'
  }

  /** Every path of visible characters is taken for a path, and for a query what stands behind a question mark. */
  lemma VisibleTarget(s: string, q: string)
    requires IsVisible(s) && IsVisible(q)
    ensures Url.Split("/" + s, false) == Some(Url.NOTHING.(path := "/" + s))
    ensures Url.Split("/" + s + "?" + q, false) == Some(Url.NOTHING.(path := "/" + s, question := true, query := q))
  {
    var t := Url.NOTHING.(path := "/" + s);
    var u := t.(question := true, query := q);
    assert Url.Print(t) == "/" + s && Url.Print(u) == "/" + s + "?" + q;
    VisibleChars(s);
    VisibleChars(q);
    hide IsUrlChar;
    Url.PrintSplits(t, false);
    Url.PrintSplits(u, false);
  }

  lemma VisibleChars(s: string)
    requires IsVisible(s)
    ensures forall c | c in s :: IsUrlChar(c)
    ensures IsUrlChar('/')
  {}

  // ---- What a server prints ----

  lemma NameIs(l: Line)
    ensures IsLength(l) <==> AnyCase(l.name, "content-length")
    ensures Folded(l.name) == TRANSFER_ENCODING <==> AnyCase(l.name, "transfer-encoding")
  {
    hide Folded, AnyCase, IsPlain;
    NamesArePlain();
    FoldedIs(l.name, CONTENT_LENGTH);
    FoldedIs(l.name, TRANSFER_ENCODING);
  }

  /** Headers with a `Transfer-Encoding` that is `chunked`, and without a length, frame a body in chunks. */
  lemma ChunkedHeaders(ls: seq<Line>, i: nat)
    requires AreLines(ls) && i < |ls| && forall j | 0 <= j < |ls| :: !AnyCase(ls[j].name, "content-length")
    requires AnyCase(ls[i].name, "transfer-encoding") && IsTyped(ls[i].value, "chunked") && ls[i].folds == []
    ensures FrameOf(NO_FRAME, ls).Good?
    ensures var g := FrameOf(NO_FRAME, ls).frame; g.coded && g.chunked && g.length.None?
  {
    hide AnyCase, IsTyped, Folded, ChunkedSeen, LengthSeen, FrameOf, IsLength;
    FrameMeans(ls);
    forall j | 0 <= j < |ls| ensures !IsLength(ls[j]) { NameIs(ls[j]); }
    NameIs(ls[i]);
    TypedValue(ls[i]);
    SingleLook(ls[i].value);
    SingleWords(ls[i].value);
    assert IsChunkedCoding(ls[i]);
    assert IsCoding(ls[i]);
  }

  lemma TypedValue(l: Line)
    requires IsLine(l) && IsTyped(l.value, "chunked")
    ensures '\r' !in l.value && ',' !in l.value
  {
    var v := l.value;
    forall i | 0 <= i < |v| ensures v[i] != '\r' && v[i] != ',' {
      if i < 7 { assert SameLetter(v[..7][i], "chunked"[i]) && IsSmall("chunked"[i]); }
    }
  }

  /** A response whose `Transfer-Encoding` is `chunked`, with the names in any case of letters, and whose body is printed in
      chunks, in any split: the pieces put together are what was printed. */
  lemma ChunkedResponse(p: Parser, m: Message, i: nat, datas: seq<string>, calls: seq<Fed>, max: nat)
    requires IsHead(p, m, max) && m.first.Answer? && !p.verb.CONNECT? && m.content == Printed(datas)
    requires i < |m.headers| && AnyCase(m.headers[i].name, "transfer-encoding")
    requires IsTyped(m.headers[i].value, "chunked") && m.headers[i].folds == []
    requires forall j | 0 <= j < |m.headers| :: !AnyCase(m.headers[j].name, "content-length")
    requires max >= 18 && forall j :: 0 <= j < |datas| ==> 0 < |datas[j]| <= Largest(16)
    requires Chain(p, calls, max) && Input(calls) == Print(m)
    ensures DataOf(Merge(Outcome(p, calls).events)) == Concat(datas)
    ensures Merge(Outcome(p, calls).events)
      == FirstReport(m.first) + (Report(m.headers) + [Notify(HeadersComplete)] + ReportOf(Sized(datas)))
  {
    hide AnyCase, IsTyped, FrameOf, AreLines, IsFirst, Front, HeaderText, Chain, Outcome, Merge, Print, Report, ReportOf, Sized;
    ChunkedHeaders(m.headers, i);
    PrintedMessage(p, m, datas, calls, max);
  }

  /** The line that such a server prints first. */
  lemma OkLine(p: Parser, max: nat)
    requires p.state.StartRes? && p.nread + 17 <= max
    ensures var r := Run(p, "HTTP/1.0 200 OK\r\n", max);
      && r.stop.Go? && r.p.state.HeaderFieldStart? && r.p.statusCode == 200 && r.p.httpMajor == 1 && r.p.httpMinor == 0
      && Merge(r.events) == [Notify(MessageBegin), Data(DataKind.Status, "OK")]
  {
    hide Run, Merge;
    assert StatusLine('1', '0', "", "200", Some("OK"), CRLF) == "HTTP/1.0 200 OK\r\n";
    assert Spelled("200", 10) == 200 by {
      assert "200"[..2] == "20" && "20"[..1] == "2" && "2"[..0] == "";
      assert Spelled("", 10) == 0 && Spelled("2", 10) == 2 && Spelled("20", 10) == 20;
    }
    StatusLineRead(p, '1', '0', "", "200", Some("OK"), CRLF, max);
  }

  /** The line of a request for a path of visible characters. */
  lemma GetLine(p: Parser, s: string, max: nat)
    requires p.state.StartReq? && IsVisible(s) && p.nread + 16 + |s| <= max
    ensures var r := Run(p, "GET /" + s + " HTTP/1.1\r\n", max);
      && r.stop.Go? && r.p.state.HeaderFieldStart? && r.p.verb.GET? && r.p.httpMajor == 1 && r.p.httpMinor == 1
      && Merge(r.events) == [Notify(MessageBegin), Data(DataKind.Url, "/" + s)]
  {
    hide Run, Merge, Url.Split;
    var v := Version("", false, '1', '1', CRLF);
    assert MethodString(GET) == "GET" && VersionText(v) == " HTTP/1.1\r\n";
    assert RequestLine(GET, "", "/" + s, v) == "GET /" + s + " HTTP/1.1\r\n";
    VisibleTarget(s, "");
    assert NoSpace("/" + s) by { assert forall i | 0 < i <= |s| :: ("/" + s)[i] == s[i - 1] && s[i - 1] in s; }
    RequestLineRead(p, GET, "", "/" + s, v, max);
  }
}
