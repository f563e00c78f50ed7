/** What the parser does with one byte, state by state. */
module HttpStep {
  import opened Basics
  import opened HttpChars
  import opened HttpTypes

  // ---- Request line ----

  function MethodString(m: Method): (s: string)
    ensures 0 < |s| <= 11
  {
    match m
    case DELETE => "DELETE" case GET => "GET" case HEAD => "HEAD" case POST => "POST" case PUT => "PUT"
    case CONNECT => "CONNECT" case OPTIONS => "OPTIONS" case TRACE => "TRACE"
    case COPY => "COPY" case LOCK => "LOCK" case MKCOL => "MKCOL" case MOVE => "MOVE" case PROPFIND => "PROPFIND"
    case PROPPATCH => "PROPPATCH" case SEARCH => "SEARCH" case UNLOCK => "UNLOCK" case BIND => "BIND"
    case REBIND => "REBIND" case UNBIND => "UNBIND" case ACL => "ACL"
    case REPORT => "REPORT" case MKACTIVITY => "MKACTIVITY" case CHECKOUT => "CHECKOUT" case MERGE => "MERGE"
    case MSEARCH => "M-SEARCH" case NOTIFY => "NOTIFY" case SUBSCRIBE => "SUBSCRIBE" case UNSUBSCRIBE => "UNSUBSCRIBE"
    case PATCH => "PATCH" case PURGE => "PURGE" case MKCALENDAR => "MKCALENDAR"
    case LINK => "LINK" case UNLINK => "UNLINK" case SOURCE => "SOURCE"
  }

  /** The candidate that the first letter selects. */
  function FirstCandidate(ch: char): Option<Method> {
    if ch == 'A' then Some(ACL) else if ch == 'B' then Some(BIND) else if ch == 'C' then Some(CONNECT)
    else if ch == 'D' then Some(DELETE) else if ch == 'G' then Some(GET) else if ch == 'H' then Some(HEAD)
    else if ch == 'L' then Some(LOCK) else if ch == 'M' then Some(MKCOL) else if ch == 'N' then Some(NOTIFY)
    else if ch == 'O' then Some(OPTIONS) else if ch == 'P' then Some(POST) else if ch == 'R' then Some(REPORT)
    else if ch == 'S' then Some(SUBSCRIBE) else if ch == 'T' then Some(TRACE) else if ch == 'U' then Some(UNLOCK)
    else None
  }

  /** The candidate to change to when `ch` is not the next letter of `m`. */
  function SwitchCandidate(m: Method, i: nat, ch: char): Option<Method> {
    match m
    case POST => if i == 1 && ch == 'U' then Some(PUT) else if i == 1 && ch == 'A' then Some(PATCH)
                 else if i == 1 && ch == 'R' then Some(PROPFIND) else None
    case PUT => if i == 2 && ch == 'R' then Some(PURGE) else None
    case CONNECT => if i == 1 && ch == 'H' then Some(CHECKOUT) else if i == 2 && ch == 'P' then Some(COPY) else None
    case MKCOL => if i == 1 && ch == 'O' then Some(MOVE) else if i == 1 && ch == 'E' then Some(MERGE)
                  else if i == 1 && ch == '-' then Some(MSEARCH) else if i == 2 && ch == 'A' then Some(MKACTIVITY)
                  else if i == 3 && ch == 'A' then Some(MKCALENDAR) else None
    case SUBSCRIBE => if i == 1 && ch == 'E' then Some(SEARCH) else if i == 1 && ch == 'O' then Some(SOURCE) else None
    case REPORT => if i == 2 && ch == 'B' then Some(REBIND) else None
    case PROPFIND => if i == 4 && ch == 'P' then Some(PROPPATCH) else None
    case LOCK => if i == 1 && ch == 'I' then Some(LINK) else None
    case UNLOCK => if i == 2 && ch == 'S' then Some(UNSUBSCRIBE) else if i == 2 && ch == 'B' then Some(UNBIND)
                   else if i == 3 && ch == 'I' then Some(UNLINK) else None
    case _ => None
  }

  /** The index field has five bits. */
  function Inc(i: nat): nat { (i + 1) % 32 }

  function StartMessage(p: Parser): Parser {
    p.(flags := NO_FLAGS, usesTransferEncoding := false, contentLength := ULLONG_MAX)
  }

  predicate IsBreak(ch: char) { ch == '\r' || ch == '\n' }

  function StepStartReq(p: Parser, ch: char): Out {
    if IsBreak(ch) then Ok(p, [])
    else
      var p1 := StartMessage(p);
      match FirstCandidate(ch)
      case None => Err(p1, InvalidMethod)
      case Some(m) => Ok(p1.(verb := m, index := 1, state := ReqMethod), [Call(MessageBegin)])
  }

  function StepStartReqOrRes(p: Parser, ch: char): Out {
    if IsBreak(ch) then Ok(p, [])
    else
      var p1 := StartMessage(p);
      if ch == 'H' then Ok(p1.(state := ResOrRespH), [Call(MessageBegin)])
      else StepStartReq(p1.(kind := Request, state := StartReq), ch)
  }

  function StepResOrRespH(p: Parser, ch: char): Out {
    if ch == 'T' then Ok(p.(kind := Response, state := ResHT), [])
    else if ch != 'E' then Err(p, InvalidConstant)
    else Ok(p.(kind := Request, verb := HEAD, index := 2, state := ReqMethod), [])
  }

  function StepReqMethod(p: Parser, ch: char): Out {
    if ch == '\0' then Err(p, InvalidMethod)
    else
      var expected := At(MethodString(p.verb), p.index);
      if ch == ' ' && expected == '\0' then Ok(p.(state := ReqSpacesBeforeUrl, index := Inc(p.index)), [])
      else if ch == expected then Ok(p.(index := Inc(p.index)), [])
      else if 'A' <= ch <= 'Z' || ch == '-' then
        match SwitchCandidate(p.verb, p.index, ch)
        case None => Err(p, InvalidMethod)
        case Some(m) => Ok(p.(verb := m, index := Inc(p.index)), [])
      else Err(p, InvalidMethod)
  }

  // ---- URL ----

  predicate IsAuthorityChar(ch: char) { IsUserinfoChar(ch) || ch == '[' || ch == ']' }

  function ServerChar(ch: char): State {
    if ch == '/' then ReqPath
    else if ch == '?' then ReqQueryStringStart
    else if ch == '@' then ReqServerWithAt
    else if IsAuthorityChar(ch) then ReqServer
    else Dead
  }

  /** `parse_url_char`. */
  function ParseUrlChar(s: State, ch: char): State {
    if ch == ' ' || ch == '\r' || ch == '\n' || ch == '\t' || ch as int == 12 then Dead
    else
      match s
      case ReqSpacesBeforeUrl => if ch == '/' || ch == '*' then ReqPath else if IsAlpha(ch) then ReqSchema else Dead
      case ReqSchema => if IsSchemaChar(ch) then ReqSchema else if ch == ':' then ReqSchemaSlash else Dead
      case ReqSchemaSlash => if ch == '/' then ReqSchemaSlashSlash else Dead
      case ReqSchemaSlashSlash => if ch == '/' then ReqServerStart else Dead
      case ReqServerWithAt => if ch == '@' then Dead else ServerChar(ch)
      case ReqServerStart => ServerChar(ch)
      case ReqServer => ServerChar(ch)
      case ReqPath =>
        if IsUrlChar(ch) then ReqPath else if ch == '?' then ReqQueryStringStart
        else if ch == '#' then ReqFragmentStart else Dead
      case ReqQueryStringStart =>
        if IsUrlChar(ch) || ch == '?' then ReqQueryString else if ch == '#' then ReqFragmentStart else Dead
      case ReqQueryString =>
        if IsUrlChar(ch) || ch == '?' then ReqQueryString else if ch == '#' then ReqFragmentStart else Dead
      case ReqFragmentStart =>
        if IsUrlChar(ch) || ch == '?' then ReqFragment else if ch == '#' then ReqFragmentStart else Dead
      case ReqFragment => if IsUrlChar(ch) || ch == '?' || ch == '#' then ReqFragment else Dead
      case _ => Dead
  }

  function UrlChar(p: Parser, s: State, ch: char, acts: seq<Act>): Out {
    var s1 := ParseUrlChar(s, ch);
    if s1.Dead? then Err(p, InvalidUrl) else Ok(p.(state := s1), acts)
  }

  function StepSpacesBeforeUrl(p: Parser, ch: char): Out {
    if ch == ' ' then Ok(p, [])
    else UrlChar(p, if p.verb.CONNECT? then ReqServerStart else p.state, ch, [SetMark(Url)])
  }

  /** The states in which the URL may not end yet. */
  function StepUrlHead(p: Parser, ch: char): Out {
    if ch == ' ' || IsBreak(ch) then Err(p, InvalidUrl) else UrlChar(p, p.state, ch, [])
  }

  function StepUrlTail(p: Parser, ch: char): Out {
    if ch == ' ' then Ok(p.(state := ReqHttpStart), [Flush(Url)])
    else if IsBreak(ch) then
      Ok(p.(httpMajor := 0, httpMinor := 9, state := if ch == '\r' then ReqLineAlmostDone else HeaderFieldStart), [Flush(Url)])
    else UrlChar(p, p.state, ch, [])
  }

  // ---- Versions and the status line ----

  function Expect(p: Parser, ch: char, want: char, next: State, e: Errno): Out {
    if ch == want then Ok(p.(state := next), []) else Err(p, e)
  }

  function StepReqHttpStart(p: Parser, ch: char): Out {
    if ch == ' ' then Ok(p, [])
    else if ch == 'H' then Ok(p.(state := ReqHttpH), [])
    else if ch == 'I' && p.verb.SOURCE? then Ok(p.(state := ReqHttpI), [])
    else Err(p, InvalidConstant)
  }

  function StepMajor(p: Parser, ch: char, next: State): Out {
    if IsNum(ch) then Ok(p.(httpMajor := Digit(ch), state := next), []) else Err(p, InvalidVersion)
  }

  function StepMinor(p: Parser, ch: char, next: State): Out {
    if IsNum(ch) then Ok(p.(httpMinor := Digit(ch), state := next), []) else Err(p, InvalidVersion)
  }

  function StepReqHttpEnd(p: Parser, ch: char): Out {
    if ch == '\r' then Ok(p.(state := ReqLineAlmostDone), [])
    else if ch == '\n' then Ok(p.(state := HeaderFieldStart), [])
    else Err(p, InvalidVersion)
  }

  function StepStartRes(p: Parser, ch: char): Out {
    if IsBreak(ch) then Ok(p, [])
    else
      var p1 := StartMessage(p);
      if ch == 'H' then Ok(p1.(state := ResH), [Call(MessageBegin)]) else Err(p1, InvalidConstant)
  }

  function StepFirstStatusCode(p: Parser, ch: char): Out {
    if IsNum(ch) then Ok(p.(statusCode := Digit(ch), state := ResStatusCode), [])
    else if ch == ' ' then Ok(p, [])
    else Err(p, InvalidStatus)
  }

  function StepStatusCode(p: Parser, ch: char): Out {
    if IsNum(ch) then
      var code := p.statusCode * 10 + Digit(ch);
      if code > 999 then Err(p.(statusCode := code), InvalidStatus) else Ok(p.(statusCode := code), [])
    else if ch == ' ' then Ok(p.(state := ResStatusStart), [])
    else if IsBreak(ch) then StepStatusStart(p.(state := ResStatusStart), ch)
    else Err(p, InvalidStatus)
  }

  function StepStatusStart(p: Parser, ch: char): Out {
    var p1 := p.(state := ResStatus, index := 0);
    if IsBreak(ch) then Then([SetMark(Status)], StepStatus(p1, ch)) else Ok(p1, [SetMark(Status)])
  }

  function StepStatus(p: Parser, ch: char): Out {
    if ch == '\r' then Ok(p.(state := ResLineAlmostDone), [Flush(Status)])
    else if ch == '\n' then Ok(p.(state := HeaderFieldStart), [Flush(Status)])
    else Ok(p, [])
  }

  // ---- Header fields ----

  function StepHeaderFieldStart(p: Parser, ch: char): Out {
    if ch == '\r' then Ok(p.(state := HeadersAlmostDone), [])
    else if ch == '\n' then StepHeadersAlmostDone(p.(state := HeadersAlmostDone), ch)
    else
      var c := Token(ch);
      if c == '\0' then Err(p, InvalidHeaderToken)
      else
        var h := if c == 'c' then C else if c == 'p' then MatchingProxyConnection
                 else if c == 't' then MatchingTransferEncoding else if c == 'u' then MatchingUpgrade else General;
        Ok(p.(index := 0, state := HeaderField, headerState := h), [SetMark(Field)])
  }

  const CONNECTION := "connection"
  const PROXY_CONNECTION := "proxy-connection"
  const CONTENT_LENGTH := "content-length"
  const TRANSFER_ENCODING := "transfer-encoding"
  const UPGRADE := "upgrade"
  const CHUNKED := "chunked"
  const KEEP_ALIVE := "keep-alive"
  const CLOSE := "close"

  /** One more character of a name that is being matched. */
  function MatchName(name: string, i: nat, c: char, matching: HeaderState, failed: HeaderState, found: HeaderState): HeaderState {
    if i > |name| || c != At(name, i) then failed
    else if i == |name| - 1 then found
    else matching
  }

  /** The header state after token character `c` at index `i`. */
  function FieldChar(h: HeaderState, i: nat, c: char, ch: char): HeaderState {
    match h
    case General => General
    case C => if c == 'o' then CO else General
    case CO => if c == 'n' then CON else General
    case CON => if c == 'n' then MatchingConnection else if c == 't' then MatchingContentLength else General
    case MatchingConnection => MatchName(CONNECTION, i, c, h, General, Connection)
    case MatchingProxyConnection => MatchName(PROXY_CONNECTION, i, c, h, General, Connection)
    case MatchingContentLength => MatchName(CONTENT_LENGTH, i, c, h, General, ContentLength)
    case MatchingTransferEncoding => MatchName(TRANSFER_ENCODING, i, c, h, General, TransferEncoding)
    case MatchingUpgrade => MatchName(UPGRADE, i, c, h, General, Upgrade)
    case _ => if ch != ' ' then General else h
  }

  /** Header states in which a field name is read; the others are an internal error there. */
  predicate IsFieldState(h: HeaderState) {
    || h.General? || h.C? || h.CO? || h.CON? || h.MatchingConnection? || h.MatchingProxyConnection?
    || h.MatchingContentLength? || h.MatchingTransferEncoding? || h.MatchingUpgrade?
    || h.Connection? || h.ContentLength? || h.TransferEncoding? || h.Upgrade?
  }

  predicate CountsIndex(h: HeaderState) {
    || h.C? || h.CO? || h.CON? || h.MatchingConnection? || h.MatchingProxyConnection?
    || h.MatchingContentLength? || h.MatchingTransferEncoding? || h.MatchingUpgrade?
  }

  function FieldStep(p: Parser, ch: char): Parser {
    var i := if CountsIndex(p.headerState) then Inc(p.index) else p.index;
    var h := FieldChar(p.headerState, i, Token(ch), ch);
    p.(index := i, headerState := h,
       usesTransferEncoding := p.usesTransferEncoding || (p.headerState.MatchingTransferEncoding? && h.TransferEncoding?))
  }

  function StepHeaderField(p: Parser, ch: char): Out {
    if Token(ch) != '\0' then
      if IsFieldState(p.headerState) then Ok(FieldStep(p, ch), []) else Err(p, AssertionFailed)
    else if ch == ':' then Ok(p.(state := HeaderValueDiscardWs), [Flush(Field)])
    else Err(p, InvalidHeaderToken)
  }

  // ---- Header values ----

  function StepDiscardWs(p: Parser, ch: char): Out {
    if ch == ' ' || ch == '\t' then Ok(p, [])
    else if ch == '\r' then Ok(p.(state := HeaderValueDiscardWsAlmostDone), [])
    else if ch == '\n' then Ok(p.(state := HeaderValueDiscardLws), [])
    else StepValueStart(p, ch)
  }

  function StepValueStart(p: Parser, ch: char): Out {
    var q := p.(state := HeaderValue, index := 0);
    var c := Lower(ch);
    var acts := [SetMark(Value)];
    match p.headerState
    case Upgrade => Ok(q.(flags := q.flags.(upgrade := true), headerState := General), acts)
    case TransferEncoding => Ok(q.(headerState := if c == 'c' then MatchingTeChunked else MatchingTeToken), acts)
    case MatchingTeTokenStart => Ok(q, acts)
    case ContentLength =>
      if !IsNum(ch) then Out(q, acts, Fail(InvalidContentLength))
      else if p.flags.contentLength then Out(q, acts, Fail(UnexpectedContentLength))
      else Ok(q.(flags := q.flags.(contentLength := true), contentLength := Digit(ch), headerState := ContentLengthNum), acts)
    case ContentLengthWs => Ok(q, acts)
    case Connection =>
      Ok(q.(headerState := if c == 'k' then MatchingConnKeepAlive else if c == 'c' then MatchingConnClose
                           else if c == 'u' then MatchingConnUpgrade else MatchingConnToken), acts)
    case MatchingConnTokenStart => Ok(q, acts)
    case _ => Ok(q.(headerState := General), acts)
  }

  /** A 64-bit multiply-and-add, and the conservative guard in front of it. */
  function Shift(length: nat, base: nat, digit: nat): nat {
    (length * base + digit) % (ULLONG_MAX + 1)
  }

  predicate MayOverflow(length: nat, base: nat)
    requires base > 0
  {
    (ULLONG_MAX - base) / base < length
  }

  function LengthChar(p: Parser, ch: char): Out {
    if ch == ' ' then Ok(p.(headerState := ContentLengthWs), [])
    else if !IsNum(ch) || MayOverflow(p.contentLength, 10) then Err(p, InvalidContentLength)
    else Ok(p.(headerState := ContentLengthNum, contentLength := Shift(p.contentLength, 10, Digit(ch))), [])
  }

  function TeChar(p: Parser, ch: char): Parser {
    var c := Lower(ch);
    match p.headerState
    case MatchingTeTokenStart =>
      p.(headerState := if c == 'c' then MatchingTeChunked else if Token(c) != '\0' then MatchingTeToken
                        else if c == ' ' || c == '\t' then MatchingTeTokenStart else General)
    case MatchingTeChunked =>
      var i := Inc(p.index);
      p.(index := i, headerState := MatchName(CHUNKED, i, c, MatchingTeChunked, MatchingTeToken, TeChunked))
    case MatchingTeToken =>
      if ch == ',' then p.(headerState := MatchingTeTokenStart, index := 0) else p
    case TeChunked => if ch != ' ' then p.(headerState := MatchingTeToken) else p
    case _ => p
  }

  function MatchConn(p: Parser, ch: char, name: string, found: HeaderState): Parser {
    var i := Inc(p.index);
    p.(index := i, headerState := MatchName(name, i, Lower(ch), p.headerState, MatchingConnToken, found))
  }

  /** The flag that a completed `Connection` option sets. */
  function OptionFlag(h: HeaderState, f: Flags): Flags {
    match h
    case ConnKeepAlive => f.(keepAlive := true)
    case ConnClose => f.(close := true)
    case ConnUpgrade => f.(connUpgrade := true)
    case _ => f
  }

  function ConnChar(p: Parser, ch: char): Parser {
    var c := Lower(ch);
    match p.headerState
    case MatchingConnTokenStart =>
      p.(headerState := if c == 'k' then MatchingConnKeepAlive else if c == 'c' then MatchingConnClose
                        else if c == 'u' then MatchingConnUpgrade else if Token(c) != '\0' then MatchingConnToken
                        else if c == ' ' || c == '\t' then MatchingConnTokenStart else General)
    case MatchingConnKeepAlive => MatchConn(p, ch, KEEP_ALIVE, ConnKeepAlive)
    case MatchingConnClose => MatchConn(p, ch, CLOSE, ConnClose)
    case MatchingConnUpgrade => MatchConn(p, ch, UPGRADE, ConnUpgrade)
    case MatchingConnToken => if ch == ',' then p.(headerState := MatchingConnTokenStart, index := 0) else p
    case _ =>
      if ch == ',' then
        p.(flags := OptionFlag(p.headerState, p.flags), headerState := MatchingConnTokenStart, index := 0)
      else if ch != ' ' then p.(headerState := MatchingConnToken) else p
  }

  /** The states of a `Transfer-Encoding` value. */
  predicate InTe(h: HeaderState) {
    h.MatchingTeTokenStart? || h.MatchingTeChunked? || h.MatchingTeToken? || h.TeChunked?
  }

  /** The states of a `Connection` value. */
  predicate InConn(h: HeaderState) {
    || h.MatchingConnTokenStart? || h.MatchingConnKeepAlive? || h.MatchingConnClose? || h.MatchingConnUpgrade?
    || h.MatchingConnToken? || h.ConnKeepAlive? || h.ConnClose? || h.ConnUpgrade?
  }

  /** A character of a value that is neither a list of codings nor of options. */
  function PlainValueChar(p: Parser, ch: char): Out {
    var h := p.headerState;
    if h.Connection? || h.TransferEncoding? then Err(p, AssertionFailed)
    else if h.ContentLength? && ch == ' ' then Ok(p, [])
    else if h.ContentLength? || h.ContentLengthNum? then LengthChar(p, ch)
    else if h.ContentLengthWs? then if ch == ' ' then Ok(p, []) else Err(p, InvalidContentLength)
    else Ok(p.(headerState := General), [])
  }

  /** A value character other than CR and LF. */
  function ValueChar(p: Parser, ch: char): Out {
    if !IsHeaderChar(ch) then Err(p, InvalidHeaderToken)
    else if InTe(p.headerState) then Ok(TeChar(p, ch), [])
    else if InConn(p.headerState) then Ok(ConnChar(p, ch), [])
    else PlainValueChar(p, ch)
  }

  function StepHeaderValue(p: Parser, ch: char): Out {
    if ch == '\r' then Ok(p.(state := HeaderAlmostDone), [Flush(Value)])
    else if ch == '\n' then Then([Flush(Value)], StepHeaderAlmostDone(p.(state := HeaderAlmostDone), ch))
    else ValueChar(p, ch)
  }

  function StepHeaderAlmostDone(p: Parser, ch: char): Out {
    Expect(p, ch, '\n', HeaderValueLws, LfExpected)
  }

  /** The flag that a finished header sets. */
  function HeaderFlag(h: HeaderState, f: Flags): Flags {
    if h.TeChunked? then f.(chunked := true) else OptionFlag(h, f)
  }

  function StepValueLws(p: Parser, ch: char): Out {
    if ch == ' ' || ch == '\t' then
      StepValueStart(p.(headerState := if p.headerState.ContentLengthNum? then ContentLengthWs else p.headerState,
                        state := HeaderValueStart), ch)
    else StepHeaderFieldStart(p.(flags := HeaderFlag(p.headerState, p.flags), state := HeaderFieldStart), ch)
  }

  function StepDiscardLws(p: Parser, ch: char): Out {
    if ch == ' ' || ch == '\t' then Ok(p.(state := HeaderValueDiscardWs), [])
    else if p.headerState.ContentLength? then Err(p, InvalidContentLength)
    else
      Then([SetMark(Value), Flush(Value)],
           StepHeaderFieldStart(p.(flags := HeaderFlag(p.headerState, p.flags), state := HeaderFieldStart), ch))
  }

  // ---- End of the headers ----

  function StepHeadersAlmostDone(p: Parser, ch: char): Out {
    if ch != '\n' then Err(p, Strict)
    else if p.flags.trailing then Then([Call(ChunkComplete)], StepMessageDone(p.(state := MessageDone)))
    else if p.usesTransferEncoding && p.flags.contentLength && !(p.flags.chunked && p.allowChunkedLength) then
      Err(p, UnexpectedContentLength)
    else
      var up := if p.flags.upgrade && p.flags.connUpgrade then p.kind.Request? || p.statusCode == 101
                else p.verb.CONNECT?;
      Then([Call(HeadersComplete)], StepHeadersDone(p.(state := HeadersDone, upgrade := up), ch))
  }

  /** `http_message_needs_eof`. */
  predicate NeedsEof(p: Parser) {
    if p.kind.Request? then false
    else if p.statusCode / 100 == 1 || p.statusCode == 204 || p.statusCode == 304 || p.flags.skipBody then false
    else if p.usesTransferEncoding && !p.flags.chunked then true
    else if p.flags.chunked || p.contentLength != ULLONG_MAX then false
    else true
  }

  /** `http_should_keep_alive`. */
  predicate ShouldKeepAlive(p: Parser) {
    && (if p.httpMajor > 0 && p.httpMinor > 0 then !p.flags.close else p.flags.keepAlive)
    && !NeedsEof(p)
  }

  function NewMessage(p: Parser): State {
    if ShouldKeepAlive(p) then (if p.kind.Request? then StartReq else StartRes) else Dead
  }

  predicate HasBody(p: Parser) {
    p.flags.chunked || (p.contentLength > 0 && p.contentLength != ULLONG_MAX)
  }

  function StepHeadersDone(p: Parser, ch: char): Out {
    if ch != '\n' then Err(p, Strict)
    else
      var q := p.(nread := 0);
      var complete := q.(state := NewMessage(q));
      if q.upgrade && (q.verb.CONNECT? || q.flags.skipBody || !HasBody(q)) then
        Out(complete, [Call(MessageComplete)], Exit)
      else if q.flags.skipBody then Ok(complete, [Call(MessageComplete)])
      else if q.flags.chunked then Ok(q.(state := ChunkSizeStart), [])
      else if q.usesTransferEncoding then
        if q.kind.Request? then Err(q, InvalidTransferEncoding) else Ok(q.(state := BodyIdentityEof), [])
      else if q.contentLength == 0 then Ok(complete, [Call(MessageComplete)])
      else if q.contentLength != ULLONG_MAX then Ok(q.(state := BodyIdentity), [])
      else if !NeedsEof(q) then Ok(complete, [Call(MessageComplete)])
      else Ok(q.(state := BodyIdentityEof), [])
  }

  function StepMessageDone(p: Parser): Out {
    Out(p.(state := NewMessage(p)), [Call(MessageComplete)], if p.upgrade then Exit else Go)
  }

  // ---- Bodies ----

  predicate LengthInUse(p: Parser) { p.contentLength != 0 && p.contentLength != ULLONG_MAX }

  function StepBodyIdentity(p: Parser): Out {
    if !LengthInUse(p) then Err(p, AssertionFailed)
    else
      var q := p.(contentLength := p.contentLength - 1);
      if q.contentLength == 0
      then Then([SetMark(Body), FlushWith(Body)], StepMessageDone(q.(state := MessageDone)))
      else Ok(q, [SetMark(Body)])
  }

  function StepChunkSizeStart(p: Parser, ch: char): Out {
    if p.nread != 1 || !p.flags.chunked then Err(p, AssertionFailed)
    else if Unhex(ch) == -1 then Err(p, InvalidChunkSize)
    else Ok(p.(contentLength := Unhex(ch), state := ChunkSize), [])
  }

  function StepChunkSize(p: Parser, ch: char): Out {
    if !p.flags.chunked then Err(p, AssertionFailed)
    else if ch == '\r' then Ok(p.(state := ChunkSizeAlmostDone), [])
    else if Unhex(ch) == -1 then
      if ch == ';' || ch == ' ' then Ok(p.(state := ChunkParameters), []) else Err(p, InvalidChunkSize)
    else if MayOverflow(p.contentLength, 16) then Err(p, InvalidContentLength)
    else Ok(p.(contentLength := Shift(p.contentLength, 16, Unhex(ch))), [])
  }

  function StepChunkParameters(p: Parser, ch: char): Out {
    if !p.flags.chunked then Err(p, AssertionFailed)
    else if ch == '\r' then Ok(p.(state := ChunkSizeAlmostDone), [])
    else Ok(p, [])
  }

  function StepChunkSizeAlmostDone(p: Parser, ch: char): Out {
    if !p.flags.chunked then Err(p, AssertionFailed)
    else if ch != '\n' then Err(p, Strict)
    else if p.contentLength == 0 then
      Ok(p.(nread := 0, flags := p.flags.(trailing := true), state := HeaderFieldStart), [Call(ChunkHeader)])
    else Ok(p.(nread := 0, state := ChunkData), [Call(ChunkHeader)])
  }

  function StepChunkData(p: Parser): Out {
    if !p.flags.chunked || !LengthInUse(p) then Err(p, AssertionFailed)
    else
      var q := p.(contentLength := p.contentLength - 1);
      Ok(if q.contentLength == 0 then q.(state := ChunkDataAlmostDone) else q, [SetMark(Body)])
  }

  function StepChunkDataAlmostDone(p: Parser, ch: char): Out {
    if !p.flags.chunked || p.contentLength != 0 then Err(p, AssertionFailed)
    else if ch != '\r' then Err(p, Strict)
    else Ok(p.(state := ChunkDataDone), [Flush(Body)])
  }

  function StepChunkDataDone(p: Parser, ch: char): Out {
    if !p.flags.chunked then Err(p, AssertionFailed)
    else if ch != '\n' then Err(p, Strict)
    else Ok(p.(nread := 0, state := ChunkSizeStart), [Call(ChunkComplete)])
  }

  function StepDead(p: Parser, ch: char): Out {
    if IsBreak(ch) then Ok(p, []) else Err(p, ClosedConnection)
  }

  /** The switch over the states. */
  function Dispatch(p: Parser, ch: char): Out {
    match p.state
    case Dead => StepDead(p, ch)
    case StartReqOrRes => StepStartReqOrRes(p, ch)
    case ResOrRespH => StepResOrRespH(p, ch)
    case StartRes => StepStartRes(p, ch)
    case ResH => Expect(p, ch, 'T', ResHT, Strict)
    case ResHT => Expect(p, ch, 'T', ResHTT, Strict)
    case ResHTT => Expect(p, ch, 'P', ResHTTP, Strict)
    case ResHTTP => Expect(p, ch, '/', ResHttpMajor, Strict)
    case ResHttpMajor => StepMajor(p, ch, ResHttpDot)
    case ResHttpDot => Expect(p, ch, '.', ResHttpMinor, InvalidVersion)
    case ResHttpMinor => StepMinor(p, ch, ResHttpEnd)
    case ResHttpEnd => Expect(p, ch, ' ', ResFirstStatusCode, InvalidVersion)
    case ResFirstStatusCode => StepFirstStatusCode(p, ch)
    case ResStatusCode => StepStatusCode(p, ch)
    case ResStatusStart => StepStatusStart(p, ch)
    case ResStatus => StepStatus(p, ch)
    case ResLineAlmostDone => Expect(p, ch, '\n', HeaderFieldStart, Strict)
    case StartReq => StepStartReq(p, ch)
    case ReqMethod => StepReqMethod(p, ch)
    case ReqSpacesBeforeUrl => StepSpacesBeforeUrl(p, ch)
    case ReqSchema => StepUrlHead(p, ch)
    case ReqSchemaSlash => StepUrlHead(p, ch)
    case ReqSchemaSlashSlash => StepUrlHead(p, ch)
    case ReqServerStart => StepUrlHead(p, ch)
    case ReqServer => StepUrlTail(p, ch)
    case ReqServerWithAt => StepUrlTail(p, ch)
    case ReqPath => StepUrlTail(p, ch)
    case ReqQueryStringStart => StepUrlTail(p, ch)
    case ReqQueryString => StepUrlTail(p, ch)
    case ReqFragmentStart => StepUrlTail(p, ch)
    case ReqFragment => StepUrlTail(p, ch)
    case ReqHttpStart => StepReqHttpStart(p, ch)
    case ReqHttpH => Expect(p, ch, 'T', ReqHttpHT, Strict)
    case ReqHttpHT => Expect(p, ch, 'T', ReqHttpHTT, Strict)
    case ReqHttpHTT => Expect(p, ch, 'P', ReqHttpHTTP, Strict)
    case ReqHttpHTTP => Expect(p, ch, '/', ReqHttpMajor, Strict)
    case ReqHttpI => Expect(p, ch, 'C', ReqHttpIC, Strict)
    case ReqHttpIC => Expect(p, ch, 'E', ReqHttpHTTP, Strict)
    case ReqHttpMajor => StepMajor(p, ch, ReqHttpDot)
    case ReqHttpDot => Expect(p, ch, '.', ReqHttpMinor, InvalidVersion)
    case ReqHttpMinor => StepMinor(p, ch, ReqHttpEnd)
    case ReqHttpEnd => StepReqHttpEnd(p, ch)
    case ReqLineAlmostDone => Expect(p, ch, '\n', HeaderFieldStart, LfExpected)
    case HeaderFieldStart => StepHeaderFieldStart(p, ch)
    case HeaderField => StepHeaderField(p, ch)
    case HeaderValueDiscardWs => StepDiscardWs(p, ch)
    case HeaderValueDiscardWsAlmostDone => Expect(p, ch, '\n', HeaderValueDiscardLws, Strict)
    case HeaderValueDiscardLws => StepDiscardLws(p, ch)
    case HeaderValueStart => StepValueStart(p, ch)
    case HeaderValue => StepHeaderValue(p, ch)
    case HeaderValueLws => StepValueLws(p, ch)
    case HeaderAlmostDone => StepHeaderAlmostDone(p, ch)
    case ChunkSizeStart => StepChunkSizeStart(p, ch)
    case ChunkSize => StepChunkSize(p, ch)
    case ChunkParameters => StepChunkParameters(p, ch)
    case ChunkSizeAlmostDone => StepChunkSizeAlmostDone(p, ch)
    case HeadersAlmostDone => StepHeadersAlmostDone(p, ch)
    case HeadersDone => StepHeadersDone(p, ch)
    case ChunkData => StepChunkData(p)
    case ChunkDataAlmostDone => StepChunkDataAlmostDone(p, ch)
    case ChunkDataDone => StepChunkDataDone(p, ch)
    case BodyIdentity => StepBodyIdentity(p)
    case BodyIdentityEof => Ok(p, [SetMark(Body)])
    case MessageDone => StepMessageDone(p)
  }
}
