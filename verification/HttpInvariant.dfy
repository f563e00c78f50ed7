/** One invariant of the parser's record, and with it: no internal assertion can fail. */
module HttpInvariant {
  import opened Basics
  import opened HttpChars
  import opened HttpTypes
  import opened HttpStep
  import opened HttpRun
  import opened HttpMarks
  import opened HttpSync

  predicate InChunk(s: State) {
    || s.ChunkSizeStart? || s.ChunkSize? || s.ChunkParameters? || s.ChunkSizeAlmostDone?
    || s.ChunkData? || s.ChunkDataAlmostDone? || s.ChunkDataDone?
  }

  /** States that are only passed through while a byte is handled. */
  predicate Transient(s: State) {
    s.HeaderValueStart? || s.HeadersDone? || s.MessageDone?
  }

  predicate LengthOk(p: Parser) {
    && p.contentLength <= ULLONG_MAX
    && ((p.state.BodyIdentity? || p.state.ChunkData?) ==> LengthInUse(p))
    && (p.state.ChunkDataAlmostDone? ==> p.contentLength == 0)
    && ((p.state.ChunkSize? || p.state.ChunkParameters? || p.state.ChunkSizeAlmostDone?) ==> p.contentLength < ULLONG_MAX)
  }

  /** The matcher's index never comes near its five bits. */
  predicate IndexOk(p: Parser) {
    && p.index <= 16
    && (p.state.HeaderField? ==> IsFieldState(p.headerState) && FieldIndex(p.headerState, p.index))
    && (p.state.HeaderValue? ==> !p.headerState.Connection? && !p.headerState.TransferEncoding? && ValueIndex(p.headerState, p.index))
    && (p.state.ReqMethod? ==> 1 <= p.index <= |MethodString(p.verb)|)
  }

  predicate FieldIndex(h: HeaderState, i: nat) {
    match h
    case C => i == 0
    case CO => i == 1
    case CON => i == 2
    case MatchingConnection => i < 9
    case MatchingProxyConnection => i < 15
    case MatchingContentLength => i < 13
    case MatchingTransferEncoding => i < 16
    case MatchingUpgrade => i < 6
    case _ => true
  }

  predicate ValueIndex(h: HeaderState, i: nat) {
    match h
    case MatchingTeTokenStart => i == 0
    case MatchingConnTokenStart => i == 0
    case MatchingTeChunked => i < 6
    case MatchingConnKeepAlive => i < 9
    case MatchingConnClose => i < 4
    case MatchingConnUpgrade => i < 6
    case _ => true
  }

  /** Between two bytes. */
  predicate WellFormed(p: Parser) {
    && !Transient(p.state)
    && (InChunk(p.state) ==> p.flags.chunked)
    && (p.state.ChunkSizeStart? ==> p.nread == 0)
    && LengthOk(p) && IndexOk(p)
    && p.httpMajor <= 9 && p.httpMinor <= 9 && p.statusCode <= 999
  }

  predicate Safe(o: Out) {
    o.stop != Fail(AssertionFailed) && (!o.stop.Fail? ==> WellFormed(o.p))
  }

  /** While a byte is handled: well-formed but for the state and the count. */
  predicate Underway(p: Parser) {
    && p.contentLength <= ULLONG_MAX && p.index <= 16
    && p.httpMajor <= 9 && p.httpMinor <= 9 && p.statusCode <= 999
  }

  // ---- The handlers ----

  lemma MethodTable(m: Method, i: nat, ch: char)
    ensures SwitchCandidate(m, i, ch).Some? ==> i + 1 <= |MethodString(SwitchCandidate(m, i, ch).value)|
    ensures FirstCandidate(ch).Some? ==> 1 <= |MethodString(FirstCandidate(ch).value)|
  {}

  /** States of which the invariant asks nothing in particular. */
  predicate Plain(s: State) {
    && !Transient(s) && !InChunk(s) && !s.BodyIdentity? && !s.HeaderField? && !s.HeaderValue? && !s.ReqMethod?
  }

  lemma PlainWellFormed(p: Parser)
    requires Underway(p) && Plain(p.state)
    ensures WellFormed(p)
  {}

  lemma MethodStateWellFormed(p: Parser)
    requires Underway(p) && p.state.ReqMethod? && 1 <= p.index <= |MethodString(p.verb)|
    ensures WellFormed(p)
  {
    hide MethodString;
  }

  lemma StartReqSafe(p: Parser, ch: char)
    requires Underway(p) && p.state.StartReq?
    ensures Safe(StepStartReq(p, ch))
  {
    hide FirstCandidate, MethodString, WellFormed;
    MethodTable(p.verb, p.index, ch);
    PlainWellFormed(p);
    if !IsBreak(ch) && FirstCandidate(ch).Some? { MethodStateWellFormed(StepStartReq(p, ch).p); }
  }

  lemma StartReqOrResSafe(p: Parser, ch: char)
    requires Underway(p) && p.state.StartReqOrRes?
    ensures Safe(StepStartReqOrRes(p, ch))
  {
    hide StepStartReq, WellFormed;
    PlainWellFormed(p);
    if !IsBreak(ch) {
      if ch == 'H' { PlainWellFormed(StepStartReqOrRes(p, ch).p); }
      StartReqSafe(StartMessage(p).(kind := Request, state := StartReq), ch);
    }
  }

  lemma StartResSafe(p: Parser, ch: char)
    requires Underway(p)
    ensures p.state.StartRes? ==> Safe(StepStartRes(p, ch))
    ensures Safe(StepResOrRespH(p, ch))
  {
    hide WellFormed;
    if p.state.StartRes? && !StepStartRes(p, ch).stop.Fail? { PlainWellFormed(StepStartRes(p, ch).p); }
    var o := StepResOrRespH(p, ch);
    if ch == 'T' { PlainWellFormed(o.p); } else if ch == 'E' { MethodStateWellFormed(o.p); }
  }

  lemma ReqMethodSafe(p: Parser, ch: char)
    requires Underway(p) && p.state.ReqMethod? && 1 <= p.index <= |MethodString(p.verb)|
    ensures Safe(StepReqMethod(p, ch))
  {
    hide SwitchCandidate, MethodString, WellFormed;
    MethodTable(p.verb, p.index, ch);
    var o := StepReqMethod(p, ch);
    if o.stop.Go? {
      if o.p.state.ReqMethod? { MethodStateWellFormed(o.p); } else { PlainWellFormed(o.p); }
    }
  }

  lemma UrlSafe(p: Parser, ch: char)
    requires Underway(p)
    requires InUrl(p.state)
    ensures Safe(StepSpacesBeforeUrl(p, ch))
    ensures EntryMark(p.state) == On(Url) ==> Safe(StepUrlHead(p, ch)) && Safe(StepUrlTail(p, ch))
  {
    hide WellFormed;
    UrlStates(if p.verb.CONNECT? then ReqServerStart else p.state, ch);
    UrlStates(p.state, ch);
    UrlPlain();
    if StepSpacesBeforeUrl(p, ch).stop.Go? { PlainWellFormed(StepSpacesBeforeUrl(p, ch).p); }
    if StepUrlHead(p, ch).stop.Go? { PlainWellFormed(StepUrlHead(p, ch).p); }
    if StepUrlTail(p, ch).stop.Go? { PlainWellFormed(StepUrlTail(p, ch).p); }
  }

  lemma UrlPlain()
    ensures forall s: State :: EntryMark(s) == On(Url) ==> Plain(s)
  {}

  lemma StatusSafe(p: Parser, ch: char)
    requires Underway(p) && InStatus(p.state)
    ensures Safe(StepStatusStart(p, ch)) && Safe(StepStatus(p, ch))
    ensures p.state.ResFirstStatusCode? ==> Safe(StepFirstStatusCode(p, ch))
    ensures p.state.ResStatusCode? ==> Safe(StepStatusCode(p, ch))
  {
    hide WellFormed, StepStatusStart, StepStatus;
    StatusTextSafe(p, ch);
    StatusTextSafe(p.(state := ResStatusStart), ch);
    if p.state.ResFirstStatusCode? && !StepFirstStatusCode(p, ch).stop.Fail? {
      PlainWellFormed(StepFirstStatusCode(p, ch).p);
    } else if p.state.ResStatusCode? && !IsBreak(ch) && !StepStatusCode(p, ch).stop.Fail? {
      PlainWellFormed(StepStatusCode(p, ch).p);
    }
  }

  lemma StatusTextSafe(p: Parser, ch: char)
    requires Underway(p) && InStatus(p.state)
    ensures Safe(StepStatusStart(p, ch)) && Safe(StepStatus(p, ch))
  {
    hide WellFormed;
    PlainWellFormed(StepStatusStart(p, ch).p);
    PlainWellFormed(StepStatus(p, ch).p);
  }

  lemma MessageDoneSafe(p: Parser)
    requires Underway(p)
    ensures Safe(StepMessageDone(p))
  {
    hide WellFormed, ShouldKeepAlive;
    PlainWellFormed(StepMessageDone(p).p);
  }

  lemma HeadersDoneSafe(p: Parser, ch: char)
    requires Underway(p)
    ensures Safe(StepHeadersDone(p, ch))
  {
    hide ShouldKeepAlive, NeedsEof;
  }

  lemma HeadersAlmostDoneSafe(p: Parser, ch: char)
    requires Underway(p)
    ensures Safe(StepHeadersAlmostDone(p, ch))
  {
    hide StepHeadersDone, StepMessageDone, WellFormed;
    MessageDoneSafe(p.(state := MessageDone));
    var up := if p.flags.upgrade && p.flags.connUpgrade then p.kind.Request? || p.statusCode == 101
              else p.verb.CONNECT?;
    HeadersDoneSafe(p.(state := HeadersDone, upgrade := up), ch);
  }

  lemma HeaderFieldStartSafe(p: Parser, ch: char)
    requires Underway(p)
    ensures Safe(StepHeaderFieldStart(p, ch))
  {
    hide StepHeadersAlmostDone, Token;
    HeadersAlmostDoneSafe(p.(state := HeadersAlmostDone), ch);
  }

  lemma MatchNameSafe(name: string, i: nat, c: char, matching: HeaderState, failed: HeaderState, found: HeaderState)
    requires c != '\0' && |name| > 0 && matching != failed && matching != found
    ensures MatchName(name, i, c, matching, failed, found) == matching ==> i < |name| - 1
  {}

  lemma FieldCharSafe(h: HeaderState, i: nat, c: char, ch: char)
    requires IsFieldState(h) && c != '\0' && i <= 16 && FieldIndex(h, i)
    ensures var i' := if CountsIndex(h) then Inc(i) else i;
      var h' := FieldChar(h, i', c, ch);
      IsFieldState(h') && i' <= 16 && FieldIndex(h', i')
  {
    var i' := if CountsIndex(h) then Inc(i) else i;
    MatchNameSafe(CONNECTION, i', c, MatchingConnection, General, Connection);
    MatchNameSafe(PROXY_CONNECTION, i', c, MatchingProxyConnection, General, Connection);
    MatchNameSafe(CONTENT_LENGTH, i', c, MatchingContentLength, General, ContentLength);
    MatchNameSafe(TRANSFER_ENCODING, i', c, MatchingTransferEncoding, General, TransferEncoding);
    MatchNameSafe(UPGRADE, i', c, MatchingUpgrade, General, Upgrade);
    hide MatchName;
  }

  lemma HeaderFieldSafe(p: Parser, ch: char)
    requires Underway(p) && p.state.HeaderField? && IsFieldState(p.headerState) && FieldIndex(p.headerState, p.index)
    ensures Safe(StepHeaderField(p, ch))
  {
    hide FieldChar, Token, FieldIndex, IsFieldState;
    if Token(ch) != '\0' { FieldCharSafe(p.headerState, p.index, Token(ch), ch); }
  }

  lemma ValueStartSafe(p: Parser, ch: char)
    requires Underway(p)
    ensures Safe(StepValueStart(p, ch))
  {
    hide Lower;
    match p.headerState
    case Upgrade => case TransferEncoding => case ContentLength => case Connection => case _ =>
  }

  lemma LowerNotNul(ch: char)
    ensures Lower(ch) != '\0'
  {}

  lemma TeSafe(p: Parser, ch: char)
    requires Underway(p) && InTe(p.headerState) && ValueIndex(p.headerState, p.index)
    ensures var q := TeChar(p, ch);
      Underway(q) && !q.headerState.Connection? && !q.headerState.TransferEncoding? && ValueIndex(q.headerState, q.index)
      && q.state == p.state
  {
    hide MatchName, Lower, Token;
    if p.headerState.MatchingTeChunked? {
      LowerNotNul(ch);
      MatchNameSafe(CHUNKED, Inc(p.index), Lower(ch), MatchingTeChunked, MatchingTeToken, TeChunked);
      TeMatch(p, ch);
    }
  }

  lemma TeMatch(p: Parser, ch: char)
    ensures MatchName(CHUNKED, Inc(p.index), Lower(ch), MatchingTeChunked, MatchingTeToken, TeChunked)
      in {MatchingTeChunked, MatchingTeToken, TeChunked}
  {}

  lemma ConnMatch(p: Parser, ch: char, name: string, found: HeaderState)
    requires Underway(p) && |name| > 0
    requires found.ConnKeepAlive? || found.ConnClose? || found.ConnUpgrade?
    requires p.headerState.MatchingConnKeepAlive? || p.headerState.MatchingConnClose? || p.headerState.MatchingConnUpgrade?
    requires p.index < 16
    ensures var q := MatchConn(p, ch, name, found);
      && Underway(q) && q.state == p.state
      && (q.headerState == found || q.headerState.MatchingConnToken? || (q.headerState == p.headerState && q.index < |name| - 1))
  {
    LowerNotNul(ch);
    hide Lower;
  }

  lemma ConnSafe(p: Parser, ch: char)
    requires Underway(p) && InConn(p.headerState) && ValueIndex(p.headerState, p.index)
    ensures var q := ConnChar(p, ch);
      Underway(q) && !q.headerState.Connection? && !q.headerState.TransferEncoding? && ValueIndex(q.headerState, q.index)
      && q.state == p.state
  {
    hide MatchConn, Lower, Token, OptionFlag;
    match p.headerState
    case MatchingConnKeepAlive => ConnMatch(p, ch, KEEP_ALIVE, ConnKeepAlive);
    case MatchingConnClose => ConnMatch(p, ch, CLOSE, ConnClose);
    case MatchingConnUpgrade => ConnMatch(p, ch, UPGRADE, ConnUpgrade);
    case _ =>
  }

  lemma LengthSafe(p: Parser, ch: char)
    requires Underway(p)
    ensures var o := LengthChar(p, ch);
      && o.stop != Fail(AssertionFailed) && !o.stop.Exit? && Underway(o.p) && o.p.state == p.state
      && (o.stop.Go? ==> o.p.headerState.ContentLengthWs? || o.p.headerState.ContentLengthNum?)
  {}

  lemma ValueCharSafe(p: Parser, ch: char)
    requires Underway(p) && p.state.HeaderValue? && ValueIndex(p.headerState, p.index)
    requires !p.headerState.Connection? && !p.headerState.TransferEncoding?
    ensures Safe(ValueChar(p, ch))
  {
    hide TeChar, ConnChar, LengthChar, IsHeaderChar;
    if InTe(p.headerState) { TeSafe(p, ch); }
    else if InConn(p.headerState) { ConnSafe(p, ch); }
    else { LengthSafe(p, ch); }
  }

  lemma HeaderValueSafe(p: Parser, ch: char)
    requires Underway(p) && p.state.HeaderValue? && ValueIndex(p.headerState, p.index)
    requires !p.headerState.Connection? && !p.headerState.TransferEncoding?
    ensures Safe(StepHeaderValue(p, ch))
  {
    hide ValueChar, WellFormed;
    if IsBreak(ch) { PlainWellFormed(StepHeaderValue(p, ch).p); } else { ValueCharSafe(p, ch); }
  }

  lemma ValueLwsSafe(p: Parser, ch: char)
    requires Underway(p)
    ensures Safe(StepValueLws(p, ch))
  {
    hide StepValueStart, StepHeaderFieldStart, WellFormed;
    ValueStartSafe(p.(headerState := if p.headerState.ContentLengthNum? then ContentLengthWs else p.headerState,
                      state := HeaderValueStart), ch);
    HeaderFieldStartSafe(p.(flags := HeaderFlag(p.headerState, p.flags), state := HeaderFieldStart), ch);
  }

  lemma DiscardLwsSafe(p: Parser, ch: char)
    requires Underway(p)
    ensures Safe(StepDiscardLws(p, ch))
  {
    hide StepHeaderFieldStart, WellFormed;
    HeaderFieldStartSafe(p.(flags := HeaderFlag(p.headerState, p.flags), state := HeaderFieldStart), ch);
    PlainWellFormed(p.(state := HeaderValueDiscardWs));
  }

  lemma DiscardWsSafe(p: Parser, ch: char)
    requires Underway(p) && Plain(p.state)
    ensures Safe(StepDiscardWs(p, ch))
  {
    hide StepValueStart, WellFormed;
    ValueStartSafe(p, ch);
    PlainWellFormed(p);
    PlainWellFormed(p.(state := HeaderValueDiscardWsAlmostDone));
    PlainWellFormed(p.(state := HeaderValueDiscardLws));
  }

  /** Sixty-four bits are enough, and the largest accepted length is below the "no length" value. */
  lemma ShiftExact(length: nat, base: nat, digit: nat)
    requires (base == 10 || base == 16) && digit < base && !MayOverflow(length, base)
    ensures Shift(length, base, digit) == length * base + digit < ULLONG_MAX
  {}

  lemma ChunkSizeSafe(p: Parser, ch: char)
    requires WellFormed(p) && p.state.ChunkSize?
    ensures Safe(StepChunkSize(p, ch))
  {
    hide Shift, MayOverflow;
    if Unhex(ch) != -1 && !MayOverflow(p.contentLength, 16) { ShiftExact(p.contentLength, 16, Unhex(ch)); }
  }

  lemma ChunkHeadSafe(p: Parser, ch: char)
    requires WellFormed(p.(nread := 0)) && InChunk(p.state)
    ensures p.state.ChunkSizeStart? && p.nread == 1 ==> Safe(StepChunkSizeStart(p, ch))
    ensures p.state.ChunkParameters? ==> Safe(StepChunkParameters(p, ch))
    ensures p.state.ChunkSizeAlmostDone? ==> Safe(StepChunkSizeAlmostDone(p, ch))
  {
    hide FieldIndex, ValueIndex, MethodString, IsFieldState, Unhex;
    UnhexRange(ch);
  }

  lemma UnhexRange(ch: char)
    ensures -1 <= Unhex(ch) < 16
  {}

  lemma ChunkBodySafe(p: Parser, ch: char)
    requires WellFormed(p)
    ensures p.state.ChunkData? ==> Safe(StepChunkData(p))
    ensures p.state.ChunkDataAlmostDone? ==> Safe(StepChunkDataAlmostDone(p, ch))
    ensures p.state.ChunkDataDone? ==> Safe(StepChunkDataDone(p, ch))
  {
    hide FieldIndex, ValueIndex, MethodString, IsFieldState;
  }

  lemma BodyIdentitySafe(p: Parser)
    requires WellFormed(p) && p.state.BodyIdentity?
    ensures Safe(StepBodyIdentity(p))
  {
    hide StepMessageDone;
    MessageDoneSafe(p.(contentLength := p.contentLength - 1, state := MessageDone));
  }

  lemma PlainStatesSafe(p: Parser, ch: char)
    requires Underway(p) && !InHeaders(p.state) && !InBody(p.state)
    requires !InUrl(p.state) && !InStart(p.state) && !InStatus(p.state)
    ensures Safe(Dispatch(p, ch))
  {
    hide Dispatch, WellFormed;
    PlainStatesStay(p, ch);
    if !Dispatch(p, ch).stop.Fail? { PlainWellFormed(Dispatch(p, ch).p); }
  }

  lemma PlainStatesStay(p: Parser, ch: char)
    requires Underway(p) && !InHeaders(p.state) && !InBody(p.state)
    requires !InUrl(p.state) && !InStart(p.state) && !InStatus(p.state)
    ensures var o := Dispatch(p, ch);
      o.stop != Fail(AssertionFailed) && (!o.stop.Fail? ==> Underway(o.p) && Plain(o.p.state))
  {
    hide Dispatch;
    if Expecting(p.state) { ExpectStays(p, ch); } else { VersionStays(p, ch); }
  }

  lemma VersionStays(p: Parser, ch: char)
    requires Underway(p)
    requires p.state.Dead? || p.state.ReqHttpStart? || p.state.ReqHttpEnd?
      || p.state.ReqHttpMajor? || p.state.ReqHttpMinor? || p.state.ResHttpMajor? || p.state.ResHttpMinor?
    ensures var o := Dispatch(p, ch);
      o.stop != Fail(AssertionFailed) && (!o.stop.Fail? ==> Underway(o.p) && Plain(o.p.state))
  {
    hide StepStartReqOrRes, StepStartReq, StepStartRes, StepResOrRespH, StepReqMethod,
      StepStatusCode, StepFirstStatusCode, StepStatusStart, StepStatus, StepSpacesBeforeUrl, StepUrlHead, StepUrlTail,
      StepMessageDone, StepBodyIdentity, StepChunkData, StepChunkSizeStart, StepChunkSize, StepChunkParameters,
      StepChunkSizeAlmostDone, StepChunkDataAlmostDone, StepChunkDataDone,
      StepHeadersDone, StepHeadersAlmostDone, StepHeaderFieldStart, StepValueStart, StepHeaderValue, StepValueLws,
      StepDiscardLws, StepHeaderField, StepDiscardWs;
    match p.state
    case Dead => case ReqHttpStart => case ReqHttpEnd =>
    case ReqHttpMajor => case ReqHttpMinor => case ResHttpMajor => case ResHttpMinor =>
  }

  predicate Expecting(s: State) {
    || s.ResH? || s.ResHT? || s.ResHTT? || s.ResHTTP? || s.ResHttpDot? || s.ResHttpEnd? || s.ResLineAlmostDone?
    || s.ReqHttpH? || s.ReqHttpHT? || s.ReqHttpHTT? || s.ReqHttpHTTP? || s.ReqHttpI? || s.ReqHttpIC?
    || s.ReqHttpDot? || s.ReqLineAlmostDone?
  }

  lemma ExpectStays(p: Parser, ch: char)
    requires Underway(p) && Expecting(p.state)
    ensures var o := Dispatch(p, ch);
      o.stop != Fail(AssertionFailed) && (!o.stop.Fail? ==> Underway(o.p) && Plain(o.p.state))
  {
    hide StepStartReqOrRes, StepStartReq, StepStartRes, StepResOrRespH, StepReqMethod,
      StepStatusCode, StepFirstStatusCode, StepStatusStart, StepStatus, StepSpacesBeforeUrl, StepUrlHead, StepUrlTail,
      StepMessageDone, StepBodyIdentity, StepChunkData, StepChunkSizeStart, StepChunkSize, StepChunkParameters,
      StepChunkSizeAlmostDone, StepChunkDataAlmostDone, StepChunkDataDone,
      StepHeadersDone, StepHeadersAlmostDone, StepHeaderFieldStart, StepValueStart, StepHeaderValue, StepValueLws,
      StepDiscardLws, StepHeaderField, StepDiscardWs,
      StepMajor, StepMinor, StepDead, StepReqHttpStart, StepReqHttpEnd;
  }

  lemma StartStatesSafe(p: Parser, ch: char)
    requires Underway(p) && (InStart(p.state) || InStatus(p.state) || InUrl(p.state))
    requires p.state.ReqMethod? ==> 1 <= p.index <= |MethodString(p.verb)|
    ensures Safe(Dispatch(p, ch))
  {
    hide StepStartReqOrRes, StepStartReq, StepStartRes, StepResOrRespH, StepReqMethod,
      StepStatusCode, StepFirstStatusCode, StepStatusStart, StepStatus,
      StepSpacesBeforeUrl, StepUrlHead, StepUrlTail, Safe, MethodString;
    if InStatus(p.state) { StatusSafe(p, ch); }
    else if InUrl(p.state) { UrlSafe(p, ch); }
    else if p.state.StartReq? { StartReqSafe(p, ch); }
    else if p.state.StartReqOrRes? { StartReqOrResSafe(p, ch); }
    else if p.state.ReqMethod? { ReqMethodSafe(p, ch); }
    else { StartResSafe(p, ch); }
  }

  lemma HeaderStatesSafe(p: Parser, ch: char)
    requires Underway(p) && InHeaders(p.state) && !Transient(p.state) && IndexOk(p)
    ensures Safe(Dispatch(p, ch))
  {
    hide StepStartReqOrRes, StepStartReq, StepStartRes, StepResOrRespH, StepReqMethod,
      StepStatusCode, StepFirstStatusCode, StepStatusStart, StepStatus, StepSpacesBeforeUrl, StepUrlHead, StepUrlTail,
      StepMessageDone, StepBodyIdentity, StepChunkData, StepChunkSizeStart, StepChunkSize, StepChunkParameters,
      StepChunkSizeAlmostDone, StepChunkDataAlmostDone, StepChunkDataDone,
      StepHeadersDone, StepHeadersAlmostDone, StepHeaderFieldStart, StepValueStart, StepHeaderValue, StepValueLws,
      StepDiscardLws, StepHeaderField, StepDiscardWs,
      WellFormed, FieldIndex, ValueIndex;
    match p.state
    case HeadersAlmostDone => HeadersAlmostDoneSafe(p, ch);
    case HeaderFieldStart => HeaderFieldStartSafe(p, ch);
    case HeaderField => HeaderFieldSafe(p, ch);
    case HeaderValue => HeaderValueSafe(p, ch);
    case HeaderValueLws => ValueLwsSafe(p, ch);
    case HeaderValueDiscardLws => DiscardLwsSafe(p, ch);
    case HeaderValueDiscardWs => DiscardWsSafe(p, ch);
    case HeaderAlmostDone => if ch == '\n' { PlainWellFormed(p.(state := HeaderValueLws)); }
    case HeaderValueDiscardWsAlmostDone => if ch == '\n' { PlainWellFormed(p.(state := HeaderValueDiscardLws)); }
  }

  lemma BodyStatesSafe(p: Parser, ch: char)
    requires WellFormed(p) && InBody(p.state)
    ensures Safe(Dispatch(Counted(p), ch))
  {
    hide StepMessageDone, StepBodyIdentity, StepChunkData, StepChunkSizeStart, StepChunkSize,
      StepChunkParameters, StepChunkSizeAlmostDone, StepChunkDataAlmostDone, StepChunkDataDone, WellFormed;
    CountKeeps(p);
    match p.state
    case BodyIdentity => BodyIdentitySafe(p);
    case BodyIdentityEof =>
    case ChunkData => ChunkBodySafe(p, ch);
    case ChunkDataAlmostDone => ChunkBodySafe(p, ch);
    case ChunkDataDone => ChunkBodySafe(p, ch);
    case ChunkSize => ChunkSizeSafe(Counted(p), ch);
    case _ => ChunkHeadSafe(Counted(p), ch);
  }

  lemma CountKeeps(p: Parser)
    requires WellFormed(p)
    ensures !Transient(p.state) && Underway(Counted(p)) && IndexOk(Counted(p))
    ensures WellFormed(Counted(p).(nread := 0)) && (!p.state.ChunkSizeStart? ==> WellFormed(Counted(p)))
    ensures p.state.ChunkSizeStart? ==> Counted(p).nread == 1
  {
    hide FieldIndex, ValueIndex;
  }

  /** Handling a byte from a well-formed record fails no assertion and leaves a well-formed record. */
  lemma DispatchSafe(p: Parser, ch: char)
    requires WellFormed(p)
    ensures Safe(Dispatch(Counted(p), ch))
  {
    hide Dispatch, Safe, WellFormed;
    CountKeeps(p);
    var q := Counted(p);
    assert q.state == p.state;
    if InHeaders(p.state) { HeaderStatesSafe(q, ch); }
    else if InBody(p.state) { BodyStatesSafe(p, ch); }
    else if InUrl(p.state) || InStart(p.state) || InStatus(p.state) { StartStatesSafe(q, ch); }
    else { PlainStatesSafe(q, ch); }
  }

  lemma InitWellFormed(kind: Kind, allowChunkedLength: bool)
    ensures WellFormed(Init(kind, allowChunkedLength))
  {}

  lemma StepByteSafe(p: Parser, ch: char, max: nat)
    requires WellFormed(p)
    ensures var r := StepByte(p, ch, max);
      r.stop != Fail(AssertionFailed) && (!r.stop.Fail? ==> WellFormed(r.p))
  {
    hide Dispatch, WellFormed, Perform;
    DispatchSafe(p, ch);
  }

  /** Assertion safety: from a well-formed record no input, however long, fails an internal assertion when it is
      fed byte by byte, and the record stays well-formed. For the loop over buffers see `HttpFragments`. */
  lemma {:induction false} RunIsSafe(p: Parser, data: string, max: nat)
    requires WellFormed(p)
    ensures Run(p, data, max).stop != Fail(AssertionFailed)
    ensures !Run(p, data, max).stop.Fail? ==> WellFormed(Run(p, data, max).p)
  {
    hide StepByte, WellFormed;
    if |data| > 0 {
      RunIsSafe(p, data[..|data| - 1], max);
      var r := Run(p, data[..|data| - 1], max);
      if r.stop.Go? { StepByteSafe(r.p, data[|data| - 1], max); }
    }
  }
}
