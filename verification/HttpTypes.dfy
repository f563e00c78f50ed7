/** The parser's record, its states, and what it reports. */
module HttpTypes {
  datatype Kind = Request | Response | Both

  datatype Method =
    | DELETE | GET | HEAD | POST | PUT | CONNECT | OPTIONS | TRACE
    | COPY | LOCK | MKCOL | MOVE | PROPFIND | PROPPATCH | SEARCH | UNLOCK | BIND | REBIND | UNBIND | ACL
    | REPORT | MKACTIVITY | CHECKOUT | MERGE
    | MSEARCH | NOTIFY | SUBSCRIBE | UNSUBSCRIBE
    | PATCH | PURGE | MKCALENDAR | LINK | UNLINK | SOURCE

  datatype State =
    | Dead
    | StartReqOrRes | ResOrRespH
    | StartRes | ResH | ResHT | ResHTT | ResHTTP | ResHttpMajor | ResHttpDot | ResHttpMinor | ResHttpEnd
    | ResFirstStatusCode | ResStatusCode | ResStatusStart | ResStatus | ResLineAlmostDone
    | StartReq
    | ReqMethod | ReqSpacesBeforeUrl
    | ReqSchema | ReqSchemaSlash | ReqSchemaSlashSlash | ReqServerStart | ReqServer | ReqServerWithAt
    | ReqPath | ReqQueryStringStart | ReqQueryString | ReqFragmentStart | ReqFragment
    | ReqHttpStart | ReqHttpH | ReqHttpHT | ReqHttpHTT | ReqHttpHTTP | ReqHttpI | ReqHttpIC
    | ReqHttpMajor | ReqHttpDot | ReqHttpMinor | ReqHttpEnd | ReqLineAlmostDone
    | HeaderFieldStart | HeaderField
    | HeaderValueDiscardWs | HeaderValueDiscardWsAlmostDone | HeaderValueDiscardLws
    | HeaderValueStart | HeaderValue | HeaderValueLws | HeaderAlmostDone
    | ChunkSizeStart | ChunkSize | ChunkParameters | ChunkSizeAlmostDone
    | HeadersAlmostDone | HeadersDone
    | ChunkData | ChunkDataAlmostDone | ChunkDataDone
    | BodyIdentity | BodyIdentityEof
    | MessageDone

  /** Bytes are counted against the header limit in all but the body states. */
  predicate ParsingHeader(s: State) {
    !(s.ChunkData? || s.ChunkDataAlmostDone? || s.ChunkDataDone? || s.BodyIdentity? || s.BodyIdentityEof? || s.MessageDone?)
  }

  datatype HeaderState =
    | General | C | CO | CON
    | MatchingConnection | MatchingProxyConnection | MatchingContentLength | MatchingTransferEncoding | MatchingUpgrade
    | Connection | ContentLength | ContentLengthNum | ContentLengthWs | TransferEncoding | Upgrade
    | MatchingTeTokenStart | MatchingTeChunked | MatchingTeToken
    | MatchingConnTokenStart | MatchingConnKeepAlive | MatchingConnClose | MatchingConnUpgrade | MatchingConnToken
    | TeChunked | ConnKeepAlive | ConnClose | ConnUpgrade

  datatype Flags = Flags(chunked: bool, keepAlive: bool, close: bool, connUpgrade: bool,
                         trailing: bool, upgrade: bool, skipBody: bool, contentLength: bool)

  const NO_FLAGS := Flags(false, false, false, false, false, false, false, false)

  /** 2^64 - 1: both the width of the length counter and its "no length" value. */
  const ULLONG_MAX: nat := 0xFFFF_FFFF_FFFF_FFFF

  datatype Parser = Parser(kind: Kind, flags: Flags, state: State, headerState: HeaderState, index: nat,
                           usesTransferEncoding: bool, allowChunkedLength: bool, nread: nat, contentLength: nat,
                           httpMajor: nat, httpMinor: nat, statusCode: nat, verb: Method, upgrade: bool)

  /** `http_parser_init`. */
  function Init(kind: Kind, allowChunkedLength: bool): Parser {
    Parser(kind, NO_FLAGS, match kind case Request => StartReq case Response => StartRes case Both => StartReqOrRes,
           General, 0, false, allowChunkedLength, 0, 0, 0, 0, 0, DELETE, false)
  }

  datatype DataKind = Url | Status | Field | Value | Body

  datatype Signal = MessageBegin | HeadersComplete | MessageComplete | ChunkHeader | ChunkComplete

  /** One callback. */
  datatype Event = Data(kind: DataKind, bytes: string) | Notify(signal: Signal)

  datatype Errno =
    | HeaderOverflow | ClosedConnection | InvalidVersion | InvalidStatus | InvalidMethod | InvalidUrl
    | LfExpected | InvalidHeaderToken | InvalidContentLength | UnexpectedContentLength | InvalidChunkSize
    | InvalidConstant | Strict | InvalidTransferEncoding | InvalidEofState
    | AssertionFailed

  /** Go on with the next byte, leave the rest to another protocol, or stop with an error. */
  datatype Stop = Go | Exit | Fail(errno: Errno)

  /** What the handling of a byte does with the marks and callbacks, in order. */
  datatype Act =
    | SetMark(kind: DataKind)
    /** Hand over the bytes from the mark up to the current byte, exclusive. */
    | Flush(kind: DataKind)
    /** The same, including the current byte. */
    | FlushWith(kind: DataKind)
    | Call(signal: Signal)

  datatype Out = Out(p: Parser, acts: seq<Act>, stop: Stop)

  function Ok(p: Parser, acts: seq<Act>): Out { Out(p, acts, Go) }

  function Err(p: Parser, e: Errno): Out { Out(p, [], Fail(e)) }

  /** The acts of a handler that hands the same byte to another one. */
  function Then(acts: seq<Act>, o: Out): Out { o.(acts := acts + o.acts) }
}
