/** The second cut: the authority of a URL into userinfo, host and port. */
module UrlHost {
  import opened Basics
  import opened HttpChars
  import opened Url

  datatype HostState =
    | UserinfoStart | InUserinfo | HostStart | V6Start | InHost | InV6 | V6End | ZoneStart | InZone | PortStart | InPort
    | HostDead

  predicate IsV6Char(ch: char) { IsHex(ch) || ch == ':' || ch == '.' }

  /** The characters of a zone identifier, RFC 6874. */
  predicate IsZoneChar(ch: char) { IsAlphaNum(ch) || ch == '%' || ch == '.' || ch == '-' || ch == '_' || ch == '~' }

  /** `http_parse_host_char`. */
  function HostChar(s: HostState, ch: char): HostState {
    match s
    case UserinfoStart => UserinfoChar(ch)
    case InUserinfo => UserinfoChar(ch)
    case HostStart => if ch == '[' then V6Start else if IsHostChar(ch) then InHost else HostDead
    case InHost => if IsHostChar(ch) then InHost else if ch == ':' then PortStart else HostDead
    case V6End => if ch == ':' then PortStart else HostDead
    case InV6 => if ch == ']' then V6End else if IsV6Char(ch) then InV6 else if ch == '%' then ZoneStart else HostDead
    case V6Start => if IsV6Char(ch) then InV6 else HostDead
    case InZone => if ch == ']' then V6End else if IsZoneChar(ch) then InZone else HostDead
    case ZoneStart => if IsZoneChar(ch) then InZone else HostDead
    case InPort => if IsNum(ch) then InPort else HostDead
    case PortStart => if IsNum(ch) then InPort else HostDead
    case HostDead => HostDead
  }

  function UserinfoChar(ch: char): HostState {
    if ch == '@' then HostStart else if IsUserinfoChar(ch) then InUserinfo else HostDead
  }

  /** An authority, or the first part of one; `name` is the host without brackets and zone. */
  datatype HostPieces = HostPieces(userinfo: string, at: bool, bracket: bool, name: string, percent: bool, zone: string,
                                   closed: bool, colon: bool, port: string)

  const NO_HOST := HostPieces("", false, false, "", false, "", false, false, "")

  function PrintName(h: HostPieces): string {
    h.name + If(h.percent, "%") + h.zone
  }

  function PrintUser(h: HostPieces): string {
    h.userinfo + If(h.at, "@") + If(h.bracket, "[")
  }

  function PrintPort(h: HostPieces): string {
    If(h.closed, "]") + If(h.colon, ":") + h.port
  }

  function PrintHost(h: HostPieces): string {
    PrintUser(h) + PrintName(h) + PrintPort(h)
  }

  /** Which parts may follow which. `foundAt`: there is an at-sign in the authority. */
  predicate HostOrder(h: HostPieces, foundAt: bool) {
    && (h.userinfo != "" || h.at ==> foundAt)
    && (h.bracket || h.name != "" ==> foundAt == h.at)
    && (h.percent ==> h.bracket && h.name != "")
    && (h.zone != "" ==> h.percent)
    && (h.closed ==> h.bracket && h.name != "" && (h.percent ==> h.zone != ""))
    && (h.colon ==> h.name != "" && h.closed == h.bracket)
    && (h.port != "" ==> h.colon)
  }

  predicate HostTexts(h: HostPieces) {
    && (forall c | c in h.userinfo :: IsUserinfoChar(c))
    && (forall c | c in h.name :: if h.bracket then IsV6Char(c) else IsHostChar(c))
    && (forall c | c in h.zone :: IsZoneChar(c))
    && (forall c | c in h.port :: IsNum(c))
  }

  predicate LawfulHost(h: HostPieces, foundAt: bool) {
    HostOrder(h, foundAt) && HostTexts(h)
  }

  /** Nothing is missing at the end. */
  predicate Complete(h: HostPieces) {
    h.name != "" && h.closed == h.bracket && (h.colon ==> h.port != "")
  }

  function HostStateOf(h: HostPieces, foundAt: bool): HostState {
    if h.port != "" then InPort
    else if h.colon then PortStart
    else if h.closed then V6End
    else if h.zone != "" then InZone
    else if h.percent then ZoneStart
    else if h.name != "" then if h.bracket then InV6 else InHost
    else if h.bracket then V6Start
    else if h.at then HostStart
    else if h.userinfo != "" then InUserinfo
    else if foundAt then UserinfoStart
    else HostStart
  }

  function ExtendHost(h: HostPieces, s: HostState, ch: char): HostPieces {
    match s
    case InUserinfo => h.(userinfo := h.userinfo + [ch])
    case HostStart => h.(at := true)
    case V6Start => h.(bracket := true)
    case InHost => h.(name := h.name + [ch])
    case InV6 => h.(name := h.name + [ch])
    case ZoneStart => h.(percent := true)
    case InZone => h.(zone := h.zone + [ch])
    case V6End => h.(closed := true)
    case PortStart => h.(colon := true)
    case _ => h.(port := h.port + [ch])
  }

  /** The cut that the automaton makes, byte by byte. */
  function SplitHost(a: string, foundAt: bool): Option<HostPieces> {
    if |a| == 0 then Some(NO_HOST)
    else
      match SplitHost(a[..|a| - 1], foundAt)
      case None => None
      case Some(h) =>
        var s := HostChar(HostStateOf(h, foundAt), a[|a| - 1]);
        if s.HostDead? then None else Some(ExtendHost(h, s, a[|a| - 1]))
  }

  // ---- What is cut prints back ----

  /** Only the last part that is there grows, and a delimiter is what it is. */
  predicate HostGrows(h: HostPieces, s: HostState, ch: char) {
    && (s.InPort? || h.port == "")
    && (s.InPort? || s.PortStart? || !h.colon)
    && (s.InPort? || s.PortStart? || s.V6End? || !h.closed)
    && (s.InPort? || s.PortStart? || s.V6End? || s.InZone? || h.zone == "")
    && (s.InPort? || s.PortStart? || s.V6End? || s.InZone? || s.ZoneStart? || !h.percent)
    && (s.InUserinfo? || s.HostStart? || s.V6Start? ==> h.name == "")
    && (s.InUserinfo? || s.HostStart? || s.V6Start? ==> !h.bracket)
    && (s.InUserinfo? || s.HostStart? ==> !h.at)
    && (s.PortStart? ==> ch == ':' && !h.colon) && (s.V6End? ==> ch == ']' && !h.closed)
    && (s.ZoneStart? ==> ch == '%' && !h.percent) && (s.V6Start? ==> ch == '[') && (s.HostStart? ==> ch == '@')
  }

  lemma HostClasses()
    ensures !IsHostChar(':') && !IsV6Char('%') && !IsV6Char(']') && !IsZoneChar(']') && !IsUserinfoChar('@')
    ensures !IsHostChar('[')
  {}

  lemma ExtendHostOrder(h: HostPieces, foundAt: bool, ch: char)
    requires HostOrder(h, foundAt)
    ensures var s := HostChar(HostStateOf(h, foundAt), ch);
      !s.HostDead? ==>
        && HostOrder(ExtendHost(h, s, ch), foundAt) && HostStateOf(ExtendHost(h, s, ch), foundAt) == s
        && HostGrows(h, s, ch)
  {
    hide IsHostChar, IsV6Char, IsZoneChar, IsUserinfoChar, IsNum;
  }

  /** The class of the byte, by the state that it leads to. */
  lemma HostCharClass(s: HostState, ch: char)
    ensures var s' := HostChar(s, ch);
      && (s'.InUserinfo? ==> IsUserinfoChar(ch)) && (s'.InHost? ==> IsHostChar(ch)) && (s'.InV6? ==> IsV6Char(ch))
      && (s'.InZone? ==> IsZoneChar(ch)) && (s'.InPort? ==> IsNum(ch)) && (s'.InHost? ==> s.HostStart? || s.InHost?)
      && (s'.InV6? ==> s.V6Start? || s.InV6?) && (s'.V6Start? ==> s.HostStart?) && !s'.UserinfoStart?
  {
    hide IsHostChar, IsV6Char, IsZoneChar, IsUserinfoChar, IsNum;
  }

  lemma ExtendHostTexts(h: HostPieces, foundAt: bool, ch: char)
    requires HostTexts(h) && HostOrder(h, foundAt)
    ensures var s := HostChar(HostStateOf(h, foundAt), ch);
      !s.HostDead? ==> HostTexts(ExtendHost(h, s, ch))
  {
    HostCharClass(HostStateOf(h, foundAt), ch);
    hide IsHostChar, IsV6Char, IsZoneChar, IsUserinfoChar, IsNum, HostChar;
  }

  lemma UserGrows(h: HostPieces, s: HostState, ch: char)
    requires HostGrows(h, s, ch) && (s.InUserinfo? || s.HostStart? || s.V6Start?)
    ensures var g := ExtendHost(h, s, ch);
      PrintUser(g) == PrintUser(h) + [ch] && PrintName(g) == PrintName(h) == PrintPort(g) == PrintPort(h) == ""
  {}

  lemma NameGrows(h: HostPieces, s: HostState, ch: char)
    requires HostGrows(h, s, ch) && (s.InHost? || s.InV6? || s.ZoneStart? || s.InZone?)
    ensures var g := ExtendHost(h, s, ch);
      PrintUser(g) == PrintUser(h) && PrintName(g) == PrintName(h) + [ch] && PrintPort(g) == PrintPort(h) == ""
  {}

  lemma PortGrows(h: HostPieces, s: HostState, ch: char)
    requires HostGrows(h, s, ch) && (s.V6End? || s.PortStart? || s.InPort?)
    ensures var g := ExtendHost(h, s, ch);
      PrintUser(g) == PrintUser(h) && PrintName(g) == PrintName(h) && PrintPort(g) == PrintPort(h) + [ch]
  {}

  lemma ExtendHostPrints(h: HostPieces, s: HostState, ch: char)
    requires HostGrows(h, s, ch) && !s.HostDead? && !s.UserinfoStart?
    ensures PrintHost(ExtendHost(h, s, ch)) == PrintHost(h) + [ch]
  {
    hide HostGrows, ExtendHost, PrintUser, PrintName, PrintPort;
    if s.InUserinfo? || s.HostStart? || s.V6Start? { UserGrows(h, s, ch); }
    else if s.InHost? || s.InV6? || s.ZoneStart? || s.InZone? { NameGrows(h, s, ch); }
    else { PortGrows(h, s, ch); }
  }

  lemma NoHostLawful(foundAt: bool)
    ensures LawfulHost(NO_HOST, foundAt) && PrintHost(NO_HOST) == ""
  {}

  lemma HostMoves(h: HostPieces, foundAt: bool, ch: char)
    ensures !HostChar(HostStateOf(h, foundAt), ch).UserinfoStart?
  {}

  lemma {:induction false} SplitHostPrints(a: string, foundAt: bool)
    requires SplitHost(a, foundAt).Some?
    ensures LawfulHost(SplitHost(a, foundAt).value, foundAt) && PrintHost(SplitHost(a, foundAt).value) == a
  {
    hide HostOrder, HostTexts, PrintHost, HostStateOf, HostChar, ExtendHost, HostGrows;
    NoHostLawful(foundAt);
    if |a| > 0 {
      var init, ch := a[..|a| - 1], a[|a| - 1];
      SplitHostPrints(init, foundAt);
      var h := SplitHost(init, foundAt).value;
      ExtendHostOrder(h, foundAt, ch);
      ExtendHostTexts(h, foundAt, ch);
      HostMoves(h, foundAt, ch);
      ExtendHostPrints(h, HostChar(HostStateOf(h, foundAt), ch), ch);
    }
  }

  // ---- Every lawful authority is accepted, and cut into the same parts ----

  /** An authority without its last byte, and that byte. */
  function PeelHost(h: HostPieces): (HostPieces, char)
    requires h != NO_HOST
  {
    if h.port != "" then (h.(port := Init(h.port)), Last(h.port))
    else if h.colon then (h.(colon := false), ':')
    else if h.closed then (h.(closed := false), ']')
    else if h.zone != "" then (h.(zone := Init(h.zone)), Last(h.zone))
    else if h.percent then (h.(percent := false), '%')
    else if h.name != "" then (h.(name := Init(h.name)), Last(h.name))
    else if h.bracket then (h.(bracket := false), '[')
    else if h.at then (h.(at := false), '@')
    else (h.(userinfo := Init(h.userinfo)), Last(h.userinfo))
  }

  lemma PeelHostOrder(h: HostPieces, foundAt: bool)
    requires HostOrder(h, foundAt) && h != NO_HOST
    ensures HostOrder(PeelHost(h).0, foundAt)
  {}

  lemma PeelHostTexts(h: HostPieces, foundAt: bool)
    requires HostOrder(h, foundAt) && HostTexts(h) && h != NO_HOST
    ensures HostTexts(PeelHost(h).0)
  {
    hide IsHostChar, IsV6Char, IsZoneChar, IsUserinfoChar, IsNum;
  }

  lemma PeelHostExtends(h: HostPieces, foundAt: bool)
    requires HostOrder(h, foundAt) && h != NO_HOST
    ensures ExtendHost(PeelHost(h).0, HostStateOf(h, foundAt), PeelHost(h).1) == h
  {
    hide Init, Last;
    if h.port != "" { InitLast(h.port); }
    if h.zone != "" { InitLast(h.zone); }
    if h.name != "" { InitLast(h.name); }
    if h.userinfo != "" { InitLast(h.userinfo); }
  }

  lemma PeelHostMoves(h: HostPieces, foundAt: bool)
    requires LawfulHost(h, foundAt) && h != NO_HOST
    ensures HostChar(HostStateOf(PeelHost(h).0, foundAt), PeelHost(h).1) == HostStateOf(h, foundAt)
  {
    HostClasses();
    hide IsHostChar, IsV6Char, IsZoneChar, IsUserinfoChar, IsNum;
    if h.port != "" { assert Last(h.port) in h.port; }
    else if h.zone != "" { assert Last(h.zone) in h.zone; }
    else if h.name != "" { assert Last(h.name) in h.name; }
    else if h.userinfo != "" { assert Last(h.userinfo) in h.userinfo; }
  }

  lemma {:induction false} PrintHostSplits(h: HostPieces, foundAt: bool)
    requires LawfulHost(h, foundAt)
    ensures SplitHost(PrintHost(h), foundAt) == Some(h)
    decreases |PrintHost(h)|
  {
    NoHostLawful(foundAt);
    hide HostOrder, HostTexts, PrintHost, HostStateOf, HostChar, ExtendHost, PeelHost, HostGrows;
    if h != NO_HOST {
      var (g, ch) := PeelHost(h);
      PeelHostOrder(h, foundAt);
      PeelHostTexts(h, foundAt);
      PeelHostExtends(h, foundAt);
      PeelHostMoves(h, foundAt);
      ExtendHostOrder(g, foundAt, ch);
      HostMoves(g, foundAt, ch);
      HostStateLives(h, foundAt);
      ExtendHostPrints(g, HostStateOf(h, foundAt), ch);
      assert PrintHost(h)[..|PrintHost(h)| - 1] == PrintHost(g);
      PrintHostSplits(g, foundAt);
    }
  }

  lemma HostStateLives(h: HostPieces, foundAt: bool)
    ensures !HostStateOf(h, foundAt).HostDead?
  {}

  /** The cut of an authority is the one lawful authority that prints as it. */
  lemma SplitHostIsInverse(a: string, foundAt: bool, h: HostPieces)
    ensures SplitHost(a, foundAt) == Some(h) <==> (LawfulHost(h, foundAt) && PrintHost(h) == a)
  {
    hide HostOrder, HostTexts, PrintHost;
    if SplitHost(a, foundAt) == Some(h) { SplitHostPrints(a, foundAt); }
    if LawfulHost(h, foundAt) && PrintHost(h) == a { PrintHostSplits(h, foundAt); }
  }
}
