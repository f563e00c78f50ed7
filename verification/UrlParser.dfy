/** The URL splitter, in two passes over the bytes and a third over the port. */
module UrlParser {
  import opened Basics
  import opened HttpChars
  import opened HttpTypes
  import opened HttpStep
  import opened HttpLengths
  import opened Url
  import opened UrlHost
  import opened UrlFields

  // ---- What is accepted, and what is reported ----

  /** The parts of a URL up to the authority, then with the userinfo, with the port, and all, in order. */
  function SchemaParts(t: Pieces): seq<Part>
    requires t.slashes <= 3
  {
    [] + [Part(Some(Schema), t.schema)] + [Part(None, "://"[..t.slashes])]
  }

  function UserParts(t: Pieces, h: HostPieces): seq<Part>
    requires t.slashes <= 3
  {
    SchemaParts(t) + [Part(Some(Userinfo), h.userinfo)] + [Part(None, If(h.at, "@") + If(h.bracket, "["))]
  }

  function HeadParts(t: Pieces, h: HostPieces): seq<Part>
    requires t.slashes <= 3
  {
    UserParts(t, h) + [Part(Some(Host), PrintName(h))] + [Part(None, If(h.closed, "]") + If(h.colon, ":"))]
    + [Part(Some(Port), h.port)]
  }

  function PathParts(t: Pieces, h: HostPieces): seq<Part>
    requires t.slashes <= 3
  {
    HeadParts(t, h) + [Part(Some(Path), t.path)] + [Part(None, If(t.question, "?"))]
  }

  function Parts(t: Pieces, h: HostPieces): seq<Part>
    requires t.slashes <= 3
  {
    PathParts(t, h) + [Part(Some(Query), t.query)] + [Part(None, Hashes(t.hashes))] + [Part(Some(Fragment), t.fragment)]
  }

  function Where(t: Pieces, h: HostPieces): Fields
    requires t.slashes <= 3
  {
    Lay(Parts(t, h))
  }

  /** The value of the port field, 0 without one. */
  function PortOf(h: HostPieces): nat
    requires HostTexts(h)
  {
    PortDigits(h);
    Spelled(h.port, 10)
  }

  lemma PortDigits(h: HostPieces)
    requires HostTexts(h)
    ensures Digits(h.port, 10)
  {
    forall i | 0 <= i < |h.port| ensures 0 <= Unhex(h.port[i]) < 10 { assert h.port[i] in h.port; }
  }

  lemma NoPort(h: HostPieces)
    requires HostTexts(h) && h.port == ""
    ensures PortOf(h) == 0
  {}

  /** What CONNECT asks for. */
  predicate HostAndPortOnly(t: Pieces, h: HostPieces) {
    h.name != "" && h.port != "" && h.userinfo == t.path == t.query == t.fragment == ""
  }

  /** `buf` is a URL with the parts `t`, its authority with the parts `h`. */
  ghost predicate Accepted(buf: string, connect: bool, t: Pieces, h: HostPieces) {
    && buf != "" && Lawful(t, connect) && Print(t) == buf
    && (t.schema != "" ==> t.authority != "")
    && (if t.authority == "" then h == NO_HOST
        else LawfulHost(h, '@' in t.authority) && PrintHost(h) == t.authority && Complete(h))
    && HostTexts(h) && PortOf(h) <= 0xFFFF
    && (connect ==> HostAndPortOnly(t, h))
  }

  // ---- The fields after each pass ----

  /** After the first pass the authority is one field. */
  function FirstFields(t: Pieces): Fields {
    var a := |t.schema| + t.slashes;
    var p := a + |t.authority|;
    var q := p + |t.path| + (if t.question then 1 else 0);
    var g := q + |t.query| + t.hashes;
    Put(Put(Put(Put(Put(map[], Schema, 0, |t.schema|), Host, a, |t.authority|), Path, p, |t.path|), Query, q, |t.query|),
        Fragment, g, |t.fragment|)
  }

  function LastField(t: Pieces): Option<FieldName> {
    if t.fragment != "" then Some(Fragment) else if t.query != "" then Some(Query) else if t.path != "" then Some(Path)
    else if t.authority != "" then Some(Host) else if t.schema != "" then Some(Schema) else None
  }

  /** The states that the first pass meets. */
  predicate UrlState(s: State) {
    || s.ReqSchema? || s.ReqSchemaSlash? || s.ReqSchemaSlashSlash? || s.ReqServerStart? || s.ReqServer?
    || s.ReqServerWithAt? || s.ReqPath? || s.ReqQueryStringStart? || s.ReqQueryString? || s.ReqFragmentStart?
    || s.ReqFragment?
  }

  /** The field that a byte belongs to; none for delimiters. */
  function FieldOf(s: State): Option<FieldName>
    requires UrlState(s)
  {
    match s
    case ReqSchema => Some(Schema)
    case ReqServerWithAt => Some(Host)
    case ReqServer => Some(Host)
    case ReqPath => Some(Path)
    case ReqQueryString => Some(Query)
    case ReqFragment => Some(Fragment)
    case _ => None
  }

  /** What the first pass does with a field's byte at `pos`. */
  function Grown(m: Fields, f: FieldName, previous: Option<FieldName>, pos: nat): Fields
    requires previous == Some(f) ==> f in m
  {
    if previous == Some(f) then m[f := m[f].(len := Wide(m[f].len + 1))] else m[f := Span(Wide(pos), 1)]
  }

  lemma PrintLength(t: Pieces)
    requires t.slashes <= 3
    ensures |Print(t)| == |t.schema| + t.slashes + |t.authority| + |t.path| + (if t.question then 1 else 0)
      + |t.query| + t.hashes + |t.fragment|
  {}

  lemma WideNext(n: nat)
    ensures Wide(Wide(n) + 1) == Wide(n + 1) && Wide(1) == 1
  {}

  /** Setting a field for the first time, and lengthening it. */
  lemma PutGrows(m: Fields, f: FieldName, off: nat, len: nat, last: Option<FieldName>, pos: nat)
    requires (last == Some(f) <==> len > 0) && (len == 0 ==> pos == off)
    ensures last == Some(f) ==> f in Put(m, f, off, len)
    ensures Put(m, f, off, len + 1) == Grown(Put(m, f, off, len), f, last, pos)
  {
    WideNext(len);
    hide Wide;
  }

  /** The fields in front of the query. */
  function FrontFields(t: Pieces): Fields {
    Put(Put(Put(map[], Schema, 0, |t.schema|), Host, |t.schema| + t.slashes, |t.authority|),
        Path, |t.schema| + t.slashes + |t.authority|, |t.path|)
  }

  function QueryAt(t: Pieces): nat {
    |t.schema| + t.slashes + |t.authority| + |t.path| + (if t.question then 1 else 0)
  }

  /** Without a query and a fragment. */
  lemma FieldsAreFront(t: Pieces)
    requires t.query == t.fragment == ""
    ensures FirstFields(t) == FrontFields(t)
  {
    hide Wide;
  }

  lemma SchemaStep(t: Pieces, s: State, ch: char)
    requires t.slashes <= 3 && GrowsAt(t, s) && s.ReqSchema?
    ensures Stepped(t, s, ch)
  {
    FieldsAreFront(t);
    FieldsAreFront(Extend(t, s, ch));
    PrintLength(t);
    hide Print, FirstFields, Wide;
    PutGrows(map[], Schema, 0, |t.schema|, LastField(t), |Print(t)|);
  }

  lemma AuthorityStep(t: Pieces, s: State, ch: char)
    requires t.slashes <= 3 && GrowsAt(t, s) && (s.ReqServer? || s.ReqServerWithAt?)
    ensures Stepped(t, s, ch)
  {
    FieldsAreFront(t);
    FieldsAreFront(Extend(t, s, ch));
    PrintLength(t);
    PutGrows(Put(map[], Schema, 0, |t.schema|), Host, |t.schema| + t.slashes, |t.authority|, LastField(t), |Print(t)|);
    hide Print, FirstFields, Grown, Wide;
  }

  lemma PathStep(t: Pieces, s: State, ch: char)
    requires t.slashes <= 3 && GrowsAt(t, s) && s.ReqPath?
    ensures Stepped(t, s, ch)
  {
    FieldsAreFront(t);
    FieldsAreFront(Extend(t, s, ch));
    PrintLength(t);
    var m := Put(Put(map[], Schema, 0, |t.schema|), Host, |t.schema| + t.slashes, |t.authority|);
    PutGrows(m, Path, |t.schema| + t.slashes + |t.authority|, |t.path|, LastField(t), |Print(t)|);
    hide Print, FirstFields, Grown, Wide;
  }

  lemma FieldsByFront(t: Pieces)
    ensures FirstFields(t) == Put(Put(FrontFields(t), Query, QueryAt(t), |t.query|), Fragment, QueryAt(t) + |t.query| + t.hashes, |t.fragment|)
    ensures Query !in FrontFields(t) && Fragment !in FrontFields(t)
  {
    hide Wide;
  }

  lemma FrontStays(t: Pieces, u: Pieces)
    requires u.schema == t.schema && u.slashes == t.slashes && u.authority == t.authority && u.path == t.path
    requires u.question == t.question
    ensures FrontFields(u) == FrontFields(t) && QueryAt(u) == QueryAt(t)
  {}

  lemma QueryStep(t: Pieces, s: State, ch: char)
    requires t.slashes <= 3 && GrowsAt(t, s) && s.ReqQueryString?
    ensures Stepped(t, s, ch)
  {
    var u := Extend(t, s, ch);
    FieldsByFront(t);
    FieldsByFront(u);
    PrintLength(t);
    FrontStays(t, u);
    PutGrows(FrontFields(t), Query, QueryAt(t), |t.query|, LastField(t), |Print(t)|);
    hide Print, Grown, FirstFields, FrontFields, QueryAt, Wide;
    assert |Print(t)| == QueryAt(t) + |t.query|;
  }

  lemma FragmentStep(t: Pieces, s: State, ch: char)
    requires t.slashes <= 3 && GrowsAt(t, s) && s.ReqFragment?
    ensures Stepped(t, s, ch)
  {
    var u, m := Extend(t, s, ch), Put(FrontFields(t), Query, QueryAt(t), |t.query|);
    FieldsByFront(t);
    FieldsByFront(u);
    PrintLength(t);
    FrontStays(t, u);
    assert LastField(t) == Some(Fragment) <==> |t.fragment| > 0;
    PutGrows(m, Fragment, QueryAt(t) + |t.query| + t.hashes, |t.fragment|, LastField(t), |Print(t)|);
    hide Print, Grown, FirstFields, FrontFields, QueryAt, Wide, GrowsAt, Put;
    assert |t.fragment| == 0 ==> |Print(t)| == QueryAt(t) + |t.query| + t.hashes;
  }

  lemma DelimiterStep(t: Pieces, s: State, ch: char)
    requires t.slashes <= 3 && GrowsAt(t, s) && UrlState(s) && FieldOf(s).None?
    ensures Stepped(t, s, ch)
  {
    hide Wide;
  }

  /** What one byte of the first pass comes to. */
  ghost predicate Stepped(t: Pieces, s: State, ch: char)
    requires UrlState(s) && t.slashes <= 3
  {
    var u, f := Extend(t, s, ch), FieldOf(s);
    if f.None? then FirstFields(u) == FirstFields(t) && LastField(u) == LastField(t)
    else
      && (LastField(t) == f ==> f.value in FirstFields(t))
      && FirstFields(u) == Grown(FirstFields(t), f.value, LastField(t), |Print(t)|) && LastField(u) == f
  }

  lemma FirstStep(t: Pieces, s: State, ch: char)
    requires t.slashes <= 3 && GrowsAt(t, s) && UrlState(s)
    ensures Stepped(t, s, ch)
  {
    hide GrowsAt, Stepped;
    if FieldOf(s).None? { DelimiterStep(t, s, ch); }
    else if s.ReqQueryString? { QueryStep(t, s, ch); }
    else if s.ReqFragment? { FragmentStep(t, s, ch); }
    else if s.ReqSchema? { SchemaStep(t, s, ch); }
    else if s.ReqPath? { PathStep(t, s, ch); }
    else { AuthorityStep(t, s, ch); }
  }

  lemma UrlStates(t: Pieces, connect: bool, ch: char)
    ensures var s := ParseUrlChar(StateOf(t, connect), ch); s.Dead? || UrlState(s)
  {}

  lemma AtSign(t: Pieces, connect: bool, ch: char)
    ensures var s := ParseUrlChar(StateOf(t, connect), ch);
      !s.Dead? ==> ('@' in Extend(t, s, ch).authority <==> s.ReqServerWithAt? || '@' in t.authority)
  {}

  // ---- The second pass ----

  /** The host field, empty at first, and the fields in front of the port. */
  function NameSpan(base: nat, h: HostPieces): Span {
    if h.name == "" then Span(base, 0) else Span(Wide(base + |PrintUser(h)|), Wide(|PrintName(h)|))
  }

  function NameFields(m: Fields, base: nat, h: HostPieces): Fields {
    Put(m, Userinfo, base, |h.userinfo|)[Host := NameSpan(base, h)]
  }

  function PortAt(base: nat, h: HostPieces): nat {
    base + |PrintUser(h)| + |PrintName(h)| + (if h.closed then 1 else 0) + (if h.colon then 1 else 0)
  }

  /** The fields after the authority at `base` has been cut into `h`. */
  function HostFields(m: Fields, base: nat, h: HostPieces): Fields {
    Put(NameFields(m, base, h), Port, PortAt(base, h), |h.port|)
  }

  /** What the second pass does with the byte at `pos` that leads from `s` to `s'`. */
  function HostGrown(m: Fields, s: HostState, s': HostState, pos: nat): Fields
    requires Host in m && (s.InPort? ==> Port in m) && (s.InUserinfo? ==> Userinfo in m)
  {
    match s'
    case InHost => m[Host := Span(if s.InHost? then m[Host].off else Wide(pos), Wide(m[Host].len + 1))]
    case InV6 => m[Host := Span(if s.InV6? then m[Host].off else Wide(pos), Wide(m[Host].len + 1))]
    case ZoneStart => m[Host := m[Host].(len := Wide(m[Host].len + 1))]
    case InZone => m[Host := m[Host].(len := Wide(m[Host].len + 1))]
    case InPort => Grown(m, Port, if s.InPort? then Some(Port) else None, pos)
    case InUserinfo => Grown(m, Userinfo, if s.InUserinfo? then Some(Userinfo) else None, pos)
    case _ => m
  }

  /** What one byte of the second pass comes to. */
  ghost predicate HostStepped(m: Fields, base: nat, h: HostPieces, s: HostState, s': HostState, ch: char) {
    var f := HostFields(m, base, h);
    && Host in f && (s.InPort? ==> Port in f) && (s.InUserinfo? ==> Userinfo in f)
    && HostFields(m, base, ExtendHost(h, s', ch)) == HostGrown(f, s, s', base + |PrintHost(h)|)
  }

  lemma UserStep(m: Fields, base: nat, h: HostPieces, s: HostState, s': HostState, ch: char)
    requires HostGrows(h, s', ch) && (s'.InUserinfo? || s'.HostStart? || s'.V6Start?)
    requires (s'.InUserinfo? ==> (s.InUserinfo? <==> h.userinfo != "")) && (s.InUserinfo? ==> h.userinfo != "") && !s.InPort?
    ensures HostStepped(m, base, h, s, s', ch)
  {
    if s'.InUserinfo? { PutGrows(m, Userinfo, base, |h.userinfo|, if s.InUserinfo? then Some(Userinfo) else None, base + |PrintHost(h)|); }
    hide Wide;
    assert s'.InUserinfo? ==> |PrintHost(h)| == |h.userinfo|;
  }

  lemma NameStep(m: Fields, base: nat, h: HostPieces, s: HostState, s': HostState, ch: char)
    requires HostGrows(h, s', ch) && (s'.InHost? || s'.InV6? || s'.ZoneStart? || s'.InZone?)
    requires (s'.InHost? || s'.InV6? ==> (s == s' <==> h.name != "") && h.zone == "" && !h.percent)
    requires (s'.ZoneStart? || s'.InZone? ==> h.name != "") && !s.InPort? && !s.InUserinfo?
    ensures HostStepped(m, base, h, s, s', ch)
  {
    WideNext(|PrintName(h)|);
    NameGrows(h, s', ch);
    hide Wide;
  }

  lemma PortStep(m: Fields, base: nat, h: HostPieces, s: HostState, s': HostState, ch: char)
    requires HostGrows(h, s', ch) && (s'.V6End? || s'.PortStart? || s'.InPort?)
    requires (s.InPort? <==> h.port != "") && !s.InUserinfo?
    ensures HostStepped(m, base, h, s, s', ch)
  {
    hide Wide, PrintHost;
    if s'.InPort? { DigitStep(m, base, h, s, ch); }
  }

  lemma DigitStep(m: Fields, base: nat, h: HostPieces, s: HostState, ch: char)
    requires (s.InPort? <==> h.port != "") && !s.InUserinfo?
    ensures HostStepped(m, base, h, s, InPort, ch)
  {
    var g := ExtendHost(h, InPort, ch);
    assert NameFields(m, base, g) == NameFields(m, base, h) && PortAt(base, g) == PortAt(base, h);
    PutGrows(NameFields(m, base, h), Port, PortAt(base, h), |h.port|, if s.InPort? then Some(Port) else None,
             base + |PrintHost(h)|);
    PortLength(base, h);
    assert Host in NameFields(m, base, h);
    hide Wide, NameFields, Grown, PrintHost, PortAt;
  }

  lemma PortLength(base: nat, h: HostPieces)
    ensures base + |PrintHost(h)| == PortAt(base, h) + |h.port|
  {
    hide PrintUser, PrintName;
  }

  /** The states before and after a byte, and the parts they stand for. */
  lemma HostStates(h: HostPieces, foundAt: bool, ch: char)
    requires HostOrder(h, foundAt)
    ensures var s := HostStateOf(h, foundAt);
      var s' := HostChar(s, ch);
      && (s.InPort? <==> h.port != "") && (s.InUserinfo? ==> h.userinfo != "" && h.name == "")
      && (s'.InUserinfo? ==> (s.InUserinfo? <==> h.userinfo != ""))
      && (s'.InHost? || s'.InV6? ==> (s == s' <==> h.name != "") && h.zone == "" && !h.percent)
      && (s'.ZoneStart? || s'.InZone? ==> h.name != "")
      && (s'.InHost? || s'.InV6? || s'.ZoneStart? || s'.InZone? || s'.V6End? || s'.PortStart? || s'.InPort? ==> !s.InUserinfo?)
      && (s.InPort? ==> s'.InPort? || s'.HostDead?)
  {
    hide IsHostChar, IsV6Char, IsZoneChar, IsUserinfoChar, IsNum;
  }

  lemma HostStep(m: Fields, base: nat, h: HostPieces, foundAt: bool, ch: char)
    requires LawfulHost(h, foundAt) && !HostChar(HostStateOf(h, foundAt), ch).HostDead?
    ensures HostStepped(m, base, h, HostStateOf(h, foundAt), HostChar(HostStateOf(h, foundAt), ch), ch)
  {
    hide HostTexts, HostStepped, HostGrows;
    var s := HostStateOf(h, foundAt);
    var s' := HostChar(s, ch);
    ExtendHostOrder(h, foundAt, ch);
    HostMoves(h, foundAt, ch);
    HostStates(h, foundAt, ch);
    if s'.InUserinfo? || s'.HostStart? || s'.V6Start? { UserStep(m, base, h, s, s', ch); }
    else if s'.InHost? || s'.InV6? || s'.ZoneStart? || s'.InZone? { NameStep(m, base, h, s, s', ch); }
    else { PortStep(m, base, h, s, s', ch); }
  }

  lemma HostStarts(m: Fields, base: nat, foundAt: bool)
    ensures SplitHost("", foundAt) == Some(NO_HOST) && HostFields(m, base, NO_HOST) == m[Host := Span(base, 0)]
    ensures HostStateOf(NO_HOST, foundAt) == if foundAt then UserinfoStart else HostStart
  {}

  lemma SplitHostNext(a: string, foundAt: bool, p: nat, h: HostPieces)
    requires p < |a| && SplitHost(a[..p], foundAt) == Some(h)
    ensures var s := HostChar(HostStateOf(h, foundAt), a[p]);
      SplitHost(a[..p + 1], foundAt) == if s.HostDead? then None else Some(ExtendHost(h, s, a[p]))
  {
    hide HostChar, HostStateOf, ExtendHost;
    assert a[..p + 1][..p] == a[..p];
  }

  lemma {:induction false} SplitHostStops(a: string, foundAt: bool, p: nat)
    requires p <= |a| && SplitHost(a[..p], foundAt).None?
    ensures SplitHost(a, foundAt).None?
    decreases |a|
  {
    hide HostChar, HostStateOf, ExtendHost;
    if p < |a| {
      assert a[..|a| - 1][..p] == a[..p];
      SplitHostStops(a[..|a| - 1], foundAt, p);
    } else {
      assert a[..p] == a;
    }
  }

  lemma CompleteStates(h: HostPieces, foundAt: bool)
    requires LawfulHost(h, foundAt)
    ensures var s := HostStateOf(h, foundAt); Complete(h) <==> s.InHost? || s.V6End? || s.InPort?
  {
    hide HostTexts;
  }

  // ---- The port ----

  /** The number that the first `i` digits spell. */
  function Prefix(ds: string, i: nat): nat
    requires i <= |ds| && Digits(ds, 10)
  {
    Spelled(ds[..i], 10)
  }

  lemma PrefixNext(ds: string, i: nat)
    requires i < |ds| && Digits(ds, 10)
    ensures Prefix(ds, i + 1) == Prefix(ds, i) * 10 + (ds[i] as int - '0' as int)
    ensures 0 <= ds[i] as int - '0' as int < 10
  {
    assert ds[..i + 1][..i] == ds[..i];
    DecimalDigit(ds[i]);
  }

  lemma DecimalDigit(ch: char)
    requires 0 <= Unhex(ch) < 10
    ensures Unhex(ch) == ch as int - '0' as int
  {}

  lemma PrefixEnds(ds: string)
    requires Digits(ds, 10)
    ensures Prefix(ds, 0) == 0 && Prefix(ds, |ds|) == Spelled(ds, 10)
  {
    assert ds[..|ds|] == ds;
  }

  lemma {:induction false} PrefixGrows(ds: string, i: nat)
    requires i <= |ds| && Digits(ds, 10)
    ensures Prefix(ds, i) <= Spelled(ds, 10)
    decreases |ds| - i
  {
    hide Spelled, Digits;
    if i < |ds| {
      PrefixNext(ds, i);
      PrefixGrows(ds, i + 1);
    } else {
      PrefixEnds(ds);
    }
  }

  /** The third loop from the value `v` on: in 64 bits, given up beyond 16. */
  function ConvertFrom(v: nat, ds: string): Option<nat>
    decreases |ds|
  {
    if ds == "" then Some(v)
    else
      var w := (v * 10 + ds[0] as int - '0' as int) % 0x1_0000_0000_0000_0000;
      if w > 0xFFFF then None else ConvertFrom(w, ds[1..])
  }

  function Convert(ds: string): Option<nat> { ConvertFrom(0, ds) }

  lemma {:induction false} ConvertRest(ds: string, i: nat)
    requires i <= |ds| && Digits(ds, 10) && Prefix(ds, i) <= 0xFFFF
    ensures ConvertFrom(Prefix(ds, i), ds[i..])
      == if Spelled(ds, 10) <= 0xFFFF then Some(Spelled(ds, 10)) else None
    decreases |ds| - i
  {
    hide Spelled, Digits, Prefix;
    if i < |ds| {
      PrefixNext(ds, i);
      PrefixGrows(ds, i + 1);
      assert ds[i..][1..] == ds[i + 1..];
      if Prefix(ds, i + 1) <= 0xFFFF { ConvertRest(ds, i + 1); }
    } else {
      PrefixEnds(ds);
    }
  }

  /** Digits are converted exactly when they spell at most 65535, to the number that they spell. */
  lemma ConvertDigits(ds: string)
    requires Digits(ds, 10)
    ensures Convert(ds) == if Spelled(ds, 10) <= 0xFFFF then Some(Spelled(ds, 10)) else None
  {
    PrefixEnds(ds);
    ConvertRest(ds, 0);
    assert ds[0..] == ds;
  }

  // ---- The passes ----

  /** `struct http_parser_url` and what is done with it. */
  class ParsedUrl {
    var fields: Fields
    var port: nat

    constructor ()
      ensures fields == map[] && port == 0
    {
      fields, port := map[], 0;
    }

    /** The first pass of `http_parser_parse_url`. */
    method Scan(buf: string, isConnect: bool) returns (ok: bool, foundAt: bool)
      modifies this
      ensures port == 0 && (ok <==> Split(buf, isConnect).Some?)
      ensures ok ==> fields == FirstFields(Split(buf, isConnect).value)
      ensures ok ==> (foundAt <==> '@' in Split(buf, isConnect).value.authority)
    {
      hide ParseUrlChar, StateOf, Extend, Lawful, FirstFields, Print, GrowsAt, LastField;
      port, fields, foundAt := 0, map[], false;
      var s := if isConnect then ReqServerStart else ReqSpacesBeforeUrl;
      var oldField: Option<FieldName> := None;
      var p := 0;
      ghost var t := NOTHING;
      ScanStarts(isConnect);
      while p < |buf|
        invariant p <= |buf| && port == 0 && Split(buf[..p], isConnect) == Some(t)
        invariant s == StateOf(t, isConnect) && fields == FirstFields(t) && oldField == LastField(t)
        invariant foundAt <==> '@' in t.authority
      {
        var ch := buf[p];
        SplitNext(buf, isConnect, p, t);
        SplitPrints(buf[..p], isConnect);
        UrlStates(t, isConnect, ch);
        s := ParseUrlChar(s, ch);
        if s.Dead? {
          SplitStops(buf, isConnect, p + 1);
          return false, foundAt;
        }
        ExtendLawful(t, isConnect, ch);
        Grows(t, isConnect, ch);
        AtSign(t, isConnect, ch);
        LawfulSlashes(t, isConnect);
        FirstStep(t, s, ch);
        if s.ReqServerWithAt? { foundAt := true; }
        var field := FieldOf(s);
        if field.Some? {
          fields := Grown(fields, field.value, oldField, p);
          oldField := field;
        }
        t := Extend(t, s, ch);
        p := p + 1;
      }
      assert buf[..p] == buf;
      ok := true;
    }

    /** `http_parse_host`: the second pass, over the authority. */
    method ParseHost(buf: string, foundAt: bool) returns (ok: bool)
      requires Host in fields && fields[Host].off + fields[Host].len <= |buf|
      modifies this`fields
      ensures var h := SplitHost(TextAt(buf, old(fields[Host])), foundAt);
        && (ok <==> h.Some? && Complete(h.value))
        && (ok ==> fields == HostFields(old(fields), old(fields[Host].off), h.value))
    {
      hide HostChar, HostStateOf, ExtendHost, HostFields, HostGrown, PrintHost, HostOrder, HostTexts, SplitHost,
        HostGrows;
      ghost var m := fields;
      var base, end := fields[Host].off, fields[Host].off + fields[Host].len;
      ghost var a := buf[base..end];
      fields := fields[Host := Span(base, 0)];
      var s := if foundAt then UserinfoStart else HostStart;
      var p := base;
      ghost var h := NO_HOST;
      HostStarts(m, base, foundAt);
      while p < end
        invariant base <= p <= end && SplitHost(a[..p - base], foundAt) == Some(h)
        invariant s == HostStateOf(h, foundAt) && fields == HostFields(m, base, h)
      {
        var ch := buf[p];
        assert a[p - base] == ch;
        SplitHostNext(a, foundAt, p - base, h);
        SplitHostPrints(a[..p - base], foundAt);
        var newS := HostChar(s, ch);
        if newS.HostDead? {
          SplitHostStops(a, foundAt, p - base + 1);
          return false;
        }
        HostStep(m, base, h, foundAt, ch);
        ExtendHostOrder(h, foundAt, ch);
        fields := HostGrown(fields, s, newS, p);
        h := ExtendHost(h, newS, ch);
        s := newS;
        p := p + 1;
      }
      assert a[..p - base] == a;
      SplitHostPrints(a, foundAt);
      CompleteStates(h, foundAt);
      ok := s.InHost? || s.V6End? || s.InPort?;
    }

    /** The third loop of `http_parser_parse_url`: the value of the port. */
    method ConvertPort(buf: string) returns (ok: bool)
      requires Port in fields && fields[Port].off + fields[Port].len <= |buf|
      modifies this`port
      ensures var v := Convert(TextAt(buf, fields[Port])); (ok <==> v.Some?) && (ok ==> port == v.value)
      ensures var digits := TextAt(buf, fields[Port]);
        Digits(digits, 10) ==> (ok <==> Spelled(digits, 10) <= 0xFFFF) && (ok ==> port == Spelled(digits, 10))
    {
      hide Digits, Spelled;
      var p, end := fields[Port].off, fields[Port].off + fields[Port].len;
      ghost var off, digits := p, buf[p..end];
      var v: nat := 0;
      if Digits(digits, 10) { ConvertDigits(digits); }
      assert digits[0..] == digits;
      while p < end
        invariant off <= p <= end && Convert(digits) == ConvertFrom(v, digits[p - off..])
      {
        assert digits[p - off..][1..] == digits[p - off + 1..];
        v := (v * 10 + buf[p] as int - '0' as int) % 0x1_0000_0000_0000_0000;
        if v > 0xFFFF { return false; }
        p := p + 1;
      }
      port := v;
      ok := true;
    }

    /** `http_parser_parse_url`: whatever the length, the fields are where the parts lie exactly when the URL is accepted
        and 16 bits hold the place of each. */
    method Parse(buf: string, isConnect: bool) returns (ok: bool)
      modifies this
      ensures buf == "" ==> !ok && fields == old(fields) && port == old(port)
      ensures ok <==> Report(buf, isConnect).Some?
      ensures ok ==> Report(buf, isConnect) == Some((fields, port))
      ensures forall t, h :: IsCut(buf, isConnect, t, h) ==>
        (ok && fields == Where(t, h) <==> Accepted(buf, isConnect, t, h) && Fits(t, h))
      ensures forall t, h :: Accepted(buf, isConnect, t, h) && Fits(t, h) ==> ok && fields == Where(t, h) && port == PortOf(h)
      ensures |buf| <= 0xFFFF ==> (ok <==> exists t, h :: Accepted(buf, isConnect, t, h))
      ensures |buf| <= 0xFFFF ==> forall t, h :: Accepted(buf, isConnect, t, h) ==> fields == Where(t, h) && port == PortOf(h)
    {
      hide Accepted, Split, SplitHost, Complete, FirstFields, HostFields, TextAt, Where, IsCut, Fits;
      ok := RunPasses(buf, isConnect);
      ReportsRight(buf, isConnect);
      if |buf| <= 0xFFFF { ShortReport(buf, isConnect); }
    }

    method RunPasses(buf: string, isConnect: bool) returns (ok: bool)
      modifies this
      ensures buf == "" ==> !ok && fields == old(fields) && port == old(port)
      ensures ok <==> Report(buf, isConnect).Some?
      ensures ok ==> Report(buf, isConnect) == Some((fields, port))
    {
      hide Split, SplitHost, Complete, FirstFields, HostFields, TextAt, Convert, Lawful, Print, PrintHost;
      if |buf| == 0 { return false; }
      var foundAt;
      ok, foundAt := Scan(buf, isConnect);
      if !ok { return; }
      ghost var t := Split(buf, isConnect).value;
      FirstPass(buf, isConnect, t);
      if Schema in fields && Host !in fields { return false; }
      if Host in fields {
        ghost var a := TextAt(buf, fields[Host]);
        ok := ParseHost(buf, foundAt);
        if !ok { return; }
        SecondPass(buf, t, foundAt, SplitHost(a, foundAt).value);
      }
      if isConnect && fields.Keys != {Host, Port} { return false; }
      if Port in fields {
        ok := ConvertPort(buf);
      }
    }
  }

  lemma ScanStarts(connect: bool)
    ensures Split("", connect) == Some(NOTHING) && FirstFields(NOTHING) == map[] && LastField(NOTHING) == None
    ensures StateOf(NOTHING, connect) == if connect then ReqServerStart else ReqSpacesBeforeUrl
  {}

  lemma SplitNext(buf: string, connect: bool, p: nat, t: Pieces)
    requires p < |buf| && Split(buf[..p], connect) == Some(t)
    ensures var s := ParseUrlChar(StateOf(t, connect), buf[p]);
      Split(buf[..p + 1], connect) == if s.Dead? then None else Some(Extend(t, s, buf[p]))
  {
    hide ParseUrlChar, StateOf, Extend;
    assert buf[..p + 1][..p] == buf[..p];
  }

  lemma {:induction false} SplitStops(buf: string, connect: bool, p: nat)
    requires p <= |buf| && Split(buf[..p], connect).None?
    ensures Split(buf, connect).None?
    decreases |buf|
  {
    hide ParseUrlChar, StateOf, Extend;
    if p < |buf| {
      assert buf[..|buf| - 1][..p] == buf[..p];
      SplitStops(buf[..|buf| - 1], connect, p);
    } else {
      assert buf[..p] == buf;
    }
  }

  // ---- The reported fields ----

  function AuthorityAt(t: Pieces): nat { |t.schema| + t.slashes }

  lemma LayNothing()
    ensures Text([]) == "" && Lay([]) == map[]
  {}

  lemma SchemaLaid(t: Pieces)
    requires t.slashes <= 3
    ensures Text(SchemaParts(t)) == t.schema + "://"[..t.slashes]
    ensures Lay(SchemaParts(t)) == Place(map[], Schema, 0, |t.schema|)
  {
    hide Place, Text, Lay;
    LayNothing();
    LaySnoc([], Part(Some(Schema), t.schema));
    LaySnoc([] + [Part(Some(Schema), t.schema)], Part(None, "://"[..t.slashes]));
  }

  lemma UserLaid(t: Pieces, h: HostPieces)
    requires t.slashes <= 3
    ensures Text(UserParts(t, h)) == t.schema + "://"[..t.slashes] + PrintUser(h)
    ensures Lay(UserParts(t, h)) == Place(Place(map[], Schema, 0, |t.schema|), Userinfo, AuthorityAt(t), |h.userinfo|)
  {
    hide Place, Text, Lay, SchemaParts;
    SchemaLaid(t);
    var u, d := Part(Some(Userinfo), h.userinfo), Part(None, If(h.at, "@") + If(h.bracket, "["));
    LaySnoc(SchemaParts(t), u);
    LaySnoc(SchemaParts(t) + [u], d);
    assert Text(SchemaParts(t)) + h.userinfo + d.text == Text(SchemaParts(t)) + (h.userinfo + If(h.at, "@") + If(h.bracket, "["));
  }

  lemma HeadLaid(t: Pieces, h: HostPieces)
    requires t.slashes <= 3 && t.authority == PrintHost(h)
    ensures Text(HeadParts(t, h)) == t.schema + "://"[..t.slashes] + t.authority
    ensures var a := AuthorityAt(t);
      Lay(HeadParts(t, h))
      == Place(Place(Place(Place(map[], Schema, 0, |t.schema|), Userinfo, a, |h.userinfo|),
                     Host, a + |PrintUser(h)|, |PrintName(h)|), Port, PortAt(a, h), |h.port|)
  {
    hide Place, Text, Lay, UserParts, PrintUser, PrintName;
    UserLaid(t, h);
    var e, f, g := Part(Some(Host), PrintName(h)), Part(None, If(h.closed, "]") + If(h.colon, ":")), Part(Some(Port), h.port);
    var ps, s := UserParts(t, h), t.schema + "://"[..t.slashes];
    LaySnoc(ps, e);
    LaySnoc(ps + [e], f);
    LaySnoc(ps + [e] + [f], g);
    assert s + PrintUser(h) + PrintName(h) + f.text + h.port == s + (PrintUser(h) + PrintName(h) + (f.text + h.port));
  }

  lemma PathLaid(t: Pieces, h: HostPieces)
    requires t.slashes <= 3 && t.authority == PrintHost(h)
    ensures Text(PathParts(t, h)) == t.schema + "://"[..t.slashes] + t.authority + t.path + If(t.question, "?")
    ensures Lay(PathParts(t, h)) == Place(Lay(HeadParts(t, h)), Path, AuthorityAt(t) + |t.authority|, |t.path|)
  {
    hide Place, Text, Lay, HeadParts, PrintHost, If;
    HeadLaid(t, h);
    LaySnoc(HeadParts(t, h), Part(Some(Path), t.path));
    LaySnoc(HeadParts(t, h) + [Part(Some(Path), t.path)], Part(None, If(t.question, "?")));
  }

  /** The parts laid out print the URL, with the fields where these offsets say. */
  lemma PartsLaid(t: Pieces, h: HostPieces)
    requires t.slashes <= 3 && t.authority == PrintHost(h)
    ensures Text(Parts(t, h)) == Print(t)
    ensures Where(t, h)
      == Place(Place(Lay(PathParts(t, h)), Query, QueryAt(t), |t.query|), Fragment, QueryAt(t) + |t.query| + t.hashes, |t.fragment|)
  {
    hide Place, Text, Lay, PathParts, PrintHost, Hashes;
    PathLaid(t, h);
    var ps, q, d, f := PathParts(t, h), Part(Some(Query), t.query), Part(None, Hashes(t.hashes)), Part(Some(Fragment), t.fragment);
    LaySnoc(ps, q);
    LaySnoc(ps + [q], d);
    LaySnoc(ps + [q] + [d], f);
    HashesLength(t.hashes);
    assert |If(t.question, "?")| == if t.question then 1 else 0;
  }

  lemma HashesLength(n: nat)
    ensures |Hashes(n)| == n
  {}

  function Get(m: Fields, f: FieldName): Option<Span> {
    if f in m then Some(m[f]) else None
  }

  lemma PlaceGet(m: Fields, f: FieldName, off: nat, len: nat, g: FieldName)
    ensures Get(Place(m, f, off, len), g) == if g == f && len > 0 then Some(Span(off, len)) else Get(m, g)
  {}

  function WrappedSpan(o: Option<Span>): Option<Span> {
    if o.Some? then Some(Span(Wide(o.value.off), Wide(o.value.len))) else None
  }

  lemma WrappedGet(m: Fields, f: FieldName)
    ensures Get(Wrapped(m), f) == WrappedSpan(Get(m, f))
  {
    hide Wide;
  }

  lemma SameFields(m: Fields, n: Fields)
    requires forall f :: Get(m, f) == Get(n, f)
    ensures m == n
  {
    forall f ensures f in m <==> f in n { assert Get(m, f) == Get(n, f); }
    forall f | f in m ensures m[f] == n[f] { assert Get(m, f) == Get(n, f); }
  }

  /** Where one field lies. */
  function SpanOf(t: Pieces, h: HostPieces, f: FieldName): Option<Span> {
    var (off, len) := match f
      case Schema => (0, |t.schema|)
      case Userinfo => (AuthorityAt(t), |h.userinfo|)
      case Host => (AuthorityAt(t) + |PrintUser(h)|, |PrintName(h)|)
      case Port => (PortAt(AuthorityAt(t), h), |h.port|)
      case Path => (AuthorityAt(t) + |t.authority|, |t.path|)
      case Query => (QueryAt(t), |t.query|)
      case Fragment => (QueryAt(t) + |t.query| + t.hashes, |t.fragment|);
    if len == 0 then None else Some(Span(off, len))
  }

  lemma WhereGet(t: Pieces, h: HostPieces, f: FieldName)
    requires t.slashes <= 3 && t.authority == PrintHost(h)
    ensures Get(Where(t, h), f) == SpanOf(t, h, f)
  {
    hide Where, Lay, Wide, Get, Place, PrintUser, PrintName, PortAt, QueryAt, AuthorityAt, Parts, PathParts, HeadParts;
    PartsLaid(t, h);
    PathLaid(t, h);
    HeadLaid(t, h);
    var a := AuthorityAt(t);
    var m0: Fields := map[];
    var m1 := Place(m0, Schema, 0, |t.schema|);
    var m2 := Place(m1, Userinfo, a, |h.userinfo|);
    var m3 := Place(m2, Host, a + |PrintUser(h)|, |PrintName(h)|);
    var m4 := Place(m3, Port, PortAt(a, h), |h.port|);
    var m5 := Place(m4, Path, a + |t.authority|, |t.path|);
    var m6 := Place(m5, Query, QueryAt(t), |t.query|);
    PlaceGet(m6, Fragment, QueryAt(t) + |t.query| + t.hashes, |t.fragment|, f);
    PlaceGet(m5, Query, QueryAt(t), |t.query|, f);
    PlaceGet(m4, Path, a + |t.authority|, |t.path|, f);
    PlaceGet(m3, Port, PortAt(a, h), |h.port|, f);
    PlaceGet(m2, Host, a + |PrintUser(h)|, |PrintName(h)|, f);
    PlaceGet(m1, Userinfo, a, |h.userinfo|, f);
    PlaceGet(m0, Schema, 0, |t.schema|, f);
    assert Get(m0, f) == None by { EmptyGet(f); }
  }

  lemma EmptyGet(f: FieldName)
    ensures Get(map[], f) == None
  {}

  lemma FirstGet(t: Pieces, f: FieldName)
    ensures Get(FirstFields(t), f) ==
      match f
      case Host => if t.authority == "" then None else Some(Span(Wide(AuthorityAt(t)), Wide(|t.authority|)))
      case Userinfo => None
      case Port => None
      case _ => WrappedSpan(SpanOf(t, NO_HOST, f))
  {
    hide Wide;
  }

  lemma HostGet(m: Fields, base: nat, h: HostPieces, f: FieldName)
    ensures Get(HostFields(m, base, h), f) ==
      match f
      case Host => Some(NameSpan(base, h))
      case Userinfo => if h.userinfo == "" then Get(m, f) else Some(Span(Wide(base), Wide(|h.userinfo|)))
      case Port => if h.port == "" then Get(m, f) else Some(Span(Wide(PortAt(base, h)), Wide(|h.port|)))
      case _ => Get(m, f)
  {
    hide Wide, PortAt, NameSpan;
  }

  /** The two passes together report of every field what 16 bits can hold of its place. */
  lemma PassesReport(t: Pieces, h: HostPieces)
    requires t.slashes <= 3 && t.authority == PrintHost(h) && (h.name == "" <==> t.authority == "")
    ensures Wrapped(Where(t, h)) == if t.authority == "" then FirstFields(t) else HostFields(FirstFields(t), AuthorityAt(t), h)
  {
    hide Where, FirstFields, HostFields, Get, Wide, PortAt, AuthorityAt, QueryAt, Wrapped;
    var m := if t.authority == "" then FirstFields(t) else HostFields(FirstFields(t), AuthorityAt(t), h);
    forall f ensures Get(Wrapped(Where(t, h)), f) == Get(m, f) {
      WrappedGet(Where(t, h), f);
      WhereGet(t, h, f);
      FirstGet(t, f);
      HostGet(FirstFields(t), AuthorityAt(t), h, f);
    }
    SameFields(Wrapped(Where(t, h)), m);
  }

  lemma WideBound(n: nat)
    ensures Wide(n) <= n && (n <= 0xFFFF ==> Wide(n) == n)
  {}

  /** The authority field of the first pass. */
  lemma FirstPass(buf: string, connect: bool, t: Pieces)
    requires Split(buf, connect) == Some(t)
    ensures t.slashes <= 3 && Print(t) == buf && var m := FirstFields(t);
      && (Schema in m <==> t.schema != "") && (Host in m <==> t.authority != "") && Port !in m
      && (Host in m ==> m[Host].off + m[Host].len <= |buf|)
      && (Host in m ==> m[Host] == Span(Wide(AuthorityAt(t)), Wide(|t.authority|)))
      && (Host in m && AuthorityFits(t) ==> m[Host].off == AuthorityAt(t) && TextAt(buf, m[Host]) == t.authority)
  {
    hide Print, Lawful, FirstFields, Split, Wide, AuthorityAt;
    SplitPrints(buf, connect);
    LawfulSlashes(t, connect);
    HeadOfPrint(t);
    FirstSet(t);
    WideBound(AuthorityAt(t));
    WideBound(|t.authority|);
  }

  lemma FirstSet(t: Pieces)
    ensures var m := FirstFields(t);
      && (Schema in m <==> t.schema != "") && (Host in m <==> t.authority != "") && Port !in m
      && (Host in m ==> m[Host] == Span(Wide(AuthorityAt(t)), Wide(|t.authority|)))
  {
    hide Wide;
  }

  lemma HeadOfPrint(t: Pieces)
    requires t.slashes <= 3
    ensures AuthorityAt(t) + |t.authority| <= |Print(t)|
    ensures Print(t)[AuthorityAt(t)..AuthorityAt(t) + |t.authority|] == t.authority
  {
    hide Tail;
    PrintHeadTail(t);
    var s := t.schema + "://"[..t.slashes];
    assert Head(t)[|s|..] == t.authority;
  }

  /** The port field of the second pass. */
  lemma SecondPass(buf: string, t: Pieces, foundAt: bool, h: HostPieces)
    requires t.authority != "" && Host in FirstFields(t) && var at := FirstFields(t)[Host];
      at.off + at.len <= |buf| && SplitHost(TextAt(buf, at), foundAt) == Some(h)
    requires Port !in FirstFields(t)
    ensures LawfulHost(h, foundAt) && var at := FirstFields(t)[Host]; var m := HostFields(FirstFields(t), at.off, h);
      && PrintHost(h) == TextAt(buf, at) && (Port in m <==> h.port != "") && Host in m && (Schema in m <==> Schema in FirstFields(t))
      && (Port in m ==> m[Port].off + m[Port].len <= |buf|)
  {
    var at := FirstFields(t)[Host];
    SplitHostPrints(TextAt(buf, at), foundAt);
    PortLength(at.off, h);
    hide FirstFields, SplitHost, PrintHost, HostOrder, HostTexts, PortAt, NameSpan;
    HostGet(FirstFields(t), at.off, h, Port);
    HostGet(FirstFields(t), at.off, h, Host);
    HostGet(FirstFields(t), at.off, h, Schema);
    WideBound(PortAt(at.off, h));
    WideBound(|h.port|);
  }

  // ---- Soundness of the report ----

  /** The text of each field. */
  function FieldText(t: Pieces, h: HostPieces, f: FieldName): string {
    match f
    case Schema => t.schema
    case Userinfo => h.userinfo
    case Host => PrintName(h)
    case Port => h.port
    case Path => t.path
    case Query => t.query
    case Fragment => t.fragment
  }

  /** Ranks in `ps` stay below `r`. */
  predicate Below(ps: seq<Part>, r: nat) {
    forall p | p in ps && p.field.Some? :: Rank(p.field.value) < r
  }

  lemma TidySnoc(ps: seq<Part>, p: Part, r: nat)
    requires Tidy(ps) && Below(ps, r)
    requires if p.field.Some? then Rank(p.field.value) >= r else forall c | c in p.text :: IsDelimiter(c)
    ensures Tidy(ps + [p]) && Below(ps + [p], if p.field.Some? then Rank(p.field.value) + 1 else r)
  {
    var qs := ps + [p];
    forall i, j | 0 <= i < j < |qs| && qs[i].field.Some? && qs[j].field.Some?
      ensures Rank(qs[i].field.value) < Rank(qs[j].field.value)
    {
      assert qs[i] in ps;
    }
  }

  lemma Delimiters(t: Pieces, h: HostPieces)
    requires t.slashes <= 3
    ensures forall c | c in "://"[..t.slashes] :: IsDelimiter(c)
    ensures forall c | c in If(h.at, "@") + If(h.bracket, "[") :: IsDelimiter(c)
    ensures forall c | c in If(h.closed, "]") + If(h.colon, ":") :: IsDelimiter(c)
    ensures forall c | c in If(t.question, "?") :: IsDelimiter(c)
    ensures forall c | c in Hashes(t.hashes) :: IsDelimiter(c)
  {}

  lemma HeadTidy(t: Pieces, h: HostPieces)
    requires t.slashes <= 3
    ensures Tidy(HeadParts(t, h)) && Below(HeadParts(t, h), 4)
  {
    hide Tidy, Below, IsDelimiter, If, PrintName;
    Delimiters(t, h);
    assert Tidy([]) && Below([], 0) by { NothingTidy(); }
    TidySnoc([], Part(Some(Schema), t.schema), 0);
    TidySnoc([] + [Part(Some(Schema), t.schema)], Part(None, "://"[..t.slashes]), 1);
    TidySnoc(SchemaParts(t), Part(Some(Userinfo), h.userinfo), 1);
    TidySnoc(SchemaParts(t) + [Part(Some(Userinfo), h.userinfo)], Part(None, If(h.at, "@") + If(h.bracket, "[")), 2);
    var ps, e, f := UserParts(t, h), Part(Some(Host), PrintName(h)), Part(None, If(h.closed, "]") + If(h.colon, ":"));
    TidySnoc(ps, e, 2);
    TidySnoc(ps + [e], f, 3);
    TidySnoc(ps + [e] + [f], Part(Some(Port), h.port), 3);
  }

  lemma NothingTidy()
    ensures Tidy([]) && Below([], 0)
  {}

  lemma PartsTidy(t: Pieces, h: HostPieces)
    requires t.slashes <= 3
    ensures Tidy(Parts(t, h))
  {
    hide Tidy, Below, IsDelimiter, If, HeadParts, Hashes;
    Delimiters(t, h);
    HeadTidy(t, h);
    TidySnoc(HeadParts(t, h), Part(Some(Path), t.path), 4);
    TidySnoc(HeadParts(t, h) + [Part(Some(Path), t.path)], Part(None, If(t.question, "?")), 5);
    var ps, q, d := PathParts(t, h), Part(Some(Query), t.query), Part(None, Hashes(t.hashes));
    TidySnoc(ps, q, 5);
    TidySnoc(ps + [q], d, 6);
    TidySnoc(ps + [q] + [d], Part(Some(Fragment), t.fragment), 6);
  }

  lemma PartText(t: Pieces, h: HostPieces, p: Part)
    requires t.slashes <= 3 && p in Parts(t, h) && p.field.Some?
    ensures p.text == FieldText(t, h, p.field.value)
  {
    hide If, PrintName, Hashes;
  }

  /** Soundness: the fields are non-empty, in bounds, apart and in order; each field holds the text of its part, and every
      other byte of the URL is a delimiter. */
  lemma FieldsAreSound(t: Pieces, h: HostPieces)
    requires t.slashes <= 3 && t.authority == PrintHost(h)
    ensures var m, buf := Where(t, h), Print(t);
      && InBounds(m, buf) && Ordered(m) && Covers(m, buf)
      && forall f :: (f in m <==> FieldText(t, h, f) != "") && (f in m ==> TextAt(buf, m[f]) == FieldText(t, h, f))
  {
    PartsTidy(t, h);
    PartsLaid(t, h);
    hide Tidy, Lay, Text, Parts, Print, PrintHost, Ordered, Covers, TextAt, Present, Known, FieldText;
    LaidIsSound(Parts(t, h));
    var m, buf := Where(t, h), Print(t);
    forall f ensures (f in m <==> FieldText(t, h, f) != "") && (f in m ==> TextAt(buf, m[f]) == FieldText(t, h, f)) {
      FieldIsSet(t, h, f);
      if f in m { PartText(t, h, Part(Some(f), TextAt(buf, m[f]))); }
    }
  }

  lemma FieldIsSet(t: Pieces, h: HostPieces, f: FieldName)
    requires t.slashes <= 3 && t.authority == PrintHost(h)
    ensures f in Where(t, h) <==> FieldText(t, h, f) != ""
  {
    WhereGet(t, h, f);
    hide Where, PrintHost, PrintName;
  }

  /** What a successful parse reports is sound. */
  lemma AcceptedIsSound(buf: string, connect: bool, t: Pieces, h: HostPieces)
    requires Accepted(buf, connect, t, h)
    ensures var m := Where(t, h);
      && InBounds(m, buf) && Ordered(m) && Covers(m, buf) && (Port in m ==> TextAt(buf, m[Port]) == h.port)
  {
    hide Order, Texts, Where, HostOrder, HostTexts, Complete, InBounds, Ordered, Covers, Print, PrintHost, TextAt,
      PortOf;
    LawfulSlashes(t, connect);
    AuthorityPrints(t, h);
    FieldsAreSound(t, h);
    assert FieldText(t, h, Port) == h.port;
  }

  lemma AuthorityPrints(t: Pieces, h: HostPieces)
    requires if t.authority == "" then h == NO_HOST else PrintHost(h) == t.authority
    ensures PrintHost(h) == t.authority
  {}

  // ---- What is reported at every length ----

  /** What follows the passes: the check for CONNECT, and the value of the port. */
  function Finish(buf: string, connect: bool, m: Fields): Option<(Fields, nat)>
    requires Port in m ==> m[Port].off + m[Port].len <= |buf|
  {
    if connect && m.Keys != {Host, Port} then None
    else if Port !in m then Some((m, 0))
    else match Convert(TextAt(buf, m[Port])) case None => None case Some(v) => Some((m, v))
  }

  /** The fields and the port that are reported, if the URL is taken for one: the second pass reads the bytes at the
      authority's place as 16 bits hold it. */
  function Report(buf: string, connect: bool): Option<(Fields, nat)> {
    if buf == "" || Split(buf, connect).None? then None
    else
      var t := Split(buf, connect).value;
      FirstPass(buf, connect, t);
      var m := FirstFields(t);
      if t.authority == "" then if t.schema != "" then None else Finish(buf, connect, m)
      else
        var h := SplitHost(TextAt(buf, m[Host]), '@' in t.authority);
        if h.None? || !Complete(h.value) then None
        else SecondPass(buf, t, '@' in t.authority, h.value); Finish(buf, connect, HostFields(m, m[Host].off, h.value))
  }

  /** `buf` is lawful so far: `t` prints it, and `h` its authority. */
  ghost predicate IsCut(buf: string, connect: bool, t: Pieces, h: HostPieces) {
    && buf != "" && Lawful(t, connect) && Print(t) == buf
    && (if t.authority == "" then h == NO_HOST else LawfulHost(h, '@' in t.authority) && PrintHost(h) == t.authority)
  }

  /** The place of the authority is within 16 bits. */
  predicate AuthorityFits(t: Pieces) {
    AuthorityAt(t) <= 0xFFFF && |t.authority| <= 0xFFFF
  }

  /** The place of every part, and of the authority as a whole, is within 16 bits. */
  ghost predicate Fits(t: Pieces, h: HostPieces)
    requires t.slashes <= 3
  {
    && (t.authority != "" ==> AuthorityFits(t))
    && (forall f | f in Where(t, h) :: Narrow(Where(t, h)[f]))
  }

  lemma AcceptedIsCut(buf: string, connect: bool, t: Pieces, h: HostPieces)
    requires Accepted(buf, connect, t, h)
    ensures IsCut(buf, connect, t, h)
  {
    hide Lawful, Print, HostOrder, HostTexts, PrintHost, Complete;
  }

  /** Nothing is lost exactly where every place is within 16 bits. */
  lemma WrappedIsSame(m: Fields)
    ensures Wrapped(m) == m <==> forall f | f in m :: Narrow(m[f])
  {
    forall f | f in m
      ensures Span(Wide(m[f].off), Wide(m[f].len)) == m[f] <==> Narrow(m[f])
    {
      WideBound(m[f].off);
      WideBound(m[f].len);
      WideSmall(m[f].off);
      WideSmall(m[f].len);
    }
    hide Wide, Narrow;
    if Wrapped(m) == m {
      assert forall f | f in m :: Wrapped(m)[f] == m[f];
    }
  }

  lemma WideSmall(n: nat)
    ensures Wide(n) <= 0xFFFF
  {}

  /** The fields behind the passes when the authority was read at its place. */
  function Passed(t: Pieces, h: HostPieces): Fields {
    if t.authority == "" then FirstFields(t) else HostFields(FirstFields(t), AuthorityAt(t), h)
  }

  lemma PassedIsWrapped(buf: string, connect: bool, t: Pieces, h: HostPieces)
    requires IsCut(buf, connect, t, h) && (t.authority != "" ==> Complete(h))
    ensures t.slashes <= 3 && Passed(t, h) == Wrapped(Where(t, h)) && PrintHost(h) == t.authority
  {
    LawfulSlashes(t, connect);
    AuthorityPrints(t, h);
    EmptyName(t, h);
    hide Lawful, Print, Where, FirstFields, HostFields, Wrapped, PrintHost, HostOrder, HostTexts, Complete;
    PassesReport(t, h);
  }

  lemma CutSplits(buf: string, connect: bool, t: Pieces, h: HostPieces)
    requires IsCut(buf, connect, t, h)
    ensures t.slashes <= 3 && Split(buf, connect) == Some(t) && PrintHost(h) == t.authority && HostTexts(h)
    ensures t.authority != "" ==> SplitHost(t.authority, '@' in t.authority) == Some(h)
  {
    LawfulSlashes(t, connect);
    AuthorityPrints(t, h);
    NoHostTexts();
    hide Lawful, Print, HostOrder, HostTexts, PrintHost, Split, SplitHost;
    SplitIsInverse(buf, connect, t);
    if t.authority != "" { SplitHostIsInverse(t.authority, '@' in t.authority, h); }
  }

  /** The report when the authority is read at its place. */
  lemma ReportAtPlace(buf: string, connect: bool, t: Pieces, h: HostPieces)
    requires IsCut(buf, connect, t, h) && (t.authority == "" ==> t.schema == "")
    requires t.authority != "" ==> AuthorityFits(t) && Complete(h)
    ensures Port in Passed(t, h) ==> Passed(t, h)[Port].off + Passed(t, h)[Port].len <= |buf|
    ensures Report(buf, connect) == Finish(buf, connect, Passed(t, h))
  {
    if t.authority == "" { ReportWithout(buf, connect, t, h); } else { ReportWith(buf, connect, t, h); }
    hide IsCut, Report, Finish, FirstFields, HostFields, Complete;
  }

  lemma ReportWithout(buf: string, connect: bool, t: Pieces, h: HostPieces)
    requires IsCut(buf, connect, t, h) && t.authority == t.schema == ""
    ensures Port !in FirstFields(t) && Report(buf, connect) == Finish(buf, connect, FirstFields(t))
  {
    CutSplits(buf, connect, t, h);
    FirstPass(buf, connect, t);
    hide IsCut, FirstFields, HostTexts, PrintHost, Split, SplitHost, TextAt, AuthorityAt, Finish, Wide, Print;
  }

  lemma ReportWith(buf: string, connect: bool, t: Pieces, h: HostPieces)
    requires IsCut(buf, connect, t, h) && t.authority != "" && AuthorityFits(t) && Complete(h)
    ensures var m := HostFields(FirstFields(t), AuthorityAt(t), h);
      (Port in m ==> m[Port].off + m[Port].len <= |buf|) && Report(buf, connect) == Finish(buf, connect, m)
  {
    CutSplits(buf, connect, t, h);
    FirstPass(buf, connect, t);
    hide IsCut, FirstFields, HostFields, HostOrder, HostTexts, PrintHost, Complete, Split, SplitHost, TextAt,
      AuthorityAt, Finish, Wide, Print;
    SecondPass(buf, t, '@' in t.authority, h);
  }

  /** The checks behind the passes, where every field is where its part lies. */
  lemma FinishIsRight(buf: string, connect: bool, t: Pieces, h: HostPieces)
    requires IsCut(buf, connect, t, h) && (t.authority != "" ==> Complete(h))
    ensures t.slashes <= 3 && HostTexts(h) && var m := Where(t, h);
      && (Port in m ==> m[Port].off + m[Port].len <= |buf|)
      && Finish(buf, connect, m)
        == if (connect ==> HostAndPortOnly(t, h)) && PortOf(h) <= 0xFFFF then Some((m, PortOf(h))) else None
  {
    CutSplits(buf, connect, t, h);
    PlacedPort(buf, t, h);
    if connect { PlacedKeys(buf, t, h); }
    PortDigits(h);
    ConvertDigits(h.port);
    if h.port == "" { NoPort(h); }
    hide Lawful, Print, Where, HostOrder, HostTexts, PrintHost, Complete, Split, SplitHost, TextAt, Digits, Spelled,
      Convert, HostAndPortOnly;
  }

  lemma PlacedPort(buf: string, t: Pieces, h: HostPieces)
    requires t.slashes <= 3 && PrintHost(h) == t.authority && Print(t) == buf
    ensures var m := Where(t, h);
      (Port in m <==> h.port != "") && (Port in m ==> m[Port].off + m[Port].len <= |buf| && TextAt(buf, m[Port]) == h.port)
  {
    FieldsAreSound(t, h);
    assert FieldText(t, h, Port) == h.port;
    hide Where, Print, PrintHost, Ordered, Covers, TextAt, FieldText;
  }

  lemma PlacedKeys(buf: string, t: Pieces, h: HostPieces)
    requires Split(buf, true) == Some(t) && t.slashes <= 3 && PrintHost(h) == t.authority
    requires if t.authority == "" then h == NO_HOST else Complete(h)
    ensures Where(t, h).Keys == {Host, Port} <==> HostAndPortOnly(t, h)
  {
    EmptyName(t, h);
    ConnectSchema(buf, t);
    hide Where, Print, PrintHost, PrintName, Ordered, Covers, TextAt, FieldText, Complete, Split, InBounds;
    FieldsAreSound(t, h);
    KeysAre(t, h, Where(t, h));
  }

  /** If the report names the places of the parts, the authority was read at its place: the lengths of what was read add
      up, but for four delimiters, to the length of the authority. */
  lemma HostTells(t: Pieces, h: HostPieces, base: nat, g: HostPieces)
    requires t.slashes <= 3 && PrintHost(h) == t.authority != "" && Complete(g) && |PrintHost(g)| == Wide(|t.authority|)
    requires HostFields(FirstFields(t), base, g) == Where(t, h)
    ensures AuthorityFits(t)
  {
    hide Where, FirstFields, HostFields, PrintHost, AuthorityAt;
    forall f
      ensures Get(Where(t, h), f) == SpanOf(t, h, f) && Get(Where(t, h), f) == Get(HostFields(FirstFields(t), base, g), f)
    {
      WhereGet(t, h, f);
    }
    HostGet(FirstFields(t), base, g, Host);
    HostGet(FirstFields(t), base, g, Userinfo);
    HostGet(FirstFields(t), base, g, Port);
    FirstGet(t, Userinfo);
    FirstGet(t, Port);
    HostLengths(g);
    HostLengths(h);
    var spans := SpanOf(t, h, Host);
    assert spans == Some(NameSpan(base, g));
    LengthsAgree(t, h, base, g);
  }

  lemma HostLengths(h: HostPieces)
    ensures |h.userinfo| + |PrintName(h)| + |h.port| <= |PrintHost(h)| <= |h.userinfo| + |PrintName(h)| + |h.port| + 4
    ensures h.name != "" ==> PrintName(h) != ""
  {}

  lemma LengthsAgree(t: Pieces, h: HostPieces, base: nat, g: HostPieces)
    requires t.slashes <= 3 && g.name != "" && PrintName(g) != "" && |PrintHost(h)| == |t.authority| && |PrintHost(g)| == Wide(|t.authority|)
    requires SpanOf(t, h, Host) == Some(NameSpan(base, g))
    requires SpanOf(t, h, Userinfo) == if g.userinfo == "" then None else Some(Span(Wide(base), Wide(|g.userinfo|)))
    requires SpanOf(t, h, Port) == if g.port == "" then None else Some(Span(Wide(PortAt(base, g)), Wide(|g.port|)))
    requires |g.userinfo| + |PrintName(g)| + |g.port| <= |PrintHost(g)|
    requires |PrintHost(h)| <= |h.userinfo| + |PrintName(h)| + |h.port| + 4
    ensures AuthorityFits(t)
  {
    hide PrintHost, PrintName, PrintUser, PortAt, AuthorityAt, QueryAt;
    WideSmall(|t.authority|);
    WideSmall(base + |PrintUser(g)|);
    WideSame(|g.userinfo|);
    WideSame(|PrintName(g)|);
    WideSame(|g.port|);
    assert |h.userinfo| == |g.userinfo| && |PrintName(h)| == |PrintName(g)| && |h.port| == |g.port|;
    assert |t.authority| <= Wide(|t.authority|) + 4;
  }

  lemma WideSame(n: nat)
    ensures n <= 0xFFFF ==> Wide(n) == n
  {}

  /** The report names the places of the parts exactly when the URL is accepted and 16 bits hold each place; then the port
      is that of the URL. */
  lemma ReportIsRight(buf: string, connect: bool, t: Pieces, h: HostPieces)
    requires IsCut(buf, connect, t, h)
    ensures t.slashes <= 3 && var r := Report(buf, connect);
      && (r.Some? && r.value.0 == Where(t, h) <==> Accepted(buf, connect, t, h) && Fits(t, h))
      && (Accepted(buf, connect, t, h) && Fits(t, h) ==> r == Some((Where(t, h), PortOf(h))))
  {
    CutSplits(buf, connect, t, h);
    var r := Report(buf, connect);
    if Accepted(buf, connect, t, h) && Fits(t, h) {
      RightWay(buf, connect, t, h);
    } else if r.Some? && r.value.0 == Where(t, h) {
      ReportTells(buf, connect, t, h);
    }
  }

  lemma ReportsRight(buf: string, connect: bool)
    ensures var r := Report(buf, connect);
      && (forall t, h :: IsCut(buf, connect, t, h) ==>
            (r.Some? && r.value.0 == Where(t, h) <==> Accepted(buf, connect, t, h) && Fits(t, h)))
      && (forall t, h :: Accepted(buf, connect, t, h) && Fits(t, h) ==> r == Some((Where(t, h), PortOf(h))))
  {
    forall t, h | IsCut(buf, connect, t, h)
      ensures t.slashes <= 3 && var r := Report(buf, connect);
        && (r.Some? && r.value.0 == Where(t, h) <==> Accepted(buf, connect, t, h) && Fits(t, h))
        && (Accepted(buf, connect, t, h) && Fits(t, h) ==> r == Some((Where(t, h), PortOf(h))))
    {
      ReportIsRight(buf, connect, t, h);
    }
    forall t, h | Accepted(buf, connect, t, h)
      ensures IsCut(buf, connect, t, h)
    {
      AcceptedIsCut(buf, connect, t, h);
    }
  }

  lemma RightWay(buf: string, connect: bool, t: Pieces, h: HostPieces)
    requires t.slashes <= 3 && Accepted(buf, connect, t, h) && Fits(t, h)
    ensures Report(buf, connect) == Some((Where(t, h), PortOf(h)))
  {
    AcceptedIsCut(buf, connect, t, h);
    hide Lawful, Print, Where, HostOrder, HostTexts, PrintHost, Complete, Wrapped, Finish, Passed, IsCut, Report, Narrow,
      PortOf, HostAndPortOnly;
    ReportAtPlace(buf, connect, t, h);
    PassedIsWrapped(buf, connect, t, h);
    WrappedIsSame(Where(t, h));
    FinishIsRight(buf, connect, t, h);
  }

  lemma ReportTells(buf: string, connect: bool, t: Pieces, h: HostPieces)
    requires IsCut(buf, connect, t, h) && t.slashes <= 3
    requires Report(buf, connect).Some? && Report(buf, connect).value.0 == Where(t, h)
    ensures Accepted(buf, connect, t, h) && Fits(t, h)
  {
    AuthorityTells(buf, connect, t, h);
    hide Lawful, Print, Where, HostOrder, HostTexts, PrintHost, Complete, Wrapped, Passed, Report, Narrow, PortOf,
      HostAndPortOnly;
    ReportAtPlace(buf, connect, t, h);
    PassedIsWrapped(buf, connect, t, h);
    WrappedIsSame(Where(t, h));
    FinishIsRight(buf, connect, t, h);
  }

  lemma AuthorityTells(buf: string, connect: bool, t: Pieces, h: HostPieces)
    requires IsCut(buf, connect, t, h) && t.slashes <= 3
    requires Report(buf, connect).Some? && Report(buf, connect).value.0 == Where(t, h)
    ensures t.authority == "" ==> t.schema == ""
    ensures t.authority != "" ==> AuthorityFits(t) && Complete(h)
  {
    CutSplits(buf, connect, t, h);
    if t.authority != "" {
      FirstPass(buf, connect, t);
      hide Lawful, Print, Where, FirstFields, HostFields, HostOrder, HostTexts, PrintHost, Complete, Split, SplitHost,
        AuthorityAt, Convert;
      var m := FirstFields(t);
      var g := SplitHost(TextAt(buf, m[Host]), '@' in t.authority).value;
      SecondPass(buf, t, '@' in t.authority, g);
      HostTells(t, h, m[Host].off, g);
    }
  }

  /** Up to 65535 bytes every place is within 16 bits. */
  lemma ShortFits(buf: string, connect: bool, t: Pieces, h: HostPieces)
    requires IsCut(buf, connect, t, h) && |buf| <= 0xFFFF
    ensures t.slashes <= 3 && Fits(t, h)
  {
    CutSplits(buf, connect, t, h);
    HeadOfPrint(t);
    FieldsAreSound(t, h);
    hide Lawful, Print, Where, HostOrder, HostTexts, PrintHost, Ordered, Covers, TextAt, FieldText, Split, SplitHost;
  }

  lemma ShortReport(buf: string, connect: bool)
    requires |buf| <= 0xFFFF
    ensures Report(buf, connect).Some? <==> exists t, h :: Accepted(buf, connect, t, h)
    ensures forall t, h :: Accepted(buf, connect, t, h) ==> Fits(t, h)
  {
    forall t, h | Accepted(buf, connect, t, h)
      ensures Report(buf, connect).Some? && Fits(t, h)
    {
      AcceptedIsCut(buf, connect, t, h);
      ShortFits(buf, connect, t, h);
      ReportIsRight(buf, connect, t, h);
    }
    if Report(buf, connect).Some? {
      var t, h := ShortAccepted(buf, connect);
    }
  }

  lemma ShortAccepted(buf: string, connect: bool) returns (t: Pieces, h: HostPieces)
    requires |buf| <= 0xFFFF && Report(buf, connect).Some?
    ensures Accepted(buf, connect, t, h)
  {
    t, h := Split(buf, connect).value, NO_HOST;
    SplitPrints(buf, connect);
    LawfulSlashes(t, connect);
    FirstPass(buf, connect, t);
    HeadOfPrint(t);
    hide Lawful, Print, Where, FirstFields, HostFields, HostOrder, HostTexts, PrintHost, Complete, Split, SplitHost,
      Convert, TextAt, HostAndPortOnly;
    if t.authority != "" {
      h := SplitHost(t.authority, '@' in t.authority).value;
      SplitHostPrints(t.authority, '@' in t.authority);
    }
    hide Report, Finish, PortOf;
    ReportAtPlace(buf, connect, t, h);
    PassedIsWrapped(buf, connect, t, h);
    ShortFits(buf, connect, t, h);
    WrappedIsSame(Where(t, h));
    FinishIsRight(buf, connect, t, h);
  }

  lemma NoHostTexts()
    ensures HostTexts(NO_HOST)
  {}

  lemma EmptyName(t: Pieces, h: HostPieces)
    requires if t.authority == "" then h == NO_HOST else PrintHost(h) == t.authority && Complete(h)
    ensures h.name == "" <==> t.authority == ""
    ensures PrintName(h) == "" <==> h.name == "" || t.authority == ""
  {}

  lemma ConnectSchema(buf: string, t: Pieces)
    requires Split(buf, true) == Some(t)
    ensures t.schema == ""
  {
    SplitPrints(buf, true);
    hide Split, Print, Texts;
  }

  lemma KeysAre(t: Pieces, h: HostPieces, m: Fields)
    requires forall f :: f in m <==> FieldText(t, h, f) != ""
    requires t.schema == "" && (PrintName(h) == "" <==> h.name == "")
    ensures m.Keys == {Host, Port} <==> HostAndPortOnly(t, h)
  {
    hide PrintName;
    assert forall f :: f in m.Keys <==> f in m;
    assert FieldText(t, h, Schema) == "" && FieldText(t, h, Host) == PrintName(h) && FieldText(t, h, Port) == h.port;
    assert FieldText(t, h, Userinfo) == h.userinfo && FieldText(t, h, Path) == t.path;
    assert FieldText(t, h, Query) == t.query && FieldText(t, h, Fragment) == t.fragment;
    if m.Keys == {Host, Port} {
      assert Userinfo !in m.Keys && Path !in m.Keys && Query !in m.Keys && Fragment !in m.Keys && Host in m.Keys && Port in m.Keys;
    }
  }

  // ---- What is reported wrongly ----

  /** Lengths wrap: a path of `n` slashes is taken for a URL at every length and reported with `n` modulo 2^16 bytes, which
      is right up to 65535; 65536 of them are reported as an empty path. */
  lemma LongPathsWrap(path: string)
    requires path != "" && forall c | c in path :: c == '/'
    ensures Split(path, false) == Some(NOTHING.(path := path)) && Accepted(path, false, NOTHING.(path := path), NO_HOST)
    ensures Report(path, false) == Some((map[Path := Span(0, |path| % 0x1_0000)], 0))
    ensures Report(path, false).value.0 == Where(NOTHING.(path := path), NO_HOST) <==> |path| <= 0xFFFF
  {
    hide Lawful, Where, Split, Accepted, Report;
    PathReport(path);
    OnlyPathPlace(NOTHING.(path := path));
    PathSpans(|path|);
  }

  lemma PathSpans(n: nat)
    ensures var m: Fields, k: Fields := map[Path := Span(0, n % 0x1_0000)], map[Path := Span(0, n)];
      m == k <==> n <= 0xFFFF
  {
    var m: Fields, k: Fields := map[Path := Span(0, n % 0x1_0000)], map[Path := Span(0, n)];
    if m == k { assert m[Path] == k[Path]; }
  }

  lemma PathReport(path: string)
    requires path != "" && forall c | c in path :: c == '/'
    ensures Split(path, false) == Some(NOTHING.(path := path)) && Accepted(path, false, NOTHING.(path := path), NO_HOST)
    ensures Report(path, false) == Some((map[Path := Span(0, |path| % 0x1_0000)], 0))
  {
    var t := NOTHING.(path := path);
    OnlyPath(path);
    hide Lawful, Print, Split, Accepted, Report, IsCut;
    PathAccepted(path, t);
    CutPath(path, t);
  }

  lemma CutPath(path: string, t: Pieces)
    requires path != "" && t == NOTHING.(path := path) && IsCut(path, false, t, NO_HOST)
    ensures Split(path, false) == Some(t) && Report(path, false) == Some((map[Path := Span(0, |path| % 0x1_0000)], 0))
  {
    hide Lawful, Print, FirstFields, Split, SplitHost, Wide, PrintHost, HostTexts;
    CutSplits(path, false, t, NO_HOST);
    OnlyPathField(t);
  }

  lemma PathAccepted(path: string, t: Pieces)
    requires path != "" && t == NOTHING.(path := path) && Lawful(t, false) && Print(t) == path
    ensures Accepted(path, false, t, NO_HOST) && IsCut(path, false, t, NO_HOST)
  {
    NoPort(NO_HOST);
    hide Lawful, Print, PortOf;
  }

  lemma OnlyPathPlace(t: Pieces)
    requires t.path != "" && t == NOTHING.(path := t.path)
    ensures Where(t, NO_HOST) == map[Path := Span(0, |t.path|)]
  {
    hide Where;
    forall f
      ensures Get(Where(t, NO_HOST), f) == Get(map[Path := Span(0, |t.path|)], f)
    {
      WhereGet(t, NO_HOST, f);
    }
    SameFields(Where(t, NO_HOST), map[Path := Span(0, |t.path|)]);
  }

  lemma OnlyPathField(t: Pieces)
    requires t.path != "" && t == NOTHING.(path := t.path)
    ensures FirstFields(t) == map[Path := Span(0, |t.path| % 0x1_0000)]
  {}

  lemma OnlyPath(path: string)
    requires path != "" && forall c | c in path :: c == '/'
    ensures Lawful(NOTHING.(path := path), false) && Print(NOTHING.(path := path)) == path
  {
    var t := NOTHING.(path := path);
    EmptyHashes();
    Classes();
    assert path[0] in path;
    assert LawfulPath(path, true) && Order(t, false) && LawfulSchema("") && LawfulAuthority("") && LawfulQuery("") && LawfulFragment("");
    hide IsUrlChar, Hashes, LawfulPath, LawfulSchema, LawfulAuthority, LawfulQuery, LawfulFragment, Order;
  }

  predicate Letters(s: string) {
    s != "" && forall c | c in s :: IsAlpha(c)
  }

  /** A schema and a host, and nothing else. */
  function Plain(schema: string, host: string): Pieces {
    Pieces(schema, 3, host, "", false, "", 0, "")
  }

  lemma PlainLawful(schema: string, host: string)
    requires Letters(schema) && Letters(host)
    ensures Lawful(Plain(schema, host), false) && Print(Plain(schema, host)) == schema + "://" + host && '@' !in host
  {
    Classes();
    EmptyHashes();
    assert schema[0] in schema;
    assert forall c :: IsAlpha(c) ==> IsAuthorityChar(c) && c != '@';
    var t := Plain(schema, host);
    assert "://"[..3] == "://";
    assert LawfulAuthority(host) by { assert forall i: nat | i + 1 < |host| :: host[i] in host; }
    assert LawfulSchema(schema) && LawfulPath("", false) && LawfulQuery("") && LawfulFragment("");
    hide IsUrlChar, Hashes, LawfulPath, LawfulSchema, LawfulAuthority, LawfulQuery, LawfulFragment;
  }

  lemma PlainHost(s: string)
    requires Letters(s)
    ensures var h := NO_HOST.(name := s);
      && LawfulHost(h, false) && PrintHost(h) == s && Complete(h) && SplitHost(s, false) == Some(h)
      && PrintUser(h) == "" && PrintName(h) == s && PortOf(h) == 0
  {
    var h := NO_HOST.(name := s);
    assert HostTexts(h) && HostOrder(h, false) && PrintHost(h) == s;
    NoPort(h);
    hide SplitHost, PortOf, HostTexts, HostOrder;
    SplitHostIsInverse(s, false, h);
  }

  /** Offsets wrap: behind a schema of 65533 letters the host is looked for at offset 65536 modulo 2^16, so what is reported
      as the host are the first letters of the schema. */
  lemma HostReadFromSchema(schema: string, host: string)
    requires Letters(schema) && Letters(host) && |host| <= |schema| == 65533
    ensures var buf, t, h := schema + "://" + host, Plain(schema, host), NO_HOST.(name := host);
      && Accepted(buf, false, t, h) && Host in Where(t, h) && Where(t, h)[Host] == Span(65536, |host|)
      && Report(buf, false) == Some((map[Schema := Span(0, 65533), Host := Span(0, |host|)], 0))
  {
    var buf, t, h := schema + "://" + host, Plain(schema, host), NO_HOST.(name := host);
    PlainAccepted(schema, host);
    hide Accepted, HostOrder, HostTexts, PrintHost, PrintName, PrintUser, Complete, Split, SplitHost, Where, PortOf,
      FirstFields, HostFields, Letters;
    PlainHost(host);
    WhereGet(t, h, Host);
    FirstPass(buf, false, t);
    ShiftedFields(schema, host);
    assert TextAt(buf, Span(0, |host|)) == schema[..|host|];
    LettersFront(schema, |host|);
    PlainHost(schema[..|host|]);
    SecondPass(buf, t, false, NO_HOST.(name := schema[..|host|]));
  }

  lemma PlainAccepted(schema: string, host: string)
    requires Letters(schema) && Letters(host)
    ensures var buf, t, h := schema + "://" + host, Plain(schema, host), NO_HOST.(name := host);
      && Accepted(buf, false, t, h) && Split(buf, false) == Some(t) && PrintHost(h) == t.authority && '@' !in host
  {
    var buf, t, h := schema + "://" + host, Plain(schema, host), NO_HOST.(name := host);
    PlainLawful(schema, host);
    PlainHost(host);
    hide Lawful, Print, HostOrder, HostTexts, PrintHost, Complete, Split, SplitHost, PortOf, Letters;
    AcceptedIsCut(buf, false, t, h);
    CutSplits(buf, false, t, h);
  }

  lemma LettersFront(s: string, k: nat)
    requires Letters(s) && 0 < k <= |s|
    ensures Letters(s[..k])
  {
    assert forall c | c in s[..k] :: c in s;
  }

  lemma ShiftedFields(schema: string, host: string)
    requires 0 < |host| <= |schema| == 65533
    ensures var m, g := FirstFields(Plain(schema, host)), NO_HOST.(name := schema[..|host|]);
      && Host in m && m[Host] == Span(0, |host|)
      && HostFields(m, 0, g) == map[Schema := Span(0, 65533), Host := Span(0, |host|)]
  {
    var m := FirstFields(Plain(schema, host));
    assert m == map[Schema := Span(0, 65533), Host := Span(0, |host|)];
  }
}
