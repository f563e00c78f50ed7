/**
 The URLs that the splitter accepts, first cut at the state changes of the URL
 automaton. A cut URL prints back to the bytes it was cut from.
 */
module Url {
  import opened Basics
  import opened HttpChars
  import opened HttpTypes
  import opened HttpStep

  /** A URL, or the first part of one. `slashes` counts the characters of the `://` behind the schema. */
  datatype Pieces = Pieces(schema: string, slashes: nat, authority: string, path: string,
                           question: bool, query: string, hashes: nat, fragment: string)

  const NOTHING := Pieces("", 0, "", "", false, "", 0, "")

  function Hashes(n: nat): string {
    seq(n, _ => '#')
  }

  function If(b: bool, s: string): string {
    if b then s else ""
  }

  function Print(t: Pieces): string
    requires t.slashes <= 3
  {
    t.schema + "://"[..t.slashes] + t.authority + t.path + If(t.question, "?") + t.query + Hashes(t.hashes) + t.fragment
  }

  predicate AtPair(s: string, i: nat)
    requires i + 1 < |s|
  {
    s[i] == '@' && s[i + 1] == '@'
  }

  predicate LawfulSchema(s: string) {
    (s != "" ==> IsAlpha(s[0])) && forall c | c in s :: IsSchemaChar(c)
  }

  predicate LawfulAuthority(s: string) {
    (forall c | c in s :: IsAuthorityChar(c) || c == '@') && forall i: nat | i + 1 < |s| :: !AtPair(s, i)
  }

  predicate LawfulPath(s: string, bare: bool) {
    (s != "" ==> s[0] == '/' || (s[0] == '*' && bare)) && forall c | c in s :: IsUrlChar(c)
  }

  predicate LawfulQuery(s: string) {
    forall c | c in s :: IsUrlChar(c) || c == '?'
  }

  predicate LawfulFragment(s: string) {
    (s != "" ==> s[0] != '#') && forall c | c in s :: IsUrlChar(c) || c == '?' || c == '#'
  }

  /** An authority may stand here: behind `://`, or at the start for CONNECT. */
  predicate Opened(t: Pieces, connect: bool) {
    if connect then t.schema == "" else t.slashes == 3
  }

  /** Which parts may follow which. */
  predicate Order(t: Pieces, connect: bool) {
    && t.slashes <= 3 && (t.slashes > 0 ==> t.schema != "") && (t.schema != "" ==> !connect)
    && (t.authority != "" ==> Opened(t, connect))
    && (t.path != "" || t.question || t.hashes > 0 ==> t.schema == "" || t.slashes == 3)
    && (t.question ==> t.path != "" || Opened(t, connect))
    && (t.query != "" ==> t.question)
    && (t.hashes > 0 ==> t.path != "" || t.question)
    && (t.fragment != "" ==> t.hashes > 0)
  }

  predicate Texts(t: Pieces, connect: bool) {
    && LawfulSchema(t.schema) && LawfulAuthority(t.authority) && LawfulPath(t.path, t.schema == "" && !connect)
    && LawfulQuery(t.query) && LawfulFragment(t.fragment)
  }

  predicate Lawful(t: Pieces, connect: bool) {
    Order(t, connect) && Texts(t, connect)
  }

  /** The state of the automaton behind `t`. */
  function StateOf(t: Pieces, connect: bool): State {
    if t.fragment != "" then ReqFragment
    else if t.hashes > 0 then ReqFragmentStart
    else if t.query != "" then ReqQueryString
    else if t.question then ReqQueryStringStart
    else if t.path != "" then ReqPath
    else if t.authority != "" then if t.authority[|t.authority| - 1] == '@' then ReqServerWithAt else ReqServer
    else if t.slashes >= 3 then ReqServerStart
    else if t.slashes == 2 then ReqSchemaSlashSlash
    else if t.slashes == 1 then ReqSchemaSlash
    else if t.schema != "" then ReqSchema
    else if connect then ReqServerStart
    else ReqSpacesBeforeUrl
  }

  /** One more byte, which leads to state `s`. */
  function Extend(t: Pieces, s: State, ch: char): Pieces {
    match s
    case ReqSchema => t.(schema := t.schema + [ch])
    case ReqSchemaSlash => t.(slashes := 1)
    case ReqSchemaSlashSlash => t.(slashes := 2)
    case ReqServerStart => t.(slashes := 3)
    case ReqServer => t.(authority := t.authority + [ch])
    case ReqServerWithAt => t.(authority := t.authority + [ch])
    case ReqPath => t.(path := t.path + [ch])
    case ReqQueryStringStart => t.(question := true)
    case ReqQueryString => t.(query := t.query + [ch])
    case ReqFragmentStart => t.(hashes := t.hashes + 1)
    case _ => t.(fragment := t.fragment + [ch])
  }

  /** The cut that the automaton makes, byte by byte. */
  function Split(buf: string, connect: bool): Option<Pieces> {
    if |buf| == 0 then Some(NOTHING)
    else
      match Split(buf[..|buf| - 1], connect)
      case None => None
      case Some(t) =>
        var ch := buf[|buf| - 1];
        var s := ParseUrlChar(StateOf(t, connect), ch);
        if s.Dead? then None else Some(Extend(t, s, ch))
  }

  // ---- What is cut prints back ----

  lemma SchemaSnoc(a: string, ch: char)
    requires LawfulSchema(a) && IsSchemaChar(ch) && (a == "" ==> IsAlpha(ch))
    ensures LawfulSchema(a + [ch])
  {}

  lemma AuthoritySnoc(a: string, ch: char)
    requires LawfulAuthority(a)
    requires (IsAuthorityChar(ch) || ch == '@') && !(ch == '@' && a != "" && a[|a| - 1] == '@')
    ensures LawfulAuthority(a + [ch])
  {
    forall i: nat | i + 1 < |a + [ch]| ensures !AtPair(a + [ch], i) {
      assert i + 1 < |a| ==> !AtPair(a, i);
    }
  }

  lemma PathSnoc(a: string, ch: char, bare: bool)
    requires LawfulPath(a, bare) && IsUrlChar(ch) && (a == "" ==> ch == '/' || (ch == '*' && bare))
    ensures LawfulPath(a + [ch], bare)
  {}

  lemma QuerySnoc(a: string, ch: char)
    requires LawfulQuery(a) && (IsUrlChar(ch) || ch == '?')
    ensures LawfulQuery(a + [ch])
  {}

  lemma FragmentSnoc(a: string, ch: char)
    requires LawfulFragment(a) && (IsUrlChar(ch) || ch == '?' || (ch == '#' && a != ""))
    ensures LawfulFragment(a + [ch])
  {}

  lemma Classes()
    ensures IsUrlChar('/') && IsUrlChar('*') && !IsUrlChar('?') && !IsUrlChar('#')
    ensures forall ch :: IsAlpha(ch) ==> IsSchemaChar(ch)
    ensures forall ch :: IsAuthorityChar(ch) ==> ch != '/' && ch != '?' && ch != '@'
    ensures !IsSchemaChar(':') && LawfulPath("", false) && LawfulPath("", true)
  {}

  /** The state is past the authority. */
  predicate InTail(s: State) {
    s.ReqPath? || s.ReqQueryStringStart? || s.ReqQueryString? || s.ReqFragmentStart? || s.ReqFragment?
  }

  ghost predicate Extended(t: Pieces, connect: bool, s: State, ch: char) {
    !s.Dead? ==> Lawful(Extend(t, s, ch), connect) && StateOf(Extend(t, s, ch), connect) == s
  }

  lemma ExtendTail(t: Pieces, connect: bool, ch: char)
    requires Lawful(t, connect) && InTail(StateOf(t, connect))
    ensures Extended(t, connect, ParseUrlChar(StateOf(t, connect), ch), ch)
  {
    hide LawfulSchema, LawfulAuthority, LawfulPath, LawfulQuery, LawfulFragment,
      IsUrlChar, IsAlpha, IsSchemaChar, IsAuthorityChar;
    Classes();
    match ParseUrlChar(StateOf(t, connect), ch)
    case ReqPath => PathSnoc(t.path, ch, t.schema == "" && !connect);
    case ReqQueryString => QuerySnoc(t.query, ch);
    case ReqFragment => FragmentSnoc(t.fragment, ch);
    case _ =>
  }

  lemma ExtendAuthority(t: Pieces, connect: bool, ch: char)
    requires Lawful(t, connect)
    requires var s := StateOf(t, connect); s.ReqServerStart? || s.ReqServer? || s.ReqServerWithAt?
    ensures Extended(t, connect, ParseUrlChar(StateOf(t, connect), ch), ch)
  {
    hide LawfulSchema, LawfulAuthority, LawfulPath, LawfulQuery, LawfulFragment,
      IsUrlChar, IsAlpha, IsSchemaChar, IsAuthorityChar;
    Classes();
    match ParseUrlChar(StateOf(t, connect), ch)
    case ReqServer => AuthoritySnoc(t.authority, ch);
    case ReqServerWithAt => AuthoritySnoc(t.authority, ch);
    case ReqPath => PathSnoc(t.path, ch, t.schema == "" && !connect);
    case _ =>
  }

  lemma ExtendSchema(t: Pieces, connect: bool, ch: char)
    requires Lawful(t, connect)
    requires var s := StateOf(t, connect);
      s.ReqSpacesBeforeUrl? || s.ReqSchema? || s.ReqSchemaSlash? || s.ReqSchemaSlashSlash?
    ensures Extended(t, connect, ParseUrlChar(StateOf(t, connect), ch), ch)
  {
    hide LawfulSchema, LawfulAuthority, LawfulPath, LawfulQuery, LawfulFragment,
      IsUrlChar, IsAlpha, IsSchemaChar, IsAuthorityChar;
    Classes();
    match ParseUrlChar(StateOf(t, connect), ch)
    case ReqSchema => SchemaSnoc(t.schema, ch);
    case ReqPath => PathSnoc(t.path, ch, t.schema == "" && !connect);
    case _ =>
  }

  lemma ExtendLawful(t: Pieces, connect: bool, ch: char)
    requires Lawful(t, connect)
    ensures Extended(t, connect, ParseUrlChar(StateOf(t, connect), ch), ch)
  {
    hide Lawful, ParseUrlChar, Extended;
    var s := StateOf(t, connect);
    if InTail(s) { ExtendTail(t, connect, ch); }
    else if s.ReqServerStart? || s.ReqServer? || s.ReqServerWithAt? { ExtendAuthority(t, connect, ch); }
    else { ExtendSchema(t, connect, ch); }
  }

  lemma HashesSnoc(n: nat)
    ensures Hashes(n + 1) == Hashes(n) + "#"
  {}

  predicate NoTail(t: Pieces) {
    t.path == t.query == t.fragment == "" && !t.question && t.hashes == 0
  }

  /** Only the last part that is there grows. */
  predicate GrowsAt(t: Pieces, s: State) {
    match s
    case ReqSchema => t.slashes == 0 && t.authority == "" && NoTail(t)
    case ReqSchemaSlash => t.slashes == 0 && t.authority == "" && NoTail(t)
    case ReqSchemaSlashSlash => t.slashes == 1 && t.authority == "" && NoTail(t)
    case ReqServerStart => t.slashes == 2 && t.authority == "" && NoTail(t)
    case ReqServer => NoTail(t)
    case ReqServerWithAt => NoTail(t)
    case ReqPath => t.query == t.fragment == "" && !t.question && t.hashes == 0
    case ReqQueryStringStart => t.query == t.fragment == "" && !t.question && t.hashes == 0
    case ReqQueryString => t.fragment == "" && t.hashes == 0 && t.question
    case ReqFragmentStart => t.fragment == ""
    case ReqFragment => true
    case _ => false
  }

  /** The only byte that leads to `s`, where there is only one. */
  function Delimiter(s: State, ch: char): char {
    match s
    case ReqSchemaSlash => ':'
    case ReqSchemaSlashSlash => '/'
    case ReqServerStart => '/'
    case ReqQueryStringStart => '?'
    case ReqFragmentStart => '#'
    case _ => ch
  }

  lemma Grows(t: Pieces, connect: bool, ch: char)
    requires Lawful(t, connect)
    ensures var s := ParseUrlChar(StateOf(t, connect), ch);
      !s.Dead? ==> GrowsAt(t, s) && ch == Delimiter(s, ch)
  {
    hide LawfulSchema, LawfulAuthority, LawfulPath, LawfulQuery, LawfulFragment,
      IsUrlChar, IsAlpha, IsSchemaChar, IsAuthorityChar;
  }

  /** The parts up to the authority, and those behind it. */
  function Head(t: Pieces): string
    requires t.slashes <= 3
  {
    t.schema + "://"[..t.slashes] + t.authority
  }

  function Tail(t: Pieces): string {
    t.path + If(t.question, "?") + t.query + Hashes(t.hashes) + t.fragment
  }

  lemma PrintHeadTail(t: Pieces)
    requires t.slashes <= 3
    ensures Print(t) == Head(t) + Tail(t)
  {
    hide Hashes, If;
    var a, q := t.schema + "://"[..t.slashes] + t.authority, If(t.question, "?");
    assert a + (t.path + q + t.query + Hashes(t.hashes) + t.fragment) == a + t.path + q + t.query + Hashes(t.hashes) + t.fragment;
  }

  lemma HeadGrows(t: Pieces, s: State, ch: char)
    requires t.slashes <= 3 && GrowsAt(t, s) && !InTail(s) && ch == Delimiter(s, ch)
    ensures var u := Extend(t, s, ch);
      u.slashes <= 3 && Head(u) == Head(t) + [ch] && Tail(u) == Tail(t) == ""
  {
    hide Hashes;
    EmptyHashes();
    assert "://"[..1] == ":" && "://"[..2] == ":/" && "://"[..3] == "://" && "://"[..0] == "";
  }

  lemma TailGrows(t: Pieces, s: State, ch: char)
    requires t.slashes <= 3 && GrowsAt(t, s) && InTail(s) && ch == Delimiter(s, ch)
    ensures var u := Extend(t, s, ch);
      u.slashes <= 3 && Head(u) == Head(t) && Tail(u) == Tail(t) + [ch]
  {
    hide Hashes;
    EmptyHashes();
    HashesSnoc(t.hashes);
  }

  lemma GrowsPrinted(t: Pieces, s: State, ch: char)
    requires t.slashes <= 3 && GrowsAt(t, s) && ch == Delimiter(s, ch)
    ensures Extend(t, s, ch).slashes <= 3 && Print(Extend(t, s, ch)) == Print(t) + [ch]
  {
    hide GrowsAt, Extend, Print, Head, Tail, InTail, Delimiter;
    if InTail(s) { TailGrows(t, s, ch); } else { HeadGrows(t, s, ch); }
    PrintHeadTail(t);
    PrintHeadTail(Extend(t, s, ch));
    assert Head(t) + "" == Head(t) && Head(t) + [ch] + "" == Head(t) + [ch];
    assert Head(t) + (Tail(t) + [ch]) == Head(t) + Tail(t) + [ch];
  }

  lemma ExtendPrints(t: Pieces, connect: bool, ch: char)
    requires Lawful(t, connect)
    ensures var s := ParseUrlChar(StateOf(t, connect), ch);
      !s.Dead? ==> Extend(t, s, ch).slashes <= 3 && Print(Extend(t, s, ch)) == Print(t) + [ch]
  {
    hide LawfulSchema, LawfulAuthority, LawfulPath, LawfulQuery, LawfulFragment, ParseUrlChar, Print, StateOf,
      Extend, GrowsAt;
    Grows(t, connect, ch);
    var s := ParseUrlChar(StateOf(t, connect), ch);
    if !s.Dead? { GrowsPrinted(t, s, ch); }
  }

  lemma EmptyHashes()
    ensures Hashes(0) == ""
  {}

  lemma NothingLawful(connect: bool)
    ensures Lawful(NOTHING, connect) && Print(NOTHING) == ""
  {
    EmptyHashes();
  }

  /** What the automaton cuts is lawful and prints back to the bytes. */
  lemma {:induction false} SplitPrints(buf: string, connect: bool)
    requires Split(buf, connect).Some?
    ensures Lawful(Split(buf, connect).value, connect) && Print(Split(buf, connect).value) == buf
  {
    hide Lawful, Print, StateOf, ParseUrlChar, Extend;
    NothingLawful(connect);
    if |buf| > 0 {
      SplitPrints(buf[..|buf| - 1], connect);
      var t := Split(buf[..|buf| - 1], connect).value;
      ExtendLawful(t, connect, buf[|buf| - 1]);
      ExtendPrints(t, connect, buf[|buf| - 1]);
    }
  }

  // ---- Every lawful URL is accepted, and cut where its parts meet ----

  function Init(s: string): string
    requires s != ""
  {
    s[..|s| - 1]
  }

  function Last(s: string): char
    requires s != ""
  {
    s[|s| - 1]
  }

  /** A URL without its last byte, and that byte. */
  function Peel(t: Pieces): (Pieces, char)
    requires t != NOTHING && t.slashes <= 3
  {
    if t.fragment != "" then (t.(fragment := Init(t.fragment)), Last(t.fragment))
    else if t.hashes > 0 then (t.(hashes := t.hashes - 1), '#')
    else if t.query != "" then (t.(query := Init(t.query)), Last(t.query))
    else if t.question then (t.(question := false), '?')
    else if t.path != "" then (t.(path := Init(t.path)), Last(t.path))
    else if t.authority != "" then (t.(authority := Init(t.authority)), Last(t.authority))
    else if t.slashes > 0 then (t.(slashes := t.slashes - 1), "://"[t.slashes - 1])
    else (t.(schema := Init(t.schema)), Last(t.schema))
  }

  lemma SchemaInit(a: string)
    requires LawfulSchema(a) && a != ""
    ensures LawfulSchema(Init(a)) && IsSchemaChar(Last(a)) && (|a| == 1 ==> IsAlpha(Last(a)))
  {}

  lemma AuthorityInit(a: string)
    requires LawfulAuthority(a) && a != ""
    ensures LawfulAuthority(Init(a)) && (IsAuthorityChar(Last(a)) || Last(a) == '@')
    ensures |a| > 1 ==> !(Last(a) == '@' && Last(Init(a)) == '@')
  {
    forall i: nat | i + 1 < |Init(a)| ensures !AtPair(Init(a), i) {
      assert !AtPair(a, i);
    }
    assert |a| > 1 ==> !AtPair(a, |a| - 2);
  }

  lemma PathInit(a: string, bare: bool)
    requires LawfulPath(a, bare) && a != ""
    ensures LawfulPath(Init(a), bare) && IsUrlChar(Last(a))
    ensures |a| == 1 ==> Last(a) == '/' || (Last(a) == '*' && bare)
  {}

  lemma QueryInit(a: string)
    requires LawfulQuery(a) && a != ""
    ensures LawfulQuery(Init(a)) && (IsUrlChar(Last(a)) || Last(a) == '?')
  {}

  lemma FragmentInit(a: string)
    requires LawfulFragment(a) && a != ""
    ensures LawfulFragment(Init(a)) && (IsUrlChar(Last(a)) || Last(a) == '?' || Last(a) == '#')
    ensures |a| == 1 ==> Last(a) != '#'
  {}

  lemma NotBlank()
    ensures forall ch :: IsUrlChar(ch) || IsSchemaChar(ch) || IsAuthorityChar(ch) || IsAlpha(ch) ==>
      ch != ' ' && ch != '\r' && ch != '\n' && ch != '\t' && ch as int != 12
  {}

  ghost predicate Peeled(t: Pieces, connect: bool, u: Pieces, ch: char) {
    && Lawful(u, connect) && ParseUrlChar(StateOf(u, connect), ch) == StateOf(t, connect)
    && Extend(u, StateOf(t, connect), ch) == t
  }

  /** The automaton behind the authority. */
  lemma TailSteps(ch: char)
    ensures IsUrlChar(ch) || ch == '?' || ch == '#' ==> ParseUrlChar(ReqFragment, ch) == ReqFragment
    ensures IsUrlChar(ch) || ch == '?' ==> ParseUrlChar(ReqFragmentStart, ch) == ReqFragment
    ensures IsUrlChar(ch) || ch == '?' ==>
      ParseUrlChar(ReqQueryString, ch) == ParseUrlChar(ReqQueryStringStart, ch) == ReqQueryString
    ensures IsUrlChar(ch) ==> ParseUrlChar(ReqPath, ch) == ReqPath
  {
    Classes();
    NotBlank();
    hide IsUrlChar, IsAlpha, IsSchemaChar, IsAuthorityChar;
  }

  /** The delimiters in front of query and fragment. */
  lemma TailDelimiters(s: State)
    ensures s.ReqFragmentStart? || s.ReqQueryString? || s.ReqQueryStringStart? || s.ReqPath? ==>
      ParseUrlChar(s, '#') == ReqFragmentStart
    ensures s.ReqServerStart? || s.ReqServer? || s.ReqServerWithAt? || s.ReqPath? ==>
      ParseUrlChar(s, '?') == ReqQueryStringStart
  {}

  /** The automaton in the authority. */
  lemma AuthoritySteps(ch: char, s: State)
    requires s.ReqServerStart? || s.ReqServer? || s.ReqServerWithAt?
    ensures ParseUrlChar(s, '/') == ReqPath && (IsAuthorityChar(ch) ==> ParseUrlChar(s, ch) == ReqServer)
    ensures !s.ReqServerWithAt? ==> ParseUrlChar(s, '@') == ReqServerWithAt
  {
    NotBlank();
    Classes();
    hide IsAuthorityChar;
  }

  /** The automaton in the schema. */
  lemma SchemaSteps(ch: char)
    ensures ParseUrlChar(ReqSchemaSlashSlash, '/') == ReqServerStart
      && ParseUrlChar(ReqSchemaSlash, '/') == ReqSchemaSlashSlash
    ensures ParseUrlChar(ReqSchema, ':') == ReqSchemaSlash
    ensures IsSchemaChar(ch) ==> ParseUrlChar(ReqSchema, ch) == ReqSchema
    ensures IsAlpha(ch) ==> ParseUrlChar(ReqSpacesBeforeUrl, ch) == ReqSchema
    ensures ch == '/' || ch == '*' ==> ParseUrlChar(ReqSpacesBeforeUrl, ch) == ReqPath
  {
    NotBlank();
    Classes();
    hide IsSchemaChar;
  }

  lemma PeelOrder(t: Pieces, connect: bool)
    requires Order(t, connect) && t != NOTHING
    ensures Order(Peel(t).0, connect)
  {}

  lemma PeelTexts(t: Pieces, connect: bool)
    requires Order(t, connect) && Texts(t, connect) && t != NOTHING
    ensures Texts(Peel(t).0, connect)
  {
    hide LawfulSchema, LawfulAuthority, LawfulPath, LawfulQuery, LawfulFragment;
    Classes();
    if t.fragment != "" { FragmentInit(t.fragment); }
    else if t.hashes > 0 {}
    else if t.query != "" { QueryInit(t.query); }
    else if t.question {}
    else if t.path != "" { PathInit(t.path, t.schema == "" && !connect); }
    else if t.authority != "" { AuthorityInit(t.authority); }
    else if t.slashes == 0 { SchemaInit(t.schema); }
  }

  lemma InitLast(s: string)
    requires s != ""
    ensures Init(s) + [Last(s)] == s
  {}

  lemma PeelExtends(t: Pieces, connect: bool)
    requires Order(t, connect) && t != NOTHING
    ensures Extend(Peel(t).0, StateOf(t, connect), Peel(t).1) == t
  {
    hide Init, Last;
    if t.fragment != "" { InitLast(t.fragment); }
    if t.query != "" { InitLast(t.query); }
    if t.path != "" { InitLast(t.path); }
    if t.authority != "" { InitLast(t.authority); }
    if t.schema != "" { InitLast(t.schema); }
  }

  ghost predicate Moves(t: Pieces, connect: bool)
    requires t != NOTHING && t.slashes <= 3
  {
    ParseUrlChar(StateOf(Peel(t).0, connect), Peel(t).1) == StateOf(t, connect)
  }

  lemma FragmentMoves(t: Pieces, connect: bool)
    requires Lawful(t, connect) && t.fragment != ""
    ensures Moves(t, connect)
  {
    hide ParseUrlChar, IsUrlChar, IsAlpha, IsSchemaChar, IsAuthorityChar, LawfulSchema, LawfulAuthority, LawfulPath,
      LawfulQuery, LawfulFragment;
    TailSteps(Last(t.fragment));
    FragmentInit(t.fragment);
  }

  lemma HashMoves(t: Pieces, connect: bool)
    requires Lawful(t, connect) && t.fragment == "" && t.hashes > 0
    ensures Moves(t, connect)
  {
    hide ParseUrlChar, IsUrlChar, IsAlpha, IsSchemaChar, IsAuthorityChar, LawfulSchema, LawfulAuthority, LawfulPath,
      LawfulQuery, LawfulFragment;
    TailDelimiters(StateOf(Peel(t).0, connect));
  }

  lemma QueryMoves(t: Pieces, connect: bool)
    requires Lawful(t, connect) && t.fragment == "" && t.hashes == 0 && t.question
    ensures Moves(t, connect)
  {
    hide ParseUrlChar, IsUrlChar, IsAlpha, IsSchemaChar, IsAuthorityChar, LawfulSchema, LawfulAuthority, LawfulPath,
      LawfulQuery, LawfulFragment;
    if t.query != "" {
      TailSteps(Last(t.query));
      QueryInit(t.query);
    } else {
      TailDelimiters(StateOf(Peel(t).0, connect));
    }
  }

  lemma PathStarts(t: Pieces, connect: bool)
    requires Lawful(t, connect) && t.fragment == "" && t.hashes == 0 && !t.question && |t.path| == 1
    ensures Moves(t, connect)
  {
    hide ParseUrlChar, IsUrlChar, IsAlpha, IsSchemaChar, IsAuthorityChar, LawfulSchema, LawfulAuthority, LawfulPath,
      LawfulQuery, LawfulFragment;
    var s := StateOf(Peel(t).0, connect);
    PathInit(t.path, t.schema == "" && !connect);
    SchemaSteps(Last(t.path));
    if s.ReqServerStart? || s.ReqServer? || s.ReqServerWithAt? { AuthoritySteps('/', s); }
  }

  lemma PathMoves(t: Pieces, connect: bool)
    requires Lawful(t, connect) && t.fragment == "" && t.hashes == 0 && !t.question && t.path != ""
    ensures Moves(t, connect)
  {
    hide ParseUrlChar, IsUrlChar, IsAlpha, IsSchemaChar, IsAuthorityChar, LawfulSchema, LawfulAuthority, LawfulPath,
      LawfulQuery, LawfulFragment;
    if |t.path| == 1 {
      PathStarts(t, connect);
    } else {
      PathInit(t.path, t.schema == "" && !connect);
      TailSteps(Last(t.path));
    }
  }

  lemma AuthorityMoves(t: Pieces, connect: bool)
    requires Lawful(t, connect) && t.fragment == t.path == "" && t.hashes == 0 && !t.question && t.authority != ""
    ensures Moves(t, connect)
  {
    hide ParseUrlChar, IsUrlChar, IsAlpha, IsSchemaChar, IsAuthorityChar, LawfulSchema, LawfulAuthority, LawfulPath,
      LawfulQuery, LawfulFragment;
    AuthorityInit(t.authority);
    AuthoritySteps(Last(t.authority), StateOf(Peel(t).0, connect));
    Classes();
  }

  lemma SchemaMoves(t: Pieces, connect: bool)
    requires Lawful(t, connect) && t.fragment == t.path == t.authority == "" && t.hashes == 0 && !t.question
      && t != NOTHING
    ensures Moves(t, connect)
  {
    hide ParseUrlChar, IsUrlChar, IsAlpha, IsSchemaChar, IsAuthorityChar, LawfulSchema, LawfulAuthority, LawfulPath,
      LawfulQuery, LawfulFragment;
    SchemaSteps(Peel(t).1);
    if t.slashes == 0 { SchemaInit(t.schema); }
  }

  lemma PeelSteps(t: Pieces, connect: bool)
    requires Lawful(t, connect) && t != NOTHING
    ensures var (u, ch) := Peel(t); Peeled(t, connect, u, ch)
  {
    hide Peel, LawfulSchema, LawfulAuthority, LawfulPath, LawfulQuery, LawfulFragment, Extend, StateOf;
    PeelOrder(t, connect);
    PeelTexts(t, connect);
    PeelExtends(t, connect);
    if t.fragment != "" { FragmentMoves(t, connect); }
    else if t.hashes > 0 { HashMoves(t, connect); }
    else if t.question { QueryMoves(t, connect); }
    else if t.path != "" { PathMoves(t, connect); }
    else if t.authority != "" { AuthorityMoves(t, connect); }
    else { SchemaMoves(t, connect); }
  }

  /** Every lawful URL is accepted, and cut into the same parts. */
  lemma {:induction false} PrintSplits(t: Pieces, connect: bool)
    requires Lawful(t, connect)
    ensures Split(Print(t), connect) == Some(t)
    decreases |Print(t)|
  {
    NothingLawful(connect);
    LawfulSlashes(t, connect);
    hide Lawful, Print, StateOf, ParseUrlChar, Extend, Peel;
    if t != NOTHING {
      var (u, ch) := Peel(t);
      PeelSteps(t, connect);
      ExtendPrints(u, connect, ch);
      StateLives(t, connect);
      assert Print(t)[..|Print(t)| - 1] == Print(u);
      PrintSplits(u, connect);
    }
  }

  lemma LawfulSlashes(t: Pieces, connect: bool)
    requires Lawful(t, connect)
    ensures t.slashes <= 3
  {
    hide LawfulSchema, LawfulAuthority, LawfulPath, LawfulQuery, LawfulFragment;
  }

  lemma StateLives(t: Pieces, connect: bool)
    ensures !StateOf(t, connect).Dead?
  {}

  /** The two together: the cut of a byte string is the one lawful URL that prints as it. */
  lemma SplitIsInverse(buf: string, connect: bool, t: Pieces)
    ensures Split(buf, connect) == Some(t) <==> (Lawful(t, connect) && Print(t) == buf)
  {
    hide Print, LawfulSchema, LawfulAuthority, LawfulPath, LawfulQuery, LawfulFragment;
    if Split(buf, connect) == Some(t) { SplitPrints(buf, connect); }
    if Lawful(t, connect) && Print(t) == buf { PrintSplits(t, connect); }
  }
}
