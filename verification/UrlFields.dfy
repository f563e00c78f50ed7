/** Where the fields of a URL lie, and that they lie apart. */
module UrlFields {
  import opened Basics
  import opened HttpChars
  import opened Url
  import opened UrlHost
  import opened HttpLengths

  datatype FieldName = Schema | Userinfo | Host | Port | Path | Query | Fragment

  datatype Span = Span(off: nat, len: nat)

  /** Offsets and lengths are reported in 16 bits. */
  function Wide(n: nat): nat { n % 0x1_0000 }

  predicate Narrow(at: Span) {
    at.off <= 0xFFFF && at.len <= 0xFFFF
  }

  /** The fields that are set. */
  type Fields = map<FieldName, Span>

  function Put(m: Fields, f: FieldName, off: nat, len: nat): Fields {
    if len == 0 then m else m[f := Span(Wide(off), Wide(len))]
  }

  /** The same without the loss of high bits. */
  function Place(m: Fields, f: FieldName, off: nat, len: nat): Fields {
    if len == 0 then m else m[f := Span(off, len)]
  }

  /** What is left of the fields in 16 bits. */
  function Wrapped(m: Fields): Fields {
    map f | f in m :: Span(Wide(m[f].off), Wide(m[f].len))
  }

  // ---- Laying out parts one after the other ----

  /** A part of a URL: a field, or delimiters. */
  datatype Part = Part(field: Option<FieldName>, text: string)

  function Text(ps: seq<Part>): string {
    if |ps| == 0 then "" else Text(ps[..|ps| - 1]) + ps[|ps| - 1].text
  }

  function Lay(ps: seq<Part>): Fields {
    if |ps| == 0 then map[]
    else
      var last := ps[|ps| - 1];
      var m := Lay(ps[..|ps| - 1]);
      if last.field.None? then m else Place(m, last.field.value, |Text(ps[..|ps| - 1])|, |last.text|)
  }

  /** The order in which fields stand in a URL. */
  function Rank(f: FieldName): nat {
    match f case Schema => 0 case Userinfo => 1 case Host => 2 case Port => 3 case Path => 4 case Query => 5 case Fragment => 6
  }

  predicate IsDelimiter(ch: char) {
    ch == ':' || ch == '/' || ch == '@' || ch == '[' || ch == ']' || ch == '?' || ch == '#'
  }

  predicate Within(m: Fields, f: FieldName, i: nat)
    requires f in m
  {
    m[f].off <= i < m[f].off + m[f].len
  }

  /** Fields come in order, and all that is not a field is delimiters. */
  predicate Tidy(ps: seq<Part>) {
    && (forall i, j | 0 <= i < j < |ps| && ps[i].field.Some? && ps[j].field.Some? ::
          Rank(ps[i].field.value) < Rank(ps[j].field.value))
    && (forall i | 0 <= i < |ps| && ps[i].field.None? :: forall c | c in ps[i].text :: IsDelimiter(c))
  }

  ghost predicate InBounds(m: Fields, s: string) {
    forall f | f in m :: m[f].len > 0 && m[f].off + m[f].len <= |s|
  }

  ghost predicate Ordered(m: Fields) {
    forall f, g | f in m && g in m && Rank(f) < Rank(g) :: m[f].off + m[f].len <= m[g].off
  }

  ghost predicate Covers(m: Fields, s: string) {
    forall i: nat | i < |s| :: IsDelimiter(s[i]) || exists f :: f in m && Within(m, f, i)
  }

  function TextAt(s: string, at: Span): string
    requires at.off + at.len <= |s|
  {
    s[at.off..at.off + at.len]
  }

  /** Every field holds the text of its part. */
  ghost predicate Holds(m: Fields, s: string, ps: seq<Part>)
    requires InBounds(m, s)
  {
    forall f | f in m :: Part(Some(f), TextAt(s, m[f])) in ps
  }

  /** Every part that is not empty is there. */
  ghost predicate Present(m: Fields, ps: seq<Part>) {
    forall i | 0 <= i < |ps| :: ps[i].field.Some? && ps[i].text != "" ==> ps[i].field.value in m
  }

  lemma LaySnoc(ps: seq<Part>, p: Part)
    ensures Text(ps + [p]) == Text(ps) + p.text
    ensures Lay(ps + [p]) == if p.field.None? then Lay(ps) else Place(Lay(ps), p.field.value, |Text(ps)|, |p.text|)
  {
    assert (ps + [p])[..|ps + [p]| - 1] == ps;
  }

  /** Every field that is set comes from a part. */
  ghost predicate Known(m: Fields, ps: seq<Part>) {
    forall f | f in m :: exists i :: 0 <= i < |ps| && ps[i].field == Some(f)
  }

  ghost predicate Sound(m: Fields, s: string, ps: seq<Part>) {
    InBounds(m, s) && Ordered(m) && Covers(m, s) && Holds(m, s, ps) && Present(m, ps) && Known(m, ps)
  }

  /** One more field behind the others. */
  function More(m: Fields, s: string, f: FieldName, text: string): Fields {
    m[f := Span(|s|, |text|)]
  }

  lemma MoreOrdered(m: Fields, s: string, ps: seq<Part>, f: FieldName, text: string)
    requires Sound(m, s, ps) && text != "" && forall g | g in m :: Rank(g) < Rank(f)
    ensures InBounds(More(m, s, f, text), s + text) && Ordered(More(m, s, f, text))
  {
    hide Covers, Holds, Known;
  }

  lemma TextStays(s: string, more: string, at: Span)
    requires at.off + at.len <= |s|
    ensures TextAt(s + more, at) == TextAt(s, at)
  {}

  lemma TextBehind(s: string, more: string)
    ensures TextAt(s + more, Span(|s|, |more|)) == more
  {}

  lemma MoreHolds(m: Fields, s: string, ps: seq<Part>, f: FieldName, text: string)
    requires Sound(m, s, ps) && text != "" && forall g | g in m :: Rank(g) < Rank(f)
    ensures InBounds(More(m, s, f, text), s + text) && Holds(More(m, s, f, text), s + text, ps + [Part(Some(f), text)])
  {
    hide Covers, Known, Ordered, Present, TextAt;
    var p, m', s' := Part(Some(f), text), More(m, s, f, text), s + text;
    TextBehind(s, text);
    forall g | g in m' ensures Part(Some(g), TextAt(s', m'[g])) in ps + [p] {
      if g in m { TextStays(s, text, m[g]); }
    }
  }

  lemma MorePresent(m: Fields, s: string, ps: seq<Part>, f: FieldName, text: string)
    requires Sound(m, s, ps) && text != "" && forall g | g in m :: Rank(g) < Rank(f)
    ensures Present(More(m, s, f, text), ps + [Part(Some(f), text)])
  {
    hide Covers, Known, Ordered, Holds, InBounds;
  }

  lemma MoreCovers(m: Fields, s: string, ps: seq<Part>, f: FieldName, text: string)
    requires Sound(m, s, ps) && text != "" && forall g | g in m :: Rank(g) < Rank(f)
    ensures Covers(More(m, s, f, text), s + text)
  {
    hide Holds, Known, Ordered;
    var m', s' := More(m, s, f, text), s + text;
    forall i: nat | i < |s'| ensures IsDelimiter(s'[i]) || exists g :: g in m' && Within(m', g, i) {
      if i >= |s| {
        assert Within(m', f, i);
      } else if !IsDelimiter(s[i]) {
        var g :| g in m && Within(m, g, i);
        assert Within(m', g, i);
      }
    }
  }

  lemma MoreKnown(m: Fields, s: string, ps: seq<Part>, f: FieldName, text: string)
    requires Sound(m, s, ps) && text != "" && forall g | g in m :: Rank(g) < Rank(f)
    ensures Known(More(m, s, f, text), ps + [Part(Some(f), text)])
  {
    hide Holds, Covers, Ordered, InBounds;
    var p, m' := Part(Some(f), text), More(m, s, f, text);
    assert (ps + [p])[|ps|] == p;
    forall g | g in m' ensures exists i :: 0 <= i < |ps + [p]| && (ps + [p])[i].field == Some(g) {
      if g != f {
        var i :| 0 <= i < |ps| && ps[i].field == Some(g);
        assert (ps + [p])[i] == ps[i];
      }
    }
  }

  lemma FieldSnoc(m: Fields, s: string, ps: seq<Part>, f: FieldName, text: string)
    requires Sound(m, s, ps) && text != "" && forall g | g in m :: Rank(g) < Rank(f)
    ensures Sound(More(m, s, f, text), s + text, ps + [Part(Some(f), text)])
  {
    MoreOrdered(m, s, ps, f, text);
    MoreHolds(m, s, ps, f, text);
    MoreCovers(m, s, ps, f, text);
    MorePresent(m, s, ps, f, text);
    MoreKnown(m, s, ps, f, text);
    hide InBounds, Ordered, Covers, Holds, Present, Known, More;
  }

  /** Delimiters, or nothing, behind the others. */
  lemma DelimiterSnoc(m: Fields, s: string, ps: seq<Part>, p: Part)
    requires Sound(m, s, ps) && (p.text == "" || p.field.None?) && forall c | c in p.text :: IsDelimiter(c)
    ensures Sound(m, s + p.text, ps + [p])
  {
    var s' := s + p.text;
    forall g | g in m ensures TextAt(s', m[g]) == TextAt(s, m[g]) {
      TextStays(s, p.text, m[g]);
    }
    forall g | g in m ensures exists i :: 0 <= i < |ps + [p]| && (ps + [p])[i].field == Some(g) {
      var i :| 0 <= i < |ps| && ps[i].field == Some(g);
      assert (ps + [p])[i] == ps[i];
    }
  }

  /** Fields laid out in order are non-empty, inside the text, apart and in order; each holds its part's text, and
      every byte outside them is a delimiter. */
  lemma {:induction false} LaidIsSound(ps: seq<Part>)
    requires Tidy(ps)
    ensures Sound(Lay(ps), Text(ps), ps)
  {
    hide Sound, Tidy, Text, Lay;
    if |ps| > 0 {
      var init, p := ps[..|ps| - 1], ps[|ps| - 1];
      assert init + [p] == ps;
      TidyInit(ps);
      LaySnoc(init, p);
      LaidIsSound(init);
      if p.field.Some? && p.text != "" {
        LaterField(init, p);
        FieldSnoc(Lay(init), Text(init), init, p.field.value, p.text);
      } else {
        DelimiterSnoc(Lay(init), Text(init), init, p);
      }
    } else {
      NothingSound(ps);
    }
  }

  lemma TidyInit(ps: seq<Part>)
    requires Tidy(ps) && |ps| > 0
    ensures Tidy(ps[..|ps| - 1])
    ensures var p := ps[|ps| - 1]; p.field.Some? || forall c | c in p.text :: IsDelimiter(c)
  {}

  lemma NothingSound(ps: seq<Part>)
    requires |ps| == 0
    ensures Sound(Lay(ps), Text(ps), ps)
  {}

  lemma LaterField(init: seq<Part>, p: Part)
    requires Tidy(init + [p]) && p.field.Some? && Sound(Lay(init), Text(init), init)
    ensures forall g | g in Lay(init) :: Rank(g) < Rank(p.field.value)
  {
    var ps := init + [p];
    forall g | g in Lay(init) ensures Rank(g) < Rank(p.field.value) {
      assert Known(Lay(init), init);
      var i :| 0 <= i < |init| && init[i].field == Some(g);
      assert ps[i] == init[i] && ps[|init|] == p;
    }
  }
}
