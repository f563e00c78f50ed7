/** One byte inside a buffer and the same byte in a buffer of its own report the same, up to joining. */
module HttpRelate {
  import opened HttpTypes
  import opened HttpStep
  import opened HttpRun
  import opened HttpMarks

  /** The bytes that are marked but not yet handed over, at position `pos`. */
  function Piece(m: Mark, at: nat, data: string, pos: nat): seq<Event>
    requires m.NoMark? || at <= pos <= |data|
  {
    if m.NoMark? then [] else [Data(m.kind, data[at..pos])]
  }

  lemma FlushAllPiece(m: Mark, at: nat, data: string)
    requires m.NoMark? || at <= |data|
    ensures FlushAll(MarksOf(m, at), data) == Piece(m, at, data, |data|)
  {
    if m.On? {
      assert data[at..] == data[at..|data|];
      var one := [Data(m.kind, data[at..])];
      assert forall k: DataKind :: LastOf(k, MarksOf(m, at), data) == if k == m.kind then one else [];
      assert [] + one == one && one + [] == one;
    }
  }

  /** The callbacks so far and the marked bytes, on both sides, are the same once joined. */
  ghost predicate Related(a: seq<Event>, m: Mark, at: nat, data: string, pos: nat, b: seq<Event>, n: Mark)
    requires m.NoMark? || at <= pos <= |data|
  {
    Merge(a + Piece(m, at, data, pos)) == Merge(b + Piece(n, 0, "", 0))
  }

  lemma MergeOne(a: seq<Event>, e: Event)
    ensures Merge(a + [e]) == Join(Merge(a), e)
  {
    MergeAppend(a, [e]);
    JoinAllOne(Merge(a), e);
  }

  /** Empty data behind data of the same kind is swallowed. */
  lemma EmptyTail(a: seq<Event>, k: DataKind, x: string, b: seq<Event>)
    requires Merge(a + [Data(k, x)]) == Merge(b)
    ensures Merge(b + [Data(k, "")]) == Merge(b)
  {
    MergeOne(a, Data(k, x));
    MergeOne(b, Data(k, ""));
    JoinSplit(Merge(a), k, x, "");
    assert x + "" == x;
  }

  lemma SetMarkRelated(a: seq<Event>, m: Mark, at: nat, data: string, pos: nat, b: seq<Event>, n: Mark, k: DataKind)
    requires pos < |data| && (m.On? ==> at <= pos)
    requires Related(a, m, at, data, pos, b, n) && (n == m || n.NoMark?) && (m.NoMark? || m == On(k))
    ensures Related(a, On(k), if m.On? then at else pos, data, pos, b, On(k))
  {
    assert b + [] == b && a + [] == a && data[pos..pos] == "" && ""[0..0] == "";
    if m.NoMark? {
      MergeOne(a, Data(k, ""));
      MergeOne(b, Data(k, ""));
    } else if n.NoMark? {
      EmptyTail(a, k, data[at..pos], b);
    }
  }

  /** With nothing more to do the current byte joins the marked ones on both sides. */
  lemma ByteMore(a: seq<Event>, k: DataKind, at: nat, data: string, pos: nat, b: seq<Event>)
    requires at <= pos < |data| && Related(a, On(k), at, data, pos, b, On(k))
    ensures Merge(a + [Data(k, data[at..pos + 1])]) == Merge(b + [Data(k, [data[pos]])])
  {
    var ch := [data[pos]];
    assert data[at..pos + 1] == data[at..pos] + ch && "" + ch == ch && ""[0..0] == "";
    MergeOne(a, Data(k, data[at..pos]));
    MergeOne(a, Data(k, data[at..pos + 1]));
    MergeOne(b, Data(k, ""));
    MergeOne(b, Data(k, ch));
    JoinSplit(Merge(a), k, data[at..pos], ch);
    JoinSplit(Merge(b), k, "", ch);
  }

  /** The mark after one act. */
  function AfterAct(act: Act, m: Mark): Mark {
    match act
    case SetMark(k) => On(k)
    case Call(_) => m
    case _ => NoMark
  }

  predicate Allowed(act: Act, m: Mark, n: Mark) {
    match act
    case SetMark(k) => m.NoMark? || m == On(k)
    case Flush(k) => m.NoMark? || m == On(k)
    case FlushWith(k) => m == n == On(k)
    case Call(_) => m.NoMark?
  }

  /** Where the mark stands after one act. */
  function AtAfter(m: Mark, at: nat, pos: nat): nat {
    if m.On? then at else pos
  }

  lemma FlushRelated(k: DataKind, a: seq<Event>, m: Mark, at: nat, data: string, pos: nat, b: seq<Event>, n: Mark)
    requires pos < |data| && (m.On? ==> at <= pos)
    requires Related(a, m, at, data, pos, b, n) && (n == m || n.NoMark?) && (m.NoMark? || m == On(k))
    ensures var (ms, es) := Perform1(Flush(k), MarksOf(m, at), data, pos);
      var (ns, fs) := Perform1(Flush(k), MarksOf(n, 0), [data[pos]], 0);
      ms == MarksOf(NoMark, 0) && ns == MarksOf(NoMark, 0) && Related(a + es, NoMark, 0, data, pos, b + fs, NoMark)
  {
    hide Merge;
    var (ms, es) := Perform1(Flush(k), MarksOf(m, at), data, pos);
    var (ns, fs) := Perform1(Flush(k), MarksOf(n, 0), [data[pos]], 0);
    assert [data[pos]][0..0] == "" && ""[0..0] == "";
    assert es == Piece(m, at, data, pos) && fs == Piece(n, 0, "", 0);
    assert a + es + [] == a + es && b + fs + [] == b + fs;
  }

  lemma ActRelated(act: Act, a: seq<Event>, m: Mark, at: nat, data: string, pos: nat, b: seq<Event>, n: Mark)
    requires pos < |data| && (m.On? ==> at <= pos)
    requires Related(a, m, at, data, pos, b, n) && (n == m || n.NoMark?) && Allowed(act, m, n)
    ensures var (ms, es) := Perform1(act, MarksOf(m, at), data, pos);
      var (ns, fs) := Perform1(act, MarksOf(n, 0), [data[pos]], 0);
      var m', n' := AfterAct(act, m), AfterAct(act, n);
      && ms == MarksOf(m', AtAfter(m, at, pos)) && ns == MarksOf(n', 0)
      && Related(a + es, m', AtAfter(m, at, pos), data, pos, b + fs, n')
  {
    assert a + [] == a && b + [] == b && ""[0..0] == "";
    assert [data[pos]][0..0] == "" && [data[pos]][0..0 + 1] == [data[pos]];
    match act
    case SetMark(k) => SetMarkRelated(a, m, at, data, pos, b, n, k);
    case Flush(k) => FlushRelated(k, a, m, at, data, pos, b, n);
    case FlushWith(k) =>
      ByteMore(a, k, at, data, pos, b);
      var es, fs := [Data(k, data[at..pos + 1])], [Data(k, [data[pos]])];
      assert a + es + [] == a + es && b + fs + [] == b + fs;
    case Call(s) =>
      MergeOne(a, Notify(s));
      MergeOne(b, Notify(s));
      assert a + [Notify(s)] + [] == a + [Notify(s)] && b + [Notify(s)] + [] == b + [Notify(s)];
  }

  /** What performing `acts` on both sides comes to. */
  ghost predicate Agrees(acts: seq<Act>, a: seq<Event>, m: Mark, at: nat, data: string, pos: nat,
                         b: seq<Event>, n: Mark, at': nat)
    requires pos < |data| && MarksBefore(MarksOf(m, at), pos)
  {
    var (ms, es) := Perform(acts, MarksOf(m, at), data, pos);
    var (ns, fs) := Perform(acts, MarksOf(n, 0), [data[pos]], 0);
    var m' := Finally(acts, m);
    && (m'.On? ==> at' <= pos)
    && ms == MarksOf(m', at') && ns == MarksOf(m', 0)
    && Merge(a + es + Piece(m', at', data, pos + 1)) == Merge(b + fs + Piece(m', 0, [data[pos]], 1))
  }

  /** The parser acts on both sides: in the loop at position `pos`, and in a buffer with this byte alone. */
  lemma {:induction false} PerformRelated(acts: seq<Act>, a: seq<Event>, m: Mark, at: nat, data: string, pos: nat,
                                          b: seq<Event>, n: Mark) returns (at': nat)
    requires pos < |data| && (m.On? ==> at <= pos)
    requires Related(a, m, at, data, pos, b, n) && (n == m || n.NoMark?) && Disciplined(acts, m, n)
    ensures Agrees(acts, a, m, at, data, pos, b, n, at')
    decreases |acts|
  {
    if |acts| == 0 {
      at' := at;
      assert a + [] == a && b + [] == b;
      if m.On? {
        ByteMore(a, m.kind, at, data, pos, b);
        assert [data[pos]][0..1] == [data[pos]];
      }
    } else {
      ActRelated(acts[0], a, m, at, data, pos, b, n);
      var (m1, e1) := Perform1(acts[0], MarksOf(m, at), data, pos);
      var (n1, f1) := Perform1(acts[0], MarksOf(n, 0), [data[pos]], 0);
      at' := PerformRelated(acts[1..], a + e1, AfterAct(acts[0], m), AtAfter(m, at, pos), data, pos, b + f1, AfterAct(acts[0], n));
      AgreesCons(acts, a, m, at, data, pos, b, n, at');
    }
  }

  lemma AgreesCons(acts: seq<Act>, a: seq<Event>, m: Mark, at: nat, data: string, pos: nat,
                   b: seq<Event>, n: Mark, at': nat)
    requires |acts| > 0 && pos < |data| && (m.On? ==> at <= pos)
    requires var (m1, e1) := Perform1(acts[0], MarksOf(m, at), data, pos);
      var (n1, f1) := Perform1(acts[0], MarksOf(n, 0), [data[pos]], 0);
      && m1 == MarksOf(AfterAct(acts[0], m), AtAfter(m, at, pos)) && n1 == MarksOf(AfterAct(acts[0], n), 0)
      && Agrees(acts[1..], a + e1, AfterAct(acts[0], m), AtAfter(m, at, pos), data, pos, b + f1, AfterAct(acts[0], n), at')
    ensures Agrees(acts, a, m, at, data, pos, b, n, at')
  {
    hide Merge, Piece, Perform1;
    var (m1, e1) := Perform1(acts[0], MarksOf(m, at), data, pos);
    var (n1, f1) := Perform1(acts[0], MarksOf(n, 0), [data[pos]], 0);
    var (ms, es) := Perform(acts[1..], m1, data, pos);
    var (ns, fs) := Perform(acts[1..], n1, [data[pos]], 0);
    assert a + e1 + es == a + (e1 + es) && b + f1 + fs == b + (f1 + fs);
  }
}
