/**
 The ring beside a byte-bounded queue: strictly oldest out first, and no more
 than needed. The two agree as long as no response that has to go is in use.
 */
module Fifo {
  import opened Basics
  import opened Ring

  datatype Item = Item(key: Key, headers: Headers, body: Bytes, id: nat)

  datatype Queue = Queue(capacity: nat, slotCount: nat, items: seq<Item>)

  function ItemSize(x: Item): nat {
    |x.key| + |x.headers| + |x.body|
  }

  function Weight(items: seq<Item>): nat {
    if |items| == 0 then 0 else ItemSize(items[0]) + Weight(items[1..])
  }

  /** Take the oldest items out until `need` bytes fit. */
  function DropOldest(items: seq<Item>, need: nat, capacity: nat): seq<Item>
    requires need <= capacity
  {
    if Weight(items) + need <= capacity then items else DropOldest(items[1..], need, capacity)
  }

  function Push(q: Queue, x: Item): Queue {
    if ItemSize(x) > q.capacity then q
    else if Weight(q.items) + ItemSize(x) <= q.capacity && |q.items| == q.slotCount then q
    else q.(items := DropOldest(q.items, ItemSize(x), q.capacity) + [x])
  }

  function Payload(e: Entry): Item {
    Item(e.key, e.headers, e.body, e.id)
  }

  /** Walking from `h` one meets free slots, then the items, oldest first. */
  ghost predicate Laid(r: Ring, h: nat, items: seq<Item>) {
    var n := |r.slots|;
    && h < n && |items| <= n
    && (forall i | 0 <= i < n - |items| :: r.slots[At(h, i, n)].None?)
    && (forall i | n - |items| <= i < n ::
          r.slots[At(h, i, n)].Some? && Payload(r.slots[At(h, i, n)].value) == items[i - (n - |items|)])
    && r.used == Weight(items)
  }

  /** The occupied slots form one block that ends just before the head, in queue order. */
  ghost predicate Refines(r: Ring, q: Queue) {
    && RingInv(r)
    && r.capacity == q.capacity && |r.slots| == q.slotCount
    && Laid(r, r.head, q.items)
  }

  /** Of `m` entries laid out from `h` the oldest `k` are not in use. */
  ghost predicate OldestIdle(r: Ring, h: nat, m: nat, k: nat)
    requires h < |r.slots| && k <= m <= |r.slots|
  {
    forall i | |r.slots| - m <= i < |r.slots| - m + k :: Evictable(r.slots[At(h, i, |r.slots|)])
  }

  /** How many of the oldest items have to go before `need` bytes fit. */
  function Surplus(items: seq<Item>, need: nat, capacity: nat): (k: nat)
    requires need <= capacity
    ensures k <= |items|
  {
    DropOldestLength(items, need, capacity);
    |items| - |DropOldest(items, need, capacity)|
  }

  /** The response is too large, or it fits as things are, or no entry that has to go for it is in use. */
  ghost predicate Unhindered(r: Ring, q: Queue, x: Item)
    requires Refines(r, q)
  {
    || ItemSize(x) > r.capacity
    || Fits(r, ItemSize(x))
    || OldestIdle(r, r.head, |q.items|, Surplus(q.items, ItemSize(x), r.capacity))
  }

  // ---- The queue itself ----

  /** The dropped prefix is the shortest one that makes room. */
  lemma {:induction false} DropOldestIsShortest(items: seq<Item>, need: nat, capacity: nat) returns (j: nat)
    requires need <= capacity
    ensures j <= |items| && DropOldest(items, need, capacity) == items[j..]
    ensures Weight(items[j..]) + need <= capacity
    ensures forall k | 0 <= k < j :: Weight(items[k..]) + need > capacity
  {
    assert items[0..] == items;
    j := 0;
    if Weight(items) + need > capacity {
      var j' := DropOldestIsShortest(items[1..], need, capacity);
      j := j' + 1;
      assert items[1..][j'..] == items[j..];
      forall k | 0 <= k < j
        ensures Weight(items[k..]) + need > capacity
      {
        if k > 0 { assert items[1..][k - 1..] == items[k..]; }
      }
    }
  }

  lemma {:induction false} DropOldestLength(items: seq<Item>, need: nat, capacity: nat)
    requires need <= capacity
    ensures |DropOldest(items, need, capacity)| <= |items|
  {
    if Weight(items) + need > capacity { DropOldestLength(items[1..], need, capacity); }
  }

  // ---- One store ----

  /** The scan has passed the free slots: the oldest item goes if it is not in use. */
  lemma TurnPops(r: Ring, h: nat, v: nat, items: seq<Item>)
    requires Laid(r, h, items) && r.head < |r.slots| && SlotSize(r.slots[r.head]) <= r.used
    requires v < |r.slots| && v + |items| == |r.slots| && r.head == At(h, v, |r.slots|)
    requires Evictable(r.slots[r.head])
    ensures Laid(Turn(r), h, items[1..])
  {
    var n := |r.slots|;
    var r' := Turn(r);
    assert Payload(r.slots[At(h, v, n)].value) == items[0];
    assert forall i | 0 <= i < n && i != v :: At(h, i, n) != r.head && r'.slots[At(h, i, n)] == r.slots[At(h, i, n)];
  }

  lemma TurnSkips(r: Ring, h: nat, v: nat, items: seq<Item>)
    requires Laid(r, h, items) && r.head < |r.slots| && SlotSize(r.slots[r.head]) <= r.used
    requires v + |items| < |r.slots| && r.head == At(h, v, |r.slots|)
    ensures Laid(Turn(r), h, items)
  {
    assert r.slots[At(h, v, |r.slots|)].None?;
    assert Turn(r).slots == r.slots;
  }

  /** The items behind one turn of the scan that has made `v` turns. */
  function Left(items: seq<Item>, v: nat, n: nat): seq<Item>
    requires v < n && v + |items| <= n
  {
    if v + |items| == n then items[1..] else items
  }

  lemma VisitLaid(r: Ring, h: nat, v: nat, items: seq<Item>)
    requires RingInv(r) && Laid(r, h, items)
    requires v < |r.slots| && v + |items| <= |r.slots| && r.head == At(h, v, |r.slots|)
    requires v + |items| == |r.slots| ==> Evictable(r.slots[r.head])
    ensures |Visit(r).slots| == |r.slots| && Visit(r).head == At(h, v + 1, |r.slots|)
    ensures Laid(Visit(r), h, Left(items, v, |r.slots|))
  {
    SlotInTotal(r.slots, r.head);
    if v + |items| == |r.slots| {
      TurnPops(r, h, v, items);
    } else {
      TurnSkips(r, h, v, items);
    }
  }

  /** What has to go and is not in use before a turn, has to go and is not in use behind it. */
  lemma VisitIdle(r: Ring, h: nat, v: nat, items: seq<Item>, need: nat)
    requires RingInv(r) && Laid(r, h, items) && need <= r.capacity && !Fits(r, need)
    requires v < |r.slots| && v + |items| <= |r.slots| && r.head == At(h, v, |r.slots|)
    requires OldestIdle(r, h, |items|, Surplus(items, need, r.capacity))
    ensures v + |items| == |r.slots| ==> Evictable(r.slots[r.head])
    ensures |Visit(r).slots| == |r.slots|
    ensures var left := Left(items, v, |r.slots|);
      && DropOldest(left, need, r.capacity) == DropOldest(items, need, r.capacity)
      && OldestIdle(Visit(r), h, |left|, Surplus(left, need, r.capacity))
  {
    var n := |r.slots|;
    SlotInTotal(r.slots, r.head);
    DropOldestLength(items[1..], need, r.capacity);
    assert Surplus(items, need, r.capacity) > 0;
    var r' := Turn(r);
    assert forall i | 0 <= i < n && i != v :: At(h, i, n) != r.head && r'.slots[At(h, i, n)] == r.slots[At(h, i, n)];
    assert v + |items| == n ==> Evictable(r.slots[At(h, n - |items|, n)]);
  }

  lemma {:induction false} ScanLaid(r: Ring, h: nat, v: nat, items: seq<Item>, need: nat) returns (v': nat)
    requires RingInv(r) && Laid(r, h, items) && need <= r.capacity
    requires v <= |r.slots| && v + |items| <= |r.slots| && r.head == At(h, v, |r.slots|)
    requires OldestIdle(r, h, |items|, Surplus(items, need, r.capacity))
    ensures v' <= |r.slots|
    ensures var (r', ok) := Scan(r, need, v);
      var rest := DropOldest(items, need, r.capacity);
      && ok && Laid(r', h, rest) && |r'.slots| == |r.slots| && r'.head == At(h, v', |r.slots|)
      && (if Fits(r, need) then v' == v && r' == r else v' + |rest| == |r.slots| && v' > v)
    decreases |r.slots| - v
  {
    v' := v;
    if !Fits(r, need) {
      assert |items| > 0 && v < |r.slots|;
      hide Visit, RingInv, OldestIdle, Scan;
      VisitInv(r);
      VisitIdle(r, h, v, items, need);
      VisitLaid(r, h, v, items);
      ScanUnfold(r, need, v);
      var left := Left(items, v, |r.slots|);
      assert Fits(Visit(r), need) ==> DropOldest(left, need, r.capacity) == left && v + 1 + |left| == |r.slots|;
      hide Laid, At, DropOldest, Surplus, Left, Fits;
      v' := ScanLaid(Visit(r), h, v + 1, left, need);
    }
  }

  lemma {:induction false} FindFreeBackToBase(r: Ring, h: nat, v: nat, walked: nat)
    requires h < |r.slots| && v <= |r.slots| && r.head == At(h, v, |r.slots|)
    requires walked + |r.slots| - v < |r.slots|
    requires r.slots[h].None?
    requires forall i | v <= i < |r.slots| :: r.slots[At(h, i, |r.slots|)].Some?
    ensures FindFree(r, walked) == (r.(head := h), true)
    decreases |r.slots| - v
  {
    if v < |r.slots| {
      assert r.slots[At(h, v, |r.slots|)].Some?;
      var r1 := r.(head := Next(r.head, |r.slots|));
      FindFreeBackToBase(r1, h, v + 1, walked + 1);
    }
  }

  lemma {:induction false} FindFreeOnFull(r: Ring, h: nat, walked: nat)
    requires h < |r.slots| && walked <= |r.slots| && r.head == At(h, walked, |r.slots|)
    requires forall i | 0 <= i < |r.slots| :: r.slots[At(h, i, |r.slots|)].Some?
    ensures FindFree(r, walked) == (r.(head := h), false)
    decreases |r.slots| - walked
  {
    if walked < |r.slots| {
      FindFreeOnFull(r.(head := Next(r.head, |r.slots|)), h, walked + 1);
    }
  }

  lemma EvictTillScans(r: Ring, q: Queue, x: Item)
    requires Refines(r, q) && ItemSize(x) <= r.capacity && Unhindered(r, q, x) && !Fits(r, ItemSize(x))
    ensures var (r', ok) := EvictTill(r, ItemSize(x));
      var rest := DropOldest(q.items, ItemSize(x), r.capacity);
      ok && r'.head == r.head && Laid(r', r.head, rest) && |rest| < |r'.slots|
  {
    var need := ItemSize(x);
    var v := ScanLaid(r, r.head, 0, q.items, need);
    hide RingInv, Scan, DropOldest, OldestIdle;
    ScanInv(r, need, 0);
    var r1 := Scan(r, need, 0).0;
    assert r1.slots[At(r.head, 0, |r.slots|)].None?;
    FindFreeBackToBase(r1, r.head, v, 0);
  }

  /** Making room brings the head back to where it was. */
  lemma EvictTillLaid(r: Ring, q: Queue, x: Item)
    requires Refines(r, q) && ItemSize(x) <= r.capacity && Unhindered(r, q, x)
    ensures var need := ItemSize(x);
      var (r', ok) := EvictTill(r, need);
      && (ok <==> !(Fits(r, need) && |q.items| == q.slotCount))
      && (!ok ==> r' == r)
      && (ok ==> r'.head == r.head)
      && (ok ==> Laid(r', r.head, DropOldest(q.items, need, r.capacity)))
      && (ok ==> |DropOldest(q.items, need, r.capacity)| < |r'.slots|)
  {
    if !Fits(r, ItemSize(x)) {
      EvictTillScans(r, q, x);
    } else if |q.items| == |r.slots| {
      FindFreeOnFull(r, r.head, 0);
    } else {
      assert r.slots[At(r.head, 0, |r.slots|)].None?;
    }
  }

  lemma {:induction false} WeightAppend(items: seq<Item>, x: Item)
    ensures Weight(items + [x]) == Weight(items) + ItemSize(x)
  {
    if |items| > 0 {
      assert (items + [x])[1..] == items[1..] + [x];
      WeightAppend(items[1..], x);
    }
  }

  lemma InsertLaid(r: Ring, items: seq<Item>, x: Item)
    requires Laid(r, r.head, items) && |items| < |r.slots|
    ensures var r' := Insert(r, x.key, x.headers, x.body, x.id);
      Laid(r', r'.head, items + [x])
  {
    var n, h := |r.slots|, r.head;
    var r' := Insert(r, x.key, x.headers, x.body, x.id);
    WeightAppend(items, x);
    assert forall i | 0 <= i < n :: At(r'.head, i, n) == At(h, i + 1, n);
    assert forall i | 1 <= i < n :: At(h, i, n) != h && r'.slots[At(h, i, n)] == r.slots[At(h, i, n)];
  }

  lemma StoreIsPush(r: Ring, q: Queue, x: Item)
    requires Refines(r, q) && Unhindered(r, q, x) && Fresh(r, x.key, x.id)
    ensures Refines(Finalize(r, x.key, x.headers, x.body, x.id), Push(q, x))
  {
    FinalizeInv(r, x.key, x.headers, x.body, x.id);
    var need := ItemSize(x);
    if need <= r.capacity {
      EvictTillLaid(r, q, x);
      EvictTillInv(r, need);
      var (r1, ok) := EvictTill(r, need);
      if ok {
        InsertLaid(r1, DropOldest(q.items, need, r.capacity), x);
      }
    }
  }

  /** A slot with an entry in use keeps it through a store. */
  lemma PinnedStays(r: Ring, x: Item, s: nat)
    requires RingInv(r) && s < |r.slots| && r.slots[s].Some? && !Evictable(r.slots[s])
    ensures var r' := Finalize(r, x.key, x.headers, x.body, x.id);
      |r'.slots| == |r.slots| && r'.slots[s] == r.slots[s]
  {
    hide RingInv, EvictTill;
    var need := |x.key| + |x.headers| + |x.body|;
    EvictTillInv(r, need);
    EvictTillOnlyEvicts(r, need);
    var (r1, ok) := EvictTill(r, need);
    assert r1.slots[s] == r.slots[s];
    if ok { assert s != r1.head; }
  }

  lemma ItemInSlots(r: Ring, q: Queue, s: nat) returns (j: nat)
    requires Refines(r, q) && s < |r.slots| && r.slots[s].Some?
    ensures j < |q.items| && Payload(r.slots[s].value) == q.items[j]
  {
    var n, m := |r.slots|, |q.items|;
    var i := if s >= r.head then s - r.head else s + n - r.head;
    assert At(r.head, i, n) == s;
    j := i - (n - m);
  }

  lemma ItemsDiffer(r: Ring, q: Queue, x: Item, i: nat, j: nat)
    requires Refines(r, q) && Fresh(r, x.key, x.id) && i <= j < |q.items|
    ensures q.items[j].id != x.id && (j > i ==> q.items[j].id != q.items[i].id)
  {
    var n, m := |r.slots|, |q.items|;
    var a, b := At(r.head, n - m + i, n), At(r.head, n - m + j, n);
    assert Payload(r.slots[a].value) == q.items[i];
    assert Payload(r.slots[b].value) == q.items[j];
  }

  /** An item that the queue drops is not in it afterwards. */
  lemma DroppedIsGone(r: Ring, q: Queue, x: Item, i: nat)
    requires Refines(r, q) && Fresh(r, x.key, x.id)
    requires ItemSize(x) <= r.capacity && !Fits(r, ItemSize(x)) && i < Surplus(q.items, ItemSize(x), r.capacity)
    ensures q.items[i] !in Push(q, x).items
  {
    var k := DropOldestIsShortest(q.items, ItemSize(x), r.capacity);
    forall j | i <= j < |q.items|
      ensures q.items[j].id != x.id && (j > i ==> q.items[j].id != q.items[i].id)
    {
      ItemsDiffer(r, q, x, i, j);
    }
    hide RingInv, Laid, Fresh;
    assert Push(q, x).items == q.items[k..] + [x];
  }

  /** If storing is a push, then nothing that had to go was in use. */
  lemma PushIsUnhindered(r: Ring, q: Queue, x: Item)
    requires Refines(r, q) && Fresh(r, x.key, x.id)
    requires Refines(Finalize(r, x.key, x.headers, x.body, x.id), Push(q, x))
    ensures Unhindered(r, q, x)
  {
    var n, m, need := |r.slots|, |q.items|, ItemSize(x);
    if need <= r.capacity && !Fits(r, need) {
      forall i | n - m <= i < n - m + Surplus(q.items, need, r.capacity)
        ensures Evictable(r.slots[At(r.head, i, n)])
      {
        if !Evictable(r.slots[At(r.head, i, n)]) {
          PinnedStays(r, x, At(r.head, i, n));
          DroppedIsGone(r, q, x, i - (n - m));
          hide RingInv, Finalize, Push, DropOldest, Unhindered;
          var j := ItemInSlots(Finalize(r, x.key, x.headers, x.body, x.id), Push(q, x), At(r.head, i, n));
          assert false;
        }
      }
    }
  }

  /** Storing a finished response is a push on the queue exactly when no entry that has to go is in use. */
  lemma FinalizeIsPush(r: Ring, q: Queue, x: Item)
    requires Refines(r, q) && Fresh(r, x.key, x.id)
    ensures Refines(Finalize(r, x.key, x.headers, x.body, x.id), Push(q, x)) <==> Unhindered(r, q, x)
  {
    if Unhindered(r, q, x) {
      StoreIsPush(r, q, x);
    } else if Refines(Finalize(r, x.key, x.headers, x.body, x.id), Push(q, x)) {
      PushIsUnhindered(r, q, x);
    }
  }

  // ---- Whole runs ----

  datatype Op = Store(x: Item) | PinOp(id: nat) | UnpinOp(id: nat)

  function Do(r: Ring, op: Op): Ring
    requires RingInv(r)
  {
    match op
    case Store(x) => Finalize(r, x.key, x.headers, x.body, x.id)
    case PinOp(id) => Pin(r, id)
    case UnpinOp(id) => Unpin(r, id)
  }

  function DoQueue(q: Queue, op: Op): Queue {
    if op.Store? then Push(q, op.x) else q
  }

  lemma DoInv(r: Ring, op: Op)
    requires RingInv(r)
    requires op.Store? ==> Fresh(r, op.x.key, op.x.id)
    ensures RingInv(Do(r, op))
  {
    match op
    case Store(x) => FinalizeInv(r, x.key, x.headers, x.body, x.id);
    case PinOp(id) => PinsKeepInv(r, Pin(r, id).slots);
    case UnpinOp(id) => PinsKeepInv(r, Unpin(r, id).slots);
  }

  /** Every store brings a new key and a new object. */
  ghost predicate Arrivals(r: Ring, ops: seq<Op>)
    requires RingInv(r)
    decreases |ops|
  {
    |ops| == 0 ||
    (&& (ops[0].Store? ==> Fresh(r, ops[0].x.key, ops[0].x.id))
     && (DoInv(r, ops[0]); Arrivals(Do(r, ops[0]), ops[1..])))
  }

  function Run(r: Ring, ops: seq<Op>): Ring
    requires RingInv(r) && Arrivals(r, ops)
    decreases |ops|
  {
    if |ops| == 0 then r else DoInv(r, ops[0]); Run(Do(r, ops[0]), ops[1..])
  }

  function RunQueue(q: Queue, ops: seq<Op>): Queue
    decreases |ops|
  {
    if |ops| == 0 then q else RunQueue(DoQueue(q, ops[0]), ops[1..])
  }

  lemma PinsKeepLaid(r: Ring, t: Slots, h: nat, items: seq<Item>)
    requires Laid(r, h, items) && SameButPins(r.slots, t)
    ensures Laid(r.(slots := t), h, items)
  {
    var n := |r.slots|;
    assert forall i | 0 <= i < n && t[i].Some? :: Payload(t[i].value) == Payload(r.slots[i].value) by {
      assert forall i | 0 <= i < n && r.slots[i].Some? :: r.slots[i].value.(pins := 0) == t[i].value.(pins := 0);
    }
    forall i | n - |items| <= i < n
      ensures t[At(h, i, n)].Some? && Payload(t[At(h, i, n)].value) == items[i - (n - |items|)]
    {
      assert Payload(t[At(h, i, n)].value) == Payload(r.slots[At(h, i, n)].value);
    }
  }

  lemma PinsKeepLayout(r: Ring, q: Queue, t: Slots)
    requires Refines(r, q) && SameButPins(r.slots, t)
    ensures Refines(r.(slots := t), q)
  {
    PinsKeepInv(r, t);
    PinsKeepLaid(r, t, r.head, q.items);
  }

  lemma DoRefines(r: Ring, q: Queue, op: Op)
    requires Refines(r, q)
    requires op.Store? ==> Fresh(r, op.x.key, op.x.id)
    ensures Refines(Do(r, op), DoQueue(q, op)) <==> (op.Store? ==> Unhindered(r, q, op.x))
  {
    match op
    case Store(x) => FinalizeIsPush(r, q, x);
    case PinOp(id) => PinsKeepLayout(r, q, Pin(r, id).slots);
    case UnpinOp(id) => PinsKeepLayout(r, q, Unpin(r, id).slots);
  }

  /** No store of the run has to make room at the cost of an entry in use. */
  ghost predicate Quiet(r: Ring, q: Queue, ops: seq<Op>)
    requires Refines(r, q) && Arrivals(r, ops)
    decreases |ops|
  {
    |ops| == 0 ||
    (&& (ops[0].Store? ==> Unhindered(r, q, ops[0].x))
     && (DoRefines(r, q, ops[0]); Quiet(Do(r, ops[0]), DoQueue(q, ops[0]), ops[1..])))
  }

  /** The ring is the queue after every operation of the run. */
  ghost predicate Tracks(r: Ring, q: Queue, ops: seq<Op>)
    requires RingInv(r) && Arrivals(r, ops)
    decreases |ops|
  {
    && Refines(r, q)
    && (|ops| > 0 ==> (DoInv(r, ops[0]); Tracks(Do(r, ops[0]), DoQueue(q, ops[0]), ops[1..])))
  }

  lemma EmptyRefines(capacity: nat, slotCount: nat)
    requires slotCount > 0
    ensures Refines(Empty(capacity, slotCount), Queue(capacity, slotCount, []))
  {
    EmptyInv(capacity, slotCount);
  }

  lemma {:induction false} TracksToTheEnd(r: Ring, q: Queue, ops: seq<Op>)
    requires RingInv(r) && Arrivals(r, ops) && Tracks(r, q, ops)
    ensures Refines(Run(r, ops), RunQueue(q, ops))
    decreases |ops|
  {
    if |ops| > 0 {
      DoInv(r, ops[0]);
      TracksToTheEnd(Do(r, ops[0]), DoQueue(q, ops[0]), ops[1..]);
    }
  }

  /** FIFO over whole runs, and exactly when. */
  lemma {:induction false} RunRefinesQueue(r: Ring, q: Queue, ops: seq<Op>)
    requires Refines(r, q) && Arrivals(r, ops)
    ensures Tracks(r, q, ops) <==> Quiet(r, q, ops)
    ensures Quiet(r, q, ops) ==> Refines(Run(r, ops), RunQueue(q, ops))
    decreases |ops|
  {
    if |ops| > 0 {
      DoInv(r, ops[0]);
      DoRefines(r, q, ops[0]);
      if ops[0].Store? ==> Unhindered(r, q, ops[0].x) {
        RunRefinesQueue(Do(r, ops[0]), DoQueue(q, ops[0]), ops[1..]);
      }
    }
  }

  /** A ring of three slots, full to its capacity of two bytes; the older entry is in use. */
  function OlderInUse(): Ring {
    Ring(2, [None, Some(Entry("a", [], "", 1, 1)), Some(Entry("b", [], "", 2, 0))], 0, 2, map["a" := 1, "b" := 2])
  }

  lemma OlderInUseLaid()
    ensures Refines(OlderInUse(), Queue(2, 3, [Item("a", [], "", 1), Item("b", [], "", 2)]))
  {
    var r := OlderInUse();
    assert Weight([Item("a", [], "", 1), Item("b", [], "", 2)]) == 2;
    assert Total(r.slots) == 2 by {
      assert r.slots[1..][1..][1..] == [];
    }
    assert Holds(r.slots, "a", 1) by { assert r.slots[1].Some?; }
    assert Holds(r.slots, "b", 2) by { assert r.slots[2].Some?; }
  }

  lemma YoungerEvicted()
    ensures RingInv(OlderInUse())
    ensures EvictTill(OlderInUse(), 1)
      == (Ring(2, [None, Some(Entry("a", [], "", 1, 1)), None], 0, 1, map["a" := 1]), true)
  {
    hide RingInv, Total, Laid;
    OlderInUseLaid();
    var r := OlderInUse();
    var r1, r2 := r.(head := 1), r.(head := 2);
    ScanUnfold(r, 1, 0);
    assert Visit(r) == r1;
    ScanUnfold(r1, 1, 1);
    assert Visit(r1) == r2;
    ScanUnfold(r2, 1, 2);
    var r3 := Ring(2, [None, Some(Entry("a", [], "", 1, 1)), None], 0, 1, map["a" := 1]);
    assert Visit(r2) == r3;
    hide Visit;
    assert Scan(r3, 1, 3) == (r3, true);
  }

  /** Storing a third response evicts the younger entry and keeps the older; the queue would do the converse. */
  lemma YoungerLeavesFirst()
    ensures RingInv(OlderInUse())
    ensures Finalize(OlderInUse(), "c", [], "", 3).slots
      == [Some(Entry("c", [], "", 3, 0)), Some(Entry("a", [], "", 1, 1)), None]
    ensures Push(Queue(2, 3, [Item("a", [], "", 1), Item("b", [], "", 2)]), Item("c", [], "", 3)).items
      == [Item("b", [], "", 2), Item("c", [], "", 3)]
  {
    hide Scan, Visit, Total, EvictTill, RingInv;
    YoungerEvicted();
  }
}
