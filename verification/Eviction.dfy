/**
 The exact outcome of making room in the ring while no pin moves: which
 requests fail, which entries leave, and where the head comes to rest.
 */
module Eviction {
  import opened Basics
  import opened Ring

  /** Slot `j` is among the first `m` slots met when walking from `h`. */
  predicate Passed(h: nat, m: nat, n: nat, j: nat)
    requires h < n && j < n
  {
    if h <= j then j - h < m else j + n - h < m
  }

  /** The slots once the unpinned entries of the first `m` slots from `h` are gone. */
  function Swept(s: Slots, h: nat, m: nat): (t: Slots)
    requires h < |s|
    ensures |t| == |s|
  {
    seq(|s|, j requires 0 <= j < |s| => if Passed(h, m, |s|, j) && Evictable(s[j]) then None else s[j])
  }

  /** Bytes held by entries that are in use. */
  function PinnedTotal(s: Slots): nat {
    if |s| == 0 then 0
    else (if s[0].Some? && s[0].value.pins > 0 then SlotSize(s[0]) else 0) + PinnedTotal(s[1..])
  }

  ghost predicate Full(s: Slots) {
    forall i | 0 <= i < |s| :: s[i].Some?
  }

  /** `m` is the length of the shortest window whose unpinned entries free enough. */
  ghost predicate ShortestWindow(s: Slots, h: nat, capacity: nat, need: nat, m: nat)
    requires h < |s|
  {
    && m <= |s|
    && Total(Swept(s, h, m)) + need <= capacity
    && (forall k | 0 <= k < m :: Total(Swept(s, h, k)) + need > capacity)
  }

  /** From `h`, the first free slot is `w` steps ahead. */
  ghost predicate FirstFree(s: Slots, h: nat, w: nat)
    requires h < |s|
  {
    && w < |s|
    && s[At(h, w, |s|)].None?
    && (forall i | 0 <= i < w :: s[At(h, i, |s|)].Some?)
  }

  // ---- Totals compare slot by slot ----

  lemma {:induction false} TotalMonotone(t: Slots, s: Slots)
    requires |t| == |s|
    requires forall j | 0 <= j < |s| :: SlotSize(t[j]) <= SlotSize(s[j])
    ensures Total(t) <= Total(s)
  {
    if |s| > 0 {
      TotalMonotone(t[1..], s[1..]);
    }
  }

  lemma {:induction false} PinnedIsRest(t: Slots, s: Slots)
    requires |t| == |s|
    requires forall j | 0 <= j < |s| :: t[j] == if Evictable(s[j]) then None else s[j]
    ensures Total(t) == PinnedTotal(s)
  {
    if |s| > 0 {
      PinnedIsRest(t[1..], s[1..]);
    }
  }

  lemma SweepAll(s: Slots, h: nat)
    requires h < |s|
    ensures Total(Swept(s, h, |s|)) == PinnedTotal(s)
  {
    PinnedIsRest(Swept(s, h, |s|), s);
  }

  lemma SweepLess(s: Slots, h: nat, m: nat)
    requires h < |s| && m <= |s|
    ensures PinnedTotal(s) <= Total(Swept(s, h, m)) <= Total(s)
  {
    SweepAll(s, h);
    TotalMonotone(Swept(s, h, |s|), Swept(s, h, m));
    TotalMonotone(Swept(s, h, m), s);
  }

  // ---- The two loops ----

  lemma VisitSwept(r: Ring, s0: Slots, h0: nat, v: nat)
    requires RingInv(r) && |r.slots| == |s0| && h0 < |s0| && v < |s0|
    requires r.slots == Swept(s0, h0, v) && r.head == At(h0, v, |s0|)
    ensures Visit(r).slots == Swept(s0, h0, v + 1) && Visit(r).head == At(h0, v + 1, |s0|)
  {
    assert forall j | 0 <= j < |s0| && j != r.head :: Passed(h0, v, |s0|, j) == Passed(h0, v + 1, |s0|, j);
    assert Visit(r).slots == Swept(s0, h0, v + 1);
  }

  lemma {:induction false} ScanOutcome(r: Ring, need: nat, s0: Slots, h0: nat, v: nat) returns (m: nat)
    requires RingInv(r) && |r.slots| == |s0| && h0 < |s0| && v <= |s0|
    requires r.slots == Swept(s0, h0, v) && r.head == At(h0, v, |s0|)
    requires forall k | 0 <= k < v :: Total(Swept(s0, h0, k)) + need > r.capacity
    ensures v <= m <= |s0|
    ensures var (r', ok) := Scan(r, need, v);
      && r'.slots == Swept(s0, h0, m) && r'.head == At(h0, m, |s0|)
      && (ok ==> ShortestWindow(s0, h0, r.capacity, need, m))
      && (!ok ==> m == |s0| && Total(Swept(s0, h0, m)) + need > r.capacity)
    decreases |s0| - v
  {
    m := v;
    if !Fits(r, need) && v < |s0| {
      VisitInv(r);
      VisitSwept(r, s0, h0, v);
      m := ScanOutcome(Visit(r), need, s0, h0, v + 1);
    }
  }

  lemma {:induction false} FindFreeOutcome(r: Ring, h1: nat, walked: nat) returns (w: nat)
    requires h1 < |r.slots| && walked <= |r.slots| && r.head == At(h1, walked, |r.slots|)
    requires forall i | 0 <= i < walked :: r.slots[At(h1, i, |r.slots|)].Some?
    ensures walked <= w <= |r.slots|
    ensures var (r', ok) := FindFree(r, walked);
      && r' == r.(head := At(h1, w, |r.slots|))
      && (ok ==> FirstFree(r.slots, h1, w))
      && (!ok ==> w == |r.slots| && Full(r.slots))
    decreases |r.slots| - walked
  {
    w := walked;
    if walked == |r.slots| {
      forall j | 0 <= j < |r.slots|
        ensures r.slots[j].Some?
      {
        assert j == At(h1, if h1 <= j then j - h1 else j + |r.slots| - h1, |r.slots|);
      }
    } else if r.slots[r.head].Some? {
      w := FindFreeOutcome(r.(head := Next(r.head, |r.slots|)), h1, walked + 1);
    }
  }

  /** A request fails for one of exactly three reasons. */
  ghost predicate Refused(r: Ring, need: nat) {
    || need > r.capacity
    || need + PinnedTotal(r.slots) > r.capacity
    || (Fits(r, need) && Full(r.slots))
  }

  /** Every eviction leaves a hole behind. */
  lemma FullSweepIsIdle(s: Slots, h: nat, m: nat)
    requires h < |s| && Full(Swept(s, h, m))
    ensures Swept(s, h, m) == s
  {
    assert forall j | 0 <= j < |s| :: Swept(s, h, m)[j].Some?;
  }

  /** The refusal test agrees with the two loops once the request fits the capacity. */
  lemma RefusedAfterScan(r: Ring, need: nat, m: nat)
    requires RingInv(r) && need <= r.capacity && m <= |r.slots|
    requires ShortestWindow(r.slots, r.head, r.capacity, need, m)
    ensures Refused(r, need) <==> Full(Swept(r.slots, r.head, m))
  {
    SweepLess(r.slots, r.head, m);
    assert Swept(r.slots, r.head, 0) == r.slots;
    if !Fits(r, need) && Full(Swept(r.slots, r.head, m)) {
      FullSweepIsIdle(r.slots, r.head, m);
    }
  }

  /**
   Making room: `m` slots are visited by the eviction loop and `w` by the
   free-slot loop.
   */
  lemma EvictTillOutcome(r: Ring, need: nat) returns (m: nat, w: nat)
    requires RingInv(r)
    ensures m <= |r.slots| && w <= |r.slots|
    ensures EvictTill(r, need).1 <==> !Refused(r, need)
    ensures EvictTill(r, need).1 ==>
      var r' := EvictTill(r, need).0;
      && ShortestWindow(r.slots, r.head, r.capacity, need, m)
      && r'.slots == Swept(r.slots, r.head, m)
      && FirstFree(r'.slots, At(r.head, m, |r.slots|), w)
      && r'.head == At(At(r.head, m, |r.slots|), w, |r.slots|)
      && r'.used + need <= r.capacity
    ensures !EvictTill(r, need).1 && need <= r.capacity && need + PinnedTotal(r.slots) > r.capacity ==>
      var r' := EvictTill(r, need).0;
      r'.slots == Swept(r.slots, r.head, |r.slots|) && r'.head == r.head
    ensures !EvictTill(r, need).1 && (need > r.capacity || Fits(r, need)) ==> EvictTill(r, need).0 == r
  {
    m, w := 0, 0;
    if need > r.capacity { return; }
    assert r.slots == Swept(r.slots, r.head, 0);
    m := ScanOutcome(r, need, r.slots, r.head, 0);
    ScanInv(r, need, 0);
    var r1 := Scan(r, need, 0).0;
    if Scan(r, need, 0).1 {
      w := FindFreeOutcome(r1, r1.head, 0);
      RefusedAfterScan(r, need, m);
      SweepLess(r.slots, r.head, m);
    } else {
      SweepAll(r.slots, r.head);
    }
  }

  /** A ring with one slot, occupied by an idle entry of one byte, and room for nine more bytes. */
  function OneIdleSlot(): Ring {
    Ring(10, [Some(Entry("a", [], "", 1, 0))], 0, 1, map["a" := 1])
  }

  /** A response of one byte would fit, and the only entry is idle; yet it is dropped, and the entry stays. */
  lemma FullRingRefuses()
    ensures RingInv(OneIdleSlot()) && Fits(OneIdleSlot(), 1) && Evictable(OneIdleSlot().slots[0])
    ensures Finalize(OneIdleSlot(), "b", [], "", 2) == OneIdleSlot()
  {
    var r := OneIdleSlot();
    assert Total(r.slots) == 1 by { assert r.slots[1..] == []; }
    assert Holds(r.slots, "a", 1) by { assert r.slots[0].Some?; }
    assert FindFree(r, 0) == (r, false) by { assert Next(0, 1) == 0; }
  }
}
