/**
 The queue under the protocol: pins are taken and released between the turns
 of a scan, so what counts is each slot at the moment it is visited.
 */
module FifoSteps {
  import opened Basics
  import opened Ring
  import opened Fifo
  import opened Sections
  import opened Protocol
  import opened ProtocolSteps
  import opened ProtocolTheorems

  /** Where the head was `v` turns ago. */
  function Base(head: nat, v: nat, n: nat): (h: nat)
    requires head < n && v <= n
    ensures h < n && At(h, v, n) == head
  {
    if head >= v then head - v else head + n - v
  }

  /** Of `m` items laid out from the base so many have been visited within `v` turns. */
  function Passed(m: nat, v: nat, n: nat): (j: nat)
    requires v <= n
    ensures j <= m
  {
    if v + m > n then v + m - n else 0
  }

  /** A scan for `need` bytes has made `v` turns, and has taken out every item it passed. */
  ghost predicate Halfway(r: Ring, q: Queue, need: nat, v: nat) {
    var n := |r.slots|;
    && RingInv(r) && r.capacity == q.capacity && n == q.slotCount && v <= n && |q.items| <= n
    && Laid(r, Base(r.head, v, n), q.items[Passed(|q.items|, v, n)..])
    && (need <= r.capacity ==> Passed(|q.items|, v, n) <= Surplus(q.items, need, r.capacity))
    && (v > 0 ==> need <= r.capacity && Surplus(q.items, need, r.capacity) > 0)
  }

  /** What the leader who holds the lock is about to store. */
  function Arriving(l: Leader, id: nat): Item {
    Item(l.key, l.headers.GetOr([]), l.body, id)
  }

  /** Between scans the ring is the queue, and within a scan it has come that far. */
  ghost predicate Follows(s: System, q: Queue) {
    if s.lock.Scanning?
    then s.lock.leader in s.leaders && Halfway(s.cache.ring, q, Need(s.leaders[s.lock.leader]), s.lock.visited)
    else Refines(s.cache.ring, q)
  }

  /** The visited slot is free, or its entry is not in use at this moment. */
  predicate Unpinned(s: System)
    requires s.cache.ring.head < |s.cache.ring.slots|
  {
    s.cache.ring.slots[s.cache.ring.head].Some? ==> Evictable(s.cache.ring.slots[s.cache.ring.head])
  }

  /** The queue moves when a scan is finished. */
  function QueueStep(s: System, q: Queue, a: Action): Queue {
    if a.FinishScan? && Enabled(s, a) then Push(q, Arriving(s.leaders[s.lock.leader], s.lock.leader)) else q
  }

  // ---- Single steps ----

  lemma SurplusNotReached(items: seq<Item>, need: nat, capacity: nat, j: nat)
    requires need <= capacity && j <= Surplus(items, need, capacity)
    ensures Weight(items[j..]) + need > capacity <==> j < Surplus(items, need, capacity)
    ensures j == Surplus(items, need, capacity) ==> items[j..] == DropOldest(items, need, capacity)
  {
    var k := DropOldestIsShortest(items, need, capacity);
    assert k == Surplus(items, need, capacity);
  }

  lemma HalfwayEnds(r: Ring, q: Queue, need: nat, v: nat)
    requires Halfway(r, q, need, v) && need <= r.capacity && (Fits(r, need) || v == |r.slots|)
    ensures Fits(r, need)
  {
    if v == |r.slots| { assert q.items[Passed(|q.items|, v, |r.slots|)..] == []; }
  }

  lemma VisitAdvances(r: Ring, q: Queue, need: nat, v: nat)
    requires Halfway(r, q, need, v) && need <= r.capacity && !Fits(r, need) && v < |r.slots|
    requires r.slots[r.head].Some? ==> Evictable(r.slots[r.head])
    ensures Halfway(Visit(r), q, need, v + 1)
  {
    var n, h := |r.slots|, Base(r.head, v, |r.slots|);
    var left := q.items[Passed(|q.items|, v, n)..];
    SurplusNotReached(q.items, need, r.capacity, Passed(|q.items|, v, n));
    assert v + |left| == n ==> r.slots[At(h, v, n)].Some?;
    hide RingInv, Visit, Laid;
    VisitInv(r);
    VisitLaid(r, h, v, left);
    assert Left(left, v, n) == q.items[Passed(|q.items|, v + 1, n)..];
    assert Base(Visit(r).head, v + 1, n) == h;
  }

  lemma VisitBlocked(r: Ring, q: Queue, need: nat, v: nat)
    requires Halfway(r, q, need, v) && need <= r.capacity && v < |r.slots|
    requires r.slots[r.head].Some? && !Evictable(r.slots[r.head])
    ensures !Halfway(Visit(r), q, need, v + 1)
  {
    var n, h := |r.slots|, Base(r.head, v, |r.slots|);
    var m := |q.items|;
    assert At(h, v, n) == r.head;
    assert v + m - Passed(m, v, n) == n;
    assert Visit(r).slots == r.slots && Base(Visit(r).head, v + 1, n) == h;
    assert r.slots[At(h, v, n)].Some?;
  }

  /** A turn of the scan keeps pace with the queue exactly when the visited entry is not in use. */
  lemma VisitHalfway(r: Ring, q: Queue, need: nat, v: nat)
    requires Halfway(r, q, need, v) && need <= r.capacity && !Fits(r, need) && v < |r.slots|
    ensures Halfway(Visit(r), q, need, v + 1) <==> (r.slots[r.head].Some? ==> Evictable(r.slots[r.head]))
  {
    if r.slots[r.head].Some? && !Evictable(r.slots[r.head]) {
      VisitBlocked(r, q, need, v);
    } else {
      VisitAdvances(r, q, need, v);
    }
  }

  /** A scan that has made room has taken out what the queue drops. */
  lemma ScanLeaves(r: Ring, q: Queue, need: nat, v: nat)
    requires Halfway(r, q, need, v) && Fits(r, need) && need <= r.capacity
    ensures var n, h, rest := |r.slots|, Base(r.head, v, |r.slots|), DropOldest(q.items, need, r.capacity);
      && n > 0 && v <= n && |rest| <= n && Laid(r, h, rest)
      && (v > 0 ==> v <= n - |rest| && |rest| < n)
  {
    SurplusNotReached(q.items, need, r.capacity, Passed(|q.items|, v, |r.slots|));
    var left := q.items[Passed(|q.items|, v, |r.slots|)..];
    hide Base;
  }

  /** The free-slot search behind a scan ends where the scan began. */
  lemma SlotBehindScan(r: Ring, q: Queue, need: nat, v: nat)
    requires Halfway(r, q, need, v) && Fits(r, need) && need <= r.capacity
    ensures var h := Base(r.head, v, |r.slots|);
      && Laid(r, h, DropOldest(q.items, need, r.capacity))
      && FindFree(r, 0) == (r.(head := h), |DropOldest(q.items, need, r.capacity)| < |r.slots|)
    ensures |DropOldest(q.items, need, r.capacity)| == |r.slots| ==> v == 0
  {
    ScanLeaves(r, q, need, v);
    hide Halfway, DropOldest, RingInv;
    var n, h, rest := |r.slots|, Base(r.head, v, |r.slots|), DropOldest(q.items, need, r.capacity);
    assert At(h, v, n) == r.head;
    if v > 0 {
      assert r.slots[At(h, 0, n)].None?;
      FindFreeBackToBase(r, h, v, 0);
    } else if |rest| == n {
      FindFreeOnFull(r, h, 0);
    } else {
      assert r.slots[At(h, 0, n)].None?;
    }
  }

  /** What is left of the section once the loop has ended is a push. */
  lemma SettleHalfway(r: Ring, q: Queue, x: Item, v: nat)
    requires Halfway(r, q, ItemSize(x), v) && Fresh(r, x.key, x.id)
    requires ItemSize(x) > r.capacity || Fits(r, ItemSize(x)) || v == |r.slots|
    ensures Refines(Settle(r, x.key, x.headers, x.body, x.id), Push(q, x))
  {
    var need, h := ItemSize(x), Base(r.head, v, |r.slots|);
    SettleInv(r, x.key, x.headers, x.body, x.id);
    if need > r.capacity {
      assert q.items[0..] == q.items;
    } else {
      HalfwayEnds(r, q, need, v);
      SlotBehindScan(r, q, need, v);
      hide RingInv, Fresh, FindFree;
      var rest := DropOldest(q.items, need, r.capacity);
      assert |rest| == |r.slots| ==> rest == q.items;
      if |rest| < |r.slots| { InsertLaid(r.(head := h), rest, x); }
    }
  }

  lemma PinsKeepHalfway(r: Ring, t: Slots, q: Queue, need: nat, v: nat)
    requires Halfway(r, q, need, v) && SameButPins(r.slots, t)
    ensures Halfway(r.(slots := t), q, need, v)
  {
    PinsKeepInv(r, t);
    PinsKeepLaid(r, t, Base(r.head, v, |r.slots|), q.items[Passed(|q.items|, v, |r.slots|)..]);
  }

  lemma UnpinIsPins(r: Ring, id: nat)
    ensures SameButPins(r.slots, Unpin(r, id).slots) && Unpin(r, id) == r.(slots := Unpin(r, id).slots)
  {}

  lemma PinIsPins(r: Ring, id: nat)
    ensures SameButPins(r.slots, Pin(r, id).slots) && Pin(r, id) == r.(slots := Pin(r, id).slots)
  {}

  lemma ReleaseFollows(s: System, q: Queue, h: nat)
    requires Follows(s, q) && RingInv(s.cache.ring) && Enabled(s, ReleasePin(h))
    ensures Follows(Apply(s, ReleasePin(h)), q)
  {
    hide RingInv, Unpin, SameButPins, Halfway, Refines;
    var t := Unpin(s.cache.ring, s.hits[h].entry).slots;
    UnpinIsPins(s.cache.ring, s.hits[h].entry);
    if s.lock.Scanning? {
      PinsKeepHalfway(s.cache.ring, t, q, Need(s.leaders[s.lock.leader]), s.lock.visited);
    } else {
      PinsKeepLayout(s.cache.ring, q, t);
    }
  }

  lemma LookupLock(s: System, id: nat, key: Key, disp: nat)
    ensures LookupStep(s, id, key, disp).lock == s.lock
  {
    hide Find, Lookup, QueueOf, Classify;
    match Classify(s.cache, key)
    case IsHit =>
    case IsLeader =>
    case IsFollower =>
  }

  lemma LookupFollows(s: System, q: Queue, id: nat, key: Key, disp: nat)
    requires Follows(s, q) && Enabled(s, DoLookup(id, key, disp))
    ensures Follows(LookupStep(s, id, key, disp), q)
  {
    hide LookupStep, Refines, Pin, SameButPins;
    LookupLock(s, id, key, disp);
    LookupCache(s, id, key, disp);
    if Classify(s.cache, key).IsHit? {
      PinIsPins(s.cache.ring, s.cache.ring.index[key]);
      PinsKeepLayout(s.cache.ring, q, Pin(s.cache.ring, s.cache.ring.index[key]).slots);
    }
  }

  lemma PublishFollows(s: System, q: Queue, l: nat, cache: Cache<nat>, le: Leader, t: Task)
    requires Follows(s, q) && s.lock.Free? && l in s.leaders && cache.ring == s.cache.ring
    ensures Follows(PublishStep(s, l, cache, le, t), q)
  {
    assert q.items[0..] == q.items;
    hide RingInv;
  }

  lemma FinishFollows(s: System, q: Queue)
    requires Inv(s) && Follows(s, q) && Enabled(s, FinishScan)
    ensures Follows(FinishStep(s), QueueStep(s, q, FinishScan))
  {
    ClosingFlight(s);
    var le := s.leaders[s.lock.leader];
    assert FlightOk(s, le.key);
    hide Protocol.Store, Pins, Streams, Flights, RingInv, Fresh, Settle;
    SettleHalfway(s.cache.ring, q, Arriving(le, s.lock.leader), s.lock.visited);
  }

  /** Each step keeps pace with the queue, except exactly a visit to an entry that is in use at this moment. */
  lemma ApplyFollows(s: System, q: Queue, a: Action)
    requires Inv(s) && Follows(s, q)
    ensures Follows(Apply(s, a), QueueStep(s, q, a)) <==> (a.VisitSlot? && Enabled(s, a) ==> Unpinned(s))
  {
    hide Pins, Streams, Flights, Refines, Halfway, LookupStep, FinishStep, PublishStep, Unpin, RingInv;
    if Enabled(s, a) {
      match a
      case DoLookup(id, key, disp) => LookupFollows(s, q, id, key, disp);
      case ReleasePin(h) => ReleaseFollows(s, q, h);
      case PublishHeaders(l, headers, end) =>
        PublishFollows(s, q, l, StoreHeaders(s.cache, s.leaders[l].key, headers),
          s.leaders[l].(headers := Some(headers), ended := end), GiveHeaders(headers, end));
      case PublishData(l, data, end) =>
        PublishFollows(s, q, l, StoreData(s.cache, s.leaders[l].key, data),
          s.leaders[l].(body := s.leaders[l].body + data, ended := end), GiveData(data, end));
      case VisitSlot => VisitHalfway(s.cache.ring, q, Need(s.leaders[s.lock.leader]), s.lock.visited);
      case FinishScan => FinishFollows(s, q);
      case MakePost(l) =>
      case RunTask(d) =>
      case LocalReply(f) =>
      case Destroy(f) =>
      case Detach(f) =>
    }
  }

  // ---- Runs ----

  /** No visit of the run meets an entry that is in use at that moment. */
  ghost predicate VisitsUnpinned(s: System, acts: seq<Action>)
    requires Inv(s)
    decreases |acts|
  {
    |acts| == 0 ||
    (&& (acts[0].VisitSlot? && Enabled(s, acts[0]) ==> Unpinned(s))
     && (ApplyKeeps(s, acts[0]); VisitsUnpinned(Apply(s, acts[0]), acts[1..])))
  }

  ghost function QueueSteps(s: System, q: Queue, acts: seq<Action>): Queue
    requires Inv(s)
    decreases |acts|
  {
    if |acts| == 0 then q
    else ApplyKeeps(s, acts[0]); QueueSteps(Apply(s, acts[0]), QueueStep(s, q, acts[0]), acts[1..])
  }

  /** The system keeps pace with the queue all along the run. */
  ghost predicate KeepsPace(s: System, q: Queue, acts: seq<Action>)
    requires Inv(s)
    decreases |acts|
  {
    && Follows(s, q)
    && (|acts| > 0 ==>
          (ApplyKeeps(s, acts[0]); KeepsPace(Apply(s, acts[0]), QueueStep(s, q, acts[0]), acts[1..])))
  }

  /** FIFO for every interleaving: the ring keeps pace with the queue all along a run exactly when no visit of a scan
      meets an entry in use; then, whenever the mutex is free, the ring is the queue of the responses finished so far. */
  lemma {:induction false} StepsFollowQueue(s: System, q: Queue, acts: seq<Action>)
    requires Inv(s) && Follows(s, q)
    ensures Inv(Steps(s, acts))
    ensures KeepsPace(s, q, acts) <==> VisitsUnpinned(s, acts)
    ensures VisitsUnpinned(s, acts) ==> Follows(Steps(s, acts), QueueSteps(s, q, acts))
    decreases |acts|
  {
    StepsKeep(s, acts);
    hide Inv, Follows, Apply, Enabled, Unpinned, QueueStep;
    if |acts| > 0 {
      ApplyKeeps(s, acts[0]);
      ApplyFollows(s, q, acts[0]);
      if Follows(Apply(s, acts[0]), QueueStep(s, q, acts[0])) {
        StepsFollowQueue(Apply(s, acts[0]), QueueStep(s, q, acts[0]), acts[1..]);
      }
    }
  }

  lemma InitialFollows(capacity: nat, slotCount: nat)
    requires slotCount > 0
    ensures Inv(Initial(capacity, slotCount))
    ensures Follows(Initial(capacity, slotCount), Queue(capacity, slotCount, []))
  {
    InitialInv(capacity, slotCount);
    EmptyRefines(capacity, slotCount);
  }

  /** From the start: whenever the mutex is free, the ring is the queue of the responses finished so far, as long as no
      visit has met an entry in use. */
  lemma ReachedIsQueue(capacity: nat, slotCount: nat, acts: seq<Action>)
    requires slotCount > 0
    ensures Inv(Initial(capacity, slotCount))
    ensures var s0, q0 := Initial(capacity, slotCount), Queue(capacity, slotCount, []);
      && Inv(Steps(s0, acts))
      && (VisitsUnpinned(s0, acts) && Steps(s0, acts).lock.Free? ==> Refines(Steps(s0, acts).cache.ring, QueueSteps(s0, q0, acts)))
  {
    InitialFollows(capacity, slotCount);
    StepsFollowQueue(Initial(capacity, slotCount), Queue(capacity, slotCount, []), acts);
    hide Inv, Refines, Halfway;
  }
}
