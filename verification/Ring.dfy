/**
 The slot ring of the cache as a value: the four linked fields guarded by the
 mutex (slots, head, byte counter, key index) and the operations that the
 locked sections perform on them.
 */
module Ring {
  import opened Basics

  /** A stored response. `id` stands for the identity of the heap object
      (one object is created per leader); `pins` counts hits being served. */
  datatype Entry = Entry(key: Key, headers: Headers, body: Bytes, id: nat, pins: nat)

  function EntrySize(e: Entry): nat {
    |e.key| + |e.headers| + |e.body|
  }

  type Slots = seq<Option<Entry>>

  datatype Ring = Ring(capacity: nat, slots: Slots, head: nat, used: nat, index: map<Key, nat>)

  function SlotSize(o: Option<Entry>): nat {
    if o.Some? then EntrySize(o.value) else 0
  }

  function Total(s: Slots): nat {
    if |s| == 0 then 0 else SlotSize(s[0]) + Total(s[1..])
  }

  predicate Evictable(o: Option<Entry>) {
    o.Some? && o.value.pins == 0
  }

  ghost predicate DistinctEntries(s: Slots) {
    forall i, j | 0 <= i < j < |s| && s[i].Some? && s[j].Some? ::
      s[i].value.key != s[j].value.key && s[i].value.id != s[j].value.id
  }

  ghost predicate Holds(s: Slots, k: Key, id: nat) {
    exists i :: 0 <= i < |s| && s[i].Some? && s[i].value.key == k && s[i].value.id == id
  }

  /** The key index is exactly the relation between keys and occupied slots. */
  ghost predicate IndexExact(s: Slots, index: map<Key, nat>) {
    && (forall i | 0 <= i < |s| && s[i].Some? ::
          s[i].value.key in index && index[s[i].value.key] == s[i].value.id)
    && (forall k | k in index :: Holds(s, k, index[k]))
  }

  ghost predicate RingInv(r: Ring) {
    && r.head < |r.slots|
    && r.used == Total(r.slots) <= r.capacity
    && DistinctEntries(r.slots)
    && IndexExact(r.slots, r.index)
  }

  /** The slot after `h`, as the source computes it. */
  function Next(h: nat, n: nat): (r: nat)
    requires h < n
    ensures r < n && r == (h + 1) % n
  {
    if h + 1 == n then 0 else h + 1
  }

  /** The slot `i` steps ahead of `h`. */
  function At(h: nat, i: nat, n: nat): (r: nat)
    requires h < n && i <= n
    ensures r < n
  {
    if h + i < n then h + i else h + i - n
  }

  // ---- The operations ----

  function Empty(capacity: nat, slotCount: nat): Ring {
    Ring(capacity, seq(slotCount, _ => None), 0, 0, map[])
  }

  function EvictHead(r: Ring): Ring
    requires r.head < |r.slots| && r.slots[r.head].Some?
    requires EntrySize(r.slots[r.head].value) <= r.used
  {
    var e := r.slots[r.head].value;
    r.(used := r.used - EntrySize(e), index := r.index - {e.key}, slots := r.slots[r.head := None])
  }

  /** One turn of the eviction loop: evict the head entry if nobody uses it, then advance. */
  function Turn(r: Ring): Ring
    requires r.head < |r.slots| && SlotSize(r.slots[r.head]) <= r.used
  {
    var r1 := if Evictable(r.slots[r.head]) then EvictHead(r) else r;
    r1.(head := Next(r1.head, |r1.slots|))
  }

  function Visit(r: Ring): Ring
    requires RingInv(r)
  {
    SlotInTotal(r.slots, r.head);
    Turn(r)
  }

  predicate Fits(r: Ring, need: nat)
  {
    r.used + need <= r.capacity
  }

  /** The eviction loop after `visited` turns. */
  function Scan(r: Ring, need: nat, visited: nat): (Ring, bool)
    requires RingInv(r) && visited <= |r.slots|
    decreases |r.slots| - visited
  {
    if Fits(r, need) then (r, true)
    else if visited == |r.slots| then (r, false)
    else
      VisitInv(r);
      Scan(Visit(r), need, visited + 1)
  }

  /** The free-slot loop after `walked` turns. */
  function FindFree(r: Ring, walked: nat): (Ring, bool)
    requires r.head < |r.slots| && walked <= |r.slots|
    decreases |r.slots| - walked
  {
    if walked == |r.slots| then (r, false)
    else if r.slots[r.head].None? then (r, true)
    else FindFree(r.(head := Next(r.head, |r.slots|)), walked + 1)
  }

  function EvictTill(r: Ring, need: nat): (Ring, bool)
    requires RingInv(r)
  {
    if need > r.capacity then (r, false)
    else
      var (r1, ok) := Scan(r, need, 0);
      ScanInv(r, need, 0);
      if ok then FindFree(r1, 0) else (r1, false)
  }

  function Insert(r: Ring, key: Key, headers: Headers, body: Bytes, id: nat): Ring
    requires r.head < |r.slots|
  {
    var e := Entry(key, headers, body, id, 0);
    r.(slots := r.slots[r.head := Some(e)], index := r.index[key := id],
       head := Next(r.head, |r.slots|), used := r.used + EntrySize(e))
  }

  /** `finalizeLocked` on the ring: make room, then insert or drop. */
  function Finalize(r: Ring, key: Key, headers: Headers, body: Bytes, id: nat): Ring
    requires RingInv(r)
  {
    EvictTillInv(r, |key| + |headers| + |body|);
    var (r1, ok) := EvictTill(r, |key| + |headers| + |body|);
    if ok then Insert(r1, key, headers, body, id) else r1
  }

  /** The entry object `id` gains a pin. Slots are references, so this acts on every slot holding it. */
  function Pin(r: Ring, id: nat): Ring {
    r.(slots := seq(|r.slots|, i requires 0 <= i < |r.slots| =>
      if r.slots[i].Some? && r.slots[i].value.id == id
      then Some(r.slots[i].value.(pins := r.slots[i].value.pins + 1)) else r.slots[i]))
  }

  /** The entry object `id` loses a pin. */
  function Unpin(r: Ring, id: nat): Ring {
    r.(slots := seq(|r.slots|, i requires 0 <= i < |r.slots| =>
      if r.slots[i].Some? && r.slots[i].value.id == id && r.slots[i].value.pins > 0
      then Some(r.slots[i].value.(pins := r.slots[i].value.pins - 1)) else r.slots[i]))
  }

  /** The slots agree on everything but the pins. */
  ghost predicate SameButPins(s: Slots, t: Slots) {
    && |s| == |t|
    && (forall i | 0 <= i < |s| :: s[i].Some? == t[i].Some?)
    && (forall i | 0 <= i < |s| && s[i].Some? :: s[i].value.(pins := 0) == t[i].value.(pins := 0))
  }

  // ---- Byte accounting ----

  lemma {:induction false} TotalIgnoresPins(s: Slots, t: Slots)
    requires SameButPins(s, t)
    ensures Total(s) == Total(t)
  {
    if |s| > 0 {
      assert s[0].Some? ==> s[0].value.(pins := 0) == t[0].value.(pins := 0);
      TotalIgnoresPins(s[1..], t[1..]);
    }
  }

  lemma PinsKeepInv(r: Ring, t: Slots)
    requires RingInv(r) && SameButPins(r.slots, t)
    ensures RingInv(r.(slots := t))
  {
    TotalIgnoresPins(r.slots, t);
    assert forall i | 0 <= i < |t| && t[i].Some? ::
      r.slots[i].value.(pins := 0) == t[i].value.(pins := 0)
      && t[i].value.key == r.slots[i].value.key && t[i].value.id == r.slots[i].value.id;
    forall k | k in r.index
      ensures Holds(t, k, r.index[k])
    {
      var i :| 0 <= i < |r.slots| && r.slots[i].Some? && r.slots[i].value.key == k && r.slots[i].value.id == r.index[k];
      assert t[i].Some? && t[i].value.key == k;
    }
  }

  lemma {:induction false} TotalUpdate(s: Slots, i: nat, o: Option<Entry>)
    requires i < |s|
    ensures Total(s[i := o]) == Total(s) - SlotSize(s[i]) + SlotSize(o)
  {
    if i == 0 {
      assert s[i := o][1..] == s[1..];
    } else {
      assert s[i := o][1..] == s[1..][i - 1 := o];
      TotalUpdate(s[1..], i - 1, o);
    }
  }

  lemma {:induction false} SlotInTotal(s: Slots, i: nat)
    requires i < |s|
    ensures SlotSize(s[i]) <= Total(s)
  {
    if i > 0 { SlotInTotal(s[1..], i - 1); }
  }

  lemma {:induction false} TotalOfNone(s: Slots)
    requires forall i | 0 <= i < |s| :: s[i].None?
    ensures Total(s) == 0
  {
    if |s| > 0 { TotalOfNone(s[1..]); }
  }

  // ---- Invariant preservation ----

  lemma EmptyInv(capacity: nat, slotCount: nat)
    requires slotCount > 0
    ensures RingInv(Empty(capacity, slotCount))
  {
    TotalOfNone(Empty(capacity, slotCount).slots);
  }

  lemma EvictHeadInv(r: Ring)
    requires RingInv(r) && r.slots[r.head].Some?
    ensures EntrySize(r.slots[r.head].value) <= r.used
    ensures RingInv(EvictHead(r))
  {
    SlotInTotal(r.slots, r.head);
    TotalUpdate(r.slots, r.head, None);
    var e := r.slots[r.head].value;
    var r' := EvictHead(r);
    forall k | k in r'.index
      ensures Holds(r'.slots, k, r'.index[k])
    {
      var i :| 0 <= i < |r.slots| && r.slots[i].Some? && r.slots[i].value.key == k && r.slots[i].value.id == r.index[k];
      assert r'.slots[i] == r.slots[i];
    }
  }

  lemma VisitInv(r: Ring)
    requires RingInv(r)
    ensures RingInv(Visit(r)) && |Visit(r).slots| == |r.slots| && Visit(r).capacity == r.capacity
  {
    if r.slots[r.head].Some? { EvictHeadInv(r); }
  }

  lemma {:induction false} ScanInv(r: Ring, need: nat, visited: nat)
    requires RingInv(r) && visited <= |r.slots|
    ensures var (r', ok) := Scan(r, need, visited);
      RingInv(r') && |r'.slots| == |r.slots| && r'.capacity == r.capacity && (ok <==> Fits(r', need))
    decreases |r.slots| - visited
  {
    if !Fits(r, need) && visited < |r.slots| {
      VisitInv(r);
      ScanInv(Visit(r), need, visited + 1);
    }
  }

  lemma ScanUnfold(r: Ring, need: nat, visited: nat)
    requires RingInv(r) && !Fits(r, need) && visited < |r.slots|
    ensures RingInv(Visit(r)) && |Visit(r).slots| == |r.slots|
    ensures Scan(r, need, visited) == Scan(Visit(r), need, visited + 1)
  {
    VisitInv(r);
  }

  lemma {:induction false} FindFreeInv(r: Ring, walked: nat)
    requires r.head < |r.slots| && walked <= |r.slots|
    ensures var (r', ok) := FindFree(r, walked);
      r' == r.(head := r'.head) && r'.head < |r'.slots| && (ok ==> r'.slots[r'.head].None?)
    decreases |r.slots| - walked
  {
    if walked < |r.slots| && r.slots[r.head].Some? {
      FindFreeInv(r.(head := Next(r.head, |r.slots|)), walked + 1);
    }
  }

  /** What the insertion relies on: room for the bytes and a free head slot. */
  lemma EvictTillInv(r: Ring, need: nat)
    requires RingInv(r)
    ensures var (r', ok) := EvictTill(r, need);
      RingInv(r') && |r'.slots| == |r.slots| && r'.capacity == r.capacity &&
      (ok ==> Fits(r', need) && r'.slots[r'.head].None?)
  {
    if need <= r.capacity {
      ScanInv(r, need, 0);
      FindFreeInv(Scan(r, need, 0).0, 0);
    }
  }

  lemma InsertInv(r: Ring, key: Key, headers: Headers, body: Bytes, id: nat)
    requires RingInv(r) && r.slots[r.head].None? && key !in r.index
    requires forall i | 0 <= i < |r.slots| && r.slots[i].Some? :: r.slots[i].value.id != id
    requires Fits(r, |key| + |headers| + |body|)
    ensures RingInv(Insert(r, key, headers, body, id))
  {
    var r' := Insert(r, key, headers, body, id);
    TotalUpdate(r.slots, r.head, Some(Entry(key, headers, body, id, 0)));
    forall k | k in r'.index
      ensures Holds(r'.slots, k, r'.index[k])
    {
      if k == key {
        assert r'.slots[r.head].Some? && r'.slots[r.head].value.key == k && r'.slots[r.head].value.id == r'.index[k];
      } else {
        var i :| 0 <= i < |r.slots| && r.slots[i].Some? && r.slots[i].value.key == k && r.slots[i].value.id == r.index[k];
        assert r'.slots[i] == r.slots[i];
      }
    }
  }

  /** No stored response has this key or comes from this object. */
  ghost predicate Fresh(r: Ring, key: Key, id: nat) {
    && key !in r.index
    && forall i | 0 <= i < |r.slots| && r.slots[i].Some? :: r.slots[i].value.id != id
  }

  /** `t` differs from `s` only by the loss of entries that nobody uses. */
  ghost predicate OnlyEvicts(s: Slots, t: Slots) {
    && |t| == |s|
    && forall i | 0 <= i < |s| :: t[i] == s[i] || (t[i].None? && Evictable(s[i]))
  }

  lemma VisitOnlyEvicts(r: Ring)
    requires RingInv(r)
    ensures OnlyEvicts(r.slots, Visit(r).slots) && Visit(r).index.Keys <= r.index.Keys
  {}

  lemma {:induction false} ScanOnlyEvicts(r: Ring, need: nat, v: nat)
    requires RingInv(r) && v <= |r.slots|
    ensures OnlyEvicts(r.slots, Scan(r, need, v).0.slots)
    ensures Scan(r, need, v).0.index.Keys <= r.index.Keys
    decreases |r.slots| - v
  {
    if !Fits(r, need) && v < |r.slots| {
      VisitInv(r);
      VisitOnlyEvicts(r);
      ScanOnlyEvicts(Visit(r), need, v + 1);
    }
  }

  /** An entry with a pin survives every eviction. */
  lemma EvictTillOnlyEvicts(r: Ring, need: nat)
    requires RingInv(r)
    ensures OnlyEvicts(r.slots, EvictTill(r, need).0.slots)
    ensures EvictTill(r, need).0.index.Keys <= r.index.Keys
  {
    ScanInv(r, need, 0);
    ScanOnlyEvicts(r, need, 0);
    FindFreeInv(Scan(r, need, 0).0, 0);
  }

  lemma FinalizeInv(r: Ring, key: Key, headers: Headers, body: Bytes, id: nat)
    requires RingInv(r) && Fresh(r, key, id)
    ensures RingInv(Finalize(r, key, headers, body, id))
  {
    var need := |key| + |headers| + |body|;
    EvictTillInv(r, need);
    EvictTillOnlyEvicts(r, need);
    var (r1, ok) := EvictTill(r, need);
    if ok { InsertInv(r1, key, headers, body, id); }
  }

  /** What follows the eviction loop: find a slot and insert, or drop. */
  function Settle(r: Ring, key: Key, headers: Headers, body: Bytes, id: nat): Ring
    requires r.head < |r.slots|
  {
    FindFreeInv(r, 0);
    if Fits(r, |key| + |headers| + |body|) && FindFree(r, 0).1
    then Insert(FindFree(r, 0).0, key, headers, body, id)
    else r
  }

  lemma SettleInv(r: Ring, key: Key, headers: Headers, body: Bytes, id: nat)
    requires RingInv(r) && Fresh(r, key, id)
    ensures RingInv(Settle(r, key, headers, body, id))
  {
    FindFreeInv(r, 0);
    if Fits(r, |key| + |headers| + |body|) && FindFree(r, 0).1 {
      InsertInv(FindFree(r, 0).0, key, headers, body, id);
    }
  }

  lemma {:induction false} FindFreeFailureIdle(r: Ring, start: nat, walked: nat)
    requires start < |r.slots| && walked <= |r.slots| && r.head == At(start, walked, |r.slots|)
    ensures !FindFree(r, walked).1 ==> FindFree(r, walked).0 == r.(head := start)
    decreases |r.slots| - walked
  {
    if walked < |r.slots| && r.slots[r.head].Some? {
      FindFreeFailureIdle(r.(head := Next(r.head, |r.slots|)), start, walked + 1);
    }
  }

  /** `finalizeLocked` is the eviction loop followed by the settling. */
  lemma FinalizeIsScanThenSettle(r: Ring, key: Key, headers: Headers, body: Bytes, id: nat)
    requires RingInv(r)
    ensures var need := |key| + |headers| + |body|;
      (ScanInv(r, need, 0);
      Finalize(r, key, headers, body, id) ==
        if need > r.capacity then Settle(r, key, headers, body, id)
        else Settle(Scan(r, need, 0).0, key, headers, body, id))
  {
    var need := |key| + |headers| + |body|;
    ScanInv(r, need, 0);
    var r1 := Scan(r, need, 0).0;
    FindFreeFailureIdle(r1, r1.head, 0);
  }
}
