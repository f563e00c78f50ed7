/**
 What each critical section of the cache does to the guarded state, as
 functions on values. `W` is the type of waiter handles.
 */
module Sections {
  import opened Basics
  import opened Ring

  /** A response being streamed by its leader; `id` names that leader. */
  datatype Inflight<W> = Inflight(headers: Option<Headers>, body: Bytes, waiters: seq<W>, id: nat)

  datatype Cache<W> = Cache(ring: Ring, inflight: map<Key, Inflight<W>>)

  datatype Verdict = IsHit | IsLeader | IsFollower

  function Classify<W>(c: Cache<W>, key: Key): Verdict {
    if key in c.ring.index then IsHit else if key in c.inflight then IsFollower else IsLeader
  }

  function PinHit<W>(c: Cache<W>, key: Key): Cache<W>
    requires key in c.ring.index
  {
    c.(ring := Pin(c.ring, c.ring.index[key]))
  }

  function OpenFlight<W>(c: Cache<W>, key: Key, id: nat): Cache<W> {
    c.(inflight := c.inflight[key := Inflight(None, "", [], id)])
  }

  function JoinFlight<W>(c: Cache<W>, key: Key, waiter: W): Cache<W>
    requires key in c.inflight
  {
    c.(inflight := c.inflight[key := c.inflight[key].(waiters := c.inflight[key].waiters + [waiter])])
  }

  /** `lookup`: a hit pins the entry, a miss opens a flight for `id` or joins the open one. */
  function Lookup<W>(c: Cache<W>, key: Key, id: nat, waiter: W): Cache<W> {
    match Classify(c, key)
    case IsHit => PinHit(c, key)
    case IsLeader => OpenFlight(c, key, id)
    case IsFollower => JoinFlight(c, key, waiter)
  }

  /** `publishHeaders` up to the finalization: the first headers stay. */
  function StoreHeaders<W>(c: Cache<W>, key: Key, headers: Headers): Cache<W> {
    if key in c.inflight && c.inflight[key].headers.None?
    then c.(inflight := c.inflight[key := c.inflight[key].(headers := Some(headers))])
    else c
  }

  /** `publishData` up to the finalization: the chunk is appended to the spool. */
  function StoreData<W>(c: Cache<W>, key: Key, data: Bytes): Cache<W> {
    if key in c.inflight
    then c.(inflight := c.inflight[key := c.inflight[key].(body := c.inflight[key].body + data)])
    else c
  }

  /** `finalizeLocked`: store or drop the response, and close the flight. */
  function Close<W>(c: Cache<W>, key: Key): Cache<W>
    requires RingInv(c.ring) && key in c.inflight && c.inflight[key].headers.Some?
  {
    var fl := c.inflight[key];
    Cache(Finalize(c.ring, key, fl.headers.value, fl.body, fl.id), c.inflight - {key})
  }

  /** Remove the first occurrence of `w` by moving the last element into its place. */
  function SwapPop<W(==)>(s: seq<W>, w: W, i: nat): seq<W>
    requires i <= |s|
    decreases |s| - i
  {
    if i == |s| then s
    else if s[i] == w then s[i := s[|s| - 1]][..|s| - 1]
    else SwapPop(s, w, i + 1)
  }

  /** `removeWaiter`. */
  function Remove<W(==)>(c: Cache<W>, key: Key, w: W): Cache<W> {
    if key in c.inflight
    then c.(inflight := c.inflight[key := c.inflight[key].(waiters := SwapPop(c.inflight[key].waiters, w, 0))])
    else c
  }

  ghost predicate NoDuplicates<W(!new)>(s: seq<W>) {
    forall i, j | 0 <= i < j < |s| :: s[i] != s[j]
  }

  lemma UpdateMultiset<W>(s: seq<W>, i: nat, x: W)
    requires i < |s|
    ensures multiset(s[i := x]) + multiset{s[i]} == multiset(s) + multiset{x}
  {
    assert s == s[..i] + [s[i]] + s[i + 1..] && s[i := x] == s[..i] + [x] + s[i + 1..];
  }

  lemma CancelMultiset<W(!new)>(p: multiset<W>, s: multiset<W>, t: multiset<W>, w: W, last: W)
    requires t == p + multiset{last} && t + multiset{w} == s + multiset{last}
    ensures p == s - multiset{w}
  {
    var a, b := p + multiset{w}, s;
    assert a + multiset{last} == b + multiset{last};
    forall x
      ensures a[x] == b[x]
    {
      assert (a + multiset{last})[x] == (b + multiset{last})[x];
    }
    assert a == b;
  }

  /** Swap-and-pop takes out exactly one copy of `w`, if there is one, and nothing else. */
  lemma {:induction false} SwapPopRemovesOne<W(!new)>(s: seq<W>, w: W, i: nat)
    requires i <= |s| && w !in s[..i]
    ensures multiset(SwapPop(s, w, i)) == multiset(s) - multiset{w}
    decreases |s| - i
  {
    if i == |s| {
      assert s[..i] == s;
    } else if s[i] == w {
      var last := s[|s| - 1];
      var t := s[i := last];
      assert t == SwapPop(s, w, i) + [last];
      assert multiset(t) == multiset(SwapPop(s, w, i)) + multiset{last};
      UpdateMultiset(s, i, last);
      CancelMultiset(multiset(SwapPop(s, w, i)), multiset(s), multiset(t), w, last);
    } else {
      assert s[..i + 1] == s[..i] + [s[i]];
      SwapPopRemovesOne(s, w, i + 1);
    }
  }

  /** Without duplicates `w` is gone, and the others are still there without duplicates. */
  lemma SwapPopKeepsOthers<W(!new)>(s: seq<W>, w: W)
    requires NoDuplicates(s)
    ensures NoDuplicates(SwapPop(s, w, 0))
    ensures forall x :: x in SwapPop(s, w, 0) <==> x in s && x != w
  {
    SwapPopPlace(s, w, 0);
  }

  lemma {:induction false} SwapPopPlace<W(!new)>(s: seq<W>, w: W, i: nat)
    requires NoDuplicates(s) && i <= |s| && w !in s[..i]
    ensures NoDuplicates(SwapPop(s, w, i))
    ensures forall x :: x in SwapPop(s, w, i) <==> x in s && x != w
    decreases |s| - i
  {
    if i < |s| && s[i] != w {
      assert s[..i + 1] == s[..i] + [s[i]];
      SwapPopPlace(s, w, i + 1);
    } else if i < |s| {
      var t := SwapPop(s, w, i);
      forall x | x in s && x != w
        ensures x in t
      {
        var j :| 0 <= j < |s| && s[j] == x;
        assert t[if j == |s| - 1 then i else j] == x;
      }
    } else {
      assert s[..i] == s;
    }
  }

  // ---- Flights and entries keep apart ----

  /** An open flight is not cached, and no entry and no other flight has its name. */
  ghost predicate FlightsNamed<W>(c: Cache<W>, names: nat) {
    && (forall k | k in c.inflight :: FlightNamed(c, k, names))
    && (forall k, m | k in c.inflight && m in c.inflight && k != m :: c.inflight[k].id != c.inflight[m].id)
    && (forall i | 0 <= i < |c.ring.slots| && c.ring.slots[i].Some? :: c.ring.slots[i].value.id < names)
  }

  ghost predicate FlightNamed<W>(c: Cache<W>, k: Key, names: nat)
    requires k in c.inflight
  {
    var fl := c.inflight[k];
    Fresh(c.ring, k, fl.id) && fl.id < names && (fl.headers.None? ==> fl.body == "")
  }

  lemma NamesGrow<W>(c: Cache<W>, names: nat)
    requires FlightsNamed(c, names)
    ensures FlightsNamed(c, names + 1)
  {
    forall k | k in c.inflight
      ensures FlightNamed(c, k, names + 1)
    {
      assert FlightNamed(c, k, names);
    }
  }

  lemma FinalizeSlots(r: Ring, key: Key, headers: Headers, body: Bytes, id: nat)
    requires RingInv(r)
    ensures var r' := Finalize(r, key, headers, body, id);
      && |r'.slots| == |r.slots|
      && (forall i | 0 <= i < |r'.slots| && r'.slots[i].Some? ::
            (r.slots[i].Some? && r'.slots[i] == r.slots[i]) || r'.slots[i].value.id == id)
      && r'.index.Keys <= r.index.Keys + {key}
  {
    EvictTillInv(r, |key| + |headers| + |body|);
    EvictTillOnlyEvicts(r, |key| + |headers| + |body|);
  }

  lemma CloseKeeps<W>(c: Cache<W>, key: Key, names: nat)
    requires RingInv(c.ring) && FlightsNamed(c, names) && key in c.inflight && c.inflight[key].headers.Some?
    ensures RingInv(Close(c, key).ring) && FlightsNamed(Close(c, key), names)
  {
    var c', fl := Close(c, key), c.inflight[key];
    assert FlightNamed(c, key, names);
    FinalizeInv(c.ring, key, fl.headers.value, fl.body, fl.id);
    FinalizeSlots(c.ring, key, fl.headers.value, fl.body, fl.id);
    forall k | k in c'.inflight
      ensures FlightNamed(c', k, names)
    {
      assert FlightNamed(c, k, names);
    }
  }

  lemma OpenFlightKeeps<W>(c: Cache<W>, key: Key, names: nat)
    requires FlightsNamed(c, names) && Classify(c, key).IsLeader?
    ensures FlightsNamed(OpenFlight(c, key, names), names + 1)
  {
    var c' := OpenFlight(c, key, names);
    forall k | k in c'.inflight
      ensures FlightNamed(c', k, names + 1)
    {
      if k != key { assert FlightNamed(c, k, names); }
    }
  }

  /** Headers, body and waiters of a flight may change, its name and the entries' names may not. */
  lemma UpdateKeeps<W>(c: Cache<W>, c': Cache<W>, names: nat)
    requires FlightsNamed(c, names)
    requires c'.inflight.Keys == c.inflight.Keys && c'.ring.index == c.ring.index
    requires forall k | k in c.inflight :: c'.inflight[k].id == c.inflight[k].id
    requires forall k | k in c.inflight :: c'.inflight[k].headers.None? ==> c'.inflight[k].body == ""
    requires |c'.ring.slots| == |c.ring.slots|
    requires forall i | 0 <= i < |c'.ring.slots| && c'.ring.slots[i].Some? ::
      c.ring.slots[i].Some? && c'.ring.slots[i].value.id == c.ring.slots[i].value.id
    ensures FlightsNamed(c', names)
  {
    forall k | k in c'.inflight
      ensures FlightNamed(c', k, names)
    {
      assert FlightNamed(c, k, names);
    }
  }

  lemma PinHitKeeps<W>(c: Cache<W>, key: Key, names: nat)
    requires RingInv(c.ring) && FlightsNamed(c, names) && key in c.ring.index
    ensures RingInv(PinHit(c, key).ring) && FlightsNamed(PinHit(c, key), names)
  {
    var c' := PinHit(c, key);
    PinsKeepInv(c.ring, c'.ring.slots);
    assert forall k | k in c.inflight :: FlightNamed(c, k, names);
    UpdateKeeps(c, c', names);
  }

  /** The entry `id` is let go of. */
  function Release<W>(c: Cache<W>, id: nat): Cache<W> {
    c.(ring := Unpin(c.ring, id))
  }

  lemma ReleaseKeeps<W>(c: Cache<W>, id: nat, names: nat)
    requires RingInv(c.ring) && FlightsNamed(c, names)
    ensures RingInv(Release(c, id).ring) && FlightsNamed(Release(c, id), names)
  {
    var c' := Release(c, id);
    PinsKeepInv(c.ring, c'.ring.slots);
    assert forall k | k in c.inflight :: FlightNamed(c, k, names);
    UpdateKeeps(c, c', names);
  }

  /** A pin that is taken and let go of leaves no trace. */
  lemma PinThenRelease<W>(c: Cache<W>, key: Key)
    requires key in c.ring.index
    ensures Release(PinHit(c, key), c.ring.index[key]) == c
  {
    assert Release(PinHit(c, key), c.ring.index[key]).ring.slots == c.ring.slots;
  }

  /** The whole critical section of `publishHeaders`. */
  function PublishHeaders<W>(c: Cache<W>, key: Key, headers: Headers, end: bool): Cache<W>
    requires RingInv(c.ring)
  {
    if key !in c.inflight then c
    else if end then Close(StoreHeaders(c, key, headers), key)
    else StoreHeaders(c, key, headers)
  }

  /** The whole critical section of `publishData`. */
  function PublishData<W>(c: Cache<W>, key: Key, data: Bytes, end: bool): Cache<W>
    requires RingInv(c.ring)
    requires key in c.inflight ==> c.inflight[key].headers.Some?
  {
    if key !in c.inflight then c
    else if end then Close(StoreData(c, key, data), key)
    else StoreData(c, key, data)
  }

  lemma StoreHeadersKeeps<W>(c: Cache<W>, key: Key, headers: Headers, names: nat)
    requires FlightsNamed(c, names)
    ensures FlightsNamed(StoreHeaders(c, key, headers), names)
  {
    assert forall k | k in c.inflight :: FlightNamed(c, k, names);
    UpdateKeeps(c, StoreHeaders(c, key, headers), names);
  }

  lemma StoreDataKeeps<W>(c: Cache<W>, key: Key, data: Bytes, names: nat)
    requires FlightsNamed(c, names) && (key in c.inflight ==> c.inflight[key].headers.Some?)
    ensures FlightsNamed(StoreData(c, key, data), names)
  {
    assert forall k | k in c.inflight :: FlightNamed(c, k, names);
    UpdateKeeps(c, StoreData(c, key, data), names);
  }

  lemma RemoveKeeps<W>(c: Cache<W>, key: Key, w: W, names: nat)
    requires FlightsNamed(c, names)
    ensures FlightsNamed(Remove(c, key, w), names)
  {
    assert forall k | k in c.inflight :: FlightNamed(c, k, names);
    UpdateKeeps(c, Remove(c, key, w), names);
  }
}
