/**
 The cache class itself. Every method runs its critical section to the end and
 is proved against the functions of `Ring` and `Sections`; the posts that a
 publish call makes after its critical section are appended to the dispatchers'
 queues.
 */
module CacheObject {
  import opened Basics
  import Ring
  import Sections
  import Protocol

  type Task = Protocol.Task

  /** A slot's heap object. `id` only names the object. */
  class Entry {
    const key: Key
    const headers: Headers
    const body: Bytes
    const id: nat
    var pins: nat

    constructor (key: Key, headers: Headers, body: Bytes, id: nat)
      ensures this.key == key && this.headers == headers && this.body == body && this.id == id && pins == 0
    {
      this.key, this.headers, this.body, this.id, this.pins := key, headers, body, id, 0;
    }

    function Size(): (n: nat)
    {
      |key| + |headers| + |body|
    }

    ghost function Value(): Ring.Entry
      reads this
    {
      Ring.Entry(key, headers, body, id, pins)
    }
  }

  /** A thread's event loop: closures run in posting order. */
  class Dispatcher {
    /** The number of the thread. */
    const id: nat
    var queue: seq<(Waiter, Task)>

    constructor (id: nat)
      ensures this.id == id && queue == []
    {
      this.id, queue := id, [];
    }

    method Post(w: Waiter, t: Task)
      modifies this
      ensures queue == old(queue) + [(w, t)]
    {
      queue := queue + [(w, t)];
    }

    /** One turn: the oldest closure checks its flag and encodes on its stream. */
    method RunNext()
      requires |queue| > 0
      modifies this, queue[0].0.callbacks
      ensures queue == old(queue)[1..]
      ensures var w := old(queue)[0].0;
        w.callbacks.encoded == if w.cancelled then old(w.callbacks.encoded)
                               else old(w.callbacks.encoded) + EncodeCalls(old(queue)[0].1)
    {
      var (w, t) := queue[0];
      queue := queue[1..];
      if w.cancelled { return; }
      match t
      case Backfill(headers, prefix) =>
        w.callbacks.EncodeHeaders(headers, false);
        if |prefix| > 0 {
          w.callbacks.EncodeData(prefix, false);
        }
      case GiveHeaders(headers, end) =>
        w.callbacks.EncodeHeaders(headers, end);
      case GiveData(data, end) =>
        w.callbacks.EncodeData(data, end);
    }
  }

  /** The encode calls that a closure makes. */
  function EncodeCalls(t: Task): seq<Task> {
    match t
    case Backfill(headers, prefix) =>
      [Protocol.GiveHeaders(headers, false)] + (if |prefix| > 0 then [Protocol.GiveData(prefix, false)] else [])
    case _ => [t]
  }

  /** The stream's side of the filter chain; it records the encode calls it receives. */
  class StreamCallbacks {
    const dispatcher: Dispatcher
    var encoded: seq<Task>

    constructor (dispatcher: Dispatcher)
      ensures this.dispatcher == dispatcher && encoded == []
    {
      this.dispatcher, encoded := dispatcher, [];
    }

    method EncodeHeaders(headers: Headers, end: bool)
      modifies this
      ensures encoded == old(encoded) + [Protocol.GiveHeaders(headers, end)]
    {
      encoded := encoded + [Protocol.GiveHeaders(headers, end)];
    }

    method EncodeData(data: Bytes, end: bool)
      modifies this
      ensures encoded == old(encoded) + [Protocol.GiveData(data, end)]
    {
      encoded := encoded + [Protocol.GiveData(data, end)];
    }
  }

  /** The handle shared between a follower's filter and the cache. */
  class Waiter {
    /** The number of the stream. */
    const stream: nat
    const dispatcher: Dispatcher
    const callbacks: StreamCallbacks
    var cancelled: bool

    constructor (stream: nat, callbacks: StreamCallbacks)
      ensures this.stream == stream && this.dispatcher == callbacks.dispatcher && this.callbacks == callbacks && !cancelled
    {
      this.stream, this.dispatcher, this.callbacks, this.cancelled := stream, callbacks.dispatcher, callbacks, false;
    }
  }

  type Inflight = Sections.Inflight<Waiter>

  /** `pin` is the entry that a served body keeps in use, if there is a body. */
  datatype LookupResult =
    | Hit(headers: Headers, body: Bytes, pin: Option<Entry>)
    | Leader
    | Follower(waiter: Waiter)

  /** The slot content `o` is described by `v`. */
  ghost predicate Agrees(o: Entry?, v: Option<Ring.Entry>)
    reads o
  {
    if o == null then v.None? else v == Some(o.Value())
  }

  /** The key index with objects replaced by their names. */
  ghost function Names(m: map<Key, Entry>): (n: map<Key, nat>)
    ensures n.Keys == m.Keys
  {
    map k | k in m :: m[k].id
  }

  lemma NamesMinus(m: map<Key, Entry>, key: Key)
    ensures Names(m - {key}) == Names(m) - {key}
  {}

  lemma NamesPlus(m: map<Key, Entry>, key: Key, e: Entry)
    ensures Names(m[key := e]) == Names(m)[key := e.id]
  {}

  lemma FinalizeRoom(r: Ring.Ring, key: Key, size: nat)
    requires Ring.RingInv(r) && key !in r.index
    ensures var (r', ok) := Ring.EvictTill(r, size);
      r'.head < |r'.slots| && key !in r'.index && (ok ==> r'.slots[r'.head].None?)
  {
    Ring.EvictTillInv(r, size);
    Ring.EvictTillOnlyEvicts(r, size);
  }

  /** The closures that a broadcast of `t` puts on dispatcher `d`. */
  ghost function Posted(d: Dispatcher, waiters: seq<Waiter>, t: Task): seq<(Waiter, Task)> {
    if |waiters| == 0 then [] else
      var w := waiters[|waiters| - 1];
      Posted(d, waiters[..|waiters| - 1], t) + (if w.dispatcher == d then [(w, t)] else [])
  }

  /** What a new follower of `fl` finds on its dispatcher: everything published so far. */
  ghost function BackfillPosts(waiter: Waiter, fl: Inflight): seq<(Waiter, Task)> {
    match fl.headers
    case None => []
    case Some(h) => [(waiter, Protocol.Backfill(h, fl.body))]
  }

  /** A slot of the ring holds what `e` holds. */
  ghost predicate Stored(r: Ring.Ring, e: Entry) {
    exists i :: 0 <= i < |r.slots| && r.slots[i].Some?
      && r.slots[i].value == Ring.Entry(e.key, e.headers, e.body, e.id, r.slots[i].value.pins)
  }

  /** What lookup number `streams`, of `key` in the state `before`, answers, and the state it leaves. */
  ghost predicate Answered(before: Sections.Cache<Waiter>, after: Sections.Cache<Waiter>, cacheMap: map<Key, Entry>,
                           streams: nat, key: Key, callbacks: StreamCallbacks, result: LookupResult)
  {
    match Sections.Classify(before, key)
    case IsHit =>
      && key in cacheMap
      && var e := cacheMap[key];
      && result == Hit(e.headers, e.body, if e.body == "" then None else Some(e))
      && e.key == key && e.id == before.ring.index[key] && Stored(before.ring, e)
      && after == (if e.body == "" then before else Sections.PinHit(before, key))
    case IsLeader =>
      result == Leader && after == Sections.OpenFlight(before, key, streams)
    case IsFollower =>
      && result.Follower? && result.waiter.stream == streams
      && result.waiter.callbacks == callbacks && result.waiter.dispatcher == callbacks.dispatcher
      && after == Sections.JoinFlight(before, key, result.waiter)
  }

  ghost function LookupPosts(before: Sections.Cache<Waiter>, key: Key, result: LookupResult): seq<(Waiter, Task)> {
    if result.Follower? && key in before.inflight then BackfillPosts(result.waiter, before.inflight[key]) else []
  }

  /** A post loop over a snapshot of waiters. */
  method PostToAll(waiters: seq<Waiter>, t: Task)
    modifies set w | w in waiters :: w.dispatcher
    ensures forall w | w in waiters :: w.dispatcher.queue == old(w.dispatcher.queue) + Posted(w.dispatcher, waiters, t)
  {
    for i := 0 to |waiters|
      invariant forall w | w in waiters ::
        w.dispatcher.queue == old(w.dispatcher.queue) + Posted(w.dispatcher, waiters[..i], t)
    {
      assert waiters[..i + 1][..i] == waiters[..i];
      waiters[i].dispatcher.Post(waiters[i], t);
    }
    assert waiters[..|waiters|] == waiters;
  }

  class RingBufferCache {
    const capacity: nat
    const slots: array<Entry?>
    var usedSize: nat
    var head: nat
    var cacheMap: map<Key, Entry>
    var inflightMap: map<Key, Inflight>
    /** Counts the lookups. Each stream looks up once, so the count names the stream, and the flight that it opens. */
    var streams: nat

    /** What the slots hold. */
    ghost var table: Ring.Slots

    /** The guarded state as values. */
    ghost function AsRing(): Ring.Ring
      reads this
    {
      Ring.Ring(capacity, table, head, usedSize, Names(cacheMap))
    }

    ghost function AsCache(): Sections.Cache<Waiter>
      reads this
    {
      Sections.Cache(AsRing(), inflightMap)
    }

    /** The table describes the slots, and the map points at the slots' own objects. */
    ghost predicate Mirror()
      reads this`table, this`cacheMap, slots, slots[..]
    {
      && |table| == slots.Length
      && (forall i | 0 <= i < slots.Length :: Agrees(slots[i], table[i]))
      && (forall i | 0 <= i < slots.Length && slots[i] != null ::
            slots[i].key in cacheMap && cacheMap[slots[i].key] == slots[i])
    }

    ghost predicate Valid()
      reads this, slots, slots[..]
    {
      Ring.RingInv(AsRing()) && Mirror() && Sections.FlightsNamed(AsCache(), streams)
    }

    constructor (capacity: nat, slotCount: nat)
      requires slotCount > 0
      ensures Valid() && fresh(slots)
      ensures AsCache() == Sections.Cache(Ring.Empty(capacity, slotCount), map[])
    {
      this.capacity := capacity;
      slots := new Entry?[slotCount](_ => null);
      usedSize, head, cacheMap, inflightMap, streams := 0, 0, map[], map[], 0;
      table := Ring.Empty(capacity, slotCount).slots;
      new;
      Ring.EmptyInv(capacity, slotCount);
      assert AsRing() == Ring.Empty(capacity, slotCount);
    }

    // ---- Under the lock ----

    /** No other slot has the key of the head entry, and its size is accounted for. */
    ghost predicate HeadAlone()
      requires head < slots.Length && slots[head] != null
      reads this`head, this`usedSize, slots
    {
      && slots[head].Size() <= usedSize
      && (forall i | 0 <= i < slots.Length && i != head && slots[i] != null :: slots[i].key != slots[head].key)
    }

    lemma HeadIsAlone()
      requires Ring.RingInv(AsRing()) && Mirror()
      ensures slots[head] != null ==> HeadAlone()
    {
      Ring.SlotInTotal(table, head);
      assert forall i | 0 <= i < slots.Length :: Agrees(slots[i], table[i]);
    }

    method EvictHeadLocked()
      requires head < slots.Length && Mirror() && slots[head] != null && HeadAlone() && slots[head].pins == 0
      modifies this`usedSize, this`cacheMap, this`table, slots
      ensures Mirror() && |old(table)| == slots.Length && old(table[head].Some?)
      ensures old(table[head] == Some(slots[head].Value()))
      ensures AsRing() == Ring.EvictHead(old(AsRing()))
      ensures slots[head] == null && forall i | 0 <= i < slots.Length && i != head :: slots[i] == old(slots[i])
    {
      var entry := slots[head];
      assert Agrees(entry, table[head]);
      NamesMinus(cacheMap, entry.key);
      usedSize := usedSize - entry.Size();
      cacheMap := cacheMap - {entry.key};
      slots[head] := null;
      table := table[head := None];
    }

    method FindFreeSlot() returns (ok: bool)
      requires head < slots.Length && Mirror()
      modifies this`head
      ensures (AsRing(), ok) == Ring.FindFree(old(AsRing()), 0)
    {
      var start := head;
      ghost var walked := 0;
      while slots[head] != null
        invariant walked < slots.Length && head == Ring.At(start, walked, slots.Length)
        invariant Ring.FindFree(old(AsRing()), 0) == Ring.FindFree(AsRing(), walked)
        decreases slots.Length - walked
      {
        assert Agrees(slots[head], table[head]);
        head := Ring.Next(head, slots.Length);
        walked := walked + 1;
        if head == start { return false; }
      }
      assert Agrees(slots[head], table[head]);
      ok := true;
    }

    /** If it returns true, `head` points to a free slot and the bytes fit. */
    method EvictTillCapacityLocked(sizeNeeded: nat) returns (ok: bool)
      requires Ring.RingInv(AsRing()) && Mirror()
      modifies this`usedSize, this`head, this`cacheMap, this`table, slots
      ensures Mirror() && (AsRing(), ok) == Ring.EvictTill(old(AsRing()), sizeNeeded)
    {
      if sizeNeeded > capacity { return false; }
      Ring.ScanInv(AsRing(), sizeNeeded, 0);
      ok := EvictForSpace(sizeNeeded);
      if ok {
        ok := FindFreeSlot();
      }
    }

    /** The eviction loop. */
    method EvictForSpace(sizeNeeded: nat) returns (ok: bool)
      requires head < slots.Length && Ring.RingInv(AsRing()) && Mirror()
      modifies this`usedSize, this`head, this`cacheMap, this`table, slots
      ensures Mirror() && (AsRing(), ok) == Ring.Scan(old(AsRing()), sizeNeeded, 0)
    {
      hide Ring.RingInv;
      var start := head;
      ghost var visited := 0;
      while capacity - usedSize < sizeNeeded
        invariant Ring.RingInv(AsRing()) && Mirror()
        invariant visited <= slots.Length && head == Ring.At(start, visited, slots.Length)
        invariant visited == slots.Length ==> Ring.Fits(AsRing(), sizeNeeded)
        invariant Ring.Scan(old(AsRing()), sizeNeeded, 0) == Ring.Scan(AsRing(), sizeNeeded, visited)
        decreases slots.Length - visited
      {
        Ring.ScanUnfold(AsRing(), sizeNeeded, visited);
        HeadIsAlone();
        VisitHead();
        visited := visited + 1;
        if start == head && capacity - usedSize < sizeNeeded { return false; }
      }
      ok := true;
    }

    /** One turn of the eviction loop. */
    method VisitHead()
      requires head < slots.Length && Mirror() && (slots[head] != null ==> HeadAlone())
      modifies this`usedSize, this`head, this`cacheMap, this`table, slots
      ensures Mirror() && |old(table)| == slots.Length && old(Agrees(slots[head], table[head]))
      ensures AsRing() == Ring.Turn(old(AsRing()))
    {
      assert Agrees(slots[head], table[head]);
      if slots[head] != null && slots[head].pins == 0 {
        EvictHeadLocked();
      }
      head := Ring.Next(head, slots.Length);
    }

    method InsertEntryLocked(key: Key, headers: Headers, body: Bytes, id: nat)
      requires head < slots.Length && Mirror() && slots[head] == null && key !in cacheMap
      modifies this`usedSize, this`head, this`cacheMap, this`table, slots
      ensures Mirror() && |old(table)| == slots.Length
      ensures AsRing() == Ring.Insert(old(AsRing()), key, headers, body, id)
    {
      var slot := new Entry(key, headers, body, id);
      NamesPlus(cacheMap, key, slot);
      slots[head] := slot;
      cacheMap := cacheMap[key := slot];
      table := table[head := Some(slot.Value())];
      head := Ring.Next(head, slots.Length);
      usedSize := usedSize + slot.Size();
    }

    /** Moves a finished response into the ring, or drops it when there is no room. */
    method FinalizeLocked(key: Key)
      requires Valid() && key in inflightMap && inflightMap[key].headers.Some?
      modifies this`usedSize, this`head, this`cacheMap, this`table, this`inflightMap, slots
      ensures Valid()
      ensures AsCache() == Sections.Close(old(AsCache()), key)
    {
      hide Ring.RingInv, Ring.EvictTill;
      var inflight := inflightMap[key];
      var size := |inflight.headers.value| + |inflight.body| + |key|;
      ghost var c := AsCache();
      FinalizeRoom(c.ring, key, size);
      Sections.CloseKeeps(c, key, streams);
      var fits := EvictTillCapacityLocked(size);
      if fits {
        assert Agrees(slots[head], table[head]);
        InsertEntryLocked(key, inflight.headers.value, inflight.body, inflight.id);
      }
      inflightMap := inflightMap - {key};
      assert AsCache() == Sections.Close(c, key);
    }

    /** Registers the waiter and queues the backfill. */
    method AttachBackfillWaiterLocked(key: Key, waiter: Waiter)
      requires Valid() && key in inflightMap
      modifies this`inflightMap, waiter.dispatcher
      ensures Valid()
      ensures AsCache() == Sections.JoinFlight(old(AsCache()), key, waiter)
      ensures waiter.dispatcher.queue == old(waiter.dispatcher.queue) + BackfillPosts(waiter, old(inflightMap[key]))
    {
      var inflight := inflightMap[key];
      assert Sections.FlightNamed(AsCache(), key, streams);
      Sections.UpdateKeeps(AsCache(), Sections.JoinFlight(AsCache(), key, waiter), streams) by {
        assert forall k | k in inflightMap :: Sections.FlightNamed(AsCache(), k, streams);
      }
      inflightMap := inflightMap[key := inflight.(waiters := inflight.waiters + [waiter])];
      if inflight.headers.None? {
        return;
      }
      waiter.dispatcher.Post(waiter, Protocol.Backfill(inflight.headers.value, inflight.body));
    }

    // ---- Public methods ----

    /** `e` is the object in slot `i` and in no other slot. */
    ghost predicate OnlyAt(e: Entry, i: nat)
      reads this`table, slots
    {
      && i < slots.Length == |table| && slots[i] == e
      && (forall j | 0 <= j < slots.Length && j != i :: slots[j] != e)
      && (forall j | 0 <= j < slots.Length && j != i && table[j].Some? :: table[j].value.id != e.id)
    }

    /** The slot of a cached key. */
    lemma CachedSlot(key: Key) returns (i: nat)
      requires Ring.RingInv(AsRing()) && Mirror() && key in cacheMap
      ensures OnlyAt(cacheMap[key], i)
      ensures cacheMap[key].key == key && AsRing().index[key] == cacheMap[key].id && Stored(AsRing(), cacheMap[key])
    {
      assert Ring.Holds(table, key, AsRing().index[key]);
      i :| 0 <= i < |table| && table[i].Some? && table[i].value.key == key && table[i].value.id == AsRing().index[key];
      assert Agrees(slots[i], table[i]);
      assert forall j | 0 <= j < slots.Length :: Agrees(slots[j], table[j]);
    }

    method AddPin(entry: Entry, ghost i: nat)
      requires Mirror() && OnlyAt(entry, i)
      modifies this`table, entry
      ensures Mirror() && table == Ring.Pin(old(AsRing()), entry.id).slots
    {
      assert Agrees(slots[i], table[i]);
      entry.pins := entry.pins + 1;
      table := Ring.Pin(AsRing(), entry.id).slots;
    }

    method DropPin(entry: Entry, ghost i: nat)
      requires Mirror() && OnlyAt(entry, i) && entry.pins > 0
      modifies this`table, entry
      ensures Mirror() && table == Ring.Unpin(old(AsRing()), entry.id).slots
    {
      assert Agrees(slots[i], table[i]);
      entry.pins := entry.pins - 1;
      table := Ring.Unpin(AsRing(), entry.id).slots;
    }

    /** A served hit lets go of its entry once its body has been sent. */
    method ReleasePin(entry: Entry)
      requires Valid() && entry.key in cacheMap && cacheMap[entry.key] == entry && entry.pins > 0
      modifies this`table, entry
      ensures Valid() && entry.pins == old(entry.pins) - 1
      ensures AsCache() == Sections.Release(old(AsCache()), entry.id)
    {
      hide Ring.RingInv, Sections.FlightsNamed;
      ghost var c := AsCache();
      ghost var i := CachedSlot(entry.key);
      Sections.ReleaseKeeps(c, entry.id, streams);
      assert Agrees(slots[i], table[i]);
      DropPin(entry, i);
      assert Agrees(slots[i], table[i]);
      assert AsRing() == Ring.Unpin(c.ring, entry.id);
    }

    /** The entry is pinned under the lock; without a body the pin is dropped once the headers are copied. */
    method ServeHit(key: Key) returns (result: LookupResult)
      requires Valid() && key in cacheMap
      modifies this`table, this`streams, cacheMap[key]
      ensures Valid() && streams == old(streams) + 1
      ensures var e := cacheMap[key];
        && result == Hit(e.headers, e.body, if e.body == "" then None else Some(e))
        && e.key == key && e.id == old(AsRing()).index[key] && Stored(old(AsRing()), e)
        && AsCache() == (if e.body == "" then old(AsCache()) else Sections.PinHit(old(AsCache()), key))
        && (e.body != "" ==> e.pins > 0)
    {
      hide Ring.RingInv, Sections.FlightsNamed;
      var entry := cacheMap[key];
      ghost var c := AsCache();
      ghost var i := CachedSlot(key);
      AddPin(entry, i);
      Sections.PinHitKeeps(c, key, streams);
      Sections.NamesGrow(c, streams);
      Sections.NamesGrow(Sections.PinHit(c, key), streams);
      streams := streams + 1;
      if entry.body == "" {
        assert Agrees(slots[i], table[i]);
        DropPin(entry, i);
        Sections.PinThenRelease(c, key);
        return Hit(entry.headers, entry.body, None);
      }
      return Hit(entry.headers, entry.body, Some(entry));
    }

    method BecomeLeader(key: Key) returns (result: LookupResult)
      requires Valid() && key !in cacheMap && key !in inflightMap
      modifies this`inflightMap, this`streams
      ensures Valid() && streams == old(streams) + 1
      ensures result == Leader && AsCache() == Sections.OpenFlight(old(AsCache()), key, old(streams))
    {
      Sections.OpenFlightKeeps(AsCache(), key, streams);
      inflightMap := inflightMap[key := Sections.Inflight(None, "", [], streams)];
      streams := streams + 1;
      result := Leader;
    }

    method BecomeFollower(key: Key, callbacks: StreamCallbacks) returns (result: LookupResult)
      requires Valid() && key in inflightMap
      modifies this`inflightMap, this`streams, callbacks.dispatcher
      ensures Valid() && streams == old(streams) + 1
      ensures result.Follower? && fresh(result.waiter) && !result.waiter.cancelled && result.waiter.stream == old(streams)
      ensures result.waiter.callbacks == callbacks && result.waiter.dispatcher == callbacks.dispatcher
      ensures AsCache() == Sections.JoinFlight(old(AsCache()), key, result.waiter)
      ensures callbacks.dispatcher.queue == old(callbacks.dispatcher.queue) + BackfillPosts(result.waiter, old(inflightMap[key]))
    {
      var waiter := new Waiter(streams, callbacks);
      AttachBackfillWaiterLocked(key, waiter);
      Sections.NamesGrow(AsCache(), streams);
      streams := streams + 1;
      result := Follower(waiter);
    }

    /** Hit, leader or follower, decided atomically. A hit's body keeps its entry pinned. */
    method Lookup(key: Key, callbacks: StreamCallbacks) returns (result: LookupResult)
      requires Valid()
      modifies this`table, this`inflightMap, this`streams, callbacks.dispatcher, if key in cacheMap then {cacheMap[key]} else {}
      ensures Valid() && streams == old(streams) + 1
      ensures Answered(old(AsCache()), AsCache(), old(cacheMap), old(streams), key, callbacks, result)
      ensures callbacks.dispatcher.queue == old(callbacks.dispatcher.queue) + LookupPosts(old(AsCache()), key, result)
      ensures result.Follower? ==> fresh(result.waiter) && !result.waiter.cancelled
      ensures result.Hit? && result.pin.Some? ==>
        var e := result.pin.value; e.key in cacheMap && cacheMap[e.key] == e && e.pins > 0
    {
      hide Valid;
      if key in cacheMap {
        result := ServeHit(key);
      } else if key !in inflightMap {
        result := BecomeLeader(key);
      } else {
        result := BecomeFollower(key, callbacks);
      }
    }

    /** The dispatchers that a publish call for `key` posts to. */
    ghost function Audience(key: Key): set<Dispatcher>
      reads this`inflightMap
    {
      set w | key in inflightMap && w in inflightMap[key].waiters :: w.dispatcher
    }

    /** The locked part of `PublishHeaders`; returns the snapshots. */
    method StoreHeadersLocked(key: Key, responseHeaders: Headers, endStream: bool)
      returns (waitersCopy: seq<Waiter>, headerCopy: Headers)
      requires Valid() && key in inflightMap
      modifies this`usedSize, this`head, this`cacheMap, this`table, this`inflightMap, slots
      ensures Valid()
      ensures waitersCopy == old(inflightMap[key].waiters)
      ensures headerCopy == old(inflightMap[key].headers).GetOr(responseHeaders)
      ensures AsCache() == Sections.PublishHeaders(old(AsCache()), key, responseHeaders, endStream)
    {
      Sections.StoreHeadersKeeps(AsCache(), key, responseHeaders, streams);
      if inflightMap[key].headers.None? {
        inflightMap := inflightMap[key := inflightMap[key].(headers := Some(responseHeaders))];
      }
      waitersCopy, headerCopy := inflightMap[key].waiters, inflightMap[key].headers.value;
      if endStream { FinalizeLocked(key); }
    }

    /** Leader only: the headers are kept for later followers and given to the present ones. */
    method PublishHeaders(key: Key, responseHeaders: Headers, endStream: bool)
      requires Valid()
      modifies this`usedSize, this`head, this`cacheMap, this`table, this`inflightMap, slots, Audience(key)
      ensures Valid()
      ensures AsCache() == Sections.PublishHeaders(old(AsCache()), key, responseHeaders, endStream)
      ensures old(key in inflightMap) ==>
        var fl := old(inflightMap[key]);
        forall w | w in fl.waiters :: w.dispatcher.queue == old(w.dispatcher.queue) +
          Posted(w.dispatcher, fl.waiters, Protocol.GiveHeaders(fl.headers.GetOr(responseHeaders), endStream))
    {
      hide Valid;
      if key !in inflightMap { return; }
      var waitersCopy, headerCopy := StoreHeadersLocked(key, responseHeaders, endStream);
      PostToAll(waitersCopy, Protocol.GiveHeaders(headerCopy, endStream));
    }

    /** The locked part of `PublishData`; returns the snapshot. */
    method StoreDataLocked(key: Key, data: Bytes, endStream: bool) returns (waitersCopy: seq<Waiter>)
      requires Valid() && key in inflightMap && inflightMap[key].headers.Some?
      modifies this`usedSize, this`head, this`cacheMap, this`table, this`inflightMap, slots
      ensures Valid()
      ensures waitersCopy == old(inflightMap[key].waiters)
      ensures AsCache() == Sections.PublishData(old(AsCache()), key, data, endStream)
    {
      Sections.StoreDataKeeps(AsCache(), key, data, streams);
      inflightMap := inflightMap[key := inflightMap[key].(body := inflightMap[key].body + data)];
      waitersCopy := inflightMap[key].waiters;
      if endStream { FinalizeLocked(key); }
    }

    /** Leader only, after its headers: the chunk is spooled for later followers and given to the present ones. */
    method PublishData(key: Key, data: Bytes, endStream: bool)
      requires Valid() && (key in inflightMap ==> inflightMap[key].headers.Some?)
      modifies this`usedSize, this`head, this`cacheMap, this`table, this`inflightMap, slots, Audience(key)
      ensures Valid()
      ensures AsCache() == Sections.PublishData(old(AsCache()), key, data, endStream)
      ensures old(key in inflightMap) ==>
        var fl := old(inflightMap[key]);
        forall w | w in fl.waiters :: w.dispatcher.queue == old(w.dispatcher.queue) +
          Posted(w.dispatcher, fl.waiters, Protocol.GiveData(data, endStream))
    {
      hide Valid;
      if key !in inflightMap { return; }
      var waitersCopy := StoreDataLocked(key, data, endStream);
      PostToAll(waitersCopy, Protocol.GiveData(data, endStream));
    }

    /** A follower that leaves early takes its handle back. */
    method RemoveWaiter(key: Key, waiter: Waiter)
      requires Valid()
      modifies this`inflightMap
      ensures Valid()
      ensures AsCache() == Sections.Remove(old(AsCache()), key, waiter)
    {
      if key !in inflightMap { return; }
      Sections.RemoveKeeps(AsCache(), key, waiter, streams);
      var waiters := inflightMap[key].waiters;
      var i := 0;
      while i < |waiters|
        invariant i <= |waiters|
        invariant Sections.SwapPop(waiters, waiter, 0) == Sections.SwapPop(waiters, waiter, i)
      {
        if waiters[i] == waiter {
          var last := waiters[|waiters| - 1];
          waiters := waiters[i := last][..|waiters| - 1];
          inflightMap := inflightMap[key := inflightMap[key].(waiters := waiters)];
          return;
        }
        i := i + 1;
      }
      assert inflightMap[key].(waiters := waiters) == inflightMap[key];
      assert inflightMap[key := inflightMap[key]] == inflightMap;
    }
  }
}
