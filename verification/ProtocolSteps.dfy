/** Every step keeps the invariant. */
module ProtocolSteps {
  import opened Basics
  import opened Ring
  import opened Sections
  import opened Protocol
  import opened StreamFacts

  // ---- Parts that a step leaves alone ----

  predicate Waiting(s: System, f: nat)
    requires f in s.followers
  {
    s.followers[f].key in s.cache.inflight && f in s.cache.inflight[s.followers[f].key].waiters
  }

  /** A follower is fine in `s'` when nothing that concerns it has moved, save along its path. */
  lemma FollowerFrame(s: System, s': System, f: nat)
    requires f in s.followers && FollowerOk(s, f) && Delivery(s, f)
    requires f in s'.followers && s'.followers[f] == s.followers[f]
    requires s.followers[f].leader in s'.leaders
    requires s'.leaders[s.followers[f].leader].(posts := []) == s.leaders[s.followers[f].leader].(posts := [])
    requires View(s', f) == View(s, f)
    requires Waiting(s, f) && !s.leaders[s.followers[f].leader].ended ==> Waiting(s', f)
    ensures FollowerOk(s', f) && Delivery(s', f)
  {
    assert Content(s'.leaders[s.followers[f].leader]) == Content(s.leaders[s.followers[f].leader]);
  }

  lemma StreamsFrame(s: System, s': System)
    requires Streams(s)
    requires s'.followers == s.followers && s'.queues == s.queues && s'.leaders == s.leaders
    requires s'.cache.inflight == s.cache.inflight
    ensures Streams(s')
  {
    forall f | f in s'.followers
      ensures FollowerOk(s', f) && Delivery(s', f)
    {
      FollowerFrame(s, s', f);
    }
  }

  lemma FlightsFrame(s: System, s': System)
    requires Flights(s)
    requires s'.leaders == s.leaders && s'.cache.inflight == s.cache.inflight
    requires s'.cache.ring.index.Keys <= s.cache.ring.index.Keys
    requires s.followers.Keys <= s'.followers.Keys
    requires forall f | f in s.followers :: s'.followers[f].leader == s.followers[f].leader
    requires s'.lock == s.lock || (s.lock.Scanning? && s'.lock.Scanning? && s.lock.leader == s'.lock.leader)
    ensures Flights(s')
  {
    forall k | k in s'.cache.inflight
      ensures FlightOk(s', k)
    {
      assert FlightOk(s, k);
    }
  }

  /** A post for somebody else does not change what is queued for `f`. */
  lemma MineOther(f: nat, posts: seq<Post>, p: Post)
    requires p.waiter != f
    ensures Mine(f, posts + [p]) == Mine(f, posts)
  {
    MinePush(f, posts, p);
  }

  // ---- ReleasePin ----

  lemma OutstandingRelease(hits: map<nat, HitStream>, h: nat, id: nat)
    requires h in hits && !hits[h].released
    ensures var hits' := hits[h := hits[h].(released := true)];
      |Outstanding(hits', id)| == |Outstanding(hits, id)| - (if hits[h].entry == id then 1 else 0)
  {
    var hits' := hits[h := hits[h].(released := true)];
    assert Outstanding(hits', id) == Outstanding(hits, id) - {h};
  }

  lemma ReleaseStore(s: System, s': System, id: nat)
    requires Store(s) && s'.leaders == s.leaders && s'.finished == s.finished && s'.lock == s.lock
    requires s'.cache.ring == Unpin(s.cache.ring, id)
    ensures Store(s')
  {
    PinsKeepInv(s.cache.ring, s'.cache.ring.slots);
    forall i | 0 <= i < |s'.cache.ring.slots| && s'.cache.ring.slots[i].Some?
      ensures EntryOk(s', s'.cache.ring.slots[i].value)
    {
      assert EntryOk(s, s.cache.ring.slots[i].value);
    }
  }

  lemma ReleasePins(s: System, s': System, h: nat)
    requires Pins(s) && s'.leaders == s.leaders && s'.lock == s.lock && h in s.hits && !s.hits[h].released
    requires s'.hits == s.hits[h := s.hits[h].(released := true)]
    requires s'.cache.ring == Unpin(s.cache.ring, s.hits[h].entry)
    ensures Pins(s')
  {
    forall i | 0 <= i < |s'.cache.ring.slots| && s'.cache.ring.slots[i].Some?
      ensures s'.cache.ring.slots[i].value.pins == |Outstanding(s'.hits, s'.cache.ring.slots[i].value.id)|
    {
      OutstandingRelease(s.hits, h, s.cache.ring.slots[i].value.id);
    }
    forall g | g in s'.hits
      ensures HitOk(s', s'.hits[g])
    {
      assert HitOk(s, s.hits[g]);
      if !s'.hits[g].released {
        var i :| Lives(s.cache.ring, s.hits[g].entry, i);
        assert Lives(s'.cache.ring, s.hits[g].entry, i);
      }
    }
  }

  lemma ReleaseKeeps(s: System, h: nat)
    requires Inv(s) && Enabled(s, ReleasePin(h))
    ensures Inv(Apply(s, ReleasePin(h)))
  {
    var s' := Apply(s, ReleasePin(h));
    StreamsFrame(s, s');
    FlightsFrame(s, s');
    ReleaseStore(s, s', s.hits[h].entry);
    ReleasePins(s, s', h);
  }

  // ---- VisitSlot ----

  /** The heart of pin safety: a slot visit cannot remove the entry of an unreleased hit. */
  lemma VisitSpares(s: System, h: nat) returns (i: nat)
    requires RingInv(s.cache.ring) && Pins(s) && h in s.hits && !s.hits[h].released
    ensures Lives(s.cache.ring, s.hits[h].entry, i)
    ensures Lives(Visit(s.cache.ring), s.hits[h].entry, i)
    ensures Visit(s.cache.ring).slots[i] == s.cache.ring.slots[i]
  {
    assert HitOk(s, s.hits[h]);
    i :| Lives(s.cache.ring, s.hits[h].entry, i);
    assert h in Outstanding(s.hits, s.hits[h].entry);
    assert s.cache.ring.slots[i].value.pins > 0;
  }

  lemma VisitStore(s: System, s': System)
    requires Store(s) && s'.leaders == s.leaders && s'.finished == s.finished
    requires s.lock.Scanning? && s'.lock.Scanning? && s'.lock.leader == s.lock.leader
    requires s'.cache.ring == Visit(s.cache.ring)
    ensures Store(s')
  {
    VisitInv(s.cache.ring);
    forall i | 0 <= i < |s'.cache.ring.slots| && s'.cache.ring.slots[i].Some?
      ensures EntryOk(s', s'.cache.ring.slots[i].value)
    {
      assert EntryOk(s, s.cache.ring.slots[i].value);
    }
  }

  lemma VisitPins(s: System, s': System)
    requires RingInv(s.cache.ring) && Pins(s) && s'.hits == s.hits && s'.leaders == s.leaders
    requires s.lock.Scanning? && s'.lock.Scanning? && s'.lock.leader == s.lock.leader
    requires s'.cache.ring == Visit(s.cache.ring)
    ensures Pins(s')
  {
    VisitInv(s.cache.ring);
    forall h | h in s'.hits
      ensures HitOk(s', s'.hits[h])
    {
      assert HitOk(s, s.hits[h]);
      if !s.hits[h].released {
        var i := VisitSpares(s, h);
      }
    }
  }

  lemma VisitKeeps(s: System)
    requires Inv(s) && Enabled(s, VisitSlot)
    ensures Inv(Apply(s, VisitSlot))
  {
    var s' := Apply(s, VisitSlot);
    StreamsFrame(s, s');
    FlightsFrame(s, s');
    VisitStore(s, s');
    VisitPins(s, s');
  }

  // ---- FinishScan ----

  /** The closing flight is that of the lock holder. */
  lemma ClosingFlight(s: System)
    requires Inv(s) && s.lock.Scanning?
    ensures var l := s.lock.leader;
      && l in s.leaders && s.leaders[l].ended && s.leaders[l].headers.Some?
      && s.leaders[l].key in s.cache.inflight && s.cache.inflight[s.leaders[l].key].id == l
      && FlightOk(s, s.leaders[l].key)
      && Fresh(s.cache.ring, s.leaders[l].key, l)
  {
    var l := s.lock.leader;
    assert LeaderOk(s.leaders[l]) && Open(s, l);
    assert FlightOk(s, s.leaders[l].key);
    forall i | 0 <= i < |s.cache.ring.slots| && s.cache.ring.slots[i].Some?
      ensures s.cache.ring.slots[i].value.id != l
    {
      assert EntryOk(s, s.cache.ring.slots[i].value);
    }
  }

  /** Settling keeps every slot but a free one, which may receive the new entry. */
  lemma SettleSlots(r: Ring, key: Key, headers: Headers, body: Bytes, id: nat)
    requires r.head < |r.slots|
    ensures var r' := Settle(r, key, headers, body, id);
      && |r'.slots| == |r.slots|
      && (forall i | 0 <= i < |r.slots| :: r'.slots[i] == r.slots[i]
            || (r.slots[i].None? && r'.slots[i] == Some(Entry(key, headers, body, id, 0))))
      && r'.index.Keys <= r.index.Keys + {key}
  {
    FindFreeInv(r, 0);
  }

  lemma FinishStore(s: System)
    requires Inv(s) && Enabled(s, FinishScan)
    ensures Store(FinishStep(s)) && Pins(FinishStep(s))
  {
    var s', l := FinishStep(s), s.lock.leader;
    ClosingFlight(s);
    var fl := s.cache.inflight[s.leaders[l].key];
    SettleInv(s.cache.ring, s.leaders[l].key, fl.headers.value, fl.body, l);
    SettleSlots(s.cache.ring, s.leaders[l].key, fl.headers.value, fl.body, l);
    forall i | 0 <= i < |s'.cache.ring.slots| && s'.cache.ring.slots[i].Some?
      ensures EntryOk(s', s'.cache.ring.slots[i].value)
    {
      if s'.cache.ring.slots[i] == s.cache.ring.slots[i] { assert EntryOk(s, s.cache.ring.slots[i].value); }
    }
    FinishPins(s);
  }

  lemma FinishPins(s: System)
    requires Inv(s) && Enabled(s, FinishScan)
    ensures Pins(FinishStep(s))
  {
    var s', l := FinishStep(s), s.lock.leader;
    ClosingFlight(s);
    var fl := s.cache.inflight[s.leaders[l].key];
    SettleSlots(s.cache.ring, s.leaders[l].key, fl.headers.value, fl.body, l);
    forall h | h in s'.hits
      ensures HitOk(s', s'.hits[h]) && s.hits[h].entry != l
    {
      assert HitOk(s, s.hits[h]);
      if !s.hits[h].released {
        var i :| Lives(s.cache.ring, s.hits[h].entry, i);
        assert Lives(s'.cache.ring, s.hits[h].entry, i);
      }
    }
    assert Outstanding(s.hits, l) == {};
  }

  lemma FinishFlights(s: System)
    requires Inv(s) && Enabled(s, FinishScan)
    ensures Flights(FinishStep(s))
  {
    var s', l := FinishStep(s), s.lock.leader;
    ClosingFlight(s);
    var key := s.leaders[l].key;
    var fl := s.cache.inflight[key];
    SettleSlots(s.cache.ring, key, fl.headers.value, fl.body, l);
    forall k | k in s'.cache.inflight
      ensures FlightOk(s', k)
    {
      assert FlightOk(s, k);
    }
    forall l' | l' in s'.leaders && Open(s', l')
      ensures s'.leaders[l'].key in s'.cache.inflight && s'.cache.inflight[s'.leaders[l'].key].id == l'
    {
      assert Open(s, l') && l' != l;
    }
  }

  /** The followers of the finished leader lose their place among the waiters, for the stream has ended. */
  lemma FinishFollower(s: System, f: nat)
    requires Inv(s) && Enabled(s, FinishScan) && f in s.followers
    ensures FollowerOk(FinishStep(s), f)
  {
    ClosingFlight(s);
    hide Store, Pins, PostsOk, Delivery, Fresh, Settle;
    assert FollowerOk(s, f) by { hide FollowerOk; }
  }

  lemma FinishDelivers(s: System, f: nat)
    requires Inv(s) && Enabled(s, FinishScan) && f in s.followers
    ensures f in FinishStep(s).followers && FinishStep(s).followers[f].leader in FinishStep(s).leaders
    ensures Delivery(FinishStep(s), f)
  {
    ClosingFlight(s);
    assert FollowerOk(s, f) && Delivery(s, f);
    hide Store, Pins, Flights, FollowerOk, Matches, Fresh, Settle;
    assert View(FinishStep(s), f) == View(s, f);
  }

  lemma FinishStreams(s: System)
    requires Inv(s) && Enabled(s, FinishScan)
    ensures Streams(FinishStep(s))
  {
    ClosingFlight(s);
    forall f | f in FinishStep(s).followers
      ensures FollowerOk(FinishStep(s), f) && Delivery(FinishStep(s), f)
    {
      FinishFollower(s, f);
      FinishDelivers(s, f);
    }
    hide Store, Pins, Flights, FollowerOk, Delivery;
  }

  lemma FinishKeeps(s: System)
    requires Inv(s) && Enabled(s, FinishScan)
    ensures Inv(Apply(s, FinishScan))
  {
    hide Store, Pins, Flights, Streams;
    FinishStore(s);
    FinishFlights(s);
    FinishStreams(s);
  }

  // ---- DoLookup ----

  lemma {:induction false} FindEntry(slots: Slots, id: nat, i: nat)
    requires DistinctEntries(slots) && i < |slots| && slots[i].Some? && slots[i].value.id == id
    ensures Find(slots, id) == slots[i]
  {
    if i > 0 {
      assert slots[0].Some? ==> slots[0].value.id != id;
      FindEntry(slots[1..], id, i - 1);
    }
  }

  /** A hit answers from the entry of the key. */
  lemma HitSlot(s: System, key: Key) returns (i: nat)
    requires Store(s) && Classify(s.cache, key).IsHit?
    ensures i < |s.cache.ring.slots| && s.cache.ring.slots[i].Some?
    ensures var e := s.cache.ring.slots[i].value;
      && e.key == key && e.id == s.cache.ring.index[key]
      && Find(s.cache.ring.slots, s.cache.ring.index[key]) == Some(e) && EntryOk(s, e)
  {
    var r := s.cache.ring;
    assert Holds(r.slots, key, r.index[key]);
    i :| 0 <= i < |r.slots| && r.slots[i].Some? && r.slots[i].value.key == key && r.slots[i].value.id == r.index[key];
    FindEntry(r.slots, r.index[key], i);
  }

  lemma OutstandingAdd(hits: map<nat, HitStream>, id: nat, h: HitStream, e: nat)
    requires id !in hits && !h.released
    ensures |Outstanding(hits[id := h], e)| == |Outstanding(hits, e)| + (if h.entry == e then 1 else 0)
  {
    assert Outstanding(hits[id := h], e) == Outstanding(hits, e) + if h.entry == e then {id} else {};
  }

  lemma HitStore(s: System, s': System, id: nat)
    requires Store(s) && s'.leaders == s.leaders && s'.finished == s.finished && s'.lock == s.lock
    requires s'.cache.ring == Pin(s.cache.ring, id)
    ensures Store(s')
  {
    PinsKeepInv(s.cache.ring, s'.cache.ring.slots);
    forall j | 0 <= j < |s'.cache.ring.slots| && s'.cache.ring.slots[j].Some?
      ensures EntryOk(s', s'.cache.ring.slots[j].value)
    {
      assert EntryOk(s, s.cache.ring.slots[j].value);
    }
  }

  lemma HitPins(s: System, s': System, id: nat, h: HitStream, i: nat)
    requires Pins(s) && s'.leaders == s.leaders && s'.lock == s.lock && id !in s.hits
    requires s'.hits == s.hits[id := h] && s'.cache.ring == Pin(s.cache.ring, h.entry)
    requires !h.released && Lives(s.cache.ring, h.entry, i) && Complete(s, h.entry, h.key, h.headers, h.body)
    ensures Pins(s')
  {
    forall j | 0 <= j < |s'.cache.ring.slots| && s'.cache.ring.slots[j].Some?
      ensures s'.cache.ring.slots[j].value.pins == |Outstanding(s'.hits, s'.cache.ring.slots[j].value.id)|
    {
      OutstandingAdd(s.hits, id, h, s.cache.ring.slots[j].value.id);
    }
    assert Lives(s'.cache.ring, h.entry, i);
    forall g | g in s.hits
      ensures HitOk(s', s.hits[g])
    {
      assert HitOk(s, s.hits[g]);
      if !s.hits[g].released {
        var j :| Lives(s.cache.ring, s.hits[g].entry, j);
        assert Lives(s'.cache.ring, s.hits[g].entry, j);
      }
    }
  }

  lemma HitKeeps(s: System, id: nat, key: Key, disp: nat)
    requires Inv(s) && NewStream(s, id) && s.lock.Free? && Classify(s.cache, key).IsHit?
    ensures Inv(LookupStep(s, id, key, disp))
  {
    var s' := LookupStep(s, id, key, disp);
    var i := HitSlot(s, key);
    StreamsFrame(s, s');
    FlightsFrame(s, s');
    HitStore(s, s', s.cache.ring.index[key]);
    HitPins(s, s', id, s'.hits[id], i);
  }

  /** Entries and hits only speak about complete responses, so more leaders do not matter. */
  lemma StoreFrame(s: System, s': System)
    requires Store(s) && Pins(s)
    requires s'.cache.ring == s.cache.ring && s'.hits == s.hits && s'.finished == s.finished
    requires forall l | l in s.leaders && !Open(s, l) :: l in s'.leaders && !Open(s', l)
    requires forall l | l in s.leaders && !Open(s, l) :: s'.leaders[l].(posts := []) == s.leaders[l].(posts := [])
    ensures Store(s') && Pins(s')
  {
    forall i | 0 <= i < |s'.cache.ring.slots| && s'.cache.ring.slots[i].Some?
      ensures EntryOk(s', s'.cache.ring.slots[i].value)
    {
      assert EntryOk(s, s.cache.ring.slots[i].value);
    }
    forall h | h in s'.hits
      ensures HitOk(s', s'.hits[h])
    {
      assert HitOk(s, s.hits[h]);
    }
  }

  lemma LeadFlights(s: System, s': System, id: nat, key: Key)
    requires Flights(s) && NewStream(s, id) && s.lock.Free? && Classify(s.cache, key).IsLeader?
    requires s'.lock == s.lock && s'.followers == s.followers
    requires s'.leaders == s.leaders[id := Leader(key, None, "", false, [])]
    requires s'.cache == s.cache.(inflight := s.cache.inflight[key := Inflight(None, "", [], id)])
    ensures Flights(s')
  {
    forall k | k in s'.cache.inflight
      ensures FlightOk(s', k)
    {
      if k != key { assert FlightOk(s, k); }
    }
  }

  lemma LeadStreams(s: System, id: nat, key: Key, disp: nat)
    requires Streams(s) && NewStream(s, id) && Classify(s.cache, key).IsLeader?
    ensures Streams(LookupStep(s, id, key, disp))
  {
    var s' := LookupStep(s, id, key, disp);
    forall f | f in s'.followers
      ensures FollowerOk(s', f) && Delivery(s', f)
    {
      FollowerFrame(s, s', f);
    }
  }

  lemma LeadKeeps(s: System, id: nat, key: Key, disp: nat)
    requires Inv(s) && NewStream(s, id) && s.lock.Free? && Classify(s.cache, key).IsLeader?
    ensures Inv(LookupStep(s, id, key, disp))
  {
    hide FollowerOk, Delivery;
    var s' := LookupStep(s, id, key, disp);
    StoreFrame(s, s');
    LeadFlights(s, s', id, key);
    LeadStreams(s, id, key, disp);
  }

  lemma NoPostsYet(s: System, id: nat, disp: nat, l: nat)
    requires PostsOk(s) && NewStream(s, id) && l in s.leaders
    ensures Mine(id, QueueOf(s, disp)) == [] && Mine(id, s.leaders[l].posts) == []
  {
    MineNone(id, QueueOf(s, disp));
    MineNone(id, s.leaders[l].posts);
  }

  /** The backfill is the whole response so far: the new follower misses nothing. */
  lemma JoinDelivers(s: System, id: nat, key: Key, disp: nat)
    requires Flights(s) && PostsOk(s) && NewStream(s, id) && s.lock.Free? && Classify(s.cache, key).IsFollower?
    ensures var s' := LookupStep(s, id, key, disp);
      FollowerOk(s', id) && Delivery(s', id)
  {
    var s' := LookupStep(s, id, key, disp);
    assert FlightOk(s, key);
    var fl := s.cache.inflight[key];
    assert LeaderOk(s.leaders[fl.id]);
    NoPostsYet(s, id, disp, fl.id);
    BackfillMatches(fl, s.leaders[fl.id]);
    if fl.headers.Some? {
      MinePush(id, QueueOf(s, disp), Post(id, Backfill(fl.headers.value, fl.body)));
    }
    assert View(s', id) == BackfillTasks(fl);
  }

  function BackfillTasks(fl: Inflight<nat>): seq<Task> {
    if fl.headers.None? then [] else [Backfill(fl.headers.value, fl.body)]
  }

  lemma BackfillMatches(fl: Inflight<nat>, le: Leader)
    requires fl.headers == le.headers && fl.body == le.body && LeaderOk(le) && !le.ended
    ensures Matches(BackfillTasks(fl), le) && Flatten([]) == []
  {
    if fl.headers.Some? {
      FlattenOne([], Backfill(fl.headers.value, fl.body));
      assert [] + BackfillTasks(fl) == BackfillTasks(fl);
    }
  }

  lemma JoinFlights(s: System, s': System, id: nat, key: Key, fo: Follower)
    requires Flights(s) && id !in s.followers && key in s.cache.inflight
    requires s'.lock == s.lock && s'.leaders == s.leaders
    requires s'.followers == s.followers[id := fo] && fo.leader == s.cache.inflight[key].id
    requires s'.cache == s.cache.(inflight := s.cache.inflight[key :=
               s.cache.inflight[key].(waiters := s.cache.inflight[key].waiters + [id])])
    ensures Flights(s')
  {
    forall k | k in s'.cache.inflight
      ensures FlightOk(s', k)
    {
      assert FlightOk(s, k);
    }
  }

  lemma OtherView(s: System, id: nat, key: Key, disp: nat, f: nat)
    requires f in s.followers && FollowerOk(s, f)
    requires NewStream(s, id) && s.lock.Free? && Classify(s.cache, key).IsFollower?
    ensures var s' := LookupStep(s, id, key, disp);
      && f in s'.followers && s'.followers[f] == s.followers[f] && s'.leaders == s.leaders && View(s', f) == View(s, f)
      && s.followers[f].leader in s'.leaders && (Waiting(s, f) ==> Waiting(s', f))
  {
    var fl := s.cache.inflight[key];
    if fl.headers.Some? { MineOther(f, QueueOf(s, disp), Post(id, Backfill(fl.headers.value, fl.body))); }
  }

  lemma JoinOthers(s: System, id: nat, key: Key, disp: nat, f: nat)
    requires f in s.followers && FollowerOk(s, f) && Delivery(s, f)
    requires NewStream(s, id) && s.lock.Free? && Classify(s.cache, key).IsFollower?
    ensures FollowerOk(LookupStep(s, id, key, disp), f) && Delivery(LookupStep(s, id, key, disp), f)
  {
    hide FollowerOk, Delivery;
    OtherView(s, id, key, disp, f);
    FollowerFrame(s, LookupStep(s, id, key, disp), f);
  }

  lemma JoinPosts(s: System, id: nat, key: Key, disp: nat)
    requires PostsOk(s) && NewStream(s, id) && Classify(s.cache, key).IsFollower?
    ensures PostsOk(LookupStep(s, id, key, disp))
  {
    var s' := LookupStep(s, id, key, disp);
    forall d, i | d in s'.queues && 0 <= i < |s'.queues[d]|
      ensures s'.queues[d][i].waiter in s'.followers && s'.followers[s'.queues[d][i].waiter].disp == d
    {
      if d != disp || i < |QueueOf(s, d)| { assert s'.queues[d][i] == s.queues[d][i]; }
    }
  }

  lemma JoinStreams(s: System, id: nat, key: Key, disp: nat)
    requires Flights(s) && Streams(s) && NewStream(s, id) && s.lock.Free? && Classify(s.cache, key).IsFollower?
    ensures Streams(LookupStep(s, id, key, disp))
  {
    hide Delivery, FlightOk;
    var s' := LookupStep(s, id, key, disp);
    assert s'.followers.Keys == s.followers.Keys + {id};
    JoinPosts(s, id, key, disp);
    JoinDelivers(s, id, key, disp);
    forall f | f in s.followers
      ensures FollowerOk(s', f) && Delivery(s', f)
    {
      JoinOthers(s, id, key, disp, f);
    }
  }

  lemma JoinKeeps(s: System, id: nat, key: Key, disp: nat)
    requires Inv(s) && NewStream(s, id) && s.lock.Free? && Classify(s.cache, key).IsFollower?
    ensures Inv(LookupStep(s, id, key, disp))
  {
    hide Store, Pins, Flights, Streams;
    var s' := LookupStep(s, id, key, disp);
    StoreFrame(s, s');
    JoinFlights(s, s', id, key, s'.followers[id]);
    JoinStreams(s, id, key, disp);
  }

  // ---- PublishHeaders and PublishData ----

  /** What both publish calls do to the flight of `l` before it may be finalized. */
  ghost predicate Extends(s: System, l: nat, cache: Cache<nat>, le: Leader, t: Task)
    requires l in s.leaders && s.leaders[l].key in s.cache.inflight
  {
    var key := s.leaders[l].key;
    && le.key == key && le.headers.Some? && le.posts == []
    && Content(le) == Content(s.leaders[l]) + Atoms(t) && Ending(t) == le.ended
    && cache == s.cache.(inflight := s.cache.inflight[key :=
         s.cache.inflight[key].(headers := le.headers, body := le.body)])
  }

  lemma PublishFlights(s: System, l: nat, cache: Cache<nat>, le: Leader, t: Task)
    requires Flights(s) && s.lock.Free? && l in s.leaders && !s.leaders[l].ended && s.leaders[l].posts == []
    requires s.leaders[l].key in s.cache.inflight && s.cache.inflight[s.leaders[l].key].id == l
    requires Extends(s, l, cache, le, t)
    ensures Flights(PublishStep(s, l, cache, le, t))
  {
    var s' := PublishStep(s, l, cache, le, t);
    forall k | k in s'.cache.inflight
      ensures FlightOk(s', k)
    {
      assert FlightOk(s, k);
    }
  }

  lemma PublishPosts(s: System, l: nat, cache: Cache<nat>, le: Leader, t: Task)
    requires PostsOk(s) && l in s.leaders && s.leaders[l].key in s.cache.inflight
    requires FlightOk(s, s.leaders[l].key) && s.cache.inflight[s.leaders[l].key].id == l
    requires Extends(s, l, cache, le, t)
    ensures PostsOk(PublishStep(s, l, cache, le, t))
  {
    var s' := PublishStep(s, l, cache, le, t);
    var waiters := s.cache.inflight[le.key].waiters;
    forall l', i | l' in s'.leaders && 0 <= i < |s'.leaders[l'].posts|
      ensures s'.leaders[l'].posts[i].waiter in s'.followers
        && s'.followers[s'.leaders[l'].posts[i].waiter].leader == l'
    {
      if l' == l {
        assert waiters[i] in waiters;
      } else {
        assert s'.leaders[l'].posts[i] == s.leaders[l'].posts[i];
      }
    }
  }

  /** A follower of `l` that still listens is in the snapshot, so the piece is on its way to it. */
  lemma PublishDelivers(s: System, l: nat, cache: Cache<nat>, le: Leader, t: Task, f: nat)
    requires l in s.leaders && !s.leaders[l].ended && s.leaders[l].posts == []
    requires s.leaders[l].key in s.cache.inflight && FlightOk(s, s.leaders[l].key)
    requires Extends(s, l, cache, le, t)
    requires f in s.followers && s.followers[f].leader == l && FollowerOk(s, f) && Delivery(s, f)
    ensures FollowerOk(PublishStep(s, l, cache, le, t), f)
    ensures Delivery(PublishStep(s, l, cache, le, t), f)
  {
    var s' := PublishStep(s, l, cache, le, t);
    var fo := s.followers[f];
    MineBroadcast(f, s.cache.inflight[le.key].waiters, t);
    assert Content(s'.leaders[l]) == Content(le);
    if !fo.cancelled {
      assert View(s, f) == fo.ran + Mine(f, QueueOf(s, fo.disp));
      assert View(s', f) == View(s, f) + [t];
      MatchesExtend(View(s, f), s.leaders[l], t, s'.leaders[l]);
    }
  }

  lemma PublishStreams(s: System, l: nat, cache: Cache<nat>, le: Leader, t: Task)
    requires Flights(s) && Streams(s) && l in s.leaders && MayPublish(s, l, s.leaders[l].headers.None?)
    requires s.leaders[l].key in s.cache.inflight && s.cache.inflight[s.leaders[l].key].id == l
    requires Extends(s, l, cache, le, t)
    ensures Streams(PublishStep(s, l, cache, le, t))
  {
    var s' := PublishStep(s, l, cache, le, t);
    assert FlightOk(s, le.key);
    PublishPosts(s, l, cache, le, t);
    forall f | f in s'.followers
      ensures FollowerOk(s', f) && Delivery(s', f)
    {
      if s.followers[f].leader == l {
        PublishDelivers(s, l, cache, le, t, f);
      } else {
        FollowerFrame(s, s', f);
      }
    }
  }

  lemma PublishKeeps(s: System, l: nat, cache: Cache<nat>, le: Leader, t: Task)
    requires Inv(s) && l in s.leaders && MayPublish(s, l, s.leaders[l].headers.None?)
    requires s.leaders[l].key in s.cache.inflight && s.cache.inflight[s.leaders[l].key].id == l
    requires Extends(s, l, cache, le, t)
    ensures Inv(PublishStep(s, l, cache, le, t))
  {
    StoreFrame(s, PublishStep(s, l, cache, le, t));
    PublishFlights(s, l, cache, le, t);
    PublishStreams(s, l, cache, le, t);
  }

  lemma OpenFlight(s: System, l: nat)
    requires Flights(s) && l in s.leaders && Open(s, l)
    ensures s.leaders[l].key in s.cache.inflight
    ensures var fl := s.cache.inflight[s.leaders[l].key];
      fl.id == l && fl.headers == s.leaders[l].headers && fl.body == s.leaders[l].body
  {
    assert FlightOk(s, s.leaders[l].key);
  }

  lemma PublishHeadersKeeps(s: System, l: nat, headers: Headers, end: bool)
    requires Inv(s) && MayPublish(s, l, true)
    ensures Inv(Apply(s, PublishHeaders(l, headers, end)))
  {
    OpenFlight(s, l);
    HeadersExtend(s.leaders[l], headers, end);
    PublishKeeps(s, l, StoreHeaders(s.cache, s.leaders[l].key, headers),
      s.leaders[l].(headers := Some(headers), ended := end), GiveHeaders(headers, end));
  }

  lemma PublishDataKeeps(s: System, l: nat, data: Bytes, end: bool)
    requires Inv(s) && MayPublish(s, l, false)
    ensures Inv(Apply(s, PublishData(l, data, end)))
  {
    OpenFlight(s, l);
    DataExtend(s.leaders[l], data, end);
    PublishKeeps(s, l, StoreData(s.cache, s.leaders[l].key, data),
      s.leaders[l].(body := s.leaders[l].body + data, ended := end), GiveData(data, end));
  }

  // ---- MakePost ----

  lemma PostPath(s: System, l: nat, f: nat)
    requires Enabled(s, MakePost(l)) && PostsOk(s) && RingInv(s.cache.ring)
    requires f in s.followers && s.followers[f].leader in s.leaders
    ensures View(Apply(s, MakePost(l)), f) == View(s, f)
  {
    var s' := Apply(s, MakePost(l));
    var p, fo := s.leaders[l].posts[0], s.followers[f];
    assert p.waiter in s.followers && s.followers[p.waiter].leader == l;
    var d := s.followers[p.waiter].disp;
    MinePush(f, QueueOf(s, d), p);
    if f == p.waiter {
      assert Mine(f, s.leaders[l].posts) == [p.task] + Mine(f, s.leaders[l].posts[1..]);
      Assoc(fo.ran + Mine(f, QueueOf(s, d)), [p.task], Mine(f, s.leaders[l].posts[1..]));
      Assoc(fo.ran, Mine(f, QueueOf(s, d)), [p.task]);
    } else {
      assert Mine(f, s.leaders[l].posts) == Mine(f, s.leaders[l].posts[1..]);
    }
  }

  lemma PostPosts(s: System, l: nat)
    requires Enabled(s, MakePost(l)) && PostsOk(s) && RingInv(s.cache.ring)
    ensures PostsOk(Apply(s, MakePost(l)))
  {
    var s' := Apply(s, MakePost(l));
    var p := s.leaders[l].posts[0];
    assert p.waiter in s.followers;
    var d := s.followers[p.waiter].disp;
    forall l', i | l' in s'.leaders && 0 <= i < |s'.leaders[l'].posts|
      ensures s'.leaders[l'].posts[i].waiter in s'.followers
        && s'.followers[s'.leaders[l'].posts[i].waiter].leader == l'
    {
      assert s'.leaders[l'].posts[i] == s.leaders[l'].posts[if l' == l then i + 1 else i];
    }
    forall d', i | d' in s'.queues && 0 <= i < |s'.queues[d']|
      ensures s'.queues[d'][i].waiter in s'.followers && s'.followers[s'.queues[d'][i].waiter].disp == d'
    {
      if d' != d || i < |QueueOf(s, d)| { assert s'.queues[d'][i] == s.queues[d'][i]; }
    }
  }

  lemma PostFlights(s: System, s': System, l: nat)
    requires Flights(s) && l in s.leaders && |s.leaders[l].posts| > 0
    requires s'.cache == s.cache && s'.lock == s.lock && s'.followers == s.followers
    requires s'.leaders == s.leaders[l := s.leaders[l].(posts := s.leaders[l].posts[1..])]
    ensures Flights(s')
  {
    forall k | k in s'.cache.inflight
      ensures FlightOk(s', k)
    {
      assert FlightOk(s, k);
    }
  }

  lemma PostKeeps(s: System, l: nat)
    requires Inv(s) && Enabled(s, MakePost(l))
    ensures Inv(Apply(s, MakePost(l)))
  {
    var s' := Apply(s, MakePost(l));
    StoreFrame(s, s');
    PostFlights(s, s', l);
    PostStreams(s, l);
  }

  lemma PostStreams(s: System, l: nat)
    requires Streams(s) && RingInv(s.cache.ring) && Enabled(s, MakePost(l))
    ensures Streams(Apply(s, MakePost(l)))
  {
    var s' := Apply(s, MakePost(l));
    PostPosts(s, l);
    forall f | f in s'.followers
      ensures FollowerOk(s', f) && Delivery(s', f)
    {
      assert FollowerOk(s, f) && Delivery(s, f);
      PostPath(s, l, f);
      FollowerFrame(s, s', f);
    }
  }

  // ---- RunTask ----

  lemma RunPosts(s: System, d: nat)
    requires PostsOk(s) && |QueueOf(s, d)| > 0
    ensures PostsOk(RunStep(s, d))
  {
    var s' := RunStep(s, d);
    forall d', i | d' in s'.queues && 0 <= i < |s'.queues[d']|
      ensures s'.queues[d'][i].waiter in s'.followers && s'.followers[s'.queues[d'][i].waiter].disp == d'
    {
      assert s'.queues[d'][i] == s.queues[d'][if d' == d then i + 1 else i];
    }
  }

  lemma RunOther(s: System, d: nat, f: nat)
    requires |QueueOf(s, d)| > 0 && QueueOf(s, d)[0].waiter != f
    requires f in s.followers && FollowerOk(s, f) && Delivery(s, f)
    ensures FollowerOk(RunStep(s, d), f) && Delivery(RunStep(s, d), f)
  {
    assert Mine(f, QueueOf(s, d)) == Mine(f, QueueOf(s, d)[1..]);
    FollowerFrame(s, RunStep(s, d), f);
  }

  /** A follower that has run the end of the response has nothing more coming. */
  lemma OverIsQuiet(s: System, f: nat)
    requires f in s.followers && FollowerOk(s, f) && Delivery(s, f)
    requires Over(s.followers[f].ran) && !s.followers[f].cancelled
    ensures View(s, f) == s.followers[f].ran
    ensures Mine(f, QueueOf(s, s.followers[f].disp)) == []
    ensures Mine(f, s.leaders[s.followers[f].leader].posts) == []
  {
    var ran := s.followers[f].ran;
    var i :| 0 <= i < |ran| && Ending(ran[i]);
    assert View(s, f)[i] == ran[i];
  }

  /** The next closure moves from the queue to the history. */
  lemma RunMine(s: System, d: nat, f: nat)
    requires |QueueOf(s, d)| > 0 && QueueOf(s, d)[0].waiter == f
    requires f in s.followers && s.followers[f].disp == d && FollowerOk(s, f) && Delivery(s, f)
    ensures FollowerOk(RunStep(s, d), f) && Delivery(RunStep(s, d), f)
  {
    var s', fo, t := RunStep(s, d), s.followers[f], QueueOf(s, d)[0].task;
    var rest := Mine(f, QueueOf(s, d)[1..]);
    var later := Mine(f, s.leaders[fo.leader].posts);
    assert Mine(f, QueueOf(s, d)) == [t] + rest;
    if !fo.cancelled {
      if Over(fo.ran) { OverIsQuiet(s, f); assert false; }
      assert View(s', f) == View(s, f) by {
        Assoc(fo.ran, [t], rest);
      }
      assert View(s', f) == (fo.ran + [t]) + (rest + later) by {
        Assoc(fo.ran + [t], rest, later);
      }
      FlattenAppend(fo.ran + [t], rest + later);
      RunDone(fo.ran, t);
    }
  }

  lemma RunDone(ran: seq<Task>, t: Task)
    ensures Over(ran + [t]) <==> Over(ran) || Ending(t)
  {
    if Ending(t) { assert Ending((ran + [t])[|ran|]); }
    if i :| 0 <= i < |ran| && Ending(ran[i]) { assert Ending((ran + [t])[i]); }
  }

  lemma RunStreams(s: System, d: nat)
    requires Streams(s) && Enabled(s, RunTask(d))
    ensures Streams(RunStep(s, d))
  {
    var s' := RunStep(s, d);
    RunPosts(s, d);
    var w := QueueOf(s, d)[0].waiter;
    assert w in s.followers && s.followers[w].disp == d;
    forall f | f in s'.followers
      ensures FollowerOk(s', f) && Delivery(s', f)
    {
      assert FollowerOk(s, f) && Delivery(s, f);
      if f == w { RunMine(s, d, f); } else { RunOther(s, d, f); }
    }
  }

  lemma RunKeeps(s: System, d: nat)
    requires Inv(s) && Enabled(s, RunTask(d))
    ensures Inv(RunStep(s, d))
  {
    RunRest(s, d);
    RunStreams(s, d);
  }

  lemma RunRest(s: System, d: nat)
    requires Store(s) && Pins(s) && Flights(s) && |QueueOf(s, d)| > 0
    ensures Store(RunStep(s, d)) && Pins(RunStep(s, d)) && Flights(RunStep(s, d))
  {
    StoreFrame(s, RunStep(s, d));
    FlightsFrame(s, RunStep(s, d));
  }

  // ---- LocalReply, Destroy and Detach ----

  lemma ReplyStreams(s: System, f: nat)
    requires Streams(s) && f in s.followers
    ensures Streams(ReplyStep(s, f))
  {
    var s' := ReplyStep(s, f);
    forall g | g in s'.followers
      ensures FollowerOk(s', g) && Delivery(s', g)
    {
      assert FollowerOk(s, g) && Delivery(s, g);
      if g == f {
        assert s'.followers[f].ran == s.followers[f].ran;
        assert View(s', f) == View(s, f);
      } else {
        FollowerFrame(s, s', g);
      }
    }
  }

  lemma ReplyKeeps(s: System, f: nat)
    requires Inv(s) && f in s.followers
    ensures Inv(ReplyStep(s, f))
  {
    StoreFrame(s, ReplyStep(s, f));
    FlightsFrame(s, ReplyStep(s, f));
    ReplyStreams(s, f);
  }

  lemma DestroyStreams(s: System, f: nat)
    requires Streams(s) && f in s.followers
    ensures Streams(DestroyStep(s, f))
  {
    var s' := DestroyStep(s, f);
    forall g | g in s'.followers
      ensures FollowerOk(s', g) && Delivery(s', g)
    {
      assert FollowerOk(s, g) && Delivery(s, g);
      if g == f {
        assert s'.followers[f].ran == s.followers[f].ran;
        assert View(s', f) == View(s, f);
      } else {
        FollowerFrame(s, s', g);
      }
    }
  }

  lemma DestroyKeeps(s: System, f: nat)
    requires Inv(s) && f in s.followers
    ensures Inv(DestroyStep(s, f))
  {
    StoreFrame(s, DestroyStep(s, f));
    FlightsFrame(s, DestroyStep(s, f));
    DestroyStreams(s, f);
  }

  lemma DetachFlights(s: System, s': System, f: nat, key: Key)
    requires Flights(s) && f in s.followers
    requires s' == s.(cache := Remove(s.cache, key, f), followers := s.followers[f := s.followers[f].(detaching := false)])
    ensures Flights(s')
  {
    forall k | k in s'.cache.inflight
      ensures FlightOk(s', k)
    {
      assert FlightOk(s, k);
      SwapPopKeepsOthers(s.cache.inflight[k].waiters, f);
    }
  }

  lemma DetachOther(s: System, f: nat, g: nat)
    requires RingInv(s.cache.ring) && Enabled(s, Detach(f)) && g != f
    requires s.followers[f].key in s.cache.inflight ==> FlightOk(s, s.followers[f].key)
    requires g in s.followers && FollowerOk(s, g) && Delivery(s, g)
    ensures FollowerOk(Apply(s, Detach(f)), g) && Delivery(Apply(s, Detach(f)), g)
  {
    var key := s.followers[f].key;
    if key in s.cache.inflight {
      SwapPopKeepsOthers(s.cache.inflight[key].waiters, f);
    }
    FollowerFrame(s, Apply(s, Detach(f)), g);
  }

  lemma DetachStreams(s: System, f: nat)
    requires Flights(s) && Streams(s) && RingInv(s.cache.ring) && Enabled(s, Detach(f))
    ensures Streams(Apply(s, Detach(f)))
  {
    hide RingInv, Delivery;
    var s' := Apply(s, Detach(f));
    forall g | g in s'.followers
      ensures FollowerOk(s', g) && Delivery(s', g)
    {
      assert FollowerOk(s, g) && Delivery(s, g);
      if g == f { DetachSelf(s, f); } else { DetachOther(s, f, g); }
    }
  }

  lemma DetachSelf(s: System, f: nat)
    requires RingInv(s.cache.ring) && Enabled(s, Detach(f)) && FollowerOk(s, f) && Delivery(s, f)
    ensures FollowerOk(Apply(s, Detach(f)), f) && Delivery(Apply(s, Detach(f)), f)
  {
    assert View(Apply(s, Detach(f)), f) == View(s, f);
  }

  lemma DetachKeeps(s: System, f: nat)
    requires Inv(s) && Enabled(s, Detach(f))
    ensures Inv(Apply(s, Detach(f)))
  {
    var s' := Apply(s, Detach(f));
    StoreFrame(s, s');
    DetachFlights(s, s', f, s.followers[f].key);
    DetachStreams(s, f);
  }

  // ---- All together ----

  lemma InitialInv(capacity: nat, slotCount: nat)
    requires slotCount > 0
    ensures Inv(Initial(capacity, slotCount))
  {
    EmptyInv(capacity, slotCount);
  }

  lemma ApplyKeeps(s: System, a: Action)
    requires Inv(s)
    ensures Inv(Apply(s, a))
  {
    if Enabled(s, a) {
      match a
      case DoLookup(id, key, disp) =>
        match Classify(s.cache, key) {
          case IsHit => HitKeeps(s, id, key, disp);
          case IsLeader => LeadKeeps(s, id, key, disp);
          case IsFollower => JoinKeeps(s, id, key, disp);
        }
      case ReleasePin(h) => ReleaseKeeps(s, h);
      case PublishHeaders(l, headers, end) => PublishHeadersKeeps(s, l, headers, end);
      case PublishData(l, data, end) => PublishDataKeeps(s, l, data, end);
      case VisitSlot => VisitKeeps(s);
      case FinishScan => FinishKeeps(s);
      case MakePost(l) => PostKeeps(s, l);
      case RunTask(d) => RunKeeps(s, d);
      case LocalReply(f) => ReplyKeeps(s, f);
      case Destroy(f) => DestroyKeeps(s, f);
      case Detach(f) => DetachKeeps(s, f);
    }
  }
}
