/** What holds in every state that any interleaving of the protocol can reach. */
module ProtocolTheorems {
  import opened Basics
  import opened Ring
  import opened Sections
  import opened Protocol
  import opened StreamFacts
  import opened ProtocolSteps

  /** The state after the steps `acts` from `s`; a step that is not enabled does nothing. */
  ghost function Steps(s: System, acts: seq<Action>): System
    requires Inv(s)
    decreases |acts|
  {
    if |acts| == 0 then s
    else
      ApplyKeeps(s, acts[0]);
      Steps(Apply(s, acts[0]), acts[1..])
  }

  lemma {:induction false} StepsKeep(s: System, acts: seq<Action>)
    requires Inv(s)
    ensures Inv(Steps(s, acts))
    decreases |acts|
  {
    if |acts| > 0 {
      ApplyKeeps(s, acts[0]);
      StepsKeep(Apply(s, acts[0]), acts[1..]);
    }
  }

  ghost predicate Reachable(s: System) {
    exists capacity: nat, slotCount: nat, acts: seq<Action> ::
      slotCount > 0 && ReachedBy(s, capacity, slotCount, acts)
  }

  ghost predicate ReachedBy(s: System, capacity: nat, slotCount: nat, acts: seq<Action>)
    requires slotCount > 0
  {
    InitialInv(capacity, slotCount);
    s == Steps(Initial(capacity, slotCount), acts)
  }

  /** The invariant holds in every reachable state. */
  lemma ReachableInv(s: System)
    requires Reachable(s)
    ensures Inv(s)
  {
    var capacity: nat, slotCount: nat, acts: seq<Action> :|
      slotCount > 0 && ReachedBy(s, capacity, slotCount, acts);
    InitialInv(capacity, slotCount);
    StepsKeep(Initial(capacity, slotCount), acts);
  }

  // ---- Followers ----

  /** Whatever moment a follower joined, what it ran, what is queued for it and what is about to be
      posted to it spell out the response: the headers, the bytes so far, and the end iff it ended. */
  lemma CoalescingDelivery(s: System, f: nat)
    requires Reachable(s) && f in s.followers && !s.followers[f].cancelled
    ensures var fo := s.followers[f];
      && fo.leader in s.leaders && fo.key == s.leaders[fo.leader].key
      && Flatten(fo.ran) + Flatten(Mine(f, QueueOf(s, fo.disp))) + Flatten(Mine(f, s.leaders[fo.leader].posts))
           == Content(s.leaders[fo.leader])
      && (s.leaders[fo.leader].headers.None? ==> Content(s.leaders[fo.leader]) == [])
  {
    ReachableInv(s);
    assert FollowerOk(s, f) && Delivery(s, f) && LeaderOk(s.leaders[s.followers[f].leader]);
    DeliveryInParts(s, f);
  }

  lemma DeliveryInParts(s: System, f: nat)
    requires f in s.followers && !s.followers[f].cancelled && FollowerOk(s, f) && Delivery(s, f)
    ensures var fo := s.followers[f];
      Flatten(fo.ran) + Flatten(Mine(f, QueueOf(s, fo.disp))) + Flatten(Mine(f, s.leaders[fo.leader].posts))
        == Content(s.leaders[fo.leader])
  {
    var fo := s.followers[f];
    FlattenAppend(fo.ran + Mine(f, QueueOf(s, fo.disp)), Mine(f, s.leaders[fo.leader].posts));
    FlattenAppend(fo.ran, Mine(f, QueueOf(s, fo.disp)));
  }

  /** A follower that ran everything meant for it has seen exactly the response, and has run its end iff it ended. */
  lemma DrainedFollowerSawAll(s: System, f: nat)
    requires Reachable(s) && f in s.followers && !s.followers[f].cancelled
    requires var fo := s.followers[f];
      Mine(f, QueueOf(s, fo.disp)) == [] && fo.leader in s.leaders && Mine(f, s.leaders[fo.leader].posts) == []
    ensures var le := s.leaders[s.followers[f].leader];
      && Flatten(s.followers[f].ran) == Content(le) && (Over(s.followers[f].ran) <==> le.ended)
      && (s.followers[f].done <==> le.ended || s.followers[f].replied)
  {
    ReachableInv(s);
    assert FollowerOk(s, f) && Delivery(s, f);
    DrainedMatches(s, f);
  }

  lemma DrainedMatches(s: System, f: nat)
    requires f in s.followers && !s.followers[f].cancelled && FollowerOk(s, f) && Delivery(s, f)
    requires Mine(f, QueueOf(s, s.followers[f].disp)) == [] && Mine(f, s.leaders[s.followers[f].leader].posts) == []
    ensures var le := s.leaders[s.followers[f].leader];
      && Flatten(s.followers[f].ran) == Content(le) && (Over(s.followers[f].ran) <==> le.ended)
      && (s.followers[f].done <==> le.ended || s.followers[f].replied)
  {
    var fo := s.followers[f];
    assert View(s, f) == fo.ran;
    if s.leaders[fo.leader].ended { assert Ending(fo.ran[|fo.ran| - 1]); }
  }

  /** Even a cancelled follower has seen a prefix of its own leader's response, never anything else. */
  lemma NoForeignBytes(s: System, f: nat)
    requires Reachable(s) && f in s.followers
    ensures s.followers[f].leader in s.leaders
    ensures Flatten(s.followers[f].ran) <= Content(s.leaders[s.followers[f].leader])
  {
    ReachableInv(s);
    assert FollowerOk(s, f) && Delivery(s, f);
  }

  /** The stream of `f` was destroyed by `s`, and no closure has run on it between `s` and `s'`. */
  ghost predicate Undisturbed(s: System, s': System, f: nat) {
    && f in s.followers && s.followers[f].destroyed
    && f in s'.followers && s'.followers[f].destroyed
    && s'.followers[f].ran == s.followers[f].ran
  }

  /** No closure can run on `f` any more: its handle is cancelled, or the last closure for it has run. */
  ghost predicate Closed(s: System, f: nat)
    requires f in s.followers
  {
    s.followers[f].cancelled || Over(s.followers[f].ran)
  }

  lemma RunUndisturbed(s: System, d: nat, f: nat)
    requires |QueueOf(s, d)| > 0 && PostsOk(s)
    requires f in s.followers && s.followers[f].destroyed && Closed(s, f) && FollowerOk(s, f) && Delivery(s, f)
    ensures Undisturbed(s, RunStep(s, d), f) && Closed(RunStep(s, d), f)
  {
    if QueueOf(s, d)[0].waiter == f && !s.followers[f].cancelled {
      assert s.followers[f].disp == d;
      OverIsQuiet(s, f);
      assert false;
    }
  }

  lemma StepUndisturbed(s: System, a: Action, f: nat)
    requires RingInv(s.cache.ring) && PostsOk(s)
    requires f in s.followers && s.followers[f].destroyed && Closed(s, f) && FollowerOk(s, f) && Delivery(s, f)
    ensures Undisturbed(s, Apply(s, a), f) && Closed(Apply(s, a), f)
  {
    hide RingInv, Content, Matches;
    if a.RunTask? && Enabled(s, a) {
      RunUndisturbed(s, a.disp, f);
    }
  }

  lemma InvStepUndisturbed(s: System, a: Action, f: nat)
    requires Inv(s) && f in s.followers && s.followers[f].destroyed && Closed(s, f)
    ensures Undisturbed(s, Apply(s, a), f) && Closed(Apply(s, a), f)
  {
    assert FollowerOk(s, f) && Delivery(s, f);
    StepUndisturbed(s, a, f);
  }

  lemma {:induction false} StepsUndisturbed(s: System, more: seq<Action>, f: nat)
    requires Inv(s) && f in s.followers && s.followers[f].destroyed && Closed(s, f)
    ensures Undisturbed(s, Steps(s, more), f)
    decreases |more|
  {
    if |more| > 0 {
      ApplyKeeps(s, more[0]);
      InvStepUndisturbed(s, more[0], f);
      StepsUndisturbed(Apply(s, more[0]), more[1..], f);
    }
  }

  /** No closure runs on a stream once it was destroyed, whatever happens afterwards, if its handle is cancelled or it has
      run the end of the response: in particular unless something other than the cache had ended it. */
  lemma NoCallbackAfterDestroy(s: System, more: seq<Action>, f: nat)
    requires Reachable(s) && f in s.followers && s.followers[f].destroyed
    ensures Inv(s) && (!s.followers[f].replied ==> Closed(s, f))
    ensures Closed(s, f) ==> Undisturbed(s, Steps(s, more), f)
  {
    ReachableInv(s);
    assert FollowerOk(s, f);
    if Closed(s, f) { StepsUndisturbed(s, more, f); }
  }

  // ---- Hits ----

  ghost predicate SameResponse(e: Entry, h: HitStream) {
    e.key == h.key && e.headers == h.headers && e.body == h.body
  }

  /** Some slot holds the entry of `h`, with the response `h` was answered with. */
  ghost predicate Backed(s: System, h: HitStream) {
    exists i: nat :: Lives(s.cache.ring, h.entry, i) && SameResponse(s.cache.ring.slots[i].value, h)
  }

  lemma UnreleasedIsBacked(s: System, h: nat)
    requires Store(s) && Pins(s) && h in s.hits && !s.hits[h].released
    ensures Backed(s, s.hits[h])
  {
    assert HitOk(s, s.hits[h]);
    var i: nat :| Lives(s.cache.ring, s.hits[h].entry, i);
    assert EntryOk(s, s.cache.ring.slots[i].value);
    assert SameResponse(s.cache.ring.slots[i].value, s.hits[h]);
  }

  /** While a hit is unreleased its entry is stored with the response the hit was answered with,
      and the pins of every entry count exactly the unreleased hits on it. */
  lemma PinSafety(s: System)
    requires Reachable(s)
    ensures forall h | h in s.hits && !s.hits[h].released :: Backed(s, s.hits[h])
    ensures forall i | 0 <= i < |s.cache.ring.slots| && s.cache.ring.slots[i].Some? ::
      s.cache.ring.slots[i].value.pins == |Outstanding(s.hits, s.cache.ring.slots[i].value.id)|
  {
    ReachableInv(s);
    forall h | h in s.hits && !s.hits[h].released
      ensures Backed(s, s.hits[h])
    {
      UnreleasedIsBacked(s, h);
    }
  }

  /** Slot `i` still holds the entry that it held for the unreleased hit `h`. */
  ghost predicate StillThere(s: System, s': System, h: nat, i: nat)
    requires h in s.hits
  {
    && h in s'.hits && s'.hits[h].entry == s.hits[h].entry
    && (!s'.hits[h].released ==> !s.hits[h].released)
    && (!s'.hits[h].released && Lives(s.cache.ring, s.hits[h].entry, i) ==> Lives(s'.cache.ring, s.hits[h].entry, i))
  }

  lemma PinnedThroughVisit(s: System, h: nat, i: nat)
    requires Store(s) && Pins(s) && h in s.hits && !s.hits[h].released && Lives(s.cache.ring, s.hits[h].entry, i)
    ensures Lives(Visit(s.cache.ring), s.hits[h].entry, i)
  {
    assert h in Outstanding(s.hits, s.hits[h].entry);
    assert s.cache.ring.slots[i].value.pins > 0;
  }

  lemma ReleaseStillThere(s: System, g: nat, h: nat, i: nat)
    requires Inv(s) && h in s.hits && Enabled(s, ReleasePin(g))
    ensures StillThere(s, Apply(s, ReleasePin(g)), h, i)
  {
    hide RingInv, Pins, Flights, Streams;
  }

  lemma LookupStillThere(s: System, id: nat, key: Key, disp: nat, h: nat, i: nat)
    requires h in s.hits && Enabled(s, DoLookup(id, key, disp))
    ensures StillThere(s, LookupStep(s, id, key, disp), h, i)
  {
    LookupCache(s, id, key, disp);
    assert h in LookupStep(s, id, key, disp).hits && LookupStep(s, id, key, disp).hits[h] == s.hits[h] by {
      hide Find, Lookup, QueueOf, Classify;
      match Classify(s.cache, key)
      case IsHit =>
      case IsLeader =>
      case IsFollower =>
    }
    hide LookupStep;
  }

  lemma FinishStillThere(s: System, h: nat, i: nat)
    requires Inv(s) && h in s.hits && Enabled(s, FinishScan)
    ensures StillThere(s, FinishStep(s), h, i)
  {
    ClosingFlight(s);
    var le := s.leaders[s.lock.leader];
    hide Store, Flights, Pins, Streams, Settle, RingInv, Fresh;
    SettleSlots(s.cache.ring, le.key, le.headers.value, le.body, s.lock.leader);
  }

  lemma ApplyStillThere(s: System, a: Action, h: nat, i: nat)
    requires Inv(s) && h in s.hits
    ensures StillThere(s, Apply(s, a), h, i)
  {
    hide Flights, Streams, Visit, FinishStep, LookupStep, Unpin, SwapPop, Broadcast, RingInv, Pins;
    if Enabled(s, a) {
      match a
      case DoLookup(id, key, disp) => LookupStillThere(s, id, key, disp, h, i);
      case ReleasePin(g) => ReleaseStillThere(s, g, h, i);
      case VisitSlot =>
        if !s.hits[h].released && Lives(s.cache.ring, s.hits[h].entry, i) { PinnedThroughVisit(s, h, i); }
      case FinishScan => FinishStillThere(s, h, i);
      case PublishHeaders(l, headers, end) =>
      case PublishData(l, data, end) =>
      case MakePost(l) =>
      case RunTask(d) =>
      case LocalReply(f) =>
      case Destroy(f) =>
      case Detach(f) =>
    }
  }

  /** From the lookup to the release the entry of a hit stays in the slot it is in, whatever happens meanwhile. */
  lemma {:induction false} EntryStaysPut(s: System, more: seq<Action>, h: nat, i: nat)
    requires Inv(s) && h in s.hits
    ensures StillThere(s, Steps(s, more), h, i)
    decreases |more|
  {
    hide Pins, Flights, Streams, Apply, Lives, RingInv;
    if |more| > 0 {
      ApplyKeeps(s, more[0]);
      ApplyStillThere(s, more[0], h, i);
      EntryStaysPut(Apply(s, more[0]), more[1..], h, i);
    }
  }

  /** A hit answers with the complete response of the leader of the key that finished last. */
  lemma HitIsFresh(s: System, id: nat, key: Key, disp: nat)
    requires Reachable(s) && Enabled(s, DoLookup(id, key, disp)) && Classify(s.cache, key).IsHit?
    ensures var s' := LookupStep(s, id, key, disp);
      && key in s.finished && id in s'.hits
      && var last, h := s.finished[key], s'.hits[id];
      && last in s.leaders && s.leaders[last].key == key && s.leaders[last].ended && h.entry == last
      && [Head(h.headers)] + Bs(h.body) + [End] == Content(s.leaders[last])
  {
    ReachableInv(s);
    var i := HitSlot(s, key);
  }

  // ---- Flights ----

  /** A key has at most one open leader, and a key that is cached has none. */
  lemma SingleFlight(s: System, l: nat, m: nat)
    requires Reachable(s) && l in s.leaders && Open(s, l)
    ensures s.leaders[l].key !in s.cache.ring.index
    ensures m in s.leaders && Open(s, m) && s.leaders[m].key == s.leaders[l].key ==> m == l
  {
    ReachableInv(s);
    assert FlightOk(s, s.leaders[l].key);
  }

  /** A lookup makes a stream the leader only when every earlier leader of the key was finalized. */
  lemma LeaderAfterFinalize(s: System, key: Key, l: nat)
    requires Reachable(s) && Classify(s.cache, key).IsLeader? && l in s.leaders && s.leaders[l].key == key
    ensures !Open(s, l)
  {
    ReachableInv(s);
  }

  lemma {:induction false} SwapPopAbsent(s: seq<nat>, w: nat, i: nat)
    requires w !in s && i <= |s|
    ensures SwapPop(s, w, i) == s
    decreases |s| - i
  {
    if i < |s| { SwapPopAbsent(s, w, i + 1); }
  }

  lemma RemoveIsExact(s: System, f: nat, k: Key)
    requires k in s.cache.inflight && FlightOk(s, k) && f in s.followers && FollowerOk(s, f)
    ensures var fl, fl' := s.cache.inflight[k], Remove(s.cache, s.followers[f].key, f).inflight[k];
      if fl.id == s.followers[f].leader then multiset(fl'.waiters) == multiset(fl.waiters) - multiset{f} else fl' == fl
  {
    var fl := s.cache.inflight[k];
    if fl.id != s.followers[f].leader {
      SwapPopAbsent(fl.waiters, f, 0);
    } else {
      SwapPopRemovesOne(fl.waiters, f, 0);
    }
  }

  /** Detaching takes the follower out of its own flight if that is still open, and touches no other flight. */
  lemma DetachIsExact(s: System, f: nat, k: Key)
    requires Reachable(s) && Enabled(s, Detach(f)) && k in s.cache.inflight
    ensures var cache' := Remove(s.cache, s.followers[f].key, f);
      && cache'.inflight.Keys == s.cache.inflight.Keys
      && var fl, fl' := s.cache.inflight[k], cache'.inflight[k];
         if fl.id == s.followers[f].leader then multiset(fl'.waiters) == multiset(fl.waiters) - multiset{f} else fl' == fl
  {
    ReachableInv(s);
    assert FlightOk(s, k) && FollowerOk(s, f);
    RemoveIsExact(s, f, k);
  }

  // ---- Memory ----

  ghost predicate SameShape(r: Ring, t: Ring) {
    t.capacity == r.capacity && |t.slots| == |r.slots|
  }

  lemma FinishShape(s: System)
    requires Inv(s) && Enabled(s, FinishScan)
    ensures SameShape(s.cache.ring, FinishStep(s).cache.ring)
  {
    ClosingFlight(s);
    var fl := s.cache.inflight[s.leaders[s.lock.leader].key];
    hide Store, Flights, Pins, Streams;
    FindFreeInv(s.cache.ring, 0);
  }

  lemma LookupCache(s: System, id: nat, key: Key, disp: nat)
    ensures LookupStep(s, id, key, disp).cache == Lookup(s.cache, key, id, id)
  {
    hide Find, Lookup, QueueOf, Classify;
    match Classify(s.cache, key)
    case IsHit =>
    case IsLeader =>
    case IsFollower =>
  }

  lemma LookupShape(s: System, id: nat, key: Key, disp: nat)
    ensures SameShape(s.cache.ring, LookupStep(s, id, key, disp).cache.ring)
  {
    LookupCache(s, id, key, disp);
    hide LookupStep;
  }

  lemma ApplyShape(s: System, a: Action)
    requires Inv(s)
    ensures SameShape(s.cache.ring, Apply(s, a).cache.ring)
  {
    if a.VisitSlot? { VisitInv(s.cache.ring); }
    if a.FinishScan? && Enabled(s, a) { FinishShape(s); }
    if a.DoLookup? { LookupShape(s, a.stream, a.key, a.disp); }
    hide Store, Flights, Pins, Streams, Visit, FinishStep, LookupStep, SwapPop, Broadcast, RingInv;
  }

  lemma {:induction false} StepsShape(s: System, acts: seq<Action>)
    requires Inv(s)
    ensures SameShape(s.cache.ring, Steps(s, acts).cache.ring)
    decreases |acts|
  {
    hide Flights, Pins, Streams, Apply;
    if |acts| > 0 {
      ApplyKeeps(s, acts[0]);
      ApplyShape(s, acts[0]);
      StepsShape(Apply(s, acts[0]), acts[1..]);
    }
  }

  /** At every step, even inside an eviction scan, the counter is the sum of the stored sizes and within the configured
      capacity, the slots are as many as configured, keys and occupied slots correspond one to one, and no cached key is
      in flight. */
  lemma BoundedMemory(s: System, capacity: nat, slotCount: nat, acts: seq<Action>)
    requires slotCount > 0 && ReachedBy(s, capacity, slotCount, acts)
    ensures s.cache.ring.used == Total(s.cache.ring.slots) <= capacity && |s.cache.ring.slots| == slotCount
    ensures DistinctEntries(s.cache.ring.slots) && IndexExact(s.cache.ring.slots, s.cache.ring.index)
    ensures s.cache.ring.index.Keys !! s.cache.inflight.Keys
  {
    InitialInv(capacity, slotCount);
    StepsKeep(Initial(capacity, slotCount), acts);
    StepsShape(Initial(capacity, slotCount), acts);
    forall k | k in s.cache.inflight
      ensures k !in s.cache.ring.index
    {
      assert FlightOk(s, k);
    }
  }

  // ---- The scan, step by step or at once ----

  /** The lock holder alone: visits until the loop ends, then the rest of the section. */
  ghost function ScanAlone(s: System): System
    requires Inv(s) && s.lock.Scanning?
    decreases if s.lock.Scanning? then |s.cache.ring.slots| - s.lock.visited else 0
  {
    if Enabled(s, VisitSlot) then
      ApplyKeeps(s, VisitSlot);
      VisitInv(s.cache.ring);
      ScanAlone(Apply(s, VisitSlot))
    else Apply(s, FinishScan)
  }

  lemma {:induction false} ScanAloneOutcome(s: System)
    requires Inv(s) && s.lock.Scanning? && s.lock.visited <= |s.cache.ring.slots|
    ensures s.lock.leader in s.leaders && s.leaders[s.lock.leader].headers.Some?
    ensures var le := s.leaders[s.lock.leader];
      (ScanInv(s.cache.ring, Need(le), s.lock.visited);
       ScanAlone(s).lock.Free? && ScanAlone(s).cache == Cache(
         Settle(if Need(le) > s.cache.ring.capacity then s.cache.ring
                else Scan(s.cache.ring, Need(le), s.lock.visited).0, le.key, le.headers.value, le.body, s.lock.leader),
         s.cache.inflight - {le.key}))
    decreases |s.cache.ring.slots| - s.lock.visited
  {
    hide Pins, Streams, Flights, RingInv, EntryOk;
    ClosingFlight(s);
    var le := s.leaders[s.lock.leader];
    ScanInv(s.cache.ring, Need(le), s.lock.visited);
    if Enabled(s, VisitSlot) {
      ApplyKeeps(s, VisitSlot);
      VisitInv(s.cache.ring);
      ScanAloneOutcome(Apply(s, VisitSlot));
    }
  }

  /** Without interference the steps of the scan add up to `finalizeLocked` taken as a whole. */
  lemma StepsAreTheSection(s: System)
    requires Inv(s) && s.lock.Scanning? && s.lock.visited == 0
    ensures var l := s.lock.leader;
      && l in s.leaders && s.leaders[l].key in s.cache.inflight
      && s.cache.inflight[s.leaders[l].key].headers.Some?
      && ScanAlone(s).cache == Close(s.cache, s.leaders[l].key)
  {
    hide EntryOk, Flights, Pins, Streams, ScanAlone, Settle, Scan, RingInv, Finalize, Fresh, FlightOk;
    ClosingFlight(s);
    var le := s.leaders[s.lock.leader];
    ScanAloneOutcome(s);
    FinalizeIsScanThenSettle(s.cache.ring, le.key, le.headers.value, le.body, s.lock.leader);
  }
}
