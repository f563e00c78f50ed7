/**
 A follower whose handle is not cancelled and that has not run the end of its
 response can always be made to run another closure. So a destroyed stream is
 safe from callbacks only in the other two cases.
 */
module ProtocolProgress {
  import opened Basics
  import opened Ring
  import opened Sections
  import opened Protocol
  import opened StreamFacts
  import opened ProtocolSteps
  import opened ProtocolTheorems

  /** A follower and its leader. */
  predicate Follows(s: System, f: nat) {
    f in s.followers && s.followers[f].leader in s.leaders
  }

  /** How far the next closure of `f` is: on its dispatcher, about to be posted, or not yet published. */
  function Stage(s: System, f: nat): nat
    requires Follows(s, f)
  {
    if Mine(f, QueueOf(s, s.followers[f].disp)) != [] then 0
    else if Mine(f, s.leaders[s.followers[f].leader].posts) != [] then 1
    else 2
  }

  /** The turns that a scan can still make. */
  function ScanLeft(s: System): nat {
    if s.lock.Free? then 0
    else if s.lock.visited <= |s.cache.ring.slots| then |s.cache.ring.slots| - s.lock.visited + 1
    else 1
  }

  function PostsLeft(s: System, f: nat): nat
    requires Follows(s, f)
  {
    |s.leaders[s.followers[f].leader].posts|
  }

  function TasksLeft(s: System, f: nat): nat
    requires Follows(s, f)
  {
    |QueueOf(s, s.followers[f].disp)|
  }

  /** `f` stands where it stood, and its next closure has come nearer. */
  ghost predicate Nearer(s: System, s': System, f: nat)
    requires Follows(s, f)
  {
    && Follows(s', f) && s'.followers[f] == s.followers[f]
    && var a, b := Stage(s, f), Stage(s', f);
       b <= a &&
       (b == a ==>
          ScanLeft(s') <= ScanLeft(s) &&
          (ScanLeft(s') == ScanLeft(s) ==>
             PostsLeft(s', f) <= PostsLeft(s, f) &&
             (PostsLeft(s', f) == PostsLeft(s, f) ==> TasksLeft(s', f) < TasksLeft(s, f))))
  }

  /** A closure has run on `f`, or has come nearer. */
  ghost predicate Progress(s: System, s': System, f: nat)
    requires Follows(s, f)
  {
    Nearer(s, s', f) || (f in s'.followers && |s'.followers[f].ran| > |s.followers[f].ran|)
  }

  lemma InvRing(s: System)
    requires Inv(s)
    ensures RingInv(s.cache.ring)
  {}

  function ScanAction(s: System): Action {
    if Enabled(s, VisitSlot) then VisitSlot else FinishScan
  }

  lemma VisitCounts(s: System)
    requires Inv(s) && Enabled(s, VisitSlot)
    ensures ScanLeft(Apply(s, VisitSlot)) < ScanLeft(s)
  {
    VisitInv(s.cache.ring);
    hide Store, Flights, Pins, Streams, RingInv, Visit;
  }

  lemma FinishFrees(s: System)
    requires Inv(s) && Enabled(s, FinishScan)
    ensures Apply(s, FinishScan).lock.Free?
  {
    ClosingFlight(s);
    hide Store, Flights, Pins, Streams, RingInv, Settle, Fresh;
  }

  lemma ScanKeepsStreams(s: System, a: Action)
    requires RingInv(s.cache.ring) && (a.VisitSlot? || a.FinishScan?)
    ensures var s' := Apply(s, a); s'.followers == s.followers && s'.leaders == s.leaders && s'.queues == s.queues
  {
    hide RingInv, Settle, Visit;
  }

  /** A scan goes on, whatever else waits. */
  lemma ScanMoves(s: System, f: nat)
    requires Inv(s) && s.lock.Scanning? && Follows(s, f)
    ensures Nearer(s, Apply(s, ScanAction(s)), f)
  {
    hide Flights, Pins, Streams, RingInv, EntryOk;
    assert s.lock.leader in s.leaders by { ClosingFlight(s); }
    ScanKeepsStreams(s, ScanAction(s));
    if Enabled(s, VisitSlot) { VisitCounts(s); } else { FinishFrees(s); }
    hide Store, Enabled, Apply;
  }

  lemma PostFrames(s: System, l: nat)
    requires RingInv(s.cache.ring) && Enabled(s, MakePost(l)) && s.leaders[l].posts[0].waiter in s.followers
    ensures var s', p := Apply(s, MakePost(l)), s.leaders[l].posts[0];
      var d := s.followers[p.waiter].disp;
      && s'.followers == s.followers && s'.lock == s.lock && s'.cache == s.cache
      && s'.leaders == s.leaders[l := s.leaders[l].(posts := s.leaders[l].posts[1..])]
      && s'.queues == s.queues[d := QueueOf(s, d) + [p]]
  {
    hide RingInv, QueueOf;
  }

  lemma FirstPost(s: System, l: nat)
    requires Inv(s) && Enabled(s, MakePost(l))
    ensures RingInv(s.cache.ring) && l in s.leaders && |s.leaders[l].posts| > 0
    ensures s.leaders[l].posts[0].waiter in s.followers
  {
    hide Store, Flights, Pins, FollowerOk, Delivery;
    InvRing(s);
  }

  /** A post is made: it was for `f`, or the rest is one shorter. */
  lemma PostMoves(s: System, f: nat)
    requires Inv(s) && Follows(s, f) && Enabled(s, MakePost(s.followers[f].leader)) && Stage(s, f) > 0
    ensures Nearer(s, Apply(s, MakePost(s.followers[f].leader)), f)
  {
    hide RingInv, Enabled, Apply, Inv;
    var l := s.followers[f].leader;
    FirstPost(s, l);
    var p, df := s.leaders[l].posts[0], s.followers[f].disp;
    PostFrames(s, l);
    var s' := Apply(s, MakePost(l));
    assert QueueOf(s', df) == if df == s.followers[p.waiter].disp then QueueOf(s, df) + [p] else QueueOf(s, df);
    assert p.waiter == f ==> QueueOf(s', df) == QueueOf(s, df) + [p];
    MinePush(f, QueueOf(s, df), p);
    MineFirst(f, s.leaders[l].posts);
    hide QueueOf, ScanLeft;
    assert Mine(f, QueueOf(s', df)) == Mine(f, QueueOf(s, df)) + (if p.waiter == f then [p.task] else []);
    hide Mine;
    assert Stage(s', f) <= Stage(s, f);
    assert ScanLeft(s') == ScanLeft(s) by { SameScan(s, s'); }
  }

  lemma SameScan(s: System, s': System)
    requires s'.lock == s.lock && s'.cache == s.cache
    ensures ScanLeft(s') == ScanLeft(s)
  {}

  lemma MineFirst(f: nat, posts: seq<Post>)
    requires |posts| > 0
    ensures Mine(f, posts) == (if posts[0].waiter == f then [posts[0].task] else []) + Mine(f, posts[1..])
  {}

  lemma RunFrames(s: System, f: nat)
    requires RingInv(s.cache.ring) && Follows(s, f) && Stage(s, f) == 0 && !s.followers[f].cancelled
    ensures var d := s.followers[f].disp;
      && |QueueOf(s, d)| > 0 && var s', p := Apply(s, RunTask(d)), QueueOf(s, d)[0];
      if p.waiter == f then f in s'.followers && |s'.followers[f].ran| == |s.followers[f].ran| + 1
      else
        && f in s'.followers && s'.followers[f] == s.followers[f] && s'.leaders == s.leaders && s'.lock == s.lock
        && s'.cache == s.cache && QueueOf(s', d) == QueueOf(s, d)[1..]
        && Mine(f, QueueOf(s', d)) == Mine(f, QueueOf(s, d))
  {
    assert Mine(f, []) == [];
    MineFirst(f, QueueOf(s, s.followers[f].disp));
    hide RingInv;
  }

  /** A dispatcher turn: it was for `f`, or the queue is one shorter. */
  lemma RunMoves(s: System, f: nat)
    requires RingInv(s.cache.ring) && Follows(s, f) && Stage(s, f) == 0 && !s.followers[f].cancelled
    ensures Progress(s, Apply(s, RunTask(s.followers[f].disp)), f)
  {
    hide RingInv, Apply, QueueOf, ScanLeft;
    RunFrames(s, f);
    var s' := Apply(s, RunTask(s.followers[f].disp));
    if QueueOf(s, s.followers[f].disp)[0].waiter != f { SameScan(s, s'); }
    hide Mine;
  }

  lemma QuietIsOver(s: System, f: nat)
    requires Follows(s, f) && !s.followers[f].cancelled && Delivery(s, f) && View(s, f) == s.followers[f].ran
    ensures s.leaders[s.followers[f].leader].ended ==> Over(s.followers[f].ran)
  {
    var ran := s.followers[f].ran;
    if s.leaders[s.followers[f].leader].ended {
      assert |ran| > 0 && Ending(ran[|ran| - 1]);
    }
  }

  /** Nothing is on its way to `f`: its leader has not ended, and `f` is among its waiters. */
  lemma QuietWaits(s: System, f: nat)
    requires Inv(s) && Follows(s, f) && !Closed(s, f) && Stage(s, f) == 2
    ensures var l := s.followers[f].leader; var key := s.leaders[l].key;
      && !s.leaders[l].ended && key in s.cache.inflight && f in s.cache.inflight[key].waiters
      && NoDuplicates(s.cache.inflight[key].waiters)
  {
    assert FollowerOk(s, f) && Delivery(s, f);
    assert View(s, f) == s.followers[f].ran;
    QuietIsOver(s, f);
    assert s.followers[f].key in s.cache.inflight ==> FlightOk(s, s.followers[f].key);
    hide Store, Pins, Delivery, PostsOk, Matches;
  }

  function PublishAction(s: System, l: nat): Action
    requires l in s.leaders
  {
    if s.leaders[l].headers.None? then PublishHeaders(l, [], false) else PublishData(l, "", false)
  }

  lemma PublishFrames(s: System, l: nat)
    requires RingInv(s.cache.ring) && l in s.leaders && MayPublish(s, l, s.leaders[l].headers.None?)
    requires s.leaders[l].key in s.cache.inflight
    ensures var s' := Apply(s, PublishAction(s, l));
      && s'.followers == s.followers && s'.queues == s.queues && l in s'.leaders
      && s'.leaders[l].posts == Broadcast(s.cache.inflight[s.leaders[l].key].waiters,
           if s.leaders[l].headers.None? then GiveHeaders([], false) else GiveData("", false))
  {
    hide RingInv, Broadcast;
  }

  /** The leader can publish more, and `f` will be among those who get it. */
  lemma PublishMoves(s: System, f: nat)
    requires Inv(s) && Follows(s, f) && !Closed(s, f) && s.lock.Free?
    requires Stage(s, f) == 2 && s.leaders[s.followers[f].leader].posts == []
    ensures Nearer(s, Apply(s, PublishAction(s, s.followers[f].leader)), f)
  {
    var l := s.followers[f].leader;
    QuietWaits(s, f);
    assert RingInv(s.cache.ring);
    hide Store, Flights, Pins, Streams, RingInv, Broadcast, Apply;
    PublishFrames(s, l);
    var ws := s.cache.inflight[s.leaders[l].key].waiters;
    MineBroadcast(f, ws, if s.leaders[l].headers.None? then GiveHeaders([], false) else GiveData("", false));
  }

  function NextAction(s: System, f: nat): Action
    requires Follows(s, f)
  {
    var l := s.followers[f].leader;
    if Stage(s, f) == 0 then RunTask(s.followers[f].disp)
    else if s.lock.Scanning? && (Stage(s, f) == 2 || s.lock.leader == l) then ScanAction(s)
    else if |s.leaders[l].posts| > 0 then MakePost(l)
    else PublishAction(s, l)
  }

  lemma PendingPosts(s: System, f: nat)
    requires Follows(s, f) && Stage(s, f) == 1
    ensures |s.leaders[s.followers[f].leader].posts| > 0
  {}

  lemma NextMove(s: System, f: nat)
    requires Inv(s) && Follows(s, f) && !Closed(s, f)
    ensures RingInv(s.cache.ring) && Progress(s, Apply(s, NextAction(s, f)), f)
  {
    hide Inv, RingInv, Apply, Nearer, Stage, Over, ScanAction, PublishAction;
    InvRing(s);
    if Stage(s, f) == 0 {
      RunMoves(s, f);
    } else if s.lock.Scanning? && (Stage(s, f) == 2 || s.lock.leader == s.followers[f].leader) {
      ScanMoves(s, f);
    } else if |s.leaders[s.followers[f].leader].posts| > 0 {
      PostMoves(s, f);
    } else {
      if Stage(s, f) == 1 { PendingPosts(s, f); }
      StageBound(s, f);
      PublishMoves(s, f);
    }
  }

  lemma StageBound(s: System, f: nat)
    requires Follows(s, f)
    ensures Stage(s, f) <= 2
  {}

  lemma StepsFirst(s: System, a: Action, more: seq<Action>)
    requires Inv(s)
    ensures Inv(Apply(s, a)) && Steps(s, [a] + more) == Steps(Apply(s, a), more)
  {
    ApplyKeeps(s, a);
    assert ([a] + more)[1..] == more;
    hide Inv, Apply;
  }

  /** No follower is stuck: if its handle is not cancelled and it has not run the end, steps of the others bring about that
      another closure runs on it. */
  lemma {:induction false} CanRunMore(s: System, f: nat) returns (more: seq<Action>)
    requires Inv(s) && Follows(s, f) && !Closed(s, f)
    ensures Inv(Steps(s, more)) && var s' := Steps(s, more);
      f in s'.followers && |s'.followers[f].ran| > |s.followers[f].ran|
    decreases Stage(s, f), ScanLeft(s), PostsLeft(s, f), TasksLeft(s, f)
  {
    NextMove(s, f);
    var a := NextAction(s, f);
    StepsFirst(s, a, []);
    var s1 := Apply(s, a);
    more := [a];
    hide Store, Flights, Pins, Streams, Apply, Stage, PostsLeft, TasksLeft, ScanLeft, Over;
    if Nearer(s, s1, f) {
      var rest := CanRunMore(s1, f);
      StepsFirst(s, a, rest);
      more := [a] + rest;
    } else {
      assert [a] + [] == [a];
    }
    StepsKeep(s, more);
  }

  lemma FollowerHasLeader(s: System, f: nat)
    requires Inv(s) && f in s.followers
    ensures Follows(s, f) && FollowerOk(s, f)
  {}

  /** A destroyed stream stays free of callbacks, whatever happens, exactly if its handle is cancelled or it has run the end
      of the response. */
  lemma UndisturbedExactly(s: System, f: nat)
    requires Reachable(s) && f in s.followers && s.followers[f].destroyed
    ensures Inv(s)
    ensures (forall more: seq<Action> :: Undisturbed(s, Steps(s, more), f)) <==> Closed(s, f)
  {
    ReachableInv(s);
    FollowerHasLeader(s, f);
    if Closed(s, f) {
      forall more: seq<Action>
        ensures Undisturbed(s, Steps(s, more), f)
      {
        NoCallbackAfterDestroy(s, more, f);
      }
    } else {
      var more := CanRunMore(s, f);
      assert !Undisturbed(s, Steps(s, more), f);
    }
  }

  // ---- The failing run ----

  lemma ReplyThenDestroy(s: System, f: nat)
    requires RingInv(s.cache.ring) && Follows(s, f) && !s.followers[f].destroyed && !Closed(s, f)
    ensures var s1 := Apply(s, LocalReply(f));
      && RingInv(s1.cache.ring) && var s2 := Apply(s1, Destroy(f));
         Follows(s2, f) && !Closed(s2, f) && s2.followers[f].destroyed && s2.followers[f].ran == s.followers[f].ran
  {
    hide RingInv;
  }

  /** A parked follower whose stream is ended by something other than the cache, and then destroyed, keeps its handle: steps
      of the others bring about that a closure runs on the destroyed stream. */
  lemma ReplyThenCallback(s: System, f: nat) returns (more: seq<Action>)
    requires Reachable(s) && f in s.followers && !s.followers[f].destroyed && !Closed(s, f)
    ensures Inv(s) && var s1 := Steps(s, [LocalReply(f), Destroy(f)]);
      && Inv(s1) && f in s1.followers && s1.followers[f].destroyed
      && !Undisturbed(s1, Steps(s1, more), f)
  {
    ReachableInv(s);
    FollowerHasLeader(s, f);
    ReplyThenDestroy(s, f);
    hide Store, Flights, Pins, Streams, Apply, Closed;
    StepsFirst(s, LocalReply(f), [Destroy(f)]);
    var s0 := Apply(s, LocalReply(f));
    StepsFirst(s0, Destroy(f), []);
    assert [LocalReply(f)] + [Destroy(f)] == [LocalReply(f), Destroy(f)] && [Destroy(f)] + [] == [Destroy(f)];
    var s1 := Apply(s0, Destroy(f));
    more := CanRunMore(s1, f);
  }

  const LEAD := DoLookup(0, "k", 0)
  const JOIN := DoLookup(1, "k", 0)

  lemma Joined(capacity: nat, slotCount: nat)
    requires slotCount > 0
    ensures var s0 := Initial(capacity, slotCount);
      && RingInv(s0.cache.ring) && var s1 := Apply(s0, LEAD);
         && RingInv(s1.cache.ring) && var s2 := Apply(s1, JOIN);
            1 in s2.followers && !s2.followers[1].destroyed && !Closed(s2, 1) && s2.followers[1].ran == []
  {
    EmptyInv(capacity, slotCount);
    hide RingInv;
  }

  /** For instance: a leader and a follower of one key, the follower's stream is ended by something else and destroyed, and
      steps of the others make a closure run on it. */
  lemma LateCallback(capacity: nat, slotCount: nat) returns (more: seq<Action>)
    requires slotCount > 0
    ensures Inv(Initial(capacity, slotCount))
    ensures var s := Steps(Initial(capacity, slotCount), [LEAD, JOIN]);
      && Inv(s) && 1 in s.followers && s.followers[1].ran == []
      && var t := Steps(s, [LocalReply(1), Destroy(1)]);
         && Inv(t) && 1 in t.followers && t.followers[1].destroyed
         && !Undisturbed(t, Steps(t, more), 1)
  {
    var s0 := Initial(capacity, slotCount);
    InitialInv(capacity, slotCount);
    Joined(capacity, slotCount);
    hide Inv, Apply, Closed, Initial;
    StepsFirst(s0, LEAD, [JOIN]);
    StepsFirst(Apply(s0, LEAD), JOIN, []);
    assert [LEAD] + [JOIN] == [LEAD, JOIN] && [JOIN] + [] == [JOIN];
    var s := Steps(s0, [LEAD, JOIN]);
    assert ReachedBy(s, capacity, slotCount, [LEAD, JOIN]);
    more := ReplyThenCallback(s, 1);
  }
}
