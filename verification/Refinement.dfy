/**
 The methods of the classes are steps of the protocol. Each lemma takes what
 the contract of a method says of its call, in the words of that contract, and
 shows the steps that do the same to the protocol's state.
 */
module Refinement {
  import opened Basics
  import opened Sections
  import C = Sections
  import opened Protocol
  import opened StreamFacts
  import opened ProtocolSteps
  import opened ProtocolTheorems
  import opened ProtocolProgress
  import Objects = CacheObject
  import Filter
  import opened Ring

  type Waiter = Objects.Waiter
  type Dispatcher = Objects.Dispatcher

  // ---- Objects by their numbers ----

  function Streams(ws: seq<Waiter>): (r: seq<nat>)
    ensures |r| == |ws| && forall i | 0 <= i < |ws| :: r[i] == ws[i].stream
  {
    seq(|ws|, i requires 0 <= i < |ws| => ws[i].stream)
  }

  function Flight(fl: Inflight<Waiter>): Inflight<nat> {
    Inflight(fl.headers, fl.body, Streams(fl.waiters), fl.id)
  }

  /** The guarded state with streams in place of their handles. */
  function Numbered(c: Cache<Waiter>): Cache<nat> {
    Cache(c.ring, map k | k in c.inflight :: Flight(c.inflight[k]))
  }

  function Posts(q: seq<(Waiter, Task)>): (r: seq<Post>)
    ensures |r| == |q| && forall i | 0 <= i < |q| :: r[i] == Post(q[i].0.stream, q[i].1)
  {
    seq(|q|, i requires 0 <= i < |q| => Post(q[i].0.stream, q[i].1))
  }

  /** The handle of a follower, on the thread of its stream. */
  ghost predicate Handle(s: System, w: Waiter) {
    w.stream in s.followers && s.followers[w.stream].disp == w.dispatcher.id
  }

  /** Between two calls `s` is the state of the objects: `next` lookups have been made. */
  ghost predicate Mirrors(s: System, c: Cache<Waiter>, next: nat) {
    && s.lock.Free? && s.cache == Numbered(c)
    && (forall id | id in s.leaders || id in s.followers || id in s.hits :: id < next)
    && (forall l | l in s.leaders :: s.leaders[l].posts == [])
    && (forall k, i | k in c.inflight && 0 <= i < |c.inflight[k].waiters| :: Handle(s, c.inflight[k].waiters[i]))
  }

  // ---- Lookup ----

  lemma PostsAppend(a: seq<(Waiter, Task)>, b: seq<(Waiter, Task)>)
    ensures Posts(a + b) == Posts(a) + Posts(b)
  {}

  lemma JoinNumbered(c: Cache<Waiter>, key: Key, w: Waiter)
    requires key in c.inflight
    ensures Numbered(JoinFlight(c, key, w)) == JoinFlight(Numbered(c), key, w.stream)
  {
    assert Streams(c.inflight[key].waiters + [w]) == Streams(c.inflight[key].waiters) + [w.stream];
  }

  /** What a lookup finds for its stream: a hit with the content of the entry, a new leader, or a follower of the flight. */
  ghost predicate Enters(s: System, n: nat, key: Key, disp: nat, result: Objects.LookupResult) {
    match result
    case Hit(headers, body, _) => n in s.hits && s.hits[n].key == key && s.hits[n].headers == headers && s.hits[n].body == body
    case Leader => n in s.leaders && s.leaders[n] == Leader(key, None, "", false, [])
    case Follower(w) =>
      && w.stream == n && n in s.followers && s.followers[n].key == key && s.followers[n].disp == disp == w.dispatcher.id
      && s.followers[n].ran == [] && !s.followers[n].cancelled && !s.followers[n].done
  }

  /** The steps of a lookup: a hit without a body lets go of its entry at once. */
  function LookupSteps(n: nat, key: Key, disp: nat, result: Objects.LookupResult): seq<Action> {
    [DoLookup(n, key, disp)] + if result.Hit? && result.body == "" then [ReleasePin(n)] else []
  }

  /** The state `t` is what lookup number `next` makes of `s`, with the closures `added` on the dispatcher. */
  ghost predicate LookedUp(s: System, t: System, after: Cache<Waiter>, next: nat, key: Key, disp: nat,
                           result: Objects.LookupResult, added: seq<(Waiter, Task)>) {
    && Mirrors(t, after, next + 1) && Enters(t, next, key, disp, result)
    && forall d :: QueueOf(t, d) == QueueOf(s, d) + if d == disp then Posts(added) else []
  }

  /** `Lookup` is the lookup step of its stream: same answer, same guarded state, and the closures that it puts on the
      dispatcher are those of the step. */
  lemma LookupRefines(s: System, before: Cache<Waiter>, after: Cache<Waiter>, cacheMap: map<Key, Objects.Entry>, next: nat,
                      key: Key, callbacks: Objects.StreamCallbacks, result: Objects.LookupResult)
    requires Inv(s) && Mirrors(s, before, next)
    requires Objects.Answered(before, after, cacheMap, next, key, callbacks, result)
    ensures var disp := callbacks.dispatcher.id;
      LookedUp(s, Steps(s, LookupSteps(next, key, disp, result)), after, next, key, disp, result,
               Objects.LookupPosts(before, key, result))
  {
    var disp := callbacks.dispatcher.id;
    var a, t := DoLookup(next, key, disp), Apply(s, DoLookup(next, key, disp));
    StepsFirst(s, a, []);
    StepsFirst(s, a, [ReleasePin(next)]);
    StepsFirst(t, ReleasePin(next), []);
    assert Steps(t, []) == t && [ReleasePin(next)] + [] == [ReleasePin(next)];
    assert Steps(Apply(t, ReleasePin(next)), []) == Apply(t, ReleasePin(next));
    LookupIsStep(s, before, next, key, disp);
    hide Steps, LookupStep, LookedUp, Apply;
    match Classify(before, key)
    case IsHit =>
      var e := cacheMap[key];
      HitStep(s, before, next, key, disp, e);
      HitRefines(s, before, after, next, key, disp, HitStream(key, e.id, e.headers, e.body, false), result.pin);
    case IsLeader => LeaderRefines(s, before, after, next, key, disp);
    case IsFollower => FollowerRefines(s, before, after, next, key, disp, result.waiter);
  }

  lemma LookupIsStep(s: System, before: Cache<Waiter>, next: nat, key: Key, disp: nat)
    requires Inv(s) && Mirrors(s, before, next)
    ensures Apply(s, DoLookup(next, key, disp)) == LookupStep(s, next, key, disp)
    ensures Classify(s.cache, key) == Classify(before, key)
  {
    hide Inv, LookupStep, RingInv;
  }

  /** The entry of the map is the one in the slot. */
  lemma EntryFound(r: Ring, e: Objects.Entry, i: nat)
    requires Objects.Stored(r, e) && DistinctEntries(r.slots) && i < |r.slots| && r.slots[i].Some? && r.slots[i].value.id == e.id
    ensures r.slots[i].value.headers == e.headers && r.slots[i].value.body == e.body
  {}

  /** The step of a lookup that hits. */
  lemma HitStep(s: System, c: Cache<Waiter>, next: nat, key: Key, disp: nat, e: Objects.Entry)
    requires Inv(s) && s.cache == Numbered(c) && Classify(c, key).IsHit?
    requires e.id == c.ring.index[key] && Objects.Stored(c.ring, e)
    ensures LookupStep(s, next, key, disp)
      == s.(cache := PinHit(s.cache, key), hits := s.hits[next := HitStream(key, e.id, e.headers, e.body, false)])
    ensures RingInv(PinHit(s.cache, key).ring)
  {
    var i := HitSlot(s, key);
    EntryFound(c.ring, e, i);
    PinHitRing(s.cache, key);
    hide RingInv, Pin, Find, Objects.Stored;
  }

  lemma HitRefines(s: System, before: Cache<Waiter>, after: Cache<Waiter>, next: nat, key: Key, disp: nat, h: HitStream,
                   pin: Option<Objects.Entry>)
    requires Mirrors(s, before, next) && Classify(before, key).IsHit? && h.key == key && !h.released
    requires after == if h.body == "" then before else PinHit(before, key)
    requires h.entry == before.ring.index[key] && RingInv(PinHit(s.cache, key).ring)
    ensures var t := s.(cache := PinHit(s.cache, key), hits := s.hits[next := h]);
      LookedUp(s, if h.body == "" then Apply(t, ReleasePin(next)) else t, after, next, key, disp,
               Objects.Hit(h.headers, h.body, pin), [])
  {
    hide RingInv, Pin, Unpin, PinHit, Handle, Posts;
    assert Posts([]) == [];
    QueueGrows(s, s, disp, []);
    var t := s.(cache := PinHit(s.cache, key), hits := s.hits[next := h]);
    PinHitNumbered(before, key);
    PinHitFlights(before, key);
    HitMirrors(s, before, next, t);
    hide Mirrors, Numbered, Apply, QueueOf;
    if h.body == "" {
      PinThenRelease(before, key);
      ReleaseMirrors(t, PinHit(before, key), next + 1, next);
    }
  }

  lemma PinHitFlights<W>(c: Cache<W>, key: Key)
    requires key in c.ring.index
    ensures PinHit(c, key).inflight == c.inflight
  {}

  lemma PinHitNumbered(c: Cache<Waiter>, key: Key)
    requires key in c.ring.index
    ensures PinHit(Numbered(c), key) == Numbered(PinHit(c, key))
  {
    assert PinHit(Numbered(c), key).inflight == Numbered(PinHit(c, key)).inflight;
  }

  lemma HitMirrors(s: System, c: Cache<Waiter>, next: nat, t: System)
    requires Mirrors(s, c, next) && next in t.hits
    requires t == s.(cache := t.cache, hits := s.hits[next := t.hits[next]]) && t.cache.inflight == s.cache.inflight
    ensures forall c': Cache<Waiter> | c'.inflight == c.inflight && t.cache == Numbered(c') :: Mirrors(t, c', next + 1)
  {
    forall c': Cache<Waiter> | c'.inflight == c.inflight && t.cache == Numbered(c')
      ensures Mirrors(t, c', next + 1)
    {
      forall k, i | k in c'.inflight && 0 <= i < |c'.inflight[k].waiters|
        ensures Handle(t, c'.inflight[k].waiters[i])
      {
        assert Handle(s, c.inflight[k].waiters[i]);
      }
    }
  }

  lemma ReleaseMirrors(t: System, c: Cache<Waiter>, next: nat, h: nat)
    requires RingInv(t.cache.ring) && Mirrors(t, c, next) && h in t.hits && !t.hits[h].released
    ensures Mirrors(Apply(t, ReleasePin(h)), Release(c, t.hits[h].entry), next)
    ensures Apply(t, ReleasePin(h)).queues == t.queues
    ensures Apply(t, ReleasePin(h)).hits == t.hits[h := t.hits[h].(released := true)]
  {
    hide RingInv, Unpin;
    var u, c' := Apply(t, ReleasePin(h)), Release(c, t.hits[h].entry);
    assert u.cache == Numbered(c') by { assert u.cache.inflight == Numbered(c').inflight; }
    forall k, i | k in c'.inflight && 0 <= i < |c'.inflight[k].waiters|
      ensures Handle(u, c'.inflight[k].waiters[i])
    {
      assert Handle(t, c.inflight[k].waiters[i]);
    }
  }

  lemma PinHitRing<W>(c: Cache<W>, key: Key)
    requires RingInv(c.ring) && key in c.ring.index
    ensures RingInv(Pin(c.ring, c.ring.index[key]))
  {
    PinsKeepInv(c.ring, Pin(c.ring, c.ring.index[key]).slots);
  }

  lemma LeaderRefines(s: System, before: Cache<Waiter>, after: Cache<Waiter>, next: nat, key: Key, disp: nat)
    requires Mirrors(s, before, next) && Classify(before, key).IsLeader? && after == C.OpenFlight(before, key, next)
    ensures LookedUp(s, LookupStep(s, next, key, disp), after, next, key, disp, Objects.Leader, [])
  {
    assert Streams([]) == [] && Posts([]) == [];
    var t := LookupStep(s, next, key, disp);
    assert Numbered(after).inflight == t.cache.inflight;
  }

  lemma QueueGrows(s: System, t: System, disp: nat, posts: seq<Post>)
    requires t.queues == if posts == [] then s.queues else s.queues[disp := QueueOf(s, disp) + posts]
    ensures forall d :: QueueOf(t, d) == QueueOf(s, d) + if d == disp then posts else []
  {}

  lemma FollowerHandles(s: System, before: Cache<Waiter>, after: Cache<Waiter>, next: nat, key: Key, w: Waiter, t: System)
    requires Mirrors(s, before, next) && key in before.inflight && after == JoinFlight(before, key, w)
    requires next in t.followers && t.followers == s.followers[next := t.followers[next]]
    requires w.stream == next && w.dispatcher.id == t.followers[next].disp
    ensures forall k, i | k in after.inflight && 0 <= i < |after.inflight[k].waiters| :: Handle(t, after.inflight[k].waiters[i])
  {
    forall k, i | k in after.inflight && 0 <= i < |after.inflight[k].waiters|
      ensures Handle(t, after.inflight[k].waiters[i])
    {
      if k != key || i < |before.inflight[k].waiters| {
        assert after.inflight[k].waiters[i] == before.inflight[k].waiters[i];
        assert Handle(s, before.inflight[k].waiters[i]);
      }
    }
  }

  /** The step of a lookup that joins a flight. */
  lemma JoinStep(s: System, next: nat, key: Key, disp: nat)
    requires Classify(s.cache, key).IsFollower?
    ensures var fl, t := s.cache.inflight[key], LookupStep(s, next, key, disp);
      && t == s.(cache := JoinFlight(s.cache, key, next), followers := t.followers, queues := t.queues)
      && t.followers == s.followers[next := Follower(key, fl.id, disp, false, false, false, false, [], 0, false)]
      && t.queues == if fl.headers.None? then s.queues
                     else s.queues[disp := QueueOf(s, disp) + [Post(next, Backfill(fl.headers.value, fl.body))]]
  {
    hide JoinFlight, QueueOf;
  }

  lemma BackfillPost(w: Waiter, fl: Objects.Inflight)
    ensures Posts(Objects.BackfillPosts(w, fl))
      == if fl.headers.None? then [] else [Post(w.stream, Backfill(fl.headers.value, fl.body))]
  {}

  lemma FollowerRefines(s: System, before: Cache<Waiter>, after: Cache<Waiter>, next: nat, key: Key, disp: nat, w: Waiter)
    requires Mirrors(s, before, next) && Classify(before, key).IsFollower? && after == JoinFlight(before, key, w)
    requires w.stream == next && w.dispatcher.id == disp
    ensures LookedUp(s, LookupStep(s, next, key, disp), after, next, key, disp, Objects.Follower(w),
                     Objects.BackfillPosts(w, before.inflight[key]))
  {
    hide LookupStep, JoinFlight, QueueOf, Handle, Posts, Objects.BackfillPosts;
    var t, posts := LookupStep(s, next, key, disp), Objects.BackfillPosts(w, before.inflight[key]);
    JoinNumbered(before, key, w);
    JoinStep(s, next, key, disp);
    BackfillPost(w, before.inflight[key]);
    QueueGrows(s, t, disp, Posts(posts));
    FollowerHandles(s, before, after, next, key, w, t);
    hide Numbered;
  }

  /** What a new follower finds on its dispatcher is all its own, and its encode calls show the stream everything published
      so far, each byte once and in order. */
  lemma BackfillSpells(w: Waiter, fl: Objects.Inflight)
    requires fl.headers.None? ==> fl.body == ""
    ensures var posts := Objects.BackfillPosts(w, fl);
      && (forall i | 0 <= i < |posts| :: posts[i].0 == w)
      && Flatten(Shown(posts)) == (if fl.headers.Some? then [Head(fl.headers.value)] else []) + Bs(fl.body)
  {
    match fl.headers
    case None =>
    case Some(h) =>
      var t := Backfill(h, fl.body);
      var posts := Objects.BackfillPosts(w, fl);
      assert posts[..0] == [];
      assert Shown(posts) == Shown([]) + Objects.EncodeCalls(t) == Objects.EncodeCalls(t);
      Filter.EncodeCallsFlatten(t);
  }

  /** The encode calls of closures, one after another. */
  function Shown(q: seq<(Waiter, Task)>): seq<Task> {
    if |q| == 0 then [] else Shown(q[..|q| - 1]) + Objects.EncodeCalls(q[|q| - 1].1)
  }

  // ---- Publishing ----

  /** The posts for the streams of thread `d`, in order. */
  function For(s: System, posts: seq<Post>, d: nat): seq<Post> {
    if |posts| == 0 then []
    else For(s, posts[..|posts| - 1], d) + Sent(s, posts[|posts| - 1], d)
  }

  function Sent(s: System, p: Post, d: nat): seq<Post> {
    if p.waiter in s.followers && s.followers[p.waiter].disp == d then [p] else []
  }

  lemma {:induction false} ForFirst(s: System, posts: seq<Post>, d: nat)
    requires |posts| > 0
    ensures For(s, posts, d) == Sent(s, posts[0], d) + For(s, posts[1..], d)
  {
    hide Sent;
    var init, p := posts[..|posts| - 1], posts[|posts| - 1];
    if |posts| == 1 {
      assert init == [] && posts[1..] == [];
      assert [] + Sent(s, p, d) == Sent(s, p, d) && Sent(s, p, d) + [] == Sent(s, p, d);
    } else {
      ForFirst(s, init, d);
      assert init[1..] == posts[1..][..|posts| - 2];
      assert Sent(s, posts[0], d) + For(s, init[1..], d) + Sent(s, p, d) == Sent(s, posts[0], d) + (For(s, init[1..], d) + Sent(s, p, d));
    }
  }

  /** `t` is `s` with `posts` handed to the dispatchers, and the posts of `l` made. */
  ghost predicate Handed(s: System, t: System, l: nat, posts: seq<Post>) {
    && l in s.leaders && t == s.(queues := t.queues, leaders := s.leaders[l := s.leaders[l].(posts := [])])
    && forall d :: QueueOf(t, d) == QueueOf(s, d) + For(s, posts, d)
  }

  lemma OnePost(s: System, l: nat)
    requires Enabled(s, MakePost(l)) && RingInv(s.cache.ring)
    ensures var t, p := Apply(s, MakePost(l)), s.leaders[l].posts[0];
      && t == s.(queues := t.queues, leaders := s.leaders[l := s.leaders[l].(posts := s.leaders[l].posts[1..])])
      && forall d :: QueueOf(t, d) == QueueOf(s, d) + Sent(s, p, d)
  {
    hide RingInv;
  }

  /** A leader that is left alone makes its posts one after another. */
  lemma {:induction false} AllPosts(s: System, l: nat) returns (acts: seq<Action>)
    requires Inv(s) && s.lock.Free? && l in s.leaders
    ensures Inv(s) && Handed(s, Steps(s, acts), l, s.leaders[l].posts)
    decreases if l in s.leaders then |s.leaders[l].posts| else 0
  {
    var posts := s.leaders[l].posts;
    if posts == [] {
      acts := [];
      assert s.leaders[l := s.leaders[l].(posts := [])] == s.leaders;
    } else {
      var a := MakePost(l);
      InvRing(s);
      ApplyKeeps(s, a);
      OnePost(s, l);
      var t := Apply(s, a);
      hide Inv, Apply;
      acts := AllPosts(t, l);
      StepsFirst(s, a, acts);
      HandedFirst(s, t, Steps(t, acts), l);
      acts := [a] + acts;
    }
  }

  lemma HandedFirst(s: System, t: System, u: System, l: nat)
    requires l in s.leaders && |s.leaders[l].posts| > 0
    requires t == s.(queues := t.queues, leaders := s.leaders[l := s.leaders[l].(posts := s.leaders[l].posts[1..])])
    requires forall d :: QueueOf(t, d) == QueueOf(s, d) + Sent(s, s.leaders[l].posts[0], d)
    requires Handed(t, u, l, s.leaders[l].posts[1..])
    ensures Handed(s, u, l, s.leaders[l].posts)
  {
    var posts := s.leaders[l].posts;
    hide QueueOf, Sent, For;
    forall d ensures QueueOf(u, d) == QueueOf(s, d) + For(s, posts, d) {
      ForFirst(s, posts, d);
      SameFor(s, t, posts[1..], d);
      Assoc(QueueOf(s, d), Sent(s, posts[0], d), For(s, posts[1..], d));
    }
    assert u.leaders == s.leaders[l := s.leaders[l].(posts := [])];
  }

  lemma {:induction false} SameFor(s: System, t: System, posts: seq<Post>, d: nat)
    requires t.followers == s.followers
    ensures For(s, posts, d) == For(t, posts, d)
  {
    if |posts| > 0 { SameFor(s, t, posts[..|posts| - 1], d); }
  }

  /** The dispatcher `d` is the only one of its number among those of the waiters. */
  ghost predicate Alone(d: Dispatcher, ws: seq<Waiter>) {
    forall i | 0 <= i < |ws| :: ws[i].dispatcher.id == d.id ==> ws[i].dispatcher == d
  }

  /** What a broadcast puts on a dispatcher are the posts of the protocol for its thread: to every waiter of the snapshot,
      as often as it stands there, in its order, and to nobody else. */
  lemma {:induction false} PostedIsBroadcast(s: System, d: Dispatcher, ws: seq<Waiter>, t: Task)
    requires Alone(d, ws) && forall i | 0 <= i < |ws| :: Handle(s, ws[i])
    ensures Posts(Objects.Posted(d, ws, t)) == For(s, Broadcast(Streams(ws), t), d.id)
  {
    if |ws| > 0 {
      var init, w := ws[..|ws| - 1], ws[|ws| - 1];
      PostedIsBroadcast(s, d, init, t);
      var all := Broadcast(Streams(ws), t);
      assert all[..|all| - 1] == Broadcast(Streams(init), t) && all[|all| - 1] == Post(w.stream, t);
      assert Handle(s, w);
      PostsAppend(Objects.Posted(d, init, t), if w.dispatcher == d then [(w, t)] else []);
    }
  }

  /** The same of the objects alone. */
  lemma {:induction false} PostedToEach(d: Dispatcher, ws: seq<Waiter>, t: Task, w: Waiter)
    ensures multiset(Objects.Posted(d, ws, t))[(w, t)] == if w.dispatcher == d then multiset(ws)[w] else 0
    ensures forall p | p in Objects.Posted(d, ws, t) :: p.1 == t && p.0.dispatcher == d
  {
    if |ws| > 0 {
      var init, last := ws[..|ws| - 1], ws[|ws| - 1];
      PostedToEach(d, init, t, w);
      assert ws == init + [last];
    }
  }

  lemma StoreNumbered(c: Cache<Waiter>, key: Key, headers: Headers, data: Bytes)
    ensures StoreHeaders(Numbered(c), key, headers) == Numbered(StoreHeaders(c, key, headers))
    ensures StoreData(Numbered(c), key, data) == Numbered(StoreData(c, key, data))
  {}

  lemma CloseNumbered(c: Cache<Waiter>, key: Key)
    requires RingInv(c.ring) && key in c.inflight && c.inflight[key].headers.Some?
    ensures Close(Numbered(c), key) == Numbered(Close(c, key))
  {
    hide Finalize, RingInv;
    assert Close(Numbered(c), key).inflight == Numbered(Close(c, key)).inflight;
  }

  /** The lock holder alone takes steps. */
  lemma {:induction false} ScanIsSteps(s: System) returns (acts: seq<Action>)
    requires Inv(s) && s.lock.Scanning?
    ensures Inv(s) && Inv(Steps(s, acts)) && Steps(s, acts) == ScanAlone(s)
    ensures var t := Steps(s, acts);
      t == s.(cache := t.cache, lock := t.lock, finished := t.finished) && t.lock.Free?
    decreases if s.lock.Scanning? then |s.cache.ring.slots| - s.lock.visited else 0
  {
    if Enabled(s, VisitSlot) {
      ApplyKeeps(s, VisitSlot);
      VisitInv(s.cache.ring);
      var t := Apply(s, VisitSlot);
      acts := ScanIsSteps(t);
      hide Inv, Apply, Enabled;
      StepsFirst(s, VisitSlot, acts);
      acts := [VisitSlot] + acts;
    } else {
      ClosingFlight(s);
      ApplyKeeps(s, FinishScan);
      hide Inv;
      assert [FinishScan][1..] == [];
      acts := [FinishScan];
    }
  }

  lemma {:induction false} StepsTogether(s: System, a: seq<Action>, b: seq<Action>)
    requires Inv(s)
    ensures Inv(Steps(s, a)) && Steps(s, a + b) == Steps(Steps(s, a), b)
    decreases |a|
  {
    if |a| == 0 {
      assert a + b == b;
    } else {
      ApplyKeeps(s, a[0]);
      hide Inv, Apply;
      StepsTogether(Apply(s, a[0]), a[1..], b);
      assert (a + b)[1..] == a[1..] + b;
    }
  }

  /** What a whole publish call of leader `l` comes to: `stored` is the guarded state once headers or data are kept. */
  ghost predicate Published(s: System, u: System, l: nat, stored: Cache<nat>, le: Leader, t: Task)
    requires RingInv(stored.ring) && le.key in s.cache.inflight && le.key in stored.inflight
    requires stored.inflight[le.key].headers.Some?
  {
    && u.lock.Free? && u.cache == (if le.ended then Close(stored, le.key) else stored)
    && u.followers == s.followers && u.hits == s.hits && u.leaders == s.leaders[l := le.(posts := [])]
    && forall d :: QueueOf(u, d) == QueueOf(s, d) + For(s, Broadcast(s.cache.inflight[le.key].waiters, t), d)
  }

  /** A publish step, the scan if the response has ended, and the posts. */
  lemma PublishRun(s: System, s1: System, l: nat, stored: Cache<nat>, le: Leader, t: Task) returns (acts: seq<Action>)
    requires s.lock.Free? && l in s.leaders && le.key in s.cache.inflight && le.key in stored.inflight
    requires stored.inflight[le.key].headers.Some? && RingInv(stored.ring) && Inv(s1)
    requires s1 == s.(cache := stored, lock := if le.ended then Scanning(l, 0) else Free,
                      leaders := s.leaders[l := le.(posts := Broadcast(s.cache.inflight[le.key].waiters, t))])
    ensures Published(s, Steps(s1, acts), l, stored, le, t)
  {
    hide Inv, Apply, Close, RingInv, Broadcast, For, Sent, Enabled, Steps;
    var scan, s2 := ScanPart(s1, l, le.ended);
    var b := Broadcast(s.cache.inflight[le.key].waiters, t);
    var posts := AllPosts(s2, l);
    StepsTogether(s1, scan, posts);
    acts := scan + posts;
    forall d ensures For(s2, b, d) == For(s, b, d) { SameFor(s, s2, b, d); }
    assert s2.leaders[l := le.(posts := [])] == s.leaders[l := le.(posts := [])];
  }

  lemma ScanPart(s1: System, l: nat, end: bool) returns (scan: seq<Action>, s2: System)
    requires Inv(s1) && l in s1.leaders && s1.lock == if end then Scanning(l, 0) else Free
    ensures Inv(s2) && s2 == Steps(s1, scan) && s2.lock.Free?
    ensures s2 == s1.(cache := s2.cache, lock := Free, finished := s2.finished)
    ensures RingInv(s1.cache.ring)
    ensures if end then s1.leaders[l].key in s1.cache.inflight && s1.cache.inflight[s1.leaders[l].key].headers.Some?
                        && s2.cache == Close(s1.cache, s1.leaders[l].key)
            else s2 == s1
  {
    InvRing(s1);
    hide Inv, Apply, Close, RingInv, ScanAlone, Enabled;
    scan, s2 := [], s1;
    if end {
      StepsAreTheSection(s1);
      scan := ScanIsSteps(s1);
      s2 := Steps(s1, scan);
    }
  }

  /** Between calls the flight of a key and its leader are in step, and the leader may go on publishing. */
  lemma LeaderWaits(s: System, c: Cache<Waiter>, next: nat, key: Key)
    requires Inv(s) && Mirrors(s, c, next) && key in c.inflight
    ensures var fl := c.inflight[key];
      && fl.id in s.leaders && MayPublish(s, fl.id, fl.headers.None?)
      && s.leaders[fl.id] == Leader(key, fl.headers, fl.body, false, [])
      && key in s.cache.inflight && s.cache.inflight[key].waiters == Streams(fl.waiters)
  {
    assert FlightOk(s, key);
    hide Store, Pins, Streams;
  }

  /** The state after a publish call is that of the objects. */
  lemma PublishedMirrors(s: System, c: Cache<Waiter>, next: nat, u: System, l: nat, le: Leader, after: Cache<Waiter>)
    requires Mirrors(s, c, next) && l in s.leaders
    requires u.lock.Free? && u.cache == Numbered(after) && u.followers == s.followers && u.hits == s.hits
    requires u.leaders == s.leaders[l := le.(posts := [])]
    requires forall k | k in after.inflight :: k in c.inflight && after.inflight[k].waiters == c.inflight[k].waiters
    ensures Mirrors(u, after, next)
  {
    forall k, i | k in after.inflight && 0 <= i < |after.inflight[k].waiters|
      ensures Handle(u, after.inflight[k].waiters[i])
    {
      assert Handle(s, c.inflight[k].waiters[i]);
    }
  }

  /** What a publish call puts on the dispatcher `d`. */
  ghost predicate Reaches(s: System, u: System, ws: seq<Waiter>, t: Task, d: Dispatcher) {
    Alone(d, ws) ==> QueueOf(u, d.id) == QueueOf(s, d.id) + Posts(Objects.Posted(d, ws, t))
  }

  lemma PublishedReaches(s: System, c: Cache<Waiter>, next: nat, key: Key, u: System, t: Task)
    requires Mirrors(s, c, next) && key in c.inflight
    requires forall d :: QueueOf(u, d) == QueueOf(s, d) + For(s, Broadcast(Streams(c.inflight[key].waiters), t), d)
    ensures forall d :: Reaches(s, u, c.inflight[key].waiters, t, d)
  {
    var ws := c.inflight[key].waiters;
    forall i | 0 <= i < |ws| ensures Handle(s, ws[i]) {}
    forall d ensures Reaches(s, u, ws, t, d) {
      if Alone(d, ws) { PostedIsBroadcast(s, d, ws, t); }
    }
  }

  lemma HeadersStep(s: System, l: nat, headers: Headers, end: bool)
    requires MayPublish(s, l, true) && s.leaders[l].key in s.cache.inflight && RingInv(s.cache.ring)
    ensures var t := Apply(s, Action.PublishHeaders(l, headers, end));
      t == s.(cache := StoreHeaders(s.cache, s.leaders[l].key, headers), lock := if end then Scanning(l, 0) else Free,
              leaders := s.leaders[l := s.leaders[l].(headers := Some(headers), ended := end,
                posts := Broadcast(s.cache.inflight[s.leaders[l].key].waiters, GiveHeaders(headers, end)))])
  {
    hide RingInv, Broadcast, StoreHeaders;
  }

  lemma DataStep(s: System, l: nat, data: Bytes, end: bool)
    requires MayPublish(s, l, false) && s.leaders[l].key in s.cache.inflight && RingInv(s.cache.ring)
    ensures var t := Apply(s, Action.PublishData(l, data, end));
      t == s.(cache := StoreData(s.cache, s.leaders[l].key, data), lock := if end then Scanning(l, 0) else Free,
              leaders := s.leaders[l := s.leaders[l].(body := s.leaders[l].body + data, ended := end,
                posts := Broadcast(s.cache.inflight[s.leaders[l].key].waiters, GiveData(data, end)))])
  {
    hide RingInv, Broadcast, StoreData;
  }

  /** `PublishHeaders`, called once for a flight: the publish step of its leader, the scan and the posts; the objects' posts are
      the protocol's. */
  lemma PublishHeadersRefines(s: System, c: Cache<Waiter>, next: nat, key: Key, headers: Headers, end: bool)
    returns (acts: seq<Action>)
    requires Inv(s) && Mirrors(s, c, next) && key in c.inflight && c.inflight[key].headers.None?
    ensures RingInv(c.ring) && Inv(Steps(s, acts))
    ensures Mirrors(Steps(s, acts), C.PublishHeaders(c, key, headers, end), next)
    ensures forall d :: Reaches(s, Steps(s, acts), c.inflight[key].waiters, GiveHeaders(headers, end), d)
  {
    hide Inv;
    InvRing(s);
    LeaderWaits(s, c, next, key);
    var l := c.inflight[key].id;
    var le, t := s.leaders[l].(headers := Some(headers), ended := end), GiveHeaders(headers, end);
    var a, stored := Action.PublishHeaders(l, headers, end), StoreHeaders(s.cache, key, headers);
    PublishHeadersKeeps(s, l, headers, end);
    HeadersStep(s, l, headers, end);
    StoreNumbered(c, key, headers, "");
    hide Inv, Apply, RingInv, Mirrors, MayPublish, Broadcast, Steps, PublishStep, Numbered;
    acts := PublishRun(s, Apply(s, a), l, stored, le, t);
    StepsFirst(s, a, acts);
    StepsTogether(s, [a] + acts, []);
    acts := [a] + acts;
    FinishPublish(s, c, next, key, Steps(s, acts), l, le, StoreHeaders(c, key, headers), t);
  }

  lemma FinishPublish(s: System, c: Cache<Waiter>, next: nat, key: Key, u: System, l: nat, le: Leader,
                      kept: Cache<Waiter>, t: Task)
    requires Mirrors(s, c, next) && l in s.leaders && key in c.inflight && key in kept.inflight && RingInv(kept.ring)
    requires le.key == key && kept.inflight[key].headers.Some? && kept.inflight.Keys == c.inflight.Keys
    requires forall k | k in c.inflight :: kept.inflight[k].waiters == c.inflight[k].waiters
    requires Published(s, u, l, Numbered(kept), le, t)
    ensures Mirrors(u, if le.ended then Close(kept, key) else kept, next)
    ensures forall d :: Reaches(s, u, c.inflight[key].waiters, t, d)
  {
    hide Finalize, RingInv;
    if le.ended { CloseNumbered(kept, key); }
    PublishedMirrors(s, c, next, u, l, le, if le.ended then Close(kept, key) else kept);
    PublishedReaches(s, c, next, key, u, t);
  }

  /** `PublishData`, likewise. */
  lemma PublishDataRefines(s: System, c: Cache<Waiter>, next: nat, key: Key, data: Bytes, end: bool)
    returns (acts: seq<Action>)
    requires Inv(s) && Mirrors(s, c, next) && key in c.inflight && c.inflight[key].headers.Some?
    ensures RingInv(c.ring) && Inv(Steps(s, acts))
    ensures Mirrors(Steps(s, acts), C.PublishData(c, key, data, end), next)
    ensures forall d :: Reaches(s, Steps(s, acts), c.inflight[key].waiters, GiveData(data, end), d)
  {
    hide Inv;
    InvRing(s);
    LeaderWaits(s, c, next, key);
    var l := c.inflight[key].id;
    var le, t := s.leaders[l].(body := s.leaders[l].body + data, ended := end), GiveData(data, end);
    var a, stored := Action.PublishData(l, data, end), StoreData(s.cache, key, data);
    PublishDataKeeps(s, l, data, end);
    DataStep(s, l, data, end);
    StoreNumbered(c, key, [], data);
    hide Inv, Apply, RingInv, Mirrors, MayPublish, Broadcast, Steps, PublishStep, Numbered;
    acts := PublishRun(s, Apply(s, a), l, stored, le, t);
    StepsFirst(s, a, acts);
    StepsTogether(s, [a] + acts, []);
    acts := [a] + acts;
    FinishPublish(s, c, next, key, Steps(s, acts), l, le, StoreData(c, key, data), t);
  }

  // ---- A stream is destroyed, a dispatcher turns ----

  lemma SwapPopStreams(ws: seq<Waiter>, w: Waiter, i: nat)
    requires i <= |ws| && forall j | 0 <= j < |ws| && ws[j].stream == w.stream :: ws[j] == w
    ensures Streams(SwapPop(ws, w, i)) == SwapPop(Streams(ws), w.stream, i)
    decreases |ws| - i
  {
    if i < |ws| && ws[i] != w { SwapPopStreams(ws, w, i + 1); }
  }

  /** The two steps of a follower that is destroyed before its response has ended. */
  lemma DestroySteps(s: System, f: nat)
    requires Inv(s) && s.lock.Free? && f in s.followers && !s.followers[f].destroyed && !s.followers[f].done
    ensures Steps(s, [Destroy(f), Detach(f)])
      == s.(cache := Remove(s.cache, s.followers[f].key, f),
            followers := s.followers[f := s.followers[f].(destroyed := true, cancelled := true, detaching := false)])
  {
    hide Inv, Remove;
    InvRing(s);
    StepsFirst(s, Destroy(f), [Detach(f)]);
    var s1 := Apply(s, Destroy(f));
    InvRing(s1);
    StepsFirst(s1, Detach(f), []);
    assert [Destroy(f)] + [Detach(f)] == [Destroy(f), Detach(f)] && [Detach(f)] + [] == [Detach(f)];
    hide RingInv, Steps;
    NoSteps(Apply(s1, Detach(f)));
    var fo := s.followers[f].(destroyed := true, cancelled := true);
    assert s1.followers[f] == fo.(detaching := true);
    assert s1.followers[f := fo.(detaching := false)] == s.followers[f := fo.(detaching := false)];
  }

  lemma NoSteps(s: System)
    requires Inv(s)
    ensures Steps(s, []) == s
  {
    hide Inv;
  }

  /** No other handle in a flight has the number of `w`. */
  ghost predicate Only(c: Cache<Waiter>, w: Waiter) {
    forall k, i | k in c.inflight && 0 <= i < |c.inflight[k].waiters| && c.inflight[k].waiters[i].stream == w.stream ::
      c.inflight[k].waiters[i] == w
  }

  /** `OnDestroy` of a follower that is not done: it is cancelled, and its handle taken out of the flight of its key. */
  lemma DestroyRefines(s: System, c: Cache<Waiter>, next: nat, w: Waiter)
    requires Inv(s) && Mirrors(s, c, next) && Only(c, w)
    requires Handle(s, w) && !s.followers[w.stream].destroyed && !s.followers[w.stream].done
    ensures var t := Steps(s, [Destroy(w.stream), Detach(w.stream)]);
      && Mirrors(t, Remove(c, s.followers[w.stream].key, w), next) && Handle(t, w) && t.queues == s.queues
      && t.followers[w.stream] == s.followers[w.stream].(destroyed := true, cancelled := true, detaching := false)
  {
    hide Inv;
    var f, key := w.stream, s.followers[w.stream].key;
    DestroySteps(s, f);
    var t := Steps(s, [Destroy(f), Detach(f)]);
    hide Steps;
    if key in c.inflight { SwapPopStreams(c.inflight[key].waiters, w, 0); }
    assert t.cache.inflight == Numbered(Remove(c, key, w)).inflight;
    RemoveHandles(s, c, key, w, t);
  }

  lemma RemoveHandles(s: System, c: Cache<Waiter>, key: Key, w: Waiter, t: System)
    requires forall k, i | k in c.inflight && 0 <= i < |c.inflight[k].waiters| :: Handle(s, c.inflight[k].waiters[i])
    requires t.followers.Keys == s.followers.Keys && forall f | f in s.followers :: t.followers[f].disp == s.followers[f].disp
    ensures var c' := Remove(c, key, w);
      forall k, i | k in c'.inflight && 0 <= i < |c'.inflight[k].waiters| :: Handle(t, c'.inflight[k].waiters[i])
  {
    var c' := Remove(c, key, w);
    forall k, i | k in c'.inflight && 0 <= i < |c'.inflight[k].waiters|
      ensures Handle(t, c'.inflight[k].waiters[i])
    {
      var ws := c.inflight[k].waiters;
      if k == key { SwapPopFrom(ws, w, 0); }
      assert c'.inflight[k].waiters[i] in ws;
      var j :| 0 <= j < |ws| && ws[j] == c'.inflight[k].waiters[i];
      assert Handle(s, ws[j]);
    }
  }

  lemma SwapPopFrom(ws: seq<Waiter>, w: Waiter, i: nat)
    requires i <= |ws|
    ensures forall x | x in SwapPop(ws, w, i) :: x in ws
    decreases |ws| - i
  {
    if i < |ws| && ws[i] != w { SwapPopFrom(ws, w, i + 1); }
  }

  /** A turn of a dispatcher: the closure that leaves the queue runs on its stream unless the handle is cancelled. */
  lemma TurnRefines(s: System, d: nat, queue: seq<(Waiter, Task)>)
    requires Inv(s) && QueueOf(s, d) == Posts(queue) && |queue| > 0
    ensures queue[0].0.stream in s.followers
    ensures var w, t, u := queue[0].0, queue[0].1, Steps(s, [RunTask(d)]);
      && QueueOf(u, d) == Posts(queue[1..]) && u.cache == s.cache && w.stream in u.followers
      && Shows(s.followers[w.stream], u.followers[w.stream], t)
  {
    hide Inv, Flatten;
    var w, t := queue[0].0, queue[0].1;
    assert Posts(queue)[0] == Post(w.stream, t) && Posts(queue)[1..] == Posts(queue[1..]);
    InvRing(s);
    StepsFirst(s, RunTask(d), []);
    assert [RunTask(d)] + [] == [RunTask(d)];
    QueueKnown(s, d);
    hide RingInv, Steps;
    NoSteps(Apply(s, RunTask(d)));
    hide Posts;
    Filter.EncodeCallsFlatten(t);
    FlattenOne(s.followers[w.stream].ran, t);
  }

  /** The stream has been shown the encode calls of `t`, or nothing if it is cancelled. */
  ghost predicate Shows(f: Follower, g: Follower, t: Task) {
    && g.cancelled == f.cancelled
    && Flatten(g.ran) == if f.cancelled then Flatten(f.ran) else Flatten(f.ran) + Flatten(Objects.EncodeCalls(t))
  }

  lemma QueueKnown(s: System, d: nat)
    requires Inv(s) && |QueueOf(s, d)| > 0
    ensures QueueOf(s, d)[0].waiter in s.followers
  {
    hide Store, Flights, Pins, FollowerOk, Delivery;
  }

  // ---- The objects inherit the theorems ----

  /** Between two calls, whenever it joined: what a follower that is not cancelled has been shown, and what waits for it on its
      thread, spell out the headers and the bytes that its flight has published so far, each once and in order. */
  lemma WaiterIsServed(s: System, c: Cache<Waiter>, next: nat, key: Key, i: nat, queue: seq<(Waiter, Task)>)
    requires Reachable(s) && Mirrors(s, c, next) && key in c.inflight && i < |c.inflight[key].waiters|
    requires var w := c.inflight[key].waiters[i];
      w.stream in s.followers && !s.followers[w.stream].cancelled && QueueOf(s, w.dispatcher.id) == Posts(queue)
    ensures var fl, f := c.inflight[key], c.inflight[key].waiters[i].stream;
      Flatten(s.followers[f].ran + Mine(f, Posts(queue)))
        == (if fl.headers.Some? then [Head(fl.headers.value)] else []) + Bs(fl.body)
  {
    ReachableInv(s);
    var w, fl := c.inflight[key].waiters[i], c.inflight[key];
    LeaderWaits(s, c, next, key);
    assert Handle(s, w);
    assert FlightOk(s, key) && s.cache.inflight[key].waiters[i] == w.stream;
    assert Delivery(s, w.stream);
    hide Inv, Reachable;
    var ran, mine := s.followers[w.stream].ran, Mine(w.stream, Posts(queue));
    assert Mine(w.stream, []) == [] && ran + mine + [] == ran + mine;
    assert Content(s.leaders[fl.id]) == (if fl.headers.Some? then [Head(fl.headers.value)] else []) + Bs(fl.body) + [];
  }
}
