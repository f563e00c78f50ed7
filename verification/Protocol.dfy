/**
 The coalescing protocol as a state machine. A critical section is one step,
 except that the eviction loop is one step per slot visited, so that pins may
 fall in between. Each post to a dispatcher, each dispatcher turn, each pin
 release and each stream destruction is a step of its own.

 Streams are numbered; the number of a leader also names its flight and the
 entry its response is stored in.
 */
module Protocol {
  import opened Basics
  import opened Ring
  import opened Sections

  /** A closure posted to a follower's dispatcher. */
  datatype Task =
    | Backfill(headers: Headers, prefix: Bytes)
    | GiveHeaders(headers: Headers, end: bool)
    | GiveData(data: Bytes, end: bool)

  datatype Post = Post(waiter: nat, task: Task)

  /** Who holds the mutex between two steps: nobody, or a leader inside the eviction loop. */
  datatype Lock = Free | Scanning(leader: nat, visited: nat)

  /** `headers`, `body` and `ended` record what the leader has published so far;
      `posts` are the posts of its current publish call still to be made. */
  datatype Leader = Leader(key: Key, headers: Option<Headers>, body: Bytes, ended: bool, posts: seq<Post>)

  /** `ran` records the closures executed on the stream and `late` counts those after its destruction; `replied` records
      that something other than the cache has ended the stream's response. */
  datatype Follower = Follower(key: Key, leader: nat, disp: nat, cancelled: bool, done: bool,
                               destroyed: bool, detaching: bool, ran: seq<Task>, late: nat, replied: bool)

  /** A stream answered from the ring, and what it was answered. */
  datatype HitStream = HitStream(key: Key, entry: nat, headers: Headers, body: Bytes, released: bool)

  datatype System = System(cache: Cache<nat>, lock: Lock, leaders: map<nat, Leader>, followers: map<nat, Follower>,
                           hits: map<nat, HitStream>, queues: map<nat, seq<Post>>, finished: map<Key, nat>)

  function Initial(capacity: nat, slotCount: nat): System {
    System(Cache(Empty(capacity, slotCount), map[]), Free, map[], map[], map[], map[], map[])
  }

  // ---- What a follower sees ----

  datatype Atom = Head(headers: Headers) | Byte(b: char) | End

  function Bs(b: Bytes): seq<Atom> {
    seq(|b|, i requires 0 <= i < |b| => Byte(b[i]))
  }

  function EndIf(end: bool): seq<Atom> {
    if end then [End] else []
  }

  function Atoms(t: Task): seq<Atom> {
    match t
    case Backfill(h, p) => [Head(h)] + Bs(p)
    case GiveHeaders(h, end) => [Head(h)] + EndIf(end)
    case GiveData(d, end) => Bs(d) + EndIf(end)
  }

  predicate Ending(t: Task) {
    !t.Backfill? && t.end
  }

  function Flatten(ts: seq<Task>): seq<Atom> {
    if |ts| == 0 then [] else Flatten(ts[..|ts| - 1]) + Atoms(ts[|ts| - 1])
  }

  /** The response as published so far. */
  function Content(l: Leader): seq<Atom> {
    (if l.headers.Some? then [Head(l.headers.value)] else []) + Bs(l.body) + EndIf(l.ended)
  }

  /** The closures in `posts` meant for `f`, in order. */
  function Mine(f: nat, posts: seq<Post>): seq<Task> {
    if |posts| == 0 then []
    else (if posts[0].waiter == f then [posts[0].task] else []) + Mine(f, posts[1..])
  }

  function QueueOf(s: System, d: nat): seq<Post> {
    if d in s.queues then s.queues[d] else []
  }

  /** All closures of `f`: executed, queued on its dispatcher, or still to be posted by its leader. */
  function View(s: System, f: nat): seq<Task>
    requires f in s.followers && s.followers[f].leader in s.leaders
  {
    var fo := s.followers[f];
    fo.ran + Mine(f, QueueOf(s, fo.disp)) + Mine(f, s.leaders[fo.leader].posts)
  }

  function Broadcast(waiters: seq<nat>, t: Task): seq<Post> {
    seq(|waiters|, i requires 0 <= i < |waiters| => Post(waiters[i], t))
  }

  // ---- Steps ----

  datatype Action =
    | DoLookup(stream: nat, key: Key, disp: nat)
    | ReleasePin(hit: nat)
    | PublishHeaders(leader: nat, headers: Headers, end: bool)
    | PublishData(leader: nat, data: Bytes, end: bool)
    | VisitSlot
    | FinishScan
    | MakePost(leader: nat)
    | RunTask(disp: nat)
    | LocalReply(follower: nat)
    | Destroy(follower: nat)
    | Detach(follower: nat)

  predicate NewStream(s: System, id: nat) {
    id !in s.leaders && id !in s.followers && id !in s.hits
  }

  function Need(l: Leader): nat {
    |l.key| + (if l.headers.Some? then |l.headers.value| else 0) + |l.body|
  }

  /** The eviction loop of `l` goes on after `visited` turns. */
  predicate MustVisit(r: Ring, l: Leader, visited: nat) {
    Need(l) <= r.capacity && !Fits(r, Need(l)) && visited < |r.slots|
  }

  /** A leader publishes headers once, then data, and its calls do not overlap. */
  predicate MayPublish(s: System, l: nat, first: bool) {
    && s.lock.Free? && l in s.leaders && !s.leaders[l].ended && |s.leaders[l].posts| == 0
    && s.leaders[l].headers.None? == first
  }

  predicate Enabled(s: System, a: Action) {
    match a
    case DoLookup(id, key, disp) => s.lock.Free? && NewStream(s, id)
    case ReleasePin(h) => h in s.hits && !s.hits[h].released
    case PublishHeaders(l, headers, end) => MayPublish(s, l, true)
    case PublishData(l, data, end) => MayPublish(s, l, false)
    case VisitSlot =>
      s.lock.Scanning? && s.lock.leader in s.leaders && MustVisit(s.cache.ring, s.leaders[s.lock.leader], s.lock.visited)
    case FinishScan =>
      s.lock.Scanning? && s.lock.leader in s.leaders && !MustVisit(s.cache.ring, s.leaders[s.lock.leader], s.lock.visited)
    case MakePost(l) =>
      l in s.leaders && |s.leaders[l].posts| > 0 && !(s.lock.Scanning? && s.lock.leader == l)
    case RunTask(d) => |QueueOf(s, d)| > 0
    case LocalReply(f) => f in s.followers && !s.followers[f].destroyed
    case Destroy(f) => f in s.followers && !s.followers[f].destroyed
    case Detach(f) => s.lock.Free? && f in s.followers && s.followers[f].detaching
  }

  /** A slot that holds entry object `id`. */
  ghost predicate Lives(r: Ring, id: nat, i: nat) {
    i < |r.slots| && r.slots[i].Some? && r.slots[i].value.id == id
  }

  function Find(slots: Slots, id: nat): Option<Entry> {
    if |slots| == 0 then None
    else if slots[0].Some? && slots[0].value.id == id then slots[0]
    else Find(slots[1..], id)
  }

  function LookupStep(s: System, id: nat, key: Key, disp: nat): System {
    var s' := s.(cache := Lookup(s.cache, key, id, id));
    match Classify(s.cache, key)
    case IsHit =>
      var e := Find(s.cache.ring.slots, s.cache.ring.index[key]);
      if e.None? then s'
      else s'.(hits := s.hits[id := HitStream(key, e.value.id, e.value.headers, e.value.body, false)])
    case IsLeader =>
      s'.(leaders := s.leaders[id := Leader(key, None, "", false, [])])
    case IsFollower =>
      var fl := s.cache.inflight[key];
      var s1 := s'.(followers := s.followers[id := Follower(key, fl.id, disp, false, false, false, false, [], 0, false)]);
      if fl.headers.None? then s1
      else s1.(queues := s.queues[disp := QueueOf(s, disp) + [Post(id, Backfill(fl.headers.value, fl.body))]])
  }

  /** Both publish calls: the locked part, up to the finalization, with the snapshot of the waiters. */
  function PublishStep(s: System, l: nat, cache: Cache<nat>, le: Leader, t: Task): System
    requires l in s.leaders
  {
    if le.key !in s.cache.inflight then s
    else s.(cache := cache, lock := if le.ended then Scanning(l, 0) else Free,
            leaders := s.leaders[l := le.(posts := Broadcast(s.cache.inflight[le.key].waiters, t))])
  }

  function FinishStep(s: System): System
    requires s.lock.Scanning? && s.lock.leader in s.leaders && s.cache.ring.head < |s.cache.ring.slots|
  {
    var key := s.leaders[s.lock.leader].key;
    if key in s.cache.inflight && s.cache.inflight[key].headers.Some? then
      var fl := s.cache.inflight[key];
      s.(cache := Cache(Settle(s.cache.ring, key, fl.headers.value, fl.body, fl.id), s.cache.inflight - {key}),
         lock := Free, finished := s.finished[key := fl.id])
    else s
  }

  /** A dispatcher turn: the closure checks the cancelled flag, then encodes on the stream. */
  function RunStep(s: System, d: nat): System
    requires |QueueOf(s, d)| > 0
  {
    var p := QueueOf(s, d)[0];
    var s' := s.(queues := s.queues[d := QueueOf(s, d)[1..]]);
    if p.waiter !in s.followers || s.followers[p.waiter].cancelled then s'
    else
      var fo := s.followers[p.waiter];
      s'.(followers := s.followers[p.waiter := fo.(
        ran := fo.ran + [p.task], done := fo.done || Ending(p.task),
        late := if fo.destroyed then fo.late + 1 else fo.late)])
  }

  /** The filter sees the end of a response that did not come from the cache, and takes the stream for done. */
  function ReplyStep(s: System, f: nat): System
    requires f in s.followers
  {
    s.(followers := s.followers[f := s.followers[f].(done := true, replied := true)])
  }

  function DestroyStep(s: System, f: nat): System
    requires f in s.followers
  {
    var fo := s.followers[f];
    s.(followers := s.followers[f :=
      if fo.done then fo.(destroyed := true) else fo.(destroyed := true, cancelled := true, detaching := true)])
  }

  function Apply(s: System, a: Action): System
    requires RingInv(s.cache.ring)
  {
    if !Enabled(s, a) then s else
    match a
    case DoLookup(id, key, disp) => LookupStep(s, id, key, disp)
    case ReleasePin(h) =>
      s.(hits := s.hits[h := s.hits[h].(released := true)],
         cache := s.cache.(ring := Unpin(s.cache.ring, s.hits[h].entry)))
    case PublishHeaders(l, headers, end) =>
      var le := s.leaders[l];
      PublishStep(s, l, StoreHeaders(s.cache, le.key, headers), le.(headers := Some(headers), ended := end),
                  GiveHeaders(headers, end))
    case PublishData(l, data, end) =>
      var le := s.leaders[l];
      PublishStep(s, l, StoreData(s.cache, le.key, data), le.(body := le.body + data, ended := end),
                  GiveData(data, end))
    case VisitSlot =>
      s.(cache := s.cache.(ring := Visit(s.cache.ring)), lock := s.lock.(visited := s.lock.visited + 1))
    case FinishScan => FinishStep(s)
    case MakePost(l) =>
      var le := s.leaders[l];
      var p := le.posts[0];
      var s' := s.(leaders := s.leaders[l := le.(posts := le.posts[1..])]);
      if p.waiter !in s.followers then s'
      else s'.(queues := s.queues[s.followers[p.waiter].disp := QueueOf(s, s.followers[p.waiter].disp) + [p]])
    case RunTask(d) => RunStep(s, d)
    case LocalReply(f) => ReplyStep(s, f)
    case Destroy(f) => DestroyStep(s, f)
    case Detach(f) =>
      var fo := s.followers[f];
      s.(cache := Remove(s.cache, fo.key, f), followers := s.followers[f := fo.(detaching := false)])
  }

  // ---- Invariant ----

  /** The flight of `l` is open: its last section has not run to the end. */
  predicate Open(s: System, l: nat)
    requires l in s.leaders
  {
    !s.leaders[l].ended || (s.lock.Scanning? && s.lock.leader == l)
  }

  ghost predicate LockOk(s: System) {
    s.lock.Scanning? ==> s.lock.leader in s.leaders && s.leaders[s.lock.leader].ended
  }

  ghost predicate LeaderOk(l: Leader) {
    l.headers.None? ==> l.body == "" && !l.ended && l.posts == []
  }

  /** Open flights and leaders are in step, one flight per key. */
  ghost predicate FlightOk(s: System, k: Key)
    requires k in s.cache.inflight
  {
    var fl := s.cache.inflight[k];
    && k !in s.cache.ring.index
    && fl.id in s.leaders && Open(s, fl.id)
    && s.leaders[fl.id].key == k && s.leaders[fl.id].headers == fl.headers && s.leaders[fl.id].body == fl.body
    && NoDuplicates(fl.waiters)
    && (forall w | w in fl.waiters :: w in s.followers && s.followers[w].leader == fl.id)
  }

  ghost predicate Flights(s: System) {
    && LockOk(s)
    && (forall l | l in s.leaders :: LeaderOk(s.leaders[l]))
    && (forall k | k in s.cache.inflight :: FlightOk(s, k))
    && (forall l | l in s.leaders && Open(s, l) ::
          s.leaders[l].key in s.cache.inflight && s.cache.inflight[s.leaders[l].key].id == l)
  }

  /** The response of `l` is complete and is what `headers` and `body` say. */
  ghost predicate Complete(s: System, l: nat, key: Key, headers: Headers, body: Bytes) {
    && l in s.leaders && !Open(s, l)
    && s.leaders[l].key == key && s.leaders[l].headers == Some(headers) && s.leaders[l].body == body
  }

  ghost predicate EntryOk(s: System, e: Entry) {
    && Complete(s, e.id, e.key, e.headers, e.body)
    && e.key in s.finished && s.finished[e.key] == e.id
  }

  function Outstanding(hits: map<nat, HitStream>, id: nat): set<nat> {
    set h | h in hits && !hits[h].released && hits[h].entry == id
  }

  ghost predicate HitOk(s: System, h: HitStream) {
    && Complete(s, h.entry, h.key, h.headers, h.body)
    && (!h.released ==> exists i :: Lives(s.cache.ring, h.entry, i))
  }

  ghost predicate Store(s: System) {
    && RingInv(s.cache.ring)
    && (forall i | 0 <= i < |s.cache.ring.slots| && s.cache.ring.slots[i].Some? ::
          EntryOk(s, s.cache.ring.slots[i].value))
    && (forall k | k in s.finished :: s.finished[k] in s.leaders && s.leaders[s.finished[k]].key == k && !Open(s, s.finished[k]))
  }

  ghost predicate Pins(s: System) {
    && (forall i | 0 <= i < |s.cache.ring.slots| && s.cache.ring.slots[i].Some? ::
          s.cache.ring.slots[i].value.pins == |Outstanding(s.hits, s.cache.ring.slots[i].value.id)|)
    && (forall h | h in s.hits :: HitOk(s, s.hits[h]))
  }

  /** `ts` is the whole published response, and the end flag is on its last closure only. */
  ghost predicate Matches(ts: seq<Task>, l: Leader) {
    && Flatten(ts) == Content(l)
    && (forall i | 0 <= i < |ts| :: Ending(ts[i]) <==> (l.ended && i == |ts| - 1))
    && (l.ended ==> |ts| > 0)
  }

  /** A closure that ends the response has run. */
  ghost predicate Over(ran: seq<Task>) {
    exists i :: 0 <= i < |ran| && Ending(ran[i])
  }

  ghost predicate FollowerOk(s: System, f: nat)
    requires f in s.followers
  {
    var fo := s.followers[f];
    && fo.leader in s.leaders && fo.key == s.leaders[fo.leader].key
    && (fo.destroyed ==> fo.cancelled || fo.done) && (fo.detaching ==> fo.cancelled)
    && (fo.late > 0 ==> fo.replied && fo.destroyed)
    && (fo.done <==> fo.replied || Over(fo.ran))
    && (!fo.cancelled && !s.leaders[fo.leader].ended ==>
          fo.key in s.cache.inflight && f in s.cache.inflight[fo.key].waiters)
  }

  ghost predicate Delivery(s: System, f: nat)
    requires f in s.followers && s.followers[f].leader in s.leaders
  {
    var fo := s.followers[f];
    && (!fo.cancelled ==> Matches(View(s, f), s.leaders[fo.leader]))
    && Flatten(fo.ran) <= Content(s.leaders[fo.leader])
  }

  ghost predicate PostsOk(s: System) {
    && (forall l, i | l in s.leaders && 0 <= i < |s.leaders[l].posts| ::
          s.leaders[l].posts[i].waiter in s.followers && s.followers[s.leaders[l].posts[i].waiter].leader == l)
    && (forall d, i | d in s.queues && 0 <= i < |s.queues[d]| ::
          s.queues[d][i].waiter in s.followers && s.followers[s.queues[d][i].waiter].disp == d)
  }

  ghost predicate Streams(s: System) {
    && PostsOk(s)
    && (forall f | f in s.followers :: FollowerOk(s, f))
    && (forall f | f in s.followers :: Delivery(s, f))
  }

  ghost predicate Inv(s: System) {
    Store(s) && Flights(s) && Pins(s) && Streams(s)
  }
}
