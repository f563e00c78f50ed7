/** The HTTP filter: it takes its stream's part in the protocol of the cache. */
module Filter {
  import opened Basics
  import opened CacheObject
  import Sections
  import Protocol
  import opened StreamFacts

  datatype Role = Unset | Cached | Leading | Following

  datatype HeadersStatus = Continue | StopIteration

  const SEPARATOR := "///"

  /** Host and path, if both are there, make the cache key. */
  function BuildKey(host: string, path: string): Option<Key> {
    if host == "" || path == "" then None else Some(host + SEPARATOR + path)
  }

  /** A key is built exactly when both are there, and requests for different paths of one host have different keys. */
  lemma KeyTellsPath(host: string, path: string, other: string)
    ensures BuildKey(host, path).Some? <==> host != "" && path != ""
    ensures BuildKey(host, path).Some? && BuildKey(host, path) == BuildKey(host, other) ==> path == other
  {
    var p := host + SEPARATOR;
    if BuildKey(host, path).Some? && BuildKey(host, path) == BuildKey(host, other) {
      assert path == (p + path)[|p|..] && other == (p + other)[|p|..];
    }
  }

  /** Where in `k` a host could end. */
  predicate MayEndAt(k: Key, i: nat) {
    0 < i && i + 3 < |k| && k[i..i + 3] == "///"
  }

  lemma CutAlike(a: string, x: string, b: string, y: string)
    requires a + SEPARATOR + x == b + SEPARATOR + y && |a| == |b|
    ensures a == b && x == y
  {
    var k := a + SEPARATOR + x;
    assert a == k[..|a|] == b && x == k[|a| + 3..] == y;
  }

  lemma NotShorter(a: string, x: string, b: string, y: string)
    requires a + SEPARATOR + x == b + SEPARATOR + y && '/' !in b
    ensures |a| >= |b|
  {
    assert (a + SEPARATOR + x)[|a|] == '/';
    assert forall i | 0 <= i < |b| :: (b + SEPARATOR + y)[i] == b[i] != '/';
  }

  /** The key of a host and a path belongs to them alone exactly when it can be taken apart in no other place. */
  lemma KeyIsOwn(host: string, path: string)
    requires host != "" && path != ""
    ensures BuildKey(host, path).Some?
    ensures (forall h, p :: BuildKey(h, p) == BuildKey(host, path) ==> h == host && p == path)
      <==> forall i: nat :: MayEndAt(BuildKey(host, path).value, i) ==> i == |host|
  {
    var k := BuildKey(host, path).value;
    if (forall h, p :: BuildKey(h, p) == BuildKey(host, path) ==> h == host && p == path) {
      forall i: nat | MayEndAt(k, i) ensures i == |host| {
        assert k == k[..i] + k[i..i + 3] + k[i + 3..];
        assert BuildKey(k[..i], k[i + 3..]) == Some(k);
      }
    } else {
      var h, p :| BuildKey(h, p) == BuildKey(host, path) && !(h == host && p == path);
      assert (h + SEPARATOR + p)[|h|..|h| + 3] == SEPARATOR;
      assert MayEndAt(k, |h|);
      if |h| == |host| { CutAlike(h, p, host, path); }
    }
  }

  /** So no host without a slash shares a key with another one, whatever their paths. */
  lemma KeyTellsHost(host: string, path: string, other: string, otherPath: string)
    requires '/' !in host && '/' !in other
    requires BuildKey(host, path).Some? && BuildKey(host, path) == BuildKey(other, otherPath)
    ensures host == other && path == otherPath
  {
    NotShorter(host, path, other, otherPath);
    NotShorter(other, otherPath, host, path);
    CutAlike(host, path, other, otherPath);
  }

  /** A host with slashes may share its key. */
  lemma KeysCollide()
    ensures BuildKey("a", "b///c") == BuildKey("a///b", "c")
  {
    assert "a" + "///" + "b///c" == "a///b" + "///" + "c";
  }

  /** What a stream sees of a complete response. */
  ghost function Response(headers: Headers, body: Bytes): seq<Protocol.Atom> {
    [Protocol.Head(headers)] + Protocol.Bs(body) + [Protocol.End]
  }

  /** A backfill closure shows the stream the same as the encode calls it makes. */
  lemma EncodeCallsFlatten(t: Task)
    ensures Protocol.Flatten(EncodeCalls(t)) == Protocol.Atoms(t)
  {
    var calls := EncodeCalls(t);
    assert calls[..|calls| - 1] + [calls[|calls| - 1]] == calls;
    FlattenOne(calls[..|calls| - 1], calls[|calls| - 1]);
    if |calls| == 2 {
      FlattenOne([], calls[0]);
      assert calls[..1] == [calls[0]] == [] + [calls[0]];
    }
  }

  /** The encode calls that answer a request from the cache: the last one ends the stream. */
  function AnswerCalls(headers: Headers, body: Bytes): seq<Task> {
    if |body| > 0 then [Protocol.GiveHeaders(headers, false), Protocol.GiveData(body, true)]
    else [Protocol.GiveHeaders(headers, true)]
  }

  /** A cached answer shows the stream the same as the complete response. */
  lemma AnswerSpellsResponse(headers: Headers, body: Bytes)
    ensures Protocol.Flatten(AnswerCalls(headers, body)) == Response(headers, body)
  {
    var calls := AnswerCalls(headers, body);
    FlattenOne([], calls[0]);
    assert [] + [calls[0]] == [calls[0]];
    if |body| > 0 {
      FlattenOne([calls[0]], calls[1]);
      assert [calls[0]] + [calls[1]] == calls;
    }
  }

  /** The role, the status, the waiter, the done flag and the encode calls that go with a lookup result. */
  ghost predicate Took(result: LookupResult, status: HeadersStatus, role: Role, waiter: Waiter?, done: bool, calls: seq<Task>)
  {
    match result
    case Hit(headers, body, pin) =>
      status.StopIteration? && role.Cached? && waiter == null && done && calls == AnswerCalls(headers, body)
    case Leader =>
      status.Continue? && role.Leading? && waiter == null && !done && calls == []
    case Follower(w) =>
      status.StopIteration? && role.Following? && waiter == w && !done && calls == []
  }

  lemma TookShows(result: LookupResult, status: HeadersStatus, role: Role, waiter: Waiter?, done: bool, calls: seq<Task>)
    requires Took(result, status, role, waiter, done, calls)
    ensures (status.Continue? <==> result.Leader?) && (role.Leading? <==> result.Leader?) && (done <==> result.Hit?)
    ensures result.Follower? ==> waiter == result.waiter
    ensures Protocol.Flatten(calls)
      == if result.Hit? then [Protocol.Head(result.headers)] + Protocol.Bs(result.body) + [Protocol.End] else []
  {
    if result.Hit? { AnswerSpellsResponse(result.headers, result.body); }
  }

  class RingCacheFilter {
    const cache: RingBufferCache
    const callbacks: StreamCallbacks
    var key: Key
    var done: bool
    var role: Role
    var waiter: Waiter?

    ghost predicate Valid()
      reads this
    {
      role.Following? <==> waiter != null
    }

    constructor (cache: RingBufferCache, callbacks: StreamCallbacks)
      ensures Valid() && this.cache == cache && this.callbacks == callbacks
      ensures key == "" && !done && role.Unset? && waiter == null
    {
      this.cache, this.callbacks := cache, callbacks;
      key, done, role, waiter := "", false, Unset, null;
    }

    method AnswerFromCache(headers: Headers, body: Bytes)
      modifies callbacks
      ensures callbacks.encoded == old(callbacks.encoded) + AnswerCalls(headers, body)
    {
      var hasBody := |body| > 0;
      callbacks.EncodeHeaders(headers, !hasBody);
      if hasBody {
        callbacks.EncodeData(body, true);
      }
    }

    method TakeRole(k: Key, result: LookupResult) returns (status: HeadersStatus, ghost calls: seq<Task>)
      requires Valid() && role.Unset? && !done
      modifies this, callbacks
      ensures Valid() && key == k && callbacks.encoded == old(callbacks.encoded) + calls
      ensures Took(result, status, role, waiter, done, calls)
    {
      key, calls := k, [];
      match result
      case Hit(headers, body, pin) =>
        role := Cached;
        AnswerFromCache(headers, body);
        calls := AnswerCalls(headers, body);
        done := true;
        status := StopIteration;
      case Leader =>
        role := Leading;
        status := Continue;
      case Follower(w) =>
        role, waiter := Following, w;
        status := StopIteration;
    }

    /** The lookup, and what the stream makes of it. */
    method Resolve(k: Key) returns (status: HeadersStatus, ghost result: LookupResult, ghost calls: seq<Task>)
      requires Valid() && cache.Valid() && role.Unset? && !done
      modifies this, callbacks, callbacks.dispatcher, cache`table, cache`inflightMap, cache`streams
      modifies if k in cache.cacheMap then {cache.cacheMap[k]} else {}
      ensures Valid() && cache.Valid() && key == k
      ensures Answered(old(cache.AsCache()), cache.AsCache(), old(cache.cacheMap), old(cache.streams), k, callbacks, result)
      ensures Took(result, status, role, waiter, done, calls) && callbacks.encoded == old(callbacks.encoded) + calls
      ensures callbacks.dispatcher.queue == old(callbacks.dispatcher.queue) + LookupPosts(old(cache.AsCache()), k, result)
      ensures result.Follower? ==> fresh(result.waiter) && !result.waiter.cancelled
    {
      hide RingBufferCache.Valid, Answered;
      var found := cache.Lookup(k, callbacks);
      result := found;
      status, calls := TakeRole(k, found);
    }

    /** The request is answered from the cache, sent upstream, or parked behind the leader. */
    method DecodeHeaders(host: string, path: string)
      returns (status: HeadersStatus, ghost result: LookupResult, ghost calls: seq<Task>)
      requires Valid() && cache.Valid() && role.Unset? && !done
      modifies this, callbacks, callbacks.dispatcher, cache`table, cache`inflightMap, cache`streams
      modifies var k := BuildKey(host, path); if k.Some? && k.value in cache.cacheMap then {cache.cacheMap[k.value]} else {}
      ensures Valid() && cache.Valid() && callbacks.encoded == old(callbacks.encoded) + calls
      ensures host == "" || path == "" ==>
        && status.Continue? && role.Unset? && !done && calls == [] && cache.AsCache() == old(cache.AsCache())
        && callbacks.dispatcher.queue == old(callbacks.dispatcher.queue)
      ensures host != "" && path != "" ==>
        && key == host + "///" + path && Took(result, status, role, waiter, done, calls)
        && Answered(old(cache.AsCache()), cache.AsCache(), old(cache.cacheMap), old(cache.streams), key, callbacks, result)
        && callbacks.dispatcher.queue == old(callbacks.dispatcher.queue) + LookupPosts(old(cache.AsCache()), key, result)
        && (result.Follower? ==> fresh(result.waiter) && !result.waiter.cancelled)
        && (status.Continue? <==> result.Leader?) && (role.Leading? <==> result.Leader?) && (done <==> result.Hit?)
        && (result.Follower? ==> waiter == result.waiter)
        && Protocol.Flatten(calls)
           == if result.Hit? then [Protocol.Head(result.headers)] + Protocol.Bs(result.body) + [Protocol.End] else []
    {
      hide RingBufferCache.Valid, Answered, LookupPosts, Took;
      var k := BuildKey(host, path);
      if k.None? { return Continue, Leader, []; }
      status, result, calls := Resolve(k.value);
      TookShows(result, status, role, waiter, done, calls);
    }

    /** Upstream headers pass through; the leader publishes them. */
    method EncodeHeaders(headers: Headers, endStream: bool)
      requires Valid() && cache.Valid()
      modifies this`done, cache`usedSize, cache`head, cache`cacheMap, cache`table, cache`inflightMap, cache.slots,
               cache.Audience(key)
      ensures Valid() && cache.Valid() && done == (old(done) || endStream)
      ensures cache.AsCache() == if role.Leading? then Sections.PublishHeaders(old(cache.AsCache()), key, headers, endStream)
                                 else old(cache.AsCache())
      ensures old(key in cache.inflightMap) ==>
        var fl := old(cache.inflightMap[key]);
        forall w | w in fl.waiters :: w.dispatcher.queue == old(w.dispatcher.queue) +
          if role.Leading? then Posted(w.dispatcher, fl.waiters, Protocol.GiveHeaders(fl.headers.GetOr(headers), endStream)) else []
    {
      hide RingBufferCache.Valid, Posted;
      if endStream { done := true; }
      if role != Leading { return; }
      cache.PublishHeaders(key, headers, endStream);
    }

    method EncodeData(data: Bytes, endStream: bool)
      requires Valid() && cache.Valid()
      requires role.Leading? && key in cache.inflightMap ==> cache.inflightMap[key].headers.Some?
      modifies this`done, cache`usedSize, cache`head, cache`cacheMap, cache`table, cache`inflightMap, cache.slots,
               cache.Audience(key)
      ensures Valid() && cache.Valid() && done == (old(done) || endStream)
      ensures cache.AsCache() == if role.Leading? then Sections.PublishData(old(cache.AsCache()), key, data, endStream)
                                 else old(cache.AsCache())
      ensures old(key in cache.inflightMap) ==>
        var fl := old(cache.inflightMap[key]);
        forall w | w in fl.waiters :: w.dispatcher.queue == old(w.dispatcher.queue) +
          if role.Leading? then Posted(w.dispatcher, fl.waiters, Protocol.GiveData(data, endStream)) else []
    {
      hide RingBufferCache.Valid, Posted;
      if endStream { done := true; }
      if role != Leading { return; }
      cache.PublishData(key, data, endStream);
    }

    /** A follower that has not seen the end cancels its handle and detaches it. */
    method OnDestroy()
      requires Valid() && cache.Valid()
      modifies cache`inflightMap, if waiter != null then {waiter} else {}
      ensures Valid() && cache.Valid()
      ensures if role.Following? && !done
        then waiter.cancelled && cache.AsCache() == Sections.Remove(old(cache.AsCache()), key, waiter)
        else cache.AsCache() == old(cache.AsCache()) && (waiter != null ==> waiter.cancelled == old(waiter.cancelled))
    {
      if role == Following && !done {
        waiter.cancelled := true;
        cache.RemoveWaiter(key, waiter);
      }
    }
  }

  /** Requests for different paths of one host never share an entry or a flight: the lookup of the one leaves the entry and the
      flight of the other as they were, and a hit comes from an entry of its own key. */
  lemma PathsNeverShare(host: string, path: string, other: string, before: Sections.Cache<Waiter>,
                        after: Sections.Cache<Waiter>, cacheMap: map<Key, Entry>, streams: nat, callbacks: StreamCallbacks,
                        result: LookupResult)
    requires host != "" && path != "" && path != other
    requires Answered(before, after, cacheMap, streams, BuildKey(host, path).value, callbacks, result)
    ensures var k := host + "///" + other;
      && (k in after.ring.index <==> k in before.ring.index) && (k in after.inflight <==> k in before.inflight)
      && (k in before.ring.index ==> after.ring.index[k] == before.ring.index[k])
      && (k in before.inflight ==> after.inflight[k] == before.inflight[k])
    ensures result.Hit? ==>
      var k := host + "///" + path;
      k in cacheMap && cacheMap[k].key == k && result.headers == cacheMap[k].headers && result.body == cacheMap[k].body
  {
    if other != "" { KeyTellsPath(host, path, other); }
    var p := host + "///";
    assert (p + path)[|p|..] == path && (p + other)[|p|..] == other;
  }
}
