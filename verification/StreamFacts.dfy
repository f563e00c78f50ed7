/** Facts about closure lists and the responses they spell out. */
module StreamFacts {
  import opened Basics
  import opened Sections
  import opened Protocol

  lemma FlattenOne(a: seq<Task>, t: Task)
    ensures Flatten(a + [t]) == Flatten(a) + Atoms(t)
  {
    assert (a + [t])[..|a + [t]| - 1] == a;
  }

  lemma Assoc<T>(a: seq<T>, b: seq<T>, c: seq<T>)
    ensures a + b + c == a + (b + c)
  {}

  lemma {:induction false} FlattenAppend(a: seq<Task>, b: seq<Task>)
    ensures Flatten(a + b) == Flatten(a) + Flatten(b)
  {
    if |b| == 0 {
      assert a + b == a;
    } else {
      var init, last := b[..|b| - 1], b[|b| - 1];
      assert b == init + [last];
      FlattenAppend(a, init);
      FlattenOne(a + init, last);
      Assoc(a, init, [last]);
      Assoc(Flatten(a), Flatten(init), Atoms(last));
    }
  }

  lemma {:induction false} MineAppend(f: nat, a: seq<Post>, b: seq<Post>)
    ensures Mine(f, a + b) == Mine(f, a) + Mine(f, b)
  {
    if |a| == 0 {
      assert a + b == b;
    } else {
      assert (a + b)[1..] == a[1..] + b;
      MineAppend(f, a[1..], b);
    }
  }

  lemma {:induction false} MineNone(f: nat, posts: seq<Post>)
    requires forall i | 0 <= i < |posts| :: posts[i].waiter != f
    ensures Mine(f, posts) == []
  {
    if |posts| > 0 {
      MineNone(f, posts[1..]);
    }
  }

  lemma MinePush(f: nat, posts: seq<Post>, p: Post)
    ensures Mine(f, posts + [p]) == Mine(f, posts) + (if p.waiter == f then [p.task] else [])
  {
    MineAppend(f, posts, [p]);
    assert Mine(f, [p]) == (if p.waiter == f then [p.task] else []) + Mine(f, []);
  }

  /** A broadcast reaches every waiter once and nobody else. */
  lemma {:induction false} MineBroadcast(f: nat, waiters: seq<nat>, t: Task)
    requires NoDuplicates(waiters)
    ensures Mine(f, Broadcast(waiters, t)) == if f in waiters then [t] else []
  {
    if |waiters| > 0 {
      assert Broadcast(waiters, t)[1..] == Broadcast(waiters[1..], t);
      MineBroadcast(f, waiters[1..], t);
      assert f in waiters <==> f == waiters[0] || f in waiters[1..];
    }
  }

  lemma BsAppend(a: Bytes, b: Bytes)
    ensures Bs(a + b) == Bs(a) + Bs(b)
  {}

  /** Publishing one more piece appends its closure to every waiter's view. */
  lemma MatchesExtend(ts: seq<Task>, l: Leader, t: Task, l': Leader)
    requires Matches(ts, l) && !l.ended
    requires Content(l') == Content(l) + Atoms(t) && Ending(t) == l'.ended
    ensures Matches(ts + [t], l')
  {
    FlattenOne(ts, t);
  }

  lemma HeadersExtend(l: Leader, h: Headers, end: bool)
    requires LeaderOk(l) && l.headers.None? && !l.ended
    ensures Content(l.(headers := Some(h), ended := end)) == Content(l) + Atoms(GiveHeaders(h, end))
  {}

  lemma DataExtend(l: Leader, d: Bytes, end: bool)
    requires !l.ended
    ensures Content(l.(body := l.body + d, ended := end)) == Content(l) + Atoms(GiveData(d, end))
  {
    BsAppend(l.body, d);
  }
}
