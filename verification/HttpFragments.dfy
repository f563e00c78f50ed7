/** However the network splits the bytes, the parser reports the same. */
module HttpFragments {
  import opened HttpTypes
  import opened HttpRun
  import opened HttpRelate
  import opened HttpInvariant
  import opened HttpExecute

  /** A call of the parser: what it was given and what came of it. */
  datatype Fed = Fed(data: string, after: Parser, used: nat, events: seq<Event>, stop: Stop)

  ghost predicate IsCall(p0: Parser, c: Fed, max: nat) {
    |c.data| > 0 && Executes(p0, c.data, max, c.after, c.used, c.events, c.stop)
  }

  /** Each call starts from the record that the one before it left. */
  ghost predicate Chain(p0: Parser, calls: seq<Fed>, max: nat)
    decreases |calls|
  {
    |calls| == 0 || (IsCall(p0, calls[0], max) && Chain(calls[0].after, calls[1..], max))
  }

  function Input(calls: seq<Fed>): string {
    if |calls| == 0 then "" else calls[0].data + Input(calls[1..])
  }

  /** What is reported up to the call that stops the parser, and the record and the reason it stops with. */
  function Outcome(p0: Parser, calls: seq<Fed>): Result
    decreases |calls|
  {
    if |calls| == 0 then Result(p0, [], Go)
    else if !calls[0].stop.Go? then Result(calls[0].after, calls[0].events, calls[0].stop)
    else
      var r := Outcome(calls[0].after, calls[1..]);
      r.(events := calls[0].events + r.events)
  }

  /** The same callbacks, record and reason; a failed parser's record and callbacks do not matter. */
  ghost predicate SameReport(r: Result, s: Result) {
    && r.stop == s.stop
    && (!r.stop.Fail? ==> r.p == s.p && Merge(r.events) == Merge(s.events))
  }

  /** Joining is the same before and after pieces of data have been joined. */
  lemma {:induction false} JoinAllMerged(es: seq<Event>, b: seq<Event>)
    ensures JoinAll(es, Merge(b)) == JoinAll(es, b)
  {
    if |b| > 0 {
      var init, e := b[..|b| - 1], b[|b| - 1];
      var m := Merge(init);
      JoinAllMerged(es, init);
      assert Merge(b) == Join(m, e);
      if |m| > 0 && e.Data? && m[|m| - 1].Data? && m[|m| - 1].kind == e.kind {
        var x, d := m[..|m| - 1], m[|m| - 1];
        assert m == x + [d];
        JoinAllAppend(es, x, [d]);
        JoinAllOne(JoinAll(es, x), d);
        JoinAllAppend(es, x, [Data(e.kind, d.bytes + e.bytes)]);
        JoinAllOne(JoinAll(es, x), Data(e.kind, d.bytes + e.bytes));
        JoinSplit(JoinAll(es, x), e.kind, d.bytes, e.bytes);
      } else {
        JoinAllAppend(es, m, [e]);
        JoinAllOne(JoinAll(es, m), e);
      }
    }
  }

  lemma MergeCongruence(a: seq<Event>, a': seq<Event>, b: seq<Event>, b': seq<Event>)
    requires Merge(a) == Merge(a') && Merge(b) == Merge(b')
    ensures Merge(a + b) == Merge(a' + b')
  {
    MergeAppend(a, b);
    MergeAppend(a', b');
    JoinAllMerged(Merge(a), b);
    JoinAllMerged(Merge(a), b');
  }

  /** A chain of calls reports what the byte-at-a-time run over all its input does. */
  lemma {:induction false} ChainIsRun(p0: Parser, calls: seq<Fed>, max: nat)
    requires Chain(p0, calls, max)
    requires Run(p0, Input(calls), max).stop != Fail(HeaderOverflow)
    ensures SameReport(Outcome(p0, calls), Run(p0, Input(calls), max))
    decreases |calls|
  {
    hide Merge, StepByte;
    if |calls| > 0 {
      var c, rest := calls[0], Input(calls[1..]);
      RunAppend(p0, c.data, rest, max);
      if Run(p0, c.data, max).stop.Go? {
        ChainIsRun(c.after, calls[1..], max);
        if !Run(c.after, rest, max).stop.Fail? {
          MergeCongruence(c.events, Run(p0, c.data, max).events,
            Outcome(c.after, calls[1..]).events, Run(c.after, rest, max).events);
        }
      }
    }
  }

  /** An input that the byte-at-a-time run refuses, also for its header size, is refused in every split. */
  lemma {:induction false} RefusedInEverySplit(p0: Parser, calls: seq<Fed>, max: nat)
    requires Chain(p0, calls, max)
    ensures Outcome(p0, calls).stop.Fail? <==> Run(p0, Input(calls), max).stop.Fail?
    decreases |calls|
  {
    hide Merge, StepByte;
    if |calls| > 0 {
      var c, rest := calls[0], Input(calls[1..]);
      RunAppend(p0, c.data, rest, max);
      if Run(p0, c.data, max).stop.Go? { RefusedInEverySplit(c.after, calls[1..], max); }
    }
  }

  /** Assertion safety of the loop itself: from a well-formed record no chain of calls, whatever its input and its
      split, the header limit included, ends at an internal assertion, and the record stays well-formed. */
  lemma {:induction false} ChainIsSafe(p0: Parser, calls: seq<Fed>, max: nat)
    requires Chain(p0, calls, max) && WellFormed(p0)
    ensures Outcome(p0, calls).stop != Fail(AssertionFailed)
    ensures !Outcome(p0, calls).stop.Fail? ==> WellFormed(Outcome(p0, calls).p)
    decreases |calls|
  {
    hide Merge, Run, WellFormed;
    if |calls| > 0 && calls[0].stop.Go? { ChainIsSafe(calls[0].after, calls[1..], max); }
  }

  /** Fragmentation independence: any two splits of the same input into non-empty pieces are reported alike,
      unless a header limit is hit. */
  lemma FragmentationIndependence(p0: Parser, calls: seq<Fed>, others: seq<Fed>, max: nat)
    requires Chain(p0, calls, max) && Chain(p0, others, max) && Input(calls) == Input(others)
    requires Run(p0, Input(calls), max).stop != Fail(HeaderOverflow)
    ensures SameReport(Outcome(p0, calls), Outcome(p0, others))
  {
    ChainIsRun(p0, calls, max);
    ChainIsRun(p0, others, max);
  }

  /** In particular an input that parses unsplit leaves the same record and callbacks in every split. */
  lemma SplitOfCleanInput(p0: Parser, whole: Fed, pieces: seq<Fed>, max: nat)
    requires IsCall(p0, whole, max) && whole.stop.Go?
    requires Chain(p0, pieces, max) && Input(pieces) == whole.data
    ensures Outcome(p0, pieces).stop.Go? && Outcome(p0, pieces).p == whole.after
    ensures Merge(Outcome(p0, pieces).events) == Merge(whole.events)
  {
    hide Merge, Run;
    ChainIsRun(p0, pieces, max);
  }
}
