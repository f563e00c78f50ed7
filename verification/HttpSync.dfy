/** How far the loop over a buffer is in step with the byte-at-a-time meaning. */
module HttpSync {
  import opened HttpTypes
  import opened HttpStep
  import opened HttpRun
  import opened HttpMarks
  import opened HttpRelate

  /** At position `pos` the record is the one of the byte-at-a-time run, and the callbacks made so far together
      with the marked bytes join to those of the run. */
  ghost predicate Synced(p0: Parser, data: string, max: nat, pos: nat, p: Parser, events: seq<Event>, m: Mark, at: nat) {
    && pos <= |data|
    && Run(p0, data[..pos], max).stop.Go? && Run(p0, data[..pos], max).p == p
    && Fits(m, p.state) && (m.On? ==> at <= pos)
    && (if pos == 0 then events == [] && m == EntryMark(p0.state) && at == 0
        else Merge(events + Piece(m, at, data, pos)) == Merge(Run(p0, data[..pos], max).events))
  }

  function Counted(p: Parser): Parser {
    if ParsingHeader(p.state) then p.(nread := p.nread + 1) else p
  }

  predicate Overflows(p: Parser, max: nat) {
    ParsingHeader(p.state) && p.nread + 1 > max
  }

  lemma EntrySynced(p0: Parser, data: string, max: nat)
    ensures Synced(p0, data, max, 0, p0, [], EntryMark(p0.state), 0)
  {}

  lemma RunEmpty(p0: Parser, data: string, max: nat)
    ensures Run(p0, data[..0], max) == Result(p0, [], Go)
  {
    hide StepByte;
  }

  lemma NextRun(p0: Parser, data: string, max: nat, pos: nat)
    requires pos < |data| && Run(p0, data[..pos], max).stop.Go?
    ensures var r, s := Run(p0, data[..pos], max), StepByte(Run(p0, data[..pos], max).p, data[pos], max);
      Run(p0, data[..pos + 1], max) == s.(events := r.events + s.events)
  {
    hide StepByte;
    assert data[..pos + 1] == data[..pos] + [data[pos]];
    RunSnoc(p0, data[..pos], data[pos], max);
  }

  /** A byte that arrives in step is related to the same byte in a buffer of its own. */
  lemma EntryRelated(a: seq<Event>, m: Mark, at: nat, data: string, pos: nat, b: seq<Event>, s: State)
    requires pos <= |data| && (m.On? ==> at <= pos) && Fits(m, s)
    requires Merge(a + Piece(m, at, data, pos)) == Merge(b)
    ensures Related(a, m, at, data, pos, b, EntryMark(s))
  {
    hide Merge;
    assert b + [] == b && ""[0..0] == "";
    if EntryMark(s).On? {
      EmptyTail(a, m.kind, data[at..pos], b);
    }
  }

  lemma EmptyRelated(m: Mark, data: string)
    ensures Related([], m, 0, data, 0, [], m)
  {
    assert data[0..0] == "" && ""[0..0] == "";
  }

  /** One byte keeps the step. */
  lemma ByteSynced(p0: Parser, data: string, max: nat, pos: nat, p: Parser, events: seq<Event>, m: Mark, at: nat)
    returns (at': nat)
    requires Synced(p0, data, max, pos, p, events, m, at) && pos < |data| && !Overflows(p, max)
    ensures MarksBefore(MarksOf(m, at), pos)
    ensures var o := Dispatch(Counted(p), data[pos]);
      var (ms, es) := Perform(o.acts, MarksOf(m, at), data, pos);
      var r := Run(p0, data[..pos + 1], max);
      && (o.stop.Go? ==> Synced(p0, data, max, pos + 1, o.p, events + es, Finally(o.acts, m), at'))
      && (o.stop.Go? ==> ms == MarksOf(Finally(o.acts, m), at'))
      && (o.stop.Exit? ==> r.stop.Exit? && r.p == o.p && Merge(events + es) == Merge(r.events))
      && (o.stop.Fail? ==> r.stop == o.stop)
  {
    hide Dispatch, Run, Merge, Perform;
    var o := Dispatch(Counted(p), data[pos]);
    assert pos == 0 ==> Run(p0, data[..pos], max) == Result(p0, [], Go) by { RunEmpty(p0, data, max); }
    var b := Run(p0, data[..pos], max).events;
    var ch := [data[pos]];
    at' := at;
    NextRun(p0, data, max, pos);
    DispatchSound(Counted(p), data[pos], m);
    if !o.stop.Fail? {
      if pos > 0 { EntryRelated(events, m, at, data, pos, b, p.state); } else { EmptyRelated(m, data); }
      at' := PerformRelated(o.acts, events, m, at, data, pos, b, EntryMark(p.state));
      var (ms, es) := Perform(o.acts, MarksOf(m, at), data, pos);
      var (ns, fs) := Perform(o.acts, MarksOf(EntryMark(p.state), 0), ch, 0);
      FlushAllPiece(Finally(o.acts, m), 0, ch);
      if o.stop.Go? {
        assert b + fs + FlushAll(ns, ch) == b + (fs + FlushAll(ns, ch));
      } else {
        assert events + es + [] == events + es && b + fs + [] == b + fs;
      }
    }
  }

  lemma ByteOverflows(p0: Parser, data: string, max: nat, pos: nat, p: Parser, events: seq<Event>, m: Mark, at: nat)
    requires Synced(p0, data, max, pos, p, events, m, at) && pos < |data| && Overflows(p, max)
    ensures Run(p0, data[..pos + 1], max).stop == Fail(HeaderOverflow)
  {
    hide Dispatch;
    NextRun(p0, data, max, pos);
  }

  /** A run that has stopped stays where it is. */
  lemma {:induction false} StoppedStays(p0: Parser, data: string, max: nat, pos: nat, end: nat)
    requires pos <= end <= |data| && !Run(p0, data[..pos], max).stop.Go?
    ensures Run(p0, data[..end], max) == Run(p0, data[..pos], max)
    decreases end
  {
    hide StepByte;
    if pos < end {
      assert data[..end][..end - 1] == data[..end - 1];
      StoppedStays(p0, data, max, pos, end - 1);
    }
  }
}
