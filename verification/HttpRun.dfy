/**
 The meaning of a byte stream: what the parser does when it is fed one byte at
 a time. Callback lists are compared after joining neighbouring pieces of data.
 */
module HttpRun {
  import opened HttpTypes
  import opened HttpStep

  // ---- Marks ----

  /** The five mark pointers: positions in the buffer, when set. */
  type Marks = map<DataKind, nat>

  ghost predicate MarksBefore(marks: Marks, pos: nat) {
    forall k | k in marks :: marks[k] <= pos
  }

  /** At most one mark is ever set: see `HttpMarks`. */
  datatype Mark = NoMark | On(kind: DataKind)

  /** The mark that a call of the parser sets on entry. */
  function EntryMark(s: State): Mark {
    match s
    case HeaderField => On(Field)
    case HeaderValue => On(Value)
    case ResStatus => On(Status)
    case ReqSchema => On(Url)
    case ReqSchemaSlash => On(Url)
    case ReqSchemaSlashSlash => On(Url)
    case ReqServerStart => On(Url)
    case ReqServer => On(Url)
    case ReqServerWithAt => On(Url)
    case ReqPath => On(Url)
    case ReqQueryStringStart => On(Url)
    case ReqQueryString => On(Url)
    case ReqFragmentStart => On(Url)
    case ReqFragment => On(Url)
    case _ => NoMark
  }

  function MarksOf(m: Mark, at: nat): Marks {
    if m.NoMark? then map[] else map[m.kind := at]
  }

  /** One act at position `pos`. */
  function Perform1(a: Act, marks: Marks, data: string, pos: nat): (Marks, seq<Event>)
    requires pos < |data| && MarksBefore(marks, pos)
  {
    match a
    case SetMark(k) => (if k in marks then marks else marks[k := pos], [])
    case Flush(k) => if k in marks then (marks - {k}, [Data(k, data[marks[k]..pos])]) else (marks, [])
    case FlushWith(k) => if k in marks then (marks - {k}, [Data(k, data[marks[k]..pos + 1])]) else (marks, [])
    case Call(s) => (marks, [Notify(s)])
  }

  function Perform(acts: seq<Act>, marks: Marks, data: string, pos: nat): (r: (Marks, seq<Event>))
    requires pos < |data| && MarksBefore(marks, pos)
    ensures MarksBefore(r.0, pos)
  {
    if |acts| == 0 then (marks, [])
    else
      var (m1, e1) := Perform1(acts[0], marks, data, pos);
      var (m2, e2) := Perform(acts[1..], m1, data, pos);
      (m2, e1 + e2)
  }

  function LastOf(k: DataKind, marks: Marks, data: string): seq<Event>
    requires MarksBefore(marks, |data|)
  {
    if k in marks then [Data(k, data[marks[k]..])] else []
  }

  /** At the end of the buffer the marks that are left are flushed. */
  function FlushAll(marks: Marks, data: string): seq<Event>
    requires MarksBefore(marks, |data|)
  {
    LastOf(Field, marks, data) + LastOf(Value, marks, data) + LastOf(Url, marks, data)
      + LastOf(Body, marks, data) + LastOf(Status, marks, data)
  }

  // ---- One byte, and many ----

  datatype Result = Result(p: Parser, events: seq<Event>, stop: Stop)

  /** A call of the parser with a single byte, under the header limit `max`. */
  function StepByte(p: Parser, ch: char, max: nat): Result {
    if ParsingHeader(p.state) && p.nread + 1 > max then Result(p, [], Fail(HeaderOverflow))
    else
      var q := if ParsingHeader(p.state) then p.(nread := p.nread + 1) else p;
      var o := Dispatch(q, ch);
      var (m, e) := Perform(o.acts, MarksOf(EntryMark(p.state), 0), [ch], 0);
      Result(o.p, if o.stop.Go? then e + FlushAll(m, [ch]) else e, o.stop)
  }

  /** Byte after byte, until one stops the parser. */
  function Run(p: Parser, data: string, max: nat): Result {
    if |data| == 0 then Result(p, [], Go)
    else
      var r := Run(p, data[..|data| - 1], max);
      if r.stop.Go? then
        var s := StepByte(r.p, data[|data| - 1], max);
        s.(events := r.events + s.events)
      else r
  }

  lemma RunSnoc(p: Parser, data: string, ch: char, max: nat)
    requires Run(p, data, max).stop.Go?
    ensures var r, s := Run(p, data, max), StepByte(Run(p, data, max).p, ch, max);
      Run(p, data + [ch], max) == s.(events := r.events + s.events)
  {
    hide StepByte;
    assert (data + [ch])[..|data + [ch]| - 1] == data;
  }

  /** Feeding more bytes continues from the record that the first ones left. */
  lemma {:induction false} RunAppend(p: Parser, a: string, b: string, max: nat)
    ensures var r := Run(p, a, max);
      Run(p, a + b, max) == if r.stop.Go? then Run(r.p, b, max).(events := r.events + Run(r.p, b, max).events) else r
  {
    hide StepByte;
    var r := Run(p, a, max);
    if |b| == 0 {
      assert a + b == a;
    } else {
      var init, ch := b[..|b| - 1], b[|b| - 1];
      RunAppend(p, a, init, max);
      assert (a + b)[..|a + b| - 1] == a + init;
      assert (a + b)[|a + b| - 1] == ch;
      if r.stop.Go? && Run(r.p, init, max).stop.Go? {
        var e1, e2, e3 := r.events, Run(r.p, init, max).events, StepByte(Run(r.p, init, max).p, ch, max).events;
        assert e1 + e2 + e3 == e1 + (e2 + e3);
      }
    }
  }

  // ---- Joining neighbouring data ----

  /** Append an event, joining it to a last piece of data of the same kind. */
  function Join(es: seq<Event>, e: Event): seq<Event> {
    if |es| > 0 && e.Data? && es[|es| - 1].Data? && es[|es| - 1].kind == e.kind
    then es[..|es| - 1] + [Data(e.kind, es[|es| - 1].bytes + e.bytes)]
    else es + [e]
  }

  function JoinAll(es: seq<Event>, more: seq<Event>): seq<Event> {
    if |more| == 0 then es else Join(JoinAll(es, more[..|more| - 1]), more[|more| - 1])
  }

  /** The callbacks with neighbouring data of one kind joined. */
  function Merge(es: seq<Event>): seq<Event> {
    JoinAll([], es)
  }

  lemma {:induction false} JoinAllAppend(es: seq<Event>, a: seq<Event>, b: seq<Event>)
    ensures JoinAll(es, a + b) == JoinAll(JoinAll(es, a), b)
  {
    if |b| == 0 {
      assert a + b == a;
    } else {
      assert (a + b)[..|a + b| - 1] == a + b[..|b| - 1];
      JoinAllAppend(es, a, b[..|b| - 1]);
    }
  }

  lemma JoinAllOne(es: seq<Event>, e: Event)
    ensures JoinAll(es, [e]) == Join(es, e)
  {
    assert [e][..0] == [];
    assert JoinAll(es, []) == es;
  }

  lemma MergeAppend(a: seq<Event>, b: seq<Event>)
    ensures Merge(a + b) == JoinAll(Merge(a), b)
  {
    JoinAllAppend([], a, b);
  }

  /** Splitting a piece of data changes nothing. */
  lemma JoinSplit(es: seq<Event>, k: DataKind, x: string, y: string)
    ensures Join(Join(es, Data(k, x)), Data(k, y)) == Join(es, Data(k, x + y))
  {
    if |es| > 0 && es[|es| - 1].Data? && es[|es| - 1].kind == k {
      assert es[|es| - 1].bytes + x + y == es[|es| - 1].bytes + (x + y);
    }
  }
}
