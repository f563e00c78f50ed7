/**
 The parser's loop over a buffer, with its fast paths: names and values of
 headers and bodies are taken many bytes at a time, and the header count is
 brought up to date only afterwards. It reports what the byte-at-a-time run does.
 */
module HttpExecute {
  import opened HttpChars
  import opened HttpTypes
  import opened HttpStep
  import opened HttpRun
  import opened HttpMarks
  import opened HttpRelate
  import opened HttpSync
  import opened HttpInvariant

  /** The locals of the loop: position, record, mark pointers, callbacks made, and why it stopped. */
  datatype Loop = Loop(pos: nat, p: Parser, marks: Marks, events: seq<Event>, stop: Stop)

  /** The loop is in step; or it has left with the run; or it stopped at the byte where the run stops,
      unless that one had already met the header limit. Even then it stopped at no internal assertion. */
  ghost predicate Kept(p0: Parser, data: string, max: nat, l: Loop, m: Mark, at: nat) {
    match l.stop
    case Go => l.marks == MarksOf(m, at) && Synced(p0, data, max, l.pos, l.p, l.events, m, at)
    case Exit => l.pos <= |data| && Left(Run(p0, data[..l.pos], max), l)
    case Fail(e) => l.pos < |data| && Failed(p0, data, max, l.pos, e)
  }

  ghost predicate Left(r: Result, l: Loop) {
    r.stop.Exit? && r.p == l.p && Merge(l.events) == Merge(r.events)
  }

  ghost predicate Failed(p0: Parser, data: string, max: nat, pos: nat, e: Errno)
    requires pos < |data|
  {
    || (Run(p0, data[..pos], max).stop.Go? && Run(p0, data[..pos + 1], max).stop == Fail(e))
    || (Run(p0, data[..pos + 1], max).stop == Fail(HeaderOverflow) && (WellFormed(p0) ==> e != AssertionFailed))
  }

  /** One byte through the switch; `q` is the record with the byte already counted. */
  method OneByte(ghost p0: Parser, data: string, max: nat, pos: nat, ghost p: Parser, q: Parser, marks: Marks,
                 events: seq<Event>, ghost m: Mark, ghost at: nat)
    returns (l: Loop, ghost m': Mark, ghost at': nat)
    requires Synced(p0, data, max, pos, p, events, m, at) && pos < |data| && marks == MarksOf(m, at)
    requires !Overflows(p, max) && q == Counted(p)
    ensures Kept(p0, data, max, l, m', at') && (l.stop.Go? ==> l.pos == pos + 1)
    ensures l.stop.Fail? ==> l.pos == pos
  {
    hide Run, Merge, Dispatch, Perform, Counted;
    at' := ByteSynced(p0, data, max, pos, p, events, m, at);
    var o := Dispatch(q, data[pos]);
    m' := Finally(o.acts, m);
    var (ms, es) := Perform(o.acts, marks, data, pos);
    match o.stop
    case Go => l := Loop(pos + 1, o.p, ms, events + es, Go);
    case Exit => l := Loop(pos + 1, o.p, ms, events + es, Exit);
    case Fail(e) => l := Loop(pos, o.p, ms, events + es, Fail(e));
  }

  // ---- Reading ahead in headers ----

  /** The record as the byte-at-a-time run has it when the fast path, entered at `start`, stands at `pos`. */
  function Lag(r: Parser, start: nat, pos: nat): Parser
    requires r.nread > 0 && start <= pos
  {
    r.(nread := r.nread + (pos - start) - 1)
  }

  /** The fast path is in step, or the run has met the header limit, which the late count will find too. */
  ghost predicate Track(p0: Parser, data: string, max: nat, start: nat, pos: nat, r: Parser,
                        events: seq<Event>, m: Mark, at: nat)
  {
    && start <= pos <= |data| && r.nread > 0
    && if Lag(r, start, pos).nread <= max then Synced(p0, data, max, pos, Lag(r, start, pos), events, m, at)
       else Run(p0, data[..pos], max).stop == Fail(HeaderOverflow)
  }

  /** A byte without acts is taken by the fast path. */
  lemma TrackByte(p0: Parser, data: string, max: nat, start: nat, pos: nat, r: Parser, r': Parser,
                  events: seq<Event>, m: Mark, at: nat)
    requires Track(p0, data, max, start, pos, r, events, m, at) && pos < |data|
    requires ParsingHeader(r.state) && m.On? && r'.nread == r.nread
    requires Dispatch(Lag(r, start, pos + 1), data[pos]) == Ok(Lag(r', start, pos + 1), [])
    ensures Track(p0, data, max, start, pos + 1, r', events, m, at)
  {
    hide Run, Merge, Dispatch;
    var p := Lag(r, start, pos);
    assert Counted(p) == Lag(r, start, pos + 1);
    if p.nread > max {
      StoppedStays(p0, data, max, pos, pos + 1);
    } else if Overflows(p, max) {
      ByteOverflows(p0, data, max, pos, p, events, m, at);
    } else {
      var at' := ByteSynced(p0, data, max, pos, p, events, m, at);
      assert MarksOf(m, at)[m.kind] == at && MarksOf(m, at')[m.kind] == at';
      assert events + [] == events;
    }
  }

  /** A byte that the fast path refuses. */
  lemma TrackFail(p0: Parser, data: string, max: nat, start: nat, pos: nat, r: Parser,
                  events: seq<Event>, m: Mark, at: nat, e: Errno)
    requires Track(p0, data, max, start, pos, r, events, m, at) && pos < |data| && ParsingHeader(r.state)
    requires Dispatch(Lag(r, start, pos + 1), data[pos]).stop == Fail(e) && (WellFormed(p0) ==> e != AssertionFailed)
    ensures Failed(p0, data, max, pos, e)
  {
    hide Run, Merge, Dispatch;
    var p := Lag(r, start, pos);
    assert Counted(p) == Lag(r, start, pos + 1);
    if p.nread > max {
      StoppedStays(p0, data, max, pos, pos + 1);
    } else if Overflows(p, max) {
      ByteOverflows(p0, data, max, pos, p, events, m, at);
    } else {
      var at' := ByteSynced(p0, data, max, pos, p, events, m, at);
    }
  }

  /** The late count finds the limit when the run has met it, or meets it with the next byte. */
  lemma TrackOverflow(p0: Parser, data: string, max: nat, start: nat, pos: nat, r: Parser,
                      events: seq<Event>, m: Mark, at: nat)
    requires Track(p0, data, max, start, pos, r, events, m, at) && pos < |data| && ParsingHeader(r.state)
    requires r.nread + (pos - start) > max
    ensures Run(p0, data[..pos + 1], max).stop == Fail(HeaderOverflow)
  {
    hide Run, Merge, Dispatch;
    var p := Lag(r, start, pos);
    if p.nread > max {
      StoppedStays(p0, data, max, pos, pos + 1);
    } else {
      ByteOverflows(p0, data, max, pos, p, events, m, at);
    }
  }

  function Min(a: nat, b: nat): nat { if a < b then a else b }

  /** A name character in a state that reads names. */
  lemma FieldByte(p0: Parser, data: string, max: nat, start: nat, pos: nat, r: Parser, events: seq<Event>, at: nat)
    requires Track(p0, data, max, start, pos, r, events, On(Field), at) && pos < |data|
    requires r.state.HeaderField? && Token(data[pos]) != '\0' && IsFieldState(r.headerState)
    ensures Track(p0, data, max, start, pos + 1, FieldStep(r, data[pos]), events, On(Field), at)
  {
    hide Run, Merge, Token, FieldChar, IsFieldState, Synced;
    TrackByte(p0, data, max, start, pos, r, FieldStep(r, data[pos]), events, On(Field), at);
  }

  /** The name of a header from `start` on: characters are matched against the known names, or skipped. */
  method ReadName(ghost p0: Parser, data: string, max: nat, start: nat, q: Parser, ghost events: seq<Event>, ghost at: nat)
    returns (pos: nat, r: Parser, stop: Stop)
    requires start <= |data| && Track(p0, data, max, start, start, q, events, On(Field), at) && q.state.HeaderField?
    requires WellFormed(p0) ==> WellFormed(q)
    ensures start <= pos <= |data|
    ensures stop.Go? ==> r.state.HeaderField? && Track(p0, data, max, start, pos, r, events, On(Field), at)
    ensures stop.Go? && pos < |data| ==> Token(data[pos]) == '\0'
    ensures !stop.Go? ==> stop == Fail(AssertionFailed) && pos < |data| && Failed(p0, data, max, pos, AssertionFailed)
  {
    hide Run, Merge, Track, Token, WellFormed, IsFieldState;
    pos, r := start, q;
    while pos < |data|
      invariant start <= pos <= |data| && r.state.HeaderField?
      invariant Track(p0, data, max, start, pos, r, events, On(Field), at)
      invariant WellFormed(p0) ==> WellFormed(r)
      decreases |data| - pos
    {
      var ch := data[pos];
      if Token(ch) == '\0' { break; }
      if WellFormed(p0) { NameSafe(r, ch); }
      if !IsFieldState(r.headerState) {
        NameAssertion(p0, data, max, start, pos, r, events, at);
        return pos, r, Fail(AssertionFailed);
      }
      if r.headerState.General? {
        var pe := pos + Min(|data| - pos, max);
        while pos + 1 < pe && Token(data[pos + 1]) != '\0'
          invariant start <= pos < |data| && Token(data[pos]) != '\0' && r.state.HeaderField? && r.headerState.General?
          invariant Track(p0, data, max, start, pos, r, events, On(Field), at)
        {
          FieldByte(p0, data, max, start, pos, r, events, at);
          assert FieldStep(r, data[pos]) == r;
          pos := pos + 1;
        }
      }
      FieldByte(p0, data, max, start, pos, r, events, at);
      if WellFormed(p0) { NameSafe(r, data[pos]); }
      r := FieldStep(r, data[pos]);
      pos := pos + 1;
    }
    stop := Go;
  }

  /** A name character from a well-formed record meets no assertion. */
  lemma NameSafe(r: Parser, ch: char)
    requires WellFormed(r) && r.state.HeaderField? && Token(ch) != '\0'
    ensures IsFieldState(r.headerState) && WellFormed(FieldStep(r, ch))
  {
    hide FieldChar, Token, FieldIndex, ValueIndex, IsFieldState;
    HeaderFieldSafe(r, ch);
  }

  lemma NameAssertion(p0: Parser, data: string, max: nat, start: nat, pos: nat, r: Parser, events: seq<Event>, at: nat)
    requires Track(p0, data, max, start, pos, r, events, On(Field), at) && pos < |data|
    requires r.state.HeaderField? && Token(data[pos]) != '\0' && !IsFieldState(r.headerState) && !WellFormed(p0)
    ensures Failed(p0, data, max, pos, AssertionFailed)
  {
    hide Run, Merge, Token, Synced, WellFormed;
    TrackFail(p0, data, max, start, pos, r, events, On(Field), at, AssertionFailed);
  }

  lemma TeCountApart(r: Parser, n: nat, ch: char)
    ensures TeChar(r.(nread := n), ch) == TeChar(r, ch).(nread := n)
    ensures TeChar(r, ch).nread == r.nread && TeChar(r, ch).state == r.state
  {
    hide MatchName, Token, Lower;
    match r.headerState case MatchingTeTokenStart => case MatchingTeChunked => case MatchingTeToken => case TeChunked => case _ =>
  }

  lemma ConnCountApart(r: Parser, n: nat, ch: char)
    ensures ConnChar(r.(nread := n), ch) == ConnChar(r, ch).(nread := n)
    ensures ConnChar(r, ch).nread == r.nread && ConnChar(r, ch).state == r.state
  {
    hide MatchName, Token, Lower, OptionFlag;
    match r.headerState
    case MatchingConnTokenStart => case MatchingConnKeepAlive => case MatchingConnClose => case MatchingConnUpgrade =>
    case MatchingConnToken => case _ =>
  }

  lemma LengthCountApart(r: Parser, n: nat, ch: char)
    ensures var o := LengthChar(r, ch);
      && LengthChar(r.(nread := n), ch) == o.(p := o.p.(nread := n))
      && o.p.nread == r.nread && o.p.state == r.state && o.acts == [] && !o.stop.Exit?
  {
    hide MayOverflow, Shift;
  }

  lemma PlainCountApart(r: Parser, n: nat, ch: char)
    ensures var o := PlainValueChar(r, ch); PlainValueChar(r.(nread := n), ch) == o.(p := o.p.(nread := n))
  {
    hide LengthChar;
    LengthCountApart(r, n, ch);
  }

  lemma PlainKeeps(r: Parser, ch: char)
    ensures var o := PlainValueChar(r, ch);
      o.p.nread == r.nread && o.p.state == r.state && o.acts == [] && !o.stop.Exit?
  {
    hide LengthChar;
    LengthCountApart(r, 0, ch);
  }

  /** Value characters do not look at the header count. */
  lemma ValueCharCount(r: Parser, n: nat, ch: char)
    ensures var o := ValueChar(r, ch);
      && ValueChar(r.(nread := n), ch) == o.(p := o.p.(nread := n))
      && o.p.nread == r.nread && o.p.state == r.state && o.acts == [] && !o.stop.Exit?
  {
    hide IsHeaderChar, TeChar, ConnChar, PlainValueChar;
    if InTe(r.headerState) {
      TeCountApart(r, n, ch);
    } else if InConn(r.headerState) {
      ConnCountApart(r, n, ch);
    } else {
      PlainCountApart(r, n, ch);
      PlainKeeps(r, ch);
    }
  }

  /** A value character from a well-formed record meets no assertion. */
  lemma ValueSafe(r: Parser, ch: char)
    requires WellFormed(r) && r.state.HeaderValue?
    ensures Safe(ValueChar(r, ch))
  {
    hide FieldIndex, ValueIndex, ValueChar;
    ValueCharSafe(r, ch);
  }

  lemma DispatchValue(p: Parser, ch: char)
    requires p.state.HeaderValue? && !IsBreak(ch)
    ensures Dispatch(p, ch) == ValueChar(p, ch)
  {
    hide ValueChar;
  }

  lemma ValueByte(p0: Parser, data: string, max: nat, start: nat, pos: nat, r: Parser, events: seq<Event>, at: nat)
    requires Track(p0, data, max, start, pos, r, events, On(Value), at) && pos < |data|
    requires r.state.HeaderValue? && !IsBreak(data[pos]) && (WellFormed(p0) ==> WellFormed(r))
    ensures var o := ValueChar(r, data[pos]);
      && (o.stop.Go? ==> Track(p0, data, max, start, pos + 1, o.p, events, On(Value), at))
      && (o.stop.Go? && WellFormed(p0) ==> WellFormed(o.p))
      && (o.stop.Fail? ==> Failed(p0, data, max, pos, o.stop.errno))
  {
    hide Run, Merge, Synced, ValueChar, WellFormed, Dispatch;
    DispatchValue(Lag(r, start, pos + 1), data[pos]);
    if WellFormed(p0) { ValueSafe(r, data[pos]); }
    var o := ValueChar(r, data[pos]);
    ValueCharCount(r, Lag(r, start, pos + 1).nread, data[pos]);
    match o.stop
    case Go => TrackByte(p0, data, max, start, pos, r, o.p, events, On(Value), at);
    case Exit =>
    case Fail(e) => TrackFail(p0, data, max, start, pos, r, events, On(Value), at, e);
  }

  /** The fast path may step over a byte unread, but only where the late count will exceed the limit. */
  lemma SkippedByte(p0: Parser, data: string, max: nat, start: nat, pos: nat, r: Parser, events: seq<Event>, at: nat)
    requires Track(p0, data, max, start, pos, r, events, On(Value), at) && pos < |data| && r.state.HeaderValue?
    requires pos >= start + max
    ensures Track(p0, data, max, start, pos + 1, r, events, On(Value), at)
  {
    hide Run, Merge, Synced;
    TrackOverflow(p0, data, max, start, pos, r, events, On(Value), at);
  }

  /** The run of characters of a value that is not being matched. */
  method SkipValue(ghost p0: Parser, data: string, max: nat, start: nat, from: nat, r: Parser, ghost events: seq<Event>, ghost at: nat)
    returns (pos: nat, stop: Stop)
    requires start <= from < |data| && !IsBreak(data[from])
    requires Track(p0, data, max, start, from, r, events, On(Value), at) && r.state.HeaderValue?
      && r.headerState.General? && (WellFormed(p0) ==> WellFormed(r))
    ensures from <= pos <= |data| && (stop.Go? ==> from < pos)
    ensures stop.Go? ==> Track(p0, data, max, start, pos, r, events, On(Value), at)
    ensures !stop.Go? ==> stop == Fail(InvalidHeaderToken) && pos < |data| && Failed(p0, data, max, pos, InvalidHeaderToken)
  {
    hide Run, Merge, Track, IsHeaderChar, WellFormed;
    var pe := from + Min(|data| - from, max);
    pos := from;
    while pos != pe
      invariant from <= pos <= pe && Track(p0, data, max, start, pos, r, events, On(Value), at)
      decreases pe - pos
    {
      if IsBreak(data[pos]) { return pos, Go; }
      ValueByte(p0, data, max, start, pos, r, events, at);
      if !IsHeaderChar(data[pos]) { return pos, Fail(InvalidHeaderToken); }
      pos := pos + 1;
    }
    if pos < |data| {
      SkippedByte(p0, data, max, start, pos, r, events, at);
      pos := pos + 1;
    }
    stop := Go;
  }

  /** The value of a header from `start` on, up to the end of the line. */
  method ReadValue(ghost p0: Parser, data: string, max: nat, start: nat, q: Parser, ghost events: seq<Event>, ghost at: nat)
    returns (pos: nat, r: Parser, stop: Stop)
    requires start <= |data| && Track(p0, data, max, start, start, q, events, On(Value), at) && q.state.HeaderValue?
    requires WellFormed(p0) ==> WellFormed(q)
    ensures start <= pos <= |data|
    ensures stop.Go? ==> r.state.HeaderValue? && Track(p0, data, max, start, pos, r, events, On(Value), at)
    ensures stop.Go? && pos < |data| ==> IsBreak(data[pos])
    ensures !stop.Go? ==> stop.Fail? && pos < |data| && Failed(p0, data, max, pos, stop.errno)
  {
    hide Run, Merge, Track, ValueChar, WellFormed;
    pos, r := start, q;
    while pos < |data|
      invariant start <= pos <= |data| && r.state.HeaderValue? && (WellFormed(p0) ==> WellFormed(r))
      invariant Track(p0, data, max, start, pos, r, events, On(Value), at)
      decreases |data| - pos
    {
      if IsBreak(data[pos]) { break; }
      if r.headerState.General? {
        pos, stop := SkipValue(p0, data, max, start, pos, r, events, at);
        if !stop.Go? { return; }
      } else {
        ValueByte(p0, data, max, start, pos, r, events, at);
        ValueCharCount(r, 0, data[pos]);
        var o := ValueChar(r, data[pos]);
        if !o.stop.Go? { return pos, r, o.stop; }
        r := o.p;
        pos := pos + 1;
      }
    }
    stop := Go;
  }

  // ---- Reading ahead in bodies ----

  /** States in which bytes are body data, with at least `k` of them to come before the last. */
  predicate Skippable(p: Parser, k: nat) {
    || p.state.BodyIdentityEof?
    || (p.state.BodyIdentity? && k < p.contentLength < ULLONG_MAX)
    || (p.state.ChunkData? && p.flags.chunked && k < p.contentLength < ULLONG_MAX)
  }

  function Skipped(p: Parser, k: nat): Parser
    requires Skippable(p, k)
  {
    if p.state.BodyIdentityEof? then p else p.(contentLength := p.contentLength - k)
  }

  lemma PerformSetMark(k: DataKind, marks: Marks, data: string, pos: nat)
    requires pos < |data| && MarksBefore(marks, pos)
    ensures Perform([SetMark(k)], marks, data, pos) == (if k in marks then marks else marks[k := pos], [])
  {
    assert [SetMark(k)][1..] == [];
    var none: seq<Event> := [];
    assert none + none == none;
  }

  lemma SyncedFits(p0: Parser, data: string, max: nat, pos: nat, p: Parser, events: seq<Event>, m: Mark, at: nat)
    requires Synced(p0, data, max, pos, p, events, m, at)
    ensures pos <= |data| && Fits(m, p.state) && (m.On? ==> at <= pos)
  {
    hide Run, Merge;
  }

  lemma SkipDispatch(p: Parser, ch: char)
    requires Skippable(p, 1)
    ensures Dispatch(Counted(p), ch) == Ok(Skipped(p, 1), [SetMark(Body)])
  {}

  lemma SkipByte(p0: Parser, data: string, max: nat, pos: nat, p: Parser, events: seq<Event>, m: Mark, at: nat)
    requires Synced(p0, data, max, pos, p, events, m, at) && pos < |data| && Skippable(p, 1)
    ensures Synced(p0, data, max, pos + 1, Skipped(p, 1), events, On(Body), if m.On? then at else pos)
  {
    hide Run, Merge, Perform, Dispatch;
    var at' := ByteSynced(p0, data, max, pos, p, events, m, at);
    SkipDispatch(p, data[pos]);
    var marks := MarksOf(m, at);
    assert Fits(m, p.state) && (m.NoMark? || m == On(Body));
    PerformSetMark(Body, marks, data, pos);
    assert Finally([SetMark(Body)], m) == On(Body);
    assert MarksOf(On(Body), at')[Body] == at';
    assert events + [] == events;
  }

  lemma {:induction false} SkipBytes(p0: Parser, data: string, max: nat, pos: nat, p: Parser, events: seq<Event>,
                                     m: Mark, at: nat, k: nat)
    requires Synced(p0, data, max, pos, p, events, m, at) && pos + k <= |data| && Skippable(p, k) && k > 0
    ensures Synced(p0, data, max, pos + k, Skipped(p, k), events, On(Body), if m.On? then at else pos)
    decreases k
  {
    hide Run, Merge, Synced;
    SkipByte(p0, data, max, pos, p, events, m, at);
    if k > 1 {
      SkipBytes(p0, data, max, pos + 1, Skipped(p, 1), events, On(Body), if m.On? then at else pos, k - 1);
    }
  }

  /** Body bytes: all that belong to the body and are there, the last of them through the switch. */
  method ReadBody(ghost p0: Parser, data: string, max: nat, pos: nat, p: Parser, marks: Marks,
                  events: seq<Event>, ghost m: Mark, ghost at: nat)
    returns (l: Loop, ghost m': Mark, ghost at': nat)
    requires Synced(p0, data, max, pos, p, events, m, at) && pos < |data| && marks == MarksOf(m, at)
    requires p.state.BodyIdentity? || p.state.ChunkData? || p.state.BodyIdentityEof?
    ensures Kept(p0, data, max, l, m', at') && (l.stop.Go? ==> l.pos > pos) && l.pos <= |data|
  {
    hide Run, Merge, Dispatch, Synced;
    var toRead := if p.state.BodyIdentityEof? then |data| - pos else Min(p.contentLength, |data| - pos);
    if toRead > 1 && Skippable(p, toRead - 1) {
      SkipBytes(p0, data, max, pos, p, events, m, at, toRead - 1);
      SyncedFits(p0, data, max, pos, p, events, m, at);
      var body := if Body in marks then marks else marks[Body := pos];
      var q := Skipped(p, toRead - 1);
      l, m', at' := OneByte(p0, data, max, pos + toRead - 1, q, q, body, events, On(Body), if m.On? then at else pos);
    } else {
      l, m', at' := OneByte(p0, data, max, pos, p, p, marks, events, m, at);
    }
  }

  // ---- The loop ----

  lemma TrackStarts(p0: Parser, data: string, max: nat, pos: nat, p: Parser, events: seq<Event>, m: Mark, at: nat)
    requires Synced(p0, data, max, pos, p, events, m, at) && ParsingHeader(p.state) && !Overflows(p, max)
    ensures Track(p0, data, max, pos, pos, Counted(p), events, m, at)
  {
    hide Run, Merge;
    assert Lag(Counted(p), pos, pos) == p;
  }

  /** The late count at the end of the buffer. */
  method EndOfBuffer(ghost p0: Parser, data: string, max: nat, start: nat, r: Parser, marks: Marks,
                     events: seq<Event>, ghost m: Mark, ghost at: nat) returns (l: Loop)
    requires Track(p0, data, max, start, |data|, r, events, m, at) && start < |data| && marks == MarksOf(m, at)
    ensures Kept(p0, data, max, l, m, at) && l.pos <= |data| && (l.stop.Go? ==> l.pos == |data|)
  {
    hide Run, Merge, Synced;
    assert data[..|data| - 1 + 1] == data[..|data|];
    var p := |data| - 1;
    var nread := r.nread + (p - start);
    if nread > max {
      return Loop(p, r.(nread := nread), marks, events, Fail(HeaderOverflow));
    }
    l := Loop(|data|, r.(nread := nread), marks, events, Go);
  }

  /** The late count at a byte that ends a name or a value, and that byte's own handling. */
  method EndOfRun(ghost p0: Parser, data: string, max: nat, start: nat, pos: nat, r: Parser, marks: Marks,
                  events: seq<Event>, ghost m: Mark, ghost at: nat)
    returns (l: Loop, ghost m': Mark, ghost at': nat)
    requires Track(p0, data, max, start, pos, r, events, m, at) && pos < |data| && marks == MarksOf(m, at)
    requires ParsingHeader(r.state) && (m.On? ==> at <= pos)
    ensures Kept(p0, data, max, l, m', at') && l.pos <= |data| && (l.stop.Go? ==> l.pos == pos + 1)
  {
    hide Run, Merge, Synced;
    var nread := r.nread + (pos - start);
    if nread > max {
      TrackOverflow(p0, data, max, start, pos, r, events, m, at);
      // A carriage return hands the value over before the count is looked at.
      var es := if data[pos] == '\r' then Perform1(Flush(Value), marks, data, pos).1 else [];
      return Loop(pos, r.(nread := nread), marks, events + es, Fail(HeaderOverflow)), m, at;
    }
    ghost var p := Lag(r, start, pos);
    l, m', at' := OneByte(p0, data, max, pos, p, r.(nread := nread), marks, events, m, at);
  }

  /** In step with a run from a well-formed record, the loop has a well-formed record. */
  lemma SyncedSafe(p0: Parser, data: string, max: nat, pos: nat, p: Parser, events: seq<Event>, m: Mark, at: nat)
    requires Synced(p0, data, max, pos, p, events, m, at) && WellFormed(p0)
    ensures WellFormed(p) && (!p.state.ChunkSizeStart? ==> WellFormed(Counted(p)))
  {
    hide Run, Merge, WellFormed;
    RunIsSafe(p0, data[..pos], max);
    CountKeeps(p);
  }

  /** A header name or value, from the record `q` in which its first byte is already counted. */
  method ReadHeader(ghost p0: Parser, data: string, max: nat, start: nat, ghost p: Parser, q: Parser, marks: Marks,
                    events: seq<Event>, ghost m: Mark, ghost at: nat)
    returns (l: Loop, ghost m': Mark, ghost at': nat)
    requires Synced(p0, data, max, start, p, events, m, at) && start < |data| && marks == MarksOf(m, at)
    requires !Overflows(p, max) && q == Counted(p) && (p.state.HeaderField? || p.state.HeaderValue?)
    ensures Kept(p0, data, max, l, m', at') && (l.stop.Go? ==> l.pos > start) && l.pos <= |data|
  {
    hide Run, Merge, Synced, Track, WellFormed;
    SyncedFits(p0, data, max, start, p, events, m, at);
    if WellFormed(p0) { SyncedSafe(p0, data, max, start, p, events, m, at); }
    TrackStarts(p0, data, max, start, p, events, m, at);
    m', at' := m, at;
    var pos, r, stop;
    if q.state.HeaderField? {
      pos, r, stop := ReadName(p0, data, max, start, q, events, at);
    } else {
      pos, r, stop := ReadValue(p0, data, max, start, q, events, at);
    }
    if !stop.Go? {
      l := Loop(pos, r, marks, events, stop);
    } else if pos == |data| {
      l := EndOfBuffer(p0, data, max, start, r, marks, events, m, at);
    } else {
      l, m', at' := EndOfRun(p0, data, max, start, pos, r, marks, events, m, at);
    }
  }

  /** One turn of the loop. */
  method Turn(ghost p0: Parser, data: string, max: nat, l: Loop, ghost m: Mark, ghost at: nat)
    returns (l': Loop, ghost m': Mark, ghost at': nat)
    requires l.stop.Go? && Kept(p0, data, max, l, m, at) && l.pos < |data|
    ensures Kept(p0, data, max, l', m', at') && (l'.stop.Go? ==> l'.pos > l.pos) && l'.pos <= |data|
  {
    hide Run, Merge, Synced, Dispatch;
    var p := l.p;
    if ParsingHeader(p.state) {
      var nread := p.nread + 1;
      if nread > max {
        ByteOverflows(p0, data, max, l.pos, p, l.events, m, at);
        return l.(stop := Fail(HeaderOverflow)), m, at;
      }
      p := p.(nread := nread);
    }
    if p.state.HeaderField? || p.state.HeaderValue? {
      l', m', at' := ReadHeader(p0, data, max, l.pos, l.p, p, l.marks, l.events, m, at);
    } else if p.state.BodyIdentity? || p.state.ChunkData? || p.state.BodyIdentityEof? {
      l', m', at' := ReadBody(p0, data, max, l.pos, p, l.marks, l.events, m, at);
    } else {
      l', m', at' := OneByte(p0, data, max, l.pos, l.p, p, l.marks, l.events, m, at);
    }
  }

  /** What a call of the parser on a non-empty buffer comes to. */
  ghost predicate Executes(p0: Parser, data: string, max: nat, p: Parser, used: nat, events: seq<Event>, stop: Stop) {
    var r := Run(p0, data, max);
    && (r.stop.Go? <==> stop.Go?)
    && (r.stop.Go? ==> used == |data|)
    && (r.stop.Exit? ==> stop.Exit? && used <= |data| && Run(p0, data[..used], max).stop.Exit?)
    && (!r.stop.Fail? ==> p == r.p && Merge(events) == Merge(r.events))
    && (r.stop.Fail? && r.stop.errno != HeaderOverflow ==>
          stop == r.stop && used < |data| && Run(p0, data[..used], max).stop.Go?)
    && (r.stop.Fail? ==> stop.Fail?)
    && (WellFormed(p0) ==> stop != Fail(AssertionFailed) && (!stop.Fail? ==> WellFormed(p)))
  }

  lemma LoopExecutes(p0: Parser, data: string, max: nat, l: Loop, m: Mark, at: nat, events: seq<Event>)
    requires |data| > 0 && Kept(p0, data, max, l, m, at) && l.pos <= |data| && (l.stop.Go? ==> l.pos == |data|)
    requires MarksBefore(MarksOf(m, at), |data|) || !l.stop.Go?
    requires events == if l.stop.Go? then l.events + FlushAll(l.marks, data) else l.events
    ensures Executes(p0, data, max, l.p, l.pos, events, l.stop)
  {
    hide Merge, StepByte, Run, WellFormed;
    assert data[..|data|] == data;
    if WellFormed(p0) {
      RunIsSafe(p0, data, max);
      if l.pos < |data| { RunIsSafe(p0, data[..l.pos + 1], max); }
    }
    match l.stop
    case Go => FlushAllPiece(m, at, data);
    case Exit => StoppedStays(p0, data, max, l.pos, |data|);
    case Fail(e) =>
      if !Run(p0, data[..l.pos + 1], max).stop.Go? { StoppedStays(p0, data, max, l.pos + 1, |data|); }
  }

  datatype Status = Clean | Broken(errno: Errno)

  /** The end of the connection in state `s`: the callbacks, the status and the returned number. */
  function AtEof(s: State): (seq<Event>, Status, nat) {
    if s.BodyIdentityEof? then ([Notify(MessageComplete)], Clean, 0)
    else if s.Dead? || s.StartReqOrRes? || s.StartRes? || s.StartReq? then ([], Clean, 0)
    else ([], Broken(InvalidEofState), 1)
  }

  class HttpParser {
    const maxHeaderSize: nat
    var record: Parser
    var status: Status

    constructor (kind: Kind, allowChunkedLength: bool, maxHeaderSize: nat)
      ensures record == Init(kind, allowChunkedLength) && status.Clean? && this.maxHeaderSize == maxHeaderSize
    {
      record, status := Init(kind, allowChunkedLength), Clean;
      this.maxHeaderSize := maxHeaderSize;
    }

    /** `http_parser_execute`: the number of bytes taken and the callbacks made. */
    method Execute(data: string) returns (used: nat, events: seq<Event>, ghost stop: Stop)
      modifies this
      ensures old(status).Broken? ==> used == 0 && events == [] && record == old(record) && status == old(status)
      ensures old(status).Clean? && data == "" ==>
        record == old(record) && (events, status, used) == AtEof(record.state)
      ensures old(status).Clean? && data != "" ==>
        && Executes(old(record), data, maxHeaderSize, record, used, events, stop)
        && status == (if stop.Fail? then Broken(stop.errno) else Clean)
    {
      hide Run, Merge, Synced, Executes;
      stop := Go;
      if status.Broken? { return 0, [], stop; }
      if |data| == 0 {
        events, status, used := AtEof(record.state).0, AtEof(record.state).1, AtEof(record.state).2;
        return;
      }
      ghost var p0 := record;
      EntrySynced(p0, data, maxHeaderSize);
      var l := Loop(0, record, MarksOf(EntryMark(record.state), 0), [], Go);
      ghost var m, at := EntryMark(record.state), 0;
      while l.stop.Go? && l.pos < |data|
        invariant Kept(p0, data, maxHeaderSize, l, m, at) && l.pos <= |data| && status.Clean?
        decreases l.stop.Go?, |data| - l.pos
      {
        l, m, at := Turn(p0, data, maxHeaderSize, l, m, at);
      }
      record, used, events := l.p, l.pos, l.events;
      if l.stop.Go? {
        SyncedFits(p0, data, maxHeaderSize, l.pos, l.p, l.events, m, at);
        assert forall j, k | j in l.marks && k in l.marks :: j == k;  // at most one mark is left
        events := events + FlushAll(l.marks, data);
      } else if l.stop.Fail? {
        status := Broken(l.stop.errno);
      }
      LoopExecutes(p0, data, maxHeaderSize, l, m, at, events);
      stop := l.stop;
    }
  }
}
