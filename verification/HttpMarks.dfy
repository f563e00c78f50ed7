/**
 The mark pointers. A mark set in one place is used in another, perhaps many
 bytes later or in a later buffer; what keeps this sound is that the state
 alone tells which mark can be set.
 */
module HttpMarks {
  import opened HttpTypes
  import opened HttpStep
  import opened HttpRun

  predicate BodyState(s: State) {
    s.ChunkData? || s.ChunkDataAlmostDone? || s.BodyIdentity? || s.BodyIdentityEof?
  }

  /** `m` can be the mark that is set when the loop meets state `s`. */
  predicate Fits(m: Mark, s: State) {
    m == EntryMark(s) || (m == On(Body) && BodyState(s))
  }

  // ---- The discipline of the acts ----

  /** The mark after `acts`. */
  function Finally(acts: seq<Act>, m: Mark): Mark {
    if |acts| == 0 then m
    else Finally(acts[1..], match acts[0]
                            case SetMark(k) => On(k)
                            case Call(_) => m
                            case _ => NoMark)
  }

  /** `m` is the mark in the loop, `n` the mark when the byte arrives in a buffer of its own: no act disturbs a
      mark of another kind, no signal overtakes marked bytes, and in the end both sides agree. */
  predicate Disciplined(acts: seq<Act>, m: Mark, n: Mark) {
    if |acts| == 0 then m == n
    else
      match acts[0]
      case SetMark(k) => (m.NoMark? || m == On(k)) && Disciplined(acts[1..], On(k), On(k))
      case Flush(k) => (m.NoMark? || m == On(k)) && Disciplined(acts[1..], NoMark, NoMark)
      case FlushWith(k) => m == n == On(k) && Disciplined(acts[1..], NoMark, NoMark)
      case Call(_) => m.NoMark? && Disciplined(acts[1..], m, n)
  }

  predicate Sound(o: Out, m: Mark, n: Mark) {
    !o.stop.Fail? ==>
      && Disciplined(o.acts, m, n)
      && (o.stop.Go? ==> Fits(Finally(o.acts, m), o.p.state))
      && (o.stop.Exit? ==> Finally(o.acts, m).NoMark?)
  }

  /** One act in front of others. */
  lemma Cons(a: Act, rest: seq<Act>, m: Mark, n: Mark)
    ensures Disciplined([a] + rest, m, n) <==>
      match a
      case SetMark(k) => (m.NoMark? || m == On(k)) && Disciplined(rest, On(k), On(k))
      case Flush(k) => (m.NoMark? || m == On(k)) && Disciplined(rest, NoMark, NoMark)
      case FlushWith(k) => m == n == On(k) && Disciplined(rest, NoMark, NoMark)
      case Call(_) => m.NoMark? && Disciplined(rest, m, n)
    ensures Finally([a] + rest, m) ==
      match a
      case SetMark(k) => Finally(rest, On(k))
      case Call(_) => Finally(rest, m)
      case _ => Finally(rest, NoMark)
  {
    assert ([a] + rest)[1..] == rest;
  }

  /** The lists of a single act. */
  lemma Single(a: Act, m: Mark, n: Mark)
    ensures Disciplined([a], m, n) <==>
      match a
      case SetMark(k) => m.NoMark? || m == On(k)
      case Flush(k) => m.NoMark? || m == On(k)
      case FlushWith(k) => m == n == On(k)
      case Call(_) => m.NoMark? && n.NoMark?
    ensures Finally([a], m) == match a case SetMark(k) => On(k) case Call(_) => m case _ => NoMark
  {
    Cons(a, [], m, n);
    assert [a] + [] == [a];
  }

  lemma StartSound(p: Parser, ch: char)
    ensures Sound(StepStartReqOrRes(p, ch), NoMark, NoMark) || !p.state.StartReqOrRes?
    ensures Sound(StepStartReq(p, ch), NoMark, NoMark) || !p.state.StartReq?
    ensures Sound(StepStartRes(p, ch), NoMark, NoMark) || !p.state.StartRes?
    ensures Sound(StepResOrRespH(p, ch), NoMark, NoMark)
    ensures Sound(StepReqMethod(p, ch), NoMark, NoMark) || !p.state.ReqMethod?
  {
    hide FirstCandidate, SwitchCandidate, MethodString;
    Single(Call(MessageBegin), NoMark, NoMark);
  }

  lemma UrlSound(p: Parser, ch: char, m: Mark)
    requires (p.state.ReqSpacesBeforeUrl? && m.NoMark?) || m == On(Url) == EntryMark(p.state)
    ensures p.state.ReqSpacesBeforeUrl? ==> Sound(StepSpacesBeforeUrl(p, ch), m, EntryMark(p.state))
    ensures !p.state.ReqSpacesBeforeUrl? ==> Sound(StepUrlHead(p, ch), m, m) && Sound(StepUrlTail(p, ch), m, m)
  {
    Single(SetMark(Url), m, m);
    Single(Flush(Url), m, m);
    UrlStates(if p.state.ReqSpacesBeforeUrl? && p.verb.CONNECT? then ReqServerStart else p.state, ch);
  }

  lemma UrlStates(s: State, ch: char)
    ensures !ParseUrlChar(s, ch).Dead? ==> EntryMark(ParseUrlChar(s, ch)) == On(Url)
  {}

  lemma StatusSound(p: Parser, ch: char)
    ensures p.state.ResStatusCode? ==> Sound(StepStatusCode(p, ch), NoMark, NoMark)
    ensures p.state.ResFirstStatusCode? ==> Sound(StepFirstStatusCode(p, ch), NoMark, NoMark)
    ensures p.state.ResStatusStart? ==> Sound(StepStatusStart(p, ch), NoMark, NoMark)
    ensures p.state.ResStatus? ==> Sound(StepStatus(p, ch), On(Status), On(Status))
  {
    Single(SetMark(Status), NoMark, NoMark);
    Single(Flush(Status), On(Status), On(Status));
    Cons(SetMark(Status), [Flush(Status)], NoMark, NoMark);
  }

  lemma MessageDoneSound(p: Parser)
    ensures Sound(StepMessageDone(p), NoMark, NoMark)
  {
    Single(Call(MessageComplete), NoMark, NoMark);
  }

  lemma HeadersDoneSound(p: Parser, ch: char)
    ensures Sound(StepHeadersDone(p, ch), NoMark, NoMark)
  {
    hide NeedsEof;
    Single(Call(MessageComplete), NoMark, NoMark);
  }

  lemma HeadersAlmostDoneSound(p: Parser, ch: char)
    ensures Sound(StepHeadersAlmostDone(p, ch), NoMark, NoMark)
  {
    hide StepHeadersDone, StepMessageDone;
    if ch == '\n' && p.flags.trailing {
      var q := p.(state := MessageDone);
      MessageDoneSound(q);
      Cons(Call(ChunkComplete), StepMessageDone(q).acts, NoMark, NoMark);
    } else if StepHeadersAlmostDone(p, ch).acts != [] {
      var up := if p.flags.upgrade && p.flags.connUpgrade then p.kind.Request? || p.statusCode == 101
                else p.verb.CONNECT?;
      var q := p.(state := HeadersDone, upgrade := up);
      HeadersDoneSound(q, ch);
      Cons(Call(HeadersComplete), StepHeadersDone(q, ch).acts, NoMark, NoMark);
    }
  }

  lemma HeaderFieldStartSound(p: Parser, ch: char)
    ensures Sound(StepHeaderFieldStart(p, ch), NoMark, NoMark)
  {
    hide StepHeadersAlmostDone;
    Single(SetMark(Field), NoMark, NoMark);
    HeadersAlmostDoneSound(p.(state := HeadersAlmostDone), ch);
  }

  lemma ValueStartSound(p: Parser, ch: char)
    ensures Sound(StepValueStart(p, ch), NoMark, NoMark)
  {
    Single(SetMark(Value), NoMark, NoMark);
  }

  lemma HeaderValueSound(p: Parser, ch: char)
    requires p.state.HeaderValue?
    ensures Sound(StepHeaderValue(p, ch), On(Value), On(Value))
  {
    Single(Flush(Value), On(Value), On(Value));
    assert [Flush(Value)] + [] == [Flush(Value)];
    if !IsBreak(ch) { ValueCharQuiet(p, ch); }
  }

  lemma ListCharQuiet(p: Parser, ch: char)
    ensures TeChar(p, ch).state == p.state && ConnChar(p, ch).state == p.state
  {
    hide MatchName, OptionFlag;
  }

  lemma ValueCharQuiet(p: Parser, ch: char)
    ensures var o := ValueChar(p, ch);
      o.acts == [] && o.p.state == p.state && !o.stop.Exit?
  {
    ListCharQuiet(p, ch);
    hide TeChar, ConnChar, InTe, InConn, MayOverflow, Shift;
  }

  lemma LwsSound(p: Parser, ch: char)
    ensures Sound(StepValueLws(p, ch), NoMark, NoMark)
    ensures Sound(StepDiscardLws(p, ch), NoMark, NoMark)
  {
    hide StepValueStart, StepHeaderFieldStart;
    ValueStartSound(p.(headerState := if p.headerState.ContentLengthNum? then ContentLengthWs else p.headerState,
                       state := HeaderValueStart), ch);
    var q := p.(flags := HeaderFlag(p.headerState, p.flags), state := HeaderFieldStart);
    HeaderFieldStartSound(q, ch);
    var rest := StepHeaderFieldStart(q, ch).acts;
    Cons(Flush(Value), rest, On(Value), On(Value));
    Cons(SetMark(Value), [Flush(Value)] + rest, NoMark, NoMark);
    assert [SetMark(Value), Flush(Value)] + rest == [SetMark(Value)] + ([Flush(Value)] + rest);
  }

  lemma FieldSound(p: Parser, ch: char)
    requires p.state.HeaderField?
    ensures Sound(StepHeaderField(p, ch), On(Field), On(Field))
  {
    Single(Flush(Field), On(Field), On(Field));
  }

  lemma DiscardWsSound(p: Parser, ch: char)
    requires p.state.HeaderValueDiscardWs?
    ensures Sound(StepDiscardWs(p, ch), NoMark, NoMark)
  {
    hide StepValueStart;
    ValueStartSound(p, ch);
  }

  lemma BodySound(p: Parser, m: Mark)
    requires m.NoMark? || m == On(Body)
    ensures p.state.BodyIdentity? ==> Sound(StepBodyIdentity(p), m, NoMark)
    ensures p.state.ChunkData? ==> Sound(StepChunkData(p), m, NoMark)
  {
    hide StepMessageDone;
    Single(SetMark(Body), m, NoMark);
    if LengthInUse(p) {
      var q := p.(contentLength := p.contentLength - 1, state := MessageDone);
      MessageDoneSound(q);
      var rest := StepMessageDone(q).acts;
      Cons(FlushWith(Body), rest, On(Body), On(Body));
      Cons(SetMark(Body), [FlushWith(Body)] + rest, m, NoMark);
      assert [SetMark(Body), FlushWith(Body)] + rest == [SetMark(Body)] + ([FlushWith(Body)] + rest);
    }
  }

  lemma ChunkSizeSound(p: Parser, ch: char)
    ensures p.state.ChunkSizeStart? ==> Sound(StepChunkSizeStart(p, ch), NoMark, NoMark)
    ensures p.state.ChunkSize? ==> Sound(StepChunkSize(p, ch), NoMark, NoMark)
    ensures p.state.ChunkParameters? ==> Sound(StepChunkParameters(p, ch), NoMark, NoMark)
    ensures p.state.ChunkSizeAlmostDone? ==> Sound(StepChunkSizeAlmostDone(p, ch), NoMark, NoMark)
  {
    Single(Call(ChunkHeader), NoMark, NoMark);
  }

  lemma ChunkEndSound(p: Parser, ch: char, m: Mark)
    requires Fits(m, p.state)
    ensures p.state.ChunkDataAlmostDone? ==> Sound(StepChunkDataAlmostDone(p, ch), m, NoMark)
    ensures p.state.ChunkDataDone? ==> Sound(StepChunkDataDone(p, ch), m, NoMark)
  {
    Single(Call(ChunkComplete), NoMark, NoMark);
    Single(Flush(Body), m, NoMark);
  }

  predicate InHeaders(s: State) {
    || s.HeaderFieldStart? || s.HeaderField? || s.HeaderValueDiscardWs? || s.HeaderValueDiscardWsAlmostDone?
    || s.HeaderValueDiscardLws? || s.HeaderValueStart? || s.HeaderValue? || s.HeaderValueLws? || s.HeaderAlmostDone?
    || s.HeadersAlmostDone? || s.HeadersDone?
  }

  predicate InBody(s: State) {
    || s.ChunkSizeStart? || s.ChunkSize? || s.ChunkParameters? || s.ChunkSizeAlmostDone? || s.ChunkData?
    || s.ChunkDataAlmostDone? || s.ChunkDataDone? || s.BodyIdentity? || s.BodyIdentityEof? || s.MessageDone?
  }

  lemma HeaderStatesSound(p: Parser, ch: char, m: Mark)
    requires Fits(m, p.state) && InHeaders(p.state)
    ensures Sound(Dispatch(p, ch), m, EntryMark(p.state))
  {
    hide StepHeadersDone, StepHeadersAlmostDone, StepHeaderFieldStart, StepValueStart, StepHeaderValue, StepValueLws,
      StepDiscardLws, StepHeaderField, StepDiscardWs;
    match p.state
    case HeadersDone => HeadersDoneSound(p, ch);
    case HeadersAlmostDone => HeadersAlmostDoneSound(p, ch);
    case HeaderFieldStart => HeaderFieldStartSound(p, ch);
    case HeaderField => FieldSound(p, ch);
    case HeaderValueStart => ValueStartSound(p, ch);
    case HeaderValue => HeaderValueSound(p, ch);
    case HeaderValueLws => LwsSound(p, ch);
    case HeaderValueDiscardLws => LwsSound(p, ch);
    case HeaderValueDiscardWs => DiscardWsSound(p, ch);
    case _ =>
  }

  lemma BodyStatesSound(p: Parser, ch: char, m: Mark)
    requires Fits(m, p.state) && InBody(p.state)
    ensures Sound(Dispatch(p, ch), m, EntryMark(p.state))
  {
    hide StepMessageDone, StepBodyIdentity, StepChunkData, StepChunkSizeStart, StepChunkSize,
      StepChunkParameters, StepChunkSizeAlmostDone, StepChunkDataAlmostDone, StepChunkDataDone;
    MessageDoneSound(p);
    if BodyState(p.state) { BodySound(p, m); }
    ChunkSizeSound(p, ch);
    ChunkEndSound(p, ch, m);
    Single(SetMark(Body), m, NoMark);
  }

  predicate InUrl(s: State) { s.ReqSpacesBeforeUrl? || EntryMark(s) == On(Url) }

  predicate InStatus(s: State) { s.ResStatusCode? || s.ResFirstStatusCode? || s.ResStatusStart? || s.ResStatus? }

  predicate InStart(s: State) { s.StartReqOrRes? || s.StartReq? || s.StartRes? || s.ResOrRespH? || s.ReqMethod? }

  lemma UrlStatesSound(p: Parser, ch: char, m: Mark)
    requires Fits(m, p.state) && InUrl(p.state)
    ensures Sound(Dispatch(p, ch), m, EntryMark(p.state))
  {
    hide StepSpacesBeforeUrl, StepUrlHead, StepUrlTail, Sound;
    UrlSound(p, ch, m);
  }

  lemma StartStatesSound(p: Parser, ch: char, m: Mark)
    requires Fits(m, p.state) && (InStart(p.state) || InStatus(p.state))
    ensures Sound(Dispatch(p, ch), m, EntryMark(p.state))
  {
    hide StepStartReqOrRes, StepStartReq, StepStartRes, StepResOrRespH, StepReqMethod,
      StepStatusCode, StepFirstStatusCode, StepStatusStart, StepStatus, Sound;
    if InStatus(p.state) { StatusSound(p, ch); } else { StartSound(p, ch); }
  }

  /** The states that only look at their byte. */
  lemma PlainStatesSound(p: Parser, ch: char, m: Mark)
    requires Fits(m, p.state) && !InHeaders(p.state) && !InBody(p.state)
    requires !InUrl(p.state) && !InStart(p.state) && !InStatus(p.state)
    ensures Sound(Dispatch(p, ch), m, EntryMark(p.state))
  {
    hide StepStartReqOrRes, StepStartReq, StepStartRes, StepResOrRespH, StepReqMethod,
      StepStatusCode, StepFirstStatusCode, StepStatusStart, StepStatus,
      StepSpacesBeforeUrl, StepUrlHead, StepUrlTail,
      StepHeadersDone, StepHeadersAlmostDone, StepHeaderFieldStart, StepValueStart, StepHeaderValue, StepValueLws,
      StepDiscardLws, StepHeaderField, StepDiscardWs, StepMessageDone, StepBodyIdentity, StepChunkData,
      StepChunkSizeStart, StepChunkSize, StepChunkParameters, StepChunkSizeAlmostDone, StepChunkDataAlmostDone,
      StepChunkDataDone;
  }

  /** In every state the acts of a byte respect the mark that can be set there. */
  lemma DispatchSound(p: Parser, ch: char, m: Mark)
    requires Fits(m, p.state)
    ensures Sound(Dispatch(p, ch), m, EntryMark(p.state))
  {
    hide Dispatch, Sound;
    if InHeaders(p.state) {
      HeaderStatesSound(p, ch, m);
    } else if InBody(p.state) {
      BodyStatesSound(p, ch, m);
    } else if InUrl(p.state) {
      UrlStatesSound(p, ch, m);
    } else if InStart(p.state) || InStatus(p.state) {
      StartStatesSound(p, ch, m);
    } else {
      PlainStatesSound(p, ch, m);
    }
  }
}
