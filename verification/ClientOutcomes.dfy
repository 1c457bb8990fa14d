/** What each receive call returns, and with which error each stream is closed, from the events of the run. */
module ClientOutcomes {
  import opened Types
  import opened StreamQueue
  import opened ClientEngine
  import opened ClientTable
  import opened ClientCalls
  import CC = ClientCalls
  import opened ClientRuns

  // ---------------------------------------------------------------- why the receive loop ends

  /** The error the receive loop ends with: ErrClosed once Close has been called, else that of the failed read. */
  function LoopError(cfg: Config, es: seq<Event>): Option<Err> {
    if es == [] then None
    else
      var (c, e) := (After(cfg, es[..|es| - 1]), es[|es| - 1]);
      if e == Receive(LoopTop) && c.loop.Top? && c.ctxDone then Some(ErrClosed)
      else if e.Receive? && e.le.ReadFails? && c.loop.Reading? then Some(e.le.err)
      else LoopError(cfg, es[..|es| - 1])
  }

  predicate LoopEnds(loop: Loop, err: Option<Err>) {
    loop.Exiting? || loop.ConnClosed? || loop.Cleaning? ==> err == Some(loop.err)
  }

  lemma LoopEndsStep(cfg: Config, c: Client, e: Event, err: Option<Err>)
    requires LoopEnds(c.loop, err)
    ensures LoopEnds(Apply(cfg, c, e).loop,
                     if e == Receive(LoopTop) && c.loop.Top? && c.ctxDone then Some(ErrClosed)
                     else if e.Receive? && e.le.ReadFails? && c.loop.Reading? then Some(e.le.err) else err)
  {
    match e
    case Caller(ce) => CallerKeepsLoop(cfg, c, ce);
    case Receive(le) => LoopMoves(c, le, err);
    case Consume(k, ev) => ConsumerEffects(cfg, c, k, ev);
  }

  lemma CallerKeepsLoop(cfg: Config, c: Client, ce: CallerEvent)
    ensures DoCaller(cfg, c, ce).loop == c.loop
  {
  }

  lemma LoopMoves(c: Client, le: LoopEvent, err: Option<Err>)
    requires LoopEnds(c.loop, err)
    ensures LoopEnds(DoLoop(c, le).loop,
                     if le.LoopTop? && c.loop.Top? && c.ctxDone then Some(ErrClosed)
                     else if le.ReadFails? && c.loop.Reading? then Some(le.err) else err)
  {
  }

  lemma {:induction false} LoopEndsRun(cfg: Config, es: seq<Event>)
    ensures LoopEnds(After(cfg, es).loop, LoopError(cfg, es))
  {
    if es != [] {
      LoopEndsRun(cfg, es[..|es| - 1]);
      LoopEndsStep(cfg, After(cfg, es[..|es| - 1]), es[|es| - 1], LoopError(cfg, es[..|es| - 1]));
    }
  }

  // ---------------------------------------------------------------- oversized messages

  /** The loop closes the stream of the message in its hands instead of delivering it exactly if it is too long. */
  predicate Sorted(loop: Loop) { loop.Holding? ==> (loop.stage.Poison? <==> |loop.m.frame.payload| > 0x40_0000) }

  /** No message that is too long has been queued. */
  ghost predicate Bounded(c: Client) {
    forall k, m | 0 <= k < |c.entries| && m in c.entries[k].deposited :: |m.frame.payload| <= 0x40_0000
  }

  lemma SortedStep(cfg: Config, c: Client, e: Event)
    requires Openings(c) && Sorted(c.loop) && Bounded(c)
    ensures Sorted(Apply(cfg, c, e).loop) && Bounded(Apply(cfg, c, e))
  {
    match e
    case Caller(ce) =>
      CallerKeepsLoop(cfg, c, ce);
      CallerEffects(cfg, c, ce);
      BoundedCaller(c, DoCaller(cfg, c, ce));
    case Receive(le) => SortedLoop(c, le);
    case Consume(k, ev) => ConsumerEffects(cfg, c, k, ev); BoundedConsume(c, DoConsume(cfg, c, k, ev));
  }

  lemma BoundedCaller(c: Client, c': Client)
    requires CallerEffect(c, c') && Bounded(c)
    ensures Bounded(c')
  {
    forall k, m | 0 <= k < |c'.entries| && m in c'.entries[k].deposited ensures |m.frame.payload| <= 0x40_0000 {
      if k < |c.entries| { assert CallerKeeps(c.entries[k], c'.entries[k]); }
    }
  }

  lemma BoundedConsume(c: Client, c': Client)
    requires ConsumerEffect(c, c') && Bounded(c)
    ensures Bounded(c')
  {
    forall k, m | 0 <= k < |c'.entries| && m in c'.entries[k].deposited ensures |m.frame.payload| <= 0x40_0000 {
      assert ConsumerKeeps(c.entries[k], c'.entries[k]);
    }
  }

  lemma SortedLoop(c: Client, le: LoopEvent)
    requires Sorted(c.loop) && Bounded(c)
    ensures Sorted(DoLoop(c, le).loop) && Bounded(DoLoop(c, le))
  {
    if le.Deliver? { SortedDeliver(c, le.choice); }
    else if !le.Lookup? { QuietEffects(c, le); }
  }

  lemma SortedDeliver(c: Client, choice: Choice)
    requires Sorted(c.loop) && Bounded(c)
    ensures Sorted(DoDeliver(c, choice).loop) && Bounded(DoDeliver(c, choice))
  {
    if c.loop.Holding? && c.loop.k < |c.entries| {
      var (e, m) := (c.entries[c.loop.k], c.loop.m);
      AffectBounded(e, m, Decide(e.core, c.ctxDone, c.loop.stage, choice));
    }
  }

  lemma AffectBounded(e: Entry, m: Msg, effect: Effect)
    requires effect.Deposit? ==> |m.frame.payload| <= 0x40_0000
    requires forall d | d in e.deposited :: |d.frame.payload| <= 0x40_0000
    ensures forall d | d in Affect(e, m, effect).deposited :: |d.frame.payload| <= 0x40_0000
  {
  }

  /** Over every run a message that is too long closes its stream, and is never queued. */
  lemma {:induction false} SortedRun(cfg: Config, es: seq<Event>)
    ensures Sorted(After(cfg, es).loop) && Bounded(After(cfg, es))
  {
    if es != [] {
      SortedRun(cfg, es[..|es| - 1]);
      RunInv(cfg, es[..|es| - 1]);
      SortedStep(cfg, After(cfg, es[..|es| - 1]), es[|es| - 1]);
    }
  }

  // ---------------------------------------------------------------- why a stream is closed

  /** The error a step closes stream k with, if it does: that of an oversized message or a full queue, of a call
      that has deleted the stream, or of the cleanup. */
  function ClosesWith(c: Client, e: Event, k: nat, loopError: Option<Err>): Option<Err> {
    if k >= |c.entries| then None
    else
      match e
      case Caller(_) => None
      case Receive(Deliver(choice)) =>
        if !c.loop.Holding? || c.loop.k != k then None
        else if |c.loop.m.frame.payload| > 0x40_0000 then Some(ErrStatus(8))
        else if c.loop.stage.Wait? && choice.Default? then Some(ErrStreamFull) else None
      case Receive(CleanupOne(sid)) => if c.loop.Cleaning? && sid in c.table && c.table[sid] == k then loopError else None
      case Receive(_) => None
      case Consume(j, ev) => if j == k && ev.Finish? && c.entries[k].pc.Closing? then Some(ErrClosed) else None
  }

  /** The first error a stream has been closed with. */
  function ClosedWith(cfg: Config, es: seq<Event>, k: nat): Option<Err> {
    if es == [] then None
    else
      var before := es[..|es| - 1];
      var earlier := ClosedWith(cfg, before, k);
      if earlier.Some? then earlier else ClosesWith(After(cfg, before), es[|es| - 1], k, LoopError(cfg, before))
  }

  /** The state of a stream against what it should have been closed with. */
  predicate ClosedAs(c: Client, k: nat, err: Option<Err>) {
    if k < |c.entries| then c.entries[k].core.closed == err else err == None
  }

  lemma ClosedByLoop(cfg: Config, c: Client, le: LoopEvent, k: nat, err: Option<Err>, loopError: Option<Err>)
    requires Ids(c) && ClosedAs(c, k, err) && LoopEnds(c.loop, loopError) && Sorted(c.loop)
    ensures ClosedAs(DoLoop(c, le), k, if err.Some? then err else ClosesWith(c, Receive(le), k, loopError))
  {
    if le.Deliver? && c.loop.Holding? && c.loop.k < |c.entries| {
      AffectCloses(c.entries[c.loop.k].core, c.ctxDone, c.entries[c.loop.k], c.loop.m, c.loop.stage, le.choice);
    }
  }

  lemma AffectCloses(s: Inbox, ctxDone: bool, e: Entry, m: Msg, stage: Stage, choice: Choice)
    requires e.core == s
    ensures Affect(e, m, Decide(s, ctxDone, stage, choice)).core.closed ==
            if s.closed.Some? then s.closed
            else if stage.Poison? then Some(ErrStatus(8))
            else if stage.Wait? && choice.Default? then Some(ErrStreamFull) else None
  {
  }

  lemma ClosedByCaller(cfg: Config, c: Client, ce: CallerEvent, k: nat, err: Option<Err>)
    requires Openings(c) && ClosedAs(c, k, err)
    ensures ClosedAs(DoCaller(cfg, c, ce), k, err)
  {
    CallerEffects(cfg, c, ce);
    if k < |c.entries| { assert CallerKeeps(c.entries[k], DoCaller(cfg, c, ce).entries[k]); }
  }

  lemma ClosedByConsumer(cfg: Config, c: Client, j: nat, ev: ConsumerEvent, k: nat, err: Option<Err>, loopError: Option<Err>)
    requires ClosedAs(c, k, err)
    ensures ClosedAs(DoConsume(cfg, c, j, ev), k, if err.Some? then err else ClosesWith(c, Consume(j, ev), k, loopError))
  {
  }

  /** Over every run a stream's error is the first it was given: RESOURCE_EXHAUSTED for an oversized message,
      ErrStreamFull for a full queue, ErrClosed when a call has deleted it, and in the cleanup the error of the
      receive loop. */
  lemma {:induction false} ClosedForAReason(cfg: Config, es: seq<Event>, k: nat)
    ensures ClosedAs(After(cfg, es), k, ClosedWith(cfg, es, k))
  {
    if es != [] {
      var (before, e) := (es[..|es| - 1], es[|es| - 1]);
      ClosedForAReason(cfg, before, k);
      LoopEndsRun(cfg, before);
      SortedRun(cfg, before);
      RunInv(cfg, before);
      ClosedStep(cfg, After(cfg, before), e, k, ClosedWith(cfg, before, k), LoopError(cfg, before));
    }
  }

  lemma ClosedStep(cfg: Config, c: Client, e: Event, k: nat, err: Option<Err>, loopError: Option<Err>)
    requires Ids(c) && Openings(c) && ClosedAs(c, k, err) && LoopEnds(c.loop, loopError) && Sorted(c.loop)
    ensures ClosedAs(Apply(cfg, c, e), k, if err.Some? then err else ClosesWith(c, e, k, loopError))
  {
    match e
    case Caller(ce) => ClosedByCaller(cfg, c, ce, k, err);
    case Receive(le) => ClosedByLoop(cfg, c, le, k, err, loopError);
    case Consume(j, ev) => ClosedByConsumer(cfg, c, j, ev, k, err, loopError);
  }

  // ---------------------------------------------------------------- what calls return

  /** What the step makes a receive call of stream k return: io.EOF after the end of the stream, the error of its
      context or of a closed client, that of a closed stream with no message left, or what it makes of the
      message it has taken. */
  function Returns(cfg: Config, c: Client, e: Event, k: nat): seq<Outcome> {
    if !e.Consume? || e.k != k || k >= |c.entries| then []
    else
      var t := c.entries[k];
      match e.ev
      case RecvMsg => if t.pc.Idle? && t.opening.Opened? && t.kind.Streaming? && t.remoteClosed then [Eof] else []
      case CallerDone => if t.pc.Waiting? then [Failed(ErrContext)] else []
      case ClientDone => if t.pc.Waiting? && t.kind.Unary? && c.ctxDone then [Failed(ErrClosed)] else []
      case NothingPending =>
        if t.pc.SawClosed? && t.core.queue == [] && t.core.closed.Some? then [Failed(t.core.closed.value)] else []
      case Handle =>
        if !t.pc.Handling? || t.taken == [] then []
        else
          var f := t.taken[|t.taken| - 1].frame;
          [if t.kind.Unary? then UnaryOutcome(cfg, f) else StreamOutcome(cfg, t.kind, f)]
      case _ => []
  }

  function Returned(cfg: Config, es: seq<Event>, k: nat): seq<Outcome> {
    if es == [] then []
    else Returned(cfg, es[..|es| - 1], k) + Returns(cfg, After(cfg, es[..|es| - 1]), es[|es| - 1], k)
  }

  /** A call's outcome is among the results once it has deleted the stream, if it has to. */
  predicate ReturnsSo(c: Client, k: nat, rs: seq<Outcome>) {
    if k < |c.entries| then c.entries[k].results + CC.Pending(c.entries[k].pc) == rs else rs == []
  }

  lemma ConsumerReturns(cfg: Config, c: Client, j: nat, ev: ConsumerEvent, k: nat, rs: seq<Outcome>)
    requires ReturnsSo(c, k, rs)
    ensures ReturnsSo(DoConsume(cfg, c, j, ev), k, rs + Returns(cfg, c, Consume(j, ev), k))
  {
    if k < |c.entries| && j == k && ConsumerCan(c.entries[k], ev, c.ctxDone, c.StreamLocked()) {
      StepReturns(cfg, c, ev, k, rs);
    } else {
      assert rs + [] == rs;
    }
  }

  lemma StepReturns(cfg: Config, c: Client, ev: ConsumerEvent, k: nat, rs: seq<Outcome>)
    requires k < |c.entries| && ReturnsSo(c, k, rs) && ConsumerCan(c.entries[k], ev, c.ctxDone, c.StreamLocked())
    ensures var e' := ConsumerStep(cfg, c.entries[k], ev, c.ctxDone, c.StreamLocked());
            e'.results + CC.Pending(e'.pc) == rs + Returns(cfg, c, Consume(k, ev), k)
  {
    var e := c.entries[k];
    assert e.results + [] == e.results && rs + [] == rs;
    if ev.Handle? && e.kind.Streaming? { OutcomeIsJudged(cfg, e.kind, LastTaken(e).frame); }
  }

  lemma OthersReturnNothing(cfg: Config, c: Client, e: Event, k: nat, rs: seq<Outcome>)
    requires Openings(c) && ReturnsSo(c, k, rs) && !e.Consume?
    ensures ReturnsSo(Apply(cfg, c, e), k, rs)
  {
    match e
    case Caller(ce) =>
      CallerEffects(cfg, c, ce);
      if k < |c.entries| { assert CallerKeeps(c.entries[k], DoCaller(cfg, c, ce).entries[k]); }
    case Receive(le) =>
      if le.Lookup? { LookupKeeps(c); }
      else if le.Deliver? { DeliverKeeps(c, le.choice); }
      else { QuietEffects(c, le); }
  }

  /** Over every run what the receive calls of a stream have returned, followed by what one of them is about to
      return, is in order exactly what its steps say. */
  lemma {:induction false} CallsReturn(cfg: Config, es: seq<Event>, k: nat)
    ensures ReturnsSo(After(cfg, es), k, Returned(cfg, es, k))
  {
    if es != [] {
      var (before, e) := (es[..|es| - 1], es[|es| - 1]);
      CallsReturn(cfg, before, k);
      RunInv(cfg, before);
      var (c, rs) := (After(cfg, before), Returned(cfg, before, k));
      if e.Consume? { ConsumerReturns(cfg, c, e.k, e.ev, k, rs); }
      else { OthersReturnNothing(cfg, c, e, k, rs); assert rs + [] == rs; }
    }
  }

  // ---------------------------------------------------------------- how a client ends

  lemma {:induction false} AfterOne(cfg: Config, es: seq<Event>, e: Event)
    ensures After(cfg, es + [e]) == Apply(cfg, After(cfg, es), e)
  {
    assert (es + [e])[..|es|] == es;
  }

  /** The step closes the client: a call of Close, or the receive loop's own. */
  predicate Closes(c: Client, e: Event) { e == Caller(UserClose) || (e == Receive(CloseConn) && c.loop.Exiting?) }

  function EverClosed(cfg: Config, es: seq<Event>): bool {
    es != [] && (EverClosed(cfg, es[..|es| - 1]) || Closes(After(cfg, es[..|es| - 1]), es[|es| - 1]))
  }

  lemma OnlyClosesClose(cfg: Config, c: Client, e: Event)
    ensures Apply(cfg, c, e).ctxDone == (c.ctxDone || Closes(c, e))
  {
    match e
    case Caller(ce) =>
    case Receive(le) => if !le.Lookup? && !le.Deliver? { LoopCloses(c, le); }
    case Consume(k, ev) => ConsumerEffects(cfg, c, k, ev);
  }

  lemma LoopCloses(c: Client, le: LoopEvent)
    ensures DoLoop(c, le).ctxDone == (c.ctxDone || (le.CloseConn? && c.loop.Exiting?))
  {
  }

  lemma {:induction false} ClosedWhenTold(cfg: Config, es: seq<Event>)
    ensures After(cfg, es).ctxDone == EverClosed(cfg, es)
  {
    if es != [] {
      ClosedWhenTold(cfg, es[..|es| - 1]);
      OnlyClosesClose(cfg, After(cfg, es[..|es| - 1]), es[|es| - 1]);
    }
  }

  /** Once the client is closed its receive loop, at its top, ends with ErrClosed; a createStream that has not
      passed its second check gives up, and no new one gets the lock. */
  lemma {:induction false} ClosedClientStops(cfg: Config, es: seq<Event>, kind: Kind, req: Req)
    requires After(cfg, es).ctxDone
    ensures After(cfg, es).loop.Top? ==> After(cfg, es + [Receive(LoopTop)]).loop == Exiting(ErrClosed)
    ensures After(cfg, es).sender.Held? && !After(cfg, es).StreamLocked() ==> After(cfg, es + [Caller(CheckClosed)]).sender.Free?
    ensures After(cfg, es + [Caller(BeginCreate(kind, req))]) == After(cfg, es)
  {
    AfterOne(cfg, es, Receive(LoopTop));
    AfterOne(cfg, es, Caller(CheckClosed));
    AfterOne(cfg, es, Caller(BeginCreate(kind, req)));
  }

  /** A receive loop that has ended closes the client and, while nobody holds the lock of the map, begins the
      cleanup with its error. */
  lemma {:induction false} LoopCleansUp(cfg: Config, es: seq<Event>)
    ensures var (c, c') := (After(cfg, es), After(cfg, es + [Receive(CloseConn)]));
            c.loop.Exiting? ==> c'.loop == ConnClosed(c.loop.err) && c'.ctxDone
    ensures var (c, c') := (After(cfg, es), After(cfg, es + [Receive(CleanupBegin)]));
            c.loop.ConnClosed? && !c.StreamLocked() ==> c'.loop == Cleaning(c.loop.err)
  {
    AfterOne(cfg, es, Receive(CloseConn));
    AfterOne(cfg, es, Receive(CleanupBegin));
  }

  /** The cleanup takes one stream after another out of the map, and ends when it is empty. */
  lemma {:induction false} CleanupProceeds(cfg: Config, es: seq<Event>, sid: uint32)
    requires After(cfg, es).loop.Cleaning?
    ensures var (c, c') := (After(cfg, es), After(cfg, es + [Receive(CleanupOne(sid))]));
            sid in c.table ==> c'.table == c.table - {sid} && c'.loop == c.loop
    ensures After(cfg, es).table == map[] ==> After(cfg, es + [Receive(CleanupEnd)]).loop.Cleaned?
  {
    IdsAfter(cfg, es);
    AfterOne(cfg, es, Receive(CleanupOne(sid)));
    AfterOne(cfg, es, Receive(CleanupEnd));
    if sid in After(cfg, es).table { OneLess(After(cfg, es), sid); }
  }

  lemma {:induction false} IdsAfter(cfg: Config, es: seq<Event>)
    ensures Ids(After(cfg, es))
  {
    RunInv(cfg, es);
  }

  lemma OneLess(c: Client, sid: uint32)
    requires Ids(c) && c.loop.Cleaning? && sid in c.table
    ensures DoCleanupOne(c, sid).table == c.table - {sid} && DoCleanupOne(c, sid).loop == c.loop
  {
  }

  /** A waiting receive call returns as soon as its context ends, and a unary one when the client is closed, whatever
      is queued; and a call on an open stream can always be made. */
  lemma {:induction false} CallsAreFree(cfg: Config, es: seq<Event>, k: nat)
    requires k < |After(cfg, es).entries|
    ensures var e := After(cfg, es).entries[k];
            e.pc.Waiting? ==> Returned(cfg, es + [Consume(k, CallerDone)], k) == Returned(cfg, es, k) + [Failed(ErrContext)]
    ensures var e := After(cfg, es).entries[k];
            e.pc.Waiting? && e.kind.Unary? && After(cfg, es).ctxDone ==>
              Returned(cfg, es + [Consume(k, ClientDone)], k) == Returned(cfg, es, k) + [Failed(ErrClosed)]
    ensures var e := After(cfg, es).entries[k];
            e.pc.Idle? && e.opening.Opened? && e.kind.Streaming? && !e.remoteClosed ==>
              k < |After(cfg, es + [Consume(k, RecvMsg)]).entries| && After(cfg, es + [Consume(k, RecvMsg)]).entries[k].pc.Waiting?
  {
    assert (es + [Consume(k, CallerDone)])[..|es|] == es && (es + [Consume(k, ClientDone)])[..|es|] == es;
    AfterOne(cfg, es, Consume(k, RecvMsg));
  }
}
