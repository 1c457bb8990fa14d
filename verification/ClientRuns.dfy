/** The client engine's properties over every run, against an arbitrary peer. */
module ClientRuns {
  import opened Types
  import opened Framing
  import opened StreamQueue
  import opened ClientEngine
  import opened ClientTable
  import opened ClientDelivery
  import opened ClientBuffers
  import opened ClientCalls
  import opened ClientSends

  ghost predicate Inv(cfg: Config, c: Client) {
    && Ids(c) && Openings(c) && Unstranded(c) && Shut(c)
    && NoGap(c) && Queues(c) && Waits(c) && Arrivals(c) && InHandIsLast(c)
    && Buffers(c) && Calls(cfg, c) && Sends(cfg, c)
  }

  lemma InitInv(cfg: Config)
    ensures Inv(cfg, Init())
  {
  }

  lemma CallerInv(cfg: Config, c: Client, ce: CallerEvent)
    requires Inv(cfg, c)
    ensures Inv(cfg, DoCaller(cfg, c, ce))
  {
    var c' := DoCaller(cfg, c, ce);
    CallerEffects(cfg, c, ce);
    IdsCaller(cfg, c, ce);
    OpeningsCaller(cfg, c, ce);
    UnstrandedCaller(cfg, c, ce);
    ShutCaller(cfg, c, ce);
    NoGapCaller(c, c');
    QueuesCaller(c, c');
    WaitsCaller(cfg, c, ce);
    ArrivalsCaller(c, c');
    InHandIsLastCaller(c, c');
    BuffersCaller(c, c');
    CallsCaller(cfg, c, c');
    SendsCaller(cfg, c, ce);
  }

  lemma LookupKeeps(c: Client)
    ensures var c' := DoLookup(c);
            && |c'.entries| == |c.entries| && c'.w == c.w && c'.sender == c.sender
            && forall j | 0 <= j < |c.entries| :: LoopKeeps(c.entries[j], c'.entries[j])
  {
  }

  lemma AffectKeeps(e: Entry, m: Msg, effect: Effect)
    ensures LoopKeeps(e, Affect(e, m, effect))
  {
  }

  lemma DeliverKeeps(c: Client, choice: Choice)
    ensures var c' := DoDeliver(c, choice);
            && |c'.entries| == |c.entries| && c'.w == c.w && c'.sender == c.sender
            && forall j | 0 <= j < |c.entries| :: LoopKeeps(c.entries[j], c'.entries[j])
  {
    if c.loop.Holding? && c.loop.k < |c.entries| {
      var s := c.entries[c.loop.k].core;
      AffectKeeps(c.entries[c.loop.k], c.loop.m, Decide(s, c.ctxDone, c.loop.stage, choice));
    }
  }

  lemma LoopBasics(c: Client, le: LoopEvent)
    requires Ids(c) && Openings(c) && Unstranded(c) && Shut(c) && Waits(c)
    ensures var c' := DoLoop(c, le); Ids(c') && Openings(c') && Unstranded(c') && Shut(c') && Waits(c')
  {
    IdsLoop(c, le);
    OpeningsLoop(c, le);
    UnstrandedLoop(c, le);
    ShutLoop(c, le);
    WaitsLoop(c, le);
  }

  lemma LookupInv(cfg: Config, c: Client)
    requires Inv(cfg, c)
    ensures Inv(cfg, DoLookup(c))
  {
    assert DoLoop(c, Lookup) == DoLookup(c);
    LoopBasics(c, Lookup);
    LookupKeeps(c);
    if c.loop.Read? { NoGapLookup(c); }
    QueuesLookup(c);
    ArrivalsLookup(c);
    InHandIsLastLookup(c);
    BuffersLookup(c);
    CallsLoop(cfg, c, DoLookup(c));
    SendsKept(cfg, c, DoLookup(c));
  }

  lemma DeliverInv(cfg: Config, c: Client, choice: Choice)
    requires Inv(cfg, c)
    ensures Inv(cfg, DoDeliver(c, choice))
  {
    assert DoLoop(c, Deliver(choice)) == DoDeliver(c, choice);
    LoopBasics(c, Deliver(choice));
    DeliverKeeps(c, choice);
    NoGapDeliver(c, choice);
    QueuesDeliver(c, choice);
    ArrivalsDeliver(c, choice);
    InHandIsLastDeliver(c, choice);
    BuffersDeliver(c, choice);
    CallsLoop(cfg, c, DoDeliver(c, choice));
    SendsKept(cfg, c, DoDeliver(c, choice));
  }

  lemma QuietInv(cfg: Config, c: Client, c': Client)
    requires Inv(cfg, c) && QuietEffect(c, c') && !c.loop.Read? && !c.loop.Holding?
    ensures NoGap(c') && Queues(c') && Arrivals(c') && InHandIsLast(c') && Buffers(c') && Calls(cfg, c') && Sends(cfg, c')
  {
    NoGapQuiet(c, c');
    QueuesQuiet(c, c');
    ArrivalsQuiet(c, c');
    InHandIsLastQuiet(c, c');
    BuffersQuiet(c, c');
    forall j | 0 <= j < |c.entries| ensures LoopKeeps(c.entries[j], c'.entries[j]) {
    }
    CallsLoop(cfg, c, c');
    SendsKept(cfg, c, c');
  }

  lemma LoopInv(cfg: Config, c: Client, le: LoopEvent)
    requires Inv(cfg, c)
    ensures Inv(cfg, DoLoop(c, le))
  {
    if le.Lookup? {
      LookupInv(cfg, c);
    } else if le.Deliver? {
      DeliverInv(cfg, c, le.choice);
    } else if DoLoop(c, le) != c {
      LoopBasics(c, le);
      QuietEffects(c, le);
      QuietInv(cfg, c, DoLoop(c, le));
    }
  }

  lemma ConsumeInv(cfg: Config, c: Client, k: nat, ev: ConsumerEvent)
    requires Inv(cfg, c)
    ensures Inv(cfg, DoConsume(cfg, c, k, ev))
  {
    var c' := DoConsume(cfg, c, k, ev);
    ConsumerEffects(cfg, c, k, ev);
    IdsConsume(cfg, c, k, ev);
    OpeningsConsume(cfg, c, k, ev);
    UnstrandedConsume(cfg, c, k, ev);
    ShutConsume(cfg, c, k, ev);
    NoGapConsume(c, c');
    QueuesConsume(cfg, c, k, ev);
    WaitsConsume(cfg, c, k, ev);
    ArrivalsConsume(c, c');
    InHandIsLastConsume(c, c');
    BuffersConsume(cfg, c, k, ev);
    CallsConsume(cfg, c, k, ev);
    SendsKept(cfg, c, c');
  }

  lemma StepInv(cfg: Config, c: Client, e: Event)
    requires Inv(cfg, c)
    ensures Inv(cfg, Apply(cfg, c, e))
  {
    match e
    case Caller(ce) => CallerInv(cfg, c, ce);
    case Receive(le) => LoopInv(cfg, c, le);
    case Consume(k, ev) => ConsumeInv(cfg, c, k, ev);
  }

  lemma {:induction false} RunInv(cfg: Config, es: seq<Event>)
    ensures Inv(cfg, After(cfg, es))
  {
    if es == [] {
      InitInv(cfg);
    } else {
      RunInv(cfg, es[..|es| - 1]);
      StepInv(cfg, After(cfg, es[..|es| - 1]), es[|es| - 1]);
    }
  }

  // ---------------------------------------------------------------- what every run guarantees

  /** No id is handed out twice exactly as long as at most 2^31 streams are created. */
  lemma IdsUniqueIff(n: nat)
    ensures (forall j, k | 0 <= j < k < n :: IdOf(j) != IdOf(k)) <==> n <= 0x8000_0000
    ensures forall k: nat :: IdOf(k) == 2 * k + 1 <==> k < 0x8000_0000
  {
    if n > 0x8000_0000 {
      assert IdOf(0) == IdOf(0x8000_0000);
    }
  }

  /** The k-th stream created gets id 2k+1, and requests reach the wire in the order of their ids. */
  lemma {:induction false} RequestOrder(cfg: Config, es: seq<Event>)
    ensures var c := After(cfg, es);
            && (forall k | 0 <= k < |c.entries| :: c.entries[k].core.id == IdOf(k))
            && (Small(c) ==> RequestsIncrease(c.w.frames) && forall f | f in c.w.frames :: f.sid % 2 == 1)
  {
    RunInv(cfg, es);
  }

  /** Per stream, the wire carries a prefix of the exchange its kind allows. */
  lemma {:induction false} StreamLanguage(cfg: Config, es: seq<Event>, k: nat)
    requires Small(After(cfg, es)) && k < |After(cfg, es).entries|
    ensures var c := After(cfg, es);
            Conforms(cfg, c.entries[k], FramesFor(c.w.frames, IdOf(k)))
  {
    RunInv(cfg, es);
    var c := After(cfg, es);
    assert SentOk(cfg, c.entries[k], FramesFor(c.w.frames, IdOf(k)), c.w.broken);
  }

  lemma NoGapState(cfg: Config, c: Client, k: nat)
    requires NoGap(c) && Queues(c) && Arrivals(c) && Ids(c) && Small(c) && k < |c.entries|
    ensures var e := c.entries[k];
            && e.regAt <= |c.seen|
            && e.taken + e.core.queue <= For(c.seen[e.regAt..], IdOf(k))
            && (!e.gap ==> For(c.seen[e.regAt..], IdOf(k)) == e.taken + e.core.queue + InHand(c, k))
            && |e.core.queue| <= e.core.cap
  {
    assert NoGapAt(c, k) && QueueAt(c, k) && ArrivedAt(c, k);
  }

  /** What a stream's consumer took, followed by what is queued for it, is a prefix of what was read
      for that stream; and all of it, but for the message the loop still holds, until one is dropped. */
  lemma {:induction false} NoGapDelivery(cfg: Config, es: seq<Event>, k: nat)
    requires Small(After(cfg, es)) && k < |After(cfg, es).entries|
    ensures var c := After(cfg, es);
            var e := c.entries[k];
            && e.regAt <= |c.seen|
            && e.taken + e.core.queue <= For(c.seen[e.regAt..], IdOf(k))
            && (!e.gap ==> For(c.seen[e.regAt..], IdOf(k)) == e.taken + e.core.queue + InHand(c, k))
            && |e.core.queue| <= e.core.cap
  {
    RunInv(cfg, es);
    NoGapState(cfg, After(cfg, es), k);
  }

  lemma DeliverAfterGap(c: Client, choice: Choice, k: nat)
    requires k < |c.entries| && NoGapAt(c, k) && c.entries[k].gap
    ensures k < |DoDeliver(c, choice).entries|
    ensures DoDeliver(c, choice).entries[k].gap
    ensures DoDeliver(c, choice).entries[k].deposited == c.entries[k].deposited
  {
  }

  lemma GapKept(c: Client, c': Client, k: nat)
    requires k < |c.entries| && c.entries[k].gap
    requires CallerEffect(c, c') || QuietEffect(c, c') || ConsumerEffect(c, c')
    ensures k < |c'.entries| && c'.entries[k].gap && c'.entries[k].deposited == c.entries[k].deposited
  {
    assert CallerEffect(c, c') ==> CallerKeeps(c.entries[k], c'.entries[k]);
  }

  lemma GapLoop(c: Client, le: LoopEvent, k: nat)
    requires NoGap(c) && Small(c) && k < |c.entries| && c.entries[k].gap
    ensures var c' := DoLoop(c, le);
            k < |c'.entries| && c'.entries[k].gap && c'.entries[k].deposited == c.entries[k].deposited
  {
    if le.Deliver? {
      assert NoGapAt(c, k);
      DeliverAfterGap(c, le.choice, k);
    } else if le.Lookup? {
      LookupKeepsDeposits(c, k);
    } else if DoLoop(c, le) != c {
      QuietEffects(c, le);
      GapKept(c, DoLoop(c, le), k);
    }
  }

  lemma LookupKeepsDeposits(c: Client, k: nat)
    requires k < |c.entries|
    ensures var c' := DoLookup(c);
            && k < |c'.entries| && c'.entries[k].deposited == c.entries[k].deposited
            && (c.entries[k].gap ==> c'.entries[k].gap)
  {
  }

  lemma GapStep(cfg: Config, c: Client, e: Event, k: nat)
    requires Openings(c) && NoGap(c) && Small(c) && k < |c.entries| && c.entries[k].gap
    ensures var c' := Apply(cfg, c, e);
            k < |c'.entries| && c'.entries[k].gap && c'.entries[k].deposited == c.entries[k].deposited
  {
    match e
    case Caller(ce) =>
      CallerEffects(cfg, c, ce);
      GapKept(c, DoCaller(cfg, c, ce), k);
    case Receive(le) => GapLoop(c, le, k);
    case Consume(j, ev) =>
      ConsumerEffects(cfg, c, j, ev);
      GapKept(c, DoConsume(cfg, c, j, ev), k);
  }

  lemma {:induction false} AfterMore(cfg: Config, es: seq<Event>, more: seq<Event>)
    requires more != []
    ensures var n := |more| - 1;
            After(cfg, es + more) == Apply(cfg, After(cfg, es + more[..n]), more[n])
  {
    assert (es + more)[..|es + more| - 1] == es + more[..|more| - 1];
  }

  lemma EntriesGrow(cfg: Config, c: Client, e: Event)
    requires Openings(c)
    ensures |c.entries| <= |Apply(cfg, c, e).entries|
  {
    match e
    case Caller(ce) => CallerEffects(cfg, c, ce);
    case Receive(le) =>
    case Consume(j, ev) => ConsumerEffects(cfg, c, j, ev);
  }

  lemma WritesMore(cfg: Config, c: Client, e: Event)
    requires c.w.Valid()
    ensures c.w.frames <= Apply(cfg, c, e).w.frames
  {
    match e
    case Caller(ce) => CallerWritesMore(cfg, c, ce);
    case Receive(le) => LoopWritesNothing(c, le);
    case Consume(k, ev) => ConsumerEffects(cfg, c, k, ev);
  }

  lemma LoopWritesNothing(c: Client, le: LoopEvent)
    ensures DoLoop(c, le).w == c.w
  {
  }

  lemma CallerWritesMore(cfg: Config, c: Client, ce: CallerEvent)
    requires c.w.Valid()
    ensures c.w.frames <= DoCaller(cfg, c, ce).w.frames
  {
    match ce
    case BeginCreate(_, _) =>
    case CheckClosed =>
    case Register =>
    case SendRequest(fate) =>
      if c.sender.Registered? && c.sender.k < |c.entries| {
        SendKeepsWriter(c.w, RequestFrame(cfg, c.entries[c.sender.k]), fate);
      }
    case SendMsg(k, payload, fate) =>
      if CanSend(c, k) { SendKeepsWriter(c.w, Frame(c.entries[k].core.id, DATA, 0, payload), fate); }
    case CloseSend(k, fate) =>
      if CanSend(c, k) { SendKeepsWriter(c.w, CloseFrame(c.entries[k].core.id), fate); }
    case UserClose =>
  }

  /** What has been sent stays sent, in any continuation. */
  lemma {:induction false} FramesGrow(cfg: Config, es: seq<Event>, more: seq<Event>)
    ensures After(cfg, es).w.frames <= After(cfg, es + more).w.frames
    ensures |After(cfg, es).entries| <= |After(cfg, es + more).entries|
    decreases |more|
  {
    if more == [] {
      assert es + more == es;
    } else {
      var n := |more| - 1;
      AfterMore(cfg, es, more);
      FramesGrow(cfg, es, more[..n]);
      RunInv(cfg, es + more[..n]);
      WritesMore(cfg, After(cfg, es + more[..n]), more[n]);
      EntriesGrow(cfg, After(cfg, es + more[..n]), more[n]);
    }
  }

  /** Once a stream has been closed for sending, by its closing frame or by the request of a client that does not
      stream, nothing is ever sent on it again. */
  lemma {:induction false} ClosedForSending(cfg: Config, es: seq<Event>, more: seq<Event>, k: nat, i: nat)
    requires Small(After(cfg, es + more)) && k < |After(cfg, es).entries|
    requires var fs := FramesFor(After(cfg, es).w.frames, IdOf(k)); i < |fs| && HasRemoteClosed(fs[i].flags)
    ensures i == |FramesFor(After(cfg, es).w.frames, IdOf(k))| - 1
    ensures FramesFor(After(cfg, es + more).w.frames, IdOf(k)) == FramesFor(After(cfg, es).w.frames, IdOf(k))
  {
    var (c, c') := (After(cfg, es), After(cfg, es + more));
    FramesGrow(cfg, es, more);
    FramesForPrefix(c.w.frames, c'.w.frames, IdOf(k));
    StreamLanguage(cfg, es + more, k);
    ClosingIsLast(cfg, c'.entries[k], FramesFor(c'.w.frames, IdOf(k)), i);
  }

  /** Once one message for a stream has been dropped, nothing is ever put in its queue again. */
  lemma {:induction false} DropIsFinal(cfg: Config, es: seq<Event>, more: seq<Event>, k: nat)
    requires Small(After(cfg, es + more))
    requires k < |After(cfg, es).entries| && After(cfg, es).entries[k].gap
    ensures k < |After(cfg, es + more).entries|
    ensures After(cfg, es + more).entries[k].deposited == After(cfg, es).entries[k].deposited
    ensures After(cfg, es + more).entries[k].gap
    decreases |more|
  {
    if more == [] {
      assert es + more == es;
    } else {
      var n := |more| - 1;
      AfterMore(cfg, es, more);
      RunInv(cfg, es + more[..n]);
      EntriesGrow(cfg, After(cfg, es + more[..n]), more[n]);
      DropIsFinal(cfg, es, more[..n], k);
      GapStep(cfg, After(cfg, es + more[..n]), more[n], k);
    }
  }

  /** The steps that act on stream j's queue or close it: the delivery of a message under its id, its own receive
      calls, and its turn in the cleanup. */
  predicate Touches(c: Client, e: Event, j: nat) {
    match e
    case Caller(_) => false
    case Receive(le) =>
      || (le.Deliver? && c.loop.Holding? && c.loop.m.frame.sid == IdOf(j))
      || (le.CleanupOne? && le.sid == IdOf(j))
    case Consume(k, _) => k == j
  }

  predicate Untouched(cfg: Config, es: seq<Event>, more: seq<Event>, j: nat) {
    more == [] ||
    (var n := |more| - 1; Untouched(cfg, es, more[..n], j) && !Touches(After(cfg, es + more[..n]), more[n], j))
  }

  lemma UntouchedLoop(c: Client, le: LoopEvent, j: nat)
    requires Ids(c) && j < |c.entries| && !Touches(c, Receive(le), j)
    ensures j < |DoLoop(c, le).entries| && DoLoop(c, le).entries[j].core == c.entries[j].core
  {
  }

  lemma UntouchedStep(cfg: Config, c: Client, e: Event, j: nat)
    requires Ids(c) && Openings(c) && j < |c.entries| && !Touches(c, e, j)
    ensures j < |Apply(cfg, c, e).entries| && Apply(cfg, c, e).entries[j].core == c.entries[j].core
  {
    match e
    case Caller(ce) =>
      CallerEffects(cfg, c, ce);
      assert CallerKeeps(c.entries[j], DoCaller(cfg, c, ce).entries[j]);
    case Receive(le) => UntouchedLoop(c, le, j);
    case Consume(k, ev) =>
  }

  /** Whatever happens to other streams, full queues, drops, timeouts and closes included, in any continuation:
      and whatever arrives under other ids, a stream's queue and close state stay as they are until a step acts
      on that very stream. */
  lemma {:induction false} Isolation(cfg: Config, es: seq<Event>, more: seq<Event>, j: nat)
    requires j < |After(cfg, es).entries| && Untouched(cfg, es, more, j)
    ensures j < |After(cfg, es + more).entries|
    ensures After(cfg, es + more).entries[j].core == After(cfg, es).entries[j].core
    decreases |more|
  {
    if more == [] {
      assert es + more == es;
    } else {
      var n := |more| - 1;
      AfterMore(cfg, es, more);
      Isolation(cfg, es, more[..n], j);
      RunInv(cfg, es + more[..n]);
      UntouchedStep(cfg, After(cfg, es + more[..n]), more[n], j);
    }
  }

  /** Each stream can make the receive loop wait out at most one timeout. */
  lemma {:induction false} TimeoutsBounded(cfg: Config, es: seq<Event>)
    ensures var c := After(cfg, es);
            && (forall e | e in c.entries :: e.expired <= 1)
            && c.waits == Expired(c.entries)
            && c.waits <= |c.entries|
  {
    RunInv(cfg, es);
    var c := After(cfg, es);
    forall e | e in c.entries ensures e.expired <= 1 {
      var k :| 0 <= k < |c.entries| && c.entries[k] == e;
      assert QueueAt(c, k);
    }
    ExpiredBound(c.entries);
  }

  /** Every stream is in the map, or closed with an error, or about to be closed by the call that took
      it out of the map; after the cleanup the map is empty. */
  lemma {:induction false} NobodyLost(cfg: Config, es: seq<Event>, k: nat)
    requires Small(After(cfg, es)) && k < |After(cfg, es).entries|
    ensures var c := After(cfg, es);
            && (InTable(c, k) || c.entries[k].core.closed.Some? || c.entries[k].pc.Closing?)
            && (c.loop.Cleaned? ==> c.table == map[] && c.ctxDone)
  {
    RunInv(cfg, es);
    assert Reachable(After(cfg, es), k);
  }

  lemma CleanedStep(cfg: Config, c: Client, e: Event)
    requires Shut(c) && c.loop.Cleaned?
    ensures Apply(cfg, c, e).loop.Cleaned? && Apply(cfg, c, e).table == map[]
  {
    match e
    case Caller(ce) => ShutCaller(cfg, c, ce);
    case Receive(le) =>
    case Consume(k, ev) => ShutConsume(cfg, c, k, ev);
  }

  /** Nothing is ever added to the map after the cleanup, whatever the callers do. */
  lemma {:induction false} CleanedForever(cfg: Config, es: seq<Event>, more: seq<Event>)
    requires After(cfg, es).loop.Cleaned?
    ensures After(cfg, es + more).loop.Cleaned? && After(cfg, es + more).table == map[]
    decreases |more|
  {
    if more == [] {
      assert es + more == es;
      RunInv(cfg, es);
    } else {
      var n := |more| - 1;
      AfterMore(cfg, es, more);
      CleanedForever(cfg, es, more[..n]);
      RunInv(cfg, es + more[..n]);
      CleanedStep(cfg, After(cfg, es + more[..n]), more[n]);
    }
  }

  /** How many steps of its own a receive call has left at most. */
  function StepsLeft(pc: Consumer): nat {
    match pc
    case Waiting => 5
    case SawClosed => 4
    case Handling => 3
    case Unlinking(_) => 2
    case Closing(_) => 1
    case Idle => 0
    case Returned => 0
  }

  /** The step a call takes once its stream has been closed. */
  function NextStep(e: Entry): ConsumerEvent {
    match e.pc
    case Waiting => NoticeClosed
    case SawClosed => if e.core.queue != [] then Take else NothingPending
    case Handling => Handle
    case Unlinking(_) => Unlink
    case Closing(_) => Finish
    case Idle => RecvMsg
    case Returned => RecvMsg
  }

  /** After the cleanup every call still running, on whatever stream, has a step it can take, and each
      such step brings it closer to returning. */
  lemma {:induction false} WaitersExit(cfg: Config, es: seq<Event>, k: nat)
    requires After(cfg, es).loop.Cleaned? && Small(After(cfg, es)) && k < |After(cfg, es).entries|
    requires StepsLeft(After(cfg, es).entries[k].pc) > 0
    ensures var c := After(cfg, es);
            var e := c.entries[k];
            && ConsumerCan(e, NextStep(e), c.ctxDone, c.StreamLocked())
            && StepsLeft(DoConsume(cfg, c, k, NextStep(e)).entries[k].pc) < StepsLeft(e.pc)
  {
    RunInv(cfg, es);
    var c := After(cfg, es);
    var e := c.entries[k];
    assert Reachable(c, k);
    assert CallOk(cfg, e);
    CanStep(cfg, e, c.ctxDone);
  }

  lemma CanStep(cfg: Config, e: Entry, ctxDone: bool)
    requires (e.pc.Handling? ==> e.taken != []) && StepsLeft(e.pc) > 0 && (e.pc.Closing? || e.core.closed.Some?)
    ensures ConsumerCan(e, NextStep(e), ctxDone, false)
    ensures StepsLeft(ConsumerStep(cfg, e, NextStep(e), ctxDone, false).pc) < StepsLeft(e.pc)
  {
  }

  /** Buffers: none is put back twice, and none whose message is still held anywhere. */
  lemma {:induction false} BufferDiscipline(cfg: Config, es: seq<Event>)
    requires Small(After(cfg, es))
    ensures var c := After(cfg, es);
            && !c.doublePut
            && (c.loop.Holding? || c.loop.Read? ==> c.loop.m.tok !in c.puts)
            && forall e | e in c.entries :: HeldBy(e, c.puts)
  {
    RunInv(cfg, es);
  }

  /** How many RecvMsg calls on stream k the events contain. */
  function RecvCalls(es: seq<Event>, k: nat): nat {
    if es == [] then 0 else RecvCalls(es[..|es| - 1], k) + (if es[|es| - 1] == Consume(k, RecvMsg) then 1 else 0)
  }

  function Eofs(n: nat): seq<Outcome> { seq(n, _ => Eof) }

  /** Once a receive call has returned io.EOF or the final response, every further call returns io.EOF at
      once, for ever, whatever else happens on the connection. */
  lemma {:induction false} EofForever(cfg: Config, es: seq<Event>, more: seq<Event>, k: nat)
    requires k < |After(cfg, es).entries| && After(cfg, es).entries[k].kind.Streaming?
    requires After(cfg, es).entries[k].remoteClosed
    ensures var (c, c') := (After(cfg, es), After(cfg, es + more));
            && k < |c'.entries| && c'.entries[k].remoteClosed && c'.entries[k].kind.Streaming?
            && c'.entries[k].results == c.entries[k].results + Eofs(RecvCalls(more, k))
    decreases |more|
  {
    if more == [] {
      assert es + more == es;
      assert After(cfg, es).entries[k].results + Eofs(0) == After(cfg, es).entries[k].results;
    } else {
      var n := |more| - 1;
      var mid := After(cfg, es + more[..n]);
      AfterMore(cfg, es, more);
      EofForever(cfg, es, more[..n], k);
      RunInv(cfg, es + more[..n]);
      assert CallOk(cfg, mid.entries[k]);
      ClosedCallStep(cfg, mid, more[n], k);
      OneMoreEof(After(cfg, es).entries[k].results, RecvCalls(more[..n], k));
    }
  }

  lemma OneMoreEof(rs: seq<Outcome>, n: nat)
    ensures rs + Eofs(n) + [Eof] == rs + Eofs(n + 1)
  {
  }

  lemma ClosedCallStep(cfg: Config, c: Client, e: Event, k: nat)
    requires Openings(c) && k < |c.entries| && c.entries[k].kind.Streaming? && c.entries[k].remoteClosed
    requires c.entries[k].pc.Idle? && c.entries[k].opening.Opened?
    ensures var c' := Apply(cfg, c, e);
            && k < |c'.entries| && c'.entries[k].remoteClosed && c'.entries[k].kind.Streaming?
            && c'.entries[k].results ==
               (if e == Consume(k, RecvMsg) then c.entries[k].results + [Eof] else c.entries[k].results)
  {
    match e
    case Caller(ce) =>
      CallerEffects(cfg, c, ce);
      assert CallerKeeps(c.entries[k], DoCaller(cfg, c, ce).entries[k]);
    case Receive(le) =>
      if le.Lookup? { LookupKeeps(c); }
      else if le.Deliver? { DeliverKeeps(c, le.choice); }
      else { QuietEffects(c, le); }
    case Consume(j, ev) =>
  }
}
