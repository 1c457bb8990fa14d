/** The turns of the response loop: what its look at the counter decides, and the only ways out of it. */
module ServerLoop {
  import opened Types
  import opened Framing
  import opened ServerEngine
  import opened ServerTasks
  import opened ServerLedger
  import opened ServerRuns
  import opened ServerProperties

  /** The value of `active` that the loop last looked at; nothing counts as active before it first looks. */
  function LookedAt(cfg: Config, es: seq<Event>): int {
    if es == [] then 0
    else
      var s := After(cfg, es[..|es| - 1]);
      if es[|es| - 1] == Respond(Look) && s.main.Looping? then s.ledger.active else LookedAt(cfg, es[..|es| - 1])
  }

  /** Whether the read that failed did so at the end of the connection. */
  function FailedAtEof(cfg: Config, es: seq<Event>): Option<bool> {
    if es == [] then None
    else
      var (before, e) := (es[..|es| - 1], es[|es| - 1]);
      if e.Recv? && e.re.ReadFails? && After(cfg, before).receiver.Reading? then Some(e.re.eof) else FailedAtEof(cfg, before)
  }

  /** The loop's published state, and the branch it leaves open for the shutdown signal, are those of its look. */
  predicate AsLooked(s: Server, active: int) {
    && s.state == (if active > 0 then Active else Inactive)
    && (s.main.Selecting? ==> (s.main.busy <==> active > 0))
  }

  /** A failed read is put on recvErr, where it stays until the loop takes it; nothing else is. */
  predicate AsFailed(s: Server, eof: Option<bool>) {
    && (s.receiver.Failing? ==> eof == Some(s.receiver.eof) && s.err.puts == 0)
    && (eof.Some? && !s.receiver.Failing? ==> s.err.puts == 1 && (s.err.taken || s.err.buf == [eof.value]))
    && (s.err.buf != [] ==> eof == Some(s.err.buf[0]))
  }

  lemma ReceiverKeepsState(cfg: Config, s: Server, re: ReceiverEvent)
    ensures var s' := DoReceiver(cfg, s, re); s'.state == s.state && s'.main == s.main && s.ledger.active <= s'.ledger.active
  {
    if re.Dispatch? { DispatchKeeps(cfg, s, re.budget); }
  }

  lemma MainLooks(cfg: Config, s: Server, me: MainEvent, active: int)
    requires AsLooked(s, active)
    ensures AsLooked(DoMain(cfg, s, me), if me.Look? && s.main.Looping? then s.ledger.active else active)
  {
  }

  lemma {:induction false} LoopLooks(cfg: Config, es: seq<Event>)
    ensures AsLooked(After(cfg, es), LookedAt(cfg, es))
  {
    if es != [] {
      var (before, e) := (es[..|es| - 1], es[|es| - 1]);
      LoopLooks(cfg, before);
      var s := After(cfg, before);
      match e
      case Recv(re) => ReceiverKeepsState(cfg, s, re);
      case Method(h, te) => TaskKeepsState(cfg, s, h, te);
      case Respond(me) => MainLooks(cfg, s, me, LookedAt(cfg, before));
      case CloseServerConn =>
    }
  }

  lemma TaskKeepsState(cfg: Config, s: Server, h: nat, te: TaskEvent)
    ensures var s' := DoTask(cfg, s, h, te); s'.state == s.state && s'.main == s.main && s'.err == s.err && s'.receiver == s.receiver
  {
  }

  // ---------------------------------------------------------------- recvErr

  lemma ReceiverFails(cfg: Config, s: Server, re: ReceiverEvent, eof: Option<bool>)
    requires AsFailed(s, eof) && ErrOk(s)
    ensures AsFailed(DoReceiver(cfg, s, re), if re.ReadFails? && s.receiver.Reading? then Some(re.eof) else eof)
  {
    if re.Dispatch? { DispatchKeeps(cfg, s, re.budget); }
  }

  lemma MainFails(cfg: Config, s: Server, me: MainEvent, eof: Option<bool>)
    requires AsFailed(s, eof) && ErrOk(s)
    ensures AsFailed(DoMain(cfg, s, me), eof)
  {
  }

  lemma FailsStep(cfg: Config, s: Server, e: Event, eof: Option<bool>)
    requires AsFailed(s, eof) && ErrOk(s)
    ensures AsFailed(Apply(cfg, s, e), if e.Recv? && e.re.ReadFails? && s.receiver.Reading? then Some(e.re.eof) else eof)
  {
    match e
    case Recv(re) => ReceiverFails(cfg, s, re, eof);
    case Method(h, te) => TaskKeepsState(cfg, s, h, te);
    case Respond(me) => MainFails(cfg, s, me, eof);
    case CloseServerConn =>
  }

  lemma {:induction false} ErrIsFailure(cfg: Config, es: seq<Event>)
    ensures AsFailed(After(cfg, es), FailedAtEof(cfg, es))
  {
    if es != [] {
      var before := es[..|es| - 1];
      ErrIsFailure(cfg, before);
      RunInv(cfg, before);
      FailsStep(cfg, After(cfg, before), es[|es| - 1], FailedAtEof(cfg, before));
    }
  }

  // ---------------------------------------------------------------- the ways out

  /** The write of the response in the loop's hands fails: it is too long, an earlier one has failed, or the
      connection does not take it. */
  predicate WriteFails(cfg: Config, s: Server, fate: Fate)
    requires s.main.Have?
  {
    var n := |FrameOf(cfg, s.main.o).payload|;
    n > MAX_LENGTH || s.w.broken || fate.accept < HEADER_LENGTH + n || fate.fail
  }

  /** The step is one of the ways out: a response that cannot be written or encoded, the end of the connection
      taken from recvErr, and the shutdown signal, for which the loop listens only if it last looked at a counter
      that was not positive. */
  predicate WayOut(cfg: Config, s: Server, lookedAt: int, eof: Option<bool>, e: Event) {
    && e.Respond?
    && match e.me
       case Write(fate) => s.main.Have? && WriteFails(cfg, s, fate)
       case MarshalFails => s.main.Have? && FrameOf(cfg, s.main.o).typ == RESPONSE
       case TakeErr => s.main.Selecting? && !s.err.taken && s.err.buf != [] && eof == Some(true)
       case SeeShutdown => s.main.Selecting? && s.shutdown && lookedAt <= 0
       case _ => false
  }

  lemma MainLeaves(cfg: Config, s: Server, lookedAt: int, eof: Option<bool>, me: MainEvent)
    requires AsLooked(s, lookedAt) && AsFailed(s, eof) && InLoop(s.main)
    ensures !InLoop(DoMain(cfg, s, me).main) <==> WayOut(cfg, s, lookedAt, eof, Respond(me))
  {
  }

  /** In every reachable state the loop is left by exactly these steps. So a turn that began with a positive
      counter ends it only if a response cannot be written or encoded, or the connection has ended. */
  lemma {:induction false} LoopLeaves(cfg: Config, es: seq<Event>, e: Event)
    requires InLoop(After(cfg, es).main)
    ensures !InLoop(After(cfg, es + [e]).main) <==> WayOut(cfg, After(cfg, es), LookedAt(cfg, es), FailedAtEof(cfg, es), e)
    ensures After(cfg, es).state == if LookedAt(cfg, es) > 0 then Active else Inactive
  {
    AfterSnoc(cfg, es, e);
    LoopLooks(cfg, es);
    ErrIsFailure(cfg, es);
    var s := After(cfg, es);
    match e
    case Recv(re) => ReceiverKeepsState(cfg, s, re);
    case Method(h, te) => TaskKeepsState(cfg, s, h, te);
    case Respond(me) => MainLeaves(cfg, s, LookedAt(cfg, es), FailedAtEof(cfg, es), me);
    case CloseServerConn =>
  }

  /** Once the receiver has failed, or stopped without an error, the loop is told: the end of the connection makes it
      leave, and anything else makes it look at the counter again. */
  lemma {:induction false} ErrReachesLoop(cfg: Config, es: seq<Event>)
    requires After(cfg, es).main.Selecting? && !After(cfg, es).err.taken
    requires After(cfg, es).receiver.Stopped? || (FailedAtEof(cfg, es).Some? && !After(cfg, es).receiver.Failing?)
    ensures var s' := After(cfg, es + [Respond(TakeErr)]);
            s'.err.taken && s'.main == if FailedAtEof(cfg, es) == Some(true) then Left else Looping
  {
    RunInv(cfg, es);
    ErrIsFailure(cfg, es);
    AfterSnoc(cfg, es, Respond(TakeErr));
    TellsLoop(cfg, After(cfg, es), FailedAtEof(cfg, es));
  }

  lemma TellsLoop(cfg: Config, s: Server, eof: Option<bool>)
    requires ErrOk(s) && AsFailed(s, eof) && s.main.Selecting? && !s.err.taken
    requires s.receiver.Stopped? || (eof.Some? && !s.receiver.Failing?)
    ensures var s' := DoMain(cfg, s, TakeErr); s'.err.taken && s'.main == if eof == Some(true) then Left else Looping
  {
  }

  // ---------------------------------------------------------------- the end of the receiver

  /** Whether the connection has been told to shut down. */
  lemma {:induction false} ToldToShutDown(cfg: Config, es: seq<Event>)
    ensures After(cfg, es).shutdown <==> CloseServerConn in es
  {
    if es != [] {
      var (before, e) := (es[..|es| - 1], es[|es| - 1]);
      assert es == before + [e];
      ToldToShutDown(cfg, before);
      OnlySignalShuts(cfg, After(cfg, before), e);
    }
  }

  lemma OnlySignalShuts(cfg: Config, s: Server, e: Event)
    ensures Apply(cfg, s, e).shutdown == (s.shutdown || e == CloseServerConn)
  {
    if e.Recv? && e.re.Dispatch? { DispatchKeeps(cfg, s, e.re.budget); }
  }

  /** Not in the middle of a message. */
  predicate BetweenMessages(r: Receiver) {
    r.Top? || r.Reading? || r.SendingStatus? || r.Failing? || r.Exiting? || r.Stopped?
  }

  /** The receiver's own last steps, of which those that do not apply do nothing. */
  function LastSteps(eof: bool): seq<Event> {
    [Recv(Loop)] + [Recv(ReadFails(eof))] + [Recv(AbortStatus)] + [Recv(PutErr)] + [Recv(CloseErr)]
  }

  lemma LastStepsStop(cfg: Config, s: Server, eof: bool)
      returns (s1: Server, s2: Server, s3: Server, s4: Server, s5: Server)
    requires ErrOk(s) && s.main.Ended? && BetweenMessages(s.receiver)
    ensures s1 == Apply(cfg, s, Recv(Loop)) && s2 == Apply(cfg, s1, Recv(ReadFails(eof))) && s3 == Apply(cfg, s2, Recv(AbortStatus))
    ensures s4 == Apply(cfg, s3, Recv(PutErr)) && s5 == Apply(cfg, s4, Recv(CloseErr))
    ensures s5.receiver.Stopped? && s5.err.closed
  {
    s1 := DoLoop(s);
    s2 := DoReadFails(s1, eof);
    s3 := DoReceiver(cfg, s2, AbortStatus);
    s4 := DoReceiver(cfg, s3, PutErr);
    s5 := DoReceiver(cfg, s4, CloseErr);
  }

  /** Once the loop has ended, a receiver between messages stops by its own steps, whose read may fail as it
      likes. */
  lemma {:induction false} ReceiverStops(cfg: Config, es: seq<Event>, eof: bool)
    requires After(cfg, es).main.Ended? && BetweenMessages(After(cfg, es).receiver)
    ensures After(cfg, es + LastSteps(eof)).receiver.Stopped? && After(cfg, es + LastSteps(eof)).err.closed
  {
    RunInv(cfg, es);
    var s1, s2, s3, s4, s5 := LastStepsStop(cfg, After(cfg, es), eof);
    var es1 := es + [Recv(Loop)];
    var es2 := es1 + [Recv(ReadFails(eof))];
    var es3 := es2 + [Recv(AbortStatus)];
    var es4 := es3 + [Recv(PutErr)];
    assert es + LastSteps(eof) == es4 + [Recv(CloseErr)];
    AfterSnoc(cfg, es, Recv(Loop));
    AfterSnoc(cfg, es1, Recv(ReadFails(eof)));
    AfterSnoc(cfg, es2, Recv(AbortStatus));
    AfterSnoc(cfg, es3, Recv(PutErr));
    AfterSnoc(cfg, es4, Recv(CloseErr));
  }

  /** A loop that has left ends, and then a method blocked on a response gives it up. */
  lemma {:induction false} LoopAndMethodsStop(cfg: Config, es: seq<Event>, h: nat)
    ensures After(cfg, es).main.Left? ==> After(cfg, es + [Respond(End)]).main.Ended?
    ensures After(cfg, es).main.Ended? && h < |After(cfg, es).tasks| && After(cfg, es).tasks[h].pc.Sending? ==>
              After(cfg, es + [Method(h, AbortSend)]).tasks[h].pc.Running?
    ensures After(cfg, es).main.Ended? && h < |After(cfg, es).tasks| && After(cfg, es).tasks[h].pc.Final? ==>
              After(cfg, es + [Method(h, AbortFinal)]).tasks[h].pc.Gone?
  {
    AfterSnoc(cfg, es, Respond(End));
    AfterSnoc(cfg, es, Method(h, AbortSend));
    AfterSnoc(cfg, es, Method(h, AbortFinal));
  }

  // ---------------------------------------------------------------- a busy connection

  /** About to look at a positive counter, or having looked at one, with the counter still positive. */
  predicate Busy(s: Server) { s.ledger.active > 0 && (s.main.Looping? || s.main == Selecting(true)) }

  lemma BusyStep(cfg: Config, s: Server, e: Event)
    requires Busy(s) && (e.Respond? ==> e.me.Look?)
    ensures Busy(Apply(cfg, s, e))
  {
    match e
    case Recv(re) => ReceiverKeepsState(cfg, s, re);
    case Method(h, te) => TaskKeepsRest(cfg, s, h, te);
    case Respond(me) =>
    case CloseServerConn =>
  }

  /** While streams are active the shutdown signal does not end the connection: whatever else happens after the
      loop is at its top with a positive counter, it looks and stays. */
  lemma {:induction false} BusyStays(cfg: Config, es: seq<Event>, more: seq<Event>)
    requires After(cfg, es).main.Looping? && After(cfg, es).ledger.active > 0
    requires forall e | e in more :: e.Respond? ==> e.me.Look?
    ensures Busy(After(cfg, es + more)) && InLoop(After(cfg, es + more + [Respond(SeeShutdown)]).main)
    decreases |more|
  {
    if more == [] {
      assert es + more == es;
    } else {
      var n := |more| - 1;
      AfterMore(cfg, es, more);
      BusyStays(cfg, es, more[..n]);
      BusyStep(cfg, After(cfg, es + more[..n]), more[n]);
    }
    AfterSnoc(cfg, es + more, Respond(SeeShutdown));
  }
}
