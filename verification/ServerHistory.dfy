/** What the methods said against what reached the wire. The record is kept from the events of the run: the
    responses of each method's SendMsg calls and of its end, written out, and the responses the loop took. */
module ServerHistory {
  import opened Types
  import opened Framing
  import opened StreamQueue
  import opened ServerEngine
  import opened ServerTasks
  import opened ServerIo
  import opened ServerWire
  import opened ServerLedger
  import opened ServerRuns

  // ---------------------------------------------------------------- what a method says

  /** One more event: a call of SendMsg or the end of the method says something, and a call that gives up takes
      back what it said last. */
  function SaidNow(cfg: Config, s: Server, said: seq<Out>, e: Event, h: nat): seq<Out> {
    if !e.Method? || e.h != h || h >= |s.tasks| || !TaskCan(cfg, s.tasks[h], e.te, s.main.Ended?) then said
    else
      var t := s.tasks[h];
      match e.te
      case SendMsg(data) => said + [Out(t.id, 0, data, false, true)]
      case Finish(code, data) => said + [Out(t.id, code, data, true, t.kind.Streaming? && t.kind.server)]
      case AbortSend => if said == [] then said else said[..|said| - 1]
      case AbortFinal => if said == [] then said else said[..|said| - 1]
      case _ => said
  }

  function Said(cfg: Config, es: seq<Event>, h: nat): seq<Out> {
    if es == [] then []
    else SaidNow(cfg, After(cfg, es[..|es| - 1]), Said(cfg, es[..|es| - 1], h), es[|es| - 1], h)
  }

  /** What a method is blocked on. */
  function Blocked(pc: TaskPc): seq<Out> { if pc.Sending? || pc.Final? then [pc.o] else [] }

  predicate SaysSo(t: Task, said: seq<Out>) { said == t.handed + Blocked(t.pc) }

  /** Everything said has been handed over, but for what the method is blocked on. */
  ghost predicate Speaks(s: Server, said: seq<Out>, h: nat) {
    if h < |s.tasks| then SaysSo(s.tasks[h], said) else said == []
  }

  /** A step in which nobody says or hands over anything. */
  ghost predicate Silent(s: Server, s': Server) {
    && |s.tasks| <= |s'.tasks|
    && (forall h | 0 <= h < |s.tasks| :: s'.tasks[h].handed == s.tasks[h].handed && s'.tasks[h].pc == s.tasks[h].pc)
    && (forall h | |s.tasks| <= h < |s'.tasks| :: s'.tasks[h].handed == [] && s'.tasks[h].pc.Running?)
  }

  lemma SilentKept(s: Server, s': Server, said: seq<Out>, h: nat)
    requires Speaks(s, said, h) && Silent(s, s')
    ensures Speaks(s', said, h)
  {
  }

  lemma AffectSilent(t: Task, item: Item, v: Verdict)
    ensures Affect(t, item, v).handed == t.handed && Affect(t, item, v).pc == t.pc
  {
  }

  lemma RequestSilent(cfg: Config, s: Server, m: Msg, budget: nat)
    ensures Silent(s, DispatchRequest(cfg, s, m, budget))
  {
    RequestEffects(cfg, s, m, budget);
    var s' := DispatchRequest(cfg, s, m, budget);
    if |s'.tasks| != |s.tasks| {
      forall h | 0 <= h < |s.tasks| ensures s'.tasks[h] == s.tasks[h] {}
    }
  }

  lemma DispatchSilent(cfg: Config, s: Server, budget: nat)
    requires s.receiver.Got?
    ensures Silent(s, DoDispatch(cfg, s, budget))
  {
    var m := s.receiver.m;
    DispatchCases(cfg, s, budget);
    if !Unacceptable(m) && m.frame.typ == DATA { DataEffects(Noted(s), m); }
    else if !Unacceptable(m) && m.frame.typ == REQUEST { RequestSilent(cfg, Noted(s), m, budget); }
  }

  lemma FinishDataSilent(s: Server)
    ensures Silent(s, DoFinishData(s))
  {
  }

  lemma ReceiverSilent(cfg: Config, s: Server, re: ReceiverEvent)
    ensures Silent(s, DoReceiver(cfg, s, re))
  {
    if re.Dispatch? { if s.receiver.Got? { DispatchSilent(cfg, s, re.budget); } }
    else if re.Offer? {
      if s.receiver.Offering? && s.receiver.h < |s.tasks| {
        AffectSilent(s.tasks[s.receiver.h], s.receiver.item, Decide(s.tasks[s.receiver.h], s.receiver.stage, re.choice));
      }
    }
    else if re.FinishData? { FinishDataSilent(s); }
    else { ReceiverKept(cfg, s, re); }
  }

  lemma MainSilent(cfg: Config, s: Server, me: MainEvent)
    requires !me.TakeFrom? && s.w.Valid()
    ensures Silent(s, DoMain(cfg, s, me))
  {
    if me.Write? { if s.main.Have? { WriteEffects(cfg, s, me.fate); WriteSilent(cfg, s, DoWrite(cfg, s, me.fate)); } }
    else { MainKeepsTasks(cfg, s, me); }
  }

  lemma WriteSilent(cfg: Config, s: Server, s': Server)
    requires s.main.Have? && WriteEffect(cfg, s, s')
    ensures Silent(s, s')
  {
  }

  lemma StepSays(cfg: Config, t: Task, said: seq<Out>, te: TaskEvent, done: bool)
    requires TaskCan(cfg, t, te, done) && SaysSo(t, said)
    ensures SaysSo(TaskStep(cfg, t, te, done),
                   match te
                   case SendMsg(data) => said + [Out(t.id, 0, data, false, true)]
                   case Finish(code, data) => said + [Out(t.id, code, data, true, t.kind.Streaming? && t.kind.server)]
                   case AbortSend => if said == [] then said else said[..|said| - 1]
                   case AbortFinal => if said == [] then said else said[..|said| - 1]
                   case _ => said)
  {
    match te
    case SendMsg(_) => assert t.handed + [] == t.handed;
    case Finish(_, _) => assert t.handed + [] == t.handed;
    case AbortSend => assert (t.handed + [t.pc.o])[..|t.handed|] == t.handed && t.handed + [] == t.handed;
    case AbortFinal => assert (t.handed + [t.pc.o])[..|t.handed|] == t.handed && t.handed + [] == t.handed;
    case _ =>
  }

  lemma TaskSays(cfg: Config, s: Server, said: seq<Out>, j: nat, te: TaskEvent, h: nat)
    requires Speaks(s, said, h)
    ensures Speaks(DoTask(cfg, s, j, te), SaidNow(cfg, s, said, Method(j, te), h), h)
  {
    if j == h && h < |s.tasks| && TaskCan(cfg, s.tasks[h], te, s.main.Ended?) { StepSays(cfg, s.tasks[h], said, te, s.main.Ended?); }
  }

  lemma TakeFromSays(s: Server, said: seq<Out>, j: nat, h: nat)
    requires Speaks(s, said, h)
    ensures Speaks(DoTakeFrom(s, j), said, h)
  {
    if h < |s.tasks| {
      var t := s.tasks[h];
      assert t.handed + Blocked(t.pc) + [] == t.handed + Blocked(t.pc);
    }
  }

  lemma SaysStep(cfg: Config, s: Server, said: seq<Out>, e: Event, h: nat)
    requires Speaks(s, said, h) && s.w.Valid()
    ensures Speaks(Apply(cfg, s, e), SaidNow(cfg, s, said, e, h), h)
  {
    match e
    case Recv(re) => ReceiverSilent(cfg, s, re); SilentKept(s, DoReceiver(cfg, s, re), said, h);
    case Method(j, te) => TaskSays(cfg, s, said, j, te, h);
    case Respond(me) =>
      if me.TakeFrom? { TakeFromSays(s, said, me.h, h); }
      else { MainSilent(cfg, s, me); SilentKept(s, DoMain(cfg, s, me), said, h); }
    case CloseServerConn =>
  }

  /** Over every run what a method has handed over, followed by what it is blocked on, is in order exactly what
      its SendMsg calls and its end have said and not given up, with their objects and codes. */
  lemma {:induction false} HandedIsSaid(cfg: Config, es: seq<Event>, h: nat)
    ensures Speaks(After(cfg, es), Said(cfg, es, h), h)
  {
    if es != [] {
      var before := es[..|es| - 1];
      HandedIsSaid(cfg, before, h);
      RunInv(cfg, before);
      SaysStep(cfg, After(cfg, before), Said(cfg, before, h), es[|es| - 1], h);
    }
  }

  // ---------------------------------------------------------------- whose context has ended

  /** The method's context has ended while it ran. */
  function Cancelled(cfg: Config, es: seq<Event>, h: nat): bool {
    es != [] && (Cancelled(cfg, es[..|es| - 1], h) || (es[|es| - 1] == Method(h, Cancel) && h < |After(cfg, es[..|es| - 1]).tasks|))
  }

  predicate CancelledSo(s: Server, h: nat, cancelled: bool) {
    if h < |s.tasks| then s.tasks[h].ctxDone == cancelled else !cancelled
  }

  ghost predicate ContextsKept(s: Server, s': Server) {
    && |s.tasks| <= |s'.tasks|
    && (forall h | 0 <= h < |s.tasks| :: s'.tasks[h].ctxDone == s.tasks[h].ctxDone)
    && (forall h | |s.tasks| <= h < |s'.tasks| :: !s'.tasks[h].ctxDone)
  }

  lemma ReceiverKeepsContexts(cfg: Config, s: Server, re: ReceiverEvent)
    ensures ContextsKept(s, DoReceiver(cfg, s, re))
  {
    if re.Dispatch? { if s.receiver.Got? { DispatchKeepsContexts(cfg, s, re.budget); } }
    else if re.Offer? {
      if s.receiver.Offering? && s.receiver.h < |s.tasks| {
        AffectKeepsContext(s.tasks[s.receiver.h], s.receiver.item, Decide(s.tasks[s.receiver.h], s.receiver.stage, re.choice));
      }
    }
    else if !re.FinishData? { ReceiverKept(cfg, s, re); }
  }

  lemma AffectKeepsContext(t: Task, item: Item, v: Verdict)
    ensures Affect(t, item, v).ctxDone == t.ctxDone
  {
  }

  lemma DispatchKeepsContexts(cfg: Config, s: Server, budget: nat)
    requires s.receiver.Got?
    ensures ContextsKept(s, DoDispatch(cfg, s, budget))
  {
    var m := s.receiver.m;
    DispatchCases(cfg, s, budget);
    if !Unacceptable(m) && m.frame.typ == DATA { DataEffects(Noted(s), m); }
  }

  lemma MainKeepsContexts(cfg: Config, s: Server, me: MainEvent)
    requires s.w.Valid()
    ensures ContextsKept(s, DoMain(cfg, s, me))
  {
    if me.Write? { if s.main.Have? { WriteEffects(cfg, s, me.fate); } }
    else if !me.TakeFrom? { MainKeepsTasks(cfg, s, me); }
  }

  lemma TaskCancels(cfg: Config, s: Server, j: nat, te: TaskEvent, h: nat, cancelled: bool)
    requires CancelledSo(s, h, cancelled)
    ensures CancelledSo(DoTask(cfg, s, j, te), h, cancelled || (j == h && te.Cancel? && h < |s.tasks|))
  {
    if j < |s.tasks| && TaskCan(cfg, s.tasks[j], te, s.main.Ended?) { StepCancels(cfg, s.tasks[j], te, s.main.Ended?); }
  }

  lemma StepCancels(cfg: Config, t: Task, te: TaskEvent, done: bool)
    requires TaskCan(cfg, t, te, done)
    ensures TaskStep(cfg, t, te, done).ctxDone == (t.ctxDone || te.Cancel?)
  {
    match te
    case RecvMsg =>
    case SendMsg(_) =>
    case AbortSend =>
    case Finish(_, _) =>
    case AbortFinal =>
    case Cancel =>
  }

  lemma CancelStep(cfg: Config, s: Server, e: Event, h: nat, cancelled: bool)
    requires s.w.Valid() && CancelledSo(s, h, cancelled)
    ensures CancelledSo(Apply(cfg, s, e), h, cancelled || (e == Method(h, Cancel) && h < |s.tasks|))
  {
    match e
    case Recv(re) => ReceiverKeepsContexts(cfg, s, re);
    case Method(j, te) => TaskCancels(cfg, s, j, te, h, cancelled);
    case Respond(me) => MainKeepsContexts(cfg, s, me);
    case CloseServerConn =>
  }

  /** A method's context has ended exactly if it was ended: no failed data() and no closing frame does it. */
  lemma {:induction false} ContextsEnd(cfg: Config, es: seq<Event>, h: nat)
    ensures CancelledSo(After(cfg, es), h, Cancelled(cfg, es, h))
  {
    if es != [] {
      var before := es[..|es| - 1];
      ContextsEnd(cfg, before, h);
      RunInv(cfg, before);
      CancelStep(cfg, After(cfg, before), es[|es| - 1], h, Cancelled(cfg, before, h));
    }
  }

  // ---------------------------------------------------------------- what the response loop takes

  /** The responses the loop has taken, from the receiver and from the methods. */
  function TakenNow(s: Server, e: Event): seq<Out> {
    if !e.Respond? || !s.main.Selecting? then []
    else if e.me.TakeStatus? && s.receiver.SendingStatus? then [s.receiver.o]
    else if e.me.TakeFrom? && e.me.h < |s.tasks| then Blocked(s.tasks[e.me.h].pc)
    else []
  }

  function Taken(cfg: Config, es: seq<Event>): seq<Out> {
    if es == [] then []
    else Taken(cfg, es[..|es| - 1]) + TakenNow(After(cfg, es[..|es| - 1]), es[|es| - 1])
  }

  /** What the loop has taken is on the wire, but for what it holds; once it has left, but for one at most. */
  ghost predicate Answered(cfg: Config, s: Server, taken: seq<Out>) {
    if s.main.Have? then taken != [] && taken[|taken| - 1] == s.main.o && s.w.frames == FramesOf(cfg, taken[..|taken| - 1])
    else if InLoop(s.main) then s.w.frames == FramesOf(cfg, taken)
    else s.w.frames <= FramesOf(cfg, taken) && |taken| <= |s.w.frames| + 1
  }

  lemma AnsweredWrite(cfg: Config, s: Server, fate: Fate, taken: seq<Out>)
    requires Answered(cfg, s, taken) && s.w.Valid()
    ensures Answered(cfg, DoWrite(cfg, s, fate), taken)
  {
    if s.main.Have? {
      var n := |taken| - 1;
      WriteEffects(cfg, s, fate);
      FramesOfSnoc(cfg, taken[..n], taken[n]);
      assert taken == taken[..n] + [taken[n]];
    }
  }

  lemma AnsweredMain(cfg: Config, s: Server, me: MainEvent, taken: seq<Out>)
    requires Answered(cfg, s, taken) && s.w.Valid()
    ensures Answered(cfg, DoMain(cfg, s, me), taken + TakenNow(s, Respond(me)))
  {
    assert taken + [] == taken;
    if me.Write? { AnsweredWrite(cfg, s, me.fate, taken); }
    else if TakenNow(s, Respond(me)) != [] {
      var o := TakenNow(s, Respond(me))[0];
      assert (taken + [o])[..|taken|] == taken;
    } else {
      AnsweredOther(cfg, s, me, taken);
    }
  }

  lemma AnsweredOther(cfg: Config, s: Server, me: MainEvent, taken: seq<Out>)
    requires Answered(cfg, s, taken) && !me.Write? && TakenNow(s, Respond(me)) == []
    ensures Answered(cfg, DoMain(cfg, s, me), taken)
  {
    if me.MarshalFails? && s.main.Have? {
      var n := |taken| - 1;
      FramesOfSnoc(cfg, taken[..n], taken[n]);
      assert taken == taken[..n] + [taken[n]];
    }
  }

  lemma AnsweredRest(cfg: Config, s: Server, e: Event, taken: seq<Out>)
    requires Answered(cfg, s, taken) && !e.Respond?
    ensures Answered(cfg, Apply(cfg, s, e), taken)
  {
    match e
    case Recv(re) => if re.Dispatch? { DispatchKeeps(cfg, s, re.budget); }
    case Method(h, te) => TaskKeepsRest(cfg, s, h, te);
    case CloseServerConn =>
  }

  /** Over every run the frames on the wire are those of the responses the loop took, in order, each once and
      none left out, until it leaves; then at most the last one is missing. */
  lemma {:induction false} WireIsTaken(cfg: Config, es: seq<Event>)
    ensures Answered(cfg, After(cfg, es), Taken(cfg, es))
  {
    if es != [] {
      var (before, e) := (es[..|es| - 1], es[|es| - 1]);
      WireIsTaken(cfg, before);
      RunInv(cfg, before);
      if e.Respond? { AnsweredMain(cfg, After(cfg, before), e.me, Taken(cfg, before)); }
      else {
        AnsweredRest(cfg, After(cfg, before), e, Taken(cfg, before));
        assert Taken(cfg, es) == Taken(cfg, before);
      }
    }
  }
}
