/** The server connection's properties over every run, against an arbitrary client. */
module ServerRuns {
  import opened Types
  import opened StreamQueue
  import opened ServerEngine
  import opened ServerTasks
  import opened ServerIo
  import opened ServerWire
  import opened ServerLedger
  import opened ServerInputs
  import opened ServerBuffers
  import opened ServerEnds

  ghost predicate Inv(cfg: Config, s: Server) {
    && Tasks(cfg, s) && Io(cfg, s) && Pipeline(s)
    && Statuses(s) && Wire(cfg, s)
    && ErrOk(s) && Closes(s) && Counts(s)
    && Inputs(s) && BuffersOk(s)
    && Answers(s.statusIds, s.received) && Ends(s)
  }

  lemma InitInv(cfg: Config)
    ensures Inv(cfg, Init())
  {
  }

  // ---------------------------------------------------------------- the pipeline

  ghost predicate NothingHanded(s: Server, s': Server) {
    && s'.main == s.main && |s.tasks| <= |s'.tasks|
    && (forall h | 0 <= h < |s.tasks| :: s'.tasks[h].handed == s.tasks[h].handed && s'.tasks[h].outs == s.tasks[h].outs)
    && (forall h | |s.tasks| <= h < |s'.tasks| :: s'.tasks[h].handed == [] && s'.tasks[h].outs == [])
  }

  lemma PipelineKept(s: Server, s': Server)
    requires Pipeline(s) && NothingHanded(s, s')
    ensures Pipeline(s')
  {
  }

  lemma OfferHandsNothing(s: Server, choice: Choice)
    ensures NothingHanded(s, DoOffer(s, choice))
  {
    if s.receiver.Offering? && s.receiver.h < |s.tasks| {
      var t := s.tasks[s.receiver.h];
      AffectHandsNothing(t, s.receiver.item, Decide(t, s.receiver.stage, choice));
    }
  }

  lemma AffectHandsNothing(t: Task, item: Item, v: Verdict)
    ensures Affect(t, item, v).handed == t.handed && Affect(t, item, v).outs == t.outs
  {
  }

  lemma FinishDataHandsNothing(s: Server)
    ensures NothingHanded(s, DoFinishData(s))
  {
  }

  lemma DispatchHandsNothing(cfg: Config, s: Server, budget: nat)
    ensures NothingHanded(s, DoDispatch(cfg, s, budget))
  {
    if s.receiver.Got? {
      var m := s.receiver.m;
      DispatchCases(cfg, s, budget);
      if !Unacceptable(m) && m.frame.typ == DATA {
        DataEffects(Noted(s), m);
        DataHandsNothing(Noted(s), DoDispatch(cfg, s, budget), m);
      } else if !Unacceptable(m) && m.frame.typ == REQUEST {
        RequestEffects(cfg, Noted(s), m, budget);
        RequestHandsNothing(cfg, Noted(s), DoDispatch(cfg, s, budget), m);
      }
    }
  }

  lemma DataHandsNothing(s: Server, s': Server, m: Msg)
    requires DataEffect(s, s', m)
    ensures NothingHanded(s, s')
  {
  }

  lemma RequestHandsNothing(cfg: Config, s: Server, s': Server, m: Msg)
    requires RequestEffect(cfg, s, s', m)
    ensures NothingHanded(s, s')
  {
    if |s'.tasks| != |s.tasks| {
      forall h | 0 <= h < |s.tasks| ensures s'.tasks[h] == s.tasks[h] {}
    }
  }

  lemma PipelineReceiver(cfg: Config, s: Server, re: ReceiverEvent)
    requires Pipeline(s)
    ensures Pipeline(DoReceiver(cfg, s, re))
  {
    if re.Dispatch? { DispatchHandsNothing(cfg, s, re.budget); }
    else if re.Offer? { OfferHandsNothing(s, re.choice); }
    else if re.FinishData? { FinishDataHandsNothing(s); }
    else { ReceiverKept(cfg, s, re); }
    PipelineKept(s, DoReceiver(cfg, s, re));
  }

  lemma PipelineTask(cfg: Config, s: Server, h: nat, te: TaskEvent)
    requires Pipeline(s)
    ensures Pipeline(DoTask(cfg, s, h, te))
  {
    if h < |s.tasks| && TaskCan(cfg, s.tasks[h], te, s.main.Ended?) {
      TaskStepSame(cfg, s.tasks[h], te, s.main.Ended?);
      PipelineKept(s, DoTask(cfg, s, h, te));
    }
  }

  lemma PipelineMainOther(cfg: Config, s: Server, me: MainEvent)
    requires Pipeline(s) && !me.TakeFrom? && !me.Write?
    ensures Pipeline(DoMain(cfg, s, me))
  {
    MainKeepsTasks(cfg, s, me);
  }

  // ---------------------------------------------------------------- the induction

  lemma ReceiverInv(cfg: Config, s: Server, re: ReceiverEvent)
    requires Inv(cfg, s)
    ensures Inv(cfg, DoReceiver(cfg, s, re))
  {
    assert Apply(cfg, s, Recv(re)) == DoReceiver(cfg, s, re);
    TasksReceiver(cfg, s, re);
    IoReceiver(cfg, s, re);
    PipelineReceiver(cfg, s, re);
    StatusesReceiver(cfg, s, re);
    WireReceiver(cfg, s, re);
    ErrReceiver(cfg, s, re);
    ReceiverNobodyGone(cfg, s, re);
    ClosesKept(s, DoReceiver(cfg, s, re));
    CountsReceiver(cfg, s, re);
    InputsReceiver(cfg, s, re);
    AnswersReceiver(cfg, s, re);
    BuffersReceiver(cfg, s, re);
    EndsReceiver(cfg, s, re);
  }

  lemma TaskKeepsRest(cfg: Config, s: Server, h: nat, te: TaskEvent)
    ensures var s' := DoTask(cfg, s, h, te);
            && |s'.tasks| == |s.tasks| && s'.ledger == s.ledger && s'.statusIds == s.statusIds
            && s'.receiver == s.receiver && s'.main == s.main && s'.err == s.err && s'.received == s.received
  {
  }

  lemma TaskInv(cfg: Config, s: Server, h: nat, te: TaskEvent)
    requires Inv(cfg, s)
    ensures Inv(cfg, DoTask(cfg, s, h, te))
  {
    TasksTask(cfg, s, h, te);
    IoTask(cfg, s, h, te);
    PipelineTask(cfg, s, h, te);
    WireTask(cfg, s, h, te);
    ClosesTask(cfg, s, h, te);
    TaskKeepsCounts(cfg, s, h, te);
    InputsTask(cfg, s, h, te);
    BuffersTask(cfg, s, h, te);
    EndsTask(cfg, s, h, te);
  }

  lemma TaskKeepsCounts(cfg: Config, s: Server, h: nat, te: TaskEvent)
    requires Statuses(s) && ErrOk(s) && Counts(s) && Answers(s.statusIds, s.received)
    ensures var s' := DoTask(cfg, s, h, te);
            Statuses(s') && ErrOk(s') && Counts(s') && Answers(s'.statusIds, s'.received)
  {
    TaskKeepsRest(cfg, s, h, te);
    CountsKept(s, DoTask(cfg, s, h, te));
  }

  lemma IoMainOther(cfg: Config, s: Server, me: MainEvent)
    requires Io(cfg, s) && !me.TakeFrom? && !me.Write?
    ensures Io(cfg, DoMain(cfg, s, me))
  {
    MainKeepsTasks(cfg, s, me);
    MainBuffers(cfg, s, me);
    IoKept(cfg, s, DoMain(cfg, s, me));
  }

  lemma WireTakeFrom(cfg: Config, s: Server, h: nat)
    requires Wire(cfg, s)
    ensures Wire(cfg, DoTakeFrom(s, h))
  {
    WireKept(cfg, s, DoTakeFrom(s, h));
  }

  lemma MainFlows(cfg: Config, s: Server, me: MainEvent)
    requires Inv(cfg, s)
    ensures var s' := DoMain(cfg, s, me); Io(cfg, s') && Pipeline(s') && Wire(cfg, s')
  {
    if me.TakeFrom? {
      IoTakeFrom(cfg, s, me.h);
      WireTakeFrom(cfg, s, me.h);
    } else if me.Write? {
      if s.main.Have? {
        WriteEffects(cfg, s, me.fate);
        IoWrite(cfg, s, DoWrite(cfg, s, me.fate));
        WireWrite(cfg, s, DoWrite(cfg, s, me.fate));
      }
    } else {
      IoMainOther(cfg, s, me);
      PipelineMainOther(cfg, s, me);
      MainWritesNothing(cfg, s, me);
      WireKept(cfg, s, DoMain(cfg, s, me));
    }
  }

  lemma MainWritesNothing(cfg: Config, s: Server, me: MainEvent)
    requires !me.TakeFrom? && !me.Write?
    ensures NothingWritten(s, DoMain(cfg, s, me))
  {
    MainKeepsTasks(cfg, s, me);
  }

  lemma MainStatusIds(cfg: Config, s: Server, me: MainEvent)
    ensures DoMain(cfg, s, me).statusIds == s.statusIds
  {
  }

  lemma MainInv(cfg: Config, s: Server, me: MainEvent)
    requires Inv(cfg, s)
    ensures Inv(cfg, DoMain(cfg, s, me))
  {
    TasksMain(cfg, s, me);
    MainFlows(cfg, s, me);
    StatusesMain(cfg, s, me);
    ErrMain(cfg, s, me);
    ClosesMain(cfg, s, me);
    CountsMain(cfg, s, me);
    PlainMain(cfg, s, me);
    MainStatusIds(cfg, s, me);
    InputsMain(cfg, s, me);
    BuffersMain(cfg, s, me);
    EndsMain(cfg, s, me);
  }

  lemma StepInv(cfg: Config, s: Server, e: Event)
    requires Inv(cfg, s)
    ensures Inv(cfg, Apply(cfg, s, e))
  {
    match e
    case Recv(re) => ReceiverInv(cfg, s, re);
    case Method(h, te) => TaskInv(cfg, s, h, te);
    case Respond(me) => MainInv(cfg, s, me);
    case CloseServerConn =>
      ShutdownInv(cfg, s, s.(shutdown := true));
  }

  /** The shutdown signal touches nothing else. */
  lemma ShutdownInv(cfg: Config, s: Server, s': Server)
    requires Inv(cfg, s) && s' == s.(shutdown := true)
    ensures Inv(cfg, s')
  {
    ShutdownKeepsTasks(cfg, s, s');
    ShutdownKeepsRest(s, s');
    ShutdownKeepsCounts(s, s');
  }

  lemma ShutdownKeepsCounts(s: Server, s': Server)
    requires Pipeline(s) && Statuses(s) && ErrOk(s) && Closes(s) && Counts(s) && s' == s.(shutdown := true)
    ensures Pipeline(s') && Statuses(s') && ErrOk(s') && Closes(s') && Counts(s')
  {
  }

  lemma ShutdownKeepsTasks(cfg: Config, s: Server, s': Server)
    requires Tasks(cfg, s) && Io(cfg, s) && Wire(cfg, s) && s' == s.(shutdown := true)
    ensures Tasks(cfg, s') && Io(cfg, s') && Wire(cfg, s')
  {
    TasksPlain(cfg, s, s');
    IoKept(cfg, s, s');
    WireKept(cfg, s, s');
  }

  lemma ShutdownKeepsRest(s: Server, s': Server)
    requires Inputs(s) && BuffersOk(s) && Ends(s) && s' == s.(shutdown := true)
    ensures Inputs(s') && BuffersOk(s') && Ends(s')
  {
    InputsKept(s, s');
    EndsKept(s, s');
    FlowsKept(s, s');
  }

  lemma {:induction false} RunInv(cfg: Config, es: seq<Event>)
    ensures Inv(cfg, After(cfg, es))
  {
    if es == [] {
      InitInv(cfg);
    } else {
      RunInv(cfg, es[..|es| - 1]);
      StepInv(cfg, After(cfg, es[..|es| - 1]), es[|es| - 1]);
    }
  }
}
