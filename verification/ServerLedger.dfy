/** The `active` counter against the streams it stands for, the recvErr channel, and why the
    connection's goroutines can always leave. */
module ServerLedger {
  import opened Types
  import opened StreamQueue
  import opened ServerEngine
  import opened ServerTasks
  import opened ServerIo
  import opened ServerWire

  /** The goroutine started but not yet counted. */
  function Mid(r: Receiver): Option<nat> {
    match r
    case Offering(h, _, source, _) => if source.Initial? then Some(h) else None
    case Storing(h) => Some(h)
    case Counting(h) => Some(h)
    case _ => None
  }

  /** The goroutine whose closing response the loop is processing. */
  function ClosingFor(m: Main): Option<nat> {
    if Holds(m) && m.o.closeStream then m.src else None
  }

  predicate InLoop(m: Main) { !m.Left? && !m.Ended? }

  /** `finished` holds exactly the goroutines whose closing response has been fully processed, as long as the
      loop runs. */
  ghost predicate Closes(s: Server) {
    && (forall h | h in s.ledger.finished :: h < |s.tasks| && s.tasks[h].pc.Gone?)
    && (ClosingFor(s.main).Some? ==>
          var h := ClosingFor(s.main).value;
          h < |s.tasks| && s.tasks[h].pc.Gone? && h !in s.ledger.finished)
    && (InLoop(s.main) ==>
          forall h | 0 <= h < |s.tasks| && s.tasks[h].pc.Gone? :: h in s.ledger.finished || ClosingFor(s.main) == Some(h))
    && (s.main.Forgetting? || s.main.Discounting? ==> s.main.o.closeStream)
  }

  ghost predicate Counts(s: Server) {
    && (forall h | h in s.ledger.counted :: h < |s.tasks|)
    && (Mid(s.receiver).Some? ==> Mid(s.receiver).value < |s.tasks| && Mid(s.receiver).value !in s.ledger.counted)
    && s.ledger.active == s.ledger.registrations - s.ledger.closes
    && s.ledger.registrations == |s.ledger.counted|
    && s.ledger.closes == |s.ledger.finished| + s.ledger.statuses
    && (s.main.Selecting? && s.main.busy ==> s.ledger.active > 0)
    && (s.statusIds == {} ==>
          && s.ledger.statuses == 0
          && (forall h | 0 <= h < |s.tasks| :: h in s.ledger.counted || Mid(s.receiver) == Some(h)))
  }

  /** One value at most is ever put on recvErr, so putting it never blocks. */
  ghost predicate ErrOk(s: Server) {
    && s.err.puts <= 1 && |s.err.buf| <= 1
    && (s.err.puts == 0 ==> s.err.buf == [])
    && (!s.receiver.Exiting? && !s.receiver.Stopped? ==> s.err.puts == 0)
    && (s.err.closed <==> s.receiver.Stopped?)
  }

  lemma ErrStep(cfg: Config, s: Server, e: Event)
    requires ErrOk(s)
    ensures ErrOk(Apply(cfg, s, e))
  {
    match e
    case Recv(re) => ErrReceiver(cfg, s, re);
    case Method(h, te) =>
    case Respond(me) => ErrMain(cfg, s, me);
    case CloseServerConn =>
  }

  lemma ErrMain(cfg: Config, s: Server, me: MainEvent)
    requires ErrOk(s)
    ensures ErrOk(DoMain(cfg, s, me))
  {
  }

  lemma ErrReceiver(cfg: Config, s: Server, re: ReceiverEvent)
    requires ErrOk(s)
    ensures ErrOk(DoReceiver(cfg, s, re))
  {
    if re.Dispatch? && s.receiver.Got? {
      var m := s.receiver.m;
      DispatchCases(cfg, s, re.budget);
      if !Unacceptable(m) && m.frame.typ == DATA { DataEffects(Noted(s), m); }
      else if !Unacceptable(m) && m.frame.typ == REQUEST { RequestEffects(cfg, Noted(s), m, re.budget); }
    }
  }

  // ---------------------------------------------------------------- Closes

  /** A step that moves no goroutine to or from its end. */
  ghost predicate NobodyGone(s: Server, s': Server) {
    && |s.tasks| <= |s'.tasks|
    && (forall h | 0 <= h < |s.tasks| :: s'.tasks[h].pc.Gone? == s.tasks[h].pc.Gone?)
    && (forall h | |s.tasks| <= h < |s'.tasks| :: !s'.tasks[h].pc.Gone?)
    && s'.ledger.finished == s.ledger.finished
  }

  lemma ClosesKept(s: Server, s': Server)
    requires Closes(s) && NobodyGone(s, s') && s'.main == s.main
    ensures Closes(s')
  {
  }

  lemma AffectKeepsPc(t: Task, item: Item, v: Verdict)
    ensures Affect(t, item, v).pc == t.pc
  {
  }

  lemma OfferNobodyGone(s: Server, choice: Choice)
    ensures NobodyGone(s, DoOffer(s, choice)) && DoOffer(s, choice).main == s.main
  {
    if s.receiver.Offering? && s.receiver.h < |s.tasks| {
      var t := s.tasks[s.receiver.h];
      AffectKeepsPc(t, s.receiver.item, Decide(t, s.receiver.stage, choice));
    }
  }

  lemma FinishDataNobodyGone(s: Server)
    ensures NobodyGone(s, DoFinishData(s)) && DoFinishData(s).main == s.main
  {
  }

  lemma RequestNobodyGone(cfg: Config, s: Server, s': Server, m: Msg)
    requires RequestEffect(cfg, s, s', m)
    ensures NobodyGone(s, s')
  {
    if |s'.tasks| != |s.tasks| {
      forall h | 0 <= h < |s.tasks| ensures s'.tasks[h] == s.tasks[h] {}
    }
  }

  lemma DataNobodyGone(s: Server, s': Server, m: Msg)
    requires DataEffect(s, s', m)
    ensures NobodyGone(s, s')
  {
  }

  lemma DispatchNobodyGone(cfg: Config, s: Server, budget: nat)
    ensures NobodyGone(s, DoDispatch(cfg, s, budget)) && DoDispatch(cfg, s, budget).main == s.main
  {
    if s.receiver.Got? {
      var m := s.receiver.m;
      DispatchCases(cfg, s, budget);
      if !Unacceptable(m) && m.frame.typ == DATA {
        DataEffects(Noted(s), m);
        DataNobodyGone(Noted(s), DoDispatch(cfg, s, budget), m);
      } else if !Unacceptable(m) && m.frame.typ == REQUEST {
        RequestEffects(cfg, Noted(s), m, budget);
        RequestNobodyGone(cfg, Noted(s), DoDispatch(cfg, s, budget), m);
      }
    }
  }

  lemma ReceiverNobodyGone(cfg: Config, s: Server, re: ReceiverEvent)
    ensures NobodyGone(s, DoReceiver(cfg, s, re)) && DoReceiver(cfg, s, re).main == s.main
  {
    if re.Dispatch? { DispatchNobodyGone(cfg, s, re.budget); }
    else if re.Offer? { OfferNobodyGone(s, re.choice); }
    else if re.FinishData? { FinishDataNobodyGone(s); }
    else { ReceiverKept(cfg, s, re); ReceiverFinished(cfg, s, re); }
  }

  lemma ReceiverFinished(cfg: Config, s: Server, re: ReceiverEvent)
    requires !re.Dispatch? && !re.Offer? && !re.FinishData?
    ensures DoReceiver(cfg, s, re).ledger.finished == s.ledger.finished
  {
  }

  /** A method step ends a goroutine only once the loop has ended. */
  lemma TaskGone(cfg: Config, t: Task, te: TaskEvent, done: bool)
    requires TaskCan(cfg, t, te, done)
    ensures t.pc.Gone? ==> TaskStep(cfg, t, te, done).pc.Gone?
    ensures !done && TaskStep(cfg, t, te, done).pc.Gone? ==> t.pc.Gone?
  {
  }

  lemma ClosesTask(cfg: Config, s: Server, h: nat, te: TaskEvent)
    requires Closes(s)
    ensures Closes(DoTask(cfg, s, h, te))
  {
    if h < |s.tasks| && TaskCan(cfg, s.tasks[h], te, s.main.Ended?) {
      TaskGone(cfg, s.tasks[h], te, s.main.Ended?);
    }
  }

  lemma ClosesTakeFrom(cfg: Config, s: Server, h: nat)
    requires Closes(s) && AllTasksOk(cfg, s.tasks)
    ensures Closes(DoTakeFrom(s, h))
  {
    if h < |s.tasks| { assert TaskOk(cfg, s.tasks[h]); }
  }

  lemma ClosesWrite(cfg: Config, s: Server, s': Server)
    requires Closes(s) && s.main.Have? && WriteEffect(cfg, s, s')
    ensures Closes(s')
  {
  }

  lemma ClosesMain(cfg: Config, s: Server, me: MainEvent)
    requires Closes(s) && AllTasksOk(cfg, s.tasks) && s.w.Valid()
    ensures Closes(DoMain(cfg, s, me))
  {
    if me.TakeFrom? { ClosesTakeFrom(cfg, s, me.h); }
    else if me.Write? {
      if s.main.Have? {
        WriteEffects(cfg, s, me.fate);
        ClosesWrite(cfg, s, DoMain(cfg, s, me));
      }
    } else {
      MainKeepsTasks(cfg, s, me);
    }
  }

  // ---------------------------------------------------------------- Counts

  /** A step that neither counts nor starts a goroutine. */
  ghost predicate NothingCounted(s: Server, s': Server) {
    && |s'.tasks| == |s.tasks| && s'.ledger == s.ledger && s.statusIds <= s'.statusIds
    && (Mid(s'.receiver) == Mid(s.receiver)
        || (Mid(s.receiver).Some? && Mid(s'.receiver).None? && s'.statusIds != {}))
    && (s'.main == s.main || !s'.main.Selecting? || (s'.main.busy ==> s.ledger.active > 0))
  }

  lemma CountsKept(s: Server, s': Server)
    requires Counts(s) && NothingCounted(s, s')
    ensures Counts(s')
  {
  }

  lemma CountsOffer(cfg: Config, s: Server, choice: Choice)
    requires Counts(s) && Tasks(cfg, s) && Io(cfg, s)
    ensures Counts(DoOffer(s, choice))
  {
    if s.receiver.Offering? {
      assert TaskOk(cfg, s.tasks[s.receiver.h]);
      OfferEffects(s, choice);
      OfferCountsNothing(s, DoOffer(s, choice), Decide(s.tasks[s.receiver.h], s.receiver.stage, choice));
      CountsKept(s, DoOffer(s, choice));
    }
  }

  lemma OfferCountsNothing(s: Server, s': Server, v: Verdict)
    requires s.receiver.Offering? && s.receiver.h < |s.tasks| && OfferEffect(s, s', v) && !v.Panic?
    ensures NothingCounted(s, s')
  {
  }

  lemma CountsCount(s: Server)
    requires Counts(s)
    ensures Counts(DoCount(s))
  {
  }

  lemma CountsRequest(cfg: Config, s: Server, s': Server, m: Msg)
    requires Counts(s) && Mid(s.receiver).None? && RequestEffect(cfg, s, s', m)
    ensures Counts(s')
  {
  }

  lemma CountsDispatch(cfg: Config, s: Server, budget: nat)
    requires Counts(s)
    ensures Counts(DoDispatch(cfg, s, budget))
  {
    if s.receiver.Got? {
      var m := s.receiver.m;
      var s1 := Noted(s);
      var s' := DoDispatch(cfg, s, budget);
      DispatchCases(cfg, s, budget);
      if !Unacceptable(m) && m.frame.typ == REQUEST {
        RequestEffects(cfg, s1, m, budget);
        CountsRequest(cfg, s1, s', m);
      } else {
        if !Unacceptable(m) && m.frame.typ == DATA { DataEffects(s1, m); }
        CountsKept(s1, s');
      }
    }
  }

  lemma CountsQuiet(cfg: Config, s: Server, re: ReceiverEvent)
    requires !re.Dispatch? && !re.Offer? && !re.FinishData? && !re.Count?
    ensures NothingCounted(s, DoReceiver(cfg, s, re))
  {
  }

  lemma CountsReceiver(cfg: Config, s: Server, re: ReceiverEvent)
    requires Counts(s) && Tasks(cfg, s) && Io(cfg, s)
    ensures Counts(DoReceiver(cfg, s, re))
  {
    if re.Dispatch? { CountsDispatch(cfg, s, re.budget); }
    else if re.Offer? { CountsOffer(cfg, s, re.choice); }
    else if re.Count? { CountsCount(s); }
    else {
      if re.FinishData? { CountsFinishData(s); } else { CountsQuiet(cfg, s, re); }
      CountsKept(s, DoReceiver(cfg, s, re));
    }
  }

  lemma CountsFinishData(s: Server)
    ensures NothingCounted(s, DoFinishData(s))
  {
  }

  lemma CountsMain(cfg: Config, s: Server, me: MainEvent)
    requires Counts(s) && Closes(s) && Statuses(s) && s.w.Valid()
    ensures Counts(DoMain(cfg, s, me))
  {
    if me.Write? {
      if s.main.Have? {
        WriteEffects(cfg, s, me.fate);
        CountsKept(s, DoMain(cfg, s, me));
      }
    } else if me.TakeFrom? {
      CountsKept(s, DoMain(cfg, s, me));
    } else {
      CountsMainOther(cfg, s, me);
    }
  }

  lemma CountsMainOther(cfg: Config, s: Server, me: MainEvent)
    requires Counts(s) && Closes(s) && Statuses(s) && !me.Write? && !me.TakeFrom?
    ensures Counts(DoMain(cfg, s, me))
  {
    if me.Discount? {
    } else {
      MainKeepsTasks(cfg, s, me);
    }
  }
}
