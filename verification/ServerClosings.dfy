/** When a method's input is closed: exactly once a closing frame of its stream has been handled. */
module ServerClosings {
  import opened Types
  import opened StreamQueue
  import opened ServerEngine
  import opened ServerTasks
  import opened ServerIo
  import opened ServerInputs
  import opened ServerEnds
  import opened ServerRuns
  import opened ServerProperties

  /** The receiver is working on the message at `c`, the last one, for the goroutine. */
  predicate AtWork(s: Server, h: nat, c: nat) {
    InWork(s.receiver).Some? && InWork(s.receiver).value.0 == h && c + 1 == |s.received|
  }

  /** Every closing frame received for the stream after its request has closed the queue or is being handled. */
  ghost predicate ClosedBy(s: Server, h: nat)
    requires h < |s.tasks|
  {
    forall c | s.tasks[h].at < c < |s.received| && Closing(s.received[c], s.tasks[h].id) ::
      s.tasks[h].chanClosed || AtWork(s, h, c)
  }

  ghost predicate Closings(s: Server) {
    forall h | 0 <= h < |s.tasks| && s.tasks[h].kind.Streaming? && s.tasks[h].id !in s.statusIds :: ClosedBy(s, h)
  }

  /** A step that receives nothing and finishes no data. */
  ghost predicate ClosingsSame(s: Server, s': Server) {
    && s'.received == s.received && s.statusIds <= s'.statusIds && |s'.tasks| == |s.tasks|
    && (forall h | 0 <= h < |s.tasks| :: Same(s.tasks[h], s'.tasks[h]) && s'.tasks[h].chanClosed == s.tasks[h].chanClosed)
    && (InWork(s.receiver).Some? && InWork(s.receiver).value.0 < |s.tasks| ==>
          || InWork(s'.receiver) == InWork(s.receiver)
          || s.tasks[InWork(s.receiver).value.0].id in s'.statusIds)
  }

  lemma ClosingsKept(s: Server, s': Server)
    requires Closings(s) && ClosingsSame(s, s')
    ensures Closings(s')
  {
    forall h | 0 <= h < |s'.tasks| && s'.tasks[h].kind.Streaming? && s'.tasks[h].id !in s'.statusIds ensures ClosedBy(s', h) {
      assert Same(s.tasks[h], s'.tasks[h]) && ClosedBy(s, h);
    }
  }

  // ---------------------------------------------------------------- the steps

  /** What a dispatched message leaves to be handled. */
  ghost predicate Dispatched(s: Server, s': Server, m: Msg) {
    && s'.received == s.received + [m] && s.statusIds <= s'.statusIds && |s.tasks| <= |s'.tasks|
    && (forall h | 0 <= h < |s.tasks| :: Same(s.tasks[h], s'.tasks[h]) && s'.tasks[h].chanClosed == s.tasks[h].chanClosed)
    && (forall h | |s.tasks| <= h < |s'.tasks| :: s'.tasks[h].at >= |s.received|)
    && (forall h | 0 <= h < |s.tasks| && s.tasks[h].kind.Streaming? && DataFor(m, s.tasks[h].id) && HasRemoteClosed(m.frame.flags) ::
          m.frame.sid in s'.statusIds || InWork(s'.receiver) == Some((h, m)))
  }

  lemma ClosingsDispatched(s: Server, s': Server, m: Msg)
    requires Closings(s) && InWork(s.receiver).None? && Dispatched(s, s', m)
    ensures Closings(s')
  {
    forall h | 0 <= h < |s'.tasks| && s'.tasks[h].kind.Streaming? && s'.tasks[h].id !in s'.statusIds ensures ClosedBy(s', h) {
      if h < |s.tasks| {
        assert Same(s.tasks[h], s'.tasks[h]) && ClosedBy(s, h);
        forall c | s'.tasks[h].at < c < |s'.received| && Closing(s'.received[c], s'.tasks[h].id)
          ensures s'.tasks[h].chanClosed || AtWork(s', h, c)
        {
          if c < |s.received| { assert s'.received[c] == s.received[c]; }
        }
      }
    }
  }

  lemma DataDispatched(s: Server, s': Server, m: Msg)
    requires Known(s.byId, s.tasks) && TableOk(s) && s.receiver == Got(m) && DataEffect(Noted(s), s', m)
    ensures Dispatched(s, s', m)
  {
    MissedSame(Noted(s), m);
    DataSame(s, s', m);
    DataWork(s, s', m);
  }

  lemma DataSame(s: Server, s': Server, m: Msg)
    requires s.receiver == Got(m) && DataEffect(Noted(s), s', m)
    requires forall h | 0 <= h < |s.tasks| ::
               Same(s.tasks[h], NoteMissed(Noted(s), m).tasks[h]) && NoteMissed(Noted(s), m).tasks[h].chanClosed == s.tasks[h].chanClosed
    ensures |s'.tasks| == |s.tasks| && s'.received == s.received + [m] && s.statusIds <= s'.statusIds
    ensures forall h | 0 <= h < |s.tasks| :: Same(s.tasks[h], s'.tasks[h]) && s'.tasks[h].chanClosed == s.tasks[h].chanClosed
  {
  }

  /** A goroutine's data is handled for that goroutine, or answered by sendStatus. */
  lemma DataWork(s: Server, s': Server, m: Msg)
    requires Known(s.byId, s.tasks) && TableOk(s) && s.receiver == Got(m) && DataEffect(Noted(s), s', m)
    ensures forall h | 0 <= h < |s.tasks| && s.tasks[h].kind.Streaming? && s.tasks[h].id == m.frame.sid ::
              m.frame.sid in s'.statusIds || InWork(s'.receiver) == Some((h, m))
  {
  }

  lemma MissedSame(s: Server, m: Msg)
    ensures |NoteMissed(s, m).tasks| == |s.tasks|
    ensures forall h | 0 <= h < |s.tasks| ::
              Same(s.tasks[h], NoteMissed(s, m).tasks[h]) && NoteMissed(s, m).tasks[h].chanClosed == s.tasks[h].chanClosed
  {
  }

  lemma RequestDispatched(cfg: Config, s: Server, s': Server, m: Msg)
    requires Tasks(cfg, s) && s.receiver == Got(m) && m.frame.typ == REQUEST && RequestEffect(cfg, Noted(s), s', m)
    ensures Dispatched(s, s', m)
  {
    if |s'.tasks| != |s.tasks| {
      forall h | 0 <= h < |s.tasks| ensures s'.tasks[h] == s.tasks[h] {}
    }
  }

  lemma ClosingsDispatch(cfg: Config, s: Server, budget: nat)
    requires Tasks(cfg, s) && Closings(s) && s.receiver.Got?
    ensures Closings(DoDispatch(cfg, s, budget))
  {
    var (m, s') := (s.receiver.m, DoDispatch(cfg, s, budget));
    DispatchCases(cfg, s, budget);
    if !Unacceptable(m) && m.frame.typ == DATA {
      DataEffects(Noted(s), m);
      DataDispatched(s, s', m);
    } else if !Unacceptable(m) && m.frame.typ == REQUEST {
      RequestEffects(cfg, Noted(s), m, budget);
      RequestDispatched(cfg, s, s', m);
    }
    ClosingsDispatched(s, s', m);
  }

  lemma ClosingsOffer(cfg: Config, s: Server, choice: Choice)
    requires Io(cfg, s) && Closings(s)
    ensures Closings(DoOffer(s, choice))
  {
    if s.receiver.Offering? && s.receiver.h < |s.tasks| {
      var v := Decide(s.tasks[s.receiver.h], s.receiver.stage, choice);
      assert TaskOk(cfg, s.tasks[s.receiver.h]);
      OfferEffects(s, choice);
      AffectSame(s.tasks[s.receiver.h], s.receiver.item, v);
      OfferedSame(s, DoOffer(s, choice), v);
      ClosingsKept(s, DoOffer(s, choice));
    }
  }

  lemma OfferedSame(s: Server, s': Server, v: Verdict)
    requires s.receiver.Offering? && s.receiver.h < |s.tasks| && OfferEffect(s, s', v) && !v.Panic?
    requires Same(s.tasks[s.receiver.h], Affect(s.tasks[s.receiver.h], s.receiver.item, v))
    ensures ClosingsSame(s, s')
  {
  }

  lemma ClosingsFinishData(cfg: Config, s: Server)
    requires Tasks(cfg, s) && Io(cfg, s) && Ends(s) && Closings(s)
    ensures Closings(DoFinishData(s))
  {
    if s.receiver.AfterData? {
      FinishDataEffects(s);
      FinishDataIds(s);
      assert TaskOk(cfg, s.tasks[s.receiver.h]);
      ClosingsFinished(s, DoFinishData(s));
    }
  }

  lemma ClosingsFinished(s: Server, s': Server)
    requires s.receiver.AfterData? && s.receiver.h < |s.tasks| && FinishDataEffect(s, s') && s.statusIds <= s'.statusIds
    requires Ends(s) && Closings(s) && s.tasks[s.receiver.h].chanClosed == s.tasks[s.receiver.h].remoteClosed
    ensures Closings(s')
  {
    forall h | 0 <= h < |s'.tasks| && s'.tasks[h].kind.Streaming? && s'.tasks[h].id !in s'.statusIds ensures ClosedBy(s', h) {
      assert ClosedBy(s, h);
      if h == s.receiver.h { assert WorkedOn(s.tasks[h], s.received, s.receiver.m); }
    }
  }

  lemma FinishDataIds(s: Server)
    ensures s.statusIds <= DoFinishData(s).statusIds
  {
  }

  lemma ClosingsReceiver(cfg: Config, s: Server, re: ReceiverEvent)
    requires Tasks(cfg, s) && Io(cfg, s) && Ends(s) && Closings(s)
    ensures Closings(DoReceiver(cfg, s, re))
  {
    if re.Dispatch? { if s.receiver.Got? { ClosingsDispatch(cfg, s, re.budget); } }
    else if re.Offer? { ClosingsOffer(cfg, s, re.choice); }
    else if re.FinishData? { ClosingsFinishData(cfg, s); }
    else {
      QuietWork(cfg, s, re);
      ClosingsKept(s, DoReceiver(cfg, s, re));
    }
  }

  lemma QuietWork(cfg: Config, s: Server, re: ReceiverEvent)
    requires !re.Dispatch? && !re.Offer? && !re.FinishData?
    ensures ClosingsSame(s, DoReceiver(cfg, s, re))
  {
    ReceiverKept(cfg, s, re);
  }

  lemma ClosingsTask(cfg: Config, s: Server, h: nat, te: TaskEvent)
    requires Closings(s)
    ensures Closings(DoTask(cfg, s, h, te))
  {
    if h < |s.tasks| && TaskCan(cfg, s.tasks[h], te, s.main.Ended?) {
      TaskStepSame(cfg, s.tasks[h], te, s.main.Ended?);
      ClosingsKept(s, DoTask(cfg, s, h, te));
    }
  }

  lemma ClosingsMain(cfg: Config, s: Server, me: MainEvent)
    requires Closings(s) && s.w.Valid()
    ensures Closings(DoMain(cfg, s, me))
  {
    if me.Write? {
      if s.main.Have? { WriteEffects(cfg, s, me.fate); ClosingsWrite(cfg, s, DoMain(cfg, s, me)); }
    } else if me.TakeFrom? {
      ClosingsKept(s, DoTakeFrom(s, me.h));
    } else {
      MainKeepsTasks(cfg, s, me);
      MainStatusIds(cfg, s, me);
      MainKeepsWork(cfg, s, me);
      ClosingsKept(s, DoMain(cfg, s, me));
    }
  }

  lemma MainKeepsWork(cfg: Config, s: Server, me: MainEvent)
    ensures InWork(DoMain(cfg, s, me).receiver) == InWork(s.receiver)
  {
  }

  lemma ClosingsWrite(cfg: Config, s: Server, s': Server)
    requires Closings(s) && s.main.Have? && WriteEffect(cfg, s, s')
    ensures Closings(s')
  {
    ClosingsKept(s, s');
  }

  lemma ClosingsStep(cfg: Config, s: Server, e: Event)
    requires Tasks(cfg, s) && Io(cfg, s) && Ends(s) && s.w.Valid() && Closings(s)
    ensures Closings(Apply(cfg, s, e))
  {
    match e
    case Recv(re) => ClosingsReceiver(cfg, s, re);
    case Method(h, te) => ClosingsTask(cfg, s, h, te);
    case Respond(me) => ClosingsMain(cfg, s, me);
    case CloseServerConn => ClosingsKept(s, s.(shutdown := true));
  }

  lemma {:induction false} ClosingsRun(cfg: Config, es: seq<Event>)
    ensures Closings(After(cfg, es))
  {
    if es != [] {
      var before := es[..|es| - 1];
      ClosingsRun(cfg, before);
      RunInv(cfg, before);
      ClosingsStep(cfg, After(cfg, before), es[|es| - 1]);
    }
  }

  ghost predicate ClosingHeard(t: Task, received: seq<Msg>) { exists c :: t.at < c < |received| && Closing(received[c], t.id) }

  /** Unless sendStatus was used for its id, a streaming method's input is closed if and only if the client's
      closing frame has been received, but while the receiver is handling data. */
  lemma {:induction false} ClosedIff(cfg: Config, es: seq<Event>, h: nat)
    requires h < |After(cfg, es).tasks| && After(cfg, es).tasks[h].kind.Streaming?
    requires After(cfg, es).tasks[h].id !in After(cfg, es).statusIds && InWork(After(cfg, es).receiver).None?
    ensures var (s, t) := (After(cfg, es), After(cfg, es).tasks[h]); t.chanClosed <==> ClosingHeard(t, s.received)
  {
    RunInv(cfg, es);
    ClosingsRun(cfg, es);
    ClosedIffHeard(After(cfg, es), h);
  }

  lemma ClosedIffHeard(s: Server, h: nat)
    requires Ends(s) && h < |s.tasks| && ClosedBy(s, h) && InWork(s.receiver).None?
    ensures s.tasks[h].chanClosed <==> ClosingHeard(s.tasks[h], s.received)
  {
    var t := s.tasks[h];
    assert EndOk(t, s.received);
    if t.chanClosed {
      var c :| EndedBy(t, s.received, c);
    }
  }

  /** RecvMsg returns the oldest item of the queue; of a drained and closed queue io.EOF. */
  predicate Drains(t: Task, t': Task) {
    && (t.inbox != [] ==> t'.got == t.got + [t.inbox[0]] && t'.inbox == t.inbox[1..] && t'.eof == t.eof)
    && (t.inbox == [] ==> t'.eof == (t.eof || t.chanClosed) && t'.got == t.got)
  }

  lemma DrainStep(cfg: Config, s: Server, h: nat)
    requires h < |s.tasks| && s.tasks[h].kind.Streaming?
    ensures Drains(s.tasks[h], DoTask(cfg, s, h, RecvMsg).tasks[h])
  {
  }

  lemma {:induction false} RecvMsgDrains(cfg: Config, es: seq<Event>, h: nat)
    requires h < |After(cfg, es).tasks| && After(cfg, es).tasks[h].kind.Streaming?
    ensures Drains(After(cfg, es).tasks[h], After(cfg, es + [Method(h, RecvMsg)]).tasks[h])
  {
    AfterSnoc(cfg, es, Method(h, RecvMsg));
    DrainStep(cfg, After(cfg, es), h);
  }
}
