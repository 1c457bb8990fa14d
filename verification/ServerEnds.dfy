/** Where a method's input ends: the closing frame that half-closes its stream, and what it had been given
    by then. */
module ServerEnds {
  import opened Types
  import opened StreamQueue
  import opened ServerEngine
  import opened ServerTasks
  import opened ServerIo
  import opened ServerInputs

  predicate Closing(m: Msg, id: uint32) { DataFor(m, id) && HasRemoteClosed(m.frame.flags) }

  /** The goroutine's queue was closed by the message at `c`, with everything up to it in the queue. */
  ghost predicate EndedBy(t: Task, received: seq<Msg>, c: nat) {
    && t.at < c < |received| && Closing(received[c], t.id)
    && (!t.refused ==> t.accepted == ClientData(t, received[..c + 1]))
  }

  ghost predicate EndOk(t: Task, received: seq<Msg>) {
    t.chanClosed ==> exists c :: EndedBy(t, received, c)
  }

  /** The data message the receiver is working on, and for which goroutine. */
  function InWork(r: Receiver): Option<(nat, Msg)> {
    match r
    case AfterData(h, m) => Some((h, m))
    case Offering(h, _, source, _) => if source.FromFrame? then Some((h, source.m)) else None
    case _ => None
  }

  /** It is the last one received, and none of the stream's data has been missed. */
  ghost predicate WorkedOn(t: Task, received: seq<Msg>, m: Msg) {
    && t.at < |received| - 1 && received[|received| - 1] == m && DataFor(m, t.id)
    && (t.kind.Streaming? ==> !t.missed)
  }

  ghost predicate Ends(s: Server) {
    && (forall h | 0 <= h < |s.tasks| :: EndOk(s.tasks[h], s.received))
    && (InWork(s.receiver).Some? && InWork(s.receiver).value.0 < |s.tasks| ==>
          WorkedOn(s.tasks[InWork(s.receiver).value.0], s.received, InWork(s.receiver).value.1))
  }

  /** What the end of the input depends on. */
  predicate EndSame(t: Task, t': Task) {
    && Same(t, t') && t'.chanClosed == t.chanClosed && (t.chanClosed ==> t'.accepted == t.accepted)
    && (t.refused ==> t'.refused) && t'.missed == t.missed
  }

  lemma EndKept(t: Task, t': Task, received: seq<Msg>)
    requires EndOk(t, received) && EndSame(t, t'.(missed := t.missed))
    ensures EndOk(t', received)
  {
    if t.chanClosed {
      var c :| EndedBy(t, received, c);
      assert ClientData(t', received[..c + 1]) == ClientData(t, received[..c + 1]);
      assert EndedBy(t', received, c);
    }
  }

  lemma EndMore(t: Task, received: seq<Msg>, m: Msg)
    requires EndOk(t, received)
    ensures EndOk(t, received + [m])
  {
    if t.chanClosed {
      var c :| EndedBy(t, received, c);
      assert (received + [m])[..c + 1] == received[..c + 1];
      assert EndedBy(t, received + [m], c);
    }
  }

  /** A step that receives nothing and closes nothing. */
  ghost predicate EndsSame(s: Server, s': Server) {
    && s'.received == s.received && |s.tasks| == |s'.tasks|
    && (forall h | 0 <= h < |s.tasks| :: EndSame(s.tasks[h], s'.tasks[h]))
    && (InWork(s'.receiver).None? || InWork(s'.receiver) == InWork(s.receiver))
  }

  lemma EndsKept(s: Server, s': Server)
    requires Ends(s) && EndsSame(s, s')
    ensures Ends(s')
  {
    forall h | 0 <= h < |s'.tasks| ensures EndOk(s'.tasks[h], s'.received) {
      assert EndSame(s.tasks[h], s'.tasks[h]);
      EndKept(s.tasks[h], s'.tasks[h], s.received);
    }
  }

  // ---------------------------------------------------------------- dispatching

  lemma EndsNoted(s: Server, s': Server)
    requires Ends(s) && s.receiver.Got? && s'.received == s.received + [s.receiver.m] && s'.tasks == s.tasks
    requires InWork(s'.receiver).None?
    ensures Ends(s')
  {
    forall h | 0 <= h < |s'.tasks| ensures EndOk(s'.tasks[h], s'.received) {
      EndMore(s.tasks[h], s.received, s.receiver.m);
    }
  }

  lemma EndsRequest(cfg: Config, s: Server, s': Server, m: Msg)
    requires Ends(s) && s.receiver.Got? && InWork(s.receiver).None? && RequestEffect(cfg, s, s', m)
    ensures Ends(s')
  {
    forall h | 0 <= h < |s'.tasks| ensures EndOk(s'.tasks[h], s'.received) {
      if h < |s.tasks| { assert s'.tasks[h] == s.tasks[h] && EndOk(s.tasks[h], s.received); }
    }
  }

  lemma EndsMissed(s: Server, s': Server)
    requires Known(s.byId, s.tasks) && Ends(s) && s.receiver.Got? && s.receiver.m.frame.sid !in s.table
    requires DataEffect(Noted(s), s', s.receiver.m)
    ensures Ends(s')
  {
    MissedTasks(s, s');
    forall h | 0 <= h < |s'.tasks| ensures EndOk(s'.tasks[h], s'.received) {
      EndMore(s.tasks[h], s.received, s.receiver.m);
      EndKept(s.tasks[h], s'.tasks[h], s'.received);
    }
  }

  /** Data for a stream in the map. */
  ghost predicate FoundEffect(s: Server, s': Server, m: Msg, h: nat) {
    && |s'.tasks| == |s.tasks| && s'.received == s.received + [m]
    && (forall j | 0 <= j < |s.tasks| :: EndSame(s.tasks[j], s'.tasks[j]))
    && (InWork(s'.receiver).Some? ==> InWork(s'.receiver) == Some((h, m)))
  }

  lemma FoundEffects(s: Server, s': Server)
    requires s.receiver.Got? && s.receiver.m.frame.sid in s.table && DataEffect(Noted(s), s', s.receiver.m)
    ensures FoundEffect(s, s', s.receiver.m, s.table[s.receiver.m.frame.sid])
  {
  }

  lemma EndsFound(cfg: Config, s: Server, s': Server, k: nat)
    requires Tasks(cfg, s) && Inputs(s) && Ends(s) && s.receiver.Got?
    requires s.receiver.m.frame.typ == DATA && s.receiver.m.frame.sid in s.table && k == s.table[s.receiver.m.frame.sid]
    requires FoundEffect(s, s', s.receiver.m, k)
    ensures Ends(s')
  {
    var m := s.receiver.m;
    forall h | 0 <= h < |s'.tasks| ensures EndOk(s'.tasks[h], s'.received) {
      EndMore(s.tasks[h], s.received, m);
      EndKept(s.tasks[h], s'.tasks[h], s'.received);
    }
    assert Origin(cfg, s.tasks[k], s.received) && EndSame(s.tasks[k], s'.tasks[k]);
    if s.tasks[k].kind.Streaming? { assert InputOk(s.tasks[k], s.received, GoneFor(s, k)); }
  }

  lemma EndsDispatch(cfg: Config, s: Server, budget: nat)
    requires Tasks(cfg, s) && Inputs(s) && Ends(s)
    ensures Ends(DoDispatch(cfg, s, budget))
  {
    if s.receiver.Got? {
      var m := s.receiver.m;
      var s' := DoDispatch(cfg, s, budget);
      DispatchCases(cfg, s, budget);
      if !Unacceptable(m) && m.frame.typ == DATA {
        DataEffects(Noted(s), m);
        if m.frame.sid in s.table {
          FoundEffects(s, s');
          EndsFound(cfg, s, s', s.table[m.frame.sid]);
        } else {
          EndsMissed(s, s');
        }
      } else if !Unacceptable(m) && m.frame.typ == REQUEST {
        EndsNoted(s, Noted(s));
        RequestEffects(cfg, Noted(s), m, budget);
        EndsRequest(cfg, Noted(s), s', m);
      } else {
        EndsNoted(s, s');
      }
    }
  }

  // ---------------------------------------------------------------- the other steps

  lemma EndsOffer(cfg: Config, s: Server, choice: Choice)
    requires Io(cfg, s) && Ends(s)
    ensures Ends(DoOffer(s, choice))
  {
    if s.receiver.Offering? && s.receiver.h < |s.tasks| {
      var t := s.tasks[s.receiver.h];
      assert TaskOk(cfg, t);
      OfferEffects(s, choice);
      OfferSame(t, s.receiver.item, s.receiver.stage, choice);
      OfferClosesNothing(s, DoOffer(s, choice), choice);
      EndsKept(s, DoOffer(s, choice));
    }
  }

  lemma OfferClosesNothing(s: Server, s': Server, choice: Choice)
    requires s.receiver.Offering? && s.receiver.h < |s.tasks|
    requires OfferEffect(s, s', Decide(s.tasks[s.receiver.h], s.receiver.stage, choice))
    requires var (t, item) := (s.tasks[s.receiver.h], s.receiver.item); EndSame(t, Affect(t, item, Decide(t, s.receiver.stage, choice)))
    ensures EndsSame(s, s')
  {
  }

  lemma OfferSame(t: Task, item: Item, stage: DataStage, choice: Choice)
    requires t.chanClosed == t.remoteClosed && (stage != CheckClosed ==> !t.remoteClosed)
    ensures EndSame(t, Affect(t, item, Decide(t, stage, choice)))
  {
  }

  /** Closing the queue: everything received for the stream is in it, or a data() has failed. */
  lemma EndsHere(t: Task, received: seq<Msg>, m: Msg)
    requires InputOk(t, received, false) && OfferedOk(t, []) && WorkedOn(t, received, m) && HasRemoteClosed(m.frame.flags)
    ensures EndOk(CloseSend(t), received) || t.remoteClosed
  {
    var c := |received| - 1;
    assert received[..c + 1] == received;
    assert t.accepted + [] == t.accepted;
    assert ClientData(CloseSend(t), received) == ClientData(t, received);
    assert t.remoteClosed || EndedBy(CloseSend(t), received, c);
  }

  /** closeSend of the receiver's own stream. */
  predicate FinishDataEffect(s: Server, s': Server)
    requires s.receiver.AfterData? && s.receiver.h < |s.tasks|
  {
    var (h, t) := (s.receiver.h, s.tasks[s.receiver.h]);
    && s'.received == s.received && InWork(s'.receiver).None?
    && s'.tasks == s.tasks[h := if HasRemoteClosed(s.receiver.m.frame.flags) && t.kind.Streaming? then CloseSend(t) else t]
  }

  lemma FinishDataEffects(s: Server)
    requires s.receiver.AfterData? && s.receiver.h < |s.tasks|
    ensures FinishDataEffect(s, DoFinishData(s))
  {
  }

  lemma EndsOneTask(s: Server, s': Server, h: nat, t: Task)
    requires Ends(s) && h < |s.tasks| && s'.tasks == s.tasks[h := t] && s'.received == s.received
    requires EndOk(t, s.received) && InWork(s'.receiver).None?
    ensures Ends(s')
  {
    forall j | 0 <= j < |s'.tasks| ensures EndOk(s'.tasks[j], s'.received) {
      assert EndOk(s.tasks[j], s.received);
    }
  }

  lemma EndsFinishData(cfg: Config, s: Server)
    requires Tasks(cfg, s) && Io(cfg, s) && Inputs(s) && Ends(s)
    ensures Ends(DoFinishData(s))
  {
    if s.receiver.AfterData? {
      var (h, t) := (s.receiver.h, s.tasks[s.receiver.h]);
      FinishDataEffects(s);
      assert EndOk(t, s.received);
      if HasRemoteClosed(s.receiver.m.frame.flags) && t.kind.Streaming? {
        assert InputOk(t, s.received, GoneFor(s, h)) && OfferedOk(t, InHand(s, h));
        EndsHere(t, s.received, s.receiver.m);
        EndsOneTask(s, DoFinishData(s), h, CloseSend(t));
      } else {
        EndsOneTask(s, DoFinishData(s), h, t);
      }
    }
  }

  lemma EndsQuiet(cfg: Config, s: Server, re: ReceiverEvent)
    requires !re.Dispatch? && !re.Offer? && !re.FinishData?
    ensures EndsSame(s, DoReceiver(cfg, s, re))
  {
    QuietReceiver(cfg, s, re);
  }

  lemma QuietReceiver(cfg: Config, s: Server, re: ReceiverEvent)
    requires !re.Dispatch? && !re.Offer? && !re.FinishData?
    ensures var s' := DoReceiver(cfg, s, re);
            && s'.tasks == s.tasks && s'.received == s.received
            && (s'.receiver == s.receiver || (!s'.receiver.AfterData? && !s'.receiver.Offering?))
  {
  }

  lemma EndsReceiver(cfg: Config, s: Server, re: ReceiverEvent)
    requires Tasks(cfg, s) && Io(cfg, s) && Inputs(s) && Ends(s)
    ensures Ends(DoReceiver(cfg, s, re))
  {
    if re.Dispatch? { EndsDispatch(cfg, s, re.budget); }
    else if re.Offer? { EndsOffer(cfg, s, re.choice); }
    else if re.FinishData? { EndsFinishData(cfg, s); }
    else {
      EndsQuiet(cfg, s, re);
      EndsKept(s, DoReceiver(cfg, s, re));
    }
  }

  lemma EndsTask(cfg: Config, s: Server, h: nat, te: TaskEvent)
    requires Ends(s)
    ensures Ends(DoTask(cfg, s, h, te))
  {
    if h < |s.tasks| && TaskCan(cfg, s.tasks[h], te, s.main.Ended?) {
      TaskStepSame(cfg, s.tasks[h], te, s.main.Ended?);
      EndsKept(s, DoTask(cfg, s, h, te));
    }
  }

  lemma EndsWrite(cfg: Config, s: Server, s': Server)
    requires Ends(s) && s.main.Have? && WriteEffect(cfg, s, s')
    ensures Ends(s')
  {
    EndsKept(s, s');
  }

  lemma EndsMainOther(s: Server, s': Server)
    requires Ends(s) && TasksKept(s, s')
    ensures Ends(s')
  {
    EndsKept(s, s');
  }

  lemma EndsTakeFrom(s: Server, h: nat)
    requires Ends(s)
    ensures Ends(DoTakeFrom(s, h))
  {
    EndsKept(s, DoTakeFrom(s, h));
  }

  lemma EndsMain(cfg: Config, s: Server, me: MainEvent)
    requires Ends(s) && s.w.Valid()
    ensures Ends(DoMain(cfg, s, me))
  {
    if me.Write? {
      if s.main.Have? { WriteEffects(cfg, s, me.fate); EndsWrite(cfg, s, DoMain(cfg, s, me)); }
    } else if me.TakeFrom? {
      EndsTakeFrom(s, me.h);
    } else {
      MainKeepsTasks(cfg, s, me);
      EndsMainOther(s, DoMain(cfg, s, me));
    }
  }

  // ---------------------------------------------------------------- whom sendStatus answers

  ghost predicate Heard(received: seq<Msg>, id: uint32) {
    exists i :: 0 <= i < |received| && received[i].frame.sid == id
  }

  /** sendStatus only ever answers an id that has been received. */
  ghost predicate Answers(statusIds: set<uint32>, received: seq<Msg>) {
    forall id | id in statusIds :: Heard(received, id)
  }

  lemma AnswersMore(statusIds: set<uint32>, received: seq<Msg>, m: Msg)
    requires Answers(statusIds, received)
    ensures Answers(statusIds, received + [m]) && Answers(statusIds + {m.frame.sid}, received + [m])
  {
    var more := received + [m];
    assert more[|received|].frame.sid == m.frame.sid;
    forall id | id in statusIds ensures Heard(more, id) {
      var i :| 0 <= i < |received| && received[i].frame.sid == id;
      assert more[i].frame.sid == id;
    }
  }

  lemma AnswersOne(statusIds: set<uint32>, received: seq<Msg>, id: uint32, i: nat)
    requires Answers(statusIds, received) && i < |received| && received[i].frame.sid == id
    ensures Answers(statusIds + {id}, received)
  {
  }

  lemma AnswersReceiver(cfg: Config, s: Server, re: ReceiverEvent)
    requires Tasks(cfg, s) && Ends(s) && Answers(s.statusIds, s.received)
    ensures var s' := DoReceiver(cfg, s, re); Answers(s'.statusIds, s'.received)
  {
    if re.Dispatch? {
      if s.receiver.Got? {
        var m := s.receiver.m;
        AnswersMore(s.statusIds, s.received, m);
        DispatchCases(cfg, s, re.budget);
        if !Unacceptable(m) && m.frame.typ == DATA { DataEffects(Noted(s), m); }
        else if !Unacceptable(m) && m.frame.typ == REQUEST { RequestEffects(cfg, Noted(s), m, re.budget); }
      }
    } else if re.Offer? {
      if s.receiver.Offering? {
        OfferEffects(s, re.choice);
        var t := s.tasks[s.receiver.h];
        assert Origin(cfg, t, s.received);
        AnswersOne(s.statusIds, s.received, t.id, t.at);
      }
    } else if re.FinishData? {
      if s.receiver.AfterData? {
        AnswersOne(s.statusIds, s.received, s.receiver.m.frame.sid, |s.received| - 1);
      }
    } else {
      ReceiverKept(cfg, s, re);
    }
  }
}
