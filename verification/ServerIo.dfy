/** What flows through a method: its input queue and the responses it hands over. */
module ServerIo {
  import opened Types
  import opened Framing
  import opened StreamQueue
  import opened ServerEngine
  import opened ServerTasks

  /** `a` is `b` with some elements left out. */
  ghost predicate Subseq(a: seq<Item>, b: seq<Item>)
    decreases |b|
  {
    || a == []
    || (b != [] && Subseq(a, b[..|b| - 1]))
    || (b != [] && a[|a| - 1] == b[|b| - 1] && Subseq(a[..|a| - 1], b[..|b| - 1]))
  }

  lemma {:induction false} SubseqSelf(a: seq<Item>)
    ensures Subseq(a, a)
  {
    if a != [] { SubseqSelf(a[..|a| - 1]); }
  }

  lemma SubseqBoth(a: seq<Item>, b: seq<Item>, x: Item)
    requires Subseq(a, b)
    ensures Subseq(a + [x], b + [x])
  {
    assert (a + [x])[..|a|] == a && (b + [x])[..|b|] == b;
  }

  lemma SubseqRight(a: seq<Item>, b: seq<Item>, x: Item)
    requires Subseq(a, b)
    ensures Subseq(a, b + [x])
  {
    assert (b + [x])[..|b|] == b;
  }

  /** Leaving out the last element keeps a subsequence. */
  lemma {:induction false} SubseqDrop(a: seq<Item>, b: seq<Item>)
    requires a != [] && Subseq(a, b)
    ensures Subseq(a[..|a| - 1], b)
    decreases |b|
  {
    if Subseq(a, b[..|b| - 1]) {
      SubseqDrop(a, b[..|b| - 1]);
    }
  }

  ghost predicate IsSend(cfg: Config, t: Task, o: Out) {
    t.kind.Streaming? && o == SendOut(t.id, o.data) && cfg.objOk(DataBytes(o.data))
  }

  ghost predicate IsFinal(cfg: Config, t: Task, o: Out) {
    && o == FinalOut(t, o.code, o.data)
    && (o.code != 0 ==> o.data.None?)
    && (o.code == 0 && t.kind.Unary? ==> o.data.Some?)
    && (o.code == 0 && !(StreamingServer(t) && o.data.None?) ==> cfg.objOk(DataBytes(o.data)))
  }

  /** Responses are handed over as any number of sends and then, at most once, the final one. */
  ghost predicate Shape(cfg: Config, t: Task) {
    && (forall i | 0 <= i < |t.handed| - 1 :: IsSend(cfg, t, t.handed[i]))
    && (t.handed != [] ==>
          || IsSend(cfg, t, t.handed[|t.handed| - 1])
          || (t.pc.Gone? && t.produced == Some(t.handed[|t.handed| - 1])))
    && (t.pc.Sending? ==> IsSend(cfg, t, t.pc.o))
    && (t.pc.Final? ==> t.produced == Some(t.pc.o))
    && (t.produced.Some? <==> t.pc.Final? || t.pc.Gone?)
    && (t.produced.Some? ==> IsFinal(cfg, t, t.produced.value))
  }

  /** The input queue holds what was accepted and not yet returned; it is closed once, and nothing is
      accepted after that; io.EOF comes only from a closed and drained queue. */
  ghost predicate Input(t: Task) {
    && t.got + t.inbox == t.accepted
    && |t.inbox| <= t.cap
    && t.chanClosed == t.remoteClosed
    && (t.eof ==> t.chanClosed && t.inbox == [])
  }

  ghost predicate TaskOk(cfg: Config, t: Task) {
    Input(t) && Shape(cfg, t) && t.outs <= t.handed
  }

  ghost predicate AllTasksOk(cfg: Config, ts: seq<Task>) {
    forall h | 0 <= h < |ts| :: TaskOk(cfg, ts[h])
  }

  lemma RecvMsgOk(cfg: Config, t: Task)
    requires TaskOk(cfg, t) && TaskCan(cfg, t, RecvMsg, false)
    ensures TaskOk(cfg, TaskStep(cfg, t, RecvMsg, false))
  {
    if t.inbox != [] {
      assert t.inbox == [t.inbox[0]] + t.inbox[1..];
      assert t.got + [t.inbox[0]] + t.inbox[1..] == t.got + t.inbox;
    }
  }

  lemma TaskStepOk(cfg: Config, t: Task, te: TaskEvent, done: bool)
    requires TaskOk(cfg, t) && TaskCan(cfg, t, te, done)
    ensures TaskOk(cfg, TaskStep(cfg, t, te, done))
  {
    if te.RecvMsg? { RecvMsgOk(cfg, t); }
  }

  lemma HandedOk(cfg: Config, t: Task)
    requires TaskOk(cfg, t) && (t.pc.Sending? || t.pc.Final?)
    ensures TaskOk(cfg, Handed(t))
  {
    var t' := Handed(t);
    assert t'.handed[..|t.handed|] == t.handed;
    forall i | 0 <= i < |t'.handed| - 1 ensures IsSend(cfg, t', t'.handed[i]) {
      assert t'.handed[i] == t.handed[i];
    }
  }

  lemma AffectOk(cfg: Config, t: Task, item: Item, stage: DataStage, choice: Choice)
    requires TaskOk(cfg, t) && (stage != CheckClosed ==> !t.remoteClosed)
    ensures TaskOk(cfg, Affect(t, item, Decide(t, stage, choice)))
  {
    assert t.got + (t.inbox + [item]) == t.got + t.inbox + [item];
  }

  lemma CloseSendOk(cfg: Config, t: Task)
    requires TaskOk(cfg, t)
    ensures TaskOk(cfg, CloseSend(t))
  {
  }

  lemma FreshOk(cfg: Config, t: Task, m: Msg)
    requires Fresh(cfg, t, m)
    ensures TaskOk(cfg, t)
  {
  }

  // ---------------------------------------------------------------- all goroutines, step by step

  /** What data() has been called with and not yet decided. */
  function InHand(s: Server, h: nat): seq<Item> {
    if s.receiver.Offering? && s.receiver.h == h then [s.receiver.item] else []
  }

  ghost predicate OfferedOk(t: Task, inHand: seq<Item>) {
    && Subseq(t.accepted + inHand, t.offered)
    && (!t.refused ==> t.accepted + inHand == t.offered)
  }

  ghost predicate Io(cfg: Config, s: Server) {
    && AllTasksOk(cfg, s.tasks)
    && (forall h | 0 <= h < |s.tasks| :: OfferedOk(s.tasks[h], InHand(s, h)))
    && (s.receiver.Offering? && s.receiver.stage != CheckClosed && s.receiver.h < |s.tasks| ==>
          !s.tasks[s.receiver.h].remoteClosed)
    && (s.receiver.Panicked? ==> s.receiver.nilHandler)
  }

  lemma OfferedAffect(t: Task, item: Item, v: Verdict)
    requires OfferedOk(t, [item])
    ensures OfferedOk(Affect(t, item, v), if v.Rejected? || v.Entered? then [] else [item])
  {
    assert t.accepted + [item] + [] == t.accepted + [item] && t.accepted + [] == t.accepted;
    assert (t.accepted + [item])[..|t.accepted|] == t.accepted;
    SubseqDrop(t.accepted + [item], t.offered);
  }

  lemma IoOfferEffect(cfg: Config, s: Server, s': Server, choice: Choice)
    requires Io(cfg, s) && s.receiver.Offering? && s.receiver.h < |s.tasks|
    requires OfferEffect(s, s', Decide(s.tasks[s.receiver.h], s.receiver.stage, choice))
    ensures Io(cfg, s')
  {
    var Offering(h, item, source, stage) := s.receiver;
    var t := s.tasks[h];
    var v := Decide(t, stage, choice);
    assert TaskOk(cfg, t);
    AffectOk(cfg, t, item, stage, choice);
    assert OfferedOk(t, InHand(s, h));
    if !v.Panic? { OfferedAffect(t, item, v); }
    forall j | 0 <= j < |s.tasks| && j != h ensures OfferedOk(s'.tasks[j], InHand(s', j)) {
      assert OfferedOk(s.tasks[j], InHand(s, j));
    }
  }

  lemma IoOffer(cfg: Config, s: Server, choice: Choice)
    requires Tasks(cfg, s) && Io(cfg, s)
    ensures Io(cfg, DoOffer(s, choice))
  {
    if s.receiver.Offering? {
      OfferEffects(s, choice);
      IoOfferEffect(cfg, s, DoOffer(s, choice), choice);
    }
  }

  lemma IoFinishData(cfg: Config, s: Server)
    requires Tasks(cfg, s) && Io(cfg, s)
    ensures Io(cfg, DoFinishData(s))
  {
    if s.receiver.AfterData? {
      var h := s.receiver.h;
      var s' := DoFinishData(s);
      CloseSendOk(cfg, s.tasks[h]);
      forall j | 0 <= j < |s.tasks| ensures OfferedOk(s'.tasks[j], InHand(s', j)) {
        assert OfferedOk(s.tasks[j], InHand(s, j));
      }
    }
  }

  /** A step that changes no goroutine and offers nothing keeps the flows. */
  lemma IoKept(cfg: Config, s: Server, s': Server)
    requires Io(cfg, s) && s'.tasks == s.tasks
    requires s'.receiver == s.receiver || (!s.receiver.Offering? && !s'.receiver.Offering? && !s'.receiver.Panicked?)
    ensures Io(cfg, s')
  {
    forall j | 0 <= j < |s.tasks| ensures OfferedOk(s'.tasks[j], InHand(s', j)) {
      assert OfferedOk(s.tasks[j], InHand(s, j));
    }
  }

  /** One goroutine handing over, receiving or being written for. */
  lemma IoOneTask(cfg: Config, s: Server, s': Server, h: nat, t: Task)
    requires Io(cfg, s) && h < |s.tasks| && s'.tasks == s.tasks[h := t] && s'.receiver == s.receiver
    requires TaskOk(cfg, t) && t.accepted == s.tasks[h].accepted && t.offered == s.tasks[h].offered
    requires t.refused == s.tasks[h].refused && t.remoteClosed == s.tasks[h].remoteClosed
    ensures Io(cfg, s')
  {
    forall j | 0 <= j < |s.tasks| ensures OfferedOk(s'.tasks[j], InHand(s', j)) {
      assert OfferedOk(s.tasks[j], InHand(s, j));
    }
  }

  lemma OfferToOk(cfg: Config, t: Task, item: Item)
    requires TaskOk(cfg, t) && OfferedOk(t, [])
    ensures TaskOk(cfg, OfferTo(t, item)) && OfferedOk(OfferTo(t, item), [item])
  {
    assert t.accepted + [] == t.accepted;
    SubseqBoth(t.accepted, t.offered, item);
  }

  lemma IoMissed(cfg: Config, s: Server, m: Msg)
    requires Known(s.byId, s.tasks)
    requires Io(cfg, s) && !s.receiver.Offering?
    ensures Io(cfg, NoteMissed(s, m))
  {
    if IsData(m) && m.frame.sid in s.byId {
      var h := s.byId[m.frame.sid];
      assert TaskOk(cfg, s.tasks[h]);
      MissedOk(cfg, s.tasks[h]);
      IoOneTask(cfg, s, NoteMissed(s, m), h, s.tasks[h].(missed := true));
    }
  }

  lemma MissedOk(cfg: Config, t: Task)
    requires TaskOk(cfg, t)
    ensures TaskOk(cfg, t.(missed := true))
  {
  }

  lemma IoOffered(cfg: Config, s: Server, s': Server, h: nat, item: Item)
    requires Io(cfg, s) && !s.receiver.Offering? && h < |s.tasks|
    requires s'.tasks == s.tasks[h := OfferTo(s.tasks[h], item)]
    requires s'.receiver.Offering? && s'.receiver.h == h && s'.receiver.item == item && s'.receiver.stage.CheckClosed?
    ensures Io(cfg, s')
  {
    assert OfferedOk(s.tasks[h], InHand(s, h));
    OfferToOk(cfg, s.tasks[h], item);
    forall j | 0 <= j < |s.tasks| ensures OfferedOk(s'.tasks[j], InHand(s', j)) {
      assert OfferedOk(s.tasks[j], InHand(s, j));
    }
  }

  lemma IoData(cfg: Config, s: Server, s': Server, m: Msg)
    requires Known(s.byId, s.tasks) && TableOk(s)
    requires Io(cfg, s) && !s.receiver.Offering? && !s.receiver.Panicked? && DataEffect(s, s', m)
    ensures Io(cfg, s')
  {
    if m.frame.sid !in s.table {
      IoMissed(cfg, s, m);
      IoKept(cfg, NoteMissed(s, m), s');
    } else if s'.receiver.Offering? {
      IoOffered(cfg, s, s', s'.receiver.h, s'.receiver.item);
    } else if !s'.receiver.Panicked? {
      IoKept(cfg, s, s');
    }
  }

  lemma IoRequest(cfg: Config, s: Server, s': Server, m: Msg)
    requires Io(cfg, s) && !s.receiver.Offering? && RequestEffect(cfg, s, s', m)
    ensures Io(cfg, s')
  {
    if |s'.tasks| != |s.tasks| {
      var n := |s.tasks|;
      var t := s'.tasks[n];
      FreshOk(cfg, t, m);
      assert [] + InHand(s', n) == t.offered;
      SubseqSelf(t.offered);
    }
    forall j | 0 <= j < |s.tasks| ensures OfferedOk(s'.tasks[j], InHand(s', j)) && TaskOk(cfg, s'.tasks[j]) {
      assert OfferedOk(s.tasks[j], InHand(s, j)) && TaskOk(cfg, s.tasks[j]);
      assert s'.tasks[j] == s.tasks[j];
    }
  }

  lemma IoDispatch(cfg: Config, s: Server, budget: nat)
    requires Tasks(cfg, s) && Io(cfg, s)
    ensures Io(cfg, DoDispatch(cfg, s, budget))
  {
    if s.receiver.Got? {
      var m := s.receiver.m;
      var s1 := Noted(s);
      IoKept(cfg, s, s1);
      DispatchCases(cfg, s, budget);
      var s' := DoDispatch(cfg, s, budget);
      if !Unacceptable(m) && m.frame.typ == DATA {
        DataEffects(s1, m);
        IoData(cfg, s1, s', m);
      } else if !Unacceptable(m) && m.frame.typ == REQUEST {
        RequestEffects(cfg, s1, m, budget);
        IoRequest(cfg, s1, s', m);
      } else {
        IoKept(cfg, s1, s');
      }
    }
  }

  lemma ReceiverKept(cfg: Config, s: Server, re: ReceiverEvent)
    requires !re.Dispatch? && !re.Offer? && !re.FinishData?
    ensures var s' := DoReceiver(cfg, s, re);
            && s'.tasks == s.tasks && s'.w == s.w && s'.main == s.main && s'.statusIds == s.statusIds
            && s'.received == s.received && s'.byId == s.byId && s'.bufs == s.bufs && s'.lastId == s.lastId
            && (s'.receiver == s.receiver
                || (!s.receiver.Offering? && !s'.receiver.Offering? && !s'.receiver.Panicked? && !s'.receiver.SendingStatus?))
  {
  }

  lemma IoReceiver(cfg: Config, s: Server, re: ReceiverEvent)
    requires Tasks(cfg, s) && Io(cfg, s)
    ensures Io(cfg, DoReceiver(cfg, s, re))
  {
    if re.Dispatch? { IoDispatch(cfg, s, re.budget); }
    else if re.Offer? { IoOffer(cfg, s, re.choice); }
    else if re.FinishData? { IoFinishData(cfg, s); }
    else {
      ReceiverKept(cfg, s, re);
      IoKept(cfg, s, DoReceiver(cfg, s, re));
    }
  }

  lemma IoTask(cfg: Config, s: Server, h: nat, te: TaskEvent)
    requires Io(cfg, s)
    ensures Io(cfg, DoTask(cfg, s, h, te))
  {
    if h < |s.tasks| && TaskCan(cfg, s.tasks[h], te, s.main.Ended?) {
      TaskStepOk(cfg, s.tasks[h], te, s.main.Ended?);
      TaskStepSame(cfg, s.tasks[h], te, s.main.Ended?);
      IoOneTask(cfg, s, DoTask(cfg, s, h, te), h, TaskStep(cfg, s.tasks[h], te, s.main.Ended?));
    }
  }

  // ---------------------------------------------------------------- what is written

  /** While the response loop runs, what a goroutine has handed over has been written, but for the one
      response the loop holds. */
  ghost predicate Pipeline(s: Server) {
    && (s.main.Have? || s.main.Forgetting? || s.main.Discounting? ==> s.main.src.Some? ==> s.main.src.value < |s.tasks|)
    && (!s.main.Left? && !s.main.Ended? ==>
          forall h | 0 <= h < |s.tasks| ::
            s.tasks[h].handed ==
            s.tasks[h].outs + (if s.main.Have? && s.main.src == Some(h) then [s.main.o] else []))
  }

  lemma IoTakeFrom(cfg: Config, s: Server, h: nat)
    requires Io(cfg, s) && Pipeline(s)
    ensures Io(cfg, DoTakeFrom(s, h)) && Pipeline(DoTakeFrom(s, h))
  {
    if s.main.Selecting? && h < |s.tasks| && (s.tasks[h].pc.Sending? || s.tasks[h].pc.Final?) {
      HandedOk(cfg, s.tasks[h]);
      IoOneTask(cfg, s, DoTakeFrom(s, h), h, Handed(s.tasks[h]));
    }
  }

  /** The response loop writes what it holds, whole or not at all, and leaves after a failure. */
  ghost predicate WriteEffect(cfg: Config, s: Server, s': Server)
    requires s.main.Have?
  {
    var Have(o, src) := s.main;
    && s'.receiver == s.receiver && s'.byId == s.byId && s'.table == s.table && s'.received == s.received
    && s'.statusIds == s.statusIds && s'.ledger == s.ledger && s'.bufs == s.bufs && s'.lastId == s.lastId
    && s'.w.Valid()
    && (s'.main == (if o.closeStream then Forgetting(o, src) else Looping) || s'.main.Left?)
    && (if s'.w.frames == s.w.frames then s'.main.Left? && s'.tasks == s.tasks
        else
          && s'.w.frames == s.w.frames + [FrameOf(cfg, o)]
          && s'.tasks == if src.Some? && src.value < |s.tasks|
                         then s.tasks[src.value := s.tasks[src.value].(outs := s.tasks[src.value].outs + [o])] else s.tasks)
  }

  lemma WriteEffects(cfg: Config, s: Server, fate: Fate)
    requires s.main.Have? && s.w.Valid()
    ensures WriteEffect(cfg, s, DoWrite(cfg, s, fate))
  {
    SendKeepsWriter(s.w, FrameOf(cfg, s.main.o), fate);
  }

  lemma IoWrite(cfg: Config, s: Server, s': Server)
    requires Io(cfg, s) && Pipeline(s) && s.main.Have? && WriteEffect(cfg, s, s')
    ensures Io(cfg, s') && Pipeline(s')
  {
    PipelineWrite(cfg, s, s');
    if s'.tasks == s.tasks {
      IoKept(cfg, s, s');
    } else {
      var h := s.main.src.value;
      assert TaskOk(cfg, s.tasks[h]);
      WrittenOk(cfg, s.tasks[h], s.main.o);
      IoOneTask(cfg, s, s', h, s.tasks[h].(outs := s.tasks[h].outs + [s.main.o]));
    }
  }

  lemma WrittenOk(cfg: Config, t: Task, o: Out)
    requires TaskOk(cfg, t) && t.handed == t.outs + [o]
    ensures TaskOk(cfg, t.(outs := t.outs + [o]))
  {
  }

  lemma PipelineWrite(cfg: Config, s: Server, s': Server)
    requires Pipeline(s) && s.main.Have? && WriteEffect(cfg, s, s')
    ensures Pipeline(s')
  {
  }
}
