/** Receive buffers on the server: a request's is put back once it is decoded, a data message's when
    the method's RecvMsg has run its closure, and none twice or while a closure can still read it. */
module ServerBuffers {
  import opened Types
  import opened StreamQueue
  import opened ServerEngine
  import opened ServerTasks
  import opened ServerIo
  import opened ServerInputs

  /** The closures a goroutine has had, in order: run, queued, and in the receiver's hand. */
  function Flow(t: Task, inHand: seq<Item>): seq<Item> { t.accepted + inHand }

  ghost predicate Rising(flow: seq<Item>) {
    forall i, j | 0 <= i < j < |flow| && flow[i].tok.Some? && flow[j].tok.Some? :: flow[i].tok.value < flow[j].tok.value
  }

  /** Every closure reads the buffer of a data message of its own stream. */
  ghost predicate OwnData(flow: seq<Item>, id: uint32, received: seq<Msg>) {
    forall i | 0 <= i < |flow| && flow[i].tok.Some? ::
      flow[i].tok.value < |received| && DataFor(received[flow[i].tok.value], id)
  }

  /** The closures from position `from` on have not run: their buffers are not in the pool. */
  ghost predicate NotPut(flow: seq<Item>, from: nat, puts: set<nat>) {
    forall i | from <= i < |flow| && flow[i].tok.Some? :: flow[i].tok.value !in puts
  }

  ghost predicate FlowOk(t: Task, inHand: seq<Item>, received: seq<Msg>, puts: set<nat>) {
    var flow := Flow(t, inHand);
    Rising(flow) && OwnData(flow, t.id, received) && NotPut(flow, |t.got|, puts)
  }

  ghost predicate BuffersOk(s: Server) {
    && !s.bufs.doublePut
    && (forall t | t in s.bufs.puts :: t < |s.received|)
    && (forall h | 0 <= h < |s.tasks| :: FlowOk(s.tasks[h], InHand(s, h), s.received, s.bufs.puts))
  }

  lemma OwnDataMore(flow: seq<Item>, id: uint32, received: seq<Msg>, m: Msg)
    requires OwnData(flow, id, received)
    ensures OwnData(flow, id, received + [m])
  {
  }

  lemma FlowNoted(s: Server)
    requires BuffersOk(s) && s.receiver.Got?
    ensures BuffersOk(Noted(s))
  {
    forall h | 0 <= h < |s.tasks| ensures FlowOk(s.tasks[h], InHand(Noted(s), h), Noted(s).received, s.bufs.puts) {
      assert FlowOk(s.tasks[h], InHand(s, h), s.received, s.bufs.puts);
      OwnDataMore(Flow(s.tasks[h], InHand(s, h)), s.tasks[h].id, s.received, s.receiver.m);
    }
  }

  /** Steps that move no closure. */
  ghost predicate FlowsSame(s: Server, s': Server) {
    && |s'.tasks| == |s.tasks| && s'.received == s.received && s'.bufs == s.bufs
    && (s'.receiver == s.receiver || (!s.receiver.Offering? && !s'.receiver.Offering?))
    && (forall h | 0 <= h < |s.tasks| ::
          s'.tasks[h].id == s.tasks[h].id && s'.tasks[h].got == s.tasks[h].got && s'.tasks[h].accepted == s.tasks[h].accepted)
  }

  lemma FlowsKept(s: Server, s': Server)
    requires BuffersOk(s) && FlowsSame(s, s')
    ensures BuffersOk(s')
  {
    forall h | 0 <= h < |s'.tasks| ensures FlowOk(s'.tasks[h], InHand(s', h), s'.received, s'.bufs.puts) {
      assert FlowOk(s.tasks[h], InHand(s, h), s.received, s.bufs.puts);
    }
  }

  lemma FlowOffered(t: Task, item: Item, received: seq<Msg>, puts: set<nat>, n: nat)
    requires FlowOk(t, [], received, puts) && |t.got| <= |t.accepted|
    requires forall i | 0 <= i < |t.accepted| && t.accepted[i].tok.Some? :: t.accepted[i].tok.value < n
    requires item.tok == Some(n) && n < |received| && DataFor(received[n], t.id) && n !in puts
    ensures FlowOk(OfferTo(t, item), [item], received, puts)
  {
    assert t.accepted + [] == t.accepted;
  }

  lemma BuffersOffered(cfg: Config, s: Server, s': Server, h: nat, item: Item, n: nat)
    requires BuffersOk(s) && h < |s.tasks| && !s.receiver.Offering? && TaskOk(cfg, s.tasks[h])
    requires s'.tasks == s.tasks[h := OfferTo(s.tasks[h], item)] && s'.received == s.received && s'.bufs == s.bufs
    requires s'.receiver.Offering? && s'.receiver.h == h && s'.receiver.item == item
    requires item.tok == Some(n) && n < |s.received| && DataFor(s.received[n], s.tasks[h].id) && n !in s.bufs.puts
    requires forall i | 0 <= i < |s.tasks[h].accepted| && s.tasks[h].accepted[i].tok.Some? ::
               s.tasks[h].accepted[i].tok.value < n
    ensures BuffersOk(s')
  {
    assert FlowOk(s.tasks[h], InHand(s, h), s.received, s.bufs.puts);
    FlowOffered(s.tasks[h], item, s.received, s.bufs.puts, n);
    forall j | 0 <= j < |s'.tasks| ensures FlowOk(s'.tasks[j], InHand(s', j), s'.received, s'.bufs.puts) {
      assert FlowOk(s.tasks[j], InHand(s, j), s.received, s.bufs.puts);
    }
  }

  lemma BuffersData(cfg: Config, s: Server, s': Server)
    requires Tasks(cfg, s) && AllTasksOk(cfg, s.tasks) && BuffersOk(s) && s.receiver.Got?
    requires s.receiver.m.frame.typ == DATA
    requires DataEffect(Noted(s), s', s.receiver.m)
    ensures BuffersOk(s')
  {
    var m := s.receiver.m;
    FlowNoted(s);
    if s'.receiver.Offering? {
      var h := s'.receiver.h;
      OldTokens(s.tasks[h], InHand(s, h), s.received, s.bufs.puts);
      assert Noted(s).received[|s.received|] == m;
      BuffersOffered(cfg, Noted(s), s', h, s'.receiver.item, m.tok);
    } else {
      DataFlowsSame(s, s');
      FlowsKept(Noted(s), s');
    }
  }

  /** The closures a goroutine already has read buffers of earlier messages. */
  lemma OldTokens(t: Task, inHand: seq<Item>, received: seq<Msg>, puts: set<nat>)
    requires FlowOk(t, inHand, received, puts)
    ensures forall i | 0 <= i < |t.accepted| && t.accepted[i].tok.Some? :: t.accepted[i].tok.value < |received|
  {
    assert forall i | 0 <= i < |t.accepted| :: Flow(t, inHand)[i] == t.accepted[i];
  }

  lemma DataFlowsSame(s: Server, s': Server)
    requires s.receiver.Got? && DataEffect(Noted(s), s', s.receiver.m) && !s'.receiver.Offering?
    ensures FlowsSame(Noted(s), s')
  {
  }

  lemma FreshFlow(t: Task, inHand: seq<Item>, received: seq<Msg>, puts: set<nat>)
    requires t.accepted == [] && t.got == [] && (inHand == [] || (|inHand| == 1 && inHand[0].tok.None?))
    ensures FlowOk(t, inHand, received, puts)
  {
  }

  /** A decoded request's buffer belongs to no closure. */
  lemma FlowPut(t: Task, inHand: seq<Item>, received: seq<Msg>, puts: set<nat>, n: nat)
    requires FlowOk(t, inHand, received, puts) && n < |received| && !DataFor(received[n], t.id)
    ensures FlowOk(t, inHand, received, puts + {n})
  {
    var flow := Flow(t, inHand);
    forall i | |t.got| <= i < |flow| && flow[i].tok.Some? ensures flow[i].tok.value !in puts + {n} {
      assert DataFor(received[flow[i].tok.value], t.id);
    }
  }

  /** What a request message does to the pool and the receiver's hand. */
  lemma RequestBuffers(cfg: Config, s: Server, m: Msg, budget: nat)
    ensures var s' := DispatchRequest(cfg, s, m, budget);
            && s'.received == s.received
            && (s'.bufs == s.bufs || s'.bufs == s.bufs.Put({m.tok}))
  {
  }

  lemma BuffersRequest(cfg: Config, s: Server, s': Server)
    requires Tasks(cfg, s) && BuffersOk(s) && s.receiver.Got?
    requires s.receiver.m.frame.typ == REQUEST
    requires RequestEffect(cfg, Noted(s), s', s.receiver.m)
    requires s'.received == s.received + [s.receiver.m]
    requires s'.bufs == s.bufs || s'.bufs == s.bufs.Put({s.receiver.m.tok})
    ensures BuffersOk(s')
  {
    var m := s.receiver.m;
    var s1 := Noted(s);
    FlowNoted(s);
    assert s1.received[|s.received|] == m;
    forall h | 0 <= h < |s'.tasks| ensures FlowOk(s'.tasks[h], InHand(s', h), s'.received, s'.bufs.puts) {
      if h < |s.tasks| {
        assert s'.tasks[h] == s.tasks[h];
        assert FlowOk(s1.tasks[h], InHand(s1, h), s1.received, s1.bufs.puts);
        FlowPut(s1.tasks[h], InHand(s1, h), s1.received, s1.bufs.puts, m.tok);
      } else {
        FreshFlow(s'.tasks[h], InHand(s', h), s'.received, s'.bufs.puts);
      }
    }
  }

  lemma BuffersDispatch(cfg: Config, s: Server, budget: nat)
    requires Tasks(cfg, s) && AllTasksOk(cfg, s.tasks) && BuffersOk(s)
    ensures BuffersOk(DoDispatch(cfg, s, budget))
  {
    if s.receiver.Got? {
      var m := s.receiver.m;
      var s' := DoDispatch(cfg, s, budget);
      DispatchCases(cfg, s, budget);
      if !Unacceptable(m) && m.frame.typ == DATA {
        DataEffects(Noted(s), m);
        BuffersData(cfg, s, s');
      } else if !Unacceptable(m) && m.frame.typ == REQUEST {
        RequestEffects(cfg, Noted(s), m, budget);
        RequestBuffers(cfg, Noted(s), m, budget);
        BuffersRequest(cfg, s, s');
      } else {
        FlowNoted(s);
        FlowsKept(Noted(s), s');
      }
    }
  }

  lemma AffectFlow(t: Task, item: Item, v: Verdict)
    requires !v.Panic?
    ensures var t' := Affect(t, item, v);
            && t'.id == t.id && t'.got == t.got
            && (v.Entered? ==> Flow(t', []) == Flow(t, [item]))
            && (!v.Entered? ==> t'.accepted == t.accepted)
  {
    assert t.accepted + [item] + [] == t.accepted + [item];
  }

  /** A refused closure is dropped without being run. */
  lemma FlowDropped(t: Task, item: Item, received: seq<Msg>, puts: set<nat>)
    requires FlowOk(t, [item], received, puts)
    ensures FlowOk(t.(refused := true), [], received, puts)
  {
    assert t.accepted + [] == t.accepted;
    var flow := Flow(t, [item]);
    assert forall i | 0 <= i < |t.accepted| :: flow[i] == t.accepted[i];
  }

  lemma BuffersOfferEffect(cfg: Config, s: Server, s': Server, choice: Choice)
    requires Io(cfg, s) && BuffersOk(s) && s.receiver.Offering? && s.receiver.h < |s.tasks|
    requires OfferEffect(s, s', Decide(s.tasks[s.receiver.h], s.receiver.stage, choice))
    ensures BuffersOk(s')
  {
    var Offering(h, item, source, stage) := s.receiver;
    var t := s.tasks[h];
    var v := Decide(t, stage, choice);
    assert TaskOk(cfg, t) && FlowOk(t, InHand(s, h), s.received, s.bufs.puts);
    AffectFlow(t, item, v);
    if v.Rejected? { FlowDropped(t, item, s.received, s.bufs.puts); }
    forall j | 0 <= j < |s'.tasks| ensures FlowOk(s'.tasks[j], InHand(s', j), s'.received, s'.bufs.puts) {
      assert FlowOk(s.tasks[j], InHand(s, j), s.received, s.bufs.puts);
    }
  }

  lemma BuffersOffer(cfg: Config, s: Server, choice: Choice)
    requires Tasks(cfg, s) && Io(cfg, s) && BuffersOk(s)
    ensures BuffersOk(DoOffer(s, choice))
  {
    if s.receiver.Offering? {
      OfferEffects(s, choice);
      BuffersOfferEffect(cfg, s, DoOffer(s, choice), choice);
    }
  }

  lemma BuffersReceiver(cfg: Config, s: Server, re: ReceiverEvent)
    requires Tasks(cfg, s) && Io(cfg, s) && BuffersOk(s)
    ensures BuffersOk(DoReceiver(cfg, s, re))
  {
    if re.Dispatch? { BuffersDispatch(cfg, s, re.budget); }
    else if re.Offer? { BuffersOffer(cfg, s, re.choice); }
    else {
      QuietFlows(cfg, s, re);
      FlowsKept(s, DoReceiver(cfg, s, re));
    }
  }

  lemma QuietFlows(cfg: Config, s: Server, re: ReceiverEvent)
    requires !re.Dispatch? && !re.Offer?
    ensures FlowsSame(s, DoReceiver(cfg, s, re))
  {
  }

  /** Running the first queued closure puts back a buffer no other closure reads. */
  lemma RecvPutsOwn(cfg: Config, t: Task, inHand: seq<Item>, received: seq<Msg>, puts: set<nat>)
    requires TaskOk(cfg, t) && FlowOk(t, inHand, received, puts) && TaskCan(cfg, t, RecvMsg, false)
    ensures var t' := TaskStep(cfg, t, RecvMsg, false);
            && FlowOk(t', inHand, received, puts + TaskPut(t, RecvMsg))
            && (forall n | n in TaskPut(t, RecvMsg) :: n !in puts && n < |received| && DataFor(received[n], t.id))
  {
    var flow := Flow(t, inHand);
    if t.inbox != [] {
      assert flow[|t.got|] == t.accepted[|t.got|] == t.inbox[0];
    }
  }

  lemma BuffersRecvMsg(cfg: Config, s: Server, h: nat)
    requires Tasks(cfg, s) && AllTasksOk(cfg, s.tasks) && BuffersOk(s)
    requires h < |s.tasks| && TaskCan(cfg, s.tasks[h], RecvMsg, false)
    requires TaskCan(cfg, s.tasks[h], RecvMsg, s.main.Ended?)
    ensures BuffersOk(DoTask(cfg, s, h, RecvMsg))
  {
    var t := s.tasks[h];
    assert TaskOk(cfg, t) && FlowOk(t, InHand(s, h), s.received, s.bufs.puts);
    RecvPutsOwn(cfg, t, InHand(s, h), s.received, s.bufs.puts);
    assert TaskStep(cfg, t, RecvMsg, s.main.Ended?) == TaskStep(cfg, t, RecvMsg, false);
    BuffersPut(s, DoTask(cfg, s, h, RecvMsg), h, TaskStep(cfg, t, RecvMsg, false), TaskPut(t, RecvMsg));
  }

  /** Putting back buffers of one goroutine's own data. */
  lemma BuffersPut(s: Server, s': Server, h: nat, t: Task, put: set<nat>)
    requires Known(s.byId, s.tasks) && BuffersOk(s) && h < |s.tasks|
    requires s'.tasks == s.tasks[h := t] && s'.received == s.received && s'.receiver == s.receiver && s'.bufs == s.bufs.Put(put)
    requires FlowOk(t, InHand(s, h), s.received, s.bufs.puts + put)
    requires forall n | n in put :: n !in s.bufs.puts && n < |s.received| && DataFor(s.received[n], s.tasks[h].id)
    ensures BuffersOk(s')
  {
    forall j | 0 <= j < |s'.tasks| ensures FlowOk(s'.tasks[j], InHand(s', j), s'.received, s'.bufs.puts) {
      assert FlowOk(s.tasks[j], InHand(s, j), s.received, s.bufs.puts);
      if j != h { FlowPutOther(s.tasks[j], InHand(s, j), s.received, s.bufs.puts, put); }
    }
  }

  lemma FlowPutOther(t: Task, inHand: seq<Item>, received: seq<Msg>, puts: set<nat>, put: set<nat>)
    requires FlowOk(t, inHand, received, puts)
    requires forall n | n in put :: n < |received| && !DataFor(received[n], t.id)
    ensures FlowOk(t, inHand, received, puts + put)
  {
    var flow := Flow(t, inHand);
    forall i | |t.got| <= i < |flow| && flow[i].tok.Some? ensures flow[i].tok.value !in puts + put {
      assert DataFor(received[flow[i].tok.value], t.id);
    }
  }

  lemma BuffersNoRecv(cfg: Config, s: Server, h: nat, te: TaskEvent)
    requires BuffersOk(s) && h < |s.tasks| && TaskCan(cfg, s.tasks[h], te, s.main.Ended?) && !te.RecvMsg?
    ensures BuffersOk(DoTask(cfg, s, h, te))
  {
    TaskStepSame(cfg, s.tasks[h], te, s.main.Ended?);
    NoPut(cfg, s, h, te);
    FlowsKept(s, DoTask(cfg, s, h, te));
  }

  lemma BuffersTask(cfg: Config, s: Server, h: nat, te: TaskEvent)
    requires Tasks(cfg, s) && AllTasksOk(cfg, s.tasks) && BuffersOk(s)
    ensures BuffersOk(DoTask(cfg, s, h, te))
  {
    if h < |s.tasks| && TaskCan(cfg, s.tasks[h], te, s.main.Ended?) {
      if te.RecvMsg? { BuffersRecvMsg(cfg, s, h); } else { BuffersNoRecv(cfg, s, h, te); }
    }
  }

  lemma NoPut(cfg: Config, s: Server, h: nat, te: TaskEvent)
    requires h < |s.tasks| && TaskCan(cfg, s.tasks[h], te, s.main.Ended?) && !te.RecvMsg?
    ensures DoTask(cfg, s, h, te).bufs == s.bufs
    ensures TaskStep(cfg, s.tasks[h], te, s.main.Ended?).got == s.tasks[h].got
  {
  }

  lemma BuffersMain(cfg: Config, s: Server, me: MainEvent)
    requires BuffersOk(s) && s.w.Valid()
    ensures BuffersOk(DoMain(cfg, s, me))
  {
    if me.Write? {
      if s.main.Have? { WriteEffects(cfg, s, me.fate); FlowsKept(s, DoMain(cfg, s, me)); }
    } else if me.TakeFrom? {
      FlowsKept(s, DoTakeFrom(s, me.h));
    } else {
      MainKeepsTasks(cfg, s, me);
      MainBuffers(cfg, s, me);
      FlowsKept(s, DoMain(cfg, s, me));
    }
  }

  lemma MainBuffers(cfg: Config, s: Server, me: MainEvent)
    requires !me.TakeFrom? && !me.Write?
    ensures DoMain(cfg, s, me).bufs == s.bufs
    ensures DoMain(cfg, s, me).receiver == s.receiver || !s.receiver.Offering?
  {
  }
}
