/** The server's bookkeeping: which method goroutine belongs to which accepted request, and the
    ledger kept in `active`. */
module ServerTasks {
  import opened Types
  import opened Framing
  import opened StreamQueue
  import opened ServerEngine

  /** What a goroutine never changes. */
  predicate Same(t: Task, t': Task) {
    t'.id == t.id && t'.req == t.req && t'.kind == t.kind && t'.at == t.at && t'.cap == t.cap
  }

  /** The goroutine was started by exactly the request its `at` names. */
  ghost predicate Origin(cfg: Config, t: Task, received: seq<Msg>) {
    && t.at < |received|
    && received[t.at].tok == t.at
    && received[t.at].frame.typ == REQUEST
    && received[t.at].frame.sid == t.id
    && cfg.reqDec(received[t.at].frame.payload) == Some(t.req)
    && cfg.kindOf(t.req.service, t.req.name) == Some(t.kind)
  }

  ghost predicate Known(byId: map<uint32, nat>, tasks: seq<Task>) {
    && (forall id | id in byId :: byId[id] < |tasks| && tasks[byId[id]].id == id)
    && (forall h | 0 <= h < |tasks| :: tasks[h].id in byId && byId[tasks[h].id] == h)
  }

  ghost predicate Accounted(cfg: Config, tasks: seq<Task>, received: seq<Msg>, lastId: uint32) {
    forall h | 0 <= h < |tasks| :: Origin(cfg, tasks[h], received) && tasks[h].id <= lastId && tasks[h].id % 2 == 1
  }

  ghost predicate TableOk(s: Server) {
    forall id | id in s.table :: id in s.byId && s.table[id] == s.byId[id]
  }

  /** The goroutine the receiver is working on. */
  function Working(r: Receiver): Option<nat> {
    match r
    case Offering(h, _, _, _) => Some(h)
    case AfterData(h, _) => Some(h)
    case Storing(h) => Some(h)
    case Counting(h) => Some(h)
    case _ => None
  }

  ghost predicate Tasks(cfg: Config, s: Server) {
    && Known(s.byId, s.tasks)
    && Accounted(cfg, s.tasks, s.received, s.lastId)
    && TableOk(s)
    && (Working(s.receiver).Some? ==> Working(s.receiver).value < |s.tasks|)
    && (s.receiver.Got? ==> s.receiver.m.tok == |s.received|)
  }

  /** A step that starts no goroutine and dispatches nothing. */
  ghost predicate Plain(s: Server, s': Server) {
    && |s'.tasks| == |s.tasks|
    && (forall h | 0 <= h < |s.tasks| :: Same(s.tasks[h], s'.tasks[h]))
    && s'.byId == s.byId && s'.lastId == s.lastId && s'.received == s.received
    && (s'.receiver.Got? ==> s'.receiver == s.receiver || s'.receiver.m.tok == |s.received|)
    && (Working(s'.receiver).Some? ==> Working(s'.receiver) == Working(s.receiver))
  }

  /** The goroutine list after a step that touches one goroutine. */
  predicate OneTask(s: Server, s': Server, h: nat, t: Task) {
    h < |s.tasks| && Same(s.tasks[h], t) && s'.tasks == s.tasks[h := t]
  }

  lemma OneTaskPlain(s: Server, s': Server, h: nat, t: Task)
    requires OneTask(s, s', h, t)
    ensures |s'.tasks| == |s.tasks| && forall j | 0 <= j < |s.tasks| :: Same(s.tasks[j], s'.tasks[j])
  {
  }

  lemma AffectSame(t: Task, item: Item, v: Verdict)
    ensures Same(t, Affect(t, item, v))
  {
  }

  /** One select of data(): at most the offered-to goroutine changes, and the receiver moves on accordingly. */
  ghost predicate OfferEffect(s: Server, s': Server, v: Verdict)
    requires s.receiver.Offering? && s.receiver.h < |s.tasks|
  {
    var Offering(h, item, source, stage) := s.receiver;
    var t := s.tasks[h];
    && s'.tasks == s.tasks[h := Affect(t, item, v)]
    && s'.received == s.received && s'.bufs == s.bufs && s'.main == s.main && s'.w == s.w && s'.ledger == s.ledger
    && s'.statusIds == (if v.Rejected? then s.statusIds + {t.id} else s.statusIds)
    && s'.receiver == (match v
                       case NotReady => s.receiver
                       case Proceed(next) => Offering(h, item, source, next)
                       case Rejected => SendingStatus(DataError(t.id, source))
                       case Entered => if source.Initial? then Storing(h) else AfterData(h, source.m)
                       case Panic => Panicked(false))
  }

  lemma OfferEffects(s: Server, choice: Choice)
    requires s.receiver.Offering? && s.receiver.h < |s.tasks|
    ensures OfferEffect(s, DoOffer(s, choice), Decide(s.tasks[s.receiver.h], s.receiver.stage, choice))
  {
  }

  lemma PlainOffer(s: Server, choice: Choice)
    ensures Plain(s, DoOffer(s, choice)) && DoOffer(s, choice).table == s.table
  {
    if s.receiver.Offering? && s.receiver.h < |s.tasks| {
      var Offering(h, item, source, stage) := s.receiver;
      var v := Decide(s.tasks[h], stage, choice);
      AffectSame(s.tasks[h], item, v);
      OneTaskPlain(s, DoOffer(s, choice), h, Affect(s.tasks[h], item, v));
    }
  }

  lemma PlainFinishData(s: Server)
    ensures Plain(s, DoFinishData(s)) && DoFinishData(s).table == s.table
  {
  }

  lemma PlainReceiver(cfg: Config, s: Server, re: ReceiverEvent)
    requires !re.Dispatch?
    ensures Plain(s, DoReceiver(cfg, s, re))
  {
    match re
    case Loop =>
    case ReadFrame(_) =>
    case ReadFails(_) =>
    case Offer(choice) => PlainOffer(s, choice);
    case FinishData => PlainFinishData(s);
    case Store =>
    case Count =>
    case AbortStatus =>
    case PutErr =>
    case CloseErr =>
  }

  /** What a method's own steps leave alone. */
  predicate TaskKeeps(t: Task, t': Task) {
    t' == t.(inbox := t'.inbox, got := t'.got, ctxDone := t'.ctxDone, pc := t'.pc, left := t'.left, produced := t'.produced,
             eof := t'.eof)
  }

  lemma TaskStepSame(cfg: Config, t: Task, te: TaskEvent, done: bool)
    requires TaskCan(cfg, t, te, done)
    ensures TaskKeeps(t, TaskStep(cfg, t, te, done))
  {
    match te
    case RecvMsg =>
    case SendMsg(_) =>
    case AbortSend =>
    case Finish(_, _) =>
    case AbortFinal =>
    case Cancel =>
  }

  lemma PlainTask(cfg: Config, s: Server, h: nat, te: TaskEvent)
    ensures Plain(s, DoTask(cfg, s, h, te))
    ensures DoTask(cfg, s, h, te).table == s.table
  {
    if h < |s.tasks| && TaskCan(cfg, s.tasks[h], te, s.main.Ended?) {
      TaskStepSame(cfg, s.tasks[h], te, s.main.Ended?);
    }
  }

  lemma PlainWrite(cfg: Config, s: Server, fate: Fate)
    ensures Plain(s, DoWrite(cfg, s, fate)) && DoWrite(cfg, s, fate).table == s.table
  {
  }

  /** A step that touches no goroutine at all, and leaves the receiver alone but for unblocking it. */
  predicate TasksKept(s: Server, s': Server) {
    && s'.tasks == s.tasks && s'.byId == s.byId && s'.lastId == s.lastId && s'.received == s.received
    && (s'.receiver == s.receiver || s'.receiver.Top?)
  }

  lemma MainKeepsTasks(cfg: Config, s: Server, me: MainEvent)
    requires !me.TakeFrom? && !me.Write?
    ensures TasksKept(s, DoMain(cfg, s, me))
  {
  }

  lemma PlainTakeFrom(s: Server, h: nat)
    ensures Plain(s, DoTakeFrom(s, h)) && DoTakeFrom(s, h).table == s.table
  {
    if h < |s.tasks| && (s.tasks[h].pc.Sending? || s.tasks[h].pc.Final?) && s.main.Selecting? {
      OneTaskPlain(s, DoTakeFrom(s, h), h, Handed(s.tasks[h]));
    }
  }

  lemma KeptPlain(s: Server, s': Server)
    requires TasksKept(s, s')
    ensures Plain(s, s')
  {
  }

  lemma PlainMain(cfg: Config, s: Server, me: MainEvent)
    ensures Plain(s, DoMain(cfg, s, me))
  {
    if me.Write? { PlainWrite(cfg, s, me.fate); }
    else if me.TakeFrom? { PlainTakeFrom(s, me.h); }
    else {
      MainKeepsTasks(cfg, s, me);
      KeptPlain(s, DoMain(cfg, s, me));
    }
  }

  lemma MainTable(cfg: Config, s: Server, me: MainEvent)
    ensures DoMain(cfg, s, me).table ==
            if me.Forget? && s.main.Forgetting? then s.table - {s.main.o.id} else s.table
  {
  }

  lemma TasksPlain(cfg: Config, s: Server, s': Server)
    requires Tasks(cfg, s) && Plain(s, s') && TableOk(s')
    ensures Tasks(cfg, s')
  {
    forall h | 0 <= h < |s'.tasks|
      ensures Origin(cfg, s'.tasks[h], s'.received) && s'.tasks[h].id <= s'.lastId && s'.tasks[h].id % 2 == 1
    {
      assert Same(s.tasks[h], s'.tasks[h]);
    }
  }

  lemma TableStore(cfg: Config, s: Server)
    requires Tasks(cfg, s)
    ensures TableOk(DoStore(s))
  {
  }

  // ---------------------------------------------------------------- dispatching a message

  lemma ReceivedMore(cfg: Config, tasks: seq<Task>, received: seq<Msg>, m: Msg, lastId: uint32, lastId': uint32)
    requires Accounted(cfg, tasks, received, lastId) && lastId <= lastId'
    ensures Accounted(cfg, tasks, received + [m], lastId')
  {
    forall h | 0 <= h < |tasks| ensures Origin(cfg, tasks[h], received + [m]) {
      assert Origin(cfg, tasks[h], received);
    }
  }

  /** Changing one goroutine in its queue or its history keeps the bookkeeping. */
  lemma OneTaskKept(cfg: Config, tasks: seq<Task>, byId: map<uint32, nat>, received: seq<Msg>, lastId: uint32, h: nat, t: Task)
    requires Known(byId, tasks) && Accounted(cfg, tasks, received, lastId) && h < |tasks| && Same(tasks[h], t)
    ensures Known(byId, tasks[h := t]) && Accounted(cfg, tasks[h := t], received, lastId)
  {
    assert Origin(cfg, tasks[h], received);
    assert Origin(cfg, t, received);
  }

  lemma OneMoreTask(cfg: Config, tasks: seq<Task>, byId: map<uint32, nat>, received: seq<Msg>, lastId: uint32, t: Task)
    requires Known(byId, tasks) && Accounted(cfg, tasks, received, lastId)
    requires Origin(cfg, t, received) && t.id % 2 == 1 && t.id > lastId
    ensures Known(byId[t.id := |tasks|], tasks + [t]) && Accounted(cfg, tasks + [t], received, t.id)
    ensures t.id !in byId
  {
    assert forall h | 0 <= h < |tasks| :: Origin(cfg, tasks[h], received);
  }

  /** A data message changes the method its id is mapped to, if it is, and no other. */
  ghost predicate DataEffect(s: Server, s': Server, m: Msg) {
    && s'.byId == s.byId && s'.table == s.table && s'.lastId == s.lastId && s'.received == s.received
    && s'.main == s.main && s'.w == s.w && s'.ledger == s.ledger && s'.bufs == s.bufs && s'.err == s.err
    && s'.shutdown == s.shutdown && s'.state == s.state
    && (if m.frame.sid !in s.table then
          && s'.receiver == SendingStatus(Out(m.frame.sid, INVALID_ARGUMENT, None, true, false))
          && s'.statusIds == s.statusIds + {m.frame.sid}
          && s'.tasks == NoteMissed(s, m).tasks
        else
          var h := s.table[m.frame.sid];
          && s'.statusIds == s.statusIds
          && (if HasNoData(m.frame.flags) then s'.receiver == AfterData(h, m) && s'.tasks == s.tasks
              else if h >= |s.tasks| || s.tasks[h].kind.Unary? then s'.receiver == Panicked(true) && s'.tasks == s.tasks
              else
                var item := Item(m.frame.payload, Some(m.tok));
                && s'.receiver == Offering(h, item, FromFrame(m), CheckClosed)
                && s'.tasks == s.tasks[h := OfferTo(s.tasks[h], item)]))
  }

  lemma DataEffects(s: Server, m: Msg)
    ensures DataEffect(s, DispatchData(s, m), m)
  {
  }

  lemma TasksData(cfg: Config, s: Server, s': Server, m: Msg)
    requires Known(s.byId, s.tasks) && Accounted(cfg, s.tasks, s.received, s.lastId) && TableOk(s)
    requires DataEffect(s, s', m)
    ensures Tasks(cfg, s')
  {
    DataTasks(cfg, s, s', m);
    DataReceiver(s, s', m);
  }

  lemma DataTasks(cfg: Config, s: Server, s': Server, m: Msg)
    requires Known(s.byId, s.tasks) && Accounted(cfg, s.tasks, s.received, s.lastId)
    requires DataEffect(s, s', m)
    ensures Known(s'.byId, s'.tasks) && Accounted(cfg, s'.tasks, s'.received, s'.lastId)
  {
    if m.frame.sid !in s.table {
      TasksMissed(cfg, s, m);
    } else if s'.tasks != s.tasks {
      TasksOffered(cfg, s, s.table[m.frame.sid], Item(m.frame.payload, Some(m.tok)));
    }
  }

  lemma DataReceiver(s: Server, s': Server, m: Msg)
    requires Known(s.byId, s.tasks) && TableOk(s)
    requires DataEffect(s, s', m)
    ensures TableOk(s') && !s'.receiver.Got?
    ensures Working(s'.receiver).Some? ==> Working(s'.receiver).value < |s'.tasks|
  {
  }

  lemma TasksOffered(cfg: Config, s: Server, h: nat, item: Item)
    requires Known(s.byId, s.tasks) && Accounted(cfg, s.tasks, s.received, s.lastId) && h < |s.tasks|
    ensures var ts := s.tasks[h := OfferTo(s.tasks[h], item)];
            Known(s.byId, ts) && Accounted(cfg, ts, s.received, s.lastId)
  {
    OneTaskKept(cfg, s.tasks, s.byId, s.received, s.lastId, h, OfferTo(s.tasks[h], item));
  }

  lemma TasksMissed(cfg: Config, s: Server, m: Msg)
    requires Known(s.byId, s.tasks) && Accounted(cfg, s.tasks, s.received, s.lastId)
    ensures var ts := NoteMissed(s, m).tasks; Known(s.byId, ts) && Accounted(cfg, ts, s.received, s.lastId)
  {
    if IsData(m) && m.frame.sid in s.byId {
      var h := s.byId[m.frame.sid];
      OneTaskKept(cfg, s.tasks, s.byId, s.received, s.lastId, h, s.tasks[h].(missed := true));
    }
  }

  /** A request message either starts nothing or starts exactly the method it asks for, under a fresh
      id larger than every one before. */
  ghost predicate RequestEffect(cfg: Config, s: Server, s': Server, m: Msg) {
    && s'.table == s.table && s'.received == s.received && s.lastId <= s'.lastId
    && s'.main == s.main && s'.w == s.w && s'.ledger == s.ledger && s'.err == s.err
    && s'.shutdown == s.shutdown && s'.state == s.state
    && (if |s'.tasks| == |s.tasks| then
          && s'.tasks == s.tasks
          && s'.byId == s.byId && s'.receiver.SendingStatus?
          && s'.statusIds == s.statusIds + {m.frame.sid}
        else
          var h := |s.tasks|;
          && m.frame.sid > s.lastId && s'.lastId == m.frame.sid && s'.statusIds == s.statusIds
          && |s'.tasks| == h + 1
          && s'.tasks == s.tasks + [s'.tasks[h]]
          && s'.byId == s.byId[m.frame.sid := h]
          && Fresh(cfg, s'.tasks[h], m)
          && (if HasInitialData(s'.tasks[h])
              then s'.receiver == Offering(h, InitialItem(s'.tasks[h]), Initial, CheckClosed)
              else s'.receiver == Storing(h)))
  }

  /** A method goroutine that has not run yet. */
  ghost predicate Fresh(cfg: Config, t: Task, m: Msg) {
    && t.id == m.frame.sid && t.at == m.tok && cfg.reqDec(m.frame.payload) == Some(t.req)
    && cfg.kindOf(t.req.service, t.req.name) == Some(t.kind)
    && t.inbox == [] && !t.remoteClosed && !t.chanClosed && t.pc.Running? && t.produced.None?
    && t.handed == [] && t.outs == [] && t.accepted == [] && t.got == [] && !t.refused && !t.missed && !t.eof
    && t.cap == (if t.kind.Streaming? && t.kind.client then 64 else 1)
    && t.offered == (if HasInitialData(t) then [InitialItem(t)] else [])
  }

  /** The kind of the method a request starts, if it starts one. */
  function Starts(cfg: Config, s: Server, m: Msg): Option<Kind> {
    if m.frame.sid <= s.lastId then None
    else
      match cfg.reqDec(m.frame.payload)
      case None => None
      case Some(req) => cfg.kindOf(req.service, req.name)
  }

  lemma RequestRefused(cfg: Config, s: Server, m: Msg, budget: nat)
    requires Starts(cfg, s, m).None?
    ensures RequestEffect(cfg, s, DispatchRequest(cfg, s, m, budget), m)
  {
  }

  lemma StartEffect(s: Server, t: Task, t': Task)
    requires t' == if HasInitialData(t) then OfferTo(t, InitialItem(t)) else t
    ensures Start(s, t).tasks == s.tasks + [t'] && HasInitialData(t') == HasInitialData(t)
    ensures InitialItem(t') == InitialItem(t)
  {
  }

  lemma RequestStarted(cfg: Config, s: Server, m: Msg, budget: nat)
    requires Starts(cfg, s, m).Some?
    ensures RequestEffect(cfg, s, DispatchRequest(cfg, s, m, budget), m)
  {
    var req := cfg.reqDec(m.frame.payload).value;
    var t := NewTask(s, m, req, Starts(cfg, s, m).value, budget);
    var t' := if HasInitialData(t) then OfferTo(t, InitialItem(t)) else t;
    assert Fresh(cfg, t', m);
    assert DispatchRequest(cfg, s, m, budget) == Start(s.(lastId := m.frame.sid, bufs := s.bufs.Put({m.tok})), t);
    StartEffect(s.(lastId := m.frame.sid, bufs := s.bufs.Put({m.tok})), t, t');
  }

  lemma RequestEffects(cfg: Config, s: Server, m: Msg, budget: nat)
    ensures RequestEffect(cfg, s, DispatchRequest(cfg, s, m, budget), m)
  {
    if Starts(cfg, s, m).None? { RequestRefused(cfg, s, m, budget); } else { RequestStarted(cfg, s, m, budget); }
  }

  lemma TasksRequest(cfg: Config, s: Server, s': Server, m: Msg)
    requires Known(s.byId, s.tasks) && Accounted(cfg, s.tasks, s.received, s.lastId) && TableOk(s)
    requires RequestEffect(cfg, s, s', m)
    requires m.frame.sid % 2 == 1 && m.tok < |s.received| && s.received[m.tok] == m && m.frame.typ == REQUEST
    ensures Tasks(cfg, s')
  {
    if |s'.tasks| != |s.tasks| {
      var t := s'.tasks[|s.tasks|];
      assert s'.tasks == s.tasks + [t];
      OneMoreTask(cfg, s.tasks, s.byId, s.received, s.lastId, t);
    }
  }

  /** The state a message is dispatched in: it has been added to what was received. */
  function Noted(s: Server): Server
    requires s.receiver.Got?
  {
    s.(received := s.received + [s.receiver.m])
  }

  /** Where a message goes. */
  predicate Unacceptable(m: Msg) { |m.frame.payload| > MAX_LENGTH || m.frame.sid % 2 != 1 }

  lemma DispatchCases(cfg: Config, s: Server, budget: nat)
    requires s.receiver.Got?
    ensures var m := s.receiver.m;
            var s' := DoDispatch(cfg, s, budget);
            if Unacceptable(m) then
              exists code :: s' == Refuse(Noted(s), m.frame.sid, code) && code != 0
            else if m.frame.typ == DATA then s' == DispatchData(Noted(s), m)
            else if m.frame.typ == REQUEST then s' == DispatchRequest(cfg, Noted(s), m, budget)
            else s' == Noted(s).(receiver := Top)
  {
    var m := s.receiver.m;
    if |m.frame.payload| > MAX_LENGTH {
      assert DoDispatch(cfg, s, budget) == Refuse(Noted(s), m.frame.sid, RESOURCE_EXHAUSTED);
    } else if m.frame.sid % 2 != 1 {
      assert DoDispatch(cfg, s, budget) == Refuse(Noted(s), m.frame.sid, INVALID_ARGUMENT);
    }
  }

  /** What no dispatch touches. */
  lemma DispatchKeeps(cfg: Config, s: Server, budget: nat)
    ensures var s' := DoDispatch(cfg, s, budget);
            && s'.main == s.main && s'.state == s.state && s'.err == s.err && s'.ledger == s.ledger && s'.w == s.w
            && s'.shutdown == s.shutdown && (s.receiver.Got? ==> !s'.receiver.Failing?)
  {
    if s.receiver.Got? {
      var m := s.receiver.m;
      DispatchCases(cfg, s, budget);
      if !Unacceptable(m) && m.frame.typ == DATA { DataEffects(Noted(s), m); }
      else if !Unacceptable(m) && m.frame.typ == REQUEST { RequestEffects(cfg, Noted(s), m, budget); }
    }
  }

  lemma TasksDispatch(cfg: Config, s: Server, budget: nat)
    requires Tasks(cfg, s)
    ensures Tasks(cfg, DoDispatch(cfg, s, budget))
  {
    if s.receiver.Got? {
      var m := s.receiver.m;
      var s1 := Noted(s);
      ReceivedMore(cfg, s.tasks, s.received, m, s.lastId, s.lastId);
      DispatchCases(cfg, s, budget);
      if Unacceptable(m) {
      } else if m.frame.typ == DATA {
        DataEffects(s1, m);
        TasksData(cfg, s1, DispatchData(s1, m), m);
      } else if m.frame.typ == REQUEST {
        RequestEffects(cfg, s1, m, budget);
        TasksRequest(cfg, s1, DispatchRequest(cfg, s1, m, budget), m);
      }
    }
  }

  lemma TasksReceiver(cfg: Config, s: Server, re: ReceiverEvent)
    requires Tasks(cfg, s)
    ensures Tasks(cfg, DoReceiver(cfg, s, re))
  {
    if re.Dispatch? {
      TasksDispatch(cfg, s, re.budget);
    } else {
      PlainReceiver(cfg, s, re);
      if re.Store? { TableStore(cfg, s); }
      TasksPlain(cfg, s, DoReceiver(cfg, s, re));
    }
  }

  lemma TasksTask(cfg: Config, s: Server, h: nat, te: TaskEvent)
    requires Tasks(cfg, s)
    ensures Tasks(cfg, DoTask(cfg, s, h, te))
  {
    PlainTask(cfg, s, h, te);
    TasksPlain(cfg, s, DoTask(cfg, s, h, te));
  }

  lemma TasksMain(cfg: Config, s: Server, me: MainEvent)
    requires Tasks(cfg, s)
    ensures Tasks(cfg, DoMain(cfg, s, me))
  {
    PlainMain(cfg, s, me);
    MainTable(cfg, s, me);
    TasksPlain(cfg, s, DoMain(cfg, s, me));
  }
}
