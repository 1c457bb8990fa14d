/** Received buffers go back to the pool: on both sides as soon as whoever reads the message is done with it. */
module BufferReturns {
  import opened Types
  import opened StreamQueue
  import C = ClientEngine
  import CT = ClientTable
  import CC = ClientCalls
  import CR = ClientRuns
  import S = ServerEngine
  import ST = ServerTasks
  import SIo = ServerIo
  import SR = ServerRuns

  // ---------------------------------------------------------------- on the server

  /** The buffers of the data a method's RecvMsg has returned, and of its request, have been put back. */
  ghost predicate ServerReturned(s: S.Server) {
    forall h | 0 <= h < |s.tasks| ::
      s.tasks[h].at in s.bufs.puts && forall item: S.Item | item in s.tasks[h].got && item.tok.Some? :: item.tok.value in s.bufs.puts
  }

  /** A step that returns nothing to a method and starts none. */
  ghost predicate NothingGot(s: S.Server, s': S.Server) {
    && |s'.tasks| == |s.tasks| && s.bufs.puts <= s'.bufs.puts
    && forall h | 0 <= h < |s.tasks| :: s'.tasks[h].got == s.tasks[h].got && s'.tasks[h].at == s.tasks[h].at
  }

  lemma ReturnedKept(s: S.Server, s': S.Server)
    requires ServerReturned(s) && NothingGot(s, s')
    ensures ServerReturned(s')
  {
  }

  lemma RequestReturns(cfg: Config, s: S.Server, m: Msg, budget: nat)
    requires ServerReturned(s)
    ensures ServerReturned(S.DispatchRequest(cfg, s, m, budget))
  {
    ST.RequestEffects(cfg, s, m, budget);
    RequestPuts(cfg, s, m, budget);
    var s' := S.DispatchRequest(cfg, s, m, budget);
    if |s'.tasks| != |s.tasks| {
      forall h | 0 <= h < |s.tasks| ensures s'.tasks[h] == s.tasks[h] {}
    }
  }

  lemma RequestPuts(cfg: Config, s: S.Server, m: Msg, budget: nat)
    ensures var s' := S.DispatchRequest(cfg, s, m, budget);
            s.bufs.puts <= s'.bufs.puts && (|s'.tasks| != |s.tasks| ==> m.tok in s'.bufs.puts)
  {
  }

  lemma ReceiverReturns(cfg: Config, s: S.Server, re: S.ReceiverEvent)
    requires ServerReturned(s)
    ensures ServerReturned(S.DoReceiver(cfg, s, re))
  {
    if re.Dispatch? { if s.receiver.Got? { DispatchReturns(cfg, s, re.budget); } }
    else if re.Offer? {
      if s.receiver.Offering? && s.receiver.h < |s.tasks| {
        AffectGets(s.tasks[s.receiver.h], s.receiver.item, S.Decide(s.tasks[s.receiver.h], s.receiver.stage, re.choice));
        ReturnedKept(s, S.DoOffer(s, re.choice));
      }
    }
    else if re.FinishData? { ReturnedKept(s, S.DoFinishData(s)); }
    else { SIo.ReceiverKept(cfg, s, re); }
  }

  lemma AffectGets(t: S.Task, item: S.Item, v: S.Verdict)
    ensures S.Affect(t, item, v).got == t.got && S.Affect(t, item, v).at == t.at
  {
  }

  lemma DispatchReturns(cfg: Config, s: S.Server, budget: nat)
    requires ServerReturned(s) && s.receiver.Got?
    ensures ServerReturned(S.DoDispatch(cfg, s, budget))
  {
    var m := s.receiver.m;
    ST.DispatchCases(cfg, s, budget);
    if !ST.Unacceptable(m) && m.frame.typ == DATA {
      ST.DataEffects(ST.Noted(s), m);
      DataGets(ST.Noted(s), S.DoDispatch(cfg, s, budget), m);
      ReturnedKept(ST.Noted(s), S.DoDispatch(cfg, s, budget));
    } else if !ST.Unacceptable(m) && m.frame.typ == REQUEST {
      RequestReturns(cfg, ST.Noted(s), m, budget);
    }
  }

  lemma DataGets(s: S.Server, s': S.Server, m: Msg)
    requires ST.DataEffect(s, s', m)
    ensures NothingGot(s, s')
  {
  }

  lemma TaskReturns(cfg: Config, s: S.Server, h: nat, te: S.TaskEvent)
    requires ServerReturned(s)
    ensures ServerReturned(S.DoTask(cfg, s, h, te))
  {
    if h < |s.tasks| && S.TaskCan(cfg, s.tasks[h], te, s.main.Ended?) {
      ST.TaskStepSame(cfg, s.tasks[h], te, s.main.Ended?);
      StepGets(cfg, s.tasks[h], te, s.main.Ended?);
    }
  }

  lemma StepGets(cfg: Config, t: S.Task, te: S.TaskEvent, done: bool)
    requires S.TaskCan(cfg, t, te, done)
    ensures forall item: S.Item | item in S.TaskStep(cfg, t, te, done).got && item.tok.Some? :: item in t.got || item.tok.value in S.TaskPut(t, te)
  {
  }

  lemma MainReturns(cfg: Config, s: S.Server, me: S.MainEvent)
    requires ServerReturned(s) && s.w.Valid()
    ensures ServerReturned(S.DoMain(cfg, s, me))
  {
    if me.Write? {
      if s.main.Have? { SIo.WriteEffects(cfg, s, me.fate); WriteGets(cfg, s, S.DoWrite(cfg, s, me.fate)); ReturnedKept(s, S.DoWrite(cfg, s, me.fate)); }
    } else if me.TakeFrom? {
      ReturnedKept(s, S.DoTakeFrom(s, me.h));
    } else {
      ST.MainKeepsTasks(cfg, s, me);
      MainPuts(cfg, s, me);
    }
  }

  lemma WriteGets(cfg: Config, s: S.Server, s': S.Server)
    requires s.main.Have? && SIo.WriteEffect(cfg, s, s')
    ensures NothingGot(s, s')
  {
  }

  lemma MainPuts(cfg: Config, s: S.Server, me: S.MainEvent)
    ensures S.DoMain(cfg, s, me).bufs == s.bufs
  {
  }

  lemma ServerReturnsStep(cfg: Config, s: S.Server, e: S.Event)
    requires ServerReturned(s) && s.w.Valid()
    ensures ServerReturned(S.Apply(cfg, s, e))
  {
    match e
    case Recv(re) => ReceiverReturns(cfg, s, re);
    case Method(h, te) => TaskReturns(cfg, s, h, te);
    case Respond(me) => MainReturns(cfg, s, me);
    case CloseServerConn =>
  }

  /** Over every run of the server no buffer whose data has been used up is kept. */
  lemma {:induction false} ServerReturns(cfg: Config, es: seq<S.Event>)
    ensures ServerReturned(S.After(cfg, es))
  {
    if es != [] {
      ServerReturns(cfg, es[..|es| - 1]);
      SR.RunInv(cfg, es[..|es| - 1]);
      ServerReturnsStep(cfg, S.After(cfg, es[..|es| - 1]), es[|es| - 1]);
    }
  }

  // ---------------------------------------------------------------- on the client

  /** The messages whose buffers a call puts back: all that dispatch takes; for a stream every response, and the
      data it decodes. */
  predicate PutsBack(kind: Kind, f: Frame) {
    match kind
    case Unary => true
    case Streaming(_, server) => f.typ == 2 || (f.typ == 3 && server && !(f.flags % 2 == 1 && (f.flags / 4) % 2 == 1))
  }

  /** The messages a call is done with: all it has taken, but for one it is handling, or one it has yet to decode
      once it has deleted its stream. */
  function Done(e: C.Entry): seq<Msg> { if C.HasLast(e) then e.taken[..|e.taken| - 1] else e.taken }

  ghost predicate ClientReturned(c: C.Client) {
    forall k | 0 <= k < |c.entries| :: forall m | m in Done(c.entries[k]) && PutsBack(c.entries[k].kind, m.frame) :: m.tok in c.puts
  }

  lemma ConsumerReturns(cfg: Config, c: C.Client, k: nat, ev: C.ConsumerEvent)
    requires CC.Calls(cfg, c) && ClientReturned(c)
    ensures ClientReturned(C.DoConsume(cfg, c, k, ev))
  {
    if k < |c.entries| && C.ConsumerCan(c.entries[k], ev, c.ctxDone, c.StreamLocked()) {
      assert CC.CallOk(cfg, c.entries[k]);
      StepReturns(cfg, c.entries[k], ev, c.ctxDone, c.StreamLocked());
    }
  }

  /** Whoever is done after a step was done before it, or has its buffer put back by it. */
  ghost predicate GoesBack(e: C.Entry, e': C.Entry, put: set<nat>) {
    e'.kind == e.kind && forall m | m in Done(e') && PutsBack(e.kind, m.frame) :: m in Done(e) || m.tok in put
  }

  lemma StepReturns(cfg: Config, e: C.Entry, ev: C.ConsumerEvent, ctxDone: bool, locked: bool)
    requires CC.CallOk(cfg, e) && C.ConsumerCan(e, ev, ctxDone, locked)
    ensures GoesBack(e, C.ConsumerStep(cfg, e, ev, ctxDone, locked), C.PutBack(cfg, e, ev))
  {
    if ev.Handle? { HandleReturns(cfg, e, ctxDone, locked); }
    else if ev.Finish? { FinishReturns(cfg, e, ctxDone, locked); }
    else { OtherReturns(cfg, e, ev, ctxDone, locked); }
  }

  lemma PutIsJudged(cfg: Config, kind: Kind, f: Frame)
    ensures C.Judge(cfg, kind, f).put == PutsBack(kind, f)
  {
  }

  lemma LastOrBefore(e: C.Entry)
    requires e.taken != []
    ensures forall m | m in e.taken :: m in e.taken[..|e.taken| - 1] || m == C.LastTaken(e)
  {
    assert e.taken == e.taken[..|e.taken| - 1] + [C.LastTaken(e)];
  }

  lemma HandleReturns(cfg: Config, e: C.Entry, ctxDone: bool, locked: bool)
    requires C.ConsumerCan(e, C.Handle, ctxDone, locked)
    ensures GoesBack(e, C.ConsumerStep(cfg, e, C.Handle, ctxDone, locked), C.PutBack(cfg, e, C.Handle))
  {
    PutIsJudged(cfg, e.kind, C.LastTaken(e).frame);
    LastOrBefore(e);
  }

  lemma FinishReturns(cfg: Config, e: C.Entry, ctxDone: bool, locked: bool)
    requires CC.CallOk(cfg, e) && C.ConsumerCan(e, C.Finish, ctxDone, locked)
    ensures GoesBack(e, C.ConsumerStep(cfg, e, C.Finish, ctxDone, locked), C.PutBack(cfg, e, C.Finish))
  {
    if e.taken != [] {
      PutIsJudged(cfg, e.kind, C.LastTaken(e).frame);
      LastOrBefore(e);
    }
  }

  lemma OtherReturns(cfg: Config, e: C.Entry, ev: C.ConsumerEvent, ctxDone: bool, locked: bool)
    requires C.ConsumerCan(e, ev, ctxDone, locked) && !ev.Handle? && !ev.Finish?
    ensures var e' := C.ConsumerStep(cfg, e, ev, ctxDone, locked); e'.kind == e.kind && Done(e') == Done(e)
  {
    if ev.Take? { assert (e.taken + [e.core.queue[0]])[..|e.taken|] == e.taken; }
  }

  lemma OthersReturn(cfg: Config, c: C.Client, e: C.Event)
    requires CT.Openings(c) && ClientReturned(c) && !e.Consume?
    ensures ClientReturned(C.Apply(cfg, c, e))
  {
    match e
    case Caller(ce) => CT.CallerEffects(cfg, c, ce); CallerReturns(c, C.DoCaller(cfg, c, ce));
    case Receive(le) => LoopPutsNothing(c, le); LoopReturns(c, le); LoopKept(c, C.DoLoop(c, le));
  }

  lemma LoopReturns(c: C.Client, le: C.LoopEvent)
    ensures |C.DoLoop(c, le).entries| == |c.entries|
    ensures forall k | 0 <= k < |c.entries| :: CT.LoopKeeps(c.entries[k], C.DoLoop(c, le).entries[k])
  {
    if le.Lookup? { CR.LookupKeeps(c); }
    else if le.Deliver? { CR.DeliverKeeps(c, le.choice); }
    else { CT.QuietEffects(c, le); }
  }

  lemma LoopKept(c: C.Client, c': C.Client)
    requires ClientReturned(c) && |c'.entries| == |c.entries| && c'.puts == c.puts
    requires forall k | 0 <= k < |c.entries| :: CT.LoopKeeps(c.entries[k], c'.entries[k])
    ensures ClientReturned(c')
  {
    forall k | 0 <= k < |c'.entries|
      ensures forall m | m in Done(c'.entries[k]) && PutsBack(c'.entries[k].kind, m.frame) :: m.tok in c'.puts
    {
      assert CT.LoopKeeps(c.entries[k], c'.entries[k]);
    }
  }

  lemma LoopPutsNothing(c: C.Client, le: C.LoopEvent)
    ensures C.DoLoop(c, le).puts == c.puts
  {
  }

  lemma CallerReturns(c: C.Client, c': C.Client)
    requires CT.Openings(c) && CT.CallerEffect(c, c') && ClientReturned(c)
    ensures ClientReturned(c')
  {
    forall k | 0 <= k < |c'.entries|
      ensures forall m | m in Done(c'.entries[k]) && PutsBack(c'.entries[k].kind, m.frame) :: m.tok in c'.puts
    {
      if k < |c.entries| { assert CT.CallerKeeps(c.entries[k], c'.entries[k]); }
    }
  }

  /** Over every run of the client a call that is done with a message has put its buffer back. */
  lemma {:induction false} ClientReturns(cfg: Config, es: seq<C.Event>)
    ensures ClientReturned(C.After(cfg, es))
  {
    if es != [] {
      var (before, e) := (es[..|es| - 1], es[|es| - 1]);
      ClientReturns(cfg, before);
      CR.RunInv(cfg, before);
      if e.Consume? { ConsumerReturns(cfg, C.After(cfg, before), e.k, e.ev); } else { OthersReturn(cfg, C.After(cfg, before), e); }
    }
  }
}
