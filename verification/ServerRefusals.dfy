/** Which messages sendStatus answers, with which code, and that every such answer reaches the response loop. */
module ServerRefusals {
  import opened Types
  import opened StreamQueue
  import opened ServerEngine
  import opened ServerTasks
  import opened ServerIo
  import opened ServerRuns

  function Status(id: uint32, code: nat): Out { Out(id, code, None, true, false) }

  /** What is wrong with a message when it is dispatched: RESOURCE_EXHAUSTED for one that is too long,
      INVALID_ARGUMENT for an even id, data of no stream in the map, a request whose id does not increase or that
      does not decode, UNIMPLEMENTED for a request of no known method. */
  function Objection(cfg: Config, s: Server, m: Msg): Option<nat> {
    if |m.frame.payload| > 0x40_0000 then Some(8)
    else if m.frame.sid % 2 == 0 then Some(3)
    else if m.frame.typ == 3 then (if m.frame.sid in s.table then None else Some(3))
    else if m.frame.typ != 1 then None
    else if m.frame.sid <= s.lastId then Some(3)
    else
      var req := cfg.reqDec(m.frame.payload);
      if req.None? then Some(3)
      else if cfg.kindOf(req.value.service, req.value.name).None? then Some(12) else None
  }

  /** data() fails in this select: the stream is closed, its method's context has ended, or it has waited. */
  predicate Fails(t: Task, stage: DataStage, choice: Choice) {
    match stage
    case CheckClosed => t.remoteClosed
    case Select => choice.SeeDone? && t.ctxDone
    case Wait => (choice.SeeDone? && t.ctxDone) || choice.Default?
  }

  /** The status a step calls sendStatus with. */
  function Refusal(cfg: Config, s: Server, re: ReceiverEvent): Option<Out> {
    match re
    case Dispatch(_) =>
      if s.receiver.Got? && Objection(cfg, s, s.receiver.m).Some?
      then Some(Status(s.receiver.m.frame.sid, Objection(cfg, s, s.receiver.m).value)) else None
    case Offer(choice) =>
      if s.receiver.Offering? && s.receiver.h < |s.tasks| && Fails(s.tasks[s.receiver.h], s.receiver.stage, choice)
      then Some(Status(s.tasks[s.receiver.h].id, if s.receiver.source.Initial? then 2 else 3)) else None
    case FinishData =>
      if s.receiver.AfterData? && s.receiver.h < |s.tasks| && s.tasks[s.receiver.h].kind.Streaming?
         && HasRemoteClosed(s.receiver.m.frame.flags) && s.receiver.m.frame.payload != []
      then Some(Status(s.receiver.m.frame.sid, 3)) else None
    case _ => None
  }

  /** What sendStatus is blocked on. */
  function InHandStatus(s: Server): seq<Out> { if s.receiver.SendingStatus? then [s.receiver.o] else [] }

  /** One more event: a refusal, or a sendStatus that gives up because the connection is over. */
  function RefusedNow(cfg: Config, s: Server, refused: seq<Out>, e: Event): seq<Out> {
    if !e.Recv? then refused
    else if e.re.AbortStatus? then
      (if s.receiver.SendingStatus? && (s.shutdown || s.main.Ended?) && refused != [] then refused[..|refused| - 1] else refused)
    else if Refusal(cfg, s, e.re).Some? then refused + [Refusal(cfg, s, e.re).value]
    else refused
  }

  function Refused(cfg: Config, es: seq<Event>): seq<Out> {
    if es == [] then [] else RefusedNow(cfg, After(cfg, es[..|es| - 1]), Refused(cfg, es[..|es| - 1]), es[|es| - 1])
  }

  /** The statuses the response loop has taken from the receiver. */
  function StatusesTaken(cfg: Config, es: seq<Event>): seq<Out> {
    if es == [] then []
    else
      var (s, e) := (After(cfg, es[..|es| - 1]), es[|es| - 1]);
      StatusesTaken(cfg, es[..|es| - 1]) +
      (if e == Respond(TakeStatus) && s.main.Selecting? then InHandStatus(s) else [])
  }

  /** The receiver is blocked on at most the last refusal, and the loop has taken all others. */
  ghost predicate Handled(s: Server, refused: seq<Out>, taken: seq<Out>) { refused == taken + InHandStatus(s) }

  lemma DispatchRefuses(cfg: Config, s: Server, budget: nat)
    requires s.receiver.Got?
    ensures InHandStatus(DoDispatch(cfg, s, budget)) ==
            match Objection(cfg, s, s.receiver.m) case None => [] case Some(code) => [Status(s.receiver.m.frame.sid, code)]
  {
    var m := s.receiver.m;
    if !Unacceptable(m) && m.frame.typ == REQUEST { RequestRefuses(cfg, Noted(s), m, budget); }
  }

  lemma RequestRefuses(cfg: Config, s: Server, m: Msg, budget: nat)
    requires !Unacceptable(m) && m.frame.typ == REQUEST
    ensures InHandStatus(DispatchRequest(cfg, s, m, budget)) ==
            match Objection(cfg, s, m) case None => [] case Some(code) => [Status(m.frame.sid, code)]
  {
  }

  lemma OfferRefuses(cfg: Config, s: Server, choice: Choice)
    requires Io(cfg, s) && s.receiver.Offering? && s.receiver.h < |s.tasks|
    ensures InHandStatus(DoOffer(s, choice)) ==
            match Refusal(cfg, s, Offer(choice)) case None => [] case Some(o) => [o]
  {
    assert TaskOk(cfg, s.tasks[s.receiver.h]);
    OfferEffects(s, choice);
  }

  lemma FinishDataRefuses(cfg: Config, s: Server)
    requires Io(cfg, s) && s.receiver.AfterData? && s.receiver.h < |s.tasks|
    ensures InHandStatus(DoFinishData(s)) == match Refusal(cfg, s, FinishData) case None => [] case Some(o) => [o]
  {
    assert TaskOk(cfg, s.tasks[s.receiver.h]);
  }

  lemma ReceiverRefuses(cfg: Config, s: Server, re: ReceiverEvent, refused: seq<Out>, taken: seq<Out>)
    requires Tasks(cfg, s) && Io(cfg, s) && Handled(s, refused, taken)
    ensures Handled(DoReceiver(cfg, s, re), RefusedNow(cfg, s, refused, Recv(re)), taken)
  {
    assert taken + [] == taken;
    if re.Dispatch? { if s.receiver.Got? { DispatchRefuses(cfg, s, re.budget); } }
    else if re.Offer? { if s.receiver.Offering? { OfferRefuses(cfg, s, re.choice); } }
    else if re.FinishData? { if s.receiver.AfterData? { FinishDataRefuses(cfg, s); } }
    else { OtherRefuses(cfg, s, re, refused, taken); }
  }

  lemma OtherRefuses(cfg: Config, s: Server, re: ReceiverEvent, refused: seq<Out>, taken: seq<Out>)
    requires Handled(s, refused, taken) && !re.Dispatch? && !re.Offer? && !re.FinishData?
    ensures Handled(DoReceiver(cfg, s, re), RefusedNow(cfg, s, refused, Recv(re)), taken)
  {
    assert taken + [] == taken;
    if s.receiver.SendingStatus? { assert (taken + [s.receiver.o])[..|taken|] == taken; }
  }

  lemma MainTakes(cfg: Config, s: Server, me: MainEvent, refused: seq<Out>, taken: seq<Out>)
    requires Handled(s, refused, taken)
    ensures Handled(DoMain(cfg, s, me), refused, taken + (if me.TakeStatus? && s.main.Selecting? then InHandStatus(s) else []))
  {
    assert taken + [] == taken && taken + InHandStatus(s) + [] == taken + InHandStatus(s);
  }

  lemma RefusalStep(cfg: Config, s: Server, e: Event, refused: seq<Out>, taken: seq<Out>)
    requires Tasks(cfg, s) && Io(cfg, s) && Handled(s, refused, taken)
    ensures Handled(Apply(cfg, s, e), RefusedNow(cfg, s, refused, e),
                    taken + (if e == Respond(TakeStatus) && s.main.Selecting? then InHandStatus(s) else []))
  {
    assert taken + [] == taken;
    match e
    case Recv(re) => ReceiverRefuses(cfg, s, re, refused, taken);
    case Method(h, te) => TaskKeepsRest(cfg, s, h, te);
    case Respond(me) => MainTakes(cfg, s, me, refused, taken);
    case CloseServerConn =>
  }

  /** Over every run sendStatus is called for exactly the messages that call for it, with the code each calls for,
      and every call is taken by the response loop in order, but for the one it is blocked on and one that gives
      up because the connection is over. */
  lemma {:induction false} RefusalsAreTaken(cfg: Config, es: seq<Event>)
    ensures Handled(After(cfg, es), Refused(cfg, es), StatusesTaken(cfg, es))
  {
    if es != [] {
      var before := es[..|es| - 1];
      RefusalsAreTaken(cfg, before);
      RunInv(cfg, before);
      RefusalStep(cfg, After(cfg, before), es[|es| - 1], Refused(cfg, before), StatusesTaken(cfg, before));
    }
  }
}
