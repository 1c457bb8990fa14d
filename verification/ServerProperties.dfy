/** What every run of a server connection guarantees. */
module ServerProperties {
  import opened Types
  import opened Framing
  import opened StreamQueue
  import opened ServerEngine
  import opened ServerTasks
  import opened ServerIo
  import opened ServerWire
  import opened ServerLedger
  import opened ServerInputs
  import opened ServerBuffers
  import opened ServerEnds
  import opened ServerRuns

  // ---------------------------------------------------------------- the ledger

  lemma Differences(a: set<nat>, b: set<nat>)
    ensures |a| - |b| == |a - b| - |b - a|
  {
    assert a == (a - b) + (a * b) && (a - b) !! (a * b);
    assert b == (b - a) + (a * b) && (b - a) !! (a * b);
  }

  lemma AtMostOne(a: set<nat>, x: nat)
    requires a <= {x}
    ensures |a| <= 1
  {
    assert a == {} || a == {x};
  }

  /** `active` is registrations less closing responses processed: the streams registered and not
      finished, less those finished without having been registered, less sendStatus's responses. As
      long as sendStatus has not been called it is the registered and unfinished streams less at most
      one, and exactly those, hence not negative, while no registration is under way. In general it is
      exactly those if and only if no response of sendStatus has been processed and no method has
      finished before it was counted. */
  lemma {:induction false} ActiveLedger(cfg: Config, es: seq<Event>)
    ensures var s := After(cfg, es);
            var l := s.ledger;
            && l.active == l.registrations - l.closes
            && l.active == |l.counted - l.finished| - |l.finished - l.counted| - l.statuses
            && (l.active == |l.counted - l.finished| <==> l.statuses == 0 && l.finished <= l.counted)
            && (s.statusIds == {} ==>
                  && l.statuses == 0
                  && |l.finished - l.counted| <= 1
                  && (Mid(s.receiver).None? ==> l.active == |l.counted - l.finished|))
  {
    RunInv(cfg, es);
    var s := After(cfg, es);
    var l := s.ledger;
    Differences(l.counted, l.finished);
    assert |l.finished - l.counted| == 0 <==> l.finished <= l.counted by {
      if l.finished <= l.counted { assert l.finished - l.counted == {}; }
      else { var h :| h in l.finished && h !in l.counted; assert h in l.finished - l.counted; }
    }
    if s.statusIds == {} {
      if Mid(s.receiver).Some? { AtMostOne(l.finished - l.counted, Mid(s.receiver).value); }
      else { assert l.finished - l.counted == {}; }
    }
  }

  lemma {:induction false} AfterSnoc(cfg: Config, es: seq<Event>, e: Event)
    ensures After(cfg, es + [e]) == Apply(cfg, After(cfg, es), e)
  {
    assert (es + [e])[..|es|] == es;
  }

  /** A request under the reserved id 0. */
  const EVEN_REQUEST: Frame := Frame(0, REQUEST, 0, [])

  /** The receiver refuses it. */
  lemma {:induction false} RefusalRun(cfg: Config) returns (es: seq<Event>)
    ensures After(cfg, es) ==
            Init().(receiver := SendingStatus(Out(0, INVALID_ARGUMENT, None, true, false)), statusIds := {0},
                    received := [Msg(EVEN_REQUEST, 0)])
  {
    es := [];
    AfterSnoc(cfg, es, Recv(Loop));
    AfterSnoc(cfg, es + [Recv(Loop)], Recv(ReadFrame(EVEN_REQUEST)));
    AfterSnoc(cfg, es + [Recv(Loop)] + [Recv(ReadFrame(EVEN_REQUEST))], Recv(Dispatch(0)));
    es := es + [Recv(Loop)] + [Recv(ReadFrame(EVEN_REQUEST))] + [Recv(Dispatch(0))];
  }

  /** The response loop sends the refusal and counts a stream closed that was never counted open. */
  lemma {:induction false} AnswerRun(cfg: Config, es: seq<Event>, o: Out, fate: Fate) returns (more: seq<Event>)
    requires var s := After(cfg, es);
             s.main.Looping? && s.receiver == SendingStatus(o) && o.closeStream && !s.w.broken && s.ledger.active <= 0
    requires |FrameOf(cfg, o).payload| <= MAX_LENGTH && fate == Fate(|EncodeFrame(FrameOf(cfg, o))|, false)
    ensures After(cfg, more).ledger.active == After(cfg, es).ledger.active - 1
  {
    var e1 := es + [Respond(Look)];
    var e2 := e1 + [Respond(TakeStatus)];
    var e3 := e2 + [Respond(Write(fate))];
    var e4 := e3 + [Respond(Forget)];
    more := e4 + [Respond(Discount)];
    AfterSnoc(cfg, es, Respond(Look));
    AfterSnoc(cfg, e1, Respond(TakeStatus));
    assert After(cfg, e2).main == Have(o, None);
    AfterSnoc(cfg, e2, Respond(Write(fate)));
    assert After(cfg, e3).main == Forgetting(o, None);
    AfterSnoc(cfg, e3, Respond(Forget));
    AfterSnoc(cfg, e4, Respond(Discount));
  }

  /** With sendStatus the counter can fall below zero: one request under an even id does it. */
  lemma ActiveCanBeNegative(cfg: Config)
    requires |cfg.respEnc(Resp(INVALID_ARGUMENT, []))| <= MAX_LENGTH
    ensures exists es :: After(cfg, es).ledger.active == -1
  {
    var o := Out(0, INVALID_ARGUMENT, None, true, false);
    var es := RefusalRun(cfg);
    var more := AnswerRun(cfg, es, o, Fate(|EncodeFrame(FrameOf(cfg, o))|, false));
    assert After(cfg, more).ledger.active == -1;
  }

  // ---------------------------------------------------------------- what a stream looks like on the wire

  /** The frames that end a stream. */
  predicate Terminal(f: Frame) { f.typ == RESPONSE || HasRemoteClosed(f.flags) }

  lemma SendFrame(cfg: Config, t: Task, o: Out)
    requires IsSend(cfg, t, o)
    ensures !Terminal(FrameOf(cfg, o)) && FrameOf(cfg, o).typ == DATA && FrameOf(cfg, o).payload == DataBytes(o.data)
  {
  }

  lemma FinalFrame(cfg: Config, t: Task, o: Out)
    requires IsFinal(cfg, t, o)
    ensures Terminal(FrameOf(cfg, o))
    ensures FrameOf(cfg, o).typ == (if StreamingServer(t) && o.code == 0 then DATA else RESPONSE)
  {
  }

  /** For an id sendStatus was never used on: the stream's frames are the goroutine's responses in the order
      they were handed over; at most the last one ends the stream, with the result the method produced,
      as a closing data frame exactly for a streaming server that succeeded, else as a response. */
  lemma {:induction false} TerminalFrame(cfg: Config, es: seq<Event>, h: nat)
    requires h < |After(cfg, es).tasks| && After(cfg, es).tasks[h].id !in After(cfg, es).statusIds
    ensures var s := After(cfg, es);
            var t := s.tasks[h];
            var fs := FramesFor(s.w.frames, t.id);
            && |fs| <= |t.handed|
            && (forall i | 0 <= i < |fs| :: fs[i] == FrameOf(cfg, t.handed[i]))
            && (forall i | 0 <= i < |fs| && !Terminal(fs[i]) :: fs[i].typ == DATA)
            && (forall i | 0 <= i < |fs| && Terminal(fs[i]) ::
                  && i == |fs| - 1
                  && t.produced == Some(t.handed[i])
                  && fs[i].typ == (if StreamingServer(t) && t.produced.value.code == 0 then DATA else RESPONSE))
  {
    RunInv(cfg, es);
    var s := After(cfg, es);
    assert Written(cfg, s.tasks[h], s.w.frames, s.statusIds) && TaskOk(cfg, s.tasks[h]);
    TaskFrames(cfg, s.tasks[h], FramesFor(s.w.frames, s.tasks[h].id));
  }

  lemma TaskFrames(cfg: Config, t: Task, fs: seq<Frame>)
    requires TaskOk(cfg, t) && fs == FramesOf(cfg, t.outs)
    ensures |fs| <= |t.handed|
    ensures forall i | 0 <= i < |fs| :: fs[i] == FrameOf(cfg, t.handed[i])
    ensures forall i | 0 <= i < |fs| && !Terminal(fs[i]) :: fs[i].typ == DATA
    ensures forall i | 0 <= i < |fs| && Terminal(fs[i]) ::
              && i == |fs| - 1
              && t.produced == Some(t.handed[i])
              && fs[i].typ == (if StreamingServer(t) && t.produced.value.code == 0 then DATA else RESPONSE)
  {
    forall i | 0 <= i < |fs|
      ensures fs[i] == FrameOf(cfg, t.handed[i])
      ensures !Terminal(fs[i]) ==> fs[i].typ == DATA
      ensures Terminal(fs[i]) ==>
                && i == |fs| - 1 && t.produced == Some(t.handed[i])
                && fs[i].typ == (if StreamingServer(t) && t.produced.value.code == 0 then DATA else RESPONSE)
    {
      assert t.outs[i] == t.handed[i];
      if IsSend(cfg, t, t.handed[i]) {
        SendFrame(cfg, t, t.handed[i]);
      } else {
        assert i == |t.handed| - 1;
        FinalFrame(cfg, t, t.handed[i]);
      }
    }
  }

  // ---------------------------------------------------------------- a method's input

  /** A method's RecvMsg results followed by its queue are what the client sent for the stream with some
      messages left out, and none left out unless a data() failed; io.EOF means a closing frame came and
      the queue is drained, so that RecvMsg has returned all that was sent before that frame; and no step
      ever sends on or re-closes the closed channel. */
  lemma {:induction false} HandlerInput(cfg: Config, es: seq<Event>, h: nat)
    requires h < |After(cfg, es).tasks| && After(cfg, es).tasks[h].kind.Streaming?
    ensures var s := After(cfg, es);
            var t := s.tasks[h];
            && t.at < |s.received|
            && Subseq(t.got + t.inbox + InHand(s, h), t.offered)
            && t.offered <= ClientData(t, s.received)
            && (!t.missed ==> t.offered == ClientData(t, s.received))
            && (!t.refused ==> t.got + t.inbox + InHand(s, h) == t.offered)
            && |t.inbox| <= t.cap
            && (t.eof ==> t.inbox == [] && t.chanClosed && exists c :: GotUpTo(t, s.received, c))
            && s.receiver != Panicked(false)
  {
    RunInv(cfg, es);
    InputFacts(cfg, After(cfg, es), h);
  }

  lemma InputFacts(cfg: Config, s: Server, h: nat)
    requires Io(cfg, s) && Inputs(s) && Ends(s) && h < |s.tasks| && s.tasks[h].kind.Streaming?
    ensures var t := s.tasks[h];
            && TaskOk(cfg, t) && OfferedOk(t, InHand(s, h)) && InputOk(t, s.received, GoneFor(s, h))
            && t.got + t.inbox == t.accepted
            && (t.eof ==> exists c :: GotUpTo(t, s.received, c))
  {
    var t := s.tasks[h];
    assert TaskOk(cfg, t) && OfferedOk(t, InHand(s, h)) && InputOk(t, s.received, GoneFor(s, h));
    if t.eof {
      assert EndOk(t, s.received);
      var c :| EndedBy(t, s.received, c);
      assert t.got + [] == t.got;
      assert GotUpTo(t, s.received, c);
    }
  }

  /** RecvMsg has returned everything the client sent before the closing frame, unless a data() failed. */
  ghost predicate GotUpTo(t: Task, received: seq<Msg>, c: nat) {
    && t.at < c < |received| && Closing(received[c], t.id)
    && (!t.refused ==> t.got == ClientData(t, received[..c + 1]))
  }

  lemma ClosedInputStep(cfg: Config, s: Server, e: Event, h: nat)
    requires Tasks(cfg, s) && Io(cfg, s) && s.w.Valid() && h < |s.tasks| && s.tasks[h].chanClosed
    ensures var s' := Apply(cfg, s, e);
            && h < |s'.tasks| && s'.tasks[h].chanClosed
            && s'.tasks[h].accepted == s.tasks[h].accepted
  {
    match e
    case Recv(re) => ClosedInputReceiver(cfg, s, re, h);
    case Method(j, te) => ClosedInputTask(cfg, s, j, te, h);
    case Respond(me) => ClosedInputMain(cfg, s, me, h);
    case CloseServerConn =>
  }

  lemma ClosedInputTask(cfg: Config, s: Server, j: nat, te: TaskEvent, h: nat)
    requires h < |s.tasks|
    ensures var s' := DoTask(cfg, s, j, te);
            && h < |s'.tasks| && s'.tasks[h].chanClosed == s.tasks[h].chanClosed && s'.tasks[h].accepted == s.tasks[h].accepted
  {
    if j < |s.tasks| && TaskCan(cfg, s.tasks[j], te, s.main.Ended?) { TaskStepSame(cfg, s.tasks[j], te, s.main.Ended?); }
  }

  lemma ClosedInputMain(cfg: Config, s: Server, me: MainEvent, h: nat)
    requires h < |s.tasks| && s.w.Valid()
    ensures var s' := DoMain(cfg, s, me);
            && h < |s'.tasks| && s'.tasks[h].chanClosed == s.tasks[h].chanClosed && s'.tasks[h].accepted == s.tasks[h].accepted
  {
    if me.Write? {
      if s.main.Have? { WriteEffects(cfg, s, me.fate); }
    } else if !me.TakeFrom? {
      MainKeepsTasks(cfg, s, me);
    }
  }

  lemma ClosedInputDispatch(cfg: Config, s: Server, budget: nat, h: nat)
    requires h < |s.tasks| && s.tasks[h].chanClosed && s.receiver.Got?
    ensures var s' := DoDispatch(cfg, s, budget);
            && h < |s'.tasks| && s'.tasks[h].chanClosed
            && s'.tasks[h].accepted == s.tasks[h].accepted
  {
    var m := s.receiver.m;
    DispatchCases(cfg, s, budget);
    if !Unacceptable(m) && m.frame.typ == DATA { DataEffects(Noted(s), m); }
    else if !Unacceptable(m) && m.frame.typ == REQUEST {
      RequestEffects(cfg, Noted(s), m, budget);
      assert DoDispatch(cfg, s, budget).tasks[h] == s.tasks[h];
    }
  }

  lemma ClosedInputOffer(cfg: Config, s: Server, choice: Choice, h: nat)
    requires Io(cfg, s) && Tasks(cfg, s) && h < |s.tasks| && s.tasks[h].chanClosed
    ensures var s' := DoOffer(s, choice);
            && h < |s'.tasks| && s'.tasks[h].chanClosed
            && s'.tasks[h].accepted == s.tasks[h].accepted
  {
    if s.receiver.Offering? {
      assert TaskOk(cfg, s.tasks[h]);
      OfferEffects(s, choice);
    }
  }

  lemma ClosedInputReceiver(cfg: Config, s: Server, re: ReceiverEvent, h: nat)
    requires Tasks(cfg, s) && Io(cfg, s) && h < |s.tasks| && s.tasks[h].chanClosed
    ensures var s' := DoReceiver(cfg, s, re);
            && h < |s'.tasks| && s'.tasks[h].chanClosed
            && s'.tasks[h].accepted == s.tasks[h].accepted
  {
    if re.Dispatch? {
      if s.receiver.Got? { ClosedInputDispatch(cfg, s, re.budget, h); }
    } else if re.Offer? {
      ClosedInputOffer(cfg, s, re.choice, h);
    } else if !re.FinishData? {
      ReceiverKept(cfg, s, re);
    }
  }

  lemma {:induction false} AfterMore(cfg: Config, es: seq<Event>, more: seq<Event>)
    requires more != []
    ensures var n := |more| - 1;
            After(cfg, es + more) == Apply(cfg, After(cfg, es + more[..n]), more[n])
  {
    assert (es + more)[..|es + more| - 1] == es + more[..|more| - 1];
  }

  /** Once the client has closed the stream for sending, nothing enters its method's queue any more, in any
      continuation. */
  lemma {:induction false} ClosedInputIsFinal(cfg: Config, es: seq<Event>, more: seq<Event>, h: nat)
    requires h < |After(cfg, es).tasks| && After(cfg, es).tasks[h].chanClosed
    ensures var (s, s') := (After(cfg, es), After(cfg, es + more));
            && h < |s'.tasks| && s'.tasks[h].chanClosed
            && s'.tasks[h].accepted == s.tasks[h].accepted
    decreases |more|
  {
    if more == [] {
      assert es + more == es;
    } else {
      var n := |more| - 1;
      AfterMore(cfg, es, more);
      ClosedInputIsFinal(cfg, es, more[..n], h);
      RunInv(cfg, es + more[..n]);
      ClosedInputStep(cfg, After(cfg, es + more[..n]), more[n], h);
    }
  }

  // ---------------------------------------------------------------- whose data reaches a method

  predicate OfferedLast(t: Task, t': Task, m: Msg) {
    IsData(m) && m.frame.sid == t.id && t'.offered == t.offered + [Item(m.frame.payload, Some(m.tok))]
  }

  /** What one step adds to the messages received and to what a method is offered. */
  ghost predicate OfferedStep(t: Task, t': Task, received: seq<Msg>, received': seq<Msg>) {
    && t'.id == t.id
    && (if received' == received then t'.offered == t.offered
        else
          && received' != [] && received'[..|received'| - 1] == received
          && (t'.offered == t.offered || OfferedLast(t, t', received'[|received'| - 1])))
  }

  lemma OfferedData(s: Server, s': Server, h: nat)
    requires Known(s.byId, s.tasks) && TableOk(s) && s.receiver.Got? && h < |s.tasks|
    requires s.receiver.m.frame.typ == DATA && !Unacceptable(s.receiver.m) && DataEffect(Noted(s), s', s.receiver.m)
    ensures h < |s'.tasks| && OfferedStep(s.tasks[h], s'.tasks[h], s.received, s'.received)
  {
  }

  lemma OfferedDispatch(cfg: Config, s: Server, budget: nat, h: nat)
    requires Known(s.byId, s.tasks) && TableOk(s) && s.receiver.Got? && h < |s.tasks|
    ensures var s' := DoDispatch(cfg, s, budget);
            h < |s'.tasks| && OfferedStep(s.tasks[h], s'.tasks[h], s.received, s'.received)
  {
    var m := s.receiver.m;
    DispatchCases(cfg, s, budget);
    if !Unacceptable(m) && m.frame.typ == DATA {
      DataEffects(Noted(s), m);
      OfferedData(s, DoDispatch(cfg, s, budget), h);
    } else if !Unacceptable(m) && m.frame.typ == REQUEST {
      RequestEffects(cfg, Noted(s), m, budget);
      assert DoDispatch(cfg, s, budget).tasks[h] == s.tasks[h];
    }
  }

  lemma OfferedReceiver(cfg: Config, s: Server, re: ReceiverEvent, h: nat)
    requires Known(s.byId, s.tasks) && TableOk(s) && h < |s.tasks|
    ensures var s' := DoReceiver(cfg, s, re);
            h < |s'.tasks| && OfferedStep(s.tasks[h], s'.tasks[h], s.received, s'.received)
  {
    if re.Dispatch? { if s.receiver.Got? { OfferedDispatch(cfg, s, re.budget, h); } }
    else if re.Offer? {
      if s.receiver.Offering? && s.receiver.h < |s.tasks| {
        AffectOffers(s.tasks[s.receiver.h], s.receiver.item, Decide(s.tasks[s.receiver.h], s.receiver.stage, re.choice));
      }
    } else if !re.FinishData? {
      ReceiverKept(cfg, s, re);
    }
  }

  lemma OfferedMain(cfg: Config, s: Server, me: MainEvent, h: nat)
    requires s.w.Valid() && h < |s.tasks|
    ensures var s' := DoMain(cfg, s, me);
            h < |s'.tasks| && OfferedStep(s.tasks[h], s'.tasks[h], s.received, s'.received)
  {
    if me.Write? {
      if s.main.Have? { WriteEffects(cfg, s, me.fate); }
    } else if !me.TakeFrom? {
      MainKeepsTasks(cfg, s, me);
    }
  }

  lemma OfferedTask(cfg: Config, s: Server, j: nat, te: TaskEvent, h: nat)
    requires h < |s.tasks|
    ensures var s' := DoTask(cfg, s, j, te);
            h < |s'.tasks| && OfferedStep(s.tasks[h], s'.tasks[h], s.received, s'.received)
  {
    TaskKeepsRest(cfg, s, j, te);
    if j < |s.tasks| && TaskCan(cfg, s.tasks[j], te, s.main.Ended?) { TaskStepSame(cfg, s.tasks[j], te, s.main.Ended?); }
  }

  lemma OfferedApply(cfg: Config, s: Server, e: Event, h: nat)
    requires Known(s.byId, s.tasks) && TableOk(s) && s.w.Valid() && h < |s.tasks|
    ensures var s' := Apply(cfg, s, e);
            h < |s'.tasks| && OfferedStep(s.tasks[h], s'.tasks[h], s.received, s'.received)
  {
    match e
    case Recv(re) => OfferedReceiver(cfg, s, re, h);
    case Method(j, te) => OfferedTask(cfg, s, j, te, h);
    case Respond(me) => OfferedMain(cfg, s, me, h);
    case CloseServerConn =>
  }

  /** What a method is offered, once it runs, is data received under its own id, each message once and in the
      order received: no other stream's messages reach its queue, in any continuation. */
  lemma {:induction false} DataIsolation(cfg: Config, es: seq<Event>, more: seq<Event>, h: nat)
    requires h < |After(cfg, es).tasks|
    ensures var (s, s') := (After(cfg, es), After(cfg, es + more));
            && h < |s'.tasks| && s'.tasks[h].id == s.tasks[h].id
            && s.received <= s'.received && s.tasks[h].offered <= s'.tasks[h].offered
            && Subseq(s'.tasks[h].offered[|s.tasks[h].offered|..], DataOf(s'.received[|s.received|..], s.tasks[h].id))
    decreases |more|
  {
    if more == [] {
      assert es + more == es;
    } else {
      var n := |more| - 1;
      var (s, mid) := (After(cfg, es), After(cfg, es + more[..n]));
      AfterMore(cfg, es, more);
      DataIsolation(cfg, es, more[..n], h);
      RunInv(cfg, es + more[..n]);
      OfferedApply(cfg, mid, more[n], h);
      var s' := After(cfg, es + more);
      SubseqStep(mid.tasks[h], s'.tasks[h], mid.received, s'.received, |s.tasks[h].offered|, |s.received|);
    }
  }

  lemma SubseqStep(t: Task, t': Task, received: seq<Msg>, received': seq<Msg>, i: nat, j: nat)
    requires OfferedStep(t, t', received, received') && i <= |t.offered| && j <= |received|
    requires Subseq(t.offered[i..], DataOf(received[j..], t.id))
    ensures i <= |t'.offered| && j <= |received'| && received <= received'
    ensures Subseq(t'.offered[i..], DataOf(received'[j..], t.id))
  {
    if received' != received || t'.offered != t.offered {
      var m := received'[|received'| - 1];
      var item := Item(m.frame.payload, Some(m.tok));
      assert received'[j..] == received[j..] + [m];
      DataOfSnoc(received[j..], m, t.id);
      if t'.offered != t.offered {
        assert t'.offered[i..] == t.offered[i..] + [item];
        SubseqBoth(t.offered[i..], DataOf(received[j..], t.id), item);
      } else if IsData(m) && m.frame.sid == t.id {
        SubseqRight(t.offered[i..], DataOf(received[j..], t.id), item);
      } else {
        assert DataOf(received'[j..], t.id) == DataOf(received[j..], t.id);
      }
    }
  }

  // ---------------------------------------------------------------- goroutine exit

  /** Responses a method will still hand over at most. */
  function Remaining(t: Task): nat {
    match t.pc
    case Running => t.left + 1
    case Sending(_) => t.left + 2
    case Final(_) => 1
    case Gone => 0
  }

  function Undelivered(ts: seq<Task>): nat {
    if ts == [] then 0 else Undelivered(ts[..|ts| - 1]) + Remaining(ts[|ts| - 1])
  }

  lemma {:induction false} UndeliveredUpdate(ts: seq<Task>, h: nat, t: Task)
    requires h < |ts|
    ensures Undelivered(ts[h := t]) == Undelivered(ts) - Remaining(ts[h]) + Remaining(t)
  {
    var n := |ts| - 1;
    if h == n {
      assert ts[h := t][..n] == ts[..n];
    } else {
      UndeliveredUpdate(ts[..n], h, t);
      assert ts[h := t][..n] == ts[..n][h := t];
    }
  }

  /** What the response loop can still be handed once nothing new is received. */
  function Work(s: Server): nat { Undelivered(s.tasks) + (if s.err.taken then 0 else 1) }

  lemma TaskWork(cfg: Config, t: Task, te: TaskEvent, done: bool)
    requires TaskCan(cfg, t, te, done)
    ensures Remaining(TaskStep(cfg, t, te, done)) <= Remaining(t)
  {
  }

  /** What else a main step can change in the measure. */
  lemma MainWork(cfg: Config, s: Server, me: MainEvent)
    requires s.receiver.Stopped? && s.w.Valid()
    ensures var s' := DoMain(cfg, s, me);
            && s'.receiver.Stopped?
            && Work(s') <= Work(s)
            && (s.main.Selecting? && !s'.main.Selecting? ==> Work(s') < Work(s) || s'.main.Left?)
  {
    if me.TakeFrom? { TakeFromWork(s, me.h); }
    else if me.Write? { WriteWork(cfg, s, me.fate); }
    else {
      MainKeepsTasks(cfg, s, me);
      MainWorkOther(cfg, s, me);
    }
  }

  lemma TakeFromWork(s: Server, h: nat)
    requires s.receiver.Stopped?
    ensures var s' := DoTakeFrom(s, h);
            s'.receiver.Stopped? && (if s'.main == s.main then s' == s else Work(s') < Work(s))
  {
    if s.main.Selecting? && h < |s.tasks| && (s.tasks[h].pc.Sending? || s.tasks[h].pc.Final?) {
      UndeliveredUpdate(s.tasks, h, Handed(s.tasks[h]));
    }
  }

  lemma WriteWork(cfg: Config, s: Server, fate: Fate)
    requires s.receiver.Stopped? && s.w.Valid()
    ensures var s' := DoWrite(cfg, s, fate);
            s'.receiver.Stopped? && Work(s') == Work(s) && (s.main.Selecting? ==> s' == s)
  {
    if s.main.Have? {
      WriteEffects(cfg, s, fate);
      if s.main.src.Some? && s.main.src.value < |s.tasks| {
        var t := s.tasks[s.main.src.value];
        UndeliveredUpdate(s.tasks, s.main.src.value, t.(outs := t.outs + [s.main.o]));
      }
      WriteErr(cfg, s, fate);
    }
  }

  lemma WriteErr(cfg: Config, s: Server, fate: Fate)
    ensures DoWrite(cfg, s, fate).err == s.err
  {
  }

  lemma MainWorkOther(cfg: Config, s: Server, me: MainEvent)
    requires s.receiver.Stopped? && !me.TakeFrom? && !me.Write?
    ensures var s' := DoMain(cfg, s, me);
            && s'.receiver.Stopped?
            && (s.err.taken ==> s'.err.taken)
            && (s.main.Selecting? && !s'.main.Selecting? ==> (s'.err.taken && !s.err.taken) || s'.main.Left?)
  {
  }

  lemma WorkStep(cfg: Config, s: Server, e: Event)
    requires s.receiver.Stopped? && s.w.Valid()
    ensures var s' := Apply(cfg, s, e);
            && s'.receiver.Stopped?
            && Work(s') <= Work(s)
            && (s.main.Selecting? && !s'.main.Selecting? ==> Work(s') < Work(s) || s'.main.Left?)
  {
    match e
    case Recv(re) => StoppedForGood(cfg, s, re);
    case Method(h, te) =>
      if h < |s.tasks| && TaskCan(cfg, s.tasks[h], te, s.main.Ended?) {
        TaskWork(cfg, s.tasks[h], te, s.main.Ended?);
        UndeliveredUpdate(s.tasks, h, TaskStep(cfg, s.tasks[h], te, s.main.Ended?));
      }
    case Respond(me) => MainWork(cfg, s, me);
    case CloseServerConn =>
  }

  /** The turns of the response loop in a continuation: how often one of its selects is decided. */
  function Turns(cfg: Config, es: seq<Event>, more: seq<Event>): nat {
    if more == [] then 0
    else
      var n := |more| - 1;
      var (s, s') := (After(cfg, es + more[..n]), After(cfg, es + more));
      Turns(cfg, es, more[..n]) + (if s.main.Selecting? && !s'.main.Selecting? then 1 else 0)
  }

  lemma OutForGood(cfg: Config, s: Server, e: Event)
    ensures InLoop(Apply(cfg, s, e).main) ==> InLoop(s.main)
  {
    match e
    case Recv(re) => ReceiverNobodyGone(cfg, s, re);
    case Method(h, te) => TaskKeepsRest(cfg, s, h, te);
    case Respond(me) =>
    case CloseServerConn =>
  }

  /** Once the receiver has stopped, in every continuation each turn of the response loop uses up work, and no
      step adds any: the loop takes at most as many turns as there are responses and errors left, and one
      more, with which it leaves. */
  lemma {:induction false} LoopWindsDown(cfg: Config, es: seq<Event>, more: seq<Event>)
    requires After(cfg, es).receiver.Stopped?
    ensures var (s, s') := (After(cfg, es), After(cfg, es + more));
            && s'.receiver.Stopped?
            && Turns(cfg, es, more) + Work(s') <= Work(s) + (if InLoop(s'.main) then 0 else 1)
    decreases |more|
  {
    if more == [] {
      assert es + more == es;
    } else {
      var n := |more| - 1;
      AfterMore(cfg, es, more);
      LoopWindsDown(cfg, es, more[..n]);
      RunInv(cfg, es + more[..n]);
      WorkStep(cfg, After(cfg, es + more[..n]), more[n]);
      OutForGood(cfg, After(cfg, es + more[..n]), more[n]);
    }
  }

  lemma StoppedForGood(cfg: Config, s: Server, re: ReceiverEvent)
    requires s.receiver.Stopped?
    ensures DoReceiver(cfg, s, re) == s
  {
  }

  /** A method that has not ended can hand something over, once it has decided what. */
  predicate CanHandOver(cfg: Config, t: Task) {
    t.pc.Sending? || t.pc.Final? || (t.pc.Running? && TaskCan(cfg, t, Finish(UNKNOWN, None), false))
  }

  /** After the shutdown signal the loop is never stuck: either the shutdown branch is open, or some
      counted stream has a response still to come. */
  lemma {:induction false} LoopCanLeave(cfg: Config, es: seq<Event>)
    requires After(cfg, es).shutdown && After(cfg, es).main.Selecting?
    ensures var s := After(cfg, es);
            || Apply(cfg, s, Respond(SeeShutdown)).main.Left?
            || exists h :: 0 <= h < |s.tasks| && h in s.ledger.counted && CanHandOver(cfg, s.tasks[h])
  {
    RunInv(cfg, es);
    BusyHasWork(cfg, After(cfg, es));
  }

  lemma BusyHasWork(cfg: Config, s: Server)
    requires Closes(s) && Counts(s) && s.main.Selecting?
    ensures s.main.busy ==> exists h :: 0 <= h < |s.tasks| && h in s.ledger.counted && CanHandOver(cfg, s.tasks[h])
  {
    if s.main.busy {
      Differences(s.ledger.counted, s.ledger.finished);
      assert s.ledger.counted - s.ledger.finished != {};
      var h :| h in s.ledger.counted - s.ledger.finished;
      assert !s.tasks[h].pc.Gone?;
      assert CanHandOver(cfg, s.tasks[h]);
    }
  }

  /** recvErr holds at most one value ever, so its sender never blocks; and once the loop has ended,
      every goroutine blocked on a response has a way out. */
  lemma {:induction false} BlockedCanExit(cfg: Config, es: seq<Event>)
    ensures After(cfg, es).err.puts <= 1 && Unblocked(cfg, After(cfg, es))
  {
    RunInv(cfg, es);
    ExitsOpen(cfg, After(cfg, es));
  }

  ghost predicate Unblocked(cfg: Config, s: Server) {
    && (s.receiver.Failing? ==> Apply(cfg, s, Recv(PutErr)).receiver.Exiting?)
    && (s.main.Left? ==> Apply(cfg, s, Respond(End)).main.Ended?)
    && (s.main.Ended? && s.receiver.SendingStatus? ==> Apply(cfg, s, Recv(AbortStatus)).receiver.Exiting?)
    && (s.main.Ended? ==> forall h | 0 <= h < |s.tasks| ::
          && (s.tasks[h].pc.Sending? ==> TaskCan(cfg, s.tasks[h], AbortSend, s.main.Ended?))
          && (s.tasks[h].pc.Final? ==> TaskCan(cfg, s.tasks[h], AbortFinal, s.main.Ended?)))
  }

  lemma ExitsOpen(cfg: Config, s: Server)
    requires ErrOk(s)
    ensures Unblocked(cfg, s)
  {
  }

  // ---------------------------------------------------------------- buffers

  /** No buffer is put back twice, and none a queued closure or the receiver's hand still reads. */
  lemma {:induction false} BufferDiscipline(cfg: Config, es: seq<Event>)
    ensures var s := After(cfg, es);
            && !s.bufs.doublePut
            && (forall h | 0 <= h < |s.tasks| :: NotPut(Flow(s.tasks[h], InHand(s, h)), |s.tasks[h].got|, s.bufs.puts))
            && (s.receiver.Got? ==> s.receiver.m.tok !in s.bufs.puts)
  {
    RunInv(cfg, es);
    var s := After(cfg, es);
    forall h | 0 <= h < |s.tasks| ensures NotPut(Flow(s.tasks[h], InHand(s, h)), |s.tasks[h].got|, s.bufs.puts) {
      assert FlowOk(s.tasks[h], InHand(s, h), s.received, s.bufs.puts);
    }
  }
}
