/** What each side has read is a prefix of what the other has written. */
module SystemLinks {
  import opened Types
  import opened Framing
  import opened StreamQueue
  import opened System
  import C = ClientEngine
  import S = ServerEngine
  import CT = ClientTable
  import CR = ClientRuns
  import ST = ServerTasks
  import SIo = ServerIo
  import SR = ServerRuns

  function ClientRead(c: C.Client): seq<Frame> {
    Frames(c.seen) + (if c.loop.Read? then [c.loop.m.frame] else [])
  }

  function ServerRead(s: S.Server): seq<Frame> {
    Frames(s.received) + (if s.receiver.Got? then [s.receiver.m.frame] else [])
  }

  /** One direction of the connection. */
  ghost predicate Link(w: Writer, read: seq<Frame>, pos: nat) {
    read <= w.frames && pos == |EncodeAll(read)|
  }

  lemma FramesAppend(ms: seq<Msg>, m: Msg)
    ensures Frames(ms + [m]) == Frames(ms) + [m.frame]
  {
  }

  lemma ClientKeepsRead(cfg: Config, c: C.Client, e: C.Event)
    requires !(e.Receive? && e.le.ReadFrame?) && CT.Openings(c)
    ensures ClientRead(C.Apply(cfg, c, e)) == ClientRead(c)
  {
    match e
    case Caller(ce) => CT.CallerEffects(cfg, c, ce);
    case Receive(le) => ClientLoopKeepsRead(c, le);
    case Consume(k, ev) => CT.ConsumerEffects(cfg, c, k, ev);
  }

  lemma ClientLoopKeepsRead(c: C.Client, le: C.LoopEvent)
    requires !le.ReadFrame?
    ensures ClientRead(C.DoLoop(c, le)) == ClientRead(c)
  {
    if le.Lookup? {
      if c.loop.Read? {
        FramesAppend(c.seen, c.loop.m);
        assert Frames(c.seen) + [c.loop.m.frame] + [] == Frames(c.seen) + [c.loop.m.frame];
      }
    } else if !le.Deliver? {
      CT.QuietEffects(c, le);
    }
  }

  lemma ServerKeepsRead(cfg: Config, s: S.Server, e: S.Event)
    requires !(e.Recv? && e.re.ReadFrame?)
    ensures ServerRead(S.Apply(cfg, s, e)) == ServerRead(s)
  {
    match e
    case Recv(re) => ServerReceiverKeepsRead(cfg, s, re);
    case Method(h, te) => ST.PlainTask(cfg, s, h, te); SR.TaskKeepsRest(cfg, s, h, te);
    case Respond(me) => ServerMainKeepsRead(cfg, s, me);
    case CloseServerConn =>
  }

  lemma ServerMainKeepsRead(cfg: Config, s: S.Server, me: S.MainEvent)
    ensures ServerRead(S.DoMain(cfg, s, me)) == ServerRead(s)
  {
    ST.PlainMain(cfg, s, me);
    MainReceiver(cfg, s, me);
  }

  lemma MainReceiver(cfg: Config, s: S.Server, me: S.MainEvent)
    ensures var r := S.DoMain(cfg, s, me).receiver; r == s.receiver || (s.receiver.SendingStatus? && r.Top?)
  {
  }

  /** Dispatching a message moves it from the hand to the received ones. */
  lemma DispatchReceives(cfg: Config, s: S.Server, budget: nat)
    requires s.receiver.Got?
    ensures var s' := S.DoDispatch(cfg, s, budget);
            s'.received == s.received + [s.receiver.m] && !s'.receiver.Got?
  {
    ST.DispatchCases(cfg, s, budget);
    var m := s.receiver.m;
    if !ST.Unacceptable(m) && m.frame.typ == DATA { ST.DataEffects(ST.Noted(s), m); }
    else if !ST.Unacceptable(m) && m.frame.typ == REQUEST { ST.RequestEffects(cfg, ST.Noted(s), m, budget); }
  }

  lemma ServerReceiverKeepsRead(cfg: Config, s: S.Server, re: S.ReceiverEvent)
    requires !re.ReadFrame?
    ensures ServerRead(S.DoReceiver(cfg, s, re)) == ServerRead(s)
  {
    if re.Dispatch? {
      if s.receiver.Got? {
        DispatchReceives(cfg, s, re.budget);
        FramesAppend(s.received, s.receiver.m);
        assert Frames(s.received) + [s.receiver.m.frame] + [] == Frames(s.received) + [s.receiver.m.frame];
      }
    } else {
      ST.PlainReceiver(cfg, s, re);
      OtherReceiver(cfg, s, re);
    }
  }

  lemma OtherReceiver(cfg: Config, s: S.Server, re: S.ReceiverEvent)
    requires !re.ReadFrame? && !re.Dispatch?
    ensures var r := S.DoReceiver(cfg, s, re).receiver; r == s.receiver || (!r.Got? && !s.receiver.Got?)
  {
  }

  lemma ServerWritesMore(cfg: Config, s: S.Server, e: S.Event)
    requires s.w.Valid()
    ensures s.w.frames <= S.Apply(cfg, s, e).w.frames
  {
    match e
    case Recv(re) => ReceiverWritesNothing(cfg, s, re);
    case Method(h, te) =>
    case Respond(me) => MainWritesMore(cfg, s, me);
    case CloseServerConn =>
  }

  lemma MainWritesMore(cfg: Config, s: S.Server, me: S.MainEvent)
    requires s.w.Valid()
    ensures s.w.frames <= S.DoMain(cfg, s, me).w.frames
  {
    if me.Write? { if s.main.Have? { SIo.WriteEffects(cfg, s, me.fate); } }
  }

  lemma ReceiverWritesNothing(cfg: Config, s: S.Server, re: S.ReceiverEvent)
    ensures S.DoReceiver(cfg, s, re).w == s.w
  {
    if re.Dispatch? { ST.DispatchKeeps(cfg, s, re.budget); }
  }

  ghost predicate Linked(cfg: Config, y: Sys) {
    && CR.Inv(cfg, y.c) && SR.Inv(cfg, y.s)
    && Link(y.c.w, ServerRead(y.s), y.sPos)
    && Link(y.s.w, ClientRead(y.c), y.cPos)
  }

  /** Reading from a linked direction yields the next frame written. */
  lemma ReadLinked(w: Writer, read: seq<Frame>, pos: nat)
    requires w.Valid() && Link(w, read, pos)
    ensures var r := Parse(InFlight(w, pos));
            r.Whole? ==> |read| < |w.frames| && r.frame == w.frames[|read|] && Link(w, read + [r.frame], pos + r.used)
  {
    NextFrame(w, read);
  }

  lemma LinkedClient(cfg: Config, y: Sys, ce: C.Event)
    requires Linked(cfg, y) && Allowed(cfg, ce)
    ensures Linked(cfg, y.(c := C.Apply(cfg, y.c, ce)))
  {
    CR.StepInv(cfg, y.c, ce);
    ClientKeepsRead(cfg, y.c, ce);
    CR.WritesMore(cfg, y.c, ce);
  }

  lemma LinkedServer(cfg: Config, y: Sys, se: S.Event)
    requires Linked(cfg, y) && !(se.Recv? && se.re.ReadFrame?)
    ensures Linked(cfg, y.(s := S.Apply(cfg, y.s, se)))
  {
    SR.StepInv(cfg, y.s, se);
    ServerKeepsRead(cfg, y.s, se);
    ServerWritesMore(cfg, y.s, se);
  }

  /** What a read changes of the client, and of its direction of the connection. */
  lemma ClientReadKeeps(cfg: Config, y: Sys)
    requires CR.Inv(cfg, y.c)
    ensures var y' := Apply(cfg, y, ClientReads); CR.Inv(cfg, y'.c) && y'.c.w == y.c.w && y'.s == y.s && y'.sPos == y.sPos
  {
    var r := Parse(InFlight(y.s.w, y.cPos));
    if y.c.loop.Reading? && r.Whole? { ClientReadInv(cfg, y.c, r.frame); }
  }

  lemma ClientReadLinks(cfg: Config, y: Sys)
    requires y.s.w.Valid() && Link(y.s.w, ClientRead(y.c), y.cPos)
    ensures var y' := Apply(cfg, y, ClientReads); Link(y.s.w, ClientRead(y'.c), y'.cPos)
  {
    var r := Parse(InFlight(y.s.w, y.cPos));
    if y.c.loop.Reading? && r.Whole? {
      ReadLinked(y.s.w, ClientRead(y.c), y.cPos);
      assert Frames(y.c.seen) + [] == Frames(y.c.seen);
    }
  }

  lemma ClientReadInv(cfg: Config, c: C.Client, f: Frame)
    requires CR.Inv(cfg, c) && c.loop.Reading?
    ensures CR.Inv(cfg, C.DoRead(c, f))
  {
    var e := C.Receive(C.ReadFrame(f));
    assert C.Apply(cfg, c, e) == C.DoRead(c, f);
    CR.StepInv(cfg, c, e);
  }

  lemma LinkedClientReads(cfg: Config, y: Sys)
    requires Linked(cfg, y)
    ensures Linked(cfg, Apply(cfg, y, ClientReads))
  {
    ClientReadKeeps(cfg, y);
    ClientReadLinks(cfg, y);
  }

  /** The same of the server. */
  lemma ServerReadKeeps(cfg: Config, y: Sys)
    requires SR.Inv(cfg, y.s)
    ensures var y' := Apply(cfg, y, ServerReads); SR.Inv(cfg, y'.s) && y'.s.w == y.s.w && y'.c == y.c && y'.cPos == y.cPos
  {
    var r := Parse(InFlight(y.c.w, y.sPos));
    if y.s.receiver.Reading? && r.Whole? { ServerReadInv(cfg, y.s, r.frame); }
  }

  lemma ServerReadLinks(cfg: Config, y: Sys)
    requires y.c.w.Valid() && Link(y.c.w, ServerRead(y.s), y.sPos)
    ensures var y' := Apply(cfg, y, ServerReads); Link(y.c.w, ServerRead(y'.s), y'.sPos)
  {
    var r := Parse(InFlight(y.c.w, y.sPos));
    if y.s.receiver.Reading? && r.Whole? {
      ReadLinked(y.c.w, ServerRead(y.s), y.sPos);
      assert Frames(y.s.received) + [] == Frames(y.s.received);
    }
  }

  lemma ServerReadInv(cfg: Config, s: S.Server, f: Frame)
    requires SR.Inv(cfg, s) && s.receiver.Reading?
    ensures SR.Inv(cfg, S.DoRead(s, f))
  {
    var e := S.Recv(S.ReadFrame(f));
    assert S.Apply(cfg, s, e) == S.DoRead(s, f);
    SR.StepInv(cfg, s, e);
  }

  lemma LinkedServerReads(cfg: Config, y: Sys)
    requires Linked(cfg, y)
    ensures Linked(cfg, Apply(cfg, y, ServerReads))
  {
    ServerReadKeeps(cfg, y);
    ServerReadLinks(cfg, y);
  }

  lemma LinkedStep(cfg: Config, y: Sys, e: Event)
    requires Linked(cfg, y)
    ensures Linked(cfg, Apply(cfg, y, e))
  {
    match e
    case ClientStep(ce) => if Allowed(cfg, ce) { LinkedClient(cfg, y, ce); }
    case ServerStep(se) => if !(se.Recv? && se.re.ReadFrame?) { LinkedServer(cfg, y, se); }
    case ClientReads => LinkedClientReads(cfg, y);
    case ServerReads => LinkedServerReads(cfg, y);
  }
}
