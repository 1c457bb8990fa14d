/** The joint system over every run: the server's last id is the client's last request, and none of the
    server's refusals is ever needed against this client. */
module SystemRuns {
  import opened Types
  import opened Framing
  import opened StreamQueue
  import opened System
  import opened SystemLinks
  import opened SystemCalls
  import C = ClientEngine
  import S = ServerEngine
  import CT = ClientTable
  import CS = ClientSends
  import CR = ClientRuns
  import ST = ServerTasks
  import SE = ServerEnds
  import SR = ServerRuns

  /** The id of the last request among the frames, 0 if there is none. */
  function LastRequest(fs: seq<Frame>): uint32 {
    if fs == [] then 0
    else if fs[|fs| - 1].typ == REQUEST then fs[|fs| - 1].sid
    else LastRequest(fs[..|fs| - 1])
  }

  lemma LastRequestSnoc(fs: seq<Frame>, f: Frame)
    ensures LastRequest(fs + [f]) == if f.typ == REQUEST then f.sid else LastRequest(fs)
  {
    assert (fs + [f])[..|fs|] == fs;
  }

  lemma {:induction false} LastRequestIsThere(fs: seq<Frame>)
    ensures LastRequest(fs) == 0 || exists i :: 0 <= i < |fs| && fs[i].typ == REQUEST && fs[i].sid == LastRequest(fs)
  {
    if fs != [] && fs[|fs| - 1].typ != REQUEST {
      LastRequestIsThere(fs[..|fs| - 1]);
    }
  }

  ghost predicate Ordered(y: Sys) {
    CT.Small(y.c) ==> y.s.lastId == LastRequest(Frames(y.s.received)) && !y.s.receiver.Panicked?
  }

  ghost predicate SysInv(cfg: Config, y: Sys) {
    Linked(cfg, y) && Matched(cfg, y.c) && NothingEarly(y.c) && Ordered(y)
  }

  /** The message in the receiver's hand is the next frame the client wrote. */
  lemma InHandIsNext(cfg: Config, y: Sys)
    requires Linked(cfg, y) && y.s.receiver.Got?
    ensures Frames(y.s.received) + [y.s.receiver.m.frame] <= y.c.w.frames
    ensures y.s.receiver.m.frame in y.c.w.frames
  {
    var n := |y.s.received|;
    assert ServerRead(y.s)[n] == y.s.receiver.m.frame;
    assert y.c.w.frames[n] == ServerRead(y.s)[n];
  }

  lemma LaterRequest(fs: seq<Frame>, read: seq<Frame>, f: Frame)
    requires read + [f] <= fs && CS.RequestsIncrease(fs) && f.typ == REQUEST && f.sid % 2 == 1
    ensures LastRequest(read) < f.sid
  {
    LastRequestIsThere(read);
    if LastRequest(read) != 0 {
      var i :| 0 <= i < |read| && read[i].typ == REQUEST && read[i].sid == LastRequest(read);
      assert fs[i] == read[i] && fs[|read|] == f;
    }
  }

  /** What the receiver is about to dispatch on is acceptable. */
  ghost predicate NoRefusal(s: S.Server) {
    s.receiver.Got? ==>
      var f := s.receiver.m.frame;
      && f.sid % 2 == 1 && |f.payload| <= MAX_LENGTH && f.typ in {REQUEST, DATA}
      && (f.typ == REQUEST ==> f.sid > s.lastId)
      && (f.typ == DATA && f.sid in s.table ==> s.table[f.sid] < |s.tasks| && s.tasks[s.table[f.sid]].kind.Streaming?)
  }

  lemma NothingRefused(cfg: Config, y: Sys)
    requires Linked(cfg, y) && Matched(cfg, y.c) && Ordered(y) && CT.Small(y.c) && cfg.Lawful()
    ensures NoRefusal(y.s)
  {
    if y.s.receiver.Got? {
      var f := y.s.receiver.m.frame;
      InHandIsNext(cfg, y);
      ClientFrame(cfg, y.c, f);
      assert |f.payload| <= MAX_LENGTH;
      if f.typ == REQUEST { LaterRequest(y.c.w.frames, Frames(y.s.received), f); }
      if f.typ == DATA && f.sid in y.s.table {
        TaskOfStream(cfg, y, y.s.table[f.sid]);
      }
    }
  }

  /** A larger id is always recorded, whatever becomes of the request. */
  lemma DispatchRecords(cfg: Config, s: S.Server, budget: nat)
    requires s.receiver.Got? && NoRefusal(s)
    ensures var s' := S.DoDispatch(cfg, s, budget);
            && s'.received == s.received + [s.receiver.m]
            && s'.lastId == (if s.receiver.m.frame.typ == REQUEST then s.receiver.m.frame.sid else s.lastId)
            && !s'.receiver.Panicked?
  {
    DispatchReceives(cfg, s, budget);
    ST.DispatchCases(cfg, s, budget);
    var m := s.receiver.m;
    if m.frame.typ == DATA { ST.DataEffects(ST.Noted(s), m); } else { RequestRecords(cfg, ST.Noted(s), m, budget); }
  }

  lemma RequestRecords(cfg: Config, s: S.Server, m: Msg, budget: nat)
    requires m.frame.sid > s.lastId
    ensures var s' := S.DispatchRequest(cfg, s, m, budget); s'.lastId == m.frame.sid && !s'.receiver.Panicked?
  {
  }

  lemma OrderedServer(cfg: Config, y: Sys, se: S.Event)
    requires SysInv(cfg, y) && cfg.Lawful() && !(se.Recv? && se.re.ReadFrame?)
    ensures Ordered(y.(s := S.Apply(cfg, y.s, se)))
  {
    if CT.Small(y.c) {
      if se.Recv? && se.re.Dispatch? {
        if y.s.receiver.Got? {
          NothingRefused(cfg, y);
          DispatchRecords(cfg, y.s, se.re.budget);
          FramesAppend(y.s.received, y.s.receiver.m);
          LastRequestSnoc(Frames(y.s.received), y.s.receiver.m.frame);
        }
      } else {
        SR.StepInv(cfg, y.s, se);
        PlainStep(cfg, y.s, se);
        HandlersStream(cfg, y);
        NoNewPanic(cfg, y.s, se);
      }
    }
  }

  lemma PlainStep(cfg: Config, s: S.Server, se: S.Event)
    requires !(se.Recv? && se.re.Dispatch?)
    ensures ST.Plain(s, S.Apply(cfg, s, se))
  {
    match se
    case Recv(re) => ST.PlainReceiver(cfg, s, re);
    case Method(h, te) => ST.PlainTask(cfg, s, h, te);
    case Respond(me) => ST.PlainMain(cfg, s, me);
    case CloseServerConn =>
  }

  /** The stream whose data the receiver has just handled has a handler. */
  predicate HandlerStreams(s: S.Server) {
    s.receiver.AfterData? && s.receiver.h < |s.tasks| ==> s.tasks[s.receiver.h].kind.Streaming?
  }

  lemma HandlersStream(cfg: Config, y: Sys)
    requires Linked(cfg, y) && CT.Small(y.c) && Matched(cfg, y.c) && cfg.Lawful()
    ensures HandlerStreams(y.s)
  {
    if y.s.receiver.AfterData? && y.s.receiver.h < |y.s.tasks| {
      TaskOfStream(cfg, y, y.s.receiver.h);
      InWorkIsData(y.s);
      ReceivedIsWritten(cfg, y, |y.s.received| - 1);
      DataStreams(cfg, y.c, y.s.receiver.m.frame);
    }
  }

  lemma InWorkIsData(s: S.Server)
    requires SE.Ends(s) && s.receiver.AfterData? && s.receiver.h < |s.tasks|
    ensures s.received != [] && s.received[|s.received| - 1] == s.receiver.m
    ensures s.receiver.m.frame.typ == DATA && s.receiver.m.frame.sid == s.tasks[s.receiver.h].id
  {
  }

  /** Only a client that streams sends data. */
  lemma DataStreams(cfg: Config, c: C.Client, f: Frame)
    requires CS.Sends(cfg, c) && CT.Small(c) && f in c.w.frames && f.typ == DATA
    ensures f.sid / 2 < |c.entries| && c.entries[f.sid / 2].kind.Streaming?
  {
    ClientFrame(cfg, c, f);
  }

  /** Only data can find a nil handler. */
  lemma NoNewPanic(cfg: Config, s: S.Server, se: S.Event)
    requires !(se.Recv? && se.re.Dispatch?) && !s.receiver.Panicked? && HandlerStreams(s)
    ensures S.Apply(cfg, s, se).receiver != S.Panicked(true)
  {
    match se
    case Recv(re) => ReceiverNoNil(cfg, s, re);
    case Method(h, te) => SR.TaskKeepsRest(cfg, s, h, te);
    case Respond(me) => MainReceiver(cfg, s, me);
    case CloseServerConn =>
  }

  lemma ReceiverNoNil(cfg: Config, s: S.Server, re: S.ReceiverEvent)
    requires !re.Dispatch? && !s.receiver.Panicked? && HandlerStreams(s)
    ensures S.DoReceiver(cfg, s, re).receiver != S.Panicked(true)
  {
  }

  lemma SysStep(cfg: Config, y: Sys, e: Event)
    requires SysInv(cfg, y) && cfg.Lawful()
    ensures SysInv(cfg, Apply(cfg, y, e))
  {
    LinkedStep(cfg, y, e);
    CrossStep(cfg, y, e);
  }

  lemma CrossStep(cfg: Config, y: Sys, e: Event)
    requires SysInv(cfg, y) && cfg.Lawful()
    ensures var y' := Apply(cfg, y, e); Matched(cfg, y'.c) && NothingEarly(y'.c) && Ordered(y')
  {
    match e
    case ClientStep(ce) => if Allowed(cfg, ce) { SysClient(cfg, y, ce); }
    case ServerStep(se) => if !(se.Recv? && se.re.ReadFrame?) { OrderedServer(cfg, y, se); }
    case ClientReads => SysClientReads(cfg, y);
    case ServerReads => OrderedReads(cfg, y);
  }

  lemma OrderedReads(cfg: Config, y: Sys)
    requires Ordered(y)
    ensures var y' := Apply(cfg, y, ServerReads); y'.c == y.c && Ordered(y')
  {
  }

  lemma SysClient(cfg: Config, y: Sys, ce: C.Event)
    requires SysInv(cfg, y) && Allowed(cfg, ce)
    ensures var c' := C.Apply(cfg, y.c, ce);
            Matched(cfg, c') && NothingEarly(c') && Ordered(y.(c := c'))
  {
    MatchedStep(cfg, y.c, ce);
    NothingEarlyStep(cfg, y, ce);
    CR.EntriesGrow(cfg, y.c, ce);
  }

  lemma SysClientReads(cfg: Config, y: Sys)
    requires Matched(cfg, y.c) && NothingEarly(y.c) && Ordered(y)
    ensures var c' := Apply(cfg, y, ClientReads).c; Matched(cfg, c') && NothingEarly(c') && Ordered(y.(c := c'))
  {
    var r := Parse(InFlight(y.s.w, y.cPos));
    if y.c.loop.Reading? && r.Whole? {
      NothingEarlyKept(y.c, C.DoRead(y.c, r.frame));
    }
  }

  lemma SysInit(cfg: Config)
    ensures SysInv(cfg, Init())
  {
    LinkedInit(cfg);
  }

  lemma LinkedInit(cfg: Config)
    ensures Linked(cfg, Init())
  {
    CR.InitInv(cfg);
    SR.InitInv(cfg);
    NothingRead();
  }

  lemma NothingRead()
    ensures Link(C.Init().w, ServerRead(S.Init()), 0) && Link(S.Init().w, ClientRead(C.Init()), 0)
  {
  }

  lemma {:induction false} SysRun(cfg: Config, es: seq<Event>)
    requires cfg.Lawful()
    ensures SysInv(cfg, After(cfg, es))
  {
    if es == [] {
      SysInit(cfg);
    } else {
      SysRun(cfg, es[..|es| - 1]);
      SysStep(cfg, After(cfg, es[..|es| - 1]), es[|es| - 1]);
    }
  }
}
