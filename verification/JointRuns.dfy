/** Building runs of both endpoints: what one side writes the other reads, step by step, from the initial
    state on. */
module JointRuns {
  import opened Types
  import opened Framing
  import opened StreamQueue
  import opened System
  import opened SystemLinks
  import opened SystemRuns
  import C = ClientEngine
  import S = ServerEngine

  /** The joint state is reachable. */
  ghost predicate Reached(cfg: Config, y: Sys) { exists es :: After(cfg, es) == y }

  lemma {:induction false} Step(cfg: Config, y: Sys, e: Event)
    requires Reached(cfg, y)
    ensures Reached(cfg, Apply(cfg, y, e))
  {
    var es :| After(cfg, es) == y;
    assert (es + [e])[..|es|] == es;
    assert After(cfg, es + [e]) == Apply(cfg, y, e);
  }

  lemma ServerStepTo(cfg: Config, y: Sys, se: S.Event, s': S.Server)
    requires Reached(cfg, y) && !(se.Recv? && se.re.ReadFrame?) && s' == S.Apply(cfg, y.s, se)
    ensures Reached(cfg, y.(s := s'))
  {
    Step(cfg, y, ServerStep(se));
  }

  lemma ClientStepTo(cfg: Config, y: Sys, ce: C.Event, c': C.Client)
    requires Reached(cfg, y) && Allowed(cfg, ce) && c' == C.Apply(cfg, y.c, ce)
    ensures Reached(cfg, y.(c := c'))
  {
    Step(cfg, y, ClientStep(ce));
  }

  lemma {:induction false} ReachedLinks(cfg: Config, y: Sys)
    requires cfg.Lawful() && Reached(cfg, y)
    ensures y.c.w.Valid() && Link(y.c.w, ServerRead(y.s), y.sPos) && y.s.w.Valid() && Link(y.s.w, ClientRead(y.c), y.cPos)
  {
    var es :| After(cfg, es) == y;
    SysRun(cfg, es);
  }

  /** The connection takes the whole frame. */
  function AllOf(f: Frame): Fate { Fate(|EncodeFrame(f)|, false) }

  /** The next frame on the wire. */
  lemma NextOnWire(w: Writer, read: seq<Frame>, pos: nat, f: Frame)
    requires w.Valid() && Link(w, read, pos) && w.frames == read + [f]
    ensures var r := Parse(InFlight(w, pos)); r.Whole? && r.frame == f
  {
    NextFrame(w, read);
  }

  /** The server reads the one frame it has not read. */
  lemma ToServer(cfg: Config, y: Sys, f: Frame) returns (y': Sys)
    requires cfg.Lawful() && Reached(cfg, y) && y.c.w.frames == ServerRead(y.s) + [f]
    requires y.s.receiver.Top? && !y.s.shutdown && !y.s.main.Ended?
    ensures Reached(cfg, y') && y'.c == y.c && y'.s == y.s.(receiver := S.Got(Msg(f, |y.s.received|)))
    ensures ServerRead(y'.s) == y'.c.w.frames
  {
    var y1 := y.(s := y.s.(receiver := S.Reading));
    ServerStepTo(cfg, y, S.Recv(S.Loop), y1.s);
    ReachedLinks(cfg, y1);
    NextOnWire(y1.c.w, ServerRead(y1.s), y1.sPos, f);
    Step(cfg, y1, ServerReads);
    y' := Apply(cfg, y1, ServerReads);
  }

  /** The client reads the one frame it has not read. */
  lemma ToClient(cfg: Config, y: Sys, f: Frame) returns (y': Sys)
    requires cfg.Lawful() && Reached(cfg, y) && y.s.w.frames == ClientRead(y.c) + [f]
    requires y.c.loop.Top? && !y.c.ctxDone
    ensures Reached(cfg, y') && y'.s == y.s && y'.c == y.c.(loop := C.Read(Msg(f, |y.c.seen|)))
    ensures ClientRead(y'.c) == y'.s.w.frames
  {
    var y1 := y.(c := y.c.(loop := C.Reading));
    ClientStepTo(cfg, y, C.Receive(C.LoopTop), y1.c);
    ReachedLinks(cfg, y1);
    NextOnWire(y1.s.w, ClientRead(y1.c), y1.cPos, f);
    Step(cfg, y1, ClientReads);
    y' := Apply(cfg, y1, ClientReads);
  }

  // ---------------------------------------------------------------- opening a stream

  /** A method of the kind, and a request that carries nothing for it but the call. */
  ghost predicate Callable(cfg: Config, req: Req, kind: Kind) {
    && cfg.Lawful() && cfg.kindOf(req.service, req.name) == Some(kind) && |cfg.reqEnc(req)| <= MAX_LENGTH
    && (kind.Streaming? ==> kind.client && req.payload == [])
  }

  /** The stream once its request has gone out. */
  function Stream0(req: Req, kind: Kind): C.Entry {
    C.Entry(NewInbox(1, if kind.Unary? then 1 else 64), kind, req, C.Opened, false, false,
            if kind.Unary? then C.Waiting else C.Idle, [], [], [], [], 0, false, 0)
  }

  function Request0(cfg: Config, req: Req, kind: Kind): Frame {
    Frame(1, 1, if kind.Unary? then 0 else 2, cfg.reqEnc(req))
  }

  function Opened(cfg: Config, req: Req, kind: Kind): C.Client {
    C.Client([Stream0(req, kind)], map[1 := 0], 3, false, C.Free, C.Top, [], Writer([Request0(cfg, req, kind)], [], false), {}, false, 0)
  }

  lemma Opens(cfg: Config, req: Req, kind: Kind) returns (c1: C.Client, c2: C.Client, c3: C.Client)
    requires Callable(cfg, req, kind)
    ensures c1 == C.Apply(cfg, C.Init(), C.Caller(C.BeginCreate(kind, req))) && c2 == C.Apply(cfg, c1, C.Caller(C.CheckClosed))
    ensures c3 == C.Apply(cfg, c2, C.Caller(C.Register))
    ensures C.Apply(cfg, c3, C.Caller(C.SendRequest(AllOf(Request0(cfg, req, kind))))) == Opened(cfg, req, kind)
  {
    c1 := C.Init().(sender := C.Held(kind, req));
    c2 := C.Init().(sender := C.Checked(kind, req));
    var e := C.NewEntry(C.Init(), kind, req);
    c3 := C.Init().(entries := [e], table := map[1 := 0], next := 3, sender := C.Registered(0));
    assert C.RequestFrame(cfg, e) == Request0(cfg, req, kind) && C.Open(e, true) == Stream0(req, kind);
  }

  lemma {:induction false} OpenStream(cfg: Config, req: Req, kind: Kind)
    requires Callable(cfg, req, kind)
    ensures Reached(cfg, Sys(Opened(cfg, req, kind), S.Init(), 0, 0))
  {
    assert After(cfg, []) == Init();
    var c1, c2, c3 := Opens(cfg, req, kind);
    ClientStepTo(cfg, Init(), C.Caller(C.BeginCreate(kind, req)), c1);
    ClientStepTo(cfg, Init().(c := c1), C.Caller(C.CheckClosed), c2);
    ClientStepTo(cfg, Init().(c := c2), C.Caller(C.Register), c3);
    ClientStepTo(cfg, Init().(c := c3), C.Caller(C.SendRequest(AllOf(Request0(cfg, req, kind)))), Opened(cfg, req, kind));
  }

  /** The method runs for the request, with so many sends to make, has got and said nothing yet, and its stream is
      in the map. */
  predicate Running(s: S.Server, req: Req, kind: Kind, sends: nat) {
    && |s.tasks| == 1 && s.tasks[0].id == 1 && s.tasks[0].kind == kind && s.tasks[0].req == req && s.tasks[0].pc.Running?
    && s.tasks[0].left == sends && s.tasks[0].inbox == [] && s.tasks[0].cap > 0
    && !s.tasks[0].ctxDone && !s.tasks[0].chanClosed && !s.tasks[0].remoteClosed
    && s.table == map[1 := 0] && s.receiver.Top? && s.main.Looping? && !s.shutdown && !s.w.broken
  }

  lemma MethodStarts(cfg: Config, req: Req, kind: Kind, sends: nat, s0: S.Server) returns (s1: S.Server, s2: S.Server, s3: S.Server)
    requires Callable(cfg, req, kind) && s0 == S.Init().(receiver := S.Got(Msg(Request0(cfg, req, kind), 0)))
    ensures s1 == S.Apply(cfg, s0, S.Recv(S.Dispatch(sends))) && s2 == S.Apply(cfg, s1, S.Recv(S.Store)) && s3 == S.Apply(cfg, s2, S.Recv(S.Count))
    ensures Running(s3, req, kind, sends) && s3.w == S.Init().w && s3.tasks[0].got == [] && s3.tasks[0].handed == []
    ensures Frames(s3.received) == [Request0(cfg, req, kind)]
  {
    assert cfg.reqDec(cfg.reqEnc(req)) == Some(req);
    s1 := S.DoDispatch(cfg, s0, sends);
    s2 := S.DoStore(s1);
    s3 := S.DoCount(s2);
  }

  /** A stream is open, its method runs, and everything written has been read. */
  lemma {:induction false} StartMethod(cfg: Config, req: Req, kind: Kind, sends: nat) returns (y: Sys)
    requires Callable(cfg, req, kind)
    ensures Reached(cfg, y) && y.c == Opened(cfg, req, kind) && Running(y.s, req, kind, sends)
    ensures y.s.tasks[0].got == [] && y.s.tasks[0].handed == [] && ServerRead(y.s) == y.c.w.frames && ClientRead(y.c) == y.s.w.frames
  {
    var c := Opened(cfg, req, kind);
    OpenStream(cfg, req, kind);
    assert ServerRead(S.Init()) + [Request0(cfg, req, kind)] == c.w.frames;
    var y0 := ToServer(cfg, Sys(c, S.Init(), 0, 0), Request0(cfg, req, kind));
    var s1, s2, s3 := MethodStarts(cfg, req, kind, sends, y0.s);
    ServerStepTo(cfg, y0, S.Recv(S.Dispatch(sends)), s1);
    ServerStepTo(cfg, y0.(s := s1), S.Recv(S.Store), s2);
    ServerStepTo(cfg, y0.(s := s2), S.Recv(S.Count), s3);
    y := y0.(s := s3);
  }

  // ---------------------------------------------------------------- a response on its way

  /** The response loop takes a response and writes it. */
  lemma Writes(cfg: Config, s: S.Server, o: S.Out, f: Frame) returns (s1: S.Server, s2: S.Server, s3: S.Server)
    requires |s.tasks| == 1 && s.tasks[0].pc in {S.Sending(o), S.Final(o)} && s.main.Looping? && !s.w.broken
    requires f == S.FrameOf(cfg, o) && |f.payload| <= MAX_LENGTH
    ensures s1 == S.Apply(cfg, s, S.Respond(S.Look)) && s2 == S.Apply(cfg, s1, S.Respond(S.TakeFrom(0)))
    ensures s3 == S.Apply(cfg, s2, S.Respond(S.Write(AllOf(f))))
    ensures s3.w.frames == s.w.frames + [f] && !s3.w.broken && |s3.tasks| == 1
    ensures s3.main == if o.closeStream then S.Forgetting(o, Some(0)) else S.Looping
    ensures s3.tasks[0] == s.tasks[0].(pc := if s.tasks[0].pc.Sending? then S.Running else S.Gone,
                                       handed := s.tasks[0].handed + [o], outs := s.tasks[0].outs + [o])
    ensures s3 == s.(tasks := s3.tasks, main := s3.main, w := s3.w, state := s3.state)
  {
    s1 := S.DoLook(s);
    s2 := S.DoTakeFrom(s1, 0);
    s3 := S.DoWrite(cfg, s2, AllOf(f));
  }

  /** So it reaches the client. */
  lemma Responds(cfg: Config, y: Sys, te: S.TaskEvent, o: S.Out) returns (y': Sys)
    requires cfg.Lawful() && Reached(cfg, y) && |y.s.tasks| == 1 && y.s.main.Looping? && !y.s.w.broken
    requires S.TaskCan(cfg, y.s.tasks[0], te, false) && S.TaskStep(cfg, y.s.tasks[0], te, false).pc in {S.Sending(o), S.Final(o)}
    requires te.SendMsg? || te.Finish?
    requires |S.FrameOf(cfg, o).payload| <= MAX_LENGTH && y.c.loop.Top? && !y.c.ctxDone && ClientRead(y.c) == y.s.w.frames
    ensures Reached(cfg, y') && y'.c == y.c.(loop := C.Read(Msg(S.FrameOf(cfg, o), |y.c.seen|))) && ClientRead(y'.c) == y'.s.w.frames
    ensures |y'.s.tasks| == 1 && y'.s.main == if o.closeStream then S.Forgetting(o, Some(0)) else S.Looping
    ensures var t := S.TaskStep(cfg, y.s.tasks[0], te, false);
            y'.s.tasks[0] == t.(pc := if t.pc.Sending? then S.Running else S.Gone, handed := t.handed + [o], outs := t.outs + [o])
    ensures !y'.s.w.broken && y'.s.receiver == y.s.receiver && y'.s.received == y.s.received && y'.s.table == y.s.table && y'.s.shutdown == y.s.shutdown
  {
    var f := S.FrameOf(cfg, o);
    var s0 := S.Apply(cfg, y.s, S.Method(0, te));
    SaysIt(cfg, y.s, te);
    ServerStepTo(cfg, y, S.Method(0, te), s0);
    var s1, s2, s3 := Writes(cfg, s0, o, f);
    ServerStepTo(cfg, y.(s := s0), S.Respond(S.Look), s1);
    ServerStepTo(cfg, y.(s := s1), S.Respond(S.TakeFrom(0)), s2);
    ServerStepTo(cfg, y.(s := s2), S.Respond(S.Write(AllOf(f))), s3);
    y' := ToClient(cfg, y.(s := s3), f);
  }

  lemma SaysIt(cfg: Config, s: S.Server, te: S.TaskEvent)
    requires |s.tasks| == 1 && s.main.Looping? && S.TaskCan(cfg, s.tasks[0], te, false) && !te.RecvMsg?
    ensures var s' := S.Apply(cfg, s, S.Method(0, te));
            && s'.tasks == [S.TaskStep(cfg, s.tasks[0], te, false)] && s'.w == s.w && s'.main == s.main && s'.receiver == s.receiver
            && s'.received == s.received && s'.table == s.table && s'.shutdown == s.shutdown
  {
  }

  // ---------------------------------------------------------------- a message on its way to its call

  /** The only stream is open with nothing queued, and the receive loop is at its top. */
  predicate Waits(c: C.Client) {
    && |c.entries| == 1 && c.entries[0].core.queue == [] && c.entries[0].core.closed.None? && c.entries[0].core.cap > 0
    && c.entries[0].opening.Opened? && c.table == map[1 := 0] && c.sender.Free? && !c.ctxDone
  }

  /** The stream with the message in its queue. */
  function Queued(e: C.Entry, m: Msg): C.Entry {
    e.(core := Push(e.core, m), arrived := e.arrived + [m], deposited := e.deposited + [m])
  }

  lemma Delivers(cfg: Config, c: C.Client, m: Msg) returns (c1: C.Client, c2: C.Client, c3: C.Client)
    requires Waits(c) && c.loop == C.Read(m) && m.frame.sid == 1 && |m.frame.payload| <= MAX_LENGTH && !c.entries[0].gap
    ensures c1 == C.Apply(cfg, c, C.Receive(C.Lookup)) && c2 == C.Apply(cfg, c1, C.Receive(C.Deliver(C.Enqueue)))
    ensures c3 == C.Apply(cfg, c2, C.Receive(C.Deliver(C.Enqueue)))
    ensures c3 == c.(entries := [Queued(c.entries[0], m)], seen := c.seen + [m], loop := C.Top)
  {
    c1 := c.(seen := c.seen + [m], entries := [c.entries[0].(arrived := c.entries[0].arrived + [m])], loop := C.Holding(0, m, C.Found));
    assert C.DoLookup(c).entries == c1.entries;
    c2 := c1.(loop := C.Holding(0, m, C.Try));
    assert c1.entries[0 := c1.entries[0]] == c1.entries;
    c3 := C.DoDeliver(c2, C.Enqueue);
    assert c3.entries == [Queued(c.entries[0], m)];
  }

  /** The only consumer's step, as its entry sees it. */
  lemma Consumes(cfg: Config, c: C.Client, ev: C.ConsumerEvent)
    requires |c.entries| == 1 && !c.StreamLocked() && C.ConsumerCan(c.entries[0], ev, c.ctxDone, false)
    ensures var c' := C.DoConsume(cfg, c, 0, ev);
            && c'.entries == [C.ConsumerStep(cfg, c.entries[0], ev, c.ctxDone, false)]
            && c'.sender == c.sender && c'.loop == c.loop && c'.ctxDone == c.ctxDone && c'.seen == c.seen && c'.w == c.w
            && (!ev.Unlink? ==> c' == c.(entries := c'.entries, puts := c'.puts, doublePut := c'.doublePut))
  {
  }

  /** So it is queued for its call. */
  lemma Arrives(cfg: Config, y: Sys, m: Msg) returns (y': Sys)
    requires Reached(cfg, y) && Waits(y.c) && y.c.loop == C.Read(m) && m.frame.sid == 1 && |m.frame.payload| <= MAX_LENGTH && !y.c.entries[0].gap
    ensures Reached(cfg, y') && y'.s == y.s
    ensures y'.c == y.c.(entries := [Queued(y.c.entries[0], m)], seen := y.c.seen + [m], loop := C.Top) && ClientRead(y'.c) == ClientRead(y.c)
  {
    var c1, c2, c3 := Delivers(cfg, y.c, m);
    ClientStepTo(cfg, y, C.Receive(C.Lookup), c1);
    ClientStepTo(cfg, y.(c := c1), C.Receive(C.Deliver(C.Enqueue)), c2);
    ClientStepTo(cfg, y.(c := c2), C.Receive(C.Deliver(C.Enqueue)), c3);
    y' := y.(c := c3);
    FramesAppend(y.c.seen, m);
    assert Frames(y.c.seen) + [m.frame] + [] == Frames(y.c.seen) + [m.frame];
  }

  lemma ConsumerStepTo(cfg: Config, y: Sys, ev: C.ConsumerEvent) returns (y': Sys)
    requires Reached(cfg, y) && |y.c.entries| == 1 && !y.c.StreamLocked() && C.ConsumerCan(y.c.entries[0], ev, y.c.ctxDone, false)
    ensures Reached(cfg, y') && y'.s == y.s
    ensures y'.c.entries == [C.ConsumerStep(cfg, y.c.entries[0], ev, y.c.ctxDone, false)]
    ensures y'.c.sender == y.c.sender && y'.c.loop == y.c.loop && y'.c.ctxDone == y.c.ctxDone && y'.c.seen == y.c.seen && y'.c.w == y.c.w
    ensures !ev.Unlink? ==> y'.c == y.c.(entries := y'.c.entries, puts := y'.c.puts, doublePut := y'.c.doublePut)
  {
    var c' := C.DoConsume(cfg, y.c, 0, ev);
    Consumes(cfg, y.c, ev);
    ClientStepTo(cfg, y, C.Consume(0, ev), c');
    y' := y.(c := c');
  }
}
