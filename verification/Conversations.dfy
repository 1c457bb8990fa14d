/** Runs in which everything goes well: whatever the objects, a unary call can be answered, and a stream can carry
    any objects both ways and end. And one in which a method breaks the protocol. */
module Conversations {
  import opened Types
  import opened StreamQueue
  import opened System
  import opened SystemLinks
  import opened JointRuns
  import C = ClientEngine
  import S = ServerEngine

  // ---------------------------------------------------------------- a unary call

  /** A unary call returns the object its method ended with. */
  lemma {:induction false} CallSucceeds(cfg: Config, req: Req, data: bytes) returns (y: Sys)
    requires Callable(cfg, req, Unary) && cfg.objOk(data) && |cfg.respEnc(Resp(0, data))| <= MAX_LENGTH
    ensures Reached(cfg, y) && |y.c.entries| == 1 && y.c.entries[0].results == [C.Reply(Resp(0, data))]
  {
    var y0 := StartMethod(cfg, req, Unary, 0);
    var o := Out(0, Some(data));
    var y1 := Responds(cfg, y0, S.Finish(0, Some(data)), o);
    var m := Msg(S.FrameOf(cfg, o), |y0.c.seen|);
    assert cfg.respDec(m.frame.payload) == Some(Resp(0, data));
    var y2 := Arrives(cfg, y1, m);
    y := TakesReply(cfg, y2, m, Resp(0, data));
  }

  function Out(code: nat, data: Option<bytes>): S.Out { S.Out(1, code, data, true, false) }

  lemma TakesReply(cfg: Config, y: Sys, m: Msg, r: Resp) returns (y': Sys)
    requires Reached(cfg, y) && |y.c.entries| == 1 && !y.c.StreamLocked()
    requires var e := y.c.entries[0]; e.kind.Unary? && e.pc.Waiting? && e.core.queue == [m] && e.results == [] && e.taken == []
    requires m.frame.typ == RESPONSE && cfg.respDec(m.frame.payload) == Some(r)
    ensures Reached(cfg, y') && |y'.c.entries| == 1 && y'.c.entries[0].results == [C.Reply(r)]
  {
    var y1 := ConsumerStepTo(cfg, y, C.Take);
    var y2 := ConsumerStepTo(cfg, y1, C.Handle);
    var y3 := ConsumerStepTo(cfg, y2, C.Unlink);
    y' := ConsumerStepTo(cfg, y3, C.Finish);
  }

  // ---------------------------------------------------------------- a method that must not send

  /** The method sends although its server does not stream: ErrProtocol, then io.EOF. */
  lemma {:induction false} ForbiddenSend(cfg: Config, req: Req, data: Option<bytes>) returns (y: Sys)
    requires Callable(cfg, req, Streaming(true, false)) && cfg.objOk(S.DataBytes(data)) && |S.DataBytes(data)| <= MAX_LENGTH
    ensures Reached(cfg, y) && |y.c.entries| == 1 && y.c.entries[0].results == [C.Failed(ErrProtocol), C.Eof]
    ensures |y.s.tasks| == 1 && y.s.tasks[0].id == 1 && y.s.tasks[0].kind == Streaming(true, false)
    ensures y.s.tasks[0].handed == [S.SendOut(1, data)]
  {
    var kind := Streaming(true, false);
    var y0 := StartMethod(cfg, req, kind, 1);
    var y1 := Responds(cfg, y0, S.SendMsg(data), S.SendOut(1, data));
    var m := Msg(S.FrameOf(cfg, S.SendOut(1, data)), |y0.c.seen|);
    var y2 := Arrives(cfg, y1, m);
    var y3 := ConsumerStepTo(cfg, y2, C.RecvMsg);
    var y4 := TakesEnd(cfg, y3, m, C.Failed(ErrProtocol));
    y := ConsumerStepTo(cfg, y4, C.RecvMsg);
  }

  /** A receive call takes the message that ends its stream. */
  lemma TakesEnd(cfg: Config, y: Sys, m: Msg, r: C.Outcome) returns (y': Sys)
    requires Reached(cfg, y) && |y.c.entries| == 1 && !y.c.StreamLocked()
    requires var e := y.c.entries[0]; e.kind.Streaming? && e.opening.Opened? && e.pc.Waiting? && e.core.queue == [m]
    requires var h := C.Judge(cfg, y.c.entries[0].kind, m.frame); h.unlink && h.result == r
    ensures Reached(cfg, y') && y'.s == y.s && |y'.c.entries| == 1 && !y'.c.StreamLocked()
    ensures var e' := y'.c.entries[0];
            && e'.results == y.c.entries[0].results + [r] && e'.pc.Idle? && e'.remoteClosed
            && e'.kind == y.c.entries[0].kind && e'.opening.Opened?
  {
    var y1 := ConsumerStepTo(cfg, y, C.Take);
    assert C.LastTaken(y1.c.entries[0]) == m;
    var y2 := ConsumerStepTo(cfg, y1, C.Handle);
    var y3 := ConsumerStepTo(cfg, y2, C.Unlink);
    y' := ConsumerStepTo(cfg, y3, C.Finish);
  }

  // ---------------------------------------------------------------- a stream both ways

  /** The stream is open both ways and nothing is under way: the method has got `xs` and may still send `n` objects,
      and the calls have returned `ys`. */
  ghost predicate Calm(cfg: Config, y: Sys, req: Req, xs: seq<bytes>, ys: seq<bytes>, n: nat) {
    && Reached(cfg, y) && Running(y.s, req, Streaming(true, true), n)
    && Got(y.s.tasks[0]) == xs && ServerRead(y.s) == y.c.w.frames
    && Open(y.c) && y.c.entries[0].results == Objects(ys) && ClientRead(y.c) == y.s.w.frames
  }

  predicate Open(c: C.Client) { Receiving(c) && !c.w.broken && !c.entries[0].localClosed }

  predicate Receiving(c: C.Client) {
    && Waits(c) && c.loop.Top?
    && var e := c.entries[0];
       e.kind == Streaming(true, true) && e.pc.Idle? && !e.remoteClosed && !e.gap && e.core.id == 1
  }

  /** The objects a method's RecvMsg has returned. */
  function Got(t: S.Task): seq<bytes> { seq(|t.got|, i requires 0 <= i < |t.got| => t.got[i].data) }

  function Objects(ys: seq<bytes>): seq<C.Outcome> { seq(|ys|, i requires 0 <= i < |ys| => C.Object(ys[i])) }

  /** The client sends an object and the server reads it. */
  lemma ClientSays(cfg: Config, y: Sys, ce: C.CallerEvent, f: Frame) returns (y': Sys)
    requires cfg.Lawful() && Reached(cfg, y) && Open(y.c) && ServerRead(y.s) == y.c.w.frames
    requires y.s.receiver.Top? && !y.s.shutdown && !y.s.main.Ended? && |f.payload| <= MAX_LENGTH
    requires || (ce == C.SendMsg(0, f.payload, AllOf(f)) && f == Frame(1, DATA, 0, f.payload))
             || (ce == C.CloseSend(0, AllOf(f)) && f == Frame(1, DATA, 5, []))
    ensures Reached(cfg, y') && y'.s == y.s.(receiver := S.Got(Msg(f, |y.s.received|))) && ServerRead(y'.s) == y'.c.w.frames
    ensures y'.c == y.c.(w := y'.c.w, entries := [y.c.entries[0].(localClosed := ce.CloseSend?)]) && !y'.c.w.broken
  {
    var c' := C.Apply(cfg, y.c, C.Caller(ce));
    assert y.c.entries == [y.c.entries[0]];
    ClientStepTo(cfg, y, C.Caller(ce), c');
    y' := ToServer(cfg, y.(c := c'), f);
  }

  /** The object is offered to the method and enters its queue. */
  lemma ServerOffers(cfg: Config, s: S.Server, req: Req, n: nat, m: Msg) returns (s1: S.Server, s2: S.Server, s3: S.Server)
    requires Running(s.(receiver := S.Top), req, Streaming(true, true), n) && s.receiver == S.Got(m)
    requires m.frame == Frame(1, DATA, 0, m.frame.payload) && |m.frame.payload| <= MAX_LENGTH
    ensures s1 == S.Apply(cfg, s, S.Recv(S.Dispatch(0))) && s2 == S.Apply(cfg, s1, S.Recv(S.Offer(S.Enqueue)))
    ensures s3 == S.Apply(cfg, s2, S.Recv(S.Offer(S.Enqueue)))
    ensures var (t, item) := (s.tasks[0], S.Item(m.frame.payload, Some(m.tok)));
            && s3 == s.(tasks := s3.tasks, received := s.received + [m], receiver := S.AfterData(0, m))
            && s3.tasks == [t.(inbox := [item], offered := t.offered + [item], accepted := t.accepted + [item])]
  {
    var (t, item) := (s.tasks[0], S.Item(m.frame.payload, Some(m.tok)));
    s1 := S.DoDispatch(cfg, s, 0);
    assert s1.tasks == [S.OfferTo(t, item)] && s1.receiver == S.Offering(0, item, S.FromFrame(m), S.CheckClosed);
    s2 := S.DoOffer(s1, S.Enqueue);
    assert s2 == s1.(receiver := S.Offering(0, item, S.FromFrame(m), S.Select), tasks := s2.tasks) && s2.tasks == s1.tasks;
    s3 := S.DoOffer(s2, S.Enqueue);
    assert t.inbox + [item] == [item];
    assert S.Affect(S.OfferTo(t, item), item, S.Entered) == t.(inbox := [item], offered := t.offered + [item], accepted := t.accepted + [item]);
    assert s3.tasks == [S.Affect(S.OfferTo(t, item), item, S.Entered)];
  }

  /** The method gets the object. */
  lemma ServerGets(cfg: Config, s: S.Server, m: Msg, item: S.Item) returns (s1: S.Server, s2: S.Server)
    requires |s.tasks| == 1 && s.tasks[0].kind.Streaming? && s.tasks[0].inbox == [item] && s.receiver == S.AfterData(0, m) && m.frame.flags == 0
    ensures s1 == S.Apply(cfg, s, S.Recv(S.FinishData)) && s2 == S.Apply(cfg, s1, S.Method(0, S.RecvMsg))
    ensures s2 == s.(tasks := [s.tasks[0].(inbox := [], got := s.tasks[0].got + [item])], receiver := S.Top, bufs := s2.bufs)
  {
    s1 := S.DoFinishData(s);
    assert s1.tasks == s.tasks && s1 == s.(receiver := S.Top);
    s2 := S.DoTask(cfg, s1, 0, S.RecvMsg);
    assert [item][1..] == [];
  }

  lemma ClientSendsOne(cfg: Config, y: Sys, req: Req, xs: seq<bytes>, ys: seq<bytes>, n: nat, x: bytes) returns (y': Sys)
    requires cfg.Lawful() && Calm(cfg, y, req, xs, ys, n) && |x| <= MAX_LENGTH
    ensures Calm(cfg, y', req, xs + [x], ys, n)
  {
    var f := Frame(1, DATA, 0, x);
    var m := Msg(f, |y.s.received|);
    var y0 := ClientSays(cfg, y, C.SendMsg(0, x, AllOf(f)), f);
    var s1, s2, s3 := ServerOffers(cfg, y0.s, req, n, m);
    var s4, s5 := ServerGets(cfg, s3, m, S.Item(x, Some(m.tok)));
    ServerStepTo(cfg, y0, S.Recv(S.Dispatch(0)), s1);
    ServerStepTo(cfg, y0.(s := s1), S.Recv(S.Offer(S.Enqueue)), s2);
    ServerStepTo(cfg, y0.(s := s2), S.Recv(S.Offer(S.Enqueue)), s3);
    ServerStepTo(cfg, y0.(s := s3), S.Recv(S.FinishData), s4);
    ServerStepTo(cfg, y0.(s := s4), S.Method(0, S.RecvMsg), s5);
    y' := y0.(s := s5);
    ReadSame(y0.s, s5, m);
    assert Got(s5.tasks[0]) == Got(y.s.tasks[0]) + [x];
  }

  lemma ReadSame(s: S.Server, s': S.Server, m: Msg)
    requires s.receiver == S.Got(m) && s'.received == s.received + [m] && !s'.receiver.Got?
    ensures ServerRead(s') == ServerRead(s)
  {
    FramesAppend(s.received, m);
    assert Frames(s.received) + [m.frame] + [] == Frames(s.received) + [m.frame];
  }

  /** A receive call takes the object in the queue. */
  lemma TakesObject(cfg: Config, y: Sys, m: Msg, data: bytes) returns (y': Sys)
    requires Reached(cfg, y) && |y.c.entries| == 1 && !y.c.StreamLocked()
    requires var e := y.c.entries[0]; e.kind.Streaming? && e.opening.Opened? && e.pc.Idle? && !e.remoteClosed && e.core.queue == [m]
    requires var h := C.Judge(cfg, y.c.entries[0].kind, m.frame); !h.unlink && h.result == C.Object(data)
    ensures Reached(cfg, y') && y'.s == y.s
    ensures y'.c == y.c.(entries := y'.c.entries, puts := y'.c.puts, doublePut := y'.c.doublePut) && |y'.c.entries| == 1
    ensures var (e, e') := (y.c.entries[0], y'.c.entries[0]);
            e' == e.(results := e.results + [C.Object(data)], taken := e.taken + [m], core := Pop(e.core))
  {
    var y1 := ConsumerStepTo(cfg, y, C.RecvMsg);
    var y2 := ConsumerStepTo(cfg, y1, C.Take);
    assert C.LastTaken(y2.c.entries[0]) == m;
    y' := ConsumerStepTo(cfg, y2, C.Handle);
  }

  lemma ServerSendsOne(cfg: Config, y: Sys, req: Req, xs: seq<bytes>, ys: seq<bytes>, n: nat, data: bytes) returns (y': Sys)
    requires cfg.Lawful() && Calm(cfg, y, req, xs, ys, n + 1) && |data| <= MAX_LENGTH && cfg.objOk(data)
    ensures Calm(cfg, y', req, xs, ys + [data], n)
  {
    var o := S.SendOut(1, Some(data));
    var y1 := Responds(cfg, y, S.SendMsg(Some(data)), o);
    var m := Msg(S.FrameOf(cfg, o), |y.c.seen|);
    var y2 := Arrives(cfg, y1, m);
    y' := TakesObject(cfg, y2, m, data);
    assert Objects(ys + [data]) == Objects(ys) + [C.Object(data)];
  }

  /** Objects within the bound, and which can be decoded. */
  predicate Fit(xs: seq<bytes>) { forall x | x in xs :: |x| <= MAX_LENGTH }

  predicate Proper(cfg: Config, ys: seq<bytes>) { forall z | z in ys :: |z| <= MAX_LENGTH && cfg.objOk(z) }

  lemma {:induction false} ClientSendsAll(cfg: Config, req: Req, xs: seq<bytes>, n: nat) returns (y: Sys)
    requires Callable(cfg, req, Streaming(true, true)) && Fit(xs)
    ensures Calm(cfg, y, req, xs, [], n)
  {
    if xs == [] {
      y := StartMethod(cfg, req, Streaming(true, true), n);
    } else {
      var (before, x) := (xs[..|xs| - 1], xs[|xs| - 1]);
      assert xs == before + [x];
      var y0 := ClientSendsAll(cfg, req, before, n);
      y := ClientSendsOne(cfg, y0, req, before, [], n, x);
    }
  }

  lemma {:induction false} ServerSendsAll(cfg: Config, req: Req, xs: seq<bytes>, ys: seq<bytes>, n: nat) returns (y: Sys)
    requires Callable(cfg, req, Streaming(true, true)) && Fit(xs) && Proper(cfg, ys)
    ensures Calm(cfg, y, req, xs, ys, n)
    decreases |ys|
  {
    if ys == [] {
      y := ClientSendsAll(cfg, req, xs, n);
    } else {
      var (before, z) := (ys[..|ys| - 1], ys[|ys| - 1]);
      assert ys == before + [z];
      var y0 := ServerSendsAll(cfg, req, xs, before, n + 1);
      y := ServerSendsOne(cfg, y0, req, xs, before, n, z);
    }
  }

  /** The client's closing frame closes the method's input, and its RecvMsg returns io.EOF. */
  lemma ServerEnds(cfg: Config, s: S.Server, req: Req, n: nat, m: Msg) returns (s1: S.Server, s2: S.Server, s3: S.Server)
    requires Running(s.(receiver := S.Top), req, Streaming(true, true), n) && s.receiver == S.Got(m) && m.frame == Frame(1, DATA, 5, [])
    ensures s1 == S.Apply(cfg, s, S.Recv(S.Dispatch(0))) && s2 == S.Apply(cfg, s1, S.Recv(S.FinishData))
    ensures s3 == S.Apply(cfg, s2, S.Method(0, S.RecvMsg))
    ensures |s3.tasks| == 1 && s3.tasks[0].eof && s3.tasks[0].got == s.tasks[0].got
    ensures s3.tasks[0].pc.Running? && s3.tasks[0].kind == Streaming(true, true) && s3.tasks[0].id == 1 && s3.tasks[0].req == req
    ensures s3.main.Looping? && s3.w == s.w
  {
    s1 := S.DoDispatch(cfg, s, 0);
    assert s1.receiver == S.AfterData(0, m) && s1.tasks == s.tasks;
    s2 := S.DoFinishData(s1);
    s3 := S.DoTask(cfg, s2, 0, S.RecvMsg);
  }

  /** The client closes the stream for sending, and the method has seen it. */
  lemma ClientCloses(cfg: Config, y: Sys, req: Req, xs: seq<bytes>, ys: seq<bytes>) returns (y': Sys)
    requires cfg.Lawful() && Calm(cfg, y, req, xs, ys, 0)
    ensures Reached(cfg, y') && |y'.s.tasks| == 1 && y'.s.main.Looping? && !y'.s.w.broken
    ensures var t := y'.s.tasks[0]; t.pc.Running? && t.kind == Streaming(true, true) && t.id == 1 && t.req == req && t.eof && Got(t) == xs
    ensures Receiving(y'.c) && y'.c.entries[0].results == y.c.entries[0].results && ClientRead(y'.c) == y'.s.w.frames
  {
    var f := Frame(1, DATA, 5, []);
    var y1 := ClientSays(cfg, y, C.CloseSend(0, AllOf(f)), f);
    var s1, s2, s3 := ServerEnds(cfg, y1.s, req, 0, Msg(f, |y.s.received|));
    ServerStepTo(cfg, y1, S.Recv(S.Dispatch(0)), s1);
    ServerStepTo(cfg, y1.(s := s1), S.Recv(S.FinishData), s2);
    ServerStepTo(cfg, y1.(s := s2), S.Method(0, S.RecvMsg), s3);
    y' := y1.(s := s3);
  }

  /** The method ends, and the client's next receive call returns io.EOF. */
  lemma ServerFinishes(cfg: Config, y: Sys) returns (y': Sys)
    requires cfg.Lawful() && Reached(cfg, y) && |y.s.tasks| == 1 && y.s.main.Looping? && !y.s.w.broken
    requires y.s.tasks[0].pc.Running? && y.s.tasks[0].kind == Streaming(true, true) && y.s.tasks[0].id == 1
    requires Receiving(y.c) && ClientRead(y.c) == y.s.w.frames
    ensures Reached(cfg, y') && |y'.c.entries| == 1 && y'.c.entries[0].results == y.c.entries[0].results + [C.Eof]
    ensures |y'.s.tasks| == 1 && y'.s.tasks[0].got == y.s.tasks[0].got && y'.s.tasks[0].eof == y.s.tasks[0].eof
    ensures y'.s.tasks[0].id == 1 && y'.s.tasks[0].req == y.s.tasks[0].req
  {
    var o := S.Out(1, 0, None, true, true);
    var y2 := Responds(cfg, y, S.Finish(0, None), o);
    var m := Msg(S.FrameOf(cfg, o), |y.c.seen|);
    var y3 := Arrives(cfg, y2, m);
    var y4 := ConsumerStepTo(cfg, y3, C.RecvMsg);
    y' := TakesEnd(cfg, y4, m, C.Eof);
  }

  /** Any objects go both ways, each side in its own order, and both sides see the end. */
  lemma {:induction false} StreamSucceeds(cfg: Config, req: Req, xs: seq<bytes>, ys: seq<bytes>) returns (y: Sys)
    requires Callable(cfg, req, Streaming(true, true)) && Fit(xs) && Proper(cfg, ys)
    ensures Reached(cfg, y) && |y.s.tasks| == 1 && y.s.tasks[0].id == 1 && y.s.tasks[0].req == req
    ensures Got(y.s.tasks[0]) == xs && y.s.tasks[0].eof
    ensures |y.c.entries| == 1 && y.c.entries[0].results == Objects(ys) + [C.Eof]
  {
    var y0 := ServerSendsAll(cfg, req, xs, ys, 0);
    var y1 := ClientCloses(cfg, y0, req, xs, ys);
    y := ServerFinishes(cfg, y1);
    assert Got(y.s.tasks[0]) == Got(y1.s.tasks[0]);
  }
}
