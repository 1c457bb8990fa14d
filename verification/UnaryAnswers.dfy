/** What a unary call can be answered with: the message it takes is a response, and one with an OK status, or of a
    stream that sendStatus was not used for, is what the method of its very request ended with. */
module UnaryAnswers {
  import opened Types
  import opened System
  import opened SystemLinks
  import opened SystemCalls
  import C = ClientEngine
  import S = ServerEngine
  import CT = ClientTable
  import CD = ClientDelivery
  import CC = ClientCalls
  import ST = ServerTasks
  import SIo = ServerIo
  import SW = ServerWire

  /** The stream of k was refused or not seen yet, or it is this goroutine's. */
  predicate TaskFor(s: S.Server, k: nat, h: nat) {
    h < |s.tasks| && s.tasks[h].id == C.IdOf(k)
  }

  /** The message a unary call took belongs to its own stream and came from the server. */
  lemma TakenOrigin(cfg: Config, y: Sys, k: nat, i: nat)
    requires Linked(cfg, y) && CT.Small(y.c) && k < |y.c.entries| && i < |y.c.entries[k].taken|
    ensures y.c.entries[k].taken[i].frame.sid == C.IdOf(k)
    ensures y.c.entries[k].taken[i].frame in y.s.w.frames
  {
    var e := y.c.entries[k];
    assert CD.NoGapAt(y.c, k) && CD.QueueAt(y.c, k) && CD.ArrivedAt(y.c, k);
    assert e.deposited[i] == e.taken[i] && e.arrived[i] == e.deposited[i];
    var m := e.arrived[i];
    assert m in e.arrived;
    SeenIsWritten(cfg, y, m.tok);
  }

  lemma StatusIsNoSuccess(cfg: Config, f: Frame, r: Resp)
    requires cfg.Lawful() && SW.StatusFrame(cfg, f) && cfg.respDec(f.payload) == Some(r)
    ensures r.code != 0
  {
    var code :| code != 0 && f.payload == cfg.respEnc(Resp(code, []));
    assert cfg.respDec(cfg.respEnc(Resp(code, []))) == Some(Resp(code, []));
  }

  /** A response frame with an OK status was produced by the method of its stream. */
  lemma OkResponse(cfg: Config, y: Sys, f: Frame, r: Resp)
    requires Linked(cfg, y) && cfg.Lawful() && f in y.s.w.frames
    requires f.typ == RESPONSE && cfg.respDec(f.payload) == Some(r) && r.code == 0
    ensures f.sid in y.s.byId && y.s.byId[f.sid] < |y.s.tasks|
    ensures var t := y.s.tasks[y.s.byId[f.sid]];
            && t.id == f.sid && t.produced.Some? && t.produced.value.code == 0
            && r.payload == S.DataBytes(t.produced.value.data)
            && (t.kind.Unary? ==> t.produced.value.data == Some(r.payload))
  {
    if SW.StatusFrame(cfg, f) { StatusIsNoSuccess(cfg, f, r); }
    assert SW.TaskFrame(cfg, y.s, f);
    var t := y.s.tasks[y.s.byId[f.sid]];
    assert SIo.TaskOk(cfg, t);
    OkOutIsFinal(cfg, t, f, r);
  }

  lemma OkOutIsFinal(cfg: Config, t: S.Task, f: Frame, r: Resp)
    requires cfg.Lawful() && SIo.TaskOk(cfg, t) && f in SW.FramesOf(cfg, t.outs)
    requires f.typ == RESPONSE && cfg.respDec(f.payload) == Some(r) && r.code == 0
    ensures t.produced.Some? && t.produced.value.code == 0
    ensures r.payload == S.DataBytes(t.produced.value.data)
    ensures t.kind.Unary? ==> t.produced.value.data == Some(r.payload)
  {
    var fs := SW.FramesOf(cfg, t.outs);
    var i :| 0 <= i < |fs| && fs[i] == f;
    var o := t.outs[i];
    assert o == t.handed[i];
    assert f == S.FrameOf(cfg, o);
    assert !SIo.IsSend(cfg, t, o);
    assert t.produced == Some(o);
    assert cfg.respDec(cfg.respEnc(Resp(o.code, S.DataBytes(o.data)))) == Some(Resp(o.code, S.DataBytes(o.data)));
  }

  /** A response as a unary call gets it, against what the stream's method said: an OK status comes from the
      method, with the object it ended with, and from one that ran for the very request of the call; and unless
      sendStatus was used for the stream, so does any other. */
  predicate Answers(y: Sys, k: nat, req: Req, r: Resp, h: nat, said: seq<S.Out>) {
    && TaskFor(y.s, k, h) && y.s.tasks[h].kind.Unary? && y.s.tasks[h].req == req
    && |said| == 1 && said[0].closeStream && said[0].code == r.code && S.DataBytes(said[0].data) == r.payload
    && (r.code == 0 ==> said[0].data == Some(r.payload))
  }

  /** The message is a response that decodes to `r`, under the stream's own id. */
  predicate IsResponse(cfg: Config, f: Frame, k: nat, r: Resp) {
    f.sid == C.IdOf(k) && f.typ == RESPONSE && cfg.respDec(f.payload) == Some(r)
  }

  lemma CallsOnce(cfg: Config, e: C.Entry)
    requires CC.UnaryCallOk(cfg, e) && e.results != []
    ensures |e.results| == 1 && |e.taken| <= 1
    ensures if e.taken == [] then e.results[0].Failed? else e.results == [CC.UnaryOutcome(cfg, e.taken[0].frame)]
  {
    assert e.results[0] in e.results + CC.Pending(e.pc);
  }

  /** Every frame for a unary stream is a response that decodes. */
  lemma UnaryFrame(cfg: Config, y: Sys, k: nat, f: Frame) returns (r: Resp)
    requires Linked(cfg, y) && CT.Small(y.c) && Matched(cfg, y.c) && cfg.Lawful() && k < |y.c.entries| && y.c.entries[k].kind.Unary?
    requires f in y.s.w.frames && f.sid == C.IdOf(k)
    ensures f.typ == RESPONSE && cfg.respDec(f.payload) == Some(r)
  {
    if SW.StatusFrame(cfg, f) {
      var code :| code != 0 && f.payload == cfg.respEnc(Resp(code, []));
      r := Resp(code, []);
      assert cfg.respDec(cfg.respEnc(r)) == Some(r);
    } else {
      var h, o := UnaryOut(cfg, y, k, f);
      r := Resp(o.code, S.DataBytes(o.data));
      assert cfg.respDec(cfg.respEnc(r)) == Some(r);
    }
  }

  /** A unary method says nothing but how it ends. */
  lemma UnarySays(cfg: Config, t: S.Task, f: Frame) returns (o: S.Out)
    requires SIo.TaskOk(cfg, t) && t.kind.Unary? && f in SW.FramesOf(cfg, t.outs)
    ensures t.pc.Gone? && t.produced == Some(o) && t.handed == [o] && f == S.FrameOf(cfg, o)
    ensures o.closeStream && f.typ == RESPONSE && f.payload == cfg.respEnc(Resp(o.code, S.DataBytes(o.data)))
    ensures o.code == 0 ==> o.data.Some?
  {
    var fs := SW.FramesOf(cfg, t.outs);
    var i :| 0 <= i < |fs| && fs[i] == f;
    assert t.outs[i] == t.handed[i];
    assert |t.handed| > 1 ==> SIo.IsSend(cfg, t, t.handed[0]);
    o := t.handed[0];
  }

  /** The response of its method that a frame of a unary stream is. */
  lemma UnaryOut(cfg: Config, y: Sys, k: nat, f: Frame) returns (h: nat, o: S.Out)
    requires Linked(cfg, y) && CT.Small(y.c) && Matched(cfg, y.c) && cfg.Lawful() && k < |y.c.entries| && y.c.entries[k].kind.Unary?
    requires SW.TaskFrame(cfg, y.s, f) && f.sid == C.IdOf(k)
    ensures TaskFor(y.s, k, h) && y.s.tasks[h].kind.Unary? && y.s.tasks[h].req == y.c.entries[k].req
    ensures y.s.tasks[h].pc.Gone? && y.s.tasks[h].handed == [o] && o.closeStream && (o.code == 0 ==> o.data.Some?)
    ensures f.typ == RESPONSE && f.payload == cfg.respEnc(Resp(o.code, S.DataBytes(o.data)))
  {
    h := y.s.byId[f.sid];
    TaskOfStream(cfg, y, h);
    CT.SmallIds(y.s.tasks[h].id / 2, k);
    assert SIo.TaskOk(cfg, y.s.tasks[h]);
    o := UnarySays(cfg, y.s.tasks[h], f);
  }

  lemma AnsweredBy(cfg: Config, y: Sys, k: nat, f: Frame, r: Resp) returns (h: nat)
    requires Linked(cfg, y) && CT.Small(y.c) && Matched(cfg, y.c) && cfg.Lawful() && k < |y.c.entries| && y.c.entries[k].kind.Unary?
    requires f in y.s.w.frames && f.sid == C.IdOf(k) && cfg.respDec(f.payload) == Some(r)
    requires r.code == 0 || C.IdOf(k) !in y.s.statusIds
    ensures h < |y.s.tasks| && y.s.tasks[h].pc.Gone? && Answers(y, k, y.c.entries[k].req, r, h, y.s.tasks[h].handed)
  {
    MethodsFrame(cfg, y.s, f, r);
    var o;
    h, o := UnaryOut(cfg, y, k, f);
    assert cfg.respDec(cfg.respEnc(Resp(o.code, S.DataBytes(o.data)))) == Some(Resp(o.code, S.DataBytes(o.data)));
  }

  lemma MethodsFrame(cfg: Config, s: S.Server, f: Frame, r: Resp)
    requires SW.Wire(cfg, s) && ST.Known(s.byId, s.tasks) && cfg.Lawful() && f in s.w.frames && cfg.respDec(f.payload) == Some(r)
    requires r.code == 0 || f.sid !in s.statusIds
    ensures SW.TaskFrame(cfg, s, f)
  {
    if r.code == 0 {
      if SW.StatusFrame(cfg, f) { StatusIsNoSuccess(cfg, f, r); }
    } else {
      OwnFrame(cfg, s, f);
    }
  }

  /** A frame of a stream that sendStatus was never used for is one of its method's. */
  lemma OwnFrame(cfg: Config, s: S.Server, f: Frame)
    requires SW.Wire(cfg, s) && ST.Known(s.byId, s.tasks) && f in s.w.frames && f.sid !in s.statusIds
    ensures SW.TaskFrame(cfg, s, f)
  {
    var t := s.tasks[s.byId[f.sid]];
    assert SW.Written(cfg, t, s.w.frames, s.statusIds);
    var i :| 0 <= i < |s.w.frames| && s.w.frames[i] == f;
    InFramesFor(s.w.frames, i);
  }
}
