/** The connection's promises, end to end and over every run: a call gets its own answer, a stream
    delivers its objects in order and then io.EOF, a method gets its client's data, ids never clash. */
module EndToEnd {
  import opened Types
  import opened StreamQueue
  import opened System
  import opened SystemLinks
  import opened SystemCalls
  import opened SystemRuns
  import opened UnaryAnswers
  import opened Deliveries
  import opened MethodInputs
  import C = ClientEngine
  import S = ServerEngine
  import CT = ClientTable
  import CC = ClientCalls
  import SIo = ServerIo
  import SW = ServerWire
  import J = JointRuns
  import V = Conversations
  import Y = SystemHistory

  // ---------------------------------------------------------------- ids

  /** Whatever the interleaving, the server's odd-id and must-increment checks pass for every message of
      this client, its data finds no unary stream, and lastStreamID is the last request received. */
  lemma {:induction false} IdsNeverRefused(cfg: Config, es: seq<Event>)
    requires cfg.Lawful() && CT.Small(After(cfg, es).c)
    ensures var y := After(cfg, es);
            NoRefusal(y.s) && y.s.lastId == LastRequest(Frames(y.s.received)) && !y.s.receiver.Panicked?
  {
    SysRun(cfg, es);
    NothingRefused(cfg, After(cfg, es));
  }

  // ---------------------------------------------------------------- calls

  /** Some method answered the call so. */
  ghost predicate Answered(cfg: Config, es: seq<Event>, k: nat, r: Resp) {
    k < |Y.Streams(cfg, es)| && exists h :: Answers(After(cfg, es), k, Y.Streams(cfg, es)[k].req, r, h, Y.Said(cfg, es, h))
  }

  /** What a unary call returns, over every run: one outcome at most; an error, if it has taken no message; and
      else the response in the message it took, which came under its own id. */
  lemma {:induction false} CallMatching(cfg: Config, es: seq<Event>, k: nat)
    requires cfg.Lawful() && CT.Small(After(cfg, es).c) && k < |After(cfg, es).c.entries|
    requires After(cfg, es).c.entries[k].kind.Unary? && After(cfg, es).c.entries[k].results != []
    ensures var e := After(cfg, es).c.entries[k];
            && |e.results| == 1 && |e.taken| <= 1
            && (e.taken == [] ==> e.results[0].Failed?)
            && (e.taken != [] ==>
                  exists r :: e.results == [C.Reply(r)] && IsResponse(cfg, e.taken[0].frame, k, r)
                    && (r.code == 0 || C.IdOf(k) !in After(cfg, es).s.statusIds ==> Answered(cfg, es, k, r)))
  {
    SysRun(cfg, es);
    var y := After(cfg, es);
    assert CC.CallOk(cfg, y.c.entries[k]);
    CallsOnce(cfg, y.c.entries[k]);
    if y.c.entries[k].taken != [] {
      var f := y.c.entries[k].taken[0].frame;
      TakenOrigin(cfg, y, k, 0);
      var r := UnaryFrame(cfg, y, k, f);
      if r.code == 0 || C.IdOf(k) !in y.s.statusIds { CallAnswered(cfg, es, y, k, f, r); }
    }
  }

  lemma {:induction false} CallAnswered(cfg: Config, es: seq<Event>, y: Sys, k: nat, f: Frame, r: Resp)
    requires y == After(cfg, es) && Linked(cfg, y) && Matched(cfg, y.c) && cfg.Lawful() && CT.Small(y.c)
    requires k < |y.c.entries| && y.c.entries[k].kind.Unary? && f in y.s.w.frames && IsResponse(cfg, f, k, r)
    requires r.code == 0 || C.IdOf(k) !in y.s.statusIds
    ensures Answered(cfg, es, k, r)
  {
    var h := AnsweredBy(cfg, y, k, f, r);
    SaidAnswer(cfg, es, y, k, r, h);
  }

  lemma {:induction false} SaidAnswer(cfg: Config, es: seq<Event>, y: Sys, k: nat, r: Resp, h: nat)
    requires y == After(cfg, es) && k < |y.c.entries| && h < |y.s.tasks| && y.s.tasks[h].pc.Gone?
    requires Answers(y, k, y.c.entries[k].req, r, h, y.s.tasks[h].handed)
    ensures Answered(cfg, es, k, r)
  {
    Y.AsSaid(cfg, es, h);
    Y.AsAsked(cfg, es, k);
    assert y.s.tasks[h].handed + [] == y.s.tasks[h].handed;
    assert Answers(y, k, Y.Streams(cfg, es)[k].req, r, h, Y.Said(cfg, es, h));
  }

  // ---------------------------------------------------------------- streams from the server

  /** Server to client a stream is a FIFO with an end: what its consumer gets are the objects the method sent with
      SendMsg and ended with, whatever the kind of the method, whatever sendStatus was used for, and whatever the
      interleaving. */
  lemma {:induction false} StreamDelivery(cfg: Config, es: seq<Event>, k: nat, h: nat)
    requires cfg.Lawful() && CT.Small(After(cfg, es).c) && k < |After(cfg, es).c.entries|
    requires TaskFor(After(cfg, es).s, k, h) && After(cfg, es).s.tasks[h].kind.Streaming?
    ensures DeliveredInOrder(After(cfg, es).c.entries[k], After(cfg, es).s.tasks[h].kind.server, Y.Said(cfg, es, h))
  {
    SysRun(cfg, es);
    var y := After(cfg, es);
    TaskOfStream(cfg, y, h);
    CT.SmallIds(y.s.tasks[h].id / 2, k);
    TakenIsWritten(cfg, y, k, h);
    Delivered(cfg, y.c.entries[k], y.s.tasks[h]);
    Y.AsSaid(cfg, es, h);
    SaidInOrder(cfg, y.c.entries[k], y.s.tasks[h]);
  }

  /** A method's failure reaches its client: once the client's calls have finished with as many messages as the
      method said things, one of them has returned the status the method failed with. */
  lemma {:induction false} FailureReported(cfg: Config, es: seq<Event>, k: nat, h: nat)
    requires cfg.Lawful() && cfg.objOk([]) && CT.Small(After(cfg, es).c) && k < |After(cfg, es).c.entries|
    requires TaskFor(After(cfg, es).s, k, h) && After(cfg, es).s.tasks[h].kind.Streaming?
    requires C.IdOf(k) !in After(cfg, es).s.statusIds && |CC.Finished(After(cfg, es).c.entries[k])| == |Y.Said(cfg, es, h)|
    requires Y.Said(cfg, es, h) != [] && Y.Said(cfg, es, h)[|Y.Said(cfg, es, h)| - 1].code != 0
    ensures var (e, said) := (After(cfg, es).c.entries[k], Y.Said(cfg, es, h));
            C.Failed(ErrStatus(said[|said| - 1].code)) in e.results + CC.Pending(e.pc)
  {
    SysRun(cfg, es);
    var y := After(cfg, es);
    TaskOfStream(cfg, y, h);
    CT.SmallIds(y.s.tasks[h].id / 2, k);
    Y.AsSaid(cfg, es, h);
    TakenPrefix(cfg, y, k);
    assert SW.Written(cfg, y.s.tasks[h], y.s.w.frames, y.s.statusIds) && SIo.TaskOk(cfg, y.s.tasks[h]) && CC.CallOk(cfg, y.c.entries[k]);
    FailureIsReported(cfg, y.c.entries[k], y.s.tasks[h]);
  }

  /** A stream no method runs for, because its request was refused or has not been dispatched, returns no
      object and no io.EOF. */
  lemma {:induction false} NothingWithoutMethod(cfg: Config, es: seq<Event>, k: nat)
    requires cfg.Lawful() && CT.Small(After(cfg, es).c) && k < |After(cfg, es).c.entries|
    requires After(cfg, es).c.entries[k].kind.Streaming? && C.IdOf(k) !in After(cfg, es).s.byId
    ensures var e := After(cfg, es).c.entries[k]; CC.Objects(e.results) == [] && C.Eof !in e.results && !e.remoteClosed
  {
    SysRun(cfg, es);
    var y := After(cfg, es);
    TakenAreStatuses(cfg, y, k);
    assert CC.CallOk(cfg, y.c.entries[k]);
    StatusesReturnNothing(cfg, y.c.entries[k]);
  }

  // ---------------------------------------------------------------- streams from the client

  /** A streaming method's input, end to end: it runs for the request of one of the client's streams, and
      gets the objects of the SendMsg calls on that very stream, as the callers passed them. */
  lemma {:induction false} MethodInput(cfg: Config, es: seq<Event>, h: nat)
    requires cfg.Lawful() && CT.Small(After(cfg, es).c) && h < |After(cfg, es).s.tasks|
    requires After(cfg, es).s.tasks[h].kind.Streaming?
    ensures var t := After(cfg, es).s.tasks[h];
            var k := t.id / 2;
            && t.id == C.IdOf(k) && k < |Y.Streams(cfg, es)|
            && t.req == Y.Streams(cfg, es)[k].req && t.kind == Y.Streams(cfg, es)[k].kind
            && GotWhatWasSent(t, Y.Sent(cfg, es, k))
  {
    SysRun(cfg, es);
    var y := After(cfg, es);
    TaskOfStream(cfg, y, h);
    InputIsSent(cfg, y, h);
    Y.AsAsked(cfg, es, y.s.tasks[h].id / 2);
    Y.AsSent(cfg, es, y.s.tasks[h].id / 2);
  }

  // ---------------------------------------------------------------- what can go wrong, and right

  /** The only stream's method has sent although its server does not stream, and its calls have returned
      ErrProtocol and io.EOF, and nothing else. */
  ghost predicate EndedWithout(cfg: Config, es: seq<Event>) {
    var y := After(cfg, es);
    && |y.c.entries| == 1 && |y.s.tasks| == 1 && TaskFor(y.s, 0, 0)
    && y.s.tasks[0].kind == Streaming(true, false) && Misbehaved(false, Y.Said(cfg, es, 0))
    && y.c.entries[0].results == [C.Failed(ErrProtocol), C.Eof]
  }

  /** For every such method, request and object there is a run that ends so. */
  lemma {:induction false} EofWithoutObject(cfg: Config, req: Req, data: Option<bytes>)
    requires J.Callable(cfg, req, Streaming(true, false))
    requires cfg.objOk(S.DataBytes(data)) && |S.DataBytes(data)| <= MAX_LENGTH
    ensures exists es :: EndedWithout(cfg, es)
  {
    var y := V.ForbiddenSend(cfg, req, data);
    var es :| After(cfg, es) == y;
    assert y.s.tasks[0].handed[0] == S.SendOut(1, data);
    SentAnyway(cfg, es, y, S.SendOut(1, data));
  }

  lemma {:induction false} SentAnyway(cfg: Config, es: seq<Event>, y: Sys, o: S.Out)
    requires y == After(cfg, es) && |y.s.tasks| == 1 && o in y.s.tasks[0].handed && !o.closeStream
    requires |y.c.entries| == 1 && TaskFor(y.s, 0, 0) && y.s.tasks[0].kind == Streaming(true, false)
    requires y.c.entries[0].results == [C.Failed(ErrProtocol), C.Eof]
    ensures EndedWithout(cfg, es)
  {
    Y.AsSaid(cfg, es, 0);
    assert o in Y.Said(cfg, es, 0);
  }

  /** And everything can go well: whatever object a unary method ends with, there is a run in which its call
      returns it. */
  lemma {:induction false} CallCanSucceed(cfg: Config, req: Req, data: bytes)
    requires J.Callable(cfg, req, Unary) && cfg.objOk(data) && |cfg.respEnc(Resp(0, data))| <= MAX_LENGTH
    ensures exists es :: |After(cfg, es).c.entries| == 1 && After(cfg, es).c.entries[0].results == [C.Reply(Resp(0, data))]
  {
    var y := V.CallSucceeds(cfg, req, data);
    var es :| After(cfg, es) == y;
  }

  /** Whatever objects both sides of a stream send, there is a run in which the method gets all of the client's and
      io.EOF, and the client all of the method's and io.EOF. */
  lemma {:induction false} StreamCanSucceed(cfg: Config, req: Req, xs: seq<bytes>, ys: seq<bytes>)
    requires J.Callable(cfg, req, Streaming(true, true)) && V.Fit(xs) && V.Proper(cfg, ys)
    ensures exists es :: var y := After(cfg, es);
              && |y.s.tasks| == 1 && TaskFor(y.s, 0, 0) && Datas(y.s.tasks[0].got) == xs && y.s.tasks[0].eof
              && |y.c.entries| == 1 && y.c.entries[0].results == V.Objects(ys) + [C.Eof]
  {
    var y := V.StreamSucceeds(cfg, req, xs, ys);
    var es :| After(cfg, es) == y;
    assert Datas(y.s.tasks[0].got) == V.Got(y.s.tasks[0]);
  }
}
