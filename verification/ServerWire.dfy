/** What the server puts on the wire: per stream the frames of its goroutine's responses in order, and for
    every response a reason. */
module ServerWire {
  import opened Types
  import opened StreamQueue
  import opened ServerEngine
  import opened ServerTasks
  import opened ServerIo

  function FramesOf(cfg: Config, outs: seq<Out>): seq<Frame> {
    seq(|outs|, i requires 0 <= i < |outs| => FrameOf(cfg, outs[i]))
  }

  /** A response of sendStatus: never OK. */
  predicate IsStatus(o: Out) { o.code != 0 && o.data.None? && !o.streaming && o.closeStream }

  ghost predicate StatusFrame(cfg: Config, f: Frame) {
    f.typ == RESPONSE && exists code :: code != 0 && f.payload == cfg.respEnc(Resp(code, []))
  }

  ghost predicate TaskFrame(cfg: Config, s: Server, f: Frame) {
    f.sid in s.byId && s.byId[f.sid] < |s.tasks| && f in FramesOf(cfg, s.tasks[s.byId[f.sid]].outs)
  }

  /** The frames that are not such responses. */
  ghost function Proper(cfg: Config, fs: seq<Frame>): seq<Frame> {
    if fs == [] then [] else
      Proper(cfg, fs[..|fs| - 1]) + (if StatusFrame(cfg, fs[|fs| - 1]) then [] else [fs[|fs| - 1]])
  }

  lemma ProperSnoc(cfg: Config, fs: seq<Frame>, f: Frame)
    ensures Proper(cfg, fs + [f]) == Proper(cfg, fs) + (if StatusFrame(cfg, f) then [] else [f])
  {
    assert (fs + [f])[..|fs|] == fs;
  }

  lemma {:induction false} ProperPrefix(cfg: Config, fs: seq<Frame>, gs: seq<Frame>)
    requires fs <= gs
    ensures Proper(cfg, fs) <= Proper(cfg, gs)
    decreases |gs|
  {
    if fs != gs { ProperPrefix(cfg, fs, gs[..|gs| - 1]); }
  }

  /** Of a stream's frames on the wire those of its goroutine are all but what sendStatus sent, in order; and
      they are all of them if sendStatus was never called for the stream. */
  ghost predicate Written(cfg: Config, t: Task, fs: seq<Frame>, statusIds: set<uint32>) {
    && Proper(cfg, FramesFor(fs, t.id)) == Proper(cfg, FramesOf(cfg, t.outs))
    && (t.id !in statusIds ==> FramesFor(fs, t.id) == FramesOf(cfg, t.outs))
  }

  predicate Holds(m: Main) { m.Have? || m.Forgetting? || m.Discounting? }

  ghost predicate Statuses(s: Server) {
    && (s.receiver.SendingStatus? ==> IsStatus(s.receiver.o) && s.receiver.o.id in s.statusIds)
    && (Holds(s.main) && s.main.src.None? ==> IsStatus(s.main.o) && s.main.o.id in s.statusIds)
  }

  ghost predicate Wire(cfg: Config, s: Server) {
    && s.w.Valid()
    && (forall f | f in s.w.frames :: StatusFrame(cfg, f) || TaskFrame(cfg, s, f))
    && (forall f | f in s.w.frames :: f.sid in s.statusIds || f.sid in s.byId)
    && (forall h | 0 <= h < |s.tasks| :: Written(cfg, s.tasks[h], s.w.frames, s.statusIds))
  }

  /** A step that writes nothing and starts nothing. */
  ghost predicate NothingWritten(s: Server, s': Server) {
    && s'.w == s.w && s'.byId == s.byId && s.statusIds <= s'.statusIds && |s'.tasks| == |s.tasks|
    && (forall h | 0 <= h < |s.tasks| :: s'.tasks[h].id == s.tasks[h].id && s'.tasks[h].outs == s.tasks[h].outs)
  }

  lemma WireKept(cfg: Config, s: Server, s': Server)
    requires Wire(cfg, s) && NothingWritten(s, s')
    ensures Wire(cfg, s')
  {
    forall f | f in s'.w.frames ensures StatusFrame(cfg, f) || TaskFrame(cfg, s', f) {
      assert StatusFrame(cfg, f) || TaskFrame(cfg, s, f);
    }
    forall h | 0 <= h < |s'.tasks| ensures Written(cfg, s'.tasks[h], s'.w.frames, s'.statusIds) {
      assert Written(cfg, s.tasks[h], s.w.frames, s.statusIds);
    }
  }

  lemma AffectWritesNothing(t: Task, item: Item, v: Verdict)
    ensures Affect(t, item, v).id == t.id && Affect(t, item, v).outs == t.outs
  {
  }

  lemma OfferWritesNothing(s: Server, choice: Choice)
    ensures NothingWritten(s, DoOffer(s, choice))
  {
    if s.receiver.Offering? && s.receiver.h < |s.tasks| {
      var t := s.tasks[s.receiver.h];
      AffectWritesNothing(t, s.receiver.item, Decide(t, s.receiver.stage, choice));
    }
  }

  lemma FinishDataWritesNothing(s: Server)
    ensures NothingWritten(s, DoFinishData(s))
  {
  }

  lemma DataWritesNothing(s: Server, s': Server, m: Msg)
    requires DataEffect(s, s', m)
    ensures s'.w == s.w ==> NothingWritten(s, s')
  {
  }

  lemma NoFramesYet(fs: seq<Frame>, id: uint32)
    requires forall f | f in fs :: f.sid != id
    ensures FramesFor(fs, id) == []
  {
  }

  lemma {:induction false} OnlyStatuses(cfg: Config, fs: seq<Frame>, id: uint32)
    requires forall f | f in fs && f.sid == id :: StatusFrame(cfg, f)
    ensures Proper(cfg, FramesFor(fs, id)) == []
  {
    if fs != [] {
      var n := |fs| - 1;
      OnlyStatuses(cfg, fs[..n], id);
      if fs[n].sid == id {
        ProperSnoc(cfg, FramesFor(fs[..n], id), fs[n]);
      } else {
        assert FramesFor(fs, id) == FramesFor(fs[..n], id);
      }
    }
  }

  /** Of a stream that is about to start nothing but what sendStatus sent is on the wire. */
  lemma NothingProper(cfg: Config, s: Server, id: uint32)
    requires Wire(cfg, s) && id !in s.byId
    ensures Proper(cfg, FramesFor(s.w.frames, id)) == []
    ensures id !in s.statusIds ==> FramesFor(s.w.frames, id) == []
  {
    forall f | f in s.w.frames && f.sid == id ensures StatusFrame(cfg, f) {
      assert StatusFrame(cfg, f) || TaskFrame(cfg, s, f);
    }
    OnlyStatuses(cfg, s.w.frames, id);
    if id !in s.statusIds { NoFramesYet(s.w.frames, id); }
  }

  /** The goroutine list after a new one has been started, which has written nothing. */
  predicate OneStarted(s: Server, s': Server) {
    && |s'.tasks| == |s.tasks| + 1 && s'.w == s.w && s'.statusIds == s.statusIds
    && (forall h | 0 <= h < |s.tasks| :: s'.tasks[h] == s.tasks[h])
    && var t := s'.tasks[|s.tasks|]; t.outs == [] && t.id !in s.byId && s'.byId == s.byId[t.id := |s.tasks|]
  }

  lemma StartedFrame(cfg: Config, s: Server, s': Server, f: Frame)
    requires OneStarted(s, s') && TaskFrame(cfg, s, f)
    ensures TaskFrame(cfg, s', f)
  {
  }

  lemma StartedWritten(cfg: Config, s: Server, s': Server)
    requires OneStarted(s, s') && Wire(cfg, s)
    ensures var t := s'.tasks[|s.tasks|]; Written(cfg, t, s.w.frames, s.statusIds)
  {
    NothingProper(cfg, s, s'.tasks[|s.tasks|].id);
    assert FramesOf(cfg, []) == [];
  }

  lemma WireStarted(cfg: Config, s: Server, s': Server)
    requires Wire(cfg, s) && OneStarted(s, s')
    ensures Wire(cfg, s')
  {
    StartedWritten(cfg, s, s');
    forall f | f in s'.w.frames ensures StatusFrame(cfg, f) || TaskFrame(cfg, s', f) {
      if TaskFrame(cfg, s, f) { StartedFrame(cfg, s, s', f); }
    }
    forall h | 0 <= h < |s'.tasks| ensures Written(cfg, s'.tasks[h], s'.w.frames, s'.statusIds) {
      if h < |s.tasks| { assert Written(cfg, s.tasks[h], s.w.frames, s.statusIds); }
    }
  }

  lemma WireRequest(cfg: Config, s: Server, s': Server, m: Msg)
    requires Wire(cfg, s) && RequestEffect(cfg, s, s', m)
    requires Known(s.byId, s.tasks) && Accounted(cfg, s.tasks, s.received, s.lastId)
    ensures Wire(cfg, s')
  {
    if |s'.tasks| == |s.tasks| {
      WireKept(cfg, s, s');
    } else {
      assert m.frame.sid !in s.byId by { assert forall i | i in s.byId :: s.tasks[s.byId[i]].id == i; }
      WireStarted(cfg, s, s');
    }
  }

  lemma WireDispatch(cfg: Config, s: Server, budget: nat)
    requires Tasks(cfg, s) && Wire(cfg, s)
    ensures Wire(cfg, DoDispatch(cfg, s, budget))
  {
    if s.receiver.Got? {
      var m := s.receiver.m;
      var s1 := Noted(s);
      var s' := DoDispatch(cfg, s, budget);
      DispatchCases(cfg, s, budget);
      ReceivedMore(cfg, s.tasks, s.received, m, s.lastId, s.lastId);
      WireKept(cfg, s, s1);
      if !Unacceptable(m) && m.frame.typ == DATA {
        DataEffects(s1, m);
        DataWritesNothing(s1, s', m);
        WireKept(cfg, s1, s');
      } else if !Unacceptable(m) && m.frame.typ == REQUEST {
        RequestEffects(cfg, s1, m, budget);
        WireRequest(cfg, s1, s', m);
      } else {
        WireKept(cfg, s1, s');
      }
    }
  }

  lemma WireReceiver(cfg: Config, s: Server, re: ReceiverEvent)
    requires Tasks(cfg, s) && Wire(cfg, s)
    ensures Wire(cfg, DoReceiver(cfg, s, re))
  {
    if re.Dispatch? {
      WireDispatch(cfg, s, re.budget);
    } else {
      if re.Offer? { OfferWritesNothing(s, re.choice); }
      else if re.FinishData? { FinishDataWritesNothing(s); }
      else { ReceiverKept(cfg, s, re); }
      WireKept(cfg, s, DoReceiver(cfg, s, re));
    }
  }

  lemma WireTask(cfg: Config, s: Server, h: nat, te: TaskEvent)
    requires Wire(cfg, s)
    ensures Wire(cfg, DoTask(cfg, s, h, te))
  {
    if h < |s.tasks| && TaskCan(cfg, s.tasks[h], te, s.main.Ended?) {
      TaskStepSame(cfg, s.tasks[h], te, s.main.Ended?);
      WireKept(cfg, s, DoTask(cfg, s, h, te));
    }
  }

  lemma FramesOfSnoc(cfg: Config, outs: seq<Out>, o: Out)
    ensures FramesOf(cfg, outs + [o]) == FramesOf(cfg, outs) + [FrameOf(cfg, o)]
  {
  }

  /** What the loop holds belongs to the stream it says. */
  lemma HeldOutIsOwn(cfg: Config, s: Server, h: nat)
    requires Io(cfg, s) && Pipeline(s) && s.main.Have? && s.main.src == Some(h)
    ensures h < |s.tasks| && s.main.o.id == s.tasks[h].id
    ensures s.tasks[h].handed == s.tasks[h].outs + [s.main.o]
  {
    assert TaskOk(cfg, s.tasks[h]);
    var hd := s.tasks[h].handed;
    assert hd[|hd| - 1] == s.main.o;
  }

  lemma StatusIsFrame(cfg: Config, o: Out)
    requires IsStatus(o)
    ensures StatusFrame(cfg, FrameOf(cfg, o)) && FrameOf(cfg, o).sid == o.id
  {
    assert FrameOf(cfg, o).payload == cfg.respEnc(Resp(o.code, []));
  }

  /** A frame of another stream, or of sendStatus. */
  lemma WrittenStatus(cfg: Config, t: Task, fs: seq<Frame>, statusIds: set<uint32>, f: Frame)
    requires Written(cfg, t, fs, statusIds) && (f.sid != t.id || (StatusFrame(cfg, f) && f.sid in statusIds))
    ensures Written(cfg, t, fs + [f], statusIds)
  {
    FramesForSnoc(fs, f, t.id);
    if f.sid == t.id { ProperSnoc(cfg, FramesFor(fs, t.id), f); }
    else { assert FramesFor(fs + [f], t.id) == FramesFor(fs, t.id); }
  }

  lemma WrittenOwn(cfg: Config, t: Task, fs: seq<Frame>, statusIds: set<uint32>, o: Out)
    requires Written(cfg, t, fs, statusIds) && o.id == t.id
    ensures Written(cfg, t.(outs := t.outs + [o]), fs + [FrameOf(cfg, o)], statusIds)
  {
    var f := FrameOf(cfg, o);
    FramesForSnoc(fs, f, t.id);
    ProperSnoc(cfg, FramesFor(fs, t.id), f);
    FramesOfSnoc(cfg, t.outs, o);
    ProperSnoc(cfg, FramesOf(cfg, t.outs), f);
  }

  lemma WireWriteStatus(cfg: Config, s: Server, s': Server)
    requires Tasks(cfg, s) && Wire(cfg, s) && Statuses(s) && s.main.Have? && s.main.src.None?
    requires WriteEffect(cfg, s, s') && s'.w.frames != s.w.frames
    ensures Wire(cfg, s')
  {
    var f := FrameOf(cfg, s.main.o);
    StatusIsFrame(cfg, s.main.o);
    forall g | g in s'.w.frames ensures StatusFrame(cfg, g) || TaskFrame(cfg, s', g) {
      if g != f { assert StatusFrame(cfg, g) || TaskFrame(cfg, s, g); }
    }
    forall j | 0 <= j < |s.tasks| ensures Written(cfg, s'.tasks[j], s'.w.frames, s'.statusIds) {
      WrittenStatus(cfg, s.tasks[j], s.w.frames, s.statusIds, f);
    }
  }

  /** The frame of a goroutine's next response has been written: it becomes one of the goroutine's. */
  lemma OwnFrames(cfg: Config, s: Server, s': Server, h: nat, o: Out, f: Frame)
    requires Known(s.byId, s.tasks) && h < |s.tasks| && o.id == s.tasks[h].id && s'.byId == s.byId
    requires s'.tasks == s.tasks[h := s.tasks[h].(outs := s.tasks[h].outs + [o])]
    requires StatusFrame(cfg, f) || TaskFrame(cfg, s, f) || f == FrameOf(cfg, o)
    ensures StatusFrame(cfg, f) || TaskFrame(cfg, s', f)
  {
    FramesOfSnoc(cfg, s.tasks[h].outs, o);
    assert FramesOf(cfg, s'.tasks[h].outs)[|s.tasks[h].outs|] == FrameOf(cfg, o);
  }

  lemma OwnWritten(cfg: Config, tasks: seq<Task>, fs: seq<Frame>, statusIds: set<uint32>, h: nat, j: nat, o: Out)
    requires h < |tasks| && j < |tasks| && Written(cfg, tasks[j], fs, statusIds)
    requires o.id == tasks[h].id && (j != h ==> tasks[j].id != o.id)
    ensures Written(cfg, tasks[h := tasks[h].(outs := tasks[h].outs + [o])][j], fs + [FrameOf(cfg, o)], statusIds)
  {
    if j == h { WrittenOwn(cfg, tasks[h], fs, statusIds, o); }
    else { WrittenStatus(cfg, tasks[j], fs, statusIds, FrameOf(cfg, o)); }
  }

  lemma OwnWire(cfg: Config, s: Server, s': Server, h: nat, o: Out)
    requires Known(s.byId, s.tasks) && Wire(cfg, s) && h < |s.tasks| && o.id == s.tasks[h].id
    requires s'.byId == s.byId && s'.statusIds == s.statusIds && s'.w.Valid()
    requires s'.tasks == s.tasks[h := s.tasks[h].(outs := s.tasks[h].outs + [o])] && s'.w.frames == s.w.frames + [FrameOf(cfg, o)]
    ensures Wire(cfg, s')
  {
    forall f | f in s'.w.frames ensures StatusFrame(cfg, f) || TaskFrame(cfg, s', f) {
      OwnFrames(cfg, s, s', h, o, f);
    }
    forall j | 0 <= j < |s.tasks| ensures Written(cfg, s'.tasks[j], s'.w.frames, s'.statusIds) {
      OwnWritten(cfg, s.tasks, s.w.frames, s.statusIds, h, j, o);
    }
  }

  lemma WireWriteTask(cfg: Config, s: Server, s': Server, h: nat)
    requires Tasks(cfg, s) && Io(cfg, s) && Pipeline(s) && Wire(cfg, s) && s.main.Have? && s.main.src == Some(h)
    requires WriteEffect(cfg, s, s') && s'.w.frames != s.w.frames
    ensures Wire(cfg, s')
  {
    HeldOutIsOwn(cfg, s, h);
    OwnWire(cfg, s, s', h, s.main.o);
  }

  lemma WireWrite(cfg: Config, s: Server, s': Server)
    requires Tasks(cfg, s) && Io(cfg, s) && Pipeline(s) && Wire(cfg, s) && Statuses(s) && s.main.Have?
    requires WriteEffect(cfg, s, s')
    ensures Wire(cfg, s')
  {
    if s'.w.frames == s.w.frames {
      var s1 := s'.(w := s.w);
      WireKept(cfg, s, s1);
      forall f | f in s'.w.frames ensures StatusFrame(cfg, f) || TaskFrame(cfg, s', f) {
        assert StatusFrame(cfg, f) || TaskFrame(cfg, s1, f);
      }
    } else if s.main.src.None? {
      WireWriteStatus(cfg, s, s');
    } else {
      WireWriteTask(cfg, s, s', s.main.src.value);
    }
  }

  lemma StatusesMain(cfg: Config, s: Server, me: MainEvent)
    requires Statuses(s)
    ensures Statuses(DoMain(cfg, s, me))
  {
  }

  lemma StatusesReceiver(cfg: Config, s: Server, re: ReceiverEvent)
    requires Statuses(s)
    ensures Statuses(DoReceiver(cfg, s, re))
  {
    if re.Dispatch? {
      if s.receiver.Got? { StatusesDispatch(cfg, s, re.budget); }
    } else if !re.Offer? && !re.FinishData? {
      ReceiverKept(cfg, s, re);
    }
  }

  lemma StatusesDispatch(cfg: Config, s: Server, budget: nat)
    requires Statuses(s) && s.receiver.Got?
    ensures Statuses(DoDispatch(cfg, s, budget))
  {
    DispatchCases(cfg, s, budget);
    var m := s.receiver.m;
    if !Unacceptable(m) && m.frame.typ == DATA {
      DataEffects(Noted(s), m);
    } else if !Unacceptable(m) && m.frame.typ == REQUEST {
      StatusesRequest(cfg, Noted(s), m, budget);
    }
  }

  lemma StatusesRequest(cfg: Config, s: Server, m: Msg, budget: nat)
    requires Holds(s.main) && s.main.src.None? ==> IsStatus(s.main.o) && s.main.o.id in s.statusIds
    ensures Statuses(DispatchRequest(cfg, s, m, budget))
  {
  }
}
