/** What the calls of a stream return against what its method has handed over. */
module Deliveries {
  import opened Types
  import opened StreamQueue
  import opened System
  import opened SystemLinks
  import opened SystemCalls
  import opened UnaryAnswers
  import C = ClientEngine
  import S = ServerEngine
  import CT = ClientTable
  import CC = ClientCalls
  import CR = ClientRuns
  import SIo = ServerIo
  import SW = ServerWire
  import SH = ServerHistory

  /** The object the client makes of a method's response, if any. Of a method whose server does not stream
      only the final response carries one; its SendMsg would be a violation of the protocol. */
  function ObjectOfOut(server: bool, o: S.Out): seq<bytes> {
    if o.code != 0 || (!o.closeStream && !server) || (o.closeStream && server && o.data.None?) then []
    else [S.DataBytes(o.data)]
  }

  /** The objects handed over, in order. */
  function HandedObjects(server: bool, outs: seq<S.Out>): seq<bytes> {
    if outs == [] then [] else HandedObjects(server, outs[..|outs| - 1]) + ObjectOfOut(server, outs[|outs| - 1])
  }

  lemma {:induction false} HandedPrefix(server: bool, a: seq<S.Out>, b: seq<S.Out>)
    requires a <= b
    ensures HandedObjects(server, a) <= HandedObjects(server, b)
    decreases |b|
  {
    if a != b {
      HandedPrefix(server, a, b[..|b| - 1]);
    }
  }

  /** The response makes the client delete the stream. */
  predicate Ends(server: bool, o: S.Out) { o.code == 0 && (o.closeStream || !server) }

  ghost predicate IsOut(cfg: Config, t: S.Task, o: S.Out) { SIo.IsSend(cfg, t, o) || SIo.IsFinal(cfg, t, o) }

  /** How a receive call of a streaming client judges the frame of a response: a nil object that ends the
      stream is io.EOF, an empty one is an object. */
  lemma JudgeOut(cfg: Config, t: S.Task, o: S.Out)
    requires cfg.Lawful() && t.kind.Streaming? && IsOut(cfg, t, o)
    ensures var h := C.Judge(cfg, t.kind, S.FrameOf(cfg, o));
            && CC.ObjectOf(h.result) == ObjectOfOut(t.kind.server, o)
            && (h.unlink <==> Ends(t.kind.server, o))
            && (h.result == C.Eof <==> Ends(t.kind.server, o) && t.kind.server && o.data.None?)
            && (!o.closeStream && !t.kind.server ==> h.result == C.Failed(ErrProtocol))
            && (o.code != 0 ==> h.result == C.Failed(if cfg.objOk([]) then ErrStatus(o.code) else ErrDecode))
  {
    if !o.streaming || o.code != 0 {
      assert cfg.respDec(cfg.respEnc(Resp(o.code, S.DataBytes(o.data)))) == Some(Resp(o.code, S.DataBytes(o.data)));
    }
  }

  /** A response of sendStatus is an error to the client, which keeps the stream. */
  lemma JudgeStatus(cfg: Config, kind: Kind, f: Frame)
    requires cfg.Lawful() && kind.Streaming? && SW.StatusFrame(cfg, f)
    ensures C.Judge(cfg, kind, f).result.Failed? && !C.Judge(cfg, kind, f).unlink
  {
    var code :| code != 0 && f.payload == cfg.respEnc(Resp(code, []));
    assert cfg.respDec(cfg.respEnc(Resp(code, []))) == Some(Resp(code, []));
  }

  lemma {:induction false} DecodedProper(cfg: Config, kind: Kind, fs: seq<Frame>)
    requires cfg.Lawful() && kind.Streaming?
    ensures CC.Decoded(cfg, kind, SW.Proper(cfg, fs)) == CC.Decoded(cfg, kind, fs)
  {
    if fs != [] {
      var n := |fs| - 1;
      DecodedProper(cfg, kind, fs[..n]);
      if SW.StatusFrame(cfg, fs[n]) {
        JudgeStatus(cfg, kind, fs[n]);
        assert SW.Proper(cfg, fs) == SW.Proper(cfg, fs[..n]);
      } else {
        CC.DecodedSnoc(cfg, kind, SW.Proper(cfg, fs[..n]), fs[n]);
      }
    }
  }

  lemma {:induction false} DecodedOuts(cfg: Config, t: S.Task, outs: seq<S.Out>)
    requires cfg.Lawful() && t.kind.Streaming?
    requires forall i | 0 <= i < |outs| :: IsOut(cfg, t, outs[i])
    ensures CC.Decoded(cfg, t.kind, SW.FramesOf(cfg, outs)) == HandedObjects(t.kind.server, outs)
  {
    if outs != [] {
      var n := |outs| - 1;
      DecodedOuts(cfg, t, outs[..n]);
      JudgeOut(cfg, t, outs[n]);
      SW.FramesOfSnoc(cfg, outs[..n], outs[n]);
      assert outs == outs[..n] + [outs[n]];
      CC.DecodedSnoc(cfg, t.kind, SW.FramesOf(cfg, outs[..n]), S.FrameOf(cfg, outs[n]));
    }
  }

  lemma OutsKinds(cfg: Config, t: S.Task)
    requires SIo.TaskOk(cfg, t)
    ensures forall i | 0 <= i < |t.handed| :: IsOut(cfg, t, t.handed[i])
  {
  }

  /** The responses without a final error. */
  function Successes(outs: seq<S.Out>): seq<S.Out> {
    if outs != [] && outs[|outs| - 1].code != 0 then outs[..|outs| - 1] else outs
  }

  lemma SuccessIsProper(cfg: Config, o: S.Out)
    requires cfg.Lawful() && o.code == 0
    ensures !SW.StatusFrame(cfg, S.FrameOf(cfg, o))
  {
    var r := Resp(0, S.DataBytes(o.data));
    assert cfg.respDec(cfg.respEnc(r)) == Some(r);
    if SW.StatusFrame(cfg, S.FrameOf(cfg, o)) { StatusIsNoSuccess(cfg, S.FrameOf(cfg, o), r); }
  }

  lemma {:induction false} AllProper(cfg: Config, outs: seq<S.Out>)
    requires cfg.Lawful() && forall i | 0 <= i < |outs| :: outs[i].code == 0
    ensures SW.Proper(cfg, SW.FramesOf(cfg, outs)) == SW.FramesOf(cfg, outs)
  {
    if outs != [] {
      var n := |outs| - 1;
      AllProper(cfg, outs[..n]);
      SuccessIsProper(cfg, outs[n]);
      assert outs == outs[..n] + [outs[n]];
      SW.FramesOfSnoc(cfg, outs[..n], outs[n]);
      SW.ProperSnoc(cfg, SW.FramesOf(cfg, outs[..n]), S.FrameOf(cfg, outs[n]));
    }
  }

  /** Of what a method has handed over, all but a final error goes out as frames that sendStatus never sends. */
  lemma ProperOuts(cfg: Config, t: S.Task)
    requires cfg.Lawful() && SIo.TaskOk(cfg, t)
    ensures SW.Proper(cfg, SW.FramesOf(cfg, t.outs)) == SW.FramesOf(cfg, Successes(t.outs))
    ensures Successes(t.outs) <= t.handed
  {
    var good := Successes(t.outs);
    forall i | 0 <= i < |good| ensures good[i].code == 0 && good[i] == t.handed[i] {
      assert good[i] == t.outs[i] == t.handed[i];
      assert i < |t.handed| - 1 ==> SIo.IsSend(cfg, t, t.handed[i]);
    }
    AllProper(cfg, good);
    if good != t.outs { FinalErrorIsStatus(cfg, t); }
  }

  lemma FinalErrorIsStatus(cfg: Config, t: S.Task)
    requires SIo.TaskOk(cfg, t) && t.outs != [] && t.outs[|t.outs| - 1].code != 0
    ensures SW.Proper(cfg, SW.FramesOf(cfg, t.outs)) == SW.Proper(cfg, SW.FramesOf(cfg, t.outs[..|t.outs| - 1]))
  {
    var n := |t.outs| - 1;
    var o := t.outs[n];
    assert o == t.handed[n] && SIo.IsFinal(cfg, t, o);
    assert S.FrameOf(cfg, o).payload == cfg.respEnc(Resp(o.code, []));
    assert SW.FramesOf(cfg, t.outs)[..n] == SW.FramesOf(cfg, t.outs[..n]);
  }

  lemma TakenOfSeen(cfg: Config, c: C.Client, k: nat)
    requires CR.Inv(cfg, c) && NothingEarly(c) && CT.Small(c) && k < |c.entries|
    ensures c.entries[k].taken <= For(c.seen, C.IdOf(k))
  {
    var e := c.entries[k];
    CR.NoGapState(cfg, c, k);
    var early := c.seen[..e.regAt];
    assert c.seen == early + c.seen[e.regAt..];
    ForAppend(early, c.seen[e.regAt..], C.IdOf(k));
  }

  /** What a consumer has taken is a prefix of what the server wrote for the stream. */
  lemma TakenPrefix(cfg: Config, y: Sys, k: nat)
    requires Linked(cfg, y) && NothingEarly(y.c) && CT.Small(y.c) && k < |y.c.entries|
    ensures Frames(y.c.entries[k].taken) <= FramesFor(y.s.w.frames, C.IdOf(k))
  {
    TakenOfSeen(cfg, y.c, k);
    FramesPrefix(y.c.entries[k].taken, For(y.c.seen, C.IdOf(k)));
    FramesOfFor(y.c.seen, C.IdOf(k));
    FramesForPrefix(Frames(y.c.seen), y.s.w.frames, C.IdOf(k));
  }

  lemma ObjectsPrefix(rs: seq<C.Outcome>, more: seq<C.Outcome>)
    requires |more| <= 1
    ensures CC.Objects(rs) <= CC.Objects(rs + more)
  {
    if more == [] {
      assert rs + more == rs;
    } else {
      assert more == [more[0]];
      CC.ObjectsSnoc(rs, more[0]);
    }
  }

  /** The method has ended with success, and everything it said has been returned. */
  predicate AllReturned(e: C.Entry, server: bool, said: seq<S.Out>) {
    && said != [] && said[|said| - 1].closeStream && said[|said| - 1].code == 0
    && CC.Objects(e.results) == HandedObjects(server, said)
    && (!server ==> CC.Objects(e.results) == [S.DataBytes(said[|said| - 1].data)])
  }

  /** The client gave the stream up, with nothing returned. */
  predicate GivenUp(e: C.Entry) { C.Failed(ErrProtocol) in e.results && CC.Objects(e.results) == [] }

  /** The method has called SendMsg although its server does not stream. */
  predicate Misbehaved(server: bool, said: seq<S.Out>) { !server && exists o :: o in said && !o.closeStream }

  /** What RecvMsg has returned are the first of the objects the method said, in that order; for a method whose
      server does not stream, at most the one it ended with. And where io.EOF has been returned, the method has
      succeeded and all of them have been returned before it, exactly unless it called SendMsg where its kind
      forbids it: then none has. */
  predicate DeliveredInOrder(e: C.Entry, server: bool, said: seq<S.Out>) {
    && CC.Objects(e.results) <= HandedObjects(server, said)
    && (!server && CC.Objects(e.results) != [] ==> AllReturned(e, server, said))
    && (C.Eof in e.results ==>
          && e.remoteClosed && e.pc.Idle?
          && (if Misbehaved(server, said) then GivenUp(e) && !AllReturned(e, server, said) else AllReturned(e, server, said)))
  }

  /** What a method is blocked on changes nothing. */
  lemma SaidInOrder(cfg: Config, e: C.Entry, t: S.Task)
    requires SIo.TaskOk(cfg, t) && t.kind.Streaming? && DeliveredInOrder(e, t.kind.server, t.handed)
    ensures DeliveredInOrder(e, t.kind.server, t.handed + SH.Blocked(t.pc))
  {
    var said := t.handed + SH.Blocked(t.pc);
    HandedPrefix(t.kind.server, t.handed, said);
    assert t.handed + [] == t.handed;
    if AllReturned(e, t.kind.server, t.handed) { assert said == t.handed; }
  }

  /** But for responses of sendStatus, what a consumer has taken are the first responses written for the
      stream's goroutine. */
  lemma TakenIsWritten(cfg: Config, y: Sys, k: nat, h: nat)
    requires Linked(cfg, y) && NothingEarly(y.c) && CT.Small(y.c) && k < |y.c.entries| && cfg.Lawful()
    requires TaskFor(y.s, k, h)
    ensures SW.Proper(cfg, Frames(y.c.entries[k].taken)) <= SW.FramesOf(cfg, Successes(y.s.tasks[h].outs))
    ensures SIo.TaskOk(cfg, y.s.tasks[h]) && CC.CallOk(cfg, y.c.entries[k])
  {
    TakenPrefix(cfg, y, k);
    SW.ProperPrefix(cfg, Frames(y.c.entries[k].taken), FramesFor(y.s.w.frames, C.IdOf(k)));
    assert SW.Written(cfg, y.s.tasks[h], y.s.w.frames, y.s.statusIds);
    assert SIo.TaskOk(cfg, y.s.tasks[h]);
    ProperOuts(cfg, y.s.tasks[h]);
  }

  /** The entry's call against the stream's goroutine. */
  ghost predicate Paired(cfg: Config, e: C.Entry, t: S.Task) {
    && cfg.Lawful() && t.kind.Streaming? && e.kind == t.kind && CC.StreamCallOk(cfg, e) && SIo.TaskOk(cfg, t)
    && SW.Proper(cfg, Frames(e.taken)) <= SW.FramesOf(cfg, Successes(t.outs))
  }

  lemma Delivered(cfg: Config, e: C.Entry, t: S.Task)
    requires Paired(cfg, e, t)
    ensures DeliveredInOrder(e, t.kind.server, t.handed)
  {
    ReturnedObjects(cfg, e, t);
    if !t.kind.server { SingleObject(cfg, t); }
    if C.Eof in e.results { EofIsLast(cfg, e, t); }
  }

  /** Of frames that go out as the first responses handed over. */
  lemma FirstOfHanded(cfg: Config, t: S.Task, gs: seq<Frame>)
    requires SIo.TaskOk(cfg, t) && Successes(t.outs) <= t.handed && gs <= SW.FramesOf(cfg, Successes(t.outs))
    ensures |gs| <= |t.handed| && gs == SW.FramesOf(cfg, t.handed[..|gs|])
  {
    var good := Successes(t.outs);
    forall i | 0 <= i < |gs| ensures gs[i] == SW.FramesOf(cfg, t.handed[..|gs|])[i] {
      assert SW.FramesOf(cfg, good)[i] == S.FrameOf(cfg, good[i]) && good[i] == t.handed[i];
    }
  }

  lemma DecodedHanded(cfg: Config, t: S.Task, n: nat)
    requires cfg.Lawful() && t.kind.Streaming? && SIo.TaskOk(cfg, t) && n <= |t.handed|
    ensures CC.Decoded(cfg, t.kind, SW.FramesOf(cfg, t.handed[..n])) == HandedObjects(t.kind.server, t.handed[..n])
  {
    OutsKinds(cfg, t);
    forall i | 0 <= i < n ensures IsOut(cfg, t, t.handed[..n][i]) { assert t.handed[..n][i] == t.handed[i]; }
    DecodedOuts(cfg, t, t.handed[..n]);
  }

  /** The proper frames among the first of the taken ones are those of the first responses handed over. */
  lemma ProperTaken(cfg: Config, e: C.Entry, t: S.Task, fs: seq<Frame>) returns (n: nat)
    requires Paired(cfg, e, t) && fs <= Frames(e.taken)
    ensures n <= |t.handed| && SW.Proper(cfg, fs) == SW.FramesOf(cfg, t.handed[..n])
    ensures CC.Decoded(cfg, t.kind, fs) == HandedObjects(t.kind.server, t.handed[..n])
  {
    SW.ProperPrefix(cfg, fs, Frames(e.taken));
    ProperOuts(cfg, t);
    n := |SW.Proper(cfg, fs)|;
    FirstOfHanded(cfg, t, SW.Proper(cfg, fs));
    DecodedHanded(cfg, t, n);
    DecodedProper(cfg, t.kind, fs);
  }

  lemma ReturnedObjects(cfg: Config, e: C.Entry, t: S.Task)
    requires Paired(cfg, e, t)
    ensures CC.Objects(e.results) <= HandedObjects(t.kind.server, t.handed)
  {
    assert CC.Finished(e) <= Frames(e.taken);
    var n := ProperTaken(cfg, e, t, CC.Finished(e));
    HandedPrefix(t.kind.server, t.handed[..n], t.handed);
    ObjectsPrefix(e.results, CC.Pending(e.pc));
  }

  lemma {:induction false} SendsCarryNothing(cfg: Config, t: S.Task, outs: seq<S.Out>)
    requires forall i | 0 <= i < |outs| :: SIo.IsSend(cfg, t, outs[i])
    ensures HandedObjects(false, outs) == []
  {
    if outs != [] { SendsCarryNothing(cfg, t, outs[..|outs| - 1]); }
  }

  /** A method whose server does not stream hands over one object at most: what it produced. */
  lemma SingleObject(cfg: Config, t: S.Task)
    requires SIo.TaskOk(cfg, t) && t.kind.Streaming? && !t.kind.server
    ensures var os := HandedObjects(false, t.handed);
            os == [] || (t.produced.Some? && t.produced.value.code == 0 && os == [S.DataBytes(t.produced.value.data)]
                         && t.handed != [] && t.handed[|t.handed| - 1] == t.produced.value)
    ensures t.produced.Some? && t.produced.value.code == 0 && t.produced.value in t.handed ==> HandedObjects(false, t.handed) != []
  {
    if t.handed != [] {
      var n := |t.handed| - 1;
      var (sends, o) := (t.handed[..n], t.handed[n]);
      forall i | 0 <= i < n ensures SIo.IsSend(cfg, t, sends[i]) { assert sends[i] == t.handed[i]; }
      SendsCarryNothing(cfg, t, sends);
      assert HandedObjects(false, t.handed) == [] + ObjectOfOut(false, o);
      ProducedIsLast(cfg, t);
    }
  }

  /** What a method has produced is, once handed over, the last thing handed over. */
  lemma ProducedIsLast(cfg: Config, t: S.Task)
    requires SIo.TaskOk(cfg, t) && t.handed != []
    ensures var o := t.handed[|t.handed| - 1];
            && (!SIo.IsSend(cfg, t, o) ==> t.produced == Some(o))
            && (t.produced.Some? && t.produced.value in t.handed ==> t.produced == Some(o))
  {
    if t.produced.Some? && t.produced.value in t.handed {
      var i :| 0 <= i < |t.handed| && t.handed[i] == t.produced.value;
    }
  }

  lemma FailureIsReported(cfg: Config, e: C.Entry, t: S.Task)
    requires cfg.Lawful() && cfg.objOk([]) && e.kind.Streaming? && t.kind == e.kind && CC.StreamCallOk(cfg, e) && SIo.TaskOk(cfg, t)
    requires Frames(e.taken) <= SW.FramesOf(cfg, t.outs) && |CC.Finished(e)| == |t.handed + SH.Blocked(t.pc)|
    requires t.handed + SH.Blocked(t.pc) != [] && (t.handed + SH.Blocked(t.pc))[|t.handed + SH.Blocked(t.pc)| - 1].code != 0
    ensures C.Failed(ErrStatus((t.handed + SH.Blocked(t.pc))[|t.handed + SH.Blocked(t.pc)| - 1].code)) in e.results + CC.Pending(e.pc)
  {
    var n := |t.handed| - 1;
    assert CC.Finished(e) <= Frames(e.taken);
    assert |t.outs| == |t.handed| && SH.Blocked(t.pc) == [];
    var o := t.handed[n];
    assert t.outs[n] == o && SW.FramesOf(cfg, t.outs)[n] == S.FrameOf(cfg, o);
    assert CC.Finished(e)[n] == S.FrameOf(cfg, o);
    OutsKinds(cfg, t);
    JudgeOut(cfg, t, o);
    CC.OutcomeIsJudged(cfg, e.kind, S.FrameOf(cfg, o));
    assert S.FrameOf(cfg, o) in CC.Finished(e);
  }

  lemma {:induction false} ProperIn(cfg: Config, fs: seq<Frame>)
    ensures forall f | f in SW.Proper(cfg, fs) :: f in fs
  {
    if fs != [] { ProperIn(cfg, fs[..|fs| - 1]); }
  }

  /** The message that ends the stream for the client is the last it takes, and the first that does. */
  lemma EofIsLast(cfg: Config, e: C.Entry, t: S.Task)
    requires Paired(cfg, e, t) && C.Eof in e.results
    ensures e.remoteClosed && e.pc.Idle? && (if Misbehaved(t.kind.server, t.handed) then GivenUp(e) && !AllReturned(e, t.kind.server, t.handed) else AllReturned(e, t.kind.server, t.handed))
  {
    var n, o := LastIsHanded(cfg, e, t);
    OutsKinds(cfg, t);
    JudgeOut(cfg, t, o);
    if n > 1 { EndsAtLast(cfg, e, t, n, t.handed[0]); }
    LastHanded(cfg, e, t, n);
  }

  /** The last message a finished call took is the frame of a response of the method. */
  lemma LastIsHanded(cfg: Config, e: C.Entry, t: S.Task) returns (n: nat, o: S.Out)
    requires Paired(cfg, e, t) && e.remoteClosed
    ensures 0 < n <= |t.handed| && o == t.handed[n - 1] && S.FrameOf(cfg, o) == C.LastTaken(e).frame
    ensures CC.Objects(e.results) == HandedObjects(t.kind.server, t.handed[..n])
    ensures SW.Proper(cfg, Frames(e.taken[..|e.taken| - 1])) == SW.FramesOf(cfg, t.handed[..n - 1])
  {
    var (before, f) := (Frames(e.taken[..|e.taken| - 1]), C.LastTaken(e).frame);
    CC.FramesSnoc(e.taken);
    if SW.StatusFrame(cfg, f) { JudgeStatus(cfg, e.kind, f); }
    SW.ProperSnoc(cfg, before, f);
    n := ProperTaken(cfg, e, t, Frames(e.taken));
    assert e.results + [] == e.results;
    o := LastOfFrames(cfg, t.handed, n, SW.Proper(cfg, before), f);
  }

  lemma LastOfFrames(cfg: Config, handed: seq<S.Out>, n: nat, before: seq<Frame>, f: Frame) returns (o: S.Out)
    requires n <= |handed| && SW.FramesOf(cfg, handed[..n]) == before + [f]
    ensures 0 < n && o == handed[n - 1] && S.FrameOf(cfg, o) == f && before == SW.FramesOf(cfg, handed[..n - 1])
  {
    assert |SW.FramesOf(cfg, handed[..n])| == n;
    o := handed[n - 1];
    assert handed[..n] == handed[..n - 1] + [o];
    SW.FramesOfSnoc(cfg, handed[..n - 1], o);
    assert (before + [f])[..n - 1] == before && (before + [f])[n - 1] == f;
    var firsts := SW.FramesOf(cfg, handed[..n - 1]);
    assert (firsts + [S.FrameOf(cfg, o)])[..n - 1] == firsts;
  }

  /** No message before the last ended the stream. */
  lemma EndsAtLast(cfg: Config, e: C.Entry, t: S.Task, n: nat, o: S.Out)
    requires Paired(cfg, e, t) && e.remoteClosed && 1 < n <= |t.handed| && o == t.handed[0] && IsOut(cfg, t, o)
    requires SW.Proper(cfg, Frames(e.taken[..|e.taken| - 1])) == SW.FramesOf(cfg, t.handed[..n - 1])
    ensures !Ends(t.kind.server, o)
  {
    var before := e.taken[..|e.taken| - 1];
    var fs := Frames(before);
    ProperIn(cfg, fs);
    assert SW.FramesOf(cfg, t.handed[..n - 1])[0] == S.FrameOf(cfg, o);
    assert S.FrameOf(cfg, o) in fs;
    var i :| 0 <= i < |fs| && fs[i] == S.FrameOf(cfg, o);
    assert before[i] in CC.Passed(e);
    JudgeOut(cfg, t, o);
  }

  /** What the response that ends the stream for the client says about the method. */
  lemma LastHanded(cfg: Config, e: C.Entry, t: S.Task, n: nat)
    requires SIo.TaskOk(cfg, t) && t.kind.Streaming? && 0 < n <= |t.handed| && Ends(t.kind.server, t.handed[n - 1])
    requires n > 1 ==> !Ends(t.kind.server, t.handed[0])
    requires CC.Objects(e.results) == HandedObjects(t.kind.server, t.handed[..n])
    requires !t.handed[n - 1].closeStream && !t.kind.server ==> C.Failed(ErrProtocol) in e.results
    ensures if Misbehaved(t.kind.server, t.handed) then GivenUp(e) && !AllReturned(e, t.kind.server, t.handed) else AllReturned(e, t.kind.server, t.handed)
  {
    var o := t.handed[n - 1];
    if SIo.IsSend(cfg, t, o) {
      assert n == 1 && t.handed[..1] == [o] && o in t.handed;
      SendsCarryNothing(cfg, t, [o]);
    } else {
      assert n == |t.handed| && t.handed[..n] == t.handed && t.produced == Some(o);
      if !t.kind.server { SingleObject(cfg, t); }
    }
  }

  lemma TakenAreStatuses(cfg: Config, y: Sys, k: nat)
    requires Linked(cfg, y) && CT.Small(y.c) && k < |y.c.entries| && C.IdOf(k) !in y.s.byId
    ensures forall f | f in Frames(y.c.entries[k].taken) :: SW.StatusFrame(cfg, f)
  {
    var fs := Frames(y.c.entries[k].taken);
    forall f | f in fs ensures SW.StatusFrame(cfg, f) {
      var i :| 0 <= i < |fs| && fs[i] == f;
      TakenOrigin(cfg, y, k, i);
      assert SW.StatusFrame(cfg, f) || SW.TaskFrame(cfg, y.s, f);
    }
  }

  lemma {:induction false} AllStatuses(cfg: Config, kind: Kind, fs: seq<Frame>)
    requires cfg.Lawful() && kind.Streaming? && forall f | f in fs :: SW.StatusFrame(cfg, f)
    ensures CC.Decoded(cfg, kind, fs) == []
  {
    if fs != [] {
      AllStatuses(cfg, kind, fs[..|fs| - 1]);
      JudgeStatus(cfg, kind, fs[|fs| - 1]);
    }
  }

  lemma FinishedAreTaken(e: C.Entry)
    ensures forall f | f in CC.Finished(e) :: f in Frames(e.taken)
  {
    assert CC.Finished(e) <= Frames(e.taken);
  }

  lemma StatusesReturnNothing(cfg: Config, e: C.Entry)
    requires cfg.Lawful() && e.kind.Streaming? && CC.StreamCallOk(cfg, e)
    requires forall f | f in Frames(e.taken) :: SW.StatusFrame(cfg, f)
    ensures CC.Objects(e.results) == [] && C.Eof !in e.results && !e.remoteClosed
  {
    FinishedAreTaken(e);
    AllStatuses(cfg, e.kind, CC.Finished(e));
    ObjectsPrefix(e.results, CC.Pending(e.pc));
    if e.remoteClosed {
      CC.FramesSnoc(e.taken);
      JudgeStatus(cfg, e.kind, C.LastTaken(e).frame);
    }
  }
}
