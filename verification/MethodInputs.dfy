/** What a method gets against what its client has sent: from the frames on the wire to the method's queue, and the
    end of its input. */
module MethodInputs {
  import opened Types
  import opened StreamQueue
  import opened System
  import opened SystemLinks
  import opened SystemCalls
  import C = ClientEngine
  import S = ServerEngine
  import CT = ClientTable
  import CS = ClientSends
  import ST = ServerTasks
  import SIo = ServerIo
  import SI = ServerInputs
  import SE = ServerEnds
  import CH = ClientHistory

  // ---------------------------------------------------------------- what is sent and what arrives

  function Datas(items: seq<S.Item>): seq<bytes> {
    seq(|items|, i requires 0 <= i < |items| => items[i].data)
  }

  lemma {:induction false} PayloadsPrefix(fs: seq<Frame>, gs: seq<Frame>)
    requires fs <= gs
    ensures CH.Payloads(fs) <= CH.Payloads(gs)
    decreases |gs|
  {
    if fs != gs { PayloadsPrefix(fs, gs[..|gs| - 1]); }
  }

  lemma DatasAppend(items: seq<S.Item>, more: seq<S.Item>)
    ensures Datas(items + more) == Datas(items) + Datas(more)
  {
  }

  lemma {:induction false} DataOfFrames(ms: seq<Msg>, id: uint32)
    ensures Datas(SI.DataOf(ms, id)) == CH.Payloads(FramesFor(Frames(ms), id))
  {
    if ms != [] {
      var n := |ms| - 1;
      var (f, before) := (ms[n].frame, FramesFor(Frames(ms[..n]), id));
      DataOfFrames(ms[..n], id);
      assert Frames(ms)[..n] == Frames(ms[..n]);
      if f.sid == id { CH.PayloadsSnoc(before, f); } else { assert FramesFor(Frames(ms), id) == before; }
      var more := if S.IsData(ms[n]) && f.sid == id then [S.Item(f.payload, Some(ms[n].tok))] else [];
      DatasAppend(SI.DataOf(ms[..n], id), more);
      assert Datas(more) == if more == [] then [] else [f.payload];
    }
  }

  lemma {:induction false} FramesForSplit(a: seq<Frame>, b: seq<Frame>, id: uint32)
    ensures FramesFor(a + b, id) == FramesFor(a, id) + FramesFor(b, id)
  {
    if b == [] {
      assert a + b == a;
    } else {
      var n := |b| - 1;
      FramesForSplit(a, b[..n], id);
      assert a + b == (a + b[..n]) + [b[n]];
      FramesForSnoc(a + b[..n], b[n], id);
    }
  }

  /** In the language of a stream the only request is the first frame. */
  lemma RequestIsFirst(cfg: Config, e: C.Entry, fs: seq<Frame>, a: seq<Frame>, f: Frame)
    requires CS.Conforms(cfg, e, fs) && a + [f] <= fs && f.typ == REQUEST
    ensures a == []
  {
    assert fs[|a|] == f;
  }

  lemma FramesSplit(rs: seq<Msg>, at: nat)
    requires at < |rs|
    ensures Frames(rs) == Frames(rs[..at]) + [rs[at].frame] + Frames(rs[at + 1..])
  {
  }

  /** Of a stream's frames the request is the first, and what is read after it is a prefix of the data. */
  lemma PayloadsAfterRequest(cfg: Config, e: C.Entry, before: seq<Frame>, f: Frame, after: seq<Frame>, fs: seq<Frame>)
    requires before + [f] + after <= fs && f.typ == REQUEST
    requires CS.Conforms(cfg, e, FramesFor(fs, f.sid))
    ensures CH.Payloads(FramesFor(after, f.sid)) <= CH.Payloads(FramesFor(fs, f.sid))
  {
    FramesForPrefix(before + [f] + after, fs, f.sid);
    FramesForAround(before, f, after);
    var (a, b) := (FramesFor(before, f.sid), FramesFor(after, f.sid));
    RequestIsFirst(cfg, e, FramesFor(fs, f.sid), a, f);
    assert a + [f] + b == [f] + b;
    RequestThenData(b, f, FramesFor(fs, f.sid));
  }

  lemma FramesForAround(before: seq<Frame>, f: Frame, after: seq<Frame>)
    ensures FramesFor(before + [f] + after, f.sid) == FramesFor(before, f.sid) + [f] + FramesFor(after, f.sid)
  {
    FramesForSplit(before + [f], after, f.sid);
    FramesForSnoc(before, f, f.sid);
  }

  /** What was received for a stream after its request is a prefix of the data the client sent on it. */
  lemma DataAfterRequest(cfg: Config, e: C.Entry, rs: seq<Msg>, at: nat, fs: seq<Frame>)
    requires at < |rs| && rs[at].frame.typ == REQUEST && Frames(rs) <= fs
    requires CS.Conforms(cfg, e, FramesFor(fs, rs[at].frame.sid))
    ensures Datas(SI.DataOf(rs[at + 1..], rs[at].frame.sid)) <= CH.Payloads(FramesFor(fs, rs[at].frame.sid))
  {
    FramesSplit(rs, at);
    PayloadsAfterRequest(cfg, e, Frames(rs[..at]), rs[at].frame, Frames(rs[at + 1..]), fs);
    DataOfFrames(rs[at + 1..], rs[at].frame.sid);
  }

  lemma ServerHasRead(cfg: Config, y: Sys)
    requires Linked(cfg, y)
    ensures Frames(y.s.received) <= y.c.w.frames
  {
  }

  /** What was received for a goroutine after its request is a prefix of the data the client sent. */
  predicate DataWasSent(t: S.Task, received: seq<Msg>, sent: seq<Frame>) {
    t.at < |received| && Datas(SI.DataOf(received[t.at + 1..], t.id)) <= CH.Payloads(FramesFor(sent, t.id))
  }

  lemma ReceivedData(cfg: Config, y: Sys, h: nat)
    requires Linked(cfg, y) && CT.Small(y.c) && Matched(cfg, y.c) && cfg.Lawful() && h < |y.s.tasks|
    ensures DataWasSent(y.s.tasks[h], y.s.received, y.c.w.frames)
  {
    var t := y.s.tasks[h];
    TaskOfStream(cfg, y, h);
    ServerHasRead(cfg, y);
    var e := y.c.entries[t.id / 2];
    assert CS.Conforms(cfg, e, FramesFor(y.c.w.frames, t.id)) by {
      assert CS.SentOk(cfg, e, FramesFor(y.c.w.frames, C.IdOf(t.id / 2)), y.c.w.broken);
    }
    assert ST.Origin(cfg, t, y.s.received);
    DataAfterRequest(cfg, e, y.s.received, t.at, y.c.w.frames);
  }

  lemma RequestThenData(fs: seq<Frame>, f: Frame, all: seq<Frame>)
    requires [f] + fs <= all && f.typ == REQUEST
    ensures CH.Payloads(fs) <= CH.Payloads(all)
  {
    PayloadsCons(fs, f);
    PayloadsPrefix([f] + fs, all);
  }

  lemma {:induction false} PayloadsCons(fs: seq<Frame>, f: Frame)
    requires f.typ == REQUEST
    ensures CH.Payloads([f] + fs) == CH.Payloads(fs)
  {
    if fs != [] {
      var n := |fs| - 1;
      PayloadsCons(fs[..n], f);
      assert [f] + fs == ([f] + fs[..n]) + [fs[n]];
      CH.PayloadsSnoc([f] + fs[..n], fs[n]);
    }
  }

  /** What a method is given: its request's own object, unless its client streams and the request carries none,
      and then what is sent on its stream. */
  function SentTo(t: S.Task, sent: seq<bytes>): seq<bytes> {
    (if t.kind.Streaming? && (t.req.payload != [] || !t.kind.client) then [t.req.payload] else []) + sent
  }

  /** What a streaming method's RecvMsg has returned is a subsequence, in order, of a prefix of what the
      client sent for it; and itself a prefix of it unless a data() failed, and then all of it once io.EOF
      has been returned. */
  ghost predicate GotWhatWasSent(t: S.Task, sent: seq<bytes>) {
    && Datas(t.offered) <= SentTo(t, sent)
    && SIo.Subseq(t.got, t.offered)
    && (!t.refused ==> Datas(t.got) <= SentTo(t, sent))
    && (!t.refused && t.eof ==> Datas(t.got) == SentTo(t, sent))
  }

  // ---------------------------------------------------------------- the end of a method's input

  lemma LastFor(ms: seq<Msg>, id: uint32)
    requires ms != [] && ms[|ms| - 1].frame.sid == id
    ensures var fs := FramesFor(Frames(ms), id); fs != [] && fs[|fs| - 1] == ms[|ms| - 1].frame
  {
  }

  /** What was received for a stream from its request up to a closing frame is all the client sent on it. */
  lemma AllDataUpToEnd(cfg: Config, e: C.Entry, rs: seq<Msg>, at: nat, fs: seq<Frame>)
    requires at < |rs| - 1 && rs[at].frame.typ == REQUEST && Frames(rs) <= fs
    requires CS.Conforms(cfg, e, FramesFor(fs, rs[at].frame.sid)) && SE.Closing(rs[|rs| - 1], rs[at].frame.sid)
    ensures Datas(SI.DataOf(rs[at + 1..], rs[at].frame.sid)) == CH.Payloads(FramesFor(fs, rs[at].frame.sid))
  {
    var (f, after) := (rs[at].frame, rs[at + 1..]);
    var (all, b) := (FramesFor(fs, f.sid), FramesFor(Frames(after), f.sid));
    FramesSplit(rs, at);
    FramesForPrefix(Frames(rs), fs, f.sid);
    FramesForAround(Frames(rs[..at]), f, Frames(after));
    RequestIsFirst(cfg, e, all, FramesFor(Frames(rs[..at]), f.sid), f);
    assert [] + [f] + b == [f] + b <= all;
    LastFor(after, f.sid);
    assert all[|b|] == after[|after| - 1].frame;
    CS.ClosingIsLast(cfg, e, all, |b|);
    assert [f] + b == all;
    PayloadsCons(b, f);
    DataOfFrames(after, f.sid);
  }

  lemma EofIsAll(cfg: Config, y: Sys, h: nat)
    requires Linked(cfg, y) && CT.Small(y.c) && Matched(cfg, y.c) && cfg.Lawful() && h < |y.s.tasks|
    ensures var t := y.s.tasks[h]; !t.refused && t.eof ==> Datas(t.got) == SentTo(t, CH.Payloads(FramesFor(y.c.w.frames, t.id)))
  {
    var (t, rs) := (y.s.tasks[h], y.s.received);
    TaskOfStream(cfg, y, h);
    ServerHasRead(cfg, y);
    if !t.refused && t.eof {
      var e := y.c.entries[t.id / 2];
      assert CS.SentOk(cfg, e, FramesFor(y.c.w.frames, C.IdOf(t.id / 2)), y.c.w.broken);
      assert SIo.TaskOk(cfg, t) && SE.EndOk(t, rs) && ST.Origin(cfg, t, rs);
      EofIsAllOf(cfg, e, t, rs, y.c.w.frames);
    }
  }

  lemma EofIsAllOf(cfg: Config, e: C.Entry, t: S.Task, rs: seq<Msg>, sent: seq<Frame>)
    requires SIo.TaskOk(cfg, t) && SE.EndOk(t, rs) && ST.Origin(cfg, t, rs) && !t.refused && t.eof
    requires Frames(rs) <= sent && CS.Conforms(cfg, e, FramesFor(sent, t.id))
    ensures Datas(t.got) == SentTo(t, CH.Payloads(FramesFor(sent, t.id)))
  {
    var c :| SE.EndedBy(t, rs, c);
    GotIsAccepted(cfg, t);
    AllUpTo(cfg, e, t, rs, c, sent);
  }

  lemma AllUpTo(cfg: Config, e: C.Entry, t: S.Task, rs: seq<Msg>, c: nat, sent: seq<Frame>)
    requires SE.EndedBy(t, rs, c) && ST.Origin(cfg, t, rs) && Frames(rs) <= sent && CS.Conforms(cfg, e, FramesFor(sent, t.id))
    ensures Datas(SI.ClientData(t, rs[..c + 1])) == SentTo(t, CH.Payloads(FramesFor(sent, t.id)))
  {
    var upTo := rs[..c + 1];
    FramesPrefix(upTo, rs);
    assert upTo[t.at] == rs[t.at] && upTo[|upTo| - 1] == rs[c];
    AllDataUpToEnd(cfg, e, upTo, t.at, sent);
    DatasOfClient(t, upTo);
  }

  lemma GotIsAccepted(cfg: Config, t: S.Task)
    requires SIo.TaskOk(cfg, t) && t.eof
    ensures t.got == t.accepted
  {
    assert t.got + [] == t.got;
  }

  lemma DatasOfClient(t: S.Task, received: seq<Msg>)
    requires t.at < |received|
    ensures Datas(SI.ClientData(t, received)) ==
            (if S.HasInitialData(t) then [t.req.payload] else []) + Datas(SI.DataOf(received[t.at + 1..], t.id))
  {
    var initial := if S.HasInitialData(t) then [S.InitialItem(t)] else [];
    DatasAppend(initial, SI.DataOf(received[t.at + 1..], t.id));
    assert Datas(initial) == if S.HasInitialData(t) then [t.req.payload] else [];
  }

  lemma InputIsSent(cfg: Config, y: Sys, h: nat)
    requires Linked(cfg, y) && CT.Small(y.c) && Matched(cfg, y.c) && cfg.Lawful() && h < |y.s.tasks|
    requires y.s.tasks[h].kind.Streaming?
    ensures GotWhatWasSent(y.s.tasks[h], CH.Payloads(FramesFor(y.c.w.frames, y.s.tasks[h].id)))
  {
    ReceivedData(cfg, y, h);
    OfferedOf(cfg, y, h);
    GotOf(cfg, y, h);
    EofIsAll(cfg, y, h);
    OfferedDatas(y.s.tasks[h], y.s.received, y.c.w.frames);
  }

  lemma OfferedOf(cfg: Config, y: Sys, h: nat)
    requires Linked(cfg, y) && h < |y.s.tasks| && y.s.tasks[h].kind.Streaming?
    ensures var t := y.s.tasks[h]; t.at < |y.s.received| && t.offered <= SI.ClientData(t, y.s.received)
  {
    assert SI.InputOk(y.s.tasks[h], y.s.received, SI.GoneFor(y.s, h));
  }

  lemma GotOf(cfg: Config, y: Sys, h: nat)
    requires Linked(cfg, y) && h < |y.s.tasks|
    ensures GotOffered(y.s.tasks[h])
  {
    var t := y.s.tasks[h];
    assert SIo.TaskOk(cfg, t) && SIo.OfferedOk(t, SIo.InHand(y.s, h));
    GotOfOffered(t, SIo.InHand(y.s, h));
  }

  ghost predicate GotOffered(t: S.Task) {
    SIo.Subseq(t.got, t.offered) && (!t.refused ==> Datas(t.got) <= Datas(t.offered))
  }

  lemma OfferedDatas(t: S.Task, received: seq<Msg>, sent: seq<Frame>)
    requires DataWasSent(t, received, sent) && t.offered <= SI.ClientData(t, received) && GotOffered(t)
    requires !t.refused && t.eof ==> Datas(t.got) == SentTo(t, CH.Payloads(FramesFor(sent, t.id)))
    ensures GotWhatWasSent(t, CH.Payloads(FramesFor(sent, t.id)))
  {
    DatasOfClient(t, received);
    assert Datas(t.offered) <= Datas(SI.ClientData(t, received));
  }

  lemma GotOfOffered(t: S.Task, inHand: seq<S.Item>)
    requires SIo.Input(t) && SIo.OfferedOk(t, inHand)
    ensures GotOffered(t)
  {
    assert t.got + (t.inbox + inHand) == t.accepted + inHand;
    SubseqPrefix(t.got, t.inbox + inHand, t.offered);
  }

  lemma {:induction false} SubseqPrefix(a: seq<S.Item>, b: seq<S.Item>, c: seq<S.Item>)
    requires SIo.Subseq(a + b, c)
    ensures SIo.Subseq(a, c)
    decreases |b|
  {
    if b == [] {
      assert a + b == a;
    } else {
      SIo.SubseqDrop(a + b, c);
      assert (a + b)[..|a + b| - 1] == a + b[..|b| - 1];
      SubseqPrefix(a, b[..|b| - 1], c);
    }
  }
}
