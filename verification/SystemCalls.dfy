/** End to end: which call a response answers, what a stream delivers, and that the server never has to
    refuse an id of this client. */
module SystemCalls {
  import opened Types
  import opened StreamQueue
  import opened System
  import opened SystemLinks
  import C = ClientEngine
  import CT = ClientTable
  import CS = ClientSends
  import CR = ClientRuns
  import ST = ServerTasks
  import SE = ServerEnds

  // ---------------------------------------------------------------- frames of the client, seen from the server

  lemma {:induction false} InFramesFor(fs: seq<Frame>, i: nat)
    requires i < |fs|
    ensures fs[i] in FramesFor(fs, fs[i].sid)
  {
    var n := |fs| - 1;
    if i < n { InFramesFor(fs[..n], i); }
  }

  lemma FrameInLanguage(cfg: Config, e: C.Entry, fs: seq<Frame>, f: Frame)
    requires CS.Conforms(cfg, e, fs) && f in fs
    ensures f == C.RequestFrame(cfg, e) || (f.typ == DATA && e.kind.Streaming? && e.kind.client)
  {
    var j :| 0 <= j < |fs| && fs[j] == f;
  }

  /** A frame the client wrote is the request of its stream, or data of a stream whose client streams. */
  lemma ClientFrame(cfg: Config, c: C.Client, f: Frame)
    requires CS.Sends(cfg, c) && CT.Small(c) && f in c.w.frames
    ensures f.sid % 2 == 1 && f.sid / 2 < |c.entries| && f.sid == C.IdOf(f.sid / 2)
    ensures var e := c.entries[f.sid / 2];
            || f == C.RequestFrame(cfg, e)
            || (f.typ == DATA && e.kind.Streaming? && e.kind.client)
  {
    var k := f.sid / 2;
    CT.SmallIds(k, k);
    var fs := FramesFor(c.w.frames, C.IdOf(k));
    assert CS.SentOk(cfg, c.entries[k], fs, c.w.broken);
    var i :| 0 <= i < |c.w.frames| && c.w.frames[i] == f;
    InFramesFor(c.w.frames, i);
    FrameInLanguage(cfg, c.entries[k], fs, f);
  }

  /** The descriptor a stream is opened with is the one its method is registered with. */
  predicate Fits(cfg: Config, kind: Kind, req: Req) {
    cfg.kindOf(req.service, req.name) in {None, Some(kind)}
  }

  ghost predicate Matched(cfg: Config, c: C.Client) {
    && (forall k | 0 <= k < |c.entries| :: Fits(cfg, c.entries[k].kind, c.entries[k].req))
    && (c.sender.Held? || c.sender.Checked? ==> Fits(cfg, c.sender.kind, c.sender.req))
  }

  lemma MatchedCaller(cfg: Config, c: C.Client, ce: C.CallerEvent)
    requires Matched(cfg, c) && CT.Openings(c)
    requires ce.BeginCreate? ==> Fits(cfg, ce.kind, ce.req)
    ensures Matched(cfg, C.DoCaller(cfg, c, ce))
  {
  }

  lemma MatchedStep(cfg: Config, c: C.Client, e: C.Event)
    requires Matched(cfg, c) && CT.Openings(c) && Allowed(cfg, e)
    ensures Matched(cfg, C.Apply(cfg, c, e))
  {
    match e
    case Caller(ce) => MatchedCaller(cfg, c, ce);
    case Receive(le) => MatchedLoop(cfg, c, le);
    case Consume(k, ev) => CT.ConsumerEffects(cfg, c, k, ev); MatchedConsume(cfg, c, C.DoConsume(cfg, c, k, ev));
  }

  lemma MatchedConsume(cfg: Config, c: C.Client, c': C.Client)
    requires Matched(cfg, c) && CT.ConsumerEffect(c, c')
    ensures Matched(cfg, c')
  {
    forall k | 0 <= k < |c'.entries| ensures Fits(cfg, c'.entries[k].kind, c'.entries[k].req) {
      assert CT.ConsumerKeeps(c.entries[k], c'.entries[k]);
    }
  }

  lemma MatchedLoop(cfg: Config, c: C.Client, le: C.LoopEvent)
    requires Matched(cfg, c)
    ensures Matched(cfg, C.DoLoop(c, le))
  {
    if le.Lookup? { CR.LookupKeeps(c); MatchedKept(cfg, c, C.DoLookup(c)); }
    else if le.Deliver? { CR.DeliverKeeps(c, le.choice); MatchedKept(cfg, c, C.DoDeliver(c, le.choice)); }
    else { CT.QuietEffects(c, le); }
  }

  lemma MatchedKept(cfg: Config, c: C.Client, c': C.Client)
    requires Matched(cfg, c) && |c'.entries| == |c.entries| && c'.sender == c.sender
    requires forall j | 0 <= j < |c.entries| :: CT.LoopKeeps(c.entries[j], c'.entries[j])
    ensures Matched(cfg, c')
  {
    forall k | 0 <= k < |c'.entries| ensures Fits(cfg, c'.entries[k].kind, c'.entries[k].req) {
      assert CT.LoopKeeps(c.entries[k], c'.entries[k]);
    }
  }

  /** Everything the server has dispatched on was written by the client. */
  lemma ReceivedIsWritten(cfg: Config, y: Sys, i: nat)
    requires Linked(cfg, y) && i < |y.s.received|
    ensures y.s.received[i].frame in y.c.w.frames
  {
    assert Frames(y.s.received)[i] == y.s.received[i].frame;
    assert ServerRead(y.s)[i] == y.s.received[i].frame;
    assert y.c.w.frames[i] == ServerRead(y.s)[i];
  }

  /** A method runs for exactly the request the client sent under its id. */
  lemma TaskOfStream(cfg: Config, y: Sys, h: nat)
    requires Linked(cfg, y) && CT.Small(y.c) && Matched(cfg, y.c) && cfg.Lawful() && h < |y.s.tasks|
    ensures var t := y.s.tasks[h];
            && t.id % 2 == 1 && t.id / 2 < |y.c.entries| && t.id == C.IdOf(t.id / 2)
            && t.req == y.c.entries[t.id / 2].req
            && t.kind == y.c.entries[t.id / 2].kind
  {
    var t := y.s.tasks[h];
    assert ST.Origin(cfg, t, y.s.received);
    ReceivedIsWritten(cfg, y, t.at);
    ClientFrame(cfg, y.c, y.s.received[t.at].frame);
    assert Fits(cfg, y.c.entries[t.id / 2].kind, y.c.entries[t.id / 2].req);
  }

  // ---------------------------------------------------------------- frames of the server, seen from the client

  /** The server only answers ids of streams that exist. */
  lemma ServerFrame(cfg: Config, y: Sys, f: Frame)
    requires Linked(cfg, y) && CT.Small(y.c) && f in y.s.w.frames
    ensures f.sid % 2 == 1 && f.sid / 2 < |y.c.entries|
  {
    if f.sid in y.s.statusIds {
      assert SE.Heard(y.s.received, f.sid);
      var i :| 0 <= i < |y.s.received| && y.s.received[i].frame.sid == f.sid;
      ReceivedIsWritten(cfg, y, i);
      ClientFrame(cfg, y.c, y.s.received[i].frame);
    } else {
      var t := y.s.tasks[y.s.byId[f.sid]];
      assert ST.Origin(cfg, t, y.s.received);
      ReceivedIsWritten(cfg, y, t.at);
      ClientFrame(cfg, y.c, y.s.received[t.at].frame);
    }
  }

  lemma SeenIsWritten(cfg: Config, y: Sys, i: nat)
    requires Linked(cfg, y) && i < |y.c.seen|
    ensures y.c.seen[i].frame in y.s.w.frames
  {
    assert Frames(y.c.seen)[i] == y.c.seen[i].frame;
    assert ClientRead(y.c)[i] == y.c.seen[i].frame;
    assert y.s.w.frames[i] == ClientRead(y.c)[i];
  }

  /** Nothing was read for a stream before it was registered. */
  ghost predicate NothingEarly(c: C.Client) {
    CT.Small(c) ==> forall k | 0 <= k < |c.entries| ::
      c.entries[k].regAt <= |c.seen| && For(c.seen[..c.entries[k].regAt], C.IdOf(k)) == []
  }

  lemma NoneFor(ms: seq<Msg>, id: uint32)
    requires forall m | m in ms :: m.frame.sid != id
    ensures For(ms, id) == []
  {
  }

  lemma SeenIsForExisting(cfg: Config, y: Sys)
    requires Linked(cfg, y) && CT.Small(y.c)
    ensures forall m | m in y.c.seen :: m.frame.sid % 2 == 1 && m.frame.sid / 2 < |y.c.entries|
  {
    forall m | m in y.c.seen ensures m.frame.sid % 2 == 1 && m.frame.sid / 2 < |y.c.entries| {
      var i :| 0 <= i < |y.c.seen| && y.c.seen[i] == m;
      SeenIsWritten(cfg, y, i);
      ServerFrame(cfg, y, m.frame);
    }
  }

  lemma NothingEarlyRegister(c: C.Client)
    requires NothingEarly(c) && CT.Small(C.DoRegister(c)) && c.sender.Checked?
    requires forall m | m in c.seen :: m.frame.sid / 2 < |c.entries|
    ensures NothingEarly(C.DoRegister(c))
  {
    CT.SmallIds(|c.entries|, |c.entries|);
    NoneFor(c.seen, C.IdOf(|c.entries|));
    assert c.seen[..|c.seen|] == c.seen;
  }

  /** Registration points never move, and what was seen before them does not change. */
  lemma NothingEarlyKept(c: C.Client, c': C.Client)
    requires NothingEarly(c) && |c'.entries| == |c.entries| && c.seen <= c'.seen
    requires forall j | 0 <= j < |c.entries| :: c'.entries[j].regAt == c.entries[j].regAt
    ensures NothingEarly(c')
  {
    if CT.Small(c') {
      forall k | 0 <= k < |c'.entries|
        ensures c'.entries[k].regAt <= |c'.seen| && For(c'.seen[..c'.entries[k].regAt], C.IdOf(k)) == []
      {
        assert c'.seen[..c.entries[k].regAt] == c.seen[..c.entries[k].regAt];
      }
    }
  }

  lemma NothingEarlyCaller(cfg: Config, y: Sys, ce: C.CallerEvent)
    requires Linked(cfg, y) && NothingEarly(y.c)
    ensures NothingEarly(C.DoCaller(cfg, y.c, ce))
  {
    var c' := C.DoCaller(cfg, y.c, ce);
    CT.CallerEffects(cfg, y.c, ce);
    if ce.Register? && y.c.sender.Checked? {
      if CT.Small(c') { SeenIsForExisting(cfg, y); NothingEarlyRegister(y.c); }
    } else {
      OnlyRegisterAdds(cfg, y.c, ce);
      NothingEarlyNoMore(y.c, c');
    }
  }

  lemma NothingEarlyNoMore(c: C.Client, c': C.Client)
    requires NothingEarly(c) && CT.CallerEffect(c, c') && |c'.entries| == |c.entries|
    ensures NothingEarly(c')
  {
    forall j | 0 <= j < |c.entries| ensures c'.entries[j].regAt == c.entries[j].regAt {
      assert CT.CallerKeeps(c.entries[j], c'.entries[j]);
    }
    NothingEarlyKept(c, c');
  }

  lemma OnlyRegisterAdds(cfg: Config, c: C.Client, ce: C.CallerEvent)
    requires !(ce.Register? && c.sender.Checked?)
    ensures |C.DoCaller(cfg, c, ce).entries| == |c.entries|
  {
  }

  lemma NothingEarlyLoop(c: C.Client, le: C.LoopEvent)
    requires NothingEarly(c)
    ensures NothingEarly(C.DoLoop(c, le))
  {
    if le.Lookup? {
      CR.LookupKeeps(c);
      LookupSeen(c);
      NothingEarlyKept(c, C.DoLookup(c));
    } else if le.Deliver? {
      CR.DeliverKeeps(c, le.choice);
      NothingEarlyKept(c, C.DoDeliver(c, le.choice));
    } else if C.DoLoop(c, le) != c {
      CT.QuietEffects(c, le);
      NothingEarlyKept(c, C.DoLoop(c, le));
    }
  }

  lemma LookupSeen(c: C.Client)
    ensures c.seen <= C.DoLookup(c).seen
  {
  }

  lemma NothingEarlyStep(cfg: Config, y: Sys, e: C.Event)
    requires Linked(cfg, y) && NothingEarly(y.c)
    ensures NothingEarly(C.Apply(cfg, y.c, e))
  {
    match e
    case Caller(ce) => NothingEarlyCaller(cfg, y, ce);
    case Receive(le) => NothingEarlyLoop(y.c, le);
    case Consume(k, ev) =>
      CT.ConsumerEffects(cfg, y.c, k, ev);
      NothingEarlyConsume(y.c, C.DoConsume(cfg, y.c, k, ev));
  }

  lemma NothingEarlyConsume(c: C.Client, c': C.Client)
    requires NothingEarly(c) && CT.ConsumerEffect(c, c')
    ensures NothingEarly(c')
  {
    forall j | 0 <= j < |c.entries| ensures c'.entries[j].regAt == c.entries[j].regAt {
      assert CT.ConsumerKeeps(c.entries[j], c'.entries[j]);
    }
    NothingEarlyKept(c, c');
  }
}
