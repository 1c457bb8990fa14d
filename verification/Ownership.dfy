/** The buffer pool under a whole run of both endpoints: every read takes a buffer from it, and every put
    of either endpoint goes back to it. */
module Ownership {
  import opened Types
  import opened Framing
  import opened StreamQueue
  import opened System
  import opened SystemLinks
  import opened SystemRuns
  import opened BufferPool
  import C = ClientEngine
  import S = ServerEngine
  import CT = ClientTable
  import CB = ClientBuffers
  import CR = ClientRuns
  import ST = ServerTasks
  import SIo = ServerIo
  import SB = ServerBuffers

  datatype Joint = Joint(y: Sys, p: Pool)

  /** A step of the connection, with the buffer sync.Pool offers if the step reads a message, and one it
      has lost in the meantime. */
  datatype Step = Step(e: Event, offered: Option<nat>, lost: nat)

  // ---------------------------------------------------------------- what a step puts back

  function ClientPuts(cfg: Config, c: C.Client, e: C.Event): set<nat> {
    match e
    case Consume(k, ev) =>
      if k < |c.entries| && C.ConsumerCan(c.entries[k], ev, c.ctxDone, c.StreamLocked())
      then C.PutBack(cfg, c.entries[k], ev) else {}
    case _ => {}
  }

  function ServerPuts(cfg: Config, s: S.Server, e: S.Event): set<nat> {
    match e
    case Recv(re) =>
      if re.Dispatch? && s.receiver.Got? && !ST.Unacceptable(s.receiver.m) && s.receiver.m.frame.typ == REQUEST
         && s.receiver.m.frame.sid > s.lastId
      then {s.receiver.m.tok} else {}
    case Method(h, te) =>
      if h < |s.tasks| && S.TaskCan(cfg, s.tasks[h], te, s.main.Ended?) then S.TaskPut(s.tasks[h], te) else {}
    case _ => {}
  }

  function Tok(client: bool, n: nat): Token { if client then OfClient(n) else OfServer(n) }

  function Toks(client: bool, ns: set<nat>): set<Token> { set n | n in ns :: Tok(client, n) }

  /** Everything put back so far, on either side. */
  function Puts(y: Sys): set<Token> { Toks(true, y.c.puts) + Toks(false, y.s.bufs.puts) }

  function PutsOf(cfg: Config, y: Sys, e: Event): set<Token> {
    match e
    case ClientStep(ce) => if Allowed(cfg, ce) then Toks(true, ClientPuts(cfg, y.c, ce)) else {}
    case ServerStep(se) => if se.Recv? && se.re.ReadFrame? then {} else Toks(false, ServerPuts(cfg, y.s, se))
    case ClientReads => {}
    case ServerReads => {}
  }

  /** The message a step reads, if any. */
  function Reads(y: Sys, e: Event): Option<(Token, Frame)> {
    match e
    case ClientReads =>
      var r := Parse(InFlight(y.s.w, y.cPos));
      if y.c.loop.Reading? && r.Whole? then Some((OfClient(|y.c.seen|), r.frame)) else None
    case ServerReads =>
      var r := Parse(InFlight(y.c.w, y.sPos));
      if y.s.receiver.Reading? && r.Whole? then Some((OfServer(|y.s.received|), r.frame)) else None
    case _ => None
  }

  function GetFor(p: Pool, read: Option<(Token, Frame)>, offered: Option<nat>): Pool {
    if read.None? then p else Get(p, read.value.0, |read.value.1.payload|, offered)
  }

  /** A step puts back at most one buffer. */
  ghost function PutFor(p: Pool, ts: set<Token>): Pool {
    if ts == {} then p else var t :| t in ts; Put(p, t)
  }

  ghost function Apply(cfg: Config, j: Joint, st: Step): Joint {
    Joint(System.Apply(cfg, j.y, st.e),
          PutFor(GetFor(Lose(j.p, st.lost), Reads(j.y, st.e), st.offered), PutsOf(cfg, j.y, st.e)))
  }

  ghost function After(cfg: Config, es: seq<Step>): Joint {
    if es == [] then Joint(Init(), Empty()) else Apply(cfg, After(cfg, es[..|es| - 1]), es[|es| - 1])
  }

  lemma ClientPutsStep(cfg: Config, c: C.Client, e: C.Event)
    requires CT.Openings(c)
    ensures var (c', put) := (C.Apply(cfg, c, e), ClientPuts(cfg, c, e));
            && c'.puts == c.puts + put && (forall m, n | m in put && n in put :: m == n)
            && (!c'.doublePut ==> put !! c.puts)
  {
    match e
    case Caller(ce) => CT.CallerEffects(cfg, c, ce);
    case Receive(le) => LoopPutsNothing(c, le);
    case Consume(k, ev) =>
      var put := ClientPuts(cfg, c, e);
      if n :| n in put && n in c.puts { assert n in put * c.puts; }
  }

  lemma LoopPutsNothing(c: C.Client, le: C.LoopEvent)
    ensures C.DoLoop(c, le).puts == c.puts
  {
  }

  lemma ServerPutsStep(cfg: Config, s: S.Server, e: S.Event)
    ensures var (s', put) := (S.Apply(cfg, s, e), ServerPuts(cfg, s, e));
            && s'.bufs.puts == s.bufs.puts + put && (forall m, n | m in put && n in put :: m == n)
            && (!s'.bufs.doublePut ==> put !! s.bufs.puts)
  {
    match e
    case Recv(re) => ReceiverPuts(cfg, s, re);
    case Method(h, te) => PutIsUnion(s.bufs, ServerPuts(cfg, s, e));
    case Respond(me) => MainPutsNothing(cfg, s, me);
    case CloseServerConn =>
  }

  lemma PutIsUnion(bufs: S.Buffers, put: set<nat>)
    ensures bufs.Put(put).puts == bufs.puts + put && (!bufs.Put(put).doublePut ==> put !! bufs.puts)
  {
    if n :| n in put && n in bufs.puts { assert n in put * bufs.puts; }
  }

  lemma MainPutsNothing(cfg: Config, s: S.Server, me: S.MainEvent)
    ensures S.DoMain(cfg, s, me).bufs == s.bufs
  {
  }

  lemma ReceiverPuts(cfg: Config, s: S.Server, re: S.ReceiverEvent)
    ensures var (s', put) := (S.DoReceiver(cfg, s, re), ServerPuts(cfg, s, S.Recv(re)));
            && s'.bufs.puts == s.bufs.puts + put
            && (!s'.bufs.doublePut ==> put !! s.bufs.puts)
  {
    if re.Dispatch? && s.receiver.Got? {
      DispatchPuts(cfg, s, re);
      PutIsUnion(s.bufs, ServerPuts(cfg, s, S.Recv(re)));
    }
  }

  lemma DispatchPuts(cfg: Config, s: S.Server, re: S.ReceiverEvent)
    requires re.Dispatch? && s.receiver.Got?
    ensures S.DoReceiver(cfg, s, re).bufs == s.bufs.Put(ServerPuts(cfg, s, S.Recv(re)))
  {
    var m := s.receiver.m;
    ST.DispatchCases(cfg, s, re.budget);
    PutNothing(s.bufs);
    if !ST.Unacceptable(m) && m.frame.typ == DATA { ST.DataEffects(ST.Noted(s), m); }
    else if !ST.Unacceptable(m) && m.frame.typ == REQUEST { RequestPuts(cfg, ST.Noted(s), m, re.budget); }
  }

  lemma PutNothing(bufs: S.Buffers)
    ensures bufs.Put({}) == bufs
  {
  }

  lemma RequestPuts(cfg: Config, s: S.Server, m: Msg, budget: nat)
    ensures S.DispatchRequest(cfg, s, m, budget).bufs == (if m.frame.sid > s.lastId then s.bufs.Put({m.tok}) else s.bufs)
  {
  }

  // ---------------------------------------------------------------- the invariant

  /** A read has a buffer exactly if its message has data, of the length of that data. */
  ghost predicate Recorded(p: Pool, client: bool, read: seq<Frame>) {
    && (forall n: nat :: Tok(client, n) in p.bufferOf <==> n < |read| && read[n].payload != [])
    && (forall n: nat | Tok(client, n) in p.bufferOf && Tok(client, n) in p.lengths && n < |read| ::
          p.lengths[Tok(client, n)] == |read[n].payload|)
  }

  ghost predicate PoolOk(y: Sys, p: Pool) {
    Owned(p, Puts(y)) && Recorded(p, true, ClientRead(y.c)) && Recorded(p, false, ServerRead(y.s))
  }

  ghost predicate Inv(cfg: Config, j: Joint) {
    SysInv(cfg, j.y) && (CT.Small(j.y.c) ==> PoolOk(j.y, j.p))
  }

  lemma RecordedMore(p: Pool, client: bool, read: seq<Frame>, f: Frame, offered: Option<nat>)
    requires Recorded(p, client, read)
    ensures Recorded(Get(p, Tok(client, |read|), |f.payload|, offered), client, read + [f])
  {
    GetRecords(p, Tok(client, |read|), |f.payload|, offered);
  }

  lemma RecordedOther(p: Pool, client: bool, read: seq<Frame>, t: Token, n: nat, offered: Option<nat>)
    requires Recorded(p, client, read) && t.OfClient? != client
    ensures Recorded(Get(p, t, n, offered), client, read)
  {
  }

  lemma PutForOwned(p: Pool, ts: set<Token>, puts: set<Token>)
    requires Owned(p, puts) && ts !! puts && forall t, u | t in ts && u in ts :: t == u
    ensures Owned(PutFor(p, ts), puts + ts)
    ensures PutFor(p, ts).bufferOf == p.bufferOf && PutFor(p, ts).lengths == p.lengths
  {
    if ts == {} {
      assert puts + ts == puts;
    } else {
      var t :| t in ts && PutFor(p, ts) == Put(p, t);
      assert ts == {t};
      PutOwned(p, t, puts);
    }
  }

  lemma RecordedSame(p: Pool, q: Pool, client: bool, read: seq<Frame>)
    requires Recorded(p, client, read) && q.bufferOf == p.bufferOf && q.lengths == p.lengths
    ensures Recorded(q, client, read)
  {
  }

  /** A step that reads nothing and puts back at most one buffer that is still out. */
  lemma PoolPuts(y: Sys, y': Sys, p: Pool, ts: set<Token>, lost: nat)
    requires PoolOk(y, p) && ts !! Puts(y) && (forall t, u | t in ts && u in ts :: t == u)
    requires Puts(y') == Puts(y) + ts && ClientRead(y'.c) == ClientRead(y.c) && ServerRead(y'.s) == ServerRead(y.s)
    ensures PoolOk(y', PutFor(Lose(p, lost), ts))
  {
    LoseOwned(p, lost, Puts(y));
    PutForOwned(Lose(p, lost), ts, Puts(y));
    RecordedSame(p, PutFor(Lose(p, lost), ts), true, ClientRead(y.c));
    RecordedSame(p, PutFor(Lose(p, lost), ts), false, ServerRead(y.s));
  }

  lemma PutsGrow(y: Sys, y': Sys, client: bool, put: set<nat>)
    requires if client then y'.c.puts == y.c.puts + put && y'.s == y.s && put !! y.c.puts
             else y'.s.bufs.puts == y.s.bufs.puts + put && y'.c == y.c && put !! y.s.bufs.puts
    requires forall m, n | m in put && n in put :: m == n
    ensures Puts(y') == Puts(y) + Toks(client, put) && Toks(client, put) !! Puts(y)
    ensures forall t, u | t in Toks(client, put) && u in Toks(client, put) :: t == u
  {
    forall t ensures t in Puts(y') <==> t in Puts(y) + Toks(client, put) {
      match t
      case OfClient(n) => assert t == Tok(true, n); TokMember(y, t); TokMember(y', t);
      case OfServer(n) => assert t == Tok(false, n); TokMember(y, t); TokMember(y', t);
    }
  }

  lemma TokMember(y: Sys, t: Token)
    ensures t in Puts(y) <==> if t.OfClient? then t.n in y.c.puts else t.n in y.s.bufs.puts
  {
    if t.OfClient? && t.n in y.c.puts { assert t == Tok(true, t.n); }
    if t.OfServer? && t.n in y.s.bufs.puts { assert t == Tok(false, t.n); }
  }

  lemma PoolClientStep(cfg: Config, y: Sys, p: Pool, ce: C.Event, lost: nat)
    requires CT.Openings(y.c) && Allowed(cfg, ce) && PoolOk(y, p)
    requires CB.Buffers(C.Apply(cfg, y.c, ce)) && CT.Small(C.Apply(cfg, y.c, ce))
    ensures PoolOk(y.(c := C.Apply(cfg, y.c, ce)), PutFor(Lose(p, lost), Toks(true, ClientPuts(cfg, y.c, ce))))
  {
    var y' := y.(c := C.Apply(cfg, y.c, ce));
    ClientPutsStep(cfg, y.c, ce);
    ClientKeepsRead(cfg, y.c, ce);
    PutsGrow(y, y', true, ClientPuts(cfg, y.c, ce));
    PoolPuts(y, y', p, Toks(true, ClientPuts(cfg, y.c, ce)), lost);
  }

  lemma PoolServerStep(cfg: Config, y: Sys, p: Pool, se: S.Event, lost: nat)
    requires PoolOk(y, p) && !(se.Recv? && se.re.ReadFrame?)
    requires SB.BuffersOk(S.Apply(cfg, y.s, se))
    ensures PoolOk(y.(s := S.Apply(cfg, y.s, se)), PutFor(Lose(p, lost), Toks(false, ServerPuts(cfg, y.s, se))))
  {
    var y' := y.(s := S.Apply(cfg, y.s, se));
    ServerPutsStep(cfg, y.s, se);
    ServerKeepsRead(cfg, y.s, se);
    PutsGrow(y, y', false, ServerPuts(cfg, y.s, se));
    PoolPuts(y, y', p, Toks(false, ServerPuts(cfg, y.s, se)), lost);
  }

  function ReadBy(y: Sys, client: bool): seq<Frame> { if client then ClientRead(y.c) else ServerRead(y.s) }

  /** A step that reads one message. */
  lemma PoolReads(y: Sys, y': Sys, p: Pool, client: bool, f: Frame, offered: Option<nat>, lost: nat)
    requires PoolOk(y, p) && Puts(y') == Puts(y)
    requires ReadBy(y', client) == ReadBy(y, client) + [f] && ReadBy(y', !client) == ReadBy(y, !client)
    ensures PoolOk(y', Get(Lose(p, lost), Tok(client, |ReadBy(y, client)|), |f.payload|, offered))
  {
    var (q, t) := (Lose(p, lost), Tok(client, |ReadBy(y, client)|));
    LoseOwned(p, lost, Puts(y));
    assert Recorded(p, client, ReadBy(y, client)) && Recorded(p, !client, ReadBy(y, !client));
    RecordedSame(p, q, client, ReadBy(y, client));
    RecordedSame(p, q, !client, ReadBy(y, !client));
    GetOwned(q, t, |f.payload|, offered, Puts(y));
    RecordedMore(q, client, ReadBy(y, client), f, offered);
    RecordedOther(q, !client, ReadBy(y, !client), t, |f.payload|, offered);
    PoolOfSides(y', Get(q, t, |f.payload|, offered), client);
  }

  lemma PoolOfSides(y: Sys, p: Pool, client: bool)
    requires Owned(p, Puts(y)) && Recorded(p, client, ReadBy(y, client)) && Recorded(p, !client, ReadBy(y, !client))
    ensures PoolOk(y, p)
  {
  }

  lemma PoolStep(cfg: Config, j: Joint, st: Step)
    requires Linked(cfg, j.y) && PoolOk(j.y, j.p) && Disciplined(cfg, System.Apply(cfg, j.y, st.e))
    ensures PoolOk(Apply(cfg, j, st).y, Apply(cfg, j, st).p)
  {
    match st.e
    case ClientStep(ce) => PoolClient(cfg, j, st, ce);
    case ServerStep(se) => PoolServer(cfg, j, st, se);
    case ClientReads => PoolClientReads(cfg, j, st);
    case ServerReads => PoolServerReads(cfg, j, st);
  }

  lemma PoolClient(cfg: Config, j: Joint, st: Step, ce: C.Event)
    requires st.e == ClientStep(ce) && CT.Openings(j.y.c) && PoolOk(j.y, j.p)
    requires Disciplined(cfg, System.Apply(cfg, j.y, st.e))
    ensures PoolOk(Apply(cfg, j, st).y, Apply(cfg, j, st).p)
  {
    if Allowed(cfg, ce) { PoolClientStep(cfg, j.y, j.p, ce, st.lost); } else { PoolIdle(j.y, j.p, st.lost); }
  }

  lemma PoolServer(cfg: Config, j: Joint, st: Step, se: S.Event)
    requires PoolOk(j.y, j.p) && Disciplined(cfg, System.Apply(cfg, j.y, st.e)) && st.e == ServerStep(se)
    ensures PoolOk(Apply(cfg, j, st).y, Apply(cfg, j, st).p)
  {
    if se.Recv? && se.re.ReadFrame? { PoolIdle(j.y, j.p, st.lost); } else { PoolServerStep(cfg, j.y, j.p, se, st.lost); }
  }

  /** Neither endpoint has put a buffer back twice, or one it still reads from. */
  ghost predicate Disciplined(cfg: Config, y: Sys) {
    CT.Small(y.c) && CB.Buffers(y.c) && SB.BuffersOk(y.s)
  }

  lemma PoolIdle(y: Sys, p: Pool, lost: nat)
    requires PoolOk(y, p)
    ensures PoolOk(y, Lose(p, lost))
  {
    LoseOwned(p, lost, Puts(y));
    RecordedSame(p, Lose(p, lost), true, ClientRead(y.c));
    RecordedSame(p, Lose(p, lost), false, ServerRead(y.s));
  }

  lemma PoolClientReads(cfg: Config, j: Joint, st: Step)
    requires PoolOk(j.y, j.p) && st.e == ClientReads
    ensures PoolOk(Apply(cfg, j, st).y, Apply(cfg, j, st).p)
  {
    var y := j.y;
    var r := Parse(InFlight(y.s.w, y.cPos));
    if y.c.loop.Reading? && r.Whole? {
      var y' := System.Apply(cfg, y, ClientReads);
      assert Frames(y.c.seen) + [] == Frames(y.c.seen) == ClientRead(y.c);
      PoolReads(y, y', j.p, true, r.frame, st.offered, st.lost);
    } else {
      PoolIdle(y, j.p, st.lost);
    }
  }

  lemma PoolServerReads(cfg: Config, j: Joint, st: Step)
    requires PoolOk(j.y, j.p) && st.e == ServerReads
    ensures PoolOk(Apply(cfg, j, st).y, Apply(cfg, j, st).p)
  {
    var y := j.y;
    var r := Parse(InFlight(y.c.w, y.sPos));
    if y.s.receiver.Reading? && r.Whole? {
      var y' := System.Apply(cfg, y, ServerReads);
      assert Frames(y.s.received) + [] == Frames(y.s.received) == ServerRead(y.s);
      PoolReads(y, y', j.p, false, r.frame, st.offered, st.lost);
    } else {
      PoolIdle(y, j.p, st.lost);
    }
  }

  lemma InitOk()
    ensures PoolOk(Init(), Empty())
  {
  }

  /** Streams are never removed. */
  lemma SmallBefore(cfg: Config, y: Sys, e: Event)
    requires Linked(cfg, y) && CT.Small(System.Apply(cfg, y, e).c)
    ensures CT.Small(y.c)
  {
    if e.ClientStep? { CR.EntriesGrow(cfg, y.c, e.ce); }
  }

  lemma {:induction false} JointRun(cfg: Config, es: seq<Step>)
    requires cfg.Lawful()
    ensures Inv(cfg, After(cfg, es))
  {
    if es == [] {
      SysInit(cfg);
      InitOk();
    } else {
      JointRun(cfg, es[..|es| - 1]);
      JointStep(cfg, After(cfg, es[..|es| - 1]), es[|es| - 1]);
    }
  }

  lemma JointStep(cfg: Config, j: Joint, st: Step)
    requires Inv(cfg, j) && cfg.Lawful()
    ensures Inv(cfg, Apply(cfg, j, st))
  {
    SysStep(cfg, j.y, st.e);
    if CT.Small(System.Apply(cfg, j.y, st.e).c) {
      SmallBefore(cfg, j.y, st.e);
      PoolStep(cfg, j, st);
    }
  }

  // ---------------------------------------------------------------- the promise

  /** The client still has the message of its n-th read: in the receive loop, in a queue, or in a receive
      call that has not finished with it. */
  ghost predicate ClientHolds(c: C.Client, n: nat) {
    || ((c.loop.Read? || c.loop.Holding?) && c.loop.m.tok == n)
    || (exists k, i :: 0 <= k < |c.entries| && 0 <= i < |c.entries[k].core.queue| && c.entries[k].core.queue[i].tok == n)
    || (exists k :: 0 <= k < |c.entries| && C.HasLast(c.entries[k]) && C.LastTaken(c.entries[k]).tok == n)
  }

  /** The server still has the message of its n-th read: in the receiver's hand, or as a closure that is
      queued or about to be. */
  ghost predicate ServerHolds(s: S.Server, n: nat) {
    || (s.receiver.Got? && s.receiver.m.tok == n)
    || (exists h, i :: 0 <= h < |s.tasks| && |s.tasks[h].got| <= i < |SB.Flow(s.tasks[h], SIo.InHand(s, h))|
                       && SB.Flow(s.tasks[h], SIo.InHand(s, h))[i].tok == Some(n))
  }

  ghost predicate Holds(y: Sys, t: Token) {
    match t
    case OfClient(n) => ClientHolds(y.c, n)
    case OfServer(n) => ServerHolds(y.s, n)
  }

  lemma ClientHeldIsOut(c: C.Client, n: nat)
    requires CB.Buffers(c) && CT.Small(c) && (c.loop.Read? ==> c.loop.m.tok == |c.seen|) && ClientHolds(c, n)
    ensures n !in c.puts
  {
    if k, i :| 0 <= k < |c.entries| && 0 <= i < |c.entries[k].core.queue| && c.entries[k].core.queue[i].tok == n {
      assert CB.HeldBy(c.entries[k], c.puts);
      assert c.entries[k].core.queue[i] in c.entries[k].core.queue;
    }
    if k :| 0 <= k < |c.entries| && C.HasLast(c.entries[k]) && C.LastTaken(c.entries[k]).tok == n {
      assert CB.HeldBy(c.entries[k], c.puts);
    }
  }

  lemma ServerHeldIsOut(s: S.Server, n: nat)
    requires SB.BuffersOk(s) && (s.receiver.Got? ==> s.receiver.m.tok == |s.received|) && ServerHolds(s, n)
    ensures n !in s.bufs.puts
  {
    if h, i :| 0 <= h < |s.tasks| && |s.tasks[h].got| <= i < |SB.Flow(s.tasks[h], SIo.InHand(s, h))|
               && SB.Flow(s.tasks[h], SIo.InHand(s, h))[i].tok == Some(n) {
      assert SB.FlowOk(s.tasks[h], SIo.InHand(s, h), s.received, s.bufs.puts);
    }
  }

  lemma HeldIsOut(cfg: Config, y: Sys, t: Token)
    requires Linked(cfg, y) && CT.Small(y.c) && Holds(y, t)
    ensures t !in Puts(y)
  {
    TokMember(y, t);
    match t
    case OfClient(n) => ClientHeldIsOut(y.c, n);
    case OfServer(n) => ServerHeldIsOut(y.s, n);
  }

  /** Over any run of both endpoints, whatever buffers the pool offers: no buffer is put back twice, and
      the buffer of a message that is still held anywhere is not in the pool, is not the buffer of any
      other message still held, and has room for the message's data. */
  lemma {:induction false} BuffersOwned(cfg: Config, es: seq<Step>)
    requires cfg.Lawful() && CT.Small(After(cfg, es).y.c)
    ensures var Joint(y, p) := After(cfg, es);
            && !y.c.doublePut && !y.s.bufs.doublePut
            && (forall t | t in p.bufferOf && Holds(y, t) ::
                  p.bufferOf[t] !in p.free && t in p.lengths && p.bufferOf[t] < |p.caps| && p.lengths[t] <= p.caps[p.bufferOf[t]])
            && (forall t, u | t in p.bufferOf && u in p.bufferOf && t != u && Holds(y, t) && Holds(y, u) ::
                  p.bufferOf[t] != p.bufferOf[u])
  {
    JointRun(cfg, es);
    var Joint(y, p) := After(cfg, es);
    forall t | t in p.bufferOf && Holds(y, t) ensures Out(p, t, Puts(y)) {
      HeldIsOut(cfg, y, t);
    }
  }

  /** Every read of a message with data was given a buffer for exactly that data. */
  lemma {:induction false} EveryReadHasBuffer(cfg: Config, es: seq<Step>, client: bool, n: nat)
    requires cfg.Lawful() && CT.Small(After(cfg, es).y.c) && n < |ReadBy(After(cfg, es).y, client)|
    ensures var Joint(y, p) := After(cfg, es);
            var f := ReadBy(y, client)[n];
            && (Tok(client, n) in p.bufferOf <==> f.payload != [])
            && (f.payload != [] ==> Tok(client, n) in p.lengths && p.lengths[Tok(client, n)] == |f.payload|)
  {
    JointRun(cfg, es);
    var Joint(y, p) := After(cfg, es);
    assert Recorded(p, client, ReadBy(y, client));
  }

  // ---------------------------------------------------------------- what goes back

  lemma OnePut(cfg: Config, y: Sys, e: Event, t: Token)
    requires t in PutsOf(cfg, y, e)
    ensures PutsOf(cfg, y, e) == {t} && Reads(y, e).None?
  {
    forall u | u in PutsOf(cfg, y, e) ensures u == t {}
  }

  /** A buffer put back is in the pool right after the step. */
  lemma {:induction false} PutReachesPool(cfg: Config, es: seq<Step>, st: Step, t: Token)
    requires t in PutsOf(cfg, After(cfg, es).y, st.e) && t in After(cfg, es).p.bufferOf
    ensures var (p, j') := (After(cfg, es).p, After(cfg, es + [st]));
            p.bufferOf[t] in j'.p.free && j'.p.bufferOf == p.bufferOf && j'.p.caps == p.caps
  {
    assert (es + [st])[..|es|] == es;
    OnePut(cfg, After(cfg, es).y, st.e, t);
    PutOfOne(Lose(After(cfg, es).p, st.lost), t);
  }

  lemma PutOfOne(p: Pool, t: Token)
    ensures PutFor(p, {t}) == Put(p, t)
  {
  }
}
