/** A run of the joint system is a run of each endpoint, with the reads the wire allows. */
module SystemHistory {
  import opened Types
  import opened Framing
  import opened StreamQueue
  import opened System
  import C = ClientEngine
  import S = ServerEngine
  import CH = ClientHistory
  import SH = ServerHistory

  function ClientEvent(cfg: Config, y: Sys, e: Event): seq<C.Event> {
    match e
    case ClientStep(ce) => if Allowed(cfg, ce) then [ce] else []
    case ClientReads =>
      var r := Parse(InFlight(y.s.w, y.cPos));
      if y.c.loop.Reading? && r.Whole? then [C.Receive(C.ReadFrame(r.frame))] else []
    case _ => []
  }

  function ServerEvent(y: Sys, e: Event): seq<S.Event> {
    match e
    case ServerStep(se) => if se.Recv? && se.re.ReadFrame? then [] else [se]
    case ServerReads =>
      var r := Parse(InFlight(y.c.w, y.sPos));
      if y.s.receiver.Reading? && r.Whole? then [S.Recv(S.ReadFrame(r.frame))] else []
    case _ => []
  }

  function ClientRun(cfg: Config, es: seq<Event>): seq<C.Event> {
    if es == [] then [] else ClientRun(cfg, es[..|es| - 1]) + ClientEvent(cfg, After(cfg, es[..|es| - 1]), es[|es| - 1])
  }

  function ServerRun(cfg: Config, es: seq<Event>): seq<S.Event> {
    if es == [] then [] else ServerRun(cfg, es[..|es| - 1]) + ServerEvent(After(cfg, es[..|es| - 1]), es[|es| - 1])
  }

  lemma ClientSide(cfg: Config, y: Sys, e: Event, ces: seq<C.Event>)
    requires y.c == C.After(cfg, ces)
    ensures Apply(cfg, y, e).c == C.After(cfg, ces + ClientEvent(cfg, y, e))
  {
    var now := ClientEvent(cfg, y, e);
    if now == [] { assert ces + now == ces; } else { assert (ces + now)[..|ces|] == ces; }
  }

  lemma ServerSide(cfg: Config, y: Sys, e: Event, ses: seq<S.Event>)
    requires y.s == S.After(cfg, ses)
    ensures Apply(cfg, y, e).s == S.After(cfg, ses + ServerEvent(y, e))
  {
    var now := ServerEvent(y, e);
    if now == [] { assert ses + now == ses; } else { assert (ses + now)[..|ses|] == ses; }
  }

  lemma {:induction false} Sides(cfg: Config, es: seq<Event>)
    ensures After(cfg, es).c == C.After(cfg, ClientRun(cfg, es)) && After(cfg, es).s == S.After(cfg, ServerRun(cfg, es))
  {
    if es != [] {
      var before := es[..|es| - 1];
      Sides(cfg, before);
      ClientSide(cfg, After(cfg, before), es[|es| - 1], ClientRun(cfg, before));
      ServerSide(cfg, After(cfg, before), es[|es| - 1], ServerRun(cfg, before));
    }
  }

  /** What the callers asked of the k-th stream. */
  function Streams(cfg: Config, es: seq<Event>): seq<CH.Asked> { CH.HistoryOf(cfg, ClientRun(cfg, es)).streams }

  /** The objects the callers sent on stream k. */
  function Sent(cfg: Config, es: seq<Event>, k: nat): seq<bytes> { CH.Sent(cfg, ClientRun(cfg, es), k) }

  /** What a method has said. */
  function Said(cfg: Config, es: seq<Event>, h: nat): seq<S.Out> { SH.Said(cfg, ServerRun(cfg, es), h) }

  lemma {:induction false} AsAsked(cfg: Config, es: seq<Event>, k: nat)
    requires k < |After(cfg, es).c.entries|
    ensures k < |Streams(cfg, es)|
    ensures var (e, s) := (After(cfg, es).c.entries[k], Streams(cfg, es)[k]); e.kind == s.kind && e.req == s.req
  {
    Sides(cfg, es);
    CH.WireIsAsked(cfg, ClientRun(cfg, es));
    assert CH.AsAsked(After(cfg, es).c.entries[k], Streams(cfg, es)[k]);
  }

  lemma {:induction false} AsSent(cfg: Config, es: seq<Event>, k: nat)
    requires k < |After(cfg, es).c.entries| <= 0x8000_0000
    ensures CH.Payloads(FramesFor(After(cfg, es).c.w.frames, C.IdOf(k))) == Sent(cfg, es, k)
  {
    Sides(cfg, es);
    CH.PayloadsAreSent(cfg, ClientRun(cfg, es), k);
  }

  lemma {:induction false} AsSaid(cfg: Config, es: seq<Event>, h: nat)
    requires h < |After(cfg, es).s.tasks|
    ensures var t := After(cfg, es).s.tasks[h]; Said(cfg, es, h) == t.handed + SH.Blocked(t.pc)
  {
    Sides(cfg, es);
    SH.HandedIsSaid(cfg, ServerRun(cfg, es), h);
  }
}
