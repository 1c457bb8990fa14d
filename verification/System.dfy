/** Client and server joined by two byte streams. Each side's engine takes the steps it takes on its own;
    what it reads is parsed from the bytes the other side has written and it has not read yet. */
module System {
  import opened Types
  import opened Framing
  import C = ClientEngine
  import S = ServerEngine

  datatype Sys = Sys(
    c: C.Client,
    s: S.Server,
    cPos: nat,                    // bytes of the server's output the client has consumed
    sPos: nat)                    // bytes of the client's output the server has consumed

  datatype Event =
    | ClientStep(ce: C.Event)
    | ServerStep(se: S.Event)
    | ClientReads
    | ServerReads

  function Init(): Sys { Sys(C.Init(), S.Init(), 0, 0) }

  /** The bytes written and not yet consumed. */
  function InFlight(w: Writer, pos: nat): bytes {
    if pos <= |w.Written()| then w.Written()[pos..] else []
  }

  /** Reads come from the wire only, and callers use the descriptor the service is registered with. */
  predicate Allowed(cfg: Config, e: C.Event) {
    && !(e.Receive? && e.le.ReadFrame?)
    && (e.Caller? && e.ce.BeginCreate? ==>
          var kind := cfg.kindOf(e.ce.req.service, e.ce.req.name); kind == None || kind == Some(e.ce.kind))
  }

  function Apply(cfg: Config, y: Sys, e: Event): Sys {
    match e
    case ClientStep(ce) => if Allowed(cfg, ce) then y.(c := C.Apply(cfg, y.c, ce)) else y
    case ServerStep(se) => if se.Recv? && se.re.ReadFrame? then y else y.(s := S.Apply(cfg, y.s, se))
    case ClientReads =>
      var r := Parse(InFlight(y.s.w, y.cPos));
      if y.c.loop.Reading? && r.Whole? then y.(c := C.DoRead(y.c, r.frame), cPos := y.cPos + r.used) else y
    case ServerReads =>
      var r := Parse(InFlight(y.c.w, y.sPos));
      if y.s.receiver.Reading? && r.Whole? then y.(s := S.DoRead(y.s, r.frame), sPos := y.sPos + r.used) else y
  }

  function After(cfg: Config, es: seq<Event>): Sys {
    if es == [] then Init() else Apply(cfg, After(cfg, es[..|es| - 1]), es[|es| - 1])
  }
}
