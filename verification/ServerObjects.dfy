/** server.go's Server and serverConn as the objects they are: the critical sections of the server's mutex,
    and the steps of the Shutdown machine that they are. */
module ServerObjects {
  import opened Types
  import opened Shutdown

  class ServerConn {
    var state: Option<ConnState>  // an atomic.Value: nothing until the first store
    var signalled: bool

    /** newConn, before the connection is added. */
    constructor ()
      ensures state == Some(Idle) && !signalled
    {
      state := Some(Idle);
      signalled := false;
    }

    predicate MayBeSwept()
      reads this
    {
      state == Some(Idle)
    }

    /** close: the shutdown channel is closed once. */
    method Signal()
      modifies `signalled
      ensures signalled
    {
      if !signalled { signalled := true; }
    }
  }

  class Listener {
    const closeError: Option<nat>
    var closed: bool

    constructor (closeError: Option<nat>)
      ensures !closed && this.closeError == closeError
    {
      this.closeError := closeError;
      closed := false;
    }
  }

  class ServerTable {
    var done: bool
    var connections: set<ServerConn>
    var listeners: set<Listener>

    constructor ()
      ensures !done && connections == {} && listeners == {}
    {
      done, connections, listeners := false, {}, {};
    }

    /** The connection set grows by exactly the connection, unless the server is done. */
    method AddConnection(c: ServerConn) returns (ok: bool)
      modifies `connections
      ensures ok <==> !done
      ensures connections == if done then old(connections) else old(connections) + {c}
    {
      if done { return false; }
      connections := connections + {c};
      return true;
    }

    /** newConn: a connection is either in the set and still open, or refused and told to shut down. */
    method NewConn() returns (c: ServerConn, ok: bool)
      modifies `connections
      ensures fresh(c) && c.state == Some(Idle)
      ensures ok <==> !done
      ensures connections == if ok then old(connections) + {c} else old(connections)
      ensures c.signalled <==> !ok
    {
      c := new ServerConn();
      ok := AddConnection(c);
      if !ok { c.Signal(); }
    }

    /** delConnection, which a connection's run defers. */
    method DelConnection(c: ServerConn)
      modifies `connections
      ensures connections == old(connections) - {c}
    {
      connections := connections - {c};
    }

    /** Every idle connection is signalled and taken out; no other is touched. The set is changed while it
        is being iterated over. */
    method CloseIdleConns()
      modifies `connections, connections`signalled
      ensures connections == set c | c in old(connections) && !c.MayBeSwept()
      ensures forall c | c in old(connections) :: c.signalled == (old(c.signalled) || c.MayBeSwept())
    {
      var rest := connections;
      while rest != {}
        invariant rest <= old(connections)
        invariant connections == set c | c in old(connections) && (c in rest || !c.MayBeSwept())
        invariant forall c | c in old(connections) ::
                    c.signalled == (old(c.signalled) || (c !in rest && c.MayBeSwept()))
        decreases |rest|
      {
        var c :| c in rest;
        rest := rest - {c};
        if c.state.Some? && !c.state.value.Active? {
          c.Signal();
          connections := connections - {c};
        }
      }
    }

    /** Every listener is closed and forgotten; the error is one of theirs, if any of them failed. */
    method CloseListeners() returns (err: Option<nat>)
      modifies `listeners, listeners
      ensures listeners == {} && forall l | l in old(listeners) :: l.closed
      ensures err.None? <==> forall l | l in old(listeners) :: l.closeError.None?
      ensures err.Some? ==> exists l :: l in old(listeners) && l.closeError == err
    {
      err := None;
      var rest := listeners;
      while rest != {}
        invariant rest <= old(listeners) && listeners == rest
        invariant forall l | l in old(listeners) && l !in rest :: l.closed
        invariant err.None? <==> forall l | l in old(listeners) && l !in rest :: l.closeError.None?
        invariant err.Some? ==> exists l :: l in old(listeners) && l.closeError == err
        decreases |rest|
      {
        var l :| l in rest;
        rest := rest - {l};
        l.closed := true;
        listeners := listeners - {l};
        if l.closeError.Some? && err.None? { err := l.closeError; }
      }
    }

    /** What Shutdown does before it waits for the connections. */
    method BeginShutdown() returns (err: Option<nat>)
      modifies this, listeners
      ensures done && listeners == {} && connections == old(connections)
      ensures forall l | l in old(listeners) :: l.closed
      ensures err.None? <==> forall l | l in old(listeners) :: l.closeError.None?
    {
      done := true;
      err := CloseListeners();
    }

    /** Close: done, with no listener and no connection left, each of them told. */
    method Close() returns (err: Option<nat>)
      modifies this, listeners, connections`signalled
      ensures done && listeners == {} && connections == {}
      ensures forall c | c in old(connections) :: c.signalled
      ensures forall l | l in old(listeners) :: l.closed
      ensures err.None? <==> forall l | l in old(listeners) :: l.closeError.None?
    {
      done := true;
      err := CloseListeners();
      var rest := connections;
      while rest != {}
        invariant connections == rest && rest <= old(connections)
        invariant forall c | c in old(connections) && c !in rest :: c.signalled
        invariant listeners == {} && done && forall l | l in old(listeners) :: l.closed
        decreases |rest|
      {
        var c :| c in rest;
        rest := rest - {c};
        c.Signal();
        connections := connections - {c};
      }
    }
  }

  // ---------------------------------------------------------------- the steps of the Shutdown machine

  /** The objects stand for a state of the machine, which calls connections and listeners by number. */
  ghost predicate StandsFor(t: ServerTable, conns: seq<ServerConn>, ls: seq<Listener>, s: Shutdown.Server)
    reads t, conns
  {
    && t.done == s.done && |conns| == |s.conns| && |ls| == |s.serves|
    && (forall c, d | 0 <= c < d < |conns| :: conns[c] != conns[d])
    && (forall c | 0 <= c < |conns| ::
          && conns[c].state == Some(s.conns[c].state) && conns[c].signalled == s.conns[c].signalled
          && (conns[c] in t.connections <==> c in s.connections))
    && (forall c | c in t.connections :: c in conns) && (forall c | c in s.connections :: c < |conns|)
    && (forall l | l in s.listeners :: l < |ls| && ls[l] in t.listeners)
    && (forall l | l in t.listeners :: exists i :: i in s.listeners && i < |ls| && ls[i] == l)
  }

  /** newConn: Accept, then addConnection. */
  method NewConnIsStep(t: ServerTable, ghost conns: seq<ServerConn>, ghost ls: seq<Listener>, ghost s: Shutdown.Server, ghost i: nat)
    returns (c: ServerConn, ok: bool)
    requires StandsFor(t, conns, ls, s) && i < |s.serves| && s.serves[i].Accepting?
    modifies t`connections
    ensures StandsFor(t, conns + [c], ls, Apply(Apply(s, Accept(i)), AddConnection(|s.conns|)))
    ensures ok <==> !s.done
  {
    c, ok := t.NewConn();
  }

  /** delConnection at the end of a connection's run. */
  method DelConnectionIsStep(t: ServerTable, c: ServerConn, ghost conns: seq<ServerConn>, ghost ls: seq<Listener>, ghost s: Shutdown.Server,
                             ghost k: nat)
    requires StandsFor(t, conns, ls, s) && k < |conns| && conns[k] == c && s.conns[k].phase.Running?
    modifies t`connections
    ensures StandsFor(t, conns, ls, Apply(s, RunExits(k)))
  {
    t.DelConnection(c);
  }

  /** closeIdleConns, the sweep of a Shutdown call. */
  method SweepIsStep(t: ServerTable, ghost conns: seq<ServerConn>, ghost ls: seq<Listener>, ghost s: Shutdown.Server, ghost i: nat)
    requires StandsFor(t, conns, ls, s) && i < |s.closers| && s.closers[i].Sweeping?
    modifies t`connections, t.connections`signalled
    ensures StandsFor(t, conns, ls, Apply(s, ShutdownStep(i)))
  {
    t.CloseIdleConns();
  }

  /** The first critical section of Shutdown. */
  method BeginIsStep(t: ServerTable, ghost conns: seq<ServerConn>, ghost ls: seq<Listener>, ghost s: Shutdown.Server, ghost i: nat)
    returns (err: Option<nat>)
    requires StandsFor(t, conns, ls, s) && i < |s.closers| && s.closers[i].Starting?
    modifies t, t.listeners
    ensures StandsFor(t, conns, ls, Apply(s, ShutdownStep(i)))
  {
    err := t.BeginShutdown();
  }

  method CloseIsStep(t: ServerTable, ghost conns: seq<ServerConn>, ghost ls: seq<Listener>, ghost s: Shutdown.Server)
    returns (err: Option<nat>)
    requires StandsFor(t, conns, ls, s)
    modifies t, t.listeners, t.connections`signalled
    ensures StandsFor(t, conns, ls, Apply(s, Close))
  {
    err := t.Close();
  }
}
