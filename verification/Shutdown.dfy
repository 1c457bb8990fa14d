/** server.go's Server: its connection set and listeners under Serve, newConn, the connections' own exits,
    Close and any number of Shutdown calls, interleaved at the granularity of its mutex. */
module Shutdown {

  datatype ConnState = Active | Idle

  /** A connection: created by newConn, then taken into the set or refused; its run may exit. */
  datatype Phase = New | Running | Refused | Exited

  /** `signalled` once its shutdown channel has been closed. */
  datatype Conn = Conn(state: ConnState, signalled: bool, phase: Phase)

  /** A Shutdown call; `byContext` when it gave up with ctx.Err(). */
  datatype Closer = Starting | Sweeping | Counting | Waiting | Returned(byContext: bool)

  /** A Serve call, each with a listener of its own. */
  datatype Serving = Entering | Accepting | Leaving | Left

  datatype Server = Server(
    done: bool,
    conns: seq<Conn>,             // every connection ever accepted
    connections: set<nat>,
    closers: seq<Closer>,
    serves: seq<Serving>,
    listeners: set<nat>)

  datatype Event =
    | CallServe
    | Enter(i: nat)
    | Accept(i: nat)
    | Leave(i: nat)
    | AddConnection(c: nat)
    | SetState(c: nat, state: ConnState)
    | RunExits(c: nat)
    | CallShutdown
    | ShutdownStep(i: nat)
    | GiveUp(i: nat)
    | Close

  function Init(): Server { Server(false, [], {}, [], [], {}) }

  /** Serve's first critical section adds the listener before it looks whether the server is closed. */
  function DoEnter(s: Server, i: nat): Server {
    if i >= |s.serves| || !s.serves[i].Entering? then s
    else s.(listeners := s.listeners + {i}, serves := s.serves[i := if s.done then Leaving else Accepting])
  }

  function DoAccept(s: Server, i: nat): Server {
    if i >= |s.serves| || !s.serves[i].Accepting? then s
    else s.(conns := s.conns + [Conn(Idle, false, New)])
  }

  /** The deferred closeListener. */
  function DoLeave(s: Server, i: nat): Server {
    if i >= |s.serves| || !(s.serves[i].Accepting? || s.serves[i].Leaving?) then s
    else s.(listeners := s.listeners - {i}, serves := s.serves[i := Left])
  }

  function Signalled(c: Conn): Conn { c.(signalled := true) }

  function DoAddConnection(s: Server, c: nat): Server {
    if c >= |s.conns| || !s.conns[c].phase.New? then s
    else if s.done then s.(conns := s.conns[c := Conn(s.conns[c].state, true, Refused)])
    else s.(connections := s.connections + {c}, conns := s.conns[c := s.conns[c].(phase := Running)])
  }

  function DoSetState(s: Server, c: nat, state: ConnState): Server {
    if c >= |s.conns| || !s.conns[c].phase.Running? then s
    else s.(conns := s.conns[c := s.conns[c].(state := state)])
  }

  function DoRunExits(s: Server, c: nat): Server {
    if c >= |s.conns| || !s.conns[c].phase.Running? then s
    else s.(conns := s.conns[c := s.conns[c].(phase := Exited)], connections := s.connections - {c})
  }

  /** Closes the connections of a set and leaves the others alone. */
  function SignalAll(conns: seq<Conn>, which: set<nat>): seq<Conn> {
    seq(|conns|, c requires 0 <= c < |conns| => if c in which then Signalled(conns[c]) else conns[c])
  }

  /** The connections that closeIdleConns closes. */
  function IdleOnes(s: Server): set<nat> {
    set c | c in s.connections && c < |s.conns| && s.conns[c].state.Idle?
  }

  function DoSweep(s: Server): Server {
    s.(conns := SignalAll(s.conns, IdleOnes(s)), connections := s.connections - IdleOnes(s))
  }

  function DoClose(s: Server): Server {
    s.(done := true, listeners := {}, conns := SignalAll(s.conns, s.connections), connections := {})
  }

  function DoShutdownStep(s: Server, i: nat): Server {
    if i >= |s.closers| then s
    else
      match s.closers[i]
      case Starting => s.(done := true, listeners := {}, closers := s.closers[i := Sweeping])
      case Sweeping => DoSweep(s).(closers := s.closers[i := Counting])
      case Counting => s.(closers := s.closers[i := if s.connections == {} then Returned(false) else Waiting])
      case Waiting => s.(closers := s.closers[i := Sweeping])
      case Returned(_) => s
  }

  function DoGiveUp(s: Server, i: nat): Server {
    if i >= |s.closers| || !s.closers[i].Waiting? then s
    else s.(closers := s.closers[i := Returned(true)])
  }

  function Apply(s: Server, e: Event): Server {
    match e
    case CallServe => s.(serves := s.serves + [Entering])
    case Enter(i) => DoEnter(s, i)
    case Accept(i) => DoAccept(s, i)
    case Leave(i) => DoLeave(s, i)
    case AddConnection(c) => DoAddConnection(s, c)
    case SetState(c, state) => DoSetState(s, c, state)
    case RunExits(c) => DoRunExits(s, c)
    case CallShutdown => s.(closers := s.closers + [Starting])
    case ShutdownStep(i) => DoShutdownStep(s, i)
    case GiveUp(i) => DoGiveUp(s, i)
    case Close => DoClose(s)
  }

  function After(es: seq<Event>): Server {
    if es == [] then Init() else Apply(After(es[..|es| - 1]), es[|es| - 1])
  }

  // ---------------------------------------------------------------- the invariant

  /** Every accepted connection is still to be added, in the set, told to shut down, or gone. */
  predicate Remembered(conn: Conn, member: bool) {
    match conn.phase
    case New => !member
    case Running => member || conn.signalled
    case Refused => !member && conn.signalled
    case Exited => !member
  }

  ghost predicate Inv(s: Server) {
    && (forall c | c in s.connections :: c < |s.conns|)
    && (forall c | 0 <= c < |s.conns| :: Remembered(s.conns[c], c in s.connections))
    && (forall i | 0 <= i < |s.closers| && !s.closers[i].Starting? :: s.done)
    && (forall i | 0 <= i < |s.closers| && s.closers[i] == Returned(false) :: s.connections == {})
    && (forall l | l in s.listeners :: l < |s.serves|)
    && (s.done ==> forall l | l in s.listeners :: s.serves[l].Leaving?)
    && (forall l | 0 <= l < |s.serves| && s.serves[l].Entering? :: l !in s.listeners)
  }

  lemma ConnSteps(s: Server, c: nat, state: ConnState)
    requires Inv(s)
    ensures Inv(DoAddConnection(s, c)) && Inv(DoSetState(s, c, state)) && Inv(DoRunExits(s, c))
  {
  }

  lemma ServeSteps(s: Server, i: nat)
    requires Inv(s)
    ensures Inv(DoEnter(s, i)) && Inv(DoAccept(s, i)) && Inv(DoLeave(s, i))
  {
  }

  /** Signalling connections that are taken out of the set. */
  lemma Dropped(s: Server, which: set<nat>)
    requires Inv(s) && which <= s.connections
    ensures Inv(s.(conns := SignalAll(s.conns, which), connections := s.connections - which))
  {
    var s' := s.(conns := SignalAll(s.conns, which), connections := s.connections - which);
    forall c | 0 <= c < |s'.conns| ensures Remembered(s'.conns[c], c in s'.connections) {
      assert Remembered(s.conns[c], c in s.connections);
    }
  }

  lemma ShutdownSteps(s: Server, i: nat)
    requires Inv(s)
    ensures Inv(DoShutdownStep(s, i)) && Inv(DoGiveUp(s, i))
  {
    Dropped(s, IdleOnes(s));
  }

  lemma CloseStep(s: Server)
    requires Inv(s)
    ensures Inv(DoClose(s))
  {
    Dropped(s, s.connections);
    assert s.connections - s.connections == {};
  }

  lemma StepInv(s: Server, e: Event)
    requires Inv(s)
    ensures Inv(Apply(s, e))
  {
    match e
    case CallServe =>
    case Enter(i) => ServeSteps(s, i);
    case Accept(i) => ServeSteps(s, i);
    case Leave(i) => ServeSteps(s, i);
    case AddConnection(c) => ConnSteps(s, c, Idle);
    case SetState(c, state) => ConnSteps(s, c, state);
    case RunExits(c) => ConnSteps(s, c, Idle);
    case CallShutdown =>
    case ShutdownStep(i) => ShutdownSteps(s, i);
    case GiveUp(i) => ShutdownSteps(s, i);
    case Close => CloseStep(s);
  }

  lemma {:induction false} RunInv(es: seq<Event>)
    ensures Inv(After(es))
  {
    if es != [] {
      RunInv(es[..|es| - 1]);
      StepInv(After(es[..|es| - 1]), es[|es| - 1]);
    }
  }

  // ---------------------------------------------------------------- what every run guarantees

  lemma NeverGrowsStep(s: Server, e: Event)
    requires s.done
    ensures Apply(s, e).done && Apply(s, e).connections <= s.connections
  {
  }

  /** Once the server is done the connection set never grows again, whatever else happens. */
  lemma {:induction false} NeverGrows(es: seq<Event>, more: seq<Event>)
    requires After(es).done
    ensures After(es + more).done && After(es + more).connections <= After(es).connections
    decreases |more|
  {
    if more == [] {
      assert es + more == es;
    } else {
      var n := |more| - 1;
      NeverGrows(es, more[..n]);
      assert (es + more)[..|es + more| - 1] == es + more[..n];
      NeverGrowsStep(After(es + more[..n]), more[n]);
    }
  }

  /** When a Shutdown call has returned other than because its context ended, there is no connection in
      the set, and there never will be. */
  lemma {:induction false} ShutdownIsComplete(es: seq<Event>, more: seq<Event>, i: nat)
    requires i < |After(es).closers| && After(es).closers[i] == Returned(false)
    ensures After(es + more).connections == {}
  {
    RunInv(es);
    NeverGrows(es, more);
  }

  /** No connection is ever forgotten: it is in the set, or has been told to shut down, or its run is
      over, or it has not been added yet; and one that was refused is never run. */
  lemma {:induction false} NobodyForgotten(es: seq<Event>, c: nat)
    requires c < |After(es).conns|
    ensures var s := After(es);
            && (c in s.connections || s.conns[c].signalled || s.conns[c].phase.Exited? || s.conns[c].phase.New?)
            && (c in s.connections ==> s.conns[c].phase.Running?)
  {
    RunInv(es);
    assert Remembered(After(es).conns[c], c in After(es).connections);
  }

  /** After the server is done, a listener still in the set belongs to a Serve call about to close it. */
  lemma {:induction false} ListenersAreLeaving(es: seq<Event>, l: nat)
    requires After(es).done && l in After(es).listeners
    ensures l < |After(es).serves| && After(es).serves[l].Leaving?
    ensures l !in Apply(After(es), Leave(l)).listeners
  {
    RunInv(es);
  }

  /** What takes a connection that has published itself active out of the set. */
  predicate Disturbs(e: Event, c: nat) { e.Close? || e == RunExits(c) || e == SetState(c, Idle) }

  lemma ActiveStep(s: Server, e: Event, c: nat)
    requires Inv(s) && c in s.connections && s.conns[c].state.Active? && !Disturbs(e, c)
    ensures c in Apply(s, e).connections && c < |Apply(s, e).conns| && Apply(s, e).conns[c] == s.conns[c]
  {
    assert Remembered(s.conns[c], true);
  }

  /** However many Shutdown calls sweep the set, a connection that has published itself active stays in it
      and is not told to shut down, until it publishes itself idle, its run is over, or the server is closed. */
  lemma {:induction false} ActiveSpared(es: seq<Event>, more: seq<Event>, c: nat)
    requires c in After(es).connections && c < |After(es).conns| && After(es).conns[c].state.Active?
    requires forall e | e in more :: !Disturbs(e, c)
    ensures c in After(es + more).connections && c < |After(es + more).conns|
    ensures After(es + more).conns[c] == After(es).conns[c]
    decreases |more|
  {
    if more == [] {
      assert es + more == es;
    } else {
      var n := |more| - 1;
      ActiveSpared(es, more[..n], c);
      assert (es + more)[..|es + more| - 1] == es + more[..n];
      RunInv(es + more[..n]);
      ActiveStep(After(es + more[..n]), more[n], c);
    }
  }

  lemma CloserStep(s: Server, e: Event, i: nat)
    requires i < |s.closers| && s.closers[i] in {Counting, Returned(false)} && s.connections == {} && s.done
    ensures var s' := Apply(s, e);
            i < |s'.closers| && s'.closers[i] == if e == ShutdownStep(i) then Returned(false) else s.closers[i]
  {
  }

  /** A sweep that finds no connection active is the last of its Shutdown call: from then on the set is empty,
      and the call's next step, whenever it comes, returns. */
  lemma {:induction false} SweepSuffices(es: seq<Event>, more: seq<Event>, i: nat)
    requires i < |After(es).closers| && After(es).closers[i].Sweeping?
    requires forall c | c in After(es).connections && c < |After(es).conns| :: After(es).conns[c].state.Idle?
    ensures var s := After(es + [ShutdownStep(i)] + more);
            && s.connections == {} && i < |s.closers|
            && s.closers[i] == if ShutdownStep(i) in more then Returned(false) else Counting
    decreases |more|
  {
    var swept := es + [ShutdownStep(i)];
    if more == [] {
      assert swept + more == swept && swept[..|es|] == es;
      RunInv(es);
      assert After(es).connections - IdleOnes(After(es)) == {};
    } else {
      var n := |more| - 1;
      SweepSuffices(es, more[..n], i);
      assert (swept + more)[..|swept + more| - 1] == swept + more[..n];
      assert more == more[..n] + [more[n]];
      RunInv(swept + more[..n]);
      NeverGrowsStep(After(swept + more[..n]), more[n]);
      CloserStep(After(swept + more[..n]), more[n], i);
    }
  }

  lemma {:induction false} AfterSnoc(es: seq<Event>, e: Event)
    ensures After(es + [e]) == Apply(After(es), e)
  {
    assert (es + [e])[..|es|] == es;
  }

  /** What each step of a Shutdown call does: it closes the server, sweeps, counts, waits if any connection is left
      and sweeps again, and returns if none is. */
  lemma {:induction false} ShutdownTurns(es: seq<Event>, i: nat)
    requires i < |After(es).closers|
    ensures var (s, s') := (After(es), After(es + [ShutdownStep(i)]));
            && i < |s'.closers|
            && (s.closers[i].Starting? ==> s'.closers[i].Sweeping? && s'.done && s'.listeners == {})
            && (s.closers[i].Sweeping? ==> s'.closers[i].Counting?)
            && (s.closers[i].Counting? ==> s'.closers[i] == if s.connections == {} then Returned(false) else Waiting)
            && (s.closers[i].Waiting? ==> s'.closers[i].Sweeping? && After(es + [GiveUp(i)]).closers[i] == Returned(true))
            && (s.closers[i].Returned? ==> s' == s)
  {
    AfterSnoc(es, ShutdownStep(i));
    AfterSnoc(es, GiveUp(i));
  }

  /** A Shutdown call gives up only because its context has ended. */
  lemma {:induction false} GivesUpByContext(es: seq<Event>, i: nat)
    requires i < |After(es).closers| && After(es).closers[i] == Returned(true)
    ensures GiveUp(i) in es
  {
    var before := es[..|es| - 1];
    assert es == before + [es[|es| - 1]];
    if i < |After(before).closers| && After(before).closers[i] == Returned(true) { GivesUpByContext(before, i); }
  }

  /** With no connection active, four steps of its own are enough for any Shutdown call that has not returned. */
  lemma {:induction false} ShutdownReturns(es: seq<Event>, i: nat)
    requires i < |After(es).closers| && !After(es).closers[i].Returned?
    requires forall c | c in After(es).connections && c < |After(es).conns| :: After(es).conns[c].state.Idle?
    ensures var step := [ShutdownStep(i)];
            var s := After(es + step + step + step + step);
            i < |s.closers| && s.closers[i] == Returned(false) && s.connections == {}
  {
    RunInv(es);
    var (s, e) := (After(es), ShutdownStep(i));
    var s1 := Apply(s, e);
    var s2 := Apply(s1, e);
    var s3 := Apply(s2, e);
    AfterSnoc(es, e);
    AfterSnoc(es + [e], e);
    AfterSnoc(es + [e] + [e], e);
    AfterSnoc(es + [e] + [e] + [e], e);
    IdleStays(s, i);
    IdleStays(s1, i);
    IdleStays(s2, i);
    IdleStays(s3, i);
  }

  /** A connection set that the next sweep empties. */
  ghost predicate Sweepable(s: Server) {
    forall c | c in s.connections :: c < |s.conns| && s.conns[c].state.Idle?
  }

  lemma IdleStays(s: Server, i: nat)
    requires i < |s.closers| && Sweepable(s) && (s.closers[i].Returned? ==> s.connections == {})
    ensures var s' := Apply(s, ShutdownStep(i));
            && |s'.closers| == |s.closers| && Sweepable(s')
            && (s.closers[i].Starting? ==> s'.closers[i].Sweeping?)
            && (s.closers[i].Sweeping? ==> s'.closers[i].Counting? && s'.connections == {})
            && (s.closers[i].Counting? && s.connections == {} ==> s'.closers[i] == Returned(false) && s'.connections == {})
            && (s.closers[i].Counting? && s.connections != {} ==> s'.closers[i].Waiting?)
            && (s.closers[i].Waiting? ==> s'.closers[i].Sweeping?)
            && (s.closers[i].Returned? ==> s' == s)
  {
    if s.closers[i].Sweeping? { assert s.connections - IdleOnes(s) == {}; }
  }

  // ---------------------------------------------------------------- connections come and go

  /** What a connection has last published of itself while its run goes on. */
  function Published(es: seq<Event>, c: nat): ConnState {
    if es == [] then Idle
    else
      var (before, e) := (es[..|es| - 1], es[|es| - 1]);
      if e.SetState? && e.c == c && c < |After(before).conns| && After(before).conns[c].phase.Running? then e.state
      else Published(before, c)
  }

  lemma {:induction false} StateIsPublished(es: seq<Event>, c: nat)
    ensures if c < |After(es).conns| then After(es).conns[c].state == Published(es, c) else Published(es, c) == Idle
  {
    if es != [] {
      StateIsPublished(es[..|es| - 1], c);
      PublishedStep(After(es[..|es| - 1]), es[|es| - 1], c);
    }
  }

  lemma PublishedStep(s: Server, e: Event, c: nat)
    ensures var s' := Apply(s, e);
            && |s.conns| <= |s'.conns| && (c >= |s.conns| && c < |s'.conns| ==> s'.conns[c].state == Idle)
            && (c < |s.conns| ==>
                  s'.conns[c].state == if e.SetState? && e.c == c && s.conns[c].phase.Running? then e.state else s.conns[c].state)
  {
  }

  /** A server that has not been closed serves: a Serve call listens, and a connection it accepts runs and is in
      the set. */
  lemma {:induction false} Serves(es: seq<Event>)
    requires !After(es).done
    ensures var (i, c) := (|After(es).serves|, |After(es).conns|);
            var s := After(es + [CallServe] + [Enter(i)] + [Accept(i)] + [AddConnection(c)]);
            && i in s.listeners && |s.conns| == c + 1 && s.conns[c] == Conn(Idle, false, Running) && c in s.connections
  {
    var (i, c) := (|After(es).serves|, |After(es).conns|);
    AfterSnoc(es, CallServe);
    AfterSnoc(es + [CallServe], Enter(i));
    AfterSnoc(es + [CallServe] + [Enter(i)], Accept(i));
    AfterSnoc(es + [CallServe] + [Enter(i)] + [Accept(i)], AddConnection(c));
  }

  /** A Serve call that leaves closes its listener, and a run that ends takes its connection out. */
  lemma {:induction false} Leaves(es: seq<Event>, i: nat, c: nat)
    ensures i < |After(es).serves| && After(es).serves[i] in {Accepting, Leaving} ==>
              i !in After(es + [Leave(i)]).listeners && After(es + [Leave(i)]).serves[i] == Left
    ensures c < |After(es).conns| && After(es).conns[c].phase.Running? ==>
              c !in After(es + [RunExits(c)]).connections && After(es + [RunExits(c)]).conns[c].phase.Exited?
  {
    AfterSnoc(es, Leave(i));
    AfterSnoc(es, RunExits(c));
  }
}
