/** Exactly which streams are in the client's map: a stream stays there until a call deletes it. One whose request
    could not be sent is never deleted. */
module ClientMap {
  import opened Types
  import opened Framing
  import opened ClientEngine
  import opened ClientTable
  import opened ClientRuns

  /** The call that ends the stream has taken it out of the map. */
  predicate Deleted(e: Entry) { e.pc.Closing? || e.remoteClosed }

  predicate BeforeCleanup(loop: Loop) { !loop.Cleaning? && !loop.Cleaned? }

  /** Only a call on an open stream deletes it, and a unary call always does before it returns. */
  predicate CallDeletes(e: Entry) {
    if e.opening.Opened? then
      e.kind.Unary? ==> (e.remoteClosed <==> e.pc.Returned?)
    else !e.remoteClosed && (if e.opening.Pending? then e.pc.Idle? else e.pc.Returned?)
  }

  predicate Mapped(c: Client, k: nat)
    requires k < |c.entries|
  {
    && CallDeletes(c.entries[k])
    && (Deleted(c.entries[k]) ==> IdOf(k) !in c.table)
    && (!Deleted(c.entries[k]) && BeforeCleanup(c.loop) ==> IdOf(k) in c.table)
  }

  ghost predicate MapOk(c: Client) { Small(c) ==> forall k | 0 <= k < |c.entries| :: Mapped(c, k) }

  lemma MapCaller(cfg: Config, c: Client, ce: CallerEvent)
    requires Ids(c) && Openings(c) && MapOk(c)
    ensures MapOk(DoCaller(cfg, c, ce))
  {
    CallerEffects(cfg, c, ce);
    MapMore(c, DoCaller(cfg, c, ce));
  }

  lemma MapMore(c: Client, c': Client)
    requires Ids(c) && CallerEffect(c, c') && MapOk(c)
    ensures MapOk(c')
  {
    if Small(c') {
      IdsDistinct(|c'.entries|);
      forall k | 0 <= k < |c'.entries| ensures Mapped(c', k) {
        if k < |c.entries| { assert Mapped(c, k) && CallerKeeps(c.entries[k], c'.entries[k]); }
      }
    }
  }

  lemma MapLoop(c: Client, le: LoopEvent)
    requires Ids(c) && MapOk(c)
    ensures MapOk(DoLoop(c, le))
  {
    var c' := DoLoop(c, le);
    LoopKeepsOpenings(c, le);
    LoopKeepsCalls(c, le);
    LoopTable(c, le);
    if Small(c') {
      forall k | 0 <= k < |c'.entries| ensures Mapped(c', k) { assert Mapped(c, k); }
    }
  }

  lemma LoopTable(c: Client, le: LoopEvent)
    ensures var c' := DoLoop(c, le);
            && c'.table.Keys <= c.table.Keys
            && (BeforeCleanup(c'.loop) ==> c'.table == c.table && BeforeCleanup(c.loop))
  {
  }

  lemma LoopKeepsCalls(c: Client, le: LoopEvent)
    ensures var c' := DoLoop(c, le);
            |c'.entries| == |c.entries|
            && forall k | 0 <= k < |c.entries| ::
                 c'.entries[k].remoteClosed == c.entries[k].remoteClosed && c'.entries[k].kind == c.entries[k].kind
  {
    if le.Lookup? { LookupKeeps(c); }
    else if le.Deliver? { DeliverKeeps(c, le.choice); }
    else { QuietEffects(c, le); }
  }

  lemma StepDeletes(cfg: Config, e: Entry, ev: ConsumerEvent, ctxDone: bool, locked: bool)
    requires ConsumerCan(e, ev, ctxDone, locked) && CallDeletes(e)
    ensures var e' := ConsumerStep(cfg, e, ev, ctxDone, locked);
            CallDeletes(e') && (Deleted(e') <==> Deleted(e) || ev.Unlink?)
  {
  }

  lemma MapConsume(cfg: Config, c: Client, k: nat, ev: ConsumerEvent)
    requires Ids(c) && MapOk(c)
    ensures MapOk(DoConsume(cfg, c, k, ev))
  {
    var c' := DoConsume(cfg, c, k, ev);
    if Small(c') && c' != c {
      IdsDistinct(|c'.entries|);
      assert Mapped(c, k);
      StepDeletes(cfg, c.entries[k], ev, c.ctxDone, c.StreamLocked());
      forall j | 0 <= j < |c'.entries| ensures Mapped(c', j) { assert Mapped(c, j); }
    }
  }

  lemma {:induction false} MapRun(cfg: Config, es: seq<Event>)
    ensures MapOk(After(cfg, es))
  {
    if es != [] {
      var (before, e) := (es[..|es| - 1], es[|es| - 1]);
      MapRun(cfg, before);
      RunInv(cfg, before);
      match e
      case Caller(ce) => MapCaller(cfg, After(cfg, before), ce);
      case Receive(le) => MapLoop(After(cfg, before), le);
      case Consume(k, ev) => MapConsume(cfg, After(cfg, before), k, ev);
    }
  }

  /** Over every run, until the cleanup, a stream is in the map if and only if no call has deleted it: a unary call
      whose request was sent has, once it has returned; and a stream whose request could not be sent stays. */
  lemma {:induction false} MapIff(cfg: Config, es: seq<Event>, k: nat)
    requires Small(After(cfg, es)) && k < |After(cfg, es).entries|
    ensures var (c, e) := (After(cfg, es), After(cfg, es).entries[k]);
            && (BeforeCleanup(c.loop) ==> (IdOf(k) in c.table <==> !e.pc.Closing? && !e.remoteClosed))
            && (e.pc.Closing? || e.remoteClosed ==> IdOf(k) !in c.table)
            && (e.kind.Unary? && e.opening.Opened? && e.pc.Returned? ==> IdOf(k) !in c.table)
            && (e.opening.Aborted? && BeforeCleanup(c.loop) ==> IdOf(k) in c.table)
  {
    MapRun(cfg, es);
    assert Mapped(After(cfg, es), k);
  }

  /** A call whose request is too long fails, and its stream is left in the map of a client that goes on. */
  lemma {:induction false} FailedCallStays(cfg: Config, kind: Kind, req: Req, fate: Fate)
    requires |cfg.reqEnc(req)| > MAX_LENGTH
    ensures var c := After(cfg, [Caller(BeginCreate(kind, req)), Caller(CheckClosed), Caller(Register), Caller(SendRequest(fate))]);
            && |c.entries| == 1 && c.entries[0].opening.Aborted? && InTable(c, 0)
            && c.w.frames == [] && !c.w.broken && !c.ctxDone && c.loop.Top?
  {
    var es := [Caller(BeginCreate(kind, req)), Caller(CheckClosed), Caller(Register), Caller(SendRequest(fate))];
    assert es[..3][..2] == es[..2] && es[..2][..1] == es[..1] && es[..1][..0] == [];
    assert After(cfg, es[..1]) == Init().(sender := Held(kind, req));
    assert After(cfg, es[..2]) == Init().(sender := Checked(kind, req));
    assert After(cfg, es[..3]) == DoRegister(After(cfg, es[..2]));
  }
}
