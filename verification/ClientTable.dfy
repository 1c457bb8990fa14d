/** Invariants of the client's stream table: ids, registration, and that nobody is left stranded. */
module ClientTable {
  import opened Types
  import opened Framing
  import opened ClientEngine

  /** Fewer than 2^31 streams beyond the first: no stream id has been handed out twice. */
  predicate Small(c: Client) { |c.entries| <= 0x8000_0000 }

  predicate InTable(c: Client, k: nat) { IdOf(k) in c.table && c.table[IdOf(k)] == k }

  ghost predicate Ids(c: Client) {
    && (forall k | 0 <= k < |c.entries| :: c.entries[k].core.id == IdOf(k))
    && c.next == IdOf(|c.entries|)
    && (forall sid | sid in c.table :: c.table[sid] < |c.entries| && IdOf(c.table[sid]) == sid)
    && (c.loop.Holding? ==> c.loop.k < |c.entries| && c.loop.m.frame.sid == IdOf(c.loop.k))
  }

  /** The calls of an entry run only once its first send has gone out. */
  ghost predicate Openings(c: Client) {
    && (c.sender.Registered? ==> c.sender.k + 1 == |c.entries| && c.entries[c.sender.k].opening.Pending?)
    && (forall k | 0 <= k < |c.entries| ::
          && (c.entries[k].opening.Pending? ==> c.sender == Registered(k) && c.entries[k].pc.Idle?)
          && (c.entries[k].opening.Aborted? ==> c.entries[k].pc.Returned?))
  }

  lemma IdsCaller(cfg: Config, c: Client, ce: CallerEvent)
    requires Ids(c)
    ensures Ids(DoCaller(cfg, c, ce))
  {
    match ce
    case Register => IdsRegister(c);
    case SendRequest(fate) => IdsSendRequest(cfg, c, fate);
    case _ =>
  }

  lemma IdsRegister(c: Client)
    requires Ids(c)
    ensures Ids(DoRegister(c))
  {
  }

  lemma IdsSendRequest(cfg: Config, c: Client, fate: Fate)
    requires Ids(c)
    ensures Ids(DoSendRequest(cfg, c, fate))
  {
  }

  lemma IdsLoop(c: Client, le: LoopEvent)
    requires Ids(c)
    ensures Ids(DoLoop(c, le))
  {
  }

  lemma IdsConsume(cfg: Config, c: Client, k: nat, ev: ConsumerEvent)
    requires Ids(c)
    ensures Ids(DoConsume(cfg, c, k, ev))
  {
  }

  lemma OpeningsCaller(cfg: Config, c: Client, ce: CallerEvent)
    requires Openings(c)
    ensures Openings(DoCaller(cfg, c, ce))
  {
  }

  lemma OpeningsLoop(c: Client, le: LoopEvent)
    requires Openings(c)
    ensures Openings(DoLoop(c, le))
  {
    LoopKeepsOpenings(c, le);
  }

  lemma LoopKeepsOpenings(c: Client, le: LoopEvent)
    ensures var c' := DoLoop(c, le);
            && c'.sender == c.sender && |c'.entries| == |c.entries|
            && forall k | 0 <= k < |c.entries| :: c'.entries[k].opening == c.entries[k].opening && c'.entries[k].pc == c.entries[k].pc
  {
  }

  lemma OpeningsConsume(cfg: Config, c: Client, k: nat, ev: ConsumerEvent)
    requires Openings(c)
    ensures Openings(DoConsume(cfg, c, k, ev))
  {
  }

  /** In the map, closed, or between leaving the map and being closed by the call that removed it. */
  predicate Reachable(c: Client, k: nat)
    requires k < |c.entries|
  {
    InTable(c, k) || c.entries[k].core.closed.Some? || c.entries[k].pc.Closing?
  }

  ghost predicate Unstranded(c: Client) {
    Small(c) ==> forall k | 0 <= k < |c.entries| :: Reachable(c, k)
  }

  lemma SmallIds(j: nat, k: nat)
    requires j <= 0x7fff_ffff && k <= 0x7fff_ffff
    ensures IdOf(k) == 2 * k + 1
    ensures IdOf(j) == IdOf(k) ==> j == k
  {
  }

  lemma IdsDistinct(n: nat)
    requires n <= 0x8000_0000
    ensures forall j, k | 0 <= j < n && 0 <= k < n && IdOf(j) == IdOf(k) :: j == k
  {
  }

  lemma UnstrandedCaller(cfg: Config, c: Client, ce: CallerEvent)
    requires Ids(c) && Openings(c) && Unstranded(c)
    ensures Unstranded(DoCaller(cfg, c, ce))
  {
    var c' := DoCaller(cfg, c, ce);
    if Small(c') {
      IdsDistinct(|c'.entries|);
      forall j | 0 <= j < |c'.entries| ensures Reachable(c', j) {
        assert j < |c.entries| ==> Reachable(c, j);
      }
    }
  }

  lemma UnstrandedLoop(c: Client, le: LoopEvent)
    requires Ids(c) && Unstranded(c)
    ensures Unstranded(DoLoop(c, le))
  {
    if le.CleanupOne? {
      UnstrandedCleanup(c, le.sid);
    } else {
      LoopKeepsReachable(c, le);
      var c' := DoLoop(c, le);
      if Small(c') {
        forall j | 0 <= j < |c'.entries| ensures Reachable(c', j) {
          assert Reachable(c, j);
        }
      }
    }
  }

  /** Only cleanup takes streams out of the map here. */
  lemma LoopKeepsReachable(c: Client, le: LoopEvent)
    requires !le.CleanupOne?
    ensures var c' := DoLoop(c, le);
            && c'.table == c.table && |c'.entries| == |c.entries|
            && forall j | 0 <= j < |c.entries| ::
                 (c.entries[j].core.closed.Some? ==> c'.entries[j].core.closed.Some?) && c'.entries[j].pc == c.entries[j].pc
  {
  }

  lemma UnstrandedCleanup(c: Client, sid: uint32)
    requires Ids(c) && Unstranded(c)
    ensures Unstranded(DoCleanupOne(c, sid))
  {
    var c' := DoCleanupOne(c, sid);
    if Small(c') {
      IdsDistinct(|c'.entries|);
      forall j | 0 <= j < |c'.entries| ensures Reachable(c', j) {
        assert Reachable(c, j);
      }
    }
  }

  lemma UnstrandedConsume(cfg: Config, c: Client, k: nat, ev: ConsumerEvent)
    requires Ids(c) && Unstranded(c)
    ensures Unstranded(DoConsume(cfg, c, k, ev))
  {
    var c' := DoConsume(cfg, c, k, ev);
    if Small(c') {
      IdsDistinct(|c'.entries|);
      forall j | 0 <= j < |c'.entries| ensures Reachable(c', j) {
        assert j < |c.entries| ==> Reachable(c, j);
      }
    }
  }

  ghost predicate Shut(c: Client) {
    && (c.loop.ConnClosed? || c.loop.Cleaning? || c.loop.Cleaned? ==> c.ctxDone)
    && (c.loop.Cleaning? || c.loop.Cleaned? ==> !c.sender.Checked?)
    && (c.loop.Cleaned? ==> c.table == map[])
  }

  lemma ShutCaller(cfg: Config, c: Client, ce: CallerEvent)
    requires Shut(c)
    ensures Shut(DoCaller(cfg, c, ce))
  {
  }

  lemma ShutLoop(c: Client, le: LoopEvent)
    requires Shut(c)
    ensures Shut(DoLoop(c, le))
  {
  }

  lemma ShutConsume(cfg: Config, c: Client, k: nat, ev: ConsumerEvent)
    requires Shut(c)
    ensures Shut(DoConsume(cfg, c, k, ev))
  {
  }


  // ---------------------------------------------------------------- what each kind of step leaves alone

  predicate CallerKeeps(e: Entry, e': Entry) {
    || e' == e.(localClosed := e'.localClosed)
    || (e.opening.Pending? && (e' == Open(e, true) || e' == Open(e, false)))
  }

  /** A caller's step changes how far streams have been opened, or registers one more. */
  ghost predicate CallerEffect(c: Client, c': Client) {
    && |c.entries| <= |c'.entries| <= |c.entries| + 1
    && (forall j | 0 <= j < |c.entries| :: CallerKeeps(c.entries[j], c'.entries[j]))
    && c'.loop == c.loop && c'.seen == c.seen && c'.puts == c.puts && c'.doublePut == c.doublePut && c'.waits == c.waits
    && (c.ctxDone ==> c'.ctxDone)
    && (if |c'.entries| == |c.entries| then c'.table == c.table
        else
          && c.sender.Checked?
          && c'.table == c.table[c.next := |c.entries|]
          && c'.entries[|c.entries|] == NewEntry(c, c.sender.kind, c.sender.req))
  }

  lemma RegisterEffect(c: Client)
    ensures CallerEffect(c, DoRegister(c))
  {
  }

  lemma SendRequestEffect(cfg: Config, c: Client, fate: Fate)
    requires Openings(c)
    ensures CallerEffect(c, DoSendRequest(cfg, c, fate))
  {
  }

  lemma CloseSendEffect(c: Client, k: nat, fate: Fate)
    ensures CallerEffect(c, DoCloseSend(c, k, fate))
  {
  }

  lemma CallerEffects(cfg: Config, c: Client, ce: CallerEvent)
    requires Openings(c)
    ensures CallerEffect(c, DoCaller(cfg, c, ce))
  {
    match ce
    case BeginCreate(_, _) =>
    case CheckClosed =>
    case Register => RegisterEffect(c);
    case SendRequest(fate) => SendRequestEffect(cfg, c, fate);
    case SendMsg(_, _, _) =>
    case CloseSend(k, fate) => CloseSendEffect(c, k, fate);
    case UserClose =>
  }

  predicate LoopKeeps(e: Entry, e': Entry) {
    e' == e.(core := e.core.(queue := e'.core.queue, closed := e'.core.closed), deposited := e'.deposited,
             arrived := e'.arrived, gap := e'.gap, expired := e'.expired)
  }

  /** A step of the receive loop other than a lookup or a delivery. */
  ghost predicate QuietEffect(c: Client, c': Client) {
    && |c'.entries| == |c.entries|
    && (forall j | 0 <= j < |c.entries| ::
          && c'.entries[j] == c.entries[j].(core := c.entries[j].core.(closed := c'.entries[j].core.closed))
          && (c.entries[j].core.closed.Some? ==> c'.entries[j].core.closed.Some?))
    && c'.table.Keys <= c.table.Keys && (forall sid | sid in c'.table :: c'.table[sid] == c.table[sid])
    && c'.seen == c.seen && c'.puts == c.puts && c'.doublePut == c.doublePut && c'.waits == c.waits
    && (c.ctxDone ==> c'.ctxDone)
    && !c'.loop.Holding?
    && (c'.loop.Read? ==> c'.loop.m.tok == |c.seen|)
    && (c'.loop.Reading? ==> !c.ctxDone)
    && (c'.loop.Read? ==> c.loop.Reading?)
    && c'.w == c.w && c'.sender == c.sender && c'.next == c.next
  }

  lemma QuietEffects(c: Client, le: LoopEvent)
    requires !le.Lookup? && !le.Deliver?
    ensures DoLoop(c, le) == c || (QuietEffect(c, DoLoop(c, le)) && !c.loop.Read? && !c.loop.Holding?)
  {
  }

  predicate ConsumerKeeps(e: Entry, e': Entry) {
    && e' == e.(core := e.core.(queue := e'.core.queue, closed := e'.core.closed), remoteClosed := e'.remoteClosed,
                pc := e'.pc, results := e'.results, taken := e'.taken)
    && (e.core.closed.Some? ==> e'.core.closed.Some?)
  }

  ghost predicate ConsumerEffect(c: Client, c': Client) {
    && |c'.entries| == |c.entries|
    && (forall j | 0 <= j < |c.entries| :: ConsumerKeeps(c.entries[j], c'.entries[j]))
    && c'.table.Keys <= c.table.Keys && (forall sid | sid in c'.table :: c'.table[sid] == c.table[sid])
    && c'.loop == c.loop && c'.seen == c.seen && c'.waits == c.waits && c'.ctxDone == c.ctxDone
    && c'.w == c.w && c'.sender == c.sender && c'.next == c.next
  }

  lemma ConsumerStepKeeps(cfg: Config, e: Entry, ev: ConsumerEvent, ctxDone: bool, locked: bool)
    requires ConsumerCan(e, ev, ctxDone, locked)
    ensures ConsumerKeeps(e, ConsumerStep(cfg, e, ev, ctxDone, locked))
  {
  }

  lemma ConsumerEffects(cfg: Config, c: Client, k: nat, ev: ConsumerEvent)
    ensures ConsumerEffect(c, DoConsume(cfg, c, k, ev))
  {
    if k < |c.entries| && ConsumerCan(c.entries[k], ev, c.ctxDone, c.StreamLocked()) {
      ConsumerStepKeeps(cfg, c.entries[k], ev, c.ctxDone, c.StreamLocked());
    }
  }
}
