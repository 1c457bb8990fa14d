/** Receive buffers on the client: each is put back at most once, and never while the receive loop, a
    queue or a receive call still holds the message it carries. */
module ClientBuffers {
  import opened Types
  import opened StreamQueue
  import opened ClientEngine
  import opened ClientTable
  import opened ClientDelivery

  /** None of the messages held for the entry has had its buffer put back. */
  ghost predicate HeldBy(e: Entry, puts: set<nat>) {
    && (forall m | m in e.core.queue :: m.tok !in puts)
    && (e.pc.Handling? ==> e.taken != [])
    && (HasLast(e) ==> LastTaken(e).tok !in puts)
  }

  ghost predicate Buffers(c: Client) {
    Small(c) ==>
      && !c.doublePut
      && (forall t | t in c.puts :: t < |c.seen|)
      && (c.loop.Holding? ==> c.loop.m.tok !in c.puts)
      && (forall k | 0 <= k < |c.entries| :: HeldBy(c.entries[k], c.puts))
  }

  lemma BuffersCaller(c: Client, c': Client)
    requires Openings(c) && Buffers(c) && CallerEffect(c, c')
    ensures Buffers(c')
  {
    if Small(c') {
      forall j | 0 <= j < |c'.entries| ensures HeldBy(c'.entries[j], c'.puts) {
        if j < |c.entries| {
          assert CallerKeeps(c.entries[j], c'.entries[j]);
        }
      }
    }
  }

  lemma BuffersQuiet(c: Client, c': Client)
    requires Buffers(c) && QuietEffect(c, c')
    ensures Buffers(c')
  {
    if Small(c') {
      forall j | 0 <= j < |c'.entries| ensures HeldBy(c'.entries[j], c'.puts) {
        assert HeldBy(c.entries[j], c.puts);
      }
    }
  }

  lemma BuffersLookup(c: Client)
    requires Arrivals(c) && Buffers(c)
    ensures Buffers(DoLookup(c))
  {
    var c' := DoLookup(c);
    if Small(c') {
      forall j | 0 <= j < |c'.entries| ensures HeldBy(c'.entries[j], c'.puts) {
        assert HeldBy(c.entries[j], c.puts);
      }
    }
  }

  lemma BuffersDeliver(c: Client, choice: Choice)
    requires Buffers(c)
    ensures Buffers(DoDeliver(c, choice))
  {
    if c.loop.Holding? && c.loop.k < |c.entries| {
      var e := c.entries[c.loop.k];
      var effect := Decide(e.core, c.ctxDone, c.loop.stage, choice);
      if Small(c) {
        assert HeldBy(e, c.puts);
        AffectHeld(e, c.loop.m, effect, c.puts);
      }
    }
  }

  lemma AffectHeld(e: Entry, m: Msg, effect: Effect, puts: set<nat>)
    requires HeldBy(e, puts) && m.tok !in puts
    ensures HeldBy(Affect(e, m, effect), puts)
  {
  }

  /** A message taken from stream k and one still queued on stream j were read into different buffers. */
  lemma OtherBuffer(c: Client, k: nat, j: nat, i: nat)
    requires Ids(c) && Small(c) && k < |c.entries| && j < |c.entries|
    requires NoGapAt(c, k) && NoGapAt(c, j) && QueueAt(c, k) && QueueAt(c, j) && ArrivedAt(c, k) && ArrivedAt(c, j)
    requires c.entries[k].taken != [] && i < |c.entries[j].core.queue|
    ensures LastTaken(c.entries[k]).tok != c.entries[j].core.queue[i].tok
  {
    var (ek, ej) := (c.entries[k], c.entries[j]);
    var (n, p) := (|ek.taken| - 1, |ej.taken| + i);
    assert ek.deposited[n] == LastTaken(ek) && ej.deposited[p] == ej.core.queue[i];
    DepositedAt(c, k, n);
    if j == k {
      assert ek.deposited[n].tok < ek.deposited[p].tok;
    } else {
      DepositedAt(c, j, p);
      SmallIds(j, k);
      assert ek.core.id != ej.core.id;
    }
  }

  /** What was put into a queue is a message seen, under the stream's id, in a buffer of its own. */
  lemma DepositedAt(c: Client, k: nat, n: nat)
    requires k < |c.entries| && NoGapAt(c, k) && ArrivedAt(c, k) && n < |c.entries[k].deposited|
    ensures var e := c.entries[k];
            var m := e.deposited[n];
            && m.tok < |c.seen| && c.seen[m.tok] == m && m.frame.sid == e.core.id
            && forall p | n < p < |e.deposited| :: m.tok < e.deposited[p].tok
  {
    var e := c.entries[k];
    assert e.deposited <= e.arrived;
    assert e.deposited[n] == e.arrived[n] && e.arrived[n] in e.arrived;
    forall p | n < p < |e.deposited| ensures e.deposited[n].tok < e.deposited[p].tok {
      assert e.deposited[p] == e.arrived[p];
    }
  }

  /** Nor is it the message the receive loop holds. */
  lemma OtherBufferInHand(c: Client, k: nat)
    requires Ids(c) && Arrivals(c) && Small(c) && k < |c.entries| && c.loop.Holding?
    requires NoGapAt(c, k) && QueueAt(c, k) && NoGapAt(c, c.loop.k) && ArrivedAt(c, k) && ArrivedAt(c, c.loop.k)
    requires c.entries[k].taken != [] && |c.entries[c.loop.k].arrived| > 0
    requires c.entries[c.loop.k].arrived[|c.entries[c.loop.k].arrived| - 1] == c.loop.m
    ensures LastTaken(c.entries[k]).tok != c.loop.m.tok
  {
    var ek := c.entries[k];
    var n := |ek.taken| - 1;
    assert ek.deposited[n] == LastTaken(ek) && ek.arrived[n] == ek.deposited[n];
    assert ek.arrived[n] in ek.arrived;
    SmallIds(k, c.loop.k);
  }

  /** What the receive loop holds is the last message that arrived for its stream. */
  ghost predicate InHandIsLast(c: Client) {
    Small(c) && c.loop.Holding? && c.loop.k < |c.entries| ==>
      var a := c.entries[c.loop.k].arrived; a != [] && a[|a| - 1] == c.loop.m
  }

  lemma InHandIsLastCaller(c: Client, c': Client)
    requires Ids(c) && InHandIsLast(c) && CallerEffect(c, c')
    ensures InHandIsLast(c')
  {
  }

  lemma InHandIsLastConsume(c: Client, c': Client)
    requires InHandIsLast(c) && ConsumerEffect(c, c')
    ensures InHandIsLast(c')
  {
  }

  lemma InHandIsLastQuiet(c: Client, c': Client)
    requires QuietEffect(c, c')
    ensures InHandIsLast(c')
  {
  }

  lemma InHandIsLastLookup(c: Client)
    requires Ids(c) && InHandIsLast(c)
    ensures InHandIsLast(DoLookup(c))
  {
    if Small(c) && c.loop.Read? && c.loop.m.frame.sid in c.table {
      OwnerOfId(c, c.table[c.loop.m.frame.sid], c.loop.m.frame.sid);
    }
  }

  lemma InHandIsLastDeliver(c: Client, choice: Choice)
    requires InHandIsLast(c)
    ensures InHandIsLast(DoDeliver(c, choice))
  {
  }

  ghost predicate Settled(c: Client) {
    Ids(c) && NoGap(c) && Queues(c) && Arrivals(c) && InHandIsLast(c)
  }

  lemma HandleKeepsOthers(cfg: Config, c: Client, k: nat, j: nat)
    requires Settled(c) && Buffers(c) && Small(c) && k < |c.entries| && j < |c.entries| && HasLast(c.entries[k])
    ensures j != k ==> HeldBy(c.entries[j], c.puts)
    ensures forall m | m in c.entries[j].core.queue :: m.tok != LastTaken(c.entries[k]).tok
    ensures j != k && HasLast(c.entries[j]) ==> LastTaken(c.entries[j]).tok != LastTaken(c.entries[k]).tok
  {
    assert HeldBy(c.entries[j], c.puts) && HeldBy(c.entries[k], c.puts);
    assert NoGapAt(c, k) && NoGapAt(c, j) && QueueAt(c, k) && QueueAt(c, j) && ArrivedAt(c, k) && ArrivedAt(c, j);
    forall i | 0 <= i < |c.entries[j].core.queue|
      ensures c.entries[j].core.queue[i].tok != LastTaken(c.entries[k]).tok
    {
      OtherBuffer(c, k, j, i);
    }
    if j != k && HasLast(c.entries[j]) {
      TakenIsOwn(c, j);
      TakenIsOwn(c, k);
      SmallIds(j, k);
    }
  }

  lemma TakenIsOwn(c: Client, k: nat)
    requires Ids(c) && k < |c.entries| && NoGapAt(c, k) && QueueAt(c, k) && ArrivedAt(c, k)
    requires c.entries[k].taken != []
    ensures var m := LastTaken(c.entries[k]);
            m in c.entries[k].arrived && m.tok < |c.seen| && c.seen[m.tok] == m && m.frame.sid == IdOf(k)
  {
    var e := c.entries[k];
    var n := |e.taken| - 1;
    assert e.deposited[n] == LastTaken(e) && e.arrived[n] == e.deposited[n];
  }

  /** A step of a call that still has its last message puts back at most that one's buffer, and only as it
      finishes with it. */
  ghost predicate HandleEffect(c: Client, c': Client, k: nat)
    requires k < |c.entries| && HasLast(c.entries[k])
  {
    var t := LastTaken(c.entries[k]).tok;
    && |c'.entries| == |c.entries| && c'.loop == c.loop && c'.seen == c.seen
    && c.puts <= c'.puts <= c.puts + {t}
    && (c'.doublePut ==> c.doublePut || t in c.puts)
    && (forall j | 0 <= j < |c.entries| && j != k :: c'.entries[j] == c.entries[j])
    && c'.entries[k].core.queue == c.entries[k].core.queue && c'.entries[k].taken == c.entries[k].taken
    && !c'.entries[k].pc.Handling?
    && (c'.puts == c.puts || !HasLast(c'.entries[k]))
  }

  lemma HandleEffects(cfg: Config, c: Client, k: nat, ev: ConsumerEvent)
    requires k < |c.entries| && HasLast(c.entries[k])
    requires ConsumerCan(c.entries[k], ev, c.ctxDone, c.StreamLocked())
    ensures HandleEffect(c, DoConsume(cfg, c, k, ev), k)
  {
    match ev
    case Handle =>
    case Unlink =>
    case Finish =>
    case _ =>
  }

  lemma BuffersHandle(cfg: Config, c: Client, c': Client, k: nat)
    requires Settled(c) && Buffers(c) && k < |c.entries| && HasLast(c.entries[k]) && Small(c)
    requires HandleEffect(c, c', k)
    ensures Buffers(c')
  {
    assert NoGapAt(c, k) && QueueAt(c, k) && ArrivedAt(c, k);
    TakenIsOwn(c, k);
    assert HeldBy(c.entries[k], c.puts);
    if c.loop.Holding? {
      assert NoGapAt(c, c.loop.k) && ArrivedAt(c, c.loop.k);
      OtherBufferInHand(c, k);
    }
    forall j | 0 <= j < |c'.entries| ensures HeldBy(c'.entries[j], c'.puts) {
      HandleKeepsOthers(cfg, c, k, j);
    }
  }

  lemma BuffersIdle(cfg: Config, c: Client, k: nat, ev: ConsumerEvent)
    requires Small(c) && Buffers(c) && k < |c.entries| && !HasLast(c.entries[k])
    requires ConsumerCan(c.entries[k], ev, c.ctxDone, c.StreamLocked())
    ensures Buffers(DoConsume(cfg, c, k, ev))
  {
    var c' := DoConsume(cfg, c, k, ev);
    assert HeldBy(c.entries[k], c.puts);
    assert c'.puts == c.puts && !c'.doublePut;
    IdleStep(cfg, c.entries[k], ev, c.ctxDone, c.StreamLocked(), c.puts);
    forall j | 0 <= j < |c'.entries| ensures HeldBy(c'.entries[j], c'.puts) {
      assert HeldBy(c.entries[j], c.puts);
    }
  }

  lemma IdleStep(cfg: Config, e: Entry, ev: ConsumerEvent, ctxDone: bool, locked: bool, puts: set<nat>)
    requires HeldBy(e, puts) && !HasLast(e) && ConsumerCan(e, ev, ctxDone, locked)
    ensures HeldBy(ConsumerStep(cfg, e, ev, ctxDone, locked), puts)
  {
  }

  lemma BuffersConsume(cfg: Config, c: Client, k: nat, ev: ConsumerEvent)
    requires Settled(c) && Buffers(c)
    ensures Buffers(DoConsume(cfg, c, k, ev))
  {
    if Small(c) && k < |c.entries| && ConsumerCan(c.entries[k], ev, c.ctxDone, c.StreamLocked()) {
      if HasLast(c.entries[k]) {
        HandleEffects(cfg, c, k, ev);
        BuffersHandle(cfg, c, DoConsume(cfg, c, k, ev), k);
      } else {
        BuffersIdle(cfg, c, k, ev);
      }
    }
  }
}
