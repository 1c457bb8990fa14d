/** Delivery to client streams: what the receive loop read for a stream reaches its consumer without
    gaps, and a full stream costs the loop at most one timeout. */
module ClientDelivery {
  import opened Types
  import opened StreamQueue
  import opened ClientEngine
  import opened ClientTable

  predicate Holds(c: Client, k: nat) { c.loop.Holding? && c.loop.k == k }

  /** The message the receive loop is about to give to stream k, or to drop. */
  function InHand(c: Client, k: nat): seq<Msg> {
    if Holds(c, k) then [c.loop.m] else []
  }

  predicate PastReading(loop: Loop) { !loop.Reading? && !loop.Read? && !loop.Holding? }

  /** Up to the first loss everything that arrived was put in the queue; after it nothing ever is. */
  ghost predicate NoGapAt(c: Client, k: nat)
    requires k < |c.entries|
  {
    var e := c.entries[k];
    && (if e.gap then e.deposited < e.arrived else e.arrived == e.deposited + InHand(c, k))
    && (e.gap && InTable(c, k) ==> e.core.closed.Some? || (c.ctxDone && PastReading(c.loop)))
    && (e.gap && Holds(c, k) ==> c.loop.stage.Poison? || (c.loop.stage.Found? && e.core.closed.Some?))
  }

  ghost predicate NoGap(c: Client) {
    Small(c) ==> forall k | 0 <= k < |c.entries| :: NoGapAt(c, k)
  }

  lemma NoGapCaller(c: Client, c': Client)
    requires Ids(c) && NoGap(c) && CallerEffect(c, c')
    ensures NoGap(c')
  {
    if Small(c') {
      IdsDistinct(|c'.entries|);
      forall j | 0 <= j < |c'.entries| ensures NoGapAt(c', j) {
        if j < |c.entries| { NoGapCallerAt(c, c', j); }
      }
    }
  }

  lemma NoGapCallerAt(c: Client, c': Client, j: nat)
    requires CallerEffect(c, c') && j < |c.entries| && NoGapAt(c, j)
    requires |c'.entries| == |c.entries| || c.next != IdOf(j)
    ensures NoGapAt(c', j)
  {
    assert CallerKeeps(c.entries[j], c'.entries[j]);
  }

  lemma NoGapQuiet(c: Client, c': Client)
    requires NoGap(c) && QuietEffect(c, c') && !c.loop.Read? && !c.loop.Holding?
    ensures NoGap(c')
  {
    if Small(c') {
      forall j | 0 <= j < |c'.entries| ensures NoGapAt(c', j) {
        assert NoGapAt(c, j);
      }
    }
  }

  lemma NoGapConsume(c: Client, c': Client)
    requires NoGap(c) && ConsumerEffect(c, c')
    ensures NoGap(c')
  {
    if Small(c') {
      forall j | 0 <= j < |c'.entries| ensures NoGapAt(c', j) {
        assert NoGapAt(c, j);
      }
    }
  }

  /** The stream an id belongs to. */
  lemma OwnerOfId(c: Client, k: nat, sid: uint32)
    requires Small(c) && k < |c.entries|
    ensures sid == IdOf(k) <==> sid % 2 == 1 && sid / 2 == k
  {
    SmallIds(k, k);
  }

  lemma NoGapLookupAt(c: Client, j: nat)
    requires Ids(c) && Small(c) && j < |c.entries| && NoGapAt(c, j)
    requires c.loop.Read? && !c.StreamLocked()
    ensures |DoLookup(c).entries| == |c.entries| && NoGapAt(DoLookup(c), j)
  {
    var m := c.loop.m;
    OwnerOfId(c, j, m.frame.sid);
    if m.frame.sid == IdOf(j) {
      assert InTable(c, j) ==> m.frame.sid in c.table;
      if m.frame.sid in c.table {
        OwnerOfId(c, c.table[m.frame.sid], m.frame.sid);
      }
    }
  }

  lemma NoGapLookup(c: Client)
    requires Ids(c) && NoGap(c) && c.loop.Read?
    ensures NoGap(DoLookup(c))
  {
    if Small(c) && !c.StreamLocked() {
      forall j | 0 <= j < |c.entries| ensures |DoLookup(c).entries| == |c.entries| && NoGapAt(DoLookup(c), j) {
        assert NoGapAt(c, j);
        NoGapLookupAt(c, j);
      }
    }
  }

  lemma NoGapDeliver(c: Client, choice: Choice)
    requires Ids(c) && NoGap(c)
    ensures NoGap(DoDeliver(c, choice))
  {
    var c' := DoDeliver(c, choice);
    if Small(c') {
      forall j | 0 <= j < |c'.entries| ensures NoGapAt(c', j) {
        assert NoGapAt(c, j);
      }
    }
  }

  // ---------------------------------------------------------------- queues and timeouts

  /** The queue is what was deposited and not yet consumed, within its capacity; a timeout closes the
      stream, so no second one can be waited for. */
  ghost predicate QueueAt(c: Client, k: nat)
    requires k < |c.entries|
  {
    var e := c.entries[k];
    && e.taken + e.core.queue == e.deposited
    && |e.core.queue| <= e.core.cap
    && e.expired <= 1
    && (e.expired == 1 ==> e.core.closed.Some?)
    && (Holds(c, k) && c.loop.stage.Wait? ==> e.expired == 0)
  }

  ghost predicate Queues(c: Client) {
    forall k | 0 <= k < |c.entries| :: QueueAt(c, k)
  }

  function Expired(es: seq<Entry>): nat {
    if es == [] then 0 else Expired(es[..|es| - 1]) + es[|es| - 1].expired
  }

  lemma {:induction false} ExpiredUpdate(es: seq<Entry>, k: nat, e: Entry)
    requires k < |es|
    ensures Expired(es[k := e]) == Expired(es) - es[k].expired + e.expired
  {
    var n := |es| - 1;
    if k == n {
      assert es[k := e][..n] == es[..n];
    } else {
      ExpiredUpdate(es[..n], k, e);
      assert es[k := e][..n] == es[..n][k := e];
    }
  }

  lemma {:induction false} ExpiredBound(es: seq<Entry>)
    requires forall e | e in es :: e.expired <= 1
    ensures Expired(es) <= |es|
  {
    if es != [] {
      ExpiredBound(es[..|es| - 1]);
    }
  }

  ghost predicate Waits(c: Client) { c.waits == Expired(c.entries) }

  lemma QueuesCaller(c: Client, c': Client)
    requires Ids(c) && Queues(c) && CallerEffect(c, c')
    ensures Queues(c')
  {
    forall j | 0 <= j < |c'.entries| ensures QueueAt(c', j) {
      assert j < |c.entries| ==> QueueAt(c, j);
    }
  }

  lemma QueuesQuiet(c: Client, c': Client)
    requires Queues(c) && QuietEffect(c, c')
    ensures Queues(c')
  {
    forall j | 0 <= j < |c'.entries| ensures QueueAt(c', j) {
      assert QueueAt(c, j);
    }
  }

  lemma QueuesLookup(c: Client)
    requires Queues(c)
    ensures Queues(DoLookup(c))
  {
    forall j | 0 <= j < |DoLookup(c).entries| ensures QueueAt(DoLookup(c), j) {
      assert QueueAt(c, j);
    }
  }

  lemma QueuesDeliver(c: Client, choice: Choice)
    requires Queues(c)
    ensures Queues(DoDeliver(c, choice))
  {
    forall j | 0 <= j < |c.entries| ensures j < |DoDeliver(c, choice).entries| && QueueAt(DoDeliver(c, choice), j) {
      assert QueueAt(c, j);
      QueueDeliverAt(c, choice, j);
    }
  }

  lemma QueueAffect(e: Entry, m: Msg, ctxDone: bool, stage: Stage, choice: Choice)
    requires e.taken + e.core.queue == e.deposited && |e.core.queue| <= e.core.cap
    ensures var e' := Affect(e, m, Decide(e.core, ctxDone, stage, choice));
            && e'.taken + e'.core.queue == e'.deposited
            && |e'.core.queue| <= e'.core.cap
            && (e.core.closed.Some? ==> e'.core.closed.Some?)
  {
    assert e.taken + (e.core.queue + [m]) == (e.taken + e.core.queue) + [m];
  }

  lemma QueueDeliverAt(c: Client, choice: Choice, j: nat)
    requires j < |c.entries| && QueueAt(c, j)
    ensures j < |DoDeliver(c, choice).entries| && QueueAt(DoDeliver(c, choice), j)
  {
    if Holds(c, j) {
      QueueAffect(c.entries[j], c.loop.m, c.ctxDone, c.loop.stage, choice);
    }
  }

  lemma QueueConsumeEntry(cfg: Config, e: Entry, ev: ConsumerEvent, ctxDone: bool, locked: bool)
    requires ConsumerCan(e, ev, ctxDone, locked)
    requires e.taken + e.core.queue == e.deposited
    ensures var e' := ConsumerStep(cfg, e, ev, ctxDone, locked);
            e'.taken + e'.core.queue == e'.deposited && |e'.core.queue| <= |e.core.queue| && e'.core.cap == e.core.cap
  {
    if ev.Take? {
      TakeMovesOne(e.taken, e.core.queue);
    } else {
      OthersTakeNothing(cfg, e, ev, ctxDone, locked);
    }
  }

  lemma TakeMovesOne(taken: seq<Msg>, queue: seq<Msg>)
    requires queue != []
    ensures taken + [queue[0]] + queue[1..] == taken + queue
  {
  }

  lemma OthersTakeNothing(cfg: Config, e: Entry, ev: ConsumerEvent, ctxDone: bool, locked: bool)
    requires ConsumerCan(e, ev, ctxDone, locked) && !ev.Take?
    ensures var e' := ConsumerStep(cfg, e, ev, ctxDone, locked);
            && e'.taken == e.taken && e'.core.queue == e.core.queue && e'.deposited == e.deposited && e'.core.cap == e.core.cap
  {
  }

  lemma QueuesConsume(cfg: Config, c: Client, k: nat, ev: ConsumerEvent)
    requires Ids(c) && Queues(c)
    ensures Queues(DoConsume(cfg, c, k, ev))
  {
    var c' := DoConsume(cfg, c, k, ev);
    if k < |c.entries| && ConsumerCan(c.entries[k], ev, c.ctxDone, c.StreamLocked()) {
      forall j | 0 <= j < |c'.entries| ensures QueueAt(c', j) {
        assert QueueAt(c, j);
        if j == k { QueueConsumeEntry(cfg, c.entries[k], ev, c.ctxDone, c.StreamLocked()); }
      }
    }
  }

  lemma ExpiredAppend(es: seq<Entry>, e: Entry)
    ensures Expired(es + [e]) == Expired(es) + e.expired
  {
    assert (es + [e])[..|es|] == es;
  }

  lemma WaitsCaller(cfg: Config, c: Client, ce: CallerEvent)
    requires Waits(c)
    ensures Waits(DoCaller(cfg, c, ce))
  {
    if ce.Register? && c.sender.Checked? {
      ExpiredAppend(c.entries, NewEntry(c, c.sender.kind, c.sender.req));
    }
    forall k, e: Entry | 0 <= k < |c.entries| && e.expired == c.entries[k].expired
      ensures Expired(c.entries[k := e]) == Expired(c.entries)
    {
      ExpiredUpdate(c.entries, k, e);
    }
  }

  lemma WaitsLoop(c: Client, le: LoopEvent)
    requires Waits(c)
    ensures Waits(DoLoop(c, le))
  {
    if le.Deliver? {
      WaitsDeliver(c, le.choice);
    } else if le.Lookup? && c.loop.Read? && c.loop.m.frame.sid / 2 < |c.entries| {
      var m := c.loop.m;
      var e := c.entries[m.frame.sid / 2];
      ExpiredUpdate(c.entries, m.frame.sid / 2,
                    e.(arrived := e.arrived + [m], gap := e.gap || m.frame.sid !in c.table));
    } else if le.CleanupOne? && c.loop.Cleaning? && le.sid in c.table && c.table[le.sid] < |c.entries| {
      var e := c.entries[c.table[le.sid]];
      ExpiredUpdate(c.entries, c.table[le.sid], e.(core := CloseWith(e.core, Some(c.loop.err))));
    }
  }

  lemma WaitsDeliver(c: Client, choice: Choice)
    requires Waits(c)
    ensures Waits(DoDeliver(c, choice))
  {
    if c.loop.Holding? && c.loop.k < |c.entries| {
      var e := c.entries[c.loop.k];
      ExpiredUpdate(c.entries, c.loop.k, Affect(e, c.loop.m, Decide(e.core, c.ctxDone, c.loop.stage, choice)));
    }
  }

  lemma WaitsConsume(cfg: Config, c: Client, k: nat, ev: ConsumerEvent)
    requires Waits(c)
    ensures Waits(DoConsume(cfg, c, k, ev))
  {
    if k < |c.entries| && ConsumerCan(c.entries[k], ev, c.ctxDone, c.StreamLocked()) {
      var e' := ConsumerStep(cfg, c.entries[k], ev, c.ctxDone, c.StreamLocked());
      assert e'.expired == c.entries[k].expired;
      ExpiredUpdate(c.entries, k, e');
    }
  }

  // ---------------------------------------------------------------- what arrived, and its buffers

  predicate Increasing(ms: seq<Msg>) {
    forall i, j | 0 <= i < j < |ms| :: ms[i].tok < ms[j].tok
  }

  /** `arrived` is what was looked up under `id` from position `regAt` on, each message in its own buffer. */
  ghost predicate ArrivedIs(arrived: seq<Msg>, regAt: nat, id: uint32, seen: seq<Msg>) {
    && regAt <= |seen|
    && arrived == For(seen[regAt..], id)
    && Increasing(arrived)
    && Recorded(arrived, id, seen)
  }

  ghost predicate ArrivedAt(c: Client, k: nat)
    requires k < |c.entries|
  {
    ArrivedIs(c.entries[k].arrived, c.entries[k].regAt, c.entries[k].core.id, c.seen)
  }

  lemma ArrivedMore(arrived: seq<Msg>, regAt: nat, id: uint32, seen: seq<Msg>, m: Msg)
    requires ArrivedIs(arrived, regAt, id, seen) && m.tok == |seen|
    ensures ArrivedIs(arrived + (if m.frame.sid == id then [m] else []), regAt, id, seen + [m])
  {
    assert (seen + [m])[regAt..] == seen[regAt..] + [m];
    ForSnoc(seen[regAt..], m, id);
    if m.frame.sid == id {
      IncreasingMore(arrived, seen, m);
      RecordedMore(arrived, id, seen, m);
    } else {
      assert arrived + [] == arrived;
    }
  }

  predicate Recorded(arrived: seq<Msg>, id: uint32, seen: seq<Msg>) {
    forall m | m in arrived :: m.tok < |seen| && seen[m.tok] == m && m.frame.sid == id
  }

  lemma RecordedMore(arrived: seq<Msg>, id: uint32, seen: seq<Msg>, m: Msg)
    requires Recorded(arrived, id, seen) && m.tok == |seen| && m.frame.sid == id
    ensures Recorded(arrived + [m], id, seen + [m])
  {
    forall a | a in arrived + [m] ensures a.tok < |seen + [m]| && (seen + [m])[a.tok] == a && a.frame.sid == id {
      if a in arrived { assert seen[a.tok] == a; }
    }
  }

  lemma IncreasingMore(arrived: seq<Msg>, seen: seq<Msg>, m: Msg)
    requires Increasing(arrived) && (forall a | a in arrived :: a.tok < |seen|) && m.tok == |seen|
    ensures Increasing(arrived + [m])
  {
    forall i | 0 <= i < |arrived| ensures arrived[i].tok < m.tok { assert arrived[i] in arrived; }
  }

  ghost predicate Arrivals(c: Client) {
    && (c.loop.Read? ==> c.loop.m.tok == |c.seen|)
    && (c.loop.Holding? ==> c.loop.m.tok + 1 == |c.seen| && c.seen[c.loop.m.tok] == c.loop.m)
    && (Small(c) ==> forall k | 0 <= k < |c.entries| :: ArrivedAt(c, k))
  }

  lemma ArrivalsCaller(c: Client, c': Client)
    requires Ids(c) && Arrivals(c) && CallerEffect(c, c')
    ensures Arrivals(c')
  {
    if Small(c') {
      forall j | 0 <= j < |c'.entries| ensures ArrivedAt(c', j) {
        assert j < |c.entries| ==> ArrivedAt(c, j);
      }
    }
  }

  lemma ArrivalsQuiet(c: Client, c': Client)
    requires Arrivals(c) && QuietEffect(c, c')
    ensures Arrivals(c')
  {
    if Small(c') {
      forall j | 0 <= j < |c'.entries| ensures ArrivedAt(c', j) {
        assert ArrivedAt(c, j);
      }
    }
  }

  lemma ArrivalsConsume(c: Client, c': Client)
    requires Arrivals(c) && ConsumerEffect(c, c')
    ensures Arrivals(c')
  {
    if Small(c') {
      forall j | 0 <= j < |c'.entries| ensures ArrivedAt(c', j) {
        assert ArrivedAt(c, j);
      }
    }
  }

  lemma ArrivalsDeliver(c: Client, choice: Choice)
    requires Arrivals(c)
    ensures Arrivals(DoDeliver(c, choice))
  {
    var c' := DoDeliver(c, choice);
    if Small(c) {
      forall j | 0 <= j < |c'.entries| ensures ArrivedAt(c', j) {
        assert ArrivedAt(c, j);
      }
    }
  }

  lemma ArrivedLookupAt(c: Client, j: nat)
    requires Ids(c) && Small(c) && j < |c.entries| && ArrivedAt(c, j)
    requires c.loop.Read? && c.loop.m.tok == |c.seen| && !c.StreamLocked()
    ensures j < |DoLookup(c).entries| && ArrivedAt(DoLookup(c), j)
  {
    OwnerOfId(c, j, c.loop.m.frame.sid);
    ArrivedMore(c.entries[j].arrived, c.entries[j].regAt, c.entries[j].core.id, c.seen, c.loop.m);
    assert c.entries[j].arrived + [] == c.entries[j].arrived;
  }

  lemma ArrivalsLookup(c: Client)
    requires Ids(c) && Arrivals(c)
    ensures Arrivals(DoLookup(c))
  {
    if Small(c) && c.loop.Read? && !c.StreamLocked() {
      forall j | 0 <= j < |DoLookup(c).entries| ensures ArrivedAt(DoLookup(c), j) {
        assert ArrivedAt(c, j);
        ArrivedLookupAt(c, j);
      }
    }
  }
}
