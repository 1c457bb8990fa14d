/** The engines' selects, one step at a time, against the objects' calls: run without interruption, the
    steps of a call reach exactly the outcomes that the object's contract allows. */
module Refinement {
  import opened Types
  import opened Framing
  import opened StreamQueue
  import C = ClientEngine
  import S = ServerEngine

  // ---------------------------------------------------------------- stream.receive

  /** The receive loop delivering, and nothing else happening. */
  function Delivering(c: C.Client, choices: seq<C.Choice>): C.Client {
    if choices == [] then c
    else C.DoDeliver(Delivering(c, choices[..|choices| - 1]), choices[|choices| - 1])
  }

  predicate StartsReceive(c: C.Client, k: nat, m: Msg) { c.loop == C.Holding(k, m, C.Found) && k < |c.entries| }

  /** A call of receive that has not returned: it has changed nothing, and knows what its branches told it. */
  predicate InReceive(c: C.Client, c': C.Client) {
    && c'.loop.Holding? && c.loop.Holding? && c'.loop.k == c.loop.k < |c.entries|
    && c' == c.(loop := C.Holding(c.loop.k, c.loop.m, c'.loop.stage))
    && match c'.loop.stage
       case Found => true
       case Try => c.entries[c.loop.k].core.closed.None?
       case Wait => c.entries[c.loop.k].core.closed.None? && !c.entries[c.loop.k].core.HasRoom() && !c.ctxDone
       case Poison => false
  }

  predicate Queued(c: C.Client, c': C.Client, k: nat)
    requires k < |c.entries| && k < |c'.entries|
  {
    c'.entries[k].deposited != c.entries[k].deposited
  }

  /** A call of receive that has returned, as the stream's contract allows. */
  predicate Received(c: C.Client, c': C.Client, k: nat, m: Msg) {
    && c'.loop.Top? && k < |c.entries| == |c'.entries|
    && (forall j | 0 <= j < |c.entries| && j != k :: c'.entries[j] == c.entries[j])
    && ReceiveAllows(c.entries[k].core, c'.entries[k].core, m, c.ctxDone, Queued(c, c', k))
  }

  /** Whatever branches are taken, an uninterrupted receive does what Stream.Receive's contract says. */
  lemma {:induction false} ReceiveIsAllowed(c: C.Client, choices: seq<C.Choice>, k: nat, m: Msg)
    requires StartsReceive(c, k, m)
    ensures InReceive(c, Delivering(c, choices)) || Received(c, Delivering(c, choices), k, m)
  {
    if choices != [] {
      var n := |choices| - 1;
      ReceiveIsAllowed(c, choices[..n], k, m);
      var c' := Delivering(c, choices[..n]);
      if InReceive(c, c') { ReceiveStep(c, c', choices[n], k, m); }
    }
  }

  lemma ReceiveStep(c: C.Client, c': C.Client, choice: C.Choice, k: nat, m: Msg)
    requires StartsReceive(c, k, m) && InReceive(c, c')
    ensures InReceive(c, C.DoDeliver(c', choice)) || Received(c, C.DoDeliver(c', choice), k, m)
  {
    var e := c.entries[k];
    assert e.deposited + [m] != e.deposited;
  }

  /** And every outcome the contract allows is reached by some choice of branches. */
  lemma AllowedIsReceived(c: C.Client, k: nat, m: Msg, after: Inbox, queued: bool) returns (choices: seq<C.Choice>)
    requires StartsReceive(c, k, m) && ReceiveAllows(c.entries[k].core, after, m, c.ctxDone, queued)
    ensures Received(c, Delivering(c, choices), k, m)
    ensures Delivering(c, choices).entries[k].core == after && (Queued(c, Delivering(c, choices), k) <==> queued)
  {
    choices := Branches(c.entries[k].core, c.ctxDone, queued);
    DeliveringMore(c, choices);
    ReceiveIsAllowed(c, choices, k, m);
    BranchesReturn(c, k, m, queued);
    AllowedIsUnique(c.entries[k].core, after, Delivering(c, choices).entries[k].core, m, c.ctxDone, queued);
  }

  /** The branches that lead to an outcome. */
  function Branches(s: Inbox, ctxDone: bool, queued: bool): (choices: seq<C.Choice>)
    ensures 0 < |choices| <= 3
  {
    if s.closed.Some? then [C.Default]
    else if queued then [C.Default, C.Enqueue]
    else if ctxDone then [C.Default, C.SeeDone]
    else [C.Default, C.Default, C.Default]
  }

  lemma BranchesReturn(c: C.Client, k: nat, m: Msg, queued: bool)
    requires StartsReceive(c, k, m)
    requires c.entries[k].core.closed.Some? ==> !queued
    requires queued ==> c.entries[k].core.HasRoom()
    requires c.entries[k].core.closed.None? && !queued && !c.ctxDone ==> !c.entries[k].core.HasRoom()
    ensures var c' := Delivering(c, Branches(c.entries[k].core, c.ctxDone, queued));
            c'.loop.Top? && |c'.entries| == |c.entries| && (Queued(c, c', k) <==> queued)
  {
    DeliveringMore(c, Branches(c.entries[k].core, c.ctxDone, queued));
    var s := c.entries[k].core;
    if s.closed.Some? {
      Returns(c, k, m, C.Found, C.Default);
    } else {
      Proceeds(c, k, m, C.Found, C.Default);
      if queued { Returns(c, k, m, C.Try, C.Enqueue); }
      else if c.ctxDone { Returns(c, k, m, C.Try, C.SeeDone); }
      else {
        Proceeds(c, k, m, C.Try, C.Default);
        Returns(c, k, m, C.Wait, C.Default);
      }
    }
  }

  lemma Proceeds(c: C.Client, k: nat, m: Msg, stage: C.Stage, choice: C.Choice)
    requires StartsReceive(c, k, m) && C.Decide(c.entries[k].core, c.ctxDone, stage, choice).Proceed?
    ensures C.DoDeliver(c.(loop := C.Holding(k, m, stage)), choice) ==
            c.(loop := C.Holding(k, m, C.Decide(c.entries[k].core, c.ctxDone, stage, choice).stage))
  {
    assert c.entries[k := c.entries[k]] == c.entries;
  }

  lemma Returns(c: C.Client, k: nat, m: Msg, stage: C.Stage, choice: C.Choice)
    requires StartsReceive(c, k, m)
    requires var effect := C.Decide(c.entries[k].core, c.ctxDone, stage, choice); !effect.NotReady? && !effect.Proceed?
    ensures var c' := C.DoDeliver(c.(loop := C.Holding(k, m, stage)), choice);
            && c'.loop.Top? && |c'.entries| == |c.entries|
            && (Queued(c, c', k) <==> C.Decide(c.entries[k].core, c.ctxDone, stage, choice).Deposit?)
  {
    assert c.entries[k].deposited + [m] != c.entries[k].deposited;
  }

  /** The contract leaves no choice but whether the message is queued. */
  lemma AllowedIsUnique(before: Inbox, a: Inbox, b: Inbox, m: Msg, ctxDone: bool, queued: bool)
    requires ReceiveAllows(before, a, m, ctxDone, queued) && ReceiveAllows(before, b, m, ctxDone, queued)
    ensures a == b
  {
  }

  lemma DeliveringMore(c: C.Client, choices: seq<C.Choice>)
    requires 0 < |choices| <= 3
    ensures Delivering(c, choices) ==
            if |choices| == 1 then C.DoDeliver(c, choices[0])
            else if |choices| == 2 then C.DoDeliver(C.DoDeliver(c, choices[0]), choices[1])
            else C.DoDeliver(C.DoDeliver(C.DoDeliver(c, choices[0]), choices[1]), choices[2])
  {
    assert choices[..0] == [];
    if |choices| > 1 { assert choices[..1][..0] == []; }
    if |choices| > 2 { assert choices[..2][..1] == choices[..1] && choices[..1][..0] == []; }
  }

  // ---------------------------------------------------------------- streamHandler.data

  /** The receiver in a call of data, and nothing else happening. */
  function Offering(s: S.Server, choices: seq<S.Choice>): S.Server {
    if choices == [] then s
    else S.DoOffer(Offering(s, choices[..|choices| - 1]), choices[|choices| - 1])
  }

  /** The queue's channel is closed exactly when the remote side has closed, as it always is. */
  predicate StartsData(s: S.Server, h: nat, item: S.Item) {
    && s.receiver.Offering? && s.receiver.h == h < |s.tasks| && s.receiver.item == item && s.receiver.stage == S.CheckClosed
    && s.tasks[h].chanClosed == s.tasks[h].remoteClosed
  }

  predicate InData(s: S.Server, s': S.Server, h: nat) {
    && s.receiver.Offering? && s'.receiver.Offering? && h < |s.tasks|
    && s' == s.(receiver := s.receiver.(stage := s'.receiver.stage))
    && match s'.receiver.stage
       case CheckClosed => true
       case Select => !s.tasks[h].remoteClosed
       case Wait => !s.tasks[h].remoteClosed && |s.tasks[h].inbox| >= s.tasks[h].cap && !s.tasks[h].ctxDone
  }

  /** A call of data that has returned, as the handler's contract allows; a failed one is answered. */
  ghost predicate Offered(s: S.Server, s': S.Server, h: nat, item: S.Item) {
    && !s'.receiver.Offering? && !s'.receiver.Panicked? && h < |s.tasks| == |s'.tasks|
    && (forall j | 0 <= j < |s.tasks| && j != h :: s'.tasks[j] == s.tasks[j])
    && var (t, t', queued) := (s.tasks[h], s'.tasks[h], !s'.receiver.SendingStatus?);
       && DataAllows(t.inbox, t'.inbox, t.cap, t.remoteClosed, item, t.ctxDone, queued)
       && t'.accepted == (if queued then t.accepted + [item] else t.accepted)
       && (!queued ==> t'.refused && t.id in s'.statusIds)
  }

  /** Whatever branches are taken, an uninterrupted data does what StreamHandler.Data's contract says. */
  lemma {:induction false} DataIsAllowed(s: S.Server, choices: seq<S.Choice>, h: nat, item: S.Item)
    requires StartsData(s, h, item)
    ensures InData(s, Offering(s, choices), h) || Offered(s, Offering(s, choices), h, item)
  {
    if choices != [] {
      var n := |choices| - 1;
      DataIsAllowed(s, choices[..n], h, item);
      var s' := Offering(s, choices[..n]);
      if InData(s, s', h) { DataStep(s, s', choices[n], h, item); }
    } else {
      assert s.receiver == s.receiver.(stage := s.receiver.stage);
    }
  }

  lemma DataStep(s: S.Server, s': S.Server, choice: S.Choice, h: nat, item: S.Item)
    requires StartsData(s, h, item) && InData(s, s', h)
    ensures InData(s, S.DoOffer(s', choice), h) || Offered(s, S.DoOffer(s', choice), h, item)
  {
    assert s.tasks[h := s.tasks[h]] == s.tasks;
  }

  // ---------------------------------------------------------------- createStream

  /** createStream from its lock to its return, with nothing in between. */
  function Creating(cfg: Config, c: C.Client, kind: Kind, req: Req, fate: Fate): C.Client {
    C.DoSendRequest(cfg, C.DoRegister(C.DoCheckClosed(C.DoBeginCreate(c, kind, req))), fate)
  }

  /** Uninterrupted, the engine's steps do what Client.CreateStream's contract says: nothing if the
      connection is closed, else the next id, a new stream in the table, and its request sent. */
  lemma CreateIsAllowed(cfg: Config, c: C.Client, kind: Kind, req: Req, fate: Fate)
    requires c.sender.Free? && !c.StreamLocked()
    ensures var c' := Creating(cfg, c, kind, req, fate);
            var k := |c.entries|;
            if c.ctxDone then c' == c
            else
              var f := Frame(c.next, REQUEST, C.RequestFlags(kind), cfg.reqEnc(req));
              && |c'.entries| == k + 1 && c'.entries[..k] == c.entries
              && c'.entries[k].core == NewInbox(c.next, if kind.Unary? then 1 else C.RECV_BUFFER)
              && c'.table == c.table[c.next := k] && c'.next == (c.next + 2) % 0x1_0000_0000
              && c'.w == Send(c.w, f, fate).0 && c'.sender.Free?
              && (c'.entries[k].opening.Opened? <==> Send(c.w, f, fate).1.Sent?)
  {
    if !c.ctxDone {
      var c1 := C.DoRegister(C.DoCheckClosed(C.DoBeginCreate(c, kind, req)));
      assert c1.entries == c.entries + [C.NewEntry(c, kind, req)] && c1.sender == C.Registered(|c.entries|);
    }
  }
}
