/** The `active` counter against the streams map. */
module ServerMap {
  import opened Types
  import opened Framing
  import opened StreamQueue
  import opened ServerEngine
  import opened ServerTasks
  import opened ServerIo
  import opened ServerWire
  import opened ServerLedger
  import opened ServerRuns
  import opened ServerProperties

  // ---------------------------------------------------------------- closing responses that find no entry

  /** The loop is about to delete an entry that is not in the map. */
  predicate IsMiss(s: Server, e: Event) {
    e == Respond(Forget) && s.main.Forgetting? && s.main.o.id !in s.table
  }

  /** How many closing responses of the run found no entry to delete. */
  function Misses(cfg: Config, es: seq<Event>): nat {
    if es == [] then 0
    else
      var (before, e) := (es[..|es| - 1], es[|es| - 1]);
      Misses(cfg, before) + (if IsMiss(After(cfg, before), e) then 1 else 0)
  }

  function One(b: bool): nat { if b then 1 else 0 }

  /** A stream that is in the map and not counted yet weighs against the counter, one that has been taken
      out and not discounted yet for it. */
  predicate Balanced(s: Server, misses: nat) {
    s.ledger.active + misses + One(s.receiver.Counting?) == |s.table| + One(s.main.Discounting?)
  }

  /** A stream not stored yet has no entry. */
  predicate Unstored(s: Server) {
    Mid(s.receiver).Some? && !s.receiver.Counting? ==>
      Mid(s.receiver).value < |s.tasks| && s.tasks[Mid(s.receiver).value].id !in s.table
  }

  lemma EntryAdded(table: map<uint32, nat>, id: uint32, h: nat)
    requires id !in table
    ensures |table[id := h]| == |table| + 1
  {
    assert table[id := h].Keys == table.Keys + {id};
  }

  lemma EntryRemoved(table: map<uint32, nat>, id: uint32)
    ensures |table - {id}| == |table| - One(id in table)
  {
    assert (table - {id}).Keys == table.Keys - {id};
  }

  /** A step that neither stores, counts, forgets nor discounts. */
  ghost predicate MapSame(s: Server, s': Server) {
    && s'.table == s.table && s'.ledger.active == s.ledger.active
    && !s'.receiver.Counting? && !s.receiver.Counting? && s'.main == s.main
  }

  lemma BalancedDispatch(cfg: Config, s: Server, budget: nat)
    requires s.receiver.Got?
    ensures MapSame(s, DoDispatch(cfg, s, budget))
  {
    var m := s.receiver.m;
    DispatchCases(cfg, s, budget);
    if !Unacceptable(m) && m.frame.typ == DATA { DataEffects(Noted(s), m); }
    else if !Unacceptable(m) && m.frame.typ == REQUEST { RequestEffects(cfg, Noted(s), m, budget); }
  }

  lemma BalancedQuiet(cfg: Config, s: Server, re: ReceiverEvent)
    requires !re.Dispatch? && !re.Store? && !re.Count?
    ensures var s' := DoReceiver(cfg, s, re); s' == s || MapSame(s, s')
  {
  }

  lemma BalancedReceiver(cfg: Config, s: Server, re: ReceiverEvent, misses: nat)
    requires Balanced(s, misses) && Unstored(s)
    ensures Balanced(DoReceiver(cfg, s, re), misses)
  {
    if re.Dispatch? { if s.receiver.Got? { BalancedDispatch(cfg, s, re.budget); } }
    else if re.Store? { if s.receiver.Storing? { EntryAdded(s.table, s.tasks[s.receiver.h].id, s.receiver.h); } }
    else if !re.Count? { BalancedQuiet(cfg, s, re); }
  }

  lemma BalancedMain(cfg: Config, s: Server, me: MainEvent, misses: nat)
    requires Balanced(s, misses)
    ensures Balanced(DoMain(cfg, s, me), misses + One(IsMiss(s, Respond(me))))
  {
    if me.Forget? { BalancedForget(s, misses); }
    else if me.Write? { WriteKeepsMap(cfg, s, me.fate); }
    else { MainKeepsBalance(cfg, s, me); }
  }

  lemma BalancedForget(s: Server, misses: nat)
    requires Balanced(s, misses)
    ensures Balanced(DoForget(s), misses + One(IsMiss(s, Respond(Forget))))
  {
    if s.main.Forgetting? { EntryRemoved(s.table, s.main.o.id); }
  }

  lemma MainKeepsBalance(cfg: Config, s: Server, me: MainEvent)
    requires !me.Forget? && !me.Write?
    ensures var s' := DoMain(cfg, s, me);
            && s'.table == s.table && s'.receiver.Counting? == s.receiver.Counting?
            && s'.ledger.active - One(s'.main.Discounting?) == s.ledger.active - One(s.main.Discounting?)
  {
  }

  lemma WriteKeepsMap(cfg: Config, s: Server, fate: Fate)
    ensures var s' := DoWrite(cfg, s, fate);
            && s'.table == s.table && s'.ledger == s.ledger && s'.receiver == s.receiver
            && s'.main.Discounting? == s.main.Discounting?
  {
  }

  lemma BalancedStep(cfg: Config, s: Server, e: Event, misses: nat)
    requires Balanced(s, misses) && Unstored(s)
    ensures Balanced(Apply(cfg, s, e), misses + One(IsMiss(s, e)))
  {
    match e
    case Recv(re) => BalancedReceiver(cfg, s, re, misses);
    case Method(h, te) => TaskKeepsRest(cfg, s, h, te); PlainTask(cfg, s, h, te);
    case Respond(me) => BalancedMain(cfg, s, me, misses);
    case CloseServerConn =>
  }

  // ---------------------------------------------------------------- a fresh stream has no entry

  lemma UnstoredRequest(cfg: Config, s: Server, m: Msg, budget: nat)
    requires Known(s.byId, s.tasks) && Accounted(cfg, s.tasks, s.received, s.lastId) && TableOk(s)
    ensures Unstored(DispatchRequest(cfg, s, m, budget))
  {
    RequestEffects(cfg, s, m, budget);
    var s' := DispatchRequest(cfg, s, m, budget);
    if |s'.tasks| != |s.tasks| && m.frame.sid in s.table {
      assert false;
    }
  }

  lemma UnstoredDispatch(cfg: Config, s: Server, budget: nat)
    requires Tasks(cfg, s) && s.receiver.Got?
    ensures Unstored(DoDispatch(cfg, s, budget))
  {
    var m := s.receiver.m;
    DispatchCases(cfg, s, budget);
    if !Unacceptable(m) && m.frame.typ == DATA { DataEffects(Noted(s), m); }
    else if !Unacceptable(m) && m.frame.typ == REQUEST {
      ReceivedMore(cfg, s.tasks, s.received, m, s.lastId, s.lastId);
      UnstoredRequest(cfg, Noted(s), m, budget);
    }
  }

  /** A step that starts nothing and adds no entry. */
  ghost predicate NothingStored(s: Server, s': Server) {
    && |s'.tasks| == |s.tasks| && (forall h | 0 <= h < |s.tasks| :: s'.tasks[h].id == s.tasks[h].id)
    && (forall id | id in s'.table :: id in s.table)
    && (Mid(s'.receiver).None? || s'.receiver.Counting? || (Mid(s'.receiver) == Mid(s.receiver) && !s.receiver.Counting?))
  }

  lemma UnstoredKept(s: Server, s': Server)
    requires Unstored(s) && NothingStored(s, s')
    ensures Unstored(s')
  {
  }

  lemma UnstoredOffer(s: Server, choice: Choice)
    ensures NothingStored(s, DoOffer(s, choice))
  {
    if s.receiver.Offering? && s.receiver.h < |s.tasks| {
      AffectSame(s.tasks[s.receiver.h], s.receiver.item, Decide(s.tasks[s.receiver.h], s.receiver.stage, choice));
    }
  }

  lemma UnstoredReceiver(cfg: Config, s: Server, re: ReceiverEvent)
    requires Tasks(cfg, s) && Unstored(s)
    ensures Unstored(DoReceiver(cfg, s, re))
  {
    if re.Dispatch? { if s.receiver.Got? { UnstoredDispatch(cfg, s, re.budget); } }
    else if re.Offer? { UnstoredOffer(s, re.choice); UnstoredKept(s, DoOffer(s, re.choice)); }
    else if !re.FinishData? { ReceiverKept(cfg, s, re); }
  }

  lemma UnstoredMain(cfg: Config, s: Server, me: MainEvent)
    requires Unstored(s)
    ensures Unstored(DoMain(cfg, s, me))
  {
    PlainMain(cfg, s, me);
    MainTable(cfg, s, me);
    MainKeepsMid(cfg, s, me);
    UnstoredKept(s, DoMain(cfg, s, me));
  }

  lemma MainKeepsMid(cfg: Config, s: Server, me: MainEvent)
    ensures var r := DoMain(cfg, s, me).receiver; r == s.receiver || r.Top?
  {
  }

  lemma UnstoredStep(cfg: Config, s: Server, e: Event)
    requires Tasks(cfg, s) && Unstored(s)
    ensures Unstored(Apply(cfg, s, e))
  {
    match e
    case Recv(re) => UnstoredReceiver(cfg, s, re);
    case Method(h, te) =>
      TaskKeepsRest(cfg, s, h, te);
      PlainTask(cfg, s, h, te);
      UnstoredKept(s, DoTask(cfg, s, h, te));
    case Respond(me) => UnstoredMain(cfg, s, me);
    case CloseServerConn =>
  }

  // ---------------------------------------------------------------- the exact relation

  lemma {:induction false} BalancedRun(cfg: Config, es: seq<Event>)
    ensures Balanced(After(cfg, es), Misses(cfg, es)) && Unstored(After(cfg, es))
  {
    if es != [] {
      var before := es[..|es| - 1];
      BalancedRun(cfg, before);
      RunInv(cfg, before);
      BalancedStep(cfg, After(cfg, before), es[|es| - 1], Misses(cfg, before));
      UnstoredStep(cfg, After(cfg, before), es[|es| - 1]);
    }
  }

  /** In every reachable state `active` falls short of the number of streams in the map by exactly the number
      of closing responses that found no entry, but for a stream that is between being stored and being
      counted and one that is between being deleted and being discounted. So outside these two windows it is
      the number of streams in the map if and only if every closing response of the run found its entry. */
  lemma {:induction false} ActiveAgainstMap(cfg: Config, es: seq<Event>)
    ensures var s := After(cfg, es);
            && s.ledger.active == |s.table| - Misses(cfg, es) - One(s.receiver.Counting?) + One(s.main.Discounting?)
            && (!s.receiver.Counting? && !s.main.Discounting? ==>
                  s.ledger.active <= |s.table| && (s.ledger.active == |s.table| <==> Misses(cfg, es) == 0))
  {
    BalancedRun(cfg, es);
  }

  // ---------------------------------------------------------------- whose response the loop holds

  /** A response in the loop's hands that a method gave it is of that method's stream. */
  predicate HeldOwn(s: Server) {
    Holds(s.main) && s.main.src.Some? ==> s.main.src.value < |s.tasks| && s.main.o.id == s.tasks[s.main.src.value].id
  }

  lemma HeldOwnTakeFrom(cfg: Config, s: Server, h: nat)
    requires AllTasksOk(cfg, s.tasks) && HeldOwn(s)
    ensures HeldOwn(DoTakeFrom(s, h))
  {
    if h < |s.tasks| { assert TaskOk(cfg, s.tasks[h]); }
  }

  lemma HeldOwnMain(cfg: Config, s: Server, me: MainEvent)
    requires AllTasksOk(cfg, s.tasks) && HeldOwn(s)
    ensures HeldOwn(DoMain(cfg, s, me))
  {
    if me.TakeFrom? { HeldOwnTakeFrom(cfg, s, me.h); }
    else {
      PlainMain(cfg, s, me);
      MainKeepsHeld(cfg, s, me);
    }
  }

  lemma MainKeepsHeld(cfg: Config, s: Server, me: MainEvent)
    requires !me.TakeFrom?
    ensures var m := DoMain(cfg, s, me).main;
            Holds(m) && m.src.Some? ==> Holds(s.main) && m.o == s.main.o && m.src == s.main.src
  {
  }

  lemma HeldOwnStep(cfg: Config, s: Server, e: Event)
    requires Tasks(cfg, s) && AllTasksOk(cfg, s.tasks) && HeldOwn(s)
    ensures HeldOwn(Apply(cfg, s, e))
  {
    match e
    case Recv(re) =>
      ReceiverNobodyGone(cfg, s, re);
      ReceiverKeepsIds(cfg, s, re);
    case Method(h, te) => TaskKeepsRest(cfg, s, h, te); PlainTask(cfg, s, h, te);
    case Respond(me) => HeldOwnMain(cfg, s, me);
    case CloseServerConn =>
  }

  lemma ReceiverKeepsIds(cfg: Config, s: Server, re: ReceiverEvent)
    ensures var s' := DoReceiver(cfg, s, re);
            |s.tasks| <= |s'.tasks| && forall h | 0 <= h < |s.tasks| :: s'.tasks[h].id == s.tasks[h].id
  {
    if re.Dispatch? {
      if s.receiver.Got? {
        var m := s.receiver.m;
        DispatchCases(cfg, s, re.budget);
        if !Unacceptable(m) && m.frame.typ == DATA { DataEffects(Noted(s), m); }
        else if !Unacceptable(m) && m.frame.typ == REQUEST { RequestKeepsIds(cfg, Noted(s), m, re.budget); }
      }
    } else {
      PlainReceiver(cfg, s, re);
    }
  }

  lemma RequestKeepsIds(cfg: Config, s: Server, m: Msg, budget: nat)
    ensures var s' := DispatchRequest(cfg, s, m, budget);
            |s.tasks| <= |s'.tasks| && forall h | 0 <= h < |s.tasks| :: s'.tasks[h].id == s.tasks[h].id
  {
    RequestEffects(cfg, s, m, budget);
    var s' := DispatchRequest(cfg, s, m, budget);
    if |s'.tasks| != |s.tasks| {
      forall h | 0 <= h < |s.tasks| ensures s'.tasks[h] == s.tasks[h] {}
    }
  }

  // ---------------------------------------------------------------- which streams have an entry

  /** The receiver has stored the stream. */
  predicate Stored(r: Receiver, h: nat) { Mid(r) != Some(h) || r.Counting? }

  /** The loop has deleted the stream from the map. */
  predicate Forgotten(m: Main, finished: set<nat>, h: nat) { h in finished || (m.Discounting? && m.src == Some(h)) }

  /** The methods whose closing response the loop processed before the receiver had stored their stream. */
  function Early(cfg: Config, es: seq<Event>): set<nat> {
    if es == [] then {}
    else
      var (before, e) := (es[..|es| - 1], es[|es| - 1]);
      Early(cfg, before) + EarlyNow(After(cfg, before), e)
  }

  function EarlyNow(s: Server, e: Event): set<nat> {
    if e == Respond(Forget) && s.main.Forgetting? && s.main.src.Some? && !Stored(s.receiver, s.main.src.value)
    then {s.main.src.value} else {}
  }

  predicate EntryOk(s: Server, early: set<nat>, h: nat)
    requires h < |s.tasks|
  {
    && (s.tasks[h].id in s.table <==> Stored(s.receiver, h) && (!Forgotten(s.main, s.ledger.finished, h) || h in early))
    && (Forgotten(s.main, s.ledger.finished, h) && !Stored(s.receiver, h) ==> h in early)
  }

  ghost predicate Entries(s: Server, early: set<nat>) {
    && (forall h | h in early :: h < |s.tasks| && Forgotten(s.main, s.ledger.finished, h))
    && (forall h | 0 <= h < |s.tasks| && s.tasks[h].id !in s.statusIds :: EntryOk(s, early, h))
  }

  /** A step that stores and deletes nothing. */
  ghost predicate EntriesSame(s: Server, s': Server) {
    && |s'.tasks| == |s.tasks| && (forall h | 0 <= h < |s.tasks| :: s'.tasks[h].id == s.tasks[h].id)
    && s.statusIds <= s'.statusIds && s'.table == s.table
    && (forall h :: Forgotten(s'.main, s'.ledger.finished, h) == Forgotten(s.main, s.ledger.finished, h))
    && (forall h | 0 <= h < |s.tasks| && s.tasks[h].id !in s'.statusIds :: Stored(s'.receiver, h) == Stored(s.receiver, h))
  }

  lemma EntriesKept(s: Server, s': Server, early: set<nat>)
    requires Entries(s, early) && EntriesSame(s, s')
    ensures Entries(s', early)
  {
    forall h | 0 <= h < |s'.tasks| && s'.tasks[h].id !in s'.statusIds ensures EntryOk(s', early, h) {
      assert EntryOk(s, early, h);
    }
  }

  /** A stream that has just been started has no entry. */
  lemma EntriesRequest(cfg: Config, s: Server, m: Msg, budget: nat, early: set<nat>)
    requires Known(s.byId, s.tasks) && Accounted(cfg, s.tasks, s.received, s.lastId) && TableOk(s)
    requires Entries(s, early) && Mid(s.receiver).None? && forall h: nat | Forgotten(s.main, s.ledger.finished, h) :: h < |s.tasks|
    ensures Entries(DispatchRequest(cfg, s, m, budget), early)
  {
    RequestEffects(cfg, s, m, budget);
    UnstoredRequest(cfg, s, m, budget);
    EntriesStarted(cfg, s, DispatchRequest(cfg, s, m, budget), m, early);
  }

  lemma EntriesStarted(cfg: Config, s: Server, s': Server, m: Msg, early: set<nat>)
    requires RequestEffect(cfg, s, s', m) && Unstored(s')
    requires Entries(s, early) && Mid(s.receiver).None? && forall h: nat | Forgotten(s.main, s.ledger.finished, h) :: h < |s.tasks|
    ensures Entries(s', early)
  {
    forall h | 0 <= h < |s'.tasks| && s'.tasks[h].id !in s'.statusIds ensures EntryOk(s', early, h) {
      if h < |s.tasks| { assert s'.tasks[h] == s.tasks[h] && EntryOk(s, early, h); }
    }
  }

  lemma EntriesDispatch(cfg: Config, s: Server, budget: nat, early: set<nat>)
    requires Tasks(cfg, s) && Closes(s) && Entries(s, early) && s.receiver.Got?
    ensures Entries(DoDispatch(cfg, s, budget), early)
  {
    var (m, s1) := (s.receiver.m, Noted(s));
    EntriesKept(s, s1, early);
    if !Unacceptable(m) && m.frame.typ == REQUEST {
      ReceivedMore(cfg, s.tasks, s.received, m, s.lastId, s.lastId);
      DispatchCases(cfg, s, budget);
      EntriesRequest(cfg, s1, m, budget, early);
    } else {
      NoRequestSame(cfg, s, budget);
      EntriesKept(s1, DoDispatch(cfg, s, budget), early);
    }
  }

  lemma NoRequestSame(cfg: Config, s: Server, budget: nat)
    requires s.receiver.Got? && (Unacceptable(s.receiver.m) || s.receiver.m.frame.typ != REQUEST)
    ensures EntriesSame(Noted(s), DoDispatch(cfg, s, budget))
  {
    var m := s.receiver.m;
    DispatchCases(cfg, s, budget);
    if !Unacceptable(m) && m.frame.typ == DATA { DataEffects(Noted(s), m); DataSame(Noted(s), DoDispatch(cfg, s, budget), m); }
  }

  lemma DataSame(s: Server, s': Server, m: Msg)
    requires s.receiver.Got? && DataEffect(s, s', m)
    ensures EntriesSame(s, s')
  {
  }

  lemma EntriesOffer(cfg: Config, s: Server, choice: Choice)
    requires Io(cfg, s)
    ensures EntriesSame(s, DoOffer(s, choice))
  {
    if s.receiver.Offering? && s.receiver.h < |s.tasks| {
      assert TaskOk(cfg, s.tasks[s.receiver.h]);
      OfferEffects(s, choice);
      PlainOffer(s, choice);
      OfferSame(s, DoOffer(s, choice), Decide(s.tasks[s.receiver.h], s.receiver.stage, choice));
    }
  }

  lemma OfferSame(s: Server, s': Server, v: Verdict)
    requires s.receiver.Offering? && s.receiver.h < |s.tasks| && OfferEffect(s, s', v) && !v.Panic? && s'.table == s.table
    ensures EntriesSame(s, s')
  {
  }

  lemma EntriesQuiet(cfg: Config, s: Server, re: ReceiverEvent)
    requires !re.Dispatch? && !re.Offer? && !re.Store?
    ensures EntriesSame(s, DoReceiver(cfg, s, re))
  {
    PlainReceiver(cfg, s, re);
    QuietKeepsEntries(cfg, s, re);
  }

  lemma QuietKeepsEntries(cfg: Config, s: Server, re: ReceiverEvent)
    requires !re.Dispatch? && !re.Offer? && !re.Store?
    ensures var s' := DoReceiver(cfg, s, re);
            && s'.table == s.table && s'.main == s.main && s'.ledger.finished == s.ledger.finished && s.statusIds <= s'.statusIds
            && forall h :: Stored(s'.receiver, h) == Stored(s.receiver, h)
  {
  }

  lemma EntriesReceiver(cfg: Config, s: Server, re: ReceiverEvent, early: set<nat>)
    requires Tasks(cfg, s) && Io(cfg, s) && Closes(s) && Entries(s, early)
    ensures Entries(DoReceiver(cfg, s, re), early)
  {
    if re.Dispatch? { if s.receiver.Got? { EntriesDispatch(cfg, s, re.budget, early); } }
    else if re.Store? { EntriesStore(cfg, s, early); }
    else {
      if re.Offer? { EntriesOffer(cfg, s, re.choice); } else { EntriesQuiet(cfg, s, re); }
      EntriesKept(s, DoReceiver(cfg, s, re), early);
    }
  }

  lemma EntriesStore(cfg: Config, s: Server, early: set<nat>)
    requires Tasks(cfg, s) && Entries(s, early)
    ensures Entries(DoStore(s), early)
  {
    var s' := DoStore(s);
    forall h | 0 <= h < |s'.tasks| && s'.tasks[h].id !in s'.statusIds ensures EntryOk(s', early, h) {
      assert EntryOk(s, early, h);
    }
  }

  lemma EntriesForget(cfg: Config, s: Server, early: set<nat>)
    requires Tasks(cfg, s) && Statuses(s) && Closes(s) && HeldOwn(s) && Entries(s, early)
    ensures Entries(DoForget(s), early + EarlyNow(s, Respond(Forget)))
  {
    if s.main.Forgetting? {
      var (s', early') := (DoForget(s), early + EarlyNow(s, Respond(Forget)));
      forall h | 0 <= h < |s'.tasks| && s'.tasks[h].id !in s'.statusIds ensures EntryOk(s', early', h) {
        assert EntryOk(s, early, h);
      }
    }
  }

  lemma EntriesMain(cfg: Config, s: Server, me: MainEvent, early: set<nat>)
    requires Tasks(cfg, s) && Statuses(s) && Closes(s) && HeldOwn(s) && Entries(s, early)
    ensures Entries(DoMain(cfg, s, me), early + EarlyNow(s, Respond(me)))
  {
    if me.Forget? {
      EntriesForget(cfg, s, early);
    } else {
      MainSame(cfg, s, me);
      EntriesKept(s, DoMain(cfg, s, me), early);
    }
  }

  lemma MainSame(cfg: Config, s: Server, me: MainEvent)
    requires !me.Forget?
    ensures EntriesSame(s, DoMain(cfg, s, me))
  {
    PlainMain(cfg, s, me);
    MainTable(cfg, s, me);
    MainStatusIds(cfg, s, me);
    MainKeepsMid(cfg, s, me);
    MainForgetsNothing(cfg, s, me);
  }

  lemma MainForgetsNothing(cfg: Config, s: Server, me: MainEvent)
    requires !me.Forget?
    ensures forall h :: Forgotten(DoMain(cfg, s, me).main, DoMain(cfg, s, me).ledger.finished, h) == Forgotten(s.main, s.ledger.finished, h)
  {
  }

  lemma EntriesStep(cfg: Config, s: Server, e: Event, early: set<nat>)
    requires Tasks(cfg, s) && Io(cfg, s) && Statuses(s) && Closes(s) && HeldOwn(s) && Entries(s, early)
    ensures Entries(Apply(cfg, s, e), early + EarlyNow(s, e))
  {
    match e
    case Recv(re) => EntriesReceiver(cfg, s, re, early);
    case Method(h, te) => EntriesTask(cfg, s, h, te, early);
    case Respond(me) => EntriesMain(cfg, s, me, early);
    case CloseServerConn => EntriesKept(s, s.(shutdown := true), early);
  }

  lemma EntriesTask(cfg: Config, s: Server, h: nat, te: TaskEvent, early: set<nat>)
    requires Entries(s, early)
    ensures Entries(DoTask(cfg, s, h, te), early)
  {
    TaskKeepsRest(cfg, s, h, te);
    PlainTask(cfg, s, h, te);
    EntriesKept(s, DoTask(cfg, s, h, te), early);
  }

  lemma {:induction false} EntriesRun(cfg: Config, es: seq<Event>)
    ensures HeldOwn(After(cfg, es)) && Entries(After(cfg, es), Early(cfg, es))
  {
    if es != [] {
      var before := es[..|es| - 1];
      EntriesRun(cfg, before);
      RunInv(cfg, before);
      HeldOwnStep(cfg, After(cfg, before), es[|es| - 1]);
      EntriesStep(cfg, After(cfg, before), es[|es| - 1], Early(cfg, before));
    }
  }

  /** Whatever happens to other streams, a stream whose own id sendStatus has not been used for is in the map
      exactly from when it is stored until it is deleted; but if its closing response was processed before it
      was stored, then from when it is stored for ever. So a finished stream whose entry has been stored has
      left the map if and only if its response was not processed too early. */
  lemma {:induction false} StreamEntry(cfg: Config, es: seq<Event>, h: nat)
    requires h < |After(cfg, es).tasks| && After(cfg, es).tasks[h].id !in After(cfg, es).statusIds
    ensures var (s, id) := (After(cfg, es), After(cfg, es).tasks[h].id);
            && (id in s.table <==> Stored(s.receiver, h) && (!Forgotten(s.main, s.ledger.finished, h) || h in Early(cfg, es)))
            && (id in s.table ==> s.table[id] == h)
            && (h in s.ledger.finished && Stored(s.receiver, h) ==> (id in s.table <==> h in Early(cfg, es)))
  {
    RunInv(cfg, es);
    EntriesRun(cfg, es);
    assert EntryOk(After(cfg, es), Early(cfg, es), h);
  }

  /** A one-to-one map from one set onto another. */
  lemma {:induction false} SameSize(a: set<uint32>, b: set<nat>, f: map<uint32, nat>)
    requires a <= f.Keys && (forall x | x in a :: f[x] in b) && (forall y | y in b :: exists x :: x in a && f[x] == y)
    requires forall x, y | x in a && y in a && x != y :: f[x] != f[y]
    ensures |a| == |b|
  {
    if a != {} {
      var x :| x in a;
      SameSize(a - {x}, b - {f[x]}, f);
    } else if y :| y in b {
      assert false;
    }
  }

  /** The entries of methods whose closing response has been processed. */
  function Stale(s: Server): set<uint32> { set id | id in s.table && s.table[id] in s.ledger.finished }

  /** The id of a finished method whose response was processed before its stream was stored, as it now is. */
  predicate AnsweredEarly(s: Server, early: set<nat>, id: uint32) {
    exists h :: h in s.ledger.finished && h < |s.tasks| && s.tasks[h].id == id && Stored(s.receiver, h) && h in early
  }

  /** The entries of finished methods are those of the ones whose response was processed too early, but where
      sendStatus was used for the id. As long as it has been used for none, and while no registration is under
      way and no response being discounted, there are as many as closing responses that found no entry, and
      `active` counts the other entries: it is the number of streams in the map if and only if none is stale. */
  lemma {:induction false} StaleEntries(cfg: Config, es: seq<Event>)
    ensures var s := After(cfg, es);
            && (forall id | id !in s.statusIds :: id in Stale(s) <==> AnsweredEarly(s, Early(cfg, es), id))
            && (s.statusIds == {} && Mid(s.receiver).None? && !s.main.Discounting? ==>
                  && |Stale(s)| == Misses(cfg, es)
                  && s.ledger.active == |s.table| - |Stale(s)|
                  && (s.ledger.active == |s.table| <==> Stale(s) == {}))
  {
    StaleIdsRun(cfg, es);
    if After(cfg, es).statusIds == {} && Mid(After(cfg, es).receiver).None? && !After(cfg, es).main.Discounting? {
      StaleNumbers(cfg, es);
    }
  }

  lemma {:induction false} StaleIdsRun(cfg: Config, es: seq<Event>)
    ensures forall id | id !in After(cfg, es).statusIds ::
              id in Stale(After(cfg, es)) <==> AnsweredEarly(After(cfg, es), Early(cfg, es), id)
  {
    RunInv(cfg, es);
    EntriesRun(cfg, es);
    StaleIds(cfg, After(cfg, es), Early(cfg, es));
  }

  lemma {:induction false} StaleNumbers(cfg: Config, es: seq<Event>)
    requires var s := After(cfg, es); s.statusIds == {} && Mid(s.receiver).None? && !s.main.Discounting?
    ensures var s := After(cfg, es);
            && |Stale(s)| == Misses(cfg, es) && s.ledger.active == |s.table| - |Stale(s)|
            && (s.ledger.active == |s.table| <==> Stale(s) == {})
  {
    RunInv(cfg, es);
    EntriesRun(cfg, es);
    ActiveAgainstMap(cfg, es);
    ActiveLedger(cfg, es);
    StaleCount(cfg, After(cfg, es), Early(cfg, es));
  }

  lemma StaleIds(cfg: Config, s: Server, early: set<nat>)
    requires Known(s.byId, s.tasks) && TableOk(s) && Entries(s, early)
    ensures forall id | id !in s.statusIds :: id in Stale(s) <==> AnsweredEarly(s, early, id)
  {
    forall id | id !in s.statusIds ensures id in Stale(s) <==> AnsweredEarly(s, early, id) {
      if id in Stale(s) { assert EntryOk(s, early, s.table[id]); }
      if AnsweredEarly(s, early, id) {
        var h :| h in s.ledger.finished && h < |s.tasks| && s.tasks[h].id == id && Stored(s.receiver, h) && h in early;
        assert EntryOk(s, early, h);
      }
    }
  }

  lemma StaleCount(cfg: Config, s: Server, early: set<nat>)
    requires Tasks(cfg, s) && Counts(s) && Entries(s, early) && s.statusIds == {} && Mid(s.receiver).None? && !s.main.Discounting?
    ensures |s.table| == |Stale(s)| + |s.ledger.counted - s.ledger.finished|
  {
    Unfinished(cfg, s, early);
    LiveCount(s, s.table.Keys - Stale(s));
    assert Stale(s) <= s.table.Keys;
  }

  lemma LiveCount(s: Server, live: set<uint32>)
    requires Known(s.byId, s.tasks) && TableOk(s) && live == s.table.Keys - Stale(s)
    requires forall h :: h in s.ledger.counted <==> 0 <= h < |s.tasks|
    requires forall h | 0 <= h < |s.tasks| && h !in s.ledger.finished :: s.tasks[h].id in s.table && s.table[s.tasks[h].id] == h
    ensures |live| == |s.ledger.counted - s.ledger.finished|
  {
    forall h | h in s.ledger.counted - s.ledger.finished ensures exists id :: id in live && s.table[id] == h {
      assert s.tasks[h].id in live;
    }
    SameSize(live, s.ledger.counted - s.ledger.finished, s.table);
  }

  lemma Unfinished(cfg: Config, s: Server, early: set<nat>)
    requires Tasks(cfg, s) && Entries(s, early) && s.statusIds == {} && Mid(s.receiver).None? && !s.main.Discounting?
    ensures forall h | 0 <= h < |s.tasks| && h !in s.ledger.finished :: s.tasks[h].id in s.table && s.table[s.tasks[h].id] == h
  {
    forall h | 0 <= h < |s.tasks| && h !in s.ledger.finished ensures s.tasks[h].id in s.table {
      assert EntryOk(s, early, h);
    }
  }

  // ---------------------------------------------------------------- a stale entry

  lemma StatusIdsGrow(cfg: Config, s: Server, e: Event)
    ensures s.statusIds <= Apply(cfg, s, e).statusIds && s.ledger.finished <= Apply(cfg, s, e).ledger.finished
  {
    match e
    case Recv(re) => ReceiverNobodyGone(cfg, s, re); ReceiverStatusIds(cfg, s, re);
    case Method(h, te) => TaskKeepsRest(cfg, s, h, te);
    case Respond(me) => MainStatusIds(cfg, s, me); MainFinishes(cfg, s, me);
    case CloseServerConn =>
  }

  lemma MainFinishes(cfg: Config, s: Server, me: MainEvent)
    ensures s.ledger.finished <= DoMain(cfg, s, me).ledger.finished
  {
  }

  lemma ReceiverStatusIds(cfg: Config, s: Server, re: ReceiverEvent)
    ensures s.statusIds <= DoReceiver(cfg, s, re).statusIds
  {
    if re.Dispatch? {
      if s.receiver.Got? {
        var m := s.receiver.m;
        DispatchCases(cfg, s, re.budget);
        if !Unacceptable(m) && m.frame.typ == DATA { DataEffects(Noted(s), m); }
        else if !Unacceptable(m) && m.frame.typ == REQUEST { RequestEffects(cfg, Noted(s), m, re.budget); }
      }
    } else if !re.Offer? && !re.FinishData? {
      ReceiverKept(cfg, s, re);
    }
  }

  lemma StaleMain(cfg: Config, s: Server, me: MainEvent, id: uint32)
    requires Tasks(cfg, s) && Statuses(s) && Closes(s) && HeldOwn(s)
    requires id in Stale(s) && id !in s.statusIds
    ensures var s' := DoMain(cfg, s, me); id in s'.table && s'.table[id] == s.table[id]
  {
    MainTable(cfg, s, me);
    if me.Forget? && s.main.Forgetting? && s.main.o.id == id {
      assert false;
    }
  }

  lemma StaleReceiver(cfg: Config, s: Server, re: ReceiverEvent, id: uint32)
    requires Unstored(s) && id in s.table
    ensures var s' := DoReceiver(cfg, s, re); id in s'.table && s'.table[id] == s.table[id]
  {
    if re.Dispatch? { if s.receiver.Got? { BalancedDispatch(cfg, s, re.budget); } }
    else if !re.Store? && !re.Count? { BalancedQuiet(cfg, s, re); }
  }

  lemma StaleStep(cfg: Config, s: Server, e: Event, id: uint32)
    requires Inv(cfg, s) && HeldOwn(s) && Unstored(s) && id in Stale(s) && id !in s.statusIds
    ensures id in Stale(Apply(cfg, s, e))
  {
    StatusIdsGrow(cfg, s, e);
    match e
    case Recv(re) => StaleReceiver(cfg, s, re, id);
    case Method(h, te) => PlainTask(cfg, s, h, te);
    case Respond(me) => StaleMain(cfg, s, me, id);
    case CloseServerConn =>
  }

  /** A stale entry is there for good, in every continuation, unless sendStatus is used for its id. */
  lemma {:induction false} StaleStays(cfg: Config, es: seq<Event>, more: seq<Event>, id: uint32)
    requires id in Stale(After(cfg, es)) && id !in After(cfg, es + more).statusIds
    ensures id in Stale(After(cfg, es + more))
    decreases |more|
  {
    if more == [] {
      assert es + more == es;
    } else {
      var n := |more| - 1;
      var before := es + more[..n];
      assert es + more == before + [more[n]];
      AfterSnoc(cfg, before, more[n]);
      StatusIdsGrow(cfg, After(cfg, before), more[n]);
      StaleStays(cfg, es, more[..n], id);
      RunInv(cfg, before);
      EntriesRun(cfg, before);
      BalancedRun(cfg, before);
      StaleStep(cfg, After(cfg, before), more[n], id);
    }
  }

  // ---------------------------------------------------------------- a run that leaves one

  /** A unary method has been started and its stream not yet stored. */
  predicate JustStarted(s: Server) {
    && |s.tasks| == 1 && s.tasks[0].id == 1 && s.tasks[0].kind.Unary? && s.tasks[0].pc.Running?
    && s.receiver == Storing(0) && s.main.Looping? && s.table == map[] && !s.w.broken
    && s.ledger == Init().ledger && s.statusIds == {}
  }

  lemma {:induction false} StartRun(cfg: Config, req: Req) returns (es: seq<Event>)
    requires cfg.Lawful() && cfg.kindOf(req.service, req.name) == Some(Unary) && |cfg.reqEnc(req)| <= MAX_LENGTH
    ensures JustStarted(After(cfg, es))
  {
    var f := Frame(1, REQUEST, 0, cfg.reqEnc(req));
    var read := [Recv(Loop)] + [Recv(ReadFrame(f))];
    es := read + [Recv(Dispatch(0))];
    ReadRun(cfg, f);
    AfterSnoc(cfg, read, Recv(Dispatch(0)));
    assert cfg.reqDec(cfg.reqEnc(req)) == Some(req);
    UnaryStarts(cfg, After(cfg, read), f, req);
  }

  lemma {:induction false} ReadRun(cfg: Config, f: Frame)
    ensures After(cfg, [Recv(Loop)] + [Recv(ReadFrame(f))]) == Init().(receiver := Got(Msg(f, 0)))
  {
    AfterSnoc(cfg, [], Recv(Loop));
    assert [] + [Recv(Loop)] == [Recv(Loop)];
    AfterSnoc(cfg, [Recv(Loop)], Recv(ReadFrame(f)));
  }

  lemma UnaryStarts(cfg: Config, s: Server, f: Frame, req: Req)
    requires s == Init().(receiver := Got(Msg(f, 0))) && f.sid == 1 && f.typ == REQUEST && |f.payload| <= MAX_LENGTH
    requires cfg.reqDec(f.payload) == Some(req) && cfg.kindOf(req.service, req.name) == Some(Unary)
    ensures JustStarted(DoDispatch(cfg, s, 0))
  {
    var m := Msg(f, 0);
    assert DoDispatch(cfg, s, 0) == DispatchRequest(cfg, Noted(s), m, 0);
  }

  /** It has failed and its response has been taken, with its stream still not stored. */
  predicate Answered(s: Server, o: Out) {
    && s.receiver == Storing(0) && s.table == map[] && s.statusIds == {} && s.ledger == Init().ledger && !s.w.broken
    && |s.tasks| == 1 && s.tasks[0].id == 1 && s.main == Have(o, Some(0)) && o == Out(1, UNKNOWN, None, true, false)
  }

  lemma {:induction false} AnswerRun(cfg: Config, es: seq<Event>, o: Out) returns (more: seq<Event>)
    requires JustStarted(After(cfg, es)) && o == Out(1, UNKNOWN, None, true, false)
    ensures Answered(After(cfg, more), o)
  {
    var e1 := es + [Method(0, Finish(UNKNOWN, None))];
    var e2 := e1 + [Respond(Look)];
    more := e2 + [Respond(TakeFrom(0))];
    AfterSnoc(cfg, es, Method(0, Finish(UNKNOWN, None)));
    assert After(cfg, e1).tasks[0].pc == Final(o);
    AfterSnoc(cfg, e1, Respond(Look));
    AfterSnoc(cfg, e2, Respond(TakeFrom(0)));
    assert After(cfg, more).main == Have(o, Some(0));
  }

  /** The response is processed before the receiver has stored the stream. */
  lemma {:induction false} EarlyRun(cfg: Config, es: seq<Event>) returns (more: seq<Event>)
    requires JustStarted(After(cfg, es)) && |cfg.respEnc(Resp(UNKNOWN, []))| <= MAX_LENGTH
    ensures var s := After(cfg, more);
            && s.receiver == Storing(0) && s.main.Looping? && s.table == map[] && s.statusIds == {}
            && s.ledger.active == -1 && s.ledger.finished == {0} && |s.tasks| == 1 && s.tasks[0].id == 1
  {
    var o := Out(1, UNKNOWN, None, true, false);
    var fate := Fate(|EncodeFrame(FrameOf(cfg, o))|, false);
    var e3 := AnswerRun(cfg, es, o);
    var e4 := e3 + [Respond(Write(fate))];
    var e5 := e4 + [Respond(Forget)];
    more := e5 + [Respond(Discount)];
    AfterSnoc(cfg, e3, Respond(Write(fate)));
    assert After(cfg, e4).main == Forgetting(o, Some(0));
    AfterSnoc(cfg, e4, Respond(Forget));
    AfterSnoc(cfg, e5, Respond(Discount));
  }

  /** `active` is not the number of streams in the map, even on a run without sendStatus and with nothing
      under way: a unary method that answers before its stream is stored leaves a stale entry behind. */
  lemma ActiveIsNotMapSize(cfg: Config, req: Req)
    requires cfg.Lawful() && cfg.kindOf(req.service, req.name) == Some(Unary)
    requires |cfg.reqEnc(req)| <= MAX_LENGTH && |cfg.respEnc(Resp(UNKNOWN, []))| <= MAX_LENGTH
    ensures exists es :: var s := After(cfg, es);
              && s.statusIds == {} && s.receiver.Top? && s.main.Looping?
              && s.ledger.active == 0 && s.table == map[1 := 0] && Stale(s) == {1}
  {
    var started := StartRun(cfg, req);
    var early := EarlyRun(cfg, started);
    var stored := early + [Recv(Store)];
    AfterSnoc(cfg, early, Recv(Store));
    AfterSnoc(cfg, stored, Recv(Count));
    var s := After(cfg, stored + [Recv(Count)]);
    assert s.table == map[1 := 0] && s.ledger.active == 0;
    assert s.statusIds == {} && s.receiver.Top? && s.main.Looping? && Stale(s) == {1};
  }
}
