/** A method's input against what the client sent for its stream, and the receive buffers on the server. */
module ServerInputs {
  import opened Types
  import opened StreamQueue
  import opened ServerEngine
  import opened ServerTasks
  import opened ServerIo
  import opened ServerLedger

  /** The data messages of one stream, as items. */
  function DataOf(ms: seq<Msg>, id: uint32): seq<Item> {
    if ms == [] then [] else
      var m := ms[|ms| - 1];
      DataOf(ms[..|ms| - 1], id) + (if IsData(m) && m.frame.sid == id then [Item(m.frame.payload, Some(m.tok))] else [])
  }

  lemma DataOfSnoc(ms: seq<Msg>, m: Msg, id: uint32)
    ensures DataOf(ms + [m], id) ==
            DataOf(ms, id) + (if IsData(m) && m.frame.sid == id then [Item(m.frame.payload, Some(m.tok))] else [])
  {
    assert (ms + [m])[..|ms|] == ms;
  }

  /** The request's own payload, where the method gets it, and then all data that came after the request. */
  function ClientData(t: Task, received: seq<Msg>): seq<Item>
    requires t.at < |received|
  {
    (if HasInitialData(t) then [InitialItem(t)] else []) + DataOf(received[t.at + 1..], t.id)
  }

  lemma SentMore(t: Task, received: seq<Msg>, m: Msg)
    requires t.at < |received|
    ensures ClientData(t, received + [m]) ==
            ClientData(t, received) + (if IsData(m) && m.frame.sid == t.id then [Item(m.frame.payload, Some(m.tok))] else [])
  {
    assert (received + [m])[t.at + 1..] == received[t.at + 1..] + [m];
    DataOfSnoc(received[t.at + 1..], m, t.id);
  }

  ghost predicate InputOk(t: Task, received: seq<Msg>, gone: bool) {
    && t.at < |received|
    && t.offered <= ClientData(t, received)
    && (!t.missed ==> t.offered == ClientData(t, received))
    && (t.missed ==> gone)
  }

  /** The stream has left the map for good. */
  predicate GoneFor(s: Server, h: nat)
    requires h < |s.tasks|
  {
    s.tasks[h].id !in s.table && Mid(s.receiver) != Some(h)
  }

  ghost predicate Inputs(s: Server) {
    forall h | 0 <= h < |s.tasks| && s.tasks[h].kind.Streaming? :: InputOk(s.tasks[h], s.received, GoneFor(s, h))
  }

  /** A step that offers nothing and stores no stream but the one being started. */
  ghost predicate InputKept(s: Server, s': Server) {
    && |s'.tasks| == |s.tasks| && s'.received == s.received
    && (forall h | 0 <= h < |s.tasks| ::
          && Same(s.tasks[h], s'.tasks[h])
          && s'.tasks[h].offered == s.tasks[h].offered && s'.tasks[h].missed == s.tasks[h].missed
          && (GoneFor(s, h) ==> GoneFor(s', h)))
  }

  lemma InputsKept(s: Server, s': Server)
    requires Inputs(s) && InputKept(s, s')
    ensures Inputs(s')
  {
    forall h | 0 <= h < |s'.tasks| && s'.tasks[h].kind.Streaming?
      ensures InputOk(s'.tasks[h], s'.received, GoneFor(s', h))
    {
      assert InputOk(s.tasks[h], s.received, GoneFor(s, h));
      assert Same(s.tasks[h], s'.tasks[h]);
      assert ClientData(s'.tasks[h], s'.received) == ClientData(s.tasks[h], s.received);
    }
  }

  lemma OfferedMore(t: Task, received: seq<Msg>, m: Msg, gone: bool)
    requires InputOk(t, received, false) && IsData(m) && m.frame.sid == t.id
    ensures InputOk(OfferTo(t, Item(m.frame.payload, Some(m.tok))), received + [m], gone)
  {
    var t' := OfferTo(t, Item(m.frame.payload, Some(m.tok)));
    SentMore(t, received, m);
    assert ClientData(t', received + [m]) == ClientData(t, received + [m]);
  }

  lemma MissedMore(t: Task, received: seq<Msg>, m: Msg, gone: bool)
    requires InputOk(t, received, gone)
    ensures InputOk(t.(missed := true), received + [m], true)
  {
    SentMore(t, received, m);
    assert ClientData(t.(missed := true), received + [m]) == ClientData(t, received + [m]);
  }

  lemma UnrelatedMore(t: Task, received: seq<Msg>, m: Msg, gone: bool, gone': bool)
    requires InputOk(t, received, gone) && !(IsData(m) && m.frame.sid == t.id) && (gone ==> gone')
    ensures InputOk(t, received + [m], gone')
  {
    SentMore(t, received, m);
  }

  lemma InputsMissed(cfg: Config, s: Server, s': Server)
    requires Tasks(cfg, s) && Inputs(s) && s.receiver.Got?
    requires s.receiver.m.frame.typ == DATA && s.receiver.m.frame.sid !in s.table
    requires DataEffect(Noted(s), s', s.receiver.m)
    ensures Inputs(s')
  {
    var m := s.receiver.m;
    MissedTasks(s, s');
    forall h | 0 <= h < |s'.tasks| && s'.tasks[h].kind.Streaming?
      ensures InputOk(s'.tasks[h], s'.received, GoneFor(s', h))
    {
      assert InputOk(s.tasks[h], s.received, GoneFor(s, h));
      if IsData(m) && m.frame.sid == s.tasks[h].id {
        MissedMore(s.tasks[h], s.received, m, GoneFor(s, h));
      } else {
        UnrelatedMore(s.tasks[h], s.received, m, GoneFor(s, h), GoneFor(s', h));
      }
    }
  }

  /** Data for a stream that has left the map is noted with the goroutine the stream had. */
  lemma MissedTasks(s: Server, s': Server)
    requires Known(s.byId, s.tasks) && s.receiver.Got? && s.receiver.m.frame.sid !in s.table
    requires DataEffect(Noted(s), s', s.receiver.m)
    ensures |s'.tasks| == |s.tasks| && s'.received == s.received + [s.receiver.m]
    ensures forall h | 0 <= h < |s.tasks| ::
              && s'.tasks[h] == (if IsData(s.receiver.m) && s.receiver.m.frame.sid == s.tasks[h].id
                                 then s.tasks[h].(missed := true) else s.tasks[h])
              && (GoneFor(s, h) ==> GoneFor(s', h))
              && (s.receiver.m.frame.sid == s.tasks[h].id ==> GoneFor(s', h))
  {
  }

  lemma InputsOffered(cfg: Config, s: Server, s': Server)
    requires Tasks(cfg, s) && Inputs(s) && s.receiver.Got?
    requires s.receiver.m.frame.typ == DATA && s.receiver.m.frame.sid in s.table && !Unacceptable(s.receiver.m)
    requires DataEffect(Noted(s), s', s.receiver.m)
    ensures Inputs(s')
  {
    var m := s.receiver.m;
    forall h | 0 <= h < |s'.tasks| && s'.tasks[h].kind.Streaming?
      ensures InputOk(s'.tasks[h], s'.received, GoneFor(s', h))
    {
      assert InputOk(s.tasks[h], s.received, GoneFor(s, h));
      if IsData(m) && m.frame.sid == s.tasks[h].id {
        OfferedMore(s.tasks[h], s.received, m, GoneFor(s', h));
      } else {
        UnrelatedMore(s.tasks[h], s.received, m, GoneFor(s, h), GoneFor(s', h));
      }
    }
  }

  /** A message that is no data for anyone. */
  lemma InputsOther(cfg: Config, s: Server, s': Server)
    requires Tasks(cfg, s) && Inputs(s) && s.receiver.Got? && !IsData(s.receiver.m)
    requires s'.tasks == s.tasks && s'.received == s.received + [s.receiver.m] && s'.table == s.table
    requires Mid(s'.receiver).None?
    ensures Inputs(s')
  {
    forall h | 0 <= h < |s'.tasks| && s'.tasks[h].kind.Streaming?
      ensures InputOk(s'.tasks[h], s'.received, GoneFor(s', h))
    {
      assert InputOk(s.tasks[h], s.received, GoneFor(s, h));
      SentMore(s.tasks[h], s.received, s.receiver.m);
    }
  }

  lemma InputsEven(cfg: Config, s: Server, s': Server)
    requires Tasks(cfg, s) && Inputs(s) && s.receiver.Got? && s.receiver.m.frame.sid % 2 != 1
    requires s'.tasks == s.tasks && s'.received == s.received + [s.receiver.m] && s'.table == s.table
    requires Mid(s'.receiver).None?
    ensures Inputs(s')
  {
    forall h | 0 <= h < |s'.tasks| && s'.tasks[h].kind.Streaming?
      ensures InputOk(s'.tasks[h], s'.received, GoneFor(s', h))
    {
      assert InputOk(s.tasks[h], s.received, GoneFor(s, h));
      SentMore(s.tasks[h], s.received, s.receiver.m);
    }
  }

  lemma InputsRequest(cfg: Config, s: Server, s': Server)
    requires Tasks(cfg, s) && Inputs(s) && s.receiver.Got?
    requires s.receiver.m.frame.typ == REQUEST
    requires RequestEffect(cfg, Noted(s), s', s.receiver.m)
    ensures Inputs(s')
  {
    var m := s.receiver.m;
    forall h | 0 <= h < |s'.tasks| && s'.tasks[h].kind.Streaming?
      ensures InputOk(s'.tasks[h], s'.received, GoneFor(s', h))
    {
      if h < |s.tasks| {
        assert s'.tasks[h] == s.tasks[h];
        assert InputOk(s.tasks[h], s.received, GoneFor(s, h));
        SentMore(s.tasks[h], s.received, m);
      } else {
        assert s'.received[s'.tasks[h].at + 1..] == [];
      }
    }
  }

  lemma InputsDispatch(cfg: Config, s: Server, budget: nat)
    requires Tasks(cfg, s) && Inputs(s)
    ensures Inputs(DoDispatch(cfg, s, budget))
  {
    if s.receiver.Got? {
      var m := s.receiver.m;
      var s' := DoDispatch(cfg, s, budget);
      DispatchCases(cfg, s, budget);
      if Unacceptable(m) {
        if m.frame.sid % 2 != 1 { InputsEven(cfg, s, s'); } else { InputsOther(cfg, s, s'); }
      } else if m.frame.typ == DATA {
        DataEffects(Noted(s), m);
        if m.frame.sid in s.table { InputsOffered(cfg, s, s'); } else { InputsMissed(cfg, s, s'); }
      } else if m.frame.typ == REQUEST {
        RequestEffects(cfg, Noted(s), m, budget);
        InputsRequest(cfg, s, s');
      } else {
        InputsOther(cfg, s, s');
      }
    }
  }

  lemma AffectOffers(t: Task, item: Item, v: Verdict)
    ensures var t' := Affect(t, item, v); Same(t, t') && t'.offered == t.offered && t'.missed == t.missed
  {
  }

  lemma InputsOffer(cfg: Config, s: Server, choice: Choice)
    requires Inputs(s)
    ensures Inputs(DoOffer(s, choice))
  {
    if s.receiver.Offering? && s.receiver.h < |s.tasks| {
      var t := s.tasks[s.receiver.h];
      AffectOffers(t, s.receiver.item, Decide(t, s.receiver.stage, choice));
      InputsKept(s, DoOffer(s, choice));
    }
  }

  lemma QuietMid(cfg: Config, s: Server, re: ReceiverEvent)
    requires !re.Dispatch? && !re.Offer? && !re.FinishData? && !re.Store?
    ensures var s' := DoReceiver(cfg, s, re);
            && s'.tasks == s.tasks && s'.table == s.table && s'.received == s.received
            && (Mid(s'.receiver).None? || Mid(s'.receiver) == Mid(s.receiver))
  {
  }

  lemma InputsQuiet(cfg: Config, s: Server, s': Server)
    requires s'.tasks == s.tasks && s'.table == s.table && s'.received == s.received
    requires Mid(s'.receiver).None? || Mid(s'.receiver) == Mid(s.receiver)
    ensures InputKept(s, s')
  {
  }

  lemma InputsStore(cfg: Config, s: Server)
    requires Tasks(cfg, s)
    ensures InputKept(s, DoStore(s))
  {
  }

  lemma InputsFinishData(s: Server)
    ensures InputKept(s, DoFinishData(s))
  {
  }

  lemma InputsReceiver(cfg: Config, s: Server, re: ReceiverEvent)
    requires Tasks(cfg, s) && Inputs(s)
    ensures Inputs(DoReceiver(cfg, s, re))
  {
    if re.Dispatch? { InputsDispatch(cfg, s, re.budget); }
    else if re.Offer? { InputsOffer(cfg, s, re.choice); }
    else {
      if re.FinishData? { InputsFinishData(s); }
      else if re.Store? { InputsStore(cfg, s); }
      else { QuietMid(cfg, s, re); InputsQuiet(cfg, s, DoReceiver(cfg, s, re)); }
      InputsKept(s, DoReceiver(cfg, s, re));
    }
  }

  lemma InputsTask(cfg: Config, s: Server, h: nat, te: TaskEvent)
    requires Inputs(s)
    ensures Inputs(DoTask(cfg, s, h, te))
  {
    if h < |s.tasks| && TaskCan(cfg, s.tasks[h], te, s.main.Ended?) {
      TaskStepSame(cfg, s.tasks[h], te, s.main.Ended?);
      InputsKept(s, DoTask(cfg, s, h, te));
    }
  }

  lemma InputsMain(cfg: Config, s: Server, me: MainEvent)
    requires Inputs(s) && s.w.Valid()
    ensures Inputs(DoMain(cfg, s, me))
  {
    if me.Write? {
      if s.main.Have? { WriteEffects(cfg, s, me.fate); InputsWrite(cfg, s, DoWrite(cfg, s, me.fate)); }
    } else if me.TakeFrom? {
      InputsKept(s, DoTakeFrom(s, me.h));
    } else {
      MainKeepsTasks(cfg, s, me);
      MainTable(cfg, s, me);
      InputsMainKept(cfg, s, DoMain(cfg, s, me));
    }
  }

  lemma InputsWrite(cfg: Config, s: Server, s': Server)
    requires Inputs(s) && s.main.Have? && WriteEffect(cfg, s, s')
    ensures Inputs(s')
  {
    InputsKept(s, s');
  }

  lemma InputsMainKept(cfg: Config, s: Server, s': Server)
    requires Inputs(s) && TasksKept(s, s') && (forall id | id in s'.table :: id in s.table)
    ensures Inputs(s')
  {
    InputsKept(s, s');
  }

  // ---------------------------------------------------------------- where a method's data comes from

  predicate DataFor(m: Msg, id: uint32) { m.frame.typ == DATA && m.frame.sid == id }
}
