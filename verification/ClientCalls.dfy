/** What receive calls return, as a function of the messages they took. */
module ClientCalls {
  import opened Types
  import opened StreamQueue
  import opened ClientEngine
  import opened ClientTable

  function ObjectOf(r: Outcome): seq<bytes> { if r.Object? then [r.data] else [] }

  /** The objects among the results, in order. */
  function Objects(rs: seq<Outcome>): seq<bytes> {
    if rs == [] then [] else Objects(rs[..|rs| - 1]) + ObjectOf(rs[|rs| - 1])
  }

  /** The objects that the messages carry, in order. */
  function Decoded(cfg: Config, kind: Kind, fs: seq<Frame>): seq<bytes> {
    if fs == [] then [] else
      Decoded(cfg, kind, fs[..|fs| - 1]) + ObjectOf(Judge(cfg, kind, fs[|fs| - 1]).result)
  }

  lemma ObjectsSnoc(rs: seq<Outcome>, r: Outcome)
    ensures Objects(rs + [r]) == Objects(rs) + ObjectOf(r)
  {
    assert (rs + [r])[..|rs|] == rs;
  }

  lemma DecodedSnoc(cfg: Config, kind: Kind, fs: seq<Frame>, f: Frame)
    ensures Decoded(cfg, kind, fs + [f]) == Decoded(cfg, kind, fs) + ObjectOf(Judge(cfg, kind, f).result)
  {
    assert (fs + [f])[..|fs|] == fs;
  }

  /** The result a call has settled on while it deletes the stream. */
  predicate Ending(pc: Consumer) { pc.Unlinking? || pc.Closing? }

  function Pending(pc: Consumer): seq<Outcome> { if Ending(pc) then [pc.result] else [] }

  /** The messages the consumer has finished with. */
  function Finished(e: Entry): seq<Frame> {
    if e.pc.Handling? && e.taken != [] then Frames(e.taken[..|e.taken| - 1]) else Frames(e.taken)
  }

  /** The messages after which the stream went on. */
  function Passed(e: Entry): seq<Msg> {
    if e.taken != [] && (e.remoteClosed || e.pc.Handling? || Ending(e.pc)) then e.taken[..|e.taken| - 1] else e.taken
  }

  predicate NoneEnds(cfg: Config, kind: Kind, ms: seq<Msg>) {
    forall m | m in ms :: !Judge(cfg, kind, m.frame).unlink
  }

  /** What a stream's RecvMsg makes of each message: the object of a successful response or of data, io.EOF for
      the end of a stream without data, and else an error, with the status of a response that has failed. */
  function StreamOutcome(cfg: Config, kind: Kind, f: Frame): Outcome
    requires kind.Streaming?
  {
    if f.typ == 2 then
      var r := cfg.respDec(f.payload);
      if r.None? || !cfg.objOk(r.value.payload) then Failed(ErrDecode)
      else if r.value.code == 0 then Object(r.value.payload) else Failed(ErrStatus(r.value.code))
    else if f.typ != 3 || !kind.server then Failed(ErrProtocol)
    else if f.flags % 2 == 1 && (f.flags / 4) % 2 == 1 then Eof
    else if cfg.objOk(f.payload) then Object(f.payload) else Failed(ErrDecode)
  }

  /** Each message finished with has had its outcome returned. */
  predicate Reported(cfg: Config, kind: Kind, fs: seq<Frame>, rs: seq<Outcome>) {
    kind.Streaming? ==> forall f | f in fs :: StreamOutcome(cfg, kind, f) in rs
  }

  lemma OutcomeIsJudged(cfg: Config, kind: Kind, f: Frame)
    requires kind.Streaming?
    ensures Judge(cfg, kind, f).result == StreamOutcome(cfg, kind, f)
  {
  }

  lemma NoneEndsMore(cfg: Config, kind: Kind, ms: seq<Msg>)
    requires ms != [] && NoneEnds(cfg, kind, ms[..|ms| - 1]) && !Judge(cfg, kind, ms[|ms| - 1].frame).unlink
    ensures NoneEnds(cfg, kind, ms)
  {
    assert ms == ms[..|ms| - 1] + [ms[|ms| - 1]];
  }

  ghost predicate StreamCallOk(cfg: Config, e: Entry) {
    && Objects(e.results + Pending(e.pc)) == Decoded(cfg, e.kind, Finished(e))
    && (e.remoteClosed || Ending(e.pc) ==> e.taken != [] && Judge(cfg, e.kind, LastTaken(e).frame).unlink)
    && (Ending(e.pc) ==> Judge(cfg, e.kind, LastTaken(e).frame).result == e.pc.result)
    && (Eof in e.results ==> e.remoteClosed)
    && (e.remoteClosed ==> e.pc.Idle? && Judge(cfg, e.kind, LastTaken(e).frame).result in e.results)
    && (!e.opening.Opened? ==> e.taken == [] && e.results == [] && !e.remoteClosed)
    && (e.pc.Handling? ==> e.taken != [])
    && NoneEnds(cfg, e.kind, Passed(e))
    && Reported(cfg, e.kind, Finished(e), e.results + Pending(e.pc))
  }

  /** What dispatch makes of the message it takes: it fails unless the message is a response that decodes, and
      returns any such response, whatever its status. */
  function UnaryOutcome(cfg: Config, f: Frame): Outcome {
    if f.typ != 2 then Failed(ErrProtocol)
    else if cfg.respDec(f.payload).None? then Failed(ErrDecode)
    else Reply(cfg.respDec(f.payload).value)
  }

  /** dispatch takes at most one message and returns once; what it makes of the message, if it has taken one. */
  ghost predicate UnaryCallOk(cfg: Config, e: Entry) {
    && |e.results + Pending(e.pc)| <= 1
    && (e.pc.Idle? || e.pc.Waiting? || e.pc.SawClosed? ==> e.taken == [] && e.results == [])
    && (e.pc.Handling? ==> |e.taken| == 1 && e.results == [])
    && |e.taken| <= 1
    && (forall r | r in e.results + Pending(e.pc) :: if e.taken == [] then r.Failed? else r == UnaryOutcome(cfg, e.taken[0].frame))
    && (!e.opening.Opened? ==> e.taken == [] && e.results == [])
  }

  ghost predicate CallOk(cfg: Config, e: Entry) {
    if e.kind.Unary? then UnaryCallOk(cfg, e) else StreamCallOk(cfg, e)
  }

  ghost predicate Calls(cfg: Config, c: Client) {
    forall k | 0 <= k < |c.entries| :: CallOk(cfg, c.entries[k])
  }

  lemma FramesSnoc(ms: seq<Msg>)
    requires ms != []
    ensures Frames(ms) == Frames(ms[..|ms| - 1]) + [ms[|ms| - 1].frame]
  {
  }

  /** A receive call that returns without deleting the stream. */
  lemma GiveOk(cfg: Config, e: Entry, r: Outcome)
    requires e.kind.Streaming? && StreamCallOk(cfg, e) && e.opening.Opened?
    requires e.pc.Waiting? || e.pc.SawClosed? || (e.pc.Handling? && !Judge(cfg, e.kind, LastTaken(e).frame).unlink
                                                  && r == Judge(cfg, e.kind, LastTaken(e).frame).result)
    requires !e.pc.Handling? ==> r.Failed?
    requires r != Eof
    ensures StreamCallOk(cfg, Give(e, r))
  {
    if e.pc.Handling? { GiveHandledOk(cfg, e, r); } else { AddsNothing(e.results, r); }
  }

  lemma GiveHandledOk(cfg: Config, e: Entry, r: Outcome)
    requires e.opening.Opened? && e.pc.Handling? && e.taken != [] && !e.remoteClosed && r != Eof && Eof !in e.results
    requires Objects(e.results + []) == Decoded(cfg, e.kind, Frames(e.taken[..|e.taken| - 1]))
    requires r == Judge(cfg, e.kind, LastTaken(e).frame).result && !Judge(cfg, e.kind, LastTaken(e).frame).unlink
    requires NoneEnds(cfg, e.kind, e.taken[..|e.taken| - 1])
    requires Reported(cfg, e.kind, Frames(e.taken[..|e.taken| - 1]), e.results + [])
    ensures StreamCallOk(cfg, e.(pc := Idle, results := e.results + [r]))
  {
    var e' := e.(pc := Idle, results := e.results + [r]);
    HandledObjects(cfg, e.kind, e.results, e.taken, r);
    NoneEndsMore(cfg, e.kind, e.taken);
    ReportedMore(cfg, e.kind, e.results, e.taken, r);
    assert Finished(e') == Frames(e.taken) && Passed(e') == e.taken && Eof !in e'.results;
    assert Objects(e'.results + Pending(e'.pc)) == Decoded(cfg, e.kind, Finished(e'));
  }

  /** One more message handled is one more result. */
  lemma HandledObjects(cfg: Config, kind: Kind, rs: seq<Outcome>, taken: seq<Msg>, r: Outcome)
    requires taken != [] && r == Judge(cfg, kind, taken[|taken| - 1].frame).result
    requires Objects(rs + []) == Decoded(cfg, kind, Frames(taken[..|taken| - 1]))
    ensures Objects(rs + [r] + []) == Decoded(cfg, kind, Frames(taken))
    ensures Objects(rs + [r]) == Decoded(cfg, kind, Frames(taken))
  {
    assert rs + [] == rs && rs + [r] + [] == rs + [r];
    ObjectsSnoc(rs, r);
    FramesSnoc(taken);
    DecodedSnoc(cfg, kind, Frames(taken[..|taken| - 1]), taken[|taken| - 1].frame);
  }

  lemma ReportedMore(cfg: Config, kind: Kind, rs: seq<Outcome>, taken: seq<Msg>, r: Outcome)
    requires taken != [] && r == Judge(cfg, kind, taken[|taken| - 1].frame).result
    requires Reported(cfg, kind, Frames(taken[..|taken| - 1]), rs + [])
    ensures Reported(cfg, kind, Frames(taken), rs + [r]) && Reported(cfg, kind, Frames(taken), rs + [r] + [])
  {
    FramesSnoc(taken);
    if kind.Streaming? {
      OutcomeIsJudged(cfg, kind, taken[|taken| - 1].frame);
      forall f | f in Frames(taken) ensures StreamOutcome(cfg, kind, f) in rs + [r] {
        if f in Frames(taken[..|taken| - 1]) { assert StreamOutcome(cfg, kind, f) in rs + []; }
      }
      assert rs + [r] + [] == rs + [r];
    }
  }

  /** An outcome that is no object leaves the objects as they are. */
  lemma AddsNothing(rs: seq<Outcome>, r: Outcome)
    requires ObjectOf(r) == []
    ensures Objects(rs + [r] + []) == Objects(rs + [])
  {
    ObjectsSnoc(rs, r);
    assert rs + [] == rs && rs + [r] + [] == rs + [r];
    assert Objects(rs) + [] == Objects(rs);
  }

  /** Ordinary results keep the stream; io.EOF never comes without deleting it. */
  lemma EofUnlinks(cfg: Config, kind: Kind, f: Frame)
    ensures Judge(cfg, kind, f).result == Eof ==> Judge(cfg, kind, f).unlink
  {
  }

  lemma StreamHandleOk(cfg: Config, e: Entry)
    requires e.kind.Streaming? && StreamCallOk(cfg, e) && e.pc.Handling?
    ensures var h := Judge(cfg, e.kind, LastTaken(e).frame);
            if h.unlink then StreamCallOk(cfg, e.(pc := Unlinking(h.result))) else StreamCallOk(cfg, Give(e, h.result))
  {
    var h := Judge(cfg, e.kind, LastTaken(e).frame);
    if h.unlink {
      StreamEndsOk(cfg, e, h.result);
    } else {
      EofUnlinks(cfg, e.kind, LastTaken(e).frame);
      GiveOk(cfg, e, h.result);
    }
  }

  /** A receive call that is about to delete the stream. */
  lemma StreamEndsOk(cfg: Config, e: Entry, r: Outcome)
    requires e.kind.Streaming? && StreamCallOk(cfg, e) && e.pc.Handling?
    requires Judge(cfg, e.kind, LastTaken(e).frame).unlink && r == Judge(cfg, e.kind, LastTaken(e).frame).result
    ensures StreamCallOk(cfg, e.(pc := Unlinking(r)))
  {
    ReportedMore(cfg, e.kind, e.results, e.taken, r);
    var e' := e.(pc := Unlinking(r));
    assert Finished(e') == Frames(e.taken) && Pending(e'.pc) == [r];
    HandledObjects(cfg, e.kind, e.results, e.taken, r);
  }

  lemma StreamTakeOk(cfg: Config, e: Entry)
    requires e.kind.Streaming? && StreamCallOk(cfg, e) && ConsumerCan(e, Take, false, false) && e.opening.Opened?
    ensures StreamCallOk(cfg, ConsumerStep(cfg, e, Take, false, false))
  {
    var e' := ConsumerStep(cfg, e, Take, false, false);
    assert e'.taken[..|e'.taken| - 1] == e.taken;
  }

  lemma StreamRecvOk(cfg: Config, e: Entry)
    requires e.kind.Streaming? && StreamCallOk(cfg, e) && ConsumerCan(e, RecvMsg, false, false)
    ensures if e.remoteClosed then StreamCallOk(cfg, e.(results := e.results + [Eof])) else StreamCallOk(cfg, e.(pc := Waiting))
  {
    if e.remoteClosed { AddsNothing(e.results, Eof); }
  }

  lemma StreamFinishOk(cfg: Config, e: Entry)
    requires e.kind.Streaming? && StreamCallOk(cfg, e) && e.pc.Closing?
    ensures StreamCallOk(cfg, ConsumerStep(cfg, e, Finish, false, false))
  {
    var e' := ConsumerStep(cfg, e, Finish, false, false);
    assert e'.results + Pending(e'.pc) == e.results + Pending(e.pc);
  }

  lemma StreamUnlinkOk(cfg: Config, e: Entry)
    requires e.kind.Streaming? && StreamCallOk(cfg, e) && e.pc.Unlinking?
    ensures StreamCallOk(cfg, e.(pc := Closing(e.pc.result)))
  {
  }

  lemma StreamNoticeOk(cfg: Config, e: Entry)
    requires e.kind.Streaming? && StreamCallOk(cfg, e) && e.pc.Waiting?
    ensures StreamCallOk(cfg, e.(pc := SawClosed))
  {
  }

  lemma StreamConsumeOk(cfg: Config, e: Entry, ev: ConsumerEvent, ctxDone: bool, locked: bool)
    requires e.kind.Streaming? && StreamCallOk(cfg, e) && ConsumerCan(e, ev, ctxDone, locked)
    requires !e.opening.Opened? ==> !e.pc.Waiting? && !e.pc.SawClosed?
    ensures StreamCallOk(cfg, ConsumerStep(cfg, e, ev, ctxDone, locked))
  {
    match ev
    case RecvMsg => StreamRecvOk(cfg, e);
    case CallerDone => GiveOk(cfg, e, Failed(ErrContext));
    case ClientDone =>
    case NoticeClosed => StreamNoticeOk(cfg, e);
    case Take => StreamTakeOk(cfg, e);
    case NothingPending => GiveOk(cfg, e, Failed(e.core.closed.value));
    case Handle => StreamHandleOk(cfg, e);
    case Unlink => StreamUnlinkOk(cfg, e);
    case Finish => StreamFinishOk(cfg, e);
  }

  lemma UnaryConsumeOk(cfg: Config, e: Entry, ev: ConsumerEvent, ctxDone: bool, locked: bool)
    requires e.kind.Unary? && UnaryCallOk(cfg, e) && ConsumerCan(e, ev, ctxDone, locked)
    requires !e.opening.Opened? ==> e.pc.Idle? || e.pc.Returned?
    ensures UnaryCallOk(cfg, ConsumerStep(cfg, e, ev, ctxDone, locked))
  {
    if ev.Finish? {
      assert e.results + Pending(e.pc) == e.results + [e.pc.result];
    }
  }

  lemma OpenKeepsCall(cfg: Config, e: Entry, sent: bool)
    requires CallOk(cfg, e) && e.opening.Pending? && e.pc.Idle?
    ensures CallOk(cfg, Open(e, sent))
  {
    assert Pending(Open(e, sent).pc) == Pending(e.pc);
  }

  lemma CallerKeepsCall(cfg: Config, e: Entry, e': Entry)
    requires CallOk(cfg, e) && CallerKeeps(e, e') && (e.opening.Pending? ==> e.pc.Idle?)
    ensures CallOk(cfg, e')
  {
    if e' == e.(localClosed := e'.localClosed) {
      SameCall(cfg, e, e'.localClosed);
    } else {
      OpenKeepsCall(cfg, e, e' == Open(e, true));
    }
  }

  lemma SameCall(cfg: Config, e: Entry, localClosed: bool)
    requires CallOk(cfg, e)
    ensures CallOk(cfg, e.(localClosed := localClosed))
  {
  }

  lemma NewEntryCall(cfg: Config, c: Client, kind: Kind, req: Req)
    ensures CallOk(cfg, NewEntry(c, kind, req))
  {
  }

  lemma CallsCaller(cfg: Config, c: Client, c': Client)
    requires Openings(c) && Calls(cfg, c) && CallerEffect(c, c')
    ensures Calls(cfg, c')
  {
    forall j | 0 <= j < |c'.entries| ensures CallOk(cfg, c'.entries[j]) {
      if j < |c.entries| {
        CallerKeepsCall(cfg, c.entries[j], c'.entries[j]);
      } else {
        NewEntryCall(cfg, c, c.sender.kind, c.sender.req);
      }
    }
  }

  /** The receive loop never touches what calls have taken or returned. */
  lemma CallsLoop(cfg: Config, c: Client, c': Client)
    requires Calls(cfg, c) && |c'.entries| == |c.entries|
    requires forall j | 0 <= j < |c.entries| :: LoopKeeps(c.entries[j], c'.entries[j])
    ensures Calls(cfg, c')
  {
    forall j | 0 <= j < |c'.entries| ensures CallOk(cfg, c'.entries[j]) {
      LoopKeepsCall(cfg, c.entries[j], c'.entries[j]);
    }
  }

  lemma LoopKeepsCall(cfg: Config, e: Entry, e': Entry)
    requires CallOk(cfg, e) && LoopKeeps(e, e')
    ensures CallOk(cfg, e')
  {
  }

  lemma CallsConsume(cfg: Config, c: Client, k: nat, ev: ConsumerEvent)
    requires Openings(c) && Calls(cfg, c)
    ensures Calls(cfg, DoConsume(cfg, c, k, ev))
  {
    if k < |c.entries| && ConsumerCan(c.entries[k], ev, c.ctxDone, c.StreamLocked()) {
      var e := c.entries[k];
      assert CallOk(cfg, e);
      ConsumeOk(cfg, e, ev, c.ctxDone, c.StreamLocked());
      var e' := ConsumerStep(cfg, e, ev, c.ctxDone, c.StreamLocked());
      CallsReplaced(cfg, c, DoConsume(cfg, c, k, ev), k, e');
    }
  }

  lemma ConsumeOk(cfg: Config, e: Entry, ev: ConsumerEvent, ctxDone: bool, locked: bool)
    requires CallOk(cfg, e) && ConsumerCan(e, ev, ctxDone, locked)
    requires !e.opening.Opened? ==> e.pc.Idle? || e.pc.Returned?
    ensures CallOk(cfg, ConsumerStep(cfg, e, ev, ctxDone, locked))
  {
    assert ConsumerStep(cfg, e, ev, ctxDone, locked).kind == e.kind;
    if e.kind.Unary? {
      UnaryConsumeOk(cfg, e, ev, ctxDone, locked);
    } else {
      StreamConsumeOk(cfg, e, ev, ctxDone, locked);
    }
  }

  lemma CallsReplaced(cfg: Config, c: Client, c': Client, k: nat, e': Entry)
    requires Calls(cfg, c) && k < |c.entries| && CallOk(cfg, e') && c'.entries == c.entries[k := e']
    ensures Calls(cfg, c')
  {
    forall j | 0 <= j < |c'.entries| ensures CallOk(cfg, c'.entries[j]) {
      assert CallOk(cfg, c.entries[j]);
    }
  }
}
