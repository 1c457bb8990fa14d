/** What the callers asked of the client against what it did: which streams were opened and for which requests,
    which frames each of them put on the wire, and when it may send. The record is kept from the events of the
    run alone, but for the locks and the connection, with each frame written out. */
module ClientHistory {
  import opened Types
  import opened Framing
  import opened StreamQueue
  import opened ClientEngine
  import opened ClientTable
  import opened ClientSends
  import opened ClientRuns

  /** A stream as asked for: its method and request, how its first send ended, whether a CloseSend has succeeded,
      and its frames. */
  datatype Asked = Asked(kind: Kind, req: Req, first: Option<bool>, closed: bool, frames: seq<Frame>)

  /** `begun` is what the call of createStream that holds the lock, or held it last, was asked for. */
  datatype History = History(begun: Option<(Kind, Req)>, streams: seq<Asked>)

  /** The connection takes all of a frame with so much data; it may report an error even so. */
  predicate Taken(w: Writer, n: nat, fate: Fate) { n <= MAX_LENGTH && !w.broken && HEADER_LENGTH + n <= fate.accept }

  function RequestOf(cfg: Config, k: nat, s: Asked): Frame {
    Frame(IdOf(k), 1, if s.kind.Unary? then 0 else if s.kind.client then 2 else 1, cfg.reqEnc(s.req))
  }

  /** SendMsg and CloseSend go ahead: nobody else holds the lock, the stream is open, its client streams and has
      not closed it for sending. */
  predicate MaySend(c: Client, h: History, k: nat) {
    && c.sender.Free? && k < |h.streams| && h.streams[k].first == Some(true) && !h.streams[k].closed
    && h.streams[k].kind.Streaming? && h.streams[k].kind.client
  }

  function Says(h: History, k: nat, f: Frame): History
    requires k < |h.streams|
  {
    h.(streams := h.streams[k := h.streams[k].(frames := h.streams[k].frames + [f])])
  }

  /** One more event. */
  function Record(cfg: Config, c: Client, h: History, e: Event): History {
    if !e.Caller? then h
    else
      match e.ce
      case BeginCreate(kind, req) => if c.sender.Free? && !c.ctxDone then h.(begun := Some((kind, req))) else h
      case Register =>
        if c.sender.Checked? && h.begun.Some?
        then h.(streams := h.streams + [Asked(h.begun.value.0, h.begun.value.1, None, false, [])]) else h
      case SendRequest(fate) =>
        if c.sender.Registered? && c.sender.k < |h.streams| then
          var k := c.sender.k;
          var f := RequestOf(cfg, k, h.streams[k]);
          var taken := Taken(c.w, |f.payload|, fate);
          var h1 := if taken then Says(h, k, f) else h;
          h1.(streams := h1.streams[k := h1.streams[k].(first := Some(taken && !fate.fail))])
        else h
      case SendMsg(k, payload, fate) =>
        if MaySend(c, h, k) && Taken(c.w, |payload|, fate) then Says(h, k, Frame(IdOf(k), 3, 0, payload)) else h
      case CloseSend(k, fate) =>
        if MaySend(c, h, k) && Taken(c.w, 0, fate) then
          var h1 := Says(h, k, Frame(IdOf(k), 3, 5, []));
          h1.(streams := h1.streams[k := h1.streams[k].(closed := !fate.fail)])
        else h
      case _ => h
  }

  function HistoryOf(cfg: Config, es: seq<Event>): History {
    if es == [] then History(None, [])
    else Record(cfg, After(cfg, es[..|es| - 1]), HistoryOf(cfg, es[..|es| - 1]), es[|es| - 1])
  }

  /** The stream is as it was asked for. */
  predicate AsAsked(e: Entry, s: Asked) {
    && e.kind == s.kind && e.req == s.req && e.localClosed == s.closed && e.core.cap == (if s.kind.Unary? then 1 else 64)
    && match e.opening
       case Pending => s.first == None
       case Opened => s.first == Some(true)
       case Aborted => s.first == Some(false)
  }

  ghost predicate Agrees(c: Client, h: History) {
    && |h.streams| == |c.entries|
    && (forall k | 0 <= k < |c.entries| :: AsAsked(c.entries[k], h.streams[k]))
    && (c.sender.Held? || c.sender.Checked? ==> h.begun == Some((c.sender.kind, c.sender.req)))
  }

  ghost predicate Wrote(c: Client, h: History)
    requires |h.streams| == |c.entries|
  {
    Small(c) ==> forall k | 0 <= k < |c.entries| :: FramesFor(c.w.frames, IdOf(k)) == h.streams[k].frames
  }

  // ---------------------------------------------------------------- the steps

  lemma SentIf(w: Writer, f: Frame, fate: Fate)
    ensures var (w', result) := Send(w, f, fate);
            && (result.Sent? <==> Taken(w, |f.payload|, fate) && !fate.fail)
            && w'.frames == if Taken(w, |f.payload|, fate) then w.frames + [f] else w.frames
  {
  }

  lemma MayIsCan(c: Client, h: History, k: nat)
    requires Agrees(c, h)
    ensures MaySend(c, h, k) <==> CanSend(c, k)
  {
  }

  /** One more frame of stream k. */
  lemma WroteMore(c: Client, c': Client, h: History, k: nat, f: Frame)
    requires Agrees(c, h) && Wrote(c, h) && k < |c.entries| && f.sid == IdOf(k)
    requires c'.w.frames == c.w.frames + [f] && |c'.entries| == |c.entries|
    ensures Wrote(c', Says(h, k, f))
  {
    if Small(c') {
      forall j | 0 <= j < |c.entries| ensures FramesFor(c'.w.frames, IdOf(j)) == Says(h, k, f).streams[j].frames {
        OthersKept(c.w.frames, f, k, j);
        assert FramesFor(c.w.frames, IdOf(j)) + [] == FramesFor(c.w.frames, IdOf(j));
      }
    }
  }

  lemma RegisterStep(cfg: Config, c: Client, h: History)
    requires Ids(c) && Sends(cfg, c) && Agrees(c, h) && Wrote(c, h)
    ensures var h' := Record(cfg, c, h, Caller(Register)); Agrees(DoRegister(c), h') && Wrote(DoRegister(c), h')
  {
    if c.sender.Checked? && Small(DoRegister(c)) {
      var n := |c.entries|;
      SmallIds(n, n);
      NoneYet(c.w.frames, IdOf(n));
    }
  }

  lemma WroteSame(c: Client, c': Client, h: History, h': History)
    requires |h.streams| == |c.entries| && Wrote(c, h) && c'.w.frames == c.w.frames && |c'.entries| == |c.entries|
    requires |h'.streams| == |h.streams| && forall k | 0 <= k < |h.streams| :: h'.streams[k].frames == h.streams[k].frames
    ensures Wrote(c', h')
  {
  }

  lemma RequestStep(cfg: Config, c: Client, h: History, fate: Fate)
    requires Ids(c) && Openings(c) && Agrees(c, h) && Wrote(c, h)
    ensures var (c', h') := (DoSendRequest(cfg, c, fate), Record(cfg, c, h, Caller(SendRequest(fate)))); Agrees(c', h') && Wrote(c', h')
  {
    if c.sender.Registered? {
      var (c', h') := (DoSendRequest(cfg, c, fate), Record(cfg, c, h, Caller(SendRequest(fate))));
      var (k, f) := (c.sender.k, RequestFrame(cfg, c.entries[c.sender.k]));
      assert AsAsked(c.entries[k], h.streams[k]);
      assert f == RequestOf(cfg, k, h.streams[k]);
      SentIf(c.w, f, fate);
      if Taken(c.w, |f.payload|, fate) {
        WroteMore(c, c', h, k, f);
        WroteSame(c', c', Says(h, k, f), h');
      } else {
        WroteSame(c, c', h, h');
      }
    }
  }

  lemma SendMsgStep(cfg: Config, c: Client, h: History, k: nat, payload: bytes, fate: Fate)
    requires Ids(c) && Agrees(c, h) && Wrote(c, h)
    ensures var (c', h') := (DoSendMsg(c, k, payload, fate), Record(cfg, c, h, Caller(SendMsg(k, payload, fate)))); Agrees(c', h') && Wrote(c', h')
  {
    MayIsCan(c, h, k);
    if CanSend(c, k) {
      var f := Frame(IdOf(k), DATA, 0, payload);
      SentIf(c.w, f, fate);
      if Taken(c.w, |payload|, fate) { WroteMore(c, DoSendMsg(c, k, payload, fate), h, k, f); }
    }
  }

  lemma CloseSendStep(cfg: Config, c: Client, h: History, k: nat, fate: Fate)
    requires Ids(c) && Agrees(c, h) && Wrote(c, h)
    ensures var (c', h') := (DoCloseSend(c, k, fate), Record(cfg, c, h, Caller(CloseSend(k, fate)))); Agrees(c', h') && Wrote(c', h')
  {
    MayIsCan(c, h, k);
    if CanSend(c, k) {
      var (c', h') := (DoCloseSend(c, k, fate), Record(cfg, c, h, Caller(CloseSend(k, fate))));
      var f := Frame(IdOf(k), 3, 5, []);
      assert AsAsked(c.entries[k], h.streams[k]) && f == CloseFrame(IdOf(k));
      SentIf(c.w, f, fate);
      if Taken(c.w, 0, fate) {
        WroteMore(c, c', h, k, f);
        WroteSame(c', c', Says(h, k, f), h');
      }
    }
  }

  /** What neither the receive loop nor the consumers change. */
  ghost predicate SaysNothing(c: Client, c': Client) {
    && |c'.entries| == |c.entries| && c'.w == c.w && c'.sender == c.sender
    && forall k | 0 <= k < |c.entries| ::
         && c'.entries[k].kind == c.entries[k].kind && c'.entries[k].req == c.entries[k].req
         && c'.entries[k].opening == c.entries[k].opening && c'.entries[k].localClosed == c.entries[k].localClosed
         && c'.entries[k].core.cap == c.entries[k].core.cap
  }

  lemma OthersSayNothing(cfg: Config, c: Client, e: Event)
    requires !e.Caller?
    ensures SaysNothing(c, Apply(cfg, c, e))
  {
    match e
    case Receive(le) =>
      if le.Lookup? { LookupKeeps(c); }
      else if le.Deliver? { DeliverKeeps(c, le.choice); }
      else { QuietEffects(c, le); QuietKeepsSender(c, le); }
    case Consume(k, ev) =>
      ConsumerEffects(cfg, c, k, ev);
      assert forall j | 0 <= j < |c.entries| :: ConsumerKeeps(c.entries[j], DoConsume(cfg, c, k, ev).entries[j]);
  }

  lemma QuietKeepsSender(c: Client, le: LoopEvent)
    requires !le.Lookup? && !le.Deliver?
    ensures DoLoop(c, le).sender == c.sender && DoLoop(c, le).w == c.w
  {
  }

  lemma CallerStep(cfg: Config, c: Client, h: History, ce: CallerEvent)
    requires Ids(c) && Openings(c) && Sends(cfg, c) && Agrees(c, h) && Wrote(c, h)
    ensures var (c', h') := (DoCaller(cfg, c, ce), Record(cfg, c, h, Caller(ce))); Agrees(c', h') && Wrote(c', h')
  {
    match ce
    case BeginCreate(_, _) =>
    case CheckClosed =>
    case Register => RegisterStep(cfg, c, h);
    case SendRequest(fate) => RequestStep(cfg, c, h, fate);
    case SendMsg(k, payload, fate) => SendMsgStep(cfg, c, h, k, payload, fate);
    case CloseSend(k, fate) => CloseSendStep(cfg, c, h, k, fate);
    case UserClose =>
  }

  lemma OtherStep(cfg: Config, c: Client, h: History, e: Event)
    requires Agrees(c, h) && Wrote(c, h) && !e.Caller?
    ensures Agrees(Apply(cfg, c, e), h) && Wrote(Apply(cfg, c, e), h)
  {
    OthersSayNothing(cfg, c, e);
    var c' := Apply(cfg, c, e);
    forall k | 0 <= k < |c.entries| ensures AsAsked(c'.entries[k], h.streams[k]) {
      assert AsAsked(c.entries[k], h.streams[k]);
    }
  }

  /** Over every run the k-th stream is the one asked for by the k-th call that was allowed to create one; it may
      send exactly once its first send has succeeded and until a CloseSend has; and its frames on the wire are,
      in order, its request, the objects of its SendMsg calls as the callers passed them, and its closing frame,
      each exactly if the connection took all of it. */
  lemma {:induction false} WireIsAsked(cfg: Config, es: seq<Event>)
    ensures Agrees(After(cfg, es), HistoryOf(cfg, es)) && Wrote(After(cfg, es), HistoryOf(cfg, es))
  {
    if es != [] {
      var (before, e) := (es[..|es| - 1], es[|es| - 1]);
      WireIsAsked(cfg, before);
      RunInv(cfg, before);
      if e.Caller? { CallerStep(cfg, After(cfg, before), HistoryOf(cfg, before), e.ce); }
      else { OtherStep(cfg, After(cfg, before), HistoryOf(cfg, before), e); }
    }
  }

  // ---------------------------------------------------------------- the objects sent

  /** The objects of stream k's SendMsg calls that went out, as the callers passed them. */
  function Sent(cfg: Config, es: seq<Event>, k: nat): seq<bytes> {
    if es == [] then []
    else
      var (before, e) := (es[..|es| - 1], es[|es| - 1]);
      Sent(cfg, before, k) +
      (if e.Caller? && e.ce.SendMsg? && e.ce.k == k && MaySend(After(cfg, before), HistoryOf(cfg, before), k)
          && Taken(After(cfg, before).w, |e.ce.payload|, e.ce.fate)
       then [e.ce.payload] else [])
  }

  /** The objects that frames carry. */
  function Payloads(fs: seq<Frame>): seq<bytes> {
    if fs == [] then [] else
      var f := fs[|fs| - 1];
      Payloads(fs[..|fs| - 1]) + (if CarriesData(f) then [f.payload] else [])
  }

  predicate CarriesData(f: Frame) { f.typ == DATA && !HasNoData(f.flags) && |f.payload| <= MAX_LENGTH }

  lemma PayloadsSnoc(fs: seq<Frame>, f: Frame)
    ensures Payloads(fs + [f]) == Payloads(fs) + (if CarriesData(f) then [f.payload] else [])
  {
    assert (fs + [f])[..|fs|] == fs;
  }

  /** What one event adds to a stream's frames. */
  lemma RecordPayloads(cfg: Config, c: Client, h: History, e: Event, k: nat)
    requires k < |h.streams|
    ensures var h' := Record(cfg, c, h, e);
            && k < |h'.streams|
            && Payloads(h'.streams[k].frames) ==
               Payloads(h.streams[k].frames) +
               (if e.Caller? && e.ce.SendMsg? && e.ce.k == k && MaySend(c, h, k) && Taken(c.w, |e.ce.payload|, e.ce.fate)
                then [e.ce.payload] else [])
  {
    var h' := Record(cfg, c, h, e);
    if h'.streams[k].frames == h.streams[k].frames {
      assert Payloads(h.streams[k].frames) + [] == Payloads(h.streams[k].frames);
    } else {
      var f := h'.streams[k].frames[|h.streams[k].frames|];
      assert h'.streams[k].frames == h.streams[k].frames + [f];
      PayloadsSnoc(h.streams[k].frames, f);
    }
  }

  lemma {:induction false} HistoryPayloads(cfg: Config, es: seq<Event>, k: nat)
    ensures k < |HistoryOf(cfg, es).streams| ==> Payloads(HistoryOf(cfg, es).streams[k].frames) == Sent(cfg, es, k)
    ensures k >= |HistoryOf(cfg, es).streams| ==> Sent(cfg, es, k) == []
  {
    if es != [] {
      var (before, e) := (es[..|es| - 1], es[|es| - 1]);
      HistoryPayloads(cfg, before, k);
      if k < |HistoryOf(cfg, before).streams| { RecordPayloads(cfg, After(cfg, before), HistoryOf(cfg, before), e, k); }
    }
  }

  /** The objects in a stream's data frames on the wire are, in order, those of its SendMsg calls. */
  lemma {:induction false} PayloadsAreSent(cfg: Config, es: seq<Event>, k: nat)
    requires Small(After(cfg, es)) && k < |After(cfg, es).entries|
    ensures Payloads(FramesFor(After(cfg, es).w.frames, IdOf(k))) == Sent(cfg, es, k)
  {
    WireIsAsked(cfg, es);
    HistoryPayloads(cfg, es, k);
  }
}
