/** client.go and stream.go as a transition system: callers creating streams and sending on them, the
    receive loop, one consumer per stream, and the final cleanup, interleaved arbitrarily.

    Every event that is not possible in a state leaves the state unchanged, so a run is any sequence
    of events and a property of all runs is a property of `After` on all sequences. */
module ClientEngine {
  import opened Types
  import opened Framing
  import opened StreamQueue

  const RECV_BUFFER: nat := 64

  datatype Outcome = Reply(resp: Resp) | Object(data: bytes) | Eof | Failed(err: Err)

  /** The first send of a stream: not made yet, made, or failed (the stream is then never used). */
  datatype Opening = Pending | Opened | Aborted

  /** Where the stream's consumer is, in dispatch (unary) or RecvMsg. */
  datatype Consumer =
    | Idle                        // no receive call is running
    | Waiting                     // in the select
    | SawClosed                   // took the recvClose branch, about to look for a pending message
    | Handling                    // holds the message last taken
    | Unlinking(result: Outcome)  // deleteStream, before the map is changed
    | Closing(result: Outcome)    // deleteStream, between the map and closeWithError
    | Returned                    // no call will follow

  datatype Entry = Entry(
    core: Inbox,
    kind: Kind,
    req: Req,
    opening: Opening,
    localClosed: bool,
    remoteClosed: bool,
    pc: Consumer,
    results: seq<Outcome>,        // what the receive calls returned
    taken: seq<Msg>,              // the messages the consumer has dequeued
    deposited: seq<Msg>,          // the messages put in its queue
    arrived: seq<Msg>,            // the messages looked up under its id since it was registered
    regAt: nat,                   // how many messages had been looked up when it was registered
    gap: bool,                    // a message for it was dropped
    expired: nat)                 // full-queue timeouts it cost the receive loop

  /** The holder of sendLock. `Checked` also holds streamLock. */
  datatype Sender = Free | Held(kind: Kind, req: Req) | Checked(kind: Kind, req: Req) | Registered(k: nat)

  datatype Stage = Found | Try | Wait | Poison

  /** The receive loop and what run() does after it. `Cleaning` holds streamLock. */
  datatype Loop =
    | Top
    | Reading
    | Read(m: Msg)
    | Holding(k: nat, m: Msg, stage: Stage)
    | Exiting(err: Err)
    | ConnClosed(err: Err)
    | Cleaning(err: Err)
    | Cleaned

  datatype Client = Client(
    entries: seq<Entry>,          // every stream ever created, in order
    table: map<uint32, nat>,      // Client.streams: id to entry
    next: uint32,                 // Client.nextStreamID
    ctxDone: bool,
    sender: Sender,
    loop: Loop,
    seen: seq<Msg>,               // messages looked up so far
    w: Writer,
    puts: set<nat>,               // buffers put back
    doublePut: bool,
    waits: nat)                   // full-queue timeouts that expired
  {
    predicate StreamLocked() { sender.Checked? || loop.Cleaning? }
  }

  function Init(): Client {
    Client([], map[], 1, false, Free, Top, [], Writer([], [], false), {}, false, 0)
  }

  datatype Choice = SeeClosed | Enqueue | SeeDone | Default

  /** The callers of createStream, SendMsg and CloseSend, and of Close. */
  datatype CallerEvent =
    | BeginCreate(kind: Kind, req: Req)
    | CheckClosed
    | Register
    | SendRequest(fate: Fate)
    | SendMsg(k: nat, payload: bytes, fate: Fate)
    | CloseSend(k: nat, fate: Fate)
    | UserClose

  /** The receive loop and the cleanup after it. */
  datatype LoopEvent =
    | LoopTop
    | ReadFrame(frame: Frame)
    | ReadFails(err: Err)
    | Lookup
    | Deliver(choice: Choice)
    | CloseConn
    | CleanupBegin
    | CleanupOne(sid: uint32)
    | CleanupEnd

  /** The consumer of one stream. */
  datatype ConsumerEvent =
    | RecvMsg
    | CallerDone
    | ClientDone
    | NoticeClosed
    | Take
    | NothingPending
    | Handle
    | Unlink
    | Finish

  datatype Event = Caller(ce: CallerEvent) | Receive(le: LoopEvent) | Consume(k: nat, ev: ConsumerEvent)

  // ---------------------------------------------------------------- creating and sending

  /** The id the k-th created stream is given. */
  function IdOf(k: nat): uint32 { (2 * k + 1) % 0x1_0000_0000 }

  function RequestFlags(kind: Kind): byte {
    match kind
    case Unary => 0
    case Streaming(client, _) => if client then REMOTE_OPEN else REMOTE_CLOSED
  }

  function RequestFrame(cfg: Config, e: Entry): Frame {
    Frame(e.core.id, REQUEST, RequestFlags(e.kind), cfg.reqEnc(e.req))
  }

  function DoBeginCreate(c: Client, kind: Kind, req: Req): Client {
    if !c.sender.Free? || c.ctxDone then c else c.(sender := Held(kind, req))
  }

  function DoCheckClosed(c: Client): Client {
    if !c.sender.Held? || c.StreamLocked() then c
    else if c.ctxDone then c.(sender := Free)
    else c.(sender := Checked(c.sender.kind, c.sender.req))
  }

  function NewEntry(c: Client, kind: Kind, req: Req): Entry {
    Entry(NewInbox(c.next, if kind.Unary? then 1 else RECV_BUFFER), kind, req, Pending, false, false, Idle, [], [], [], [],
          |c.seen|, false, 0)
  }

  function DoRegister(c: Client): Client {
    if !c.sender.Checked? then c
    else
      var k := |c.entries|;
      c.(entries := c.entries + [NewEntry(c, c.sender.kind, c.sender.req)],
         table := c.table[c.next := k],
         next := (c.next + 2) % 0x1_0000_0000,
         sender := Registered(k))
  }

  function Open(e: Entry, sent: bool): Entry {
    if !sent then e.(opening := Aborted, pc := Returned)
    else e.(opening := Opened, pc := if e.kind.Unary? then Waiting else Idle)
  }

  function DoSendRequest(cfg: Config, c: Client, fate: Fate): Client {
    if !c.sender.Registered? || c.sender.k >= |c.entries| then c
    else
      var k := c.sender.k;
      var e := c.entries[k];
      var (w, result) := Send(c.w, RequestFrame(cfg, e), fate);
      c.(w := w, sender := Free, entries := c.entries[k := Open(e, result.Sent?)])
  }

  predicate CanSend(c: Client, k: nat) {
    && c.sender.Free?
    && k < |c.entries|
    && c.entries[k].opening.Opened?
    && c.entries[k].kind.Streaming? && c.entries[k].kind.client
    && !c.entries[k].localClosed
  }

  function DoSendMsg(c: Client, k: nat, payload: bytes, fate: Fate): Client {
    if !CanSend(c, k) then c
    else c.(w := Send(c.w, Frame(c.entries[k].core.id, DATA, 0, payload), fate).0)
  }

  function CloseFrame(id: uint32): Frame { Frame(id, DATA, REMOTE_CLOSED + NO_DATA, []) }

  function DoCloseSend(c: Client, k: nat, fate: Fate): Client {
    if !CanSend(c, k) then c
    else
      var (w, result) := Send(c.w, CloseFrame(c.entries[k].core.id), fate);
      c.(w := w, entries := c.entries[k := c.entries[k].(localClosed := result.Sent?)])
  }

  // ---------------------------------------------------------------- the receive loop

  function DoLoopTop(c: Client): Client {
    if !c.loop.Top? then c
    else if c.ctxDone then c.(loop := Exiting(ErrClosed))
    else c.(loop := Reading)
  }

  /** recv; each read is a new buffer. A message past the bound arrives as its header alone. */
  function DoRead(c: Client, f: Frame): Client {
    if !c.loop.Reading? then c else c.(loop := Read(Msg(f, |c.seen|)))
  }

  function DoReadFails(c: Client, err: Err): Client {
    if !c.loop.Reading? then c else c.(loop := Exiting(err))
  }

  /** The stream of an id, as long as no id has been handed out twice. */
  function NoteArrival(es: seq<Entry>, m: Msg, found: bool): seq<Entry> {
    var k := m.frame.sid / 2;
    if m.frame.sid % 2 == 1 && k < |es|
    then es[k := es[k].(arrived := es[k].arrived + [m], gap := es[k].gap || !found)] else es
  }

  /** getStream. A message for a stream not in the map is only logged. */
  function DoLookup(c: Client): Client {
    if !c.loop.Read? || c.StreamLocked() then c
    else
      var m := c.loop.m;
      var found := m.frame.sid in c.table;
      c.(seen := c.seen + [m],
         entries := NoteArrival(c.entries, m, found),
         loop := if !found then Top
                 else Holding(c.table[m.frame.sid], m, if |m.frame.payload| > MAX_LENGTH then Poison else Found))
  }

  /** What one select of receive() does with the message. */
  datatype Effect = NotReady | Proceed(stage: Stage) | Discard | Deposit | Poisoned(err: Err) | Expire

  /** The branches that the two selects of receive() share. */
  function Branch(s: Inbox, ctxDone: bool, choice: Choice): Effect {
    match choice
    case SeeClosed => if s.closed.Some? then Discard else NotReady
    case Enqueue => if s.HasRoom() then Deposit else NotReady
    case SeeDone => if ctxDone then Discard else NotReady
    case Default => NotReady
  }

  /** stream.receive, one select at a time, and the closeWithError of an oversized message. The inner
      select of `Wait` has the one-second timeout in place of the default branch. */
  function Decide(s: Inbox, ctxDone: bool, stage: Stage, choice: Choice): Effect {
    match stage
    case Poison => Poisoned(ErrStatus(RESOURCE_EXHAUSTED))
    case Found => if s.closed.Some? then Discard else Proceed(Try)
    case Try =>
      if !choice.Default? then Branch(s, ctxDone, choice)
      else if s.closed.None? && !s.HasRoom() && !ctxDone then Proceed(Wait)
      else NotReady
    case Wait => if !choice.Default? then Branch(s, ctxDone, choice) else Expire
  }

  function Affect(e: Entry, m: Msg, effect: Effect): Entry {
    match effect
    case NotReady => e
    case Proceed(_) => e
    case Discard => e.(gap := true)
    case Deposit => e.(core := Push(e.core, m), deposited := e.deposited + [m])
    case Poisoned(err) => e.(core := CloseWith(e.core, Some(err)), gap := true)
    case Expire => e.(core := CloseWith(e.core, Some(ErrStreamFull)), gap := true, expired := e.expired + 1)
  }

  function DoDeliver(c: Client, choice: Choice): Client {
    if !c.loop.Holding? || c.loop.k >= |c.entries| then c
    else
      var Holding(k, m, stage) := c.loop;
      var effect := Decide(c.entries[k].core, c.ctxDone, stage, choice);
      if effect.NotReady? then c
      else
        c.(entries := c.entries[k := Affect(c.entries[k], m, effect)],
           loop := if effect.Proceed? then Holding(k, m, effect.stage) else Top,
           waits := if effect.Expire? then c.waits + 1 else c.waits)
  }

  function DoCloseConn(c: Client): Client {
    if !c.loop.Exiting? then c else c.(loop := ConnClosed(c.loop.err), ctxDone := true)
  }

  function DoCleanupBegin(c: Client): Client {
    if !c.loop.ConnClosed? || c.StreamLocked() then c else c.(loop := Cleaning(c.loop.err))
  }

  function DoCleanupOne(c: Client, sid: uint32): Client {
    if !c.loop.Cleaning? || sid !in c.table || c.table[sid] >= |c.entries| then c
    else
      var k := c.table[sid];
      c.(table := c.table - {sid},
         entries := c.entries[k := c.entries[k].(core := CloseWith(c.entries[k].core, Some(c.loop.err)))])
  }

  function DoCleanupEnd(c: Client): Client {
    if !c.loop.Cleaning? || c.table != map[] then c else c.(loop := Cleaned)
  }

  // ---------------------------------------------------------------- the consumers

  /** The end of a receive call that does not delete the stream; dispatch always deletes it. */
  function Give(e: Entry, r: Outcome): Entry {
    if e.kind.Unary? then e.(pc := Unlinking(r)) else e.(pc := Idle, results := e.results + [r])
  }

  /** What a receive call makes of a message: its result, whether the stream is deleted, whether the
      buffer is put back. */
  datatype Handled = Handled(result: Outcome, unlink: bool, put: bool)

  function Judge(cfg: Config, kind: Kind, f: Frame): Handled {
    match kind
    case Unary =>
      if f.typ != RESPONSE then Handled(Failed(ErrProtocol), true, true)
      else (match cfg.respDec(f.payload)
            case Some(r) => Handled(Reply(r), true, true)
            case None => Handled(Failed(ErrDecode), true, true))
    case Streaming(_, server) =>
      if f.typ == RESPONSE then
        (match cfg.respDec(f.payload)
         case None => Handled(Failed(ErrDecode), false, true)
         case Some(r) =>
           if !cfg.objOk(r.payload) then Handled(Failed(ErrDecode), false, true)
           else if r.code != 0 then Handled(Failed(ErrStatus(r.code)), false, true)
           else Handled(Object(r.payload), true, true))
      else if f.typ == DATA then
        if !server then Handled(Failed(ErrProtocol), true, false)
        else if HasRemoteClosed(f.flags) && HasNoData(f.flags) then Handled(Eof, true, false)
        else Handled(if cfg.objOk(f.payload) then Object(f.payload) else Failed(ErrDecode), HasRemoteClosed(f.flags), true)
      else Handled(Failed(ErrProtocol), false, false)
  }

  predicate ConsumerCan(e: Entry, ev: ConsumerEvent, ctxDone: bool, locked: bool) {
    match ev
    case RecvMsg => e.pc.Idle? && e.opening.Opened? && e.kind.Streaming?
    case CallerDone => e.pc.Waiting?
    case ClientDone => e.pc.Waiting? && e.kind.Unary? && ctxDone     // only dispatch watches the client's context
    case NoticeClosed => e.pc.Waiting? && e.core.closed.Some?
    case Take => (e.pc.Waiting? || e.pc.SawClosed?) && e.core.queue != []
    case NothingPending => e.pc.SawClosed? && e.core.queue == [] && e.core.closed.Some?
    case Handle => e.pc.Handling? && e.taken != []
    case Unlink => e.pc.Unlinking? && !locked
    case Finish => e.pc.Closing?
  }

  function LastTaken(e: Entry): Msg
    requires e.taken != []
  {
    e.taken[|e.taken| - 1]
  }

  /** What one step of the consumer does to its own stream. */
  function ConsumerStep(cfg: Config, e: Entry, ev: ConsumerEvent, ctxDone: bool, locked: bool): Entry
    requires ConsumerCan(e, ev, ctxDone, locked)
  {
    match ev
    case RecvMsg => if e.remoteClosed then e.(results := e.results + [Eof]) else e.(pc := Waiting)
    case CallerDone => Give(e, Failed(ErrContext))
    case ClientDone => Give(e, Failed(ErrClosed))
    case NoticeClosed => e.(pc := SawClosed)
    case Take => e.(pc := Handling, taken := e.taken + [e.core.queue[0]], core := Pop(e.core))
    case NothingPending => Give(e, Failed(e.core.closed.value))
    case Handle =>
      var h := Judge(cfg, e.kind, LastTaken(e).frame);
      if h.unlink then e.(pc := Unlinking(h.result)) else Give(e, h.result)
    case Unlink => e.(pc := Closing(e.pc.result))
    case Finish =>
      e.(core := CloseWith(e.core, None), remoteClosed := true, results := e.results + [e.pc.result],
         pc := if e.kind.Unary? then Returned else Idle)
  }

  /** RecvMsg deletes the stream before it decodes data that ends it. */
  predicate DecodesLast(e: Entry) { e.kind.Streaming? && e.taken != [] && LastTaken(e).frame.typ == DATA }

  /** The receive call still has the message it took last. */
  predicate HasLast(e: Entry) {
    e.taken != [] && (e.pc.Handling? || ((e.pc.Unlinking? || e.pc.Closing?) && DecodesLast(e)))
  }

  /** The buffer the step puts back: of data that ends a stream once the stream has been closed. */
  function PutBack(cfg: Config, e: Entry, ev: ConsumerEvent): set<nat> {
    if !HasLast(e) then {}
    else
      var h := Judge(cfg, e.kind, LastTaken(e).frame);
      if h.put && (if h.unlink && DecodesLast(e) then ev.Finish? else ev.Handle?) then {LastTaken(e).tok} else {}
  }

  function DoConsume(cfg: Config, c: Client, k: nat, ev: ConsumerEvent): Client {
    if k >= |c.entries| || !ConsumerCan(c.entries[k], ev, c.ctxDone, c.StreamLocked()) then c
    else
      var e := c.entries[k];
      var put := PutBack(cfg, e, ev);
      c.(entries := c.entries[k := ConsumerStep(cfg, e, ev, c.ctxDone, c.StreamLocked())],
         table := if ev.Unlink? then c.table - {e.core.id} else c.table,
         puts := c.puts + put,
         doublePut := c.doublePut || put * c.puts != {})
  }

  // ---------------------------------------------------------------- runs

  function DoCaller(cfg: Config, c: Client, ce: CallerEvent): Client {
    match ce
    case BeginCreate(kind, req) => DoBeginCreate(c, kind, req)
    case CheckClosed => DoCheckClosed(c)
    case Register => DoRegister(c)
    case SendRequest(fate) => DoSendRequest(cfg, c, fate)
    case SendMsg(k, payload, fate) => DoSendMsg(c, k, payload, fate)
    case CloseSend(k, fate) => DoCloseSend(c, k, fate)
    case UserClose => c.(ctxDone := true)
  }

  function DoLoop(c: Client, le: LoopEvent): Client {
    match le
    case LoopTop => DoLoopTop(c)
    case ReadFrame(f) => DoRead(c, f)
    case ReadFails(err) => DoReadFails(c, err)
    case Lookup => DoLookup(c)
    case Deliver(choice) => DoDeliver(c, choice)
    case CloseConn => DoCloseConn(c)
    case CleanupBegin => DoCleanupBegin(c)
    case CleanupOne(sid) => DoCleanupOne(c, sid)
    case CleanupEnd => DoCleanupEnd(c)
  }

  function Apply(cfg: Config, c: Client, e: Event): Client {
    match e
    case Caller(ce) => DoCaller(cfg, c, ce)
    case Receive(le) => DoLoop(c, le)
    case Consume(k, ev) => DoConsume(cfg, c, k, ev)
  }

  function After(cfg: Config, es: seq<Event>): Client {
    if es == [] then Init() else Apply(cfg, After(cfg, es[..|es| - 1]), es[|es| - 1])
  }
}
