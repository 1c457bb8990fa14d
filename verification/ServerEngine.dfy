/** server.go's serverConn.run and services.go as a transition system: the receiver goroutine, one
    goroutine per accepted request, and the response loop, interleaved arbitrarily.

    As on the client, an event that is not possible in a state leaves it unchanged. */
module ServerEngine {
  import opened Types
  import opened Framing
  import opened StreamQueue

  const RECV_BUFFER: nat := 64

  const INVALID_ARGUMENT: nat := 3
  const UNKNOWN: nat := 2
  const UNIMPLEMENTED: nat := 12

  /** A value of the responses channel. */
  datatype Out = Out(id: uint32, code: nat, data: Option<bytes>, closeStream: bool, streaming: bool)

  function DataBytes(data: Option<bytes>): bytes { if data.Some? then data.value else [] }

  /** The frame the response loop writes for a response. */
  function FrameOf(cfg: Config, o: Out): Frame {
    if !o.streaming || o.code != 0 then
      Frame(o.id, RESPONSE, 0, cfg.respEnc(Resp(o.code, DataBytes(o.data))))
    else
      Frame(o.id, DATA, (if o.closeStream then REMOTE_CLOSED else 0) + (if o.data.None? then NO_DATA else 0), DataBytes(o.data))
  }

  /** A pending unmarshal closure: its data, and the received buffer it reads, if it reads one. */
  datatype Item = Item(data: bytes, tok: Option<nat>)

  /** The goroutine of a method: running, blocked in SendMsg, blocked on its final respond, gone. */
  datatype TaskPc = Running | Sending(o: Out) | Final(o: Out) | Gone

  datatype Task = Task(
    id: uint32,
    req: Req,
    kind: Kind,
    at: nat,                      // which received message requested it
    cap: nat,
    inbox: seq<Item>,             // streamHandler.recv
    remoteClosed: bool,
    chanClosed: bool,
    ctxDone: bool,
    pc: TaskPc,
    left: nat,                    // SendMsg calls it still makes at most
    produced: Option<Out>,        // its final response, once decided
    handed: seq<Out>,             // what respond has handed over
    outs: seq<Out>,               // what of that has been written
    offered: seq<Item>,           // what data() was called with
    accepted: seq<Item>,          // what of that entered the queue
    got: seq<Item>,               // what its RecvMsg has returned
    refused: bool,                // a data() failed
    missed: bool,                 // data arrived for it after it had been removed
    eof: bool)                    // its RecvMsg has returned io.EOF

  datatype DataStage = CheckClosed | Select | Wait

  /** Why data() is called: for the request's own payload, or for a data frame. */
  datatype Source = Initial | FromFrame(m: Msg)

  datatype Receiver =
    | Top
    | Reading
    | Got(m: Msg)
    | Offering(h: nat, item: Item, source: Source, stage: DataStage)
    | AfterData(h: nat, m: Msg)
    | Storing(h: nat)
    | Counting(h: nat)
    | SendingStatus(o: Out)
    | Failing(eof: bool)
    | Exiting
    | Stopped
    | Panicked(nilHandler: bool)

  datatype Main =
    | Looping
    | Selecting(busy: bool)
    | Have(o: Out, src: Option<nat>)
    | Forgetting(o: Out, src: Option<nat>)
    | Discounting(o: Out, src: Option<nat>)
    | Left
    | Ended                       // `done` is closed

  datatype ConnState = Active | Inactive

  /** The capacity-1 recvErr channel; true stands for an end-of-file error. `taken` once the response
      loop has set its recvErr to nil. */
  datatype ErrChan = ErrChan(buf: seq<bool>, closed: bool, puts: nat, taken: bool)

  /** `active` and what it counts: registrations made, closing responses fully processed, for which
      goroutines, and how many of the latter were sent by sendStatus. */
  datatype Ledger = Ledger(active: int, registrations: nat, closes: nat, counted: set<nat>, finished: set<nat>, statuses: nat)

  /** Receive buffers put back, and whether one was put back twice. */
  datatype Buffers = Buffers(puts: set<nat>, doublePut: bool)
  {
    function Put(toks: set<nat>): Buffers { Buffers(puts + toks, doublePut || toks * puts != {}) }
  }

  datatype Server = Server(
    tasks: seq<Task>,             // every method goroutine ever started
    byId: map<uint32, nat>,       // which of them each accepted id started
    table: map<uint32, nat>,      // the streams map
    lastId: uint32,
    receiver: Receiver,
    main: Main,
    state: ConnState,
    received: seq<Msg>,           // messages the receiver has dispatched on
    w: Writer,
    shutdown: bool,
    err: ErrChan,
    statusIds: set<uint32>,       // ids sendStatus has been called for
    ledger: Ledger,
    bufs: Buffers)

  function Init(): Server {
    Server([], map[], map[], 0, Top, Looping, Inactive, [], Writer([], [], false), false, ErrChan([], false, 0, false), {},
           Ledger(0, 0, 0, {}, {}, 0), Buffers({}, false))
  }

  datatype Choice = Enqueue | SeeDone | Default

  datatype ReceiverEvent =
    | Loop
    | ReadFrame(frame: Frame)
    | ReadFails(eof: bool)
    | Dispatch(budget: nat)       // `budget` bounds the sends of a method it starts
    | Offer(choice: Choice)
    | FinishData
    | Store
    | Count
    | AbortStatus
    | PutErr
    | CloseErr

  datatype TaskEvent =
    | RecvMsg
    | SendMsg(data: Option<bytes>)
    | AbortSend
    | Finish(code: nat, data: Option<bytes>)
    | AbortFinal
    | Cancel

  datatype MainEvent =
    | Look
    | TakeStatus
    | TakeFrom(h: nat)
    | Write(fate: Fate)
    | MarshalFails
    | Forget
    | Discount
    | TakeErr
    | SeeShutdown
    | End

  datatype Event = Recv(re: ReceiverEvent) | Method(h: nat, te: TaskEvent) | Respond(me: MainEvent) | CloseServerConn

  // ---------------------------------------------------------------- the receiver

  /** sendStatus, up to the point where it blocks. */
  function Refuse(s: Server, id: uint32, code: nat): Server {
    s.(receiver := SendingStatus(Out(id, code, None, true, false)), statusIds := s.statusIds + {id})
  }

  function DoLoop(s: Server): Server {
    if !s.receiver.Top? then s
    else if s.shutdown || s.main.Ended? then s.(receiver := Exiting)
    else s.(receiver := Reading)
  }

  function DoRead(s: Server, f: Frame): Server {
    if !s.receiver.Reading? then s else s.(receiver := Got(Msg(f, |s.received|)))
  }

  function DoReadFails(s: Server, eof: bool): Server {
    if !s.receiver.Reading? then s else s.(receiver := Failing(eof))
  }

  function IsData(m: Msg): bool {
    m.frame.typ == DATA && !HasNoData(m.frame.flags) && |m.frame.payload| <= MAX_LENGTH
  }

  function SetTask(s: Server, h: nat, t: Task): Server
    requires h < |s.tasks|
  {
    s.(tasks := s.tasks[h := t])
  }

  /** Data for an id that was accepted once but is not in the map any more. */
  function NoteMissed(s: Server, m: Msg): Server {
    if IsData(m) && m.frame.sid in s.byId && s.byId[m.frame.sid] < |s.tasks| then
      var h := s.byId[m.frame.sid];
      SetTask(s, h, s.tasks[h].(missed := true))
    else s
  }

  function NewTask(s: Server, m: Msg, req: Req, kind: Kind, budget: nat): Task {
    Task(m.frame.sid, req, kind, m.tok, if kind.Streaming? && kind.client then RECV_BUFFER else 1,
         [], false, false, false, Running, budget, None, [], [], [], [], [], false, false, false)
  }

  function OfferTo(t: Task, item: Item): Task { t.(offered := t.offered + [item]) }

  /** handle offers the request's own payload to a method unless the client streams and sent none. */
  predicate HasInitialData(t: Task) { t.kind.Streaming? && (t.req.payload != [] || !t.kind.client) }

  function InitialItem(t: Task): Item { Item(t.req.payload, None) }

  /** handle: the goroutine is started before the stream is stored or counted. */
  function Start(s: Server, t: Task): Server {
    var h := |s.tasks|;
    var initial := HasInitialData(t);
    s.(tasks := s.tasks + [if initial then OfferTo(t, InitialItem(t)) else t],
       byId := s.byId[t.id := h],
       receiver := if initial then Offering(h, InitialItem(t), Initial, CheckClosed) else Storing(h))
  }

  function DispatchData(s: Server, m: Msg): Server {
    if m.frame.sid !in s.table then Refuse(NoteMissed(s, m), m.frame.sid, INVALID_ARGUMENT)
    else
      var h := s.table[m.frame.sid];
      if HasNoData(m.frame.flags) then s.(receiver := AfterData(h, m))
      else if h >= |s.tasks| || s.tasks[h].kind.Unary? then s.(receiver := Panicked(true))  // a nil *streamHandler
      else
        var item := Item(m.frame.payload, Some(m.tok));
        SetTask(s, h, OfferTo(s.tasks[h], item)).(receiver := Offering(h, item, FromFrame(m), CheckClosed))
  }

  function DispatchRequest(cfg: Config, s: Server, m: Msg, budget: nat): Server {
    if m.frame.sid <= s.lastId then Refuse(s, m.frame.sid, INVALID_ARGUMENT)
    else
      var s1 := s.(lastId := m.frame.sid, bufs := s.bufs.Put({m.tok}));
      match cfg.reqDec(m.frame.payload)
      case None => Refuse(s1, m.frame.sid, INVALID_ARGUMENT)
      case Some(req) =>
        match cfg.kindOf(req.service, req.name)
        case None => Refuse(s1, m.frame.sid, UNIMPLEMENTED)
        case Some(kind) => Start(s1, NewTask(s, m, req, kind, budget))
  }

  function DoDispatch(cfg: Config, s: Server, budget: nat): Server {
    if !s.receiver.Got? then s
    else
      var m := s.receiver.m;
      var s1 := s.(received := s.received + [m]);
      if |m.frame.payload| > MAX_LENGTH then Refuse(s1, m.frame.sid, RESOURCE_EXHAUSTED)
      else if m.frame.sid % 2 != 1 then Refuse(s1, m.frame.sid, INVALID_ARGUMENT)
      else if m.frame.typ == DATA then DispatchData(s1, m)
      else if m.frame.typ == REQUEST then DispatchRequest(cfg, s1, m, budget)
      else s1.(receiver := Top)
  }

  /** What one select of streamHandler.data decides. */
  datatype Verdict = NotReady | Proceed(stage: DataStage) | Rejected | Entered | Panic

  function Decide(t: Task, stage: DataStage, choice: Choice): Verdict {
    if stage.CheckClosed? then
      if t.remoteClosed then Rejected else Proceed(Select)
    else
      match choice
      case Enqueue =>
        if t.chanClosed then Panic                                    // send on a closed channel
        else if |t.inbox| < t.cap then Entered else NotReady
      case SeeDone => if t.ctxDone then Rejected else NotReady
      case Default =>
        if stage.Wait? then Rejected                                  // the timeout
        else if !t.chanClosed && |t.inbox| >= t.cap && !t.ctxDone then Proceed(Wait)
        else NotReady
  }

  function Affect(t: Task, item: Item, v: Verdict): Task {
    match v
    case Rejected => t.(refused := true)
    case Entered => t.(inbox := t.inbox + [item], accepted := t.accepted + [item])
    case _ => t
  }

  /** The status of a failed data(): handle's own error for the request, else "data handling error". */
  function DataError(id: uint32, source: Source): Out {
    Out(id, if source.Initial? then UNKNOWN else INVALID_ARGUMENT, None, true, false)
  }

  /** streamHandler.data, one select at a time. */
  function DoOffer(s: Server, choice: Choice): Server {
    if !s.receiver.Offering? || s.receiver.h >= |s.tasks| then s
    else
      var Offering(h, item, source, stage) := s.receiver;
      var t := s.tasks[h];
      var v := Decide(t, stage, choice);
      s.(tasks := s.tasks[h := Affect(t, item, v)],
         statusIds := if v.Rejected? then s.statusIds + {t.id} else s.statusIds,
         receiver := match v
                     case NotReady => s.receiver
                     case Proceed(next) => Offering(h, item, source, next)
                     case Rejected => SendingStatus(DataError(t.id, source))
                     case Entered => if source.Initial? then Storing(h) else AfterData(h, source.m)
                     case Panic => Panicked(false))
  }

  /** closeSend closes the channel the first time only. */
  function CloseSend(t: Task): Task { if t.remoteClosed then t else t.(remoteClosed := true, chanClosed := true) }

  /** closeSend, and the check that a closing frame carries no data. */
  function DoFinishData(s: Server): Server {
    if !s.receiver.AfterData? || s.receiver.h >= |s.tasks| then s
    else
      var AfterData(h, m) := s.receiver;
      var t := s.tasks[h];
      var closing := HasRemoteClosed(m.frame.flags);
      var nilHandler := closing && t.kind.Unary?;
      var bad := closing && !nilHandler && m.frame.payload != [];
      s.(tasks := s.tasks[h := if closing && !nilHandler then CloseSend(t) else t],
         statusIds := if bad then s.statusIds + {m.frame.sid} else s.statusIds,
         receiver := if nilHandler then Panicked(true)
                     else if closing && !t.remoteClosed && t.chanClosed then Panicked(false)      // close of a closed channel
                     else if bad then SendingStatus(Out(m.frame.sid, INVALID_ARGUMENT, None, true, false))
                     else Top)
  }

  function DoStore(s: Server): Server {
    if !s.receiver.Storing? || s.receiver.h >= |s.tasks| then s
    else s.(table := s.table[s.tasks[s.receiver.h].id := s.receiver.h], receiver := Counting(s.receiver.h))
  }

  function Registered(l: Ledger, h: nat): Ledger {
    l.(active := l.active + 1, registrations := l.registrations + 1, counted := l.counted + {h})
  }

  function DoCount(s: Server): Server {
    if !s.receiver.Counting? then s
    else s.(ledger := Registered(s.ledger, s.receiver.h), receiver := Top)
  }

  function DoReceiver(cfg: Config, s: Server, re: ReceiverEvent): Server {
    match re
    case Loop => DoLoop(s)
    case ReadFrame(f) => DoRead(s, f)
    case ReadFails(eof) => DoReadFails(s, eof)
    case Dispatch(budget) => DoDispatch(cfg, s, budget)
    case Offer(choice) => DoOffer(s, choice)
    case FinishData => DoFinishData(s)
    case Store => DoStore(s)
    case Count => DoCount(s)
    case AbortStatus => if s.receiver.SendingStatus? && (s.shutdown || s.main.Ended?) then s.(receiver := Exiting) else s
    case PutErr =>
      if s.receiver.Failing? && s.err.buf == [] then
        s.(err := s.err.(buf := [s.receiver.eof], puts := s.err.puts + 1), receiver := Exiting) else s
    case CloseErr => if s.receiver.Exiting? then s.(err := s.err.(closed := true), receiver := Stopped) else s
  }

  // ---------------------------------------------------------------- the methods

  /** The response of SendMsg(m); nil m has nil data. */
  function SendOut(id: uint32, data: Option<bytes>): Out { Out(id, 0, data, false, true) }

  predicate StreamingServer(t: Task) { t.kind.Streaming? && t.kind.server }

  /** The final respond of a method. */
  function FinalOut(t: Task, code: nat, data: Option<bytes>): Out {
    Out(t.id, code, data, true, StreamingServer(t))
  }

  predicate TaskCan(cfg: Config, t: Task, te: TaskEvent, done: bool) {
    match te
    case RecvMsg => t.kind.Streaming? && (t.inbox != [] || t.chanClosed)       // in any of its goroutines
    case SendMsg(data) => t.pc.Running? && t.kind.Streaming? && t.left > 0 && cfg.objOk(DataBytes(data))
    case AbortSend => t.pc.Sending? && done
    case Finish(code, data) =>
      && t.pc.Running?
      && (code != 0 ==> data.None?)                                   // a failed call has no data
      && (code == 0 && t.kind.Unary? ==> data.Some?)                  // a unary one that succeeds has some
      && (code == 0 && !(StreamingServer(t) && data.None?) ==> cfg.objOk(DataBytes(data)))
    case AbortFinal => t.pc.Final? && done
    case Cancel => true
  }

  function TaskStep(cfg: Config, t: Task, te: TaskEvent, done: bool): Task
    requires TaskCan(cfg, t, te, done)
  {
    match te
    case RecvMsg => if t.inbox == [] then t.(eof := true) else t.(inbox := t.inbox[1..], got := t.got + [t.inbox[0]])
    case SendMsg(data) => t.(pc := Sending(SendOut(t.id, data)), left := t.left - 1)
    case AbortSend => t.(pc := Running)
    case Finish(code, data) => t.(pc := Final(FinalOut(t, code, data)), produced := Some(FinalOut(t, code, data)))
    case AbortFinal => t.(pc := Gone)
    case Cancel => t.(ctxDone := true)
  }

  /** A method's RecvMsg runs the closure, which puts its buffer back. */
  function TaskPut(t: Task, te: TaskEvent): set<nat> {
    if te.RecvMsg? && t.inbox != [] && t.inbox[0].tok.Some? then {t.inbox[0].tok.value} else {}
  }

  function DoTask(cfg: Config, s: Server, h: nat, te: TaskEvent): Server {
    if h >= |s.tasks| || !TaskCan(cfg, s.tasks[h], te, s.main.Ended?) then s
    else
      s.(tasks := s.tasks[h := TaskStep(cfg, s.tasks[h], te, s.main.Ended?)],
         bufs := s.bufs.Put(TaskPut(s.tasks[h], te)))
  }

  // ---------------------------------------------------------------- the response loop

  function DoLook(s: Server): Server {
    if !s.main.Looping? then s
    else s.(main := Selecting(s.ledger.active > 0), state := if s.ledger.active > 0 then Active else Inactive)
  }

  function DoTakeStatus(s: Server): Server {
    if !s.main.Selecting? || !s.receiver.SendingStatus? then s
    else s.(main := Have(s.receiver.o, None), receiver := Top)
  }

  function Handed(t: Task): Task
    requires t.pc.Sending? || t.pc.Final?
  {
    t.(handed := t.handed + [t.pc.o], pc := if t.pc.Sending? then Running else Gone)
  }

  function DoTakeFrom(s: Server, h: nat): Server {
    if !s.main.Selecting? || h >= |s.tasks| || !(s.tasks[h].pc.Sending? || s.tasks[h].pc.Final?) then s
    else s.(main := Have(s.tasks[h].pc.o, Some(h)), tasks := s.tasks[h := Handed(s.tasks[h])])
  }

  function DoWrite(cfg: Config, s: Server, fate: Fate): Server {
    if !s.main.Have? then s
    else
      var Have(o, src) := s.main;
      var (w, result) := Send(s.w, FrameOf(cfg, o), fate);
      var s1 := if src.Some? && src.value < |s.tasks| && w.frames != s.w.frames
                then SetTask(s, src.value, s.tasks[src.value].(outs := s.tasks[src.value].outs + [o])) else s;
      s1.(w := w, main := if !result.Sent? then Left else if o.closeStream then Forgetting(o, src) else Looping)
  }

  function DoForget(s: Server): Server {
    if !s.main.Forgetting? then s
    else s.(table := s.table - {s.main.o.id}, main := Discounting(s.main.o, s.main.src))
  }

  function Closed(l: Ledger, src: Option<nat>): Ledger {
    l.(active := l.active - 1, closes := l.closes + 1,
       finished := if src.Some? then l.finished + {src.value} else l.finished,
       statuses := if src.Some? then l.statuses else l.statuses + 1)
  }

  function DoDiscount(s: Server): Server {
    if !s.main.Discounting? then s
    else s.(ledger := Closed(s.ledger, s.main.src), main := Looping)
  }

  /** A closed recvErr yields nil, which is no end of file. */
  function DoTakeErr(s: Server): Server {
    if !s.main.Selecting? || s.err.taken || (s.err.buf == [] && !s.err.closed) then s
    else
      s.(err := s.err.(taken := true, buf := if s.err.buf == [] then [] else s.err.buf[1..]),
         main := if s.err.buf != [] && s.err.buf[0] then Left else Looping)
  }

  function DoMain(cfg: Config, s: Server, me: MainEvent): Server {
    match me
    case Look => DoLook(s)
    case TakeStatus => DoTakeStatus(s)
    case TakeFrom(h) => DoTakeFrom(s, h)
    case Write(fate) => DoWrite(cfg, s, fate)
    case MarshalFails => if s.main.Have? && FrameOf(cfg, s.main.o).typ == RESPONSE then s.(main := Left) else s
    case Forget => DoForget(s)
    case Discount => DoDiscount(s)
    case TakeErr => DoTakeErr(s)
    case SeeShutdown => if s.main.Selecting? && !s.main.busy && s.shutdown then s.(main := Left) else s
    case End => if s.main.Left? then s.(main := Ended) else s
  }

  function Apply(cfg: Config, s: Server, e: Event): Server {
    match e
    case Recv(re) => DoReceiver(cfg, s, re)
    case Method(h, te) => DoTask(cfg, s, h, te)
    case Respond(me) => DoMain(cfg, s, me)
    case CloseServerConn => s.(shutdown := true)
  }

  function After(cfg: Config, es: seq<Event>): Server {
    if es == [] then Init() else Apply(cfg, After(cfg, es[..|es| - 1]), es[|es| - 1])
  }
}
