/** client.go as objects: the stream table, the receive loop run on its own, and the two halves of a
    client stream. */
module ClientObjects {
  import opened Types
  import opened Framing
  import opened StreamQueue
  import opened Channels
  import opened StreamObjects
  import C = ClientEngine

  /** filterCloseErr on the ways a read fails: io.EOF, wrapped or not, becomes ErrClosed. */
  function Filtered(e: ReadError): Err {
    match e
    case BareEof => ErrClosed
    case UnexpectedEof => ErrRead
    case BodyCut(sawNothing) => if sawNothing then ErrClosed else ErrRead
    case DiscardCut(_) => ErrClosed
  }

  /** A connection that ends counts as closed by the peer if it ends between frames, right after a header, or in
      the middle of an oversized message; in the middle of a header or of a message it counts as a failed read. */
  lemma ClosedByPeer(b: bytes)
    requires Parse(b).Cut?
    ensures Filtered(Parse(b).error) ==
            if b == [] || |b| == HEADER_LENGTH || (|b| > HEADER_LENGTH && Uint32(b[..4]) > 0x40_0000) then ErrClosed else ErrRead
  {
    if |b| >= HEADER_LENGTH { assert b[..HEADER_LENGTH][..4] == b[..4]; }
  }

  /** The stream is named by one of the oversized messages. */
  ghost predicate Named(hs: seq<Header>, id: uint32) { exists h :: h in hs && h.sid == id }

  /** What delivering messages and refusing others does to a stream: they are queued behind what is there, in
      order and without a gap, and all of them unless the connection is over or the stream is closed: before, by
      an oversized message of its own, or because the next one found the queue full. */
  ghost predicate Delivered(before: Inbox, after: Inbox, ms: seq<Msg>, hs: seq<Header>, ctxDone: bool) {
    && before.queue <= after.queue <= before.queue + ms
    && (after.queue == before.queue + ms || ctxDone || after.closed.Some?)
    && (before.closed.Some? ==> after == before)
    && (before.closed.None? && after.closed.Some? ==>
          || (after.closed == Some(ErrStreamFull) && after.cap <= |after.queue| < |before.queue + ms|)
          || (after.closed == Some(ErrStatus(8)) && Named(hs, before.id)))
    && (Named(hs, before.id) ==> after.closed.Some?)
    && after.id == before.id && after.cap == before.cap
  }

  lemma DeliveredMore(a: Inbox, b: Inbox, c: Inbox, ms: seq<Msg>, hs: seq<Header>, more: seq<Msg>, others: seq<Header>)
    requires Delivered(a, b, ms, hs, false) && Delivered(b, c, more, others, false)
    ensures Delivered(a, c, ms + more, hs + others, false)
  {
    assert a.queue + ms + more == a.queue + (ms + more);
    NamedMore(hs, others, a.id);
  }

  lemma NamedMore(hs: seq<Header>, others: seq<Header>, id: uint32)
    ensures Named(hs + others, id) <==> Named(hs, id) || Named(others, id)
  {
    if Named(hs, id) { var h :| h in hs && h.sid == id; assert h in hs + others; }
    if Named(others, id) { var h :| h in others && h.sid == id; assert h in hs + others; }
  }

  class Client {
    const channel: Channel
    var streams: map<uint32, Stream>
    var nextStreamID: uint32
    var ctxDone: bool
    var closeOnce: bool
    var count: nat                // how many messages have been read
    ghost var seen: seq<Msg>      // and which
    ghost var refused: seq<Header>  // the headers of the oversized ones

    ghost predicate TableOk()
      reads this, streams.Values
    {
      forall sid | sid in streams :: streams[sid].Valid() && streams[sid].id == sid
    }

    ghost predicate Valid()
      reads this, channel, channel.pool, streams.Values
    {
      channel.Valid() && TableOk() && (closeOnce ==> ctxDone) && count == |seen|
    }

    constructor (channel: Channel)
      requires channel.Valid()
      ensures Valid() && this.channel == channel && streams == map[] && nextStreamID == 1 && !ctxDone
    {
      this.channel := channel;
      streams, nextStreamID, ctxDone, closeOnce, count, seen, refused := map[], 1, false, false, 0, [], [];
    }

    method Close()
      requires Valid()
      modifies `ctxDone, `closeOnce
      ensures Valid() && ctxDone
    {
      if !closeOnce { closeOnce, ctxDone := true, true; }
    }

    function GetStream(sid: uint32): (s: Stream?)
      reads this
      ensures s != null <==> sid in streams
    {
      if sid in streams then streams[sid] else null
    }

    /** createStream. The connection may be closed by someone else until the second check, under the lock
        that cleanup takes. Unless it is, the stream gets the next id, is in the table before its request
        is sent, and stays there even if the send fails. */
    method CreateStream(flags: byte, b: bytes, recvBuf: nat, closedMeanwhile: bool, fate: Fate)
      returns (s: Stream?, err: Option<SendResult>)
      requires Valid()
      modifies this, channel`pending, channel`output, channel`broken, channel`w, channel.hwbuf
      ensures Valid() && ctxDone == (old(ctxDone) || closedMeanwhile)
      ensures s == null <==> ctxDone
      ensures s == null ==>
                err == None && streams == old(streams) && nextStreamID == old(nextStreamID) && channel.w == old(channel.w)
      ensures s != null ==>
                && fresh(s) && s.Inbox() == NewInbox(old(nextStreamID), recvBuf)
                && streams == old(streams)[old(nextStreamID) := s]
                && nextStreamID == (old(nextStreamID) + 2) % 0x1_0000_0000
                && err.Some? && (channel.w, err.value) == Framing.Send(old(channel.w), Frame(s.id, REQUEST, flags, b), fate)
    {
      s, err := null, None;
      if ctxDone { return; }
      if closedMeanwhile { ctxDone := true; }
      if ctxDone { return; }
      s := Register(recvBuf);
      var result := channel.Send(s.id, REQUEST, flags, b, fate);
      err := Some(result);
    }

    /** What createStream does under the lock of the table. */
    method Register(recvBuf: nat) returns (s: Stream)
      requires TableOk()
      modifies `streams, `nextStreamID
      ensures TableOk() && fresh(s) && s.Inbox() == NewInbox(old(nextStreamID), recvBuf)
      ensures streams == old(streams)[old(nextStreamID) := s]
      ensures nextStreamID == (old(nextStreamID) + 2) % 0x1_0000_0000
    {
      s := new Stream(nextStreamID, recvBuf);
      streams := streams[s.id := s];
      nextStreamID := (nextStreamID + 2) % 0x1_0000_0000;
    }

    /** deleteStream: out of the table, then closed with ErrClosed unless it was closed before. */
    method DeleteStream(s: Stream)
      requires Valid() && s.Valid()
      modifies `streams, s
      ensures Valid() && s.Valid()
      ensures streams == old(streams) - {s.id} && s.Inbox() == CloseWith(old(s.Inbox()), None)
    {
      streams := streams - {s.id};
      s.CloseWithError(None);
    }

    /** One turn of cleanupStreams. */
    method CleanupOne(sid: uint32, err: Err)
      requires TableOk() && sid in streams
      modifies `streams, streams[sid]
      ensures TableOk() && streams == old(streams) - {sid}
      ensures old(streams[sid]).Inbox() == CloseWith(old(streams[sid].Inbox()), Some(err))
    {
      streams[sid].CloseWithError(Some(err));
      streams := streams - {sid};
    }

    /** cleanupStreams: the table is emptied while it is iterated over; every stream in it is closed with
        the error, unless it was closed before, and keeps the messages it has. */
    method CleanupStreams(err: Err)
      requires TableOk()
      modifies `streams, streams.Values
      ensures streams == map[]
      ensures forall sid | sid in old(streams) ::
                old(streams)[sid].Inbox() == CloseWith(old(streams[sid].Inbox()), Some(err))
    {
      ghost var all := streams;
      while streams != map[]
        invariant TableOk() && streams.Keys <= all.Keys && forall sid | sid in streams :: streams[sid] == all[sid]
        invariant forall sid | sid in all ::
                    all[sid].Inbox() == if sid in streams then old(all[sid].Inbox()) else CloseWith(old(all[sid].Inbox()), Some(err))
        decreases streams.Keys
      {
        var sid :| sid in streams;
        CleanupOne(sid, err);
      }
    }

    /** A message goes to the stream of its id, if there is one, and to no other. */
    method Take(f: Frame)
      requires TableOk() && count == |seen|
      modifies `count, `seen, streams.Values
      ensures TableOk() && count == |seen| && seen == old(seen) + [Msg(f, |old(seen)|)]
      ensures forall sid | sid in streams ::
                Delivered(old(streams[sid].Inbox()), streams[sid].Inbox(), For(seen[|old(seen)|..], sid), [], ctxDone)
    {
      var m := Msg(f, count);
      count, seen := count + 1, seen + [m];
      assert seen[|old(seen)|..] == [m] && [m][..0] == [];
      var s := GetStream(f.sid);
      if s != null { var ignored := s.Receive(ctxDone, m); }
    }

    /** An oversized message closes the stream of its id. */
    method Refuse(h: Header)
      requires TableOk()
      modifies `refused, streams.Values
      ensures TableOk() && refused == old(refused) + [h]
      ensures forall sid | sid in streams ::
                streams[sid].Inbox() == if sid == h.sid then CloseWith(old(streams[sid].Inbox()), Some(ErrStatus(RESOURCE_EXHAUSTED)))
                                        else old(streams[sid].Inbox())
      ensures forall sid | sid in streams :: Delivered(old(streams[sid].Inbox()), streams[sid].Inbox(), [], [h], ctxDone)
    {
      refused := refused + [h];
      var s := GetStream(h.sid);
      if s != null { s.CloseWithError(Some(ErrStatus(RESOURCE_EXHAUSTED))); }
    }

    /** The outcome of recv as one value. */
    method ReadNext() returns (r: Received)
      requires channel.Valid()
      modifies channel`input, channel.hrbuf, channel.pool, channel.pool.free
      ensures channel.Valid() && r == Parse(old(channel.input)) && channel.pool.free <= old(channel.pool.free)
      ensures !r.Cut? ==> channel.input == old(channel.input)[r.used..]
    {
      var h, p, err := channel.Recv();
      match err
      case Terminal(e) => r := Cut(e);
      case ResourceExhausted(_) => r := TooLong(h, HEADER_LENGTH + h.length);
      case NoError =>
        r := Whole(Frame(h.sid, h.typ, h.flags, if p == null then [] else p[..h.length]), HEADER_LENGTH + h.length);
    }

    /** One turn of the receive loop. */
    method Turn() returns (end: Option<Err>)
      requires Valid()
      modifies `count, `seen, `refused, channel`input, channel.hrbuf, channel.pool, channel.pool.free, streams.Values
      ensures Valid() && channel.pool.free <= old(channel.pool.free)
      ensures var r := Parse(old(channel.input));
              && end == (if r.Cut? then Some(Filtered(r.error)) else None)
              && seen == old(seen) + (if r.Whole? then [Msg(r.frame, |old(seen)|)] else [])
              && refused == old(refused) + (if r.TooLong? then [r.header] else [])
              && (!r.Cut? ==> channel.input == old(channel.input)[r.used..])
      ensures forall sid | sid in streams ::
                Delivered(old(streams[sid].Inbox()), streams[sid].Inbox(), For(seen[|old(seen)|..], sid), refused[|old(refused)|..], ctxDone)
    {
      var r := ReadNext();
      end := React(r);
    }

    /** What a turn does with the outcome of recv. */
    method React(r: Received) returns (end: Option<Err>)
      requires TableOk() && count == |seen|
      modifies `count, `seen, `refused, streams.Values
      ensures TableOk() && count == |seen|
      ensures end == if r.Cut? then Some(Filtered(r.error)) else None
      ensures seen == old(seen) + (if r.Whole? then [Msg(r.frame, |old(seen)|)] else [])
      ensures refused == old(refused) + (if r.TooLong? then [r.header] else [])
      ensures forall sid | sid in streams ::
                Delivered(old(streams[sid].Inbox()), streams[sid].Inbox(), For(seen[|old(seen)|..], sid), refused[|old(refused)|..], ctxDone)
    {
      end := None;
      if r.Cut? {
        assert seen[|old(seen)|..] == [] && refused[|old(refused)|..] == [];
        end := Some(Filtered(r.error));
      } else if r.TooLong? {
        Refuse(r.header);
        assert seen[|old(seen)|..] == [] && refused[|old(refused)|..] == [r.header];
      } else {
        Take(r.frame);
        assert refused[|old(refused)|..] == [];
      }
    }

    /** The receive loop of a connection nobody closes, with no consumer running: it reads exactly the
        frames the bytes hold, refuses the oversized ones, ends with the error the bytes end with, and
        each stream has been delivered its own frames and no others. */
    method ReceiveLoop() returns (err: Err)
      requires Valid()
      modifies `count, `seen, `refused, channel`input, channel.hrbuf, channel.pool, channel.pool.free, streams.Values
      ensures Valid()
      ensures ctxDone ==> err == ErrClosed && seen == old(seen) && refused == old(refused)
      ensures !ctxDone ==>
                var s := ReadAll(old(channel.input));
                && old(seen) <= seen && Frames(seen[|old(seen)|..]) == s.frames
                && refused == old(refused) + s.refused
                && err == Filtered(s.end)
      ensures forall sid | sid in streams && !ctxDone ::
                Delivered(old(streams[sid].Inbox()), streams[sid].Inbox(), For(seen[|old(seen)|..], sid), refused[|old(refused)|..], ctxDone)
    {
      if ctxDone { return ErrClosed; }
      ghost var from := Start(map sid | sid in streams :: streams[sid].Inbox(), seen, refused, ReadAll(channel.input));
      ghost var (got, passed) := ([], []);
      err, got, passed := ReadOn(from);
      assert seen[|old(seen)|..] == got && refused[|old(refused)|..] == passed;
    }

    /** The loop itself. */
    method ReadOn(ghost from: Start) returns (err: Err, ghost got: seq<Msg>, ghost passed: seq<Header>)
      requires Valid() && !ctxDone && Progress(from, [], [], None)
      modifies `count, `seen, `refused, channel`input, channel.hrbuf, channel.pool, channel.pool.free, streams.Values
      ensures Valid() && Progress(from, got, passed, Some(err))
    {
      got, passed := [], [];
      var end := None;
      while end.None?
        invariant Valid() && channel.pool.free <= old(channel.pool.free)
        invariant Progress(from, got, passed, end)
        decreases end.None?, |channel.input|
      {
        end, got, passed := Advance(from, got, passed);
      }
      err := end.value;
    }

    /** Each stream has been delivered its own of the messages. */
    ghost predicate DeliveredSince(start: map<uint32, Inbox>, got: seq<Msg>, passed: seq<Header>)
      reads this, streams.Values
    {
      forall sid | sid in streams :: sid in start && Delivered(start[sid], streams[sid].Inbox(), For(got, sid), passed, false)
    }

    /** How far the loop has come. */
    ghost predicate Progress(from: Start, got: seq<Msg>, passed: seq<Header>, end: Option<Err>)
      reads this, channel`input, streams.Values
    {
      && seen == from.seen + got && refused == from.refused + passed
      && DeliveredSince(from.inboxes, got, passed)
      && SoFar(from.session, Frames(got), passed, channel.input, end)
    }

    method DeliverNext(ghost start: map<uint32, Inbox>, ghost got: seq<Msg>, ghost passed: seq<Header>)
      returns (end: Option<Err>, ghost news: seq<Msg>, ghost headers: seq<Header>)
      requires Valid() && !ctxDone && DeliveredSince(start, got, passed)
      modifies `count, `seen, `refused, channel`input, channel.hrbuf, channel.pool, channel.pool.free, streams.Values
      ensures Valid() && channel.pool.free <= old(channel.pool.free)
      ensures seen == old(seen) + news && refused == old(refused) + headers && DeliveredSince(start, got + news, passed + headers)
      ensures var r := Parse(old(channel.input));
              && end == (if r.Cut? then Some(Filtered(r.error)) else None)
              && Frames(news) == (if r.Whole? then [r.frame] else [])
              && headers == (if r.TooLong? then [r.header] else [])
              && (!r.Cut? ==> channel.input == old(channel.input)[r.used..])
    {
      ghost var middle := map sid | sid in streams :: streams[sid].Inbox();
      ghost var r := Parse(channel.input);
      end := Turn();
      news, headers := seen[|old(seen)|..], refused[|old(refused)|..];
      forall sid | sid in streams ensures Delivered(start[sid], streams[sid].Inbox(), For(got + news, sid), passed + headers, false) {
        DeliveredMore(start[sid], middle[sid], streams[sid].Inbox(), For(got, sid), passed, For(news, sid), headers);
        ForAppend(got, news, sid);
      }
    }

    method Advance(ghost from: Start, ghost got: seq<Msg>, ghost passed: seq<Header>)
      returns (end: Option<Err>, ghost got': seq<Msg>, ghost passed': seq<Header>)
      requires Valid() && !ctxDone && Progress(from, got, passed, None)
      modifies `count, `seen, `refused, channel`input, channel.hrbuf, channel.pool, channel.pool.free, streams.Values
      ensures Valid() && channel.pool.free <= old(channel.pool.free)
      ensures Progress(from, got', passed', end)
      ensures end.None? ==> |channel.input| < |old(channel.input)|
    {
      ghost var (news, headers) := ([], []);
      end, news, headers := DeliverNext(from.inboxes, got, passed);
      SoFarMore(from.session, Frames(got), passed, old(channel.input), channel.input);
      assert Frames(got + news) == Frames(got) + Frames(news);
      got', passed' := got + news, passed + headers;
    }

    /** What run does once the receive loop has returned. */
    method Finish(err: Err, ghost start: map<uint32, Inbox>, ghost got: seq<Msg>, ghost passed: seq<Header>)
      requires TableOk() && DeliveredSince(start, got, passed)
      modifies `ctxDone, `closeOnce, `streams, streams.Values
      ensures ctxDone && streams == map[]
      ensures forall sid | sid in old(streams) ::
                sid in start && Drained(start[sid], old(streams)[sid].Inbox(), For(got, sid), passed, err)
    {
      if !closeOnce { closeOnce, ctxDone := true, true; }
      ctxDone := true;
      CleanupStreams(err);
      forall sid | sid in old(streams) ensures Drained(start[sid], old(streams)[sid].Inbox(), For(got, sid), passed, err) {
        assert Delivered(start[sid], old(streams[sid].Inbox()), For(got, sid), passed, false);
      }
    }

    /** run: after the receive loop the connection is closed and every stream with it; each keeps what the
        loop delivered to it. */
    method Run(ghost start: map<uint32, Inbox>) returns (ghost got: seq<Msg>)
      requires Valid() && !ctxDone && start == map sid | sid in streams :: streams[sid].Inbox()
      modifies this, channel`input, channel.hrbuf, channel.pool, channel.pool.free, streams.Values
      ensures ctxDone && streams == map[]
      ensures seen == old(seen) + got && Frames(got) == ReadAll(old(channel.input)).frames
      ensures forall sid | sid in old(streams) ::
                var s := ReadAll(old(channel.input));
                Drained(start[sid], old(streams)[sid].Inbox(), For(got, sid), s.refused, Filtered(s.end))
    {
      ghost var passed := ReadAll(channel.input).refused;
      var err := ReceiveLoop();
      got := seen[|old(seen)|..];
      assert refused[|old(refused)|..] == passed;
      assert DeliveredSince(start, got, passed);
      Finish(err, start, got, passed);
    }
  }

  /** The stream after the messages have been delivered and it has been closed with the error, unless it was closed
      before. */
  ghost predicate Drained(before: Inbox, after: Inbox, ms: seq<Msg>, hs: seq<Header>, err: Err) {
    exists reached :: Delivered(before, reached, ms, hs, false) && after == CloseWith(reached, Some(err))
  }

  /** Where a run of the receive loop started, and the session its bytes hold. */
  datatype Start = Start(inboxes: map<uint32, Inbox>, seen: seq<Msg>, refused: seq<Header>, session: Session)

  /** The loop has read the first part of a session, and all of it once it has ended. */
  ghost predicate SoFar(all: Session, got: seq<Frame>, passed: seq<Header>, input: bytes, end: Option<Err>) {
    var rest := ReadAll(input);
    if end.Some? then all.frames == got && all.refused == passed && end == Some(Filtered(all.end))
    else all == Session(got + rest.frames, passed + rest.refused, rest.end)
  }

  lemma SoFarMore(all: Session, got: seq<Frame>, passed: seq<Header>, input: bytes, input': bytes)
    requires SoFar(all, got, passed, input, None)
    requires !Parse(input).Cut? ==> input' == input[Parse(input).used..]
    ensures var r := Parse(input);
            SoFar(all, got + (if r.Whole? then [r.frame] else []), passed + (if r.TooLong? then [r.header] else []), input',
                  if r.Cut? then Some(Filtered(r.error)) else None)
  {
    var r := Parse(input);
    assert got + [] == got && passed + [] == passed;
    if !r.Cut? {
      var rest := ReadAll(input');
      if r.Whole? { assert got + ([r.frame] + rest.frames) == got + [r.frame] + rest.frames; }
      if r.TooLong? { assert passed + ([r.header] + rest.refused) == passed + [r.header] + rest.refused; }
    }
  }

  // ---------------------------------------------------------------- one stream's two halves

  /** The sending half of a clientStream, used by one sender. */
  class ClientSender {
    const id: uint32
    const streamingClient: bool
    const channel: Channel
    var localClosed: bool

    constructor (id: uint32, streamingClient: bool, channel: Channel)
      ensures this.id == id && this.streamingClient == streamingClient && this.channel == channel && !localClosed
    {
      this.id, this.streamingClient, this.channel, localClosed := id, streamingClient, channel, false;
    }

    /** What CloseSend and SendMsg return before or after trying to send. */
    function Refusal(): Option<Err>
      reads this
    {
      if !streamingClient then Some(ErrProtocol) else if localClosed then Some(ErrStreamClosed) else None
    }

    /** CloseSend sends one closing frame, and counts as done only once that has been sent. */
    method CloseSend(fate: Fate) returns (err: Option<Err>, sent: Option<SendResult>)
      requires channel.Valid()
      modifies this, channel`pending, channel`output, channel`broken, channel`w, channel.hwbuf
      ensures channel.Valid() && err == old(Refusal())
      ensures err.Some? ==> sent.None? && channel.w == old(channel.w) && localClosed == old(localClosed)
      ensures err.None? ==>
                && sent.Some? && (channel.w, sent.value) == Framing.Send(old(channel.w), C.CloseFrame(id), fate)
                && (localClosed <==> sent == Some(Sent))
    {
      err, sent := Refusal(), None;
      if err.Some? { return; }
      var result := channel.Send(id, DATA, REMOTE_CLOSED + NO_DATA, [], fate);
      sent := Some(result);
      if result.Sent? { localClosed := true; }
    }

    /** SendMsg; a nil message has no payload. */
    method SendMsg(payload: Option<bytes>, fate: Fate) returns (err: Option<Err>, sent: Option<SendResult>)
      requires channel.Valid()
      modifies channel`pending, channel`output, channel`broken, channel`w, channel.hwbuf
      ensures channel.Valid() && err == old(Refusal())
      ensures err.Some? ==> sent.None? && channel.w == old(channel.w)
      ensures err.None? ==>
                && sent.Some?
                && (channel.w, sent.value) == Framing.Send(old(channel.w), Frame(id, DATA, 0, if payload.Some? then payload.value else []), fate)
    {
      err, sent := Refusal(), None;
      if err.Some? { return; }
      var result := channel.Send(id, DATA, 0, if payload.Some? then payload.value else [], fate);
      sent := Some(result);
    }
  }

  /** The receiving half of a clientStream. */
  class ClientReceiver {
    const cfg: Config
    const s: Stream
    const c: Client
    const server: bool            // desc.StreamingServer
    const client: bool            // desc.StreamingClient
    var remoteClosed: bool

    constructor (cfg: Config, s: Stream, c: Client, client: bool, server: bool)
      ensures this.cfg == cfg && this.s == s && this.c == c && this.server == server && this.client == client && !remoteClosed
    {
      this.cfg, this.s, this.c, this.server, this.client, remoteClosed := cfg, s, c, server, client, false;
    }

    /** The first select of RecvMsg: the caller's context, the stream's end, or a message; and a message
        that is pending wins over the stream's end. */
    method Await(ctxDone: bool) returns (m: Option<Msg>, err: Option<Err>)
      requires s.Valid() && (ctxDone || s.recvClosed || s.recv != [])        // else it blocks
      modifies s
      ensures s.Valid() && s.Inbox() == old(s.Inbox()).(queue := s.recv)
      ensures m.Some? <==> err.None?
      ensures m.Some? ==> old(s.recv) == [m.value] + s.recv
      ensures err.Some? ==> s.recv == old(s.recv) && ((ctxDone && err == Some(ErrContext)) || (s.recv == [] && s.recvClosed && err == s.recvErr))
    {
      m, err := None, None;
      if
      case ctxDone => err := Some(ErrContext);
      case s.recvClosed =>
        if s.recv != [] { m, s.recv := Some(s.recv[0]), s.recv[1..]; } else { err := s.recvErr; }
      case s.recv != [] => m, s.recv := Some(s.recv[0]), s.recv[1..];
    }

    /** RecvMsg. Once the stream has ended it returns io.EOF and touches nothing; otherwise it returns what
        Judge makes of the message it took, and takes the stream out of the table exactly if Judge says so. */
    method RecvMsg(ctxDone: bool) returns (r: C.Outcome)
      requires c.Valid() && s.Valid() && (remoteClosed || ctxDone || s.recvClosed || s.recv != [])
      modifies this, s, c`streams
      ensures c.Valid() && s.Valid()
      ensures old(remoteClosed) ==> r == C.Eof && remoteClosed && s.Inbox() == old(s.Inbox()) && c.streams == old(c.streams)
      ensures !old(remoteClosed) && s.recv == old(s.recv) ==>
                && !remoteClosed && s.Inbox() == old(s.Inbox()) && c.streams == old(c.streams)
                && ((ctxDone && r == C.Failed(ErrContext))
                    || (s.recv == [] && s.Inbox().closed.Some? && r == C.Failed(s.Inbox().closed.value)))
      ensures !old(remoteClosed) && s.recv != old(s.recv) ==>
                && old(s.recv) != []
                && var h := C.Judge(cfg, Streaming(client, server), old(s.recv)[0].frame);
                   && r == h.result
                   && remoteClosed == h.unlink
                   && c.streams == (if h.unlink then old(c.streams) - {s.id} else old(c.streams))
                   && s.Inbox() == if h.unlink then CloseWith(Pop(old(s.Inbox())), None) else Pop(old(s.Inbox()))
    {
      if remoteClosed { return C.Eof; }
      var m, err := Await(ctxDone);
      if err.Some? { return C.Failed(err.value); }
      var f := m.value.frame;
      if f.typ == RESPONSE {
        var resp := cfg.respDec(f.payload);
        if resp.None? || !cfg.objOk(resp.value.payload) { return C.Failed(ErrDecode); }
        if resp.value.code != 0 { return C.Failed(ErrStatus(resp.value.code)); }
        EndStream();
        return C.Object(resp.value.payload);
      }
      if f.typ == DATA {
        if !server {
          EndStream();
          return C.Failed(ErrProtocol);
        }
        if HasRemoteClosed(f.flags) {
          EndStream();
          if HasNoData(f.flags) { return C.Eof; }
        }
        return if cfg.objOk(f.payload) then C.Object(f.payload) else C.Failed(ErrDecode);
      }
      r := C.Failed(ErrProtocol);
    }

    /** deleteStream, and no further receive call. */
    method EndStream()
      requires c.Valid() && s.Valid()
      modifies `remoteClosed, s, c`streams
      ensures c.Valid() && s.Valid() && remoteClosed && s.Inbox() == CloseWith(old(s.Inbox()), None)
      ensures c.streams == old(c.streams) - {s.id}
    {
      c.DeleteStream(s);
      remoteClosed := true;
    }
  }
}
