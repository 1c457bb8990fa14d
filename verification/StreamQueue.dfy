/** stream.go: the bounded inbox of one client stream, closed once with an error. */
module StreamQueue {
  import opened Types

  /** A received message; `tok` names the read that produced it, and so the buffer holding its data. */
  datatype Msg = Msg(frame: Frame, tok: nat)

  datatype Err =
    | ErrClosed
    | ErrStreamFull
    | ErrStreamClosed
    | ErrProtocol
    | ErrDecode
    | ErrContext
    | ErrStatus(code: nat)
    | ErrRead

  const RESOURCE_EXHAUSTED: nat := 8

  /** `closed` holds recvErr once recvClose is closed. */
  datatype Inbox = Inbox(id: uint32, cap: nat, queue: seq<Msg>, closed: Option<Err>)
  {
    predicate HasRoom() { |queue| < cap }
  }

  function NewInbox(id: uint32, cap: nat): Inbox {
    Inbox(id, cap, [], None)
  }

  /** Only the first close has an effect; a nil error stands for ErrClosed. */
  function CloseWith(s: Inbox, err: Option<Err>): Inbox {
    if s.closed.Some? then s
    else s.(closed := Some(if err.Some? then err.value else ErrClosed))
  }

  function Push(s: Inbox, m: Msg): Inbox { s.(queue := s.queue + [m]) }

  function Pop(s: Inbox): Inbox
    requires s.queue != []
  {
    s.(queue := s.queue[1..])
  }

  /** What one call of receive may do to a stream while nothing else touches it. */
  predicate ReceiveAllows(before: Inbox, after: Inbox, m: Msg, ctxDone: bool, queued: bool) {
    if before.closed.Some? then !queued && after == before
    else if queued then before.HasRoom() && after == Push(before, m)
    else if ctxDone then after == before
    else !before.HasRoom() && after == CloseWith(before, Some(ErrStreamFull))
  }

  /** What one call of a handler's data may do to its queue while nothing else touches it. */
  ghost predicate DataAllows<T>(before: seq<T>, after: seq<T>, cap: nat, closed: bool, item: T, ctxDone: bool, queued: bool) {
    if queued then !closed && |before| < cap && after == before + [item]
    else after == before && (closed || ctxDone || |before| >= cap)
  }

  /** The messages of one stream, in the order read. */
  function For(ms: seq<Msg>, id: uint32): seq<Msg> {
    if ms == [] then [] else
      var m := ms[|ms| - 1];
      For(ms[..|ms| - 1], id) + (if m.frame.sid == id then [m] else [])
  }

  lemma ForSnoc(ms: seq<Msg>, m: Msg, id: uint32)
    ensures For(ms + [m], id) == For(ms, id) + (if m.frame.sid == id then [m] else [])
  {
    assert (ms + [m])[..|ms|] == ms;
  }

  lemma {:induction false} ForAppend(a: seq<Msg>, b: seq<Msg>, id: uint32)
    ensures For(a + b, id) == For(a, id) + For(b, id)
  {
    if b == [] {
      assert a + b == a;
    } else {
      var n := |b| - 1;
      ForAppend(a, b[..n], id);
      assert a + b == (a + b[..n]) + [b[n]];
      ForSnoc(a + b[..n], b[n], id);
    }
  }

  function FramesFor(fs: seq<Frame>, id: uint32): seq<Frame> {
    if fs == [] then [] else
      var f := fs[|fs| - 1];
      FramesFor(fs[..|fs| - 1], id) + (if f.sid == id then [f] else [])
  }

  lemma FramesForSnoc(fs: seq<Frame>, f: Frame, id: uint32)
    ensures FramesFor(fs + [f], id) == FramesFor(fs, id) + (if f.sid == id then [f] else [])
  {
    assert (fs + [f])[..|fs|] == fs;
  }

  function Frames(ms: seq<Msg>): seq<Frame> {
    seq(|ms|, i requires 0 <= i < |ms| => ms[i].frame)
  }

  lemma {:induction false} FramesOfFor(ms: seq<Msg>, id: uint32)
    ensures Frames(For(ms, id)) == FramesFor(Frames(ms), id)
  {
    if ms == [] {
    } else {
      var n := |ms| - 1;
      FramesOfFor(ms[..n], id);
      assert Frames(ms)[..n] == Frames(ms[..n]);
      assert Frames(For(ms[..n], id) + [ms[n]]) == Frames(For(ms[..n], id)) + [ms[n].frame];
    }
  }

  lemma {:induction false} FramesForPrefix(fs: seq<Frame>, gs: seq<Frame>, id: uint32)
    requires fs <= gs
    ensures FramesFor(fs, id) <= FramesFor(gs, id)
    decreases |gs|
  {
    if fs != gs {
      var n := |gs| - 1;
      FramesForPrefix(fs, gs[..n], id);
    }
  }

  lemma FramesPrefix(a: seq<Msg>, b: seq<Msg>)
    requires a <= b
    ensures Frames(a) <= Frames(b)
  {
  }
}
