/** stream.go and the handler side of services.go as objects: one bounded queue each, closed once. A Go
    select is a choice among the guards that hold. */
module StreamObjects {
  import opened Types
  import opened StreamQueue

  /** A client stream. */
  class Stream {
    const id: uint32
    const cap: nat
    var recv: seq<Msg>
    var closeDone: bool           // closeOnce
    var recvErr: Option<Err>
    var recvClosed: bool

    ghost predicate Valid()
      reads this
    {
      closeDone == recvClosed == recvErr.Some? && |recv| <= cap
    }

    /** The stream as the client engine sees it. */
    function Inbox(): Inbox
      reads this
    {
      StreamQueue.Inbox(id, cap, recv, if recvClosed then recvErr else None)
    }

    constructor (id: uint32, recvBuf: nat)
      ensures Valid() && Inbox() == NewInbox(id, recvBuf)
    {
      this.id, cap := id, recvBuf;
      recv, closeDone, recvErr, recvClosed := [], false, None, false;
    }

    method CloseWithError(err: Option<Err>)
      requires Valid()
      modifies this
      ensures Valid() && Inbox() == CloseWith(old(Inbox()), err)
    {
      if !closeDone {
        closeDone := true;
        recvErr := if err.Some? then err else Some(ErrClosed);
        recvClosed := true;
      }
    }

    /** receive, while nothing else touches the stream. The message is queued behind the others exactly if
        nil is returned. */
    method Receive(ctxDone: bool, m: Msg) returns (err: Option<Err>)
      requires Valid()
      modifies this
      ensures Valid() && ReceiveAllows(old(Inbox()), Inbox(), m, ctxDone, err.None?)
      ensures err.Some? ==> err == if old(recvClosed) then old(recvErr) else Some(if ctxDone then ErrContext else ErrStreamFull)
    {
      if recvClosed { return recvErr; }
      if
      case |recv| < cap => recv := recv + [m]; err := None;
      case ctxDone => err := Some(ErrContext);
      case |recv| >= cap && !ctxDone =>                 // the default branch, and then its timeout
        CloseWithError(Some(ErrStreamFull));
        err := Some(ErrStreamFull);
    }
  }

  /** The input side of a streamHandler. `T` stands for the unmarshal closures. */
  class StreamHandler<T> {
    const cap: nat
    var recv: seq<T>
    var chanClosed: bool
    var remoteClosed: bool
    ghost var accepted: seq<T>
    ghost var got: seq<T>

    ghost predicate Valid()
      reads this
    {
      chanClosed == remoteClosed && |recv| <= cap && got + recv == accepted
    }

    constructor (streamingClient: bool)
      ensures Valid() && accepted == [] && got == [] && recv == [] && !remoteClosed
      ensures cap == if streamingClient then 64 else 1
    {
      cap := if streamingClient then 64 else 1;
      recv, chanClosed, remoteClosed, accepted, got := [], false, false, [], [];
    }

    /** closeSend never closes the channel twice. */
    method CloseSend()
      requires Valid()
      modifies this
      ensures Valid() && remoteClosed && chanClosed
      ensures recv == old(recv) && accepted == old(accepted) && got == old(got)
    {
      if !remoteClosed {
        remoteClosed := true;
        assert !chanClosed;                             // close of a closed channel panics
        chanClosed := true;
      }
    }

    /** data, while the method takes nothing. It never sends on the closed channel. */
    method Data(ctxDone: bool, item: T) returns (ok: bool)
      requires Valid()
      modifies this
      ensures Valid() && remoteClosed == old(remoteClosed) && got == old(got)
      ensures accepted == if ok then old(accepted) + [item] else old(accepted)
      ensures DataAllows(old(recv), recv, cap, remoteClosed, item, ctxDone, ok)
    {
      if remoteClosed { return false; }
      if
      case |recv| < cap =>
        assert !chanClosed;                             // send on a closed channel panics
        assert got + (recv + [item]) == got + recv + [item];
        recv, accepted := recv + [item], accepted + [item];
        ok := true;
      case ctxDone => ok := false;
      case |recv| >= cap && !ctxDone => ok := false;    // the default branch, and then its timeout
    }

    /** What RecvMsg returns: a closure to run, io.EOF, or the context's error. */
    method RecvMsg(ctxDone: bool) returns (item: Option<T>, eof: bool)
      requires Valid() && (recv != [] || chanClosed || ctxDone)       // else it blocks
      modifies this
      ensures Valid() && remoteClosed == old(remoteClosed) && accepted == old(accepted)
      ensures item.Some? ==> !eof && old(recv) == [item.value] + recv && got == old(got) + [item.value]
      ensures item.None? ==> recv == old(recv) && got == old(got)
      ensures eof ==> remoteClosed && recv == [] && got == accepted
      ensures !ctxDone ==> (eof <==> old(recv) == [])
    {
      if
      case recv != [] =>
        assert recv == [recv[0]] + recv[1..];
        assert got + [recv[0]] + recv[1..] == got + recv;
        item, eof := Some(recv[0]), false;
        got, recv := got + [recv[0]], recv[1..];
      case recv == [] && chanClosed => item, eof := None, true;
      case ctxDone => item, eof := None, false;
    }
  }
}
