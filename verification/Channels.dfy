/** channel.go as the objects it is made of: the buffer pool, the fixed header buffers, and the two halves
    of a connection, proved against the framing functions. */
module Channels {
  import opened Types
  import opened Framing

  /** The global sync.Pool, which also takes nil slices. `held` are the buffers handed out and not yet put
      back. */
  class BufferPool {
    var free: multiset<array?<byte>>
    ghost var held: set<array<byte>>

    ghost predicate Valid()
      reads this
    {
      forall a: array<byte> | a in free :: free[a] == 1 && a !in held
    }

    constructor ()
      ensures Valid() && held == {}
    {
      free, held := multiset{}, {};
    }

    /** sync.Pool.Get: any of its buffers, or a nil slice, or nothing. */
    method Take() returns (b: array?<byte>)
      requires Valid()
      modifies `free
      ensures Valid() && free <= old(free)
      ensures b != null ==> b in old(free) && b !in free && free == old(free) - multiset{b}
    {
      if * { return null; }
      if free == multiset{} { return null; }
      var a :| a in free;
      free := free - multiset{a};
      b := a;
    }

    /** getmbuf: a buffer with room for `size` bytes that nobody else holds. The slice handed out is its
        first `size` bytes. */
    method Get(size: nat) returns (b: array<byte>)
      requires Valid()
      modifies this
      ensures Valid() && b.Length >= size
      ensures fresh(b) || b in old(free)
      ensures b !in old(held) && held == old(held) + {b} && free <= old(free) - multiset{b}
    {
      var a := Take();
      if a == null || a.Length < size {
        b := new byte[size](_ => 0);
        assert b !in old(free) && b !in held;
      } else {
        b := a;
      }
      held := held + {b};
    }

    /** putmbuf, of a buffer or of the nil slice of a message without data. The pool stays in order if and
        only if the buffer is not in it already. */
    method Put(b: array?<byte>)
      requires Valid()
      modifies this
      ensures free == old(free) + multiset{b}
      ensures held == if b == null then old(held) else old(held) - {b}
      ensures Valid() <==> b == null || b !in old(free)
    {
      if b != null { held := held - {b}; }
      free := free + multiset{b};
      assert b != null && b in old(free) ==> free[b] == 2;
    }
  }

  /** What recv reports: nothing wrong, a status for an oversized message, or a terminal error. */
  datatype RecvError = NoError | ResourceExhausted(length: nat) | Terminal(error: ReadError)

  /** What recv returns for each way the connection's bytes can be parsed. */
  ghost predicate RecvReturns(r: Received, h: Header, data: bytes, err: RecvError) {
    match r
    case Whole(f, _) => h == HeaderOf(f) && data == f.payload && err == NoError
    case TooLong(g, _) => h == g && data == [] && err == ResourceExhausted(g.length)
    case Cut(e) => h == (if e.DiscardCut? then e.header else Header(0, 0, 0, 0)) && data == [] && err == Terminal(e)
  }

  class Channel {
    var input: bytes              // what the connection still delivers before it ends
    var pending: bytes            // written to the buffered writer and not flushed
    var output: bytes             // what the connection has taken
    var broken: bool              // the buffered writer's sticky error
    ghost var w: Writer
    const hrbuf: array<byte>
    const hwbuf: array<byte>
    const pool: BufferPool

    ghost predicate Valid()
      reads this, pool
    {
      && hrbuf.Length == HEADER_LENGTH && hwbuf.Length == HEADER_LENGTH && hrbuf != hwbuf
      && hrbuf !in pool.held && hrbuf !in pool.free && hwbuf !in pool.held && hwbuf !in pool.free
      && pool.Valid()
      && w.Valid() && output == w.Written() && broken == w.broken
      && (!broken ==> pending == [])
    }

    constructor (input: bytes, pool: BufferPool)
      requires pool.Valid()
      ensures Valid() && this.input == input && this.pool == pool && w == Writer([], [], false)
      ensures fresh(hrbuf) && fresh(hwbuf)
    {
      this.input, this.pool := input, pool;
      pending, output, broken := [], [], false;
      w := Writer([], [], false);
      hrbuf := new byte[HEADER_LENGTH](_ => 0);
      hwbuf := new byte[HEADER_LENGTH](_ => 0);
    }

    // -------------------------------------------------------------- receiving

    /** io.ReadFull: the connection may deliver the bytes in pieces of any size. */
    method ReadFull(p: array<byte>, n: nat) returns (got: nat)
      requires n <= p.Length
      modifies `input, p
      ensures got == if n < |old(input)| then n else |old(input)|
      ensures p[..got] == old(input)[..got] && input == old(input)[got..]
    {
      got := 0;
      while got < n && input != []
        invariant got <= n && got <= |old(input)|
        invariant p[..got] == old(input)[..got] && input == old(input)[got..]
      {
        var most := if n - got < |input| then n - got else |input|;
        var piece: nat :| 1 <= piece <= most;
        CopyIn(p, got, input[..piece]);
        assert p[..got + piece] == p[..got] + p[got..got + piece];
        assert old(input)[..got] + input[..piece] == old(input)[..got + piece];
        got, input := got + piece, input[piece..];
      }
    }

    /** One read of the underlying connection. */
    method CopyIn(p: array<byte>, at: nat, piece: bytes)
      requires at + |piece| <= p.Length
      modifies p
      ensures p[at..at + |piece|] == piece && p[..at] == old(p[..at])
    {
      forall i | 0 <= i < |piece| { p[at + i] := piece[i]; }
    }

    /** readMessageHeader. */
    method ReadMessageHeader() returns (h: Header, err: RecvError)
      requires Valid()
      modifies `input, hrbuf
      ensures Valid()
      ensures if |old(input)| >= HEADER_LENGTH
              then h == DecodeHeader(old(input)[..HEADER_LENGTH]) && err == NoError && input == old(input)[HEADER_LENGTH..]
              else h == Header(0, 0, 0, 0) && err == Terminal(if old(input) == [] then BareEof else UnexpectedEof)
    {
      var got := ReadFull(hrbuf, HEADER_LENGTH);
      if got < HEADER_LENGTH {
        return Header(0, 0, 0, 0), Terminal(if got == 0 then BareEof else UnexpectedEof);
      }
      h := Header(Uint32(hrbuf[..4]), Uint32(hrbuf[4..8]), hrbuf[8], hrbuf[9]);
      assert hrbuf[..HEADER_LENGTH] == old(input)[..HEADER_LENGTH];
      assert hrbuf[..4] == old(input)[..HEADER_LENGTH][..4] && hrbuf[4..8] == old(input)[..HEADER_LENGTH][4..8];
      err := NoError;
    }

    /** bufio.Reader.Discard. */
    method Discard(n: nat) returns (ok: bool)
      modifies `input
      ensures ok <==> n <= |old(input)|
      ensures ok ==> input == old(input)[n..]
    {
      ok := n <= |input|;
      input := if ok then input[n..] else [];
    }

    /** recv: the next message of the bytes still to come, in a buffer nobody else holds. */
    method Recv() returns (h: Header, p: array?<byte>, err: RecvError)
      requires Valid()
      modifies `input, hrbuf, pool, pool.free
      ensures Valid() && w == old(w) && output == old(output)
      ensures p != null ==> p.Length >= h.length && p in pool.held && p !in old(pool.held)
      ensures RecvReturns(Parse(old(input)), h, if p == null then [] else p[..h.length], err)
      ensures !Parse(old(input)).Cut? ==> input == old(input)[Parse(old(input)).used..]
      ensures err.NoError? && h.length > 0 ==> p != null
      ensures pool.free <= old(pool.free)
    {
      p := null;
      h, err := ReadMessageHeader();
      if err != NoError { return; }
      var body := input;
      if h.length > MAX_LENGTH {
        var ok := Discard(h.length);
        err := if ok then ResourceExhausted(h.length) else Terminal(DiscardCut(h));
        return;
      }
      if h.length > 0 {
        var got;
        p, got := ReadBody(h.length);
        if got < h.length { return Header(0, 0, 0, 0), null, Terminal(BodyCut(got == 0)); }
      }
    }

    /** The data of a message, read into a buffer of the pool; a read that is cut short leaves the buffer
        with nobody. */
    method ReadBody(n: nat) returns (p: array<byte>, got: nat)
      requires Valid()
      modifies `input, pool, pool.free
      ensures Valid() && pool.free <= old(pool.free)
      ensures p.Length >= n && p in pool.held && p !in old(pool.held)
      ensures got == if n < |old(input)| then n else |old(input)|
      ensures p[..got] == old(input)[..got] && input == old(input)[got..]
    {
      p := pool.Get(n);
      got := ReadFull(p, n);
    }

    // -------------------------------------------------------------- sending

    /** PutUint32 into a fixed buffer. */
    method PutUint32At(p: array<byte>, at: nat, n: uint32)
      requires at + 4 <= p.Length
      modifies p
      ensures p[at..at + 4] == PutUint32(n)
      ensures forall i | 0 <= i < p.Length && !(at <= i < at + 4) :: p[i] == old(p[i])
    {
      p[at] := n / 0x100_0000;
      p[at + 1] := (n / 0x1_0000) % 0x100;
      p[at + 2] := (n / 0x100) % 0x100;
      p[at + 3] := n % 0x100;
    }

    /** bufio.Writer.Write, which refuses once an error has stuck. */
    method Write(b: bytes) returns (ok: bool)
      modifies `pending
      ensures ok <==> !broken
      ensures pending == if ok then old(pending) + b else old(pending)
    {
      ok := !broken;
      if ok { pending := pending + b; }
    }

    /** writeMessageHeader. */
    method WriteMessageHeader(h: Header) returns (ok: bool)
      requires hwbuf.Length == HEADER_LENGTH
      modifies `pending, hwbuf
      ensures ok <==> !broken
      ensures pending == if ok then old(pending) + EncodeHeader(h) else old(pending)
    {
      PutUint32At(hwbuf, 0, h.length);
      PutUint32At(hwbuf, 4, h.sid);
      assert hwbuf[0..4] == PutUint32(h.length);
      hwbuf[8] := h.typ;
      hwbuf[9] := h.flags;
      assert hwbuf[0..4] == PutUint32(h.length) && hwbuf[4..8] == PutUint32(h.sid);
      assert hwbuf[..] == hwbuf[0..4] + hwbuf[4..8] + [h.typ, h.flags];
      ok := Write(hwbuf[..]);
    }

    /** bufio.Writer.Flush, of which the connection takes what it takes. */
    method Flush(fate: Fate) returns (ok: bool)
      requires !broken
      modifies `pending, `output, `broken
      ensures ok <==> fate.accept >= |old(pending)| && !fate.fail
      ensures output == old(output) + if fate.accept < |old(pending)| then old(pending)[..fate.accept] else old(pending)
      ensures broken <==> !ok
      ensures ok ==> pending == []
    {
      var taken := if fate.accept < |pending| then fate.accept else |pending|;
      output, pending := output + pending[..taken], pending[taken..];
      ok := pending == [] && !fate.fail;
      broken := !ok;
    }

    method WriteFrame(f: Frame) returns (ok: bool)
      requires hwbuf.Length == HEADER_LENGTH && |f.payload| <= MAX_LENGTH
      modifies `pending, hwbuf
      ensures ok <==> !broken
      ensures pending == if ok then old(pending) + EncodeFrame(f) else old(pending)
    {
      ok := WriteMessageHeader(Header(|f.payload|, f.sid, f.typ, f.flags));
      if ok && |f.payload| > 0 { ok := Write(f.payload); }
      assert ok ==> pending == old(pending) + EncodeHeader(HeaderOf(f)) + f.payload;
    }

    /** send: what reaches the connection, and what is reported, is what Send says. */
    method Send(sid: uint32, typ: byte, flags: byte, p: bytes, fate: Fate) returns (result: SendResult)
      requires Valid()
      modifies `pending, `output, `broken, `w, hwbuf
      ensures Valid()
      ensures (w, result) == Framing.Send(old(w), Frame(sid, typ, flags, p), fate)
    {
      if |p| > MAX_LENGTH { return Oversized(|p|); }
      var f := Frame(sid, typ, flags, p);
      var ok := WriteFrame(f);
      if !ok { return IoError; }
      SendWrites(w, f, fate);
      var flushed := Flush(fate);
      w := Framing.Send(w, f, fate).0;
      result := if flushed then Sent else IoError;
    }

    /** The bytes a send adds to what the connection has taken, and what it reports. */
    static lemma SendWrites(w: Writer, f: Frame, fate: Fate)
      requires w.Valid() && !w.broken && |f.payload| <= MAX_LENGTH
      ensures var (w', result) := Framing.Send(w, f, fate);
              && w'.Valid()
              && w'.Written() == w.Written() + (if fate.accept < |EncodeFrame(f)| then EncodeFrame(f)[..fate.accept] else EncodeFrame(f))
              && (w'.broken <==> fate.accept < |EncodeFrame(f)| || fate.fail)
              && result == if w'.broken then IoError else Sent
    {
      SendKeepsWriter(w, f, fate);
      EncodeAllAppend(w.frames, [f]);
      assert EncodeAll([f]) == EncodeFrame(f);
    }
  }
}
