/** The framed channel: a 10-byte big-endian header followed by at most 4 MiB of data. */
module Framing {
  import opened Types

  const HEADER_LENGTH: nat := 10

  datatype Header = Header(length: uint32, sid: uint32, typ: byte, flags: byte)

  function PutUint32(n: uint32): (b: bytes)
    ensures |b| == 4
  {
    [n / 0x100_0000, (n / 0x1_0000) % 0x100, (n / 0x100) % 0x100, n % 0x100]
  }

  function Uint32(b: bytes): uint32
    requires |b| == 4
  {
    (b[0] as int) * 0x100_0000 + (b[1] as int) * 0x1_0000 + (b[2] as int) * 0x100 + b[3] as int
  }

  lemma Uint32RoundTrip(n: uint32)
    ensures Uint32(PutUint32(n)) == n
  {
    assert n / 0x100 == (n / 0x1_0000) * 0x100 + (n / 0x100) % 0x100;
    assert n / 0x1_0000 == (n / 0x100_0000) * 0x100 + (n / 0x1_0000) % 0x100;
  }

  function EncodeHeader(h: Header): (b: bytes)
    ensures |b| == HEADER_LENGTH
  {
    PutUint32(h.length) + PutUint32(h.sid) + [h.typ, h.flags]
  }

  function DecodeHeader(b: bytes): Header
    requires |b| == HEADER_LENGTH
  {
    Header(Uint32(b[..4]), Uint32(b[4..8]), b[8], b[9])
  }

  lemma HeaderRoundTrip(h: Header)
    ensures DecodeHeader(EncodeHeader(h)) == h
  {
    var b := EncodeHeader(h);
    assert b[..4] == PutUint32(h.length);
    assert b[4..8] == PutUint32(h.sid);
    Uint32RoundTrip(h.length);
    Uint32RoundTrip(h.sid);
  }

  /** The ten bytes of a header: its length and stream id, most significant byte first, its type and its flags. */
  lemma HeaderBytes(h: Header)
    ensures var b := EncodeHeader(h);
            && (b[0] as int) * 0x100_0000 + (b[1] as int) * 0x1_0000 + (b[2] as int) * 0x100 + b[3] as int == h.length
            && (b[4] as int) * 0x100_0000 + (b[5] as int) * 0x1_0000 + (b[6] as int) * 0x100 + b[7] as int == h.sid
            && b[8] == h.typ && b[9] == h.flags
  {
    Uint32RoundTrip(h.length);
    Uint32RoundTrip(h.sid);
  }

  /** The header a frame is sent under; the length is cast to 32 bits as the code does. */
  function HeaderOf(f: Frame): Header {
    Header(|f.payload| % 0x1_0000_0000, f.sid, f.typ, f.flags)
  }

  function EncodeFrame(f: Frame): (b: bytes)
    ensures |b| == HEADER_LENGTH + |f.payload|
  {
    EncodeHeader(HeaderOf(f)) + f.payload
  }

  function EncodeAll(fs: seq<Frame>): bytes {
    if fs == [] then [] else EncodeFrame(fs[0]) + EncodeAll(fs[1..])
  }

  /** How a read fails for good. Only `BareEof` is the unwrapped io.EOF. */
  datatype ReadError = BareEof | UnexpectedEof | BodyCut(sawNothing: bool) | DiscardCut(header: Header)

  /** What one recv yields, with the number of bytes it took off the connection. */
  datatype Received =
    | Whole(frame: Frame, used: nat)
    | TooLong(header: Header, used: nat)
    | Cut(error: ReadError)

  /** recv on a connection that will deliver exactly the bytes `b` and then end. */
  function Parse(b: bytes): (r: Received)
    ensures !r.Cut? ==> HEADER_LENGTH <= r.used <= |b|
  {
    if b == [] then Cut(BareEof)
    else if |b| < HEADER_LENGTH then Cut(UnexpectedEof)
    else
      var h := DecodeHeader(b[..HEADER_LENGTH]);
      var body := b[HEADER_LENGTH..];
      if h.length > MAX_LENGTH then
        if |body| < h.length then Cut(DiscardCut(h)) else TooLong(h, HEADER_LENGTH + h.length)
      else if |body| < h.length then Cut(BodyCut(|body| == 0))
      else Whole(Frame(h.sid, h.typ, h.flags, body[..h.length]), HEADER_LENGTH + h.length)
  }

  /** A frame followed by anything reads back as that frame, or, past the bound, as its header with
      exactly its own bytes discarded. */
  lemma ParseEncoded(f: Frame, rest: bytes)
    requires |f.payload| < 0x1_0000_0000
    ensures Parse(EncodeFrame(f) + rest) ==
            if |f.payload| <= MAX_LENGTH then Whole(f, HEADER_LENGTH + |f.payload|)
            else TooLong(HeaderOf(f), HEADER_LENGTH + |f.payload|)
    ensures (EncodeFrame(f) + rest)[HEADER_LENGTH + |f.payload|..] == rest
  {
    var b := EncodeFrame(f) + rest;
    assert b[..HEADER_LENGTH] == EncodeHeader(HeaderOf(f));
    HeaderRoundTrip(HeaderOf(f));
    assert b[HEADER_LENGTH..] == f.payload + rest;
    assert (f.payload + rest)[..|f.payload|] == f.payload;
  }

  /** A frame cut short anywhere never reads as a frame. */
  lemma ParseCutFrame(f: Frame, n: nat)
    requires |f.payload| < 0x1_0000_0000 && n < |EncodeFrame(f)|
    ensures Parse(EncodeFrame(f)[..n]).Cut?
    ensures Parse(EncodeFrame(f)[..n]) == Cut(BareEof) <==> n == 0
  {
    var b := EncodeFrame(f)[..n];
    if n >= HEADER_LENGTH {
      assert b[..HEADER_LENGTH] == EncodeHeader(HeaderOf(f));
      HeaderRoundTrip(HeaderOf(f));
    }
  }

  /** Reading until the connection ends: the whole frames, the oversized headers passed over, the error. */
  datatype Session = Session(frames: seq<Frame>, refused: seq<Header>, end: ReadError)

  function ReadAll(b: bytes): Session
    decreases |b|
  {
    match Parse(b)
    case Whole(f, used) => var s := ReadAll(b[used..]); s.(frames := [f] + s.frames)
    case TooLong(h, used) => var s := ReadAll(b[used..]); s.(refused := [h] + s.refused)
    case Cut(e) => Session([], [], e)
  }

  ghost predicate Sendable(fs: seq<Frame>) {
    forall f | f in fs :: |f.payload| <= MAX_LENGTH
  }

  /** The frames of a peer that ignores the bound, split as the reader splits them. */
  function Accepted(fs: seq<Frame>): seq<Frame> {
    if fs == [] then [] else (if |fs[0].payload| <= MAX_LENGTH then [fs[0]] else []) + Accepted(fs[1..])
  }

  function Refused(fs: seq<Frame>): seq<Header> {
    if fs == [] then [] else (if |fs[0].payload| <= MAX_LENGTH then [] else [HeaderOf(fs[0])]) + Refused(fs[1..])
  }

  /** Any frames followed by the start of one more: the reader gets back every frame within the bound,
      in order, refuses exactly the others, stays in step throughout, and reports a bare end of file
      exactly when the connection ended on a frame boundary. */
  lemma {:induction false} ReadAllResync(fs: seq<Frame>, last: Frame, n: nat)
    requires forall f | f in fs + [last] :: |f.payload| < 0x1_0000_0000
    requires n < |EncodeFrame(last)|
    ensures var s := ReadAll(EncodeAll(fs) + EncodeFrame(last)[..n]);
            && s.frames == Accepted(fs)
            && s.refused == Refused(fs)
            && (s.end == BareEof <==> n == 0)
  {
    var tail := EncodeFrame(last)[..n];
    if fs == [] {
      assert EncodeAll(fs) + tail == tail;
      assert last in fs + [last];
      ParseCutFrame(last, n);
    } else {
      var rest := EncodeAll(fs[1..]) + tail;
      assert EncodeAll(fs) + tail == EncodeFrame(fs[0]) + rest;
      assert fs[0] in fs + [last];
      ParseEncoded(fs[0], rest);
      assert forall f | f in fs[1..] + [last] :: f in fs + [last];
      ReadAllResync(fs[1..], last, n);
    }
  }

  lemma {:induction false} AcceptedAll(fs: seq<Frame>)
    requires Sendable(fs)
    ensures Accepted(fs) == fs && Refused(fs) == []
  {
    if fs != [] {
      assert fs[0] in fs;
      AcceptedAll(fs[1..]);
    }
  }

  /** What one side sends within the bound is exactly what the other side receives. */
  lemma FrameStreamRoundTrip(fs: seq<Frame>)
    requires Sendable(fs)
    ensures ReadAll(EncodeAll(fs)) == Session(fs, [], BareEof)
  {
    var any := Frame(0, 0, 0, []);
    forall f | f in fs + [any] ensures |f.payload| < 0x1_0000_0000 {
      if f != any { assert f in fs; }
    }
    assert EncodeAll(fs) + EncodeFrame(any)[..0] == EncodeAll(fs);
    ReadAllResync(fs, any, 0);
    AcceptedAll(fs);
  }

  lemma AppendAssociates(a: bytes, b: bytes, c: bytes)
    ensures a + (b + c) == a + b + c
  {
  }

  lemma {:induction false} EncodeAllAppend(fs: seq<Frame>, gs: seq<Frame>)
    ensures EncodeAll(fs + gs) == EncodeAll(fs) + EncodeAll(gs)
  {
    if fs == [] {
      assert fs + gs == gs;
    } else {
      EncodeAllAppend(fs[1..], gs);
      assert (fs + gs)[1..] == fs[1..] + gs;
      AppendAssociates(EncodeFrame(fs[0]), EncodeAll(fs[1..]), EncodeAll(gs));
    }
  }

  // ---------------------------------------------------------------- the sending side

  /** The sending half of a connection: the whole frames written, the bytes of a frame that was cut by
      a failing connection, and the sticky error of the buffered writer. */
  datatype Writer = Writer(frames: seq<Frame>, torn: bytes, broken: bool)
  {
    /** Every byte the connection has taken. */
    function Written(): bytes { EncodeAll(frames) + torn }

    ghost predicate Valid() {
      && Sendable(frames)
      && (!broken ==> torn == [])
      && Parse(torn).Cut?
    }
  }

  datatype SendResult = Sent | Oversized(length: nat) | IoError

  /** How the connection treats one write: how many bytes it takes, and whether it fails even so. */
  datatype Fate = Fate(accept: nat, fail: bool)

  function Send(w: Writer, f: Frame, fate: Fate): (Writer, SendResult) {
    if |f.payload| > MAX_LENGTH then (w, Oversized(|f.payload|))
    else if w.broken then (w, IoError)
    else if fate.accept < |EncodeFrame(f)| then (Writer(w.frames, EncodeFrame(f)[..fate.accept], true), IoError)
    else if fate.fail then (Writer(w.frames + [f], [], true), IoError)
    else (w.(frames := w.frames + [f]), Sent)
  }

  /** A send never disturbs what was sent before, adds at most its own frame, and whatever it leaves
      on the connection still reads back as whole frames and at most one cut one. */
  lemma SendKeepsWriter(w: Writer, f: Frame, fate: Fate)
    requires w.Valid()
    ensures Send(w, f, fate).0.Valid()
    ensures Send(w, f, fate).0.frames in {w.frames, w.frames + [f]}
    ensures w.Written() <= Send(w, f, fate).0.Written()
    ensures Send(w, f, fate).1.Sent? ==>
              Send(w, f, fate).0.Written() == w.Written() + EncodeFrame(f)
  {
    var w' := Send(w, f, fate).0;
    if |f.payload| <= MAX_LENGTH && !w.broken {
      assert w.Written() == EncodeAll(w.frames);
      EncodeAllAppend(w.frames, [f]);
      assert EncodeAll([f]) == EncodeFrame(f);
      if fate.accept < |EncodeFrame(f)| {
        ParseCutFrame(f, fate.accept);
      }
    }
  }

  lemma TailOfConcat(b: bytes, a: bytes, c: bytes, d: bytes)
    requires b == a + c
    ensures |a| <= |b + d| && (b + d)[|a|..] == c + d
  {
  }

  /** A reader that has taken exactly the frames `got` finds the rest of what was written. */
  lemma {:induction false} Unread(w: Writer, got: seq<Frame>)
    requires got <= w.frames
    ensures |EncodeAll(got)| <= |w.Written()|
    ensures w.Written()[|EncodeAll(got)|..] == EncodeAll(w.frames[|got|..]) + w.torn
  {
    var todo := w.frames[|got|..];
    assert w.frames == got + todo;
    EncodeAllAppend(got, todo);
    TailOfConcat(EncodeAll(w.frames), EncodeAll(got), EncodeAll(todo), w.torn);
  }

  lemma ParseFirst(fs: seq<Frame>, torn: bytes)
    requires fs != [] && |fs[0].payload| <= MAX_LENGTH
    ensures Parse(EncodeAll(fs) + torn) == Whole(fs[0], |EncodeFrame(fs[0])|)
  {
    var rest := EncodeAll(fs[1..]) + torn;
    assert EncodeAll(fs) + torn == EncodeFrame(fs[0]) + rest;
    ParseEncoded(fs[0], rest);
  }

  lemma EncodeAllSnoc(fs: seq<Frame>, f: Frame)
    ensures |EncodeAll(fs + [f])| == |EncodeAll(fs)| + |EncodeFrame(f)|
  {
    EncodeAllAppend(fs, [f]);
    assert [f][1..] == [];
  }

  /** Reading the next frame of a connection whose first frames `got` have been read already yields
      the next frame the peer wrote, and leaves the reader at the end of that frame. */
  lemma NextFrame(w: Writer, got: seq<Frame>)
    requires w.Valid() && got <= w.frames
    ensures |EncodeAll(got)| <= |w.Written()|
    ensures var r := Parse(w.Written()[|EncodeAll(got)|..]);
            if |got| < |w.frames|
            then r.Whole? && r.frame == w.frames[|got|] && |EncodeAll(got)| + r.used == |EncodeAll(got + [r.frame])|
            else r.Cut?
  {
    Unread(w, got);
    var todo := w.frames[|got|..];
    if todo != [] {
      assert todo[0] == w.frames[|got|] && todo[0] in w.frames;
      ParseFirst(todo, w.torn);
      EncodeAllSnoc(got, todo[0]);
    } else {
      assert EncodeAll([]) + w.torn == w.torn;
    }
  }
}
