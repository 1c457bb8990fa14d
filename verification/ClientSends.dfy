/** What the client puts on the wire: increasing odd request ids, and per stream a fixed language. */
module ClientSends {
  import opened Types
  import opened Framing
  import opened StreamQueue
  import opened ClientEngine
  import opened ClientTable

  /** The frames of one stream in a state of its own: a prefix of Request for a unary or non-streaming
      client, of Request Data* Data[remote closed|no data] for a streaming one. */
  ghost predicate Conforms(cfg: Config, e: Entry, fs: seq<Frame>) {
    fs != [] ==>
      && fs[0] == RequestFrame(cfg, e)
      && (forall i | 1 <= i < |fs| :: fs[i].typ == DATA && fs[i].sid == e.core.id)
      && (forall i | 1 <= i < |fs| - 1 :: fs[i].flags == 0)
      && (|fs| > 1 ==> e.kind.Streaming? && e.kind.client
                       && (fs[|fs| - 1].flags == 0 || fs[|fs| - 1] == CloseFrame(e.core.id)))
  }

  /** In the language of a stream a frame that closes it for sending is the last. */
  lemma ClosingIsLast(cfg: Config, e: Entry, fs: seq<Frame>, i: nat)
    requires Conforms(cfg, e, fs) && i < |fs| && HasRemoteClosed(fs[i].flags)
    ensures i == |fs| - 1
  {
  }

  predicate Ended(e: Entry, fs: seq<Frame>) {
    |fs| > 1 && fs[|fs| - 1] == CloseFrame(e.core.id)
  }

  ghost predicate SentOk(cfg: Config, e: Entry, fs: seq<Frame>, broken: bool) {
    && Conforms(cfg, e, fs)
    && (e.opening.Pending? ==> fs == [])
    && (e.opening.Opened? ==> fs != [])
    && (Ended(e, fs) ==> e.localClosed || broken)
  }

  /** Requests leave in the order of their ids. */
  ghost predicate RequestsIncrease(fs: seq<Frame>) {
    forall i, j | 0 <= i < j < |fs| && fs[i].typ == REQUEST && fs[j].typ == REQUEST :: fs[i].sid < fs[j].sid
  }

  ghost predicate EveryStream(cfg: Config, es: seq<Entry>, fs: seq<Frame>, broken: bool) {
    forall k | 0 <= k < |es| :: SentOk(cfg, es[k], FramesFor(fs, IdOf(k)), broken)
  }

  ghost predicate Ordered(fs: seq<Frame>, n: nat, sender: Sender) {
    && RequestsIncrease(fs)
    && (forall f | f in fs :: f.sid % 2 == 1 && f.sid / 2 < n)
    && (sender.Registered? ==> forall f | f in fs :: f.sid < IdOf(sender.k))
  }

  ghost predicate Sends(cfg: Config, c: Client) {
    && c.w.Valid()
    && (Small(c) ==>
          && Ordered(c.w.frames, |c.entries|, c.sender)
          && EveryStream(cfg, c.entries, c.w.frames, c.w.broken))
  }

  /** The only ways the frames on the wire change: not at all, or one more. */
  lemma WrittenFrames(w: Writer, f: Frame, fate: Fate)
    requires w.Valid()
    ensures var (w', result) := Send(w, f, fate);
            && w'.Valid()
            && (w'.frames == w.frames || w'.frames == w.frames + [f])
            && (w'.frames == w.frames + [f] ==> !w.broken)
            && (result.Sent? ==> w'.frames == w.frames + [f])
            && (!result.Sent? && w'.frames == w.frames + [f] ==> w'.broken)
            && (w.broken ==> w'.broken)
  {
    SendKeepsWriter(w, f, fate);
  }

  lemma NoneYet(fs: seq<Frame>, id: uint32)
    requires forall f | f in fs :: f.sid != id
    ensures FramesFor(fs, id) == []
  {
  }

  /** One more frame of stream k leaves the frames of every other stream as they were. */
  lemma OthersKept(fs: seq<Frame>, f: Frame, k: nat, j: nat)
    requires k <= 0x7fff_ffff && j <= 0x7fff_ffff && f.sid == IdOf(k)
    ensures FramesFor(fs + [f], IdOf(j)) == FramesFor(fs, IdOf(j)) + (if j == k then [f] else [])
  {
    SmallIds(j, k);
    FramesForSnoc(fs, f, IdOf(j));
  }

  lemma StreamGrows(cfg: Config, es: seq<Entry>, fs: seq<Frame>, broken: bool, k: nat, f: Frame, e': Entry, broken': bool)
    requires EveryStream(cfg, es, fs, broken) && !broken && k < |es| <= 0x8000_0000 && f.sid == IdOf(k)
    requires SentOk(cfg, e', FramesFor(fs, IdOf(k)) + [f], broken')
    ensures EveryStream(cfg, es[k := e'], fs + [f], broken')
  {
    forall j | 0 <= j < |es| ensures SentOk(cfg, es[k := e'][j], FramesFor(fs + [f], IdOf(j)), broken') {
      assert SentOk(cfg, es[j], FramesFor(fs, IdOf(j)), broken);
      OthersKept(fs, f, k, j);
      assert FramesFor(fs, IdOf(j)) + [] == FramesFor(fs, IdOf(j));
    }
  }

  lemma StreamStays(cfg: Config, es: seq<Entry>, fs: seq<Frame>, broken: bool, k: nat, e': Entry, broken': bool)
    requires EveryStream(cfg, es, fs, broken) && k < |es| && (broken ==> broken')
    requires SentOk(cfg, e', FramesFor(fs, IdOf(k)), broken')
    ensures EveryStream(cfg, es[k := e'], fs, broken')
  {
    forall j | 0 <= j < |es| ensures SentOk(cfg, es[k := e'][j], FramesFor(fs, IdOf(j)), broken') {
      assert SentOk(cfg, es[j], FramesFor(fs, IdOf(j)), broken);
    }
  }

  lemma SendsRegister(cfg: Config, c: Client)
    requires Ids(c) && Sends(cfg, c)
    ensures Sends(cfg, DoRegister(c))
  {
    var c' := DoRegister(c);
    if Small(c') && c.sender.Checked? {
      var n := |c.entries|;
      SmallIds(n, n);
      NoneYet(c.w.frames, IdOf(n));
      forall k | 0 <= k < |c'.entries|
        ensures SentOk(cfg, c'.entries[k], FramesFor(c'.w.frames, IdOf(k)), c'.w.broken)
      {
        assert k < n ==> SentOk(cfg, c.entries[k], FramesFor(c.w.frames, IdOf(k)), c.w.broken);
      }
    }
  }

  lemma SentRequest(cfg: Config, e: Entry, broken: bool, wrote: bool, sent: bool, broken': bool)
    requires SentOk(cfg, e, [], broken) && (sent ==> wrote)
    ensures SentOk(cfg, Open(e, sent), if wrote then [RequestFrame(cfg, e)] else [], broken')
  {
  }

  lemma RequestOrdered(fs: seq<Frame>, n: nat, k: nat, f: Frame)
    requires Ordered(fs, n, Registered(k)) && k < n <= 0x8000_0000 && f.sid == IdOf(k)
    ensures Ordered(fs + [f], n, Free) && Ordered(fs, n, Free)
  {
    SmallIds(k, k);
  }

  lemma SendsRequest(cfg: Config, c: Client, fate: Fate)
    requires Ids(c) && Openings(c) && Sends(cfg, c)
    ensures Sends(cfg, DoSendRequest(cfg, c, fate))
  {
    if c.sender.Registered? {
      var k := c.sender.k;
      var e := c.entries[k];
      var f := RequestFrame(cfg, e);
      var (w', result) := Send(c.w, f, fate);
      WrittenFrames(c.w, f, fate);
      if Small(c) {
        assert SentOk(cfg, e, FramesFor(c.w.frames, IdOf(k)), c.w.broken);
        RequestOrdered(c.w.frames, |c.entries|, k, f);
        SentRequest(cfg, e, c.w.broken, w'.frames != c.w.frames, result.Sent?, w'.broken);
        assert [] + [f] == [f];
        if w'.frames == c.w.frames {
          StreamStays(cfg, c.entries, c.w.frames, c.w.broken, k, Open(e, result.Sent?), w'.broken);
        } else {
          StreamGrows(cfg, c.entries, c.w.frames, c.w.broken, k, f, Open(e, result.Sent?), w'.broken);
        }
      }
    }
  }

  /** Data after the request, as long as the stream has not been closed for sending. */
  lemma SentData(cfg: Config, e: Entry, fs: seq<Frame>, f: Frame, closed: bool, broken': bool)
    requires SentOk(cfg, e, fs, false) && e.opening.Opened? && !e.localClosed
    requires e.kind.Streaming? && e.kind.client
    requires f.typ == DATA && f.sid == e.core.id && (f.flags == 0 || f == CloseFrame(e.core.id))
    requires f.flags == 0 || closed || broken'
    ensures SentOk(cfg, e.(localClosed := closed), fs + [f], broken')
  {
    var gs := fs + [f];
    assert gs[|gs| - 1] == f && gs[..|fs|] == fs;
    assert |fs| > 1 ==> fs[|fs| - 1].flags == 0;
  }

  lemma DataOrdered(fs: seq<Frame>, n: nat, k: nat, f: Frame)
    requires Ordered(fs, n, Free) && k < n <= 0x8000_0000 && f.sid == IdOf(k) && f.typ == DATA
    ensures Ordered(fs + [f], n, Free)
  {
    SmallIds(k, k);
  }

  lemma SendsData(cfg: Config, c: Client, k: nat, f: Frame, fate: Fate, c': Client)
    requires Ids(c) && Sends(cfg, c) && CanSend(c, k)
    requires f.typ == DATA && f.sid == c.entries[k].core.id
    requires f.flags == 0 || f == CloseFrame(c.entries[k].core.id)
    requires c'.w == Send(c.w, f, fate).0 && c'.sender == c.sender
    requires c'.entries == c.entries[k := c.entries[k].(localClosed := f.flags != 0 && Send(c.w, f, fate).1.Sent?)]
    ensures Sends(cfg, c')
  {
    var (w', result) := Send(c.w, f, fate);
    var e' := c'.entries[k];
    WrittenFrames(c.w, f, fate);
    if Small(c) {
      assert SentOk(cfg, c.entries[k], FramesFor(c.w.frames, IdOf(k)), c.w.broken);
      if w'.frames == c.w.frames {
        StreamStays(cfg, c.entries, c.w.frames, c.w.broken, k, e', w'.broken);
      } else {
        SentData(cfg, c.entries[k], FramesFor(c.w.frames, IdOf(k)), f, e'.localClosed, w'.broken);
        StreamGrows(cfg, c.entries, c.w.frames, c.w.broken, k, f, e', w'.broken);
        DataOrdered(c.w.frames, |c.entries|, k, f);
      }
    }
  }

  lemma SendsCaller(cfg: Config, c: Client, ce: CallerEvent)
    requires Ids(c) && Openings(c) && Sends(cfg, c)
    ensures Sends(cfg, DoCaller(cfg, c, ce))
  {
    match ce
    case BeginCreate(_, _) =>
    case CheckClosed =>
    case Register => SendsRegister(cfg, c);
    case SendRequest(fate) => SendsRequest(cfg, c, fate);
    case SendMsg(k, payload, fate) =>
      if CanSend(c, k) {
        var c' := DoSendMsg(c, k, payload, fate);
        assert c'.entries == c.entries[k := c.entries[k].(localClosed := false)];
        SendsData(cfg, c, k, Frame(c.entries[k].core.id, DATA, 0, payload), fate, c');
      }
    case CloseSend(k, fate) =>
      if CanSend(c, k) {
        SendsData(cfg, c, k, CloseFrame(c.entries[k].core.id), fate, DoCloseSend(c, k, fate));
      }
    case UserClose =>
  }

  /** Neither the receive loop nor the consumers send anything. */
  lemma SendsKept(cfg: Config, c: Client, c': Client)
    requires Sends(cfg, c) && c'.w == c.w && c'.sender == c.sender && |c'.entries| == |c.entries|
    requires forall j | 0 <= j < |c.entries| ::
               LoopKeeps(c.entries[j], c'.entries[j]) || ConsumerKeeps(c.entries[j], c'.entries[j])
    ensures Sends(cfg, c')
  {
    if Small(c) {
      forall k | 0 <= k < |c'.entries|
        ensures SentOk(cfg, c'.entries[k], FramesFor(c'.w.frames, IdOf(k)), c'.w.broken)
      {
        assert SentOk(cfg, c.entries[k], FramesFor(c.w.frames, IdOf(k)), c.w.broken);
      }
    }
  }
}
