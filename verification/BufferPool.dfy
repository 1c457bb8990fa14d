/** channel.go's global buffer pool as a value: what getmbuf and putmbuf do to it, and what they keep as
    long as each buffer handed out is put back at most once. */
module BufferPool {
  import opened Types

  /** One read of one endpoint. */
  datatype Token = OfClient(n: nat) | OfServer(n: nat)

  /** Buffers are numbered in the order they were made. `free` is what sync.Pool holds, a multiset because
      nothing but its callers keeps a buffer from being put twice. */
  datatype Pool = Pool(caps: seq<nat>, free: multiset<nat>, bufferOf: map<Token, nat>, lengths: map<Token, nat>)

  function Empty(): Pool { Pool([], multiset{}, map[], map[]) }

  function HandOut(p: Pool, t: Token, n: nat, b: nat): Pool {
    p.(bufferOf := p.bufferOf[t := b], lengths := p.lengths[t := n])
  }

  function Make(p: Pool, t: Token, n: nat): Pool {
    HandOut(p.(caps := p.caps + [n]), t, n, |p.caps|)
  }

  /** getmbuf(n) for a read: sync.Pool hands over any of its buffers, or none; one that is too small is
      dropped. A message without data has no buffer. */
  function Get(p: Pool, t: Token, n: nat, offered: Option<nat>): Pool {
    if n == 0 then p
    else if offered.None? || offered.value !in p.free || offered.value >= |p.caps| then Make(p, t, n)
    else
      var b := offered.value;
      var rest := Lose(p, b);
      if p.caps[b] < n then Make(rest, t, n) else HandOut(rest, t, n, b)
  }

  /** putmbuf of the buffer a read was given. */
  function Put(p: Pool, t: Token): Pool {
    if t in p.bufferOf then p.(free := p.free + multiset{p.bufferOf[t]}) else p
  }

  /** sync.Pool may drop any of its buffers at any time. */
  function Lose(p: Pool, b: nat): Pool { p.(free := p.free - multiset{b}) }

  /** The reads whose buffers have not been put back. */
  predicate Out(p: Pool, t: Token, puts: set<Token>) { t in p.bufferOf && t !in puts }

  ghost predicate Owned(p: Pool, puts: set<Token>) {
    && p.lengths.Keys == p.bufferOf.Keys
    && (forall t | t in p.bufferOf :: p.bufferOf[t] < |p.caps|)
    && (forall b | b in p.free :: b < |p.caps| && p.free[b] == 1)
    && (forall t | Out(p, t, puts) :: p.bufferOf[t] !in p.free && p.lengths[t] <= p.caps[p.bufferOf[t]])
    && (forall t, u | Out(p, t, puts) && Out(p, u, puts) && t != u :: p.bufferOf[t] != p.bufferOf[u])
  }

  /** Handing out a buffer that is neither free nor out. */
  lemma HandOutOwned(p: Pool, t: Token, n: nat, b: nat, puts: set<Token>)
    requires Owned(p, puts) && t !in p.bufferOf && b < |p.caps| && b !in p.free && n <= p.caps[b]
    requires forall u | Out(p, u, puts) :: p.bufferOf[u] != b
    ensures Owned(HandOut(p, t, n, b), puts)
  {
    var q := HandOut(p, t, n, b);
    forall u | Out(q, u, puts) ensures u == t || Out(p, u, puts) {}
  }

  lemma MakeOwned(p: Pool, t: Token, n: nat, puts: set<Token>)
    requires Owned(p, puts) && t !in p.bufferOf
    ensures Owned(Make(p, t, n), puts)
  {
    var more := p.(caps := p.caps + [n]);
    assert Owned(more, puts) by {
      forall u | Out(more, u, puts) ensures Out(p, u, puts) {}
    }
    forall u | Out(more, u, puts) ensures more.bufferOf[u] != |p.caps| { assert Out(p, u, puts); }
    HandOutOwned(more, t, n, |p.caps|, puts);
  }

  lemma LoseOwned(p: Pool, b: nat, puts: set<Token>)
    requires Owned(p, puts)
    ensures Owned(Lose(p, b), puts)
  {
  }

  /** getmbuf hands out a buffer of the right length that no other read holds and that is not free. */
  lemma GetOwned(p: Pool, t: Token, n: nat, offered: Option<nat>, puts: set<Token>)
    requires Owned(p, puts) && t !in p.bufferOf
    ensures Owned(Get(p, t, n, offered), puts)
  {
    if n > 0 {
      if offered.None? || offered.value !in p.free || offered.value >= |p.caps| {
        MakeOwned(p, t, n, puts);
      } else if p.caps[offered.value] < n {
        DropAndMakeOwned(p, t, n, offered.value, puts);
      } else {
        ReuseOwned(p, t, n, offered.value, puts);
      }
    }
  }

  lemma DropAndMakeOwned(p: Pool, t: Token, n: nat, b: nat, puts: set<Token>)
    requires Owned(p, puts) && t !in p.bufferOf
    ensures Owned(Make(Lose(p, b), t, n), puts)
  {
    LoseOwned(p, b, puts);
    MakeOwned(Lose(p, b), t, n, puts);
  }

  lemma GetRecords(p: Pool, t: Token, n: nat, offered: Option<nat>)
    ensures n > 0 ==> t in Get(p, t, n, offered).bufferOf && t in Get(p, t, n, offered).lengths && Get(p, t, n, offered).lengths[t] == n
    ensures Get(p, t, n, offered).bufferOf.Keys == if n > 0 then p.bufferOf.Keys + {t} else p.bufferOf.Keys
  {
  }

  lemma ReuseOwned(p: Pool, t: Token, n: nat, b: nat, puts: set<Token>)
    requires Owned(p, puts) && t !in p.bufferOf && b in p.free && b < |p.caps| && n <= p.caps[b]
    ensures Owned(HandOut(Lose(p, b), t, n, b), puts)
  {
    LoseOwned(p, b, puts);
    forall u | Out(Lose(p, b), u, puts) ensures p.bufferOf[u] != b { assert Out(p, u, puts); }
    HandOutOwned(Lose(p, b), t, n, b, puts);
  }

  lemma PutOwned(p: Pool, t: Token, puts: set<Token>)
    requires Owned(p, puts) && t !in puts
    ensures Owned(Put(p, t), puts + {t}) && Put(p, t).bufferOf == p.bufferOf
  {
    if t in p.bufferOf { PutOwnedIff(p, t, puts); }
  }

  /** Putting a read's buffer back keeps the pool in order if and only if the buffer is neither in the pool nor
      held by another read. */
  lemma PutOwnedIff(p: Pool, t: Token, puts: set<Token>)
    requires Owned(p, puts) && t in p.bufferOf
    ensures Owned(Put(p, t), puts + {t}) <==>
            p.bufferOf[t] !in p.free && forall u | Out(p, u, puts) && u != t :: p.bufferOf[u] != p.bufferOf[t]
  {
    var (b, q) := (p.bufferOf[t], Put(p, t));
    if b !in p.free && forall u | Out(p, u, puts) && u != t :: p.bufferOf[u] != b {
      forall u | Out(q, u, puts + {t}) ensures Out(p, u, puts) && u != t {}
    } else if b in p.free {
      assert q.free[b] == 2;
    } else {
      var u :| Out(p, u, puts) && u != t && p.bufferOf[u] == b;
      assert Out(q, u, puts + {t}) && b in q.free;
    }
  }

  /** Where it does not: after a second put, two reads can be handed the same buffer. */
  lemma TwicePutIsShared(t: Token, u: Token, v: Token, n: nat)
    requires t != u && t != v && u != v && n > 0
    ensures var p := Put(Put(Get(Empty(), t, n, None), t), t);
            var q := Get(Get(p, u, n, Some(0)), v, n, Some(0));
            q.bufferOf[u] == q.bufferOf[v]
  {
  }
}
