/** metadata.go: a map of string lists. The lists are Go slices, windows of backing arrays that other
    lists may share, so that what one operation leaves alone has to be proved. */
module Metadata {
  import opened Types

  // ---------------------------------------------------------------- slices

  /** A nil slice, or a window of a backing array with room to grow up to `cap`. */
  datatype Slice = Nil | Slice(arr: array<string>, off: nat, len: nat, cap: nat)
  {
    predicate Ok() { Slice? ==> len <= cap && off + cap <= arr.Length }

    function Len(): nat { if Nil? then 0 else len }

    function Arrays(): set<array<string>> { if Nil? then {} else {arr} }

    function Values(): seq<string>
      requires Ok()
      reads Arrays()
    {
      if Nil? then [] else arr[off..off + len]
    }

    /** None for a nil list, which is not the same as an empty one. */
    function Listed(): Option<seq<string>>
      requires Ok()
      reads Arrays()
    {
      if Nil? then None else Some(Values())
    }
  }

  /** No cell that one of the slices owns or could grow into belongs to the other. */
  predicate Apart(s: Slice, t: Slice) {
    s.Slice? && t.Slice? && s.arr == t.arr ==> s.off + s.cap <= t.off || t.off + t.cap <= s.off
  }

  ghost predicate AllApart(m: map<string, Slice>) {
    forall j, k | j in m && k in m && j != k :: Apart(m[j], m[k])
  }

  lemma StoredApart(m: map<string, Slice>, k: string, list: Slice)
    requires AllApart(m) && forall j | j in m && j != k :: Apart(m[j], list)
    ensures AllApart(m[k := list])
  {
  }

  /** The built-in copy. */
  method Copy(dst: Slice, src: Slice) returns (n: nat)
    requires dst.Ok() && src.Ok() && dst.Arrays() !! src.Arrays()
    modifies dst.Arrays()
    ensures n == if src.Len() < dst.Len() then src.Len() else dst.Len()
    ensures dst.Slice? ==> dst.arr[dst.off..dst.off + n] == old(src.Values())[..n]
    ensures dst.Slice? ==> forall i | 0 <= i < dst.arr.Length && !(dst.off <= i < dst.off + n) :: dst.arr[i] == old(dst.arr[i])
  {
    var count := if src.Len() < dst.Len() then src.Len() else dst.Len();
    ghost var vs := src.Values();
    n := 0;
    while n < count
      invariant n <= count
      invariant dst.Slice? ==> forall i | 0 <= i < n :: dst.arr[dst.off + i] == vs[i]
      invariant dst.Slice? ==> forall i | 0 <= i < dst.arr.Length && !(dst.off <= i < dst.off + n) :: dst.arr[i] == old(dst.arr[i])
    {
      assert src.arr[src.off + n] == vs[n];
      dst.arr[dst.off + n] := src.arr[src.off + n];
      n := n + 1;
    }
  }

  /** The next copied list, cut off the front of what is left of the shared array with no room to grow;
      a nil list stays nil. */
  method CopyList(vv: Slice, left: Slice) returns (copied: Slice, rest: Slice)
    requires vv.Ok() && left.Ok() && left.Slice? && left.len == left.cap && vv.Len() <= left.len && left.arr !in vv.Arrays()
    modifies left.arr
    ensures vv.Nil? ==> copied == Nil
    ensures vv.Slice? ==> copied == Slice(left.arr, left.off, vv.len, vv.len)
    ensures rest == Slice(left.arr, left.off + vv.Len(), left.len - vv.Len(), left.len - vv.Len())
    ensures copied.Ok() && copied.Listed() == old(vv.Listed())
    ensures forall i | 0 <= i < left.arr.Length && !(left.off <= i < left.off + vv.Len()) :: left.arr[i] == old(left.arr[i])
  {
    if vv.Nil? { return Nil, left; }
    var n := Copy(left, vv);
    copied := Slice(left.arr, left.off, n, n);
    rest := Slice(left.arr, left.off + n, left.len - n, left.cap - n);
    assert old(vv.Values())[..n] == old(vv.Values());
  }

  /** There is room behind the slice for n more values. */
  predicate HasRoom(s: Slice, n: nat) { s.Slice? && s.len + n <= s.cap }

  /** What a cell holds after values have been written behind the slice. */
  function CellAfter(s: Slice, vs: seq<string>, arr: array<string>, i: nat, was: string): string {
    if HasRoom(s, |vs|) && s.arr == arr && s.off + s.len <= i < s.off + s.len + |vs| then vs[i - (s.off + s.len)] else was
  }

  /** The slice with more of its room in use. */
  predicate GrownFrom(s: Slice, t: Slice) { s.Slice? && t.Slice? && t == s.(len := t.len) }

  /** The list does not show what is written behind the slice: none of its cells is overwritten by another value. */
  predicate Undisturbed(s: Slice, vs: seq<string>, t: Slice)
    requires t.Ok()
    reads t.Arrays()
  {
    t.Slice? ==> forall i | t.off <= i < t.off + t.len :: CellAfter(s, vs, t.arr, i, t.arr[i]) == t.arr[i]
  }

  /** A list reads as before if and only if none of its cells has changed. */
  lemma ShownIn(s: Slice, vs: seq<string>, t: Slice, before: seq<string>, after: seq<string>)
    requires t.Slice? && t.off + t.len <= |before| == |after|
    requires forall i | 0 <= i < |before| :: after[i] == CellAfter(s, vs, t.arr, i, before[i])
    ensures after[t.off..t.off + t.len] == before[t.off..t.off + t.len] <==>
            forall i | t.off <= i < t.off + t.len :: CellAfter(s, vs, t.arr, i, before[i]) == before[i]
  {
    if after[t.off..t.off + t.len] == before[t.off..t.off + t.len] {
      forall i | t.off <= i < t.off + t.len ensures after[i] == before[i] {
        assert after[t.off..t.off + t.len][i - t.off] == before[t.off..t.off + t.len][i - t.off];
      }
    }
  }

  lemma SameWindow(a: seq<string>, b: seq<string>, lo: nat, hi: nat)
    requires lo <= hi <= |a| == |b|
    requires forall i | lo <= i < hi :: a[i] == b[i]
    ensures a[lo..hi] == b[lo..hi]
  {
  }

  lemma WindowGrown(before: seq<string>, after: seq<string>, off: nat, len: nat, vs: seq<string>)
    requires off + len + |vs| <= |before| == |after|
    requires forall i | 0 <= i < |before| :: after[i] == if off + len <= i < off + len + |vs| then vs[i - (off + len)] else before[i]
    ensures after[off..off + len + |vs|] == before[off..off + len] + vs
  {
  }

  /** The built-in append: in place if there is room, else in a new array, which may get spare capacity of
      its own. */
  method AppendTo(s: Slice, vs: seq<string>) returns (r: Slice)
    requires s.Ok()
    modifies s.Arrays()
    ensures r.Ok() && r.Values() == old(s.Values()) + vs
    ensures vs == [] ==> r == s
    ensures vs != [] ==> r.Slice? && if HasRoom(s, |vs|) then r == s.(len := s.len + |vs|) else fresh(r.arr)
    ensures s.Slice? ==> forall i | 0 <= i < s.arr.Length :: s.arr[i] == CellAfter(s, vs, s.arr, i, old(s.arr[i]))
  {
    if vs == [] {
      r := s;
    } else if s.Slice? && s.len + |vs| <= s.cap {
      AppendInPlace(s, vs);
      r := s.(len := s.len + |vs|);
    } else {
      var spare: nat :| 0 <= spare;
      var all := s.Values() + vs;
      var arr := new string[|all| + spare](i requires 0 <= i => if i < |all| then all[i] else "");
      r := Slice(arr, 0, |all|, arr.Length);
    }
  }

  method AppendInPlace(s: Slice, vs: seq<string>)
    requires s.Ok() && HasRoom(s, |vs|)
    modifies s.arr
    ensures forall j | 0 <= j < s.arr.Length :: s.arr[j] == CellAfter(s, vs, s.arr, j, old(s.arr[j]))
    ensures s.arr[s.off..s.off + s.len + |vs|] == old(s.Values()) + vs
  {
    ghost var before := s.arr[..];
    var i := 0;
    while i < |vs|
      invariant 0 <= i <= |vs|
      invariant forall j | 0 <= j < s.arr.Length ::
                  s.arr[j] == if s.off + s.len <= j < s.off + s.len + i then vs[j - (s.off + s.len)] else old(s.arr[j])
    {
      s.arr[s.off + s.len + i] := vs[i];
      i := i + 1;
    }
    WindowGrown(before, s.arr[..], s.off, s.len, vs);
    assert s.arr[..][s.off..s.off + s.len + |vs|] == s.arr[s.off..s.off + s.len + |vs|];
    assert before[s.off..s.off + s.len] == old(s.Values());
  }

  // ---------------------------------------------------------------- metadata as a value

  /** What a metadata map says: for each key its list, None for a nil one. */
  type Meta = map<string, Option<seq<string>>>

  function ListOf(md: Meta, k: string): seq<string> {
    if k in md && md[k].Some? then md[k].value else []
  }

  function SetIn(md: Meta, k: string, vs: seq<string>): Meta {
    if vs == [] then md - {k} else md[k := Some(vs)]
  }

  lemma Updated(before: Meta, after: Meta, k: string, v: Option<seq<string>>)
    requires after.Keys == before.Keys + {k} && after[k] == v && forall j | j in before && j != k :: after[j] == before[j]
    ensures after == before[k := v]
  {
  }

  /** Where the key's own list has grown, the map is as it should be if and only if the other lists are the same. */
  lemma OthersSame(before: Meta, after: Meta, k: string, vs: seq<string>)
    requires after.Keys == if vs == [] then before.Keys else before.Keys + {k}
    requires k in after ==> after[k] == if vs == [] then before[k] else Some(ListOf(before, k) + vs)
    ensures after == AppendIn(before, k, vs) <==> forall j | j in before && j != k :: after[j] == before[j]
  {
    if forall j | j in before && j != k :: after[j] == before[j] {
      if vs != [] { Updated(before, after, k, Some(ListOf(before, k) + vs)); }
    }
  }

  function AppendIn(md: Meta, k: string, vs: seq<string>): Meta {
    if vs == [] then md else md[k := Some(ListOf(md, k) + vs)]
  }

  /** One key and value of a request's metadata. */
  datatype Pair = Pair(key: string, value: string)

  function PairsOf(k: string, vs: seq<string>): seq<Pair> {
    seq(|vs|, i requires 0 <= i < |vs| => Pair(k, vs[i]))
  }

  /** The pairs of a map whose keys are visited in a given order. */
  function Pairs(md: Meta, order: seq<string>): seq<Pair> {
    if order == [] then [] else Pairs(md, order[..|order| - 1]) + PairsOf(order[|order| - 1], ListOf(md, order[|order| - 1]))
  }

  lemma PairsSnoc(md: Meta, order: seq<string>, k: string)
    ensures Pairs(md, order + [k]) == Pairs(md, order) + PairsOf(k, ListOf(md, k))
  {
    assert (order + [k])[..|order|] == order;
  }

  lemma PairsMore(before: seq<Pair>, md: Meta, order: seq<string>, k: string)
    ensures before + Pairs(md, order) + PairsOf(k, ListOf(md, k)) == before + Pairs(md, order + [k])
  {
    PairsSnoc(md, order, k);
  }

  /** The map that adding the pairs one by one makes of another. */
  function Gather(md: Meta, ps: seq<Pair>): Meta {
    if ps == [] then md
    else AppendIn(Gather(md, ps[..|ps| - 1]), ps[|ps| - 1].key, [ps[|ps| - 1].value])
  }

  /** An order in which the keys of a map can be visited: each once. */
  predicate Visits(order: seq<string>, keys: set<string>) {
    multiset(order) == multiset(keys)
  }

  /** The map without its empty and nil lists. */
  function NonEmpty(md: Meta): Meta {
    map k | k in md && ListOf(md, k) != [] :: md[k]
  }

  lemma AppendTwice(md: Meta, k: string, a: seq<string>, b: seq<string>)
    ensures AppendIn(AppendIn(md, k, a), k, b) == AppendIn(md, k, a + b)
  {
    assert ListOf(md, k) + a + b == ListOf(md, k) + (a + b);
    assert a == [] ==> a + b == b;
    assert b == [] ==> a + b == a;
  }

  lemma {:induction false} GatherList(md: Meta, ps: seq<Pair>, k: string, vs: seq<string>)
    ensures Gather(md, ps + PairsOf(k, vs)) == AppendIn(Gather(md, ps), k, vs)
  {
    if vs == [] {
      assert ps + PairsOf(k, vs) == ps;
    } else {
      var n := |vs| - 1;
      GatherList(md, ps, k, vs[..n]);
      assert ps + PairsOf(k, vs) == (ps + PairsOf(k, vs[..n])) + [Pair(k, vs[n])];
      AppendTwice(Gather(md, ps), k, vs[..n], [vs[n]]);
      assert vs == vs[..n] + [vs[n]];
    }
  }

  /** The non-empty lists under some of the keys. */
  function Selected(md: Meta, order: seq<string>): Meta {
    map k | k in md && k in order && ListOf(md, k) != [] :: md[k]
  }

  lemma SelectedSnoc(md: Meta, order: seq<string>, k: string)
    requires k in md && k !in order
    ensures Selected(md, order + [k]) == AppendIn(Selected(md, order), k, ListOf(md, k))
  {
    assert [] + ListOf(md, k) == ListOf(md, k);
  }

  lemma {:induction false} GatherPairs(md: Meta, order: seq<string>, keys: set<string>)
    requires Visits(order, keys) && keys <= md.Keys
    ensures Gather(map[], Pairs(md, order)) == Selected(md, order)
  {
    if order != [] {
      var (before, k) := (order[..|order| - 1], order[|order| - 1]);
      assert order == before + [k];
      VisitsLess(before, k, keys);
      GatherPairs(md, before, keys - {k});
      GatherPairsMore(md, before, k);
    }
  }

  lemma {:induction false} GatherPairsMore(md: Meta, order: seq<string>, k: string)
    requires k in md && k !in order && Gather(map[], Pairs(md, order)) == Selected(md, order)
    ensures Gather(map[], Pairs(md, order + [k])) == Selected(md, order + [k])
  {
    PairsSnoc(md, order, k);
    GatherList(map[], Pairs(md, order), k, ListOf(md, k));
    SelectedSnoc(md, order, k);
  }

  lemma VisitsLess(order: seq<string>, k: string, keys: set<string>)
    requires Visits(order + [k], keys)
    ensures k in keys && k !in order && Visits(order, keys - {k})
  {
    assert multiset(order + [k]) == multiset(order) + multiset{k};
    assert multiset(order) == multiset(keys) - multiset{k};
    assert multiset(keys)[k] == multiset(order)[k] + 1;
    assert multiset(keys) == multiset(keys - {k}) + multiset{k};
  }

  lemma VisitsAll(order: seq<string>, keys: set<string>)
    requires Visits(order, keys)
    ensures forall k | k in keys :: k in order
  {
    forall k | k in keys ensures k in order {
      assert k in multiset(keys);
    }
  }

  lemma VisitsMore(order: seq<string>, keys: set<string>, k: string)
    requires Visits(order, keys) && k !in keys
    ensures Visits(order + [k], keys + {k})
  {
  }

  /** What a client puts in a request is what the server finds in it, for every order in which the map is
      visited: the same lists under the same keys, but for the empty ones. */
  lemma RequestRoundTrip(md: Meta, order: seq<string>)
    requires Visits(order, md.Keys)
    ensures Gather(map[], Pairs(md, order)) == NonEmpty(md)
  {
    GatherPairs(md, order, md.Keys);
    VisitsAll(order, md.Keys);
  }

  // ---------------------------------------------------------------- metadata as a map of slices

  /** How many values the lists under the keys hold together. */
  ghost function Total(m: map<string, Slice>, keys: set<string>): nat
    requires keys <= m.Keys
  {
    if keys == {} then 0 else var k :| k in keys; m[k].Len() + Total(m, keys - {k})
  }

  lemma {:induction false} TotalLess(m: map<string, Slice>, keys: set<string>, k: string)
    requires k in keys && keys <= m.Keys
    ensures Total(m, keys) == m[k].Len() + Total(m, keys - {k})
    decreases keys
  {
    var j :| j in keys && Total(m, keys) == m[j].Len() + Total(m, keys - {j});
    if j != k {
      TotalLess(m, keys - {j}, k);
      TotalLess(m, keys - {k}, j);
      assert keys - {j} - {k} == keys - {k} - {j};
    }
  }

  class Request {
    var metadata: seq<Pair>
    constructor () ensures metadata == [] { metadata := []; }
  }

  /** `lower` is strings.ToLower. */
  class MD {
    var m: map<string, Slice>
    const lower: string -> string

    ghost function Arrays(): set<array<string>>
      reads this
    {
      set k | k in m && m[k].Slice? :: m[k].arr
    }

    ghost predicate Valid()
      reads this
    {
      forall k | k in m :: m[k].Ok()
    }

    /** No two lists share cells they hold or may grow into. */
    ghost predicate Separate()
      reads this
    {
      AllApart(m)
    }

    ghost function Contents(): Meta
      requires Valid()
      reads this, Arrays()
    {
      map k | k in m :: m[k].Listed()
    }

    constructor (lower: string -> string)
      ensures m == map[] && Valid() && Separate() && Contents() == map[] && Arrays() == {}
      ensures this.lower == lower
    {
      this.lower := lower;
      m := map[];
    }

    method Get(key: string) returns (list: Slice, ok: bool)
      requires Valid()
      ensures list.Ok() && list.Arrays() <= Arrays()
      ensures ok <==> ListOf(Contents(), lower(key)) != []
      ensures list.Values() == ListOf(Contents(), lower(key))
      ensures !ok ==> list == Nil
    {
      var k := lower(key);
      if k !in m || m[k].Len() == 0 { return Nil, false; }
      return m[k], true;
    }

    /** m[k] = list. */
    method Store(k: string, list: Slice)
      requires Valid() && list.Ok()
      modifies this
      ensures m == old(m)[k := list] && Valid() && Arrays() <= old(Arrays()) + list.Arrays()
      ensures Contents() == old(Contents())[k := list.Listed()]
      ensures old(Separate()) && (forall j | j in old(m) && j != k :: Apart(old(m)[j], list)) ==> Separate()
    {
      m := m[k := list];
    }

    method Set(key: string, values: Slice)
      requires Valid() && values.Ok()
      modifies this
      ensures Valid() && Arrays() <= old(Arrays()) + values.Arrays()
      ensures m == if values.Len() == 0 then old(m) - {lower(key)} else old(m)[lower(key) := values]
      ensures Contents() == SetIn(old(Contents()), lower(key), values.Values())
      ensures old(Separate()) && (forall j | j in old(m) && j != lower(key) :: Apart(old(m)[j], values)) ==> Separate()
    {
      var k := lower(key);
      if values.Len() == 0 {
        m := m - {k};
      } else {
        Store(k, values);
      }
    }

    /** m[k], which is nil for a key that is not there. */
    function Current(k: string): Slice
      reads this
    {
      if k in m then m[k] else Nil
    }

    /** append(m[k], values...) on separate lists: it may write into the backing array of the key's list, which
        shows in none of them. */
    method Grown(k: string, values: seq<string>) returns (more: Slice)
      requires Valid() && Separate() && values != []
      modifies Arrays()
      ensures more.Ok() && more.Slice? && more.Values() == ListOf(old(Contents()), k) + values
      ensures fresh(more.arr) || more.arr in Arrays()
      ensures Contents() == old(Contents())
      ensures forall j | j in m && j != k :: Apart(m[j], more)
    {
      ghost var before := Contents();
      assert Current(k).Values() == ListOf(before, k);
      more := GrowList(k, values);
      assert forall j | j in m :: m[j].Listed() == before[j];
    }

    method GrowList(k: string, values: seq<string>) returns (more: Slice)
      requires Valid() && Separate() && values != []
      modifies Arrays()
      ensures more.Ok() && more.Slice? && more.Values() == old(Current(k).Values()) + values
      ensures fresh(more.arr) || more.arr in Arrays()
      ensures forall j | j in m :: m[j].Listed() == old(m[j].Listed()) && (j != k ==> Apart(m[j], more))
    {
      var current := Current(k);
      assert forall j | j in m && j != k :: Apart(m[j], current);
      more := AppendTo(current, values);
      forall j | j in m ensures m[j].Listed() == old(m[j].Listed()) {
        if m[j].Slice? { SameWindow(m[j].arr[..], old(m[j].arr[..]), m[j].off, m[j].off + m[j].len); }
      }
    }

    /** Append, which stores its argument as it is under a new key, and lowers the key twice. If the key's list
        has room, what is written behind it shows in every other list that covers those cells. */
    method Append(key: string, values: Slice) returns (ghost list: Slice)
      requires Valid() && values.Ok()
      modifies this, Arrays()
      ensures Valid() && list.Ok()
      ensures m == if values.Len() == 0 then old(m) else old(m)[lower(lower(key)) := list]
      ensures list.Values() == old(Current(lower(key)).Values()) + old(values.Values())
      ensures lower(key) !in old(m) && values.Len() > 0 ==> list == values
      ensures lower(key) in old(m) && values.Len() > 0 ==>
                list.Slice? && if HasRoom(old(m)[lower(key)], values.Len()) then list == old(m)[lower(key)].(len := list.len) else fresh(list.arr)
      ensures forall a, i | a in old(Arrays()) && 0 <= i < a.Length ::
                a[i] == CellAfter(old(Current(lower(key))), old(values.Values()), a, i, old(a[i]))
    {
      list := Current(lower(key));
      if values.Len() == 0 { return; }
      var k := lower(key);
      if k in m {
        var more := AppendTo(m[k], values.Values());
        list := more;
        Set(k, more);
      } else {
        list := values;
        Set(k, values);
      }
    }

    /** One value appended to a list with room for it. */
    method AppendOne(key: string, s: Slice, x: string)
      requires Valid() && lower(lower(key)) == lower(key) && lower(key) in m && m[lower(key)] == s && HasRoom(s, 1)
      modifies this, Arrays()
      ensures Valid() && m == old(m)[lower(key) := s.(len := s.len + 1)] && Arrays() <= old(Arrays())
      ensures s.(len := s.len + 1).Values() == old(s.Values()) + [x]
      ensures forall i | 0 <= i < s.arr.Length && i != s.off + s.len :: s.arr[i] == old(s.arr[i])
    {
      var xs := new string[1](_ => x);
      ghost var list := Append(key, Slice(xs, 0, 1, 1));
      assert list.Values() == old(s.Values()) + [x];
    }

    /** Which lists show what Append writes: one that keeps its slice reads as before if and only if it is
        undisturbed, whatever is shared. */
    method AppendShows(key: string, values: Slice) returns (ghost list: Slice)
      requires Valid() && values.Ok()
      modifies this, Arrays()
      ensures Valid() && list.Ok()
      ensures m == if values.Len() == 0 then old(m) else old(m)[lower(lower(key)) := list]
      ensures list.Values() == old(Current(lower(key)).Values()) + old(values.Values())
      ensures values.Len() > 0 ==> list.Slice? && (list == values || GrownFrom(old(Current(lower(key))), list) || fresh(list.arr))
      ensures forall j | j in old(m) && (j != lower(lower(key)) || values.Len() == 0) ::
                m[j].Listed() == old(m[j].Listed()) <==> old(Undisturbed(Current(lower(key)), values.Values(), m[j]))
    {
      ghost var (current, vs) := (Current(lower(key)), values.Values());
      list := Append(key, values);
      forall j | j in old(m) && (j != lower(lower(key)) || values.Len() == 0)
        ensures m[j].Listed() == old(m[j].Listed()) <==> old(Undisturbed(Current(lower(key)), values.Values(), m[j]))
      {
        var t := m[j];
        assert t == old(m)[j] && t.Arrays() <= old(Arrays());
        if t.Slice? { ShownIn(current, vs, t, old(t.arr[..]), t.arr[..]); }
      }
    }

    /** Append changes its own key's list and no other if and only if every other list is undisturbed. */
    method AppendExactly(key: string, values: Slice) returns (ghost list: Slice)
      requires Valid() && values.Ok()
      requires lower(lower(key)) == lower(key)
      modifies this, Arrays()
      ensures Valid() && list.Ok()
      ensures m == if values.Len() == 0 then old(m) else old(m)[lower(key) := list]
      ensures values.Len() > 0 ==> list.Slice? && (list == values || GrownFrom(old(Current(lower(key))), list) || fresh(list.arr))
      ensures Contents() == AppendIn(old(Contents()), lower(key), old(values.Values())) <==>
              forall j | j in old(m) && j != lower(key) :: old(Undisturbed(Current(lower(key)), values.Values(), m[j]))
    {
      ghost var (before, k, vs) := (Contents(), lower(key), values.Values());
      assert Current(k).Values() == ListOf(before, k);
      list := AppendShows(key, values);
      assert forall j | j in before && (j != k || vs == []) :: Contents()[j] == m[j].Listed();
      OthersSame(before, Contents(), k, vs);
    }

    /** So on lists that are separate, from each other and from the argument, no other list changes, and they
        stay separate. */
    method AppendApart(key: string, values: Slice)
      requires Valid() && values.Ok() && Separate() && (forall j | j in m :: Apart(m[j], values))
      requires lower(lower(key)) == lower(key)
      modifies this, Arrays()
      ensures Valid() && Separate()
      ensures Contents() == AppendIn(old(Contents()), lower(key), old(values.Values()))
    {
      ghost var k := lower(key);
      assert forall j | j in m && j != k :: Apart(m[j], Current(k)) && Undisturbed(Current(k), values.Values(), m[j]);
      ghost var list := AppendExactly(key, values);
      if values.Len() > 0 { StoredApart(old(m), k, list); }
    }

    /** The inner loop of setRequest. */
    method AddValues(r: Request, k: string)
      requires Valid() && k in m
      modifies r
      ensures Contents() == old(Contents())
      ensures r.metadata == old(r.metadata) + PairsOf(k, ListOf(Contents(), k))
    {
      var values := m[k].Values();
      var i := 0;
      while i < |values|
        invariant 0 <= i <= |values|
        invariant r.metadata == old(r.metadata) + PairsOf(k, values[..i])
      {
        assert PairsOf(k, values[..i + 1]) == PairsOf(k, values[..i]) + [Pair(k, values[i])];
        r.metadata := r.metadata + [Pair(k, values[i])];
        i := i + 1;
      }
      assert values[..i] == values;
      assert forall j | j in m :: m[j].Listed() == old(m[j].Listed());
    }

    /** `order` is the order in which the map happened to be visited. */
    method SetRequest(r: Request) returns (ghost order: seq<string>)
      requires Valid()
      modifies r
      ensures Contents() == old(Contents()) && Visits(order, Contents().Keys)
      ensures r.metadata == old(r.metadata) + Pairs(Contents(), order)
    {
      ghost var (before, seen) := (r.metadata, {});
      order := [];
      var rest := m.Keys;
      while rest != {}
        invariant seen + rest == m.Keys && seen !! rest && Visits(order, seen)
        invariant Contents() == old(Contents()) && r.metadata == before + Pairs(Contents(), order)
        decreases |rest|
      {
        var k :| k in rest;
        order := VisitKey(r, k, before, order, seen);
        rest, seen := rest - {k}, seen + {k};
      }
    }

    method VisitKey(r: Request, k: string, ghost before: seq<Pair>, ghost order: seq<string>, ghost seen: set<string>)
      returns (ghost more: seq<string>)
      requires Valid() && k in m && k !in seen && Visits(order, seen) && r.metadata == before + Pairs(Contents(), order)
      modifies r
      ensures Contents() == old(Contents())
      ensures Visits(more, seen + {k}) && r.metadata == before + Pairs(Contents(), more)
    {
      PairsMore(before, Contents(), order, k);
      VisitsMore(order, seen, k);
      AddValues(r, k);
      more := order + [k];
    }

    method AppendAt(k: string, values: seq<string>)
      requires Valid() && Separate() && values != []
      modifies this, Arrays()
      ensures Valid() && Separate() && fresh(Arrays() - old(Arrays()))
      ensures Contents() == AppendIn(old(Contents()), k, values)
    {
      var more := Grown(k, values);
      Store(k, more);
    }

    method FromRequest(r: Request)
      requires Valid() && Separate()
      modifies this, Arrays()
      ensures Valid() && Separate() && fresh(Arrays() - old(Arrays()))
      ensures Contents() == Gather(old(Contents()), r.metadata)
    {
      var i := 0;
      while i < |r.metadata|
        invariant 0 <= i <= |r.metadata| && Valid() && Separate() && fresh(Arrays() - old(Arrays()))
        invariant Contents() == Gather(old(Contents()), r.metadata[..i])
      {
        assert r.metadata[..i + 1][..i] == r.metadata[..i];
        AppendAt(r.metadata[i].key, [r.metadata[i].value]);
        i := i + 1;
      }
      assert r.metadata[..i] == r.metadata;
    }

    method CountValues() returns (nv: nat)
      ensures nv == Total(m, m.Keys)
    {
      nv := 0;
      var rest := m.Keys;
      while rest != {}
        invariant rest <= m.Keys && nv + Total(m, rest) == Total(m, m.Keys)
        decreases |rest|
      {
        var k :| k in rest;
        TotalLess(m, rest, k);
        nv := nv + m[k].Len();
        rest := rest - {k};
      }
    }

    /** A list of a clone: nil, or a window of the shared array, in front of `used`, that cannot grow. */
    ghost predicate PackedIn(k: string, sv: array<string>, used: nat)
      requires k in m
      reads this
    {
      m[k].Ok() && (m[k].Slice? ==> m[k].arr == sv && m[k].cap == m[k].len && m[k].off + m[k].len <= used)
    }

    /** One turn of Clone's second loop, on the copy under construction. */
    method TakeCopy(k: string, vv: Slice, left: Slice) returns (rest: Slice)
      requires k !in m && vv.Ok() && left.Ok() && left.Slice? && left.len == left.cap && vv.Len() <= left.len
      requires left.arr !in vv.Arrays()
      requires Valid() && Separate() && forall j | j in m :: PackedIn(j, left.arr, left.off)
      modifies this, left.arr
      ensures Valid()
      ensures rest == Slice(left.arr, left.off + vv.Len(), left.len - vv.Len(), left.len - vv.Len())
      ensures m.Keys == old(m.Keys) + {k}
      ensures Separate() && forall j | j in m :: PackedIn(j, left.arr, rest.off)
      ensures m[k].Listed() == old(vv.Listed())
      ensures forall j | j in old(m) :: m[j].Listed() == old(m[j].Listed())
    {
      var copied;
      copied, rest := CopyList(vv, left);
      forall j | j in m ensures m[j].Listed() == old(m[j].Listed()) && Apart(m[j], copied) {
        if m[j].Slice? {
          SameWindow(left.arr[..], old(left.arr[..]), m[j].off, m[j].off + m[j].len);
        }
      }
      m := m[k := copied];
    }

    /** The lists copied so far are those of `this`, packed into the front of the shared array. */
    ghost predicate CopiedTo(c: MD, left: Slice)
      requires Valid()
      reads this, Arrays(), c, left.Arrays()
    {
      && left.Ok() && left.Slice? && left.len == left.cap && left.arr !in Arrays()
      && c.Separate() && c.m.Keys <= m.Keys
      && forall k | k in c.m :: c.PackedIn(k, left.arr, left.off) && c.m[k].Listed() == m[k].Listed()
    }

    method CopyOne(c: MD, k: string, left: Slice) returns (rest: Slice)
      requires Valid() && k in m && k !in c.m && c != this && CopiedTo(c, left) && m[k].Len() <= left.len
      modifies c, left.arr
      ensures Contents() == old(Contents()) && m == old(m)
      ensures c.m.Keys == old(c.m.Keys) + {k} && CopiedTo(c, rest)
      ensures rest == Slice(left.arr, left.off + m[k].Len(), left.len - m[k].Len(), left.len - m[k].Len())
    {
      rest := c.TakeCopy(k, m[k], left);
      assert forall j | j in m :: m[j].Listed() == old(m[j].Listed());
    }

    lemma SameLists(c: MD, left: Slice)
      requires Valid() && CopiedTo(c, left) && c.m.Keys == m.Keys
      ensures c.Valid() && c.Contents() == Contents()
      ensures forall k | k in c.m :: c.PackedIn(k, left.arr, left.arr.Length)
    {
      assert forall k | k in m :: c.m[k].Listed() == m[k].Listed();
    }

    /** Clone's second loop. */
    method CopyAll(c: MD, room: Slice) returns (left: Slice)
      requires Valid() && c.m == map[] && c != this && CopiedTo(c, room) && room.len >= Total(m, m.Keys)
      modifies c, room.arr
      ensures Contents() == old(Contents()) && m == old(m)
      ensures c.m.Keys == m.Keys && left.Slice? && left.arr == room.arr && CopiedTo(c, left)
    {
      left := room;
      var rest := m.Keys;
      while rest != {}
        invariant rest <= m.Keys && c.m.Keys == m.Keys - rest
        invariant m == old(m) && Contents() == old(Contents()) && CopiedTo(c, left)
        invariant left.arr == room.arr && left.len >= Total(m, rest)
        decreases |rest|
      {
        var k :| k in rest;
        TotalLess(m, rest, k);
        left := CopyOne(c, k, left);
        rest := rest - {k};
      }
    }

    /** A copy whose lists all live in one array with exactly enough room: equal by value, nil lists still
        nil, no list able to grow into another, and nothing shared with the original. */
    method CloneMap() returns (c: MD, ghost sv: array<string>)
      requires Valid()
      ensures fresh(c) && fresh(sv) && c.lower == lower
      ensures c.Valid() && c.Separate() && c.Contents() == old(Contents())
      ensures sv.Length == Total(m, m.Keys)
      ensures forall k | k in c.m :: c.PackedIn(k, sv, sv.Length)
    {
      var nv := CountValues();
      var shared := new string[nv];
      c := new MD(lower);
      var left := CopyAll(c, Slice(shared, 0, nv, nv));
      sv := shared;
      SameLists(c, left);
    }

    /** Clone, which of a nil map makes a nil map. */
    static method Clone(md: MD?) returns (c: MD?, ghost sv: array?<string>)
      requires md != null ==> md.Valid()
      ensures c == null <==> md == null
      ensures md != null ==>
                && fresh(c) && sv != null && fresh(sv) && c.lower == md.lower
                && c.Valid() && c.Separate() && c.Contents() == old(md.Contents())
                && sv.Length == Total(md.m, md.m.Keys)
                && forall k | k in c.m :: c.PackedIn(k, sv, sv.Length)
    {
      if md == null { return null, null; }
      c, sv := md.CloneMap();
    }

    method SetBoth(a: string, b: string, s: Slice)
      requires Valid() && s.Ok() && s.Len() > 0
      modifies this
      ensures Valid() && m == old(m)[lower(a) := s][lower(b) := s] && Arrays() <= old(Arrays()) + s.Arrays()
    {
      Set(a, s);
      Set(b, s);
    }

    /** Two keys set to one slice with room to grow: what is appended to the second list overwrites what was
        appended to the first. */
    method AliasedLists(a: string, b: string, s: Slice, x: string, y: string)
      requires Valid() && s.Ok() && s.Len() > 0 && HasRoom(s, 1)
      requires lower(lower(a)) == lower(a) && lower(lower(b)) == lower(b) && lower(a) != lower(b)
      modifies this, Arrays(), s.arr
      ensures m == old(m)[lower(a) := s.(len := s.len + 1)][lower(b) := s.(len := s.len + 1)]
      ensures s.(len := s.len + 1).Values() == old(s.Values()) + [y]
    {
      SetBoth(a, b, s);
      AppendOne(a, s, x);
      assert s.Values() == old(s.Values());
      AppendOne(b, s, y);
    }
  }
}
