/** config/index.go: the grouped views, rebuilt by counting first and filling exactly. */
module Index {
  import opened Wrappers
  import opened Versions
  import opened Query

  function KeyIs<T, K(==)>(key: T -> K, k: K): T -> bool {
    x => key(x) == k
  }

  function KeysOf<T, K(==)>(key: T -> K, xs: seq<T>): set<K> {
    set i | 0 <= i < |xs| :: key(xs[i])
  }

  /** What the transformed view holds under `k`: the values of its items, end to end. */
  function Gathered<T, K(==), V>(key: T -> K, values: T -> seq<V>, k: K, xs: seq<T>): seq<V> {
    if xs == [] then []
    else Gathered(key, values, k, xs[..|xs| - 1]) + if key(xs[|xs| - 1]) == k then values(xs[|xs| - 1]) else []
  }

  function Flat<T, V>(values: T -> seq<V>, xs: seq<T>): seq<V> {
    if xs == [] then [] else Flat(values, xs[..|xs| - 1]) + values(xs[|xs| - 1])
  }

  /** Flat is the values end to end. */
  lemma {:induction false} FlatIsConcat<T, V>(values: T -> seq<V>, xs: seq<T>, ys: seq<T>, x: T)
    ensures Flat(values, xs + ys) == Flat(values, xs) + Flat(values, ys) && Flat(values, [x]) == values(x)
  {
    assert [x][..0] == [];
    if ys == [] {
      assert xs + ys == xs;
    } else {
      assert (xs + ys)[..|xs + ys| - 1] == xs + ys[..|ys| - 1];
      FlatIsConcat(values, xs, ys[..|ys| - 1], x);
    }
  }

  /** The index answers as a scan would: the items with that key, in source order, flattened. */
  lemma {:induction false} GatheredIsScan<T, K, V>(key: T -> K, values: T -> seq<V>, k: K, xs: seq<T>)
    ensures Gathered(key, values, k, xs) == Flat(values, Filtered(KeyIs(key, k), xs))
  {
    if xs != [] {
      var front, last := xs[..|xs| - 1], xs[|xs| - 1];
      GatheredIsScan(key, values, k, front);
      var kept := Filtered(KeyIs(key, k), front);
      if key(last) != k {
        assert Filtered(KeyIs(key, k), xs) == kept;
      } else {
        assert Filtered(KeyIs(key, k), xs) == kept + [last];
        assert (kept + [last])[..|kept + [last]| - 1] == kept;
      }
    }
  }

  /** With each item as its own one value, the transformed view is the plain one. */
  lemma {:induction false} GatheredSingles<T, K>(key: T -> K, k: K, xs: seq<T>, values: T -> seq<T>)
    requires forall x :: values(x) == [x]
    ensures Gathered(key, values, k, xs) == Filtered(KeyIs(key, k), xs)
  {
    if xs != [] {
      GatheredSingles(key, k, xs[..|xs| - 1], values);
    }
  }

  /** Later items only add: what is gathered so far is a prefix of the whole. */
  lemma {:induction false} GatheredGrows<T, K, V>(key: T -> K, values: T -> seq<V>, k: K, xs: seq<T>, i: nat)
    requires i <= |xs|
    ensures Gathered(key, values, k, xs[..i]) <= Gathered(key, values, k, xs)
  {
    if i < |xs| {
      GatheredGrows(key, values, k, xs[..|xs| - 1], i);
      assert xs[..|xs| - 1][..i] == xs[..i];
    } else {
      assert xs[..i] == xs;
    }
  }

  lemma GatheredStart<T, K(!new), V>(key: T -> K, values: T -> seq<V>)
    ensures forall k :: Gathered(key, values, k, []) == []
  {
  }

  /** One more item: its group gets its values, the others get nothing. */
  lemma GatheredNext<T, K(!new), V>(key: T -> K, values: T -> seq<V>, xs: seq<T>, i: nat)
    requires i < |xs|
    ensures forall k :: Gathered(key, values, k, xs[..i + 1]) ==
              if k == key(xs[i]) then Gathered(key, values, k, xs[..i]) + values(xs[i])
              else Gathered(key, values, k, xs[..i])
  {
    assert xs[..i + 1][..i] == xs[..i];
  }

  lemma {:induction false} KeysMatter<T, K>(key: T -> K, k: K, xs: seq<T>)
    ensures k in KeysOf(key, xs) <==> Filtered(KeyIs(key, k), xs) != []
  {
    if xs != [] {
      var front, last := xs[..|xs| - 1], xs[|xs| - 1];
      KeysMatter(key, k, front);
      KeysGrow(key, front, last);
      assert xs == front + [last];
    }
  }

  lemma KeysGrow<T, K>(key: T -> K, xs: seq<T>, x: T)
    ensures KeysOf(key, xs + [x]) == KeysOf(key, xs) + {key(x)}
  {
    var ys := xs + [x];
    assert forall i :: 0 <= i < |xs| ==> ys[i] == xs[i];
    forall k | k in KeysOf(key, xs) + {key(x)} ensures k in KeysOf(key, ys) {
      if k == key(x) {
        assert key(ys[|xs|]) == k;
      } else {
        var i :| 0 <= i < |xs| && key(xs[i]) == k;
        assert key(ys[i]) == k;
      }
    }
  }

  /** The groups partition the source: every occurrence of an item is in the group of its own
      key, and in no other; and a key has a group exactly when some item has that key. */
  lemma GroupsPartition<T, K>(key: T -> K, xs: seq<T>, x: T, k: K)
    ensures multiset(Filtered(KeyIs(key, k), xs))[x] == if k == key(x) then multiset(xs)[x] else 0
    ensures k in KeysOf(key, xs) <==> Filtered(KeyIs(key, k), xs) != []
  {
    FilteredCounts(KeyIs(key, k), xs, x);
    KeysMatter(key, k, xs);
  }

  // ---------------------------------------------------------------- groups in memory

  /** A Go slice with spare capacity: `len` of the cells of `buf` are in use. */
  datatype Group<V> = Group(buf: array<V>, len: nat) {
    ghost predicate Valid() { len <= buf.Length }

    function Contents(): seq<V>
      requires Valid()
      reads buf
    {
      buf[..len]
    }
  }

  function Bufs<K, V>(index: map<K, Group<V>>): set<array<V>> {
    set k | k in index :: index[k].buf
  }

  ghost predicate Separate<K(!new), V>(index: map<K, Group<V>>) {
    forall j, k :: j in index && k in index && j != k ==> index[j].buf != index[k].buf
  }

  /** append within capacity. */
  method Append<V>(g: Group<V>, vs: seq<V>) returns (r: Group<V>)
    requires g.Valid() && g.len + |vs| <= g.buf.Length
    modifies g.buf
    ensures r.buf == g.buf && r.Valid() && r.Contents() == old(g.Contents()) + vs
  {
    for i := 0 to |vs|
      invariant g.buf[..g.len + i] == old(g.Contents()) + vs[..i]
    {
      g.buf[g.len + i] := vs[i];
    }
    r := Group(g.buf, g.len + |vs|);
  }

  /** One empty group per key, each with room for exactly its count. */
  method Allocate<K(!new), V(0)>(counts: map<K, nat>) returns (index: map<K, Group<V>>)
    ensures index.Keys == counts.Keys && fresh(Bufs(index)) && Separate(index)
    ensures forall k :: k in index ==> index[k].len == 0 && index[k].buf.Length == counts[k]
  {
    index := map[];
    var todo := counts.Keys;
    while todo != {}
      invariant todo <= counts.Keys && index.Keys == counts.Keys - todo && fresh(Bufs(index)) && Separate(index)
      invariant forall k :: k in index ==> index[k].len == 0 && index[k].buf.Length == counts[k]
    {
      var k :| k in todo;
      todo := todo - {k};
      var buf := new V[counts[k]];
      assert forall j :: j in index ==> index[j].buf in Bufs(index);
      index := index[k := Group(buf, 0)];
    }
  }

  /** The exact size of every group, before any is allocated. */
  method Count<T, K(!new, ==), V>(items: array<T>, key: T -> K, values: T -> seq<V>) returns (counts: map<K, nat>)
    ensures counts.Keys == KeysOf(key, items[..])
    ensures forall k :: k in counts ==> counts[k] == |Gathered(key, values, k, items[..])|
  {
    counts := map[];
    for i := 0 to items.Length
      invariant counts.Keys == KeysOf(key, items[..i])
      invariant forall k :: k in counts ==> counts[k] == |Gathered(key, values, k, items[..i])|
    {
      var k, n := key(items[i]), |values(items[i])|;
      assert items[..i + 1] == items[..i] + [items[i]] && items[..i + 1][..i] == items[..i];
      KeysGrow(key, items[..i], items[i]);
      GatheredNone(key, values, k, items[..i]);
      counts := counts[k := if k in counts then counts[k] + n else n];
    }
    assert items[..items.Length] == items[..];
  }

  lemma {:induction false} GatheredNone<T, K, V>(key: T -> K, values: T -> seq<V>, k: K, xs: seq<T>)
    ensures k !in KeysOf(key, xs) ==> Gathered(key, values, k, xs) == []
  {
    if k !in KeysOf(key, xs) {
      KeysMatter(key, k, xs);
      GatheredIsScan(key, values, k, xs);
    }
  }

  /** Every group holds what a scan finds, and fills its buffer to the last cell. */
  ghost predicate Indexes<T, K(!new), V>(index: map<K, Group<V>>, key: T -> K, values: T -> seq<V>, xs: seq<T>)
    reads Bufs(index)
  {
    && index.Keys == KeysOf(key, xs)
    && forall k :: k in index ==>
         index[k].Valid() && index[k].len == index[k].buf.Length && index[k].Contents() == Gathered(key, values, k, xs)
  }

  /** Second pass: every append finds the room the first pass made. */
  method Fill<T, K(!new, ==), V>(index0: map<K, Group<V>>, items: array<T>, key: T -> K, values: T -> seq<V>)
    returns (index: map<K, Group<V>>)
    requires index0.Keys == KeysOf(key, items[..]) && Separate(index0) && forall k :: k in index0 ==> index0[k].len == 0
    requires forall k :: k in index0 ==> index0[k].buf.Length == |Gathered(key, values, k, items[..])|
    requires (items as object) !in Bufs(index0)
    modifies Bufs(index0)
    ensures Indexes(index, key, values, items[..]) && Bufs(index) == Bufs(index0)
  {
    hide Gathered, KeysOf;
    GatheredStart(key, values);
    index := index0;
    ghost var xs := items[..];
    for i := 0 to items.Length
      invariant items[..] == xs && index.Keys == index0.Keys && Separate(index)
      invariant forall k :: k in index ==> index[k].buf == index0[k].buf && index[k].Valid()
      invariant forall k :: k in index ==> index[k].Contents() == Gathered(key, values, k, xs[..i])
    {
      var k := key(items[i]);
      HasKey(key, xs, i);
      GatheredNext(key, values, xs, i);
      GatheredGrows(key, values, k, xs, i + 1);
      assert index[k].buf in Bufs(index0);
      var g := Append(index[k], values(items[i]));
      index := index[k := g];
    }
    assert xs[..items.Length] == xs;
  }

  lemma HasKey<T, K>(key: T -> K, xs: seq<T>, i: nat)
    requires i < |xs|
    ensures key(xs[i]) in KeysOf(key, xs)
  {
  }

  /** IndexedViewT: the values of every item, under the item's key. */
  class IndexedViewT<T, K(!new, ==), V(0)> {
    const key: T -> K
    const values: T -> seq<V>
    var index: map<K, Group<V>>
    var version: Version

    constructor (key: T -> K, values: T -> seq<V>, items: array<T>, version: Version)
      ensures this.key == key && this.values == values && this.version == version
      ensures Indexes(index, key, values, items[..])
    {
      this.key, this.values := key, values;
      this.version, index := version, map[];
      new;
      Recompute(items, version);
    }

    /** Count, allocate, fill, publish. */
    method Recompute(items: array<T>, ver: Version)
      modifies this`index, this`version
      ensures version == ver && Indexes(index, key, values, items[..]) && fresh(Bufs(index))
    {
      hide Gathered;
      var counts := Count(items, key, values);
      var groups := Allocate(counts);
      groups := Fill(groups, items, key, values);
      index, version := groups, ver;
    }

    /** A copy of the group, or None for a key no item has: what a scan of the source would give. */
    method Get(k: K, ghost xs: seq<T>) returns (r: Option<seq<V>>)
      requires Indexes(index, key, values, xs)
      ensures r.Some? <==> k in KeysOf(key, xs)
      ensures r.Some? ==> r.value == Flat(values, Filtered(KeyIs(key, k), xs))
    {
      GatheredIsScan(key, values, k, xs);
      r := if k in index then Some(index[k].buf[..index[k].len]) else None;
    }
  }

  /** Each item is its own one value. */
  function Single<T>(): T -> seq<T> {
    x => [x]
  }

  /** IndexedView: the items themselves, by key. */
  class IndexedView<T(0), K(!new, ==)> {
    const key: T -> K
    var index: map<K, Group<T>>
    var version: Version

    constructor (key: T -> K, items: array<T>, version: Version)
      ensures this.key == key && this.version == version
      ensures Indexes(index, key, Single(), items[..])
    {
      this.key := key;
      this.version, index := version, map[];
      new;
      Recompute(items, version);
    }

    method Recompute(items: array<T>, ver: Version)
      modifies this`index, this`version
      ensures version == ver && Indexes(index, key, Single(), items[..]) && fresh(Bufs(index))
    {
      hide Gathered, Single;
      var counts := Count(items, key, Single());
      var groups := Allocate(counts);
      groups := Fill(groups, items, key, Single());
      index, version := groups, ver;
    }

    method Get(k: K, ghost xs: seq<T>) returns (r: Option<seq<T>>)
      requires Indexes(index, key, Single(), xs)
      ensures r == if Filtered(KeyIs(key, k), xs) == [] then None else Some(Filtered(KeyIs(key, k), xs))
    {
      KeysMatter(key, k, xs);
      GatheredSingles(key, k, xs, Single());
      r := if k in index then Some(index[k].buf[..index[k].len]) else None;
    }

    method Has(k: K, ghost xs: seq<T>) returns (r: bool)
      requires Indexes(index, key, Single(), xs)
      ensures r <==> exists x :: x in xs && key(x) == k
    {
      r := k in index;
    }

    method CountFor(k: K, ghost xs: seq<T>) returns (n: nat)
      requires Indexes(index, key, Single(), xs)
      ensures n == |Filtered(KeyIs(key, k), xs)|
    {
      KeysMatter(key, k, xs);
      GatheredSingles(key, k, xs, Single());
      n := if k in index then index[k].len else 0;
    }
  }
}
