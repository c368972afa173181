/** config/diff/diff.go: what changed between two slices, by key. */
module Diff {
  import opened Query

  /** Items by key; of several with one key the last stands. */
  function Keyed<T, K(==)>(xs: seq<T>, key: T -> K): map<K, T> {
    if xs == [] then map[] else Keyed(xs[..|xs| - 1], key)[key(xs[|xs| - 1]) := xs[|xs| - 1]]
  }

  ghost predicate Unique<T, K>(xs: seq<T>, key: T -> K) {
    forall i, j :: 0 <= i < j < |xs| ==> key(xs[i]) != key(xs[j])
  }

  function IsNew<T, K(==)>(old_: map<K, T>, key: T -> K): T -> bool {
    n => key(n) !in old_
  }

  function IsChanged<T, K(==)>(old_: map<K, T>, key: T -> K, equal: (T, T) -> bool): T -> bool {
    n => key(n) in old_ && !equal(old_[key(n)], n)
  }

  datatype Buckets<T> = Buckets(added: seq<T>, updated: seq<T>, removed: seq<T>)

  /** Added and updated in the order of `new_`; removed in no particular order, as a map is walked. */
  ghost predicate Diffs<T, K>(old_: seq<T>, new_: seq<T>, key: T -> K, equal: (T, T) -> bool, b: Buckets<T>) {
    && b.added == Filtered(IsNew(Keyed(old_, key), key), new_)
    && b.updated == Filtered(IsChanged(Keyed(old_, key), key, equal), new_)
    && Unique(b.removed, key)
    && Keyed(b.removed, key) == Keyed(old_, key) - Keyed(new_, key).Keys
  }

  lemma {:induction false} KeyedKeys<T, K>(xs: seq<T>, key: T -> K, k: K)
    requires k in Keyed(xs, key)
    ensures key(Keyed(xs, key)[k]) == k && Keyed(xs, key)[k] in xs
  {
    if key(xs[|xs| - 1]) != k {
      KeyedKeys(xs[..|xs| - 1], key, k);
    }
  }

  lemma {:induction false} KeyedHas<T, K>(xs: seq<T>, key: T -> K, i: nat)
    requires i < |xs|
    ensures key(xs[i]) in Keyed(xs, key)
  {
    if i < |xs| - 1 {
      KeyedHas(xs[..|xs| - 1], key, i);
    }
  }

  /** Of several items with one key the last one stands. */
  lemma {:induction false} LastStands<T, K>(xs: seq<T>, key: T -> K, i: nat)
    requires i < |xs| && forall j :: i < j < |xs| ==> key(xs[j]) != key(xs[i])
    ensures key(xs[i]) in Keyed(xs, key) && Keyed(xs, key)[key(xs[i])] == xs[i]
  {
    if i < |xs| - 1 {
      LastStands(xs[..|xs| - 1], key, i);
    }
  }

  lemma UniqueFront<T, K>(xs: seq<T>, key: T -> K)
    requires Unique(xs, key) && xs != []
    ensures Unique(xs[..|xs| - 1], key) && key(xs[|xs| - 1]) !in Keyed(xs[..|xs| - 1], key)
  {
    var front := xs[..|xs| - 1];
    if key(xs[|xs| - 1]) in Keyed(front, key) {
      KeyedKeys(front, key, key(xs[|xs| - 1]));
    }
  }

  lemma {:induction false} UniqueSize<T, K>(xs: seq<T>, key: T -> K)
    requires Unique(xs, key)
    ensures |Keyed(xs, key).Keys| == |xs|
  {
    if xs != [] {
      UniqueFront(xs, key);
      UniqueSize(xs[..|xs| - 1], key);
      assert Keyed(xs, key).Keys == Keyed(xs[..|xs| - 1], key).Keys + {key(xs[|xs| - 1])};
    }
  }

  lemma KeyedAppend<T, K>(xs: seq<T>, x: T, key: T -> K)
    ensures Keyed(xs + [x], key) == Keyed(xs, key)[key(x) := x]
  {
    assert (xs + [x])[..|xs|] == xs;
  }

  lemma UniqueAppend<T, K>(xs: seq<T>, x: T, key: T -> K)
    requires Unique(xs, key) && key(x) !in Keyed(xs, key)
    ensures Unique(xs + [x], key)
  {
    forall i | 0 <= i < |xs| ensures key(xs[i]) != key(x) {
      KeyedHas(xs, key, i);
    }
  }

  /** `m` is `n` cut down to the values that satisfy `pred`. */
  ghost predicate Restricts<T(!new), K(!new)>(m: map<K, T>, n: map<K, T>, pred: T -> bool) {
    && (forall k :: k in m <==> k in n && pred(n[k]))
    && (forall k :: k in m ==> m[k] == n[k])
  }

  lemma RestrictsStep<T(!new), K(!new)>(m: map<K, T>, n: map<K, T>, pred: T -> bool, k: K, x: T)
    requires Restricts(m, n, pred) && k !in n
    ensures k !in m
    ensures Restricts(if pred(x) then m[k := x] else m, n[k := x], pred)
  {
  }

  /** Filtering items filters their map. */
  lemma {:induction false} FilteredKeyed<T(!new), K(!new)>(pred: T -> bool, xs: seq<T>, key: T -> K)
    requires Unique(xs, key)
    ensures Unique(Filtered(pred, xs), key)
    ensures Restricts(Keyed(Filtered(pred, xs), key), Keyed(xs, key), pred)
  {
    if xs != [] {
      var front, last := xs[..|xs| - 1], xs[|xs| - 1];
      var kept := Filtered(pred, front);
      UniqueFront(xs, key);
      FilteredKeyed(pred, front, key);
      RestrictsStep(Keyed(kept, key), Keyed(front, key), pred, key(last), last);
      if pred(last) {
        assert Filtered(pred, xs) == kept + [last];
        KeyedAppend(kept, last, key);
        UniqueAppend(kept, last, key);
      } else {
        assert Filtered(pred, xs) == kept;
      }
    }
  }

  /** What a consumer does with the buckets. */
  ghost function Patched<T, K>(old_: map<K, T>, b: Buckets<T>, key: T -> K): map<K, T> {
    old_ - Keyed(b.removed, key).Keys + Keyed(b.added, key) + Keyed(b.updated, key)
  }

  lemma BucketKeys<T(!new), K(!new)>(old_: seq<T>, new_: seq<T>, key: T -> K, equal: (T, T) -> bool, b: Buckets<T>)
    requires Diffs(old_, new_, key, equal, b) && Unique(new_, key)
    ensures forall k :: k in Keyed(b.added, key) <==> k in Keyed(new_, key) && k !in Keyed(old_, key)
    ensures forall k :: k in Keyed(b.updated, key) <==>
              k in Keyed(new_, key) && k in Keyed(old_, key) && !equal(Keyed(old_, key)[k], Keyed(new_, key)[k])
    ensures forall k :: k in Keyed(b.added, key) ==> Keyed(b.added, key)[k] == Keyed(new_, key)[k]
    ensures forall k :: k in Keyed(b.updated, key) ==> Keyed(b.updated, key)[k] == Keyed(new_, key)[k]
  {
    var was, now_ := Keyed(old_, key), Keyed(new_, key);
    FilteredKeyed(IsNew(was, key), new_, key);
    FilteredKeyed(IsChanged(was, key, equal), new_, key);
    hide Keyed, Filtered;
    forall k | k in now_ ensures key(now_[k]) == k {
      KeyedKeys(new_, key, k);
    }
  }

  /** What patching should give: the same keys as the new slice, and under each key the new item,
      or the old one where `equal` takes them for the same. */
  ghost predicate RoundTrips<T, K>(was: map<K, T>, now_: map<K, T>, got: map<K, T>, equal: (T, T) -> bool) {
    && got.Keys == now_.Keys
    && forall k :: k in got ==> got[k] == if k in was && equal(was[k], now_[k]) then was[k] else now_[k]
  }

  /** Patching the old slice gives the new one. */
  lemma PatchRoundTrip<T(!new), K(!new)>(old_: seq<T>, new_: seq<T>, key: T -> K, equal: (T, T) -> bool, b: Buckets<T>)
    requires Diffs(old_, new_, key, equal, b) && Unique(new_, key)
    ensures var was, now_, got := Keyed(old_, key), Keyed(new_, key), Patched(Keyed(old_, key), b, key);
            RoundTrips(was, now_, got, equal)
  {
    var was, now_, got := Keyed(old_, key), Keyed(new_, key), Patched(Keyed(old_, key), b, key);
    BucketKeys(old_, new_, key, equal, b);
    hide Keyed, Filtered;
    assert got.Keys == now_.Keys;
  }

  /** With plain equality, as By compares, the patched map is the new one exactly. */
  lemma PatchExact<T(!new), K(!new)>(old_: seq<T>, new_: seq<T>, key: T -> K, equal: (T, T) -> bool, b: Buckets<T>)
    requires Diffs(old_, new_, key, equal, b) && Unique(new_, key)
    requires forall x, y :: x in old_ && y in new_ ==> (equal(x, y) <==> x == y)
    ensures Patched(Keyed(old_, key), b, key) == Keyed(new_, key)
  {
    PatchRoundTrip(old_, new_, key, equal, b);
    var was, now_ := Keyed(old_, key), Keyed(new_, key);
    forall k | k in was && k in now_ && equal(was[k], now_[k]) ensures was[k] == now_[k] {
      KeyedKeys(old_, key, k);
      KeyedKeys(new_, key, k);
    }
  }

  /** The buckets name different keys: added ones the old slice lacks, updated ones both have,
      removed ones the new slice lacks. And the lengths add up. */
  lemma BucketsBalance<T(!new), K(!new)>(old_: seq<T>, new_: seq<T>, key: T -> K, equal: (T, T) -> bool, b: Buckets<T>)
    requires Diffs(old_, new_, key, equal, b) && Unique(old_, key) && Unique(new_, key)
    ensures var was, now_ := Keyed(old_, key).Keys, Keyed(new_, key).Keys;
            && Keyed(b.added, key).Keys == now_ - was
            && Keyed(b.removed, key).Keys == was - now_
            && Keyed(b.updated, key).Keys <= was * now_
    ensures |new_| == |old_| + |b.added| - |b.removed|
  {
    BucketKeys(old_, new_, key, equal, b);
    UniqueSize(old_, key);
    UniqueSize(new_, key);
    FilteredKeyed(IsNew(Keyed(old_, key), key), new_, key);
    UniqueSize(b.added, key);
    UniqueSize(b.removed, key);
    hide Keyed, Filtered, Unique;
    var was, now_ := Keyed(old_, key).Keys, Keyed(new_, key).Keys;
    SetSizes(was, now_);
    assert Keyed(b.added, key).Keys == now_ - was;
    assert Keyed(b.removed, key).Keys == was - now_;
  }

  lemma SetSizes<K>(was: set<K>, now_: set<K>)
    ensures |now_| == |was| + |now_ - was| - |was - now_|
  {
    assert was == (was - now_) + (was * now_) && now_ == (now_ - was) + (was * now_);
  }

  /** An item the old slice has another version of, followed by one under its key that `equal`
      takes for the old. */
  predicate Overruled<T, K(==)>(was: map<K, T>, now_: map<K, T>, key: T -> K, equal: (T, T) -> bool, n: T) {
    var k := key(n);
    k in was && k in now_ && !equal(was[k], n) && equal(was[k], now_[k])
  }

  /** A filter keeps the last item of a key if that item passes. */
  lemma {:induction false} FilteredLast<T, K>(pred: T -> bool, xs: seq<T>, key: T -> K, k: K)
    requires k in Keyed(xs, key) && pred(Keyed(xs, key)[k])
    ensures k in Keyed(Filtered(pred, xs), key) && Keyed(Filtered(pred, xs), key)[k] == Keyed(xs, key)[k]
  {
    var front, last := xs[..|xs| - 1], xs[|xs| - 1];
    if key(last) != k {
      FilteredLast(pred, front, key, k);
    }
    if pred(last) {
      KeyedAppend(Filtered(pred, front), last, key);
    } else {
      assert Filtered(pred, xs) == Filtered(pred, front);
    }
  }

  lemma FilteredIn<T>(pred: T -> bool, xs: seq<T>, x: T)
    ensures x in Filtered(pred, xs) <==> x in xs && pred(x)
  {
    FilteredCounts(pred, xs, x);
    assert x in Filtered(pred, xs) <==> x in multiset(Filtered(pred, xs));
    assert x in xs <==> x in multiset(xs);
  }

  /** A key survives a filter exactly when some item of that key does. */
  lemma FilteredOccurs<T(!new), K>(pred: T -> bool, xs: seq<T>, key: T -> K, k: K)
    ensures k in Keyed(Filtered(pred, xs), key) <==> exists n :: n in xs && key(n) == k && pred(n)
    ensures k in Keyed(Filtered(pred, xs), key) ==> pred(Keyed(Filtered(pred, xs), key)[k])
  {
    var kept := Filtered(pred, xs);
    if k in Keyed(kept, key) {
      KeyedKeys(kept, key, k);
      FilteredIn(pred, xs, Keyed(kept, key)[k]);
    }
    if n :| n in xs && key(n) == k && pred(n) {
      FilteredIn(pred, xs, n);
      var i :| 0 <= i < |kept| && kept[i] == n;
      KeyedHas(kept, key, i);
    }
  }

  /** For any slices, keys repeated or not: the round trip holds if and only if no item of the
      new slice is overruled. */
  lemma PatchesUnlessOverruled<T(!new), K(!new)>(old_: seq<T>, new_: seq<T>, key: T -> K, equal: (T, T) -> bool,
                                                 b: Buckets<T>)
    requires Diffs(old_, new_, key, equal, b) && forall x :: x in old_ ==> equal(x, x)
    ensures var was, now_ := Keyed(old_, key), Keyed(new_, key);
            RoundTrips(was, now_, Patched(was, b, key), equal) <==>
              forall n :: n in new_ ==> !Overruled(was, now_, key, equal, n)
  {
    var was, now_ := Keyed(old_, key), Keyed(new_, key);
    var got := Patched(was, b, key);
    forall k { PatchedAt(old_, new_, key, equal, b, k); }
    assert got.Keys == now_.Keys;
    hide Keyed, Filtered, Diffs, Patched;
    if n :| n in new_ && Overruled(was, now_, key, equal, n) {
      var k := key(n);
      KeyedKeys(old_, key, k);
      assert got[k] != was[k];
    }
  }

  /** One key of the patched map. */
  lemma PatchedAt<T(!new), K(!new)>(old_: seq<T>, new_: seq<T>, key: T -> K, equal: (T, T) -> bool, b: Buckets<T>, k: K)
    requires Diffs(old_, new_, key, equal, b)
    ensures var was, now_, got := Keyed(old_, key), Keyed(new_, key), Patched(Keyed(old_, key), b, key);
            && (k in got <==> k in now_)
            && (k in got && (k !in was || !equal(was[k], now_[k])) ==> got[k] == now_[k])
            && (k in got && k in was && equal(was[k], now_[k]) ==>
                  if exists n :: n in new_ && key(n) == k && Overruled(was, now_, key, equal, n)
                  then !equal(was[k], got[k]) else got[k] == was[k])
  {
    var was, now_ := Keyed(old_, key), Keyed(new_, key);
    var isNew, isChanged := IsNew(was, key), IsChanged(was, key, equal);
    FilteredOccurs(isNew, new_, key, k);
    FilteredOccurs(isChanged, new_, key, k);
    if k in now_ {
      KeyedKeys(new_, key, k);
      if isNew(now_[k]) {
        FilteredLast(isNew, new_, key, k);
      }
      if isChanged(now_[k]) {
        FilteredLast(isChanged, new_, key, k);
      }
    }
    if k in Keyed(b.added, key) {
      KeyedKeys(b.added, key, k);
    }
    if k in Keyed(b.updated, key) {
      KeyedKeys(b.updated, key, k);
    }
    if n :| n in new_ && key(n) == k {
      var i :| 0 <= i < |new_| && new_[i] == n;
      KeyedHas(new_, key, i);
    }
    hide Keyed, Filtered;
  }

  lemma OneKey<T, K>(x: T, y: T, key: T -> K, k: K, pred: T -> bool)
    requires key(x) == k && key(y) == k
    ensures Keyed([x], key) == map[k := x] && Keyed([x, y], key) == map[k := y]
    ensures Filtered(pred, [x, y]) == (if pred(x) then [x] else []) + (if pred(y) then [y] else [])
  {
    assert [x, y] == [x] + [y] && [x] == [] + [x];
    KeyedAppend([], x, key);
    KeyedAppend([x], y, key);
    FilteredConcat(pred, [x], [y]);
  }

  /** Without unique keys the round trip is not promised: here the new slice names one key
      twice, first with a changed item, then with one equal to the old. */
  lemma DuplicateKeysBreakThePatch<T, K>(x: T, y: T, key: T -> K, k: K, equal: (T, T) -> bool)
    requires x != y && key(x) == k && key(y) == k && equal(x, x) && !equal(x, y)
    ensures var b := Buckets([], [y], []);
            Diffs([x], [y, x], key, equal, b) && Patched(Keyed([x], key), b, key) != Keyed([y, x], key)
  {
    OneKey(x, y, key, k, IsNew(map[k := x], key));
    OneKey(y, x, key, k, IsNew(map[k := x], key));
    OneKey(y, x, key, k, IsChanged(map[k := x], key, equal));
    assert Keyed([x], key) - Keyed([y, x], key).Keys == map[];
    assert Patched(Keyed([x], key), Buckets([], [y], []), key)[k] == y;
  }

  /** ByEqual: one pass over each slice, then one over the old map for what is gone. */
  method ByEqual<T, K(==)>(old_: seq<T>, new_: seq<T>, key: T -> K, equal: (T, T) -> bool) returns (b: Buckets<T>)
    ensures Diffs(old_, new_, key, equal, b)
  {
    var oldByKey: map<K, T> := map[];
    for i := 0 to |old_|
      invariant oldByKey == Keyed(old_[..i], key)
    {
      assert old_[..i + 1] == old_[..i] + [old_[i]];
      KeyedAppend(old_[..i], old_[i], key);
      oldByKey := oldByKey[key(old_[i]) := old_[i]];
    }
    assert old_[..|old_|] == old_;
    var added, updated, seen: set<K> := [], [], {};
    for i := 0 to |new_|
      invariant seen == Keyed(new_[..i], key).Keys
      invariant added == Filtered(IsNew(oldByKey, key), new_[..i])
      invariant updated == Filtered(IsChanged(oldByKey, key, equal), new_[..i])
    {
      assert new_[..i + 1] == new_[..i] + [new_[i]] && new_[..i + 1][..i] == new_[..i];
      KeyedAppend(new_[..i], new_[i], key);
      var n := new_[i];
      var k := key(n);
      seen := seen + {k};
      if k !in oldByKey {
        added := added + [n];
      } else if !equal(oldByKey[k], n) {
        updated := updated + [n];
      }
    }
    assert new_[..|new_|] == new_;
    var removed := Removed(old_, oldByKey, seen, key);
    b := Buckets(added, updated, removed);
  }

  method Removed<T, K(==)>(ghost old_: seq<T>, oldByKey: map<K, T>, seen: set<K>, key: T -> K) returns (removed: seq<T>)
    requires oldByKey == Keyed(old_, key)
    ensures Unique(removed, key) && Keyed(removed, key) == oldByKey - seen
  {
    removed := [];
    var todo := oldByKey.Keys;
    while todo != {}
      invariant todo <= oldByKey.Keys
      invariant Unique(removed, key) && Keyed(removed, key) == oldByKey - seen - todo
    {
      var k :| k in todo;
      todo := todo - {k};
      if k !in seen {
        KeyedKeys(old_, key, k);
        KeyedAppend(removed, oldByKey[k], key);
        UniqueAppend(removed, oldByKey[k], key);
        removed := removed + [oldByKey[k]];
      }
    }
  }
}
