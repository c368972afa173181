/** First-wins flattening: RelatedView of config/related.go and CompositeView of config/view.go. */
module Flatten {
  import opened Wrappers
  import opened Versions
  import opened Views
  import I = Index

  type Same<!R> = Option<(R, R) -> bool>

  /** Does something already kept count as `x`? Kept first, candidate second, as the caller is asked. */
  predicate Matches<R>(same: (R, R) -> bool, kept: seq<R>, x: R) {
    exists i :: 0 <= i < |kept| && same(kept[i], x)
  }

  /** The positions kept of `xs`. */
  function Kept<R>(same: (R, R) -> bool, xs: seq<R>): seq<nat> {
    if xs == [] then []
    else
      var front := xs[..|xs| - 1];
      Kept(same, front) + if Matches(same, Deduped(same, front), xs[|xs| - 1]) then [] else [|xs| - 1]
  }

  function Deduped<R>(same: (R, R) -> bool, xs: seq<R>): seq<R> {
    if xs == [] then []
    else
      var front := Deduped(same, xs[..|xs| - 1]);
      front + if Matches(same, front, xs[|xs| - 1]) then [] else [xs[|xs| - 1]]
  }

  function Merged<R>(same: Same<R>, xs: seq<R>): seq<R> {
    if same.None? then xs else Deduped(same.value, xs)
  }

  /** What is kept is a subsequence of the input, in order. */
  lemma {:induction false} KeptIsSubsequence<R>(same: (R, R) -> bool, xs: seq<R>)
    ensures |Kept(same, xs)| == |Deduped(same, xs)|
    ensures forall i :: 0 <= i < |Kept(same, xs)| ==>
              Kept(same, xs)[i] < |xs| && Deduped(same, xs)[i] == xs[Kept(same, xs)[i]]
    ensures forall i, j :: 0 <= i < j < |Kept(same, xs)| ==> Kept(same, xs)[i] < Kept(same, xs)[j]
  {
    if xs != [] {
      KeptIsSubsequence(same, xs[..|xs| - 1]);
    }
  }

  /** No kept item matches a later kept one, and every dropped item matches an earlier kept one. */
  lemma {:induction false} FirstWins<R>(same: (R, R) -> bool, xs: seq<R>)
    ensures var d := Deduped(same, xs); forall i, j :: 0 <= i < j < |d| ==> !same(d[i], d[j])
    ensures forall n :: 0 <= n < |xs| && n !in Kept(same, xs) ==> Matches(same, Deduped(same, xs[..n]), xs[n])
  {
    if xs != [] {
      var front := xs[..|xs| - 1];
      FirstWins(same, front);
      KeptIsSubsequence(same, front);
      forall n | 0 <= n < |xs| && n !in Kept(same, xs) ensures Matches(same, Deduped(same, xs[..n]), xs[n]) {
        if n < |front| {
          assert front[..n] == xs[..n] && n !in Kept(same, front);
        } else {
          assert xs[..n] == front;
        }
      }
    }
  }

  /** A choice of positions that obeys first-wins throughout. */
  ghost predicate ObeysFirstWins<R>(same: (R, R) -> bool, xs: seq<R>, keep: set<nat>) {
    forall n :: 0 <= n < |xs| ==> (n in keep <==> !exists m :: m in keep && m < n && same(xs[m], xs[n]))
  }

  lemma KeptObeys<R>(same: (R, R) -> bool, xs: seq<R>, n: nat)
    requires n < |xs|
    ensures n in Kept(same, xs) <==> !exists m :: m in Kept(same, xs) && m < n && same(xs[m], xs[n])
  {
    KeptPrefix(same, xs, n);
    KeptIsSubsequence(same, xs[..n]);
    KeptPrefix(same, xs, n + 1);
    var before := Kept(same, xs[..n]);
    assert xs[..n + 1][..n] == xs[..n];
    assert n in Kept(same, xs) <==> n in Kept(same, xs[..n + 1]);
    assert n in Kept(same, xs[..n + 1]) <==> !Matches(same, Deduped(same, xs[..n]), xs[n]);
    if Matches(same, Deduped(same, xs[..n]), xs[n]) {
      var i :| 0 <= i < |before| && same(Deduped(same, xs[..n])[i], xs[n]);
      assert before[i] in Kept(same, xs) && same(xs[before[i]], xs[n]);
    }
    if m: nat :| m in Kept(same, xs) && m < n && same(xs[m], xs[n]) {
      assert m in before;
      var i :| 0 <= i < |before| && before[i] == m;
      assert same(Deduped(same, xs[..n])[i], xs[n]);
    }
  }

  /** What is kept of a prefix is what is kept of the whole, as far as the prefix goes. */
  lemma {:induction false} KeptPrefix<R>(same: (R, R) -> bool, xs: seq<R>, n: nat)
    requires n <= |xs|
    ensures forall m: nat :: m < n ==> (m in Kept(same, xs[..n]) <==> m in Kept(same, xs))
  {
    if n < |xs| {
      var front := xs[..|xs| - 1];
      KeptPrefix(same, front, n);
      assert front[..n] == xs[..n];
    } else {
      assert xs[..n] == xs;
    }
  }

  /** First-wins leaves no choice: any set of positions that obeys it is the one kept. */
  lemma {:induction false} FirstWinsDetermines<R>(same: (R, R) -> bool, xs: seq<R>, keep: set<nat>, n: nat)
    requires ObeysFirstWins(same, xs, keep) && n <= |xs|
    ensures forall m: nat :: m < n ==> (m in keep <==> m in Kept(same, xs))
  {
    if n > 0 {
      FirstWinsDetermines(same, xs, keep, n - 1);
      KeptObeys(same, xs, n - 1);
    }
  }

  /** `ys` is `xs` cut down to the positions `at`, first wins: in order, no kept item matching a
      later kept one, every dropped position matching an earlier kept one. */
  ghost predicate FirstWinsOf<R>(same: (R, R) -> bool, xs: seq<R>, at: seq<nat>, ys: seq<R>) {
    && |at| == |ys| && (forall i :: 0 <= i < |at| ==> at[i] < |xs| && ys[i] == xs[at[i]])
    && (forall i, j :: 0 <= i < j < |at| ==> at[i] < at[j] && !same(ys[i], ys[j]))
    && (forall n :: 0 <= n < |xs| && n !in at ==> exists i :: 0 <= i < |at| && at[i] < n && same(ys[i], xs[n]))
  }

  lemma MergedFirstWins<R>(same: Same<R>, xs: seq<R>)
    ensures same.None? ==> Merged(same, xs) == xs
    ensures same.Some? ==> FirstWinsOf(same.value, xs, Kept(same.value, xs), Merged(same, xs))
  {
    if same.Some? {
      var at, ys := Kept(same.value, xs), Deduped(same.value, xs);
      KeptIsSubsequence(same.value, xs);
      FirstWins(same.value, xs);
      forall n | 0 <= n < |xs| && n !in at ensures exists i :: 0 <= i < |at| && at[i] < n && same.value(ys[i], xs[n]) {
        KeptObeys(same.value, xs, n);
        var m :| m in at && m < n && same.value(xs[m], xs[n]);
        var i :| 0 <= i < |at| && at[i] == m;
        assert same.value(ys[i], xs[n]);
      }
    }
  }

  /** Taking one more batch against what is kept so far. */
  function Extended<R>(same: (R, R) -> bool, kept: seq<R>, ys: seq<R>): seq<R> {
    if ys == [] then kept
    else
      var front := Extended(same, kept, ys[..|ys| - 1]);
      front + if Matches(same, front, ys[|ys| - 1]) then [] else [ys[|ys| - 1]]
  }

  /** Batch by batch is the same as all at once. */
  lemma {:induction false} BatchesAreWhole<R>(same: (R, R) -> bool, xs: seq<R>, ys: seq<R>)
    ensures Extended(same, Deduped(same, xs), ys) == Deduped(same, xs + ys)
  {
    if ys == [] {
      assert xs + ys == xs;
    } else {
      BatchesAreWhole(same, xs, ys[..|ys| - 1]);
      assert (xs + ys)[..|xs + ys| - 1] == xs + ys[..|ys| - 1];
    }
  }

  /** When `same` is an equivalence every input item has exactly one representative. */
  lemma OneRepresentative<R(!new)>(same: (R, R) -> bool, xs: seq<R>, x: R)
    requires x in xs
    requires forall a :: same(a, a)
    requires forall a, b :: same(a, b) ==> same(b, a)
    requires forall a, b, c :: same(a, b) && same(b, c) ==> same(a, c)
    ensures var d := Deduped(same, xs);
            && (exists i :: 0 <= i < |d| && same(d[i], x))
            && (forall i, j :: 0 <= i < |d| && 0 <= j < |d| && same(d[i], x) && same(d[j], x) ==> i == j)
  {
    var d := Deduped(same, xs);
    FirstWins(same, xs);
    KeptIsSubsequence(same, xs);
    var n :| 0 <= n < |xs| && xs[n] == x;
    if n in Kept(same, xs) {
      var i :| 0 <= i < |Kept(same, xs)| && Kept(same, xs)[i] == n;
      assert same(d[i], x);
    } else {
      var i :| 0 <= i < |Deduped(same, xs[..n])| && same(Deduped(same, xs[..n])[i], x);
      DedupedGrows(same, xs, n);
      assert same(d[i], x);
    }
    forall i, j | 0 <= i < |d| && 0 <= j < |d| && same(d[i], x) && same(d[j], x) ensures i == j {
      assert same(d[i], d[j]) && same(d[j], d[i]);
    }
  }

  lemma {:induction false} DedupedGrows<R>(same: (R, R) -> bool, xs: seq<R>, n: nat)
    requires n <= |xs|
    ensures Deduped(same, xs[..n]) <= Deduped(same, xs)
  {
    if n < |xs| {
      DedupedGrows(same, xs[..|xs| - 1], n);
      assert xs[..|xs| - 1][..n] == xs[..n];
    } else {
      assert xs[..n] == xs;
    }
  }

  // ---------------------------------------------------------------- the loops

  method Contains<R>(same: (R, R) -> bool, items: seq<R>, candidate: R) returns (r: bool)
    ensures r == Matches(same, items, candidate)
  {
    for i := 0 to |items|
      invariant !Matches(same, items[..i], candidate)
    {
      if same(items[i], candidate) {
        return true;
      }
    }
    assert items[..|items|] == items;
    return false;
  }

  /** The inner loop both views share: append what is not there yet, or everything. */
  method Absorb<R>(same: Same<R>, kept: seq<R>, batch: seq<R>) returns (items: seq<R>)
    ensures items == if same.None? then kept + batch else Extended(same.value, kept, batch)
  {
    if same.None? {
      return kept + batch;
    }
    items := kept;
    for i := 0 to |batch|
      invariant items == Extended(same.value, kept, batch[..i])
    {
      assert batch[..i + 1][..i] == batch[..i];
      var there := Contains(same.value, items, batch[i]);
      if !there {
        items := items + [batch[i]];
      }
    }
    assert batch[..|batch|] == batch;
  }

  /** RelatedView: nested items of every parent, in one list. */
  class RelatedView<T, R> {
    const extract: T -> seq<R>
    const same: Same<R>
    var items: seq<R>
    var version: Version

    constructor (extract: T -> seq<R>, same: Same<R>)
      ensures this.extract == extract && this.same == same && items == [] && version == UNSET
    {
      this.extract, this.same, items, version := extract, same, [], UNSET;
    }

    /** Parent by parent, against everything kept so far: what deduplicating the whole
        concatenation once would give. */
    method Recompute(parents: array<T>, ver: Version)
      modifies this`items, this`version
      ensures items == Merged(same, I.Flat(extract, parents[..])) && version == ver
      ensures same.None? ==> items == I.Flat(extract, parents[..])
      ensures same.Some? ==> exists at :: FirstWinsOf(same.value, I.Flat(extract, parents[..]), at, items)
    {
      MergedFirstWins(same, I.Flat(extract, parents[..]));
      assert Merged(same, []) == [];
      hide FirstWinsOf, Extended, Deduped;
      var acc: seq<R> := [];
      for i := 0 to parents.Length
        invariant acc == Merged(same, I.Flat(extract, parents[..i]))
      {
        assert parents[..i + 1][..i] == parents[..i];
        if same.Some? {
          BatchesAreWhole(same.value, I.Flat(extract, parents[..i]), extract(parents[i]));
        }
        acc := Absorb(same, acc, extract(parents[i]));
      }
      assert parents[..parents.Length] == parents[..];
      items, version := acc, ver;
    }
  }

  function Joined<T(0)>(views: seq<View<T>>): seq<T>
    reads views, set v | v in views :: v.items
  {
    if views == [] then [] else Joined(views[..|views| - 1]) + views[|views| - 1].items[..]
  }

  /** The views' items, end to end. */
  lemma {:induction false} JoinedIsConcat<T(0)>(vs: seq<View<T>>, ws: seq<View<T>>, v: View<T>)
    ensures Joined(vs + ws) == Joined(vs) + Joined(ws) && Joined([v]) == v.items[..]
  {
    assert [v][..0] == [];
    if ws == [] {
      assert vs + ws == vs;
    } else {
      assert (vs + ws)[..|vs + ws| - 1] == vs + ws[..|ws| - 1];
      JoinedIsConcat(vs, ws[..|ws| - 1], v);
    }
  }

  /** CompositeView: several views read as one; it stores nothing. */
  class CompositeView<T(0)> {
    const views: seq<View<T>>
    const same: Same<T>

    constructor (views: seq<View<T>>, same: Same<T>)
      ensures this.views == views && this.same == same
    {
      this.views, this.same := views, same;
    }

    method All() returns (result: seq<T>)
      ensures result == Merged(same, Joined(views))
      ensures same.None? ==> result == Joined(views)
      ensures same.Some? ==> exists at :: FirstWinsOf(same.value, Joined(views), at, result)
    {
      MergedFirstWins(same, Joined(views));
      assert Merged(same, []) == [];
      hide FirstWinsOf, Extended, Deduped;
      result := [];
      for i := 0 to |views|
        invariant result == Merged(same, Joined(views[..i]))
      {
        assert views[..i + 1][..i] == views[..i];
        if same.Some? {
          BatchesAreWhole(same.value, Joined(views[..i]), views[i].items[..]);
        }
        result := Absorb(same, result, views[i].items[..]);
      }
      assert views[..|views|] == views;
    }

    /** The length of All, without building it when nothing is dropped. */
    method Count() returns (total: nat)
      ensures same.None? ==> total == |Joined(views)|
      ensures same.Some? ==> exists at, items :: FirstWinsOf(same.value, Joined(views), at, items) && total == |items|
    {
      if same.Some? {
        var all := All();
        return |all|;
      }
      total := 0;
      for i := 0 to |views|
        invariant total == |Joined(views[..i])|
      {
        assert views[..i + 1][..i] == views[..i];
        total := total + views[i].items.Length;
      }
      assert views[..|views|] == views;
    }
  }
}
