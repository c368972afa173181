/** config/query.go: filter options, and the pipeline that runs them on a private copy. */
module Query {
  /** `Custom` is any other FilterOption a caller writes; it may rewrite the slice it is given.
      `sort` is the library's choice among sorted permutations, a function of what it is given. */
  datatype FilterOption<!T> =
    | Where(pred: T -> bool)
    | SortBy(cmp: (T, T) -> int, sort: seq<T> -> seq<T>)
    | Limit(n: nat)
    | Offset(n: nat)
    | Custom(f: seq<T> -> seq<T>)

  function Filtered<T>(pred: T -> bool, xs: seq<T>): seq<T> {
    if xs == [] then []
    else Filtered(pred, xs[..|xs| - 1]) + if pred(xs[|xs| - 1]) then [xs[|xs| - 1]] else []
  }

  function Apply<T>(opt: FilterOption<T>, xs: seq<T>): seq<T> {
    match opt
    case Where(pred) => Filtered(pred, xs)
    case SortBy(_, sort) => sort(xs)
    case Limit(n) => if n >= |xs| then xs else xs[..n]
    case Offset(n) => if n >= |xs| then [] else xs[n..]
    case Custom(f) => f(xs)
  }

  /** Options run in the order given. */
  function Pipeline<T>(opts: seq<FilterOption<T>>, xs: seq<T>): seq<T> {
    if opts == [] then xs else Apply(opts[|opts| - 1], Pipeline(opts[..|opts| - 1], xs))
  }

  // ---------------------------------------------------------------- what the options mean

  /** Where is a homomorphism: order is kept, and what it keeps of a slice does not depend on
      the rest of it. */
  lemma {:induction false} FilteredConcat<T>(pred: T -> bool, xs: seq<T>, ys: seq<T>)
    ensures Filtered(pred, xs + ys) == Filtered(pred, xs) + Filtered(pred, ys)
  {
    if ys == [] {
      assert xs + ys == xs;
    } else {
      assert (xs + ys)[..|xs + ys| - 1] == xs + ys[..|ys| - 1];
      FilteredConcat(pred, xs, ys[..|ys| - 1]);
    }
  }

  /** Where keeps exactly the occurrences that satisfy the predicate. */
  lemma {:induction false} FilteredCounts<T>(pred: T -> bool, xs: seq<T>, x: T)
    ensures multiset(Filtered(pred, xs))[x] == if pred(x) then multiset(xs)[x] else 0
    ensures |Filtered(pred, xs)| <= |xs|
  {
    if xs != [] {
      var front, last := xs[..|xs| - 1], xs[|xs| - 1];
      FilteredCounts(pred, front, x);
      assert xs == front + [last];
    }
  }

  lemma PipelineOfTwo<T>(first: FilterOption<T>, second: FilterOption<T>, xs: seq<T>)
    ensures Pipeline([first, second], xs) == Apply(second, Apply(first, xs))
  {
    var both := [first, second];
    assert both[..1] == [first] && both[..1][..0] == [];
    assert Pipeline(both[..1], xs) == Apply(first, xs);
  }

  /** A pipeline is run left to right: its second half works on what the first half made. */
  lemma {:induction false} PipelineSplits<T>(first: seq<FilterOption<T>>, second: seq<FilterOption<T>>, xs: seq<T>)
    ensures Pipeline(first + second, xs) == Pipeline(second, Pipeline(first, xs))
  {
    if second == [] {
      assert first + second == first;
    } else {
      assert (first + second)[..|first + second| - 1] == first + second[..|second| - 1];
      PipelineSplits(first, second[..|second| - 1], xs);
    }
  }

  /** Limit before Where filters the slice already cut: what it returns is a prefix of what
      Where before Limit returns, and all of it exactly when the cut-off part had nothing to
      add or the limit was already reached. */
  lemma LimitBeforeWhere<T>(pred: T -> bool, n: nat, xs: seq<T>)
    ensures var early, late := Pipeline([Limit(n), Where(pred)], xs), Pipeline([Where(pred), Limit(n)], xs);
            && early <= late
            && (early == late <==> |early| == n || n >= |xs| || Filtered(pred, xs[n..]) == [])
  {
    PipelineOfTwo(Limit(n), Where(pred), xs);
    PipelineOfTwo(Where(pred), Limit(n), xs);
    if n < |xs| {
      assert xs == xs[..n] + xs[n..];
      FilteredConcat(pred, xs[..n], xs[n..]);
      if xs[..n] != [] {
        FilteredCounts(pred, xs[..n], xs[0]);
      }
    } else {
      FilteredCountsAll(pred, xs);
    }
  }

  lemma FilteredCountsAll<T>(pred: T -> bool, xs: seq<T>)
    ensures |Filtered(pred, xs)| <= |xs|
  {
    if xs != [] { FilteredCounts(pred, xs, xs[0]); }
  }

  /** The `i`th page of `n` items, as a caller asks for it. */
  function Page<T>(n: nat, i: nat, xs: seq<T>): seq<T> {
    Pipeline([Offset(n * i), Limit(n)], xs)
  }

  function Pages<T>(n: nat, count: nat, xs: seq<T>): seq<T> {
    if count == 0 then [] else Pages(n, count - 1, xs) + Page(n, count - 1, xs)
  }

  /** Paging loses nothing and repeats nothing: the first `count` pages are the first `n * count` items. */
  lemma {:induction false} PagesCover<T>(n: nat, count: nat, xs: seq<T>)
    requires n > 0
    ensures Pages(n, count, xs) == if n * count >= |xs| then xs else xs[..n * count]
  {
    if count > 0 {
      PagesCover(n, count - 1, xs);
      var from := n * (count - 1);
      assert n * count == from + n;
      PipelineOfTwo(Offset(from), Limit(n), xs);
    }
  }

  // ---------------------------------------------------------------- sorting

  ghost predicate Ordered<T(!new)>(cmp: (T, T) -> int) {
    && (forall a, b :: cmp(a, b) <= 0 || cmp(b, a) <= 0)
    && (forall a, b, c :: cmp(a, b) <= 0 && cmp(b, c) <= 0 ==> cmp(a, c) <= 0)
  }

  ghost predicate Sorted<T>(cmp: (T, T) -> int, xs: seq<T>) {
    forall i, j :: 0 <= i < j < |xs| ==> cmp(xs[i], xs[j]) <= 0
  }

  /** All that is known of sort.Slice: a permutation, sorted when `cmp` orders; not stable. */
  ghost predicate Sorts<T(!new)>(cmp: (T, T) -> int, sort: seq<T> -> seq<T>) {
    forall xs :: multiset(sort(xs)) == multiset(xs) && (Ordered(cmp) ==> Sorted(cmp, sort(xs)))
  }

  lemma {:induction false} FilteredSorted<T>(cmp: (T, T) -> int, pred: T -> bool, xs: seq<T>)
    requires Sorted(cmp, xs)
    ensures Sorted(cmp, Filtered(pred, xs))
    ensures forall y :: y in Filtered(pred, xs) ==> y in xs
  {
    if xs != [] {
      var front, last := xs[..|xs| - 1], xs[|xs| - 1];
      FilteredSorted(cmp, pred, front);
      forall y | y in front ensures cmp(y, last) <= 0 {
        var i :| 0 <= i < |front| && front[i] == y;
        assert xs[i] == y;
      }
    }
  }

  predicate Tie<T>(cmp: (T, T) -> int, a: T, b: T) {
    cmp(a, b) <= 0 && cmp(b, a) <= 0
  }

  ghost predicate TiesOnlyEquals<T(!new)>(cmp: (T, T) -> int) {
    forall a, b :: Tie(cmp, a, b) ==> a == b
  }

  /** With equal prefixes cancelled, an item of the rest of one is in the rest of the other. */
  lemma InTheRest<T>(xs: seq<T>, ys: seq<T>, n: nat) returns (j: nat)
    requires multiset(xs) == multiset(ys) && n < |xs| && n < |ys| && xs[..n] == ys[..n]
    ensures n <= j < |ys| && ys[j] == xs[n]
  {
    assert xs == xs[..n] + xs[n..] && ys == ys[..n] + ys[n..];
    assert multiset(xs[n..]) == multiset(xs) - multiset(xs[..n]);
    assert multiset(ys[n..]) == multiset(ys) - multiset(ys[..n]);
    assert xs[n..][0] in multiset(ys[n..]);
    var k :| 0 <= k < |ys[n..]| && ys[n..][k] == xs[n];
    j := n + k;
  }

  /** Two sorted arrangements of the same items that agree on their first `n` agree on the next:
      each next item is least in what is left, so they tie. */
  lemma AgreeOnNext<T(!new)>(cmp: (T, T) -> int, xs: seq<T>, ys: seq<T>, n: nat)
    requires Sorted(cmp, xs) && Sorted(cmp, ys) && multiset(xs) == multiset(ys) && TiesOnlyEquals(cmp)
    requires n < |xs| && n < |ys| && xs[..n] == ys[..n]
    ensures xs[n] == ys[n]
  {
    var i := InTheRest(ys, xs, n);
    var j := InTheRest(xs, ys, n);
    assert i == n || j == n || Tie(cmp, xs[n], ys[n]);
  }

  lemma OneArrangement<T(!new)>(cmp: (T, T) -> int, us: seq<T>, vs: seq<T>)
    requires Sorted(cmp, us) && Sorted(cmp, vs) && multiset(us) == multiset(vs) && TiesOnlyEquals(cmp)
    ensures us == vs
  {
    assert |us| == |multiset(us)| == |multiset(vs)| == |vs|;
    for n := 0 to |us|
      invariant us[..n] == vs[..n]
    {
      AgreeOnNext(cmp, us, vs, n);
    }
  }

  /** SortBy rearranges what it is given, in order when `cmp` orders; an option of the caller's
      own does what the caller wrote. */
  lemma SortByArranges<T(!new)>(cmp: (T, T) -> int, sort: seq<T> -> seq<T>, f: seq<T> -> seq<T>, xs: seq<T>)
    requires Sorts(cmp, sort)
    ensures multiset(Apply(SortBy(cmp, sort), xs)) == multiset(xs)
    ensures Ordered(cmp) ==> Sorted(cmp, Apply(SortBy(cmp, sort), xs))
    ensures Apply(Custom(f), xs) == f(xs)
  {
    assert multiset(sort(xs)) == multiset(xs) && (Ordered(cmp) ==> Sorted(cmp, sort(xs)));
  }

  /** Sorting and filtering commute: always as collections, and item for item when ties are
      only between equal items, whatever the library does with ties. */
  lemma SortWhereCommute<T(!new)>(cmp: (T, T) -> int, sort: seq<T> -> seq<T>, pred: T -> bool, xs: seq<T>)
    requires Sorts(cmp, sort)
    ensures var late, early := Pipeline([SortBy(cmp, sort), Where(pred)], xs),
                               Pipeline([Where(pred), SortBy(cmp, sort)], xs);
            multiset(late) == multiset(early) && (Ordered(cmp) && TiesOnlyEquals(cmp) ==> late == early)
  {
    var kept := Filtered(pred, xs);
    PipelineOfTwo(SortBy(cmp, sort), Where(pred), xs);
    PipelineOfTwo(Where(pred), SortBy(cmp, sort), xs);
    assert multiset(sort(xs)) == multiset(xs) && multiset(sort(kept)) == multiset(kept);
    forall x ensures multiset(Filtered(pred, sort(xs)))[x] == multiset(sort(kept))[x] {
      FilteredCounts(pred, sort(xs), x);
      FilteredCounts(pred, xs, x);
    }
    if Ordered(cmp) && TiesOnlyEquals(cmp) {
      FilteredSorted(cmp, pred, sort(xs));
      OneArrangement(cmp, Filtered(pred, sort(xs)), sort(kept));
    }
  }

  // ---------------------------------------------------------------- running them on slices

  /** A slice: a window on an array it may share with others. */
  datatype Slice<T> = Slice(arr: array<T>, lo: nat, hi: nat) {
    ghost predicate Valid() {
      lo <= hi <= arr.Length
    }

    function Contents(): seq<T>
      requires Valid()
      reads arr
    {
      arr[lo..hi]
    }
  }

  method CopyOf<T>(s: Slice<T>) returns (r: Slice<T>)
    requires s.Valid()
    ensures r.Valid() && fresh(r.arr) && r.lo == 0 && r.hi == r.arr.Length && r.Contents() == s.Contents()
  {
    var arr := new T[s.hi - s.lo](i requires 0 <= i < s.hi - s.lo reads s.arr => s.arr[s.lo + i]);
    r := Slice(arr, 0, arr.Length);
  }

  method FilterInto<T(0)>(s: Slice<T>, pred: T -> bool) returns (r: Slice<T>)
    requires s.Valid()
    ensures r.Valid() && fresh(r.arr) && r.Contents() == Filtered(pred, s.Contents())
  {
    var result, m := new T[s.hi - s.lo], 0;
    for i := s.lo to s.hi
      invariant m <= i - s.lo
      invariant result[..m] == Filtered(pred, s.arr[s.lo..i])
    {
      assert s.arr[s.lo..i + 1][..i - s.lo] == s.arr[s.lo..i];
      if pred(s.arr[i]) {
        result[m] := s.arr[i];
        m := m + 1;
      }
    }
    r := Slice(result, 0, m);
  }

  /** Overwrites the front of `s` with `ys` and returns that front; grows only if it must. */
  method Rewrite<T>(s: Slice<T>, ys: seq<T>) returns (r: Slice<T>)
    requires s.Valid()
    modifies s.arr
    ensures r.Valid() && (r.arr == s.arr || fresh(r.arr)) && r.Contents() == ys
  {
    if |ys| > s.hi - s.lo {
      var grown := new T[|ys|](i requires 0 <= i < |ys| => ys[i]);
      return Slice(grown, 0, |ys|);
    }
    for i := 0 to |ys|
      invariant s.arr[s.lo..s.lo + i] == ys[..i]
    {
      s.arr[s.lo + i] := ys[i];
    }
    r := Slice(s.arr, s.lo, s.lo + |ys|);
  }

  lemma Windows<T>(zs: seq<T>, lo: nat, hi: nat, n: nat)
    requires lo <= lo + n <= hi <= |zs|
    ensures zs[lo..hi][..n] == zs[lo..lo + n] && zs[lo..hi][n..] == zs[lo + n..hi]
  {
  }

  /** One option on a slice the pipeline owns: Where and SortBy build a new one, Limit and
      Offset narrow the window, a caller's own may write through it. */
  method Run<T(0)>(opt: FilterOption<T>, s: Slice<T>) returns (r: Slice<T>)
    requires s.Valid()
    modifies s.arr
    ensures r.Valid() && (r.arr == s.arr || fresh(r.arr)) && r.Contents() == Apply(opt, old(s.Contents()))
  {
    match opt {
      case Where(pred) => r := FilterInto(s, pred);
      case SortBy(_, sort) =>
        var result := CopyOf(s);
        r := Rewrite(result, sort(result.Contents()));
      case Limit(n) =>
        if n >= s.hi - s.lo {
          r := s;
        } else {
          r := Slice(s.arr, s.lo, s.lo + n);
          assert s.arr[..][s.lo..s.hi] == s.arr[s.lo..s.hi] && s.arr[..][r.lo..r.hi] == s.arr[r.lo..r.hi];
          Windows(s.arr[..], s.lo, s.hi, n);
        }
      case Offset(n) =>
        if n >= s.hi - s.lo {
          var none := new T[0];
          r := Slice(none, 0, 0);
        } else {
          r := Slice(s.arr, s.lo + n, s.hi);
          assert s.arr[..][s.lo..s.hi] == s.arr[s.lo..s.hi] && s.arr[..][r.lo..r.hi] == s.arr[r.lo..r.hi];
          Windows(s.arr[..], s.lo, s.hi, n);
        }
      case Custom(f) => r := Rewrite(s, f(s.Contents()));
    }
  }

  /** applyFilters: whatever the options do to the slices they are handed, `items`, which a
      published snapshot may be, is not one of them. */
  method ApplyFilters<T(0)>(items: array<T>, opts: seq<FilterOption<T>>) returns (r: Slice<T>)
    ensures r.Valid() && fresh(r.arr) && r.Contents() == Pipeline(opts, items[..])
  {
    r := CopyOf(Slice(items, 0, items.Length));
    assert items[0..items.Length] == items[..];
    for i := 0 to |opts|
      invariant r.Valid() && fresh(r.arr) && r.Contents() == Pipeline(opts[..i], items[..])
    {
      assert opts[..i + 1][..i] == opts[..i];
      r := Run(opts[i], r);
    }
    assert opts[..|opts|] == opts;
  }
}
