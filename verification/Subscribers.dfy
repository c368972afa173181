/** What the collection in config/collection.go, its hook slots and the views of config/view.go
    do to one another, as values: the machine every run of them follows. */
module Subscribers {
  import opened Wrappers
  import opened Versions
  import opened Query

  /** A slot is never reused: unregistering leaves it gone. */
  datatype Slot = Gone | Callback(id: nat) | Feeds(view: nat)

  /** `breaks`: the source slices on which the view's own functions panic. */
  datatype ViewState<!T> = ViewState(filters: seq<FilterOption<T>>, breaks: seq<T> -> bool,
                                     version: Version, items: seq<T>, slot: nat, open: bool)

  datatype Feed<!T> = Feed(version: Version, items: seq<T>, slots: seq<Slot>, views: seq<ViewState<T>>)

  predicate KeepWarmStart(loaded: bool, source: Version) {
    loaded && source.IsZero()
  }

  /** A panic inside the view's hook leaves the view as it was. */
  function Recomputed<T>(v: ViewState<T>, xs: seq<T>, ver: Version): ViewState<T> {
    if v.breaks(xs) then v else v.(version := ver, items := Pipeline(v.filters, xs))
  }

  function AfterSwap<T>(f: Feed<T>, ver: Version, xs: seq<T>): Feed<T> {
    Feed(ver, xs, f.slots,
         seq(|f.views|, k requires 0 <= k < |f.views| =>
           if Feeds(k) in f.slots then Recomputed(f.views[k], xs, ver) else f.views[k]))
  }

  function AfterOnChange<T>(f: Feed<T>, id: nat): Feed<T> {
    f.(slots := f.slots + [Callback(id)])
  }

  function AfterUnregister<T>(f: Feed<T>, i: nat): Feed<T>
    requires i < |f.slots|
  {
    f.(slots := f.slots[i := Gone])
  }

  /** A new view, `warm` what its store had kept; None: the first computation panicked, and
      that panic is the caller's. */
  function AfterOpen<T>(f: Feed<T>, filters: seq<FilterOption<T>>, breaks: seq<T> -> bool,
                        warm: Option<seq<T>>): Option<Feed<T>> {
    var v := ViewState(filters, breaks, UNSET, if warm.Some? then warm.value else [], |f.slots|, true);
    if KeepWarmStart(warm.Some?, f.version) then
      Some(f.(slots := f.slots + [Feeds(|f.views|)], views := f.views + [v]))
    else if breaks(f.items) then None
    else Some(f.(slots := f.slots + [Feeds(|f.views|)], views := f.views + [Recomputed(v, f.items, f.version)]))
  }

  /** A new view takes the next slot, open. It keeps what its store had exactly while the source
      is unset, and otherwise holds its pipeline over the source; only that first computation can
      make the opening fail. */
  lemma OpensWarmOrComputed<T>(f: Feed<T>, filters: seq<FilterOption<T>>, breaks: seq<T> -> bool, warm: Option<seq<T>>)
    ensures var f' := AfterOpen(f, filters, breaks, warm); var keeps := warm.Some? && f.version.raw == "";
            && (f'.None? <==> !keeps && breaks(f.items))
            && (f'.Some? ==>
                  && f'.value.version == f.version && f'.value.items == f.items
                  && f'.value.slots == f.slots + [Feeds(|f.views|)] && |f'.value.views| == |f.views| + 1
                  && f'.value.views[..|f.views|] == f.views
                  && f'.value.views[|f.views|] ==
                     ViewState(filters, breaks, if keeps then UNSET else f.version,
                               if keeps then warm.value else Pipeline(filters, f.items), |f.slots|, true))
  {
    hide Pipeline;
  }

  function AfterClose<T>(f: Feed<T>, k: nat): Feed<T>
    requires k < |f.views| && f.views[k].slot < |f.slots|
  {
    var v := f.views[k];
    if v.open then f.(slots := f.slots[v.slot := Gone], views := f.views[k := v.(open := false)]) else f
  }

  // ---------------------------------------------------------------- runs

  datatype Act<!T> =
    | Swap(ver: Version, items: seq<T>)
    | OnChange(id: nat)
    | Unregister(slot: nat)
    | Open(filters: seq<FilterOption<T>>, breaks: seq<T> -> bool, warm: Option<seq<T>>)
    | Close(view: nat)

  /** Every view knows its slot and every slot its view. */
  ghost predicate WellFormed<T>(f: Feed<T>) {
    && (forall k :: 0 <= k < |f.views| ==>
          f.views[k].slot < |f.slots| && (f.views[k].open <==> f.slots[f.views[k].slot] == Feeds(k)))
    && (forall i :: 0 <= i < |f.slots| && f.slots[i].Feeds? ==>
          f.slots[i].view < |f.views| && f.views[f.slots[i].view].slot == i)
  }

  /** A caller can unregister only what OnChange gave it. */
  ghost predicate Allowed<T>(f: Feed<T>, a: Act<T>) {
    match a
    case Unregister(i) => i < |f.slots| && !f.slots[i].Feeds?
    case Open(filters, breaks, warm) => AfterOpen(f, filters, breaks, warm).Some?
    case Close(k) => k < |f.views| && f.views[k].slot < |f.slots|
    case _ => true
  }

  ghost function After<T>(f: Feed<T>, a: Act<T>): Feed<T>
    requires Allowed(f, a)
  {
    match a
    case Swap(ver, xs) => AfterSwap(f, ver, xs)
    case OnChange(id) => AfterOnChange(f, id)
    case Unregister(i) => AfterUnregister(f, i)
    case Open(filters, breaks, warm) => AfterOpen(f, filters, breaks, warm).value
    case Close(k) => AfterClose(f, k)
  }

  ghost predicate FeedRun<T>(fs: seq<Feed<T>>, acts: seq<Act<T>>) {
    && |fs| == |acts| + 1
    && fs[0] == Feed(UNSET, [], [], [])
    && forall i :: 0 <= i < |acts| ==> Allowed(fs[i], acts[i]) && fs[i + 1] == After(fs[i], acts[i])
  }

  lemma SwapWellFormed<T>(f: Feed<T>, ver: Version, xs: seq<T>)
    requires WellFormed(f)
    ensures WellFormed(AfterSwap(f, ver, xs))
  {
    hide Pipeline;
    var f' := AfterSwap(f, ver, xs);
    assert forall k :: 0 <= k < |f.views| ==>
      f'.views[k].slot == f.views[k].slot && f'.views[k].open == f.views[k].open;
  }

  lemma OpenWellFormed<T>(f: Feed<T>, filters: seq<FilterOption<T>>, breaks: seq<T> -> bool, warm: Option<seq<T>>)
    requires WellFormed(f) && AfterOpen(f, filters, breaks, warm).Some?
    ensures WellFormed(AfterOpen(f, filters, breaks, warm).value)
  {
    hide Pipeline;
  }

  lemma CloseWellFormed<T>(f: Feed<T>, k: nat)
    requires WellFormed(f) && k < |f.views|
    ensures WellFormed(AfterClose(f, k))
  {
  }

  lemma StepWellFormed<T>(f: Feed<T>, a: Act<T>)
    requires WellFormed(f) && Allowed(f, a)
    ensures WellFormed(After(f, a)) && |f.views| <= |After(f, a).views| && |f.slots| <= |After(f, a).slots|
  {
    match a
    case Swap(ver, xs) =>
      SwapWellFormed(f, ver, xs);
      hide WellFormed, Recomputed;
    case Open(filters, breaks, warm) =>
      OpenWellFormed(f, filters, breaks, warm);
      hide WellFormed, Recomputed;
    case Close(k) =>
      CloseWellFormed(f, k);
      hide WellFormed;
    case OnChange(_) =>
    case Unregister(_) =>
  }

  lemma {:induction false} RunWellFormed<T>(fs: seq<Feed<T>>, acts: seq<Act<T>>, i: nat)
    requires FeedRun(fs, acts) && i < |fs|
    ensures WellFormed(fs[i])
  {
    if i > 0 {
      RunWellFormed(fs, acts, i - 1);
      StepWellFormed(fs[i - 1], acts[i - 1]);
    }
  }

  /** View `k` holds what its pipeline makes of the source, at the source's version. */
  ghost predicate Follows<T>(f: Feed<T>, k: nat) {
    k < |f.views| && f.views[k].version == f.version && f.views[k].items == Pipeline(f.views[k].filters, f.items)
  }

  lemma StepFollows<T>(f: Feed<T>, a: Act<T>, k: nat)
    requires WellFormed(f) && Allowed(f, a) && k < |After(f, a).views| && After(f, a).views[k].open
    ensures var f' := After(f, a);
            if a.Swap? then k < |f.views| && f.views[k].open && f'.views[k] == Recomputed(f.views[k], a.items, a.ver)
            else if a.Open? && k == |f.views| then Follows(f', k) || f.version.IsZero()
            else k < |f.views| && f'.views[k] == f.views[k] && f'.version == f.version && f'.items == f.items
  {
  }

  /** In every run, at every point, an open view equals its pipeline over the source's current
      items at the source's version, once that version is set; the one exception is a view
      whose own functions panic on the current slice. */
  lemma {:induction false} OpenViewFollows<T>(fs: seq<Feed<T>>, acts: seq<Act<T>>, i: nat, k: nat)
    requires FeedRun(fs, acts) && i < |fs| && k < |fs[i].views| && fs[i].views[k].open
    ensures fs[i].version.IsZero() || fs[i].views[k].breaks(fs[i].items) || Follows(fs[i], k)
  {
    if i > 0 {
      RunWellFormed(fs, acts, i - 1);
      StepFollows(fs[i - 1], acts[i - 1], k);
      if k < |fs[i - 1].views| && fs[i - 1].views[k].open {
        OpenViewFollows(fs, acts, i - 1, k);
      }
    }
  }

  /** Step `j` computed the view, and every later slice broke it. */
  ghost predicate LastGood<T>(fs: seq<Feed<T>>, acts: seq<Act<T>>, j: nat, i: nat, k: nat)
    requires |fs| == |acts| + 1 && i < |fs|
  {
    && j <= i && Follows(fs[j], k) && k < |fs[i].views| && fs[i].views[k] == fs[j].views[k]
    && forall m :: j <= m < i && acts[m].Swap? ==> fs[i].views[k].breaks(acts[m].items)
  }

  /** And a view that panics keeps the last slice it could digest, whole: what an open view
      serves at a set version is always its pipeline over some published snapshot, with that
      snapshot's version. A view warmed from its store may wait for the first good one. */
  lemma {:induction false} BrokenViewKeepsLastGood<T>(fs: seq<Feed<T>>, acts: seq<Act<T>>, i: nat, k: nat)
    returns (j: nat)
    requires FeedRun(fs, acts) && i < |fs| && k < |fs[i].views|
    requires fs[i].views[k].open && !fs[i].views[k].version.IsZero()
    ensures LastGood(fs, acts, j, i, k)
  {
    assert i > 0;
    hide Pipeline, After, Allowed, WellFormed;
    RunWellFormed(fs, acts, i - 1);
    StepFollows(fs[i - 1], acts[i - 1], k);
    if Follows(fs[i], k) { return i; }
    j := BrokenViewKeepsLastGood(fs, acts, i - 1, k);
  }

  lemma StepClosed<T>(f: Feed<T>, a: Act<T>, k: nat)
    requires WellFormed(f) && Allowed(f, a) && k < |f.views| && !f.views[k].open
    ensures k < |After(f, a).views| && After(f, a).views[k] == f.views[k]
  {
    hide Pipeline, Recomputed;
  }

  /** After Close a view is frozen, whatever happens to its source. */
  lemma {:induction false} ClosedViewFrozen<T>(fs: seq<Feed<T>>, acts: seq<Act<T>>, j: nat, i: nat, k: nat)
    requires FeedRun(fs, acts) && j <= i < |fs| && k < |fs[j].views| && !fs[j].views[k].open
    ensures k < |fs[i].views| && fs[i].views[k] == fs[j].views[k]
    decreases i
  {
    if j < i {
      ClosedViewFrozen(fs, acts, j, i - 1, k);
      RunWellFormed(fs, acts, i - 1);
      StepClosed(fs[i - 1], acts[i - 1], k);
      hide After, Allowed, WellFormed;
    }
  }

  lemma StepSlot<T>(f: Feed<T>, a: Act<T>, n: nat)
    requires WellFormed(f) && Allowed(f, a) && n < |f.slots| && !f.slots[n].Feeds?
    ensures n < |After(f, a).slots|
    ensures After(f, a).slots[n] == if a == Unregister(n) then Gone else f.slots[n]
  {
    hide Pipeline, Recomputed;
  }

  /** A registered callback stays in its slot exactly until its own unregister is called; that
      call may be repeated and never reaches another hook. */
  lemma {:induction false} HookStaysUntilUnregistered<T>(fs: seq<Feed<T>>, acts: seq<Act<T>>, j: nat, i: nat, n: nat)
    requires FeedRun(fs, acts) && j <= i < |fs| && n < |fs[j].slots| && fs[j].slots[n].Callback?
    ensures n < |fs[i].slots|
    ensures if exists m :: j <= m < i && acts[m] == Unregister(n) then fs[i].slots[n] == Gone
            else fs[i].slots[n] == fs[j].slots[n]
    decreases i
  {
    if j < i {
      HookStaysUntilUnregistered(fs, acts, j, i - 1, n);
      RunWellFormed(fs, acts, i - 1);
      StepSlot(fs[i - 1], acts[i - 1], n);
      hide After, Allowed, WellFormed;
      if exists m :: j <= m < i - 1 && acts[m] == Unregister(n) {
        var m :| j <= m < i - 1 && acts[m] == Unregister(n);
        assert j <= m < i && acts[m] == Unregister(n);
      }
    }
  }

  /** Unregistering twice, or closing twice, is unregistering or closing once. */
  lemma RemovalIsIdempotent<T>(f: Feed<T>, i: nat, k: nat)
    requires WellFormed(f)
    ensures i < |f.slots| ==> AfterUnregister(AfterUnregister(f, i), i) == AfterUnregister(f, i)
    ensures k < |f.views| ==> AfterClose(AfterClose(f, k), k) == AfterClose(f, k)
    ensures k < |f.views| && f.views[k].open ==>
              forall n :: 0 <= n < |f.slots| && f.slots[n] != Feeds(k) ==> AfterClose(f, k).slots[n] == f.slots[n]
  {
  }
}
