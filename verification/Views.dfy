/** config/collection.go, config/hooks.go and config/view.go as they run: a published snapshot,
    hook slots, and views hanging on them. Each method is one step of the subscriber machine. */
module Views {
  import opened Wrappers
  import opened Versions
  import opened Query
  import opened Subscribers

  datatype Hook<T(0)> = Nil | Calls(id: nat) | Recomputes(v: View<T>)

  /** One hook run: what it is given of the slice replaced and of the slice published. */
  datatype Told<T(0)> = Told(hook: Hook<T>, before: seq<T>, after: seq<T>)

  function ViewsIn<T(0)>(hs: seq<Hook<T>>): set<View<T>> {
    set i | 0 <= i < |hs| && hs[i].Recomputes? :: hs[i].v
  }

  lemma ViewsInGrow<T(0)>(hs: seq<Hook<T>>, h: Hook<T>)
    ensures ViewsIn(hs + [h]) == ViewsIn(hs) + if h.Recomputes? then {h.v} else {}
  {
    var more := hs + [h];
    forall v | v in ViewsIn(hs) ensures v in ViewsIn(more) {
      var i :| 0 <= i < |hs| && hs[i].Recomputes? && hs[i].v == v;
      assert more[i] == hs[i];
    }
    assert more[|hs|] == h;
  }

  /** The hook panics on the slice `xs`: a callback as `panics` says, a view as its own functions do. */
  ghost predicate Panicked<T(0)>(h: Hook<T>, xs: seq<T>, panics: nat -> bool) {
    (h.Calls? && panics(h.id)) || (h.Recomputes? && h.v.breaks(xs))
  }

  /** The first `n` hooks that panic. */
  ghost function Panicking<T(0)>(hs: seq<Hook<T>>, xs: seq<T>, panics: nat -> bool, n: nat): set<nat>
    requires n <= |hs|
  {
    set j: nat | j < n && Panicked(hs[j], xs, panics)
  }

  /** The view's own hooks that panic, among the first `n` slots. */
  ghost function OwnPanicking(own: seq<Option<nat>>, panics: nat -> bool, n: nat): set<nat>
    requires n <= |own|
  {
    set j: nat | j < n && own[j].Some? && panics(own[j].value)
  }

  lemma OneMoreOwn(own: seq<Option<nat>>, panics: nat -> bool, n: nat)
    requires n < |own|
    ensures |OwnPanicking(own, panics, n + 1)| ==
              |OwnPanicking(own, panics, n)| + if own[n].Some? && panics(own[n].value) then 1 else 0
  {
    assert OwnPanicking(own, panics, n + 1) ==
           OwnPanicking(own, panics, n) + if own[n].Some? && panics(own[n].value) then {n} else {};
  }

  /** Each view hangs on one hook only. */
  ghost predicate OneHookEach<T(0)>(hs: seq<Hook<T>>) {
    forall i, j :: 0 <= i < j < |hs| && hs[i].Recomputes? && hs[j].Recomputes? ==> hs[i].v != hs[j].v
  }

  /** What the first `n` hooks are told: one telling each, in order. */
  ghost function Tellings<T(0)>(hs: seq<Hook<T>>, before: seq<T>, after: seq<T>, n: nat): seq<Told<T>>
    requires n <= |hs|
  {
    if n == 0 then []
    else Tellings(hs, before, after, n - 1) + if hs[n - 1].Nil? then [] else [Told(hs[n - 1], before, after)]
  }

  lemma {:induction false} TellingsAre<T(0)>(hs: seq<Hook<T>>, before: seq<T>, after: seq<T>, n: nat)
    requires n <= |hs|
    ensures (forall j :: 0 <= j < n ==> !hs[j].Nil?) ==>
              && |Tellings(hs, before, after, n)| == n
              && forall j :: 0 <= j < n ==> Tellings(hs, before, after, n)[j] == Told(hs[j], before, after)
  {
    if n > 0 {
      TellingsAre(hs, before, after, n - 1);
    }
  }

  lemma NoneYet<T(0)>(hs: seq<Hook<T>>, was: seq<T>, xs: seq<T>, panics: nat -> bool)
    ensures Panicking(hs, xs, panics, 0) == {} && Tellings(hs, was, xs, 0) == []
  {
  }

  lemma OneMoreHook<T(0)>(hs: seq<Hook<T>>, was: seq<T>, xs: seq<T>, panics: nat -> bool, n: nat)
    requires n < |hs|
    ensures Tellings(hs, was, xs, n + 1) ==
              Tellings(hs, was, xs, n) + if hs[n].Nil? then [] else [Told(hs[n], was, xs)]
    ensures |Panicking(hs, xs, panics, n + 1)| ==
              |Panicking(hs, xs, panics, n)| + if Panicked(hs[n], xs, panics) then 1 else 0
  {
    assert Panicking(hs, xs, panics, n + 1) ==
           Panicking(hs, xs, panics, n) + if Panicked(hs[n], xs, panics) then {n} else {};
  }

  /** One hook's turn: its panic is caught here. */
  method SafeCallHook<T(0)>(h: Hook<T>, ver: Version, oldItems: array<T>, newItems: array<T>, panics: nat -> bool)
    returns (panicked: bool, told: seq<Told<T>>)
    modifies (if h.Recomputes? then {h.v} else {})`items, (if h.Recomputes? then {h.v} else {})`version
    ensures panicked == Panicked(h, newItems[..], panics)
    ensures told == if h.Nil? then [] else [Told(h, oldItems[..], newItems[..])]
    ensures h.Recomputes? ==> h.v.State() == Recomputed(old(h.v.State()), newItems[..], ver)
  {
    panicked, told := false, [];
    match h {
      case Nil => return;
      case Calls(id) => panicked := panics(id);
      case Recomputes(v) =>
        var broke, _ := v.Recompute(newItems, ver, panics);
        panicked := broke;
    }
    told := [Told(h, oldItems[..], newItems[..])];
  }

  /** One fan-out over the hooks given: no panic keeps a later one from its turn. `told`: the
      hooks run, in order; `errs`: how many of them panicked. */
  method SafeCallHooks<T(0)>(hs: seq<Hook<T>>, ver: Version, oldItems: array<T>, newItems: array<T>,
                             panics: nat -> bool)
    returns (errs: nat, told: seq<Told<T>>)
    requires OneHookEach(hs)
    modifies ViewsIn(hs)`items, ViewsIn(hs)`version
    ensures forall v :: v in ViewsIn(hs) ==> v.State() == Recomputed(old(v.State()), newItems[..], ver)
    ensures errs == |Panicking(hs, newItems[..], panics, |hs|)|
    ensures (forall j :: 0 <= j < |hs| ==> !hs[j].Nil?) ==>
              |told| == |hs| && forall j :: 0 <= j < |hs| ==> told[j] == Told(hs[j], oldItems[..], newItems[..])
  {
    errs, told := 0, [];
    NoneYet(hs, oldItems[..], newItems[..], panics);
    hide Panicking, Panicked, Recomputed, Tellings;
    ghost var was, xs := oldItems[..], newItems[..];
    for i := 0 to |hs|
      invariant oldItems[..] == was && newItems[..] == xs && errs == |Panicking(hs, xs, panics, i)|
      invariant told == Tellings(hs, was, xs, i)
      invariant forall j :: 0 <= j < |hs| && hs[j].Recomputes? ==>
        hs[j].v.State() == if j < i then Recomputed(old(hs[j].v.State()), xs, ver) else old(hs[j].v.State())
    {
      OneMoreHook(hs, was, xs, panics, i);
      assert hs[i].Recomputes? ==> hs[i].v in ViewsIn(hs);
      var panicked, one := SafeCallHook(hs[i], ver, oldItems, newItems, panics);
      told := told + one;
      errs := if panicked then errs + 1 else errs;
    }
    TellingsAre(hs, was, xs, |hs|);
  }

  class View<T(0)> {
    const source: Collection<T>
    const filters: seq<FilterOption<T>>
    const breaks: seq<T> -> bool
    var version: Version
    var items: array<T>
    var slot: nat
    var open: bool
    var own: seq<Option<nat>>   // the view's own change hooks, in slots like its source's
    ghost var id: nat

    constructor (source: Collection<T>, filters: seq<FilterOption<T>>, breaks: seq<T> -> bool, stored: array<T>)
      ensures this.source == source && this.filters == filters && this.breaks == breaks
      ensures version == UNSET && items == stored && !open && own == []
    {
      this.source, this.filters, this.breaks := source, filters, breaks;
      version, items, slot, open, own := UNSET, stored, 0, false, [];
    }

    function State(): ViewState<T>
      reads this, items
    {
      ViewState(filters, breaks, version, items[..], slot, open)
    }

    /** Applies the pipeline to a copy, trims it into a snapshot of its own, publishes, then runs
        the view's own hooks. Their panics go to the view's error handler (`reported` counts
        them) and no further: only the view's functions can make its recompute panic. */
    method Recompute(from: array<T>, ver: Version, panics: nat -> bool) returns (panicked: bool, reported: nat)
      modifies this`items, this`version
      ensures panicked == breaks(from[..]) && State() == Recomputed(old(State()), from[..], ver)
      ensures if panicked then items == old(items) else fresh(items)
      ensures !panicked ==> version == ver && items[..] == Pipeline(filters, from[..])
      ensures panicked ==> version == old(version) && reported == 0
      ensures !panicked ==> reported == |OwnPanicking(own, panics, |own|)|
    {
      if breaks(from[..]) {
        return true, 0;
      }
      var stored := Slice(from, 0, from.Length);
      if |filters| > 0 {
        stored := ApplyFilters(from, filters);
      }
      stored := CopyOf(stored);
      items, version := stored.arr, ver;
      panicked, reported := false, 0;
      ghost var st, arr := State(), items;
      for i := 0 to |own|
        invariant reported == |OwnPanicking(own, panics, i)| && State() == st && items == arr
      {
        OneMoreOwn(own, panics, i);
        if own[i].Some? && panics(own[i].value) {
          reported := reported + 1;
        }
      }
    }

    method OnChange(id: nat) returns (slot: nat)
      modifies this`own
      ensures slot == |old(own)| && own == old(own) + [Some(id)]
    {
      slot := |own|;
      own := own + [Some(id)];
    }

    method Unregister(slot: nat)
      modifies this`own
      ensures own == if slot < |old(own)| then old(own)[slot := None] else old(own)
    {
      if slot < |own| {
        own := own[slot := None];
      }
    }

    /** Unsubscribes once; the snapshot stays readable. */
    method Close()
      requires source.Valid() && id < |source.views| && source.views[id] == this
      modifies this`open, source`hooks
      ensures source.Valid() && source.Model() == AfterClose(old(source.Model()), id)
      ensures !open && source.hooks == if old(open) then old(source.hooks)[slot := Nil] else old(source.hooks)
    {
      if open {
        open := false;
        source.hooks := source.hooks[slot := Nil];
      }
    }
  }

  class Collection<T(0)> {
    var version: Version
    var items: array<T>
    var hooks: seq<Hook<T>>
    ghost var views: seq<View<T>>

    constructor ()
      ensures Valid() && Model() == Feed(UNSET, [], [], []) && fresh(items)
    {
      version, items, hooks, views := UNSET, new T[0], [], [];
    }

    ghost predicate Valid()
      reads this, views
    {
      && (forall k :: 0 <= k < |views| ==>
            && views[k].id == k && views[k].source == this && views[k].slot < |hooks|
            && (views[k].open <==> hooks[views[k].slot] == Recomputes(views[k])))
      && (forall i :: 0 <= i < |hooks| && hooks[i].Recomputes? ==>
            && hooks[i].v in views && hooks[i].v.id < |views|
            && views[hooks[i].v.id] == hooks[i].v && hooks[i].v.slot == i)
    }

    ghost function SlotOf(h: Hook<T>): Slot
      reads (if h.Recomputes? then {h.v} else {})`id
    {
      match h
      case Nil => Gone
      case Calls(id) => Callback(id)
      case Recomputes(v) => Feeds(v.id)
    }

    ghost function Model(): (f: Feed<T>)
      requires Valid()
      reads this, items, views, set v | v in views :: v.items
      ensures f.version == version && f.items == items[..] && |f.slots| == |hooks| && |f.views| == |views|
    {
      Feed(version, items[..],
           seq(|hooks|, i requires 0 <= i < |hooks| reads this, views requires Valid() => SlotOf(hooks[i])),
           seq(|views|, k requires 0 <= k < |views| reads this, views, set v | v in views :: v.items =>
             views[k].State()))
    }

    /** `f` is the collection, slot by slot and view by view. */
    ghost predicate Shows(f: Feed<T>)
      reads this, items, views, set v | v in views :: v.items
    {
      && f.version == version && f.items == items[..]
      && |f.slots| == |hooks| && (forall i :: 0 <= i < |hooks| && hooks[i].Recomputes? ==> hooks[i].v in views)
      && (forall i :: 0 <= i < |hooks| ==> f.slots[i] == SlotOf(hooks[i]))
      && |f.views| == |views| && (forall k :: 0 <= k < |views| ==> f.views[k] == views[k].State())
    }

    lemma ShowsModel()
      requires Valid()
      ensures Shows(Model())
    {
    }

    lemma ModelIs(f: Feed<T>)
      requires Valid() && Shows(f)
      ensures Model() == f
    {
      assert Model().slots == f.slots && Model().views == f.views;
    }

    /** Registers a callback; the slot is what its unregister will name. */
    method OnChange(id: nat) returns (slot: nat)
      requires Valid()
      modifies this`hooks
      ensures Valid() && slot == |old(hooks)| && Model() == AfterOnChange(old(Model()), id)
      ensures hooks == old(hooks) + [Calls(id)]
    {
      slot := |hooks|;
      hooks := hooks + [Calls(id)];
    }

    /** The view's own registration, at the end of NewView. */
    method Attach(v: View<T>)
      requires Valid() && v !in views && v.source == this
      modifies this`hooks, this`views, v`slot, v`open, v`id
      ensures Valid() && views == old(views) + [v] && hooks == old(hooks) + [Recomputes(v)] && v.open
      ensures var f := old(Model());
              Model() == f.(slots := f.slots + [Feeds(|f.views|)],
                            views := f.views + [old(v.State()).(slot := |f.slots|, open := true)])
    {
      hide Model;
      ghost var f, st := Model(), v.State();
      ShowsModel();
      Enlist(v);
      ModelIs(f.(slots := f.slots + [Feeds(|f.views|)], views := f.views + [st.(slot := |f.slots|, open := true)]));
    }

    method Enlist(v: View<T>)
      requires Valid() && v !in views && v.source == this
      modifies this`hooks, this`views, v`slot, v`open, v`id
      ensures Valid() && hooks == old(hooks) + [Recomputes(v)] && views == old(views) + [v]
      ensures v.id == |old(views)| && v.slot == |old(hooks)| && v.open
    {
      v.id := |views|;
      v.slot, v.open := |hooks|, true;
      hooks := hooks + [Recomputes(v)];
      views := views + [v];
    }

    method Unregister(slot: nat)
      requires Valid() && (slot < |hooks| ==> !hooks[slot].Recomputes?)
      modifies this`hooks
      ensures Valid()
      ensures Model() == if slot < |old(hooks)| then AfterUnregister(old(Model()), slot) else old(Model())
      ensures hooks == if slot < |old(hooks)| then old(hooks)[slot := Nil] else old(hooks)
    {
      if slot < |hooks| {
        hooks := hooks[slot := Nil];
      }
    }

    /** `slots`: the slots not unregistered, in order. */
    ghost predicate LiveIn(slots: seq<nat>)
      reads this
    {
      && (forall i, j :: 0 <= i < j < |slots| ==> slots[i] < slots[j])
      && (forall j :: 0 <= j < |slots| ==> slots[j] < |hooks|)
      && (forall i: nat :: i < |hooks| ==> (i in slots <==> !hooks[i].Nil?))
    }

    /** The hooks a fan-out runs, and where they are. */
    method LiveHooks() returns (live: seq<Hook<T>>, slots: seq<nat>)
      requires Valid()
      ensures LiveIn(slots) && |live| == |slots|
      ensures forall j :: 0 <= j < |slots| ==> slots[j] < |hooks| && live[j] == hooks[slots[j]] && !live[j].Nil?
      ensures OneHookEach(live) && ViewsIn(live) == ViewsIn(hooks)
    {
      live, slots := [], [];
      for i := 0 to |hooks|
        invariant |live| == |slots|
        invariant forall j :: 0 <= j < |slots| ==> slots[j] < i && live[j] == hooks[slots[j]]
        invariant forall j, k :: 0 <= j < k < |slots| ==> slots[j] < slots[k]
        invariant forall j: nat :: j < i ==> (j in slots <==> !hooks[j].Nil?)
        invariant ViewsIn(live) == ViewsIn(hooks[..i])
        invariant forall j :: 0 <= j < |live| && live[j].Recomputes? ==> live[j].v.slot < i
        invariant OneHookEach(live)
      {
        assert hooks[..i + 1] == hooks[..i] + [hooks[i]];
        ViewsInGrow(hooks[..i], hooks[i]);
        if !hooks[i].Nil? {
          ViewsInGrow(live, hooks[i]);
          live, slots := live + [hooks[i]], slots + [i];
        }
      }
      assert hooks[..|hooks|] == hooks;
    }

    lemma FedIsHooked(k: nat)
      requires Valid() && k < |views|
      ensures Feeds(k) in Model().slots <==> views[k] in ViewsIn(hooks)
    {
      if Feeds(k) in Model().slots {
        var i :| 0 <= i < |hooks| && SlotOf(hooks[i]) == Feeds(k);
        assert hooks[i].v == views[k];
      }
      if views[k] in ViewsIn(hooks) {
        var i :| 0 <= i < |hooks| && hooks[i].Recomputes? && hooks[i].v == views[k];
        assert Model().slots[i] == Feeds(k);
      }
    }

    /** Some hook panics on `xs`: a callback as `panics` says, a view as its own functions do. */
    ghost predicate SomePanics(xs: seq<T>, panics: nat -> bool)
      reads this
    {
      exists i :: 0 <= i < |hooks| && Panicked(hooks[i], xs, panics)
    }

    lemma SomePanicsLive(xs: seq<T>, panics: nat -> bool, live: seq<Hook<T>>, slots: seq<nat>)
      requires LiveIn(slots) && |live| == |slots|
      requires forall j :: 0 <= j < |slots| ==> live[j] == hooks[slots[j]]
      ensures SomePanics(xs, panics) <==> |Panicking(live, xs, panics, |live|)| != 0
    {
      var broken := Panicking(live, xs, panics, |live|);
      if j :| j in broken {
        assert Panicked(hooks[slots[j]], xs, panics);
      }
      if i :| 0 <= i < |hooks| && Panicked(hooks[i], xs, panics) {
        var j :| 0 <= j < |slots| && slots[j] == i;
        assert j in broken;
      }
    }

    /** Runs the live hooks on copies the published snapshot does not share. */
    method RunHooks(live: seq<Hook<T>>, before: array<T>, panics: nat -> bool) returns (errs: nat, told: seq<Told<T>>)
      requires Valid() && OneHookEach(live) && ViewsIn(live) == ViewsIn(hooks)
      requires forall j :: 0 <= j < |live| ==> !live[j].Nil?
      modifies ViewsIn(hooks)`items, ViewsIn(hooks)`version
      ensures Valid()
      ensures forall k :: 0 <= k < |views| ==>
        (views[k].State() == if views[k] in ViewsIn(hooks) then Recomputed(old(views[k].State()), items[..], version)
                             else old(views[k].State()))
      ensures |told| == |live| && forall j :: 0 <= j < |live| ==> told[j] == Told(live[j], before[..], items[..])
      ensures errs == |Panicking(live, items[..], panics, |live|)|
    {
      hide Recomputed, Panicking;
      var oldCopy := CopyOf(Slice(before, 0, before.Length));
      var newCopy := CopyOf(Slice(items, 0, items.Length));
      assert oldCopy.arr[..] == before[..] && newCopy.arr[..] == items[..];
      errs, told := SafeCallHooks(live, version, oldCopy.arr, newCopy.arr, panics);
    }

    /** One fan-out of the published snapshot: every slot not unregistered, in order, is told once
        what was replaced and what is published. */
    method FanOut(before: array<T>, panics: nat -> bool) returns (ok: bool, told: seq<Told<T>>, slots: seq<nat>)
      requires Valid()
      modifies ViewsIn(hooks)`items, ViewsIn(hooks)`version
      ensures Valid()
      ensures forall k :: 0 <= k < |views| ==>
        (views[k].State() == if views[k] in ViewsIn(hooks) then Recomputed(old(views[k].State()), items[..], version)
                             else old(views[k].State()))
      ensures LiveIn(slots) && |told| == |slots|
      ensures forall j :: 0 <= j < |slots| ==> told[j] == Told(hooks[slots[j]], before[..], items[..])
      ensures ok <==> !SomePanics(items[..], panics)
    {
      var live, errs;
      live, slots := LiveHooks();
      SomePanicsLive(items[..], panics, live, slots);
      hide Recomputed, Panicking, SomePanics, Valid, OneHookEach;
      errs, told := RunHooks(live, before, panics);
      ok := errs == 0;
    }

    /** Stores a copy and runs the hooks on what is then published. */
    method Replace(ver: Version, xs: array<T>, panics: nat -> bool)
      returns (ok: bool, told: seq<Told<T>>, slots: seq<nat>)
      requires Valid()
      modifies this`version, this`items, ViewsIn(hooks)`items, ViewsIn(hooks)`version
      ensures Valid() && hooks == old(hooks) && views == old(views) && fresh(items)
      ensures version == ver && items[..] == xs[..] && xs[..] == old(xs[..])
      ensures forall k :: 0 <= k < |views| ==>
        (views[k].State() == if views[k] in ViewsIn(hooks) then Recomputed(old(views[k].State()), xs[..], ver)
                             else old(views[k].State()))
      ensures LiveIn(slots) && |told| == |slots|
      ensures forall j :: 0 <= j < |slots| ==> told[j] == Told(hooks[slots[j]], old(items[..]), xs[..])
      ensures ok <==> !SomePanics(xs[..], panics)
    {
      hide Recomputed, SomePanics, LiveIn;
      var before := items;
      var stored := CopyOf(Slice(xs, 0, xs.Length));
      items, version := stored.arr, ver;
      assert items[..] == xs[..];
      ok, told, slots := FanOut(before, panics);
    }

    /** `f` was shown before; since then `xs` was published at `ver` and the hooked views recomputed. */
    lemma Republished(f: Feed<T>, ver: Version, xs: seq<T>)
      requires Valid() && version == ver && items[..] == xs && |f.slots| == |hooks| && |f.views| == |views|
      requires forall i :: 0 <= i < |hooks| ==> f.slots[i] == SlotOf(hooks[i])
      requires forall k :: 0 <= k < |views| ==>
        views[k].State() == if views[k] in ViewsIn(hooks) then Recomputed(f.views[k], xs, ver) else f.views[k]
      ensures Model() == AfterSwap(f, ver, xs)
    {
      assert forall i :: 0 <= i < |hooks| && hooks[i].Recomputes? ==> hooks[i].v in views;
      hide Recomputed, Valid;
      forall k | 0 <= k < |views| ensures Feeds(k) in f.slots <==> views[k] in ViewsIn(hooks) {
        FedIsHooked(k);
        assert Model().slots == f.slots;
      }
      ModelIs(AfterSwap(f, ver, xs));
    }

    /** Publishes first, then runs every hook that is there, each whatever the others do; an
        error says only that some hook panicked. */
    method Swap(ver: Version, xs: array<T>, panics: nat -> bool)
      returns (ok: bool, told: seq<Told<T>>, slots: seq<nat>)
      requires Valid()
      modifies this`version, this`items, ViewsIn(hooks)`items, ViewsIn(hooks)`version
      ensures Valid() && hooks == old(hooks) && views == old(views) && fresh(items)
      ensures version == ver && items[..] == old(xs[..])
      ensures Model() == AfterSwap(old(Model()), ver, xs[..])
      ensures LiveIn(slots) && |told| == |slots|
      ensures forall j :: 0 <= j < |slots| ==> told[j] == Told(hooks[slots[j]], old(items[..]), xs[..])
      ensures ok <==> !SomePanics(xs[..], panics)
    {
      hide Recomputed, Model, SomePanics, LiveIn, ViewsIn;
      ghost var f := Model();
      ShowsModel();
      ok, told, slots := Replace(ver, xs, panics);
      Republished(f, ver, xs[..]);
    }
  }

  /** NewView: warm from the store while the source is unloaded, computed at once otherwise;
      hooked up last. None when the first computation panics. */
  method NewView<T(0)>(source: Collection<T>, filters: seq<FilterOption<T>>, breaks: seq<T> -> bool,
                   warm: Option<seq<T>>)
    returns (r: Option<View<T>>)
    requires source.Valid()
    modifies source`hooks, source`views
    ensures source.Valid()
    ensures r.Some? <==> AfterOpen(old(source.Model()), filters, breaks, warm).Some?
    ensures source.Model() ==
              if r.Some? then AfterOpen(old(source.Model()), filters, breaks, warm).value else old(source.Model())
    ensures r.Some? ==> fresh(r.value) && source.views == old(source.views) + [r.value]
    ensures r.Some? ==> r.value.open && source.hooks == old(source.hooks) + [Recomputes(r.value)]
    ensures r.None? <==> !(warm.Some? && source.version.raw == "") && breaks(source.items[..])
    ensures r.Some? && warm.Some? && source.version.raw == "" ==>
              r.value.version == UNSET && r.value.items[..] == warm.value
    ensures r.Some? && !(warm.Some? && source.version.raw == "") ==>
              r.value.version == source.version && r.value.items[..] == Pipeline(filters, source.items[..])
  {
    hide Pipeline, source.Model, source.Valid;
    ghost var f := source.Model();
    var kept := if warm.Some? then warm.value else [];
    var stored := new T[|kept|](i requires 0 <= i < |kept| => kept[i]);
    assert stored[..] == kept;
    var v := new View(source, filters, breaks, stored);
    if !KeepWarmStart(warm.Some?, source.version) {
      var panicked, _ := v.Recompute(source.items, source.version, _ => false);
      if panicked {
        return None;
      }
    }
    source.Attach(v);
    return Some(v);
  }
}
