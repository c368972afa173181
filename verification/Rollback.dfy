/** docs/rollback-runbook.md over the model: the operator holds the lock, the target row is
    active, and every replica handles the rollback event. */
module Rollback {
  import opened Wrappers
  import opened Versions
  import opened Tables
  import opened Registration
  import opened Protocol
  import opened Cluster
  import opened Safety
  import opened Runs
  import opened Convergence
  import opened Scripts

  /** The freeze: the operator holds the lock over an active target, so no replica leads. */
  ghost predicate Frozen(w: World, s: System, ver: Version) {
    && s.lock == Operator && Target(w, s.sh, ver)
    && forall id :: id in s.nodes ==> !s.nodes[id].pc.Elected? && !s.nodes[id].pc.Leading?
  }

  /** No rollback to another version is still on its way to the cache. */
  ghost predicate OnlyTargetReverts(w: World, s: System, ver: Version)
    requires Target(w, s.sh, ver)
  {
    forall id :: id in s.nodes && s.nodes[id].pc.Reverting? ==> s.nodes[id].pc.entry == TargetEntry(w, s.sh, ver)
  }

  /** Nobody is between handling a rollback event and the cache write that follows. */
  ghost predicate NobodyReverts(s: System) {
    forall id :: id in s.nodes ==> !s.nodes[id].pc.Reverting?
  }

  ghost function TargetEntry(w: World, sh: Shared, ver: Version): Entry
    requires Target(w, sh, ver)
  {
    TargetRow(w, sh, ver);
    Entry(ver.raw, sh.table.rows[ver.raw].content)
  }

  /** While the freeze lasts the operator neither flips the row again nor lets go. */
  predicate KeepsFreeze(a: Step) {
    !a.OperatorActivate? && !a.OperatorUnlock?
  }

  /** `id` handles the rollback event without a read error and without a panicking hook. */
  predicate Reverts(a: Step, id: string) {
    a.Deliver? && a.id == id && a.e == ROLLBACK && a.ok && !a.panics
  }

  /** The steps after its rollback that would break FIFO delivery to `id`, or restart it. */
  predicate Overtakes(a: Step, id: string) {
    match a
    case Deliver(x, e, _, _, _) => x == id && (e.action == Sync || e.action == Commit)
    case Crash(x) => x == id
    case WarmUp(x, _, _) => x == id
    case _ => false
  }

  ghost predicate Landed(w: World, s: System, ver: Version, id: string)
    requires Target(w, s.sh, ver)
  {
    id in s.nodes && id in w.managed && s.nodes[id].reg.ver == ver
    && s.nodes[id].reg.items == TargetItems(w, s.sh, ver, id)
  }

  /** No step under the freeze touches a row. */
  lemma FrozenTable(w: World, s: System, a: Step, ver: Version)
    requires Frozen(w, s, ver) && Enabled(w, s, a) && KeepsFreeze(a)
    ensures Next(w, s, a).sh.table.rows == s.sh.table.rows && Next(w, s, a).lock == Operator
  {
    hide CycleStep, BeginCycle, Handle, CatchUp, LoadCached, LoadStored;
  }

  lemma FrozenNode(w: World, s: System, a: Step, ver: Version, id: string)
    requires Frozen(w, s, ver) && Enabled(w, s, a) && KeepsFreeze(a) && Subject(a, id) && id in s.nodes
    ensures var n := Next(w, s, a).nodes[id]; !n.pc.Elected? && !n.pc.Leading?
    ensures var n := Next(w, s, a).nodes[id];
            n.pc.Reverting? && n.pc != s.nodes[id].pc ==> n.pc.entry == TargetEntry(w, s.sh, ver)
  {
    hide CycleStep, BeginCycle, CatchUp, LoadCached, LoadStored, OnSync, OnPrepare, OnCommit;
    TargetRow(w, s.sh, ver);
  }

  lemma FrozenStep(w: World, s: System, a: Step, ver: Version)
    requires Canonical(w.o.time) && Frozen(w, s, ver) && Enabled(w, s, a) && KeepsFreeze(a)
    ensures var s' := Next(w, s, a);
            && Frozen(w, s', ver) && s'.sh.table.rows == s.sh.table.rows && s'.nodes.Keys == s.nodes.Keys
            && (OnlyTargetReverts(w, s, ver) ==> OnlyTargetReverts(w, s', ver))
  {
    hide Next, Enabled;
    var s' := Next(w, s, a);
    TargetRow(w, s.sh, ver);
    FrozenTable(w, s, a, ver);
    NodesStay(w, s, a);
    assert ActiveSet(s'.sh.table) == ActiveSet(s.sh.table);
    assert Target(w, s'.sh, ver);
    assert TargetEntry(w, s'.sh, ver) == TargetEntry(w, s.sh, ver);
    hide ActiveSet, Target;
    forall id | id in s'.nodes
      ensures !s'.nodes[id].pc.Elected? && !s'.nodes[id].pc.Leading?
      ensures s'.nodes[id].pc.Reverting? ==>
                s'.nodes[id].pc == s.nodes[id].pc || s'.nodes[id].pc.entry == TargetEntry(w, s.sh, ver)
    {
      if Subject(a, id) {
        FrozenNode(w, s, a, ver, id);
      } else {
        Untouched(w, s, a, id);
      }
    }
  }

  lemma {:induction false} FrozenRun(w: World, ss: seq<System>, acts: seq<Step>, ver: Version, i: nat)
    requires Canonical(w.o.time) && Steps(w, ss, acts) && i < |ss| && Frozen(w, ss[0], ver)
    requires forall k :: 0 <= k < |acts| ==> KeepsFreeze(acts[k])
    ensures Frozen(w, ss[i], ver) && ss[i].sh.table.rows == ss[0].sh.table.rows && ss[i].nodes.Keys == ss[0].nodes.Keys
    ensures OnlyTargetReverts(w, ss[0], ver) ==> OnlyTargetReverts(w, ss[i], ver)
  {
    if i > 0 {
      FrozenRun(w, ss, acts, ver, i - 1);
      FrozenStep(w, ss[i - 1], acts[i - 1], ver);
    }
  }

  /** Handling the event lands the replica on the target from any version, in either direction. */
  lemma RevertLands(w: World, s: System, a: Step, ver: Version, id: string)
    requires Canonical(w.o.time) && Frozen(w, s, ver) && Enabled(w, s, a) && Reverts(a, id) && id in w.managed
    ensures var s' := Next(w, s, a);
            Target(w, s'.sh, ver) && Landed(w, s', ver, id) && At(s', id, Reverting(TargetEntry(w, s.sh, ver)))
  {
    TargetRow(w, s.sh, ver);
  }

  /** Later catch-up passes, repeated rollbacks, prepares, aborts and sweeps change nothing. */
  lemma LandedStays(w: World, s: System, a: Step, ver: Version, id: string)
    requires Canonical(w.o.time) && Frozen(w, s, ver) && Enabled(w, s, a) && KeepsFreeze(a)
    requires Landed(w, s, ver, id) && !Overtakes(a, id) && s.nodes[id].pc != Down
    ensures Target(w, Next(w, s, a).sh, ver) && Landed(w, Next(w, s, a), ver, id) && Next(w, s, a).nodes[id].pc != Down
  {
    hide CycleStep, BeginCycle, OnSync, OnCommit, OnlyTargetReverts, TargetEntry, Log;
    TargetRow(w, s.sh, ver);
    FrozenStep(w, s, a, ver);
  }

  lemma {:induction false} LandedRun(w: World, ss: seq<System>, acts: seq<Step>, ver: Version, id: string, h: nat,
                                     i: nat)
    requires Canonical(w.o.time) && Steps(w, ss, acts) && h < i < |ss| && Frozen(w, ss[0], ver)
    requires forall k :: 0 <= k < |acts| ==> KeepsFreeze(acts[k])
    requires Reverts(acts[h], id) && id in w.managed
    requires forall k :: h < k < |acts| ==> !Overtakes(acts[k], id)
    ensures Target(w, ss[i].sh, ver) && Landed(w, ss[i], ver, id) && ss[i].nodes[id].pc != Down
    decreases i
  {
    FrozenRun(w, ss, acts, ver, i - 1);
    if h + 1 == i {
      RevertLands(w, ss[h], acts[h], ver, id);
    } else {
      LandedRun(w, ss, acts, ver, id, h, i - 1);
      assert !Overtakes(acts[i - 1], id);
      LandedStays(w, ss[i - 1], acts[i - 1], ver, id);
    }
  }

  /** The first cache write after the activation names the target, and so do all later ones. */
  lemma CacheStep(w: World, s: System, a: Step, ver: Version)
    requires Canonical(w.o.time) && Frozen(w, s, ver) && OnlyTargetReverts(w, s, ver)
    requires Enabled(w, s, a) && KeepsFreeze(a)
    ensures var s' := Next(w, s, a);
            if a.CacheWrite? && a.call.TookEffect() && w.o.cacheWrites
            then s'.sh.cache == Some(TargetEntry(w, s.sh, ver)) else s'.sh.cache == s.sh.cache
  {
  }

  lemma {:induction false} CacheRun(w: World, ss: seq<System>, acts: seq<Step>, ver: Version, m: nat, i: nat)
    requires Canonical(w.o.time) && Steps(w, ss, acts) && m < i < |ss|
    requires Frozen(w, ss[0], ver) && OnlyTargetReverts(w, ss[0], ver)
    requires forall k :: 0 <= k < |acts| ==> KeepsFreeze(acts[k])
    requires acts[m].CacheWrite? && acts[m].call.TookEffect() && w.o.cacheWrites
    ensures ss[i].sh.cache == Some(TargetEntry(w, ss[0].sh, ver))
    decreases i
  {
    hide Next, Enabled, Frozen;
    FrozenRun(w, ss, acts, ver, i - 1);
    CacheStep(w, ss[i - 1], acts[i - 1], ver);
    if m + 1 < i {
      CacheRun(w, ss, acts, ver, m, i - 1);
    }
  }

  /** A replica leaves the middle of a rollback only through its cache write, or by a restart. */
  lemma LeavesByWriting(w: World, s: System, a: Step, id: string)
    requires Enabled(w, s, a) && id in s.nodes && s.nodes[id].pc.Reverting? && !Overtakes(a, id)
    ensures id in Next(w, s, a).nodes
    ensures (a.CacheWrite? && a.id == id) || Next(w, s, a).nodes[id].pc.Reverting?
  {
    hide CycleStep, BeginCycle, Handle, CatchUp, LoadCached, LoadStored;
  }

  /** A replica in the middle of a rollback at `h` and out of it at `i` has made its cache write
      in between. */
  lemma {:induction false} WroteBetween(w: World, ss: seq<System>, acts: seq<Step>, id: string, h: nat, i: nat)
    returns (m: nat)
    requires Steps(w, ss, acts) && h <= i < |ss| && id in ss[h].nodes && ss[h].nodes[id].pc.Reverting?
    requires forall k :: h <= k < |acts| ==> !Overtakes(acts[k], id)
    requires id in ss[i].nodes && !ss[i].nodes[id].pc.Reverting?
    ensures h <= m < i && acts[m].CacheWrite? && acts[m].id == id
    decreases i
  {
    hide Next, Enabled, Overtakes;
    NodesStay(w, ss[i - 1], acts[i - 1]);
    if ss[i - 1].nodes[id].pc.Reverting? {
      LeavesByWriting(w, ss[i - 1], acts[i - 1], id);
      m := i - 1;
    } else {
      m := WroteBetween(w, ss, acts, id, h, i - 1);
    }
  }

  /** `id` reverts at step `h` and nothing older overtakes the event afterwards. */
  ghost predicate HandledAt(acts: seq<Step>, id: string, h: nat) {
    h < |acts| && Reverts(acts[h], id) && forall k :: h < k < |acts| ==> !Overtakes(acts[k], id)
  }

  ghost predicate Handled(acts: seq<Step>, id: string) {
    exists h: nat :: HandledAt(acts, id, h)
  }

  /** Some managing replica is through with the event, its cache write included. */
  ghost predicate SomeoneIsThrough(w: World, s: System) {
    exists id :: id in s.nodes && id in w.managed && !s.nodes[id].pc.Reverting?
  }

  lemma CacheHoldsTarget(w: World, ss: seq<System>, acts: seq<Step>, ver: Version, id: string, h: nat)
    requires Canonical(w.o.time) && Steps(w, ss, acts) && w.o.cacheWrites
    requires Frozen(w, ss[0], ver) && OnlyTargetReverts(w, ss[0], ver)
    requires forall k :: 0 <= k < |acts| ==> KeepsFreeze(acts[k])
    requires forall m :: 0 <= m < |acts| && acts[m].CacheWrite? ==> acts[m].call.TookEffect()
    requires HandledAt(acts, id, h) && id in w.managed
    requires id in ss[|ss| - 1].nodes && !ss[|ss| - 1].nodes[id].pc.Reverting?
    ensures ss[|ss| - 1].sh.cache == Some(TargetEntry(w, ss[0].sh, ver))
  {
    FrozenRun(w, ss, acts, ver, h);
    RevertLands(w, ss[h], acts[h], ver, id);
    hide Next, Enabled, Frozen, Overtakes, Reverts;
    var m := WroteBetween(w, ss, acts, id, h + 1, |ss| - 1);
    CacheRun(w, ss, acts, ver, m, |ss| - 1);
  }

  /** Once every managing replica has handled the event, in any order and interleaved with
      anything the freeze allows, every one serves the target with the target's items. And under
      a strategy that writes to the cache, if no write of an earlier rollback was still pending
      and no cache write was refused, the cache holds the target as soon as one of them is
      through. */
  lemma RollbackConverges(w: World, ss: seq<System>, acts: seq<Step>, ver: Version)
    requires Canonical(w.o.time) && Steps(w, ss, acts) && Frozen(w, ss[0], ver)
    requires forall k :: 0 <= k < |acts| ==> KeepsFreeze(acts[k])
    requires forall id :: id in ss[0].nodes && id in w.managed ==> Handled(acts, id)
    ensures var s := ss[|ss| - 1];
            && Target(w, s.sh, ver) && s.nodes.Keys == ss[0].nodes.Keys
            && (forall id :: id in s.nodes && id in w.managed ==> Landed(w, s, ver, id))
            && (w.o.cacheWrites && OnlyTargetReverts(w, ss[0], ver) && SomeoneIsThrough(w, s)
                && (forall m :: 0 <= m < |acts| && acts[m].CacheWrite? ==> acts[m].call.TookEffect()) ==>
                  s.sh.cache == Some(TargetEntry(w, s.sh, ver)))
  {
    var last := |ss| - 1;
    assert Target(w, ss[0].sh, ver);
    hide Next, Enabled, Frozen, Target, OnlyTargetReverts, Landed, Reverts, Overtakes;
    FrozenRun(w, ss, acts, ver, last);
    forall id | id in ss[last].nodes && id in w.managed ensures Landed(w, ss[last], ver, id) {
      var h: nat :| HandledAt(acts, id, h);
      LandedRun(w, ss, acts, ver, id, h, last);
    }
    if w.o.cacheWrites && OnlyTargetReverts(w, ss[0], ver) && SomeoneIsThrough(w, ss[last])
       && forall m :: 0 <= m < |acts| && acts[m].CacheWrite? ==> acts[m].call.TookEffect() {
      var id :| id in ss[last].nodes && id in w.managed && !ss[last].nodes[id].pc.Reverting?;
      var h: nat :| HandledAt(acts, id, h);
      CacheHoldsTarget(w, ss, acts, ver, id, h);
    }
  }

  // ---------------------------------------------------------------- how a run comes to be frozen

  /** Nobody is in the middle of a rollback before the first one has been announced. */
  lemma {:induction false} NoneAnnounced(w: World, ss: seq<System>, acts: seq<Step>, i: nat)
    requires Run(w, ss, acts) && i < |ss|
    requires forall e :: e in ss[i].sh.sent ==> e.action != Rollback
    ensures NobodyReverts(ss[i])
  {
    hide Next, Enabled;
    if i > 0 {
      SentGrows(w, ss[i - 1], acts[i - 1]);
      NodesStay(w, ss[i - 1], acts[i - 1]);
      NoneAnnounced(w, ss, acts, i - 1);
      forall id | id in ss[i].nodes ensures !ss[i].nodes[id].pc.Reverting? {
        StartsReverting(w, ss[i - 1], acts[i - 1], id);
      }
    }
  }

  lemma SentGrows(w: World, s: System, a: Step)
    requires Enabled(w, s, a)
    ensures s.sh.sent <= Next(w, s, a).sh.sent
  {
    hide BeginCycle, Handle, CatchUp, LoadCached, LoadStored;
  }

  lemma StartsReverting(w: World, s: System, a: Step, id: string)
    requires Enabled(w, s, a) && id in s.nodes && !s.nodes[id].pc.Reverting?
    requires forall e :: e in s.sh.sent ==> e.action != Rollback
    ensures !Next(w, s, a).nodes[id].pc.Reverting?
  {
    hide CycleStep, BeginCycle, CatchUp, LoadCached, LoadStored;
  }

  /** The runbook's two steps reach the freeze: the operator, holding the lock, activates a row
      that parses and that every managing replica accepts. Holding the lock already means that
      no replica leads; rollbacks from before are over if nobody is in the middle of one. */
  lemma OperatorFreezes(w: World, ss: seq<System>, acts: seq<Step>, i: nat, ver: Version)
    requires Run(w, ss, acts) && i < |acts| && acts[i] == OperatorActivate(ver.raw)
    requires ParseVersion(w.o.time, ver.raw) == Some(ver)
    requires forall id :: id in w.managed ==> Accept(w.codec(id), ss[i].sh.table.rows[ver.raw].content).Some?
    ensures Frozen(w, ss[i + 1], ver)
    ensures NobodyReverts(ss[i]) ==> OnlyTargetReverts(w, ss[i + 1], ver)
  {
    var s, s' := ss[i], ss[i + 1];
    RunInv(w, ss, acts, i);
    ActivateSwitches(s.sh.table, ver.raw);
    forall id | id in s'.nodes ensures !s'.nodes[id].pc.Elected? && !s'.nodes[id].pc.Leading? {
      assert NodeOk(s, EverActive(ss, i), id, s.nodes[id]);
    }
  }

  /** The whole procedure over a run, whatever rollbacks went before: activated under the lock
      at step `i`, handled by every managing replica afterwards, nothing overtaking it. */
  lemma RunbookConverges(w: World, ss: seq<System>, acts: seq<Step>, i: nat, ver: Version)
    requires Canonical(w.o.time) && Run(w, ss, acts) && i < |acts| && acts[i] == OperatorActivate(ver.raw)
    requires ParseVersion(w.o.time, ver.raw) == Some(ver)
    requires forall id :: id in w.managed ==> Accept(w.codec(id), ss[i].sh.table.rows[ver.raw].content).Some?
    requires forall k :: i < k < |acts| ==> KeepsFreeze(acts[k])
    requires forall id :: id in ss[i].nodes && id in w.managed ==> Handled(acts[i + 1..], id)
    ensures var s := ss[|ss| - 1];
            && Target(w, s.sh, ver)
            && (forall id :: id in s.nodes && id in w.managed ==> Landed(w, s, ver, id))
            && (w.o.cacheWrites && NobodyReverts(ss[i]) && SomeoneIsThrough(w, s)
                && (forall m :: i < m < |acts| && acts[m].CacheWrite? ==> acts[m].call.TookEffect()) ==>
                  s.sh.cache == Some(TargetEntry(w, s.sh, ver)))
  {
    OperatorFreezes(w, ss, acts, i, ver);
    NodesStay(w, ss[i], acts[i]);
    hide Next, Enabled, Init, Frozen, Target, Handled, OnlyTargetReverts, NobodyReverts;
    var after, then_ := ss[i + 1..], acts[i + 1..];
    assert Steps(w, after, then_);
    RollbackConverges(w, after, then_, ver);
  }

  /** Why delivery must be FIFO: a sync event that arrives after the rollback was handled, and
      can be read and accepted, takes the replica off the target exactly when the version it
      names is later than the target, which is what an announcement from before the rollback is. */
  lemma LateSyncUndoesRollback(w: World, s: System, a: Step, ver: Version, u: Version)
    requires Canonical(w.o.time) && Frozen(w, s, ver) && Enabled(w, s, a)
    requires a.Deliver? && a.e.action == Sync && a.ok && a.e.origin != a.id && Landed(w, s, ver, a.id)
    requires ParseVersion(w.o.time, a.e.version) == Some(u) && u.raw in s.sh.table.rows
    requires Accept(w.codec(a.id), s.sh.table.rows[u.raw].content).Some?
    ensures Next(w, s, a).nodes[a.id].reg.ver != ver <==> u.After(ver)
    ensures Next(w, s, a).nodes[a.id].reg.ver == if u.After(ver) then u else ver
  {
    TargetRow(w, s.sh, ver);
  }

  /** Under the freeze `id` is up and on the target. */
  ghost predicate Rests(w: World, s: System, ver: Version, id: string) {
    Frozen(w, s, ver) && Landed(w, s, ver, id) && s.nodes[id].pc != Down
  }

  /** One step under the freeze, with what it keeps. */
  lemma ExtendFrozen(w: World, ss: seq<System>, acts: seq<Step>, ver: Version, id: string, a: Step)
    returns (ss': seq<System>, acts': seq<Step>)
    requires Canonical(w.o.time) && Run(w, ss, acts) && ss != [] && Frozen(w, Last(ss), ver)
    requires Enabled(w, Last(ss), a) && KeepsFreeze(a)
    ensures Run(w, ss', acts') && ss' == ss + [Next(w, Last(ss), a)] && acts' == acts + [a]
    ensures Frozen(w, Last(ss'), ver) && Last(ss').sh.table.rows == Last(ss).sh.table.rows
    ensures Last(ss).sh.sent <= Last(ss').sh.sent
    ensures Rests(w, Last(ss), ver, id) && !Overtakes(a, id) ==> Rests(w, Last(ss'), ver, id)
  {
    hide Next, Enabled, Run, Frozen, Landed, Overtakes;
    FrozenStep(w, Last(ss), a, ver);
    SentGrows(w, Last(ss), a);
    if Rests(w, Last(ss), ver, id) && !Overtakes(a, id) {
      LandedStays(w, Last(ss), a, ver, id);
    }
    ss', acts' := Extend(w, ss, acts, a);
  }

  /** The writes that follow the handling of a rollback. */
  lemma WritesOut(w: World, s: System, id: string, e: Entry)
    requires At(s, id, Reverting(e))
    ensures Enabled(w, s, CacheWrite(id, Done))
    ensures var s1 := Next(w, s, CacheWrite(id, Done));
            Enabled(w, s1, Flush(id, Done)) && At(s1, id, Logging(LogWrite(e.version, RolledBack)))
            && At(Next(w, s1, Flush(id, Done)), id, Idle)
  {
  }

  lemma Announced(w: World, s: System, id: string)
    requires At(s, id, Idle)
    ensures Enabled(w, s, OperatorAnnounce)
    ensures Enabled(w, Next(w, s, OperatorAnnounce), Deliver(id, ROLLBACK, true, false, 0))
  {
  }

  lemma RestsAfterHandling(w: World, s: System, ver: Version, id: string)
    requires Canonical(w.o.time) && Frozen(w, s, ver) && Enabled(w, s, Deliver(id, ROLLBACK, true, false, 0))
    requires id in w.managed
    ensures var s' := Next(w, s, Deliver(id, ROLLBACK, true, false, 0));
            Rests(w, s', ver, id) && At(s', id, Reverting(TargetEntry(w, s.sh, ver)))
  {
    RevertLands(w, s, Deliver(id, ROLLBACK, true, false, 0), ver, id);
    FrozenStep(w, s, Deliver(id, ROLLBACK, true, false, 0), ver);
    hide Next, Enabled, Target, Landed;
  }

  lemma WindsUp(w: World, ss: seq<System>, acts: seq<Step>, ver: Version, id: string, e: Entry)
    returns (ss': seq<System>, acts': seq<Step>)
    requires Canonical(w.o.time) && Run(w, ss, acts) && ss != [] && Rests(w, Last(ss), ver, id)
    requires At(Last(ss), id, Reverting(e))
    ensures Run(w, ss', acts') && acts' == acts + [CacheWrite(id, Done), Flush(id, Done)] && ss < ss'
    ensures Rests(w, Last(ss'), ver, id) && At(Last(ss'), id, Idle)
    ensures Last(ss).sh.sent <= Last(ss').sh.sent && Last(ss').sh.table.rows == Last(ss).sh.table.rows
  {
    WritesOut(w, Last(ss), id, e);
    assert forall s :: Rests(w, s, ver, id) ==> Frozen(w, s, ver);
    hide Next, Enabled, Run, Frozen, Rests;
    ss', acts' := ExtendFrozen(w, ss, acts, ver, id, CacheWrite(id, Done));
    ss', acts' := ExtendFrozen(w, ss', acts', ver, id, Flush(id, Done));
  }

  /** A rollback, announced, handled by `id`, and wound up. */
  function Procedure(id: string): seq<Step> {
    [OperatorAnnounce, Deliver(id, ROLLBACK, true, false, 0), CacheWrite(id, Done), Flush(id, Done)]
  }

  lemma RunsRollback(w: World, ss: seq<System>, acts: seq<Step>, ver: Version, id: string)
    returns (ss': seq<System>, acts': seq<Step>)
    requires Canonical(w.o.time) && Run(w, ss, acts) && ss != [] && Frozen(w, Last(ss), ver)
    requires At(Last(ss), id, Idle) && id in w.managed
    ensures Run(w, ss', acts') && ss < ss' && acts' == acts + Procedure(id)
    ensures Rests(w, Last(ss'), ver, id) && At(Last(ss'), id, Idle)
    ensures Last(ss).sh.sent <= Last(ss').sh.sent && Last(ss').sh.table.rows == Last(ss).sh.table.rows
  {
    Announced(w, Last(ss), id);
    hide Next, Enabled, Run, Frozen, Target, Rests, TargetEntry, Landed;
    ss', acts' := ExtendFrozen(w, ss, acts, ver, id, OperatorAnnounce);
    RestsAfterHandling(w, Last(ss'), ver, id);
    var e := TargetEntry(w, Last(ss').sh, ver);
    ss', acts' := ExtendFrozen(w, ss', acts', ver, id, Deliver(id, ROLLBACK, true, false, 0));
    ss', acts' := WindsUp(w, ss', acts', ver, id, e);
  }

  lemma OperatorSteps(w: World, s: System, ver: Version)
    requires s.lock == Free && ver.raw in s.sh.table.rows
    ensures Enabled(w, s, OperatorLock) && Next(w, s, OperatorLock) == s.(lock := Operator)
    ensures var s1, a := s.(lock := Operator), OperatorActivate(ver.raw);
            Enabled(w, s1, a) && Next(w, s1, a) == s1.(sh := s1.sh.(table := Activate(s1.sh.table, ver.raw)))
  {
  }

  /** From any point at which nobody leads the operator can make any accepted row the target. */
  lemma OperatorActivates(w: World, ss: seq<System>, acts: seq<Step>, ver: Version)
    returns (ss': seq<System>, acts': seq<Step>)
    requires Run(w, ss, acts) && ss != [] && Last(ss).lock == Free && ver.raw in Last(ss).sh.table.rows
    requires ParseVersion(w.o.time, ver.raw) == Some(ver)
    requires forall id :: id in w.managed ==> Accept(w.codec(id), Last(ss).sh.table.rows[ver.raw].content).Some?
    ensures Run(w, ss', acts') && |ss'| == |acts'| + 1 && |acts'| == |ss| + 1
    ensures acts'[|ss|] == OperatorActivate(ver.raw) && ss'[|ss|].sh == Last(ss).sh
    ensures Frozen(w, Last(ss'), ver) && Last(ss').nodes == Last(ss).nodes
    ensures Last(ss').sh == Last(ss).sh.(table := Activate(Last(ss).sh.table, ver.raw))
  {
    OperatorSteps(w, Last(ss), ver);
    hide Next, Enabled, Run, Accept, ParseVersion, Frozen, Activate;
    ss', acts' := Extend(w, ss, acts, OperatorLock);
    ss', acts' := Extend(w, ss', acts', OperatorActivate(ver.raw));
    OperatorFreezes(w, ss', acts', |ss|, ver);
  }

  /** `x` has led to `t` and `t + 1` and stepped down, and `y` has started. */
  lemma StepsDown(w: World, x: string, y: string, xs: seq<Item>, t: int) returns (ss: seq<System>, acts: seq<Step>)
    requires Canonical(w.o.time) && x != y && x in w.managed && y in w.managed && Publishable(w.codec(x), xs)
    ensures var first, second := NewVersion(w.o.time, t).raw, NewVersion(w.o.time, t + 1).raw;
            && Run(w, ss, acts) && ss != [] && Last(ss).lock == Free && At(Last(ss), y, Idle)
            && var rows := Last(ss).sh.table.rows;
               && first in rows && second in rows && Event(Sync, second, "", x) in Last(ss).sh.sent
               && rows[first].content == Rendered(w.codec(x), xs) && rows[second].content == Rendered(w.codec(x), xs)
  {
    hide Run, ActiveSet, NewVersion, Publishable, LoadStored;
    ss, acts := LeadsTwice(w, x, y, xs, t);
    ss, acts := ReleasesLock(w, ss, acts, x);
    ss, acts := Starts(w, ss, acts, y);
  }

  /** Then the operator takes the lock and makes the earlier version active: the freeze, with the
      announcement of the later one still under way. */
  lemma ReachesFreeze(w: World, x: string, y: string, xs: seq<Item>, t: int)
    returns (ss: seq<System>, acts: seq<Step>, i: nat)
    requires Canonical(w.o.time) && x != y && x in w.managed && y in w.managed && Publishable(w.codec(x), xs)
    requires forall id :: id in w.managed ==> Accept(w.codec(id), Rendered(w.codec(x), xs)).Some?
    ensures var first, second := NewVersion(w.o.time, t), NewVersion(w.o.time, t + 1);
            && Run(w, ss, acts) && |ss| == i + 2 && |acts| == i + 1 && acts[i] == OperatorActivate(first.raw)
            && Frozen(w, Last(ss), first) && At(Last(ss), y, Idle) && Event(Sync, second.raw, "", x) in ss[i].sh.sent
            && second.raw in Last(ss).sh.table.rows && ss[i].sh.sent <= Last(ss).sh.sent
            && Last(ss).sh.table.rows[second.raw].content == Rendered(w.codec(x), xs)
  {
    var first := NewVersion(w.o.time, t);
    MintedVersionRoundTrip(w.o.time, t, t);
    ss, acts := StepsDown(w, x, y, xs, t);
    hide Run, NewVersion, ParseVersion, Accept, Publishable, Frozen, Activate;
    i := |ss|;
    ActivateSwitches(Last(ss).sh.table, first.raw);
    ss, acts := OperatorActivates(w, ss, acts, first);
  }

  lemma Arrives(w: World, s: System, a: Step)
    requires a.Deliver? && At(s, a.id, Idle) && a.e in s.sh.sent
    ensures Enabled(w, s, a) && a.id in Next(w, s, a).nodes
  {
  }

  /** `y`, at rest, is reached by the announcement of a later version. */
  lemma LateSyncArrives(w: World, ss: seq<System>, acts: seq<Step>, ver: Version, u: Version, a: Step)
    returns (ss': seq<System>, acts': seq<Step>)
    requires Canonical(w.o.time) && Run(w, ss, acts) && ss != [] && a.Deliver? && a.ok && a.e in Last(ss).sh.sent
    requires Rests(w, Last(ss), ver, a.id) && At(Last(ss), a.id, Idle) && u.After(ver)
    requires a.e.action == Sync && a.e.origin != a.id && ParseVersion(w.o.time, a.e.version) == Some(u)
    requires u.raw in Last(ss).sh.table.rows && Accept(w.codec(a.id), Last(ss).sh.table.rows[u.raw].content).Some?
    ensures Run(w, ss', acts') && ss' == ss + [Last(ss')] && acts' == acts + [a] && Frozen(w, Last(ss'), ver)
    ensures a.id in Last(ss').nodes && Last(ss').nodes[a.id].reg.ver == u
  {
    hide Run, Next, Enabled, Target, Accept, Frozen, Landed;
    Arrives(w, Last(ss), a);
    LateSyncUndoesRollback(w, Last(ss), a, ver, u);
    ss', acts' := ExtendFrozen(w, ss, acts, ver, a.id, a);
  }

  /** And it happens: everything the runbook asks for but FIFO delivery, and `y`, landed on the
      target and idle again, is taken off it by the announcement from before the rollback. */
  lemma LateSyncHappens(w: World, x: string, y: string, xs: seq<Item>, t: int)
    returns (ss: seq<System>, acts: seq<Step>, i: nat)
    requires Canonical(w.o.time) && x != y && x in w.managed && y in w.managed && Publishable(w.codec(x), xs)
    requires forall id :: id in w.managed ==> Accept(w.codec(id), Rendered(w.codec(x), xs)).Some?
    ensures var first, second := NewVersion(w.o.time, t), NewVersion(w.o.time, t + 1);
            var late := Event(Sync, second.raw, "", x);
            && Run(w, ss, acts) && |ss| == i + 7 && late in ss[i].sh.sent
            && acts == acts[..i] + [OperatorActivate(first.raw)] + Procedure(y) + [Deliver(y, late, true, false, 0)]
            && Rests(w, ss[i + 5], first, y)
            && Frozen(w, Last(ss), first) && y in Last(ss).nodes && Last(ss).nodes[y].reg.ver == second
  {
    var first, second := NewVersion(w.o.time, t), NewVersion(w.o.time, t + 1);
    MintedVersionRoundTrip(w.o.time, t + 1, t);
    ss, acts, i := ReachesFreeze(w, x, y, xs, t);
    var before := acts[..i];
    assert acts == before + [OperatorActivate(first.raw)];
    hide Run, ParseVersion, NewVersion, Accept, Publishable, Frozen, Rests, Canonical;
    ss, acts := RunsRollback(w, ss, acts, first, y);
    var late := Deliver(y, Event(Sync, second.raw, "", x), true, false, 0);
    ss, acts := LateSyncArrives(w, ss, acts, first, second, late);
    assert acts[..i] == before;
  }

  /** A restart brings a replica to the active version whatever the cache holds, earlier or
      later; without an active snapshot it keeps the cached version, and with neither it stays
      unset. */
  lemma StartupLands(o: Options, c: Codec, cached: Read<Entry>, active: Read<(string, Row)>, p: bool, q: bool)
    requires Canonical(o.time) && !active.Broken?
    requires active.Got? ==> o.time.parse(active.value.0).Some? && Accept(c, active.value.1.content).Some?
    requires o.cacheReads && cached.Got? ==>
               o.time.parse(cached.value.version).Some? && Accept(c, cached.value.content).Some?
    ensures var r := LoadStored(o, c, LoadCached(o, c, FRESH, cached, p), active, q);
            && r.staged == map[]
            && (active.Got? ==> r.ver.raw == active.value.0)
            && (active.Got? && !(o.cacheReads && cached.Got? && cached.value.version == active.value.0) ==>
                  r.items == Accept(c, active.value.1.content).value)
            && (!active.Got? && o.cacheReads && cached.Got? ==>
                  r.ver.raw == cached.value.version && r.items == Accept(c, cached.value.content).value)
            && (!active.Got? && !(o.cacheReads && cached.Got?) ==> r == FRESH)
  {
  }

  /** A replica that is down holds nothing. */
  lemma {:induction false} DownIsFresh(w: World, ss: seq<System>, acts: seq<Step>, i: nat, id: string)
    requires Run(w, ss, acts) && i < |ss| && At(ss[i], id, Down)
    ensures ss[i].nodes[id].reg == FRESH
  {
    if i > 0 {
      NodesStay(w, ss[i - 1], acts[i - 1]);
      GoesDownFresh(w, ss[i - 1], acts[i - 1], id);
      if At(ss[i - 1], id, Down) {
        DownIsFresh(w, ss, acts, i - 1, id);
      }
      hide Next, Enabled;
    }
  }

  lemma GoesDownFresh(w: World, s: System, a: Step, id: string)
    requires Enabled(w, s, a) && id in s.nodes && Next(w, s, a).nodes[id].pc.Down?
    ensures Next(w, s, a).nodes[id] == Node(FRESH, Down) || Next(w, s, a).nodes[id] == s.nodes[id]
  {
    hide CycleStep, BeginCycle, CatchUp, LoadCached, LoadStored;
  }

  /** The same over a run, with the others acting between the two loads: a replica that restarts
      without a read error serves the version active when it loads from storage with that
      snapshot's items, unless the cache had already given it that version; with nothing active
      it serves what the cache held when it warmed up, or nothing. */
  lemma RestartLands(w: World, ss: seq<System>, acts: seq<Step>, id: string, p: bool, q: bool, i: nat, j: nat)
    requires Canonical(w.o.time) && Run(w, ss, acts) && i < j < |acts| && id in w.managed
    requires acts[i] == WarmUp(id, true, p) && acts[j] == Start(id, true, q)
    requires forall k :: i < k < j ==> !Subject(acts[k], id)
    requires forall v :: v in ActiveSet(ss[j].sh.table) ==>
               w.o.time.parse(v).Some? && Accept(w.codec(id), ss[j].sh.table.rows[v].content).Some?
    requires w.o.cacheReads && ss[i].sh.cache.Some? ==>
               && w.o.time.parse(ss[i].sh.cache.value.version).Some?
               && Accept(w.codec(id), ss[i].sh.cache.value.content).Some?
    ensures At(ss[j + 1], id, Idle)
    ensures var r, active := ss[j + 1].nodes[id].reg, ActiveVersion(ss[j].sh.table);
            var warm := w.o.cacheReads && ss[i].sh.cache.Some?;
            && r.staged == map[]
            && (active.Some? ==> r.ver.raw == active.value)
            && (active.Some? && !(warm && ss[i].sh.cache.value.version == active.value) ==>
                  r.items == Accept(w.codec(id), ss[j].sh.table.rows[active.value].content).value)
            && (active.None? && warm ==>
                  && r.ver.raw == ss[i].sh.cache.value.version
                  && r.items == Accept(w.codec(id), ss[i].sh.cache.value.content).value)
            && (active.None? && !warm ==> r == FRESH)
  {
    hide LoadCached, LoadStored, Accept, Init;
    DownIsFresh(w, ss, acts, i, id);
    Undisturbed(w, ss, acts, i + 1, j, id);
    var cached := if ss[i].sh.cache.None? then Missing else Got(ss[i].sh.cache.value);
    var active := ReadActive(ss[j].sh.table, true);
    StartupLands(w.o, w.codec(id), cached, active, p, q);
    Restarts(w, ss[i], id, p, cached);
  }

  lemma Restarts(w: World, s: System, id: string, p: bool, cached: Read<Entry>)
    requires Enabled(w, s, WarmUp(id, true, p)) && id in w.managed && s.nodes[id].reg == FRESH
    requires cached == if s.sh.cache.None? then Missing else Got(s.sh.cache.value)
    ensures Next(w, s, WarmUp(id, true, p)).nodes[id] == Node(LoadCached(w.o, w.codec(id), FRESH, cached, p), Warm)
  {
  }
}
