/** manager/sync.go, the leader half as it runs: leaderSync and leaderSync2PC as straight-line
    code, with the rest of the cluster let in before every access to shared state. Each is
    proved to be a run of the cycle machine, whatever the others do and whichever calls fail. */
module Leaders {
  import opened Wrappers
  import opened Versions
  import opened Tables
  import opened Registration
  import opened Postgres
  import opened Protocol
  import opened Followers

  /** One access: what everyone else does to the shared state first, then how the call ends. */
  datatype Turn = Turn(others: Shared -> Shared, x: Input)

  /** Nobody else breaks the one-active-row rule. */
  ghost predicate Sane(turns: nat -> Turn) {
    forall k: nat, sh: Shared :: OneActive(sh.table) ==> OneActive(turns(k).others(sh).table)
  }

  /** The cycle machine run for `n` accesses. */
  ghost function CycleRun(o: Options, me: string, l: Local, sh: Shared, turns: nat -> Turn, n: nat): (Local, Shared) {
    if n == 0 then (l, sh)
    else
      var (l', sh') := CycleRun(o, me, l, sh, turns, n - 1);
      CycleStep(o, me, l', turns(n - 1).others(sh'), turns(n - 1).x)
  }

  /** A cycle under way: it started at `l0` and `sh0`, and after `k` accesses stands at `at`. */
  datatype Trail = Trail(l0: Local, sh0: Shared, turns: nat -> Turn, k: nat, at: Local) {
    function Stepped(l: Local): Trail { this.(k := k + 1, at := l) }
  }

  /** The machine stands where the trail says, and the shared state is the machine's. */
  ghost predicate Tracks(m: Manager, c: string, tr: Trail)
    reads m.storage, m.cache, m.notifier
  {
    CycleRun(m.o, m.id, tr.l0, tr.sh0, tr.turns, tr.k) == (tr.at, m.Seen(c))
  }

  ghost predicate Midway(m: Manager, c: string, tr: Trail, p: Phase)
    reads m.storage, m.cache, m.notifier
  {
    m.Valid() && Sane(tr.turns) && Tracks(m, c, tr) && tr.at.cyc.phase == p
  }

  /** The shared state has moved along the trail, and only this collection's. */
  twostate predicate Moved(m: Manager, c: string, tr: Trail)
    reads m.storage, m.cache, m.notifier
  {
    m.Valid() && Tracks(m, c, tr) && forall d :: d != c ==> m.Seen(d) == old(m.Seen(d))
  }

  lemma OneMore(o: Options, me: string, l0: Local, sh0: Shared, turns: nat -> Turn, n: nat, l: Local, sh: Shared)
    requires CycleRun(o, me, l0, sh0, turns, n) == (l, sh)
    ensures CycleRun(o, me, l0, sh0, turns, n + 1) == CycleStep(o, me, l, turns(n).others(sh), turns(n).x)
  {
  }

  lemma NoneYet(m: Manager, c: string, l0: Local, turns: nat -> Turn)
    ensures Tracks(m, c, Trail(l0, m.Seen(c), turns, 0, l0))
  {
  }

  /** The others take their turn. */
  method Others(m: Manager, c: string, t: Turn)
    requires m.Valid() && OneActive(t.others(m.Seen(c)).table)
    modifies m.storage, m.cache, m.notifier
    ensures m.Valid() && m.Seen(c) == t.others(old(m.Seen(c)))
    ensures forall d :: d != c ==> m.Seen(d) == old(m.Seen(d))
  {
    var sh := t.others(m.Seen(c));
    m.storage.snapshots := m.storage.snapshots[c := sh.table.rows];
    m.storage.applyLog := m.storage.applyLog[c := sh.table.log];
    m.cache.entries := if sh.cache.None? then m.cache.entries - {c} else m.cache.entries[c := sh.cache.value];
    m.notifier.sent := m.notifier.sent[c := sh.sent];
    m.storage.StaysValid(c);
  }

  /** Lets the others in; `due` is what the machine makes of the access that comes next. */
  method Await(m: Manager, c: string, t: Turn, ghost tr: Trail) returns (ghost due: (Local, Shared))
    requires Midway(m, c, tr, tr.at.cyc.phase) && t == tr.turns(tr.k)
    modifies m.storage, m.cache, m.notifier
    ensures m.Valid() && due == CycleStep(m.o, m.id, tr.at, m.Seen(c), t.x)
    ensures due == CycleRun(m.o, m.id, tr.l0, tr.sh0, tr.turns, tr.k + 1)
    ensures forall d :: d != c ==> m.Seen(d) == old(m.Seen(d))
  {
    hide CycleRun, CycleStep;
    OneMore(m.o, m.id, tr.l0, tr.sh0, tr.turns, tr.k, tr.at, m.Seen(c));
    Others(m, c, t);
    due := CycleStep(m.o, m.id, tr.at, m.Seen(c), t.x);
  }

  /** publish: the stamp is the caller's, and an error may hide a delivery. */
  method Announce(m: Manager, c: string, e: Event, call: Call) returns (ok: bool)
    modifies m.notifier
    ensures m.Seen(c) == Publish(old(m.Seen(c)), e, call) && ok == call.Done?
    ensures forall d :: d != c ==> m.Seen(d) == old(m.Seen(d))
  {
    if call.TookEffect() {
      m.notifier.sent := m.notifier.sent[c := m.notifier.Events(c) + {e}];
    }
    ok := call.Done?;
  }

  /** Swaps the staged value in; with the version live, an error means only a hook failed. */
  method ApplyStagedValue(reg: CollectionReg, round: string, staged: Staged, ver: Version, panics: bool)
    returns (live: bool)
    modifies reg
    ensures var (r, out) := AfterCommitStaged(old(reg.View()), round, staged, panics);
            reg.View() == r && live == (out.Ok? || r.ver.Equal(ver))
  {
    var out := reg.CommitStaged(round, staged, panics);
    live := out.Ok? || reg.ver.Equal(ver);
  }

  // ---------------------------------------------------------------- one access at a time

  method SaveNext(m: Manager, c: string, t: Turn, v: string, content: Bytes, ghost tr: Trail)
    returns (ok: bool, ghost next: Trail)
    requires Midway(m, c, tr, Saving) && t == tr.turns(tr.k)
    requires tr.at.cyc.ver.raw == v && tr.at.cyc.content == content
    modifies m.storage, m.cache, m.notifier
    ensures Moved(m, c, next)
    ensures next == tr.Stepped(if !ok then GiveUp(tr.at)
                               else Go(tr.at, if tr.at.cyc.unanimous then Resetting else Activating))
  {
    hide CycleRun;
    ghost var due := Await(m, c, t, tr);
    ok := m.storage.SaveSnapshot(c, v, content, t.x.now, t.x.call);
    next := tr.Stepped(due.0);
  }

  method ResetNext(m: Manager, c: string, t: Turn, v: string, ghost tr: Trail)
    returns (ok: bool, ghost next: Trail)
    requires Midway(m, c, tr, Resetting) && t == tr.turns(tr.k)
    requires tr.at.cyc.ver.raw == v
    modifies m.storage, m.cache, m.notifier
    ensures Moved(m, c, next)
    ensures next == tr.Stepped(if !ok then GiveUp(tr.at) else Go(tr.at, Targeting))
  {
    hide CycleRun;
    ghost var due := Await(m, c, t, tr);
    ok := m.storage.ResetApplyLog(c, v, t.x.call);
    next := tr.Stepped(due.0);
  }

  /** AliveInstances: the registry's answer is the turn's. */
  method TargetNext(m: Manager, c: string, t: Turn, ghost tr: Trail)
    returns (ok: bool, target: set<string>, ghost next: Trail)
    requires Midway(m, c, tr, Targeting) && t == tr.turns(tr.k)
    modifies m.storage, m.cache, m.notifier
    ensures Moved(m, c, next)
    ensures next == tr.Stepped(if !ok then GiveUp(tr.at)
                               else tr.at.(cyc := tr.at.cyc.(target := target, phase := SelfLogging)))
  {
    hide CycleRun;
    ghost var due := Await(m, c, t, tr);
    ok, target := t.x.call.Done?, t.x.ids;
    next := tr.Stepped(due.0);
  }

  method SelfLogNext(m: Manager, c: string, t: Turn, v: string, ghost tr: Trail)
    returns (ok: bool, ghost next: Trail)
    requires Midway(m, c, tr, SelfLogging) && t == tr.turns(tr.k)
    requires tr.at.cyc.ver.raw == v
    modifies m.storage, m.cache, m.notifier
    ensures Moved(m, c, next)
    ensures next == tr.Stepped(if !ok then GiveUp(tr.at) else Go(tr.at, Preparing))
  {
    hide CycleRun;
    ghost var due := Await(m, c, t, tr);
    ok := m.storage.LogApply(m.id, c, v, Prepared, t.x.call);
    next := tr.Stepped(due.0);
  }

  method PrepareNext(m: Manager, c: string, t: Turn, v: string, round: string, ghost tr: Trail)
    returns (ok: bool, ghost next: Trail)
    requires Midway(m, c, tr, Preparing) && t == tr.turns(tr.k)
    requires tr.at.cyc.ver.raw == v && tr.at.cyc.round == round
    modifies m.storage, m.cache, m.notifier
    ensures Moved(m, c, next)
    ensures next == tr.Stepped(if !ok then GiveUp(tr.at)
                               else Go(tr.at, if tr.at.cyc.target == {} then Activating else PollAlive))
  {
    hide CycleRun;
    ghost var due := Await(m, c, t, tr);
    ok := Announce(m, c, Event(Prepare, v, round, m.id), t.x.call);
    next := tr.Stepped(due.0);
  }

  method AliveNext(m: Manager, c: string, t: Turn, ghost tr: Trail)
    returns (ok: bool, alive: set<string>, ghost next: Trail)
    requires Midway(m, c, tr, PollAlive) && t == tr.turns(tr.k)
    modifies m.storage, m.cache, m.notifier
    ensures Moved(m, c, next)
    ensures next == tr.Stepped(if !ok then Go(tr.at, Aborting)
                               else tr.at.(cyc := tr.at.cyc.(alive := alive, phase := PollFailed)))
  {
    hide CycleRun;
    ghost var due := Await(m, c, t, tr);
    ok, alive := t.x.call.Done?, t.x.ids;
    next := tr.Stepped(due.0);
  }

  /** checkPrepares, first query: has a live target refused? */
  method FailedNext(m: Manager, c: string, t: Turn, v: string, target: set<string>, alive: set<string>, ghost tr: Trail)
    returns (clear: bool, ghost next: Trail)
    requires Midway(m, c, tr, PollFailed) && t == tr.turns(tr.k)
    requires tr.at.cyc.ver.raw == v && tr.at.cyc.target == target && tr.at.cyc.alive == alive
    modifies m.storage, m.cache, m.notifier
    ensures Moved(m, c, next)
    ensures next == tr.Stepped(Go(tr.at, if clear then PollPrepared else Aborting))
  {
    hide CycleRun;
    ghost var due := Await(m, c, t, tr);
    next := tr.Stepped(due.0);
    if !t.x.call.Done? {
      return false, next;
    }
    var failed := m.storage.AppliedInstances(c, v, PrepareFailed);
    clear := true;
    var todo := failed;
    while todo != {} && clear
      invariant todo <= failed
      invariant if clear then forall id :: id in failed - todo ==> !(id in target && id in alive)
                else exists id :: id in failed && id in target && id in alive
      decreases todo, clear
    {
      var id :| id in todo;
      todo := todo - {id};
      if id in target && id in alive {
        clear := false;
      }
    }
    assert SomeFailed(m.Seen(c).table, v, target * alive) <==> !clear by {
      if x :| x in failed && x in target && x in alive {
        assert x in target * alive;
      }
    }
  }

  /** checkPrepares, second query: has every live target prepared? */
  method PreparedNext(m: Manager, c: string, t: Turn, v: string, target: set<string>, alive: set<string>,
                      ghost tr: Trail)
    returns (ok: bool, all: bool, ghost next: Trail)
    requires Midway(m, c, tr, PollPrepared) && t == tr.turns(tr.k)
    requires tr.at.cyc.ver.raw == v && tr.at.cyc.target == target && tr.at.cyc.alive == alive
    modifies m.storage, m.cache, m.notifier
    ensures Moved(m, c, next)
    ensures ok == t.x.call.Done? && (!ok ==> !all)
    ensures all ==> AllPrepared(m.Seen(c).table, v, target * alive)
    ensures next == tr.Stepped(Go(tr.at, if !ok then Aborting
                                         else if all then Activating
                                         else if t.x.giveUp then Aborting else PollAlive))
  {
    hide CycleRun;
    ghost var due := Await(m, c, t, tr);
    next := tr.Stepped(due.0);
    ok, all := t.x.call.Done?, false;
    if !ok {
      return;
    }
    var prepared := m.storage.AppliedInstances(c, v, Prepared);
    all := true;
    var todo := target;
    while todo != {} && all
      invariant todo <= target
      invariant if all then forall id :: id in target - todo ==> id !in alive || id in prepared
                else exists id :: id in target && id in alive && id !in prepared
      decreases todo, all
    {
      var id :| id in todo;
      todo := todo - {id};
      if id in alive && id !in prepared {
        all := false;
      }
    }
    assert AllPrepared(m.Seen(c).table, v, target * alive) <==> all by {
      if x :| x in target && x in alive && x !in prepared {
        assert x in target * alive;
      }
    }
  }

  method ActivateNext(m: Manager, c: string, t: Turn, v: string, ghost tr: Trail)
    returns (ok: bool, ghost next: Trail)
    requires Midway(m, c, tr, Activating) && t == tr.turns(tr.k)
    requires tr.at.cyc.ver.raw == v
    modifies m.storage, m.cache, m.notifier
    ensures Moved(m, c, next)
    ensures tr.at.cyc.unanimous ==> next == tr.Stepped(Go(tr.at, if ok then Announcing else Aborting))
    ensures !tr.at.cyc.unanimous && !ok ==> next == tr.Stepped(GiveUp(tr.at))
    ensures !tr.at.cyc.unanimous && ok ==>
              var (l, live) := ApplyStaged(tr.at, t.x.panics);
              next == tr.Stepped(Go(l, if live then Announcing else Finished))
  {
    hide CycleRun;
    ghost var due := Await(m, c, t, tr);
    ok := m.storage.ActivateSnapshot(c, v, t.x.call);
    next := tr.Stepped(due.0);
  }

  method SyncNext(m: Manager, c: string, t: Turn, v: string, ghost tr: Trail)
    returns (ok: bool, ghost next: Trail)
    requires Midway(m, c, tr, Announcing) && t == tr.turns(tr.k)
    requires tr.at.cyc.ver.raw == v && !tr.at.cyc.unanimous
    modifies m.storage, m.cache, m.notifier
    ensures Moved(m, c, next)
    ensures next == tr.Stepped(Go(tr.at, if ok then Caching else Finished))
  {
    hide CycleRun;
    ghost var due := Await(m, c, t, tr);
    ok := Announce(m, c, Event(Sync, v, "", m.id), t.x.call);
    next := tr.Stepped(due.0);
  }

  method CommitNext(m: Manager, c: string, t: Turn, v: string, round: string, ghost tr: Trail)
    returns (ghost next: Trail)
    requires Midway(m, c, tr, Announcing) && t == tr.turns(tr.k)
    requires tr.at.cyc.ver.raw == v && tr.at.cyc.unanimous && tr.at.cyc.round == round
    modifies m.storage, m.cache, m.notifier
    ensures Moved(m, c, next)
    ensures var (l, live) := ApplyStaged(tr.at, t.x.panics);
            next == tr.Stepped(Go(l, if live then Recording else Finished))
  {
    hide CycleRun;
    ghost var due := Await(m, c, t, tr);
    var _ := Announce(m, c, Event(Commit, v, round, m.id), t.x.call); // followers catch up if it fails
    next := tr.Stepped(due.0);
  }

  method RecordNext(m: Manager, c: string, t: Turn, v: string, st: ApplyStatus, ghost tr: Trail)
    returns (ghost next: Trail)
    requires Midway(m, c, tr, Recording) && t == tr.turns(tr.k)
    requires tr.at.cyc.ver.raw == v && st == if tr.at.cyc.unanimous then Committed else Applied
    modifies m.storage, m.cache, m.notifier
    ensures Moved(m, c, next)
    ensures next == tr.Stepped(Go(tr.at, if tr.at.cyc.unanimous then Caching else Finished))
  {
    hide CycleRun;
    ghost var due := Await(m, c, t, tr);
    m.LogApplyStatus(c, v, st, t.x.call);
    next := tr.Stepped(due.0);
  }

  method CacheNext(m: Manager, c: string, t: Turn, v: string, content: Bytes, ghost tr: Trail)
    returns (ghost next: Trail)
    requires Midway(m, c, tr, Caching) && t == tr.turns(tr.k)
    requires tr.at.cyc.ver.raw == v && tr.at.cyc.content == content
    modifies m.storage, m.cache, m.notifier
    ensures Moved(m, c, next)
    ensures next == tr.Stepped(Go(tr.at, if tr.at.cyc.unanimous then Closing else Recording))
  {
    hide CycleRun;
    ghost var due := Await(m, c, t, tr);
    m.WriteToCache(c, Entry(v, content), t.x.call);
    next := tr.Stepped(due.0);
  }

  method CloseNext(m: Manager, c: string, t: Turn, v: string, ghost tr: Trail)
    returns (ghost next: Trail)
    requires Midway(m, c, tr, Closing) && t == tr.turns(tr.k)
    requires tr.at.cyc.ver.raw == v
    modifies m.storage, m.cache, m.notifier
    ensures Moved(m, c, next)
    ensures next == tr.Stepped(Go(tr.at, Finished))
  {
    hide CycleRun;
    ghost var due := Await(m, c, t, tr);
    var _ := Announce(m, c, Event(Sync, v, "", m.id), t.x.call);
    next := tr.Stepped(due.0);
  }

  method AbortNext(m: Manager, c: string, t: Turn, v: string, round: string, ghost tr: Trail)
    returns (ghost next: Trail)
    requires Midway(m, c, tr, Aborting) && t == tr.turns(tr.k)
    requires tr.at.cyc.ver.raw == v && tr.at.cyc.round == round
    modifies m.storage, m.cache, m.notifier
    ensures Moved(m, c, next)
    ensures next == tr.Stepped(Go(tr.at.(reg := Unstage(tr.at.reg, round)), Vetting))
  {
    hide CycleRun;
    ghost var due := Await(m, c, t, tr);
    var _ := Announce(m, c, Event(Abort, v, round, m.id), t.x.call);
    next := tr.Stepped(due.0);
  }

  /** failSnapshotUnlessActive, the check: only a version known not to be active may be failed. */
  method VetNext(m: Manager, c: string, t: Turn, v: string, ghost tr: Trail)
    returns (safe: bool, ghost next: Trail)
    requires Midway(m, c, tr, Vetting) && t == tr.turns(tr.k)
    requires tr.at.cyc.ver.raw == v
    modifies m.storage, m.cache, m.notifier
    ensures Moved(m, c, next)
    ensures next == tr.Stepped(Go(tr.at, if safe then Failing else Finished))
  {
    hide CycleRun;
    ghost var due := Await(m, c, t, tr);
    var active := m.storage.GetActiveVersion(c, t.x.call.Done?);
    safe := active.Missing? || (active.Got? && active.value != v);
    next := tr.Stepped(due.0);
  }

  method FailNext(m: Manager, c: string, t: Turn, v: string, ghost tr: Trail)
    returns (ghost next: Trail)
    requires Midway(m, c, tr, Failing) && t == tr.turns(tr.k)
    requires tr.at.cyc.ver.raw == v
    modifies m.storage, m.cache, m.notifier
    ensures Moved(m, c, next)
    ensures next == tr.Stepped(Go(tr.at, Finished))
  {
    hide CycleRun;
    ghost var due := Await(m, c, t, tr);
    var _ := m.storage.FailSnapshot(c, v, t.x.call);
    next := tr.Stepped(due.0);
  }

  /** repairCacheEntry, the probe: only a missing entry is worth filling. */
  method ProbeNext(m: Manager, c: string, t: Turn, ghost tr: Trail)
    returns (missing: bool, ghost next: Trail)
    requires Midway(m, c, tr, RepairProbe) && t == tr.turns(tr.k)
    modifies m.storage, m.cache, m.notifier
    ensures Moved(m, c, next)
    ensures next == tr.Stepped(Go(tr.at, if missing then RepairLoad else Finished))
  {
    hide CycleRun;
    ghost var due := Await(m, c, t, tr);
    missing := m.o.cacheWrites && t.x.call.Done? && m.cache.Lookup(c).None?;
    next := tr.Stepped(due.0);
  }

  method LoadNext(m: Manager, c: string, t: Turn, ghost tr: Trail)
    returns (snap: Read<(string, Row)>, ghost next: Trail)
    requires Midway(m, c, tr, RepairLoad) && t == tr.turns(tr.k)
    modifies m.storage, m.cache, m.notifier
    ensures Moved(m, c, next)
    ensures next == tr.Stepped(next.at) && next.at.reg == tr.at.reg
    ensures if snap.Got? then next.at.cyc.phase == RepairWrite && next.at.cyc.ver.raw == snap.value.0
                            && next.at.cyc.content == snap.value.1.content
            else next.at.cyc.phase == Finished
  {
    hide CycleRun;
    ghost var due := Await(m, c, t, tr);
    snap := m.storage.GetActiveSnapshot(c, t.x.call.Done?);
    next := tr.Stepped(due.0);
  }

  method FillNext(m: Manager, c: string, t: Turn, v: string, content: Bytes, ghost tr: Trail)
    returns (ghost next: Trail)
    requires Midway(m, c, tr, RepairWrite) && t == tr.turns(tr.k)
    requires tr.at.cyc.ver.raw == v && tr.at.cyc.content == content
    modifies m.storage, m.cache, m.notifier
    ensures Moved(m, c, next)
    ensures next == tr.Stepped(Go(tr.at, Finished))
  {
    hide CycleRun;
    ghost var due := Await(m, c, t, tr);
    m.WriteToCache(c, Entry(v, content), t.x.call);
    next := tr.Stepped(due.0);
  }

  // ---------------------------------------------------------------- the cycles

  /** repairCacheEntry: fills a missing entry from the active snapshot, and only that. */
  method RepairCacheEntry(m: Manager, c: string, turns: nat -> Turn, ghost tr0: Trail) returns (ghost tr: Trail)
    requires Midway(m, c, tr0, RepairProbe) && tr0.k == 0 && tr0.turns == turns
    modifies m.storage, m.cache, m.notifier
    ensures Moved(m, c, tr) && tr == tr0.(k := tr.k, at := tr.at)
    ensures tr.at.cyc.phase.Finished? && tr.at.reg == tr0.at.reg
  {
    hide CycleRun, CycleStep, Tracks, Sane;
    var missing, snap;
    missing, tr := ProbeNext(m, c, turns(0), tr0);
    if !missing {
      return;
    }
    snap, tr := LoadNext(m, c, turns(1), tr);
    if !snap.Got? {
      return;
    }
    tr := FillNext(m, c, turns(2), snap.value.0, snap.value.1.content, tr);
  }

  /** The cycle has returned: the machine is finished, and the replica and the shared state are
      where it put them. */
  ghost predicate Ended(m: Manager, c: string, tr: Trail)
    requires c in m.configs
    reads m.storage, m.cache, m.notifier, m.configs[c]
  {
    m.Valid() && Tracks(m, c, tr) && tr.at.cyc.phase.Finished? && m.configs[c].View() == tr.at.reg
  }

  ghost function Begun(m: Manager, c: string, r: Reg, src: Source, force: bool, round: string, now: int): Local
    requires c in m.configs
  {
    var (r0, cy0) := BeginCycle(m.o, m.configs[c].codec, r, src, force, round, now);
    Local(r0, cy0)
  }

  /** The registration once the staged value is served. */
  function Served(l: Local): Reg {
    Reg(l.cyc.ver, l.cyc.staged.items, l.reg.staged - {l.cyc.round})
  }

  /** What a cycle has just staged is there when it comes to apply it, and applying it succeeds
      even when a hook panics. */
  lemma StagedIsThere(l: Local, panics: bool)
    requires l.cyc.round in l.reg.staged && l.reg.staged[l.cyc.round] == l.cyc.staged && l.cyc.staged.ver == l.cyc.ver
    ensures ApplyStaged(l, panics).1 && ApplyStaged(l, panics).0 == l.(reg := Served(l))
  {
  }

  lemma BegunStages(m: Manager, c: string, r: Reg, src: Source, force: bool, round: string, now: int)
    requires c in m.configs && round !in r.staged
    ensures var l := Begun(m, c, r, src, force, round, now);
            && l.cyc.round == round && l.cyc.unanimous == m.o.unanimous
            && (l.cyc.phase.Saving? ==> round in l.reg.staged && l.reg.staged[round] == l.cyc.staged
                                        && l.cyc.staged.ver == l.cyc.ver && Unstage(l.reg, round) == r)
            && (!l.cyc.phase.Saving? ==> l.reg == r)
  {
  }

  /** A cycle that opens nothing succeeds when there is nothing to do: something is served, and
      what the source reports is that very version or no later one; and, if the cycle is forced,
      the clock has nothing later to offer either. */
  predicate NothingToDo(o: Options, r: Reg, src: Source, force: bool, now: int) {
    src.reported.Some? && r.ver.raw != "" &&
    var reported, minted := NewVersion(o.time, src.reported.value), NewVersion(o.time, now);
    if force then reported.t <= r.ver.t && minted.t <= r.ver.t
    else reported.raw == r.ver.raw || reported.t <= r.ver.t
  }

  /** The eventually-consistent cycle. It succeeds when it has nothing to do or gets through all
      five accesses; it serves the new value from the third on, announced or not. */
  method LeaderSync(m: Manager, c: string, src: Source, force: bool, round: string, now: int, turns: nat -> Turn)
    returns (ok: bool, ghost tr: Trail)
    requires m.Valid() && c in m.configs && !m.o.unanimous && Sane(turns) && round !in m.configs[c].staged
    modifies m.configs[c], m.storage, m.cache, m.notifier
    ensures Ended(m, c, tr) && Moved(m, c, tr) && tr.turns == turns
    ensures tr.l0 == Begun(m, c, old(m.configs[c].View()), src, force, round, now) && tr.sh0 == old(m.Seen(c))
    ensures m.configs[c].staged == old(m.configs[c].staged)
    ensures ok <==> if tr.l0.cyc.phase.Saving? then tr.k == 5
                    else NothingToDo(m.o, old(m.configs[c].View()), src, force, now)
    ensures m.configs[c].View() ==
              if tr.l0.cyc.phase.Saving? && tr.k >= 3 then Served(tr.l0) else old(m.configs[c].View())
  {
    var reg := m.configs[c];
    tr := Trail(Begun(m, c, reg.View(), src, force, round, now), m.Seen(c), turns, 0,
                Begun(m, c, reg.View(), src, force, round, now));
    BegunStages(m, c, reg.View(), src, force, round, now);
    NoneYet(m, c, tr.l0, turns);
    hide CycleRun, CycleStep, Tracks, Sane;
    if src.reported.None? {
      return false, tr;
    }
    // Is there anything new, and is it ahead of what this replica serves?
    var ver := SyncVersion(m.o.time, src.reported.value, reg.ver, force, now);
    if !force && !reg.ver.IsZero() && ver.Equal(reg.ver) {
      tr := RepairCacheEntry(m, c, turns, tr);
      return true, tr;
    }
    var advance := m.AllowsForward(reg, ver);
    if !advance {
      return true, tr;
    }
    // The fetched value waits without a TTL until this method serves or drops it.
    if src.listed.None? {
      return false, tr;
    }
    var content := reg.FetchAndStage(ver, round, src.listed.value, now, 0);
    if content.None? {
      return false, tr;
    }
    ok, tr := Publicise(m, c, ver, round, reg.staged[round], content.value, turns, tr);
  }

  /** The cycle's own names for what it carries. */
  ghost predicate Carries(l: Local, ver: Version, round: string, staged: Staged, content: Bytes) {
    && l.cyc.ver == ver && l.cyc.round == round && l.cyc.staged == staged && l.cyc.content == content
    && round in l.reg.staged && l.reg.staged[round] == staged && staged.ver == ver
  }

  /** From the staged value on: save, activate, apply, announce. */
  method Publicise(m: Manager, c: string, ver: Version, round: string, staged: Staged, content: Bytes,
                   turns: nat -> Turn, ghost tr0: Trail)
    returns (ok: bool, ghost tr: Trail)
    requires c in m.configs && Midway(m, c, tr0, Saving) && tr0.k == 0 && tr0.turns == turns
    requires Carries(tr0.at, ver, round, staged, content) && !tr0.at.cyc.unanimous && m.configs[c].View() == tr0.at.reg
    modifies m.configs[c], m.storage, m.cache, m.notifier
    ensures Ended(m, c, tr) && Moved(m, c, tr) && tr == tr0.(k := tr.k, at := tr.at)
    ensures ok <==> tr.k == 5
    ensures m.configs[c].View() == if tr.k >= 3 then Served(tr0.at) else Unstage(tr0.at.reg, round)
  {
    hide CycleRun, CycleStep, Tracks, Sane;
    var reg := m.configs[c];
    ok, tr := SaveNext(m, c, turns(0), ver.raw, content, tr0);
    if !ok {
      reg.AbortByRoundID(round);
      return;
    }
    // Storage moves first: no replica may serve a version ahead of the active snapshot.
    StagedIsThere(tr.at, turns(1).x.panics);
    ok, tr := ActivateNext(m, c, turns(1), ver.raw, tr);
    if !ok {
      reg.AbortByRoundID(round);
      return;
    }
    ok := ApplyStagedValue(reg, round, staged, ver, turns(1).x.panics);
    if !ok {
      assert false; // the staged value is where the cycle put it
    }
    ok, tr := Notify(m, c, ver.raw, content, turns, tr);
  }

  /** The value is live here: tell the others, cache it, record it. */
  method Notify(m: Manager, c: string, v: string, content: Bytes, turns: nat -> Turn, ghost tr0: Trail)
    returns (ok: bool, ghost tr: Trail)
    requires Midway(m, c, tr0, Announcing) && tr0.k == 2 && tr0.turns == turns
    requires tr0.at.cyc.ver.raw == v && tr0.at.cyc.content == content && !tr0.at.cyc.unanimous
    modifies m.storage, m.cache, m.notifier
    ensures Moved(m, c, tr) && tr == tr0.(k := tr.k, at := Go(tr0.at, Finished))
    ensures tr.k == if ok then 5 else 3
  {
    hide CycleRun, CycleStep, Tracks, Sane;
    ok, tr := SyncNext(m, c, turns(2), v, tr0);
    if !ok {
      return;
    }
    tr := CacheNext(m, c, turns(3), v, content, tr);
    tr := RecordNext(m, c, turns(4), v, Applied, tr);
  }

  /** How an undecided or lost round ends: told to all, unstaged here, and its row marked failed
      only after a read that shows another active version, or none. */
  method AbortRound(m: Manager, c: string, v: string, round: string, turns: nat -> Turn, first: nat, ghost tr0: Trail)
    returns (ghost tr: Trail)
    requires c in m.configs && Midway(m, c, tr0, Aborting) && tr0.k == first && tr0.turns == turns
    requires tr0.at.cyc.ver.raw == v && tr0.at.cyc.round == round && m.configs[c].View() == tr0.at.reg
    modifies m.configs[c], m.storage, m.cache, m.notifier
    ensures Ended(m, c, tr) && Moved(m, c, tr) && tr == tr0.(k := tr.k, at := tr.at)
    ensures m.configs[c].View() == Unstage(tr0.at.reg, round)
  {
    hide CycleRun, CycleStep, Tracks, Sane;
    tr := AbortNext(m, c, turns(first), v, round, tr0);
    m.configs[c].AbortByRoundID(round);
    tr := FailUnlessActive(m, c, v, turns, first + 1, tr);
  }

  /** failSnapshotUnlessActive. */
  method FailUnlessActive(m: Manager, c: string, v: string, turns: nat -> Turn, first: nat, ghost tr0: Trail)
    returns (ghost tr: Trail)
    requires Midway(m, c, tr0, Vetting) && tr0.k == first && tr0.turns == turns && tr0.at.cyc.ver.raw == v
    modifies m.storage, m.cache, m.notifier
    ensures Moved(m, c, tr) && tr == tr0.(k := tr.k, at := Go(tr0.at, Finished))
  {
    hide CycleRun, CycleStep, Tracks, Sane;
    var safe;
    safe, tr := VetNext(m, c, turns(first), v, tr0);
    if safe {
      tr := FailNext(m, c, turns(first + 1), v, tr);
    }
  }

  /** checkPrepares, and the select around it: one look at the live targets. */
  method PollOnce(m: Manager, c: string, v: string, target: set<string>, turns: nat -> Turn, first: nat,
                  ghost tr0: Trail)
    returns (ok: bool, all: bool, k: nat, ghost tr: Trail)
    requires Midway(m, c, tr0, PollAlive) && tr0.k == first && tr0.turns == turns
    requires tr0.at.cyc.ver.raw == v && tr0.at.cyc.target == target
    modifies m.storage, m.cache, m.notifier
    ensures Moved(m, c, tr) && tr == tr0.(k := k, at := tr.at)
    ensures tr.at == tr0.at.(cyc := tr0.at.cyc.(phase := tr.at.cyc.phase, alive := tr.at.cyc.alive))
    ensures tr.at.cyc.phase == if all then Activating else if ok then PollAlive else Aborting
    ensures first < k <= first + 3 && (all ==> ok) && (ok && !all ==> k == first + 3 && !turns(k - 1).x.giveUp)
    ensures all ==> AllPrepared(m.Seen(c).table, v, target * tr.at.cyc.alive)
  {
    hide CycleRun, CycleStep, Tracks, Sane, AllPrepared;
    var alive, clear;
    all := false;
    ok, alive, tr := AliveNext(m, c, turns(first), tr0);
    if !ok {
      return false, false, first + 1, tr;
    }
    clear, tr := FailedNext(m, c, turns(first + 1), v, target, alive, tr);
    if !clear {
      return false, false, first + 2, tr;
    }
    ok, all, tr := PreparedNext(m, c, turns(first + 2), v, target, alive, tr);
    k := first + 3;
    if ok && !all && turns(first + 2).x.giveUp {
      ok := false;
    }
  }

  /** waitPreparesOrAbort: polls until every live target has prepared, one has refused, a query
      fails, or the deadline or the context ends the wait. The deadline falls by turn `deadline`. */
  method WaitPrepares(m: Manager, c: string, v: string, target: set<string>, turns: nat -> Turn, first: nat,
                      deadline: nat, ghost tr0: Trail)
    returns (ok: bool, k: nat, ghost tr: Trail)
    requires Midway(m, c, tr0, if target == {} then Activating else PollAlive) && tr0.k == first && tr0.turns == turns
    requires tr0.at.cyc.ver.raw == v && tr0.at.cyc.target == target
    requires forall i :: i >= deadline ==> turns(i).x.giveUp
    modifies m.storage, m.cache, m.notifier
    ensures Moved(m, c, tr) && tr == tr0.(k := k, at := tr.at)
    ensures tr.at == tr0.at.(cyc := tr0.at.cyc.(phase := tr.at.cyc.phase, alive := tr.at.cyc.alive))
    ensures tr.at.cyc.phase == if ok then Activating else Aborting
    ensures ok && target != {} ==> AllPrepared(m.Seen(c).table, v, target * tr.at.cyc.alive)
    ensures k <= (if first < deadline then deadline else first) + 3
  {
    hide CycleRun, CycleStep, Tracks, Sane, AllPrepared;
    k, tr := first, tr0;
    if target == {} {
      return true, k, tr;
    }
    while true
      invariant Moved(m, c, tr) && tr == tr0.(k := k, at := tr.at) && tr.at.cyc.phase == PollAlive
      invariant tr.at == tr0.at.(cyc := tr0.at.cyc.(alive := tr.at.cyc.alive))
      invariant k == first || k <= deadline
      decreases deadline + 3 - k
    {
      var all;
      ok, all, k, tr := PollOnce(m, c, v, target, turns, k, tr);
      if !ok || all {
        return;
      }
    }
  }

  /** The two-phase commit cycle. When it opens a round, it succeeds exactly when this replica
      comes to serve the round's value; a round that fails leaves the replica as it was. */
  method LeaderSync2PC(m: Manager, c: string, src: Source, force: bool, round: string, now: int,
                       turns: nat -> Turn, deadline: nat)
    returns (ok: bool, ghost tr: Trail)
    requires m.Valid() && c in m.configs && m.o.unanimous && Sane(turns) && round !in m.configs[c].staged
    requires forall i :: i >= deadline ==> turns(i).x.giveUp
    modifies m.configs[c], m.storage, m.cache, m.notifier
    ensures Ended(m, c, tr) && Moved(m, c, tr) && tr.turns == turns
    ensures tr.l0 == Begun(m, c, old(m.configs[c].View()), src, force, round, now) && tr.sh0 == old(m.Seen(c))
    ensures m.configs[c].staged == old(m.configs[c].staged)
    ensures !tr.l0.cyc.phase.Saving? ==> (ok <==> NothingToDo(m.o, old(m.configs[c].View()), src, force, now))
    ensures m.configs[c].View() == if tr.l0.cyc.phase.Saving? && ok then Served(tr.l0) else old(m.configs[c].View())
  {
    var reg := m.configs[c];
    tr := Trail(Begun(m, c, reg.View(), src, force, round, now), m.Seen(c), turns, 0,
                Begun(m, c, reg.View(), src, force, round, now));
    BegunStages(m, c, reg.View(), src, force, round, now);
    NoneYet(m, c, tr.l0, turns);
    hide CycleRun, CycleStep, Tracks, Sane;
    if src.reported.None? {
      return false, tr;
    }
    // Is there anything new, and is it ahead of what this replica serves?
    var ver := SyncVersion(m.o.time, src.reported.value, reg.ver, force, now);
    if !force && !reg.ver.IsZero() && ver.Equal(reg.ver) {
      tr := RepairCacheEntry(m, c, turns, tr);
      return true, tr;
    }
    var advance := m.AllowsForward(reg, ver);
    if !advance {
      return true, tr;
    }
    // The leader stages its own fetch as every follower will stage what it stores.
    if src.listed.None? {
      return false, tr;
    }
    var content := reg.FetchAndStage(ver, round, src.listed.value, now, m.o.ttl);
    if content.None? {
      return false, tr;
    }
    var target;
    var staged := reg.staged[round];
    ok, target, tr := OpenRound(m, c, ver, round, staged, content.value, turns, tr);
    if ok {
      ok, tr := DecideRound(m, c, ver, round, staged, content.value, target, turns, deadline, tr);
    }
  }

  /** The snapshot followers will load, and an apply log without an earlier round's answers. */
  method Persist(m: Manager, c: string, ver: Version, round: string, staged: Staged, content: Bytes, turns: nat -> Turn,
                 ghost tr0: Trail)
    returns (ok: bool, ghost tr: Trail)
    requires c in m.configs && Midway(m, c, tr0, Saving) && tr0.k == 0 && tr0.turns == turns
    requires Carries(tr0.at, ver, round, staged, content) && tr0.at.cyc.unanimous && m.configs[c].View() == tr0.at.reg
    modifies m.configs[c], m.storage, m.cache, m.notifier
    ensures Moved(m, c, tr) && tr == tr0.(k := tr.k, at := tr.at)
    ensures !ok ==> Ended(m, c, tr) && m.configs[c].View() == Unstage(tr0.at.reg, round)
    ensures ok ==> m.configs[c].View() == tr0.at.reg && tr.at == Go(tr0.at, Targeting) && tr.k == 2
  {
    hide CycleRun, CycleStep, Tracks, Sane;
    var reg := m.configs[c];
    ok, tr := SaveNext(m, c, turns(0), ver.raw, content, tr0);
    if !ok {
      reg.AbortByRoundID(round);
      return;
    }
    ok, tr := ResetNext(m, c, turns(1), ver.raw, tr);
    if !ok {
      reg.AbortByRoundID(round);
    }
  }

  /** Up to the prepare event: store, fix the target set, prepare oneself, ask the others. */
  method OpenRound(m: Manager, c: string, ver: Version, round: string, staged: Staged, content: Bytes,
                   turns: nat -> Turn, ghost tr0: Trail)
    returns (ok: bool, target: set<string>, ghost tr: Trail)
    requires c in m.configs && Midway(m, c, tr0, Saving) && tr0.k == 0 && tr0.turns == turns
    requires Carries(tr0.at, ver, round, staged, content) && tr0.at.cyc.unanimous && m.configs[c].View() == tr0.at.reg
    modifies m.configs[c], m.storage, m.cache, m.notifier
    ensures Moved(m, c, tr) && tr == tr0.(k := tr.k, at := tr.at)
    ensures !ok ==> Ended(m, c, tr) && m.configs[c].View() == Unstage(tr0.at.reg, round)
    ensures ok ==> m.configs[c].View() == tr0.at.reg && tr.k == 5
    ensures ok ==> tr.at.reg == tr0.at.reg
    ensures ok ==> tr.at.cyc == tr0.at.cyc.(target := target, phase := if target == {} then Activating else PollAlive)
  {
    hide CycleRun, CycleStep, Tracks, Sane;
    var reg := m.configs[c];
    target := {};
    ok, tr := Persist(m, c, ver, round, staged, content, turns, tr0);
    if !ok {
      return;
    }
    ok, target, tr := TargetNext(m, c, turns(2), tr);
    if !ok {
      reg.AbortByRoundID(round);
      return;
    }
    ok, tr := AskForPrepares(m, c, ver.raw, round, turns, tr);
    if !ok {
      reg.AbortByRoundID(round);
    }
  }

  /** The leader's own prepare first, then the event. */
  method AskForPrepares(m: Manager, c: string, v: string, round: string, turns: nat -> Turn, ghost tr0: Trail)
    returns (ok: bool, ghost tr: Trail)
    requires Midway(m, c, tr0, SelfLogging) && tr0.k == 3 && tr0.turns == turns
    requires tr0.at.cyc.ver.raw == v && tr0.at.cyc.round == round
    modifies m.storage, m.cache, m.notifier
    ensures Moved(m, c, tr) && tr == tr0.(k := tr.k, at := tr.at)
    ensures !ok ==> tr.at == GiveUp(tr0.at)
    ensures ok ==> tr.k == 5 && tr.at == Go(tr0.at, if tr0.at.cyc.target == {} then Activating else PollAlive)
  {
    hide CycleRun, CycleStep, Tracks, Sane;
    ok, tr := SelfLogNext(m, c, turns(3), v, tr0);
    if ok {
      ok, tr := PrepareNext(m, c, turns(4), v, round, tr);
    }
  }

  /** Wait for the targets; activation is the decision; then announce and apply, or abort. */
  method DecideRound(m: Manager, c: string, ver: Version, round: string, staged: Staged, content: Bytes,
                     target: set<string>, turns: nat -> Turn, deadline: nat, ghost tr0: Trail)
    returns (ok: bool, ghost tr: Trail)
    requires c in m.configs && Midway(m, c, tr0, if target == {} then Activating else PollAlive)
    requires tr0.k == 5 && tr0.turns == turns && tr0.at.cyc.unanimous && tr0.at.cyc.target == target
    requires Carries(tr0.at, ver, round, staged, content) && m.configs[c].View() == tr0.at.reg
    requires forall i :: i >= deadline ==> turns(i).x.giveUp
    modifies m.configs[c], m.storage, m.cache, m.notifier
    ensures Ended(m, c, tr) && Moved(m, c, tr) && tr == tr0.(k := tr.k, at := tr.at)
    ensures m.configs[c].View() == if ok then Served(tr0.at) else Unstage(tr0.at.reg, round)
  {
    hide CycleRun, CycleStep, Tracks, Sane, AllPrepared;
    var k;
    ok, k, tr := WaitPrepares(m, c, ver.raw, target, turns, 5, deadline, tr0);
    if !ok {
      tr := AbortRound(m, c, ver.raw, round, turns, k, tr);
      return;
    }
    ok, tr := ActivateNext(m, c, turns(k), ver.raw, tr);
    if !ok {
      tr := AbortRound(m, c, ver.raw, round, turns, k + 1, tr);
      return;
    }
    tr := CommitRound(m, c, ver, round, staged, content, turns, k + 1, tr);
  }

  /** Past the decision nothing fails the round: announce, apply, record, cache. */
  method CommitRound(m: Manager, c: string, ver: Version, round: string, staged: Staged, content: Bytes,
                     turns: nat -> Turn, k: nat, ghost tr0: Trail)
    returns (ghost tr: Trail)
    requires c in m.configs && Midway(m, c, tr0, Announcing) && tr0.k == k && tr0.turns == turns
    requires Carries(tr0.at, ver, round, staged, content) && tr0.at.cyc.unanimous && m.configs[c].View() == tr0.at.reg
    modifies m.configs[c], m.storage, m.cache, m.notifier
    ensures Ended(m, c, tr) && Moved(m, c, tr) && tr == tr0.(k := tr.k, at := tr.at)
    ensures m.configs[c].View() == Served(tr0.at)
  {
    hide CycleRun, CycleStep, Tracks, Sane;
    StagedIsThere(tr0.at, turns(k).x.panics);
    tr := CommitNext(m, c, turns(k), ver.raw, round, tr0);
    var ok := ApplyStagedValue(m.configs[c], round, staged, ver, turns(k).x.panics);
    if !ok {
      assert false; // the staged value is where the cycle put it
    }
    tr := WindUp(m, c, ver.raw, content, turns, k + 1, tr);
  }

  /** This instance's outcome, the cache, and a sync event for whoever missed the commit. */
  method WindUp(m: Manager, c: string, v: string, content: Bytes, turns: nat -> Turn, k: nat, ghost tr0: Trail)
    returns (ghost tr: Trail)
    requires Midway(m, c, tr0, Recording) && tr0.k == k && tr0.turns == turns
    requires tr0.at.cyc.ver.raw == v && tr0.at.cyc.content == content && tr0.at.cyc.unanimous
    modifies m.storage, m.cache, m.notifier
    ensures Moved(m, c, tr) && tr == tr0.(k := k + 3, at := Go(tr0.at, Finished))
  {
    hide CycleRun, CycleStep, Tracks, Sane;
    tr := RecordNext(m, c, turns(k), v, Committed, tr0);
    tr := CacheNext(m, c, turns(k + 1), v, content, tr);
    tr := CloseNext(m, c, turns(k + 2), v, tr);
  }
}
