/** What a whole leader cycle amounts to when nothing fails and nobody interferes, and what an
    aborted round leaves behind. */
module Outcomes {
  import opened Wrappers
  import opened Versions
  import opened Tables
  import opened Registration
  import opened Protocol
  import opened Leaders

  /** Every call succeeds and the others hold still. */
  ghost predicate Clear(turns: nat -> Turn) {
    forall k: nat, sh: Shared :: turns(k).others(sh) == sh && turns(k).x.call == Done
  }

  lemma ClearStep(o: Options, me: string, l0: Local, sh0: Shared, turns: nat -> Turn, n: nat, l: Local, sh: Shared)
    requires Clear(turns) && CycleRun(o, me, l0, sh0, turns, n) == (l, sh)
    ensures CycleRun(o, me, l0, sh0, turns, n + 1) == CycleStep(o, me, l, sh, turns(n).x) && turns(n).x.call == Done
  {
    OneMore(o, me, l0, sh0, turns, n, l, sh);
  }

  /** The staged value is in the map under its round. */
  ghost predicate Holding(l: Local) {
    && l.cyc.round in l.reg.staged && l.reg.staged[l.cyc.round] == l.cyc.staged && l.cyc.staged.ver == l.cyc.ver
  }

  lemma Activates(o: Options, me: string, l: Local, sh: Shared, x: Input)
    requires l.cyc.phase.Activating? && Holding(l) && l.cyc.ver.raw in sh.table.rows && x.call == Done
    ensures CycleStep(o, me, l, sh, x) == (Go(if l.cyc.unanimous then l else l.(reg := Served(l)), Announcing),
                                           sh.(table := Activate(sh.table, l.cyc.ver.raw)))
    ensures Activate(sh.table, l.cyc.ver.raw).log == sh.table.log
  {
    StagedIsThere(l, x.panics);
    hide AfterCommitStaged;
  }

  lemma CommitsOpenly(o: Options, me: string, l: Local, sh: Shared, x: Input)
    requires l.cyc.phase.Announcing? && l.cyc.unanimous && Holding(l) && x.call == Done
    ensures CycleStep(o, me, l, sh, x) == (Go(l.(reg := Served(l)), Recording),
                                           sh.(sent := sh.sent + {Event(Commit, l.cyc.ver.raw, l.cyc.round, me)}))
  {
    StagedIsThere(l, x.panics);
    hide AfterCommitStaged;
  }

  lemma Saves(o: Options, me: string, l: Local, sh: Shared, x: Input)
    requires l.cyc.phase.Saving? && x.call == Done
    ensures CycleStep(o, me, l, sh, x) == (Go(l, if l.cyc.unanimous then Resetting else Activating),
                                           sh.(table := Save(sh.table, l.cyc.ver.raw, l.cyc.content, x.now)))
    ensures var t := Save(sh.table, l.cyc.ver.raw, l.cyc.content, x.now);
            l.cyc.ver.raw in t.rows && t.log == sh.table.log
  {
  }

  /** The tail of an eventually-consistent cycle: announce, cache, record. */
  lemma TellsCachesRecords(o: Options, me: string, l0: Local, sh0: Shared, turns: nat -> Turn, n: nat,
                           l: Local, sh: Shared)
    requires Clear(turns) && CycleRun(o, me, l0, sh0, turns, n) == (l, sh)
    requires l.cyc.phase.Announcing? && !l.cyc.unanimous
    ensures var v := l.cyc.ver.raw; var (l', sh') := CycleRun(o, me, l0, sh0, turns, n + 3);
            && l' == Go(l, Finished) && sh'.table == Log(sh.table, me, v, Applied)
            && sh'.sent == sh.sent + {Event(Sync, v, "", me)}
            && sh'.cache == if o.cacheWrites then Some(Entry(v, l.cyc.content)) else sh.cache
  {
    var v := l.cyc.ver.raw;
    var told := sh.(sent := sh.sent + {Event(Sync, v, "", me)});
    hide CycleRun, Clear, Activate;
    ClearStep(o, me, l0, sh0, turns, n, l, sh);
    ClearStep(o, me, l0, sh0, turns, n + 1, Go(l, Caching), told);
    ClearStep(o, me, l0, sh0, turns, n + 2, Go(l, Recording), WriteCache(o, told, Entry(v, l.cyc.content), Done));
  }

  /** The tail of a decided round: record, cache, and a sync for whoever missed the commit. */
  lemma RecordsCachesTells(o: Options, me: string, l0: Local, sh0: Shared, turns: nat -> Turn, n: nat,
                           l: Local, sh: Shared)
    requires Clear(turns) && CycleRun(o, me, l0, sh0, turns, n) == (l, sh) && l.cyc.phase.Recording? && l.cyc.unanimous
    ensures var v := l.cyc.ver.raw; var (l', sh') := CycleRun(o, me, l0, sh0, turns, n + 3);
            && l' == Go(l, Finished) && sh'.table == Log(sh.table, me, v, Committed)
            && sh'.sent == sh.sent + {Event(Sync, v, "", me)}
            && sh'.cache == if o.cacheWrites then Some(Entry(v, l.cyc.content)) else sh.cache
  {
    var v := l.cyc.ver.raw;
    var logged := sh.(table := Log(sh.table, me, v, Committed));
    hide CycleRun, Clear, Activate;
    ClearStep(o, me, l0, sh0, turns, n, l, sh);
    ClearStep(o, me, l0, sh0, turns, n + 1, Go(l, Caching), logged);
    ClearStep(o, me, l0, sh0, turns, n + 2, Go(l, Closing), WriteCache(o, logged, Entry(v, l.cyc.content), Done));
  }

  /** An undisturbed eventually-consistent cycle, from the staged value to the end: its version
      is active with the stored bytes, it is served here, announced, cached and recorded, and
      nothing else has changed. */
  lemma CleanCycle(o: Options, me: string, l: Local, sh: Shared, turns: nat -> Turn)
    requires Clear(turns) && Holding(l) && l.cyc.phase.Saving? && !l.cyc.unanimous
    ensures var (l', sh') := CycleRun(o, me, l, sh, turns, 5); var v := l.cyc.ver.raw;
            && l'.cyc.phase.Finished? && l'.reg == Served(l)
            && sh'.table.rows == Activate(Save(sh.table, v, l.cyc.content, turns(0).x.now), v).rows
            && ActiveSet(sh'.table) == {v}
            && sh'.table.log == sh.table.log[(me, v) := Applied]
            && sh'.sent == sh.sent + {Event(Sync, v, "", me)}
            && sh'.cache == if o.cacheWrites then Some(Entry(v, l.cyc.content)) else sh.cache
  {
    hide CycleRun, CycleStep, Activate, ActiveSet, Save, Clear;
    var v := l.cyc.ver.raw;
    var saved := sh.(table := Save(sh.table, v, l.cyc.content, turns(0).x.now));
    var active := saved.(table := Activate(saved.table, v));
    NoSteps(o, me, l, sh, turns);
    ClearStep(o, me, l, sh, turns, 0, l, sh);
    Saves(o, me, l, sh, turns(0).x);
    ClearStep(o, me, l, sh, turns, 1, Go(l, Activating), saved);
    Activates(o, me, Go(l, Activating), saved, turns(1).x);
    TellsCachesRecords(o, me, l, sh, turns, 2, Go(l.(reg := Served(l)), Announcing), active);
    OnlyActive(saved.table, Log(active.table, me, v, Applied), v);
  }

  /** An undisturbed opening of a 2PC round: the snapshot is stored, this version's log holds
      the leader's own prepare and nothing else, the target set is what the registry said, and
      the followers have been asked; nothing is served or activated yet. */
  lemma CleanOpening(o: Options, me: string, l: Local, sh: Shared, turns: nat -> Turn)
    requires Clear(turns) && l.cyc.phase.Saving? && l.cyc.unanimous
    ensures var (l', sh') := CycleRun(o, me, l, sh, turns, 5); var v, ids := l.cyc.ver.raw, turns(2).x.ids;
            && l' == l.(cyc := l.cyc.(target := ids, phase := if ids == {} then Activating else PollAlive))
            && sh'.table.rows == Save(sh.table, v, l.cyc.content, turns(0).x.now).rows
            && sh'.table.log == ResetLog(sh.table, v).log[(me, v) := Prepared]
            && sh'.sent == sh.sent + {Event(Prepare, v, l.cyc.round, me)}
            && sh'.cache == sh.cache
  {
    var v := l.cyc.ver.raw;
    var saved := sh.(table := Save(sh.table, v, l.cyc.content, turns(0).x.now));
    var reset := saved.(table := ResetLog(saved.table, v));
    var chosen := l.(cyc := l.cyc.(target := turns(2).x.ids, phase := SelfLogging));
    var logged := reset.(table := Log(reset.table, me, v, Prepared));
    NoSteps(o, me, l, sh, turns);
    hide CycleRun, Clear;
    ClearStep(o, me, l, sh, turns, 0, l, sh);
    ClearStep(o, me, l, sh, turns, 1, Go(l, Resetting), saved);
    ClearStep(o, me, l, sh, turns, 2, Go(l, Targeting), reset);
    ClearStep(o, me, l, sh, turns, 3, chosen, reset);
    ClearStep(o, me, l, sh, turns, 4, Go(chosen, Preparing), logged);
  }

  /** An undisturbed close of a decided round: active, served, announced as committed and, for
      whoever missed that, as a sync; recorded as committed, cached. */
  lemma CleanCommit(o: Options, me: string, l: Local, sh: Shared, turns: nat -> Turn)
    requires Clear(turns) && Holding(l) && l.cyc.phase.Activating? && l.cyc.unanimous && l.cyc.ver.raw in sh.table.rows
    ensures var (l', sh') := CycleRun(o, me, l, sh, turns, 5); var v := l.cyc.ver.raw;
            && l'.cyc.phase.Finished? && l'.reg == Served(l)
            && sh'.table.rows == Activate(sh.table, v).rows && ActiveSet(sh'.table) == {v}
            && sh'.table.log == sh.table.log[(me, v) := Committed]
            && sh'.sent == sh.sent + {Event(Commit, v, l.cyc.round, me)} + {Event(Sync, v, "", me)}
            && sh'.cache == if o.cacheWrites then Some(Entry(v, l.cyc.content)) else sh.cache
  {
    hide CycleRun, CycleStep, Activate, ActiveSet, Clear;
    var v := l.cyc.ver.raw;
    var active := sh.(table := Activate(sh.table, v));
    var told := active.(sent := active.sent + {Event(Commit, v, l.cyc.round, me)});
    NoSteps(o, me, l, sh, turns);
    ClearStep(o, me, l, sh, turns, 0, l, sh);
    Activates(o, me, l, sh, turns(0).x);
    ClearStep(o, me, l, sh, turns, 1, Go(l, Announcing), active);
    CommitsOpenly(o, me, Go(l, Announcing), active, turns(1).x);
    RecordsCachesTells(o, me, l, sh, turns, 2, Go(l.(reg := Served(l)), Recording), told);
    OnlyActive(sh.table, Log(active.table, me, v, Committed), v);
  }

  lemma AbortStep(o: Options, me: string, l: Local, sh: Shared, x: Input)
    requires x.call == Done
    ensures var v, round := l.cyc.ver.raw, l.cyc.round;
            match l.cyc.phase
            case Aborting =>
              CycleStep(o, me, l, sh, x) == (Go(l.(reg := Unstage(l.reg, round)), Vetting),
                                             sh.(sent := sh.sent + {Event(Abort, v, round, me)}))
            case Vetting =>
              var next := if ActiveVersion(sh.table) == Some(v) then Finished else Failing;
              CycleStep(o, me, l, sh, x) == (Go(l, next), sh)
            case Failing => CycleStep(o, me, l, sh, x) == (Go(l, Finished), sh.(table := Fail(sh.table, v)))
            case _ => true
  {
    hide Activate, ActiveSet, Fail;
  }

  /** An undisturbed abort announces itself, drops the staged value, and marks the snapshot
      failed exactly when it is not the active one; what is served, cached and active stays. */
  lemma CleanAbort(o: Options, me: string, l: Local, sh: Shared, turns: nat -> Turn)
    requires Clear(turns) && l.cyc.phase.Aborting? && OneActive(sh.table)
    ensures var n := if l.cyc.ver.raw in ActiveSet(sh.table) then 2 else 3;
            var (l', sh') := CycleRun(o, me, l, sh, turns, n); var v := l.cyc.ver.raw;
            && l'.cyc.phase.Finished? && l'.reg == Unstage(l.reg, l.cyc.round)
            && sh'.sent == sh.sent + {Event(Abort, v, l.cyc.round, me)} && sh'.cache == sh.cache
            && sh'.table == (if v in ActiveSet(sh.table) then sh.table else Fail(sh.table, v))
            && ActiveSet(sh'.table) == ActiveSet(sh.table)
  {
    var v := l.cyc.ver.raw;
    var told := sh.(sent := sh.sent + {Event(Abort, v, l.cyc.round, me)});
    var dropped := l.(reg := Unstage(l.reg, l.cyc.round));
    ActiveSetKept(sh.table, v, [], 0, me, Prepared, 0);
    assert ActiveVersion(sh.table) == Some(v) <==> v in ActiveSet(sh.table);
    NoSteps(o, me, l, sh, turns);
    hide CycleRun, CycleStep, Clear, ActiveVersion, ActiveSet, Fail;
    ClearStep(o, me, l, sh, turns, 0, l, sh);
    AbortStep(o, me, l, sh, turns(0).x);
    ClearStep(o, me, l, sh, turns, 1, Go(dropped, Vetting), told);
    AbortStep(o, me, Go(dropped, Vetting), told, turns(1).x);
    if v !in ActiveSet(sh.table) {
      ClearStep(o, me, l, sh, turns, 2, Go(dropped, Failing), told);
      AbortStep(o, me, Go(dropped, Failing), told, turns(2).x);
    }
  }

  /** The accesses up to the prepare event, and an eventually-consistent activation: where a
      cycle can still be given up without a word. */
  predicate Quiet(cy: Cycle) {
    match cy.phase
    case Saving | Resetting | Targeting | SelfLogging | Preparing => true
    case Activating => !cy.unanimous
    case _ => false
  }

  /** From the prepare event to the decision: where a round can only be aborted. */
  predicate Pledged(cy: Cycle) {
    match cy.phase
    case PollAlive | PollFailed | PollPrepared => true
    case Activating => cy.unanimous
    case _ => false
  }

  /** Where an error ends the cycle and leaves what it has. */
  predicate Stops(cy: Cycle) {
    match cy.phase
    case Vetting | RepairProbe | RepairLoad => true
    case Announcing => !cy.unanimous
    case _ => false
  }

  /** Where an error is only logged. */
  predicate CarriesOn(cy: Cycle) {
    match cy.phase
    case Recording | Caching | Closing | Aborting | Failing | RepairWrite => true
    case Announcing => cy.unanimous
    case _ => false
  }

  /** What an error does, wherever it falls. Before the others were asked the cycle ends there and
      drops its staged value; once they were asked the round is aborted; an unheard sync event
      ends an eventually-consistent cycle, which serves its value already; a repair or a vetting
      that cannot read ends without writing; past the decision an error changes nothing. And an
      error says nothing about the write: a refused one had no effect, an ambiguous one had all
      of it. */
  lemma FailedCall(o: Options, me: string, l: Local, sh: Shared, x: Input)
    requires !x.call.Done?
    ensures var (l', sh') := CycleStep(o, me, l, sh, x); var done := CycleStep(o, me, l, sh, x.(call := Done));
            && sh' == (if x.call.Refused? then sh else done.1)
            && (Quiet(l.cyc) ==>
                  l'.cyc.phase.Finished? && l'.reg == l.reg.(staged := l.reg.staged - {l.cyc.round}))
            && (Pledged(l.cyc) ==> l' == l.(cyc := l.cyc.(phase := Aborting)))
            && (Stops(l.cyc) ==> l' == l.(cyc := l.cyc.(phase := Finished)))
            && (CarriesOn(l.cyc) ==> l' == done.0)
  {
    hide Save, Log, ResetLog, Fail, SomeFailed, AllPrepared, AfterCommitStaged, ActiveVersion;
  }

  /** One look at the targets, without errors: the registry is read afresh; a target that is alive
      and refused ends the wait; the round goes on to activate exactly when every target alive has
      prepared, and otherwise looks again until the wait is over. */
  lemma Polls(o: Options, me: string, l: Local, sh: Shared, x: Input)
    requires x.call == Done && l.cyc.phase in {PollAlive, PollFailed, PollPrepared}
    ensures var (l', sh') := CycleStep(o, me, l, sh, x); var cy, log := l.cyc, sh.table.log; var v := cy.ver.raw;
            && sh' == sh && l'.reg == l.reg && l'.cyc == cy.(phase := l'.cyc.phase, alive := l'.cyc.alive)
            && (cy.phase.PollAlive? ==> l'.cyc.phase.PollFailed? && l'.cyc.alive == x.ids)
            && (!cy.phase.PollAlive? ==> l'.cyc.alive == cy.alive)
            && (cy.phase.PollFailed? ==>
                  l'.cyc.phase ==
                  if exists id :: id in cy.target && id in cy.alive && (id, v) in log && log[(id, v)] == PrepareFailed
                  then Aborting else PollPrepared)
            && (cy.phase.PollPrepared? ==>
                  l'.cyc.phase ==
                  if forall id :: id in cy.target && id in cy.alive ==> (id, v) in log && log[(id, v)] == Prepared
                  then Activating else if x.giveUp then Aborting else PollAlive)
  {
    assert forall id :: id in l.cyc.target * l.cyc.alive <==> id in l.cyc.target && id in l.cyc.alive;
  }

  lemma RepairStep(o: Options, me: string, l: Local, sh: Shared, x: Input, v: string)
    requires x.call == Done && ActiveSet(sh.table) == {v}
    ensures v in sh.table.rows
    ensures var data := sh.table.rows[v].content;
            match l.cyc.phase
            case RepairProbe =>
              var next := if o.cacheWrites && sh.cache.None? then RepairLoad else Finished;
              CycleStep(o, me, l, sh, x) == (Go(l, next), sh)
            case RepairLoad =>
              var cy := l.cyc.(phase := RepairWrite, ver := Version(v, 0), content := data);
              CycleStep(o, me, l, sh, x) == (l.(cyc := cy), sh)
            case RepairWrite =>
              var cache := if o.cacheWrites then Some(Entry(l.cyc.ver.raw, l.cyc.content)) else sh.cache;
              CycleStep(o, me, l, sh, x) == (Go(l, Finished), sh.(cache := cache))
            case Finished => CycleStep(o, me, l, sh, x) == (l, sh)
            case _ => true
  {
    assert v in ActiveSet(sh.table);
    assert ActiveVersion(sh.table) == Some(v);
    hide ActiveSet, ActiveVersion;
  }

  /** An undisturbed repair fills a missing cache entry from the active snapshot, leaves one that
      is there, and changes nothing else. */
  lemma CleanRepair(o: Options, me: string, l: Local, sh: Shared, turns: nat -> Turn, v: string)
    requires Clear(turns) && l.cyc.phase.RepairProbe? && ActiveSet(sh.table) == {v}
    ensures v in sh.table.rows
    ensures var (l', sh') := CycleRun(o, me, l, sh, turns, 3);
            && l'.cyc.phase.Finished? && l'.reg == l.reg && sh'.table == sh.table && sh'.sent == sh.sent
            && sh'.cache == if o.cacheWrites && sh.cache.None? then Some(Entry(v, sh.table.rows[v].content))
                            else sh.cache
  {
    NoSteps(o, me, l, sh, turns);
    hide CycleRun, CycleStep, Clear, ActiveSet;
    ClearStep(o, me, l, sh, turns, 0, l, sh);
    RepairStep(o, me, l, sh, turns(0).x, v);
    var (l1, sh1) := CycleRun(o, me, l, sh, turns, 1);
    ClearStep(o, me, l, sh, turns, 1, l1, sh1);
    RepairStep(o, me, l1, sh1, turns(1).x, v);
    var (l2, sh2) := CycleRun(o, me, l, sh, turns, 2);
    ClearStep(o, me, l, sh, turns, 2, l2, sh2);
    RepairStep(o, me, l2, sh2, turns(2).x, v);
  }

  lemma NoSteps(o: Options, me: string, l: Local, sh: Shared, turns: nat -> Turn)
    ensures CycleRun(o, me, l, sh, turns, 0) == (l, sh)
  {
  }

  lemma OnlyActive(t: Table, t': Table, v: string)
    requires v in t.rows && t'.rows == Activate(t, v).rows
    ensures ActiveSet(t') == {v}
  {
    ActivateSwitches(t, v);
    assert ActiveSet(t') == ActiveSet(Activate(t, v));
  }
}
