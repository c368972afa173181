/** The inductive invariant of every run, in both modes, and what follows from it. */
module Safety {
  import opened Wrappers
  import opened Versions
  import opened Tables
  import opened Registration
  import opened Protocol
  import opened Cluster

  // `ever` is the set of versions that have been active in storage at some point of the run.

  /** At most one active row; and once a row has been active, one always is. */
  ghost predicate TableOk(t: Table, ever: set<string>) {
    && OneActive(t)
    && ActiveSet(t) <= ever
    && (ever != {} ==> ActiveSet(t) != {})
  }

  predicate Decides(e: Event, round: string) {
    e.round == round && (e.action == Commit || e.action == Abort)
  }

  ghost predicate EventOk(e: Event, issued: map<string, string>, ever: set<string>) {
    && (e.action == Sync || e.action == Commit ==> e.version in ever)
    && (e.action == Prepare || e.action == Commit || e.action == Abort ==>
          e.round in issued && issued[e.round] == e.version)
  }

  ghost predicate SentOk(sent: set<Event>, issued: map<string, string>, ever: set<string>) {
    && (forall e :: e in sent ==> EventOk(e, issued, ever))
    && (forall e, f :: e in sent && f in sent && e.action == Commit && f.action == Abort ==> e.round != f.round)
  }

  predicate Holds(pc: Pc) {
    pc.Elected? || pc.Leading?
  }

  predicate Repairing(p: Phase) {
    p.RepairProbe? || p.RepairLoad? || p.RepairWrite?
  }

  predicate Decided(p: Phase) {
    p.Announcing? || p.Recording? || p.Caching? || p.Closing?
  }

  /** The round's value is still in the staging map. */
  predicate HoldsStage(cy: Cycle) {
    match cy.phase
    case Announcing => cy.unanimous
    case Recording | Caching | Closing | Vetting | Failing | RepairProbe | RepairLoad | RepairWrite | Finished => false
    case _ => true
  }

  ghost predicate CycleOk(sh: Shared, issued: map<string, string>, ever: set<string>, reg: Reg, cy: Cycle) {
    && (!Repairing(cy.phase) && !cy.phase.Finished? ==>
          cy.round in issued && issued[cy.round] == cy.ver.raw && cy.staged.ver == cy.ver)
    && (if HoldsStage(cy) then cy.round !in cy.entry && reg.staged == cy.entry[cy.round := cy.staged]
        else reg.staged == cy.entry)
    && (HoldsStage(cy) ==> forall e :: e in sh.sent ==> !Decides(e, cy.round))
    && (Decided(cy.phase) || cy.phase.RepairWrite? ==> cy.ver.raw in ever)
    && (cy.phase.Failing? ==> cy.ver.raw !in ActiveSet(sh.table))
  }

  ghost predicate RegOk(reg: Reg, issued: map<string, string>, ever: set<string>) {
    && (reg.ver.IsZero() || reg.ver.raw in ever)
    && (forall k :: k in reg.staged ==> k in issued && reg.staged[k].ver.raw == issued[k])
  }

  ghost predicate NodeOk(s: System, ever: set<string>, id: string, n: Node) {
    && RegOk(n.reg, s.issued, ever)
    && (Holds(n.pc) ==> s.lock == Replica(id))
    && (n.pc.Reverting? ==> n.pc.entry.version in ever)
    && (n.pc.Leading? ==> CycleOk(s.sh, s.issued, ever, n.reg, n.pc.cyc))
  }

  ghost predicate SharedOk(sh: Shared, issued: map<string, string>, ever: set<string>) {
    && TableOk(sh.table, ever)
    && (sh.cache.Some? ==> sh.cache.value.version in ever)
    && SentOk(sh.sent, issued, ever)
  }

  ghost predicate Inv(s: System, ever: set<string>) {
    && SharedOk(s.sh, s.issued, ever)
    && forall id :: id in s.nodes ==> NodeOk(s, ever, id, s.nodes[id])
  }

  /** One replica changed and nothing shared did, besides the lock as its state requires. */
  lemma LocalStep(s: System, s': System, ever: set<string>, id: string, n: Node)
    requires Inv(s, ever) && id in s.nodes
    requires s'.sh == s.sh && s'.issued == s.issued && s'.nodes == s.nodes[id := n]
    requires s'.lock == s.lock || (s.lock == Free) || (Holds(s.nodes[id].pc) && !Holds(n.pc))
    requires NodeOk(s', ever, id, n)
    ensures Inv(s', ever)
  {
  }

  ghost function Seen(ever: set<string>, s: System): set<string> {
    ever + ActiveSet(s.sh.table)
  }

  // ---------------------------------------------------------------- local steps

  /** A handler that reads the version an event names serves or stages only that. */
  lemma ReadersKeep(o: Options, c: Codec, r: Reg, t: Table, e: Event, ok: bool, panics: bool, now: int,
                    issued: map<string, string>, ever: set<string>)
    requires RegOk(r, issued, ever) && EventOk(e, issued, ever)
    ensures e.action == Sync ==> RegOk(OnSync(o, c, r, t, e, ok, panics).reg, issued, ever)
    ensures e.action == Prepare ==> RegOk(OnPrepare(o, c, r, t, e, ok, now).reg, issued, ever)
    ensures e.action == Commit ==> RegOk(OnCommit(o, c, r, t, e, ok, panics).reg, issued, ever)
    ensures RegOk(Unstage(r, e.round), issued, ever)
  {
    hide Accept;
  }

  lemma RevertKeeps(o: Options, c: Codec, r: Reg, t: Table, ok: bool, panics: bool, issued: map<string, string>,
                    ever: set<string>)
    requires RegOk(r, issued, ever) && ActiveSet(t) <= ever
    ensures var h := OnRollback(o, c, r, ReadActive(t, ok), panics);
            RegOk(h.reg, issued, ever) && (h.cached.Some? ==> h.cached.value.version in ever)
  {
    hide Accept;
  }

  lemma HandleKeeps(w: World, s: System, ever: set<string>, id: string, e: Event, ok: bool, panics: bool, now: int)
    requires Inv(s, ever) && At(s, id, Idle) && e in s.sh.sent
    ensures var n := Handle(w, id, s.nodes[id], s.sh, e, ok, panics, now);
            NodeOk(s, ever, id, n) && !Holds(n.pc)
  {
    hide OnSync, OnPrepare, OnCommit, OnRollback, ReadActive;
    assert EventOk(e, s.issued, ever) && NodeOk(s, ever, id, s.nodes[id]);
    ReadersKeep(w.o, w.codec(id), s.nodes[id].reg, s.sh.table, e, ok, panics, now, s.issued, ever);
    RevertKeeps(w.o, w.codec(id), s.nodes[id].reg, s.sh.table, ok, panics, s.issued, ever);
    hide RegOk, SharedOk;
  }

  /** A new round id is in no staging map, no event and no other cycle. */
  lemma FreshRound(s: System, ever: set<string>, id: string, round: string)
    requires Inv(s, ever) && id in s.nodes && round !in s.issued
    ensures round !in s.nodes[id].reg.staged
    ensures forall e :: e in s.sh.sent ==> !Decides(e, round)
  {
    assert NodeOk(s, ever, id, s.nodes[id]);
    forall e | e in s.sh.sent ensures !Decides(e, round) {
      assert EventOk(e, s.issued, ever);
    }
  }

  /** Issuing a round id disturbs nothing that was there. */
  lemma IssueKeeps(s: System, s': System, ever: set<string>, round: string, v: string)
    requires Inv(s, ever) && round !in s.issued && s' == s.(issued := s.issued[round := v])
    ensures Inv(s', ever)
  {
    forall e | e in s'.sh.sent ensures EventOk(e, s'.issued, ever) {
      assert EventOk(e, s.issued, ever);
    }
    forall x | x in s'.nodes ensures NodeOk(s', ever, x, s'.nodes[x]) {
      assert NodeOk(s, ever, x, s.nodes[x]);
    }
  }

  /** What beginning a cycle leaves in the replica: nothing new, or one staged value. */
  lemma BeginShape(w: World, id: string, r: Reg, src: Source, force: bool, round: string, now: int)
    requires round !in r.staged
    ensures var (r', cy) := BeginCycle(w.o, w.codec(id), r, src, force, round, now);
            && cy.entry == r.staged && cy.round == round && r'.ver == r.ver && r'.items == r.items
            && cy.unanimous == w.o.unanimous
            && (cy.phase.Saving? || cy.phase.Finished? || cy.phase.RepairProbe?)
            && (cy.phase.Saving? ==> r'.staged == r.staged[round := cy.staged] && cy.staged.ver == cy.ver)
            && (!cy.phase.Saving? ==> r' == r)
  {
  }

  lemma BeginKeeps(w: World, s: System, ever: set<string>, a: Step)
    requires Inv(s, ever) && a.Begin? && Enabled(w, s, a)
    ensures Inv(Next(w, s, a), ever)
  {
    var r := s.nodes[a.id].reg;
    var (r', cy) := BeginCycle(w.o, w.codec(a.id), r, a.src, a.force, a.round, a.now);
    var s' := Next(w, s, a);
    FreshRound(s, ever, a.id, a.round);
    BeginShape(w, a.id, r, a.src, a.force, a.round, a.now);
    assert NodeOk(s, ever, a.id, s.nodes[a.id]);
    if cy.phase.Saving? {
      var m := s.(issued := s.issued[a.round := cy.ver.raw]);
      IssueKeeps(s, m, ever, a.round, cy.ver.raw);
      assert NodeOk(m, ever, a.id, m.nodes[a.id]);
      LocalStep(m, s', ever, a.id, s'.nodes[a.id]);
    } else {
      LocalStep(s, s', ever, a.id, s'.nodes[a.id]);
    }
  }

  lemma StartupKeeps(w: World, s: System, ever: set<string>, a: Step)
    requires Inv(s, ever) && Enabled(w, s, a) && (a.WarmUp? || a.Start?)
    ensures Inv(Next(w, s, a), ever)
  {
    var s' := Next(w, s, a);
    assert NodeOk(s, ever, a.id, s.nodes[a.id]);
    assert RegOk(s'.nodes[a.id].reg, s'.issued, ever);
    LocalStep(s, s', ever, a.id, s'.nodes[a.id]);
  }

  lemma CatchUpKeeps(w: World, s: System, ever: set<string>, a: Step)
    requires Inv(s, ever) && Enabled(w, s, a) && (a.Probe? || a.Load?)
    ensures Inv(Next(w, s, a), ever)
  {
    var s' := Next(w, s, a);
    assert NodeOk(s, ever, a.id, s.nodes[a.id]);
    assert RegOk(s'.nodes[a.id].reg, s'.issued, ever);
    LocalStep(s, s', ever, a.id, s'.nodes[a.id]);
  }

  lemma LockKeeps(w: World, s: System, ever: set<string>, a: Step)
    requires Inv(s, ever) && Enabled(w, s, a)
    requires a.Acquire? || a.Release? || a.Repair? || a.SweepStages?
    ensures Inv(Next(w, s, a), ever)
  {
    hide CycleStep, BeginCycle, Handle, CatchUp, LoadCached, LoadStored, SharedOk;
    var s' := Next(w, s, a);
    assert NodeOk(s, ever, a.id, s.nodes[a.id]);
    LocalStep(s, s', ever, a.id, s'.nodes[a.id]);
  }

  lemma LockFreedKeeps(w: World, s: System, ever: set<string>, a: Step)
    requires Inv(s, ever) && Enabled(w, s, a) && (a.Crash? || a.OperatorLock? || a.OperatorUnlock?)
    ensures Inv(Next(w, s, a), ever)
  {
    hide CycleStep, BeginCycle, Handle, CatchUp, LoadCached, LoadStored, SharedOk, CycleOk;
    var s' := Next(w, s, a);
    forall x | x in s'.nodes ensures NodeOk(s', ever, x, s'.nodes[x]) {
      assert NodeOk(s, ever, x, s.nodes[x]);
    }
  }

  lemma DeliverKeeps(w: World, s: System, ever: set<string>, a: Step)
    requires Inv(s, ever) && Enabled(w, s, a) && a.Deliver?
    ensures Inv(Next(w, s, a), ever)
  {
    var s' := Next(w, s, a);
    HandleKeeps(w, s, ever, a.id, a.e, a.ok, a.panics, a.now);
    LocalStep(s, s', ever, a.id, s'.nodes[a.id]);
  }

  // ---------------------------------------------------------------- steps that touch shared state

  /** While one replica leads, no other holds the lock. */
  lemma OneLeader(s: System, ever: set<string>, id: string)
    requires Inv(s, ever) && id in s.nodes && Holds(s.nodes[id].pc)
    ensures forall x :: x in s.nodes && x != id ==> !Holds(s.nodes[x].pc)
  {
    assert NodeOk(s, ever, id, s.nodes[id]);
    forall x | x in s.nodes && x != id ensures !Holds(s.nodes[x].pc) {
      assert NodeOk(s, ever, x, s.nodes[x]);
    }
  }

  lemma SharedStep(s: System, s': System, ever: set<string>, ever': set<string>, id: string, n: Node)
    requires Inv(s, ever) && ever <= ever' && id in s.nodes
    requires s'.nodes == s.nodes[id := n] && s'.issued == s.issued && s'.lock == s.lock
    requires SharedOk(s'.sh, s'.issued, ever')
    requires (ActiveSet(s'.sh.table) == ActiveSet(s.sh.table) && s'.sh.sent == s.sh.sent)
             || forall x :: x in s.nodes && x != id ==> !Holds(s.nodes[x].pc)
    requires NodeOk(s', ever', id, n)
    ensures Inv(s', ever')
  {
    forall x | x in s'.nodes ensures NodeOk(s', ever', x, s'.nodes[x]) {
      assert NodeOk(s, ever, x, s.nodes[x]);
    }
  }

  /** Adding an event that is itself in order and settles no round twice. */
  lemma PublishKeeps(sent: set<Event>, issued: map<string, string>, ever: set<string>, e: Event)
    requires SentOk(sent, issued, ever) && EventOk(e, issued, ever)
    requires e.action == Commit || e.action == Abort ==> forall f :: f in sent ==> !Decides(f, e.round)
    ensures SentOk(sent + {e}, issued, ever)
  {
  }

  lemma FlushKeeps(w: World, s: System, ever: set<string>, a: Step)
    requires Inv(s, ever) && Enabled(w, s, a) && (a.Flush? || a.CacheWrite?)
    ensures Inv(Next(w, s, a), ever)
  {
    var s' := Next(w, s, a);
    assert NodeOk(s, ever, a.id, s.nodes[a.id]);
    assert ActiveSet(s'.sh.table) == ActiveSet(s.sh.table);
    SharedStep(s, s', ever, ever, a.id, s'.nodes[a.id]);
  }

  lemma PruneKeeps(w: World, s: System, ever: set<string>, a: Step)
    requires Inv(s, ever) && Enabled(w, s, a) && a.PruneRows?
    ensures Inv(Next(w, s, a), ever)
  {
    var s' := Next(w, s, a);
    ActiveSetKept(s.sh.table, "", [], 0, "", Applied, a.cutoff);
    assert NodeOk(s, ever, a.id, s.nodes[a.id]);
    SharedStep(s, s', ever, ever, a.id, s.nodes[a.id]);
  }

  lemma OperatorActivateKeeps(w: World, s: System, ever: set<string>, a: Step)
    requires Inv(s, ever) && Enabled(w, s, a) && a.OperatorActivate?
    ensures Inv(Next(w, s, a), Seen(ever, Next(w, s, a)))
  {
    var s' := Next(w, s, a);
    ActivateSwitches(s.sh.table, a.v);
    forall x | x in s'.nodes ensures NodeOk(s', Seen(ever, s'), x, s'.nodes[x]) {
      assert NodeOk(s, ever, x, s.nodes[x]);
    }
    assert TableOk(s'.sh.table, Seen(ever, s'));
  }

  lemma OperatorAnnounceKeeps(w: World, s: System, ever: set<string>, a: Step)
    requires Inv(s, ever) && Enabled(w, s, a) && a.OperatorAnnounce?
    ensures Inv(Next(w, s, a), ever)
  {
    var s' := Next(w, s, a);
    PublishKeeps(s.sh.sent, s.issued, ever, ROLLBACK);
    forall x | x in s'.nodes ensures NodeOk(s', ever, x, s'.nodes[x]) {
      assert NodeOk(s, ever, x, s.nodes[x]);
    }
  }

  /** A replica inside a cycle, and the shared state it sees. */
  ghost predicate MidCycle(l: Local, sh: Shared, issued: map<string, string>, ever: set<string>) {
    RegOk(l.reg, issued, ever) && SharedOk(sh, issued, ever) && CycleOk(sh, issued, ever, l.reg, l.cyc)
  }

  ghost predicate CycleKept(o: Options, me: string, l: Local, sh: Shared, x: Input,
                            issued: map<string, string>, ever: set<string>) {
    var (l', sh') := CycleStep(o, me, l, sh, x);
    MidCycle(l', sh', issued, ever + ActiveSet(sh'.table)) && l'.cyc.entry == l.cyc.entry
  }

  lemma SameEver(t: Table, ever: set<string>)
    requires ActiveSet(t) <= ever
    ensures ever + ActiveSet(t) == ever
  {
  }

  lemma DropsStage(l: Local)
    requires l.cyc.round !in l.cyc.entry && l.reg.staged == l.cyc.entry[l.cyc.round := l.cyc.staged]
    ensures l.reg.staged - {l.cyc.round} == l.cyc.entry
  {
  }

  /** A write that leaves the active row, the events and the cache alone disturbs no cycle. */
  lemma QuietWrite(l: Local, sh: Shared, sh': Shared, issued: map<string, string>, ever: set<string>)
    requires MidCycle(l, sh, issued, ever) && sh'.sent == sh.sent && sh'.cache == sh.cache
    requires ActiveSet(sh'.table) == ActiveSet(sh.table)
    ensures MidCycle(l, sh', issued, ever) && ever + ActiveSet(sh'.table) == ever
  {
  }

  /** The error exits before the decision put the staging map back. */
  lemma GiveUpOk(l: Local, sh: Shared, issued: map<string, string>, ever: set<string>)
    requires MidCycle(l, sh, issued, ever) && HoldsStage(l.cyc)
    ensures MidCycle(GiveUp(l), sh, issued, ever) && GiveUp(l).reg.staged == l.cyc.entry
  {
    DropsStage(l);
  }

  predicate Undecided(p: Phase) {
    match p
    case Saving | Resetting | Targeting | SelfLogging | Preparing => true
    case PollAlive | PollFailed | PollPrepared | Activating | Aborting => true
    case _ => false
  }

  lemma UndecidedOk(l: Local, l': Local, sh: Shared, issued: map<string, string>, ever: set<string>)
    requires MidCycle(l, sh, issued, ever) && Undecided(l.cyc.phase) && Undecided(l'.cyc.phase)
    requires l'.reg == l.reg && l'.cyc.entry == l.cyc.entry && l'.cyc.round == l.cyc.round
    requires l'.cyc.ver == l.cyc.ver && l'.cyc.staged == l.cyc.staged
    ensures MidCycle(l', sh, issued, ever)
  {
  }

  lemma SavingStep(o: Options, me: string, l: Local, sh: Shared, x: Input, issued: map<string, string>,
                   ever: set<string>)
    requires MidCycle(l, sh, issued, ever)
    requires var p := l.cyc.phase; p.Saving? || p.Resetting? || p.Targeting? || p.SelfLogging?
    ensures CycleKept(o, me, l, sh, x, issued, ever)
  {
    var (l', sh') := CycleStep(o, me, l, sh, x);
    ActiveSetKept(sh.table, l.cyc.ver.raw, l.cyc.content, x.now, me, Prepared, 0);
    QuietWrite(l, sh, sh', issued, ever);
    if !x.call.Done? {
      GiveUpOk(l, sh', issued, ever);
    } else {
      UndecidedOk(l, l', sh', issued, ever);
    }
  }

  lemma PollStep(o: Options, me: string, l: Local, sh: Shared, x: Input, issued: map<string, string>, ever: set<string>)
    requires MidCycle(l, sh, issued, ever)
    requires var p := l.cyc.phase; p.PollAlive? || p.PollFailed? || p.PollPrepared?
    ensures CycleKept(o, me, l, sh, x, issued, ever)
  {
    hide ActiveSet, OneActive, SentOk, SomeFailed, AllPrepared, Activate;
    SameEver(sh.table, ever);
  }

  lemma FailingStep(o: Options, me: string, l: Local, sh: Shared, x: Input, issued: map<string, string>,
                    ever: set<string>)
    requires MidCycle(l, sh, issued, ever)
    requires l.cyc.phase.Vetting? || l.cyc.phase.Failing?
    ensures CycleKept(o, me, l, sh, x, issued, ever)
  {
    hide SentOk, SomeFailed, AllPrepared, Activate, ApplyStaged;
    var (l', sh') := CycleStep(o, me, l, sh, x);
    ActiveSetKept(sh.table, l.cyc.ver.raw, [], 0, me, Applied, 0);
    SameEver(sh.table, ever);
    if l.cyc.phase.Failing? {
      assert ActiveSet(sh'.table) == ActiveSet(sh.table);
    }
  }

  lemma RepairStep(o: Options, me: string, l: Local, sh: Shared, x: Input, issued: map<string, string>,
                   ever: set<string>)
    requires MidCycle(l, sh, issued, ever)
    requires Repairing(l.cyc.phase) || l.cyc.phase.Caching? || l.cyc.phase.Finished?
    ensures CycleKept(o, me, l, sh, x, issued, ever)
  {
    hide ActiveSet, OneActive, SentOk, SomeFailed, AllPrepared, Activate;
    SameEver(sh.table, ever);
  }

  lemma RecordingStep(o: Options, me: string, l: Local, sh: Shared, x: Input, issued: map<string, string>,
                      ever: set<string>)
    requires MidCycle(l, sh, issued, ever) && l.cyc.phase.Recording?
    ensures CycleKept(o, me, l, sh, x, issued, ever)
  {
    var (l', sh') := CycleStep(o, me, l, sh, x);
    assert ActiveSet(sh'.table) == ActiveSet(sh.table);
    SameEver(sh.table, ever);
  }

  lemma PreparingStep(o: Options, me: string, l: Local, sh: Shared, x: Input, issued: map<string, string>,
                      ever: set<string>)
    requires MidCycle(l, sh, issued, ever) && l.cyc.phase.Preparing?
    ensures CycleKept(o, me, l, sh, x, issued, ever)
  {
    var (l', sh') := CycleStep(o, me, l, sh, x);
    PublishKeeps(sh.sent, issued, ever, Event(Prepare, l.cyc.ver.raw, l.cyc.round, me));
    SameEver(sh.table, ever);
    assert MidCycle(l, sh', issued, ever);
    if !x.call.Done? {
      GiveUpOk(l, sh', issued, ever);
    } else {
      UndecidedOk(l, l', sh', issued, ever);
    }
  }

  lemma ClosingStep(o: Options, me: string, l: Local, sh: Shared, x: Input, issued: map<string, string>,
                    ever: set<string>)
    requires MidCycle(l, sh, issued, ever) && l.cyc.phase.Closing?
    ensures CycleKept(o, me, l, sh, x, issued, ever)
  {
    hide ActiveSet, OneActive, SentOk, SomeFailed, AllPrepared, Activate, ApplyStaged;
    PublishKeeps(sh.sent, issued, ever, Event(Sync, l.cyc.ver.raw, "", me));
    SameEver(sh.table, ever);
  }

  lemma AbortingStep(o: Options, me: string, l: Local, sh: Shared, x: Input, issued: map<string, string>,
                     ever: set<string>)
    requires MidCycle(l, sh, issued, ever) && l.cyc.phase.Aborting?
    ensures CycleKept(o, me, l, sh, x, issued, ever)
  {
    hide ActiveSet, OneActive, SentOk, SomeFailed, AllPrepared, Activate, ApplyStaged;
    PublishKeeps(sh.sent, issued, ever, Event(Abort, l.cyc.ver.raw, l.cyc.round, me));
    SameEver(sh.table, ever);
    DropsStage(l);
  }

  lemma AnnouncingStep(o: Options, me: string, l: Local, sh: Shared, x: Input, issued: map<string, string>,
                       ever: set<string>)
    requires MidCycle(l, sh, issued, ever) && l.cyc.phase.Announcing?
    ensures CycleKept(o, me, l, sh, x, issued, ever)
  {
    hide ActiveSet, OneActive, SentOk, SomeFailed, AllPrepared, Activate;
    var cy := l.cyc;
    SameEver(sh.table, ever);
    if cy.unanimous {
      DropsStage(l);
      PublishKeeps(sh.sent, issued, ever, Event(Commit, cy.ver.raw, cy.round, me));
    } else {
      PublishKeeps(sh.sent, issued, ever, Event(Sync, cy.ver.raw, "", me));
    }
  }

  lemma ActivatedOk(l: Local, sh: Shared, call: Call, issued: map<string, string>, ever: set<string>)
    requires MidCycle(l, sh, issued, ever) && l.cyc.phase.Activating?
    ensures var sh' := WriteTable(sh, Activate(sh.table, l.cyc.ver.raw), call);
            && MidCycle(l, sh', issued, ever + ActiveSet(sh'.table))
            && (call.Done? && l.cyc.ver.raw in sh.table.rows ==> l.cyc.ver.raw in ever + ActiveSet(sh'.table))
  {
    ActivateSwitches(sh.table, l.cyc.ver.raw);
    var sh' := WriteTable(sh, Activate(sh.table, l.cyc.ver.raw), call);
    assert TableOk(sh'.table, ever + ActiveSet(sh'.table));
  }

  lemma ActivatingStep(o: Options, me: string, l: Local, sh: Shared, x: Input, issued: map<string, string>,
                       ever: set<string>)
    requires MidCycle(l, sh, issued, ever) && l.cyc.phase.Activating?
    ensures CycleKept(o, me, l, sh, x, issued, ever)
  {
    hide ActiveSet, Activate, TableOk, SentOk;
    var (l', sh') := CycleStep(o, me, l, sh, x);
    var ever' := ever + ActiveSet(sh'.table);
    ActivatedOk(l, sh, x.call, issued, ever);
    if x.call.Done? && l.cyc.ver.raw in sh.table.rows {
      DropsStage(l);
    } else if l.cyc.unanimous {
      UndecidedOk(l, l', sh', issued, ever');
    } else {
      GiveUpOk(l, sh', issued, ever');
    }
  }

  lemma CycleKeeps(o: Options, me: string, l: Local, sh: Shared, x: Input, issued: map<string, string>,
                   ever: set<string>)
    requires MidCycle(l, sh, issued, ever)
    ensures CycleKept(o, me, l, sh, x, issued, ever)
  {
    match l.cyc.phase
    case Saving | Resetting | Targeting | SelfLogging => SavingStep(o, me, l, sh, x, issued, ever);
    case PollAlive | PollFailed | PollPrepared => PollStep(o, me, l, sh, x, issued, ever);
    case Activating => ActivatingStep(o, me, l, sh, x, issued, ever);
    case Announcing => AnnouncingStep(o, me, l, sh, x, issued, ever);
    case Preparing => PreparingStep(o, me, l, sh, x, issued, ever);
    case Closing => ClosingStep(o, me, l, sh, x, issued, ever);
    case Aborting => AbortingStep(o, me, l, sh, x, issued, ever);
    case Recording => RecordingStep(o, me, l, sh, x, issued, ever);
    case Vetting | Failing => FailingStep(o, me, l, sh, x, issued, ever);
    case _ => RepairStep(o, me, l, sh, x, issued, ever);
  }

  lemma LeadKeeps(w: World, s: System, ever: set<string>, id: string, x: Input)
    requires Inv(s, ever) && id in s.nodes && s.nodes[id].pc.Leading?
    ensures var s' := Next(w, s, Lead(id, x)); Inv(s', Seen(ever, s'))
  {
    var s' := Next(w, s, Lead(id, x));
    var l := Local(s.nodes[id].reg, s.nodes[id].pc.cyc);
    assert NodeOk(s, ever, id, s.nodes[id]);
    OneLeader(s, ever, id);
    CycleKeeps(w.o, id, l, s.sh, x, s.issued, ever);
    SharedStep(s, s', ever, Seen(ever, s'), id, s'.nodes[id]);
  }

  /** The invariant survives every step; `Seen` adds what the step made active. */
  lemma StepKeeps(w: World, s: System, ever: set<string>, a: Step)
    requires Inv(s, ever) && Enabled(w, s, a)
    ensures Inv(Next(w, s, a), Seen(ever, Next(w, s, a)))
  {
    match a
    case Lead(id, x) => LeadKeeps(w, s, ever, id, x);
    case OperatorActivate(_) => OperatorActivateKeeps(w, s, ever, a);
    case _ =>
      OtherKeeps(w, s, ever, a);
      SameEver(Next(w, s, a).sh.table, ever);
  }

  lemma OtherKeeps(w: World, s: System, ever: set<string>, a: Step)
    requires Inv(s, ever) && Enabled(w, s, a) && !a.Lead? && !a.OperatorActivate?
    ensures Inv(Next(w, s, a), ever)
  {
    match a
    case Begin(_, _, _, _, _) => BeginKeeps(w, s, ever, a);
    case PruneRows(_, _, _) => PruneKeeps(w, s, ever, a);
    case Deliver(_, _, _, _, _) => DeliverKeeps(w, s, ever, a);
    case CacheWrite(_, _) => FlushKeeps(w, s, ever, a);
    case Flush(_, _) => FlushKeeps(w, s, ever, a);
    case Probe(_, _) => CatchUpKeeps(w, s, ever, a);
    case Load(_, _, _) => CatchUpKeeps(w, s, ever, a);
    case WarmUp(_, _, _) => StartupKeeps(w, s, ever, a);
    case Start(_, _, _) => StartupKeeps(w, s, ever, a);
    case OperatorAnnounce => OperatorAnnounceKeeps(w, s, ever, a);
    case Crash(_) => LockFreedKeeps(w, s, ever, a);
    case OperatorLock => LockFreedKeeps(w, s, ever, a);
    case OperatorUnlock => LockFreedKeeps(w, s, ever, a);
    case _ => LockKeeps(w, s, ever, a);
  }
}
