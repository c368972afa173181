/** Which way versions move: the forward-only guards of manager/sync.go over whole runs. */
module Forward {
  import opened Wrappers
  import opened Versions
  import opened Tables
  import opened Registration
  import opened Protocol
  import opened Cluster
  import opened Safety
  import opened Runs

  ghost predicate Parsed(f: TimeFormat, ver: Version) {
    ParseVersion(f, ver.raw) == Some(ver)
  }

  ghost predicate TimedReg(f: TimeFormat, r: Reg) {
    && (r.ver == UNSET || Parsed(f, r.ver))
    && forall k :: k in r.staged ==> Parsed(f, r.staged[k].ver)
  }

  ghost predicate TimedNode(f: TimeFormat, n: Node) {
    && TimedReg(f, n.reg)
    && (n.pc.Leading? && HoldsStage(n.pc.cyc) ==>
          Parsed(f, n.pc.cyc.ver) && n.pc.cyc.staged.ver == n.pc.cyc.ver && AllowForward(n.reg, n.pc.cyc.ver))
  }

  /** Every version held or staged reads back from its text, and a value a leader has staged
      is ahead of what that leader serves until it is applied or dropped. */
  ghost predicate Timed(f: TimeFormat, s: System) {
    forall id :: id in s.nodes ==> TimedNode(f, s.nodes[id])
  }

  /** A move the forward-only rule allows. */
  ghost predicate Onward(r: Reg, r': Reg) {
    r'.ver == r.ver || (!r'.ver.IsZero() && AllowForward(r, r'.ver))
  }

  lemma BeginTimed(w: World, id: string, r: Reg, src: Source, force: bool, round: string, now: int)
    requires Canonical(w.o.time) && TimedReg(w.o.time, r)
    ensures var (r', cy) := BeginCycle(w.o, w.codec(id), r, src, force, round, now);
            TimedNode(w.o.time, AfterCycle(Local(r', cy))) && r'.ver == r.ver
  {
    if src.reported.Some? {
      MintedVersionRoundTrip(w.o.time, src.reported.value, now);
      MintedVersionRoundTrip(w.o.time, now, now);
    }
  }

  lemma ApplyTimed(f: TimeFormat, l: Local, panics: bool)
    requires Canonical(f) && TimedNode(f, Node(l.reg, Leading(l.cyc))) && HoldsStage(l.cyc)
    ensures TimedReg(f, ApplyStaged(l, panics).0.reg) && Onward(l.reg, ApplyStaged(l, panics).0.reg)
    ensures ApplyStaged(l, panics).0.cyc == l.cyc
  {
  }

  /** All a stretch of a cycle can do to its replica: nothing, drop the staged value, apply it. */
  lemma CycleShape(o: Options, me: string, l: Local, sh: Shared, x: Input)
    ensures var (l', _) := CycleStep(o, me, l, sh, x);
            && (l'.reg == l.reg || l'.reg == Unstage(l.reg, l.cyc.round)
                || (HoldsStage(l.cyc) && l'.reg == ApplyStaged(l, x.panics).0.reg))
            && (HoldsStage(l'.cyc) ==>
                  HoldsStage(l.cyc) && l'.reg == l.reg && l'.cyc.ver == l.cyc.ver
                  && l'.cyc.staged == l.cyc.staged && l'.cyc.round == l.cyc.round)
  {
    match l.cyc.phase
    case Activating =>
    case Announcing =>
    case _ =>
  }

  lemma CycleTimed(o: Options, me: string, l: Local, sh: Shared, x: Input)
    requires Canonical(o.time) && TimedNode(o.time, Node(l.reg, Leading(l.cyc)))
    ensures var (l', _) := CycleStep(o, me, l, sh, x);
            TimedNode(o.time, AfterCycle(l')) && Onward(l.reg, l'.reg)
  {
    CycleShape(o, me, l, sh, x);
    assert TimedReg(o.time, Unstage(l.reg, l.cyc.round));
    if HoldsStage(l.cyc) {
      ApplyTimed(o.time, l, x.panics);
    }
  }

  lemma HandleTimed(w: World, id: string, n: Node, sh: Shared, e: Event, ok: bool, panics: bool, now: int)
    requires Canonical(w.o.time) && TimedReg(w.o.time, n.reg) && n.pc.Idle?
    ensures TimedNode(w.o.time, Handle(w, id, n, sh, e, ok, panics, now))
    ensures e.action != Rollback && !(e.action == Commit && w.o.unanimous) ==>
              Onward(n.reg, Handle(w, id, n, sh, e, ok, panics, now).reg)
  {
  }

  /** The steps that may move replica `id` back: a restart, an operator's rollback, and under
      2PC a commit. */
  predicate MayRevert(o: Options, a: Step, id: string) {
    match a
    case Crash(x) => x == id
    case WarmUp(x, _, _) => x == id
    case Start(x, _, _) => x == id
    case Deliver(x, e, _, _, _) => x == id && (e.action == Rollback || (e.action == Commit && o.unanimous))
    case _ => false
  }

  lemma LoadTimed(o: Options, c: Codec, r: Reg, active: Read<(string, Row)>, cached: Read<Entry>, panics: bool)
    requires Canonical(o.time) && TimedReg(o.time, r)
    ensures TimedReg(o.time, CatchUp(o, c, r, active, panics).reg) && Onward(r, CatchUp(o, c, r, active, panics).reg)
    ensures TimedReg(o.time, LoadCached(o, c, r, cached, panics))
    ensures TimedReg(o.time, LoadStored(o, c, r, active, panics))
  {
    hide Accept;
  }

  lemma OwnTimed(w: World, s: System, a: Step, id: string)
    requires Canonical(w.o.time) && Timed(w.o.time, s) && Enabled(w, s, a) && id in s.nodes
    requires !a.Begin? && !a.Lead? && !a.Deliver?
    ensures TimedNode(w.o.time, Next(w, s, a).nodes[id])
    ensures !MayRevert(w.o, a, id) ==> Onward(s.nodes[id].reg, Next(w, s, a).nodes[id].reg)
  {
    hide CycleStep, BeginCycle, Handle, CatchUp, LoadCached, LoadStored, ReadActive;
    assert TimedNode(w.o.time, s.nodes[id]);
    if !Subject(a, id) {
      Untouched(w, s, a, id);
      hide Next;
    } else if a.Load? || a.WarmUp? || a.Start? {
      var cached := if a.ok && s.sh.cache.Some? then Got(s.sh.cache.value) else if a.ok then Missing else Broken;
      LoadTimed(w.o, w.codec(id), s.nodes[id].reg, ReadActive(s.sh.table, a.ok), cached, a.panics);
    }
  }

  lemma NodeTimed(w: World, s: System, a: Step, id: string)
    requires Canonical(w.o.time) && Timed(w.o.time, s) && Enabled(w, s, a) && id in s.nodes
    ensures TimedNode(w.o.time, Next(w, s, a).nodes[id])
    ensures !MayRevert(w.o, a, id) ==> Onward(s.nodes[id].reg, Next(w, s, a).nodes[id].reg)
  {
    var n := s.nodes[id];
    assert TimedNode(w.o.time, n);
    match a
    case Begin(x, src, force, round, now) => BeginTimed(w, id, n.reg, src, force, round, now);
    case Lead(x, y) => if x == id { CycleTimed(w.o, id, Local(n.reg, n.pc.cyc), s.sh, y); }
    case Deliver(x, e, ok, panics, now) => if x == id { HandleTimed(w, id, n, s.sh, e, ok, panics, now); }
    case _ => OwnTimed(w, s, a, id);
  }

  lemma StepTimed(w: World, s: System, a: Step)
    requires Canonical(w.o.time) && Timed(w.o.time, s) && Enabled(w, s, a)
    ensures Timed(w.o.time, Next(w, s, a)) && Next(w, s, a).nodes.Keys == s.nodes.Keys
  {
    hide Next, TimedNode;
    NodesStay(w, s, a);
    forall id | id in s.nodes { NodeTimed(w, s, a, id); }
  }

  lemma {:induction false} RunTimed(w: World, ss: seq<System>, acts: seq<Step>, i: nat)
    requires Canonical(w.o.time) && Run(w, ss, acts) && i < |ss|
    ensures Timed(w.o.time, ss[i]) && ss[i].nodes.Keys == ss[0].nodes.Keys
  {
    hide Next, Enabled;
    if i > 0 {
      RunTimed(w, ss, acts, i - 1);
      StepTimed(w, ss[i - 1], acts[i - 1]);
    }
  }

  ghost predicate NoRevert(o: Options, acts: seq<Step>, id: string, j: nat, i: nat)
    requires j <= i <= |acts|
  {
    forall k :: j <= k < i ==> !MayRevert(o, acts[k], id)
  }

  /** Between restarts, rollbacks and commits, a replica that holds a version keeps it or
      moves to a strictly later one: leader cycles (forced or not), sync events, catch-up,
      prepares, aborts and sweeps never take it back, and without 2PC nor does anything else
      that arrives. */
  lemma {:induction false} ForwardOnly(w: World, ss: seq<System>, acts: seq<Step>, id: string, j: nat, i: nat)
    requires Canonical(w.o.time) && Run(w, ss, acts) && j <= i < |ss| && id in ss[0].nodes
    requires NoRevert(w.o, acts, id, j, i)
    ensures id in ss[j].nodes && id in ss[i].nodes
    ensures var u, v := ss[j].nodes[id].reg.ver, ss[i].nodes[id].reg.ver;
            u.IsZero() || (!v.IsZero() && (v == u || v.After(u)))
    decreases i
  {
    hide Next, Enabled, Init, MayRevert;
    RunTimed(w, ss, acts, j);
    RunTimed(w, ss, acts, i);
    if j < i {
      ForwardOnly(w, ss, acts, id, j, i - 1);
      RunTimed(w, ss, acts, i - 1);
      NodeTimed(w, ss[i - 1], acts[i - 1], id);
      StepTimed(w, ss[i - 1], acts[i - 1]);
      assert TimedNode(w.o.time, ss[i].nodes[id]);
      if !ss[i - 1].nodes[id].reg.ver.IsZero() {
        StaysSet(w.o.time, ss[i - 1].nodes[id].reg, ss[i].nodes[id].reg);
      }
    }
  }

  lemma StaysSet(f: TimeFormat, r: Reg, r': Reg)
    requires Canonical(f) && TimedReg(f, r) && TimedReg(f, r') && Onward(r, r') && !r.ver.IsZero()
    ensures !r'.ver.IsZero() && (r'.ver == r.ver || r'.ver.After(r.ver))
  {
  }

  /** A commit is honoured when its value is still staged, or the named snapshot can be read and
      accepted. An honoured commit always lands on the version the event names, earlier or later
      than the one served: it moves the replica onward exactly when the test the other paths
      make, and this one does not, would have passed. Any other commit changes nothing. */
  lemma CommitLandsOnNamed(w: World, ss: seq<System>, acts: seq<Step>, i: nat)
    requires Canonical(w.o.time) && Run(w, ss, acts) && i < |acts|
    requires acts[i].Deliver? && acts[i].e.action == Commit
    requires !(acts[i].e.origin != "" && acts[i].e.origin == acts[i].id)
    requires w.o.unanimous && acts[i].id in w.managed
    ensures var id, e, rows := acts[i].id, acts[i].e, ss[i].sh.table.rows;
            var n, n', named := ss[i].nodes[id], ss[i + 1].nodes[id], ParseVersion(w.o.time, e.version);
            var honoured := e.round in n.reg.staged
              || (named.Some? && acts[i].ok && e.version in rows && Accept(w.codec(id), rows[e.version].content).Some?);
            if honoured then
              && named == Some(n'.reg.ver)
              && (Onward(n.reg, n'.reg) <==> n.reg.ver == named.value || AllowForward(n.reg, named.value))
            else n'.reg == n.reg
  {
    var id, e := acts[i].id, acts[i].e;
    RunInv(w, ss, acts, i);
    RunTimed(w, ss, acts, i);
    assert NodeOk(ss[i], EverActive(ss, i), id, ss[i].nodes[id]) && TimedNode(w.o.time, ss[i].nodes[id]);
    assert EventOk(e, ss[i].issued, EverActive(ss, i));
  }

  // ---------------------------------------------------------------- the active version never goes back

  function Instant(f: TimeFormat, raw: string): int {
    match f.parse(raw) case Some(t) => t case None => 0
  }

  /** `raw` is no later than the active version. */
  ghost predicate NotAhead(f: TimeFormat, t: Table, raw: string) {
    exists a :: a in ActiveSet(t) && Instant(f, raw) <= Instant(f, a)
  }

  /** Every active version is strictly earlier than `raw`. */
  ghost predicate Ahead(f: TimeFormat, t: Table, raw: string) {
    forall a :: a in ActiveSet(t) ==> Instant(f, a) < Instant(f, raw)
  }

  ghost predicate BelowReg(f: TimeFormat, t: Table, r: Reg) {
    r.ver.IsZero() || NotAhead(f, t, r.ver.raw)
  }

  ghost predicate BelowCycle(f: TimeFormat, t: Table, cy: Cycle) {
    && (HoldsStage(cy) && !cy.phase.Aborting? && !cy.phase.Announcing? ==> Ahead(f, t, cy.ver.raw))
    && (Decided(cy.phase) ==> cy.ver.raw in ActiveSet(t))
    && (cy.phase.RepairWrite? ==> NotAhead(f, t, cy.ver.raw))
  }

  ghost predicate BelowNode(f: TimeFormat, t: Table, n: Node) {
    && BelowReg(f, t, n.reg)
    && (n.pc.Leading? ==> BelowCycle(f, t, n.pc.cyc))
    && (n.pc.Reverting? ==> NotAhead(f, t, n.pc.entry.version))
  }

  ghost predicate BelowShared(f: TimeFormat, sh: Shared) {
    && (sh.cache.Some? ==> NotAhead(f, sh.table, sh.cache.value.version))
    && forall e :: e in sh.sent && (e.action == Sync || e.action == Commit) ==> NotAhead(f, sh.table, e.version)
  }

  /** Nothing served, cached or announced is ahead of the active snapshot. */
  ghost predicate Below(f: TimeFormat, s: System) {
    && BelowShared(f, s.sh)
    && forall id :: id in s.nodes ==> BelowNode(f, s.sh.table, s.nodes[id])
  }

  /** The leader about to begin a cycle is not behind the active snapshot, if there is one. */
  ghost predicate Current(f: TimeFormat, s: System, id: string)
    requires id in s.nodes
  {
    forall a :: a in ActiveSet(s.sh.table) ==>
      !s.nodes[id].reg.ver.IsZero() && Instant(f, a) <= Instant(f, s.nodes[id].reg.ver.raw)
  }

  /** No operator flips the active row, and every cycle is begun by a current leader. */
  ghost predicate Orderly(w: World, s: System, a: Step) {
    && Enabled(w, s, a)
    && !a.OperatorActivate?
    && (a.Begin? ==> Current(w.o.time, s, a.id))
  }

  /** The active row stays, or gives way to a strictly later version. */
  ghost predicate Advanced(f: TimeFormat, t: Table, t': Table) {
    || ActiveSet(t') == ActiveSet(t)
    || exists v :: v in ActiveSet(t') && ActiveSet(t') == {v} && Ahead(f, t, v)
  }

  lemma NotAheadKept(f: TimeFormat, t: Table, t': Table, raw: string)
    requires NotAhead(f, t, raw) && Advanced(f, t, t')
    ensures NotAhead(f, t', raw)
  {
  }

  lemma BeginBelow(w: World, s: System, a: Step)
    requires Canonical(w.o.time) && Below(w.o.time, s) && a.Begin? && Orderly(w, s, a)
    requires TimedNode(w.o.time, s.nodes[a.id])
    ensures BelowNode(w.o.time, s.sh.table, Next(w, s, a).nodes[a.id])
  {
    var f, r := w.o.time, s.nodes[a.id].reg;
    var (r', cy) := BeginCycle(w.o, w.codec(a.id), r, a.src, a.force, a.round, a.now);
    BeginTimed(w, a.id, r, a.src, a.force, a.round, a.now);
    assert BelowNode(f, s.sh.table, s.nodes[a.id]);
    if cy.phase.Saving? {
      BeginAllowed(w, a.id, r, a.src, a.force, a.round, a.now);
      forall v | v in ActiveSet(s.sh.table) ensures Instant(f, v) < Instant(f, cy.ver.raw) {
        assert Parsed(f, r.ver) && Parsed(f, cy.ver);
      }
    }
  }

  lemma BeginAllowed(w: World, id: string, r: Reg, src: Source, force: bool, round: string, now: int)
    ensures var (_, cy) := BeginCycle(w.o, w.codec(id), r, src, force, round, now);
            && (cy.phase.Saving? ==> AllowForward(r, cy.ver))
            && (cy.phase.Saving? || cy.phase.Finished? || cy.phase.RepairProbe?)
  {
  }

  lemma ActivatingAdvances(f: TimeFormat, t: Table, v: string)
    requires Ahead(f, t, v)
    ensures Advanced(f, t, Activate(t, v)) && (v in t.rows ==> v in ActiveSet(Activate(t, v)))
  {
    ActivateSwitches(t, v);
  }

  lemma ActivatingBelow(o: Options, me: string, l: Local, sh: Shared, x: Input, issued: map<string, string>,
                        ever: set<string>)
    requires MidCycle(l, sh, issued, ever) && BelowShared(o.time, sh)
    requires BelowReg(o.time, sh.table, l.reg) && BelowCycle(o.time, sh.table, l.cyc) && l.cyc.phase.Activating?
    ensures var (l', sh') := CycleStep(o, me, l, sh, x);
            && Advanced(o.time, sh.table, sh'.table) && BelowShared(o.time, sh')
            && BelowReg(o.time, sh'.table, l'.reg) && BelowCycle(o.time, sh'.table, l'.cyc)
  {
    var (l', sh') := CycleStep(o, me, l, sh, x);
    var v := l.cyc.ver.raw;
    ActivatingAdvances(o.time, sh.table, v);
    assert Advanced(o.time, sh.table, sh'.table);
    hide ActiveSet, Activate, Advanced;
    forall raw | NotAhead(o.time, sh.table, raw) ensures NotAhead(o.time, sh'.table, raw) {
      NotAheadKept(o.time, sh.table, sh'.table, raw);
    }
  }

  /** Past the decision a cycle writes no row, announces and caches only its own version, and
      leaves the replica at the version it served or at its own. */
  lemma DecidedShape(o: Options, me: string, l: Local, sh: Shared, x: Input)
    requires Decided(l.cyc.phase)
    ensures var (l', sh') := CycleStep(o, me, l, sh, x); var v := l.cyc.ver.raw;
            && sh'.table.rows == sh.table.rows && l'.cyc.ver == l.cyc.ver
            && (Decided(l'.cyc.phase) || l'.cyc.phase.Finished?)
            && (forall e :: e in sh'.sent ==> e in sh.sent || e.version == v)
            && (sh'.cache == sh.cache || sh'.cache == Some(Entry(v, l.cyc.content)))
            && (l'.reg.ver == l.reg.ver || l'.reg.ver == l.cyc.staged.ver)
            && !HoldsStage(l'.cyc)
  {
    hide Activate, Save, ResetLog, Fail, SomeFailed, AllPrepared;
  }

  lemma AnnouncingBelow(o: Options, me: string, l: Local, sh: Shared, x: Input, issued: map<string, string>,
                        ever: set<string>)
    requires MidCycle(l, sh, issued, ever) && BelowShared(o.time, sh)
    requires BelowReg(o.time, sh.table, l.reg) && BelowCycle(o.time, sh.table, l.cyc) && Decided(l.cyc.phase)
    ensures var (l', sh') := CycleStep(o, me, l, sh, x);
            && ActiveSet(sh'.table) == ActiveSet(sh.table) && BelowShared(o.time, sh')
            && BelowReg(o.time, sh'.table, l'.reg) && BelowCycle(o.time, sh'.table, l'.cyc)
  {
    DecidedShape(o, me, l, sh, x);
    hide CycleStep;
    var (l', sh') := CycleStep(o, me, l, sh, x);
    assert ActiveSet(sh'.table) == ActiveSet(sh.table);
    assert NotAhead(o.time, sh.table, l.cyc.ver.raw);
  }

  lemma QuietTable(o: Options, me: string, l: Local, sh: Shared, x: Input)
    requires !Decided(l.cyc.phase) && !l.cyc.phase.Activating?
    requires l.cyc.phase.Failing? ==> l.cyc.ver.raw !in ActiveSet(sh.table)
    ensures ActiveSet(CycleStep(o, me, l, sh, x).1.table) == ActiveSet(sh.table)
  {
    ActiveSetKept(sh.table, l.cyc.ver.raw, l.cyc.content, x.now, me, Prepared, 0);
  }

  /** Outside the activation and the announcements a cycle announces nothing to apply and caches
      nothing but the active snapshot. */
  lemma QuietShared(o: Options, me: string, l: Local, sh: Shared, x: Input)
    requires !Decided(l.cyc.phase) && !l.cyc.phase.Activating?
    ensures var sh' := CycleStep(o, me, l, sh, x).1;
            && (forall e :: e in sh'.sent && (e.action == Sync || e.action == Commit) ==> e in sh.sent)
            && (sh'.cache == sh.cache
                || (l.cyc.phase.RepairWrite? && sh'.cache == Some(Entry(l.cyc.ver.raw, l.cyc.content))))
  {
  }

  /** And it leaves the version it serves alone. */
  lemma QuietLocal(o: Options, me: string, l: Local, sh: Shared, x: Input)
    requires !Decided(l.cyc.phase) && !l.cyc.phase.Activating?
    ensures var l' := CycleStep(o, me, l, sh, x).0;
            && l'.reg.ver == l.reg.ver && !Decided(l'.cyc.phase)
            && (l'.cyc.phase.RepairWrite? ==> l'.cyc.ver.raw in ActiveSet(sh.table))
            && (HoldsStage(l'.cyc) && !l'.cyc.phase.Aborting? ==>
                  HoldsStage(l.cyc) && !l.cyc.phase.Aborting? && l'.cyc.ver == l.cyc.ver)
  {
  }

  lemma QuietBelow(o: Options, me: string, l: Local, sh: Shared, x: Input, issued: map<string, string>,
                   ever: set<string>)
    requires MidCycle(l, sh, issued, ever) && BelowShared(o.time, sh)
    requires BelowReg(o.time, sh.table, l.reg) && BelowCycle(o.time, sh.table, l.cyc)
    requires !Decided(l.cyc.phase) && !l.cyc.phase.Activating?
    ensures var (l', sh') := CycleStep(o, me, l, sh, x);
            && ActiveSet(sh'.table) == ActiveSet(sh.table) && BelowShared(o.time, sh')
            && BelowReg(o.time, sh'.table, l'.reg) && BelowCycle(o.time, sh'.table, l'.cyc)
  {
    hide CycleStep;
    var (l', sh') := CycleStep(o, me, l, sh, x);
    QuietTable(o, me, l, sh, x);
    QuietShared(o, me, l, sh, x);
    QuietLocal(o, me, l, sh, x);
    assert forall raw :: NotAhead(o.time, sh'.table, raw) <==> NotAhead(o.time, sh.table, raw);
  }

  lemma LeadBelow(w: World, s: System, ever: set<string>, id: string, x: Input)
    requires Inv(s, ever) && Below(w.o.time, s) && id in s.nodes && s.nodes[id].pc.Leading?
    ensures var s' := Next(w, s, Lead(id, x)); Below(w.o.time, s') && Advanced(w.o.time, s.sh.table, s'.sh.table)
  {
    var f, s' := w.o.time, Next(w, s, Lead(id, x));
    var l := Local(s.nodes[id].reg, s.nodes[id].pc.cyc);
    assert NodeOk(s, ever, id, s.nodes[id]) && BelowNode(f, s.sh.table, s.nodes[id]);
    OneLeader(s, ever, id);
    if l.cyc.phase.Activating? {
      ActivatingBelow(w.o, id, l, s.sh, x, s.issued, ever);
    } else if Decided(l.cyc.phase) {
      AnnouncingBelow(w.o, id, l, s.sh, x, s.issued, ever);
    } else {
      QuietBelow(w.o, id, l, s.sh, x, s.issued, ever);
    }
    forall y | y in s'.nodes ensures BelowNode(f, s'.sh.table, s'.nodes[y]) {
      if y != id {
        assert BelowNode(f, s.sh.table, s.nodes[y]);
        if !s.nodes[y].reg.ver.IsZero() { NotAheadKept(f, s.sh.table, s'.sh.table, s.nodes[y].reg.ver.raw); }
        if s.nodes[y].pc.Reverting? { NotAheadKept(f, s.sh.table, s'.sh.table, s.nodes[y].pc.entry.version); }
      }
    }
  }

  /** A handler serves what it served, the version its event names, or the active one. */
  lemma HandleShape(w: World, id: string, n: Node, sh: Shared, e: Event, ok: bool, panics: bool, now: int)
    requires e.action == Commit && e.round in n.reg.staged ==> n.reg.staged[e.round].ver.raw == e.version
    requires n.pc.Idle?
    ensures var n' := Handle(w, id, n, sh, e, ok, panics, now);
            && (n'.reg.ver == n.reg.ver || n'.reg.ver.raw in ActiveSet(sh.table)
                || ((e.action == Sync || e.action == Commit) && n'.reg.ver.raw == e.version))
            && (n'.pc.Reverting? ==> n'.pc.entry.version in ActiveSet(sh.table))
            && (n'.pc.Idle? || n'.pc.Logging? || n'.pc.Reverting?)
  {
  }

  lemma DeliverBelow(w: World, s: System, ever: set<string>, a: Step)
    requires Inv(s, ever) && Below(w.o.time, s) && Orderly(w, s, a) && a.Deliver?
    ensures BelowNode(w.o.time, s.sh.table, Next(w, s, a).nodes[a.id])
  {
    assert NodeOk(s, ever, a.id, s.nodes[a.id]) && BelowNode(w.o.time, s.sh.table, s.nodes[a.id]);
    assert EventOk(a.e, s.issued, ever);
    HandleShape(w, a.id, s.nodes[a.id], s.sh, a.e, a.ok, a.panics, a.now);
    forall v | v in ActiveSet(s.sh.table) ensures NotAhead(w.o.time, s.sh.table, v) {
    }
  }

  lemma LoadBelow(w: World, s: System, ever: set<string>, a: Step)
    requires Inv(s, ever) && Below(w.o.time, s) && Orderly(w, s, a)
    requires a.Load? || a.WarmUp? || a.Start?
    ensures BelowNode(w.o.time, s.sh.table, Next(w, s, a).nodes[a.id])
  {
    assert BelowNode(w.o.time, s.sh.table, s.nodes[a.id]);
    if ActiveVersion(s.sh.table).Some? {
      assert NotAhead(w.o.time, s.sh.table, ActiveVersion(s.sh.table).value);
    }
  }

  lemma OtherTable(w: World, s: System, a: Step)
    requires Orderly(w, s, a) && !a.Lead? && !a.Begin?
    ensures ActiveSet(Next(w, s, a).sh.table) == ActiveSet(s.sh.table)
  {
    if a.PruneRows? {
      ActiveSetKept(s.sh.table, "", [], 0, "", Applied, a.cutoff);
    }
  }

  lemma OwnBelow(w: World, s: System, a: Step, y: string)
    requires Below(w.o.time, s) && Orderly(w, s, a) && Subject(a, y) && y in s.nodes
    requires !a.Lead? && !a.Begin? && !a.Deliver? && !a.Load? && !a.WarmUp? && !a.Start?
    ensures BelowNode(w.o.time, s.sh.table, Next(w, s, a).nodes[y])
  {
    hide CycleStep, BeginCycle, Handle, CatchUp, LoadCached, LoadStored, NotAhead, Ahead, ActiveSet, BelowShared;
    assert BelowNode(w.o.time, s.sh.table, s.nodes[y]);
  }

  lemma OtherNode(w: World, s: System, ever: set<string>, a: Step, y: string)
    requires Inv(s, ever) && Below(w.o.time, s) && Orderly(w, s, a) && !a.Lead? && !a.Begin? && y in s.nodes
    ensures BelowNode(w.o.time, s.sh.table, Next(w, s, a).nodes[y])
  {
    hide Next, BelowNode, BelowShared;
    if !Subject(a, y) {
      assert BelowNode(w.o.time, s.sh.table, s.nodes[y]);
      Untouched(w, s, a, y);
    } else if a.Deliver? {
      DeliverBelow(w, s, ever, a);
    } else if a.Load? || a.WarmUp? || a.Start? {
      LoadBelow(w, s, ever, a);
    } else {
      OwnBelow(w, s, a, y);
    }
  }

  lemma OtherShared(w: World, s: System, ever: set<string>, a: Step)
    requires Inv(s, ever) && Below(w.o.time, s) && Orderly(w, s, a) && !a.Lead? && !a.Begin?
    ensures BelowShared(w.o.time, Next(w, s, a).sh)
  {
    OtherTable(w, s, a);
    if a.CacheWrite? {
      assert BelowNode(w.o.time, s.sh.table, s.nodes[a.id]);
    }
  }

  lemma SameBelow(f: TimeFormat, t: Table, t': Table, n: Node)
    requires ActiveSet(t) == ActiveSet(t') && BelowNode(f, t, n)
    ensures BelowNode(f, t', n)
  {
  }

  lemma OtherBelow(w: World, s: System, ever: set<string>, a: Step)
    requires Inv(s, ever) && Below(w.o.time, s) && Orderly(w, s, a) && !a.Lead? && !a.Begin?
    ensures Below(w.o.time, Next(w, s, a)) && ActiveSet(Next(w, s, a).sh.table) == ActiveSet(s.sh.table)
  {
    hide BelowNode, BelowShared, ActiveSet;
    var s' := Next(w, s, a);
    OtherTable(w, s, a);
    OtherShared(w, s, ever, a);
    forall y | y in s'.nodes ensures BelowNode(w.o.time, s'.sh.table, s'.nodes[y]) {
      OtherNode(w, s, ever, a, y);
      SameBelow(w.o.time, s.sh.table, s'.sh.table, s'.nodes[y]);
    }
  }

  lemma StepBelow(w: World, s: System, ever: set<string>, a: Step)
    requires Canonical(w.o.time) && Inv(s, ever) && Timed(w.o.time, s) && Below(w.o.time, s) && Orderly(w, s, a)
    ensures var s' := Next(w, s, a); Below(w.o.time, s') && Advanced(w.o.time, s.sh.table, s'.sh.table)
  {
    if a.Lead? {
      LeadBelow(w, s, ever, a.id, a.x);
    } else if a.Begin? {
      assert TimedNode(w.o.time, s.nodes[a.id]);
      BeginBelow(w, s, a);
    } else {
      OtherBelow(w, s, ever, a);
    }
  }

  lemma {:induction false} RunBelow(w: World, ss: seq<System>, acts: seq<Step>, i: nat)
    requires Canonical(w.o.time) && Run(w, ss, acts) && i < |ss|
    requires forall k :: 0 <= k < |acts| ==> Orderly(w, ss[k], acts[k])
    ensures Below(w.o.time, ss[i])
    ensures i > 0 ==> Advanced(w.o.time, ss[i - 1].sh.table, ss[i].sh.table)
  {
    if i == 0 {
      assert ActiveSet(ss[0].sh.table) == {};
    } else {
      RunBelow(w, ss, acts, i - 1);
      RunInv(w, ss, acts, i - 1);
      RunTimed(w, ss, acts, i - 1);
      StepBelow(w, ss[i - 1], EverActive(ss, i - 1), acts[i - 1]);
    }
  }

  lemma AdvancedOrder(f: TimeFormat, t: Table, t': Table, m: string, v: string)
    requires OneActive(t) && Advanced(f, t, t') && m in ActiveSet(t) && v in ActiveSet(t')
    ensures m == v || Instant(f, m) < Instant(f, v)
  {
  }

  lemma {:induction false} AdvancesAlong(f: TimeFormat, ss: seq<System>, j: nat, i: nat, u: string, v: string)
    requires j <= i < |ss| && u in ActiveSet(ss[j].sh.table) && v in ActiveSet(ss[i].sh.table)
    requires forall k :: j <= k <= i ==> OneActive(ss[k].sh.table) && ActiveSet(ss[k].sh.table) != {}
    requires forall k :: j <= k < i ==> Advanced(f, ss[k].sh.table, ss[k + 1].sh.table)
    ensures u == v || Instant(f, u) < Instant(f, v)
    decreases i
  {
    if j < i {
      assert ActiveSet(ss[i - 1].sh.table) != {} && Advanced(f, ss[i - 1].sh.table, ss[i - 1 + 1].sh.table);
      var m :| m in ActiveSet(ss[i - 1].sh.table);
      AdvancedOrder(f, ss[i - 1].sh.table, ss[i].sh.table, m, v);
      AdvancesAlong(f, ss, j, i - 1, u, m);
    }
  }

  lemma SingleThroughout(w: World, ss: seq<System>, acts: seq<Step>, j: nat, k: nat)
    requires Run(w, ss, acts) && j <= k < |ss| && ActiveSet(ss[j].sh.table) != {}
    ensures OneActive(ss[k].sh.table) && ActiveSet(ss[k].sh.table) != {}
  {
    RunInv(w, ss, acts, k);
    ActiveRowPersists(w, ss, acts, j, k);
  }

  lemma AdvancedThroughout(w: World, ss: seq<System>, acts: seq<Step>, j: nat, i: nat)
    requires Canonical(w.o.time) && Run(w, ss, acts) && j <= i < |ss|
    requires forall k :: 0 <= k < |acts| ==> Orderly(w, ss[k], acts[k])
    ensures forall k :: j <= k < i ==> Advanced(w.o.time, ss[k].sh.table, ss[k + 1].sh.table)
  {
    forall k | j <= k < i ensures Advanced(w.o.time, ss[k].sh.table, ss[k + 1].sh.table) {
      RunBelow(w, ss, acts, k + 1);
    }
  }

  lemma AdvancesBetween(w: World, ss: seq<System>, acts: seq<Step>, j: nat, i: nat, u: string, v: string)
    requires Canonical(w.o.time) && Run(w, ss, acts) && j <= i < |ss|
    requires forall k :: 0 <= k < |acts| ==> Orderly(w, ss[k], acts[k])
    requires u in ActiveSet(ss[j].sh.table) && v in ActiveSet(ss[i].sh.table)
    ensures u == v || Instant(w.o.time, u) < Instant(w.o.time, v)
  {
    AdvancedThroughout(w, ss, acts, j, i);
    forall k | j <= k <= i ensures OneActive(ss[k].sh.table) && ActiveSet(ss[k].sh.table) != {} {
      SingleThroughout(w, ss, acts, j, k);
    }
    AdvancesAlong(w.o.time, ss, j, i, u, v);
  }

  /** In an orderly run every change of the active version moves it strictly later in time,
      and at no point is a replica, the cache or an announcement ahead of it. */
  lemma ActiveOnlyAdvances(w: World, ss: seq<System>, acts: seq<Step>, j: nat, i: nat)
    requires Canonical(w.o.time) && Run(w, ss, acts) && j <= i < |ss|
    requires forall k :: 0 <= k < |acts| ==> Orderly(w, ss[k], acts[k])
    ensures forall u, v :: u in ActiveSet(ss[j].sh.table) && v in ActiveSet(ss[i].sh.table) ==>
              u == v || Instant(w.o.time, u) < Instant(w.o.time, v)
    ensures Below(w.o.time, ss[i])
  {
    RunBelow(w, ss, acts, i);
    forall u, v | u in ActiveSet(ss[j].sh.table) && v in ActiveSet(ss[i].sh.table)
      ensures u == v || Instant(w.o.time, u) < Instant(w.o.time, v)
    {
      AdvancesBetween(w, ss, acts, j, i, u, v);
    }
  }
}
