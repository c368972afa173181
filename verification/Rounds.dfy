/** A leader cycle seen from any point of a run while its staged value is held: which cycle it is,
    what opened it, and what it may rely on. */
module Rounds {
  import opened Wrappers
  import opened Versions
  import opened Tables
  import opened Registration
  import opened Protocol
  import opened Cluster
  import opened Safety
  import opened Runs

  /** The cycle that the step `a` advances. */
  function CycleOf(s: System, a: Step): (cy: Option<Cycle>)
    ensures cy.Some? ==> a.Lead? && a.id in s.nodes && s.nodes[a.id].pc == Leading(cy.value)
  {
    if a.Lead? && a.id in s.nodes && s.nodes[a.id].pc.Leading? then Some(s.nodes[a.id].pc.cyc) else None
  }

  lemma KeepsRows(w: World, s: System, a: Step, v: string)
    requires Enabled(w, s, a) && !a.PruneRows? && v in s.sh.table.rows
    ensures v in Next(w, s, a).sh.table.rows
  {
    if a.Lead? {
      var l := Local(s.nodes[a.id].reg, s.nodes[a.id].pc.cyc);
      match l.cyc.phase
      case Activating => ActivateSwitches(s.sh.table, l.cyc.ver.raw);
      case _ =>
    } else if a.OperatorActivate? {
      ActivateSwitches(s.sh.table, a.v);
    }
  }

  /** Replica `id` is in a cycle whose staged value is still held. */
  predicate InHand(s: System, id: string) {
    id in s.nodes && s.nodes[id].pc.Leading? && HoldsStage(s.nodes[id].pc.cyc)
  }

  /** Before the decision. */
  predicate Opening(p: Phase) {
    match p
    case Saving | Resetting | Targeting | SelfLogging | Preparing => true
    case PollAlive | PollFailed | PollPrepared | Activating => true
    case _ => false
  }

  /** The same cycle, further on. */
  predicate SameCycle(cy: Cycle, cy': Cycle) {
    cy' == cy.(phase := cy'.phase, target := cy'.target, alive := cy'.alive)
  }

  lemma HeldLocal(o: Options, me: string, l: Local, sh: Shared, x: Input)
    requires HoldsStage(CycleStep(o, me, l, sh, x).0.cyc)
    ensures HoldsStage(l.cyc) && CycleStep(o, me, l, sh, x).0.reg == l.reg
  {
    hide Activate, Save, Log, ResetLog, Fail, SomeFailed, AllPrepared, AfterCommitStaged, ActiveVersion;
  }

  lemma HeldBefore(o: Options, me: string, l: Local, sh: Shared, x: Input)
    requires HoldsStage(CycleStep(o, me, l, sh, x).0.cyc)
    ensures var l' := CycleStep(o, me, l, sh, x).0;
            && HoldsStage(l.cyc) && l'.reg == l.reg && SameCycle(l.cyc, l'.cyc)
            && (Opening(l'.cyc.phase) ==> Opening(l.cyc.phase)) && !l'.cyc.phase.Saving?
  {
    HeldLocal(o, me, l, sh, x);
    hide Activate, Save, Log, ResetLog, Fail, SomeFailed, AllPrepared, AfterCommitStaged, ActiveVersion;
  }

  lemma SavesRow(o: Options, me: string, l: Local, sh: Shared, x: Input)
    requires l.cyc.phase.Saving? && HoldsStage(CycleStep(o, me, l, sh, x).0.cyc)
    ensures l.cyc.ver.raw in CycleStep(o, me, l, sh, x).1.table.rows
  {
    hide Activate, Log, ResetLog, Fail, SomeFailed, AllPrepared, AfterCommitStaged, ActiveVersion;
  }

  /** Holding a staged value, a replica held it one step before, unless that step opened the cycle. */
  lemma InHandBefore(w: World, s: System, ever: set<string>, a: Step, id: string)
    requires Inv(s, ever) && Enabled(w, s, a) && InHand(Next(w, s, a), id)
    ensures if InHand(s, id) then
              && Next(w, s, a).nodes[id].reg == s.nodes[id].reg
              && SameCycle(s.nodes[id].pc.cyc, Next(w, s, a).nodes[id].pc.cyc)
              && (Opening(Next(w, s, a).nodes[id].pc.cyc.phase) ==> Opening(s.nodes[id].pc.cyc.phase))
            else a.Begin? && a.id == id
  {
    hide CycleStep, BeginCycle, Handle, CatchUp, LoadCached, LoadStored, Inv;
    if a.Lead? && a.id == id {
      HeldBefore(w.o, id, Local(s.nodes[id].reg, s.nodes[id].pc.cyc), s.sh, a.x);
    } else if id in s.nodes && s.nodes[id].pc.Leading? {
      OnlyItsCycle(w, s, a, id);
    } else {
      StartsLeading(w, s, a, id);
    }
  }

  lemma StartsLeading(w: World, s: System, a: Step, id: string)
    requires Enabled(w, s, a) && InHand(Next(w, s, a), id) && !(id in s.nodes && s.nodes[id].pc.Leading?)
    ensures a.Begin? && a.id == id
  {
    hide CycleStep, BeginCycle, CatchUp, LoadCached, LoadStored;
  }

  /** The cycle in hand at `ss[i]` is the one opened by step `b`, and has been in hand since. */
  ghost predicate Opened(w: World, ss: seq<System>, acts: seq<Step>, b: nat, i: nat, id: string)
    requires |ss| == |acts| + 1 && b < i < |ss|
  {
    && acts[b].Begin? && acts[b].id == id && id in ss[b].nodes && (forall k :: b < k <= i ==> InHand(ss[k], id))
    && var a := acts[b];
       var (r, cy) := BeginCycle(w.o, w.codec(id), ss[b].nodes[id].reg, a.src, a.force, a.round, a.now);
       cy.phase.Saving? && ss[i].nodes[id].reg == r && SameCycle(cy, ss[i].nodes[id].pc.cyc)
  }

  lemma BeginOpens(w: World, s: System, a: Step)
    requires Enabled(w, s, a) && a.Begin? && InHand(Next(w, s, a), a.id)
    ensures var (r, cy) := BeginCycle(w.o, w.codec(a.id), s.nodes[a.id].reg, a.src, a.force, a.round, a.now);
            cy.phase.Saving? && Next(w, s, a).nodes[a.id] == Node(r, Leading(cy))
  {
  }

  lemma {:induction false} OpenedBy(w: World, ss: seq<System>, acts: seq<Step>, i: nat, id: string) returns (b: nat)
    requires Run(w, ss, acts) && i < |ss| && InHand(ss[i], id)
    ensures b < i && Opened(w, ss, acts, b, i, id)
  {
    NobodyAtFirst(w, ss, acts, id);
    hide Next, Enabled, Init, Inv, BeginCycle;
    RunInv(w, ss, acts, i - 1);
    InHandBefore(w, ss[i - 1], EverActive(ss, i - 1), acts[i - 1], id);
    if InHand(ss[i - 1], id) {
      b := OpenedBy(w, ss, acts, i - 1, id);
    } else {
      b := i - 1;
      BeginOpens(w, ss[b], acts[b]);
    }
  }

  lemma NobodyAtFirst(w: World, ss: seq<System>, acts: seq<Step>, id: string)
    requires Run(w, ss, acts)
    ensures !InHand(ss[0], id)
  {
  }

  /** While a cycle has a value in hand nobody prunes. */
  lemma NoPruning(w: World, s: System, ever: set<string>, a: Step, id: string)
    requires Inv(s, ever) && Enabled(w, s, a) && InHand(s, id)
    ensures !a.PruneRows? && !a.OperatorActivate? && (a.Lead? ==> a.id == id)
  {
    assert NodeOk(s, ever, id, s.nodes[id]);
    OneLeader(s, ever, id);
  }

  lemma SavedRow(w: World, s: System, ever: set<string>, a: Step, id: string)
    requires Inv(s, ever) && Enabled(w, s, a) && InHand(s, id) && InHand(Next(w, s, a), id)
    requires s.nodes[id].pc.cyc.phase.Saving? || s.nodes[id].pc.cyc.ver.raw in s.sh.table.rows
    ensures Next(w, s, a).nodes[id].pc.cyc.phase.Saving? || s.nodes[id].pc.cyc.ver.raw in Next(w, s, a).sh.table.rows
  {
    hide CycleStep, BeginCycle, Handle, CatchUp, LoadCached, LoadStored;
    NoPruning(w, s, ever, a, id);
    if a.Lead? {
      HeldBefore(w.o, id, Local(s.nodes[id].reg, s.nodes[id].pc.cyc), s.sh, a.x);
      if s.nodes[id].pc.cyc.phase.Saving? {
        SavesRow(w.o, id, Local(s.nodes[id].reg, s.nodes[id].pc.cyc), s.sh, a.x);
      }
    }
    if s.nodes[id].pc.cyc.ver.raw in s.sh.table.rows {
      KeepsRows(w, s, a, s.nodes[id].pc.cyc.ver.raw);
    } else if !a.Lead? {
      OnlyItsCycle(w, s, a, id);
    }
  }

  /** Past its save, a cycle with its value in hand has its row in storage. */
  lemma {:induction false} RowHeld(w: World, ss: seq<System>, acts: seq<Step>, i: nat, id: string)
    requires Run(w, ss, acts) && i < |ss| && InHand(ss[i], id)
    ensures ss[i].nodes[id].pc.cyc.phase.Saving? || ss[i].nodes[id].pc.cyc.ver.raw in ss[i].sh.table.rows
  {
    NobodyAtFirst(w, ss, acts, id);
    hide Next, Enabled, Init, Inv, BeginCycle;
    RunInv(w, ss, acts, i - 1);
    InHandBefore(w, ss[i - 1], EverActive(ss, i - 1), acts[i - 1], id);
    if InHand(ss[i - 1], id) {
      RowHeld(w, ss, acts, i - 1, id);
      SavedRow(w, ss[i - 1], EverActive(ss, i - 1), acts[i - 1], id);
    } else {
      BeginOpens(w, ss[i - 1], acts[i - 1]);
    }
  }

  /** An undecided cycle leaves the active version alone, and so does everyone else meanwhile. */
  lemma OpeningKeepsActive(w: World, s: System, ever: set<string>, a: Step, id: string)
    requires Inv(s, ever) && Enabled(w, s, a) && InHand(s, id) && InHand(Next(w, s, a), id)
    requires Opening(Next(w, s, a).nodes[id].pc.cyc.phase)
    ensures ActiveSet(Next(w, s, a).sh.table) == ActiveSet(s.sh.table)
  {
    hide CycleStep, BeginCycle, Handle, CatchUp, LoadCached, LoadStored, ActiveSet;
    NoPruning(w, s, ever, a, id);
    if a.Lead? {
      OpeningTable(w.o, id, Local(s.nodes[id].reg, s.nodes[id].pc.cyc), s.sh, a.x);
    } else if a.Flush? {
      var e := s.nodes[a.id].pc.write;
      ActiveSetKept(s.sh.table, "", [], 0, a.id, e.status, 0);
      SameRows(s.sh.table, Log(s.sh.table, a.id, e.version, e.status));
    }
  }

  lemma SameRows(t: Table, t': Table)
    requires t.rows == t'.rows
    ensures ActiveSet(t) == ActiveSet(t')
  {
  }

  lemma OpeningTable(o: Options, me: string, l: Local, sh: Shared, x: Input)
    requires Opening(CycleStep(o, me, l, sh, x).0.cyc.phase) && HoldsStage(CycleStep(o, me, l, sh, x).0.cyc)
    ensures ActiveSet(CycleStep(o, me, l, sh, x).1.table) == ActiveSet(sh.table)
  {
    hide ActiveSet, Activate, Save, Log, ResetLog, Fail, SomeFailed, AllPrepared, AfterCommitStaged, ActiveVersion;
    HeldBefore(o, me, l, sh, x);
    ActiveSetKept(sh.table, l.cyc.ver.raw, l.cyc.content, x.now, me, Prepared, 0);
  }

  lemma {:induction false} ActiveWhileOpening(w: World, ss: seq<System>, acts: seq<Step>, b: nat, i: nat, id: string)
    requires Run(w, ss, acts) && b < i < |ss| && acts[b].Begin? && forall k :: b < k <= i ==> InHand(ss[k], id)
    requires InHand(ss[i], id) && Opening(ss[i].nodes[id].pc.cyc.phase)
    ensures ActiveSet(ss[i].sh.table) == ActiveSet(ss[b].sh.table)
    decreases i
  {
    hide Next, Enabled, Init, Inv, ActiveSet;
    if b + 1 < i {
      RunInv(w, ss, acts, i - 1);
      InHandBefore(w, ss[i - 1], EverActive(ss, i - 1), acts[i - 1], id);
      OpeningKeepsActive(w, ss[i - 1], EverActive(ss, i - 1), acts[i - 1], id);
      ActiveWhileOpening(w, ss, acts, b, i - 1, id);
    } else {
      BeginKeepsTable(w, ss[b], acts[b]);
    }
  }

  lemma BeginKeepsTable(w: World, s: System, a: Step)
    requires Enabled(w, s, a) && a.Begin?
    ensures Next(w, s, a).sh == s.sh
  {
  }

  lemma CycleRows(o: Options, me: string, l: Local, sh: Shared, x: Input, v: string)
    requires v in CycleStep(o, me, l, sh, x).1.table.rows
    ensures v in sh.table.rows || (l.cyc.phase.Saving? && l.cyc.ver.raw == v
                                   && CycleStep(o, me, l, sh, x).1.table.rows[v].content == l.cyc.content)
  {
    if l.cyc.phase.Activating? {
      ActivateSwitches(sh.table, l.cyc.ver.raw);
    }
  }

  /** The step is a cycle's save that creates the row of `v`. */
  predicate Creates(s: System, a: Step, v: string, content: Bytes) {
    && CycleOf(s, a).Some? && CycleOf(s, a).value.phase.Saving? && CycleOf(s, a).value.ver.raw == v
    && CycleOf(s, a).value.content == content && v !in s.sh.table.rows
  }

  lemma RowOrigin(w: World, s: System, a: Step, v: string)
    requires Enabled(w, s, a) && v in Next(w, s, a).sh.table.rows
    ensures if v in s.sh.table.rows then Next(w, s, a).sh.table.rows[v].content == s.sh.table.rows[v].content
            else Creates(s, a, v, Next(w, s, a).sh.table.rows[v].content)
  {
    if v in s.sh.table.rows {
      StepKeepsBytes(w, s, a, v);
    } else if a.Lead? {
      CycleRows(w.o, a.id, Local(s.nodes[a.id].reg, s.nodes[a.id].pc.cyc), s.sh, a.x, v);
    } else if a.OperatorActivate? {
      ActivateSwitches(s.sh.table, a.v);
    }
    hide CycleStep, BeginCycle, Handle, CatchUp, LoadCached, LoadStored;
  }

  /** Every stored snapshot was created by some cycle's save, and still holds what that saved. */
  lemma {:induction false} RowSavedBy(w: World, ss: seq<System>, acts: seq<Step>, i: nat, v: string) returns (p: nat)
    requires Run(w, ss, acts) && i < |ss| && v in ss[i].sh.table.rows
    ensures p < i && Creates(ss[p], acts[p], v, ss[i].sh.table.rows[v].content)
  {
    NoRowsAtFirst(w, ss, acts, v);
    hide Next, Enabled, Init, Creates;
    RowOrigin(w, ss[i - 1], acts[i - 1], v);
    if v in ss[i - 1].sh.table.rows {
      p := RowSavedBy(w, ss, acts, i - 1, v);
    } else {
      p := i - 1;
    }
  }

  lemma NoRowsAtFirst(w: World, ss: seq<System>, acts: seq<Step>, v: string)
    requires Run(w, ss, acts)
    ensures v !in ss[0].sh.table.rows
  {
  }
}
