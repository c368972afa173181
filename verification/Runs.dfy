/** What holds at every point of every run. */
module Runs {
  import opened Wrappers
  import opened Versions
  import opened Tables
  import opened Registration
  import opened Protocol
  import opened Cluster
  import opened Safety

  /** The versions active in storage at some point up to `ss[i]`. */
  ghost function EverActive(ss: seq<System>, i: nat): set<string>
    requires i < |ss|
  {
    if i == 0 then ActiveSet(ss[0].sh.table) else Seen(EverActive(ss, i - 1), ss[i])
  }

  ghost predicate WasActive(ss: seq<System>, i: nat, v: string)
    requires i < |ss|
  {
    exists j: nat :: j <= i && v in ActiveSet(ss[j].sh.table)
  }

  lemma {:induction false} EverActiveWasActive(ss: seq<System>, i: nat, v: string)
    requires i < |ss|
    ensures v in EverActive(ss, i) <==> WasActive(ss, i, v)
  {
    if i > 0 {
      EverActiveWasActive(ss, i - 1, v);
    }
  }

  lemma InitInv(s: System)
    requires Init(s)
    ensures Inv(s, ActiveSet(s.sh.table))
  {
    assert ActiveSet(s.sh.table) == {};
  }

  lemma {:induction false} RunInv(w: World, ss: seq<System>, acts: seq<Step>, i: nat)
    requires Run(w, ss, acts) && i < |ss|
    ensures Inv(ss[i], EverActive(ss, i))
  {
    if i == 0 {
      InitInv(ss[0]);
    } else {
      RunInv(w, ss, acts, i - 1);
      StepKeeps(w, ss[i - 1], EverActive(ss, i - 1), acts[i - 1]);
    }
  }

  /** Nothing is served, cached or announced that was not active in storage first. A version
      whose every round aborted without activating is therefore live nowhere. */
  lemma VisibleWasActive(w: World, ss: seq<System>, acts: seq<Step>, i: nat)
    requires Run(w, ss, acts) && i < |ss|
    ensures forall id :: id in ss[i].nodes ==>
              ss[i].nodes[id].reg.ver.IsZero() || WasActive(ss, i, ss[i].nodes[id].reg.ver.raw)
    ensures ss[i].sh.cache.Some? ==> WasActive(ss, i, ss[i].sh.cache.value.version)
    ensures forall e :: e in ss[i].sh.sent && (e.action == Sync || e.action == Commit) ==> WasActive(ss, i, e.version)
  {
    var s, ever := ss[i], EverActive(ss, i);
    RunInv(w, ss, acts, i);
    forall v { EverActiveWasActive(ss, i, v); }
    forall id | id in s.nodes ensures s.nodes[id].reg.ver.IsZero() || s.nodes[id].reg.ver.raw in ever {
      assert NodeOk(s, ever, id, s.nodes[id]);
    }
    forall e | e in s.sh.sent && (e.action == Sync || e.action == Commit) ensures e.version in ever {
      assert EventOk(e, s.issued, ever);
    }
  }

  /** At most one active row always; from the first activation on, exactly one, whatever
      failed, half-failed, aborted, retried or was pruned in between. */
  lemma ActiveRowPersists(w: World, ss: seq<System>, acts: seq<Step>, j: nat, i: nat)
    requires Run(w, ss, acts) && j <= i < |ss|
    ensures |ActiveSet(ss[i].sh.table)| <= 1
    ensures ActiveSet(ss[j].sh.table) != {} ==> |ActiveSet(ss[i].sh.table)| == 1
  {
    var now := ActiveSet(ss[i].sh.table);
    RunInv(w, ss, acts, i);
    if v :| v in ActiveSet(ss[j].sh.table) {
      EverActiveWasActive(ss, i, v);
    }
    if v :| v in now {
      assert now == {v};
    }
  }

  ghost predicate KeepsBytes(t: Table, t': Table, v: string) {
    v in t.rows ==>
      && (v in t'.rows ==> t'.rows[v].content == t.rows[v].content)
      && (t.rows[v].status == Active ==> v in t'.rows)
  }

  lemma CycleKeepsBytes(o: Options, me: string, l: Local, sh: Shared, x: Input, v: string)
    ensures KeepsBytes(sh.table, CycleStep(o, me, l, sh, x).1.table, v)
  {
    var u := l.cyc.ver.raw;
    match l.cyc.phase
    case Saving => assert KeepsBytes(sh.table, Save(sh.table, u, l.cyc.content, x.now), v);
    case Activating => ActivateSwitches(sh.table, u);
    case Failing => assert KeepsBytes(sh.table, Fail(sh.table, u), v);
    case _ =>
  }

  /** A stored snapshot's bytes never change while its row exists, and the active row is
      never deleted. */
  lemma StepKeepsBytes(w: World, s: System, a: Step, v: string)
    requires Enabled(w, s, a)
    ensures KeepsBytes(s.sh.table, Next(w, s, a).sh.table, v)
  {
    hide CycleStep, BeginCycle, Handle, CatchUp, LoadCached, LoadStored;
    match a
    case Lead(id, x) => CycleKeepsBytes(w.o, id, Local(s.nodes[id].reg, s.nodes[id].pc.cyc), s.sh, x, v);
    case OperatorActivate(u) => ActivateSwitches(s.sh.table, u);
    case _ =>
  }

  lemma {:induction false} BytesFixedAlong(ss: seq<System>, v: string, j: nat, i: nat)
    requires j <= i < |ss|
    requires forall k :: j <= k <= i ==> v in ss[k].sh.table.rows
    requires forall k :: j <= k < i ==> KeepsBytes(ss[k].sh.table, ss[k + 1].sh.table, v)
    ensures ss[i].sh.table.rows[v].content == ss[j].sh.table.rows[v].content
    decreases i
  {
    if j < i {
      BytesFixedAlong(ss, v, j, i - 1);
      assert KeepsBytes(ss[i - 1].sh.table, ss[i - 1 + 1].sh.table, v);
    }
  }

  lemma StoredBytesFixed(w: World, ss: seq<System>, acts: seq<Step>, v: string, j: nat, i: nat)
    requires Steps(w, ss, acts) && j <= i < |ss|
    requires forall k :: j <= k <= i ==> v in ss[k].sh.table.rows
    ensures ss[i].sh.table.rows[v].content == ss[j].sh.table.rows[v].content
  {
    forall k | j <= k < i ensures KeepsBytes(ss[k].sh.table, ss[k + 1].sh.table, v) {
      StepKeepsBytes(w, ss[k], acts[k], v);
    }
    BytesFixedAlong(ss, v, j, i);
  }

  lemma NodesStay(w: World, s: System, a: Step)
    requires Enabled(w, s, a)
    ensures Next(w, s, a).nodes.Keys == s.nodes.Keys
  {
    hide CycleStep, BeginCycle, Handle, CatchUp, LoadCached, LoadStored;
  }

  /** No round is ever announced both as committed and as aborted. */
  lemma OneVerdictPerRound(w: World, ss: seq<System>, acts: seq<Step>, i: nat, e: Event, f: Event)
    requires Run(w, ss, acts) && i < |ss|
    requires e in ss[i].sh.sent && f in ss[i].sh.sent && e.action == Commit && f.action == Abort
    ensures e.round != f.round
  {
    RunInv(w, ss, acts, i);
  }

  /** Replica `id` is inside one cycle throughout `ss[j..i)`. */
  ghost predicate LeadsThrough(ss: seq<System>, id: string, j: nat, i: nat)
    requires j <= i < |ss|
  {
    forall k :: j <= k < i ==> id in ss[k].nodes && ss[k].nodes[id].pc.Leading?
  }

  /** Inside a cycle nothing but the cycle itself, or a crash, touches a replica: its run loop
      is busy. */
  lemma OnlyItsCycle(w: World, s: System, a: Step, id: string)
    requires Enabled(w, s, a) && id in s.nodes && s.nodes[id].pc.Leading? && !(a.Lead? && a.id == id)
    ensures Next(w, s, a).nodes[id] == s.nodes[id] || Next(w, s, a).nodes[id].pc.Down?
  {
    hide CycleStep, BeginCycle, Handle, CatchUp, LoadCached, LoadStored;
  }

  /** The replica a step runs on. */
  predicate Subject(a: Step, id: string) {
    match a
    case OperatorLock => false
    case OperatorActivate(_) => false
    case OperatorAnnounce => false
    case OperatorUnlock => false
    case _ => a.id == id
  }

  lemma Untouched(w: World, s: System, a: Step, id: string)
    requires Enabled(w, s, a) && id in s.nodes && !Subject(a, id)
    ensures id in Next(w, s, a).nodes && Next(w, s, a).nodes[id] == s.nodes[id]
  {
    hide CycleStep, BeginCycle, Handle, CatchUp, LoadCached, LoadStored;
  }

  lemma LeadKeepsEntry(w: World, s: System, ever: set<string>, a: Step, id: string)
    requires Inv(s, ever) && Enabled(w, s, a) && id in s.nodes && s.nodes[id].pc.Leading?
    ensures id in Next(w, s, a).nodes
    ensures var n := Next(w, s, a).nodes[id];
            && (n.pc.Leading? ==> n.pc.cyc.entry == s.nodes[id].pc.cyc.entry)
            && (n.pc.Elected? ==> n.reg.staged == s.nodes[id].pc.cyc.entry)
  {
    assert NodeOk(s, ever, id, s.nodes[id]);
    hide CycleStep;
    if a.Lead? && a.id == id {
      CycleKeeps(w.o, id, Local(s.nodes[id].reg, s.nodes[id].pc.cyc), s.sh, a.x, s.issued, ever);
    } else {
      OnlyItsCycle(w, s, a, id);
    }
  }

  lemma {:induction false} EntryFixed(w: World, ss: seq<System>, acts: seq<Step>, id: string, j: nat, i: nat)
    requires Run(w, ss, acts) && j < i < |ss| && LeadsThrough(ss, id, j, i)
    ensures id in ss[i].nodes
    ensures ss[i].nodes[id].pc.Leading? ==> ss[i].nodes[id].pc.cyc.entry == ss[j].nodes[id].pc.cyc.entry
    ensures ss[i].nodes[id].pc.Elected? ==> ss[i].nodes[id].reg.staged == ss[j].nodes[id].pc.cyc.entry
    decreases i
  {
    hide Next, Enabled, Inv, Init;
    if j + 1 < i {
      EntryFixed(w, ss, acts, id, j, i - 1);
    }
    RunInv(w, ss, acts, i - 1);
    LeadKeepsEntry(w, ss[i - 1], EverActive(ss, i - 1), acts[i - 1], id);
  }

  /** However a leader cycle ends, in either mode, the leader's staging map is again what it
      was when the cycle began. */
  lemma CycleRestoresStaging(w: World, ss: seq<System>, acts: seq<Step>, j: nat, i: nat)
    requires Run(w, ss, acts) && j + 1 <= i < |ss| && acts[j].Begin?
    requires LeadsThrough(ss, acts[j].id, j + 1, i)
    requires At(ss[i], acts[j].id, Elected)
    ensures ss[i].nodes[acts[j].id].reg.staged == ss[j].nodes[acts[j].id].reg.staged
  {
    var a := acts[j];
    RunInv(w, ss, acts, j);
    FreshRound(ss[j], EverActive(ss, j), a.id, a.round);
    BeginShape(w, a.id, ss[j].nodes[a.id].reg, a.src, a.force, a.round, a.now);
    if j + 1 < i {
      EntryFixed(w, ss, acts, a.id, j + 1, i);
    }
  }

  /** The step at which a cycle applies its own staged value. */
  predicate Applies(cy: Cycle, t: Table, x: Input) {
    if cy.unanimous then cy.phase.Announcing? else cy.phase.Activating? && x.call.Done? && cy.ver.raw in t.rows
  }

  /** The leader always finds what it staged, whatever its TTL, and serves it afterwards even
      when a change hook panics: applying never ends the cycle with an error. */
  lemma ApplyAlwaysLands(w: World, ss: seq<System>, acts: seq<Step>, i: nat)
    requires Run(w, ss, acts) && i < |acts| && acts[i].Lead?
    requires Applies(ss[i].nodes[acts[i].id].pc.cyc, ss[i].sh.table, acts[i].x)
    ensures var cy, n := ss[i].nodes[acts[i].id].pc.cyc, ss[i + 1].nodes[acts[i].id];
            n.pc.Leading? && n.reg.ver == cy.ver && n.reg.items == cy.staged.items && cy.round !in n.reg.staged
  {
    hide Save, Log, ResetLog, Fail, SomeFailed, AllPrepared, ActiveVersion, SharedOk, ActiveSet;
    var id := acts[i].id;
    RunInv(w, ss, acts, i);
    assert NodeOk(ss[i], EverActive(ss, i), id, ss[i].nodes[id]);
  }
}
