/** Two-phase commit: who had prepared, and what, when a round activates. */
module Unanimity {
  import opened Wrappers
  import opened Tables
  import opened Registration
  import opened Protocol
  import opened Cluster
  import opened Safety
  import opened Runs
  import opened Rounds

  /** The step writes "prepared" for `v` into `id`'s apply-log row. */
  predicate LogsPrepared(s: System, a: Step, id: string, v: string) {
    || (a.Flush? && a.id == id && a.call.TookEffect() && id in s.nodes
        && s.nodes[id].pc == Logging(LogWrite(v, Prepared)))
    || (CycleOf(s, a).Some? && a.id == id && a.x.call.TookEffect()
        && CycleOf(s, a).value.phase.SelfLogging? && CycleOf(s, a).value.ver.raw == v)
  }

  /** The step is round `round`'s ResetApplyLog for `v`, and it succeeded. */
  predicate ResetsFor(s: System, a: Step, round: string, v: string) {
    && CycleOf(s, a).Some? && a.x.call.Done? && CycleOf(s, a).value.phase.Resetting?
    && CycleOf(s, a).value.round == round && CycleOf(s, a).value.ver.raw == v
  }

  predicate ResetsLog(s: System, a: Step, v: string) {
    CycleOf(s, a).Some? && a.x.call.TookEffect() && CycleOf(s, a).value.phase.Resetting?
    && CycleOf(s, a).value.ver.raw == v
  }

  lemma CycleLog(o: Options, me: string, l: Local, sh: Shared, x: Input, id: string, v: string)
    requires var log := CycleStep(o, me, l, sh, x).1.table.log; (id, v) in log && log[(id, v)] == Prepared
    ensures || (me == id && x.call.TookEffect() && l.cyc.phase.SelfLogging? && l.cyc.ver.raw == v)
            || ((id, v) in sh.table.log && sh.table.log[(id, v)] == Prepared
                && !(l.cyc.phase.Resetting? && x.call.TookEffect() && l.cyc.ver.raw == v))
  {
    match l.cyc.phase
    case Resetting =>
    case SelfLogging =>
    case Recording =>
    case _ =>
  }

  /** A "prepared" row was written by the step just made, or was there and was not reset. */
  lemma PreparedRow(w: World, s: System, a: Step, id: string, v: string)
    requires Enabled(w, s, a)
    requires var log := Next(w, s, a).sh.table.log; (id, v) in log && log[(id, v)] == Prepared
    ensures LogsPrepared(s, a, id, v)
            || ((id, v) in s.sh.table.log && s.sh.table.log[(id, v)] == Prepared && !ResetsLog(s, a, v))
  {
    if a.Lead? {
      CycleLog(w.o, a.id, Local(s.nodes[a.id].reg, s.nodes[a.id].pc.cyc), s.sh, a.x, id, v);
    }
  }

  /** Every "prepared" row was written since the last reset of its version. */
  lemma {:induction false} PreparedSinceReset(w: World, ss: seq<System>, acts: seq<Step>, i: nat, id: string, v: string)
    returns (m: nat)
    requires Run(w, ss, acts) && i < |ss|
    requires var log := ss[i].sh.table.log; (id, v) in log && log[(id, v)] == Prepared
    ensures m < i && LogsPrepared(ss[m], acts[m], id, v)
    ensures forall n :: m < n < i ==> !ResetsLog(ss[n], acts[n], v)
  {
    PreparedRow(w, ss[i - 1], acts[i - 1], id, v);
    if LogsPrepared(ss[i - 1], acts[i - 1], id, v) {
      m := i - 1;
    } else {
      m := PreparedSinceReset(w, ss, acts, i - 1, id, v);
    }
  }

  predicate AfterReset(p: Phase) {
    match p
    case Targeting | SelfLogging | Preparing | PollAlive | PollFailed | PollPrepared | Activating => true
    case _ => false
  }

  /** Replica `id` leads a 2PC round `round` for `v`, past its reset. */
  predicate InRound(s: System, id: string, round: string, v: string) {
    && id in s.nodes && s.nodes[id].pc.Leading? && s.nodes[id].pc.cyc.unanimous
    && AfterReset(s.nodes[id].pc.cyc.phase)
    && s.nodes[id].pc.cyc.round == round && s.nodes[id].pc.cyc.ver.raw == v
  }

  lemma CycleEnters(o: Options, me: string, l: Local, sh: Shared, x: Input)
    requires AfterReset(CycleStep(o, me, l, sh, x).0.cyc.phase)
    ensures || AfterReset(l.cyc.phase)
            || (l.cyc.phase.Resetting? && x.call.Done?)
            || (l.cyc.phase.Saving? && !l.cyc.unanimous)
    ensures SameCycle(l.cyc, CycleStep(o, me, l, sh, x).0.cyc)
  {
    hide Activate, Save, Log, ResetLog, Fail, SomeFailed, AllPrepared, AfterCommitStaged, ActiveVersion;
  }

  lemma EntersRound(w: World, s: System, a: Step, id: string, round: string, v: string)
    requires Enabled(w, s, a) && InRound(Next(w, s, a), id, round, v)
    ensures (a.Lead? && a.id == id && ResetsFor(s, a, round, v)) || InRound(s, id, round, v)
  {
    hide CycleStep, BeginCycle, Handle, CatchUp, LoadCached, LoadStored;
    if a.Lead? && a.id == id {
      CycleEnters(w.o, id, Local(s.nodes[id].reg, s.nodes[id].pc.cyc), s.sh, a.x);
    } else if id in s.nodes && s.nodes[id].pc.Leading? {
      OnlyItsCycle(w, s, a, id);
    } else {
      StartsLeading(w, s, a, id);
      BeginOpens(w, s, a);
    }
  }

  lemma NoRoundAtFirst(w: World, ss: seq<System>, acts: seq<Step>, id: string, round: string, v: string)
    requires Run(w, ss, acts)
    ensures !InRound(ss[0], id, round, v)
  {
    NobodyAtFirst(w, ss, acts, id);
  }

  /** A round past its reset has reset the log. */
  lemma {:induction false} RoundWasReset(w: World, ss: seq<System>, acts: seq<Step>, i: nat, id: string,
                                         round: string, v: string)
    returns (r: nat)
    requires Run(w, ss, acts) && i < |ss| && InRound(ss[i], id, round, v)
    ensures r < i && acts[r].Lead? && acts[r].id == id && ResetsFor(ss[r], acts[r], round, v)
    ensures forall k :: r < k <= i ==> InRound(ss[k], id, round, v)
  {
    hide Next, Enabled, Init, ResetsFor, InRound;
    NoRoundAtFirst(w, ss, acts, id, round, v);
    EntersRound(w, ss[i - 1], acts[i - 1], id, round, v);
    if acts[i - 1].Lead? && acts[i - 1].id == id && ResetsFor(ss[i - 1], acts[i - 1], round, v) {
      r := i - 1;
    } else {
      r := RoundWasReset(w, ss, acts, i - 1, id, round, v);
    }
  }

  /** The step is `id`'s deciding check: it found every target it saw alive prepared. */
  predicate Decides2PC(s: System, a: Step, id: string, cy: Cycle) {
    && a.Lead? && a.id == id && CycleOf(s, a) == Some(cy.(phase := PollPrepared))
    && AllPrepared(s.sh.table, cy.ver.raw, cy.target * cy.alive)
  }

  predicate Deciding(s: System, id: string, cy: Cycle) {
    id in s.nodes && s.nodes[id].pc == Leading(cy) && cy.unanimous && cy.phase.Activating? && cy.target != {}
  }

  lemma CycleDecides(o: Options, me: string, l: Local, sh: Shared, x: Input)
    requires var cy := CycleStep(o, me, l, sh, x).0.cyc; cy.unanimous && cy.phase.Activating? && cy.target != {}
    ensures var cy := CycleStep(o, me, l, sh, x).0.cyc;
            && l.cyc == cy.(phase := PollPrepared) && AllPrepared(sh.table, cy.ver.raw, cy.target * cy.alive)
  {
    hide SomeFailed, AllPrepared, ApplyStaged, WriteTable, ActiveVersion;
    match l.cyc.phase
    case PollPrepared =>
    case _ =>
  }

  lemma EntersDecision(w: World, s: System, a: Step, id: string, cy: Cycle)
    requires Enabled(w, s, a) && Deciding(Next(w, s, a), id, cy)
    ensures Decides2PC(s, a, id, cy) || Deciding(s, id, cy)
  {
    hide CycleStep, BeginCycle, Handle, CatchUp, LoadCached, LoadStored, AllPrepared;
    if a.Lead? && a.id == id {
      CycleDecides(w.o, id, Local(s.nodes[id].reg, s.nodes[id].pc.cyc), s.sh, a.x);
    } else if id in s.nodes && s.nodes[id].pc.Leading? {
      OnlyItsCycle(w, s, a, id);
    } else {
      StartsLeading(w, s, a, id);
      BeginOpens(w, s, a);
    }
  }

  lemma NoDecisionAtFirst(w: World, ss: seq<System>, acts: seq<Step>, id: string, cy: Cycle)
    requires Run(w, ss, acts)
    ensures !Deciding(ss[0], id, cy)
  {
    NobodyAtFirst(w, ss, acts, id);
  }

  /** A round about to activate, with anyone to wait for, passed a deciding check. */
  lemma {:induction false} RoundWasDecided(w: World, ss: seq<System>, acts: seq<Step>, i: nat, id: string, cy: Cycle)
    returns (d: nat)
    requires Run(w, ss, acts) && i < |ss| && Deciding(ss[i], id, cy)
    ensures d < i && Decides2PC(ss[d], acts[d], id, cy)
  {
    hide Next, Enabled, Init, Decides2PC, Deciding;
    NoDecisionAtFirst(w, ss, acts, id, cy);
    EntersDecision(w, ss[i - 1], acts[i - 1], id, cy);
    if Decides2PC(ss[i - 1], acts[i - 1], id, cy) {
      d := i - 1;
    } else {
      d := RoundWasDecided(w, ss, acts, i - 1, id, cy);
    }
  }

  /** `id` accepts the bytes the row of `v` held at `s`. */
  ghost predicate Accepts(w: World, s: System, id: string, v: string) {
    v in s.sh.table.rows && Accept(w.codec(id), s.sh.table.rows[v].content).Some?
  }

  /** `id` handles a prepare event for `v`. */
  predicate Prepares(a: Step, id: string, v: string) {
    a.Deliver? && a.id == id && a.e.action == Prepare && a.e.version == v
  }

  predicate AboutToAck(s: System, id: string, v: string) {
    id in s.nodes && s.nodes[id].pc == Logging(LogWrite(v, Prepared))
  }

  lemma AckStep(w: World, s: System, a: Step, id: string, v: string)
    requires Enabled(w, s, a) && id in w.managed && AboutToAck(Next(w, s, a), id, v)
    ensures AboutToAck(s, id, v) || (Prepares(a, id, v) && Accepts(w, s, id, v))
  {
    hide CycleStep, BeginCycle, LoadCached, LoadStored, OnRollback;
  }

  /** A follower that is about to log "prepared" handled a prepare event for that version, in
      this round or in an earlier aborted one, and accepted the bytes the row then held. */
  lemma {:induction false} AckAccepted(w: World, ss: seq<System>, acts: seq<Step>, i: nat, id: string, v: string)
    returns (j: nat)
    requires Run(w, ss, acts) && i < |ss| && id in w.managed && AboutToAck(ss[i], id, v)
    ensures j < i && Prepares(acts[j], id, v) && Accepts(w, ss[j], id, v)
  {
    hide Next, Enabled, Prepares, Accepts;
    AckStep(w, ss[i - 1], acts[i - 1], id, v);
    if AboutToAck(ss[i - 1], id, v) {
      j := AckAccepted(w, ss, acts, i - 1, id, v);
    } else {
      j := i - 1;
    }
  }

  /** The row of `v` is never pruned and then saved again with other bytes. */
  ghost predicate Stable(ss: seq<System>, v: string) {
    forall j, k :: 0 <= j < |ss| && 0 <= k < |ss| && v in ss[j].sh.table.rows && v in ss[k].sh.table.rows ==>
      ss[j].sh.table.rows[v].content == ss[k].sh.table.rows[v].content
  }

  /** Target `id` stands behind the activation at step `i` of the round led by `leader`: it
      logged "prepared" between the round's reset `r` and its deciding check `d`; and, if it
      manages the collection, it had handled a prepare event for this version and accepted the
      bytes stored then, which are the very bytes being activated when the row is stable. */
  ghost predicate Backs(w: World, ss: seq<System>, acts: seq<Step>, i: nat, leader: string, v: string, r: nat,
                        d: nat, id: string)
    requires |ss| == |acts| + 1 && r < d < i < |acts|
  {
    && (exists m :: r < m < d && LogsPrepared(ss[m], acts[m], id, v))
    && (id in w.managed && id != leader ==>
          && (exists j :: 0 <= j < d && Prepares(acts[j], id, v) && Accepts(w, ss[j], id, v))
          && (Stable(ss, v) ==> Accepts(w, ss[i], id, v)))
  }

  /** The round that activates at step `i` reset the log at `r` and decided at `d`, and every
      instance of its target set that the deciding check saw alive backs it. */
  ghost predicate Unanimous(w: World, ss: seq<System>, acts: seq<Step>, i: nat, cy: Cycle, r: nat, d: nat)
    requires |ss| == |acts| + 1 && r < d < i < |acts|
  {
    && acts[i].Lead? && ResetsFor(ss[r], acts[r], cy.round, cy.ver.raw)
    && Decides2PC(ss[d], acts[d], acts[i].id, cy)
    && forall id :: id in cy.target * cy.alive ==> Backs(w, ss, acts, i, acts[i].id, cy.ver.raw, r, d, id)
  }

  /** While a round runs, nobody but its leader logs "prepared" as a leader. */
  lemma OthersOnlyFlush(w: World, ss: seq<System>, acts: seq<Step>, m: nat, id: string, leader: string,
                        round: string, v: string)
    requires Run(w, ss, acts) && m < |acts| && InRound(ss[m], leader, round, v) && id != leader
    requires LogsPrepared(ss[m], acts[m], id, v)
    ensures AboutToAck(ss[m], id, v)
  {
    RunInv(w, ss, acts, m);
    OneLeader(ss[m], EverActive(ss, m), leader);
  }

  lemma AckOf(w: World, ss: seq<System>, acts: seq<Step>, i: nat, leader: string, cy: Cycle, r: nat, d: nat, id: string)
    requires Run(w, ss, acts) && r < d < i < |acts|
    requires ResetsFor(ss[r], acts[r], cy.round, cy.ver.raw)
    requires forall k :: r < k <= d ==> InRound(ss[k], leader, cy.round, cy.ver.raw)
    requires Decides2PC(ss[d], acts[d], leader, cy)
    requires cy.ver.raw in ss[i].sh.table.rows && id in cy.target * cy.alive
    ensures Backs(w, ss, acts, i, leader, cy.ver.raw, r, d, id)
  {
    var v := cy.ver.raw;
    var m := PreparedSinceReset(w, ss, acts, d, id, v);
    assert ResetsLog(ss[r], acts[r], v) && m != r;
    if id in w.managed && id != leader {
      assert InRound(ss[m], leader, cy.round, v);
      OthersOnlyFlush(w, ss, acts, m, id, leader, cy.round, v);
      var j := AckAccepted(w, ss, acts, m, id, v);
    }
  }

  /** When a 2PC round with anyone to wait for activates its version, it did so unanimously. */
  lemma ActivationIsUnanimous(w: World, ss: seq<System>, acts: seq<Step>, i: nat) returns (r: nat, d: nat)
    requires Run(w, ss, acts) && i < |acts| && CycleOf(ss[i], acts[i]).Some?
    requires Deciding(ss[i], acts[i].id, CycleOf(ss[i], acts[i]).value)
    ensures r < d < i && Unanimous(w, ss, acts, i, CycleOf(ss[i], acts[i]).value, r, d)
  {
    var id, cy := acts[i].id, CycleOf(ss[i], acts[i]).value;
    RowHeld(w, ss, acts, i, id);
    d := RoundWasDecided(w, ss, acts, i, id, cy);
    assert InRound(ss[d], id, cy.round, cy.ver.raw);
    r := RoundWasReset(w, ss, acts, d, id, cy.round, cy.ver.raw);
    forall x | x in cy.target * cy.alive
      ensures Backs(w, ss, acts, i, id, cy.ver.raw, r, d, x)
    {
      AckOf(w, ss, acts, i, id, cy, r, d, x);
    }
  }

  lemma {:induction false} RowStays(w: World, ss: seq<System>, acts: seq<Step>, v: string, j: nat, i: nat)
    requires Steps(w, ss, acts) && j <= i < |ss| && v in ss[j].sh.table.rows
    requires forall k :: 0 <= k < |acts| ==> !acts[k].PruneRows?
    ensures forall k :: j <= k <= i ==> v in ss[k].sh.table.rows
    decreases i
  {
    if j < i {
      RowStays(w, ss, acts, v, j, i - 1);
      KeepsRows(w, ss[i - 1], acts[i - 1], v);
    }
  }

  /** With snapshot retention off, which is the default, every row is stable. */
  lemma UnprunedIsStable(w: World, ss: seq<System>, acts: seq<Step>, v: string)
    requires Steps(w, ss, acts) && forall k :: 0 <= k < |acts| ==> !acts[k].PruneRows?
    ensures Stable(ss, v)
  {
    forall j: nat, k: nat | j <= k < |ss| && v in ss[j].sh.table.rows && v in ss[k].sh.table.rows
      ensures ss[j].sh.table.rows[v].content == ss[k].sh.table.rows[v].content
    {
      RowStays(w, ss, acts, v, j, k);
      StoredBytesFixed(w, ss, acts, v, j, k);
    }
  }
}
