/** A replica's staged values over whole runs: where each came from, how long it may stay, and
    how often it can go live. */
module Staging {
  import opened Registration
  import opened Protocol
  import opened Cluster
  import opened Runs

  /** The steps that can put a value under `round` into `id`'s staging map. */
  predicate Stashes(a: Step, id: string, round: string) {
    || (a.Begin? && a.id == id && a.round == round)
    || (a.Deliver? && a.id == id && a.e.action == Prepare && a.e.round == round)
  }

  /** The lifetime such a step gives it: an eventually-consistent cycle keeps its value until
      it commits or drops it itself. */
  function Lifetime(o: Options, a: Step): nat {
    if a.Begin? && !o.unanimous then 0 else o.ttl
  }

  ghost predicate StashedAt(o: Options, s: Staged, a: Step)
    requires a.Begin? || a.Deliver?
  {
    s.expires == Expiry(a.now, Lifetime(o, a))
  }

  lemma BeginStages(w: World, id: string, r: Reg, src: Source, force: bool, round: string, now: int, k: string)
    ensures var (r', cy) := BeginCycle(w.o, w.codec(id), r, src, force, round, now);
            k in r'.staged ==>
              || (k in r.staged && r'.staged[k] == r.staged[k])
              || (k == round && r'.staged[k].expires == Expiry(now, if w.o.unanimous then w.o.ttl else 0))
  {
  }

  lemma CycleStages(o: Options, me: string, l: Local, sh: Shared, x: Input, k: string)
    ensures var (l', _) := CycleStep(o, me, l, sh, x);
            k in l'.reg.staged ==> k in l.reg.staged && l'.reg.staged[k] == l.reg.staged[k]
  {
  }

  lemma HandleStages(w: World, id: string, n: Node, sh: Shared, e: Event, ok: bool, panics: bool, now: int, k: string)
    ensures var n' := Handle(w, id, n, sh, e, ok, panics, now);
            k in n'.reg.staged ==>
              || (k in n.reg.staged && n'.reg.staged[k] == n.reg.staged[k])
              || (e.action == Prepare && e.round == k && n'.reg.staged[k].expires == Expiry(now, w.o.ttl))
  {
  }

  /** A value staged after a step was there before, untouched, or the step stashed it. */
  lemma StepStages(w: World, s: System, a: Step, id: string, k: string)
    requires Enabled(w, s, a) && id in s.nodes && k in Next(w, s, a).nodes[id].reg.staged
    ensures var was, now_ := s.nodes[id].reg.staged, Next(w, s, a).nodes[id].reg.staged;
            || (k in was && now_[k] == was[k])
            || (Stashes(a, id, k) && StashedAt(w.o, now_[k], a))
  {
    var n := s.nodes[id];
    if a.Begin? && a.id == id {
      BeginStages(w, id, n.reg, a.src, a.force, a.round, a.now, k);
    } else if a.Lead? && a.id == id {
      CycleStages(w.o, id, Local(n.reg, n.pc.cyc), s.sh, a.x, k);
    } else if a.Deliver? && a.id == id {
      HandleStages(w, id, n, s.sh, a.e, a.ok, a.panics, a.now, k);
    }
    hide CycleStep, BeginCycle, Handle;
  }

  lemma NothingAtFirst(w: World, ss: seq<System>, acts: seq<Step>, id: string, k: string)
    requires Run(w, ss, acts)
    ensures id in ss[0].nodes ==> k !in ss[0].nodes[id].reg.staged
  {
  }

  /** Every staged value was stashed by a step of the run, carries the expiry that step gave
      it, and has been there, the same value, ever since. */
  lemma {:induction false} StashedBy(w: World, ss: seq<System>, acts: seq<Step>, i: nat, id: string, k: string)
    returns (m: nat)
    requires Run(w, ss, acts) && i < |ss| && id in ss[i].nodes && k in ss[i].nodes[id].reg.staged
    ensures m < i && Stashes(acts[m], id, k) && StashedAt(w.o, ss[i].nodes[id].reg.staged[k], acts[m])
    ensures forall n :: m < n <= i ==>
              && id in ss[n].nodes && k in ss[n].nodes[id].reg.staged
              && ss[n].nodes[id].reg.staged[k] == ss[i].nodes[id].reg.staged[k]
  {
    NothingAtFirst(w, ss, acts, id, k);
    hide Next, Enabled, Init, Stashes, StashedAt;
    NodesStay(w, ss[i - 1], acts[i - 1]);
    StepStages(w, ss[i - 1], acts[i - 1], id, k);
    var was := ss[i - 1].nodes[id].reg.staged;
    if k in was && was[k] == ss[i].nodes[id].reg.staged[k] {
      m := StashedBy(w, ss, acts, i - 1, id, k);
    } else {
      m := i - 1;
    }
  }

  /** Right after a sweep at `now`, whatever is left with a lifetime was stashed less than that
      lifetime before; so no follower's value outlives PrepareTTL by more than one tick. */
  lemma SweptIsFresh(w: World, ss: seq<System>, acts: seq<Step>, i: nat, id: string, now: int, k: string)
    returns (m: nat)
    requires Run(w, ss, acts) && i < |acts| && acts[i] == SweepStages(id, now) && k in ss[i + 1].nodes[id].reg.staged
    ensures m < i && Stashes(acts[m], id, k)
    ensures Lifetime(w.o, acts[m]) > 0 ==> now < acts[m].now + Lifetime(w.o, acts[m])
    ensures k in ss[i].nodes[id].reg.staged
  {
    m := StashedBy(w, ss, acts, i + 1, id, k);
    assert !Expired(ss[i + 1].nodes[id].reg.staged[k], now);
  }

  /** The commit of `round` finds its value staged and swaps it live. */
  predicate GoesLive(w: World, s: System, a: Step, id: string, round: string) {
    && a.Deliver? && a.id == id && a.e.action == Commit && a.e.round == round && !(a.e.origin != "" && a.e.origin == id)
    && w.o.unanimous && id in w.managed && id in s.nodes && round in s.nodes[id].reg.staged
  }

  /** Between two commits that both found a value to swap, the value was stashed again: each
      stash goes live at most once. */
  lemma OncePerStash(w: World, ss: seq<System>, acts: seq<Step>, j: nat, i: nat, id: string, round: string)
    returns (m: nat)
    requires Run(w, ss, acts) && j < i < |acts|
    requires GoesLive(w, ss[j], acts[j], id, round) && GoesLive(w, ss[i], acts[i], id, round)
    ensures j < m < i && Stashes(acts[m], id, round)
  {
    m := StashedBy(w, ss, acts, i, id, round);
    assert round !in ss[j + 1].nodes[id].reg.staged;
  }
}
