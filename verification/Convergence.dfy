/** Where replicas end up when notifications are lost: the periodic catch-up pass. */
module Convergence {
  import opened Wrappers
  import opened Versions
  import opened Tables
  import opened Registration
  import opened Protocol
  import opened Cluster
  import opened Runs

  /** `ver` is the one active version, and every managing replica accepts its bytes. */
  ghost predicate Target(w: World, sh: Shared, ver: Version) {
    && ActiveSet(sh.table) == {ver.raw}
    && ParseVersion(w.o.time, ver.raw) == Some(ver)
    && forall id :: id in w.managed ==> Accept(w.codec(id), sh.table.rows[ver.raw].content).Some?
  }

  ghost function TargetItems(w: World, sh: Shared, ver: Version, id: string): seq<Item>
    requires Target(w, sh, ver) && id in w.managed
  {
    assert ver.raw in ActiveSet(sh.table);
    Accept(w.codec(id), sh.table.rows[ver.raw].content).value
  }

  predicate AtMost(u: Version, ver: Version) {
    u == ver || u.IsZero() || (ver.After(u) && u.raw != ver.raw)
  }

  lemma TargetRow(w: World, sh: Shared, ver: Version)
    requires Target(w, sh, ver)
    ensures ver.raw in sh.table.rows && ActiveVersion(sh.table) == Some(ver.raw)
  {
    assert ver.raw in ActiveSet(sh.table);
  }

  /** The steps of a cluster whose source is quiet: sync events lost, late, twice or out of
      order, prepares and aborts, catch-up passes, log writes, sweeps. */
  predicate Calm(a: Step) {
    match a
    case Deliver(_, e, _, _, _) => e.action != Commit && e.action != Rollback
    case Probe(_, _) => true
    case Load(_, _, _) => true
    case Flush(_, _) => true
    case SweepStages(_, _) => true
    case _ => false
  }

  /** Nothing held or announced is ahead of the target. */
  ghost predicate Settling(w: World, s: System, ver: Version) {
    && Target(w, s.sh, ver)
    && (forall id :: id in s.nodes ==> AtMost(s.nodes[id].reg.ver, ver))
    && (forall e :: e in s.sh.sent && e.action == Sync ==>
          var u := ParseVersion(w.o.time, e.version); u.Some? ==> AtMost(u.value, ver))
  }

  /** The managing replicas not at the target. */
  ghost function Lagging(w: World, s: System, ver: Version): set<string> {
    set id | id in s.nodes && id in w.managed && s.nodes[id].reg.ver != ver
  }

  lemma CalmShared(w: World, s: System, a: Step)
    requires Enabled(w, s, a) && Calm(a)
    ensures var s' := Next(w, s, a);
            s'.sh.table.rows == s.sh.table.rows && s'.sh.sent == s.sh.sent && s'.nodes.Keys == s.nodes.Keys
            && ActiveSet(s'.sh.table) == ActiveSet(s.sh.table)
  {
  }

  /** One calm step: a replica stays where it is or goes straight to a version at most the
      target, and never leaves the target. */
  lemma CalmNode(w: World, s: System, a: Step, ver: Version, id: string)
    requires Canonical(w.o.time) && Settling(w, s, ver) && Enabled(w, s, a) && Calm(a) && id in s.nodes
    ensures var r, r' := s.nodes[id].reg, Next(w, s, a).nodes[id].reg;
            && AtMost(r'.ver, ver)
            && (r.ver == ver ==> r'.ver == ver && r'.items == r.items)
  {
    TargetRow(w, s.sh, ver);
    assert AtMost(s.nodes[id].reg.ver, ver);
  }

  lemma CalmStep(w: World, s: System, a: Step, ver: Version)
    requires Canonical(w.o.time) && Settling(w, s, ver) && Enabled(w, s, a) && Calm(a)
    ensures var s' := Next(w, s, a);
            && Settling(w, s', ver) && Lagging(w, s', ver) <= Lagging(w, s, ver)
            && s'.sh.table.rows == s.sh.table.rows
  {
    CalmShared(w, s, a);
    forall id | id in s.nodes { CalmNode(w, s, a, ver, id); }
  }

  lemma {:induction false} CalmRun(w: World, ss: seq<System>, acts: seq<Step>, ver: Version, i: nat, j: nat)
    requires Canonical(w.o.time) && Steps(w, ss, acts) && i <= j < |ss| && Settling(w, ss[i], ver)
    requires forall k :: i <= k < j ==> Calm(acts[k])
    ensures Settling(w, ss[j], ver) && Lagging(w, ss[j], ver) <= Lagging(w, ss[i], ver)
    ensures ss[j].sh.table.rows == ss[i].sh.table.rows && ss[j].nodes.Keys == ss[i].nodes.Keys
    decreases j
  {
    if i < j {
      CalmRun(w, ss, acts, ver, i, j - 1);
      CalmStep(w, ss[j - 1], acts[j - 1], ver);
      CalmShared(w, ss[j - 1], acts[j - 1]);
    }
  }

  /** Fewer and fewer replicas lag, and one that does not lag never moves. */
  lemma LagNeverGrows(w: World, ss: seq<System>, acts: seq<Step>, ver: Version, i: nat, j: nat)
    requires Canonical(w.o.time) && Steps(w, ss, acts) && i <= j < |ss| && Settling(w, ss[i], ver)
    requires forall k :: i <= k < j ==> Calm(acts[k])
    ensures |Lagging(w, ss[j], ver)| <= |Lagging(w, ss[i], ver)|
  {
    CalmRun(w, ss, acts, ver, i, j);
    SubsetCard(Lagging(w, ss[j], ver), Lagging(w, ss[i], ver));
  }

  lemma {:induction false} SubsetCard(a: set<string>, b: set<string>)
    requires a <= b
    ensures |a| <= |b|
  {
    if x :| x in a {
      SubsetCard(a - {x}, b - {x});
    }
  }

  lemma {:induction false} StaysAt(w: World, ss: seq<System>, acts: seq<Step>, ver: Version, i: nat, j: nat, id: string)
    requires Canonical(w.o.time) && Steps(w, ss, acts) && i <= j < |ss| && Settling(w, ss[i], ver)
    requires forall k :: i <= k < j ==> Calm(acts[k])
    requires id in ss[i].nodes && ss[i].nodes[id].reg.ver == ver
    ensures id in ss[j].nodes && ss[j].nodes[id].reg.ver == ver
    ensures ss[j].nodes[id].reg.items == ss[i].nodes[id].reg.items
    decreases j
  {
    if i < j {
      StaysAt(w, ss, acts, ver, i, j - 1, id);
      CalmRun(w, ss, acts, ver, i, j - 1);
      CalmNode(w, ss[j - 1], acts[j - 1], ver, id);
      CalmShared(w, ss[j - 1], acts[j - 1]);
    }
  }

  lemma {:induction false} Undisturbed(w: World, ss: seq<System>, acts: seq<Step>, i: nat, j: nat, id: string)
    requires Steps(w, ss, acts) && i <= j < |ss| && id in ss[i].nodes
    requires forall k :: i <= k < j ==> !Subject(acts[k], id)
    ensures id in ss[j].nodes && ss[j].nodes[id] == ss[i].nodes[id]
    decreases j
  {
    if i < j {
      Undisturbed(w, ss, acts, i, j - 1, id);
      Untouched(w, ss[j - 1], acts[j - 1], id);
      hide Next, Enabled, Subject;
    }
  }

  lemma PassLoads(w: World, s: System, s1: System, s2: System, id: string, panics: bool, ver: Version)
    requires Canonical(w.o.time) && Settling(w, s, ver) && Enabled(w, s, Probe(id, true)) && id in Lagging(w, s, ver)
    requires s1 == Next(w, s, Probe(id, true))
    requires Target(w, s2.sh, ver) && id in s2.nodes && s2.nodes[id] == s1.nodes[id]
    ensures Enabled(w, s2, Load(id, true, panics))
    ensures var n := Next(w, s2, Load(id, true, panics)).nodes[id];
            n.reg.ver == ver && n.reg.items == TargetItems(w, s2.sh, ver, id)
  {
    TargetRow(w, s.sh, ver);
    TargetRow(w, s2.sh, ver);
  }

  /** A lagging replica that probes at step `i` and loads at step `j`, both without a read
      error, holds the target with the target's items from then on, whatever the others do
      meanwhile and even if a change hook panics. */
  lemma CatchUpConverges(w: World, ss: seq<System>, acts: seq<Step>, ver: Version, id: string, panics: bool,
                         i: nat, j: nat, k: nat)
    requires Canonical(w.o.time) && Steps(w, ss, acts) && i < j < k < |ss| && Settling(w, ss[i], ver)
    requires forall n :: i <= n < k ==> Calm(acts[n])
    requires acts[i] == Probe(id, true) && acts[j] == Load(id, true, panics) && id in Lagging(w, ss[i], ver)
    requires forall n :: i < n < j ==> !Subject(acts[n], id)
    ensures id in ss[k].nodes && ss[k].nodes[id].reg.ver == ver
    ensures Target(w, ss[i].sh, ver) && ss[k].nodes[id].reg.items == TargetItems(w, ss[i].sh, ver, id)
  {
    CalmRun(w, ss, acts, ver, i, j);
    CalmRun(w, ss, acts, ver, i, j + 1);
    Undisturbed(w, ss, acts, i + 1, j, id);
    PassLoads(w, ss[i], ss[i + 1], ss[j], id, panics, ver);
    StaysAt(w, ss, acts, ver, j + 1, k, id);
  }
}
