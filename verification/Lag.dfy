/** What a leader that lags behind the active snapshot can do: the leader's own forward test
    compares with the version it serves, not with the active one. */
module Lag {
  import opened Wrappers
  import opened Versions
  import opened Tables
  import opened Registration
  import opened Protocol
  import opened Cluster
  import opened Safety
  import opened Runs
  import opened Rounds
  import opened Forward
  import opened Scripts

  /** An activation that takes effect moves the active version forward, or leaves it, exactly
      when what it activates is not earlier than what it replaces. */
  lemma ActivationDirection(f: TimeFormat, t: Table, v: string, a: string)
    requires OneActive(t) && v in t.rows && a in ActiveSet(t)
    ensures ActiveSet(Activate(t, v)) == {v}
    ensures Advanced(f, t, Activate(t, v)) <==> v == a || Instant(f, a) < Instant(f, v)
  {
    ActivateSwitches(t, v);
    if v != a {
      assert v in ActiveSet(Activate(t, v)) && v !in ActiveSet(t);
    }
  }

  /** The step is an activation by a cycle, and it takes effect. */
  predicate Activation(s: System, a: Step) {
    CycleOf(s, a).Some? && CycleOf(s, a).value.phase.Activating? && a.x.call.TookEffect()
  }

  lemma ActivationSwitches(w: World, s: System, a: Step)
    requires Enabled(w, s, a) && Activation(s, a)
    ensures Next(w, s, a).sh.table == Activate(s.sh.table, CycleOf(s, a).value.ver.raw)
  {
  }

  /** In either mode, forced or not, an activation was begun by a cycle that compared its version
      only with the one its leader served then. It makes that version active, and keeps the
      active version from going back if and only if the version was also the active one, or
      later than it, when the cycle began. */
  lemma LaggingLeaderRewinds(w: World, ss: seq<System>, acts: seq<Step>, i: nat) returns (b: nat)
    requires Run(w, ss, acts) && i < |acts| && Activation(ss[i], acts[i])
    ensures b < i && acts[b].Begin? && acts[b].id == acts[i].id && acts[b].src.reported.Some?
    ensures var r := ss[b].nodes[acts[b].id].reg;
            var ver := SyncVersion(w.o.time, acts[b].src.reported.value, r.ver, acts[b].force, acts[b].now);
            && AllowForward(r, ver) && ActiveSet(ss[i + 1].sh.table) == {ver.raw}
            && (Advanced(w.o.time, ss[i].sh.table, ss[i + 1].sh.table) <==>
                  forall a :: a in ActiveSet(ss[b].sh.table) ==>
                    ver.raw == a || Instant(w.o.time, a) < Instant(w.o.time, ver.raw))
  {
    var id, cy := acts[i].id, CycleOf(ss[i], acts[i]).value;
    var t := ss[i].sh.table;
    b := OpenedBy(w, ss, acts, i, id);
    BeginCompares(w, id, ss[b].nodes[id].reg, acts[b].src, acts[b].force, acts[b].round, acts[b].now);
    RowHeld(w, ss, acts, i, id);
    ActiveWhileOpening(w, ss, acts, b, i, id);
    ActivationSwitches(w, ss[i], acts[i]);
    ActivateSwitches(t, cy.ver.raw);
    RunInv(w, ss, acts, i);
    hide Next, Enabled, Inv, Init, Advanced, BeginCycle, ActiveSet, Activate;
    if a :| a in ActiveSet(t) {
      ActivationDirection(w.o.time, t, cy.ver.raw, a);
    } else {
      FirstActivation(w.o.time, t, cy.ver.raw);
    }
  }

  lemma FirstActivation(f: TimeFormat, t: Table, v: string)
    requires ActiveSet(t) == {} && v in t.rows
    ensures Advanced(f, t, Activate(t, v))
  {
    ActivateSwitches(t, v);
    assert v in ActiveSet(Activate(t, v)) && Ahead(f, t, v);
  }

  lemma BeginCompares(w: World, id: string, r: Reg, src: Source, force: bool, round: string, now: int)
    ensures var (_, cy) := BeginCycle(w.o, w.codec(id), r, src, force, round, now);
            cy.phase.Saving? ==>
              && src.reported.Some? && cy.ver == SyncVersion(w.o.time, src.reported.value, r.ver, force, now)
              && AllowForward(r, cy.ver)
  {
  }

  /** Offered `reported`, the replica opens a cycle for a version earlier than `a`. */
  predicate TakesEarlier(w: World, id: string, r: Reg, round: string, a: string, src: Source, force: bool, now: int) {
    var (_, cy) := BeginCycle(w.o, w.codec(id), r, src, force, round, now);
    cy.phase.Saving? && Instant(w.o.time, cy.ver.raw) < Instant(w.o.time, a)
  }

  /** Some answer of the source and the clock makes a leader open a cycle for a version earlier
      than `a` if and only if it serves nothing, or something more than one tick before `a`. */
  lemma EarlierOffers(w: World, id: string, r: Reg, round: string, a: string, xs: seq<Item>)
    requires Canonical(w.o.time) && TimedReg(w.o.time, r)
    requires w.codec(id).validates(WithDefaults(w.codec(id), xs))
    requires w.codec(id).encode(WithDefaults(w.codec(id), xs)).Some?
    ensures (exists src, force, now :: TakesEarlier(w, id, r, round, a, src, force, now)) <==>
              r.ver.IsZero() || Instant(w.o.time, r.ver.raw) + 1 < Instant(w.o.time, a)
  {
    var f := w.o.time;
    forall src, force, now | TakesEarlier(w, id, r, round, a, src, force, now)
      ensures r.ver.IsZero() || Instant(f, r.ver.raw) + 1 < Instant(f, a)
    {
      BeginCompares(w, id, r, src, force, round, now);
      MintedVersionRoundTrip(f, src.reported.value, now);
      MintedVersionRoundTrip(f, now, now);
    }
    if r.ver.IsZero() || Instant(f, r.ver.raw) + 1 < Instant(f, a) {
      var between := Instant(f, a) - 1;
      MintedVersionRoundTrip(f, between, Instant(f, r.ver.raw));
      assert r.ver == UNSET || Parsed(f, r.ver);
      assert TakesEarlier(w, id, r, round, a, Source(Some(between), Some(xs)), false, 0);
    }
  }

  /** So a leader not behind the active snapshot cannot be made to take the cluster back. */
  lemma CurrentLeaderIsSafe(w: World, s: System, id: string, round: string, a: string, src: Source, force: bool,
                            now: int)
    requires Canonical(w.o.time) && id in s.nodes && TimedReg(w.o.time, s.nodes[id].reg)
    requires Current(w.o.time, s, id) && a in ActiveSet(s.sh.table)
    ensures !TakesEarlier(w, id, s.nodes[id].reg, round, a, src, force, now)
  {
    var r := s.nodes[id].reg;
    assert Parsed(w.o.time, r.ver);
    if TakesEarlier(w, id, r, round, a, src, force, now) {
      BeginCompares(w, id, r, src, force, round, now);
      MintedVersionRoundTrip(w.o.time, src.reported.value, now);
      MintedVersionRoundTrip(w.o.time, now, now);
    }
  }

  // ---------------------------------------------------------------- and it happens

  /** What a cycle of `id` at `t` leaves once the lock is free again. */
  ghost predicate AfterTurn(w: World, s: System, s': System, id: string, round: string, t: int) {
    && At(s', id, Idle) && s'.nodes == s.nodes[id := s'.nodes[id]] && s'.lock == Free
    && s'.nodes[id].reg.ver == NewVersion(w.o.time, t) && s'.issued.Keys == s.issued.Keys + {round}
    && ActiveSet(s'.sh.table) == {NewVersion(w.o.time, t).raw}
  }

  function ElectedAt(s: System, id: string): System
    requires id in s.nodes
  {
    Put(s, id, s.nodes[id].(pc := Elected)).(lock := Replica(id))
  }

  lemma TakesATurn(w: World, ss: seq<System>, acts: seq<Step>, id: string, round: string, t: int, xs: seq<Item>)
    returns (ss': seq<System>, acts': seq<Step>)
    requires Run(w, ss, acts) && ss != [] && At(Last(ss), id, Idle) && Last(ss).lock == Free
    requires MayLead(w, ElectedAt(Last(ss), id), id, round, t, xs)
    ensures Run(w, ss', acts') && ss <= ss' && |ss| < |ss'| && AfterTurn(w, Last(ss), Last(ss'), id, round, t)
  {
    hide Run, ActiveSet, MayLead;
    ss', acts' := TakesLock(w, ss, acts, id);
    ss', acts' := Leads(w, ss', acts', id, round, t, xs);
    ss', acts' := ReleasesLock(w, ss', acts', id);
  }

  /** `y` has led to `t`, and `x` after it to `t + 2`. */
  lemma Overtaken(w: World, x: string, y: string, xs: seq<Item>, t: int) returns (ss: seq<System>, acts: seq<Step>)
    requires Canonical(w.o.time) && x != y && x in w.managed && y in w.managed
    requires Publishable(w.codec(x), xs) && Publishable(w.codec(y), xs)
    ensures Run(w, ss, acts) && ss != []
    ensures At(Last(ss), y, Idle) && Last(ss).lock == Free && Last(ss).nodes[y].reg.ver == NewVersion(w.o.time, t)
    ensures Last(ss).issued.Keys == {"1", "2"} && ActiveSet(Last(ss).sh.table) == {NewVersion(w.o.time, t + 2).raw}
  {
    hide Run, ActiveSet, Publishable;
    MintedVersionRoundTrip(w.o.time, t, t);
    MintedVersionRoundTrip(w.o.time, t + 2, t);
    hide ParseVersion, Canonical;
    ss, acts := BothStart(w, x, y);
    ss, acts := TakesATurn(w, ss, acts, y, "1", t, xs);
    ss, acts := TakesATurn(w, ss, acts, x, "2", t + 2, xs);
  }

  /** It does happen, in either mode: `y` leads to one version, `x` to a later one whose
      announcement does not reach `y` in time, and `y`, leading again, is offered one in between.
      In the end the active version has gone back. */
  lemma RewindIsReachable(w: World, x: string, y: string, xs: seq<Item>, t: int)
    returns (ss: seq<System>, acts: seq<Step>, p: nat)
    requires Canonical(w.o.time) && x != y && x in w.managed && y in w.managed
    requires Publishable(w.codec(x), xs) && Publishable(w.codec(y), xs)
    ensures Run(w, ss, acts) && p < |ss| - 1
    ensures ActiveSet(ss[p].sh.table) == {NewVersion(w.o.time, t + 2).raw}
    ensures ActiveSet(Last(ss).sh.table) == {NewVersion(w.o.time, t + 1).raw}
  {
    hide Run, ActiveSet, Publishable;
    MintedVersionRoundTrip(w.o.time, t + 1, t);
    ss, acts := Overtaken(w, x, y, xs, t);
    p := |ss| - 1;
    ss, acts := TakesATurn(w, ss, acts, y, "3", t + 1, xs);
  }

  /** A commit that can be read and accepted takes an idle follower that has nothing staged to
      the version it names. */
  lemma CommitTakes(w: World, s: System, id: string, e: Event, ver: Version)
    requires w.o.unanimous && id in w.managed && At(s, id, Idle) && s.nodes[id].reg.staged == map[]
    requires e in s.sh.sent && e.action == Commit && e.origin != id && ParseVersion(w.o.time, e.version) == Some(ver)
    requires e.version in s.sh.table.rows && Accept(w.codec(id), s.sh.table.rows[e.version].content).Some?
    ensures Enabled(w, s, Deliver(id, e, true, false, 0))
    ensures var s' := Next(w, s, Deliver(id, e, true, false, 0));
            id in s'.nodes && s'.nodes[id].reg.ver == ver && s'.sh == s.sh
  {
  }

  /** And a follower goes back too. Under 2PC `x` leads two rounds, `y` starts on the second
      version, and the first round's commit event reaches it only then: `y` ends on the earlier
      version, while storage has the later one active. */
  lemma StaleCommitRewinds(w: World, x: string, y: string, xs: seq<Item>, t: int)
    returns (ss: seq<System>, acts: seq<Step>, p: nat)
    requires Canonical(w.o.time) && w.o.unanimous && x != y && x in w.managed && y in w.managed
    requires Publishable(w.codec(x), xs) && Accept(w.codec(y), Rendered(w.codec(x), xs)).Some?
    ensures Run(w, ss, acts) && |ss| == p + 2
    ensures y in ss[p].nodes && ss[p].nodes[y].reg.ver == NewVersion(w.o.time, t + 1)
    ensures acts[p] == Deliver(y, Event(Commit, NewVersion(w.o.time, t).raw, "1", x), true, false, 0)
    ensures y in Last(ss).nodes && Last(ss).nodes[y].reg.ver == NewVersion(w.o.time, t)
    ensures ActiveSet(Last(ss).sh.table) == {NewVersion(w.o.time, t + 1).raw}
  {
    var first, second := NewVersion(w.o.time, t), NewVersion(w.o.time, t + 1);
    MintedVersionRoundTrip(w.o.time, t, t + 1);
    MintedVersionRoundTrip(w.o.time, t + 1, t);
    hide Run, Next, Enabled, ActiveSet, ParseVersion, Accept, Publishable, LoadStored;
    ss, acts := LeadsTwice(w, x, y, xs, t);
    StartsFromStorage(w.o, w.codec(y), Last(ss).sh.table, second, false);
    ss, acts := Starts(w, ss, acts, y);
    p := |ss| - 1;
    var late := Event(Commit, first.raw, "1", x);
    CommitTakes(w, Last(ss), y, late, first);
    ss, acts := Extend(w, ss, acts, Deliver(y, late, true, false, 0));
  }
}
