/** Two-phase commit gets somewhere: a round that every live target accepts is decided. */
module Progress {
  import opened Wrappers
  import opened Versions
  import opened Tables
  import opened Registration
  import opened Protocol
  import opened Cluster
  import opened Safety
  import opened Runs
  import opened Rounds
  import opened Outcomes
  import opened Unanimity
  import opened Convergence
  import opened Answers
  import opened Leaders
  import opened Scripts

  /** The log says that `id` has prepared `v`. */
  predicate SaysPrepared(t: Table, id: string, v: string) {
    (id, v) in t.log && t.log[(id, v)] == Prepared
  }

  predicate HasPrepared(s: System, id: string, v: string) {
    SaysPrepared(s.sh.table, id, v)
  }

  /** The step writes some outcome for `v` into `id`'s apply-log row, from its run loop. */
  predicate Reports(s: System, a: Step, id: string, v: string) {
    a.Flush? && a.id == id && id in s.nodes && s.nodes[id].pc.Logging? && s.nodes[id].pc.write.version == v
  }

  lemma CycleKeepsPrepared(o: Options, me: string, l: Local, sh: Shared, x: Input, id: string)
    requires AfterReset(l.cyc.phase) && (id, l.cyc.ver.raw) in sh.table.log
    requires sh.table.log[(id, l.cyc.ver.raw)] == Prepared
    ensures var log := CycleStep(o, me, l, sh, x).1.table.log;
            (id, l.cyc.ver.raw) in log && log[(id, l.cyc.ver.raw)] == Prepared
  {
    hide SomeFailed, AllPrepared, AfterCommitStaged, Demoted;
  }

  /** While a round for `v` runs, an answer "prepared" stands until its own replica reports
      something else: nobody else leads, so nobody resets or prunes. */
  lemma AnswerStands(w: World, s: System, ever: set<string>, a: Step, leader: string, round: string, v: string,
                     id: string)
    requires Inv(s, ever) && Enabled(w, s, a) && InRound(s, leader, round, v)
    requires HasPrepared(s, id, v) && !Reports(s, a, id, v)
    ensures HasPrepared(Next(w, s, a), id, v)
  {
    OneLeader(s, ever, leader);
    hide CycleStep, BeginCycle, Handle, CatchUp, LoadCached, LoadStored, Inv;
    if a.Lead? {
      assert a.id == leader;
      CycleKeepsPrepared(w.o, a.id, Local(s.nodes[a.id].reg, s.nodes[a.id].pc.cyc), s.sh, a.x, id);
    } else {
      assert !a.PruneRows?;
    }
  }

  lemma {:induction false} AnswerStandsAlong(w: World, ss: seq<System>, acts: seq<Step>, leader: string, round: string,
                                             v: string, id: string, f: nat, q: nat)
    requires Run(w, ss, acts) && f <= q < |ss| && HasPrepared(ss[f], id, v)
    requires forall k :: f <= k < q ==> InRound(ss[k], leader, round, v) && !Reports(ss[k], acts[k], id, v)
    ensures HasPrepared(ss[q], id, v)
    decreases q
  {
    hide Next, Enabled, Init, Inv, InRound, HasPrepared, Reports;
    if f < q {
      AnswerStandsAlong(w, ss, acts, leader, round, v, id, f, q - 1);
      RunInv(w, ss, acts, q - 1);
      AnswerStands(w, ss[q - 1], EverActive(ss, q - 1), acts[q - 1], leader, round, v, id);
    }
  }

  // ---------------------------------------------------------------- the leader's own answer

  /** Past its own prepare. */
  predicate SelfLogged(p: Phase) {
    match p
    case Preparing | PollAlive | PollFailed | PollPrepared | Activating => true
    case _ => false
  }

  lemma CycleSelfLogs(o: Options, me: string, l: Local, sh: Shared, x: Input)
    requires l.cyc.unanimous && SelfLogged(CycleStep(o, me, l, sh, x).0.cyc.phase) && !SelfLogged(l.cyc.phase)
    ensures var log := CycleStep(o, me, l, sh, x).1.table.log;
            (me, l.cyc.ver.raw) in log && log[(me, l.cyc.ver.raw)] == Prepared
  {
    hide SomeFailed, AllPrepared, AfterCommitStaged, Activate, Save;
  }

  /** A leader past that point has prepared. */
  lemma {:induction false} LeaderHasPrepared(w: World, ss: seq<System>, acts: seq<Step>, q: nat, leader: string,
                                             round: string, v: string)
    requires Run(w, ss, acts) && q < |ss| && InRound(ss[q], leader, round, v)
    requires SelfLogged(ss[q].nodes[leader].pc.cyc.phase)
    ensures HasPrepared(ss[q], leader, v)
  {
    NoRoundAtFirst(w, ss, acts, leader, round, v);
    var s, a := ss[q - 1], acts[q - 1];
    EntersRound(w, s, a, leader, round, v);
    RunInv(w, ss, acts, q - 1);
    hide CycleStep, BeginCycle, Handle, CatchUp, LoadCached, LoadStored, Inv, Init;
    if a.Lead? && a.id == leader {
      var l := Local(s.nodes[leader].reg, s.nodes[leader].pc.cyc);
      CycleEnters(w.o, leader, l, s.sh, a.x);
      if !SelfLogged(l.cyc.phase) {
        CycleSelfLogs(w.o, leader, l, s.sh, a.x);
        return;
      }
    } else {
      OnlyItsCycle(w, s, a, leader);
    }
    hide Next, Enabled;
    LeaderHasPrepared(w, ss, acts, q - 1, leader, round, v);
    AnswerStands(w, s, EverActive(ss, q - 1), a, leader, round, v, leader);
  }

  // ---------------------------------------------------------------- the followers' answers

  /** Replica `id` handles the prepare event `e` at step `h`, with a readable row that it accepts
      if it manages the collection; the next thing it does, at `f`, is to write its answer; and
      until step `q` it reports nothing else about that version. */
  ghost predicate Agreed(w: World, ss: seq<System>, acts: seq<Step>, id: string, e: Event, h: nat, f: nat, q: nat)
    requires |ss| == |acts| + 1
  {
    && h < f < q <= |acts| && acts[h].Deliver? && acts[h].id == id && acts[h].e == e && acts[h].ok
    && (id in w.managed ==> Accepts(w, ss[h], id, e.version))
    && acts[f] == Flush(id, Done) && (forall k :: h < k < f ==> !Subject(acts[k], id))
    && (forall k :: f < k < q ==> !Reports(ss[k], acts[k], id, e.version))
  }

  /** The two steps amount to a "prepared" in the log. */
  lemma AnswersPrepared(w: World, ss: seq<System>, acts: seq<Step>, id: string, e: Event, h: nat, f: nat, q: nat)
    requires Steps(w, ss, acts) && Agreed(w, ss, acts, id, e, h, f, q)
    requires w.o.unanimous && e.action == Prepare && e.origin != id && w.o.time.parse(e.version).Some?
    ensures HasPrepared(ss[f + 1], id, e.version)
  {
    if id in w.managed {
      PrepareAnswer(w, ss[h], acts[h]);
    } else {
      UnmanagedPrepareAnswer(w, ss[h], acts[h]);
    }
    hide Next, Accepts, Accept;
    assert At(ss[h + 1], id, Logging(LogWrite(e.version, Prepared)));
    Undisturbed(w, ss, acts, h + 1, f, id);
    PendingWrites(w, ss[f], acts[f]);
  }

  /** Everybody the round at hand waits for is for it. */
  ghost predicate AllAgreed(w: World, ss: seq<System>, acts: seq<Step>, leader: string, cy: Cycle, r: nat, q: nat)
    requires |ss| == |acts| + 1
  {
    forall id :: id in cy.target && id in cy.alive && id != leader ==>
      exists h, f :: r < h && Agreed(w, ss, acts, id, Event(Prepare, cy.ver.raw, cy.round, leader), h, f, q)
  }

  lemma AllHavePrepared(w: World, ss: seq<System>, acts: seq<Step>, leader: string, cy: Cycle, r: nat, q: nat,
                        id: string)
    requires Run(w, ss, acts) && r < q < |ss| && w.o.unanimous && w.o.time.parse(cy.ver.raw).Some?
    requires forall k :: r < k <= q ==> InRound(ss[k], leader, cy.round, cy.ver.raw)
    requires At(ss[q], leader, Leading(cy)) && SelfLogged(cy.phase)
    requires AllAgreed(w, ss, acts, leader, cy, r, q) && id in cy.target && id in cy.alive
    ensures HasPrepared(ss[q], id, cy.ver.raw)
  {
    var v := cy.ver.raw;
    if id == leader {
      LeaderHasPrepared(w, ss, acts, q, leader, cy.round, v);
    } else {
      var e := Event(Prepare, v, cy.round, leader);
      var h: nat, f: nat :| r < h && Agreed(w, ss, acts, id, e, h, f, q);
      AnswersPrepared(w, ss, acts, id, e, h, f, q);
      AnswerStandsAlong(w, ss, acts, leader, cy.round, v, id, f + 1, q);
    }
  }

  /** The leader's next step is at `j`. */
  predicate Waits(acts: seq<Step>, leader: string, i: nat, j: nat) {
    i < j <= |acts| && forall k :: i < k < j ==> !Subject(acts[k], leader)
  }

  lemma PollNext(w: World, s: System, a: Step, leader: string)
    requires Enabled(w, s, a) && a.Lead? && a.id == leader && a.x.call == Done
    requires s.nodes[leader].pc.Leading? && s.nodes[leader].pc.cyc.phase in {PollFailed, PollPrepared}
    requires var cy := s.nodes[leader].pc.cyc;
             forall id :: id in cy.target && id in cy.alive ==> HasPrepared(s, id, cy.ver.raw)
    ensures var cy := s.nodes[leader].pc.cyc;
            At(Next(w, s, a), leader, Leading(cy.(phase := if cy.phase.PollFailed? then PollPrepared else Activating)))
  {
    var l := Local(s.nodes[leader].reg, s.nodes[leader].pc.cyc);
    Polls(w.o, leader, l, s.sh, a.x);
    hide CycleStep;
  }

  /** A round whose live targets all accept the bytes goes through. Its leader has reset the log
      at step `r`; at steps `i` and `j`, one after the other, it asks who failed and who has
      prepared, and both queries succeed; and every target it has seen alive has by then handled
      the round's prepare event, could read the row, accepted it if it manages the collection,
      and written its answer, in any order and interleaved with anything. Then the round
      activates next, with the same value. */
  lemma RoundGoesThrough(w: World, ss: seq<System>, acts: seq<Step>, leader: string, cy: Cycle, r: nat, i: nat, j: nat)
    requires Run(w, ss, acts) && r < i < j < |acts| && w.o.unanimous && w.o.time.parse(cy.ver.raw).Some?
    requires acts[r].Lead? && acts[r].id == leader && ResetsFor(ss[r], acts[r], cy.round, cy.ver.raw)
    requires forall k :: r < k <= i ==> InRound(ss[k], leader, cy.round, cy.ver.raw)
    requires cy.phase.PollFailed? && cy.unanimous && At(ss[i], leader, Leading(cy)) && Waits(acts, leader, i, j)
    requires acts[i].Lead? && acts[i].id == leader && acts[i].x.call == Done
    requires acts[j].Lead? && acts[j].id == leader && acts[j].x.call == Done
    requires AllAgreed(w, ss, acts, leader, cy, r, i)
    requires forall id :: id in cy.target && id in cy.alive ==>
               forall k :: i <= k < j ==> !Reports(ss[k], acts[k], id, cy.ver.raw)
    ensures At(ss[j + 1], leader, Leading(cy.(phase := Activating)))
  {
    var v, polled := cy.ver.raw, cy.(phase := PollPrepared);
    hide Next, Init, AllAgreed, HasPrepared, Reports;
    forall id | id in cy.target && id in cy.alive ensures HasPrepared(ss[i], id, v) {
      AllHavePrepared(w, ss, acts, leader, cy, r, i, id);
    }
    PollNext(w, ss[i], acts[i], leader);
    Undisturbed(w, ss, acts, i + 1, j, leader);
    forall k | i < k <= j ensures At(ss[k], leader, Leading(polled)) {
      Undisturbed(w, ss, acts, i + 1, k, leader);
    }
    forall id | id in polled.target && id in polled.alive ensures HasPrepared(ss[j], id, v) {
      AnswerStandsAlong(w, ss, acts, leader, cy.round, v, id, i, j);
    }
    PollNext(w, ss[j], acts[j], leader);
  }

  // ---------------------------------------------------------------- and a whole round

  /** An undisturbed look at the targets, all of them alive and prepared. */
  lemma CleanPoll(o: Options, me: string, l: Local, sh: Shared, ids: set<string>)
    requires l.cyc.phase.PollAlive? && l.cyc.target == ids
    requires forall id :: id in ids ==> SaysPrepared(sh.table, id, l.cyc.ver.raw)
    ensures CycleRun(o, me, l, sh, Smooth(ids), 3) == (l.(cyc := l.cyc.(alive := ids, phase := Activating)), sh)
  {
    var turns := Smooth(ids);
    SmoothIsClear(ids);
    NoSteps(o, me, l, sh, turns);
    hide CycleRun, CycleStep, Clear, Smooth;
    ClearStep(o, me, l, sh, turns, 0, l, sh);
    Polls(o, me, l, sh, turns(0).x);
    var l1 := l.(cyc := l.cyc.(alive := ids, phase := PollFailed));
    ClearStep(o, me, l, sh, turns, 1, l1, sh);
    Polls(o, me, l1, sh, turns(1).x);
    ClearStep(o, me, l, sh, turns, 2, Go(l1, PollPrepared), sh);
    Polls(o, me, Go(l1, PollPrepared), sh, turns(2).x);
  }

  /** `x` has asked `y` to prepare, and nobody has answered but `x` itself. */
  ghost predicate Asked(w: World, s: System, x: string, y: string, l: Local, xs: seq<Item>, t: int)
    requires Publishable(w.codec(x), xs)
  {
    var v, cy, rows, log := NewVersion(w.o.time, t).raw, l.cyc, s.sh.table.rows, s.sh.table.log;
    && s.nodes == map[x := Node(l.reg, Leading(cy)), y := Node(FRESH, Idle)] && Holding(l)
    && cy.phase.PollAlive? && cy.target == {x, y} && cy.unanimous && cy.ver == NewVersion(w.o.time, t)
        && cy.round == "1"
    && cy.content == Rendered(w.codec(x), xs) && cy.staged.items == WithDefaults(w.codec(x), xs)
    && v in rows && rows[v].content == cy.content && Event(Prepare, v, "1", x) in s.sh.sent
    && (x, v) in log && log[(x, v)] == Prepared
  }

  lemma AskedAfter(w: World, s: System, x: string, y: string, l0: Local, xs: seq<Item>, t: int)
    requires Canonical(w.o.time) && w.o.unanimous && x != y && Publishable(w.codec(x), xs)
    requires s.nodes == map[x := Node(l0.reg, Leading(l0.cyc)), y := Node(FRESH, Idle)] && s.sh.table.rows == map[]
    requires l0.cyc.phase.Saving? && l0.cyc.unanimous && l0.cyc.round == "1" && Holding(l0)
    requires l0.cyc.ver == NewVersion(w.o.time, t) && l0.cyc.content == Rendered(w.codec(x), xs)
    requires l0.cyc.staged.items == WithDefaults(w.codec(x), xs)
    ensures var to := CycleRun(w.o, x, l0, s.sh, Smooth({x, y}), 5);
            Asked(w, Reached(s, x, to), x, y, to.0, xs, t)
  {
    SmoothIsClear({x, y});
    CleanOpening(w.o, x, l0, s.sh, Smooth({x, y}));
    hide CycleRun, Smooth, Clear, Canonical, Publishable;
  }

  lemma AsksForPrepares(w: World, x: string, y: string, xs: seq<Item>, t: int)
    returns (ss: seq<System>, acts: seq<Step>, l: Local)
    requires Canonical(w.o.time) && w.o.unanimous && x != y && x in w.managed && y in w.managed
    requires Publishable(w.codec(x), xs)
    ensures Run(w, ss, acts) && ss != [] && Asked(w, Last(ss), x, y, l, xs, t)
  {
    MintedVersionRoundTrip(w.o.time, t, t);
    ss, acts := BothStart(w, x, y);
    ss, acts := TakesLock(w, ss, acts, x);
    var l0 := Opens(w, Last(ss), x, "1", t, xs);
    ss, acts := Extend(w, ss, acts, Offer(t, xs, x, "1"));
    hide Next, Enabled, Run, Canonical, Clear, Publishable, ParseVersion, NewVersion, CycleRun, Asked, Reached;
    AskedAfter(w, Last(ss), x, y, l0, xs, t);
    l := CycleRun(w.o, x, l0, Last(ss).sh, Smooth({x, y}), 5).0;
    ss, acts := Follows(w, ss, acts, x, l0, {x, y}, 5);
  }

  /** `x` is in the round that `l` describes, and `y` holds the round's value. */
  ghost predicate BothHold(w: World, s: System, x: string, y: string, l: Local, xs: seq<Item>, t: int)
    requires Publishable(w.codec(x), xs)
  {
    var c, ver := w.codec(y), NewVersion(w.o.time, t);
    && s.nodes.Keys == {x, y} && At(s, x, Leading(l.cyc)) && s.nodes[x].reg == l.reg && Holding(l)
    && l.cyc.unanimous && l.cyc.ver == ver && l.cyc.round == "1"
    && l.cyc.staged.items == WithDefaults(w.codec(x), xs) && ver.raw in s.sh.table.rows
    && "1" in s.nodes[y].reg.staged && s.nodes[y].reg.staged["1"].ver == ver
    && Some(s.nodes[y].reg.staged["1"].items) == Accept(c, Rendered(w.codec(x), xs))
  }

  lemma YHandles(w: World, s: System, x: string, y: string, l: Local, xs: seq<Item>, t: int)
    requires Canonical(w.o.time) && w.o.unanimous && x != y && y in w.managed
    requires Publishable(w.codec(x), xs) && Accept(w.codec(y), Rendered(w.codec(x), xs)).Some?
    requires Asked(w, s, x, y, l, xs, t)
    ensures var prepare := Deliver(y, Event(Prepare, l.cyc.ver.raw, "1", x), true, false, 0);
            && Enabled(w, s, prepare)
            && var s' := Next(w, s, prepare);
               BothHold(w, s', x, y, l, xs, t) && s'.sh == s.sh
               && At(s', y, Logging(LogWrite(l.cyc.ver.raw, Prepared)))
  {
    MintedVersionRoundTrip(w.o.time, t, t);
    PrepareAnswer(w, s, Deliver(y, Event(Prepare, l.cyc.ver.raw, "1", x), true, false, 0));
    hide Next, Accept, Canonical, Publishable, NewVersion;
  }

  lemma YWrites(w: World, s: System, x: string, y: string, l: Local, xs: seq<Item>, t: int)
    requires x != y && Publishable(w.codec(x), xs) && BothHold(w, s, x, y, l, xs, t)
    requires HasPrepared(s, x, l.cyc.ver.raw) && At(s, y, Logging(LogWrite(l.cyc.ver.raw, Prepared)))
    ensures Enabled(w, s, Flush(y, Done))
    ensures var s' := Next(w, s, Flush(y, Done));
            BothHold(w, s', x, y, l, xs, t) && At(s', y, Idle)
            && HasPrepared(s', x, l.cyc.ver.raw) && HasPrepared(s', y, l.cyc.ver.raw)
  {
    PendingWrites(w, s, Flush(y, Done));
    hide Next, Accept, Publishable, NewVersion;
  }

  lemma XCounts(w: World, ss: seq<System>, acts: seq<Step>, x: string, y: string, l: Local, xs: seq<Item>, t: int)
    returns (ss': seq<System>, acts': seq<Step>, l': Local)
    requires Run(w, ss, acts) && ss != [] && x != y && Publishable(w.codec(x), xs)
    requires BothHold(w, Last(ss), x, y, l, xs, t) && At(Last(ss), y, Idle)
    requires l.cyc.phase.PollAlive? && l.cyc.target == {x, y}
    requires HasPrepared(Last(ss), x, l.cyc.ver.raw) && HasPrepared(Last(ss), y, l.cyc.ver.raw)
    ensures Run(w, ss', acts') && ss' != [] && BothHold(w, Last(ss'), x, y, l', xs, t) && At(Last(ss'), y, Idle)
    ensures l'.cyc.phase.Activating?
  {
    CleanPoll(w.o, x, l, Last(ss).sh, {x, y});
    hide CycleRun, Run, Accept, Publishable, NewVersion;
    ss', acts' := Follows(w, ss, acts, x, l, {x, y}, 3);
    l' := l.(cyc := l.cyc.(alive := {x, y}, phase := Activating));
  }

  /** `y` handles the prepare event and writes its answer; `x` counts the answers. */
  lemma YPrepares(w: World, ss: seq<System>, acts: seq<Step>, x: string, y: string, l: Local, xs: seq<Item>, t: int)
    returns (ss': seq<System>, acts': seq<Step>, l': Local)
    requires Run(w, ss, acts) && ss != [] && Canonical(w.o.time) && w.o.unanimous && x != y && y in w.managed
    requires Publishable(w.codec(x), xs) && Accept(w.codec(y), Rendered(w.codec(x), xs)).Some?
    requires Asked(w, Last(ss), x, y, l, xs, t)
    ensures Run(w, ss', acts') && ss' != [] && BothHold(w, Last(ss'), x, y, l', xs, t) && At(Last(ss'), y, Idle)
    ensures l'.cyc.phase.Activating?
  {
    YHandles(w, Last(ss), x, y, l, xs, t);
    hide Next, Enabled, Run, Accept, Canonical, Publishable, NewVersion, BothHold;
    ss', acts' := Extend(w, ss, acts, Deliver(y, Event(Prepare, l.cyc.ver.raw, "1", x), true, false, 0));
    YWrites(w, Last(ss'), x, y, l, xs, t);
    ss', acts' := Extend(w, ss', acts', Flush(y, Done));
    ss', acts', l' := XCounts(w, ss', acts', x, y, l, xs, t);
  }

  /** A round from beginning to end: `x` leads, `y` prepares, and both serve the version that
      storage has active, `y` from what it staged. */
  lemma TwoReplicasCommit(w: World, x: string, y: string, xs: seq<Item>, t: int)
    returns (ss: seq<System>, acts: seq<Step>)
    requires Canonical(w.o.time) && w.o.unanimous && x != y && x in w.managed && y in w.managed
    requires Publishable(w.codec(x), xs) && Accept(w.codec(y), Rendered(w.codec(x), xs)).Some?
    ensures Run(w, ss, acts) && ss != [] && {x, y} <= Last(ss).nodes.Keys
    ensures var n, m, ver := Last(ss).nodes[x], Last(ss).nodes[y], NewVersion(w.o.time, t);
            && ActiveSet(Last(ss).sh.table) == {ver.raw} && n.reg.ver == ver && m.reg.ver == ver
            && n.reg.items == WithDefaults(w.codec(x), xs)
            && Some(m.reg.items) == Accept(w.codec(y), Rendered(w.codec(x), xs))
  {
    var l;
    ss, acts, l := AsksForPrepares(w, x, y, xs, t);
    ss, acts, l := YPrepares(w, ss, acts, x, y, l, xs, t);
    var s, v := Last(ss), l.cyc.ver.raw;
    SmoothIsClear({});
    CleanCommit(w.o, x, l, s.sh, Smooth({}));
    ss, acts := Follows(w, ss, acts, x, l, {}, 5);
    var commit := Deliver(y, Event(Commit, v, "1", x), true, false, 0);
    hide CycleRun, Smooth, Clear, Accept, Canonical, Publishable, NewVersion, Run, ActiveSet, Activate;
    assert Enabled(w, Last(ss), commit);
    CommitAnswer(w, Last(ss), commit);
    hide Next, Enabled;
    ss, acts := Extend(w, ss, acts, commit);
  }
}
