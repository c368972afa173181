/** Building runs: how a run that has got somewhere can go on. The undisturbed cycles of
    Outcomes become stretches of a run here. */
module Scripts {
  import opened Wrappers
  import opened Versions
  import opened Tables
  import opened Registration
  import opened Protocol
  import opened Cluster
  import opened Leaders
  import opened Outcomes

  ghost function Last(ss: seq<System>): System
    requires ss != []
  {
    ss[|ss| - 1]
  }

  function Reply(c: Call): Input {
    Input(c, {}, false, false, 0)
  }

  /** Two replicas and nothing else. */
  ghost function TwoDown(x: string, y: string): System {
    System(Shared(EMPTY, None, {}), Free, map[x := Node(FRESH, Down), y := Node(FRESH, Down)], map[])
  }

  lemma BeginsRun(w: World, x: string, y: string)
    ensures Run(w, [TwoDown(x, y)], [])
  {
  }

  /** A run can take any enabled step. */
  lemma Extend(w: World, ss: seq<System>, acts: seq<Step>, a: Step) returns (ss': seq<System>, acts': seq<Step>)
    requires Run(w, ss, acts) && Enabled(w, Last(ss), a)
    ensures Run(w, ss', acts') && ss < ss' && acts < acts'
    ensures ss' == ss + [Next(w, Last(ss), a)] && acts' == acts + [a] && |ss'| == |acts'| + 1
  {
    hide Next, Enabled, Init;
    ss', acts' := ss + [Next(w, Last(ss), a)], acts + [a];
  }

  // ---------------------------------------------------------------- a cycle, as part of a run

  /** Every call succeeds, nobody else acts, and the registry always answers `ids`. */
  function Smooth(ids: set<string>): nat -> Turn {
    _ => Turn(sh => sh, Input(Done, ids, false, false, 0))
  }

  lemma SmoothIsClear(ids: set<string>)
    ensures Clear(Smooth(ids)) && forall k: nat :: Smooth(ids)(k).x == Input(Done, ids, false, false, 0)
  {
  }

  /** `s` once replica `id` and the shared state have come to `to`. */
  function Reached(s: System, id: string, to: (Local, Shared)): System {
    Put(s, id, AfterCycle(to.0)).(sh := to.1)
  }

  lemma OneAccess(w: World, s: System, id: string, l: Local, sh: Shared, x: Input)
    ensures var s' := Reached(s, id, (l, sh));
            if l.cyc.phase.Finished? then Reached(s, id, CycleStep(w.o, id, l, sh, x)) == s'
            else Enabled(w, s', Lead(id, x)) && Next(w, s', Lead(id, x)) == Reached(s, id, CycleStep(w.o, id, l, sh, x))
  {
    var to := CycleStep(w.o, id, l, sh, x);
    if !l.cyc.phase.Finished? {
      hide CycleStep;
      assert s.nodes[id := AfterCycle(l)][id := AfterCycle(to.0)] == s.nodes[id := AfterCycle(to.0)];
    }
  }

  /** The run can follow a smooth cycle for any number of accesses. */
  lemma {:induction false} Follows(w: World, ss: seq<System>, acts: seq<Step>, id: string, l: Local, ids: set<string>,
                                   n: nat)
    returns (ss': seq<System>, acts': seq<Step>)
    requires Run(w, ss, acts) && ss != [] && At(Last(ss), id, Leading(l.cyc)) && Last(ss).nodes[id].reg == l.reg
    requires !l.cyc.phase.Finished?
    ensures Run(w, ss', acts') && ss <= ss' && acts <= acts'
    ensures Last(ss') == Reached(Last(ss), id, CycleRun(w.o, id, l, Last(ss).sh, Smooth(ids), n))
  {
    var s := Last(ss);
    if n == 0 {
      ss', acts' := ss, acts;
      assert s.nodes[id := s.nodes[id]] == s.nodes;
    } else {
      ss', acts' := Follows(w, ss, acts, id, l, ids, n - 1);
      var (at, sh) := CycleRun(w.o, id, l, s.sh, Smooth(ids), n - 1);
      SmoothIsClear(ids);
      ClearStep(w.o, id, l, s.sh, Smooth(ids), n - 1, at, sh);
      OneAccess(w, s, id, at, sh, Input(Done, ids, false, false, 0));
      hide CycleRun, CycleStep, Enabled, Next, Run, Reached;
      if !at.cyc.phase.Finished? {
        ss', acts' := Extend(w, ss', acts', Lead(id, Input(Done, ids, false, false, 0)));
      }
    }
  }

  /** Replica `id`, elected, can open a cycle at `t` over the items `xs`. */
  ghost predicate MayLead(w: World, s: System, id: string, round: string, t: int, xs: seq<Item>) {
    && id in w.managed && At(s, id, Elected) && round !in s.issued && round != ""
    && AllowForward(s.nodes[id].reg, NewVersion(w.o.time, t)) && !NewVersion(w.o.time, t).Equal(s.nodes[id].reg.ver)
    && Publishable(w.codec(id), xs)
  }

  predicate Publishable(c: Codec, xs: seq<Item>) {
    c.validates(WithDefaults(c, xs)) && c.encode(WithDefaults(c, xs)).Some?
  }

  function Rendered(c: Codec, xs: seq<Item>): Bytes
    requires Publishable(c, xs)
  {
    c.encode(WithDefaults(c, xs)).value
  }

  function Offer(t: int, xs: seq<Item>, id: string, round: string): Step {
    Begin(id, Source(Some(t), Some(xs)), false, round, 0)
  }

  /** The staged value is in hand, and nothing shared has changed. */
  ghost predicate OpenedAt(w: World, s: System, s': System, id: string, round: string, t: int, xs: seq<Item>, l: Local)
    requires MayLead(w, s, id, round, t, xs)
  {
    && s' == Put(s, id, Node(l.reg, Leading(l.cyc))).(issued := s.issued[round := l.cyc.ver.raw])
    && l.cyc.phase.Saving? && l.cyc.unanimous == w.o.unanimous && l.cyc.round == round && Holding(l)
    && l.cyc.ver == NewVersion(w.o.time, t) && l.cyc.content == Rendered(w.codec(id), xs)
    && l.cyc.staged.items == WithDefaults(w.codec(id), xs) && l.reg.ver == s.nodes[id].reg.ver
    && l.reg.items == s.nodes[id].reg.items && l.reg.staged.Keys == s.nodes[id].reg.staged.Keys + {round}
  }

  lemma Opens(w: World, s: System, id: string, round: string, t: int, xs: seq<Item>) returns (l: Local)
    requires MayLead(w, s, id, round, t, xs)
    ensures Enabled(w, s, Offer(t, xs, id, round))
    ensures OpenedAt(w, s, Next(w, s, Offer(t, xs, id, round)), id, round, t, xs, l)
  {
    var (r, cy) := BeginCycle(w.o, w.codec(id), s.nodes[id].reg, Source(Some(t), Some(xs)), false, round, 0);
    l := Local(r, cy);
  }

  /** What a cycle that goes through leaves, in either mode: `id` serves the items listed, storage
      activates their version and keeps the bytes of every row there was, and the others have been
      told, with a sync and under 2PC with a commit as well. */
  ghost predicate Led(w: World, s: System, s': System, id: string, round: string, t: int, xs: seq<Item>)
    requires Publishable(w.codec(id), xs)
  {
    var ver, was, rows := NewVersion(w.o.time, t), s.sh.table.rows, s'.sh.table.rows;
    && At(s', id, Elected) && s'.nodes == s.nodes[id := s'.nodes[id]] && s'.lock == s.lock
    && s'.issued == s.issued[round := ver.raw]
    && s'.nodes[id].reg.ver == ver && s'.nodes[id].reg.items == WithDefaults(w.codec(id), xs)
    && ActiveSet(s'.sh.table) == {ver.raw} && rows.Keys == was.Keys + {ver.raw}
    && (ver.raw !in was ==> rows[ver.raw].content == Rendered(w.codec(id), xs))
    && (forall v :: v in was ==> v in rows && rows[v].content == was[v].content)
    && s.sh.sent <= s'.sh.sent && Event(Sync, ver.raw, "", id) in s'.sh.sent
    && (w.o.unanimous ==> Event(Commit, ver.raw, round, id) in s'.sh.sent)
  }

  lemma RowsAfter(t: Table, v: string, content: Bytes, rows: map<string, Row>)
    requires rows == Activate(Save(t, v, content, 0), v).rows
    ensures rows.Keys == t.rows.Keys + {v} && (v !in t.rows ==> rows[v].content == content)
    ensures forall u :: u in t.rows ==> u in rows && rows[u].content == t.rows[u].content
  {
    ActivateSwitches(Save(t, v, content, 0), v);
  }

  /** Where a smooth cycle opened at `l` ends, in either mode. */
  ghost predicate WentThrough(w: World, id: string, l: Local, sh: Shared, l': Local, sh': Shared) {
    && l'.cyc.phase.Finished? && l'.reg == Served(l) && ActiveSet(sh'.table) == {l.cyc.ver.raw}
    && sh'.table.rows == Activate(Save(sh.table, l.cyc.ver.raw, l.cyc.content, 0), l.cyc.ver.raw).rows
    && sh.sent <= sh'.sent && Event(Sync, l.cyc.ver.raw, "", id) in sh'.sent
    && (w.o.unanimous ==> Event(Commit, l.cyc.ver.raw, l.cyc.round, id) in sh'.sent)
  }

  lemma FollowsThrough(w: World, ss: seq<System>, acts: seq<Step>, id: string, l: Local)
    returns (ss': seq<System>, acts': seq<Step>, l': Local, sh': Shared)
    requires Run(w, ss, acts) && ss != [] && At(Last(ss), id, Leading(l.cyc)) && Last(ss).nodes[id].reg == l.reg
    requires Holding(l) && l.cyc.phase.Saving? && l.cyc.unanimous == w.o.unanimous
    ensures Run(w, ss', acts') && ss <= ss' && acts <= acts' && Last(ss') == Reached(Last(ss), id, (l', sh'))
    ensures WentThrough(w, id, l, Last(ss).sh, l', sh')
  {
    var s := Last(ss);
    SmoothIsClear({});
    var turns := Smooth({});
    ss', acts' := Follows(w, ss, acts, id, l, {}, 5);
    var to := CycleRun(w.o, id, l, s.sh, turns, 5);
    hide CycleRun, Run, Clear, Activate, Save, ResetLog, ActiveSet, Smooth;
    if w.o.unanimous {
      CleanOpening(w.o, id, l, s.sh, turns);
      SavedRow(s.sh.table, l.cyc.ver.raw, l.cyc.content, to.1.table);
      var mid := Last(ss');
      ss', acts' := Follows(w, ss', acts', id, to.0, {}, 5);
      CleanCommit(w.o, id, to.0, to.1, turns);
      to := CycleRun(w.o, id, to.0, to.1, turns, 5);
      assert s.nodes[id := mid.nodes[id]][id := AfterCycle(to.0)] == s.nodes[id := AfterCycle(to.0)];
    } else {
      CleanCycle(w.o, id, l, s.sh, turns);
    }
    l', sh' := to.0, to.1;
  }

  lemma SavedRow(t: Table, v: string, content: Bytes, t': Table)
    requires t'.rows == Save(t, v, content, 0).rows
    ensures v in t'.rows && Activate(t', v).rows == Activate(Save(t, v, content, 0), v).rows
  {
  }

  /** An elected replica takes the cluster to any version its forward test allows. */
  lemma Leads(w: World, ss: seq<System>, acts: seq<Step>, id: string, round: string, t: int, xs: seq<Item>)
    returns (ss': seq<System>, acts': seq<Step>)
    requires Run(w, ss, acts) && ss != [] && MayLead(w, Last(ss), id, round, t, xs)
    ensures Run(w, ss', acts') && ss <= ss' && |ss| < |ss'| && acts <= acts'
    ensures Led(w, Last(ss), Last(ss'), id, round, t, xs)
  {
    var s := Last(ss);
    var l := Opens(w, s, id, round, t, xs);
    ss', acts' := Extend(w, ss, acts, Offer(t, xs, id, round));
    var s1 := Last(ss');
    hide Next, Enabled, Run, Activate, Save, ActiveSet, Holding;
    var l', sh';
    ss', acts', l', sh' := FollowsThrough(w, ss', acts', id, l);
    RowsAfter(s.sh.table, l.cyc.ver.raw, l.cyc.content, sh'.table.rows);
    assert s.nodes[id := s1.nodes[id]][id := AfterCycle(l')] == s.nodes[id := AfterCycle(l')];
  }

  // ---------------------------------------------------------------- the other steps of a script

  lemma TakesLock(w: World, ss: seq<System>, acts: seq<Step>, id: string)
    returns (ss': seq<System>, acts': seq<Step>)
    requires Run(w, ss, acts) && ss != [] && At(Last(ss), id, Idle) && Last(ss).lock == Free
    ensures Run(w, ss', acts') && ss < ss' && acts < acts'
    ensures Last(ss') == Put(Last(ss), id, Last(ss).nodes[id].(pc := Elected)).(lock := Replica(id))
  {
    ss', acts' := Extend(w, ss, acts, Acquire(id));
  }

  lemma ReleasesLock(w: World, ss: seq<System>, acts: seq<Step>, id: string)
    returns (ss': seq<System>, acts': seq<Step>)
    requires Run(w, ss, acts) && ss != [] && At(Last(ss), id, Elected)
    ensures Run(w, ss', acts') && ss < ss' && acts < acts'
    ensures Last(ss') == Put(Last(ss), id, Last(ss).nodes[id].(pc := Idle)).(lock := Free)
  {
    ss', acts' := Extend(w, ss, acts, Release(id));
  }

  /** Startup with the cache unreadable: what storage has active, or nothing. */
  lemma Starts(w: World, ss: seq<System>, acts: seq<Step>, id: string)
    returns (ss': seq<System>, acts': seq<Step>)
    requires Run(w, ss, acts) && ss != [] && At(Last(ss), id, Down) && Last(ss).nodes[id].reg == FRESH
    requires id in w.managed
    ensures Run(w, ss', acts') && ss < ss' && acts < acts'
    ensures var r := LoadStored(w.o, w.codec(id), FRESH, ReadActive(Last(ss).sh.table, true), false);
            Last(ss') == Put(Last(ss), id, Node(r, Idle))
  {
    var s := Last(ss);
    ss', acts' := Extend(w, ss, acts, WarmUp(id, false, false));
    assert Last(ss') == Put(s, id, Node(FRESH, Warm));
    ss', acts' := Extend(w, ss', acts', Start(id, true, false));
    hide LoadStored;
    var n := Last(ss').nodes[id];
    assert s.nodes[id := Node(FRESH, Warm)][id := n] == s.nodes[id := n];
  }

  lemma StartsFresh(o: Options, c: Codec, p: bool)
    ensures LoadStored(o, c, FRESH, ReadActive(EMPTY, true), p) == FRESH
  {
    assert ActiveSet(EMPTY) == {};
  }

  /** Starting from an active snapshot that parses and is accepted. */
  lemma StartsFromStorage(o: Options, c: Codec, t: Table, ver: Version, p: bool)
    requires ActiveSet(t) == {ver.raw} && ver.raw in t.rows
    requires ParseVersion(o.time, ver.raw) == Some(ver) && !ver.IsZero() && Accept(c, t.rows[ver.raw].content).Some?
    ensures LoadStored(o, c, FRESH, ReadActive(t, true), p) == Reg(ver, Accept(c, t.rows[ver.raw].content).value, map[])
  {
    assert ActiveVersion(t) == Some(ver.raw);
  }

  lemma BothStart(w: World, x: string, y: string) returns (ss: seq<System>, acts: seq<Step>)
    requires x != y && x in w.managed && y in w.managed
    ensures Run(w, ss, acts) && ss != []
    ensures Last(ss) == System(Shared(EMPTY, None, {}), Free,
                               map[x := Node(FRESH, Idle), y := Node(FRESH, Idle)], map[])
  {
    BeginsRun(w, x, y);
    StartsFresh(w.o, w.codec(x), false);
    StartsFresh(w.o, w.codec(y), false);
    hide Run, LoadStored;
    ss, acts := Starts(w, [TwoDown(x, y)], [], x);
    ss, acts := Starts(w, ss, acts, y);
  }

  /** `x` starts on an empty store and takes the lock; `y` is still down. */
  lemma OneElected(w: World, x: string, y: string) returns (ss: seq<System>, acts: seq<Step>)
    requires x != y && x in w.managed
    ensures Run(w, ss, acts) && ss != []
    ensures Last(ss) == System(Shared(EMPTY, None, {}), Replica(x),
                               map[x := Node(FRESH, Elected), y := Node(FRESH, Down)], map[])
  {
    BeginsRun(w, x, y);
    StartsFresh(w.o, w.codec(x), false);
    hide Run, LoadStored;
    ss, acts := Starts(w, [TwoDown(x, y)], [], x);
    ss, acts := TakesLock(w, ss, acts, x);
  }

  /** `x` has led the cluster to `t` and on to `t + 1`, announcing both; `y` is still down. */
  ghost predicate LedTwice(w: World, s: System, x: string, y: string, xs: seq<Item>, t: int)
    requires Publishable(w.codec(x), xs)
  {
    var first, second, rows := NewVersion(w.o.time, t).raw, NewVersion(w.o.time, t + 1).raw, s.sh.table.rows;
    && s.nodes.Keys == {x, y} && At(s, x, Elected) && At(s, y, Down) && s.nodes[y].reg == FRESH
    && ActiveSet(s.sh.table) == {second} && first in rows && second in rows
    && rows[first].content == Rendered(w.codec(x), xs) && rows[second].content == Rendered(w.codec(x), xs)
    && Event(Sync, second, "", x) in s.sh.sent && (w.o.unanimous ==> Event(Commit, first, "1", x) in s.sh.sent)
  }

  lemma LeadsTwice(w: World, x: string, y: string, xs: seq<Item>, t: int) returns (ss: seq<System>, acts: seq<Step>)
    requires Canonical(w.o.time) && x != y && x in w.managed && Publishable(w.codec(x), xs)
    ensures Run(w, ss, acts) && ss != [] && LedTwice(w, Last(ss), x, y, xs, t)
  {
    MintedVersionRoundTrip(w.o.time, t, t + 1);
    MintedVersionRoundTrip(w.o.time, t + 1, t);
    hide Run, ActiveSet, Canonical, ParseVersion, Publishable;
    ss, acts := OneElected(w, x, y);
    ss, acts := Leads(w, ss, acts, x, "1", t, xs);
    ss, acts := Leads(w, ss, acts, x, "2", t + 1, xs);
  }
}
