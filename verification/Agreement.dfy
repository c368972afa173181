/** Equal versions, equal content: the items a replica serves are a function of their version. */
module Agreement {
  import opened Wrappers
  import opened Versions
  import opened Tables
  import opened Registration
  import opened Protocol
  import opened Cluster
  import opened Safety
  import opened Runs
  import opened Rounds
  import opened Forward
  import opened Outcomes
  import opened Scripts

  /** One codec everywhere; reading undoes writing; filling defaults twice is filling them once. */
  ghost predicate Uniform(w: World, c: Codec) {
    && (forall id :: w.codec(id) == c)
    && (forall xs :: c.encode(xs).Some? ==> c.decode(c.encode(xs).value) == Some(xs))
    && (forall x :: c.defaults(c.defaults(x)) == c.defaults(x))
  }

  lemma DefaultsTwice(w: World, c: Codec, xs: seq<Item>)
    requires Uniform(w, c)
    ensures WithDefaults(c, WithDefaults(c, xs)) == WithDefaults(c, xs)
  {
    forall i | 0 <= i < |xs| ensures WithDefaults(c, WithDefaults(c, xs))[i] == WithDefaults(c, xs)[i] {
      assert c.defaults(c.defaults(xs[i])) == c.defaults(xs[i]);
    }
  }

  type Content = string -> seq<Item>

  /** What every replica must serve at `ver`: the source's items with defaults, or nothing yet. */
  function Canon(c: Codec, content: Content, ver: Version): seq<Item> {
    if ver.IsZero() then [] else WithDefaults(c, content(ver.raw))
  }

  ghost predicate BytesAgree(c: Codec, content: Content, v: string, data: Bytes) {
    c.decode(data) == Some(WithDefaults(c, content(v)))
  }

  ghost predicate RegAgrees(c: Codec, content: Content, r: Reg) {
    && r.items == Canon(c, content, r.ver)
    && forall k :: k in r.staged ==> r.staged[k].items == WithDefaults(c, content(r.staged[k].ver.raw))
  }

  ghost predicate CycleAgrees(c: Codec, content: Content, cy: Cycle) {
    && (HoldsStage(cy) ==> cy.staged.items == WithDefaults(c, content(cy.staged.ver.raw)))
    && (HoldsStage(cy) || Decided(cy.phase) || cy.phase.RepairWrite? ==> BytesAgree(c, content, cy.ver.raw, cy.content))
  }

  ghost predicate NodeAgrees(c: Codec, content: Content, n: Node) {
    && RegAgrees(c, content, n.reg)
    && (n.pc.Leading? ==> CycleAgrees(c, content, n.pc.cyc))
    && (n.pc.Reverting? ==> BytesAgree(c, content, n.pc.entry.version, n.pc.entry.content))
  }

  ghost predicate SharedAgrees(c: Codec, content: Content, sh: Shared) {
    && (forall v :: v in sh.table.rows ==> BytesAgree(c, content, v, sh.table.rows[v].content))
    && (sh.cache.Some? ==> BytesAgree(c, content, sh.cache.value.version, sh.cache.value.content))
  }

  ghost predicate Agrees(c: Codec, content: Content, s: System) {
    SharedAgrees(c, content, s.sh) && forall id :: id in s.nodes ==> NodeAgrees(c, content, s.nodes[id])
  }

  /** The items a cycle lists are the ones its version stands for. */
  ghost predicate Faithful(w: World, content: Content, s: System, a: Step) {
    Enabled(w, s, a) &&
    (a.Begin? && a.src.reported.Some? && a.src.listed.Some? ==>
       var local := s.nodes[a.id].reg.ver;
       a.src.listed.value == content(SyncVersion(w.o.time, a.src.reported.value, local, a.force, a.now).raw))
  }

  lemma AcceptCanon(w: World, c: Codec, content: Content, v: string, data: Bytes)
    requires Uniform(w, c) && BytesAgree(c, content, v, data)
    ensures Accept(c, data).Some? ==> Accept(c, data).value == WithDefaults(c, content(v))
  {
    DefaultsTwice(w, c, content(v));
  }

  /** Taking stored bytes, in any of the ways a replica does, serves or stages the canonical items. */
  lemma SwapAgrees(w: World, c: Codec, content: Content, r: Reg, raw: string, data: Bytes, panics: bool)
    requires Canonical(w.o.time) && Uniform(w, c) && RegAgrees(c, content, r) && BytesAgree(c, content, raw, data)
    ensures forall ver :: ParseVersion(w.o.time, raw) == Some(ver) ==>
              RegAgrees(c, content, AfterSwap(c, r, ver, data, panics).0)
  {
    AcceptCanon(w, c, content, raw, data);
  }

  lemma StageAgrees(w: World, c: Codec, content: Content, r: Reg, raw: string, round: string, data: Bytes,
                    now: int, ttl: nat)
    requires Canonical(w.o.time) && Uniform(w, c) && RegAgrees(c, content, r) && BytesAgree(c, content, raw, data)
    ensures forall ver :: ParseVersion(w.o.time, raw) == Some(ver) ==>
              RegAgrees(c, content, AfterStage(c, r, ver, round, data, now, ttl).0)
  {
    AcceptCanon(w, c, content, raw, data);
  }

  /** The active snapshot, as any read returns it, carries canonical bytes. */
  lemma ActiveAgrees(c: Codec, content: Content, sh: Shared, ok: bool)
    requires SharedAgrees(c, content, sh)
    ensures var r := ReadActive(sh.table, ok);
            r.Got? ==> BytesAgree(c, content, r.value.0, r.value.1.content)
  {
  }

  lemma CommitAgrees(f: TimeFormat, c: Codec, content: Content, r: Reg, round: string, panics: bool)
    requires Canonical(f) && RegAgrees(c, content, r) && TimedReg(f, r)
    ensures RegAgrees(c, content, AfterCommitByRound(r, round, panics).0) && RegAgrees(c, content, Unstage(r, round))
    ensures AfterCommitByRound(r, round, panics).1.NotStaged? ==> AfterCommitByRound(r, round, panics).0 == r
  {
  }

  lemma ReadAgrees(w: World, c: Codec, content: Content, r: Reg, sh: Shared, e: Event, ok: bool, panics: bool, now: int)
    requires Canonical(w.o.time) && Uniform(w, c) && SharedAgrees(c, content, sh)
    requires RegAgrees(c, content, r) && TimedReg(w.o.time, r)
    ensures RegAgrees(c, content, OnSync(w.o, c, r, sh.table, e, ok, panics).reg)
    ensures RegAgrees(c, content, OnPrepare(w.o, c, r, sh.table, e, ok, now).reg)
    ensures RegAgrees(c, content, OnCommit(w.o, c, r, sh.table, e, ok, panics).reg)
  {
    CommitAgrees(w.o.time, c, content, r, e.round, panics);
    var row := ReadRow(sh.table, e.version, ok);
    if row.Got? {
      SwapAgrees(w, c, content, r, e.version, row.value.content, panics);
      StageAgrees(w, c, content, r, e.version, e.round, row.value.content, now, w.o.ttl);
    }
    hide AfterSwap, AfterStage, AfterCommitByRound, RegAgrees, SharedAgrees, Uniform, TimedReg;
  }

  lemma RevertAgrees(w: World, c: Codec, content: Content, r: Reg, sh: Shared, ok: bool, panics: bool)
    requires Canonical(w.o.time) && Uniform(w, c) && SharedAgrees(c, content, sh) && RegAgrees(c, content, r)
    ensures var h := OnRollback(w.o, c, r, ReadActive(sh.table, ok), panics);
            && RegAgrees(c, content, h.reg)
            && (h.cached.Some? ==> BytesAgree(c, content, h.cached.value.version, h.cached.value.content))
  {
    ActiveAgrees(c, content, sh, ok);
    var active := ReadActive(sh.table, ok);
    if active.Got? {
      SwapAgrees(w, c, content, r, active.value.0, active.value.1.content, panics);
    }
  }

  lemma HandleAgrees(w: World, c: Codec, content: Content, id: string, n: Node, sh: Shared, e: Event, ok: bool,
                     panics: bool, now: int)
    requires Canonical(w.o.time) && Uniform(w, c) && SharedAgrees(c, content, sh)
    requires RegAgrees(c, content, n.reg) && TimedReg(w.o.time, n.reg) && n.pc.Idle?
    ensures NodeAgrees(c, content, Handle(w, id, n, sh, e, ok, panics, now))
  {
    hide OnSync, OnPrepare, OnCommit, OnRollback, ReadActive, RegAgrees, BytesAgree, SharedAgrees, TimedReg;
    assert w.codec(id) == c;
    hide Uniform;
    ReadAgrees(w, c, content, n.reg, sh, e, ok, panics, now);
    RevertAgrees(w, c, content, n.reg, sh, ok, panics);
    CommitAgrees(w.o.time, c, content, n.reg, e.round, panics);
  }

  lemma OpeningAgrees(w: World, c: Codec, content: Content, id: string, r: Reg, src: Source, force: bool,
                      round: string, now: int)
    requires Canonical(w.o.time) && Uniform(w, c) && RegAgrees(c, content, r)
    requires src.reported.Some? && src.listed.Some? ==>
               src.listed.value == content(SyncVersion(w.o.time, src.reported.value, r.ver, force, now).raw)
    ensures var (r', cy) := BeginCycle(w.o, w.codec(id), r, src, force, round, now);
            NodeAgrees(c, content, AfterCycle(Local(r', cy)))
  {
    assert w.codec(id) == c;
    if src.listed.Some? {
      var xs := WithDefaults(c, src.listed.value);
      assert c.encode(xs).Some? ==> c.decode(c.encode(xs).value) == Some(xs);
    }
    hide Uniform, Canonical;
  }

  lemma BeginAgrees(w: World, c: Codec, content: Content, s: System, a: Step)
    requires Canonical(w.o.time) && Uniform(w, c) && a.Begin? && Faithful(w, content, s, a)
    requires RegAgrees(c, content, s.nodes[a.id].reg)
    ensures NodeAgrees(c, content, Next(w, s, a).nodes[a.id])
  {
    hide CycleStep, BeginCycle, Handle, CatchUp, LoadCached, LoadStored, NodeAgrees, RegAgrees, Uniform;
    OpeningAgrees(w, c, content, a.id, s.nodes[a.id].reg, a.src, a.force, a.round, a.now);
  }

  lemma CycleTableAgrees(o: Options, c: Codec, content: Content, me: string, l: Local, sh: Shared, x: Input)
    requires SharedAgrees(c, content, sh) && CycleAgrees(c, content, l.cyc)
    ensures SharedAgrees(c, content, CycleStep(o, me, l, sh, x).1)
  {
    var v := l.cyc.ver.raw;
    match l.cyc.phase
    case Activating => ActivateSwitches(sh.table, v);
    case _ =>
  }

  /** The bytes a cycle carries are those it opened with, or those of the active row. */
  lemma CycleCarries(o: Options, me: string, l: Local, sh: Shared, x: Input)
    ensures var (l', _) := CycleStep(o, me, l, sh, x);
            HoldsStage(l'.cyc) || Decided(l'.cyc.phase) || l'.cyc.phase.RepairWrite? ==>
              || ((HoldsStage(l.cyc) || Decided(l.cyc.phase) || l.cyc.phase.RepairWrite?)
                  && l'.cyc.ver == l.cyc.ver && l'.cyc.content == l.cyc.content)
              || (l'.cyc.ver.raw in sh.table.rows && l'.cyc.content == sh.table.rows[l'.cyc.ver.raw].content)
  {
    hide Activate, Save, Log, ResetLog, Fail, SomeFailed, AllPrepared, AfterCommitStaged;
  }

  lemma CycleLocalAgrees(o: Options, c: Codec, content: Content, me: string, l: Local, sh: Shared, x: Input)
    requires SharedAgrees(c, content, sh) && CycleAgrees(c, content, l.cyc) && RegAgrees(c, content, l.reg)
    requires Canonical(o.time) && TimedNode(o.time, Node(l.reg, Leading(l.cyc)))
    ensures var l' := CycleStep(o, me, l, sh, x).0;
            RegAgrees(c, content, l'.reg) && CycleAgrees(c, content, l'.cyc)
  {
    CycleShape(o, me, l, sh, x);
    CycleCarries(o, me, l, sh, x);
    hide CycleStep;
    var l' := CycleStep(o, me, l, sh, x).0;
    assert RegAgrees(c, content, Unstage(l.reg, l.cyc.round));
    if HoldsStage(l.cyc) {
      assert RegAgrees(c, content, ApplyStaged(l, x.panics).0.reg);
    }
  }

  lemma LoadersAgree(w: World, c: Codec, content: Content, r: Reg, sh: Shared, ok: bool, cached: Read<Entry>,
                     panics: bool)
    requires Canonical(w.o.time) && Uniform(w, c) && SharedAgrees(c, content, sh) && RegAgrees(c, content, r)
    requires cached.Got? ==> sh.cache == Some(cached.value)
    ensures RegAgrees(c, content, CatchUp(w.o, c, r, ReadActive(sh.table, ok), panics).reg)
    ensures RegAgrees(c, content, LoadCached(w.o, c, r, cached, panics))
    ensures RegAgrees(c, content, LoadStored(w.o, c, r, ReadActive(sh.table, ok), panics))
  {
    ActiveAgrees(c, content, sh, ok);
    var active := ReadActive(sh.table, ok);
    if active.Got? {
      SwapAgrees(w, c, content, r, active.value.0, active.value.1.content, panics);
    }
    if cached.Got? {
      SwapAgrees(w, c, content, r, cached.value.version, cached.value.content, panics);
    }
    hide AfterSwap, RegAgrees, Uniform, Canonical;
  }

  lemma LoadAgrees(w: World, c: Codec, content: Content, s: System, a: Step)
    requires Canonical(w.o.time) && Uniform(w, c) && Agrees(c, content, s) && Timed(w.o.time, s)
    requires Enabled(w, s, a) && (a.Load? || a.WarmUp? || a.Start?)
    ensures NodeAgrees(c, content, Next(w, s, a).nodes[a.id])
  {
    hide CycleStep, BeginCycle, Handle, CatchUp, LoadCached, LoadStored, ReadActive, RegAgrees, SharedAgrees, Timed;
    assert NodeAgrees(c, content, s.nodes[a.id]) && w.codec(a.id) == c;
    hide Uniform;
    var cached := if !a.ok then Broken else if s.sh.cache.None? then Missing else Got(s.sh.cache.value);
    LoadersAgree(w, c, content, s.nodes[a.id].reg, s.sh, a.ok, cached, a.panics);
  }

  lemma OwnAgrees(w: World, c: Codec, content: Content, s: System, a: Step, id: string)
    requires Canonical(w.o.time) && Uniform(w, c) && Agrees(c, content, s) && Timed(w.o.time, s)
    requires Faithful(w, content, s, a) && id in s.nodes
    ensures NodeAgrees(c, content, Next(w, s, a).nodes[id])
  {
    var n := s.nodes[id];
    assert NodeAgrees(c, content, n) && TimedNode(w.o.time, n);
    hide CycleStep, BeginCycle, Handle, CatchUp, LoadCached, LoadStored;
    if a.Begin? && a.id == id {
      BeginAgrees(w, c, content, s, a);
    } else if a.Lead? && a.id == id {
      CycleLocalAgrees(w.o, c, content, id, Local(n.reg, n.pc.cyc), s.sh, a.x);
    } else if a.Deliver? && a.id == id {
      HandleAgrees(w, c, content, id, n, s.sh, a.e, a.ok, a.panics, a.now);
    } else if (a.Load? || a.WarmUp? || a.Start?) && a.id == id {
      LoadAgrees(w, c, content, s, a);
    } else {
      IdleAgrees(w, c, content, s, a, id);
    }
  }

  /** Steps that leave replica `id` with what it holds, or with less. */
  lemma IdleAgrees(w: World, c: Codec, content: Content, s: System, a: Step, id: string)
    requires Agrees(c, content, s) && Enabled(w, s, a) && id in s.nodes
    requires a.Begin? || a.Lead? || a.Deliver? || a.Load? || a.WarmUp? || a.Start? ==> a.id != id
    ensures NodeAgrees(c, content, Next(w, s, a).nodes[id])
  {
    hide CycleStep, BeginCycle, Handle, CatchUp, LoadCached, LoadStored, SharedAgrees, BytesAgree;
    assert NodeAgrees(c, content, s.nodes[id]);
    if !Subject(a, id) {
      Untouched(w, s, a, id);
      hide Next, NodeAgrees;
    }
  }

  lemma SharedStepAgrees(w: World, c: Codec, content: Content, s: System, a: Step)
    requires Agrees(c, content, s) && Enabled(w, s, a)
    ensures SharedAgrees(c, content, Next(w, s, a).sh)
  {
    hide CycleStep, BeginCycle, Handle, CatchUp, LoadCached, LoadStored;
    if a.Lead? {
      assert NodeAgrees(c, content, s.nodes[a.id]);
      CycleTableAgrees(w.o, c, content, a.id, Local(s.nodes[a.id].reg, s.nodes[a.id].pc.cyc), s.sh, a.x);
    } else if a.OperatorActivate? {
      ActivateSwitches(s.sh.table, a.v);
    } else if a.CacheWrite? {
      assert NodeAgrees(c, content, s.nodes[a.id]);
    }
  }

  lemma {:induction false} RunAgrees(w: World, c: Codec, content: Content, ss: seq<System>, acts: seq<Step>, i: nat)
    requires Canonical(w.o.time) && Uniform(w, c) && Run(w, ss, acts) && i < |ss|
    requires forall k :: 0 <= k < |acts| ==> Faithful(w, content, ss[k], acts[k])
    ensures Agrees(c, content, ss[i])
  {
    if i > 0 {
      RunAgrees(w, c, content, ss, acts, i - 1);
      RunTimed(w, ss, acts, i - 1);
      RunTimed(w, ss, acts, i);
      SharedStepAgrees(w, c, content, ss[i - 1], acts[i - 1]);
      forall id | id in ss[i].nodes { OwnAgrees(w, c, content, ss[i - 1], acts[i - 1], id); }
    }
  }

  /** Two replicas at Equal versions serve identical items, at whatever points of the run and
      however each came by them; and what they serve is the source's content of that version. */
  lemma EqualVersionsEqualItems(w: World, c: Codec, content: Content, ss: seq<System>, acts: seq<Step>,
                                i: nat, j: nat, x: string, y: string)
    requires Canonical(w.o.time) && Uniform(w, c) && Run(w, ss, acts) && i < |ss| && j < |ss|
    requires forall k :: 0 <= k < |acts| ==> Faithful(w, content, ss[k], acts[k])
    requires x in ss[i].nodes && y in ss[j].nodes
    requires ss[i].nodes[x].reg.ver.Equal(ss[j].nodes[y].reg.ver)
    ensures ss[i].nodes[x].reg.items == ss[j].nodes[y].reg.items
    ensures ss[i].nodes[x].reg.items == Canon(c, content, ss[i].nodes[x].reg.ver)
  {
    RunAgrees(w, c, content, ss, acts, i);
    RunAgrees(w, c, content, ss, acts, j);
    assert NodeAgrees(c, content, ss[i].nodes[x]) && NodeAgrees(c, content, ss[j].nodes[y]);
  }

  /** What opening a cycle fixes for the rest of it, from the items listed. */
  lemma BeginLists(w: World, id: string, r: Reg, src: Source, force: bool, round: string, now: int)
    requires BeginCycle(w.o, w.codec(id), r, src, force, round, now).1.phase.Saving?
    ensures src.listed.Some?
    ensures var c, cy, xs := w.codec(id), BeginCycle(w.o, w.codec(id), r, src, force, round, now).1,
                             WithDefaults(w.codec(id), src.listed.value);
            cy.staged.items == xs && c.validates(xs) && c.encode(xs) == Some(cy.content)
  {
  }

  /** What the step `b` listed, with the defaults filled in. */
  function Listed(c: Codec, b: Step): seq<Item>
    requires b.Begin? && b.src.listed.Some?
  {
    WithDefaults(c, b.src.listed.value)
  }

  /** Without the hypothesis that items are a function of the version, agreement can fail in one
      way. When any cycle, in either mode, applies its value, the row of that version was created
      by some cycle, this one or an earlier one that left it behind. The leader serves what its
      own cycle listed; everyone who reads the row gets what the creating cycle listed; and they
      agree exactly when the two listings, defaults filled in, are the same. */
  lemma RetryServesItsFetch(w: World, c: Codec, ss: seq<System>, acts: seq<Step>, i: nat)
    returns (creator: nat, own: nat)
    requires Uniform(w, c) && Run(w, ss, acts) && i < |acts| && acts[i].Lead? && CycleOf(ss[i], acts[i]).Some?
    requires Applies(CycleOf(ss[i], acts[i]).value, ss[i].sh.table, acts[i].x)
    ensures CycleOf(ss[i], acts[i]).value.ver.raw in ss[i].sh.table.rows
    ensures creator < i && acts[creator].Begin? && acts[creator].src.listed.Some?
    ensures own < i && acts[own].Begin? && acts[own].id == acts[i].id && acts[own].src.listed.Some?
    ensures var n, v := ss[i + 1].nodes[acts[i].id], CycleOf(ss[i], acts[i]).value.ver.raw;
            && n.reg.ver.raw == v && n.reg.items == Listed(c, acts[own])
            && Accept(c, ss[i].sh.table.rows[v].content) == Some(Listed(c, acts[creator]))
            && (Accept(c, ss[i].sh.table.rows[v].content) == Some(n.reg.items) <==>
                  Listed(c, acts[creator]) == Listed(c, acts[own]))
  {
    var id, cy := acts[i].id, CycleOf(ss[i], acts[i]).value;
    ApplyAlwaysLands(w, ss, acts, i);
    RowHeld(w, ss, acts, i, id);
    var content := ss[i].sh.table.rows[cy.ver.raw].content;
    own := OpenedBy(w, ss, acts, i, id);
    BeginLists(w, id, ss[own].nodes[id].reg, acts[own].src, acts[own].force, acts[own].round, acts[own].now);
    var p := RowSavedBy(w, ss, acts, i, cy.ver.raw);
    var first := acts[p].id;
    creator := OpenedBy(w, ss, acts, p, first);
    BeginLists(w, first, ss[creator].nodes[first].reg, acts[creator].src, acts[creator].force, acts[creator].round,
               acts[creator].now);
    StoredIsTaken(w, c, Listed(c, acts[creator]), acts[creator].src.listed.value, content);
    assert w.codec(id) == c && w.codec(first) == c;
    hide Next, Enabled, Init, BeginCycle, CycleStep, Accept;
  }

  lemma StoredIsTaken(w: World, c: Codec, xs: seq<Item>, listed: seq<Item>, content: Bytes)
    requires Uniform(w, c) && xs == WithDefaults(c, listed) && c.validates(xs) && c.encode(xs) == Some(content)
    ensures Accept(c, content) == Some(xs)
  {
    DefaultsTwice(w, c, listed);
    assert c.encode(xs).Some?;
  }

  // ---------------------------------------------------------------- and the listings can differ

  /** `s'` is `s` after a cycle at `t` over `xs` that saved its snapshot and got no further. */
  ghost predicate LeftBehind(w: World, s: System, s': System, id: string, round: string, t: int, xs: seq<Item>)
    requires id in s.nodes && Publishable(w.codec(id), xs)
  {
    var v := NewVersion(w.o.time, t).raw;
    && At(s', id, Elected) && s'.nodes == s.nodes[id := s'.nodes[id]] && s'.lock == s.lock
    && s'.nodes[id].reg.ver == s.nodes[id].reg.ver && s'.issued == s.issued[round := v]
    && s'.sh.table == Save(s.sh.table, v, Rendered(w.codec(id), xs), 0)
  }

  lemma ActivationRefused(o: Options, me: string, l: Local, sh: Shared)
    requires l.cyc.phase.Activating? && !l.cyc.unanimous
    ensures CycleStep(o, me, l, sh, Reply(Refused)) == (GiveUp(l), sh)
  {
  }

  lemma SavesAndGivesUp(w: World, ss: seq<System>, acts: seq<Step>, id: string, round: string, t: int, xs: seq<Item>)
    returns (ss': seq<System>, acts': seq<Step>)
    requires Run(w, ss, acts) && ss != [] && MayLead(w, Last(ss), id, round, t, xs) && !w.o.unanimous
    ensures Run(w, ss', acts') && LeftBehind(w, Last(ss), Last(ss'), id, round, t, xs)
  {
    var s := Last(ss);
    var l := Opens(w, s, id, round, t, xs);
    ss', acts' := Extend(w, ss, acts, Offer(t, xs, id, round));
    var begun, waiting := Last(ss'), Go(l, Activating);
    assert begun.nodes[id := begun.nodes[id]] == begun.nodes;
    Saves(w.o, id, l, s.sh, Reply(Done));
    var saved := CycleStep(w.o, id, l, s.sh, Reply(Done)).1;
    ActivationRefused(w.o, id, waiting, saved);
    OneAccess(w, begun, id, l, s.sh, Reply(Done));
    OneAccess(w, begun, id, waiting, saved, Reply(Refused));
    hide Run, Enabled, Next, CycleStep, Save, Holding;
    ss', acts' := Extend(w, ss', acts', Lead(id, Reply(Done)));
    ss', acts' := Extend(w, ss', acts', Lead(id, Reply(Refused)));
    var left := AfterCycle(GiveUp(waiting));
    assert s.nodes[id := begun.nodes[id]][id := left] == s.nodes[id := left];
  }

  /** It does happen, for any two listings of one version: `x` saves the first and is refused the
      activation, lists the second on its retry, and goes through. It then serves the second,
      while `y`, starting from storage, serves the first at the Equal version. */
  lemma RetryDiverges(w: World, c: Codec, x: string, y: string, t: int, xs: seq<Item>, ys: seq<Item>)
    returns (ss: seq<System>, acts: seq<Step>)
    requires Canonical(w.o.time) && Uniform(w, c) && !w.o.unanimous && x != y && x in w.managed && y in w.managed
    requires Publishable(c, xs) && Publishable(c, ys)
    ensures Run(w, ss, acts) && ss != [] && {x, y} <= Last(ss).nodes.Keys
    ensures var n, m, ver := Last(ss).nodes[x], Last(ss).nodes[y], NewVersion(w.o.time, t);
            && n.reg.ver == ver && m.reg.ver == ver && ActiveSet(Last(ss).sh.table) == {ver.raw}
            && n.reg.items == WithDefaults(c, ys) && m.reg.items == WithDefaults(c, xs)
  {
    var ver := NewVersion(w.o.time, t);
    MintedVersionRoundTrip(w.o.time, t, t);
    assert w.codec(x) == c && w.codec(y) == c;
    StoredIsTaken(w, c, WithDefaults(c, xs), xs, Rendered(c, xs));
    hide Run, ActiveSet, ParseVersion, Accept, Publishable, LoadStored, Uniform;
    ss, acts := OneElected(w, x, y);
    ss, acts := SavesAndGivesUp(w, ss, acts, x, "1", t, xs);
    ss, acts := Leads(w, ss, acts, x, "2", t, ys);
    StartsFromStorage(w.o, c, Last(ss).sh.table, ver, false);
    ss, acts := Starts(w, ss, acts, y);
  }
}
