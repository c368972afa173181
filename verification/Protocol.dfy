/** manager/sync.go, one call at a time: what each handler and each stretch of a leader cycle
    between two accesses to shared state does to the replica and to the shared state. */
module Protocol {
  import opened Wrappers
  import opened Versions
  import opened Tables
  import opened Registration

  datatype Action = Sync | Rollback | Prepare | Commit | Abort

  /** `origin == ""` is an operator's event. */
  datatype Event = Event(action: Action, version: string, round: string, origin: string)

  datatype Entry = Entry(version: string, content: Bytes)

  datatype LogWrite = LogWrite(version: string, status: ApplyStatus)

  /** Everything replicas share about one collection, besides the lock. */
  datatype Shared = Shared(table: Table, cache: Option<Entry>, sent: set<Event>)

  /** What every replica of a service must agree on. */
  datatype Options = Options(time: TimeFormat, unanimous: bool, ttl: nat, cacheReads: bool, cacheWrites: bool)

  // ---------------------------------------------------------------- follower handlers

  function AllowForward(r: Reg, ver: Version): bool {
    r.ver.IsZero() || ver.After(r.ver)
  }

  /** A handler's effect: the replica's registration, and the apply-log row it goes on to write. */
  datatype Handled = Handled(reg: Reg, log: Option<LogWrite>)

  function OnSync(o: Options, c: Codec, r: Reg, t: Table, e: Event, ok: bool, panics: bool): Handled {
    match ParseVersion(o.time, e.version)
    case None => Handled(r, None)
    case Some(ver) =>
      if r.ver.Equal(ver) || !AllowForward(r, ver) then Handled(r, None)
      else
        match ReadRow(t, e.version, ok)
        case Got(row) =>
          var (r', out) := AfterSwap(c, r, ver, row.content, panics);
          Handled(r', Some(LogWrite(e.version,
            if out.Ok? then Applied else if out.Rejected? then ValidationFailed else Error)))
        case _ => Handled(r, Some(LogWrite(e.version, Error)))
  }

  /** The active version as a read of storage returns it. */
  ghost function ReadActive(t: Table, ok: bool): Read<(string, Row)> {
    if !ok then Broken
    else match ActiveVersion(t)
      case None => Missing
      case Some(v) => Got((v, t.rows[v]))
  }

  ghost function ReadActiveVersion(t: Table, ok: bool): Read<string> {
    match ReadActive(t, ok)
    case Got(p) => Got(p.0)
    case Missing => Missing
    case Broken => Broken
  }

  /** `cached` is the entry the handler goes on to write to the cache, before its log row. */
  datatype Reverted = Reverted(reg: Reg, cached: Option<Entry>)

  function OnRollback(o: Options, c: Codec, r: Reg, active: Read<(string, Row)>, panics: bool): Reverted {
    if !active.Got? then Reverted(r, None)
    else
      match ParseVersion(o.time, active.value.0)
      case None => Reverted(r, None)
      case Some(ver) =>
        var (r', out) := AfterSwap(c, r, ver, active.value.1.content, panics);
        Reverted(r', if out.Ok? then Some(Entry(active.value.0, active.value.1.content)) else None)
  }

  function OnPrepare(o: Options, c: Codec, r: Reg, t: Table, e: Event, ok: bool, now: int): Handled {
    match ParseVersion(o.time, e.version)
    case None => Handled(r, Some(LogWrite(e.version, PrepareFailed)))
    case Some(ver) =>
      match ReadRow(t, e.version, ok)
      case Got(row) =>
        var (r', out) := AfterStage(c, r, ver, e.round, row.content, now, o.ttl);
        Handled(r', Some(LogWrite(e.version, if out.Ok? then Prepared else PrepareFailed)))
      case _ => Handled(r, Some(LogWrite(e.version, PrepareFailed)))
  }

  function OnCommit(o: Options, c: Codec, r: Reg, t: Table, e: Event, ok: bool, panics: bool): Handled {
    var (r', out) := AfterCommitByRound(r, e.round, panics);
    if !out.NotStaged? then Handled(r', Some(LogWrite(e.version, if out.Ok? then Committed else Error)))
    else
      match ParseVersion(o.time, e.version)
      case None => Handled(r, None)
      case Some(ver) =>
        match ReadRow(t, e.version, ok)
        case Got(row) =>
          var (r'', out') := AfterSwap(c, r, ver, row.content, panics);
          Handled(r'', Some(LogWrite(e.version, if out'.Ok? then Committed else Error)))
        case _ => Handled(r, Some(LogWrite(e.version, Error)))
  }

  /** First half of a catch-up pass over one collection: is the active version worth loading? */
  function WorthLoading(o: Options, r: Reg, probe: Read<string>): bool {
    probe.Got? &&
    match ParseVersion(o.time, probe.value)
    case None => false
    case Some(ver) => !r.ver.Equal(ver) && AllowForward(r, ver)
  }

  /** Second half: load the active snapshot, check again, swap. */
  function CatchUp(o: Options, c: Codec, r: Reg, active: Read<(string, Row)>, panics: bool): Handled {
    if !active.Got? then Handled(r, None)
    else
      match ParseVersion(o.time, active.value.0)
      case None => Handled(r, None)
      case Some(ver) =>
        if !AllowForward(r, ver) then Handled(r, None)
        else
          var (r', out) := AfterSwap(c, r, ver, active.value.1.content, panics);
          Handled(r', if out.Ok? then Some(LogWrite(active.value.0, Applied)) else None)
  }

  // ---------------------------------------------------------------- startup

  function LoadCached(o: Options, c: Codec, r: Reg, entry: Read<Entry>, panics: bool): Reg {
    if !o.cacheReads || !entry.Got? then r
    else
      match ParseVersion(o.time, entry.value.version)
      case None => r
      case Some(ver) => AfterSwap(c, r, ver, entry.value.content, panics).0
  }

  function LoadStored(o: Options, c: Codec, r: Reg, active: Read<(string, Row)>, panics: bool): Reg {
    if !active.Got? then r
    else
      match ParseVersion(o.time, active.value.0)
      case None => r
      case Some(ver) =>
        if r.ver.Equal(ver) then r else AfterSwap(c, r, ver, active.value.1.content, panics).0
  }

  // ---------------------------------------------------------------- leader cycle

  /** The version a cycle moves to; a forced one mints from the clock rather than go back. */
  function SyncVersion(f: TimeFormat, reported: int, local: Version, force: bool, now: int): Version {
    var ver := NewVersion(f, reported);
    if force && !ver.After(local) then NewVersion(f, now) else ver
  }

  /** Where a cycle stands: the next access to shared state it will make. */
  datatype Phase =
    | Saving | Resetting | Targeting | SelfLogging | Preparing
    | PollAlive | PollFailed | PollPrepared
    | Activating | Announcing | Recording | Caching | Closing
    | Aborting | Vetting | Failing
    | RepairProbe | RepairLoad | RepairWrite
    | Finished

  /** `entry` is the replica's staging map when the cycle began; `target` and `alive` are the
      round's target set and the last reading of the registry. */
  datatype Cycle = Cycle(phase: Phase, unanimous: bool, round: string, ver: Version, staged: Staged,
                         content: Bytes, target: set<string>, alive: set<string>, entry: map<string, Staged>)

  /** What the outside world answers to one access. */
  datatype Input = Input(call: Call, ids: set<string>, panics: bool, giveUp: bool, now: int)

  /** What a cycle learns before it touches shared state. None: the source could not be read. */
  datatype Source = Source(reported: Option<int>, listed: Option<seq<Item>>)

  /** From the version check to the staged value. */
  function BeginCycle(o: Options, c: Codec, r: Reg, src: Source, force: bool, round: string, now: int): (Reg, Cycle) {
    var none := Staged(UNSET, [], None);
    var idle := Cycle(Finished, o.unanimous, round, UNSET, none, [], {}, {}, r.staged);
    if src.reported.None? then (r, idle)
    else
      var ver := SyncVersion(o.time, src.reported.value, r.ver, force, now);
      if !force && !r.ver.IsZero() && ver.Equal(r.ver) then (r, idle.(phase := RepairProbe))
      else if !AllowForward(r, ver) || src.listed.None? then (r, idle)
      else
        var (r', content) := AfterFetch(c, r, ver, round, src.listed.value, now, if o.unanimous then o.ttl else 0);
        if content.None? then (r, idle)
        else (r', Cycle(Saving, o.unanimous, round, ver, r'.staged[round], content.value, {}, {}, r.staged))
  }

  datatype Local = Local(reg: Reg, cyc: Cycle)

  function Go(l: Local, p: Phase): Local {
    l.(cyc := l.cyc.(phase := p))
  }

  /** The error exits before the decision: drop the staged value and return. */
  function GiveUp(l: Local): Local {
    Local(Unstage(l.reg, l.cyc.round), l.cyc.(phase := Finished))
  }

  function Publish(sh: Shared, e: Event, call: Call): Shared {
    if call.TookEffect() then sh.(sent := sh.sent + {e}) else sh
  }

  function WriteTable(sh: Shared, t: Table, call: Call): Shared {
    if call.TookEffect() then sh.(table := t) else sh
  }

  function WriteCache(o: Options, sh: Shared, e: Entry, call: Call): Shared {
    if o.cacheWrites && call.TookEffect() then sh.(cache := Some(e)) else sh
  }

  predicate SomeFailed(t: Table, v: string, ids: set<string>) {
    exists id :: id in ids && (id, v) in t.log && t.log[(id, v)] == PrepareFailed
  }

  predicate AllPrepared(t: Table, v: string, ids: set<string>) {
    forall id :: id in ids ==> (id, v) in t.log && t.log[(id, v)] == Prepared
  }

  function ApplyStaged(l: Local, panics: bool): (Local, bool) {
    var (r, out) := AfterCommitStaged(l.reg, l.cyc.round, l.cyc.staged, panics);
    (l.(reg := r), out.Ok? || r.ver.Equal(l.cyc.ver))
  }

  ghost function CycleStep(o: Options, me: string, l: Local, sh: Shared, x: Input): (Local, Shared) {
    var cy, v, ok := l.cyc, l.cyc.ver.raw, x.call.Done?;
    var t := sh.table;
    match cy.phase
    case Saving =>
      (if !ok then GiveUp(l) else Go(l, if cy.unanimous then Resetting else Activating),
       WriteTable(sh, Save(t, v, cy.content, x.now), x.call))
    case Resetting =>
      (if !ok then GiveUp(l) else Go(l, Targeting), WriteTable(sh, ResetLog(t, v), x.call))
    case Targeting =>
      (if !ok then GiveUp(l) else l.(cyc := cy.(target := x.ids, phase := SelfLogging)), sh)
    case SelfLogging =>
      (if !ok then GiveUp(l) else Go(l, Preparing), WriteTable(sh, Log(t, me, v, Prepared), x.call))
    case Preparing =>
      (if !ok then GiveUp(l) else Go(l, if cy.target == {} then Activating else PollAlive),
       Publish(sh, Event(Prepare, v, cy.round, me), x.call))
    case PollAlive =>
      (if !ok then Go(l, Aborting) else l.(cyc := cy.(alive := x.ids, phase := PollFailed)), sh)
    case PollFailed =>
      (Go(l, if !ok || SomeFailed(t, v, cy.target * cy.alive) then Aborting else PollPrepared), sh)
    case PollPrepared =>
      (Go(l, if !ok then Aborting
             else if AllPrepared(t, v, cy.target * cy.alive) then Activating
             else if x.giveUp then Aborting else PollAlive), sh)
    case Activating =>
      var done := ok && v in t.rows;
      var sh' := WriteTable(sh, Activate(t, v), x.call);
      if cy.unanimous then (Go(l, if done then Announcing else Aborting), sh')
      else if !done then (GiveUp(l), sh')
      else
        var (l', live) := ApplyStaged(l, x.panics);
        (Go(l', if live then Announcing else Finished), sh')
    case Announcing =>
      if cy.unanimous then
        var (l', live) := ApplyStaged(l, x.panics);
        (Go(l', if live then Recording else Finished), Publish(sh, Event(Commit, v, cy.round, me), x.call))
      else
        (Go(l, if ok then Caching else Finished), Publish(sh, Event(Sync, v, "", me), x.call))
    case Recording =>
      (Go(l, if cy.unanimous then Caching else Finished),
       WriteTable(sh, Log(t, me, v, if cy.unanimous then Committed else Applied), x.call))
    case Caching =>
      (Go(l, if cy.unanimous then Closing else Recording), WriteCache(o, sh, Entry(v, cy.content), x.call))
    case Closing =>
      (Go(l, Finished), Publish(sh, Event(Sync, v, "", me), x.call))
    case Aborting =>
      (Go(l.(reg := Unstage(l.reg, cy.round)), Vetting), Publish(sh, Event(Abort, v, cy.round, me), x.call))
    case Vetting =>
      (Go(l, if !ok || ActiveVersion(t) == Some(v) then Finished else Failing), sh)
    case Failing =>
      (Go(l, Finished), WriteTable(sh, Fail(t, v), x.call))
    case RepairProbe =>
      (Go(l, if o.cacheWrites && ok && sh.cache.None? then RepairLoad else Finished), sh)
    case RepairLoad =>
      (if !ok || ActiveVersion(t).None? then Go(l, Finished)
       else l.(cyc := cy.(phase := RepairWrite, ver := Version(ActiveVersion(t).value, 0),
                          content := t.rows[ActiveVersion(t).value].content)), sh)
    case RepairWrite =>
      (Go(l, Finished), WriteCache(o, sh, Entry(v, cy.content), x.call))
    case Finished => (l, sh)
  }
}
