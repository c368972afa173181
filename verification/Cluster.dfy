/** The cluster as a state machine: N replicas, the shared store, the advisory lock, and a
    notify channel that may lose, repeat and reorder. One step is one access to shared state,
    with the local work around it; everything a step leaves open is an argument of the step. */
module Cluster {
  import opened Wrappers
  import opened Versions
  import opened Tables
  import opened Registration
  import opened Protocol

  /** The service's options, each replica's codec, and the replicas that manage the collection. */
  datatype World = World(o: Options, codec: string -> Codec, managed: set<string>)

  datatype Holder = Free | Replica(id: string) | Operator

  /** Where a replica's single run-loop goroutine stands. */
  datatype Pc =
    | Down                      // not started, or crashed
    | Warm                      // loadFromCache done, loadFromStorage next
    | Idle                      // in the run loop, between two events
    | Probed                    // catch-up found a newer active version, content read next
    | Reverting(entry: Entry)   // rollback applied, cache write next
    | Logging(write: LogWrite)  // handler done, apply-log write next
    | Elected                   // holds the advisory lock, between two cycles
    | Leading(cyc: Cycle)       // inside leaderSync or leaderSync2PC

  datatype Node = Node(reg: Reg, pc: Pc)

  /** `issued`: the version each round id was minted for. */
  datatype System = System(sh: Shared, lock: Holder, nodes: map<string, Node>, issued: map<string, string>)

  datatype Step =
    | Acquire(id: string)
    | Release(id: string)
    | Begin(id: string, src: Source, force: bool, round: string, now: int)
    | Repair(id: string)
    | Lead(id: string, x: Input)
    | PruneRows(id: string, cutoff: int, call: Call)
    | Deliver(id: string, e: Event, ok: bool, panics: bool, now: int)
    | CacheWrite(id: string, call: Call)
    | Flush(id: string, call: Call)
    | Probe(id: string, ok: bool)
    | Load(id: string, ok: bool, panics: bool)
    | SweepStages(id: string, now: int)
    | Crash(id: string)
    | WarmUp(id: string, ok: bool, panics: bool)
    | Start(id: string, ok: bool, panics: bool)
    | OperatorLock
    | OperatorActivate(v: string)
    | OperatorAnnounce
    | OperatorUnlock

  const ROLLBACK := Event(Rollback, "", "", "")

  ghost predicate At(s: System, id: string, pc: Pc) {
    id in s.nodes && s.nodes[id].pc == pc
  }

  ghost predicate Enabled(w: World, s: System, a: Step) {
    match a
    case Acquire(id) => At(s, id, Idle) && s.lock == Free
    case Release(id) => At(s, id, Elected)
    case Begin(id, _, _, round, _) => At(s, id, Elected) && id in w.managed && round !in s.issued && round != ""
    case Repair(id) => At(s, id, Elected) && id in w.managed
    case Lead(id, _) => id in s.nodes && s.nodes[id].pc.Leading?
    case PruneRows(id, _, _) => At(s, id, Elected)
    case Deliver(id, e, _, _, _) => At(s, id, Idle) && e in s.sh.sent
    case CacheWrite(id, _) => id in s.nodes && s.nodes[id].pc.Reverting?
    case Flush(id, _) => id in s.nodes && s.nodes[id].pc.Logging?
    case Probe(id, _) => At(s, id, Idle) && id in w.managed
    case Load(id, _, _) => At(s, id, Probed)
    case SweepStages(id, _) => At(s, id, Idle)
    case Crash(id) => id in s.nodes
    case WarmUp(id, _, _) => At(s, id, Down)
    case Start(id, _, _) => At(s, id, Warm)
    case OperatorLock => s.lock == Free
    case OperatorActivate(v) => s.lock == Operator && v in s.sh.table.rows
    case OperatorAnnounce => true
    case OperatorUnlock => s.lock == Operator
  }

  function Put(s: System, id: string, n: Node): System {
    s.(nodes := s.nodes[id := n])
  }

  function Settled(reg: Reg, log: Option<LogWrite>): Node {
    Node(reg, if log.None? then Idle else Logging(log.value))
  }

  /** handleEvent and the handler it dispatches to, up to the write that follows. */
  ghost function Handle(w: World, id: string, n: Node, sh: Shared, e: Event, ok: bool, panics: bool, now: int): Node {
    var c := w.codec(id);
    if e.origin != "" && e.origin == id then n // our own event, echoed
    else match e.action
      case Sync =>
        if id !in w.managed then n
        else var h := OnSync(w.o, c, n.reg, sh.table, e, ok, panics); Settled(h.reg, h.log)
      case Rollback =>
        if id !in w.managed then n
        else
          var h := OnRollback(w.o, c, n.reg, ReadActive(sh.table, ok), panics);
          Node(h.reg, if h.cached.None? then Idle else Reverting(h.cached.value))
      case Prepare =>
        if !w.o.unanimous then n
        else if id !in w.managed then Settled(n.reg, Some(LogWrite(e.version, Prepared)))
        else var h := OnPrepare(w.o, c, n.reg, sh.table, e, ok, now); Settled(h.reg, h.log)
      case Commit =>
        if !w.o.unanimous || id !in w.managed then n
        else var h := OnCommit(w.o, c, n.reg, sh.table, e, ok, panics); Settled(h.reg, h.log)
      case Abort =>
        if !w.o.unanimous || id !in w.managed then n
        else n.(reg := Unstage(n.reg, e.round))
  }

  function AfterCycle(l: Local): Node {
    Node(l.reg, if l.cyc.phase.Finished? then Elected else Leading(l.cyc))
  }

  ghost function Next(w: World, s: System, a: Step): System
    requires Enabled(w, s, a)
  {
    match a
    case Acquire(id) => Put(s, id, s.nodes[id].(pc := Elected)).(lock := Replica(id))
    case Release(id) => Put(s, id, s.nodes[id].(pc := Idle)).(lock := Free)
    case Begin(id, src, force, round, now) =>
      var (r, cy) := BeginCycle(w.o, w.codec(id), s.nodes[id].reg, src, force, round, now);
      Put(s, id, AfterCycle(Local(r, cy)))
        .(issued := if cy.phase.Saving? then s.issued[round := cy.ver.raw] else s.issued)
    case Repair(id) =>
      var n := s.nodes[id];
      var cy := Cycle(RepairProbe, w.o.unanimous, "", UNSET, Staged(UNSET, [], None), [], {}, {}, n.reg.staged);
      Put(s, id, n.(pc := Leading(cy)))
    case Lead(id, x) =>
      var (l, sh) := CycleStep(w.o, id, Local(s.nodes[id].reg, s.nodes[id].pc.cyc), s.sh, x);
      Put(s, id, AfterCycle(l)).(sh := sh)
    case PruneRows(id, cutoff, call) => s.(sh := WriteTable(s.sh, Prune(s.sh.table, cutoff), call))
    case Deliver(id, e, ok, panics, now) => Put(s, id, Handle(w, id, s.nodes[id], s.sh, e, ok, panics, now))
    case CacheWrite(id, call) =>
      var e := s.nodes[id].pc.entry;
      Put(s, id, s.nodes[id].(pc := Logging(LogWrite(e.version, RolledBack)))).(sh := WriteCache(w.o, s.sh, e, call))
    case Flush(id, call) =>
      var e := s.nodes[id].pc.write;
      Put(s, id, s.nodes[id].(pc := Idle)).(sh := WriteTable(s.sh, Log(s.sh.table, id, e.version, e.status), call))
    case Probe(id, ok) =>
      if WorthLoading(w.o, s.nodes[id].reg, ReadActiveVersion(s.sh.table, ok))
      then Put(s, id, s.nodes[id].(pc := Probed)) else s
    case Load(id, ok, panics) =>
      var h := CatchUp(w.o, w.codec(id), s.nodes[id].reg, ReadActive(s.sh.table, ok), panics);
      Put(s, id, Settled(h.reg, h.log))
    case SweepStages(id, now) => Put(s, id, s.nodes[id].(reg := AfterSweep(s.nodes[id].reg, now)))
    case Crash(id) => Put(s, id, Node(FRESH, Down)).(lock := if s.lock == Replica(id) then Free else s.lock)
    case WarmUp(id, ok, panics) =>
      var entry := if !ok then Broken else if s.sh.cache.None? then Missing else Got(s.sh.cache.value);
      var r := s.nodes[id].reg;
      Put(s, id, Node(if id in w.managed then LoadCached(w.o, w.codec(id), r, entry, panics) else r, Warm))
    case Start(id, ok, panics) =>
      var r := s.nodes[id].reg;
      var active := ReadActive(s.sh.table, ok);
      Put(s, id, Node(if id in w.managed then LoadStored(w.o, w.codec(id), r, active, panics) else r, Idle))
    case OperatorLock => s.(lock := Operator)
    case OperatorActivate(v) => s.(sh := s.sh.(table := Activate(s.sh.table, v)))
    case OperatorAnnounce => s.(sh := s.sh.(sent := s.sh.sent + {ROLLBACK}))
    case OperatorUnlock => s.(lock := Free)
  }

  ghost predicate Init(s: System) {
    && s.sh == Shared(EMPTY, None, {})
    && s.lock == Free && s.issued == map[]
    && forall id :: id in s.nodes ==> s.nodes[id] == Node(FRESH, Down)
  }

  /** A run: `ss[i+1]` is what step `as[i]` makes of `ss[i]`. */
  ghost predicate Steps(w: World, ss: seq<System>, acts: seq<Step>) {
    && |ss| == |acts| + 1
    && forall i :: 0 <= i < |acts| ==> Enabled(w, ss[i], acts[i]) && ss[i + 1] == Next(w, ss[i], acts[i])
  }

  ghost predicate Run(w: World, ss: seq<System>, acts: seq<Step>) {
    Steps(w, ss, acts) && Init(ss[0])
  }
}
