/** manager/sync.go, the follower half as it runs: handlers, catch-up and startup loads over a
    replica's registered collections, the shared store, the cache and the notify channel. */
module Followers {
  import opened Wrappers
  import opened Versions
  import opened Tables
  import opened Registration
  import opened Postgres
  import opened Protocol
  import Cluster

  class CacheStore {
    var entries: map<string, Entry>

    function Lookup(c: string): Option<Entry>
      reads this
    {
      if c in entries then Some(entries[c]) else None
    }
  }

  class Notifier {
    var sent: map<string, set<Event>>

    function Events(c: string): set<Event>
      reads this
    {
      if c in sent then sent[c] else {}
    }
  }

  /** What one catch-up pass over one collection meets: its reads, hooks and log write. */
  datatype Pass = Pass(probed: bool, loaded: bool, panics: bool, call: Call)

  class Manager {
    const id: string
    const o: Options
    const storage: Store
    const cache: CacheStore
    const notifier: Notifier
    const configs: map<string, CollectionReg>

    constructor (id: string, o: Options, storage: Store, cache: CacheStore, notifier: Notifier,
                 configs: map<string, CollectionReg>)
      requires storage.Valid() && forall n :: n in configs ==> configs[n].name == n
      ensures this.id == id && this.o == o && this.storage == storage && this.cache == cache
      ensures this.notifier == notifier && this.configs == configs && Valid()
    {
      this.id, this.o, this.configs := id, o, configs;
      this.storage, this.cache, this.notifier := storage, cache, notifier;
    }

    ghost predicate Valid()
      reads storage
    {
      storage.Valid() && forall n :: n in configs ==> configs[n].name == n
    }

    /** What all replicas see of one collection. */
    function Seen(c: string): Shared
      reads storage, cache, notifier
    {
      Shared(storage.Slice(c), cache.Lookup(c), notifier.Events(c))
    }

    ghost function Regs(): set<object> {
      set n | n in configs :: configs[n]
    }

    ghost function RegOf(c: string): set<object> {
      if c in configs then {configs[c]} else {}
    }

    method LogApplyStatus(c: string, v: string, st: ApplyStatus, call: Call)
      requires Valid()
      modifies storage`applyLog
      ensures Valid() && Seen(c) == WriteTable(old(Seen(c)), Log(old(Seen(c)).table, id, v, st), call)
      ensures forall d :: d != c ==> Seen(d) == old(Seen(d))
      ensures forall d :: storage.Rows(d) == old(storage.Rows(d))
    {
      var _ := storage.LogApply(id, c, v, st, call); // an error is only logged
    }

    /** cacheWrite under a synchronous strategy: an error is only logged. */
    method WriteToCache(c: string, e: Entry, call: Call)
      modifies cache
      ensures Seen(c) == WriteCache(o, old(Seen(c)), e, call)
      ensures forall d :: d != c ==> Seen(d) == old(Seen(d))
    {
      if o.cacheWrites && call.TookEffect() {
        cache.entries := cache.entries[c := e];
      }
    }

    /** The shared state after the log write a handler ends with, if it ends with one. */
    function Logged(sh: Shared, log: Option<LogWrite>, call: Call): Shared {
      if log.None? then sh else WriteTable(sh, Log(sh.table, id, log.value.version, log.value.status), call)
    }

    method AllowsForward(reg: CollectionReg, ver: Version) returns (ok: bool)
      ensures ok == AllowForward(reg.View(), ver)
    {
      ok := reg.ver.IsZero() || ver.After(reg.ver);
    }

    method HandleSyncEvent(c: string, e: Event, ok: bool, panics: bool, call: Call)
      requires Valid()
      modifies RegOf(c), storage`applyLog
      ensures Valid()
      ensures forall d :: d != c ==> Seen(d) == old(Seen(d))
      ensures c !in configs ==> Seen(c) == old(Seen(c))
      ensures c in configs ==>
                var h := OnSync(o, configs[c].codec, old(configs[c].View()), old(Seen(c)).table, e, ok, panics);
                configs[c].View() == h.reg && Seen(c) == Logged(old(Seen(c)), h.log, call)
    {
      if c !in configs {
        return;
      }
      var reg := configs[c];
      var ver := ParseVersion(o.time, e.version);
      if ver.None? || reg.ver.Equal(ver.value) {
        return;
      }
      var forward := AllowsForward(reg, ver.value);
      if !forward {
        return;
      }
      var snap := storage.GetSnapshot(c, e.version, ok);
      if !snap.Got? {
        LogApplyStatus(c, e.version, Error, call);
        return;
      }
      var out := reg.SwapFromBytes(ver.value, snap.value.content, panics);
      if !out.Ok? {
        LogApplyStatus(c, e.version, if out.Rejected? then ValidationFailed else Error, call);
        return;
      }
      LogApplyStatus(c, e.version, Applied, call);
    }

    /** Where a rollback goes on to: the cache first, then the log. */
    function AfterRevert(sh: Shared, e: Option<Entry>, cached: Call, logged: Call): Shared {
      if e.None? then sh
      else Logged(WriteCache(o, sh, e.value, cached), Some(LogWrite(e.value.version, RolledBack)), logged)
    }

    method HandleRollbackEvent(c: string, ok: bool, panics: bool, cached: Call, logged: Call)
      requires Valid()
      modifies RegOf(c), storage`applyLog, cache
      ensures Valid()
      ensures forall d :: d != c ==> Seen(d) == old(Seen(d))
      ensures c !in configs ==> Seen(c) == old(Seen(c))
      ensures c in configs ==>
                var active := ReadActive(old(Seen(c)).table, ok);
                var h := OnRollback(o, configs[c].codec, old(configs[c].View()), active, panics);
                configs[c].View() == h.reg && Seen(c) == AfterRevert(old(Seen(c)), h.cached, cached, logged)
    {
      if c !in configs {
        return;
      }
      var reg := configs[c];
      var snap := storage.GetActiveSnapshot(c, ok);
      if !snap.Got? {
        return;
      }
      var ver := ParseVersion(o.time, snap.value.0);
      if ver.None? {
        return;
      }
      var out := reg.SwapFromBytes(ver.value, snap.value.1.content, panics);
      if !out.Ok? {
        return;
      }
      WriteToCache(c, Entry(snap.value.0, snap.value.1.content), cached);
      LogApplyStatus(c, snap.value.0, RolledBack, logged);
    }

    method HandlePrepareEvent(c: string, e: Event, ok: bool, now: int, call: Call)
      requires Valid()
      modifies RegOf(c), storage`applyLog
      ensures Valid()
      ensures forall d :: d != c ==> Seen(d) == old(Seen(d))
      ensures c !in configs ==> Seen(c) == Logged(old(Seen(c)), Some(LogWrite(e.version, Prepared)), call)
      ensures c in configs ==>
                var h := OnPrepare(o, configs[c].codec, old(configs[c].View()), old(Seen(c)).table, e, ok, now);
                configs[c].View() == h.reg && Seen(c) == Logged(old(Seen(c)), h.log, call)
    {
      if c !in configs {
        LogApplyStatus(c, e.version, Prepared, call);
        return;
      }
      var ver := ParseVersion(o.time, e.version);
      if ver.None? {
        LogApplyStatus(c, e.version, PrepareFailed, call);
        return;
      }
      var snap := storage.GetSnapshot(c, e.version, ok);
      if !snap.Got? {
        LogApplyStatus(c, e.version, PrepareFailed, call);
        return;
      }
      var out := configs[c].StageFromBytes(ver.value, e.round, snap.value.content, now, o.ttl);
      LogApplyStatus(c, e.version, if out.Ok? then Prepared else PrepareFailed, call);
    }

    method HandleCommitEvent(c: string, e: Event, ok: bool, panics: bool, call: Call)
      requires Valid()
      modifies RegOf(c), storage`applyLog
      ensures Valid()
      ensures forall d :: d != c ==> Seen(d) == old(Seen(d))
      ensures c !in configs ==> Seen(c) == old(Seen(c))
      ensures c in configs ==>
                var h := OnCommit(o, configs[c].codec, old(configs[c].View()), old(Seen(c)).table, e, ok, panics);
                configs[c].View() == h.reg && Seen(c) == Logged(old(Seen(c)), h.log, call)
    {
      if c !in configs {
        return;
      }
      var reg := configs[c];
      var out := reg.CommitByRoundID(e.round, panics);
      if out.NotStaged? {
        var ver := ParseVersion(o.time, e.version);
        if ver.None? {
          return;
        }
        var snap := storage.GetSnapshot(c, e.version, ok);
        if !snap.Got? {
          LogApplyStatus(c, e.version, Error, call);
          return;
        }
        out := reg.SwapFromBytes(ver.value, snap.value.content, panics);
      }
      LogApplyStatus(c, e.version, if out.Ok? then Committed else Error, call);
    }

    method HandleAbortEvent(c: string, e: Event)
      modifies RegOf(c)
      ensures c in configs ==> configs[c].View() == Unstage(old(configs[c].View()), e.round)
    {
      if c in configs {
        configs[c].AbortByRoundID(e.round);
      }
    }

    /** The run's options and this replica's codec, as the cluster model names them. */
    ghost predicate Models(w: Cluster.World, c: string) {
      w.o == o && (id in w.managed <==> c in configs) && (c in configs ==> w.codec(id) == configs[c].codec)
    }

    /** The shared state once the writes a handler leaves pending have been made. */
    function Settle(sh: Shared, pc: Cluster.Pc, cached: Call, logged: Call): Shared {
      match pc
      case Logging(write) => Logged(sh, Some(write), logged)
      case Reverting(entry) => AfterRevert(sh, Some(entry), cached, logged)
      case _ => sh
    }

    ghost function Delivered(w: Cluster.World, c: string, r: Reg, sh: Shared, e: Event, ok: bool, panics: bool,
                             now: int): Cluster.Node {
      Cluster.Handle(w, id, Cluster.Node(r, Cluster.Idle), sh, e, ok, panics, now)
    }

    /** Handling event `e` takes `r` and `sh` to `r'` and `sh'`, as the cluster model tells it. */
    ghost predicate Delivers(w: Cluster.World, c: string, r: Reg, sh: Shared, e: Event, ok: bool, panics: bool,
                             now: int, cached: Call, logged: Call, r': Reg, sh': Shared)
    {
      var n := Delivered(w, c, r, sh, e, ok, panics, now);
      r' == n.reg && sh' == Settle(sh, n.pc, cached, logged)
    }

    /** Settling is what the cluster's own steps make of the pending writes. */
    lemma SettleIsSteps(w: Cluster.World, s: Cluster.System, cached: Call, logged: Call)
      requires w.o == o && id in s.nodes
      ensures s.nodes[id].pc.Logging? ==>
                && Cluster.Enabled(w, s, Cluster.Flush(id, logged))
                && Cluster.Next(w, s, Cluster.Flush(id, logged)).sh == Settle(s.sh, s.nodes[id].pc, cached, logged)
      ensures s.nodes[id].pc.Reverting? ==>
                && Cluster.Enabled(w, s, Cluster.CacheWrite(id, cached))
                && var s1 := Cluster.Next(w, s, Cluster.CacheWrite(id, cached));
                   && Cluster.Enabled(w, s1, Cluster.Flush(id, logged))
                   && Cluster.Next(w, s1, Cluster.Flush(id, logged)).sh == Settle(s.sh, s.nodes[id].pc, cached, logged)
      ensures !s.nodes[id].pc.Logging? && !s.nodes[id].pc.Reverting? ==>
                Settle(s.sh, s.nodes[id].pc, cached, logged) == s.sh
    {
    }

    lemma DeliversHandled(w: Cluster.World, c: string, r: Reg, sh: Shared, e: Event, ok: bool, panics: bool, now: int,
                          cached: Call, logged: Call)
      requires Models(w, c) && c in configs && !(e.origin != "" && e.origin == id)
      ensures e.action == Sync ==>
                var h := OnSync(o, configs[c].codec, r, sh.table, e, ok, panics);
                Delivers(w, c, r, sh, e, ok, panics, now, cached, logged, h.reg, Logged(sh, h.log, logged))
      ensures e.action == Prepare && o.unanimous ==>
                var h := OnPrepare(o, configs[c].codec, r, sh.table, e, ok, now);
                Delivers(w, c, r, sh, e, ok, panics, now, cached, logged, h.reg, Logged(sh, h.log, logged))
      ensures e.action == Commit && o.unanimous ==>
                var h := OnCommit(o, configs[c].codec, r, sh.table, e, ok, panics);
                Delivers(w, c, r, sh, e, ok, panics, now, cached, logged, h.reg, Logged(sh, h.log, logged))
      ensures e.action == Abort && o.unanimous ==>
                Delivers(w, c, r, sh, e, ok, panics, now, cached, logged, Unstage(r, e.round), sh)
    {
    }

    lemma DeliversUnmanaged(w: Cluster.World, c: string, r: Reg, sh: Shared, e: Event, ok: bool, panics: bool, now: int,
                            cached: Call, logged: Call)
      requires Models(w, c) && c !in configs && o.unanimous && e.action == Prepare
      requires !(e.origin != "" && e.origin == id)
      ensures Delivers(w, c, r, sh, e, ok, panics, now, cached, logged, r,
                       Logged(sh, Some(LogWrite(e.version, Prepared)), logged))
    {
    }

    lemma DeliversReverted(w: Cluster.World, c: string, r: Reg, sh: Shared, e: Event, ok: bool, panics: bool, now: int,
                           cached: Call, logged: Call)
      requires Models(w, c) && c in configs && !(e.origin != "" && e.origin == id) && e.action == Rollback
      ensures var h := OnRollback(o, configs[c].codec, r, ReadActive(sh.table, ok), panics);
              Delivers(w, c, r, sh, e, ok, panics, now, cached, logged, h.reg,
                       AfterRevert(sh, h.cached, cached, logged))
    {
    }

    lemma DeliversIgnored(w: Cluster.World, c: string, r: Reg, sh: Shared, e: Event, ok: bool, panics: bool, now: int,
                          cached: Call, logged: Call)
      requires Models(w, c)
      requires (e.origin != "" && e.origin == id)
               || (!o.unanimous && (e.action == Prepare || e.action == Commit || e.action == Abort))
               || (c !in configs && e.action != Prepare)
      ensures Delivers(w, c, r, sh, e, ok, panics, now, cached, logged, r, sh)
    {
    }

    /** handleEvent is the cluster's Deliver step followed by the writes that step leaves
        pending: what the replica serves and what it shares are exactly what those steps say. */
    method HandleEvent(c: string, e: Event, ok: bool, panics: bool, now: int, cached: Call, logged: Call,
                       ghost w: Cluster.World)
      requires Valid() && Models(w, c)
      modifies RegOf(c), storage`applyLog, cache
      ensures Valid()
      ensures forall d :: d != c ==> Seen(d) == old(Seen(d))
      ensures c in configs ==>
                Delivers(w, c, old(configs[c].View()), old(Seen(c)), e, ok, panics, now, cached, logged,
                         configs[c].View(), Seen(c))
      ensures c !in configs ==>
                Delivers(w, c, FRESH, old(Seen(c)), e, ok, panics, now, cached, logged, FRESH, Seen(c))
    {
      hide Delivers;
      ghost var r := if c in configs then configs[c].View() else FRESH;
      if e.origin != "" && e.origin == id {
        DeliversIgnored(w, c, r, Seen(c), e, ok, panics, now, cached, logged);
        return;
      }
      if c in configs {
        DeliversHandled(w, c, r, Seen(c), e, ok, panics, now, cached, logged);
      }
      match e.action {
        case Sync =>
          if c !in configs { DeliversIgnored(w, c, r, Seen(c), e, ok, panics, now, cached, logged); }
          HandleSyncEvent(c, e, ok, panics, logged);
        case Rollback =>
          if c in configs { DeliversReverted(w, c, r, Seen(c), e, ok, panics, now, cached, logged); }
          else { DeliversIgnored(w, c, r, Seen(c), e, ok, panics, now, cached, logged); }
          HandleRollbackEvent(c, ok, panics, cached, logged);
        case Prepare =>
          if o.unanimous {
            if c !in configs { DeliversUnmanaged(w, c, r, Seen(c), e, ok, panics, now, cached, logged); }
            HandlePrepareEvent(c, e, ok, now, logged);
          } else {
            DeliversIgnored(w, c, r, Seen(c), e, ok, panics, now, cached, logged);
          }
        case Commit =>
          if c !in configs || !o.unanimous { DeliversIgnored(w, c, r, Seen(c), e, ok, panics, now, cached, logged); }
          if o.unanimous {
            HandleCommitEvent(c, e, ok, panics, logged);
          }
        case Abort =>
          if c !in configs || !o.unanimous { DeliversIgnored(w, c, r, Seen(c), e, ok, panics, now, cached, logged); }
          if o.unanimous {
            HandleAbortEvent(c, e);
          }
      }
    }

    // -------------------------------------------------------------- catch-up, startup, sweep

    /** One catch-up pass over one collection: its two reads and what they find. */
    ghost function CaughtUp(c: Codec, r: Reg, t: Table, p: Pass): Handled {
      if WorthLoading(o, r, ReadActiveVersion(t, p.probed)) then CatchUp(o, c, r, ReadActive(t, p.loaded), p.panics)
      else Handled(r, None)
    }

    /** A pass with nobody else acting between its reads is the cluster's probe, then its load,
        then the write the load leaves pending. */
    lemma PassIsSteps(w: Cluster.World, s: Cluster.System, c: string, p: Pass, cached: Call)
      requires Models(w, c) && c in configs && Cluster.At(s, id, Cluster.Idle)
      ensures Cluster.Enabled(w, s, Cluster.Probe(id, p.probed))
      ensures var h := CaughtUp(configs[c].codec, s.nodes[id].reg, s.sh.table, p);
              var s1 := Cluster.Next(w, s, Cluster.Probe(id, p.probed));
              if !s1.nodes[id].pc.Probed? then h.reg == s.nodes[id].reg && h.log.None? && s1.nodes[id] == s.nodes[id]
              else
                && Cluster.Enabled(w, s1, Cluster.Load(id, p.loaded, p.panics))
                && var s2 := Cluster.Next(w, s1, Cluster.Load(id, p.loaded, p.panics));
                   h.reg == s2.nodes[id].reg && Logged(s.sh, h.log, p.call) == Settle(s2.sh, s2.nodes[id].pc,
                       cached, p.call)
    {
      hide CatchUp, WorthLoading, ReadActive, ReadActiveVersion;
    }

    method CatchUpOne(c: string, p: Pass)
      requires Valid() && c in configs
      modifies configs[c], storage`applyLog
      ensures Valid()
      ensures var h := CaughtUp(configs[c].codec, old(configs[c].View()), old(Seen(c)).table, p);
              configs[c].View() == h.reg && Seen(c) == Logged(old(Seen(c)), h.log, p.call)
      ensures forall d :: d != c ==> Seen(d) == old(Seen(d))
    {
      var reg := configs[c];
      var probe := storage.GetActiveVersion(c, p.probed);
      if !probe.Got? {
        return;
      }
      var seen := ParseVersion(o.time, probe.value);
      if seen.None? || reg.ver.Equal(seen.value) {
        return;
      }
      var worth := AllowsForward(reg, seen.value);
      if !worth {
        return;
      }
      var snap := storage.GetActiveSnapshot(c, p.loaded);
      if !snap.Got? {
        return;
      }
      var ver := ParseVersion(o.time, snap.value.0);
      if ver.None? {
        return;
      }
      var forward := AllowsForward(reg, ver.value);
      if !forward {
        return;
      }
      var out := reg.SwapFromBytes(ver.value, snap.value.1.content, p.panics);
      if !out.Ok? {
        return;
      }
      LogApplyStatus(c, snap.value.0, Applied, p.call);
    }

    /** Every collection gets its own pass, whatever happened to the others. */
    method FollowerCatchUp(pass: string -> Pass)
      requires Valid()
      modifies Regs(), storage`applyLog
      ensures Valid()
      ensures forall c :: c in configs ==>
                var h := CaughtUp(configs[c].codec, old(configs[c].View()), old(Seen(c)).table, pass(c));
                configs[c].View() == h.reg && Seen(c) == Logged(old(Seen(c)), h.log, pass(c).call)
    {
      hide CaughtUp, Logged, CollectionReg.View, Store.Valid;
      var todo := configs.Keys;
      while todo != {}
        invariant todo <= configs.Keys && Valid()
        invariant forall c :: c in todo ==> configs[c].View() == old(configs[c].View()) && Seen(c) == old(Seen(c))
        invariant forall c :: c in configs && c !in todo ==>
          var h := CaughtUp(configs[c].codec, old(configs[c].View()), old(Seen(c)).table, pass(c));
          configs[c].View() == h.reg && Seen(c) == Logged(old(Seen(c)), h.log, pass(c).call)
      {
        var c :| c in todo;
        todo := todo - {c};
        CatchUpOne(c, pass(c));
      }
    }

    /** Startup, first half: every collection from its cache entry, if the strategy reads it. */
    method LoadFromCache(ok: string -> bool, panics: string -> bool)
      requires Valid()
      modifies Regs()
      ensures forall c :: c in configs ==>
                var entry := Seen(c).cache;
                configs[c].View() ==
                  LoadCached(o, configs[c].codec, old(configs[c].View()),
                             if !ok(c) then Broken else if entry.None? then Missing else Got(entry.value), panics(c))
    {
      if !o.cacheReads {
        return;
      }
      var todo := configs.Keys;
      while todo != {}
        invariant todo <= configs.Keys
        invariant forall c :: c in todo ==> configs[c].View() == old(configs[c].View())
        invariant forall c :: c in configs && c !in todo ==>
          configs[c].View() == LoadCached(o, configs[c].codec, old(configs[c].View()), CacheRead(c, ok(c)), panics(c))
      {
        var c :| c in todo;
        todo := todo - {c};
        var entry := CacheRead(c, ok(c));
        if entry.Got? {
          var ver := ParseVersion(o.time, entry.value.version);
          if ver.Some? {
            var _ := configs[c].SwapFromBytes(ver.value, entry.value.content, panics(c));
          }
        }
      }
    }

    function CacheRead(c: string, ok: bool): Read<Entry>
      reads cache
    {
      if !ok then Broken else if c in cache.entries then Got(cache.entries[c]) else Missing
    }

    method LoadStoredOne(c: string, ok: bool, panics: bool)
      requires Valid() && c in configs
      modifies configs[c]
      ensures configs[c].View() == LoadStored(o, configs[c].codec, old(configs[c].View()),
                                              ReadActive(Seen(c).table, ok), panics)
    {
      var snap := storage.GetActiveSnapshot(c, ok);
      if !snap.Got? {
        return;
      }
      var ver := ParseVersion(o.time, snap.value.0);
      if ver.None? || configs[c].ver.Equal(ver.value) {
        return;
      }
      var _ := configs[c].SwapFromBytes(ver.value, snap.value.1.content, panics);
    }

    /** Startup, second half: the active snapshot overrides what the cache gave, either way. */
    method LoadFromStorage(ok: string -> bool, panics: string -> bool)
      requires Valid()
      modifies Regs()
      ensures forall c :: c in configs ==>
                configs[c].View() == LoadStored(o, configs[c].codec, old(configs[c].View()),
                                                ReadActive(Seen(c).table, ok(c)), panics(c))
    {
      hide LoadStored;
      var todo := configs.Keys;
      while todo != {}
        invariant todo <= configs.Keys
        invariant forall c :: c in todo ==> configs[c].View() == old(configs[c].View())
        invariant forall c :: c in configs && c !in todo ==>
          configs[c].View() == LoadStored(o, configs[c].codec, old(configs[c].View()),
                                          ReadActive(Seen(c).table, ok(c)), panics(c))
      {
        var c :| c in todo;
        todo := todo - {c};
        LoadStoredOne(c, ok(c), panics(c));
      }
    }

    /** The reconcile tick's sweep, over every collection. */
    method SweepExpiredStages(now: int) returns (dropped: map<string, set<string>>)
      requires Valid()
      modifies Regs()
      ensures dropped.Keys == configs.Keys
      ensures forall c :: c in configs ==>
                && configs[c].View() == AfterSweep(old(configs[c].View()), now)
                && dropped[c] == old(configs[c].staged).Keys - configs[c].staged.Keys
    {
      dropped := map[];
      var todo := configs.Keys;
      while todo != {}
        invariant todo <= configs.Keys && dropped.Keys == configs.Keys - todo
        invariant forall c :: c in todo ==> configs[c].View() == old(configs[c].View())
        invariant forall c :: c in configs && c !in todo ==>
          && configs[c].View() == AfterSweep(old(configs[c].View()), now)
          && dropped[c] == old(configs[c].staged).Keys - configs[c].staged.Keys
      {
        var c :| c in todo;
        todo := todo - {c};
        var gone := configs[c].DropExpiredStages(now);
        dropped := dropped[c := gone];
      }
    }
  }
}
