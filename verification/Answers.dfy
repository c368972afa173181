/** What one step answers, from the state before it: which version a leader opens its cycle at,
    what a follower serves, stages and logs for each event, and what the pending writes write. */
module Answers {
  import opened Wrappers
  import opened Versions
  import opened Tables
  import opened Registration
  import opened Protocol
  import opened Cluster

  /** Another replica's event, or an operator's. */
  predicate Foreign(a: Step) {
    a.Deliver? && !(a.e.origin != "" && a.e.origin == a.id)
  }

  /** Bytes are accepted as `xs` exactly when they decode, `xs` is what they decode to with the
      defaults filled in, and the validator takes it. */
  lemma AcceptedAs(c: Codec, data: Bytes, xs: seq<Item>)
    ensures Accept(c, data) == Some(xs) <==>
              c.decode(data).Some? && FilledIn(c, c.decode(data).value, xs) && c.validates(xs)
  {
    if c.decode(data).Some? {
      FillsIn(c, c.decode(data).value);
    }
  }

  // ---------------------------------------------------------------- the leader's opening

  /** The cycle the step opened holds `xs` under its round, at `ver`, ready to be saved. */
  ghost predicate OpenedWith(w: World, s: System, a: Step, ver: Version, xs: seq<Item>)
    requires Enabled(w, s, a) && a.Begin?
  {
    var r, n := s.nodes[a.id].reg, Next(w, s, a).nodes[a.id];
    && n.pc.Leading? && n.pc.cyc.phase.Saving? && n.pc.cyc.ver == ver && n.pc.cyc.round == a.round
    && w.codec(a.id).encode(xs) == Some(n.pc.cyc.content) && n.pc.cyc.staged == n.reg.staged[a.round]
    && var expires := if w.o.unanimous && w.o.ttl > 0 then Some(a.now + w.o.ttl) else None;
       n.reg == r.(staged := r.staged[a.round := Staged(ver, xs, expires)])
  }

  /** The step opened nothing. */
  ghost predicate OpenedNothing(w: World, s: System, a: Step)
    requires Enabled(w, s, a) && a.Begin?
  {
    Next(w, s, a) == s
  }

  /** An unforced cycle over items that can be published opens exactly at the version reported:
      when nothing is served yet, or when that version is later than the one served. At the very
      version served it looks after the cache instead; at any other it declines. */
  lemma UnforcedOpens(w: World, s: System, a: Step, xs: seq<Item>)
    requires Enabled(w, s, a) && a.Begin? && !a.force && a.src.reported.Some? && a.src.listed.Some?
    requires FilledIn(w.codec(a.id), a.src.listed.value, xs)
    requires w.codec(a.id).validates(xs) && w.codec(a.id).encode(xs).Some?
    ensures var ver, local := NewVersion(w.o.time, a.src.reported.value), s.nodes[a.id].reg.ver;
            if local.raw == "" || (ver.t > local.t && ver.raw != local.raw) then OpenedWith(w, s, a, ver, xs)
            else if ver.raw == local.raw then
              var n := Next(w, s, a).nodes[a.id];
              n.pc.Leading? && n.pc.cyc.phase.RepairProbe? && n.reg == s.nodes[a.id].reg
            else OpenedNothing(w, s, a)
  {
    FillsIn(w.codec(a.id), a.src.listed.value);
    assert s.nodes[a.id := s.nodes[a.id]] == s.nodes;
  }

  /** A forced cycle, whose content is new whatever the source's version says, opens at the
      version reported when that is later than the one served, and otherwise at one minted from
      the clock. It declines only when something is served and neither is later. */
  lemma ForcedOpens(w: World, s: System, a: Step, xs: seq<Item>)
    requires Enabled(w, s, a) && a.Begin? && a.force && a.src.reported.Some? && a.src.listed.Some?
    requires FilledIn(w.codec(a.id), a.src.listed.value, xs)
    requires w.codec(a.id).validates(xs) && w.codec(a.id).encode(xs).Some?
    ensures var reported, minted := NewVersion(w.o.time, a.src.reported.value), NewVersion(w.o.time, a.now);
            var local := s.nodes[a.id].reg.ver;
            if reported.t > local.t then OpenedWith(w, s, a, reported, xs)
            else if local.raw == "" || minted.t > local.t then OpenedWith(w, s, a, minted, xs)
            else OpenedNothing(w, s, a)
  {
    FillsIn(w.codec(a.id), a.src.listed.value);
    assert s.nodes[a.id := s.nodes[a.id]] == s.nodes;
  }

  /** Without a version or a listing, or with items that do not validate or encode, no cycle
      opens. */
  lemma UnreadableOpensNothing(w: World, s: System, a: Step)
    requires Enabled(w, s, a) && a.Begin?
    requires var c := w.codec(a.id);
             a.src.reported.None? || a.src.listed.None? ||
             forall xs :: FilledIn(c, a.src.listed.value, xs) ==> !c.validates(xs) || c.encode(xs).None?
    ensures var n := Next(w, s, a).nodes[a.id];
            OpenedNothing(w, s, a) || (n.pc.Leading? && n.pc.cyc.phase.RepairProbe? && n.reg == s.nodes[a.id].reg)
    ensures a.src.reported.None? ==> OpenedNothing(w, s, a)
  {
    if a.src.listed.Some? {
      FillsIn(w.codec(a.id), a.src.listed.value);
    }
    assert s.nodes[a.id := s.nodes[a.id]] == s.nodes;
  }

  // ---------------------------------------------------------------- a follower's answers

  /** A step on `id` that touches nothing shared and no other replica. */
  ghost predicate OnlyMoves(s: System, s': System, id: string, n: Node) {
    s' == Put(s, id, n)
  }

  /** Our own event, a 2PC event without 2PC, or one about a collection not managed here. */
  lemma IgnoredEvent(w: World, s: System, a: Step)
    requires Enabled(w, s, a) && a.Deliver?
    requires !Foreign(a) || (!w.o.unanimous && a.e.action in {Prepare, Commit, Abort})
             || (a.id !in w.managed && a.e.action != Prepare)
    ensures Next(w, s, a) == s
  {
    assert s.nodes[a.id := s.nodes[a.id]] == s.nodes;
  }

  /** A sync event: acted on exactly when it names another version, and a later one if something
      is served. Then the snapshot is served if it can be read and is accepted, and what is
      logged says how it went. */
  lemma SyncAnswer(w: World, s: System, a: Step)
    requires Enabled(w, s, a) && Foreign(a) && a.e.action == Sync && a.id in w.managed
    ensures var n, v, rows := s.nodes[a.id], a.e.version, s.sh.table.rows;
            var c, t, local := w.codec(a.id), w.o.time.parse(v), n.reg.ver;
            OnlyMoves(s, Next(w, s, a), a.id,
              if t.None? || v == local.raw || !(local.raw == "" || t.value > local.t) then n
              else if !a.ok || v !in rows || c.decode(rows[v].content).None? then
                Node(n.reg, Logging(LogWrite(v, Error)))
              else if Accept(c, rows[v].content).None? then Node(n.reg, Logging(LogWrite(v, ValidationFailed)))
              else Node(Reg(Version(v, t.value), Accept(c, rows[v].content).value, n.reg.staged),
                        Logging(LogWrite(v, if a.panics then Error else Applied))))
  {
  }

  /** A prepare event: a managing follower answers "prepared" if and only if the row parses,
      reads and is accepted, and then holds exactly those items under the round; otherwise it
      answers "prepare_failed" and nothing changes. */
  lemma PrepareAnswer(w: World, s: System, a: Step)
    requires Enabled(w, s, a) && Foreign(a) && a.e.action == Prepare && w.o.unanimous && a.id in w.managed
    ensures var n, n', v, rows := s.nodes[a.id], Next(w, s, a).nodes[a.id], a.e.version, s.sh.table.rows;
            var c, t := w.codec(a.id), w.o.time.parse(v);
            var good := t.Some? && a.ok && v in rows && Accept(c, rows[v].content).Some?;
            && OnlyMoves(s, Next(w, s, a), a.id, n')
            && (n'.pc == Logging(LogWrite(v, Prepared)) <==> good)
            && (!good ==> n'.pc == Logging(LogWrite(v, PrepareFailed)) && n'.reg == n.reg)
            && (good ==>
                  var expires := if w.o.ttl > 0 then Some(a.now + w.o.ttl) else None;
                  n'.reg == n.reg.(staged := n.reg.staged[a.e.round :=
                              Staged(Version(v, t.value), Accept(c, rows[v].content).value, expires)]))
  {
  }

  /** A follower that does not manage the collection is in favour. */
  lemma UnmanagedPrepareAnswer(w: World, s: System, a: Step)
    requires Enabled(w, s, a) && Foreign(a) && a.e.action == Prepare && w.o.unanimous && a.id !in w.managed
    ensures OnlyMoves(s, Next(w, s, a), a.id, Node(s.nodes[a.id].reg, Logging(LogWrite(a.e.version, Prepared))))
  {
  }

  /** A commit event: the staged value goes live, or else the named snapshot if it can be read
      and is accepted; what is logged says whether this replica is through with it. */
  lemma CommitAnswer(w: World, s: System, a: Step)
    requires Enabled(w, s, a) && Foreign(a) && a.e.action == Commit && w.o.unanimous && a.id in w.managed
    ensures var n, v, round, rows := s.nodes[a.id], a.e.version, a.e.round, s.sh.table.rows;
            var c, t, st := w.codec(a.id), w.o.time.parse(v), n.reg.staged;
            OnlyMoves(s, Next(w, s, a), a.id,
              if round in st then
                Node(Reg(st[round].ver, st[round].items, st - {round}),
                     Logging(LogWrite(v, if a.panics then Error else Committed)))
              else if t.None? then n
              else if !a.ok || v !in rows || Accept(c, rows[v].content).None? then
                Node(n.reg, Logging(LogWrite(v, Error)))
              else Node(Reg(Version(v, t.value), Accept(c, rows[v].content).value, st),
                        Logging(LogWrite(v, if a.panics then Error else Committed))))
  {
  }

  /** An abort event drops the round's value and says nothing. */
  lemma AbortAnswer(w: World, s: System, a: Step)
    requires Enabled(w, s, a) && Foreign(a) && a.e.action == Abort && w.o.unanimous && a.id in w.managed
    ensures var r := s.nodes[a.id].reg;
            OnlyMoves(s, Next(w, s, a), a.id, Node(r.(staged := r.staged - {a.e.round}), Idle))
  {
  }

  /** A rollback event: the active snapshot is served, in either direction, if it can be read and
      is accepted; only a swap no hook spoils goes on to the cache. */
  lemma RollbackAnswer(w: World, s: System, a: Step, v: string)
    requires Enabled(w, s, a) && Foreign(a) && a.e.action == Rollback && a.id in w.managed
    requires ActiveSet(s.sh.table) == {v}
    ensures v in s.sh.table.rows
    ensures var n, data, c, t := s.nodes[a.id], s.sh.table.rows[v].content, w.codec(a.id), w.o.time.parse(v);
            OnlyMoves(s, Next(w, s, a), a.id,
              if !a.ok || t.None? || Accept(c, data).None? then n
              else Node(Reg(Version(v, t.value), Accept(c, data).value, n.reg.staged),
                        if a.panics then Idle else Reverting(Entry(v, data))))
  {
    OneActiveIs(s.sh.table, v);
    assert s.nodes[a.id := s.nodes[a.id]] == s.nodes;
  }

  lemma OneActiveIs(t: Table, v: string)
    requires ActiveSet(t) == {v}
    ensures v in t.rows && ActiveVersion(t) == Some(v)
  {
    assert v in ActiveSet(t);
  }

  /** A catch-up pass: the probe goes on to the content exactly when the active version is
      another one, and later if something is served. */
  lemma ProbeAnswer(w: World, s: System, a: Step, v: string)
    requires Enabled(w, s, a) && a.Probe? && ActiveSet(s.sh.table) == {v}
    ensures var n, t := s.nodes[a.id], w.o.time.parse(v); var local := n.reg.ver;
            OnlyMoves(s, Next(w, s, a), a.id,
              if a.ok && t.Some? && v != local.raw && (local.raw == "" || t.value > local.t)
              then Node(n.reg, Probed) else n)
  {
    OneActiveIs(s.sh.table, v);
    assert s.nodes[a.id := s.nodes[a.id]] == s.nodes;
  }

  /** And the load serves what is active by then, under the same test, recording it as applied
      only if no hook panicked. */
  lemma LoadAnswer(w: World, s: System, a: Step, v: string)
    requires Enabled(w, s, a) && a.Load? && ActiveSet(s.sh.table) == {v}
    ensures v in s.sh.table.rows
    ensures var n, data, c, t := s.nodes[a.id], s.sh.table.rows[v].content, w.codec(a.id), w.o.time.parse(v);
            var local := n.reg.ver;
            OnlyMoves(s, Next(w, s, a), a.id,
              if !a.ok || t.None? || !(local.raw == "" || t.value > local.t) || Accept(c, data).None?
              then Node(n.reg, Idle)
              else Node(Reg(Version(v, t.value), Accept(c, data).value, n.reg.staged),
                        if a.panics then Idle else Logging(LogWrite(v, Applied))))
  {
    OneActiveIs(s.sh.table, v);
  }

  /** With nothing active, nothing can be loaded. */
  lemma NothingToLoad(w: World, s: System, a: Step)
    requires Enabled(w, s, a) && ActiveSet(s.sh.table) == {}
    ensures a.Probe? ==> Next(w, s, a) == s
    ensures a.Load? ==> OnlyMoves(s, Next(w, s, a), a.id, Node(s.nodes[a.id].reg, Idle))
    ensures a.Deliver? && a.e.action == Rollback ==> Next(w, s, a) == s
  {
    assert a.Deliver? ==> s.nodes[a.id := s.nodes[a.id]] == s.nodes;
  }

  /** The writes a handler leaves pending. A refused write has no effect, an ambiguous one has
      its effect; either way the replica goes on. */
  lemma PendingWrites(w: World, s: System, a: Step)
    requires Enabled(w, s, a) && (a.Flush? || a.CacheWrite?)
    ensures var s', n := Next(w, s, a), s.nodes[a.id];
            && s'.nodes == s.nodes[a.id := s'.nodes[a.id]] && s'.nodes[a.id].reg == n.reg
            && s'.lock == s.lock && s'.issued == s.issued && s'.sh.sent == s.sh.sent
            && s'.sh.table.rows == s.sh.table.rows
            && (a.Flush? ==>
                  && s'.nodes[a.id].pc == Idle && s'.sh.cache == s.sh.cache
                  && s'.sh.table.log ==
                     if a.call.Refused? then s.sh.table.log
                     else s.sh.table.log[(a.id, n.pc.write.version) := n.pc.write.status])
            && (a.CacheWrite? ==>
                  && s'.nodes[a.id].pc == Logging(LogWrite(n.pc.entry.version, RolledBack))
                  && s'.sh.table.log == s.sh.table.log
                  && s'.sh.cache == if a.call.Refused? || !w.o.cacheWrites then s.sh.cache else Some(n.pc.entry))
  {
  }

  // ---------------------------------------------------------------- startup

  /** First half of a startup: the cache entry, if the strategy reads the cache, the entry can be
      read and parsed, and its bytes are accepted. */
  lemma WarmUpAnswer(w: World, s: System, a: Step)
    requires Enabled(w, s, a) && a.WarmUp?
    ensures var r, c, entry := s.nodes[a.id].reg, w.codec(a.id), s.sh.cache;
            OnlyMoves(s, Next(w, s, a), a.id,
              if a.id in w.managed && w.o.cacheReads && a.ok && entry.Some? && w.o.time.parse(entry.value.version).Some?
                 && Accept(c, entry.value.content).Some?
              then Node(Reg(Version(entry.value.version, w.o.time.parse(entry.value.version).value),
                            Accept(c, entry.value.content).value, r.staged), Warm)
              else Node(r, Warm))
  {
  }

  /** Second half: the active snapshot replaces whatever the first half gave, unless it has that
      version already, cannot be read or parsed, or is refused. */
  lemma StartAnswer(w: World, s: System, a: Step, v: string)
    requires Enabled(w, s, a) && a.Start? && ActiveSet(s.sh.table) == {v}
    ensures v in s.sh.table.rows
    ensures var r, c, data := s.nodes[a.id].reg, w.codec(a.id), s.sh.table.rows[v].content;
            OnlyMoves(s, Next(w, s, a), a.id,
              if a.id in w.managed && a.ok && w.o.time.parse(v).Some? && v != r.ver.raw && Accept(c, data).Some?
              then Node(Reg(Version(v, w.o.time.parse(v).value), Accept(c, data).value, r.staged), Idle)
              else Node(r, Idle))
  {
    OneActiveIs(s.sh.table, v);
  }

  lemma StartWithoutActive(w: World, s: System, a: Step)
    requires Enabled(w, s, a) && a.Start? && ActiveSet(s.sh.table) == {}
    ensures OnlyMoves(s, Next(w, s, a), a.id, Node(s.nodes[a.id].reg, Idle))
  {
  }

  // ---------------------------------------------------------------- the lock and the leader's chores

  /** Who holds the lock: it is taken only when free, and freed only by its holder, by its
      holder's crash, or by the operator who has it. A crash loses everything a replica held. */
  lemma LockChangesHands(w: World, s: System, a: Step)
    requires Enabled(w, s, a)
    ensures Next(w, s, a).lock ==
              match a
              case Acquire(id) => Replica(id)
              case Release(_) => Free
              case Crash(id) => if s.lock == Replica(id) then Free else s.lock
              case OperatorLock => Operator
              case OperatorUnlock => Free
              case _ => s.lock
    ensures a.Acquire? || a.OperatorLock? ==> s.lock == Free
    ensures a.OperatorUnlock? ==> s.lock == Operator
    ensures a.Crash? ==> OnlyMoves(s, Next(w, s, a).(lock := s.lock), a.id, Node(FRESH, Down))
  {
    hide CycleStep, BeginCycle, Handle, CatchUp, LoadCached, LoadStored;
  }

  /** Between cycles a leader may delete old snapshots and look after the cache. */
  lemma Chores(w: World, s: System, a: Step)
    requires Enabled(w, s, a)
    ensures a.PruneRows? ==>
              Next(w, s, a) ==
              s.(sh := s.sh.(table := if a.call.Refused? then s.sh.table else Prune(s.sh.table, a.cutoff)))
    ensures a.Repair? ==>
              var n := Next(w, s, a).nodes[a.id];
              OnlyMoves(s, Next(w, s, a), a.id, n) && n.reg == s.nodes[a.id].reg && n.pc.Leading?
              && n.pc.cyc.phase.RepairProbe?
  {
  }
}
