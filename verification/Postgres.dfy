/** storage/postgres/postgres.go: the two tables as one mutable database shared by every
    collection, plus the session-level advisory locks. */
module Postgres {
  import opened Wrappers
  import opened Tables

  type Session = nat

  class Store {
    var snapshots: map<string, map<string, Row>>                    // by collection, then version
    var applyLog: map<string, map<(string, string), ApplyStatus>>   // by collection, then (instance, version)
    var idle: set<Session>                                          // pooled connections not handed out
    var locks: map<int, Session>                                    // advisory locks by key

    constructor (pool: set<Session>)
      ensures Valid() && idle == pool && locks == map[]
      ensures forall c :: Slice(c) == EMPTY
    {
      snapshots, applyLog, idle, locks := map[], map[], pool, map[];
    }

    function Rows(c: string): map<string, Row>
      reads this`snapshots
    {
      if c in snapshots then snapshots[c] else map[]
    }

    function Entries(c: string): map<(string, string), ApplyStatus>
      reads this`applyLog
    {
      if c in applyLog then applyLog[c] else map[]
    }

    /** The rows and log entries of one collection. */
    function Slice(c: string): Table
      reads this`snapshots, this`applyLog
    {
      Table(Rows(c), Entries(c))
    }

    /** At most one active row per collection, and a lock's session is never in the pool. */
    ghost predicate Valid()
      reads this
    {
      && (forall c :: OneActive(Slice(c)))
      && (forall k :: k in locks ==> locks[k] !in idle)
    }

    /** A write that leaves one collection with at most one active row keeps the rest valid. */
    twostate lemma StaysValid(c: string)
      requires old(Valid()) && OneActive(Slice(c)) && idle == old(idle) && locks == old(locks)
      requires forall d :: d != c ==> Slice(d) == old(Slice(d))
      ensures Valid()
    {
      forall d ensures OneActive(Slice(d)) {
        assert OneActive(old(Slice(d)));
      }
    }

    method SaveSnapshot(c: string, v: string, content: Bytes, now: int, call: Call) returns (ok: bool)
      requires Valid()
      modifies this`snapshots
      ensures Valid() && ok == call.Done?
      ensures Slice(c) == if call.TookEffect() then Save(old(Slice(c)), v, content, now) else old(Slice(c))
      ensures Rows(c) == if call.Refused? || v in old(Rows(c)) then old(Rows(c))
                         else old(Rows(c))[v := Row(content, Pending, now)]
      ensures forall d :: d != c ==> Slice(d) == old(Slice(d))
    {
      ActiveSetKept(Slice(c), v, content, now, "", Applied, 0);
      if call.TookEffect() && v !in Rows(c) { // on conflict do nothing
        snapshots := snapshots[c := Rows(c)[v := Row(content, Pending, now)]];
      }
      assert OneActive(old(Slice(c)));
      StaysValid(c);
      ok := call.Done?;
    }

    /** Two updates inside one transaction: `tx` is what the transaction sees. */
    method ActivateSnapshot(c: string, v: string, call: Call) returns (ok: bool)
      requires Valid()
      modifies this`snapshots
      ensures Valid()
      ensures ok == (call.Done? && v in old(Slice(c)).rows)
      ensures Slice(c) == if call.TookEffect() then Activate(old(Slice(c)), v) else old(Slice(c))
      ensures call.Refused? || v !in old(Rows(c)) ==> Rows(c) == old(Rows(c))
      ensures !call.Refused? && v in old(Rows(c)) ==>
                && Rows(c).Keys == old(Rows(c)).Keys && Rows(c)[v] == old(Rows(c))[v].(status := Active)
                && forall u :: u in Rows(c) && u != v ==>
                     Rows(c)[u] == if old(Rows(c))[u].status == Active then old(Rows(c))[u].(status := Inactive)
                                   else old(Rows(c))[u]
      ensures forall d :: d != c ==> Slice(d) == old(Slice(d))
    {
      ActivateSwitches(Slice(c), v);
      var tx := Demoted(Rows(c));
      if v !in tx {
        return false; // rolled back: no such snapshot
      }
      tx := tx[v := tx[v].(status := Active)];
      if call.TookEffect() {
        snapshots := snapshots[c := tx];
        assert tx == Activate(old(Slice(c)), v).rows;
      }
      assert OneActive(old(Slice(c)));
      StaysValid(c);
      ok := call.Done?;
    }

    method GetActiveSnapshot(c: string, ok: bool) returns (r: Read<(string, Row)>)
      requires Valid()
      ensures !ok ==> r == Broken
      ensures ok && ActiveVersion(Slice(c)).None? ==> r == Missing
      ensures ok && ActiveVersion(Slice(c)).Some? ==>
                var v := ActiveVersion(Slice(c)).value; r == Got((v, Slice(c).rows[v]))
    {
      if !ok {
        return Broken;
      }
      if v :| v in Rows(c) && Rows(c)[v].status == Active {
        assert v in ActiveSet(Slice(c));
        r := Got((v, Rows(c)[v]));
      } else {
        assert ActiveSet(Slice(c)) == {};
        r := Missing;
      }
    }

    /** The same answer without the content. */
    method GetActiveVersion(c: string, ok: bool) returns (r: Read<string>)
      requires Valid()
      ensures !ok ==> r == Broken
      ensures ok && ActiveVersion(Slice(c)).None? ==> r == Missing
      ensures ok && ActiveVersion(Slice(c)).Some? ==> r == Got(ActiveVersion(Slice(c)).value)
    {
      if !ok {
        return Broken;
      }
      if v :| v in Rows(c) && Rows(c)[v].status == Active {
        assert v in ActiveSet(Slice(c));
        r := Got(v);
      } else {
        assert ActiveSet(Slice(c)) == {};
        r := Missing;
      }
    }

    method GetSnapshot(c: string, v: string, ok: bool) returns (r: Read<Row>)
      ensures r == ReadRow(Slice(c), v, ok)
    {
      r := if !ok then Broken else if v in Rows(c) then Got(Rows(c)[v]) else Missing;
    }

    method FailSnapshot(c: string, v: string, call: Call) returns (ok: bool)
      requires Valid()
      modifies this`snapshots
      ensures Valid()
      ensures ok == (call.Done? && v in old(Slice(c)).rows)
      ensures Slice(c) == if call.TookEffect() then Fail(old(Slice(c)), v) else old(Slice(c))
      ensures Rows(c) == if call.Refused? || v !in old(Rows(c)) then old(Rows(c))
                         else old(Rows(c))[v := old(Rows(c))[v].(status := Failed)]
      ensures forall d :: d != c ==> Slice(d) == old(Slice(d))
    {
      ActiveSetKept(Slice(c), v, [], 0, "", Applied, 0);
      ok := call.Done? && v in Rows(c);
      if call.TookEffect() && v in Rows(c) {
        snapshots := snapshots[c := Rows(c)[v := Rows(c)[v].(status := Failed)]];
      }
      assert OneActive(old(Slice(c)));
      StaysValid(c);
    }

    method LogApply(id: string, c: string, v: string, st: ApplyStatus, call: Call) returns (ok: bool)
      requires Valid()
      modifies this`applyLog
      ensures Valid() && ok == call.Done?
      ensures Slice(c) == if call.TookEffect() then Log(old(Slice(c)), id, v, st) else old(Slice(c))
      ensures Entries(c) == if call.Refused? then old(Entries(c)) else old(Entries(c))[(id, v) := st]
      ensures forall d :: d != c ==> Slice(d) == old(Slice(d))
    {
      if call.TookEffect() {
        applyLog := applyLog[c := Entries(c)[(id, v) := st]];
      }
      assert OneActive(old(Slice(c))) && ActiveSet(Slice(c)) == ActiveSet(old(Slice(c)));
      StaysValid(c);
      ok := call.Done?;
    }

    method ResetApplyLog(c: string, v: string, call: Call) returns (ok: bool)
      requires Valid()
      modifies this`applyLog
      ensures Valid() && ok == call.Done?
      ensures Slice(c) == if call.TookEffect() then ResetLog(old(Slice(c)), v) else old(Slice(c))
      ensures forall k :: k in Entries(c) <==> k in old(Entries(c)) && (k.1 != v || call.Refused?)
      ensures forall k :: k in Entries(c) ==> Entries(c)[k] == old(Entries(c))[k]
      ensures forall d :: d != c ==> Slice(d) == old(Slice(d))
    {
      if call.TookEffect() {
        applyLog := applyLog[c := map k | k in Entries(c) && k.1 != v :: Entries(c)[k]];
      }
      assert OneActive(old(Slice(c))) && ActiveSet(Slice(c)) == ActiveSet(old(Slice(c)));
      StaysValid(c);
      ok := call.Done?;
    }

    method AppliedInstances(c: string, v: string, st: ApplyStatus) returns (ids: set<string>)
      ensures forall id :: id in ids <==> (id, v) in Slice(c).log && Slice(c).log[(id, v)] == st
    {
      ids := set k | k in Entries(c) && k.1 == v && Entries(c)[k] == st :: k.0;
      forall id ensures id in ids <==> (id, v) in Entries(c) && Entries(c)[(id, v)] == st {
        var k := (id, v);
        assert k in Entries(c) && Entries(c)[k] == st ==> k.0 in ids;
      }
    }

    function AgedRows(cutoff: int): set<(string, string)>
      reads this`snapshots
    {
      set c, v | c in snapshots && v in snapshots[c] && Aged(snapshots[c][v], cutoff) :: (c, v)
    }

    /** One delete per pruned (collection, version), as the transaction's loop does it. */
    static method DeleteLogRows(log: map<string, map<(string, string), ApplyStatus>>, gone: set<(string, string)>)
      returns (left: map<string, map<(string, string), ApplyStatus>>)
      ensures left.Keys == log.Keys
      ensures forall c :: c in log ==> left[c] == map k | k in log[c] && (c, k.1) !in gone :: log[c][k]
    {
      left := log;
      var todo := gone;
      while todo != {}
        invariant todo <= gone && left.Keys == log.Keys
        invariant forall c :: c in log ==> left[c] == map k | k in log[c] && (c, k.1) !in gone - todo :: log[c][k]
      {
        var cv :| cv in todo;
        if cv.0 in left {
          left := left[cv.0 := map k | k in left[cv.0] && k.1 != cv.1 :: left[cv.0][k]];
        }
        todo := todo - {cv};
      }
    }

    /** Deletes aged rows of every collection, and with each the log rows that refer to it. */
    method DeleteOldSnapshots(cutoff: int, call: Call) returns (deleted: nat)
      requires Valid()
      modifies this`snapshots, this`applyLog
      ensures Valid()
      ensures forall c :: Slice(c) == if call.TookEffect() then Prune(old(Slice(c)), cutoff) else old(Slice(c))
      ensures deleted == if call.Done? then |old(AgedRows(cutoff))| else 0
      ensures forall c, v :: (c, v) in old(AgedRows(cutoff)) <==>
                v in old(Rows(c)) && old(Rows(c))[v].status != Active && old(Rows(c))[v].createdAt < cutoff
    {
      deleted := 0;
      if call.Refused? {
        return;
      }
      var gone := AgedRows(cutoff);
      applyLog := DeleteLogRows(applyLog, gone);
      snapshots := map c | c in snapshots ::
          map v | v in snapshots[c] && !Aged(snapshots[c][v], cutoff) :: snapshots[c][v];
      forall c ensures Slice(c) == Prune(old(Slice(c)), cutoff) && OneActive(Slice(c)) {
        assert forall v :: (c, v) in gone <==> v in old(Rows(c)) && Aged(old(Rows(c))[v], cutoff);
        assert Rows(c) == Prune(old(Slice(c)), cutoff).rows;
        assert Entries(c) == Prune(old(Slice(c)), cutoff).log;
        assert OneActive(old(Slice(c)));
        ActiveSetKept(old(Slice(c)), "", [], 0, "", Applied, cutoff);
      }
      if call.Done? {
        deleted := |gone|;
      }
    }

    /** Takes the advisory lock `key` on a pooled connection, or gives the connection back. The
        server grants a free key, and also a key the same session already holds. A query that
        fails returns the connection; one that was granted and fails all the same has lost its
        session, and with it the lock. */
    method AcquireLock(key: int, call: Call) returns (held: Read<Session>)
      requires Valid()
      modifies this`idle, this`locks
      ensures Valid()
      ensures held.Broken? <==> old(idle) == {} || !call.Done?
      ensures held.Missing? <==> old(idle) != {} && call.Done? && key in old(locks)
      ensures held.Got? ==> held.value in old(idle) && idle == old(idle) - {held.value}
                            && key !in old(locks) && locks == old(locks)[key := held.value]
      ensures !held.Got? ==> locks == old(locks)
      ensures held.Missing? ==> idle == old(idle)
      ensures held.Broken? ==>
                idle == old(idle) || (call.Ambiguous? && exists s :: s in old(idle) && idle == old(idle) - {s})
    {
      if idle == {} {
        return Broken;
      }
      var s: Session :| s in idle;
      var granted := key !in locks || locks[key] == s;
      if !call.Done? {
        if call.Ambiguous? {
          idle := idle - {s};
        }
        return Broken;
      }
      if !granted {
        return Missing;
      }
      idle, locks := idle - {s}, locks[key := s];
      held := Got(s);
    }

    /** The release closure: unlocks on the session that took the lock and returns it. */
    method Release(key: int, s: Session)
      requires Valid() && key in locks && locks[key] == s
      requires forall k :: k in locks && locks[k] == s ==> k == key
      modifies this`idle, this`locks
      ensures Valid() && idle == old(idle) + {s} && locks == old(locks) - {key}
    {
      idle, locks := idle + {s}, locks - {key};
    }
  }
}
