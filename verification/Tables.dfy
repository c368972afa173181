/** The stored state of one collection: its snapshot rows and its apply log, and what each
    storage call does to them (storage/storage.go, storage/postgres/postgres.go). */
module Tables {
  import opened Wrappers

  newtype byte = x: int | 0 <= x < 256
  type Bytes = seq<byte>

  datatype Status = Pending | Active | Inactive | Failed

  datatype ApplyStatus =
    | Applied | Error | ValidationFailed | RolledBack
    | Prepared | PrepareFailed | Committed

  datatype Row = Row(content: Bytes, status: Status, createdAt: int)

  /** Rows by version text; log entries by (instance, version text). */
  datatype Table = Table(rows: map<string, Row>, log: map<(string, string), ApplyStatus>)

  const EMPTY := Table(map[], map[])

  /** How a write can end. `Ambiguous`: it took effect, yet the caller sees an error. */
  datatype Call = Done | Refused | Ambiguous {
    predicate TookEffect() { !Refused? }
  }

  ghost function ActiveSet(t: Table): set<string> {
    set v | v in t.rows && t.rows[v].status == Active
  }

  ghost predicate OneActive(t: Table) {
    forall v, w :: v in ActiveSet(t) && w in ActiveSet(t) ==> v == w
  }

  ghost function ActiveVersion(t: Table): (r: Option<string>)
    ensures r.None? <==> ActiveSet(t) == {}
    ensures r.Some? ==> r.value in ActiveSet(t)
  {
    if ActiveSet(t) == {} then None else var v :| v in ActiveSet(t); Some(v)
  }

  function Save(t: Table, v: string, content: Bytes, now: int): Table {
    if v in t.rows then t else t.(rows := t.rows[v := Row(content, Pending, now)])
  }

  function Demoted(rows: map<string, Row>): map<string, Row> {
    map v | v in rows :: if rows[v].status == Active then rows[v].(status := Inactive) else rows[v]
  }

  function Activate(t: Table, v: string): Table {
    if v !in t.rows then t
    else t.(rows := Demoted(t.rows)[v := t.rows[v].(status := Active)])
  }

  function Fail(t: Table, v: string): Table {
    if v !in t.rows then t else t.(rows := t.rows[v := t.rows[v].(status := Failed)])
  }

  function Log(t: Table, id: string, v: string, st: ApplyStatus): Table {
    t.(log := t.log[(id, v) := st])
  }

  function ResetLog(t: Table, v: string): Table {
    t.(log := map k | k in t.log && k.1 != v :: t.log[k])
  }

  predicate Aged(r: Row, cutoff: int) {
    r.status != Active && r.createdAt < cutoff
  }

  function Prune(t: Table, cutoff: int): Table {
    Table(map v | v in t.rows && !Aged(t.rows[v], cutoff) :: t.rows[v],
          map k | k in t.log && !(k.1 in t.rows && Aged(t.rows[k.1], cutoff)) :: t.log[k])
  }

  function ReadRow(t: Table, v: string, ok: bool): Read<Row> {
    if !ok then Broken else if v in t.rows then Got(t.rows[v]) else Missing
  }

  /** What an activation leaves behind: exactly its own version active, every row and every
      stored byte kept, and nothing at all when the row does not exist. */
  lemma ActivateSwitches(t: Table, v: string)
    ensures v in t.rows ==> ActiveSet(Activate(t, v)) == {v}
    ensures v !in t.rows ==> Activate(t, v) == t
    ensures Activate(t, v).rows.Keys == t.rows.Keys
    ensures forall w :: w in t.rows ==> Activate(t, v).rows[w].content == t.rows[w].content
    ensures forall w :: w in t.rows && w != v && v in t.rows ==>
              Activate(t, v).rows[w] == if t.rows[w].status == Active then t.rows[w].(status := Inactive) else t.rows[w]
  {
    if v in t.rows {
      var r := Activate(t, v).rows;
      assert r.Keys == t.rows.Keys;
      assert forall w :: w in r && r[w].status == Active ==> w == v;
      assert v in ActiveSet(Activate(t, v));
    }
  }

  /** Every other call keeps the active set, except failing the active version itself. */
  lemma ActiveSetKept(t: Table, v: string, content: Bytes, now: int, id: string, st: ApplyStatus, cutoff: int)
    ensures ActiveSet(Save(t, v, content, now)) == ActiveSet(t)
    ensures ActiveSet(Log(t, id, v, st)) == ActiveSet(t)
    ensures ActiveSet(ResetLog(t, v)) == ActiveSet(t)
    ensures ActiveSet(Prune(t, cutoff)) == ActiveSet(t)
    ensures ActiveSet(Fail(t, v)) == ActiveSet(t) - {v}
  {
  }

  /** What each write puts in a row and in the log: the first save leaves a pending row with its
      bytes and its time, failing marks that row alone, logging sets one instance's entry, a
      reset drops exactly one version's entries, and pruning drops exactly the rows that are not
      active and older than the cutoff, each with its log entries. */
  lemma WritesSay(t: Table, v: string, content: Bytes, now: int, id: string, st: ApplyStatus, cutoff: int, u: string)
    ensures Save(t, v, content, now).rows ==
              if v in t.rows then t.rows else t.rows[v := Row(content, Pending, now)]
    ensures v in t.rows ==> Fail(t, v).rows == t.rows[v := t.rows[v].(status := Failed)]
    ensures Log(t, id, v, st).log == t.log[(id, v) := st] && Log(t, id, v, st).rows == t.rows
    ensures forall k :: k in ResetLog(t, v).log <==> k in t.log && k.1 != v
    ensures forall k :: k in ResetLog(t, v).log ==> ResetLog(t, v).log[k] == t.log[k]
    ensures u in Prune(t, cutoff).rows <==>
              u in t.rows && (t.rows[u].status == Active || t.rows[u].createdAt >= cutoff)
    ensures u in Prune(t, cutoff).rows ==> Prune(t, cutoff).rows[u] == t.rows[u]
    ensures (id, u) in Prune(t, cutoff).log <==>
              (id, u) in t.log && (u in t.rows ==> t.rows[u].status == Active || t.rows[u].createdAt >= cutoff)
    ensures (id, u) in Prune(t, cutoff).log ==> Prune(t, cutoff).log[(id, u)] == t.log[(id, u)]
  {
  }
}
