/** The migration table (db/models.py, db/api.py, constants.py): what a row holds,
    which rows are visible, and which row is the newest one of a resource. */
module Store {

  datatype Option<+T> = None | Some(value: T)

  /** A resource of the source cloud. */
  datatype Key = Key(rtype: string, id: string)

  datatype Status =
    | InProgress
    | Failed
    | Completed
    | SourceCleanupFailed
    | PendingMembers
    | PendingCleanup

  /** LIST_STATUS_MIGRATED: a destination copy exists. */
  predicate IsMigrated(status: Status) {
    status in {Completed, SourceCleanupFailed, PendingMembers, PendingCleanup}
  }

  /** A row of the migrations table.  A missing destination id is the empty string. */
  datatype Row = Row(
    key: Key,
    status: Status,
    dest: string,
    archived: bool,
    sourceRemoved: bool,
    external: bool)

  /** Rows by primary key.  Ids are handed out in creation order, so "newest" is
      "highest id"; `next` is the id of the next row. */
  type Table = map<nat, Row>

  predicate Shows(rows: Table, id: nat, k: Key) {
    id in rows && rows[id].key == k && !rows[id].archived
  }

  /** First element of get_migrations(source_id, resource_type): the newest row of
      `k` that is not archived, among the ids below `n`. */
  function NewestBelow(rows: Table, n: nat, k: Key): (r: Option<nat>)
    ensures r.Some? ==> r.value < n && Shows(rows, r.value, k)
    ensures forall id: nat :: (if r.Some? then r.value < id else true) && id < n ==> !Shows(rows, id, k)
  {
    if n == 0 then None
    else if Shows(rows, n - 1, k) then Some(n - 1)
    else NewestBelow(rows, n - 1, k)
  }

  /** Two tables that show the same rows of `k` have the same newest row of `k`. */
  lemma NewestDependsOnShown(a: Table, b: Table, n: nat, k: Key)
    requires forall id: nat :: id < n ==> (Shows(a, id, k) <==> Shows(b, id, k))
    ensures NewestBelow(a, n, k) == NewestBelow(b, n, k)
  {
    var x, y := NewestBelow(a, n, k), NewestBelow(b, n, k);
    if x.Some? { assert Shows(b, x.value, k); }
    if y.Some? { assert Shows(a, y.value, k); }
  }

  // ---- Queries (db/api.py) ----

  /** The column filters of the commands; an absent one does not restrict.  The service column holds
      the service of the handler of the row's type, so a filter on it selects `types`. */
  datatype Filter = Filter(
    id: Option<nat>,
    types: Option<set<string>>,
    rtype: Option<string>,
    sourceId: Option<string>,
    dest: Option<string>,
    status: Option<Status>,
    sourceRemoved: Option<bool>,
    external: Option<bool>,
    archived: Option<bool>)

  const NoFilter := Filter(None, None, None, None, None, None, None, None, None)

  predicate Fits<T(==)>(wanted: Option<T>, actual: T) {
    wanted == None || wanted == Some(actual)
  }

  /** filter_by(**filters) on one row. */
  predicate Matches(id: nat, row: Row, f: Filter) {
    && Fits(f.id, id)
    && (f.types == None || row.key.rtype in f.types.value)
    && Fits(f.rtype, row.key.rtype)
    && Fits(f.sourceId, row.key.id)
    && Fits(f.dest, row.dest)
    && Fits(f.status, row.status)
    && Fits(f.sourceRemoved, row.sourceRemoved)
    && Fits(f.external, row.external)
    && Fits(f.archived, row.archived)
  }

  /** The filter get_migrations runs: without include_archived it overwrites the archived column. */
  function Effective(f: Filter, includeArchived: bool): Filter {
    if includeArchived then f else f.(archived := Some(false))
  }

  /** Rows below `n` that match, newest first. */
  function SelectBelow(rows: Table, n: nat, f: Filter): (r: seq<nat>)
    ensures forall id: nat :: id in r <==> id < n && id in rows && Matches(id, rows[id], f)
    ensures forall i, j :: 0 <= i < j < |r| ==> r[j] < r[i]
  {
    if n == 0 then []
    else
      var older := SelectBelow(rows, n - 1, f);
      assert forall i :: 0 <= i < |older| ==> older[i] in older;
      if n - 1 in rows && Matches(n - 1, rows[n - 1], f) then [n - 1] + older else older
  }

  function GetMigrations(rows: Table, n: nat, f: Filter, includeArchived: bool): seq<nat> {
    SelectBelow(rows, n, Effective(f, includeArchived))
  }

  /** A query column by column: archived rows are among its results only on request. */
  lemma QueryIff(rows: Table, n: nat, f: Filter, includeArchived: bool, id: nat)
    ensures id in GetMigrations(rows, n, f, includeArchived) <==>
      && id < n && id in rows
      && (f.id.Some? ==> id == f.id.value)
      && (f.types.Some? ==> rows[id].key.rtype in f.types.value)
      && (f.rtype.Some? ==> rows[id].key.rtype == f.rtype.value)
      && (f.sourceId.Some? ==> rows[id].key.id == f.sourceId.value)
      && (f.dest.Some? ==> rows[id].dest == f.dest.value)
      && (f.status.Some? ==> rows[id].status == f.status.value)
      && (f.sourceRemoved.Some? ==> rows[id].sourceRemoved == f.sourceRemoved.value)
      && (f.external.Some? ==> rows[id].external == f.external.value)
      && if !includeArchived then !rows[id].archived
         else f.archived.Some? ==> rows[id].archived == f.archived.value
  {
  }

  function ByKey(k: Key): Filter {
    NoFilter.(rtype := Some(k.rtype), sourceId := Some(k.id))
  }

  /** `existing[0]` of the manager's query is the newest row the model speaks of. */
  lemma {:induction false} QueryFindsNewest(rows: Table, n: nat, k: Key)
    ensures var q := GetMigrations(rows, n, ByKey(k), false);
      NewestBelow(rows, n, k) == if q == [] then None else Some(q[0])
  {
    var q := GetMigrations(rows, n, ByKey(k), false);
    var newest := NewestBelow(rows, n, k);
    if q != [] {
      assert q[0] in q;
      assert Shows(rows, q[0], k);
    }
    if newest.Some? {
      assert newest.value in q;
      var i :| 0 <= i < |q| && q[i] == newest.value;
    }
  }
}
