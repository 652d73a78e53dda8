/** The manager's surroundings: the resource graph of the source cloud, the handler calls
    that may raise, and the state a command works on (the table and the calls made so far). */
module World {
  import opened Store

  /** handlers/base.py: a reported dependency or member, and a migrated one. */
  datatype Resource = Resource(key: Key, shouldCleanup: bool)
  datatype Migrated = Migrated(key: Key, dest: string)

  /** The destination id recorded for a source resource. */
  type Translation = Key -> string

  /** One entry per reported dependency, in order, carrying its destination id. */
  predicate Covers(given: seq<Migrated>, reported: seq<Resource>, tr: Translation) {
    && |given| == |reported|
    && forall j :: 0 <= j < |given| ==> given[j] == Migrated(reported[j].key, tr(reported[j].key))
  }

  /** A destination id as a handler returns it. */
  type Id = s: string | s != "" witness "id"

  /** The handler methods the manager calls, and the operator's declaration that a copy
      of a resource was made by other means. */
  datatype Call =
    | AskDeps(key: Key)
    | AskMembers(key: Key)
    | Create(key: Key, given: seq<Migrated>)
    | Connect(key: Key, parent: string, members: seq<Migrated>)
    | DeleteSource(key: Key)
    | Declare(key: Key)

  /** A finished call; `id` is the destination id a Create returned or a Declare named. */
  datatype Event = Event(call: Call, ok: bool, id: string)

  /** `types` are the registered handlers with their service types.  The graph is frozen and finite.  Whether a call
      raises, and the id it returns, may depend on every call made before. */
  datatype World = World(
    types: map<string, string>,
    deps: map<Key, seq<Resource>>,
    members: map<Key, seq<Resource>>,
    raises: (seq<Event>, Call) -> bool,
    newId: (seq<Event>, Key) -> Id)

  /** factory.get_migration_handler finds a handler. */
  predicate Supported(w: World, rtype: string) {
    rtype != "" && rtype in w.types
  }

  /** The checks perform_individual_migration makes before anything else. */
  predicate Usable(w: World, k: Key) {
    Supported(w, k.rtype) && k.id != ""
  }

  function DepsOf(w: World, k: Key): seq<Resource> {
    if k in w.deps then w.deps[k] else []
  }

  function MembersOf(w: World, k: Key): seq<Resource> {
    if k in w.members then w.members[k] else []
  }

  function KeySet(list: seq<Resource>): set<Key> {
    if list == [] then {} else {list[0].key} + KeySet(list[1..])
  }

  lemma {:induction false} InKeySet(list: seq<Resource>, k: Key)
    ensures k in KeySet(list) <==> exists i :: 0 <= i < |list| && list[i].key == k
    decreases |list|
  {
    if list != [] {
      InKeySet(list[1..], k);
      if i :| 0 <= i < |list[1..]| && list[1..][i].key == k { assert list[i + 1].key == k; }
      if i :| 0 < i < |list| && list[i].key == k { assert list[1..][i - 1].key == k; }
    }
  }

  datatype State = State(rows: Table, next: nat, trace: seq<Event>)

  datatype Error = InvalidInput | StillPending | HandlerError | RecursionLimit | NotFound

  datatype Result<+T> = Ok(value: T) | Err(error: Error)

  /** What a step returns or raises, and the state it leaves either way. */
  datatype Outcome<+T> = Outcome(st: State, res: Result<T>)

  // ---- Colours ----

  function Newest(s: State, k: Key): Option<nat> {
    NewestBelow(s.rows, s.next, k)
  }

  /** The newest row of `k` exists and has a migrated status. */
  predicate Done(s: State, k: Key) {
    Newest(s, k).Some? && IsMigrated(s.rows[Newest(s, k).value].status)
  }

  /** The newest row of `k` is IN_PROGRESS. */
  predicate Busy(s: State, k: Key) {
    Newest(s, k).Some? && s.rows[Newest(s, k).value].status == InProgress
  }

  predicate Settled(s: State, k: Key) {
    Done(s, k) || Busy(s, k)
  }

  /** The recorded destination id of a resource, if it has a row. */
  function DestOf(s: State, k: Key): string {
    if Newest(s, k).Some? then s.rows[Newest(s, k).value].dest else ""
  }

  /** The keys of the graph that a migration may still start on. */
  function White(w: World, s: State): set<Key> {
    set k | k in w.deps.Keys + w.members.Keys && !Settled(s, k)
  }

  lemma NewestIsRow(s: State, k: Key)
    ensures var n := Newest(s, k); n.Some? ==> n.value in s.rows && n.value < s.next && s.rows[n.value].key == k
  {
  }

  lemma ColoursSame(s: State, t: State)
    requires s.rows == t.rows && s.next == t.next
    ensures forall k :: Done(s, k) == Done(t, k) && Busy(s, k) == Busy(t, k) && DestOf(s, k) == DestOf(t, k)
  {
  }

  lemma NewestSame(s: State, t: State, k: Key)
    requires s.rows == t.rows && s.next == t.next
    ensures Newest(s, k) == Newest(t, k)
  {
  }

  // ---- Row updates ----

  function Insert(s: State, row: Row): State {
    s.(rows := s.rows[s.next := row], next := s.next + 1)
  }

  function SetStatus(s: State, id: nat, status: Status): State
    requires id in s.rows
  {
    s.(rows := s.rows[id := s.rows[id].(status := status)])
  }

  function SetDest(s: State, id: nat, dest: string): State
    requires id in s.rows
  {
    s.(rows := s.rows[id := s.rows[id].(dest := dest)])
  }

  function Log(s: State, call: Call, ok: bool, id: string): State {
    s.(trace := s.trace + [Event(call, ok, id)])
  }

  /** A new visible row becomes the newest row of its key and of no other. */
  lemma NewestAfterInsert(s: State, row: Row, k: Key)
    ensures Newest(Insert(s, row), k) == if k == row.key && !row.archived then Some(s.next) else Newest(s, k)
  {
    NewestDependsOnShown(s.rows, Insert(s, row).rows, s.next, k);
  }

  /** Rows that keep their key and archived flag keep every key's newest row. */
  lemma NewestAfterUpdate(s: State, t: State, k: Key)
    requires s.next == t.next && s.rows.Keys == t.rows.Keys
    requires forall id :: id in s.rows ==>
      t.rows[id].key == s.rows[id].key && t.rows[id].archived == s.rows[id].archived
    ensures Newest(t, k) == Newest(s, k)
  {
    NewestDependsOnShown(s.rows, t.rows, s.next, k);
  }
}
