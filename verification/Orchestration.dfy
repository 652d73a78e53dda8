/** What manager.py computes, as functions of the state a command starts from.  The methods of
    module Manager are proved equal to these; the other modules prove what they mean. */
module Orchestration {
  import opened Store
  import opened World

  /** --include-dependencies and --include-members. */
  datatype Flags = Flags(deps: bool, members: bool)

  /** The two lists of _get_associated_resources. */
  datatype Associated = Associated(migrated: seq<Migrated>, pending: seq<Resource>)

  /** A resource whose dependencies are all migrated: the list its handler is given, and the
      rows of direct dependencies whose source may be cleaned up. */
  datatype Ready = Ready(given: seq<Migrated>, cleanup: seq<nat>)

  // ---- Frames: what a step leaves alone ----

  predicate SameCopy(a: Row, b: Row) {
    a.key == b.key && a.dest == b.dest && a.archived == b.archived && a.external == b.external
  }

  /** From `s` to `t` only the rows `own` and new rows were written, the migrated rows of `own`
      stay migrated copies, and no settled key other than `k` got a newer row. */
  ghost predicate Frame(s: State, t: State, own: set<nat>, k: Option<Key>) {
    && s.next <= t.next
    && s.trace <= t.trace
    && (forall id :: id in s.rows && id < s.next ==>
          && id in t.rows
          && (id !in own ==> t.rows[id] == s.rows[id])
          && (id in own ==>
                && SameCopy(s.rows[id], t.rows[id])
                && IsMigrated(s.rows[id].status) && IsMigrated(t.rows[id].status)))
    && (forall id :: id in t.rows && id < s.next ==> id in s.rows)
    && (forall k' :: Settled(s, k') && Some(k') != k ==> Newest(t, k') == Newest(s, k'))
  }

  lemma FrameTrans(s: State, t: State, u: State, own: set<nat>, own': set<nat>, k: Option<Key>, k': Option<Key>)
    requires Frame(s, t, own, k) && Frame(t, u, own', k')
    requires forall id :: id in own' && id in s.rows && id < s.next ==> id in own
    requires k' == None || k' == k || (k'.Some? && !Settled(t, k'.value))
    ensures Frame(s, u, own, k)
  {
    forall j | Settled(s, j) && Some(j) != k
      ensures Newest(u, j) == Newest(s, j)
    {
      assert Newest(t, j) == Newest(s, j);
      assert Settled(t, j);
    }
  }

  predicate SameTable(s: State, t: State) {
    s.rows == t.rows && s.next == t.next
  }

  /** Steps that only make handler calls. */
  lemma FrameCalls(w: World, s: State, t: State)
    requires SameTable(s, t) && s.trace <= t.trace
    ensures Frame(s, t, {}, None) && White(w, t) == White(w, s)
  {
  }

  /** A settled key stays settled under a frame that does not exempt it, and so no key is added to White. */
  lemma FrameShrinksWhite(w: World, s: State, t: State, own: set<nat>, k: Option<Key>)
    requires Frame(s, t, own, k)
    requires k.Some? ==> !Settled(s, k.value) || Settled(t, k.value)
    ensures forall j :: Settled(s, j) ==> Settled(t, j)
    ensures White(w, t) <= White(w, s)
    ensures |White(w, t)| <= |White(w, s)|
  {
    forall j | Settled(s, j) ensures Settled(t, j) {
      if Some(j) != k { assert Newest(t, j) == Newest(s, j); }
    }
    SubsetSize(White(w, t), White(w, s));
  }

  lemma KeyLeavesWhite(w: World, s: State, t: State, k: Key)
    requires White(w, t) <= White(w, s) && Settled(t, k)
    ensures k in w.deps.Keys + w.members.Keys && !Settled(s, k) ==> |White(w, t)| < |White(w, s)|
  {
    if k in w.deps.Keys + w.members.Keys && !Settled(s, k) {
      assert k in White(w, s) && k !in White(w, t);
      SubsetSize(White(w, t), White(w, s));
    }
  }

  lemma {:induction false} SubsetSize<T>(a: set<T>, b: set<T>)
    requires a <= b
    ensures |a| <= |b|
    ensures a != b ==> |a| < |b|
  {
    assert b == a + (b - a);
  }

  // ---- Handler calls ----

  /** handler.get_associated_resources followed by the split of _get_associated_resources. */
  function AskAssociated(w: World, s: State, k: Key): (r: Outcome<Associated>)
    ensures r.st.rows == s.rows && r.st.next == s.next && s.trace <= r.st.trace
    ensures DepsOf(w, k) == [] && r.res.Ok? ==> r.res.value.pending == []
  {
    var call := AskDeps(k);
    if w.raises(s.trace, call) then Outcome(Log(s, call, false, ""), Err(HandlerError))
    else
      var t := Log(s, call, true, "");
      Outcome(t, Split(t, DepsOf(w, k)))
  }

  /** Dependencies whose newest row is migrated are passed on, in order; the others are pending. */
  function Split(s: State, list: seq<Resource>): Result<Associated>
  {
    if list == [] then Ok(Associated([], []))
    else
      var r := list[0];
      if !Done(s, r.key) then
        var rest := Split(s, list[1..]);
        if rest.Err? then rest else Ok(Associated(rest.value.migrated, [r] + rest.value.pending))
      else
        var m := AsMigrated(s, Newest(s, r.key).value);
        if m.Err? then Err(m.error) else
        var rest := Split(s, list[1..]);
        if rest.Err? then rest else Ok(Associated([m.value] + rest.value.migrated, rest.value.pending))
  }

  /** _get_migrated_resource. */
  function AsMigrated(s: State, id: nat): Result<Migrated>
    requires id in s.rows
  {
    var row := s.rows[id];
    if row.key.rtype == "" || row.key.id == "" || row.dest == "" then Err(InvalidInput)
    else Ok(Migrated(row.key, row.dest))
  }

  /** handler.perform_individual_migration. */
  function CallCreate(w: World, s: State, k: Key, given: seq<Migrated>): (r: Outcome<Id>)
    ensures r.st.rows == s.rows && r.st.next == s.next && s.trace <= r.st.trace
  {
    var call := Create(k, given);
    if w.raises(s.trace, call) then Outcome(Log(s, call, false, ""), Err(HandlerError))
    else
      var id := w.newId(s.trace, k);
      Outcome(Log(s, call, true, id), Ok(id))
  }

  /** handler.connect_member_resources_to_parent; a raise is logged and swallowed. */
  function CallConnect(w: World, s: State, k: Key, parent: string, members: seq<Migrated>): (t: State)
    ensures t.rows == s.rows && t.next == s.next && s.trace <= t.trace
  {
    var call := Connect(k, parent, members);
    Log(s, call, !w.raises(s.trace, call), "")
  }

  // ---- Source cleanup ----

  /** cleanup_migration_source. */
  function Cleanup(w: World, s: State, id: nat): (r: Outcome<()>)
    requires id in s.rows
  {
    var k := s.rows[id].key;
    var call := DeleteSource(k);
    if k.id == "" then Outcome(s, Err(InvalidInput))
    else if !Supported(w, k.rtype) then Outcome(SetStatus(s, id, SourceCleanupFailed), Err(InvalidInput))
    else if w.raises(s.trace, call) then
      Outcome(SetStatus(Log(s, call, false, ""), id, SourceCleanupFailed), Err(HandlerError))
    else
      var t := Log(s, call, true, "");
      Outcome(t.(rows := t.rows[id := t.rows[id].(sourceRemoved := true)]), Ok(()))
  }

  function IdSet(ids: seq<nat>): set<nat> {
    set id | id in ids
  }

  predicate MigratedRows(s: State, ids: seq<nat>) {
    forall id :: id in ids ==> id in s.rows && id < s.next && IsMigrated(s.rows[id].status)
  }

  /** Cleans up rows in order; the first failure is raised. */
  function CleanupAll(w: World, s: State, ids: seq<nat>): (r: Outcome<()>)
    requires MigratedRows(s, ids)
    ensures Frame(s, r.st, IdSet(ids), None)
    ensures r.st.next == s.next && r.st.rows.Keys == s.rows.Keys
    ensures forall k :: Newest(r.st, k) == Newest(s, k)
    decreases |ids|
  {
    if ids == [] then Outcome(s, Ok(()))
    else
      var c := Cleanup(w, s, ids[0]);
      CleanupFrame(w, s, ids[0], IdSet(ids));
      if c.res.Err? then c
      else
        assert MigratedRows(c.st, ids[1..]);
        var r := CleanupAll(w, c.st, ids[1..]);
        FrameTrans(s, c.st, r.st, IdSet(ids), IdSet(ids[1..]), None, None);
        r
  }

  lemma CleanupFrame(w: World, s: State, id: nat, own: set<nat>)
    requires id in own && forall i :: i in own ==> i in s.rows && i < s.next && IsMigrated(s.rows[i].status)
    ensures Frame(s, Cleanup(w, s, id).st, own, None)
    ensures Cleanup(w, s, id).st.next == s.next && Cleanup(w, s, id).st.rows.Keys == s.rows.Keys
    ensures forall k :: Newest(Cleanup(w, s, id).st, k) == Newest(s, k)
    ensures forall i :: i in own ==> IsMigrated(Cleanup(w, s, id).st.rows[i].status)
  {
    hide Newest, Frame;
    var k := s.rows[id].key;
    var t := Log(s, DeleteSource(k), !w.raises(s.trace, DeleteSource(k)), "");
    OwnWrite(s, s, id, s.rows[id], own);
    OwnWrite(s, s, id, s.rows[id].(status := SourceCleanupFailed), own);
    OwnWrite(s, t, id, s.rows[id].(status := SourceCleanupFailed), own);
    OwnWrite(s, t, id, s.rows[id].(sourceRemoved := true), own);
    assert s.rows[id := s.rows[id]] == s.rows;
  }

  /** A write that keeps one of the own rows a migrated copy. */
  lemma OwnWrite(s: State, t: State, id: nat, row: Row, own: set<nat>)
    requires id in own && SameTable(s, t) && s.trace <= t.trace
    requires forall i :: i in own ==> i in s.rows && i < s.next && IsMigrated(s.rows[i].status)
    requires SameCopy(s.rows[id], row) && IsMigrated(row.status)
    ensures var u := t.(rows := t.rows[id := row]);
      && Frame(s, u, own, None)
      && (forall k :: Newest(u, k) == Newest(s, k))
      && forall i :: i in own ==> IsMigrated(u.rows[i].status)
  {
    var u := t.(rows := t.rows[id := row]);
    forall k ensures Newest(u, k) == Newest(s, k) { NewestAfterUpdate(s, u, k); }
  }

  // ---- Migrating a resource ----

  function NewRow(k: Key): Row {
    Row(k, InProgress, "", false, false, false)
  }

  /** The row perform_individual_migration works on when `k` is migrated already. */
  function OwnRow(s: State, k: Key): set<nat> {
    if Done(s, k) then {Newest(s, k).value} else {}
  }

  function Exempt(s: State, k: Key): Option<Key> {
    if Done(s, k) then None else Some(k)
  }

  /** `id` is the newest row of `k`. */
  predicate IsNewest(s: State, k: Key, id: nat) {
    Newest(s, k) == Some(id)
  }

  /** A nested call is made on an unsettled key, so it leaves every settled key and old row alone. */
  lemma NestedFrame(w: World, s: State, t: State, k: Key)
    requires Frame(s, t, OwnRow(s, k), Exempt(s, k)) && !Settled(s, k)
    ensures Frame(s, t, {}, None) && s.next <= t.next && |White(w, t)| <= |White(w, s)|
  {
    FrameShrinksWhite(w, s, t, {}, Some(k));
  }

  /** The dependency loop of _migrate_parent_resource over the pending list. */
  function DepLoop(w: World, s: State, list: seq<Resource>, f: Flags): (r: Outcome<seq<nat>>)
    ensures Frame(s, r.st, {}, None)
    ensures r.res.Ok? ==> MigratedRows(r.st, r.res.value)
    ensures r.res.Ok? ==> forall id :: id in r.res.value ==> s.next <= id
    decreases |White(w, s)|, if list == [] then 0 else 1, |list|
  {
    hide Newest, Frame;
    if list == [] then
      FrameCalls(w, s, s);
      Outcome(s, Ok([]))
    else if Settled(s, list[0].key) then DepLoop(w, s, list[1..], f)
    else
      var one := Perform(w, s, list[0].key, false, f);
      NestedFrame(w, s, one.st, list[0].key);
      if one.res.Err? then Outcome(one.st, Err(one.res.error))
      else
        var rest := DepLoop(w, one.st, list[1..], f);
        FrameTrans(s, one.st, rest.st, {}, {}, None, None);
        if rest.res.Err? then rest
        else
          AddCleanup(one.st, rest.st, list[0].key, one.res.value, rest.res.value);
          Outcome(rest.st, Ok((if list[0].shouldCleanup then [one.res.value] else []) + rest.res.value))
  }

  lemma AddCleanup(s: State, t: State, k: Key, id: nat, ids: seq<nat>)
    requires Done(s, k) && IsNewest(s, k, id) && Frame(s, t, {}, None) && MigratedRows(t, ids)
    ensures MigratedRows(t, [id] + ids) && MigratedRows(t, [] + ids)
  {
  }

  /** From the new IN_PROGRESS row to the point where the handler can be called. */
  function Resolve(w: World, s: State, k: Key, f: Flags): (r: Outcome<Ready>)
    requires !Done(s, k)
    ensures Frame(Insert(s, NewRow(k)), r.st, {}, None)
    ensures r.res.Ok? ==> MigratedRows(r.st, r.res.value.cleanup)
    ensures r.res.Ok? ==> forall id :: id in r.res.value.cleanup ==> s.next < id
    decreases |White(w, s)|, if Settled(s, k) then 2 else 0, 1
  {
    var s1 := Insert(s, NewRow(k));
    InsertShrinksWhite(w, s, k);
    var a := AskAssociated(w, s1, k);
    FrameCalls(w, s1, a.st);
    if a.res.Err? then Outcome(a.st, Err(a.res.error))
    else if a.res.value.pending == [] then Outcome(a.st, Ok(Ready(a.res.value.migrated, [])))
    else if !f.deps then Outcome(a.st, Err(InvalidInput))
    else
      var l := DepLoop(w, a.st, a.res.value.pending, f);
      FrameTrans(s1, a.st, l.st, {}, {}, None, None);
      if l.res.Err? then Outcome(l.st, Err(l.res.error))
      else
        var b := AskAssociated(w, l.st, k);
        FrameCalls(w, l.st, b.st);
        FrameTrans(s1, l.st, b.st, {}, {}, None, None);
        if b.res.Err? then Outcome(b.st, Err(b.res.error))
        else if b.res.value.pending != [] then Outcome(b.st, Err(StillPending))
        else Outcome(b.st, Ok(Ready(b.res.value.migrated, l.res.value)))
  }

  lemma InsertShrinksWhite(w: World, s: State, k: Key)
    requires !Done(s, k)
    ensures var s1 := Insert(s, NewRow(k));
      && Busy(s1, k) && IsNewest(s1, k, s.next)
      && Frame(s, s1, {}, Some(k))
      && |White(w, s1)| <= |White(w, s)|
      && (k in w.deps.Keys + w.members.Keys && !Settled(s, k) ==> |White(w, s1)| < |White(w, s)|)
  {
    var s1 := Insert(s, NewRow(k));
    forall j ensures Newest(s1, j) == if j == k then Some(s.next) else Newest(s, j) {
      NewestAfterInsert(s, NewRow(k), j);
    }
    assert White(w, s1) <= White(w, s);
    SubsetSize(White(w, s1), White(w, s));
    if k in w.deps.Keys + w.members.Keys && !Settled(s, k) {
      assert k in White(w, s) && k !in White(w, s1);
    }
  }

  /** The part of _migrate_parent_resource that creates: its row `s.next` ends FAILED, or still
      IN_PROGRESS with the destination id saved. */
  function TryMigrate(w: World, s: State, k: Key, f: Flags): (r: Outcome<seq<nat>>)
    requires !Done(s, k)
    ensures Frame(s, r.st, {}, Some(k))
    ensures s.next < r.st.next && s.next in r.st.rows && IsNewest(r.st, k, s.next)
    ensures r.st.rows[s.next] ==
      if r.res.Err? then NewRow(k).(status := Failed) else NewRow(k).(dest := r.st.rows[s.next].dest)
    ensures r.res.Ok? ==> MigratedRows(r.st, r.res.value)
    ensures r.res.Ok? ==> forall id :: id in r.res.value ==> s.next < id
    decreases |White(w, s)|, if Settled(s, k) then 2 else 0, 2
  {
    hide Newest, Resolve, CallCreate;
    var id := s.next;
    var ready := Resolve(w, s, k, f);
    InsertShrinksWhite(w, s, k);
    assert IsNewest(ready.st, k, id) && ready.st.rows[id] == NewRow(k);
    if ready.res.Err? then
      WriteNewRow(s, k, ready.st, NewRow(k).(status := Failed));
      Outcome(SetStatus(ready.st, id, Failed), Err(ready.res.error))
    else
      var c := CallCreate(w, ready.st, k, ready.res.value.given);
      FrameTrans(Insert(s, NewRow(k)), ready.st, c.st, {}, {}, None, None);
      if c.res.Err? then
        WriteNewRow(s, k, c.st, NewRow(k).(status := Failed));
        Outcome(SetStatus(c.st, id, Failed), Err(c.res.error))
      else
        WriteNewRow(s, k, c.st, NewRow(k).(dest := c.res.value));
        MigratedElsewhere(c.st, s.next, NewRow(k).(dest := c.res.value), ready.res.value.cleanup);
        Outcome(SetDest(c.st, id, c.res.value), Ok(ready.res.value.cleanup))
  }

  lemma MigratedElsewhere(s: State, id: nat, row: Row, ids: seq<nat>)
    requires MigratedRows(s, ids) && forall i :: i in ids ==> id < i
    ensures MigratedRows(s.(rows := s.rows[id := row]), ids)
  {
  }

  /** After the dependencies only the new row is written. */
  lemma TryMigrateTable(w: World, s: State, k: Key, f: Flags)
    requires !Done(s, k)
    ensures var p, r := TryMigrate(w, s, k, f), Resolve(w, s, k, f);
      && s.next in p.st.rows
      && SameTable(p.st, r.st.(rows := r.st.rows[s.next := p.st.rows[s.next]]))
      && (p.res.Ok? ==> r.res.Ok? && p.res.value == r.res.value.cleanup && p.st.rows[s.next].dest != "")
      && (p.res.Err? ==> r.res.Err? || p.st.trace == r.st.trace + [Event(Create(k, r.res.value.given), false, "")])
  {
    hide Frame, Newest;
  }

  /** Writing the new row of `k` touches nothing that was there before. */
  lemma WriteNewRow(s: State, k: Key, t: State, row: Row)
    requires !Done(s, k) && Frame(Insert(s, NewRow(k)), t, {}, None)
    requires row.key == k && !row.archived
    ensures s.next in t.rows && t.rows[s.next] == NewRow(k) && IsNewest(t, k, s.next)
    ensures var u := t.(rows := t.rows[s.next := row]);
      && Frame(s, u, {}, Some(k))
      && forall j :: Newest(u, j) == Newest(t, j)
  {
    var s1 := Insert(s, NewRow(k));
    var u := t.(rows := t.rows[s.next := row]);
    forall j ensures Newest(s1, j) == if j == k then Some(s.next) else Newest(s, j) {
      NewestAfterInsert(s, NewRow(k), j);
    }
    assert Busy(s1, k);
    forall j ensures Newest(u, j) == Newest(t, j) {
      NewestAfterUpdate(t, u, j);
    }
    forall j | Settled(s, j) && j != k ensures Newest(u, j) == Newest(s, j) {
      assert Settled(s1, j);
    }
  }

  /** The loop of _migrate_member_resources: failed members are skipped. */
  function MemberLoop(w: World, s: State, list: seq<Resource>, cleanup: bool, f: Flags): (r: (State, seq<Migrated>))
    ensures Frame(s, r.0, {}, None)
    decreases |White(w, s)|, if list == [] then 0 else 1, |list|
  {
    if list == [] then (s, [])
    else if Settled(s, list[0].key) then MemberLoop(w, s, list[1..], cleanup, f)
    else
      var one := Perform(w, s, list[0].key, cleanup, f);
      NestedFrame(w, s, one.st, list[0].key);
      var rest := MemberLoop(w, one.st, list[1..], cleanup, f);
      FrameTrans(s, one.st, rest.0, {}, {}, None, None);
      if one.res.Err? then rest
      else
        var m := AsMigrated(one.st, one.res.value);
        if m.Err? then rest else (rest.0, [m.value] + rest.1)
  }

  /** _migrate_member_resources, then the connect step of perform_individual_migration. */
  function MemberPhase(w: World, s: State, k: Key, parent: string, cleanup: bool, f: Flags): (r: Outcome<()>)
    ensures Frame(s, r.st, {}, None)
    decreases |White(w, s)|, if MembersOf(w, k) == [] then 0 else 1, |MembersOf(w, k)| + 1
  {
    var call := AskMembers(k);
    if w.raises(s.trace, call) then Outcome(Log(s, call, false, ""), Err(HandlerError))
    else
      var s1 := Log(s, call, true, "");
      FrameShrinksWhite(w, s, s1, {}, None);
      var m := MemberLoop(w, s1, MembersOf(w, k), cleanup, f);
      FrameTrans(s, s1, m.0, {}, {}, None, None);
      var t := CallConnect(w, m.0, k, parent, m.1);
      FrameTrans(s, m.0, t, {}, {}, None, None);
      Outcome(t, Ok(()))
  }

  /** A status write that keeps a migrated row migrated. */
  lemma WriteStatus(s: State, id: nat, status: Status)
    requires id in s.rows && IsMigrated(status)
    ensures forall j :: Newest(SetStatus(s, id, status), j) == Newest(s, j)
    ensures IsMigrated(s.rows[id].status) ==> Frame(s, SetStatus(s, id, status), {id}, None)
  {
    forall j ensures Newest(SetStatus(s, id, status), j) == Newest(s, j) {
      NewestAfterUpdate(s, SetStatus(s, id, status), j);
    }
  }

  /** perform_individual_migration without --dry-run. */
  function Perform(w: World, s: State, k: Key, cleanup: bool, f: Flags): (r: Outcome<nat>)
    ensures Frame(s, r.st, OwnRow(s, k), Exempt(s, k))
    ensures r.res.Ok? ==> Done(r.st, k) && IsNewest(r.st, k, r.res.value) && r.res.value < r.st.next
    ensures r.res.Ok? && !Done(s, k) ==> r.res.value == s.next
    decreases |White(w, s)|, if Settled(s, k) then 2 else 0, 3
  {
    hide Frame, Newest, MigratedRows;
    if !Usable(w, k) then
      FrameCalls(w, s, s);
      FrameWider(s, s, OwnRow(s, k), Exempt(s, k));
      Outcome(s, Err(InvalidInput))
    else if Done(s, k) then
      var id := Newest(s, k).value;
      var t := SetStatus(s, id, PendingMembers);
      MarkAgain(s, k);
      EnterFinish(w, s, t, k);
      var r := Finish(w, t, k, id, [], cleanup, f);
      LeaveFinish(s, t, r.st, k, id, []);
      r
    else
      var p := TryMigrate(w, s, k, f);
      if p.res.Err? then Outcome(p.st, Err(p.res.error))
      else
        var t := SetStatus(p.st, s.next, PendingMembers);
        MarkMigrated(s, p.st, k, p.res.value);
        EnterFinish(w, s, t, k);
        var r := Finish(w, t, k, s.next, p.res.value, cleanup, f);
        LeaveFinish(s, t, r.st, k, s.next, p.res.value);
        r
  }

  lemma FrameWider(s: State, t: State, own: set<nat>, k: Option<Key>)
    requires Frame(s, t, {}, None)
    requires forall id :: id in own && id in s.rows && id < s.next ==> IsMigrated(s.rows[id].status)
    ensures Frame(s, t, own, k)
  {
  }

  /** The new row becomes PENDING_MEMBERS. */
  lemma MarkMigrated(s: State, t: State, k: Key, deps: seq<nat>)
    requires !Done(s, k) && Frame(s, t, {}, Some(k)) && s.next in t.rows && IsNewest(t, k, s.next)
    requires MigratedRows(t, deps)
    ensures var u := SetStatus(t, s.next, PendingMembers);
      Frame(s, u, {}, Some(k)) && IsNewest(u, k, s.next) && Done(u, k) && MigratedRows(u, [s.next] + deps)
  {
    WriteStatus(t, s.next, PendingMembers);
    MigratedCons(SetStatus(t, s.next, PendingMembers), s.next, deps);
  }

  /** A migrated resource is marked again. */
  lemma MarkAgain(s: State, k: Key)
    requires Done(s, k)
    ensures var id := Newest(s, k).value;
      var t := SetStatus(s, id, PendingMembers);
      Frame(s, t, OwnRow(s, k), None) && IsNewest(t, k, id) && Done(t, k) && MigratedRows(t, [id] + [])
  {
    WriteStatus(s, Newest(s, k).value, PendingMembers);
  }

  lemma MigratedCons(s: State, id: nat, ids: seq<nat>)
    requires id in s.rows && id < s.next && IsMigrated(s.rows[id].status) && MigratedRows(s, ids)
    ensures MigratedRows(s, [id] + ids)
  {
    forall i | i in [id] + ids ensures i in s.rows && i < s.next && IsMigrated(s.rows[i].status) {
      if i !in ids { assert i == id; }
    }
  }

  lemma LeaveFinish(s: State, t: State, u: State, k: Key, id: nat, deps: seq<nat>)
    requires Frame(s, t, OwnRow(s, k), Exempt(s, k)) && Frame(t, u, IdSet([id] + deps), None)
    requires IsNewest(t, k, id) && Done(t, k)
    requires if Done(s, k) then id == Newest(s, k).value && deps == [] else forall d :: d in [id] + deps ==> s.next <= d
    ensures Frame(s, u, OwnRow(s, k), Exempt(s, k))
    ensures Done(u, k) && IsNewest(u, k, id) && id < u.next
  {
    FrameTrans(s, t, u, OwnRow(s, k), IdSet([id] + deps), Exempt(s, k), None);
  }

  /** The member phase starts with no more keys to migrate than the call did, and with fewer
      when the call made `k` leave White. */
  lemma EnterFinish(w: World, s: State, t: State, k: Key)
    requires Frame(s, t, OwnRow(s, k), Exempt(s, k)) && Done(t, k)
    ensures |White(w, t)| <= |White(w, s)|
    ensures MembersOf(w, k) != [] && !Settled(s, k) ==> |White(w, t)| < |White(w, s)|
  {
    FrameShrinksWhite(w, s, t, OwnRow(s, k), Exempt(s, k));
    KeyLeavesWhite(w, s, t, k);
  }

  /** perform_individual_migration from PENDING_MEMBERS on. */
  function Finish(w: World, s: State, k: Key, id: nat, deps: seq<nat>, cleanup: bool, f: Flags): (r: Outcome<nat>)
    requires IsNewest(s, k, id) && MigratedRows(s, [id] + deps)
    ensures Frame(s, r.st, IdSet([id] + deps), None)
    ensures r.res.Ok? ==> r.res.value == id
    decreases |White(w, s)|, if MembersOf(w, k) == [] then 0 else 1, |MembersOf(w, k)| + 2
  {
    if !f.members then Conclude(w, s, id, deps, cleanup)
    else
      var m := MemberPhase(w, s, k, s.rows[id].dest, cleanup, f);
      if m.res.Err? then Outcome(m.st, Err(m.res.error))
      else
        var r := Conclude(w, m.st, id, deps, cleanup);
        FrameTrans(s, m.st, r.st, IdSet([id] + deps), IdSet([id] + deps), None, None);
        r
  }

  lemma FrameSelf(s: State, ids: seq<nat>)
    requires MigratedRows(s, ids)
    ensures Frame(s, s, IdSet(ids), None)
  {
  }

  /** A status write that keeps one of the own rows migrated. */
  lemma OwnStatus(s: State, t: State, id: nat, ids: seq<nat>, status: Status)
    requires id in ids && IsMigrated(status) && MigratedRows(s, ids) && Frame(s, t, IdSet(ids), None)
    ensures var u := SetStatus(t, id, status);
      Frame(s, u, IdSet(ids), None) && MigratedRows(u, ids) && forall j :: Newest(u, j) == Newest(t, j)
  {
    WriteStatus(t, id, status);
  }

  /** perform_individual_migration from the source cleanup on. */
  function Conclude(w: World, s: State, id: nat, deps: seq<nat>, cleanup: bool): (r: Outcome<nat>)
    requires MigratedRows(s, [id] + deps)
    ensures Frame(s, r.st, IdSet([id] + deps), None)
    ensures r.st.next == s.next && forall k :: Newest(r.st, k) == Newest(s, k)
    ensures r.res.Ok? ==> r.res.value == id
  {
    var ids := [id] + deps;
    FrameSelf(s, ids);
    if !cleanup then
      OwnStatus(s, s, id, ids, Completed);
      Outcome(SetStatus(s, id, Completed), Ok(id))
    else
      OwnStatus(s, s, id, ids, PendingCleanup);
      var s1 := SetStatus(s, id, PendingCleanup);
      var c := CleanupAll(w, s1, ids);
      FrameTrans(s, s1, c.st, IdSet(ids), IdSet(ids), None, None);
      if c.res.Err? then Outcome(c.st, Err(c.res.error))
      else
        OwnStatus(s, c.st, id, ids, Completed);
        Outcome(SetStatus(c.st, id, Completed), Ok(id))
  }

  /** perform_individual_migration from PENDING_MEMBERS on, its member phase taken apart. */
  lemma FinishUnfolds(w: World, s: State, k: Key, id: nat, deps: seq<nat>, cleanup: bool, f: Flags)
    requires IsNewest(s, k, id) && MigratedRows(s, [id] + deps)
    ensures var call := AskMembers(k);
      var m := MemberLoop(w, Log(s, call, true, ""), MembersOf(w, k), cleanup, f);
      var t := if f.members then CallConnect(w, m.0, k, s.rows[id].dest, m.1) else s;
      && Frame(s, t, {}, None) && MigratedRows(t, [id] + deps) && t.rows[id] == s.rows[id]
      && Finish(w, s, k, id, deps, cleanup, f) ==
           if f.members && w.raises(s.trace, call) then Outcome(Log(s, call, false, ""), Err(HandlerError))
           else Conclude(w, t, id, deps, cleanup)
  {
    var s1 := Log(s, AskMembers(k), true, "");
    FrameCalls(w, s, s);
    FrameCalls(w, s, s1);
    var m := MemberLoop(w, s1, MembersOf(w, k), cleanup, f);
    FrameTrans(s, s1, m.0, {}, {}, None, None);
    var t := CallConnect(w, m.0, k, s.rows[id].dest, m.1);
    FrameCalls(w, m.0, t);
    FrameTrans(s, m.0, t, {}, {}, None, None);
    assert id in [id] + deps;
  }
}
