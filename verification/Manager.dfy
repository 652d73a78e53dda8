/** The program itself: the migrations table, the handlers seen through their calls, and the
    manager's methods in the form of manager.py, each proved equal to its specification. */
module Manager {
  import opened Store
  import opened World
  import opened Orchestration
  import opened Steps
  import opened Commands
  import opened DryRun
  import opened Archive

  /** db/models.py and db/api.py. */
  class Database {
    var rows: Table
    var next: nat

    constructor ()
      ensures rows == map[] && next == 0
    {
      rows, next := map[], 0;
    }

    /** The first save of a new Migration. */
    method Add(row: Row) returns (id: nat)
      modifies this
      ensures id == old(next) && next == old(next) + 1 && rows == old(rows)[id := row]
    {
      id := next;
      rows, next := rows[id := row], next + 1;
    }

    /** A later save of the same Migration. */
    method Save(id: nat, row: Row)
      requires id in rows
      modifies this`rows
      ensures rows == old(rows)[id := row]
    {
      rows := rows[id := row];
    }

    method GetMigrations(f: Filter, includeArchived: bool) returns (ids: seq<nat>)
      ensures ids == Store.GetMigrations(rows, next, f, includeArchived)
    {
      ids := SelectBelow(rows, next, Effective(f, includeArchived));
    }

    /** Rows stay; those that match are archived, and later queries without archived rows lack exactly them. */
    method DeleteMigrations(f: Filter)
      modifies this`rows
      ensures rows.Keys == old(rows).Keys
      ensures forall id :: id in rows ==>
        rows[id] == old(rows)[id].(archived := old(rows)[id].archived || Matches(id, old(rows)[id], f))
      ensures forall g ::
        Store.GetMigrations(rows, next, g, false) ==
          Unmatched(old(rows), Store.GetMigrations(old(rows), next, g, false), f)
    {
      forall g
        ensures Store.GetMigrations(SoftDelete(rows, f), next, g, false) ==
          Unmatched(rows, Store.GetMigrations(rows, next, g, false), f)
      {
        DeletedAreGone(rows, next, f, g);
      }
      rows := map id | id in rows :: if Matches(id, rows[id], f) then rows[id].(archived := true) else rows[id];
    }

    /** Rows stay; the archived ones that match are shown again, and later queries have exactly them back. */
    method RestoreMigrations(f: Filter)
      modifies this`rows
      ensures rows.Keys == old(rows).Keys
      ensures forall id :: id in rows ==>
        var row := old(rows)[id];
        rows[id] == row.(archived := row.archived && !Matches(id, row, f.(archived := Some(true))))
      ensures forall g, id :: id in Store.GetMigrations(rows, next, g, false) <==>
        || id in Store.GetMigrations(old(rows), next, g, false)
        || (id < next && id in old(rows) && Matches(id, old(rows)[id], f.(archived := Some(true)))
            && Matches(id, old(rows)[id], g.(archived := None)))
    {
      forall g ensures forall id :: id in Store.GetMigrations(Restore(rows, f), next, g, false) <==>
          || id in Store.GetMigrations(rows, next, g, false)
          || (id < next && id in rows && Matches(id, rows[id], f.(archived := Some(true)))
            && Matches(id, rows[id], g.(archived := None)))
      {
        RestoredAreBack(rows, next, f, g);
      }
      var h := f.(archived := Some(true));
      rows := map id | id in rows :: if Matches(id, rows[id], h) then rows[id].(archived := false) else rows[id];
    }
  }

  /** The handlers: every call is recorded, and the world decides its outcome. */
  class Handlers {
    const w: World
    var trace: seq<Event>

    constructor (w: World)
      ensures this.w == w && trace == []
    {
      this.w := w;
      trace := [];
    }

    /** A call that returns nothing the manager uses. */
    method Invoke(call: Call) returns (ok: bool)
      modifies this`trace
      ensures ok == !w.raises(old(trace), call)
      ensures trace == old(trace) + [Event(call, ok, "")]
    {
      ok := !w.raises(trace, call);
      trace := trace + [Event(call, ok, "")];
    }

    /** The operator's declaration that a copy exists. */
    method Declare(k: Key, dest: string)
      modifies this`trace
      ensures trace == old(trace) + [Event(Call.Declare(k), true, dest)]
    {
      trace := trace + [Event(Call.Declare(k), true, dest)];
    }

    method Create(k: Key, given: seq<Migrated>) returns (r: Result<Id>)
      modifies this`trace
      ensures r == if w.raises(old(trace), Call.Create(k, given)) then Err(HandlerError) else Ok(w.newId(old(trace), k))
      ensures trace == old(trace) + [Event(Call.Create(k, given), r.Ok?, if r.Ok? then r.value else "")]
    {
      var call := Call.Create(k, given);
      if w.raises(trace, call) {
        r := Err(HandlerError);
        trace := trace + [Event(call, false, "")];
      } else {
        var id := w.newId(trace, k);
        r := Ok(id);
        trace := trace + [Event(call, true, id)];
      }
    }
  }

  function Prepend(a: Associated, r: Result<Associated>): Result<Associated> {
    if r.Err? then r else Ok(Associated(a.migrated + r.value.migrated, a.pending + r.value.pending))
  }

  lemma PrependNothing(r: Result<Associated>)
    ensures Prepend(Associated([], []), r) == r
  {
    if r.Ok? { assert [] + r.value.migrated == r.value.migrated && [] + r.value.pending == r.value.pending; }
  }

  lemma PrependTwice(a: Associated, b: Associated, r: Result<Associated>)
    ensures Prepend(a, Prepend(b, r)) == Prepend(Associated(a.migrated + b.migrated, a.pending + b.pending), r)
  {
    if r.Ok? {
      assert a.migrated + (b.migrated + r.value.migrated) == (a.migrated + b.migrated) + r.value.migrated;
      assert a.pending + (b.pending + r.value.pending) == (a.pending + b.pending) + r.value.pending;
    }
  }

  /** The split of a list, one element taken off. */
  lemma SplitHead(s: State, list: seq<Resource>)
    requires list != []
    ensures var r := list[0];
      Split(s, list) ==
        if !Done(s, r.key) then Prepend(Associated([], [r]), Split(s, list[1..]))
        else
          var m := AsMigrated(s, Newest(s, r.key).value);
          if m.Err? then Err(m.error) else Prepend(Associated([m.value], []), Split(s, list[1..]))
  {
    var rest := Split(s, list[1..]);
    if rest.Ok? {
      assert [] + rest.value.migrated == rest.value.migrated && [] + rest.value.pending == rest.value.pending;
    }
  }

  function PrependIds(ids: seq<nat>, r: Outcome<seq<nat>>): Outcome<seq<nat>> {
    if r.res.Err? then r else Outcome(r.st, Ok(ids + r.res.value))
  }

  function PrependKeys(ks: seq<Key>, r: Outcome<seq<Key>>): Outcome<seq<Key>> {
    if r.res.Err? then r else Outcome(r.st, Ok(ks + r.res.value))
  }

  /** The try block of _migrate_parent_resource: the dependencies, then the handler call. */
  function Attempt(w: World, s: State, k: Key, f: Flags): Outcome<(Id, seq<nat>)>
    requires !Done(s, k)
  {
    var ready := Resolve(w, s, k, f);
    if ready.res.Err? then Outcome(ready.st, Err(ready.res.error))
    else
      var c := CallCreate(w, ready.st, k, ready.res.value.given);
      if c.res.Err? then Outcome(c.st, Err(c.res.error)) else Outcome(c.st, Ok((c.res.value, ready.res.value.cleanup)))
  }

  /** manager.py: SunbeamMigrationManager. */
  class MigrationManager {
    const w: World
    const db: Database
    const handlers: Handlers

    constructor (w: World, db: Database, handlers: Handlers)
      requires handlers.w == w
      ensures this.w == w && this.db == db && this.handlers == handlers
    {
      this.w, this.db, this.handlers := w, db, handlers;
    }

    ghost predicate Valid() {
      handlers.w == w
    }

    function Now(): State
      reads db, handlers
    {
      State(db.rows, db.next, handlers.trace)
    }

    /** The newest visible row of a resource, if any. */
    method Existing(k: Key) returns (r: Option<nat>)
      ensures r == Newest(Now(), k) && (r.Some? ==> r.value in db.rows)
    {
      var ids := db.GetMigrations(ByKey(k), false);
      QueryFindsNewest(db.rows, db.next, k);
      r := if ids == [] then None else Some(ids[0]);
    }

    method SetRowStatus(id: nat, status: Status)
      requires id in db.rows
      modifies db`rows
      ensures Now() == SetStatus(old(Now()), id, status)
    {
      db.Save(id, db.rows[id].(status := status));
    }

    // ---- _get_associated_resources ----

    method GetAssociatedResources(k: Key) returns (r: Result<Associated>)
      requires Valid()
      modifies handlers`trace
      ensures Outcome(Now(), r) == AskAssociated(w, old(Now()), k)
    {
      var ok := handlers.Invoke(AskDeps(k));
      if !ok { return Err(HandlerError); }
      var list := DepsOf(w, k);
      var migrated: seq<Migrated>, pending: seq<Resource> := [], [];
      ghost var t := Now();
      PrependNothing(Split(t, list));
      assert list[0..] == list;
      for i := 0 to |list|
        invariant Now() == t == Log(old(Now()), AskDeps(k), true, "")
        invariant Split(t, list) == Prepend(Associated(migrated, pending), Split(t, list[i..]))
      {
        var existing := Existing(list[i].key);
        assert list[i..][0] == list[i] && list[i..][1..] == list[i + 1..];
        SplitHead(t, list[i..]);
        if existing.None? || !IsMigrated(db.rows[existing.value].status) {
          PrependTwice(Associated(migrated, pending), Associated([], [list[i]]), Split(t, list[i + 1..]));
          pending := pending + [list[i]];
          assert migrated + [] == migrated;
        } else {
          var m := AsMigrated(Now(), existing.value);
          if m.Err? { return Err(m.error); }
          PrependTwice(Associated(migrated, pending), Associated([m.value], []), Split(t, list[i + 1..]));
          migrated := migrated + [m.value];
          assert pending + [] == pending;
        }
      }
      assert list[|list|..] == [] && Split(t, []) == Ok(Associated([], []));
      assert migrated + [] == migrated && pending + [] == pending;
      r := Ok(Associated(migrated, pending));
    }

    // ---- cleanup_migration_source ----

    method CleanupMigrationSource(id: nat) returns (r: Result<()>)
      requires Valid() && id in db.rows
      modifies db`rows, handlers`trace
      ensures Outcome(Now(), r) == Cleanup(w, old(Now()), id)
    {
      var k := db.rows[id].key;
      if k.id == "" { return Err(InvalidInput); }
      if !Supported(w, k.rtype) {
        SetRowStatus(id, SourceCleanupFailed);
        return Err(InvalidInput);
      }
      var ok := handlers.Invoke(DeleteSource(k));
      if !ok {
        SetRowStatus(id, SourceCleanupFailed);
        return Err(HandlerError);
      }
      db.Save(id, db.rows[id].(sourceRemoved := true));
      r := Ok(());
    }

    /** The loops over rows to clean up: the first failure is raised. */
    method CleanupEach(ids: seq<nat>) returns (r: Result<()>)
      requires Valid() && MigratedRows(Now(), ids)
      modifies db`rows, handlers`trace
      ensures Outcome(Now(), r) == CleanupAll(w, old(Now()), ids)
    {
      ghost var s0 := Now();
      for i := 0 to |ids|
        invariant MigratedRows(Now(), ids[i..])
        invariant CleanupAll(w, s0, ids) == CleanupAll(w, Now(), ids[i..])
      {
        CleanupFrame(w, Now(), ids[i], IdSet(ids[i..]));
        assert ids[i..][0] == ids[i] && ids[i..][1..] == ids[i + 1..];
        var one := CleanupMigrationSource(ids[i]);
        assert forall j :: j in ids[i + 1..] ==> j in ids[i..];
        if one.Err? { return Err(one.error); }
      }
      r := Ok(());
    }

    // ---- _migrate_parent_resource ----

    /** The dependency loop. */
    method MigrateDependencies(pending: seq<Resource>, f: Flags) returns (r: Result<seq<nat>>)
      requires Valid()
      modifies db, handlers`trace
      ensures Outcome(Now(), r) == DepLoop(w, old(Now()), pending, f)
      decreases |White(w, Now())|, if pending == [] then 0 else 1, |pending|
    {
      DepLoopEmpty(w, f);
      hide Newest, Frame, DepLoop, Perform;
      ghost var s := Now();
      var cleanup: seq<nat> := [];
      PrependNoIds(DepLoop(w, s, pending, f));
      assert pending[0..] == pending;
      for i := 0 to |pending|
        invariant |White(w, Now())| <= |White(w, s)|
        invariant DepLoop(w, s, pending, f) == PrependIds(cleanup, DepLoop(w, Now(), pending[i..], f))
      {
        var d := pending[i];
        ghost var t := Now();
        assert pending[i..][0] == d && pending[i..][1..] == pending[i + 1..];
        DepLoopHead(w, t, pending[i..], f);
        var existing := Existing(d.key);
        if existing.Some? {
          if IsMigrated(db.rows[existing.value].status) {
            continue;
          } else if db.rows[existing.value].status == InProgress {
            continue;
          }
        }
        var one := PerformIndividualMigration(d.key, false, f);
        NestedFrame(w, t, Now(), d.key);
        if one.Err? { return Err(one.error); }
        PrependIdsTwice(cleanup, if d.shouldCleanup then [one.value] else [], DepLoop(w, Now(), pending[i + 1..], f));
        if d.shouldCleanup {
          cleanup := cleanup + [one.value];
        } else {
          assert cleanup + [] == cleanup;
        }
      }
      assert pending[|pending|..] == [];
      r := Ok(cleanup);
    }

    /** The try block, run on the new IN_PROGRESS row of `k`; `s` is the state before that row. */
    method TryToMigrate(k: Key, f: Flags, ghost s: State) returns (r: Result<(Id, seq<nat>)>)
      requires Valid() && !Done(s, k) && Now() == Insert(s, NewRow(k))
      modifies db, handlers`trace
      ensures Outcome(Now(), r) == Attempt(w, s, k, f)
      decreases |White(w, s)|, if Settled(s, k) then 2 else 0, 1
    {
      InsertShrinksWhite(w, s, k);
      ghost var s1 := Now();
      var first := GetAssociatedResources(k);
      if first.Err? { return Err(first.error); }
      var associated := first.value;
      var cleanup: seq<nat> := [];
      if associated.pending != [] {
        if !f.deps { return Err(InvalidInput); }
        FrameCalls(w, s1, Now());
        var migrated := MigrateDependencies(associated.pending, f);
        if migrated.Err? { return Err(migrated.error); }
        cleanup := migrated.value;
        var again := GetAssociatedResources(k);
        if again.Err? { return Err(again.error); }
        associated := again.value;
        if associated.pending != [] { return Err(StillPending); }
      }
      var created := handlers.Create(k, associated.migrated);
      if created.Err? { return Err(created.error); }
      r := Ok((created.value, cleanup));
    }

    method MigrateParentResource(k: Key, f: Flags) returns (r: Result<(nat, seq<nat>)>)
      requires Valid()
      modifies db, handlers`trace
      ensures var s := old(Now());
        if Done(s, k) then Now() == s && r == Ok((Newest(s, k).value, []))
        else
          var p := TryMigrate(w, s, k, f);
          Now() == p.st && r == if p.res.Err? then Err(p.res.error) else Ok((s.next, p.res.value))
      decreases |White(w, Now())|, if Settled(Now(), k) then 2 else 0, 2
    {
      ghost var s := Now();
      var existing := Existing(k);
      if existing.Some? && IsMigrated(db.rows[existing.value].status) {
        return Ok((existing.value, []));
      }
      var id := db.Add(NewRow(k));
      var attempt := TryToMigrate(k, f, s);
      WriteNewRow(s, k, Resolve(w, s, k, f).st, NewRow(k));
      if attempt.Err? {
        SetRowStatus(id, Failed);
        return Err(attempt.error);
      }
      db.Save(id, db.rows[id].(dest := attempt.value.0));
      r := Ok((id, attempt.value.1));
    }

    // ---- _migrate_member_resources ----

    method MigrateMemberResources(k: Key, cleanup: bool, f: Flags) returns (r: Result<seq<Migrated>>)
      requires Valid()
      modifies db, handlers`trace
      ensures var s := old(Now());
        if w.raises(s.trace, AskMembers(k)) then Now() == Log(s, AskMembers(k), false, "") && r == Err(HandlerError)
        else
          var m := MemberLoop(w, Log(s, AskMembers(k), true, ""), MembersOf(w, k), cleanup, f);
          Now() == m.0 && r == Ok(m.1)
      decreases |White(w, Now())|, if MembersOf(w, k) == [] then 0 else 1, |MembersOf(w, k)|
    {
      MemberLoopEmpty(w, cleanup, f);
      hide Newest, Frame, MemberLoop, Perform;
      var migrated: seq<Migrated> := [];
      ghost var s0 := Now();
      var ok := handlers.Invoke(AskMembers(k));
      if !ok { return Err(HandlerError); }
      var list := MembersOf(w, k);
      ghost var s := Now();
      FrameCalls(w, s0, s);
      assert list[0..] == list;
      for i := 0 to |list|
        invariant |White(w, Now())| <= |White(w, s)|
        invariant var all, rest := MemberLoop(w, s, list, cleanup, f), MemberLoop(w, Now(), list[i..], cleanup, f);
          all.0 == rest.0 && all.1 == migrated + rest.1
      {
        var m := list[i];
        ghost var t := Now();
        assert list[i..][0] == m && list[i..][1..] == list[i + 1..];
        MemberLoopHead(w, t, list[i..], cleanup, f);
        var existing := Existing(m.key);
        if existing.Some? {
          if IsMigrated(db.rows[existing.value].status) {
            continue;
          } else if db.rows[existing.value].status == InProgress {
            continue;
          }
        }
        var one := PerformIndividualMigration(m.key, cleanup, f);
        NestedFrame(w, t, Now(), m.key);
        if one.Ok? {
          NewestIsRow(Now(), m.key);
          var resource := AsMigrated(Now(), one.value);
          if resource.Ok? { migrated := migrated + [resource.value]; }
        }
      }
      assert list[|list|..] == [] && MemberLoop(w, Now(), [], cleanup, f) == (Now(), []);
      assert migrated + [] == migrated;
      r := Ok(migrated);
    }

    // ---- perform_individual_migration ----

    method PerformIndividualMigration(k: Key, cleanup: bool, f: Flags) returns (r: Result<nat>)
      requires Valid()
      modifies db, handlers`trace
      ensures Outcome(Now(), r) == Perform(w, old(Now()), k, cleanup, f)
      decreases |White(w, Now())|, if Settled(Now(), k) then 2 else 0, 3
    {
      hide Newest, Frame, TryMigrate, Finish;
      ghost var s := Now();
      if !Usable(w, k) { return Err(InvalidInput); }
      var parent := MigrateParentResource(k, f);
      if parent.Err? { return Err(parent.error); }
      var id, associated := parent.value.0, parent.value.1;
      MarkParent(w, s, Now(), k, f, id, associated);
      SetRowStatus(id, PendingMembers);
      EnterFinish(w, s, Now(), k);
      r := FinishMigration(k, id, associated, cleanup, f);
    }

    /** perform_individual_migration from PENDING_MEMBERS on. */
    method FinishMigration(k: Key, id: nat, associated: seq<nat>, cleanup: bool, f: Flags) returns (r: Result<nat>)
      requires Valid() && IsNewest(Now(), k, id) && MigratedRows(Now(), [id] + associated)
      modifies db, handlers`trace
      ensures Outcome(Now(), r) == Finish(w, old(Now()), k, id, associated, cleanup, f)
      decreases |White(w, Now())|, if MembersOf(w, k) == [] then 0 else 1, |MembersOf(w, k)| + 2
    {
      ghost var s := Now();
      FinishUnfolds(w, s, k, id, associated, cleanup, f);
      assert id in [id] + associated;
      hide Newest, Frame, Finish, MemberLoop, CleanupAll;
      if f.members {
        var members := MigrateMemberResources(k, cleanup, f);
        if members.Err? { return Err(members.error); }
        var _ := handlers.Invoke(Connect(k, db.rows[id].dest, members.value));
      }
      if cleanup {
        SetRowStatus(id, PendingCleanup);
        var cleaned := CleanupEach([id] + associated);
        if cleaned.Err? { return Err(cleaned.error); }
      }
      SetRowStatus(id, Completed);
      r := Ok(id);
    }

    // ---- perform_batch_migration ----

    /** `listed` is what the handler's listing returned or raised; `dry` holds the recursion limit of a
        dry run. */
    method PerformBatchMigration(rtype: string, listed: Result<seq<string>>, dry: Option<nat>, cleanup: bool, f: Flags)
      returns (r: Result<()>)
      requires Valid()
      modifies db, handlers`trace
      ensures Outcome(Now(), r) == Batch(w, old(Now()), rtype, listed, dry, cleanup, f)
    {
      hide Newest, Frame, Perform, Dry;
      if !Supported(w, rtype) { return Err(InvalidInput); }
      if listed.Err? { return Err(listed.error); }
      var ids := listed.value;
      assert ids[0..] == ids;
      for i := 0 to |ids|
        invariant dry.None? ==>
          BatchLoop(w, old(Now()), rtype, ids, cleanup, f) == BatchLoop(w, Now(), rtype, ids[i..], cleanup, f)
        invariant dry.Some? ==>
          DryBatchLoop(w, old(Now()), rtype, ids, f, dry.value) == DryBatchLoop(w, Now(), rtype, ids[i..], f, dry.value)
      {
        assert ids[i..][0] == ids[i] && ids[i..][1..] == ids[i + 1..];
        var completed := db.GetMigrations(NoFilter.(sourceId := Some(ids[i]), status := Some(Completed)), false);
        if completed != [] {
          continue;
        }
        if dry.Some? {
          var one := DryRun(Key(rtype, ids[i]), f, dry.value);
          if one.Err? { return Err(one.error); }
        } else {
          var one := PerformIndividualMigration(Key(rtype, ids[i]), cleanup, f);
          if one.Err? { return Err(one.error); }
        }
      }
      r := Ok(());
    }

    // ---- _perform_individual_migration_dry_run ----

    method DryRun(k: Key, f: Flags, fuel: nat) returns (r: Result<seq<Key>>)
      requires Valid()
      modifies handlers`trace
      ensures Outcome(Now(), r) == Dry(w, old(Now()), k, f, fuel)
      decreases fuel, 0
    {
      if fuel == 0 { return Err(RecursionLimit); }
      if !Usable(w, k) { return Err(InvalidInput); }
      var existing := Existing(k);
      if existing.Some? && IsMigrated(db.rows[existing.value].status) { return Ok([]); }
      var announced := [k];
      if f.deps {
        var associated := GetAssociatedResources(k);
        if associated.Err? { return Err(associated.error); }
        SplitLength(Now(), DepsOf(w, k));
        var below := DryRunEach(associated.value.pending, f, fuel - 1);
        if below.Err? { return Err(below.error); }
        announced := announced + below.value;
      } else {
        assert announced + [] == announced;
      }
      if f.members {
        var ok := handlers.Invoke(AskMembers(k));
        if !ok { return Err(HandlerError); }
        var below := DryRunEach(MembersOf(w, k), f, fuel - 1);
        if below.Err? { return Err(below.error); }
        announced := announced + below.value;
      } else {
        assert announced + [] == announced;
      }
      r := Ok(announced);
    }

    method DryRunEach(list: seq<Resource>, f: Flags, fuel: nat) returns (r: Result<seq<Key>>)
      requires Valid()
      modifies handlers`trace
      ensures Outcome(Now(), r) == DryEach(w, old(Now()), list, f, fuel)
      decreases fuel, |list| + 1
    {
      DryEachEmpty(w, f, fuel);
      hide Dry, DryEach;
      ghost var s := Now();
      var announced: seq<Key> := [];
      PrependNoKeys(DryEach(w, s, list, f, fuel));
      assert list[0..] == list;
      for i := 0 to |list|
        invariant DryEach(w, s, list, f, fuel) == PrependKeys(announced, DryEach(w, Now(), list[i..], f, fuel))
      {
        assert list[i..][0] == list[i] && list[i..][1..] == list[i + 1..];
        DryEachHead(w, Now(), list[i..], f, fuel);
        var one := DryRun(list[i].key, f, fuel);
        if one.Err? { return Err(one.error); }
        PrependKeysTwice(announced, one.value, DryEach(w, Now(), list[i + 1..], f, fuel));
        announced := announced + one.value;
      }
      assert list[|list|..] == [] && announced + [] == announced;
      r := Ok(announced);
    }

    // ---- cmd/cleanup_source.py and cmd/register_external.py ----

    method CleanupMigrationSources(o: CleanupOptions) returns (r: Result<()>)
      requires Valid()
      modifies db`rows, handlers`trace
      ensures Outcome(Now(), r) == CleanupSource(w, old(Now()), o)
    {
      if Unfiltered(o) && !o.all && !o.dryRun { return Err(InvalidInput); }
      var ids := db.GetMigrations(CleanupFilter(w, o), false);
      if o.dryRun { return Ok(()); }
      r := CleanupEach(ids);
    }

    method RegisterExternally(k: Key, dest: string) returns (r: Result<()>)
      requires Valid()
      modifies db, handlers`trace
      ensures Outcome(Now(), r) == RegisterExternal(w, old(Now()), k, dest)
    {
      if k.id == "" || dest == "" || k.rtype == "" { return Err(InvalidInput); }
      var existing := db.GetMigrations(ByKey(k).(dest := Some(dest), status := Some(Completed)), false);
      if existing != [] { return Ok(()); }
      if !Supported(w, k.rtype) { return Err(InvalidInput); }
      handlers.Declare(k, dest);
      var _ := db.Add(RegisteredRow(k, dest));
      r := Ok(());
    }
  }

  // ---- The loops, one element taken off ----

  lemma PrependNoIds(r: Outcome<seq<nat>>)
    ensures PrependIds([], r) == r
  {
    if r.res.Ok? { assert [] + r.res.value == r.res.value; }
  }

  lemma PrependIdsTwice(a: seq<nat>, b: seq<nat>, r: Outcome<seq<nat>>)
    ensures PrependIds(a, PrependIds(b, r)) == PrependIds(a + b, r)
  {
    if r.res.Ok? { assert a + (b + r.res.value) == (a + b) + r.res.value; }
  }

  lemma PrependNoKeys(r: Outcome<seq<Key>>)
    ensures PrependKeys([], r) == r
  {
    if r.res.Ok? { assert [] + r.res.value == r.res.value; }
  }

  lemma PrependKeysTwice(a: seq<Key>, b: seq<Key>, r: Outcome<seq<Key>>)
    ensures PrependKeys(a, PrependKeys(b, r)) == PrependKeys(a + b, r)
  {
    if r.res.Ok? { assert a + (b + r.res.value) == (a + b) + r.res.value; }
  }

  lemma DryEachEmpty(w: World, f: Flags, fuel: nat)
    ensures forall s :: DryEach(w, s, [], f, fuel) == Outcome(s, Ok([]))
  {
  }

  lemma DryEachHead(w: World, s: State, list: seq<Resource>, f: Flags, fuel: nat)
    requires list != []
    ensures var one := Dry(w, s, list[0].key, f, fuel);
      DryEach(w, s, list, f, fuel) ==
        if one.res.Err? then one else PrependKeys(one.res.value, DryEach(w, one.st, list[1..], f, fuel))
  {
  }

  lemma DepLoopEmpty(w: World, f: Flags)
    ensures forall s :: DepLoop(w, s, [], f) == Outcome(s, Ok([]))
  {
  }

  lemma MemberLoopEmpty(w: World, cleanup: bool, f: Flags)
    ensures forall s :: MemberLoop(w, s, [], cleanup, f) == (s, [])
  {
  }

  lemma DepLoopHead(w: World, s: State, list: seq<Resource>, f: Flags)
    requires list != []
    ensures var one := Perform(w, s, list[0].key, false, f);
      DepLoop(w, s, list, f) ==
        if Settled(s, list[0].key) then DepLoop(w, s, list[1..], f)
        else if one.res.Err? then Outcome(one.st, Err(one.res.error))
        else PrependIds(if list[0].shouldCleanup then [one.res.value] else [], DepLoop(w, one.st, list[1..], f))
  {
    hide Newest, Frame;
  }

  lemma MemberLoopHead(w: World, s: State, list: seq<Resource>, cleanup: bool, f: Flags)
    requires list != []
    ensures var one := Perform(w, s, list[0].key, cleanup, f);
      var rest := MemberLoop(w, one.st, list[1..], cleanup, f);
      MemberLoop(w, s, list, cleanup, f) ==
        if Settled(s, list[0].key) then MemberLoop(w, s, list[1..], cleanup, f)
        else if one.res.Ok? && AsMigrated(one.st, one.res.value).Ok?
        then (rest.0, [AsMigrated(one.st, one.res.value).value] + rest.1)
        else rest
  {
    hide Newest, Frame;
  }

  /** The row the parent phase returned can be marked PENDING_MEMBERS. */
  lemma MarkParent(w: World, s: State, t: State, k: Key, f: Flags, id: nat, deps: seq<nat>)
    requires if Done(s, k) then t == s && id == Newest(s, k).value && deps == []
             else TryMigrate(w, s, k, f) == Outcome(t, Ok(deps)) && id == s.next
    ensures id in t.rows
    ensures var u := SetStatus(t, id, PendingMembers);
      Frame(s, u, OwnRow(s, k), Exempt(s, k)) && IsNewest(u, k, id) && Done(u, k) && MigratedRows(u, [id] + deps)
  {
    if Done(s, k) { MarkAgain(s, k); } else { MarkMigrated(s, t, k, deps); }
  }
}
