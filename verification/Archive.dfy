/** Soft deletion (db/api.py): archived rows take no part in anything the commands do. */
module Archive {
  import opened Store
  import opened World
  import opened Orchestration
  import opened Steps
  import opened Commands
  import opened DryRun

  // ---- delete and restore ----

  /** delete_migrations(soft_delete=True). */
  function SoftDelete(rows: Table, f: Filter): Table {
    map id | id in rows :: if Matches(id, rows[id], f) then rows[id].(archived := true) else rows[id]
  }

  /** restore_migrations: the archived column of the filter is overwritten. */
  function Restore(rows: Table, f: Filter): Table {
    var g := f.(archived := Some(true));
    map id | id in rows :: if Matches(id, rows[id], g) then rows[id].(archived := false) else rows[id]
  }

  /** The rows of a result that do not match. */
  function Unmatched(rows: Table, ids: seq<nat>, f: Filter): seq<nat>
    requires forall id :: id in ids ==> id in rows
  {
    if ids == [] then []
    else (if Matches(ids[0], rows[ids[0]], f) then [] else [ids[0]]) + Unmatched(rows, ids[1..], f)
  }

  lemma DeletedMatches(rows: Table, id: nat, f: Filter, g: Filter)
    requires g.archived == Some(false)
    ensures id in SoftDelete(rows, f) <==> id in rows
    ensures id in rows ==>
      (Matches(id, SoftDelete(rows, f)[id], g) <==> Matches(id, rows[id], g) && !Matches(id, rows[id], f))
  {
  }

  lemma {:induction false} SelectAfterDelete(rows: Table, n: nat, f: Filter, g: Filter)
    requires g.archived == Some(false)
    ensures SelectBelow(SoftDelete(rows, f), n, g) == Unmatched(rows, SelectBelow(rows, n, g), f)
    decreases n
  {
    hide Matches, SoftDelete;
    if n > 0 {
      SelectAfterDelete(rows, n - 1, f, g);
      DeletedMatches(rows, n - 1, f, g);
      var older := SelectBelow(rows, n - 1, g);
      assert ([n - 1] + older)[1..] == older;
    }
  }

  /** After a soft deletion a query without archived rows gives what it gave before, in the same order,
      less the rows that matched. */
  lemma DeletedAreGone(rows: Table, n: nat, f: Filter, g: Filter)
    ensures GetMigrations(SoftDelete(rows, f), n, g, false) == Unmatched(rows, GetMigrations(rows, n, g, false), f)
  {
    SelectAfterDelete(rows, n, f, Effective(g, false));
  }

  /** After restoring, such a query gives what it gave before and the archived rows that match both. */
  lemma RestoredAreBack(rows: Table, n: nat, f: Filter, g: Filter)
    ensures forall id :: id in GetMigrations(Restore(rows, f), n, g, false) <==>
      || id in GetMigrations(rows, n, g, false)
      || (id < n && id in rows && Matches(id, rows[id], f.(archived := Some(true)))
        && Matches(id, rows[id], g.(archived := None)))
  {
  }

  /** Restoring after a soft deletion with the same filter is the identity exactly when no row
      that fits the rest of the filter was archived before. */
  lemma RestoreUndoesDeleteIff(rows: Table, f: Filter)
    ensures Restore(SoftDelete(rows, f), f) == rows <==>
            forall id :: id in rows ==> !Matches(id, rows[id], f.(archived := Some(true)))
  {
    var back := Restore(SoftDelete(rows, f), f);
    if id :| id in rows && Matches(id, rows[id], f.(archived := Some(true))) {
      assert back[id].archived != rows[id].archived;
    } else {
      forall id | id in rows ensures back[id] == rows[id] {
        assert !Matches(id, rows[id], f.(archived := Some(true)));
      }
    }
  }

  /** Without include_archived a filter on the archived column is overwritten: asking for archived rows
      alone gives the same answer as not asking, and it never holds one. */
  lemma ArchivedFilterIsOverwritten(rows: Table, n: nat, f: Filter, wanted: Option<bool>)
    ensures GetMigrations(rows, n, f.(archived := wanted), false) == GetMigrations(rows, n, f, false)
    ensures forall id :: id in GetMigrations(rows, n, f.(archived := wanted), false) ==>
      id in rows && !rows[id].archived
  {
  }

  /** So such a query gives the rows asked for exactly when it includes archived rows, asks for visible
      ones, or nothing fits the rest of the filter. */
  lemma ArchivedFilterHeldIff(rows: Table, n: nat, f: Filter, wanted: bool, includeArchived: bool)
    ensures var asked := f.(archived := Some(wanted));
      GetMigrations(rows, n, asked, includeArchived) == SelectBelow(rows, n, asked) <==>
        || includeArchived || !wanted
        || forall id :: id < n && id in rows ==> !Matches(id, rows[id], f.(archived := None))
  {
    var asked := f.(archived := Some(wanted));
    var got, due := GetMigrations(rows, n, asked, includeArchived), SelectBelow(rows, n, asked);
    if !includeArchived && wanted {
      if id: nat :| id < n && id in rows && Matches(id, rows[id], f.(archived := None)) {
        assert (id in got) != (id in due);
      } else {
        if got != [] { assert got[0] in got; }
        if due != [] { assert due[0] in due; }
      }
    }
  }

  // ---- The table without its archived rows ----

  function Visible(s: State): State {
    s.(rows := map id | id in s.rows && !s.rows[id].archived :: s.rows[id])
  }

  function VisibleOut<T>(o: Outcome<T>): Outcome<T> {
    Outcome(Visible(o.st), o.res)
  }

  lemma VisibleColours(w: World, s: State)
    ensures forall k :: Newest(Visible(s), k) == Newest(s, k)
    ensures forall k :: Done(Visible(s), k) == Done(s, k) && DestOf(Visible(s), k) == DestOf(s, k)
    ensures forall k :: Settled(Visible(s), k) == Settled(s, k)
    ensures White(w, Visible(s)) == White(w, s)
  {
    forall k ensures Newest(Visible(s), k) == Newest(s, k) {
      NewestDependsOnShown(s.rows, Visible(s).rows, s.next, k);
    }
  }

  lemma VisibleInsert(s: State, row: Row)
    requires !row.archived
    ensures Visible(Insert(s, row)) == Insert(Visible(s), row)
  {
    var a, b := Visible(Insert(s, row)), Insert(Visible(s), row);
    assert a.rows.Keys == b.rows.Keys;
  }

  lemma VisibleUpdate(s: State, id: nat, row: Row)
    requires id in Visible(s).rows && !row.archived
    ensures Visible(s.(rows := s.rows[id := row])) == Visible(s).(rows := Visible(s).rows[id := row])
  {
    var a, b := Visible(s.(rows := s.rows[id := row])), Visible(s).(rows := Visible(s).rows[id := row]);
    assert a.rows.Keys == b.rows.Keys;
  }

  lemma {:induction false} VisibleSplit(w: World, s: State, list: seq<Resource>)
    ensures Split(Visible(s), list) == Split(s, list)
    decreases |list|
  {
    VisibleColours(w, s);
    if list != [] { VisibleSplit(w, s, list[1..]); }
  }

  lemma VisibleAsk(w: World, s: State, k: Key)
    ensures AskAssociated(w, Visible(s), k) == VisibleOut(AskAssociated(w, s, k))
  {
    VisibleSplit(w, Log(s, AskDeps(k), true, ""), DepsOf(w, k));
  }

  lemma VisibleCleanup(w: World, s: State, id: nat)
    requires id in Visible(s).rows
    ensures Cleanup(w, Visible(s), id) == VisibleOut(Cleanup(w, s, id))
  {
    var k := s.rows[id].key;
    var ok := !w.raises(s.trace, DeleteSource(k));
    VisibleUpdate(Log(s, DeleteSource(k), true, ""), id, s.rows[id].(sourceRemoved := true));
    VisibleUpdate(Log(s, DeleteSource(k), false, ""), id, s.rows[id].(status := SourceCleanupFailed));
    VisibleUpdate(s, id, s.rows[id].(status := SourceCleanupFailed));
  }

  lemma {:induction false} VisibleCleanupAll(w: World, s: State, ids: seq<nat>)
    requires MigratedRows(Visible(s), ids)
    ensures MigratedRows(s, ids) && CleanupAll(w, Visible(s), ids) == VisibleOut(CleanupAll(w, s, ids))
    decreases |ids|
  {
    hide Newest, Frame;
    if ids != [] {
      assert ids[0] in ids;
      VisibleCleanup(w, s, ids[0]);
      CleanupFrame(w, Visible(s), ids[0], IdSet(ids));
      if Cleanup(w, s, ids[0]).res.Ok? { VisibleCleanupAll(w, Cleanup(w, s, ids[0]).st, ids[1..]); }
    }
  }

  // ---- The manager behaves the same with and without them ----

  lemma {:induction false} VisibleDepLoop(w: World, s: State, list: seq<Resource>, f: Flags)
    ensures DepLoop(w, Visible(s), list, f) == VisibleOut(DepLoop(w, s, list, f))
    decreases |White(w, s)|, if list == [] then 0 else 1, |list|
  {
    VisibleColours(w, s);
    hide Newest, Frame;
    if list != [] {
      if Settled(s, list[0].key) {
        VisibleDepLoop(w, s, list[1..], f);
      } else {
        var one := Perform(w, s, list[0].key, false, f);
        VisiblePerform(w, s, list[0].key, false, f);
        NestedFrame(w, s, one.st, list[0].key);
        if one.res.Ok? { VisibleDepLoop(w, one.st, list[1..], f); }
      }
    }
  }

  lemma {:induction false} VisibleResolve(w: World, s: State, k: Key, f: Flags)
    requires !Done(s, k)
    ensures !Done(Visible(s), k) && Resolve(w, Visible(s), k, f) == VisibleOut(Resolve(w, s, k, f))
    decreases |White(w, s)|, if Settled(s, k) then 2 else 0, 1
  {
    VisibleColours(w, s);
    hide Newest, Frame, Split;
    var s1 := Insert(s, NewRow(k));
    VisibleInsert(s, NewRow(k));
    InsertShrinksWhite(w, s, k);
    VisibleAsk(w, s1, k);
    var a := AskAssociated(w, s1, k);
    if a.res.Ok? && a.res.value.pending != [] && f.deps {
      FrameCalls(w, s1, a.st);
      VisibleDepLoop(w, a.st, a.res.value.pending, f);
      VisibleAsk(w, DepLoop(w, a.st, a.res.value.pending, f).st, k);
    }
  }

  lemma {:induction false} VisibleTryMigrate(w: World, s: State, k: Key, f: Flags)
    requires !Done(s, k)
    ensures !Done(Visible(s), k) && TryMigrate(w, Visible(s), k, f) == VisibleOut(TryMigrate(w, s, k, f))
    decreases |White(w, s)|, if Settled(s, k) then 2 else 0, 2
  {
    VisibleColours(w, s);
    VisibleResolve(w, s, k, f);
    var ready := Resolve(w, s, k, f);
    WriteNewRow(s, k, ready.st, NewRow(k));
    hide Newest, Frame, Resolve;
    assert s.next in Visible(ready.st).rows;
    VisibleUpdate(ready.st, s.next, NewRow(k).(status := Failed));
    if ready.res.Ok? {
      var c := CallCreate(w, ready.st, k, ready.res.value.given);
      if c.res.Err? { VisibleUpdate(c.st, s.next, NewRow(k).(status := Failed)); }
      else { VisibleUpdate(c.st, s.next, NewRow(k).(dest := c.res.value)); }
    }
  }

  lemma VisibleMember(s: State, k: Key, id: nat)
    requires Done(s, k) && IsNewest(s, k, id)
    ensures id in Visible(s).rows && AsMigrated(Visible(s), id) == AsMigrated(s, id)
  {
    assert Shows(s.rows, id, k);
  }

  lemma {:induction false} VisibleMemberLoop(w: World, s: State, list: seq<Resource>, cleanup: bool, f: Flags)
    ensures var r := MemberLoop(w, s, list, cleanup, f);
      MemberLoop(w, Visible(s), list, cleanup, f) == (Visible(r.0), r.1)
    decreases |White(w, s)|, if list == [] then 0 else 1, |list|
  {
    VisibleColours(w, s);
    hide Newest, Frame;
    if list != [] {
      if Settled(s, list[0].key) {
        VisibleMemberLoop(w, s, list[1..], cleanup, f);
      } else {
        var one := Perform(w, s, list[0].key, cleanup, f);
        VisiblePerform(w, s, list[0].key, cleanup, f);
        NestedFrame(w, s, one.st, list[0].key);
        VisibleMemberLoop(w, one.st, list[1..], cleanup, f);
        if one.res.Ok? { VisibleMember(one.st, list[0].key, one.res.value); }
      }
    }
  }

  lemma {:induction false} VisibleMemberPhase(w: World, s: State, k: Key, parent: string, cleanup: bool, f: Flags)
    ensures MemberPhase(w, Visible(s), k, parent, cleanup, f) == VisibleOut(MemberPhase(w, s, k, parent, cleanup, f))
    decreases |White(w, s)|, if MembersOf(w, k) == [] then 0 else 1, |MembersOf(w, k)| + 1
  {
    hide Newest, Frame;
    var s1 := Log(s, AskMembers(k), true, "");
    FrameCalls(w, s, s1);
    VisibleMemberLoop(w, s1, MembersOf(w, k), cleanup, f);
  }

  lemma VisibleConclude(w: World, s: State, id: nat, deps: seq<nat>, cleanup: bool)
    requires MigratedRows(Visible(s), [id] + deps)
    ensures MigratedRows(s, [id] + deps)
    ensures Conclude(w, Visible(s), id, deps, cleanup) == VisibleOut(Conclude(w, s, id, deps, cleanup))
  {
    var ids := [id] + deps;
    assert id in ids;
    hide Newest, Frame;
    if !cleanup {
      VisibleUpdate(s, id, s.rows[id].(status := Completed));
    } else {
      VisibleUpdate(s, id, s.rows[id].(status := PendingCleanup));
      var s1 := SetStatus(s, id, PendingCleanup);
      assert Visible(s1) == SetStatus(Visible(s), id, PendingCleanup);
      assert MigratedRows(Visible(s1), ids);
      VisibleCleanupAll(w, s1, ids);
      var c := CleanupAll(w, s1, ids);
      if c.res.Ok? { VisibleUpdate(c.st, id, c.st.rows[id].(status := Completed)); }
    }
  }

  lemma {:induction false} VisibleFinish(w: World, s: State, k: Key, id: nat, deps: seq<nat>, cleanup: bool, f: Flags)
    requires IsNewest(s, k, id) && MigratedRows(Visible(s), [id] + deps)
    ensures IsNewest(Visible(s), k, id) && MigratedRows(s, [id] + deps)
    ensures Finish(w, Visible(s), k, id, deps, cleanup, f) == VisibleOut(Finish(w, s, k, id, deps, cleanup, f))
    decreases |White(w, s)|, if MembersOf(w, k) == [] then 0 else 1, |MembersOf(w, k)| + 2
  {
    hide Newest, Frame, Conclude, MemberPhase;
    VisibleColours(w, s);
    assert id in [id] + deps;
    if !f.members {
      VisibleConclude(w, s, id, deps, cleanup);
    } else {
      var m := MemberPhase(w, s, k, s.rows[id].dest, cleanup, f);
      VisibleMemberPhase(w, s, k, s.rows[id].dest, cleanup, f);
      if m.res.Ok? {
        VisibleMigrated(s, m.st, [id] + deps);
        VisibleConclude(w, m.st, id, deps, cleanup);
      }
    }
  }

  lemma VisibleMigrated(s: State, t: State, ids: seq<nat>)
    requires Frame(s, t, {}, None) && MigratedRows(Visible(s), ids)
    ensures MigratedRows(Visible(t), ids)
  {
  }

  /** A start makes the same calls, has the same outcome and leaves the same visible rows as on the
      table with all archived rows removed. */
  lemma {:induction false} VisiblePerform(w: World, s: State, k: Key, cleanup: bool, f: Flags)
    ensures Perform(w, Visible(s), k, cleanup, f) == VisibleOut(Perform(w, s, k, cleanup, f))
    decreases |White(w, s)|, if Settled(s, k) then 2 else 0, 3
  {
    VisibleColours(w, s);
    if Usable(w, k) {
      if Done(s, k) {
        var id := Newest(s, k).value;
        var t := SetStatus(s, id, PendingMembers);
        MarkAgain(s, k);
        MarkAgain(Visible(s), k);
        EnterFinish(w, s, t, k);
        VisibleUpdate(s, id, s.rows[id].(status := PendingMembers));
        VisibleFinish(w, t, k, id, [], cleanup, f);
      } else {
        var p := TryMigrate(w, s, k, f);
        VisibleTryMigrate(w, s, k, f);
        if p.res.Ok? {
          var t := SetStatus(p.st, s.next, PendingMembers);
          MarkMigrated(s, p.st, k, p.res.value);
          MarkMigrated(Visible(s), Visible(p.st), k, p.res.value);
          EnterFinish(w, s, t, k);
          VisibleUpdate(p.st, s.next, p.st.rows[s.next].(status := PendingMembers));
          VisibleFinish(w, t, k, s.next, p.res.value, cleanup, f);
        }
      }
    }
  }

  // ---- All commands ----

  lemma {:induction false} VisibleSelect(rows: Table, shown: Table, n: nat, f: Filter)
    requires f.archived == Some(false)
    requires shown == map id | id in rows && !rows[id].archived :: rows[id]
    ensures SelectBelow(shown, n, f) == SelectBelow(rows, n, f)
  {
    if n > 0 { VisibleSelect(rows, shown, n - 1, f); }
  }

  lemma VisibleQuery(s: State, f: Filter)
    ensures GetMigrations(Visible(s).rows, s.next, f, false) == GetMigrations(s.rows, s.next, f, false)
  {
    VisibleSelect(s.rows, Visible(s).rows, s.next, Effective(f, false));
  }

  lemma {:induction false} VisibleBatch(w: World, s: State, rtype: string, ids: seq<string>, cleanup: bool, f: Flags)
    ensures BatchLoop(w, Visible(s), rtype, ids, cleanup, f) == VisibleOut(BatchLoop(w, s, rtype, ids, cleanup, f))
    decreases |ids|
  {
    hide Perform, Newest, Frame;
    if ids != [] {
      VisibleQuery(s, NoFilter.(sourceId := Some(ids[0]), status := Some(Completed)));
      if SkippedByBatch(s, ids[0]) {
        VisibleBatch(w, s, rtype, ids[1..], cleanup, f);
      } else {
        var one := Perform(w, s, Key(rtype, ids[0]), cleanup, f);
        VisiblePerform(w, s, Key(rtype, ids[0]), cleanup, f);
        if one.res.Ok? { VisibleBatch(w, one.st, rtype, ids[1..], cleanup, f); }
      }
    }
  }

  lemma {:induction false} VisibleDry(w: World, s: State, k: Key, f: Flags, fuel: nat)
    ensures Dry(w, Visible(s), k, f, fuel) == VisibleOut(Dry(w, s, k, f, fuel))
    decreases fuel, 0
  {
    VisibleColours(w, s);
    hide Newest, DryEach, Split;
    if fuel > 0 && Usable(w, k) && !Done(s, k) {
      var d := if f.deps then DryDeps(w, s, k, f, fuel) else Outcome(s, Ok([]));
      if f.deps {
        var a := AskAssociated(w, s, k);
        VisibleAsk(w, s, k);
        if a.res.Ok? {
          SplitLength(a.st, DepsOf(w, k));
          VisibleDryEach(w, a.st, a.res.value.pending, f, fuel - 1);
        }
      }
      if d.res.Ok? && f.members && !w.raises(d.st.trace, AskMembers(k)) {
        VisibleDryEach(w, Log(d.st, AskMembers(k), true, ""), MembersOf(w, k), f, fuel - 1);
      }
    }
  }

  lemma {:induction false} VisibleDryEach(w: World, s: State, list: seq<Resource>, f: Flags, fuel: nat)
    ensures DryEach(w, Visible(s), list, f, fuel) == VisibleOut(DryEach(w, s, list, f, fuel))
    decreases fuel, |list| + 1
  {
    hide Dry;
    if list != [] {
      var one := Dry(w, s, list[0].key, f, fuel);
      VisibleDry(w, s, list[0].key, f, fuel);
      if one.res.Ok? { VisibleDryEach(w, one.st, list[1..], f, fuel); }
    }
  }

  lemma {:induction false} VisibleDryBatch(w: World, s: State, rtype: string, ids: seq<string>, f: Flags, limit: nat)
    ensures DryBatchLoop(w, Visible(s), rtype, ids, f, limit) == VisibleOut(DryBatchLoop(w, s, rtype, ids, f, limit))
    decreases |ids|
  {
    hide Dry;
    if ids != [] {
      VisibleQuery(s, NoFilter.(sourceId := Some(ids[0]), status := Some(Completed)));
      if SkippedByBatch(s, ids[0]) {
        VisibleDryBatch(w, s, rtype, ids[1..], f, limit);
      } else {
        var one := Dry(w, s, Key(rtype, ids[0]), f, limit);
        VisibleDry(w, s, Key(rtype, ids[0]), f, limit);
        if one.res.Ok? { VisibleDryBatch(w, one.st, rtype, ids[1..], f, limit); }
      }
    }
  }

  lemma VisibleCleanupSource(w: World, s: State, o: CleanupOptions)
    ensures CleanupSource(w, Visible(s), o) == VisibleOut(CleanupSource(w, s, o))
  {
    VisibleQuery(s, CleanupFilter(w, o));
    VisibleCleanupAll(w, s, GetMigrations(s.rows, s.next, CleanupFilter(w, o), false));
  }

  lemma VisibleAfter(w: World, s: State, c: Command)
    ensures After(w, Visible(s), c) == Visible(After(w, s, c))
  {
    hide Perform, Newest, Frame;
    match c {
      case Start(k, cleanup, f) => VisiblePerform(w, s, k, cleanup, f);
      case DryStart(k, f, limit) => VisibleDry(w, s, k, f, limit);
      case StartBatch(rtype, listed, dry, cleanup, f) =>
        if listed.Ok? {
          VisibleBatch(w, s, rtype, listed.value, cleanup, f);
          if dry.Some? { VisibleDryBatch(w, s, rtype, listed.value, f, dry.value); }
        }
      case CleanSource(o) =>
        VisibleCleanupSource(w, s, o);
      case RegisterExt(k, dest) =>
        VisibleQuery(s, ByKey(k).(dest := Some(dest), status := Some(Completed)));
        VisibleInsert(Log(s, Declare(k), true, dest), RegisteredRow(k, dest));
    }
  }

  /** Any run of commands makes the same calls and leaves the same visible rows as on the table
      with all archived rows removed. */
  lemma {:induction false} ArchivedRowsDoNotInterfere(w: World, s: State, cs: seq<Command>)
    ensures Run(w, Visible(s), cs) == Visible(Run(w, s, cs))
    decreases |cs|
  {
    if cs != [] {
      hide After, Visible;
      VisibleAfter(w, s, cs[0]);
      ArchivedRowsDoNotInterfere(w, After(w, s, cs[0]), cs[1..]);
    }
  }
}
