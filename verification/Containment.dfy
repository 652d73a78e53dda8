/** How far a failure spreads: no call leaves a row IN_PROGRESS, failed members are contained, and
    failed dependencies are not. */
module Containment {
  import opened Store
  import opened World
  import opened Orchestration
  import opened Safety

  // ---- Quiescence ----

  /** No row created between `s` and `t` is IN_PROGRESS. */
  ghost predicate NewRowsSettled(s: State, t: State) {
    s.next <= t.next && forall id :: s.next <= id < t.next ==> id in t.rows && t.rows[id].status != InProgress
  }

  lemma NewRowsTrans(s: State, t: State, u: State, own: set<nat>, k: Option<Key>)
    requires NewRowsSettled(s, t) && Frame(t, u, own, k) && NewRowsSettled(t, u)
    ensures NewRowsSettled(s, u)
  {
    forall id | s.next <= id < u.next ensures id in u.rows && u.rows[id].status != InProgress {
      if id < t.next { assert id in t.rows; }
    }
  }

  lemma {:induction false} DepLoopSettles(w: World, s: State, list: seq<Resource>, f: Flags)
    ensures NewRowsSettled(s, DepLoop(w, s, list, f).st)
    decreases |White(w, s)|, if list == [] then 0 else 1, |list|
  {
    hide Newest;
    if list != [] {
      if Settled(s, list[0].key) {
        DepLoopSettles(w, s, list[1..], f);
      } else {
        var one := Perform(w, s, list[0].key, false, f);
        PerformSettles(w, s, list[0].key, false, f);
        if one.res.Ok? {
          NestedFrame(w, s, one.st, list[0].key);
          DepLoopSettles(w, one.st, list[1..], f);
          NewRowsTrans(s, one.st, DepLoop(w, one.st, list[1..], f).st, {}, None);
        }
      }
    }
  }

  lemma {:induction false} ResolveSettles(w: World, s: State, k: Key, f: Flags)
    requires !Done(s, k)
    ensures NewRowsSettled(Insert(s, NewRow(k)), Resolve(w, s, k, f).st)
    decreases |White(w, s)|, if Settled(s, k) then 2 else 0, 1
  {
    hide Newest, Frame, Split;
    var s1 := Insert(s, NewRow(k));
    InsertShrinksWhite(w, s, k);
    var a := AskAssociated(w, s1, k);
    if a.res.Ok? && a.res.value.pending != [] && f.deps {
      FrameCalls(w, s1, a.st);
      DepLoopSettles(w, a.st, a.res.value.pending, f);
    }
  }

  lemma {:induction false} TryMigrateSettles(w: World, s: State, k: Key, f: Flags)
    requires !Done(s, k)
    ensures var p := TryMigrate(w, s, k, f);
      NewRowsSettled(s, if p.res.Err? then p.st else SetStatus(p.st, s.next, PendingMembers))
    decreases |White(w, s)|, if Settled(s, k) then 2 else 0, 2
  {
    hide Newest, Frame, Resolve, TryMigrate;
    ResolveSettles(w, s, k, f);
    TryMigrateTable(w, s, k, f);
  }

  lemma {:induction false} MemberLoopSettles(w: World, s: State, list: seq<Resource>, cleanup: bool, f: Flags)
    ensures NewRowsSettled(s, MemberLoop(w, s, list, cleanup, f).0)
    decreases |White(w, s)|, if list == [] then 0 else 1, |list|
  {
    hide Newest;
    if list != [] {
      if Settled(s, list[0].key) {
        MemberLoopSettles(w, s, list[1..], cleanup, f);
      } else {
        var one := Perform(w, s, list[0].key, cleanup, f);
        PerformSettles(w, s, list[0].key, cleanup, f);
        NestedFrame(w, s, one.st, list[0].key);
        MemberLoopSettles(w, one.st, list[1..], cleanup, f);
        NewRowsTrans(s, one.st, MemberLoop(w, one.st, list[1..], cleanup, f).0, {}, None);
      }
    }
  }

  lemma {:induction false} FinishSettles(w: World, s: State, k: Key, id: nat, deps: seq<nat>, cleanup: bool, f: Flags)
    requires IsNewest(s, k, id) && MigratedRows(s, [id] + deps)
    ensures NewRowsSettled(s, Finish(w, s, k, id, deps, cleanup, f).st)
    decreases |White(w, s)|, if MembersOf(w, k) == [] then 0 else 1, |MembersOf(w, k)| + 2
  {
    if f.members {
      var s1 := Log(s, AskMembers(k), true, "");
      FrameShrinksWhite(w, s, s1, {}, None);
      MemberLoopSettles(w, s1, MembersOf(w, k), cleanup, f);
      var m := MemberPhase(w, s, k, s.rows[id].dest, cleanup, f);
      if m.res.Ok? { NewRowsTrans(s, m.st, Conclude(w, m.st, id, deps, cleanup).st, IdSet([id] + deps), None); }
    }
  }

  /** Whether a start returns or raises, no row it created is IN_PROGRESS. */
  lemma {:induction false} PerformSettles(w: World, s: State, k: Key, cleanup: bool, f: Flags)
    ensures NewRowsSettled(s, Perform(w, s, k, cleanup, f).st)
    decreases |White(w, s)|, if Settled(s, k) then 2 else 0, 3
  {
    if Usable(w, k) {
      if Done(s, k) {
        var id := Newest(s, k).value;
        var t := SetStatus(s, id, PendingMembers);
        MarkAgain(s, k);
        EnterFinish(w, s, t, k);
        FinishSettles(w, t, k, id, [], cleanup, f);
      } else {
        var p := TryMigrate(w, s, k, f);
        TryMigrateSettles(w, s, k, f);
        if p.res.Ok? {
          var t := SetStatus(p.st, s.next, PendingMembers);
          MarkMigrated(s, p.st, k, p.res.value);
          EnterFinish(w, s, t, k);
          FinishSettles(w, t, k, s.next, p.res.value, cleanup, f);
          NewRowsTrans(s, t, Finish(w, t, k, s.next, p.res.value, cleanup, f).st, IdSet([s.next] + p.res.value), None);
        }
      }
    }
  }

  /** So a start on a resource that is not in progress leaves no resource newly in progress. */
  lemma StartLeavesNoneBusy(w: World, s: State, k: Key, cleanup: bool, f: Flags)
    ensures forall j :: Busy(Perform(w, s, k, cleanup, f).st, j) ==> Busy(s, j)
  {
    var t := Perform(w, s, k, cleanup, f).st;
    PerformSettles(w, s, k, cleanup, f);
    forall j | Busy(t, j) ensures Busy(s, j) {
      var id := Newest(t, j).value;
      NoOlder(s, t, j, OwnRow(s, k), Exempt(s, k));
    }
  }

  /** A key whose newest row is an old, unmigrated one had it as its newest row before. */
  lemma NoOlder(s: State, t: State, j: Key, own: set<nat>, k: Option<Key>)
    requires Frame(s, t, own, k) && Busy(t, j) && Newest(t, j).value < s.next && Newest(t, j).value in s.rows
    ensures Busy(s, j)
  {
    var id := Newest(t, j).value;
    assert s.rows[id] == t.rows[id];
    assert Shows(s.rows, id, j);
    var n := Newest(s, j).value;
    assert Shows(s.rows, n, j);
    assert Shows(t.rows, n, j);
  }

  // ---- Members are contained, dependencies are not ----

  /** Without cleanup, whether a start on an unmigrated resource raises does not depend on what
      becomes of its members: only on its own migration and on the member listing. */
  lemma OutcomeIgnoresMembers(w: World, s: State, k: Key, f: Flags)
    requires Usable(w, k) && !Done(s, k)
    ensures var p, r := TryMigrate(w, s, k, f), Perform(w, s, k, false, f);
      && (r.res.Ok? <==> p.res.Ok? && (f.members ==> !w.raises(p.st.trace, AskMembers(k))))
      && (r.res.Ok? ==> r.st.rows[s.next].status == Completed)
      && (r.res.Err? && p.res.Ok? ==> r.st.rows[s.next].status == PendingMembers)
  {
    hide Newest, Frame, TryMigrate;
    var p := TryMigrate(w, s, k, f);
    if p.res.Ok? {
      var t := SetStatus(p.st, s.next, PendingMembers);
      MarkMigrated(s, p.st, k, p.res.value);
      assert Perform(w, s, k, false, f) == Finish(w, t, k, s.next, p.res.value, false, f);
      FinishWithoutCleanup(w, t, k, s.next, p.res.value, f);
    }
  }

  lemma FinishWithoutCleanup(w: World, s: State, k: Key, id: nat, deps: seq<nat>, f: Flags)
    requires IsNewest(s, k, id) && MigratedRows(s, [id] + deps) && s.rows[id].status == PendingMembers
    ensures var r := Finish(w, s, k, id, deps, false, f);
      && id in r.st.rows
      && (r.res.Ok? <==> (f.members ==> !w.raises(s.trace, AskMembers(k))))
      && r.st.rows[id].status == if r.res.Ok? then Completed else PendingMembers
  {
  }

  /** A failed dependency loop names the dependency that raised: it was refused, its newest row is
      FAILED, or it was migrated and only its member listing raised. */
  lemma {:induction false} DependencyFailureShows(w: World, s: State, list: seq<Resource>, f: Flags)
    requires DepLoop(w, s, list, f).res.Err?
    ensures var t := DepLoop(w, s, list, f).st;
      exists d :: d in KeySet(list) && (!Usable(w, d) || Done(t, d)
        || (Newest(t, d).Some? && t.rows[Newest(t, d).value].status == Failed))
    decreases |list|
  {
    hide Frame;
    assert KeySet(list) == {list[0].key} + KeySet(list[1..]);
    if Settled(s, list[0].key) {
      DependencyFailureShows(w, s, list[1..], f);
    } else {
      var one := Perform(w, s, list[0].key, false, f);
      if one.res.Ok? {
        DependencyFailureShows(w, one.st, list[1..], f);
      } else if Usable(w, list[0].key) {
        StartSettlesNewRow(w, s, list[0].key, false, f);
      }
    }
  }

  // ---- Starting again ----

  lemma {:induction false} SettledMembersSkipped(w: World, s: State, list: seq<Resource>, cleanup: bool, f: Flags)
    requires forall j :: j in KeySet(list) ==> Settled(s, j)
    ensures MemberLoop(w, s, list, cleanup, f) == (s, [])
    decreases |list|
  {
    if list != [] {
      assert KeySet(list) == {list[0].key} + KeySet(list[1..]);
      SettledMembersSkipped(w, s, list[1..], cleanup, f);
    }
  }

  /** Starting a migrated resource again, without cleanup and with its members settled, only makes
      its row COMPLETED, and makes no call but the member listing and the connect step. */
  lemma RerunOnlyCompletes(w: World, s: State, k: Key, f: Flags)
    requires Usable(w, k) && Done(s, k)
    requires f.members ==> !w.raises(s.trace, AskMembers(k))
    requires f.members ==> forall j :: j in KeySet(MembersOf(w, k)) ==> Settled(s, j)
    ensures var r, id := Perform(w, s, k, false, f), Newest(s, k).value;
      && r.res == Ok(id)
      && SameTable(r.st, SetStatus(s, id, Completed))
      && forall i :: |s.trace| <= i < |r.st.trace| ==> r.st.trace[i].call.AskMembers? || r.st.trace[i].call.Connect?
  {
    hide Frame, Finish;
    var id := Newest(s, k).value;
    var t := SetStatus(s, id, PendingMembers);
    MarkAgain(s, k);
    FrameShrinksWhite(w, s, t, OwnRow(s, k), None);
    SettledFinishSkips(w, t, k, id, f);
    assert Perform(w, s, k, false, f) == Finish(w, t, k, id, [], false, f);
  }

  /** So starting a COMPLETED resource again is the identity on the table. */
  lemma RerunIsIdentity(w: World, s: State, k: Key, f: Flags)
    requires Usable(w, k) && Done(s, k) && s.rows[Newest(s, k).value].status == Completed
    requires f.members ==> !w.raises(s.trace, AskMembers(k))
    requires f.members ==> forall j :: j in KeySet(MembersOf(w, k)) ==> Settled(s, j)
    ensures SameTable(s, Perform(w, s, k, false, f).st)
  {
    hide Perform, Newest;
    RerunOnlyCompletes(w, s, k, f);
    var id := Newest(s, k).value;
    assert s.rows[id := s.rows[id].(status := Completed)] == s.rows;
  }

  /** The row of a resource whose source could not be deleted. */
  predicate CleanupFailed(row: Row) {
    row.status == SourceCleanupFailed && !row.sourceRemoved
  }

  /** A start on such a resource deletes its source, or still shows that it is there, exactly when it is
      asked to clean up and can list the members, if these are included; otherwise the failure is
      forgotten: the row becomes COMPLETED, or PENDING_MEMBERS if the listing raised. */
  lemma FailedCleanupRememberedIff(w: World, s: State, k: Key, cleanup: bool, f: Flags)
    requires Usable(w, k) && Done(s, k) && CleanupFailed(s.rows[Newest(s, k).value])
    ensures var t, id := Perform(w, s, k, cleanup, f).st, Newest(s, k).value;
      var unlisted := f.members && w.raises(s.trace, AskMembers(k));
      && Newest(t, k) == Some(id) && id in t.rows
      && (t.rows[id].sourceRemoved || CleanupFailed(t.rows[id]) <==> cleanup && !unlisted)
      && (!cleanup || unlisted ==>
            t.rows[id] == s.rows[id].(status := if unlisted then PendingMembers else Completed))
  {
    hide Frame, Finish;
    var id := Newest(s, k).value;
    var t := SetStatus(s, id, PendingMembers);
    MarkAgain(s, k);
    FinishRemembers(w, t, k, id, cleanup, f);
    EnterFinish(w, s, t, k);
    LeaveFinish(s, t, Finish(w, t, k, id, [], cleanup, f).st, k, id, []);
  }

  lemma FinishRemembers(w: World, s: State, k: Key, id: nat, cleanup: bool, f: Flags)
    requires IsNewest(s, k, id) && MigratedRows(s, [id] + []) && Usable(w, k)
    requires s.rows[id].status == PendingMembers && !s.rows[id].sourceRemoved
    ensures var t := Finish(w, s, k, id, [], cleanup, f).st;
      var unlisted := f.members && w.raises(s.trace, AskMembers(k));
      && id in t.rows
      && (t.rows[id].sourceRemoved || CleanupFailed(t.rows[id]) <==> cleanup && !unlisted)
      && (!cleanup || unlisted ==> t.rows[id] == s.rows[id].(status := if unlisted then PendingMembers else Completed))
  {
    hide Newest, Conclude;
    NewestIsRow(s, k);
    if !f.members {
      ConcludeRemembers(w, s, k, id, cleanup);
    } else {
      var m := MemberPhase(w, s, k, s.rows[id].dest, cleanup, f);
      if m.res.Ok? {
        assert m.st.rows[id] == s.rows[id];
        ConcludeRemembers(w, m.st, k, id, cleanup);
      }
    }
  }

  lemma ConcludeRemembers(w: World, s: State, k: Key, id: nat, cleanup: bool)
    requires MigratedRows(s, [id] + []) && id in s.rows && s.rows[id].key == k && Usable(w, k)
    requires !s.rows[id].sourceRemoved
    ensures var t := Conclude(w, s, id, [], cleanup).st;
      && id in t.rows
      && (t.rows[id].sourceRemoved || CleanupFailed(t.rows[id]) <==> cleanup)
      && (!cleanup ==> t.rows[id] == s.rows[id].(status := Completed))
  {
    hide Newest, Frame;
    if cleanup {
      var s1, ids := SetStatus(s, id, PendingCleanup), [id] + [];
      assert ids[0] == id && ids[1..] == [] && MigratedRows(s1, ids);
      var c := Cleanup(w, s1, id);
      if c.res.Ok? { assert CleanupAll(w, c.st, []) == Outcome(c.st, Ok(())); }
    }
  }

  lemma SettledFinishSkips(w: World, s: State, k: Key, id: nat, f: Flags)
    requires IsNewest(s, k, id) && MigratedRows(s, [id] + [])
    requires f.members ==> !w.raises(s.trace, AskMembers(k))
    requires f.members ==> forall j :: j in KeySet(MembersOf(w, k)) ==> Settled(s, j)
    ensures var r := Finish(w, s, k, id, [], false, f);
      && r.res == Ok(id)
      && SameTable(r.st, SetStatus(s, id, Completed))
      && forall i :: |s.trace| <= i < |r.st.trace| ==> r.st.trace[i].call.AskMembers? || r.st.trace[i].call.Connect?
  {
    if f.members {
      var t := Log(s, AskMembers(k), true, "");
      assert forall j :: Settled(t, j) == Settled(s, j);
      SettledMembersSkipped(w, t, MembersOf(w, k), false, f);
      assert MemberPhase(w, s, k, s.rows[id].dest, false, f) ==
        Outcome(CallConnect(w, t, k, s.rows[id].dest, []), Ok(()));
    }
  }
}
