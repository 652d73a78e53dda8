/** Failures: which rows a raised failure leaves FAILED, and what a failed cleanup leaves behind. */
module Blame {
  import opened Store
  import opened World
  import opened Orchestration
  import opened Steps
  import opened Commands
  import opened DryRun
  import opened Parts
  import opened Safety
  import opened Containment
  import opened Deletions

  /** The newest row of `k` is FAILED. */
  predicate FailedNow(s: State, k: Key) {
    Newest(s, k).Some? && s.rows[Newest(s, k).value].status == Failed
  }

  /** Each resource on the path depends on the next, and all but the last are FAILED. */
  predicate FailedPath(w: World, s: State, path: seq<Key>)
    decreases |path|
  {
    && path != []
    && (|path| > 1 ==>
          FailedNow(s, path[0]) && path[1] in KeySet(DepsOf(w, path[0])) && FailedPath(w, s, path[1..]))
  }

  /** The last call failed and was made for `k`: to list its dependencies or create it, and then `k`
      is FAILED, or to list its members, and then `k` is migrated. */
  predicate Culprit(s: State, k: Key) {
    s.trace != [] && var e := s.trace[|s.trace| - 1];
      && !e.ok
      && match e.call
         case AskDeps(j) => j == k && FailedNow(s, k)
         case Create(j, given) => j == k && FailedNow(s, k)
         case AskMembers(j) => j == k && Done(s, k)
         case _ => false
  }

  /** Some dependency is not migrated. */
  ghost predicate Lacking(w: World, t: State, k: Key) {
    exists d :: d in KeySet(DepsOf(w, k)) && !Done(t, d)
  }

  /** Some dependency has a migrated row without all its ids. */
  ghost predicate Uncopied(w: World, t: State, k: Key) {
    exists d :: d in KeySet(DepsOf(w, k)) && Done(t, d) && !HasCopy(t, d)
  }

  /** Some dependency could not be waited for: it was in progress already in `s`, or it lies on the path
      of dependencies that led to `k`. */
  ghost predicate Closing(w: World, s: State, t: State, k: Key, path: seq<Key>) {
    exists d :: d in KeySet(DepsOf(w, k)) && !Done(t, d) && (Busy(s, d) || d in path)
  }

  /** Why `k` itself failed in a start from `s` to `t`. */
  ghost predicate OwnReason(w: World, s: State, t: State, f: Flags, k: Key, path: seq<Key>) {
    || !Usable(w, k)
    || Culprit(t, k)
    || (FailedNow(t, k) && ((!f.deps && Lacking(w, t, k)) || Uncopied(w, t, k) || Closing(w, s, t, k, path)))
  }

  ghost predicate BlamePath(w: World, s: State, t: State, f: Flags, k: Key, path: seq<Key>) {
    FailedPath(w, t, path) && path[0] == k && OwnReason(w, s, t, f, path[|path| - 1], path)
  }

  /** From `k` a path of FAILED dependencies leads to a resource that failed for a reason of its own. */
  ghost predicate Blamed(w: World, s: State, t: State, f: Flags, k: Key) {
    exists path :: BlamePath(w, s, t, f, k, path)
  }

  lemma BlameSelf(w: World, s: State, t: State, f: Flags, k: Key)
    requires OwnReason(w, s, t, f, k, [k])
    ensures Blamed(w, s, t, f, k)
  {
    assert BlamePath(w, s, t, f, k, [k]);
  }

  /** What was in progress in `s1` is `k` or was in progress in `s`. */
  ghost predicate BusyOnly(s: State, s1: State, k: Option<Key>) {
    forall j :: Busy(s1, j) ==> Busy(s, j) || Some(j) == k
  }

  lemma BlameParent(w: World, s: State, s1: State, t: State, f: Flags, k: Key, d: Key)
    requires Blamed(w, s1, t, f, d) && FailedNow(t, k) && d in KeySet(DepsOf(w, k)) && BusyOnly(s, s1, Some(k))
    ensures Blamed(w, s, t, f, k)
  {
    hide Newest;
    var path :| BlamePath(w, s1, t, f, d, path);
    var longer, last := [k] + path, path[|path| - 1];
    assert longer[1..] == path && longer[|longer| - 1] == last;
    if Closing(w, s1, t, last, path) {
      var c :| c in KeySet(DepsOf(w, last)) && !Done(t, c) && (Busy(s1, c) || c in path);
      assert c in path ==> c in longer;
      assert c == k ==> longer[0] == c;
      assert Closing(w, s, t, last, longer);
    }
    assert BlamePath(w, s, t, f, k, longer);
  }

  lemma BlamedEarlier(w: World, s: State, s1: State, t: State, f: Flags, k: Key)
    requires Blamed(w, s1, t, f, k) && BusyOnly(s, s1, None)
    ensures Blamed(w, s, t, f, k)
  {
    hide Newest, FailedPath;
    var path :| BlamePath(w, s1, t, f, k, path);
    assert BlamePath(w, s, t, f, k, path);
  }

  /** Failing the row of a resource in progress. */
  ghost predicate Fails(t: State, u: State, k: Key) {
    && Busy(t, k) && u == SetStatus(t, Newest(t, k).value, Failed)
    && forall j :: Newest(u, j) == Newest(t, j)
  }

  lemma FailColours(t: State, u: State, k: Key)
    requires Fails(t, u, k)
    ensures forall j :: Done(u, j) == Done(t, j) && HasCopy(u, j) == HasCopy(t, j)
    ensures forall j :: FailedNow(t, j) ==> FailedNow(u, j)
    ensures forall j :: Culprit(t, j) ==> Culprit(u, j)
  {
  }

  lemma {:induction false} FailedPathKept(w: World, t: State, u: State, k: Key, path: seq<Key>)
    requires FailedPath(w, t, path) && Fails(t, u, k)
    ensures FailedPath(w, u, path)
    decreases |path|
  {
    FailColours(t, u, k);
    if |path| > 1 { FailedPathKept(w, t, u, k, path[1..]); }
  }

  lemma BlameKept(w: World, s: State, t: State, u: State, f: Flags, k: Key, d: Key)
    requires Blamed(w, s, t, f, d) && Fails(t, u, k)
    ensures Blamed(w, s, u, f, d)
  {
    var path :| BlamePath(w, s, t, f, d, path);
    FailedPathKept(w, t, u, k, path);
    FailColours(t, u, k);
    hide Newest, FailedPath, Fails;
    assert BlamePath(w, s, u, f, d, path);
  }

  lemma {:induction false} DepLoopBlames(w: World, s: State, list: seq<Resource>, f: Flags)
    requires DepLoop(w, s, list, f).res.Err?
    ensures exists d :: d in KeySet(list) && Blamed(w, s, DepLoop(w, s, list, f).st, f, d)
    decreases |White(w, s)|, if list == [] then 0 else 1, |list|
  {
    hide Frame, Newest, Blamed, Perform;
    assert KeySet(list) == {list[0].key} + KeySet(list[1..]);
    if Settled(s, list[0].key) {
      DepLoopBlames(w, s, list[1..], f);
    } else {
      var one := Perform(w, s, list[0].key, false, f);
      NestedFrame(w, s, one.st, list[0].key);
      if one.res.Ok? {
        DepLoopBlames(w, one.st, list[1..], f);
        var t := DepLoop(w, one.st, list[1..], f).st;
        var d :| d in KeySet(list[1..]) && Blamed(w, one.st, t, f, d);
        StartLeavesNoneBusy(w, s, list[0].key, false, f);
        BlamedEarlier(w, s, one.st, t, f, d);
      } else {
        StartBlames(w, s, list[0].key, false, f);
      }
    }
  }

  /** A dependency loop that returns leaves each listed resource migrated, or it was in progress before. */
  lemma {:induction false} DepLoopLeaves(w: World, s: State, list: seq<Resource>, f: Flags)
    requires DepLoop(w, s, list, f).res.Ok?
    ensures var t := DepLoop(w, s, list, f).st;
      forall j :: j in KeySet(list) ==> Done(t, j) || Busy(s, j)
    decreases |list|
  {
    hide Frame, Newest, Perform;
    if list != [] {
      assert KeySet(list) == {list[0].key} + KeySet(list[1..]);
      if Settled(s, list[0].key) {
        DepLoopLeaves(w, s, list[1..], f);
        DoneStays(s, DepLoop(w, s, list[1..], f).st);
      } else {
        var one := Perform(w, s, list[0].key, false, f);
        var t := DepLoop(w, one.st, list[1..], f).st;
        DepLoopLeaves(w, one.st, list[1..], f);
        StartLeavesNoneBusy(w, s, list[0].key, false, f);
        DoneStays(one.st, t);
      }
    }
  }

  lemma {:induction false} PendingMeaning(s: State, list: seq<Resource>)
    requires Split(s, list).Ok?
    ensures forall r :: r in Split(s, list).value.pending ==> r.key in KeySet(list) && !Done(s, r.key)
    decreases |list|
  {
    if list != [] { PendingMeaning(s, list[1..]); }
  }

  /** The last call was a failed listing of the dependencies of `k`. */
  predicate AskFailed(t: State, k: Key) {
    t.trace != [] && var e := t.trace[|t.trace| - 1]; !e.ok && e.call == AskDeps(k)
  }

  lemma AskBlames(w: World, s: State, k: Key)
    requires AskAssociated(w, s, k).res.Err?
    ensures AskFailed(AskAssociated(w, s, k).st, k) || Uncopied(w, AskAssociated(w, s, k).st, k)
  {
    SplitMeaning(AskAssociated(w, s, k).st, DepsOf(w, k));
  }

  /** Why the manager did not come to call the handler of `k`. */
  lemma {:induction false} ResolveBlames(w: World, s: State, k: Key, f: Flags)
    requires !Done(s, k) && Resolve(w, s, k, f).res.Err?
    ensures var s1, t := Insert(s, NewRow(k)), Resolve(w, s, k, f).st;
      || (exists d :: d in KeySet(DepsOf(w, k)) && Blamed(w, s1, t, f, d))
      || AskFailed(t, k) || Uncopied(w, t, k) || (!f.deps && Lacking(w, t, k)) || Closing(w, s1, t, k, [])
    decreases |White(w, s)|, if Settled(s, k) then 2 else 0, 1
  {
    hide Frame, Newest, Blamed, DepLoop, AskAssociated, Split;
    var s1 := Insert(s, NewRow(k));
    InsertShrinksWhite(w, s, k);
    var a := AskAssociated(w, s1, k);
    if a.res.Err? {
      AskBlames(w, s1, k);
    } else {
      FrameCalls(w, s1, a.st);
      ColoursSame(s1, a.st);
      AskPending(w, s1, k);
      var pending := a.res.value.pending;
      if !f.deps {
        assert !Done(a.st, pending[0].key);
      } else {
        var l := DepLoop(w, a.st, pending, f);
        if l.res.Err? {
          DepLoopBlames(w, a.st, pending, f);
          var d :| d in KeySet(pending) && Blamed(w, a.st, l.st, f, d);
          BlamedEarlier(w, s1, a.st, l.st, f, d);
        } else {
          DepLoopLeaves(w, a.st, pending, f);
          DoneStays(a.st, l.st);
          var b := AskAssociated(w, l.st, k);
          ColoursSame(l.st, b.st);
          if b.res.Err? {
            AskBlames(w, l.st, k);
          } else {
            AskPending(w, l.st, k);
            assert !Done(b.st, b.res.value.pending[0].key);
          }
        }
      }
    }
  }

  /** The pending list holds dependencies that are not migrated, and all of them. */
  lemma AskPending(w: World, s: State, k: Key)
    requires AskAssociated(w, s, k).res.Ok?
    ensures var a := AskAssociated(w, s, k);
      && (forall r :: r in a.res.value.pending ==> r.key in KeySet(DepsOf(w, k)) && !Done(a.st, r.key))
      && KeySet(a.res.value.pending) <= KeySet(DepsOf(w, k))
      && forall d :: d in KeySet(DepsOf(w, k)) && d !in KeySet(a.res.value.pending) ==> Done(a.st, d)
  {
    var a := AskAssociated(w, s, k);
    PendingMeaning(a.st, DepsOf(w, k));
    SplitMeaning(a.st, DepsOf(w, k));
  }

  lemma {:induction false} TryMigrateBlames(w: World, s: State, k: Key, f: Flags)
    requires !Done(s, k) && TryMigrate(w, s, k, f).res.Err?
    ensures Blamed(w, s, TryMigrate(w, s, k, f).st, f, k)
    decreases |White(w, s)|, if Settled(s, k) then 2 else 0, 2
  {
    hide Frame, Resolve, Blamed, Newest, Closing, Lacking, Uncopied;
    var s1, r, p := Insert(s, NewRow(k)), Resolve(w, s, k, f), TryMigrate(w, s, k, f);
    WriteNewRow(s, k, r.st, NewRow(k).(status := Failed));
    InsertBusy(s, k);
    if r.res.Err? {
      ResolveBlames(w, s, k, f);
      assert Fails(r.st, p.st, k);
      if d :| d in KeySet(DepsOf(w, k)) && Blamed(w, s1, r.st, f, d) {
        BlameKept(w, s1, r.st, p.st, f, k, d);
        BlameParent(w, s, s1, p.st, f, k, d);
      } else {
        OwnReasonKept(w, s, s1, r.st, p.st, f, k);
        BlameSelf(w, s, p.st, f, k);
      }
    } else {
      assert Culprit(p.st, k);
      BlameSelf(w, s, p.st, f, k);
    }
  }

  lemma InsertBusy(s: State, k: Key)
    ensures BusyOnly(s, Insert(s, NewRow(k)), Some(k))
  {
    forall j ensures Newest(Insert(s, NewRow(k)), j) == if j == k then Some(s.next) else Newest(s, j) {
      NewestAfterInsert(s, NewRow(k), j);
    }
  }

  lemma OwnReasonKept(w: World, s: State, s1: State, t: State, u: State, f: Flags, k: Key)
    requires Fails(t, u, k) && BusyOnly(s, s1, Some(k))
    requires AskFailed(t, k) || Uncopied(w, t, k) || (!f.deps && Lacking(w, t, k)) || Closing(w, s1, t, k, [])
    ensures OwnReason(w, s, u, f, k, [k])
  {
    FailColours(t, u, k);
    assert FailedNow(u, k);
    hide Newest, Fails;
  }

  /** The copy was created and the members listed, and then the own source or that of a flagged dependency
      could not be deleted. */
  ghost predicate CleanupRaises(w: World, s: State, k: Key, f: Flags)
    requires !Done(s, k)
  {
    var p, c := TryMigrate(w, s, k, f), CleanupStart(w, s, k, f);
    && p.res.Ok? && (f.members ==> !w.raises(p.st.trace, AskMembers(k)))
    && MigratedRows(c, p.res.value) && CleanupStatus(w, c.trace, k, RowKeyList(c, p.res.value)) != Completed
  }

  /** Whatever exception ends a start on an unmigrated resource, it raised in its cleanup, or a path of
      FAILED dependencies leads from its root to a resource that was refused, whose handler call was the
      last and failed, whose dependencies were not to be included or had no copy, or one of whose
      dependencies was in progress before or lies on the path itself, closing a dependency cycle. */
  lemma {:induction false} StartBlames(w: World, s: State, k: Key, cleanup: bool, f: Flags)
    requires !Done(s, k) && Perform(w, s, k, cleanup, f).res.Err?
    ensures Blamed(w, s, Perform(w, s, k, cleanup, f).st, f, k) || (cleanup && CleanupRaises(w, s, k, f))
    decreases |White(w, s)|, if Settled(s, k) then 2 else 0, 3
  {
    hide Frame, Newest, TryMigrate, Blamed, Lacking, Uncopied, Closing, CleanupStart, RowKeyList, CleanupStatus;
    if !Usable(w, k) {
      BlameSelf(w, s, s, f, k);
    } else {
      var p := TryMigrate(w, s, k, f);
      if p.res.Err? {
        TryMigrateBlames(w, s, k, f);
      } else if f.members && w.raises(p.st.trace, AskMembers(k)) {
        var t := SetStatus(p.st, s.next, PendingMembers);
        MarkMigrated(s, p.st, k, p.res.value);
        MembersBlame(w, s, t, k, s.next, p.res.value, cleanup, f);
      } else if cleanup {
        StartCleanupStatusIff(w, s, k, f);
      } else {
        OutcomeIgnoresMembers(w, s, k, f);
      }
    }
  }

  lemma MembersBlame(w: World, s: State, t: State, k: Key, id: nat, deps: seq<nat>, cleanup: bool, f: Flags)
    requires IsNewest(t, k, id) && Done(t, k) && MigratedRows(t, [id] + deps)
    requires f.members && w.raises(t.trace, AskMembers(k))
    ensures Blamed(w, s, Finish(w, t, k, id, deps, cleanup, f).st, f, k)
  {
    hide Blamed, Conclude, MemberLoop, Newest;
    var u := Log(t, AskMembers(k), false, "");
    assert MemberPhase(w, t, k, t.rows[id].dest, cleanup, f) == Outcome(u, Err(HandlerError));
    ColoursSame(t, u);
    assert Culprit(u, k);
    BlameSelf(w, s, u, f, k);
  }

  // ---- A failed source cleanup ----

  /** One of the rows failed; those before it lost their source, those after it are untouched. */
  ghost predicate StoppedCleaning(s: State, t: State, ids: seq<nat>, n: nat) {
    && n < |ids|
    && (forall x :: 0 <= x < |ids| ==> ids[x] in s.rows && ids[x] in t.rows)
    && (forall x :: 0 <= x < n ==> t.rows[ids[x]] == s.rows[ids[x]].(sourceRemoved := true))
    && t.rows[ids[n]] == s.rows[ids[n]].(status := SourceCleanupFailed)
    && (forall x :: n < x < |ids| ==> t.rows[ids[x]] == s.rows[ids[x]])
  }

  predicate Distinct(ids: seq<nat>) {
    forall x, y :: 0 <= x < y < |ids| ==> ids[x] != ids[y]
  }

  lemma CleanupWrites(w: World, s: State, id: nat)
    requires id in s.rows && Usable(w, s.rows[id].key)
    ensures var c := Cleanup(w, s, id);
      var row := s.rows[id];
      c.st.rows == s.rows[id := if c.res.Ok? then row.(sourceRemoved := true) else row.(status := SourceCleanupFailed)]
  {
  }

  lemma {:induction false} CleanupStops(w: World, s: State, ids: seq<nat>)
    requires MigratedRows(s, ids) && Distinct(ids) && forall id :: id in ids ==> Usable(w, s.rows[id].key)
    ensures var r := CleanupAll(w, s, ids);
      if r.res.Err? then exists n :: StoppedCleaning(s, r.st, ids, n)
      else forall x :: 0 <= x < |ids| ==> r.st.rows[ids[x]] == s.rows[ids[x]].(sourceRemoved := true)
    ensures forall id :: id in s.rows && id !in ids ==>
      id in CleanupAll(w, s, ids).st.rows && CleanupAll(w, s, ids).st.rows[id] == s.rows[id]
    decreases |ids|
  {
    hide Newest, Frame;
    if ids != [] {
      var c, tail := Cleanup(w, s, ids[0]), ids[1..];
      CleanupWrites(w, s, ids[0]);
      CleanupFrame(w, s, ids[0], IdSet(ids));
      assert forall x :: 0 <= x < |tail| ==> tail[x] == ids[x + 1];
      var r := CleanupAll(w, s, ids);
      if c.res.Err? {
        assert StoppedCleaning(s, r.st, ids, 0);
      } else {
        CleanupStops(w, c.st, tail);
        assert ids[0] !in tail;
        if r.res.Err? {
          var n :| StoppedCleaning(c.st, r.st, tail, n);
          StopsLater(s, c.st, r.st, ids, n);
        }
      }
    }
  }

  lemma StopsLater(s: State, c: State, t: State, ids: seq<nat>, n: nat)
    requires ids != [] && Distinct(ids) && StoppedCleaning(c, t, ids[1..], n) && ids[0] in s.rows && ids[0] in t.rows
    requires c.rows == s.rows[ids[0] := s.rows[ids[0]].(sourceRemoved := true)] && t.rows[ids[0]] == c.rows[ids[0]]
    ensures StoppedCleaning(s, t, ids, n + 1)
  {
    var tail := ids[1..];
    forall x | 0 < x < |ids|
      ensures ids[x] in s.rows && ids[x] in t.rows && c.rows[ids[x]] == s.rows[ids[x]]
      ensures x < n + 1 ==> t.rows[ids[x]] == s.rows[ids[x]].(sourceRemoved := true)
      ensures x == n + 1 ==> t.rows[ids[x]] == s.rows[ids[x]].(status := SourceCleanupFailed)
      ensures n + 1 < x ==> t.rows[ids[x]] == s.rows[ids[x]]
    {
      assert tail[x - 1] == ids[x];
    }
  }

  lemma ConcludeCleans(w: World, s: State, id: nat, deps: seq<nat>)
    requires MigratedRows(s, [id] + deps) && id in s.rows && Conclude(w, s, id, deps, true).res.Err?
    ensures var s1 := SetStatus(s, id, PendingCleanup);
      && MigratedRows(s1, [id] + deps)
      && CleanupAll(w, s1, [id] + deps).res.Err?
      && Conclude(w, s, id, deps, true).st == CleanupAll(w, s1, [id] + deps).st
  {
    hide Newest, Frame;
  }

  /** The resources of the rows, in order. */
  function RowKeyList(s: State, ids: seq<nat>): seq<Key>
    requires forall id :: id in ids ==> id in s.rows
  {
    if ids == [] then [] else [s.rows[ids[0]].key] + RowKeyList(s, ids[1..])
  }

  /** Of the deletions of these sources, made in turn after the calls `tr`, one raises. */
  predicate DeletionRaises(w: World, tr: seq<Event>, keys: seq<Key>)
    decreases |keys|
  {
    keys != [] && (w.raises(tr, DeleteSource(keys[0]))
      || DeletionRaises(w, tr + [Event(DeleteSource(keys[0]), true, "")], keys[1..]))
  }

  lemma {:induction false} SameKeyList(s: State, t: State, ids: seq<nat>)
    requires forall id :: id in ids ==> id in s.rows && id in t.rows && s.rows[id].key == t.rows[id].key
    ensures RowKeyList(s, ids) == RowKeyList(t, ids)
    decreases |ids|
  {
    if ids != [] { SameKeyList(s, t, ids[1..]); }
  }

  lemma {:induction false} CleanupRaisesIff(w: World, s: State, ids: seq<nat>)
    requires MigratedRows(s, ids) && forall id :: id in ids ==> Usable(w, s.rows[id].key)
    ensures CleanupAll(w, s, ids).res.Err? <==> DeletionRaises(w, s.trace, RowKeyList(s, ids))
    decreases |ids|
  {
    hide Newest, Frame;
    if ids != [] {
      var c := Cleanup(w, s, ids[0]);
      CleanupFrame(w, s, ids[0], IdSet(ids));
      if c.res.Ok? {
        assert MigratedRows(c.st, ids[1..]);
        SameKeyList(s, c.st, ids[1..]);
        CleanupRaisesIff(w, c.st, ids[1..]);
      }
    }
  }

  /** What becomes of the row `id` in a cleanup of its own source and those of `deps`. */
  function CleanupStatus(w: World, tr: seq<Event>, k: Key, deps: seq<Key>): Status {
    if w.raises(tr, DeleteSource(k)) then SourceCleanupFailed
    else if DeletionRaises(w, tr + [Event(DeleteSource(k), true, "")], deps) then PendingCleanup
    else Completed
  }

  /** The cleanup of a start: its row is SOURCE_CLEANUP_FAILED exactly when its own source cannot be
      deleted; PENDING_CLEANUP, its source gone, exactly when that of a dependency cannot; and COMPLETED
      exactly when the start returns. */
  lemma CleanupStatusIff(w: World, s: State, id: nat, deps: seq<nat>)
    requires MigratedRows(s, [id] + deps) && Distinct([id] + deps) && !s.rows[id].sourceRemoved
    requires forall i :: i in [id] + deps ==> Usable(w, s.rows[i].key)
    ensures forall i :: i in deps ==> i in s.rows
    ensures var row, r := s.rows[id], Conclude(w, s, id, deps, true);
      var status := CleanupStatus(w, s.trace, row.key, RowKeyList(s, deps));
      && id in r.st.rows
      && r.st.rows[id] == row.(status := status, sourceRemoved := status != SourceCleanupFailed)
      && (r.res.Ok? <==> status == Completed)
      && (status == PendingCleanup ==>
            exists d :: d in deps && d in r.st.rows && r.st.rows[d].status == SourceCleanupFailed)
  {
    hide Newest, Frame, CleanupAll, DeletionRaises;
    var ids, s1, r := [id] + deps, SetStatus(s, id, PendingCleanup), Conclude(w, s, id, deps, true);
    assert id in ids && MigratedRows(s1, ids) && ids[0] == id && ids[1..] == deps;
    CleanupStops(w, s1, ids);
    CleanupRaisesIff(w, s1, ids);
    DeletionHead(w, s1, ids);
    SameKeyList(s, s1, deps);
    OwnDeletionFirst(w, s1, ids);
    var c := CleanupAll(w, s1, ids);
    if c.res.Err? {
      ConcludeCleans(w, s, id, deps);
      var n: nat :| StoppedCleaning(s1, c.st, ids, n);
      if n > 0 { assert ids[n] == deps[n - 1]; }
    }
  }

  lemma DeletionHead(w: World, s: State, ids: seq<nat>)
    requires MigratedRows(s, ids) && ids != []
    ensures var k := s.rows[ids[0]].key;
      DeletionRaises(w, s.trace, RowKeyList(s, ids)) <==>
        || w.raises(s.trace, DeleteSource(k))
        || DeletionRaises(w, s.trace + [Event(DeleteSource(k), true, "")], RowKeyList(s, ids[1..]))
  {
    assert RowKeyList(s, ids)[1..] == RowKeyList(s, ids[1..]);
  }

  /** The first row is marked when its own deletion raises, and only then. */
  lemma OwnDeletionFirst(w: World, s: State, ids: seq<nat>)
    requires MigratedRows(s, ids) && Distinct(ids) && ids != []
    requires forall id :: id in ids ==> Usable(w, s.rows[id].key)
    ensures var row, own := s.rows[ids[0]], w.raises(s.trace, DeleteSource(s.rows[ids[0]].key));
      && ids[0] in CleanupAll(w, s, ids).st.rows
      && CleanupAll(w, s, ids).st.rows[ids[0]] ==
           if own then row.(status := SourceCleanupFailed) else row.(sourceRemoved := true)
  {
    hide Newest, Frame;
    var c := Cleanup(w, s, ids[0]);
    CleanupFrame(w, s, ids[0], IdSet(ids));
    if c.res.Ok? {
      assert MigratedRows(c.st, ids[1..]);
      assert ids[0] !in ids[1..];
      forall x, y | 0 <= x < y < |ids[1..]| ensures ids[1..][x] != ids[1..][y] {
        assert ids[1..][x] == ids[x + 1] && ids[1..][y] == ids[y + 1];
      }
      CleanupStops(w, c.st, ids[1..]);
    }
  }

  /** Some row of a dependency of `k` flagged for cleanup is SOURCE_CLEANUP_FAILED. */
  ghost predicate FlaggedFailed(w: World, t: State, k: Key) {
    exists id :: id in t.rows && Resource(t.rows[id].key, true) in DepsOf(w, k)
      && t.rows[id].status == SourceCleanupFailed
  }

  /** The state in which a start on an unmigrated resource begins to delete sources. */
  function CleanupStart(w: World, s: State, k: Key, f: Flags): State
    requires !Done(s, k)
  {
    var p := TryMigrate(w, s, k, f);
    var t := SetStatus(p.st, s.next, PendingMembers);
    if f.members then MemberPhase(w, t, k, t.rows[s.next].dest, true, f).st else t
  }

  /** The dependencies whose sources the start is to delete, and that it has rows for. */
  lemma CleanupStartRows(w: World, s: State, k: Key, f: Flags)
    requires !Done(s, k) && Usable(w, k) && TryMigrate(w, s, k, f).res.Ok?
    ensures var p, c := TryMigrate(w, s, k, f), CleanupStart(w, s, k, f);
      var ids := [s.next] + p.res.value;
      && MigratedRows(c, ids) && Distinct(ids) && c.rows[s.next] == MarkedRow(k, p.st.rows[s.next].dest)
      && (forall i :: i in ids ==> Usable(w, c.rows[i].key))
      && (forall i :: i in p.res.value ==> Resource(c.rows[i].key, true) in DepsOf(w, k))
  {
    hide Newest, TryMigrate, Frame, MemberLoop, Once, Image;
    var p := TryMigrate(w, s, k, f);
    var t, ids := SetStatus(p.st, s.next, PendingMembers), [s.next] + p.res.value;
    MarkMigrated(s, p.st, k, p.res.value);
    MarkOwned(w, s, k, f);
    TryMigrateReaches(w, s, k, f);
    OwnedRows(w, s, t, k, s.next, p.res.value);
    FrameCalls(w, t, t);
    RowThrough(t, CleanupStart(w, s, k, f), s.next, p.res.value);
  }

  /** A start with cleanup whose copy was created and whose members were listed: its row is
      SOURCE_CLEANUP_FAILED exactly when its own source cannot be deleted; PENDING_CLEANUP with its source
      gone, and a flagged dependency SOURCE_CLEANUP_FAILED, exactly when it can but that of a flagged
      dependency cannot; and COMPLETED exactly when the start returns. */
  lemma StartCleanupStatusIff(w: World, s: State, k: Key, f: Flags)
    requires !Done(s, k) && Usable(w, k) && TryMigrate(w, s, k, f).res.Ok?
    requires f.members ==> !w.raises(TryMigrate(w, s, k, f).st.trace, AskMembers(k))
    ensures var p, c, r := TryMigrate(w, s, k, f), CleanupStart(w, s, k, f), Perform(w, s, k, true, f);
      && MigratedRows(c, p.res.value)
      && var status := CleanupStatus(w, c.trace, k, RowKeyList(c, p.res.value));
        && s.next in r.st.rows && r.st.rows[s.next].key == k && r.st.rows[s.next].status == status
        && (r.st.rows[s.next].sourceRemoved <==> status != SourceCleanupFailed)
        && (r.res.Ok? <==> status == Completed)
        && (status == PendingCleanup ==> FlaggedFailed(w, r.st, k))
  {
    hide Newest, TryMigrate, Frame, Conclude, MemberLoop, CleanupStatus;
    var p, c := TryMigrate(w, s, k, f), CleanupStart(w, s, k, f);
    CleanupStartRows(w, s, k, f);
    assert Perform(w, s, k, true, f) == Conclude(w, c, s.next, p.res.value, true);
    assert forall i :: i in p.res.value ==> i in [s.next] + p.res.value;
    CleanupStatusIff(w, c, s.next, p.res.value);
    CleanupKeepsKeys(w, c, s.next, p.res.value);
  }

  lemma CleanupKeepsKeys(w: World, s: State, id: nat, deps: seq<nat>)
    requires MigratedRows(s, [id] + deps)
    ensures var t := Conclude(w, s, id, deps, true).st;
      forall i :: i in [id] + deps ==> i in t.rows && t.rows[i].key == s.rows[i].key
  {
    hide Newest, Conclude;
  }

  /** The rows to clean up are distinct, of usable resources, and but for the first of flagged dependencies. */
  lemma OwnedRows(w: World, s: State, t: State, k: Key, id: nat, deps: seq<nat>)
    requires Owned(w, s, t, k, [id] + deps) && Reaches(w, s, t) && t.rows[id].key == k
    ensures Distinct([id] + deps)
    ensures forall i :: i in [id] + deps ==> Usable(w, t.rows[i].key)
    ensures forall i :: i in deps ==> Resource(t.rows[i].key, true) in DepsOf(w, k)
  {
    ReachesImage(w, s, t);
    OwnedCreated(w, s, t, k, [id] + deps);
    hide Newest, Owned;
    var ids := [id] + deps;
    forall i | i in ids ensures Usable(w, t.rows[i].key) {
      var c: nat :| |s.trace| <= c < |t.trace| && CreatedAt(t.trace, c, t.rows[i].key);
      assert ImageAt(w, s, t, c);
    }
    forall i | i in deps ensures Resource(t.rows[i].key, true) in DepsOf(w, k) {
      var x :| 0 <= x < |deps| && deps[x] == i;
      assert ids[x + 1] == i && ids[0] == id;
    }
  }

  predicate Selected(w: World, o: CleanupOptions, row: Row) {
    && row.status == Completed && !row.archived && !row.sourceRemoved
    && (o.service == None || (row.key.rtype in w.types && o.service == Some(w.types[row.key.rtype])))
    && (o.rtype == None || o.rtype == Some(row.key.rtype))
    && (o.sourceId == None || o.sourceId == Some(row.key.id))
  }

  /** cleanup-source, when it returns, marks exactly the rows that are visible, COMPLETED, still have
      their source and fit its options; every other row, one with a failed cleanup included, stays. */
  lemma CleanupSourceMarksExactly(w: World, s: State, o: CleanupOptions)
    requires forall id :: id in s.rows ==> id < s.next && Usable(w, s.rows[id].key)
    requires !o.dryRun && CleanupSource(w, s, o).res.Ok?
    ensures var t := CleanupSource(w, s, o).st;
      forall id :: id in s.rows ==>
        && id in t.rows
        && t.rows[id] == if Selected(w, o, s.rows[id]) then s.rows[id].(sourceRemoved := true) else s.rows[id]
  {
    hide Newest, Frame, CleanupAll;
    var ids := GetMigrations(s.rows, s.next, CleanupFilter(w, o), false);
    assert forall x :: 0 <= x < |ids| ==> ids[x] in ids;
    CleanupStops(w, s, ids);
  }

  /** When a source deletion of cleanup-source raises, all rows before it in its list are done, that
      one is SOURCE_CLEANUP_FAILED, and nothing after it was touched. */
  lemma CleanupSourceStops(w: World, s: State, o: CleanupOptions)
    requires forall id :: id in s.rows ==> id < s.next && Usable(w, s.rows[id].key)
    requires CleanupSource(w, s, o).res.Err? && (!Unfiltered(o) || o.all)
    ensures exists n :: StoppedCleaning(s, CleanupSource(w, s, o).st,
      GetMigrations(s.rows, s.next, CleanupFilter(w, o), false), n)
  {
    hide Newest, Frame, CleanupAll;
    var ids := GetMigrations(s.rows, s.next, CleanupFilter(w, o), false);
    assert forall x :: 0 <= x < |ids| ==> ids[x] in ids;
    CleanupStops(w, s, ids);
  }

  // ---- Cleanup does not wait for members ----

  predicate DeletionAsked(tr: seq<Event>, from: nat, k: Key) {
    exists i :: from <= i < |tr| && tr[i].call == DeleteSource(k)
  }

  /** With cleanup the source of the root is deleted, or tried to be, exactly when its copy was created
      and its members could be listed, whatever became of them. */
  lemma RootDeletionIff(w: World, s: State, k: Key, f: Flags)
    requires !Done(s, k) && Usable(w, k)
    ensures var p := TryMigrate(w, s, k, f);
      DeletionAsked(Perform(w, s, k, true, f).st.trace, |s.trace|, k) <==>
        p.res.Ok? && (f.members ==> !w.raises(p.st.trace, AskMembers(k)))
  {
    hide Newest, TryMigrate, Frame, Conclude, MemberLoop;
    var p := TryMigrate(w, s, k, f);
    TryMigrateDeletesNothing(w, s, k, f);
    if p.res.Ok? {
      var t := SetStatus(p.st, s.next, PendingMembers);
      MarkMigrated(s, p.st, k, p.res.value);
      if f.members ==> !w.raises(p.st.trace, AskMembers(k)) {
        var m := if f.members then MemberPhase(w, t, k, t.rows[s.next].dest, true, f) else Outcome(t, Ok(()));
        FrameCalls(w, t, t);
        RowThrough(t, m.st, s.next, p.res.value);
        ConcludeAsks(w, m.st, s.next, p.res.value, |s.trace|);
      } else {
        var u := Log(t, AskMembers(k), false, "");
        assert MemberPhase(w, t, k, t.rows[s.next].dest, true, f).st == u;
        assert Perform(w, s, k, true, f).st == u;
        NoDeletesCall(t, u, Event(AskMembers(k), false, ""));
        NoDeletesTrans(s, t, u);
        NotAsked(s, u, k);
      }
    } else {
      NotAsked(s, p.st, k);
    }
  }

  lemma NotAsked(s: State, t: State, k: Key)
    requires NoDeletes(s, t)
    ensures !DeletionAsked(t.trace, |s.trace|, k)
  {
    if i :| |s.trace| <= i < |t.trace| && t.trace[i].call == DeleteSource(k) { assert DeleteAt(t.trace, i, k); }
  }

  lemma RowThrough(t: State, u: State, id: nat, deps: seq<nat>)
    requires Frame(t, u, {}, None) && MigratedRows(t, [id] + deps)
    ensures MigratedRows(u, [id] + deps) && id in u.rows && u.rows[id] == t.rows[id] && t.trace <= u.trace
    ensures forall i :: i in [id] + deps ==> u.rows[i] == t.rows[i]
  {
    assert id in [id] + deps;
  }

  lemma ConcludeAsks(w: World, s: State, id: nat, deps: seq<nat>, from: nat)
    requires MigratedRows(s, [id] + deps) && id in s.rows && Usable(w, s.rows[id].key) && from <= |s.trace|
    ensures DeletionAsked(Conclude(w, s, id, deps, true).st.trace, from, s.rows[id].key)
  {
    hide Newest;
    var s1, ids := SetStatus(s, id, PendingCleanup), [id] + deps;
    var c := Cleanup(w, s1, id);
    assert ids[0] == id && MigratedRows(s1, ids);
    assert c.st.trace[|s.trace|].call == DeleteSource(s.rows[id].key);
    CleanupFrame(w, s1, id, IdSet(ids));
    var all := CleanupAll(w, s1, ids);
    assert c.st.trace <= all.st.trace by {
      if c.res.Ok? {
        forall i | i in ids[1..] ensures i in IdSet(ids) { assert i in ids; }
        assert MigratedRows(c.st, ids[1..]);
        assert all == CleanupAll(w, c.st, ids[1..]);
      }
    }
    assert all.st.trace[|s.trace|].call == DeleteSource(s.rows[id].key);
  }
}
