/** How far a start gets on any graph and with any handlers: only along dependency and member edges, and
    only through resources that are neither migrated nor in progress. */
module Reach {
  import opened Store
  import opened World
  import opened Orchestration
  import opened DryRun

  function DepTargets(w: World, f: Flags, k: Key): set<Key> {
    if f.deps then KeySet(DepsOf(w, k)) else {}
  }

  /** What a start of `k` goes on to. */
  function Targets(w: World, f: Flags, k: Key): set<Key> {
    DepTargets(w, f, k) + if f.members then KeySet(MembersOf(w, k)) else {}
  }

  /** Each resource on the path is unsettled and leads to the next. */
  predicate WhitePath(w: World, s: State, f: Flags, path: seq<Key>)
    decreases |path|
  {
    && path != [] && !Settled(s, path[0])
    && (|path| > 1 ==> path[1] in Targets(w, f, path[0]) && WhitePath(w, s, f, path[1..]))
  }

  ghost predicate WhitePathTo(w: World, s: State, f: Flags, roots: set<Key>, path: seq<Key>, j: Key) {
    WhitePath(w, s, f, path) && path[0] in roots && path[|path| - 1] == j
  }

  ghost predicate Reached(w: World, s: State, f: Flags, roots: set<Key>, j: Key) {
    exists path :: WhitePathTo(w, s, f, roots, path, j)
  }

  lemma ReachedRoot(w: World, s: State, f: Flags, roots: set<Key>, j: Key)
    requires j in roots && !Settled(s, j)
    ensures Reached(w, s, f, roots, j)
  {
    assert WhitePathTo(w, s, f, roots, [j], j);
  }

  lemma {:induction false} WhiteBefore(w: World, s: State, t: State, f: Flags, path: seq<Key>)
    requires (forall k :: Settled(s, k) ==> Settled(t, k)) && WhitePath(w, t, f, path)
    ensures WhitePath(w, s, f, path)
    decreases |path|
  {
    if |path| > 1 { WhiteBefore(w, s, t, f, path[1..]); }
  }

  /** What is reached later was reached before, and from more roots. */
  lemma ReachedBefore(w: World, s: State, t: State, f: Flags, roots: set<Key>, roots': set<Key>, j: Key)
    requires (forall k :: Settled(s, k) ==> Settled(t, k)) && roots <= roots' && Reached(w, t, f, roots, j)
    ensures Reached(w, s, f, roots', j)
  {
    var path :| WhitePathTo(w, t, f, roots, path, j);
    WhiteBefore(w, s, t, f, path);
    assert WhitePathTo(w, s, f, roots', path, j);
  }

  lemma ReachedThrough(w: World, s: State, f: Flags, k: Key, roots: set<Key>, j: Key)
    requires !Settled(s, k) && k in roots && Reached(w, s, f, Targets(w, f, k), j)
    ensures Reached(w, s, f, roots, j)
  {
    var path :| WhitePathTo(w, s, f, Targets(w, f, k), path, j);
    assert ([k] + path)[1..] == path;
    assert WhitePathTo(w, s, f, roots, [k] + path, j);
  }

  // ---- New rows and calls stay within reach ----

  ghost predicate Allows(w: World, s: State, f: Flags, roots: set<Key>, own: Option<Key>, j: Key) {
    Some(j) == own || Reached(w, s, f, roots, j)
  }

  /** Create and connect calls. */
  predicate Works(call: Call) {
    call.Create? || call.Connect?
  }

  /** From `s` to `t` rows were added, and create and connect calls made, only for `own` and for resources
      reached from `roots` in `s`. */
  ghost predicate Within(w: World, s: State, t: State, f: Flags, roots: set<Key>, own: Option<Key>) {
    && s.next <= t.next && s.trace <= t.trace
    && (forall id :: s.next <= id < t.next ==> id in t.rows && Allows(w, s, f, roots, own, t.rows[id].key))
    && (forall i: nat :: |s.trace| <= i < |t.trace| && Works(t.trace[i].call) ==>
          Allows(w, s, f, roots, own, t.trace[i].call.key))
  }

  lemma WithinCalls(w: World, s: State, t: State, f: Flags, roots: set<Key>, own: Option<Key>)
    requires s.next == t.next && (t.trace == s.trace || (|t.trace| == |s.trace| + 1 && s.trace <= t.trace))
    requires |s.trace| < |t.trace| ==> (Works(t.trace[|s.trace|].call) ==> Some(t.trace[|s.trace|].call.key) == own)
    ensures Within(w, s, t, f, roots, own)
  {
  }

  lemma WithinTrans(w: World, s: State, t: State, u: State, f: Flags, a: set<Key>, b: set<Key>, all: set<Key>,
          own: Option<Key>, ids: set<nat>, k: Option<Key>)
    requires Within(w, s, t, f, a, own) && Within(w, t, u, f, b, own) && Frame(t, u, ids, k)
    requires (forall j :: Settled(s, j) ==> Settled(t, j)) && a <= all && b <= all
    ensures Within(w, s, u, f, all, own)
  {
    hide Newest, Reached;
    forall j | Allows(w, s, f, a, own, j) || Allows(w, t, f, b, own, j) ensures Allows(w, s, f, all, own, j) {
      if Reached(w, t, f, b, j) { ReachedBefore(w, s, t, f, b, all, j); }
      if Reached(w, s, f, a, j) { ReachedBefore(w, s, s, f, a, all, j); }
    }
    forall id | s.next <= id < u.next ensures id in u.rows && Allows(w, s, f, all, own, u.rows[id].key) {
      if id < t.next { assert u.rows[id].key == t.rows[id].key; }
    }
    forall i: nat | |s.trace| <= i < |u.trace| && Works(u.trace[i].call)
      ensures Allows(w, s, f, all, own, u.trace[i].call.key)
    {
      if i < |t.trace| { assert u.trace[i] == t.trace[i]; }
    }
  }

  lemma {:induction false} DepLoopWithin(w: World, s: State, list: seq<Resource>, f: Flags)
    ensures Within(w, s, DepLoop(w, s, list, f).st, f, KeySet(list), None)
    decreases |White(w, s)|, if list == [] then 0 else 1, |list|
  {
    hide Newest, Frame, Within;
    if list == [] {
      WithinCalls(w, s, s, f, {}, None);
    } else {
      assert KeySet(list) == {list[0].key} + KeySet(list[1..]);
      if Settled(s, list[0].key) {
        DepLoopWithin(w, s, list[1..], f);
        WithinWider(w, s, DepLoop(w, s, list[1..], f).st, f, KeySet(list[1..]), KeySet(list));
      } else {
        var one := Perform(w, s, list[0].key, false, f);
        PerformWithin(w, s, list[0].key, false, f);
        NestedFrame(w, s, one.st, list[0].key);
        if one.res.Ok? {
          var rest := DepLoop(w, one.st, list[1..], f);
          DepLoopWithin(w, one.st, list[1..], f);
          FrameShrinksWhite(w, s, one.st, {}, None);
          WithinTrans(w, s, one.st, rest.st, f, {list[0].key}, KeySet(list[1..]), KeySet(list), None, {}, None);
        } else {
          WithinWider(w, s, one.st, f, {list[0].key}, KeySet(list));
        }
      }
    }
  }

  lemma WithinWider(w: World, s: State, t: State, f: Flags, a: set<Key>, all: set<Key>)
    requires Within(w, s, t, f, a, None) && a <= all
    ensures Within(w, s, t, f, all, None)
  {
    hide Reached;
    forall j | Reached(w, s, f, a, j) ensures Reached(w, s, f, all, j) { ReachedBefore(w, s, s, f, a, all, j); }
  }

  lemma {:induction false} PendingWithin(s: State, list: seq<Resource>)
    requires Split(s, list).Ok?
    ensures KeySet(Split(s, list).value.pending) <= KeySet(list)
    decreases |list|
  {
    if list != [] { PendingWithin(s, list[1..]); }
  }

  lemma {:induction false} ResolveWithin(w: World, s: State, k: Key, f: Flags)
    requires !Done(s, k)
    ensures Within(w, Insert(s, NewRow(k)), Resolve(w, s, k, f).st, f, DepTargets(w, f, k), None)
    decreases |White(w, s)|, if Settled(s, k) then 2 else 0, 1
  {
    hide Newest, Frame, Within, Split;
    var s1 := Insert(s, NewRow(k));
    InsertShrinksWhite(w, s, k);
    var a := AskAssociated(w, s1, k);
    WithinCalls(w, s1, a.st, f, DepTargets(w, f, k), None);
    FrameCalls(w, s1, a.st);
    FrameShrinksWhite(w, s1, a.st, {}, None);
    if a.res.Ok? && a.res.value.pending != [] && f.deps {
      var l := DepLoop(w, a.st, a.res.value.pending, f);
      DepLoopWithin(w, a.st, a.res.value.pending, f);
      PendingWithin(a.st, DepsOf(w, k));
      WithinTrans(w, s1, a.st, l.st, f, DepTargets(w, f, k), KeySet(a.res.value.pending), DepTargets(w, f, k), None,
        {}, None);
      FrameTrans(s1, a.st, l.st, {}, {}, None, None);
      FrameShrinksWhite(w, s1, l.st, {}, None);
      var b := AskAssociated(w, l.st, k);
      WithinCalls(w, l.st, b.st, f, DepTargets(w, f, k), None);
      FrameCalls(w, l.st, b.st);
      WithinTrans(w, s1, l.st, b.st, f, DepTargets(w, f, k), DepTargets(w, f, k), DepTargets(w, f, k), None, {}, None);
    }
  }

  lemma {:induction false} TryMigrateWithin(w: World, s: State, k: Key, f: Flags)
    requires !Done(s, k)
    ensures Within(w, Insert(s, NewRow(k)), TryMigrate(w, s, k, f).st, f, Targets(w, f, k), Some(k))
    decreases |White(w, s)|, if Settled(s, k) then 2 else 0, 2
  {
    hide Newest, Frame, Reached, Resolve;
    var s1, r := Insert(s, NewRow(k)), Resolve(w, s, k, f);
    ResolveWithin(w, s, k, f);
    WithinWider(w, s1, r.st, f, DepTargets(w, f, k), Targets(w, f, k));
  }

  lemma {:induction false} MemberLoopWithin(w: World, s: State, list: seq<Resource>, cleanup: bool, f: Flags)
    ensures Within(w, s, MemberLoop(w, s, list, cleanup, f).0, f, KeySet(list), None)
    decreases |White(w, s)|, if list == [] then 0 else 1, |list|
  {
    hide Newest, Frame, Within;
    if list == [] {
      WithinCalls(w, s, s, f, {}, None);
    } else {
      assert KeySet(list) == {list[0].key} + KeySet(list[1..]);
      if Settled(s, list[0].key) {
        MemberLoopWithin(w, s, list[1..], cleanup, f);
        WithinWider(w, s, MemberLoop(w, s, list[1..], cleanup, f).0, f, KeySet(list[1..]), KeySet(list));
      } else {
        var one := Perform(w, s, list[0].key, cleanup, f);
        PerformWithin(w, s, list[0].key, cleanup, f);
        NestedFrame(w, s, one.st, list[0].key);
        var rest := MemberLoop(w, one.st, list[1..], cleanup, f);
        MemberLoopWithin(w, one.st, list[1..], cleanup, f);
        FrameShrinksWhite(w, s, one.st, {}, None);
        WithinTrans(w, s, one.st, rest.0, f, {list[0].key}, KeySet(list[1..]), KeySet(list), None, {}, None);
      }
    }
  }

  lemma WithinOwn(w: World, s: State, t: State, f: Flags, roots: set<Key>, k: Key)
    requires Within(w, s, t, f, roots, None)
    ensures Within(w, s, t, f, roots, Some(k))
  {
  }

  lemma {:induction false} MemberPhaseWithin(w: World, s: State, k: Key, parent: string, cleanup: bool, f: Flags)
    ensures Within(w, s, MemberPhase(w, s, k, parent, cleanup, f).st, f, KeySet(MembersOf(w, k)), Some(k))
    decreases |White(w, s)|, if MembersOf(w, k) == [] then 0 else 1, |MembersOf(w, k)| + 1
  {
    hide Newest, Frame, Within, MemberLoop;
    var roots, own := KeySet(MembersOf(w, k)), Some(k);
    if w.raises(s.trace, AskMembers(k)) {
      WithinCalls(w, s, Log(s, AskMembers(k), false, ""), f, roots, own);
    } else {
      var s1 := Log(s, AskMembers(k), true, "");
      WithinCalls(w, s, s1, f, roots, own);
      FrameCalls(w, s, s1);
      FrameShrinksWhite(w, s, s1, {}, None);
      var m := MemberLoop(w, s1, MembersOf(w, k), cleanup, f);
      MemberLoopWithin(w, s1, MembersOf(w, k), cleanup, f);
      WithinOwn(w, s1, m.0, f, roots, k);
      WithinTrans(w, s, s1, m.0, f, roots, roots, roots, own, {}, None);
      FrameTrans(s, s1, m.0, {}, {}, None, None);
      FrameShrinksWhite(w, s, m.0, {}, None);
      var t := CallConnect(w, m.0, k, parent, m.1);
      WithinCalls(w, m.0, t, f, roots, own);
      FrameCalls(w, m.0, t);
      WithinTrans(w, s, m.0, t, f, roots, roots, roots, own, {}, None);
    }
  }

  lemma {:induction false} CleanupAllCalls(w: World, s: State, ids: seq<nat>)
    requires MigratedRows(s, ids)
    ensures var t := CleanupAll(w, s, ids).st;
      s.trace <= t.trace && forall i :: |s.trace| <= i < |t.trace| ==> t.trace[i].call.DeleteSource?
    decreases |ids|
  {
    hide Newest, Frame;
    if ids != [] {
      CleanupFrame(w, s, ids[0], IdSet(ids));
      var c := Cleanup(w, s, ids[0]);
      assert s.trace <= c.st.trace && forall i :: |s.trace| <= i < |c.st.trace| ==> c.st.trace[i].call.DeleteSource?;
      if c.res.Ok? {
        forall i | i in ids[1..] ensures i in IdSet(ids) { assert i in ids; }
        CleanupAllCalls(w, c.st, ids[1..]);
      }
    }
  }

  lemma ConcludeWithin(w: World, s: State, id: nat, deps: seq<nat>, cleanup: bool, f: Flags, roots: set<Key>,
          own: Option<Key>)
    requires MigratedRows(s, [id] + deps)
    ensures Within(w, s, Conclude(w, s, id, deps, cleanup).st, f, roots, own)
  {
    hide Newest, Frame, Reached;
    var ids := [id] + deps;
    assert id in ids;
    if cleanup { CleanupAllCalls(w, SetStatus(s, id, PendingCleanup), ids); }
  }

  lemma {:induction false} FinishWithin(w: World, s: State, k: Key, id: nat, deps: seq<nat>, cleanup: bool, f: Flags)
    requires IsNewest(s, k, id) && MigratedRows(s, [id] + deps)
    ensures Within(w, s, Finish(w, s, k, id, deps, cleanup, f).st, f, Targets(w, f, k), Some(k))
    decreases |White(w, s)|, if MembersOf(w, k) == [] then 0 else 1, |MembersOf(w, k)| + 2
  {
    hide Newest, Within, MemberPhase, Conclude, Reached;
    if !f.members {
      ConcludeWithin(w, s, id, deps, cleanup, f, Targets(w, f, k), Some(k));
    } else {
      var all := Targets(w, f, k);
      var m := MemberPhase(w, s, k, s.rows[id].dest, cleanup, f);
      MemberPhaseWithin(w, s, k, s.rows[id].dest, cleanup, f);
      FrameShrinksWhite(w, s, m.st, {}, None);
      if m.res.Err? {
        WithinCalls(w, s, s, f, all, Some(k));
        WithinTrans(w, s, s, m.st, f, all, KeySet(MembersOf(w, k)), all, Some(k), {}, None);
      } else {
        var c := Conclude(w, m.st, id, deps, cleanup);
        ConcludeWithin(w, m.st, id, deps, cleanup, f, all, Some(k));
        WithinTrans(w, s, m.st, c.st, f, KeySet(MembersOf(w, k)), all, all, Some(k), IdSet([id] + deps), None);
      }
    }
  }

  /** A start on an unmigrated resource, on any graph and whatever the handlers do: once its own row is
      in, rows are added, and create and connect calls made, only for itself and for resources reached
      from its dependencies and members through unsettled ones, so never through itself. */
  lemma {:induction false} StartWithin(w: World, s: State, k: Key, cleanup: bool, f: Flags)
    requires !Done(s, k) && Usable(w, k)
    ensures Within(w, Insert(s, NewRow(k)), Perform(w, s, k, cleanup, f).st, f, Targets(w, f, k), Some(k))
    decreases |White(w, s)|, if Settled(s, k) then 2 else 0, 3
  {
    hide Newest, Frame, Within, TryMigrate, Finish;
    var s1, all := Insert(s, NewRow(k)), Targets(w, f, k);
    TryMigrateWithin(w, s, k, f);
    var p := TryMigrate(w, s, k, f);
    if p.res.Ok? {
      var t := SetStatus(p.st, s.next, PendingMembers);
      MarkMigrated(s, p.st, k, p.res.value);
      EnterFinish(w, s, t, k);
      FinishWithin(w, t, k, s.next, p.res.value, cleanup, f);
      WithinMarked(w, s1, p.st, s.next, f, all, Some(k));
      MarkKeepsSettled(w, s, k, f);
      WithinTrans(w, s1, t, Finish(w, t, k, s.next, p.res.value, cleanup, f).st, f, all, all, all, Some(k),
        IdSet([s.next] + p.res.value), None);
    }
  }

  lemma WithinMarked(w: World, s: State, t: State, id: nat, f: Flags, roots: set<Key>, own: Option<Key>)
    requires Within(w, s, t, f, roots, own) && id in t.rows
    ensures Within(w, s, SetStatus(t, id, PendingMembers), f, roots, own)
  {
    hide Reached;
  }

  /** What is settled once the new row is in stays settled when it is marked migrated. */
  lemma MarkKeepsSettled(w: World, s: State, k: Key, f: Flags)
    requires !Done(s, k) && TryMigrate(w, s, k, f).res.Ok?
    ensures var t := SetStatus(TryMigrate(w, s, k, f).st, s.next, PendingMembers);
      forall j :: Settled(Insert(s, NewRow(k)), j) ==> Settled(t, j)
  {
    hide TryMigrate, Newest, Frame;
    var p := TryMigrate(w, s, k, f);
    var t := SetStatus(p.st, s.next, PendingMembers);
    MarkMigrated(s, p.st, k, p.res.value);
    FrameShrinksWhite(w, s, t, {}, Some(k));
    InsertKeepsSettled(s, k);
  }

  /** A nested start, on an unsettled resource. */
  lemma {:induction false} PerformWithin(w: World, s: State, k: Key, cleanup: bool, f: Flags)
    requires !Settled(s, k)
    ensures Within(w, s, Perform(w, s, k, cleanup, f).st, f, {k}, None)
    decreases |White(w, s)|, if Settled(s, k) then 2 else 0, 4
  {
    hide Newest, Frame, Perform;
    var t := Perform(w, s, k, cleanup, f).st;
    if !Usable(w, k) {
      PerformRefused(w, s, k, cleanup, f);
    } else {
      StartWithin(w, s, k, cleanup, f);
      FromRoot(w, s, t, k, f);
      OwnRowIsFirst(w, s, k, cleanup, f);
    }
  }

  lemma PerformRefused(w: World, s: State, k: Key, cleanup: bool, f: Flags)
    requires !Usable(w, k)
    ensures Perform(w, s, k, cleanup, f) == Outcome(s, Err(InvalidInput))
  {
  }

  lemma OwnRowIsFirst(w: World, s: State, k: Key, cleanup: bool, f: Flags)
    requires !Done(s, k) && Usable(w, k)
    ensures var t := Perform(w, s, k, cleanup, f).st; s.next < t.next && s.next in t.rows && t.rows[s.next].key == k
  {
    hide TryMigrate;
    var p := TryMigrate(w, s, k, f);
    if p.res.Ok? {
      var t := SetStatus(p.st, s.next, PendingMembers);
      MarkMigrated(s, p.st, k, p.res.value);
      LeaveFinish(s, t, Finish(w, t, k, s.next, p.res.value, cleanup, f).st, k, s.next, p.res.value);
    }
  }

  lemma FromRoot(w: World, s: State, t: State, k: Key, f: Flags)
    requires !Settled(s, k) && Within(w, Insert(s, NewRow(k)), t, f, Targets(w, f, k), Some(k))
    ensures forall j :: Allows(w, Insert(s, NewRow(k)), f, Targets(w, f, k), Some(k), j) ==> Reached(w, s, f, {k}, j)
  {
    var s1 := Insert(s, NewRow(k));
    hide Reached;
    InsertKeepsSettled(s, k);
    forall j | Allows(w, s1, f, Targets(w, f, k), Some(k), j) ensures Reached(w, s, f, {k}, j) {
      if j == k {
        ReachedRoot(w, s, f, {k}, k);
      } else {
        ReachedBefore(w, s, s1, f, Targets(w, f, k), Targets(w, f, k), j);
        ReachedThrough(w, s, f, k, {k}, j);
      }
    }
  }

  lemma InsertKeepsSettled(s: State, k: Key)
    ensures forall j :: Settled(Insert(s, NewRow(k)), j) <==> Settled(s, j) || j == k
    ensures forall j :: Done(Insert(s, NewRow(k)), j) <==> Done(s, j) && j != k
  {
    forall j ensures Newest(Insert(s, NewRow(k)), j) == if j == k then Some(s.next) else Newest(s, j) {
      NewestAfterInsert(s, NewRow(k), j);
    }
  }

  // ---- What is not reached is left alone ----

  /** A resource out of reach keeps its newest row, migrated or not. */
  lemma UnreachedStays(w: World, s: State, t: State, f: Flags, roots: set<Key>, own: Option<Key>, ids: set<nat>,
          k: Option<Key>, j: Key)
    requires Within(w, s, t, f, roots, own) && Frame(s, t, ids, k) && !Allows(w, s, f, roots, own, j)
    ensures Newest(t, j) == Newest(s, j) && Done(t, j) == Done(s, j) && Busy(t, j) == Busy(s, j)
  {
    hide Reached;
    var x, y := Newest(s, j), Newest(t, j);
    forall id: nat | id < t.next && Shows(t.rows, id, j) ensures id < s.next && Shows(s.rows, id, j) {
      if id < s.next { assert id in s.rows; }
    }
    if x.Some? { assert Shows(t.rows, x.value, j); }
    if y.Some? { assert Shows(s.rows, y.value, j); }
  }

  // ---- In terms of the unmigrated part of the graph ----

  lemma {:induction false} WhiteIsUnmigrated(w: World, s: State, f: Flags, path: seq<Key>)
    requires WhitePath(w, s, f, path)
    ensures IsPath(w, s, f, path)
    decreases |path|
  {
    if |path| > 1 { WhiteIsUnmigrated(w, s, f, path[1..]); }
  }

  lemma {:induction false} PathBefore(w: World, s: State, t: State, f: Flags, path: seq<Key>)
    requires (forall k :: Done(s, k) ==> Done(t, k)) && IsPath(w, t, f, path)
    ensures IsPath(w, s, f, path)
    decreases |path|
  {
    if |path| > 1 { PathBefore(w, s, t, f, path[1..]); }
  }

  lemma ReachedIsReachable(w: World, s: State, k: Key, f: Flags, j: Key)
    requires !Done(s, k) && Allows(w, Insert(s, NewRow(k)), f, Targets(w, f, k), Some(k), j)
    ensures Reachable(w, s, f, k, j)
  {
    var s1 := Insert(s, NewRow(k));
    InsertKeepsSettled(s, k);
    hide Newest;
    if j == k {
      assert PathFromTo(w, s, f, [k], k, j);
    } else {
      var path :| WhitePathTo(w, s1, f, Targets(w, f, k), path, j);
      WhiteIsUnmigrated(w, s1, f, path);
      forall i | Done(s, i) ensures Done(s1, i) { }
      PathBefore(w, s, s1, f, path);
      assert ([k] + path)[1..] == path;
      assert PathFromTo(w, s, f, [k] + path, k, j);
    }
  }

  /** So every new row and every create call of the start is for a resource reachable from its root
      through unmigrated ones. */
  lemma StartStaysInReach(w: World, s: State, k: Key, cleanup: bool, f: Flags)
    requires !Done(s, k)
    ensures var t := Perform(w, s, k, cleanup, f).st;
      && (forall id :: s.next <= id < t.next ==> id in t.rows && Reachable(w, s, f, k, t.rows[id].key))
      && (forall i: nat :: |s.trace| <= i < |t.trace| && t.trace[i].call.Create? ==>
            Reachable(w, s, f, k, t.trace[i].call.key))
  {
    hide Perform, Newest, Frame, Reachable, Reached;
    if !Usable(w, k) {
      PerformRefused(w, s, k, cleanup, f);
    } else {
      var t := Perform(w, s, k, cleanup, f).st;
      StartWithin(w, s, k, cleanup, f);
      OwnRowIsFirst(w, s, k, cleanup, f);
      forall j | Allows(w, Insert(s, NewRow(k)), f, Targets(w, f, k), Some(k), j) ensures Reachable(w, s, f, k, j) {
        ReachedIsReachable(w, s, k, f, j);
      }
    }
  }
}
