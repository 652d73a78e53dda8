/** Which source deletions a start may issue. */
module Deletions {
  import opened Store
  import opened World
  import opened Orchestration
  import opened Steps
  import opened Safety
  import opened Reach
  import opened Closure

  predicate DeleteAt(tr: seq<Event>, i: nat, d: Key) {
    i < |tr| && tr[i].call == DeleteSource(d)
  }

  /** The calls from `s` to `t` delete nothing. */
  ghost predicate NoDeletes(s: State, t: State) {
    s.trace <= t.trace && forall i: nat, d :: |s.trace| <= i ==> !DeleteAt(t.trace, i, d)
  }

  lemma NoDeletesTrans(s: State, t: State, u: State)
    requires NoDeletes(s, t) && NoDeletes(t, u)
    ensures NoDeletes(s, u)
  {
    forall i: nat, d | |s.trace| <= i ensures !DeleteAt(u.trace, i, d) {
      assert i < |t.trace| ==> !DeleteAt(t.trace, i, d);
    }
  }

  /** At most one call was made, and it is no deletion. */
  lemma NoDeletesCall(s: State, t: State, e: Event)
    requires t.trace == s.trace || t.trace == s.trace + [e]
    requires !e.call.DeleteSource?
    ensures NoDeletes(s, t)
  {
  }

  // ---- Without --cleanup-source ----

  lemma {:induction false} DepLoopDeletesNothing(w: World, s: State, list: seq<Resource>, f: Flags)
    ensures NoDeletes(s, DepLoop(w, s, list, f).st)
    decreases |White(w, s)|, if list == [] then 0 else 1, |list|
  {
    hide Newest, Frame;
    if list != [] {
      if Settled(s, list[0].key) {
        DepLoopDeletesNothing(w, s, list[1..], f);
      } else {
        var one := Perform(w, s, list[0].key, false, f);
        StartDeletesNothing(w, s, list[0].key, f);
        NestedFrame(w, s, one.st, list[0].key);
        if one.res.Ok? {
          DepLoopDeletesNothing(w, one.st, list[1..], f);
          NoDeletesTrans(s, one.st, DepLoop(w, one.st, list[1..], f).st);
        }
      }
    }
  }

  lemma {:induction false} ResolveDeletesNothing(w: World, s: State, k: Key, f: Flags)
    requires !Done(s, k)
    ensures NoDeletes(s, Resolve(w, s, k, f).st)
    decreases |White(w, s)|, if Settled(s, k) then 2 else 0, 1
  {
    hide Newest, Frame, Split;
    var s1 := Insert(s, NewRow(k));
    InsertShrinksWhite(w, s, k);
    var a := AskAssociated(w, s1, k);
    NoDeletesCall(s, a.st, Event(AskDeps(k), !w.raises(s1.trace, AskDeps(k)), ""));
    if a.res.Ok? && a.res.value.pending != [] && f.deps {
      FrameCalls(w, s1, a.st);
      DepLoopDeletesNothing(w, a.st, a.res.value.pending, f);
      var l := DepLoop(w, a.st, a.res.value.pending, f);
      NoDeletesTrans(s, a.st, l.st);
      var b := AskAssociated(w, l.st, k);
      NoDeletesCall(l.st, b.st, Event(AskDeps(k), !w.raises(l.st.trace, AskDeps(k)), ""));
      NoDeletesTrans(s, l.st, b.st);
    }
  }

  lemma {:induction false} TryMigrateDeletesNothing(w: World, s: State, k: Key, f: Flags)
    requires !Done(s, k)
    ensures NoDeletes(s, TryMigrate(w, s, k, f).st)
    decreases |White(w, s)|, if Settled(s, k) then 2 else 0, 2
  {
    hide Newest, Frame, Resolve;
    ResolveDeletesNothing(w, s, k, f);
    var r, p := Resolve(w, s, k, f), TryMigrate(w, s, k, f);
    if r.res.Ok? {
      var c := CallCreate(w, r.st, k, r.res.value.given);
      NoDeletesCall(r.st, p.st, c.st.trace[|r.st.trace|]);
      NoDeletesTrans(s, r.st, p.st);
    }
  }

  lemma {:induction false} MemberLoopDeletesNothing(w: World, s: State, list: seq<Resource>, f: Flags)
    ensures NoDeletes(s, MemberLoop(w, s, list, false, f).0)
    decreases |White(w, s)|, if list == [] then 0 else 1, |list|
  {
    hide Newest, Frame;
    if list != [] {
      if Settled(s, list[0].key) {
        MemberLoopDeletesNothing(w, s, list[1..], f);
      } else {
        var one := Perform(w, s, list[0].key, false, f);
        StartDeletesNothing(w, s, list[0].key, f);
        NestedFrame(w, s, one.st, list[0].key);
        MemberLoopDeletesNothing(w, one.st, list[1..], f);
        NoDeletesTrans(s, one.st, MemberLoop(w, one.st, list[1..], false, f).0);
      }
    }
  }

  lemma {:induction false} FinishDeletesNothing(w: World, s: State, k: Key, id: nat, deps: seq<nat>, f: Flags)
    requires IsNewest(s, k, id) && MigratedRows(s, [id] + deps)
    ensures NoDeletes(s, Finish(w, s, k, id, deps, false, f).st)
    decreases |White(w, s)|, if MembersOf(w, k) == [] then 0 else 1, |MembersOf(w, k)| + 2
  {
    hide Newest, Frame;
    if f.members {
      var s1 := Log(s, AskMembers(k), true, "");
      FrameCalls(w, s, s1);
      MemberLoopDeletesNothing(w, s1, MembersOf(w, k), f);
      var m := MemberLoop(w, s1, MembersOf(w, k), false, f);
      NoDeletesCall(s, s1, Event(AskMembers(k), true, ""));
      NoDeletesTrans(s, s1, m.0);
      var t := CallConnect(w, m.0, k, s.rows[id].dest, m.1);
      NoDeletesCall(m.0, t, t.trace[|m.0.trace|]);
      NoDeletesTrans(s, m.0, t);
    }
  }

  /** Without --cleanup-source no source is deleted. */
  lemma {:induction false} StartDeletesNothing(w: World, s: State, k: Key, f: Flags)
    ensures NoDeletes(s, Perform(w, s, k, false, f).st)
    decreases |White(w, s)|, if Settled(s, k) then 2 else 0, 3
  {
    hide Frame, TryMigrate;
    if Usable(w, k) {
      if Done(s, k) {
        var t := SetStatus(s, Newest(s, k).value, PendingMembers);
        MarkAgain(s, k);
        EnterFinish(w, s, t, k);
        FinishDeletesNothing(w, t, k, Newest(s, k).value, [], f);
        assert t.trace == s.trace;
      } else {
        var p := TryMigrate(w, s, k, f);
        TryMigrateDeletesNothing(w, s, k, f);
        if p.res.Ok? {
          var t := SetStatus(p.st, s.next, PendingMembers);
          MarkMigrated(s, p.st, k, p.res.value);
          EnterFinish(w, s, t, k);
          FinishDeletesNothing(w, t, k, s.next, p.res.value, f);
          NoDeletesTrans(s, t, Finish(w, t, k, s.next, p.res.value, false, f).st);
        }
      }
    }
  }

  // ---- With --cleanup-source ----

  /** Each resource on the path is a member of the one before. */
  predicate MemberPath(w: World, path: seq<Key>)
    decreases |path|
  {
    path != [] && (|path| > 1 ==> path[1] in KeySet(MembersOf(w, path[0])) && MemberPath(w, path[1..]))
  }

  function Last(path: seq<Key>): Key
    requires path != []
  {
    path[|path| - 1]
  }

  /** `d` is `m`, created by call `i`, or a direct dependency of `m` flagged for cleanup that was created
      between call `from` and that one. */
  ghost predicate OwnedBy(w: World, tr: seq<Event>, from: nat, i: nat, m: Key, d: Key) {
    d == m || (Resource(d, true) in DepsOf(w, m) && CreatedIn(tr, from, i, d))
  }

  /** From call `from` on the resources of the path were created in its order, and `d` belongs to the last
      of them: if it is a dependency of that one, it was created after the one before. */
  ghost predicate Rising(w: World, tr: seq<Event>, from: nat, d: Key, path: seq<Key>)
    decreases |path|, 1
  {
    path != [] && exists i: nat :: from <= i && CreatedAt(tr, i, path[0]) && RisingOn(w, tr, from, i, d, path)
  }

  ghost predicate RisingOn(w: World, tr: seq<Event>, from: nat, i: nat, d: Key, path: seq<Key>)
    requires path != []
    decreases |path|, 0
  {
    if |path| == 1 then OwnedBy(w, tr, from, i, path[0], d) else Rising(w, tr, i + 1, d, path[1..])
  }

  /** `d` belongs to a resource reached from `roots` along member edges, all of them created since `from`,
      each after the one before it. */
  ghost predicate InScope(w: World, roots: set<Key>, tr: seq<Event>, from: nat, d: Key) {
    exists path :: ScopePath(w, roots, tr, from, d, path)
  }

  ghost predicate ScopePath(w: World, roots: set<Key>, tr: seq<Event>, from: nat, d: Key, path: seq<Key>) {
    MemberPath(w, path) && path[0] in roots && Rising(w, tr, from, d, path)
  }

  /** Every deletion from `s` to `t` is in scope, comes after the resource's creation in the same
      span, and is not repeated. */
  ghost predicate Scoped(w: World, s: State, t: State, roots: set<Key>) {
    && s.trace <= t.trace
    && forall i: nat, d :: |s.trace| <= i && DeleteAt(t.trace, i, d) ==>
         && InScope(w, roots, t.trace, |s.trace|, d)
         && CreatedIn(t.trace, |s.trace|, i, d)
         && forall j: nat :: i < j ==> !DeleteAt(t.trace, j, d)
  }

  lemma RisingCons(w: World, tr: seq<Event>, from: nat, i: nat, d: Key, k: Key, path: seq<Key>)
    requires from <= i && CreatedAt(tr, i, k) && Rising(w, tr, i + 1, d, path)
    ensures Rising(w, tr, from, d, [k] + path)
  {
    var longer := [k] + path;
    assert longer[1..] == path && CreatedAt(tr, i, longer[0]) && RisingOn(w, tr, from, i, d, longer);
  }

  lemma {:induction false} RisingGrows(w: World, a: seq<Event>, b: seq<Event>, from: nat, from': nat, d: Key,
          path: seq<Key>)
    requires Rising(w, a, from, d, path) && a <= b && from' <= from
    ensures Rising(w, b, from', d, path)
    decreases |path|
  {
    var i: nat :| from <= i && CreatedAt(a, i, path[0]) && RisingOn(w, a, from, i, d, path);
    if |path| == 1 {
      if d != path[0] {
        CreatedExtends(a, b, from, i, i, d);
        var c: nat :| from <= c < i && CreatedAt(b, c, d);
      }
    } else {
      RisingGrows(w, a, b, i + 1, i + 1, d, path[1..]);
    }
    assert CreatedAt(b, i, path[0]) && RisingOn(w, b, from', i, d, path);
  }

  lemma InScopeGrows(w: World, roots: set<Key>, roots': set<Key>, a: seq<Event>, b: seq<Event>, from: nat, from': nat,
          d: Key)
    requires InScope(w, roots, a, from, d) && roots <= roots' && a <= b && from' <= from
    ensures InScope(w, roots', b, from', d)
  {
    var path :| ScopePath(w, roots, a, from, d, path);
    RisingGrows(w, a, b, from, from', d, path);
    assert ScopePath(w, roots', b, from', d, path);
  }

  lemma ScopedTrans(w: World, s: State, t: State, u: State, roots: set<Key>, roots': set<Key>, all: set<Key>)
    requires Scoped(w, s, t, roots) && Scoped(w, t, u, roots') && roots <= all && roots' <= all
    requires Once(s, t) && Once(t, u)
    ensures Scoped(w, s, u, all)
  {
    forall i: nat, d | |s.trace| <= i && DeleteAt(u.trace, i, d)
      ensures InScope(w, all, u.trace, |s.trace|, d)
      ensures CreatedIn(u.trace, |s.trace|, i, d)
      ensures forall j: nat :: i < j ==> !DeleteAt(u.trace, j, d)
    {
      if i < |t.trace| {
        assert DeleteAt(t.trace, i, d);
        InScopeGrows(w, roots, all, t.trace, u.trace, |s.trace|, |s.trace|, d);
        CreatedExtends(t.trace, u.trace, |s.trace|, i, i, d);
        var c: nat :| |s.trace| <= c < i && CreatedAt(t.trace, c, d);
        assert Done(t, d);
        forall j: nat | i < j ensures !DeleteAt(u.trace, j, d) {
          if j < |t.trace| { assert !DeleteAt(t.trace, j, d); }
        }
      } else {
        InScopeGrows(w, roots', all, u.trace, u.trace, |t.trace|, |s.trace|, d);
        CreatedExtends(u.trace, u.trace, |t.trace|, i, i, d);
      }
    }
  }

  lemma NoDeletesScoped(w: World, s: State, t: State, roots: set<Key>)
    requires NoDeletes(s, t)
    ensures Scoped(w, s, t, roots)
  {
  }

  /** What is in scope of the members of `k` is in scope of `k`, if it was created before. */
  lemma InScopeOfParent(w: World, k: Key, tr: seq<Event>, from: nat, mid: nat, d: Key)
    requires InScope(w, KeySet(MembersOf(w, k)), tr, mid, d) && mid <= |tr| && CreatedIn(tr, from, mid, k)
    ensures InScope(w, {k}, tr, from, d)
  {
    var path :| ScopePath(w, KeySet(MembersOf(w, k)), tr, mid, d, path);
    var i: nat :| from <= i < mid && CreatedAt(tr, i, k);
    RisingGrows(w, tr, tr, mid, i + 1, d, path);
    assert ([k] + path)[1..] == path;
    RisingCons(w, tr, from, i, d, k, path);
    assert ScopePath(w, {k}, tr, from, d, [k] + path);
  }

  /** The span in which `k` was created, followed by that of its members. */
  lemma ScopedUp(w: World, s0: State, s: State, t: State, k: Key)
    requires Scoped(w, s, t, KeySet(MembersOf(w, k))) && NoDeletes(s0, s)
    requires CreatedIn(s.trace, |s0.trace|, |s.trace|, k)
    ensures Scoped(w, s0, t, {k})
  {
    forall i: nat, d | |s0.trace| <= i && DeleteAt(t.trace, i, d)
      ensures InScope(w, {k}, t.trace, |s0.trace|, d) && CreatedIn(t.trace, |s0.trace|, i, d)
      ensures forall j: nat :: i < j ==> !DeleteAt(t.trace, j, d)
    {
      assert i >= |s.trace| by { assert i < |s.trace| ==> DeleteAt(s.trace, i, d); }
      CreatedExtends(s.trace, t.trace, |s0.trace|, |s.trace|, |s.trace|, k);
      InScopeOfParent(w, k, t.trace, |s0.trace|, |s.trace|, d);
      CreatedExtends(t.trace, t.trace, |s.trace|, i, i, d);
      var c: nat :| |s.trace| <= c < i && CreatedAt(t.trace, c, d);
      assert CreatedIn(t.trace, |s0.trace|, i, d);
    }
  }

  // ---- The cleanup list ----

  predicate DistinctKeys(s: State, ids: seq<nat>)
    requires forall id :: id in ids ==> id in s.rows
  {
    forall x, y :: 0 <= x < y < |ids| ==> s.rows[ids[x]].key != s.rows[ids[y]].key
  }

  /** The rows to clean up belong to flagged resources of `list` that were created since `s`. */
  ghost predicate CleanupList(s: State, t: State, list: seq<Resource>, ids: seq<nat>) {
    && MigratedRows(t, ids)
    && DistinctKeys(t, ids)
    && forall id :: id in ids ==>
         && Resource(t.rows[id].key, true) in list
         && !Done(s, t.rows[id].key)
         && CreatedIn(t.trace, |s.trace|, |t.trace|, t.rows[id].key)
  }

  lemma {:induction false} DepLoopCleanupList(w: World, s: State, list: seq<Resource>, f: Flags)
    requires DepLoop(w, s, list, f).res.Ok?
    ensures CleanupList(s, DepLoop(w, s, list, f).st, list, DepLoop(w, s, list, f).res.value)
    decreases |list|
  {
    hide Newest, Frame, Image;
    if list != [] {
      assert list == [list[0]] + list[1..];
      if Settled(s, list[0].key) {
        DepLoopCleanupList(w, s, list[1..], f);
      } else {
        var one := Perform(w, s, list[0].key, false, f);
        var rest := DepLoop(w, one.st, list[1..], f);
        DepLoopCleanupList(w, one.st, list[1..], f);
        StartIsOnceAndImage(w, s, list[0].key, false, f);
        AddToCleanupList(w, s, one.st, rest.st, list, one.res.value, rest.res.value);
      }
    }
  }

  lemma AddToCleanupList(w: World, s: State, t: State, u: State, list: seq<Resource>, id: nat, ids: seq<nat>)
    requires list != [] && CleanupList(t, u, list[1..], ids) && Frame(t, u, {}, None)
    requires !Done(s, list[0].key) && Done(t, list[0].key) && IsNewest(t, list[0].key, id)
    requires s.trace <= t.trace && CreatedIn(t.trace, |s.trace|, |t.trace|, list[0].key)
    requires forall j :: Done(s, j) ==> Done(t, j)
    ensures CleanupList(s, u, list, (if list[0].shouldCleanup then [id] else []) + ids)
  {
    assert list == [list[0]] + list[1..];
    assert u.rows[id] == t.rows[id] && t.rows[id].key == list[0].key && IsMigrated(t.rows[id].status);
    hide Frame, Newest;
    forall i | i in ids ensures CreatedIn(u.trace, |s.trace|, |u.trace|, u.rows[i].key) {
      CreatedExtendsLeft(u.trace, |s.trace|, |t.trace|, u.rows[i].key);
    }
    CreatedExtends(t.trace, u.trace, |s.trace|, |t.trace|, |u.trace|, list[0].key);
    if list[0].shouldCleanup {
      assert list[0] == Resource(list[0].key, true);
      MigratedCons(u, id, ids);
      DistinctCons(u, id, ids);
      forall i | i in [id] + ids
        ensures Resource(u.rows[i].key, true) in list && !Done(s, u.rows[i].key)
        ensures CreatedIn(u.trace, |s.trace|, |u.trace|, u.rows[i].key)
      {
        if i !in ids { assert i == id; }
      }
    } else {
      assert [] + ids == ids;
    }
  }

  lemma DistinctCons(s: State, id: nat, ids: seq<nat>)
    requires id in s.rows && (forall i :: i in ids ==> i in s.rows) && DistinctKeys(s, ids)
    requires forall i :: i in ids ==> s.rows[i].key != s.rows[id].key
    ensures DistinctKeys(s, [id] + ids)
  {
    var all := [id] + ids;
    forall x, y | 0 <= x < y < |all| ensures s.rows[all[x]].key != s.rows[all[y]].key {
      assert all[y] == ids[y - 1];
      if x > 0 { assert all[x] == ids[x - 1]; }
    }
  }

  lemma CreatedExtendsLeft(tr: seq<Event>, from: nat, from': nat, k: Key)
    requires from <= from' && CreatedIn(tr, from', |tr|, k)
    ensures CreatedIn(tr, from, |tr|, k)
  {
    var i: nat :| from' <= i < |tr| && CreatedAt(tr, i, k);
  }

  lemma {:induction false} PendingIsReported(s: State, list: seq<Resource>)
    requires Split(s, list).Ok?
    ensures forall r :: r in Split(s, list).value.pending ==> r in list
    decreases |list|
  {
    if list != [] {
      PendingIsReported(s, list[1..]);
      assert list == [list[0]] + list[1..];
    }
  }

  lemma CleanupListWidens(s: State, s1: State, t: State, u: State, list: seq<Resource>, list': seq<Resource>,
          ids: seq<nat>)
    requires CleanupList(s1, t, list, ids) && SameTable(t, u) && s.trace <= s1.trace && s1.trace <= t.trace
    requires t.trace <= u.trace
    requires forall j :: Done(s, j) ==> Done(s1, j)
    requires forall r :: r in list ==> r in list'
    ensures CleanupList(s, u, list', ids)
  {
    forall i | i in ids ensures CreatedIn(u.trace, |s.trace|, |u.trace|, u.rows[i].key) {
      CreatedExtendsLeft(t.trace, |s.trace|, |s1.trace|, u.rows[i].key);
      CreatedExtends(t.trace, u.trace, |s.trace|, |t.trace|, |u.trace|, u.rows[i].key);
    }
  }

  lemma ResolveCleanupList(w: World, s: State, k: Key, f: Flags)
    requires !Done(s, k) && Resolve(w, s, k, f).res.Ok?
    ensures var r := Resolve(w, s, k, f);
      && CleanupList(s, r.st, DepsOf(w, k), r.res.value.cleanup)
      && forall id :: id in r.res.value.cleanup ==> r.st.rows[id].key != k
  {
    hide Newest, Split, White;
    var s1 := Insert(s, NewRow(k));
    InsertShrinksWhite(w, s, k);
    FrameShrinksDone(s, s1, k);
    var a := AskAssociated(w, s1, k);
    var r := Resolve(w, s, k, f);
    if a.res.value.pending != [] {
      var l := DepLoop(w, a.st, a.res.value.pending, f);
      DepLoopCleanupList(w, a.st, a.res.value.pending, f);
      PendingIsReported(a.st, DepsOf(w, k));
      ColoursSame(s1, a.st);
      CleanupListWidens(s, a.st, l.st, r.st, a.res.value.pending, DepsOf(w, k), l.res.value);
      DepLoopReaches(w, a.st, a.res.value.pending, f);
      NotTheParent(w, a.st, l.st, k, l.res.value, a.res.value.pending);
    }
  }

  lemma FrameShrinksDone(s: State, t: State, k: Key)
    requires Frame(s, t, {}, Some(k)) && !Done(s, k)
    ensures forall j :: Done(s, j) ==> Done(t, j)
  {
    forall j | Done(s, j) ensures Done(t, j) { assert Newest(t, j) == Newest(s, j); }
  }

  /** A resource in progress is not among the dependencies it may clean up. */
  lemma NotTheParent(w: World, s: State, t: State, k: Key, ids: seq<nat>, list: seq<Resource>)
    requires Busy(s, k) && Frame(s, t, {}, None) && Reaches(w, s, t) && CleanupList(s, t, list, ids)
    ensures forall id :: id in ids ==> t.rows[id].key != k
  {
    var ls :| Leads(w, s, ls, t, true);
    OnceExec(w, s, s, ls);
    assert Newest(t, k) == Newest(s, k) && !Done(t, k);
  }

  // ---- The cleanup itself ----

  function RowKeys(s: State, ids: seq<nat>): set<Key>
    requires forall id :: id in ids ==> id in s.rows
  {
    set id | id in ids :: s.rows[id].key
  }

  /** The deletions from `s` to `t` are of `keys`, none twice. */
  ghost predicate DeletesOnce(s: State, t: State, keys: set<Key>) {
    && s.trace <= t.trace
    && forall i: nat, d :: |s.trace| <= i && DeleteAt(t.trace, i, d) ==>
         d in keys && forall j: nat :: i < j ==> !DeleteAt(t.trace, j, d)
  }

  lemma DistinctTail(s: State, t: State, ids: seq<nat>)
    requires ids != [] && MigratedRows(s, ids) && MigratedRows(t, ids[1..]) && DistinctKeys(s, ids)
    requires forall id :: id in ids[1..] ==> t.rows[id].key == s.rows[id].key
    ensures DistinctKeys(t, ids[1..]) && s.rows[ids[0]].key !in RowKeys(t, ids[1..])
    ensures RowKeys(s, ids) == {s.rows[ids[0]].key} + RowKeys(t, ids[1..])
  {
    var tail := ids[1..];
    assert ids == [ids[0]] + tail;
    forall x, y | 0 <= x < y < |tail| ensures t.rows[tail[x]].key != t.rows[tail[y]].key {
      assert tail[x] == ids[x + 1] && tail[y] == ids[y + 1];
    }
    forall id | id in tail ensures t.rows[id].key != s.rows[ids[0]].key {
      var x :| 0 <= x < |tail| && tail[x] == id;
      assert ids[x + 1] == id;
    }
  }

  lemma DeletesCons(s: State, c: State, t: State, d0: Key, keys: set<Key>)
    requires c.trace == s.trace || (|c.trace| == |s.trace| + 1 && s.trace <= c.trace
      && c.trace[|s.trace|].call == DeleteSource(d0))
    requires DeletesOnce(c, t, keys) && d0 !in keys
    ensures DeletesOnce(s, t, {d0} + keys)
  {
    forall i: nat, d | |s.trace| <= i && DeleteAt(t.trace, i, d)
      ensures d in {d0} + keys && forall j: nat :: i < j ==> !DeleteAt(t.trace, j, d)
    {
      if i < |c.trace| { assert d == d0; }
    }
  }

  lemma {:induction false} CleanupAllDeletes(w: World, s: State, ids: seq<nat>)
    requires MigratedRows(s, ids) && DistinctKeys(s, ids)
    ensures DeletesOnce(s, CleanupAll(w, s, ids).st, RowKeys(s, ids))
    decreases |ids|
  {
    if ids != [] {
      var c := Cleanup(w, s, ids[0]);
      CleanupFrame(w, s, ids[0], IdSet(ids));
      var d0 := s.rows[ids[0]].key;
      assert d0 in RowKeys(s, ids);
      assert c.st.trace == s.trace || c.st.trace == s.trace + [Event(DeleteSource(d0), c.res.Ok?, "")];
      hide Newest, Frame;
      if c.res.Ok? {
        DistinctTail(s, c.st, ids);
        CleanupAllDeletes(w, c.st, ids[1..]);
        DeletesCons(s, c.st, CleanupAll(w, c.st, ids[1..]).st, d0, RowKeys(c.st, ids[1..]));
      }
    }
  }

  // ---- Scope of a whole start ----

  /** What the created resource and its cleanup list owe to the span from `s0`. */
  ghost predicate Owned(w: World, s0: State, s: State, k: Key, ids: seq<nat>) {
    && s0.trace <= s.trace
    && MigratedRows(s, ids) && DistinctKeys(s, ids)
    && exists i: nat :: |s0.trace| <= i && CreatedAt(s.trace, i, k)
         && forall id :: id in ids ==> OwnedBy(w, s.trace, |s0.trace|, i, k, s.rows[id].key)
  }

  /** All of them were created since `s0`. */
  lemma OwnedCreated(w: World, s0: State, s: State, k: Key, ids: seq<nat>)
    requires Owned(w, s0, s, k, ids)
    ensures CreatedIn(s.trace, |s0.trace|, |s.trace|, k)
    ensures forall id :: id in ids ==> CreatedIn(s.trace, |s0.trace|, |s.trace|, s.rows[id].key)
    ensures forall id :: id in ids ==> s.rows[id].key == k || Resource(s.rows[id].key, true) in DepsOf(w, k)
  {
    var i: nat :| |s0.trace| <= i && CreatedAt(s.trace, i, k)
      && forall id :: id in ids ==> OwnedBy(w, s.trace, |s0.trace|, i, k, s.rows[id].key);
    forall id | id in ids ensures CreatedIn(s.trace, |s0.trace|, |s.trace|, s.rows[id].key) {
      if s.rows[id].key != k { CreatedExtends(s.trace, s.trace, |s0.trace|, i, |s.trace|, s.rows[id].key); }
    }
  }

  /** So each is in the scope of `k`. */
  lemma OwnedInScope(w: World, s0: State, s: State, k: Key, ids: seq<nat>, id: nat)
    requires Owned(w, s0, s, k, ids) && id in ids
    ensures InScope(w, {k}, s.trace, |s0.trace|, s.rows[id].key)
  {
    var d := s.rows[id].key;
    var i: nat :| |s0.trace| <= i && CreatedAt(s.trace, i, k)
      && forall id :: id in ids ==> OwnedBy(w, s.trace, |s0.trace|, i, k, s.rows[id].key);
    assert RisingOn(w, s.trace, |s0.trace|, i, d, [k]);
    assert ScopePath(w, {k}, s.trace, |s0.trace|, d, [k]);
  }

  /** Deleting owned resources after members were handled stays in scope and repeats nothing. */
  lemma ScopedAppend(w: World, s0: State, t: State, m: State, u: State, k: Key, ids: seq<nat>)
    requires Owned(w, s0, t, k, ids) && NoDeletes(s0, t) && Once(s0, t)
    requires Scoped(w, t, m, KeySet(MembersOf(w, k))) && Once(t, m) && DeletesOnce(m, u, RowKeys(t, ids))
    ensures Scoped(w, s0, u, {k})
  {
    OwnedCreated(w, s0, t, k, ids);
    ScopedUp(w, s0, t, m, k);
    forall i: nat, d | |s0.trace| <= i && DeleteAt(u.trace, i, d)
      ensures InScope(w, {k}, u.trace, |s0.trace|, d) && CreatedIn(u.trace, |s0.trace|, i, d)
      ensures forall j: nat :: i < j ==> !DeleteAt(u.trace, j, d)
    {
      if i < |m.trace| {
        EarlierDelete(w, s0, t, m, u, k, ids, i, d);
      } else {
        var id :| id in ids && t.rows[id].key == d;
        CreatedExtends(t.trace, u.trace, |s0.trace|, |t.trace|, i, d);
        OwnedInScope(w, s0, t, k, ids, id);
        InScopeGrows(w, {k}, {k}, t.trace, u.trace, |s0.trace|, |s0.trace|, d);
      }
    }
  }

  lemma EarlierDelete(w: World, s0: State, t: State, m: State, u: State, k: Key, ids: seq<nat>, i: nat, d: Key)
    requires Owned(w, s0, t, k, ids) && NoDeletes(s0, t) && Once(s0, t)
    requires Once(t, m) && Scoped(w, s0, m, {k}) && DeletesOnce(m, u, RowKeys(t, ids))
    requires Scoped(w, t, m, KeySet(MembersOf(w, k)))
    requires |s0.trace| <= i < |m.trace| && DeleteAt(u.trace, i, d)
    ensures InScope(w, {k}, u.trace, |s0.trace|, d) && CreatedIn(u.trace, |s0.trace|, i, d)
    ensures forall j: nat :: i < j ==> !DeleteAt(u.trace, j, d)
  {
    assert DeleteAt(m.trace, i, d);
    InScopeGrows(w, {k}, {k}, m.trace, u.trace, |s0.trace|, |s0.trace|, d);
    CreatedExtends(m.trace, u.trace, |s0.trace|, i, i, d);
    assert i >= |t.trace| by { assert i < |t.trace| ==> DeleteAt(t.trace, i, d); }
    assert !Done(t, d);
    OwnedCreated(w, s0, t, k, ids);
    forall id | id in ids ensures Done(t, t.rows[id].key) {
      var c: nat :| |s0.trace| <= c < |t.trace| && CreatedAt(t.trace, c, t.rows[id].key);
    }
    forall j: nat | i < j ensures !DeleteAt(u.trace, j, d) {
      if j < |m.trace| { assert !DeleteAt(m.trace, j, d); }
    }
  }

  lemma {:induction false} FinishScoped(w: World, s0: State, s: State, k: Key, id: nat, deps: seq<nat>, f: Flags)
    requires IsNewest(s, k, id) && MigratedRows(s, [id] + deps)
    requires Owned(w, s0, s, k, [id] + deps) && NoDeletes(s0, s) && Once(s0, s)
    ensures Scoped(w, s0, Finish(w, s, k, id, deps, true, f).st, {k})
    decreases |White(w, s)|, if MembersOf(w, k) == [] then 0 else 1, |MembersOf(w, k)| + 2
  {
    var ids := [id] + deps;
    assert DistinctKeys(s, ids);
    OnceSelf(s);
    FrameCalls(w, s, s);
    hide Once, Owned, Newest;
    if !f.members {
      ConcludeDeletes(w, s, s, id, deps);
      NoDeletesScoped(w, s, s, KeySet(MembersOf(w, k)));
      ScopedAppend(w, s0, s, s, Conclude(w, s, id, deps, true).st, k, ids);
    } else {
      var m := MemberPhase(w, s, k, s.rows[id].dest, true, f);
      MemberPhaseScoped(w, s, k, s.rows[id].dest, f);
      MemberPhaseReaches(w, s, k, s.rows[id].dest, true, f);
      ReachesOnce(w, s, m.st);
      if m.res.Ok? {
        ConcludeDeletes(w, s, m.st, id, deps);
        ScopedAppend(w, s0, s, m.st, Conclude(w, m.st, id, deps, true).st, k, ids);
      } else {
        OwnedCreated(w, s0, s, k, ids);
        ScopedUp(w, s0, s, m.st, k);
      }
    }
  }

  lemma OnceSelf(s: State)
    ensures Once(s, s) && NoDeletes(s, s)
  {
  }

  lemma ReachesOnce(w: World, s: State, t: State)
    requires Reaches(w, s, t)
    ensures Once(s, t)
  {
    var ls :| Leads(w, s, ls, t, true);
    OnceExec(w, s, s, ls);
  }

  lemma ConcludeDeletes(w: World, s0: State, s: State, id: nat, deps: seq<nat>)
    requires MigratedRows(s0, [id] + deps) && DistinctKeys(s0, [id] + deps) && Frame(s0, s, {}, None)
    ensures MigratedRows(s, [id] + deps)
    ensures DeletesOnce(s, Conclude(w, s, id, deps, true).st, RowKeys(s0, [id] + deps))
  {
    var ids := [id] + deps;
    assert id in ids;
    assert forall i :: i in ids ==> i in s.rows && s.rows[i] == s0.rows[i];
    hide Frame, Newest;
    var s1 := SetStatus(s, id, PendingCleanup);
    assert MigratedRows(s1, ids) && DistinctKeys(s1, ids) && RowKeys(s1, ids) == RowKeys(s0, ids);
    CleanupAllDeletes(w, s1, ids);
  }

  lemma {:induction false} MemberPhaseScoped(w: World, s: State, k: Key, parent: string, f: Flags)
    ensures Scoped(w, s, MemberPhase(w, s, k, parent, true, f).st, KeySet(MembersOf(w, k)))
    decreases |White(w, s)|, if MembersOf(w, k) == [] then 0 else 1, |MembersOf(w, k)| + 1
  {
    hide Newest, Frame;
    var p, roots := MemberPhase(w, s, k, parent, true, f), KeySet(MembersOf(w, k));
    if p.res.Err? {
      NoDeletesCall(s, p.st, Event(AskMembers(k), false, ""));
      NoDeletesScoped(w, s, p.st, roots);
    } else {
      var s1 := Log(s, AskMembers(k), true, "");
      FrameCalls(w, s, s1);
      MemberLoopScoped(w, s1, MembersOf(w, k), f);
      var m := MemberLoop(w, s1, MembersOf(w, k), true, f);
      ScopedCalls(w, s, s1, m.0, p.st, roots);
    }
  }

  /** Calls that delete nothing before and after do not matter. */
  lemma ScopedCalls(w: World, s: State, s1: State, m: State, t: State, roots: set<Key>)
    requires Scoped(w, s1, m, roots) && NoDeletes(s, s1) && NoDeletes(m, t)
    ensures Scoped(w, s, t, roots)
  {
    forall i: nat, d | |s.trace| <= i && DeleteAt(t.trace, i, d)
      ensures InScope(w, roots, t.trace, |s.trace|, d) && CreatedIn(t.trace, |s.trace|, i, d)
      ensures forall j: nat :: i < j ==> !DeleteAt(t.trace, j, d)
    {
      assert i >= |s1.trace| by { assert i < |s1.trace| ==> DeleteAt(s1.trace, i, d); }
      assert DeleteAt(m.trace, i, d);
      InScopeGrows(w, roots, roots, m.trace, t.trace, |s1.trace|, |s.trace|, d);
      CreatedExtends(m.trace, t.trace, |s1.trace|, i, i, d);
      var c: nat :| |s1.trace| <= c < i && CreatedAt(t.trace, c, d);
      forall j: nat | i < j ensures !DeleteAt(t.trace, j, d) {
        if j < |m.trace| { assert !DeleteAt(m.trace, j, d); }
      }
    }
  }

  lemma {:induction false} MemberLoopScoped(w: World, s: State, list: seq<Resource>, f: Flags)
    ensures Scoped(w, s, MemberLoop(w, s, list, true, f).0, KeySet(list))
    decreases |White(w, s)|, if list == [] then 0 else 1, |list|
  {
    hide Newest, Frame, Once;
    if list == [] {
      OnceSelf(s);
      NoDeletesScoped(w, s, s, {});
    } else {
      assert KeySet(list) == {list[0].key} + KeySet(list[1..]);
      OnceSelf(s);
      NoDeletesScoped(w, s, s, {});
      if Settled(s, list[0].key) {
        MemberLoopScoped(w, s, list[1..], f);
        var rest := MemberLoop(w, s, list[1..], true, f);
        MemberLoopReaches(w, s, list[1..], true, f);
        ReachesOnce(w, s, rest.0);
        ScopedTrans(w, s, s, rest.0, {}, KeySet(list[1..]), KeySet(list));
      } else {
        var one := Perform(w, s, list[0].key, true, f);
        StartScoped(w, s, list[0].key, f);
        NestedFrame(w, s, one.st, list[0].key);
        MemberLoopScoped(w, one.st, list[1..], f);
        var rest := MemberLoop(w, one.st, list[1..], true, f);
        PerformReaches(w, s, list[0].key, true, f);
        MemberLoopReaches(w, one.st, list[1..], true, f);
        ReachesOnce(w, s, one.st);
        ReachesOnce(w, one.st, rest.0);
        ScopedTrans(w, s, one.st, rest.0, {list[0].key}, KeySet(list[1..]), KeySet(list));
      }
    }
  }

  /** Marking the row hands `k` and its cleanup list over as owned. */
  lemma MarkOwned(w: World, s: State, k: Key, f: Flags)
    requires !Done(s, k) && Usable(w, k) && TryMigrate(w, s, k, f).res.Ok?
    ensures var p := TryMigrate(w, s, k, f);
      Owned(w, s, SetStatus(p.st, s.next, PendingMembers), k, [s.next] + p.res.value)
  {
    var r, p := Resolve(w, s, k, f), TryMigrate(w, s, k, f);
    var t := SetStatus(p.st, s.next, PendingMembers);
    MarkMigrated(s, p.st, k, p.res.value);
    TryMigrateTable(w, s, k, f);
    ResolveCleanupList(w, s, k, f);
    TryMigrateReaches(w, s, k, f);
    ReachesImage(w, s, t);
    hide Frame, Newest, TryMigrate, Resolve, Image, Once;
    var ids := p.res.value;
    TryMigrateTrace(w, s, k, f);
    forall i | i in ids ensures t.rows[i] == r.st.rows[i] { assert i != s.next; }
    assert DistinctKeys(t, ids);
    DistinctCons(t, s.next, ids);
    var c := |r.st.trace|;
    assert CreatedAt(t.trace, c, k);
    forall i | i in [s.next] + ids ensures OwnedBy(w, t.trace, |s.trace|, c, k, t.rows[i].key) {
      if i in ids { CreatedExtends(r.st.trace, t.trace, |s.trace|, c, c, t.rows[i].key); }
      else { assert i == s.next; }
    }
  }

  lemma TryMigrateTrace(w: World, s: State, k: Key, f: Flags)
    requires !Done(s, k)
    ensures s.trace <= Resolve(w, s, k, f).st.trace <= TryMigrate(w, s, k, f).st.trace
    ensures TryMigrate(w, s, k, f).res.Ok? ==>
      CreatedAt(TryMigrate(w, s, k, f).st.trace, |Resolve(w, s, k, f).st.trace|, k)
  {
    hide Newest;
  }

  /** A start with --cleanup-source on an unmigrated resource deletes each source at most once, after
      having created its copy, and only sources of the resource, of newly migrated members below it, and
      of the flagged direct dependencies created on their behalf: since the resource they are members of. */
  lemma {:induction false} StartScoped(w: World, s: State, k: Key, f: Flags)
    requires !Done(s, k)
    ensures Scoped(w, s, Perform(w, s, k, true, f).st, {k})
    decreases |White(w, s)|, if Settled(s, k) then 2 else 0, 3
  {
    OnceSelf(s);
    NoDeletesScoped(w, s, s, {k});
    hide Newest, TryMigrate, Once, Owned;
    if Usable(w, k) {
      var p := TryMigrate(w, s, k, f);
      TryMigrateDeletesNothing(w, s, k, f);
      if p.res.Err? {
        NoDeletesScoped(w, s, p.st, {k});
      } else {
        var t := SetStatus(p.st, s.next, PendingMembers);
        MarkMigrated(s, p.st, k, p.res.value);
        EnterFinish(w, s, t, k);
        TryMigrateReaches(w, s, k, f);
        ReachesOnce(w, s, t);
        MarkOwned(w, s, k, f);
        FinishScoped(w, s, t, k, s.next, p.res.value, f);
      }
    }
  }

  // ---- What cleanup must have deleted ----

  lemma {:induction false} CleanupAllRemoves(w: World, s: State, ids: seq<nat>)
    requires MigratedRows(s, ids) && CleanupAll(w, s, ids).res.Ok?
    ensures var t := CleanupAll(w, s, ids).st;
      forall id :: id in s.rows && (id in ids || s.rows[id].sourceRemoved) ==> id in t.rows && t.rows[id].sourceRemoved
    decreases |ids|
  {
    hide Newest, Frame;
    if ids != [] {
      assert ids == [ids[0]] + ids[1..];
      CleanupFrame(w, s, ids[0], IdSet(ids));
      CleanupAllRemoves(w, Cleanup(w, s, ids[0]).st, ids[1..]);
    }
  }

  /** The source of the newest row of `k` is gone. */
  predicate Removed(s: State, k: Key) {
    Newest(s, k).Some? && s.rows[Newest(s, k).value].sourceRemoved
  }

  lemma ConcludeRemoves(w: World, s: State, id: nat, deps: seq<nat>)
    requires MigratedRows(s, [id] + deps) && Conclude(w, s, id, deps, true).res.Ok?
    ensures var t := Conclude(w, s, id, deps, true).st;
      forall i :: i in [id] + deps ==> i in t.rows && t.rows[i].sourceRemoved
  {
    var ids, s1 := [id] + deps, SetStatus(s, id, PendingCleanup);
    assert id in ids;
    assert MigratedRows(s1, ids);
    hide Newest, Frame;
    CleanupAllRemoves(w, s1, ids);
  }

  /** A start with cleanup that returns has deleted the source of its root, and if it created the root,
      those of all dependencies on its cleanup list. */
  lemma StartRemoves(w: World, s: State, k: Key, f: Flags)
    ensures var r := Perform(w, s, k, true, f);
      r.res.Ok? ==>
        && Removed(r.st, k)
        && (!Done(s, k) ==> forall id :: id in TryMigrate(w, s, k, f).res.value ==>
          id in r.st.rows && r.st.rows[id].sourceRemoved)
  {
    hide Newest, Frame, TryMigrate, Finish;
    if Perform(w, s, k, true, f).res.Err? {
    } else if Done(s, k) {
      var id := Newest(s, k).value;
      MarkAgain(s, k);
      FinishRemoves(w, SetStatus(s, id, PendingMembers), k, id, [], f);
    } else {
      var p := TryMigrate(w, s, k, f);
      MarkMigrated(s, p.st, k, p.res.value);
      FinishRemoves(w, SetStatus(p.st, s.next, PendingMembers), k, s.next, p.res.value, f);
    }
  }

  lemma FinishRemoves(w: World, s: State, k: Key, id: nat, deps: seq<nat>, f: Flags)
    requires IsNewest(s, k, id) && MigratedRows(s, [id] + deps) && Finish(w, s, k, id, deps, true, f).res.Ok?
    ensures var t := Finish(w, s, k, id, deps, true, f).st;
      forall i :: i in [id] + deps ==> i in t.rows && t.rows[i].sourceRemoved
  {
    hide Newest, MemberPhase, Conclude, IdSet;
    if f.members {
      ConcludeRemoves(w, MemberPhase(w, s, k, s.rows[id].dest, true, f).st, id, deps);
    } else {
      ConcludeRemoves(w, s, id, deps);
    }
  }

  /** Every member a phase with cleanup hands to the connect step has lost its source. */
  lemma {:induction false} MemberLoopRemoves(w: World, s: State, list: seq<Resource>, f: Flags)
    ensures var r := MemberLoop(w, s, list, true, f);
      forall m :: m in r.1 ==> Removed(r.0, m.key)
    decreases |list|
  {
    hide Newest, Frame, Perform;
    if list != [] {
      if Settled(s, list[0].key) {
        MemberLoopRemoves(w, s, list[1..], f);
      } else {
        var one := Perform(w, s, list[0].key, true, f);
        MemberLoopRemoves(w, one.st, list[1..], f);
        if one.res.Ok? {
          StartRemoves(w, s, list[0].key, f);
          RemovedThroughFrame(one.st, MemberLoop(w, one.st, list[1..], true, f).0, list[0].key);
          NewestIsRow(one.st, list[0].key);
        }
      }
    }
  }

  lemma RemovedThroughFrame(s: State, t: State, k: Key)
    requires Frame(s, t, {}, None) && Done(s, k) && Removed(s, k)
    ensures Removed(t, k)
  {
    assert Newest(t, k) == Newest(s, k);
  }

  /** A flagged dependency the loop finds unsettled when it comes to it is on the cleanup list. */
  lemma {:induction false} FlaggedAreListed(w: World, s: State, list: seq<Resource>, f: Flags, i: nat)
    requires i < |list| && list[i].shouldCleanup
    ensures var before, r := DepLoop(w, s, list[..i], f), DepLoop(w, s, list, f);
      r.res.Ok? ==> before.res.Ok? && (!Settled(before.st, list[i].key) ==>
        Newest(r.st, list[i].key).Some? && Newest(r.st, list[i].key).value in r.res.value)
    decreases i
  {
    hide Newest, Frame, Perform;
    DepLoopOfNone(w, s, f);
    var one := Perform(w, s, list[0].key, false, f);
    var t := if Settled(s, list[0].key) then s else one.st;
    if DepLoop(w, s, list, f).res.Err? {
    } else if i == 0 {
      assert list[..0] == [];
      if !Settled(s, list[0].key) { NewestThroughFrame(t, DepLoop(w, t, list[1..], f).st, list[0].key); }
    } else {
      var head := list[..i];
      assert head[0] == list[0] && head[1..] == list[1..][..i - 1];
      FlaggedAreListed(w, t, list[1..], f, i - 1);
      assert DepLoop(w, s, head, f).st == DepLoop(w, t, head[1..], f).st;
    }
  }

  lemma DepLoopOfNone(w: World, s: State, f: Flags)
    ensures DepLoop(w, s, [], f) == Outcome(s, Ok([]))
  {
  }

  lemma NewestThroughFrame(s: State, t: State, k: Key)
    requires Frame(s, t, {}, None) && Done(s, k)
    ensures Newest(t, k) == Newest(s, k)
  {
  }

  /** The pending list is the reported one without the migrated dependencies. */
  lemma {:induction false} PendingPosition(s: State, list: seq<Resource>, i: nat) returns (p: nat)
    requires Split(s, list).Ok? && i < |list| && !Done(s, list[i].key)
    ensures var pending := Split(s, list).value.pending;
      p < |pending| && pending[p] == list[i] && KeySet(pending[..p]) <= KeySet(list[..i])
    decreases |list|
  {
    var pending := Split(s, list).value.pending;
    if i == 0 {
      p := 0;
      assert pending[..0] == [] && list[..0] == [];
    } else {
      var q := PendingPosition(s, list[1..], i - 1);
      var rest := Split(s, list[1..]).value.pending;
      assert list[1..][i - 1] == list[i];
      assert list[..i][1..] == list[1..][..i - 1] && list[..i][0] == list[0];
      if Done(s, list[0].key) {
        p := q;
        assert pending == rest;
      } else {
        p := q + 1;
        assert pending == [list[0]] + rest;
        assert pending[..p][1..] == rest[..q] && pending[..p][0] == list[0];
      }
    }
  }

  /** A flagged dependency to which nothing started before it leads is on the cleanup list. */
  lemma FlaggedIsListed(w: World, s: State, k: Key, f: Flags, i: nat)
    requires f.deps && !Done(s, k) && Resolve(w, s, k, f).res.Ok? && i < |DepsOf(w, k)| && DepsOf(w, k)[i].shouldCleanup
    requires var s1, d := Insert(s, NewRow(k)), DepsOf(w, k)[i].key;
      !Settled(s1, d) && !Reached(w, s1, f, KeySet(DepsOf(w, k)[..i]), d)
    ensures var r, d := Resolve(w, s, k, f), DepsOf(w, k)[i].key;
      Newest(r.st, d).Some? && Newest(r.st, d).value in r.res.value.cleanup
  {
    hide Newest, Frame, Reached, DepLoop, Within;
    var s1, d, list := Insert(s, NewRow(k)), DepsOf(w, k)[i].key, DepsOf(w, k);
    InsertShrinksWhite(w, s, k);
    var a := AskAssociated(w, s1, k);
    FrameCalls(w, s1, a.st);
    ColoursSame(s1, a.st);
    var p := PendingPosition(a.st, list, i);
    var pending := a.res.value.pending;
    var before, l := DepLoop(w, a.st, pending[..p], f), DepLoop(w, a.st, pending, f);
    if Reached(w, a.st, f, KeySet(pending[..p]), d) {
      ReachedBefore(w, s1, a.st, f, KeySet(pending[..p]), KeySet(list[..i]), d);
    }
    DepLoopWithin(w, a.st, pending[..p], f);
    UnreachedStays(w, a.st, before.st, f, KeySet(pending[..p]), None, {}, None, d);
    FlaggedAreListed(w, a.st, pending, f, p);
    NewestSame(l.st, Resolve(w, s, k, f).st, d);
  }

  /** A start with cleanup that returns has deleted the source of every flagged direct dependency that was
      unsettled and to which nothing started before it led. */
  lemma FlaggedDependencyIsRemoved(w: World, s: State, k: Key, f: Flags, i: nat)
    requires f.deps && !Done(s, k) && Perform(w, s, k, true, f).res.Ok?
    requires i < |DepsOf(w, k)| && DepsOf(w, k)[i].shouldCleanup
    requires var s1, d := Insert(s, NewRow(k)), DepsOf(w, k)[i].key;
      !Settled(s1, d) && !Reached(w, s1, f, KeySet(DepsOf(w, k)[..i]), d)
    ensures Removed(Perform(w, s, k, true, f).st, DepsOf(w, k)[i].key)
  {
    hide Newest, Frame, Reached, Resolve, Finish, TryMigrate;
    var d, r, p := DepsOf(w, k)[i].key, Resolve(w, s, k, f), TryMigrate(w, s, k, f);
    TryMigrateTable(w, s, k, f);
    FlaggedIsListed(w, s, k, f, i);
    var id := Newest(r.st, d).value;
    WriteNewRow(s, k, r.st, p.st.rows[s.next]);
    NewestSame(r.st.(rows := r.st.rows[s.next := p.st.rows[s.next]]), p.st, d);
    WriteStatus(p.st, s.next, PendingMembers);
    MarkMigrated(s, p.st, k, p.res.value);
    var u := SetStatus(p.st, s.next, PendingMembers);
    assert id in [s.next] + p.res.value;
    var t := Finish(w, u, k, s.next, p.res.value, true, f).st;
    NewestThroughOwn(u, t, d, IdSet([s.next] + p.res.value));
    StartRemoves(w, s, k, f);
  }

  lemma NewestThroughOwn(s: State, t: State, k: Key, own: set<nat>)
    requires Frame(s, t, own, None) && Done(s, k)
    ensures Newest(t, k) == Newest(s, k)
  {
  }
}
