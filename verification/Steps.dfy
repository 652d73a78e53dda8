/** Every command refines a transition system whose labels are the single writes and handler
    calls of manager.py, each with the guard under which it is made.  Safety properties are
    invariants of these steps. */
module Steps {
  import opened Store
  import opened World
  import opened Orchestration

  datatype Label =
    | Query(call: Call, ok: bool)
    | Begin(key: Key)
    | CreateRaises(key: Key)
    | CreateReturns(key: Key)
    | Fail(id: nat)
    | Advance(id: nat, to: Status)
    | DeleteReturns(id: nat)
    | DeleteRaises(id: nat, called: bool)
    | Register(key: Key, dest: string)

  /** The status writes that are not the outcome of a handler call. */
  predicate Advances(from: Status, to: Status) {
    || (IsMigrated(from) && to == PendingMembers)
    || (from == PendingMembers && to in {PendingCleanup, Completed})
    || (from == PendingCleanup && to == Completed)
  }

  /** The last call made asked for the dependencies of `k`. */
  predicate JustAsked(s: State, k: Key) {
    s.trace != [] && s.trace[|s.trace| - 1] == Event(AskDeps(k), true, "")
  }

  /** `k` passed the entry checks, its newest row is a fresh IN_PROGRESS row, and all its
      dependencies, which were just asked for, are migrated. */
  predicate CanCreate(w: World, s: State, k: Key) {
    && Usable(w, k)
    && JustAsked(s, k)
    && Newest(s, k).Some?
    && s.rows[Newest(s, k).value] == NewRow(k)
    && Split(s, DepsOf(w, k)).Ok?
    && Split(s, DepsOf(w, k)).value.pending == []
  }

  function GivenTo(w: World, s: State, k: Key): seq<Migrated>
    requires CanCreate(w, s, k)
  {
    Split(s, DepsOf(w, k)).value.migrated
  }

  predicate IsRow(s: State, id: nat) {
    id in s.rows && id < s.next
  }

  predicate Enabled(w: World, s: State, l: Label) {
    match l
    case Query(call, ok) => (call.AskDeps? || call.AskMembers? || call.Connect?) && ok == !w.raises(s.trace, call)
    case Begin(k) => !Done(s, k) && Usable(w, k)
    case CreateRaises(k) => CanCreate(w, s, k) && w.raises(s.trace, Create(k, GivenTo(w, s, k)))
    case CreateReturns(k) => CanCreate(w, s, k) && !w.raises(s.trace, Create(k, GivenTo(w, s, k)))
    case Fail(id) => IsRow(s, id) && s.rows[id] == NewRow(s.rows[id].key)
    case Advance(id, to) => IsRow(s, id) && Advances(s.rows[id].status, to)
    case DeleteReturns(id) =>
      IsRow(s, id) && IsMigrated(s.rows[id].status) && !w.raises(s.trace, DeleteSource(s.rows[id].key))
    case DeleteRaises(id, called) =>
      IsRow(s, id) && IsMigrated(s.rows[id].status) && (called ==> w.raises(s.trace, DeleteSource(s.rows[id].key)))
    case Register(k, dest) => Usable(w, k) && dest != ""
  }

  function RegisteredRow(k: Key, dest: string): Row {
    Row(k, Completed, dest, false, false, true)
  }

  function Next(w: World, s: State, l: Label): State
    requires Enabled(w, s, l)
  {
    match l
    case Query(call, ok) => Log(s, call, ok, "")
    case Begin(k) => Insert(s, NewRow(k))
    case CreateRaises(k) => Log(s, Create(k, GivenTo(w, s, k)), false, "")
    case CreateReturns(k) =>
      var id, dest := Newest(s, k).value, w.newId(s.trace, k);
      SetStatus(SetDest(Log(s, Create(k, GivenTo(w, s, k)), true, dest), id, dest), id, PendingMembers)
    case Fail(id) => SetStatus(s, id, Failed)
    case Advance(id, to) => SetStatus(s, id, to)
    case DeleteReturns(id) =>
      var t := Log(s, DeleteSource(s.rows[id].key), true, "");
      t.(rows := t.rows[id := t.rows[id].(sourceRemoved := true)])
    case DeleteRaises(id, called) =>
      SetStatus(if called then Log(s, DeleteSource(s.rows[id].key), false, "") else s, id, SourceCleanupFailed)
    case Register(k, dest) => Insert(Log(s, Declare(k), true, dest), RegisteredRow(k, dest))
  }

  /** `ls` can be taken from `s`, one label after the other. */
  predicate Allowed(w: World, s: State, ls: seq<Label>)
    decreases |ls|
  {
    ls == [] || (Enabled(w, s, ls[0]) && Allowed(w, Next(w, s, ls[0]), ls[1..]))
  }

  function Exec(w: World, s: State, ls: seq<Label>): State
    requires Allowed(w, s, ls)
    decreases |ls|
  {
    if ls == [] then s else Exec(w, Next(w, s, ls[0]), ls[1..])
  }

  predicate Leads(w: World, s: State, ls: seq<Label>, t: State, internal: bool) {
    && Allowed(w, s, ls)
    && Exec(w, s, ls) == t
    && (internal ==> forall l :: l in ls ==> !l.Register?)
  }

  /** Some labels lead from `s` to `t`; `internal` excludes register-external. */
  ghost predicate ReachesBy(w: World, s: State, t: State, internal: bool) {
    exists ls :: Leads(w, s, ls, t, internal)
  }

  ghost predicate Reaches(w: World, s: State, t: State) {
    ReachesBy(w, s, t, true)
  }

  lemma ReachesSelf(w: World, s: State)
    ensures Reaches(w, s, s)
  {
    assert Leads(w, s, [], s, true);
  }

  lemma ReachesNext(w: World, s: State, l: Label)
    requires Enabled(w, s, l) && !l.Register?
    ensures Reaches(w, s, Next(w, s, l))
  {
    var ls := [l];
    assert ls[1..] == [];
    assert Allowed(w, Next(w, s, l), []) && Exec(w, Next(w, s, l), []) == Next(w, s, l);
    assert Leads(w, s, ls, Next(w, s, l), true);
  }

  lemma {:induction false} ReachesTrans(w: World, s: State, t: State, u: State)
    requires Reaches(w, s, t) && Reaches(w, t, u)
    ensures Reaches(w, s, u)
  {
    var a :| Leads(w, s, a, t, true);
    var b :| Leads(w, t, b, u, true);
    LeadsConcat(w, s, a, t, b, u, true);
  }

  lemma {:induction false} LeadsConcat(w: World, s: State, a: seq<Label>, t: State, b: seq<Label>, u: State,
          internal: bool)
    requires Leads(w, s, a, t, internal) && Leads(w, t, b, u, internal)
    ensures Leads(w, s, a + b, u, internal)
    decreases |a|
  {
    if a == [] {
      assert a + b == b;
    } else {
      assert Leads(w, Next(w, s, a[0]), a[1..], t, internal);
      LeadsConcat(w, Next(w, s, a[0]), a[1..], t, b, u, internal);
      assert (a + b)[1..] == a[1..] + b;
    }
  }

  // ---- The manager refines the steps ----

  lemma AskAssociatedReaches(w: World, s: State, k: Key)
    ensures Reaches(w, s, AskAssociated(w, s, k).st)
  {
    ReachesNext(w, s, Query(AskDeps(k), !w.raises(s.trace, AskDeps(k))));
  }

  lemma CleanupReaches(w: World, s: State, id: nat)
    requires IsRow(s, id) && IsMigrated(s.rows[id].status)
    ensures Reaches(w, s, Cleanup(w, s, id).st)
  {
    var k := s.rows[id].key;
    if k.id == "" { ReachesSelf(w, s); }
    else if !Supported(w, k.rtype) { ReachesNext(w, s, DeleteRaises(id, false)); }
    else if w.raises(s.trace, DeleteSource(k)) { ReachesNext(w, s, DeleteRaises(id, true)); }
    else { ReachesNext(w, s, DeleteReturns(id)); }
  }

  lemma {:induction false} CleanupAllReaches(w: World, s: State, ids: seq<nat>)
    requires MigratedRows(s, ids)
    ensures Reaches(w, s, CleanupAll(w, s, ids).st)
    ensures CleanupAll(w, s, ids).res.Ok? ==>
      forall i :: i in s.rows ==> CleanupAll(w, s, ids).st.rows[i].status == s.rows[i].status
    decreases |ids|
  {
    if ids == [] {
      ReachesSelf(w, s);
    } else {
      var c := Cleanup(w, s, ids[0]);
      CleanupReaches(w, s, ids[0]);
      CleanupFrame(w, s, ids[0], IdSet(ids));
      if c.res.Ok? {
        CleanupAllReaches(w, c.st, ids[1..]);
        ReachesTrans(w, s, c.st, CleanupAll(w, c.st, ids[1..]).st);
      }
    }
  }

  lemma {:induction false} DepLoopReaches(w: World, s: State, list: seq<Resource>, f: Flags)
    ensures Reaches(w, s, DepLoop(w, s, list, f).st)
    decreases |White(w, s)|, if list == [] then 0 else 1, |list|
  {
    if list == [] {
      ReachesSelf(w, s);
    } else if Settled(s, list[0].key) {
      DepLoopReaches(w, s, list[1..], f);
    } else {
      var one := Perform(w, s, list[0].key, false, f);
      PerformReaches(w, s, list[0].key, false, f);
      NestedFrame(w, s, one.st, list[0].key);
      if one.res.Ok? {
        DepLoopReaches(w, one.st, list[1..], f);
        ReachesTrans(w, s, one.st, DepLoop(w, one.st, list[1..], f).st);
      }
    }
  }

  /** When the manager is ready to call the handler, all dependencies are migrated and the list
      it passes is the complete one. */
  lemma ResolveReady(w: World, s: State, k: Key, f: Flags)
    requires !Done(s, k) && Usable(w, k) && Resolve(w, s, k, f).res.Ok?
    ensures var r := Resolve(w, s, k, f);
      CanCreate(w, r.st, k) && GivenTo(w, r.st, k) == r.res.value.given
  {
    hide Reaches, DepLoop, Split;
    InsertShrinksWhite(w, s, k);
    assert IsNewest(Resolve(w, s, k, f).st, k, s.next);
  }

  lemma {:induction false} ResolveReaches(w: World, s: State, k: Key, f: Flags)
    requires !Done(s, k) && Usable(w, k)
    ensures Reaches(w, s, Resolve(w, s, k, f).st)
    decreases |White(w, s)|, if Settled(s, k) then 2 else 0, 1
  {
    hide Frame, Newest, Reaches, Split;
    var s1 := Insert(s, NewRow(k));
    InsertShrinksWhite(w, s, k);
    ReachesNext(w, s, Begin(k));
    var a := AskAssociated(w, s1, k);
    AskAssociatedReaches(w, s1, k);
    ReachesTrans(w, s, s1, a.st);
    if a.res.Ok? && a.res.value.pending != [] && f.deps {
      FrameCalls(w, s1, a.st);
      var l := DepLoop(w, a.st, a.res.value.pending, f);
      DepLoopReaches(w, a.st, a.res.value.pending, f);
      ReachesTrans(w, s, a.st, l.st);
      if l.res.Ok? {
        AskAssociatedReaches(w, l.st, k);
        ReachesTrans(w, s, l.st, AskAssociated(w, l.st, k).st);
      }
    }
  }

  lemma {:induction false} TryMigrateReaches(w: World, s: State, k: Key, f: Flags)
    requires !Done(s, k) && Usable(w, k)
    ensures var r := TryMigrate(w, s, k, f);
      Reaches(w, s, if r.res.Err? then r.st else SetStatus(r.st, s.next, PendingMembers))
    decreases |White(w, s)|, if Settled(s, k) then 2 else 0, 2
  {
    var r := TryMigrate(w, s, k, f);
    var ready := Resolve(w, s, k, f);
    ResolveReaches(w, s, k, f);
    InsertShrinksWhite(w, s, k);
    assert IsNewest(ready.st, k, s.next) && ready.st.rows[s.next] == NewRow(k);
    if ready.res.Ok? { ResolveReady(w, s, k, f); }
    if ready.res.Err? {
      ReachesNext(w, ready.st, Fail(s.next));
      ReachesTrans(w, s, ready.st, r.st);
    } else if r.res.Err? {
      var c := CallCreate(w, ready.st, k, ready.res.value.given);
      ReachesNext(w, ready.st, CreateRaises(k));
      ReachesNext(w, c.st, Fail(s.next));
      ReachesTrans(w, s, ready.st, c.st);
      ReachesTrans(w, s, c.st, r.st);
    } else {
      ReachesNext(w, ready.st, CreateReturns(k));
      ReachesTrans(w, s, ready.st, SetStatus(r.st, s.next, PendingMembers));
    }
  }

  lemma {:induction false} MemberLoopReaches(w: World, s: State, list: seq<Resource>, cleanup: bool, f: Flags)
    ensures Reaches(w, s, MemberLoop(w, s, list, cleanup, f).0)
    decreases |White(w, s)|, if list == [] then 0 else 1, |list|
  {
    if list == [] {
      ReachesSelf(w, s);
    } else if Settled(s, list[0].key) {
      MemberLoopReaches(w, s, list[1..], cleanup, f);
    } else {
      var one := Perform(w, s, list[0].key, cleanup, f);
      PerformReaches(w, s, list[0].key, cleanup, f);
      NestedFrame(w, s, one.st, list[0].key);
      MemberLoopReaches(w, one.st, list[1..], cleanup, f);
      ReachesTrans(w, s, one.st, MemberLoop(w, one.st, list[1..], cleanup, f).0);
    }
  }

  lemma {:induction false} MemberPhaseReaches(w: World, s: State, k: Key, parent: string, cleanup: bool, f: Flags)
    ensures Reaches(w, s, MemberPhase(w, s, k, parent, cleanup, f).st)
    decreases |White(w, s)|, if MembersOf(w, k) == [] then 0 else 1, |MembersOf(w, k)| + 1
  {
    var call := AskMembers(k);
    ReachesNext(w, s, Query(call, !w.raises(s.trace, call)));
    if !w.raises(s.trace, call) {
      var s1 := Log(s, call, true, "");
      FrameShrinksWhite(w, s, s1, {}, None);
      MemberLoopReaches(w, s1, MembersOf(w, k), cleanup, f);
      var m := MemberLoop(w, s1, MembersOf(w, k), cleanup, f);
      ReachesTrans(w, s, s1, m.0);
      var c := Connect(k, parent, m.1);
      ReachesNext(w, m.0, Query(c, !w.raises(m.0.trace, c)));
      ReachesTrans(w, s, m.0, CallConnect(w, m.0, k, parent, m.1));
    }
  }

  lemma ConcludeReaches(w: World, s: State, id: nat, deps: seq<nat>, cleanup: bool)
    requires MigratedRows(s, [id] + deps) && s.rows[id].status == PendingMembers
    ensures Reaches(w, s, Conclude(w, s, id, deps, cleanup).st)
  {
    if !cleanup {
      ReachesNext(w, s, Advance(id, Completed));
    } else {
      ReachesNext(w, s, Advance(id, PendingCleanup));
      var s1 := SetStatus(s, id, PendingCleanup);
      var c := CleanupAll(w, s1, [id] + deps);
      CleanupAllReaches(w, s1, [id] + deps);
      ReachesTrans(w, s, s1, c.st);
      if c.res.Ok? {
        ReachesNext(w, c.st, Advance(id, Completed));
        ReachesTrans(w, s, c.st, SetStatus(c.st, id, Completed));
      }
    }
  }

  lemma {:induction false} FinishReaches(w: World, s: State, k: Key, id: nat, deps: seq<nat>, cleanup: bool, f: Flags)
    requires IsNewest(s, k, id) && MigratedRows(s, [id] + deps) && s.rows[id].status == PendingMembers
    ensures Reaches(w, s, Finish(w, s, k, id, deps, cleanup, f).st)
    decreases |White(w, s)|, if MembersOf(w, k) == [] then 0 else 1, |MembersOf(w, k)| + 2
  {
    if !f.members {
      ConcludeReaches(w, s, id, deps, cleanup);
    } else {
      var m := MemberPhase(w, s, k, s.rows[id].dest, cleanup, f);
      MemberPhaseReaches(w, s, k, s.rows[id].dest, cleanup, f);
      if m.res.Ok? {
        ConcludeReaches(w, m.st, id, deps, cleanup);
        ReachesTrans(w, s, m.st, Conclude(w, m.st, id, deps, cleanup).st);
      }
    }
  }

  /** A start, whether it returns or raises, only takes guarded steps. */
  lemma {:induction false} PerformReaches(w: World, s: State, k: Key, cleanup: bool, f: Flags)
    ensures Reaches(w, s, Perform(w, s, k, cleanup, f).st)
    decreases |White(w, s)|, if Settled(s, k) then 2 else 0, 3
  {
    if !Usable(w, k) {
      ReachesSelf(w, s);
    } else if Done(s, k) {
      var id := Newest(s, k).value;
      var t := SetStatus(s, id, PendingMembers);
      MarkAgain(s, k);
      EnterFinish(w, s, t, k);
      ReachesNext(w, s, Advance(id, PendingMembers));
      FinishReaches(w, t, k, id, [], cleanup, f);
      ReachesTrans(w, s, t, Perform(w, s, k, cleanup, f).st);
    } else {
      var p := TryMigrate(w, s, k, f);
      TryMigrateReaches(w, s, k, f);
      if p.res.Ok? {
        var t := SetStatus(p.st, s.next, PendingMembers);
        MarkMigrated(s, p.st, k, p.res.value);
        EnterFinish(w, s, t, k);
        FinishReaches(w, t, k, s.next, p.res.value, cleanup, f);
        ReachesTrans(w, s, t, Perform(w, s, k, cleanup, f).st);
      }
    }
  }
}
