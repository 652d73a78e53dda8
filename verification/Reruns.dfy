/** Starts on a resource that is migrated already: its own migration is not repeated, but members that are
    still unmigrated are started, under the flags of the start. */
module Reruns {
  import opened Store
  import opened World
  import opened Orchestration
  import opened Steps
  import opened Safety
  import opened DryRun
  import opened Reach
  import opened Parts
  import opened Closure
  import opened Members
  import opened Deletions

  /** The row of `k` marked PENDING_MEMBERS again. */
  function Remarked(s: State, k: Key): State
    requires Done(s, k)
  {
    SetStatus(s, Newest(s, k).value, PendingMembers)
  }

  /** The state in which such a start begins its member loop. */
  function RerunPhase(s: State, k: Key): State
    requires Done(s, k)
  {
    Log(Remarked(s, k), AskMembers(k), true, "")
  }

  /** What is reachable through unmigrated resources from a member that is one. */
  ghost predicate BelowMembers(w: World, s: State, f: Flags, k: Key, j: Key) {
    exists m :: m in KeySet(MembersOf(w, k)) && Reachable(w, s, f, m, j)
  }

  lemma RerunColours(s: State, k: Key)
    requires Done(s, k)
    ensures var q := RerunPhase(s, k);
      forall j :: Newest(q, j) == Newest(s, j) && Done(q, j) == Done(s, j) && Busy(q, j) == Busy(s, j)
        && DestOf(q, j) == DestOf(s, j)
  {
    WriteStatus(s, Newest(s, k).value, PendingMembers);
    ColoursSame(Remarked(s, k), RerunPhase(s, k));
    hide NewestBelow;
    forall j ensures Newest(RerunPhase(s, k), j) == Newest(s, j) { NewestIsRow(s, j); }
  }

  /** Such a start is its own listing of the members, their loop, the connect step and the cleanup. */
  lemma RerunUnfolds(w: World, s: State, k: Key, cleanup: bool, f: Flags)
    requires Usable(w, k) && Done(s, k)
    ensures var id := Newest(s, k).value;
      var u := Remarked(s, k);
      && IsNewest(u, k, id) && MigratedRows(u, [id] + []) && Done(u, k) && u.trace == s.trace && u.next == s.next
      && Frame(s, u, {id}, None)
      && Perform(w, s, k, cleanup, f) == Finish(w, u, k, id, [], cleanup, f)
  {
    MarkAgain(s, k);
  }

  // ---- Which resources it migrates ----

  /** Starts nested in nothing else of the part. */
  lemma AboveAlone(w: World, s0: State, s: State, f: Flags, v: set<Key>, m: Key)
    requires !Done(s0, m) && !Entangled(w, s0, f, m) && forall b :: b in v ==> !Busy(s, b)
    ensures Above(w, s0, s, f, v, [m], m)
  {
    hide Entangled;
  }

  lemma ProgressQuiet(w: World, s: State, t: State, f: Flags, v: set<Key>)
    requires Progress(w, s, t, f, v, None) && forall b :: b in v ==> !Busy(s, b)
    ensures forall b :: b in v ==> !Busy(t, b)
  {
  }

  lemma {:induction false} MembersGood(w: World, s0: State, s: State, list: seq<Resource>, cleanup: bool, f: Flags,
          v: set<Key>)
    requires Calm(w) && Sturdy(w, s0, f, v) && Kept(s0, s) && forall b :: b in v ==> !Busy(s, b)
    requires forall m :: m in KeySet(list) && !Done(s0, m) ==> m in v && !Entangled(w, s0, f, m)
    ensures var t := MemberLoop(w, s, list, cleanup, f).0;
      Progress(w, s, t, f, v, None) && forall j :: j in KeySet(list) ==> Settled(t, j)
    decreases |list|
  {
    hide Progress, Frame, Sturdy, Newest, Above, Kept, Entangled, Perform;
    if list == [] {
      LogProgress(w, s, s, f, v);
    } else {
      var m := list[0].key;
      assert KeySet(list) == {m} + KeySet(list[1..]);
      if Settled(s, m) {
        MembersGood(w, s0, s, list[1..], cleanup, f, v);
        FrameShrinksWhite(w, s, MemberLoop(w, s, list[1..], cleanup, f).0, {}, None);
      } else {
        var one := Perform(w, s, m, cleanup, f);
        KeptDone(s0, s);
        AboveAlone(w, s0, s, f, v, m);
        PerformGood(w, s0, s, m, cleanup, f, v, [m]);
        NestedFrame(w, s, one.st, m);
        ProgressKept(w, s0, s, one.st, f, v, None);
        ProgressQuiet(w, s, one.st, f, v);
        MembersGood(w, s0, one.st, list[1..], cleanup, f, v);
        var rest := MemberLoop(w, one.st, list[1..], cleanup, f);
        FrameShrinksWhite(w, one.st, rest.0, {}, None);
        ProgressTrans(w, s, one.st, rest.0, {}, None, f, v, None);
      }
    }
  }

  /** From `s` to `t` rows were added, and create calls made, only for what is reachable from the
      unmigrated members of `k`, and none without --include-members. */
  ghost predicate OnlyBelowMembers(w: World, s: State, t: State, f: Flags, k: Key) {
    && s.next <= t.next && |s.trace| <= |t.trace|
    && (forall id :: s.next <= id < t.next ==> id in t.rows && f.members && BelowMembers(w, s, f, k, t.rows[id].key))
    && (forall i: nat :: |s.trace| <= i < |t.trace| && t.trace[i].call.Create? ==>
          f.members && BelowMembers(w, s, f, k, t.trace[i].call.key))
  }

  lemma ReachedBelow(w: World, s: State, k: Key, f: Flags, j: Key)
    requires Done(s, k) && Reached(w, RerunPhase(s, k), f, KeySet(MembersOf(w, k)), j)
    ensures BelowMembers(w, s, f, k, j)
  {
    var q := RerunPhase(s, k);
    RerunColours(s, k);
    hide Newest;
    var path :| WhitePathTo(w, q, f, KeySet(MembersOf(w, k)), path, j);
    WhiteIsUnmigrated(w, q, f, path);
    PathBefore(w, s, q, f, path);
    assert PathFromTo(w, s, f, path, path[0], j);
  }

  /** On any graph and with any handlers. */
  lemma RerunStaysInReach(w: World, s: State, k: Key, cleanup: bool, f: Flags)
    requires Done(s, k)
    ensures OnlyBelowMembers(w, s, Perform(w, s, k, cleanup, f).st, f, k)
  {
    hide Newest, Frame, Perform, Finish, MemberLoop, Conclude, BelowMembers;
    if !Usable(w, k) {
      PerformRefused(w, s, k, cleanup, f);
    } else {
      RerunUnfolds(w, s, k, cleanup, f);
      var id, u := Newest(s, k).value, Remarked(s, k);
      FinishUnfolds(w, u, k, id, [], cleanup, f);
      if !f.members || !w.raises(s.trace, AskMembers(k)) {
        var m := MemberLoop(w, RerunPhase(s, k), MembersOf(w, k), cleanup, f);
        var c := if f.members then CallConnect(w, m.0, k, u.rows[id].dest, m.1) else u;
        if f.members { LoopInReach(w, s, k, cleanup, f); }
        ConcludeInReach(w, s, c, k, id, cleanup, f);
      }
    }
  }

  lemma LoopInReach(w: World, s: State, k: Key, cleanup: bool, f: Flags)
    requires Done(s, k) && f.members
    ensures OnlyBelowMembers(w, s, MemberLoop(w, RerunPhase(s, k), MembersOf(w, k), cleanup, f).0, f, k)
  {
    hide Newest, Frame, MemberLoop, Reached, BelowMembers;
    var q, roots := RerunPhase(s, k), KeySet(MembersOf(w, k));
    MemberLoopWithin(w, q, MembersOf(w, k), cleanup, f);
    forall j | Reached(w, q, f, roots, j) ensures BelowMembers(w, s, f, k, j) { ReachedBelow(w, s, k, f, j); }
  }

  lemma ConcludeInReach(w: World, s: State, c: State, k: Key, id: nat, cleanup: bool, f: Flags)
    requires MigratedRows(c, [id] + []) && OnlyBelowMembers(w, s, c, f, k)
    ensures OnlyBelowMembers(w, s, Conclude(w, c, id, [], cleanup).st, f, k)
  {
    hide Newest, Conclude, BelowMembers;
    ConcludeCalls(w, c, id, [], cleanup);
  }

  /** With calm handlers and nothing refused or in progress, when no start of an unmigrated member is
      entangled: the start returns and creates exactly what is reachable from these members. */
  lemma RerunMigratesMembers(w: World, s: State, k: Key, cleanup: bool, f: Flags, v: set<Key>)
    requires Calm(w) && Usable(w, k) && Done(s, k) && f.members && Sturdy(w, s, f, v)
    requires forall b :: b in v ==> !Busy(s, b)
    requires forall m :: m in KeySet(MembersOf(w, k)) && !Done(s, m) ==> m in v && !Entangled(w, s, f, m)
    ensures var r := Perform(w, s, k, cleanup, f);
      r.res.Ok? && CreatedExactly(w, s, r.st, iset j | BelowMembers(w, s, f, k, j))
  {
    hide Perform, Once, Image, CreatedIn, Newest, Frame, Entangled, IsPath, Sturdy;
    var t := Perform(w, s, k, cleanup, f).st;
    RerunGood(w, s, k, cleanup, f, v);
    StartIsOnceAndImage(w, s, k, cleanup, f);
    RerunStaysInReach(w, s, k, cleanup, f);
    forall j ensures Done(t, j) <==> Done(s, j) || BelowMembers(w, s, f, k, j) {
      if Done(t, j) && !Done(s, j) { CreatedIsCall(s.trace, t.trace, j); }
      if m :| m in KeySet(MembersOf(w, k)) && Reachable(w, s, f, m, j) {
        var path :| PathFromTo(w, s, f, path, m, j);
        PathStartsUnmigrated(w, s, f, path);
        DoneDownPath(w, s, t, f, v, path, j);
      }
    }
    forall j | BelowMembers(w, s, f, k, j) ensures !Done(s, j) {
      var m :| m in KeySet(MembersOf(w, k)) && Reachable(w, s, f, m, j);
      ReachableUnmigrated(w, s, f, m, j);
    }
  }

  lemma PathStartsUnmigrated(w: World, s: State, f: Flags, path: seq<Key>)
    requires IsPath(w, s, f, path)
    ensures !Done(s, path[0])
  {
  }

  lemma RerunGood(w: World, s: State, k: Key, cleanup: bool, f: Flags, v: set<Key>)
    requires Calm(w) && Usable(w, k) && Done(s, k) && f.members && Sturdy(w, s, f, v)
    requires forall b :: b in v ==> !Busy(s, b)
    requires forall m :: m in KeySet(MembersOf(w, k)) && !Done(s, m) ==> m in v && !Entangled(w, s, f, m)
    ensures var r := Perform(w, s, k, cleanup, f);
      && r.res.Ok? && Progress(w, s, r.st, f, v, None)
      && (forall b :: b in v ==> !Busy(r.st, b))
      && forall m :: m in KeySet(MembersOf(w, k)) && !Done(s, m) ==> Done(r.st, m)
  {
    hide Perform, Newest, Frame, Entangled, Sturdy, MemberLoop, Conclude, Finish, Progress, Kept;
    var id, u, q := Newest(s, k).value, Remarked(s, k), RerunPhase(s, k);
    RerunUnfolds(w, s, k, cleanup, f);
    FinishUnfolds(w, u, k, id, [], cleanup, f);
    RerunColours(s, k);
    MarkedProgress(w, s, k, f, v);
    var m := MemberLoop(w, q, MembersOf(w, k), cleanup, f);
    MembersGood(w, s, q, MembersOf(w, k), cleanup, f, v);
    FrameShrinksWhite(w, q, m.0, {}, None);
    ProgressTrans(w, s, q, m.0, {}, None, f, v, None);
    var c := CallConnect(w, m.0, k, u.rows[id].dest, m.1);
    LogProgress(w, m.0, c, f, v);
    ProgressTrans(w, s, m.0, c, {}, None, f, v, None);
    NewestIsRow(s, k);
    ConcludeGood(w, c, id, [], cleanup);
    var t := Conclude(w, c, id, [], cleanup).st;
    FrameProgress(w, c, t, IdSet([id] + []), f, v);
    FrameShrinksWhite(w, c, t, IdSet([id] + []), None);
    ProgressTrans(w, s, c, t, IdSet([id] + []), None, f, v, None);
    ProgressQuiet(w, s, t, f, v);
  }

  lemma MarkedProgress(w: World, s: State, k: Key, f: Flags, v: set<Key>)
    requires Done(s, k)
    ensures Progress(w, s, RerunPhase(s, k), f, v, None) && Kept(s, RerunPhase(s, k))
  {
    hide Newest;
    RerunColours(s, k);
  }

  // ---- Which members it connects ----

  /** The members such a start hands to the connect step. */
  function Reconnected(w: World, s: State, k: Key, cleanup: bool, f: Flags): seq<Migrated>
    requires Done(s, k)
  {
    MemberLoop(w, RerunPhase(s, k), MembersOf(w, k), cleanup, f).1
  }

  /** At some place where `j` is listed its turn finds it unsettled, and its start returns. */
  ghost predicate ReturnedAt(w: World, s: State, k: Key, cleanup: bool, f: Flags, j: Key)
    requires Done(s, k)
  {
    exists i: nat :: i < |MembersOf(w, k)| && MembersOf(w, k)[i].key == j &&
      StartedAt(w, RerunPhase(s, k), MembersOf(w, k), cleanup, f, i)
  }

  /** On any graph and with any handlers: when such a start with members returns it makes one connect call
      for its root, with the recorded id, and hands over a member exactly when, at some place where it is
      listed, its turn finds it unsettled and its start under the same flags returns. */
  lemma RerunConnects(w: World, s: State, k: Key, cleanup: bool, f: Flags)
    requires f.members && Done(s, k) && Perform(w, s, k, cleanup, f).res.Ok?
    ensures var t, out := Perform(w, s, k, cleanup, f).st, Reconnected(w, s, k, cleanup, f);
      && (exists i: nat :: |s.trace| <= i && ConnectAt(t.trace, i, k))
      && (forall i: nat :: |s.trace| <= i && ConnectAt(t.trace, i, k) ==>
            t.trace[i].call == Connect(k, DestOf(s, k), out))
      && forall j :: Listed(out, j) <==> ReturnedAt(w, s, k, cleanup, f, j)
  {
    hide Newest, Frame, Perform, Finish, MemberLoop, Conclude, StartedAt;
    if !Usable(w, k) { PerformRefused(w, s, k, cleanup, f); }
    var id, u, q := Newest(s, k).value, Remarked(s, k), RerunPhase(s, k);
    RerunUnfolds(w, s, k, cleanup, f);
    FinishUnfolds(w, u, k, id, [], cleanup, f);
    RerunColours(s, k);
    var m := MemberLoop(w, q, MembersOf(w, k), cleanup, f);
    MemberLoopWithin(w, q, MembersOf(w, k), cleanup, f);
    var c := CallConnect(w, m.0, k, u.rows[id].dest, m.1);
    ConcludeCalls(w, c, id, [], cleanup);
    var t := Perform(w, s, k, cleanup, f).st;
    assert ConnectAt(t.trace, |m.0.trace|, k);
    forall i: nat | |s.trace| <= i && ConnectAt(t.trace, i, k)
      ensures t.trace[i].call == Connect(k, DestOf(s, k), m.1)
    {
      if |q.trace| <= i < |m.0.trace| {
        assert ConnectAt(m.0.trace, i, k);
        NoConnectWithin(w, q, m.0, f, KeySet(MembersOf(w, k)), k, i);
        assert false;
      }
    }
    forall j { ListedIff(w, q, MembersOf(w, k), cleanup, f, j); }
  }

  // ---- What becomes of its row and its source ----

  /** The state in which its source is deleted, if it is. */
  function RecleanStart(w: World, s: State, k: Key, f: Flags): State
    requires Done(s, k)
  {
    if f.members then MemberPhase(w, Remarked(s, k), k, DestOf(s, k), true, f).st else Remarked(s, k)
  }

  /** Such a start raises exactly when the members cannot be listed or, with cleanup, its own source cannot
      be deleted; its row says which, and its source is gone exactly when it was deleted, now or before. */
  lemma RerunStatusIff(w: World, s: State, k: Key, cleanup: bool, f: Flags)
    requires Usable(w, k) && Done(s, k)
    ensures var r, id := Perform(w, s, k, cleanup, f), Newest(s, k).value;
      var unlisted := f.members && w.raises(s.trace, AskMembers(k));
      var kept := cleanup && w.raises(RecleanStart(w, s, k, f).trace, DeleteSource(k));
      && IsNewest(r.st, k, id) && id in r.st.rows
      && r.st.rows[id] == s.rows[id].(
           status := if unlisted then PendingMembers else if kept then SourceCleanupFailed else Completed,
           sourceRemoved := s.rows[id].sourceRemoved || (cleanup && !unlisted && !kept))
      && (r.res.Ok? <==> !unlisted && !kept)
  {
    hide Newest, Frame, Perform, Finish, MemberLoop, Conclude;
    var id, u, q := Newest(s, k).value, Remarked(s, k), RerunPhase(s, k);
    RerunUnfolds(w, s, k, cleanup, f);
    FinishUnfolds(w, u, k, id, [], cleanup, f);
    RerunColours(s, k);
    NewestIsRow(s, k);
    EndsNewest(w, s, k, cleanup, f);
    if !f.members || !w.raises(s.trace, AskMembers(k)) {
      var m := MemberLoop(w, q, MembersOf(w, k), cleanup, f);
      var c := if f.members then CallConnect(w, m.0, k, u.rows[id].dest, m.1) else u;
      ConcludeOwn(w, c, id, k, cleanup);
      assert cleanup ==> c == RecleanStart(w, s, k, f);
    } else {
      assert Perform(w, s, k, cleanup, f).st.rows == u.rows;
    }
  }

  lemma EndsNewest(w: World, s: State, k: Key, cleanup: bool, f: Flags)
    requires Usable(w, k) && Done(s, k)
    ensures IsNewest(Perform(w, s, k, cleanup, f).st, k, Newest(s, k).value)
  {
    hide Finish;
    var u, id := Remarked(s, k), Newest(s, k).value;
    RerunUnfolds(w, s, k, cleanup, f);
    LeaveFinish(s, u, Finish(w, u, k, id, [], cleanup, f).st, k, id, []);
  }

  /** The cleanup of a start without a cleanup list. */
  lemma ConcludeOwn(w: World, s: State, id: nat, k: Key, cleanup: bool)
    requires MigratedRows(s, [id] + []) && id in s.rows && s.rows[id].key == k && Usable(w, k)
    ensures var r, kept := Conclude(w, s, id, [], cleanup), cleanup && w.raises(s.trace, DeleteSource(k));
      && id in r.st.rows && (r.res.Ok? <==> !kept)
      && r.st.rows[id] == s.rows[id].(
           status := if kept then SourceCleanupFailed else Completed,
           sourceRemoved := s.rows[id].sourceRemoved || (cleanup && !kept))
  {
    hide Newest, Frame;
    if cleanup {
      var s1, ids := SetStatus(s, id, PendingCleanup), [id] + [];
      assert ids[0] == id && ids[1..] == [] && MigratedRows(s1, ids);
      var c := Cleanup(w, s1, id);
      if c.res.Ok? { assert CleanupAll(w, c.st, []) == Outcome(c.st, Ok(())); }
    }
  }

  /** With cleanup it deletes its own source, and sources in scope of its members as any start does; each at
      most once. */
  lemma RerunScoped(w: World, s: State, k: Key, f: Flags)
    requires Done(s, k)
    ensures var t := Perform(w, s, k, true, f).st;
      forall i: nat, d :: |s.trace| <= i && DeleteAt(t.trace, i, d) ==>
        && (d == k || (f.members && InScope(w, KeySet(MembersOf(w, k)), t.trace, |s.trace|, d)
              && CreatedIn(t.trace, |s.trace|, i, d)))
        && forall j: nat :: i < j ==> !DeleteAt(t.trace, j, d)
  {
    hide Newest, Frame, Perform, Finish, MemberPhase, Conclude, InScope, CreatedIn;
    if !Usable(w, k) {
      PerformRefused(w, s, k, true, f);
    } else {
      var id, u := Newest(s, k).value, Remarked(s, k);
      RerunUnfolds(w, s, k, true, f);
      NewestIsRow(s, k);
      var m := MemberPhase(w, u, k, u.rows[id].dest, true, f);
      MemberPhaseScoped(w, u, k, u.rows[id].dest, f);
      RootNotDeleted(w, u, k, f);
      var c := if f.members then m.st else u;
      FrameCalls(w, u, u);
      ConcludeDeletes(w, u, c, id, []);
      var t := Perform(w, s, k, true, f).st;
      FinishOfPhase(w, u, k, id, f);
      forall i: nat, d | |s.trace| <= i && DeleteAt(t.trace, i, d)
        ensures d == k || (f.members && InScope(w, KeySet(MembersOf(w, k)), t.trace, |s.trace|, d)
          && CreatedIn(t.trace, |s.trace|, i, d))
        ensures forall j: nat :: i < j ==> !DeleteAt(t.trace, j, d)
      {
        if i < |c.trace| {
          assert DeleteAt(c.trace, i, d);
          InScopeGrows(w, KeySet(MembersOf(w, k)), KeySet(MembersOf(w, k)), c.trace, t.trace, |s.trace|, |s.trace|, d);
          CreatedExtends(c.trace, t.trace, |s.trace|, i, i, d);
          forall j: nat | i < j ensures !DeleteAt(t.trace, j, d) {
            if j < |c.trace| { assert !DeleteAt(c.trace, j, d); }
          }
        }
      }
    }
  }

  /** Its own source is not deleted in its member phase: it was migrated before. */
  lemma RootNotDeleted(w: World, u: State, k: Key, f: Flags)
    requires Done(u, k)
    ensures var c := MemberPhase(w, u, k, DestOf(u, k), true, f).st;
      forall i: nat :: |u.trace| <= i ==> !DeleteAt(c.trace, i, k)
  {
    hide MemberPhase, Newest, Frame, InScope;
    var c := MemberPhase(w, u, k, DestOf(u, k), true, f).st;
    MemberPhaseScoped(w, u, k, DestOf(u, k), f);
    MemberPhaseReaches(w, u, k, DestOf(u, k), true, f);
    ReachesOnce(w, u, c);
    hide CreatedIn, Once;
    forall i: nat | |u.trace| <= i ensures !DeleteAt(c.trace, i, k) { MigratedNotCreated(u, c, i, k); }
  }

  lemma MigratedNotCreated(s: State, t: State, i: nat, k: Key)
    requires Once(s, t) && Done(s, k)
    ensures !CreatedIn(t.trace, |s.trace|, i, k)
  {
  }

  lemma FinishOfPhase(w: World, s: State, k: Key, id: nat, f: Flags)
    requires IsNewest(s, k, id) && MigratedRows(s, [id] + [])
    ensures var m := MemberPhase(w, s, k, s.rows[id].dest, true, f);
      var c := if f.members then m.st else s;
      && MigratedRows(c, [id] + [])
      && Finish(w, s, k, id, [], true, f).st == if f.members && m.res.Err? then c else Conclude(w, c, id, [], true).st
  {
    hide Newest, MemberPhase, Conclude;
  }
}
