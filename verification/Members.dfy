/** What the member phase hands to the connect step. */
module Members {
  import opened Store
  import opened World
  import opened Orchestration
  import opened Reach
  import opened Returns

  /** The entries follow the order of the member list. */
  predicate InOrder(out: seq<Migrated>, list: seq<Resource>)
    decreases |list|
  {
    out == [] || (list != [] &&
      ((out[0].key == list[0].key && InOrder(out[1..], list[1..])) || InOrder(out, list[1..])))
  }

  /** Each entry is a member that was neither migrated nor in progress in `s`, is migrated in `t`, and
      carries its recorded destination id; no member is entered twice. */
  ghost predicate NewlyMigrated(s: State, t: State, list: seq<Resource>, out: seq<Migrated>) {
    && InOrder(out, list)
    && (forall i :: 0 <= i < |out| ==>
          && out[i].key in KeySet(list) && !Settled(s, out[i].key)
          && Done(t, out[i].key) && out[i].dest == DestOf(t, out[i].key) != "")
    && (forall i, j :: 0 <= i < j < |out| ==> out[i].key != out[j].key)
  }

  lemma {:induction false} MemberLoopPasses(w: World, s: State, list: seq<Resource>, cleanup: bool, f: Flags)
    ensures var r := MemberLoop(w, s, list, cleanup, f); NewlyMigrated(s, r.0, list, r.1)
    decreases |White(w, s)|, if list == [] then 0 else 1, |list|
  {
    hide Newest, Frame;
    if list != [] {
      assert KeySet(list) == {list[0].key} + KeySet(list[1..]);
      if Settled(s, list[0].key) {
        MemberLoopPasses(w, s, list[1..], cleanup, f);
      } else {
        var one := Perform(w, s, list[0].key, cleanup, f);
        NestedFrame(w, s, one.st, list[0].key);
        FrameShrinksWhite(w, s, one.st, {}, None);
        MemberLoopPasses(w, one.st, list[1..], cleanup, f);
        var rest := MemberLoop(w, one.st, list[1..], cleanup, f);
        NewestIsRow(one.st, list[0].key);
        if one.res.Ok? && AsMigrated(one.st, one.res.value).Ok? {
          PassOne(s, one.st, rest.0, list, one.res.value, rest.1);
        }
      }
    }
  }

  lemma PassOne(s: State, t: State, u: State, list: seq<Resource>, id: nat, rest: seq<Migrated>)
    requires list != [] && !Settled(s, list[0].key) && IsNewest(t, list[0].key, id) && Done(t, list[0].key)
    requires forall j :: Settled(s, j) ==> Settled(t, j)
    requires Frame(t, u, {}, None) && NewlyMigrated(t, u, list[1..], rest) && AsMigrated(t, id).Ok?
    ensures NewlyMigrated(s, u, list, [AsMigrated(t, id).value] + rest)
  {
    var out := [AsMigrated(t, id).value] + rest;
    assert out[1..] == rest && out[0].key == list[0].key;
    assert Newest(u, list[0].key) == Newest(t, list[0].key) && u.rows[id] == t.rows[id];
    hide Newest, Frame;
    forall i | 0 <= i < |out|
      ensures out[i].key in KeySet(list) && !Settled(s, out[i].key)
      ensures Done(u, out[i].key) && out[i].dest == DestOf(u, out[i].key) != ""
      ensures i > 0 ==> out[i].key != out[0].key
    {
      if i > 0 { assert out[i] == rest[i - 1]; }
    }
    forall i, j | 0 <= i < j < |out| ensures out[i].key != out[j].key {
      if i > 0 { assert out[i] == rest[i - 1] && out[j] == rest[j - 1]; }
    }
  }

  ghost predicate ConnectedLast(w: World, s: State, t: State, k: Key, parent: string, members: seq<Migrated>) {
    && t.trace != [] && t.trace[|t.trace| - 1].call == Connect(k, parent, members)
    && NewlyMigrated(s, t, MembersOf(w, k), members)
  }

  /** The connect step is the last call of a member phase that returns, and it is given exactly such
      members: one that was migrated or in progress before is not connected to its parent. */
  lemma OnlyNewMembersAreConnected(w: World, s: State, k: Key, parent: string, cleanup: bool, f: Flags)
    requires MemberPhase(w, s, k, parent, cleanup, f).res.Ok?
    ensures exists members :: ConnectedLast(w, s, MemberPhase(w, s, k, parent, cleanup, f).st, k, parent, members)
  {
    hide Frame;
    var s1 := Log(s, AskMembers(k), true, "");
    var m := MemberLoop(w, s1, MembersOf(w, k), cleanup, f);
    MemberLoopPasses(w, s1, MembersOf(w, k), cleanup, f);
    FrameCalls(w, s, s1);
    assert ConnectedLast(w, s, CallConnect(w, m.0, k, parent, m.1), k, parent, m.1);
  }

  ghost predicate ConnectedTo(tr: seq<Event>, from: nat, k: Key, parent: string) {
    exists i :: from <= i < |tr| && tr[i].call.Connect? && tr[i].call.key == k && tr[i].call.parent == parent
  }

  /** A start with members that returns has connected them to the root's recorded copy. */
  lemma MembersAreConnectedToTheCopy(w: World, s: State, k: Key, cleanup: bool, f: Flags)
    requires f.members && Perform(w, s, k, cleanup, f).res.Ok?
    ensures var t := Perform(w, s, k, cleanup, f).st; ConnectedTo(t.trace, |s.trace|, k, DestOf(t, k))
  {
    hide Newest, TryMigrate, MemberPhase, Finish, OwnRow, Exempt;
    if Done(s, k) {
      var id := Newest(s, k).value;
      NewestIsRow(s, k);
      var t := SetStatus(s, id, PendingMembers);
      MarkAgain(s, k);
      FinishConnects(w, t, k, id, [], cleanup, f);
    } else {
      var p := TryMigrate(w, s, k, f);
      var t := SetStatus(p.st, s.next, PendingMembers);
      MarkMigrated(s, p.st, k, p.res.value);
      FinishConnects(w, t, k, s.next, p.res.value, cleanup, f);
    }
  }

  lemma FinishConnects(w: World, s: State, k: Key, id: nat, deps: seq<nat>, cleanup: bool, f: Flags)
    requires f.members && IsNewest(s, k, id) && MigratedRows(s, [id] + deps)
    requires Finish(w, s, k, id, deps, cleanup, f).res.Ok?
    ensures var t := Finish(w, s, k, id, deps, cleanup, f).st; ConnectedTo(t.trace, |s.trace|, k, DestOf(t, k))
  {
    hide Newest, MemberPhase, Conclude, IdSet;
    assert id in [id] + deps;
    var m := MemberPhase(w, s, k, s.rows[id].dest, cleanup, f);
    PhaseConnects(w, s, k, s.rows[id].dest, cleanup, f);
    var t := Conclude(w, m.st, id, deps, cleanup).st;
    assert m.st.rows[id] == s.rows[id];
    assert m.st.trace <= t.trace && t.rows[id].dest == s.rows[id].dest;
    var i :| |s.trace| <= i < |m.st.trace| && m.st.trace[i].call.Connect? && m.st.trace[i].call.key == k
      && m.st.trace[i].call.parent == s.rows[id].dest;
    assert t.trace[i] == m.st.trace[i];
    NewestKept(s, m.st, t, k);
  }

  lemma NewestKept(s: State, t: State, u: State, k: Key)
    requires Done(s, k) && Frame(s, t, {}, None) && Newest(u, k) == Newest(t, k)
    ensures Newest(u, k) == Newest(s, k)
  {
  }

  lemma PhaseConnects(w: World, s: State, k: Key, parent: string, cleanup: bool, f: Flags)
    requires MemberPhase(w, s, k, parent, cleanup, f).res.Ok?
    ensures ConnectedTo(MemberPhase(w, s, k, parent, cleanup, f).st.trace, |s.trace|, k, parent)
  {
    hide Frame, Newest;
    var s1 := Log(s, AskMembers(k), true, "");
    var m := MemberLoop(w, s1, MembersOf(w, k), cleanup, f);
    MemberLoopExtends(w, s1, MembersOf(w, k), cleanup, f);
    var t := CallConnect(w, m.0, k, parent, m.1);
    assert t.trace[|m.0.trace|].call == Connect(k, parent, m.1);
  }

  lemma MemberLoopExtends(w: World, s: State, list: seq<Resource>, cleanup: bool, f: Flags)
    ensures s.trace <= MemberLoop(w, s, list, cleanup, f).0.trace
  {
  }

  /** A subnet migrated before its router is left out of the router's connect step. */
  lemma MigratedMemberIsNotConnected(w: World, s: State, k: Key, parent: string, cleanup: bool, f: Flags, j: Key)
    requires MemberPhase(w, s, k, parent, cleanup, f).res.Ok? && Settled(s, j)
    ensures var t := MemberPhase(w, s, k, parent, cleanup, f).st;
      && t.trace != [] && var call := t.trace[|t.trace| - 1].call;
      && call.Connect? && call.key == k && forall m :: m in call.members ==> m.key != j
  {
    hide MemberPhase, Settled;
    OnlyNewMembersAreConnected(w, s, k, parent, cleanup, f);
  }

  // ---- When a member is connected ----

  predicate Listed(out: seq<Migrated>, j: Key) {
    exists i :: 0 <= i < |out| && out[i].key == j
  }

  /** When its turn comes, member `i` is unsettled and its start returns. */
  predicate StartedAt(w: World, s: State, list: seq<Resource>, cleanup: bool, f: Flags, i: nat)
    requires i < |list|
  {
    var before := MemberLoop(w, s, list[..i], cleanup, f).0;
    !Settled(before, list[i].key) && Perform(w, before, list[i].key, cleanup, f).res.Ok?
  }

  /** A start that returns has a row with all the ids the connect step is given. */
  lemma ReturnedHasIds(w: World, s: State, k: Key, cleanup: bool, f: Flags)
    requires !Done(s, k) && Perform(w, s, k, cleanup, f).res.Ok?
    ensures var one := Perform(w, s, k, cleanup, f);
      && one.res.value in one.st.rows
      && AsMigrated(one.st, one.res.value) == Ok(Migrated(k, DestOf(one.st, k)))
  {
    hide Perform, Newest, Frame;
    StartIsTidy(w, s, k, cleanup, f);
    NewestIsRow(Perform(w, s, k, cleanup, f).st, k);
  }

  /** Taking the first member off. */
  lemma MemberLoopFirst(w: World, s: State, list: seq<Resource>, cleanup: bool, f: Flags)
    requires list != []
    ensures var t := if Settled(s, list[0].key) then s else Perform(w, s, list[0].key, cleanup, f).st;
      var rest, r := MemberLoop(w, t, list[1..], cleanup, f), MemberLoop(w, s, list, cleanup, f);
      && r.0 == rest.0
      && r.1 == (if StartedAt(w, s, list, cleanup, f, 0)
                 then [Migrated(list[0].key, DestOf(t, list[0].key))] + rest.1 else rest.1)
  {
    hide Newest, Frame, Perform;
    assert list[..0] == [];
    NoMembers(w, s, cleanup, f);
    if !Settled(s, list[0].key) && Perform(w, s, list[0].key, cleanup, f).res.Ok? {
      ReturnedHasIds(w, s, list[0].key, cleanup, f);
    }
  }

  lemma NoMembers(w: World, s: State, cleanup: bool, f: Flags)
    ensures MemberLoop(w, s, [], cleanup, f) == (s, [])
  {
  }

  lemma StartedLater(w: World, s: State, list: seq<Resource>, cleanup: bool, f: Flags, i: nat)
    requires i + 1 < |list|
    ensures var t := if Settled(s, list[0].key) then s else Perform(w, s, list[0].key, cleanup, f).st;
      StartedAt(w, s, list, cleanup, f, i + 1) == StartedAt(w, t, list[1..], cleanup, f, i)
  {
    hide Newest, Frame, Perform, MemberLoop;
    MemberLoopFirst(w, s, list[..i + 1], cleanup, f);
    assert list[..i + 1][1..] == list[1..][..i];
  }

  lemma ListedCons(m: Migrated, rest: seq<Migrated>, j: Key)
    ensures Listed([m] + rest, j) <==> m.key == j || Listed(rest, j)
  {
    var out := [m] + rest;
    if i :| 0 <= i < |rest| && rest[i].key == j { assert out[i + 1].key == j; }
    if m.key == j { assert out[0].key == j; }
  }

  /** On any graph and with any handlers: a member is handed to the connect step exactly when, at some
      place where it is listed, it was unsettled when its turn came and its start returned. */
  lemma {:induction false} ListedIff(w: World, s: State, list: seq<Resource>, cleanup: bool, f: Flags, j: Key)
    ensures Listed(MemberLoop(w, s, list, cleanup, f).1, j) <==>
            exists i: nat :: i < |list| && list[i].key == j && StartedAt(w, s, list, cleanup, f, i)
    decreases |list|
  {
    hide Newest, Frame, Perform, StartedAt, MemberLoop;
    if list == [] {
      NoMembers(w, s, cleanup, f);
    } else {
      var t := if Settled(s, list[0].key) then s else Perform(w, s, list[0].key, cleanup, f).st;
      var rest := MemberLoop(w, t, list[1..], cleanup, f).1;
      MemberLoopFirst(w, s, list, cleanup, f);
      ListedIff(w, t, list[1..], cleanup, f, j);
      forall i: nat | i + 1 < |list|
        ensures StartedAt(w, s, list, cleanup, f, i + 1) == StartedAt(w, t, list[1..], cleanup, f, i)
      {
        StartedLater(w, s, list, cleanup, f, i);
      }
      ListedCons(Migrated(list[0].key, DestOf(t, list[0].key)), rest, j);
      if Listed(rest, j) {
        var i: nat :| i < |list[1..]| && list[1..][i].key == j && StartedAt(w, t, list[1..], cleanup, f, i);
        assert list[i + 1].key == j && StartedAt(w, s, list, cleanup, f, i + 1);
      }
      if i: nat :| i < |list| && list[i].key == j && StartedAt(w, s, list, cleanup, f, i) {
        if i > 0 { assert list[1..][i - 1].key == j && StartedAt(w, t, list[1..], cleanup, f, i - 1); }
      }
    }
  }

  // ---- The connect step of a whole start ----

  /** The state in which a start on an unmigrated resource begins its member loop. */
  function PhaseStart(w: World, s: State, k: Key, f: Flags): State
    requires !Done(s, k)
  {
    var p := TryMigrate(w, s, k, f);
    Log(SetStatus(p.st, s.next, PendingMembers), AskMembers(k), true, "")
  }

  /** The members such a start hands to the connect step. */
  function Connected(w: World, s: State, k: Key, cleanup: bool, f: Flags): seq<Migrated>
    requires !Done(s, k)
  {
    MemberLoop(w, PhaseStart(w, s, k, f), MembersOf(w, k), cleanup, f).1
  }

  lemma {:induction false} WhiteEnd(w: World, s: State, f: Flags, path: seq<Key>)
    requires WhitePath(w, s, f, path)
    ensures !Settled(s, path[|path| - 1])
    decreases |path|
  {
    if |path| > 1 { WhiteEnd(w, s, f, path[1..]); }
  }

  lemma ReachedIsUnsettled(w: World, s: State, f: Flags, roots: set<Key>, j: Key)
    requires Reached(w, s, f, roots, j)
    ensures !Settled(s, j)
  {
    var path :| WhitePathTo(w, s, f, roots, path, j);
    WhiteEnd(w, s, f, path);
  }

  predicate ConnectAt(tr: seq<Event>, i: nat, k: Key) {
    i < |tr| && tr[i].call.Connect? && tr[i].call.key == k
  }

  /** Calls made within reach of a settled resource are not for it. */
  lemma NoConnectWithin(w: World, s: State, t: State, f: Flags, roots: set<Key>, k: Key, i: nat)
    requires Within(w, s, t, f, roots, None) && Settled(s, k) && |s.trace| <= i
    ensures !ConnectAt(t.trace, i, k)
  {
    hide Newest, Reached;
    if ConnectAt(t.trace, i, k) { ReachedIsUnsettled(w, s, f, roots, k); }
  }

  /** A start with members that returns makes one connect call for its root, with the root's recorded
      destination id and exactly that list. */
  lemma StartConnects(w: World, s: State, k: Key, cleanup: bool, f: Flags)
    requires f.members && !Done(s, k) && Perform(w, s, k, cleanup, f).res.Ok?
    ensures var t := Perform(w, s, k, cleanup, f).st;
      && TryMigrate(w, s, k, f).res.Ok?
      && (exists i: nat :: |s.trace| <= i && ConnectAt(t.trace, i, k))
      && forall i: nat :: |s.trace| <= i && ConnectAt(t.trace, i, k) ==>
           t.trace[i].call == Connect(k, DestOf(t, k), Connected(w, s, k, cleanup, f))
  {
    hide TryMigrate, Finish, Newest, Connected;
    MembersAreConnectedToTheCopy(w, s, k, cleanup, f);
    ConnectsOnce(w, s, k, cleanup, f);
  }

  lemma ConnectsOnce(w: World, s: State, k: Key, cleanup: bool, f: Flags)
    requires f.members && !Done(s, k) && Perform(w, s, k, cleanup, f).res.Ok?
    ensures var t := Perform(w, s, k, cleanup, f).st;
      forall i: nat :: |s.trace| <= i && ConnectAt(t.trace, i, k) ==>
        t.trace[i].call == Connect(k, DestOf(t, k), Connected(w, s, k, cleanup, f))
  {
    hide Newest, Frame, Within, TryMigrate, Conclude, MemberLoop, Resolve;
    var s1, r, p := Insert(s, NewRow(k)), Resolve(w, s, k, f), TryMigrate(w, s, k, f);
    var u := SetStatus(p.st, s.next, PendingMembers);
    MarkMigrated(s, p.st, k, p.res.value);
    ResolveWithin(w, s, k, f);
    InsertShrinksWhite(w, s, k);
    TryMigrateCalls(w, s, k, f);
    var q := PhaseStart(w, s, k, f);
    assert Settled(q, k) by { ColoursSame(u, q); }
    var m := MemberLoop(w, q, MembersOf(w, k), cleanup, f);
    MemberLoopWithin(w, q, MembersOf(w, k), cleanup, f);
    var dest := u.rows[s.next].dest;
    var c := CallConnect(w, m.0, k, dest, m.1);
    FinishCalls(w, u, k, s.next, p.res.value, cleanup, f);
    var t := Perform(w, s, k, cleanup, f).st;
    forall i: nat | |s.trace| <= i && ConnectAt(t.trace, i, k)
      ensures t.trace[i].call == Connect(k, dest, m.1)
    {
      if i < |r.st.trace| {
        assert ConnectAt(r.st.trace, i, k);
        NoConnectWithin(w, s1, r.st, f, DepTargets(w, f, k), k, i);
        assert false;
      } else if i >= |q.trace| && i < |m.0.trace| {
        assert ConnectAt(m.0.trace, i, k);
        NoConnectWithin(w, q, m.0, f, KeySet(MembersOf(w, k)), k, i);
        assert false;
      }
    }
  }

  /** The calls of the parent's own migration after its dependencies: just the create call. */
  lemma TryMigrateCalls(w: World, s: State, k: Key, f: Flags)
    requires !Done(s, k) && TryMigrate(w, s, k, f).res.Ok?
    ensures var r, p := Resolve(w, s, k, f), TryMigrate(w, s, k, f);
      && s.trace <= r.st.trace <= p.st.trace && |p.st.trace| == |r.st.trace| + 1
      && p.st.trace[|r.st.trace|].call.Create?
  {
    hide Newest;
  }

  /** The calls from the member phase on: the loop, the connect step and the deletions. */
  lemma FinishCalls(w: World, s: State, k: Key, id: nat, deps: seq<nat>, cleanup: bool, f: Flags)
    requires f.members && IsNewest(s, k, id) && Done(s, k) && MigratedRows(s, [id] + deps)
    requires Finish(w, s, k, id, deps, cleanup, f).res.Ok?
    ensures var q := Log(s, AskMembers(k), true, "");
      var m := MemberLoop(w, q, MembersOf(w, k), cleanup, f);
      var t := Finish(w, s, k, id, deps, cleanup, f).st;
      && q.trace <= m.0.trace <= t.trace && |m.0.trace| < |t.trace| && DestOf(t, k) == s.rows[id].dest
      && t.trace[|m.0.trace|].call == Connect(k, s.rows[id].dest, m.1)
      && forall i :: |m.0.trace| < i < |t.trace| ==> t.trace[i].call.DeleteSource?
  {
    hide Newest, MemberLoop, Conclude, IdSet;
    assert id in [id] + deps;
    var q := Log(s, AskMembers(k), true, "");
    var m := MemberLoop(w, q, MembersOf(w, k), cleanup, f);
    var p := MemberPhase(w, s, k, s.rows[id].dest, cleanup, f);
    ConcludeCalls(w, p.st, id, deps, cleanup);
    NewestKept(s, p.st, Conclude(w, p.st, id, deps, cleanup).st, k);
  }

  lemma ConcludeCalls(w: World, s: State, id: nat, deps: seq<nat>, cleanup: bool)
    requires MigratedRows(s, [id] + deps)
    ensures var t := Conclude(w, s, id, deps, cleanup).st;
      s.trace <= t.trace && forall i :: |s.trace| <= i < |t.trace| ==> t.trace[i].call.DeleteSource?
  {
    hide Newest, Frame;
    assert id in [id] + deps;
    if cleanup { CleanupAllCalls(w, SetStatus(s, id, PendingCleanup), [id] + deps); }
  }
}
