/** Which resources a start migrates: exactly those reachable from its root through unmigrated ones. */
module Closure {
  import opened Store
  import opened World
  import opened Orchestration
  import opened Steps
  import opened Safety
  import opened DryRun
  import opened Reach
  import opened Parts

  // ---- Main result ----

  /** Once nothing of the part is in progress, whatever lies on a path from a new copy is migrated. */
  lemma {:induction false} DoneDownPath(w: World, s: State, t: State, f: Flags, v: set<Key>, path: seq<Key>, j: Key)
    requires Sturdy(w, s, f, v) && Progress(w, s, t, f, v, None) && (forall b :: b in v ==> !Busy(t, b))
    requires IsPath(w, s, f, path) && path[|path| - 1] == j && path[0] in v && Done(t, path[0])
    ensures Done(t, j)
    decreases |path|
  {
    if |path| > 1 {
      assert Follows(w, s, path[0], f, path[1]) && !Done(s, path[1]) && path[1] in v;
      assert LeadsTo(w, path[0], f, path[1], true);
      assert Settled(t, path[1]);
      DoneDownPath(w, s, t, f, v, path[1..], j);
    }
  }

  lemma StartIsOnceAndImage(w: World, s: State, k: Key, cleanup: bool, f: Flags)
    ensures var t := Perform(w, s, k, cleanup, f).st;
      && Once(s, t) && Image(w, s, t)
      && forall j :: CreatedIn(t.trace, |s.trace|, |t.trace|, j) <==> Done(t, j) && !Done(s, j)
  {
    hide Perform;
    var t := Perform(w, s, k, cleanup, f).st;
    PerformReaches(w, s, k, cleanup, f);
    ReachesImage(w, s, t);
    var ls :| Leads(w, s, ls, t, true);
    OnceExec(w, s, s, ls);
  }

  /** `created` says which resources a start from `s` to `t` created: each once, after its dependencies
      and from their copies, with no row for any other. */
  ghost predicate CreatedExactly(w: World, s: State, t: State, created: iset<Key>) {
    && (forall j :: CreatedIn(t.trace, |s.trace|, |t.trace|, j) <==> j in created)
    && (forall j :: Done(t, j) <==> Done(s, j) || j in created)
    && Once(s, t) && Image(w, s, t)
    && (forall id :: s.next <= id < t.next ==> id in t.rows && t.rows[id].key in created)
  }

  /** When handlers do not raise and nothing is refused or in progress, a start that is not entangled
      returns and creates exactly what is reachable from its root through unmigrated resources. */
  lemma StartMigratesReachable(w: World, s: State, k: Key, cleanup: bool, f: Flags, v: set<Key>)
    requires Calm(w) && Sturdy(w, s, f, v) && k in v && !Done(s, k) && !Entangled(w, s, f, k)
    requires forall j :: j in v ==> !Busy(s, j)
    ensures var r := Perform(w, s, k, cleanup, f);
      r.res.Ok? && CreatedExactly(w, s, r.st, iset j | Reachable(w, s, f, k, j))
  {
    hide Perform, Once, Image, CreatedIn, Newest, Frame, Entangled, IsPath;
    var t := Perform(w, s, k, cleanup, f).st;
    StartAlone(w, s, f, v, k);
    PerformGood(w, s, s, k, cleanup, f, v, [k]);
    StartIsOnceAndImage(w, s, k, cleanup, f);
    StartStaysInReach(w, s, k, cleanup, f);
    forall j ensures Done(t, j) <==> Done(s, j) || Reachable(w, s, f, k, j) {
      if Done(t, j) && !Done(s, j) { CreatedIsCall(s.trace, t.trace, j); }
      if path :| PathFromTo(w, s, f, path, k, j) { DoneDownPath(w, s, t, f, v, path, j); }
    }
    forall j | Reachable(w, s, f, k, j) ensures !Done(s, j) { ReachableUnmigrated(w, s, f, k, j); }
  }

  lemma CreatedIsCall(a: seq<Event>, b: seq<Event>, j: Key)
    requires CreatedIn(b, |a|, |b|, j)
    ensures exists i: nat :: |a| <= i < |b| && b[i].call.Create? && b[i].call.key == j
  {
  }

  lemma {:induction false} PathUnmigrated(w: World, s: State, f: Flags, path: seq<Key>)
    requires IsPath(w, s, f, path)
    ensures !Done(s, path[|path| - 1])
    decreases |path|
  {
    if |path| > 1 { PathUnmigrated(w, s, f, path[1..]); }
  }

  lemma ReachableUnmigrated(w: World, s: State, f: Flags, k: Key, j: Key)
    requires Reachable(w, s, f, k, j)
    ensures !Done(s, j)
  {
    var path :| PathFromTo(w, s, f, path, k, j);
    PathUnmigrated(w, s, f, path);
  }

  /** On any graph and with any handlers: whatever a start migrated, all that it depends on, however
      indirectly, is migrated too. */
  lemma {:induction false} DependenciesFollow(w: World, s: State, t: State, path: seq<Key>, j: Key)
    requires Image(w, s, t) && IsPath(w, s, Flags(true, false), path) && path[|path| - 1] == j && Done(t, path[0])
    ensures Done(t, j)
    decreases |path|
  {
    if |path| > 1 {
      var k, d := path[0], path[1];
      hide Newest;
      var i: nat :| |s.trace| <= i < |t.trace| && CreatedAt(t.trace, i, k);
      assert ImageAt(w, s, t, i);
      InKeySet(DepsOf(w, k), d);
      DependenciesFollow(w, s, t, path[1..], j);
    }
  }

  lemma StartMigratesDependencies(w: World, s: State, k: Key, cleanup: bool, f: Flags)
    requires Perform(w, s, k, cleanup, f).res.Ok?
    ensures var t := Perform(w, s, k, cleanup, f).st;
      forall j :: Reachable(w, s, Flags(true, false), k, j) ==> Done(t, j)
  {
    hide Perform, Newest, IsPath, Image;
    var t := Perform(w, s, k, cleanup, f).st;
    StartIsOnceAndImage(w, s, k, cleanup, f);
    forall j | Reachable(w, s, Flags(true, false), k, j) ensures Done(t, j) {
      var path :| PathFromTo(w, s, Flags(true, false), path, k, j);
      DependenciesFollow(w, s, t, path, j);
    }
  }

  // ---- What an entangled start leaves out ----

  /** On any graph and with any handlers: as long as `k` is in progress, nothing that depends on it is
      migrated. */
  lemma DependentsWait(w: World, s: State, k: Key, f: Flags, x: Key)
    requires !Done(s, k) && !Done(s, x) && Usable(w, k) && k in KeySet(DepsOf(w, x))
    ensures !Done(Resolve(w, s, k, f).st, x)
  {
    hide Newest, Resolve, KeySet;
    var t := Resolve(w, s, k, f).st;
    InsertShrinksWhite(w, s, k);
    ResolveReaches(w, s, k, f);
    ReachesImage(w, s, t);
    if Done(t, x) {
      var i: nat :| |s.trace| <= i < |t.trace| && CreatedAt(t.trace, i, x);
      assert ImageAt(w, s, t, i);
      InKeySet(DepsOf(w, x), k);
    }
  }

  /** Writing a row of `k` changes the colour of no other resource. */
  lemma RowOfAnother(s: State, t: State, id: nat, k: Key, j: Key)
    requires s.next == t.next && id in s.rows && id in t.rows && t.rows == s.rows[id := t.rows[id]]
    requires s.rows[id].key == t.rows[id].key == k && s.rows[id].archived == t.rows[id].archived && j != k
    ensures Done(t, j) == Done(s, j) && Busy(t, j) == Busy(s, j)
  {
    NewestAfterUpdate(s, t, j);
  }

  /** So a start on `k` migrates a resource that depends on `k` only if the members of `k` lead to it. */
  lemma DependentsLeftOut(w: World, s: State, k: Key, cleanup: bool, f: Flags, x: Key)
    requires !Done(s, k) && !Done(s, x) && k in KeySet(DepsOf(w, x)) && x != k
    requires f.members ==> !Reached(w, Insert(s, NewRow(k)), f, KeySet(MembersOf(w, k)), x)
    ensures !Done(Perform(w, s, k, cleanup, f).st, x)
  {
    hide Newest, Frame, Resolve, TryMigrate, Finish, KeySet, Reached;
    if !Usable(w, k) {
      PerformRefused(w, s, k, cleanup, f);
    } else {
      var r, p := Resolve(w, s, k, f), TryMigrate(w, s, k, f);
      DependentsWait(w, s, k, f, x);
      TryMigrateTable(w, s, k, f);
      WriteNewRow(s, k, r.st, p.st.rows[s.next]);
      RowOfAnother(r.st, p.st, s.next, k, x);
      if p.res.Ok? {
        var u := SetStatus(p.st, s.next, PendingMembers);
        MarkMigrated(s, p.st, k, p.res.value);
        RowOfAnother(r.st, u, s.next, k, x);
        MarkKeepsSettled(w, s, k, f);
        if Reached(w, u, f, KeySet(MembersOf(w, k)), x) {
          ReachedBefore(w, Insert(s, NewRow(k)), u, f, KeySet(MembersOf(w, k)), KeySet(MembersOf(w, k)), x);
        }
        FinishLeavesOut(w, u, k, s.next, p.res.value, cleanup, f, x);
      }
    }
  }

  lemma FinishLeavesOut(w: World, s: State, k: Key, id: nat, deps: seq<nat>, cleanup: bool, f: Flags, x: Key)
    requires IsNewest(s, k, id) && MigratedRows(s, [id] + deps) && !Done(s, x) && x != k
    requires f.members ==> !Reached(w, s, f, KeySet(MembersOf(w, k)), x)
    ensures !Done(Finish(w, s, k, id, deps, cleanup, f).st, x)
  {
    hide Newest, Conclude, MemberPhase, KeySet, Reached;
    if !f.members {
      ConcludeColours(w, s, id, deps, cleanup, x);
    } else {
      var m := MemberPhase(w, s, k, s.rows[id].dest, cleanup, f);
      MemberPhaseWithin(w, s, k, s.rows[id].dest, cleanup, f);
      UnreachedStays(w, s, m.st, f, KeySet(MembersOf(w, k)), Some(k), {}, None, x);
      if m.res.Ok? { ConcludeColours(w, m.st, id, deps, cleanup, x); }
    }
  }

  lemma ConcludeColours(w: World, s: State, id: nat, deps: seq<nat>, cleanup: bool, x: Key)
    requires MigratedRows(s, [id] + deps)
    ensures Done(Conclude(w, s, id, deps, cleanup).st, x) == Done(s, x)
  {
    hide Newest, Conclude;
    NewestIsRow(s, x);
  }

  // ---- Agreement with the dry run ----

  /** The least recursion limit under which the dry run returns. */
  ghost function Rank(w: World, s: State, k: Key, f: Flags): nat {
    if n: nat :| Returns(w, s, k, f, n) && forall m :: Returns(w, s, k, f, m) ==> n <= m then n else 0
  }

  lemma {:induction false} LeastLimit(w: World, s: State, k: Key, f: Flags, n: nat) returns (r: nat)
    requires Returns(w, s, k, f, n)
    ensures Returns(w, s, k, f, r) && forall m :: Returns(w, s, k, f, m) ==> r <= m
    decreases n
  {
    r := n;
    if m: nat :| m < n && Returns(w, s, k, f, m) { r := LeastLimit(w, s, k, f, m); }
  }

  lemma RankIsLeast(w: World, s: State, k: Key, f: Flags)
    requires EverReturns(w, s, k, f)
    ensures Returns(w, s, k, f, Rank(w, s, k, f)) && forall m :: Returns(w, s, k, f, m) ==> Rank(w, s, k, f) <= m
  {
    hide Returns;
    var n :| Returns(w, s, k, f, n);
    var r := LeastLimit(w, s, k, f, n);
  }

  lemma {:induction false} AnnouncedClosed(w: World, s: State, k: Key, f: Flags, fuel: nat, j: Key)
    requires Calm(w) && Returns(w, s, k, f, fuel) && j in Announced(w, s, k, f, fuel)
    ensures !Done(s, j) && Usable(w, j) && EverReturns(w, s, j, f)
    ensures f.deps ==> CopiesOk(s, DepsOf(w, j))
    ensures forall i :: Follows(w, s, j, f, i) ==> Done(s, i) || i in Announced(w, s, k, f, fuel)
    decreases fuel
  {
    ReturnsNeeds(w, s, k, f, fuel);
    DryMeaning(w, s, k, f, fuel);
    if j == k {
      forall i | Follows(w, s, j, f, i) && !Done(s, i) ensures i in Announced(w, s, k, f, fuel) {
        ReturnsNeeds(w, s, i, f, fuel - 1);
        DryMeaning(w, s, i, f, fuel - 1);
        assert Below(w, s, i, f, fuel - 1, i);
      }
    } else {
      var h :| Follows(w, s, k, f, h) && Below(w, s, h, f, fuel - 1, j);
      AnnouncedClosed(w, s, h, f, fuel - 1, j);
      forall i | Follows(w, s, j, f, i) && !Done(s, i) ensures i in Announced(w, s, k, f, fuel) {
        assert Below(w, s, h, f, fuel - 1, i);
      }
    }
  }

  lemma RankDecreases(w: World, s: State, f: Flags, j: Key, i: Key)
    requires Calm(w) && EverReturns(w, s, j, f) && !Done(s, j) && Follows(w, s, j, f, i)
    ensures EverReturns(w, s, i, f) && Rank(w, s, i, f) < Rank(w, s, j, f)
  {
    hide Returns;
    var n := Rank(w, s, j, f);
    RankIsLeast(w, s, j, f);
    ReturnsNeeds(w, s, j, f, n);
    DryMeaning(w, s, j, f, n);
    assert Returns(w, s, i, f, n - 1);
    RankIsLeast(w, s, i, f);
  }

  lemma {:induction false} RankAlongPath(w: World, s: State, f: Flags, path: seq<Key>)
    requires Calm(w) && IsPath(w, s, f, path) && EverReturns(w, s, path[0], f)
    ensures EverReturns(w, s, path[|path| - 1], f) && Rank(w, s, path[|path| - 1], f) <= Rank(w, s, path[0], f)
    decreases |path|
  {
    hide Returns, Follows;
    if |path| > 1 {
      RankDecreases(w, s, f, path[0], path[1]);
      RankAlongPath(w, s, f, path[1..]);
    }
  }

  /** A start whose dry run returns is not entangled. */
  lemma ReturningIsNotEntangled(w: World, s: State, f: Flags, k: Key)
    requires Calm(w) && f.deps && EverReturns(w, s, k, f)
    ensures !Entangled(w, s, f, k)
  {
    hide Returns, EverReturns;
    if Entangled(w, s, f, k) {
      var path, i :| Trail(w, s, f, path) && path[0] == k && Knot(w, path, i);
      KnotRanks(w, s, f, path, i);
      assert false;
    }
  }

  /** Ranks fall along a trail, so no resource at its end depends on one of it. */
  lemma KnotRanks(w: World, s: State, f: Flags, path: seq<Key>, i: nat)
    requires Calm(w) && f.deps && Trail(w, s, f, path) && EverReturns(w, s, path[0], f) && i < |path|
    ensures path[i] !in KeySet(DepsOf(w, path[|path| - 1]))
  {
    hide Returns, EverReturns, Trail;
    TrailHead(w, s, f, path, i);
    TrailIsPath(w, s, f, path[..i + 1]);
    RankAlongPath(w, s, f, path[..i + 1]);
    TrailFrom(w, s, f, path, i);
    TrailIsPath(w, s, f, path[i..]);
    RankAlongPath(w, s, f, path[i..]);
    var x := path[|path| - 1];
    assert path[i..][|path[i..]| - 1] == x;
    if path[i] in KeySet(DepsOf(w, x)) {
      PathUnmigrated(w, s, f, path[i..]);
      PathUnmigrated(w, s, f, path[..i + 1]);
      RankDecreases(w, s, f, x, path[i]);
    }
  }

  lemma TrailHead(w: World, s: State, f: Flags, path: seq<Key>, i: nat)
    requires Trail(w, s, f, path) && i < |path|
    ensures Trail(w, s, f, path[..i + 1])
  {
    hide Sooner, Targets, Done;
    var head := path[..i + 1];
    forall a, b | 0 <= a < b < |head| ensures head[b] != head[a] && head[b] !in Sooner(w, head[a], head[a + 1]) {
      assert head[b] == path[b] && head[a] == path[a] && head[a + 1] == path[a + 1];
    }
  }

  lemma AnnouncedSturdy(w: World, s: State, k: Key, f: Flags, fuel: nat, v: set<Key>)
    requires Calm(w) && f.deps && Returns(w, s, k, f, fuel)
    requires forall j :: j in v <==> j in Announced(w, s, k, f, fuel)
    ensures Sturdy(w, s, f, v)
  {
    hide Entangled, Newest;
    forall j | j in v
      ensures Usable(w, j) && CopiesOk(s, DepsOf(w, j))
      ensures forall i :: Follows(w, s, j, f, i) ==> Done(s, i) || i in v
    {
      AnnouncedClosed(w, s, k, f, fuel, j);
    }
  }

  /** When the dry run of an unmigrated resource returns, handlers do not raise and nothing announced
      is in progress, the start returns; it creates exactly the announced resources, each once and
      after its dependencies; and it adds rows for no other resource. */
  lemma DryRunPredictsStart(w: World, s: State, k: Key, cleanup: bool, f: Flags, fuel: nat)
    requires Calm(w) && f.deps && !Done(s, k)
    requires Returns(w, s, k, f, fuel) && forall j :: j in Announced(w, s, k, f, fuel) ==> !Busy(s, j)
    ensures var r := Perform(w, s, k, cleanup, f);
      r.res.Ok? && CreatedExactly(w, s, r.st, iset j | j in Announced(w, s, k, f, fuel))
  {
    hide Perform, CreatedExactly, Newest, Returns, Sturdy, Entangled, Announced, Reachable;
    var v := set j | j in Announced(w, s, k, f, fuel);
    AnnouncedSturdy(w, s, k, f, fuel, v);
    ReturningIsNotEntangled(w, s, f, k);
    RootAnnounced(w, s, k, f, fuel);
    StartMigratesReachable(w, s, k, cleanup, f, v);
    AnnouncedIffReachable(w, s, k, f, fuel);
    assert (iset j | Reachable(w, s, f, k, j)) == iset j | j in Announced(w, s, k, f, fuel);
  }

  lemma RootAnnounced(w: World, s: State, k: Key, f: Flags, fuel: nat)
    requires Calm(w) && !Done(s, k) && Returns(w, s, k, f, fuel)
    ensures k in Announced(w, s, k, f, fuel)
  {
    ReturnsNeeds(w, s, k, f, fuel);
    DryMeaning(w, s, k, f, fuel);
  }
}
