/** The dry run of manager.py, which marks nothing and so terminates only on well-founded parts of
    the graph.  `fuel` is the interpreter's recursion limit. */
module DryRun {
  import opened Store
  import opened World
  import opened Orchestration

  /** _perform_individual_migration_dry_run; the result lists the resources it announces. */
  function Dry(w: World, s: State, k: Key, f: Flags, fuel: nat): (r: Outcome<seq<Key>>)
    ensures r.st.rows == s.rows && r.st.next == s.next && s.trace <= r.st.trace
    decreases fuel, 0
  {
    if fuel == 0 then Outcome(s, Err(RecursionLimit))
    else if !Usable(w, k) then Outcome(s, Err(InvalidInput))
    else if Done(s, k) then Outcome(s, Ok([]))
    else
      var d := if f.deps then DryDeps(w, s, k, f, fuel) else Outcome(s, Ok([]));
      if d.res.Err? then d
      else
        var m := if f.members then DryMembers(w, d.st, k, f, fuel) else Outcome(d.st, Ok([]));
        if m.res.Err? then m else Outcome(m.st, Ok([k] + d.res.value + m.res.value))
  }

  function DryDeps(w: World, s: State, k: Key, f: Flags, fuel: nat): (r: Outcome<seq<Key>>)
    requires fuel > 0
    ensures r.st.rows == s.rows && r.st.next == s.next && s.trace <= r.st.trace
    decreases fuel - 1, |DepsOf(w, k)| + 2
  {
    var a := AskAssociated(w, s, k);
    if a.res.Err? then Outcome(a.st, Err(a.res.error))
    else
      SplitLength(a.st, DepsOf(w, k));
      DryEach(w, a.st, a.res.value.pending, f, fuel - 1)
  }

  function DryMembers(w: World, s: State, k: Key, f: Flags, fuel: nat): (r: Outcome<seq<Key>>)
    requires fuel > 0
    ensures r.st.rows == s.rows && r.st.next == s.next && s.trace <= r.st.trace
    decreases fuel - 1, |MembersOf(w, k)| + 2
  {
    var call := AskMembers(k);
    if w.raises(s.trace, call) then Outcome(Log(s, call, false, ""), Err(HandlerError))
    else DryEach(w, Log(s, call, true, ""), MembersOf(w, k), f, fuel - 1)
  }

  /** The two loops: the first raise ends them. */
  function DryEach(w: World, s: State, list: seq<Resource>, f: Flags, fuel: nat): (r: Outcome<seq<Key>>)
    ensures r.st.rows == s.rows && r.st.next == s.next && s.trace <= r.st.trace
    decreases fuel, |list| + 1
  {
    if list == [] then Outcome(s, Ok([]))
    else
      var one := Dry(w, s, list[0].key, f, fuel);
      if one.res.Err? then one
      else
        var rest := DryEach(w, one.st, list[1..], f, fuel);
        if rest.res.Err? then rest else Outcome(rest.st, Ok(one.res.value + rest.res.value))
  }

  lemma SplitLength(s: State, list: seq<Resource>)
    requires Split(s, list).Ok?
    ensures |Split(s, list).value.pending| <= |list|
  {
  }

  // ---- When handlers do not raise, only the graph decides ----

  ghost predicate Complete(given: seq<Migrated>, list: seq<Resource>, dest: Translation) {
    Covers(given, list, dest) && forall j :: 0 <= j < |given| ==> given[j].dest != ""
  }

  /** No handler call raises, the swallowed connect calls and create calls that are not given the ids of
      all dependencies excepted. */
  ghost predicate Calm(w: World) {
    && (forall tr, c: Call :: !c.Connect? && !c.Create? ==> !w.raises(tr, c))
    && forall tr, k, given, dest :: Complete(given, DepsOf(w, k), dest) ==> !w.raises(tr, Create(k, given))
  }

  /** A migrated dependency has all that a handler is given. */
  predicate HasCopy(s: State, k: Key) {
    k.rtype != "" && k.id != "" && DestOf(s, k) != ""
  }

  predicate CopiesOk(s: State, list: seq<Resource>) {
    forall k :: k in KeySet(list) && Done(s, k) ==> HasCopy(s, k)
  }

  lemma {:induction false} SplitMeaning(s: State, list: seq<Resource>)
    ensures Split(s, list).Ok? <==> CopiesOk(s, list)
    ensures Split(s, list).Ok? ==> forall k :: k in KeySet(Split(s, list).value.pending) <==>
      k in KeySet(list) && !Done(s, k)
    decreases |list|
  {
    if list != [] {
      SplitMeaning(s, list[1..]);
    }
  }

  lemma {:induction false} SplitSameTable(s: State, t: State, list: seq<Resource>)
    requires SameTable(s, t)
    ensures Split(s, list) == Split(t, list)
    decreases |list|
  {
    if list != [] { SplitSameTable(s, t, list[1..]); }
  }

  /** The announced resources do not depend on the calls made before. */
  lemma {:induction false} DrySameTable(w: World, s: State, t: State, k: Key, f: Flags, fuel: nat)
    requires Calm(w) && SameTable(s, t)
    ensures Dry(w, s, k, f, fuel).res == Dry(w, t, k, f, fuel).res
    decreases fuel, 0
  {
    if fuel > 0 && Usable(w, k) && !Done(s, k) {
      DryDepsSameTable(w, s, t, k, f, fuel);
      var a := if f.deps then DryDeps(w, s, k, f, fuel) else Outcome(s, Ok([]));
      var b := if f.deps then DryDeps(w, t, k, f, fuel) else Outcome(t, Ok([]));
      DryEachSameTable(w, Log(a.st, AskMembers(k), true, ""), Log(b.st, AskMembers(k), true, ""), MembersOf(w, k), f,
        fuel - 1);
    }
  }

  lemma {:induction false} DryDepsSameTable(w: World, s: State, t: State, k: Key, f: Flags, fuel: nat)
    requires Calm(w) && SameTable(s, t) && fuel > 0
    ensures DryDeps(w, s, k, f, fuel).res == DryDeps(w, t, k, f, fuel).res
    decreases fuel - 1, |DepsOf(w, k)| + 2
  {
    var a, b := AskAssociated(w, s, k), AskAssociated(w, t, k);
    SplitSameTable(a.st, b.st, DepsOf(w, k));
    if a.res.Ok? {
      SplitLength(a.st, DepsOf(w, k));
      DryEachSameTable(w, a.st, b.st, a.res.value.pending, f, fuel - 1);
    }
  }

  lemma {:induction false} DryEachSameTable(w: World, s: State, t: State, list: seq<Resource>, f: Flags, fuel: nat)
    requires Calm(w) && SameTable(s, t)
    ensures DryEach(w, s, list, f, fuel).res == DryEach(w, t, list, f, fuel).res
    decreases fuel, |list| + 1
  {
    if list != [] {
      DrySameTable(w, s, t, list[0].key, f, fuel);
      DryEachSameTable(w, Dry(w, s, list[0].key, f, fuel).st, Dry(w, t, list[0].key, f, fuel).st, list[1..], f, fuel);
    }
  }

  /** What the dry run announces for `k`, if it returns. */
  predicate Returns(w: World, s: State, k: Key, f: Flags, fuel: nat) {
    Dry(w, s, k, f, fuel).res.Ok?
  }

  function Announced(w: World, s: State, k: Key, f: Flags, fuel: nat): seq<Key>
    requires Returns(w, s, k, f, fuel)
  {
    Dry(w, s, k, f, fuel).res.value
  }

  lemma {:induction false} DryEachMeaning(w: World, s: State, s0: State, list: seq<Resource>, f: Flags, fuel: nat)
    requires Calm(w) && SameTable(s, s0)
    ensures DryEach(w, s, list, f, fuel).res.Ok? <==> forall k :: k in KeySet(list) ==> Returns(w, s0, k, f, fuel)
    ensures DryEach(w, s, list, f, fuel).res.Ok? ==>
      forall j :: j in DryEach(w, s, list, f, fuel).res.value <==>
        exists k :: k in KeySet(list) && Below(w, s0, k, f, fuel, j)
    decreases |list|
  {
    if list != [] {
      var one := Dry(w, s, list[0].key, f, fuel);
      DrySameTable(w, s, s0, list[0].key, f, fuel);
      assert list[0].key in KeySet(list);
      assert one.res.Ok? <==> Returns(w, s0, list[0].key, f, fuel);
      if one.res.Ok? {
        DryEachMeaning(w, one.st, s0, list[1..], f, fuel);
        assert DryEach(w, s, list, f, fuel).res.Ok? <==> DryEach(w, one.st, list[1..], f, fuel).res.Ok?;
        assert KeySet(list) == {list[0].key} + KeySet(list[1..]);
        var r, rest := DryEach(w, s, list, f, fuel), DryEach(w, one.st, list[1..], f, fuel);
        if r.res.Ok? {
          assert r.res.value == one.res.value + rest.res.value;
          forall j ensures j in r.res.value <==> exists k :: k in KeySet(list) && Below(w, s0, k, f, fuel, j) {
            if j in one.res.value { assert Below(w, s0, list[0].key, f, fuel, j); }
          }
        }
      }
    }
  }

  /** The resources the dry run goes on to from `k`: unmigrated dependencies and all members. */
  predicate FollowsDep(w: World, s: State, k: Key, j: Key) {
    j in KeySet(DepsOf(w, k)) && !Done(s, j)
  }

  predicate FollowsMember(w: World, k: Key, j: Key) {
    j in KeySet(MembersOf(w, k))
  }

  predicate Follows(w: World, s: State, k: Key, f: Flags, j: Key) {
    (f.deps && FollowsDep(w, s, k, j)) || (f.members && FollowsMember(w, k, j))
  }

  /** `j` is announced below `i`. */
  predicate Below(w: World, s: State, i: Key, f: Flags, fuel: nat, j: Key) {
    Returns(w, s, i, f, fuel) && j in Announced(w, s, i, f, fuel)
  }

  lemma DryDepsMeaning(w: World, s: State, k: Key, f: Flags, fuel: nat)
    requires Calm(w) && fuel > 0
    ensures DryDeps(w, s, k, f, fuel).res.Ok? <==>
      CopiesOk(s, DepsOf(w, k)) && forall j :: FollowsDep(w, s, k, j) ==> Returns(w, s, j, f, fuel - 1)
    ensures DryDeps(w, s, k, f, fuel).res.Ok? ==>
      forall j :: j in DryDeps(w, s, k, f, fuel).res.value <==>
        exists i :: FollowsDep(w, s, k, i) && Below(w, s, i, f, fuel - 1, j)
  {
    var a := AskAssociated(w, s, k);
    SplitMeaning(s, DepsOf(w, k));
    SplitSameTable(a.st, s, DepsOf(w, k));
    if a.res.Ok? {
      var pending := a.res.value.pending;
      DryEachMeaning(w, a.st, s, pending, f, fuel - 1);
      assert DryDeps(w, s, k, f, fuel) == DryEach(w, a.st, pending, f, fuel - 1);
      assert forall j :: FollowsDep(w, s, k, j) <==> j in KeySet(pending);
    }
  }

  lemma DryMembersMeaning(w: World, s: State, s0: State, k: Key, f: Flags, fuel: nat)
    requires Calm(w) && SameTable(s, s0) && fuel > 0
    ensures DryMembers(w, s, k, f, fuel).res.Ok? <==> forall j :: FollowsMember(w, k, j) ==>
      Returns(w, s0, j, f, fuel - 1)
    ensures DryMembers(w, s, k, f, fuel).res.Ok? ==>
      forall j :: j in DryMembers(w, s, k, f, fuel).res.value <==>
        exists i :: FollowsMember(w, k, i) && Below(w, s0, i, f, fuel - 1, j)
  {
    var t := Log(s, AskMembers(k), true, "");
    DryEachMeaning(w, t, s0, MembersOf(w, k), f, fuel - 1);
    assert DryMembers(w, s, k, f, fuel) == DryEach(w, t, MembersOf(w, k), f, fuel - 1);
    assert forall j :: FollowsMember(w, k, j) <==> j in KeySet(MembersOf(w, k));
  }

  /** The dry run as a recursion on the graph alone. */
  lemma DryMeaning(w: World, s: State, k: Key, f: Flags, fuel: nat)
    requires Calm(w) && Usable(w, k) && !Done(s, k) && fuel > 0
    ensures Returns(w, s, k, f, fuel) <==>
      (f.deps ==> CopiesOk(s, DepsOf(w, k))) && forall j :: Follows(w, s, k, f, j) ==> Returns(w, s, j, f, fuel - 1)
    ensures Returns(w, s, k, f, fuel) ==>
      forall j :: j in Announced(w, s, k, f, fuel) <==>
        j == k || exists i :: Follows(w, s, k, f, i) && Below(w, s, i, f, fuel - 1, j)
  {
    var d := if f.deps then DryDeps(w, s, k, f, fuel) else Outcome(s, Ok([]));
    var m := if f.members then DryMembers(w, d.st, k, f, fuel) else Outcome(d.st, Ok([]));
    DryDepsMeaning(w, s, k, f, fuel);
    DryMembersMeaning(w, d.st, s, k, f, fuel);
    assert Returns(w, s, k, f, fuel) <==> d.res.Ok? && m.res.Ok?;
    assert f.deps ==> forall j :: FollowsDep(w, s, k, j) ==> Follows(w, s, k, f, j);
    assert f.members ==> forall j :: FollowsMember(w, k, j) ==> Follows(w, s, k, f, j);
    if d.res.Ok? && m.res.Ok? {
      assert Announced(w, s, k, f, fuel) == [k] + d.res.value + m.res.value;
      assert forall j :: j in d.res.value || j in m.res.value <==>
        exists i :: Follows(w, s, k, f, i) && Below(w, s, i, f, fuel - 1, j);
    }
  }

  lemma ReturnsNeeds(w: World, s: State, k: Key, f: Flags, fuel: nat)
    ensures Returns(w, s, k, f, fuel) ==> fuel > 0 && Usable(w, k)
    ensures fuel > 0 && Usable(w, k) && Done(s, k) ==> Returns(w, s, k, f, fuel) && Announced(w, s, k, f, fuel) == []
  {
  }

  /** More fuel changes nothing once the dry run returns. */
  lemma {:induction false} MoreFuel(w: World, s: State, k: Key, f: Flags, n: nat, m: nat)
    requires Calm(w) && n <= m && Returns(w, s, k, f, n)
    ensures Returns(w, s, k, f, m)
    decreases n
  {
    hide Returns;
    ReturnsNeeds(w, s, k, f, n);
    ReturnsNeeds(w, s, k, f, m);
    if !Done(s, k) {
      DryMeaning(w, s, k, f, n);
      DryMeaning(w, s, k, f, m);
      forall j | Follows(w, s, k, f, j) ensures Returns(w, s, j, f, m - 1) {
        MoreFuel(w, s, j, f, n - 1, m - 1);
      }
    }
  }

  // ---- What is announced is what can be reached ----

  /** Each resource on the path is unmigrated and is followed by the next. */
  predicate IsPath(w: World, s: State, f: Flags, path: seq<Key>)
    decreases |path|
  {
    && path != []
    && !Done(s, path[0])
    && (|path| > 1 ==> Follows(w, s, path[0], f, path[1]) && IsPath(w, s, f, path[1..]))
  }

  ghost predicate PathFromTo(w: World, s: State, f: Flags, path: seq<Key>, k: Key, j: Key) {
    IsPath(w, s, f, path) && path[0] == k && path[|path| - 1] == j
  }

  ghost predicate Reachable(w: World, s: State, f: Flags, k: Key, j: Key) {
    exists path :: PathFromTo(w, s, f, path, k, j)
  }

  lemma {:induction false} AnnouncedAreReachable(w: World, s: State, k: Key, f: Flags, fuel: nat, j: Key)
    requires Calm(w) && Below(w, s, k, f, fuel, j)
    ensures Reachable(w, s, f, k, j)
    decreases fuel
  {
    assert !Done(s, k);
    DryMeaning(w, s, k, f, fuel);
    if j == k {
      assert PathFromTo(w, s, f, [k], k, j);
    } else {
      var i :| Follows(w, s, k, f, i) && Below(w, s, i, f, fuel - 1, j);
      AnnouncedAreReachable(w, s, i, f, fuel - 1, j);
      var path :| PathFromTo(w, s, f, path, i, j);
      assert ([k] + path)[1..] == path;
      assert PathFromTo(w, s, f, [k] + path, k, j);
    }
  }

  lemma {:induction false} ReachableAreAnnounced(w: World, s: State, k: Key, f: Flags, fuel: nat,
          path: seq<Key>, j: Key)
    requires Calm(w) && Returns(w, s, k, f, fuel) && PathFromTo(w, s, f, path, k, j)
    ensures j in Announced(w, s, k, f, fuel)
    decreases |path|
  {
    DryMeaning(w, s, k, f, fuel);
    if |path| > 1 {
      var i := path[1];
      assert PathFromTo(w, s, f, path[1..], i, j);
      ReachableAreAnnounced(w, s, i, f, fuel - 1, path[1..], j);
      assert Below(w, s, i, f, fuel - 1, j);
    }
  }

  /** The dry run announces exactly the resources reachable through unmigrated ones. */
  lemma AnnouncedIffReachable(w: World, s: State, k: Key, f: Flags, fuel: nat)
    requires Calm(w) && Returns(w, s, k, f, fuel)
    ensures forall j :: j in Announced(w, s, k, f, fuel) <==> Reachable(w, s, f, k, j)
  {
    forall j ensures j in Announced(w, s, k, f, fuel) <==> Reachable(w, s, f, k, j) {
      if j in Announced(w, s, k, f, fuel) { AnnouncedAreReachable(w, s, k, f, fuel, j); }
      if path :| PathFromTo(w, s, f, path, k, j) { ReachableAreAnnounced(w, s, k, f, fuel, path, j); }
    }
  }

  // ---- When the dry run returns ----

  /** Unmigrated resources each leading to one of them: a cycle of dependencies and members is one. */
  ghost predicate Stuck(w: World, s: State, f: Flags, c: iset<Key>) {
    forall k :: k in c ==> !Done(s, k) && LeadsInto(w, s, f, k, c)
  }

  ghost predicate LeadsInto(w: World, s: State, f: Flags, k: Key, c: iset<Key>) {
    exists j :: j in c && Follows(w, s, k, f, j)
  }

  /** Nothing met from `v` is refused for its own sake. */
  ghost predicate Acceptable(w: World, s: State, f: Flags, v: set<Key>) {
    forall k :: k in v ==>
      Usable(w, k) && (!Done(s, k) ==>
        (f.deps ==> CopiesOk(s, DepsOf(w, k))) && forall j :: Follows(w, s, k, f, j) ==> j in v)
  }

  lemma {:induction false} StuckNeverReturns(w: World, s: State, k: Key, f: Flags, fuel: nat, c: iset<Key>)
    requires Calm(w) && Stuck(w, s, f, c) && k in c
    ensures !Returns(w, s, k, f, fuel)
    decreases fuel
  {
    hide Returns, Follows, Newest;
    var j :| j in c && Follows(w, s, k, f, j);
    if fuel > 0 { StuckNeverReturns(w, s, j, f, fuel - 1, c); }
    TargetBlocks(w, s, k, f, fuel, j);
  }

  lemma TargetBlocks(w: World, s: State, k: Key, f: Flags, fuel: nat, j: Key)
    requires Calm(w) && !Done(s, k) && Follows(w, s, k, f, j)
    requires fuel > 0 ==> !Returns(w, s, j, f, fuel - 1)
    ensures !Returns(w, s, k, f, fuel)
  {
    ReturnsNeeds(w, s, k, f, fuel);
    if fuel > 0 && Usable(w, k) { DryMeaning(w, s, k, f, fuel); }
  }

  ghost predicate EverReturns(w: World, s: State, k: Key, f: Flags) {
    exists n :: Returns(w, s, k, f, n)
  }

  /** Finitely many resources that return do so within a common limit. */
  lemma {:induction false} CommonFuel(w: World, s: State, f: Flags, ks: set<Key>) returns (n: nat)
    requires Calm(w) && forall k :: k in ks ==> EverReturns(w, s, k, f)
    ensures forall k :: k in ks ==> Returns(w, s, k, f, n)
    decreases |ks|
  {
    n := 0;
    if ks != {} {
      var k :| k in ks;
      var a :| Returns(w, s, k, f, a);
      var b := CommonFuel(w, s, f, ks - {k});
      n := if a < b then b else a;
      forall j | j in ks ensures Returns(w, s, j, f, n) {
        MoreFuel(w, s, j, f, if j == k then a else b, n);
      }
    }
  }

  /** A resource whose targets all return returns. */
  lemma TargetsReturn(w: World, s: State, k: Key, f: Flags)
    requires Calm(w) && Usable(w, k) && !Done(s, k) && (f.deps ==> CopiesOk(s, DepsOf(w, k)))
    requires forall j :: Follows(w, s, k, f, j) ==> EverReturns(w, s, j, f)
    ensures EverReturns(w, s, k, f)
  {
    var targets := set j | j in KeySet(DepsOf(w, k)) + KeySet(MembersOf(w, k)) && Follows(w, s, k, f, j);
    var n := CommonFuel(w, s, f, targets);
    DryMeaning(w, s, k, f, n + 1);
    forall j | Follows(w, s, k, f, j) ensures Returns(w, s, j, f, n + 1 - 1) {
      assert j in targets;
    }
    assert Returns(w, s, k, f, n + 1);
  }

  /** With calm handlers and acceptable resources the dry run returns, given fuel enough, exactly
      when its root is in no stuck set. */
  lemma DryRunReturnsIff(w: World, s: State, k: Key, f: Flags, v: set<Key>)
    requires Calm(w) && Acceptable(w, s, f, v) && k in v
    ensures EverReturns(w, s, k, f) <==> !exists c :: k in c && Stuck(w, s, f, c)
  {
    if EverReturns(w, s, k, f) {
      var n :| Returns(w, s, k, f, n);
      forall c | k in c && Stuck(w, s, f, c) ensures false { StuckNeverReturns(w, s, k, f, n, c); }
    } else {
      var c := iset j | j in v && !EverReturns(w, s, j, f);
      forall j | j in c ensures !Done(s, j) && LeadsInto(w, s, f, j, c) {
        assert Done(s, j) ==> Returns(w, s, j, f, 1);
        if !LeadsInto(w, s, f, j, c) { TargetsReturn(w, s, j, f); }
      }
      assert Stuck(w, s, f, c);
    }
  }
}
