/** When a start returns: exactly when no dependency cycle traps its root, with or without members. */
module Returns {
  import opened Store
  import opened World
  import opened Orchestration
  import opened Steps
  import opened Commands
  import opened Safety
  import opened DryRun
  import opened Reach
  import opened Parts
  import opened Closure
  import opened Containment

  const DepsOnly := Flags(true, false)

  // ---- A well-founded part of the graph ----

  /** The unmigrated resources of `v` are fit to be migrated, and each leads only to migrated
      resources or to resources of `v` of smaller rank. */
  ghost predicate Orderly(w: World, s: State, f: Flags, v: set<Key>, rank: Key -> nat) {
    && f.deps
    && forall k :: k in v && !Done(s, k) ==>
         && Usable(w, k)
         && CopiesOk(s, DepsOf(w, k))
         && forall j :: Follows(w, s, k, f, j) ==> Done(s, j) || (j in v && rank(j) < rank(k))
  }

  /** No resource of `v` below rank `n` is being migrated. */
  ghost predicate Calmed(s: State, v: set<Key>, rank: Key -> nat, n: nat) {
    forall j :: j in v && rank(j) < n ==> !Busy(s, j)
  }

  lemma AnnouncedOrderly(w: World, s: State, k: Key, f: Flags, fuel: nat, v: set<Key>)
    requires Calm(w) && f.deps && Returns(w, s, k, f, fuel)
    requires forall j :: j in v <==> j in Announced(w, s, k, f, fuel)
    ensures Orderly(w, s, f, v, j => Rank(w, s, j, f))
  {
    forall j | j in v
      ensures Usable(w, j) && CopiesOk(s, DepsOf(w, j))
      ensures forall i :: Follows(w, s, j, f, i) ==> Done(s, i) || (i in v && Rank(w, s, i, f) < Rank(w, s, j, f))
    {
      AnnouncedClosed(w, s, k, f, fuel, j);
      forall i | Follows(w, s, j, f, i) ensures Rank(w, s, i, f) < Rank(w, s, j, f) { RankDecreases(w, s, f, j, i); }
    }
  }

  /** The new IN_PROGRESS row changes no other key. */
  lemma BeginProgress(w: World, s: State, k: Key, f: Flags, v: set<Key>, rank: Key -> nat)
    requires Orderly(w, s, f, v, rank) && Calmed(s, v, rank, rank(k) + 1) && k in v && !Settled(s, k)
    ensures var s1 := Insert(s, NewRow(k));
      && Orderly(w, s1, f, v, rank) && Calmed(s1, v, rank, rank(k))
      && CopiesOk(s1, DepsOf(w, k)) && f.deps
      && forall j :: j in KeySet(DepsOf(w, k)) ==> Done(s1, j) || (j in v && rank(j) < rank(k))
  {
    var s1 := Insert(s, NewRow(k));
    forall j
      ensures Newest(s1, j) == if j == k then Some(s.next) else Newest(s, j)
      ensures Done(s1, j) == Done(s, j) && (Done(s, j) ==> DestOf(s1, j) == DestOf(s, j))
    {
      NewestAfterInsert(s, NewRow(k), j);
    }
    forall j | j in KeySet(DepsOf(w, k)) ensures Done(s1, j) || (j in v && rank(j) < rank(k)) {
      assert !Done(s, j) ==> Follows(w, s, k, f, j);
    }
    forall j, i | j in v && !Done(s1, j) && Follows(w, s1, j, f, i)
      ensures Done(s1, i) || (i in v && rank(i) < rank(j))
    {
      assert Follows(w, s, j, f, i);
    }
  }

  /** From `s` to `t` copies appeared and none went away, and nothing is newly in progress. */
  ghost predicate Tidy(s: State, t: State) {
    Kept(s, t) && forall j :: Busy(t, j) ==> Busy(s, j)
  }

  lemma TidyTrans(s: State, t: State, u: State)
    requires Tidy(s, t) && Tidy(t, u)
    ensures Tidy(s, u)
  {
  }

  lemma StartIsTidy(w: World, s: State, k: Key, cleanup: bool, f: Flags)
    ensures Tidy(s, Perform(w, s, k, cleanup, f).st)
  {
    hide Perform;
    StartIsOnceAndImage(w, s, k, cleanup, f);
    StartLeavesNoneBusy(w, s, k, cleanup, f);
    ImageKept(w, s, Perform(w, s, k, cleanup, f).st);
  }

  lemma ImageKept(w: World, s: State, t: State)
    requires Image(w, s, t)
    ensures Kept(s, t)
  {
    forall j | Done(t, j) && !Done(s, j) ensures HasCopy(t, j) {
      var i: nat :| |s.trace| <= i < |t.trace| && CreatedAt(t.trace, i, j);
      assert ImageAt(w, s, t, i);
    }
  }

  lemma TidyKeeps(w: World, s: State, t: State, f: Flags, v: set<Key>, rank: Key -> nat, n: nat)
    requires Orderly(w, s, f, v, rank) && Calmed(s, v, rank, n) && Tidy(s, t)
    ensures Orderly(w, t, f, v, rank) && Calmed(t, v, rank, n)
  {
  }

  /** Rows are only inserted for resources that passed the entry checks. */
  lemma {:induction false} NewKeysUsable(w: World, s0: State, s: State, ls: seq<Label>, t: State)
    requires Leads(w, s, ls, t, true)
    requires forall id :: s0.next <= id < s.next ==> id in s.rows && Usable(w, s.rows[id].key)
    ensures forall id :: s0.next <= id < t.next ==> id in t.rows && Usable(w, t.rows[id].key)
    decreases |ls|
  {
    if ls != [] { NewKeysUsable(w, s0, Next(w, s, ls[0]), ls[1..], t); }
  }

  // ---- A start on a well-founded dependency graph returns ----

  lemma {:induction false} DepLoopReturns(w: World, s: State, list: seq<Resource>, f: Flags, v: set<Key>,
          rank: Key -> nat, n: nat)
    requires Calm(w) && f.deps && Orderly(w, s, DepsOnly, v, rank) && Calmed(s, v, rank, n)
    requires forall j :: j in KeySet(list) ==> Done(s, j) || (j in v && rank(j) < n)
    ensures var r := DepLoop(w, s, list, f);
      && r.res.Ok?
      && Tidy(s, r.st)
      && forall j :: j in KeySet(list) ==> Done(r.st, j)
    decreases n, 0, |list|
  {
    hide Newest, Frame, Orderly;
    if list != [] {
      assert KeySet(list) == {list[0].key} + KeySet(list[1..]);
      if Settled(s, list[0].key) {
        DepLoopReturns(w, s, list[1..], f, v, rank, n);
      } else {
        var one := Perform(w, s, list[0].key, false, f);
        PerformReturns(w, s, list[0].key, false, f, v, rank);
        StartIsTidy(w, s, list[0].key, false, f);
        TidyKeeps(w, s, one.st, DepsOnly, v, rank, n);
        DepLoopReturns(w, one.st, list[1..], f, v, rank, n);
        TidyTrans(s, one.st, DepLoop(w, one.st, list[1..], f).st);
      }
    }
  }

  lemma {:induction false} ResolveReturns(w: World, s: State, k: Key, f: Flags, v: set<Key>, rank: Key -> nat)
    requires Calm(w) && f.deps && Orderly(w, s, DepsOnly, v, rank) && Calmed(s, v, rank, rank(k) + 1) && k in v
    requires !Settled(s, k)
    ensures Resolve(w, s, k, f).res.Ok?
    decreases rank(k), 1
  {
    hide Newest, Frame, Orderly, Tidy;
    var s1 := Insert(s, NewRow(k));
    BeginProgress(w, s, k, DepsOnly, v, rank);
    var a := AskAssociated(w, s1, k);
    TidyCalls(s1, a.st, DepsOf(w, k));
    SplitMeaning(a.st, DepsOf(w, k));
    var pending := a.res.value.pending;
    if pending != [] {
      TidyKeeps(w, s1, a.st, DepsOnly, v, rank, rank(k));
      DepLoopReturns(w, a.st, pending, f, v, rank, rank(k));
      var l := DepLoop(w, a.st, pending, f);
      SplitTidy(a.st, l.st, DepsOf(w, k));
      TidyCalls(l.st, AskAssociated(w, l.st, k).st, DepsOf(w, k));
      NoPending(AskAssociated(w, l.st, k).st, DepsOf(w, k));
    }
  }

  lemma TidyCalls(s: State, t: State, list: seq<Resource>)
    requires SameTable(s, t)
    ensures Tidy(s, t) && (CopiesOk(s, list) ==> CopiesOk(t, list)) && forall k :: Done(s, k) ==> Done(t, k)
  {
  }

  lemma SplitTidy(s: State, t: State, list: seq<Resource>)
    requires CopiesOk(s, list) && Tidy(s, t) && Split(s, list).Ok?
    requires forall j :: j in KeySet(Split(s, list).value.pending) ==> Done(t, j)
    ensures CopiesOk(t, list) && forall j :: j in KeySet(list) ==> Done(t, j)
  {
    SplitMeaning(s, list);
  }

  lemma {:induction false} PerformReturns(w: World, s: State, k: Key, cleanup: bool, f: Flags, v: set<Key>,
          rank: Key -> nat)
    requires Calm(w) && f.deps && Orderly(w, s, DepsOnly, v, rank) && Calmed(s, v, rank, rank(k) + 1) && k in v
    requires !Settled(s, k)
    ensures Perform(w, s, k, cleanup, f).res.Ok?
    decreases rank(k), 2
  {
    assert Usable(w, k);
    ResolveReturns(w, s, k, f, v, rank);
    TryMigrateCalm(w, s, k, f);
    MigratedReturns(w, s, k, cleanup, f);
  }

  /** Once its handler has returned, a calm start returns: members cannot make it raise. */
  lemma MigratedReturns(w: World, s: State, k: Key, cleanup: bool, f: Flags)
    requires Calm(w) && Usable(w, k) && !Done(s, k) && TryMigrate(w, s, k, f).res.Ok?
    ensures Perform(w, s, k, cleanup, f).res.Ok?
  {
    hide Newest, Frame, TryMigrate;
    var p := TryMigrate(w, s, k, f);
    var t := SetStatus(p.st, s.next, PendingMembers);
    MarkMigrated(s, p.st, k, p.res.value);
    var ids := [s.next] + p.res.value;
    TryMigrateReaches(w, s, k, f);
    var ls :| Leads(w, s, ls, t, true);
    NewKeysUsable(w, s, s, ls, t);
    var m := if f.members then MemberPhase(w, t, k, t.rows[s.next].dest, cleanup, f) else Outcome(t, Ok(()));
    FrameCalls(w, t, t);
    assert m.res.Ok?;
    SameRows(t, m.st, ids);
    forall i | i in ids ensures s.next <= i {
      if i != s.next { assert i in p.res.value; }
    }
    ConcludeGood(w, m.st, s.next, p.res.value, cleanup);
  }

  lemma SameRows(t: State, u: State, ids: seq<nat>)
    requires Frame(t, u, {}, None) && MigratedRows(t, ids)
    ensures MigratedRows(u, ids) && forall i :: i in ids ==> u.rows[i] == t.rows[i]
  {
  }

  /** A start with dependencies, with or without members, on acceptable resources returns exactly
      when no dependency cycle of unmigrated resources traps its root. */
  lemma StartReturnsIff(w: World, s: State, k: Key, cleanup: bool, f: Flags, v: set<Key>)
    requires Calm(w) && f.deps && Acceptable(w, s, DepsOnly, v) && k in v
    requires !Done(s, k) && forall j :: j in v ==> !Busy(s, j)
    ensures Perform(w, s, k, cleanup, f).res.Ok? <==> !exists c :: k in c && Trap(w, s, c)
  {
    hide Perform, EverReturns, Newest, Trap, Stuck, Acceptable;
    forall c ensures Stuck(w, s, DepsOnly, c) <==> Trap(w, s, c) {
      StuckIsTrap(w, s, c);
    }
    DryRunReturnsIff(w, s, k, DepsOnly, v);
    if EverReturns(w, s, k, DepsOnly) {
      StartReturns(w, s, k, cleanup, f, v);
    } else {
      var c :| k in c && Stuck(w, s, DepsOnly, c);
      StartOnCycleRaises(w, s, c, k, cleanup, f);
    }
  }

  lemma StartReturns(w: World, s: State, k: Key, cleanup: bool, f: Flags, v: set<Key>)
    requires Calm(w) && f.deps && Acceptable(w, s, DepsOnly, v) && k in v && EverReturns(w, s, k, DepsOnly)
    requires !Done(s, k) && forall j :: j in v ==> !Busy(s, j)
    ensures Perform(w, s, k, cleanup, f).res.Ok?
  {
    var n :| Returns(w, s, k, DepsOnly, n);
    var u := set j | j in Announced(w, s, k, DepsOnly, n);
    forall j | j in u ensures j in v { AnnouncedAccepted(w, s, k, DepsOnly, n, j, v); }
    AnnouncedOrderly(w, s, k, DepsOnly, n, u);
    assert k in u by { ReturnsNeeds(w, s, k, DepsOnly, n); DryMeaning(w, s, k, DepsOnly, n); }
    PerformReturns(w, s, k, cleanup, f, u, j => Rank(w, s, j, DepsOnly));
  }

  lemma StuckIsTrap(w: World, s: State, c: iset<Key>)
    ensures Stuck(w, s, DepsOnly, c) <==> Trap(w, s, c)
  {
    if Trap(w, s, c) {
      forall k | k in c ensures LeadsInto(w, s, DepsOnly, k, c) {
        var j :| j in KeySet(DepsOf(w, k)) && j in c;
        assert Follows(w, s, k, DepsOnly, j);
      }
    }
  }

  lemma {:induction false} AnnouncedAccepted(w: World, s: State, k: Key, f: Flags, fuel: nat, j: Key, v: set<Key>)
    requires Calm(w) && Acceptable(w, s, f, v) && k in v && Returns(w, s, k, f, fuel)
    requires j in Announced(w, s, k, f, fuel)
    ensures j in v
    decreases fuel
  {
    ReturnsNeeds(w, s, k, f, fuel);
    DryMeaning(w, s, k, f, fuel);
    if j != k {
      var h :| Follows(w, s, k, f, h) && Below(w, s, h, f, fuel - 1, j);
      AnnouncedAccepted(w, s, h, f, fuel - 1, j, v);
    }
  }

  // ---- Without dependencies ----

  /** All dependencies are migrated and have copies. */
  predicate AllCopied(w: World, s: State, k: Key) {
    forall d :: d in KeySet(DepsOf(w, k)) ==> Done(s, d) && HasCopy(s, d)
  }

  /** Without --include-dependencies a start with calm handlers returns exactly when all dependencies are
      migrated and have copies. */
  lemma BareStartReturnsIff(w: World, s: State, k: Key, cleanup: bool, f: Flags)
    requires Calm(w) && !f.deps && Usable(w, k) && !Done(s, k)
    ensures Perform(w, s, k, cleanup, f).res.Ok? <==> AllCopied(w, s, k)
  {
    hide Newest, Frame, TryMigrate, Finish;
    ResolveBare(w, s, k, f);
    if Resolve(w, s, k, f).res.Ok? {
      TryMigrateCalm(w, s, k, f);
      MigratedReturns(w, s, k, cleanup, f);
    } else {
      TryMigrateTable(w, s, k, f);
    }
  }

  lemma ResolveBare(w: World, s: State, k: Key, f: Flags)
    requires Calm(w) && !f.deps && !Done(s, k)
    ensures Resolve(w, s, k, f).res.Ok? <==> AllCopied(w, s, k)
  {
    var s1 := Insert(s, NewRow(k));
    var a := AskAssociated(w, s1, k);
    forall d | d != k ensures Done(a.st, d) == Done(s, d) && HasCopy(a.st, d) == HasCopy(s, d) {
      NewestAfterInsert(s, NewRow(k), d);
    }
    InsertKeepsSettled(s, k);
    ColoursSame(s1, a.st);
    hide Newest;
    SplitMeaning(a.st, DepsOf(w, k));
    if a.res.Ok? {
      var pending := a.res.value.pending;
      if pending != [] { assert pending[0].key in KeySet(pending); }
    }
  }

  /** The dry run announces the resource whatever its dependencies are, so without dependencies it agrees
      with the start exactly then. */
  lemma BareDryRunReturns(w: World, s: State, k: Key, fuel: nat)
    requires Usable(w, k) && !Done(s, k) && fuel > 0
    ensures Dry(w, s, k, Flags(false, false), fuel).res == Ok([k])
  {
    assert [k] + [] + [] == [k];
  }

  // ---- A network and its subnets ----

  const Both := Flags(true, true)

  /** A network and a subnet of it name each other, so the dry run of either never ends. */
  lemma DryRunNeverReturnsOnNetwork(w: World, s: State, net: Key, sub: Key, fuel: nat)
    requires Calm(w) && !Done(s, net) && !Done(s, sub)
    requires sub in KeySet(MembersOf(w, net)) && net in KeySet(DepsOf(w, sub))
    ensures !Returns(w, s, net, Both, fuel) && !Returns(w, s, sub, Both, fuel)
  {
    var c := iset{net, sub};
    assert Follows(w, s, net, Both, sub) && Follows(w, s, sub, Both, net);
    assert Stuck(w, s, Both, c);
    StuckNeverReturns(w, s, net, Both, fuel, c);
    StuckNeverReturns(w, s, sub, Both, fuel, c);
  }

  /** A network whose members are subnets of it; `owners` are the resources the network and its subnets
      belong to, with all those lead to. */
  ghost predicate NetworkGraph(w: World, net: Key, owners: set<Key>) {
    var subs := KeySet(MembersOf(w, net));
    && net !in subs + owners && subs !! owners && KeySet(DepsOf(w, net)) <= owners
    && (forall sub :: sub in subs ==>
          MembersOf(w, sub) == [] && net in KeySet(DepsOf(w, sub)) && KeySet(DepsOf(w, sub)) <= owners + {net})
    && (forall o :: o in owners ==> Targets(w, Both, o) <= owners)
  }

  /** `o` is an owner the network or a subnet of it depends on directly. */
  predicate Landlord(w: World, net: Key, owners: set<Key>, o: Key) {
    o in owners && exists k :: k in {net} + KeySet(MembersOf(w, net)) && o in KeySet(DepsOf(w, k))
  }

  /** All this is fit to be migrated, and no start of such an owner is entangled. */
  ghost predicate NetworkPart(w: World, s: State, net: Key, owners: set<Key>) {
    && NetworkGraph(w, net, owners) && Sturdy(w, s, Both, owners)
    && (forall k :: k in {net} + KeySet(MembersOf(w, net)) ==> Usable(w, k) && CopiesOk(s, DepsOf(w, k)))
    && (forall o :: Landlord(w, net, owners, o) ==> !Entangled(w, s, Both, o))
  }

  /** A trail within such a graph stays there, and with the owners once it came to one. */
  lemma {:induction false} PartStays(w: World, s: State, net: Key, owners: set<Key>, path: seq<Key>, i: nat, j: nat)
    requires NetworkGraph(w, net, owners) && Trail(w, s, Both, path) && path[0] == net && i <= j < |path|
    ensures path[j] in {net} + KeySet(MembersOf(w, net)) + owners
    ensures path[i] in owners ==> path[j] in owners
    decreases j
  {
    hide Newest, Sooner;
    if 0 < j {
      PartStays(w, s, net, owners, path, if i < j then i else 0, j - 1);
      assert path[j] in Targets(w, Both, path[j - 1]);
    }
  }

  /** A knot at an owner entangles the start of the first owner the trail comes to. */
  lemma {:induction false} KnotAtOwner(w: World, s: State, net: Key, owners: set<Key>, path: seq<Key>, i: nat, e: nat)
    requires NetworkGraph(w, net, owners) && Trail(w, s, Both, path) && path[0] == net && Knot(w, path, i)
    requires e <= i && path[e] in owners
    ensures exists o :: Landlord(w, net, owners, o) && Entangled(w, s, Both, o)
    decreases e
  {
    hide Newest, Sooner, Landlord, Entangled;
    if path[e - 1] in owners {
      KnotAtOwner(w, s, net, owners, path, i, e - 1);
    } else {
      FirstOwner(w, s, net, owners, path, e);
      EntangledFrom(w, s, Both, path, i, e);
    }
  }

  lemma FirstOwner(w: World, s: State, net: Key, owners: set<Key>, path: seq<Key>, e: nat)
    requires NetworkGraph(w, net, owners) && Trail(w, s, Both, path) && path[0] == net
    requires 0 < e < |path| && path[e] in owners && path[e - 1] !in owners
    ensures Landlord(w, net, owners, path[e])
  {
    hide Newest, Sooner;
    PartStays(w, s, net, owners, path, e - 1, e - 1);
    assert path[e] in Targets(w, Both, path[e - 1]);
  }

  /** A knot elsewhere would be at the network itself; but its owners do not lead back to it. */
  lemma KnotIsAtOwner(w: World, s: State, net: Key, owners: set<Key>, path: seq<Key>, i: nat)
    requires NetworkGraph(w, net, owners) && Trail(w, s, Both, path) && path[0] == net && Knot(w, path, i)
    ensures path[i] in owners
  {
    hide Newest, Sooner;
    var n := |path| - 1;
    PartStays(w, s, net, owners, path, 0, n);
    PartStays(w, s, net, owners, path, 0, i);
    if path[i] !in owners {
      assert path[n] !in owners && path[i] == net && i == 0;
      PartStays(w, s, net, owners, path, 1, n);
      assert false;
    }
  }

  /** A start on such a network is not entangled. */
  lemma NetworkIsSturdy(w: World, s: State, net: Key, owners: set<Key>)
    requires NetworkPart(w, s, net, owners)
    ensures Sturdy(w, s, Both, {net} + KeySet(MembersOf(w, net)) + owners)
    ensures !Entangled(w, s, Both, net)
  {
    hide Newest, CopiesOk, Sooner, Targets, Landlord;
    if Entangled(w, s, Both, net) {
      var path, i: nat :| Trail(w, s, Both, path) && path[0] == net && Knot(w, path, i);
      KnotInRange(w, path, i);
      KnotIsAtOwner(w, s, net, owners, path, i);
      KnotAtOwner(w, s, net, owners, path, i, i);
      assert false;
    }
  }

  lemma KnotInRange(w: World, path: seq<Key>, i: nat)
    requires Knot(w, path, i)
    ensures i < |path|
  {
  }

  /** On the same graph the start returns, in multi-tenant mode too, and migrates the network with all
      its subnets. */
  lemma StartReturnsOnNetwork(w: World, s: State, net: Key, owners: set<Key>, cleanup: bool)
    requires Calm(w) && NetworkPart(w, s, net, owners) && !Done(s, net)
    requires forall j :: j in {net} + KeySet(MembersOf(w, net)) + owners ==> !Busy(s, j)
    ensures var r := Perform(w, s, net, cleanup, Both);
      && r.res.Ok? && Done(r.st, net)
      && (forall sub :: sub in KeySet(MembersOf(w, net)) ==> Done(r.st, sub))
      && CreatedExactly(w, s, r.st, iset j | Reachable(w, s, Both, net, j))
  {
    hide Perform, Newest, Sturdy, Entangled, NetworkPart, Reachable, Once, Image, CreatedIn;
    var v := {net} + KeySet(MembersOf(w, net)) + owners;
    NetworkIsSturdy(w, s, net, owners);
    StartMigratesReachable(w, s, net, cleanup, Both, v);
    ReachSelf(w, s, Both, net);
    forall sub | sub in KeySet(MembersOf(w, net)) && !Done(s, sub) ensures Reachable(w, s, Both, net, sub) {
      ReachStep(w, s, Both, net, sub);
    }
  }

  lemma ReachSelf(w: World, s: State, f: Flags, k: Key)
    requires !Done(s, k)
    ensures Reachable(w, s, f, k, k)
  {
    assert PathFromTo(w, s, f, [k], k, k);
  }

  lemma ReachStep(w: World, s: State, f: Flags, k: Key, j: Key)
    requires !Done(s, k) && !Done(s, j) && Follows(w, s, k, f, j)
    ensures Reachable(w, s, f, k, j)
  {
    assert [k, j][1..] == [j];
    assert PathFromTo(w, s, f, [k, j], k, j);
  }

  // ---- A world to try it on ----

  const Net := Key("network", "n")
  const SubA := Key("subnet", "a")
  const SubB := Key("subnet", "b")
  const Rtr := Key("router", "r")

  function On(k: Key): Resource {
    Resource(k, false)
  }

  /** A router with two internal subnets on one network. */
  function Sample(): World {
    World(
      map["network" := "neutron", "subnet" := "neutron", "router" := "neutron"],
      map[SubA := [On(Net)], SubB := [On(Net)]],
      map[Net := [On(SubA), On(SubB)], Rtr := [On(SubA), On(SubB)]],
      (tr, call) => false,
      (tr, k) => "copy")
  }

  lemma KeysOfOne(r: Resource)
    ensures KeySet([r]) == {r.key} && KeySet([]) == {}
  {
    assert [r][1..] == [];
  }

  lemma KeysOfTwo(r: Resource, q: Resource)
    ensures KeySet([r, q]) == {r.key, q.key}
  {
    assert [r, q][1..] == [q];
    KeysOfOne(q);
  }

  lemma SampleGraph()
    ensures var w := Sample();
      && Calm(w)
      && (forall k :: k in {Net, SubA, SubB, Rtr} ==> Usable(w, k) && !Settled(Empty, k))
      && KeySet(DepsOf(w, Rtr)) == {} && KeySet(DepsOf(w, Net)) == {}
      && KeySet(DepsOf(w, SubA)) == {Net} && KeySet(DepsOf(w, SubB)) == {Net}
      && KeySet(MembersOf(w, Rtr)) == {SubA, SubB} && KeySet(MembersOf(w, Net)) == {SubA, SubB}
      && MembersOf(w, SubA) == [] && MembersOf(w, SubB) == []
  {
    KeysOfOne(On(Net));
    KeysOfTwo(On(SubA), On(SubB));
  }

  /** The sample's network is such a part, so the hypotheses above can be met. */
  lemma SampleNetwork()
    ensures var w := Sample();
      && NetworkPart(w, Empty, Net, {})
      && Perform(w, Empty, Net, false, Both).res.Ok?
      && Done(Perform(w, Empty, Net, false, Both).st, SubB)
      && forall fuel: nat :: !Returns(w, Empty, Net, Both, fuel)
  {
    hide Perform, Returns;
    var w := Sample();
    SampleGraph();
    StartReturnsOnNetwork(w, Empty, Net, {}, false);
    forall fuel: nat ensures !Returns(w, Empty, Net, Both, fuel) {
      DryRunNeverReturnsOnNetwork(w, Empty, Net, SubA, fuel);
    }
  }

  /** With an empty database and no flags the dry run announces a subnet, and the start on it raises. */
  lemma SampleSubnet(fuel: nat)
    requires fuel > 0
    ensures var w, f := Sample(), Flags(false, false);
      Dry(w, Empty, SubA, f, fuel).res == Ok([SubA]) && Perform(w, Empty, SubA, false, f).res.Err?
  {
    hide Perform, Dry;
    var w := Sample();
    SampleGraph();
    BareDryRunReturns(w, Empty, SubA, fuel);
    BareStartReturnsIff(w, Empty, SubA, false, Flags(false, false));
    assert Net in KeySet(DepsOf(w, SubA)) && !Settled(Empty, Net);
  }
}
