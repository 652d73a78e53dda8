/** Which members a start connects to its root, told from the state it starts in. */
module Connections {
  import opened Store
  import opened World
  import opened Orchestration
  import opened Steps
  import opened Commands
  import opened Safety
  import opened DryRun
  import opened Reach
  import opened Parts
  import opened Closure
  import opened Containment
  import opened Returns
  import opened Members

  /** What is started before member `i`: the dependencies and the members listed earlier. */
  function Earlier(w: World, f: Flags, k: Key, i: nat): set<Key>
    requires i < |MembersOf(w, k)|
  {
    DepTargets(w, f, k) + KeySet(MembersOf(w, k)[..i])
  }

  /** Member `i` is unsettled, and no path through unsettled resources leads to it from what is started
      before it; `k` itself is in progress and so on no such path. */
  ghost predicate InTurn(w: World, s: State, k: Key, f: Flags, i: nat)
    requires i < |MembersOf(w, k)|
  {
    var s1, j := Insert(s, NewRow(k)), MembersOf(w, k)[i].key;
    !Settled(s1, j) && !Reached(w, s1, f, Earlier(w, f, k, i), j)
  }

  /** The state in which the turn of member `i` comes. */
  function Turn(w: World, s: State, k: Key, cleanup: bool, f: Flags, i: nat): State
    requires !Done(s, k) && i < |MembersOf(w, k)|
  {
    MemberLoop(w, PhaseStart(w, s, k, f), MembersOf(w, k)[..i], cleanup, f).0
  }

  // ---- The phase and the turns ----

  lemma PhaseStarts(w: World, s: State, k: Key, f: Flags)
    requires !Done(s, k) && TryMigrate(w, s, k, f).res.Ok?
    ensures var q := PhaseStart(w, s, k, f);
      && Done(q, k) && Frame(s, q, {}, Some(k)) && NewRowsSettled(s, q)
      && (forall j :: Settled(Insert(s, NewRow(k)), j) ==> Settled(q, j))
      && Frame(s, q, {}, Some(k))
  {
    hide Newest, TryMigrate, Frame;
    var p := TryMigrate(w, s, k, f);
    var u, q := SetStatus(p.st, s.next, PendingMembers), PhaseStart(w, s, k, f);
    MarkMigrated(s, p.st, k, p.res.value);
    MarkKeepsSettled(w, s, k, f);
    TryMigrateSettles(w, s, k, f);
    FrameCalls(w, u, q);
    FrameTrans(s, u, q, {}, {}, Some(k), None);
    ColoursSame(u, q);
  }

  lemma PhaseReaches(w: World, s: State, k: Key, f: Flags)
    requires !Done(s, k) && Usable(w, k) && TryMigrate(w, s, k, f).res.Ok? && Calm(w)
    ensures Reaches(w, s, PhaseStart(w, s, k, f))
  {
    hide TryMigrate, Newest, Frame, Reaches;
    var u := SetStatus(TryMigrate(w, s, k, f).st, s.next, PendingMembers);
    TryMigrateReaches(w, s, k, f);
    ReachesNext(w, u, Query(AskMembers(k), true));
    ReachesTrans(w, s, u, PhaseStart(w, s, k, f));
  }

  /** Up to a member's turn copies stay, new ones have ids, and nothing is newly in progress. */
  lemma TurnIsTidy(w: World, s: State, k: Key, cleanup: bool, f: Flags, i: nat)
    requires !Done(s, k) && Usable(w, k) && TryMigrate(w, s, k, f).res.Ok? && Calm(w) && i < |MembersOf(w, k)|
    ensures Tidy(s, Turn(w, s, k, cleanup, f, i))
    ensures forall j :: Settled(Insert(s, NewRow(k)), j) ==> Settled(Turn(w, s, k, cleanup, f, i), j)
  {
    hide Newest, Frame, Reaches, Image, PhaseStart, NewRowsSettled, MemberLoop;
    var list, q, t := MembersOf(w, k)[..i], PhaseStart(w, s, k, f), Turn(w, s, k, cleanup, f, i);
    PhaseStarts(w, s, k, f);
    PhaseReaches(w, s, k, f);
    MemberLoopReaches(w, q, list, cleanup, f);
    ReachesTrans(w, s, q, t);
    ReachesImage(w, s, t);
    ImageKept(w, s, t);
    MemberLoopSettles(w, q, list, cleanup, f);
    NewRowsTrans(s, q, t, {}, None);
    FrameTrans(s, q, t, {}, {}, Some(k), None);
    FrameShrinksWhite(w, q, t, {}, None);
    forall j | Busy(t, j) ensures Busy(s, j) { StillBusy(s, t, j, k); }
  }

  lemma StillBusy(s: State, t: State, j: Key, k: Key)
    requires NewRowsSettled(s, t) && Frame(s, t, {}, Some(k)) && Busy(t, j)
    ensures Busy(s, j)
  {
    NewestIsRow(t, j);
    NoOlder(s, t, j, {}, Some(k));
  }

  /** Nothing is done to a resource out of reach of the dependencies before the member phase. */
  lemma UntouchedByDeps(w: World, s: State, k: Key, f: Flags, j: Key)
    requires !Done(s, k) && TryMigrate(w, s, k, f).res.Ok? && j != k
    requires !Reached(w, Insert(s, NewRow(k)), f, DepTargets(w, f, k), j)
    ensures Settled(PhaseStart(w, s, k, f), j) == Settled(s, j)
  {
    hide Newest, Frame, Reached, Within, Resolve, TryMigrate;
    var s1, r, q := Insert(s, NewRow(k)), Resolve(w, s, k, f), PhaseStart(w, s, k, f);
    ResolveWithin(w, s, k, f);
    UnreachedStays(w, s1, r.st, f, DepTargets(w, f, k), None, {}, None, j);
    InsertKeepsSettled(s, k);
    TryMigrateTable(w, s, k, f);
    WriteNewRow(s, k, r.st, q.rows[s.next]);
    RowOfAnother(r.st, q, s.next, k, j);
  }

  /** A member nothing leads to is unsettled when its turn comes. */
  lemma TurnUnsettled(w: World, s: State, k: Key, cleanup: bool, f: Flags, i: nat)
    requires !Done(s, k) && TryMigrate(w, s, k, f).res.Ok? && i < |MembersOf(w, k)| && InTurn(w, s, k, f, i)
    ensures !Settled(Turn(w, s, k, cleanup, f, i), MembersOf(w, k)[i].key)
  {
    hide Newest, Frame, Reached, PhaseStart, MemberLoop, TryMigrate;
    var list, j := MembersOf(w, k)[..i], MembersOf(w, k)[i].key;
    var s1, q, t := Insert(s, NewRow(k)), PhaseStart(w, s, k, f), Turn(w, s, k, cleanup, f, i);
    InsertKeepsSettled(s, k);
    PhaseStarts(w, s, k, f);
    if Reached(w, s1, f, DepTargets(w, f, k), j) {
      ReachedBefore(w, s1, s1, f, DepTargets(w, f, k), Earlier(w, f, k, i), j);
    }
    UntouchedByDeps(w, s, k, f, j);
    if Reached(w, q, f, KeySet(list), j) {
      ReachedBefore(w, s1, q, f, KeySet(list), Earlier(w, f, k, i), j);
    }
    MemberLoopWithin(w, q, list, cleanup, f);
    UnreachedStays(w, q, t, f, KeySet(list), None, {}, None, j);
  }

  lemma StartedIsListed(w: World, s: State, k: Key, cleanup: bool, f: Flags, i: nat)
    requires !Done(s, k) && i < |MembersOf(w, k)|
    requires !Settled(Turn(w, s, k, cleanup, f, i), MembersOf(w, k)[i].key)
    requires Perform(w, Turn(w, s, k, cleanup, f, i), MembersOf(w, k)[i].key, cleanup, f).res.Ok?
    ensures Listed(Connected(w, s, k, cleanup, f), MembersOf(w, k)[i].key)
  {
    hide Newest, Frame, PhaseStart, MemberLoop, Perform;
    var q, list := PhaseStart(w, s, k, f), MembersOf(w, k);
    ListedIff(w, q, list, cleanup, f, list[i].key);
    assert StartedAt(w, q, list, cleanup, f, i);
  }

  /** The entries of the connect list carry the ids recorded at the end. */
  lemma ConnectedIds(w: World, s: State, k: Key, cleanup: bool, f: Flags)
    requires f.members && !Done(s, k) && Perform(w, s, k, cleanup, f).res.Ok?
    ensures var t, out := Perform(w, s, k, cleanup, f).st, Connected(w, s, k, cleanup, f);
      forall i :: 0 <= i < |out| ==> Done(t, out[i].key) && out[i].dest == DestOf(t, out[i].key) != ""
  {
    hide Newest, TryMigrate, Frame, Finish, PhaseStart, Conclude;
    var p := TryMigrate(w, s, k, f);
    var u, q := SetStatus(p.st, s.next, PendingMembers), PhaseStart(w, s, k, f);
    MarkMigrated(s, p.st, k, p.res.value);
    PhaseIsLogged(w, s, k, f);
    var m := MemberLoop(w, q, MembersOf(w, k), cleanup, f);
    MemberLoopPasses(w, q, MembersOf(w, k), cleanup, f);
    FinishKeepsCopies(w, u, q, k, s.next, p.res.value, cleanup, f);
  }

  lemma PhaseIsLogged(w: World, s: State, k: Key, f: Flags)
    requires !Done(s, k)
    ensures PhaseStart(w, s, k, f) ==
      Log(SetStatus(TryMigrate(w, s, k, f).st, s.next, PendingMembers), AskMembers(k), true, "")
  {
  }

  lemma FinishKeepsCopies(w: World, u: State, q: State, k: Key, id: nat, deps: seq<nat>, cleanup: bool, f: Flags)
    requires f.members && IsNewest(u, k, id) && MigratedRows(u, [id] + deps) && q == Log(u, AskMembers(k), true, "")
    requires Finish(w, u, k, id, deps, cleanup, f).res.Ok?
    ensures var m, t := MemberLoop(w, q, MembersOf(w, k), cleanup, f).0, Finish(w, u, k, id, deps, cleanup, f).st;
      forall j :: Done(m, j) ==> Done(t, j) && DestOf(t, j) == DestOf(m, j)
  {
    hide Newest, Conclude, MemberLoop;
    var p := MemberPhase(w, u, k, u.rows[id].dest, cleanup, f);
    var m, t := MemberLoop(w, q, MembersOf(w, k), cleanup, f).0, Conclude(w, p.st, id, deps, cleanup).st;
    forall j | Done(m, j) ensures Done(t, j) && DestOf(t, j) == DestOf(m, j) {
      NewestSame(m, p.st, j);
      NewestIsRow(p.st, j);
    }
  }

  // ---- On any graph ----

  /** What is fit to be migrated, and not trapped, stays so up to the turn. */
  lemma TurnAcceptable(w: World, s: State, t: State, v: set<Key>)
    requires Acceptable(w, s, DepsOnly, v) && Tidy(s, t)
    ensures Acceptable(w, t, DepsOnly, v)
    ensures forall c :: Trap(w, t, c) ==> Trap(w, s, c)
  {
    hide Newest;
    forall k | k in v && !Done(t, k) ensures CopiesOk(t, DepsOf(w, k)) { KeptCopies(s, t, DepsOf(w, k)); }
  }

  /** On any graph, members and dependencies in cycles or not: when handlers do not raise, an unsettled
      member that nothing started before it leads to is connected, if no dependency cycle traps it. */
  lemma MemberIsConnected(w: World, s: State, k: Key, cleanup: bool, f: Flags, i: nat, v: set<Key>)
    requires Calm(w) && f.deps && f.members && !Done(s, k) && Usable(w, k) && TryMigrate(w, s, k, f).res.Ok?
    requires i < |MembersOf(w, k)| && InTurn(w, s, k, f, i)
    requires Acceptable(w, s, DepsOnly, v) && MembersOf(w, k)[i].key in v && forall j :: j in v ==> !Busy(s, j)
    requires !exists c :: MembersOf(w, k)[i].key in c && Trap(w, s, c)
    ensures Listed(Connected(w, s, k, cleanup, f), MembersOf(w, k)[i].key)
  {
    hide Newest, Frame, Perform, Turn, Connected, TryMigrate, InTurn, Trap, Acceptable;
    var t, j := Turn(w, s, k, cleanup, f, i), MembersOf(w, k)[i].key;
    TurnUnsettled(w, s, k, cleanup, f, i);
    TurnIsTidy(w, s, k, cleanup, f, i);
    TurnAcceptable(w, s, t, v);
    StartReturnsIff(w, t, j, cleanup, f, v);
    StartedIsListed(w, s, k, cleanup, f, i);
  }

  // ---- Exactly ----

  /** On a path from a settled resource everything was started before. */
  lemma {:induction false} SettledDownPath(w: World, s: State, s1: State, t: State, f: Flags, v: set<Key>, k: Key,
          path: seq<Key>)
    requires Progress(w, s, t, f, v, Some(k)) && WhitePath(w, s1, f, path) && Settled(t, path[0])
    requires f.deps && forall j :: Settled(s, j) || j == k ==> Settled(s1, j)
    ensures Settled(t, path[|path| - 1])
    decreases |path|
  {
    hide Newest;
    if |path| > 1 {
      assert !Settled(s, path[0]) && path[0] != k && Done(t, path[0]);
      assert LeadsTo(w, path[0], f, path[1], true);
      SettledDownPath(w, s, s1, t, f, v, k, path[1..]);
    }
  }

  /** What the lemmas below ask of a start. */
  ghost predicate Smooth(w: World, s: State, f: Flags, v: set<Key>, k: Key) {
    && Calm(w) && Sturdy(w, s, f, v) && !Entangled(w, s, f, k) && f.members
    && k in v && !Done(s, k) && forall j :: j in v ==> !Busy(s, j)
  }

  lemma TurnProgress(w: World, s: State, k: Key, cleanup: bool, f: Flags, v: set<Key>, i: nat)
    requires Smooth(w, s, f, v, k) && i < |MembersOf(w, k)|
    ensures TryMigrate(w, s, k, f).res.Ok?
    ensures var t := Turn(w, s, k, cleanup, f, i);
      && Progress(w, s, t, f, v, Some(k)) && Done(t, k) && AboveOrSelf(w, s, t, f, v, [k], k)
      && forall e :: e in KeySet(DepsOf(w, k)) + KeySet(MembersOf(w, k)[..i]) ==> Settled(t, e)
  {
    hide Newest, Frame, Progress, Sturdy, Above, AboveOrSelf, Kept, TryMigrate, MemberLoop, Queue, Entangled;
    var list := MembersOf(w, k)[..i];
    StartAlone(w, s, f, v, k);
    TryMigrateGood(w, s, s, k, f, v, [k]);
    var p := TryMigrate(w, s, k, f);
    var u, q, t := SetStatus(p.st, s.next, PendingMembers), PhaseStart(w, s, k, f), Turn(w, s, k, cleanup, f, i);
    PhaseStarts(w, s, k, f);
    LogProgress(w, u, q, f, v);
    ProgressTrans(w, s, u, q, {}, None, f, v, Some(k));
    ProgressKept(w, s, s, q, f, v, Some(k));
    PrefixKeys(MembersOf(w, k), i);
    PrefixQueue(q, MembersOf(w, k), i);
    FrameShrinksWhite(w, s, q, {}, Some(k));
    MarkedSelf(w, s, s, q, k, f, v, [k]);
    MemberLoopGood(w, s, q, list, cleanup, f, v, [k], k);
    FrameShrinksWhite(w, q, t, {}, None);
    ProgressTrans(w, s, q, t, {}, None, f, v, Some(k));
    AboveKept(w, s, q, t, f, v, None, [k], k);
    DoneStays(q, t);
  }

  lemma {:induction false} AheadOfPrefix(list: seq<Resource>, i: nat, q: Key)
    requires i <= |list|
    ensures q in KeySet(list[..i]) ==> Ahead(list, q) == Ahead(list[..i], q)
    ensures i < |list| && list[i].key == q ==> Ahead(list, q) <= KeySet(list[..i])
    decreases i
  {
    if 0 < i {
      assert list[..i][1..] == list[1..][..i - 1];
      AheadOfPrefix(list[1..], i - 1, q);
    }
  }

  lemma PrefixQueue(s: State, list: seq<Resource>, i: nat)
    requires i <= |list|
    ensures Queue(s, list, list[..i])
  {
    forall q, e | q in KeySet(list[..i]) && e in Ahead(list, q) ensures e in Ahead(list[..i], q) {
      AheadOfPrefix(list, i, q);
    }
  }

  lemma PrefixKeys(list: seq<Resource>, i: nat)
    requires i <= |list|
    ensures KeySet(list[..i]) <= KeySet(list)
  {
    forall j | j in KeySet(list[..i]) ensures j in KeySet(list) {
      InKeySet(list[..i], j);
      InKeySet(list, j);
      var x :| 0 <= x < |list[..i]| && list[..i][x].key == j;
      assert list[x].key == j;
    }
  }

  /** In a start that is not entangled, a member reached from what is started before it is settled at its turn. */
  lemma SettledIfReached(w: World, s: State, k: Key, cleanup: bool, f: Flags, v: set<Key>, i: nat)
    requires Smooth(w, s, f, v, k) && i < |MembersOf(w, k)| && !InTurn(w, s, k, f, i)
    ensures Settled(Turn(w, s, k, cleanup, f, i), MembersOf(w, k)[i].key)
  {
    hide Newest, Frame, Sturdy, TryMigrate, Turn;
    var s1, t, j := Insert(s, NewRow(k)), Turn(w, s, k, cleanup, f, i), MembersOf(w, k)[i].key;
    SturdyCopies(w, s, f, v, k);
    TurnProgress(w, s, k, cleanup, f, v, i);
    TurnIsTidy(w, s, k, cleanup, f, i);
    InsertKeepsSettled(s, k);
    if !Settled(s1, j) {
      var path :| WhitePathTo(w, s1, f, Earlier(w, f, k, i), path, j);
      if path[0] in DepTargets(w, f, k) {
        assert LeadsTo(w, k, f, path[0], false);
        DepsSettled(w, s, t, k, f, v, path[0]);
      }
      SettledDownPath(w, s, s1, t, f, v, k, path);
    }
  }

  lemma DepsSettled(w: World, s: State, t: State, k: Key, f: Flags, v: set<Key>, d: Key)
    requires Progress(w, s, t, f, v, Some(k)) && Done(t, k) && !Done(s, k) && LeadsTo(w, k, f, d, false)
    ensures Settled(t, d)
  {
  }

  /** When handlers do not raise and nothing is refused or in progress, a start that is not entangled
      connects a member exactly when, somewhere in the list, it is unsettled and no path through
      unsettled resources leads to it from a dependency or an earlier member. */
  lemma ConnectedIff(w: World, s: State, k: Key, cleanup: bool, f: Flags, v: set<Key>, j: Key)
    requires Smooth(w, s, f, v, k)
    ensures Perform(w, s, k, cleanup, f).res.Ok?
    ensures Listed(Connected(w, s, k, cleanup, f), j) <==>
            exists i: nat :: i < |MembersOf(w, k)| && MembersOf(w, k)[i].key == j && InTurn(w, s, k, f, i)
  {
    hide Newest, Frame, Perform, TryMigrate, InTurn, PhaseStart, MemberLoop, Sturdy;
    StartAlone(w, s, f, v, k);
    NothingSettled(w, s, f, v, k);
    PerformGood(w, s, s, k, cleanup, f, v, [k]);
    var list, q := MembersOf(w, k), PhaseStart(w, s, k, f);
    ListedIff(w, q, list, cleanup, f, j);
    if i: nat :| i < |list| && list[i].key == j && InTurn(w, s, k, f, i) {
      InTurnIsStarted(w, s, k, cleanup, f, v, i);
    }
    if i: nat :| i < |list| && list[i].key == j && StartedAt(w, q, list, cleanup, f, i) {
      if !InTurn(w, s, k, f, i) { SettledIfReached(w, s, k, cleanup, f, v, i); }
    }
  }

  lemma NothingSettled(w: World, s: State, f: Flags, v: set<Key>, k: Key)
    requires k in v && !Done(s, k) && forall b :: b in v ==> !Busy(s, b)
    ensures !Settled(s, k)
  {
  }

  lemma InTurnIsStarted(w: World, s: State, k: Key, cleanup: bool, f: Flags, v: set<Key>, i: nat)
    requires Smooth(w, s, f, v, k)
    requires i < |MembersOf(w, k)| && InTurn(w, s, k, f, i)
    ensures StartedAt(w, PhaseStart(w, s, k, f), MembersOf(w, k), cleanup, f, i)
  {
    hide Newest, Frame, Perform, TryMigrate, PhaseStart, MemberLoop, Sturdy, Entangled, Reached, AboveOrSelf, Above;
    var t, j := Turn(w, s, k, cleanup, f, i), MembersOf(w, k)[i].key;
    SturdyCopies(w, s, f, v, k);
    TurnProgress(w, s, k, cleanup, f, v, i);
    TurnUnsettled(w, s, k, cleanup, f, i);
    TurnIsTidy(w, s, k, cleanup, f, i);
    InsertKeepsSettled(s, k);
    InKeySet(MembersOf(w, k), j);
    TargetInPart(w, s, f, v, k, j);
    AheadOfPrefix(MembersOf(w, k), i, j);
    Descend(w, s, t, f, v, [k], k, j);
    PerformGood(w, s, t, j, cleanup, f, v, [k] + [j]);
  }

  // ---- Two subnets of one network ----

  /** A router's second subnet on a network is left out: starting the first migrates their network as its
      dependency, and with it the second, as a member of the network. */
  lemma SiblingIsNotConnected(w: World, s: State, k: Key, cleanup: bool, f: Flags, v: set<Key>, h: nat, i: nat,
          net: Key)
    requires Smooth(w, s, f, v, k)
    requires h < i < |MembersOf(w, k)| && !Settled(s, net) && net != k
    requires var a := MembersOf(w, k)[h].key; !Settled(s, a) && a != k && net in KeySet(DepsOf(w, a))
    requires var j := MembersOf(w, k)[i].key;
      && j in KeySet(MembersOf(w, net))
      && forall x :: 0 <= x < |MembersOf(w, k)| && x != i ==> MembersOf(w, k)[x].key != j
    ensures !Listed(Connected(w, s, k, cleanup, f), MembersOf(w, k)[i].key)
  {
    hide Newest, Perform, Connected, TryMigrate, Sturdy;
    var s1, list := Insert(s, NewRow(k)), MembersOf(w, k);
    var a, j := list[h].key, list[i].key;
    SturdyDeps(w, s, f, v);
    InsertKeepsSettled(s, k);
    ConnectedIff(w, s, k, cleanup, f, v, j);
    if !Settled(s1, j) {
      var path := [a, net, j];
      assert path[1..] == [net, j] && path[1..][1..] == [j];
      assert WhitePath(w, s1, f, path[1..][1..]);
      assert WhitePath(w, s1, f, path[1..]);
      InKeySet(list[..i], a);
      assert list[..i][h].key == a;
      assert WhitePathTo(w, s1, f, Earlier(w, f, k, i), path, j);
    }
  }

  lemma NotReachedFromNothing(w: World, s: State, f: Flags, j: Key)
    ensures !Reached(w, s, f, {}, j)
  {
  }

  lemma SampleRouterSmooth()
    ensures Smooth(Sample(), Empty, Both, {Rtr, Net, SubA, SubB}, Rtr)
    ensures forall b :: !Busy(Empty, b) && !Done(Empty, b)
  {
    var w := Sample();
    SampleGraph();
    KeysOfOne(On(Net));
    forall path, i: nat | Trail(w, Empty, Both, path) && i < |path| ensures !Knot(w, path, i) {
      assert path[i] == Net ==> KeySet(DepsOf(w, path[i])) == {};
    }
  }

  /** A router with two internal subnets on one network, and an empty database: the start migrates both
      subnets and connects only the first. */
  lemma SecondSubnetIsNotConnected()
    ensures var w := Sample();
      var r, out := Perform(w, Empty, Rtr, false, Both), Connected(w, Empty, Rtr, false, Both);
      && !Settled(Empty, SubB) && r.res.Ok? && Done(r.st, SubA) && Done(r.st, SubB)
      && Listed(out, SubA) && !Listed(out, SubB)
  {
    hide Perform, Connected, Newest, Sturdy, Entangled, Reachable;
    var w, v := Sample(), {Rtr, Net, SubA, SubB};
    SampleGraph();
    SampleRouterSmooth();
    StartMigratesReachable(w, Empty, Rtr, false, Both, v);
    ReachStep(w, Empty, Both, Rtr, SubA);
    ReachStep(w, Empty, Both, Rtr, SubB);
    SiblingIsNotConnected(w, Empty, Rtr, false, Both, v, 0, 1, Net);
    ConnectedIff(w, Empty, Rtr, false, Both, v, SubA);
    var s1 := Insert(Empty, NewRow(Rtr));
    InsertKeepsSettled(Empty, Rtr);
    NotReachedFromNothing(w, s1, Both, SubA);
    assert MembersOf(w, Rtr)[..0] == [];
    assert Earlier(w, Both, Rtr, 0) == {};
    assert InTurn(w, Empty, Rtr, Both, 0);
  }
}
