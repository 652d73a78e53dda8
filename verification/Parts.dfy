/** Parts of the graph in which a start cannot fail: dependency and member edges may form cycles there, as
    long as none ties a resource the start comes to on both sides by dependencies. */
module Parts {
  import opened Store
  import opened World
  import opened Orchestration
  import opened DryRun
  import opened Reach
  import opened Steps
  import opened Safety

  // ---- Entangled starts ----

  /** The resources listed before the first `q`. */
  function Ahead(list: seq<Resource>, q: Key): set<Key> {
    if list == [] || list[0].key == q then {} else {list[0].key} + Ahead(list[1..], q)
  }

  /** What a start of `p` has dealt with before it comes to `q`: the dependencies listed before `q` or, if
      `q` is a member only, all dependencies and the members listed before it. */
  function Sooner(w: World, p: Key, q: Key): set<Key> {
    if q in KeySet(DepsOf(w, p)) then Ahead(DepsOf(w, p), q)
    else KeySet(DepsOf(w, p)) + Ahead(MembersOf(w, p), q)
  }

  /** Nested starts, each within the one before: unmigrated resources, each leading to the next, none
      twice and none that an outer start has dealt with before. */
  ghost predicate Trail(w: World, s: State, f: Flags, path: seq<Key>) {
    && path != []
    && (forall i :: 0 <= i < |path| ==> !Done(s, path[i]))
    && (forall i :: 0 < i < |path| ==> path[i] in Targets(w, f, path[i - 1]))
    && forall i, j :: 0 <= i < j < |path| ==> path[j] != path[i] && path[j] !in Sooner(w, path[i], path[i + 1])
  }

  /** The start of resource `i` has gone on to a dependency, and the last one depends on resource `i`. */
  predicate Knot(w: World, path: seq<Key>, i: nat) {
    && i < |path|
    && path[i] in KeySet(DepsOf(w, path[|path| - 1]))
    && (i + 1 < |path| ==> path[i + 1] in KeySet(DepsOf(w, path[i])))
  }

  /** A start of `k` may come to a resource that depends on one whose dependencies are still being
      migrated.  A network and its subnets form cycles of another kind. */
  ghost predicate Entangled(w: World, s: State, f: Flags, k: Key) {
    exists path, i :: Trail(w, s, f, path) && path[0] == k && Knot(w, path, i)
  }

  /** The unmigrated resources of `v` are fit to be migrated and lead only to migrated resources or to
      resources of `v`. */
  ghost predicate Sturdy(w: World, s: State, f: Flags, v: set<Key>) {
    && f.deps
    && forall k :: k in v && !Done(s, k) ==>
         && Usable(w, k) && CopiesOk(s, DepsOf(w, k))
         && forall j :: Follows(w, s, k, f, j) ==> Done(s, j) || j in v
  }

  // ---- Who is in progress ----

  /** The starts of `path` are nested: each has dealt with what comes sooner than the next one. */
  ghost predicate Nested(w: World, s: State, path: seq<Key>) {
    forall i :: 0 <= i < |path| - 1 ==>
      Settled(s, path[i]) && forall e :: e in Sooner(w, path[i], path[i + 1]) ==> Settled(s, e)
  }

  /** Resource `b` of the path has gone on to a dependency. */
  predicate AtDependency(w: World, path: seq<Key>, b: Key) {
    exists i :: 0 <= i < |path| - 1 && path[i] == b && path[i + 1] in KeySet(DepsOf(w, b))
  }

  /** `path` leads from a start that is not entangled to one of `k`, and each resource of `v` in progress
      is on it, waiting for a dependency. */
  ghost predicate Above(w: World, s0: State, s: State, f: Flags, v: set<Key>, path: seq<Key>, k: Key) {
    && Trail(w, s0, f, path) && !Entangled(w, s0, f, path[0]) && path[|path| - 1] == k && Nested(w, s, path)
    && forall b :: b in v && Busy(s, b) ==> AtDependency(w, path, b)
  }

  /** The same within that start. */
  ghost predicate AboveOrSelf(w: World, s0: State, s: State, f: Flags, v: set<Key>, path: seq<Key>, k: Key) {
    && Trail(w, s0, f, path) && !Entangled(w, s0, f, path[0]) && path[|path| - 1] == k && Nested(w, s, path)
    && Settled(s, k)
    && forall b :: b in v && Busy(s, b) ==> b == k || AtDependency(w, path, b)
  }

  /** What is listed in `all` before a resource of `list` is settled, or comes sooner in `list` too. */
  ghost predicate Queue(s: State, all: seq<Resource>, list: seq<Resource>) {
    forall q, e :: q in KeySet(list) && e in Ahead(all, q) ==> Settled(s, e) || e in Ahead(list, q)
  }

  lemma QueueFront(s: State, all: seq<Resource>, list: seq<Resource>)
    requires list != [] && Queue(s, all, list)
    ensures forall e :: e in Ahead(all, list[0].key) ==> Settled(s, e)
  {
    assert list[0].key in KeySet(list);
  }

  lemma QueueNext(s: State, t: State, all: seq<Resource>, list: seq<Resource>)
    requires list != [] && Queue(s, all, list) && Settled(t, list[0].key) && forall e :: Settled(s, e) ==> Settled(t, e)
    ensures Queue(t, all, list[1..])
  {
  }

  lemma {:induction false} QueueAll(s: State, all: seq<Resource>)
    ensures Queue(s, all, all)
  {
  }

  lemma {:induction false} PendingQueue(s: State, all: seq<Resource>)
    requires Split(s, all).Ok?
    ensures Queue(s, all, Split(s, all).value.pending)
    decreases |all|
  {
    if all != [] {
      PendingQueue(s, all[1..]);
      SplitMeaning(s, all);
    }
  }

  lemma QueueLater(s: State, t: State, all: seq<Resource>, list: seq<Resource>)
    requires Queue(s, all, list) && forall e :: Settled(s, e) ==> Settled(t, e)
    ensures Queue(t, all, list)
  {
  }

  /** Going on to an unsettled resource. */
  lemma Descend(w: World, s0: State, s: State, f: Flags, v: set<Key>, path: seq<Key>, k: Key, j: Key)
    requires AboveOrSelf(w, s0, s, f, v, path, k) && !Settled(s, j) && !Done(s0, j) && j in Targets(w, f, k)
    requires forall e :: e in Sooner(w, k, j) ==> Settled(s, e)
    requires Busy(s, k) ==> j in KeySet(DepsOf(w, k))
    ensures Above(w, s0, s, f, v, path + [j], j)
  {
    hide Settled, Sooner, Targets;
    var longer := path + [j];
    var n := |path|;
    forall a, b | 0 <= a < b < |longer|
      ensures longer[b] != longer[a] && longer[b] !in Sooner(w, longer[a], longer[a + 1])
    {
      if b == n { assert Settled(s, path[a]); }
    }
    forall b | b in v && Busy(s, b) ensures AtDependency(w, longer, b) {
      if b == path[n - 1] { assert longer[n - 1] == b && longer[n] == j; }
      else {
        var i :| 0 <= i < |path| - 1 && path[i] == b && path[i + 1] in KeySet(DepsOf(w, b));
        assert longer[i] == b && longer[i + 1] == path[i + 1];
      }
    }
  }

  /** At the outermost start nothing else is in progress. */
  lemma StartAlone(w: World, s: State, f: Flags, v: set<Key>, k: Key)
    requires !Done(s, k) && !Entangled(w, s, f, k) && forall b :: b in v ==> !Busy(s, b)
    ensures Above(w, s, s, f, v, [k], k) && Kept(s, s)
  {
    hide Entangled;
  }

  lemma {:induction false} TrailIsPath(w: World, s: State, f: Flags, path: seq<Key>)
    requires f.deps && Trail(w, s, f, path)
    ensures IsPath(w, s, f, path)
    decreases |path|
  {
    if |path| > 1 {
      TrailFrom(w, s, f, path, 1);
      assert path[1] in Targets(w, f, path[0]);
      TrailIsPath(w, s, f, path[1..]);
    }
  }

  lemma TrailFrom(w: World, s: State, f: Flags, path: seq<Key>, i: nat)
    requires Trail(w, s, f, path) && i < |path|
    ensures Trail(w, s, f, path[i..])
  {
    hide Sooner, Targets, Done;
    var rest := path[i..];
    forall j | 0 < j < |rest| ensures rest[j] in Targets(w, f, rest[j - 1]) {
      assert rest[j] == path[i + j] && rest[j - 1] == path[i + j - 1];
    }
    forall a, b | 0 <= a < b < |rest| ensures rest[b] != rest[a] && rest[b] !in Sooner(w, rest[a], rest[a + 1]) {
      assert rest[b] == path[i + b] && rest[a] == path[i + a] && rest[a + 1] == path[i + a + 1];
    }
  }

  /** An inner start of an entangled one, above the knot, is entangled itself. */
  lemma EntangledFrom(w: World, s: State, f: Flags, path: seq<Key>, i: nat, e: nat)
    requires Trail(w, s, f, path) && Knot(w, path, i) && e <= i
    ensures e < |path| && Entangled(w, s, f, path[e])
  {
    TrailFrom(w, s, f, path, e);
    hide Trail;
    var rest := path[e..];
    assert rest[i - e] == path[i] && rest[|rest| - 1] == path[|path| - 1];
    assert Knot(w, rest, i - e);
  }

  // ---- Progress ----

  /** Copies stay, and new ones have an id. */
  ghost predicate Kept(s: State, t: State) {
    && (forall j :: Done(s, j) ==> Done(t, j) && DestOf(t, j) == DestOf(s, j))
    && (forall j :: Done(t, j) && !Done(s, j) ==> HasCopy(t, j))
  }

  predicate LeadsTo(w: World, k: Key, f: Flags, j: Key, members: bool) {
    j in KeySet(DepsOf(w, k)) || (f.members && members && j in KeySet(MembersOf(w, k)))
  }

  /** From `s` to `t` only resources of `v` were migrated; all they lead to (the members of `open`
      excepted) is settled; and every new row belongs to one of them. */
  ghost predicate Progress(w: World, s: State, t: State, f: Flags, v: set<Key>, open: Option<Key>) {
    && s.next <= t.next
    && (forall j :: Done(s, j) ==> Done(t, j) && DestOf(t, j) == DestOf(s, j))
    && (forall j :: Done(t, j) && !Done(s, j) ==>
          j in v && HasCopy(t, j) && forall i :: LeadsTo(w, j, f, i, open != Some(j)) ==> Settled(t, i))
    && (forall j :: Busy(t, j) ==> Busy(s, j))
    && (forall id :: s.next <= id < t.next ==> id in t.rows && Done(t, t.rows[id].key) && !Done(s, t.rows[id].key))
  }

  lemma ProgressTrans(w: World, s: State, t: State, u: State, own: set<nat>, k: Option<Key>, f: Flags, v: set<Key>,
          open: Option<Key>)
    requires Progress(w, s, t, f, v, open) && Progress(w, t, u, f, v, None) && Frame(t, u, own, k)
    requires forall id :: id in own ==> id in t.rows
    requires forall j :: Settled(t, j) ==> Settled(u, j)
    ensures Progress(w, s, u, f, v, open)
  {
    hide Newest;
    forall id | s.next <= id < u.next
      ensures id in u.rows && Done(u, u.rows[id].key) && !Done(s, u.rows[id].key)
    {
      if id < t.next { assert u.rows[id].key == t.rows[id].key; }
    }
  }

  lemma ProgressKept(w: World, s0: State, s: State, t: State, f: Flags, v: set<Key>, open: Option<Key>)
    requires Kept(s0, s) && Progress(w, s, t, f, v, open)
    ensures Kept(s0, t)
  {
  }

  lemma AboveKept(w: World, s0: State, s: State, t: State, f: Flags, v: set<Key>, open: Option<Key>, path: seq<Key>,
          k: Key)
    requires Progress(w, s, t, f, v, open) && forall j :: Settled(s, j) ==> Settled(t, j)
    ensures Above(w, s0, s, f, v, path, k) ==> Above(w, s0, t, f, v, path, k)
    ensures AboveOrSelf(w, s0, s, f, v, path, k) ==> AboveOrSelf(w, s0, t, f, v, path, k)
  {
    hide Trail, Entangled, Sooner, AtDependency, Newest;
  }

  lemma FrameProgress(w: World, s: State, t: State, own: set<nat>, f: Flags, v: set<Key>)
    requires Frame(s, t, own, None) && s.next == t.next && forall k :: Newest(t, k) == Newest(s, k)
    ensures Progress(w, s, t, f, v, None)
  {
  }

  lemma LogProgress(w: World, s: State, t: State, f: Flags, v: set<Key>)
    requires SameTable(s, t) && s.trace <= t.trace
    ensures Progress(w, s, t, f, v, None) && Frame(s, t, {}, None)
    ensures forall j :: Settled(s, j) ==> Settled(t, j)
  {
  }

  /** A dependency or member of a resource of `v` that is still unmigrated belongs to `v`. */
  lemma TargetInPart(w: World, s0: State, f: Flags, v: set<Key>, k: Key, j: Key)
    requires Sturdy(w, s0, f, v) && k in v && !Done(s0, k) && !Done(s0, j) && j in Targets(w, f, k)
    ensures j in v
  {
    assert Follows(w, s0, k, f, j);
  }

  // ---- The start succeeds there ----

  lemma {:induction false} DepLoopGood(w: World, s0: State, s: State, list: seq<Resource>, f: Flags, v: set<Key>,
          path: seq<Key>, k: Key)
    requires Calm(w) && Sturdy(w, s0, f, v) && Kept(s0, s) && AboveOrSelf(w, s0, s, f, v, path, k)
    requires k in v && !Done(s0, k) && KeySet(list) <= KeySet(DepsOf(w, k)) && Queue(s, DepsOf(w, k), list)
    ensures var r := DepLoop(w, s, list, f);
      && r.res.Ok?
      && Progress(w, s, r.st, f, v, None)
      && forall j :: j in KeySet(list) ==> Settled(r.st, j)
    decreases |White(w, s)|, if list == [] then 0 else 1, |list|
  {
    hide Progress, Frame, Sturdy, Newest, AboveOrSelf, Above, Kept, Queue, Sooner;
    SturdyDeps(w, s0, f, v);
    if list == [] {
      LogProgress(w, s, s, f, v);
    } else {
      var d := list[0].key;
      assert KeySet(list) == {d} + KeySet(list[1..]);
      if Settled(s, d) {
        QueueNext(s, s, DepsOf(w, k), list);
        DepLoopGood(w, s0, s, list[1..], f, v, path, k);
        FrameShrinksWhite(w, s, DepLoop(w, s, list[1..], f).st, {}, None);
      } else {
        var one := Perform(w, s, d, false, f);
        KeptDone(s0, s);
        TargetInPart(w, s0, f, v, k, d);
        DescendToDependency(w, s0, s, f, v, path, k, list);
        PerformGood(w, s0, s, d, false, f, v, path + [d]);
        NestedFrame(w, s, one.st, d);
        FrameShrinksWhite(w, s, one.st, {}, None);
        ProgressKept(w, s0, s, one.st, f, v, None);
        AboveKept(w, s0, s, one.st, f, v, None, path, k);
        QueueNext(s, one.st, DepsOf(w, k), list);
        DepLoopGood(w, s0, one.st, list[1..], f, v, path, k);
        var rest := DepLoop(w, one.st, list[1..], f);
        FrameShrinksWhite(w, one.st, rest.st, {}, None);
        ProgressTrans(w, s, one.st, rest.st, {}, None, f, v, None);
      }
    }
  }

  lemma DescendToDependency(w: World, s0: State, s: State, f: Flags, v: set<Key>, path: seq<Key>, k: Key,
          list: seq<Resource>)
    requires AboveOrSelf(w, s0, s, f, v, path, k) && f.deps && list != [] && Queue(s, DepsOf(w, k), list)
    requires var d := list[0].key; d in KeySet(DepsOf(w, k)) && !Settled(s, d) && !Done(s0, d)
    ensures Above(w, s0, s, f, v, path + [list[0].key], list[0].key)
  {
    hide AboveOrSelf, Above, Queue, Settled, Done;
    QueueFront(s, DepsOf(w, k), list);
    Descend(w, s0, s, f, v, path, k, list[0].key);
  }

  lemma DescendToMember(w: World, s0: State, s: State, f: Flags, v: set<Key>, path: seq<Key>, k: Key,
          list: seq<Resource>)
    requires AboveOrSelf(w, s0, s, f, v, path, k) && f.members && list != [] && Queue(s, MembersOf(w, k), list)
    requires var m := list[0].key; m in KeySet(MembersOf(w, k)) && !Settled(s, m) && !Done(s0, m)
    requires Done(s, k) && forall d :: d in KeySet(DepsOf(w, k)) ==> Settled(s, d)
    ensures Above(w, s0, s, f, v, path + [list[0].key], list[0].key)
  {
    hide AboveOrSelf, Above, Queue;
    QueueFront(s, MembersOf(w, k), list);
    Descend(w, s0, s, f, v, path, k, list[0].key);
  }

  lemma SturdyDeps(w: World, s: State, f: Flags, v: set<Key>)
    requires Sturdy(w, s, f, v)
    ensures f.deps
  {
  }

  lemma KeptDone(s: State, t: State)
    requires Kept(s, t)
    ensures forall j :: Done(s, j) ==> Done(t, j)
  {
  }

  lemma {:induction false} MemberLoopGood(w: World, s0: State, s: State, list: seq<Resource>, cleanup: bool, f: Flags,
          v: set<Key>, path: seq<Key>, k: Key)
    requires Calm(w) && Sturdy(w, s0, f, v) && Kept(s0, s) && AboveOrSelf(w, s0, s, f, v, path, k) && f.members
    requires k in v && !Done(s0, k) && KeySet(list) <= KeySet(MembersOf(w, k)) && Queue(s, MembersOf(w, k), list)
    requires Done(s, k) && forall d :: d in KeySet(DepsOf(w, k)) ==> Settled(s, d)
    ensures var r := MemberLoop(w, s, list, cleanup, f);
      && Progress(w, s, r.0, f, v, None)
      && forall j :: j in KeySet(list) ==> Settled(r.0, j)
    decreases |White(w, s)|, if list == [] then 0 else 1, |list|
  {
    hide Progress, Frame, Sturdy, Newest, Above, AboveOrSelf, Kept, Queue, Sooner;
    if list == [] {
      LogProgress(w, s, s, f, v);
    } else {
      var m := list[0].key;
      assert KeySet(list) == {m} + KeySet(list[1..]);
      if Settled(s, m) {
        QueueNext(s, s, MembersOf(w, k), list);
        MemberLoopGood(w, s0, s, list[1..], cleanup, f, v, path, k);
        FrameShrinksWhite(w, s, MemberLoop(w, s, list[1..], cleanup, f).0, {}, None);
      } else {
        var one := Perform(w, s, m, cleanup, f);
        KeptDone(s0, s);
        TargetInPart(w, s0, f, v, k, m);
        DescendToMember(w, s0, s, f, v, path, k, list);
        PerformGood(w, s0, s, m, cleanup, f, v, path + [m]);
        NestedFrame(w, s, one.st, m);
        FrameShrinksWhite(w, s, one.st, {}, None);
        ProgressKept(w, s0, s, one.st, f, v, None);
        AboveKept(w, s0, s, one.st, f, v, None, path, k);
        QueueNext(s, one.st, MembersOf(w, k), list);
        DoneStays(s, one.st);
        MemberLoopGood(w, s0, one.st, list[1..], cleanup, f, v, path, k);
        var rest := MemberLoop(w, one.st, list[1..], cleanup, f);
        FrameShrinksWhite(w, one.st, rest.0, {}, None);
        ProgressTrans(w, s, one.st, rest.0, {}, None, f, v, None);
      }
    }
  }

  lemma DoneStays(s: State, t: State)
    requires Frame(s, t, {}, None)
    ensures forall j :: Done(s, j) ==> Done(t, j)
  {
    forall j | Done(s, j) ensures Done(t, j) { assert Newest(t, j) == Newest(s, j); }
  }

  lemma NoPending(s: State, list: seq<Resource>)
    requires CopiesOk(s, list) && forall j :: j in KeySet(list) ==> Done(s, j)
    ensures Split(s, list).Ok? && Split(s, list).value.pending == []
    decreases |list|
  {
    if list != [] {
      assert KeySet(list) == {list[0].key} + KeySet(list[1..]);
      NoPending(s, list[1..]);
    }
  }

  /** The new IN_PROGRESS row. */
  lemma BeginKept(w: World, s0: State, s: State, f: Flags, v: set<Key>, path: seq<Key>, k: Key)
    requires Kept(s0, s) && Above(w, s0, s, f, v, path, k) && !Settled(s, k)
    ensures var s1 := Insert(s, NewRow(k)); Kept(s0, s1) && AboveOrSelf(w, s0, s1, f, v, path, k)
  {
    hide Trail, Entangled, Sooner, AtDependency;
    var s1 := Insert(s, NewRow(k));
    forall j ensures Newest(s1, j) == if j == k then Some(s.next) else Newest(s, j) {
      NewestAfterInsert(s, NewRow(k), j);
    }
  }

  lemma KeptCopies(s0: State, s: State, list: seq<Resource>)
    requires Kept(s0, s) && CopiesOk(s0, list)
    ensures CopiesOk(s, list)
  {
    forall k | k in KeySet(list) && Done(s, k) ensures HasCopy(s, k) {
      if Done(s0, k) { assert HasCopy(s0, k); }
    }
  }

  lemma KnotHere(w: World, path: seq<Key>, d: Key)
    requires path != [] && d in KeySet(DepsOf(w, path[|path| - 1]))
    requires d == path[|path| - 1] || AtDependency(w, path, d)
    ensures exists i: nat :: Knot(w, path, i)
  {
    if d == path[|path| - 1] {
      assert Knot(w, path, |path| - 1);
    } else {
      var i: nat :| i < |path| - 1 && path[i] == d && path[i + 1] in KeySet(DepsOf(w, d));
      assert Knot(w, path, i);
    }
  }

  /** After the dependency loop nothing `k` depends on is still in progress. */
  lemma NoneInProgress(w: World, s0: State, s: State, f: Flags, v: set<Key>, path: seq<Key>, k: Key)
    requires Sturdy(w, s0, f, v) && Kept(s0, s) && AboveOrSelf(w, s0, s, f, v, path, k) && k in v && !Done(s0, k)
    requires forall d :: d in KeySet(DepsOf(w, k)) ==> Settled(s, d)
    ensures forall d :: d in KeySet(DepsOf(w, k)) ==> Done(s, d)
  {
    hide Newest, Nested, Sooner;
    SturdyDeps(w, s0, f, v);
    forall d | d in KeySet(DepsOf(w, k)) ensures Done(s, d) {
      if !Done(s, d) {
        TargetInPart(w, s0, f, v, k, d);
        KnotHere(w, path, d);
        assert false;
      }
    }
  }

  lemma {:induction false} ResolveGood(w: World, s0: State, s: State, k: Key, f: Flags, v: set<Key>, path: seq<Key>)
    requires Calm(w) && Sturdy(w, s0, f, v) && Kept(s0, s) && Above(w, s0, s, f, v, path, k) && k in v && !Settled(s, k)
    ensures var r := Resolve(w, s, k, f);
      && r.res.Ok?
      && Progress(w, Insert(s, NewRow(k)), r.st, f, v, None)
      && forall j :: j in KeySet(DepsOf(w, k)) ==> Done(r.st, j)
    decreases |White(w, s)|, if Settled(s, k) then 2 else 0, 1
  {
    hide Progress, Frame, Newest, Above, AboveOrSelf, Kept, Sturdy, Queue;
    var s1 := Insert(s, NewRow(k));
    InsertShrinksWhite(w, s, k);
    BeginKept(w, s0, s, f, v, path, k);
    KeptDone(s0, s);
    SturdyCopies(w, s0, f, v, k);
    var a := AskAssociated(w, s1, k);
    LogProgress(w, s1, a.st, f, v);
    FrameCalls(w, s1, a.st);
    ProgressKept(w, s0, s1, a.st, f, v, None);
    AboveKept(w, s0, s1, a.st, f, v, None, path, k);
    KeptCopies(s0, a.st, DepsOf(w, k));
    SplitMeaning(a.st, DepsOf(w, k));
    var pending := a.res.value.pending;
    if pending == [] {
      assert KeySet(pending) == {};
    } else {
      PendingQueue(a.st, DepsOf(w, k));
      DepLoopGood(w, s0, a.st, pending, f, v, path, k);
      var l := DepLoop(w, a.st, pending, f);
      FrameShrinksWhite(w, a.st, l.st, {}, None);
      ProgressKept(w, s0, a.st, l.st, f, v, None);
      AboveKept(w, s0, a.st, l.st, f, v, None, path, k);
      ProgressTrans(w, s1, a.st, l.st, {}, None, f, v, None);
      NoneInProgress(w, s0, l.st, f, v, path, k);
      KeptCopies(s0, l.st, DepsOf(w, k));
      var b := AskAssociated(w, l.st, k);
      LogProgress(w, l.st, b.st, f, v);
      SameTableCopies(l.st, b.st, DepsOf(w, k));
      NoPending(b.st, DepsOf(w, k));
      ProgressTrans(w, s1, l.st, b.st, {}, None, f, v, None);
    }
  }

  lemma SameTableCopies(s: State, t: State, list: seq<Resource>)
    requires SameTable(s, t)
    ensures CopiesOk(s, list) ==> CopiesOk(t, list)
    ensures forall j :: Done(s, j) == Done(t, j)
  {
  }

  lemma SturdyCopies(w: World, s: State, f: Flags, v: set<Key>, k: Key)
    requires Sturdy(w, s, f, v) && k in v && !Done(s, k)
    ensures f.deps && Usable(w, k) && CopiesOk(s, DepsOf(w, k))
  {
  }

  function MarkedRow(k: Key, dest: string): Row {
    NewRow(k).(dest := dest, status := PendingMembers)
  }

  /** The colours before the new row, and after it is marked migrated. */
  lemma MarkColours(s: State, r: State, k: Key, dest: string, t: State)
    requires !Done(s, k) && dest != "" && Frame(Insert(s, NewRow(k)), r, {}, None)
    requires SameTable(t, r.(rows := r.rows[s.next := MarkedRow(k, dest)]))
    ensures IsNewest(t, k, s.next) && Done(t, k) && !Busy(t, k) && DestOf(t, k) == dest
    ensures forall j :: j != k ==> Done(t, j) == Done(r, j) && DestOf(t, j) == DestOf(r, j) && Busy(t, j) == Busy(r, j)
    ensures var s1 := Insert(s, NewRow(k));
      forall j :: j != k ==> Done(s1, j) == Done(s, j) && DestOf(s1, j) == DestOf(s, j) && Busy(s1, j) == Busy(s, j)
  {
    WriteNewRow(s, k, r, MarkedRow(k, dest));
    hide Frame;
    forall j
      ensures Newest(Insert(s, NewRow(k)), j) == if j == k then Some(s.next) else Newest(s, j)
      ensures Newest(t, j) == Newest(r, j)
    {
      NewestAfterInsert(s, NewRow(k), j);
    }
  }

  /** Marking the new row migrated completes the progress of the dependencies by `k` itself. */
  lemma MarkProgress(w: World, s: State, r: State, k: Key, dest: string, f: Flags, v: set<Key>, t: State)
    requires !Settled(s, k) && k in v && Usable(w, k) && dest != ""
    requires Frame(Insert(s, NewRow(k)), r, {}, None)
    requires Progress(w, Insert(s, NewRow(k)), r, f, v, None)
    requires forall j :: j in KeySet(DepsOf(w, k)) ==> Done(r, j)
    requires SameTable(t, r.(rows := r.rows[s.next := MarkedRow(k, dest)]))
    ensures Progress(w, s, t, f, v, Some(k))
  {
    hide Frame, Newest;
    var s1 := Insert(s, NewRow(k));
    MarkColours(s, r, k, dest, t);
    NewRowsProgress(w, s, r, k, f, v);
    forall id | s.next <= id < t.next ensures id in t.rows && Done(t, t.rows[id].key) && !Done(s, t.rows[id].key) {
      if id != s.next { assert t.rows[id] == r.rows[id]; }
    }
    forall i | Settled(r, i) ensures Settled(t, i) { }
    forall j | Done(t, j) && !Done(s, j)
      ensures j in v && HasCopy(t, j) && forall i :: LeadsTo(w, j, f, i, Some(k) != Some(j)) ==> Settled(t, i)
    {
      if j != k { assert Done(r, j) && !Done(s1, j); }
    }
  }

  lemma NewRowsProgress(w: World, s: State, r: State, k: Key, f: Flags, v: set<Key>)
    requires !Settled(s, k) && Progress(w, Insert(s, NewRow(k)), r, f, v, None)
    ensures forall id :: s.next < id < r.next ==>
      id in r.rows && Done(r, r.rows[id].key) && !Done(Insert(s, NewRow(k)), r.rows[id].key)
  {
  }

  /** A calm handler call turns the ready state into the marked one. */
  lemma TryMigrateCalm(w: World, s: State, k: Key, f: Flags)
    requires Calm(w) && Usable(w, k) && !Done(s, k) && Resolve(w, s, k, f).res.Ok?
    ensures TryMigrate(w, s, k, f).res.Ok?
  {
    hide Frame, Newest, Resolve;
    var r := Resolve(w, s, k, f);
    ResolveReady(w, s, k, f);
    SplitTranslates(r.st, DepsOf(w, k));
    assert Complete(r.res.value.given, DepsOf(w, k), j => DestOf(r.st, j));
  }

  lemma {:induction false} TryMigrateGood(w: World, s0: State, s: State, k: Key, f: Flags, v: set<Key>, path: seq<Key>)
    requires Calm(w) && Sturdy(w, s0, f, v) && Kept(s0, s) && Above(w, s0, s, f, v, path, k) && k in v && !Settled(s, k)
    ensures TryMigrate(w, s, k, f).res.Ok?
    ensures Progress(w, s, SetStatus(TryMigrate(w, s, k, f).st, s.next, PendingMembers), f, v, Some(k))
    decreases |White(w, s)|, if Settled(s, k) then 2 else 0, 2
  {
    hide Progress, Frame, Sturdy, TryMigrate, Resolve, Newest, Above, Kept, KeySet, Calm;
    KeptDone(s0, s);
    SturdyCopies(w, s0, f, v, k);
    ResolveGood(w, s0, s, k, f, v, path);
    TryMigrateCalm(w, s, k, f);
    TryMigrateTable(w, s, k, f);
    var p := TryMigrate(w, s, k, f);
    MarkProgress(w, s, Resolve(w, s, k, f).st, k, p.st.rows[s.next].dest, f, v,
      SetStatus(p.st, s.next, PendingMembers));
  }

  lemma CleanupAllGood(w: World, s: State, ids: seq<nat>)
    requires Calm(w) && MigratedRows(s, ids) && forall id :: id in ids ==> Usable(w, s.rows[id].key)
    ensures CleanupAll(w, s, ids).res.Ok?
    decreases |ids|
  {
    if ids != [] {
      CleanupFrame(w, s, ids[0], IdSet(ids));
      CleanupAllGood(w, Cleanup(w, s, ids[0]).st, ids[1..]);
    }
  }

  lemma ConcludeGood(w: World, s: State, id: nat, deps: seq<nat>, cleanup: bool)
    requires Calm(w) && MigratedRows(s, [id] + deps) && forall i :: i in [id] + deps ==> Usable(w, s.rows[i].key)
    ensures Conclude(w, s, id, deps, cleanup).res.Ok?
  {
    if cleanup { CleanupAllGood(w, SetStatus(s, id, PendingCleanup), [id] + deps); }
  }

  lemma {:induction false} FinishGood(w: World, s0: State, s: State, k: Key, id: nat, deps: seq<nat>, cleanup: bool,
          f: Flags, v: set<Key>, path: seq<Key>)
    requires Calm(w) && Sturdy(w, s0, f, v) && Kept(s0, s) && AboveOrSelf(w, s0, s, f, v, path, k) && k in v
    requires !Done(s0, k) && Done(s, k) && forall d :: d in KeySet(DepsOf(w, k)) ==> Settled(s, d)
    requires IsNewest(s, k, id) && MigratedRows(s, [id] + deps)
    requires forall i :: i in [id] + deps ==> Usable(w, s.rows[i].key)
    ensures var r := Finish(w, s, k, id, deps, cleanup, f);
      && r.res.Ok?
      && Progress(w, s, r.st, f, v, None)
      && (f.members ==> forall j :: j in KeySet(MembersOf(w, k)) ==> Settled(r.st, j))
    decreases |White(w, s)|, if MembersOf(w, k) == [] then 0 else 1, |MembersOf(w, k)| + 2
  {
    hide Progress, Sturdy, Newest, AboveOrSelf, Kept, MemberPhase, Conclude;
    var own := IdSet([id] + deps);
    if !f.members {
      ConcludeGood(w, s, id, deps, cleanup);
      FrameProgress(w, s, Conclude(w, s, id, deps, cleanup).st, own, f, v);
    } else {
      var p := MemberPhase(w, s, k, s.rows[id].dest, cleanup, f);
      MemberPhaseGood(w, s0, s, k, s.rows[id].dest, cleanup, f, v, path);
      ConcludeGood(w, p.st, id, deps, cleanup);
      var u := Conclude(w, p.st, id, deps, cleanup).st;
      FrameProgress(w, p.st, u, own, f, v);
      FrameShrinksWhite(w, p.st, u, own, None);
      ProgressTrans(w, s, p.st, u, own, None, f, v, None);
    }
  }

  lemma {:induction false} MemberPhaseGood(w: World, s0: State, s: State, k: Key, parent: string, cleanup: bool,
          f: Flags, v: set<Key>, path: seq<Key>)
    requires Calm(w) && Sturdy(w, s0, f, v) && Kept(s0, s) && AboveOrSelf(w, s0, s, f, v, path, k) && k in v
    requires !Done(s0, k) && Done(s, k) && forall d :: d in KeySet(DepsOf(w, k)) ==> Settled(s, d)
    requires f.members
    ensures var p := MemberPhase(w, s, k, parent, cleanup, f);
      && p.res.Ok?
      && Progress(w, s, p.st, f, v, None)
      && forall j :: j in KeySet(MembersOf(w, k)) ==> Settled(p.st, j)
    decreases |White(w, s)|, if MembersOf(w, k) == [] then 0 else 1, |MembersOf(w, k)| + 1
  {
    hide Progress, Frame, Sturdy, Above, Kept, Newest, AboveOrSelf, Queue;
    var s1 := Log(s, AskMembers(k), true, "");
    LogProgress(w, s, s1, f, v);
    ProgressKept(w, s0, s, s1, f, v, None);
    FrameCalls(w, s, s1);
    AboveKept(w, s0, s, s1, f, v, None, path, k);
    DoneStays(s, s1);
    QueueAll(s1, MembersOf(w, k));
    MemberLoopGood(w, s0, s1, MembersOf(w, k), cleanup, f, v, path, k);
    var m := MemberLoop(w, s1, MembersOf(w, k), cleanup, f);
    var p := MemberPhase(w, s, k, parent, cleanup, f);
    FrameShrinksWhite(w, s1, m.0, {}, None);
    ProgressTrans(w, s, s1, m.0, {}, None, f, v, None);
    LogProgress(w, m.0, p.st, f, v);
    ProgressTrans(w, s, m.0, p.st, {}, None, f, v, None);
  }

  lemma CloseMembers(w: World, s: State, u: State, k: Key, f: Flags, v: set<Key>)
    requires Progress(w, s, u, f, v, Some(k))
    requires f.members ==> forall j :: j in KeySet(MembersOf(w, k)) ==> Settled(u, j)
    ensures Progress(w, s, u, f, v, None)
  {
  }

  /** Rows created on the way belong to usable resources. */
  lemma MarkedUsable(w: World, s0: State, s: State, t: State, k: Key, deps: seq<nat>, f: Flags, v: set<Key>)
    requires Sturdy(w, s0, f, v) && Kept(s0, s) && Progress(w, s, t, f, v, Some(k))
    requires MigratedRows(t, [s.next] + deps) && forall d :: d in deps ==> s.next < d
    ensures forall i :: i in [s.next] + deps ==> Usable(w, t.rows[i].key)
  {
    hide Newest, Entangled;
    forall i | i in [s.next] + deps ensures Usable(w, t.rows[i].key) {
      assert s.next <= i < t.next;
      assert !Done(s, t.rows[i].key);
    }
  }

  /** Once the new row is marked migrated, the members of `k` come. */
  lemma MarkedSelf(w: World, s0: State, s: State, t: State, k: Key, f: Flags, v: set<Key>, path: seq<Key>)
    requires Above(w, s0, s, f, v, path, k) && Progress(w, s, t, f, v, Some(k)) && Done(t, k) && !Done(s, k)
    requires forall j :: Settled(s, j) ==> Settled(t, j)
    ensures AboveOrSelf(w, s0, t, f, v, path, k)
    ensures forall d :: d in KeySet(DepsOf(w, k)) ==> Settled(t, d)
  {
    AboveKept(w, s0, s, t, f, v, Some(k), path, k);
    hide Trail, Entangled, Nested, AtDependency, Newest;
    forall d | d in KeySet(DepsOf(w, k)) ensures Settled(t, d) { assert LeadsTo(w, k, f, d, false); }
  }

  /** A start on an unsettled resource of a sturdy part, nested in one that is not entangled, returns and
      migrates only resources of that part, each with everything it leads to, as far as that is not in
      progress. */
  lemma {:induction false} PerformGood(w: World, s0: State, s: State, k: Key, cleanup: bool, f: Flags, v: set<Key>,
          path: seq<Key>)
    requires Calm(w) && Sturdy(w, s0, f, v) && Kept(s0, s) && Above(w, s0, s, f, v, path, k) && k in v && !Settled(s, k)
    ensures var r := Perform(w, s, k, cleanup, f);
      r.res.Ok? && Done(r.st, k) && Progress(w, s, r.st, f, v, None)
    decreases |White(w, s)|, if Settled(s, k) then 2 else 0, 3
  {
    hide Progress, Frame, Sturdy, Above, AboveOrSelf, Kept, Newest, TryMigrate, Finish;
    KeptDone(s0, s);
    SturdyCopies(w, s0, f, v, k);
    var p := TryMigrate(w, s, k, f);
    TryMigrateGood(w, s0, s, k, f, v, path);
    var t := SetStatus(p.st, s.next, PendingMembers);
    MarkMigrated(s, p.st, k, p.res.value);
    EnterFinish(w, s, t, k);
    MarkedUsable(w, s0, s, t, k, p.res.value, f, v);
    ProgressKept(w, s0, s, t, f, v, Some(k));
    FrameShrinksWhite(w, s, t, {}, Some(k));
    MarkedSelf(w, s0, s, t, k, f, v, path);
    FinishGood(w, s0, t, k, s.next, p.res.value, cleanup, f, v, path);
    var u := Finish(w, t, k, s.next, p.res.value, cleanup, f).st;
    FrameShrinksWhite(w, t, u, IdSet([s.next] + p.res.value), None);
    ProgressTrans(w, s, t, u, IdSet([s.next] + p.res.value), None, f, v, Some(k));
    CloseMembers(w, s, u, k, f, v);
  }
}
