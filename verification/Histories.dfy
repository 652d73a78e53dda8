/** What holds of every database that only the commands wrote, however they ended. */
module Histories {
  import opened Store
  import opened World
  import opened Orchestration
  import opened Steps
  import opened Commands
  import opened Safety
  import opened DryRun
  import opened Parts
  import opened Closure
  import opened Containment
  import opened Blame
  import opened Returns

  /** Rows belong to resources that passed the entry checks. */
  ghost predicate KeysUsable(w: World, s: State) {
    forall id :: id in s.rows ==> id < s.next && Usable(w, s.rows[id].key)
  }

  lemma {:induction false} KeysStayUsable(w: World, s: State, ls: seq<Label>)
    requires Allowed(w, s, ls) && KeysUsable(w, s)
    ensures KeysUsable(w, Exec(w, s, ls))
    decreases |ls|
  {
    if ls != [] { KeysStayUsable(w, Next(w, s, ls[0]), ls[1..]); }
  }

  ghost predicate Quiet(s: State) {
    forall id :: id in s.rows ==> id < s.next && s.rows[id].status != InProgress
  }

  /** Old rows that are quiet stay quiet under a frame; a start settles the new ones. */
  lemma QuietFrame(s: State, t: State, own: set<nat>, k: Option<Key>)
    requires Quiet(s) && Frame(s, t, own, k) && NewRowsSettled(s, t) && forall id :: id in t.rows ==> id < t.next
    ensures Quiet(t)
  {
    forall id | id in t.rows ensures t.rows[id].status != InProgress {
      if id < s.next { assert id in s.rows; }
    }
  }

  lemma StartStaysQuiet(w: World, s: State, k: Key, cleanup: bool, f: Flags)
    requires Quiet(s) && KeysUsable(w, s)
    ensures Quiet(Perform(w, s, k, cleanup, f).st) && KeysUsable(w, Perform(w, s, k, cleanup, f).st)
  {
    hide Frame, Newest, Perform, Quiet;
    var t := Perform(w, s, k, cleanup, f).st;
    PerformReaches(w, s, k, cleanup, f);
    var ls :| Leads(w, s, ls, t, true);
    KeysStayUsable(w, s, ls);
    PerformSettles(w, s, k, cleanup, f);
    QuietFrame(s, t, OwnRow(s, k), Exempt(s, k));
  }

  lemma {:induction false} BatchStaysQuiet(w: World, s: State, rtype: string, ids: seq<string>, cleanup: bool, f: Flags)
    requires Quiet(s) && KeysUsable(w, s)
    ensures Quiet(BatchLoop(w, s, rtype, ids, cleanup, f).st)
    decreases |ids|
  {
    hide Perform, Quiet, SkippedByBatch;
    if ids != [] {
      if SkippedByBatch(s, ids[0]) {
        BatchStaysQuiet(w, s, rtype, ids[1..], cleanup, f);
      } else {
        var one := Perform(w, s, Key(rtype, ids[0]), cleanup, f);
        StartStaysQuiet(w, s, Key(rtype, ids[0]), cleanup, f);
        if one.res.Ok? { BatchStaysQuiet(w, one.st, rtype, ids[1..], cleanup, f); }
      }
    }
  }

  lemma CommandStaysQuiet(w: World, s: State, c: Command)
    requires Quiet(s) && KeysUsable(w, s)
    ensures Quiet(After(w, s, c)) && KeysUsable(w, After(w, s, c))
  {
    hide Perform, Newest;
    var t := After(w, s, c);
    AfterReaches(w, s, c, false);
    var ls :| Leads(w, s, ls, t, false);
    KeysStayUsable(w, s, ls);
    match c {
      case Start(k, cleanup, f) => StartStaysQuiet(w, s, k, cleanup, f);
      case DryStart(k, f, limit) =>
      case StartBatch(rtype, listed, dry, cleanup, f) =>
        if listed.Ok? {
          BatchStaysQuiet(w, s, rtype, listed.value, cleanup, f);
          if dry.Some? { DryBatchReaches(w, s, rtype, listed.value, f, dry.value); }
        }
      case CleanSource(o) =>
        var ids := GetMigrations(s.rows, s.next, CleanupFilter(w, o), false);
        if t != s { QuietFrame(s, t, IdSet(ids), None); }
      case RegisterExt(k, dest) =>
    }
  }

  lemma {:induction false} RunStaysQuiet(w: World, s: State, cs: seq<Command>)
    requires Quiet(s) && KeysUsable(w, s)
    ensures Quiet(Run(w, s, cs)) && KeysUsable(w, Run(w, s, cs))
    decreases |cs|
  {
    hide Quiet, After;
    if cs != [] {
      CommandStaysQuiet(w, s, cs[0]);
      RunStaysQuiet(w, After(w, s, cs[0]), cs[1..]);
    }
  }

  /** From an empty database, over any run: between two commands no resource is in progress, and
      each migrated one has a copy and passes the entry checks. */
  lemma HistoriesAreSane(w: World, cs: seq<Command>)
    ensures var s := Run(w, Empty, cs);
      forall k :: !Busy(s, k) && (Done(s, k) ==> Usable(w, k) && HasCopy(s, k))
  {
    hide Run;
    var s := Run(w, Empty, cs);
    RunStaysQuiet(w, Empty, cs);
    NoSourceLost(w, cs);
  }

  /** `v` is closed under dependencies, and members if these are included, and every resource in it passes the
      entry checks. */
  predicate ClosedUnder(w: World, f: Flags, v: set<Key>) {
    forall k :: k in v ==> Usable(w, k) && KeySet(DepsOf(w, k)) <= v && (f.members ==> KeySet(MembersOf(w, k)) <= v)
  }

  /** So on such a database, when handlers do not raise, a start with dependencies on an unmigrated
      resource returns exactly when no dependency cycle of unmigrated resources is below it. */
  lemma StartReturnsUnlessTrapped(w: World, cs: seq<Command>, k: Key, cleanup: bool, f: Flags, v: set<Key>)
    requires Calm(w) && f.deps && ClosedUnder(w, DepsOnly, v) && k in v && !Done(Run(w, Empty, cs), k)
    ensures var s := Run(w, Empty, cs);
      Perform(w, s, k, cleanup, f).res.Ok? <==> !exists c :: k in c && Trap(w, s, c)
  {
    hide Run, Perform, Newest, Trap;
    var s := Run(w, Empty, cs);
    HistoriesAreSane(w, cs);
    assert Acceptable(w, s, DepsOnly, v);
    StartReturnsIff(w, s, k, cleanup, f, v);
  }

  /** And when the start is not entangled, it creates exactly what is reachable through unmigrated
      resources, each once, after its dependencies and from their copies. */
  lemma StartMigratesClosure(w: World, cs: seq<Command>, k: Key, cleanup: bool, f: Flags, v: set<Key>)
    requires Calm(w) && f.deps && ClosedUnder(w, f, v) && k in v && !Done(Run(w, Empty, cs), k)
    requires !Entangled(w, Run(w, Empty, cs), f, k)
    ensures var s := Run(w, Empty, cs);
      var r := Perform(w, s, k, cleanup, f);
      r.res.Ok? && CreatedExactly(w, s, r.st, iset j | Reachable(w, s, f, k, j))
  {
    hide Run, Perform, Newest, Entangled, Reachable, CreatedExactly;
    var s := Run(w, Empty, cs);
    HistoriesAreSane(w, cs);
    assert Sturdy(w, s, f, v);
    StartMigratesReachable(w, s, k, cleanup, f, v);
  }

  /** A path of FAILED dependencies from `k` to a resource that was refused, whose handler call was the
      last and failed, whose dependencies were not included, or that depends on one of the path. */
  ghost predicate Explained(w: World, t: State, f: Flags, k: Key, path: seq<Key>) {
    && FailedPath(w, t, path) && path[0] == k
    && var last := path[|path| - 1];
       || !Usable(w, last)
       || Culprit(t, last)
       || (!f.deps && FailedNow(t, last) && Lacking(w, t, last))
       || (FailedNow(t, last) && exists d :: d in KeySet(DepsOf(w, last)) && d in path)
  }

  /** So on such a database a start raises for one of these reasons only, or in its cleanup. */
  lemma RaisingStartIsExplained(w: World, cs: seq<Command>, k: Key, cleanup: bool, f: Flags)
    requires !Done(Run(w, Empty, cs), k) && Perform(w, Run(w, Empty, cs), k, cleanup, f).res.Err?
    ensures var s := Run(w, Empty, cs);
      (exists path :: Explained(w, Perform(w, s, k, cleanup, f).st, f, k, path))
        || (cleanup && CleanupRaises(w, s, k, f))
  {
    hide Run, Perform, Newest, Culprit, CleanupRaises;
    var s := Run(w, Empty, cs);
    var t := Perform(w, s, k, cleanup, f).st;
    HistoriesAreSane(w, cs);
    StartIsTidy(w, s, k, cleanup, f);
    StartBlames(w, s, k, cleanup, f);
    if path :| BlamePath(w, s, t, f, k, path) {
      var last := path[|path| - 1];
      forall d | Done(t, d) ensures HasCopy(t, d) {
        if Done(s, d) { assert HasCopy(s, d); }
      }
      assert !Uncopied(w, t, last);
      assert Explained(w, t, f, k, path);
    }
  }
}
