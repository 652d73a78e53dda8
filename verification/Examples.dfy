/** Concrete inputs at which the manager does not do what one would expect; the general results say
    exactly when. */
module Examples {
  import opened Store
  import opened World
  import opened Orchestration
  import opened Commands
  import opened DryRun
  import opened Reach
  import opened Safety
  import opened Closure
  import opened Containment
  import opened Returns
  import opened Blame

  /** A resource without dependencies whose handler answers is migrated with two calls. */
  lemma LeafMigrates(w: World, s: State, k: Key, f: Flags)
    requires !Done(s, k) && DepsOf(w, k) == []
    requires forall tr, c: Call :: c.AskDeps? || c == Create(k, []) ==> !w.raises(tr, c)
    ensures var p := TryMigrate(w, s, k, f);
      && p.res == Ok([]) && p.st.next == s.next + 1
      && p.st.rows == s.rows[s.next := NewRow(k).(dest := p.st.rows[s.next].dest)]
  {
    var s1 := Insert(s, NewRow(k));
    var a := AskAssociated(w, s1, k);
    assert a.res == Ok(Associated([], []));
    assert Resolve(w, s, k, f) == Outcome(a.st, Ok(Ready([], [])));
  }

  // ---- A failed cleanup is forgotten ----

  /** Sources cannot be deleted. */
  function Stubborn(): World {
    Sample().(raises := (tr: seq<Event>, call: Call) => call.DeleteSource?)
  }

  lemma StubbornStart()
    ensures var w, f := Stubborn(), Flags(false, false);
      var t := Perform(w, Empty, Net, true, f).st;
      && !Done(Empty, Net) && Usable(w, Net) && TryMigrate(w, Empty, Net, f).res.Ok?
      && Newest(t, Net) == Some(0) && 0 in t.rows && t.rows[0].key == Net && CleanupFailed(t.rows[0])
  {
    hide Perform, TryMigrate, CleanupStart, RowKeyList;
    var w, f := Stubborn(), Flags(false, false);
    SampleGraph();
    LeafMigrates(w, Empty, Net, f);
    StartCleanupStatusIff(w, Empty, Net, f);
    StartSettlesNewRow(w, Empty, Net, true, f);
  }

  lemma RunOfTwo(w: World, s: State, c: Command, d: Command)
    ensures Run(w, s, [c, d]) == After(w, After(w, s, c), d)
  {
    assert [c, d][1..] == [d];
    RunOfOne(w, After(w, s, c), d);
  }

  /** A start with cleanup that cannot delete the source, and one without: the second makes the row
      COMPLETED, with the source still there. */
  lemma FailedCleanupIsForgotten()
    ensures var w, f := Stubborn(), Flags(false, false);
      var one, two := Run(w, Empty, [Start(Net, true, f)]), Run(w, Empty, [Start(Net, true, f), Start(Net, false, f)]);
      && 0 in one.rows && one.rows[0].key == Net && CleanupFailed(one.rows[0])
      && 0 in two.rows && two.rows[0] == one.rows[0].(status := Completed)
  {
    hide Perform, Newest, Stubborn;
    var w, f := Stubborn(), Flags(false, false);
    var t := Perform(w, Empty, Net, true, f).st;
    RunOfOne(w, Empty, Start(Net, true, f));
    RunOfTwo(w, Empty, Start(Net, true, f), Start(Net, false, f));
    StubbornStart();
    assert Done(t, Net);
    FailedCleanupRememberedIff(w, t, Net, false, f);
  }

  // ---- A failed member does not keep its parent's source ----

  /** One of the two subnets cannot be created. */
  function Unlucky(): World {
    Sample().(raises := (tr: seq<Event>, call: Call) => call.Create? && call.key == SubA)
  }

  /** What its handler never creates is never migrated. */
  lemma NeverCreated(w: World, s: State, k: Key, cleanup: bool, f: Flags, j: Key)
    requires !Done(s, j) && forall tr, given :: w.raises(tr, Create(j, given))
    ensures !Done(Perform(w, s, k, cleanup, f).st, j)
  {
    hide Perform, Newest;
    var t := Perform(w, s, k, cleanup, f).st;
    StartIsOnceAndImage(w, s, k, cleanup, f);
    RunOfOne(w, s, Start(k, cleanup, f));
    RunRecordsTruly(w, s, [Start(k, cleanup, f)]);
    forall i: nat | |s.trace| <= i < |t.trace| ensures !CreatedAt(t.trace, i, j) {
      assert TrueEvent(w, t.trace, i);
    }
  }

  /** A start with cleanup on a network: a subnet fails, and the source of the network is deleted. */
  lemma FailedMemberLosesParent()
    ensures var w := Unlucky();
      var t := Perform(w, Empty, Net, true, Both).st;
      && SubA in KeySet(MembersOf(w, Net)) && !Done(t, SubA)
      && 0 in t.rows && t.rows[0].key == Net && t.rows[0].sourceRemoved
  {
    hide Perform, Newest, TryMigrate, CleanupStart, RowKeyList;
    var w := Unlucky();
    SampleGraph();
    assert Net != SubA && DepsOf(w, Net) == DepsOf(Sample(), Net) && MembersOf(w, Net) == MembersOf(Sample(), Net);
    forall tr, given ensures w.raises(tr, Create(SubA, given)) { }
    assert !Settled(Empty, SubA) && !Settled(Empty, Net);
    assert !Done(Empty, SubA);
    assert forall tr, given :: w.raises(tr, Create(SubA, given));
    NeverCreated(w, Empty, Net, true, Both, SubA);
    assert DepsOf(w, Net) == [];
    assert forall tr, c: Call :: c.AskDeps? || c == Create(Net, []) ==> !w.raises(tr, c);
    LeafMigrates(w, Empty, Net, Both);
    StartCleanupStatusIff(w, Empty, Net, Both);
  }

  // ---- A dependency's source that cannot be deleted ----

  const Prt := Key("port", "p")
  const Fip := Key("floating-ip", "i")

  /** A port with a floating IP, flagged for cleanup, whose source cannot be deleted. */
  function Clinging(): World {
    World(
      map["port" := "network", "floating-ip" := "network"],
      map[Prt := [Resource(Fip, true)]],
      map[],
      (tr: seq<Event>, call: Call) => call == DeleteSource(Fip),
      (tr, k) => "copy")
  }

  /** So is a start on it, without cleanup and members. */
  lemma LeafStarts(w: World, s: State, k: Key)
    requires Usable(w, k) && !Done(s, k) && DepsOf(w, k) == []
    requires forall tr, c: Call :: c.AskDeps? || c == Create(k, []) ==> !w.raises(tr, c)
    ensures var r := Perform(w, s, k, false, DepsOnly);
      && r.res == Ok(s.next) && r.st.next == s.next + 1
      && r.st.rows == s.rows[s.next := r.st.rows[s.next]] && r.st.rows[s.next].key == k
  {
    hide TryMigrate, Newest;
    LeafMigrates(w, s, k, DepsOnly);
    var p := TryMigrate(w, s, k, DepsOnly);
    MarkMigrated(s, p.st, k, []);
    assert Perform(w, s, k, false, DepsOnly) == Conclude(w, SetStatus(p.st, s.next, PendingMembers), s.next, [], false);
  }

  /** Asking for the dependencies of a resource with one dependency. */
  lemma AskOne(w: World, s: State, k: Key, d: Key)
    requires DepsOf(w, k) == [Resource(d, true)] && !w.raises(s.trace, AskDeps(k))
    requires Done(s, d) ==> HasCopy(s, d)
    ensures var a := AskAssociated(w, s, k);
      && SameTable(s, a.st) && a.res.Ok?
      && a.res.value.pending == if Done(s, d) then [] else [Resource(d, true)]
  {
    var list, t := DepsOf(w, k), AskAssociated(w, s, k).st;
    assert list[1..] == [] && [list[0]] + [] == list;
    assert Split(t, []) == Ok(Associated([], []));
    assert Done(t, d) == Done(s, d) && DestOf(t, d) == DestOf(s, d) by { NewestSame(s, t, d); }
    if Done(t, d) { NewestIsRow(t, d); }
  }

  /** A loop over one flagged dependency that is a leaf. */
  lemma LoopOne(w: World, s: State, d: Key)
    requires Usable(w, d) && !Settled(s, d) && DepsOf(w, d) == []
    requires forall tr, c: Call :: c.AskDeps? || c == Create(d, []) ==> !w.raises(tr, c)
    ensures var l := DepLoop(w, s, [Resource(d, true)], DepsOnly);
      && l.res == Ok([s.next]) && s.next in l.st.rows && l.st.rows[s.next].key == d && Done(l.st, d) && HasCopy(l.st, d)
  {
    hide Newest, Frame, Perform;
    var list := [Resource(d, true)];
    LeafStarts(w, s, d);
    StartIsTidy(w, s, d, false, DepsOnly);
    var one := Perform(w, s, d, false, DepsOnly);
    assert list[1..] == [];
    assert DepLoop(w, one.st, [], DepsOnly) == Outcome(one.st, Ok([]));
    assert [s.next] + [] == [s.next];
  }

  lemma OneFlagged(w: World, s: State, k: Key, d: Key)
    requires Usable(w, d) && !Settled(s, k) && !Settled(s, d) && k != d
    requires DepsOf(w, k) == [Resource(d, true)] && DepsOf(w, d) == []
    requires forall tr, c: Call :: c.AskDeps? || c == Create(d, []) ==> !w.raises(tr, c)
    ensures var r := Resolve(w, s, k, DepsOnly);
      r.res.Ok? && r.res.value.cleanup == [s.next + 1] && s.next + 1 in r.st.rows && r.st.rows[s.next + 1].key == d
  {
    hide Newest, Frame, DepLoop, AskAssociated;
    var s1 := Insert(s, NewRow(k));
    InsertKeepsSettled(s, k);
    AskOne(w, s1, k, d);
    var a := AskAssociated(w, s1, k);
    assert !Settled(a.st, d) by { NewestSame(s1, a.st, d); }
    LoopOne(w, a.st, d);
    AskOne(w, DepLoop(w, a.st, [Resource(d, true)], DepsOnly).st, k, d);
  }

  lemma OneFlaggedMigrates(w: World, s: State, k: Key, d: Key)
    requires Usable(w, d) && !Settled(s, k) && !Settled(s, d) && k != d
    requires DepsOf(w, k) == [Resource(d, true)] && DepsOf(w, d) == []
    requires forall tr, c: Call :: c.AskDeps? || c.Create? ==> !w.raises(tr, c)
    ensures var p := TryMigrate(w, s, k, DepsOnly);
      p.res == Ok([s.next + 1]) && s.next + 1 in p.st.rows && p.st.rows[s.next + 1].key == d
  {
    hide Newest, Resolve, Frame;
    OneFlagged(w, s, k, d);
    TryMigrateTable(w, s, k, DepsOnly);
  }

  lemma ClingingMigrates()
    ensures var w, p := Clinging(), TryMigrate(Clinging(), Empty, Prt, DepsOnly);
      && !Done(Empty, Prt) && Usable(w, Prt) && DepsOf(w, Prt) == [Resource(Fip, true)]
      && p.res == Ok([1]) && 1 in p.st.rows && p.st.rows[1].key == Fip
  {
    hide TryMigrate;
    var w := Clinging();
    assert !Settled(Empty, Fip) && !Settled(Empty, Prt);
    assert Prt != Fip && DepsOf(w, Fip) == [] && Usable(w, Fip);
    assert forall tr, c: Call :: c.AskDeps? || c.Create? ==> !w.raises(tr, c);
    OneFlaggedMigrates(w, Empty, Prt, Fip);
  }

  /** A start on the port with cleanup: the floating IP's source stays, the port's is gone, and the port is
      left PENDING_CLEANUP. */
  lemma FailedDependencyCleanupShows()
    ensures var w := Clinging();
      var r := Perform(w, Empty, Prt, true, DepsOnly);
      && r.res.Err? && 0 in r.st.rows && r.st.rows[0].key == Prt
      && r.st.rows[0].status == PendingCleanup && r.st.rows[0].sourceRemoved
      && FlaggedFailed(w, r.st, Prt)
  {
    hide Perform, Newest, TryMigrate;
    var w := Clinging();
    ClingingMigrates();
    StartCleanupStatusIff(w, Empty, Prt, DepsOnly);
    var c := CleanupStart(w, Empty, Prt, DepsOnly);
    assert [1][1..] == [] && RowKeyList(c, [1]) == [Fip];
    assert Prt != Fip && DeletionRaises(w, c.trace + [Event(DeleteSource(Prt), true, "")], [Fip]);
  }
}
