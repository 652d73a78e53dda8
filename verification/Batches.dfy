/** start-batch: the left-to-right fold of single starts. */
module Batches {
  import opened Store
  import opened World
  import opened Orchestration
  import opened Steps
  import opened Commands
  import opened Safety
  import opened DryRun
  import opened DryCalls

  /** Some visible COMPLETED row has the source id. */
  ghost predicate HasCompletedRow(s: State, id: string) {
    exists i :: IsRow(s, i) && s.rows[i].key.id == id && s.rows[i].status == Completed && !s.rows[i].archived
  }

  lemma SkippedMeaning(s: State, id: string)
    ensures SkippedByBatch(s, id) <==> HasCompletedRow(s, id)
  {
    var f := NoFilter.(sourceId := Some(id), status := Some(Completed));
    var q := GetMigrations(s.rows, s.next, f, false);
    if q != [] { assert q[0] in q; }
    if i :| IsRow(s, i) && s.rows[i].key.id == id && s.rows[i].status == Completed && !s.rows[i].archived {
      assert i in q;
    }
  }

  /** A start on an id without a COMPLETED row keeps the COMPLETED rows of all ids, and if it
      returns it adds one for its own. */
  lemma StartKeepsCompleted(w: World, s: State, k: Key, cleanup: bool, f: Flags)
    requires !HasCompletedRow(s, k.id)
    ensures var r := Perform(w, s, k, cleanup, f);
      && (forall id :: HasCompletedRow(s, id) ==> HasCompletedRow(r.st, id))
      && (r.res.Ok? ==> HasCompletedRow(r.st, k.id))
  {
    var r := Perform(w, s, k, cleanup, f);
    forall id | HasCompletedRow(s, id) ensures HasCompletedRow(r.st, id) {
      var i :| IsRow(s, i) && s.rows[i].key.id == id && s.rows[i].status == Completed && !s.rows[i].archived;
      if Done(s, k) { assert s.rows[Newest(s, k).value].key == k; }
      assert r.st.rows[i] == s.rows[i];
    }
    if r.res.Ok? {
      ReturnedIsCompleted(w, s, k, cleanup, f);
      assert IsRow(r.st, r.res.value);
    }
  }

  /** A start that returns leaves its row COMPLETED. */
  lemma ReturnedIsCompleted(w: World, s: State, k: Key, cleanup: bool, f: Flags)
    requires Perform(w, s, k, cleanup, f).res.Ok?
    ensures var r := Perform(w, s, k, cleanup, f);
      r.res.value in r.st.rows && r.st.rows[r.res.value].status == Completed
  {
    hide Newest, Frame, TryMigrate;
    if Done(s, k) { MarkAgain(s, k); }
    else {
      var p := TryMigrate(w, s, k, f);
      if p.res.Ok? { MarkMigrated(s, p.st, k, p.res.value); }
    }
  }

  /** A batch that returns leaves a COMPLETED row for every listed id. */
  lemma {:induction false} BatchCompletes(w: World, s: State, rtype: string, ids: seq<string>, cleanup: bool, f: Flags)
    ensures var r := BatchLoop(w, s, rtype, ids, cleanup, f);
      && (forall id :: HasCompletedRow(s, id) ==> HasCompletedRow(r.st, id))
      && (r.res.Ok? ==> forall id :: id in ids ==> HasCompletedRow(r.st, id))
    decreases |ids|
  {
    if ids != [] {
      hide Perform, HasCompletedRow;
      SkippedMeaning(s, ids[0]);
      if SkippedByBatch(s, ids[0]) {
        BatchCompletes(w, s, rtype, ids[1..], cleanup, f);
      } else {
        var one := Perform(w, s, Key(rtype, ids[0]), cleanup, f);
        StartKeepsCompleted(w, s, Key(rtype, ids[0]), cleanup, f);
        if one.res.Ok? { BatchCompletes(w, one.st, rtype, ids[1..], cleanup, f); }
      }
    }
  }

  lemma {:induction false} CompletedBatchIsSkipped(w: World, s: State, rtype: string, ids: seq<string>,
          cleanup: bool, f: Flags)
    requires forall id :: id in ids ==> HasCompletedRow(s, id)
    ensures BatchLoop(w, s, rtype, ids, cleanup, f) == Outcome(s, Ok(()))
    decreases |ids|
  {
    if ids != [] {
      assert ids[0] in ids;
      SkippedMeaning(s, ids[0]);
      CompletedBatchIsSkipped(w, s, rtype, ids[1..], cleanup, f);
    }
  }

  /** Running a batch that returned once more does nothing at all, whatever the flags. */
  lemma BatchIsIdempotent(w: World, s: State, rtype: string, ids: seq<string>, cleanup: bool, f: Flags,
          cleanup': bool, f': Flags)
    requires BatchLoop(w, s, rtype, ids, cleanup, f).res.Ok?
    ensures var t := BatchLoop(w, s, rtype, ids, cleanup, f).st;
      BatchLoop(w, t, rtype, ids, cleanup', f') == Outcome(t, Ok(()))
  {
    BatchCompletes(w, s, rtype, ids, cleanup, f);
    CompletedBatchIsSkipped(w, BatchLoop(w, s, rtype, ids, cleanup, f).st, rtype, ids, cleanup', f');
  }

  /** A batch over a concatenation is the two batches in turn. */
  lemma {:induction false} BatchConcat(w: World, s: State, rtype: string, a: seq<string>, b: seq<string>,
          cleanup: bool, f: Flags)
    ensures var r := BatchLoop(w, s, rtype, a, cleanup, f);
      BatchLoop(w, s, rtype, a + b, cleanup, f) == if r.res.Err? then r else BatchLoop(w, r.st, rtype, b, cleanup, f)
    decreases |a|
  {
    if a == [] {
      assert a + b == b;
    } else {
      assert (a + b)[1..] == a[1..] + b;
      if SkippedByBatch(s, a[0]) {
        BatchConcat(w, s, rtype, a[1..], b, cleanup, f);
      } else {
        var one := Perform(w, s, Key(rtype, a[0]), cleanup, f);
        if one.res.Ok? { BatchConcat(w, one.st, rtype, a[1..], b, cleanup, f); }
      }
    }
  }

  lemma BatchOfNone(w: World, s: State, rtype: string, cleanup: bool, f: Flags)
    ensures BatchLoop(w, s, rtype, [], cleanup, f) == Outcome(s, Ok(()))
  {
  }

  lemma BatchHead(w: World, s: State, rtype: string, ids: seq<string>, cleanup: bool, f: Flags)
    requires ids != []
    ensures var one := Perform(w, s, Key(rtype, ids[0]), cleanup, f);
      BatchLoop(w, s, rtype, ids, cleanup, f) ==
        if SkippedByBatch(s, ids[0]) then BatchLoop(w, s, rtype, ids[1..], cleanup, f)
        else if one.res.Err? then Outcome(one.st, Err(one.res.error))
        else BatchLoop(w, one.st, rtype, ids[1..], cleanup, f)
  {
  }

  /** The starts for `a` returned, the one for `x` raised, and that is where the batch ended. */
  ghost predicate StoppedAt(w: World, s: State, rtype: string, a: seq<string>, x: string, ids: seq<string>,
          cleanup: bool, f: Flags) {
    var before := BatchLoop(w, s, rtype, a, cleanup, f);
    var one := Perform(w, before.st, Key(rtype, x), cleanup, f);
    && a + [x] <= ids
    && before.res.Ok? && !SkippedByBatch(before.st, x)
    && one.res.Err? && BatchLoop(w, s, rtype, ids, cleanup, f) == Outcome(one.st, Err(one.res.error))
  }

  /** A batch that raises stopped at the first start that raised: all before it returned, and
      nothing listed after it was started. */
  lemma {:induction false} BatchStopsAtFirstFailure(w: World, s: State, rtype: string, ids: seq<string>,
          cleanup: bool, f: Flags)
    requires BatchLoop(w, s, rtype, ids, cleanup, f).res.Err?
    ensures exists a, x :: StoppedAt(w, s, rtype, a, x, ids, cleanup, f)
    decreases |ids|
  {
    hide Perform, SkippedByBatch, BatchLoop, Frame, Newest;
    BatchOfNone(w, s, rtype, cleanup, f);
    var one := Perform(w, s, Key(rtype, ids[0]), cleanup, f);
    BatchHead(w, s, rtype, ids, cleanup, f);
    if !SkippedByBatch(s, ids[0]) && one.res.Err? {
      assert StoppedAt(w, s, rtype, [], ids[0], ids, cleanup, f);
    } else {
      var t := if SkippedByBatch(s, ids[0]) then s else one.st;
      BatchStopsAtFirstFailure(w, t, rtype, ids[1..], cleanup, f);
      var a, x :| StoppedAt(w, t, rtype, a, x, ids[1..], cleanup, f);
      StoppedLater(w, s, t, rtype, a, x, ids, cleanup, f);
    }
  }

  lemma StoppedLater(w: World, s: State, t: State, rtype: string, a: seq<string>, x: string, ids: seq<string>,
          cleanup: bool, f: Flags)
    requires ids != [] && StoppedAt(w, t, rtype, a, x, ids[1..], cleanup, f)
    requires var one := Perform(w, s, Key(rtype, ids[0]), cleanup, f);
      if SkippedByBatch(s, ids[0]) then t == s else one.res.Ok? && t == one.st
    ensures StoppedAt(w, s, rtype, [ids[0]] + a, x, ids, cleanup, f)
  {
    hide Perform, SkippedByBatch, BatchLoop, Frame, Newest;
    var b := [ids[0]] + a;
    BatchHead(w, s, rtype, ids, cleanup, f);
    BatchHead(w, s, rtype, b, cleanup, f);
    assert b[1..] == a && b[0] == ids[0];
    assert b + [x] == [ids[0]] + (a + [x]);
    assert ids == [ids[0]] + ids[1..];
  }

  // ---- The listed resource of its own type ----

  lemma BatchKeepsDone(w: World, s: State, rtype: string, ids: seq<string>, cleanup: bool, f: Flags)
    ensures forall k :: Done(s, k) ==> Done(BatchLoop(w, s, rtype, ids, cleanup, f).st, k)
  {
    hide BatchLoop, Newest;
    BatchLoopReaches(w, s, rtype, ids, cleanup, f);
    ReachesImage(w, s, BatchLoop(w, s, rtype, ids, cleanup, f).st);
  }

  /** A batch that returns has migrated the resource of its own type for a listed id, by the end of that
      id's turn, exactly when it did not skip the id or the resource was migrated already; a skipped id
      changes nothing. */
  lemma BatchMigratesIff(w: World, s: State, rtype: string, a: seq<string>, id: string, b: seq<string>, cleanup: bool,
          f: Flags)
    requires BatchLoop(w, s, rtype, a + [id] + b, cleanup, f).res.Ok?
    ensures var before, after := BatchLoop(w, s, rtype, a, cleanup, f), BatchLoop(w, s, rtype, a + [id], cleanup, f);
      var k, final := Key(rtype, id), BatchLoop(w, s, rtype, a + [id] + b, cleanup, f);
      && before.res.Ok? && after.res.Ok?
      && (Done(after.st, k) <==> !SkippedByBatch(before.st, id) || Done(before.st, k))
      && (SkippedByBatch(before.st, id) ==> after.st == before.st)
      && (Done(after.st, k) ==> Done(final.st, k))
  {
    hide BatchLoop, Perform, SkippedByBatch, Newest;
    var before, after := BatchLoop(w, s, rtype, a, cleanup, f), BatchLoop(w, s, rtype, a + [id], cleanup, f);
    BatchConcat(w, s, rtype, a + [id], b, cleanup, f);
    BatchConcat(w, s, rtype, a, [id], cleanup, f);
    assert [id][1..] == [];
    BatchHead(w, before.st, rtype, [id], cleanup, f);
    var one := Perform(w, before.st, Key(rtype, id), cleanup, f);
    BatchOfNone(w, before.st, rtype, cleanup, f);
    BatchOfNone(w, one.st, rtype, cleanup, f);
    BatchKeepsDone(w, after.st, rtype, b, cleanup, f);
  }

  /** For instance, a copy declared for a resource of another type with the same id: the batch returns
      without having done anything, and its own resource is not migrated. */
  lemma OtherTypeHidesResource(w: World, rtype: string, other: string, id: string, dest: string, cleanup: bool,
          f: Flags)
    requires Usable(w, Key(rtype, id)) && Usable(w, Key(other, id)) && rtype != other && dest != ""
    ensures var s := Run(w, Empty, [RegisterExt(Key(other, id), dest)]);
      && BatchLoop(w, s, rtype, [id], cleanup, f) == Outcome(s, Ok(()))
      && !Done(s, Key(rtype, id))
  {
    hide Perform;
    var k := Key(other, id);
    var s := Insert(Log(Empty, Declare(k), true, dest), RegisteredRow(k, dest));
    NothingSelected(ByKey(k).(dest := Some(dest), status := Some(Completed)));
    assert RegisterExternal(w, Empty, k, dest).st == s;
    var cs := [RegisterExt(k, dest)];
    assert cs[1..] == [] && Run(w, s, []) == s && Run(w, Empty, cs) == s;
    assert IsRow(s, 0) && s.rows[0] == RegisteredRow(k, dest);
    SkippedMeaning(s, id);
    assert [id][1..] == [];
    assert BatchLoop(w, s, rtype, [], cleanup, f) == Outcome(s, Ok(()));
  }

  lemma NothingSelected(f: Filter)
    ensures GetMigrations(Empty.rows, Empty.next, f, false) == []
  {
  }

  // ---- With --dry-run ----

  /** When handlers do not raise, a dry batch returns exactly when the dry run of every id it does not
      skip does, and it leaves the table as it is. */
  lemma {:induction false} DryBatchReturnsIff(w: World, s: State, s0: State, rtype: string, ids: seq<string>, f: Flags,
          limit: nat)
    requires Calm(w) && SameTable(s, s0)
    ensures var r := DryBatchLoop(w, s, rtype, ids, f, limit);
      && SameTable(r.st, s0)
      && (r.res.Ok? <==>
            forall i :: 0 <= i < |ids| ==> SkippedByBatch(s0, ids[i]) || Returns(w, s0, Key(rtype, ids[i]), f, limit))
    decreases |ids|
  {
    hide Dry;
    if ids != [] {
      var k, tail := Key(rtype, ids[0]), ids[1..];
      var one := Dry(w, s, k, f, limit);
      DrySameTable(w, s, s0, k, f, limit);
      DryBatchReturnsIff(w, if SkippedByBatch(s, ids[0]) then s else one.st, s0, rtype, tail, f, limit);
      assert forall i :: 0 <= i < |tail| ==> tail[i] == ids[i + 1];
      assert forall i :: 0 < i < |ids| ==> ids[i] == tail[i - 1];
    }
  }

  // ---- The command as a whole ----

  /** Only what the dry run asks was asked, and no row was written. */
  ghost predicate OnlyAsks(s: State, t: State, f: Flags) {
    SameTable(s, t) && s.trace <= t.trace && forall i: nat :: |s.trace| <= i < |t.trace| ==> Listing(t.trace[i].call, f)
  }

  lemma {:induction false} DryLoopAsks(w: World, s: State, rtype: string, ids: seq<string>, f: Flags, limit: nat)
    ensures OnlyAsks(s, DryBatchLoop(w, s, rtype, ids, f, limit).st, f)
    decreases |ids|
  {
    hide Dry, SkippedByBatch, Listing;
    if ids != [] {
      if SkippedByBatch(s, ids[0]) {
        DryLoopAsks(w, s, rtype, ids[1..], f, limit);
      } else {
        var one := Dry(w, s, Key(rtype, ids[0]), f, limit);
        DryLists(w, s, Key(rtype, ids[0]), f, limit);
        if one.res.Ok? {
          DryLoopAsks(w, one.st, rtype, ids[1..], f, limit);
          var t := DryBatchLoop(w, one.st, rtype, ids[1..], f, limit).st;
          forall i: nat | |s.trace| <= i < |t.trace| ensures Listing(t.trace[i].call, f) {
            if i < |one.st.trace| { assert t.trace[i] == one.st.trace[i]; }
          }
        }
      }
    }
  }

  /** start-batch on a type that is not registered, or whose resources cannot be listed, raises that and
      does nothing. */
  lemma BatchRefused(w: World, s: State, rtype: string, listed: Result<seq<string>>, dry: Option<nat>, cleanup: bool,
          f: Flags)
    requires rtype == "" || rtype !in w.types || listed.Err?
    ensures Batch(w, s, rtype, listed, dry, cleanup, f) ==
      Outcome(s, Err(if rtype == "" || rtype !in w.types then InvalidInput else listed.error))
  {
  }

  /** start-batch --dry-run writes no row and makes only listing calls.  When handlers do not raise it
      returns exactly when the type is registered, its resources were listed, and for every listed id a
      COMPLETED row is there or the dry run returns. */
  lemma DryBatchIff(w: World, s: State, rtype: string, listed: Result<seq<string>>, limit: nat, cleanup: bool, f: Flags)
    ensures var r := Batch(w, s, rtype, listed, Some(limit), cleanup, f);
      && OnlyAsks(s, r.st, f)
      && (Calm(w) ==>
            (r.res.Ok? <==>
              rtype != "" && rtype in w.types && listed.Ok? && forall id :: id in listed.value ==>
                HasCompletedRow(s, id) || Returns(w, s, Key(rtype, id), f, limit)))
  {
    hide Returns, HasCompletedRow, DryBatchLoop;
    if Supported(w, rtype) && listed.Ok? {
      var ids := listed.value;
      DryLoopAsks(w, s, rtype, ids, f, limit);
      forall id ensures SkippedByBatch(s, id) <==> HasCompletedRow(s, id) { SkippedMeaning(s, id); }
      hide SkippedByBatch;
      if Calm(w) {
        DryBatchReturnsIff(w, s, s, rtype, ids, f, limit);
        assert forall i :: 0 <= i < |ids| ==> ids[i] in ids;
      }
    }
  }

  /** `cs` are starts, under the given flags, on some of the ids, in order. */
  predicate StartsOn(cs: seq<Command>, rtype: string, ids: seq<string>, cleanup: bool, f: Flags)
    decreases |ids|
  {
    cs == [] || (ids != [] &&
      ((cs[0] == Start(Key(rtype, ids[0]), cleanup, f) && StartsOn(cs[1..], rtype, ids[1..], cleanup, f))
        || StartsOn(cs, rtype, ids[1..], cleanup, f)))
  }

  ghost predicate IsRunOfStarts(w: World, s: State, t: State, rtype: string, ids: seq<string>, cleanup: bool,
          f: Flags) {
    exists cs :: StartsOn(cs, rtype, ids, cleanup, f) && Run(w, s, cs) == t
  }

  lemma {:induction false} LoopIsRun(w: World, s: State, rtype: string, ids: seq<string>, cleanup: bool, f: Flags)
    ensures IsRunOfStarts(w, s, BatchLoop(w, s, rtype, ids, cleanup, f).st, rtype, ids, cleanup, f)
    decreases |ids|
  {
    hide Perform, SkippedByBatch;
    var t := BatchLoop(w, s, rtype, ids, cleanup, f).st;
    if ids == [] {
      assert StartsOn([], rtype, ids, cleanup, f) && Run(w, s, []) == t;
    } else if SkippedByBatch(s, ids[0]) {
      LoopIsRun(w, s, rtype, ids[1..], cleanup, f);
      var cs :| StartsOn(cs, rtype, ids[1..], cleanup, f) && Run(w, s, cs) == t;
      assert StartsOn(cs, rtype, ids, cleanup, f);
    } else {
      var first := Start(Key(rtype, ids[0]), cleanup, f);
      var one := Perform(w, s, Key(rtype, ids[0]), cleanup, f);
      if one.res.Err? {
        RunOfOne(w, s, first);
        assert [first][1..] == [] && StartsOn([first], rtype, ids, cleanup, f);
      } else {
        LoopIsRun(w, one.st, rtype, ids[1..], cleanup, f);
        var cs :| StartsOn(cs, rtype, ids[1..], cleanup, f) && Run(w, one.st, cs) == t;
        var all := [first] + cs;
        assert all[1..] == cs && all[0] == first;
        assert After(w, s, first) == one.st;
        assert StartsOn(all, rtype, ids, cleanup, f) && Run(w, s, all) == t;
      }
    }
  }

  /** start-batch without --dry-run is a run of single starts on listed ids, in order and under the same
      flags, and goes through all of them as its loop does; if it returns, the type is registered, the resources
      were listed, and every listed id has a COMPLETED row. */
  lemma BatchIsRun(w: World, s: State, rtype: string, listed: Result<seq<string>>, cleanup: bool, f: Flags)
    ensures var r := Batch(w, s, rtype, listed, None, cleanup, f);
      && (listed.Ok? ==> IsRunOfStarts(w, s, r.st, rtype, listed.value, cleanup, f))
      && (listed.Ok? && rtype != "" && rtype in w.types ==> r == BatchLoop(w, s, rtype, listed.value, cleanup, f))
      && (r.res.Ok? ==> rtype in w.types && listed.Ok? && forall id :: id in listed.value ==> HasCompletedRow(r.st, id))
  {
    hide BatchLoop, HasCompletedRow;
    if listed.Ok? {
      if Supported(w, rtype) {
        LoopIsRun(w, s, rtype, listed.value, cleanup, f);
        BatchCompletes(w, s, rtype, listed.value, cleanup, f);
      } else {
        assert StartsOn([], rtype, listed.value, cleanup, f) && Run(w, s, []) == s;
      }
    }
  }
}
