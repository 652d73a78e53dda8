/** The cleanup-source command: when it acts, and which sources it deletes. */
module Cleanups {
  import opened Store
  import opened World
  import opened Orchestration
  import opened Steps
  import opened Commands
  import opened Blame

  /** cleanup-source --dry-run does nothing; with no filter, no --all and no --dry-run it raises and does
      nothing. */
  lemma CleanupSourceHolds(w: World, s: State, o: CleanupOptions)
    ensures o.dryRun ==> CleanupSource(w, s, o) == Outcome(s, Ok(()))
    ensures !o.dryRun && !o.all && o.service == None && o.rtype == None && o.sourceId == None ==>
      CleanupSource(w, s, o) == Outcome(s, Err(InvalidInput))
  {
  }

  predicate DeletedAt(s: State, t: State, id: nat, i: nat, ok: bool)
    requires id in s.rows && i < |t.trace|
  {
    t.trace[i] == Event(DeleteSource(s.rows[id].key), ok, "")
  }

  /** The calls from `s` to `t` delete the sources of the first `n` rows, in order; all are deleted if `ok`,
      and otherwise the last of them could not be. */
  ghost predicate DeletesInTurn(s: State, t: State, ids: seq<nat>, n: nat, ok: bool) {
    && n <= |ids| && |t.trace| == |s.trace| + n && s.trace <= t.trace
    && (if ok then n == |ids| else 0 < n)
    && forall x :: 0 <= x < n ==> ids[x] in s.rows && DeletedAt(s, t, ids[x], |s.trace| + x, ok || x < n - 1)
  }

  lemma CleanupCalls(w: World, s: State, id: nat)
    requires id in s.rows && Usable(w, s.rows[id].key)
    ensures var c := Cleanup(w, s, id);
      && c.st.trace == s.trace + [Event(DeleteSource(s.rows[id].key), c.res.Ok?, "")]
      && forall i :: i in s.rows ==> i in c.st.rows && c.st.rows[i].key == s.rows[i].key
  {
  }

  lemma {:induction false} CleanupDeletesInTurn(w: World, s: State, ids: seq<nat>) returns (n: nat)
    requires MigratedRows(s, ids) && forall id :: id in ids ==> Usable(w, s.rows[id].key)
    ensures DeletesInTurn(s, CleanupAll(w, s, ids).st, ids, n, CleanupAll(w, s, ids).res.Ok?)
    decreases |ids|
  {
    hide Newest, Frame;
    n := 0;
    if ids != [] {
      var c, r := Cleanup(w, s, ids[0]), CleanupAll(w, s, ids);
      CleanupCalls(w, s, ids[0]);
      CleanupFrame(w, s, ids[0], IdSet(ids));
      hide Cleanup;
      if c.res.Err? {
        assert r == c && DeletedAt(s, r.st, ids[0], |s.trace|, false);
        n := 1;
      } else {
        assert MigratedRows(c.st, ids[1..]);
        var later := CleanupDeletesInTurn(w, c.st, ids[1..]);
        DeletesLater(s, c.st, r.st, ids, later, r.res.Ok?);
        n := later + 1;
      }
    }
  }

  lemma DeletesLater(s: State, c: State, t: State, ids: seq<nat>, n: nat, ok: bool)
    requires ids != [] && (forall id :: id in ids ==> id in s.rows && id in c.rows && c.rows[id].key == s.rows[id].key)
    requires DeletesInTurn(c, t, ids[1..], n, ok)
    requires c.trace == s.trace + [Event(DeleteSource(s.rows[ids[0]].key), true, "")]
    ensures DeletesInTurn(s, t, ids, n + 1, ok)
  {
    forall x | 0 <= x < n + 1
      ensures ids[x] in s.rows
      ensures DeletedAt(s, t, ids[x], |s.trace| + x, ok || x < n)
    {
      assert ids[x] in ids;
      if x > 0 { assert ids[1..][x - 1] == ids[x] && DeletedAt(c, t, ids[x], |c.trace| + (x - 1), ok || x < n); }
    }
  }

  /** `ids` are the selected rows, newest first. */
  ghost predicate SelectedRows(w: World, s: State, o: CleanupOptions, ids: seq<nat>) {
    && (forall id: nat :: id in ids <==> IsRow(s, id) && Selected(w, o, s.rows[id]))
    && forall x, y :: 0 <= x < y < |ids| ==> ids[y] < ids[x]
  }

  ghost predicate DeletesSelected(w: World, s: State, o: CleanupOptions, r: Outcome<()>, ids: seq<nat>, n: nat) {
    SelectedRows(w, s, o, ids) && DeletesInTurn(s, r.st, ids, n, r.res.Ok?)
  }

  /** Otherwise it deletes the sources of exactly the selected rows, newest first, up to the first that
      cannot be deleted, and makes no other call. */
  lemma CleanupSourceDeletes(w: World, s: State, o: CleanupOptions)
    requires forall id :: id in s.rows ==> id < s.next && Usable(w, s.rows[id].key)
    requires !o.dryRun && (o.all || o.service != None || o.rtype != None || o.sourceId != None)
    ensures exists ids, n :: DeletesSelected(w, s, o, CleanupSource(w, s, o), ids, n)
  {
    hide Newest, Frame, CleanupAll;
    var ids := GetMigrations(s.rows, s.next, CleanupFilter(w, o), false);
    var n := CleanupDeletesInTurn(w, s, ids);
    var r := CleanupSource(w, s, o);
    assert DeletesSelected(w, s, o, r, ids, n);
  }

  /** A row of a type that is not registered is marked and raises; one without an id raises. */
  lemma CleanupRefused(w: World, s: State, id: nat)
    requires id in s.rows && !Usable(w, s.rows[id].key)
    ensures var k := s.rows[id].key;
      Cleanup(w, s, id) ==
        Outcome(if k.id == "" then s else SetStatus(s, id, SourceCleanupFailed), Err(InvalidInput))
  {
  }
}
