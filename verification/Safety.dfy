/** What every step keeps, and therefore every run of commands. */
module Safety {
  import opened Store
  import opened World
  import opened Orchestration
  import opened Steps
  import opened Commands

  // ---- The list a handler is given ----

  /** The list carries, in the order of the reported dependencies, each one's recorded destination id. */
  predicate Translates(s: State, given: seq<Migrated>, list: seq<Resource>) {
    && |given| == |list|
    && forall j :: 0 <= j < |list| ==>
         && Done(s, list[j].key)
         && given[j] == Migrated(list[j].key, DestOf(s, list[j].key))
         && given[j].dest != ""
  }

  lemma {:induction false} SplitTranslates(s: State, list: seq<Resource>)
    requires Split(s, list).Ok? && Split(s, list).value.pending == []
    ensures Translates(s, Split(s, list).value.migrated, list)
    decreases |list|
  {
    if list != [] {
      SplitTranslates(s, list[1..]);
      var given, rest := Split(s, list).value.migrated, Split(s, list[1..]).value.migrated;
      assert given == [given[0]] + rest;
      forall j | 0 <= j < |list|
        ensures Done(s, list[j].key) && given[j] == Migrated(list[j].key, DestOf(s, list[j].key)) && given[j].dest != ""
      {
        if j > 0 { assert list[j] == list[1..][j - 1] && given[j] == rest[j - 1]; }
      }
    }
  }

  // ---- Newest rows over a step ----

  lemma NewestNext(w: World, s: State, l: Label, k: Key)
    requires Enabled(w, s, l)
    ensures Newest(Next(w, s, l), k) ==
            if (l.Begin? || l.Register?) && l.key == k then Some(s.next) else Newest(s, k)
  {
    var t := Next(w, s, l);
    match l {
      case Begin(j) => NewestAfterInsert(s, NewRow(j), k);
      case Register(j, dest) => NewestAfterInsert(Log(s, Declare(j), true, dest), RegisteredRow(j, dest), k);
      case _ => NewestAfterUpdate(s, t, k);
    }
  }

  /** Only a successful create (or a declaration) makes a key migrated; nothing undoes it, and
      no step of the manager changes its destination id. */
  lemma DoneNext(w: World, s: State, l: Label, k: Key)
    requires Enabled(w, s, l)
    ensures Done(s, k) ==> Done(Next(w, s, l), k)
    ensures Done(s, k) && !l.Register? ==> DestOf(Next(w, s, l), k) == DestOf(s, k)
    ensures Done(Next(w, s, l), k) && !Done(s, k) ==> (l.CreateReturns? || l.Register?) && l.key == k
  {
    NewestNext(w, s, l, k);
  }

  // ---- Rows: which writes happen ----

  /** One row before and after a single step. */
  predicate LegalWrite(a: Row, b: Row) {
    || a == b
    || (a == NewRow(a.key) && b == a.(status := Failed))
    || (a == NewRow(a.key) && b.dest != "" && b == a.(status := PendingMembers, dest := b.dest))
    || (IsMigrated(a.status) && IsMigrated(b.status) && b == a.(status := b.status))
    || (IsMigrated(a.status) && b == a.(sourceRemoved := true))
  }

  lemma StepWritesLegally(w: World, s: State, l: Label, id: nat)
    requires Enabled(w, s, l) && IsRow(s, id)
    ensures IsRow(Next(w, s, l), id) && LegalWrite(s.rows[id], Next(w, s, l).rows[id])
  {
  }

  /** The status relation over any number of steps. */
  predicate Evolved(a: Row, b: Row) {
    && a.key == b.key && a.archived == b.archived && a.external == b.external
    && (a.dest != "" ==> b.dest == a.dest)
    && (a.sourceRemoved ==> b.sourceRemoved)
    && (a.status == Failed ==> b == a)
    && (IsMigrated(a.status) ==> IsMigrated(b.status))
    && (a.status == InProgress ==> b == a || b.status == Failed || IsMigrated(b.status))
    && (a.status == InProgress && a != NewRow(a.key) ==> b == a)
  }

  lemma {:induction false} RowsEvolve(w: World, s: State, ls: seq<Label>, id: nat)
    requires Allowed(w, s, ls) && IsRow(s, id)
    ensures IsRow(Exec(w, s, ls), id) && Evolved(s.rows[id], Exec(w, s, ls).rows[id])
    decreases |ls|
  {
    if ls != [] {
      StepWritesLegally(w, s, ls[0], id);
      RowsEvolve(w, Next(w, s, ls[0]), ls[1..], id);
    }
  }

  /** Every row a run started with is still there and only moved along the status relation. */
  lemma RunKeepsRows(w: World, s: State, cs: seq<Command>, id: nat)
    requires IsRow(s, id)
    ensures IsRow(Run(w, s, cs), id) && Evolved(s.rows[id], Run(w, s, cs).rows[id])
  {
    RunReaches(w, s, cs, false);
    var ls :| Leads(w, s, ls, Run(w, s, cs), false);
    RowsEvolve(w, s, ls, id);
  }

  // ---- No source lost before its copy exists ----

  /** Call `i` produced or declared the copy `dest` of `k`. */
  predicate CopyAt(tr: seq<Event>, i: nat, k: Key, dest: string) {
    i < |tr| && tr[i].ok && tr[i].id == dest && (tr[i].call.Create? || tr[i].call.Declare?) && tr[i].call.key == k
  }

  ghost predicate Copied(tr: seq<Event>, n: nat, k: Key, dest: string) {
    exists i: nat :: i < n && CopyAt(tr, i, k, dest)
  }

  /** Call `i` declared the copy if it is external, and created it if not. */
  predicate MadeAt(tr: seq<Event>, i: nat, k: Key, dest: string, external: bool) {
    CopyAt(tr, i, k, dest) && (tr[i].call.Declare? <==> external)
  }

  ghost predicate Made(tr: seq<Event>, k: Key, dest: string, external: bool) {
    exists i: nat :: MadeAt(tr, i, k, dest, external)
  }

  /** A row with a migrated status names a copy that was made; the others are untouched new rows. */
  ghost predicate SoundRow(tr: seq<Event>, row: Row) {
    if IsMigrated(row.status) then row.dest != "" && Made(tr, row.key, row.dest, row.external)
    else row.dest == "" && !row.sourceRemoved && !row.external
  }

  /** Every source deletion comes after the copy. */
  ghost predicate DeletesAfterCopy(tr: seq<Event>) {
    forall i: nat :: i < |tr| && tr[i].call.DeleteSource? ==>
      exists dest :: dest != "" && Copied(tr, i, tr[i].call.key, dest)
  }

  ghost predicate Sound(s: State) {
    && (forall id :: id in s.rows ==> id < s.next && SoundRow(s.trace, s.rows[id]))
    && DeletesAfterCopy(s.trace)
  }

  lemma CopiedExtends(tr: seq<Event>, n: nat, e: Event, k: Key, dest: string)
    requires n <= |tr| && Copied(tr, n, k, dest)
    ensures Copied(tr + [e], n, k, dest)
    ensures Copied(tr + [e], |tr| + 1, k, dest)
  {
    var i: nat :| i < n && CopyAt(tr, i, k, dest);
    assert CopyAt(tr + [e], i, k, dest);
  }

  lemma MadeExtends(tr: seq<Event>, e: Event, k: Key, dest: string, external: bool)
    requires Made(tr, k, dest, external)
    ensures Made(tr + [e], k, dest, external)
  {
    var i: nat :| MadeAt(tr, i, k, dest, external);
    assert MadeAt(tr + [e], i, k, dest, external);
  }

  lemma MadeIsCopied(tr: seq<Event>, k: Key, dest: string, external: bool)
    requires Made(tr, k, dest, external)
    ensures Copied(tr, |tr|, k, dest)
  {
    var i: nat :| MadeAt(tr, i, k, dest, external);
    assert CopyAt(tr, i, k, dest);
  }

  lemma SoundLog(s: State, e: Event)
    requires Sound(s)
    requires e.call.DeleteSource? ==> exists dest :: dest != "" && Copied(s.trace, |s.trace|, e.call.key, dest)
    ensures Sound(s.(trace := s.trace + [e]))
  {
    var tr := s.trace + [e];
    forall id | id in s.rows ensures SoundRow(tr, s.rows[id]) {
      var row := s.rows[id];
      if IsMigrated(row.status) { MadeExtends(s.trace, e, row.key, row.dest, row.external); }
    }
    forall i: nat | i < |tr| && tr[i].call.DeleteSource?
      ensures exists dest :: dest != "" && Copied(tr, i, tr[i].call.key, dest)
    {
      var dest :| dest != "" && Copied(s.trace, i, tr[i].call.key, dest);
      CopiedExtends(s.trace, i, e, tr[i].call.key, dest);
    }
  }

  lemma SoundDelete(s: State, id: nat, ok: bool)
    requires Sound(s) && id in s.rows && IsMigrated(s.rows[id].status)
    ensures Sound(Log(s, DeleteSource(s.rows[id].key), ok, ""))
  {
    var row := s.rows[id];
    MadeIsCopied(s.trace, row.key, row.dest, row.external);
    SoundLog(s, Event(DeleteSource(row.key), ok, ""));
  }

  lemma SoundNext(w: World, s: State, l: Label)
    requires Enabled(w, s, l) && Sound(s)
    ensures Sound(Next(w, s, l))
  {
    match l {
      case Query(call, ok) => SoundLog(s, Event(call, ok, ""));
      case Begin(k) =>
      case CreateRaises(k) => SoundLog(s, Event(Create(k, GivenTo(w, s, k)), false, ""));
      case CreateReturns(k) =>
        var e := Event(Create(k, GivenTo(w, s, k)), true, w.newId(s.trace, k));
        SoundLog(s, e);
        assert MadeAt(s.trace + [e], |s.trace|, k, e.id, false);
      case Fail(id) =>
      case Advance(id, to) =>
      case DeleteReturns(id) => SoundDelete(s, id, true);
      case DeleteRaises(id, called) => if called { SoundDelete(s, id, false); }
      case Register(k, dest) =>
        var e := Event(Declare(k), true, dest);
        SoundLog(s, e);
        assert MadeAt(s.trace + [e], |s.trace|, k, dest, true);
    }
  }

  lemma {:induction false} SoundExec(w: World, s: State, ls: seq<Label>)
    requires Allowed(w, s, ls) && Sound(s)
    ensures Sound(Exec(w, s, ls))
    decreases |ls|
  {
    if ls != [] {
      SoundNext(w, s, ls[0]);
      SoundExec(w, Next(w, s, ls[0]), ls[1..]);
    }
  }

  /** From an empty database, over any run: a source deletion is only ever issued after the copy
      was created or declared, and a row marked source_removed names that copy. */
  lemma NoSourceLost(w: World, cs: seq<Command>)
    ensures var s := Run(w, Empty, cs);
      && DeletesAfterCopy(s.trace)
      && forall id :: id in s.rows && (s.rows[id].sourceRemoved || IsMigrated(s.rows[id].status)) ==>
           && IsMigrated(s.rows[id].status)
           && s.rows[id].dest != ""
           && Copied(s.trace, |s.trace|, s.rows[id].key, s.rows[id].dest)
  {
    RunIsSound(w, cs);
    var s := Run(w, Empty, cs);
    forall id | id in s.rows && IsMigrated(s.rows[id].status)
      ensures Copied(s.trace, |s.trace|, s.rows[id].key, s.rows[id].dest)
    {
      MadeIsCopied(s.trace, s.rows[id].key, s.rows[id].dest, s.rows[id].external);
    }
  }

  lemma RunIsSound(w: World, cs: seq<Command>)
    ensures Sound(Run(w, Empty, cs))
  {
    RunReaches(w, Empty, cs, false);
    var ls :| Leads(w, Empty, ls, Run(w, Empty, cs), false);
    SoundExec(w, Empty, ls);
  }

  /** Over any run from an empty database, the external column tells how the copy a row names was made, and a row
      names one exactly when its status says that there is one. */
  lemma ExternalIffDeclared(w: World, cs: seq<Command>, id: nat)
    requires id in Run(w, Empty, cs).rows
    ensures var s := Run(w, Empty, cs);
      var row := s.rows[id];
      && (IsMigrated(row.status) <==> row.dest != "")
      && (row.dest != "" ==> exists i: nat ::
            && i < |s.trace| && s.trace[i].ok && s.trace[i].id == row.dest
            && if row.external then s.trace[i].call == Declare(row.key)
               else s.trace[i].call.Create? && s.trace[i].call.key == row.key)
      && (row.dest == "" ==> !row.external && !row.sourceRemoved)
  {
    RunIsSound(w, cs);
    var s := Run(w, Empty, cs);
    var row := s.rows[id];
    if IsMigrated(row.status) { var i: nat :| MadeAt(s.trace, i, row.key, row.dest, row.external); }
  }

  // ---- The trace is what the handlers did ----

  /** Call `i` had the outcome, and a create the id, that the world gives it after the calls before. */
  predicate TrueEvent(w: World, tr: seq<Event>, i: nat)
    requires i < |tr|
  {
    var e := tr[i];
    && (!e.call.Declare? ==> e.ok == !w.raises(tr[..i], e.call))
    && (e.call.Create? && e.ok ==> e.id == w.newId(tr[..i], e.call.key))
  }

  ghost predicate TrueTrace(w: World, from: nat, tr: seq<Event>) {
    from <= |tr| && forall i: nat :: from <= i < |tr| ==> TrueEvent(w, tr, i)
  }

  lemma TrueNext(w: World, s: State, l: Label, from: nat)
    requires Enabled(w, s, l) && TrueTrace(w, from, s.trace)
    ensures TrueTrace(w, from, Next(w, s, l).trace)
  {
    var t := Next(w, s, l);
    forall i: nat | from <= i < |t.trace| ensures TrueEvent(w, t.trace, i) {
      if i < |s.trace| {
        assert t.trace[..i] == s.trace[..i] && TrueEvent(w, s.trace, i);
      } else {
        assert t.trace[..i] == s.trace;
      }
    }
  }

  lemma {:induction false} TrueExec(w: World, s: State, ls: seq<Label>, from: nat)
    requires Allowed(w, s, ls) && TrueTrace(w, from, s.trace)
    ensures TrueTrace(w, from, Exec(w, s, ls).trace)
    decreases |ls|
  {
    if ls != [] {
      TrueNext(w, s, ls[0], from);
      TrueExec(w, Next(w, s, ls[0]), ls[1..], from);
    }
  }

  /** Over any run every recorded call has the outcome its handler gives it after the calls before. */
  lemma RunRecordsTruly(w: World, s: State, cs: seq<Command>)
    ensures TrueTrace(w, |s.trace|, Run(w, s, cs).trace)
  {
    RunReaches(w, s, cs, false);
    var ls :| Leads(w, s, ls, Run(w, s, cs), false);
    TrueExec(w, s, ls, |s.trace|);
  }

  // ---- Questions before creations ----

  ghost predicate Asked(tr: seq<Event>, from: nat) {
    forall i: nat :: from <= i < |tr| && tr[i].call.Create? ==>
      0 < i && tr[i - 1] == Event(AskDeps(tr[i].call.key), true, "")
  }

  lemma {:induction false} AskedExec(w: World, s: State, ls: seq<Label>, from: nat)
    requires Allowed(w, s, ls) && Asked(s.trace, from)
    ensures Asked(Exec(w, s, ls).trace, from)
    decreases |ls|
  {
    if ls != [] {
      assert s.trace <= Next(w, s, ls[0]).trace;
      AskedExec(w, Next(w, s, ls[0]), ls[1..], from);
    }
  }

  /** Over any run the handler is asked for the dependencies of a resource right before it is told to create it:
      nothing comes in between that could outdate the list. */
  lemma CreatesAreAskedFor(w: World, s: State, cs: seq<Command>)
    ensures Asked(Run(w, s, cs).trace, |s.trace|)
  {
    RunReaches(w, s, cs, false);
    var ls :| Leads(w, s, ls, Run(w, s, cs), false);
    AskedExec(w, s, ls, |s.trace|);
  }

  // ---- At most once ----

  predicate CreatedAt(tr: seq<Event>, i: nat, k: Key) {
    i < |tr| && tr[i].ok && tr[i].call.Create? && tr[i].call.key == k
  }

  /** `k` was created by one of the calls from..to. */
  ghost predicate CreatedIn(tr: seq<Event>, from: nat, to: nat, k: Key) {
    exists i: nat :: from <= i < to && CreatedAt(tr, i, k)
  }

  /** Since `s0`: what was created was not migrated then, is migrated now, and was created once. */
  ghost predicate Once(s0: State, s: State) {
    && s0.trace <= s.trace
    && (forall k :: Done(s0, k) ==> Done(s, k))
    && (forall i: nat, k :: |s0.trace| <= i && CreatedAt(s.trace, i, k) ==> !Done(s0, k) && Done(s, k))
    && (forall i: nat, j: nat, k :: |s0.trace| <= i < j && CreatedAt(s.trace, i, k) ==> !CreatedAt(s.trace, j, k))
  }

  lemma OnceNext(w: World, s0: State, s: State, l: Label)
    requires Enabled(w, s, l) && Once(s0, s)
    ensures Once(s0, Next(w, s, l))
  {
    var t := Next(w, s, l);
    forall k ensures Done(s, k) ==> Done(t, k) { DoneNext(w, s, l, k); }
    forall i: nat, k | |s0.trace| <= i && CreatedAt(t.trace, i, k)
      ensures !Done(s0, k) && Done(t, k)
      ensures i < |s.trace| ==> CreatedAt(s.trace, i, k)
      ensures i == |s.trace| ==> l == CreateReturns(k) && !Done(s, k)
    {
      if i < |s.trace| {
        assert CreatedAt(s.trace, i, k);
      } else {
        assert l == CreateReturns(k);
        NewestNext(w, s, l, k);
      }
    }
  }

  lemma {:induction false} OnceExec(w: World, s0: State, s: State, ls: seq<Label>)
    requires Allowed(w, s, ls) && Once(s0, s)
    ensures Once(s0, Exec(w, s, ls))
    decreases |ls|
  {
    if ls != [] {
      OnceNext(w, s0, s, ls[0]);
      OnceExec(w, s0, Next(w, s, ls[0]), ls[1..]);
    }
  }

  /** Over any run, a resource migrated at the start is never created again and every other
      resource is created at most once. */
  lemma AtMostOnce(w: World, s: State, cs: seq<Command>)
    ensures Once(s, Run(w, s, cs))
  {
    RunReaches(w, s, cs, false);
    var ls :| Leads(w, s, ls, Run(w, s, cs), false);
    OnceExec(w, s, s, ls);
  }

  // ---- The destination graph is the image of the source graph ----

  /** Create call `i`, made after `s0`, in the light of the later state `s`. */
  ghost predicate ImageAt(w: World, s0: State, s: State, i: nat)
    requires |s0.trace| <= i < |s.trace| && s.trace[i].call.Create?
  {
    var k := s.trace[i].call.key;
    && Translates(s, s.trace[i].call.given, DepsOf(w, k))
    && (forall d :: d in KeySet(DepsOf(w, k)) ==> Done(s0, d) || CreatedIn(s.trace, |s0.trace|, i, d))
    && (s.trace[i].ok ==> Usable(w, k) && Done(s, k) && DestOf(s, k) == s.trace[i].id != "")
  }

  ghost predicate Image(w: World, s0: State, s: State) {
    && s0.trace <= s.trace
    && (forall k :: Done(s, k) ==> Done(s0, k) || CreatedIn(s.trace, |s0.trace|, |s.trace|, k))
    && (forall k :: Done(s0, k) ==> Done(s, k) && DestOf(s, k) == DestOf(s0, k))
    && (forall i: nat :: |s0.trace| <= i < |s.trace| && s.trace[i].call.Create? ==> ImageAt(w, s0, s, i))
  }

  lemma ImageNext(w: World, s0: State, s: State, l: Label)
    requires Enabled(w, s, l) && !l.Register? && Image(w, s0, s)
    ensures Image(w, s0, Next(w, s, l))
  {
    var t := Next(w, s, l);
    var n0 := |s0.trace|;
    forall k
      ensures Done(s, k) ==> Done(t, k) && DestOf(t, k) == DestOf(s, k)
      ensures Done(t, k) ==> Done(s0, k) || CreatedIn(t.trace, n0, |t.trace|, k)
    {
      DoneNext(w, s, l, k);
      if Done(t, k) && !Done(s, k) {
        assert CreatedAt(t.trace, |s.trace|, k);
      } else if Done(t, k) && !Done(s0, k) {
        CreatedExtends(s.trace, t.trace, n0, |s.trace|, |t.trace|, k);
      }
    }
    forall i: nat | n0 <= i < |t.trace| && t.trace[i].call.Create?
      ensures ImageAt(w, s0, t, i)
    {
      var k := t.trace[i].call.key;
      if i < |s.trace| {
        assert ImageAt(w, s0, s, i);
      } else {
        SplitTranslates(s, DepsOf(w, k));
        NewestNext(w, s, l, k);
      }
      forall d | d in KeySet(DepsOf(w, k)) ensures Done(s0, d) || CreatedIn(t.trace, n0, i, d) {
        InKeySet(DepsOf(w, k), d);
        if !Done(s0, d) { CreatedExtends(s.trace, t.trace, n0, i, i, d); }
      }
    }
  }

  lemma CreatedExtends(a: seq<Event>, b: seq<Event>, from: nat, to: nat, to': nat, k: Key)
    requires a <= b && to <= |a| && to <= to' && CreatedIn(a, from, to, k)
    ensures CreatedIn(b, from, to', k)
  {
    var i: nat :| from <= i < to && CreatedAt(a, i, k);
    assert CreatedAt(b, i, k);
  }

  lemma {:induction false} ImageExec(w: World, s0: State, s: State, ls: seq<Label>, t: State)
    requires Leads(w, s, ls, t, true) && Image(w, s0, s)
    ensures Image(w, s0, t)
    decreases |ls|
  {
    if ls != [] {
      ImageNext(w, s0, s, ls[0]);
      ImageExec(w, s0, Next(w, s, ls[0]), ls[1..], t);
    }
  }

  lemma ReachesImage(w: World, s: State, t: State)
    requires Reaches(w, s, t)
    ensures Image(w, s, t)
  {
    var ls :| Leads(w, s, ls, t, true);
    ImageExec(w, s, s, ls, t);
  }

  /** Over any run of start, start-batch and cleanup-source: every handler create call was given,
      position by position, the destination ids its dependencies still have; each dependency was
      migrated before it; and the id it returned is the one recorded. */
  lemma DestinationIsImage(w: World, s: State, cs: seq<Command>)
    requires NoRegister(cs)
    ensures Image(w, s, Run(w, s, cs))
  {
    RunReaches(w, s, cs, true);
    ReachesImage(w, s, Run(w, s, cs));
  }

  // ---- Dependency cycles ----

  ghost predicate DependsInto(w: World, k: Key, c: iset<Key>) {
    exists j :: j in KeySet(DepsOf(w, k)) && j in c
  }

  /** Unmigrated resources each depending on one of them; a dependency cycle is one. */
  ghost predicate Trap(w: World, s: State, c: iset<Key>) {
    forall k :: k in c ==> !Done(s, k) && DependsInto(w, k, c)
  }

  lemma TrapBlocksCreate(w: World, s: State, c: iset<Key>, k: Key)
    requires Trap(w, s, c) && k in c
    ensures !CanCreate(w, s, k)
  {
    var j :| j in KeySet(DepsOf(w, k)) && j in c;
    InKeySet(DepsOf(w, k), j);
    if CanCreate(w, s, k) { SplitTranslates(s, DepsOf(w, k)); }
  }

  lemma {:induction false} TrapExec(w: World, s: State, ls: seq<Label>, t: State, c: iset<Key>)
    requires Leads(w, s, ls, t, true) && Trap(w, s, c)
    ensures Trap(w, t, c)
    decreases |ls|
  {
    if ls != [] {
      forall k | k in c ensures !Done(Next(w, s, ls[0]), k) {
        DoneNext(w, s, ls[0], k);
        TrapBlocksCreate(w, s, c, k);
      }
      TrapExec(w, Next(w, s, ls[0]), ls[1..], t, c);
    }
  }

  /** No resource of a trap is ever migrated, whatever is started. */
  lemma CycleNeverMigrates(w: World, s: State, c: iset<Key>, cs: seq<Command>)
    requires Trap(w, s, c) && NoRegister(cs)
    ensures Trap(w, Run(w, s, cs), c)
  {
    RunReaches(w, s, cs, true);
    var ls :| Leads(w, s, ls, Run(w, s, cs), true);
    TrapExec(w, s, ls, Run(w, s, cs), c);
  }

  /** A start on a resource without an id, or of a type that is not registered, raises and does nothing. */
  lemma StartRefused(w: World, s: State, k: Key, cleanup: bool, f: Flags)
    requires k.rtype == "" || k.rtype !in w.types || k.id == ""
    ensures Perform(w, s, k, cleanup, f) == Outcome(s, Err(InvalidInput))
  {
  }

  /** A start on an unmigrated resource leaves its new row as the newest: FAILED when the handler
      was not reached or raised (and then the start raises), migrated otherwise. */
  lemma StartSettlesNewRow(w: World, s: State, k: Key, cleanup: bool, f: Flags)
    requires !Done(s, k) && Usable(w, k)
    ensures var r := Perform(w, s, k, cleanup, f);
      if TryMigrate(w, s, k, f).res.Err?
      then r.res.Err? && IsNewest(r.st, k, s.next) && r.st.rows[s.next] == Row(k, Failed, "", false, false, false)
      else Done(r.st, k) && IsNewest(r.st, k, s.next)
  {
    var p := TryMigrate(w, s, k, f);
    if p.res.Ok? {
      var t := SetStatus(p.st, s.next, PendingMembers);
      MarkMigrated(s, p.st, k, p.res.value);
      LeaveFinish(s, t, Finish(w, t, k, s.next, p.res.value, cleanup, f).st, k, s.next, p.res.value);
    }
  }

  /** A start on a resource of a trap raises, and its new row is the newest one and FAILED. */
  lemma StartOnCycleRaises(w: World, s: State, c: iset<Key>, k: Key, cleanup: bool, f: Flags)
    requires Trap(w, s, c) && k in c
    ensures var r := Perform(w, s, k, cleanup, f);
      && r.res.Err?
      && (Usable(w, k) ==> IsNewest(r.st, k, s.next) && r.st.rows[s.next].status == Failed)
  {
    PerformReaches(w, s, k, cleanup, f);
    var t := Perform(w, s, k, cleanup, f).st;
    var ls :| Leads(w, s, ls, t, true);
    TrapExec(w, s, ls, t, c);
    if Usable(w, k) { StartSettlesNewRow(w, s, k, cleanup, f); }
  }
}
