/** The commands that act on a database (cmd/start.py, cmd/cleanup_source.py,
    cmd/register_external.py) and whole runs of them. */
module Commands {
  import opened Store
  import opened World
  import opened Orchestration
  import opened Steps
  import opened DryRun

  /** The batch loop's check: some visible COMPLETED row has this source id, whatever its type. */
  predicate SkippedByBatch(s: State, id: string) {
    GetMigrations(s.rows, s.next, NoFilter.(sourceId := Some(id), status := Some(Completed)), false) != []
  }

  /** The loop of perform_batch_migration over the listed ids. */
  function BatchLoop(w: World, s: State, rtype: string, ids: seq<string>, cleanup: bool, f: Flags): Outcome<()>
    decreases |ids|
  {
    if ids == [] then Outcome(s, Ok(()))
    else if SkippedByBatch(s, ids[0]) then BatchLoop(w, s, rtype, ids[1..], cleanup, f)
    else
      var one := Perform(w, s, Key(rtype, ids[0]), cleanup, f);
      if one.res.Err? then Outcome(one.st, Err(one.res.error))
      else BatchLoop(w, one.st, rtype, ids[1..], cleanup, f)
  }

  /** The same loop with --dry-run; `limit` is the recursion limit. */
  function DryBatchLoop(w: World, s: State, rtype: string, ids: seq<string>, f: Flags, limit: nat): Outcome<()>
    decreases |ids|
  {
    if ids == [] then Outcome(s, Ok(()))
    else if SkippedByBatch(s, ids[0]) then DryBatchLoop(w, s, rtype, ids[1..], f, limit)
    else
      var one := Dry(w, s, Key(rtype, ids[0]), f, limit);
      if one.res.Err? then Outcome(one.st, Err(one.res.error))
      else DryBatchLoop(w, one.st, rtype, ids[1..], f, limit)
  }

  /** perform_batch_migration; `listed` is what handler.get_source_resource_ids returned or raised, and
      `dry` holds the recursion limit of a dry run. */
  function Batch(w: World, s: State, rtype: string, listed: Result<seq<string>>, dry: Option<nat>, cleanup: bool,
          f: Flags): Outcome<()> {
    if !Supported(w, rtype) then Outcome(s, Err(InvalidInput))
    else if listed.Err? then Outcome(s, Err(listed.error))
    else if dry.Some? then DryBatchLoop(w, s, rtype, listed.value, f, dry.value)
    else BatchLoop(w, s, rtype, listed.value, cleanup, f)
  }

  /** The options of cleanup-source. */
  datatype CleanupOptions = CleanupOptions(
    service: Option<string>,
    rtype: Option<string>,
    sourceId: Option<string>,
    all: bool,
    dryRun: bool)

  predicate Unfiltered(o: CleanupOptions) {
    o.service == None && o.rtype == None && o.sourceId == None
  }

  /** The resource types whose handler belongs to a service. */
  function TypesOf(w: World, service: string): set<string> {
    set t | t in w.types && w.types[t] == service
  }

  function CleanupFilter(w: World, o: CleanupOptions): Filter {
    NoFilter.(
      types := if o.service.Some? then Some(TypesOf(w, o.service.value)) else None,
      rtype := o.rtype, sourceId := o.sourceId, status := Some(Completed), sourceRemoved := Some(false))
  }

  /** cleanup-source: COMPLETED rows whose source is still there, newest first. */
  function CleanupSource(w: World, s: State, o: CleanupOptions): Outcome<()> {
    if Unfiltered(o) && !o.all && !o.dryRun then Outcome(s, Err(InvalidInput))
    else if o.dryRun then Outcome(s, Ok(()))
    else CleanupAll(w, s, GetMigrations(s.rows, s.next, CleanupFilter(w, o), false))
  }

  /** register-external. */
  function RegisterExternal(w: World, s: State, k: Key, dest: string): Outcome<()> {
    if k.id == "" || dest == "" || k.rtype == "" then Outcome(s, Err(InvalidInput))
    else if GetMigrations(s.rows, s.next, ByKey(k).(dest := Some(dest), status := Some(Completed)), false) != [] then
      Outcome(s, Ok(()))
    else if !Supported(w, k.rtype) then Outcome(s, Err(InvalidInput))
    else Outcome(Insert(Log(s, Declare(k), true, dest), RegisteredRow(k, dest)), Ok(()))
  }

  datatype Command =
    | Start(key: Key, cleanup: bool, flags: Flags)
    | DryStart(key: Key, flags: Flags, limit: nat)
    | StartBatch(rtype: string, listed: Result<seq<string>>, dry: Option<nat>, cleanup: bool, flags: Flags)
    | CleanSource(options: CleanupOptions)
    | RegisterExt(key: Key, dest: string)

  function After(w: World, s: State, c: Command): State {
    match c
    case Start(k, cleanup, f) => Perform(w, s, k, cleanup, f).st
    case DryStart(k, f, limit) => Dry(w, s, k, f, limit).st
    case StartBatch(rtype, listed, dry, cleanup, f) => Batch(w, s, rtype, listed, dry, cleanup, f).st
    case CleanSource(o) => CleanupSource(w, s, o).st
    case RegisterExt(k, dest) => RegisterExternal(w, s, k, dest).st
  }

  /** The state after a sequence of commands, whether each returned or raised. */
  function Run(w: World, s: State, cs: seq<Command>): State
    decreases |cs|
  {
    if cs == [] then s else Run(w, After(w, s, cs[0]), cs[1..])
  }

  lemma RunOfOne(w: World, s: State, c: Command)
    ensures Run(w, s, [c]) == After(w, s, c)
  {
  }

  const Empty := State(map[], 0, [])

  // ---- Commands refine the steps ----

  lemma {:induction false} BatchLoopReaches(w: World, s: State, rtype: string, ids: seq<string>, cleanup: bool,
          f: Flags)
    ensures Reaches(w, s, BatchLoop(w, s, rtype, ids, cleanup, f).st)
    decreases |ids|
  {
    if ids == [] {
      ReachesSelf(w, s);
    } else if SkippedByBatch(s, ids[0]) {
      BatchLoopReaches(w, s, rtype, ids[1..], cleanup, f);
    } else {
      var k := Key(rtype, ids[0]);
      var one := Perform(w, s, k, cleanup, f);
      PerformReaches(w, s, k, cleanup, f);
      if one.res.Ok? {
        BatchLoopReaches(w, one.st, rtype, ids[1..], cleanup, f);
        ReachesTrans(w, s, one.st, BatchLoop(w, one.st, rtype, ids[1..], cleanup, f).st);
      }
    }
  }

  /** A dry run only asks. */
  lemma {:induction false} DryReaches(w: World, s: State, k: Key, f: Flags, fuel: nat)
    ensures Reaches(w, s, Dry(w, s, k, f, fuel).st)
    decreases fuel, 0
  {
    hide Reaches;
    ReachesSelf(w, s);
    if fuel > 0 && Usable(w, k) && !Done(s, k) {
      var d := if f.deps then DryDeps(w, s, k, f, fuel) else Outcome(s, Ok([]));
      if f.deps {
        var a := AskAssociated(w, s, k);
        AskAssociatedReaches(w, s, k);
        if a.res.Ok? {
          SplitLength(a.st, DepsOf(w, k));
          DryEachReaches(w, a.st, a.res.value.pending, f, fuel - 1);
          ReachesTrans(w, s, a.st, d.st);
        }
      }
      if d.res.Ok? && f.members {
        var call := AskMembers(k);
        ReachesNext(w, d.st, Query(call, !w.raises(d.st.trace, call)));
        var t := Log(d.st, call, !w.raises(d.st.trace, call), "");
        ReachesTrans(w, s, d.st, t);
        if !w.raises(d.st.trace, call) {
          DryEachReaches(w, t, MembersOf(w, k), f, fuel - 1);
          ReachesTrans(w, s, t, DryEach(w, t, MembersOf(w, k), f, fuel - 1).st);
        }
      }
    }
  }

  lemma {:induction false} DryEachReaches(w: World, s: State, list: seq<Resource>, f: Flags, fuel: nat)
    ensures Reaches(w, s, DryEach(w, s, list, f, fuel).st)
    decreases fuel, |list| + 1
  {
    hide Reaches;
    if list == [] {
      ReachesSelf(w, s);
    } else {
      var one := Dry(w, s, list[0].key, f, fuel);
      DryReaches(w, s, list[0].key, f, fuel);
      if one.res.Ok? {
        DryEachReaches(w, one.st, list[1..], f, fuel);
        ReachesTrans(w, s, one.st, DryEach(w, one.st, list[1..], f, fuel).st);
      }
    }
  }

  lemma {:induction false} DryBatchReaches(w: World, s: State, rtype: string, ids: seq<string>, f: Flags, limit: nat)
    ensures var r := DryBatchLoop(w, s, rtype, ids, f, limit); Reaches(w, s, r.st) && SameTable(s, r.st)
    decreases |ids|
  {
    hide Reaches;
    if ids == [] {
      ReachesSelf(w, s);
    } else if SkippedByBatch(s, ids[0]) {
      DryBatchReaches(w, s, rtype, ids[1..], f, limit);
    } else {
      var one := Dry(w, s, Key(rtype, ids[0]), f, limit);
      DryReaches(w, s, Key(rtype, ids[0]), f, limit);
      if one.res.Ok? {
        DryBatchReaches(w, one.st, rtype, ids[1..], f, limit);
        ReachesTrans(w, s, one.st, DryBatchLoop(w, one.st, rtype, ids[1..], f, limit).st);
      }
    }
  }

  lemma CleanupSourceReaches(w: World, s: State, o: CleanupOptions)
    ensures Reaches(w, s, CleanupSource(w, s, o).st)
  {
    ReachesSelf(w, s);
    CleanupAllReaches(w, s, GetMigrations(s.rows, s.next, CleanupFilter(w, o), false));
  }

  /** Any command takes guarded steps; only register-external takes the Register step. */
  lemma AfterReaches(w: World, s: State, c: Command, internal: bool)
    requires internal ==> !c.RegisterExt?
    ensures ReachesBy(w, s, After(w, s, c), internal)
  {
    var t := After(w, s, c);
    ReachesSelf(w, s);
    if c.RegisterExt? && t != s {
      var l := Register(c.key, c.dest);
      assert [l][1..] == [];
      assert Allowed(w, t, []) && Exec(w, t, []) == t;
      assert Leads(w, s, [l], t, false);
    } else {
      match c {
        case Start(k, cleanup, f) => PerformReaches(w, s, k, cleanup, f);
        case DryStart(k, f, limit) => DryReaches(w, s, k, f, limit);
        case StartBatch(rtype, listed, dry, cleanup, f) =>
          if listed.Ok? {
            BatchLoopReaches(w, s, rtype, listed.value, cleanup, f);
            if dry.Some? { DryBatchReaches(w, s, rtype, listed.value, f, dry.value); }
          }
        case CleanSource(o) => CleanupSourceReaches(w, s, o);
        case RegisterExt(k, dest) =>
      }
      assert Reaches(w, s, t);
      var ls :| Leads(w, s, ls, t, true);
      assert Leads(w, s, ls, t, internal);
    }
  }

  predicate NoRegister(cs: seq<Command>) {
    forall c :: c in cs ==> !c.RegisterExt?
  }

  lemma {:induction false} RunReaches(w: World, s: State, cs: seq<Command>, internal: bool)
    requires internal ==> NoRegister(cs)
    ensures ReachesBy(w, s, Run(w, s, cs), internal)
    decreases |cs|
  {
    if cs == [] {
      assert Leads(w, s, [], s, internal);
    } else {
      var t := After(w, s, cs[0]);
      AfterReaches(w, s, cs[0], internal);
      RunReaches(w, t, cs[1..], internal);
      var a :| Leads(w, s, a, t, internal);
      var b :| Leads(w, t, b, Run(w, t, cs[1..]), internal);
      LeadsConcat(w, s, a, t, b, Run(w, t, cs[1..]), internal);
    }
  }
}
