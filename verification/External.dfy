/** register-external: when a declaration takes effect. */
module External {
  import opened Store
  import opened World
  import opened Orchestration
  import opened Steps
  import opened Commands

  /** The check register-external makes first: some visible COMPLETED row already names the copy. */
  ghost predicate Declared(s: State, k: Key, dest: string) {
    exists id :: IsRow(s, id) && Shows(s.rows, id, k) && s.rows[id].status == Completed && s.rows[id].dest == dest
  }

  lemma DeclaredMeaning(s: State, k: Key, dest: string)
    ensures GetMigrations(s.rows, s.next, ByKey(k).(dest := Some(dest), status := Some(Completed)), false) != [] <==>
            Declared(s, k, dest)
  {
    var q := GetMigrations(s.rows, s.next, ByKey(k).(dest := Some(dest), status := Some(Completed)), false);
    if q != [] { assert q[0] in q; }
    if id :| IsRow(s, id) && Shows(s.rows, id, k) && s.rows[id].status == Completed && s.rows[id].dest == dest {
      assert id in q;
    }
  }

  /** A declaration returns exactly when type, source id and destination id are given and the type is registered
      or the copy was declared before; it adds one external row then, unless it was. */
  lemma RegisterReturnsIff(w: World, s: State, k: Key, dest: string)
    ensures var r := RegisterExternal(w, s, k, dest);
      && (r.res.Ok? <==>
            k.id != "" && dest != "" && k.rtype != "" && (Declared(s, k, dest) || k.rtype in w.types))
      && r ==
           if r.res.Err? then Outcome(s, Err(InvalidInput))
           else if Declared(s, k, dest) then Outcome(s, Ok(()))
           else
             Outcome(State(s.rows[s.next := Row(k, Completed, dest, false, false, true)], s.next + 1,
               s.trace + [Event(Declare(k), true, dest)]), Ok(()))
  {
    DeclaredMeaning(s, k, dest);
  }

  predicate Uses(s: State, k: Key, dest: string) {
    Done(s, k) && DestOf(s, k) == dest
  }

  /** A declaration that returns is the one dependents will use, unless the copy was declared before
      and a newer row has taken its place: then nothing is written. */
  lemma DeclarationTakesEffectIff(w: World, s: State, k: Key, dest: string)
    requires RegisterExternal(w, s, k, dest).res.Ok?
    ensures var t := RegisterExternal(w, s, k, dest).st;
      && (Uses(t, k, dest) <==> !(Declared(s, k, dest) && !Uses(s, k, dest)))
      && (if Declared(s, k, dest) then t == s
          else t.rows == s.rows[s.next := RegisteredRow(k, dest)] && IsNewest(t, k, s.next))
      && forall j :: j != k ==> Newest(t, j) == Newest(s, j)
  {
    DeclaredMeaning(s, k, dest);
    var s1 := Log(s, Declare(k), true, dest);
    forall j ensures Newest(Insert(s1, RegisteredRow(k, dest)), j) == if j == k then Some(s.next) else Newest(s, j) {
      NewestAfterInsert(s1, RegisteredRow(k, dest), j);
    }
  }

  /** For instance, going back to an earlier copy is ignored: the later one stays in use. */
  lemma GoingBackIsIgnored(w: World, k: Key, a: string, b: string)
    requires Usable(w, k) && a != "" && b != "" && a != b
    ensures Uses(Run(w, Empty, [RegisterExt(k, a), RegisterExt(k, b), RegisterExt(k, a)]), k, b)
  {
    var s1 := RegisterExternal(w, Empty, k, a).st;
    var s2 := RegisterExternal(w, s1, k, b).st;
    var s3 := RegisterExternal(w, s2, k, a).st;
    DeclaredMeaning(Empty, k, a);
    DeclaredMeaning(s1, k, b);
    DeclaredMeaning(s2, k, a);
    assert s1.rows == map[0 := RegisteredRow(k, a)];
    assert s2.rows == map[0 := RegisteredRow(k, a), 1 := RegisteredRow(k, b)];
    assert IsRow(s2, 0) && Shows(s2.rows, 0, k);
    assert Shows(s2.rows, 1, k);
    assert s3 == s2;
    var cs := [RegisterExt(k, a), RegisterExt(k, b), RegisterExt(k, a)];
    assert cs[1..][1..] == [RegisterExt(k, a)] && cs[1..][1..][1..] == [];
    assert Run(w, s3, []) == s3;
    assert Run(w, s2, cs[1..][1..]) == s3;
    assert Run(w, s1, cs[1..]) == s3;
  }
}
