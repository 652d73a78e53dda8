/** Which handler calls a dry run makes, whatever the handlers do. */
module DryCalls {
  import opened Store
  import opened World
  import opened Orchestration
  import opened DryRun

  predicate Asked(tr: seq<Event>, from: nat, call: Call) {
    exists i :: from <= i < |tr| && tr[i].call == call
  }

  /** The listing calls a dry run makes under these flags. */
  predicate Listing(call: Call, f: Flags) {
    (call.AskDeps? && f.deps) || (call.AskMembers? && f.members)
  }

  /** From `s` to `t` only listing calls were made, for `own` and what is announced; all returned, but for
      the last if it is what raised. */
  ghost predicate OnlyLists(s: State, t: State, f: Flags, res: Result<seq<Key>>, own: set<Key>) {
    && SameTable(s, t) && s.trace <= t.trace
    && (forall i: nat :: |s.trace| <= i < |t.trace| ==>
          && Listing(t.trace[i].call, f)
          && (!t.trace[i].ok ==> i == |t.trace| - 1 && res == Err(HandlerError))
          && (res.Ok? ==> t.trace[i].call.key in res.value || t.trace[i].call.key in own))
    && (res == Err(HandlerError) ==> |s.trace| < |t.trace| && !t.trace[|t.trace| - 1].ok)
  }

  /** All that is announced was asked for what the flags say. */
  ghost predicate ListsAll(s: State, t: State, f: Flags, keys: seq<Key>) {
    forall j :: j in keys ==>
      (f.deps ==> Asked(t.trace, |s.trace|, AskDeps(j))) && (f.members ==> Asked(t.trace, |s.trace|, AskMembers(j)))
  }

  lemma AskedLater(a: seq<Event>, b: seq<Event>, from: nat, from': nat, call: Call)
    requires Asked(a, from, call) && a <= b && from' <= from
    ensures Asked(b, from', call)
  {
    var i :| from <= i < |a| && a[i].call == call;
    assert b[i].call == call;
  }

  lemma ListsAllLater(s: State, s': State, t: State, t': State, f: Flags, keys: seq<Key>)
    requires ListsAll(s', t, f, keys) && s.trace <= s'.trace && t.trace <= t'.trace
    ensures ListsAll(s, t', f, keys)
  {
    forall j | j in keys
      ensures f.deps ==> Asked(t'.trace, |s.trace|, AskDeps(j))
      ensures f.members ==> Asked(t'.trace, |s.trace|, AskMembers(j))
    {
      if f.deps { AskedLater(t.trace, t'.trace, |s'.trace|, |s.trace|, AskDeps(j)); }
      if f.members { AskedLater(t.trace, t'.trace, |s'.trace|, |s.trace|, AskMembers(j)); }
    }
  }

  lemma OnlyListsThen(s: State, t: State, u: State, f: Flags, a: seq<Key>, res: Result<seq<Key>>, own: set<Key>,
          own': set<Key>)
    requires OnlyLists(s, t, f, Ok(a), own) && OnlyLists(t, u, f, res, own')
    ensures OnlyLists(s, u, f, if res.Err? then res else Ok(a + res.value), own + own')
  {
    forall i: nat | |s.trace| <= i < |u.trace|
      ensures Listing(u.trace[i].call, f) && (!u.trace[i].ok ==> i == |u.trace| - 1 && res == Err(HandlerError))
    {
      if i < |t.trace| { assert u.trace[i] == t.trace[i]; }
    }
    if res.Ok? {
      forall i: nat | |s.trace| <= i < |u.trace|
        ensures u.trace[i].call.key in a + res.value || u.trace[i].call.key in own + own'
      {
        if i < |t.trace| { assert u.trace[i] == t.trace[i]; }
      }
    }
  }

  /** A dry run, on any graph and whatever handlers do: the table stays; only listing calls are made, and
      only for what is announced; it raises what a listing raises, at once; and if it returns, everything
      announced was asked for its dependencies and members, as the flags say. */
  lemma {:induction false} DryLists(w: World, s: State, k: Key, f: Flags, fuel: nat)
    ensures var r := Dry(w, s, k, f, fuel);
      OnlyLists(s, r.st, f, r.res, {}) && (r.res.Ok? ==> ListsAll(s, r.st, f, r.res.value))
    decreases fuel, 0
  {
    hide OnlyLists, ListsAll, DryDeps, DryMembers;
    OnlyListsNothing(s, f);
    if fuel > 0 && Usable(w, k) && !Done(s, k) {
      var d := if f.deps then DryDeps(w, s, k, f, fuel) else Outcome(s, Ok([]));
      if f.deps { DryDepsLists(w, s, k, f, fuel); }
      if d.res.Ok? {
        var m := if f.members then DryMembers(w, d.st, k, f, fuel) else Outcome(d.st, Ok([]));
        OnlyListsNothing(d.st, f);
        if f.members { DryMembersLists(w, d.st, k, f, fuel); }
        OwnLists(s, d.st, m.st, k, f, d.res.value, m.res);
      } else {
        OwnRaises(s, d.st, f, d.res, {k});
      }
    }
  }

  lemma OnlyListsNothing(s: State, f: Flags)
    ensures forall own, res: Result<seq<Key>> :: res != Err(HandlerError) ==> OnlyLists(s, s, f, res, own)
    ensures ListsAll(s, s, f, [])
  {
  }

  lemma OwnRaises(s: State, t: State, f: Flags, res: Result<seq<Key>>, own: set<Key>)
    requires OnlyLists(s, t, f, res, own) && res.Err?
    ensures OnlyLists(s, t, f, res, {})
  {
  }

  /** The calls for `k` itself, and those below its dependencies and members. */
  lemma OwnLists(s: State, t: State, u: State, k: Key, f: Flags, a: seq<Key>, res: Result<seq<Key>>)
    requires OnlyLists(s, t, f, Ok(a), {k}) && OnlyLists(t, u, f, res, {k})
    requires ListsAll(s, t, f, a) && (res.Ok? ==> ListsAll(t, u, f, res.value))
    requires f.deps ==> Asked(t.trace, |s.trace|, AskDeps(k))
    requires res.Ok? && f.members ==> Asked(u.trace, |t.trace|, AskMembers(k))
    ensures OnlyLists(s, u, f, if res.Err? then res else Ok([k] + a + res.value), {})
    ensures res.Ok? ==> ListsAll(s, u, f, [k] + a + res.value)
  {
    OnlyListsThen(s, t, u, f, a, res, {k}, {k});
    if res.Ok? {
      ListsAllLater(s, s, t, u, f, a);
      ListsAllLater(s, t, u, u, f, res.value);
      if f.deps { AskedLater(t.trace, u.trace, |s.trace|, |s.trace|, AskDeps(k)); }
      if f.members { AskedLater(u.trace, u.trace, |t.trace|, |s.trace|, AskMembers(k)); }
    }
  }

  lemma {:induction false} DryDepsLists(w: World, s: State, k: Key, f: Flags, fuel: nat)
    requires fuel > 0 && f.deps
    ensures var r := DryDeps(w, s, k, f, fuel);
      && OnlyLists(s, r.st, f, r.res, {k})
      && (r.res.Ok? ==> ListsAll(s, r.st, f, r.res.value) && Asked(r.st.trace, |s.trace|, AskDeps(k)))
    decreases fuel - 1, |DepsOf(w, k)| + 2
  {
    var a := AskAssociated(w, s, k);
    hide ListsAll;
    if a.res.Ok? {
      SplitLength(a.st, DepsOf(w, k));
      DryEachLists(w, a.st, a.res.value.pending, f, fuel - 1);
      var r := DryDeps(w, s, k, f, fuel);
      OneList(s, a.st, r.st, AskDeps(k), k, f, r.res);
    } else {
      SplitError(a.st, DepsOf(w, k));
    }
  }

  lemma {:induction false} SplitError(s: State, list: seq<Resource>)
    ensures Split(s, list).Err? ==> Split(s, list).error == InvalidInput
    decreases |list|
  {
    if list != [] { SplitError(s, list[1..]); }
  }

  /** One listing call that returned, and then others. */
  lemma OneList(s: State, t: State, u: State, call: Call, k: Key, f: Flags, res: Result<seq<Key>>)
    requires t == Log(s, call, true, "") && Listing(call, f) && call.key == k && OnlyLists(t, u, f, res, {})
    requires res.Ok? ==> ListsAll(t, u, f, res.value)
    ensures OnlyLists(s, u, f, res, {k}) && (res.Ok? ==> ListsAll(s, u, f, res.value))
    ensures Asked(u.trace, |s.trace|, call)
  {
    assert u.trace[|s.trace|] == t.trace[|s.trace|];
    if res.Ok? { ListsAllLater(s, t, u, u, f, res.value); }
    forall i: nat | |s.trace| <= i < |u.trace| ensures Listing(u.trace[i].call, f) {
      if i == |s.trace| { assert u.trace[i].call == call; }
    }
  }

  lemma {:induction false} DryMembersLists(w: World, s: State, k: Key, f: Flags, fuel: nat)
    requires fuel > 0 && f.members
    ensures var r := DryMembers(w, s, k, f, fuel);
      && OnlyLists(s, r.st, f, r.res, {k})
      && (r.res.Ok? ==> ListsAll(s, r.st, f, r.res.value) && Asked(r.st.trace, |s.trace|, AskMembers(k)))
    decreases fuel - 1, |MembersOf(w, k)| + 2
  {
    hide ListsAll;
    if !w.raises(s.trace, AskMembers(k)) {
      var t := Log(s, AskMembers(k), true, "");
      DryEachLists(w, t, MembersOf(w, k), f, fuel - 1);
      var r := DryMembers(w, s, k, f, fuel);
      OneList(s, t, r.st, AskMembers(k), k, f, r.res);
    }
  }

  lemma {:induction false} DryEachLists(w: World, s: State, list: seq<Resource>, f: Flags, fuel: nat)
    ensures var r := DryEach(w, s, list, f, fuel);
      OnlyLists(s, r.st, f, r.res, {}) && (r.res.Ok? ==> ListsAll(s, r.st, f, r.res.value))
    decreases fuel, |list| + 1
  {
    hide OnlyLists, ListsAll;
    OnlyListsNothing(s, f);
    if list != [] {
      var one := Dry(w, s, list[0].key, f, fuel);
      DryLists(w, s, list[0].key, f, fuel);
      if one.res.Ok? {
        var rest := DryEach(w, one.st, list[1..], f, fuel);
        DryEachLists(w, one.st, list[1..], f, fuel);
        BothList(s, one.st, rest.st, f, one.res.value, rest.res);
      }
    }
  }

  lemma BothList(s: State, t: State, u: State, f: Flags, a: seq<Key>, res: Result<seq<Key>>)
    requires OnlyLists(s, t, f, Ok(a), {}) && OnlyLists(t, u, f, res, {})
    requires ListsAll(s, t, f, a) && (res.Ok? ==> ListsAll(t, u, f, res.value))
    ensures OnlyLists(s, u, f, if res.Err? then res else Ok(a + res.value), {})
    ensures res.Ok? ==> ListsAll(s, u, f, a + res.value)
  {
    OnlyListsThen(s, t, u, f, a, res, {}, {});
    if res.Ok? {
      ListsAllLater(s, s, t, u, f, a);
      ListsAllLater(s, t, u, u, f, res.value);
    }
  }
}
