/** handlers/base.py: reported dependencies, and looking them up in the list the manager hands over. */
module Base {
  import opened Store
  import opened World
  import opened Safety

  /** The configuration flags that decide what is reported and copied. */
  datatype Config = Config(
    multitenant: bool,
    preservePortFloatingIp: bool,
    preservePortFixedIps: bool,
    preserveRouterIp: bool)

  // ---- _get_associated_resource_destination_id ----

  function Lookup(given: seq<Migrated>, k: Key): Result<string> {
    if given == [] then Err(NotFound)
    else if given[0].key == k then Ok(given[0].dest)
    else Lookup(given[1..], k)
  }

  method FindDestination(given: seq<Migrated>, k: Key) returns (r: Result<string>)
    ensures r == Lookup(given, k)
  {
    for i := 0 to |given|
      invariant Lookup(given, k) == Lookup(given[i..], k)
    {
      assert given[i..][1..] == given[i + 1..];
      if given[i].key == k { return Ok(given[i].dest); }
    }
    r := Err(NotFound);
  }

  predicate FirstEntry(given: seq<Migrated>, k: Key, i: nat) {
    i < |given| && given[i].key == k && forall j :: 0 <= j < i ==> given[j].key != k
  }

  /** A lookup finds the first entry of that type and id, or raises NotFound if there is none. */
  lemma {:induction false} LookupFindsFirst(given: seq<Migrated>, k: Key)
    ensures
      || (Lookup(given, k) == Err(NotFound) && forall i :: 0 <= i < |given| ==> given[i].key != k)
      || exists i: nat :: FirstEntry(given, k, i) && Lookup(given, k) == Ok(given[i].dest)
    decreases |given|
  {
    if given != [] {
      LookupFindsFirst(given[1..], k);
      if given[0].key == k {
        assert FirstEntry(given, k, 0);
      } else if i: nat :| FirstEntry(given[1..], k, i) && Lookup(given[1..], k) == Ok(given[1..][i].dest) {
        forall j | 0 < j <= i ensures given[j] == given[1..][j - 1] { }
        assert FirstEntry(given, k, i + 1);
      }
    }
  }

  /** Given a covering list a lookup succeeds exactly for the reported dependencies, and returns
      the recorded id. */
  lemma {:induction false} LookupCovered(given: seq<Migrated>, reported: seq<Resource>, tr: Translation, k: Key)
    requires Covers(given, reported, tr)
    ensures Lookup(given, k) == if k in KeySet(reported) then Ok(tr(k)) else Err(NotFound)
    decreases |given|
  {
    if given != [] { LookupCovered(given[1..], reported[1..], tr, k); }
  }

  lemma LookupsCovered(given: seq<Migrated>, reported: seq<Resource>, tr: Translation)
    requires Covers(given, reported, tr)
    ensures forall k :: Lookup(given, k) == if k in KeySet(reported) then Ok(tr(k)) else Err(NotFound)
  {
    forall k ensures Lookup(given, k) == if k in KeySet(reported) then Ok(tr(k)) else Err(NotFound) {
      LookupCovered(given, reported, tr, k);
    }
  }

  /** The list the manager passes is a covering one. */
  lemma TranslatesCovers(s: State, given: seq<Migrated>, reported: seq<Resource>)
    requires Translates(s, given, reported)
    ensures Covers(given, reported, k => DestOf(s, k))
  {
  }

  lemma {:induction false} KeySetConcat(a: seq<Resource>, b: seq<Resource>)
    ensures KeySet(a + b) == KeySet(a) + KeySet(b)
    decreases |a|
  {
    if a == [] {
      assert a + b == b;
    } else {
      assert (a + b)[1..] == a[1..] + b;
      KeySetConcat(a[1..], b);
    }
  }

  // ---- Identity dependencies ----

  /** A dependency that is reported when its id is set. */
  function IfSet(rtype: string, id: string): seq<Resource> {
    if id == "" then [] else [Resource(Key(rtype, id), false)]
  }

  /** What _report_identity_dependencies adds. */
  function IdentityReport(cfg: Config, project: string, user: string): seq<Resource> {
    if cfg.multitenant then IfSet("project", project) + IfSet("user", user) else []
  }

  /** The owners a resource is created with; the empty string stands for an absent argument. */
  datatype Owners = Owners(project: string, user: string)

  /** _get_identity_build_kwargs. */
  function IdentityKwargs(cfg: Config, given: seq<Migrated>, project: string, user: string): Result<Owners> {
    if !cfg.multitenant then Ok(Owners("", "")) else
    var p := if project == "" then Ok("") else Lookup(given, Key("project", project));
    if p.Err? then Err(p.error) else
    var u := if user == "" then Ok("") else Lookup(given, Key("user", user));
    if u.Err? then Err(u.error) else Ok(Owners(p.value, u.value))
  }

  /** The reported owners suffice: each is translated, and absent ones stay absent. */
  lemma OwnersAreImages(cfg: Config, given: seq<Migrated>, reported: seq<Resource>, project: string,
          user: string, tr: Translation)
    requires Covers(given, reported, tr) && KeySet(IdentityReport(cfg, project, user)) <= KeySet(reported)
    ensures IdentityKwargs(cfg, given, project, user) ==
      if cfg.multitenant then Ok(Owners(RefImage("project", project, tr), RefImage("user", user, tr)))
        else Ok(Owners("", ""))
  {
    if cfg.multitenant {
      KeySetConcat(IfSet("project", project), IfSet("user", user));
      LookupCovered(given, reported, tr, Key("project", project));
      LookupCovered(given, reported, tr, Key("user", user));
    }
  }

  method ReportIdentityDependencies(cfg: Config, head: seq<Resource>, project: string,
          user: string) returns (r: seq<Resource>)
    ensures r == head + IdentityReport(cfg, project, user)
  {
    r := head;
    if !cfg.multitenant { return; }
    if project != "" { r := r + [Resource(Key("project", project), false)]; }
    if user != "" { r := r + [Resource(Key("user", user), false)]; }
  }

  method GetIdentityBuildKwargs(cfg: Config, given: seq<Migrated>, project: string,
          user: string) returns (r: Result<Owners>)
    ensures r == IdentityKwargs(cfg, given, project, user)
  {
    var owners := Owners("", "");
    if !cfg.multitenant { return Ok(owners); }
    if project != "" {
      var found := FindDestination(given, Key("project", project));
      if found.Err? { return Err(found.error); }
      owners := owners.(project := found.value);
    }
    if user != "" {
      var found := FindDestination(given, Key("user", user));
      if found.Err? { return Err(found.error); }
      owners := owners.(user := found.value);
    }
    r := Ok(owners);
  }

  /** The handlers modelled here report and translate the project only. */
  function IdentityDeps(cfg: Config, project: string): seq<Resource> {
    IdentityReport(cfg, project, "")
  }

  function IdentityArgs(cfg: Config, project: string, given: seq<Migrated>): Result<string> {
    var owners := IdentityKwargs(cfg, given, project, "");
    if owners.Err? then Err(owners.error) else Ok(owners.value.project)
  }

  function IdentityImage(cfg: Config, project: string, tr: Translation): string {
    if cfg.multitenant then RefImage("project", project, tr) else ""
  }

  /** Optional references: absent ones stay absent. */
  function RefImage(rtype: string, id: string, tr: Translation): string {
    if id == "" then "" else tr(Key(rtype, id))
  }

  // ---- Lists of references ----

  function TypedDeps(rtype: string, ids: seq<string>, cleanup: bool): seq<Resource> {
    if ids == [] then [] else [Resource(Key(rtype, ids[0]), cleanup)] + TypedDeps(rtype, ids[1..], cleanup)
  }

  lemma {:induction false} TypedKeys(rtype: string, ids: seq<string>, cleanup: bool)
    ensures forall i :: 0 <= i < |ids| ==> Key(rtype, ids[i]) in KeySet(TypedDeps(rtype, ids, cleanup))
    ensures forall k :: k in KeySet(TypedDeps(rtype, ids, cleanup)) ==> k.rtype == rtype && k.id in ids
    decreases |ids|
  {
    if ids != [] {
      KeySetConcat([Resource(Key(rtype, ids[0]), cleanup)], TypedDeps(rtype, ids[1..], cleanup));
      TypedKeys(rtype, ids[1..], cleanup);
      forall i | 0 <= i < |ids| ensures Key(rtype, ids[i]) in KeySet(TypedDeps(rtype, ids, cleanup)) {
        if i > 0 { assert ids[i] == ids[1..][i - 1]; }
      }
    }
  }

  method AddTyped(head: seq<Resource>, rtype: string, ids: seq<string>, cleanup: bool) returns (r: seq<Resource>)
    ensures r == head + TypedDeps(rtype, ids, cleanup)
  {
    r := head;
    assert ids[0..] == ids;
    for i := 0 to |ids|
      invariant r + TypedDeps(rtype, ids[i..], cleanup) == head + TypedDeps(rtype, ids, cleanup)
    {
      assert ids[i..][1..] == ids[i + 1..];
      r := r + [Resource(Key(rtype, ids[i]), cleanup)];
    }
    assert r == r + TypedDeps(rtype, ids[|ids|..], cleanup);
  }

  /** Looking up a list of ids; the first missing one raises. */
  function LookupAll(rtype: string, ids: seq<string>, given: seq<Migrated>): Result<seq<string>> {
    if ids == [] then Ok([])
    else
      var one := Lookup(given, Key(rtype, ids[0]));
      if one.Err? then Err(one.error) else
      var rest := LookupAll(rtype, ids[1..], given);
      if rest.Err? then rest else Ok([one.value] + rest.value)
  }

  function IdImages(rtype: string, ids: seq<string>, tr: Translation): (r: seq<string>)
    ensures |r| == |ids|
    ensures forall i :: 0 <= i < |ids| ==> r[i] == tr(Key(rtype, ids[i]))
  {
    if ids == [] then [] else [tr(Key(rtype, ids[0]))] + IdImages(rtype, ids[1..], tr)
  }

  lemma {:induction false} LookupAllCovered(rtype: string, ids: seq<string>, given: seq<Migrated>, tr: Translation)
    requires forall i :: 0 <= i < |ids| ==> Lookup(given, Key(rtype, ids[i])) == Ok(tr(Key(rtype, ids[i])))
    ensures LookupAll(rtype, ids, given) == Ok(IdImages(rtype, ids, tr))
    decreases |ids|
  {
    if ids != [] { LookupAllCovered(rtype, ids[1..], given, tr); }
  }
}
