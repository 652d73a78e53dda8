/** handlers/keystone/user.py. */
module User {
  import opened Store
  import opened World
  import opened Base
  import opened Destination

  /** A role assignment; an absent scope is the empty string, and a project scope wins. */
  datatype Assignment = Assignment(role: string, project: string, domain: string)

  datatype SourceUser = SourceUser(domain: string, defaultProject: string, assignments: seq<Assignment>, attrs: string)

  function Roles(list: seq<Assignment>): (r: seq<string>)
    ensures |r| == |list| && forall i :: 0 <= i < |list| ==> r[i] == list[i].role
  {
    if list == [] then [] else [list[0].role] + Roles(list[1..])
  }

  /** get_associated_resources. */
  function Reported(u: SourceUser): seq<Resource> {
    [Resource(Key("domain", u.domain), false)] + IfSet("project", u.defaultProject)
      + TypedDeps("role", Roles(u.assignments), false)
  }

  /** The requests of one turn of the loop of _recreate_role_assignments, up to the first lookup that
      raises, and whether none does. */
  function Recreate(a: Assignment, given: seq<Migrated>, user: string): (seq<Request>, bool) {
    var role := Lookup(given, Key("role", a.role));
    if role.Err? then ([], false)
    else if a.project != "" then
      var project := Lookup(given, Key("project", a.project));
      if project.Err? then ([ReadRole(role.value)], false)
      else
        ([ReadRole(role.value), ReadProject(project.value), AssignProjectRole(project.value, user, role.value)], true)
    else if a.domain != "" then
      var domain := Lookup(given, Key("domain", a.domain));
      if domain.Err? then ([ReadRole(role.value)], false)
      else
        ([ReadRole(role.value), ReadDomain(domain.value), AssignDomainRole(domain.value, user, role.value)], true)
    else ([ReadRole(role.value)], true)
  }

  /** The requests made before the first lookup that raises. */
  function RecreateAll(list: seq<Assignment>, given: seq<Migrated>, user: string): seq<Request> {
    if list == [] then []
    else
      var one := Recreate(list[0], given, user);
      one.0 + if one.1 then RecreateAll(list[1..], given, user) else []
  }

  /** The arguments of create_user, or what is raised before it. */
  function UserRequest(u: SourceUser, given: seq<Migrated>): Result<Request> {
    var domain := Lookup(given, Key("domain", u.domain));
    if domain.Err? then Err(domain.error) else
    var project := if u.defaultProject == "" then Ok("") else Lookup(given, Key("project", u.defaultProject));
    if project.Err? then Err(project.error) else Ok(CreateUser(domain.value, project.value, u.attrs))
  }

  // ---- What is copied ----

  /** The scope of the assignment is a reported dependency: the default project or the own domain. */
  predicate ScopeReported(u: SourceUser, a: Assignment) {
    if a.project != "" then a.project == u.defaultProject else a.domain != "" ==> a.domain == u.domain
  }

  /** The assignments before the first one whose scope is not reported. */
  function Leading(u: SourceUser, list: seq<Assignment>): (r: seq<Assignment>)
    ensures r <= list
    ensures forall a :: a in r ==> ScopeReported(u, a)
    ensures r != list ==> !ScopeReported(u, list[|r|])
  {
    if list == [] || !ScopeReported(u, list[0]) then [] else [list[0]] + Leading(u, list[1..])
  }

  /** Role and scope are read before the role is assigned. */
  function AssignmentImage(a: Assignment, tr: Translation, user: string): seq<Request> {
    var role, project, domain := tr(Key("role", a.role)), tr(Key("project", a.project)), tr(Key("domain", a.domain));
    if a.project != "" then [ReadRole(role), ReadProject(project), AssignProjectRole(project, user, role)]
    else if a.domain != "" then [ReadRole(role), ReadDomain(domain), AssignDomainRole(domain, user, role)]
    else [ReadRole(role)]
  }

  function AssignmentImages(list: seq<Assignment>, tr: Translation, user: string): seq<Request> {
    if list == [] then []
    else
      AssignmentImage(list[0], tr, user) + AssignmentImages(list[1..], tr, user)
  }

  /** Of the first assignment whose scope is not reported only the role is read. */
  function LastRead(u: SourceUser, list: seq<Assignment>, tr: Translation): seq<Request> {
    var n := |Leading(u, list)|;
    if n == |list| then [] else [ReadRole(tr(Key("role", list[n].role)))]
  }

  lemma ReportedKeys(u: SourceUser)
    ensures forall i :: 0 <= i < |u.assignments| ==> Key("role", u.assignments[i].role) in KeySet(Reported(u))
    ensures forall p :: p != "" ==> (Key("project", p) in KeySet(Reported(u)) <==> p == u.defaultProject)
    ensures forall d :: Key("domain", d) in KeySet(Reported(u)) <==> d == u.domain
  {
    var a, b, c := [Resource(Key("domain", u.domain), false)], IfSet("project", u.defaultProject),
      TypedDeps("role", Roles(u.assignments), false);
    KeySetConcat(a, b);
    KeySetConcat(a + b, c);
    TypedKeys("role", Roles(u.assignments), false);
    forall i | 0 <= i < |u.assignments| ensures Key("role", u.assignments[i].role) in KeySet(Reported(u)) {
      assert Roles(u.assignments)[i] == u.assignments[i].role;
    }
  }

  lemma RecreateCovered(u: SourceUser, a: Assignment, given: seq<Migrated>, tr: Translation, user: string)
    requires Lookup(given, Key("role", a.role)) == Ok(tr(Key("role", a.role)))
    requires a.project != "" ==>
      Lookup(given, Key("project", a.project)) ==
        if a.project == u.defaultProject then Ok(tr(Key("project", a.project))) else Err(NotFound)
    requires Lookup(given, Key("domain", a.domain)) ==
      if a.domain == u.domain then Ok(tr(Key("domain", a.domain))) else Err(NotFound)
    ensures Recreate(a, given, user) ==
      if ScopeReported(u, a) then (AssignmentImage(a, tr, user), true) else ([ReadRole(tr(Key("role", a.role)))], false)
  {
  }

  lemma {:induction false} RecreateAllCovered(u: SourceUser, list: seq<Assignment>, given: seq<Migrated>,
          tr: Translation, user: string)
    requires forall i :: 0 <= i < |list| ==>
      Lookup(given, Key("role", list[i].role)) == Ok(tr(Key("role", list[i].role)))
    requires forall p :: p != "" ==> Lookup(given, Key("project", p)) == if p == u.defaultProject
      then Ok(tr(Key("project", p))) else Err(NotFound)
    requires forall d :: Lookup(given, Key("domain", d)) == if d == u.domain then Ok(tr(Key("domain", d)))
      else Err(NotFound)
    ensures RecreateAll(list, given, user) == AssignmentImages(Leading(u, list), tr, user) + LastRead(u, list, tr)
    decreases |list|
  {
    if list != [] {
      hide Lookup;
      RecreateCovered(u, list[0], given, tr, user);
      if ScopeReported(u, list[0]) {
        assert Leading(u, list)[1..] == Leading(u, list[1..]);
        RecreateAllCovered(u, list[1..], given, tr, user);
        hide Recreate;
        var one, images := Recreate(list[0], given, user).0, AssignmentImages(Leading(u, list[1..]), tr, user);
        assert one + (images + LastRead(u, list[1..], tr)) == (one + images) + LastRead(u, list[1..], tr);
      }
    }
  }

  /** Given the list the manager passes, the created user belongs to the images of its domain and
      default project and receives exactly the images of the leading assignments. */
  lemma UserIsImage(u: SourceUser, given: seq<Migrated>, tr: Translation, user: string)
    requires Covers(given, Reported(u), tr)
    ensures UserRequest(u, given) == Ok(CreateUser(tr(Key("domain", u.domain)),
      RefImage("project", u.defaultProject, tr), u.attrs))
    ensures RecreateAll(u.assignments, given, user) ==
      AssignmentImages(Leading(u, u.assignments), tr, user) + LastRead(u, u.assignments, tr)
  {
    ReportedKeys(u);
    forall k ensures Lookup(given, k) == if k in KeySet(Reported(u)) then Ok(tr(k)) else Err(NotFound) {
      LookupCovered(given, Reported(u), tr, k);
    }
    hide Lookup, KeySet, Covers;
    RecreateAllCovered(u, u.assignments, given, tr, user);
  }

  /** All assignments are recreated exactly when every scope is the default project or the own domain. */
  lemma AllAssignmentsIff(u: SourceUser)
    ensures Leading(u, u.assignments) == u.assignments <==> forall a :: a in u.assignments ==> ScopeReported(u, a)
  {
    var r := Leading(u, u.assignments);
    if r != u.assignments { assert u.assignments[|r|] in u.assignments; }
  }

  /** UserHandler. */
  class UserHandler {
    const cloud: Cloud

    constructor (cloud: Cloud)
      ensures this.cloud == cloud
    {
      this.cloud := cloud;
    }

    method GetAssociatedResources(u: SourceUser) returns (r: seq<Resource>)
      ensures r == Reported(u)
    {
      r := [Resource(Key("domain", u.domain), false)];
      if u.defaultProject != "" { r := r + [Resource(Key("project", u.defaultProject), false)]; }
      r := AddTyped(r, "role", Roles(u.assignments), false);
    }

    /** Stops at the first lookup or request that raises. */
    method RecreateRoleAssignments(u: SourceUser, user: string, given: seq<Migrated>) returns (r: Result<()>)
      modifies cloud`log
      ensures var reqs := RecreateAll(u.assignments, given, user);
        Ran(cloud.raises, old(cloud.log), cloud.log, reqs, Accepts(cloud.raises, old(cloud.log), reqs))
    {
      hide Ran, Left, Lookup;
      var list := u.assignments;
      ghost var x, reqs := cloud.log, RecreateAll(list, given, user);
      LeftStart(cloud.raises, x, reqs);
      assert list[0..] == list;
      for i := 0 to |list|
        invariant Left(cloud.raises, x, cloud.log, reqs, RecreateAll(list[i..], given, user))
      {
        RecreateHead(list[i..], given, user);
        assert list[i..][0] == list[i] && list[i..][1..] == list[i + 1..];
        var step := RecreateOne(list[i], user, given, x, reqs, RecreateAll(list[i + 1..], given, user));
        if step.Err? { return Err(step.error); }
      }
      LeftEnd(cloud.raises, x, cloud.log, reqs);
      RanDecides(cloud.raises, x, cloud.log, reqs, true);
      r := Ok(());
    }

    lemma RecreateHead(list: seq<Assignment>, given: seq<Migrated>, user: string)
      requires list != []
      ensures RecreateAll(list, given, user) ==
        var one := Recreate(list[0], given, user); one.0 + if one.1 then RecreateAll(list[1..], given, user) else []
    {
    }

    /** One turn of the loop; `rest` is what is left of the plan after it. */
    method RecreateOne(a: Assignment, user: string, given: seq<Migrated>, ghost x: seq<Request>,
            ghost reqs: seq<Request>, ghost rest: seq<Request>)
      returns (r: Result<()>)
      requires var one := Recreate(a, given, user);
        Left(cloud.raises, x, cloud.log, reqs, one.0 + if one.1 then rest else [])
      modifies cloud`log
      ensures if r.Ok? then Left(cloud.raises, x, cloud.log, reqs, rest)
              else Ran(cloud.raises, x, cloud.log, reqs, Accepts(cloud.raises, x, reqs))
    {
      hide Ran, Left, Lookup;
      ghost var one := Recreate(a, given, user);
      var role := FindDestination(given, Key("role", a.role));
      if role.Err? {
        Stop(x, reqs, []);
        return Err(role.error);
      }
      ghost var left := one.0[1..] + if one.1 then rest else [];
      assert [ReadRole(role.value)] + left == one.0 + if one.1 then rest else [];
      r := Issue(ReadRole(role.value), x, reqs, left);
      if r.Err? { return; }
      if a.project != "" {
        var project := FindDestination(given, Key("project", a.project));
        if project.Err? {
          Stop(x, reqs, left);
          return Err(project.error);
        }
        var assign := AssignProjectRole(project.value, user, role.value);
        r := ReadAndAssign(ReadProject(project.value), assign, x, reqs, rest);
      } else if a.domain != "" {
        var domain := FindDestination(given, Key("domain", a.domain));
        if domain.Err? {
          Stop(x, reqs, left);
          return Err(domain.error);
        }
        var assign := AssignDomainRole(domain.value, user, role.value);
        r := ReadAndAssign(ReadDomain(domain.value), assign, x, reqs, rest);
      } else {
        assert left == rest;
      }
    }

    /** Nothing is left of the plan. */
    lemma Stop(x: seq<Request>, reqs: seq<Request>, left: seq<Request>)
      requires left == [] && Left(cloud.raises, x, cloud.log, reqs, left)
      ensures Ran(cloud.raises, x, cloud.log, reqs, Accepts(cloud.raises, x, reqs))
    {
      LeftEnd(cloud.raises, x, cloud.log, reqs);
      RanDecides(cloud.raises, x, cloud.log, reqs, true);
    }

    method ReadAndAssign(read: Request, assign: Request, ghost x: seq<Request>, ghost reqs: seq<Request>,
            ghost rest: seq<Request>) returns (r: Result<()>)
      requires Left(cloud.raises, x, cloud.log, reqs, [read, assign] + rest)
      modifies cloud`log
      ensures if r.Ok? then Left(cloud.raises, x, cloud.log, reqs, rest)
              else Ran(cloud.raises, x, cloud.log, reqs, Accepts(cloud.raises, x, reqs))
    {
      hide Ran, Left;
      assert [read] + ([assign] + rest) == [read, assign] + rest;
      r := Issue(read, x, reqs, [assign] + rest);
      if r.Err? { return; }
      r := Issue(assign, x, reqs, rest);
    }

    method Issue(req: Request, ghost x: seq<Request>, ghost reqs: seq<Request>,
            ghost rest: seq<Request>) returns (r: Result<()>)
      requires Left(cloud.raises, x, cloud.log, reqs, [req] + rest)
      modifies cloud`log
      ensures if r.Ok? then Left(cloud.raises, x, cloud.log, reqs, rest)
              else Ran(cloud.raises, x, cloud.log, reqs, Accepts(cloud.raises, x, reqs))
    {
      hide Left;
      ghost var y := cloud.log;
      var one := cloud.Issue(req);
      assert [req][1..] == [];
      LeftStep(cloud.raises, x, y, cloud.log, reqs, [req], rest, one.Ok?);
      if one.Err? { return Err(one.error); }
      r := Ok(());
    }

    /** `existing` is the destination user of the same name, if there is one: it is taken as it is.
        A new user is returned whatever becomes of its role assignments. */
    method PerformIndividualMigration(u: SourceUser, given: seq<Migrated>,
            existing: Option<string>) returns (r: Result<string>)
      modifies cloud`log
      ensures var request, user := UserRequest(u, given), cloud.name(|old(cloud.log)|);
        if Lookup(given, Key("domain", u.domain)).Err? then r.Err? && cloud.log == old(cloud.log)
        else if existing.Some? then r == Ok(existing.value) && cloud.log == old(cloud.log)
        else if request.Err? || cloud.raises(old(cloud.log), request.value) then r.Err? && cloud.log == old(cloud.log)
        else
          var created, reqs := old(cloud.log) + [request.value], RecreateAll(u.assignments, given, user);
          r == Ok(user) && Ran(cloud.raises, created, cloud.log, reqs, Accepts(cloud.raises, created, reqs))
    {
      var domain := FindDestination(given, Key("domain", u.domain));
      if domain.Err? { return Err(domain.error); }
      if existing.Some? { return Ok(existing.value); }
      var defaultProject := "";
      if u.defaultProject != "" {
        var project := FindDestination(given, Key("project", u.defaultProject));
        if project.Err? { return Err(project.error); }
        defaultProject := project.value;
      }
      r := cloud.Issue(CreateUser(domain.value, defaultProject, u.attrs));
      if r.Ok? {
        var _ := RecreateRoleAssignments(u, r.value, given);
      }
    }
  }
}
