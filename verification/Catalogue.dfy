/** The types of resources the registered handlers report to each other, and what follows for a start on
    the graph of a whole cloud. */
module Catalogue {
  import opened Store
  import opened World
  import opened Orchestration
  import opened Commands
  import opened DryRun
  import opened Reach
  import opened Parts
  import opened Closure
  import opened Returns
  import opened Connections
  import opened Histories
  import opened Reruns

  /** The registered resource types; those that report nothing and are not on any member list are one. */
  datatype Kind =
    | Domain | Project | Role | User
    | Network | Subnet | Router | FloatingIp | Port | LoadBalancer
    | SecurityGroup | SecurityGroupRule
    | Volume | Share | Image | Zone | Instance | Container
    | Leaf

  function KindOf(rtype: string): Kind {
    match rtype
    case "domain" => Domain
    case "project" => Project
    case "role" => Role
    case "user" => User
    case "network" => Network
    case "subnet" => Subnet
    case "router" => Router
    case "floating-ip" => FloatingIp
    case "port" => Port
    case "load-balancer" => LoadBalancer
    case "security-group" => SecurityGroup
    case "security-group-rule" => SecurityGroupRule
    case "volume" => Volume
    case "share" => Share
    case "image" => Image
    case "dns-zone" => Zone
    case "instance" => Instance
    case "secret-container" => Container
    case _ => Leaf
  }

  /** get_associated_resource_types of each handler, with all configuration flags set. */
  function AssociatedKinds(kind: Kind): set<Kind> {
    match kind
    case Project => {Domain}
    case Role => {Domain}
    case User => {Domain, Project, Role}
    case Network => {Project}
    case Subnet => {Project, Network}
    case Router => {Project, Network, Subnet}
    case FloatingIp => {Project, Network, Subnet, Router}
    case Port => {Project, Network, Subnet, SecurityGroup, FloatingIp}
    case LoadBalancer => {Project, Network, Subnet, FloatingIp}
    case SecurityGroup => {Project}
    case SecurityGroupRule => {Project, SecurityGroup}
    case Volume => {Project, User, Leaf}
    case Share => {Project, Leaf}
    case Image => {Project}
    case Zone => {Project}
    case Instance => {Project, Network, Port, Image, Volume, Leaf}
    case Container => {Leaf}
    case _ => {}
  }

  /** get_member_resource_types of each handler. */
  function MemberKinds(kind: Kind): set<Kind> {
    match kind
    case Domain => {Project, User}
    case Project => {User}
    case Network => {Subnet}
    case Router => {Subnet}
    case SecurityGroup => {SecurityGroupRule}
    case _ => {}
  }

  function KindOfKey(k: Key): Kind {
    KindOf(k.rtype)
  }

  /** Handlers report what they declare. */
  ghost predicate Typed(w: World) {
    && (forall k, d :: d in KeySet(DepsOf(w, k)) ==> KindOfKey(d) in AssociatedKinds(KindOfKey(k)))
    && (forall k, m :: m in KeySet(MembersOf(w, k)) ==> KindOfKey(m) in MemberKinds(KindOfKey(k)))
  }

  /** A dependency of the given kind. */
  predicate Names(w: World, k: Key, kind: Kind, d: Key) {
    d in KeySet(DepsOf(w, k)) && KindOfKey(d) == kind
  }

  /** A user that is a member of a resource of the given kind. */
  predicate ListsUser(w: World, k: Key, kind: Kind, u: Key) {
    u in KeySet(MembersOf(w, k)) && KindOfKey(k) == kind && KindOfKey(u) == User
  }

  /** A user names one default project at most; a domain lists the users without one, a project those
      that name it. */
  ghost predicate UsersListed(w: World) {
    && (forall u, p, q :: KindOfKey(u) == User && Names(w, u, Project, p) && Names(w, u, Project, q) ==> p == q)
    && (forall d, u, p :: ListsUser(w, d, Domain, u) ==> !Names(w, u, Project, p))
    && (forall p, u :: ListsUser(w, p, Project, u) ==> Names(w, u, Project, p))
  }

  /** A role that belongs to a domain is assigned to users of that domain, who report it before the role. */
  ghost predicate RolesAtHome(w: World) {
    forall u, r, d :: KindOfKey(u) == User && Names(w, u, Role, r) && Names(w, r, Domain, d) ==>
      d in Ahead(DepsOf(w, u), r)
  }

  ghost predicate CloudGraph(w: World) {
    Typed(w) && UsersListed(w) && RolesAtHome(w)
  }

  // ---- No start but that of a role is entangled ----

  /** A start never comes to a higher level, and what depends on a resource is above its dependencies,
      identities excepted. */
  function Level(kind: Kind): nat {
    match kind
    case Network => 1
    case Subnet => 1
    case SecurityGroup => 1
    case SecurityGroupRule => 1
    case Volume => 1
    case Share => 1
    case Image => 1
    case Zone => 1
    case Container => 1
    case Router => 2
    case FloatingIp => 3
    case Port => 4
    case LoadBalancer => 4
    case Instance => 5
    case _ => 0
  }

  /** The highest level of a dependency. */
  function Ceiling(kind: Kind): nat {
    match kind
    case Subnet => 1
    case Router => 1
    case SecurityGroupRule => 1
    case FloatingIp => 2
    case Port => 3
    case LoadBalancer => 3
    case Instance => 4
    case _ => 0
  }

  lemma LevelOfDependency(d: Kind, b: Kind)
    requires d in AssociatedKinds(b)
    ensures Level(d) <= Ceiling(b) <= Level(b) && b != d && b !in {Domain, Leaf}
  {
    match b { case Instance => case Port => case LoadBalancer => case FloatingIp => case Router => case _ => }
  }

  lemma LevelOfDependent(b: Kind, x: Kind)
    requires b in AssociatedKinds(x) && b !in {Domain, Leaf}
    ensures Ceiling(b) < Level(x) || (b in {Project, Role} && x == User)
  {
    match x { case Instance => case Port => case LoadBalancer => case FloatingIp => case Router => case _ => }
  }

  lemma LevelFalls(d: Kind, b: Kind, x: Kind)
    requires d in AssociatedKinds(b)
    ensures Level(d) <= Level(b) && b != d
    ensures b in AssociatedKinds(x) ==> Level(d) < Level(x) || (b in {Project, Role} && x == User)
  {
    hide Level, AssociatedKinds, Ceiling;
    LevelOfDependency(d, b);
    if b in AssociatedKinds(x) { LevelOfDependent(b, x); }
  }

  lemma LevelOfMember(m: Kind, k: Kind)
    requires m in MemberKinds(k)
    ensures Level(m) <= Level(k)
  {
  }

  lemma {:induction false} LevelAlong(w: World, s: State, f: Flags, path: seq<Key>, i: nat, j: nat)
    requires Typed(w) && Trail(w, s, f, path) && i <= j < |path|
    ensures Level(KindOfKey(path[j])) <= Level(KindOfKey(path[i]))
    decreases j
  {
    hide KindOfKey, Level, Sooner, Targets, Typed, DepsOf;
    if i < j {
      LevelAlong(w, s, f, path, i, j - 1);
      LevelStep(w, f, path[j - 1], path[j]);
    }
  }

  lemma LevelStep(w: World, f: Flags, k: Key, j: Key)
    requires Typed(w) && j in Targets(w, f, k)
    ensures Level(KindOfKey(j)) <= Level(KindOfKey(k))
  {
    hide KindOfKey;
    if j in KeySet(DepsOf(w, k)) {
      LevelFalls(KindOfKey(j), KindOfKey(k), KindOfKey(k));
    } else {
      LevelOfMember(KindOfKey(j), KindOfKey(k));
    }
  }

  /** How a trail comes to a user: as its root, or from a list of users, or as the owner of a volume. */
  lemma UserBefore(w: World, s: State, f: Flags, path: seq<Key>, j: nat)
    requires Typed(w) && Trail(w, s, f, path) && 0 < j < |path| && KindOfKey(path[j]) == User
    ensures KindOfKey(path[j - 1]) in {Domain, Project, Volume}
    ensures KindOfKey(path[j - 1]) in {Domain, Project} ==> path[j] in KeySet(MembersOf(w, path[j - 1]))
  {
    hide KindOf, Sooner;
    assert path[j] in Targets(w, f, path[j - 1]);
  }

  /** How a trail comes to a role: from a user that has it. */
  lemma RoleBefore(w: World, s: State, f: Flags, path: seq<Key>, j: nat)
    requires Typed(w) && Trail(w, s, f, path) && 0 < j < |path| && KindOfKey(path[j]) == Role
    ensures KindOfKey(path[j - 1]) == User && path[j] in KeySet(DepsOf(w, path[j - 1]))
  {
    hide KindOf, Sooner;
    assert path[j] in Targets(w, f, path[j - 1]);
  }

  /** The only knot there can be: the start of a role comes to a user that has the role. */
  lemma KnotIsRole(w: World, s: State, f: Flags, path: seq<Key>, i: nat)
    requires CloudGraph(w) && Trail(w, s, f, path) && Knot(w, path, i)
    ensures i == 0 && 1 < |path| && KindOfKey(path[0]) == Role
  {
    hide KindOf, Sooner;
    var n := |path| - 1;
    var b, x := path[i], path[n];
    if i == n {
      LevelFalls(KindOfKey(b), KindOfKey(b), KindOfKey(b));
      assert false;
    } else {
      var d := path[i + 1];
      LevelAlong(w, s, f, path, i + 1, n);
      LevelFalls(KindOfKey(d), KindOfKey(b), KindOfKey(x));
      if KindOfKey(b) == Project {
        ProjectsAreUntied(w, s, f, path, i);
      } else if 0 < i {
        RolesAreUntied(w, s, f, path, i);
      }
    }
  }

  /** Who lists a user with a default project is that project. */
  lemma ListedByOwnProject(w: World, y: Key, u: Key, p: Key)
    requires UsersListed(w) && KindOfKey(y) in {Domain, Project} && ListsUser(w, y, KindOfKey(y), u)
    requires Names(w, u, Project, p)
    ensures y == p
  {
    hide KindOfKey;
    assert KindOfKey(y) == Project ==> Names(w, u, Project, y);
  }

  /** Below the domain of a project, a user with that default project is only listed by the project. */
  lemma ProjectsAreUntied(w: World, s: State, f: Flags, path: seq<Key>, i: nat)
    requires CloudGraph(w) && Trail(w, s, f, path) && i + 1 < |path| && KindOfKey(path[i]) == Project
    requires path[i + 1] in KeySet(DepsOf(w, path[i])) && KindOfKey(path[|path| - 1]) == User
    ensures path[i] !in KeySet(DepsOf(w, path[|path| - 1]))
  {
    hide KindOf, Sooner, UsersListed, RolesAtHome, Targets;
    var n := |path| - 1;
    assert KindOfKey(path[i + 1]) == Domain;
    UserBefore(w, s, f, path, n);
    LevelAlong(w, s, f, path, i + 1, n - 1);
    assert path[n - 1] != path[i];
    if path[i] in KeySet(DepsOf(w, path[n])) { ListedByOwnProject(w, path[n - 1], path[n], path[i]); }
  }

  /** The domain of a role was dealt with before its user came to the role. */
  lemma RolesAreUntied(w: World, s: State, f: Flags, path: seq<Key>, i: nat)
    requires CloudGraph(w) && Trail(w, s, f, path) && 0 < i < |path| - 1 && KindOfKey(path[i]) == Role
    ensures path[i + 1] !in KeySet(DepsOf(w, path[i]))
  {
    hide KindOf;
    RoleBefore(w, s, f, path, i);
    assert path[i + 1] !in Sooner(w, path[i - 1], path[i]);
    forall d | d in KeySet(DepsOf(w, path[i])) ensures d in Sooner(w, path[i - 1], path[i]) {
      assert Names(w, path[i - 1], Role, path[i]) && Names(w, path[i], Domain, d);
    }
  }

  /** On the graph of a cloud no start is entangled but that of a role. */
  lemma OnlyRolesEntangle(w: World, s: State, f: Flags, k: Key)
    requires CloudGraph(w) && KindOfKey(k) != Role
    ensures !Entangled(w, s, f, k)
  {
    hide CloudGraph, KindOf, Sooner, Targets;
    if Entangled(w, s, f, k) {
      var path, i: nat :| Trail(w, s, f, path) && path[0] == k && Knot(w, path, i);
      KnotIsRole(w, s, f, path, i);
      assert false;
    }
  }

  /** So when handlers do not raise and nothing is refused or in progress, a start creates exactly what is
      reachable through unmigrated resources, unless its root is a role and something reachable has it. */
  lemma StartMigratesCloudIff(w: World, s: State, k: Key, cleanup: bool, f: Flags, v: set<Key>)
    requires CloudGraph(w) && Calm(w) && Sturdy(w, s, f, v) && k in v && !Done(s, k)
    requires forall j :: j in v ==> !Busy(s, j)
    ensures var r := Perform(w, s, k, cleanup, f);
      r.res.Ok? && CreatedExactly(w, s, r.st, iset j | Reachable(w, s, f, k, j)) <==>
        !(KindOfKey(k) == Role && exists x :: Reachable(w, s, f, k, x) && k in KeySet(DepsOf(w, x)))
  {
    hide CloudGraph, KindOf, Perform, Sturdy, CreatedExactly, Newest, Trail, Knot, Reachable;
    SturdyDeps(w, s, f, v);
    var r := Perform(w, s, k, cleanup, f);
    if x :| KindOfKey(k) == Role && Reachable(w, s, f, k, x) && k in KeySet(DepsOf(w, x)) {
      ReachableUnmigrated(w, s, f, k, x);
      RoleLeavesOut(w, s, k, cleanup, f, x);
      CreatedIsDone(w, s, r.st, iset j | Reachable(w, s, f, k, j));
    } else {
      if Entangled(w, s, f, k) { EntangledRole(w, s, f, k); }
      StartMigratesReachable(w, s, k, cleanup, f, v);
    }
  }

  lemma CreatedIsDone(w: World, s: State, t: State, created: iset<Key>)
    ensures CreatedExactly(w, s, t, created) ==> forall j :: j in created ==> Done(t, j)
  {
  }

  lemma EntangledRole(w: World, s: State, f: Flags, k: Key)
    requires CloudGraph(w) && f.deps && Entangled(w, s, f, k)
    ensures KindOfKey(k) == Role && exists x :: Reachable(w, s, f, k, x) && k in KeySet(DepsOf(w, x))
  {
    hide CloudGraph, KindOf, Sooner, Targets;
    var path, i: nat :| Trail(w, s, f, path) && path[0] == k && Knot(w, path, i);
    KnotIsRole(w, s, f, path, i);
    TrailIsPath(w, s, f, path);
    assert PathFromTo(w, s, f, path, k, path[|path| - 1]);
  }

  /** A role has no members, so what depends on it is not migrated by its start. */
  lemma RoleLeavesOut(w: World, s: State, k: Key, cleanup: bool, f: Flags, x: Key)
    requires CloudGraph(w) && KindOfKey(k) == Role && !Done(s, k) && !Done(s, x) && k in KeySet(DepsOf(w, x))
    ensures !Done(Perform(w, s, k, cleanup, f).st, x)
  {
    hide KindOf, Perform, Newest;
    NoKindNoMembers(w, k);
    NotReachedFromNothing(w, Insert(s, NewRow(k)), f, x);
    assert KindOfKey(x) == Role ==> Role in AssociatedKinds(Role);
    DependentsLeftOut(w, s, k, cleanup, f, x);
  }

  lemma NoKindNoMembers(w: World, k: Key)
    requires Typed(w) && MemberKinds(KindOfKey(k)) == {}
    ensures KeySet(MembersOf(w, k)) == {}
  {
    hide KindOf;
    assert forall m :: m in KeySet(MembersOf(w, k)) ==> KindOfKey(m) in MemberKinds(KindOfKey(k));
  }

  /** So after any run from an empty database every start on a resource that is no role, with dependencies
      and members, is as the results on members and their connection ask. */
  lemma StartIsSmooth(w: World, cs: seq<Command>, k: Key, f: Flags, v: set<Key>)
    requires CloudGraph(w) && Calm(w) && f.deps && f.members && ClosedUnder(w, f, v) && k in v && KindOfKey(k) != Role
    requires !Done(Run(w, Empty, cs), k)
    ensures Smooth(w, Run(w, Empty, cs), f, v, k)
  {
    hide CloudGraph, KindOf, Run, Newest;
    HistoriesAreSane(w, cs);
    OnlyRolesEntangle(w, Run(w, Empty, cs), f, k);
  }

  /** The same of a start after any run from an empty database. */
  lemma StartAfterRunIff(w: World, cs: seq<Command>, k: Key, cleanup: bool, f: Flags, v: set<Key>)
    requires CloudGraph(w) && Calm(w) && f.deps && ClosedUnder(w, f, v) && k in v && !Done(Run(w, Empty, cs), k)
    ensures var s := Run(w, Empty, cs);
      var r := Perform(w, s, k, cleanup, f);
      r.res.Ok? && CreatedExactly(w, s, r.st, iset j | Reachable(w, s, f, k, j)) <==>
        !(KindOfKey(k) == Role && exists x :: Reachable(w, s, f, k, x) && k in KeySet(DepsOf(w, x)))
  {
    hide CloudGraph, KindOf, Run, Perform, Newest, Reachable, CreatedExactly;
    var s := Run(w, Empty, cs);
    HistoriesAreSane(w, cs);
    assert Sturdy(w, s, f, v);
    StartMigratesCloudIff(w, s, k, cleanup, f, v);
  }

  /** And a start on a migrated resource creates exactly what is reachable from its unmigrated members: none
      of them is a role. */
  lemma RerunAfterRun(w: World, cs: seq<Command>, k: Key, cleanup: bool, f: Flags, v: set<Key>)
    requires CloudGraph(w) && Calm(w) && f.deps && f.members && ClosedUnder(w, f, v) && k in v
    requires Done(Run(w, Empty, cs), k)
    ensures var s := Run(w, Empty, cs);
      var r := Perform(w, s, k, cleanup, f);
      r.res.Ok? && CreatedExactly(w, s, r.st, iset j | BelowMembers(w, s, f, k, j))
  {
    hide CloudGraph, Run, Perform, Newest, BelowMembers, CreatedExactly, Entangled;
    var s := Run(w, Empty, cs);
    HistoriesAreSane(w, cs);
    assert Sturdy(w, s, f, v);
    MembersUntangled(w, s, f, k);
    RerunMigratesMembers(w, s, k, cleanup, f, v);
  }

  lemma MembersUntangled(w: World, s: State, f: Flags, k: Key)
    requires CloudGraph(w)
    ensures forall m :: m in KeySet(MembersOf(w, k)) ==> !Entangled(w, s, f, m)
  {
    hide KindOf, Entangled, UsersListed, RolesAtHome;
    forall m | m in KeySet(MembersOf(w, k)) ensures !Entangled(w, s, f, m) {
      assert KindOfKey(m) in MemberKinds(KindOfKey(k));
      OnlyRolesEntangle(w, s, f, m);
    }
  }

  // ---- A tenant's cloud ----

  const Dom := Key("domain", "d")
  const Prj := Key("project", "p")
  const Usr := Key("user", "u")
  const Rol := Key("role", "r")
  const Lan := Key("network", "n")
  const Sub := Key("subnet", "s")

  /** A domain with a project, a user of the project and a role of the domain that the user has; a
      network of the project with a subnet. */
  function Tenant(): World {
    World(
      map["domain" := "identity", "project" := "identity", "user" := "identity", "role" := "identity",
        "network" := "network", "subnet" := "network"],
      map[Prj := [On(Dom)], Rol := [On(Dom)], Usr := [On(Dom), On(Prj), On(Rol)], Lan := [On(Prj)],
        Sub := [On(Prj), On(Lan)]],
      map[Dom := [On(Prj)], Prj := [On(Usr)], Lan := [On(Sub)]],
      (tr, call) => false,
      (tr, k) => "copy")
  }

  lemma TenantGraph()
    ensures var w := Tenant();
      && KeySet(DepsOf(w, Dom)) == {} && KeySet(DepsOf(w, Prj)) == {Dom} && KeySet(DepsOf(w, Rol)) == {Dom}
      && KeySet(DepsOf(w, Usr)) == {Dom, Prj, Rol} && Dom in Ahead(DepsOf(w, Usr), Rol)
      && KeySet(DepsOf(w, Lan)) == {Prj} && KeySet(DepsOf(w, Sub)) == {Prj, Lan}
      && KeySet(MembersOf(w, Dom)) == {Prj} && KeySet(MembersOf(w, Prj)) == {Usr}
      && KeySet(MembersOf(w, Lan)) == {Sub}
      && (forall k :: k !in {Prj, Rol, Usr, Lan, Sub} ==> DepsOf(w, k) == [])
      && (forall k :: k !in {Dom, Prj, Lan} ==> MembersOf(w, k) == [])
  {
    KeysOfOne(On(Dom));
    KeysOfOne(On(Prj));
    KeysOfOne(On(Usr));
    KeysOfOne(On(Sub));
    KeysOfTwo(On(Prj), On(Lan));
    KeysOfTwo(On(Prj), On(Rol));
    var three := [On(Dom), On(Prj), On(Rol)];
    assert three[1..] == [On(Prj), On(Rol)];
  }

  lemma TenantKinds()
    ensures KindOfKey(Dom) == Domain && KindOfKey(Prj) == Project && KindOfKey(Usr) == User
    ensures KindOfKey(Rol) == Role && KindOfKey(Lan) == Network && KindOfKey(Sub) == Subnet
  {
  }

  /** The dependencies and members of a resource, with their kinds. */
  lemma TenantEdges(k: Key)
    ensures var w := Tenant();
      && (forall d :: d in KeySet(DepsOf(w, k)) ==> KindOfKey(d) in AssociatedKinds(KindOfKey(k)))
      && (forall m :: m in KeySet(MembersOf(w, k)) ==> KindOfKey(m) in MemberKinds(KindOfKey(k)))
      && (forall p :: Names(w, k, Project, p) ==> p == Prj && k in {Usr, Lan, Sub})
      && (forall r :: Names(w, k, Role, r) ==> r == Rol && k == Usr)
      && (forall d :: Names(w, k, Domain, d) ==> d == Dom)
      && (forall u :: u in KeySet(MembersOf(w, k)) && KindOfKey(u) == User ==> k == Prj && u == Usr)
  {
    TenantGraph();
    TenantKinds();
    hide KindOfKey, Tenant;
  }

  lemma TenantListsUsers()
    ensures UsersListed(Tenant()) && RolesAtHome(Tenant())
  {
    var w := Tenant();
    TenantGraph();
    TenantKinds();
    assert Names(w, Usr, Project, Prj);
    hide KindOfKey, Tenant, Ahead, Names;
    forall u, p, q | KindOfKey(u) == User && Names(w, u, Project, p) && Names(w, u, Project, q) ensures p == q {
      TenantEdges(u);
    }
    forall d, u ensures !ListsUser(w, d, Domain, u) { TenantEdges(d); }
    forall p, u | ListsUser(w, p, Project, u) ensures Names(w, u, Project, p) { TenantEdges(p); }
    forall u, r, d | KindOfKey(u) == User && Names(w, u, Role, r) && Names(w, r, Domain, d)
      ensures d in Ahead(DepsOf(w, u), r)
    {
      TenantEdges(u);
      TenantEdges(r);
    }
  }

  lemma TenantIsCloud()
    ensures CloudGraph(Tenant())
  {
    hide UsersListed, RolesAtHome, KindOfKey, Tenant;
    TenantListsUsers();
    forall k { TenantEdges(k); }
  }

  lemma TenantSturdy()
    ensures Calm(Tenant()) && Sturdy(Tenant(), Empty, Both, {Dom, Prj, Usr, Rol, Lan, Sub})
    ensures forall b :: !Busy(Empty, b) && !Done(Empty, b)
  {
    TenantGraph();
    TenantUsable();
    hide Tenant, Usable;
    assert forall b :: !Busy(Empty, b) && !Done(Empty, b);
    hide Newest, Done, Busy;
  }

  lemma TenantUsable()
    ensures Calm(Tenant()) && forall k :: k in {Dom, Prj, Usr, Rol, Lan, Sub} ==> Usable(Tenant(), k)
  {
  }

  lemma ReachOn(w: World, s: State, f: Flags, k: Key, i: Key, j: Key)
    requires !Done(s, k) && Follows(w, s, k, f, i) && Reachable(w, s, f, i, j)
    ensures Reachable(w, s, f, k, j)
  {
    var path :| PathFromTo(w, s, f, path, i, j);
    assert ([k] + path)[1..] == path;
    assert PathFromTo(w, s, f, [k] + path, k, j);
  }

  lemma TenantReach()
    ensures var w := Tenant();
      && Reachable(w, Empty, Both, Lan, Sub) && Reachable(w, Empty, Both, Lan, Usr)
      && Reachable(w, Empty, Both, Lan, Rol)
      && Reachable(w, Empty, Both, Rol, Usr) && Reachable(w, Empty, DepsOnly, Rol, Dom)
  {
    var w, s := Tenant(), Empty;
    TenantGraph();
    TenantSturdy();
    hide Tenant, Reachable, Newest, Usable;
    ReachStep(w, s, Both, Lan, Sub);
    ReachStep(w, s, DepsOnly, Rol, Dom);
    ReachStep(w, s, Both, Prj, Usr);
    ReachOn(w, s, Both, Lan, Prj, Usr);
    ReachOn(w, s, Both, Dom, Prj, Usr);
    ReachOn(w, s, Both, Rol, Dom, Usr);
    ReachStep(w, s, Both, Usr, Rol);
    ReachOn(w, s, Both, Prj, Usr, Rol);
    ReachOn(w, s, Both, Lan, Prj, Rol);
  }

  /** With an empty database, a start on the network migrates subnet, project, user and role; a start on the
      role returns and leaves out the user, who is reachable through the role's domain. */
  lemma TenantStarts(cleanup: bool)
    ensures var w := Tenant();
      var lan, rol := Perform(w, Empty, Lan, cleanup, Both), Perform(w, Empty, Rol, cleanup, Both);
      && lan.res.Ok? && Done(lan.st, Sub) && Done(lan.st, Prj) && Done(lan.st, Usr) && Done(lan.st, Rol)
      && rol.res.Ok? && Done(rol.st, Dom) && Reachable(w, Empty, Both, Rol, Usr) && !Done(rol.st, Usr)
  {
    hide Perform, Newest, Sturdy, CloudGraph, Reachable, CreatedExactly, Entangled;
    var w, v := Tenant(), {Dom, Prj, Usr, Rol, Lan, Sub};
    TenantGraph();
    TenantKinds();
    TenantSturdy();
    TenantIsCloud();
    TenantReach();
    hide Tenant, KindOfKey;
    var t := Perform(w, Empty, Lan, cleanup, Both).st;
    OnlyRolesEntangle(w, Empty, Both, Lan);
    StartMigratesReachable(w, Empty, Lan, cleanup, Both, v);
    CreatedIsDone(w, Empty, t, iset j | Reachable(w, Empty, Both, Lan, j));
    RoleStartReturns(cleanup);
    StartMigratesDependencies(w, Empty, Rol, cleanup, Both);
    RoleLeavesOut(w, Empty, Rol, cleanup, Both, Usr);
    assert Done(t, Prj) by { ReachStep(w, Empty, Both, Lan, Prj); }
  }

  lemma RoleStartReturns(cleanup: bool)
    ensures Perform(Tenant(), Empty, Rol, cleanup, Both).res.Ok?
  {
    hide Perform, Newest, Usable, Safety.Trap;
    var w, v := Tenant(), {Dom, Rol};
    TenantGraph();
    TenantSturdy();
    hide Tenant;
    assert Acceptable(w, Empty, DepsOnly, v);
    hide Acceptable, Sturdy;
    forall c: iset<Key> | Rol in c ensures !Safety.Trap(w, Empty, c) { RoleIsNotTrapped(w, c); }
    StartReturnsIff(w, Empty, Rol, cleanup, Both, v);
  }

  lemma RoleIsNotTrapped(w: World, c: iset<Key>)
    requires KeySet(DepsOf(w, Rol)) == {Dom} && KeySet(DepsOf(w, Dom)) == {} && Rol in c
    ensures !Safety.Trap(w, Empty, c)
  {
    assert Dom !in c || !Safety.DependsInto(w, Dom, c);
  }
}
