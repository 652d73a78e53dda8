/** The manager and the graph-copying handlers together: over any run the destination graph is the
    image of the source graph. */
module GraphImage {
  import opened Store
  import opened World
  import opened Commands
  import opened Safety
  import opened Parts
  import opened Base
  import opened Destination
  import opened LoadBalancer
  import Catalogue
  import LoadBalancerTree
  import Port
  import Router
  import User

  /** A source resource of one of the handlers modelled. */
  datatype Source =
    | PortSource(port: Port.SourcePort)
    | RouterSource(router: Router.SourceRouter)
    | UserSource(user: User.SourceUser)
    | LbSource(lb: SourceLb)

  /** get_associated_resources of the resource's handler. */
  function ReportedBy(cfg: Config, x: Source): seq<Resource> {
    match x
    case PortSource(p) => Port.Reported(cfg, p)
    case RouterSource(r) => Router.Reported(cfg, r)
    case UserSource(u) => User.Reported(u)
    case LbSource(lb) => LoadBalancer.Reported(cfg, lb)
  }

  function SourceKind(x: Source): Catalogue.Kind {
    match x
    case PortSource(p) => Catalogue.Kind.Port
    case RouterSource(r) => Catalogue.Kind.Router
    case UserSource(u) => Catalogue.Kind.User
    case LbSource(lb) => Catalogue.Kind.LoadBalancer
  }

  /** These four handlers report what the catalogue says: resources of the declared types. */
  lemma HandlersFitCatalogue(cfg: Config, x: Source)
    ensures forall d :: d in KeySet(ReportedBy(cfg, x)) ==>
      Catalogue.KindOfKey(d) in Catalogue.AssociatedKinds(SourceKind(x))
  {
    hide Catalogue.KindOf, Catalogue.AssociatedKinds;
    match x {
      case PortSource(p) => PortReportTyped(cfg, p);
      case RouterSource(r) => RouterReportTyped(cfg, r);
      case UserSource(u) => UserReportTyped(u);
      case LbSource(lb) => LbReportTyped(cfg, lb);
    }
    forall d | d in KeySet(ReportedBy(cfg, x))
      ensures Catalogue.KindOfKey(d) in Catalogue.AssociatedKinds(SourceKind(x))
    {
      TypeFits(x, d);
    }
  }

  lemma TypeFits(x: Source, d: Key)
    requires x.PortSource? ==> d.rtype in {"project", "network", "subnet", "security-group", "floating-ip"}
    requires x.RouterSource? ==> d.rtype in {"project", "network", "subnet"}
    requires x.UserSource? ==> d.rtype in {"domain", "project", "role"}
    requires x.LbSource? ==> d.rtype in {"project", "network", "subnet", "floating-ip"}
    ensures Catalogue.KindOfKey(d) in Catalogue.AssociatedKinds(SourceKind(x))
  {
    hide Catalogue.KindOf;
    KindNames();
  }

  /** A user reports one default project at most, and the domain before the roles. */
  lemma UserReportFits(u: User.SourceUser)
    ensures var list := User.Reported(u);
      && (forall p, q :: p in KeySet(list) && q in KeySet(list) && p.rtype == q.rtype == "project" ==> p == q)
      && (forall r :: r in KeySet(list) && r.rtype == "role" ==> Key("domain", u.domain) in Ahead(list, r))
  {
    hide User.Reported;
    UserReportTyped(u);
  }

  lemma KindNames()
    ensures Catalogue.KindOf("domain") == Catalogue.Kind.Domain
    ensures Catalogue.KindOf("project") == Catalogue.Kind.Project
    ensures Catalogue.KindOf("role") == Catalogue.Kind.Role
    ensures Catalogue.KindOf("network") == Catalogue.Kind.Network
    ensures Catalogue.KindOf("subnet") == Catalogue.Kind.Subnet
    ensures Catalogue.KindOf("security-group") == Catalogue.Kind.SecurityGroup
    ensures Catalogue.KindOf("floating-ip") == Catalogue.Kind.FloatingIp
  {
  }

  lemma PortReportTyped(cfg: Config, p: Port.SourcePort)
    ensures forall d :: d in KeySet(Port.Reported(cfg, p)) ==>
      d.rtype in {"project", "network", "subnet", "security-group", "floating-ip"}
  {
    hide Port.Reported, TypedDeps, SubnetDeps;
    Port.ReportedKeys(cfg, p);
    SubnetKeys(p.fixedIps);
    TypedKeys("security-group", Port.GroupList(p), false);
    TypedKeys("floating-ip", Port.FipList(cfg, p), true);
  }

  lemma RouterReportTyped(cfg: Config, r: Router.SourceRouter)
    ensures forall d :: d in KeySet(Router.Reported(cfg, r)) ==> d.rtype in {"project", "network", "subnet"}
  {
    hide Router.Reported, SubnetDeps;
    Router.ReportedKeys(cfg, r);
    if r.gateway.Some? { SubnetKeys(r.gateway.value.fixedIps); }
  }

  lemma LbReportTyped(cfg: Config, lb: SourceLb)
    ensures forall d :: d in KeySet(LoadBalancer.Reported(cfg, lb)) ==>
      d.rtype in {"project", "network", "subnet", "floating-ip"}
  {
    hide LoadBalancer.Reported, ListenerDeps, FipDeps;
    LoadBalancerTree.ReportedKeys(cfg, lb);
    LoadBalancerTree.ListenerDepsTyped(lb, lb.listeners);
    LoadBalancerTree.FipDepsTyped(lb.fips);
  }

  lemma UserReportTyped(u: User.SourceUser)
    ensures forall d :: d in KeySet(User.Reported(u)) ==>
      d == Key("domain", u.domain) || d.rtype == "role" || d == Key("project", u.defaultProject)
    ensures User.Reported(u) != [] && User.Reported(u)[0].key == Key("domain", u.domain)
  {
    var a, b, c := [Resource(Key("domain", u.domain), false)], IfSet("project", u.defaultProject),
      TypedDeps("role", User.Roles(u.assignments), false);
    KeySetConcat(a, b);
    KeySetConcat(a + b, c);
    TypedKeys("role", User.Roles(u.assignments), false);
    hide TypedDeps;
  }

  /** The create request the handler derives from the list it is given. */
  function RequestFor(cfg: Config, x: Source, given: seq<Migrated>): Result<Request> {
    match x
    case PortSource(p) => Port.PortRequest(cfg, p, given)
    case RouterSource(r) => Router.RouterRequest(cfg, r, given)
    case UserSource(u) => User.UserRequest(u, given)
    case LbSource(lb) => LbRequest(cfg, lb, given)
  }

  /** What cannot be created whatever was migrated. */
  function Refused(x: Source): Option<Error> {
    match x
    case PortSource(p) =>
      if p.network == "" then Some(NotFound)
      else if p.groups.None? then Some(HandlerError)
      else None
    case RouterSource(r) => if Router.Unreported(r) then Some(NotFound) else None
    case UserSource(u) => None
    case LbSource(lb) => None
  }

  /** The source resource with every reference replaced by the copy's id. */
  function ImageOf(cfg: Config, x: Source, tr: Translation): Request {
    match x
    case PortSource(p) => Port.PortImage(cfg, p, tr)
    case RouterSource(r) => Router.RouterImage(cfg, r, tr)
    case UserSource(u) => CreateUser(tr(Key("domain", u.domain)), RefImage("project", u.defaultProject, tr), u.attrs)
    case LbSource(lb) => CreateLoadBalancer(
      RefImage("subnet", lb.vipSubnet, tr), RefImage("network", lb.vipNetwork, tr),
        IdentityImage(cfg, lb.project, tr), lb.attrs)
  }

  /** What the handler attaches to the created resource `id` is the image of what the source has:
      the floating IPs of a port, the leading role assignments of a user, the tree and the floating IPs of a
      load balancer. */
  ghost predicate PartsAreImages(cfg: Config, x: Source, given: seq<Migrated>, tr: Translation, id: string) {
    match x
    case PortSource(p) =>
      Port.Updates(cfg, p, given, id) ==
        if cfg.preservePortFloatingIp then Port.Attachments(IdImages("floating-ip", p.fips, tr), id) else []
    case RouterSource(r) => true
    case UserSource(u) =>
      User.RecreateAll(u.assignments, given, id) == AssignmentsOf(u, tr, id)
    case LbSource(lb) =>
      && (forall destPort, name: Naming, n: nat ::
            LoadBalancerTree.Fresh(name) ==> TreeCopied(lb, given, tr, destPort, name, n))
      && forall destPort, name: Naming, n: nat :: FipsMoved(lb, given, tr, destPort, name, n)
  }

  function AssignmentsOf(u: User.SourceUser, tr: Translation, id: string): seq<Request> {
    User.AssignmentImages(User.Leading(u, u.assignments), tr, id) + User.LastRead(u, u.assignments, tr)
  }

  predicate TreeCopied(lb: SourceLb, given: seq<Migrated>, tr: Translation, destPort: string, name: Naming, n: nat) {
    LoadBalancerTree.TreeImage(lb, |lb.listeners|,
      LoadBalancerTree.ApplyAll([], Plan(lb, given, destPort, name, n), name, n + 1), tr)
  }

  /** The plan waits for the load balancer and builds its children, and then does nothing but move the floating IPs,
      all of them in order, if both VIP ports are set. */
  ghost predicate FipsMoved(lb: SourceLb, given: seq<Migrated>, tr: Translation, destPort: string, name: Naming,
          n: nat) {
    exists m :: LoadBalancerTree.MovesFips(lb, Plan(lb, given, destPort, name, n), m, name(n), tr, destPort)
  }

  /** A covering list makes the handler create the image, or refuse for a reason of its own. */
  lemma CoveredIsImage(cfg: Config, x: Source, given: seq<Migrated>, tr: Translation, id: string)
    requires Covers(given, ReportedBy(cfg, x), tr)
    ensures RequestFor(cfg, x, given) == if Refused(x).Some? then Err(Refused(x).value) else Ok(ImageOf(cfg, x, tr))
    ensures PartsAreImages(cfg, x, given, tr, id)
  {
    match x {
      case PortSource(p) => Port.PortIsImageIff(cfg, p, given, tr, id);
      case RouterSource(r) => Router.RouterIsImageIff(cfg, r, given, tr);
      case UserSource(u) => User.UserIsImage(u, given, tr, id);
      case LbSource(lb) =>
        LoadBalancerTree.LookupsSucceed(cfg, lb, given, tr);
        forall destPort, name: Naming, n: nat | LoadBalancerTree.Fresh(name)
          ensures TreeCopied(lb, given, tr, destPort, name, n)
        {
          LoadBalancerTree.PlanBuildsImage(cfg, lb, given, tr, destPort, name, n);
        }
        forall destPort, name: Naming, n: nat ensures FipsMoved(lb, given, tr, destPort, name, n) {
          LoadBalancerTree.PlanMovesFips(cfg, lb, given, tr, destPort, name, n);
        }
    }
  }

  /** The world's dependency graph is what the handlers report for these source resources. */
  predicate Reports(w: World, cfg: Config, sources: map<Key, Source>) {
    forall k :: k in sources ==> DepsOf(w, k) == ReportedBy(cfg, sources[k])
  }

  /** The recorded destination id of every resource at the end of a run. */
  function Recorded(t: State): Translation {
    k => DestOf(t, k)
  }

  /** Create call `i` of `k`, in the light of the final state `t`: all that `k` depends on is migrated,
      the request is the image of `k` under the recorded ids, and so are its parts. */
  ghost predicate CreatedImage(cfg: Config, x: Source, t: State, i: nat)
    requires i < |t.trace| && t.trace[i].call.Create?
  {
    var given, tr := t.trace[i].call.given, Recorded(t);
    && (forall d :: d in KeySet(ReportedBy(cfg, x)) ==> Done(t, d) && tr(d) != "")
    && RequestFor(cfg, x, given) == (if Refused(x).Some? then Err(Refused(x).value) else Ok(ImageOf(cfg, x, tr)))
    && (t.trace[i].ok ==> Done(t, t.trace[i].call.key) && tr(t.trace[i].call.key) == t.trace[i].id)
    && PartsAreImages(cfg, x, given, tr, t.trace[i].id)
  }

  /** Over any run of start, start-batch and cleanup-source, every resource is created as the image of
      its source under the destination ids recorded at the end. */
  lemma DestinationGraphIsImage(w: World, s: State, cs: seq<Command>, cfg: Config, sources: map<Key, Source>)
    requires NoRegister(cs) && Reports(w, cfg, sources)
    ensures var t := Run(w, s, cs);
      && s.trace <= t.trace
      && forall i: nat :: |s.trace| <= i < |t.trace| && t.trace[i].call.Create? && t.trace[i].call.key in sources ==>
           CreatedImage(cfg, sources[t.trace[i].call.key], t, i)
  {
    hide Run, Newest;
    var t := Run(w, s, cs);
    DestinationIsImage(w, s, cs);
    forall i: nat | |s.trace| <= i < |t.trace| && t.trace[i].call.Create? && t.trace[i].call.key in sources
      ensures CreatedImage(cfg, sources[t.trace[i].call.key], t, i)
    {
      var k := t.trace[i].call.key;
      assert ImageAt(w, s, t, i);
      TranslatedImage(cfg, sources[k], t, i, DepsOf(w, k));
    }
  }

  lemma TranslatedImage(cfg: Config, x: Source, t: State, i: nat, deps: seq<Resource>)
    requires i < |t.trace| && t.trace[i].call.Create? && deps == ReportedBy(cfg, x)
    requires Translates(t, t.trace[i].call.given, deps)
    requires t.trace[i].ok ==> Done(t, t.trace[i].call.key) && DestOf(t, t.trace[i].call.key) == t.trace[i].id
    ensures CreatedImage(cfg, x, t, i)
  {
    hide Newest, PartsAreImages, RequestFor, ImageOf, ReportedBy, Refused;
    var given := t.trace[i].call.given;
    TranslatesCovers(t, given, deps);
    assert Covers(given, deps, Recorded(t));
    CoveredIsImage(cfg, x, given, Recorded(t), t.trace[i].id);
    forall d | d in KeySet(deps) ensures Done(t, d) && DestOf(t, d) != "" { InKeySet(deps, d); }
  }
}
