/** The graph-copying handlers on a destination cloud, behind the manager: what the cloud holds at the end
    of a run. */
module CloudImage {
  import opened Store
  import opened World
  import opened Orchestration
  import opened Commands
  import opened Safety
  import opened DryRun
  import opened Members
  import opened Connections
  import opened Base
  import opened Destination
  import opened LoadBalancer
  import opened GraphImage
  import LoadBalancerTree

  /** The destination cloud: what it refuses, the ids it gives, and the VIP port it gives a load balancer.
      `before` are the requests it had accepted at first, and `others` those it accepts during a call of
      any other handler. */
  datatype CloudView = CloudView(
    refuses: Refusal,
    conflicts: Refusal,
    name: Naming,
    vipPort: Key -> string,
    before: seq<Request>,
    others: seq<Event> -> seq<Request>)

  // ---- A create call ----

  /** The requests a handler must get accepted for its create call to return, the first at position `n` of
      the log; a user is taken not to exist at the destination yet. */
  function Needed(cfg: Config, x: Source, given: seq<Migrated>, vipPort: string, name: Naming,
          n: nat): Result<seq<Request>> {
    var request := RequestFor(cfg, x, given);
    if request.Err? then Err(request.error)
    else
      match x
      case PortSource(p) =>
        var attach := Port.Updates(cfg, p, given, name(n));
        if cfg.preservePortFloatingIp && |attach| < |p.fips| then Err(NotFound) else Ok([request.value] + attach)
      case RouterSource(r) => Ok([request.value])
      case UserSource(u) => Ok([request.value])
      case LbSource(lb) => Ok([request.value] + Plan(lb, given, vipPort, name, n))
  }

  /** The requests it issues as long as none is refused. */
  function Issued(cfg: Config, x: Source, given: seq<Migrated>, vipPort: string, name: Naming, n: nat): seq<Request> {
    var request := RequestFor(cfg, x, given);
    if request.Err? then []
    else
      [request.value] +
      match x
      case PortSource(p) => Port.Updates(cfg, p, given, name(n))
      case RouterSource(r) => []
      case UserSource(u) => User.RecreateAll(u.assignments, given, name(n))
      case LbSource(lb) => Plan(lb, given, vipPort, name, n)
  }

  /** perform_individual_migration of the resource's handler returns exactly when the cloud accepts what it
      needs, and issues what it issues up to the first request that is refused. */
  method PerformIndividualMigration(cfg: Config, cloud: Cloud, x: Source, given: seq<Migrated>, vipPort: string)
    returns (r: Result<string>)
    modifies cloud`log
    ensures var log, n := old(cloud.log), |old(cloud.log)|;
      var need := Needed(cfg, x, given, vipPort, cloud.name, n);
      && (r.Ok? <==> need.Ok? && Accepts(cloud.raises, log, need.value))
      && (r.Ok? ==> r.value == cloud.name(n))
      && cloud.log == Carried(cloud.raises, log, Issued(cfg, x, given, vipPort, cloud.name, n))
  {
    ghost var log := cloud.log;
    match x {
      case PortSource(p) =>
        var handler := new Port.PortHandler(cfg, cloud);
        r := handler.PerformIndividualMigration(p, given);
      case RouterSource(router) =>
        var handler := new Router.RouterHandler(cfg, cloud, (log, req) => false);
        r := handler.PerformIndividualMigration(router, given);
        CarriedOne(cloud.raises, log, Router.RouterRequest(cfg, router, given), []);
      case UserSource(u) =>
        var handler := new User.UserHandler(cloud);
        r := handler.PerformIndividualMigration(u, given, None);
        CarriedOne(cloud.raises, log, User.UserRequest(u, given),
          User.RecreateAll(u.assignments, given, cloud.name(|log|)));
      case LbSource(lb) =>
        var handler := new LoadBalancerHandler(cfg, cloud);
        r := handler.PerformIndividualMigration(lb, given, vipPort);
    }
  }

  lemma CarriedOne(refuses: Refusal, log: seq<Request>, req: Result<Request>, rest: seq<Request>)
    ensures req.Ok? ==> (Accepts(refuses, log, [req.value]) <==> !refuses(log, req.value))
    ensures req.Ok? ==>
      Carried(refuses, log, [req.value] + rest) ==
        if refuses(log, req.value) then log else Carried(refuses, log + [req.value], rest)
    ensures Carried(refuses, log, []) == log
  {
    if req.Ok? {
      assert [req.value][1..] == [] && ([req.value] + rest)[1..] == rest;
    }
  }

  // ---- The cloud behind the manager's calls ----

  /** What the cloud has accepted after the calls `tr`. */
  function CloudLog(cfg: Config, sources: map<Key, Source>, d: CloudView, tr: seq<Event>): seq<Request>
    decreases |tr|
  {
    if tr == [] then d.before
    else AfterCall(cfg, sources, d, tr, CloudLog(cfg, sources, d, tr[..|tr| - 1]))
  }

  /** The same, given what it had accepted before the last of them. */
  function AfterCall(cfg: Config, sources: map<Key, Source>, d: CloudView, tr: seq<Event>,
          log: seq<Request>): (r: seq<Request>)
    requires tr != []
    ensures log <= r
  {
    var call := tr[|tr| - 1].call;
    if call.Create? && call.key in sources then
      Carried(d.refuses, log, Issued(cfg, sources[call.key], call.given, d.vipPort(call.key), d.name, |log|))
    else if call.Connect? && IsRouter(sources, call.key) then
      InterfacesGrow(d, log, call.parent, call.members);
      Router.Interfaces(d.refuses, d.conflicts, log, call.parent, call.members).0
    else log + d.others(tr)
  }

  predicate IsRouter(sources: map<Key, Source>, k: Key) {
    k in sources && sources[k].RouterSource?
  }

  lemma {:induction false} InterfacesGrow(d: CloudView, log: seq<Request>, router: string, members: seq<Migrated>)
    ensures log <= Router.Interfaces(d.refuses, d.conflicts, log, router, members).0
    decreases |members|
  {
    if members != [] {
      var req := AddInterface(router, members[0].dest);
      InterfacesGrow(d, if d.refuses(log, req) then log else log + [req], router, members[1..]);
    }
  }

  lemma {:induction false} CloudLogGrows(cfg: Config, sources: map<Key, Source>, d: CloudView, tr: seq<Event>, i: nat)
    requires i <= |tr|
    ensures CloudLog(cfg, sources, d, tr[..i]) <= CloudLog(cfg, sources, d, tr)
    decreases |tr|
  {
    if i < |tr| {
      assert tr[..|tr| - 1][..i] == tr[..i];
      CloudLogGrows(cfg, sources, d, tr[..|tr| - 1], i);
    } else {
      assert tr[..i] == tr;
    }
  }

  lemma CloudLogStep(cfg: Config, sources: map<Key, Source>, d: CloudView, tr: seq<Event>, i: nat)
    requires i < |tr|
    ensures CloudLog(cfg, sources, d, tr[..i + 1]) ==
      AfterCall(cfg, sources, d, tr[..i + 1], CloudLog(cfg, sources, d, tr[..i]))
  {
    assert tr[..i + 1][..i] == tr[..i];
  }

  /** The create call of a handler on that cloud, after the calls `tr`, does not return. */
  predicate CreateRefused(cfg: Config, x: Source, d: CloudView, log: seq<Request>, k: Key, given: seq<Migrated>) {
    var need := Needed(cfg, x, given, d.vipPort(k), d.name, |log|);
    need.Err? || !Accepts(d.refuses, log, need.value)
  }

  predicate CloudRaises(w: World, cfg: Config, sources: map<Key, Source>, d: CloudView, tr: seq<Event>, call: Call) {
    var log := CloudLog(cfg, sources, d, tr);
    if call.Create? && call.key in sources then CreateRefused(cfg, sources[call.key], d, log, call.key, call.given)
    else if call.Connect? && IsRouter(sources, call.key) then
      !Router.Interfaces(d.refuses, d.conflicts, log, call.parent, call.members).1
    else w.raises(tr, call)
  }

  function CloudId(w: World, cfg: Config, sources: map<Key, Source>, d: CloudView, tr: seq<Event>, k: Key): Id {
    if k in sources then d.name(|CloudLog(cfg, sources, d, tr)|) else w.newId(tr, k)
  }

  /** The world whose create and connect calls for `sources` are those of the handlers on that cloud. */
  function OnCloud(w: World, cfg: Config, sources: map<Key, Source>, d: CloudView): World {
    w.(
      raises := (tr: seq<Event>, call: Call) => CloudRaises(w, cfg, sources, d, tr, call),
      newId := (tr: seq<Event>, k: Key) => CloudId(w, cfg, sources, d, tr, k))
  }

  // ---- What the cloud holds at the end ----

  /** What is needed, with every reference replaced by the recorded id; the create request is the first. */
  function NeededImage(cfg: Config, x: Source, given: seq<Migrated>, tr: Translation, vipPort: string, name: Naming,
          n: nat): seq<Request> {
    [ImageOf(cfg, x, tr)] +
      match x
      case PortSource(p) =>
        if cfg.preservePortFloatingIp then Port.Attachments(IdImages("floating-ip", p.fips, tr), name(n)) else []
      case RouterSource(r) => []
      case UserSource(u) => []
      case LbSource(lb) => Plan(lb, given, vipPort, name, n)
  }

  /** What follows it as far as it is accepted: the leading role assignments of a user. */
  function ExtraImage(x: Source, tr: Translation, id: string): seq<Request> {
    if x.UserSource? then AssignmentsOf(x.user, tr, id) else []
  }

  lemma ImagesIssued(cfg: Config, x: Source, given: seq<Migrated>, tr: Translation, vipPort: string, name: Naming,
          n: nat)
    requires Covers(given, ReportedBy(cfg, x), tr)
    ensures Needed(cfg, x, given, vipPort, name, n) ==
      if Refused(x).Some? then Err(Refused(x).value) else Ok(NeededImage(cfg, x, given, tr, vipPort, name, n))
    ensures Refused(x).None? ==>
      Issued(cfg, x, given, vipPort, name, n) ==
        NeededImage(cfg, x, given, tr, vipPort, name, n) + ExtraImage(x, tr, name(n))
  {
    hide ReportedBy, RequestFor, ImageOf, Refused, Covers, Plan, AssignmentsOf;
    CoveredIsImage(cfg, x, given, tr, name(n));
    assert [ImageOf(cfg, x, tr)] + [] == [ImageOf(cfg, x, tr)];
  }

  /** At its position `n` the log holds the image of `x` under the ids recorded in `t`, with all that is
      attached to it, and goes on with a user's role assignments up to the first that was refused. */
  ghost predicate HeldAt(cfg: Config, k: Key, x: Source, d: CloudView, given: seq<Migrated>, t: State,
          log: seq<Request>, n: nat) {
    var tr := Recorded(t);
    var need, extra := NeededImage(cfg, x, given, tr, d.vipPort(k), d.name, n), ExtraImage(x, tr, d.name(n));
    && Refused(x).None? && DestOf(t, k) == d.name(n)
    && n + |need| <= |log| && log[n..n + |need|] == need
    && Carried(d.refuses, log[..n + |need|], extra) <= log
    && PartsAreImages(cfg, x, given, tr, d.name(n))
  }

  /** The position at which create call `i` found the log. */
  function Place(cfg: Config, sources: map<Key, Source>, d: CloudView, t: State, i: nat): nat
    requires i < |t.trace|
  {
    |CloudLog(cfg, sources, d, t.trace[..i])|
  }

  /** Over any run with the handlers on such a cloud, the cloud holds at its end the image of every source
      created, under the recorded ids, where its own recorded id says; and no two share a place. */
  lemma CloudHoldsImages(w: World, s: State, cs: seq<Command>, cfg: Config, sources: map<Key, Source>, d: CloudView)
    requires NoRegister(cs) && Reports(w, cfg, sources)
    ensures var t := Run(OnCloud(w, cfg, sources, d), s, cs);
      var log := CloudLog(cfg, sources, d, t.trace);
      && s.trace <= t.trace
      && (forall i: nat, k :: |s.trace| <= i && CreatedAt(t.trace, i, k) && k in sources ==>
            HeldAt(cfg, k, sources[k], d, t.trace[i].call.given, t, log, Place(cfg, sources, d, t, i)))
      && (forall i: nat, j: nat, k :: |s.trace| <= i < j < |t.trace| && CreatedAt(t.trace, i, k) && k in sources ==>
            Place(cfg, sources, d, t, i) < Place(cfg, sources, d, t, j))
  {
    hide Run, Newest, HeldAt, CloudRaises, AfterCall, Place;
    var cloud := OnCloud(w, cfg, sources, d);
    var t := Run(cloud, s, cs);
    DestinationIsImage(cloud, s, cs);
    RunRecordsTruly(cloud, s, cs);
    forall i: nat, k | |s.trace| <= i && CreatedAt(t.trace, i, k) && k in sources
      ensures HeldAt(cfg, k, sources[k], d, t.trace[i].call.given, t, CloudLog(cfg, sources, d, t.trace),
        Place(cfg, sources, d, t, i))
      ensures forall j: nat :: i < j < |t.trace| ==> Place(cfg, sources, d, t, i) < Place(cfg, sources, d, t, j)
    {
      assert ImageAt(cloud, s, t, i) && TrueEvent(cloud, t.trace, i);
      CreatedIsHeld(w, cfg, k, sources, d, t, i);
    }
  }

  lemma CreatedIsHeld(w: World, cfg: Config, k: Key, sources: map<Key, Source>, d: CloudView, t: State, i: nat)
    requires CreatedAt(t.trace, i, k) && k in sources && Reports(w, cfg, sources)
    requires Translates(t, t.trace[i].call.given, DepsOf(w, k))
    requires DestOf(t, k) == t.trace[i].id == CloudId(w, cfg, sources, d, t.trace[..i], k)
    requires !CloudRaises(w, cfg, sources, d, t.trace[..i], t.trace[i].call)
    ensures HeldAt(cfg, k, sources[k], d, t.trace[i].call.given, t, CloudLog(cfg, sources, d, t.trace),
      Place(cfg, sources, d, t, i))
    ensures forall j: nat :: i < j < |t.trace| ==> Place(cfg, sources, d, t, i) < Place(cfg, sources, d, t, j)
  {
    hide Newest, PartsAreImages, ReportedBy, Refused, NeededImage, ExtraImage, Accepts, Carried, CloudLog, AfterCall,
      CloudRaises, Covers, Translates;
    var x, given, tr := sources[k], t.trace[i].call.given, Recorded(t);
    var log, all := CloudLog(cfg, sources, d, t.trace[..i]), CloudLog(cfg, sources, d, t.trace);
    TranslatesCovers(t, given, DepsOf(w, k));
    assert Covers(given, ReportedBy(cfg, x), tr);
    CoveredIsImage(cfg, x, given, tr, d.name(|log|));
    CreateLogs(w, cfg, k, sources, d, t.trace, i, tr);
    CloudLogGrows(cfg, sources, d, t.trace, i + 1);
    var need := NeededImage(cfg, x, given, tr, d.vipPort(k), d.name, |log|);
    var after := Carried(d.refuses, log + need, ExtraImage(x, tr, d.name(|log|)));
    Block(log, need, after, all);
    NeededNotEmpty(cfg, x, given, tr, d.vipPort(k), d.name, |log|);
    LaterPlaces(cfg, sources, d, t, i);
  }

  lemma LaterPlaces(cfg: Config, sources: map<Key, Source>, d: CloudView, t: State, i: nat)
    requires i < |t.trace|
    ensures forall j: nat :: i < j < |t.trace| ==>
      |CloudLog(cfg, sources, d, t.trace[..i + 1])| <= Place(cfg, sources, d, t, j)
  {
    hide CloudLog;
    forall j: nat | i < j < |t.trace|
      ensures |CloudLog(cfg, sources, d, t.trace[..i + 1])| <= Place(cfg, sources, d, t, j)
    {
      assert t.trace[..j][..i + 1] == t.trace[..i + 1];
      CloudLogGrows(cfg, sources, d, t.trace[..j], i + 1);
    }
  }

  /** A create call that returned has put the image, and a user's assignments, at the end of the log. */
  lemma CreateLogs(w: World, cfg: Config, k: Key, sources: map<Key, Source>, d: CloudView, calls: seq<Event>, i: nat,
          tr: Translation)
    requires CreatedAt(calls, i, k) && k in sources && Covers(calls[i].call.given, ReportedBy(cfg, sources[k]), tr)
    requires !CloudRaises(w, cfg, sources, d, calls[..i], calls[i].call)
    ensures var x, given, log := sources[k], calls[i].call.given, CloudLog(cfg, sources, d, calls[..i]);
      var need := NeededImage(cfg, x, given, tr, d.vipPort(k), d.name, |log|);
      && Refused(x).None?
      && CloudLog(cfg, sources, d, calls[..i + 1]) ==
           Carried(d.refuses, log + need, ExtraImage(x, tr, d.name(|log|)))
  {
    hide ReportedBy, Refused, NeededImage, ExtraImage, Accepts, Carried, CloudLog, Needed, Issued, Covers;
    var x, given, log := sources[k], calls[i].call.given, CloudLog(cfg, sources, d, calls[..i]);
    ImagesIssued(cfg, x, given, tr, d.vipPort(k), d.name, |log|);
    CarriedConcat(d.refuses, log, NeededImage(cfg, x, given, tr, d.vipPort(k), d.name, |log|),
      ExtraImage(x, tr, d.name(|log|)));
    CloudLogStep(cfg, sources, d, calls, i);
  }

  lemma Block(log: seq<Request>, need: seq<Request>, after: seq<Request>, all: seq<Request>)
    requires log + need <= after <= all
    ensures |log| + |need| <= |all| && all[|log|..|log| + |need|] == need && all[..|log| + |need|] == log + need
  {
    assert all[..|log| + |need|] == log + need;
  }

  lemma NeededNotEmpty(cfg: Config, x: Source, given: seq<Migrated>, tr: Translation, vipPort: string, name: Naming,
          n: nat)
    ensures NeededImage(cfg, x, given, tr, vipPort, name, n) != []
  {
  }

  /** So, when the cloud gives no id twice, no two of the resources have the same copy. */
  lemma CopiesAreDistinct(w: World, s: State, cs: seq<Command>, cfg: Config, sources: map<Key, Source>, d: CloudView,
          i: nat, j: nat, k: Key, h: Key)
    requires NoRegister(cs) && Reports(w, cfg, sources) && LoadBalancerTree.Fresh(d.name)
    requires k in sources && h in sources && |s.trace| <= i < j
    requires var t := Run(OnCloud(w, cfg, sources, d), s, cs); CreatedAt(t.trace, i, k) && CreatedAt(t.trace, j, h)
    ensures var t := Run(OnCloud(w, cfg, sources, d), s, cs); DestOf(t, k) != DestOf(t, h)
  {
    hide Run, Newest, Place;
    CloudHoldsImages(w, s, cs, cfg, sources, d);
  }

  // ---- Router interfaces ----

  /** The interface of router `k` to the copy of its member `j`, under the ids recorded in `t`. */
  function InterfaceTo(t: State, k: Key, j: Key): Request {
    AddInterface(DestOf(t, k), DestOf(t, j))
  }

  ghost function Handed(out: seq<Migrated>): iset<Key> {
    iset j | Listed(out, j)
  }

  /** The members of `k` that nothing started before them led to. */
  ghost function InTheirTurn(w: World, s: State, k: Key, f: Flags): iset<Key> {
    iset i: nat | i < |MembersOf(w, k)| && InTurn(w, s, k, f, i) :: MembersOf(w, k)[i].key
  }

  /** `out` says which members the router's copy has an interface to after connect call `i`, besides those
      it had before; and the cloud keeps them. */
  ghost predicate InterfacesAt(cfg: Config, sources: map<Key, Source>, d: CloudView, t: State, k: Key, out: iset<Key>,
          i: nat) {
    && ConnectAt(t.trace, i, k) && t.trace[i].ok
    && var before, after := CloudLog(cfg, sources, d, t.trace[..i]), CloudLog(cfg, sources, d, t.trace[..i + 1]);
      && before <= after <= CloudLog(cfg, sources, d, t.trace)
      && forall req :: req in after <==> req in before || exists j :: j in out && req == InterfaceTo(t, k, j)
  }

  /** Every connect call of a start on an unmigrated router returns, and gives its copy an interface to the
      copy of every member it is handed, and no other. */
  lemma ConnectedHaveInterfaces(w: World, s: State, k: Key, cleanup: bool, f: Flags, cfg: Config,
          sources: map<Key, Source>, d: CloudView)
    requires IsRouter(sources, k) && f.members && !Done(s, k)
    requires var r := Perform(OnCloud(w, cfg, sources, d), s, k, cleanup, f);
      r.res.Ok? && Router.RefusesDuplicates(d.refuses, d.conflicts, DestOf(r.st, k))
    ensures var cloud := OnCloud(w, cfg, sources, d);
      var t, out := Perform(cloud, s, k, cleanup, f).st, Connected(cloud, s, k, cleanup, f);
      && (exists i: nat :: |s.trace| <= i && ConnectAt(t.trace, i, k))
      && forall i: nat :: |s.trace| <= i && ConnectAt(t.trace, i, k) ==>
           InterfacesAt(cfg, sources, d, t, k, Handed(out), i)
  {
    hide Perform, Connected, Newest, CloudLog, OnCloud;
    var cloud := OnCloud(w, cfg, sources, d);
    var t, out := Perform(cloud, s, k, cleanup, f).st, Connected(cloud, s, k, cleanup, f);
    StartConnects(cloud, s, k, cleanup, f);
    ConnectedIds(cloud, s, k, cleanup, f);
    RunOfOne(cloud, s, Start(k, cleanup, f));
    RunRecordsTruly(cloud, s, [Start(k, cleanup, f)]);
    forall i: nat | |s.trace| <= i && ConnectAt(t.trace, i, k)
      ensures InterfacesAt(cfg, sources, d, t, k, Handed(out), i)
    {
      assert TrueEvent(cloud, t.trace, i);
      ConnectLogs(w, cfg, sources, d, t, k, out, i);
    }
  }

  lemma ConnectLogs(w: World, cfg: Config, sources: map<Key, Source>, d: CloudView, t: State, k: Key,
          out: seq<Migrated>, i: nat)
    requires IsRouter(sources, k) && Router.RefusesDuplicates(d.refuses, d.conflicts, DestOf(t, k))
    requires ConnectAt(t.trace, i, k) && t.trace[i].call == Connect(k, DestOf(t, k), out)
    requires TrueEvent(OnCloud(w, cfg, sources, d), t.trace, i)
    requires forall x :: 0 <= x < |out| ==> out[x].dest == DestOf(t, out[x].key)
    ensures InterfacesAt(cfg, sources, d, t, k, Handed(out), i)
  {
    hide Newest, CloudLog;
    var log, router := CloudLog(cfg, sources, d, t.trace[..i]), DestOf(t, k);
    CloudLogStep(cfg, sources, d, t.trace, i);
    CloudLogGrows(cfg, sources, d, t.trace, i + 1);
    Router.AllMembersConnected(d.refuses, d.conflicts, log, router, out, |log|);
    forall req
      ensures Router.IsInterfaceOf(req, router, out) <==> exists j :: Listed(out, j) && req == InterfaceTo(t, k, j)
    {
      if x :| 0 <= x < |out| && req == AddInterface(router, out[x].dest) {
        assert Listed(out, out[x].key) && req == InterfaceTo(t, k, out[x].key);
      }
      if j :| Listed(out, j) && req == InterfaceTo(t, k, j) {
        var x :| 0 <= x < |out| && out[x].key == j;
        assert req == AddInterface(router, out[x].dest);
      }
    }
  }

  /** When nothing is refused or in progress and handlers do not raise: after a start that is not
      entangled the router's copy has an interface to the copy of exactly those members that were
      unsettled, and to which nothing started before them led. */
  lemma RouterInterfacesIff(w: World, s: State, k: Key, cleanup: bool, f: Flags, v: set<Key>, cfg: Config,
          sources: map<Key, Source>, d: CloudView)
    requires IsRouter(sources, k) && Smooth(OnCloud(w, cfg, sources, d), s, f, v, k)
    requires var r := Perform(OnCloud(w, cfg, sources, d), s, k, cleanup, f);
      Router.RefusesDuplicates(d.refuses, d.conflicts, DestOf(r.st, k))
    ensures var cloud := OnCloud(w, cfg, sources, d);
      var r := Perform(cloud, s, k, cleanup, f);
      && r.res.Ok?
      && exists i: nat ::
           |s.trace| <= i && InterfacesAt(cfg, sources, d, r.st, k, InTheirTurn(cloud, s, k, f), i)
  {
    hide Perform, Connected, Newest, InTurn, InterfacesAt, OnCloud;
    var cloud := OnCloud(w, cfg, sources, d);
    var t, out := Perform(cloud, s, k, cleanup, f).st, Connected(cloud, s, k, cleanup, f);
    ConnectedIff(cloud, s, k, cleanup, f, v, k);
    ConnectedHaveInterfaces(w, s, k, cleanup, f, cfg, sources, d);
    forall j ensures j in Handed(out) <==> j in InTheirTurn(cloud, s, k, f) {
      ConnectedIff(cloud, s, k, cleanup, f, v, j);
    }
    assert Handed(out) == InTheirTurn(cloud, s, k, f);
  }

  // ---- A cloud that refuses nothing but duplicate interfaces ----

  predicate NoInterfaces(reqs: seq<Request>) {
    forall i :: 0 <= i < |reqs| ==> !reqs[i].AddInterface?
  }

  lemma {:induction false} FipsNoInterfaces(fips: seq<string>, given: seq<Migrated>, port: string)
    ensures NoInterfaces(FipBlock(fips, given, port))
    decreases |fips|
  {
    if fips != [] { FipsNoInterfaces(fips[1..], given, port); }
  }

  lemma NeededNoInterfaces(cfg: Config, x: Source, given: seq<Migrated>, tr: Translation, vipPort: string,
          name: Naming, n: nat)
    ensures NoInterfaces(NeededImage(cfg, x, given, tr, vipPort, name, n))
  {
    match x {
      case PortSource(p) =>
      case RouterSource(r) =>
      case UserSource(u) =>
      case LbSource(lb) =>
        LoadBalancerTree.BlocksOnTree(lb, given, 0, name(n), name, n + 2);
        FipsNoInterfaces(lb.fips, given, vipPort);
    }
  }

  lemma {:induction false} AcceptsPlain(refuses: Refusal, log: seq<Request>, reqs: seq<Request>)
    requires NoInterfaces(reqs) && forall log, req :: refuses(log, req) ==> req.AddInterface?
    ensures Accepts(refuses, log, reqs)
    decreases |reqs|
  {
    if reqs != [] { AcceptsPlain(refuses, log + [reqs[0]], reqs[1..]); }
  }

  /** With such a cloud, and sources that can be copied, no handler raises that would not otherwise: the
      hypotheses above can be met. */
  lemma CloudIsCalm(w: World, cfg: Config, sources: map<Key, Source>, d: CloudView)
    requires Calm(w) && Reports(w, cfg, sources) && forall k :: k in sources ==> Refused(sources[k]).None?
    requires forall log, req :: d.refuses(log, req) ==> req.AddInterface?
    ensures Calm(OnCloud(w, cfg, sources, d))
  {
    hide CloudLog;
    var cloud := OnCloud(w, cfg, sources, d);
    forall tr, k, given, dest | Complete(given, DepsOf(cloud, k), dest) ensures !cloud.raises(tr, Create(k, given)) {
      assert DepsOf(cloud, k) == DepsOf(w, k);
      if k in sources { CreateAccepted(cfg, sources[k], d, CloudLog(cfg, sources, d, tr), k, given, dest); }
    }
  }

  lemma CreateAccepted(cfg: Config, x: Source, d: CloudView, log: seq<Request>, k: Key, given: seq<Migrated>,
          dest: Translation)
    requires Covers(given, ReportedBy(cfg, x), dest) && Refused(x).None?
    requires forall log, req :: d.refuses(log, req) ==> req.AddInterface?
    ensures !CreateRefused(cfg, x, d, log, k, given)
  {
    hide Needed, NeededImage, ReportedBy, Refused, Accepts;
    ImagesIssued(cfg, x, given, dest, d.vipPort(k), d.name, |log|);
    NeededNoInterfaces(cfg, x, given, dest, d.vipPort(k), d.name, |log|);
    AcceptsPlain(d.refuses, log, NeededImage(cfg, x, given, dest, d.vipPort(k), d.name, |log|));
  }
}
