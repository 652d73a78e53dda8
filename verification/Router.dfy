/** handlers/neutron/router.py. */
module Router {
  import opened Store
  import opened World
  import opened Base
  import opened Destination

  /** An empty external_gateway_info counts as absent. */
  datatype SourceRouter = SourceRouter(project: string, gateway: Option<Gateway>, attrs: string)

  /** get_associated_resources: the gateway's subnets are reported only along with its network. */
  function Reported(cfg: Config, r: SourceRouter): seq<Resource> {
    IdentityDeps(cfg, r.project) +
      if r.gateway == None || r.gateway.value.network == "" then []
      else [Resource(Key("network", r.gateway.value.network), false)] + SubnetDeps(r.gateway.value.fixedIps)
  }

  /** The loop of _prepare_external_gateway_info: entries without a subnet are dropped. */
  function MapGatewayIps(cfg: Config, ips: seq<FixedIp>, given: seq<Migrated>): Result<seq<FixedIp>> {
    if ips == [] then Ok([])
    else if ips[0].subnet == "" then MapGatewayIps(cfg, ips[1..], given)
    else
      var subnet := Lookup(given, Key("subnet", ips[0].subnet));
      if subnet.Err? then Err(subnet.error) else
      var rest := MapGatewayIps(cfg, ips[1..], given);
      if rest.Err? then rest
      else Ok([FixedIp(subnet.value, if cfg.preserveRouterIp then ips[0].address else "")] + rest.value)
  }

  /** _prepare_external_gateway_info. */
  function PrepareGateway(cfg: Config, g: Option<Gateway>, given: seq<Migrated>): Result<Option<Gateway>> {
    if g == None then Ok(None)
    else
      var network := if g.value.network == "" then Ok("") else Lookup(given, Key("network", g.value.network));
      if network.Err? then Err(network.error) else
      var ips := MapGatewayIps(cfg, g.value.fixedIps, given);
      if ips.Err? then Err(ips.error) else Ok(Some(Gateway(network.value, g.value.snat, ips.value)))
  }

  function RouterRequest(cfg: Config, r: SourceRouter, given: seq<Migrated>): Result<Request> {
    var gateway := PrepareGateway(cfg, r.gateway, given);
    if gateway.Err? then Err(gateway.error) else
    var project := IdentityArgs(cfg, r.project, given);
    if project.Err? then Err(project.error) else Ok(CreateRouter(gateway.value, project.value, r.attrs))
  }

  // ---- The image of a router ----

  function WithSubnet(ips: seq<FixedIp>): seq<FixedIp> {
    if ips == [] then [] else (if ips[0].subnet == "" then [] else [ips[0]]) + WithSubnet(ips[1..])
  }

  function EntryImages(cfg: Config, ips: seq<FixedIp>, tr: Translation): (r: seq<FixedIp>)
    ensures |r| == |ips|
    ensures forall i :: 0 <= i < |r| ==>
      r[i] == FixedIp(tr(Key("subnet", ips[i].subnet)), if cfg.preserveRouterIp then ips[i].address else "")
  {
    if ips == [] then []
    else
      var first := FixedIp(tr(Key("subnet", ips[0].subnet)), if cfg.preserveRouterIp then ips[0].address else "");
      [first] + EntryImages(cfg, ips[1..], tr)
  }

  /** Position by position, the fixed IPs that name a subnet. */
  function GatewayIpImages(cfg: Config, ips: seq<FixedIp>, tr: Translation): seq<FixedIp> {
    EntryImages(cfg, WithSubnet(ips), tr)
  }

  function RouterImage(cfg: Config, r: SourceRouter, tr: Translation): Request {
    CreateRouter(
      if r.gateway == None then None
      else
        var g := r.gateway.value;
        Some(Gateway(RefImage("network", g.network, tr), g.snat, GatewayIpImages(cfg, g.fixedIps, tr))),
      IdentityImage(cfg, r.project, tr),
      r.attrs)
  }

  lemma {:induction false} MapGatewayIpsCovered(cfg: Config, ips: seq<FixedIp>, given: seq<Migrated>, tr: Translation)
    requires forall i :: 0 <= i < |ips| && ips[i].subnet != "" ==>
      Lookup(given, Key("subnet", ips[i].subnet)) == Ok(tr(Key("subnet", ips[i].subnet)))
    ensures MapGatewayIps(cfg, ips, given) == Ok(GatewayIpImages(cfg, ips, tr))
    decreases |ips|
  {
    if ips != [] {
      var rest := WithSubnet(ips[1..]);
      assert WithSubnet(ips) == if ips[0].subnet == "" then rest else [ips[0]] + rest;
      assert ([ips[0]] + rest)[1..] == rest;
      MapGatewayIpsCovered(cfg, ips[1..], given, tr);
    }
  }

  lemma {:induction false} MapGatewayIpsUncovered(cfg: Config, ips: seq<FixedIp>, given: seq<Migrated>)
    requires forall k: Key :: k.rtype == "subnet" ==> Lookup(given, k) == Err(NotFound)
    ensures MapGatewayIps(cfg, ips, given) == if WithSubnet(ips) == [] then Ok([]) else Err(NotFound)
    decreases |ips|
  {
    if ips != [] { MapGatewayIpsUncovered(cfg, ips[1..], given); }
  }

  /** The gateway asks for subnets without naming a network. */
  predicate Unreported(r: SourceRouter) {
    r.gateway.Some? && r.gateway.value.network == "" && WithSubnet(r.gateway.value.fixedIps) != []
  }

  /** Given the list the manager passes, the request is the image of the source router exactly when
      the gateway names a network or asks for no subnet; otherwise the lookup raises. */
  lemma RouterIsImageIff(cfg: Config, r: SourceRouter, given: seq<Migrated>, tr: Translation)
    requires Covers(given, Reported(cfg, r), tr)
    ensures RouterRequest(cfg, r, given) == if Unreported(r) then Err(NotFound) else Ok(RouterImage(cfg, r, tr))
  {
    var list := Reported(cfg, r);
    LookupsCovered(given, list, tr);
    ReportedKeys(cfg, r);
    if r.gateway.Some? {
      var ips := r.gateway.value.fixedIps;
      SubnetKeys(ips);
      if r.gateway.value.network != "" {
        MapGatewayIpsCovered(cfg, ips, given, tr);
      } else {
        NoSubnetInImage(cfg, ips, tr);
        MapGatewayIpsUncovered(cfg, ips, given);
      }
    }
  }

  lemma NoSubnetInImage(cfg: Config, ips: seq<FixedIp>, tr: Translation)
    ensures WithSubnet(ips) == [] ==> GatewayIpImages(cfg, ips, tr) == []
  {
  }

  lemma ReportedKeys(cfg: Config, r: SourceRouter)
    ensures KeySet(Reported(cfg, r)) == KeySet(IdentityDeps(cfg, r.project)) +
      if r.gateway == None || r.gateway.value.network == "" then {}
      else {Key("network", r.gateway.value.network)} + KeySet(SubnetDeps(r.gateway.value.fixedIps))
  {
    var a := IdentityDeps(cfg, r.project);
    if r.gateway == None || r.gateway.value.network == "" {
      assert a + [] == a;
    } else {
      var b := [Resource(Key("network", r.gateway.value.network), false)];
      KeySetConcat(b, SubnetDeps(r.gateway.value.fixedIps));
      KeySetConcat(a, b + SubnetDeps(r.gateway.value.fixedIps));
    }
  }

  // ---- connect_member_resources_to_parent ----

  /** One interface per member; a conflict is swallowed, any other raise ends the loop.  The log and
      whether the loop came to its end. */
  function Interfaces(raises: Refusal, conflicts: Refusal, log: seq<Request>, router: string,
          members: seq<Migrated>): (seq<Request>, bool)
    decreases |members|
  {
    if members == [] then (log, true)
    else
      var req := AddInterface(router, members[0].dest);
      if !raises(log, req) then Interfaces(raises, conflicts, log + [req], router, members[1..])
      else if conflicts(log, req) then Interfaces(raises, conflicts, log, router, members[1..])
      else (log, false)
  }

  lemma {:induction false} InterfacesConcat(raises: Refusal, conflicts: Refusal, log: seq<Request>, router: string,
          a: seq<Migrated>, b: seq<Migrated>)
    ensures var r := Interfaces(raises, conflicts, log, router, a);
      Interfaces(raises, conflicts, log, router, a + b) ==
        if r.1 then Interfaces(raises, conflicts, r.0, router, b) else r
    decreases |a|
  {
    if a == [] {
      assert a + b == b;
    } else {
      var req := AddInterface(router, a[0].dest);
      assert (a + b)[1..] == a[1..] + b;
      InterfacesConcat(raises, conflicts, if raises(log, req) then log else log + [req], router, a[1..], b);
    }
  }

  /** The turn of member `n`: its interface is added unless that raises, and the loop goes on unless it has ended
      before or this raise is no conflict. */
  lemma InterfaceTurn(raises: Refusal, conflicts: Refusal, log: seq<Request>, router: string,
          members: seq<Migrated>, n: nat)
    requires n < |members|
    ensures var before := Interfaces(raises, conflicts, log, router, members[..n]);
      var after := Interfaces(raises, conflicts, log, router, members[..n + 1]);
      var req := AddInterface(router, members[n].dest);
      if !before.1 then after == before
      else
        && after.0 == (if raises(before.0, req) then before.0 else before.0 + [req])
        && (after.1 <==> raises(before.0, req) ==> conflicts(before.0, req))
  {
    var one := [members[n]];
    assert members[..n + 1] == members[..n] + one && one[1..] == [];
    InterfacesConcat(raises, conflicts, log, router, members[..n], one);
  }

  /** At its turn member `n` raises, and not a conflict. */
  predicate FailsAt(raises: Refusal, conflicts: Refusal, log: seq<Request>, router: string,
          members: seq<Migrated>, n: nat) {
    && n < |members|
    && var before := Interfaces(raises, conflicts, log, router, members[..n]);
       var req := AddInterface(router, members[n].dest);
       before.1 && raises(before.0, req) && !conflicts(before.0, req)
  }

  /** The loop raises exactly when some member does, other than with a conflict; and nothing is added from that
      member on. */
  lemma ConnectRaisesIff(raises: Refusal, conflicts: Refusal, log: seq<Request>, router: string,
          members: seq<Migrated>)
    ensures var r := Interfaces(raises, conflicts, log, router, members);
      && (!r.1 <==> exists n: nat :: FailsAt(raises, conflicts, log, router, members, n))
      && forall n: nat :: FailsAt(raises, conflicts, log, router, members, n) ==>
           r == (Interfaces(raises, conflicts, log, router, members[..n]).0, false)
  {
    forall n: nat | FailsAt(raises, conflicts, log, router, members, n)
      ensures Interfaces(raises, conflicts, log, router, members) ==
        (Interfaces(raises, conflicts, log, router, members[..n]).0, false)
    {
      InterfaceTurn(raises, conflicts, log, router, members, n);
      assert members[..n + 1] + members[n + 1..] == members;
      InterfacesConcat(raises, conflicts, log, router, members[..n + 1], members[n + 1..]);
    }
    assert members[..|members|] == members;
    FailsSomewhere(raises, conflicts, log, router, members, |members|);
  }

  lemma {:induction false} FailsSomewhere(raises: Refusal, conflicts: Refusal, log: seq<Request>, router: string,
          members: seq<Migrated>, n: nat)
    requires n <= |members|
    ensures Interfaces(raises, conflicts, log, router, members[..n]).1 ||
      exists m: nat :: FailsAt(raises, conflicts, log, router, members, m)
    decreases n
  {
    if n > 0 {
      FailsSomewhere(raises, conflicts, log, router, members, n - 1);
      InterfaceTurn(raises, conflicts, log, router, members, n - 1);
      assert FailsAt(raises, conflicts, log, router, members, n - 1) ||
        Interfaces(raises, conflicts, log, router, members[..n]).1 ||
        !Interfaces(raises, conflicts, log, router, members[..n - 1]).1;
    }
  }

  /** The network service refuses an interface, with a conflict, exactly when the router has it. */
  ghost predicate RefusesDuplicates(raises: Refusal, conflicts: Refusal, router: string) {
    forall log, subnet :: var req := AddInterface(router, subnet);
      (raises(log, req) <==> req in log) && (raises(log, req) ==> conflicts(log, req))
  }

  predicate IsInterfaceOf(req: Request, router: string, members: seq<Migrated>) {
    exists i :: 0 <= i < |members| && req == AddInterface(router, members[i].dest)
  }

  predicate NoRepeats(log: seq<Request>, from: nat) {
    forall i, j :: 0 <= i < j < |log| && from <= j ==> log[i] != log[j]
  }

  /** Then the router ends up with an interface to every member's copy, with those it had before, and
      with no other; none is added twice. */
  lemma {:induction false} AllMembersConnected(raises: Refusal, conflicts: Refusal, log: seq<Request>,
          router: string, members: seq<Migrated>, from: nat)
    requires RefusesDuplicates(raises, conflicts, router) && NoRepeats(log, from)
    ensures var r := Interfaces(raises, conflicts, log, router, members);
      && r.1 && log <= r.0 && NoRepeats(r.0, from)
      && forall req :: req in r.0 <==> req in log || IsInterfaceOf(req, router, members)
    decreases |members|
  {
    if members != [] {
      var req := AddInterface(router, members[0].dest);
      var mid := if raises(log, req) then log else log + [req];
      AllMembersConnected(raises, conflicts, mid, router, members[1..], from);
      forall x ensures IsInterfaceOf(x, router, members) <==> x == req || IsInterfaceOf(x, router, members[1..]) {
        InterfaceOfHead(x, router, members);
      }
    }
  }

  lemma InterfaceOfHead(req: Request, router: string, members: seq<Migrated>)
    requires members != []
    ensures IsInterfaceOf(req, router, members) <==>
      req == AddInterface(router, members[0].dest) || IsInterfaceOf(req, router, members[1..])
  {
    if i :| 0 <= i < |members| && req == AddInterface(router, members[i].dest) {
      if i > 0 { assert members[1..][i - 1] == members[i]; }
    }
    if i :| 0 <= i < |members[1..]| && req == AddInterface(router, members[1..][i].dest) {
      assert members[i + 1] == members[1..][i];
    }
  }

  /** RouterHandler. */
  class RouterHandler {
    const cfg: Config
    const cloud: Cloud
    /** Which of the requests that raise do so with a conflict. */
    const conflicts: Refusal

    constructor (cfg: Config, cloud: Cloud, conflicts: Refusal)
      ensures this.cfg == cfg && this.cloud == cloud && this.conflicts == conflicts
    {
      this.cfg, this.cloud, this.conflicts := cfg, cloud, conflicts;
    }

    method GetAssociatedResources(r: SourceRouter) returns (deps: seq<Resource>)
      ensures deps == Reported(cfg, r)
    {
      deps := ReportIdentityDependencies(cfg, [], r.project, "");
      assert deps + [] == deps;
      if r.gateway == None { return; }
      var g := r.gateway.value;
      if g.network != "" {
        ghost var identity := deps;
        deps := AddSubnets(deps + [Resource(Key("network", g.network), false)], g.fixedIps);
        assert deps == identity + ([Resource(Key("network", g.network), false)] + SubnetDeps(g.fixedIps));
      }
    }

    method PrepareExternalGatewayInfo(g: Option<Gateway>, given: seq<Migrated>) returns (r: Result<Option<Gateway>>)
      ensures r == PrepareGateway(cfg, g, given)
    {
      if g == None { return Ok(None); }
      var info := g.value;
      if g.value.network != "" {
        var network := FindDestination(given, Key("network", g.value.network));
        if network.Err? { return Err(network.error); }
        info := info.(network := network.value);
      }
      var fixedIps := MapGatewayFixedIps(g.value.fixedIps, given);
      if fixedIps.Err? { return Err(fixedIps.error); }
      r := Ok(Some(info.(fixedIps := fixedIps.value)));
    }

    method MapGatewayFixedIps(ips: seq<FixedIp>, given: seq<Migrated>) returns (r: Result<seq<FixedIp>>)
      ensures r == MapGatewayIps(cfg, ips, given)
    {
      var fixedIps: seq<FixedIp> := [];
      ghost var all := MapGatewayIps(cfg, ips, given);
      assert ips[0..] == ips && (all.Ok? ==> [] + all.value == all.value);
      for i := 0 to |ips|
        invariant var rest := MapGatewayIps(cfg, ips[i..], given);
          all == if rest.Err? then rest else Ok(fixedIps + rest.value)
      {
        assert ips[i..][1..] == ips[i + 1..];
        if ips[i].subnet == "" { continue; }
        var subnet := FindDestination(given, Key("subnet", ips[i].subnet));
        if subnet.Err? { return Err(subnet.error); }
        var entry := FixedIp(subnet.value, "");
        if cfg.preserveRouterIp { entry := entry.(address := ips[i].address); }
        ghost var rest := MapGatewayIps(cfg, ips[i + 1..], given);
        assert rest.Ok? ==> fixedIps + ([entry] + rest.value) == (fixedIps + [entry]) + rest.value;
        fixedIps := fixedIps + [entry];
      }
      assert fixedIps + [] == fixedIps;
      r := Ok(fixedIps);
    }

    method PerformIndividualMigration(r: SourceRouter, given: seq<Migrated>) returns (id: Result<string>)
      modifies cloud`log
      ensures var request := RouterRequest(cfg, r, given);
        if request.Err? then id == Err(request.error) && cloud.log == old(cloud.log)
        else if cloud.raises(old(cloud.log), request.value) then id.Err? && cloud.log == old(cloud.log)
        else id == Ok(cloud.name(|old(cloud.log)|)) && cloud.log == old(cloud.log) + [request.value]
    {
      var gateway := PrepareExternalGatewayInfo(r.gateway, given);
      if gateway.Err? { return Err(gateway.error); }
      var owners := GetIdentityBuildKwargs(cfg, given, r.project, "");
      if owners.Err? { return Err(owners.error); }
      id := cloud.Issue(CreateRouter(gateway.value, owners.value.project, r.attrs));
    }

    method ConnectMemberResourcesToParent(router: string, members: seq<Migrated>) returns (r: Result<()>)
      modifies cloud`log
      ensures (cloud.log, r.Ok?) == Interfaces(cloud.raises, conflicts, old(cloud.log), router, members)
    {
      assert members[0..] == members;
      for i := 0 to |members|
        invariant Interfaces(cloud.raises, conflicts, old(cloud.log), router, members) ==
          Interfaces(cloud.raises, conflicts, cloud.log, router, members[i..])
      {
        assert members[i..][0] == members[i] && members[i..][1..] == members[i + 1..];
        var req := AddInterface(router, members[i].dest);
        ghost var log := cloud.log;
        var refused := conflicts(cloud.log, req);
        var added := cloud.Issue(req);
        if added.Err? && !refused { return Err(added.error); }
      }
      r := Ok(());
    }
  }
}
