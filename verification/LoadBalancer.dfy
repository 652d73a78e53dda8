/** handlers/octavia/load_balancer.py: copying a tree of listeners, pools, monitors and members. */
module LoadBalancer {
  import opened Store
  import opened World
  import opened Base
  import opened Destination

  datatype SourceMember = SourceMember(subnet: string, attrs: string)

  /** `monitor` holds the attributes of the health monitor, if the pool names one that exists. */
  datatype SourcePool = SourcePool(monitor: Option<string>, members: seq<SourceMember>, attrs: string)

  datatype Listener = Listener(pool: string, attrs: string)

  /** `pools` are the pools that exist; `fips` are the floating IPs listed for the VIP port. */
  datatype SourceLb = SourceLb(
    project: string,
    vipSubnet: string,
    vipNetwork: string,
    vipPort: string,
    listeners: seq<Listener>,
    pools: map<string, SourcePool>,
    fips: seq<string>,
    attrs: string)

  type Naming = nat -> Id

  // ---- get_associated_resources ----

  function MemberDeps(ms: seq<SourceMember>): seq<Resource> {
    if ms == [] then [] else IfSet("subnet", ms[0].subnet) + MemberDeps(ms[1..])
  }

  /** The listener names a default pool that exists. */
  predicate HasPool(src: SourceLb, l: Listener) {
    l.pool != "" && l.pool in src.pools
  }

  function ListenerDeps(src: SourceLb, ls: seq<Listener>): seq<Resource> {
    if ls == [] then []
    else (if HasPool(src, ls[0]) then MemberDeps(src.pools[ls[0].pool].members) else []) + ListenerDeps(src, ls[1..])
  }

  function FipDeps(fips: seq<string>): seq<Resource> {
    if fips == [] then [] else IfSet("floating-ip", fips[0]) + FipDeps(fips[1..])
  }

  function Reported(cfg: Config, src: SourceLb): seq<Resource> {
    IdentityDeps(cfg, src.project) + IfSet("subnet", src.vipSubnet) + IfSet("network", src.vipNetwork)
      + ListenerDeps(src, src.listeners) + if src.vipPort == "" then [] else FipDeps(src.fips)
  }

  // ---- perform_individual_migration ----

  /** The arguments of create_load_balancer, or what is raised before it. */
  function LbRequest(cfg: Config, src: SourceLb, given: seq<Migrated>): Result<Request> {
    var subnet := if src.vipSubnet == "" then Ok("") else Lookup(given, Key("subnet", src.vipSubnet));
    if subnet.Err? then Err(subnet.error) else
    var network := if src.vipNetwork == "" then Ok("") else Lookup(given, Key("network", src.vipNetwork));
    if network.Err? then Err(network.error) else
    var project := IdentityArgs(cfg, src.project, given);
    if project.Err? then Err(project.error)
    else Ok(CreateLoadBalancer(subnet.value, network.value, project.value, src.attrs))
  }

  /** A member subnet that is not found is left out of the request. */
  function MemberSubnet(m: SourceMember, given: seq<Migrated>): string {
    if m.subnet == "" then ""
    else
      var subnet := Lookup(given, Key("subnet", m.subnet));
      if subnet.Err? then "" else subnet.value
  }

  function MemberBlock(ms: seq<SourceMember>, given: seq<Migrated>, pool: string, lb: string): seq<Request> {
    if ms == [] then []
    else
      var first := CreateMember(pool, MemberSubnet(ms[0], given), ms[0].attrs);
      [first, WaitActive(lb)] + MemberBlock(ms[1..], given, pool, lb)
  }

  function MonitorBlock(p: SourcePool, pool: string, lb: string): seq<Request> {
    if p.monitor.Some? then [CreateMonitor(pool, p.monitor.value), WaitActive(lb)] else []
  }

  /** The requests for one pool, the first of them at position `n` of the log. */
  function PoolBlock(p: SourcePool, given: seq<Migrated>, listener: string, lb: string, name: Naming,
          n: nat): seq<Request> {
    [CreatePool(listener, p.attrs), WaitActive(lb)]
      + (MonitorBlock(p, name(n), lb) + MemberBlock(p.members, given, name(n), lb))
  }

  /** No earlier listener names the same default pool. */
  predicate FirstNamer(src: SourceLb, i: nat)
    requires i < |src.listeners|
  {
    forall j :: 0 <= j < i ==> src.listeners[j].pool != src.listeners[i].pool
  }

  /** Listener `i` is the one whose image the pool is attached to. */
  predicate Carries(src: SourceLb, i: nat)
    requires i < |src.listeners|
  {
    HasPool(src, src.listeners[i]) && FirstNamer(src, i)
  }

  function ListenerBlock(src: SourceLb, given: seq<Migrated>, i: nat, lb: string, name: Naming, n: nat): seq<Request>
    requires i < |src.listeners|
  {
    [CreateListener(lb, src.listeners[i].attrs), WaitActive(lb)] +
      if Carries(src, i) then PoolBlock(src.pools[src.listeners[i].pool], given, name(n), lb, name, n + 2) else []
  }

  /** The requests for the listeners from `i` on. */
  function Blocks(src: SourceLb, given: seq<Migrated>, i: nat, lb: string, name: Naming, n: nat): seq<Request>
    requires i <= |src.listeners|
    decreases |src.listeners| - i
  {
    if i == |src.listeners| then []
    else
      var block := ListenerBlock(src, given, i, lb, name, n);
      block + Blocks(src, given, i + 1, lb, name, n + |block|)
  }

  /** Floating IPs that are not found are skipped. */
  function FipBlock(fips: seq<string>, given: seq<Migrated>, port: string): seq<Request> {
    if fips == [] then []
    else
      var fip := Lookup(given, Key("floating-ip", fips[0]));
      (if fip.Err? then [] else [UpdateIp(fip.value, port)]) + FipBlock(fips[1..], given, port)
  }

  /** All requests after create_load_balancer, which was at position `n`; `destPort` is the VIP
      port of the new load balancer. */
  function Plan(src: SourceLb, given: seq<Migrated>, destPort: string, name: Naming, n: nat): seq<Request> {
    [WaitActive(name(n))] + (Blocks(src, given, 0, name(n), name, n + 2) +
      if destPort == "" then [] else FipBlock(src.fips, given, destPort))
  }

  /** LoadBalancerHandler. */
  class LoadBalancerHandler {
    const cfg: Config
    const cloud: Cloud

    constructor (cfg: Config, cloud: Cloud)
      ensures this.cfg == cfg && this.cloud == cloud
    {
      this.cfg, this.cloud := cfg, cloud;
    }

    method GetAssociatedResources(src: SourceLb) returns (deps: seq<Resource>)
      ensures deps == Reported(cfg, src)
    {
      deps := ReportIdentityDependencies(cfg, [], src.project, "");
      if src.vipSubnet != "" { deps := deps + [Resource(Key("subnet", src.vipSubnet), false)]; }
      if src.vipNetwork != "" { deps := deps + [Resource(Key("network", src.vipNetwork), false)]; }
      deps := AddListenerSubnets(deps, src);
      if src.vipPort != "" {
        deps := AddFloatingIps(deps, src.fips);
      } else {
        assert deps + [] == deps;
      }
    }

    method AddListenerSubnets(head: seq<Resource>, src: SourceLb) returns (deps: seq<Resource>)
      ensures deps == head + ListenerDeps(src, src.listeners)
    {
      deps := head;
      var ls := src.listeners;
      assert ls[0..] == ls;
      for i := 0 to |ls|
        invariant deps + ListenerDeps(src, ls[i..]) == head + ListenerDeps(src, ls)
      {
        assert ls[i..][0] == ls[i] && ls[i..][1..] == ls[i + 1..];
        ghost var rest := ListenerDeps(src, ls[i + 1..]);
        if ls[i].pool == "" || ls[i].pool !in src.pools {
          assert [] + rest == rest;
          continue;
        }
        ghost var before, own := deps, MemberDeps(src.pools[ls[i].pool].members);
        deps := AddMemberSubnets(deps, src.pools[ls[i].pool].members);
        assert (before + own) + rest == before + (own + rest);
      }
      assert deps == deps + ListenerDeps(src, ls[|ls|..]);
    }

    method AddMemberSubnets(head: seq<Resource>, ms: seq<SourceMember>) returns (deps: seq<Resource>)
      ensures deps == head + MemberDeps(ms)
    {
      deps := head;
      assert ms[0..] == ms;
      for i := 0 to |ms|
        invariant deps + MemberDeps(ms[i..]) == head + MemberDeps(ms)
      {
        assert ms[i..][0] == ms[i] && ms[i..][1..] == ms[i + 1..];
        ghost var before, own, rest := deps, IfSet("subnet", ms[i].subnet), MemberDeps(ms[i + 1..]);
        assert (before + own) + rest == before + (own + rest);
        if ms[i].subnet != "" { deps := deps + [Resource(Key("subnet", ms[i].subnet), false)]; }
        assert deps == before + own;
      }
      assert deps == deps + MemberDeps(ms[|ms|..]);
    }

    method AddFloatingIps(head: seq<Resource>, fips: seq<string>) returns (deps: seq<Resource>)
      ensures deps == head + FipDeps(fips)
    {
      deps := head;
      assert fips[0..] == fips;
      for i := 0 to |fips|
        invariant deps + FipDeps(fips[i..]) == head + FipDeps(fips)
      {
        assert fips[i..][0] == fips[i] && fips[i..][1..] == fips[i + 1..];
        ghost var before, own, rest := deps, IfSet("floating-ip", fips[i]), FipDeps(fips[i + 1..]);
        assert (before + own) + rest == before + (own + rest);
        if fips[i] != "" { deps := deps + [Resource(Key("floating-ip", fips[i]), false)]; }
        assert deps == before + own;
      }
      assert deps == deps + FipDeps(fips[|fips|..]);
    }

    method IssueOne(req: Request) returns (r: Result<string>)
      modifies cloud`log
      ensures Ran(cloud.raises, old(cloud.log), cloud.log, [req], r.Ok?)
      ensures r.Ok? ==> r.value == cloud.name(|old(cloud.log)|)
    {
      r := cloud.Issue(req);
      assert [req][1..] == [];
    }

    /** A creation followed by wait_for_load_balancer. */
    method CreateAndWait(req: Request, lb: string) returns (r: Result<string>)
      modifies cloud`log
      ensures Ran(cloud.raises, old(cloud.log), cloud.log, [req, WaitActive(lb)], r.Ok?)
      ensures r.Ok? ==> r.value == cloud.name(|old(cloud.log)|)
    {
      ghost var x := cloud.log;
      assert [req] + [WaitActive(lb)] == [req, WaitActive(lb)];
      r := IssueOne(req);
      if r.Err? {
        RanStopped(cloud.raises, x, cloud.log, [req], [WaitActive(lb)]);
        return;
      }
      ghost var y := cloud.log;
      var active := IssueOne(WaitActive(lb));
      RanThen(cloud.raises, x, y, cloud.log, [req], [WaitActive(lb)], active.Ok?);
      if active.Err? { return Err(active.error); }
    }

    /** The loop over a pool's members. */
    method CopyMembers(ms: seq<SourceMember>, given: seq<Migrated>, pool: string, lb: string) returns (r: Result<()>)
      modifies cloud`log
      ensures Ran(cloud.raises, old(cloud.log), cloud.log, MemberBlock(ms, given, pool, lb), r.Ok?)
    {
      hide Ran, Left;
      ghost var x, reqs := cloud.log, MemberBlock(ms, given, pool, lb);
      LeftStart(cloud.raises, x, reqs);
      assert ms[0..] == ms;
      for i := 0 to |ms|
        invariant Left(cloud.raises, x, cloud.log, reqs, MemberBlock(ms[i..], given, pool, lb))
      {
        assert ms[i..][0] == ms[i] && ms[i..][1..] == ms[i + 1..];
        var subnet := "";
        if ms[i].subnet != "" {
          var found := FindDestination(given, Key("subnet", ms[i].subnet));
          if found.Ok? { subnet := found.value; }
        }
        ghost var y := cloud.log;
        var req := CreateMember(pool, subnet, ms[i].attrs);
        var one := CreateAndWait(req, lb);
        LeftStep(cloud.raises, x, y, cloud.log, reqs, [req, WaitActive(lb)],
          MemberBlock(ms[i + 1..], given, pool, lb), one.Ok?);
        if one.Err? { return Err(one.error); }
      }
      LeftEnd(cloud.raises, x, cloud.log, reqs);
      r := Ok(());
    }

    /** The part of the listener loop that copies a pool. */
    method CopyPool(p: SourcePool, given: seq<Migrated>, listener: string, lb: string) returns (r: Result<string>)
      modifies cloud`log
      ensures Ran(cloud.raises, old(cloud.log), cloud.log,
        PoolBlock(p, given, listener, lb, cloud.name, |old(cloud.log)|), r.Ok?)
      ensures r.Ok? ==> r.value == cloud.name(|old(cloud.log)|)
    {
      ghost var x, name := cloud.log, cloud.name(|cloud.log|);
      var create := CreatePool(listener, p.attrs);
      ghost var a, b, c := [create, WaitActive(lb)], MonitorBlock(p, name, lb), MemberBlock(p.members, given, name, lb);
      r := CreateAndWait(create, lb);
      if r.Err? {
        RanStopped(cloud.raises, x, cloud.log, a, b + c);
        return;
      }
      ghost var y := cloud.log;
      if p.monitor.Some? {
        var monitor := CreateAndWait(CreateMonitor(r.value, p.monitor.value), lb);
        if monitor.Err? {
          RanStopped(cloud.raises, y, cloud.log, b, c);
          RanThen(cloud.raises, x, y, cloud.log, a, b + c, false);
          return Err(monitor.error);
        }
      } else {
        assert y + [] == y;
      }
      ghost var z := cloud.log;
      var members := CopyMembers(p.members, given, r.value, lb);
      RanThen(cloud.raises, y, z, cloud.log, b, c, members.Ok?);
      RanThen(cloud.raises, x, y, cloud.log, a, b + c, members.Ok?);
      if members.Err? { return Err(members.error); }
    }

    /** `seen` are the default pools of the listeners before `i` that exist. */
    ghost predicate Gathered(src: SourceLb, i: nat, seen: set<string>)
      requires i <= |src.listeners|
    {
      forall k :: k in seen <==> exists j :: 0 <= j < i && src.listeners[j].pool == k && HasPool(src, src.listeners[j])
    }

    /** One turn of the listener loop. */
    method CopyListener(src: SourceLb, i: nat, pool: Option<SourcePool>, given: seq<Migrated>,
            lb: string) returns (r: Result<string>)
      requires i < |src.listeners|
      requires pool == if Carries(src, i) then Some(src.pools[src.listeners[i].pool]) else None
      modifies cloud`log
      ensures Ran(cloud.raises, old(cloud.log), cloud.log,
        ListenerBlock(src, given, i, lb, cloud.name, |old(cloud.log)|), r.Ok?)
    {
      ghost var x := cloud.log;
      var create := CreateListener(lb, src.listeners[i].attrs);
      ghost var a, n := [create, WaitActive(lb)], |x|;
      ghost var rest :=
        if Carries(src, i) then PoolBlock(src.pools[src.listeners[i].pool], given, cloud.name(n), lb, cloud.name, n + 2)
        else [];
      r := CreateAndWait(create, lb);
      if r.Err? {
        RanStopped(cloud.raises, x, cloud.log, a, rest);
        return;
      }
      ghost var y := cloud.log;
      if pool.Some? {
        r := CopyPool(pool.value, given, r.value, lb);
        RanThen(cloud.raises, x, y, cloud.log, a, rest, r.Ok?);
      } else {
        assert a + [] == a;
      }
    }

    /** Gathering the pools of the source tree. */
    method GatherPools(src: SourceLb) returns (pools: map<string, SourcePool>)
      ensures Gathered(src, |src.listeners|, pools.Keys)
      ensures forall k :: k in pools ==> k in src.pools && pools[k] == src.pools[k]
    {
      pools := map[];
      for i := 0 to |src.listeners|
        invariant Gathered(src, i, pools.Keys)
        invariant forall k :: k in pools ==> k in src.pools && pools[k] == src.pools[k]
      {
        var k := src.listeners[i].pool;
        GatheredNext(src, i, pools.Keys);
        if k != "" && k !in pools && k in src.pools {
          pools := pools[k := src.pools[k]];
        }
      }
    }

    lemma GatheredNone(src: SourceLb)
      ensures Gathered(src, 0, {})
    {
    }

    lemma GatheredNext(src: SourceLb, i: nat, seen: set<string>)
      requires i < |src.listeners| && Gathered(src, i, seen)
      ensures Gathered(src, i + 1, if HasPool(src, src.listeners[i]) then seen + {src.listeners[i].pool} else seen)
    {
      var all := if HasPool(src, src.listeners[i]) then seen + {src.listeners[i].pool} else seen;
      forall k
        ensures k in all <==> exists j :: 0 <= j < i + 1 && src.listeners[j].pool == k && HasPool(src, src.listeners[j])
      {
        if k in seen {
          var j :| 0 <= j < i && src.listeners[j].pool == k && HasPool(src, src.listeners[j]);
        }
      }
    }

    /** One turn with the dictionaries: `poolIds` tells which pools are copied already. */
    method CopyWithPools(src: SourceLb, i: nat, pools: map<string, SourcePool>, poolIds: map<string, string>,
            given: seq<Migrated>, lb: string)
      returns (r: Result<map<string, string>>)
      requires i < |src.listeners| && Gathered(src, |src.listeners|, pools.Keys) && Gathered(src, i, poolIds.Keys)
      requires forall k :: k in pools ==> k in src.pools && pools[k] == src.pools[k]
      modifies cloud`log
      ensures Ran(cloud.raises, old(cloud.log), cloud.log,
        ListenerBlock(src, given, i, lb, cloud.name, |old(cloud.log)|), r.Ok?)
      ensures r.Ok? ==> Gathered(src, i + 1, r.value.Keys)
    {
      var k := src.listeners[i].pool;
      var pool := if k != "" && k in pools && k !in poolIds then Some(pools[k]) else None;
      CarriesIff(src, i, pools.Keys, poolIds.Keys);
      PoolIdsNext(src, i, pools.Keys, poolIds.Keys);
      hide Ran, Gathered, ListenerBlock;
      var one := CopyListener(src, i, pool, given, lb);
      if one.Err? { return Err(one.error); }
      var ids := if pool.Some? then poolIds[k := one.value] else poolIds;
      assert ids.Keys == if pool.Some? then poolIds.Keys + {k} else poolIds.Keys;
      r := Ok(ids);
    }

    /** The listener loop. */
    method CopyTree(src: SourceLb, given: seq<Migrated>, lb: string) returns (r: Result<()>)
      modifies cloud`log
      ensures Ran(cloud.raises, old(cloud.log), cloud.log, Blocks(src, given, 0, lb, cloud.name, |old(cloud.log)|),
        r.Ok?)
    {
      hide Ran, Left, Gathered, ListenerBlock, Blocks;
      var pools := GatherPools(src);
      var poolIds: map<string, string> := map[];
      ghost var x, reqs := cloud.log, Blocks(src, given, 0, lb, cloud.name, |cloud.log|);
      assert poolIds.Keys == {};
      GatheredNone(src);
      LeftStart(cloud.raises, x, reqs);
      for i := 0 to |src.listeners|
        invariant Left(cloud.raises, x, cloud.log, reqs, Blocks(src, given, i, lb, cloud.name, |cloud.log|))
        invariant Gathered(src, i, poolIds.Keys)
      {
        ghost var y := cloud.log;
        ghost var block := ListenerBlock(src, given, i, lb, cloud.name, |y|);
        BlocksHead(src, given, i, lb, cloud.name, |y|);
        var ids := CopyWithPools(src, i, pools, poolIds, given, lb);
        LeftStep(cloud.raises, x, y, cloud.log, reqs, block, Blocks(src, given, i + 1, lb, cloud.name, |y| + |block|),
          ids.Ok?);
        if ids.Err? { return Err(ids.error); }
        poolIds := ids.value;
      }
      BlocksEnd(src, given, lb, cloud.name, |cloud.log|);
      LeftEnd(cloud.raises, x, cloud.log, reqs);
      r := Ok(());
    }

    lemma BlocksHead(src: SourceLb, given: seq<Migrated>, i: nat, lb: string, name: Naming, n: nat)
      requires i < |src.listeners|
      ensures var block := ListenerBlock(src, given, i, lb, name, n);
        Blocks(src, given, i, lb, name, n) == block + Blocks(src, given, i + 1, lb, name, n + |block|)
    {
    }

    lemma BlocksEnd(src: SourceLb, given: seq<Migrated>, lb: string, name: Naming, n: nat)
      ensures Blocks(src, given, |src.listeners|, lb, name, n) == []
    {
    }

    lemma PoolIdsNext(src: SourceLb, i: nat, all: set<string>, seen: set<string>)
      requires i < |src.listeners| && Gathered(src, |src.listeners|, all) && Gathered(src, i, seen)
      ensures var k := src.listeners[i].pool;
        Gathered(src, i + 1, if k != "" && k in all && k !in seen then seen + {k} else seen)
    {
      var k := src.listeners[i].pool;
      CarriesIff(src, i, all, seen);
      GatheredNext(src, i, seen);
      if HasPool(src, src.listeners[i]) { assert k in all; }
    }

    /** The dictionaries tell which listener carries its pool. */
    lemma CarriesIff(src: SourceLb, i: nat, all: set<string>, seen: set<string>)
      requires i < |src.listeners| && Gathered(src, |src.listeners|, all) && Gathered(src, i, seen)
      ensures var k := src.listeners[i].pool; Carries(src, i) <==> k != "" && k in all && k !in seen
    {
      var k := src.listeners[i].pool;
      if HasPool(src, src.listeners[i]) {
        assert k in all;
        if !FirstNamer(src, i) {
          var j :| 0 <= j < i && src.listeners[j].pool == k;
          assert HasPool(src, src.listeners[j]);
        }
      }
    }

    /** The loop over the floating IPs. */
    method AttachFloatingIps(fips: seq<string>, given: seq<Migrated>, port: string) returns (r: Result<()>)
      modifies cloud`log
      ensures Ran(cloud.raises, old(cloud.log), cloud.log, FipBlock(fips, given, port), r.Ok?)
    {
      hide Ran, Left;
      ghost var x, reqs := cloud.log, FipBlock(fips, given, port);
      LeftStart(cloud.raises, x, reqs);
      assert fips[0..] == fips;
      for i := 0 to |fips|
        invariant Left(cloud.raises, x, cloud.log, reqs, FipBlock(fips[i..], given, port))
      {
        assert fips[i..][0] == fips[i] && fips[i..][1..] == fips[i + 1..];
        ghost var y, rest := cloud.log, FipBlock(fips[i + 1..], given, port);
        var fip := FindDestination(given, Key("floating-ip", fips[i]));
        if fip.Err? {
          assert [] + rest == rest;
          continue;
        }
        var req := UpdateIp(fip.value, port);
        var one := IssueOne(req);
        LeftStep(cloud.raises, x, y, cloud.log, reqs, [req], rest, one.Ok?);
        if one.Err? { return Err(one.error); }
      }
      LeftEnd(cloud.raises, x, cloud.log, reqs);
      r := Ok(());
    }

    method PerformIndividualMigration(src: SourceLb, given: seq<Migrated>, destPort: string) returns (r: Result<string>)
      modifies cloud`log
      ensures var request, n := LbRequest(cfg, src, given), |old(cloud.log)|;
        if request.Err? then r == Err(request.error) && cloud.log == old(cloud.log)
        else
          var reqs := [request.value] + Plan(src, given, destPort, cloud.name, n);
          && Ran(cloud.raises, old(cloud.log), cloud.log, reqs, r.Ok?)
          && (r.Ok? ==> r.value == cloud.name(n))
    {
      hide Ran, Accepts, Blocks;
      var subnet, network := Ok(""), Ok("");
      if src.vipSubnet != "" { subnet := FindDestination(given, Key("subnet", src.vipSubnet)); }
      if subnet.Err? { return Err(subnet.error); }
      if src.vipNetwork != "" { network := FindDestination(given, Key("network", src.vipNetwork)); }
      if network.Err? { return Err(network.error); }
      var owners := GetIdentityBuildKwargs(cfg, given, src.project, "");
      if owners.Err? { return Err(owners.error); }
      var request := CreateLoadBalancer(subnet.value, network.value, owners.value.project, src.attrs);
      ghost var x, n := cloud.log, |cloud.log|;
      ghost var tree := Blocks(src, given, 0, cloud.name(n), cloud.name, n + 2);
      ghost var fips := if destPort == "" then [] else FipBlock(src.fips, given, destPort);
      ghost var wait := WaitActive(cloud.name(n));
      assert [request] + ([wait] + (tree + fips)) == [request, wait] + (tree + fips);
      r := CreateAndWaitOwn(request);
      if r.Err? {
        RanStopped(cloud.raises, x, cloud.log, [request, wait], tree + fips);
        return;
      }
      ghost var y := cloud.log;
      RanAll(cloud.raises, x, y, [request, wait]);
      var copied := CopyTree(src, given, r.value);
      if copied.Err? {
        RanStopped(cloud.raises, y, cloud.log, tree, fips);
        RanThen(cloud.raises, x, y, cloud.log, [request, wait], tree + fips, false);
        return Err(copied.error);
      }
      ghost var z := cloud.log;
      if destPort != "" {
        var attached := AttachFloatingIps(src.fips, given, destPort);
        RanThen(cloud.raises, y, z, cloud.log, tree, fips, attached.Ok?);
        RanThen(cloud.raises, x, y, cloud.log, [request, wait], tree + fips, attached.Ok?);
        if attached.Err? { return Err(attached.error); }
      } else {
        assert tree + [] == tree;
        RanThen(cloud.raises, x, y, cloud.log, [request, wait], tree, true);
      }
    }

    /** create_load_balancer, and waiting for the id it returned. */
    method CreateAndWaitOwn(req: Request) returns (r: Result<string>)
      modifies cloud`log
      ensures Ran(cloud.raises, old(cloud.log), cloud.log, [req, WaitActive(cloud.name(|old(cloud.log)|))], r.Ok?)
      ensures r.Ok? ==> r.value == cloud.name(|old(cloud.log)|)
    {
      ghost var x, wait := cloud.log, WaitActive(cloud.name(|cloud.log|));
      assert [req] + [wait] == [req, wait];
      r := IssueOne(req);
      if r.Err? {
        RanStopped(cloud.raises, x, cloud.log, [req], [wait]);
        return;
      }
      ghost var y := cloud.log;
      var active := IssueOne(WaitActive(r.value));
      RanThen(cloud.raises, x, y, cloud.log, [req], [wait], active.Ok?);
      if active.Err? { return Err(active.error); }
    }
  }
}
