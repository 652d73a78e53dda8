/** What the graph-copying handlers report: the whole lists, entry by entry, with their order and cleanup flags. */
module Reports {
  import opened Store
  import opened World
  import opened Base
  import opened Destination
  import opened LoadBalancer
  import Port
  import Router
  import User

  /** One entry per id, in order. */
  function Entries(rtype: string, ids: seq<string>, cleanup: bool): (r: seq<Resource>)
    ensures |r| == |ids| && forall i :: 0 <= i < |ids| ==> r[i] == Resource(Key(rtype, ids[i]), cleanup)
  {
    seq(|ids|, i requires 0 <= i < |ids| => Resource(Key(rtype, ids[i]), cleanup))
  }

  /** The ids that are set. */
  function Present(ids: seq<string>): seq<string> {
    if ids == [] then [] else (if ids[0] == "" then [] else [ids[0]]) + Present(ids[1..])
  }

  /** The owners of a resource count in multi-tenant mode only. */
  function Owner(cfg: Config, id: string): seq<string> {
    if cfg.multitenant then Present([id]) else []
  }

  function SubnetsOf(ips: seq<FixedIp>): seq<string> {
    seq(|ips|, i requires 0 <= i < |ips| => ips[i].subnet)
  }

  function MemberSubnets(ms: seq<SourceMember>): seq<string> {
    seq(|ms|, i requires 0 <= i < |ms| => ms[i].subnet)
  }

  /** The member subnets of the existing default pools, listener by listener. */
  function PoolSubnets(src: SourceLb, ls: seq<Listener>): seq<string> {
    if ls == [] then []
    else
      var pool := ls[0].pool;
      (if pool != "" && pool in src.pools then MemberSubnets(src.pools[pool].members) else [])
        + PoolSubnets(src, ls[1..])
  }

  // ---- The reports as lists of entries ----

  lemma EntriesConcat(rtype: string, a: seq<string>, b: seq<string>, cleanup: bool)
    ensures Entries(rtype, a + b, cleanup) == Entries(rtype, a, cleanup) + Entries(rtype, b, cleanup)
  {
  }

  lemma {:induction false} PresentConcat(a: seq<string>, b: seq<string>)
    ensures Present(a + b) == Present(a) + Present(b)
    decreases |a|
  {
    if a == [] {
      assert a + b == b;
    } else {
      assert (a + b)[1..] == a[1..] + b;
      PresentConcat(a[1..], b);
    }
  }

  lemma NothingPresent()
    ensures Present([]) == []
  {
  }

  lemma IfSetEntries(rtype: string, id: string)
    ensures IfSet(rtype, id) == Entries(rtype, Present([id]), false)
  {
    assert [id][1..] == [];
  }

  lemma EntriesCons(rtype: string, id: string, rest: seq<string>)
    ensures IfSet(rtype, id) + Entries(rtype, rest, false) ==
      Entries(rtype, (if id == "" then [] else [id]) + rest, false)
  {
    assert [] + rest == rest;
    EntriesConcat(rtype, [id], rest, false);
  }

  lemma {:induction false} TypedEntries(rtype: string, ids: seq<string>, cleanup: bool)
    ensures TypedDeps(rtype, ids, cleanup) == Entries(rtype, ids, cleanup)
    decreases |ids|
  {
    if ids != [] {
      TypedEntries(rtype, ids[1..], cleanup);
      assert [ids[0]] + ids[1..] == ids;
      EntriesConcat(rtype, [ids[0]], ids[1..], cleanup);
    }
  }

  lemma {:induction false} SubnetEntries(ips: seq<FixedIp>)
    ensures SubnetDeps(ips) == Entries("subnet", Present(SubnetsOf(ips)), false)
    decreases |ips|
  {
    hide Entries;
    if ips != [] {
      SubnetEntries(ips[1..]);
      EntriesCons("subnet", ips[0].subnet, Present(SubnetsOf(ips[1..])));
      assert SubnetsOf(ips)[1..] == SubnetsOf(ips[1..]);
    }
  }

  lemma {:induction false} MemberEntries(ms: seq<SourceMember>)
    ensures MemberDeps(ms) == Entries("subnet", Present(MemberSubnets(ms)), false)
    decreases |ms|
  {
    hide Entries;
    if ms != [] {
      MemberEntries(ms[1..]);
      EntriesCons("subnet", ms[0].subnet, Present(MemberSubnets(ms[1..])));
      assert MemberSubnets(ms)[1..] == MemberSubnets(ms[1..]);
    }
  }

  lemma {:induction false} ListenerEntries(src: SourceLb, ls: seq<Listener>)
    ensures ListenerDeps(src, ls) == Entries("subnet", Present(PoolSubnets(src, ls)), false)
    decreases |ls|
  {
    hide Entries, Present, MemberSubnets;
    if ls == [] {
      NothingPresent();
    } else {
      ListenerEntries(src, ls[1..]);
      var pool, rest := ls[0].pool, PoolSubnets(src, ls[1..]);
      if pool != "" && pool in src.pools {
        var own := MemberSubnets(src.pools[pool].members);
        MemberEntries(src.pools[pool].members);
        PresentConcat(own, rest);
        EntriesConcat("subnet", Present(own), Present(rest), false);
      } else {
        assert [] + rest == rest;
      }
    }
  }

  lemma {:induction false} FipEntries(fips: seq<string>)
    ensures FipDeps(fips) == Entries("floating-ip", Present(fips), false)
    decreases |fips|
  {
    hide Entries;
    if fips != [] {
      FipEntries(fips[1..]);
      EntriesCons("floating-ip", fips[0], Present(fips[1..]));
    }
  }

  // ---- Main results ----

  /** In multi-tenant mode the project and then the user, if they are set; nothing outside it. */
  lemma IdentityReports(cfg: Config, project: string, user: string)
    ensures IdentityReport(cfg, project, user) ==
      Entries("project", Owner(cfg, project), false) + Entries("user", Owner(cfg, user), false)
  {
    IfSetEntries("project", project);
    IfSetEntries("user", user);
  }

  lemma ProjectReports(cfg: Config, project: string)
    ensures IdentityDeps(cfg, project) == Entries("project", Owner(cfg, project), false)
  {
    IdentityReports(cfg, project, "");
  }

  lemma PortReports(cfg: Config, p: Port.SourcePort)
    ensures Port.Reported(cfg, p) ==
      Entries("project", Owner(cfg, p.project), false) + Entries("network", Present([p.network]), false)
        + Entries("subnet", Present(SubnetsOf(p.fixedIps)), false)
        + Entries("security-group", if p.groups.Some? then p.groups.value else [], false)
        + Entries("floating-ip", if cfg.preservePortFloatingIp then p.fips else [], true)
  {
    hide Entries, Present;
    ProjectReports(cfg, p.project);
    IfSetEntries("network", p.network);
    SubnetEntries(p.fixedIps);
    TypedEntries("security-group", Port.GroupList(p), false);
    TypedEntries("floating-ip", Port.FipList(cfg, p), true);
  }

  /** A port reports its floating IPs, exactly these, if they are preserved; their sources are to be cleaned up
      along with it, and those of nothing else. */
  lemma PortFipsReported(cfg: Config, p: Port.SourcePort)
    ensures forall id, cleanup :: Resource(Key("floating-ip", id), cleanup) in Port.Reported(cfg, p) <==>
      cfg.preservePortFloatingIp && cleanup && id in p.fips
    ensures forall r :: r in Port.Reported(cfg, p) && r.shouldCleanup ==> r.key.rtype == "floating-ip"
  {
    hide Port.Reported, Entries, Present;
    PortReports(cfg, p);
    var list := if cfg.preservePortFloatingIp then p.fips else [];
    var fips := Entries("floating-ip", list, true);
    forall id | id in list ensures Resource(Key("floating-ip", id), true) in fips {
      var i :| 0 <= i < |list| && list[i] == id;
      assert fips[i] == Resource(Key("floating-ip", id), true);
    }
  }

  /** The subnets of the gateway are reported only along with its network. */
  lemma RouterReports(cfg: Config, r: Router.SourceRouter)
    ensures Router.Reported(cfg, r) == Entries("project", Owner(cfg, r.project), false) +
      if r.gateway.None? || r.gateway.value.network == "" then []
      else
        Entries("network", [r.gateway.value.network], false)
          + Entries("subnet", Present(SubnetsOf(r.gateway.value.fixedIps)), false)
  {
    ProjectReports(cfg, r.project);
    if r.gateway.Some? { SubnetEntries(r.gateway.value.fixedIps); }
  }

  /** One role per assignment, with repetitions. */
  lemma UserReports(u: User.SourceUser)
    ensures User.Reported(u) ==
      Entries("domain", [u.domain], false) + Entries("project", Present([u.defaultProject]), false)
        + Entries("role", seq(|u.assignments|, i requires 0 <= i < |u.assignments| => u.assignments[i].role), false)
  {
    IfSetEntries("project", u.defaultProject);
    TypedEntries("role", User.Roles(u.assignments), false);
    assert User.Roles(u.assignments) ==
      seq(|u.assignments|, i requires 0 <= i < |u.assignments| => u.assignments[i].role);
  }

  lemma LbReports(cfg: Config, src: SourceLb)
    ensures LoadBalancer.Reported(cfg, src) ==
      Entries("project", Owner(cfg, src.project), false) + Entries("subnet", Present([src.vipSubnet]), false)
        + Entries("network", Present([src.vipNetwork]), false)
        + Entries("subnet", Present(PoolSubnets(src, src.listeners)), false)
        + Entries("floating-ip", if src.vipPort == "" then [] else Present(src.fips), false)
  {
    hide Entries, Present;
    ProjectReports(cfg, src.project);
    IfSetEntries("subnet", src.vipSubnet);
    IfSetEntries("network", src.vipNetwork);
    ListenerEntries(src, src.listeners);
    FipEntries(src.fips);
  }
}
