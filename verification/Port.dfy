/** handlers/neutron/port.py. */
module Port {
  import opened Store
  import opened World
  import opened Base
  import opened Destination

  /** A source port and the floating IPs attached to it; `groups` is absent when the API returned
      no security group list. */
  datatype SourcePort = SourcePort(
    project: string,
    network: string,
    fixedIps: seq<FixedIp>,
    groups: Option<seq<string>>,
    fips: seq<string>,
    attrs: string)

  function GroupList(p: SourcePort): seq<string> {
    if p.groups.Some? then p.groups.value else []
  }

  function FipList(cfg: Config, p: SourcePort): seq<string> {
    if cfg.preservePortFloatingIp then p.fips else []
  }

  // ---- get_associated_resources ----

  function Reported(cfg: Config, p: SourcePort): seq<Resource> {
    IdentityDeps(cfg, p.project) + IfSet("network", p.network) + SubnetDeps(p.fixedIps)
      + TypedDeps("security-group", GroupList(p), false) + TypedDeps("floating-ip", FipList(cfg, p), true)
  }

  // ---- perform_individual_migration ----

  /** The loop over the fixed IPs: entries without a subnet are copied. */
  function MapIps(ips: seq<FixedIp>, given: seq<Migrated>): Result<seq<FixedIp>> {
    if ips == [] then Ok([])
    else
      var subnet := if ips[0].subnet == "" then Ok("") else Lookup(given, Key("subnet", ips[0].subnet));
      if subnet.Err? then Err(subnet.error) else
      var rest := MapIps(ips[1..], given);
      if rest.Err? then rest else Ok([ips[0].(subnet := subnet.value)] + rest.value)
  }

  /** The arguments of create_port, or what is raised before it. */
  function PortRequest(cfg: Config, p: SourcePort, given: seq<Migrated>): Result<Request> {
    var network := Lookup(given, Key("network", p.network));
    if network.Err? then Err(network.error)
    else if p.groups.None? then Err(HandlerError) else
    var groups := LookupAll("security-group", p.groups.value, given);
    if groups.Err? then Err(groups.error) else
    var ips := MapIps(p.fixedIps, given);
    if ips.Err? then Err(ips.error) else
    var project := IdentityArgs(cfg, p.project, given);
    if project.Err? then Err(project.error) else
    var fixedIps := if cfg.preservePortFixedIps then ips.value else [];
    Ok(CreatePort(network.value, groups.value, fixedIps, project.value, p.attrs))
  }

  /** The floating IP updates that follow, up to the first one whose lookup raises. */
  function Reattach(fips: seq<string>, given: seq<Migrated>, port: string): (r: seq<Request>)
    ensures |r| <= |fips|
  {
    if fips == [] then []
    else
      var fip := Lookup(given, Key("floating-ip", fips[0]));
      if fip.Err? then [] else [UpdateIp(fip.value, port)] + Reattach(fips[1..], given, port)
  }

  // ---- The image of a port ----

  function IpImages(ips: seq<FixedIp>, tr: Translation): (r: seq<FixedIp>)
    ensures |r| == |ips|
    ensures forall i :: 0 <= i < |ips| ==> r[i] == FixedIp(RefImage("subnet", ips[i].subnet, tr), ips[i].address)
  {
    if ips == [] then [] else [FixedIp(RefImage("subnet", ips[0].subnet, tr), ips[0].address)] + IpImages(ips[1..], tr)
  }

  /** The request whose references are, position by position, the images of the source's. */
  function PortImage(cfg: Config, p: SourcePort, tr: Translation): Request {
    CreatePort(
      tr(Key("network", p.network)),
      IdImages("security-group", if p.groups.Some? then p.groups.value else [], tr),
      if cfg.preservePortFixedIps then IpImages(p.fixedIps, tr) else [],
      IdentityImage(cfg, p.project, tr),
      p.attrs)
  }

  function Attachments(fips: seq<string>, port: string): (r: seq<Request>)
    ensures |r| == |fips| && forall i :: 0 <= i < |fips| ==> r[i] == UpdateIp(fips[i], port)
  {
    if fips == [] then [] else [UpdateIp(fips[0], port)] + Attachments(fips[1..], port)
  }

  // ---- Reported dependencies suffice ----

  lemma ReportedKeys(cfg: Config, p: SourcePort)
    ensures KeySet(Reported(cfg, p)) ==
      KeySet(IdentityDeps(cfg, p.project)) + KeySet(IfSet("network", p.network)) + KeySet(SubnetDeps(p.fixedIps))
        + KeySet(TypedDeps("security-group", GroupList(p), false))
        + KeySet(TypedDeps("floating-ip", FipList(cfg, p), true))
  {
    var a, b, c := IdentityDeps(cfg, p.project), IfSet("network", p.network), SubnetDeps(p.fixedIps);
    var d, e := TypedDeps("security-group", GroupList(p), false), TypedDeps("floating-ip", FipList(cfg, p), true);
    KeySetConcat(a, b);
    KeySetConcat(a + b, c);
    KeySetConcat(a + b + c, d);
    KeySetConcat(a + b + c + d, e);
  }

  /** The network is among the reported dependencies exactly when its id is set. */
  lemma NetworkReportedIff(cfg: Config, p: SourcePort)
    ensures Key("network", p.network) in KeySet(Reported(cfg, p)) <==> p.network != ""
  {
    ReportedKeys(cfg, p);
    SubnetKeys(p.fixedIps);
    TypedKeys("security-group", GroupList(p), false);
    TypedKeys("floating-ip", FipList(cfg, p), true);
  }

  lemma {:induction false} MapIpsCovered(ips: seq<FixedIp>, given: seq<Migrated>, tr: Translation)
    requires forall i :: 0 <= i < |ips| && ips[i].subnet != "" ==>
      Lookup(given, Key("subnet", ips[i].subnet)) == Ok(tr(Key("subnet", ips[i].subnet)))
    ensures MapIps(ips, given) == Ok(IpImages(ips, tr))
    decreases |ips|
  {
    if ips != [] { MapIpsCovered(ips[1..], given, tr); }
  }

  lemma {:induction false} ReattachCovered(fips: seq<string>, given: seq<Migrated>, port: string, tr: Translation)
    requires forall i :: 0 <= i < |fips| ==>
      Lookup(given, Key("floating-ip", fips[i])) == Ok(tr(Key("floating-ip", fips[i])))
    ensures Reattach(fips, given, port) == Attachments(IdImages("floating-ip", fips, tr), port)
    decreases |fips|
  {
    if fips != [] { ReattachCovered(fips[1..], given, port, tr); }
  }

  /** The requests after create_port, as long as none is refused. */
  function Updates(cfg: Config, p: SourcePort, given: seq<Migrated>, port: string): seq<Request> {
    Reattach(FipList(cfg, p), given, port)
  }

  /** Given the list the manager passes, the request is the image of the source port exactly when
      the port names a network and a group list; and the copies of all its floating IPs are attached to it, in
      order, if these are preserved. */
  lemma PortIsImageIff(cfg: Config, p: SourcePort, given: seq<Migrated>, tr: Translation, port: string)
    requires Covers(given, Reported(cfg, p), tr)
    ensures PortRequest(cfg, p, given) ==
      if p.network == "" then Err(NotFound) else if p.groups.None? then Err(HandlerError) else Ok(PortImage(cfg, p, tr))
    ensures Updates(cfg, p, given, port) ==
      if cfg.preservePortFloatingIp then Attachments(IdImages("floating-ip", p.fips, tr), port) else []
    ensures var reqs := Updates(cfg, p, given, port);
      if cfg.preservePortFloatingIp then
        && |reqs| == |p.fips|
        && forall i :: 0 <= i < |p.fips| ==> reqs[i] == UpdateIp(tr(Key("floating-ip", p.fips[i])), port)
      else reqs == []
  {
    hide Lookup, KeySet, Covers, Reported, IdImages, IpImages, Attachments;
    ReportedKeys(cfg, p);
    NetworkReportedIff(cfg, p);
    SubnetKeys(p.fixedIps);
    TypedKeys("security-group", GroupList(p), false);
    TypedKeys("floating-ip", FipList(cfg, p), true);
    LookupsCovered(given, Reported(cfg, p), tr);
    LookupAllCovered("security-group", GroupList(p), given, tr);
    MapIpsCovered(p.fixedIps, given, tr);
    ReattachCovered(FipList(cfg, p), given, port, tr);
    ProjectReported(cfg, p);
  }

  /** Given that list, the fields of the request one by one. */
  lemma PortFields(cfg: Config, p: SourcePort, given: seq<Migrated>, tr: Translation)
    requires Covers(given, Reported(cfg, p), tr) && p.network != "" && p.groups.Some?
    ensures PortRequest(cfg, p, given).Ok? && PortRequest(cfg, p, given).value.CreatePort?
    ensures var req := PortRequest(cfg, p, given).value;
      && req.network == tr(Key("network", p.network)) && req.attrs == p.attrs
      && |req.groups| == |p.groups.value|
      && (forall i :: 0 <= i < |req.groups| ==> req.groups[i] == tr(Key("security-group", p.groups.value[i])))
      && |req.fixedIps| == (if cfg.preservePortFixedIps then |p.fixedIps| else 0)
      && (forall i :: 0 <= i < |req.fixedIps| ==>
            && req.fixedIps[i].address == p.fixedIps[i].address
            && req.fixedIps[i].subnet ==
                 if p.fixedIps[i].subnet == "" then "" else tr(Key("subnet", p.fixedIps[i].subnet)))
      && req.project == if cfg.multitenant && p.project != "" then tr(Key("project", p.project)) else ""
  {
    PortIsImageIff(cfg, p, given, tr, "");
    hide Covers, PortRequest, IdImages, IpImages;
  }

  lemma ProjectReported(cfg: Config, p: SourcePort)
    ensures cfg.multitenant && p.project != "" ==> Key("project", p.project) in KeySet(Reported(cfg, p))
  {
    ReportedKeys(cfg, p);
  }

  /** PortHandler. */
  class PortHandler {
    const cfg: Config
    const cloud: Cloud

    constructor (cfg: Config, cloud: Cloud)
      ensures this.cfg == cfg && this.cloud == cloud
    {
      this.cfg, this.cloud := cfg, cloud;
    }

    method GetAssociatedResources(p: SourcePort) returns (r: seq<Resource>)
      ensures r == Reported(cfg, p)
    {
      r := ReportIdentityDependencies(cfg, [], p.project, "");
      if p.network != "" { r := r + [Resource(Key("network", p.network), false)]; }
      r := AddSubnets(r, p.fixedIps);
      r := AddTyped(r, "security-group", GroupList(p), false);
      if cfg.preservePortFloatingIp {
        r := AddTyped(r, "floating-ip", p.fips, true);
      } else {
        assert r + [] == r;
      }
    }

    method MapGroups(ids: seq<string>, given: seq<Migrated>) returns (r: Result<seq<string>>)
      ensures r == LookupAll("security-group", ids, given)
    {
      var groups: seq<string> := [];
      ghost var all := LookupAll("security-group", ids, given);
      assert ids[0..] == ids && (all.Ok? ==> [] + all.value == all.value);
      for i := 0 to |ids|
        invariant var rest := LookupAll("security-group", ids[i..], given);
          all == if rest.Err? then rest else Ok(groups + rest.value)
      {
        assert ids[i..][1..] == ids[i + 1..];
        var group := FindDestination(given, Key("security-group", ids[i]));
        if group.Err? { return Err(group.error); }
        ghost var rest := LookupAll("security-group", ids[i + 1..], given);
        assert rest.Ok? ==> groups + ([group.value] + rest.value) == (groups + [group.value]) + rest.value;
        groups := groups + [group.value];
      }
      assert groups + [] == groups;
      r := Ok(groups);
    }

    method MapFixedIps(ips: seq<FixedIp>, given: seq<Migrated>) returns (r: Result<seq<FixedIp>>)
      ensures r == MapIps(ips, given)
    {
      var fixedIps: seq<FixedIp> := [];
      ghost var all := MapIps(ips, given);
      assert ips[0..] == ips && (all.Ok? ==> [] + all.value == all.value);
      for i := 0 to |ips|
        invariant var rest := MapIps(ips[i..], given);
          all == if rest.Err? then rest else Ok(fixedIps + rest.value)
      {
        assert ips[i..][1..] == ips[i + 1..];
        var ip := ips[i];
        if ip.subnet != "" {
          var subnet := FindDestination(given, Key("subnet", ip.subnet));
          if subnet.Err? { return Err(subnet.error); }
          ip := ip.(subnet := subnet.value);
        }
        ghost var rest := MapIps(ips[i + 1..], given);
        assert rest.Ok? ==> fixedIps + ([ip] + rest.value) == (fixedIps + [ip]) + rest.value;
        fixedIps := fixedIps + [ip];
      }
      assert fixedIps + [] == fixedIps;
      r := Ok(fixedIps);
    }

    /** The call returns exactly when every lookup succeeds and the cloud accepts every update. */
    method ReattachFloatingIps(fips: seq<string>, port: string, given: seq<Migrated>) returns (r: Result<()>)
      modifies cloud`log
      ensures var reqs := Reattach(fips, given, port);
        && Ran(cloud.raises, old(cloud.log), cloud.log, reqs, Accepts(cloud.raises, old(cloud.log), reqs))
        && (r.Ok? <==> |reqs| == |fips| && Accepts(cloud.raises, old(cloud.log), reqs))
    {
      ghost var x, reqs := cloud.log, Reattach(fips, given, port);
      LeftStart(cloud.raises, x, reqs);
      assert fips[0..] == fips;
      for i := 0 to |fips|
        invariant Left(cloud.raises, x, cloud.log, reqs, Reattach(fips[i..], given, port))
        invariant |reqs| == i + |Reattach(fips[i..], given, port)|
      {
        assert fips[i..][0] == fips[i] && fips[i..][1..] == fips[i + 1..];
        var fip := FindDestination(given, Key("floating-ip", fips[i]));
        if fip.Err? {
          LeftEnd(cloud.raises, x, cloud.log, reqs);
          return Err(fip.error);
        }
        ghost var y := cloud.log;
        var req := UpdateIp(fip.value, port);
        var attached := cloud.Issue(req);
        assert [req][1..] == [];
        LeftStep(cloud.raises, x, y, cloud.log, reqs, [req], Reattach(fips[i + 1..], given, port), attached.Ok?);
        if attached.Err? { return Err(attached.error); }
      }
      LeftEnd(cloud.raises, x, cloud.log, reqs);
      r := Ok(());
    }

    method PerformIndividualMigration(p: SourcePort, given: seq<Migrated>) returns (r: Result<string>)
      modifies cloud`log
      ensures var request, port := PortRequest(cfg, p, given), cloud.name(|old(cloud.log)|);
        if request.Err? then r == Err(request.error) && cloud.log == old(cloud.log)
        else
          var reqs := [request.value] + Updates(cfg, p, given, port);
          && Ran(cloud.raises, old(cloud.log), cloud.log, reqs, Accepts(cloud.raises, old(cloud.log), reqs))
          && (r.Ok? ==> r.value == port)
          && (r.Ok? <==> |reqs| == 1 + |FipList(cfg, p)| && Accepts(cloud.raises, old(cloud.log), reqs))
    {
      var network := FindDestination(given, Key("network", p.network));
      if network.Err? { return Err(network.error); }
      if p.groups.None? { return Err(HandlerError); }
      var groups := MapGroups(p.groups.value, given);
      if groups.Err? { return Err(groups.error); }
      var fixedIps := MapFixedIps(p.fixedIps, given);
      if fixedIps.Err? { return Err(fixedIps.error); }
      var owners := GetIdentityBuildKwargs(cfg, given, p.project, "");
      if owners.Err? { return Err(owners.error); }
      var request := CreatePort(network.value, groups.value, [], owners.value.project, p.attrs);
      if cfg.preservePortFixedIps { request := request.(fixedIps := fixedIps.value); }
      ghost var x, attach := cloud.log, Updates(cfg, p, given, cloud.name(|cloud.log|));
      var port := cloud.Issue(request);
      assert [request][1..] == [];
      if port.Err? {
        RanStopped(cloud.raises, x, cloud.log, [request], attach);
        return Err(port.error);
      }
      ghost var y := cloud.log;
      var attached := ReattachFloatingIps(FipList(cfg, p), port.value, given);
      RanThen(cloud.raises, x, y, cloud.log, [request], attach, Accepts(cloud.raises, y, attach));
      if attached.Err? { return Err(attached.error); }
      r := Ok(port.value);
    }
  }
}
