/** The destination cloud, as far as the graph-copying handlers use it: requests in order, with the
    ids they return. */
module Destination {
  import opened Store
  import opened World
  import opened Base

  /** One entry of a port's fixed_ips; an absent subnet_id is the empty string. */
  datatype FixedIp = FixedIp(subnet: string, address: string)

  datatype Gateway = Gateway(network: string, snat: string, fixedIps: seq<FixedIp>)

  /** Absent references are empty strings; `attrs` stands for the attributes copied unchanged.  Waiting and
      reading can raise too, and so are requests. */
  datatype Request =
    | CreatePort(network: string, groups: seq<string>, fixedIps: seq<FixedIp>, project: string, attrs: string)
    | UpdateIp(fip: string, port: string)
    | CreateRouter(gateway: Option<Gateway>, project: string, attrs: string)
    | AddInterface(router: string, subnet: string)
    | CreateUser(domain: string, defaultProject: string, attrs: string)
    | ReadRole(role: string)
    | ReadProject(project: string)
    | ReadDomain(domain: string)
    | AssignProjectRole(project: string, user: string, role: string)
    | AssignDomainRole(domain: string, user: string, role: string)
    | CreateLoadBalancer(vipSubnet: string, vipNetwork: string, project: string, attrs: string)
    | CreateListener(lb: string, attrs: string)
    | CreatePool(listener: string, attrs: string)
    | CreateMonitor(pool: string, attrs: string)
    | CreateMember(pool: string, subnet: string, attrs: string)
    | WaitActive(lb: string)

  /** Which requests are refused, given those that succeeded before. */
  type Refusal = (seq<Request>, Request) -> bool

  /** Requests that succeed are logged; the id a request returns is the name of its position.
      Whether a request raises may depend on all requests before it. */
  class Cloud {
    const raises: Refusal
    const name: nat -> Id
    var log: seq<Request>

    constructor (raises: Refusal, name: nat -> Id)
      ensures this.raises == raises && this.name == name && log == []
    {
      this.raises, this.name, log := raises, name, [];
    }

    method Issue(req: Request) returns (r: Result<string>)
      modifies this`log
      ensures r == if raises(old(log), req) then Err(HandlerError) else Ok(name(|old(log)|))
      ensures log == if r.Ok? then old(log) + [req] else old(log)
    {
      if raises(log, req) {
        r := Err(HandlerError);
      } else {
        r := Ok(name(|log|));
        log := log + [req];
      }
    }
  }

  /** The cloud accepts `reqs` one after the other on top of `log`. */
  predicate Accepts(raises: Refusal, log: seq<Request>, reqs: seq<Request>)
    decreases |reqs|
  {
    reqs == [] || (!raises(log, reqs[0]) && Accepts(raises, log + [reqs[0]], reqs[1..]))
  }

  // ---- Running a plan ----

  /** The log after `reqs` were issued one after the other, up to the first that is refused. */
  function Carried(raises: Refusal, log: seq<Request>, reqs: seq<Request>): (r: seq<Request>)
    ensures log <= r <= log + reqs
    ensures Accepts(raises, log, reqs) <==> r == log + reqs
    decreases |reqs|
  {
    if reqs == [] || raises(log, reqs[0]) then log
    else
      assert log + [reqs[0]] + reqs[1..] == log + reqs;
      Carried(raises, log + [reqs[0]], reqs[1..])
  }

  /** Requests were issued in plan order from `before`, all of them exactly when the cloud accepts all. */
  predicate Ran(raises: Refusal, before: seq<Request>, after: seq<Request>, reqs: seq<Request>, ok: bool) {
    after == Carried(raises, before, reqs) && (ok <==> Accepts(raises, before, reqs))
  }

  lemma {:induction false} CarriedConcat(raises: Refusal, log: seq<Request>, a: seq<Request>, b: seq<Request>)
    ensures Accepts(raises, log, a + b) <==> Accepts(raises, log, a) && Accepts(raises, log + a, b)
    ensures Carried(raises, log, a + b) ==
      if Accepts(raises, log, a) then Carried(raises, log + a, b) else Carried(raises, log, a)
    decreases |a|
  {
    if a == [] {
      assert a + b == b && log + a == log;
    } else {
      assert (a + b)[1..] == a[1..] + b && log + [a[0]] + a[1..] == log + a;
      CarriedConcat(raises, log + [a[0]], a[1..], b);
    }
  }

  lemma RanAll(raises: Refusal, x: seq<Request>, y: seq<Request>, reqs: seq<Request>)
    requires Ran(raises, x, y, reqs, true)
    ensures y == x + reqs
  {
  }

  lemma RanDecides(raises: Refusal, x: seq<Request>, y: seq<Request>, reqs: seq<Request>, ok: bool)
    requires Ran(raises, x, y, reqs, ok)
    ensures Ran(raises, x, y, reqs, Accepts(raises, x, reqs))
  {
  }

  lemma RanThen(raises: Refusal, x: seq<Request>, y: seq<Request>, z: seq<Request>, a: seq<Request>,
          b: seq<Request>, ok: bool)
    requires Ran(raises, x, y, a, true) && Ran(raises, y, z, b, ok)
    ensures Ran(raises, x, z, a + b, ok)
  {
    CarriedConcat(raises, x, a, b);
    assert x + a + b == x + (a + b);
  }

  lemma RanStopped(raises: Refusal, x: seq<Request>, y: seq<Request>, a: seq<Request>, b: seq<Request>)
    requires Ran(raises, x, y, a, false)
    ensures Ran(raises, x, y, a + b, false)
  {
    CarriedConcat(raises, x, a, b);
    assert x + a <= x + (a + b);
  }

  /** Of the plan `reqs` run from `x`, the part `rest` is left in state `y`. */
  ghost predicate Left(raises: Refusal, x: seq<Request>, y: seq<Request>, reqs: seq<Request>, rest: seq<Request>) {
    x <= y && Ran(raises, x, y, y[|x|..], true) && reqs == y[|x|..] + rest
  }

  lemma LeftStart(raises: Refusal, x: seq<Request>, reqs: seq<Request>)
    ensures Left(raises, x, x, reqs, reqs)
  {
    assert x[|x|..] + reqs == reqs;
  }

  lemma LeftStep(raises: Refusal, x: seq<Request>, y: seq<Request>, z: seq<Request>, reqs: seq<Request>,
          block: seq<Request>, rest: seq<Request>, ok: bool)
    requires Left(raises, x, y, reqs, block + rest) && Ran(raises, y, z, block, ok)
    ensures if ok then Left(raises, x, z, reqs, rest) && |z| == |y| + |block| else Ran(raises, x, z, reqs, false)
  {
    var done := y[|x|..];
    RanThen(raises, x, y, z, done, block, ok);
    assert done + (block + rest) == (done + block) + rest;
    if ok { assert z[|x|..] == done + block; } else { RanStopped(raises, x, z, done + block, rest); }
  }

  lemma LeftEnd(raises: Refusal, x: seq<Request>, y: seq<Request>, reqs: seq<Request>)
    requires Left(raises, x, y, reqs, [])
    ensures Ran(raises, x, y, reqs, true)
  {
    assert y[|x|..] + [] == y[|x|..];
  }

  // ---- Subnets named by fixed IPs ----

  function SubnetDeps(ips: seq<FixedIp>): seq<Resource> {
    if ips == [] then [] else IfSet("subnet", ips[0].subnet) + SubnetDeps(ips[1..])
  }

  lemma {:induction false} SubnetKeys(ips: seq<FixedIp>)
    ensures forall i :: 0 <= i < |ips| && ips[i].subnet != "" ==>
      Key("subnet", ips[i].subnet) in KeySet(SubnetDeps(ips))
    ensures forall k :: k in KeySet(SubnetDeps(ips)) ==> k.rtype == "subnet"
    decreases |ips|
  {
    if ips != [] {
      KeySetConcat(IfSet("subnet", ips[0].subnet), SubnetDeps(ips[1..]));
      SubnetKeys(ips[1..]);
      forall i | 0 <= i < |ips| && ips[i].subnet != "" ensures Key("subnet", ips[i].subnet) in KeySet(SubnetDeps(ips)) {
        if i > 0 { assert ips[i] == ips[1..][i - 1]; }
      }
    }
  }

  method AddSubnets(head: seq<Resource>, ips: seq<FixedIp>) returns (r: seq<Resource>)
    ensures r == head + SubnetDeps(ips)
  {
    r := head;
    assert ips[0..] == ips;
    for i := 0 to |ips|
      invariant r + SubnetDeps(ips[i..]) == head + SubnetDeps(ips)
    {
      var deps := IfSet("subnet", ips[i].subnet);
      assert ips[i..][1..] == ips[i + 1..];
      assert (r + deps) + SubnetDeps(ips[i + 1..]) == r + SubnetDeps(ips[i..]);
      if ips[i].subnet != "" { r := r + [Resource(Key("subnet", ips[i].subnet), false)]; }
      else { assert r + [] == r; }
    }
    assert r == r + SubnetDeps(ips[|ips|..]);
  }
}
