/** OVHMachineReconciler (internal/controller/ovhmachine_controller.go), one API call at a time:
    what a pass has done so far and which call comes next. Passes of different machines
    interleave between calls. */
module MachineSteps {
  import opened Collections
  import Names

  // ---- The cloud as machines see it ----

  datatype IpAddress = IpAddress(ip: string, version: nat, kind: string)

  /** ACTIVE, BUILD, ERROR, DELETED, or any other status of an instance. */
  datatype Power = Active | Build | Broken | Deleted | Other

  datatype Instance = Instance(id: string, name: string, power: Power, ips: seq<IpAddress>)
  datatype Pool = Pool(id: string, name: string, lb: string)
  datatype Member = Member(id: string, pool: string, address: string, port: nat)

  /** `used` holds every identifier handed out so far. */
  datatype Cloud = Cloud(instances: seq<Instance>, pools: seq<Pool>, members: seq<Member>, used: set<string>)

  /** A call succeeds (`Late`: a deletion it accepts is still under way), fails with an error
      classified as 404, or fails otherwise. `id` is the identifier a successful POST hands out. */
  datatype Outcome = Ok | Late | Missing | Fail
  datatype Reply = Reply(outcome: Outcome, id: string)
  type Oracle = nat -> Reply

  /** The call went through. */
  predicate Up(r: Reply) { r.outcome.Ok? || r.outcome.Late? }

  const API_PORT := 6443
  const REGISTER_PORT := 9345
  const REGISTER_POOL := "rke2-register-pool"

  function InstanceById(c: Cloud, id: string): Option<Instance> { First(c.instances, (x: Instance) => x.id == id) }

  function InstanceByName(c: Cloud, name: string): Option<Instance> { First(c.instances, (x: Instance) => x.name == name) }

  function PoolByName(c: Cloud, lb: string, name: string): Option<Pool> {
    First(c.pools, (x: Pool) => x.name == name && x.lb == lb)
  }

  function At(pool: string, address: string, port: nat): Member -> bool {
    (x: Member) => x.pool == pool && x.address == address && x.port == port
  }

  function MemberAt(c: Cloud, pool: string, address: string, port: nat): Option<Member> {
    First(c.members, At(pool, address, port))
  }

  // ---- The objects ----

  datatype Address = External(ip: string) | Internal(ip: string)

  /** The part of an OVHMachine that the reconciler writes. */
  datatype Status = Status(finalizer: bool, ready: bool, failed: bool, instanceId: string, providerId: string,
                           addresses: seq<Address>, apiMember: string, registerMember: string)

  /** What the user fixes: names, region, an instance to adopt, the role, the keep annotation. */
  datatype Spec = Spec(cluster: string, machine: string, region: string, existing: string,
                       controlPlane: bool, keep: bool)

  /** What a pass reads from the Cluster, Machine and OVHCluster objects when it starts. */
  datatype Context = Context(paused: bool, infraReady: bool, bootstrap: bool, poolId: string, lbId: string)

  function InstanceName(sp: Spec): string { Names.InstanceName(sp.cluster, sp.machine) }

  datatype Phase = Done | Requeue | Error

  /** The next API call of a pass, or its end. */
  datatype Pc = GetRecorded | GetAdopted | FindByName | Resolve | Create
              | ListApi(ip: string) | AddApi(ip: string) | FindPool(ip: string)
              | ListRegister(ip: string, pool: string) | AddRegister(ip: string, pool: string)
              | RemoveMember | DeleteInstance | CheckGone
              | End(phase: Phase)

  /** A pass under way: the status as changed so far, the instance it handles, and what comes next. */
  datatype Pass = Pass(st: Status, instance: Option<Instance>, pc: Pc)

  // ---- Pure parts ----

  /** The IPv4 addresses, public ones as external. */
  function Addresses(ips: seq<IpAddress>): seq<Address> {
    if ips == [] then []
    else
      var front := Addresses(ips[..|ips| - 1]);
      var x := ips[|ips| - 1];
      if x.version != 4 then front
      else front + [if x.kind == "public" then External(x.ip) else Internal(x.ip)]
  }

  function PrivateIp(ips: seq<IpAddress>): string {
    match First(ips, (x: IpAddress) => x.version == 4 && x.kind == "private")
    case Some(x) => x.ip
    case None => ""
  }

  /** What an instance's power state makes of the status. */
  function Observed(sp: Spec, st: Status, x: Instance): Status {
    var st1 := st.(instanceId := x.id);
    match x.power
    case Active => st1.(addresses := Addresses(x.ips), providerId := Names.ProviderId(sp.region, x.id), ready := true)
    case Broken => st1.(ready := false, failed := true)
    case _ => st1.(ready := false)
  }

  /** handleExistingInstance up to its first API call. */
  function Handle(sp: Spec, cx: Context, p: Pass, x: Instance): Pass {
    var st := Observed(sp, p.st, x);
    var ip := PrivateIp(x.ips);
    var pc :=
      match x.power
      case Active => if sp.controlPlane && cx.poolId != "" && ip != "" then ListApi(ip) else End(Done)
      case Broken => End(Done)
      case _ => End(Requeue);
    Pass(st, Some(x), pc)
  }

  function AfterRecorded(sp: Spec): Pc { if sp.existing != "" then GetAdopted else FindByName }

  function Begin(sp: Spec, cx: Context, st: Status): Pass {
    if cx.paused then Pass(st.(ready := false), None, End(Done))
    else if !st.finalizer then Pass(st.(finalizer := true, ready := false), None, End(Done))
    else if !cx.infraReady then Pass(st, None, End(Requeue))
    else if !cx.bootstrap then Pass(st, None, End(Requeue))
    else Pass(st, None, if st.instanceId != "" then GetRecorded else AfterRecorded(sp))
  }

  function AfterMember(sp: Spec, st: Status): Pc { if st.instanceId != "" then DeleteInstance else End(Done) }

  function WithoutFinalizer(p: Pass): Pass { if p.pc == End(Done) then p.(st := p.st.(finalizer := false)) else p }

  function BeginDelete(sp: Spec, cx: Context, st: Status): Pass {
    WithoutFinalizer(
      if sp.keep then Pass(st, None, End(Done))
      else Pass(st, None, if st.apiMember != "" && cx.poolId != "" then RemoveMember else AfterMember(sp, st)))
  }

  function AddMember(c: Cloud, id: string, pool: string, ip: string, port: nat): Cloud {
    c.(members := c.members + [Member(id, pool, ip, port)], used := c.used + {id})
  }

  function Terminated(c: Cloud, id: string, power: Power): Cloud {
    c.(instances := Rewrite(c.instances, (x: Instance) => if x.id == id then x.(power := power) else x))
  }

  function AfterApi(cx: Context, ip: string): Pc { if cx.lbId == "" then End(Done) else FindPool(ip) }

  // ---- One API call ----

  function Step(sp: Spec, cx: Context, c: Cloud, p: Pass, r: Reply): (Cloud, Pass) {
    var st, ok := p.st, Up(r);
    var failed := (c, p.(pc := End(Error)));
    match p.pc
    case GetRecorded =>
      if r.outcome.Fail? then failed
      else if ok && InstanceById(c, st.instanceId).Some? then (c, Handle(sp, cx, p, InstanceById(c, st.instanceId).value))
      else (c, p.(st := st.(instanceId := ""), pc := AfterRecorded(sp)))
    case GetAdopted =>
      if ok && InstanceById(c, sp.existing).Some? then (c, Handle(sp, cx, p, InstanceById(c, sp.existing).value)) else failed
    case FindByName =>
      if !ok then failed
      else
        var found := InstanceByName(c, InstanceName(sp));
        if found.Some? then (c, Handle(sp, cx, p, found.value)) else (c, p.(pc := Resolve))
    case Resolve => if ok then (c, p.(pc := Create)) else failed
    case Create =>
      if !ok then failed
      else (c.(instances := c.instances + [Instance(r.id, InstanceName(sp), Build, [])], used := c.used + {r.id}),
            p.(st := st.(instanceId := r.id), pc := End(Requeue)))
    case ListApi(ip) =>
      var found := MemberAt(c, cx.poolId, ip, API_PORT);
      if ok && found.Some? then (c, p.(st := st.(apiMember := found.value.id), pc := AfterApi(cx, ip)))
      else (c, p.(pc := AddApi(ip)))
    case AddApi(ip) =>
      if ok then (AddMember(c, r.id, cx.poolId, ip, API_PORT), p.(st := st.(apiMember := r.id), pc := AfterApi(cx, ip)))
      else (c, p.(pc := End(Done)))
    case FindPool(ip) =>
      var found := PoolByName(c, cx.lbId, REGISTER_POOL);
      (c, p.(pc := if ok && found.Some? then ListRegister(ip, found.value.id) else End(Done)))
    case ListRegister(ip, pool) =>
      var found := MemberAt(c, pool, ip, REGISTER_PORT);
      if ok && found.Some? then (c, p.(st := st.(registerMember := found.value.id), pc := End(Done)))
      else (c, p.(pc := AddRegister(ip, pool)))
    case AddRegister(ip, pool) =>
      if ok then (AddMember(c, r.id, pool, ip, REGISTER_PORT), p.(st := st.(registerMember := r.id), pc := End(Done)))
      else (c, p.(pc := End(Done)))
    case RemoveMember =>
      var c1 := if ok then c.(members := Filter(c.members, (x: Member) => !(x.pool == cx.poolId && x.id == st.apiMember))) else c;
      var st1 := if r.outcome.Fail? then st else st.(apiMember := "");
      (c1, WithoutFinalizer(p.(st := st1, pc := AfterMember(sp, st1))))
    case DeleteInstance =>
      if r.outcome.Fail? then failed
      else (if ok then Terminated(c, st.instanceId, if r.outcome.Ok? then Deleted else Other) else c, p.(pc := CheckGone))
    case CheckGone =>
      var found := InstanceById(c, st.instanceId);
      (c, WithoutFinalizer(p.(pc := if ok && found.Some? && !found.value.power.Deleted? then End(Requeue) else End(Done))))
    case End(_) => (c, p)
  }

  // ---- A pass that nothing interrupts ----

  function Rank(pc: Pc): nat {
    match pc
    case GetRecorded => 10 case GetAdopted => 9 case FindByName => 8 case Resolve => 7 case Create => 6
    case ListApi(_) => 5 case AddApi(_) => 4 case FindPool(_) => 3 case ListRegister(_, _) => 2 case AddRegister(_, _) => 1
    case RemoveMember => 3 case DeleteInstance => 2 case CheckGone => 1
    case End(_) => 0
  }

  lemma StepRank(sp: Spec, cx: Context, c: Cloud, p: Pass, r: Reply)
    requires !p.pc.End?
    ensures Rank(Step(sp, cx, c, p, r).1.pc) < Rank(p.pc)
  {
    hide InstanceById, InstanceByName, InstanceName, MemberAt, PoolByName, Observed, Terminated, AddMember;
  }

  /** Cloud, pass and number of API calls made when the pass ends. */
  function Finish(sp: Spec, cx: Context, f: Oracle, n: nat, c: Cloud, p: Pass): (r: (Cloud, Pass, nat))
    ensures r.1.pc.End?
    decreases Rank(p.pc)
  {
    if p.pc.End? then (c, p, n)
    else
      StepRank(sp, cx, c, p, f(n));
      var (c1, p1) := Step(sp, cx, c, p, f(n));
      Finish(sp, cx, f, n + 1, c1, p1)
  }
}
