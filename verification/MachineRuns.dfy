/** Machines of one region whose passes interleave between API calls: patches may be lost,
    others may remove anything, and passes may be abandoned at any call. */
module MachineRuns {
  import opened Collections
  import opened MachineSteps

  /** The object as saved, and the pass over it if one is under way. */
  datatype Machine = Machine(spec: Spec, context: Context, saved: Status, pass: Option<Pass>)

  datatype System = System(cloud: Cloud, machines: map<string, Machine>)

  datatype Action = Start(m: string, context: Context) | StartDelete(m: string, context: Context)
                  | Call(m: string, reply: Reply) | Patch(m: string, saved: bool) | Others(cloud: Cloud)

  function With(s: System, m: string, x: Machine): System { s.(machines := s.machines[m := x]) }

  /** A machine has one pass at a time; its status is patched at the end, or when the controller
      restarts in the middle (a lost patch at any call). */
  function Act(s: System, a: Action): System {
    match a
    case Others(c) => s.(cloud := c)
    case Start(m, cx) =>
      if m !in s.machines || s.machines[m].pass.Some? then s
      else With(s, m, s.machines[m].(context := cx, pass := Some(Begin(s.machines[m].spec, cx, s.machines[m].saved))))
    case StartDelete(m, cx) =>
      if m !in s.machines || s.machines[m].pass.Some? then s
      else With(s, m, s.machines[m].(context := cx, pass := Some(BeginDelete(s.machines[m].spec, cx, s.machines[m].saved))))
    case Call(m, r) =>
      if m !in s.machines || s.machines[m].pass.None? then s
      else
        var x := s.machines[m];
        var (c, p) := Step(x.spec, x.context, s.cloud, x.pass.value, r);
        With(s, m, x.(pass := Some(p))).(cloud := c)
    case Patch(m, saved) =>
      if m !in s.machines || s.machines[m].pass.None? then s
      else
        var x := s.machines[m];
        With(s, m, x.(pass := None, saved := if saved then x.pass.value.st else x.saved))
  }

  // ---- What the environment may do ----

  /** Identifiers are never reused, and listings of pool members succeed. */
  ghost predicate FairReply(c: Cloud, p: Pass, r: Reply) {
    && r.id != "" && r.id !in c.used
    && (p.pc.ListApi? || p.pc.ListRegister? ==> r.outcome.Ok?)
  }

  /** Others may do anything to instances, and remove pool members but add none. */
  ghost predicate OthersRemove(s: System, c: Cloud) {
    && s.cloud.used <= c.used
    && (forall y :: y in c.members ==> y in s.cloud.members)
    && (forall pool, ip, port :: Count(c.members, At(pool, ip, port)) <= Count(s.cloud.members, At(pool, ip, port)))
  }

  /** `owner` says which machine a private address belongs to: the instance a machine handles never
      has another machine's private address. */
  ghost predicate OwnAddress(owner: string -> string, m: string, p: Pass) {
    p.instance.Some? && PrivateIp(p.instance.value.ips) != "" ==> owner(PrivateIp(p.instance.value.ips)) == m
  }

  ghost predicate Legal(s: System, a: Action, owner: string -> string) {
    match a
    case Others(c) => OthersRemove(s, c)
    case Call(m, r) =>
      m in s.machines && s.machines[m].pass.Some? ==>
        var p := s.machines[m].pass.value;
        FairReply(s.cloud, p, r) && OwnAddress(owner, m, Step(s.machines[m].spec, s.machines[m].context, s.cloud, p, r).1)
    case _ => true
  }

  /** Step `k` of the infinite run `ss` is the legal action `acts(k)`. */
  ghost predicate Steps(ss: nat -> System, acts: nat -> Action, owner: string -> string, k: nat) {
    Legal(ss(k), acts(k), owner) && ss(k + 1) == Act(ss(k), acts(k))
  }

  // ---- Pool members ----

  /** A member named by this identifier is at an address of the machine, on the given port. */
  ghost predicate NamesOwn(c: Cloud, owner: string -> string, m: string, id: string, port: nat) {
    id != "" ==> id in c.used && forall y :: y in c.members && y.id == id ==> owner(y.address) == m && y.port == port
  }

  ghost predicate StatusNames(c: Cloud, owner: string -> string, m: string, st: Status) {
    NamesOwn(c, owner, m, st.apiMember, API_PORT) && NamesOwn(c, owner, m, st.registerMember, REGISTER_PORT)
  }

  /** A pass about to add a member has its own address, and none is there. */
  ghost predicate PassClear(c: Cloud, owner: string -> string, m: string, cx: Context, p: Pass) {
    match p.pc
    case ListApi(ip) => owner(ip) == m
    case AddApi(ip) => owner(ip) == m && Count(c.members, At(cx.poolId, ip, API_PORT)) == 0
    case FindPool(ip) => owner(ip) == m
    case ListRegister(ip, pool) => owner(ip) == m
    case AddRegister(ip, pool) => owner(ip) == m && Count(c.members, At(pool, ip, REGISTER_PORT)) == 0
    case _ => true
  }

  ghost predicate NoTwin(c: Cloud) {
    forall pool, ip, port :: Count(c.members, At(pool, ip, port)) <= 1
  }

  ghost predicate MachineOk(c: Cloud, owner: string -> string, m: string, x: Machine) {
    && StatusNames(c, owner, m, x.saved)
    && (x.pass.Some? ==> StatusNames(c, owner, m, x.pass.value.st) && PassClear(c, owner, m, x.context, x.pass.value))
  }

  ghost predicate CloudOk(c: Cloud) {
    && NoTwin(c)
    && (forall y, z :: y in c.members && z in c.members && y.id == z.id ==> y == z)
    && (forall y :: y in c.members ==> y.id != "" && y.id in c.used)
  }

  ghost predicate MembersOk(s: System, owner: string -> string) {
    CloudOk(s.cloud) && forall m :: m in s.machines ==> MachineOk(s.cloud, owner, m, s.machines[m])
  }

  /** For machine `m`, members only went away, or are new ones at addresses that are not its own. */
  ghost predicate Quiet(c: Cloud, c': Cloud, owner: string -> string, m: string) {
    && c.used <= c'.used
    && (forall y :: y in c'.members ==> y in c.members || y.id !in c.used)
    && (forall pool, ip, port :: owner(ip) == m ==> Count(c'.members, At(pool, ip, port)) <= Count(c.members, At(pool, ip, port)))
  }

  lemma QuietKeeps(c: Cloud, c': Cloud, owner: string -> string, m: string, x: Machine)
    requires Quiet(c, c', owner, m) && MachineOk(c, owner, m, x)
    ensures MachineOk(c', owner, m, x)
  {
  }

  lemma AddKeeps(c: Cloud, owner: string -> string, m: string, id: string, pool: string, ip: string, port: nat)
    requires CloudOk(c) && id != "" && id !in c.used && owner(ip) == m && Count(c.members, At(pool, ip, port)) == 0
    ensures var c' := AddMember(c, id, pool, ip, port);
            && CloudOk(c') && NamesOwn(c', owner, m, id, port) && c'.used == c.used + {id}
            && (forall y :: y in c'.members ==> y in c.members || (y.id == id && y.address == ip))
            && (forall m2 :: m2 != m ==> Quiet(c, c', owner, m2))
  {
    var c' := AddMember(c, id, pool, ip, port);
    var x := Member(id, pool, ip, port);
    forall pool2, ip2, port2
      ensures Count(c'.members, At(pool2, ip2, port2))
              == Count(c.members, At(pool2, ip2, port2)) + if At(pool2, ip2, port2)(x) then 1 else 0
    {
      CountAppend(c.members, x, At(pool2, ip2, port2));
    }
  }

  lemma RemoveKeeps(c: Cloud, keep: Member -> bool, owner: string -> string)
    requires CloudOk(c)
    ensures var c' := c.(members := Filter(c.members, keep)); CloudOk(c') && forall m :: Quiet(c, c', owner, m)
  {
    forall pool, ip, port ensures Count(Filter(c.members, keep), At(pool, ip, port)) <= Count(c.members, At(pool, ip, port)) {
      CountFilter(c.members, keep, At(pool, ip, port));
    }
  }

  /** A status recorded so far keeps naming the machine's own members when only new identifiers appear. */
  lemma StatusKept(c: Cloud, c': Cloud, owner: string -> string, m: string, st: Status)
    requires StatusNames(c, owner, m, st) && c.used <= c'.used
    requires forall y :: y in c'.members ==> y in c.members || y.id !in c.used
    ensures StatusNames(c', owner, m, st)
  {
  }

  /** What `CallKeeps` promises of one call. */
  ghost predicate CallOk(c: Cloud, owner: string -> string, m: string, cx: Context, r: (Cloud, Pass)) {
    && CloudOk(r.0) && StatusNames(r.0, owner, m, r.1.st) && PassClear(r.0, owner, m, cx, r.1)
    && c.used <= r.0.used && (forall y :: y in r.0.members ==> y in c.members || y.id !in c.used)
    && forall m2 :: m2 != m ==> Quiet(c, r.0, owner, m2)
  }

  lemma AddCallKeeps(c: Cloud, owner: string -> string, m: string, sp: Spec, cx: Context, p: Pass, r: Reply)
    requires CloudOk(c) && StatusNames(c, owner, m, p.st) && PassClear(c, owner, m, cx, p) && FairReply(c, p, r)
    requires p.pc.AddApi? || p.pc.AddRegister?
    ensures CallOk(c, owner, m, cx, Step(sp, cx, c, p, r))
  {
    hide CloudOk, Quiet, NamesOwn, AddMember, At;
    var (c', p') := Step(sp, cx, c, p, r);
    if !r.outcome.Ok? && !r.outcome.Late? {
      SameMembers(c, c, owner);
    } else {
      var pool, port := if p.pc.AddApi? then cx.poolId else p.pc.pool, if p.pc.AddApi? then API_PORT else REGISTER_PORT;
      AddKeeps(c, owner, m, r.id, pool, p.pc.ip, port);
      StatusKept(c, c', owner, m, p.st);
    }
  }

  lemma ListCallKeeps(c: Cloud, owner: string -> string, m: string, sp: Spec, cx: Context, p: Pass, r: Reply)
    requires CloudOk(c) && StatusNames(c, owner, m, p.st) && PassClear(c, owner, m, cx, p) && FairReply(c, p, r)
    requires p.pc.ListApi? || p.pc.ListRegister?
    ensures CallOk(c, owner, m, cx, Step(sp, cx, c, p, r))
  {
    hide CloudOk, Quiet, NamesOwn, At;
    var pool, port := if p.pc.ListApi? then cx.poolId else p.pc.pool, if p.pc.ListApi? then API_PORT else REGISTER_PORT;
    SameMembers(c, c, owner);
    CountZero(c.members, At(pool, p.pc.ip, port));
    ListedNames(c, owner, m, pool, p.pc.ip, port);
  }

  lemma HandleClear(c: Cloud, owner: string -> string, m: string, sp: Spec, cx: Context, p: Pass, x: Instance)
    requires StatusNames(c, owner, m, p.st) && OwnAddress(owner, m, Handle(sp, cx, p, x))
    ensures var p' := Handle(sp, cx, p, x); StatusNames(c, owner, m, p'.st) && PassClear(c, owner, m, cx, p')
  {
  }

  /** Calls that touch no pool member. */
  lemma InstanceCallKeeps(c: Cloud, owner: string -> string, m: string, sp: Spec, cx: Context, p: Pass, r: Reply)
    requires CloudOk(c) && StatusNames(c, owner, m, p.st) && PassClear(c, owner, m, cx, p)
    requires p.pc.GetRecorded? || p.pc.GetAdopted? || p.pc.FindByName? || p.pc.Resolve? || p.pc.Create?
    requires OwnAddress(owner, m, Step(sp, cx, c, p, r).1)
    ensures CallOk(c, owner, m, cx, Step(sp, cx, c, p, r))
  {
    hide CloudOk, Quiet, Handle, OwnAddress, InstanceById, InstanceByName, NamesOwn;
    var (c', p') := Step(sp, cx, c, p, r);
    SameMembers(c, c', owner);
    StatusKept(c, c', owner, m, p.st);
    assert c' == c || p.pc.Create?;
    forall x | p' == Handle(sp, cx, p, x) ensures StatusNames(c, owner, m, p'.st) && PassClear(c, owner, m, cx, p') {
      HandleClear(c, owner, m, sp, cx, p, x);
    }
  }

  lemma RemoveCallKeeps(c: Cloud, owner: string -> string, m: string, sp: Spec, cx: Context, p: Pass, r: Reply)
    requires CloudOk(c) && StatusNames(c, owner, m, p.st) && p.pc.RemoveMember?
    ensures CallOk(c, owner, m, cx, Step(sp, cx, c, p, r))
  {
    hide CloudOk, Quiet, At, NamesOwn;
    var (c', p') := Step(sp, cx, c, p, r);
    RemoveKeeps(c, (x: Member) => !(x.pool == cx.poolId && x.id == p.st.apiMember), owner);
    SameMembers(c, c, owner);
    StatusKept(c, c', owner, m, p.st);
    NothingRecorded(c', owner, m, API_PORT);
  }

  lemma NothingRecorded(c: Cloud, owner: string -> string, m: string, port: nat)
    ensures NamesOwn(c, owner, m, "", port)
  {
  }

  lemma OtherCallKeeps(c: Cloud, owner: string -> string, m: string, sp: Spec, cx: Context, p: Pass, r: Reply)
    requires CloudOk(c) && StatusNames(c, owner, m, p.st) && PassClear(c, owner, m, cx, p)
    requires p.pc.FindPool? || p.pc.DeleteInstance? || p.pc.CheckGone? || p.pc.End?
    ensures CallOk(c, owner, m, cx, Step(sp, cx, c, p, r))
  {
    hide CloudOk, Quiet, InstanceById, PoolByName, Terminated, At, NamesOwn;
    var (c', p') := Step(sp, cx, c, p, r);
    assert c'.members == c.members && c'.used == c.used by { TerminatedFrame(c, p.st.instanceId); }
    SameMembers(c, c', owner);
    StatusKept(c, c', owner, m, p.st);
  }

  lemma TerminatedFrame(c: Cloud, id: string)
    ensures forall power :: Terminated(c, id, power).members == c.members && Terminated(c, id, power).used == c.used
  {
  }

  lemma CallKeeps(c: Cloud, owner: string -> string, m: string, sp: Spec, cx: Context, p: Pass, r: Reply)
    requires CloudOk(c) && StatusNames(c, owner, m, p.st) && PassClear(c, owner, m, cx, p) && FairReply(c, p, r)
    requires OwnAddress(owner, m, Step(sp, cx, c, p, r).1)
    ensures CallOk(c, owner, m, cx, Step(sp, cx, c, p, r))
  {
    hide CloudOk, StatusNames, PassClear, FairReply, OwnAddress, Step, CallOk;
    match p.pc
    case AddApi(_) => AddCallKeeps(c, owner, m, sp, cx, p, r);
    case AddRegister(_, _) => AddCallKeeps(c, owner, m, sp, cx, p, r);
    case ListApi(_) => ListCallKeeps(c, owner, m, sp, cx, p, r);
    case ListRegister(_, _) => ListCallKeeps(c, owner, m, sp, cx, p, r);
    case FindPool(_) => OtherCallKeeps(c, owner, m, sp, cx, p, r);
    case RemoveMember => RemoveCallKeeps(c, owner, m, sp, cx, p, r);
    case DeleteInstance => OtherCallKeeps(c, owner, m, sp, cx, p, r);
    case CheckGone => OtherCallKeeps(c, owner, m, sp, cx, p, r);
    case End(_) => OtherCallKeeps(c, owner, m, sp, cx, p, r);
    case _ => InstanceCallKeeps(c, owner, m, sp, cx, p, r);
  }

  lemma SameMembers(c: Cloud, c': Cloud, owner: string -> string)
    requires CloudOk(c) && c'.members == c.members && c.used <= c'.used
    ensures CloudOk(c') && forall m :: Quiet(c, c', owner, m)
  {
  }

  lemma ListedNames(c: Cloud, owner: string -> string, m: string, pool: string, ip: string, port: nat)
    requires CloudOk(c) && owner(ip) == m
    ensures var found := MemberAt(c, pool, ip, port); found.Some? ==> NamesOwn(c, owner, m, found.value.id, port)
    ensures CloudOk(c) && forall m2 :: Quiet(c, c, owner, m2)
  {
  }

  lemma ActKeeps(s: System, a: Action, owner: string -> string)
    requires MembersOk(s, owner) && Legal(s, a, owner)
    ensures MembersOk(Act(s, a), owner)
  {
    hide CloudOk, StatusNames, PassClear, Quiet;
    var s' := Act(s, a);
    match a
    case Call(m, r) =>
      if m in s.machines && s.machines[m].pass.Some? {
        var x := s.machines[m];
        CallKeeps(s.cloud, owner, m, x.spec, x.context, x.pass.value, r);
        StatusKept(s.cloud, s'.cloud, owner, m, x.saved);
        forall m2 | m2 in s.machines && m2 != m ensures MachineOk(s'.cloud, owner, m2, s'.machines[m2]) {
          QuietKeeps(s.cloud, s'.cloud, owner, m2, s.machines[m2]);
        }
      }
    case Others(c) =>
      OthersKeep(s, c, owner);
      forall m | m in s.machines ensures MachineOk(c, owner, m, s.machines[m]) { QuietKeeps(s.cloud, c, owner, m, s.machines[m]); }
    case Start(m, cx) =>
      if m in s.machines && s.machines[m].pass.None? { BeginClear(s.cloud, owner, m, s.machines[m], cx); }
    case StartDelete(m, cx) =>
      if m in s.machines && s.machines[m].pass.None? { BeginClear(s.cloud, owner, m, s.machines[m], cx); }
    case Patch(m, saved) =>
  }

  lemma OthersKeep(s: System, c: Cloud, owner: string -> string)
    requires CloudOk(s.cloud) && OthersRemove(s, c)
    ensures CloudOk(c) && forall m :: Quiet(s.cloud, c, owner, m)
  {
  }

  lemma BeginClear(c: Cloud, owner: string -> string, m: string, x: Machine, cx: Context)
    requires MachineOk(c, owner, m, x)
    ensures var p, q := Begin(x.spec, cx, x.saved), BeginDelete(x.spec, cx, x.saved);
            && StatusNames(c, owner, m, p.st) && PassClear(c, owner, m, cx, p)
            && StatusNames(c, owner, m, q.st) && PassClear(c, owner, m, cx, q)
  {
  }

  /** No pool ever holds two members with one address and port, and each member ID on record, saved
      or not, names a member at that machine's address only. */
  lemma {:induction false} PoolMembership(ss: nat -> System, acts: nat -> Action, owner: string -> string, n: nat)
    requires MembersOk(ss(0), owner) && forall k: nat :: Steps(ss, acts, owner, k)
    ensures MembersOk(ss(n), owner)
  {
    hide MembersOk, Legal, Act;
    if n > 0 {
      PoolMembership(ss, acts, owner, n - 1);
      assert Steps(ss, acts, owner, n - 1);
      ActKeeps(ss(n - 1), acts(n - 1), owner);
    }
  }

  /** The listing is what prevents twins: when the address is already in the pool, listing and then
      adding leaves a second member exactly when the listing fails. */
  lemma TwinIffListingFails(sp: Spec, cx: Context, c: Cloud, p: Pass, r1: Reply, r2: Reply)
    requires p.pc.ListApi? && Count(c.members, At(cx.poolId, p.pc.ip, API_PORT)) == 1
    requires r2.outcome.Ok?
    ensures var (c1, p1) := Step(sp, cx, c, p, r1);
            var c2 := if p1.pc.AddApi? then Step(sp, cx, c1, p1, r2).0 else c1;
            Count(c2.members, At(cx.poolId, p.pc.ip, API_PORT)) == 2 <==> r1.outcome.Missing? || r1.outcome.Fail?
  {
    var at := At(cx.poolId, p.pc.ip, API_PORT);
    CountZero(c.members, at);
    CountAppend(c.members, Member(r2.id, cx.poolId, p.pc.ip, API_PORT), at);
  }

  /** The same in the supervisor pool on port 9345. */
  lemma RegisterTwinIffListingFails(sp: Spec, cx: Context, c: Cloud, p: Pass, r1: Reply, r2: Reply)
    requires p.pc.ListRegister? && Count(c.members, At(p.pc.pool, p.pc.ip, REGISTER_PORT)) == 1
    requires r2.outcome.Ok?
    ensures var (c1, p1) := Step(sp, cx, c, p, r1);
            var c2 := if p1.pc.AddRegister? then Step(sp, cx, c1, p1, r2).0 else c1;
            Count(c2.members, At(p.pc.pool, p.pc.ip, REGISTER_PORT)) == 2 <==> r1.outcome.Missing? || r1.outcome.Fail?
  {
    var at := At(p.pc.pool, p.pc.ip, REGISTER_PORT);
    CountZero(c.members, at);
    CountAppend(c.members, Member(r2.id, p.pc.pool, p.pc.ip, REGISTER_PORT), at);
  }

  // ---- Instances ----

  function Named(name: string): Instance -> bool { (x: Instance) => x.name == name }

  function Copies(c: Cloud, sp: Spec): nat { Count(c.instances, Named(InstanceName(sp))) }

  ghost predicate NamesDistinct(s: System) {
    forall m, m2 :: m in s.machines && m2 in s.machines && m != m2 ==>
      InstanceName(s.machines[m].spec) != InstanceName(s.machines[m2].spec)
  }

  /** A pass that has looked for its instance in vain is right about it. */
  ghost predicate LookedInVain(c: Cloud, x: Machine) {
    x.pass.Some? && (x.pass.value.pc.Resolve? || x.pass.value.pc.Create?) ==> Copies(c, x.spec) == 0
  }

  ghost predicate InstancesOk(s: System) {
    forall m :: m in s.machines ==> Copies(s.cloud, s.machines[m].spec) <= 1 && LookedInVain(s.cloud, s.machines[m])
  }

  /** One call of a machine leaves at most one instance of its name, and no more of any other. */
  lemma CallInstances(c: Cloud, sp: Spec, cx: Context, p: Pass, r: Reply, other: Spec)
    requires p.pc.Resolve? || p.pc.Create? ==> Copies(c, sp) == 0
    ensures var (c', p') := Step(sp, cx, c, p, r);
            && (Copies(c, sp) <= 1 ==> Copies(c', sp) <= 1)
            && (p'.pc.Resolve? || p'.pc.Create? ==> Copies(c', sp) == 0)
            && (InstanceName(other) != InstanceName(sp) ==> Copies(c', other) == Copies(c, other))
  {
    hide InstanceName, MemberAt, PoolByName, InstanceById, Observed;
    var (c', p') := Step(sp, cx, c, p, r);
    match p.pc
    case FindByName => CountZero(c.instances, Named(InstanceName(sp)));
    case Create =>
      var x := Instance(r.id, InstanceName(sp), Build, []);
      CountAppend(c.instances, x, Named(InstanceName(sp)));
      CountAppend(c.instances, x, Named(InstanceName(other)));
    case DeleteInstance =>
      forall power ensures Copies(Terminated(c, p.st.instanceId, power), sp) == Copies(c, sp)
                           && Copies(Terminated(c, p.st.instanceId, power), other) == Copies(c, other)
      {
        var g := (x: Instance) => if x.id == p.st.instanceId then x.(power := power) else x;
        CountRewrite(c.instances, g, Named(InstanceName(sp)));
        CountRewrite(c.instances, g, Named(InstanceName(other)));
      }
    case _ =>
  }

  /** Others create no instance under a machine's instance name. Nothing else is asked: any call may
      fail, member listings included, addresses may be shared and identifiers reused. */
  ghost predicate OthersCreateNone(s: System, a: Action) {
    a.Others? ==> forall m :: m in s.machines ==> Copies(a.cloud, s.machines[m].spec) <= Copies(s.cloud, s.machines[m].spec)
  }

  /** Step `k` of the infinite run `ss` is the action `acts(k)`. */
  ghost predicate InstanceSteps(ss: nat -> System, acts: nat -> Action, k: nat) {
    OthersCreateNone(ss(k), acts(k)) && ss(k + 1) == Act(ss(k), acts(k))
  }

  lemma CallKeepsInstances(s: System, m: string, r: Reply)
    requires InstancesOk(s) && NamesDistinct(s) && m in s.machines && s.machines[m].pass.Some?
    ensures InstancesOk(Act(s, Call(m, r)))
  {
    hide Step, InstanceName, Copies;
    var x, s' := s.machines[m], Act(s, Call(m, r));
    CallInstances(s.cloud, x.spec, x.context, x.pass.value, r, x.spec);
    forall m2 | m2 in s.machines && m2 != m ensures Copies(s'.cloud, s.machines[m2].spec) == Copies(s.cloud, s.machines[m2].spec) {
      CallInstances(s.cloud, x.spec, x.context, x.pass.value, r, s.machines[m2].spec);
    }
  }

  lemma ActInstances(s: System, a: Action)
    requires InstancesOk(s) && NamesDistinct(s) && OthersCreateNone(s, a)
    ensures InstancesOk(Act(s, a)) && NamesDistinct(Act(s, a))
  {
    hide Step, InstanceName, Copies;
    if a.Call? && a.m in s.machines && s.machines[a.m].pass.Some? { CallKeepsInstances(s, a.m, a.reply); }
  }

  /** No instance is created twice: machines whose instance names differ never have two instances of
      one name, whatever fails, is lost or interleaves. */
  lemma {:induction false} OneInstanceEach(ss: nat -> System, acts: nat -> Action, n: nat)
    requires InstancesOk(ss(0)) && NamesDistinct(ss(0)) && forall k: nat :: InstanceSteps(ss, acts, k)
    ensures InstancesOk(ss(n)) && NamesDistinct(ss(n))
  {
    hide InstancesOk, NamesDistinct, OthersCreateNone, Act;
    if n > 0 {
      OneInstanceEach(ss, acts, n - 1);
      assert InstanceSteps(ss, acts, n - 1);
      ActInstances(ss(n - 1), acts(n - 1));
    }
  }

  /** Distinct names are needed: two machines that share an instance name, both past the lookup,
      create it twice. */
  lemma SharedNameCreatesTwice(s: System, m: string, m2: string, r: Reply, r2: Reply)
    requires m in s.machines && m2 in s.machines && m != m2
    requires InstanceName(s.machines[m].spec) == InstanceName(s.machines[m2].spec)
    requires s.machines[m].pass.Some? && s.machines[m].pass.value.pc.Create? && LookedInVain(s.cloud, s.machines[m])
    requires s.machines[m2].pass.Some? && s.machines[m2].pass.value.pc.Create?
    requires r.outcome.Ok? && r2.outcome.Ok?
    ensures Copies(Act(Act(s, Call(m, r)), Call(m2, r2)).cloud, s.machines[m].spec) == 2
  {
    hide InstanceName, Step, Copies;
    var x, x2 := s.machines[m], s.machines[m2];
    CreateAdds(s.cloud, x.spec, x.context, x.pass.value, r);
    var s1 := Act(s, Call(m, r));
    assert s1.machines[m2] == x2;
    CreateAdds(s1.cloud, x2.spec, x2.context, x2.pass.value, r2);
    SameNameCopies(s1.cloud, x.spec, x2.spec);
    SameNameCopies(Act(s1, Call(m2, r2)).cloud, x.spec, x2.spec);
  }

  lemma CreateAdds(c: Cloud, sp: Spec, cx: Context, p: Pass, r: Reply)
    requires p.pc.Create? && r.outcome.Ok?
    ensures Copies(Step(sp, cx, c, p, r).0, sp) == Copies(c, sp) + 1
  {
    hide InstanceName;
    CountAppend(c.instances, Instance(r.id, InstanceName(sp), Build, []), Named(InstanceName(sp)));
  }

  lemma SameNameCopies(c: Cloud, sp: Spec, sp2: Spec)
    requires InstanceName(sp) == InstanceName(sp2)
    ensures Copies(c, sp) == Copies(c, sp2)
  {
    hide InstanceName;
  }

  /** A created instance whose ID is lost with the patch outlives its machine: the next thing that
      happens is the machine's deletion, whose pass has nothing on record to delete and lets the
      finalizer go, with no failing call anywhere. */
  lemma LostPatchLeavesInstance(s: System, m: string, cx: Context, r: Reply)
    requires m in s.machines && s.machines[m].pass.None? && r.outcome.Ok?
    requires var x := s.machines[m]; x.spec.existing == "" && !x.spec.keep && InstanceByName(s.cloud, InstanceName(x.spec)).None?
    requires var st := s.machines[m].saved; st.finalizer && st.instanceId == "" && st.apiMember == ""
    requires !cx.paused && cx.infraReady && cx.bootstrap
    ensures var created := Act(Act(Act(Act(s, Start(m, cx)), Call(m, r)), Call(m, r)), Call(m, r));
            var s' := Act(Act(Act(created, Patch(m, false)), StartDelete(m, cx)), Patch(m, true));
            && m in s'.machines && s'.machines[m].pass.None? && !s'.machines[m].saved.finalizer
            && s'.cloud.instances == s.cloud.instances + [Instance(r.id, InstanceName(s.machines[m].spec), Build, [])]
  {
    hide InstanceName, InstanceByName;
    var s1 := Act(s, Start(m, cx));
    assert s1.machines[m].pass.value.pc.FindByName?;
    var s2 := Act(s1, Call(m, r));
    assert s2.machines[m].pass.value.pc.Resolve?;
    var s3 := Act(s2, Call(m, r));
    assert s3.machines[m].pass.value.pc.Create?;
  }
}
