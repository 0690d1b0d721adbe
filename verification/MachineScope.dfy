/** OVHMachineReconciler in the source's own form: methods that update the OVHMachine's fields in
    place, each proved to do what the call-by-call model says. */
module MachineScope {
  import opened Collections
  import opened MachineSteps
  import Names

  datatype Got<+T> = Found(value: T) | NotFound | Failed

  /** One call of an uninterrupted pass. */
  lemma CallOnce(sp: Spec, cx: Context, f: Oracle, n: nat, c: Cloud, p: Pass)
    requires !p.pc.End?
    ensures var (c1, p1) := Step(sp, cx, c, p, f(n));
            && Finish(sp, cx, f, n, c, p) == Finish(sp, cx, f, n + 1, c1, p1)
            && (p1.pc.End? ==> Finish(sp, cx, f, n, c, p) == (c1, p1, n + 1))
  {
  }

  lemma ListRegisterCall(sp: Spec, cx: Context, f: Oracle, n: nat, c: Cloud, p: Pass)
    requires p.pc.ListRegister?
    ensures var found := if Up(f(n)) then MemberAt(c, p.pc.pool, p.pc.ip, REGISTER_PORT) else None;
            Finish(sp, cx, f, n, c, p) ==
              if found.Some? then (c, p.(st := p.st.(registerMember := found.value.id), pc := End(Done)), n + 1)
              else Finish(sp, cx, f, n + 1, c, p.(pc := AddRegister(p.pc.ip, p.pc.pool)))
  {
  }

  lemma AddRegisterCall(sp: Spec, cx: Context, f: Oracle, n: nat, c: Cloud, p: Pass)
    requires p.pc.AddRegister?
    ensures Finish(sp, cx, f, n, c, p) ==
              if Up(f(n)) then (AddMember(c, f(n).id, p.pc.pool, p.pc.ip, REGISTER_PORT),
                                p.(st := p.st.(registerMember := f(n).id), pc := End(Done)), n + 1)
              else (c, p.(pc := End(Done)), n + 1)
  {
    hide Finish;
    CallOnce(sp, cx, f, n, c, p);
  }

  lemma FindPoolCall(sp: Spec, cx: Context, f: Oracle, n: nat, c: Cloud, p: Pass)
    requires p.pc.FindPool?
    ensures var found := if Up(f(n)) then PoolByName(c, cx.lbId, REGISTER_POOL) else None;
            Finish(sp, cx, f, n, c, p) ==
              if found.Some? then Finish(sp, cx, f, n + 1, c, p.(pc := ListRegister(p.pc.ip, found.value.id)))
              else (c, p.(pc := End(Done)), n + 1)
  {
  }

  lemma ListApiCall(sp: Spec, cx: Context, f: Oracle, n: nat, c: Cloud, p: Pass)
    requires p.pc.ListApi?
    ensures var found := if Up(f(n)) then MemberAt(c, cx.poolId, p.pc.ip, API_PORT) else None;
            Finish(sp, cx, f, n, c, p) ==
              Finish(sp, cx, f, n + 1, c,
                     if found.Some? then p.(st := p.st.(apiMember := found.value.id), pc := AfterApi(cx, p.pc.ip))
                     else p.(pc := AddApi(p.pc.ip)))
  {
  }

  lemma AddApiCall(sp: Spec, cx: Context, f: Oracle, n: nat, c: Cloud, p: Pass)
    requires p.pc.AddApi?
    ensures Finish(sp, cx, f, n, c, p) ==
              if Up(f(n)) then Finish(sp, cx, f, n + 1, AddMember(c, f(n).id, cx.poolId, p.pc.ip, API_PORT),
                                      p.(st := p.st.(apiMember := f(n).id), pc := AfterApi(cx, p.pc.ip)))
              else (c, p.(pc := End(Done)), n + 1)
  {
  }

  /** The three ways of getting hold of an instance. A handled instance does not depend on how. */
  lemma GetRecordedCall(sp: Spec, cx: Context, f: Oracle, n: nat, c: Cloud, st: Status)
    ensures var there := InstanceById(c, st.instanceId);
            Finish(sp, cx, f, n, c, Pass(st, None, GetRecorded)) ==
              if f(n).outcome.Fail? then (c, Pass(st, None, End(Error)), n + 1)
              else if Up(f(n)) && there.Some? then Finish(sp, cx, f, n + 1, c, Handle(sp, cx, Pass(st, None, FindByName), there.value))
              else Finish(sp, cx, f, n + 1, c, Pass(st.(instanceId := ""), None, AfterRecorded(sp)))
  {
  }

  lemma GetAdoptedCall(sp: Spec, cx: Context, f: Oracle, n: nat, c: Cloud, st: Status)
    ensures var there := InstanceById(c, sp.existing);
            Finish(sp, cx, f, n, c, Pass(st, None, GetAdopted)) ==
              if Up(f(n)) && there.Some? then Finish(sp, cx, f, n + 1, c, Handle(sp, cx, Pass(st, None, FindByName), there.value))
              else (c, Pass(st, None, End(Error)), n + 1)
  {
  }

  lemma FindByNameCall(sp: Spec, cx: Context, f: Oracle, n: nat, c: Cloud, st: Status)
    ensures var there := InstanceByName(c, InstanceName(sp));
            Finish(sp, cx, f, n, c, Pass(st, None, FindByName)) ==
              if !Up(f(n)) then (c, Pass(st, None, End(Error)), n + 1)
              else if there.Some? then Finish(sp, cx, f, n + 1, c, Handle(sp, cx, Pass(st, None, FindByName), there.value))
              else Finish(sp, cx, f, n + 1, c, Pass(st, None, Resolve))
  {
  }

  lemma DeleteCalls(sp: Spec, cx: Context, f: Oracle, n: nat, c: Cloud, st: Status)
    requires st.instanceId != ""
    ensures var p := Pass(st, None, DeleteInstance);
            var c1 := if Up(f(n)) then Terminated(c, st.instanceId, if f(n).outcome.Ok? then Deleted else Other) else c;
            var there := if Up(f(n + 1)) then InstanceById(c1, st.instanceId) else None;
            Finish(sp, cx, f, n, c, p) ==
              if f(n).outcome.Fail? then (c, p.(pc := End(Error)), n + 1)
              else if there.Some? && !there.value.power.Deleted? then (c1, p.(pc := End(Requeue)), n + 2)
              else (c1, Pass(st.(finalizer := false), None, End(Done)), n + 2)
  {
    hide Finish, InstanceById, Terminated;
    var p := Pass(st, None, DeleteInstance);
    CallOnce(sp, cx, f, n, c, p);
    var (c1, p1) := Step(sp, cx, c, p, f(n));
    if !p1.pc.End? { CallOnce(sp, cx, f, n + 1, c1, p1); }
  }

  class MachineScope {
    const spec: Spec
    const context: Context
    const faults: Oracle

    var cloud: Cloud
    var calls: nat

    // The OVHMachine.
    var finalizer: bool
    var ready: bool
    var failed: bool
    var instanceId: string
    var providerId: string
    var addresses: seq<Address>
    var apiMember: string
    var registerMember: string

    constructor (spec: Spec, context: Context, faults: Oracle, cloud: Cloud, st: Status)
      ensures this.spec == spec && this.context == context && this.faults == faults
      ensures this.cloud == cloud && calls == 0 && View() == st
    {
      this.spec, this.context, this.faults, this.cloud, calls := spec, context, faults, cloud, 0;
      finalizer, ready, failed, instanceId := st.finalizer, st.ready, st.failed, st.instanceId;
      providerId, addresses, apiMember, registerMember := st.providerId, st.addresses, st.apiMember, st.registerMember;
    }

    function View(): Status
      reads this
    {
      Status(finalizer, ready, failed, instanceId, providerId, addresses, apiMember, registerMember)
    }

    /** Where the pass has got to, and where the model ends it from there. */
    function Now(instance: Option<Instance>, pc: Pc): (Cloud, Pass, nat)
      reads this
    {
      (cloud, Pass(View(), instance, pc), calls)
    }

    function EndOf(instance: Option<Instance>, pc: Pc): (Cloud, Pass, nat)
      reads this
    {
      Finish(spec, context, faults, calls, cloud, Pass(View(), instance, pc))
    }

    // ---- API calls ----

    method GetInstance(id: string) returns (r: Got<Instance>)
      modifies this`calls
      ensures calls == old(calls) + 1
      ensures var reply, there := faults(old(calls)), InstanceById(cloud, id);
              r == match reply.outcome
                   case Ok | Late => (if there.Some? then Found(there.value) else NotFound)
                   case Missing => NotFound
                   case Fail => Failed
    {
      var reply := faults(calls);
      calls := calls + 1;
      if reply.outcome.Fail? { return Failed; }
      if reply.outcome.Missing? { return NotFound; }
      var there := InstanceById(cloud, id);
      r := if there.Some? then Found(there.value) else NotFound;
    }

    /** The first instance of that name, None if there is none, or an error. */
    method FindInstanceByName(name: string) returns (ok: bool, r: Option<Instance>)
      modifies this`calls
      ensures calls == old(calls) + 1
      ensures ok <==> Up(faults(old(calls)))
      ensures ok ==> r == InstanceByName(cloud, name)
    {
      var reply := faults(calls);
      calls := calls + 1;
      if !Up(reply) { return false, None; }
      for i := 0 to |cloud.instances|
        invariant forall j :: 0 <= j < i ==> cloud.instances[j].name != name
      {
        if cloud.instances[i].name == name {
          FirstIs(cloud.instances, (x: Instance) => x.name == name, i);
          return true, Some(cloud.instances[i]);
        }
      }
      return true, None;
    }

    method ListPoolMembers(pool: string) returns (ok: bool, members: seq<Member>)
      modifies this`calls
      ensures calls == old(calls) + 1
      ensures ok <==> Up(faults(old(calls)))
      ensures ok ==> members == Filter(cloud.members, (x: Member) => x.pool == pool)
    {
      var reply := faults(calls);
      calls := calls + 1;
      ok := Up(reply);
      members := if ok then Filter(cloud.members, (x: Member) => x.pool == pool) else [];
    }

    method AddPoolMember(pool: string, ip: string, port: nat) returns (ok: bool, id: string)
      modifies this`calls, this`cloud
      ensures calls == old(calls) + 1
      ensures ok <==> Up(faults(old(calls)))
      ensures id == faults(old(calls)).id
      ensures cloud == if ok then AddMember(old(cloud), id, pool, ip, port) else old(cloud)
    {
      var reply := faults(calls);
      calls := calls + 1;
      ok, id := Up(reply), reply.id;
      if ok { cloud := AddMember(cloud, id, pool, ip, port); }
    }

    /** The member of a pool at that address and port, by a scan of the pool's listing. */
    method ScanMembers(pool: string, ip: string, port: nat) returns (found: Option<Member>)
      modifies this`calls
      ensures calls == old(calls) + 1
      ensures var reply := faults(old(calls));
              found == if Up(reply) then MemberAt(cloud, pool, ip, port) else None
    {
      var ok, members := ListPoolMembers(pool);
      if !ok { return None; }
      var here := (x: Member) => x.address == ip && x.port == port;
      FirstOfFilter(cloud.members, (x: Member) => x.pool == pool, here, At(pool, ip, port));
      for i := 0 to |members|
        invariant forall j :: 0 <= j < i ==> !here(members[j])
      {
        if members[i].address == ip && members[i].port == port {
          FirstIs(members, here, i);
          return Some(members[i]);
        }
      }
      return None;
    }

    // ---- Pool members ----

    method EnsureRegisterPoolMember(ip: string, ghost instance: Option<Instance>)
      modifies this
      ensures Now(instance, End(Done)) == old(EndOf(instance, AfterApi(context, ip)))
    {
      hide Step, MemberAt, PoolByName, AddMember;
      if context.lbId == "" { return; }
      FindPoolCall(spec, context, faults, calls, cloud, Pass(View(), instance, FindPool(ip)));
      var reply := faults(calls);
      calls := calls + 1;
      if !Up(reply) { return; }
      var pool := PoolByName(cloud, context.lbId, REGISTER_POOL);
      if pool.None? { return; }
      RegisterIn(pool.value.id, ip, instance);
    }

    method RegisterIn(pool: string, ip: string, ghost instance: Option<Instance>)
      modifies this
      ensures Now(instance, End(Done)) == old(EndOf(instance, ListRegister(ip, pool)))
    {
      hide Step, MemberAt, AddMember, Finish;
      ListRegisterCall(spec, context, faults, calls, cloud, Pass(View(), instance, ListRegister(ip, pool)));
      var found := ScanMembers(pool, ip, REGISTER_PORT);
      if found.Some? {
        registerMember := found.value.id;
        return;
      }
      AddRegisterCall(spec, context, faults, calls, cloud, Pass(View(), instance, AddRegister(ip, pool)));
      var ok, id := AddPoolMember(pool, ip, REGISTER_PORT);
      if ok { registerMember := id; }
    }

    method EnsureLbPoolMember(instance: Instance)
      modifies this
      ensures Now(Some(instance), End(Done)) == old(EndOf(Some(instance),
                if spec.controlPlane && context.poolId != "" && PrivateIp(instance.ips) != "" then ListApi(PrivateIp(instance.ips))
                else End(Done)))
    {
      hide Step, MemberAt, AddMember, PrivateIp;
      if !spec.controlPlane || context.poolId == "" { return; }
      var privateIp := FindPrivateIp(instance.ips);
      if privateIp == "" { return; }
      ListApiCall(spec, context, faults, calls, cloud, Pass(View(), Some(instance), ListApi(privateIp)));
      var found := ScanMembers(context.poolId, privateIp, API_PORT);
      if found.Some? {
        apiMember := found.value.id;
      } else {
        AddApiCall(spec, context, faults, calls, cloud, Pass(View(), Some(instance), AddApi(privateIp)));
        var ok, id := AddPoolMember(context.poolId, privateIp, API_PORT);
        if !ok { return; }
        apiMember := id;
      }
      EnsureRegisterPoolMember(privateIp, Some(instance));
    }

    static method FindPrivateIp(ips: seq<IpAddress>) returns (r: string)
      ensures r == PrivateIp(ips)
    {
      for i := 0 to |ips|
        invariant forall j :: 0 <= j < i ==> !(ips[j].version == 4 && ips[j].kind == "private")
      {
        if ips[i].version == 4 && ips[i].kind == "private" {
          FirstIs(ips, (x: IpAddress) => x.version == 4 && x.kind == "private", i);
          return ips[i].ip;
        }
      }
      return "";
    }

    static method CollectAddresses(ips: seq<IpAddress>) returns (r: seq<Address>)
      ensures r == Addresses(ips)
    {
      r := [];
      for i := 0 to |ips|
        invariant r == Addresses(ips[..i])
      {
        assert ips[..i + 1][..i] == ips[..i];
        if ips[i].version != 4 { continue; }
        r := r + [if ips[i].kind == "public" then External(ips[i].ip) else Internal(ips[i].ip)];
      }
      assert ips[..|ips|] == ips;
    }

    // ---- The pass ----

    method HandleExistingInstance(instance: Instance) returns (phase: Phase)
      modifies this
      ensures Now(Some(instance), End(phase)) ==
              old(Finish(spec, context, faults, calls, cloud, Handle(spec, context, Pass(View(), None, FindByName), instance)))
    {
      instanceId := instance.id;
      match instance.power {
        case Active =>
          addresses := CollectAddresses(instance.ips);
          providerId := Names.ProviderId(spec.region, instance.id);
          ready := true;
          EnsureLbPoolMember(instance);
          return Done;
        case Broken =>
          ready := false;
          failed := true;
          return Done;
        case _ =>
          ready := false;
          return Requeue;
      }
    }

    method CreateInstance() returns (phase: Phase)
      modifies this
      ensures Now(None, End(phase)) == old(EndOf(None, Resolve))
    {
      hide Finish;
      CallOnce(spec, context, faults, calls, cloud, Pass(View(), None, Resolve));
      var resolved := faults(calls);
      calls := calls + 1;
      if !Up(resolved) { return Error; }
      CallOnce(spec, context, faults, calls, cloud, Pass(View(), None, Create));
      var reply := faults(calls);
      calls := calls + 1;
      if !Up(reply) { return Error; }
      cloud := cloud.(instances := cloud.instances + [Instance(reply.id, InstanceName(spec), Build, [])], used := cloud.used + {reply.id});
      instanceId := reply.id;
      return Requeue;
    }

    /** The search by adopted ID and by name, when the recorded ID led nowhere. */
    method FindOrCreate() returns (phase: Phase, handled: Option<Instance>)
      modifies this
      ensures Now(handled, End(phase)) == old(EndOf(None, AfterRecorded(spec)))
    {
      hide Step, Handle, InstanceById, InstanceByName, InstanceName, Finish;
      if spec.existing != "" {
        GetAdoptedCall(spec, context, faults, calls, cloud, View());
        var adopted := GetInstance(spec.existing);
        if !adopted.Found? { return Error, None; }
        phase := HandleExistingInstance(adopted.value);
        return phase, Some(adopted.value);
      }
      FindByNameCall(spec, context, faults, calls, cloud, View());
      var ok, found := FindInstanceByName(InstanceName(spec));
      if !ok { return Error, None; }
      if found.Some? {
        phase := HandleExistingInstance(found.value);
        return phase, found;
      }
      phase := CreateInstance();
      return phase, None;
    }

    /** The whole pass does what the interleaving model does when nothing interrupts it. */
    method ReconcileNormal() returns (phase: Phase, handled: Option<Instance>)
      modifies this
      ensures Now(handled, End(phase)) == old(Finish(spec, context, faults, calls, cloud, Begin(spec, context, View())))
    {
      if context.paused {
        ready := false;
        return Done, None;
      }
      if !finalizer {
        finalizer, ready := true, false;
        return Done, None;
      }
      hide Step, Handle, InstanceById;
      if !context.infraReady || !context.bootstrap { return Requeue, None; }
      if instanceId != "" {
        GetRecordedCall(spec, context, faults, calls, cloud, View());
        var recorded := GetInstance(instanceId);
        match recorded {
          case Found(x) =>
            phase := HandleExistingInstance(x);
            return phase, Some(x);
          case NotFound => instanceId := "";
          case Failed => return Error, None;
        }
      }
      phase, handled := FindOrCreate();
    }

    /** Where a delete pass stands once the pool member has been seen to. */
    function Rest(): (Cloud, Pass, nat)
      reads this
    {
      Finish(spec, context, faults, calls, cloud, WithoutFinalizer(Pass(View(), None, AfterMember(spec, View()))))
    }

    method RemoveLbPoolMember()
      requires !spec.keep
      modifies this
      ensures View() == old(View()).(apiMember := apiMember)
      ensures Rest() == old(Finish(spec, context, faults, calls, cloud, BeginDelete(spec, context, View())))
    {
      if apiMember == "" || context.poolId == "" { return; }
      hide Finish;
      CallOnce(spec, context, faults, calls, cloud, Pass(View(), None, RemoveMember));
      var reply := faults(calls);
      calls := calls + 1;
      if reply.outcome.Fail? { return; }
      if !reply.outcome.Missing? {
        var id := apiMember;
        cloud := cloud.(members := Filter(cloud.members, (x: Member) => !(x.pool == context.poolId && x.id == id)));
      }
      apiMember := "";
    }

    method ReconcileDelete() returns (phase: Phase)
      modifies this
      ensures Now(None, End(phase)) == old(Finish(spec, context, faults, calls, cloud, BeginDelete(spec, context, View())))
    {
      if spec.keep {
        finalizer := false;
        return Done;
      }
      RemoveLbPoolMember();
      phase := DeleteRecorded();
    }

    method DeleteRecorded() returns (phase: Phase)
      modifies this
      ensures Now(None, End(phase)) == old(Rest())
    {
      if instanceId == "" {
        finalizer := false;
        return Done;
      }
      hide Step, Finish, InstanceById, Terminated;
      DeleteCalls(spec, context, faults, calls, cloud, View());
      phase := DeleteInstanceOnRecord();
    }

    /** The DELETE, and the read that decides whether the instance counts as gone. */
    method DeleteInstanceOnRecord() returns (phase: Phase)
      modifies this
      ensures var f, n, c, st := faults, old(calls), old(cloud), old(View());
              var c1 := if Up(f(n)) then Terminated(c, st.instanceId, if f(n).outcome.Ok? then Deleted else Other) else c;
              var there := if Up(f(n + 1)) then InstanceById(c1, st.instanceId) else None;
              Now(None, End(phase)) ==
                if f(n).outcome.Fail? then (c, Pass(st, None, End(Error)), n + 1)
                else if there.Some? && !there.value.power.Deleted? then (c1, Pass(st, None, End(Requeue)), n + 2)
                else (c1, Pass(st.(finalizer := false), None, End(Done)), n + 2)
    {
      hide InstanceById, Terminated;
      var reply := faults(calls);
      calls := calls + 1;
      if reply.outcome.Fail? { return Error; }
      if !reply.outcome.Missing? { cloud := Terminated(cloud, instanceId, if reply.outcome.Ok? then Deleted else Other); }
      var left := GetInstance(instanceId);
      if left.Found? && !left.value.power.Deleted? { return Requeue; }
      finalizer := false;
      return Done;
    }
  }
}
