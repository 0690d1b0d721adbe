/** Which pool members a machine's pass leaves: a control-plane machine whose instance is ACTIVE is
    registered for the API server and, once its pool is there, for the supervisor. */
module Registration {
  import opened Collections
  import opened MachineSteps
  import MachineReadiness
  import MachineScope
  import ClusterSteps

  ghost predicate PrivateAt(ips: seq<IpAddress>, i: nat) { i < |ips| && ips[i].version == 4 && ips[i].kind == "private" }

  /** The first private IPv4 address. */
  ghost predicate FirstPrivate(ips: seq<IpAddress>, ip: string) {
    exists i: nat :: PrivateAt(ips, i) && ips[i].ip == ip && forall j :: 0 <= j < i ==> !PrivateAt(ips, j)
  }

  /** The machine is to be registered, at this address. */
  ghost predicate Eligible(sp: Spec, cx: Context, x: Instance, ip: string) {
    sp.controlPlane && x.power.Active? && cx.poolId != "" && ip != "" && FirstPrivate(x.ips, ip)
  }

  /** The pool has a member with this address, port and identifier. */
  ghost predicate Registered(c: Cloud, pool: string, ip: string, port: nat, id: string) {
    exists y :: y in c.members && y.pool == pool && y.address == ip && y.port == port && y.id == id
  }

  ghost predicate SupervisorPool(c: Cloud, lb: string, pool: string) {
    exists x :: x in c.pools && x.lb == lb && x.name == "rke2-register-pool" && x.id == pool
  }

  /** The load balancer has a supervisor pool, and one of them has the member. */
  ghost predicate Supervised(c: Cloud, lb: string, ip: string, id: string) {
    exists pool :: SupervisorPool(c, lb, pool) && Registered(c, pool, ip, 9345, id)
  }

  /** Listener, pool and members of a port go by the same name and number in both controllers. */
  lemma PortsAgree()
    ensures ClusterSteps.PortNumber(ClusterSteps.ApiServer) == API_PORT == 6443
    ensures ClusterSteps.PortNumber(ClusterSteps.Register) == REGISTER_PORT == 9345
    ensures ClusterSteps.PoolName(ClusterSteps.Register) == REGISTER_POOL == "rke2-register-pool"
  {
  }

  lemma PrivateIpIs(ips: seq<IpAddress>)
    ensures forall ip :: ip != "" ==> (PrivateIp(ips) == ip <==> FirstPrivate(ips, ip))
  {
    var private := (x: IpAddress) => x.version == 4 && x.kind == "private";
    var found := First(ips, private);
    if found.Some? {
      var i: nat :| i < |ips| && ips[i] == found.value && forall j :: 0 <= j < i ==> !private(ips[j]);
      assert PrivateAt(ips, i) && forall j :: 0 <= j < i ==> !PrivateAt(ips, j);
      forall ip | FirstPrivate(ips, ip) ensures ip == found.value.ip {
        var k: nat :| PrivateAt(ips, k) && ips[k].ip == ip && forall j :: 0 <= j < k ==> !PrivateAt(ips, j);
        assert !(i < k) && !(k < i);
      }
    } else {
      assert forall i :: 0 <= i < |ips| ==> !private(ips[i]);
    }
  }

  // ---- What registration adds, whatever is answered ----

  /** A new member is at this address, in the API server pool on 6443 or in a supervisor pool on 9345. */
  ghost predicate NewMember(cx: Context, c: Cloud, ip: string, y: Member) {
    && y.address == ip
    && ((y.pool == cx.poolId && y.port == 6443) || (SupervisorPool(c, cx.lbId, y.pool) && y.port == 9345))
  }

  /** Members stay, and new ones are as they should be; pools and instances are left alone. */
  ghost predicate MembersAdded(cx: Context, c: Cloud, c': Cloud, ip: string) {
    && c'.pools == c.pools && c'.instances == c.instances && c.members <= c'.members
    && forall i :: |c.members| <= i < |c'.members| ==> NewMember(cx, c, ip, c'.members[i])
  }

  /** A pass under way at registration has this address and, past the lookup, a supervisor pool. */
  ghost predicate Underway(cx: Context, c: Cloud, pc: Pc, ip: string) {
    match pc
    case ListApi(a) => a == ip
    case AddApi(a) => a == ip
    case FindPool(a) => a == ip
    case ListRegister(a, pool) => a == ip && SupervisorPool(c, cx.lbId, pool)
    case AddRegister(a, pool) => a == ip && SupervisorPool(c, cx.lbId, pool)
    case End(_) => true
    case _ => false
  }

  lemma PoolFound(c: Cloud, lb: string)
    ensures var found := PoolByName(c, lb, "rke2-register-pool");
            if found.Some? then SupervisorPool(c, lb, found.value.id) else forall pool :: !SupervisorPool(c, lb, pool)
  {
  }

  lemma StepAdds(sp: Spec, cx: Context, c: Cloud, p: Pass, r: Reply, ip: string)
    requires Underway(cx, c, p.pc, ip)
    ensures var (c1, p1) := Step(sp, cx, c, p, r);
            MembersAdded(cx, c, c1, ip) && Underway(cx, c1, p1.pc, ip) && p1.instance == p.instance
  {
    hide MemberAt, PoolByName;
    PoolFound(c, cx.lbId);
    SamePools(c, Step(sp, cx, c, p, r).0, cx.lbId);
  }

  /** Past the API server's pool, the machine is registered there. */
  ghost predicate ApiFirst(cx: Context, c: Cloud, p: Pass, ip: string) {
    p.pc.FindPool? || p.pc.ListRegister? || p.pc.AddRegister? ==> Registered(c, cx.poolId, ip, 6443, p.st.apiMember)
  }

  lemma StepApiFirst(sp: Spec, cx: Context, c: Cloud, p: Pass, r: Reply, ip: string)
    requires Underway(cx, c, p.pc, ip) && ApiFirst(cx, c, p, ip)
    ensures var (c1, p1) := Step(sp, cx, c, p, r);
            ApiFirst(cx, c1, p1, ip) && (c1.members != c.members ==> Registered(c1, cx.poolId, ip, 6443, p1.st.apiMember))
  {
    hide MemberAt, PoolByName, AddMember, Registered, SupervisorPool;
    MemberFound(c, cx.poolId, ip, 6443);
    MemberAdded(c, r.id, cx.poolId, ip, 6443);
    if p.pc.AddRegister? { MemberAdded(c, r.id, p.pc.pool, ip, 9345); }
  }

  /** A pass that adds any member has registered the machine for the API server: when that fails, the
      supervisor's pool is left alone. */
  lemma {:induction false} RestApiFirst(sp: Spec, cx: Context, f: Oracle, n: nat, c: Cloud, p: Pass, ip: string)
    requires Underway(cx, c, p.pc, ip) && ApiFirst(cx, c, p, ip)
    ensures var (c', p', m) := Finish(sp, cx, f, n, c, p);
            && (c'.members != c.members ==> Registered(c', cx.poolId, ip, 6443, p'.st.apiMember))
            && (p.pc.FindPool? || p.pc.ListRegister? || p.pc.AddRegister? ==> p'.st.apiMember == p.st.apiMember)
            && (forall y :: y in c.members ==> y in c'.members)
    decreases Rank(p.pc)
  {
    hide Step, Underway, ApiFirst, Registered;
    if !p.pc.End? {
      var (c1, p1) := Step(sp, cx, c, p, f(n));
      StepRank(sp, cx, c, p, f(n));
      StepAdds(sp, cx, c, p, f(n), ip);
      StepApiFirst(sp, cx, c, p, f(n), ip);
      SupervisorSteps(sp, cx, c, p, f(n), ip);
      RestApiFirst(sp, cx, f, n + 1, c1, p1, ip);
      StillRegistered(c1, Finish(sp, cx, f, n, c, p).0, cx.poolId, ip, p1.st.apiMember);
    }
  }

  lemma SupervisorSteps(sp: Spec, cx: Context, c: Cloud, p: Pass, r: Reply, ip: string)
    requires Underway(cx, c, p.pc, ip)
    ensures var (c1, p1) := Step(sp, cx, c, p, r);
            && (p.pc.FindPool? || p.pc.ListRegister? || p.pc.AddRegister? ==> p1.st.apiMember == p.st.apiMember)
            && (c1.members != c.members ==> p1.pc.End? || p1.pc.FindPool?)
            && (p.pc.FindPool? || p.pc.ListRegister? || p.pc.AddRegister? ==> p1.pc.End? || p1.pc.ListRegister? || p1.pc.AddRegister?)
  {
    hide MemberAt, PoolByName;
  }

  lemma StillRegistered(c: Cloud, c': Cloud, pool: string, ip: string, id: string)
    requires forall y :: y in c.members ==> y in c'.members
    ensures Registered(c, pool, ip, 6443, id) ==> Registered(c', pool, ip, 6443, id)
  {
  }

  lemma SamePools(c: Cloud, c': Cloud, lb: string)
    ensures c'.pools == c.pools ==> forall pool :: SupervisorPool(c', lb, pool) <==> SupervisorPool(c, lb, pool)
  {
  }

  lemma {:induction false} RestAdds(sp: Spec, cx: Context, f: Oracle, n: nat, c: Cloud, p: Pass, ip: string)
    requires Underway(cx, c, p.pc, ip)
    ensures var (c', p', m) := Finish(sp, cx, f, n, c, p); MembersAdded(cx, c, c', ip) && p'.instance == p.instance
    decreases Rank(p.pc)
  {
    hide Step, Underway, NewMember;
    if !p.pc.End? {
      var (c1, p1) := Step(sp, cx, c, p, f(n));
      StepRank(sp, cx, c, p, f(n));
      StepAdds(sp, cx, c, p, f(n), ip);
      RestAdds(sp, cx, f, n + 1, c1, p1, ip);
      SameNew(cx, c, c1, ip);
    }
  }

  lemma SameNew(cx: Context, c: Cloud, c1: Cloud, ip: string)
    requires c1.pools == c.pools
    ensures forall y :: NewMember(cx, c1, ip, y) <==> NewMember(cx, c, ip, y)
  {
    SamePools(c, c1, cx.lbId);
  }

  // ---- Registration with every call answered ----

  lemma MemberFound(c: Cloud, pool: string, ip: string, port: nat)
    ensures forall y :: MemberAt(c, pool, ip, port) == Some(y) ==> Registered(c, pool, ip, port, y.id)
  {
  }

  lemma MemberAdded(c: Cloud, id: string, pool: string, ip: string, port: nat)
    ensures Registered(AddMember(c, id, pool, ip, port), pool, ip, port, id)
    ensures forall p, a, q, i :: Registered(c, p, a, q, i) ==> Registered(AddMember(c, id, pool, ip, port), p, a, q, i)
  {
    var c' := AddMember(c, id, pool, ip, port);
    assert c'.members[|c.members|] in c'.members;
  }

  /** From the supervisor's part on: what was registered stays, and the API server's ID. */
  lemma SupervisorRegistered(sp: Spec, cx: Context, f: Oracle, n: nat, c: Cloud, p: Pass, ip: string)
    requires (forall k :: f(k).outcome.Ok?) && p.pc == AfterApi(cx, ip)
    ensures var (c', p', m) := Finish(sp, cx, f, n, c, p);
            && (forall pool, a, port, id :: Registered(c, pool, a, port, id) ==> Registered(c', pool, a, port, id))
            && p'.st.apiMember == p.st.apiMember
            && (cx.lbId != "" && (exists pool :: SupervisorPool(c, cx.lbId, pool)) ==> Supervised(c', cx.lbId, ip, p'.st.registerMember))
  {
    hide Finish, MemberAt, PoolByName, AddMember, Registered, SupervisorPool;
    if cx.lbId != "" {
      PoolFound(c, cx.lbId);
      MachineScope.FindPoolCall(sp, cx, f, n, c, p);
      assert f(n).outcome.Ok? && f(n + 1).outcome.Ok? && f(n + 2).outcome.Ok?;
      var found := PoolByName(c, cx.lbId, "rke2-register-pool");
      if found.Some? {
        var pool := found.value.id;
        var p1 := p.(pc := ListRegister(ip, pool));
        MachineScope.ListRegisterCall(sp, cx, f, n + 1, c, p1);
        MemberFound(c, pool, ip, 9345);
        var p2 := p1.(pc := AddRegister(ip, pool));
        MachineScope.AddRegisterCall(sp, cx, f, n + 2, c, p2);
        MemberAdded(c, f(n + 2).id, pool, ip, 9345);
        var c' := Finish(sp, cx, f, n, c, p).0;
        assert c'.pools == c.pools by { AddKeepsPools(c, f(n + 2).id, pool, ip); }
        SamePools(c, c', cx.lbId);
      }
    } else {
      NoCall(sp, cx, f, n, c, p);
    }
  }

  lemma AddKeepsPools(c: Cloud, id: string, pool: string, ip: string)
    ensures AddMember(c, id, pool, ip, 9345).pools == c.pools && AddMember(c, id, pool, ip, 6443).pools == c.pools
  {
  }

  lemma NoCall(sp: Spec, cx: Context, f: Oracle, n: nat, c: Cloud, p: Pass)
    requires p.pc.End?
    ensures Finish(sp, cx, f, n, c, p) == (c, p, n)
  {
  }

  ghost predicate FullyRegistered(cx: Context, c: Cloud, c': Cloud, ip: string, st: Status) {
    && Registered(c', cx.poolId, ip, 6443, st.apiMember)
    && (cx.lbId != "" && (exists pool :: SupervisorPool(c, cx.lbId, pool)) ==> Supervised(c', cx.lbId, ip, st.registerMember))
  }

  lemma ApiRegistered(sp: Spec, cx: Context, f: Oracle, n: nat, c: Cloud, p: Pass, ip: string)
    requires (forall k :: f(k).outcome.Ok?) && p.pc == ListApi(ip)
    ensures var (c', p', m) := Finish(sp, cx, f, n, c, p); FullyRegistered(cx, c, c', ip, p'.st)
  {
    hide Finish, MemberAt, AddMember, Registered, SupervisorPool;
    MachineScope.ListApiCall(sp, cx, f, n, c, p);
    assert f(n).outcome.Ok? && f(n + 1).outcome.Ok?;
    MemberFound(c, cx.poolId, ip, 6443);
    var found := MemberAt(c, cx.poolId, ip, 6443);
    if found.Some? {
      SupervisorRegistered(sp, cx, f, n + 1, c, p.(st := p.st.(apiMember := found.value.id), pc := AfterApi(cx, ip)), ip);
    } else {
      MachineScope.AddApiCall(sp, cx, f, n + 1, c, p.(pc := AddApi(ip)));
      var c1 := AddMember(c, f(n + 1).id, cx.poolId, ip, 6443);
      MemberAdded(c, f(n + 1).id, cx.poolId, ip, 6443);
      AddKeepsPools(c, f(n + 1).id, cx.poolId, ip);
      SamePools(c, c1, cx.lbId);
      SupervisorRegistered(sp, cx, f, n + 2, c1, p.(st := p.st.(apiMember := f(n + 1).id), pc := AfterApi(cx, ip)), ip);
    }
  }

  // ---- Whole passes ----

  /** Where a pass that got hold of an instance stands right then: the cloud is as it found it. */
  ghost predicate TookOver(sp: Spec, cx: Context, f: Oracle, c: Cloud, st: Status, r: (Cloud, Pass, nat), q: Pass, m: nat) {
    && q.st.apiMember == st.apiMember && q.st.registerMember == st.registerMember
    && r.1.instance.Some? && q.instance.None? && r == Finish(sp, cx, f, m, c, Handle(sp, cx, q, r.1.instance.value))
  }

  lemma HandleUnderway(sp: Spec, cx: Context, c: Cloud, q: Pass, x: Instance)
    ensures var p := Handle(sp, cx, q, x);
            && p.instance == Some(x) && Underway(cx, c, p.pc, PrivateIp(x.ips))
            && (p.pc == ListApi(PrivateIp(x.ips)) || p.pc.End?)
            && (p.pc.ListApi? <==> sp.controlPlane && x.power.Active? && cx.poolId != "" && PrivateIp(x.ips) != "")
            && p.st.apiMember == q.st.apiMember && p.st.registerMember == q.st.registerMember
  {
    hide PrivateIp, Addresses;
  }

  /** A search that ends with an instance in hand took it over at some call; otherwise no member changed. */
  lemma {:induction false} SearchTakesOver(sp: Spec, cx: Context, f: Oracle, n: nat, c: Cloud, p: Pass)
    requires MachineReadiness.Searching(p.pc) && p.instance.None?
    ensures var r := Finish(sp, cx, f, n, c, p);
            if r.1.instance.Some? then exists q, m: nat :: TookOver(sp, cx, f, c, p.st, r, q, m)
            else r.0.members == c.members && r.1.st.apiMember == p.st.apiMember && r.1.st.registerMember == p.st.registerMember
    decreases Rank(p.pc)
  {
    hide Handle, InstanceById, InstanceByName, InstanceName;
    var (c1, p1) := Step(sp, cx, c, p, f(n));
    StepRank(sp, cx, c, p, f(n));
    var r := Finish(sp, cx, f, n, c, p);
    assert r == Finish(sp, cx, f, n + 1, c1, p1);
    if x :| p1 == Handle(sp, cx, p, x) && c1 == c {
      HandleUnderway(sp, cx, c, p, x);
      RestAdds(sp, cx, f, n + 1, c, p1, PrivateIp(x.ips));
      assert TookOver(sp, cx, f, c, p.st, r, p, n + 1);
    } else if !p1.pc.End? {
      assert MachineReadiness.Searching(p1.pc) && p1.instance.None? && c1 == c;
      SearchTakesOver(sp, cx, f, n + 1, c1, p1);
      if r.1.instance.Some? {
        var q, m: nat :| TookOver(sp, cx, f, c1, p1.st, r, q, m);
        assert TookOver(sp, cx, f, c, p.st, r, q, m);
      }
    }
  }

  /** With every call answered, a pass that has an ACTIVE instance of a control-plane machine in hand leaves it
      registered on port 6443 of the API server pool and, if the load balancer has a supervisor pool, on
      port 9345 of one, with both IDs on record. */
  lemma ActiveRegistered(sp: Spec, cx: Context, f: Oracle, c: Cloud, st: Status, ip: string)
    requires forall k :: f(k).outcome.Ok?
    ensures var (c', p, n) := Finish(sp, cx, f, 0, c, Begin(sp, cx, st));
            p.instance.Some? && Eligible(sp, cx, p.instance.value, ip) ==> FullyRegistered(cx, c, c', ip, p.st)
  {
    hide Finish, Handle, FullyRegistered, FirstPrivate, PrivateIp;
    var p0 := Begin(sp, cx, st);
    var r := Finish(sp, cx, f, 0, c, p0);
    if p0.pc.End? {
      NoCall(sp, cx, f, 0, c, p0);
    } else {
      SearchTakesOver(sp, cx, f, 0, c, p0);
      if r.1.instance.Some? && Eligible(sp, cx, r.1.instance.value, ip) {
        var x := r.1.instance.value;
        var q, m: nat :| TookOver(sp, cx, f, c, p0.st, r, q, m);
        PrivateIpIs(x.ips);
        HandleUnderway(sp, cx, c, q, x);
        ApiRegistered(sp, cx, f, m, c, Handle(sp, cx, q, x), ip);
      }
    }
  }

  /** Whatever is answered, a pass adds members only for the instance in hand, only if the machine is to be
      registered, and only at that address, first of all to the API server's pool; otherwise it changes no
      member and no member's ID on record. */
  lemma MembersOfPass(sp: Spec, cx: Context, f: Oracle, c: Cloud, st: Status)
    ensures var (c', p, n) := Finish(sp, cx, f, 0, c, Begin(sp, cx, st));
            || (c'.members == c.members && p.st.apiMember == st.apiMember && p.st.registerMember == st.registerMember)
            || (p.instance.Some? && exists ip :: Eligible(sp, cx, p.instance.value, ip) && MembersAdded(cx, c, c', ip)
                                                 && (c'.members != c.members ==> Registered(c', cx.poolId, ip, 6443, p.st.apiMember)))
  {
    hide Finish, Handle, FirstPrivate, PrivateIp, MembersAdded, Registered;
    var p0 := Begin(sp, cx, st);
    var r := Finish(sp, cx, f, 0, c, p0);
    if p0.pc.End? {
      NoCall(sp, cx, f, 0, c, p0);
    } else {
      SearchTakesOver(sp, cx, f, 0, c, p0);
      if r.1.instance.Some? {
        var x := r.1.instance.value;
        var q, m: nat :| TookOver(sp, cx, f, c, p0.st, r, q, m);
        PrivateIpIs(x.ips);
        HandleUnderway(sp, cx, c, q, x);
        var p1 := Handle(sp, cx, q, x);
        if p1.pc.End? {
          NoCall(sp, cx, f, m, c, p1);
        } else {
          RestAdds(sp, cx, f, m, c, p1, PrivateIp(x.ips));
          RestApiFirst(sp, cx, f, m, c, p1, PrivateIp(x.ips));
        }
      }
    }
  }
}
