/** OVHClusterReconciler in the source's own form: methods that update the OVHCluster in place, with
    early returns and loops, each proved to take the world where the functions of ClusterSteps and
    ClusterDelete say. The theorems about those functions are therefore about these methods. */
module ClusterScope {
  import opened Collections
  import opened OvhCloud
  import opened ClusterSteps
  import Delete = ClusterDelete
  import Names

  class ClusterScope {
    const spec: Spec
    const faults: Oracle

    var cloud: Cloud
    var status: Status
    var calls: nat
    var log: seq<Event>
    var seen: set<Sight>

    constructor (spec: Spec, faults: Oracle, w: World)
      ensures this.spec == spec && this.faults == faults && View() == w
    {
      this.spec, this.faults, cloud, status, calls, log, seen := spec, faults, w.c, w.st, w.n, w.log, w.seen;
    }

    function View(): World
      reads this
    {
      World(cloud, status, calls, log, seen)
    }

    // ---- The OVH client: each call takes the world where OvhCloud says ----

    method Become(w: World)
      modifies this
      ensures View() == w
    {
      cloud, status, calls, log, seen := w.c, w.st, w.n, w.log, w.seen;
    }

    /** Any call of which only success matters. */
    method Call() returns (ok: bool)
      modifies this`calls
      ensures View() == Called(old(View())) && ok == Up(faults, old(View()))
    {
      ok := Up(faults, View());
      calls := calls + 1;
    }

    method Get<T>(there: Option<T>) returns (r: Got<T>)
      modifies this`calls
      ensures View() == Called(old(View())) && r == Answer(faults, old(View()), there)
    {
      r := Answer(faults, View(), there);
      calls := calls + 1;
    }

    // ---- Network ----

    method ReconcileNetwork() returns (phase: Phase)
      modifies this
      ensures (phase, View()) == ClusterSteps.ReconcileNetwork(faults, spec, old(View()))
    {
      hide EnsureSubnet, PostNetwork;
      if spec.network.None? { return Done; }
      var cfg := spec.network.value;
      if status.networkId == UNSET {
        if cfg.privateId != UNSET {
          status := status.(networkId := cfg.privateId);
        } else {
          var (id, w) := PostNetwork(faults, View());
          Become(w);
          if id == UNSET { return Error; }
          status := status.(networkId := id, networkCreated := true);
        }
      }
      var got := Get(if status.networkId in cloud.networks then Some(cloud.networks[status.networkId]) else None);
      match got {
        case Absent =>
          status := status.(networkId := UNSET, subnetId := UNSET);
          return Error;
        case Broken => return Error;
        case Found(net) =>
          if net.wait > 0 { return Requeue; }
          phase := ReconcileSubnet(cfg, net);
      }
    }

    method ReconcileSubnet(cfg: NetworkConfig, net: Network) returns (phase: Phase)
      modifies this
      ensures (phase, View()) == EnsureSubnet(faults, cfg, old(View()), net)
    {
      if status.subnetId != UNSET { return Done; }
      var ok := Call();
      if !ok { return Error; }
      if net.subnets != [] {
        status := status.(subnetId := net.subnets[0]);
        return Done;
      }
      if !cfg.hasCidr { return Done; }
      var (id, w) := PostSubnet(faults, View(), status.networkId);
      Become(w);
      if id == UNSET { return Error; }
      status := status.(subnetId := id);
      return Done;
    }

    // ---- Security groups ----

    /** existingByName: a later group of the same name overwrites an earlier one. */
    static method ByName(listed: seq<Group>) returns (r: map<string, Id>)
      ensures forall name :: name in r <==> LastNamed(listed, name).Some?
      ensures forall name :: name in r ==> LastNamed(listed, name) == Some(r[name])
    {
      r := map[];
      for i := 0 to |listed|
        invariant forall name :: name in r <==> LastNamed(listed[..i], name).Some?
        invariant forall name :: name in r ==> LastNamed(listed[..i], name) == Some(r[name])
      {
        assert listed[..i + 1] == listed[..i] + [listed[i]];
        assert listed[..i + 1][..i] == listed[..i];
        r := r[listed[i].name := listed[i].id];
      }
      assert listed[..|listed|] == listed;
    }

    method ReconcileSecurityGroups()
      modifies this
      ensures View() == ReconcileGroups(faults, spec, old(View()))
    {
      if spec.groups == [] { return; }
      var listed := cloud.groups;
      var ok := Call();
      if !ok { return; }
      var existing := ByName(listed);
      ghost var w0 := View();
      for i := 0 to |spec.groups|
        invariant EnsureGroups(faults, spec, View(), listed, spec.groups[i..]) == EnsureGroups(faults, spec, w0, listed, spec.groups)
      {
        var g := spec.groups[i];
        assert spec.groups[i..][1..] == spec.groups[i + 1..];
        if g in status.groupIds && status.groupIds[g] != UNSET { continue; }
        var name := GroupName(spec, g);
        if name in existing {
          status := status.(groupIds := status.groupIds[g := existing[name]]);
          continue;
        }
        var (id, w) := PostGroup(faults, View(), name);
        Become(w);
        if id == UNSET { return; }
        status := status.(groupIds := status.groupIds[g := id]);
      }
    }

    // ---- Listener, pool and health monitor ----

    method FindListenerByName(lb: Id, name: string) returns (r: Option<Listener>)
      ensures r == ListenerByName(cloud, lb, name)
    {
      for i := 0 to |cloud.listeners|
        invariant forall j :: 0 <= j < i ==> !(cloud.listeners[j].name == name && lb in cloud.listeners[j].lbs)
      {
        if cloud.listeners[i].name == name && lb in cloud.listeners[i].lbs {
          FirstIs(cloud.listeners, (x: Listener) => x.name == name && lb in x.lbs, i);
          return Some(cloud.listeners[i]);
        }
      }
      return None;
    }

    method FindPoolByName(lb: Id, name: string) returns (r: Option<Pool>)
      ensures r == PoolByName(cloud, lb, name)
    {
      for i := 0 to |cloud.pools|
        invariant forall j :: 0 <= j < i ==> !(cloud.pools[j].name == name && cloud.pools[j].lb == lb)
      {
        if cloud.pools[i].name == name && cloud.pools[i].lb == lb {
          FirstIs(cloud.pools, (x: Pool) => x.name == name && x.lb == lb, i);
          return Some(cloud.pools[i]);
        }
      }
      return None;
    }

    method EnsureListenerOf(port: Port) returns (ok: bool)
      modifies this
      ensures (ok, View()) == EnsureListener(faults, old(View()), port)
    {
      if ListenerOf(status, port) != UNSET { return true; }
      ok := Call();
      if !ok { return; }
      var existing := FindListenerByName(status.lbId, PortName(port));
      if existing.Some? {
        status := WithListener(status, port, existing.value.id);
        return;
      }
      var (id, w) := PostListener(faults, View(), PortName(port), PortNumber(port), status.lbId);
      Become(w);
      if id == UNSET { return false; }
      status := WithListener(status, port, id);
    }

    method EnsurePoolOf(port: Port) returns (ok: bool)
      modifies this
      ensures (ok, View()) == EnsurePool(faults, old(View()), port)
    {
      if PoolOf(status, port) != UNSET { return true; }
      ok := Call();
      if !ok { return; }
      var existing := FindPoolByName(status.lbId, PoolName(port));
      if existing.Some? {
        status := WithPool(status, port, existing.value.id);
        return;
      }
      var (id, w) := PostPool(faults, View(), PoolName(port), status.lbId, ListenerOf(status, port));
      Become(w);
      if id == UNSET { return false; }
      status := WithPool(status, port, id);
    }

    method EnsurePoolHealthMonitor(port: Port)
      modifies this
      ensures View() == EnsureMonitor(faults, old(View()), port)
    {
      var ok := Call();
      if !ok { return; }
      if MonitorByName(cloud, MonitorName(port)).Some? { return; }
      Become(PostMonitor(faults, View(), MonitorName(port), PoolOf(status, port)));
    }

    method ReconcileLbPort(port: Port) returns (ok: bool)
      modifies this
      ensures (ok, View()) == ReconcilePort(faults, old(View()), port)
    {
      hide EnsureListener, EnsurePool, EnsureMonitor;
      ok := EnsureListenerOf(port);
      if !ok { return; }
      ok := EnsurePoolOf(port);
      if !ok { return; }
      EnsurePoolHealthMonitor(port);
    }

    // ---- Floating IP and gateway ----

    method ExposeGatewayOfCluster()
      modifies this
      ensures View() == EnsureGatewayExposed(faults, spec, old(View()))
    {
      hide ExposeGateway, GatewayByName;
      if status.gatewayExposed { return; }
      if status.gatewayId == UNSET {
        var ok := Call();
        if !ok { return; }
        var gateway := GatewayByName(cloud, GatewayName(spec));
        if gateway.None? { return; }
        status := status.(gatewayId := gateway.value.id);
        if status.gatewayId == UNSET { return; }
      }
      var (done, w) := ExposeGateway(faults, View(), status.gatewayId);
      Become(w);
      if done { status := status.(gatewayExposed := true); }
    }

    method ReconcileFloatingIp(lb: LoadBalancer) returns (r: FipResult)
      modifies this
      ensures (r, View()) == ReconcileFip(faults, spec, old(View()), lb)
    {
      hide EnsureGatewayExposed, DiscoverFip, FipById;
      if lb.fip.Some? && lb.fip.value.ip != "" {
        var ref := lb.fip.value;
        status := status.(fipId := ref.id);
        seen := seen + {OnLb(lb.id, ref.id, ref.ip)};
        ExposeGatewayOfCluster();
        return Ip(ref.ip);
      }
      if status.fipId != UNSET {
        ExposeGatewayOfCluster();
        var got := Get(FipById(cloud, status.fipId));
        if got.Found? && ShownIp(got.value) != "" {
          seen := seen + {Fetched(status.fipId, ShownIp(got.value))};
          return Ip(ShownIp(got.value));
        }
        if !got.Absent? { return NotYet; }
        status := status.(fipId := UNSET);
      }
      r := DiscoverFloatingIp(lb);
    }

    method DiscoverFloatingIp(lb: LoadBalancer) returns (r: FipResult)
      modifies this
      ensures (r, View()) == DiscoverFip(faults, spec, old(View()), lb)
    {
      hide EnsureGatewayExposed, AllocateFip, FipOfLb;
      var ok := Call();
      if ok && FipOfLb(cloud, lb.id).Some? {
        var x := FipOfLb(cloud, lb.id).value;
        status := status.(fipId := x.id);
        seen := seen + {Listed(lb.id, x.id, ShownIp(x))};
        if ShownIp(x) == "" { return NotYet; }
        ExposeGatewayOfCluster();
        return Ip(ShownIp(x));
      }
      if lb.vip == "" { return NotYet; }
      r := AllocateFloatingIp(lb);
    }

    method AllocateFloatingIp(lb: LoadBalancer) returns (r: FipResult)
      modifies this
      ensures (r, View()) == AllocateFip(faults, spec, old(View()), lb)
    {
      hide EnsureGatewayExposed, PostLbFip, FipOfLb, LbById;
      var (id, w) := PostLbFip(faults, View(), lb, GatewayName(spec));
      Become(w);
      if id == UNSET { return FipError; }
      ExposeGatewayOfCluster();
      var got := Get(LbById(cloud, lb.id));
      if got.Found? && got.value.fip.Some? && got.value.fip.value.id != UNSET {
        var ref := got.value.fip.value;
        status := status.(fipId := ref.id);
        seen := seen + {OnLb(lb.id, ref.id, ref.ip)};
        return if ref.ip != "" then Ip(ref.ip) else NotYet;
      }
      var ok := Call();
      if ok && FipOfLb(cloud, lb.id).Some? {
        var x := FipOfLb(cloud, lb.id).value;
        status := status.(fipId := x.id);
        seen := seen + {Listed(lb.id, x.id, ShownIp(x))};
        return if ShownIp(x) != "" then Ip(ShownIp(x)) else NotYet;
      }
      return NotYet;
    }

    // ---- Load balancer ----

    /** The first listed load balancer of that name, after a listing that may fail. */
    method FindLoadBalancerByName(name: string) returns (ok: bool, r: Option<LoadBalancer>)
      modifies this
      ensures (ok, View()) == ListLbs(faults, old(View())) && r == VisibleLbByName(cloud, name)
    {
      var (listed, w) := ListLbs(faults, View());
      Become(w);
      ok := listed;
      for i := 0 to |cloud.lbs|
        invariant View() == w
        invariant forall j :: 0 <= j < i ==> !(cloud.lbs[j].visible && cloud.lbs[j].name == name)
      {
        if cloud.lbs[i].visible && cloud.lbs[i].name == name {
          FirstIs(cloud.lbs, (x: LoadBalancer) => x.visible && x.name == name, i);
          return ok, Some(cloud.lbs[i]);
        }
      }
      return ok, None;
    }

    method CreateLoadBalancer(name: string, net: Id) returns (id: Id)
      modifies this
      ensures (id, View()) == FindOrPostLb(faults, old(View()), name, net)
    {
      hide ListLbs, PostLb, VisibleLbByName;
      var ok, existing := FindLoadBalancerByName(name);
      if ok && existing.Some? { return existing.value.id; }
      var (posted, w) := PostLb(faults, View(), name, net);
      Become(w);
      if posted == UNSET { return UNSET; }
      for attempt := 0 to 10
        invariant PollLb(faults, View(), name, attempt) == PollLb(faults, w, name, 0)
      {
        ok, existing := FindLoadBalancerByName(name);
        if !ok { return UNSET; }
        if existing.Some? { return existing.value.id; }
      }
      return UNSET;
    }

    method CreateClusterLb() returns (phase: Phase)
      modifies this
      ensures (phase, View()) == CreateLb(faults, spec, old(View()))
    {
      hide FindOrPostLb;
      var subnet := if spec.lbSubnetId != UNSET then spec.lbSubnetId else status.subnetId;
      var ok := Call();
      if !ok || subnet == UNSET || status.networkId == UNSET { return Error; }
      var net := status.networkId;
      var got := Get(if net in cloud.networks then Some(cloud.networks[net]) else None);
      if !got.Found? || got.value.osId == UNSET { return Error; }
      var id := CreateLoadBalancer(Names.LbName(spec.name), net);
      if id == UNSET { return Error; }
      status := status.(lbId := id);
      return Requeue;
    }

    method SetEndpoint(host: string)
      modifies this
      ensures View() == old(View()).(st := WithEndpoint(old(status), host))
    {
      if host != "" && status.endpoint == "" { status := status.(endpoint := host); }
    }

    method HandleExistingLb(lb: LoadBalancer) returns (phase: Phase)
      modifies this
      ensures (phase, View()) == HandleLb(faults, spec, old(View()), lb)
    {
      hide ReconcilePort, ReconcileFip;
      if lb.wait > 0 || lb.deleting { return Requeue; }
      var ok := ReconcileLbPort(ApiServer);
      if !ok { return Error; }
      ok := ReconcileLbPort(Register);
      if !ok { return Error; }
      if !spec.floating {
        SetEndpoint(lb.vip);
        return Done;
      }
      var fip := ReconcileFloatingIp(lb);
      match fip {
        case FipError => return Error;
        case NotYet => return Requeue;
        case Ip(ip) => SetEndpoint(ip); return Done;
      }
    }

    method AdoptExisting()
      modifies this
      ensures View() == old(View()).(st := Adopt(spec, old(status)))
    {
      if status.lbId == UNSET { status := status.(lbId := spec.existingLb); }
      if status.fipId == UNSET { status := status.(fipId := spec.existingFip); }
    }

    method ReconcileLoadBalancer() returns (phase: Phase)
      modifies this
      ensures (phase, View()) == ReconcileLb(faults, spec, old(View()))
    {
      hide HandleLb, CreateLb, LbById, Adopt, ForgetLb;
      AdoptExisting();
      if status.lbId != UNSET {
        var got := Get(LbById(cloud, status.lbId));
        match got {
          case Found(lb) =>
            phase := HandleExistingLb(lb);
            return;
          case Broken => return Error;
          case Absent => status := ForgetLb(status);
        }
      }
      phase := CreateClusterLb();
    }

    method ReconcileDnsRecord()
      modifies this
      ensures View() == ReconcileDns(faults, spec, old(View()))
    {
      if !spec.dns || status.recordId != UNSET || status.endpoint == "" { return; }
      var (id, w) := PostRecord(faults, View());
      Become(w);
      if id == UNSET { return; }
      status := status.(recordId := id);
      var refreshed := Call();
    }

    method ReconcileNormal() returns (phase: Phase)
      modifies this
      ensures (phase, View()) == ClusterSteps.ReconcileNormal(faults, spec, old(View()))
    {
      hide ClusterSteps.ReconcileNetwork, ReconcileGroups, ReconcileLb, ReconcileDns;
      if !status.finalizer {
        status := status.(finalizer := true);
        return Requeue;
      }
      var ok := Call();
      if !ok { return Error; }
      phase := ReconcileNetwork();
      if !phase.Done? { return; }
      ReconcileSecurityGroups();
      phase := ReconcileLoadBalancer();
      if !phase.Done? { return; }
      ReconcileDnsRecord();
      status := status.(ready := true);
    }

    // ---- Deletion ----

    method CleanDnsRecord()
      modifies this
      ensures View() == Delete.CleanDns(faults, spec, old(View()))
    {
      hide DeleteRecord;
      if status.recordId == UNSET || !spec.dns { return; }
      var (ok, w) := DeleteRecord(faults, View(), status.recordId);
      Become(w);
      if !ok { return; }
      var refreshed := Call();
      status := status.(recordId := UNSET);
    }

    /** Ranging over a map while deleting from it, in whatever order the runtime picks. */
    method CleanSecurityGroups(order: seq<string>)
      modifies this
      ensures View() == Delete.CleanGroups(faults, old(View()), order)
    {
      hide DeleteGroup;
      ghost var w0 := View();
      for i := 0 to |order|
        invariant Delete.CleanGroups(faults, View(), order[i..]) == Delete.CleanGroups(faults, w0, order)
      {
        assert order[i..][1..] == order[i + 1..];
        if order[i] !in status.groupIds { continue; }
        var (ok, w) := DeleteGroup(faults, View(), status.groupIds[order[i]]);
        Become(w);
        if ok { status := status.(groupIds := status.groupIds - {order[i]}); }
      }
    }

    method CaptureFloatingIps() returns (fips: seq<Id>)
      modifies this
      ensures (fips, View()) == Delete.CaptureFips(faults, old(View()))
    {
      fips := if status.fipId != UNSET then [status.fipId] else [];
      if status.lbId == UNSET { return; }
      var ok := Call();
      if !ok { return; }
      ghost var first := fips;
      for i := 0 to |cloud.fips|
        invariant Delete.Capture(cloud.fips[i..], status.lbId, fips) == Delete.Capture(cloud.fips, status.lbId, first)
      {
        assert cloud.fips[i..][1..] == cloud.fips[i + 1..];
        var x := cloud.fips[i];
        if x.entity == Some(status.lbId) && x.id !in fips { fips := fips + [x.id]; }
      }
    }

    method DeleteClusterLb() returns (ok: bool)
      modifies this
      ensures (ok, View()) == Delete.DeleteRecordedLb(faults, old(View()))
    {
      hide DeleteLb, Filter;
      if status.lbId == UNSET { return true; }
      if status.poolId != UNSET { Become(DeletePool(faults, View(), status.poolId)); }
      if status.listenerId != UNSET { Become(DeleteListener(faults, View(), status.listenerId)); }
      var (accepted, w) := DeleteLb(faults, View(), status.lbId);
      Become(w);
      return accepted;
    }

    static method MatchPrefix(lbs: seq<LoadBalancer>, prefix: string) returns (matched: seq<Id>)
      ensures matched == Delete.LbsByPrefix(lbs, prefix)
    {
      matched := [];
      for i := 0 to |lbs|
        invariant matched == Delete.LbsByPrefix(lbs[..i], prefix)
      {
        assert lbs[..i + 1][..i] == lbs[..i];
        if lbs[i].visible && Names.HasPrefix(lbs[i].name, prefix) { matched := matched + [lbs[i].id]; }
      }
      assert lbs[..|lbs|] == lbs;
    }

    /** Client.ListLoadBalancersByPrefix: the listing filtered by appending. */
    method ListLoadBalancersByPrefix(prefix: string) returns (ok: bool, matched: seq<Id>)
      modifies this
      ensures (ok, View()) == ListLbs(faults, old(View())) && matched == Delete.LbsByPrefix(cloud.lbs, prefix)
    {
      hide Delete.LbsByPrefix, ListLbs;
      var (listed, w) := ListLbs(faults, View());
      Become(w);
      matched := MatchPrefix(cloud.lbs, prefix);
      ok := listed;
    }

    method DeleteOrphanLbs()
      modifies this
      ensures View() == Delete.DeleteOrphans(faults, spec, old(View()))
    {
      hide ListLbs, DeleteLb, Delete.LbsByPrefix;
      var ok, orphans := ListLoadBalancersByPrefix(Names.LbName(spec.name));
      if !ok { return; }
      ghost var w0 := View();
      for i := 0 to |orphans|
        invariant Delete.DeleteLbs(faults, View(), orphans[i..]) == Delete.DeleteLbs(faults, w0, orphans)
      {
        assert orphans[i..][1..] == orphans[i + 1..];
        Become(DeleteLb(faults, View(), orphans[i]).1);
      }
    }

    method CleanupFloatingIps(fips: seq<Id>) returns (requeue: bool)
      modifies this
      ensures (requeue, View()) == Delete.CleanFips(faults, old(View()), fips)
    {
      hide DeleteFip, FipById;
      requeue := false;
      ghost var w0 := View();
      for i := 0 to |fips|
        invariant var (rest, w) := Delete.CleanFips(faults, View(), fips[i..]);
                  (requeue || rest, w) == Delete.CleanFips(faults, w0, fips)
      {
        assert fips[i..][1..] == fips[i + 1..];
        Become(DeleteFip(faults, View(), fips[i]));
        var fip := Answer(faults, View(), FipById(cloud, fips[i]));
        Become(Logged(View(), ReadFip(fips[i], Delete.Gone(fip))));
        if !fip.Found? { continue; }
        if fip.value.entity.None? && fip.value.down { continue; }
        requeue := true;
      }
    }

    method CleanClusterGateway()
      modifies this
      ensures View() == Delete.CleanGateway(faults, spec, old(View()))
    {
      hide DeleteGateway;
      var ok := Call();
      if !ok { return; }
      for i := 0 to |cloud.gateways|
        invariant View() == Called(old(View()))
        invariant forall j :: 0 <= j < i ==> cloud.gateways[j].name != GatewayName(spec)
      {
        if cloud.gateways[i].name == GatewayName(spec) {
          FirstIs(cloud.gateways, (x: Gateway) => x.name == GatewayName(spec), i);
          SameScan(i);
          Become(DeleteGateway(faults, View(), cloud.gateways[i].id));
          return;
        }
      }
    }

    lemma SameScan(i: nat)
      requires i < |cloud.gateways| && cloud.gateways[i].name == GatewayName(spec)
      requires forall j :: 0 <= j < i ==> cloud.gateways[j].name != GatewayName(spec)
      ensures GatewayByName(cloud, GatewayName(spec)) == Some(cloud.gateways[i])
    {
    }

    method ReconcileDelete(order: seq<string>) returns (phase: Phase)
      modifies this
      ensures (phase, View()) == Delete.ReconcileDelete(faults, spec, old(View()), order)
    {
      hide Delete.CleanDns, Delete.CleanGroups, Delete.CaptureFips, Delete.DeleteRecordedLb, Delete.DeleteOrphans,
           Delete.CleanFips, Delete.CleanGateway, DeleteNetwork;
      if spec.keep {
        status := status.(finalizer := false);
        return Done;
      }
      CleanDnsRecord();
      CleanSecurityGroups(order);
      var fips := CaptureFloatingIps();
      var ok := DeleteClusterLb();
      if !ok { return Error; }
      DeleteOrphanLbs();
      var requeue := CleanupFloatingIps(fips);
      if requeue { return Requeue; }
      CleanClusterGateway();
      if status.networkCreated && status.networkId != UNSET {
        var (accepted, w) := DeleteNetwork(faults, View(), status.networkId);
        Become(w);
        if !accepted { return Requeue; }
      }
      status := status.(finalizer := false);
      return Done;
    }
  }
}
