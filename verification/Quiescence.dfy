/** A finished cluster stays put: once an error-free pass has ended Ready, further error-free
    passes over the same spec and cloud change nothing. */
module Quiescence {
  import opened Collections
  import opened OvhCloud
  import opened ClusterSteps
  import Provenance

  ghost predicate ErrorFree(f: Oracle) { forall n :: f(n).outcome.Ok? }

  // ---- What a pass that ended Ready leaves: for groups and ports, IDs on record, not resources in the cloud ----

  ghost predicate NetworkSettled(sp: Spec, c: Cloud, st: Status) {
    sp.network.Some? ==>
      && st.networkId != UNSET && st.networkId in c.networks && c.networks[st.networkId].wait == 0
      && (st.subnetId != UNSET || (c.networks[st.networkId].subnets == [] && !sp.network.value.hasCidr))
  }

  ghost predicate GroupsSettled(sp: Spec, st: Status) {
    forall g :: g in sp.groups ==> g in st.groupIds && st.groupIds[g] != UNSET
  }

  ghost predicate PortSettled(c: Cloud, st: Status, port: Port) {
    ListenerOf(st, port) != UNSET && PoolOf(st, port) != UNSET && MonitorByName(c, MonitorName(port)).Some?
  }

  /** The gateway is exposed, or there is none of the cluster's name. */
  ghost predicate GatewaySettled(sp: Spec, c: Cloud, st: Status) {
    st.gatewayExposed || (st.gatewayId == UNSET && GatewayByName(c, GatewayName(sp)).None?)
  }

  /** The recorded floating IP is the one the load balancer refers to, or one whose address the API shows. */
  ghost predicate FipSettled(c: Cloud, st: Status, lb: LoadBalancer) {
    st.fipId != UNSET &&
    if lb.fip.Some? && lb.fip.value.ip != "" then st.fipId == lb.fip.value.id
    else FipById(c, st.fipId).Some? && ShownIp(FipById(c, st.fipId).value) != ""
  }

  ghost predicate EndpointSettled(sp: Spec, c: Cloud, st: Status, lb: LoadBalancer) {
    if sp.floating then FipSettled(c, st, lb) && GatewaySettled(sp, c, st) && st.endpoint != ""
    else lb.vip != "" ==> st.endpoint != ""
  }

  ghost predicate LbSettled(sp: Spec, c: Cloud, st: Status) {
    && st.lbId != UNSET && (st.fipId == UNSET ==> sp.existingFip == UNSET)
    && LbById(c, st.lbId).Some? && Active(LbById(c, st.lbId).value)
    && PortSettled(c, st, ApiServer) && PortSettled(c, st, Register)
    && EndpointSettled(sp, c, st, LbById(c, st.lbId).value)
  }

  ghost predicate Settled(sp: Spec, c: Cloud, st: Status) {
    && st.finalizer && st.ready
    && NetworkSettled(sp, c, st) && GroupsSettled(sp, st) && LbSettled(sp, c, st)
    && (sp.dns && st.endpoint != "" ==> st.recordId != UNSET)
  }

  // ---- A settled cluster is left alone ----

  /** Nothing but the number of calls and what was seen has changed. */
  ghost predicate Untouched(w: World, w': World) { w' == w.(n := w'.n, seen := w'.seen) }

  lemma NetworkQuiet(f: Oracle, sp: Spec, w: World)
    requires ErrorFree(f) && NetworkSettled(sp, w.c, w.st)
    ensures ReconcileNetwork(f, sp, w).0.Done? && Untouched(w, ReconcileNetwork(f, sp, w).1)
  {
  }

  lemma {:induction false} GroupsQuiet(f: Oracle, sp: Spec, w: World, listed: seq<Group>, todo: seq<string>)
    requires forall g :: g in todo ==> g in w.st.groupIds && w.st.groupIds[g] != UNSET
    ensures EnsureGroups(f, sp, w, listed, todo) == w
    decreases |todo|
  {
    if todo != [] {
      assert todo[0] in todo && forall g :: g in todo[1..] ==> g in todo;
      GroupsQuiet(f, sp, w, listed, todo[1..]);
    }
  }

  lemma PortQuiet(f: Oracle, w: World, port: Port)
    requires ErrorFree(f) && PortSettled(w.c, w.st, port)
    ensures ReconcilePort(f, w, port).0 && Untouched(w, ReconcilePort(f, w, port).1)
  {
  }

  lemma GatewayQuiet(f: Oracle, sp: Spec, w: World)
    requires ErrorFree(f) && GatewaySettled(sp, w.c, w.st)
    ensures Untouched(w, EnsureGatewayExposed(f, sp, w))
  {
  }

  lemma FipQuiet(f: Oracle, sp: Spec, w: World, lb: LoadBalancer)
    requires ErrorFree(f) && FipSettled(w.c, w.st, lb) && GatewaySettled(sp, w.c, w.st)
    ensures ReconcileFip(f, sp, w, lb).0.Ip? && Untouched(w, ReconcileFip(f, sp, w, lb).1)
  {
    hide EnsureGatewayExposed;
    if lb.fip.Some? && lb.fip.value.ip != "" {
      GatewayQuiet(f, sp, Saw(RecordFip(w, lb.fip.value.id), OnLb(lb.id, lb.fip.value.id, lb.fip.value.ip)));
    } else {
      GatewayQuiet(f, sp, w);
    }
  }

  lemma LbQuiet(f: Oracle, sp: Spec, w: World)
    requires ErrorFree(f) && LbSettled(sp, w.c, w.st)
    ensures ReconcileLb(f, sp, w).0.Done? && Untouched(w, ReconcileLb(f, sp, w).1)
  {
    hide ReconcilePort, ReconcileFip, CreateLb;
    var lb := LbById(w.c, w.st.lbId).value;
    assert Adopt(sp, w.st) == w.st;
    var w1 := Called(w);
    PortQuiet(f, w1, ApiServer);
    var w2 := ReconcilePort(f, w1, ApiServer).1;
    PortQuiet(f, w2, Register);
    if sp.floating { FipQuiet(f, sp, ReconcilePort(f, w2, Register).1, lb); }
  }

  lemma SettledQuiet(f: Oracle, sp: Spec, w: World)
    requires ErrorFree(f) && Settled(sp, w.c, w.st)
    ensures ReconcileNormal(f, sp, w).0.Done? && Untouched(w, ReconcileNormal(f, sp, w).1)
  {
    hide ReconcileNetwork, EnsureGroups, ReconcileLb;
    NetworkQuiet(f, sp, Called(w));
    var w1 := ReconcileNetwork(f, sp, Called(w)).1;
    GroupsQuiet(f, sp, Called(w1), w1.c.groups, sp.groups);
    var w2 := ReconcileGroups(f, sp, w1);
    assert Untouched(w, w2);
    LbQuiet(f, sp, w2);
  }

  // ---- A pass that ends Ready has settled ----

  lemma NetworkSettles(f: Oracle, sp: Spec, w: World)
    requires ErrorFree(f) && WellFormed(w.c) && ReconcileNetwork(f, sp, w).0.Done?
    ensures var w' := ReconcileNetwork(f, sp, w).1; NetworkSettled(sp, w'.c, w'.st)
  {
  }

  lemma {:induction false} GroupsSettle(f: Oracle, sp: Spec, w: World, listed: seq<Group>, todo: seq<string>)
    requires ErrorFree(f) && forall x :: x in listed ==> x.id != UNSET
    ensures var st := EnsureGroups(f, sp, w, listed, todo).st;
            && (forall g :: g in todo ==> g in st.groupIds && st.groupIds[g] != UNSET)
            && (forall g :: g in w.st.groupIds && w.st.groupIds[g] != UNSET ==> g in st.groupIds && st.groupIds[g] != UNSET)
    decreases |todo|
  {
    hide GroupName, LastNamed;
    if todo != [] {
      var g := todo[0];
      assert todo == [g] + todo[1..];
      if g in w.st.groupIds && w.st.groupIds[g] != UNSET {
        GroupsSettle(f, sp, w, listed, todo[1..]);
      } else {
        LastNamedSet(listed, GroupName(sp, g));
        match LastNamed(listed, GroupName(sp, g))
        case Some(id) =>
          GroupsSettle(f, sp, w.(st := w.st.(groupIds := w.st.groupIds[g := id])), listed, todo[1..]);
        case None =>
          var (id, w1) := PostGroup(f, w, GroupName(sp, g));
          assert id != UNSET && w1.st == w.st;
          hide PostGroup;
          GroupsSettle(f, sp, w1.(st := w1.st.(groupIds := w1.st.groupIds[g := id])), listed, todo[1..]);
      }
    }
  }

  lemma {:induction false} LastNamedSet(s: seq<Group>, name: string)
    requires forall x :: x in s ==> x.id != UNSET
    ensures LastNamed(s, name).Some? ==> LastNamed(s, name).value != UNSET
  {
    if s != [] {
      assert s[|s| - 1] in s;
      LastNamedSet(s[..|s| - 1], name);
    }
  }

  lemma PortSettles(f: Oracle, w: World, port: Port)
    requires ErrorFree(f) && WellFormed(w.c)
    ensures var (ok, w') := ReconcilePort(f, w, port); ok && PortSettled(w'.c, w'.st, port)
  {
    assert forall x :: x in w.c.pools ==> x.id != UNSET;
    hide EnsureListener, EnsurePool, EnsureMonitor, WellFormed;
    ListenerSettles(f, w, port);
    var w1 := EnsureListener(f, w, port).1;
    PoolSettles(f, w1, port);
    MonitorSettles(f, EnsurePool(f, w1, port).1, port);
  }

  lemma ListenerSettles(f: Oracle, w: World, port: Port)
    requires ErrorFree(f) && WellFormed(w.c)
    ensures var (ok, w') := EnsureListener(f, w, port); ok && ListenerOf(w'.st, port) != UNSET && w'.c.pools == w.c.pools
  {
  }

  lemma PoolSettles(f: Oracle, w: World, port: Port)
    requires ErrorFree(f) && forall x :: x in w.c.pools ==> x.id != UNSET
    ensures var (ok, w') := EnsurePool(f, w, port); ok && PoolOf(w'.st, port) != UNSET
  {
  }

  lemma MonitorSettles(f: Oracle, w: World, port: Port)
    requires ErrorFree(f)
    ensures MonitorByName(EnsureMonitor(f, w, port).c, MonitorName(port)).Some?
  {
    if MonitorByName(w.c, MonitorName(port)).None? {
      var c' := EnsureMonitor(f, w, port).c;
      assert c'.monitors[|w.c.monitors|].name == MonitorName(port);
    }
  }

  /** Monitors are never removed by the port step, so the first port stays settled. */
  lemma MonitorStays(f: Oracle, w: World, port: Port, name: string)
    requires MonitorByName(w.c, name).Some?
    ensures MonitorByName(ReconcilePort(f, w, port).1.c, name).Some?
  {
    hide EnsureListener, EnsurePool;
    var m := MonitorByName(w.c, name).value;
    var k :| 0 <= k < |w.c.monitors| && w.c.monitors[k] == m;
    var c' := ReconcilePort(f, w, port).1.c;
    assert w.c.monitors <= c'.monitors;
    assert c'.monitors[k].name == name;
  }

  lemma GatewaySettles(f: Oracle, sp: Spec, w: World)
    requires ErrorFree(f) && WellFormed(w.c)
    ensures var w' := EnsureGatewayExposed(f, sp, w); GatewaySettled(sp, w'.c, w'.st)
  {
  }

  lemma PostFipWellFormed(f: Oracle, w: World, lb: LoadBalancer, gwName: string)
    requires WellFormed(w.c)
    ensures WellFormed(PostLbFip(f, w, lb, gwName).1.c)
  {
  }

  /** Exposing the gateway keeps the cloud well formed. */
  lemma ExposeWellFormed(f: Oracle, sp: Spec, w: World)
    requires WellFormed(w.c)
    ensures WellFormed(EnsureGatewayExposed(f, sp, w).c)
  {
  }

  lemma AllocateSettles(f: Oracle, sp: Spec, w: World, lb: LoadBalancer)
    requires ErrorFree(f) && WellFormed(w.c) && LbById(w.c, lb.id) == Some(lb)
    requires !(lb.fip.Some? && lb.fip.value.ip != "")
    requires AllocateFip(f, sp, w, lb).0.Ip?
    ensures var w' := AllocateFip(f, sp, w, lb).1; FipSettled(w'.c, w'.st, lb) && GatewaySettled(sp, w'.c, w'.st)
  {
    hide PostLbFip, EnsureGatewayExposed, WellFormed, GatewaySettled;
    PostFipWellFormed(f, w, lb, GatewayName(sp));
    var w1 := PostLbFip(f, w, lb, GatewayName(sp)).1;
    GatewaySettles(f, sp, w1);
    ExposeWellFormed(f, sp, w1);
    PostFipLbs(f, w, lb, GatewayName(sp));
    var w2 := EnsureGatewayExposed(f, sp, w1);
    var w3 := Called(w2);
    assert LbById(w2.c, lb.id) == Some(lb);
    var w' := AllocateFip(f, sp, w, lb).1;
    RefIdSet(w2.c, lb);
    var x := FipOfLb(w3.c, lb.id).value;
    assert w'.st.fipId == x.id && w'.c == w3.c;
    ListedFip(w3.c, lb.id);
    assert GatewaySettled(sp, w'.c, w'.st) by { SameGateway(sp, w2, w'); }
  }

  lemma SameGateway(sp: Spec, w: World, w': World)
    requires GatewaySettled(sp, w.c, w.st) && w'.c.gateways == w.c.gateways
    requires w'.st.gatewayId == w.st.gatewayId && w'.st.gatewayExposed == w.st.gatewayExposed
    ensures GatewaySettled(sp, w'.c, w'.st)
  {
  }

  lemma PostFipLbs(f: Oracle, w: World, lb: LoadBalancer, gwName: string)
    ensures PostLbFip(f, w, lb, gwName).1.c.lbs == w.c.lbs
  {
  }

  lemma RefIdSet(c: Cloud, lb: LoadBalancer)
    requires WellFormed(c) && LbById(c, lb.id) == Some(lb)
    ensures lb.fip.Some? ==> lb.fip.value.id != UNSET
  {
  }

  lemma ListedFip(c: Cloud, lb: Id)
    requires WellFormed(c) && FipOfLb(c, lb).Some?
    ensures var x := FipOfLb(c, lb).value; x.id != UNSET && FipById(c, x.id) == Some(x)
  {
  }

  lemma DiscoverSettles(f: Oracle, sp: Spec, w: World, lb: LoadBalancer)
    requires ErrorFree(f) && WellFormed(w.c) && LbById(w.c, lb.id) == Some(lb)
    requires !(lb.fip.Some? && lb.fip.value.ip != "")
    requires DiscoverFip(f, sp, w, lb).0.Ip?
    ensures var w' := DiscoverFip(f, sp, w, lb).1; FipSettled(w'.c, w'.st, lb) && GatewaySettled(sp, w'.c, w'.st)
  {
    hide EnsureGatewayExposed, AllocateFip, WellFormed, GatewaySettled;
    if FipOfLb(w.c, lb.id).Some? {
      ListedFip(w.c, lb.id);
      var x := FipOfLb(w.c, lb.id).value;
      var w1 := Saw(RecordFip(Called(w), x.id), Listed(lb.id, x.id, ShownIp(x)));
      assert WellFormed(w1.c);
      GatewaySettles(f, sp, w1);
    } else {
      AllocateSettles(f, sp, Called(w), lb);
    }
  }

  lemma FipSettles(f: Oracle, sp: Spec, w: World, lb: LoadBalancer)
    requires ErrorFree(f) && WellFormed(w.c) && LbById(w.c, lb.id) == Some(lb)
    requires ReconcileFip(f, sp, w, lb).0.Ip?
    ensures var w' := ReconcileFip(f, sp, w, lb).1; FipSettled(w'.c, w'.st, lb) && GatewaySettled(sp, w'.c, w'.st)
  {
    hide EnsureGatewayExposed, DiscoverFip, WellFormed, GatewaySettled;
    RefIdSet(w.c, lb);
    if lb.fip.Some? && lb.fip.value.ip != "" {
      var ref := lb.fip.value;
      GatewaySettles(f, sp, Saw(RecordFip(w, ref.id), OnLb(lb.id, ref.id, ref.ip)));
    } else if w.st.fipId != UNSET {
      GatewaySettles(f, sp, w);
      ExposeWellFormed(f, sp, w);
      var w1 := EnsureGatewayExposed(f, sp, w);
      var w2 := Called(w1);
      if FipById(w1.c, w1.st.fipId).Some? {
        SameGateway(sp, w1, ReconcileFip(f, sp, w, lb).1);
      } else {
        DiscoverSettles(f, sp, RecordFip(w2, UNSET), lb);
      }
    } else {
      DiscoverSettles(f, sp, w, lb);
    }
  }

  lemma PortWellFormed(f: Oracle, w: World, port: Port)
    requires WellFormed(w.c)
    ensures WellFormed(ReconcilePort(f, w, port).1.c)
  {
    hide EnsurePool, EnsureMonitor;
    assert WellFormed(EnsureListener(f, w, port).1.c);
    PoolWellFormed(f, EnsureListener(f, w, port).1, port);
  }

  lemma PoolWellFormed(f: Oracle, w: World, port: Port)
    requires WellFormed(w.c)
    ensures WellFormed(EnsurePool(f, w, port).1.c)
  {
  }

  lemma EndpointSettles(f: Oracle, sp: Spec, w: World, lb: LoadBalancer)
    requires ErrorFree(f) && WellFormed(w.c) && LbById(w.c, lb.id) == Some(lb)
    requires ServeEndpoint(f, sp, w, lb).0.Done?
    ensures var w' := ServeEndpoint(f, sp, w, lb).1; EndpointSettled(sp, w'.c, w'.st, lb)
  {
    hide ReconcileFip, WellFormed;
    if sp.floating {
      FipSettles(f, sp, w, lb);
      FipNonempty(f, sp, w, lb);
    }
  }

  lemma ServeSettles(f: Oracle, sp: Spec, w: World, lb: LoadBalancer)
    requires ErrorFree(f) && WellFormed(w.c) && LbById(w.c, lb.id) == Some(lb) && w.st.lbId == lb.id != UNSET
    requires w.st.fipId == UNSET ==> sp.existingFip == UNSET
    requires HandleLb(f, sp, w, lb).0.Done?
    ensures var w' := HandleLb(f, sp, w, lb).1; LbSettled(sp, w'.c, w'.st)
  {
    hide ReconcilePort, ServeEndpoint, WellFormed, MonitorByName;
    PortSettles(f, w, ApiServer);
    PortWellFormed(f, w, ApiServer);
    var w1 := ReconcilePort(f, w, ApiServer).1;
    PortSettles(f, w1, Register);
    PortWellFormed(f, w1, Register);
    MonitorStays(f, w1, Register, MonitorName(ApiServer));
    var w2 := ReconcilePort(f, w1, Register).1;
    assert w2.c.lbs == w.c.lbs && LbById(w2.c, lb.id) == Some(lb);
    var w' := HandleLb(f, sp, w, lb).1;
    assert w'.c.monitors == w2.c.monitors && w'.c.lbs == w.c.lbs;
    assert PortSettled(w'.c, w'.st, ApiServer) && PortSettled(w'.c, w'.st, Register) by {
      SameMonitors(w2.c, w'.c);
    }
    EndpointSettles(f, sp, w2, lb);
    assert w' == ServeEndpoint(f, sp, w2, lb).1;
    assert LbById(w'.c, w'.st.lbId) == Some(lb);
    if !sp.floating { ServeWithoutFip(f, sp, w2, lb); }
  }

  lemma ServeWithoutFip(f: Oracle, sp: Spec, w: World, lb: LoadBalancer)
    ensures !sp.floating ==> ServeEndpoint(f, sp, w, lb).1.st.fipId == w.st.fipId
  {
  }

  lemma SameMonitors(c: Cloud, c': Cloud)
    requires c'.monitors == c.monitors
    ensures forall name :: MonitorByName(c', name) == MonitorByName(c, name)
  {
  }

  lemma FipNonempty(f: Oracle, sp: Spec, w: World, lb: LoadBalancer)
    ensures ReconcileFip(f, sp, w, lb).0.Ip? ==> ReconcileFip(f, sp, w, lb).0.ip != ""
  {
    Provenance.FipAddressSeen(f, sp, w, lb);
  }

  lemma LbSettles(f: Oracle, sp: Spec, w: World)
    requires ErrorFree(f) && WellFormed(w.c) && ReconcileLb(f, sp, w).0.Done?
    ensures var w' := ReconcileLb(f, sp, w).1; LbSettled(sp, w'.c, w'.st)
  {
    hide HandleLb, CreateLb, WellFormed, LbSettled;
    var w0 := w.(st := Adopt(sp, w.st));
    var lb := LbById(w0.c, w0.st.lbId).value;
    assert WellFormed(Called(w0).c);
    ServeSettles(f, sp, Called(w0), lb);
  }

  /** An error-free pass that ends Ready leaves network, load balancer, floating IP and endpoint in
      place; of groups, listeners and pools it leaves an ID on record, and some monitor of each name. */
  lemma ReadyIsSettled(f: Oracle, sp: Spec, w: World)
    requires ErrorFree(f) && WellFormed(w.c) && ReconcileNormal(f, sp, w).0.Done?
    ensures var w' := ReconcileNormal(f, sp, w).1; Settled(sp, w'.c, w'.st)
  {
    hide ReconcileNetwork, ReconcileGroups, ReconcileLb, WellFormed, LbSettled;
    var w0 := Called(w);
    assert WellFormed(w0.c);
    NetworkSettles(f, sp, w0);
    var w1 := ReconcileNetwork(f, sp, w0).1;
    NetworkWellFormed(f, sp, w0);
    GroupStepSettles(f, sp, w1);
    var w2 := ReconcileGroups(f, sp, w1);
    GroupsWellFormed(f, sp, w1);
    LbSettles(f, sp, w2);
    LbFrame(f, sp, w2);
    var w3 := ReconcileLb(f, sp, w2).1;
    DnsSettles(f, sp, w3);
  }

  lemma NetworkWellFormed(f: Oracle, sp: Spec, w: World)
    requires WellFormed(w.c)
    ensures WellFormed(ReconcileNetwork(f, sp, w).1.c)
  {
    hide EnsureSubnet;
    if sp.network.Some? {
      var (ok, w1) := EnsureNetwork(f, sp.network.value, w);
      assert WellFormed(w1.c);
      if ok && w1.st.networkId in w1.c.networks {
        SubnetWellFormed(f, sp.network.value, Called(w1), w1.c.networks[w1.st.networkId]);
      }
    }
  }

  lemma SubnetWellFormed(f: Oracle, cfg: NetworkConfig, w: World, net: Network)
    requires WellFormed(w.c)
    ensures WellFormed(EnsureSubnet(f, cfg, w, net).1.c)
  {
  }

  lemma GroupStepSettles(f: Oracle, sp: Spec, w: World)
    requires ErrorFree(f) && WellFormed(w.c)
    ensures GroupsSettled(sp, ReconcileGroups(f, sp, w).st)
  {
    GroupsSettle(f, sp, Called(w), w.c.groups, sp.groups);
  }

  lemma {:induction false} EnsureGroupsWellFormed(f: Oracle, sp: Spec, w: World, listed: seq<Group>, todo: seq<string>)
    requires WellFormed(w.c)
    ensures WellFormed(EnsureGroups(f, sp, w, listed, todo).c)
    decreases |todo|
  {
    if todo != [] {
      var g := todo[0];
      if g in w.st.groupIds && w.st.groupIds[g] != UNSET {
        EnsureGroupsWellFormed(f, sp, w, listed, todo[1..]);
      } else {
        match LastNamed(listed, GroupName(sp, g))
        case Some(id) =>
          EnsureGroupsWellFormed(f, sp, w.(st := w.st.(groupIds := w.st.groupIds[g := id])), listed, todo[1..]);
        case None =>
          var (id, w1) := PostGroup(f, w, GroupName(sp, g));
          EnsureGroupsWellFormed(f, sp, w1.(st := w1.st.(groupIds := w1.st.groupIds[g := id])), listed, todo[1..]);
      }
    }
  }

  lemma GroupsWellFormed(f: Oracle, sp: Spec, w: World)
    requires WellFormed(w.c)
    ensures WellFormed(ReconcileGroups(f, sp, w).c)
  {
    EnsureGroupsWellFormed(f, sp, Called(w), w.c.groups, sp.groups);
  }

  lemma LbFrame(f: Oracle, sp: Spec, w: World)
    ensures var w' := ReconcileLb(f, sp, w).1;
            && w'.c.networks == w.c.networks && w'.st.networkId == w.st.networkId && w'.st.subnetId == w.st.subnetId
            && w'.st.groupIds == w.st.groupIds && w'.st.finalizer == w.st.finalizer
  {
    hide HandleLb, CreateLb;
  }

  /** The record step leaves everything else in place. */
  lemma DnsSettles(f: Oracle, sp: Spec, w: World)
    requires ErrorFree(f) && LbSettled(sp, w.c, w.st)
    ensures var w' := ReconcileDns(f, sp, w);
            && (sp.dns && w'.st.endpoint != "" ==> w'.st.recordId != UNSET)
            && LbSettled(sp, w'.c, w'.st) && LbSettled(sp, w'.c, w'.st.(ready := true))
  {
  }

  // ---- Quiescence ----

  /** Step `k` of `ws` is an error-free pass whose status is saved. */
  ghost predicate ErrorFreePass(sp: Spec, ws: nat -> World, k: nat) {
    exists f :: ErrorFree(f) && ws(k + 1) == ReconcileNormal(f, sp, ws(k)).1
  }

  /** ...and it ends Ready. */
  ghost predicate EndsReady(sp: Spec, ws: nat -> World, k: nat) {
    exists f :: ErrorFree(f) && ReconcileNormal(f, sp, ws(k)).0.Done? && ws(k + 1) == ReconcileNormal(f, sp, ws(k)).1
  }

  /** After step `n` nothing but the number of calls and what was seen changes up to step `m`: no call
      that creates, exposes or deletes is logged, and cloud and status are as they were. */
  ghost predicate QuietBetween(ws: nat -> World, n: nat, m: nat) { Untouched(ws(n), ws(m)) && ws(m).st.ready }

  /** Once an error-free pass has ended Ready and its status is saved, any number of further
      error-free passes do nothing. */
  lemma {:induction false} Quiescent(sp: Spec, ws: nat -> World, n: nat, m: nat)
    requires forall k: nat :: ErrorFreePass(sp, ws, k)
    requires WellFormed(ws(n).c) && EndsReady(sp, ws, n) && m > n
    ensures QuietBetween(ws, n + 1, m)
    decreases m
  {
    hide ReconcileNormal, Settled, WellFormed;
    SettledAfter(sp, ws, n);
    if m > n + 1 {
      Quiescent(sp, ws, n, m - 1);
      assert ErrorFreePass(sp, ws, m - 1);
      var f :| ErrorFree(f) && ws(m - 1 + 1) == ReconcileNormal(f, sp, ws(m - 1)).1;
      SettledQuiet(f, sp, ws(m - 1));
    }
  }

  lemma SettledAfter(sp: Spec, ws: nat -> World, n: nat)
    requires WellFormed(ws(n).c) && EndsReady(sp, ws, n)
    ensures Settled(sp, ws(n + 1).c, ws(n + 1).st) && ws(n + 1).st.ready
  {
    hide ReconcileNormal, WellFormed;
    var f :| ErrorFree(f) && ReconcileNormal(f, sp, ws(n)).0.Done? && ws(n + 1) == ReconcileNormal(f, sp, ws(n)).1;
    ReadyIsSettled(f, sp, ws(n));
  }
}
