/** What one pass of ReconcileNormal adds to the cloud and puts on record, whatever the API answers:
    every created resource with its name, place and port, and nothing else changed. */
module Effects {
  import opened Collections
  import opened OvhCloud
  import opened ClusterSteps
  import opened ClusterDelete
  import opened ClusterRuns
  import Names

  // ---- Networks ----

  /** Networks stay, and so do their subnets; only the network on record may get one more, and at most
      one network is new. */
  ghost predicate NetworksKept(c: Cloud, c': Cloud, recorded: Id) {
    && (forall k :: k in c.networks ==>
          && k in c'.networks && c'.networks[k] == c.networks[k].(subnets := c'.networks[k].subnets)
          && c.networks[k].subnets <= c'.networks[k].subnets
          && (k != recorded ==> c'.networks[k].subnets == c.networks[k].subnets))
    && (forall k :: k in c'.networks && k !in c.networks ==> k == c.next < c'.next)
  }

  /** A network newly on record is the user's or, if they name none, the one just created. */
  ghost predicate NewNetwork(cfg: NetworkConfig, c: Cloud, c': Cloud, id: Id) {
    if cfg.privateId != UNSET then id == cfg.privateId else id in c'.networks && id !in c.networks
  }

  /** A subnet newly on record is the network's first one or, if it had none, the one just created in it. */
  ghost predicate NewSubnet(c: Cloud, c': Cloud, st': Status) {
    && st'.networkId in c'.networks
    && var was := if st'.networkId in c.networks then c.networks[st'.networkId].subnets else [];
       if was != [] then st'.subnetId == was[0]
       else st'.subnetId >= c.next && c'.networks[st'.networkId].subnets == [st'.subnetId]
  }

  ghost predicate NetworkEffect(sp: Spec, w: World, w': World) {
    && NetworksKept(w.c, w'.c, w'.st.networkId)
    && (w'.st.networkId == w.st.networkId || w'.st.networkId == UNSET
        || (w.st.networkId == UNSET && sp.network.Some? && NewNetwork(sp.network.value, w.c, w'.c, w'.st.networkId)))
    && (w'.st.networkCreated <==> w.st.networkCreated || exists k :: k in w'.c.networks && k !in w.c.networks)
    && (w'.st.subnetId == w.st.subnetId || (w'.st.subnetId == UNSET && w'.st.networkId == UNSET)
        || (w.st.subnetId == UNSET && NewSubnet(w.c, w'.c, w'.st)))
    && (w'.st.networkId == UNSET && w.st.networkId != UNSET ==> w'.st.subnetId == UNSET)
  }

  ghost predicate NetworksNumbered(c: Cloud) { forall k :: k in c.networks ==> UNSET < k < c.next }

  /** The network itself, before its subnet. */
  ghost predicate NetworkPart(cfg: NetworkConfig, w: World, w': World) {
    && (forall k :: k in w.c.networks ==> k in w'.c.networks && w'.c.networks[k] == w.c.networks[k])
    && (forall k :: k in w'.c.networks && k !in w.c.networks ==> k == w.c.next < w'.c.next && w'.c.networks[k].subnets == [])
    && w.c.next <= w'.c.next
    && (w'.st.networkId == w.st.networkId || (w.st.networkId == UNSET && NewNetwork(cfg, w.c, w'.c, w'.st.networkId)))
    && (w'.st.networkCreated <==> w.st.networkCreated || exists k :: k in w'.c.networks && k !in w.c.networks)
    && w'.st.subnetId == w.st.subnetId
  }

  /** The rest of the step: the network is forgotten, or stays and may get a subnet. */
  ghost predicate SubnetPart(w: World, w': World) {
    && (forall k :: k in w.c.networks <==> k in w'.c.networks) && w'.st.networkCreated == w.st.networkCreated
    && NetworksKept(w.c, w'.c, w'.st.networkId)
    && (w'.st.networkId == UNSET
        || (w'.st.networkId == w.st.networkId
            && (w'.st.subnetId == w.st.subnetId || (w.st.subnetId == UNSET && NewSubnet(w.c, w'.c, w'.st)))))
    && (w'.st.networkId == UNSET ==> w'.st.subnetId == UNSET || (w.st.networkId == UNSET && w'.st.subnetId == w.st.subnetId))
    && w.c.next <= w'.c.next
  }

  lemma EnsureNetworkEffect(f: Oracle, cfg: NetworkConfig, w: World)
    requires NetworksNumbered(w.c)
    ensures NetworkPart(cfg, w, EnsureNetwork(f, cfg, w).1)
  {
    var w' := EnsureNetwork(f, cfg, w).1;
    if w'.c != w.c { assert w.c.next in w'.c.networks && w.c.next !in w.c.networks; }
  }

  lemma EnsureSubnetEffect(f: Oracle, cfg: NetworkConfig, w: World)
    requires w.st.networkId in w.c.networks && w.st.networkId != UNSET
    ensures SubnetPart(w, EnsureSubnet(f, cfg, w, w.c.networks[w.st.networkId]).1)
  {
    var k, w' := w.st.networkId, EnsureSubnet(f, cfg, w, w.c.networks[w.st.networkId]).1;
    assert w'.st == w.st.(subnetId := w'.st.subnetId);
    assert w'.c == w.c || w'.c == w.c.(next := w.c.next + 1, networks := w.c.networks[k := w.c.networks[k].(subnets := w.c.networks[k].subnets + [w.c.next])]);
    SubnetPartIs(w, w');
  }

  lemma SubnetPartIs(w: World, w': World)
    requires w.st.networkId in w.c.networks && w.st.networkId != UNSET && w'.st == w.st.(subnetId := w'.st.subnetId)
    requires var k := w.st.networkId;
             var was := w.c.networks[k].subnets;
             if w'.c == w.c then w'.st.subnetId == w.st.subnetId || (w.st.subnetId == UNSET && was != [] && w'.st.subnetId == was[0])
             else w'.c == w.c.(next := w.c.next + 1, networks := w.c.networks[k := w.c.networks[k].(subnets := was + [w.c.next])])
                  && w.st.subnetId == UNSET && was == [] && w'.st.subnetId == w.c.next
    ensures SubnetPart(w, w')
  {
  }

  lemma PartsTogether(sp: Spec, cfg: NetworkConfig, w: World, w1: World, w': World)
    requires sp.network == Some(cfg) && NetworkPart(cfg, w, w1) && SubnetPart(w1, w') && NetworksNumbered(w.c)
    ensures NetworkEffect(sp, w, w')
  {
    assert (exists k :: k in w'.c.networks && k !in w.c.networks) <==> exists k :: k in w1.c.networks && k !in w.c.networks;
  }

  lemma NetworkStepEffect(f: Oracle, sp: Spec, w: World)
    requires NetworksNumbered(w.c)
    ensures NetworkEffect(sp, w, ReconcileNetwork(f, sp, w).1)
  {
    if sp.network.Some? {
      var cfg := sp.network.value;
      EnsureNetworkEffect(f, cfg, w);
      RestOfStep(f, sp, w);
      PartsTogether(sp, cfg, w, EnsureNetwork(f, cfg, w).1, ReconcileNetwork(f, sp, w).1);
    }
  }

  lemma RestOfStep(f: Oracle, sp: Spec, w: World)
    requires sp.network.Some? && NetworksNumbered(w.c)
    ensures SubnetPart(EnsureNetwork(f, sp.network.value, w).1, ReconcileNetwork(f, sp, w).1)
  {
    hide EnsureNetwork, EnsureSubnet, SubnetPart;
    var (ok, w1) := EnsureNetwork(f, sp.network.value, w);
    var w' := ReconcileNetwork(f, sp, w).1;
    NoSubnetPart(w1, w');
    if ok && w1.st.networkId in w1.c.networks {
      NetworkSet(f, sp.network.value, w);
      EnsureSubnetEffect(f, sp.network.value, Called(w1));
      CalledFirst(w1, w');
    }
  }

  /** Without a subnet to see to, the network is forgotten or everything stays. */
  lemma NoSubnetPart(w: World, w': World)
    ensures w'.c == w.c && (w'.st == w.st || w'.st == w.st.(networkId := UNSET, subnetId := UNSET)) ==> SubnetPart(w, w')
  {
  }

  lemma CalledFirst(w: World, w': World)
    ensures SubnetPart(Called(w), w') ==> SubnetPart(w, w')
  {
  }

  lemma NetworkSet(f: Oracle, cfg: NetworkConfig, w: World)
    ensures var (ok, w1) := EnsureNetwork(f, cfg, w); ok ==> w1.st.networkId != UNSET
  {
  }

  // ---- Security groups ----

  /** Groups stay; each new one has the generated name of a group of the spec and is on record as that. */
  ghost predicate GroupsEffect(sp: Spec, w: World, w': World) {
    && w.c.groups <= w'.c.groups
    && (forall i :: |w.c.groups| <= i < |w'.c.groups| ==> NewGroup(sp, w.c.next, w'.st, w'.c.groups[i]))
    && (forall g :: g in w.st.groupIds && w.st.groupIds[g] != UNSET ==> g in w'.st.groupIds && w'.st.groupIds[g] == w.st.groupIds[g])
    && (forall g :: g in w'.st.groupIds ==> (g in w.st.groupIds && w'.st.groupIds[g] == w.st.groupIds[g]) || g in sp.groups)
  }

  ghost predicate NewGroup(sp: Spec, next: Id, st': Status, x: Group) {
    x.id >= next && exists g :: OnRecordAs(sp, st', x, g)
  }

  ghost predicate OnRecordAs(sp: Spec, st': Status, x: Group, g: string) {
    g in sp.groups && g in st'.groupIds && st'.groupIds[g] == x.id && x.name == "capi-" + sp.name + "-" + g
  }

  lemma GroupsThen(sp: Spec, w: World, w1: World, w2: World)
    requires GroupsEffect(sp, w, w1) && GroupsEffect(sp, w1, w2) && w.c.next <= w1.c.next
    ensures GroupsEffect(sp, w, w2)
  {
    forall i | |w.c.groups| <= i < |w1.c.groups| ensures NewGroup(sp, w.c.next, w2.st, w2.c.groups[i]) {
      var x := w1.c.groups[i];
      assert NewGroup(sp, w.c.next, w1.st, x) && w2.c.groups[i] == x;
      var g :| OnRecordAs(sp, w1.st, x, g);
      assert OnRecordAs(sp, w2.st, x, g);
    }
  }

  lemma PostGroupEffect(f: Oracle, sp: Spec, w: World, g: string)
    requires g in sp.groups && !(g in w.st.groupIds && w.st.groupIds[g] != UNSET)
    ensures var (id, w1) := PostGroup(f, w, GroupName(sp, g));
            if id == UNSET then GroupsEffect(sp, w, w1)
            else GroupsEffect(sp, w, w1.(st := w1.st.(groupIds := w1.st.groupIds[g := id])))
  {
    var (id, w1) := PostGroup(f, w, GroupName(sp, g));
    if id != UNSET {
      var w2 := w1.(st := w1.st.(groupIds := w1.st.groupIds[g := id]));
      var x := w2.c.groups[|w.c.groups|];
      assert OnRecordAs(sp, w2.st, x, g);
    }
  }

  lemma {:induction false} EnsureGroupsEffect(f: Oracle, sp: Spec, w: World, listed: seq<Group>, todo: seq<string>)
    requires forall g :: g in todo ==> g in sp.groups
    ensures GroupsEffect(sp, w, EnsureGroups(f, sp, w, listed, todo))
    decreases |todo|
  {
    if todo != [] {
      hide GroupName, LastNamed, PostGroup;
      var g := todo[0];
      assert forall h :: h in todo[1..] ==> h in todo;
      if g in w.st.groupIds && w.st.groupIds[g] != UNSET {
        EnsureGroupsEffect(f, sp, w, listed, todo[1..]);
      } else {
        match LastNamed(listed, GroupName(sp, g))
        case Some(id) =>
          var w1 := w.(st := w.st.(groupIds := w.st.groupIds[g := id]));
          assert GroupsEffect(sp, w, w1);
          hide GroupsEffect;
          EnsureGroupsEffect(f, sp, w1, listed, todo[1..]);
          GroupsThen(sp, w, w1, EnsureGroups(f, sp, w1, listed, todo[1..]));
        case None =>
          var (id, w1) := PostGroup(f, w, GroupName(sp, g));
          PostGroupEffect(f, sp, w, g);
          PostGroupNext(f, w, GroupName(sp, g));
          hide GroupsEffect;
          if id != UNSET {
            var w2 := w1.(st := w1.st.(groupIds := w1.st.groupIds[g := id]));
            EnsureGroupsEffect(f, sp, w2, listed, todo[1..]);
            GroupsThen(sp, w, w2, EnsureGroups(f, sp, w2, listed, todo[1..]));
          }
      }
    }
  }

  /** No group is refused from here on, but for the last thing logged. */
  ghost predicate RefusedAtMostLast(log: seq<Event>, from: nat) {
    forall i :: from <= i < |log| - 1 ==> log[i] != Posted(GroupKind, UNSET)
  }

  /** A refused group ends the step: nothing is posted after it. */
  lemma {:induction false} RefusedGroupLast(f: Oracle, sp: Spec, w: World, listed: seq<Group>, todo: seq<string>)
    ensures RefusedAtMostLast(EnsureGroups(f, sp, w, listed, todo).log, |w.log|)
    decreases |todo|
  {
    if todo != [] {
      hide GroupName, LastNamed, PostGroup;
      var g := todo[0];
      if g in w.st.groupIds && w.st.groupIds[g] != UNSET {
        RefusedGroupLast(f, sp, w, listed, todo[1..]);
        assert EnsureGroups(f, sp, w, listed, todo) == EnsureGroups(f, sp, w, listed, todo[1..]);
      } else {
        match LastNamed(listed, GroupName(sp, g))
        case Some(found) =>
          var w1 := w.(st := w.st.(groupIds := w.st.groupIds[g := found]));
          RefusedGroupLast(f, sp, w1, listed, todo[1..]);
          assert EnsureGroups(f, sp, w, listed, todo) == EnsureGroups(f, sp, w1, listed, todo[1..]);
        case None =>
          var (id, w1) := PostGroup(f, w, GroupName(sp, g));
          PostGroupLog(f, w, GroupName(sp, g));
          if id != UNSET {
            var w2 := w1.(st := w1.st.(groupIds := w1.st.groupIds[g := id]));
            RefusedGroupLast(f, sp, w2, listed, todo[1..]);
            assert EnsureGroups(f, sp, w, listed, todo) == EnsureGroups(f, sp, w2, listed, todo[1..]);
            assert w2.log <= EnsureGroups(f, sp, w2, listed, todo[1..]).log && w2.log[|w.log|] == Posted(GroupKind, id);
          }
      }
    }
  }

  lemma PostGroupLog(f: Oracle, w: World, name: string)
    ensures var (id, w1) := PostGroup(f, w, name); w1.log == w.log + [Posted(GroupKind, id)]
  {
  }

  lemma PostGroupNext(f: Oracle, w: World, name: string)
    ensures w.c.next <= PostGroup(f, w, name).1.c.next && PostGroup(f, w, name).1.st == w.st
  {
  }

  // ---- Load balancers ----

  /** Load balancers stay as they are but for showing in listings. At most one is new: of the generated name,
      on this network. */
  ghost predicate LbsEffect(sp: Spec, net: Id, c: Cloud, c': Cloud) {
    && |c.lbs| <= |c'.lbs| <= |c.lbs| + 1
    && (forall i :: 0 <= i < |c.lbs| ==> c'.lbs[i] == c.lbs[i].(visible := c'.lbs[i].visible))
    && (|c'.lbs| > |c.lbs| ==> NewLb(sp, net, c.next, c'.lbs[|c.lbs|]) && net in c'.networks)
  }

  ghost predicate NewLb(sp: Spec, net: Id, next: Id, x: LoadBalancer) {
    x.id >= next && x.name == Names.LbName(sp.name) && x.net == net && x.fip.None? && !x.deleting
  }

  lemma ListEffect(f: Oracle, w: World)
    ensures var w' := ListLbs(f, w).1;
            && |w'.c.lbs| == |w.c.lbs| && w'.c == w.c.(lbs := w'.c.lbs)
            && forall i :: 0 <= i < |w.c.lbs| ==> w'.c.lbs[i] == w.c.lbs[i].(visible := w'.c.lbs[i].visible)
  {
  }

  lemma {:induction false} PollEffect(f: Oracle, w: World, name: string, attempt: nat)
    ensures var w' := PollLb(f, w, name, attempt).1;
            && |w'.c.lbs| == |w.c.lbs|
            && forall i :: 0 <= i < |w.c.lbs| ==> w'.c.lbs[i] == w.c.lbs[i].(visible := w'.c.lbs[i].visible)
    decreases 10 - attempt
  {
    hide ListLbs, VisibleLbByName;
    ListEffect(f, w);
    if attempt < 10 { PollEffect(f, ListLbs(f, w).1, name, attempt + 1); }
  }

  lemma FindOrPostEffect(f: Oracle, sp: Spec, w: World, net: Id)
    requires net in w.c.networks
    ensures LbsEffect(sp, net, w.c, FindOrPostLb(f, w, Names.LbName(sp.name), net).1.c)
  {
    hide ListLbs, PollLb, VisibleLbByName, Names.LbName;
    ListEffect(f, w);
    var w1 := ListLbs(f, w).1;
    PollEffect(f, PostLb(f, w1, Names.LbName(sp.name), net).1, Names.LbName(sp.name), 0);
  }

  lemma CreateEffect(f: Oracle, sp: Spec, w: World)
    ensures LbsEffect(sp, w.st.networkId, w.c, CreateLb(f, sp, w).1.c)
  {
    hide FindOrPostLb, Names.LbName;
    if w.st.networkId in w.c.networks { FindOrPostEffect(f, sp, Called(Called(w)), w.st.networkId); }
  }

  // ---- Listeners, pools and monitors ----

  /** A new listener has its port's name and number, is on the load balancer on record, and is on record itself. */
  ghost predicate NewListener(port: Port, st': Status, x: Listener) {
    && x.lbs == [st'.lbId]
    && match port
       case ApiServer => x.name == "api-server" && x.port == 6443 && x.id == st'.listenerId
       case Register => x.name == "rke2-register" && x.port == 9345 && x.id == st'.regListenerId
  }

  /** A new pool likewise, behind the listener on record. */
  ghost predicate NewPool(port: Port, st': Status, x: Pool) {
    && x.lb == st'.lbId
    && match port
       case ApiServer => x.name == "api-server-pool" && x.listener == st'.listenerId && x.id == st'.poolId
       case Register => x.name == "rke2-register-pool" && x.listener == st'.regListenerId && x.id == st'.regPoolId
  }

  /** A new monitor is on the pool on record. */
  ghost predicate NewMonitor(port: Port, st': Status, x: Monitor) {
    match port
    case ApiServer => x.name == "api-server-pool-hm" && x.pool == st'.poolId
    case Register => x.name == "rke2-register-pool-hm" && x.pool == st'.regPoolId
  }

  ghost predicate NewListenerOf(ports: set<Port>, st': Status, x: Listener) { exists port :: port in ports && NewListener(port, st', x) }
  ghost predicate NewPoolOf(ports: set<Port>, st': Status, x: Pool) { exists port :: port in ports && NewPool(port, st', x) }
  ghost predicate NewMonitorOf(ports: set<Port>, st': Status, x: Monitor) { exists port :: port in ports && NewMonitor(port, st', x) }

  ghost predicate ListenerThere(c: Cloud, lb: Id, name: string, id: Id) {
    exists x :: x in c.listeners && x.id == id && x.name == name && lb in x.lbs
  }

  ghost predicate PoolThere(c: Cloud, lb: Id, name: string, id: Id) {
    exists x :: x in c.pools && x.id == id && x.name == name && x.lb == lb
  }

  /** Listeners stay, new ones are as they should be, and one newly on record is there on the load balancer
      on record. */
  ghost predicate ListenersEffect(ports: set<Port>, w: World, w': World) {
    && w.c.listeners <= w'.c.listeners
    && (forall i :: |w.c.listeners| <= i < |w'.c.listeners| ==> NewListenerOf(ports, w'.st, w'.c.listeners[i]))
    && (w'.st.listenerId == w.st.listenerId || w'.st.listenerId == UNSET || ListenerThere(w'.c, w'.st.lbId, "api-server", w'.st.listenerId))
    && (w'.st.regListenerId == w.st.regListenerId || w'.st.regListenerId == UNSET || ListenerThere(w'.c, w'.st.lbId, "rke2-register", w'.st.regListenerId))
  }

  ghost predicate PoolsEffect(ports: set<Port>, w: World, w': World) {
    && w.c.pools <= w'.c.pools
    && (forall i :: |w.c.pools| <= i < |w'.c.pools| ==> NewPoolOf(ports, w'.st, w'.c.pools[i]))
    && (w'.st.poolId == w.st.poolId || w'.st.poolId == UNSET || PoolThere(w'.c, w'.st.lbId, "api-server-pool", w'.st.poolId))
    && (w'.st.regPoolId == w.st.regPoolId || w'.st.regPoolId == UNSET || PoolThere(w'.c, w'.st.lbId, "rke2-register-pool", w'.st.regPoolId))
  }

  ghost predicate MonitorsEffect(ports: set<Port>, w: World, w': World) {
    && w.c.monitors <= w'.c.monitors
    && forall i :: |w.c.monitors| <= i < |w'.c.monitors| ==> NewMonitorOf(ports, w'.st, w'.c.monitors[i])
  }

  ghost predicate PortsEffect(ports: set<Port>, w: World, w': World) {
    ListenersEffect(ports, w, w') && PoolsEffect(ports, w, w') && MonitorsEffect(ports, w, w')
  }

  lemma ListenerFound(c: Cloud, lb: Id, name: string)
    ensures forall x :: ListenerByName(c, lb, name) == Some(x) ==> ListenerThere(c, lb, name, x.id)
  {
  }

  lemma PoolFound(c: Cloud, lb: Id, name: string)
    ensures forall x :: PoolByName(c, lb, name) == Some(x) ==> PoolThere(c, lb, name, x.id)
  {
  }

  lemma ListenerEffect(f: Oracle, w: World, port: Port)
    ensures ListenersEffect({port}, w, EnsureListener(f, w, port).1)
  {
    ListenerFound(Called(w).c, w.st.lbId, PortName(port));
    hide ListenerByName;
    var w' := EnsureListener(f, w, port).1;
    if w'.c.listeners != w.c.listeners {
      var x := w'.c.listeners[|w.c.listeners|];
      assert w'.c.listeners == w.c.listeners + [x] && x in w'.c.listeners;
      assert NewListener(port, w'.st, x);
    }
  }

  lemma PoolEffect(f: Oracle, w: World, port: Port)
    ensures PoolsEffect({port}, w, EnsurePool(f, w, port).1)
  {
    PoolFound(Called(w).c, w.st.lbId, PoolName(port));
    hide PoolByName;
    var w' := EnsurePool(f, w, port).1;
    if w'.c.pools != w.c.pools {
      var x := w'.c.pools[|w.c.pools|];
      assert w'.c.pools == w.c.pools + [x] && x in w'.c.pools;
      assert NewPool(port, w'.st, x);
    }
  }

  lemma MonitorEffect(f: Oracle, w: World, port: Port)
    ensures MonitorsEffect({port}, w, EnsureMonitor(f, w, port))
  {
    hide MonitorByName;
    var w' := EnsureMonitor(f, w, port);
    if w'.c.monitors != w.c.monitors {
      var x := w'.c.monitors[|w.c.monitors|];
      assert w'.c.monitors == w.c.monitors + [x] && NewMonitor(port, w'.st, x);
    }
  }

  /** Each of the three lists is touched by one part of the step. */
  lemma PortEffect(f: Oracle, w: World, port: Port)
    ensures PortsEffect({port}, w, ReconcilePort(f, w, port).1)
  {
    hide EnsureListener, EnsurePool, EnsureMonitor, ListenersEffect, PoolsEffect, MonitorsEffect;
    ListenerEffect(f, w, port);
    var (ok1, w1) := EnsureListener(f, w, port);
    PoolEffect(f, w1, port);
    var (ok2, w2) := EnsurePool(f, w1, port);
    MonitorEffect(f, w2, port);
    var w' := ReconcilePort(f, w, port).1;
    SameListeners({port}, w, w1, w');
    SamePools({port}, w, w1);
    PoolsFrom({port}, w, w1, w2, w');
    MonitorsFrom({port}, w, w2, w');
  }

  lemma SameListeners(ports: set<Port>, w: World, w1: World, w': World)
    requires ListenersEffect(ports, w, w1) && w'.c.listeners == w1.c.listeners && w'.st.lbId == w1.st.lbId
    requires w'.st.listenerId == w1.st.listenerId && w'.st.regListenerId == w1.st.regListenerId
    ensures ListenersEffect(ports, w, w')
  {
    assert forall port, x :: NewListener(port, w'.st, x) <==> NewListener(port, w1.st, x);
    assert forall x :: NewListenerOf(ports, w'.st, x) <==> NewListenerOf(ports, w1.st, x);
  }

  lemma SamePools(ports: set<Port>, w: World, w1: World)
    requires w1.c.pools == w.c.pools && w1.st.poolId == w.st.poolId && w1.st.regPoolId == w.st.regPoolId
    ensures PoolsEffect(ports, w, w1)
  {
  }

  /** Pools that change after `w1`, monitors left aside. */
  lemma PoolsFrom(ports: set<Port>, w: World, w1: World, w2: World, w': World)
    requires w1.c.pools == w.c.pools && w1.st.poolId == w.st.poolId && w1.st.regPoolId == w.st.regPoolId
    requires PoolsEffect(ports, w1, w2)
    requires (w'.c.pools == w1.c.pools && w'.st.poolId == w1.st.poolId && w'.st.regPoolId == w1.st.regPoolId)
             || (w'.c.pools == w2.c.pools && w'.st == w2.st)
    ensures PoolsEffect(ports, w, w')
  {
    hide NewPoolOf, PoolThere;
    SamePoolsThere(w2.c, w'.c);
  }

  lemma SamePoolsThere(c: Cloud, c': Cloud)
    ensures c'.pools == c.pools ==> forall lb, name, id :: PoolThere(c', lb, name, id) <==> PoolThere(c, lb, name, id)
  {
  }

  lemma MonitorsFrom(ports: set<Port>, w: World, w2: World, w': World)
    requires w2.c.monitors == w.c.monitors
    ensures w'.c.monitors == w2.c.monitors ==> MonitorsEffect(ports, w, w')
    ensures MonitorsEffect(ports, w2, w') ==> MonitorsEffect(ports, w, w')
  {
    hide NewMonitorOf;
  }

  const BOTH := {ApiServer, Register}

  lemma BothListeners(w: World, w1: World, w2: World)
    requires ListenersEffect({ApiServer}, w, w1) && ListenersEffect({Register}, w1, w2)
    requires w1.st.regListenerId == w.st.regListenerId && w2.st.listenerId == w1.st.listenerId && w2.st.lbId == w1.st.lbId
    ensures ListenersEffect(BOTH, w, w2)
  {
    assert forall x :: NewListenerOf({ApiServer}, w1.st, x) ==> NewListener(ApiServer, w2.st, x);
    assert forall x :: NewListener(ApiServer, w2.st, x) ==> NewListenerOf(BOTH, w2.st, x);
    assert forall x :: NewListenerOf({Register}, w2.st, x) ==> NewListenerOf(BOTH, w2.st, x);
    hide NewListenerOf, NewListener;
    assert forall lb, name, id :: ListenerThere(w1.c, lb, name, id) ==> ListenerThere(w2.c, lb, name, id);
    hide ListenerThere;
    forall i | |w.c.listeners| <= i < |w1.c.listeners| ensures NewListenerOf(BOTH, w2.st, w2.c.listeners[i]) {
      assert w2.c.listeners[i] == w1.c.listeners[i];
    }
  }

  lemma BothPools(w: World, w1: World, w2: World)
    requires PoolsEffect({ApiServer}, w, w1) && PoolsEffect({Register}, w1, w2)
    requires w1.st.regPoolId == w.st.regPoolId && w2.st.poolId == w1.st.poolId && w2.st.listenerId == w1.st.listenerId
    requires w2.st.lbId == w1.st.lbId
    ensures PoolsEffect(BOTH, w, w2)
  {
    assert forall x :: NewPoolOf({ApiServer}, w1.st, x) ==> NewPool(ApiServer, w2.st, x);
    assert forall x :: NewPool(ApiServer, w2.st, x) ==> NewPoolOf(BOTH, w2.st, x);
    assert forall x :: NewPoolOf({Register}, w2.st, x) ==> NewPoolOf(BOTH, w2.st, x);
    hide NewPoolOf, NewPool;
    assert forall lb, name, id :: PoolThere(w1.c, lb, name, id) ==> PoolThere(w2.c, lb, name, id);
    hide PoolThere;
    forall i | |w.c.pools| <= i < |w1.c.pools| ensures NewPoolOf(BOTH, w2.st, w2.c.pools[i]) {
      assert w2.c.pools[i] == w1.c.pools[i];
    }
  }

  lemma BothMonitors(w: World, w1: World, w2: World)
    requires MonitorsEffect({ApiServer}, w, w1) && MonitorsEffect({Register}, w1, w2) && w2.st.poolId == w1.st.poolId
    ensures MonitorsEffect(BOTH, w, w2)
  {
    assert forall x :: NewMonitorOf({ApiServer}, w1.st, x) ==> NewMonitor(ApiServer, w2.st, x);
    assert forall x :: NewMonitor(ApiServer, w2.st, x) ==> NewMonitorOf(BOTH, w2.st, x);
    assert forall x :: NewMonitorOf({Register}, w2.st, x) ==> NewMonitorOf(BOTH, w2.st, x);
    hide NewMonitorOf, NewMonitor;
    forall i | |w.c.monitors| <= i < |w1.c.monitors| ensures NewMonitorOf(BOTH, w2.st, w2.c.monitors[i]) {
      assert w2.c.monitors[i] == w1.c.monitors[i];
    }
  }

  lemma MorePorts(w: World, w1: World)
    ensures PortsEffect({ApiServer}, w, w1) ==> PortsEffect(BOTH, w, w1)
  {
    assert forall x :: NewListenerOf({ApiServer}, w1.st, x) ==> NewListenerOf(BOTH, w1.st, x);
    assert forall x :: NewPoolOf({ApiServer}, w1.st, x) ==> NewPoolOf(BOTH, w1.st, x);
    assert forall x :: NewMonitorOf({ApiServer}, w1.st, x) ==> NewMonitorOf(BOTH, w1.st, x);
    hide NewListenerOf, NewPoolOf, NewMonitorOf, ListenerThere, PoolThere;
  }

  /** A step before or after that leaves listeners, pools, monitors and their record alone, or forgets IDs. */
  lemma PortsElsewhere(ports: set<Port>, w: World, w': World)
    requires w'.c.listeners == w.c.listeners && w'.c.pools == w.c.pools && w'.c.monitors == w.c.monitors
    requires w'.st.listenerId in {w.st.listenerId, UNSET} && w'.st.regListenerId in {w.st.regListenerId, UNSET}
    requires w'.st.poolId in {w.st.poolId, UNSET} && w'.st.regPoolId in {w.st.regPoolId, UNSET}
    ensures PortsEffect(ports, w, w')
  {
  }

  /** The IDs of the four port resources and the load balancer. */
  ghost predicate SamePortIds(st: Status, st': Status) {
    && st'.lbId == st.lbId && st'.listenerId == st.listenerId && st'.poolId == st.poolId
    && st'.regListenerId == st.regListenerId && st'.regPoolId == st.regPoolId
  }

  ghost predicate SamePortLists(c: Cloud, c': Cloud) {
    c'.listeners == c.listeners && c'.pools == c.pools && c'.monitors == c.monitors
  }

  lemma PortsBetween(ports: set<Port>, w: World, w1: World, w2: World, w': World)
    requires PortsEffect(ports, w1, w2)
    requires SamePortLists(w.c, w1.c) && SamePortLists(w2.c, w'.c) && SamePortIds(w2.st, w'.st)
    requires w1.st.listenerId == w.st.listenerId && w1.st.poolId == w.st.poolId
    requires w1.st.regListenerId == w.st.regListenerId && w1.st.regPoolId == w.st.regPoolId
    ensures PortsEffect(ports, w, w')
  {
    assert forall port, x :: NewListener(port, w'.st, x) <==> NewListener(port, w2.st, x);
    assert forall x :: NewListenerOf(ports, w'.st, x) <==> NewListenerOf(ports, w2.st, x);
    assert forall port, x :: NewPool(port, w'.st, x) <==> NewPool(port, w2.st, x);
    assert forall x :: NewPoolOf(ports, w'.st, x) <==> NewPoolOf(ports, w2.st, x);
    assert forall port, x :: NewMonitor(port, w'.st, x) <==> NewMonitor(port, w2.st, x);
    assert forall x :: NewMonitorOf(ports, w'.st, x) <==> NewMonitorOf(ports, w2.st, x);
    assert forall lb, name, id :: ListenerThere(w'.c, lb, name, id) <==> ListenerThere(w2.c, lb, name, id);
    assert forall lb, name, id :: PoolThere(w'.c, lb, name, id) <==> PoolThere(w2.c, lb, name, id);
    hide NewListenerOf, NewPoolOf, NewMonitorOf, NewListener, NewPool, NewMonitor, ListenerThere, PoolThere;
  }

  // ---- Floating IPs and gateways ----

  /** Floating IPs stay; at most one is new, attached to the load balancer on record. */
  ghost predicate FipsEffect(w: World, w': World) {
    && w.c.fips <= w'.c.fips && |w'.c.fips| <= |w.c.fips| + 1
    && (|w'.c.fips| > |w.c.fips| ==> w'.c.fips[|w.c.fips|].entity == Some(w'.st.lbId) && w'.c.fips[|w.c.fips|].id >= w.c.next)
  }

  ghost predicate GatewayThere(c: Cloud, name: string, id: Id) { exists g :: g in c.gateways && g.id == id && g.name == name }

  /** Gateways stay but for the one on record, which may become exposed; at most one is new, of the
      generated name, on this network. One newly on record has that name. */
  ghost predicate GatewaysEffect(sp: Spec, net: Id, w: World, w': World) {
    && |w.c.gateways| <= |w'.c.gateways| <= |w.c.gateways| + 1
    && (forall i :: 0 <= i < |w.c.gateways| ==>
          var x, y := w.c.gateways[i], w'.c.gateways[i];
          y == x || (y == x.(exposed := true) && x.id == w'.st.gatewayId != UNSET))
    && (|w'.c.gateways| > |w.c.gateways| ==>
          var y := w'.c.gateways[|w.c.gateways|];
          && y.id >= w.c.next && y.name == "capi-" + sp.name + "-gw" && y.net == net && !y.deleting
          && (y.exposed ==> y.id == w'.st.gatewayId != UNSET))
    && (w'.st.gatewayId == w.st.gatewayId
        || (w.st.gatewayId == UNSET && GatewayThere(w'.c, "capi-" + sp.name + "-gw", w'.st.gatewayId)))
    && (w'.st.gatewayExposed ==> w.st.gatewayExposed || (w'.st.gatewayId != UNSET && Exposed(w'.st.gatewayId) in w'.log))
  }

  lemma ExposeEffect(f: Oracle, sp: Spec, net: Id, w: World)
    ensures var w' := EnsureGatewayExposed(f, sp, w);
            && GatewaysEffect(sp, net, w, w') && |w'.c.gateways| == |w.c.gateways|
  {
    hide GatewayByName;
    GatewayFound(Called(w).c, GatewayName(sp));
    GatewayFound(w.c, GatewayName(sp));
    var (ok, w1) := FindGateway(f, sp, w);
    var w' := EnsureGatewayExposed(f, sp, w);
    assert w1.c == w.c;
    forall i | 0 <= i < |w.c.gateways| ensures var x, y := w.c.gateways[i], w'.c.gateways[i];
                                               y == x || (y == x.(exposed := true) && x.id == w'.st.gatewayId != UNSET) { }
    if w'.st.gatewayId != w.st.gatewayId {
      var g :| g in w.c.gateways && g.id == w'.st.gatewayId && g.name == GatewayName(sp);
      var i :| 0 <= i < |w.c.gateways| && w.c.gateways[i] == g;
      assert w'.c.gateways[i] in w'.c.gateways;
    }
  }

  /** The gateway is known: on record, or listed under the cluster's name. */
  ghost predicate GatewayKnown(f: Oracle, sp: Spec, w: World) {
    w.st.gatewayId != UNSET
    || (Answered(f, w.n) && GatewayByName(w.c, GatewayName(sp)).Some? && GatewayByName(w.c, GatewayName(sp)).value.id != UNSET)
  }

  /** The gateway is marked exposed exactly when it was, or when it is known and the request to expose it is accepted or
      answered with any 409; and exactly an accepted request makes it so. */
  lemma ExposedIff(f: Oracle, sp: Spec, w: World)
    ensures var w' := EnsureGatewayExposed(f, sp, w);
            var k := if w.st.gatewayId != UNSET then w.n else w.n + 1;
            && (w'.st.gatewayExposed <==>
                  w.st.gatewayExposed || (GatewayKnown(f, sp, w) && f(k).outcome in {Ok, Late, Busy, Conflict}))
            && |w'.c.gateways| == |w.c.gateways|
            && forall i :: 0 <= i < |w.c.gateways| ==>
                 (w'.c.gateways[i].exposed <==>
                    w.c.gateways[i].exposed
                    || (!w.st.gatewayExposed && GatewayKnown(f, sp, w) && Answered(f, k) && w.c.gateways[i].id == w'.st.gatewayId))
  {
    hide GatewayByName, GatewayName;
    assert GatewayByName(Called(w).c, GatewayName(sp)) == GatewayByName(w.c, GatewayName(sp));
  }

  /** A floating IP just created is put on record, whether the load balancer shows it or only the listing. */
  lemma AllocatedRecorded(f: Oracle, sp: Spec, w: World, lb: LoadBalancer)
    requires (forall n :: f(n).outcome.Ok?) && (forall x :: x in w.c.fips ==> x.id != UNSET)
    ensures AllocateFip(f, sp, w, lb).1.st.fipId != UNSET
  {
    hide EnsureGatewayExposed, LbById;
    var (id, w1) := PostLbFip(f, w, lb, GatewayName(sp));
    assert Up(f, w) && w1.c.fips[|w.c.fips|].entity == Some(lb.id);
    var w2 := EnsureGatewayExposed(f, sp, w1);
    assert Up(f, Called(w2));
    AttachedFound(w2.c, lb.id, |w.c.fips|);
    assert FipOfLb(Called(w2).c, lb.id) == FipOfLb(w2.c, lb.id);
  }

  lemma AttachedFound(c: Cloud, lb: Id, i: nat)
    requires i < |c.fips| && c.fips[i].entity == Some(lb) && forall x :: x in c.fips ==> x.id != UNSET
    ensures FipOfLb(c, lb).Some? && FipOfLb(c, lb).value.id != UNSET
  {
  }

  lemma GatewayFound(c: Cloud, name: string)
    ensures forall g :: GatewayByName(c, name) == Some(g) ==> g in c.gateways && g.name == name
  {
  }

  ghost predicate FipEffect(sp: Spec, net: Id, w: World, w': World) {
    FipsEffect(w, w') && GatewaysEffect(sp, net, w, w') && w.log <= w'.log && w.c.next <= w'.c.next && w'.st.lbId == w.st.lbId
  }

  /** Two steps of which at most one adds anything. */
  lemma FipThen(sp: Spec, net: Id, w: World, w1: World, w2: World)
    requires FipEffect(sp, net, w, w1) && FipEffect(sp, net, w1, w2)
    requires (w1.c.fips == w.c.fips && |w1.c.gateways| == |w.c.gateways|) || (w2.c.fips == w1.c.fips && |w2.c.gateways| == |w1.c.gateways|)
    ensures FipEffect(sp, net, w, w2)
  {
    StillThere(sp, net, w1, w2);
    hide GatewayThere;
    forall i | 0 <= i < |w.c.gateways|
      ensures var x, y := w.c.gateways[i], w2.c.gateways[i]; y == x || (y == x.(exposed := true) && x.id == w2.st.gatewayId != UNSET)
    {
      var x, y, z := w.c.gateways[i], w1.c.gateways[i], w2.c.gateways[i];
      assert y == x || (y == x.(exposed := true) && x.id == w1.st.gatewayId != UNSET);
      assert z == y || (z == y.(exposed := true) && y.id == w2.st.gatewayId != UNSET);
    }
  }

  lemma StillThere(sp: Spec, net: Id, w: World, w': World)
    requires GatewaysEffect(sp, net, w, w')
    ensures forall name, id :: GatewayThere(w.c, name, id) ==> GatewayThere(w'.c, name, id)
  {
    forall name, id | GatewayThere(w.c, name, id) ensures GatewayThere(w'.c, name, id) {
      var g :| g in w.c.gateways && g.id == id && g.name == name;
      var i :| 0 <= i < |w.c.gateways| && w.c.gateways[i] == g;
      assert w'.c.gateways[i] in w'.c.gateways;
    }
  }

  lemma NoFipEffect(sp: Spec, net: Id, w: World, w': World)
    requires w'.c == w.c && w'.st == w.st.(fipId := w'.st.fipId) && w.log <= w'.log
    ensures FipEffect(sp, net, w, w')
  {
  }

  lemma ExposeFipEffect(f: Oracle, sp: Spec, net: Id, w: World)
    ensures FipEffect(sp, net, w, EnsureGatewayExposed(f, sp, w))
    ensures |EnsureGatewayExposed(f, sp, w).c.gateways| == |w.c.gateways|
  {
    hide EnsureGatewayExposed, GatewaysEffect;
    ExposeEffect(f, sp, net, w);
  }

  lemma PostFipEffect(f: Oracle, sp: Spec, w: World, lb: LoadBalancer)
    requires lb.id == w.st.lbId
    ensures FipEffect(sp, lb.net, w, PostLbFip(f, w, lb, GatewayName(sp)).1)
  {
  }

  lemma AllocateEffect(f: Oracle, sp: Spec, w: World, lb: LoadBalancer)
    requires lb.id == w.st.lbId
    ensures FipEffect(sp, lb.net, w, AllocateFip(f, sp, w, lb).1)
  {
    hide PostLbFip, EnsureGatewayExposed, LbById, FipOfLb, FipEffect;
    PostFipEffect(f, sp, w, lb);
    var (id, w1) := PostLbFip(f, w, lb, GatewayName(sp));
    ExposeFipEffect(f, sp, lb.net, w1);
    var w2 := EnsureGatewayExposed(f, sp, w1);
    FipThen(sp, lb.net, w, w1, w2);
    var w' := AllocateFip(f, sp, w, lb).1;
    if id != UNSET {
      NoFipEffect(sp, lb.net, w2, w');
      FipThen(sp, lb.net, w, w2, w');
    }
  }

  lemma DiscoverEffect(f: Oracle, sp: Spec, w: World, lb: LoadBalancer)
    requires lb.id == w.st.lbId
    ensures FipEffect(sp, lb.net, w, DiscoverFip(f, sp, w, lb).1)
  {
    hide EnsureGatewayExposed, AllocateFip, FipOfLb, FipEffect;
    var w' := DiscoverFip(f, sp, w, lb).1;
    if Up(f, w) && FipOfLb(w.c, lb.id).Some? {
      var x := FipOfLb(w.c, lb.id).value;
      var w1 := Saw(RecordFip(Called(w), x.id), Listed(lb.id, x.id, ShownIp(x)));
      NoFipEffect(sp, lb.net, w, w1);
      ExposeFipEffect(f, sp, lb.net, w1);
      FipThen(sp, lb.net, w, w1, EnsureGatewayExposed(f, sp, w1));
    } else {
      NoFipEffect(sp, lb.net, w, Called(w));
      AllocateEffect(f, sp, Called(w), lb);
      FipThen(sp, lb.net, w, Called(w), AllocateFip(f, sp, Called(w), lb).1);
    }
  }

  lemma FipStepEffect(f: Oracle, sp: Spec, w: World, lb: LoadBalancer)
    requires lb.id == w.st.lbId
    ensures FipEffect(sp, lb.net, w, ReconcileFip(f, sp, w, lb).1)
  {
    hide EnsureGatewayExposed, DiscoverFip, FipById, FipEffect;
    if lb.fip.Some? && lb.fip.value.ip != "" {
      var w1 := Saw(RecordFip(w, lb.fip.value.id), OnLb(lb.id, lb.fip.value.id, lb.fip.value.ip));
      NoFipEffect(sp, lb.net, w, w1);
      ExposeFipEffect(f, sp, lb.net, w1);
      FipThen(sp, lb.net, w, w1, EnsureGatewayExposed(f, sp, w1));
    } else if w.st.fipId != UNSET {
      ExposeFipEffect(f, sp, lb.net, w);
      var w1 := EnsureGatewayExposed(f, sp, w);
      var w2 := RecordFip(Called(w1), UNSET);
      NoFipEffect(sp, lb.net, w1, w2);
      FipThen(sp, lb.net, w, w1, w2);
      DiscoverEffect(f, sp, w2, lb);
      FipThen(sp, lb.net, w, w2, DiscoverFip(f, sp, w2, lb).1);
      var w' := ReconcileFip(f, sp, w, lb).1;
      if w' != DiscoverFip(f, sp, w2, lb).1 {
        NoFipEffect(sp, lb.net, w1, w');
        FipThen(sp, lb.net, w, w1, w');
      }
    } else {
      DiscoverEffect(f, sp, w, lb);
    }
  }

  // ---- DNS ----

  /** Records stay; at most one is new, and it is on record. */
  ghost predicate RecordsEffect(w: World, w': World) {
    && w.c.records <= w'.c.records && |w'.c.records| <= |w.c.records| + 1
    && (|w'.c.records| > |w.c.records| ==> w'.c.records[|w.c.records|] == w'.st.recordId && w'.st.recordId >= w.c.next)
    && (w'.st.recordId == w.st.recordId || w'.st.recordId in w'.c.records)
  }

  lemma DnsEffect(f: Oracle, sp: Spec, w: World)
    ensures RecordsEffect(w, ReconcileDns(f, sp, w))
  {
  }

  // ---- The load balancer step ----

  /** A gateway that is new is on the network of the load balancer on record. */
  ghost predicate GatewayPart(sp: Spec, w: World, w': World) { exists net :: GatewayOnNet(sp, net, w, w') }

  ghost predicate GatewayOnNet(sp: Spec, net: Id, w: World, w': World) {
    && GatewaysEffect(sp, net, w, w')
    && (|w'.c.gateways| > |w.c.gateways| ==> exists lb :: lb in w'.c.lbs && lb.id == w'.st.lbId && lb.net == net)
  }

  ghost predicate LbPart(sp: Spec, w: World, w': World) {
    && LbsEffect(sp, w'.st.networkId, w.c, w'.c) && PortsEffect(BOTH, w, w')
    && FipsEffect(w, w') && GatewayPart(sp, w, w')
  }

  /** Both ports, as far as the step gets. */
  lemma PortsStepEffect(f: Oracle, w: World)
    ensures var (ok1, w1) := ReconcilePort(f, w, ApiServer);
            var (ok2, w2) := ReconcilePort(f, w1, Register);
            PortsEffect(BOTH, w, w1) && PortsEffect(BOTH, w, w2)
  {
    hide ReconcilePort, ListenersEffect, PoolsEffect, MonitorsEffect;
    PortEffect(f, w, ApiServer);
    var w1 := ReconcilePort(f, w, ApiServer).1;
    MorePorts(w, w1);
    PortEffect(f, w1, Register);
    var w2 := ReconcilePort(f, w1, Register).1;
    BothListeners(w, w1, w2);
    BothPools(w, w1, w2);
    BothMonitors(w, w1, w2);
  }

  lemma SameLbs(sp: Spec, c: Cloud, c': Cloud)
    requires c'.lbs == c.lbs
    ensures forall net :: LbsEffect(sp, net, c, c')
  {
  }

  lemma FipElsewhere(sp: Spec, w: World, w': World)
    requires w'.c.fips == w.c.fips && w'.c.gateways == w.c.gateways
    requires w'.st.gatewayId == w.st.gatewayId && w'.st.gatewayExposed == w.st.gatewayExposed
    ensures FipsEffect(w, w') && GatewayPart(sp, w, w')
  {
    assert GatewayOnNet(sp, UNSET, w, w');
  }

  lemma HandleEffect(f: Oracle, sp: Spec, w: World, lb: LoadBalancer)
    requires lb in w.c.lbs && lb.id == w.st.lbId
    ensures LbPart(sp, w, HandleLb(f, sp, w, lb).1)
  {
    hide ReconcilePort, ServeEndpoint, PortsEffect, FipsEffect, LbsEffect, GatewayPart;
    var w' := HandleLb(f, sp, w, lb).1;
    SameLbs(sp, w.c, w'.c);
    PortsElsewhere(BOTH, w, w);
    FipElsewhere(sp, w, w);
    if Active(lb) {
      PortsStepEffect(f, w);
      var (ok1, w1) := ReconcilePort(f, w, ApiServer);
      var (ok2, w2) := ReconcilePort(f, w1, Register);
      FipElsewhere(sp, w, w1);
      FipElsewhere(sp, w, w2);
      if ok1 && ok2 {
        var w3 := ServeEndpoint(f, sp, w2, lb).1;
        PortsBetween(BOTH, w, w, w2, w3);
        ServeEffect(f, sp, w2, lb);
        FipFrom(sp, w, w2, w3);
      }
    }
  }

  lemma ServeEffect(f: Oracle, sp: Spec, w: World, lb: LoadBalancer)
    requires lb in w.c.lbs && lb.id == w.st.lbId
    ensures var w' := ServeEndpoint(f, sp, w, lb).1; FipsEffect(w, w') && GatewayPart(sp, w, w')
  {
    hide ReconcileFip, FipsEffect, GatewaysEffect, GatewayPart;
    var w' := ServeEndpoint(f, sp, w, lb).1;
    if sp.floating {
      FipStepEffect(f, sp, w, lb);
      var w1 := ReconcileFip(f, sp, w, lb).1;
      SameFips(sp, lb.net, w, w1, w');
      OnRecordedNet(sp, w, w', lb);
    } else {
      FipElsewhere(sp, w, w');
    }
  }

  lemma OnRecordedNet(sp: Spec, w: World, w': World, lb: LoadBalancer)
    requires GatewaysEffect(sp, lb.net, w, w') && lb in w'.c.lbs && lb.id == w'.st.lbId
    ensures GatewayPart(sp, w, w')
  {
    hide GatewaysEffect;
    assert GatewayOnNet(sp, lb.net, w, w');
  }

  lemma SameFips(sp: Spec, net: Id, w: World, w1: World, w': World)
    requires FipsEffect(w, w1) && GatewaysEffect(sp, net, w, w1) && w'.c == w1.c && w'.log == w1.log
    requires w'.st == w1.st.(endpoint := w'.st.endpoint)
    ensures FipsEffect(w, w') && GatewaysEffect(sp, net, w, w')
  {
  }

  /** A step before that leaves floating IPs and gateways alone. */
  lemma FipFrom(sp: Spec, w: World, w1: World, w': World)
    requires FipsEffect(w1, w') && GatewayPart(sp, w1, w') && w1.c.fips == w.c.fips && w1.c.gateways == w.c.gateways
    requires w1.st.gatewayId == w.st.gatewayId && w1.st.gatewayExposed == w.st.gatewayExposed && w.c.next <= w1.c.next
    ensures FipsEffect(w, w') && GatewayPart(sp, w, w')
  {
    var net :| GatewayOnNet(sp, net, w1, w');
    hide GatewayThere;
    assert GatewayOnNet(sp, net, w, w');
  }

  lemma LbStepEffect(f: Oracle, sp: Spec, w: World)
    ensures LbPart(sp, w, ReconcileLb(f, sp, w).1)
  {
    hide HandleLb, CreateLb, LbById, PortsEffect, FipsEffect, LbsEffect, GatewayPart;
    var w0 := w.(st := Adopt(sp, w.st));
    var w' := ReconcileLb(f, sp, w).1;
    LbByIdThere(w0.c, w0.st.lbId);
    if w0.st.lbId == UNSET {
      NewLbPart(f, sp, w, w0);
    } else {
      var got, w1 := Answer(f, w0, LbById(w0.c, w0.st.lbId)), Called(w0);
      match got
      case Found(lb) =>
        HandleEffect(f, sp, w1, lb);
        PortsBetween(BOTH, w, w1, w', w');
        FipFrom(sp, w, w1, w');
        LbsFrom(sp, w.c, w1.c, w'.c, w'.st.networkId);
      case Absent => NewLbPart(f, sp, w, w1.(st := ForgetLb(w1.st)));
      case Broken => NoLbPart(sp, w, w1);
    }
  }

  lemma LbByIdThere(c: Cloud, id: Id)
    ensures forall lb :: LbById(c, id) == Some(lb) ==> lb in c.lbs && lb.id == id
  {
  }

  lemma LbsFrom(sp: Spec, c: Cloud, c1: Cloud, c': Cloud, net: Id)
    requires LbsEffect(sp, net, c1, c') && c1.lbs == c.lbs && c.next <= c1.next
    ensures LbsEffect(sp, net, c, c')
  {
  }

  /** Creation, from a world `w0` that differs from `w` in what is on record only. */
  lemma NewLbPart(f: Oracle, sp: Spec, w: World, w0: World)
    requires w0.c == w.c && (w0.st == Adopt(sp, w.st) || w0.st == ForgetLb(Adopt(sp, w.st)))
    ensures LbPart(sp, w, CreateLb(f, sp, w0).1)
  {
    hide CreateLb, LbsEffect;
    CreateEffect(f, sp, w0);
    var w' := CreateLb(f, sp, w0).1;
    PortsElsewhere(BOTH, w, w');
    FipElsewhere(sp, w, w');
  }

  lemma NoLbPart(sp: Spec, w: World, w': World)
    requires w'.c == w.c && w'.st == Adopt(sp, w.st)
    ensures LbPart(sp, w, w')
  {
    PortsElsewhere(BOTH, w, w');
    FipElsewhere(sp, w, w');
  }

  // ---- The whole pass ----

  ghost predicate PassEffect(sp: Spec, w: World, w': World) {
    NetworkEffect(sp, w, w') && GroupsEffect(sp, w, w') && LbPart(sp, w, w') && RecordsEffect(w, w')
  }

  /** Whatever its calls answer, a pass keeps every resource as it is, but for a gateway that becomes exposed and
      load balancers that show, and everything it adds has its name, its place and its port and is on record
      as what it is. */
  lemma NormalEffect(f: Oracle, sp: Spec, w: World)
    requires NetworksNumbered(w.c)
    ensures PassEffect(sp, w, ReconcileNormal(f, sp, w).1)
  {
    hide ReconcileNetwork, ReconcileGroups, ReconcileLb, ReconcileDns, NetworkEffect, GroupsEffect, LbPart, RecordsEffect, NetworksNumbered;
    var w' := ReconcileNormal(f, sp, w).1;
    NothingDone(sp, w, w');
    if w.st.finalizer && Up(f, w) {
      var (net, w1) := ReconcileNetwork(f, sp, Called(w));
      Numbered(w);
      NetworkStepEffect(f, sp, Called(w));
      OnlyNetworkDone(sp, w, w1);
      if net.Done? {
        GroupStepEffect(f, sp, w1);
        var w2 := ReconcileGroups(f, sp, w1);
        LbStepEffect(f, sp, w2);
        var (lb, w3) := ReconcileLb(f, sp, w2);
        LbKeepsRest(f, sp, w2);
        DnsEffect(f, sp, w3);
        NetworkThrough(sp, w, w1, w');
        GroupsThrough(sp, w, w1, w2, w');
        LbThrough(sp, w, w2, w3, w');
        RecordsThrough(f, sp, w, w3, w');
      }
    }
  }

  lemma Numbered(w: World)
    ensures NetworksNumbered(w.c) ==> NetworksNumbered(Called(w).c)
  {
  }

  lemma GroupStepEffect(f: Oracle, sp: Spec, w: World)
    ensures GroupsEffect(sp, w, ReconcileGroups(f, sp, w))
  {
    hide EnsureGroups;
    EnsureGroupsEffect(f, sp, Called(w), w.c.groups, sp.groups);
  }

  lemma LbKeepsRest(f: Oracle, sp: Spec, w: World)
    ensures var w' := ReconcileLb(f, sp, w).1;
            && w'.c.networks == w.c.networks && w'.c.groups == w.c.groups && w'.c.records == w.c.records
            && w'.st.networkId == w.st.networkId && w'.st.networkCreated == w.st.networkCreated && w'.st.subnetId == w.st.subnetId
            && w'.st.groupIds == w.st.groupIds && w'.st.recordId == w.st.recordId && w.c.next <= w'.c.next
  {
    hide HandleLb, CreateLb, LbById;
  }

  lemma NothingDone(sp: Spec, w: World, w': World)
    ensures w'.c == w.c && w'.st == w.st.(finalizer := w'.st.finalizer) ==> PassEffect(sp, w, w')
  {
    if w'.c == w.c && w'.st == w.st.(finalizer := w'.st.finalizer) { OtherParts(sp, w, w'); }
  }

  lemma OtherParts(sp: Spec, w: World, w': World)
    requires w'.c == w.c.(next := w'.c.next, networks := w'.c.networks)
    requires w'.st == w.st.(finalizer := w'.st.finalizer, networkId := w'.st.networkId, networkCreated := w'.st.networkCreated, subnetId := w'.st.subnetId)
    ensures GroupsEffect(sp, w, w') && LbPart(sp, w, w') && RecordsEffect(w, w')
  {
    PortsElsewhere(BOTH, w, w');
    FipElsewhere(sp, w, w');
  }

  /** A pass that ended with the network step. */
  lemma OnlyNetworkDone(sp: Spec, w: World, w': World)
    requires NetworkEffect(sp, Called(w), w') && OnlyNetwork(Called(w), w')
    ensures PassEffect(sp, w, w')
  {
    assert NetworkEffect(sp, w, w') by { hide NetworksKept; }
    hide NetworkEffect;
    OtherParts(sp, w, w');
  }

  lemma NetworkThrough(sp: Spec, w: World, w1: World, w': World)
    requires NetworkEffect(sp, w, w1) && w'.c.networks == w1.c.networks && w1.c.next <= w'.c.next
    requires w'.st.networkId == w1.st.networkId && w'.st.networkCreated == w1.st.networkCreated && w'.st.subnetId == w1.st.subnetId
    ensures NetworkEffect(sp, w, w')
  {
  }

  lemma GroupsThrough(sp: Spec, w: World, w1: World, w2: World, w': World)
    requires GroupsEffect(sp, w1, w2) && w1.c.groups == w.c.groups && w1.st.groupIds == w.st.groupIds && w.c.next <= w1.c.next
    requires w'.c.groups == w2.c.groups && w'.st.groupIds == w2.st.groupIds
    ensures GroupsEffect(sp, w, w')
  {
    forall i | |w.c.groups| <= i < |w'.c.groups| ensures NewGroup(sp, w.c.next, w'.st, w'.c.groups[i]) {
      var x := w2.c.groups[i];
      assert NewGroup(sp, w1.c.next, w2.st, x);
      var g :| OnRecordAs(sp, w2.st, x, g);
      assert OnRecordAs(sp, w'.st, x, g);
    }
  }

  lemma LbThrough(sp: Spec, w: World, w2: World, w3: World, w': World)
    requires LbPart(sp, w2, w3)
    requires w2.c == w.c.(next := w2.c.next, networks := w2.c.networks, groups := w2.c.groups) && w.c.next <= w2.c.next
    requires SamePortIds(w.st, w2.st) && w2.st.gatewayId == w.st.gatewayId && w2.st.gatewayExposed == w.st.gatewayExposed
    requires w'.c == w3.c.(next := w'.c.next, records := w'.c.records) && w3.log <= w'.log
    requires w'.st == w3.st.(recordId := w'.st.recordId, ready := w'.st.ready)
    ensures LbPart(sp, w, w')
  {
    hide PortsEffect, LbsEffect, FipsEffect, GatewayPart;
    PortsBetween(BOTH, w, w2, w3, w');
    LbsFrom(sp, w.c, w2.c, w3.c, w3.st.networkId);
    LbsTo(sp, w.c, w3.c, w'.c, w'.st.networkId);
    FipFrom(sp, w, w2, w3);
    FipTo(sp, w, w3, w');
  }

  lemma LbsTo(sp: Spec, c: Cloud, c1: Cloud, c': Cloud, net: Id)
    requires LbsEffect(sp, net, c, c1) && c'.lbs == c1.lbs && c'.networks == c1.networks
    ensures LbsEffect(sp, net, c, c')
  {
  }

  lemma FipTo(sp: Spec, w: World, w1: World, w': World)
    requires FipsEffect(w, w1) && GatewayPart(sp, w, w1)
    requires w'.c.fips == w1.c.fips && w'.c.gateways == w1.c.gateways && w'.c.lbs == w1.c.lbs && w1.log <= w'.log
    requires w'.st.lbId == w1.st.lbId && w'.st.gatewayId == w1.st.gatewayId && w'.st.gatewayExposed == w1.st.gatewayExposed
    ensures FipsEffect(w, w') && GatewayPart(sp, w, w')
  {
    var net :| GatewayOnNet(sp, net, w, w1);
    assert GatewayOnNet(sp, net, w, w');
  }

  lemma RecordsThrough(f: Oracle, sp: Spec, w: World, w3: World, w': World)
    requires w3.c.records == w.c.records && w3.st.recordId == w.st.recordId && w.c.next <= w3.c.next
    requires RecordsEffect(w3, ReconcileDns(f, sp, w3))
    requires (w'.c.records == w3.c.records && w'.st.recordId == w3.st.recordId)
             || (w'.c.records == ReconcileDns(f, sp, w3).c.records && w'.st.recordId == ReconcileDns(f, sp, w3).st.recordId)
    ensures RecordsEffect(w, w')
  {
    hide ReconcileDns;
  }

  // ---- The subnet on record, over runs ----

  /** The subnet on record is one of the network on record, as long as that network exists. */
  ghost predicate SubnetKnown(c: Cloud, st: Status) {
    st.subnetId != UNSET ==>
      && UNSET < st.networkId < c.next
      && (st.networkId in c.networks ==> st.subnetId in c.networks[st.networkId].subnets)
  }

  /** Networks go, come with a new identifier, or keep their subnets. */
  ghost predicate SubnetsHeld(c: Cloud, c': Cloud) {
    && c.next <= c'.next && NetworksNumbered(c')
    && forall k :: k in c'.networks ==> k >= c.next
                                        || (k in c.networks && forall id :: id in c.networks[k].subnets ==> id in c'.networks[k].subnets)
  }

  lemma KnownHeld(c: Cloud, c': Cloud, st: Status)
    requires SubnetsHeld(c, c') && SubnetKnown(c, st)
    ensures SubnetKnown(c', st)
  {
  }

  lemma PassKnown(f: Oracle, sp: Spec, w: World)
    requires NetworksNumbered(w.c) && SubnetKnown(w.c, w.st)
    ensures var w' := ReconcileNormal(f, sp, w).1; SubnetsHeld(w.c, w'.c) && SubnetKnown(w'.c, w'.st)
  {
    hide ReconcileNormal, GroupsEffect, LbPart, RecordsEffect;
    NormalEffect(f, sp, w);
    var w' := ReconcileNormal(f, sp, w).1;
    assert NetworksNumbered(w'.c) && SubnetsHeld(w.c, w'.c);
    if w'.st.subnetId == w.st.subnetId { KnownHeld(w.c, w'.c, w.st); }
  }

  lemma DeleteKnown(f: Oracle, sp: Spec, w: World, order: seq<string>)
    requires NetworksNumbered(w.c)
    ensures var w' := ReconcileDelete(f, sp, w, order).1;
            SubnetsHeld(w.c, w'.c) && w'.st.networkId == w.st.networkId && w'.st.subnetId == w.st.subnetId
  {
    hide DeleteFront, DeleteOrphans, CleanFips, CleanGateway;
    FrontNetworks(f, sp, w, order);
  }

  lemma FrontNetworks(f: Oracle, sp: Spec, w: World, order: seq<string>)
    ensures var c := DeleteFront(f, sp, w, order).2.c; c.networks == w.c.networks && c.next == w.c.next
  {
    hide CleanDns, CleanGroups, CaptureFips, DeleteRecordedLb;
  }

  /** In every run, spec edits, failed calls and lost patches included, while nobody else takes a subnet from a
      network that stays. */
  lemma {:induction false} SubnetOfNetwork(ws: nat -> World, acts: nat -> Action, n: nat)
    requires NetworksNumbered(ws(0).c) && SubnetKnown(ws(0).c, ws(0).st)
    requires forall k: nat :: Steps(ws, acts, k)
    requires forall k: nat :: acts(k).Other? ==> SubnetsHeld(ws(k).c, acts(k).c)
    ensures NetworksNumbered(ws(n).c) && SubnetKnown(ws(n).c, ws(n).st)
  {
    hide ReconcileNormal, ReconcileDelete;
    if n > 0 {
      var w := ws(n - 1);
      SubnetOfNetwork(ws, acts, n - 1);
      assert Steps(ws, acts, n - 1) && n - 1 + 1 == n;
      match acts(n - 1)
      case Normal(sp, f, saved) =>
        PassKnown(f, sp, w);
        KnownHeld(w.c, ws(n).c, w.st);
      case Delete(sp, f, order, saved) =>
        DeleteKnown(f, sp, w, order);
        KnownHeld(w.c, ws(n).c, w.st);
      case Other(c) => KnownHeld(w.c, c, w.st);
    }
  }
}
