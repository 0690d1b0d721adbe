/** What one pass of OVHClusterReconciler.ReconcileNormal does to cloud and object
    (internal/controller/ovhcluster_controller.go), step by step, as functions of the
    world before it. The contracts are frames: what each step cannot touch. */
module ClusterSteps {
  import opened Collections
  import opened OvhCloud
  import Names

  datatype NetworkConfig = NetworkConfig(privateId: Id, hasCidr: bool)

  /** The part of an OVHCluster that the user writes. */
  datatype Spec = Spec(name: string, network: Option<NetworkConfig>, lbSubnetId: Id, existingLb: Id,
                       existingFip: Id, floating: bool, groups: seq<string>, dns: bool, keep: bool)

  /** How a pass ends: infrastructure ready, asked to come back, or failed with an error. */
  datatype Phase = Done | Requeue | Error

  datatype Port = ApiServer | Register

  function PortName(port: Port): string { if port == ApiServer then "api-server" else "rke2-register" }
  function PortNumber(port: Port): nat { if port == ApiServer then 6443 else 9345 }
  function PoolName(port: Port): string { PortName(port) + "-pool" }
  function MonitorName(port: Port): string { PoolName(port) + "-hm" }

  function GatewayName(sp: Spec): string { "capi-" + sp.name + "-gw" }
  function GroupName(sp: Spec, group: string): string { "capi-" + sp.name + "-" + group }

  function ListenerOf(st: Status, port: Port): Id { if port == ApiServer then st.listenerId else st.regListenerId }
  function PoolOf(st: Status, port: Port): Id { if port == ApiServer then st.poolId else st.regPoolId }

  function WithListener(st: Status, port: Port, id: Id): Status {
    if port == ApiServer then st.(listenerId := id) else st.(regListenerId := id)
  }
  function WithPool(st: Status, port: Port, id: Id): Status {
    if port == ApiServer then st.(poolId := id) else st.(regPoolId := id)
  }

  // ---- Network ----

  /** Frame of the network step: networks, and the three status fields about them. */
  ghost predicate OnlyNetwork(w: World, w': World) {
    && w.c.next <= w'.c.next
    && w' == w.(n := w'.n, log := w'.log, c := w.c.(next := w'.c.next, networks := w'.c.networks),
             st := w.st.(networkId := w'.st.networkId, subnetId := w'.st.subnetId, networkCreated := w'.st.networkCreated))
  }

  /** Record the user's network, or create one when none is recorded. */
  function EnsureNetwork(f: Oracle, cfg: NetworkConfig, w: World): (r: (bool, World))
    ensures OnlyNetwork(w, r.1)
    ensures Appends(w.log, r.1.log, {NetworkKind})
  {
    if w.st.networkId != UNSET then (true, w)
    else if cfg.privateId != UNSET then (true, w.(st := w.st.(networkId := cfg.privateId)))
    else
      var (id, w1) := PostNetwork(f, w);
      if id == UNSET then (false, w1)
      else (true, w1.(st := w1.st.(networkId := id, networkCreated := true)))
  }

  function EnsureSubnet(f: Oracle, cfg: NetworkConfig, w: World, net: Network): (r: (Phase, World))
    ensures OnlyNetwork(w, r.1) && r.1.st == w.st.(subnetId := r.1.st.subnetId)
    ensures Appends(w.log, r.1.log, {SubnetKind})
  {
    if w.st.subnetId != UNSET then (Done, w)
    else if !Up(f, w) then (Error, Called(w))
    else
      var w1 := Called(w);
      if net.subnets != [] then (Done, w1.(st := w1.st.(subnetId := net.subnets[0])))
      else if !cfg.hasCidr then (Done, w1)
      else
        var (id, w2) := PostSubnet(f, w1, w1.st.networkId);
        if id == UNSET then (Error, w2) else (Done, w2.(st := w2.st.(subnetId := id)))
  }

  function ReconcileNetwork(f: Oracle, sp: Spec, w: World): (r: (Phase, World))
    ensures OnlyNetwork(w, r.1)
    ensures Appends(w.log, r.1.log, {NetworkKind, SubnetKind})
  {
    if sp.network.None? then (Done, w)
    else
      var (ok, w1) := EnsureNetwork(f, sp.network.value, w);
      if !ok then (Error, w1)
      else
        var id := w1.st.networkId;
        var there := if id in w1.c.networks then Some(w1.c.networks[id]) else None;
        var got, w2 := Answer(f, w1, there), Called(w1);
        if got.Absent? then (Error, w2.(st := w2.st.(networkId := UNSET, subnetId := UNSET)))
        else if got.Broken? then (Error, w2)
        else if got.value.wait > 0 then (Requeue, w2)
        else EnsureSubnet(f, sp.network.value, w2, got.value)
  }

  // ---- Security groups ----

  /** Frame of the security-group step. */
  ghost predicate OnlyGroups(w: World, w': World) {
    && w.c.next <= w'.c.next
    && w' == w.(n := w'.n, log := w'.log, c := w.c.(next := w'.c.next, groups := w'.c.groups),
             st := w.st.(groupIds := w'.st.groupIds))
  }

  /** The map from name to ID that the source builds from a listing: a later entry overwrites an earlier one. */
  function LastNamed(s: seq<Group>, name: string): (r: Option<Id>)
    ensures r.None? <==> forall g :: g in s ==> g.name != name
  {
    if s == [] then None
    else
      assert s == s[..|s| - 1] + [s[|s| - 1]];
      if s[|s| - 1].name == name then Some(s[|s| - 1].id)
      else LastNamed(s[..|s| - 1], name)
  }

  /** The groups still to do, against the listing taken before the first one. */
  function EnsureGroups(f: Oracle, sp: Spec, w: World, listed: seq<Group>, todo: seq<string>): (r: World)
    ensures OnlyGroups(w, r)
    ensures Appends(w.log, r.log, {GroupKind})
    decreases |todo|
  {
    if todo == [] then w
    else
      var g := todo[0];
      if g in w.st.groupIds && w.st.groupIds[g] != UNSET then EnsureGroups(f, sp, w, listed, todo[1..])
      else
        match LastNamed(listed, GroupName(sp, g))
        case Some(id) =>
          EnsureGroups(f, sp, w.(st := w.st.(groupIds := w.st.groupIds[g := id])), listed, todo[1..])
        case None =>
          var (id, w1) := PostGroup(f, w, GroupName(sp, g));
          if id == UNSET then w1
          else EnsureGroups(f, sp, w1.(st := w1.st.(groupIds := w1.st.groupIds[g := id])), listed, todo[1..])
  }

  function ReconcileGroups(f: Oracle, sp: Spec, w: World): (r: World)
    ensures OnlyGroups(w, r)
    ensures Appends(w.log, r.log, {GroupKind})
  {
    if sp.groups == [] then w
    else if !Up(f, w) then Called(w)
    else EnsureGroups(f, sp, Called(w), w.c.groups, sp.groups)
  }

  // ---- Listener, pool and health monitor of one port ----

  /** Frame of the port step: listeners, pools, monitors, and that port's two status fields. */
  ghost predicate OnlyPort(w: World, w': World, port: Port) {
    && w.c.next <= w'.c.next
    && w' == w.(n := w'.n, log := w'.log,
             c := w.c.(next := w'.c.next, listeners := w'.c.listeners, pools := w'.c.pools, monitors := w'.c.monitors),
             st := WithPool(WithListener(w.st, port, ListenerOf(w'.st, port)), port, PoolOf(w'.st, port)))
  }

  function EnsureListener(f: Oracle, w: World, port: Port): (r: (bool, World))
    ensures OnlyPort(w, r.1, port)
    ensures r.1.c.pools == w.c.pools && r.1.c.monitors == w.c.monitors && PoolOf(r.1.st, port) == PoolOf(w.st, port)
    ensures Appends(w.log, r.1.log, {ListenerKind})
  {
    if ListenerOf(w.st, port) != UNSET then (true, w)
    else if !Up(f, w) then (false, Called(w))
    else
      var w1 := Called(w);
      match ListenerByName(w1.c, w1.st.lbId, PortName(port))
      case Some(x) => (true, w1.(st := WithListener(w1.st, port, x.id)))
      case None =>
        var (id, w2) := PostListener(f, w1, PortName(port), PortNumber(port), w1.st.lbId);
        if id == UNSET then (false, w2) else (true, w2.(st := WithListener(w2.st, port, id)))
  }

  function EnsurePool(f: Oracle, w: World, port: Port): (r: (bool, World))
    ensures OnlyPort(w, r.1, port)
    ensures r.1.c.listeners == w.c.listeners && r.1.c.monitors == w.c.monitors
    ensures ListenerOf(r.1.st, port) == ListenerOf(w.st, port)
    ensures Appends(w.log, r.1.log, {PoolKind})
  {
    if PoolOf(w.st, port) != UNSET then (true, w)
    else if !Up(f, w) then (false, Called(w))
    else
      var w1 := Called(w);
      match PoolByName(w1.c, w1.st.lbId, PoolName(port))
      case Some(x) => (true, w1.(st := WithPool(w1.st, port, x.id)))
      case None =>
        var (id, w2) := PostPool(f, w1, PoolName(port), w1.st.lbId, ListenerOf(w1.st, port));
        if id == UNSET then (false, w2) else (true, w2.(st := WithPool(w2.st, port, id)))
  }

  /** Best effort: an error leaves the pool unmonitored until the next pass. */
  function EnsureMonitor(f: Oracle, w: World, port: Port): (r: World)
    ensures r == w.(n := r.n, log := r.log, c := w.c.(next := r.c.next, monitors := r.c.monitors))
    ensures w.c.next <= r.c.next
    ensures Appends(w.log, r.log, {MonitorKind})
  {
    if !Up(f, w) then Called(w)
    else if MonitorByName(w.c, MonitorName(port)).Some? then Called(w)
    else PostMonitor(f, Called(w), MonitorName(port), PoolOf(w.st, port))
  }

  function ReconcilePort(f: Oracle, w: World, port: Port): (r: (bool, World))
    ensures OnlyPort(w, r.1, port)
    ensures Appends(w.log, r.1.log, {ListenerKind, PoolKind, MonitorKind})
  {
    var (ok1, w1) := EnsureListener(f, w, port);
    if !ok1 then (false, w1)
    else
      var (ok2, w2) := EnsurePool(f, w1, port);
      if !ok2 then (false, w2) else (true, EnsureMonitor(f, w2, port))
  }

  // ---- Floating IP ----

  datatype FipResult = Ip(ip: string) | NotYet | FipError

  /** Frame of the floating-IP step. */
  ghost predicate OnlyFip(w: World, w': World) {
    && w.seen <= w'.seen
    && w.c.next <= w'.c.next
    && w' == w.(n := w'.n, log := w'.log, seen := w'.seen,
             c := w.c.(next := w'.c.next, fips := w'.c.fips, gateways := w'.c.gateways),
             st := w.st.(fipId := w'.st.fipId, gatewayId := w'.st.gatewayId, gatewayExposed := w'.st.gatewayExposed))
  }

  /** Frame of exposing the gateway. */
  ghost predicate OnlyGateway(w: World, w': World) {
    w' == w.(n := w'.n, log := w'.log, c := w.c.(gateways := w'.c.gateways),
             st := w.st.(gatewayId := w'.st.gatewayId, gatewayExposed := w'.st.gatewayExposed))
  }

  function FindGateway(f: Oracle, sp: Spec, w: World): (r: (bool, World))
    ensures r.1 == w.(n := r.1.n, st := w.st.(gatewayId := r.1.st.gatewayId))
  {
    if w.st.gatewayId != UNSET then (true, w)
    else if !Up(f, w) then (false, Called(w))
    else
      match GatewayByName(w.c, GatewayName(sp))
      case Some(g) => (g.id != UNSET, Called(w.(st := w.st.(gatewayId := g.id))))
      case None => (false, Called(w))
  }

  /** Every caller ignores the error, so only the new world is returned. */
  function EnsureGatewayExposed(f: Oracle, sp: Spec, w: World): (r: World)
    ensures OnlyGateway(w, r)
    ensures Appends(w.log, r.log, {GatewayKind})
  {
    if w.st.gatewayExposed then w
    else
      var (ok, w1) := FindGateway(f, sp, w);
      if !ok then w1
      else
        var (done, w2) := ExposeGateway(f, w1, w1.st.gatewayId);
        if done then w2.(st := w2.st.(gatewayExposed := true)) else w2
  }

  function RecordFip(w: World, id: Id): World { w.(st := w.st.(fipId := id)) }

  /** Ask for a floating IP, then look for it on the load balancer or in the listing:
      the identifier the POST answers with is not used. */
  function AllocateFip(f: Oracle, sp: Spec, w: World, lb: LoadBalancer): (r: (FipResult, World))
    ensures OnlyFip(w, r.1)
    ensures Appends(w.log, r.1.log, {FipKind, GatewayKind})
  {
    var (id, w1) := PostLbFip(f, w, lb, GatewayName(sp));
    if id == UNSET then (FipError, w1)
    else
      var w2 := EnsureGatewayExposed(f, sp, w1);
      var got, w3 := Answer(f, w2, LbById(w2.c, lb.id)), Called(w2);
      if got.Found? && got.value.fip.Some? && got.value.fip.value.id != UNSET then
        var ref := got.value.fip.value;
        var w4 := Saw(RecordFip(w3, ref.id), OnLb(lb.id, ref.id, ref.ip));
        (if ref.ip != "" then Ip(ref.ip) else NotYet, w4)
      else if Up(f, w3) && FipOfLb(w3.c, lb.id).Some? then
        var x := FipOfLb(w3.c, lb.id).value;
        var w4 := Saw(RecordFip(Called(w3), x.id), Listed(lb.id, x.id, ShownIp(x)));
        (if ShownIp(x) != "" then Ip(ShownIp(x)) else NotYet, w4)
      else (NotYet, Called(w3))
  }

  /** No floating IP on record: find the one associated with the load balancer, or allocate one. */
  function DiscoverFip(f: Oracle, sp: Spec, w: World, lb: LoadBalancer): (r: (FipResult, World))
    ensures OnlyFip(w, r.1)
    ensures Appends(w.log, r.1.log, {FipKind, GatewayKind})
  {
    if Up(f, w) && FipOfLb(w.c, lb.id).Some? then
      var x := FipOfLb(w.c, lb.id).value;
      var w1 := Saw(RecordFip(Called(w), x.id), Listed(lb.id, x.id, ShownIp(x)));
      if ShownIp(x) != "" then (Ip(ShownIp(x)), EnsureGatewayExposed(f, sp, w1)) else (NotYet, w1)
    else if lb.vip == "" then (NotYet, Called(w))
    else AllocateFip(f, sp, Called(w), lb)
  }

  function ReconcileFip(f: Oracle, sp: Spec, w: World, lb: LoadBalancer): (r: (FipResult, World))
    ensures OnlyFip(w, r.1)
    ensures Appends(w.log, r.1.log, {FipKind, GatewayKind})
  {
    if lb.fip.Some? && lb.fip.value.ip != "" then
      var ref := lb.fip.value;
      (Ip(ref.ip), EnsureGatewayExposed(f, sp, Saw(RecordFip(w, ref.id), OnLb(lb.id, ref.id, ref.ip))))
    else if w.st.fipId != UNSET then
      var w1 := EnsureGatewayExposed(f, sp, w);
      var got, w2 := Answer(f, w1, FipById(w1.c, w1.st.fipId)), Called(w1);
      if got.Found? && ShownIp(got.value) != "" then
        (Ip(ShownIp(got.value)), Saw(w2, Fetched(w2.st.fipId, ShownIp(got.value))))
      else if got.Absent? then DiscoverFip(f, sp, RecordFip(w2, UNSET), lb)
      else (NotYet, w2)
    else DiscoverFip(f, sp, w, lb)
  }

  // ---- Load balancer ----

  /** Listing by name after the POST, at most ten times. */
  function PollLb(f: Oracle, w: World, name: string, attempt: nat): (r: (Id, World))
    ensures r.1 == w.(n := r.1.n, c := w.c.(lbs := r.1.c.lbs))
    decreases 10 - attempt
  {
    if attempt >= 10 then (UNSET, w)
    else
      var (ok, w1) := ListLbs(f, w);
      if !ok then (UNSET, w1)
      else if VisibleLbByName(w1.c, name).Some? then (VisibleLbByName(w1.c, name).value.id, w1)
      else PollLb(f, w1, name, attempt + 1)
  }

  /** Client.CreateLoadBalancer: reuse a listed one of that name, otherwise POST and poll.
      A failed listing falls through to the POST. */
  function FindOrPostLb(f: Oracle, w: World, name: string, net: Id): (r: (Id, World))
    ensures r.1 == w.(n := r.1.n, log := r.1.log, c := w.c.(next := r.1.c.next, lbs := r.1.c.lbs))
    ensures w.c.next <= r.1.c.next
    ensures Appends(w.log, r.1.log, {LbKind})
  {
    var (ok, w1) := ListLbs(f, w);
    if ok && VisibleLbByName(w1.c, name).Some? then (VisibleLbByName(w1.c, name).value.id, w1)
    else
      var (id, w2) := PostLb(f, w1, name, net);
      if id == UNSET then (UNSET, w2) else PollLb(f, w2, name, 0)
  }

  /** Frame of creating the load balancer. */
  ghost predicate OnlyLb(w: World, w': World) {
    && w.c.next <= w'.c.next
    && w' == w.(n := w'.n, log := w'.log, c := w.c.(next := w'.c.next, lbs := w'.c.lbs), st := w.st.(lbId := w'.st.lbId))
  }

  function CreateLb(f: Oracle, sp: Spec, w: World): (r: (Phase, World))
    ensures OnlyLb(w, r.1) && !r.0.Done?
    ensures Appends(w.log, r.1.log, {LbKind})
  {
    var w1 := Called(w);
    var subnet := if sp.lbSubnetId != UNSET then sp.lbSubnetId else w.st.subnetId;
    if !Up(f, w) || subnet == UNSET || w.st.networkId == UNSET then (Error, w1)
    else
      var id := w1.st.networkId;
      var there := if id in w1.c.networks then Some(w1.c.networks[id]) else None;
      var got, w2 := Answer(f, w1, there), Called(w1);
      if !got.Found? || got.value.osId == UNSET then (Error, w2)
      else
        var (lb, w3) := FindOrPostLb(f, w2, Names.LbName(sp.name), id);
        if lb == UNSET then (Error, w3) else (Requeue, w3.(st := w3.st.(lbId := lb)))
  }

  function WithEndpoint(st: Status, host: string): Status {
    if host != "" && st.endpoint == "" then st.(endpoint := host) else st
  }

  /** Frame of a pass over an active load balancer. */
  ghost predicate OnlyServing(w: World, w': World) {
    && w.seen <= w'.seen
    && w.c.next <= w'.c.next
    && w' == w.(n := w'.n, log := w'.log, seen := w'.seen,
             c := w.c.(next := w'.c.next, listeners := w'.c.listeners, pools := w'.c.pools, monitors := w'.c.monitors,
                       fips := w'.c.fips, gateways := w'.c.gateways),
             st := w.st.(endpoint := w'.st.endpoint, listenerId := w'.st.listenerId, poolId := w'.st.poolId,
                         regListenerId := w'.st.regListenerId, regPoolId := w'.st.regPoolId, fipId := w'.st.fipId,
                         gatewayId := w'.st.gatewayId, gatewayExposed := w'.st.gatewayExposed))
  }

  /** Frame of setting the endpoint. */
  ghost predicate OnlyEndpoint(w: World, w': World) {
    && w.seen <= w'.seen
    && w.c.next <= w'.c.next
    && w' == w.(n := w'.n, log := w'.log, seen := w'.seen,
             c := w.c.(next := w'.c.next, fips := w'.c.fips, gateways := w'.c.gateways),
             st := w.st.(endpoint := w'.st.endpoint, fipId := w'.st.fipId, gatewayId := w'.st.gatewayId,
                         gatewayExposed := w'.st.gatewayExposed))
  }

  /** With a floating network the endpoint waits for the floating IP; otherwise it is the private VIP. */
  function ServeEndpoint(f: Oracle, sp: Spec, w: World, lb: LoadBalancer): (r: (Phase, World))
    ensures OnlyEndpoint(w, r.1)
    ensures Appends(w.log, r.1.log, {FipKind, GatewayKind})
  {
    if !sp.floating then (Done, w.(st := WithEndpoint(w.st, lb.vip)))
    else
      var (fip, w1) := ReconcileFip(f, sp, w, lb);
      match fip
      case FipError => (Error, w1)
      case NotYet => (Requeue, w1)
      case Ip(ip) => (Done, w1.(st := WithEndpoint(w1.st, ip)))
  }

  function HandleLb(f: Oracle, sp: Spec, w: World, lb: LoadBalancer): (r: (Phase, World))
    ensures OnlyServing(w, r.1)
    ensures Appends(w.log, r.1.log, {ListenerKind, PoolKind, MonitorKind, FipKind, GatewayKind})
  {
    if !Active(lb) then (Requeue, w)
    else
      var (ok1, w1) := ReconcilePort(f, w, ApiServer);
      if !ok1 then (Error, w1)
      else
        var (ok2, w2) := ReconcilePort(f, w1, Register);
        if !ok2 then (Error, w2) else ServeEndpoint(f, sp, w2, lb)
  }

  /** Adoption of the identifiers the user supplies. */
  function Adopt(sp: Spec, st: Status): Status {
    st.(lbId := if st.lbId == UNSET then sp.existingLb else st.lbId,
        fipId := if st.fipId == UNSET then sp.existingFip else st.fipId)
  }

  /** The recorded load balancer is gone: its own ID and the API server port's IDs are
      cleared, the register port's IDs are not. */
  function ForgetLb(st: Status): Status { st.(lbId := UNSET, listenerId := UNSET, poolId := UNSET) }

  function ReconcileLb(f: Oracle, sp: Spec, w: World): (r: (Phase, World))
    ensures Grows(w, r.1)
    ensures Appends(w.log, r.1.log, {LbKind, ListenerKind, PoolKind, MonitorKind, FipKind, GatewayKind})
  {
    var w0 := w.(st := Adopt(sp, w.st));
    if w0.st.lbId == UNSET then CreateLb(f, sp, w0)
    else
      var got, w1 := Answer(f, w0, LbById(w0.c, w0.st.lbId)), Called(w0);
      match got
      case Found(lb) => HandleLb(f, sp, w1, lb)
      case Absent => CreateLb(f, sp, w1.(st := ForgetLb(w1.st)))
      case Broken => (Error, w1)
  }

  // ---- DNS ----

  /** Best effort, and without a lookup: the record is created whenever none is recorded. */
  function ReconcileDns(f: Oracle, sp: Spec, w: World): (r: World)
    ensures r == w.(n := r.n, log := r.log, c := w.c.(next := r.c.next, records := r.c.records),
                    st := w.st.(recordId := r.st.recordId))
    ensures w.c.next <= r.c.next
    ensures Appends(w.log, r.log, {RecordKind})
  {
    if !sp.dns || w.st.recordId != UNSET || w.st.endpoint == "" then w
    else
      var (id, w1) := PostRecord(f, w);
      if id == UNSET then w1 else Called(w1.(st := w1.st.(recordId := id)))
  }

  // ---- The whole pass ----

  function ReconcileNormal(f: Oracle, sp: Spec, w: World): (r: (Phase, World))
    ensures Grows(w, r.1)
  {
    if !w.st.finalizer then (Requeue, w.(st := w.st.(finalizer := true)))
    else if !Up(f, w) then (Error, Called(w))
    else
      var (net, w1) := ReconcileNetwork(f, sp, Called(w));
      if !net.Done? then (net, w1)
      else
        var w2 := ReconcileGroups(f, sp, w1);
        var (lb, w3) := ReconcileLb(f, sp, w2);
        if !lb.Done? then (lb, w3)
        else
          var w4 := ReconcileDns(f, sp, w3);
          (Done, w4.(st := w4.st.(ready := true)))
  }
}
