/** What one pass of OVHClusterReconciler.ReconcileDelete does to cloud and object
    (internal/controller/ovhcluster_controller.go), as functions of the world before it. */
module ClusterDelete {
  import opened Collections
  import opened OvhCloud
  import opened ClusterSteps
  import Names

  function CleanDns(f: Oracle, sp: Spec, w: World): (r: World)
    ensures r == w.(n := r.n, log := r.log, c := w.c.(records := r.c.records), st := w.st.(recordId := r.st.recordId))
    ensures Appends(w.log, r.log, {RecordKind})
  {
    if w.st.recordId == UNSET || !sp.dns then w
    else
      var (ok, w1) := DeleteRecord(f, w, w.st.recordId);
      if ok then Called(w1.(st := w1.st.(recordId := UNSET))) else w1
  }

  /** `order` is the order in which the runtime happens to iterate over the recorded groups. */
  function CleanGroups(f: Oracle, w: World, order: seq<string>): (r: World)
    ensures r == w.(n := r.n, log := r.log, c := w.c.(groups := r.c.groups), st := w.st.(groupIds := r.st.groupIds))
    ensures Appends(w.log, r.log, {GroupKind})
    decreases |order|
  {
    if order == [] then w
    else if order[0] !in w.st.groupIds then CleanGroups(f, w, order[1..])
    else
      var (ok, w1) := DeleteGroup(f, w, w.st.groupIds[order[0]]);
      var w2 := if ok then w1.(st := w1.st.(groupIds := w1.st.groupIds - {order[0]})) else w1;
      CleanGroups(f, w2, order[1..])
  }

  /** Append the floating IPs associated with the load balancer that are not yet captured. */
  function Capture(fips: seq<FloatingIP>, lb: Id, captured: seq<Id>): (r: seq<Id>)
    ensures forall id :: id in captured ==> id in r
    ensures forall x :: x in fips && x.entity == Some(lb) ==> x.id in r
    ensures forall id :: id in r ==> id in captured || exists x :: x in fips && x.entity == Some(lb) && x.id == id
    decreases |fips|
  {
    if fips == [] then captured
    else
      var x := fips[0];
      var more := if x.entity == Some(lb) && x.id !in captured then captured + [x.id] else captured;
      assert fips == [x] + fips[1..];
      Capture(fips[1..], lb, more)
  }

  /** The floating IPs to delete, collected before the load balancer goes. */
  function CaptureFips(f: Oracle, w: World): (r: (seq<Id>, World))
    ensures r.1 == w.(n := r.1.n)
    ensures w.st.fipId != UNSET ==> w.st.fipId in r.0
  {
    var recorded := if w.st.fipId != UNSET then [w.st.fipId] else [];
    if w.st.lbId == UNSET then (recorded, w)
    else if Up(f, w) then (Capture(w.c.fips, w.st.lbId, recorded), Called(w))
    else (recorded, Called(w))
  }

  /** Pool and listener best effort, then the recorded load balancer. */
  function DeleteRecordedLb(f: Oracle, w: World): (r: (bool, World))
    ensures r.1 == w.(n := r.1.n, log := r.1.log,
                      c := w.c.(lbs := r.1.c.lbs, pools := r.1.c.pools, listeners := r.1.c.listeners))
    ensures Appends(w.log, r.1.log, {PoolKind, ListenerKind, LbKind})
  {
    if w.st.lbId == UNSET then (true, w)
    else
      var w1 := if w.st.poolId != UNSET then DeletePool(f, w, w.st.poolId) else w;
      var w2 := if w.st.listenerId != UNSET then DeleteListener(f, w1, w.st.listenerId) else w1;
      DeleteLb(f, w2, w.st.lbId)
  }

  function DeleteLbs(f: Oracle, w: World, ids: seq<Id>): (r: World)
    ensures r == w.(n := r.n, log := r.log, c := w.c.(lbs := r.c.lbs))
    ensures Appends(w.log, r.log, {LbKind})
    decreases |ids|
  {
    if ids == [] then w else DeleteLbs(f, DeleteLb(f, w, ids[0]).1, ids[1..])
  }

  /** Client.ListLoadBalancersByPrefix, as identifiers. */
  function LbsByPrefix(lbs: seq<LoadBalancer>, prefix: string): (r: seq<Id>)
    ensures forall x :: x in lbs && x.visible && Names.HasPrefix(x.name, prefix) ==> x.id in r
    ensures forall id :: id in r ==> exists x :: x in lbs && x.visible && Names.HasPrefix(x.name, prefix) && x.id == id
  {
    if lbs == [] then []
    else
      var front, last := lbs[..|lbs| - 1], lbs[|lbs| - 1];
      assert lbs == front + [last];
      LbsByPrefix(front, prefix) + if last.visible && Names.HasPrefix(last.name, prefix) then [last.id] else []
  }

  function DeleteOrphans(f: Oracle, sp: Spec, w: World): (r: World)
    ensures r == w.(n := r.n, log := r.log, c := w.c.(lbs := r.c.lbs))
    ensures Appends(w.log, r.log, {LbKind})
  {
    var (ok, w1) := ListLbs(f, w);
    if !ok then w1 else DeleteLbs(f, w1, LbsByPrefix(w1.c.lbs, Names.LbName(sp.name)))
  }

  /** A read that counts as deleted: any error, or detached and down. */
  predicate Gone(got: Got<FloatingIP>) {
    !got.Found? || (got.value.entity.None? && got.value.down)
  }

  /** True when some floating IP was still there after its DELETE. */
  function CleanFips(f: Oracle, w: World, ids: seq<Id>): (r: (bool, World))
    ensures r.1 == w.(n := r.1.n, log := r.1.log, c := w.c.(fips := r.1.c.fips))
    ensures Appends(w.log, r.1.log, {FipKind})
    decreases |ids|
  {
    if ids == [] then (false, w)
    else
      var w1 := DeleteFip(f, w, ids[0]);
      var gone := Gone(Answer(f, w1, FipById(w1.c, ids[0])));
      var (rest, w2) := CleanFips(f, Logged(w1, ReadFip(ids[0], gone)), ids[1..]);
      (!gone || rest, w2)
  }

  /** The first gateway of the cluster's name, best effort. */
  function CleanGateway(f: Oracle, sp: Spec, w: World): (r: World)
    ensures r == w.(n := r.n, log := r.log, c := w.c.(gateways := r.c.gateways))
    ensures Appends(w.log, r.log, {GatewayKind})
  {
    var w1 := Called(w);
    if !Up(f, w) then w1
    else
      match GatewayByName(w1.c, GatewayName(sp))
      case Some(g) => DeleteGateway(f, w1, g.id)
      case None => w1
  }

  /** Only a network the controller created is deleted. */
  function CleanNetwork(f: Oracle, w: World): (r: (bool, World))
    ensures r.1 == w.(n := r.1.n, log := r.1.log, c := w.c.(networks := r.1.c.networks))
    ensures Appends(w.log, r.1.log, {NetworkKind})
  {
    if !w.st.networkCreated || w.st.networkId == UNSET then (true, w)
    else DeleteNetwork(f, w, w.st.networkId)
  }

  function RemoveFinalizer(w: World): World { w.(st := w.st.(finalizer := false)) }

  /** The steps up to and including the recorded load balancer. */
  function DeleteFront(f: Oracle, sp: Spec, w: World, order: seq<string>): (r: (seq<Id>, bool, World))
    ensures Grows(w, r.2) && r.2.st == w.st.(recordId := r.2.st.recordId, groupIds := r.2.st.groupIds)
  {
    var w1 := CleanGroups(f, CleanDns(f, sp, w), order);
    var (fips, w2) := CaptureFips(f, w1);
    var (ok, w3) := DeleteRecordedLb(f, w2);
    (fips, ok, w3)
  }

  /** The steps after it, given the captured floating IPs. */
  function DeleteBack(f: Oracle, sp: Spec, w: World, fips: seq<Id>): (r: (Phase, World))
    ensures Grows(w, r.1) && r.1.st == w.st.(finalizer := if r.0.Done? then false else w.st.finalizer)
  {
    var w1 := DeleteOrphans(f, sp, w);
    var (again, w2) := CleanFips(f, w1, fips);
    if again then (Requeue, w2)
    else
      var (ok, w3) := CleanNetwork(f, CleanGateway(f, sp, w2));
      if !ok then (Requeue, w3) else (Done, RemoveFinalizer(w3))
  }

  function ReconcileDelete(f: Oracle, sp: Spec, w: World, order: seq<string>): (r: (Phase, World))
    ensures Grows(w, r.1)
    ensures r.1.st == w.st.(recordId := r.1.st.recordId, groupIds := r.1.st.groupIds,
                            finalizer := if r.0.Done? then false else w.st.finalizer)
  {
    if sp.keep then (Done, RemoveFinalizer(w))
    else
      var (fips, ok, w1) := DeleteFront(f, sp, w, order);
      if !ok then (Error, w1) else DeleteBack(f, sp, w1, fips)
  }
}
