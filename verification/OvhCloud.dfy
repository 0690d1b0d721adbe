/** One OVH region as the controllers see it through the API, and the API calls.

    Assumptions about the cloud, used by every run-level theorem:
    - a POST or DELETE that answers with an error has had no effect;
    - a listing that succeeds shows every resource it covers, except that a load
      balancer whose creation task is still running may be missing from it;
    - identifiers are never reused.

    An identifier is a `nat`, where 0 stands for the source's unset value ("" or 0). */
module OvhCloud {
  import opened Collections

  type Id = nat
  const UNSET: Id := 0
  type FreshId = id: Id | id != UNSET witness 1

  datatype Network = Network(wait: nat, osId: Id, subnets: seq<Id>)
  datatype FipRef = FipRef(id: Id, ip: string)
  datatype LoadBalancer = LoadBalancer(id: Id, name: string, net: Id, wait: nat, vip: string,
                                       fip: Option<FipRef>, visible: bool, deleting: bool)
  datatype Listener = Listener(id: Id, name: string, lbs: seq<Id>, port: nat)
  datatype Pool = Pool(id: Id, name: string, lb: Id, listener: Id)
  datatype Monitor = Monitor(id: Id, name: string, pool: Id)
  datatype FloatingIP = FloatingIP(id: Id, ip: string, wait: nat, entity: Option<Id>, down: bool)
  datatype Gateway = Gateway(id: Id, name: string, net: Id, exposed: bool, deleting: bool, wait: nat)
  datatype Group = Group(id: Id, name: string)

  /** `next` is the identifier the next POST hands out. A `wait` counts the ticks
      until the resource is ready (or, while deleting, until it is gone). */
  datatype Cloud = Cloud(
    next: FreshId,
    networks: map<Id, Network>,
    lbs: seq<LoadBalancer>,
    listeners: seq<Listener>,
    pools: seq<Pool>,
    monitors: seq<Monitor>,
    fips: seq<FloatingIP>,
    gateways: seq<Gateway>,
    groups: seq<Group>,
    records: seq<Id>)

  /** Identifiers the cloud has handed out: set, below `next`, and each for one resource. */
  ghost predicate WellFormed(c: Cloud) {
    && (forall x :: x in c.lbs ==> UNSET < x.id < c.next && (x.fip.Some? ==> x.fip.value.id != UNSET))
    && (forall i, j :: 0 <= i < j < |c.lbs| ==> c.lbs[i].id != c.lbs[j].id)
    && (forall x :: x in c.fips ==> UNSET < x.id < c.next)
    && (forall i, j :: 0 <= i < j < |c.fips| ==> c.fips[i].id != c.fips[j].id)
    && (forall x :: x in c.listeners ==> x.id != UNSET)
    && (forall x :: x in c.pools ==> x.id != UNSET)
    && (forall x :: x in c.groups ==> x.id != UNSET)
    && (forall x :: x in c.gateways ==> x.id != UNSET)
    && (forall n, i :: n in c.networks && 0 <= i < |c.networks[n].subnets| ==> c.networks[n].subnets[i] != UNSET)
  }

  /** What one API call does. `Late` succeeds, but its effect is still in progress;
      `Missing` is an error that the client classifies as 404 although the resource
      may exist; `Busy` is a 409 whose text names a pending state, `Conflict` any other 409; `Fail` is
      any other error. */
  datatype Outcome = Ok | Late | Fail | Missing | Busy | Conflict

  /** `delay` is how long a created or deleted resource takes to settle, `addr` the
      address the cloud assigns to it. */
  datatype Reply = Reply(outcome: Outcome, delay: nat, addr: string)

  /** The cloud's answer to the n-th API call, chosen by the environment. */
  type Oracle = nat -> Reply

  datatype Kind = NetworkKind | SubnetKind | GroupKind | LbKind | ListenerKind | PoolKind
                | MonitorKind | FipKind | GatewayKind | RecordKind

  /** Calls that change the cloud, and the reads that decide whether deletion is complete.
      A refused POST is logged with identifier 0. */
  datatype Event = Posted(kind: Kind, id: Id) | Exposed(id: Id)
                 | Deleted(kind: Kind, id: Id, accepted: bool) | ReadFip(id: Id, gone: bool)

  function KindOf(e: Event): Kind {
    match e
    case Posted(k, _) => k
    case Exposed(_) => GatewayKind
    case Deleted(k, _, _) => k
    case ReadFip(_, _) => FipKind
  }

  /** The log only grew, by events of these kinds. */
  ghost predicate Appends(log: seq<Event>, log': seq<Event>, kinds: set<Kind>) {
    log <= log' && forall i :: |log| <= i < |log'| ==> KindOf(log'[i]) in kinds
  }

  /** The API showed floating IP `fip`, with address `ip` unless that is "": as the reference
      on a load balancer, in a listing as associated with it, or fetched by its identifier. */
  datatype Sight = OnLb(lb: Id, fip: Id, ip: string) | Listed(lb: Id, fip: Id, ip: string)
                 | Fetched(fip: Id, ip: string)

  /** The saved part of an OVHCluster that the reconciler writes: status, the
      NetworkCreatedByController condition, the finalizer and the endpoint host. */
  datatype Status = Status(
    finalizer: bool, ready: bool, endpoint: string,
    networkId: Id, networkCreated: bool, subnetId: Id,
    lbId: Id, listenerId: Id, poolId: Id, regListenerId: Id, regPoolId: Id,
    fipId: Id, gatewayId: Id, gatewayExposed: bool,
    groupIds: map<string, Id>, recordId: Id)

  /** Cloud and object, plus the history the theorems speak about: the number of API
      calls made, the events logged and the floating IPs seen. */
  datatype World = World(c: Cloud, st: Status, n: nat, log: seq<Event>, seen: set<Sight>)

  /** The answer to a GET: found, an error classified as 404, or another error. */
  datatype Got<+T> = Found(value: T) | Absent | Broken

  function Called(w: World): World { w.(n := w.n + 1) }

  /** Call number `n` goes through. */
  predicate Answered(f: Oracle, n: nat) { f(n).outcome.Ok? || f(n).outcome.Late? }

  predicate Up(f: Oracle, w: World) { Answered(f, w.n) }

  function Answer<T>(f: Oracle, w: World, there: Option<T>): Got<T> {
    match f(w.n).outcome
    case Ok | Late => if there.Some? then Found(there.value) else Absent
    case Missing => Absent
    case Fail | Busy | Conflict => Broken
  }

  function Logged(w: World, e: Event): World { w.(n := w.n + 1, log := w.log + [e]) }

  function Saw(w: World, s: Sight): World { w.(seen := w.seen + {s}) }

  function ShownIp(x: FloatingIP): string { if x.wait == 0 then x.ip else "" }

  predicate Active(lb: LoadBalancer) { lb.wait == 0 && !lb.deleting }

  /** Identifiers, log and sightings only grow. */
  ghost predicate Grows(w: World, w': World) {
    w.c.next <= w'.c.next && w.log <= w'.log && w.seen <= w'.seen
  }

  // ---- Lookups ----

  function LbById(c: Cloud, id: Id): Option<LoadBalancer> { First(c.lbs, (x: LoadBalancer) => x.id == id) }

  function FipById(c: Cloud, id: Id): Option<FloatingIP> { First(c.fips, (x: FloatingIP) => x.id == id) }

  function FipOfLb(c: Cloud, lb: Id): Option<FloatingIP> {
    First(c.fips, (x: FloatingIP) => x.entity == Some(lb))
  }

  function ListenerByName(c: Cloud, lb: Id, name: string): Option<Listener> {
    First(c.listeners, (x: Listener) => x.name == name && lb in x.lbs)
  }

  function PoolByName(c: Cloud, lb: Id, name: string): Option<Pool> {
    First(c.pools, (x: Pool) => x.name == name && x.lb == lb)
  }

  function MonitorByName(c: Cloud, name: string): Option<Monitor> {
    First(c.monitors, (x: Monitor) => x.name == name)
  }

  function GatewayByName(c: Cloud, name: string): Option<Gateway> {
    First(c.gateways, (x: Gateway) => x.name == name)
  }

  function VisibleLbByName(c: Cloud, name: string): Option<LoadBalancer> {
    First(c.lbs, (x: LoadBalancer) => x.visible && x.name == name)
  }

  // ---- Calls that create ----

  /** A private network, active in the region after `delay` ticks. */
  function PostNetwork(f: Oracle, w: World): (r: (Id, World)) {
    if Up(f, w) then
      var id := w.c.next;
      var net := Network(f(w.n).delay, id, []);
      (id, Logged(w.(c := w.c.(next := id + 1, networks := w.c.networks[id := net])), Posted(NetworkKind, id)))
    else (UNSET, Logged(w, Posted(NetworkKind, UNSET)))
  }

  function PostSubnet(f: Oracle, w: World, net: Id): (r: (Id, World)) {
    if Up(f, w) && net in w.c.networks then
      var id := w.c.next;
      var was := w.c.networks[net];
      (id, Logged(w.(c := w.c.(next := id + 1, networks := w.c.networks[net := was.(subnets := was.subnets + [id])])),
                  Posted(SubnetKind, id)))
    else (UNSET, Logged(w, Posted(SubnetKind, UNSET)))
  }

  function PostGroup(f: Oracle, w: World, name: string): (r: (Id, World)) {
    if Up(f, w) then
      var id := w.c.next;
      (id, Logged(w.(c := w.c.(next := id + 1, groups := w.c.groups + [Group(id, name)])), Posted(GroupKind, id)))
    else (UNSET, Logged(w, Posted(GroupKind, UNSET)))
  }

  /** The POST answers with a task; the load balancer is listed once a listing answers `Ok`. */
  function PostLb(f: Oracle, w: World, name: string, net: Id): (r: (Id, World)) {
    if Up(f, w) then
      var id := w.c.next;
      var lb := LoadBalancer(id, name, net, f(w.n).delay, f(w.n).addr, None, false, false);
      (id, Logged(w.(c := w.c.(next := id + 1, lbs := w.c.lbs + [lb])), Posted(LbKind, id)))
    else (UNSET, Logged(w, Posted(LbKind, UNSET)))
  }

  function PostListener(f: Oracle, w: World, name: string, port: nat, lb: Id): (r: (Id, World)) {
    if Up(f, w) then
      var id := w.c.next;
      (id, Logged(w.(c := w.c.(next := id + 1, listeners := w.c.listeners + [Listener(id, name, [lb], port)])),
                  Posted(ListenerKind, id)))
    else (UNSET, Logged(w, Posted(ListenerKind, UNSET)))
  }

  function PostPool(f: Oracle, w: World, name: string, lb: Id, listener: Id): (r: (Id, World)) {
    if Up(f, w) then
      var id := w.c.next;
      (id, Logged(w.(c := w.c.(next := id + 1, pools := w.c.pools + [Pool(id, name, lb, listener)])),
                  Posted(PoolKind, id)))
    else (UNSET, Logged(w, Posted(PoolKind, UNSET)))
  }

  function PostMonitor(f: Oracle, w: World, name: string, pool: Id): (r: World) {
    if Up(f, w) then
      var id := w.c.next;
      Logged(w.(c := w.c.(next := id + 1, monitors := w.c.monitors + [Monitor(id, name, pool)])),
             Posted(MonitorKind, id))
    else Logged(w, Posted(MonitorKind, UNSET))
  }

  function PostRecord(f: Oracle, w: World): (r: (Id, World)) {
    if Up(f, w) then
      var id := w.c.next;
      (id, Logged(w.(c := w.c.(next := id + 1, records := w.c.records + [id])), Posted(RecordKind, id)))
    else (UNSET, Logged(w, Posted(RecordKind, UNSET)))
  }

  /** Allocates and attaches a floating IP, and a gateway if the network has none. The
      identifier in the answer is a placeholder: the floating IP gets another one. */
  function PostLbFip(f: Oracle, w: World, lb: LoadBalancer, gwName: string): (r: (Id, World)) {
    if Up(f, w) then
      var id := w.c.next;
      var fip := FloatingIP(id + 1, f(w.n).addr, f(w.n).delay, Some(lb.id), false);
      var gws := if exists g :: g in w.c.gateways && g.net == lb.net then w.c.gateways
                 else w.c.gateways + [Gateway(id + 2, gwName, lb.net, false, false, 0)];
      (id, Logged(w.(c := w.c.(next := id + 3, fips := w.c.fips + [fip], gateways := gws)), Posted(FipKind, id)))
    else (UNSET, Logged(w, Posted(FipKind, UNSET)))
  }

  /** True when the client reports success; any 409 counts as already exposed. */
  function ExposeGateway(f: Oracle, w: World, id: Id): (r: (bool, World)) {
    if Up(f, w) then
      var gws := Rewrite(w.c.gateways, (g: Gateway) => if g.id == id then g.(exposed := true) else g);
      (true, Logged(w.(c := w.c.(gateways := gws)), Exposed(id)))
    else (f(w.n).outcome.Busy? || f(w.n).outcome.Conflict?, Logged(w, Exposed(id)))
  }

  /** Listing load balancers; an `Ok` answer shows the ones whose task has finished by now. */
  function ListLbs(f: Oracle, w: World): (r: (bool, World)) {
    if f(w.n).outcome.Ok? then
      (true, Called(w.(c := w.c.(lbs := Rewrite(w.c.lbs, (x: LoadBalancer) => x.(visible := true))))))
    else (f(w.n).outcome.Late?, Called(w))
  }

  // ---- Calls that delete: the boolean is whether the client returned no error ----

  function DeleteRecord(f: Oracle, w: World, id: Id): (r: (bool, World)) {
    if Up(f, w) then
      (true, Logged(w.(c := w.c.(records := Filter(w.c.records, (x: Id) => x != id))), Deleted(RecordKind, id, true)))
    else (f(w.n).outcome.Missing?, Logged(w, Deleted(RecordKind, id, f(w.n).outcome.Missing?)))
  }

  function DeleteGroup(f: Oracle, w: World, id: Id): (r: (bool, World)) {
    if Up(f, w) then
      (true, Logged(w.(c := w.c.(groups := Filter(w.c.groups, (x: Group) => x.id != id))), Deleted(GroupKind, id, true)))
    else (f(w.n).outcome.Missing?, Logged(w, Deleted(GroupKind, id, f(w.n).outcome.Missing?)))
  }

  function DeletePool(f: Oracle, w: World, id: Id): (r: World)
    ensures Appends(w.log, r.log, {PoolKind})
  {
    if Up(f, w) then
      Logged(w.(c := w.c.(pools := Filter(w.c.pools, (x: Pool) => x.id != id))), Deleted(PoolKind, id, true))
    else Logged(w, Deleted(PoolKind, id, f(w.n).outcome.Missing?))
  }

  function DeleteListener(f: Oracle, w: World, id: Id): (r: World)
    ensures Appends(w.log, r.log, {ListenerKind})
  {
    if Up(f, w) then
      Logged(w.(c := w.c.(listeners := Filter(w.c.listeners, (x: Listener) => x.id != id))), Deleted(ListenerKind, id, true))
    else Logged(w, Deleted(ListenerKind, id, f(w.n).outcome.Missing?))
  }

  /** An accepted request starts the deletion, which takes `delay` ticks. The client also
      accepts an error classified as 404 and a 409 naming PENDING_DELETE or PENDING_UPDATE. */
  function DeleteLb(f: Oracle, w: World, id: Id): (r: (bool, World))
    ensures r.1.log == w.log + [Deleted(LbKind, id, r.0)] && r.1.n == w.n + 1
  {
    if Up(f, w) then
      var lbs := Rewrite(w.c.lbs, (x: LoadBalancer) =>
        if x.id == id && !x.deleting then x.(deleting := true, wait := f(w.n).delay) else x);
      (true, Logged(w.(c := w.c.(lbs := lbs)), Deleted(LbKind, id, true)))
    else
      var ok := f(w.n).outcome.Missing? || f(w.n).outcome.Busy?;
      (ok, Logged(w, Deleted(LbKind, id, ok)))
  }

  /** `Ok` removes the floating IP. `Late` only moves it one step: attached, detached, down. */
  function DeleteFip(f: Oracle, w: World, id: Id): (r: World)
    ensures exists ok :: r.log == w.log + [Deleted(FipKind, id, ok)]
  {
    match f(w.n).outcome
    case Ok =>
      Logged(w.(c := w.c.(fips := Filter(w.c.fips, (x: FloatingIP) => x.id != id))), Deleted(FipKind, id, true))
    case Late =>
      var fips := Rewrite(w.c.fips, (x: FloatingIP) =>
        if x.id != id then x else if x.entity.Some? then x.(entity := None, down := false) else x.(down := true));
      Logged(w.(c := w.c.(fips := fips)), Deleted(FipKind, id, true))
    case _ => Logged(w, Deleted(FipKind, id, f(w.n).outcome.Missing?))
  }

  function DeleteGateway(f: Oracle, w: World, id: Id): (r: World) {
    if Up(f, w) then
      var gws := Rewrite(w.c.gateways, (g: Gateway) =>
        if g.id == id && !g.deleting then g.(deleting := true, wait := f(w.n).delay) else g);
      Logged(w.(c := w.c.(gateways := gws)), Deleted(GatewayKind, id, true))
    else Logged(w, Deleted(GatewayKind, id, f(w.n).outcome.Missing?))
  }

  /** Something on the network still holds a port in it. */
  predicate InUse(c: Cloud, net: Id) {
    (exists x :: x in c.lbs && x.net == net) || (exists g :: g in c.gateways && g.net == net)
  }

  function DeleteNetwork(f: Oracle, w: World, id: Id): (r: (bool, World))
    ensures r.1.log == w.log + [Deleted(NetworkKind, id, r.0)]
  {
    if Up(f, w) then
      var ok := id !in w.c.networks || !InUse(w.c, id);
      (ok, Logged(if ok then w.(c := w.c.(networks := w.c.networks - {id})) else w, Deleted(NetworkKind, id, ok)))
    else (f(w.n).outcome.Missing?, Logged(w, Deleted(NetworkKind, id, f(w.n).outcome.Missing?)))
  }
}
