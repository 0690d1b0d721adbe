/** Conversion between the v1alpha1 and v1alpha2 API versions (api/v1alpha1/conversion.go). A
    conversion fills the fields of a target that the caller supplies; API machinery supplies a
    fresh one. Payloads the conversion copies whole (metadata, conditions, addresses) are strings. */
module Conversion {
  import opened Collections

  datatype Result<+T> = Ok(value: T) | Failed

  /** A Go slice: nil, or possibly empty. */
  datatype Slice<+T> = Nil | Items(items: seq<T>)

  function Elements<T>(s: Slice<T>): seq<T> { if s.Nil? then [] else s.items }

  // ---- Types of both versions ----

  datatype Listener = Listener(name: string, port: int, protocol: string, backendPort: int)
  datatype Network = Network(privateId: string, cidr: string, vlan: int, gateway: string, dns: Slice<string>)
  datatype Secret = Secret(namespace: string, name: string)
  datatype Volume = Volume(name: string, sizeGb: int, kind: string)

  /** The status fields both cluster versions have. */
  datatype ClusterStatus = ClusterStatus(
    ready: bool, failureReason: string, failureMessage: string, conditions: string,
    networkId: string, subnetId: string, loadBalancerId: string, listenerId: string, poolId: string,
    floatingIpId: string, gatewayId: string, gatewayExposed: bool, registerListenerId: string, registerPoolId: string)

  /** The machine status is the same in both versions. */
  datatype MachineStatus = MachineStatus(
    ready: bool, conditions: string, failureReason: string, failureMessage: string, addresses: string,
    provisioned: bool, instanceId: string, volumeIds: Slice<string>, lbPoolMemberId: string, registerPoolMemberId: string)

  // ---- v1alpha1 ----

  datatype LbConfig1 = LbConfig1(subnetId: string, flavor: string, floatingNetwork: string, listeners: Slice<Listener>)
  datatype ClusterSpec1 = ClusterSpec1(service: string, region: string, secret: Secret, endpoint: string,
                                       lb: LbConfig1, network: Option<Network>, sshKey: string)
  datatype Cluster1 = Cluster1(meta: string, spec: ClusterSpec1, status: ClusterStatus)
  datatype MachineSpec1 = MachineSpec1(providerId: string, flavor: string, image: string, sshKey: string,
                                       rootDisk: int, volumes: Slice<Volume>, failureDomain: string)
  datatype Machine1 = Machine1(meta: string, spec: MachineSpec1, status: MachineStatus)

  // ---- v1alpha2: the hub, with fields of its own ----

  datatype LbConfig2 = LbConfig2(subnetId: string, flavor: string, floatingNetwork: string, listeners: Slice<Listener>,
                                 existingLb: string, existingFip: string)
  datatype ClusterSpec2 = ClusterSpec2(service: string, region: string, secret: Secret, endpoint: string,
                                       lb: LbConfig2, network: Option<Network>, sshKey: string,
                                       failureDomains: Slice<string>, securityGroups: Slice<string>,
                                       tags: Option<map<string, string>>, dns: Option<string>)
  datatype ClusterStatus2 = ClusterStatus2(common: ClusterStatus, failureDomains: Option<map<string, string>>,
                                           securityGroupIds: Option<map<string, string>>, dnsRecordId: int)
  datatype Cluster2 = Cluster2(meta: string, spec: ClusterSpec2, status: ClusterStatus2)
  datatype MachineSpec2 = MachineSpec2(providerId: string, flavor: string, image: string, sshKey: string,
                                       rootDisk: int, volumes: Slice<Volume>, failureDomain: string,
                                       securityGroups: Slice<string>, tags: Option<map<string, string>>,
                                       bootstrapFormat: string, existingInstance: string)
  datatype Machine2 = Machine2(meta: string, spec: MachineSpec2, status: MachineStatus)

  /** A template holds a spec under its own metadata. */
  datatype Template<+S> = Template(meta: string, innerMeta: string, spec: S)
  datatype List<+T> = List(meta: string, items: Slice<T>)

  // ---- Zero values ----

  const NO_STATUS := ClusterStatus(false, "", "", "", "", "", "", "", "", "", "", false, "", "")
  const NO_CLUSTER1 := Cluster1("", ClusterSpec1("", "", Secret("", ""), "", LbConfig1("", "", "", Nil), None, ""), NO_STATUS)
  const NO_CLUSTER2 := Cluster2("", ClusterSpec2("", "", Secret("", ""), "", LbConfig2("", "", "", Nil, "", ""), None, "", Nil, Nil, None, None),
                                ClusterStatus2(NO_STATUS, None, None, 0))
  const NO_MACHINE_STATUS := MachineStatus(false, "", "", "", "", false, "", Nil, "", "")
  const NO_SPEC1 := MachineSpec1("", "", "", "", 0, Nil, "")
  const NO_SPEC2 := MachineSpec2("", "", "", "", 0, Nil, "", Nil, None, "", "")
  const NO_MACHINE1 := Machine1("", NO_SPEC1, NO_MACHINE_STATUS)
  const NO_MACHINE2 := Machine2("", NO_SPEC2, NO_MACHINE_STATUS)

  // ---- Clusters ----

  predicate Convertible(protocol: string) { protocol == "TCP" || protocol == "UDP" || protocol == "SCTP" }

  predicate AllConvertible(s: Slice<Listener>) { forall i :: 0 <= i < |Elements(s)| ==> Convertible(Elements(s)[i].protocol) }

  /** A nonempty slice is copied; an empty or nil one leaves the target's. */
  function Fill<T>(src: Slice<T>, into: Slice<T>): Slice<T> { if |Elements(src)| > 0 then src else into }

  /** append(nil, src...): nil when there is nothing to append. */
  function Appended<T>(src: Slice<T>): Slice<T> { Fill(src, Nil) }

  function CopyNetwork(src: Option<Network>, into: Option<Network>): Option<Network> {
    match src
    case None => into
    case Some(n) => Some(n.(dns := Appended(n.dns)))
  }

  /** The loop over the listeners, which stops at the first protocol it cannot convert. */
  method ConvertListeners(src: seq<Listener>) returns (r: Result<seq<Listener>>)
    ensures r == if AllConvertible(Items(src)) then Ok(src) else Failed
  {
    var dst := [];
    for i := 0 to |src|
      invariant dst == src[..i] && forall j :: 0 <= j < i ==> Convertible(src[j].protocol)
    {
      var l := src[i];
      if !Convertible(l.protocol) {
        assert !Convertible(Elements(Items(src))[i].protocol);
        return Failed;
      }
      dst := dst + [Listener(l.name, l.port, l.protocol, l.backendPort)];
    }
    assert dst == src;
    return Ok(dst);
  }

  function ClusterTo(src: Cluster1, into: Cluster2): Result<Cluster2> {
    if !AllConvertible(src.spec.lb.listeners) then Failed
    else Ok(Cluster2(
      src.meta,
      into.spec.(service := src.spec.service, region := src.spec.region, secret := src.spec.secret,
                 endpoint := src.spec.endpoint, sshKey := src.spec.sshKey,
                 lb := into.spec.lb.(subnetId := src.spec.lb.subnetId, flavor := src.spec.lb.flavor,
                                     floatingNetwork := src.spec.lb.floatingNetwork,
                                     listeners := Fill(src.spec.lb.listeners, into.spec.lb.listeners)),
                 network := CopyNetwork(src.spec.network, into.spec.network)),
      into.status.(common := src.status)))
  }

  function ClusterFrom(src: Cluster2, into: Cluster1): Cluster1 {
    Cluster1(
      src.meta,
      ClusterSpec1(src.spec.service, src.spec.region, src.spec.secret, src.spec.endpoint,
                   LbConfig1(src.spec.lb.subnetId, src.spec.lb.flavor, src.spec.lb.floatingNetwork,
                             Fill(src.spec.lb.listeners, into.spec.lb.listeners)),
                   CopyNetwork(src.spec.network, into.spec.network), src.spec.sshKey),
      src.status.common)
  }

  /** No slice is empty without being nil. */
  predicate Tidy<T>(s: Slice<T>) { s.Items? ==> s.items != [] }

  predicate TidyNetwork(n: Option<Network>) { n.Some? ==> Tidy(n.value.dns) }

  /** v1alpha1 to v1alpha2 fails exactly on a listener protocol other than TCP, UDP and SCTP. There
      and back is the identity exactly when no slice is empty without being nil. */
  lemma ClusterRoundTrip(x: Cluster1)
    ensures ClusterTo(x, NO_CLUSTER2).Ok? <==> forall l :: l in Elements(x.spec.lb.listeners) ==> l.protocol in {"TCP", "UDP", "SCTP"}
    ensures ClusterTo(x, NO_CLUSTER2).Ok? ==>
              (ClusterFrom(ClusterTo(x, NO_CLUSTER2).value, NO_CLUSTER1) == x
               <==> Tidy(x.spec.lb.listeners) && TidyNetwork(x.spec.network))
  {
  }

  /** Every field that both versions have is the same in both, up to slices that are empty but not nil. */
  ghost predicate SameCluster(x: Cluster1, y: Cluster2) {
    && y.meta == x.meta && y.status.common == x.status
    && y.spec.service == x.spec.service && y.spec.region == x.spec.region && y.spec.secret == x.spec.secret
    && y.spec.endpoint == x.spec.endpoint && y.spec.sshKey == x.spec.sshKey
    && y.spec.lb.subnetId == x.spec.lb.subnetId && y.spec.lb.flavor == x.spec.lb.flavor
    && y.spec.lb.floatingNetwork == x.spec.lb.floatingNetwork
    && Elements(y.spec.lb.listeners) == Elements(x.spec.lb.listeners)
    && (y.spec.network.Some? <==> x.spec.network.Some?)
    && (x.spec.network.Some? ==>
          var a, b := x.spec.network.value, y.spec.network.value;
          && b.privateId == a.privateId && b.cidr == a.cidr && b.vlan == a.vlan && b.gateway == a.gateway
          && Elements(b.dns) == Elements(a.dns))
  }

  /** Both directions carry each field over to the field of the same name. */
  lemma ClusterFieldsKept(x: Cluster1, y: Cluster2)
    ensures ClusterTo(x, NO_CLUSTER2).Ok? ==> SameCluster(x, ClusterTo(x, NO_CLUSTER2).value)
    ensures SameCluster(ClusterFrom(y, NO_CLUSTER1), y)
  {
  }

  /** What survives v1alpha1: everything but the fields that only v1alpha2 has. */
  function Common(y: Cluster2): Cluster2 {
    y.(spec := y.spec.(lb := y.spec.lb.(existingLb := "", existingFip := "", listeners := Appended(y.spec.lb.listeners)),
                       network := CopyNetwork(y.spec.network, None),
                       failureDomains := Nil, securityGroups := Nil, tags := None, dns := None),
       status := y.status.(failureDomains := None, securityGroupIds := None, dnsRecordId := 0))
  }

  function Down(y: Cluster2): Result<Cluster2> { ClusterTo(ClusterFrom(y, NO_CLUSTER1), NO_CLUSTER2) }

  /** The trip from v1alpha2 through v1alpha1 projects onto the common fields, and once is enough. */
  lemma ClusterProjection(y: Cluster2)
    ensures Down(y).Ok? <==> AllConvertible(y.spec.lb.listeners)
    ensures Down(y).Ok? ==> Down(y).value == Common(y) && Down(Down(y).value) == Down(y)
  {
  }

  /** Freshness matters: an old target keeps its listeners and network exactly when the source has none. */
  lemma OldTargetKept(x: Cluster1, into: Cluster2)
    requires ClusterTo(x, into).Ok?
    ensures ClusterTo(x, into).value.spec.lb.listeners == ClusterTo(x, NO_CLUSTER2).value.spec.lb.listeners
            <==> |Elements(x.spec.lb.listeners)| > 0 || into.spec.lb.listeners == Nil
    ensures ClusterTo(x, into).value.spec.network == ClusterTo(x, NO_CLUSTER2).value.spec.network
            <==> x.spec.network.Some? || into.spec.network == None
  {
  }

  // ---- Machines ----

  function SpecTo(src: MachineSpec1, into: MachineSpec2): MachineSpec2 {
    into.(providerId := src.providerId, flavor := src.flavor, image := src.image, sshKey := src.sshKey,
          rootDisk := src.rootDisk, failureDomain := src.failureDomain, volumes := Fill(src.volumes, into.volumes))
  }

  function SpecFrom(src: MachineSpec2, into: MachineSpec1): MachineSpec1 {
    MachineSpec1(src.providerId, src.flavor, src.image, src.sshKey, src.rootDisk, Fill(src.volumes, into.volumes), src.failureDomain)
  }

  function MachineTo(src: Machine1, into: Machine2): Machine2 { Machine2(src.meta, SpecTo(src.spec, into.spec), src.status) }

  function MachineFrom(src: Machine2, into: Machine1): Machine1 { Machine1(src.meta, SpecFrom(src.spec, into.spec), src.status) }

  function CommonSpec(y: MachineSpec2): MachineSpec2 {
    y.(volumes := Appended(y.volumes), securityGroups := Nil, tags := None, bootstrapFormat := "", existingInstance := "")
  }

  ghost predicate SameSpec(x: MachineSpec1, y: MachineSpec2) {
    && y.providerId == x.providerId && y.flavor == x.flavor && y.image == x.image && y.sshKey == x.sshKey
    && y.rootDisk == x.rootDisk && y.failureDomain == x.failureDomain && Elements(y.volumes) == Elements(x.volumes)
  }

  lemma MachineFieldsKept(x: Machine1, y: Machine2)
    ensures var to := MachineTo(x, NO_MACHINE2); to.meta == x.meta && to.status == x.status && SameSpec(x.spec, to.spec)
    ensures var from := MachineFrom(y, NO_MACHINE1); from.meta == y.meta && from.status == y.status && SameSpec(from.spec, y.spec)
  {
  }

  lemma MachineRoundTrip(x: Machine1, y: Machine2)
    ensures MachineFrom(MachineTo(x, NO_MACHINE2), NO_MACHINE1) == x <==> Tidy(x.spec.volumes)
    ensures var once := MachineTo(MachineFrom(y, NO_MACHINE1), NO_MACHINE2);
            once == y.(spec := CommonSpec(y.spec)) && MachineTo(MachineFrom(once, NO_MACHINE1), NO_MACHINE2) == once
  {
  }

  // ---- Templates ----

  function ClusterTemplateTo(src: Template<ClusterSpec1>): Result<Template<ClusterSpec2>> {
    var inner := ClusterTo(NO_CLUSTER1.(spec := src.spec), NO_CLUSTER2);
    if inner.Failed? then Failed else Ok(Template(src.meta, src.innerMeta, inner.value.spec))
  }

  function ClusterTemplateFrom(src: Template<ClusterSpec2>): Template<ClusterSpec1> {
    Template(src.meta, src.innerMeta, ClusterFrom(NO_CLUSTER2.(spec := src.spec), NO_CLUSTER1).spec)
  }

  function MachineTemplateTo(src: Template<MachineSpec1>): Template<MachineSpec2> {
    Template(src.meta, src.innerMeta, SpecTo(src.spec, NO_SPEC2))
  }

  function MachineTemplateFrom(src: Template<MachineSpec2>): Template<MachineSpec1> {
    Template(src.meta, src.innerMeta, SpecFrom(src.spec, NO_SPEC1))
  }

  /** The trips of both kinds of template through v1alpha1 and back. */
  function DownTemplate(y: Template<ClusterSpec2>): Result<Template<ClusterSpec2>> { ClusterTemplateTo(ClusterTemplateFrom(y)) }

  function DownMachineTemplate(y: Template<MachineSpec2>): Template<MachineSpec2> { MachineTemplateTo(MachineTemplateFrom(y)) }

  function CommonClusterSpec(y: ClusterSpec2): ClusterSpec2 { Common(NO_CLUSTER2.(spec := y)).spec }

  /** A template's two metadata and its spec arrive where they belong, in both directions. */
  lemma TemplateFieldsKept(x: Template<ClusterSpec1>, y: Template<ClusterSpec2>, m: Template<MachineSpec1>, n: Template<MachineSpec2>)
    ensures ClusterTemplateTo(x).Ok? ==>
              var to := ClusterTemplateTo(x).value;
              && to.meta == x.meta && to.innerMeta == x.innerMeta
              && SameCluster(NO_CLUSTER1.(spec := x.spec), NO_CLUSTER2.(spec := to.spec))
    ensures var from := ClusterTemplateFrom(y);
            && from.meta == y.meta && from.innerMeta == y.innerMeta
            && SameCluster(NO_CLUSTER1.(spec := from.spec), NO_CLUSTER2.(spec := y.spec))
    ensures var to := MachineTemplateTo(m); to.meta == m.meta && to.innerMeta == m.innerMeta && SameSpec(m.spec, to.spec)
    ensures var from := MachineTemplateFrom(n); from.meta == n.meta && from.innerMeta == n.innerMeta && SameSpec(from.spec, n.spec)
  {
  }

  /** They project onto the common fields, and once is enough. */
  lemma TemplateProjections(x: Template<ClusterSpec2>, m: Template<MachineSpec2>)
    ensures DownTemplate(x).Ok? <==> AllConvertible(x.spec.lb.listeners)
    ensures DownTemplate(x).Ok? ==>
              DownTemplate(x).value == x.(spec := CommonClusterSpec(x.spec)) && DownTemplate(DownTemplate(x).value) == DownTemplate(x)
    ensures DownMachineTemplate(m) == m.(spec := CommonSpec(m.spec))
    ensures DownMachineTemplate(DownMachineTemplate(m)) == DownMachineTemplate(m)
  {
    ClusterProjection(NO_CLUSTER2.(spec := x.spec));
    ClusterProjection(NO_CLUSTER2.(spec := CommonClusterSpec(x.spec)));
  }

  lemma TemplateRoundTrips(x: Template<ClusterSpec1>, m: Template<MachineSpec1>)
    ensures ClusterTemplateTo(x).Ok? <==> AllConvertible(x.spec.lb.listeners)
    ensures ClusterTemplateTo(x).Ok? ==>
              (ClusterTemplateFrom(ClusterTemplateTo(x).value) == x <==> Tidy(x.spec.lb.listeners) && TidyNetwork(x.spec.network))
    ensures MachineTemplateFrom(MachineTemplateTo(m)) == m <==> Tidy(m.spec.volumes)
  {
    ClusterRoundTrip(NO_CLUSTER1.(spec := x.spec));
  }

  // ---- Lists ----

  /** Items converted one by one into fresh ones, stopping at the first failure. The result is never
      nil, even for a nil list. */
  function ListTo<S, T>(src: List<S>, convert: S -> Result<T>): Result<List<T>> {
    var items := Elements(src.items);
    if exists i :: 0 <= i < |items| && convert(items[i]).Failed? then Failed
    else Ok(List(src.meta, Items(seq(|items|, i requires 0 <= i < |items| && convert(items[i]).Ok? => convert(items[i]).value))))
  }

  method ConvertClusterList(src: List<Cluster1>) returns (r: Result<List<Cluster2>>)
    ensures r == ListTo(src, ToFresh())
  {
    var items := Elements(src.items);
    var dst := [];
    for i := 0 to |items|
      invariant |dst| == i && forall j :: 0 <= j < i ==> ToFresh()(items[j]) == Ok(dst[j])
    {
      var c := ConvertCluster(items[i]);
      if c.Failed? { return Failed; }
      dst := dst + [c.value];
    }
    assert forall i :: 0 <= i < |items| ==> ToFresh()(items[i]).Ok?;
    assert ListTo(src, ToFresh()).value.items.items == dst;
    return Ok(List(src.meta, Items(dst)));
  }

  method ConvertCluster(src: Cluster1) returns (r: Result<Cluster2>)
    ensures r == ToFresh()(src)
  {
    var listeners := Nil;
    if |Elements(src.spec.lb.listeners)| > 0 {
      var converted := ConvertListeners(Elements(src.spec.lb.listeners));
      assert AllConvertible(Items(Elements(src.spec.lb.listeners))) == AllConvertible(src.spec.lb.listeners);
      if converted.Failed? { return Failed; }
      listeners := Items(converted.value);
    }
    var lb := LbConfig2(src.spec.lb.subnetId, src.spec.lb.flavor, src.spec.lb.floatingNetwork, listeners, "", "");
    var network := None;
    if src.spec.network.Some? {
      var n := src.spec.network.value;
      network := Some(Network(n.privateId, n.cidr, n.vlan, n.gateway, if |Elements(n.dns)| > 0 then n.dns else Nil));
    }
    return Ok(Cluster2(src.meta,
                       ClusterSpec2(src.spec.service, src.spec.region, src.spec.secret, src.spec.endpoint, lb, network, src.spec.sshKey,
                                    Nil, Nil, None, None),
                       ClusterStatus2(src.status, None, None, 0)));
  }

  function ToFresh(): Cluster1 -> Result<Cluster2> { (x: Cluster1) => ClusterTo(x, NO_CLUSTER2) }

  predicate Returns<S(==), T>(x: S, there: S -> Result<T>, back: T -> Result<S>) {
    there(x).Ok? && back(there(x).value) == Ok(x)
  }

  /** For any kind of item: there and back is the identity on a whole list exactly when it is on every
      item and the list is not nil. */
  lemma ListRoundTrip<S(!new), T(!new)>(x: List<S>, there: S -> Result<T>, back: T -> Result<S>)
    requires ListTo(x, there).Ok? && forall y: T :: back(y).Ok?
    ensures ListTo(ListTo(x, there).value, back).Ok?
    ensures ListTo(ListTo(x, there).value, back).value == x
            <==> x.items.Items? && forall s :: s in x.items.items ==> Returns(s, there, back)
  {
    var items := Elements(x.items);
    var mid := ListTo(x, there).value;
    var out := ListTo(mid, back).value;
    assert |mid.items.items| == |items| && |out.items.items| == |items|;
    assert forall i :: 0 <= i < |items| ==> mid.items.items[i] == there(items[i]).value;
    assert forall i :: 0 <= i < |items| ==> back(mid.items.items[i]) == Ok(out.items.items[i]);
    if x.items.Items? {
      if forall s :: s in items ==> Returns(s, there, back) {
        forall i | 0 <= i < |items| ensures out.items.items[i] == items[i] { assert Returns(items[i], there, back); }
        assert out.items.items == items;
      }
      if out == x {
        forall s | s in items ensures Returns(s, there, back) {
          var i :| 0 <= i < |items| && items[i] == s;
          assert there(items[i]).Ok? && back(mid.items.items[i]) == Ok(out.items.items[i]);
        }
      }
    }
  }

  /** A list of clusters converts exactly when every listener of every cluster does, and comes back
      unchanged exactly when it is not nil and no slice in it is empty without being nil. */
  lemma ClusterListRoundTrip(x: List<Cluster1>)
    ensures ListTo(x, ToFresh()).Ok? <==> forall c :: c in Elements(x.items) ==> AllConvertible(c.spec.lb.listeners)
    ensures ListTo(x, ToFresh()).Ok? ==>
              (ListTo(ListTo(x, ToFresh()).value, FromFresh()) == Ok(x)
               <==> x.items.Items? && forall c :: c in x.items.items ==> Tidy(c.spec.lb.listeners) && TidyNetwork(c.spec.network))
  {
    var items := Elements(x.items);
    if ListTo(x, ToFresh()).Ok? {
      ListRoundTrip(x, ToFresh(), FromFresh());
      forall c | c in items ensures AllConvertible(c.spec.lb.listeners) {
        var i :| 0 <= i < |items| && items[i] == c;
        assert ToFresh()(items[i]).Ok?;
      }
      forall c | c in items
        ensures Returns(c, ToFresh(), FromFresh()) <==> Tidy(c.spec.lb.listeners) && TidyNetwork(c.spec.network)
      {
        ClusterRoundTrip(c);
      }
    } else {
      var i :| 0 <= i < |items| && ToFresh()(items[i]).Failed?;
      assert items[i] in items;
    }
  }

  function FromFresh(): Cluster2 -> Result<Cluster1> { (y: Cluster2) => Ok(ClusterFrom(y, NO_CLUSTER1)) }

  function MachineThere(): Machine1 -> Result<Machine2> { (x: Machine1) => Ok(MachineTo(x, NO_MACHINE2)) }
  function MachineBack(): Machine2 -> Result<Machine1> { (y: Machine2) => Ok(MachineFrom(y, NO_MACHINE1)) }
  function TemplateThere(): Template<ClusterSpec1> -> Result<Template<ClusterSpec2>> { (x: Template<ClusterSpec1>) => ClusterTemplateTo(x) }
  function TemplateBack(): Template<ClusterSpec2> -> Result<Template<ClusterSpec1>> { (y: Template<ClusterSpec2>) => Ok(ClusterTemplateFrom(y)) }
  function MachineTemplateThere(): Template<MachineSpec1> -> Result<Template<MachineSpec2>> { (x: Template<MachineSpec1>) => Ok(MachineTemplateTo(x)) }
  function MachineTemplateBack(): Template<MachineSpec2> -> Result<Template<MachineSpec1>> { (y: Template<MachineSpec2>) => Ok(MachineTemplateFrom(y)) }

  /** The same for lists of machines and of both kinds of template. */
  lemma MachineListRoundTrip(x: List<Machine1>)
    ensures var there := ListTo(x, MachineThere());
            there.Ok? && (ListTo(there.value, MachineBack()) == Ok(x)
                          <==> x.items.Items? && forall m :: m in x.items.items ==> Tidy(m.spec.volumes))
  {
    ListRoundTrip(x, MachineThere(), MachineBack());
    forall m: Machine1 ensures Returns(m, MachineThere(), MachineBack()) <==> Tidy(m.spec.volumes) {
      MachineRoundTrip(m, NO_MACHINE2);
    }
  }

  lemma TemplateListRoundTrip(x: List<Template<ClusterSpec1>>)
    ensures ListTo(x, TemplateThere()).Ok? <==> forall t :: t in Elements(x.items) ==> AllConvertible(t.spec.lb.listeners)
    ensures ListTo(x, TemplateThere()).Ok? ==>
              (ListTo(ListTo(x, TemplateThere()).value, TemplateBack()) == Ok(x)
               <==> x.items.Items? && forall t :: t in x.items.items ==> Tidy(t.spec.lb.listeners) && TidyNetwork(t.spec.network))
  {
    var items := Elements(x.items);
    forall t | t in items
      ensures TemplateThere()(t).Ok? <==> AllConvertible(t.spec.lb.listeners)
      ensures TemplateThere()(t).Ok? ==>
                (Returns(t, TemplateThere(), TemplateBack()) <==> Tidy(t.spec.lb.listeners) && TidyNetwork(t.spec.network))
    {
      TemplateRoundTrips(t, Template("", "", NO_SPEC1));
    }
    if ListTo(x, TemplateThere()).Ok? {
      ListRoundTrip(x, TemplateThere(), TemplateBack());
      forall t | t in items ensures TemplateThere()(t).Ok? {
        var i :| 0 <= i < |items| && items[i] == t;
      }
    } else {
      var i :| 0 <= i < |items| && TemplateThere()(items[i]).Failed?;
      assert items[i] in items;
    }
  }

  lemma MachineTemplateListRoundTrip(x: List<Template<MachineSpec1>>)
    ensures var there := ListTo(x, MachineTemplateThere());
            there.Ok? && (ListTo(there.value, MachineTemplateBack()) == Ok(x)
                          <==> x.items.Items? && forall t :: t in x.items.items ==> Tidy(t.spec.volumes))
  {
    ListRoundTrip(x, MachineTemplateThere(), MachineTemplateBack());
    forall t: Template<MachineSpec1> ensures Returns(t, MachineTemplateThere(), MachineTemplateBack()) <==> Tidy(t.spec.volumes) {
      TemplateRoundTrips(Template("", "", NO_CLUSTER1.spec), t);
    }
  }
}
