/** How an error-free pass of ReconcileNormal ends: with an error, asked to come back, or Ready. */
module PassEnds {
  import opened Collections
  import opened OvhCloud
  import opened ClusterSteps
  import opened Quiescence
  import Names
  import Uniqueness

  /** The network on record, or the user's that would be recorded, does not exist. */
  ghost predicate NetworkMissing(sp: Spec, c: Cloud, st: Status) {
    && sp.network.Some?
    && if st.networkId != UNSET then st.networkId !in c.networks
       else sp.network.value.privateId != UNSET && sp.network.value.privateId !in c.networks
  }

  /** There is no network to wait for. */
  ghost predicate NetworkReady(sp: Spec, c: Cloud, st: Status) {
    sp.network.Some? ==> st.networkId in c.networks && c.networks[st.networkId].wait == 0
  }

  /** What creating a load balancer needs: a subnet, and a network that is there in the region. */
  ghost predicate CreatableLb(sp: Spec, c: Cloud, st: Status) {
    && (sp.lbSubnetId != UNSET || st.subnetId != UNSET)
    && st.networkId != UNSET && st.networkId in c.networks && c.networks[st.networkId].osId != UNSET
  }

  lemma NetworkEnds(f: Oracle, sp: Spec, w: World)
    requires ErrorFree(f)
    ensures var (ph, w') := ReconcileNetwork(f, sp, w);
            && (ph.Error? <==> NetworkMissing(sp, w.c, w.st))
            && (ph.Done? <==> !NetworkMissing(sp, w.c, w.st) && NetworkReady(sp, w'.c, w'.st))
  {
  }

  lemma CreateEnds(f: Oracle, sp: Spec, w: World)
    requires ErrorFree(f) && WellFormed(w.c)
    ensures var ph := CreateLb(f, sp, w).0; (ph.Error? <==> !CreatableLb(sp, w.c, w.st)) && !ph.Done?
  {
    hide FindOrPostLb, WellFormed;
    var w2 := Called(Called(w));
    assert WellFormed(w2.c) by { CalledWellFormed(w); }
    FoundOrPosted(f, w2, Names.LbName(sp.name), w.st.networkId);
  }

  lemma CalledWellFormed(w: World)
    ensures WellFormed(w.c) ==> WellFormed(Called(Called(w)).c) && WellFormed(Called(w).c)
  {
  }

  /** Every listing answers, and shows a load balancer just posted. */
  lemma FoundOrPosted(f: Oracle, w: World, name: string, net: Id)
    requires ErrorFree(f) && WellFormed(w.c)
    ensures FindOrPostLb(f, w, name, net).0 != UNSET
  {
    hide VisibleLbByName;
    var (ok, w1) := ListLbs(f, w);
    FoundSet(w1.c, name);
    if VisibleLbByName(w1.c, name).None? {
      var (id, w2) := PostLb(f, w1, name, net);
      var (ok2, w3) := ListLbs(f, w2);
      var n := |w1.c.lbs|;
      assert w3.c.lbs[n].visible && w3.c.lbs[n].name == name;
      ShownFound(w3.c, name, n);
      FoundSet(w3.c, name);
    }
  }

  lemma FoundSet(c: Cloud, name: string)
    requires forall i :: 0 <= i < |c.lbs| ==> c.lbs[i].id != UNSET
    ensures VisibleLbByName(c, name).Some? ==> VisibleLbByName(c, name).value.id != UNSET
  {
  }

  lemma ShownFound(c: Cloud, name: string, i: nat)
    requires i < |c.lbs| && c.lbs[i].visible && c.lbs[i].name == name
    ensures VisibleLbByName(c, name).Some?
  {
  }

  lemma HandleEnds(f: Oracle, sp: Spec, w: World, lb: LoadBalancer)
    requires ErrorFree(f) && WellFormed(w.c)
    ensures var ph := HandleLb(f, sp, w, lb).0; !ph.Error? && (!Active(lb) ==> ph.Requeue?) && (Active(lb) && !sp.floating ==> ph.Done?)
  {
    hide ReconcilePort, ReconcileFip, WellFormed;
    if Active(lb) {
      PortGoesOn(f, w, ApiServer);
      var w1 := ReconcilePort(f, w, ApiServer).1;
      PortGoesOn(f, w1, Register);
      FipGoesOn(f, sp, ReconcilePort(f, w1, Register).1, lb);
    }
  }

  lemma PortGoesOn(f: Oracle, w: World, port: Port)
    requires ErrorFree(f)
    ensures ReconcilePort(f, w, port).0
  {
  }

  lemma FipGoesOn(f: Oracle, sp: Spec, w: World, lb: LoadBalancer)
    requires ErrorFree(f)
    ensures !ReconcileFip(f, sp, w, lb).0.FipError?
  {
    hide EnsureGatewayExposed, LbById, FipOfLb, FipById;
  }

  lemma LbEnds(f: Oracle, sp: Spec, w: World)
    requires ErrorFree(f) && WellFormed(w.c)
    ensures var ph, lb := ReconcileLb(f, sp, w).0, LbById(w.c, Adopt(sp, w.st).lbId);
            if Adopt(sp, w.st).lbId == UNSET || lb.None? then
              (ph.Error? <==> !CreatableLb(sp, w.c, w.st)) && !ph.Done?
            else
              !ph.Error? && (!Active(lb.value) ==> ph.Requeue?) && (Active(lb.value) && !sp.floating ==> ph.Done?)
  {
    hide HandleLb, CreateLb, LbById, WellFormed;
    var w0 := w.(st := Adopt(sp, w.st));
    CalledWellFormed(w);
    if w0.st.lbId == UNSET {
      CreateEnds(f, sp, w0);
    } else {
      var got, w1 := Answer(f, w0, LbById(w0.c, w0.st.lbId)), Called(w0);
      assert f(w0.n).outcome.Ok?;
      if got.Found? { HandleEnds(f, sp, w1, got.value); } else { CreateEnds(f, sp, w1.(st := ForgetLb(w1.st))); }
    }
  }

  /** An error-free pass fails exactly when its network is gone, or when there is no load balancer and nothing to
      create one in or with. It is asked to come back without a finalizer, while a network or load
      balancer is on its way, and after creating a load balancer; otherwise, without a floating network,
      it ends Ready. */
  lemma ErrorFreePassEnds(f: Oracle, sp: Spec, w: World)
    requires ErrorFree(f) && WellFormed(w.c)
    ensures var (ph, w') := ReconcileNormal(f, sp, w);
            var lb := LbById(w.c, Adopt(sp, w.st).lbId);
            var ready, found := NetworkReady(sp, w'.c, w'.st), Adopt(sp, w.st).lbId != UNSET && lb.Some?;
            if !w.st.finalizer then ph.Requeue?
            else if NetworkMissing(sp, w.c, w.st) then ph.Error?
            else if !ready then ph.Requeue?
            else if !found then ph == if CreatableLb(sp, w'.c, w'.st) then Requeue else Error
            else if !Active(lb.value) then ph.Requeue?
            else !ph.Error? && (!sp.floating ==> ph.Done?)
  {
    hide ReconcileNetwork, ReconcileGroups, ReconcileLb, ReconcileDns, WellFormed, LbById;
    if w.st.finalizer {
      assert Up(f, w);
      var w0 := Called(w);
      CalledWellFormed(w);
      NetworkEnds(f, sp, w0);
      NetworkWellFormed(f, sp, w0);
      var (net, w1) := ReconcileNetwork(f, sp, w0);
      if net.Done? {
        GroupsWellFormed(f, sp, w1);
        var w2 := ReconcileGroups(f, sp, w1);
        SameLbs(w.c, w2.c);
        LbEnds(f, sp, w2);
        LbKeepsNetworks(f, sp, w2);
      }
    }
  }

  lemma SameLbs(c: Cloud, c': Cloud)
    requires c'.lbs == c.lbs
    ensures forall id :: LbById(c', id) == LbById(c, id)
  {
  }

  lemma LbKeepsNetworks(f: Oracle, sp: Spec, w: World)
    ensures var w' := ReconcileLb(f, sp, w).1;
            w'.c.networks == w.c.networks && w'.st.networkId == w.st.networkId && w'.st.subnetId == w.st.subnetId
  {
    hide HandleLb, CreateLb, LbById;
  }
  // ---- What makes a pass fail, whatever else is answered ----

  /** The network step fails: its creation is refused, its reading fails or finds nothing, or its subnets cannot be
      listed or the first one not created. Calls are made in this order from number `w.n` on. */
  ghost predicate NetworkFails(f: Oracle, cfg: NetworkConfig, w: World) {
    var posts := w.st.networkId == UNSET && cfg.privateId == UNSET;
    var id := if w.st.networkId != UNSET then w.st.networkId else cfg.privateId;
    var k := if posts then w.n + 1 else w.n;
    || (posts && !Answered(f, w.n))
    || !Answered(f, k) || (!posts && id !in w.c.networks)
    || (w.st.subnetId == UNSET && (if posts then f(w.n).delay == 0 else w.c.networks[id].wait == 0)
        && (!Answered(f, k + 1)
            || ((posts || w.c.networks[id].subnets == []) && cfg.hasCidr && !Answered(f, k + 2))))
  }

  lemma NetworkFailsIff(f: Oracle, sp: Spec, w: World)
    ensures ReconcileNetwork(f, sp, w).0.Error? <==> sp.network.Some? && NetworkFails(f, sp.network.value, w)
  {
    if sp.network.Some? {
      var (ok, w1) := EnsureNetwork(f, sp.network.value, w);
      assert w1.n == w.n || w1.n == w.n + 1;
    }
  }

  /** The port step fails on a failed lookup or creation of listener or pool; monitors are best effort. */
  ghost predicate PortFails(f: Oracle, w: World, port: Port) {
    var found := ListenerByName(w.c, w.st.lbId, PortName(port)).Some?;
    var there := PoolByName(w.c, w.st.lbId, PoolName(port)).Some?;
    var k := w.n + if ListenerOf(w.st, port) != UNSET then 0 else if found then 1 else 2;
    || (ListenerOf(w.st, port) == UNSET && (!Answered(f, w.n) || (!found && !Answered(f, w.n + 1))))
    || (PoolOf(w.st, port) == UNSET && (!Answered(f, k) || (!there && !Answered(f, k + 1))))
  }

  lemma PortFailsIff(f: Oracle, w: World, port: Port)
    ensures !ReconcilePort(f, w, port).0 <==> PortFails(f, w, port)
  {
    hide EnsurePool, EnsureMonitor, ListenerByName, PoolByName;
    var (ok1, w1) := EnsureListener(f, w, port);
    SameListener(w.c, Called(w).c);
    SamePool(w.c, w1.c);
    PoolFailsIff(f, w1, port);
  }

  lemma SameListener(c: Cloud, c': Cloud)
    requires c'.listeners == c.listeners
    ensures forall lb, name :: ListenerByName(c', lb, name) == ListenerByName(c, lb, name)
  {
  }

  lemma SamePool(c: Cloud, c': Cloud)
    requires c'.pools == c.pools
    ensures forall lb, name :: PoolByName(c', lb, name) == PoolByName(c, lb, name)
  {
  }

  lemma PoolFailsIff(f: Oracle, w: World, port: Port)
    ensures !EnsurePool(f, w, port).0
            <==> PoolOf(w.st, port) == UNSET
                 && (!Answered(f, w.n) || (PoolByName(w.c, w.st.lbId, PoolName(port)).None? && !Answered(f, w.n + 1)))
  {
    hide PoolByName;
    SamePool(w.c, Called(w).c);
  }

  /** A floating IP is refused: its POST is the last call logged. */
  ghost predicate FipRefused(w: World, w': World) {
    |w'.log| > |w.log| && w'.log[|w'.log| - 1] == Posted(FipKind, UNSET)
  }

  lemma AllocateFailsIff(f: Oracle, sp: Spec, w: World, lb: LoadBalancer)
    ensures var (fip, w') := AllocateFip(f, sp, w, lb);
            && (fip.FipError? <==> !Answered(f, w.n)) && (fip.FipError? <==> FipRefused(w, w'))
            && |w'.log| > |w.log| && w'.log[|w.log|].Posted? && w'.log[|w.log|].kind.FipKind?
  {
    hide EnsureGatewayExposed, LbById, FipOfLb;
    var (id, w1) := PostLbFip(f, w, lb, GatewayName(sp));
    assert w1.log == w.log + [Posted(FipKind, id)] && (id == UNSET <==> !Answered(f, w.n));
    if id != UNSET {
      var w2 := EnsureGatewayExposed(f, sp, w1);
      assert AllocateFip(f, sp, w, lb).1.log == w2.log && w1.log <= w2.log;
      if |w2.log| > |w1.log| { assert KindOf(w2.log[|w2.log| - 1]) == GatewayKind; }
    }
  }

  ghost predicate PostsFip(w: World, w': World) {
    exists i :: |w.log| <= i < |w'.log| && w'.log[i].Posted? && w'.log[i].kind.FipKind?
  }

  /** Exposing the gateway asks for no floating IP. */
  lemma AroundPosts(w: World, w1: World, w2: World)
    requires Appends(w.log, w1.log, {GatewayKind}) && w1.log <= w2.log
    ensures PostsFip(w, w2) <==> PostsFip(w1, w2)
    ensures !PostsFip(w, w1)
  {
    forall i | |w.log| <= i < |w1.log| ensures KindOf(w1.log[i]) == GatewayKind && w2.log[i] == w1.log[i] { }
  }

  lemma SameLogPosts(w: World, w': World)
    ensures w'.log == w.log ==> !PostsFip(w, w')
    ensures w'.log == w.log ==> forall w2 :: PostsFip(w', w2) <==> PostsFip(w, w2)
  {
  }

  lemma DiscoverFailsIff(f: Oracle, sp: Spec, w: World, lb: LoadBalancer)
    ensures var (fip, w') := DiscoverFip(f, sp, w, lb);
            && (PostsFip(w, w') <==> !(Answered(f, w.n) && FipOfLb(w.c, lb.id).Some?) && lb.vip != "")
            && (fip.FipError? <==> PostsFip(w, w') && !Answered(f, w.n + 1))
  {
    hide EnsureGatewayExposed, AllocateFip, FipOfLb, PostsFip;
    var (fip, w') := DiscoverFip(f, sp, w, lb);
    SameLogPosts(w, w');
    SameLogPosts(w, Called(w));
    if Answered(f, w.n) && FipOfLb(w.c, lb.id).Some? {
      AroundPosts(w, w', w');
    } else if lb.vip != "" {
      AllocateFailsIff(f, sp, Called(w), lb);
      AllocatePosts(f, sp, Called(w), lb);
    }
  }

  lemma AllocatePosts(f: Oracle, sp: Spec, w: World, lb: LoadBalancer)
    ensures PostsFip(w, AllocateFip(f, sp, w, lb).1)
  {
    hide AllocateFip;
    AllocateFailsIff(f, sp, w, lb);
  }

  /** No floating IP is at hand: the load balancer shows none with an address, none is on record or the one on
      record is gone by call `get`, and the listing, call `list`, fails or shows none attached. */
  ghost predicate NoFipAtHand(f: Oracle, w: World, lb: LoadBalancer, get: nat, list: nat) {
    && (lb.fip.None? || lb.fip.value.ip == "")
    && (w.st.fipId == UNSET || f(get).outcome.Missing? || (Answered(f, get) && FipById(w.c, w.st.fipId).None?))
    && !(Answered(f, list) && FipOfLb(w.c, lb.id).Some?)
  }

  /** The step asks for a floating IP exactly when none is at hand and the load balancer has a VIP to attach it to,
      and fails exactly when that is refused. A floating IP on record is read after the gateway was seen to. */
  lemma FipStepFailsIff(f: Oracle, sp: Spec, w: World, lb: LoadBalancer)
    ensures var (fip, w') := ReconcileFip(f, sp, w, lb);
            var get := EnsureGatewayExposed(f, sp, w).n;
            var list := if w.st.fipId == UNSET then w.n else get + 1;
            && (PostsFip(w, w') <==> NoFipAtHand(f, w, lb, get, list) && lb.vip != "")
            && (fip.FipError? <==> PostsFip(w, w') && !Answered(f, list + 1))
  {
    hide EnsureGatewayExposed, DiscoverFip, FipOfLb, FipById, PostsFip;
    var (fip, w') := ReconcileFip(f, sp, w, lb);
    if lb.fip.Some? && lb.fip.value.ip != "" {
      var w1 := Saw(RecordFip(w, lb.fip.value.id), OnLb(lb.id, lb.fip.value.id, lb.fip.value.ip));
      SameLogPosts(w, w1);
      AroundPosts(w1, EnsureGatewayExposed(f, sp, w1), w');
      SameLogPosts(EnsureGatewayExposed(f, sp, w1), w');
    } else if w.st.fipId != UNSET {
      var w1 := EnsureGatewayExposed(f, sp, w);
      var w2 := RecordFip(Called(w1), UNSET);
      assert FipById(w1.c, w1.st.fipId) == FipById(w.c, w.st.fipId) by { SameFip(w.c, w1.c); }
      assert FipOfLb(w2.c, lb.id) == FipOfLb(w.c, lb.id) by { SameFip(w.c, w2.c); }
      AroundPosts(w, w1, w');
      SameLogPosts(w1, w2);
      SameLogPosts(w1, w');
      DiscoverFailsIff(f, sp, w2, lb);
    } else {
      DiscoverFailsIff(f, sp, w, lb);
    }
  }

  lemma SameFip(c: Cloud, c': Cloud)
    requires c'.fips == c.fips
    ensures forall id :: FipById(c', id) == FipById(c, id) && FipOfLb(c', id) == FipOfLb(c, id)
  {
  }

  // ---- The load balancer step and the pass ----

  /** Creation fails without subnet, network or answers, or when it neither finds nor gets a load balancer. */
  ghost predicate CreateFails(f: Oracle, sp: Spec, w: World) {
    !Uniqueness.LooksUp(f, sp, w) || FindOrPostLb(f, Called(Called(w)), Names.LbName(sp.name), w.st.networkId).0 == UNSET
  }

  /** An active load balancer is not served: one of its ports fails, or a floating IP is refused. */
  ghost predicate ServingFails(f: Oracle, sp: Spec, w: World, lb: LoadBalancer) {
    var w1 := ReconcilePort(f, w, ApiServer).1;
    var w2 := ReconcilePort(f, w1, Register).1;
    || PortFails(f, w, ApiServer) || PortFails(f, w1, Register)
    || (sp.floating && PostsFip(w2, ServeEndpoint(f, sp, w2, lb).1)
        && !Answered(f, 1 + if w2.st.fipId == UNSET then w2.n else EnsureGatewayExposed(f, sp, w2).n + 1))
  }

  /** The load balancer on record cannot be read, or is active and not served, or there is none and
      creation fails. */
  ghost predicate LbFails(f: Oracle, sp: Spec, w: World) {
    var w0 := w.(st := Adopt(sp, w.st));
    if w0.st.lbId == UNSET then CreateFails(f, sp, w0)
    else
      match Answer(f, w0, LbById(w0.c, w0.st.lbId))
      case Found(lb) => Active(lb) && ServingFails(f, sp, Called(w0), lb)
      case Absent => CreateFails(f, sp, Called(w0).(st := ForgetLb(w0.st)))
      case Broken => true
  }

  lemma CreateFailsIff(f: Oracle, sp: Spec, w: World)
    ensures CreateLb(f, sp, w).0.Error? <==> CreateFails(f, sp, w)
  {
    hide FindOrPostLb, Names.LbName;
  }

  lemma ServingFailsIff(f: Oracle, sp: Spec, w: World, lb: LoadBalancer)
    ensures HandleLb(f, sp, w, lb).0.Error? <==> Active(lb) && ServingFails(f, sp, w, lb)
  {
    hide ReconcilePort, ReconcileFip, EnsureGatewayExposed, PortFails, PostsFip;
    PortFailsIff(f, w, ApiServer);
    var w1 := ReconcilePort(f, w, ApiServer).1;
    PortFailsIff(f, w1, Register);
    var w2 := ReconcilePort(f, w1, Register).1;
    FipStepFailsIff(f, sp, w2, lb);
    SameLogPosts2(w2, ReconcileFip(f, sp, w2, lb).1, ServeEndpoint(f, sp, w2, lb).1);
  }

  lemma SameLogPosts2(w: World, w1: World, w2: World)
    ensures w2.log == w1.log ==> (PostsFip(w, w2) <==> PostsFip(w, w1))
  {
  }

  lemma LbFailsIff(f: Oracle, sp: Spec, w: World)
    ensures ReconcileLb(f, sp, w).0.Error? <==> LbFails(f, sp, w)
  {
    hide HandleLb, CreateLb, LbById, CreateFails, ServingFails;
    var w0 := w.(st := Adopt(sp, w.st));
    CreateFailsIff(f, sp, w0);
    CreateFailsIff(f, sp, Called(w0).(st := ForgetLb(w0.st)));
    var got := Answer(f, w0, LbById(w0.c, w0.st.lbId));
    if got.Found? { ServingFailsIff(f, sp, Called(w0), got.value); }
  }

  /** Whatever is answered, a pass fails exactly when the credentials cannot be read, the network step fails or
      the load balancer step does: security groups, health monitors, gateways and DNS never fail it. */
  lemma PassFailsIff(f: Oracle, sp: Spec, w: World)
    ensures ReconcileNormal(f, sp, w).0.Error?
            <==> w.st.finalizer
                 && (!Up(f, w) || (sp.network.Some? && NetworkFails(f, sp.network.value, Called(w)))
                     || (ReconcileNetwork(f, sp, Called(w)).0.Done?
                         && LbFails(f, sp, ReconcileGroups(f, sp, ReconcileNetwork(f, sp, Called(w)).1))))
  {
    hide ReconcileNetwork, ReconcileGroups, ReconcileLb, ReconcileDns, NetworkFails, LbFails;
    NetworkFailsIff(f, sp, Called(w));
    LbFailsIff(f, sp, ReconcileGroups(f, sp, ReconcileNetwork(f, sp, Called(w)).1));
  }
}
