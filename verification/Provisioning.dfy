/** Provisioning converges: in an error-free cloud in which networks, load balancers and
    floating IPs become ready after finitely many ticks, repeated passes reach Ready. */
module Provisioning {
  import opened Collections
  import opened OvhCloud
  import opened ClusterSteps
  import opened Quiescence
  import Names

  /** Every call succeeds and the cloud assigns real addresses; delays are arbitrary. */
  ghost predicate Generous(f: Oracle) { forall n :: f(n).outcome.Ok? && f(n).addr != "" }

  // ---- Time ----

  function Less1(wait: nat): nat { if wait > 0 then wait - 1 else 0 }

  /** A tick: every countdown advances, and a load balancer may come to show its floating IP. */
  ghost predicate Tick(c: Cloud, c': Cloud) {
    && c' == c.(networks := c'.networks, lbs := c'.lbs, fips := c'.fips)
    && (forall k :: k in c.networks <==> k in c'.networks)
    && (forall k :: k in c.networks ==> c'.networks[k] == c.networks[k].(wait := Less1(c.networks[k].wait)))
    && |c'.lbs| == |c.lbs| && (forall i :: 0 <= i < |c.lbs| ==> LbTick(c.lbs[i], c'.lbs[i]))
    && |c'.fips| == |c.fips|
    && (forall i :: 0 <= i < |c.fips| ==> c'.fips[i] == c.fips[i].(wait := Less1(c.fips[i].wait)))
  }

  ghost predicate LbTick(x: LoadBalancer, y: LoadBalancer) {
    && y == x.(wait := Less1(x.wait), visible := y.visible, fip := y.fip) && (x.visible ==> y.visible)
    && (y.fip == x.fip || (x.fip.None? && y.fip.Some? && y.fip.value.id != UNSET && y.fip.value.ip != ""))
  }

  /** One saved error-free pass, then one tick. */
  ghost predicate PassAndTick(sp: Spec, w: World, w': World) {
    exists f :: Generous(f) && Tick(ReconcileNormal(f, sp, w).1.c, w'.c) && w'.st == ReconcileNormal(f, sp, w).1.st
  }

  // ---- Where provisioning can succeed ----

  /** A load balancer the cluster uses or would adopt: it stays, has a VIP, and a floating IP it
      refers to has an address. */
  ghost predicate Usable(x: LoadBalancer) {
    !x.deleting && x.vip != "" && (x.fip.Some? ==> x.fip.value.ip != "")
  }

  ghost predicate Ours(sp: Spec, st: Status, x: LoadBalancer) {
    x.name == Names.LbName(sp.name) || x.id == Adopt(sp, st).lbId || x.id == sp.existingLb
  }

  ghost predicate NetworkRecorded(c: Cloud, st: Status) { st.networkId != UNSET && st.networkId in c.networks }

  /** There is a load balancer to use, recorded or named by the user. */
  ghost predicate LbThere(sp: Spec, c: Cloud, st: Status) {
    LbById(c, Adopt(sp, st).lbId).Some? || LbById(c, sp.existingLb).Some?
  }

  /** A load balancer can be created as things stand: in a network that is there, on a subnet. */
  ghost predicate CanCreate(sp: Spec, c: Cloud, st: Status) {
    NetworkRecorded(c, st) && (sp.lbSubnetId != UNSET || st.subnetId != UNSET)
  }

  /** The network step can get hold of a network: the recorded one, the user's, or a new one. */
  ghost predicate NetworkAvailable(cfg: NetworkConfig, c: Cloud, st: Status) {
    cfg.privateId == UNSET || cfg.privateId in c.networks || NetworkRecorded(c, st)
  }

  /** ...and a subnet: one is named, can be created, is recorded, or is found in that network. What is
      recorded for a network that is gone does not count. */
  ghost predicate SubnetAvailable(sp: Spec, cfg: NetworkConfig, c: Cloud, st: Status) {
    || sp.lbSubnetId != UNSET || cfg.hasCidr
    || (st.subnetId != UNSET && (st.networkId == UNSET || NetworkRecorded(c, st)))
    || (if NetworkRecorded(c, st) then c.networks[st.networkId].subnets != []
        else cfg.privateId != UNSET && cfg.privateId in c.networks && c.networks[cfg.privateId].subnets != [])
  }

  /** Provisioning has what it needs: a network if one is configured, and a load balancer or the means
      to create one. */
  ghost predicate Provisionable(sp: Spec, c: Cloud, st: Status) {
    match sp.network
    case None => LbThere(sp, c, st) || CanCreate(sp, c, st)
    case Some(cfg) => NetworkAvailable(cfg, c, st) && (LbThere(sp, c, st) || SubnetAvailable(sp, cfg, c, st))
  }

  /** The cloud is sound: identifiers are in order, networks are there, load balancers to use are usable and
      floating IPs have addresses. */
  ghost predicate Sound(sp: Spec, c: Cloud, st: Status) {
    && WellFormed(c)
    && (forall k :: k in c.networks ==> k != UNSET && c.networks[k].osId != UNSET)
    && (forall x :: x in c.lbs && Ours(sp, st, x) ==> Usable(x))
    && (forall x :: x in c.fips ==> x.ip != "")
  }

  ghost predicate Inv(sp: Spec, c: Cloud, st: Status) { Sound(sp, c, st) && Provisionable(sp, c, st) }

  // ---- The rank ----

  /** The floating IP the next pass would read: the recorded one, or one associated with the load balancer. */
  function Candidate(c: Cloud, st: Status, lb: Id): Option<FloatingIP> {
    if st.fipId != UNSET && FipById(c, st.fipId).Some? then FipById(c, st.fipId) else FipOfLb(c, lb)
  }

  function LbRank(sp: Spec, c: Cloud, st: Status): (nat, nat) {
    match LbById(c, Adopt(sp, st).lbId)
    case None => (5, 0)
    case Some(lb) =>
      if lb.wait > 0 then (4, lb.wait)
      else if !sp.floating || lb.fip.Some? then (0, 0)
      else
        match Candidate(c, Adopt(sp, st), lb.id)
        case None => (3, 0)
        case Some(x) => (2, x.wait)
  }

  /** How far a cluster is from Ready: what is missing next, and the ticks until that is ready. */
  function Rank(sp: Spec, c: Cloud, st: Status): (nat, nat) {
    if !st.finalizer then (9, 0)
    else if sp.network.Some? && st.networkId == UNSET then (7, 0)
    else if sp.network.Some? && st.networkId !in c.networks then (8, 0)
    else if sp.network.Some? && c.networks[st.networkId].wait > 0 then (6, c.networks[st.networkId].wait)
    else LbRank(sp, c, st)
  }

  predicate Lower(a: (nat, nat), b: (nat, nat)) { a.0 < b.0 || (a.0 == b.0 && a.1 < b.1) }

  /** The rank went down, or stayed and only time is missing. */
  predicate Advanced(before: (nat, nat), after: (nat, nat)) {
    Lower(after, before) || (after == before && after.1 > 0)
  }

  // ---- A tick never raises the rank, and lowers it while something is awaited ----

  lemma TickCandidate(c: Cloud, c': Cloud, st: Status, lb: Id)
    requires Tick(c, c')
    ensures var x, y := Candidate(c, st, lb), Candidate(c', st, lb);
            (x.Some? <==> y.Some?) && (x.Some? ==> y.value == x.value.(wait := Less1(x.value.wait)))
  {
    hide FipById, FipOfLb, Tick;
    TickFipById(c, c', st.fipId);
    TickFipOfLb(c, c', lb);
  }

  lemma TickFipById(c: Cloud, c': Cloud, id: Id)
    requires Tick(c, c')
    ensures var x, y := FipById(c, id), FipById(c', id);
            (x.Some? <==> y.Some?) && (x.Some? ==> y.value == x.value.(wait := Less1(x.value.wait)))
  {
    FirstAligned(c.fips, c'.fips, (x: FloatingIP) => x.id == id);
  }

  lemma TickFipOfLb(c: Cloud, c': Cloud, lb: Id)
    requires Tick(c, c')
    ensures var x, y := FipOfLb(c, lb), FipOfLb(c', lb);
            (x.Some? <==> y.Some?) && (x.Some? ==> y.value == x.value.(wait := Less1(x.value.wait)))
  {
    FirstAligned(c.fips, c'.fips, (x: FloatingIP) => x.entity == Some(lb));
  }

  lemma TickLb(c: Cloud, c': Cloud, id: Id)
    requires Tick(c, c')
    ensures var x, y := LbById(c, id), LbById(c', id);
            (x.Some? <==> y.Some?) && (x.Some? ==> LbTick(x.value, y.value))
  {
    FirstAligned(c.lbs, c'.lbs, (x: LoadBalancer) => x.id == id);
  }

  lemma TickRank(sp: Spec, c: Cloud, c': Cloud, st: Status)
    requires Tick(c, c')
    ensures var a, b := Rank(sp, c, st), Rank(sp, c', st);
            b == a || Lower(b, a)
    ensures Rank(sp, c, st).1 > 0 ==> Lower(Rank(sp, c', st), Rank(sp, c, st))
  {
    hide LbById, Candidate;
    var id := Adopt(sp, st).lbId;
    TickLb(c, c', id);
    if LbById(c, id).Some? { TickCandidate(c, c', Adopt(sp, st), LbById(c, id).value.id); }
  }

  lemma TickInv(sp: Spec, c: Cloud, c': Cloud, st: Status)
    requires Tick(c, c') && Inv(sp, c, st)
    ensures Inv(sp, c', st)
  {
    hide Sound, Provisionable;
    TickProvisionable(sp, c, c', st);
    TickSound(sp, c, c', st);
  }

  lemma TickProvisionable(sp: Spec, c: Cloud, c': Cloud, st: Status)
    requires Tick(c, c')
    ensures Provisionable(sp, c', st) <==> Provisionable(sp, c, st)
  {
    TickLb(c, c', Adopt(sp, st).lbId);
    TickLb(c, c', sp.existingLb);
    hide LbById;
  }

  lemma TickSound(sp: Spec, c: Cloud, c': Cloud, st: Status)
    requires Tick(c, c') && Sound(sp, c, st)
    ensures Sound(sp, c', st)
  {
    TickWellFormed(c, c');
    hide WellFormed, LbById;
    forall x | x in c'.lbs && Ours(sp, st, x) ensures Usable(x) {
      var i :| 0 <= i < |c'.lbs| && c'.lbs[i] == x;
      assert LbTick(c.lbs[i], x) && Ours(sp, st, c.lbs[i]) && c.lbs[i] in c.lbs;
    }
    forall x | x in c'.fips ensures x.ip != "" {
      var i :| 0 <= i < |c'.fips| && c'.fips[i] == x;
      assert c.fips[i] in c.fips;
    }
  }

  lemma TickWellFormed(c: Cloud, c': Cloud)
    requires Tick(c, c') && WellFormed(c)
    ensures WellFormed(c')
  {
  }

  // ---- The network step ----

  /** The network step never fails here: it records a network, waits for it or finishes with a subnet. */
  ghost predicate NetworkMoved(sp: Spec, w: World, r: (Phase, World)) {
    var (ph, w') := r;
    && !ph.Error? && NetworkRecorded(w'.c, w'.st)
    && (ph.Requeue? <==> w'.c.networks[w'.st.networkId].wait > 0)
    && (ph.Requeue? && w.st.networkId != UNSET ==> w'.c == w.c && w'.st == w.st)
    && (ph.Done? ==> LbThere(sp, w'.c, w'.st) || CanCreate(sp, w'.c, w'.st))
    && (w.st.networkId != UNSET ==> w'.st.networkId == w.st.networkId)
    && OnlyNetwork(w, w')
  }

  lemma EnsureNetworkMoves(f: Oracle, sp: Spec, cfg: NetworkConfig, w: World)
    requires Generous(f) && sp.network == Some(cfg) && Inv(sp, w.c, w.st)
    requires w.st.networkId == UNSET || w.st.networkId in w.c.networks
    ensures var (ok, w1) := EnsureNetwork(f, cfg, w);
            && ok && NetworkRecorded(w1.c, w1.st) && Inv(sp, w1.c, w1.st)
            && (w.st.networkId != UNSET ==> w1 == w)
            && (LbThere(sp, w1.c, w1.st) || sp.lbSubnetId != UNSET || cfg.hasCidr || w1.st.subnetId != UNSET
                || w1.c.networks[w1.st.networkId].subnets != [])
  {
    hide Usable, WellFormed, LbById;
    var (ok, w1) := EnsureNetwork(f, cfg, w);
    NewNetworkWellFormed(f, cfg, w);
    SameLb(w.c, w1.c, Adopt(sp, w.st).lbId);
    SameLb(w.c, w1.c, sp.existingLb);
    assert forall x :: Ours(sp, w1.st, x) <==> Ours(sp, w.st, x);
  }

  lemma NewNetworkWellFormed(f: Oracle, cfg: NetworkConfig, w: World)
    requires WellFormed(w.c)
    ensures WellFormed(EnsureNetwork(f, cfg, w).1.c)
  {
  }

  lemma SubnetStep(f: Oracle, cfg: NetworkConfig, w: World)
    requires ErrorFree(f) && NetworkRecorded(w.c, w.st)
    ensures var (ph, w') := EnsureSubnet(f, cfg, w, w.c.networks[w.st.networkId]);
            && ph.Done? && OnlyNetwork(w, w') && w'.st.networkId in w'.c.networks
            && w'.c.networks[w'.st.networkId].wait == w.c.networks[w.st.networkId].wait
            && (forall k :: k in w.c.networks ==> k in w'.c.networks && (w.c.networks[k].subnets != [] ==> w'.c.networks[k].subnets != []))
            && (forall k :: k in w'.c.networks ==> k in w.c.networks && w'.c.networks[k].osId == w.c.networks[k].osId)
            && (w'.st.subnetId != UNSET || (w.c.networks[w.st.networkId].subnets == [] && !cfg.hasCidr && w.st.subnetId == UNSET)
                || (w.c.networks[w.st.networkId].subnets != [] && w.c.networks[w.st.networkId].subnets[0] == UNSET))
  {
  }

  lemma SubnetMoves(f: Oracle, sp: Spec, cfg: NetworkConfig, w: World)
    requires Generous(f) && sp.network == Some(cfg) && Inv(sp, w.c, w.st) && NetworkRecorded(w.c, w.st)
    requires LbThere(sp, w.c, w.st) || sp.lbSubnetId != UNSET || cfg.hasCidr || w.st.subnetId != UNSET
             || w.c.networks[w.st.networkId].subnets != []
    ensures var (ph, w') := EnsureSubnet(f, cfg, w, w.c.networks[w.st.networkId]);
            && ph.Done? && NetworkRecorded(w'.c, w'.st) && (LbThere(sp, w'.c, w'.st) || CanCreate(sp, w'.c, w'.st))
            && w'.c.networks[w'.st.networkId].wait == w.c.networks[w.st.networkId].wait
            && Inv(sp, w'.c, w'.st)
  {
    hide Usable, LbById, EnsureSubnet;
    var net := w.c.networks[w.st.networkId];
    SubnetStep(f, cfg, w);
    assert net.subnets != [] ==> net.subnets[0] != UNSET;
    hide WellFormed;
    SubnetWellFormed(f, cfg, w, net);
    var (ph, w') := EnsureSubnet(f, cfg, w, net);
    SameLb(w.c, w'.c, Adopt(sp, w.st).lbId);
    SameLb(w.c, w'.c, sp.existingLb);
  }

  lemma NetworkMoves(f: Oracle, sp: Spec, cfg: NetworkConfig, w: World)
    requires Generous(f) && sp.network == Some(cfg) && Inv(sp, w.c, w.st)
    requires w.st.networkId == UNSET || w.st.networkId in w.c.networks
    ensures NetworkMoved(sp, w, ReconcileNetwork(f, sp, w))
    ensures var w' := ReconcileNetwork(f, sp, w).1; Inv(sp, w'.c, w'.st)
  {
    hide EnsureNetwork, EnsureSubnet, Inv;
    EnsureNetworkMoves(f, sp, cfg, w);
    var w1 := EnsureNetwork(f, cfg, w).1;
    var w2 := Called(w1);
    if w1.c.networks[w1.st.networkId].wait == 0 { SubnetMoves(f, sp, cfg, w2); }
  }

  // ---- Creating the load balancer ----

  /** With an error-free cloud a load balancer of the cluster's name is found, or created and found. */
  lemma FindOrPostFinds(f: Oracle, sp: Spec, w: World, st: Status, net: Id)
    requires Generous(f) && Inv(sp, w.c, st)
    ensures var (id, w') := FindOrPostLb(f, w, Names.LbName(sp.name), net);
            && id != UNSET && LbById(w'.c, id).Some?
            && WellFormed(w'.c)
            && (forall x :: x in w'.c.lbs && x.id == id ==> x.name == Names.LbName(sp.name))
            && (forall x :: x in w'.c.lbs && Ours(sp, st, x) ==> Usable(x))
            && (forall id :: LbById(w.c, id).Some? ==> LbById(w'.c, id).Some?)
  {
    hide ListLbs, PostLb, VisibleLbByName, LbById, WellFormed, Usable, Provisionable;
    var name := Names.LbName(sp.name);
    var w1 := ListLbs(f, w).1;
    assert ListLbs(f, w).0 by { ListsOk(f, w); }
    ListKeeps(f, sp, w, st);
    VisibleNamed(w1.c, name);
    if VisibleLbByName(w1.c, name).None? {
      var w2 := PostLb(f, w1, name, net).1;
      PostLbKeeps(f, sp, w1, st, net);
      ListKeeps(f, sp, w2, st);
      PostedIsListed(f, w1, name, net);
      var w3 := ListLbs(f, w2).1;
      VisibleNamed(w3.c, name);
      assert PollLb(f, w2, name, 0) == (VisibleLbByName(w3.c, name).value.id, w3);
      NamedById(w3.c, VisibleLbByName(w3.c, name).value);
    } else {
      NamedById(w1.c, VisibleLbByName(w1.c, name).value);
    }
  }

  lemma ListsOk(f: Oracle, w: World)
    requires Generous(f)
    ensures ListLbs(f, w).0
  {
  }

  lemma VisibleNamed(c: Cloud, name: string)
    ensures forall x :: VisibleLbByName(c, name) == Some(x) ==> x in c.lbs && x.name == name
  {
  }

  /** What was just posted shows in the next listing. */
  lemma PostedIsListed(f: Oracle, w: World, name: string, net: Id)
    requires Generous(f)
    ensures var (id, w1) := PostLb(f, w, name, net);
            id != UNSET && ListLbs(f, w1).0 && VisibleLbByName(ListLbs(f, w1).1.c, name).Some?
  {
    var c := ListLbs(f, PostLb(f, w, name, net).1).1.c;
    assert c.lbs[|w.c.lbs|].visible && c.lbs[|w.c.lbs|].name == name;
  }

  lemma NamedById(c: Cloud, x: LoadBalancer)
    requires WellFormed(c) && x in c.lbs
    ensures x.id != UNSET && LbById(c, x.id) == Some(x) && forall y :: y in c.lbs && y.id == x.id ==> y == x
  {
  }

  lemma ListKeeps(f: Oracle, sp: Spec, w: World, st: Status)
    requires WellFormed(w.c) && forall x :: x in w.c.lbs && Ours(sp, st, x) ==> Usable(x)
    ensures var w' := ListLbs(f, w).1;
            && WellFormed(w'.c) && (forall x :: x in w'.c.lbs && Ours(sp, st, x) ==> Usable(x))
            && (forall id :: LbById(w.c, id).Some? ==> LbById(w'.c, id).Some?)
  {
    var w' := ListLbs(f, w).1;
    forall x | x in w'.c.lbs && Ours(sp, st, x) ensures Usable(x) {
      var i :| 0 <= i < |w'.c.lbs| && w'.c.lbs[i] == x;
      assert w.c.lbs[i] in w.c.lbs && Ours(sp, st, w.c.lbs[i]);
    }
    forall id | LbById(w.c, id).Some? ensures LbById(w'.c, id).Some? {
      FirstAligned(w.c.lbs, w'.c.lbs, (x: LoadBalancer) => x.id == id);
    }
  }

  lemma PostLbKeeps(f: Oracle, sp: Spec, w: World, st: Status, net: Id)
    requires Generous(f) && WellFormed(w.c) && forall x :: x in w.c.lbs && Ours(sp, st, x) ==> Usable(x)
    ensures var w' := PostLb(f, w, Names.LbName(sp.name), net).1;
            && WellFormed(w'.c) && (forall x :: x in w'.c.lbs && Ours(sp, st, x) ==> Usable(x))
            && (forall id :: LbById(w.c, id).Some? ==> LbById(w'.c, id).Some?)
  {
    var w' := PostLb(f, w, Names.LbName(sp.name), net).1;
    forall id | LbById(w.c, id).Some? ensures LbById(w'.c, id).Some? {
      var x := LbById(w.c, id).value;
      assert x in w'.c.lbs && x.id == id;
    }
  }

  lemma CreateLbMoves(f: Oracle, sp: Spec, w: World, st: Status)
    requires Generous(f) && Inv(sp, w.c, st) && CanCreate(sp, w.c, w.st)
    requires w.st.networkId == st.networkId && w.st.subnetId == st.subnetId
    ensures var (ph, w') := CreateLb(f, sp, w);
            && ph.Requeue? && w'.st.lbId != UNSET && LbById(w'.c, w'.st.lbId).Some? && Inv(sp, w'.c, w'.st)
  {
    hide FindOrPostLb;
    FindOrPostFinds(f, sp, Called(Called(w)), st, w.st.networkId);
    var (ph, w') := CreateLb(f, sp, w);
    assert w'.c.networks == w.c.networks && w'.c.fips == w.c.fips;
    assert forall x :: x in w'.c.lbs && Ours(sp, w'.st, x) ==> Ours(sp, st, x);
  }

  /** Without a subnet the pass fails, and forgets a recorded load balancer that is gone. */
  lemma CreateLbFails(f: Oracle, sp: Spec, w: World)
    requires !CanCreate(sp, w.c, w.st)
    ensures var (ph, w') := CreateLb(f, sp, w); ph.Error? && w'.c == w.c && w'.st == w.st
  {
    hide FindOrPostLb;
  }

  // ---- The floating-IP step ----

  /** A floating IP is ready, or the next pass will read one that was not there to read before or
      still needs time. */
  ghost predicate FipMoved(w: World, lb: LoadBalancer, r: (FipResult, World)) {
    var (fip, w') := r;
    && WellFormed(w'.c) && (forall x :: x in w'.c.fips ==> x.ip != "")
    && (fip.Ip? || (fip.NotYet? && Candidate(w'.c, w'.st, lb.id).Some? && w'.st.fipId != UNSET
                    && (Candidate(w.c, w.st, lb.id).None?
                        || (Candidate(w'.c, w'.st, lb.id) == Candidate(w.c, w.st, lb.id)
                            && Candidate(w.c, w.st, lb.id).value.wait > 0))))
  }

  lemma AllocateMoves(f: Oracle, sp: Spec, w: World, lb: LoadBalancer)
    requires Generous(f) && WellFormed(w.c) && LbById(w.c, lb.id) == Some(lb) && lb.fip.None?
    requires forall x :: x in w.c.fips ==> x.ip != ""
    ensures var (fip, w') := AllocateFip(f, sp, w, lb);
            && WellFormed(w'.c) && (forall x :: x in w'.c.fips ==> x.ip != "")
            && (fip.Ip? || (fip.NotYet? && Candidate(w'.c, w'.st, lb.id).Some? && w'.st.fipId != UNSET))
  {
    hide EnsureGatewayExposed, WellFormed;
    PostFipWellFormed(f, w, lb, GatewayName(sp));
    var w1 := PostLbFip(f, w, lb, GatewayName(sp)).1;
    ExposeWellFormed(f, sp, w1);
    var w2 := EnsureGatewayExposed(f, sp, w1);
    assert w1.c.fips[|w.c.fips|].entity == Some(lb.id);
    assert LbById(w2.c, lb.id) == Some(lb);
    var w3 := Called(w2);
    assert FipOfLb(w3.c, lb.id).Some?;
    ListedFip(w3.c, lb.id);
  }

  lemma DiscoverMoves(f: Oracle, sp: Spec, w: World, lb: LoadBalancer)
    requires Generous(f) && WellFormed(w.c) && LbById(w.c, lb.id) == Some(lb) && lb.fip.None? && lb.vip != ""
    requires (forall x :: x in w.c.fips ==> x.ip != "") && w.st.fipId == UNSET
    ensures FipMoved(w, lb, DiscoverFip(f, sp, w, lb))
  {
    hide EnsureGatewayExposed, AllocateFip, WellFormed;
    if FipOfLb(w.c, lb.id).Some? {
      ListedFip(w.c, lb.id);
      var x := FipOfLb(w.c, lb.id).value;
      var w1 := Saw(RecordFip(Called(w), x.id), Listed(lb.id, x.id, ShownIp(x)));
      assert WellFormed(w1.c);
      ExposeWellFormed(f, sp, w1);
    } else {
      AllocateMoves(f, sp, Called(w), lb);
    }
  }

  lemma FipMoves(f: Oracle, sp: Spec, w: World, lb: LoadBalancer)
    requires Generous(f) && WellFormed(w.c) && LbById(w.c, lb.id) == Some(lb) && Usable(lb)
    requires forall x :: x in w.c.fips ==> x.ip != ""
    ensures var r := ReconcileFip(f, sp, w, lb);
            && WellFormed(r.1.c) && (forall x :: x in r.1.c.fips ==> x.ip != "")
            && (if lb.fip.Some? then r.0.Ip? else FipMoved(w, lb, r))
  {
    hide EnsureGatewayExposed, DiscoverFip, WellFormed;
    if lb.fip.Some? {
      var ref := lb.fip.value;
      ExposeWellFormed(f, sp, Saw(RecordFip(w, ref.id), OnLb(lb.id, ref.id, ref.ip)));
    } else if w.st.fipId != UNSET {
      ExposeWellFormed(f, sp, w);
      var w1 := EnsureGatewayExposed(f, sp, w);
      var w2 := RecordFip(Called(w1), UNSET);
      if FipById(w1.c, w1.st.fipId).None? {
        DiscoverMoves(f, sp, w2, lb);
        assert Candidate(w2.c, w2.st, lb.id) == Candidate(w.c, w.st, lb.id);
      }
    } else {
      DiscoverMoves(f, sp, w, lb);
    }
  }

  // ---- A pass ends Ready or advances ----

  /** The rank and the invariant look at networks, load balancers and floating IPs, and at the
      identifiers recorded for them. */
  ghost predicate SameRanked(c: Cloud, st: Status, c': Cloud, st': Status) {
    && c'.networks == c.networks && c'.lbs == c.lbs && c'.fips == c.fips
    && st'.finalizer == st.finalizer && st'.networkId == st.networkId && st'.subnetId == st.subnetId
    && st'.lbId == st.lbId && st'.fipId == st.fipId
  }

  lemma SameLb(c: Cloud, c': Cloud, id: Id)
    requires c'.lbs == c.lbs
    ensures LbById(c', id) == LbById(c, id)
  {
  }

  lemma SameCandidate(c: Cloud, c': Cloud, st: Status, st': Status, lb: Id)
    requires c'.fips == c.fips && st'.fipId == st.fipId
    ensures Candidate(c', st', lb) == Candidate(c, st, lb)
  {
  }

  lemma SameLbRank(sp: Spec, c: Cloud, st: Status, c': Cloud, st': Status)
    requires SameRanked(c, st, c', st')
    ensures LbRank(sp, c', st') == LbRank(sp, c, st)
  {
    hide LbById, Candidate;
    var id := Adopt(sp, st).lbId;
    SameLb(c, c', id);
    if LbById(c, id).Some? { SameCandidate(c, c', Adopt(sp, st), Adopt(sp, st'), LbById(c, id).value.id); }
  }

  lemma SameRankedKeeps(sp: Spec, c: Cloud, st: Status, c': Cloud, st': Status)
    requires SameRanked(c, st, c', st') && WellFormed(c') && Inv(sp, c, st)
    ensures Inv(sp, c', st') && Rank(sp, c', st') == Rank(sp, c, st) && LbRank(sp, c', st') == LbRank(sp, c, st)
  {
    hide WellFormed, LbRank, LbById, Usable;
    SameLbRank(sp, c, st, c', st');
    SameLb(c, c', Adopt(sp, st).lbId);
    SameLb(c, c', sp.existingLb);
    assert Adopt(sp, st').lbId == Adopt(sp, st).lbId;
    assert forall x :: Ours(sp, st', x) <==> Ours(sp, st, x);
  }

  lemma ServeMoves(f: Oracle, sp: Spec, w: World, lb: LoadBalancer)
    requires Generous(f) && Inv(sp, w.c, w.st) && Adopt(sp, w.st) == w.st
    requires w.st.lbId != UNSET && LbById(w.c, w.st.lbId) == Some(lb) && lb.id == w.st.lbId
    ensures var (ph, w') := HandleLb(f, sp, w, lb);
            Inv(sp, w'.c, w'.st) && (ph.Done? || Advanced(LbRank(sp, w.c, w.st), LbRank(sp, w'.c, w'.st)))
  {
    hide ReconcilePort, ReconcileFip, WellFormed, Provisionable;
    assert Ours(sp, w.st, lb) && Usable(lb);
    if Active(lb) {
      PortSettles(f, w, ApiServer);
      PortWellFormed(f, w, ApiServer);
      var w1 := ReconcilePort(f, w, ApiServer).1;
      PortSettles(f, w1, Register);
      PortWellFormed(f, w1, Register);
      var w2 := ReconcilePort(f, w1, Register).1;
      SameRankedKeeps(sp, w.c, w.st, w2.c, w2.st);
      EndpointMoves(f, sp, w2, lb);
    }
  }

  lemma EndpointMoves(f: Oracle, sp: Spec, w: World, lb: LoadBalancer)
    requires Generous(f) && Inv(sp, w.c, w.st) && Adopt(sp, w.st) == w.st
    requires w.st.lbId != UNSET && LbById(w.c, w.st.lbId) == Some(lb) && lb.id == w.st.lbId && Active(lb) && Usable(lb)
    ensures var (ph, w') := ServeEndpoint(f, sp, w, lb);
            Inv(sp, w'.c, w'.st) && (ph.Done? || Advanced(LbRank(sp, w.c, w.st), LbRank(sp, w'.c, w'.st)))
  {
    hide ReconcileFip, WellFormed;
    var (ph, w') := ServeEndpoint(f, sp, w, lb);
    if sp.floating {
      FipMoves(f, sp, w, lb);
      assert w'.c.lbs == w.c.lbs && w'.c.networks == w.c.networks && w'.st.lbId == w.st.lbId;
      assert LbById(w'.c, w'.st.lbId) == Some(lb);
      assert forall x :: Ours(sp, w'.st, x) <==> Ours(sp, w.st, x);
      if !ph.Done? { assert Candidate(w'.c, Adopt(sp, w'.st), lb.id) == Candidate(w'.c, w'.st, lb.id); }
    } else {
      SameRankedKeeps(sp, w.c, w.st, w'.c, w'.st);
    }
  }

  lemma LbMoves(f: Oracle, sp: Spec, w: World)
    requires Generous(f) && Inv(sp, w.c, w.st)
    requires LbThere(sp, w.c, w.st) || CanCreate(sp, w.c, w.st)
    ensures var (ph, w') := ReconcileLb(f, sp, w);
            Inv(sp, w'.c, w'.st) && (ph.Done? || Advanced(LbRank(sp, w.c, w.st), LbRank(sp, w'.c, w'.st)))
  {
    hide HandleLb, CreateLb, WellFormed;
    var w0 := w.(st := Adopt(sp, w.st));
    assert Adopt(sp, w0.st) == w0.st;
    AdoptKeeps(sp, w.c, w.st);
    var lb := LbById(w0.c, w0.st.lbId);
    if lb.Some? {
      NoZeroLb(w.c);
      ServeMoves(f, sp, Called(w0), lb.value);
    } else {
      var w1 := if w0.st.lbId == UNSET then w0 else Called(w0).(st := ForgetLb(w0.st));
      var (ph, w') := ReconcileLb(f, sp, w);
      NoZeroLb(w.c);
      if CanCreate(sp, w.c, w.st) {
        CreateLbMoves(f, sp, w1, w0.st);
      } else {
        CreateLbFails(f, sp, w1);
        assert LbById(w.c, sp.existingLb).Some? && Adopt(sp, w'.st).lbId == sp.existingLb;
        assert forall x :: Ours(sp, w'.st, x) ==> Ours(sp, w.st, x);
      }
      assert LbRank(sp, w'.c, w'.st).0 < 5;
    }
  }

  lemma AdoptKeeps(sp: Spec, c: Cloud, st: Status)
    requires Inv(sp, c, st)
    ensures Inv(sp, c, Adopt(sp, st)) && LbRank(sp, c, Adopt(sp, st)) == LbRank(sp, c, st)
  {
    assert Adopt(sp, Adopt(sp, st)) == Adopt(sp, st);
  }

  lemma NoZeroLb(c: Cloud)
    requires WellFormed(c)
    ensures LbById(c, UNSET).None?
  {
  }

  lemma TailMoves(f: Oracle, sp: Spec, w: World)
    requires Generous(f) && Inv(sp, w.c, w.st) && w.st.finalizer
    requires sp.network.Some? ==> NetworkRecorded(w.c, w.st) && w.c.networks[w.st.networkId].wait == 0
    requires LbThere(sp, w.c, w.st) || CanCreate(sp, w.c, w.st)
    ensures var (ph, w') := ReconcileLb(f, sp, ReconcileGroups(f, sp, w));
            Inv(sp, w'.c, w'.st) && (ph.Done? || Advanced(Rank(sp, w.c, w.st), Rank(sp, w'.c, w'.st)))
  {
    hide ReconcileGroups, ReconcileLb, WellFormed, Inv, LbRank;
    assert WellFormed(w.c) by { InvWellFormed(sp, w.c, w.st); }
    GroupsWellFormed(f, sp, w);
    var w1 := ReconcileGroups(f, sp, w);
    SameRankedKeeps(sp, w.c, w.st, w1.c, w1.st);
    LbMoves(f, sp, w1);
    LbFrame(f, sp, w1);
  }

  lemma InvWellFormed(sp: Spec, c: Cloud, st: Status)
    requires Inv(sp, c, st)
    ensures WellFormed(c)
  {
  }

  /** A pass keeps the invariant and, unless it ends Ready, advances. */
  lemma PassMoves(f: Oracle, sp: Spec, w: World)
    requires Generous(f) && Inv(sp, w.c, w.st)
    ensures var (ph, w') := ReconcileNormal(f, sp, w);
            Inv(sp, w'.c, w'.st) && (ph.Done? || Advanced(Rank(sp, w.c, w.st), Rank(sp, w'.c, w'.st)))
  {
    hide ReconcileNetwork, ReconcileGroups, ReconcileLb, ReconcileDns, Inv, LbRank;
    var w0 := Called(w);
    if !w.st.finalizer {
      FinalizerKeeps(sp, w.c, w.st);
      assert Rank(sp, w.c, w.st.(finalizer := true)).0 < 9 by { LbRankBound(sp, w.c, w.st.(finalizer := true)); }
    } else if sp.network.Some? && w.st.networkId != UNSET && w.st.networkId !in w.c.networks {
      DanglingCleared(f, sp, w0);
    } else if sp.network.Some? {
      var cfg := sp.network.value;
      NetworkMoves(f, sp, cfg, w0);
      var (ph, w1) := ReconcileNetwork(f, sp, w0);
      if ph.Done? {
        TailMoves(f, sp, w1);
        NetworkRank(sp, w, w1);
        DnsKeeps(f, sp, ReconcileLb(f, sp, ReconcileGroups(f, sp, w1)).1);
      }
    } else {
      assert ReconcileNetwork(f, sp, w0) == (Done, w0) by { NoNetworkStep(f, sp, w0); }
      assert LbThere(sp, w0.c, w0.st) || CanCreate(sp, w0.c, w0.st) by { NoNetworkNeeds(sp, w0.c, w0.st); }
      TailMoves(f, sp, w0);
      DnsKeeps(f, sp, ReconcileLb(f, sp, ReconcileGroups(f, sp, w0)).1);
    }
  }

  lemma DnsKeeps(f: Oracle, sp: Spec, w: World)
    ensures var w' := ReconcileDns(f, sp, w);
            Inv(sp, w.c, w.st) ==> Inv(sp, w'.c, w'.st.(ready := true))
  {
    hide ReconcileDns;
    if Inv(sp, w.c, w.st) {
      var w' := ReconcileDns(f, sp, w);
      InvWellFormed(sp, w.c, w.st);
      assert WellFormed(w'.c);
      SameRankedKeeps(sp, w.c, w.st, w'.c, w'.st.(ready := true));
    }
  }

  lemma NoNetworkNeeds(sp: Spec, c: Cloud, st: Status)
    requires Inv(sp, c, st) && sp.network.None?
    ensures LbThere(sp, c, st) || CanCreate(sp, c, st)
  {
    hide Sound, LbThere, CanCreate;
  }

  lemma NoNetworkStep(f: Oracle, sp: Spec, w: World)
    requires sp.network.None?
    ensures ReconcileNetwork(f, sp, w) == (Done, w)
  {
  }

  lemma FinalizerKeeps(sp: Spec, c: Cloud, st: Status)
    requires Inv(sp, c, st)
    ensures Inv(sp, c, st.(finalizer := true))
  {
    hide WellFormed, LbById, Usable;
    var st' := st.(finalizer := true);
    assert Adopt(sp, st').lbId == Adopt(sp, st).lbId;
    assert forall x :: Ours(sp, st', x) <==> Ours(sp, st, x);
  }

  lemma LbRankBound(sp: Spec, c: Cloud, st: Status)
    ensures LbRank(sp, c, st).0 <= 5
  {
  }

  lemma DanglingCleared(f: Oracle, sp: Spec, w: World)
    requires Generous(f) && Inv(sp, w.c, w.st) && sp.network.Some?
    requires w.st.networkId != UNSET && w.st.networkId !in w.c.networks
    ensures var (ph, w') := ReconcileNetwork(f, sp, w);
            ph.Error? && w'.st.networkId == UNSET && Inv(sp, w'.c, w'.st)
  {
    hide ReconcileNetwork, WellFormed, Usable, LbById;
    NetworkGone(f, sp, sp.network.value, w);
    var w' := ReconcileNetwork(f, sp, w).1;
    assert Adopt(sp, w'.st).lbId == Adopt(sp, w.st).lbId;
    assert forall x :: Ours(sp, w'.st, x) <==> Ours(sp, w.st, x);
  }

  /** Finishing the network step does not raise the rank. */
  lemma NetworkRank(sp: Spec, w: World, w1: World)
    requires sp.network.Some? && w.st.finalizer && OnlyNetwork(w, w1) && NetworkRecorded(w1.c, w1.st)
    requires w1.c.networks[w1.st.networkId].wait == 0
    requires w.st.networkId != UNSET ==> w.st.networkId in w.c.networks && w1.st.networkId == w.st.networkId
    ensures Rank(sp, w1.c, w1.st) == Rank(sp, w.c, w.st) || Lower(Rank(sp, w1.c, w1.st), Rank(sp, w.c, w.st))
  {
    hide LbRank;
    LbRankBound(sp, w1.c, w1.st);
    LbRankFrame(sp, w, w1);
  }

  lemma LbRankFrame(sp: Spec, w: World, w1: World)
    requires OnlyNetwork(w, w1)
    ensures LbRank(sp, w1.c, w1.st) == LbRank(sp, w.c, w.st)
  {
    hide LbById, Candidate;
    var id := Adopt(sp, w.st).lbId;
    SameLb(w.c, w1.c, id);
    if LbById(w.c, id).Some? { SameCandidate(w.c, w1.c, Adopt(sp, w.st), Adopt(sp, w1.st), LbById(w.c, id).value.id); }
  }

  // ---- Convergence ----

  /** This pass ends Ready and settled, with a nonempty endpoint, and is saved. */
  ghost predicate Finishes(sp: Spec, w: World, w': World) {
    exists f :: Generous(f) && ReconcileNormal(f, sp, w).0.Done? && ReadyWith(sp, ReconcileNormal(f, sp, w).1)
                && w'.st == ReconcileNormal(f, sp, w).1.st
  }

  ghost predicate ReadyWith(sp: Spec, w: World) {
    w.st.ready && w.st.endpoint != "" && Settled(sp, w.c, w.st)
  }

  lemma DoneIsReady(f: Oracle, sp: Spec, w: World)
    requires Generous(f) && Inv(sp, w.c, w.st) && ReconcileNormal(f, sp, w).0.Done?
    ensures ReadyWith(sp, ReconcileNormal(f, sp, w).1)
  {
    hide ReconcileNormal, WellFormed;
    ReadyIsSettled(f, sp, w);
    PassMoves(f, sp, w);
    var w' := ReconcileNormal(f, sp, w).1;
    var lb := LbById(w'.c, w'.st.lbId).value;
    assert Ours(sp, w'.st, lb);
  }

  /** From any state in which provisioning can succeed, every infinite sequence of saved
      error-free passes and ticks reaches a pass that ends Ready with a nonempty endpoint. */
  lemma {:induction false} Converges(sp: Spec, ws: nat -> World, n: nat)
    requires forall k: nat :: PassAndTick(sp, ws(k), ws(k + 1))
    requires Inv(sp, ws(n).c, ws(n).st)
    ensures exists m: nat :: m >= n && Finishes(sp, ws(m), ws(m + 1))
    decreases Rank(sp, ws(n).c, ws(n).st).0, Rank(sp, ws(n).c, ws(n).st).1
  {
    hide ReconcileNormal, Rank, Inv, Tick, ReadyWith;
    var w, w' := ws(n), ws(n + 1);
    assert PassAndTick(sp, w, w');
    var f :| Generous(f) && Tick(ReconcileNormal(f, sp, w).1.c, w'.c) && w'.st == ReconcileNormal(f, sp, w).1.st;
    var (ph, mid) := ReconcileNormal(f, sp, w);
    if ph.Done? {
      DoneIsReady(f, sp, w);
      assert Finishes(sp, w, w');
    } else {
      PassMoves(f, sp, w);
      TickInv(sp, mid.c, w'.c, mid.st);
      TickRank(sp, mid.c, w'.c, mid.st);
      Converges(sp, ws, n + 1);
    }
  }

  // ---- Where it cannot succeed ----

  /** All that the failing side needs of the cloud. */
  ghost predicate Sane(c: Cloud) {
    WellFormed(c) && forall k :: k in c.networks ==> k != UNSET
  }

  /** With nothing to use and nothing to create with, the load balancer step fails and stays so. */
  lemma BlockedLb(f: Oracle, sp: Spec, w: World)
    requires Generous(f) && WellFormed(w.c) && !LbThere(sp, w.c, w.st) && !CanCreate(sp, w.c, w.st)
    ensures var (ph, w') := ReconcileLb(f, sp, w);
            && ph.Error? && w'.c == w.c && !LbThere(sp, w'.c, w'.st)
            && w'.st.networkId == w.st.networkId && w'.st.subnetId == w.st.subnetId
  {
    hide HandleLb, CreateLb, WellFormed, LbById;
    var w0 := w.(st := Adopt(sp, w.st));
    NoZeroLb(w.c);
    var w1 := if w0.st.lbId == UNSET then w0 else Called(w0).(st := ForgetLb(w0.st));
    CreateLbFails(f, sp, w1);
    assert Adopt(sp, w0.st).lbId == w0.st.lbId && Adopt(sp, ForgetLb(w0.st)).lbId == sp.existingLb;
  }

  /** A network that is not there is cleared from the record. */
  lemma NetworkGone(f: Oracle, sp: Spec, cfg: NetworkConfig, w: World)
    requires Generous(f) && sp.network == Some(cfg)
    requires if w.st.networkId != UNSET then w.st.networkId !in w.c.networks
             else cfg.privateId != UNSET && cfg.privateId !in w.c.networks
    ensures var (ph, w') := ReconcileNetwork(f, sp, w);
            ph.Error? && w'.c == w.c && w'.st == w.st.(networkId := UNSET, subnetId := UNSET)
  {
    hide EnsureSubnet;
  }

  /** Without any source of a subnet the network step gets hold of its network and finds none. */
  lemma NetworkWithoutSubnet(f: Oracle, sp: Spec, cfg: NetworkConfig, w: World)
    requires Generous(f) && sp.network == Some(cfg) && NetworkAvailable(cfg, w.c, w.st) && !SubnetAvailable(sp, cfg, w.c, w.st)
    requires w.st.networkId == UNSET || w.st.networkId in w.c.networks
    requires forall k :: k in w.c.networks ==> k != UNSET
    ensures var (ph, w') := ReconcileNetwork(f, sp, w);
            && !ph.Error? && NetworkRecorded(w'.c, w'.st) && !SubnetAvailable(sp, cfg, w'.c, w'.st) && !CanCreate(sp, w'.c, w'.st)
            && w'.c.lbs == w.c.lbs && w'.st.lbId == w.st.lbId
            && (forall k :: k in w'.c.networks ==> k != UNSET)
  {
    var (ok, w1) := EnsureNetwork(f, cfg, w);
    assert ok && NetworkRecorded(w1.c, w1.st) && w1.st.subnetId == UNSET && w1.c.networks[w1.st.networkId].subnets == [];
    hide EnsureNetwork;
  }

  /** The network step leaves it so, and if it finishes there is still nothing to create with. */
  lemma BlockedNetwork(f: Oracle, sp: Spec, cfg: NetworkConfig, w: World)
    requires Generous(f) && sp.network == Some(cfg) && Sane(w.c) && !Provisionable(sp, w.c, w.st)
    ensures var (ph, w') := ReconcileNetwork(f, sp, w);
            && !Provisionable(sp, w'.c, w'.st)
            && (ph.Done? ==> NetworkAvailable(cfg, w'.c, w'.st) && !CanCreate(sp, w'.c, w'.st))
            && (forall k :: k in w'.c.networks ==> k != UNSET)
  {
    hide WellFormed, LbThere, ReconcileNetwork;
    var (ph, w') := ReconcileNetwork(f, sp, w);
    if w.st.networkId != UNSET && w.st.networkId !in w.c.networks {
      NetworkGone(f, sp, cfg, w);
    } else if !NetworkAvailable(cfg, w.c, w.st) {
      NetworkGone(f, sp, cfg, w);
    } else {
      NetworkWithoutSubnet(f, sp, cfg, w);
    }
    SameLbThere(sp, w.c, w.st, w'.c, w'.st);
  }

  /** Whether provisioning has what it needs is decided by these parts. */
  lemma SameProvisionable(sp: Spec, c: Cloud, st: Status, c': Cloud, st': Status)
    requires c'.networks == c.networks && st'.networkId == st.networkId && st'.subnetId == st.subnetId
    requires LbThere(sp, c', st') <==> LbThere(sp, c, st)
    ensures Provisionable(sp, c', st') <==> Provisionable(sp, c, st)
  {
    hide LbThere;
  }

  lemma SameLbThere(sp: Spec, c: Cloud, st: Status, c': Cloud, st': Status)
    requires c'.lbs == c.lbs && st'.lbId == st.lbId
    ensures LbThere(sp, c', st') <==> LbThere(sp, c, st)
  {
    hide LbById;
    SameLb(c, c', Adopt(sp, st).lbId);
    SameLb(c, c', sp.existingLb);
  }

  lemma BlockedTail(f: Oracle, sp: Spec, w: World)
    requires Generous(f) && Sane(w.c) && !Provisionable(sp, w.c, w.st) && !CanCreate(sp, w.c, w.st)
    requires sp.network.Some? ==> NetworkAvailable(sp.network.value, w.c, w.st)
    ensures var (ph, w') := ReconcileLb(f, sp, ReconcileGroups(f, sp, w));
            ph.Error? && Sane(w'.c) && !Provisionable(sp, w'.c, w'.st)
  {
    hide ReconcileGroups, ReconcileLb, WellFormed, LbThere;
    GroupsWellFormed(f, sp, w);
    var w1 := ReconcileGroups(f, sp, w);
    SameLbThere(sp, w.c, w.st, w1.c, w1.st);
    SameProvisionable(sp, w.c, w.st, w1.c, w1.st);
    if !LbThere(sp, w.c, w.st) {
      BlockedLb(f, sp, w1);
      var w' := ReconcileLb(f, sp, w1).1;
      SameProvisionable(sp, w1.c, w1.st, w'.c, w'.st);
    } else {
      NeedsMore(sp, w.c, w.st);
    }
  }

  /** With a network available, what is missing is a load balancer and the means to create one. */
  lemma NeedsMore(sp: Spec, c: Cloud, st: Status)
    requires LbThere(sp, c, st) && (sp.network.Some? ==> NetworkAvailable(sp.network.value, c, st))
    ensures Provisionable(sp, c, st)
  {
  }

  lemma BlockedPass(f: Oracle, sp: Spec, w: World)
    requires Generous(f) && Sane(w.c) && !Provisionable(sp, w.c, w.st)
    ensures var (ph, w') := ReconcileNormal(f, sp, w); !ph.Done? && Sane(w'.c) && !Provisionable(sp, w'.c, w'.st)
  {
    hide ReconcileNetwork, ReconcileGroups, ReconcileLb, ReconcileDns, Provisionable, WellFormed;
    var w0 := Called(w);
    SameLbThere(sp, w.c, w.st, w.c, w.st.(finalizer := true));
    SameProvisionable(sp, w.c, w.st, w.c, w.st.(finalizer := true));
    if w.st.finalizer {
      if sp.network.Some? {
        BlockedNetwork(f, sp, sp.network.value, w0);
        NetworkWellFormed(f, sp, w0);
        var (ph, w1) := ReconcileNetwork(f, sp, w0);
        if ph.Done? { BlockedTail(f, sp, w1); }
      } else {
        assert ReconcileNetwork(f, sp, w0) == (Done, w0) by { NoNetworkStep(f, sp, w0); }
        NothingToUse(sp, w.c, w.st);
        BlockedTail(f, sp, w0);
      }
    }
  }

  lemma NothingToUse(sp: Spec, c: Cloud, st: Status)
    requires !Provisionable(sp, c, st) && sp.network.None?
    ensures !CanCreate(sp, c, st)
  {
  }

  lemma {:induction false} NeverReady(sp: Spec, ws: nat -> World, n: nat, m: nat)
    requires forall k: nat :: PassAndTick(sp, ws(k), ws(k + 1))
    requires Sane(ws(n).c) && !Provisionable(sp, ws(n).c, ws(n).st) && m >= n
    ensures Sane(ws(m).c) && !Provisionable(sp, ws(m).c, ws(m).st) && !Finishes(sp, ws(m), ws(m + 1))
    decreases m
  {
    hide ReconcileNormal, Provisionable, WellFormed, Tick, ReadyWith;
    if m > n {
      NeverReady(sp, ws, n, m - 1);
      var w := ws(m - 1);
      assert PassAndTick(sp, w, ws(m - 1 + 1));
      var f :| Generous(f) && Tick(ReconcileNormal(f, sp, w).1.c, ws(m).c) && ws(m).st == ReconcileNormal(f, sp, w).1.st;
      BlockedPass(f, sp, w);
      var mid := ReconcileNormal(f, sp, w).1;
      TickProvisionable(sp, mid.c, ws(m).c, mid.st);
      TickSane(mid.c, ws(m).c);
    }
    forall f | Generous(f) ensures !ReconcileNormal(f, sp, ws(m)).0.Done? { BlockedPass(f, sp, ws(m)); }
  }

  lemma TickSane(c: Cloud, c': Cloud)
    requires Tick(c, c') && Sane(c)
    ensures Sane(c')
  {
    TickWellFormed(c, c');
    hide WellFormed;
  }

  /** In a sound cloud provisioning converges exactly when it has what it needs at the start: a network if
      one is configured, and a load balancer or the means to create one. */
  lemma ConvergesIffProvisionable(sp: Spec, ws: nat -> World, n: nat)
    requires forall k: nat :: PassAndTick(sp, ws(k), ws(k + 1))
    requires Sound(sp, ws(n).c, ws(n).st)
    ensures (exists m: nat :: m >= n && Finishes(sp, ws(m), ws(m + 1))) <==> Provisionable(sp, ws(n).c, ws(n).st)
  {
    hide Provisionable, Finishes;
    if Provisionable(sp, ws(n).c, ws(n).st) {
      Converges(sp, ws, n);
    } else {
      forall m: nat | m >= n ensures !Finishes(sp, ws(m), ws(m + 1)) { NeverReady(sp, ws, n, m); }
    }
  }

  /** Without a network and without a load balancer to use, no pass of any kind ends Ready. */
  lemma NotReadyWithoutNetwork(f: Oracle, sp: Spec, w: World)
    requires sp.network.None? && w.st.networkId == UNSET && LbById(w.c, Adopt(sp, w.st).lbId).None?
    ensures !ReconcileNormal(f, sp, w).0.Done?
  {
    hide CreateLb, EnsureGroups, HandleLb;
    var w1 := ReconcileGroups(f, sp, Called(w));
  }
}
