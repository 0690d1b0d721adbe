/** The controller deletes only private networks it created. */
module Ownership {
  import opened Collections
  import opened OvhCloud
  import opened ClusterSteps
  import opened ClusterDelete
  import opened ClusterRuns
  import opened Deletion

  /** Every network DELETE ever issued was for a network this controller created. */
  ghost predicate DeletesOwn(log: seq<Event>) {
    forall id, ok :: Deleted(NetworkKind, id, ok) in log ==> Posted(NetworkKind, id) in log
  }

  /** What makes that stable: a recorded network that counts as created was created here. */
  ghost predicate Owned(cfg: Option<NetworkConfig>, st: Status, log: seq<Event>) {
    && (st.networkCreated && st.networkId != UNSET ==> Posted(NetworkKind, st.networkId) in log)
    && (cfg.Some? && cfg.value.privateId != UNSET ==> !st.networkCreated)
  }

  lemma OtherKindsKeep(log: seq<Event>, log': seq<Event>, kinds: set<Kind>)
    requires Appends(log, log', kinds) && NetworkKind !in kinds
    ensures forall e :: KindOf(e) == NetworkKind ==> (e in log' <==> e in log)
  {
  }

  lemma NetworkStepOwned(f: Oracle, sp: Spec, w: World)
    requires Owned(sp.network, w.st, w.log) && DeletesOwn(w.log)
    ensures var w' := ReconcileNetwork(f, sp, w).1;
            Owned(sp.network, w'.st, w'.log) && DeletesOwn(w'.log)
  {
    hide EnsureSubnet;
    if sp.network.Some? {
      var cfg := sp.network.value;
      var (ok, w1) := EnsureNetwork(f, cfg, w);
      assert Owned(sp.network, w1.st, w1.log) && DeletesOwn(w1.log);
      var w' := ReconcileNetwork(f, sp, w).1;
      if ok {
        assert Appends(w1.log, w'.log, {SubnetKind});
        OtherKindsKeep(w1.log, w'.log, {SubnetKind});
        assert w'.st.networkCreated == w1.st.networkCreated;
        assert w'.st.networkId == w1.st.networkId || w'.st.networkId == UNSET;
      }
    }
  }

  lemma NormalOwned(f: Oracle, sp: Spec, w: World)
    requires Owned(sp.network, w.st, w.log) && DeletesOwn(w.log)
    ensures var w' := ReconcileNormal(f, sp, w).1;
            Owned(sp.network, w'.st, w'.log) && DeletesOwn(w'.log) && w.log <= w'.log
  {
    hide ReconcileNetwork, ReconcileGroups, ReconcileLb, ReconcileDns;
    if w.st.finalizer && Up(f, w) {
      NetworkStepOwned(f, sp, Called(w));
      var (net, w1) := ReconcileNetwork(f, sp, Called(w));
      var w2 := ReconcileGroups(f, sp, w1);
      OtherKindsKeep(w1.log, w2.log, {GroupKind});
      var (lb, w3) := ReconcileLb(f, sp, w2);
      OtherKindsKeep(w2.log, w3.log, {LbKind, ListenerKind, PoolKind, MonitorKind, FipKind, GatewayKind});
      LbKeepsNetwork(f, sp, w2);
      var w4 := ReconcileDns(f, sp, w3);
      OtherKindsKeep(w3.log, w4.log, {RecordKind});
    }
  }

  lemma LbKeepsNetwork(f: Oracle, sp: Spec, w: World)
    ensures var st := ReconcileLb(f, sp, w).1.st;
            st.networkId == w.st.networkId && st.networkCreated == w.st.networkCreated
  {
    hide HandleLb, CreateLb;
  }

  lemma DeleteOwned(f: Oracle, sp: Spec, w: World, order: seq<string>)
    requires Owned(sp.network, w.st, w.log) && DeletesOwn(w.log)
    ensures var w' := ReconcileDelete(f, sp, w, order).1;
            Owned(sp.network, w'.st, w'.log) && DeletesOwn(w'.log) && w.log <= w'.log
  {
    hide CleanDns, CleanGroups, CaptureFips, DeleteRecordedLb, DeleteOrphans, CleanFips, CleanGateway;
    if !sp.keep {
      var w0 := CleanDns(f, sp, w);
      var w1 := CleanGroups(f, w0, order);
      var (fips, w2) := CaptureFips(f, w1);
      var (ok, w3) := DeleteRecordedLb(f, w2);
      var front := {RecordKind, GroupKind, PoolKind, ListenerKind, LbKind};
      assert Appends(w.log, w3.log, front);
      OtherKindsKeep(w.log, w3.log, front);
      var w4 := DeleteOrphans(f, sp, w3);
      var (again, w5) := CleanFips(f, w4, fips);
      var w6 := CleanGateway(f, sp, w5);
      var back := {LbKind, FipKind, GatewayKind};
      assert Appends(w3.log, w5.log, back) && Appends(w3.log, w6.log, back);
      OtherKindsKeep(w3.log, w5.log, back);
      OtherKindsKeep(w3.log, w6.log, back);
      assert w6.st.networkId == w.st.networkId && w6.st.networkCreated == w.st.networkCreated;
    }
  }

  /** The user leaves spec.networkConfig alone. */
  ghost predicate NetworkConfigFixed(acts: seq<Action>, cfg: Option<NetworkConfig>) {
    forall a :: a in acts && !a.Other? ==> a.sp.network == cfg
  }

  /** Over any run in which spec.networkConfig does not change, networks vanish and patches are
      lost included, every network DELETE is for a network this controller created. */
  lemma {:induction false} OnlyOwnNetworksDeleted(w: World, acts: seq<Action>, cfg: Option<NetworkConfig>)
    requires NetworkConfigFixed(acts, cfg)
    requires Owned(cfg, w.st, w.log) && DeletesOwn(w.log)
    ensures var w' := Run(w, acts); Owned(cfg, w'.st, w'.log) && DeletesOwn(w'.log)
  {
    hide ReconcileNormal, ReconcileDelete;
    if acts != [] {
      var before, a := acts[..|acts| - 1], acts[|acts| - 1];
      OnlyOwnNetworksDeleted(w, before, cfg);
      var mid := Run(w, before);
      match a
      case Normal(sp, f, saved) => NormalOwned(f, sp, mid);
      case Delete(sp, f, order, saved) => DeleteOwned(f, sp, mid, order);
      case Other(c) =>
    }
  }

  /** The hypothesis is needed. Once a created network has vanished, an edit that names a user's
      network makes the controller adopt it with the created mark still set... */
  lemma EditAdoptsUnderCreatedMark(f: Oracle, sp: Spec, w: World, users: Id)
    requires w.st.finalizer && w.st.networkCreated && w.st.networkId == UNSET
    requires sp.network.Some? && sp.network.value.privateId == users && users != UNSET && users in w.c.networks
    requires Up(f, w) && f(w.n + 1).outcome.Ok?
    ensures var w' := ReconcileNetwork(f, sp, Called(w)).1;
            w'.st.networkId == users && w'.st.networkCreated
  {
  }

  // A run that ends with the user's network deleted: every call is answered, and the created network
  // vanishes once.

  const USERS: Id := 1
  const OURS: Id := 2

  function AllOk(): Oracle { (n: nat) => Reply(Ok, 0, "") }

  function NamingNetwork(id: Id): Spec {
    Spec("a", Some(NetworkConfig(id, false)), UNSET, UNSET, UNSET, false, [], false, false)
  }

  /** Only the user's network exists, and the object has its finalizer and nothing else. */
  const START := World(
    Cloud(2, map[USERS := Network(0, USERS, [])], [], [], [], [], [], [], [], []),
    Status(true, false, "", UNSET, false, UNSET, UNSET, UNSET, UNSET, UNSET, UNSET, UNSET, UNSET, false, map[], UNSET),
    0, [], {})

  lemma CreatesNetwork()
    ensures var w := Act(START, Normal(NamingNetwork(UNSET), AllOk(), true));
            && w.st == START.st.(networkId := OURS, networkCreated := true) && w.log == [Posted(NetworkKind, OURS)]
            && w.c == START.c.(next := 3, networks := START.c.networks[OURS := Network(0, OURS, [])])
  {
    hide ReconcileGroups, ReconcileLb;
    var sp, f, w0 := NamingNetwork(UNSET), AllOk(), Called(START);
    var (ok, w1) := EnsureNetwork(f, sp.network.value, w0);
    var (ph, w2) := ReconcileNetwork(f, sp, w0);
    assert ph.Done? && w2.st == w1.st && w2.c == w1.c && w2.log == w1.log == [Posted(NetworkKind, OURS)];
    assert ReconcileGroups(f, sp, w2) == w2 && ReconcileLb(f, sp, w2).1.st == w2.st by { NoLbWithoutSubnet(f, sp, w2); }
    NoLbWithoutSubnet(f, sp, w2);
  }

  /** Without a subnet nothing is created after the network step, and the pass fails. */
  lemma NoLbWithoutSubnet(f: Oracle, sp: Spec, w: World)
    requires sp.groups == [] && sp.lbSubnetId == UNSET && sp.existingLb == UNSET && sp.existingFip == UNSET
    requires w.st.subnetId == UNSET && w.st.lbId == UNSET
    ensures ReconcileGroups(f, sp, w) == w && ReconcileLb(f, sp, w) == (Error, Called(w))
  {
    assert Adopt(sp, w.st) == w.st;
  }

  lemma ClearsNetwork(w: World, c: Cloud)
    requires w.st == START.st.(networkId := OURS, networkCreated := true) && w.c == c && OURS !in c.networks
    ensures var w' := Act(w, Normal(NamingNetwork(UNSET), AllOk(), true));
            w'.st == START.st.(networkCreated := true) && w'.c == c && w'.log == w.log
  {
  }

  lemma AdoptsUsers(w: World)
    requires w.st == START.st.(networkCreated := true) && w.c == START.c.(next := 3)
    ensures var w' := Act(w, Normal(NamingNetwork(USERS), AllOk(), true));
            w'.st == START.st.(networkId := USERS, networkCreated := true) && w'.c == w.c && w'.log == w.log
  {
    hide ReconcileGroups, ReconcileLb;
    var sp, f := NamingNetwork(USERS), AllOk();
    var (ph, w2) := ReconcileNetwork(f, sp, Called(w));
    assert ph.Done? && w2.st == START.st.(networkId := USERS, networkCreated := true) && w2.c == w.c;
    NoLbWithoutSubnet(f, sp, w2);
  }

  lemma DeletesUsers(w: World)
    requires w.st == START.st.(networkId := USERS, networkCreated := true) && w.c == START.c.(next := 3)
    ensures var w' := Act(w, Delete(NamingNetwork(USERS), AllOk(), [], true));
            w'.log == w.log + [Deleted(NetworkKind, USERS, true)] && USERS !in w'.c.networks && !w'.st.finalizer
  {
    var sp, f := NamingNetwork(USERS), AllOk();
    var (fips, ok, w1) := DeleteFront(f, sp, w, []);
    assert fips == [] && ok && w1.c == w.c && w1.st == w.st && w1.log == w.log;
    var w2 := DeleteOrphans(f, sp, w1);
    assert w2.c == w.c && w2.st == w.st && w2.log == w.log;
    var w3 := CleanGateway(f, sp, w2);
    assert w3.c == w.c && w3.st == w.st && w3.log == w.log;
    assert !InUse(w3.c, USERS);
  }

  /** The controller creates a network, the network vanishes, the record is cleared, the user names a network
      of their own, and deletion takes that one: it was never created here. */
  lemma UsersNetworkDeleted()
    ensures var w1 := Act(START, Normal(NamingNetwork(UNSET), AllOk(), true));
            var w2 := Act(w1, Other(START.c.(next := 3)));
            var w3 := Act(w2, Normal(NamingNetwork(UNSET), AllOk(), true));
            var w4 := Act(w3, Normal(NamingNetwork(USERS), AllOk(), true));
            var w5 := Act(w4, Delete(NamingNetwork(USERS), AllOk(), [], true));
            w5.log == [Posted(NetworkKind, OURS), Deleted(NetworkKind, USERS, true)] && USERS !in w5.c.networks && !w5.st.finalizer
  {
    hide ReconcileNormal, ReconcileDelete;
    CreatesNetwork();
    var w1 := Act(START, Normal(NamingNetwork(UNSET), AllOk(), true));
    var w2 := Act(w1, Other(START.c.(next := 3)));
    ClearsNetwork(w2, START.c.(next := 3));
    var w3 := Act(w2, Normal(NamingNetwork(UNSET), AllOk(), true));
    AdoptsUsers(w3);
    DeletesUsers(Act(w3, Normal(NamingNetwork(USERS), AllOk(), true)));
  }

  /** ...and a completed delete pass issues an accepted DELETE for a network that was not created
      here exactly when such a network is recorded under that mark. */
  lemma ForeignNetworkDeletedIff(f: Oracle, sp: Spec, w: World, order: seq<string>)
    requires w.st.finalizer && !sp.keep && ReconcileDelete(f, sp, w, order).0.Done?
    requires w.st.networkId != UNSET && Posted(NetworkKind, w.st.networkId) !in w.log
    ensures Deleted(NetworkKind, w.st.networkId, true) in Trace(w, ReconcileDelete(f, sp, w, order).1)
            <==> w.st.networkCreated
  {
    hide ReconcileDelete;
    FinalizerGoesIffClean(f, sp, w, order);
    if !w.st.networkCreated { NoNetworkEvent(f, sp, w, order); }
  }

  lemma NoNetworkEvent(f: Oracle, sp: Spec, w: World, order: seq<string>)
    requires !sp.keep && !w.st.networkCreated
    ensures forall e :: e in Trace(w, ReconcileDelete(f, sp, w, order).1) ==> KindOf(e) != NetworkKind
  {
    hide DeleteFront, DeleteOrphans, CleanFips, CleanGateway;
    FrontKinds(f, sp, w, order);
    var w' := ReconcileDelete(f, sp, w, order).1;
    assert Appends(w.log, w'.log, BEFORE_LB + {LbKind, FipKind, GatewayKind});
  }
}
