/** What is created without a lookup, or past a failed one: exactly when a run posts another DNS
    record, another private network, or another load balancer. */
module Repeats {
  import opened Collections
  import opened OvhCloud
  import opened ClusterSteps
  import opened ClusterDelete
  import opened ClusterRuns
  import opened Deletion
  import opened DeletionRuns
  import opened Quiescence
  import Ownership
  import Uniqueness

  // ---- A record that is set and cleared ----

  ghost predicate Kept(sets: nat -> bool, clears: nat -> bool, i: nat, n: nat) {
    i < n && sets(i) && forall j :: i < j < n ==> !clears(j)
  }

  /** What is on record after `n` steps was set by one of them and not cleared since. */
  lemma {:induction false} OnRecordIff(on: nat -> bool, sets: nat -> bool, clears: nat -> bool, n: nat)
    requires !on(0) && forall k: nat :: on(k + 1) == (sets(k) || (on(k) && !clears(k)))
    ensures on(n) <==> exists i: nat :: Kept(sets, clears, i, n)
  {
    if n > 0 {
      OnRecordIff(on, sets, clears, n - 1);
      assert on(n - 1 + 1) == (sets(n - 1) || (on(n - 1) && !clears(n - 1)));
      if sets(n - 1) { assert Kept(sets, clears, n - 1, n); }
      if on(n - 1) && !clears(n - 1) {
        var i: nat :| Kept(sets, clears, i, n - 1);
        assert Kept(sets, clears, i, n);
      }
      if i: nat :| Kept(sets, clears, i, n) {
        if i < n - 1 { assert Kept(sets, clears, i, n - 1); }
      }
    }
  }

  // ---- DNS records ----

  /** The pass created a resource of this kind. */
  ghost predicate Creates(w: World, w': World, kind: Kind) {
    w.log <= w'.log && exists id: Id :: id != UNSET && Posted(kind, id) in Trace(w, w')
  }

  /** The worlds before the DNS step of a pass that gets there. */
  function BeforeDns(f: Oracle, sp: Spec, w: World): (Phase, World) {
    ReconcileLb(f, sp, ReconcileGroups(f, sp, ReconcileNetwork(f, sp, Called(w)).1))
  }

  /** The pass reaches the DNS step with an endpoint to publish, and a POST would succeed. */
  predicate RecordDue(f: Oracle, sp: Spec, w: World) {
    && sp.dns && w.st.finalizer && Up(f, w) && ReconcileNetwork(f, sp, Called(w)).0.Done?
    && BeforeDns(f, sp, w).0.Done? && BeforeDns(f, sp, w).1.st.endpoint != "" && Up(f, BeforeDns(f, sp, w).1)
  }

  const BEFORE_DNS := {NetworkKind, SubnetKind, GroupKind, LbKind, ListenerKind, PoolKind, MonitorKind, FipKind, GatewayKind}

  lemma BeforeDnsLog(f: Oracle, sp: Spec, w: World)
    ensures var w1 := ReconcileNetwork(f, sp, Called(w)).1;
            var w3 := BeforeDns(f, sp, w).1;
            && Appends(w.log, w1.log, BEFORE_DNS) && Appends(w.log, w3.log, BEFORE_DNS)
            && w1.st.recordId == w.st.recordId && w3.st.recordId == w.st.recordId
  {
    hide ReconcileNetwork, ReconcileGroups, ReconcileLb;
    var w1 := ReconcileNetwork(f, sp, Called(w)).1;
    var w2 := ReconcileGroups(f, sp, w1);
    LbKeepsRecord(f, sp, w2);
  }

  lemma LbKeepsRecord(f: Oracle, sp: Spec, w: World)
    ensures ReconcileLb(f, sp, w).1.st.recordId == w.st.recordId
  {
    hide HandleLb, CreateLb;
  }

  /** Nothing of this kind was logged in between. */
  lemma NoneOfKind(w: World, w': World, kinds: set<Kind>, kind: Kind)
    requires Appends(w.log, w'.log, kinds) && kind !in kinds
    ensures !Creates(w, w', kind)
  {
    forall id: Id ensures Posted(kind, id) !in Trace(w, w') {
      LoggedBetween(w, w', w', w', kinds, {}, Posted(kind, id));
    }
  }

  /** A pass creates a record exactly when none is on record and one is due, and then records it. */
  lemma NormalRecords(f: Oracle, sp: Spec, w: World)
    ensures var w' := ReconcileNormal(f, sp, w).1;
            && (Creates(w, w', RecordKind) <==> w.st.recordId == UNSET && RecordDue(f, sp, w))
            && (w'.st.recordId != UNSET <==> w.st.recordId != UNSET || Creates(w, w', RecordKind))
  {
    hide ReconcileNetwork, ReconcileGroups, ReconcileLb, ReconcileDns, BeforeDns, Creates;
    BeforeDnsLog(f, sp, w);
    var w' := ReconcileNormal(f, sp, w).1;
    var (net, w1) := ReconcileNetwork(f, sp, Called(w));
    var (lb, w3) := BeforeDns(f, sp, w);
    if !w.st.finalizer || !Up(f, w) {
      SameLog(w, w', RecordKind);
    } else if !net.Done? {
      NoneOfKind(w, w', BEFORE_DNS, RecordKind);
    } else {
      assert BeforeDns(f, sp, w) == ReconcileLb(f, sp, ReconcileGroups(f, sp, w1)) by { BeforeDnsIs(f, sp, w); }
      if !lb.Done? {
        NoneOfKind(w, w', BEFORE_DNS, RecordKind);
      } else {
        DnsRecords(f, sp, w3);
        ThroughDns(w, w3, ReconcileDns(f, sp, w3), w');
      }
    }
  }

  lemma BeforeDnsIs(f: Oracle, sp: Spec, w: World)
    ensures BeforeDns(f, sp, w) == ReconcileLb(f, sp, ReconcileGroups(f, sp, ReconcileNetwork(f, sp, Called(w)).1))
  {
  }

  lemma SameLog(w: World, w': World, kind: Kind)
    requires w'.log == w.log
    ensures !Creates(w, w', kind)
  {
  }

  lemma DnsRecords(f: Oracle, sp: Spec, w: World)
    ensures var w' := ReconcileDns(f, sp, w);
            && (Creates(w, w', RecordKind) <==> sp.dns && w.st.recordId == UNSET && w.st.endpoint != "" && Up(f, w))
            && (w'.st.recordId != UNSET <==> w.st.recordId != UNSET || Creates(w, w', RecordKind))
  {
    var w' := ReconcileDns(f, sp, w);
    if sp.dns && w.st.recordId == UNSET && w.st.endpoint != "" {
      var e := Posted(RecordKind, if Up(f, w) then w.c.next else UNSET);
      assert Trace(w, w') == [e];
    } else {
      assert Trace(w, w') == [];
    }
  }

  lemma ThroughDns(w: World, w3: World, w4: World, w': World)
    requires Appends(w.log, w3.log, BEFORE_DNS) && Appends(w3.log, w4.log, {RecordKind}) && w'.log == w4.log
    ensures Creates(w, w', RecordKind) <==> Creates(w3, w4, RecordKind)
  {
    forall id: Id ensures w.log <= w'.log && (Posted(RecordKind, id) in Trace(w, w') <==> Posted(RecordKind, id) in Trace(w3, w4)) {
      LoggedBetween(w, w3, w4, w', BEFORE_DNS, {}, Posted(RecordKind, id));
    }
  }

  /** The pass had its DELETE of the recorded DNS record accepted. */
  ghost predicate DropsRecord(w: World, w': World) {
    w.log <= w'.log && w.st.recordId != UNSET && Deleted(RecordKind, w.st.recordId, true) in Trace(w, w')
  }

  const AFTER_DNS := {GroupKind, PoolKind, ListenerKind, LbKind, FipKind, GatewayKind, NetworkKind}

  lemma AfterDnsLog(f: Oracle, sp: Spec, w: World, order: seq<string>)
    requires !sp.keep
    ensures var w0, w' := CleanDns(f, sp, w), ReconcileDelete(f, sp, w, order).1;
            Appends(w0.log, w'.log, AFTER_DNS) && w'.st.recordId == w0.st.recordId
  {
    hide CleanDns, CleanGroups, CaptureFips, DeleteRecordedLb, DeleteOrphans, CleanFips, CleanGateway, CleanNetwork;
    var w0 := CleanDns(f, sp, w);
    var w1 := CleanGroups(f, w0, order);
    var (fips, w2) := CaptureFips(f, w1);
    var (ok, w3) := DeleteRecordedLb(f, w2);
    assert Appends(w0.log, w3.log, AFTER_DNS);
    var w4 := DeleteOrphans(f, sp, w3);
    var (again, w5) := CleanFips(f, w4, fips);
    assert Appends(w0.log, w5.log, AFTER_DNS);
    var w6 := CleanGateway(f, sp, w5);
    assert Appends(w0.log, CleanNetwork(f, w6).1.log, AFTER_DNS);
  }

  lemma CleanDnsDrops(f: Oracle, sp: Spec, w: World)
    ensures var w' := CleanDns(f, sp, w);
            && w.log <= w'.log && (forall id: Id :: Posted(RecordKind, id) !in Trace(w, w'))
            && (w'.st.recordId != UNSET <==> w.st.recordId != UNSET && !DropsRecord(w, w'))
  {
    var w' := CleanDns(f, sp, w);
    if w.st.recordId != UNSET && sp.dns {
      var ok := DeleteRecord(f, w, w.st.recordId).0;
      assert Trace(w, w') == [Deleted(RecordKind, w.st.recordId, ok)];
    } else {
      assert Trace(w, w') == [];
    }
  }

  /** A delete pass creates no record, and forgets the recorded one exactly when its DELETE was accepted. */
  lemma DeleteRecords(f: Oracle, sp: Spec, w: World, order: seq<string>)
    ensures var w' := ReconcileDelete(f, sp, w, order).1;
            && !Creates(w, w', RecordKind)
            && (w'.st.recordId != UNSET <==> w.st.recordId != UNSET && !DropsRecord(w, w'))
  {
    hide CleanDns;
    var w' := ReconcileDelete(f, sp, w, order).1;
    if sp.keep {
      assert w' == RemoveFinalizer(w) by { KeepOnlyRemoves(f, sp, w, order); }
      assert Trace(w, w') == [];
    } else {
      hide ReconcileDelete;
      var w0 := CleanDns(f, sp, w);
      CleanDnsDrops(f, sp, w);
      AfterDnsLog(f, sp, w, order);
      forall e | KindOf(e) == RecordKind ensures w.log <= w'.log && (e in Trace(w, w') <==> e in Trace(w, w0)) {
        LoggedBetween(w, w, w0, w', {}, AFTER_DNS, e);
      }
      assert w.log <= w'.log && KindOf(Deleted(RecordKind, w.st.recordId, true)) == RecordKind;
      forall id: Id ensures Posted(RecordKind, id) !in Trace(w, w') { assert KindOf(Posted(RecordKind, id)) == RecordKind; }
    }
  }

  // ---- Another record in a run ----

  /** Step `k` is a pass that creates a DNS record. */
  ghost predicate PostsRecord(ws: nat -> World, acts: nat -> Action, k: nat) {
    acts(k).Normal? && Creates(ws(k), ws(k + 1), RecordKind)
  }

  /** ...whose patch is saved. */
  ghost predicate RecordSaved(ws: nat -> World, acts: nat -> Action, k: nat) { PostsRecord(ws, acts, k) && acts(k).saved }

  /** Step `k` is a saved delete pass that had the recorded record deleted. */
  ghost predicate RecordDropped(ws: nat -> World, acts: nat -> Action, k: nat) {
    acts(k).Delete? && acts(k).saved && DropsRecord(ws(k), ws(k + 1))
  }

  lemma RecordStep(ws: nat -> World, acts: nat -> Action, k: nat)
    requires Steps(ws, acts, k)
    ensures ws(k + 1).st.recordId != UNSET
            <==> RecordSaved(ws, acts, k) || (ws(k).st.recordId != UNSET && !RecordDropped(ws, acts, k))
    ensures PostsRecord(ws, acts, k) <==> acts(k).Normal? && ws(k).st.recordId == UNSET && RecordDue(acts(k).f, acts(k).sp, ws(k))
  {
    hide ReconcileNormal, ReconcileDelete, RecordDue, Creates, DropsRecord;
    match acts(k)
    case Normal(sp, f, saved) =>
      NormalRecords(f, sp, ws(k));
      CreatesByLog(ws(k), ReconcileNormal(f, sp, ws(k)).1, ws(k + 1));
    case Delete(sp, f, order, saved) =>
      DeleteRecords(f, sp, ws(k), order);
      DropsByLog(ws(k), ReconcileDelete(f, sp, ws(k), order).1, ws(k + 1));
    case Other(c) =>
  }

  lemma CreatesByLog(w: World, a: World, b: World)
    requires a.log == b.log
    ensures forall kind :: Creates(w, a, kind) <==> Creates(w, b, kind)
  {
  }

  lemma DropsByLog(w: World, a: World, b: World)
    requires a.log == b.log
    ensures DropsRecord(w, a) <==> DropsRecord(w, b)
  {
  }

  /** In every run that starts without a record, a pass posts one exactly when it gets to the DNS step
      and every record posted before was lost with its patch or dropped since: the lookup-free
      creation is repeated after each lost patch. */
  lemma RecordPostedIff(ws: nat -> World, acts: nat -> Action, n: nat)
    requires ws(0).st.recordId == UNSET && forall k: nat :: Steps(ws, acts, k)
    ensures PostsRecord(ws, acts, n)
            <==> acts(n).Normal? && RecordDue(acts(n).f, acts(n).sp, ws(n))
                 && forall i :: 0 <= i < n && RecordSaved(ws, acts, i) ==> exists j :: i < j < n && RecordDropped(ws, acts, j)
  {
    hide RecordDue, PostsRecord, RecordDropped, Steps;
    var on, sets, clears := (k: nat) => ws(k).st.recordId != UNSET, (k: nat) => RecordSaved(ws, acts, k), (k: nat) => RecordDropped(ws, acts, k);
    forall k: nat ensures on(k + 1) == (sets(k) || (on(k) && !clears(k))) {
      hide RecordSaved;
      assert Steps(ws, acts, k);
      RecordStep(ws, acts, k);
    }
    hide RecordSaved;
    assert Steps(ws, acts, n);
    RecordStep(ws, acts, n);
    OnRecordIff(on, sets, clears, n);
    if forall i :: 0 <= i < n && RecordSaved(ws, acts, i) ==> exists j :: i < j < n && RecordDropped(ws, acts, j) {
      forall i: nat ensures !Kept(sets, clears, i, n) {
        if i < n && sets(i) {
          var j :| i < j < n && RecordDropped(ws, acts, j);
          assert clears(j);
        }
      }
    }
    if on(n) == false {
      forall i | 0 <= i < n && RecordSaved(ws, acts, i) ensures exists j :: i < j < n && RecordDropped(ws, acts, j) {
        assert sets(i) && !Kept(sets, clears, i, n);
      }
    }
  }

  // ---- Two records for one name ----

  /** Everything is settled but the record, which is due. */
  ghost predicate OnlyRecordMissing(sp: Spec, w: World) {
    && w.st.finalizer && sp.dns && w.st.endpoint != "" && w.st.recordId == UNSET
    && NetworkSettled(sp, w.c, w.st) && GroupsSettled(sp, w.st) && LbSettled(sp, w.c, w.st)
  }

  lemma PassPostsRecord(f: Oracle, sp: Spec, w: World)
    requires ErrorFree(f) && OnlyRecordMissing(sp, w)
    ensures var w' := ReconcileNormal(f, sp, w).1;
            && w'.c == w.c.(next := w.c.next + 1, records := w.c.records + [w.c.next])
            && w'.st == w.st.(recordId := w.c.next, ready := true)
  {
    hide ReconcileNetwork, EnsureGroups, ReconcileLb, NetworkSettled, LbSettled;
    assert Up(f, w) && ErrorFree(f);
    NetworkQuiet(f, sp, Called(w));
    var w1 := ReconcileNetwork(f, sp, Called(w)).1;
    GroupsQuiet(f, sp, Called(w1), w1.c.groups, sp.groups);
    var w2 := ReconcileGroups(f, sp, w1);
    assert Untouched(w, w2);
    LbQuiet(f, sp, w2);
  }

  /** An error-free pass whose patch is lost and the next one both create a record: two exist, one of
      them on record, and a deletion will take that one only. */
  lemma LostRecordPostedAgain(f: Oracle, f2: Oracle, sp: Spec, w: World)
    requires ErrorFree(f) && ErrorFree(f2) && OnlyRecordMissing(sp, w)
    ensures var w1 := Act(w, Normal(sp, f, false));
            var w2 := Act(w1, Normal(sp, f2, true));
            && w1.st == w.st && w2.c.records == w.c.records + [w.c.next, w.c.next + 1]
            && w2.st.recordId == w.c.next + 1
  {
    hide ReconcileNormal, OnlyRecordMissing;
    PassPostsRecord(f, sp, w);
    var w1 := Act(w, Normal(sp, f, false));
    StillMissing(sp, w, w1);
    PassPostsRecord(f2, sp, w1);
  }

  lemma StillMissing(sp: Spec, w: World, w1: World)
    requires OnlyRecordMissing(sp, w) && w1.st == w.st
    requires w1.c == w.c.(next := w1.c.next, records := w1.c.records)
    ensures OnlyRecordMissing(sp, w1)
  {
  }

  // ---- Networks ----

  /** The pass gets to the network step of a cluster that names no network of its own, and a POST there
      would succeed. */
  predicate NetworkDue(f: Oracle, sp: Spec, w: World) {
    && w.st.finalizer && Up(f, w) && sp.network.Some? && sp.network.value.privateId == UNSET && Up(f, Called(w))
  }

  /** The pass takes over the network the user names. */
  predicate AdoptsNetwork(f: Oracle, sp: Spec, w: World) {
    && w.st.finalizer && Up(f, w) && sp.network.Some? && sp.network.value.privateId != UNSET && w.st.networkId == UNSET
  }

  /** The network step has a network to ask for, and the answer is classified as 404. */
  predicate NetworkLost(f: Oracle, sp: Spec, w: World) {
    && w.st.finalizer && Up(f, w) && sp.network.Some?
    && var (ok, w1) := EnsureNetwork(f, sp.network.value, Called(w));
       ok && Answer(f, w1, if w1.st.networkId in w1.c.networks then Some(w1.c.networks[w1.st.networkId]) else None).Absent?
  }

  const AFTER_NETWORK := {SubnetKind, GroupKind, LbKind, ListenerKind, PoolKind, MonitorKind, FipKind, GatewayKind, RecordKind}

  lemma EnsureNetworkCreates(f: Oracle, cfg: NetworkConfig, w: World)
    ensures var (ok, w1) := EnsureNetwork(f, cfg, w);
            && (Creates(w, w1, NetworkKind) <==> w.st.networkId == UNSET && cfg.privateId == UNSET && Up(f, w))
            && (ok <==> w1.st.networkId != UNSET)
            && (ok <==> w.st.networkId != UNSET || cfg.privateId != UNSET || Creates(w, w1, NetworkKind))
  {
    var (ok, w1) := EnsureNetwork(f, cfg, w);
    if w.st.networkId == UNSET && cfg.privateId == UNSET {
      assert Trace(w, w1) == [Posted(NetworkKind, if Up(f, w) then w.c.next else UNSET)];
    } else {
      assert Trace(w, w1) == [];
    }
  }

  /** What the network step leaves on record, and what it logs after the network itself. */
  lemma NetworkStepRest(f: Oracle, sp: Spec, cfg: NetworkConfig, w: World)
    requires sp.network == Some(cfg)
    ensures var (ok, w1) := EnsureNetwork(f, cfg, w);
            var w' := ReconcileNetwork(f, sp, w).1;
            var got := Answer(f, w1, if w1.st.networkId in w1.c.networks then Some(w1.c.networks[w1.st.networkId]) else None);
            && Appends(w1.log, w'.log, {SubnetKind})
            && w'.st.networkId == if ok && got.Absent? then UNSET else w1.st.networkId
  {
    hide EnsureNetwork, EnsureSubnet;
  }

  lemma PassAfterNetwork(f: Oracle, sp: Spec, w: World)
    requires w.st.finalizer && Up(f, w)
    ensures var w1, w' := ReconcileNetwork(f, sp, Called(w)).1, ReconcileNormal(f, sp, w).1;
            Appends(w1.log, w'.log, AFTER_NETWORK) && w'.st.networkId == w1.st.networkId
  {
    hide ReconcileNetwork, ReconcileGroups, ReconcileLb, ReconcileDns;
    var w1 := ReconcileNetwork(f, sp, Called(w)).1;
    var w2 := ReconcileGroups(f, sp, w1);
    Ownership.LbKeepsNetwork(f, sp, w2);
  }

  /** A pass creates a network exactly when none is on record and one is due. What is on record after
      it is what it had, created or adopted, unless the network step was answered 404. */
  lemma NormalNetworks(f: Oracle, sp: Spec, w: World)
    ensures var w' := ReconcileNormal(f, sp, w).1;
            && (Creates(w, w', NetworkKind) <==> w.st.networkId == UNSET && NetworkDue(f, sp, w))
            && (w'.st.networkId != UNSET
                <==> !NetworkLost(f, sp, w)
                     && (w.st.networkId != UNSET || Creates(w, w', NetworkKind) || AdoptsNetwork(f, sp, w)))
  {
    hide ReconcileNetwork, ReconcileNormal, EnsureNetwork, Creates;
    var w' := ReconcileNormal(f, sp, w).1;
    if !w.st.finalizer || !Up(f, w) {
      StoppedEarly(f, sp, w);
      SameLog(w, w', NetworkKind);
    } else {
      PassAfterNetwork(f, sp, w);
      var w0 := Called(w);
      var w2 := ReconcileNetwork(f, sp, w0).1;
      if sp.network.None? {
        NoNetworkStep(f, sp, w0);
        NoneOfKind(w, w', AFTER_NETWORK, NetworkKind);
      } else {
        var cfg := sp.network.value;
        EnsureNetworkCreates(f, cfg, w0);
        NetworkStepRest(f, sp, cfg, w0);
        var w1 := EnsureNetwork(f, cfg, w0).1;
        assert Appends(w1.log, w'.log, AFTER_NETWORK);
        ThroughNetwork(w, w0, w1, w', AFTER_NETWORK);
      }
    }
  }

  lemma StoppedEarly(f: Oracle, sp: Spec, w: World)
    requires !w.st.finalizer || !Up(f, w)
    ensures var w' := ReconcileNormal(f, sp, w).1; w'.log == w.log && w'.st.networkId == w.st.networkId
  {
  }

  lemma NoNetworkStep(f: Oracle, sp: Spec, w: World)
    requires sp.network.None?
    ensures ReconcileNetwork(f, sp, w).1 == w
  {
  }

  lemma ThroughNetwork(w: World, w0: World, w1: World, w': World, kinds: set<Kind>)
    requires w0.log == w.log && w0.log <= w1.log && Appends(w1.log, w'.log, kinds) && NetworkKind !in kinds
    ensures Creates(w, w', NetworkKind) <==> Creates(w0, w1, NetworkKind)
  {
    forall id: Id ensures w.log <= w'.log && (Posted(NetworkKind, id) in Trace(w, w') <==> Posted(NetworkKind, id) in Trace(w0, w1)) {
      LoggedBetween(w, w0, w1, w', {}, kinds, Posted(NetworkKind, id));
    }
  }

  lemma DeleteNetworks(f: Oracle, sp: Spec, w: World, order: seq<string>)
    ensures ReconcileDelete(f, sp, w, order).1.st.networkId == w.st.networkId
  {
    hide ReconcileDelete;
  }

  // ---- Another network in a run ----

  ghost predicate PostsNetwork(ws: nat -> World, acts: nat -> Action, k: nat) {
    acts(k).Normal? && Creates(ws(k), ws(k + 1), NetworkKind)
  }

  /** Step `k` is a saved pass that created or adopted a network and found it there. */
  ghost predicate NetworkSaved(ws: nat -> World, acts: nat -> Action, k: nat) {
    && acts(k).Normal? && acts(k).saved && !NetworkLost(acts(k).f, acts(k).sp, ws(k))
    && (PostsNetwork(ws, acts, k) || AdoptsNetwork(acts(k).f, acts(k).sp, ws(k)))
  }

  /** Step `k` is a saved pass that cleared the record because the network was answered 404. */
  ghost predicate NetworkCleared(ws: nat -> World, acts: nat -> Action, k: nat) {
    acts(k).Normal? && acts(k).saved && NetworkLost(acts(k).f, acts(k).sp, ws(k))
  }

  lemma NetworkStep(ws: nat -> World, acts: nat -> Action, k: nat)
    requires Steps(ws, acts, k)
    ensures ws(k + 1).st.networkId != UNSET
            <==> NetworkSaved(ws, acts, k) || (ws(k).st.networkId != UNSET && !NetworkCleared(ws, acts, k))
    ensures PostsNetwork(ws, acts, k) <==> acts(k).Normal? && ws(k).st.networkId == UNSET && NetworkDue(acts(k).f, acts(k).sp, ws(k))
  {
    hide ReconcileNormal, ReconcileDelete, Creates, NetworkLost;
    match acts(k)
    case Normal(sp, f, saved) =>
      NormalNetworks(f, sp, ws(k));
      CreatesByLog(ws(k), ReconcileNormal(f, sp, ws(k)).1, ws(k + 1));
    case Delete(sp, f, order, saved) => DeleteNetworks(f, sp, ws(k), order);
    case Other(c) =>
  }

  /** In every run that starts without a network, a pass posts one exactly when the cluster names none
      and every network created or adopted before was lost with its patch or has been cleared on a
      404 since. */
  lemma NetworkPostedIff(ws: nat -> World, acts: nat -> Action, n: nat)
    requires ws(0).st.networkId == UNSET && forall k: nat :: Steps(ws, acts, k)
    ensures PostsNetwork(ws, acts, n)
            <==> acts(n).Normal? && NetworkDue(acts(n).f, acts(n).sp, ws(n))
                 && forall i :: 0 <= i < n && NetworkSaved(ws, acts, i) ==> exists j :: i < j < n && NetworkCleared(ws, acts, j)
  {
    hide NetworkDue, PostsNetwork, NetworkCleared, Steps;
    var on, sets, clears := (k: nat) => ws(k).st.networkId != UNSET, (k: nat) => NetworkSaved(ws, acts, k), (k: nat) => NetworkCleared(ws, acts, k);
    hide NetworkSaved;
    forall k: nat ensures on(k + 1) == (sets(k) || (on(k) && !clears(k))) {
      assert Steps(ws, acts, k);
      NetworkStep(ws, acts, k);
    }
    assert Steps(ws, acts, n);
    NetworkStep(ws, acts, n);
    OnRecordIff(on, sets, clears, n);
    if forall i :: 0 <= i < n && NetworkSaved(ws, acts, i) ==> exists j :: i < j < n && NetworkCleared(ws, acts, j) {
      forall i: nat ensures !Kept(sets, clears, i, n) {
        if i < n && sets(i) {
          var j :| i < j < n && NetworkCleared(ws, acts, j);
          assert clears(j);
        }
      }
    }
    if on(n) == false {
      forall i | 0 <= i < n && NetworkSaved(ws, acts, i) ensures exists j :: i < j < n && NetworkCleared(ws, acts, j) {
        assert sets(i) && !Kept(sets, clears, i, n);
      }
    }
  }

  // ---- Another load balancer ----

  /** Creation posts a load balancer exactly when the POST goes through and the lookup before it failed,
      or showed none of the name. */
  lemma LbPostedIff(f: Oracle, w: World, name: string, net: Id)
    ensures Creates(w, FindOrPostLb(f, w, name, net).1, LbKind)
            <==> Answered(f, w.n + 1) && !Uniqueness.Finds(f, w.n, w.c, name)
  {
    hide PollLb, Uniqueness.Finds;
    var (ok, w1) := ListLbs(f, w);
    var w' := FindOrPostLb(f, w, name, net).1;
    Uniqueness.FindsIff(f, w, name);
    if ok && VisibleLbByName(w1.c, name).Some? {
      assert Trace(w, w') == [];
    } else {
      PostLogged(f, w1, name, net);
      var (id, w2) := PostLb(f, w1, name, net);
      assert w'.log == w2.log && w1.log == w.log && w1.n == w.n + 1;
      assert Trace(w, w') == [Posted(LbKind, id)];
    }
  }

  /** So while one of the name exists, a second is posted exactly past a failed lookup, or one answered while
      none showed yet. */
  lemma SecondLbPostedIff(f: Oracle, w: World, name: string, net: Id)
    requires exists x :: x in w.c.lbs && x.name == name
    ensures Creates(w, FindOrPostLb(f, w, name, net).1, LbKind)
            <==> Answered(f, w.n + 1) && !f(w.n).outcome.Ok? && !(f(w.n).outcome.Late? && Uniqueness.Shown(w.c, name))
  {
    hide Creates, FindOrPostLb;
    LbPostedIff(f, w, name, net);
    CountZero(w.c.lbs, Uniqueness.WithName(name));
  }

  lemma PostLogged(f: Oracle, w: World, name: string, net: Id)
    ensures var (id, w2) := PostLb(f, w, name, net); w2.log == w.log + [Posted(LbKind, id)] && (id != UNSET <==> Up(f, w))
  {
  }
}
