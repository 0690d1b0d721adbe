/** What best-effort cleanup leaves: a failed DELETE of the DNS record, a security group or the gateway
    is only logged, and the finalizer goes all the same. */
module BestEffort {
  import opened Collections
  import opened OvhCloud
  import opened ClusterSteps
  import opened ClusterDelete
  import opened ClusterRuns
  import opened Deletion
  import opened DeletionRuns

  // ---- The DNS record ----

  /** The DELETE of this record, the first call of the pass, goes through. */
  predicate RecordDeleted(f: Oracle, sp: Spec, w: World, id: Id) {
    sp.dns && id != UNSET && id == w.st.recordId && Answered(f, w.n)
  }

  lemma CleanDnsLeaves(f: Oracle, sp: Spec, w: World)
    ensures forall id: Id :: id in CleanDns(f, sp, w).c.records <==> id in w.c.records && !RecordDeleted(f, sp, w, id)
  {
  }

  // ---- Security groups ----

  /** A map is iterated over key by key, in some order. */
  ghost predicate Visits(st: Status, order: seq<string>) {
    && (forall g :: g in order <==> g in st.groupIds)
    && forall i, j :: 0 <= i < j < |order| ==> order[i] != order[j]
  }

  ghost predicate OnRecordOnce(st: Status, order: seq<string>) {
    && (forall i :: 0 <= i < |order| ==> order[i] in st.groupIds)
    && forall i, j :: 0 <= i < j < |order| ==> order[i] != order[j]
  }

  function IdsInOrder(st: Status, order: seq<string>): (r: seq<Id>)
    requires OnRecordOnce(st, order)
    ensures |r| == |order|
  {
    seq(|order|, i requires 0 <= i < |order| => st.groupIds[order[i]])
  }

  lemma {:induction false} CleanGroupsLeaves(f: Oracle, w: World, order: seq<string>)
    requires OnRecordOnce(w.st, order)
    ensures forall x :: x in CleanGroups(f, w, order).c.groups
              <==> x in w.c.groups && !Reached(f, w.n, IdsInOrder(w.st, order), x.id)
    decreases |order|
  {
    hide Reached, Answered;
    if order == [] {
      forall id ensures !Reached(f, w.n, [], id) { NoneReached(f, w.n, id); }
      assert IdsInOrder(w.st, order) == [];
    } else {
      var id, rest := w.st.groupIds[order[0]], order[1..];
      var (ok, w1) := DeleteGroup(f, w, id);
      var w2 := if ok then w1.(st := w1.st.(groupIds := w1.st.groupIds - {order[0]})) else w1;
      assert w1.n == w.n + 1 && w1.st == w.st;
      assert forall x :: x in w2.c.groups <==> x in w.c.groups && !(Answered(f, w.n) && x.id == id);
      hide DeleteGroup;
      assert OnRecordOnce(w2.st, rest) by { assert forall i :: 0 <= i < |rest| ==> rest[i] == order[i + 1]; }
      CleanGroupsLeaves(f, w2, rest);
      assert IdsInOrder(w.st, order) == [id] + IdsInOrder(w2.st, rest);
      FirstReached(f, w.n, id, IdsInOrder(w2.st, rest));
    }
  }

  lemma NoneReached(f: Oracle, base: nat, id: Id)
    ensures !Reached(f, base, [], id)
  {
  }

  lemma FirstReached(f: Oracle, base: nat, first: Id, rest: seq<Id>)
    ensures forall id :: Reached(f, base, [first] + rest, id) <==> (Answered(f, base) && id == first) || Reached(f, base + 1, rest, id)
  {
    var ids := [first] + rest;
    forall id ensures Reached(f, base, ids, id) <==> (Answered(f, base) && id == first) || Reached(f, base + 1, rest, id) {
      assert Accepts(f, base, 0) == Answered(f, base) && ids[0] == first;
      forall j | 0 <= j < |rest| ensures ids[j + 1] == rest[j] && Accepts(f, base, j + 1) == Accepts(f, base + 1, j) { }
      if j :| 0 <= j < |ids| && ids[j] == id && Accepts(f, base, j) {
        if j > 0 { assert rest[j - 1] == id && Accepts(f, base + 1, j - 1); }
      }
    }
  }

  // ---- The gateway ----

  /** The world in which gateways are listed. */
  function AtGateway(f: Oracle, sp: Spec, w: World, order: seq<string>): World {
    var (fips, ok, w1) := DeleteFront(f, sp, w, order);
    CleanFips(f, DeleteOrphans(f, sp, w1), fips).1
  }

  /** The listing, call number `n`, and the DELETE that follows go through, and this is the gateway it is for:
      the first of the cluster's name. */
  predicate GatewayDeleted(f: Oracle, sp: Spec, c: Cloud, n: nat, id: Id) {
    && Answered(f, n) && Answered(f, n + 1)
    && GatewayByName(c, GatewayName(sp)).Some? && GatewayByName(c, GatewayName(sp)).value.id == id
  }

  lemma CleanGatewayLeaves(f: Oracle, sp: Spec, w: World, k: nat)
    requires k < |w.c.gateways|
    ensures var gws := CleanGateway(f, sp, w).c.gateways;
            && |gws| == |w.c.gateways| && gws[k].id == w.c.gateways[k].id && gws[k].name == w.c.gateways[k].name
            && (gws[k].deleting <==> w.c.gateways[k].deleting || GatewayDeleted(f, sp, w.c, w.n, w.c.gateways[k].id))
  {
    hide GatewayByName, GatewayName;
    assert GatewayByName(Called(w).c, GatewayName(sp)) == GatewayByName(w.c, GatewayName(sp));
  }

  lemma SameGateways(f: Oracle, sp: Spec, c: Cloud, c': Cloud, n: nat)
    requires c'.gateways == c.gateways
    ensures forall id :: GatewayDeleted(f, sp, c', n, id) <==> GatewayDeleted(f, sp, c, n, id)
  {
  }

  // ---- A completed pass ----

  ghost predicate RecordsLeft(f: Oracle, sp: Spec, w: World, w': World) {
    forall id: Id :: id in w'.c.records <==> id in w.c.records && !RecordDeleted(f, sp, w, id)
  }

  ghost predicate GroupsLeft(f: Oracle, sp: Spec, w: World, w': World, order: seq<string>)
    requires OnRecordOnce(w.st, order)
  {
    forall x :: x in w'.c.groups <==>
      x in w.c.groups && !Reached(f, CleanDns(f, sp, w).n, IdsInOrder(w.st, order), x.id)
  }

  ghost predicate GatewaysLeft(f: Oracle, sp: Spec, w: World, w': World, order: seq<string>) {
    && |w'.c.gateways| == |w.c.gateways|
    && forall k :: 0 <= k < |w.c.gateways| ==>
         var x, y := w.c.gateways[k], w'.c.gateways[k];
         && y.id == x.id && y.name == x.name
         && (y.deleting <==> x.deleting || GatewayDeleted(f, sp, w.c, AtGateway(f, sp, w, order).n, x.id))
  }

  lemma RecordsLeftIff(f: Oracle, sp: Spec, w: World, order: seq<string>)
    requires !sp.keep
    ensures RecordsLeft(f, sp, w, ReconcileDelete(f, sp, w, order).1)
  {
    hide CleanDns, CleanGroups, CaptureFips, DeleteRecordedLb, DeleteOrphans, CleanFips, CleanGateway, CleanNetwork;
    CleanDnsLeaves(f, sp, w);
  }

  lemma GroupsLeftIff(f: Oracle, sp: Spec, w: World, order: seq<string>)
    requires !sp.keep && OnRecordOnce(w.st, order)
    ensures GroupsLeft(f, sp, w, ReconcileDelete(f, sp, w, order).1, order)
  {
    hide CleanDns, CleanGroups, CaptureFips, DeleteRecordedLb, DeleteOrphans, CleanFips, CleanGateway, CleanNetwork, Reached;
    CleanGroupsLeaves(f, CleanDns(f, sp, w), order);
  }

  lemma GatewaysLeftIff(f: Oracle, sp: Spec, w: World, order: seq<string>)
    requires !sp.keep && ReconcileDelete(f, sp, w, order).0.Done?
    ensures GatewaysLeft(f, sp, w, ReconcileDelete(f, sp, w, order).1, order)
  {
    hide DeleteFront, DeleteOrphans, CleanFips, CleanGateway, CleanNetwork, GatewayDeleted;
    FrontKeepsGateways(f, sp, w, order);
    var w5 := AtGateway(f, sp, w, order);
    assert w5.c.gateways == w.c.gateways;
    SameGateways(f, sp, w.c, w5.c, w5.n);
    GatewayCount(f, sp, w5);
    forall k | 0 <= k < |w.c.gateways|
      ensures var x, y := w.c.gateways[k], CleanGateway(f, sp, w5).c.gateways[k];
              y.id == x.id && y.name == x.name && (y.deleting <==> x.deleting || GatewayDeleted(f, sp, w.c, w5.n, x.id))
    {
      CleanGatewayLeaves(f, sp, w5, k);
    }
  }

  lemma FrontKeepsGateways(f: Oracle, sp: Spec, w: World, order: seq<string>)
    ensures DeleteFront(f, sp, w, order).2.c.gateways == w.c.gateways
  {
    hide CleanDns, CleanGroups, CaptureFips, DeleteRecordedLb;
  }

  lemma GatewayCount(f: Oracle, sp: Spec, w: World)
    ensures |CleanGateway(f, sp, w).c.gateways| == |w.c.gateways|
  {
  }

  // ---- The recorded load balancer's pool and listener, and the created network ----

  /** The world in which the recorded load balancer's parts are deleted: the pool with the next call, then
      the listener. */
  function AtParts(f: Oracle, sp: Spec, w: World, order: seq<string>): World {
    CaptureFips(f, CleanGroups(f, CleanDns(f, sp, w), order)).1
  }

  /** The DELETE of this pool, the API server port's on record, goes through. */
  predicate PoolDeleted(f: Oracle, sp: Spec, w: World, order: seq<string>, id: Id) {
    w.st.lbId != UNSET && w.st.poolId != UNSET && id == w.st.poolId && Answered(f, AtParts(f, sp, w, order).n)
  }

  /** The same for the listener. */
  predicate ListenerDeleted(f: Oracle, sp: Spec, w: World, order: seq<string>, id: Id) {
    && w.st.lbId != UNSET && w.st.listenerId != UNSET && id == w.st.listenerId
    && Answered(f, AtParts(f, sp, w, order).n + if w.st.poolId != UNSET then 1 else 0)
  }

  ghost predicate PartsLeft(f: Oracle, sp: Spec, w: World, w': World, order: seq<string>) {
    && (forall x :: x in w'.c.pools <==> x in w.c.pools && !PoolDeleted(f, sp, w, order, x.id))
    && (forall x :: x in w'.c.listeners <==> x in w.c.listeners && !ListenerDeleted(f, sp, w, order, x.id))
    && w'.c.monitors == w.c.monitors
  }

  /** Every delete pass, completed or not, removes exactly the recorded API server pool and listener, each if its
      own DELETE goes through: the supervisor pair and everybody else's stay, and so do all health monitors. */
  lemma PartsLeftIff(f: Oracle, sp: Spec, w: World, order: seq<string>)
    requires !sp.keep
    ensures PartsLeft(f, sp, w, ReconcileDelete(f, sp, w, order).1, order)
  {
    hide CleanDns, CleanGroups, CaptureFips, DeleteRecordedLb, DeleteOrphans, CleanFips, CleanGateway, CleanNetwork;
    var w2 := AtParts(f, sp, w, order);
    RecordedPartsLeft(f, w2);
    assert w2.c.pools == w.c.pools && w2.c.listeners == w.c.listeners && w2.st.poolId == w.st.poolId
           && w2.st.listenerId == w.st.listenerId && w2.st.lbId == w.st.lbId;
  }

  lemma RecordedPartsLeft(f: Oracle, w: World)
    ensures var c', st := DeleteRecordedLb(f, w).1.c, w.st;
            && (forall x :: x in c'.pools <==>
                  x in w.c.pools && !(st.lbId != UNSET && st.poolId != UNSET && x.id == st.poolId && Answered(f, w.n)))
            && (forall x :: x in c'.listeners <==>
                  x in w.c.listeners && !(st.lbId != UNSET && st.listenerId != UNSET && x.id == st.listenerId
                                          && Answered(f, w.n + if st.poolId != UNSET then 1 else 0)))
  {
    hide DeleteLb, DeletePool, DeleteListener;
    var w1 := if w.st.poolId != UNSET then DeletePool(f, w, w.st.poolId) else w;
    var w2 := if w.st.listenerId != UNSET then DeleteListener(f, w1, w.st.listenerId) else w1;
    OnePoolGone(f, w, w.st.poolId);
    OneListenerGone(f, w1, w.st.listenerId);
    OnlyLbs(f, w2, w.st.lbId);
  }

  lemma OnePoolGone(f: Oracle, w: World, id: Id)
    ensures var w' := DeletePool(f, w, id);
            && w'.n == w.n + 1 && w'.st == w.st && w'.c == w.c.(pools := w'.c.pools)
            && forall x :: x in w'.c.pools <==> x in w.c.pools && !(x.id == id && Answered(f, w.n))
  {
  }

  lemma OneListenerGone(f: Oracle, w: World, id: Id)
    ensures var w' := DeleteListener(f, w, id);
            && w'.n == w.n + 1 && w'.st == w.st && w'.c == w.c.(listeners := w'.c.listeners)
            && forall x :: x in w'.c.listeners <==> x in w.c.listeners && !(x.id == id && Answered(f, w.n))
  {
  }

  lemma OnlyLbs(f: Oracle, w: World, id: Id)
    ensures var c' := DeleteLb(f, w, id).1.c; c' == w.c.(lbs := c'.lbs)
  {
  }

  /** The network DELETE, the last call of a pass, goes through. */
  predicate NetworkDeleted(f: Oracle, sp: Spec, w: World, order: seq<string>, id: Id) {
    w.st.networkCreated && id != UNSET && id == w.st.networkId && Answered(f, CleanGateway(f, sp, AtGateway(f, sp, w, order)).n)
  }

  ghost predicate NetworksLeft(f: Oracle, sp: Spec, w: World, w': World, order: seq<string>) {
    forall id: Id :: id in w'.c.networks <==> id in w.c.networks && !NetworkDeleted(f, sp, w, order, id)
  }

  /** A completed pass removes exactly the recorded network of its own, if the DELETE goes through. */
  lemma NetworksLeftIff(f: Oracle, sp: Spec, w: World, order: seq<string>)
    requires !sp.keep && ReconcileDelete(f, sp, w, order).0.Done?
    ensures NetworksLeft(f, sp, w, ReconcileDelete(f, sp, w, order).1, order)
  {
    hide DeleteFront, DeleteOrphans, CleanFips, CleanGateway, InUse;
    FrontKeepsNetworks(f, sp, w, order);
  }

  lemma FrontKeepsNetworks(f: Oracle, sp: Spec, w: World, order: seq<string>)
    ensures DeleteFront(f, sp, w, order).2.c.networks == w.c.networks
  {
    hide CleanDns, CleanGroups, CaptureFips, DeleteRecordedLb;
  }

  /** In every run, whatever fails, a delete pass that loses the finalizer without being told to keep
      leaves exactly the DNS records, groups, gateways, pools, listeners and networks that no accepted DELETE
      was for. */
  lemma LeftExactly(ws: nat -> World, acts: nat -> Action, k: nat)
    requires Steps(ws, acts, k) && Loses(ws, k)
    requires acts(k).Delete? && !acts(k).sp.keep && Visits(ws(k).st, acts(k).order)
    ensures var a := acts(k);
            && RecordsLeft(a.f, a.sp, ws(k), ws(k + 1)) && GroupsLeft(a.f, a.sp, ws(k), ws(k + 1), a.order)
            && GatewaysLeft(a.f, a.sp, ws(k), ws(k + 1), a.order)
            && PartsLeft(a.f, a.sp, ws(k), ws(k + 1), a.order) && NetworksLeft(a.f, a.sp, ws(k), ws(k + 1), a.order)
  {
    hide ReconcileDelete, Reached, GatewayDeleted, RecordDeleted, AtGateway, PoolDeleted, ListenerDeleted, NetworkDeleted;
    var a := acts(k);
    FinalizerMeansDone(a.f, a.sp, ws(k), a.order);
    RecordsLeftIff(a.f, a.sp, ws(k), a.order);
    GroupsLeftIff(a.f, a.sp, ws(k), a.order);
    GatewaysLeftIff(a.f, a.sp, ws(k), a.order);
    PartsLeftIff(a.f, a.sp, ws(k), a.order);
    NetworksLeftIff(a.f, a.sp, ws(k), a.order);
  }

  // ---- Nothing goes through ----

  lemma {:induction false} FailedGroups(f: Oracle, w: World, order: seq<string>)
    requires forall n :: f(n).outcome.Fail?
    ensures CleanGroups(f, w, order).c == w.c && CleanGroups(f, w, order).st == w.st
    decreases |order|
  {
    if order != [] {
      FailedGroups(f, if order[0] in w.st.groupIds then DeleteGroup(f, w, w.st.groupIds[order[0]]).1 else w, order[1..]);
    }
  }

  lemma {:induction false} FailedFips(f: Oracle, w: World, ids: seq<Id>)
    requires forall n :: f(n).outcome.Fail?
    ensures CleanFips(f, w, ids).1.c == w.c && !CleanFips(f, w, ids).0
    decreases |ids|
  {
    if ids != [] {
      var w1 := DeleteFip(f, w, ids[0]);
      assert w1.c == w.c && Gone(Answer(f, w1, FipById(w1.c, ids[0])));
      FailedFips(f, Logged(w1, ReadFip(ids[0], true)), ids[1..]);
    }
  }

  /** When every call fails the cloud stays as it is, and the finalizer goes exactly for a cluster without
      a recorded load balancer and without a recorded network of its own: records, groups, floating IPs
      and gateways are not waited for. */
  lemma FailedPassDoneIff(f: Oracle, sp: Spec, w: World, order: seq<string>)
    requires (forall n :: f(n).outcome.Fail?) && w.st.finalizer
    ensures var w' := ReconcileDelete(f, sp, w, order).1;
            && w'.c == w.c
            && (!w'.st.finalizer <==> sp.keep || (w.st.lbId == UNSET && (!w.st.networkCreated || w.st.networkId == UNSET)))
  {
    if !sp.keep {
      hide CleanGroups, CleanFips;
      var w0 := CleanDns(f, sp, w);
      FailedGroups(f, w0, order);
      var (fips, ok, w1) := DeleteFront(f, sp, w, order);
      assert f(w1.n).outcome.Fail?;
      assert w1.c == w.c && (ok <==> w.st.lbId == UNSET);
      hide DeleteFront, CleanDns;
      var w2 := DeleteOrphans(f, sp, w1);
      FailedFips(f, w2, fips);
      var w3 := CleanFips(f, w2, fips).1;
      assert f(w3.n).outcome.Fail? && f(w3.n + 1).outcome.Fail?;
    }
  }
}
