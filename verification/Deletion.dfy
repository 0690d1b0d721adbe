/** When the cluster finalizer goes, in which order a delete pass works, and which load
    balancers it leaves behind. */
module Deletion {
  import opened Collections
  import opened OvhCloud
  import opened ClusterSteps
  import opened ClusterDelete
  import Names

  /** The events a pass added. */
  function Trace(w: World, w': World): seq<Event>
    requires w.log <= w'.log
  {
    w'.log[|w.log|..]
  }

  // ---- The order of work ----

  function StageOf(k: Kind): nat {
    match k
    case RecordKind => 0
    case GroupKind => 1
    case PoolKind => 2
    case ListenerKind => 3
    case LbKind => 4
    case FipKind => 5
    case GatewayKind => 6
    case NetworkKind => 7
    case SubnetKind => 8
    case MonitorKind => 9
  }

  ghost predicate InOrder(log: seq<Event>, from: nat) {
    forall i, j :: from <= i < j < |log| ==> StageOf(KindOf(log[i])) <= StageOf(KindOf(log[j]))
  }

  ghost predicate UpTo(log: seq<Event>, from: nat, stage: nat) {
    forall i :: from <= i < |log| ==> StageOf(KindOf(log[i])) <= stage
  }

  lemma ExtendOrder(log: seq<Event>, log': seq<Event>, from: nat, stage: nat, k: Kind)
    requires from <= |log| && InOrder(log, from) && UpTo(log, from, stage)
    requires Appends(log, log', {k}) && stage <= StageOf(k)
    ensures InOrder(log', from) && UpTo(log', from, StageOf(k))
  {
  }

  lemma FrontInOrder(f: Oracle, sp: Spec, w: World, order: seq<string>)
    ensures var log := DeleteFront(f, sp, w, order).2.log; w.log <= log && InOrder(log, |w.log|) && UpTo(log, |w.log|, 4)
  {
    hide CleanDns, CleanGroups, CaptureFips, DeletePool, DeleteListener, DeleteLb;
    var from := |w.log|;
    var w0 := CleanDns(f, sp, w);
    ExtendOrder(w.log, w0.log, from, 0, RecordKind);
    var w1 := CleanGroups(f, w0, order);
    ExtendOrder(w0.log, w1.log, from, 0, GroupKind);
    var w2 := CaptureFips(f, w1).1;
    RecordedInOrder(f, w2, from);
  }

  lemma RecordedInOrder(f: Oracle, w: World, from: nat)
    requires from <= |w.log| && InOrder(w.log, from) && UpTo(w.log, from, 1)
    ensures var log := DeleteRecordedLb(f, w).1.log; InOrder(log, from) && UpTo(log, from, 4)
  {
    hide DeletePool, DeleteListener, DeleteLb;
    if w.st.lbId != UNSET {
      var w1 := if w.st.poolId != UNSET then DeletePool(f, w, w.st.poolId) else w;
      ExtendOrder(w.log, w1.log, from, 1, PoolKind);
      var w2 := if w.st.listenerId != UNSET then DeleteListener(f, w1, w.st.listenerId) else w1;
      ExtendOrder(w1.log, w2.log, from, 2, ListenerKind);
      var w3 := DeleteLb(f, w2, w.st.lbId).1;
      ExtendOrder(w2.log, w3.log, from, 3, LbKind);
    }
  }

  /** Every pass works through DNS, groups, pool, listener, load balancers, floating IPs,
      gateway and network in that order, however far it gets. */
  lemma PassInOrder(f: Oracle, sp: Spec, w: World, order: seq<string>)
    ensures InOrder(ReconcileDelete(f, sp, w, order).1.log, |w.log|)
  {
    hide DeleteFront, DeleteOrphans, CleanFips, CleanGateway, CleanNetwork;
    var from := |w.log|;
    FrontInOrder(f, sp, w, order);
    var (fips, ok, w1) := DeleteFront(f, sp, w, order);
    var w2 := DeleteOrphans(f, sp, w1);
    ExtendOrder(w1.log, w2.log, from, 4, LbKind);
    var w3 := CleanFips(f, w2, fips).1;
    ExtendOrder(w2.log, w3.log, from, 4, FipKind);
    var w4 := CleanGateway(f, sp, w3);
    ExtendOrder(w3.log, w4.log, from, 5, GatewayKind);
    ExtendOrder(w4.log, CleanNetwork(f, w4).1.log, from, 6, NetworkKind);
  }

  // ---- When the finalizer is removed ----

  /** An event whose kind the steps before `a` and after `b` never log was logged between them. */
  lemma LoggedBetween(w: World, a: World, b: World, w': World, pre: set<Kind>, post: set<Kind>, e: Event)
    requires Appends(w.log, a.log, pre) && a.log <= b.log && Appends(b.log, w'.log, post)
    requires KindOf(e) !in pre && KindOf(e) !in post
    ensures w.log <= w'.log && (e in Trace(w, w') <==> e in Trace(a, b))
  {
  }

  lemma Prefixes(a: seq<Event>, b: seq<Event>, c: seq<Event>)
    requires a <= b <= c
    ensures a <= c
  {
  }

  /** Floating-IP cleanup reads every one it is given, and asks for another pass exactly when
      one of them was not gone. */
  lemma {:induction false} CleanFipsReads(f: Oracle, w: World, ids: seq<Id>)
    ensures var (again, w') := CleanFips(f, w, ids);
            && (forall id :: id in ids ==> ReadFip(id, true) in Trace(w, w') || ReadFip(id, false) in Trace(w, w'))
            && (forall id :: ReadFip(id, false) in Trace(w, w') ==> again)
            && (again ==> exists id :: ReadFip(id, false) in Trace(w, w'))
    decreases |ids|
  {
    hide DeleteFip, Gone;
    var (again, w') := CleanFips(f, w, ids);
    if ids != [] {
      var w1 := DeleteFip(f, w, ids[0]);
      var ok :| w1.log == w.log + [Deleted(FipKind, ids[0], ok)];
      var gone := Gone(Answer(f, w1, FipById(w1.c, ids[0])));
      var w2 := Logged(w1, ReadFip(ids[0], gone));
      CleanFipsReads(f, w2, ids[1..]);
      CleanFipsTrace(w, w2, w', Deleted(FipKind, ids[0], ok), ReadFip(ids[0], gone));
    } else {
      assert Trace(w, w') == [];
    }
  }

  lemma CleanFipsTrace(w: World, w2: World, w': World, e: Event, read: Event)
    requires w2.log == w.log + [e] + [read] && w2.log <= w'.log
    ensures w.log <= w'.log && Trace(w, w') == [e, read] + Trace(w2, w')
  {
  }

  const BEFORE_LB := {RecordKind, GroupKind, PoolKind, ListenerKind}

  /** The only load balancer event before the orphan cleanup is the DELETE of the recorded one,
      and the pass goes on exactly when it was accepted. */
  lemma FrontLbEvents(f: Oracle, sp: Spec, w: World, order: seq<string>, e: Event)
    requires KindOf(e) == LbKind
    ensures var (fips, ok, w1) := DeleteFront(f, sp, w, order);
            && (w.st.lbId == UNSET ==> ok)
            && (e in Trace(w, w1) <==> w.st.lbId != UNSET && e == Deleted(LbKind, w.st.lbId, ok))
  {
    hide CleanDns, CleanGroups, CaptureFips, DeletePool, DeleteListener, DeleteLb;
    var w0 := CleanGroups(f, CleanDns(f, sp, w), order);
    var w2 := CaptureFips(f, w0).1;
    var (ok, w1) := DeleteRecordedLb(f, w2);
    if w.st.lbId == UNSET {
      assert Appends(w.log, w1.log, BEFORE_LB);
      LoggedBetween(w, w1, w1, w1, BEFORE_LB, {}, e);
    } else {
      var w3 := if w2.st.poolId != UNSET then DeletePool(f, w2, w2.st.poolId) else w2;
      var w4 := if w2.st.listenerId != UNSET then DeleteListener(f, w3, w2.st.listenerId) else w3;
      LoggedBetween(w, w4, w1, w1, BEFORE_LB, {}, e);
      assert Trace(w4, w1) == [Deleted(LbKind, w.st.lbId, ok)];
    }
  }

  /** The recorded load balancer's DELETE was accepted, every floating IP the pass read was gone
      and the recorded one was read, and a network the controller created was deleted. */
  ghost predicate CleanupComplete(st: Status, trace: seq<Event>) {
    && (st.lbId != UNSET ==> Deleted(LbKind, st.lbId, true) in trace)
    && (forall id :: ReadFip(id, false) !in trace)
    && (st.fipId != UNSET ==> ReadFip(st.fipId, true) in trace)
    && (st.networkCreated && st.networkId != UNSET ==> Deleted(NetworkKind, st.networkId, true) in trace)
  }

  /** Without the keep annotation, a pass removes the finalizer exactly when cleanup is complete. */
  lemma FinalizerGoesIffClean(f: Oracle, sp: Spec, w: World, order: seq<string>)
    requires w.st.finalizer && !sp.keep
    ensures var w' := ReconcileDelete(f, sp, w, order).1;
            !w'.st.finalizer <==> CleanupComplete(w.st, Trace(w, w'))
  {
    hide DeleteFront, DeleteOrphans, CleanFips, CleanGateway, DeleteNetwork;
    var (fips, ok, w1) := DeleteFront(f, sp, w, order);
    var (ph, w') := ReconcileDelete(f, sp, w, order);
    if ok {
      BackEvents(f, sp, w, order);
    } else {
      FrontLbEvents(f, sp, w, order, Deleted(LbKind, w.st.lbId, true));
      FrontLbEvents(f, sp, w, order, Deleted(LbKind, w.st.lbId, false));
    }
  }

  lemma FrontKinds(f: Oracle, sp: Spec, w: World, order: seq<string>)
    ensures var (fips, ok, w1) := DeleteFront(f, sp, w, order);
            && Appends(w.log, w1.log, BEFORE_LB + {LbKind})
            && (w.st.fipId != UNSET ==> w.st.fipId in fips)
            && w1.st.fipId == w.st.fipId && w1.st.networkId == w.st.networkId && w1.st.networkCreated == w.st.networkCreated
  {
  }

  lemma BackEvents(f: Oracle, sp: Spec, w: World, order: seq<string>)
    requires w.st.finalizer && !sp.keep && DeleteFront(f, sp, w, order).1
    ensures var w' := ReconcileDelete(f, sp, w, order).1;
            !w'.st.finalizer <==> CleanupComplete(w.st, Trace(w, w'))
  {
    hide DeleteFront, DeleteOrphans, CleanFips, CleanGateway, DeleteNetwork;
    var (fips, ok, w1) := DeleteFront(f, sp, w, order);
    FrontKinds(f, sp, w, order);
    var w2 := DeleteOrphans(f, sp, w1);
    var (again, w3) := CleanFips(f, w2, fips);
    var w4 := CleanGateway(f, sp, w3);
    var (netOk, w5) := CleanNetwork(f, w4);
    var w' := ReconcileDelete(f, sp, w, order).1;
    assert w'.log == if again then w3.log else w5.log;
    LbEventStays(f, sp, w, order, w');
    var pre, post := BEFORE_LB + {LbKind}, {GatewayKind, NetworkKind};
    assert Appends(w.log, w2.log, pre) && Appends(w3.log, w'.log, post);
    CleanFipsReads(f, w2, fips);
    forall id, gone ensures ReadFip(id, gone) in Trace(w, w') <==> ReadFip(id, gone) in Trace(w2, w3) {
      LoggedBetween(w, w2, w3, w', pre, post, ReadFip(id, gone));
    }
    assert again <==> exists id :: ReadFip(id, false) in Trace(w, w');
    if !again {
      assert w.st.fipId != UNSET ==> ReadFip(w.st.fipId, true) in Trace(w, w');
      assert w4.st.networkId == w.st.networkId && w4.st.networkCreated == w.st.networkCreated;
      assert !w'.st.finalizer <==> netOk;
      if w.st.networkCreated && w.st.networkId != UNSET { NetworkEvents(f, w, w4, w'); }
    }
  }

  lemma LbEventStays(f: Oracle, sp: Spec, w: World, order: seq<string>, w': World)
    requires DeleteFront(f, sp, w, order).1 && DeleteFront(f, sp, w, order).2.log <= w'.log
    ensures w.log <= w'.log && (w.st.lbId != UNSET ==> Deleted(LbKind, w.st.lbId, true) in Trace(w, w'))
  {
    hide DeleteFront;
    var w1 := DeleteFront(f, sp, w, order).2;
    Prefixes(w.log, w1.log, w'.log);
    var e := Deleted(LbKind, w.st.lbId, true);
    FrontLbEvents(f, sp, w, order, e);
    if w.st.lbId != UNSET {
      var i :| 0 <= i < |Trace(w, w1)| && Trace(w, w1)[i] == e;
      assert w1.log[i + |w.log|] == e && w'.log[i + |w.log|] == e;
      assert Trace(w, w')[i] == e;
    }
  }

  lemma NetworkEvents(f: Oracle, w: World, w4: World, w': World)
    requires Appends(w.log, w4.log, BEFORE_LB + {LbKind, FipKind, GatewayKind})
    requires w4.st.networkCreated && w4.st.networkId != UNSET && w'.log == CleanNetwork(f, w4).1.log
    ensures w.log <= w'.log && forall ok ::
              Deleted(NetworkKind, w4.st.networkId, ok) in Trace(w, w') <==> ok == CleanNetwork(f, w4).0
  {
    hide DeleteNetwork;
    var w5 := CleanNetwork(f, w4).1;
    assert Trace(w4, w5) == [Deleted(NetworkKind, w4.st.networkId, CleanNetwork(f, w4).0)];
    forall ok ensures w.log <= w'.log && (Deleted(NetworkKind, w4.st.networkId, ok) in Trace(w, w') <==> ok == CleanNetwork(f, w4).0) {
      LoggedBetween(w, w4, w5, w', BEFORE_LB + {LbKind, FipKind, GatewayKind}, {}, Deleted(NetworkKind, w4.st.networkId, ok));
    }
  }

  // ---- Load balancers left behind ----

  /** Deleting by a list of identifiers reaches a load balancer exactly when one of the calls for
      its identifier goes through. Call number j is answered by `f(w.n + j)`. */
  lemma {:induction false} DeleteLbsReach(f: Oracle, w: World, ids: seq<Id>, k: nat)
    requires k < |w.c.lbs|
    ensures var w' := DeleteLbs(f, w, ids);
            && w'.n == w.n + |ids| && |w'.c.lbs| == |w.c.lbs|
            && w'.c.lbs[k].id == w.c.lbs[k].id && w'.c.lbs[k].name == w.c.lbs[k].name
            && (w'.c.lbs[k].deleting <==>
                  w.c.lbs[k].deleting || Reached(f, w.n, ids, w.c.lbs[k].id))
    decreases |ids|
  {
    if ids != [] {
      var w1 := DeleteLb(f, w, ids[0]).1;
      assert w1.n == w.n + 1 && |w1.c.lbs| == |w.c.lbs|;
      assert w1.c.lbs[k].deleting <==> w.c.lbs[k].deleting || (ids[0] == w.c.lbs[k].id && Accepts(f, w.n, 0));
      DeleteLbsReach(f, w1, ids[1..], k);
      var rest := ids[1..];
      if j :| 0 <= j < |ids| && ids[j] == w.c.lbs[k].id && Accepts(f, w.n, j) {
        if j > 0 { assert rest[j - 1] == ids[j] && Accepts(f, w1.n, j - 1); }
      }
      if j :| 0 <= j < |rest| && rest[j] == w.c.lbs[k].id && Accepts(f, w1.n, j) {
        assert ids[j + 1] == rest[j] && Accepts(f, w.n, j + 1);
      }
    }
  }

  /** The j-th call from number `base` on goes through. */
  predicate Accepts(f: Oracle, base: nat, j: nat) { Answered(f, base + j) }

  /** Of the calls from number `base` on, one for each of `ids`, some call for `id` goes through. */
  ghost predicate Reached(f: Oracle, base: nat, ids: seq<Id>, id: Id) {
    exists j :: 0 <= j < |ids| && ids[j] == id && Accepts(f, base, j)
  }

  ghost predicate AllAccepted(f: Oracle, base: nat, count: nat) {
    forall j :: 0 <= j < count ==> Accepts(f, base, j)
  }

  /** The world in which the orphan listing is made, and what it leads to if it is answered. */
  function AtOrphans(f: Oracle, sp: Spec, w: World, order: seq<string>): World { DeleteFront(f, sp, w, order).2 }

  function Orphans(f: Oracle, sp: Spec, w: World, order: seq<string>): seq<Id> {
    LbsByPrefix(ListLbs(f, AtOrphans(f, sp, w, order)).1.c.lbs, Names.LbName(sp.name))
  }

  ghost predicate NamedLikeOurs(sp: Spec, lb: LoadBalancer) { Names.HasPrefix(lb.name, Names.LbName(sp.name)) }

  /** Some DELETE for this identifier goes through: that of the recorded load balancer, the last call before the
      orphan listing, or one that an answered listing leads to. */
  ghost predicate DeletedFor(f: Oracle, sp: Spec, w: World, order: seq<string>, id: Id) {
    var n, ids := AtOrphans(f, sp, w, order).n, Orphans(f, sp, w, order);
    || (w.st.lbId != UNSET && id == w.st.lbId && n > 0 && Answered(f, n - 1))
    || (Answered(f, n) && Reached(f, n + 1, ids, id))
  }

  /** The front of a pass deletes the recorded load balancer only. */
  lemma FrontReach(f: Oracle, sp: Spec, w: World, order: seq<string>, k: nat)
    requires k < |w.c.lbs|
    ensures var w1 := AtOrphans(f, sp, w, order);
            && |w1.c.lbs| == |w.c.lbs| && w1.c.lbs[k] == w.c.lbs[k].(deleting := w1.c.lbs[k].deleting, wait := w1.c.lbs[k].wait)
            && (w1.c.lbs[k].deleting
                <==> w.c.lbs[k].deleting || (w.st.lbId != UNSET && w.c.lbs[k].id == w.st.lbId && w1.n > 0 && Answered(f, w1.n - 1)))
  {
    hide CleanDns, CleanGroups, CaptureFips, Filter;
    var w2 := CaptureFips(f, CleanGroups(f, CleanDns(f, sp, w), order)).1;
    assert w2.c.lbs == w.c.lbs && w2.st.lbId == w.st.lbId;
    if w.st.lbId != UNSET {
      var w3 := if w2.st.poolId != UNSET then DeletePool(f, w2, w2.st.poolId) else w2;
      var w4 := if w2.st.listenerId != UNSET then DeleteListener(f, w3, w2.st.listenerId) else w3;
      assert w4.c.lbs == w.c.lbs && DeleteFront(f, sp, w, order).2 == DeleteLb(f, w4, w.st.lbId).1;
    }
  }

  /** The orphan cleanup deletes what its listing shows of the prefix, as far as the calls go through. */
  lemma OrphansReach(f: Oracle, sp: Spec, w: World, k: nat)
    requires k < |w.c.lbs|
    ensures var w' := DeleteOrphans(f, sp, w);
            var ids := LbsByPrefix(ListLbs(f, w).1.c.lbs, Names.LbName(sp.name));
            && |w'.c.lbs| == |w.c.lbs| && w'.c.lbs[k].id == w.c.lbs[k].id && w'.c.lbs[k].name == w.c.lbs[k].name
            && (w'.c.lbs[k].deleting <==>
                  w.c.lbs[k].deleting || (Answered(f, w.n) && Reached(f, w.n + 1, ids, w.c.lbs[k].id)))
            && (NamedLikeOurs(sp, w.c.lbs[k]) && (f(w.n).outcome.Ok? || (f(w.n).outcome.Late? && w.c.lbs[k].visible))
                ==> w.c.lbs[k].id in ids)
  {
    hide DeleteLbs;
    var (ok, l) := ListLbs(f, w);
    var ids := LbsByPrefix(l.c.lbs, Names.LbName(sp.name));
    assert (ok <==> Answered(f, w.n)) && l.n == w.n + 1 && |l.c.lbs| == |w.c.lbs|;
    assert l.c.lbs[k] == w.c.lbs[k].(visible := l.c.lbs[k].visible) && l.c.lbs[k] in l.c.lbs;
    DeleteLbsReach(f, l, ids, k);
    assert DeleteOrphans(f, sp, w) == if ok then DeleteLbs(f, l, ids) else l;
  }

  /** A completed pass leaves a load balancer un-deleted exactly when it was not being deleted before and no
      DELETE for its identifier went through, whatever the API answered: refusals counted as success and
      a failed orphan listing, which is only logged, do not stop the pass. What the listing shows of the
      cluster's name prefix, it leads to. */
  lemma LbLeftBehindIff(f: Oracle, sp: Spec, w: World, order: seq<string>, k: nat)
    requires !sp.keep && ReconcileDelete(f, sp, w, order).0.Done? && k < |w.c.lbs|
    ensures var w' := ReconcileDelete(f, sp, w, order).1;
            && |w'.c.lbs| == |w.c.lbs| && w'.c.lbs[k].id == w.c.lbs[k].id && w'.c.lbs[k].name == w.c.lbs[k].name
            && (w'.c.lbs[k].deleting <==> w.c.lbs[k].deleting || DeletedFor(f, sp, w, order, w.c.lbs[k].id))
    ensures var n := AtOrphans(f, sp, w, order).n;
            NamedLikeOurs(sp, w.c.lbs[k]) && (f(n).outcome.Ok? || (f(n).outcome.Late? && w.c.lbs[k].visible))
            ==> w.c.lbs[k].id in Orphans(f, sp, w, order)
  {
    hide DeleteFront, DeleteOrphans, LbsByPrefix, CleanFips, CleanGateway, CleanNetwork, ListLbs, Reached;
    FrontReach(f, sp, w, order, k);
    OrphansReach(f, sp, AtOrphans(f, sp, w, order), k);
  }

  /** A delete pass fails exactly when the DELETE of the recorded load balancer does: with an error that is
      neither a 404 nor a 409 naming a pending state. Everything else is retried or only logged. */
  lemma DeleteFailsIff(f: Oracle, sp: Spec, w: World, order: seq<string>)
    ensures ReconcileDelete(f, sp, w, order).0.Error?
            <==> !sp.keep && w.st.lbId != UNSET
                 && AtOrphans(f, sp, w, order).n > 0 && f(AtOrphans(f, sp, w, order).n - 1).outcome in {Fail, Conflict}
  {
    hide CleanDns, CleanGroups, CaptureFips, DeletePool, DeleteListener, DeleteOrphans, CleanFips, CleanGateway, CleanNetwork;
  }

  /** The failed listing alone is enough: with nothing on record after a lost patch, a pass whose only refused
      call is that listing completes and touches no load balancer. */
  lemma FailedListingLeavesLbs(f: Oracle, sp: Spec, w: World)
    requires forall n: nat :: if n == w.n then f(n).outcome.Fail? else f(n).outcome.Ok?
    requires !sp.keep && w.st.recordId == UNSET && w.st.fipId == UNSET && w.st.lbId == UNSET && !w.st.networkCreated
    ensures var (ph, w') := ReconcileDelete(f, sp, w, []);
            ph.Done? && !w'.st.finalizer && w'.c.lbs == w.c.lbs
  {
    hide CleanGateway;
  }

  /** No load balancer outlives its cluster: however many there are and whether or not one was
      recorded, after a completed pass whose listing and deletes went through, every one of the
      cluster's name is being deleted. */
  lemma NoLbOutlives(f: Oracle, sp: Spec, w: World, order: seq<string>)
    requires !sp.keep && ReconcileDelete(f, sp, w, order).0.Done?
    requires f(AtOrphans(f, sp, w, order).n).outcome.Ok?
    requires AllAccepted(f, AtOrphans(f, sp, w, order).n + 1, |Orphans(f, sp, w, order)|)
    ensures forall lb :: lb in ReconcileDelete(f, sp, w, order).1.c.lbs && NamedLikeOurs(sp, lb) ==> lb.deleting
  {
    hide ReconcileDelete, AtOrphans, Orphans;
    var w' := ReconcileDelete(f, sp, w, order).1;
    LbCountKept(f, sp, w, order);
    forall lb | lb in w'.c.lbs && NamedLikeOurs(sp, lb) ensures lb.deleting {
      var k :| 0 <= k < |w'.c.lbs| && w'.c.lbs[k] == lb;
      LbLeftBehindIff(f, sp, w, order, k);
      var ids := Orphans(f, sp, w, order);
      var j :| 0 <= j < |ids| && ids[j] == lb.id;
      assert Accepts(f, AtOrphans(f, sp, w, order).n + 1, j);
    }
  }

  lemma {:induction false} DeleteLbsCount(f: Oracle, w: World, ids: seq<Id>)
    ensures |DeleteLbs(f, w, ids).c.lbs| == |w.c.lbs|
    decreases |ids|
  {
    if ids != [] { DeleteLbsCount(f, DeleteLb(f, w, ids[0]).1, ids[1..]); }
  }

  lemma LbCountKept(f: Oracle, sp: Spec, w: World, order: seq<string>)
    requires !sp.keep && ReconcileDelete(f, sp, w, order).0.Done?
    ensures |ReconcileDelete(f, sp, w, order).1.c.lbs| == |w.c.lbs|
  {
    hide DeleteFront, DeleteLbs, CleanFips, CleanGateway, CleanNetwork;
    FrontCount(f, sp, w, order);
    var l := ListLbs(f, AtOrphans(f, sp, w, order)).1;
    DeleteLbsCount(f, l, Orphans(f, sp, w, order));
  }

  lemma FrontCount(f: Oracle, sp: Spec, w: World, order: seq<string>)
    ensures |AtOrphans(f, sp, w, order).c.lbs| == |w.c.lbs|
  {
    hide CleanDns, CleanGroups, CaptureFips, Filter;
  }

  /** The refusal counted as success matters: if every call of a pass answers 409 with a pending
      state, the finalizer goes while the cloud is exactly as it was. */
  lemma AllBusyLeavesEverything(f: Oracle, sp: Spec, w: World)
    requires forall n :: f(n).outcome.Busy?
    requires !sp.keep && w.st.recordId == UNSET && w.st.fipId == UNSET && !w.st.networkCreated
    ensures var (ph, w') := ReconcileDelete(f, sp, w, []);
            ph.Done? && !w'.st.finalizer && w'.c == w.c
  {
  }

  /** The realistic case: listings are answered, but every DELETE of a load balancer is refused with a
      pending state. The pass completes and no load balancer is being deleted that was not before. */
  lemma BusyDeletesLeaveLbs(f: Oracle, sp: Spec, w: World)
    requires forall n: nat :: if n == w.n || n == w.n + 2 then f(n).outcome.Ok? else f(n).outcome.Busy?
    requires !sp.keep && w.st.recordId == UNSET && w.st.fipId == UNSET && !w.st.networkCreated
    requires w.st.lbId != UNSET && w.st.poolId == UNSET && w.st.listenerId == UNSET && w.c.fips == []
    ensures var (ph, w') := ReconcileDelete(f, sp, w, []);
            && ph.Done? && !w'.st.finalizer && |w'.c.lbs| == |w.c.lbs|
            && forall i :: 0 <= i < |w.c.lbs| ==> w'.c.lbs[i] == w.c.lbs[i].(visible := true)
  {
    hide DeleteLbs, CleanGateway;
    var w1 := DeleteFront(f, sp, w, []).2;
    assert DeleteFront(f, sp, w, []) == ([], true, w1) && w1.n == w.n + 2 && w1.c == w.c && w1.st == w.st;
    var l := ListLbs(f, w1).1;
    BusyDeletes(f, l, LbsByPrefix(l.c.lbs, Names.LbName(sp.name)));
  }

  lemma {:induction false} BusyDeletes(f: Oracle, w: World, ids: seq<Id>)
    requires forall n: nat :: n >= w.n ==> f(n).outcome.Busy?
    ensures DeleteLbs(f, w, ids).c == w.c
    decreases |ids|
  {
    if ids != [] { BusyDeletes(f, DeleteLb(f, w, ids[0]).1, ids[1..]); }
  }

  /** A floating IP known only through its association is forgotten once a DELETE detaches it:
      no later pass captures it, so the finalizer can go while it exists. */
  lemma UnrecordedFipForgotten(f: Oracle, g: Oracle, w: World, x: FloatingIP)
    requires x in w.c.fips && x.entity == Some(w.st.lbId) && w.st.fipId == UNSET
    requires forall y :: y in w.c.fips && y.id == x.id ==> y == x
    requires f(w.n).outcome.Late?
    ensures var w' := DeleteFip(f, w, x.id);
            && x.(entity := None, down := false) in w'.c.fips
            && x.id !in CaptureFips(g, w').0
  {
  }
}
