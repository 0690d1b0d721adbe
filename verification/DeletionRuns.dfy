/** Deletion over whole runs of one OVHCluster: passes of both kinds in any order, any API outcomes,
    patches saved or lost, spec edits, and changes of the cloud by anybody else. */
module DeletionRuns {
  import opened OvhCloud
  import opened ClusterSteps
  import opened ClusterDelete
  import opened ClusterRuns
  import opened Deletion

  /** Step `k` takes the saved object's finalizer away. */
  ghost predicate Loses(ws: nat -> World, k: nat) { ws(k).st.finalizer && !ws(k + 1).st.finalizer }

  /** Step `k` is a saved delete pass over an object that still had its finalizer, and it either keeps
      the infrastructure on request or completed the cleanup. */
  ghost predicate ClearedBy(ws: nat -> World, acts: nat -> Action, k: nat) {
    && ws(k).st.finalizer && acts(k).Delete? && acts(k).saved && ws(k).log <= ws(k + 1).log
    && (acts(k).sp.keep || CleanupComplete(ws(k).st, Trace(ws(k), ws(k + 1))))
  }

  lemma DeleteStepClears(ws: nat -> World, acts: nat -> Action, k: nat)
    requires Steps(ws, acts, k) && acts(k).Delete? && ws(k).st.finalizer
    ensures Loses(ws, k) <==> ClearedBy(ws, acts, k)
  {
    hide ReconcileDelete;
    var w, a := ws(k), acts(k);
    var w' := ReconcileDelete(a.f, a.sp, w, a.order).1;
    if !a.sp.keep {
      FinalizerGoesIffClean(a.f, a.sp, w, a.order);
    } else {
      assert w' == RemoveFinalizer(w) by { KeepOnlyRemoves(a.f, a.sp, w, a.order); }
    }
  }

  lemma KeepOnlyRemoves(f: Oracle, sp: Spec, w: World, order: seq<string>)
    requires sp.keep
    ensures ReconcileDelete(f, sp, w, order).1 == RemoveFinalizer(w)
  {
  }

  lemma NormalKeepsFinalizer(f: Oracle, sp: Spec, w: World)
    requires w.st.finalizer
    ensures ReconcileNormal(f, sp, w).1.st.finalizer
  {
    hide ReconcileNetwork, ReconcileGroups, ReconcileLb, ReconcileDns;
    var w1 := ReconcileNetwork(f, sp, Called(w)).1;
    var w2 := ReconcileGroups(f, sp, w1);
    LbKeepsFinalizer(f, sp, w2);
  }

  lemma LbKeepsFinalizer(f: Oracle, sp: Spec, w: World)
    ensures ReconcileLb(f, sp, w).1.st.finalizer == w.st.finalizer
  {
    hide HandleLb, CreateLb;
  }

  /** In every run the finalizer goes exactly in a saved delete pass that keeps the infrastructure on
      request, or in which the recorded load balancer's DELETE was accepted, every floating IP it
      read was gone and the recorded one was read, and a created network's DELETE was accepted. */
  lemma FinalizerGoesOnlyClean(ws: nat -> World, acts: nat -> Action)
    requires forall k: nat :: Steps(ws, acts, k)
    ensures forall k: nat :: Loses(ws, k) <==> ClearedBy(ws, acts, k)
  {
    forall k: nat ensures Loses(ws, k) <==> ClearedBy(ws, acts, k) {
      hide ReconcileNormal, ReconcileDelete;
      assert Steps(ws, acts, k);
      if ws(k).st.finalizer {
        match acts(k)
        case Delete(sp, f, order, saved) => DeleteStepClears(ws, acts, k);
        case Normal(sp, f, saved) => NormalKeepsFinalizer(f, sp, ws(k));
        case Other(c) =>
      }
    }
  }

  /** What step `k` logged is in the order DNS, groups, pool, listener, load balancers, floating IPs,
      gateway, network. */
  ghost predicate StepInOrder(ws: nat -> World, k: nat) { InOrder(ws(k + 1).log, |ws(k).log|) }

  /** In every run each delete pass, finished or not, saved or not, works in that order. */
  lemma EveryPassInOrder(ws: nat -> World, acts: nat -> Action)
    requires forall k: nat :: Steps(ws, acts, k)
    ensures forall k: nat :: acts(k).Delete? ==> StepInOrder(ws, k)
  {
    forall k: nat | acts(k).Delete? ensures StepInOrder(ws, k) {
      hide ReconcileDelete, InOrder;
      assert Steps(ws, acts, k);
      PassInOrder(acts(k).f, acts(k).sp, ws(k), acts(k).order);
    }
  }

  /** In step `k`, a delete pass without the keep annotation, the orphan listing answered `Ok` and
      every DELETE it led to went through. */
  ghost predicate OrphansServed(ws: nat -> World, acts: nat -> Action, k: nat) {
    acts(k).Delete? &&
    var a := acts(k);
    var w1 := AtOrphans(a.f, a.sp, ws(k), a.order);
    !a.sp.keep && a.f(w1.n).outcome.Ok? && AllAccepted(a.f, w1.n + 1, |Orphans(a.f, a.sp, ws(k), a.order)|)
  }

  /** Every load balancer of the cluster's name prefix is being deleted after step `k`. */
  ghost predicate NoneLeft(ws: nat -> World, acts: nat -> Action, k: nat) {
    acts(k).Delete? && forall lb :: lb in ws(k + 1).c.lbs && NamedLikeOurs(acts(k).sp, lb) ==> lb.deleting
  }

  /** No load balancer outlives its cluster: in every run, however many load balancers earlier passes
      left and whether or not an ID was saved, when the finalizer goes in a pass whose listing and
      deletes went through, none of the cluster's name is left un-deleted. */
  lemma NoLbOutlivesRun(ws: nat -> World, acts: nat -> Action)
    requires forall k: nat :: Steps(ws, acts, k)
    ensures forall k: nat :: Loses(ws, k) && OrphansServed(ws, acts, k) ==> NoneLeft(ws, acts, k)
  {
    hide Loses, OrphansServed, NoneLeft, Act;
    forall k: nat | Loses(ws, k) && OrphansServed(ws, acts, k) ensures NoneLeft(ws, acts, k) {
      assert Steps(ws, acts, k);
      StepLeavesNone(ws, acts, k);
    }
  }

  lemma StepLeavesNone(ws: nat -> World, acts: nat -> Action, k: nat)
    requires Steps(ws, acts, k) && Loses(ws, k) && OrphansServed(ws, acts, k)
    ensures NoneLeft(ws, acts, k)
  {
    hide ReconcileDelete, AtOrphans, Orphans, AllAccepted, NamedLikeOurs;
    var a := acts(k);
    FinalizerMeansDone(a.f, a.sp, ws(k), a.order);
    NoLbOutlives(a.f, a.sp, ws(k), a.order);
  }

  /** After step `k`, a delete pass that completed without the keep annotation, each load balancer is as it was
      but for being deleted, and it is that exactly if it was before or a DELETE for it went through. */
  ghost predicate LbsLeftExactly(ws: nat -> World, acts: nat -> Action, k: nat) {
    && acts(k).Delete? && |ws(k + 1).c.lbs| == |ws(k).c.lbs|
    && forall i :: 0 <= i < |ws(k).c.lbs| ==>
         var x, y := ws(k).c.lbs[i], ws(k + 1).c.lbs[i];
         && y.id == x.id && y.name == x.name
         && (y.deleting <==> x.deleting || DeletedFor(acts(k).f, acts(k).sp, ws(k), acts(k).order, x.id))
  }

  /** In every run, exactly which load balancers outlive the cluster when the finalizer goes. */
  lemma LbOutlivesIff(ws: nat -> World, acts: nat -> Action)
    requires forall k: nat :: Steps(ws, acts, k)
    ensures forall k: nat :: Loses(ws, k) && acts(k).Delete? && !acts(k).sp.keep ==> LbsLeftExactly(ws, acts, k)
  {
    hide Loses, LbsLeftExactly, Act;
    forall k: nat | Loses(ws, k) && acts(k).Delete? && !acts(k).sp.keep ensures LbsLeftExactly(ws, acts, k) {
      assert Steps(ws, acts, k);
      StepLeavesExactly(ws, acts, k);
    }
  }

  lemma StepLeavesExactly(ws: nat -> World, acts: nat -> Action, k: nat)
    requires Steps(ws, acts, k) && Loses(ws, k) && acts(k).Delete? && !acts(k).sp.keep
    ensures LbsLeftExactly(ws, acts, k)
  {
    hide ReconcileDelete, DeletedFor;
    var a := acts(k);
    FinalizerMeansDone(a.f, a.sp, ws(k), a.order);
    LbCountKept(a.f, a.sp, ws(k), a.order);
    forall i | 0 <= i < |ws(k).c.lbs| ensures
      var x, y := ws(k).c.lbs[i], ws(k + 1).c.lbs[i];
      y.id == x.id && y.name == x.name && (y.deleting <==> x.deleting || DeletedFor(a.f, a.sp, ws(k), a.order, x.id))
    {
      LbLeftBehindIff(a.f, a.sp, ws(k), a.order, i);
    }
  }

  lemma FinalizerMeansDone(f: Oracle, sp: Spec, w: World, order: seq<string>)
    requires w.st.finalizer
    ensures !ReconcileDelete(f, sp, w, order).1.st.finalizer ==> ReconcileDelete(f, sp, w, order).0.Done?
  {
  }
}
