/** What the port step really leaves on a load balancer: which pools end up monitored, and what a
    load balancer created after another one vanished gets. */
module Ports {
  import opened OvhCloud
  import opened ClusterSteps
  import opened ClusterDelete
  import opened Quiescence
  import opened ClusterRuns
  import Uniqueness
  import Wiring

  ghost predicate Listens(c: Cloud, lb: Id, port: Port) {
    exists x :: x in c.listeners && x.name == PortName(port) && lb in x.lbs
  }

  ghost predicate Monitored(c: Cloud, pool: Id, port: Port) {
    exists x :: x in c.monitors && x.name == MonitorName(port) && x.pool == pool
  }

  /** Monitor names carry no cluster name and are looked up region-wide: an error-free step leaves
      the pool monitored exactly when it already was or no monitor of that name existed anywhere. */
  lemma MonitoredIff(f: Oracle, w: World, port: Port)
    requires ErrorFree(f)
    ensures Monitored(EnsureMonitor(f, w, port).c, PoolOf(w.st, port), port)
            <==> Monitored(w.c, PoolOf(w.st, port), port) || MonitorByName(w.c, MonitorName(port)).None?
  {
  }

  /** With another pool's monitor of that name in the region the step does nothing. */
  lemma SecondClusterUnmonitored(f: Oracle, w: World, other: Monitor, port: Port)
    requires ErrorFree(f) && other in w.c.monitors && other.name == MonitorName(port)
    requires !Monitored(w.c, PoolOf(w.st, port), port)
    ensures EnsureMonitor(f, w, port).c == w.c
  {
    var k :| 0 <= k < |w.c.monitors| && w.c.monitors[k] == other;
  }

  // ---- Over runs ----

  /** Monitors of this port's name are the same, none lost and none gained. */
  ghost predicate SameMonitors(c: Cloud, c': Cloud, port: Port) {
    forall x: Monitor :: x.name == MonitorName(port) ==> (x in c'.monitors <==> x in c.monitors)
  }

  lemma MonitorStepKeeps(f: Oracle, w: World, step: Port, port: Port, other: Monitor)
    requires other in w.c.monitors && other.name == MonitorName(port)
    ensures SameMonitors(w.c, EnsureMonitor(f, w, step).c, port)
  {
    Wiring.PortNamesDiffer();
    hide MonitorName;
    var w' := EnsureMonitor(f, w, step);
    assert w'.c.monitors == w.c.monitors || w'.c.monitors == w.c.monitors + [Monitor(w.c.next, MonitorName(step), PoolOf(w.st, step))];
    if w'.c.monitors != w.c.monitors { assert step != port; }
  }

  lemma PortStepKeeps(f: Oracle, w: World, step: Port, port: Port, other: Monitor)
    requires other in w.c.monitors && other.name == MonitorName(port)
    ensures SameMonitors(w.c, ReconcilePort(f, w, step).1.c, port)
  {
    hide EnsureListener, EnsurePool, EnsureMonitor, MonitorName;
    var w1 := EnsureListener(f, w, step).1;
    var w2 := EnsurePool(f, w1, step).1;
    MonitorStepKeeps(f, w2, step, port, other);
  }

  lemma HandleKeeps(f: Oracle, sp: Spec, w: World, lb: LoadBalancer, port: Port, other: Monitor)
    requires other in w.c.monitors && other.name == MonitorName(port)
    ensures SameMonitors(w.c, HandleLb(f, sp, w, lb).1.c, port)
  {
    hide ReconcilePort, ServeEndpoint, MonitorName;
    PortStepKeeps(f, w, ApiServer, port, other);
    var w1 := ReconcilePort(f, w, ApiServer).1;
    PortStepKeeps(f, w1, Register, port, other);
  }

  lemma LbKeeps(f: Oracle, sp: Spec, w: World, port: Port, other: Monitor)
    requires other in w.c.monitors && other.name == MonitorName(port)
    ensures SameMonitors(w.c, ReconcileLb(f, sp, w).1.c, port)
  {
    hide HandleLb, CreateLb, LbById, MonitorName;
    var w0 := w.(st := Adopt(sp, w.st));
    var got := Answer(f, w0, LbById(w0.c, w0.st.lbId));
    if got.Found? { HandleKeeps(f, sp, Called(w0), got.value, port, other); }
  }

  lemma NormalKeeps(f: Oracle, sp: Spec, w: World, port: Port, other: Monitor)
    requires other in w.c.monitors && other.name == MonitorName(port)
    ensures SameMonitors(w.c, ReconcileNormal(f, sp, w).1.c, port)
  {
    hide ReconcileNetwork, ReconcileGroups, ReconcileLb, ReconcileDns, MonitorName;
    var w2 := ReconcileGroups(f, sp, ReconcileNetwork(f, sp, Called(w)).1);
    LbKeeps(f, sp, w2, port, other);
  }

  /** Everybody else leaves the monitor alone, and monitors the pool no more than it was. */
  ghost predicate OthersLeave(acts: seq<Uniqueness.Action>, other: Monitor, pool: Id, port: Port) {
    forall a :: a in acts && a.Other? ==> other in a.c.monitors && !Monitored(a.c, pool, port)
  }

  /** So of two clusters in one region only the first gets a pool monitored: while that monitor is there,
      no pass of any cluster, with any answers, ever monitors another pool of the name. */
  lemma {:induction false} UnmonitoredForever(fl: Uniqueness.Fleet, acts: seq<Uniqueness.Action>, other: Monitor, pool: Id, port: Port)
    requires other in fl.c.monitors && other.name == MonitorName(port) && !Monitored(fl.c, pool, port)
    requires OthersLeave(acts, other, pool, port)
    ensures var c := Uniqueness.Run(fl, acts).c; other in c.monitors && !Monitored(c, pool, port)
  {
    hide ReconcileNormal, ReconcileDelete, MonitorName;
    if acts != [] {
      var before, a := acts[..|acts| - 1], acts[|acts| - 1];
      UnmonitoredForever(fl, before, other, pool, port);
      var mid := Uniqueness.Run(fl, before);
      if !a.Other? && a.key in mid.objects {
        var w := World(mid.c, mid.objects[a.key], 0, [], {});
        if a.Normal? {
          NormalKeeps(a.f, a.sp, w, port, other);
        } else {
          Wiring.DeleteThins(a.f, a.sp, w, a.order);
        }
      }
    }
  }

  // ---- A replaced load balancer ----

  lemma ListenerIff(f: Oracle, w: World, port: Port)
    requires ErrorFree(f)
    ensures Listens(EnsureListener(f, w, port).1.c, w.st.lbId, port)
            <==> Listens(w.c, w.st.lbId, port) || ListenerOf(w.st, port) == UNSET
  {
    var w' := EnsureListener(f, w, port).1;
    if ListenerOf(w.st, port) == UNSET && ListenerByName(w.c, w.st.lbId, PortName(port)).None? {
      var x := w'.c.listeners[|w.c.listeners|];
      assert x in w'.c.listeners && x.name == PortName(port) && w.st.lbId in x.lbs;
    }
  }

  /** After a vanished load balancer has been replaced by `lb`, an error-free port step gives the new
      one its API server listener, but its supervisor listener exactly when none had been recorded
      for the old one: forgetting a load balancer leaves the register pair on record. */
  lemma ReplacedLbListens(f: Oracle, w: World, lb: Id, port: Port)
    requires ErrorFree(f) && w.st.lbId == lb && !Listens(w.c, lb, port)
    requires exists was: Status :: w.st == ForgetLb(was).(lbId := lb)
    ensures ListenerOf(w.st, ApiServer) == UNSET
    ensures Listens(ReconcilePort(f, w, port).1.c, lb, port) <==> port == ApiServer || w.st.regListenerId == UNSET
  {
    hide EnsureListener, EnsurePool, EnsureMonitor;
    ListenerIff(f, w, port);
  }

  // ---- What a Ready cluster's load balancer has ----

  ghost predicate Pooled(c: Cloud, lb: Id, port: Port) {
    exists x :: x in c.pools && x.name == PoolName(port) && x.lb == lb
  }

  /** The port is served on the load balancer exactly where it was or nothing was on record for it. */
  ghost predicate ServedIff(w: World, w': World, lb: Id, port: Port) {
    && (Listens(w'.c, lb, port) <==> Listens(w.c, lb, port) || ListenerOf(w.st, port) == UNSET)
    && (Pooled(w'.c, lb, port) <==> Pooled(w.c, lb, port) || PoolOf(w.st, port) == UNSET)
  }

  /** As far as this port goes, the two worlds are alike. */
  ghost predicate SamePort(w: World, w': World, lb: Id, port: Port) {
    && (Listens(w'.c, lb, port) <==> Listens(w.c, lb, port)) && (Pooled(w'.c, lb, port) <==> Pooled(w.c, lb, port))
    && ListenerOf(w'.st, port) == ListenerOf(w.st, port) && PoolOf(w'.st, port) == PoolOf(w.st, port)
  }

  lemma ListenerStep(f: Oracle, w: World, step: Port, port: Port)
    requires EnsureListener(f, w, step).0
    ensures Listens(EnsureListener(f, w, step).1.c, w.st.lbId, port)
            <==> Listens(w.c, w.st.lbId, port) || (step == port && ListenerOf(w.st, port) == UNSET)
  {
    Wiring.PortNamesDiffer();
    hide PortName;
    var w' := EnsureListener(f, w, step).1;
    if w'.c.listeners != w.c.listeners {
      var x := w'.c.listeners[|w.c.listeners|];
      assert w'.c.listeners == w.c.listeners + [x] && x in w'.c.listeners && x.name == PortName(step) && x.lbs == [w.st.lbId];
    }
  }

  lemma PoolStep(f: Oracle, w: World, step: Port, port: Port)
    requires EnsurePool(f, w, step).0
    ensures Pooled(EnsurePool(f, w, step).1.c, w.st.lbId, port)
            <==> Pooled(w.c, w.st.lbId, port) || (step == port && PoolOf(w.st, port) == UNSET)
  {
    Wiring.PortNamesDiffer();
    hide PoolName;
    var w' := EnsurePool(f, w, step).1;
    if w'.c.pools != w.c.pools {
      var x := w'.c.pools[|w.c.pools|];
      assert w'.c.pools == w.c.pools + [x] && x in w'.c.pools && x.name == PoolName(step) && x.lb == w.st.lbId;
    }
  }

  lemma PortStep(f: Oracle, w: World, step: Port, port: Port)
    requires ReconcilePort(f, w, step).0
    ensures var w' := ReconcilePort(f, w, step).1;
            if step == port then ServedIff(w, w', w.st.lbId, port) else SamePort(w, w', w.st.lbId, port)
  {
    hide EnsureListener, EnsurePool, EnsureMonitor, Listens, Pooled;
    var w1 := EnsureListener(f, w, step).1;
    var w2 := EnsurePool(f, w1, step).1;
    ListenerStep(f, w, step, port);
    PoolStep(f, w1, step, port);
    SameLists(w, w1, w.st.lbId, port);
    SameLists(w1, w2, w.st.lbId, port);
    SameLists(w2, EnsureMonitor(f, w2, step), w.st.lbId, port);
  }

  lemma SameLists(w: World, w': World, lb: Id, port: Port)
    ensures w'.c.listeners == w.c.listeners ==> (Listens(w'.c, lb, port) <==> Listens(w.c, lb, port))
    ensures w'.c.pools == w.c.pools ==> (Pooled(w'.c, lb, port) <==> Pooled(w.c, lb, port))
  {
  }

  lemma HandleServes(f: Oracle, sp: Spec, w: World, lb: LoadBalancer, port: Port)
    requires HandleLb(f, sp, w, lb).0.Done?
    ensures ServedIff(w, HandleLb(f, sp, w, lb).1, w.st.lbId, port)
  {
    hide ReconcilePort, ServeEndpoint, Listens, Pooled;
    var w1 := ReconcilePort(f, w, ApiServer).1;
    var w2 := ReconcilePort(f, w1, Register).1;
    PortStep(f, w, ApiServer, port);
    PortStep(f, w1, Register, port);
    SameLists(w2, ServeEndpoint(f, sp, w2, lb).1, w.st.lbId, port);
  }

  /** A pass that ends Ready, whatever its calls answered, leaves the recorded load balancer with a
      listener for the port exactly when it had one or none was on record, and with a pool likewise:
      an ID on record is never looked at again. */
  lemma ReadyServesIff(f: Oracle, sp: Spec, w: World, port: Port)
    requires ReconcileNormal(f, sp, w).0.Done?
    ensures var w' := ReconcileNormal(f, sp, w).1;
            w'.st.lbId == Adopt(sp, w.st).lbId && ServedIff(w, w', w'.st.lbId, port)
  {
    hide ReconcileNetwork, ReconcileGroups, HandleLb, CreateLb, LbById, Listens, Pooled, ReconcileDns;
    var w2 := ReconcileGroups(f, sp, ReconcileNetwork(f, sp, Called(w)).1);
    var w0 := w2.(st := Adopt(sp, w2.st));
    var got := Answer(f, w0, LbById(w0.c, w0.st.lbId));
    HandleServes(f, sp, Called(w0), got.value, port);
    var w3 := ReconcileLb(f, sp, w2).1;
    SameLists(w, w0, w0.st.lbId, port);
    SameLists(w0, Called(w0), w0.st.lbId, port);
    SameLists(w3, ReconcileNormal(f, sp, w).1, w0.st.lbId, port);
  }

  // ---- A supervisor listener on record for a load balancer that has none ----

  ghost predicate Unserved(w: World, lb: Id) { w.st.regListenerId != UNSET && !Listens(w.c, lb, Register) }

  /** The step adds no supervisor listener and leaves the recorded one's ID alone. */
  ghost predicate NoneAdded(w: World, w': World) {
    && w'.st.regListenerId == w.st.regListenerId
    && forall x :: x in w'.c.listeners && x.name == PortName(Register) ==> x in w.c.listeners
  }

  lemma PortAddsNone(f: Oracle, w: World, step: Port)
    requires w.st.regListenerId != UNSET
    ensures NoneAdded(w, ReconcilePort(f, w, step).1)
  {
    Wiring.PortNamesDiffer();
    hide EnsurePool, EnsureMonitor, PortName;
    var w1 := EnsureListener(f, w, step).1;
    assert NoneAdded(w, w1);
  }

  lemma HandleAddsNone(f: Oracle, sp: Spec, w: World, lb: LoadBalancer)
    requires w.st.regListenerId != UNSET
    ensures NoneAdded(w, HandleLb(f, sp, w, lb).1)
  {
    hide ReconcilePort, ServeEndpoint, PortName;
    PortAddsNone(f, w, ApiServer);
    PortAddsNone(f, ReconcilePort(f, w, ApiServer).1, Register);
  }

  lemma NormalAddsNone(f: Oracle, sp: Spec, w: World)
    requires w.st.regListenerId != UNSET
    ensures NoneAdded(w, ReconcileNormal(f, sp, w).1)
  {
    hide ReconcileNetwork, ReconcileGroups, ReconcileLb, ReconcileDns, PortName;
    var w2 := ReconcileGroups(f, sp, ReconcileNetwork(f, sp, Called(w)).1);
    LbAddsNone(f, sp, w2);
  }

  lemma LbAddsNone(f: Oracle, sp: Spec, w: World)
    requires w.st.regListenerId != UNSET
    ensures NoneAdded(w, ReconcileLb(f, sp, w).1)
  {
    hide HandleLb, CreateLb, LbById, PortName;
    var w0 := w.(st := Adopt(sp, w.st));
    var got := Answer(f, w0, LbById(w0.c, w0.st.lbId));
    if got.Found? { HandleAddsNone(f, sp, Called(w0), got.value); }
  }

  lemma DeleteAddsNone(f: Oracle, sp: Spec, w: World, order: seq<string>)
    ensures NoneAdded(w, ReconcileDelete(f, sp, w, order).1)
  {
    hide ReconcileDelete, PortName;
    Wiring.DeleteThins(f, sp, w, order);
  }

  /** So the replacement of a vanished load balancer never gets its supervisor listener: the old one's ID
      stays on record, and while nobody else adds the listener no pass of any run does. */
  lemma {:induction false} UnservedForever(ws: nat -> World, acts: nat -> Action, lb: Id, n: nat)
    requires Unserved(ws(0), lb)
    requires forall k: nat :: Steps(ws, acts, k)
    requires forall k: nat :: acts(k).Other? ==> !Listens(acts(k).c, lb, Register)
    ensures Unserved(ws(n), lb) && ws(n).st.regListenerId == ws(0).st.regListenerId
  {
    hide ReconcileNormal, ReconcileDelete, PortName;
    if n > 0 {
      UnservedForever(ws, acts, lb, n - 1);
      assert Steps(ws, acts, n - 1) && n - 1 + 1 == n;
      match acts(n - 1)
      case Normal(sp, f, saved) => NormalAddsNone(f, sp, ws(n - 1));
      case Delete(sp, f, order, saved) => DeleteAddsNone(f, sp, ws(n - 1), order);
      case Other(c) =>
    }
  }
}
