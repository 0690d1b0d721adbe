/** The recorded API server listener and pool are those of the recorded load balancer, in every run.
    The supervisor port's are not (Ports.ReplacedLbListens). */
module Ties {
  import opened Collections
  import opened OvhCloud
  import opened ClusterSteps
  import opened ClusterDelete
  import opened ClusterRuns
  import Wiring

  /** An identifier is handed out once. */
  ghost predicate Unique(c: Cloud) {
    && (forall x :: x in c.listeners ==> UNSET < x.id < c.next)
    && (forall x :: x in c.pools ==> UNSET < x.id < c.next)
    && (forall x, y :: x in c.listeners && y in c.listeners && x.id == y.id ==> x == y)
    && (forall x, y :: x in c.pools && y in c.pools && x.id == y.id ==> x == y)
  }

  /** Whatever the recorded identifiers name is on the recorded load balancer; without one, none is on record. */
  ghost predicate Tied(c: Cloud, st: Status) {
    && (st.lbId == UNSET ==> st.listenerId == UNSET && st.poolId == UNSET)
    && st.listenerId < c.next && st.poolId < c.next
    && (forall x :: x in c.listeners && x.id == st.listenerId ==> st.lbId in x.lbs)
    && (forall x :: x in c.pools && x.id == st.poolId ==> x.lb == st.lbId)
  }

  /** Listeners and pools stay as they are, go, or come with a new identifier. */
  ghost predicate Held(c: Cloud, c': Cloud) {
    && c.next <= c'.next
    && (forall y :: y in c'.listeners ==> y.id >= c.next || y in c.listeners)
    && (forall y :: y in c'.pools ==> y.id >= c.next || y in c.pools)
  }

  ghost predicate StepOk(w: World, w': World) { Unique(w'.c) && Held(w.c, w'.c) && Tied(w'.c, w'.st) }

  lemma TiedHeld(c: Cloud, c': Cloud, st: Status)
    requires Held(c, c') && Tied(c, st)
    ensures Tied(c', st)
  {
  }

  lemma Then(w: World, w1: World, w2: World)
    requires StepOk(w, w1) && StepOk(w1, w2)
    ensures StepOk(w, w2)
  {
  }

  /** A step that leaves listeners, pools and their record alone. */
  lemma Elsewhere(w: World, w': World)
    requires Unique(w.c) && Tied(w.c, w.st) && w.c.next <= w'.c.next
    requires w'.c.listeners == w.c.listeners && w'.c.pools == w.c.pools
    requires w'.st.lbId == w.st.lbId && w'.st.listenerId == w.st.listenerId && w'.st.poolId == w.st.poolId
    ensures StepOk(w, w')
  {
  }

  lemma NewListener(c: Cloud, lb: Id, name: string, port: nat)
    requires Unique(c)
    ensures var c' := c.(next := c.next + 1, listeners := c.listeners + [Listener(c.next, name, [lb], port)]);
            Unique(c') && Held(c, c') && forall x :: x in c'.listeners && x.id == c.next ==> lb in x.lbs
  {
  }

  lemma FoundListener(c: Cloud, lb: Id, name: string)
    requires Unique(c)
    ensures forall x :: ListenerByName(c, lb, name) == Some(x) ==>
              UNSET < x.id < c.next && forall y :: y in c.listeners && y.id == x.id ==> lb in y.lbs
  {
  }

  lemma TieListener(c: Cloud, st: Status, port: Port, id: Id)
    requires Tied(c, st) && st.lbId != UNSET && id < c.next
    requires forall x :: x in c.listeners && x.id == id ==> st.lbId in x.lbs
    ensures Tied(c, WithListener(st, port, id))
  {
  }

  lemma ListenerTied(f: Oracle, w: World, port: Port)
    requires Unique(w.c) && Tied(w.c, w.st) && w.st.lbId != UNSET
    ensures StepOk(w, EnsureListener(f, w, port).1)
  {
    hide Unique, Held, Tied, PortName, ListenerByName;
    Elsewhere(w, w);
    var lb := w.st.lbId;
    NewListener(w.c, lb, PortName(port), PortNumber(port));
    FoundListener(Called(w).c, lb, PortName(port));
    var w' := EnsureListener(f, w, port).1;
    if w'.c != w.c { TiedHeld(w.c, w'.c, w.st); }
    if ListenerOf(w'.st, port) != ListenerOf(w.st, port) { TieListener(w'.c, w.st, port, ListenerOf(w'.st, port)); }
  }

  lemma NewPool(c: Cloud, lb: Id, name: string, listener: Id)
    requires Unique(c)
    ensures var c' := c.(next := c.next + 1, pools := c.pools + [Pool(c.next, name, lb, listener)]);
            Unique(c') && Held(c, c') && forall x :: x in c'.pools && x.id == c.next ==> x.lb == lb
  {
  }

  lemma FoundPool(c: Cloud, lb: Id, name: string)
    requires Unique(c)
    ensures forall x :: PoolByName(c, lb, name) == Some(x) ==>
              UNSET < x.id < c.next && forall y :: y in c.pools && y.id == x.id ==> y.lb == lb
  {
  }

  lemma TiePool(c: Cloud, st: Status, port: Port, id: Id)
    requires Tied(c, st) && st.lbId != UNSET && id < c.next
    requires forall x :: x in c.pools && x.id == id ==> x.lb == st.lbId
    ensures Tied(c, WithPool(st, port, id))
  {
  }

  lemma PoolTied(f: Oracle, w: World, port: Port)
    requires Unique(w.c) && Tied(w.c, w.st) && w.st.lbId != UNSET
    ensures StepOk(w, EnsurePool(f, w, port).1)
  {
    hide Unique, Held, Tied, PoolName, PoolByName;
    Elsewhere(w, w);
    var lb := w.st.lbId;
    NewPool(w.c, lb, PoolName(port), ListenerOf(w.st, port));
    FoundPool(Called(w).c, lb, PoolName(port));
    var w' := EnsurePool(f, w, port).1;
    if w'.c != w.c { TiedHeld(w.c, w'.c, w.st); }
    if PoolOf(w'.st, port) != PoolOf(w.st, port) { TiePool(w'.c, w.st, port, PoolOf(w'.st, port)); }
  }

  lemma PortTied(f: Oracle, w: World, port: Port)
    requires Unique(w.c) && Tied(w.c, w.st) && w.st.lbId != UNSET
    ensures StepOk(w, ReconcilePort(f, w, port).1) && ReconcilePort(f, w, port).1.st.lbId == w.st.lbId
  {
    hide EnsureListener, EnsurePool, EnsureMonitor, Unique, Held, Tied;
    ListenerTied(f, w, port);
    var w1 := EnsureListener(f, w, port).1;
    PoolTied(f, w1, port);
    var w2 := EnsurePool(f, w1, port).1;
    Then(w, w1, w2);
    var w3 := EnsureMonitor(f, w2, port);
    Elsewhere(w2, w3);
    Then(w, w2, w3);
  }

  lemma HandleTied(f: Oracle, sp: Spec, w: World, lb: LoadBalancer)
    requires Unique(w.c) && Tied(w.c, w.st) && w.st.lbId != UNSET
    ensures StepOk(w, HandleLb(f, sp, w, lb).1)
  {
    hide ReconcilePort, ServeEndpoint, Unique, Held, Tied;
    Elsewhere(w, w);
    if Active(lb) {
      PortTied(f, w, ApiServer);
      var (ok1, w1) := ReconcilePort(f, w, ApiServer);
      PortTied(f, w1, Register);
      var (ok2, w2) := ReconcilePort(f, w1, Register);
      Then(w, w1, w2);
      var w3 := ServeEndpoint(f, sp, w2, lb).1;
      Elsewhere(w2, w3);
      Then(w, w2, w3);
    }
  }

  /** Before a load balancer is created nothing is on record for its port. */
  lemma CreateTied(f: Oracle, sp: Spec, w: World)
    requires Unique(w.c) && Tied(w.c, w.st) && w.st.listenerId == UNSET && w.st.poolId == UNSET
    ensures StepOk(w, CreateLb(f, sp, w).1)
  {
    hide CreateLb;
  }

  lemma LbTied(f: Oracle, sp: Spec, w: World)
    requires Unique(w.c) && Tied(w.c, w.st)
    ensures StepOk(w, ReconcileLb(f, sp, w).1)
  {
    hide HandleLb, CreateLb, LbById;
    var w0 := w.(st := Adopt(sp, w.st));
    assert StepOk(w, w0);
    if w0.st.lbId == UNSET {
      CreateTied(f, sp, w0);
      Then(w, w0, CreateLb(f, sp, w0).1);
    } else {
      var got, w1 := Answer(f, w0, LbById(w0.c, w0.st.lbId)), Called(w0);
      assert StepOk(w, w1);
      var w2 := w1.(st := ForgetLb(w1.st));
      assert StepOk(w, w2);
      match got
      case Found(lb) =>
        HandleTied(f, sp, w1, lb);
        Then(w, w1, HandleLb(f, sp, w1, lb).1);
      case Absent =>
        CreateTied(f, sp, w2);
        Then(w, w2, CreateLb(f, sp, w2).1);
      case Broken =>
    }
  }

  // ---- Whole passes ----

  lemma NormalTied(f: Oracle, sp: Spec, w: World)
    requires Unique(w.c) && Tied(w.c, w.st)
    ensures StepOk(w, ReconcileNormal(f, sp, w).1)
  {
    hide ReconcileNetwork, ReconcileGroups, ReconcileLb, ReconcileDns, Unique, Held, Tied;
    Elsewhere(w, w.(st := w.st.(finalizer := true)));
    Elsewhere(w, Called(w));
    if w.st.finalizer && Up(f, w) {
      var w1 := ReconcileNetwork(f, sp, Called(w)).1;
      Elsewhere(w, w1);
      var w2 := ReconcileGroups(f, sp, w1);
      Elsewhere(w, w2);
      LbTied(f, sp, w2);
      var w3 := ReconcileLb(f, sp, w2).1;
      Then(w, w2, w3);
      var w4 := ReconcileDns(f, sp, w3);
      Elsewhere(w3, w4.(st := w4.st.(ready := true)));
      Then(w, w3, w4.(st := w4.st.(ready := true)));
    }
  }

  lemma DeleteTied(f: Oracle, sp: Spec, w: World, order: seq<string>)
    requires Unique(w.c) && Tied(w.c, w.st)
    ensures StepOk(w, ReconcileDelete(f, sp, w, order).1)
  {
    hide ReconcileDelete;
    Wiring.DeleteThins(f, sp, w, order);
  }

  // ---- Runs ----

  /** What others do reuses no identifier and changes no listener or pool that stays. */
  ghost predicate OthersHold(w: World, a: Action) { a.Other? ==> Unique(a.c) && Held(w.c, a.c) }

  /** In every run, spec edits, vanished load balancers, failed calls and lost patches included, the API
      server listener and pool on record are, as long as they exist, on the load balancer on record. */
  lemma {:induction false} ApiPortTied(ws: nat -> World, acts: nat -> Action, n: nat)
    requires Unique(ws(0).c) && Tied(ws(0).c, ws(0).st)
    requires forall k: nat :: Steps(ws, acts, k)
    requires forall k: nat :: OthersHold(ws(k), acts(k))
    ensures Unique(ws(n).c) && Tied(ws(n).c, ws(n).st)
  {
    hide ReconcileNormal, ReconcileDelete, Unique, Held, Tied;
    if n > 0 {
      ApiPortTied(ws, acts, n - 1);
      var w := ws(n - 1);
      assert Steps(ws, acts, n - 1) && OthersHold(w, acts(n - 1));
      match acts(n - 1)
      case Normal(sp, f, saved) =>
        NormalTied(f, sp, w);
        TiedHeld(w.c, ReconcileNormal(f, sp, w).1.c, w.st);
      case Delete(sp, f, order, saved) =>
        DeleteTied(f, sp, w, order);
        TiedHeld(w.c, ReconcileDelete(f, sp, w, order).1.c, w.st);
      case Other(c) => TiedHeld(w.c, c, w.st);
    }
  }
}
