/** What is recorded and what is connected: in every run each recorded identifier names a resource of
    the right name, listeners of a port's name listen on its port, and pools and monitors of a
    port's name hang on that port's listener and pool. */
module Wiring {
  import opened Collections
  import opened OvhCloud
  import opened ClusterSteps
  import opened ClusterDelete
  import opened ClusterRuns
  import Names

  // ---- The cloud ----

  /** Identifiers are handed out once. */
  ghost predicate Known(c: Cloud) {
    && (forall x :: x in c.listeners ==> UNSET < x.id < c.next)
    && (forall x :: x in c.pools ==> UNSET < x.id < c.next)
    && (forall x :: x in c.groups ==> UNSET < x.id < c.next)
    && (forall x :: x in c.gateways ==> UNSET < x.id < c.next)
    && (forall x :: x in c.lbs ==> UNSET < x.id < c.next)
    && (forall x, y :: x in c.listeners && y in c.listeners && x.id == y.id ==> x.name == y.name)
    && (forall x, y :: x in c.pools && y in c.pools && x.id == y.id ==> x.name == y.name)
    && (forall x, y :: x in c.groups && y in c.groups && x.id == y.id ==> x.name == y.name)
    && (forall x, y :: x in c.gateways && y in c.gateways && x.id == y.id ==> x.name == y.name)
    && (forall x, y :: x in c.lbs && y in c.lbs && x.id == y.id ==> x.name == y.name)
  }

  ghost predicate ListenerNamed(c: Cloud, id: Id, name: string) {
    id < c.next && forall x :: x in c.listeners && x.id == id ==> x.name == name
  }

  ghost predicate PoolNamed(c: Cloud, id: Id, name: string) {
    id < c.next && forall x :: x in c.pools && x.id == id ==> x.name == name
  }

  ghost predicate GroupNamed(c: Cloud, id: Id, name: string) {
    id < c.next && forall x :: x in c.groups && x.id == id ==> x.name == name
  }

  ghost predicate GatewayNamed(c: Cloud, id: Id, name: string) {
    id < c.next && forall x :: x in c.gateways && x.id == id ==> x.name == name
  }

  ghost predicate LbNamed(c: Cloud, id: Id, name: string) {
    id < c.next && forall x :: x in c.lbs && x.id == id ==> x.name == name
  }

  /** Listeners, pools and monitors of a port's names are connected as that port needs. */
  ghost predicate Connected(c: Cloud, port: Port) {
    && (forall x :: x in c.listeners && x.name == PortName(port) ==> x.port == PortNumber(port))
    && (forall x :: x in c.pools && x.name == PoolName(port) ==> ListenerNamed(c, x.listener, PortName(port)))
    && (forall x :: x in c.monitors && x.name == MonitorName(port) ==> PoolNamed(c, x.pool, PoolName(port)))
  }

  /** In numbers: the API server listens on 6443 and the supervisor on 9345. */
  ghost predicate PortsByNumber(c: Cloud) {
    && (forall x :: x in c.listeners && x.name == "api-server" ==> x.port == 6443)
    && (forall x :: x in c.listeners && x.name == "rke2-register" ==> x.port == 9345)
  }

  lemma TidyByNumber(c: Cloud)
    requires Tidy(c)
    ensures PortsByNumber(c)
  {
  }

  ghost predicate Tidy(c: Cloud) { Known(c) && Connected(c, ApiServer) && Connected(c, Register) }

  // ---- The record ----

  ghost predicate PortRecorded(c: Cloud, st: Status, port: Port) {
    ListenerNamed(c, ListenerOf(st, port), PortName(port)) && PoolNamed(c, PoolOf(st, port), PoolName(port))
  }

  ghost predicate GroupsRecorded(sp: Spec, c: Cloud, st: Status) {
    forall g :: g in st.groupIds ==> GroupNamed(c, st.groupIds[g], GroupName(sp, g))
  }

  ghost predicate Recorded(sp: Spec, c: Cloud, st: Status) {
    && PortRecorded(c, st, ApiServer) && PortRecorded(c, st, Register) && GroupsRecorded(sp, c, st)
    && GatewayNamed(c, st.gatewayId, GatewayName(sp))
  }

  /** Resources keep identifier and name, go, or come with a new identifier. */
  ghost predicate Grown(c: Cloud, c': Cloud) {
    && c.next <= c'.next
    && (forall y :: y in c'.listeners ==> y.id >= c.next || y in c.listeners)
    && (forall y :: y in c'.pools ==> y.id >= c.next || y in c.pools)
    && (forall y :: y in c'.groups ==> y.id >= c.next || y in c.groups)
    && (forall y :: y in c'.gateways ==> y.id >= c.next || exists x :: x in c.gateways && x.id == y.id && x.name == y.name)
    && (forall y :: y in c'.lbs ==> y.id >= c.next || exists x :: x in c.lbs && x.id == y.id && x.name == y.name)
  }

  lemma GrownTransitive(a: Cloud, b: Cloud, c: Cloud)
    requires Grown(a, b) && Grown(b, c)
    ensures Grown(a, c)
  {
  }

  lemma RecordedGrown(sp: Spec, c: Cloud, c': Cloud, st: Status)
    requires Grown(c, c') && Recorded(sp, c, st)
    ensures Recorded(sp, c', st)
  {
  }

  /** The load balancer on record is as before, none, the spec's, or one of the cluster's generated name. */
  ghost predicate LbKept(sp: Spec, w: World, w': World) {
    || w'.st.lbId == w.st.lbId || w'.st.lbId == UNSET || w'.st.lbId == sp.existingLb
    || LbNamed(w'.c, w'.st.lbId, Names.LbName(sp.name))
  }

  /** A step from `w` to `w'` keeps the cloud tidy and the record right, and is no surprise to an
      object saved before it. */
  ghost predicate StepOk(sp: Spec, w: World, w': World) {
    Tidy(w'.c) && Grown(w.c, w'.c) && Recorded(sp, w'.c, w'.st) && LbKept(sp, w, w')
  }

  lemma Then(sp: Spec, w: World, w1: World, w2: World)
    requires StepOk(sp, w, w1) && StepOk(sp, w1, w2)
    ensures StepOk(sp, w, w2)
  {
    GrownTransitive(w.c, w1.c, w2.c);
  }

  /** A step that touches none of these resources nor their record. */
  lemma Elsewhere(sp: Spec, w: World, w': World)
    requires Tidy(w.c) && Recorded(sp, w.c, w.st)
    requires w'.c == w.c.(next := w'.c.next, networks := w'.c.networks, fips := w'.c.fips, records := w'.c.records) && w.c.next <= w'.c.next
    requires w'.st == w.st.(finalizer := w'.st.finalizer, ready := w'.st.ready, endpoint := w'.st.endpoint,
                            networkId := w'.st.networkId, networkCreated := w'.st.networkCreated, subnetId := w'.st.subnetId,
                            fipId := w'.st.fipId, gatewayExposed := w'.st.gatewayExposed, recordId := w'.st.recordId)
    ensures StepOk(sp, w, w')
  {
  }

  // ---- Ports ----

  lemma PortNamesDiffer()
    ensures PortName(ApiServer) != PortName(Register) && PoolName(ApiServer) != PoolName(Register)
    ensures MonitorName(ApiServer) != MonitorName(Register)
  {
  }

  lemma NewListener(c: Cloud, port: Port, lb: Id)
    requires Tidy(c)
    ensures var c' := c.(next := c.next + 1, listeners := c.listeners + [Listener(c.next, PortName(port), [lb], PortNumber(port))]);
            Tidy(c') && Grown(c, c') && ListenerNamed(c', c.next, PortName(port))
  {
    PortNamesDiffer();
    hide PortName, PoolName, MonitorName, GroupNamed, GatewayNamed, LbNamed, PortNumber;
    var c' := c.(next := c.next + 1, listeners := c.listeners + [Listener(c.next, PortName(port), [lb], PortNumber(port))]);
    assert Known(c') && Grown(c, c');
    hide Known, Grown;
    assert Connected(c', ApiServer);
    assert Connected(c', Register);
  }

  lemma FoundListener(c: Cloud, lb: Id, name: string)
    requires Tidy(c)
    ensures forall x :: ListenerByName(c, lb, name) == Some(x) ==> ListenerNamed(c, x.id, name) && UNSET < x.id
  {
  }

  lemma RecordListener(sp: Spec, c: Cloud, st: Status, port: Port, id: Id)
    requires Recorded(sp, c, st) && ListenerNamed(c, id, PortName(port))
    ensures Recorded(sp, c, WithListener(st, port, id))
  {
  }

  /** A cloud that grew tidily, under an unchanged record. */
  lemma CloudStep(sp: Spec, w: World, w': World)
    requires Recorded(sp, w.c, w.st) && Tidy(w'.c) && Grown(w.c, w'.c) && w'.st == w.st
    ensures StepOk(sp, w, w')
  {
    RecordedGrown(sp, w.c, w'.c, w.st);
  }

  lemma ListenerWired(f: Oracle, sp: Spec, w: World, port: Port)
    requires Tidy(w.c) && Recorded(sp, w.c, w.st)
    ensures var (ok, w') := EnsureListener(f, w, port);
            StepOk(sp, w, w') && (ok ==> UNSET < ListenerOf(w'.st, port))
  {
    hide Tidy, Recorded, Grown, ListenerByName, PortName, ListenerNamed;
    StandingStill(sp, w);
    FoundListener(w.c, w.st.lbId, PortName(port));
    NewListener(w.c, port, w.st.lbId);
    var found := ListenerByName(w.c, w.st.lbId, PortName(port));
    assert ListenerByName(Called(w).c, w.st.lbId, PortName(port)) == found;
    if ListenerOf(w.st, port) == UNSET && Up(f, w) {
      if found.Some? {
        RecordListener(sp, w.c, w.st, port, found.value.id);
      } else {
        var (id, w2) := PostListener(f, Called(w), PortName(port), PortNumber(port), w.st.lbId);
        if id != UNSET {
          CloudStep(sp, w, w2);
          RecordListener(sp, w2.c, w2.st, port, id);
        }
      }
    }
  }

  lemma NewPool(c: Cloud, port: Port, lb: Id, listener: Id)
    requires Tidy(c) && ListenerNamed(c, listener, PortName(port))
    ensures var c' := c.(next := c.next + 1, pools := c.pools + [Pool(c.next, PoolName(port), lb, listener)]);
            Tidy(c') && Grown(c, c') && PoolNamed(c', c.next, PoolName(port))
  {
    PortNamesDiffer();
    hide PortName, PoolName, MonitorName, GroupNamed, GatewayNamed, LbNamed, PortNumber;
    var c' := c.(next := c.next + 1, pools := c.pools + [Pool(c.next, PoolName(port), lb, listener)]);
    assert Known(c') && Grown(c, c');
    hide Known, Grown;
    assert Connected(c', ApiServer);
    assert Connected(c', Register);
  }

  lemma FoundPool(c: Cloud, lb: Id, name: string)
    requires Tidy(c)
    ensures forall x :: PoolByName(c, lb, name) == Some(x) ==> PoolNamed(c, x.id, name)
  {
  }

  lemma RecordPool(sp: Spec, c: Cloud, st: Status, port: Port, id: Id)
    requires Recorded(sp, c, st) && PoolNamed(c, id, PoolName(port))
    ensures Recorded(sp, c, WithPool(st, port, id)) && WithPool(st, port, id).lbId == st.lbId
  {
  }

  lemma RecordedListener(sp: Spec, c: Cloud, st: Status, port: Port)
    requires Recorded(sp, c, st)
    ensures ListenerNamed(c, ListenerOf(st, port), PortName(port))
  {
  }

  /** The three ways in which the step changes something. */
  lemma PoolFound(f: Oracle, sp: Spec, w: World, port: Port)
    requires Tidy(w.c) && Recorded(sp, w.c, w.st) && PoolByName(w.c, w.st.lbId, PoolName(port)).Some?
    ensures StepOk(sp, w, Called(w).(st := WithPool(w.st, port, PoolByName(w.c, w.st.lbId, PoolName(port)).value.id)))
  {
    hide Tidy, Recorded, Grown, PoolByName, PoolName, PoolNamed, WithPool;
    SelfGrown(w.c);
    FoundPool(w.c, w.st.lbId, PoolName(port));
    RecordPool(sp, w.c, w.st, port, PoolByName(w.c, w.st.lbId, PoolName(port)).value.id);
  }

  lemma PoolPosted(f: Oracle, sp: Spec, w: World, port: Port)
    requires Tidy(w.c) && Recorded(sp, w.c, w.st)
    ensures var (id, w1) := PostPool(f, w, PoolName(port), w.st.lbId, ListenerOf(w.st, port));
            StepOk(sp, w, w1) && (id != UNSET ==> StepOk(sp, w, w1.(st := WithPool(w1.st, port, id))))
  {
    hide Tidy, Recorded, Grown, PoolName, PoolNamed, ListenerNamed, WithPool, ListenerOf;
    StandingStill(sp, w);
    RecordedListener(sp, w.c, w.st, port);
    NewPool(w.c, port, w.st.lbId, ListenerOf(w.st, port));
    var (id, w1) := PostPool(f, w, PoolName(port), w.st.lbId, ListenerOf(w.st, port));
    if id != UNSET {
      CloudStep(sp, w, w1);
      RecordPool(sp, w1.c, w1.st, port, id);
    }
  }

  lemma PoolWired(f: Oracle, sp: Spec, w: World, port: Port)
    requires Tidy(w.c) && Recorded(sp, w.c, w.st)
    ensures StepOk(sp, w, EnsurePool(f, w, port).1)
  {
    hide Tidy, Recorded, StepOk, Grown, PoolByName, PoolName, PoolNamed, WithPool, ListenerOf, PostPool;
    StandingStill(sp, w);
    var w1 := Called(w);
    FipAsideOk(sp, w, w, w1);
    Parts(sp, w, w1);
    if PoolByName(w.c, w.st.lbId, PoolName(port)).Some? { PoolFound(f, sp, w, port); }
    PoolPosted(f, sp, w1, port);
    var (id, w2) := PostPool(f, w1, PoolName(port), w1.st.lbId, ListenerOf(w1.st, port));
    Then(sp, w, w1, w2);
    if id != UNSET { Then(sp, w, w1, w2.(st := WithPool(w2.st, port, id))); }
  }

  lemma MonitorWired(f: Oracle, sp: Spec, w: World, port: Port)
    requires Tidy(w.c) && Recorded(sp, w.c, w.st)
    ensures StepOk(sp, w, EnsureMonitor(f, w, port))
  {
    PortNamesDiffer();
    var w' := EnsureMonitor(f, w, port);
    assert w'.c == w.c || w'.c.monitors == w.c.monitors + [Monitor(w.c.next, MonitorName(port), PoolOf(w.st, port))];
  }

  lemma PortWired(f: Oracle, sp: Spec, w: World, port: Port)
    requires Tidy(w.c) && Recorded(sp, w.c, w.st)
    ensures StepOk(sp, w, ReconcilePort(f, w, port).1)
  {
    hide EnsureListener, EnsurePool, EnsureMonitor, Tidy, Recorded, Grown;
    ListenerWired(f, sp, w, port);
    var (ok1, w1) := EnsureListener(f, w, port);
    if ok1 {
      PoolWired(f, sp, w1, port);
      var (ok2, w2) := EnsurePool(f, w1, port);
      Then(sp, w, w1, w2);
      if ok2 {
        MonitorWired(f, sp, w2, port);
        Then(sp, w, w2, EnsureMonitor(f, w2, port));
      }
    }
  }

  // ---- Groups ----

  ghost predicate ListedEarlier(c: Cloud, listed: seq<Group>) {
    forall x :: x in listed ==> x.id < c.next && forall y :: y in c.groups && y.id == x.id ==> y.name == x.name
  }

  lemma {:induction false} LastNamedIn(s: seq<Group>, name: string)
    ensures var r := LastNamed(s, name); r.Some? ==> exists x :: x in s && x.id == r.value && x.name == name
  {
    if s != [] {
      var n := |s| - 1;
      assert s[n] in s;
      LastNamedIn(s[..n], name);
    }
  }

  lemma NewGroup(c: Cloud, name: string, listed: seq<Group>)
    requires Tidy(c) && ListedEarlier(c, listed)
    ensures var c' := c.(next := c.next + 1, groups := c.groups + [Group(c.next, name)]);
            Tidy(c') && Grown(c, c') && GroupNamed(c', c.next, name) && ListedEarlier(c', listed)
  {
    hide PortName, PoolName, MonitorName, GatewayNamed, LbNamed;
    var c' := c.(next := c.next + 1, groups := c.groups + [Group(c.next, name)]);
    assert Connected(c', ApiServer) && Connected(c', Register);
    hide Connected;
    assert Known(c') && Grown(c, c');
    hide Known, Grown;
  }

  lemma RecordGroup(sp: Spec, c: Cloud, st: Status, g: string, id: Id)
    requires Recorded(sp, c, st) && GroupNamed(c, id, GroupName(sp, g))
    ensures Recorded(sp, c, st.(groupIds := st.groupIds[g := id]))
  {
  }

  lemma PostGroupWired(f: Oracle, sp: Spec, w: World, g: string, listed: seq<Group>)
    requires Tidy(w.c) && Recorded(sp, w.c, w.st) && ListedEarlier(w.c, listed)
    ensures var (id, w1) := PostGroup(f, w, GroupName(sp, g));
            var w2 := w1.(st := w1.st.(groupIds := w1.st.groupIds[g := id]));
            StepOk(sp, w, w1) && (id != UNSET ==> StepOk(sp, w, w2)) && ListedEarlier(w1.c, listed)
  {
    hide GroupName, Tidy, Recorded, Grown, ListedEarlier, GroupNamed;
    StandingStill(sp, w);
    NewGroup(w.c, GroupName(sp, g), listed);
    var (id, w1) := PostGroup(f, w, GroupName(sp, g));
    if id != UNSET {
      CloudStep(sp, w, w1);
      RecordGroup(sp, w1.c, w1.st, g, id);
    }
  }

  lemma AdoptGroupWired(sp: Spec, w: World, g: string, id: Id, listed: seq<Group>)
    requires Tidy(w.c) && Recorded(sp, w.c, w.st) && ListedEarlier(w.c, listed)
    requires LastNamed(listed, GroupName(sp, g)) == Some(id)
    ensures StepOk(sp, w, w.(st := w.st.(groupIds := w.st.groupIds[g := id])))
  {
    hide GroupName, Tidy, Recorded, Grown;
    LastNamedIn(listed, GroupName(sp, g));
    assert GroupNamed(w.c, id, GroupName(sp, g));
    SelfGrown(w.c);
    RecordGroup(sp, w.c, w.st, g, id);
  }

  lemma {:induction false} EnsureGroupsWired(f: Oracle, sp: Spec, w: World, listed: seq<Group>, todo: seq<string>)
    requires Tidy(w.c) && Recorded(sp, w.c, w.st) && ListedEarlier(w.c, listed)
    ensures StepOk(sp, w, EnsureGroups(f, sp, w, listed, todo))
    decreases |todo|
  {
    hide Tidy, Recorded, ListedEarlier, PostGroup, GroupName, Grown;
    if todo == [] {
      StandingStill(sp, w);
    } else {
      var g := todo[0];
      if g in w.st.groupIds && w.st.groupIds[g] != UNSET {
        EnsureGroupsWired(f, sp, w, listed, todo[1..]);
      } else {
        var found := LastNamed(listed, GroupName(sp, g));
        if found.Some? {
          var w1 := w.(st := w.st.(groupIds := w.st.groupIds[g := found.value]));
          AdoptGroupWired(sp, w, g, found.value, listed);
          EnsureGroupsWired(f, sp, w1, listed, todo[1..]);
          Then(sp, w, w1, EnsureGroups(f, sp, w, listed, todo));
        } else {
          PostGroupWired(f, sp, w, g, listed);
          var (id, w1) := PostGroup(f, w, GroupName(sp, g));
          if id != UNSET {
            var w2 := w1.(st := w1.st.(groupIds := w1.st.groupIds[g := id]));
            EnsureGroupsWired(f, sp, w2, listed, todo[1..]);
            Then(sp, w, w2, EnsureGroups(f, sp, w, listed, todo));
          }
        }
      }
    }
  }

  lemma StandingStill(sp: Spec, w: World)
    requires Tidy(w.c) && Recorded(sp, w.c, w.st)
    ensures StepOk(sp, w, w)
  {
  }

  lemma GroupsWired(f: Oracle, sp: Spec, w: World)
    requires Tidy(w.c) && Recorded(sp, w.c, w.st)
    ensures StepOk(sp, w, ReconcileGroups(f, sp, w))
  {
    hide EnsureGroups;
    StandingStill(sp, w);
    assert ListedEarlier(Called(w).c, w.c.groups);
    EnsureGroupsWired(f, sp, Called(w), w.c.groups, sp.groups);
  }

  // ---- Gateways ----

  lemma ExposedOnly(sp: Spec, c: Cloud, id: Id)
    requires Tidy(c)
    ensures var c' := c.(gateways := Rewrite(c.gateways, (g: Gateway) => if g.id == id then g.(exposed := true) else g));
            Tidy(c') && Grown(c, c')
  {
    hide PortName, PoolName, MonitorName, GroupNamed, LbNamed;
    var s, t := c.gateways, Rewrite(c.gateways, (g: Gateway) => if g.id == id then g.(exposed := true) else g);
    forall y | y in t ensures exists x :: x in s && x.id == y.id && x.name == y.name {
      var i :| 0 <= i < |t| && t[i] == y;
      assert s[i] in s && s[i].id == y.id && s[i].name == y.name;
    }
  }

  lemma FoundGateway(sp: Spec, w: World)
    requires Tidy(w.c) && Recorded(sp, w.c, w.st) && GatewayByName(w.c, GatewayName(sp)).Some?
    ensures Recorded(sp, w.c, w.st.(gatewayId := GatewayByName(w.c, GatewayName(sp)).value.id))
  {
  }

  lemma FindGatewayFrame(f: Oracle, sp: Spec, w: World)
    ensures var w' := FindGateway(f, sp, w).1;
            w'.c == w.c && (w'.st == w.st
                            || (GatewayByName(w.c, GatewayName(sp)).Some?
                                && w'.st == w.st.(gatewayId := GatewayByName(w.c, GatewayName(sp)).value.id)))
  {
  }

  lemma FindGatewayWired(f: Oracle, sp: Spec, w: World)
    requires Tidy(w.c) && Recorded(sp, w.c, w.st)
    ensures StepOk(sp, w, FindGateway(f, sp, w).1)
  {
    hide Tidy, Recorded, Grown, GatewayByName, GatewayName, FindGateway;
    SelfGrown(w.c);
    FindGatewayFrame(f, sp, w);
    if GatewayByName(w.c, GatewayName(sp)).Some? { FoundGateway(sp, w); }
  }

  lemma GatewayWired(f: Oracle, sp: Spec, w: World)
    requires Tidy(w.c) && Recorded(sp, w.c, w.st)
    ensures StepOk(sp, w, EnsureGatewayExposed(f, sp, w))
  {
    hide Tidy, Recorded, Grown, FindGateway, StepOk, ExposeGateway;
    StandingStill(sp, w);
    FindGatewayWired(f, sp, w);
    var (ok, w1) := FindGateway(f, sp, w);
    Parts(sp, w, w1);
    ExposedWired(f, sp, w1);
    Then(sp, w, w1, ExposeGateway(f, w1, w1.st.gatewayId).1);
    Then(sp, w, w1, ExposeGateway(f, w1, w1.st.gatewayId).1.(st := w1.st.(gatewayExposed := true)));
  }

  lemma ExposedWired(f: Oracle, sp: Spec, w: World)
    requires Tidy(w.c) && Recorded(sp, w.c, w.st)
    ensures var w' := ExposeGateway(f, w, w.st.gatewayId).1;
            StepOk(sp, w, w') && StepOk(sp, w, w'.(st := w.st.(gatewayExposed := true))) && w'.st == w.st
  {
    hide Tidy, Recorded, Grown;
    var w' := ExposeGateway(f, w, w.st.gatewayId).1;
    ExposedOnly(sp, w.c, w.st.gatewayId);
    SelfGrown(w.c);
    CloudStep(sp, w, w');
    Elsewhere(sp, w', w'.(st := w.st.(gatewayExposed := true)));
    Then(sp, w, w', w'.(st := w.st.(gatewayExposed := true)));
  }

  lemma SelfGrown(c: Cloud)
    ensures Grown(c, c)
  {
  }

  lemma NewGateway(c: Cloud, g: Gateway, c': Cloud)
    requires Tidy(c) && c.next <= g.id < c'.next
    requires c' == c.(next := c'.next, fips := c'.fips, gateways := c'.gateways)
    requires c'.gateways == c.gateways || c'.gateways == c.gateways + [g]
    ensures Tidy(c') && Grown(c, c')
  {
    hide PortName, PoolName, MonitorName, GroupNamed, LbNamed;
  }

  lemma PostFipWired(f: Oracle, sp: Spec, w: World, lb: LoadBalancer)
    requires Tidy(w.c) && Recorded(sp, w.c, w.st)
    ensures StepOk(sp, w, PostLbFip(f, w, lb, GatewayName(sp)).1)
  {
    hide Tidy, Recorded, Grown, GatewayName;
    var w' := PostLbFip(f, w, lb, GatewayName(sp)).1;
    if Up(f, w) {
      NewGateway(w.c, Gateway(w.c.next + 2, GatewayName(sp), lb.net, false, false, 0), w'.c);
    } else {
      SelfGrown(w.c);
    }
    CloudStep(sp, w, w');
  }

  /** A floating-IP record, the API calls and the sightings do not matter here. */
  ghost predicate FipAside(w: World, w': World) {
    w'.c == w.c && w'.st == w.st.(fipId := w'.st.fipId)
  }

  lemma FipAsideOk(sp: Spec, w: World, w1: World, w2: World)
    requires StepOk(sp, w, w1) && FipAside(w1, w2)
    ensures StepOk(sp, w, w2)
  {
    Elsewhere(sp, w1, w2);
    Then(sp, w, w1, w2);
  }

  lemma AllocateWired(f: Oracle, sp: Spec, w: World, lb: LoadBalancer)
    requires Tidy(w.c) && Recorded(sp, w.c, w.st)
    ensures StepOk(sp, w, AllocateFip(f, sp, w, lb).1)
  {
    hide EnsureGatewayExposed, PostLbFip, StepOk, Tidy, Recorded;
    PostFipWired(f, sp, w, lb);
    var w1 := PostLbFip(f, w, lb, GatewayName(sp)).1;
    Parts(sp, w, w1);
    GatewayWired(f, sp, w1);
    var w2 := EnsureGatewayExposed(f, sp, w1);
    Then(sp, w, w1, w2);
    var w' := AllocateFip(f, sp, w, lb).1;
    assert w' == w1 || FipAside(w2, w');
    if w' != w1 { FipAsideOk(sp, w, w2, w'); }
  }

  lemma Parts(sp: Spec, w: World, w': World)
    requires StepOk(sp, w, w')
    ensures Tidy(w'.c) && Recorded(sp, w'.c, w'.st)
  {
  }

  lemma DiscoverWired(f: Oracle, sp: Spec, w: World, lb: LoadBalancer)
    requires Tidy(w.c) && Recorded(sp, w.c, w.st)
    ensures StepOk(sp, w, DiscoverFip(f, sp, w, lb).1)
  {
    hide EnsureGatewayExposed, AllocateFip, StepOk, Tidy, Recorded;
    StandingStill(sp, w);
    FipAsideOk(sp, w, w, Called(w));
    Parts(sp, w, Called(w));
    AllocateWired(f, sp, Called(w), lb);
    Then(sp, w, Called(w), AllocateFip(f, sp, Called(w), lb).1);
    if FipOfLb(w.c, lb.id).Some? {
      var x := FipOfLb(w.c, lb.id).value;
      var w1 := Saw(RecordFip(Called(w), x.id), Listed(lb.id, x.id, ShownIp(x)));
      FipAsideOk(sp, w, w, w1);
      Parts(sp, w, w1);
      GatewayWired(f, sp, w1);
      Then(sp, w, w1, EnsureGatewayExposed(f, sp, w1));
    }
  }

  lemma FipWired(f: Oracle, sp: Spec, w: World, lb: LoadBalancer)
    requires Tidy(w.c) && Recorded(sp, w.c, w.st)
    ensures StepOk(sp, w, ReconcileFip(f, sp, w, lb).1)
  {
    hide EnsureGatewayExposed, DiscoverFip, StepOk, Tidy, Recorded;
    StandingStill(sp, w);
    if lb.fip.Some? && lb.fip.value.ip != "" {
      var ref := lb.fip.value;
      var w1 := Saw(RecordFip(w, ref.id), OnLb(lb.id, ref.id, ref.ip));
      FipAsideOk(sp, w, w, w1);
      Parts(sp, w, w1);
      GatewayWired(f, sp, w1);
      Then(sp, w, w1, EnsureGatewayExposed(f, sp, w1));
    } else if w.st.fipId != UNSET {
      GatewayWired(f, sp, w);
      var w1 := EnsureGatewayExposed(f, sp, w);
      var w2 := RecordFip(Called(w1), UNSET);
      FipAsideOk(sp, w, w1, w2);
      Parts(sp, w, w2);
      DiscoverWired(f, sp, w2, lb);
      Then(sp, w, w2, DiscoverFip(f, sp, w2, lb).1);
      var w' := ReconcileFip(f, sp, w, lb).1;
      if w' != DiscoverFip(f, sp, w2, lb).1 { FipAsideOk(sp, w, w1, w'); }
    } else {
      DiscoverWired(f, sp, w, lb);
    }
  }

  // ---- Load balancers ----

  /** Listing only makes load balancers visible. */
  ghost predicate SameLbNames(c: Cloud, c': Cloud) {
    && c'.next == c.next
    && (forall y :: y in c'.lbs ==> exists x :: x in c.lbs && x.id == y.id && x.name == y.name)
  }

  lemma ListSameNames(f: Oracle, w: World)
    ensures SameLbNames(w.c, ListLbs(f, w).1.c)
  {
  }

  lemma LbsOnly(sp: Spec, w: World, w': World)
    requires Tidy(w.c) && Recorded(sp, w.c, w.st)
    requires SameLbNames(w.c, w'.c) && w'.c == w.c.(lbs := w'.c.lbs) && w'.st == w.st
    ensures StepOk(sp, w, w')
  {
  }

  lemma FoundNamed(c: Cloud, name: string)
    requires Tidy(c) && VisibleLbByName(c, name).Some?
    ensures LbNamed(c, VisibleLbByName(c, name).value.id, name)
  {
  }

  lemma {:induction false} PollWired(f: Oracle, sp: Spec, w: World, name: string, attempt: nat)
    requires Tidy(w.c) && Recorded(sp, w.c, w.st)
    ensures var (id, w') := PollLb(f, w, name, attempt); StepOk(sp, w, w') && (id != UNSET ==> LbNamed(w'.c, id, name))
    decreases 10 - attempt
  {
    hide ListLbs, VisibleLbByName, Tidy, Recorded, Grown, LbNamed, SameLbNames;
    StandingStill(sp, w);
    if attempt < 10 {
      var w1 := ListLbs(f, w).1;
      ListSameNames(f, w);
      ListFrame(f, w);
      LbsOnly(sp, w, w1);
      if VisibleLbByName(w1.c, name).Some? { FoundNamed(w1.c, name); }
      PollWired(f, sp, w1, name, attempt + 1);
      Then(sp, w, w1, PollLb(f, w1, name, attempt + 1).1);
    }
  }

  lemma ListFrame(f: Oracle, w: World)
    ensures var w' := ListLbs(f, w).1; w'.c == w.c.(lbs := w'.c.lbs) && w'.st == w.st
  {
  }

  lemma PostLbWired(f: Oracle, sp: Spec, w: World, name: string, net: Id)
    requires Tidy(w.c) && Recorded(sp, w.c, w.st)
    ensures StepOk(sp, w, PostLb(f, w, name, net).1)
  {
    hide PortName, PoolName, MonitorName, GatewayName;
    var w' := PostLb(f, w, name, net).1;
    assert w'.c == w.c || w'.c.lbs == w.c.lbs + [LoadBalancer(w.c.next, name, net, f(w.n).delay, f(w.n).addr, None, false, false)];
  }

  /** The load balancer that creation puts on record has the cluster's generated name. */
  lemma CreateWired(f: Oracle, sp: Spec, w: World)
    requires Tidy(w.c) && Recorded(sp, w.c, w.st)
    ensures var (ph, w') := CreateLb(f, sp, w);
            StepOk(sp, w, w') && (ph.Requeue? ==> LbNamed(w'.c, w'.st.lbId, Names.LbName(sp.name)))
  {
    hide FindOrPostLb, Tidy, Recorded, Grown, LbNamed;
    StandingStill(sp, w);
    var w2 := Called(Called(w));
    FipAsideOk(sp, w, w, Called(w));
    FipAsideOk(sp, w, w, w2);
    FindOrPostWired(f, sp, w2, Names.LbName(sp.name), w.st.networkId);
    var (id, w3) := FindOrPostLb(f, w2, Names.LbName(sp.name), w.st.networkId);
    Then(sp, w, w2, w3);
    if id != UNSET { LbRecordedOk(sp, w, w3, id); }
  }

  lemma LbRecordedOk(sp: Spec, w: World, w': World, id: Id)
    requires StepOk(sp, w, w') && LbNamed(w'.c, id, Names.LbName(sp.name))
    ensures StepOk(sp, w, w'.(st := w'.st.(lbId := id)))
  {
    hide Names.LbName;
  }

  lemma FindOrPostWired(f: Oracle, sp: Spec, w: World, name: string, net: Id)
    requires Tidy(w.c) && Recorded(sp, w.c, w.st)
    ensures var (id, w') := FindOrPostLb(f, w, name, net); StepOk(sp, w, w') && (id != UNSET ==> LbNamed(w'.c, id, name))
  {
    hide ListLbs, PostLb, PollLb, VisibleLbByName, Tidy, Recorded, Grown, LbNamed, SameLbNames;
    var w1 := ListLbs(f, w).1;
    ListSameNames(f, w);
    ListFrame(f, w);
    LbsOnly(sp, w, w1);
    if VisibleLbByName(w1.c, name).Some? { FoundNamed(w1.c, name); }
    PostLbWired(f, sp, w1, name, net);
    var w2 := PostLb(f, w1, name, net).1;
    Then(sp, w, w1, w2);
    PollWired(f, sp, w2, name, 0);
    Then(sp, w, w2, PollLb(f, w2, name, 0).1);
  }

  lemma HandleWired(f: Oracle, sp: Spec, w: World, lb: LoadBalancer)
    requires Tidy(w.c) && Recorded(sp, w.c, w.st)
    ensures StepOk(sp, w, HandleLb(f, sp, w, lb).1)
  {
    hide ReconcilePort, ReconcileFip, Tidy, Recorded, Grown;
    StandingStill(sp, w);
    if Active(lb) {
      PortWired(f, sp, w, ApiServer);
      var (ok1, w1) := ReconcilePort(f, w, ApiServer);
      PortWired(f, sp, w1, Register);
      var (ok2, w2) := ReconcilePort(f, w1, Register);
      Then(sp, w, w1, w2);
      if ok1 && ok2 {
        EndpointWired(f, sp, w2, lb);
        Then(sp, w, w2, ServeEndpoint(f, sp, w2, lb).1);
      }
    }
  }

  lemma EndpointWired(f: Oracle, sp: Spec, w: World, lb: LoadBalancer)
    requires Tidy(w.c) && Recorded(sp, w.c, w.st)
    ensures StepOk(sp, w, ServeEndpoint(f, sp, w, lb).1)
  {
    hide ReconcileFip, Tidy, Recorded, Grown;
    var w' := ServeEndpoint(f, sp, w, lb).1;
    if sp.floating {
      FipWired(f, sp, w, lb);
      var w1 := ReconcileFip(f, sp, w, lb).1;
      Elsewhere(sp, w1, w');
      Then(sp, w, w1, w');
    } else {
      Elsewhere(sp, w, w');
    }
  }

  lemma AdoptedOk(sp: Spec, w: World)
    requires Tidy(w.c) && Recorded(sp, w.c, w.st)
    ensures StepOk(sp, w, w.(st := Adopt(sp, w.st)))
    ensures StepOk(sp, w, Called(w).(st := ForgetLb(Adopt(sp, w.st))))
    ensures StepOk(sp, w, Called(w).(st := Adopt(sp, w.st)))
  {
    hide PortName, PoolName, MonitorName, GatewayName, Names.LbName;
  }

  lemma LbWired(f: Oracle, sp: Spec, w: World)
    requires Tidy(w.c) && Recorded(sp, w.c, w.st)
    ensures StepOk(sp, w, ReconcileLb(f, sp, w).1)
  {
    hide HandleLb, CreateLb, Tidy, Recorded, Grown, Adopt, ForgetLb, LbById;
    AdoptedOk(sp, w);
    var w0 := w.(st := Adopt(sp, w.st));
    if w0.st.lbId == UNSET {
      CreateWired(f, sp, w0);
      Then(sp, w, w0, CreateLb(f, sp, w0).1);
    } else {
      var w1 := Called(w0);
      var got := Answer(f, w0, LbById(w0.c, w0.st.lbId));
      match got
      case Found(lb) =>
        HandleWired(f, sp, w1, lb);
        Then(sp, w, w1, HandleLb(f, sp, w1, lb).1);
      case Absent =>
        var w2 := w1.(st := ForgetLb(w1.st));
        CreateWired(f, sp, w2);
        Then(sp, w, w2, CreateLb(f, sp, w2).1);
      case Broken =>
    }
  }

  // ---- Whole passes ----

  lemma NormalWired(f: Oracle, sp: Spec, w: World)
    requires Tidy(w.c) && Recorded(sp, w.c, w.st)
    ensures StepOk(sp, w, ReconcileNormal(f, sp, w).1)
  {
    hide ReconcileNetwork, ReconcileGroups, ReconcileLb, ReconcileDns, Tidy, Recorded, Grown;
    Elsewhere(sp, w, w.(st := w.st.(finalizer := true)));
    var w0 := Called(w);
    Elsewhere(sp, w, w0);
    if w.st.finalizer && Up(f, w) {
      var w1 := ReconcileNetwork(f, sp, w0).1;
      Elsewhere(sp, w0, w1);
      Then(sp, w, w0, w1);
      GroupsWired(f, sp, w1);
      var w2 := ReconcileGroups(f, sp, w1);
      Then(sp, w, w1, w2);
      LbWired(f, sp, w2);
      var w3 := ReconcileLb(f, sp, w2).1;
      Then(sp, w, w2, w3);
      var w4 := ReconcileDns(f, sp, w3);
      var w5 := w4.(st := w4.st.(ready := true));
      Elsewhere(sp, w3, w5);
      Then(sp, w, w3, w5);
    }
  }

  /** A step that only removes listeners, pools and groups, forgets recorded groups, and leaves
      the names of load balancers and gateways alone. */
  ghost predicate Thinned(w: World, w': World) {
    && w'.c.next == w.c.next && w'.c.monitors == w.c.monitors
    && (forall y :: y in w'.c.listeners ==> y in w.c.listeners)
    && (forall y :: y in w'.c.pools ==> y in w.c.pools)
    && (forall y :: y in w'.c.groups ==> y in w.c.groups)
    && (forall y :: y in w'.c.gateways ==> exists x :: x in w.c.gateways && x.id == y.id && x.name == y.name)
    && (forall y :: y in w'.c.lbs ==> exists x :: x in w.c.lbs && x.id == y.id && x.name == y.name)
    && (forall g :: g in w'.st.groupIds ==> g in w.st.groupIds && w'.st.groupIds[g] == w.st.groupIds[g])
    && w'.st == w.st.(finalizer := w'.st.finalizer, recordId := w'.st.recordId, groupIds := w'.st.groupIds)
  }

  lemma ThinnedOk(sp: Spec, w: World, w': World)
    requires Tidy(w.c) && Recorded(sp, w.c, w.st) && Thinned(w, w')
    ensures StepOk(sp, w, w')
  {
    hide PortName, PoolName, MonitorName, GatewayName, GroupName, Names.LbName;
  }

  lemma ThinnedThen(w: World, w1: World, w2: World)
    requires Thinned(w, w1) && Thinned(w1, w2)
    ensures Thinned(w, w2)
  {
  }

  lemma {:induction false} CleanGroupsThins(f: Oracle, w: World, order: seq<string>)
    ensures Thinned(w, CleanGroups(f, w, order))
    decreases |order|
  {
    if order != [] {
      if order[0] !in w.st.groupIds {
        CleanGroupsThins(f, w, order[1..]);
      } else {
        var (ok, w1) := DeleteGroup(f, w, w.st.groupIds[order[0]]);
        var w2 := if ok then w1.(st := w1.st.(groupIds := w1.st.groupIds - {order[0]})) else w1;
        assert Thinned(w, w2);
        CleanGroupsThins(f, w2, order[1..]);
        hide Thinned;
        ThinnedThen(w, w2, CleanGroups(f, w, order));
      }
    }
  }

  lemma DeleteLbThins(f: Oracle, w: World, id: Id)
    ensures Thinned(w, DeleteLb(f, w, id).1)
  {
  }

  lemma {:induction false} DeleteLbsThins(f: Oracle, w: World, ids: seq<Id>)
    ensures Thinned(w, DeleteLbs(f, w, ids))
    decreases |ids|
  {
    if ids != [] {
      DeleteLbThins(f, w, ids[0]);
      hide DeleteLb;
      var w1 := DeleteLb(f, w, ids[0]).1;
      DeleteLbsThins(f, w1, ids[1..]);
      ThinnedThen(w, w1, DeleteLbs(f, w, ids));
    } else {
      StaysThinned(w);
    }
  }

  lemma StaysThinned(w: World)
    ensures Thinned(w, w)
  {
  }

  lemma PartsThin(f: Oracle, w: World, id: Id)
    ensures Thinned(w, DeletePool(f, w, id)) && Thinned(w, DeleteListener(f, w, id))
  {
  }

  lemma RecordedLbThins(f: Oracle, w: World)
    ensures Thinned(w, DeleteRecordedLb(f, w).1)
  {
    hide Thinned, DeleteLb, DeletePool, DeleteListener;
    StaysThinned(w);
    if w.st.lbId != UNSET {
      var w1 := if w.st.poolId != UNSET then DeletePool(f, w, w.st.poolId) else w;
      PartsThin(f, w, w.st.poolId);
      var w2 := if w.st.listenerId != UNSET then DeleteListener(f, w1, w.st.listenerId) else w1;
      PartsThin(f, w1, w.st.listenerId);
      StaysThinned(w1);
      ThinnedThen(w, w1, w2);
      DeleteLbThins(f, w2, w.st.lbId);
      ThinnedThen(w, w2, DeleteLb(f, w2, w.st.lbId).1);
    }
  }

  lemma OrphansThin(f: Oracle, sp: Spec, w: World)
    ensures Thinned(w, DeleteOrphans(f, sp, w))
  {
    hide DeleteLbs;
    var w1 := ListLbs(f, w).1;
    ListSameNames(f, w);
    assert Thinned(w, w1);
    hide Thinned, ListLbs;
    DeleteLbsThins(f, w1, LbsByPrefix(w1.c.lbs, Names.LbName(sp.name)));
    ThinnedThen(w, w1, DeleteLbs(f, w1, LbsByPrefix(w1.c.lbs, Names.LbName(sp.name))));
  }

  lemma CleanGatewayThins(f: Oracle, sp: Spec, w: World)
    ensures Thinned(w, CleanGateway(f, sp, w))
  {
  }

  /** The steps of a delete pass that touch none of this. */
  lemma UnrelatedThins(w: World, w': World)
    requires w'.c == w.c.(networks := w'.c.networks, fips := w'.c.fips, records := w'.c.records)
    requires w'.st == w.st.(finalizer := w'.st.finalizer, recordId := w'.st.recordId)
    ensures Thinned(w, w')
  {
  }

  lemma FrontThins(f: Oracle, sp: Spec, w: World, order: seq<string>)
    ensures Thinned(w, DeleteFront(f, sp, w, order).2)
  {
    hide CleanDns, CleanGroups, CaptureFips, DeleteRecordedLb, Thinned;
    var w0 := CleanDns(f, sp, w);
    UnrelatedThins(w, w0);
    CleanGroupsThins(f, w0, order);
    var w1 := CleanGroups(f, w0, order);
    ThinnedThen(w, w0, w1);
    var (fips, w2) := CaptureFips(f, w1);
    UnrelatedThins(w1, w2);
    ThinnedThen(w, w1, w2);
    RecordedLbThins(f, w2);
    ThinnedThen(w, w2, DeleteRecordedLb(f, w2).1);
  }

  lemma DeleteThins(f: Oracle, sp: Spec, w: World, order: seq<string>)
    ensures Thinned(w, ReconcileDelete(f, sp, w, order).1)
  {
    hide DeleteFront, DeleteOrphans, CleanFips, CleanGateway, CleanNetwork, Thinned;
    UnrelatedThins(w, RemoveFinalizer(w));
    FrontThins(f, sp, w, order);
    var (fips, ok, w1) := DeleteFront(f, sp, w, order);
    OrphansThin(f, sp, w1);
    var w2 := DeleteOrphans(f, sp, w1);
    ThinnedThen(w, w1, w2);
    var (again, w3) := CleanFips(f, w2, fips);
    UnrelatedThins(w2, w3);
    ThinnedThen(w, w2, w3);
    CleanGatewayThins(f, sp, w3);
    var w4 := CleanGateway(f, sp, w3);
    ThinnedThen(w, w3, w4);
    var w5 := CleanNetwork(f, w4).1;
    UnrelatedThins(w4, w5);
    UnrelatedThins(w4, RemoveFinalizer(w5));
    ThinnedThen(w, w4, w5);
    ThinnedThen(w, w4, RemoveFinalizer(w5));
  }

  // ---- Runs ----

  /** The cluster keeps its name; what others do leaves the cloud tidy and gives no recorded identifier
      to a resource of another name. */
  ghost predicate Steady(sp: Spec, w: World, a: Action) {
    match a
    case Other(c) => Tidy(c) && Grown(w.c, c)
    case _ => a.sp.name == sp.name
  }

  ghost predicate Steps(sp: Spec, ws: nat -> World, acts: nat -> Action, k: nat) {
    Steady(sp, ws(k), acts(k)) && ws(k + 1) == Act(ws(k), acts(k))
  }

  lemma SameNameRecorded(sp: Spec, sp2: Spec, c: Cloud, st: Status)
    requires sp2.name == sp.name
    ensures Recorded(sp, c, st) <==> Recorded(sp2, c, st)
  {
  }

  /** The spec of this action, the cluster's name apart, says nothing about what is on record but the load
      balancer to adopt. */
  lemma ActWired(sp: Spec, w: World, a: Action)
    requires Tidy(w.c) && Recorded(sp, w.c, w.st) && Steady(sp, w, a)
    ensures var w' := Act(w, a);
            && Tidy(w'.c) && Recorded(sp, w'.c, w'.st) && Grown(w.c, w'.c)
            && (if a.Normal? then LbKept(a.sp, w, w') else w'.st.lbId == w.st.lbId)
  {
    hide ReconcileNormal, ReconcileDelete, Tidy, Recorded, Grown, Thinned, LbNamed, Names.LbName;
    match a
    case Normal(sp2, f, saved) =>
      SameNameRecorded(sp, sp2, w.c, w.st);
      NormalWired(f, sp2, w);
      var w' := ReconcileNormal(f, sp2, w).1;
      SameNameRecorded(sp, sp2, w'.c, w'.st);
      RecordedGrown(sp, w.c, w'.c, w.st);
    case Delete(sp2, f, order, saved) =>
      DeleteThins(f, sp2, w, order);
      var w' := ReconcileDelete(f, sp2, w, order).1;
      ThinnedOk(sp, w, w');
      RecordedGrown(sp, w.c, w'.c, w.st);
    case Other(c) => RecordedGrown(sp, w.c, c, w.st);
  }

  /** Step `k` is a pass over a spec that names this load balancer. */
  ghost predicate SpecNames(acts: nat -> Action, k: nat, lb: Id) { acts(k).Normal? && acts(k).sp.existingLb == lb }

  /** The load balancer on record after `n` steps is none, the first one, one that a spec named before, or
      has the cluster's generated name. */
  ghost predicate LbFrom(sp: Spec, ws: nat -> World, acts: nat -> Action, n: nat) {
    var lb := ws(n).st.lbId;
    || lb == UNSET || lb == ws(0).st.lbId || (exists k: nat :: k < n && SpecNames(acts, k, lb))
    || LbNamed(ws(n).c, lb, Names.LbName(sp.name))
  }

  /** In every run, whatever fails, is lost or is edited: recorded listeners, pools, groups and gateway have
      the names they are recorded under, the load balancer too unless a spec named it, listeners of a
      port's name listen on its port, and pools and monitors of its names hang on its listener and pool. */
  lemma {:induction false} RecordsAndWiring(sp: Spec, ws: nat -> World, acts: nat -> Action, n: nat)
    requires Tidy(ws(0).c) && Recorded(sp, ws(0).c, ws(0).st)
    requires forall k: nat :: Steps(sp, ws, acts, k)
    ensures Tidy(ws(n).c) && PortsByNumber(ws(n).c) && Recorded(sp, ws(n).c, ws(n).st) && LbFrom(sp, ws, acts, n)
  {
    hide Tidy, Recorded, Act, Grown, LbNamed, Names.LbName;
    if n > 0 {
      var m: nat := n - 1;
      RecordsAndWiring(sp, ws, acts, m);
      assert Steps(sp, ws, acts, m) && m + 1 == n;
      ActWired(sp, ws(m), acts(m));
      var lb := ws(n).st.lbId;
      if lb == ws(m).st.lbId {
        NamedGrown(ws(m).c, ws(n).c, lb, Names.LbName(sp.name));
        if k: nat :| k < m && SpecNames(acts, k, lb) { assert k < n; }
      } else if lb == acts(m).sp.existingLb {
        assert SpecNames(acts, m, lb);
      }
    }
    hide PortsByNumber;
    TidyByNumber(ws(n).c);
  }

  lemma NamedGrown(c: Cloud, c': Cloud, id: Id, name: string)
    requires Grown(c, c')
    ensures LbNamed(c, id, name) ==> LbNamed(c', id, name)
  {
  }
}
