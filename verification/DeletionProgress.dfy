/** Deletion converges: however long load balancers and gateways take to go, and although a first
    DELETE may only detach a floating IP and the network is refused while in use, repeated
    passes remove the finalizer. */
module DeletionProgress {
  import opened Collections
  import opened OvhCloud
  import opened ClusterSteps
  import opened ClusterDelete
  import opened Deletion
  import Names

  /** Every call goes through, but its effect may lag: `Late`. */
  ghost predicate Cooperative(f: Oracle) { forall n :: f(n).outcome.Ok? || f(n).outcome.Late? }

  // ---- Time ----

  /** A tick: what is being deleted comes closer to being gone, or goes, and finished creation
      tasks show in listings. */
  function Elapse(c: Cloud): Cloud {
    c.(lbs := Rewrite(Filter(c.lbs, (x: LoadBalancer) => !(x.deleting && x.wait == 0)),
                      (x: LoadBalancer) => x.(wait := if x.wait > 0 then x.wait - 1 else 0, visible := true)),
       gateways := Rewrite(Filter(c.gateways, (x: Gateway) => !(x.deleting && x.wait == 0)),
                           (x: Gateway) => x.(wait := if x.wait > 0 then x.wait - 1 else 0)))
  }

  ghost predicate PassAndTick(sp: Spec, w: World, w': World) {
    exists f, order :: Cooperative(f) && w'.c == Elapse(ReconcileDelete(f, sp, w, order).1.c)
                       && w'.st == ReconcileDelete(f, sp, w, order).1.st
  }

  // ---- Sums ----

  function Sum<T>(s: seq<T>, m: T -> nat): nat {
    if s == [] then 0 else Sum(s[..|s| - 1], m) + m(s[|s| - 1])
  }

  lemma {:induction false} SumPointwise<T>(s: seq<T>, t: seq<T>, m: T -> nat)
    requires |s| == |t| && forall i :: 0 <= i < |s| ==> m(t[i]) <= m(s[i])
    ensures Sum(t, m) <= Sum(s, m)
    ensures (exists i :: 0 <= i < |s| && m(t[i]) < m(s[i])) ==> Sum(t, m) < Sum(s, m)
  {
    if s != [] {
      var n := |s| - 1;
      SumPointwise(s[..n], t[..n], m);
      if i :| 0 <= i < |s| && m(t[i]) < m(s[i]) {
        if i < n { assert m(t[..n][i]) < m(s[..n][i]); }
      }
    }
  }

  lemma {:induction false} SumThinned<T(!new)>(s: seq<T>, keep: T -> bool, g: T -> T, m: T -> nat)
    requires forall x :: x in s && keep(x) ==> m(g(x)) <= m(x)
    ensures Sum(Rewrite(Filter(s, keep), g), m) <= Sum(s, m)
    ensures (exists x :: x in s && (if keep(x) then m(g(x)) < m(x) else m(x) > 0))
            ==> Sum(Rewrite(Filter(s, keep), g), m) < Sum(s, m)
  {
    if s != [] {
      var n := |s| - 1;
      var front, last := s[..n], s[n];
      assert s == front + [last];
      SumThinned(front, keep, g, m);
      var kept := Filter(front, keep);
      if keep(last) {
        assert Filter(s, keep) == kept + [last];
        assert Rewrite(kept + [last], g) == Rewrite(kept, g) + [g(last)];
        SumAppend(Rewrite(kept, g), g(last), m);
      } else {
        assert Filter(s, keep) == kept;
      }
    }
  }

  lemma SumAppend<T>(s: seq<T>, x: T, m: T -> nat)
    ensures Sum(s + [x], m) == Sum(s, m) + m(x)
  {
  }

  // ---- What is left to do, and how long it will take ----

  predicate OursLb(sp: Spec, lbId: Id, x: LoadBalancer) {
    Names.HasPrefix(x.name, Names.LbName(sp.name)) || x.id == lbId
  }

  function LbWork(sp: Spec, lbId: Id): LoadBalancer -> nat {
    (x: LoadBalancer) => (if x.visible then 0 else 1) + (if OursLb(sp, lbId, x) && !x.deleting then 1 else 0)
  }

  function LbTime(): LoadBalancer -> nat { (x: LoadBalancer) => if x.deleting then x.wait + 1 else 0 }

  function GwWork(sp: Spec): Gateway -> nat {
    (x: Gateway) => if x.name == GatewayName(sp) && !x.deleting then 1 else 0
  }

  function GwTime(): Gateway -> nat { (x: Gateway) => if x.deleting then x.wait + 1 else 0 }

  /** Attached, detached, down: the steps left for a floating IP. */
  function FipStage(x: FloatingIP): nat { if x.entity.Some? then 2 else if !x.down then 1 else 0 }

  function FipWork(lbId: Id, fipId: Id): FloatingIP -> nat {
    (x: FloatingIP) => (if lbId != UNSET && x.entity == Some(lbId) then 1 else 0) + (if x.id == fipId then FipStage(x) else 0)
  }

  function Work(sp: Spec, c: Cloud, st: Status): nat {
    Sum(c.lbs, LbWork(sp, st.lbId)) + Sum(c.gateways, GwWork(sp)) + Sum(c.fips, FipWork(st.lbId, st.fipId))
  }

  function Time(c: Cloud): nat { Sum(c.lbs, LbTime()) + Sum(c.gateways, GwTime()) }

  // ---- Load balancers during a pass ----

  /** Each load balancer stays in place, and only the cluster's own start being deleted. */
  ghost predicate LbsStep(sp: Spec, lbId: Id, s: seq<LoadBalancer>, t: seq<LoadBalancer>) {
    |s| == |t| && forall i :: 0 <= i < |s| ==> LbStep(sp, lbId, s[i], t[i])
  }

  ghost predicate LbStep(sp: Spec, lbId: Id, x: LoadBalancer, y: LoadBalancer) {
    && y == x.(visible := y.visible, deleting := y.deleting, wait := y.wait)
    && (x.visible ==> y.visible) && (x.deleting ==> y.deleting && y.wait == x.wait)
    && (!OursLb(sp, lbId, x) ==> y.deleting == x.deleting && y.wait == x.wait)
    && (y.deleting == x.deleting ==> y.wait == x.wait)
  }

  function LbKey(): LoadBalancer -> Id { (x: LoadBalancer) => x.id }

  /** Every load balancer with this identifier is the cluster's own. */
  ghost predicate Targets(sp: Spec, lbId: Id, lbs: seq<LoadBalancer>, id: Id) {
    forall x :: x in lbs && x.id == id ==> OursLb(sp, lbId, x)
  }

  lemma StepTransitive(sp: Spec, lbId: Id, s: seq<LoadBalancer>, t: seq<LoadBalancer>, u: seq<LoadBalancer>)
    requires LbsStep(sp, lbId, s, t) && LbsStep(sp, lbId, t, u)
    ensures LbsStep(sp, lbId, s, u)
  {
  }

  lemma TargetsKept(sp: Spec, lbId: Id, s: seq<LoadBalancer>, t: seq<LoadBalancer>, id: Id)
    requires LbsStep(sp, lbId, s, t) && Targets(sp, lbId, s, id)
    ensures Targets(sp, lbId, t, id)
  {
  }

  lemma DeleteLbStep(f: Oracle, sp: Spec, lbId: Id, w: World, id: Id)
    requires Cooperative(f) && Targets(sp, lbId, w.c.lbs, id)
    ensures var t := DeleteLb(f, w, id).1.c.lbs;
            LbsStep(sp, lbId, w.c.lbs, t) && forall i :: 0 <= i < |t| && t[i].id == id ==> t[i].deleting
  {
  }

  lemma {:induction false} DeleteLbsStep(f: Oracle, sp: Spec, lbId: Id, w: World, ids: seq<Id>)
    requires Cooperative(f) && forall id :: id in ids ==> Targets(sp, lbId, w.c.lbs, id)
    ensures var t := DeleteLbs(f, w, ids).c.lbs;
            LbsStep(sp, lbId, w.c.lbs, t) && forall i :: 0 <= i < |t| && t[i].id in ids ==> t[i].deleting
    decreases |ids|
  {
    if ids != [] {
      DeleteLbStep(f, sp, lbId, w, ids[0]);
      var w1 := DeleteLb(f, w, ids[0]).1;
      forall id | id in ids[1..] ensures Targets(sp, lbId, w1.c.lbs, id) {
        assert id in ids;
        TargetsKept(sp, lbId, w.c.lbs, w1.c.lbs, id);
      }
      DeleteLbsStep(f, sp, lbId, w1, ids[1..]);
      var t := DeleteLbs(f, w, ids).c.lbs;
      StepTransitive(sp, lbId, w.c.lbs, w1.c.lbs, t);
      forall i | 0 <= i < |t| && t[i].id in ids ensures t[i].deleting {
        assert LbStep(sp, lbId, w1.c.lbs[i], t[i]);
        assert t[i].id == ids[0] || t[i].id in ids[1..];
      }
    }
  }

  lemma OrphansStep(f: Oracle, sp: Spec, lbId: Id, w: World)
    requires Cooperative(f) && Distinct(w.c.lbs, LbKey())
    ensures var t := DeleteOrphans(f, sp, w).c.lbs;
            && LbsStep(sp, lbId, w.c.lbs, t)
            && forall i :: 0 <= i < |t| && w.c.lbs[i].visible && NamedLikeOurs(sp, w.c.lbs[i]) ==> t[i].deleting
  {
    hide DeleteLbs;
    var w1 := ListLbs(f, w).1;
    assert LbsStep(sp, lbId, w.c.lbs, w1.c.lbs);
    var ids := LbsByPrefix(w1.c.lbs, Names.LbName(sp.name));
    forall id | id in ids ensures Targets(sp, lbId, w1.c.lbs, id) {
      forall x | x in w1.c.lbs && x.id == id ensures OursLb(sp, lbId, x) {
        var y :| y in w1.c.lbs && y.visible && Names.HasPrefix(y.name, Names.LbName(sp.name)) && y.id == id;
        SameLbById(f, w, x, y);
      }
    }
    DeleteLbsStep(f, sp, lbId, w1, ids);
    var t := DeleteOrphans(f, sp, w).c.lbs;
    StepTransitive(sp, lbId, w.c.lbs, w1.c.lbs, t);
    forall i | 0 <= i < |t| && w.c.lbs[i].visible && NamedLikeOurs(sp, w.c.lbs[i]) ensures t[i].deleting {
      assert LbStep(sp, lbId, w.c.lbs[i], w1.c.lbs[i]) && LbStep(sp, lbId, w1.c.lbs[i], t[i]);
      assert w1.c.lbs[i] in w1.c.lbs;
    }
  }

  lemma SameLbById(f: Oracle, w: World, x: LoadBalancer, y: LoadBalancer)
    requires Distinct(w.c.lbs, LbKey()) && x.id == y.id
    requires x in ListLbs(f, w).1.c.lbs && y in ListLbs(f, w).1.c.lbs
    ensures x == y
  {
  }

  /** What the front of a pass leaves: load balancers stepped, the recorded one being deleted, and
      the captured floating IPs are the recorded one and the associated ones. */
  ghost predicate FrontLeft(sp: Spec, w: World, r: (seq<Id>, bool, World)) {
    var (fips, ok, w1) := r;
    && ok && LbsStep(sp, w.st.lbId, w.c.lbs, w1.c.lbs)
    && (w.st.lbId != UNSET ==> forall i :: 0 <= i < |w1.c.lbs| && w1.c.lbs[i].id == w.st.lbId ==> w1.c.lbs[i].deleting)
    && w1.c == w.c.(lbs := w1.c.lbs, pools := w1.c.pools, listeners := w1.c.listeners, groups := w1.c.groups, records := w1.c.records)
    && w1.st == w.st.(recordId := w1.st.recordId, groupIds := w1.st.groupIds)
    && (forall id :: id in fips ==> id == w.st.fipId || (w.st.lbId != UNSET && exists x :: x in w.c.fips && x.entity == Some(w.st.lbId) && x.id == id))
  }

  lemma FrontLeaves(f: Oracle, sp: Spec, w: World, order: seq<string>)
    requires Cooperative(f)
    ensures FrontLeft(sp, w, DeleteFront(f, sp, w, order))
  {
    hide CleanDns, CleanGroups, DeleteRecordedLb, Capture;
    var w1 := CleanGroups(f, CleanDns(f, sp, w), order);
    var (fips, w2) := CaptureFips(f, w1);
    RecordedStep(f, sp, w2);
  }

  lemma RecordedStep(f: Oracle, sp: Spec, w: World)
    requires Cooperative(f)
    ensures var (ok, w1) := DeleteRecordedLb(f, w);
            && ok && LbsStep(sp, w.st.lbId, w.c.lbs, w1.c.lbs)
            && (w.st.lbId != UNSET ==> forall i :: 0 <= i < |w1.c.lbs| && w1.c.lbs[i].id == w.st.lbId ==> w1.c.lbs[i].deleting)
  {
    hide DeletePool, DeleteListener, DeleteLb;
    if w.st.lbId != UNSET {
      var w1 := if w.st.poolId != UNSET then DeletePool(f, w, w.st.poolId) else w;
      var w2 := if w.st.listenerId != UNSET then DeleteListener(f, w1, w.st.listenerId) else w1;
      assert w2.c.lbs == w.c.lbs by { PartsKeepLbs(f, w, w.st.poolId); PartsKeepLbs(f, w1, w.st.listenerId); }
      DeleteLbStep(f, sp, w.st.lbId, w2, w.st.lbId);
      DeleteLbUp(f, w2, w.st.lbId);
    }
  }

  lemma PartsKeepLbs(f: Oracle, w: World, id: Id)
    ensures DeletePool(f, w, id).c.lbs == w.c.lbs && DeleteListener(f, w, id).c.lbs == w.c.lbs
  {
  }

  lemma DeleteLbUp(f: Oracle, w: World, id: Id)
    requires Cooperative(f)
    ensures DeleteLb(f, w, id).0
  {
  }

  // ---- Floating IPs during a pass ----

  /** A captured floating IP is the recorded one, or attached to nothing but the load balancer. */
  ghost predicate Captured(c: Cloud, lbId: Id, fipId: Id, id: Id) {
    id == fipId || (lbId != UNSET && forall x :: x in c.fips && x.id == id && x.entity.Some? ==> x.entity == Some(lbId))
  }

  lemma RemovedFipWork(fips: seq<FloatingIP>, id: Id, m: FloatingIP -> nat)
    ensures Sum(Filter(fips, (x: FloatingIP) => x.id != id), m) <= Sum(fips, m)
  {
    var keep := (x: FloatingIP) => x.id != id;
    SumThinned(fips, keep, x => x, m);
    assert Rewrite(Filter(fips, keep), x => x) == Filter(fips, keep);
  }

  /** A DELETE that only moves a floating IP on still leaves less to do for it. */
  lemma MovedFipWork(f: Oracle, w: World, lbId: Id, fipId: Id, id: Id)
    requires f(w.n).outcome.Late? && Captured(w.c, lbId, fipId, id)
    ensures var s, t := w.c.fips, DeleteFip(f, w, id).c.fips;
            && |t| == |s|
            && forall i :: 0 <= i < |s| ==>
                 && FipWork(lbId, fipId)(t[i]) <= FipWork(lbId, fipId)(s[i])
                 && (s[i].id == id && s[i].entity.Some? ==> FipWork(lbId, fipId)(t[i]) < FipWork(lbId, fipId)(s[i]))
                 && t[i].id == s[i].id && (t[i].entity.Some? ==> t[i] == s[i])
                 && (s[i].id == id ==> t[i].entity.None? && (s[i].entity.None? ==> t[i].down))
  {
  }

  lemma DeleteFipWork(f: Oracle, w: World, lbId: Id, fipId: Id, id: Id)
    requires Cooperative(f) && Captured(w.c, lbId, fipId, id)
    ensures var w1 := DeleteFip(f, w, id);
            && Sum(w1.c.fips, FipWork(lbId, fipId)) <= Sum(w.c.fips, FipWork(lbId, fipId))
            && (!Gone(Answer(f, w1, FipById(w1.c, id))) ==>
                  Sum(w1.c.fips, FipWork(lbId, fipId)) < Sum(w.c.fips, FipWork(lbId, fipId)))
  {
    hide FipWork, Captured;
    var m := FipWork(lbId, fipId);
    var w1 := DeleteFip(f, w, id);
    var s, t := w.c.fips, w1.c.fips;
    if f(w.n).outcome.Ok? {
      RemovedFipWork(s, id, m);
      assert FipById(w1.c, id).None?;
    } else {
      MovedFipWork(f, w, lbId, fipId, id);
      SumPointwise(s, t, m);
      if !Gone(Answer(f, w1, FipById(w1.c, id))) {
        var y := FipById(w1.c, id).value;
        var i :| 0 <= i < |t| && t[i] == y;
        assert s[i].id == id && s[i].entity.Some? && m(t[i]) < m(s[i]);
      }
    }
  }

  lemma DeleteFipCaptured(f: Oracle, w: World, lbId: Id, fipId: Id, id: Id, other: Id)
    requires Captured(w.c, lbId, fipId, other)
    ensures Captured(DeleteFip(f, w, id).c, lbId, fipId, other)
  {
  }

  lemma {:induction false} CleanFipsWork(f: Oracle, w: World, lbId: Id, fipId: Id, ids: seq<Id>)
    requires Cooperative(f) && forall id :: id in ids ==> Captured(w.c, lbId, fipId, id)
    ensures var (again, w') := CleanFips(f, w, ids);
            && Sum(w'.c.fips, FipWork(lbId, fipId)) <= Sum(w.c.fips, FipWork(lbId, fipId))
            && (again ==> Sum(w'.c.fips, FipWork(lbId, fipId)) < Sum(w.c.fips, FipWork(lbId, fipId)))
    decreases |ids|
  {
    if ids != [] {
      hide DeleteFip, Gone, Captured, FipWork, Sum;
      DeleteFipWork(f, w, lbId, fipId, ids[0]);
      var w1 := DeleteFip(f, w, ids[0]);
      var w2 := Logged(w1, ReadFip(ids[0], Gone(Answer(f, w1, FipById(w1.c, ids[0])))));
      forall id | id in ids[1..] ensures Captured(w2.c, lbId, fipId, id) {
        assert id in ids;
        DeleteFipCaptured(f, w, lbId, fipId, ids[0], id);
        SameFipsCaptured(w1.c, w2.c, lbId, fipId, id);
      }
      CleanFipsWork(f, w2, lbId, fipId, ids[1..]);
    }
  }

  lemma SameFipsCaptured(c: Cloud, c': Cloud, lbId: Id, fipId: Id, id: Id)
    requires c'.fips == c.fips && Captured(c, lbId, fipId, id)
    ensures Captured(c', lbId, fipId, id)
  {
  }

  // ---- The gateway during a pass ----

  function GwKey(): Gateway -> Id { (x: Gateway) => x.id }

  /** Each gateway stays in place, and only ones of the cluster's name start being deleted. */
  ghost predicate GatewayStep(sp: Spec, x: Gateway, y: Gateway) {
    y == x || (x.name == GatewayName(sp) && !x.deleting && y == x.(deleting := true, wait := y.wait))
  }

  ghost predicate GatewaysStep(sp: Spec, s: seq<Gateway>, t: seq<Gateway>) {
    |t| == |s| && forall i :: 0 <= i < |s| ==> GatewayStep(sp, s[i], t[i])
  }

  /** Deleting a gateway found by name steps it, or changes nothing if it is being deleted. */
  lemma DeleteGatewayStep(f: Oracle, sp: Spec, w: World, k: nat)
    requires Cooperative(f) && Distinct(w.c.gateways, GwKey())
    requires k < |w.c.gateways| && w.c.gateways[k].name == GatewayName(sp)
    ensures var s, t := w.c.gateways, DeleteGateway(f, w, w.c.gateways[k].id).c.gateways;
            && GatewaysStep(sp, s, t)
            && (if s[k].deleting then t == s else t[k].deleting)
  {
  }

  /** The first gateway of the cluster's name is being deleted afterwards; if it already was,
      nothing changes. */
  lemma GatewayWork(f: Oracle, sp: Spec, w: World)
    requires Cooperative(f) && Distinct(w.c.gateways, GwKey())
    ensures var s, t := w.c.gateways, CleanGateway(f, sp, w).c.gateways;
            && GatewaysStep(sp, s, t)
            && (t == s || Sum(t, GwWork(sp)) < Sum(s, GwWork(sp)))
            && (t == s ==> forall g :: GatewayByName(w.c, GatewayName(sp)) == Some(g) ==> g.deleting)
  {
    hide DeleteGateway, Sum, Distinct;
    var s, t := w.c.gateways, CleanGateway(f, sp, w).c.gateways;
    if GatewayByName(w.c, GatewayName(sp)).Some? {
      var g := GatewayByName(w.c, GatewayName(sp)).value;
      var k :| 0 <= k < |s| && s[k] == g;
      assert GatewayByName(Called(w).c, GatewayName(sp)) == Some(g);
      DeleteGatewayStep(f, sp, Called(w), k);
      if !g.deleting { StepLowersGw(sp, s, t, k); }
    }
  }

  lemma StepLowersGw(sp: Spec, s: seq<Gateway>, t: seq<Gateway>, k: nat)
    requires GatewaysStep(sp, s, t) && k < |s| && s[k].name == GatewayName(sp) && !s[k].deleting && t[k].deleting
    ensures Sum(t, GwWork(sp)) < Sum(s, GwWork(sp))
  {
    assert GwWork(sp)(t[k]) < GwWork(sp)(s[k]);
    assert forall i :: 0 <= i < |s| ==> GatewayStep(sp, s[i], t[i]);
    SumPointwise(s, t, GwWork(sp));
  }

  // ---- What holds throughout ----

  function FipKey(): FloatingIP -> Id { (x: FloatingIP) => x.id }

  /** Each identifier names one resource. */
  ghost predicate Identified(c: Cloud) {
    && Distinct(c.lbs, LbKey()) && Distinct(c.gateways, GwKey()) && Distinct(c.fips, FipKey())
    && (forall x :: x in c.lbs ==> x.id != UNSET)
  }

  /** A network the controller created and has to delete holds nothing that a delete pass neither
      deletes nor finds being deleted. */
  ghost predicate Unblocked(sp: Spec, c: Cloud, st: Status) {
    st.networkCreated && st.networkId != UNSET && st.networkId in c.networks ==>
      && (forall x :: x in c.lbs && x.net == st.networkId ==> OursLb(sp, st.lbId, x) || x.deleting)
      && (forall g :: g in c.gateways && g.net == st.networkId ==> g.name == GatewayName(sp) || g.deleting)
  }

  ghost predicate Inv(sp: Spec, c: Cloud, st: Status) { Identified(c) && Unblocked(sp, c, st) }

  lemma DeleteFipKeepsKeys(f: Oracle, w: World, id: Id)
    requires Distinct(w.c.fips, FipKey())
    ensures Distinct(DeleteFip(f, w, id).c.fips, FipKey())
  {
    FilterDistinct(w.c.fips, (x: FloatingIP) => x.id != id, FipKey());
  }

  lemma {:induction false} CleanFipsKeepsKeys(f: Oracle, w: World, ids: seq<Id>)
    requires Distinct(w.c.fips, FipKey())
    ensures Distinct(CleanFips(f, w, ids).1.c.fips, FipKey())
    decreases |ids|
  {
    if ids != [] {
      hide DeleteFip, Gone, Distinct;
      DeleteFipKeepsKeys(f, w, ids[0]);
      var w1 := DeleteFip(f, w, ids[0]);
      CleanFipsKeepsKeys(f, Logged(w1, ReadFip(ids[0], Gone(Answer(f, w1, FipById(w1.c, ids[0]))))), ids[1..]);
    }
  }

  // ---- One pass ----

  /** The load balancers on a network that a pass could not free: each is being deleted, or does not
      show in listings yet. */
  ghost predicate Swept(sp: Spec, lbId: Id, s: seq<LoadBalancer>, t: seq<LoadBalancer>) {
    LbsStep(sp, lbId, s, t) && forall i :: 0 <= i < |s| && s[i].visible && OursLb(sp, lbId, s[i]) ==> t[i].deleting
  }

  lemma LbsSwept(f: Oracle, sp: Spec, w: World, order: seq<string>)
    requires Cooperative(f) && Distinct(w.c.lbs, LbKey()) && forall x :: x in w.c.lbs ==> x.id != UNSET
    ensures var w1 := DeleteFront(f, sp, w, order).2;
            Swept(sp, w.st.lbId, w.c.lbs, DeleteOrphans(f, sp, w1).c.lbs)
  {
    hide DeleteFront, DeleteOrphans;
    FrontLeaves(f, sp, w, order);
    var w1 := DeleteFront(f, sp, w, order).2;
    var s, t, u := w.c.lbs, w1.c.lbs, DeleteOrphans(f, sp, w1).c.lbs;
    assert Distinct(t, LbKey()) by {
      forall i, j | 0 <= i < j < |t| ensures LbKey()(t[i]) != LbKey()(t[j]) {
        assert LbStep(sp, w.st.lbId, s[i], t[i]) && LbStep(sp, w.st.lbId, s[j], t[j]);
        assert LbKey()(s[i]) != LbKey()(s[j]);
      }
    }
    OrphansStep(f, sp, w.st.lbId, w1);
    StepTransitive(sp, w.st.lbId, s, t, u);
    forall i | 0 <= i < |s| && s[i].visible && OursLb(sp, w.st.lbId, s[i]) ensures u[i].deleting {
      assert s[i] in s;
      assert LbStep(sp, w.st.lbId, s[i], t[i]) && LbStep(sp, w.st.lbId, t[i], u[i]);
    }
  }

  /** A sweep leaves no more work, and none less only if it changed no load balancer. */
  lemma SweptWork(sp: Spec, lbId: Id, s: seq<LoadBalancer>, t: seq<LoadBalancer>)
    requires Swept(sp, lbId, s, t)
    ensures t == s || Sum(t, LbWork(sp, lbId)) < Sum(s, LbWork(sp, lbId))
  {
    var m := LbWork(sp, lbId);
    forall i | 0 <= i < |s| ensures m(t[i]) <= m(s[i]) && (t[i] == s[i] || m(t[i]) < m(s[i])) {
      assert LbStep(sp, lbId, s[i], t[i]);
    }
    SumPointwise(s, t, m);
  }

  lemma CapturedByFront(sp: Spec, w: World, r: (seq<Id>, bool, World), c: Cloud)
    requires FrontLeft(sp, w, r) && Distinct(w.c.fips, FipKey()) && c.fips == w.c.fips
    ensures forall id :: id in r.0 ==> Captured(c, w.st.lbId, w.st.fipId, id)
  {
  }

  /** Something will change by itself: a task to show, or a deletion to finish. */
  ghost predicate Waiting(c: Cloud) {
    (exists x :: x in c.lbs && (!x.visible || x.deleting)) || (exists g :: g in c.gateways && g.deleting)
  }

  /** A network that is refused although nothing could be swept is waiting for something. */
  lemma RefusedWaits(sp: Spec, c: Cloud, st: Status)
    requires Inv(sp, c, st) && st.networkCreated && st.networkId != UNSET
    requires st.networkId in c.networks && InUse(c, st.networkId)
    requires Swept(sp, st.lbId, c.lbs, c.lbs)
    requires forall g :: GatewayByName(c, GatewayName(sp)) == Some(g) ==> g.deleting
    ensures Waiting(c)
  {
  }

  /** The world after each step of a pass without the keep annotation. */
  ghost predicate Pass(f: Oracle, sp: Spec, w: World, order: seq<string>, fips: seq<Id>, again: bool, ok: bool,
                       w1: World, w2: World, w3: World, w4: World, w5: World) {
    && DeleteFront(f, sp, w, order) == (fips, true, w1) && DeleteOrphans(f, sp, w1) == w2
    && CleanFips(f, w2, fips) == (again, w3) && CleanGateway(f, sp, w3) == w4 && CleanNetwork(f, w4) == (ok, w5)
  }

  /** A pass keeps the invariant, and ends Done, or leaves less work, or changes nothing that is
      counted and leaves something to wait for. */
  lemma PassWorks(f: Oracle, sp: Spec, w: World, order: seq<string>)
    requires Cooperative(f) && Inv(sp, w.c, w.st) && !sp.keep
    ensures var (ph, w') := ReconcileDelete(f, sp, w, order);
            && Inv(sp, w'.c, w'.st)
            && (ph.Done? || Work(sp, w'.c, w'.st) < Work(sp, w.c, w.st)
                || (Work(sp, w'.c, w'.st) == Work(sp, w.c, w.st) && Time(w'.c) == Time(w.c) && Waiting(w'.c)))
  {
    hide DeleteFront, DeleteOrphans, CleanFips, CleanGateway, CleanNetwork, Inv, Work, Time, LbsStep, FrontLeft, Waiting;
    FrontLeaves(f, sp, w, order);
    var (fips, ok1, w1) := DeleteFront(f, sp, w, order);
    assert ok1 by { FrontOk(sp, w, (fips, ok1, w1)); }
    var w2 := DeleteOrphans(f, sp, w1);
    var (again, w3) := CleanFips(f, w2, fips);
    var w4 := CleanGateway(f, sp, w3);
    var (ok, w5) := CleanNetwork(f, w4);
    PassCounts(f, sp, w, order, fips, again, ok, w1, w2, w3, w4, w5);
    var w' := ReconcileDelete(f, sp, w, order).1;
    assert w'.c == if again then w3.c else w5.c;
  }

  lemma FrontOk(sp: Spec, w: World, r: (seq<Id>, bool, World))
    requires FrontLeft(sp, w, r)
    ensures r.1 && r.2.st == w.st.(recordId := r.2.st.recordId, groupIds := r.2.st.groupIds)
    ensures r.2.c.fips == w.c.fips && r.2.c.gateways == w.c.gateways && r.2.c.networks == w.c.networks
  {
  }

  /** The invariant and the work depend on the identifiers in the status only. */
  ghost predicate SameIds(st: Status, st': Status) {
    && st'.lbId == st.lbId && st'.fipId == st.fipId && st'.networkId == st.networkId
    && st'.networkCreated == st.networkCreated
  }

  lemma PassCounts(f: Oracle, sp: Spec, w: World, order: seq<string>, fips: seq<Id>, again: bool, ok: bool,
                   w1: World, w2: World, w3: World, w4: World, w5: World)
    requires Cooperative(f) && Inv(sp, w.c, w.st) && Pass(f, sp, w, order, fips, again, ok, w1, w2, w3, w4, w5)
    ensures forall st' :: SameIds(w.st, st') ==>
              && Inv(sp, w3.c, st') && Inv(sp, w5.c, st')
              && (again ==> Work(sp, w3.c, st') < Work(sp, w.c, w.st))
              && (!ok ==> Work(sp, w5.c, st') < Work(sp, w.c, w.st)
                          || (Work(sp, w5.c, st') == Work(sp, w.c, w.st) && Time(w5.c) == Time(w.c) && Waiting(w5.c)))
  {
    hide DeleteFront, DeleteOrphans, CleanFips, CleanGateway, LbsStep, FrontLeft, Waiting, Sum, Unblocked, Distinct;
    LbsSwept(f, sp, w, order);
    FrontLeaves(f, sp, w, order);
    FrontOk(sp, w, (fips, true, w1));
    SweptWork(sp, w.st.lbId, w.c.lbs, w2.c.lbs);
    CapturedByFront(sp, w, (fips, true, w1), w2.c);
    CleanFipsWork(f, w2, w.st.lbId, w.st.fipId, fips);
    CleanFipsKeepsKeys(f, w2, fips);
    GatewayWork(f, sp, w3);
    assert forall k :: k in w5.c.networks ==> k in w3.c.networks;
    assert w3.c.gateways == w.c.gateways && w5.c.gateways == w4.c.gateways && w5.c.lbs == w3.c.lbs == w2.c.lbs;
    assert w5.c.fips == w3.c.fips;
    forall st' | SameIds(w.st, st') ensures Inv(sp, w3.c, st') && Inv(sp, w5.c, st') {
      InvStepped(sp, w.c, w3.c, w.st, st');
      InvStepped(sp, w.c, w5.c, w.st, st');
    }
    if !ok && w2.c.lbs == w.c.lbs && w4.c.gateways == w.c.gateways {
      assert w4.st.networkId == w.st.networkId && w4.st.networkCreated == w.st.networkCreated;
      assert w.st.networkId in w4.c.networks && InUse(w4.c, w.st.networkId) && w5.c.networks == w4.c.networks;
      SameInUse(w4.c, w5.c, w.st.networkId);
      SameGateway(w3.c, w5.c, GatewayName(sp));
      RefusedWaits(sp, w5.c, w.st);
    }
  }

  lemma SameInUse(c: Cloud, c': Cloud, net: Id)
    requires c'.lbs == c.lbs && c'.gateways == c.gateways
    ensures InUse(c', net) == InUse(c, net)
  {
  }

  lemma SameGateway(c: Cloud, c': Cloud, name: string)
    requires c'.gateways == c.gateways
    ensures GatewayByName(c', name) == GatewayByName(c, name)
  {
  }

  lemma IdentifiedStepped(sp: Spec, c: Cloud, c': Cloud, st: Status)
    requires Identified(c) && Distinct(c'.fips, FipKey())
    requires LbsStep(sp, st.lbId, c.lbs, c'.lbs) && GatewaysStep(sp, c.gateways, c'.gateways)
    ensures Identified(c')
  {
  }

  lemma InvStepped(sp: Spec, c: Cloud, c': Cloud, st: Status, st': Status)
    requires Inv(sp, c, st) && SameIds(st, st')
    requires LbsStep(sp, st.lbId, c.lbs, c'.lbs) && GatewaysStep(sp, c.gateways, c'.gateways)
    requires Distinct(c'.fips, FipKey()) && forall k :: k in c'.networks ==> k in c.networks
    ensures Inv(sp, c', st')
  {
  }

  // ---- A tick ----

  lemma ElapseWorks(sp: Spec, c: Cloud, st: Status)
    ensures var c' := Elapse(c);
            && Work(sp, c', st) <= Work(sp, c, st) && Time(c') <= Time(c)
            && (Waiting(c) ==> Work(sp, c', st) < Work(sp, c, st) || Time(c') < Time(c))
  {
    hide Sum;
    var keepLb, keepGw := (x: LoadBalancer) => !(x.deleting && x.wait == 0), (x: Gateway) => !(x.deleting && x.wait == 0);
    var lb := (x: LoadBalancer) => x.(wait := if x.wait > 0 then x.wait - 1 else 0, visible := true);
    var gw := (x: Gateway) => x.(wait := if x.wait > 0 then x.wait - 1 else 0);
    SumThinned(c.lbs, keepLb, lb, LbWork(sp, st.lbId));
    SumThinned(c.lbs, keepLb, lb, LbTime());
    SumThinned(c.gateways, keepGw, gw, GwWork(sp));
    SumThinned(c.gateways, keepGw, gw, GwTime());
  }

  lemma ElapseIdentified(c: Cloud)
    requires Identified(c)
    ensures Identified(Elapse(c))
  {
    var keepLb, keepGw := (x: LoadBalancer) => !(x.deleting && x.wait == 0), (x: Gateway) => !(x.deleting && x.wait == 0);
    FilterDistinct(c.lbs, keepLb, LbKey());
    FilterDistinct(c.gateways, keepGw, GwKey());
    var s, t, u, v := Filter(c.lbs, keepLb), Elapse(c).lbs, Filter(c.gateways, keepGw), Elapse(c).gateways;
    forall i | 0 <= i < |t| ensures t[i].id != UNSET { assert s[i] in s; }
    forall i, j | 0 <= i < j < |t| ensures LbKey()(t[i]) != LbKey()(t[j]) { assert LbKey()(s[i]) != LbKey()(s[j]); }
    forall i, j | 0 <= i < j < |v| ensures GwKey()(v[i]) != GwKey()(v[j]) { assert GwKey()(u[i]) != GwKey()(u[j]); }
  }

  lemma ElapseInv(sp: Spec, c: Cloud, st: Status)
    requires Inv(sp, c, st)
    ensures Inv(sp, Elapse(c), st)
  {
    ElapseIdentified(c);
    var s, t := Filter(c.lbs, (x: LoadBalancer) => !(x.deleting && x.wait == 0)), Elapse(c).lbs;
    forall y | y in t ensures exists x :: x in c.lbs && y.id == x.id && y.name == x.name && y.net == x.net && y.deleting == x.deleting {
      var i :| 0 <= i < |t| && t[i] == y;
      assert s[i] in s;
    }
    var u, v := Filter(c.gateways, (x: Gateway) => !(x.deleting && x.wait == 0)), Elapse(c).gateways;
    forall y | y in v ensures exists x :: x in c.gateways && y.name == x.name && y.net == x.net && y.deleting == x.deleting {
      var i :| 0 <= i < |v| && v[i] == y;
      assert u[i] in u;
    }
  }

  // ---- A blocked network ----

  /** What a pass and a tick leave of a blocked network. */
  lemma BlockedStays(sp: Spec, c: Cloud, c': Cloud, st: Status, st': Status)
    requires !Unblocked(sp, c, st) && SameIds(st, st') && c'.networks == c.networks
    requires LbsStep(sp, st.lbId, c.lbs, c'.lbs) && GatewaysStep(sp, c.gateways, c'.gateways)
    ensures !Unblocked(sp, c', st') && InUse(c', st.networkId)
  {
  }

  lemma BlockedElapse(sp: Spec, c: Cloud, st: Status)
    requires !Unblocked(sp, c, st)
    ensures !Unblocked(sp, Elapse(c), st)
  {
  }

  lemma BlockedPass(f: Oracle, sp: Spec, w: World, order: seq<string>)
    requires Cooperative(f) && Identified(w.c) && !Unblocked(sp, w.c, w.st) && !sp.keep
    ensures var (ph, w') := ReconcileDelete(f, sp, w, order);
            !ph.Done? && Identified(w'.c) && !Unblocked(sp, w'.c, w'.st)
  {
    hide DeleteFront, DeleteOrphans, CleanFips, CleanGateway, Distinct, FrontLeft, Unblocked, LbsStep;
    FrontLeaves(f, sp, w, order);
    var (fips, ok1, w1) := DeleteFront(f, sp, w, order);
    FrontOk(sp, w, (fips, ok1, w1));
    LbsSwept(f, sp, w, order);
    var w2 := DeleteOrphans(f, sp, w1);
    CleanFipsKeepsKeys(f, w2, fips);
    var (again, w3) := CleanFips(f, w2, fips);
    GatewayWork(f, sp, w3);
    var w4 := CleanGateway(f, sp, w3);
    BlockedStays(sp, w.c, w3.c, w.st, w3.st);
    BlockedStays(sp, w.c, w4.c, w.st, w4.st);
    assert !CleanNetwork(f, w4).0 && CleanNetwork(f, w4).1.c == w4.c by { BlockedRefused(f, sp, w4); }
    IdentifiedStepped(sp, w.c, w3.c, w.st);
    IdentifiedStepped(sp, w.c, w4.c, w.st);
    var w' := ReconcileDelete(f, sp, w, order).1;
    BlockedStays(sp, w.c, w'.c, w.st, w'.st);
  }

  lemma BlockedRefused(f: Oracle, sp: Spec, w: World)
    requires Cooperative(f) && !Unblocked(sp, w.c, w.st) && InUse(w.c, w.st.networkId)
    ensures !CleanNetwork(f, w).0 && CleanNetwork(f, w).1.c == w.c
  {
  }

  // ---- Convergence ----

  lemma {:induction false} BlockedForever(sp: Spec, ws: nat -> World, n: nat, m: nat)
    requires !sp.keep && forall k: nat :: PassAndTick(sp, ws(k), ws(k + 1))
    requires Identified(ws(n).c) && !Unblocked(sp, ws(n).c, ws(n).st) && m >= n
    ensures Identified(ws(m).c) && !Unblocked(sp, ws(m).c, ws(m).st) && ws(m).st.finalizer == ws(n).st.finalizer
    decreases m
  {
    hide ReconcileDelete, Identified, Unblocked;
    if m > n {
      BlockedForever(sp, ws, n, m - 1);
      var w := ws(m - 1);
      assert PassAndTick(sp, w, ws(m - 1 + 1));
      var f, order :| Cooperative(f) && ws(m).c == Elapse(ReconcileDelete(f, sp, w, order).1.c)
                      && ws(m).st == ReconcileDelete(f, sp, w, order).1.st;
      BlockedPass(f, sp, w, order);
      var mid := ReconcileDelete(f, sp, w, order).1;
      BlockedElapse(sp, mid.c, mid.st);
      ElapseIdentified(mid.c);
    }
  }

  /** Every infinite sequence of saved delete passes and ticks removes the finalizer, however long
      each deletion takes and in whatever order the groups are visited. */
  lemma {:induction false} Converges(sp: Spec, ws: nat -> World, n: nat)
    requires !sp.keep && forall k: nat :: PassAndTick(sp, ws(k), ws(k + 1))
    requires Inv(sp, ws(n).c, ws(n).st)
    ensures exists m: nat :: m > n && !ws(m).st.finalizer
    decreases Work(sp, ws(n).c, ws(n).st), Time(ws(n).c)
  {
    hide ReconcileDelete, Inv, Work, Time, Waiting;
    var w, w' := ws(n), ws(n + 1);
    assert PassAndTick(sp, w, w');
    var f, order :| Cooperative(f) && w'.c == Elapse(ReconcileDelete(f, sp, w, order).1.c)
                    && w'.st == ReconcileDelete(f, sp, w, order).1.st;
    var (ph, mid) := ReconcileDelete(f, sp, w, order);
    if !ph.Done? {
      PassWorks(f, sp, w, order);
      ElapseWorks(sp, mid.c, mid.st);
      ElapseInv(sp, mid.c, mid.st);
      Converges(sp, ws, n + 1);
    }
  }

  /** So deletion converges exactly when the network to delete is not blocked by somebody else's
      load balancer or gateway. */
  lemma ConvergesIffUnblocked(sp: Spec, ws: nat -> World, n: nat)
    requires !sp.keep && forall k: nat :: PassAndTick(sp, ws(k), ws(k + 1))
    requires Identified(ws(n).c) && ws(n).st.finalizer
    ensures (exists m: nat :: m > n && !ws(m).st.finalizer) <==> Unblocked(sp, ws(n).c, ws(n).st)
  {
    hide Identified, Unblocked;
    if Unblocked(sp, ws(n).c, ws(n).st) {
      Converges(sp, ws, n);
    } else {
      forall m: nat | m > n ensures ws(m).st.finalizer { BlockedForever(sp, ws, n, m); }
    }
  }
}
