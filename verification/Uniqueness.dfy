/** Nothing is created twice: listeners, pools, health monitors and security groups, in every
    run of any number of clusters sharing a region, whatever API calls fail and whichever
    status patches are lost; and load balancers, as long as the lookups by name are answered. */
module Uniqueness {
  import opened Collections
  import opened OvhCloud
  import opened ClusterSteps
  import opened ClusterDelete
  import Names

  /** What "the same resource" means for each kind. Monitor names carry no cluster name and
      are looked up region-wide. */
  datatype Key = ListenerKey(lb: Id, name: string) | PoolKey(lb: Id, name: string)
               | MonitorKey(name: string) | GroupKey(name: string)

  function Copies(c: Cloud, k: Key): nat {
    match k
    case ListenerKey(lb, name) => Count(c.listeners, (x: Listener) => x.name == name && lb in x.lbs)
    case PoolKey(lb, name) => Count(c.pools, (x: Pool) => x.name == name && x.lb == lb)
    case MonitorKey(name) => Count(c.monitors, (x: Monitor) => x.name == name)
    case GroupKey(name) => Count(c.groups, (x: Group) => x.name == name)
  }

  // ---- The port step ----

  lemma ListenerOnce(f: Oracle, w: World, port: Port, k: Key)
    requires Copies(w.c, k) <= 1
    ensures Copies(EnsureListener(f, w, port).1.c, k) <= 1
  {
    if ListenerOf(w.st, port) == UNSET && Up(f, w) && k.ListenerKey? {
      var p := (x: Listener) => x.name == k.name && k.lb in x.lbs;
      CountZero(w.c.listeners, p);
      var id := w.c.next;
      CountAppend(w.c.listeners, Listener(id, PortName(port), [w.st.lbId], PortNumber(port)), p);
    }
  }

  lemma PoolOnce(f: Oracle, w: World, port: Port, k: Key)
    requires Copies(w.c, k) <= 1
    ensures Copies(EnsurePool(f, w, port).1.c, k) <= 1
  {
    if PoolOf(w.st, port) == UNSET && Up(f, w) && k.PoolKey? {
      var p := (x: Pool) => x.name == k.name && x.lb == k.lb;
      CountZero(w.c.pools, p);
      CountAppend(w.c.pools, Pool(w.c.next, PoolName(port), w.st.lbId, ListenerOf(w.st, port)), p);
    }
  }

  lemma MonitorOnce(f: Oracle, w: World, port: Port, k: Key)
    requires Copies(w.c, k) <= 1
    ensures Copies(EnsureMonitor(f, w, port).c, k) <= 1
  {
    if Up(f, w) && k.MonitorKey? {
      var p := (x: Monitor) => x.name == k.name;
      CountZero(w.c.monitors, p);
      CountAppend(w.c.monitors, Monitor(w.c.next, MonitorName(port), PoolOf(w.st, port)), p);
    }
  }

  lemma PortOnce(f: Oracle, w: World, port: Port, k: Key)
    requires Copies(w.c, k) <= 1
    ensures Copies(ReconcilePort(f, w, port).1.c, k) <= 1
  {
    hide EnsureListener, EnsurePool, EnsureMonitor;
    ListenerOnce(f, w, port, k);
    var (ok1, w1) := EnsureListener(f, w, port);
    PoolOnce(f, w1, port, k);
    MonitorOnce(f, EnsurePool(f, w1, port).1, port, k);
  }

  // ---- The security-group step ----

  /** Every group in the region was listed at the start of the pass or has been recorded since. */
  ghost predicate Accounted(sp: Spec, w: World, listed: seq<Group>) {
    forall x :: x in w.c.groups ==>
      x in listed || exists g :: g in w.st.groupIds && w.st.groupIds[g] != UNSET && x.name == GroupName(sp, g)
  }

  lemma GroupNameInjective(sp: Spec, g: string, h: string)
    requires GroupName(sp, g) == GroupName(sp, h)
    ensures g == h
  {
    var prefix := "capi-" + sp.name + "-";
    assert g == (prefix + g)[|prefix|..] && h == (prefix + h)[|prefix|..];
  }

  lemma {:induction false} GroupsOnce(f: Oracle, sp: Spec, w: World, listed: seq<Group>, todo: seq<string>, k: Key)
    requires Copies(w.c, k) <= 1 && Accounted(sp, w, listed)
    ensures Copies(EnsureGroups(f, sp, w, listed, todo).c, k) <= 1
    decreases |todo|
  {
    if todo != [] {
      var g := todo[0];
      if g in w.st.groupIds && w.st.groupIds[g] != UNSET {
        GroupsOnce(f, sp, w, listed, todo[1..], k);
      } else {
        match LastNamed(listed, GroupName(sp, g))
        case Some(id) =>
          var w1 := w.(st := w.st.(groupIds := w.st.groupIds[g := id]));
          assert Accounted(sp, w1, listed);
          GroupsOnce(f, sp, w1, listed, todo[1..], k);
        case None =>
          NoSuchGroup(sp, w, listed, g);
          PostGroupOnce(f, w, GroupName(sp, g), k);
          var (id, w1) := PostGroup(f, w, GroupName(sp, g));
          if id != UNSET {
            var w2 := w1.(st := w1.st.(groupIds := w1.st.groupIds[g := id]));
            assert Accounted(sp, w2, listed) by {
              forall x | x in w2.c.groups
                ensures x in listed || exists h :: h in w2.st.groupIds && w2.st.groupIds[h] != UNSET && x.name == GroupName(sp, h)
              {
                if x in w.c.groups && x !in listed {
                  var h :| h in w.st.groupIds && w.st.groupIds[h] != UNSET && x.name == GroupName(sp, h);
                  assert h in w2.st.groupIds && w2.st.groupIds[h] != UNSET;
                } else if x !in listed {
                  assert g in w2.st.groupIds && x.name == GroupName(sp, g);
                }
              }
            }
            GroupsOnce(f, sp, w2, listed, todo[1..], k);
          }
      }
    }
  }

  lemma NoSuchGroup(sp: Spec, w: World, listed: seq<Group>, g: string)
    requires Accounted(sp, w, listed) && LastNamed(listed, GroupName(sp, g)).None?
    requires !(g in w.st.groupIds && w.st.groupIds[g] != UNSET)
    ensures forall x :: x in w.c.groups ==> x.name != GroupName(sp, g)
  {
    forall x | x in w.c.groups ensures x.name != GroupName(sp, g) {
      if x !in listed {
        var h :| h in w.st.groupIds && w.st.groupIds[h] != UNSET && x.name == GroupName(sp, h);
        if x.name == GroupName(sp, g) { GroupNameInjective(sp, g, h); }
      }
    }
  }

  lemma PostGroupOnce(f: Oracle, w: World, name: string, k: Key)
    requires Copies(w.c, k) <= 1 && forall x :: x in w.c.groups ==> x.name != name
    ensures Copies(PostGroup(f, w, name).1.c, k) <= 1
  {
    if Up(f, w) && k.GroupKey? {
      var p := (x: Group) => x.name == k.name;
      CountZero(w.c.groups, p);
      CountAppend(w.c.groups, Group(w.c.next, name), p);
    }
  }

  // ---- Whole passes ----

  lemma ServeOnce(f: Oracle, sp: Spec, w: World, lb: LoadBalancer, k: Key)
    requires Copies(w.c, k) <= 1
    ensures Copies(HandleLb(f, sp, w, lb).1.c, k) <= 1
  {
    hide ReconcilePort, ReconcileFip;
    if Active(lb) {
      PortOnce(f, w, ApiServer, k);
      PortOnce(f, ReconcilePort(f, w, ApiServer).1, Register, k);
    }
  }

  lemma LbOnce(f: Oracle, sp: Spec, w: World, k: Key)
    requires Copies(w.c, k) <= 1
    ensures Copies(ReconcileLb(f, sp, w).1.c, k) <= 1
  {
    hide HandleLb, CreateLb;
    var w0 := w.(st := Adopt(sp, w.st));
    if w0.st.lbId != UNSET {
      var got, w1 := Answer(f, w0, LbById(w0.c, w0.st.lbId)), Called(w0);
      if got.Found? { ServeOnce(f, sp, w1, got.value, k); }
    }
  }

  lemma NormalOnce(f: Oracle, sp: Spec, w: World, k: Key)
    requires Copies(w.c, k) <= 1
    ensures Copies(ReconcileNormal(f, sp, w).1.c, k) <= 1
  {
    hide ReconcileNetwork, EnsureGroups, ReconcileLb, ReconcileDns;
    var (net, w1) := ReconcileNetwork(f, sp, Called(w));
    GroupsOnce(f, sp, Called(w1), w1.c.groups, sp.groups, k);
    LbOnce(f, sp, ReconcileGroups(f, sp, w1), k);
  }

  lemma {:induction false} CleanGroupsOnce(f: Oracle, w: World, order: seq<string>, k: Key)
    requires Copies(w.c, k) <= 1
    ensures Copies(CleanGroups(f, w, order).c, k) <= 1
    decreases |order|
  {
    if order != [] {
      if order[0] !in w.st.groupIds {
        CleanGroupsOnce(f, w, order[1..], k);
      } else {
        var id := w.st.groupIds[order[0]];
        var (ok, w1) := DeleteGroup(f, w, id);
        if k.GroupKey? {
          CountFilter(w.c.groups, (x: Group) => x.id != id, (x: Group) => x.name == k.name);
        }
        var w2 := if ok then w1.(st := w1.st.(groupIds := w1.st.groupIds - {order[0]})) else w1;
        CleanGroupsOnce(f, w2, order[1..], k);
      }
    }
  }

  lemma DeletePoolOnce(f: Oracle, w: World, id: Id, k: Key)
    requires Copies(w.c, k) <= 1
    ensures Copies(DeletePool(f, w, id).c, k) <= 1
  {
    if k.PoolKey? {
      CountFilter(w.c.pools, (x: Pool) => x.id != id, (x: Pool) => x.name == k.name && x.lb == k.lb);
    }
  }

  lemma DeleteListenerOnce(f: Oracle, w: World, id: Id, k: Key)
    requires Copies(w.c, k) <= 1
    ensures Copies(DeleteListener(f, w, id).c, k) <= 1
  {
    if k.ListenerKey? {
      CountFilter(w.c.listeners, (x: Listener) => x.id != id, (x: Listener) => x.name == k.name && k.lb in x.lbs);
    }
  }

  lemma RecordedLbOnce(f: Oracle, w: World, k: Key)
    requires Copies(w.c, k) <= 1
    ensures Copies(DeleteRecordedLb(f, w).1.c, k) <= 1
  {
    hide DeletePool, DeleteListener;
    DeletePoolOnce(f, w, w.st.poolId, k);
    var w1 := if w.st.poolId != UNSET then DeletePool(f, w, w.st.poolId) else w;
    DeleteListenerOnce(f, w1, w.st.listenerId, k);
  }

  lemma DeleteOnce(f: Oracle, sp: Spec, w: World, order: seq<string>, k: Key)
    requires Copies(w.c, k) <= 1
    ensures Copies(ReconcileDelete(f, sp, w, order).1.c, k) <= 1
  {
    hide CleanDns, CleanGroups, CaptureFips, DeleteRecordedLb, DeleteOrphans, CleanFips, CleanGateway, CleanNetwork;
    var w0 := CleanDns(f, sp, w);
    CleanGroupsOnce(f, w0, order, k);
    var w1 := CleanGroups(f, w0, order);
    RecordedLbOnce(f, CaptureFips(f, w1).1, k);
  }

  // ---- Runs ----

  /** Several OVHCluster objects over one region. The user may edit a spec between passes. */
  datatype Fleet = Fleet(c: Cloud, objects: map<nat, Status>)

  /** A pass over one object, whose final patch is saved or lost, or a change of the cloud
      by anybody else. */
  datatype Action = Normal(key: nat, sp: Spec, f: Oracle, saved: bool)
                  | Delete(key: nat, sp: Spec, f: Oracle, order: seq<string>, saved: bool)
                  | Other(c: Cloud)

  /** The world in which an action of a fleet finds its object. */
  function Before(fl: Fleet, key: nat): World
    requires key in fl.objects
  {
    World(fl.c, fl.objects[key], 0, [], {})
  }

  function Act(fl: Fleet, a: Action): Fleet {
    if a.Other? then fl.(c := a.c)
    else if a.key !in fl.objects then fl
    else
      var w := Before(fl, a.key);
      var w' := if a.Normal? then ReconcileNormal(a.f, a.sp, w).1 else ReconcileDelete(a.f, a.sp, w, a.order).1;
      Fleet(w'.c, if a.saved then fl.objects[a.key := w'.st] else fl.objects)
  }

  function Run(fl: Fleet, acts: seq<Action>): Fleet {
    if acts == [] then fl else Act(Run(fl, acts[..|acts| - 1]), acts[|acts| - 1])
  }

  /** Everybody else may do anything to the cloud except leave a second copy of `k`. */
  ghost predicate OthersLeaveOne(acts: seq<Action>, k: Key) {
    forall a :: a in acts && a.Other? ==> Copies(a.c, k) <= 1
  }

  /** In every run, at most one listener and pool per load balancer and name, one monitor per
      name and one security group per name, if there was at most one to begin with. */
  lemma {:induction false} NothingCreatedTwice(fl: Fleet, acts: seq<Action>, k: Key)
    requires Copies(fl.c, k) <= 1 && OthersLeaveOne(acts, k)
    ensures Copies(Run(fl, acts).c, k) <= 1
  {
    hide ReconcileNormal, ReconcileDelete, Copies;
    if acts != [] {
      var before, a := acts[..|acts| - 1], acts[|acts| - 1];
      NothingCreatedTwice(fl, before, k);
      var mid := Run(fl, before);
      if !a.Other? && a.key in mid.objects {
        var w := Before(mid, a.key);
        if a.Normal? { NormalOnce(a.f, a.sp, w, k); } else { DeleteOnce(a.f, a.sp, w, a.order, k); }
      }
    }
  }

  // ---- Load balancers ----

  function WithName(name: string): LoadBalancer -> bool { (x: LoadBalancer) => x.name == name }

  function LbCopies(c: Cloud, name: string): nat { Count(c.lbs, WithName(name)) }

  lemma ListLbCopies(f: Oracle, w: World, name: string)
    ensures LbCopies(ListLbs(f, w).1.c, name) == LbCopies(w.c, name)
  {
    CountRewrite(w.c.lbs, (x: LoadBalancer) => x.(visible := true), WithName(name));
  }

  lemma {:induction false} PollLbCopies(f: Oracle, w: World, lb: string, attempt: nat, name: string)
    ensures LbCopies(PollLb(f, w, lb, attempt).1.c, name) == LbCopies(w.c, name)
    decreases 10 - attempt
  {
    hide ListLbs, LbCopies, VisibleLbByName;
    ListLbCopies(f, w, name);
    if attempt < 10 { PollLbCopies(f, ListLbs(f, w).1, lb, attempt + 1, name); }
  }

  ghost predicate Shown(c: Cloud, name: string) { exists x :: x in c.lbs && x.visible && x.name == name }

  /** A lookup by name, call number `n`, finds what is there if it is answered in full, and otherwise at
      most what has shown before. */
  ghost predicate Finds(f: Oracle, n: nat, c: Cloud, name: string) {
    (f(n).outcome.Ok? && LbCopies(c, name) > 0) || (f(n).outcome.Late? && Shown(c, name))
  }

  lemma FindsIff(f: Oracle, w: World, name: string)
    ensures var (ok, w1) := ListLbs(f, w); ok && VisibleLbByName(w1.c, name).Some? <==> Finds(f, w.n, w.c, name)
  {
    var w1 := ListLbs(f, w).1;
    CountZero(w.c.lbs, WithName(name));
    if f(w.n).outcome.Ok? && LbCopies(w.c, name) > 0 {
      var i :| 0 <= i < |w.c.lbs| && w.c.lbs[i].name == name;
      assert w1.c.lbs[i].visible && w1.c.lbs[i].name == name;
    }
  }

  lemma SameLbCopies(c: Cloud, c': Cloud, name: string)
    ensures c'.lbs == c.lbs ==> LbCopies(c', name) == LbCopies(c, name)
  {
  }

  lemma PostLbCopies(f: Oracle, w: World, lb: string, net: Id, name: string)
    ensures LbCopies(PostLb(f, w, lb, net).1.c, name) == LbCopies(w.c, name) + if Up(f, w) && lb == name then 1 else 0
    ensures PostLb(f, w, lb, net).0 == UNSET <==> !Up(f, w)
  {
    var w' := PostLb(f, w, lb, net).1;
    if Up(f, w) { CountAppend(w.c.lbs, w'.c.lbs[|w.c.lbs|], WithName(name)); }
  }

  lemma FindOrPostCopies(f: Oracle, w: World, lb: string, net: Id, name: string)
    ensures LbCopies(FindOrPostLb(f, w, lb, net).1.c, name)
            == LbCopies(w.c, name) + if lb == name && !Finds(f, w.n, w.c, name) && Answered(f, w.n + 1) then 1 else 0
  {
    hide PollLb, VisibleLbByName, ListLbs, LbCopies, Finds;
    ListLbCopies(f, w, name);
    FindsIff(f, w, lb);
    var w1 := ListLbs(f, w).1;
    assert w1.n == w.n + 1 by { ListCalls(f, w); }
    PostLbCopies(f, w1, lb, net, name);
    PollLbCopies(f, PostLb(f, w1, lb, net).1, lb, 0, name);
  }

  lemma ListCalls(f: Oracle, w: World)
    ensures ListLbs(f, w).1.n == w.n + 1
  {
  }

  // Where a pass stands when it comes to the load balancer, and to creating one.

  function AtLb(f: Oracle, sp: Spec, w: World): World {
    var w2 := ReconcileGroups(f, sp, ReconcileNetwork(f, sp, Called(w)).1);
    w2.(st := Adopt(sp, w2.st))
  }

  function AtCreate(w: World): World { if w.st.lbId == UNSET then w else Called(w).(st := ForgetLb(w.st)) }

  /** Creation gets as far as the lookup: there are a subnet and a network in the region to create in. */
  predicate LooksUp(f: Oracle, sp: Spec, w: World) {
    && Up(f, w) && (sp.lbSubnetId != UNSET || w.st.subnetId != UNSET) && w.st.networkId != UNSET
    && Answered(f, w.n + 1) && w.st.networkId in w.c.networks && w.c.networks[w.st.networkId].osId != UNSET
  }

  /** The pass looks for a load balancer of the cluster's name before creating one... */
  predicate Looks(f: Oracle, sp: Spec, w: World) {
    && w.st.finalizer && Up(f, w) && ReconcileNetwork(f, sp, Called(w)).0.Done?
    && var w0 := AtLb(f, sp, w);
       (w0.st.lbId == UNSET || Answer(f, w0, LbById(w0.c, w0.st.lbId)).Absent?) && LooksUp(f, sp, AtCreate(w0))
  }

  /** ...with this call. */
  function LookupCall(f: Oracle, sp: Spec, w: World): nat { AtCreate(AtLb(f, sp, w)).n + 2 }

  /** The lookup misses every load balancer of the name, and the POST after it goes through. */
  ghost predicate PostsLb(f: Oracle, sp: Spec, w: World, name: string) {
    && Names.LbName(sp.name) == name && Looks(f, sp, w)
    && !Finds(f, LookupCall(f, sp, w), w.c, name) && Answered(f, LookupCall(f, sp, w) + 1)
  }

  lemma CreateCopies(f: Oracle, sp: Spec, w: World, name: string)
    ensures LbCopies(CreateLb(f, sp, w).1.c, name) == LbCopies(w.c, name)
            + if Names.LbName(sp.name) == name && LooksUp(f, sp, w) && !Finds(f, w.n + 2, w.c, name) && Answered(f, w.n + 3) then 1 else 0
  {
    hide FindOrPostLb, LbCopies, Finds, Names.LbName;
    var w2 := Called(Called(w));
    SameLbCopies(w.c, w2.c, name);
    FindOrPostCopies(f, w2, Names.LbName(sp.name), w.st.networkId, name);
    var w' := CreateLb(f, sp, w).1;
    SameLbCopies(w.c, w.(n := w'.n).c, name);
  }

  lemma LbStepCopies(f: Oracle, sp: Spec, w: World, name: string)
    ensures var w0 := w.(st := Adopt(sp, w.st));
            var w1 := AtCreate(w0);
            LbCopies(ReconcileLb(f, sp, w).1.c, name) == LbCopies(w.c, name)
            + if Names.LbName(sp.name) == name && (w0.st.lbId == UNSET || Answer(f, w0, LbById(w0.c, w0.st.lbId)).Absent?)
                 && LooksUp(f, sp, w1) && !Finds(f, w1.n + 2, w.c, name) && Answered(f, w1.n + 3) then 1 else 0
  {
    hide HandleLb, CreateLb, LbById, LbCopies, Finds, LooksUp, Names.LbName;
    var w0 := w.(st := Adopt(sp, w.st));
    CreateCopies(f, sp, AtCreate(w0), name);
    var got := Answer(f, w0, LbById(w0.c, w0.st.lbId));
    if got.Found? { SameLbCopies(w.c, HandleLb(f, sp, Called(w0), got.value).1.c, name); }
  }

  /** How many load balancers of a name a pass adds, whatever is answered: one exactly if it posts one. */
  lemma NormalCopies(f: Oracle, sp: Spec, w: World, name: string)
    ensures LbCopies(ReconcileNormal(f, sp, w).1.c, name) == LbCopies(w.c, name) + if PostsLb(f, sp, w, name) then 1 else 0
  {
    hide ReconcileNetwork, ReconcileGroups, ReconcileLb, ReconcileDns, LbCopies, LooksUp, LbById, Finds, Names.LbName;
    var w1 := ReconcileNetwork(f, sp, Called(w)).1;
    var w2 := ReconcileGroups(f, sp, w1);
    LbStepCopies(f, sp, w2, name);
    SameFinds(f, w.c, w2.c, name);
    var w', w3 := ReconcileNormal(f, sp, w).1, ReconcileLb(f, sp, w2).1;
    SameLbCopies(w.c, w2.c, name);
    SameLbCopies(w.c, w'.c, name);
    SameLbCopies(w3.c, w'.c, name);
  }

  lemma SameFinds(f: Oracle, c: Cloud, c': Cloud, name: string)
    ensures c'.lbs == c.lbs ==> forall n :: Finds(f, n, c', name) <==> Finds(f, n, c, name)
  {
  }

  lemma DeleteLbCopies(f: Oracle, w: World, id: Id, name: string)
    ensures LbCopies(DeleteLb(f, w, id).1.c, name) == LbCopies(w.c, name)
  {
    CountRewrite(w.c.lbs, (x: LoadBalancer) => if x.id == id && !x.deleting then x.(deleting := true, wait := f(w.n).delay) else x,
                 WithName(name));
  }

  lemma {:induction false} DeleteLbsCopies(f: Oracle, w: World, ids: seq<Id>, name: string)
    ensures LbCopies(DeleteLbs(f, w, ids).c, name) == LbCopies(w.c, name)
    decreases |ids|
  {
    hide DeleteLb, LbCopies;
    if ids != [] {
      DeleteLbCopies(f, w, ids[0], name);
      DeleteLbsCopies(f, DeleteLb(f, w, ids[0]).1, ids[1..], name);
    }
  }

  lemma RecordedLbCopies(f: Oracle, w: World, name: string)
    ensures LbCopies(DeleteRecordedLb(f, w).1.c, name) == LbCopies(w.c, name)
  {
    hide DeleteLb, DeletePool, DeleteListener, LbCopies;
    var w1 := if w.st.poolId != UNSET then DeletePool(f, w, w.st.poolId) else w;
    var w2 := if w.st.listenerId != UNSET then DeleteListener(f, w1, w.st.listenerId) else w1;
    assert w2.c.lbs == w.c.lbs by { PortDeletesFrame(f, w); PortDeletesFrame(f, w1); }
    SameLbCopies(w.c, w2.c, name);
    DeleteLbCopies(f, w2, w.st.lbId, name);
  }

  lemma PortDeletesFrame(f: Oracle, w: World)
    ensures forall id :: DeletePool(f, w, id).c.lbs == w.c.lbs && DeleteListener(f, w, id).c.lbs == w.c.lbs
  {
  }

  lemma DeleteLbOnce(f: Oracle, sp: Spec, w: World, order: seq<string>, name: string)
    ensures LbCopies(ReconcileDelete(f, sp, w, order).1.c, name) == LbCopies(w.c, name)
  {
    hide CleanDns, CleanGroups, CaptureFips, DeleteRecordedLb, DeleteLbs, CleanFips, CleanGateway, CleanNetwork, LbCopies, ListLbs;
    var w1 := CleanGroups(f, CleanDns(f, sp, w), order);
    var (fips, w2) := CaptureFips(f, w1);
    SameLbCopies(w.c, w2.c, name);
    RecordedLbCopies(f, w2, name);
    var w3 := DeleteRecordedLb(f, w2).1;
    ListLbCopies(f, w3, name);
    var w4 := ListLbs(f, w3).1;
    DeleteLbsCopies(f, w4, LbsByPrefix(w4.c.lbs, Names.LbName(sp.name)), name);
    var w5, w' := DeleteOrphans(f, sp, w3), ReconcileDelete(f, sp, w, order).1;
    assert w'.c.lbs == w5.c.lbs || w'.c.lbs == w3.c.lbs || w'.c.lbs == w.c.lbs;
    SameLbCopies(w5.c, w'.c, name);
    SameLbCopies(w3.c, w'.c, name);
    SameLbCopies(w.c, w'.c, name);
  }

  /** The action posts another load balancer of this name while there is one. */
  ghost predicate PostsSecond(fl: Fleet, a: Action, name: string) {
    && a.Normal? && a.key in fl.objects && LbCopies(fl.c, name) > 0 && PostsLb(a.f, a.sp, Before(fl, a.key), name)
  }

  ghost predicate OthersLeaveOneLb(acts: seq<Action>, name: string) {
    forall a :: a in acts && a.Other? ==> LbCopies(a.c, name) <= 1
  }

  lemma ActCopies(fl: Fleet, a: Action, name: string)
    requires a.Other? ==> LbCopies(a.c, name) <= 1
    requires LbCopies(fl.c, name) <= 1
    ensures LbCopies(Act(fl, a).c, name) <= 1 <==> !PostsSecond(fl, a, name)
  {
    hide ReconcileNormal, ReconcileDelete, LbCopies, PostsLb;
    if !a.Other? && a.key in fl.objects {
      var w := Before(fl, a.key);
      if a.Normal? { NormalCopies(a.f, a.sp, w, name); } else { DeleteLbOnce(a.f, a.sp, w, a.order, name); }
    }
  }

  ghost predicate OneLbAfter(fl: Fleet, acts: seq<Action>, i: nat, name: string)
    requires i <= |acts|
  {
    LbCopies(Run(fl, acts[..i]).c, name) <= 1
  }

  ghost predicate SecondAt(fl: Fleet, acts: seq<Action>, i: nat, name: string)
    requires i < |acts|
  {
    PostsSecond(Run(fl, acts[..i]), acts[i], name)
  }

  lemma SameBefore(fl: Fleet, acts: seq<Action>, n: nat, name: string)
    requires n <= |acts|
    ensures forall i :: 0 <= i <= n ==> OneLbAfter(fl, acts[..n], i, name) == OneLbAfter(fl, acts, i, name)
    ensures forall i :: 0 <= i < n ==> SecondAt(fl, acts[..n], i, name) == SecondAt(fl, acts, i, name)
  {
    hide Run, LbCopies, PostsSecond;
    forall i | 0 <= i <= n ensures acts[..n][..i] == acts[..i] { }
  }

  lemma NextCopies(fl: Fleet, acts: seq<Action>, n: nat, name: string)
    requires n < |acts| && OthersLeaveOneLb(acts, name) && OneLbAfter(fl, acts, n, name)
    ensures OneLbAfter(fl, acts, n + 1, name) <==> !SecondAt(fl, acts, n, name)
  {
    hide Act, LbCopies, PostsSecond;
    assert acts[..n + 1][..n] == acts[..n] && acts[..n + 1][n] == acts[n];
    ActCopies(Run(fl, acts[..n]), acts[n], name);
  }

  lemma OneLbAtFirst(fl: Fleet, acts: seq<Action>, name: string)
    requires LbCopies(fl.c, name) <= 1
    ensures OneLbAfter(fl, acts, 0, name)
  {
    hide Act, LbCopies;
    assert acts[..0] == [];
  }

  /** In every run of a fleet, with any answers and lost patches, there is at most one load balancer of
      a name throughout exactly when no pass posts one past a lookup that missed the one there is. */
  lemma {:induction false} OneLbIff(fl: Fleet, acts: seq<Action>, name: string)
    requires LbCopies(fl.c, name) <= 1 && OthersLeaveOneLb(acts, name)
    ensures (forall i :: 0 <= i <= |acts| ==> OneLbAfter(fl, acts, i, name))
            <==> forall i :: 0 <= i < |acts| ==> !SecondAt(fl, acts, i, name)
  {
    hide OneLbAfter, SecondAt, LbCopies;
    OneLbAtFirst(fl, acts, name);
    if acts != [] {
      var n := |acts| - 1;
      assert OthersLeaveOneLb(acts[..n], name);
      hide OthersLeaveOneLb;
      OneLbIff(fl, acts[..n], name);
      SameBefore(fl, acts, n, name);
      assert n + 1 == |acts|;
      if OneLbAfter(fl, acts, n, name) { NextCopies(fl, acts, n, name); }
    }
  }

  /** Every pass that looks for a load balancer before creating one is answered in full. */
  ghost predicate LookupsAnswered(fl: Fleet, acts: seq<Action>) {
    forall i :: 0 <= i < |acts| && acts[i].Normal? && acts[i].key in Run(fl, acts[..i]).objects ==>
      LookupAnswered(acts[i], Before(Run(fl, acts[..i]), acts[i].key))
  }

  ghost predicate LookupAnswered(a: Action, w: World)
    requires a.Normal?
  {
    Looks(a.f, a.sp, w) ==> a.f(LookupCall(a.f, a.sp, w)).outcome.Ok?
  }

  /** In every such run there is at most one load balancer of each name, whatever else fails or is lost. */
  lemma OneLbPerName(fl: Fleet, acts: seq<Action>, name: string)
    requires LbCopies(fl.c, name) <= 1 && OthersLeaveOneLb(acts, name) && LookupsAnswered(fl, acts)
    ensures LbCopies(Run(fl, acts).c, name) <= 1
  {
    hide Run, LbCopies, Looks, LookupCall;
    forall i | 0 <= i < |acts| ensures !SecondAt(fl, acts, i, name) { }
    OneLbIff(fl, acts, name);
    assert acts[..|acts|] == acts && OneLbAfter(fl, acts, |acts|, name);
  }
}
