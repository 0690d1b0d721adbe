/** Where the recorded floating IP and the control plane endpoint come from. */
module Provenance {
  import opened Collections
  import opened OvhCloud
  import opened ClusterSteps
  import opened ClusterDelete
  import opened ClusterRuns
  import Names

  /** The API showed `id` as the reference on a load balancer or as associated with one. */
  ghost predicate Shown(seen: set<Sight>, id: Id) {
    exists s :: s in seen && !s.Fetched? && s.fip == id
  }

  /** The API showed a floating IP with this address. */
  ghost predicate ShownAddress(seen: set<Sight>, ip: string) {
    exists s :: s in seen && s.ip == ip
  }

  /** Answers to the floating-IP POST. */
  ghost predicate Placeholder(log: seq<Event>, id: Id) { id != UNSET && Posted(FipKind, id) in log }

  /** The recorded identifier came from a load balancer, a listing or the spec. */
  ghost predicate FipFromCloud(st: Status, seen: set<Sight>, given: set<Id>) {
    st.fipId == UNSET || st.fipId in given || Shown(seen, st.fipId)
  }

  /** Identifiers are never reused, so a placeholder never names a floating IP. */
  ghost predicate PlaceholdersUnused(c: Cloud, log: seq<Event>) {
    && (forall x :: x in c.fips ==> x.id < c.next && !Placeholder(log, x.id))
    && (forall lb :: lb in c.lbs && lb.fip.Some? ==> lb.fip.value.id < c.next && !Placeholder(log, lb.fip.value.id))
    && (forall id: Id :: Placeholder(log, id) ==> id < c.next)
  }

  /** Nothing seen or supplied is a placeholder. */
  ghost predicate SeenReal(w: World, given: set<Id>) {
    && (forall s :: s in w.seen ==> s.fip < w.c.next && (s.Fetched? || !Placeholder(w.log, s.fip)))
    && forall id :: id in given ==> id < w.c.next && !Placeholder(w.log, id)
  }

  ghost predicate Inv(w: World, given: set<Id>) {
    FipFromCloud(w.st, w.seen, given) && PlaceholdersUnused(w.c, w.log) && SeenReal(w, given)
    && w.st.fipId < w.c.next
  }

  // ---- Steps ----

  lemma LogKeepsPlaceholders(log: seq<Event>, log': seq<Event>, kinds: set<Kind>)
    requires Appends(log, log', kinds) && FipKind !in kinds
    ensures forall id: Id :: Placeholder(log', id) <==> Placeholder(log, id)
  {
  }

  /** A step that logs no floating-IP event and leaves floating IPs, references and the record
      alone keeps the invariant. */
  lemma FramedKeeps(w: World, w': World, kinds: set<Kind>, given: set<Id>)
    requires Inv(w, given)
    requires Appends(w.log, w'.log, kinds) && FipKind !in kinds
    requires w'.c.fips == w.c.fips && w'.c.lbs == w.c.lbs && w'.seen == w.seen && w'.st.fipId == w.st.fipId
    requires w.c.next <= w'.c.next
    ensures Inv(w', given)
  {
    LogKeepsPlaceholders(w.log, w'.log, kinds);
  }

  // ---- Load balancer lists: no step of the controller invents a reference ----

  ghost predicate RefsFrom(lbs: seq<LoadBalancer>, lbs': seq<LoadBalancer>) {
    forall x :: x in lbs' && x.fip.Some? ==> exists y :: y in lbs && y.fip == x.fip
  }

  lemma {:induction false} PollRefs(f: Oracle, w: World, name: string, attempt: nat)
    ensures RefsFrom(w.c.lbs, PollLb(f, w, name, attempt).1.c.lbs)
    decreases 10 - attempt
  {
    hide RefsFrom, ListLbs, VisibleLbByName;
    SelfRefs(w.c.lbs);
    if attempt < 10 {
      var w1 := ListLbs(f, w).1;
      ListRefs(f, w);
      PollRefs(f, w1, name, attempt + 1);
      RefsThen(w.c.lbs, w1.c.lbs, PollLb(f, w1, name, attempt + 1).1.c.lbs);
    }
  }

  lemma SelfRefs(s: seq<LoadBalancer>)
    ensures RefsFrom(s, s)
  {
  }

  lemma ListRefs(f: Oracle, w: World)
    ensures RefsFrom(w.c.lbs, ListLbs(f, w).1.c.lbs)
  {
  }

  lemma RefsThen(s: seq<LoadBalancer>, t: seq<LoadBalancer>, u: seq<LoadBalancer>)
    requires RefsFrom(s, t) && RefsFrom(t, u)
    ensures RefsFrom(s, u)
  {
  }

  lemma FindOrPostRefs(f: Oracle, w: World, name: string, net: Id)
    ensures RefsFrom(w.c.lbs, FindOrPostLb(f, w, name, net).1.c.lbs)
  {
    hide PollLb;
    var (ok, w1) := ListLbs(f, w);
    assert RefsFrom(w.c.lbs, w1.c.lbs);
    var (id, w2) := PostLb(f, w1, name, net);
    assert RefsFrom(w.c.lbs, w2.c.lbs);
    PollRefs(f, w2, name, 0);
  }

  lemma CreateLbRefs(f: Oracle, sp: Spec, w: World)
    ensures RefsFrom(w.c.lbs, CreateLb(f, sp, w).1.c.lbs)
  {
    hide FindOrPostLb;
    FindOrPostRefs(f, Called(Called(w)), Names.LbName(sp.name), w.st.networkId);
  }

  lemma {:induction false} DeleteLbsRefs(f: Oracle, w: World, ids: seq<Id>)
    ensures RefsFrom(w.c.lbs, DeleteLbs(f, w, ids).c.lbs)
    decreases |ids|
  {
    if ids != [] {
      assert RefsFrom(w.c.lbs, DeleteLb(f, w, ids[0]).1.c.lbs);
      DeleteLbsRefs(f, DeleteLb(f, w, ids[0]).1, ids[1..]);
    }
  }

  /** A step that only changes the list of load balancers, without inventing references. */
  lemma LbStepKeeps(w: World, w': World, kinds: set<Kind>, given: set<Id>)
    requires Inv(w, given)
    requires Appends(w.log, w'.log, kinds) && FipKind !in kinds
    requires w'.c.fips == w.c.fips && RefsFrom(w.c.lbs, w'.c.lbs) && w'.seen == w.seen && w'.st.fipId == w.st.fipId
    requires w.c.next <= w'.c.next
    ensures Inv(w', given)
  {
    LogKeepsPlaceholders(w.log, w'.log, kinds);
  }

  // ---- The floating-IP step ----

  /** An identifier the cloud can show: in use, and not handed out as a placeholder. */
  ghost predicate Real(w: World, id: Id) { id < w.c.next && !Placeholder(w.log, id) }

  lemma RecordShown(w: World, s: Sight, given: set<Id>)
    requires Inv(w, given) && !s.Fetched? && Real(w, s.fip)
    ensures Inv(Saw(RecordFip(w, s.fip), s), given)
  {
  }

  lemma GatewayKeeps(f: Oracle, sp: Spec, w: World, given: set<Id>)
    requires Inv(w, given)
    ensures Inv(EnsureGatewayExposed(f, sp, w), given)
  {
    hide EnsureGatewayExposed;
    FramedKeeps(w, EnsureGatewayExposed(f, sp, w), {GatewayKind}, given);
  }

  lemma PostFipKeeps(f: Oracle, w: World, lb: LoadBalancer, gwName: string, given: set<Id>)
    requires Inv(w, given)
    ensures Inv(PostLbFip(f, w, lb, gwName).1, given)
  {
    var (id, w1) := PostLbFip(f, w, lb, gwName);
    forall x: Id ensures Placeholder(w1.log, x) <==> Placeholder(w.log, x) || (id != UNSET && x == id) {
      assert w1.log == w.log + [Posted(FipKind, id)];
    }
  }

  lemma AllocateKeeps(f: Oracle, sp: Spec, w: World, lb: LoadBalancer, given: set<Id>)
    requires Inv(w, given)
    ensures Inv(AllocateFip(f, sp, w, lb).1, given)
  {
    hide PostLbFip, EnsureGatewayExposed;
    PostFipKeeps(f, w, lb, GatewayName(sp), given);
    var (id, w1) := PostLbFip(f, w, lb, GatewayName(sp));
    GatewayKeeps(f, sp, w1, given);
    if id != UNSET {
      var w2 := EnsureGatewayExposed(f, sp, w1);
      var got, w3 := Answer(f, w2, LbById(w2.c, lb.id)), Called(w2);
      if got.Found? && got.value.fip.Some? && got.value.fip.value.id != UNSET {
        var ref := got.value.fip.value;
        RecordShown(w3, OnLb(lb.id, ref.id, ref.ip), given);
      } else if Up(f, w3) && FipOfLb(w3.c, lb.id).Some? {
        var x := FipOfLb(w3.c, lb.id).value;
        RecordShown(Called(w3), Listed(lb.id, x.id, ShownIp(x)), given);
      }
    }
  }

  lemma DiscoverKeeps(f: Oracle, sp: Spec, w: World, lb: LoadBalancer, given: set<Id>)
    requires Inv(w, given)
    ensures Inv(DiscoverFip(f, sp, w, lb).1, given)
  {
    hide EnsureGatewayExposed, AllocateFip;
    if Up(f, w) && FipOfLb(w.c, lb.id).Some? {
      var x := FipOfLb(w.c, lb.id).value;
      RecordShown(Called(w), Listed(lb.id, x.id, ShownIp(x)), given);
      GatewayKeeps(f, sp, Saw(RecordFip(Called(w), x.id), Listed(lb.id, x.id, ShownIp(x))), given);
    } else {
      AllocateKeeps(f, sp, Called(w), lb, given);
    }
  }

  lemma FipStepKeeps(f: Oracle, sp: Spec, w: World, lb: LoadBalancer, given: set<Id>)
    requires Inv(w, given) && lb in w.c.lbs
    ensures Inv(ReconcileFip(f, sp, w, lb).1, given)
  {
    hide EnsureGatewayExposed, DiscoverFip;
    if lb.fip.Some? && lb.fip.value.ip != "" {
      var ref := lb.fip.value;
      RecordShown(w, OnLb(lb.id, ref.id, ref.ip), given);
      GatewayKeeps(f, sp, Saw(RecordFip(w, ref.id), OnLb(lb.id, ref.id, ref.ip)), given);
    } else if w.st.fipId != UNSET {
      GatewayKeeps(f, sp, w, given);
      var w2 := Called(EnsureGatewayExposed(f, sp, w));
      assert Inv(w2, given);
      DiscoverKeeps(f, sp, RecordFip(w2, UNSET), lb, given);
    } else {
      DiscoverKeeps(f, sp, w, lb, given);
    }
  }

  // ---- Whole passes ----

  lemma PortKeeps(f: Oracle, w: World, port: Port, given: set<Id>)
    requires Inv(w, given)
    ensures Inv(ReconcilePort(f, w, port).1, given)
  {
    hide ReconcilePort;
    FramedKeeps(w, ReconcilePort(f, w, port).1, {ListenerKind, PoolKind, MonitorKind}, given);
  }

  lemma ServeKeeps(f: Oracle, sp: Spec, w: World, lb: LoadBalancer, given: set<Id>)
    requires Inv(w, given) && lb in w.c.lbs
    ensures Inv(HandleLb(f, sp, w, lb).1, given)
  {
    hide ReconcilePort, ReconcileFip;
    PortKeeps(f, w, ApiServer, given);
    var w1 := ReconcilePort(f, w, ApiServer).1;
    PortKeeps(f, w1, Register, given);
    FipStepKeeps(f, sp, ReconcilePort(f, w1, Register).1, lb, given);
  }

  lemma LbKeeps(f: Oracle, sp: Spec, w: World, given: set<Id>)
    requires Inv(w, given) && sp.existingFip in given
    ensures Inv(ReconcileLb(f, sp, w).1, given)
  {
    hide HandleLb, CreateLb;
    var w0 := w.(st := Adopt(sp, w.st));
    assert Inv(w0, given);
    var w1 := if w0.st.lbId == UNSET then w0 else Called(w0).(st := ForgetLb(w0.st));
    CreateLbRefs(f, sp, w1);
    LbStepKeeps(w1, CreateLb(f, sp, w1).1, {LbKind}, given);
    var got := Answer(f, w0, LbById(w0.c, w0.st.lbId));
    if got.Found? { ServeKeeps(f, sp, Called(w0), got.value, given); }
  }

  lemma NormalKeeps(f: Oracle, sp: Spec, w: World, given: set<Id>)
    requires Inv(w, given) && sp.existingFip in given
    ensures Inv(ReconcileNormal(f, sp, w).1, given)
  {
    hide ReconcileNetwork, ReconcileGroups, ReconcileLb, ReconcileDns;
    var w0 := Called(w);
    var w1 := ReconcileNetwork(f, sp, w0).1;
    FramedKeeps(w0, w1, {NetworkKind, SubnetKind}, given);
    var w2 := ReconcileGroups(f, sp, w1);
    FramedKeeps(w1, w2, {GroupKind}, given);
    LbKeeps(f, sp, w2, given);
    var w3 := ReconcileLb(f, sp, w2).1;
    FramedKeeps(w3, ReconcileDns(f, sp, w3), {RecordKind}, given);
  }

  lemma OtherEventKeeps(log: seq<Event>, e: Event)
    requires !e.Posted?
    ensures forall id: Id :: Placeholder(log + [e], id) <==> Placeholder(log, id)
  {
  }

  /** A step that logs one event, not a POST, and keeps only floating IPs that were there. */
  lemma FipListKeeps(w: World, w': World, e: Event, given: set<Id>)
    requires Inv(w, given) && !e.Posted?
    requires w' == w.(n := w'.n, log := w.log + [e], c := w.c.(fips := w'.c.fips))
    requires forall x :: x in w'.c.fips ==> exists y :: y in w.c.fips && y.id == x.id
    ensures Inv(w', given)
  {
    OtherEventKeeps(w.log, e);
  }

  lemma DeleteFipKeeps(f: Oracle, w: World, id: Id, given: set<Id>)
    requires Inv(w, given)
    ensures Inv(DeleteFip(f, w, id), given)
  {
    hide Inv;
    var w' := DeleteFip(f, w, id);
    FipListKeeps(w, w', w'.log[|w.log|], given);
  }

  lemma {:induction false} CleanFipsKeeps(f: Oracle, w: World, ids: seq<Id>, given: set<Id>)
    requires Inv(w, given)
    ensures Inv(CleanFips(f, w, ids).1, given)
    decreases |ids|
  {
    if ids != [] {
      hide DeleteFip;
      DeleteFipKeeps(f, w, ids[0], given);
      var w1 := DeleteFip(f, w, ids[0]);
      var read := ReadFip(ids[0], Gone(Answer(f, w1, FipById(w1.c, ids[0]))));
      var w2 := Logged(w1, read);
      FipListKeeps(w1, w2, read, given);
      CleanFipsKeeps(f, w2, ids[1..], given);
    }
  }

  lemma DeleteKeeps(f: Oracle, sp: Spec, w: World, order: seq<string>, given: set<Id>)
    requires Inv(w, given)
    ensures Inv(ReconcileDelete(f, sp, w, order).1, given)
  {
    hide CleanDns, CleanGroups, CaptureFips, DeleteRecordedLb, DeleteOrphans, CleanFips, CleanGateway, CleanNetwork;
    var w0 := CleanDns(f, sp, w);
    FramedKeeps(w, w0, {RecordKind}, given);
    var w1 := CleanGroups(f, w0, order);
    FramedKeeps(w0, w1, {GroupKind}, given);
    var (fips, w2) := CaptureFips(f, w1);
    var w3 := DeleteRecordedLb(f, w2).1;
    RecordedLbRefs(f, w2);
    LbStepKeeps(w2, w3, {PoolKind, ListenerKind, LbKind}, given);
    var w4 := DeleteOrphans(f, sp, w3);
    OrphanRefs(f, sp, w3);
    LbStepKeeps(w3, w4, {LbKind}, given);
    CleanFipsKeeps(f, w4, fips, given);
    var w5 := CleanFips(f, w4, fips).1;
    var w6 := CleanGateway(f, sp, w5);
    FramedKeeps(w5, w6, {GatewayKind}, given);
    FramedKeeps(w6, CleanNetwork(f, w6).1, {NetworkKind}, given);
  }

  lemma RecordedLbRefs(f: Oracle, w: World)
    ensures RefsFrom(w.c.lbs, DeleteRecordedLb(f, w).1.c.lbs)
  {
  }

  lemma OrphanRefs(f: Oracle, sp: Spec, w: World)
    ensures RefsFrom(w.c.lbs, DeleteOrphans(f, sp, w).c.lbs)
  {
    hide DeleteLbs;
    var (ok, w1) := ListLbs(f, w);
    assert RefsFrom(w.c.lbs, w1.c.lbs);
    DeleteLbsRefs(f, w1, LbsByPrefix(w1.c.lbs, Names.LbName(sp.name)));
  }

  // ---- Runs ----

  /** The floating IPs that the specs used so far named. */
  function Named(acts: seq<Action>): set<Id> {
    if acts == [] then {}
    else
      var a := acts[|acts| - 1];
      Named(acts[..|acts| - 1]) + if a.Normal? then {a.sp.existingFip} else {}
  }

  /** A spec names an identifier in use and no placeholder, and nobody else reuses an identifier. */
  ghost predicate Honest(w: World, acts: seq<Action>)
    decreases |acts|
  {
    acts == [] ||
      var before, a := acts[..|acts| - 1], acts[|acts| - 1];
      && Honest(w, before)
      && (a.Other? ==> a.c.next >= Run(w, before).c.next && PlaceholdersUnused(a.c, Run(w, before).log))
      && (a.Normal? ==> Real(Run(w, before), a.sp.existingFip))
  }

  lemma CommitKeeps(w: World, w': World, saved: bool, given: set<Id>)
    requires Inv(w, given) && Inv(w', given) && Grows(w, w')
    ensures Inv(Commit(w, w', saved), given)
  {
  }

  lemma OneMoreGiven(w: World, given: set<Id>, id: Id)
    requires Inv(w, given) && Real(w, id)
    ensures Inv(w, given + {id})
  {
  }

  /** In every reachable state the recorded floating IP came from a load balancer's reference, a
      listing that associates it with one, or a spec used so far, and is never the placeholder of a POST. */
  lemma {:induction false} FipProvenance(w: World, acts: seq<Action>, given: set<Id>)
    requires Inv(w, given) && Honest(w, acts)
    ensures var w' := Run(w, acts);
            Inv(w', given + Named(acts)) && w.c.next <= w'.c.next
            && FipFromCloud(w'.st, w'.seen, given + Named(acts)) && !Placeholder(w'.log, w'.st.fipId)
    decreases |acts|
  {
    hide ReconcileNormal, ReconcileDelete;
    if acts == [] {
      assert given + Named(acts) == given;
    } else {
      var before, a := acts[..|acts| - 1], acts[|acts| - 1];
      FipProvenance(w, before, given);
      var mid, all := Run(w, before), given + Named(acts);
      match a
      case Normal(sp, f, saved) =>
        OneMoreGiven(mid, given + Named(before), sp.existingFip);
        assert all == given + Named(before) + {sp.existingFip};
        NormalKeeps(f, sp, mid, all);
        CommitKeeps(mid, ReconcileNormal(f, sp, mid).1, saved, all);
      case Delete(sp, f, order, saved) =>
        assert all == given + Named(before);
        DeleteKeeps(f, sp, mid, order, all);
        CommitKeeps(mid, ReconcileDelete(f, sp, mid, order).1, saved, all);
      case Other(c) =>
        assert all == given + Named(before);
    }
  }

  // ---- Whose floating IP it is ----

  /** The load balancer refers to this floating IP, or the listing associates it with the load balancer. */
  ghost predicate OfLb(c: Cloud, lb: Id, fip: Id) {
    || (exists x :: x in c.lbs && x.id == lb && x.fip.Some? && x.fip.value.id == fip)
    || (exists x :: x in c.fips && x.id == fip && x.entity == Some(lb))
  }

  /** The cloud is as the sighting says. */
  ghost predicate True(c: Cloud, s: Sight) {
    match s
    case OnLb(lb, fip, ip) => exists x :: x in c.lbs && x.id == lb && x.fip == Some(FipRef(fip, ip))
    case Listed(lb, fip, ip) => exists x :: x in c.fips && x.id == fip && x.entity == Some(lb) && ShownIp(x) == ip
    case Fetched(fip, ip) => exists x :: x in c.fips && x.id == fip && ShownIp(x) == ip
  }

  /** New sightings are true of the cloud they were made in, which the rest of the step leaves as it
      was, and are of load balancer `lb`. */
  ghost predicate NewSightsTrue(w: World, w': World, lb: Id) {
    forall s :: s in w'.seen && s !in w.seen ==> True(w'.c, s) && (s.Fetched? || s.lb == lb)
  }

  /** The record is unset, as it was, or of load balancer `lb`. */
  ghost predicate RecordOf(w: World, w': World, lb: Id) {
    w'.st.fipId == UNSET || w'.st.fipId == w.st.fipId || OfLb(w'.c, lb, w'.st.fipId)
  }

  lemma LbByIdIn(c: Cloud, id: Id)
    ensures forall x :: LbById(c, id) == Some(x) ==> x in c.lbs && x.id == id
  {
  }

  lemma FipOfLbIn(c: Cloud, lb: Id)
    ensures forall x :: FipOfLb(c, lb) == Some(x) ==> x in c.fips && x.entity == Some(lb)
  {
  }

  lemma AllocateTrue(f: Oracle, sp: Spec, w: World, lb: LoadBalancer)
    ensures var w' := AllocateFip(f, sp, w, lb).1; NewSightsTrue(w, w', lb.id) && RecordOf(w, w', lb.id)
  {
    hide PostLbFip, EnsureGatewayExposed, LbById, FipOfLb;
    var w1 := PostLbFip(f, w, lb, GatewayName(sp)).1;
    PostFipSeen(f, sp, w, lb);
    var w2 := EnsureGatewayExposed(f, sp, w1);
    LbByIdIn(w2.c, lb.id);
    FipOfLbIn(Called(w2).c, lb.id);
  }

  lemma PostFipSeen(f: Oracle, sp: Spec, w: World, lb: LoadBalancer)
    ensures var w1 := PostLbFip(f, w, lb, GatewayName(sp)).1; w1.seen == w.seen && w1.st == w.st
  {
  }

  lemma DiscoverTrue(f: Oracle, sp: Spec, w: World, lb: LoadBalancer)
    ensures var w' := DiscoverFip(f, sp, w, lb).1; NewSightsTrue(w, w', lb.id) && RecordOf(w, w', lb.id)
  {
    hide EnsureGatewayExposed, AllocateFip, FipOfLb;
    FipOfLbIn(w.c, lb.id);
    AllocateTrue(f, sp, Called(w), lb);
  }

  lemma FipStepTrue(f: Oracle, sp: Spec, w: World, lb: LoadBalancer)
    requires lb in w.c.lbs
    ensures var w' := ReconcileFip(f, sp, w, lb).1; NewSightsTrue(w, w', lb.id) && RecordOf(w, w', lb.id)
  {
    hide EnsureGatewayExposed, DiscoverFip;
    DiscoverTrue(f, sp, w, lb);
    if !(lb.fip.Some? && lb.fip.value.ip != "") && w.st.fipId != UNSET {
      var w1 := EnsureGatewayExposed(f, sp, w);
      DiscoverTrue(f, sp, RecordFip(Called(w1), UNSET), lb);
    }
  }

  lemma HandleTrue(f: Oracle, sp: Spec, w: World, lb: LoadBalancer)
    requires lb in w.c.lbs
    ensures var w' := HandleLb(f, sp, w, lb).1; NewSightsTrue(w, w', lb.id) && RecordOf(w, w', lb.id)
  {
    hide ReconcilePort, ReconcileFip, True, OfLb;
    var w2 := ReconcilePort(f, ReconcilePort(f, w, ApiServer).1, Register).1;
    FipStepTrue(f, sp, w2, lb);
  }

  lemma LbStepTrue(f: Oracle, sp: Spec, w: World)
    ensures var w' := ReconcileLb(f, sp, w).1;
            && NewSightsTrue(w, w', w'.st.lbId)
            && (w'.st.fipId == sp.existingFip || RecordOf(w, w', w'.st.lbId))
  {
    hide HandleLb, CreateLb, LbById, True, OfLb;
    var w0 := w.(st := Adopt(sp, w.st));
    LbByIdIn(w0.c, w0.st.lbId);
    var got := Answer(f, w0, LbById(w0.c, w0.st.lbId));
    if w0.st.lbId != UNSET && got.Found? { HandleTrue(f, sp, Called(w0), got.value); }
  }

  /** In every pass each new sighting is true of the cloud and of the recorded load balancer, and a floating
      IP that was not on record before is the spec's or of the recorded load balancer. */
  lemma PassSightsTrue(f: Oracle, sp: Spec, w: World)
    ensures var w' := ReconcileNormal(f, sp, w).1;
            && NewSightsTrue(w, w', w'.st.lbId)
            && (w'.st.fipId == sp.existingFip || RecordOf(w, w', w'.st.lbId))
  {
    hide ReconcileNetwork, ReconcileGroups, ReconcileLb, ReconcileDns;
    var w2 := ReconcileGroups(f, sp, ReconcileNetwork(f, sp, Called(w)).1);
    LbStepTrue(f, sp, w2);
    var w3 := ReconcileLb(f, sp, w2).1;
    SameTruth(w3.c, ReconcileDns(f, sp, w3).c, w3.st.lbId);
  }

  lemma SameTruth(c: Cloud, c': Cloud, lb: Id)
    requires c'.lbs == c.lbs && c'.fips == c.fips
    ensures forall s :: True(c', s) <==> True(c, s)
    ensures forall fip :: OfLb(c', lb, fip) <==> OfLb(c, lb, fip)
  {
  }

  /** Step `k` is a saved pass that left this floating IP on record because the spec names it, or with the
      cloud showing it as the recorded load balancer's own. */
  ghost predicate Origin(ws: nat -> World, acts: nat -> Action, k: nat, fip: Id) {
    acts(k).Normal? && acts(k).saved && (fip == acts(k).sp.existingFip || OfLb(ws(k + 1).c, ws(k + 1).st.lbId, fip))
  }

  /** In every run the recorded floating IP was there from the start, or came from the spec, or was shown
      by the cluster's own load balancer or listed as associated with it when it was recorded. */
  lemma {:induction false} FipFromOwnLb(ws: nat -> World, acts: nat -> Action, n: nat)
    requires forall k: nat :: Steps(ws, acts, k)
    ensures var fip := ws(n).st.fipId;
            fip == UNSET || fip == ws(0).st.fipId || exists k: nat :: k < n && Origin(ws, acts, k, fip)
  {
    hide ReconcileNormal, ReconcileDelete, OfLb, NewSightsTrue;
    if n > 0 {
      FipFromOwnLb(ws, acts, n - 1);
      var w, a := ws(n - 1), acts(n - 1);
      assert Steps(ws, acts, n - 1) && n - 1 + 1 == n;
      match a
      case Normal(sp, f, saved) =>
        PassSightsTrue(f, sp, w);
        if ws(n).st.fipId != w.st.fipId && ws(n).st.fipId != UNSET { assert Origin(ws, acts, n - 1, ws(n).st.fipId); }
      case Delete(sp, f, order, saved) =>
      case Other(c) =>
    }
  }

  // ---- The endpoint ----

  /** A ready floating IP has an address, and the API has shown it. */
  lemma FipAddressSeen(f: Oracle, sp: Spec, w: World, lb: LoadBalancer)
    ensures var (fip, w') := ReconcileFip(f, sp, w, lb);
            fip.Ip? ==> fip.ip != "" && ShownAddress(w'.seen, fip.ip)
  {
    hide EnsureGatewayExposed, DiscoverFip;
    if lb.fip.Some? && lb.fip.value.ip != "" {
      var ref := lb.fip.value;
      assert OnLb(lb.id, ref.id, ref.ip) in ReconcileFip(f, sp, w, lb).1.seen;
    } else if w.st.fipId != UNSET {
      var w1 := EnsureGatewayExposed(f, sp, w);
      var got, w2 := Answer(f, w1, FipById(w1.c, w1.st.fipId)), Called(w1);
      if got.Found? && ShownIp(got.value) != "" {
        assert Fetched(w2.st.fipId, ShownIp(got.value)) in ReconcileFip(f, sp, w, lb).1.seen;
      }
      DiscoverAddressSeen(f, sp, RecordFip(w2, UNSET), lb);
    } else {
      DiscoverAddressSeen(f, sp, w, lb);
    }
  }

  lemma DiscoverAddressSeen(f: Oracle, sp: Spec, w: World, lb: LoadBalancer)
    ensures var (fip, w') := DiscoverFip(f, sp, w, lb);
            fip.Ip? ==> fip.ip != "" && ShownAddress(w'.seen, fip.ip)
  {
    hide EnsureGatewayExposed, AllocateFip;
    if Up(f, w) && FipOfLb(w.c, lb.id).Some? {
      var x := FipOfLb(w.c, lb.id).value;
      if ShownIp(x) != "" {
        assert Listed(lb.id, x.id, ShownIp(x)) in DiscoverFip(f, sp, w, lb).1.seen;
      }
    } else {
      AllocateAddressSeen(f, sp, Called(w), lb);
    }
  }

  lemma AllocateAddressSeen(f: Oracle, sp: Spec, w: World, lb: LoadBalancer)
    ensures var (fip, w') := AllocateFip(f, sp, w, lb);
            fip.Ip? ==> fip.ip != "" && ShownAddress(w'.seen, fip.ip)
  {
    hide PostLbFip, EnsureGatewayExposed;
    var (fip, w') := AllocateFip(f, sp, w, lb);
    if fip.Ip? {
      var (id, w1) := PostLbFip(f, w, lb, GatewayName(sp));
      var w2 := EnsureGatewayExposed(f, sp, w1);
      var got, w3 := Answer(f, w2, LbById(w2.c, lb.id)), Called(w2);
      if got.Found? && got.value.fip.Some? && got.value.fip.value.id != UNSET {
        assert OnLb(lb.id, got.value.fip.value.id, fip.ip) in w'.seen;
      } else {
        assert Listed(lb.id, FipOfLb(w3.c, lb.id).value.id, fip.ip) in w'.seen;
      }
    }
  }

  /** The endpoint is kept if it was set; otherwise it is still unset or a floating IP's address. */
  ghost predicate EndpointRule(sp: Spec, w: World, w': World) {
    && (w.st.endpoint != "" ==> w'.st.endpoint == w.st.endpoint)
    && (w.st.endpoint == "" && w'.st.endpoint != "" && sp.floating ==> ShownAddress(w'.seen, w'.st.endpoint))
  }

  lemma ServeRule(f: Oracle, sp: Spec, w: World, lb: LoadBalancer)
    ensures EndpointRule(sp, w, HandleLb(f, sp, w, lb).1)
  {
    hide ReconcilePort, ReconcileFip;
    FipAddressSeen(f, sp, ReconcilePort(f, ReconcilePort(f, w, ApiServer).1, Register).1, lb);
  }

  lemma EndpointPass(f: Oracle, sp: Spec, w: World)
    ensures EndpointRule(sp, w, ReconcileNormal(f, sp, w).1)
  {
    hide ReconcileNetwork, ReconcileGroups, ReconcileDns, ReconcileLb;
    LbRule(f, sp, ReconcileGroups(f, sp, ReconcileNetwork(f, sp, Called(w)).1));
  }

  lemma LbRule(f: Oracle, sp: Spec, w: World)
    ensures EndpointRule(sp, w, ReconcileLb(f, sp, w).1)
  {
    hide HandleLb, CreateLb;
    var w0 := w.(st := Adopt(sp, w.st));
    var got := Answer(f, w0, LbById(w0.c, w0.st.lbId));
    if got.Found? { ServeRule(f, sp, Called(w0), got.value); }
  }

  /** A pass that ends Ready leaves an endpoint exactly when there was one, a floating network is set, or the
      load balancer has a VIP: without either, Ready comes with no endpoint. */
  lemma ReadyEndpointIff(f: Oracle, sp: Spec, w: World)
    requires ReconcileNormal(f, sp, w).0.Done?
    ensures var lb := LbById(w.c, Adopt(sp, w.st).lbId);
            lb.Some? && (ReconcileNormal(f, sp, w).1.st.endpoint != ""
                         <==> w.st.endpoint != "" || sp.floating || lb.value.vip != "")
  {
    hide ReconcileNetwork, ReconcileGroups, ReconcileDns, ReconcileLb, LbById;
    var w2 := ReconcileGroups(f, sp, ReconcileNetwork(f, sp, Called(w)).1);
    LbEndpointIff(f, sp, w2);
    SameLbById(w.c, w2.c, Adopt(sp, w.st).lbId);
  }

  lemma SameLbById(c: Cloud, c': Cloud, id: Id)
    requires c'.lbs == c.lbs
    ensures LbById(c', id) == LbById(c, id)
  {
  }

  lemma LbEndpointIff(f: Oracle, sp: Spec, w: World)
    requires ReconcileLb(f, sp, w).0.Done?
    ensures var lb := LbById(w.c, Adopt(sp, w.st).lbId);
            lb.Some? && (ReconcileLb(f, sp, w).1.st.endpoint != ""
                         <==> w.st.endpoint != "" || sp.floating || lb.value.vip != "")
  {
    hide HandleLb, CreateLb, LbById;
    var w0 := w.(st := Adopt(sp, w.st));
    var got := Answer(f, w0, LbById(w0.c, w0.st.lbId));
    SameLbById(w.c, w0.c, w0.st.lbId);
    HandleEndpointIff(f, sp, Called(w0), got.value);
  }

  lemma HandleEndpointIff(f: Oracle, sp: Spec, w: World, lb: LoadBalancer)
    requires HandleLb(f, sp, w, lb).0.Done?
    ensures HandleLb(f, sp, w, lb).1.st.endpoint != "" <==> w.st.endpoint != "" || sp.floating || lb.vip != ""
  {
    hide ReconcilePort, ReconcileFip;
    FipAddressSeen(f, sp, ReconcilePort(f, ReconcilePort(f, w, ApiServer).1, Register).1, lb);
  }

  ghost predicate EndpointPublic(w: World) { w.st.endpoint == "" || ShownAddress(w.seen, w.st.endpoint) }

  lemma EndpointStep(w: World, a: Action)
    ensures w.st.endpoint != "" ==> Act(w, a).st.endpoint == w.st.endpoint
    ensures EndpointPublic(w) && (a.Other? || a.sp.floating) ==> EndpointPublic(Act(w, a))
  {
    hide ReconcileNormal, ReconcileDelete;
    match a
    case Normal(sp, f, saved) => EndpointPass(f, sp, w);
    case Delete(sp, f, order, saved) =>
    case Other(c) =>
  }

  /** The saved endpoint is written at most once: whatever it is after some steps of a run, it
      still is at the end. */
  lemma {:induction false} EndpointWrittenOnce(w: World, acts: seq<Action>, i: nat)
    requires i <= |acts| && Run(w, acts[..i]).st.endpoint != ""
    ensures Run(w, acts).st.endpoint == Run(w, acts[..i]).st.endpoint
    decreases |acts|
  {
    if i < |acts| {
      var before := acts[..|acts| - 1];
      assert before[..i] == acts[..i];
      EndpointWrittenOnce(w, before, i);
      EndpointStep(Run(w, before), acts[|acts| - 1]);
    } else {
      assert acts[..i] == acts;
    }
  }

  /** With a floating network set throughout, the endpoint is always a floating IP's address. */
  lemma {:induction false} EndpointIsFloating(w: World, acts: seq<Action>)
    requires EndpointPublic(w) && forall a :: a in acts && !a.Other? ==> a.sp.floating
    ensures EndpointPublic(Run(w, acts))
    decreases |acts|
  {
    if acts != [] {
      EndpointIsFloating(w, acts[..|acts| - 1]);
      EndpointStep(Run(w, acts[..|acts| - 1]), acts[|acts| - 1]);
    }
  }

  // ---- Whose address the endpoint is ----

  /** The load balancer shows this floating IP with this address, or the floating IP itself does. */
  ghost predicate AddressOf(c: Cloud, lb: Id, fip: Id, ip: string) { True(c, OnLb(lb, fip, ip)) || True(c, Fetched(fip, ip)) }

  lemma AllocateAddress(f: Oracle, sp: Spec, w: World, lb: LoadBalancer)
    ensures var (fip, w') := AllocateFip(f, sp, w, lb); fip.Ip? ==> AddressOf(w'.c, lb.id, w'.st.fipId, fip.ip)
  {
    hide PostLbFip, EnsureGatewayExposed, LbById, FipOfLb;
    var w2 := EnsureGatewayExposed(f, sp, PostLbFip(f, w, lb, GatewayName(sp)).1);
    LbByIdIn(w2.c, lb.id);
    FipOfLbIn(Called(w2).c, lb.id);
  }

  lemma DiscoverAddress(f: Oracle, sp: Spec, w: World, lb: LoadBalancer)
    ensures var (fip, w') := DiscoverFip(f, sp, w, lb); fip.Ip? ==> AddressOf(w'.c, lb.id, w'.st.fipId, fip.ip)
  {
    hide EnsureGatewayExposed, AllocateFip, FipOfLb;
    FipOfLbIn(w.c, lb.id);
    AllocateAddress(f, sp, Called(w), lb);
  }

  lemma FipStepAddress(f: Oracle, sp: Spec, w: World, lb: LoadBalancer)
    requires lb in w.c.lbs
    ensures var (fip, w') := ReconcileFip(f, sp, w, lb); fip.Ip? ==> AddressOf(w'.c, lb.id, w'.st.fipId, fip.ip)
  {
    hide EnsureGatewayExposed, DiscoverFip;
    DiscoverAddress(f, sp, w, lb);
    if !(lb.fip.Some? && lb.fip.value.ip != "") && w.st.fipId != UNSET {
      var w1 := EnsureGatewayExposed(f, sp, w);
      DiscoverAddress(f, sp, RecordFip(Called(w1), UNSET), lb);
    }
  }

  /** The endpoint is the address of the recorded floating IP or, without a floating network, the
      recorded load balancer's private VIP. */
  ghost predicate EndpointOf(sp: Spec, c: Cloud, st: Status) {
    if sp.floating then AddressOf(c, st.lbId, st.fipId, st.endpoint)
    else exists x :: x in c.lbs && x.id == st.lbId && x.vip == st.endpoint
  }

  /** If the step wrote the endpoint, that is what it wrote. */
  ghost predicate WritesOwn(sp: Spec, w: World, w': World) { w'.st.endpoint == w.st.endpoint || EndpointOf(sp, w'.c, w'.st) }

  lemma HandleWrites(f: Oracle, sp: Spec, w: World, lb: LoadBalancer)
    requires lb in w.c.lbs && lb.id == w.st.lbId
    ensures WritesOwn(sp, w, HandleLb(f, sp, w, lb).1)
  {
    hide ReconcilePort, ReconcileFip, AddressOf;
    FipStepAddress(f, sp, ReconcilePort(f, ReconcilePort(f, w, ApiServer).1, Register).1, lb);
  }

  lemma LbStepWrites(f: Oracle, sp: Spec, w: World)
    ensures WritesOwn(sp, w, ReconcileLb(f, sp, w).1)
  {
    hide HandleLb, CreateLb, LbById, EndpointOf;
    var w0 := w.(st := Adopt(sp, w.st));
    LbByIdIn(w0.c, w0.st.lbId);
    var got := Answer(f, w0, LbById(w0.c, w0.st.lbId));
    if w0.st.lbId != UNSET && got.Found? { HandleWrites(f, sp, Called(w0), got.value); }
  }

  lemma PassWrites(f: Oracle, sp: Spec, w: World)
    ensures WritesOwn(sp, w, ReconcileNormal(f, sp, w).1)
  {
    hide ReconcileNetwork, ReconcileGroups, ReconcileLb, ReconcileDns, EndpointOf;
    var w2 := ReconcileGroups(f, sp, ReconcileNetwork(f, sp, Called(w)).1);
    LbStepWrites(f, sp, w2);
    var w3 := ReconcileLb(f, sp, w2).1;
    SameEndpointOf(sp, w3, ReconcileDns(f, sp, w3));
    SameEndpointOf(sp, w3, ReconcileNormal(f, sp, w).1);
  }

  lemma SameEndpointOf(sp: Spec, w: World, w': World)
    ensures w'.c == w.c.(next := w'.c.next, records := w'.c.records)
            && w'.st == w.st.(ready := w'.st.ready, recordId := w'.st.recordId)
            ==> (EndpointOf(sp, w'.c, w'.st) <==> EndpointOf(sp, w.c, w.st))
  {
  }

  /** Step `k` is a saved pass that wrote this endpoint, taken from the cluster's own load balancer or
      floating IP as the cloud then had them. */
  ghost predicate Writes(ws: nat -> World, acts: nat -> Action, k: nat, endpoint: string) {
    && acts(k).Normal? && acts(k).saved && ws(k).st.endpoint == ""
    && ws(k + 1).st.endpoint == endpoint && EndpointOf(acts(k).sp, ws(k + 1).c, ws(k + 1).st)
  }

  /** In every run the endpoint is unset, was there from the start, or was written by one saved pass: as
      the recorded floating IP's address with a floating network, otherwise as the recorded load
      balancer's VIP. */
  lemma {:induction false} EndpointFromOwn(ws: nat -> World, acts: nat -> Action, n: nat)
    requires forall k: nat :: Steps(ws, acts, k)
    ensures var endpoint := ws(n).st.endpoint;
            endpoint == "" || endpoint == ws(0).st.endpoint || exists k: nat :: k < n && Writes(ws, acts, k, endpoint)
  {
    hide ReconcileNormal, ReconcileDelete, EndpointOf;
    if n > 0 {
      EndpointFromOwn(ws, acts, n - 1);
      var w, a := ws(n - 1), acts(n - 1);
      assert Steps(ws, acts, n - 1) && n - 1 + 1 == n;
      EndpointStep(w, a);
      match a
      case Normal(sp, f, saved) =>
        PassWrites(f, sp, w);
        if ws(n).st.endpoint != w.st.endpoint { assert Writes(ws, acts, n - 1, ws(n).st.endpoint); }
      case Delete(sp, f, order, saved) =>
      case Other(c) =>
    }
  }
}
