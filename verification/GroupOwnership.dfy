/** Whose security groups a delete pass removes. Group names join the cluster's name and the group's
    with a hyphen, so two clusters can mean the same group. */
module GroupOwnership {
  import opened Collections
  import opened OvhCloud
  import opened ClusterSteps
  import opened ClusterDelete
  import opened Uniqueness
  import Wiring
  import Ownership

  // ---- When two clusters mean the same group ----

  /** The longer cluster name continues the shorter one, and the group names make up for it. */
  ghost predicate Collide(c1: string, g1: string, c2: string, g2: string) {
    exists t: string :: c2 == c1 + "-" + t && g1 == t + "-" + g2
  }

  lemma JoinedEqual(c1: string, g1: string, c2: string, g2: string)
    requires c1 + "-" + g1 == c2 + "-" + g2 && |c1| < |c2|
    ensures Collide(c1, g1, c2, g2)
  {
    var s := c1 + "-" + g1;
    var t := c2[|c1| + 1..];
    assert s[..|c1|] == c1 && s[|c1|] == '-' && s[..|c2|] == c2;
    assert c2 == c2[..|c1|] + [c2[|c1|]] + t && c2[|c1|] == s[|c1|] && c2[..|c1|] == c1;
    assert g1 == s[|c1| + 1..] && s[|c1| + 1..] == t + "-" + g2;
  }

  lemma CollidingJoin(c1: string, g1: string, c2: string, g2: string)
    requires Collide(c1, g1, c2, g2)
    ensures c1 + "-" + g1 == c2 + "-" + g2
  {
    var t: string :| c2 == c1 + "-" + t && g1 == t + "-" + g2;
    assert c1 + "-" + (t + "-" + g2) == c1 + "-" + t + "-" + g2;
  }

  /** Two clusters' groups have one name exactly when clusters and groups are the same or the names
      collide, one way or the other. */
  lemma SameGroupNameIff(sp: Spec, g: string, sp2: Spec, g2: string)
    ensures GroupName(sp, g) == GroupName(sp2, g2)
            <==> (sp.name == sp2.name && g == g2) || Collide(sp.name, g, sp2.name, g2) || Collide(sp2.name, g2, sp.name, g)
  {
    var c1, c2 := sp.name, sp2.name;
    assert GroupName(sp, g) == "capi-" + (c1 + "-" + g) && GroupName(sp2, g2) == "capi-" + (c2 + "-" + g2);
    if GroupName(sp, g) == GroupName(sp2, g2) {
      assert c1 + "-" + g == GroupName(sp, g)[5..] && c2 + "-" + g2 == GroupName(sp2, g2)[5..];
      if |c1| < |c2| {
        JoinedEqual(c1, g, c2, g2);
      } else if |c2| < |c1| {
        JoinedEqual(c2, g2, c1, g);
      } else {
        assert c1 == (c1 + "-" + g)[..|c1|] && g == (c1 + "-" + g)[|c1| + 1..];
        assert c2 == (c2 + "-" + g2)[..|c2|] && g2 == (c2 + "-" + g2)[|c2| + 1..];
      }
    }
    if Collide(c1, g, c2, g2) { CollidingJoin(c1, g, c2, g2); }
    if Collide(c2, g2, c1, g) { CollidingJoin(c2, g2, c1, g); }
  }

  // ---- Runs of several clusters ----

  /** A group identifier is handed out once. */
  ghost predicate GroupsSound(c: Cloud) {
    && (forall x :: x in c.groups ==> x.id < c.next)
    && (forall x, y :: x in c.groups && y in c.groups && x.id == y.id ==> x.name == y.name)
  }

  /** Groups keep identifier and name, go, or come with a new identifier. */
  ghost predicate GroupsHeld(c: Cloud, c': Cloud) {
    c.next <= c'.next && forall y :: y in c'.groups ==> y.id >= c.next || y in c.groups
  }

  /** What every object has on record has the name it is recorded for. */
  ghost predicate AllRecorded(own: nat -> Spec, fl: Fleet) {
    GroupsSound(fl.c) && forall key :: key in fl.objects ==> Wiring.GroupsRecorded(own(key), fl.c, fl.objects[key])
  }

  /** Clusters keep their names; what others do gives no old identifier to a new group. */
  ghost predicate Lawful(own: nat -> Spec, fl: Fleet, a: Action) {
    if a.Other? then GroupsSound(a.c) && GroupsHeld(fl.c, a.c) else a.sp.name == own(a.key).name
  }

  ghost predicate LawfulRun(own: nat -> Spec, fl: Fleet, acts: seq<Action>)
    decreases |acts|
  {
    acts == [] ||
      var before, a := acts[..|acts| - 1], acts[|acts| - 1];
      LawfulRun(own, fl, before) && Lawful(own, Run(fl, before), a)
  }

  ghost predicate StepOk(sp: Spec, w: World, w': World) {
    GroupsSound(w'.c) && GroupsHeld(w.c, w'.c) && Wiring.GroupsRecorded(sp, w'.c, w'.st)
  }

  lemma RecordedHeld(sp: Spec, c: Cloud, c': Cloud, st: Status)
    requires GroupsHeld(c, c') && Wiring.GroupsRecorded(sp, c, st)
    ensures Wiring.GroupsRecorded(sp, c', st)
  {
  }

  lemma Then(sp: Spec, w: World, w1: World, w2: World)
    requires StepOk(sp, w, w1) && StepOk(sp, w1, w2)
    ensures StepOk(sp, w, w2)
  {
  }

  /** A step that leaves groups and their record alone. */
  lemma Elsewhere(sp: Spec, w: World, w': World)
    requires GroupsSound(w.c) && Wiring.GroupsRecorded(sp, w.c, w.st) && w.c.next <= w'.c.next
    requires w'.c.groups == w.c.groups && w'.st.groupIds == w.st.groupIds
    ensures StepOk(sp, w, w')
  {
  }

  /** A group of the right name is put on record. */
  lemma OneRecorded(sp: Spec, w: World, g: string, id: Id)
    requires GroupsSound(w.c) && Wiring.GroupsRecorded(sp, w.c, w.st) && Wiring.GroupNamed(w.c, id, GroupName(sp, g))
    ensures StepOk(sp, w, w.(st := w.st.(groupIds := w.st.groupIds[g := id])))
  {
    hide GroupName;
  }

  lemma {:induction false} LastNamedListed(s: seq<Group>, name: string)
    ensures LastNamed(s, name).Some? ==> exists x :: x in s && x.name == name && x.id == LastNamed(s, name).value
  {
    if s != [] { LastNamedListed(s[..|s| - 1], name); }
  }

  lemma PostedGroup(f: Oracle, sp: Spec, w: World, g: string)
    requires GroupsSound(w.c) && Wiring.GroupsRecorded(sp, w.c, w.st)
    ensures var (id, w1) := PostGroup(f, w, GroupName(sp, g));
            StepOk(sp, w, w1) && (id != UNSET ==> Wiring.GroupNamed(w1.c, id, GroupName(sp, g)))
  {
    hide GroupName;
  }

  /** Everything listed still has its name. */
  ghost predicate ListedNamed(c: Cloud, listed: seq<Group>) { forall x :: x in listed ==> Wiring.GroupNamed(c, x.id, x.name) }

  lemma {:induction false} EnsureGroupsNamed(f: Oracle, sp: Spec, w: World, listed: seq<Group>, todo: seq<string>)
    requires GroupsSound(w.c) && Wiring.GroupsRecorded(sp, w.c, w.st) && ListedNamed(w.c, listed)
    ensures StepOk(sp, w, EnsureGroups(f, sp, w, listed, todo))
    decreases |todo|
  {
    hide GroupName, GroupsSound, GroupsHeld, Wiring.GroupsRecorded, Wiring.GroupNamed, LastNamed, PostGroup;
    Elsewhere(sp, w, w);
    if todo != [] {
      var g := todo[0];
      if g in w.st.groupIds && w.st.groupIds[g] != UNSET {
        EnsureGroupsNamed(f, sp, w, listed, todo[1..]);
      } else {
        LastNamedListed(listed, GroupName(sp, g));
        match LastNamed(listed, GroupName(sp, g))
        case Some(id) =>
          OneRecorded(sp, w, g, id);
          var w1 := w.(st := w.st.(groupIds := w.st.groupIds[g := id]));
          EnsureGroupsNamed(f, sp, w1, listed, todo[1..]);
          Then(sp, w, w1, EnsureGroups(f, sp, w1, listed, todo[1..]));
        case None =>
          PostedGroup(f, sp, w, g);
          var (id, w1) := PostGroup(f, w, GroupName(sp, g));
          if id != UNSET {
            OneRecorded(sp, w1, g, id);
            var w2 := w1.(st := w1.st.(groupIds := w1.st.groupIds[g := id]));
            Then(sp, w, w1, w2);
            ListedHeld(w.c, w2.c, listed);
            EnsureGroupsNamed(f, sp, w2, listed, todo[1..]);
            Then(sp, w, w2, EnsureGroups(f, sp, w2, listed, todo[1..]));
          }
      }
    }
  }

  lemma ListedHeld(c: Cloud, c': Cloud, listed: seq<Group>)
    requires GroupsHeld(c, c') && ListedNamed(c, listed)
    ensures ListedNamed(c', listed)
  {
  }

  lemma GroupStepNamed(f: Oracle, sp: Spec, w: World)
    requires GroupsSound(w.c) && Wiring.GroupsRecorded(sp, w.c, w.st)
    ensures StepOk(sp, w, ReconcileGroups(f, sp, w))
  {
    hide EnsureGroups, GroupName;
    Elsewhere(sp, w, w);
    Elsewhere(sp, w, Called(w));
    assert ListedNamed(Called(w).c, w.c.groups);
    EnsureGroupsNamed(f, sp, Called(w), w.c.groups, sp.groups);
  }

  lemma NormalNamed(f: Oracle, sp: Spec, w: World)
    requires GroupsSound(w.c) && Wiring.GroupsRecorded(sp, w.c, w.st)
    ensures StepOk(sp, w, ReconcileNormal(f, sp, w).1)
  {
    hide ReconcileNetwork, ReconcileGroups, ReconcileLb, ReconcileDns, GroupsSound, GroupsHeld, Wiring.GroupsRecorded;
    Elsewhere(sp, w, w.(st := w.st.(finalizer := true)));
    Elsewhere(sp, w, Called(w));
    if w.st.finalizer && Up(f, w) {
      var w1 := ReconcileNetwork(f, sp, Called(w)).1;
      Elsewhere(sp, w, w1);
      GroupStepNamed(f, sp, w1);
      var w2 := ReconcileGroups(f, sp, w1);
      Then(sp, w, w1, w2);
      var w3 := ReconcileLb(f, sp, w2).1;
      LbKeepsGroups(f, sp, w2);
      Elsewhere(sp, w2, w3);
      Then(sp, w, w2, w3);
      var w4 := ReconcileDns(f, sp, w3);
      var w5 := w4.(st := w4.st.(ready := true));
      Elsewhere(sp, w3, w5);
      Then(sp, w, w3, w5);
    }
  }

  /** A delete pass only removes groups and records of groups. */
  lemma DeleteNamed(f: Oracle, sp: Spec, w: World, order: seq<string>)
    requires GroupsSound(w.c) && Wiring.GroupsRecorded(sp, w.c, w.st)
    ensures StepOk(sp, w, ReconcileDelete(f, sp, w, order).1)
  {
    hide ReconcileDelete, GroupName;
    Wiring.DeleteThins(f, sp, w, order);
  }

  lemma ActRecorded(own: nat -> Spec, fl: Fleet, a: Action)
    requires AllRecorded(own, fl) && Lawful(own, fl, a)
    ensures AllRecorded(own, Act(fl, a))
  {
    hide ReconcileNormal, ReconcileDelete, GroupsSound, Wiring.GroupsRecorded, GroupsHeld;
    var fl' := Act(fl, a);
    if !a.Other? && a.key in fl.objects {
      var w := Before(fl, a.key);
      SameNameRecorded(own(a.key), a.sp);
      if a.Normal? { NormalNamed(a.f, a.sp, w); } else { DeleteNamed(a.f, a.sp, w, a.order); }
    }
    assert GroupsHeld(fl.c, fl'.c) by { SameHeld(fl.c); }
    forall key | key in fl'.objects ensures Wiring.GroupsRecorded(own(key), fl'.c, fl'.objects[key]) {
      if key in fl.objects { RecordedHeld(own(key), fl.c, fl'.c, fl.objects[key]); }
    }
  }

  lemma SameNameRecorded(sp: Spec, sp2: Spec)
    requires sp.name == sp2.name
    ensures forall c, st :: Wiring.GroupsRecorded(sp, c, st) <==> Wiring.GroupsRecorded(sp2, c, st)
  {
  }

  lemma SameHeld(c: Cloud)
    ensures GroupsHeld(c, c)
  {
  }

  lemma {:induction false} FleetRecorded(own: nat -> Spec, fl: Fleet, acts: seq<Action>)
    requires AllRecorded(own, fl) && LawfulRun(own, fl, acts)
    ensures AllRecorded(own, Run(fl, acts))
    decreases |acts|
  {
    hide Act, AllRecorded, Lawful;
    if acts != [] {
      FleetRecorded(own, fl, acts[..|acts| - 1]);
      ActRecorded(own, Run(fl, acts[..|acts| - 1]), acts[|acts| - 1]);
    }
  }

  // ---- What is removed ----

  ghost predicate HasOnRecord(st: Status, id: Id) { exists g :: g in st.groupIds && st.groupIds[g] == id }

  lemma {:induction false} EnsureGroupsKeeps(f: Oracle, sp: Spec, w: World, listed: seq<Group>, todo: seq<string>)
    ensures forall x :: x in w.c.groups ==> x in EnsureGroups(f, sp, w, listed, todo).c.groups
    decreases |todo|
  {
    if todo != [] {
      var g := todo[0];
      var w1 := PostGroup(f, w, GroupName(sp, g)).1;
      EnsureGroupsKeeps(f, sp, w, listed, todo[1..]);
      match LastNamed(listed, GroupName(sp, g))
      case Some(id) => EnsureGroupsKeeps(f, sp, w.(st := w.st.(groupIds := w.st.groupIds[g := id])), listed, todo[1..]);
      case None => EnsureGroupsKeeps(f, sp, w1.(st := w1.st.(groupIds := w1.st.groupIds[g := w.c.next])), listed, todo[1..]);
    }
  }

  lemma NormalKeepsGroups(f: Oracle, sp: Spec, w: World)
    ensures forall x :: x in w.c.groups ==> x in ReconcileNormal(f, sp, w).1.c.groups
  {
    hide ReconcileNetwork, EnsureGroups, ReconcileLb, ReconcileDns;
    var w1 := ReconcileNetwork(f, sp, Called(w)).1;
    EnsureGroupsKeeps(f, sp, Called(w1), w1.c.groups, sp.groups);
    LbKeepsGroups(f, sp, ReconcileGroups(f, sp, w1));
  }

  lemma LbKeepsGroups(f: Oracle, sp: Spec, w: World)
    ensures var w' := ReconcileLb(f, sp, w).1; w'.c.groups == w.c.groups && w'.st.groupIds == w.st.groupIds
  {
    hide HandleLb, CreateLb;
  }

  /** What the cleanup removes is on record. */
  lemma {:induction false} CleanGroupsRemoves(f: Oracle, w: World, order: seq<string>)
    ensures var w' := CleanGroups(f, w, order);
            && (forall x :: x in w.c.groups && x !in w'.c.groups ==> HasOnRecord(w.st, x.id))
            && (forall g :: g in w'.st.groupIds ==> g in w.st.groupIds && w'.st.groupIds[g] == w.st.groupIds[g])
    decreases |order|
  {
    if order != [] {
      if order[0] !in w.st.groupIds {
        CleanGroupsRemoves(f, w, order[1..]);
      } else {
        var (ok, w1) := DeleteGroup(f, w, w.st.groupIds[order[0]]);
        CleanGroupsRemoves(f, if ok then w1.(st := w1.st.(groupIds := w1.st.groupIds - {order[0]})) else w1, order[1..]);
      }
    }
  }

  /** With every call answered and every recorded group visited, it removes exactly that. */
  lemma {:induction false} CleanGroupsRemovesAll(f: Oracle, w: World, order: seq<string>)
    requires forall n :: Answered(f, n)
    requires forall g :: g in w.st.groupIds ==> g in order
    ensures forall x :: x in CleanGroups(f, w, order).c.groups <==> x in w.c.groups && !HasOnRecord(w.st, x.id)
    decreases |order|
  {
    if order != [] {
      assert order == [order[0]] + order[1..];
      if order[0] !in w.st.groupIds {
        CleanGroupsRemovesAll(f, w, order[1..]);
      } else {
        assert Answered(f, w.n);
        var id := w.st.groupIds[order[0]];
        var w1 := DeleteGroup(f, w, id).1;
        var w2 := w1.(st := w1.st.(groupIds := w1.st.groupIds - {order[0]}));
        CleanGroupsRemovesAll(f, w2, order[1..]);
        OneForgotten(w.st, order[0]);
      }
    }
  }

  lemma OneForgotten(st: Status, g: string)
    requires g in st.groupIds
    ensures forall id :: HasOnRecord(st, id) <==> id == st.groupIds[g] || HasOnRecord(st.(groupIds := st.groupIds - {g}), id)
  {
    var rest := st.(groupIds := st.groupIds - {g});
    forall id | HasOnRecord(st, id) && id != st.groupIds[g] ensures HasOnRecord(rest, id) {
      var h :| h in st.groupIds && st.groupIds[h] == id;
      assert h in rest.groupIds && rest.groupIds[h] == id;
    }
  }

  lemma DeleteGroups(f: Oracle, sp: Spec, w: World, order: seq<string>)
    ensures ReconcileDelete(f, sp, w, order).1.c.groups
            == if sp.keep then w.c.groups else CleanGroups(f, CleanDns(f, sp, w), order).c.groups
  {
    hide CleanDns, CleanGroups, CaptureFips, DeleteRecordedLb, DeleteOrphans, CleanFips, CleanGateway, CleanNetwork;
  }

  /** With every call answered a delete pass removes exactly the groups on record, adopted ones included. */
  lemma GroupsRemovedIff(f: Oracle, sp: Spec, w: World, order: seq<string>)
    requires forall n :: Answered(f, n)
    requires !sp.keep && forall g :: g in w.st.groupIds ==> g in order
    ensures forall x :: x in ReconcileDelete(f, sp, w, order).1.c.groups <==> x in w.c.groups && !HasOnRecord(w.st, x.id)
  {
    hide ReconcileDelete, CleanDns, CleanGroups;
    DeleteGroups(f, sp, w, order);
    CleanGroupsRemovesAll(f, CleanDns(f, sp, w), order);
  }

  /** The group is this cluster's own, on record as `g`, and no other cluster's unless their names collide. */
  ghost predicate OwnAs(own: Spec, st: Status, x: Group, g: string) {
    && g in st.groupIds && st.groupIds[g] == x.id && x.name == GroupName(own, g)
    && forall sp2: Spec, g2: string :: sp2.name != own.name && x.name == GroupName(sp2, g2) ==>
         Collide(own.name, g, sp2.name, g2) || Collide(sp2.name, g2, own.name, g)
  }

  /** After any run, a pass that makes a group disappear is a delete pass, and the group has the name this
      cluster gives the one it is on record as: so it is another cluster's only if the names collide. */
  lemma OnlyOwnGroupsRemoved(own: nat -> Spec, fl: Fleet, acts: seq<Action>, a: Action, x: Group)
    requires AllRecorded(own, fl) && LawfulRun(own, fl, acts) && Lawful(own, Run(fl, acts), a) && !a.Other?
    requires x in Run(fl, acts).c.groups && x !in Act(Run(fl, acts), a).c.groups
    ensures a.Delete? && a.key in Run(fl, acts).objects
    ensures exists g :: OwnAs(own(a.key), Run(fl, acts).objects[a.key], x, g)
  {
    hide ReconcileNormal, ReconcileDelete, CleanGroups, CleanDns, Collide, GroupName, Run, LawfulRun;
    FleetRecorded(own, fl, acts);
    var mid := Run(fl, acts);
    var w := Before(mid, a.key);
    if a.Normal? { NormalKeepsGroups(a.f, a.sp, w); }
    DeleteGroups(a.f, a.sp, w, a.order);
    CleanGroupsRemoves(a.f, CleanDns(a.f, a.sp, w), a.order);
    var g :| g in w.st.groupIds && w.st.groupIds[g] == x.id;
    assert Wiring.GroupNamed(mid.c, x.id, GroupName(own(a.key), g));
    forall sp2: Spec, g2: string | sp2.name != own(a.key).name && x.name == GroupName(sp2, g2)
      ensures Collide(own(a.key).name, g, sp2.name, g2) || Collide(sp2.name, g2, own(a.key).name, g)
    {
      SameGroupNameIff(own(a.key), g, sp2, g2);
    }
    assert OwnAs(own(a.key), w.st, x, g);
  }

  // ---- Two clusters and one group ----

  function Bare(groupIds: map<string, Id>): Status {
    Status(true, false, "", UNSET, false, UNSET, UNSET, UNSET, UNSET, UNSET, UNSET, UNSET, UNSET, false, groupIds, UNSET)
  }

  function Clear(next: FreshId, groups: seq<Group>): Cloud { Cloud(next, map[], [], [], [], [], [], [], groups, []) }

  function WithGroup(name: string, g: string): Spec { Spec(name, None, UNSET, UNSET, UNSET, false, [g], false, false) }

  lemma GroupPass(name: string, g: string, w: World)
    requires w.st == Bare(map[])
    ensures var there := LastNamed(w.c.groups, GroupName(WithGroup(name, g), g));
            var w' := ReconcileNormal(Ownership.AllOk(), WithGroup(name, g), w).1;
            match there
            case Some(id) => w'.c == w.c && w'.st == Bare(map[g := id])
            case None => w'.c == w.c.(next := w.c.next + 1, groups := w.c.groups + [Group(w.c.next, GroupName(WithGroup(name, g), g))])
                         && w'.st == Bare(map[g := w.c.next])
  {
    hide LastNamed, GroupName, EnsureGroups, ReconcileLb;
    var f, sp := Ownership.AllOk(), WithGroup(name, g);
    var w0 := Called(w);
    assert ReconcileNetwork(f, sp, w0) == (Done, w0);
    OneGroup(sp, Called(w0), g);
    var w2 := ReconcileGroups(f, sp, w0);
    assert w2 == EnsureGroups(f, sp, Called(w0), w0.c.groups, [g]);
    NoLbPass(f, sp, w2);
  }

  lemma OneGroup(sp: Spec, w: World, g: string)
    requires w.st == Bare(map[])
    ensures var w' := EnsureGroups(Ownership.AllOk(), sp, w, w.c.groups, [g]);
            match LastNamed(w.c.groups, GroupName(sp, g))
            case Some(id) => w'.c == w.c && w'.st == Bare(map[g := id])
            case None => w'.c == w.c.(next := w.c.next + 1, groups := w.c.groups + [Group(w.c.next, GroupName(sp, g))])
                         && w'.st == Bare(map[g := w.c.next])
  {
    hide LastNamed, GroupName;
    assert [g][1..] == [];
    assert map[][g := w.c.next] == map[g := w.c.next];
  }

  lemma NoLbPass(f: Oracle, sp: Spec, w: World)
    requires sp.lbSubnetId == UNSET && sp.existingLb == UNSET && sp.existingFip == UNSET && w.st == Bare(w.st.groupIds)
    ensures ReconcileLb(f, sp, w) == (Error, Called(w))
  {
    assert Adopt(sp, w.st) == w.st;
  }

  /** Cluster "a" with group "b-c" and cluster "a-b" with group "c" both mean "capi-a-b-c": the second
      adopts the first one's group, and its deletion removes it while it is on record for the first. */
  lemma CollidingGroupRemoved()
    ensures var a, ab, f := WithGroup("a", "b-c"), WithGroup("a-b", "c"), Ownership.AllOk();
            var fl := Fleet(Clear(1, []), map[1 := Bare(map[]), 2 := Bare(map[])]);
            var made := Act(Act(fl, Normal(1, a, f, true)), Normal(2, ab, f, true));
            var gone := Act(made, Delete(2, ab, f, ["c"], true));
            && made.c.groups == [Group(1, "capi-a-b-c")]
            && made.objects[1].groupIds == map["b-c" := 1] && made.objects[2].groupIds == map["c" := 1]
            && gone.c.groups == [] && gone.objects[1].groupIds == map["b-c" := 1]
  {
    hide ReconcileNormal, ReconcileDelete;
    var a, ab, f := WithGroup("a", "b-c"), WithGroup("a-b", "c"), Ownership.AllOk();
    var name := "capi-a-b-c";
    assert GroupName(a, "b-c") == name && GroupName(ab, "c") == name;
    var fl := Fleet(Clear(1, []), map[1 := Bare(map[]), 2 := Bare(map[])]);
    var w1, w2 := World(fl.c, Bare(map[]), 0, [], {}), World(Clear(2, [Group(1, name)]), Bare(map[]), 0, [], {});
    assert LastNamed(w1.c.groups, name).None? && LastNamed(w2.c.groups, name) == Some(1);
    GroupPass("a", "b-c", w1);
    var fl1 := Act(fl, Normal(1, a, f, true));
    assert fl1 == Fleet(w2.c, map[1 := Bare(map["b-c" := 1]), 2 := Bare(map[])]);
    GroupPass("a-b", "c", w2);
    var made := Act(fl1, Normal(2, ab, f, true));
    assert made == Fleet(w2.c, map[1 := Bare(map["b-c" := 1]), 2 := Bare(map["c" := 1])]);
    var w3 := World(w2.c, Bare(map["c" := 1]), 0, [], {});
    var groups := ReconcileDelete(f, ab, w3, ["c"]).1.c.groups;
    assert groups == [] || groups[0] in groups;
    assert forall n :: Answered(f, n);
    GroupsRemovedIff(f, ab, w3, ["c"]);
    assert HasOnRecord(w3.st, 1) by { assert "c" in w3.st.groupIds && w3.st.groupIds["c"] == 1; }
  }
}
