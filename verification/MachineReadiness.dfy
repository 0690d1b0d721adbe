/** What a finished pass over a machine says about its instance. */
module MachineReadiness {
  import opened Collections
  import opened MachineSteps
  import MachineScope
  import Names

  /** Ready means ACTIVE, and then the provider ID and the addresses are the instance's. */
  ghost predicate Truthful(sp: Spec, p: Pass) {
    p.instance.Some? ==>
      var x := p.instance.value;
      && p.st.instanceId == x.id && (p.st.ready <==> x.power.Active?)
      && (x.power.Active? ==> p.st.providerId == Names.ProviderId(sp.region, x.id) && p.st.addresses == Addresses(x.ips))
  }

  function Shown(x: IpAddress): Address { if x.kind == "public" then External(x.ip) else Internal(x.ip) }

  /** The addresses are those of the IPv4 entries, in order, external exactly for public ones. */
  lemma {:induction false} AddressesInOrder(ips: seq<IpAddress>)
    ensures var v4 := Filter(ips, (x: IpAddress) => x.version == 4);
            |Addresses(ips)| == |v4| && forall i :: 0 <= i < |v4| ==> Addresses(ips)[i] == Shown(v4[i])
  {
    if ips != [] {
      var n, v4 := |ips| - 1, (x: IpAddress) => x.version == 4;
      AddressesInOrder(ips[..n]);
      assert Filter(ips, v4) == Filter(ips[..n], v4) + if v4(ips[n]) then [ips[n]] else [];
    }
  }

  /** A pass that has not got hold of an instance has left these fields as they were. */
  ghost predicate Unobserved(p: Pass, was: Status) {
    p.instance.None? ==> p.st.ready == was.ready && p.st.providerId == was.providerId && p.st.addresses == was.addresses
  }

  ghost predicate Searching(pc: Pc) { pc.GetRecorded? || pc.GetAdopted? || pc.FindByName? || pc.Resolve? || pc.Create? }

  ghost predicate Normal(pc: Pc) { !pc.RemoveMember? && !pc.DeleteInstance? && !pc.CheckGone? }

  /** The instance in hand is in status ERROR. */
  ghost predicate InError(p: Pass) { p.instance.Some? && p.instance.value.power.Broken? }

  /** With an ACTIVE or failed instance in hand there is nothing to wait for; any other is looked at again. */
  ghost predicate EndsAs(p: Pass)
    requires p.instance.Some? && p.pc.End?
  {
    p.pc.phase == if p.instance.value.power.Active? || p.instance.value.power.Broken? then Done else Requeue
  }

  ghost predicate PassOk(sp: Spec, p: Pass, was: Status) {
    && Truthful(sp, p) && Unobserved(p, was) && Normal(p.pc) && (Searching(p.pc) ==> p.instance.None?)
    && (p.st.failed <==> was.failed || InError(p)) && (p.pc.End? && p.instance.Some? ==> EndsAs(p))
    && (!Searching(p.pc) && !p.pc.End? ==> p.instance.Some? && p.instance.value.power.Active?)
  }

  lemma HandleTruthful(sp: Spec, cx: Context, p: Pass, x: Instance, was: Status)
    requires p.st.failed <==> was.failed
    ensures PassOk(sp, Handle(sp, cx, p, x), was)
  {
  }

  lemma CallTruthful(sp: Spec, cx: Context, c: Cloud, p: Pass, r: Reply, was: Status)
    requires PassOk(sp, p, was)
    ensures PassOk(sp, Step(sp, cx, c, p, r).1, was)
  {
    hide Handle, Addresses, InstanceById, InstanceByName, InstanceName, MemberAt, PoolByName, Terminated, AddMember;
    forall x | Searching(p.pc) && Step(sp, cx, c, p, r).1 == Handle(sp, cx, p, x) ensures PassOk(sp, Step(sp, cx, c, p, r).1, was) {
      HandleTruthful(sp, cx, p, x, was);
    }
  }

  lemma {:induction false} FinishTruthful(sp: Spec, cx: Context, f: Oracle, n: nat, c: Cloud, p: Pass, was: Status)
    requires PassOk(sp, p, was)
    ensures PassOk(sp, Finish(sp, cx, f, n, c, p).1, was)
    decreases Rank(p.pc)
  {
    hide Step, PassOk;
    if !p.pc.End? {
      CallTruthful(sp, cx, c, p, f(n), was);
      StepRank(sp, cx, c, p, f(n));
      var (c1, p1) := Step(sp, cx, c, p, f(n));
      FinishTruthful(sp, cx, f, n + 1, c1, p1, was);
    }
  }

  /** After a pass that handled an instance, Ready holds exactly when that instance is ACTIVE, and
      then parsing the provider ID gives the region and the recorded instance ID exactly when the
      pair can be told apart in it. */
  lemma ReadyIffActive(sp: Spec, cx: Context, f: Oracle, n: nat, c: Cloud, st: Status)
    ensures var p := Finish(sp, cx, f, n, c, Begin(sp, cx, st)).1;
            p.instance.Some? ==>
              && (p.st.ready <==> p.instance.value.power.Active?) && p.st.instanceId == p.instance.value.id
              && (p.st.ready ==> (Names.ParseProviderId(p.st.providerId) == Names.Valid(sp.region, p.st.instanceId)
                                  <==> Names.Parseable(sp.region, p.st.instanceId)))
  {
    hide Finish, Names.ParseProviderId;
    var p0 := Begin(sp, cx, st);
    FinishTruthful(sp, cx, f, n, c, p0, p0.st);
    var p := Finish(sp, cx, f, n, c, p0).1;
    if p.instance.Some? { Names.ParseUndoesBuild(sp.region, p.instance.value.id); }
  }

  /** The machine is marked failed exactly when it was before or the instance in hand is in status ERROR, and
      how a pass with an instance in hand ends depends on that instance only. */
  lemma FailedIffError(sp: Spec, cx: Context, f: Oracle, n: nat, c: Cloud, st: Status)
    ensures var p := Finish(sp, cx, f, n, c, Begin(sp, cx, st)).1;
            && (p.st.failed <==> st.failed || InError(p))
            && (p.instance.Some? ==> EndsAs(p))
  {
    hide Finish;
    var p0 := Begin(sp, cx, st);
    FinishTruthful(sp, cx, f, n, c, p0, p0.st);
  }

  /** After any other pass Ready is what it was, unless the pass was paused or added the finalizer:
      a machine whose instance vanished stays Ready, with the old provider ID, while a new instance
      is created. */
  lemma StaleReadyIff(sp: Spec, cx: Context, f: Oracle, n: nat, c: Cloud, st: Status)
    ensures var p := Finish(sp, cx, f, n, c, Begin(sp, cx, st)).1;
            p.instance.None? ==>
              && (p.st.ready <==> st.ready && st.finalizer && !cx.paused)
              && p.st.providerId == st.providerId && p.st.addresses == st.addresses
  {
    hide Finish;
    var p0 := Begin(sp, cx, st);
    FinishTruthful(sp, cx, f, n, c, p0, p0.st);
  }

  /** Such a pass exists: the recorded instance is gone and every call succeeds. */
  lemma VanishedStaysReady(sp: Spec, cx: Context, f: Oracle, c: Cloud, st: Status)
    requires (forall k :: f(k).outcome.Ok?) && f(3).id != ""
    requires st.ready && st.finalizer && !cx.paused && cx.infraReady && cx.bootstrap && sp.existing == ""
    requires st.instanceId != "" && InstanceById(c, st.instanceId).None? && InstanceByName(c, InstanceName(sp)).None?
    ensures var (c', p, n) := Finish(sp, cx, f, 0, c, Begin(sp, cx, st));
            p.st.ready && p.st.instanceId == f(3).id && p.instance.None? && n == 4
            && Instance(f(3).id, InstanceName(sp), Build, []) in c'.instances
  {
    hide InstanceById, InstanceByName, InstanceName;
    var p0 := Begin(sp, cx, st);
    var (c1, p1) := Step(sp, cx, c, p0, f(0));
    var (c2, p2) := Step(sp, cx, c1, p1, f(1));
    var (c3, p3) := Step(sp, cx, c2, p2, f(2));
    var (c4, p4) := Step(sp, cx, c3, p3, f(3));
    assert c4.instances[|c.instances|] == Instance(f(3).id, InstanceName(sp), Build, []);
    assert Finish(sp, cx, f, 4, c4, p4) == (c4, p4, 4);
    assert Finish(sp, cx, f, 3, c3, p3) == (c4, p4, 4);
    assert Finish(sp, cx, f, 2, c2, p2) == (c4, p4, 4);
    assert Finish(sp, cx, f, 1, c1, p1) == (c4, p4, 4);
  }

  // ---- Deletion ----

  /** A read after the DELETE that counts as gone: any error, no instance, or status DELETED. */
  predicate Gone(c: Cloud, id: string, r: Reply) {
    !Up(r) || InstanceById(c, id).None? || InstanceById(c, id).value.power.Deleted?
  }

  /** Where the instance DELETE falls in a delete pass: after the member's removal, if there is one. */
  function BeforeDelete(cx: Context, st: Status): nat { if st.apiMember != "" && cx.poolId != "" then 1 else 0 }

  /** The machine finalizer goes exactly with the keep annotation, or when no instance is on record,
      or when the recorded one's DELETE was accepted and the read after it counts as gone. */
  lemma MachineFinalizerIff(sp: Spec, cx: Context, f: Oracle, c: Cloud, st: Status)
    requires st.finalizer
    ensures var k := BeforeDelete(cx, st);
            var (c', p, n) := Finish(sp, cx, f, 0, c, BeginDelete(sp, cx, st));
            !p.st.finalizer <==> sp.keep || st.instanceId == ""
                                 || (!f(k).outcome.Fail? && Gone(c', st.instanceId, f(k + 1)))
  {
    hide InstanceById, Terminated;
    if !sp.keep {
      var p0 := BeginDelete(sp, cx, st);
      var k := BeforeDelete(cx, st);
      var (c1, p1) := if k == 1 then Step(sp, cx, c, p0, f(0)) else (c, p0);
      assert Finish(sp, cx, f, 0, c, p0) == Finish(sp, cx, f, k, c1, p1);
      if st.instanceId != "" {
        var (c2, p2) := Step(sp, cx, c1, p1, f(k));
        var (c3, p3) := Step(sp, cx, c2, p2, f(k + 1));
        assert Finish(sp, cx, f, k, c1, p1) == Finish(sp, cx, f, k + 1, c2, p2);
        assert p2.pc.CheckGone? ==> Finish(sp, cx, f, k + 1, c2, p2) == (c3, p3, k + 2);
      }
    }
  }

  /** A delete pass fails exactly when the DELETE of a recorded instance does, with an error that is not a 404. */
  lemma DeleteFailsIff(sp: Spec, cx: Context, f: Oracle, c: Cloud, st: Status)
    ensures Finish(sp, cx, f, 0, c, BeginDelete(sp, cx, st)).1.pc == End(Error)
            <==> !sp.keep && st.instanceId != "" && f(BeforeDelete(cx, st)).outcome.Fail?
  {
    hide Finish, InstanceById, Terminated;
    var p0 := BeginDelete(sp, cx, st);
    if !sp.keep && st.instanceId != "" {
      AtDelete(sp, cx, f, c, st);
      MachineScope.DeleteCalls(sp, cx, f, BeforeDelete(cx, st), WithoutMember(cx, f, c, st), MemberSeenTo(cx, f, st));
    } else if p0.pc.End? {
      assert Finish(sp, cx, f, 0, c, p0).1.pc == p0.pc by { AtEnd(sp, cx, f, c, p0); }
    } else {
      MachineScope.CallOnce(sp, cx, f, 0, c, p0);
    }
  }

  lemma AtEnd(sp: Spec, cx: Context, f: Oracle, c: Cloud, p: Pass)
    requires p.pc.End?
    ensures Finish(sp, cx, f, 0, c, p) == (c, p, 0)
  {
  }

  ghost predicate Deleting(pc: Pc) { pc.RemoveMember? || pc.DeleteInstance? || pc.CheckGone? || pc.End? }

  /** All a delete pass takes from the pools is the API server member on record: the supervisor
      member on port 9345 stays. And it touches no instance but the one on record, so one whose ID
      was lost with a patch outlives its machine. */
  lemma {:induction false} DeleteReaches(sp: Spec, cx: Context, f: Oracle, n: nat, c: Cloud, p: Pass)
    requires Deleting(p.pc)
    ensures var c' := Finish(sp, cx, f, n, c, p).0;
            && (forall y :: y in c'.members ==> y in c.members)
            && (forall y :: y in c.members && y !in c'.members ==> y.pool == cx.poolId && y.id == p.st.apiMember)
            && (!p.pc.RemoveMember? ==> c'.members == c.members)
            && |c'.instances| == |c.instances|
            && forall i :: 0 <= i < |c.instances| && c'.instances[i] != c.instances[i] ==> c.instances[i].id == p.st.instanceId
    decreases Rank(p.pc)
  {
    if !p.pc.End? {
      var (c1, p1) := Step(sp, cx, c, p, f(n));
      DeleteReaches(sp, cx, f, n + 1, c1, p1);
    }
  }

  /** What a delete pass does to an instance that is not DELETED yet, whatever its calls answer: it
      is left exactly with the keep annotation, when it is not the one on record, or when the DELETE
      does not take effect at once. The API server member's ID is kept exactly when its removal fails. And a pool member stays exactly unless it is the API server
      member on record and its removal was accepted. */
  lemma DeletedIff(sp: Spec, cx: Context, f: Oracle, c: Cloud, st: Status)
    ensures var k, c' := BeforeDelete(cx, st), Finish(sp, cx, f, 0, c, BeginDelete(sp, cx, st)).0;
            && |c'.instances| == |c.instances|
            && Finish(sp, cx, f, 0, c, BeginDelete(sp, cx, st)).1.st.apiMember
               == (if !sp.keep && k == 1 && !f(0).outcome.Fail? then "" else st.apiMember)
            && (forall i :: 0 <= i < |c.instances| && !c.instances[i].power.Deleted? && c.instances[i].id != "" ==>
                  (!c'.instances[i].power.Deleted? <==> sp.keep || c.instances[i].id != st.instanceId || !f(k).outcome.Ok?))
            && (forall y :: y in c'.members <==>
                  y in c.members && (sp.keep || k == 0 || y.pool != cx.poolId || y.id != st.apiMember || !Up(f(0))))
  {
    hide Finish, InstanceById, Terminated, BeginDelete;
    DeleteLeaves(sp, cx, f, c, st);
    TerminatedIs(c, st.instanceId);
  }

  /** What a delete pass leaves, by the calls it makes. */
  lemma DeleteLeaves(sp: Spec, cx: Context, f: Oracle, c: Cloud, st: Status)
    ensures var k, (c', p, n) := BeforeDelete(cx, st), Finish(sp, cx, f, 0, c, BeginDelete(sp, cx, st));
            && p.st.apiMember == (if sp.keep then st else MemberSeenTo(cx, f, st)).apiMember
            && c'.members == (if sp.keep then c else WithoutMember(cx, f, c, st)).members
            && c'.instances == if !sp.keep && st.instanceId != "" && Up(f(k))
                               then Terminated(c, st.instanceId, if f(k).outcome.Ok? then Deleted else Other).instances
                               else c.instances
  {
    hide Finish, InstanceById;
    var p0 := BeginDelete(sp, cx, st);
    if sp.keep {
      AtEnd(sp, cx, f, c, p0);
    } else if st.instanceId != "" {
      AtDelete(sp, cx, f, c, st);
      MachineScope.DeleteCalls(sp, cx, f, BeforeDelete(cx, st), WithoutMember(cx, f, c, st), MemberSeenTo(cx, f, st));
    } else if p0.pc.End? {
      AtEnd(sp, cx, f, c, p0);
    } else {
      MachineScope.CallOnce(sp, cx, f, 0, c, p0);
    }
  }

  lemma TerminatedIs(c: Cloud, id: string)
    ensures forall power :: var c' := Terminated(c, id, power);
              && c'.members == c.members && |c'.instances| == |c.instances|
              && forall i :: 0 <= i < |c.instances| ==>
                   c'.instances[i] == if c.instances[i].id == id then c.instances[i].(power := power) else c.instances[i]
  {
  }

  /** So once every call is answered and the finalizer is gone, what is left of the machine can be
      told before the deletion: every instance but the one on record. */
  lemma UnrecordedInstanceLeft(sp: Spec, cx: Context, f: Oracle, c: Cloud, st: Status, i: nat)
    requires (forall k :: Up(f(k))) && st.finalizer && !sp.keep
    requires !Finish(sp, cx, f, 0, c, BeginDelete(sp, cx, st)).1.st.finalizer
    requires i < |c.instances| && !c.instances[i].power.Deleted? && c.instances[i].id != ""
    ensures var c' := Finish(sp, cx, f, 0, c, BeginDelete(sp, cx, st)).0;
            |c'.instances| == |c.instances| && (!c'.instances[i].power.Deleted? <==> c.instances[i].id != st.instanceId)
  {
    hide Finish, BeginDelete;
    DeletedIff(sp, cx, f, c, st);
    MachineFinalizerIff(sp, cx, f, c, st);
    var k := BeforeDelete(cx, st);
    assert Up(f(k)) && Up(f(k + 1));
    if f(k).outcome.Late? && st.instanceId == c.instances[i].id { StillThere(sp, cx, f, c, st, i); }
  }

  lemma StillThere(sp: Spec, cx: Context, f: Oracle, c: Cloud, st: Status, i: nat)
    requires st.instanceId != "" && !sp.keep && f(BeforeDelete(cx, st)).outcome.Late?
    requires i < |c.instances| && c.instances[i].id == st.instanceId
    ensures var x := InstanceById(Finish(sp, cx, f, 0, c, BeginDelete(sp, cx, st)).0, st.instanceId);
            x.Some? && !x.value.power.Deleted?
  {
    hide InstanceById, Terminated, Finish, BeginDelete;
    AtDelete(sp, cx, f, c, st);
    var c1, st1 := WithoutMember(cx, f, c, st), MemberSeenTo(cx, f, st);
    MachineScope.DeleteCalls(sp, cx, f, BeforeDelete(cx, st), c1, st1);
    TerminatedFound(c1, st.instanceId, i);
  }

  function WithoutMember(cx: Context, f: Oracle, c: Cloud, st: Status): (r: Cloud)
    ensures r == c.(members := r.members)
  {
    if BeforeDelete(cx, st) == 1 && Up(f(0)) then
      c.(members := Filter(c.members, (x: Member) => !(x.pool == cx.poolId && x.id == st.apiMember)))
    else c
  }

  function MemberSeenTo(cx: Context, f: Oracle, st: Status): Status {
    if BeforeDelete(cx, st) == 1 && !f(0).outcome.Fail? then st.(apiMember := "") else st
  }

  /** Where a delete pass stands when it gets to the instance. */
  lemma AtDelete(sp: Spec, cx: Context, f: Oracle, c: Cloud, st: Status)
    requires st.instanceId != "" && !sp.keep
    ensures Finish(sp, cx, f, 0, c, BeginDelete(sp, cx, st))
            == Finish(sp, cx, f, BeforeDelete(cx, st), WithoutMember(cx, f, c, st),
                      Pass(MemberSeenTo(cx, f, st), None, DeleteInstance))
  {
    var p0 := BeginDelete(sp, cx, st);
    if BeforeDelete(cx, st) == 1 { MachineScope.CallOnce(sp, cx, f, 0, c, p0); }
  }

  lemma TerminatedFound(c: Cloud, id: string, i: nat)
    requires i < |c.instances| && c.instances[i].id == id
    ensures InstanceById(Terminated(c, id, Other), id).Some? && InstanceById(Terminated(c, id, Other), id).value.power == Other
  {
    assert Terminated(c, id, Other).instances[i].id == id;
  }
}
