/** Which floating IPs a completed deletion leaves attached or up. */
module FipCleanup {
  import opened Collections
  import opened OvhCloud
  import opened ClusterSteps
  import opened ClusterDelete
  import opened Deletion

  /** Detached and down, which the controller treats as removed. */
  predicate Reaped(x: FloatingIP) { x.entity.None? && x.down }

  /** A floating IP of this identifier is there and not reaped. */
  ghost predicate LeftBehind(c: Cloud, id: Id) { exists y :: y in c.fips && y.id == id && !Reaped(y) }

  /** What the cloud has under this identifier. */
  ghost predicate Has(c: Cloud, id: Id, state: Option<FloatingIP>) {
    && (state.Some? ==> state.value in c.fips && state.value.id == id)
    && (forall y :: y in c.fips && y.id == id ==> state == Some(y))
  }

  /** What a DELETE with this outcome makes of a floating IP. */
  function AfterDelete(x: FloatingIP, outcome: Outcome): Option<FloatingIP> {
    match outcome
    case Ok => None
    case Late => Some(if x.entity.Some? then x.(entity := None, down := false) else x.(down := true))
    case _ => Some(x)
  }

  lemma HasOther(f: Oracle, w: World, id: Id, state: Option<FloatingIP>, other: Id)
    requires Has(w.c, id, state) && other != id
    ensures Has(DeleteFip(f, w, other).c, id, state)
  {
    var s, t := w.c.fips, DeleteFip(f, w, other).c.fips;
    if state.Some? {
      var k :| 0 <= k < |s| && s[k] == state.value;
      if f(w.n).outcome.Late? { assert t[k] == s[k]; }
    }
    forall y | y in t && y.id == id ensures y in s {
      if f(w.n).outcome.Late? {
        var i :| 0 <= i < |t| && t[i] == y;
        assert s[i] in s && t[i] == s[i];
      }
    }
  }

  lemma HasSame(f: Oracle, w: World, x: FloatingIP)
    requires Has(w.c, x.id, Some(x))
    ensures Has(DeleteFip(f, w, x.id).c, x.id, AfterDelete(x, f(w.n).outcome))
  {
    var s, t := w.c.fips, DeleteFip(f, w, x.id).c.fips;
    if f(w.n).outcome.Late? {
      var k :| 0 <= k < |s| && s[k] == x;
      assert t[k] == AfterDelete(x, Late).value;
      forall y | y in t && y.id == x.id ensures AfterDelete(x, Late) == Some(y) {
        var i :| 0 <= i < |t| && t[i] == y;
        assert s[i] in s && s[i] == x;
      }
    }
  }

  lemma ReadsState(f: Oracle, w: World, id: Id, state: Option<FloatingIP>)
    requires Has(w.c, id, state)
    ensures Gone(Answer(f, w, FipById(w.c, id))) <==> !Up(f, w) || state.None? || Reaped(state.value)
  {
  }

  ghost predicate NoRepeats(ids: seq<Id>) { forall i, j :: 0 <= i < j < |ids| ==> ids[i] != ids[j] }

  /** One DELETE and the read after it. */
  function DeleteAndRead(f: Oracle, w: World, id: Id): World {
    var w1 := DeleteFip(f, w, id);
    Logged(w1, ReadFip(id, Gone(Answer(f, w1, FipById(w1.c, id)))))
  }

  lemma DeleteAndReadState(f: Oracle, w: World, id: Id, x: FloatingIP)
    requires Has(w.c, x.id, Some(x))
    ensures var w2 := DeleteAndRead(f, w, id);
            w2.n == w.n + 2 && Has(w2.c, x.id, if id == x.id then AfterDelete(x, f(w.n).outcome) else Some(x))
  {
    hide Has, DeleteFip, Gone, FipById;
    var w1, w2 := DeleteFip(f, w, id), DeleteAndRead(f, w, id);
    OneCall(f, w, id);
    if id == x.id {
      HasSame(f, w, x);
      HasFips(w1.c, w2.c, x.id, AfterDelete(x, f(w.n).outcome));
    } else {
      HasOther(f, w, x.id, Some(x), id);
      HasFips(w1.c, w2.c, x.id, Some(x));
    }
  }

  lemma CleanFipsFirst(f: Oracle, w: World, ids: seq<Id>)
    requires ids != []
    ensures var (again, w') := CleanFips(f, w, ids);
            var (rest, w3) := CleanFips(f, DeleteAndRead(f, w, ids[0]), ids[1..]);
            && w' == w3 && (!again ==> !rest)
            && (!again ==> Gone(Answer(f, DeleteFip(f, w, ids[0]), FipById(DeleteFip(f, w, ids[0]).c, ids[0]))))
  {
    hide DeleteFip, Gone, FipById;
  }

  lemma FirstGone(f: Oracle, w: World, x: FloatingIP)
    requires Has(w.c, x.id, Some(x))
    requires Gone(Answer(f, DeleteFip(f, w, x.id), FipById(DeleteFip(f, w, x.id).c, x.id)))
    ensures var after := AfterDelete(x, f(w.n).outcome); !Answered(f, w.n + 1) || after.None? || Reaped(after.value)
  {
    hide Has, DeleteFip, Gone, FipById;
    OneCall(f, w, x.id);
    HasSame(f, w, x);
    ReadsState(f, DeleteFip(f, w, x.id), x.id, AfterDelete(x, f(w.n).outcome));
  }

  /** Cleanup changes a floating IP only if it is listed, and then as its own DELETE says. When no
      other pass is asked for, the read after it failed or found it removed or reaped. */
  lemma {:induction false} CleanFipsState(f: Oracle, w: World, ids: seq<Id>, x: FloatingIP, j: nat)
    requires Has(w.c, x.id, Some(x)) && NoRepeats(ids) && j < |ids| && ids[j] == x.id
    ensures var (again, w') := CleanFips(f, w, ids);
            var after := AfterDelete(x, f(w.n + 2 * j).outcome);
            && Has(w'.c, x.id, after)
            && (!again ==> !Answered(f, w.n + 2 * j + 1) || after.None? || Reaped(after.value))
    decreases |ids|
  {
    hide Has, DeleteFip, Gone, FipById, CleanFips, DeleteAndRead, Reaped, AfterDelete;
    CleanFipsFirst(f, w, ids);
    DeleteAndReadState(f, w, ids[0], x);
    var w2 := DeleteAndRead(f, w, ids[0]);
    if j == 0 {
      if !CleanFips(f, w, ids).0 { FirstGone(f, w, x); }
      CleanFipsSkips(f, w2, ids[1..], x.id, AfterDelete(x, f(w.n).outcome));
    } else {
      CleanFipsState(f, w2, ids[1..], x, j - 1);
      assert w2.n + 2 * (j - 1) == w.n + 2 * j;
    }
  }

  lemma OneCall(f: Oracle, w: World, id: Id)
    ensures DeleteFip(f, w, id).n == w.n + 1
  {
  }

  lemma HasFips(c: Cloud, c': Cloud, id: Id, state: Option<FloatingIP>)
    requires Has(c, id, state) && c'.fips == c.fips
    ensures Has(c', id, state)
  {
  }

  lemma {:induction false} CleanFipsSkips(f: Oracle, w: World, ids: seq<Id>, id: Id, state: Option<FloatingIP>)
    requires Has(w.c, id, state) && id !in ids
    ensures Has(CleanFips(f, w, ids).1.c, id, state)
    decreases |ids|
  {
    if ids != [] {
      hide Has, DeleteFip, Gone, FipById;
      var w1 := DeleteFip(f, w, ids[0]);
      HasOther(f, w, id, state, ids[0]);
      var w2 := Logged(w1, ReadFip(ids[0], Gone(Answer(f, w1, FipById(w1.c, ids[0])))));
      HasFips(w1.c, w2.c, id, state);
      CleanFipsSkips(f, w2, ids[1..], id, state);
    }
  }

  // ---- What a pass captures ----

  lemma {:induction false} CaptureNoRepeats(fips: seq<FloatingIP>, lb: Id, captured: seq<Id>)
    requires NoRepeats(captured)
    ensures NoRepeats(Capture(fips, lb, captured))
    decreases |fips|
  {
    if fips != [] {
      var x := fips[0];
      CaptureNoRepeats(fips[1..], lb, if x.entity == Some(lb) && x.id !in captured then captured + [x.id] else captured);
    }
  }

  /** The world in which a delete pass lists the floating IPs, and the identifiers it then deletes. */
  function AtCapture(f: Oracle, sp: Spec, w: World, order: seq<string>): World {
    CleanGroups(f, CleanDns(f, sp, w), order)
  }

  function ToDelete(f: Oracle, sp: Spec, w: World, order: seq<string>): seq<Id> { DeleteFront(f, sp, w, order).0 }

  /** It is recorded, or attached to the recorded load balancer when the listing is answered. */
  ghost predicate Caught(f: Oracle, sp: Spec, w: World, order: seq<string>, x: FloatingIP) {
    x.id == w.st.fipId || (w.st.lbId != UNSET && x.entity == Some(w.st.lbId) && Up(f, AtCapture(f, sp, w, order)))
  }

  lemma CaughtIff(f: Oracle, sp: Spec, w: World, order: seq<string>, x: FloatingIP)
    requires Has(w.c, x.id, Some(x)) && x.id != UNSET
    ensures NoRepeats(ToDelete(f, sp, w, order))
    ensures x.id in ToDelete(f, sp, w, order) <==> Caught(f, sp, w, order, x)
  {
    hide CleanDns, CleanGroups, DeleteRecordedLb, Capture;
    var w1 := AtCapture(f, sp, w, order);
    assert w1.c.fips == w.c.fips && w1.st.fipId == w.st.fipId && w1.st.lbId == w.st.lbId;
    var recorded := if w.st.fipId != UNSET then [w.st.fipId] else [];
    CaptureNoRepeats(w.c.fips, w.st.lbId, recorded);
  }

  /** The world in which floating IPs are cleaned up. */
  function AtFips(f: Oracle, sp: Spec, w: World, order: seq<string>): World {
    DeleteOrphans(f, sp, AtOrphans(f, sp, w, order))
  }

  /** Some DELETE for it left it attached or up, and the read after that DELETE was not answered. */
  ghost predicate Missed(f: Oracle, base: nat, ids: seq<Id>, x: FloatingIP) {
    exists j :: 0 <= j < |ids| && ids[j] == x.id && Overlooked(f, base, j, x)
  }

  predicate Overlooked(f: Oracle, base: nat, j: nat, x: FloatingIP) {
    var after := AfterDelete(x, f(base + 2 * j).outcome);
    !Answered(f, base + 2 * j + 1) && after.Some? && !Reaped(after.value)
  }

  lemma CleanLeavesIff(f: Oracle, w: World, ids: seq<Id>, x: FloatingIP)
    requires Has(w.c, x.id, Some(x)) && NoRepeats(ids) && !CleanFips(f, w, ids).0
    ensures LeftBehind(CleanFips(f, w, ids).1.c, x.id) <==> if x.id in ids then Missed(f, w.n, ids, x) else !Reaped(x)
  {
    hide CleanFips, NoRepeats;
    if x.id in ids {
      var j :| 0 <= j < |ids| && ids[j] == x.id;
      CleanFipsState(f, w, ids, x, j);
      StateLeft(CleanFips(f, w, ids).1.c, x.id, AfterDelete(x, f(w.n + 2 * j).outcome));
      forall i | 0 <= i < |ids| && ids[i] == x.id ensures i == j { SamePlace(ids, i, j); }
    } else {
      CleanFipsSkips(f, w, ids, x.id, Some(x));
      StateLeft(CleanFips(f, w, ids).1.c, x.id, Some(x));
    }
  }

  lemma SamePlace(ids: seq<Id>, i: nat, j: nat)
    requires NoRepeats(ids) && i < |ids| && j < |ids| && ids[i] == ids[j]
    ensures i == j
  {
  }

  lemma StateLeft(c: Cloud, id: Id, state: Option<FloatingIP>)
    requires Has(c, id, state)
    ensures LeftBehind(c, id) <==> state.Some? && !Reaped(state.value)
  {
  }

  /** Exactly which floating IPs a completed pass leaves attached or up: those it did not catch, if
      they were, and those whose DELETE left them so while the read after it failed. */
  lemma FipLeftBehindIff(f: Oracle, sp: Spec, w: World, order: seq<string>, x: FloatingIP)
    requires !sp.keep && ReconcileDelete(f, sp, w, order).0.Done?
    requires Has(w.c, x.id, Some(x)) && x.id != UNSET
    ensures LeftBehind(ReconcileDelete(f, sp, w, order).1.c, x.id)
            <==> if Caught(f, sp, w, order, x) then Missed(f, AtFips(f, sp, w, order).n, ToDelete(f, sp, w, order), x)
                 else !Reaped(x)
  {
    hide DeleteFront, DeleteOrphans, CleanFips, CleanGateway, CleanNetwork, Has, Caught, NoRepeats, Missed, LeftBehind;
    CaughtIff(f, sp, w, order, x);
    var ids, w2 := ToDelete(f, sp, w, order), AtFips(f, sp, w, order);
    assert w2.c.fips == w.c.fips by { FrontKeepsFips(f, sp, w, order); }
    HasFips(w.c, w2.c, x.id, Some(x));
    CleanLeavesIff(f, w2, ids, x);
    var w' := ReconcileDelete(f, sp, w, order).1;
    SameLeft(CleanFips(f, w2, ids).1.c, w'.c, x.id);
  }

  lemma FrontKeepsFips(f: Oracle, sp: Spec, w: World, order: seq<string>)
    ensures DeleteFront(f, sp, w, order).2.c.fips == w.c.fips
  {
    hide CleanDns, CleanGroups, CaptureFips, DeleteRecordedLb;
  }

  lemma SameLeft(c: Cloud, c': Cloud, id: Id)
    requires c'.fips == c.fips
    ensures LeftBehind(c', id) <==> LeftBehind(c, id)
  {
  }

  /** When every call of the completed pass is answered, that can be told beforehand: a floating IP is
      left exactly when it is neither reaped, nor recorded, nor attached to the recorded load balancer. */
  lemma FipLeftBehindIffUnrecorded(f: Oracle, sp: Spec, w: World, order: seq<string>, x: FloatingIP)
    requires !sp.keep && ReconcileDelete(f, sp, w, order).0.Done? && forall n :: Answered(f, n)
    requires Has(w.c, x.id, Some(x)) && x.id != UNSET
    ensures LeftBehind(ReconcileDelete(f, sp, w, order).1.c, x.id)
            <==> !Reaped(x) && x.id != w.st.fipId && !(w.st.lbId != UNSET && x.entity == Some(w.st.lbId))
  {
    hide ReconcileDelete, Has, LeftBehind;
    FipLeftBehindIff(f, sp, w, order, x);
    assert Answered(f, AtCapture(f, sp, w, order).n);
    forall j: nat ensures !Overlooked(f, AtFips(f, sp, w, order).n, j, x) { assert Answered(f, AtFips(f, sp, w, order).n + 2 * j + 1); }
  }

  // ---- The leak ----

  /** The first pass detaches a floating IP it knows only by association, and asks for another. */
  lemma FirstPassDetaches(f: Oracle, sp: Spec, w: World, order: seq<string>, x: FloatingIP)
    requires !sp.keep && forall n :: f(n).outcome.Late?
    requires w.st.lbId != UNSET && w.st.fipId == UNSET && x.id != UNSET && w.c.fips == [x] && x.entity == Some(w.st.lbId)
    ensures var (ph, w1) := ReconcileDelete(f, sp, w, order);
            ph.Requeue? && w1.c.fips == [x.(entity := None, down := false)]
            && w1.st == w.st.(recordId := w1.st.recordId, groupIds := w1.st.groupIds)
  {
    hide DeleteFront, DeleteOrphans, CleanGateway, CleanNetwork;
    CaughtIff(f, sp, w, order, x);
    FrontGoesOn(f, sp, w, order);
    var (ids, ok, w1) := DeleteFront(f, sp, w, order);
    assert ids == [x.id] by { OnlyOne(f, sp, w, order, x); }
    FrontKeepsFips(f, sp, w, order);
    var w2 := DeleteOrphans(f, sp, w1);
    assert w2.c.fips == [x];
    var w3 := DeleteFip(f, w2, x.id);
    assert w3.c.fips == [x.(entity := None, down := false)];
    assert FipById(w3.c, x.id) == Some(x.(entity := None, down := false));
    assert CleanFips(f, w2, [x.id]).0 && CleanFips(f, w2, [x.id]).1.c.fips == w3.c.fips;
  }

  lemma OnlyOne(f: Oracle, sp: Spec, w: World, order: seq<string>, x: FloatingIP)
    requires w.c.fips == [x] && w.st.fipId == UNSET && w.st.lbId != UNSET && x.entity == Some(w.st.lbId)
    requires Up(f, AtCapture(f, sp, w, order))
    ensures ToDelete(f, sp, w, order) == [x.id]
  {
    hide CleanDns, CleanGroups, DeleteRecordedLb;
    var w1 := AtCapture(f, sp, w, order);
    assert w1.c.fips == [x] && w1.st.lbId == w.st.lbId && w1.st.fipId == UNSET;
    assert [x][1..] == [] && [] + [x.id] == [x.id];
    assert Capture([x], w.st.lbId, []) == Capture([], w.st.lbId, [x.id]) == [x.id];
  }

  lemma FrontGoesOn(f: Oracle, sp: Spec, w: World, order: seq<string>)
    requires forall n :: f(n).outcome.Late?
    ensures DeleteFront(f, sp, w, order).1
  {
    hide CleanDns, CleanGroups, CaptureFips, DeletePool, DeleteListener;
  }

  lemma NothingToDelete(f: Oracle, sp: Spec, w: World, order: seq<string>)
    requires w.st.fipId == UNSET && forall x :: x in w.c.fips ==> x.entity.None?
    ensures ToDelete(f, sp, w, order) == []
  {
    hide CleanDns, CleanGroups, DeleteRecordedLb, Capture;
    CaptureNone(w.c.fips, w.st.lbId);
  }

  lemma {:induction false} CaptureNone(fips: seq<FloatingIP>, lb: Id)
    requires forall x :: x in fips ==> x.entity.None?
    ensures Capture(fips, lb, []) == []
  {
    if fips != [] { CaptureNone(fips[1..], lb); }
  }

  /** The finalizer goes while a floating IP of the cluster exists, with every call answered: one known
      only by its association is detached by the first pass, and no longer found by the second,
      which completes. Nobody will delete it. */
  lemma FipLeaksInTwoPasses(f: Oracle, sp: Spec, w: World, order: seq<string>, x: FloatingIP)
    requires !sp.keep && w.st.finalizer && !w.st.networkCreated && forall n :: f(n).outcome.Late?
    requires w.st.lbId != UNSET && w.st.fipId == UNSET && x.id != UNSET && w.c.fips == [x] && x.entity == Some(w.st.lbId)
    ensures var (ph1, w1) := ReconcileDelete(f, sp, w, order);
            var (ph2, w2) := ReconcileDelete(f, sp, w1, order);
            && ph1.Requeue? && w1.st.finalizer && ph2.Done? && !w2.st.finalizer
            && w2.c.fips == [x.(entity := None, down := false)] && LeftBehind(w2.c, x.id)
  {
    hide DeleteFront, DeleteOrphans, CleanGateway;
    FirstPassDetaches(f, sp, w, order, x);
    var w1 := ReconcileDelete(f, sp, w, order).1;
    NothingToDelete(f, sp, w1, order);
    FrontGoesOn(f, sp, w1, order);
    FrontKeepsFips(f, sp, w1, order);
    var w2 := ReconcileDelete(f, sp, w1, order).1;
    assert w2.c.fips == w1.c.fips && w2.c.fips[0] in w2.c.fips;
  }
}
