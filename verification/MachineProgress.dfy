/** Repeated passes over one machine: when they end with a Ready instance, and when deletion ends. */
module MachineProgress {
  import opened Collections
  import opened MachineSteps
  import MachineReadiness
  import MachineScope
  import Names

  datatype State = State(c: Cloud, st: Status)

  /** Instance identifiers are set, handed out, and each for one instance. */
  ghost predicate Sound(c: Cloud) {
    && (forall i :: 0 <= i < |c.instances| ==> c.instances[i].id != "" && c.instances[i].id in c.used)
    && forall i, j :: 0 <= i < j < |c.instances| ==> c.instances[i].id != c.instances[j].id
  }

  /** Every call succeeds, and identifiers are new. */
  ghost predicate Serves(f: Oracle, c: Cloud) {
    forall k :: f(k).outcome.Ok? && f(k).id != "" && f(k).id !in c.used
  }

  /** Between passes instances keep identifier and name and come up in their own time; pools and members
      may change in any way. */
  ghost predicate Tick(c: Cloud, c': Cloud) {
    && |c'.instances| == |c.instances| && c.used <= c'.used
    && forall i :: 0 <= i < |c.instances| ==>
         && c'.instances[i].id == c.instances[i].id && c'.instances[i].name == c.instances[i].name
         && (c.instances[i].power.Active? ==> c'.instances[i].power.Active?)
  }

  function PassOver(sp: Spec, cx: Context, s: State, f: Oracle): (Cloud, Pass, nat) {
    Finish(sp, cx, f, 0, s.c, Begin(sp, cx, s.st))
  }

  /** Step `k` of the infinite run `ss` is a saved pass whose calls `fs(k)` answers, then a tick. */
  ghost predicate Steps(sp: Spec, cx: Context, ss: nat -> State, fs: nat -> Oracle, k: nat) {
    && Serves(fs(k), ss(k).c)
    && var (c1, p, n) := PassOver(sp, cx, ss(k), fs(k));
       Tick(c1, ss(k + 1).c) && ss(k + 1).st == p.st
  }

  /** Pass `k` had got hold of an instance and left the machine Ready. */
  ghost predicate ReadyAt(sp: Spec, cx: Context, ss: nat -> State, fs: nat -> Oracle, k: nat) {
    var p := PassOver(sp, cx, ss(k), fs(k)).1;
    p.instance.Some? && p.st.ready
  }

  ghost predicate ReadyFrom(sp: Spec, cx: Context, ss: nat -> State, fs: nat -> Oracle, n: nat) {
    forall k: nat :: k >= n ==> ReadyAt(sp, cx, ss, fs, k)
  }

  ghost predicate UpAt(s: State, i: nat) { i < |s.c.instances| && s.c.instances[i].power.Active? }

  /** Every instance comes up sooner or later. */
  ghost predicate AllStart(ss: nat -> State) {
    forall n: nat, i: nat :: i < |ss(n).c.instances| ==> ComesUp(ss, n, i)
  }

  ghost predicate ComesUp(ss: nat -> State, n: nat, i: nat) { exists m: nat :: m >= n && UpAt(ss(m), i) }

  // ---- A pass that has got hold of an instance ----

  ghost predicate Registering(pc: Pc) {
    pc.ListApi? || pc.AddApi? || pc.FindPool? || pc.ListRegister? || pc.AddRegister? || pc.End?
  }

  /** Registration changes no instance and nothing of the status but member IDs. */
  ghost predicate OnlyMembers(c: Cloud, p: Pass, c': Cloud, p': Pass) {
    && c'.instances == c.instances && c.used <= c'.used && p'.instance == p.instance
    && p'.st == p.st.(apiMember := p'.st.apiMember, registerMember := p'.st.registerMember)
  }

  lemma {:induction false} RegistrationKeeps(sp: Spec, cx: Context, f: Oracle, n: nat, c: Cloud, p: Pass)
    requires Registering(p.pc)
    ensures var (c', p', m) := Finish(sp, cx, f, n, c, p); OnlyMembers(c, p, c', p')
    decreases Rank(p.pc)
  {
    if !p.pc.End? {
      hide MemberAt, PoolByName;
      var (c1, p1) := Step(sp, cx, c, p, f(n));
      assert Registering(p1.pc) && OnlyMembers(c, p, c1, p1);
      RegistrationKeeps(sp, cx, f, n + 1, c1, p1);
    }
  }

  /** The pass ended with this instance in hand, and instances as they were. */
  ghost predicate Handled(r: (Cloud, Pass, nat), c: Cloud, st: Status, x: Instance) {
    && r.0.instances == c.instances && c.used <= r.0.used && r.1.instance == Some(x)
    && r.1.st.instanceId == x.id && r.1.st.finalizer == st.finalizer && (r.1.st.ready <==> x.power.Active?)
  }

  lemma HandleEnds(sp: Spec, cx: Context, f: Oracle, n: nat, c: Cloud, st: Status, x: Instance)
    ensures Handled(Finish(sp, cx, f, n, c, Handle(sp, cx, Pass(st, None, FindByName), x)), c, st, x)
  {
    hide Finish, PrivateIp, Addresses;
    RegistrationKeeps(sp, cx, f, n, c, Handle(sp, cx, Pass(st, None, FindByName), x));
  }

  // ---- What a pass does, by what it finds ----

  ghost predicate Runs(cx: Context) { !cx.paused && cx.infraReady && cx.bootstrap }

  ghost predicate OnRecord(c: Cloud, st: Status) { st.instanceId != "" && InstanceById(c, st.instanceId).Some? }

  lemma RecordedPass(sp: Spec, cx: Context, f: Oracle, c: Cloud, st: Status)
    requires Serves(f, c) && Runs(cx) && st.finalizer && OnRecord(c, st)
    ensures Handled(PassOver(sp, cx, State(c, st), f), c, st, InstanceById(c, st.instanceId).value)
  {
    hide Finish, InstanceById, Handle, Handled;
    MachineScope.GetRecordedCall(sp, cx, f, 0, c, st);
    assert f(0).outcome.Ok?;
    HandleEnds(sp, cx, f, 1, c, st, InstanceById(c, st.instanceId).value);
  }

  /** The pass gave up: no instance to adopt, and none on record any more. */
  ghost predicate GaveUp(r: (Cloud, Pass, nat), c: Cloud, st: Status) {
    r.0 == c && r.1.instance.None? && r.1.st == st.(instanceId := "") && r.1.pc == End(Error)
  }

  /** The pass created an instance and put it on record. */
  ghost predicate Made(r: (Cloud, Pass, nat), c: Cloud, st: Status, x: Instance) {
    && r.0 == c.(instances := c.instances + [x], used := c.used + {x.id})
    && r.1.instance.None? && r.1.st == st.(instanceId := x.id) && x.id != "" && x.id !in c.used
    && x.power.Build? && r.1.pc == End(Requeue)
  }

  /** An instance is named cluster-machine where that is a legal label. */
  lemma InstanceNamed(sp: Spec)
    requires Names.IsLabel(sp.cluster + "-" + sp.machine)
    ensures InstanceName(sp) == sp.cluster + "-" + sp.machine
  {
    Names.InstanceNamed(sp.cluster, sp.machine);
  }

  /** A pass that may not run yet makes no call: it ends when paused, ends with the finalizer added, or waits
      for infrastructure and bootstrap data. */
  lemma NotYetRun(sp: Spec, cx: Context, f: Oracle, c: Cloud, st: Status)
    requires !Runs(cx) || !st.finalizer
    ensures var (c', p, n) := PassOver(sp, cx, State(c, st), f);
            && c' == c && n == 0 && p.instance.None?
            && (p.st.finalizer <==> st.finalizer || !cx.paused)
            && p.pc == End(if !cx.paused && st.finalizer then Requeue else Done)
  {
  }

  /** Without an instance on record a pass adopts the one it is told to or the first of the name, gives up
      if there is nothing to adopt, and otherwise creates one. */
  lemma SearchPass(sp: Spec, cx: Context, f: Oracle, c: Cloud, st: Status)
    requires Serves(f, c) && Runs(cx) && st.finalizer && !OnRecord(c, st)
    ensures var r := PassOver(sp, cx, State(c, st), f);
            if sp.existing != "" then
              (if InstanceById(c, sp.existing).Some? then Handled(r, c, st, InstanceById(c, sp.existing).value) else GaveUp(r, c, st))
            else if InstanceByName(c, InstanceName(sp)).Some? then Handled(r, c, st, InstanceByName(c, InstanceName(sp)).value)
            else exists x :: Made(r, c, st, x) && x.name == InstanceName(sp)
  {
    hide Finish, InstanceById, InstanceByName, InstanceName, Handle, Handled;
    var st1 := st.(instanceId := "");
    var n: nat := if st.instanceId != "" then 1 else 0;
    MachineScope.GetRecordedCall(sp, cx, f, 0, c, st);
    assert f(0).outcome.Ok? && f(1).outcome.Ok?;
    assert PassOver(sp, cx, State(c, st), f) == Finish(sp, cx, f, n, c, Pass(st1, None, AfterRecorded(sp)));
    if sp.existing != "" {
      MachineScope.GetAdoptedCall(sp, cx, f, n, c, st1);
      if InstanceById(c, sp.existing).Some? { AnyStatus(sp, cx, f, n + 1, c, st, st1, InstanceById(c, sp.existing).value); }
    } else {
      MachineScope.FindByNameCall(sp, cx, f, n, c, st1);
      if InstanceByName(c, InstanceName(sp)).Some? {
        AnyStatus(sp, cx, f, n + 1, c, st, st1, InstanceByName(c, InstanceName(sp)).value);
      } else {
        CreateEnds(sp, cx, f, n + 1, c, st1);
        assert Made(PassOver(sp, cx, State(c, st), f), c, st, Instance(f(n + 2).id, InstanceName(sp), Build, []));
      }
    }
  }

  /** The search for an instance fails: with an error on the recorded one that is not a 404, without the one
      to adopt, or with an error on the way from the lookup by name to the creation. */
  ghost predicate SearchFails(sp: Spec, f: Oracle, c: Cloud, st: Status) {
    var k := if st.instanceId != "" then 1 else 0;
    || (k == 1 && f(0).outcome.Fail?)
    || (!(k == 1 && Up(f(0)) && InstanceById(c, st.instanceId).Some?)
        && if sp.existing != "" then !(Up(f(k)) && InstanceById(c, sp.existing).Some?)
           else !Up(f(k)) || (InstanceByName(c, InstanceName(sp)).None? && !(Up(f(k + 1)) && Up(f(k + 2)))))
  }

  /** Whatever is answered, a pass fails exactly when its search does: registration never fails a pass. */
  lemma PassFailsIff(sp: Spec, cx: Context, f: Oracle, c: Cloud, st: Status)
    ensures PassOver(sp, cx, State(c, st), f).1.pc == End(Error) <==> Runs(cx) && st.finalizer && SearchFails(sp, f, c, st)
  {
    hide Finish, InstanceById, InstanceByName, InstanceName, Handle, Handled;
    if !Runs(cx) || !st.finalizer {
      MachineReadiness.AtEnd(sp, cx, f, c, Begin(sp, cx, st));
    } else {
      var st1 := st.(instanceId := "");
      var k: nat := if st.instanceId != "" then 1 else 0;
      forall x, m: nat, st2 ensures Finish(sp, cx, f, m, c, Handle(sp, cx, Pass(st2, None, FindByName), x)).1.pc != End(Error) {
        HandleNeverFails(sp, cx, f, m, c, Pass(st2, None, FindByName), x);
      }
      if k == 1 { MachineScope.GetRecordedCall(sp, cx, f, 0, c, st); }
      if !(k == 1 && (f(0).outcome.Fail? || (Up(f(0)) && InstanceById(c, st.instanceId).Some?))) {
        assert PassOver(sp, cx, State(c, st), f) == Finish(sp, cx, f, k, c, Pass(st1, None, AfterRecorded(sp)));
        MachineScope.GetAdoptedCall(sp, cx, f, k, c, st1);
        MachineScope.FindByNameCall(sp, cx, f, k, c, st1);
        CreateCalls(sp, cx, f, k + 1, c, st1);
      }
    }
  }

  lemma CreateCalls(sp: Spec, cx: Context, f: Oracle, n: nat, c: Cloud, st: Status)
    ensures Finish(sp, cx, f, n, c, Pass(st, None, Resolve)).1.pc == End(Error) <==> !(Up(f(n)) && Up(f(n + 1)))
  {
    hide Finish, InstanceName;
    MachineScope.CallOnce(sp, cx, f, n, c, Pass(st, None, Resolve));
    if Up(f(n)) { MachineScope.CallOnce(sp, cx, f, n + 1, c, Pass(st, None, Create)); }
  }

  lemma HandleNeverFails(sp: Spec, cx: Context, f: Oracle, n: nat, c: Cloud, q: Pass, x: Instance)
    ensures Finish(sp, cx, f, n, c, Handle(sp, cx, q, x)).1.pc != End(Error)
  {
    hide Finish, PrivateIp, Addresses;
    RestNeverFails(sp, cx, f, n, c, Handle(sp, cx, q, x));
  }

  lemma {:induction false} RestNeverFails(sp: Spec, cx: Context, f: Oracle, n: nat, c: Cloud, p: Pass)
    requires Registering(p.pc) && p.pc != End(Error)
    ensures Finish(sp, cx, f, n, c, p).1.pc != End(Error)
    decreases Rank(p.pc)
  {
    if !p.pc.End? {
      hide MemberAt, PoolByName;
      var (c1, p1) := Step(sp, cx, c, p, f(n));
      RestNeverFails(sp, cx, f, n + 1, c1, p1);
    }
  }

  lemma AnyStatus(sp: Spec, cx: Context, f: Oracle, n: nat, c: Cloud, st: Status, st1: Status, x: Instance)
    requires st1.finalizer == st.finalizer
    ensures Handled(Finish(sp, cx, f, n, c, Handle(sp, cx, Pass(st1, None, FindByName), x)), c, st, x)
  {
    hide Finish, Handle;
    HandleEnds(sp, cx, f, n, c, st1, x);
  }

  lemma CreateEnds(sp: Spec, cx: Context, f: Oracle, n: nat, c: Cloud, st: Status)
    requires f(n).outcome.Ok? && f(n + 1).outcome.Ok?
    ensures var x := Instance(f(n + 1).id, InstanceName(sp), Build, []);
            Finish(sp, cx, f, n, c, Pass(st, None, Resolve))
            == (c.(instances := c.instances + [x], used := c.used + {x.id}), Pass(st.(instanceId := x.id), None, End(Requeue)), n + 2)
  {
    hide Finish, InstanceName;
    MachineScope.CallOnce(sp, cx, f, n, c, Pass(st, None, Resolve));
    MachineScope.CallOnce(sp, cx, f, n + 1, c, Pass(st, None, Create));
  }

  // ---- Runs ----

  /** The machine has instance number `i` on record. */
  ghost predicate Has(s: State, i: nat) {
    Sound(s.c) && s.st.finalizer && i < |s.c.instances| && s.c.instances[i].id == s.st.instanceId
  }

  ghost predicate HasOne(s: State) { exists i: nat :: Has(s, i) }

  lemma FirstById(c: Cloud, i: nat)
    requires Sound(c) && i < |c.instances|
    ensures InstanceById(c, c.instances[i].id) == Some(c.instances[i])
  {
    FirstIs(c.instances, (x: Instance) => x.id == c.instances[i].id, i);
  }

  lemma ByIdAt(c: Cloud, id: string)
    ensures InstanceById(c, id).Some? ==> exists i: nat :: i < |c.instances| && c.instances[i] == InstanceById(c, id).value && c.instances[i].id == id
  {
  }

  lemma ByNameAt(c: Cloud, name: string)
    ensures InstanceByName(c, name).Some? ==> exists i: nat :: i < |c.instances| && c.instances[i] == InstanceByName(c, name).value
  {
  }

  lemma TickSound(c: Cloud, c': Cloud)
    requires Sound(c) && Tick(c, c')
    ensures Sound(c')
  {
    forall i, j | 0 <= i < j < |c'.instances| ensures c'.instances[i].id != c'.instances[j].id {
      assert c.instances[i].id != c.instances[j].id;
    }
  }

  lemma HandledHas(r: (Cloud, Pass, nat), s: State, i: nat, s': State)
    requires Sound(s.c) && s.st.finalizer && i < |s.c.instances| && Handled(r, s.c, s.st, s.c.instances[i])
    requires Tick(r.0, s'.c) && s'.st == r.1.st
    ensures Has(s', i)
  {
    TickSound(r.0, s'.c);
  }

  /** A machine keeps the instance it has, and each pass reports that instance. */
  lemma HasKept(sp: Spec, cx: Context, ss: nat -> State, fs: nat -> Oracle, k: nat, i: nat)
    requires Steps(sp, cx, ss, fs, k) && Runs(cx) && Has(ss(k), i)
    ensures Has(ss(k + 1), i) && (UpAt(ss(k), i) ==> UpAt(ss(k + 1), i))
    ensures ReadyAt(sp, cx, ss, fs, k) <==> UpAt(ss(k), i)
  {
    hide PassOver, InstanceById;
    var s := ss(k);
    FirstById(s.c, i);
    RecordedPass(sp, cx, fs(k), s.c, s.st);
    HandledHas(PassOver(sp, cx, s, fs(k)), s, i, ss(k + 1));
  }

  lemma {:induction false} HasForever(sp: Spec, cx: Context, ss: nat -> State, fs: nat -> Oracle, n: nat, m: nat, i: nat)
    requires (forall k: nat :: Steps(sp, cx, ss, fs, k)) && Runs(cx) && Has(ss(n), i) && n <= m
    ensures Has(ss(m), i) && (UpAt(ss(n), i) ==> UpAt(ss(m), i))
  {
    hide Has, UpAt, Steps;
    if n < m {
      HasForever(sp, cx, ss, fs, n, m - 1, i);
      assert Steps(sp, cx, ss, fs, m - 1) && m - 1 + 1 == m;
      HasKept(sp, cx, ss, fs, m - 1, i);
    }
  }

  /** From there the machine becomes Ready, and stays so. */
  lemma HasConverges(sp: Spec, cx: Context, ss: nat -> State, fs: nat -> Oracle, n: nat, i: nat)
    requires (forall k: nat :: Steps(sp, cx, ss, fs, k)) && Runs(cx) && Has(ss(n), i) && AllStart(ss)
    ensures exists m: nat :: ReadyFrom(sp, cx, ss, fs, m)
  {
    assert ComesUp(ss, n, i);
    var m: nat :| m >= n && UpAt(ss(m), i);
    hide Has, UpAt, Steps, ReadyAt;
    HasForever(sp, cx, ss, fs, n, m, i);
    forall k: nat | k >= m ensures ReadyAt(sp, cx, ss, fs, k) {
      HasForever(sp, cx, ss, fs, m, k, i);
      assert Steps(sp, cx, ss, fs, k);
      HasKept(sp, cx, ss, fs, k, i);
    }
    assert ReadyFrom(sp, cx, ss, fs, m);
  }

  /** There is, or can be, an instance to handle: on record, adoptable, or to be found or created by name. */
  ghost predicate Obtainable(sp: Spec, s: State) {
    OnRecord(s.c, s.st) || sp.existing == "" || InstanceById(s.c, sp.existing).Some?
  }

  /** One pass of a machine that has its finalizer puts an instance on record if there is one to be had. */
  lemma GetsHold(sp: Spec, cx: Context, ss: nat -> State, fs: nat -> Oracle, k: nat)
    requires Steps(sp, cx, ss, fs, k) && Runs(cx) && Sound(ss(k).c) && ss(k).st.finalizer && Obtainable(sp, ss(k))
    ensures HasOne(ss(k + 1))
  {
    hide PassOver, InstanceById, InstanceByName, InstanceName, Has;
    var s, f := ss(k), fs(k);
    var r := PassOver(sp, cx, s, f);
    ByIdAt(s.c, s.st.instanceId);
    ByIdAt(s.c, sp.existing);
    ByNameAt(s.c, InstanceName(sp));
    if OnRecord(s.c, s.st) {
      RecordedPass(sp, cx, f, s.c, s.st);
      var i: nat :| i < |s.c.instances| && s.c.instances[i] == InstanceById(s.c, s.st.instanceId).value;
      HandledHas(r, s, i, ss(k + 1));
    } else {
      SearchPass(sp, cx, f, s.c, s.st);
      if sp.existing != "" {
        var i: nat :| i < |s.c.instances| && s.c.instances[i] == InstanceById(s.c, sp.existing).value;
        HandledHas(r, s, i, ss(k + 1));
      } else if InstanceByName(s.c, InstanceName(sp)).Some? {
        var i: nat :| i < |s.c.instances| && s.c.instances[i] == InstanceByName(s.c, InstanceName(sp)).value;
        HandledHas(r, s, i, ss(k + 1));
      } else {
        var x :| Made(r, s.c, s.st, x);
        MadeHas(r, s, x, ss(k + 1));
      }
    }
  }

  lemma MadeHas(r: (Cloud, Pass, nat), s: State, x: Instance, s': State)
    requires Sound(s.c) && s.st.finalizer && Made(r, s.c, s.st, x)
    requires Tick(r.0, s'.c) && s'.st == r.1.st
    ensures Has(s', |s.c.instances|)
  {
    assert Sound(r.0);
    TickSound(r.0, s'.c);
  }

  /** Without its finalizer a machine gets it first; the search starts with the next pass. */
  lemma FirstPass(sp: Spec, cx: Context, ss: nat -> State, fs: nat -> Oracle, k: nat)
    requires Steps(sp, cx, ss, fs, k) && Runs(cx) && Sound(ss(k).c) && !ss(k).st.finalizer
    ensures var s' := ss(k + 1);
            && Sound(s'.c) && s'.st.finalizer && (Obtainable(sp, s') <==> Obtainable(sp, ss(k)))
            && !ReadyAt(sp, cx, ss, fs, k)
  {
    hide InstanceById;
    var s, s' := ss(k), ss(k + 1);
    TickSound(s.c, s'.c);
    SameIds(s.c, s'.c, s.st.instanceId);
    SameIds(s.c, s'.c, sp.existing);
  }

  lemma SameIds(c: Cloud, c': Cloud, id: string)
    requires Tick(c, c')
    ensures InstanceById(c', id).Some? <==> InstanceById(c, id).Some?
  {
    if InstanceById(c, id).Some? {
      var i :| 0 <= i < |c.instances| && c.instances[i].id == id;
      assert c'.instances[i].id == id;
    }
    if InstanceById(c', id).Some? {
      var i :| 0 <= i < |c'.instances| && c'.instances[i].id == id;
      assert c.instances[i].id == id;
    }
  }

  /** Nothing to be had, now or later. */
  ghost predicate Hopeless(sp: Spec, cx: Context, s: State) { Sound(s.c) && !(Runs(cx) && Obtainable(sp, s)) }

  lemma HopelessPass(sp: Spec, cx: Context, ss: nat -> State, fs: nat -> Oracle, k: nat)
    requires Steps(sp, cx, ss, fs, k) && Hopeless(sp, cx, ss(k))
    ensures Hopeless(sp, cx, ss(k + 1)) && !ReadyAt(sp, cx, ss, fs, k)
  {
    hide InstanceById, InstanceByName, InstanceName;
    var s, s' := ss(k), ss(k + 1);
    if !Runs(cx) {
      TickSound(s.c, s'.c);
    } else if !s.st.finalizer {
      FirstPass(sp, cx, ss, fs, k);
    } else {
      hide PassOver;
      SearchPass(sp, cx, fs(k), s.c, s.st);
      TickSound(s.c, s'.c);
      SameIds(s.c, s'.c, sp.existing);
    }
  }

  lemma {:induction false} NeverReady(sp: Spec, cx: Context, ss: nat -> State, fs: nat -> Oracle, n: nat)
    requires (forall k: nat :: Steps(sp, cx, ss, fs, k)) && Hopeless(sp, cx, ss(0))
    ensures Hopeless(sp, cx, ss(n)) && !ReadyAt(sp, cx, ss, fs, n)
  {
    hide Steps, Hopeless, ReadyAt;
    if n > 0 {
      NeverReady(sp, cx, ss, fs, n - 1);
      assert Steps(sp, cx, ss, fs, n - 1) && n - 1 + 1 == n;
      HopelessPass(sp, cx, ss, fs, n - 1);
    }
    assert Steps(sp, cx, ss, fs, n);
    HopelessPass(sp, cx, ss, fs, n);
  }

  /** In every infinite sequence of saved error-free passes, while instances come up in their own time,
      the machine becomes Ready and stays so exactly when it is not paused, infrastructure and bootstrap
      data are there, and there is an instance on record, to adopt, or to find or create by name. */
  lemma ConvergesIff(sp: Spec, cx: Context, ss: nat -> State, fs: nat -> Oracle)
    requires (forall k: nat :: Steps(sp, cx, ss, fs, k)) && Sound(ss(0).c) && AllStart(ss)
    ensures (exists m: nat :: ReadyFrom(sp, cx, ss, fs, m)) <==> Runs(cx) && Obtainable(sp, ss(0))
  {
    hide Steps, Obtainable, Sound, Has, ReadyAt, AllStart;
    if Runs(cx) && Obtainable(sp, ss(0)) {
      assert Steps(sp, cx, ss, fs, 0) && Steps(sp, cx, ss, fs, 1) && 0 + 1 == 1 && 1 + 1 == 2;
      var n: nat := if ss(0).st.finalizer then 0 else 1;
      if n == 1 { FirstPass(sp, cx, ss, fs, 0); }
      GetsHold(sp, cx, ss, fs, n);
      var i: nat :| Has(ss(n + 1), i);
      HasConverges(sp, cx, ss, fs, n + 1, i);
    } else {
      forall m: nat ensures !ReadyFrom(sp, cx, ss, fs, m) {
        assert Hopeless(sp, cx, ss(0));
        NeverReady(sp, cx, ss, fs, m);
        assert !ReadyAt(sp, cx, ss, fs, m);
      }
    }
  }

  // ---- Deletion ----

  /** Step `k` is a saved delete pass while the finalizer is there, every call answered; in
      between, and to the cloud, anything may happen. */
  ghost predicate DeleteSteps(sp: Spec, cx: Context, ss: nat -> State, fs: nat -> Oracle, k: nat) {
    && (forall j :: Up(fs(k)(j)))
    && ss(k + 1).st == if ss(k).st.finalizer then DeletePass(sp, cx, ss(k), fs(k)).1.st else ss(k).st
  }

  function DeletePass(sp: Spec, cx: Context, s: State, f: Oracle): (Cloud, Pass, nat) {
    Finish(sp, cx, f, 0, s.c, BeginDelete(sp, cx, s.st))
  }

  /** The pass finds nothing to wait for: told to keep, nothing on record, no such instance any more, or its
      DELETE takes effect at once. */
  ghost predicate NothingLeft(sp: Spec, cx: Context, s: State, f: Oracle) {
    || sp.keep || s.st.instanceId == "" || InstanceById(s.c, s.st.instanceId).None?
    || f(MachineReadiness.BeforeDelete(cx, s.st)).outcome.Ok?
  }

  lemma DeletePassEnds(sp: Spec, cx: Context, s: State, f: Oracle)
    requires (forall j :: Up(f(j))) && s.st.finalizer
    ensures var st' := DeletePass(sp, cx, s, f).1.st;
            (!st'.finalizer <==> NothingLeft(sp, cx, s, f)) && st'.instanceId == s.st.instanceId
  {
    hide Finish, InstanceById, Terminated;
    var st := s.st;
    if !sp.keep && st.instanceId != "" {
      var k := MachineReadiness.BeforeDelete(cx, st);
      assert Up(f(k)) && Up(f(k + 1));
      MachineReadiness.AtDelete(sp, cx, f, s.c, st);
      var c1, st1 := MachineReadiness.WithoutMember(cx, f, s.c, st), MachineReadiness.MemberSeenTo(cx, f, st);
      MachineScope.DeleteCalls(sp, cx, f, k, c1, st1);
      ReadAfter(s.c, c1, st.instanceId);
    } else {
      NoDelete(sp, cx, s, f);
    }
  }

  lemma NoDelete(sp: Spec, cx: Context, s: State, f: Oracle)
    requires s.st.finalizer && (sp.keep || s.st.instanceId == "")
    ensures var st' := DeletePass(sp, cx, s, f).1.st; !st'.finalizer && st'.instanceId == s.st.instanceId
  {
    var p := BeginDelete(sp, cx, s.st);
    if p.pc.RemoveMember? { MachineScope.CallOnce(sp, cx, f, 0, s.c, p); }
  }

  /** What the read after an answered DELETE shows. */
  lemma ReadAfter(c: Cloud, c1: Cloud, id: string)
    requires c1.instances == c.instances
    ensures forall power :: var x := InstanceById(Terminated(c1, id, power), id);
              if InstanceById(c, id).Some? then x.Some? && x.value.power == power else x.None?
  {
    forall power ensures var x := InstanceById(Terminated(c1, id, power), id);
                         if InstanceById(c, id).Some? then x.Some? && x.value.power == power else x.None?
    {
      var xs := Terminated(c1, id, power).instances;
      if InstanceById(c, id).Some? {
        var i :| 0 <= i < |c.instances| && c.instances[i].id == id;
        assert xs[i].id == id;
      } else {
        assert forall i :: 0 <= i < |xs| ==> xs[i].id == c.instances[i].id;
      }
    }
  }

  lemma {:induction false} StillOnRecord(sp: Spec, cx: Context, ss: nat -> State, fs: nat -> Oracle, n: nat)
    requires forall k: nat :: DeleteSteps(sp, cx, ss, fs, k)
    ensures ss(n).st.instanceId == ss(0).st.instanceId
    ensures ss(0).st.finalizer && (forall k :: 0 <= k < n ==> !NothingLeft(sp, cx, ss(k), fs(k))) ==> ss(n).st.finalizer
  {
    hide DeletePass, NothingLeft;
    if n > 0 {
      StillOnRecord(sp, cx, ss, fs, n - 1);
      assert DeleteSteps(sp, cx, ss, fs, n - 1) && n - 1 + 1 == n;
      if ss(n - 1).st.finalizer { DeletePassEnds(sp, cx, ss(n - 1), fs(n - 1)); }
    }
  }

  /** In every infinite sequence of saved answered delete passes, whatever happens to instances and members in
      between, the machine finalizer goes exactly if some pass finds nothing left to wait for. */
  lemma DeletionEndsIff(sp: Spec, cx: Context, ss: nat -> State, fs: nat -> Oracle)
    requires (forall k: nat :: DeleteSteps(sp, cx, ss, fs, k)) && ss(0).st.finalizer
    ensures (exists m: nat :: !ss(m).st.finalizer) <==> exists m: nat :: NothingLeft(sp, cx, ss(m), fs(m))
  {
    hide DeletePass, NothingLeft;
    if m: nat :| !ss(m).st.finalizer { StillOnRecord(sp, cx, ss, fs, m); }
    if m: nat :| NothingLeft(sp, cx, ss(m), fs(m)) {
      assert DeleteSteps(sp, cx, ss, fs, m);
      if ss(m).st.finalizer {
        DeletePassEnds(sp, cx, ss(m), fs(m));
        assert !ss(m + 1).st.finalizer;
      }
    }
  }
}
