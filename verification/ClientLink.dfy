/** The client's CreateLoadBalancer with its retries, and the cloud model's step in which each retried
    operation is one call: they agree on what is found, posted and called. */
module ClientLink {
  import opened Collections
  import opened OvhCloud
  import opened ClusterSteps
  import Retry

  /** The request with which operation number `k` starts, if operations follow one another. */
  function Start(api: Retry.Api, k: nat): nat {
    if k == 0 then 0
    else
      var before := Start(api, k - 1);
      before + Retry.RetryWithBackoff(api, before).calls
  }

  /** The world after operation number `k` of a creation that goes on as long as it can. */
  function After(f: Oracle, w: World, name: string, net: Id, k: nat): World {
    if k == 0 then ListLbs(f, w).1
    else if k == 1 then PostLb(f, ListLbs(f, w).1, name, net).1
    else ListLbs(f, After(f, w, name, net, k - 1)).1
  }

  /** Operation `k` with its retries succeeds exactly when call `w.n + k` of the cloud model does, and then a
      listing shows what the cloud has. */
  ghost predicate Refines(api: Retry.Api, shows: Retry.Shows, f: Oracle, w: World, name: string, net: Id, k: nat) {
    && (Retry.RetryWithBackoff(api, Start(api, k)).ok <==> Answered(f, w.n + k))
    && (shows(Start(api, k + 1)) <==> VisibleLbByName(After(f, w, name, net, k).c, name).Some?)
  }

  ghost predicate IdsSet(c: Cloud) { forall x :: x in c.lbs ==> x.id != UNSET }

  lemma ListIds(f: Oracle, w: World)
    requires IdsSet(w.c)
    ensures IdsSet(ListLbs(f, w).1.c) && ListLbs(f, w).1.n == w.n + 1 && (ListLbs(f, w).0 <==> Answered(f, w.n))
    ensures ListLbs(f, w).1.log == w.log
  {
  }

  lemma PostIds(f: Oracle, w: World, name: string, net: Id)
    requires IdsSet(w.c)
    ensures var (id, w') := PostLb(f, w, name, net);
            IdsSet(w'.c) && w'.n == w.n + 1 && (id != UNSET <==> Answered(f, w.n)) && |w'.log| == |w.log| + 1
  {
  }

  lemma {:induction false} AfterIds(f: Oracle, w: World, name: string, net: Id, k: nat)
    requires IdsSet(w.c)
    ensures IdsSet(After(f, w, name, net, k).c) && After(f, w, name, net, k).n == w.n + k + 1
  {
    hide IdsSet, ListLbs, PostLb;
    ListIds(f, w);
    PostIds(f, ListLbs(f, w).1, name, net);
    if k > 1 {
      AfterIds(f, w, name, net, k - 1);
      ListIds(f, After(f, w, name, net, k - 1));
    }
  }

  lemma FoundSet(c: Cloud, name: string)
    requires IdsSet(c) && VisibleLbByName(c, name).Some?
    ensures VisibleLbByName(c, name).value.id != UNSET
  {
  }

  lemma NextStart(api: Retry.Api, k: nat)
    ensures Start(api, k + 1) == Start(api, k) + Retry.RetryWithBackoff(api, Start(api, k)).calls
  {
  }

  /** Polling from operation `k` on, when `attempt` lookups have been made. */
  lemma {:induction false} PollLinks(api: Retry.Api, shows: Retry.Shows, f: Oracle, w: World, name: string, net: Id, attempt: nat)
    requires IdsSet(w.c) && attempt <= Retry.LOOKUP_ATTEMPTS
    requires forall k: nat :: Refines(api, shows, f, w, name, net, k)
    ensures var r := Retry.Poll(api, shows, Start(api, attempt + 2), attempt);
            var w1 := After(f, w, name, net, attempt + 1);
            var (id, w') := PollLb(f, w1, name, attempt);
            && (r.found <==> id != UNSET) && w'.n == w1.n + |r.ops|
            && Start(api, attempt + 2) + r.calls == Start(api, attempt + 2 + |r.ops|)
    decreases Retry.LOOKUP_ATTEMPTS - attempt
  {
    hide IdsSet, ListLbs, VisibleLbByName, Answered, Retry.RetryWithBackoff, Retry.Poll, Start, After;
    var k, n := attempt + 2, Start(api, attempt + 2);
    var w1 := After(f, w, name, net, attempt + 1);
    if attempt < Retry.LOOKUP_ATTEMPTS {
      assert Refines(api, shows, f, w, name, net, k);
      AfterIds(f, w, name, net, attempt + 1);
      NextAfter(f, w, name, net, attempt + 1);
      ListIds(f, w1);
      var w2 := ListLbs(f, w1).1;
      NextStart(api, k);
      Retry.PollStep(api, shows, n, attempt);
      if VisibleLbByName(w2.c, name).Some? { FoundSet(w2.c, name); }
      PollLinks(api, shows, f, w, name, net, attempt + 1);
    } else {
      NoPoll(api, shows, n);
    }
  }

  lemma NextAfter(f: Oracle, w: World, name: string, net: Id, k: nat)
    requires k > 0
    ensures After(f, w, name, net, k + 1) == ListLbs(f, After(f, w, name, net, k)).1
  {
  }

  lemma NoPoll(api: Retry.Api, shows: Retry.Shows, n: nat)
    ensures Retry.Poll(api, shows, n, Retry.LOOKUP_ATTEMPTS) == Retry.Created(false, 0, 0, [])
  {
  }

  /** With its retries the client finds, posts and calls exactly what the cloud model's step does. */
  lemma CreateLinks(api: Retry.Api, shows: Retry.Shows, f: Oracle, w: World, name: string, net: Id)
    requires IdsSet(w.c) && forall k: nat :: Refines(api, shows, f, w, name, net, k)
    ensures var r := Retry.CreateLoadBalancer(api, shows);
            var (id, w') := FindOrPostLb(f, w, name, net);
            && (r.found <==> id != UNSET) && w'.n == w.n + |r.ops| && r.calls == Start(api, |r.ops|)
            && (|r.ops| > 1 <==> w'.log != w.log)
  {
    hide IdsSet, ListLbs, PostLb, PollLb, VisibleLbByName, Answered, Retry.RetryWithBackoff, Retry.Poll, Start;
    assert Refines(api, shows, f, w, name, net, 0) && Refines(api, shows, f, w, name, net, 1);
    assert Start(api, 0) == 0 by { FirstStart(api); }
    NextStart(api, 0);
    NextStart(api, 1);
    ListIds(f, w);
    var w1 := ListLbs(f, w).1;
    assert w1 == After(f, w, name, net, 0);
    if VisibleLbByName(w1.c, name).Some? { FoundSet(w1.c, name); }
    PostIds(f, w1, name, net);
    var w2 := PostLb(f, w1, name, net).1;
    assert w2 == After(f, w, name, net, 1);
    PollLinks(api, shows, f, w, name, net, 0);
  }

  lemma FirstStart(api: Retry.Api)
    ensures Start(api, 0) == 0
  {
  }
}
