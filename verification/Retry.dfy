/** The retrying OVH client (pkg/ovh/client.go): how many calls and how long, whatever the API answers. */
module Retry {

  const MAX_RETRIES := 5
  const INITIAL_BACKOFF := 2
  const MAX_BACKOFF := 60
  const LOOKUP_ATTEMPTS := 10

  /** A call succeeds, fails with an error that IsRetryable accepts, or fails for good. */
  datatype Verdict = Success | Transient | Permanent

  /** The verdict on the n-th call. */
  type Api = nat -> Verdict

  function Pow2(n: nat): nat { if n == 0 then 1 else 2 * Pow2(n - 1) }

  /** Seconds to wait after a failed attempt. */
  function Backoff(attempt: nat): nat {
    var grown := INITIAL_BACKOFF * Pow2(attempt);
    if grown < MAX_BACKOFF then grown else MAX_BACKOFF
  }

  datatype Ran = Ran(ok: bool, calls: nat, slept: nat)

  /** The attempts from number `attempt` on, the first of them being call `n`. */
  function Attempts(api: Api, n: nat, attempt: nat): Ran
    requires attempt <= MAX_RETRIES
    decreases MAX_RETRIES - attempt
  {
    match api(n)
    case Success => Ran(true, 1, 0)
    case Permanent => Ran(false, 1, 0)
    case Transient =>
      if attempt == MAX_RETRIES then Ran(false, 1, 0)
      else
        var rest := Attempts(api, n + 1, attempt + 1);
        Ran(rest.ok, 1 + rest.calls, Backoff(attempt) + rest.slept)
  }

  function RetryWithBackoff(api: Api, n: nat): Ran { Attempts(api, n, 0) }

  predicate Fleeting(api: Api, n: nat, j: nat) { api(n + j).Transient? }

  predicate Succeeds(api: Api, n: nat, j: nat) { api(n + j).Success? }

  ghost predicate AllTransient(api: Api, n: nat, count: nat) { forall j :: 0 <= j < count ==> Fleeting(api, n, j) }

  lemma Shifted(api: Api, n: nat, j: nat)
    ensures Fleeting(api, n, j + 1) == Fleeting(api, n + 1, j) && Succeeds(api, n, j + 1) == Succeeds(api, n + 1, j)
  {
  }

  /** The last call is the first that is not transient, or the last allowed; it decides. */
  ghost predicate Exact(api: Api, n: nat, left: nat, r: Ran) {
    && 1 <= r.calls <= left
    && AllTransient(api, n, r.calls - 1)
    && (r.ok <==> Succeeds(api, n, r.calls - 1))
    && (r.calls < left ==> !Fleeting(api, n, r.calls - 1))
  }

  lemma {:induction false} AttemptsExact(api: Api, n: nat, attempt: nat)
    requires attempt <= MAX_RETRIES
    ensures Exact(api, n, MAX_RETRIES + 1 - attempt, Attempts(api, n, attempt))
    decreases MAX_RETRIES - attempt
  {
    hide Backoff;
    assert Fleeting(api, n, 0) == api(n).Transient? && Succeeds(api, n, 0) == api(n).Success?;
    if api(n).Transient? && attempt < MAX_RETRIES {
      var rest := Attempts(api, n + 1, attempt + 1);
      AttemptsExact(api, n + 1, attempt + 1);
      Shifted(api, n, rest.calls - 1);
      hide Fleeting, Succeeds;
      forall j | 0 <= j < rest.calls ensures Fleeting(api, n, j) {
        if j > 0 { Shifted(api, n, j - 1); }
      }
    }
  }

  lemma {:induction false} AttemptsSlept(api: Api, n: nat, attempt: nat)
    requires attempt <= MAX_RETRIES
    ensures var r := Attempts(api, n, attempt); r.slept == Pow2(attempt + r.calls) - Pow2(attempt + 1)
    decreases MAX_RETRIES - attempt
  {
    if api(n).Transient? && attempt < MAX_RETRIES {
      var rest := Attempts(api, n + 1, attempt + 1);
      AttemptsSlept(api, n + 1, attempt + 1);
      CapNeverBinds(attempt);
      hide Backoff;
      assert Pow2(attempt + 2) == 2 * Pow2(attempt + 1);
      assert (attempt + 1) + rest.calls == attempt + (1 + rest.calls);
    }
  }

  /** The 60 s cap is out of reach: the longest backoff slept is 32 s. */
  lemma CapNeverBinds(attempt: nat)
    requires attempt < MAX_RETRIES
    ensures Backoff(attempt) == Pow2(attempt + 1) <= 32 < MAX_BACKOFF
  {
    assert Pow2(0) == 1 && Pow2(1) == 2 && Pow2(2) == 4 && Pow2(3) == 8 && Pow2(4) == 16 && Pow2(5) == 32;
  }

  /** One to six calls, 2^calls - 2 seconds of sleep and so at most 62, and success exactly when
      one of the first six calls succeeds after retryable failures only. */
  lemma RetryBounds(api: Api, n: nat)
    ensures var r := RetryWithBackoff(api, n);
            && 1 <= r.calls <= 6 && r.slept == Pow2(r.calls) - 2 && r.slept <= 62
            && (r.ok <==> exists k :: 0 <= k < 6 && Succeeds(api, n, k) && AllTransient(api, n, k))
  {
    AttemptsExact(api, n, 0);
    AttemptsSlept(api, n, 0);
    var r := RetryWithBackoff(api, n);
    hide Attempts, RetryWithBackoff;
    assert Pow2(1) == 2 && Pow2(2) == 4 && Pow2(3) == 8 && Pow2(4) == 16 && Pow2(5) == 32 && Pow2(6) == 64;
    var last: nat := r.calls - 1;
    if k :| 0 <= k < 6 && Succeeds(api, n, k) && AllTransient(api, n, k) {
      assert (k < last ==> Fleeting(api, n, k)) && (last < k ==> Fleeting(api, n, last));
    }
  }

  method Retry(api: Api, n: nat) returns (r: Ran)
    ensures r == RetryWithBackoff(api, n)
    ensures 1 <= r.calls <= 6 && r.slept <= 62
    ensures r.ok <==> exists k :: 0 <= k < 6 && Succeeds(api, n, k) && AllTransient(api, n, k)
  {
    r := RetryLoop(api, n);
    RetryBounds(api, n);
  }

  /** `r` is what the attempts from number `attempt` on add to the sleep so far. */
  predicate Continues(api: Api, n: nat, attempt: nat, slept: nat, all: Ran) {
    if attempt > MAX_RETRIES then all == Ran(false, attempt, slept)
    else
      var rest := Attempts(api, n + attempt, attempt);
      all == Ran(rest.ok, attempt + rest.calls, slept + rest.slept)
  }

  lemma OneAttempt(api: Api, n: nat, attempt: nat, slept: nat, all: Ran)
    requires attempt <= MAX_RETRIES && Continues(api, n, attempt, slept, all)
    ensures match api(n + attempt)
            case Success => all == Ran(true, attempt + 1, slept)
            case Permanent => all == Ran(false, attempt + 1, slept)
            case Transient => Continues(api, n, attempt + 1, if attempt < MAX_RETRIES then slept + Backoff(attempt) else slept, all)
  {
  }

  lemma FirstAndLast(api: Api, n: nat, slept: nat, all: Ran)
    ensures all == RetryWithBackoff(api, n) ==> Continues(api, n, 0, 0, all)
    ensures Continues(api, n, MAX_RETRIES + 1, slept, all) ==> all == Ran(false, MAX_RETRIES + 1, slept)
  {
  }

  method RetryLoop(api: Api, n: nat) returns (r: Ran)
    ensures r == RetryWithBackoff(api, n)
  {
    hide RetryWithBackoff, Attempts, Backoff, Continues;
    var slept: nat := 0;
    ghost var all := RetryWithBackoff(api, n);
    FirstAndLast(api, n, 0, all);
    for attempt := 0 to MAX_RETRIES + 1
      invariant Continues(api, n, attempt, slept, all)
    {
      OneAttempt(api, n, attempt, slept, all);
      match api(n + attempt) {
        case Success => return Ran(true, attempt + 1, slept);
        case Permanent => return Ran(false, attempt + 1, slept);
        case Transient => if attempt < MAX_RETRIES { slept := slept + Backoff(attempt); }
      }
    }
    FirstAndLast(api, n, slept, all);
    return Ran(false, MAX_RETRIES + 1, slept);
  }

  // ---- CreateLoadBalancer ----

  /** `shows(n)` tells whether a listing whose last call is number n - 1 shows the load balancer. */
  type Shows = nat -> bool

  datatype Kind = Listing | Posting

  /** One operation with its retries. */
  datatype Op = Op(kind: Kind, calls: nat)

  /** Whether a load balancer was found, calls made, seconds slept, and the operations in order. */
  datatype Created = Created(found: bool, calls: nat, slept: nat, ops: seq<Op>)

  function Poll(api: Api, shows: Shows, n: nat, attempt: nat): Created
    requires attempt <= LOOKUP_ATTEMPTS
    decreases LOOKUP_ATTEMPTS - attempt
  {
    if attempt == LOOKUP_ATTEMPTS then Created(false, 0, 0, [])
    else
      var list := RetryWithBackoff(api, n);
      var op := Op(Listing, list.calls);
      if !list.ok || shows(n + list.calls) then Created(list.ok, list.calls, list.slept, [op])
      else
        var rest := Poll(api, shows, n + list.calls, attempt + 1);
        Created(rest.found, list.calls + rest.calls, list.slept + 2 * (attempt + 1) + rest.slept, [op] + rest.ops)
  }

  function CreateLoadBalancer(api: Api, shows: Shows): Created {
    var list := RetryWithBackoff(api, 0);
    var first := [Op(Listing, list.calls)];
    if list.ok && shows(list.calls) then Created(true, list.calls, list.slept, first)
    else
      var post := RetryWithBackoff(api, list.calls);
      var n, two := list.calls + post.calls, first + [Op(Posting, post.calls)];
      if !post.ok then Created(false, n, list.slept + post.slept, two)
      else
        var poll := Poll(api, shows, n, 0);
        Created(poll.found, n + poll.calls, list.slept + post.slept + poll.slept, two + poll.ops)
  }

  /** The sleeps between lookups from number `attempt` on. */
  function Waits(attempt: nat): nat
    requires attempt <= LOOKUP_ATTEMPTS
    decreases LOOKUP_ATTEMPTS - attempt
  {
    if attempt == LOOKUP_ATTEMPTS then 0 else 2 * (attempt + 1) + Waits(attempt + 1)
  }

  lemma AllWaits()
    ensures Waits(0) == 110
  {
  }

  /** Only listings, so many at most, each with at most six requests. */
  ghost predicate Lookups(ops: seq<Op>, most: nat) {
    |ops| <= most && forall i :: 0 <= i < |ops| ==> ops[i].kind.Listing? && ops[i].calls <= 6
  }

  /** One to twelve operations, of which the second, if there is one, and no other is the POST, each with at
      most six requests. */
  ghost predicate PostSecond(ops: seq<Op>) {
    && 1 <= |ops| <= 2 + LOOKUP_ATTEMPTS
    && forall i :: 0 <= i < |ops| ==> (ops[i].kind.Posting? <==> i == 1) && ops[i].calls <= 6
  }

  /** Polling only lists, at most as often as there are attempts left. */
  lemma {:induction false} PollBounds(api: Api, shows: Shows, n: nat, attempt: nat)
    requires attempt <= LOOKUP_ATTEMPTS
    ensures var r := Poll(api, shows, n, attempt);
            r.slept <= 62 * (LOOKUP_ATTEMPTS - attempt) + Waits(attempt) && Lookups(r.ops, LOOKUP_ATTEMPTS - attempt)
    decreases LOOKUP_ATTEMPTS - attempt
  {
    hide RetryWithBackoff;
    if attempt < LOOKUP_ATTEMPTS {
      RetryBounds(api, n);
      var list := RetryWithBackoff(api, n);
      PollBounds(api, shows, n + list.calls, attempt + 1);
    }
  }

  lemma ListThenPost(first: nat, second: nat, rest: seq<Op>)
    requires first <= 6 && second <= 6 && Lookups(rest, LOOKUP_ATTEMPTS)
    ensures PostSecond([Op(Listing, first)]) && PostSecond([Op(Listing, first)] + [Op(Posting, second)])
    ensures PostSecond([Op(Listing, first)] + [Op(Posting, second)] + rest)
  {
  }

  /** The POST can only be the second operation, and is made exactly when the first listing fails or does
      not show the load balancer; all sleeps together stay within 12 * 62 + 110 = 854 s. */
  lemma CreateBounds(api: Api, shows: Shows)
    ensures var r := CreateLoadBalancer(api, shows);
            var first := RetryWithBackoff(api, 0);
            && r.slept <= 854 && PostSecond(r.ops)
            && (|r.ops| > 1 <==> !first.ok || !shows(first.calls)) && (|r.ops| == 1 ==> r.found)
  {
    hide RetryWithBackoff, Poll, Lookups, PostSecond;
    AllWaits();
    RetryBounds(api, 0);
    var list := RetryWithBackoff(api, 0);
    RetryBounds(api, list.calls);
    var post := RetryWithBackoff(api, list.calls);
    PollBounds(api, shows, list.calls + post.calls, 0);
    ListThenPost(list.calls, post.calls, Poll(api, shows, list.calls + post.calls, 0).ops);
  }

  /** `all` is what polling from attempt `attempt` on adds to the sleep and the operations so far. */
  predicate PollsOn(api: Api, shows: Shows, n: nat, attempt: nat, slept: nat, ops: seq<Op>, all: Created)
    requires attempt <= LOOKUP_ATTEMPTS
  {
    var rest := Poll(api, shows, n, attempt);
    all == Created(rest.found, n + rest.calls, slept + rest.slept, ops + rest.ops)
  }

  lemma OnePoll(api: Api, shows: Shows, n: nat, attempt: nat, slept: nat, ops: seq<Op>, all: Created)
    requires attempt < LOOKUP_ATTEMPTS && PollsOn(api, shows, n, attempt, slept, ops, all)
    ensures var list := RetryWithBackoff(api, n);
            var n', slept', now := n + list.calls, slept + list.slept, ops + [Op(Listing, list.calls)];
            if !list.ok || shows(n') then all == Created(list.ok, n', slept', now)
            else PollsOn(api, shows, n', attempt + 1, slept' + 2 * (attempt + 1), now, all)
  {
    var op := Op(Listing, RetryWithBackoff(api, n).calls);
    PollStep(api, shows, n, attempt);
    hide Poll, RetryWithBackoff;
    forall rest: seq<Op> ensures ops + ([op] + rest) == ops + [op] + rest { }
  }

  lemma PollStep(api: Api, shows: Shows, n: nat, attempt: nat)
    requires attempt < LOOKUP_ATTEMPTS
    ensures var list := RetryWithBackoff(api, n);
            Poll(api, shows, n, attempt) ==
              if !list.ok || shows(n + list.calls) then Created(list.ok, list.calls, list.slept, [Op(Listing, list.calls)])
              else
                var rest := Poll(api, shows, n + list.calls, attempt + 1);
                Created(rest.found, list.calls + rest.calls, list.slept + 2 * (attempt + 1) + rest.slept,
                        [Op(Listing, list.calls)] + rest.ops)
  {
    hide RetryWithBackoff;
  }

  /** Where polling starts and where it runs out of attempts. */
  lemma PollEnds(api: Api, shows: Shows, n: nat, slept: nat, ops: seq<Op>, all: Created)
    requires PollsOn(api, shows, n, LOOKUP_ATTEMPTS, slept, ops, all)
    ensures all == Created(false, n, slept, ops)
  {
    assert ops + [] == ops;
  }

  lemma PollStarts(api: Api, shows: Shows)
    ensures var list := RetryWithBackoff(api, 0);
            var post := RetryWithBackoff(api, list.calls);
            var r, first := CreateLoadBalancer(api, shows), [Op(Listing, list.calls)];
            var two := first + [Op(Posting, post.calls)];
            if list.ok && shows(list.calls) then r == Created(true, list.calls, list.slept, first)
            else if !post.ok then r == Created(false, list.calls + post.calls, list.slept + post.slept, two)
            else PollsOn(api, shows, list.calls + post.calls, 0, list.slept + post.slept, two, r)
  {
    hide RetryWithBackoff, Poll;
  }

  method Create(api: Api, shows: Shows) returns (r: Created)
    ensures r == CreateLoadBalancer(api, shows)
    ensures r.slept <= 854 && PostSecond(r.ops)
  {
    CreateBounds(api, shows);
    PollStarts(api, shows);
    hide RetryWithBackoff, Succeeds, AllTransient, PostSecond, PollsOn, Poll, CreateLoadBalancer;
    ghost var all := CreateLoadBalancer(api, shows);
    var list := Retry(api, 0);
    var ops := [Op(Listing, list.calls)];
    if list.ok && shows(list.calls) { return Created(true, list.calls, list.slept, ops); }
    var post := Retry(api, list.calls);
    ops := ops + [Op(Posting, post.calls)];
    var n: nat, slept: nat := list.calls + post.calls, list.slept + post.slept;
    if !post.ok { return Created(false, n, slept, ops); }
    for attempt := 0 to LOOKUP_ATTEMPTS
      invariant PollsOn(api, shows, n, attempt, slept, ops, all)
    {
      OnePoll(api, shows, n, attempt, slept, ops, all);
      var lookup := Retry(api, n);
      ops := ops + [Op(Listing, lookup.calls)];
      n, slept := n + lookup.calls, slept + lookup.slept;
      if !lookup.ok || shows(n) { return Created(lookup.ok, n, slept, ops); }
      slept := slept + 2 * (attempt + 1);
    }
    PollEnds(api, shows, n, slept, ops, all);
    return Created(false, n, slept, ops);
  }

  /** The bound is reached: every call needs all its retries and the load balancer never shows. */
  lemma {:induction false} SlowestPoll(n: nat, attempt: nat)
    requires attempt <= LOOKUP_ATTEMPTS && n % 6 == 0
    ensures Poll(Slow(), Hidden(), n, attempt).slept == 62 * (LOOKUP_ATTEMPTS - attempt) + Waits(attempt)
    decreases LOOKUP_ATTEMPTS - attempt
  {
    hide RetryWithBackoff, Slow;
    if attempt < LOOKUP_ATTEMPTS {
      SlowRetry(n);
      SlowestPoll(n + 6, attempt + 1);
    }
  }

  function Slow(): Api { (n: nat) => if n % 6 == 5 then Success else Transient }

  function Hidden(): Shows { (n: nat) => false }

  lemma SlowAt(n: nat, j: nat)
    requires n % 6 == 0 && j < 6
    ensures Fleeting(Slow(), n, j) == (j < 5) && Succeeds(Slow(), n, j) == (j == 5)
  {
  }

  lemma SlowRetry(n: nat)
    requires n % 6 == 0
    ensures RetryWithBackoff(Slow(), n) == Ran(true, 6, 62)
  {
    hide Slow, Fleeting, Succeeds, Attempts;
    var r := RetryWithBackoff(Slow(), n);
    RetryBounds(Slow(), n);
    AttemptsExact(Slow(), n, 0);
    var last: nat := r.calls - 1;
    SlowAt(n, last);
    assert Pow2(1) == 2 && Pow2(2) == 4 && Pow2(3) == 8 && Pow2(4) == 16 && Pow2(5) == 32 && Pow2(6) == 64;
  }

  lemma BoundReached()
    ensures CreateLoadBalancer(Slow(), Hidden()).slept == 854
  {
    hide RetryWithBackoff, Slow, Poll;
    SlowRetry(0);
    SlowRetry(6);
    AllWaits();
    SlowestPoll(12, 0);
  }
}
