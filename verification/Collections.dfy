/** Options, first-match scans, counting and filtering: the shapes in which the
    OVH client reads a listing. */
module Collections {

  datatype Option<+T> = None | Some(value: T)

  /** The first element satisfying `p`, as every Find*ByName scan returns it. */
  function First<T>(s: seq<T>, p: T -> bool): (r: Option<T>)
    ensures r.None? ==> forall i :: 0 <= i < |s| ==> !p(s[i])
    ensures r.Some? ==> r.value in s && p(r.value)
    ensures r.Some? ==> exists i :: 0 <= i < |s| && s[i] == r.value && forall j :: 0 <= j < i ==> !p(s[j])
  {
    if s == [] then None
    else if p(s[0]) then Some(s[0])
    else
      var r := First(s[1..], p);
      assert r.Some? ==> exists i :: 0 <= i < |s| - 1 && s[1..][i] == r.value && forall j :: 0 <= j < i ==> !p(s[1..][j]);
      assert forall j :: 0 < j < |s| ==> s[j] == s[1..][j - 1];
      assert r.Some? ==> exists k :: 0 <= k < |s| && s[k] == r.value && forall j :: 0 <= j < k ==> !p(s[j]) by {
        if r.Some? {
          var i :| 0 <= i < |s| - 1 && s[1..][i] == r.value && forall j :: 0 <= j < i ==> !p(s[1..][j]);
          assert s[i + 1] == r.value;
          assert forall j :: 0 <= j < i + 1 ==> !p(s[j]);
        }
      }
      r
  }

  /** Scans of two aligned lists stop at the same place. */
  lemma {:induction false} FirstAligned<T>(s: seq<T>, t: seq<T>, p: T -> bool)
    requires |s| == |t| && forall i :: 0 <= i < |s| ==> (p(s[i]) <==> p(t[i]))
    ensures First(s, p).Some? <==> First(t, p).Some?
    ensures First(s, p).Some? ==>
              exists i :: 0 <= i < |s| && s[i] == First(s, p).value && t[i] == First(t, p).value
  {
  }

  /** A scan that has passed over `i` elements stops at the next one satisfying `p`. */
  lemma FirstIs<T>(s: seq<T>, p: T -> bool, i: nat)
    requires i < |s| && p(s[i]) && forall j :: 0 <= j < i ==> !p(s[j])
    ensures First(s, p) == Some(s[i])
  {
  }

  lemma {:induction false} FirstAppend<T>(s: seq<T>, x: T, p: T -> bool)
    ensures First(s + [x], p) == if First(s, p).Some? then First(s, p) else if p(x) then Some(x) else None
  {
    if s != [] {
      assert (s + [x])[1..] == s[1..] + [x];
      FirstAppend(s[1..], x, p);
    }
  }

  /** How many elements satisfy `p`. */
  function Count<T>(s: seq<T>, p: T -> bool): nat {
    if s == [] then 0 else Count(s[..|s| - 1], p) + if p(s[|s| - 1]) then 1 else 0
  }

  lemma CountAppend<T>(s: seq<T>, x: T, p: T -> bool)
    ensures Count(s + [x], p) == Count(s, p) + if p(x) then 1 else 0
  {
  }

  lemma {:induction false} CountZero<T>(s: seq<T>, p: T -> bool)
    ensures Count(s, p) == 0 <==> forall i :: 0 <= i < |s| ==> !p(s[i])
  {
    if s != [] {
      var t := s[..|s| - 1];
      CountZero(t, p);
      assert forall i :: 0 <= i < |t| ==> t[i] == s[i];
    }
  }

  /** The elements satisfying `keep`, in order. */
  function Filter<T(!new)>(s: seq<T>, keep: T -> bool): (r: seq<T>)
    ensures forall x :: x in r <==> x in s && keep(x)
    ensures |r| <= |s|
  {
    if s == [] then []
    else
      assert s == s[..|s| - 1] + [s[|s| - 1]];
      Filter(s[..|s| - 1], keep) + if keep(s[|s| - 1]) then [s[|s| - 1]] else []
  }

  lemma {:induction false} CountFilter<T(!new)>(s: seq<T>, keep: T -> bool, p: T -> bool)
    ensures Count(Filter(s, keep), p) <= Count(s, p)
  {
    if s != [] {
      var x := s[|s| - 1];
      CountFilter(s[..|s| - 1], keep, p);
      if keep(x) {
        CountAppend(Filter(s[..|s| - 1], keep), x, p);
      } else {
        assert Filter(s, keep) == Filter(s[..|s| - 1], keep);
      }
    }
  }

  /** Rewriting that leaves `p` alone leaves the count. */
  lemma {:induction false} CountRewrite<T>(s: seq<T>, g: T -> T, p: T -> bool)
    requires forall x :: p(g(x)) == p(x)
    ensures Count(Rewrite(s, g), p) == Count(s, p)
  {
    if s != [] {
      var n := |s| - 1;
      CountRewrite(s[..n], g, p);
      assert Rewrite(s, g)[..n] == Rewrite(s[..n], g);
    }
  }

  /** No two elements share a key. */
  ghost predicate Distinct<T>(s: seq<T>, key: T -> nat) {
    forall i, j :: 0 <= i < j < |s| ==> key(s[i]) != key(s[j])
  }

  lemma {:induction false} FilterDistinct<T(!new)>(s: seq<T>, keep: T -> bool, key: T -> nat)
    requires Distinct(s, key)
    ensures Distinct(Filter(s, keep), key)
  {
    if s != [] {
      var n := |s| - 1;
      FilterDistinct(s[..n], keep, key);
      var r := Filter(s[..n], keep);
      forall i | 0 <= i < |r| ensures key(r[i]) != key(s[n]) {
        assert r[i] in r;
        var j :| 0 <= j < n && s[..n][j] == r[i];
        assert s[j] == r[i];
      }
    }
  }

  /** Scanning a filtered listing is scanning the whole for both conditions. */
  lemma {:induction false} FirstOfFilter<T(!new)>(s: seq<T>, keep: T -> bool, p: T -> bool, both: T -> bool)
    requires forall x :: both(x) == (keep(x) && p(x))
    ensures First(Filter(s, keep), p) == First(s, both)
  {
    if s != [] {
      var front, last := s[..|s| - 1], s[|s| - 1];
      FirstOfFilter(front, keep, p, both);
      assert s == front + [last];
      assert Filter(s, keep) == Filter(front, keep) + if keep(last) then [last] else [];
      hide First, Filter;
      FirstAppend(front, last, both);
      FirstAppend(Filter(front, keep), last, p);
      assert both(last) == (keep(last) && p(last));
      if !keep(last) { assert Filter(front, keep) + [] == Filter(front, keep); }
    }
  }

  /** Every element rewritten by `g`, in order. */
  function Rewrite<T>(s: seq<T>, g: T -> T): (r: seq<T>)
    ensures |r| == |s| && forall i :: 0 <= i < |s| ==> r[i] == g(s[i])
  {
    seq(|s|, i requires 0 <= i < |s| => g(s[i]))
  }
}
