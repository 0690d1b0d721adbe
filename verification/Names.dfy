/** Resource names and provider IDs (util/util.go). "Find by name" idempotence rests on
    these: a name must be legal, stable, and its own for each cluster and machine. */
module Names {
  const MAX_LABEL := 63

  predicate HasPrefix(s: string, prefix: string) { prefix <= s }

  predicate CleanChar(c: char) { 'a' <= c <= 'z' || '0' <= c <= '9' || c == '-' }

  /** Lower-casing as far as it reaches [a-z]: besides A-Z, only U+0130 and the Kelvin sign
      U+212A have an ASCII lower-case form. Every other character is replaced afterwards anyway. */
  function Lower(c: char): char {
    if 'A' <= c <= 'Z' then (c as int + 32) as char
    else if c as int == 0x130 then 'i'
    else if c as int == 0x212A then 'k'
    else c
  }

  function Sanitize(s: string): (r: string)
    ensures |r| == |s| && forall i :: 0 <= i < |r| ==> CleanChar(r[i])
  {
    seq(|s|, i requires 0 <= i < |s| => if CleanChar(Lower(s[i])) then Lower(s[i]) else '-')
  }

  function TrimLeft(s: string): string { if s != "" && s[0] == '-' then TrimLeft(s[1..]) else s }

  function TrimRight(s: string): string {
    if s != "" && s[|s| - 1] == '-' then TrimRight(s[..|s| - 1]) else s
  }

  function Join(parts: seq<string>): string {
    if parts == [] then "" else if |parts| == 1 then parts[0] else parts[0] + "-" + Join(parts[1..])
  }

  function GenerateName(parts: seq<string>): string {
    var name := TrimRight(TrimLeft(Sanitize(Join(parts))));
    if |name| > MAX_LABEL then TrimRight(name[..MAX_LABEL]) else name
  }

  /** Legal label: at most 63 of [a-z0-9-], no hyphen at either end. Unlike section 2.3.1 of
      RFC 1035 it may start with a digit or be empty. */
  predicate IsLabel(s: string) {
    && |s| <= MAX_LABEL
    && (forall i :: 0 <= i < |s| ==> CleanChar(s[i]))
    && (s != "" ==> s[0] != '-' && s[|s| - 1] != '-')
  }

  lemma {:induction false} TrimLeftKeeps(s: string)
    requires forall i :: 0 <= i < |s| ==> CleanChar(s[i])
    ensures var r := TrimLeft(s);
            |r| <= |s| && (forall i :: 0 <= i < |r| ==> CleanChar(r[i])) && (r != "" ==> r[0] != '-')
  {
    if s != "" && s[0] == '-' { TrimLeftKeeps(s[1..]); }
  }

  /** Trimming on the right leaves a prefix that does not end in a hyphen. */
  lemma {:induction false} TrimRightKeeps(s: string)
    ensures var r := TrimRight(s); r <= s && (r != "" ==> r[|r| - 1] != '-')
  {
    if s != "" && s[|s| - 1] == '-' { TrimRightKeeps(s[..|s| - 1]); }
  }

  /** Every generated name is a legal label. */
  lemma GeneratedIsLabel(parts: seq<string>)
    ensures IsLabel(GenerateName(parts))
  {
    var clean := Sanitize(Join(parts));
    TrimLeftKeeps(clean);
    var left := TrimLeft(clean);
    TrimRightKeeps(left);
    var name := TrimRight(left);
    if |name| > MAX_LABEL { TrimRightKeeps(name[..MAX_LABEL]); }
  }

  /** The generator leaves alone exactly the legal labels. */
  lemma GenerateFixesExactlyLabels(s: string)
    ensures GenerateName([s]) == s <==> IsLabel(s)
  {
    if IsLabel(s) {
      assert Sanitize(s) == s;
    } else {
      GeneratedIsLabel([s]);
    }
  }

  /** What a character of a name becomes: itself, the small letter of a capital, or a hyphen. */
  ghost predicate Becomes(a: char, b: char) {
    if 'a' <= a <= 'z' || '0' <= a <= '9' || a == '-' then b == a
    else if 'A' <= a <= 'Z' then 'a' <= b <= 'z' && b as int - 'a' as int == a as int - 'A' as int
    else if a as int == 0x130 then b == 'i'
    else if a as int == 0x212A then b == 'k'
    else b == '-'
  }

  /** A text whose characters become a legal label generates that label. */
  lemma GenerateSpells(s: string, t: string)
    requires IsLabel(t) && |s| == |t| && forall i :: 0 <= i < |s| ==> Becomes(s[i], t[i])
    ensures GenerateName([s]) == t
  {
    assert Sanitize(s) == t;
  }

  /** Generating a name from a generated name changes nothing. */
  lemma GenerateIdempotent(parts: seq<string>)
    ensures GenerateName([GenerateName(parts)]) == GenerateName(parts)
  {
    GeneratedIsLabel(parts);
    GenerateFixesExactlyLabels(GenerateName(parts));
  }

  function InstanceName(cluster: string, machine: string): string { GenerateName([cluster, machine]) }

  /** For names that make a legal label together, the instance is named cluster-machine. */
  lemma InstanceNamed(cluster: string, machine: string)
    requires IsLabel(cluster + "-" + machine)
    ensures InstanceName(cluster, machine) == cluster + "-" + machine
  {
    GenerateFixesExactlyLabels(cluster + "-" + machine);
    assert Join([cluster, machine]) == cluster + "-" + machine == Join([cluster + "-" + machine]);
  }

  /** Within one cluster, distinct machines whose joined names are legal labels get distinct instance names. */
  lemma InstanceNamesDistinct(cluster: string, m1: string, m2: string)
    requires IsLabel(cluster + "-" + m1) && IsLabel(cluster + "-" + m2)
    ensures InstanceName(cluster, m1) == InstanceName(cluster, m2) <==> m1 == m2
  {
    GenerateFixesExactlyLabels(cluster + "-" + m1);
    GenerateFixesExactlyLabels(cluster + "-" + m2);
    assert Join([cluster, m1]) == cluster + "-" + m1 == Join([cluster + "-" + m1]);
    assert Join([cluster, m2]) == cluster + "-" + m2 == Join([cluster + "-" + m2]);
    if cluster + "-" + m1 == cluster + "-" + m2 {
      assert m1 == (cluster + "-" + m1)[|cluster| + 1..];
      assert m2 == (cluster + "-" + m2)[|cluster| + 1..];
    }
  }

  /** Characters without a hyphen at either end: a label but for its length. */
  predicate IsClean(s: string) {
    s != "" && (forall i :: 0 <= i < |s| ==> CleanChar(s[i])) && s[0] != '-' && s[|s| - 1] != '-'
  }

  /** A label in the sense of section 2.3.1 of RFC 1035: it starts with a letter. */
  predicate IsDnsLabel(s: string) { IsLabel(s) && s != "" && 'a' <= s[0] <= 'z' }

  lemma {:induction false} TrimRightKeepsFirst(s: string)
    requires s != "" && s[0] != '-'
    ensures TrimRight(s) != "" && TrimRight(s)[0] == s[0]
  {
    if s[|s| - 1] == '-' { TrimRightKeepsFirst(s[..|s| - 1]); }
  }

  /** Instance names are such labels exactly for clusters whose name starts with a letter. */
  lemma InstanceNameIsDnsLabelIff(cluster: string, machine: string)
    requires IsClean(cluster)
    ensures IsDnsLabel(InstanceName(cluster, machine)) <==> 'a' <= cluster[0] <= 'z'
  {
    GeneratedIsLabel([cluster, machine]);
    assert Join([cluster, machine]) == cluster + "-" + machine;
    var s := Sanitize(cluster + "-" + machine);
    assert s[0] == cluster[0] && TrimLeft(s) == s;
    TrimRightKeepsFirst(s);
    var name := TrimRight(s);
    if |name| > MAX_LABEL { TrimRightKeepsFirst(name[..MAX_LABEL]); }
  }

  /** Trimming on the right reaches into a prefix only when nothing of the rest is left. */
  lemma {:induction false} TrimRightAfter(p: string, s: string)
    ensures TrimRight(p + s) == if TrimRight(s) == "" then TrimRight(p) else p + TrimRight(s)
  {
    if s == "" {
      assert p + s == p;
    } else {
      var n := |s| - 1;
      assert (p + s)[|p| + n] == s[n] && (p + s)[..|p| + n] == p + s[..n];
      if s[n] == '-' { TrimRightAfter(p, s[..n]); }
    }
  }

  /** Behind a common prefix, trimmed strings agree exactly when what follows does, trimmed. */
  lemma TrimRightEqual(p: string, s: string, t: string)
    ensures TrimRight(p + s) == TrimRight(p + t) <==> TrimRight(s) == TrimRight(t)
  {
    TrimRightAfter(p, s);
    TrimRightAfter(p, t);
    TrimRightKeeps(p);
    var x, y := TrimRight(s), TrimRight(t);
    assert x == (p + x)[|p|..] && y == (p + y)[|p|..];
  }

  /** Past 63 characters the generator looks at the first 63 only: two machines of a cluster share an
      instance name exactly when what is left of their names agrees once hyphens at its end are
      trimmed. Of a cluster name of 62 characters or more, nothing is left. */
  lemma LongNamesCollide(cluster: string, m1: string, m2: string)
    requires IsClean(cluster + "-" + m1) && IsClean(cluster + "-" + m2)
    requires |cluster + "-" + m1| > MAX_LABEL && |cluster + "-" + m2| > MAX_LABEL
    ensures var left := if |cluster| < MAX_LABEL - 1 then MAX_LABEL - 1 - |cluster| else 0;
            InstanceName(cluster, m1) == InstanceName(cluster, m2) <==> TrimRight(m1[..left]) == TrimRight(m2[..left])
  {
    CleanSurvives(cluster, m1);
    CleanSurvives(cluster, m2);
    if |cluster| < MAX_LABEL - 1 {
      var left := MAX_LABEL - 1 - |cluster|;
      assert (cluster + "-" + m1)[..MAX_LABEL] == (cluster + "-") + m1[..left];
      assert (cluster + "-" + m2)[..MAX_LABEL] == (cluster + "-") + m2[..left];
      TrimRightEqual(cluster + "-", m1[..left], m2[..left]);
    } else {
      assert (cluster + "-" + m1)[..MAX_LABEL] == (cluster + "-")[..MAX_LABEL] == (cluster + "-" + m2)[..MAX_LABEL];
    }
  }

  lemma CleanSurvives(a: string, b: string)
    requires IsClean(a + "-" + b)
    ensures TrimRight(TrimLeft(Sanitize(Join([a, b])))) == a + "-" + b
  {
  }

  // ---- Load balancer names and the reach of prefix cleanup ----

  function LbName(cluster: string): string { GenerateName(["capi", cluster, "lb"]) }

  const LB_SUFFIX := "-lb"

  lemma LbNameOfShort(a: string)
    requires IsClean(a) && |a| <= MAX_LABEL - 8
    ensures LbName(a) == "capi-" + a + "-lb"
  {
    var s := "capi-" + a + "-lb";
    assert Join(["capi", a, "lb"]) == s by {
      assert Join(["lb"]) == "lb";
      assert ["a", "lb"][1..] == ["lb"];
      assert [a, "lb"][1..] == ["lb"];
      assert ["capi", a, "lb"][1..] == [a, "lb"];
      assert Join([a, "lb"]) == a + "-" + "lb";
      assert Join(["capi", a, "lb"]) == "capi" + "-" + (a + "-" + "lb");
      assert "capi" + "-" + (a + "-" + "lb") == s;
    }
    assert IsLabel(s);
    GenerateFixesExactlyLabels(s);
    assert Join([s]) == s;
  }

  /** Deleting cluster `a` by name prefix reaches the load balancer of cluster `b` exactly
      when `b` is `a` or starts with `a` followed by "-lb". */
  lemma PrefixReach(a: string, b: string)
    requires IsClean(a) && IsClean(b) && |a| <= MAX_LABEL - 8 && |b| <= MAX_LABEL - 8
    ensures HasPrefix(LbName(b), LbName(a)) <==> b == a || HasPrefix(b, a + LB_SUFFIX)
  {
    LbNameOfShort(a);
    LbNameOfShort(b);
    var x, y := "capi-" + a + "-lb", "capi-" + b + "-lb";
    if x <= y {
      forall i | 0 <= i < |a| + 3 ensures i < |b| + 3 && (a + "-lb")[i] == (b + "-lb")[i] {
        assert x[i + 5] == (a + "-lb")[i] && y[i + 5] == (b + "-lb")[i];
      }
      assert forall i :: 0 <= i < |a| ==> a[i] == (a + "-lb")[i];
      assert (a + "-lb")[|a|] == '-' && (a + "-lb")[|a| + 1] == 'l' && (a + "-lb")[|a| + 2] == 'b';
      assert (b + "-lb")[|b|] == '-';
      if |b| == |a| {
        assert forall i :: 0 <= i < |a| ==> b[i] == (b + "-lb")[i];
        assert b == a;
      } else {
        assert |b| >= |a| + 3;
        assert forall i :: 0 <= i < |a| + 3 ==> b[i] == (b + "-lb")[i];
        assert a + "-lb" <= b;
      }
    }
    if a + "-lb" <= b {
      assert forall i :: 0 <= i < |x| ==> x[i] == y[i] by {
        forall i | 0 <= i < |x| ensures x[i] == y[i] {
          if i >= 5 { assert x[i] == (a + "-lb")[i - 5] == b[i - 5]; }
        }
      }
    }
  }

  /** A long cluster name loses the "-lb" suffix: two of them share one load balancer name, so that
      each adopts and deletes the other's, exactly when their first 58 characters agree once
      hyphens at the end are trimmed. */
  lemma LongClustersShareLb(a: string, b: string)
    requires IsClean(a) && IsClean(b) && |a| >= MAX_LABEL - 5 && |b| >= MAX_LABEL - 5
    ensures LbName(a) == LbName(b) <==> TrimRight(a[..MAX_LABEL - 5]) == TrimRight(b[..MAX_LABEL - 5])
  {
    LbNameOfLong(a);
    LbNameOfLong(b);
    assert ("capi-" + a + "-lb")[..MAX_LABEL] == "capi-" + a[..MAX_LABEL - 5];
    assert ("capi-" + b + "-lb")[..MAX_LABEL] == "capi-" + b[..MAX_LABEL - 5];
    TrimRightEqual("capi-", a[..MAX_LABEL - 5], b[..MAX_LABEL - 5]);
  }

  lemma LbNameOfLong(a: string)
    requires IsClean(a) && |a| >= MAX_LABEL - 5
    ensures LbName(a) == TrimRight(("capi-" + a + "-lb")[..MAX_LABEL])
  {
    assert ["capi", a, "lb"][1..] == [a, "lb"] && [a, "lb"][1..] == ["lb"];
    assert Join(["lb"]) == "lb" && Join([a, "lb"]) == a + "-" + "lb";
    assert Join(["capi", a, "lb"]) == "capi" + "-" + (a + "-" + "lb") == "capi-" + a + "-lb";
    var s := "capi-" + a + "-lb";
    assert Sanitize(s) == s;
  }

  // ---- Provider IDs ----

  const SCHEME := "ovhcloud://"

  datatype Parsed = Valid(region: string, instance: string) | Invalid

  function ProviderId(region: string, instance: string): string { SCHEME + region + "/" + instance }

  /** Position of the first slash, or the length when there is none. */
  function Slash(s: string): (i: nat)
    ensures i <= |s| && (forall j :: 0 <= j < i ==> s[j] != '/') && (i < |s| ==> s[i] == '/')
  {
    if s == "" || s[0] == '/' then 0 else 1 + Slash(s[1..])
  }

  function ParseProviderId(p: string): Parsed {
    if !HasPrefix(p, SCHEME) then Invalid
    else
      var rest := p[|SCHEME|..];
      var i := Slash(rest);
      if i == |rest| || i == 0 || i + 1 == |rest| then Invalid
      else Valid(rest[..i], rest[i + 1..])
  }

  predicate Parseable(region: string, instance: string) {
    region != "" && instance != "" && '/' !in region
  }

  /** A provider ID is the scheme, the region and the instance. */
  lemma ProviderIdSpelled(region: string, instance: string)
    ensures ProviderId(region, instance) == "ovhcloud://" + region + "/" + instance
  {
  }

  /** Parsing undoes building on exactly the pairs with a nonempty slash-free region and a nonempty ID. */
  lemma ParseUndoesBuild(region: string, instance: string)
    ensures ParseProviderId(ProviderId(region, instance)) == Valid(region, instance) <==> Parseable(region, instance)
  {
    var p := ProviderId(region, instance);
    var rest := region + "/" + instance;
    assert p == SCHEME + rest;
    assert p[|SCHEME|..] == rest;
    var i := Slash(rest);
    assert rest[|region|] == '/';
    assert i <= |region|;
    if '/' in region {
      var k :| 0 <= k < |region| && region[k] == '/';
      assert rest[k] == '/' && i <= k;
    } else {
      assert forall j :: 0 <= j < |region| ==> rest[j] == region[j];
      assert i == |region|;
      assert rest[..i] == region && rest[i + 1..] == instance;
    }
  }

  /** Building undoes parsing on every provider ID that parses, and what it yields is parseable. */
  lemma BuildUndoesParse(p: string)
    requires ParseProviderId(p).Valid?
    ensures var q := ParseProviderId(p); Parseable(q.region, q.instance) && ProviderId(q.region, q.instance) == p
  {
  }
}
