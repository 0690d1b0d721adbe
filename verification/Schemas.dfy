/** Flattening of a cluster-class variable's schema into an id-linked list
    (ui/pkg/capiovh/util/clusterclass-variables.js, makeSchemas), and reading it back. */
module Schemas {
  import opened Collections

  // ---- Schemas and their flat form ----

  /** An OpenAPI v3 schema. `extra` is additionalProperties; `true` there reads like an empty schema.
      Attributes may be undefined. */
  datatype Schema = Schema(kind: string, properties: Properties, items: Option<Schema>, extra: Option<Schema>)
  datatype Properties = Undefined | Defined(list: seq<Property>)
  datatype Property = Property(key: string, def: Schema)

  /** What an entry of resourceFields says: a definition kept as it is, an array or a map of a
      simple type, or an array, a map or an object described by another schema. */
  datatype Field = Kept(def: Schema) | SimpleArray(kind: string) | SimpleMap(kind: string)
                 | ArrayOf(id: nat) | MapOf(id: nat) | ObjectOf(id: nat)

  datatype Entry = Entry(key: string, field: Field)
  datatype Flat = Flat(id: nat, fields: seq<Entry>)

  /** The identifier 'ccvariable'. Random strings are numbered from 1 on in the order they are drawn. */
  const ROOT: nat := 0

  predicate Simple(kind: string) { kind == "string" || kind == "int" || kind == "boolean" }

  predicate SimpleSchema(s: Option<Schema>) { s.Some? && Simple(s.value.kind) }

  function Size(s: Schema): nat {
    1 + (if s.properties.Defined? then SizeAll(s.properties.list) else 0)
      + (if s.items.Some? then Size(s.items.value) else 0) + (if s.extra.Some? then Size(s.extra.value) else 0)
  }

  function SizeAll(ps: seq<Property>): nat { if ps == [] then 0 else 1 + Size(ps[0].def) + SizeAll(ps[1..]) }

  /** The properties that the schema generated for `s` lists. */
  function Listed(s: Schema): (r: seq<Property>)
    ensures SizeAll(r) < Size(s)
  {
    if s.kind == "array" then
      if s.items.Some? && s.items.value.properties.Defined? then s.items.value.properties.list else []
    else if s.extra.Some? && s.extra.value.properties.Defined? then s.extra.value.properties.list
    else if s.properties.Defined? then s.properties.list
    else []
  }

  /** The schema for `s` under identifier `id`, followed by those it needs; `n` is the next random string. */
  function Flatten(s: Schema, id: nat, n: nat): (seq<Flat>, nat)
    decreases Size(s), 1
  {
    var (fields, subs, n1) := FlattenAll(Listed(s), n);
    ([Flat(id, fields)] + subs, n1)
  }

  function FlattenAll(ps: seq<Property>, n: nat): (seq<Entry>, seq<Flat>, nat)
    decreases SizeAll(ps), 0
  {
    if ps == [] then ([], [], n)
    else
      var (field, subs, n1) := FlattenOne(ps[0].def, n);
      var (rest, more, n2) := FlattenAll(ps[1..], n1);
      ([Entry(ps[0].key, field)] + rest, subs + more, n2)
  }

  function FlattenOne(def: Schema, id: nat): (Field, seq<Flat>, nat)
    decreases Size(def), 2
  {
    if Simple(def.kind) then (Kept(def), [], id + 1)
    else if def.kind == "array" then
      if SimpleSchema(def.items) then (SimpleArray(def.items.value.kind), [], id + 1)
      else var (subs, n1) := Flatten(def, id, id + 1); (ArrayOf(id), subs, n1)
    else if def.extra.Some? then
      if SimpleSchema(def.extra) then (SimpleMap(def.extra.value.kind), [], id + 1)
      else var (subs, n1) := Flatten(def, id, id + 1); (MapOf(id), subs, n1)
    else var (subs, n1) := Flatten(def, id, id + 1); (ObjectOf(id), subs, n1)
  }

  /** The exported function. A variable that is an array itself gets a placeholder field whose
      schema lists the item properties as they are. */
  function MakeSchemas(s: Schema, placeholder: string): seq<Flat> {
    if s.kind == "array" then
      [Flat(ROOT, [Entry(placeholder, ArrayOf(1))]),
       Flat(1, seq(|Listed(s)|, i requires 0 <= i < |Listed(s)| => Entry(Listed(s)[i].key, Kept(Listed(s)[i].def))))]
    else Flatten(s, ROOT, 1).0
  }

  /** The placeholder of a variable that is an array of objects refers to a schema with every item property
      under its key, as it is. */
  lemma ArrayRoot(s: Schema, placeholder: string)
    requires s.kind == "array" && s.items.Some? && s.items.value.properties.Defined?
    ensures var list, ps := MakeSchemas(s, placeholder), s.items.value.properties.list;
            && |list| == 2 && list[0].fields == [Entry(placeholder, ArrayOf(list[1].id))] && list[0].id == ROOT != list[1].id
            && |list[1].fields| == |ps|
            && forall i :: 0 <= i < |ps| ==> list[1].fields[i] == Entry(ps[i].key, Kept(ps[i].def))
  {
  }

  /** makeSchemas as it runs: a loop over the properties that pushes what the recursive calls return. */
  method PushSchemas(s: Schema, id: nat, n: nat) returns (schemas: seq<Flat>, next: nat)
    ensures (schemas, next) == Flatten(s, id, n)
    decreases Size(s), 1
  {
    hide FlattenOne;
    var ps := Listed(s);
    var fields: seq<Entry>, pushed: seq<Flat> := [], [];
    next := n;
    assert ps[0..] == ps;
    for i := 0 to |ps|
      invariant SizeAll(ps[i..]) <= SizeAll(ps)
      invariant var (rest, more, n2) := FlattenAll(ps[i..], next);
                var (all, subs, n3) := FlattenAll(ps, n);
                all == fields + rest && subs == pushed + more && n3 == n2
    {
      assert ps[i..][0] == ps[i] && ps[i..][1..] == ps[i + 1..];
      var field, subs, n1 := PushOne(ps[i].def, next);
      next, fields, pushed := n1, fields + [Entry(ps[i].key, field)], pushed + subs;
    }
    assert ps[|ps|..] == [] && fields + [] == fields && pushed + [] == pushed;
    schemas := [Flat(id, fields)] + pushed;
  }

  method PushOne(def: Schema, subtype: nat) returns (field: Field, subs: seq<Flat>, next: nat)
    ensures (field, subs, next) == FlattenOne(def, subtype)
    decreases Size(def), 2
  {
    field, subs, next := Kept(def), [], subtype + 1;
    if Simple(def.kind) { return; }
    if def.kind == "array" && SimpleSchema(def.items) {
      field := SimpleArray(def.items.value.kind);
    } else if def.kind != "array" && SimpleSchema(def.extra) {
      field := SimpleMap(def.extra.value.kind);
    } else {
      subs, next := PushSchemas(def, subtype, next);
      field := if def.kind == "array" then ArrayOf(subtype) else if def.extra.Some? then MapOf(subtype) else ObjectOf(subtype);
    }
  }

  // ---- References ----

  function HasId(id: nat): Flat -> bool { (x: Flat) => x.id == id }

  function Target(f: Field): Option<nat> {
    match f
    case ArrayOf(id) => Some(id)
    case MapOf(id) => Some(id)
    case ObjectOf(id) => Some(id)
    case _ => None
  }

  ghost predicate DistinctIds(list: seq<Flat>, from: nat, to: nat) {
    && (forall i :: 0 <= i < |list| ==> from <= list[i].id < to)
    && (forall i, j :: 0 <= i < j < |list| ==> list[i].id != list[j].id)
  }

  lemma {:induction false} FlattenIds(s: Schema, id: nat, n: nat)
    requires id < n
    ensures var (list, n1) := Flatten(s, id, n);
            n <= n1 && |list| > 0 && list[0].id == id && DistinctIds(list[1..], n, n1)
    decreases Size(s), 1
  {
    FlattenAllIds(Listed(s), n);
    var (fields, subs, n1) := FlattenAll(Listed(s), n);
    assert Flatten(s, id, n).0[1..] == subs;
  }

  lemma DistinctAppend(a: seq<Flat>, b: seq<Flat>, from: nat, mid: nat, to: nat)
    requires from <= mid <= to && DistinctIds(a, from, mid) && DistinctIds(b, mid, to)
    ensures DistinctIds(a + b, from, to)
  {
  }

  lemma {:induction false} FlattenOneIds(def: Schema, id: nat)
    ensures var (field, subs, n1) := FlattenOne(def, id); id < n1 && DistinctIds(subs, id, n1)
    decreases Size(def), 2
  {
    hide Flatten;
    var (field, subs, n1) := FlattenOne(def, id);
    if Target(field).Some? {
      FlattenIds(def, id, id + 1);
      assert subs == [subs[0]] + subs[1..];
      DistinctAppend([subs[0]], subs[1..], id, id + 1, n1);
    }
  }

  lemma {:induction false} FlattenAllIds(ps: seq<Property>, n: nat)
    ensures var (fields, subs, n1) := FlattenAll(ps, n); n <= n1 && DistinctIds(subs, n, n1)
    decreases SizeAll(ps), 0
  {
    hide FlattenOne;
    if ps != [] {
      FlattenOneIds(ps[0].def, n);
      var (field, subs, n1) := FlattenOne(ps[0].def, n);
      FlattenAllIds(ps[1..], n1);
      var (rest, more, n2) := FlattenAll(ps[1..], n1);
      DistinctAppend(subs, more, n, n1, n2);
    }
  }

  /** Every reference made in a list of schemas is to a schema in `ids`. */
  ghost predicate RefersTo(fields: seq<Entry>, ids: seq<Flat>) {
    forall e :: e in fields && Target(e.field).Some? ==> exists x :: x in ids && x.id == Target(e.field).value
  }

  ghost predicate Closed(list: seq<Flat>, ids: seq<Flat>) { forall x :: x in list ==> RefersTo(x.fields, ids) }

  lemma MoreIds(list: seq<Flat>, ids: seq<Flat>, more: seq<Flat>)
    requires Closed(list, ids) && forall x :: x in ids ==> x in more
    ensures Closed(list, more)
  {
  }

  lemma {:induction false} FlattenClosed(s: Schema, id: nat, n: nat)
    ensures var list := Flatten(s, id, n).0; Closed(list, list) && exists x :: x in list && x.id == id
    decreases Size(s), 1
  {
    FlattenAllClosed(Listed(s), n);
    var (fields, subs, n1) := FlattenAll(Listed(s), n);
    var list := Flatten(s, id, n).0;
    MoreIds(subs, subs, list);
    assert list[0] in list && list[0].id == id;
  }

  lemma {:induction false} FlattenAllClosed(ps: seq<Property>, n: nat)
    ensures var (fields, subs, n1) := FlattenAll(ps, n); RefersTo(fields, subs) && Closed(subs, subs)
    decreases SizeAll(ps), 0
  {
    if ps != [] {
      var (field, subs, n1) := FlattenOne(ps[0].def, n);
      var (rest, more, n2) := FlattenAll(ps[1..], n1);
      if Target(field).Some? { FlattenClosed(ps[0].def, n, n + 1); }
      FlattenAllClosed(ps[1..], n1);
      MoreIds(subs, subs, subs + more);
      MoreIds(more, more, subs + more);
    }
  }

  lemma OneWithId(list: seq<Flat>, k: nat)
    requires k < |list| && forall i, j :: 0 <= i < j < |list| ==> list[i].id != list[j].id
    ensures Count(list, HasId(list[k].id)) == 1 && First(list, HasId(list[k].id)) == Some(list[k])
  {
    var p := HasId(list[k].id);
    assert forall j :: 0 <= j < |list| && j != k ==> !p(list[j]);
    FirstIs(list, p, k);
    CountOne(list, p, k);
  }

  lemma {:induction false} CountOne(list: seq<Flat>, p: Flat -> bool, k: nat)
    requires k < |list| && p(list[k]) && forall j :: 0 <= j < |list| && j != k ==> !p(list[j])
    ensures Count(list, p) == 1
  {
    var n := |list| - 1;
    if k == n { CountZero(list[..n], p); } else { CountOne(list[..n], p, k); }
  }

  /** Each reference in the result names exactly one schema of the result, for every root. */
  lemma EachReferenceNamesOne(s: Schema, placeholder: string, x: Flat, e: Entry)
    requires x in MakeSchemas(s, placeholder) && e in x.fields && Target(e.field).Some?
    ensures Count(MakeSchemas(s, placeholder), HasId(Target(e.field).value)) == 1
  {
    var list := MakeSchemas(s, placeholder);
    if s.kind == "array" {
      assert list[1].id == 1 && list[0].fields[0].field == ArrayOf(1);
      assert x == list[0];
      OneWithId(list, 1);
    } else {
      FlattenClosed(s, ROOT, 1);
      FlattenDistinct(s);
      var y :| y in list && y.id == Target(e.field).value;
      var k :| 0 <= k < |list| && list[k] == y;
      OneWithId(list, k);
    }
  }

  lemma FlattenDistinct(s: Schema)
    ensures var list := Flatten(s, ROOT, 1).0; forall i, j :: 0 <= i < j < |list| ==> list[i].id != list[j].id
  {
    FlattenIds(s, ROOT, 1);
    var list := Flatten(s, ROOT, 1).0;
    assert list == [list[0]] + list[1..];
  }

  // ---- Reading the list back ----

  datatype Tree = Scalar(kind: string) | Array(item: Tree) | Dictionary(value: Tree) | Object(fields: seq<Branch>)
  datatype Branch = Branch(key: string, tree: Tree)

  /** The tree found by following references from `id`, at most `fuel` deep. */
  function Rebuild(list: seq<Flat>, id: nat, fuel: nat): Option<Tree>
    decreases fuel, 0
  {
    if fuel == 0 then None
    else
      match First(list, HasId(id))
      case None => None
      case Some(x) =>
        var fields := RebuildAll(list, x.fields, fuel - 1);
        if fields.Some? then Some(Object(fields.value)) else None
  }

  function RebuildAll(list: seq<Flat>, es: seq<Entry>, fuel: nat): Option<seq<Branch>>
    decreases fuel, 1 + |es|
  {
    if es == [] then Some([])
    else
      var t := RebuildField(list, es[0].field, fuel);
      var rest := RebuildAll(list, es[1..], fuel);
      if t.Some? && rest.Some? then Some([Branch(es[0].key, t.value)] + rest.value) else None
  }

  function RebuildField(list: seq<Flat>, f: Field, fuel: nat): Option<Tree>
    decreases fuel, 1
  {
    match f
    case Kept(def) => Some(Scalar(def.kind))
    case SimpleArray(kind) => Some(Array(Scalar(kind)))
    case SimpleMap(kind) => Some(Dictionary(Scalar(kind)))
    case ArrayOf(id) => (match Rebuild(list, id, fuel) case Some(t) => Some(Array(t)) case None => None)
    case MapOf(id) => (match Rebuild(list, id, fuel) case Some(t) => Some(Dictionary(t)) case None => None)
    case ObjectOf(id) => Rebuild(list, id, fuel)
  }

  /** What the flat form shows of a property, said without the flat form. */
  function Shown(s: Schema): Tree
    decreases Size(s), 1
  {
    if Simple(s.kind) then Scalar(s.kind)
    else if s.kind == "array" then
      Array(if SimpleSchema(s.items) then Scalar(s.items.value.kind) else Object(ShownAll(Listed(s))))
    else if s.extra.Some? then
      Dictionary(if SimpleSchema(s.extra) then Scalar(s.extra.value.kind) else Object(ShownAll(Listed(s))))
    else Object(ShownAll(Listed(s)))
  }

  function ShownAll(ps: seq<Property>): seq<Branch>
    decreases SizeAll(ps), 0
  {
    if ps == [] then [] else [Branch(ps[0].key, Shown(ps[0].def))] + ShownAll(ps[1..])
  }

  ghost predicate Resolves(list: seq<Flat>, subs: seq<Flat>) {
    forall x :: x in subs ==> First(list, HasId(x.id)) == Some(x)
  }

  lemma {:induction false} RebuildShows(list: seq<Flat>, s: Schema, id: nat, n: nat, fuel: nat)
    requires Resolves(list, Flatten(s, id, n).0) && fuel >= Size(s)
    ensures Rebuild(list, id, fuel) == Some(Object(ShownAll(Listed(s))))
    decreases Size(s), 1
  {
    var (fields, subs, n1) := FlattenAll(Listed(s), n);
    assert Flat(id, fields) in Flatten(s, id, n).0;
    RebuildAllShows(list, Listed(s), n, fuel - 1);
  }

  lemma {:induction false} RebuildAllShows(list: seq<Flat>, ps: seq<Property>, n: nat, fuel: nat)
    requires Resolves(list, FlattenAll(ps, n).1) && fuel >= SizeAll(ps)
    ensures RebuildAll(list, FlattenAll(ps, n).0, fuel) == Some(ShownAll(ps))
    decreases SizeAll(ps), 0
  {
    if ps != [] {
      var (field, subs, n1) := FlattenOne(ps[0].def, n);
      var (rest, more, n2) := FlattenAll(ps[1..], n1);
      hide First;
      assert Resolves(list, subs) && Resolves(list, more);
      if Target(field).Some? { RebuildShows(list, ps[0].def, n, n + 1, fuel); }
      RebuildAllShows(list, ps[1..], n1, fuel);
      var es := FlattenAll(ps, n).0;
      assert es[0] == Entry(ps[0].key, field) && es[1..] == rest;
      assert RebuildField(list, field, fuel) == Some(Shown(ps[0].def));
    }
  }

  // ---- What is lost ----

  predicate ScalarKind(kind: string) { Simple(kind) || kind == "integer" || kind == "number" }

  /** The property tree a schema describes. */
  function Meaning(s: Schema): Tree
    decreases Size(s), 1
  {
    if ScalarKind(s.kind) then Scalar(s.kind)
    else if s.kind == "array" then Array(if s.items.Some? then Meaning(s.items.value) else Object([]))
    else if s.extra.Some? then Dictionary(Meaning(s.extra.value))
    else Object(if s.properties.Defined? then MeaningAll(s.properties.list) else [])
  }

  function MeaningAll(ps: seq<Property>): seq<Branch>
    decreases SizeAll(ps), 0
  {
    if ps == [] then [] else [Branch(ps[0].key, Meaning(ps[0].def))] + MeaningAll(ps[1..])
  }

  predicate PlainObject(s: Schema) { !ScalarKind(s.kind) && s.kind != "array" && s.extra.None? }

  function Own(s: Schema): (r: seq<Property>)
    ensures SizeAll(r) < Size(s)
  {
    if s.properties.Defined? then s.properties.list else []
  }

  /** No integer or number leaves, array items and map values simple or objects, and no map whose
      values leave their properties undefined while the map itself has some. */
  predicate Faithful(s: Schema)
    decreases Size(s), 1
  {
    if Simple(s.kind) then true
    else if ScalarKind(s.kind) then false
    else if s.kind == "array" then
      s.items.None? || SimpleSchema(s.items) || (PlainObject(s.items.value) && AllFaithful(Own(s.items.value)))
    else if s.extra.Some? then
      SimpleSchema(s.extra)
      || (PlainObject(s.extra.value) && AllFaithful(Own(s.extra.value)) && (s.extra.value.properties.Undefined? ==> Own(s) == []))
    else AllFaithful(Own(s))
  }

  predicate AllFaithful(ps: seq<Property>)
    decreases SizeAll(ps), 0
  {
    ps == [] || (Faithful(ps[0].def) && AllFaithful(ps[1..]))
  }

  lemma {:induction false} ShownIffFaithful(s: Schema)
    ensures Shown(s) == Meaning(s) <==> Faithful(s)
    decreases Size(s), 1
  {
    if ScalarKind(s.kind) {
    } else if s.kind == "array" {
      if s.items.Some? { AllShownIffFaithful(Own(s.items.value)); }
    } else if s.extra.Some? {
      AllShownIffFaithful(Own(s.extra.value));
      if s.extra.value.properties.Undefined? { assert Listed(s) == Own(s) && (ShownAll(Own(s)) == [] <==> Own(s) == []); }
    } else {
      AllShownIffFaithful(Own(s));
    }
  }

  lemma {:induction false} AllShownIffFaithful(ps: seq<Property>)
    ensures ShownAll(ps) == MeaningAll(ps) <==> AllFaithful(ps)
    decreases SizeAll(ps), 0
  {
    if ps != [] {
      ShownIffFaithful(ps[0].def);
      AllShownIffFaithful(ps[1..]);
      var a, b := ShownAll(ps), MeaningAll(ps);
      assert a[0] == Branch(ps[0].key, Shown(ps[0].def)) && b[0] == Branch(ps[0].key, Meaning(ps[0].def));
      assert a[1..] == ShownAll(ps[1..]) && b[1..] == MeaningAll(ps[1..]);
    }
  }

  /** An object- or map-rooted variable: its own type is neither scalar nor an array. */
  predicate Rooted(s: Schema) { !ScalarKind(s.kind) && s.kind != "array" }

  /** The tree a rooted variable describes: of a map, that of its values; of an object, its own. */
  function RootMeaning(s: Schema): Tree { if s.extra.Some? then Meaning(s.extra.value) else Meaning(s) }

  /** The root is an object, or a map of objects, whose properties are faithful. The values of a map
      may leave their properties undefined only if the map itself has none. */
  predicate RootFaithful(s: Schema) {
    if s.extra.Some? then
      && PlainObject(s.extra.value) && AllFaithful(Own(s.extra.value))
      && (s.extra.value.properties.Undefined? ==> Own(s) == [])
    else AllFaithful(Own(s))
  }

  lemma RootShownIff(s: Schema)
    requires Rooted(s)
    ensures Object(ShownAll(Listed(s))) == RootMeaning(s) <==> RootFaithful(s)
  {
    AllShownIffFaithful(Own(s));
    if s.extra.Some? {
      AllShownIffFaithful(Own(s.extra.value));
      if s.extra.value.properties.Undefined? { assert Listed(s) == Own(s) && (ShownAll(Own(s)) == [] <==> Own(s) == []); }
    }
  }

  /** Following the references from the root terminates, and rebuilds the tree that the variable
      describes exactly when the root is faithful. */
  lemma FlatteningLosesNothingIff(s: Schema, placeholder: string, fuel: nat)
    requires Rooted(s) && fuel >= Size(s)
    ensures var r := Rebuild(MakeSchemas(s, placeholder), ROOT, fuel);
            r == Some(Object(ShownAll(Listed(s)))) && (r == Some(RootMeaning(s)) <==> RootFaithful(s))
  {
    var list := MakeSchemas(s, placeholder);
    FlattenDistinct(s);
    assert list == Flatten(s, ROOT, 1).0;
    forall x | x in list ensures First(list, HasId(x.id)) == Some(x) {
      var k :| 0 <= k < |list| && list[k] == x;
      OneWithId(list, k);
    }
    RebuildShows(list, s, ROOT, 1, fuel);
    RootShownIff(s);
  }

  /** A variable that is a map of strings comes out as one schema without fields. */
  lemma MapOfStringsLost(placeholder: string, fuel: nat)
    requires fuel >= 2
    ensures var s := Schema("object", Undefined, None, Some(Schema("string", Undefined, None, None)));
            && Rooted(s) && !RootFaithful(s) && RootMeaning(s) == Scalar("string")
            && MakeSchemas(s, placeholder) == [Flat(ROOT, [])]
            && Rebuild(MakeSchemas(s, placeholder), ROOT, fuel) == Some(Object([]))
  {
    var s := Schema("object", Undefined, None, Some(Schema("string", Undefined, None, None)));
    FlatteningLosesNothingIff(s, placeholder, fuel);
    assert FlattenAll(Listed(s), 1) == ([], [], 1);
  }

  /** An integer leaf reads back as an empty object. */
  lemma IntegerLeafLost(key: string)
    ensures var leaf := Schema("integer", Undefined, None, None);
            !Faithful(leaf) && Shown(leaf) == Object([]) && Meaning(leaf) == Scalar("integer")
  {
  }
}
