/**
 * Rewriting tool parameters for a provider that forbids root unions and numeric bounds
 * (packages/runtime/anthropic-tool-schema.js), against a semantics of JSON Schema (sections 10.2 and 10.3 of JSON Schema
 * Core 2020-12, section 6 of JSON Schema Validation).  Keywords outside the fragment are decided by an oracle.
 */
module ToolSchema {
  import opened Options

  datatype Json = Null | Bool(b: bool) | Num(n: real) | Str(s: string) | Arr(items: Items) | Obj(fields: Fields)
  datatype Items = NoItems | Item(head: Json, tail: Items)
  datatype Fields = NoFields | Field(key: string, value: Json, rest: Fields)

  // ---------------------------------------------------------------- JSON

  function Get(fs: Fields, key: string): Option<Json> {
    match fs
    case NoFields => None
    case Field(k, v, rest) => if k == key then Some(v) else Get(rest, key)
  }

  predicate Has(fs: Fields, key: string) { Get(fs, key).Some? }

  /** `object[key] = value` */
  function Put(fs: Fields, key: string, value: Json): Fields {
    match fs
    case NoFields => Field(key, value, NoFields)
    case Field(k, v, rest) => if k == key then Field(k, value, rest) else Field(k, v, Put(rest, key, value))
  }

  predicate Contains(xs: Items, x: Json) {
    match xs case NoItems => false case Item(head, tail) => head == x || Contains(tail, x)
  }

  function Lookup(s: Json, key: string): Option<Json> {
    if s.Obj? then Get(s.fields, key) else None
  }

  /** Measures for recursion through `schema[keyword]`. */
  function Size(s: Json): nat {
    match s case Arr(xs) => 1 + ItemsSize(xs) case Obj(fs) => 1 + FieldsSize(fs) case _ => 1
  }

  function ItemsSize(xs: Items): nat {
    match xs case NoItems => 0 case Item(x, rest) => 1 + Size(x) + ItemsSize(rest)
  }

  function FieldsSize(fs: Fields): nat {
    match fs case NoFields => 0 case Field(_, v, rest) => 1 + Size(v) + FieldsSize(rest)
  }

  /** `schema[keyword] ?? []`, when it is an array. */
  function Branches(s: Json, key: string): (xs: Items)
    ensures ItemsSize(xs) < Size(s)
  {
    match Lookup(s, key)
    case Some(Arr(xs)) => LookupSmaller(s, key); xs
    case _ => NoItems
  }

  function Properties(s: Json): (ps: Fields)
    ensures FieldsSize(ps) < Size(s)
  {
    match Lookup(s, "properties")
    case Some(Obj(ps)) => LookupSmaller(s, "properties"); ps
    case _ => NoFields
  }

  lemma LookupSmaller(s: Json, key: string)
    requires Lookup(s, key).Some?
    ensures Size(Lookup(s, key).value) < Size(s)
  {
    GetSmaller(s.fields, key);
  }

  lemma {:induction false} GetSmaller(fs: Fields, key: string)
    requires Get(fs, key).Some?
    ensures Size(Get(fs, key).value) < FieldsSize(fs) + 1
  {
    if fs.key != key { GetSmaller(fs.rest, key); }
  }

  // ---------------------------------------------------------------- what a schema accepts

  /** Numeric bounds, and the keywords this model does not interpret. */
  datatype Oracle = Oracle(bound: (string, Json, real) -> bool, other: (string, Json, Json) -> bool)

  predicate IsBound(k: string) {
    k in ["minimum", "maximum", "exclusiveMinimum", "exclusiveMaximum", "multipleOf"]
  }

  predicate IsAnnotation(k: string) {
    k in ["description", "title", "$defs", "definitions", "$id", "$schema", "default", "examples"]
  }

  predicate IsLiteral(k: string) {
    k in ["const", "enum", "default", "examples"]
  }

  datatype KeywordKind = Annotation | Bound | Type | Not | AllOf | AnyOf | OneOf | Props | Extras | Elements | Literal | Other

  function Kind(k: string): KeywordKind {
    if IsAnnotation(k) then Annotation
    else if IsBound(k) then Bound
    else if IsLiteral(k) then Literal
    else if k == "type" then Type
    else if k == "not" then Not
    else if k == "allOf" then AllOf
    else if k == "anyOf" then AnyOf
    else if k == "oneOf" then OneOf
    else if k == "properties" then Props
    else if k == "additionalProperties" then Extras
    else if k == "items" then Elements
    else Other
  }

  predicate HasType(name: string, v: Json) {
    match v
    case Null => name == "null"
    case Bool(_) => name == "boolean"
    case Num(n) => name == "number" || (name == "integer" && n == n.Floor as real)
    case Str(_) => name == "string"
    case Arr(_) => name == "array"
    case Obj(_) => name == "object"
  }

  predicate AnyType(names: Items, v: Json) {
    match names case NoItems => false case Item(n, rest) => (n.Str? && HasType(n.s, v)) || AnyType(rest, v)
  }

  predicate TypeOk(t: Json, v: Json) {
    match t case Str(name) => HasType(name, v) case Arr(names) => AnyType(names, v) case _ => true
  }

  predicate Accepts(o: Oracle, s: Json, v: Json)
    decreases s, v, 2
  {
    match s
    case Bool(b) => b
    case Obj(fs) => AcceptsFields(o, fs, fs, v)
    case _ => true
  }

  /** Every keyword holds; `all` is the schema the keywords belong to. */
  predicate AcceptsFields(o: Oracle, fs: Fields, all: Fields, v: Json)
    decreases fs, v, 1
  {
    match fs
    case NoFields => true
    case Field(k, arg, rest) => Keyword(o, Kind(k), k, arg, all, v) && AcceptsFields(o, rest, all, v)
  }

  predicate Keyword(o: Oracle, kind: KeywordKind, k: string, arg: Json, all: Fields, v: Json)
    decreases arg, v, 3
  {
    match kind
    case Annotation => true
    case Bound => v.Num? ==> o.bound(k, arg, v.n)
    case Type => TypeOk(arg, v)
    case Not => !Accepts(o, arg, v)
    case AllOf => if arg.Arr? then AllAccept(o, arg.items, v) else o.other(k, arg, v)
    case AnyOf => if arg.Arr? then AnyAccepts(o, arg.items, v) else o.other(k, arg, v)
    case OneOf => if arg.Arr? then CountAccepts(o, arg.items, v) == 1 else o.other(k, arg, v)
    case Props => if arg.Obj? then v.Obj? ==> PropertiesOk(o, arg.fields, v) else o.other(k, arg, v)
    case Extras => v.Obj? ==> ExtrasOk(o, arg, Properties(Obj(all)), v.fields)
    case Elements => v.Arr? ==> ItemsOk(o, arg, v.items)
    case _ => o.other(k, arg, v)
  }

  predicate AllAccept(o: Oracle, xs: Items, v: Json)
    decreases xs, v, 0
  {
    match xs case NoItems => true case Item(x, rest) => Accepts(o, x, v) && AllAccept(o, rest, v)
  }

  predicate AnyAccepts(o: Oracle, xs: Items, v: Json)
    decreases xs, v, 0
  {
    match xs case NoItems => false case Item(x, rest) => Accepts(o, x, v) || AnyAccepts(o, rest, v)
  }

  function CountAccepts(o: Oracle, xs: Items, v: Json): nat
    decreases xs, v, 0
  {
    match xs case NoItems => 0 case Item(x, rest) => (if Accepts(o, x, v) then 1 else 0) + CountAccepts(o, rest, v)
  }

  predicate PropertiesOk(o: Oracle, ps: Fields, v: Json)
    requires v.Obj?
    decreases ps, v, 0
  {
    match ps
    case NoFields => true
    case Field(name, x, rest) =>
      (Get(v.fields, name).Some? ==> Accepts(o, x, Get(v.fields, name).value)) && PropertiesOk(o, rest, v)
  }

  /** Properties the schema does not declare. */
  predicate ExtrasOk(o: Oracle, x: Json, ps: Fields, vs: Fields)
    decreases x, vs, 4
  {
    match vs
    case NoFields => true
    case Field(name, v, rest) => (Has(ps, name) || Accepts(o, x, v)) && ExtrasOk(o, x, ps, rest)
  }

  predicate ItemsOk(o: Oracle, x: Json, vs: Items)
    decreases x, vs, 4
  {
    match vs case NoItems => true case Item(v, rest) => Accepts(o, x, v) && ItemsOk(o, x, rest)
  }

  // ---------------------------------------------------------------- requiresObject

  predicate RequiresObject(s: Json)
    decreases Size(s), 1
  {
    if !s.Obj? then false
    else if Lookup(s, "type") == Some(Str("object")) then true
    else if Lookup(s, "type").Some? && !(Lookup(s, "type").value.Arr? && Contains(Lookup(s, "type").value.items, Str("object"))) then false
    else
      || (Branches(s, "anyOf") != NoItems && EveryRequires(Branches(s, "anyOf")))
      || (Branches(s, "oneOf") != NoItems && EveryRequires(Branches(s, "oneOf")))
      || SomeRequires(Branches(s, "allOf"))
  }

  predicate EveryRequires(xs: Items)
    decreases ItemsSize(xs), 0
  {
    match xs case NoItems => true case Item(x, rest) => RequiresObject(x) && EveryRequires(rest)
  }

  predicate SomeRequires(xs: Items)
    decreases ItemsSize(xs), 0
  {
    match xs case NoItems => false case Item(x, rest) => RequiresObject(x) || SomeRequires(rest)
  }

  /** An accepted value satisfies each keyword that the schema has. */
  lemma {:induction false} KeywordHolds(o: Oracle, fs: Fields, all: Fields, v: Json, k: string)
    requires AcceptsFields(o, fs, all, v) && Has(fs, k)
    ensures Keyword(o, Kind(k), k, Get(fs, k).value, all, v)
  {
    if fs.key != k { KeywordHolds(o, fs.rest, all, v, k); }
  }

  lemma TypeHolds(o: Oracle, s: Json, v: Json)
    requires s.Obj? && Accepts(o, s, v) && Has(s.fields, "type")
    ensures TypeOk(Get(s.fields, "type").value, v)
  {
    KeywordHolds(o, s.fields, s.fields, v, "type");
    assert Kind("type") == Type;
  }

  lemma AnyHolds(o: Oracle, s: Json, v: Json)
    requires Accepts(o, s, v) && Branches(s, "anyOf") != NoItems
    ensures AnyAccepts(o, Branches(s, "anyOf"), v)
  {
    KeywordHolds(o, s.fields, s.fields, v, "anyOf");
    assert Kind("anyOf") == AnyOf;
  }

  lemma OneHolds(o: Oracle, s: Json, v: Json)
    requires Accepts(o, s, v) && Branches(s, "oneOf") != NoItems
    ensures AnyAccepts(o, Branches(s, "oneOf"), v)
  {
    KeywordHolds(o, s.fields, s.fields, v, "oneOf");
    assert Kind("oneOf") == OneOf;
    CountedIsAccepted(o, Branches(s, "oneOf"), v);
  }

  lemma AllHolds(o: Oracle, s: Json, v: Json)
    requires Accepts(o, s, v) && Branches(s, "allOf") != NoItems
    ensures AllAccept(o, Branches(s, "allOf"), v)
  {
    KeywordHolds(o, s.fields, s.fields, v, "allOf");
    assert Kind("allOf") == AllOf;
  }

  /** `requiresObject` is sound: then only objects validate. */
  lemma {:induction false} OnlyObjectsValidate(o: Oracle, s: Json, v: Json)
    requires RequiresObject(s) && Accepts(o, s, v)
    ensures v.Obj?
    decreases Size(s), 1
  {
    if Lookup(s, "type") == Some(Str("object")) {
      TypeHolds(o, s, v);
    } else if Branches(s, "anyOf") != NoItems && EveryRequires(Branches(s, "anyOf")) {
      AnyHolds(o, s, v);
      BranchIsObject(o, Branches(s, "anyOf"), v);
    } else if Branches(s, "oneOf") != NoItems && EveryRequires(Branches(s, "oneOf")) {
      OneHolds(o, s, v);
      BranchIsObject(o, Branches(s, "oneOf"), v);
    } else {
      AllHolds(o, s, v);
      ConjunctIsObject(o, Branches(s, "allOf"), v);
    }
  }

  lemma {:induction false} BranchIsObject(o: Oracle, xs: Items, v: Json)
    requires EveryRequires(xs) && AnyAccepts(o, xs, v)
    ensures v.Obj?
    decreases ItemsSize(xs), 0
  {
    if Accepts(o, xs.head, v) { OnlyObjectsValidate(o, xs.head, v); } else { BranchIsObject(o, xs.tail, v); }
  }

  lemma {:induction false} ConjunctIsObject(o: Oracle, xs: Items, v: Json)
    requires SomeRequires(xs) && AllAccept(o, xs, v)
    ensures v.Obj?
    decreases ItemsSize(xs), 0
  {
    if RequiresObject(xs.head) { OnlyObjectsValidate(o, xs.head, v); } else { ConjunctIsObject(o, xs.tail, v); }
  }

  lemma {:induction false} CountedIsAccepted(o: Oracle, xs: Items, v: Json)
    requires CountAccepts(o, xs, v) > 0
    ensures AnyAccepts(o, xs, v)
  {
    if !Accepts(o, xs.head, v) { CountedIsAccepted(o, xs.tail, v); }
  }

  // ---------------------------------------------------------------- parameterFields

  /** Property names in order, each with the distinct schemas found for it. */
  type Variants = seq<(string, seq<Json>)>

  function AddVariant(acc: Variants, name: string, x: Json): Variants {
    if acc == [] then [(name, [x])]
    else if acc[0].0 == name then (if x in acc[0].1 then acc else [(name, acc[0].1 + [x])] + acc[1..])
    else [acc[0]] + AddVariant(acc[1..], name, x)
  }

  function AddProperties(ps: Fields, acc: Variants): Variants {
    match ps case NoFields => acc case Field(name, x, rest) => AddProperties(rest, AddVariant(acc, name, x))
  }

  function ParameterFields(s: Json, acc: Variants): Variants
    decreases Size(s), 1
  {
    var acc1 := AddProperties(Properties(s), acc);
    var acc2 := BranchFields(Branches(s, "anyOf"), acc1);
    var acc3 := BranchFields(Branches(s, "oneOf"), acc2);
    BranchFields(Branches(s, "allOf"), acc3)
  }

  function BranchFields(xs: Items, acc: Variants): Variants
    decreases ItemsSize(xs), 0
  {
    match xs case NoItems => acc case Item(x, rest) => BranchFields(rest, ParameterFields(x, acc))
  }

  /** The accumulator loops of the source. */
  method CollectFields(s: Json, fields: Variants) returns (result: Variants)
    ensures result == ParameterFields(s, fields)
    decreases Size(s), 1
  {
    result := fields;
    var ps := Properties(s);
    while ps != NoFields
      invariant AddProperties(ps, result) == AddProperties(Properties(s), fields)
      decreases ps
    {
      result := AddVariant(result, ps.key, ps.value);
      ps := ps.rest;
    }
    result := CollectBranches(Branches(s, "anyOf"), result);
    result := CollectBranches(Branches(s, "oneOf"), result);
    result := CollectBranches(Branches(s, "allOf"), result);
  }

  method CollectBranches(xs: Items, fields: Variants) returns (result: Variants)
    ensures result == BranchFields(xs, fields)
    decreases ItemsSize(xs), 0
  {
    result := fields;
    var branches := xs;
    while branches != NoItems
      invariant ItemsSize(branches) <= ItemsSize(xs)
      invariant BranchFields(branches, result) == BranchFields(xs, fields)
      decreases branches
    {
      result := CollectFields(branches.head, result);
      branches := branches.tail;
    }
  }

  ghost predicate HasVariant(acc: Variants, name: string, x: Json) {
    exists i :: 0 <= i < |acc| && acc[i].0 == name && x in acc[i].1
  }

  ghost predicate DistinctNames(acc: Variants) {
    forall i, j :: 0 <= i < j < |acc| ==> acc[i].0 != acc[j].0
  }

  /** Somewhere in the schema, through its unions and intersections, the property is declared with this schema. */
  ghost predicate Declares(s: Json, name: string, x: Json)
    decreases Size(s), 1
  {
    || Listed(Properties(s), name, x)
    || BranchDeclares(Branches(s, "anyOf"), name, x)
    || BranchDeclares(Branches(s, "oneOf"), name, x)
    || BranchDeclares(Branches(s, "allOf"), name, x)
  }

  ghost predicate BranchDeclares(xs: Items, name: string, x: Json)
    decreases ItemsSize(xs), 0
  {
    match xs case NoItems => false case Item(b, rest) => Declares(b, name, x) || BranchDeclares(rest, name, x)
  }

  predicate Listed(ps: Fields, name: string, x: Json) {
    match ps case NoFields => false case Field(k, v, rest) => (k == name && v == x) || Listed(rest, name, x)
  }

  lemma AddVariantFacts(acc: Variants, name: string, x: Json, n: string, y: Json)
    requires DistinctNames(acc)
    ensures DistinctNames(AddVariant(acc, name, x))
    ensures HasVariant(AddVariant(acc, name, x), n, y) <==> HasVariant(acc, n, y) || (n == name && y == x)
  {
    AddVariantNames(acc, name, x);
    AddVariantMembers(acc, name, x, n, y);
  }

  lemma {:induction false} AddVariantMembers(acc: Variants, name: string, x: Json, n: string, y: Json)
    ensures HasVariant(AddVariant(acc, name, x), n, y) <==> HasVariant(acc, n, y) || (n == name && y == x)
  {
    var r := AddVariant(acc, name, x);
    if acc == [] {
      assert r[0] == (name, [x]);
    } else {
      VariantCons(acc, n, y);
      VariantCons(r, n, y);
      if acc[0].0 == name { assert r[1..] == acc[1..]; } else {
        assert r[1..] == AddVariant(acc[1..], name, x);
        AddVariantMembers(acc[1..], name, x, n, y);
      }
    }
  }

  ghost function Names(acc: Variants): set<string> {
    set i | 0 <= i < |acc| :: acc[i].0
  }

  lemma {:induction false} AddVariantNames(acc: Variants, name: string, x: Json)
    requires DistinctNames(acc)
    ensures DistinctNames(AddVariant(acc, name, x)) && Names(AddVariant(acc, name, x)) == Names(acc) + {name}
  {
    var r := AddVariant(acc, name, x);
    if acc == [] {
      assert r[0].0 == name;
    } else {
      var rest := acc[1..];
      assert forall i :: 0 <= i < |rest| ==> rest[i] == acc[i + 1];
      NamesCons(acc);
      NamesCons(r);
      assert acc[0].0 !in Names(rest);
      if acc[0].0 == name {
        assert r[1..] == rest;
      } else {
        AddVariantNames(rest, name, x);
        assert r[1..] == AddVariant(rest, name, x);
      }
      DistinctCons(r);
    }
  }

  lemma NamesCons(acc: Variants)
    requires acc != []
    ensures Names(acc) == {acc[0].0} + Names(acc[1..])
  {
    forall n | n in Names(acc) ensures n in {acc[0].0} + Names(acc[1..]) {
      var i :| 0 <= i < |acc| && acc[i].0 == n;
      if i > 0 { assert acc[1..][i - 1].0 == n; }
    }
    forall n | n in Names(acc[1..]) ensures n in Names(acc) {
      var i :| 0 <= i < |acc[1..]| && acc[1..][i].0 == n;
      assert acc[i + 1].0 == n;
    }
  }

  lemma DistinctCons(acc: Variants)
    requires acc != [] && DistinctNames(acc[1..]) && acc[0].0 !in Names(acc[1..])
    ensures DistinctNames(acc)
  {
    forall i, j | 0 <= i < j < |acc| ensures acc[i].0 != acc[j].0 {
      assert acc[j] == acc[1..][j - 1];
      if i > 0 { assert acc[i] == acc[1..][i - 1]; }
    }
  }

  lemma VariantCons(acc: Variants, n: string, y: Json)
    requires acc != []
    ensures HasVariant(acc, n, y) <==> (acc[0].0 == n && y in acc[0].1) || HasVariant(acc[1..], n, y)
  {
    if HasVariant(acc, n, y) && !(acc[0].0 == n && y in acc[0].1) {
      var i :| 0 <= i < |acc| && acc[i].0 == n && y in acc[i].1;
      assert acc[1..][i - 1] == acc[i];
    }
    if HasVariant(acc[1..], n, y) {
      var i :| 0 <= i < |acc[1..]| && acc[1..][i].0 == n && y in acc[1..][i].1;
      assert acc[i + 1] == acc[1..][i];
    }
  }

  lemma {:induction false} AddPropertiesFacts(ps: Fields, acc: Variants, n: string, y: Json)
    requires DistinctNames(acc)
    ensures DistinctNames(AddProperties(ps, acc))
    ensures HasVariant(AddProperties(ps, acc), n, y) <==> HasVariant(acc, n, y) || Listed(ps, n, y)
  {
    if ps.Field? {
      AddVariantFacts(acc, ps.key, ps.value, n, y);
      AddPropertiesFacts(ps.rest, AddVariant(acc, ps.key, ps.value), n, y);
    }
  }

  /** `parameterFields` collects exactly the declared property schemas. */
  lemma {:induction false} FieldsAreDeclarations(s: Json, acc: Variants, n: string, y: Json)
    requires DistinctNames(acc)
    ensures DistinctNames(ParameterFields(s, acc))
    ensures HasVariant(ParameterFields(s, acc), n, y) <==> HasVariant(acc, n, y) || Declares(s, n, y)
    decreases Size(s), 1
  {
    var acc1 := AddProperties(Properties(s), acc);
    AddPropertiesFacts(Properties(s), acc, n, y);
    BranchFieldsAreDeclarations(Branches(s, "anyOf"), acc1, n, y);
    var acc2 := BranchFields(Branches(s, "anyOf"), acc1);
    BranchFieldsAreDeclarations(Branches(s, "oneOf"), acc2, n, y);
    var acc3 := BranchFields(Branches(s, "oneOf"), acc2);
    BranchFieldsAreDeclarations(Branches(s, "allOf"), acc3, n, y);
  }

  lemma {:induction false} BranchFieldsAreDeclarations(xs: Items, acc: Variants, n: string, y: Json)
    requires DistinctNames(acc)
    ensures DistinctNames(BranchFields(xs, acc))
    ensures HasVariant(BranchFields(xs, acc), n, y) <==> HasVariant(acc, n, y) || BranchDeclares(xs, n, y)
    decreases ItemsSize(xs), 0
  {
    if xs.Item? {
      FieldsAreDeclarations(xs.head, acc, n, y);
      BranchFieldsAreDeclarations(xs.tail, ParameterFields(xs.head, acc), n, y);
    }
  }

  // ---------------------------------------------------------------- the wire schema, before presentation

  function ToItems(xs: seq<Json>): Items {
    if xs == [] then NoItems else Item(xs[0], ToItems(xs[1..]))
  }

  /** `{ [name]: variants.length === 1 ? variants[0] : { anyOf: variants } }` */
  function WireProperties(acc: Variants): Fields {
    if acc == [] then NoFields
    else Field(acc[0].0, if |acc[0].1| == 1 then acc[0].1[0] else Obj(Field("anyOf", Arr(ToItems(acc[0].1)), NoFields)),
               WireProperties(acc[1..]))
  }

  const COPIED: seq<string> := ["$defs", "definitions", "$id", "$schema", "title", "description"]

  function Copied(s: Json, keywords: seq<string>): Fields {
    if keywords == [] then NoFields
    else if Lookup(s, keywords[0]).Some? then Field(keywords[0], Lookup(s, keywords[0]).value, Copied(s, keywords[1..]))
    else Copied(s, keywords[1..])
  }

  function HasUnion(s: Json): bool {
    Lookup(s, "anyOf").Some? || Lookup(s, "oneOf").Some? || Lookup(s, "allOf").Some?
  }

  function Wire(s: Json): Json {
    if !HasUnion(s) then (if Lookup(s, "type") == Some(Str("object")) || !s.Obj? then s else Obj(Put(s.fields, "type", Str("object"))))
    else Obj(Field("type", Str("object"),
             Field("properties", Obj(WireProperties(ParameterFields(s, []))),
             Field("not", Obj(Field("not", s, NoFields)), Copied(s, COPIED)))))
  }

  lemma {:induction false} CopiedAccepts(o: Oracle, s: Json, keywords: seq<string>, all: Fields, v: Json)
    requires forall k :: k in keywords ==> IsAnnotation(k)
    ensures AcceptsFields(o, Copied(s, keywords), all, v)
  {
    if keywords != [] {
      assert IsAnnotation(keywords[0]);
      CopiedAccepts(o, s, keywords[1..], all, v);
    }
  }

  lemma {:induction false} AnyOfList(o: Oracle, xs: seq<Json>, v: Json)
    ensures AnyAccepts(o, ToItems(xs), v) <==> exists x :: x in xs && Accepts(o, x, v)
  {
    if xs != [] {
      AnyOfList(o, xs[1..], v);
      if x :| x in xs && Accepts(o, x, v) {
        if x != xs[0] { assert x in xs[1..]; }
      }
    }
  }

  lemma VariantAccepts(o: Oracle, xs: seq<Json>, v: Json)
    requires xs != []
    ensures
      var x := if |xs| == 1 then xs[0] else Obj(Field("anyOf", Arr(ToItems(xs)), NoFields));
      Accepts(o, x, v) <==> exists y :: y in xs && Accepts(o, y, v)
  {
    AnyOfList(o, xs, v);
    if |xs| != 1 {
      var fs := Field("anyOf", Arr(ToItems(xs)), NoFields);
      assert AcceptsFields(o, fs.rest, fs, v);
      assert AcceptsFields(o, fs, fs, v) <==> Keyword(o, Kind("anyOf"), "anyOf", Arr(ToItems(xs)), fs, v);
    }
  }

  ghost predicate VariantsOk(o: Oracle, acc: Variants, v: Json)
    requires v.Obj?
  {
    forall i :: 0 <= i < |acc| && Has(v.fields, acc[i].0) ==> exists y :: y in acc[i].1 && Accepts(o, y, Get(v.fields, acc[i].0).value)
  }

  lemma {:induction false} WirePropertiesAccept(o: Oracle, acc: Variants, v: Json)
    requires v.Obj? && forall i :: 0 <= i < |acc| ==> acc[i].1 != []
    ensures PropertiesOk(o, WireProperties(acc), v) <==> VariantsOk(o, acc, v)
  {
    if acc != [] {
      var rest := acc[1..];
      assert forall i :: 0 <= i < |rest| ==> rest[i] == acc[i + 1];
      WirePropertiesAccept(o, rest, v);
      if Has(v.fields, acc[0].0) { VariantAccepts(o, acc[0].1, Get(v.fields, acc[0].0).value); }
      assert VariantsOk(o, acc, v) <==>
        ((Has(v.fields, acc[0].0) ==> exists y :: y in acc[0].1 && Accepts(o, y, Get(v.fields, acc[0].0).value)) && VariantsOk(o, rest, v)) by {
        if VariantsOk(o, rest, v) {
          forall i | 1 <= i < |acc| && Has(v.fields, acc[i].0) ensures exists y :: y in acc[i].1 && Accepts(o, y, Get(v.fields, acc[i].0).value) {
            assert acc[i] == rest[i - 1];
          }
        }
      }
    }
  }

  lemma {:induction false} AddVariantNonempty(acc: Variants, name: string, x: Json)
    requires forall i :: 0 <= i < |acc| ==> acc[i].1 != []
    ensures forall i :: 0 <= i < |AddVariant(acc, name, x)| ==> AddVariant(acc, name, x)[i].1 != []
  {
    if acc != [] && acc[0].0 != name { AddVariantNonempty(acc[1..], name, x); }
  }

  lemma {:induction false} AddPropertiesNonempty(ps: Fields, acc: Variants)
    requires forall i :: 0 <= i < |acc| ==> acc[i].1 != []
    ensures forall i :: 0 <= i < |AddProperties(ps, acc)| ==> AddProperties(ps, acc)[i].1 != []
  {
    if ps.Field? {
      AddVariantNonempty(acc, ps.key, ps.value);
      AddPropertiesNonempty(ps.rest, AddVariant(acc, ps.key, ps.value));
    }
  }

  lemma {:induction false} FieldsNonempty(s: Json, acc: Variants)
    requires forall i :: 0 <= i < |acc| ==> acc[i].1 != []
    ensures forall i :: 0 <= i < |ParameterFields(s, acc)| ==> ParameterFields(s, acc)[i].1 != []
    decreases Size(s), 1
  {
    var acc1 := AddProperties(Properties(s), acc);
    AddPropertiesNonempty(Properties(s), acc);
    BranchFieldsNonempty(Branches(s, "anyOf"), acc1);
    var acc2 := BranchFields(Branches(s, "anyOf"), acc1);
    BranchFieldsNonempty(Branches(s, "oneOf"), acc2);
    BranchFieldsNonempty(Branches(s, "allOf"), BranchFields(Branches(s, "oneOf"), acc2));
  }

  lemma {:induction false} BranchFieldsNonempty(xs: Items, acc: Variants)
    requires forall i :: 0 <= i < |acc| ==> acc[i].1 != []
    ensures forall i :: 0 <= i < |BranchFields(xs, acc)| ==> BranchFields(xs, acc)[i].1 != []
    decreases ItemsSize(xs), 0
  {
    if xs.Item? {
      FieldsNonempty(xs.head, acc);
      BranchFieldsNonempty(xs.tail, ParameterFields(xs.head, acc));
    }
  }

  /** Every declared property that the value has meets one of its declarations. */
  ghost predicate Fits(o: Oracle, s: Json, v: Json)
    requires v.Obj?
  {
    forall n, x :: Declares(s, n, x) && Has(v.fields, n) ==> Meets(o, s, n, Get(v.fields, n).value)
  }

  ghost predicate Meets(o: Oracle, s: Json, n: string, value: Json) {
    exists y :: Declares(s, n, y) && Accepts(o, y, value)
  }

  lemma DoubleNegation(o: Oracle, s: Json, rest: Fields, all: Fields, v: Json)
    ensures AcceptsFields(o, Field("not", Obj(Field("not", s, NoFields)), rest), all, v) == (Accepts(o, s, v) && AcceptsFields(o, rest, all, v))
  {
    var denial := Field("not", s, NoFields);
    assert Kind("not") == Not;
    assert AcceptsFields(o, denial, denial, v) == (!Accepts(o, s, v) && AcceptsFields(o, NoFields, denial, v));
    assert Accepts(o, Obj(denial), v) == !Accepts(o, s, v);
  }

  lemma ObjectWith(o: Oracle, ps: Fields, rest: Fields, all: Fields, v: Json)
    ensures AcceptsFields(o, Field("type", Str("object"), Field("properties", Obj(ps), rest)), all, v)
      == (v.Obj? && PropertiesOk(o, ps, v) && AcceptsFields(o, rest, all, v))
  {
    assert Kind("type") == Type && Kind("properties") == Props;
    var described := Field("properties", Obj(ps), rest);
    assert AcceptsFields(o, described, all, v) == (Keyword(o, Props, "properties", Obj(ps), all, v) && AcceptsFields(o, rest, all, v));
    assert TypeOk(Str("object"), v) == v.Obj?;
  }

  /** The wire schema of a union accepts exactly what the original accepts and whose properties meet some declaration. */
  lemma WireIsExact(o: Oracle, s: Json, v: Json)
    requires RequiresObject(s) && HasUnion(s)
    ensures Accepts(o, Wire(s), v) <==> Accepts(o, s, v) && v.Obj? && Fits(o, s, v)
  {
    var acc := ParameterFields(s, []);
    var all := Wire(s).fields;
    var denied := all.rest.rest;
    assert Wire(s) == Obj(Field("type", Str("object"), Field("properties", Obj(WireProperties(acc)), denied)));
    ObjectWith(o, WireProperties(acc), denied, all, v);
    DoubleNegation(o, s, Copied(s, COPIED), all, v);
    CopiedAccepts(o, s, COPIED, all, v);
    if v.Obj? {
      FieldsNonempty(s, []);
      WirePropertiesAccept(o, acc, v);
      VariantsAreDeclarations(o, s, v);
    }
  }

  lemma VariantsAreDeclarations(o: Oracle, s: Json, v: Json)
    requires v.Obj?
    ensures VariantsOk(o, ParameterFields(s, []), v) <==> Fits(o, s, v)
  {
    if VariantsOk(o, ParameterFields(s, []), v) { VariantsFit(o, s, v); }
    if Fits(o, s, v) { FittingVariants(o, s, v); }
  }

  lemma VariantsFit(o: Oracle, s: Json, v: Json)
    requires v.Obj? && VariantsOk(o, ParameterFields(s, []), v)
    ensures Fits(o, s, v)
  {
    var acc := ParameterFields(s, []);
    forall n, x | Declares(s, n, x) && Has(v.fields, n) ensures Meets(o, s, n, Get(v.fields, n).value) {
      FieldsAreDeclarations(s, [], n, x);
      var i :| 0 <= i < |acc| && acc[i].0 == n && x in acc[i].1;
      var y :| y in acc[i].1 && Accepts(o, y, Get(v.fields, acc[i].0).value);
      assert HasVariant(acc, n, y);
      FieldsAreDeclarations(s, [], n, y);
    }
  }

  lemma FittingVariants(o: Oracle, s: Json, v: Json)
    requires v.Obj? && Fits(o, s, v)
    ensures VariantsOk(o, ParameterFields(s, []), v)
  {
    var acc := ParameterFields(s, []);
    FieldsNonempty(s, []);
    forall i | 0 <= i < |acc| && Has(v.fields, acc[i].0) ensures exists y :: y in acc[i].1 && Accepts(o, y, Get(v.fields, acc[i].0).value) {
      var n, value := acc[i].0, Get(v.fields, acc[i].0).value;
      assert HasVariant(acc, n, acc[i].1[0]);
      FieldsAreDeclarations(s, [], n, acc[i].1[0]);
      assert Meets(o, s, n, value);
      var y :| Declares(s, n, y) && Accepts(o, y, value);
      FieldsAreDeclarations(s, [], n, y);
      var j :| 0 <= j < |acc| && acc[j].0 == n && y in acc[j].1;
      assert i == j;
    }
  }

  // ---------------------------------------------------------------- closed unions

  /** Branches that admit no undeclared property. */
  predicate AllClosed(xs: Items) {
    match xs
    case NoItems => true
    case Item(x, rest) =>
      Lookup(x, "additionalProperties") == Some(Bool(false)) && AllClosed(rest)
  }

  predicate ClosedUnions(s: Json)
    decreases Size(s), 1
  {
    AllClosed(Branches(s, "anyOf")) && AllClosed(Branches(s, "oneOf")) && ClosedConjuncts(Branches(s, "allOf"))
  }

  predicate ClosedConjuncts(xs: Items)
    decreases ItemsSize(xs), 0
  {
    match xs case NoItems => true case Item(x, rest) => ClosedUnions(x) && ClosedConjuncts(rest)
  }

  lemma {:induction false} ListedIsAccepted(o: Oracle, ps: Fields, v: Json, n: string)
    requires v.Obj? && PropertiesOk(o, ps, v) && Has(ps, n) && Has(v.fields, n)
    ensures Listed(ps, n, Get(ps, n).value) && Accepts(o, Get(ps, n).value, Get(v.fields, n).value)
  {
    if ps.key != n { ListedIsAccepted(o, ps.rest, v, n); }
  }

  lemma {:induction false} ListedHas(ps: Fields, n: string, x: Json)
    requires Listed(ps, n, x)
    ensures Has(ps, n)
  {
    if ps.key != n { ListedHas(ps.rest, n, x); }
  }

  /** A property that a schema declares itself meets that declaration. */
  lemma OwnPropertyMeets(o: Oracle, s: Json, v: Json, n: string)
    requires v.Obj? && Accepts(o, s, v) && Has(Properties(s), n) && Has(v.fields, n)
    ensures Meets(o, s, n, Get(v.fields, n).value)
  {
    KeywordHolds(o, s.fields, s.fields, v, "properties");
    ListedIsAccepted(o, Properties(s), v, n);
    assert Declares(s, n, Get(Properties(s), n).value);
  }

  lemma {:induction false} NoExtras(o: Oracle, ps: Fields, vs: Fields, n: string)
    requires ExtrasOk(o, Bool(false), ps, vs) && Has(vs, n)
    ensures Has(ps, n)
  {
    if vs.key != n { NoExtras(o, ps, vs.rest, n); }
  }

  /** The branch that accepted the value declares every property of it. */
  lemma {:induction false} ClosedBranchMeets(o: Oracle, xs: Items, v: Json, n: string) returns (y: Json)
    requires v.Obj? && AllClosed(xs) && AnyAccepts(o, xs, v) && Has(v.fields, n)
    ensures BranchDeclares(xs, n, y) && Accepts(o, y, Get(v.fields, n).value)
  {
    var x := xs.head;
    if Accepts(o, x, v) {
      KeywordHolds(o, x.fields, x.fields, v, "additionalProperties");
      assert Obj(x.fields) == x;
      NoExtras(o, Properties(x), v.fields, n);
      OwnPropertyMeets(o, x, v, n);
      y :| Declares(x, n, y) && Accepts(o, y, Get(v.fields, n).value);
    } else {
      y := ClosedBranchMeets(o, xs.tail, v, n);
    }
  }

  lemma {:induction false} ClosedMeets(o: Oracle, s: Json, v: Json, n: string, x: Json)
    requires v.Obj? && ClosedUnions(s) && Accepts(o, s, v) && Has(v.fields, n) && Declares(s, n, x)
    ensures Meets(o, s, n, Get(v.fields, n).value)
    decreases Size(s), 1
  {
    var any, one, all := Branches(s, "anyOf"), Branches(s, "oneOf"), Branches(s, "allOf");
    if Listed(Properties(s), n, x) {
      ListedHas(Properties(s), n, x);
      OwnPropertyMeets(o, s, v, n);
    } else if BranchDeclares(any, n, x) {
      AnyHolds(o, s, v);
      var y := ClosedBranchMeets(o, any, v, n);
      assert Declares(s, n, y);
    } else if BranchDeclares(one, n, x) {
      OneHolds(o, s, v);
      var y := ClosedBranchMeets(o, one, v, n);
      assert Declares(s, n, y);
    } else {
      AllHolds(o, s, v);
      var y := ConjunctMeets(o, all, v, n, x);
      assert Declares(s, n, y);
    }
  }

  lemma {:induction false} ConjunctMeets(o: Oracle, xs: Items, v: Json, n: string, x: Json) returns (y: Json)
    requires v.Obj? && ClosedConjuncts(xs) && AllAccept(o, xs, v) && Has(v.fields, n) && BranchDeclares(xs, n, x)
    ensures BranchDeclares(xs, n, y) && Accepts(o, y, Get(v.fields, n).value)
    decreases ItemsSize(xs), 0
  {
    if Declares(xs.head, n, x) {
      ClosedMeets(o, xs.head, v, n, x);
      y :| Declares(xs.head, n, y) && Accepts(o, y, Get(v.fields, n).value);
    } else {
      y := ConjunctMeets(o, xs.tail, v, n, x);
    }
  }

  /** With closed union branches the wire schema and the original accept the same values. */
  lemma ClosedUnionsKeepMeaning(o: Oracle, s: Json, v: Json)
    requires RequiresObject(s) && HasUnion(s) && ClosedUnions(s)
    ensures Accepts(o, Wire(s), v) <==> Accepts(o, s, v)
  {
    WireIsExact(o, s, v);
    if Accepts(o, s, v) {
      OnlyObjectsValidate(o, s, v);
      forall n, x | Declares(s, n, x) && Has(v.fields, n) ensures Meets(o, s, n, Get(v.fields, n).value) {
        ClosedMeets(o, s, v, n, x);
      }
    }
  }

  // ---------------------------------------------------------------- presentation

  /** The text that keeps dropped bounds readable, from the old description and the bounds. */
  type Describe = (Option<Json>, Fields) -> string

  predicate IsNumber(fs: Fields) {
    match Get(fs, "type")
    case Some(Str(t)) => t == "number"
    case Some(Arr(ts)) => Contains(ts, Str("number"))
    case _ => false
  }

  function Bounds(fs: Fields): Fields {
    match fs
    case NoFields => NoFields
    case Field(k, v, rest) => if IsBound(k) then Field(k, v, Bounds(rest)) else Bounds(rest)
  }

  function Present(d: Describe, s: Json): Json
    decreases s, 1
  {
    match s
    case Arr(xs) => Arr(PresentItems(d, xs))
    case Obj(fs) =>
      var entries := PresentFields(d, fs, IsNumber(fs));
      if IsNumber(fs) && Bounds(fs) != NoFields
      then Obj(Put(entries, "description", Str(d(Get(fs, "description"), Bounds(fs))))) else Obj(entries)
    case _ => s
  }

  function PresentItems(d: Describe, xs: Items): Items
    decreases xs, 0
  {
    match xs case NoItems => NoItems case Item(x, rest) => Item(Present(d, x), PresentItems(d, rest))
  }

  function PresentFields(d: Describe, fs: Fields, number: bool): Fields
    decreases fs, 0
  {
    match fs
    case NoFields => NoFields
    case Field(k, v, rest) =>
      if number && IsBound(k) then PresentFields(d, rest, number)
      else Field(k, if IsLiteral(k) then v else Present(d, v), PresentFields(d, rest, number))
  }

  /** The loop over the entries of an object. */
  method PresentEntries(d: Describe, fs: Fields, number: bool) returns (entries: Fields, bounds: Fields)
    ensures entries == PresentFields(d, fs, number) && (number ==> bounds == Bounds(fs)) && (!number ==> bounds == NoFields)
    decreases fs, 0
  {
    var rest := fs;
    entries, bounds := NoFields, NoFields;
    while rest != NoFields
      invariant Append(entries, PresentFields(d, rest, number)) == PresentFields(d, fs, number)
      invariant Append(bounds, if number then Bounds(rest) else NoFields) == if number then Bounds(fs) else NoFields
      decreases rest
    {
      if number && IsBound(rest.key) {
        AppendAssociates(bounds, Field(rest.key, rest.value, NoFields), Bounds(rest.rest));
        bounds := Append(bounds, Field(rest.key, rest.value, NoFields));
      } else {
        var presented := if IsLiteral(rest.key) then rest.value else Present(d, rest.value);
        AppendAssociates(entries, Field(rest.key, presented, NoFields), PresentFields(d, rest.rest, number));
        entries := Append(entries, Field(rest.key, presented, NoFields));
      }
      rest := rest.rest;
    }
    AppendNothing(entries);
    AppendNothing(bounds);
  }

  function Append(a: Fields, b: Fields): Fields {
    match a case NoFields => b case Field(k, v, rest) => Field(k, v, Append(rest, b))
  }

  lemma AppendAssociates(a: Fields, b: Fields, c: Fields)
    ensures Append(Append(a, b), c) == Append(a, Append(b, c))
  {}

  lemma AppendNothing(a: Fields)
    ensures Append(a, NoFields) == a
  {}

  // presenting twice changes nothing more

  lemma {:induction false} GetPut(fs: Fields, k: string, v: Json, other: string)
    ensures Get(Put(fs, k, v), other) == if other == k then Some(v) else Get(fs, other)
  {
    if fs.Field? && fs.key != k { GetPut(fs.rest, k, v, other); }
  }

  lemma {:induction false} GetPresented(d: Describe, fs: Fields, number: bool, k: string)
    requires !IsBound(k)
    ensures Get(PresentFields(d, fs, number), k) ==
      match Get(fs, k) case None => None case Some(v) => Some(if IsLiteral(k) then v else Present(d, v))
  {
    if fs.Field? && fs.key != k { GetPresented(d, fs.rest, number, k); }
  }

  lemma {:induction false} ContainsPresented(d: Describe, xs: Items, t: string)
    ensures Contains(PresentItems(d, xs), Str(t)) <==> Contains(xs, Str(t))
  {
    if xs.Item? { ContainsPresented(d, xs.tail, t); }
  }

  lemma PresentedFieldsKeepNumber(d: Describe, fs: Fields, number: bool)
    ensures IsNumber(PresentFields(d, fs, number)) == IsNumber(fs)
  {
    GetPresented(d, fs, number, "type");
    match Get(fs, "type")
    case Some(Arr(ts)) => ContainsPresented(d, ts, "number");
    case _ =>
  }

  lemma {:induction false} NoBoundsLeft(d: Describe, fs: Fields)
    ensures Bounds(PresentFields(d, fs, true)) == NoFields
  {
    if fs.Field? { NoBoundsLeft(d, fs.rest); }
  }

  lemma {:induction false} PutKeepsBounds(fs: Fields, v: Json)
    ensures Bounds(Put(fs, "description", v)) == Bounds(fs)
  {
    if fs.Field? { PutKeepsBounds(fs.rest, v); }
  }

  lemma {:induction false} PresentPut(d: Describe, fs: Fields, number: bool, t: string)
    ensures PresentFields(d, Put(fs, "description", Str(t)), number) == Put(PresentFields(d, fs, number), "description", Str(t))
  {
    if fs.Field? && fs.key != "description" { PresentPut(d, fs.rest, number, t); }
  }

  lemma {:induction false} PresentFieldsTwice(d: Describe, fs: Fields, number: bool)
    ensures PresentFields(d, PresentFields(d, fs, number), number) == PresentFields(d, fs, number)
    decreases fs, 0
  {
    if fs.Field? {
      PresentFieldsTwice(d, fs.rest, number);
      PresentTwice(d, fs.value);
    }
  }

  lemma {:induction false} PresentItemsTwice(d: Describe, xs: Items)
    ensures PresentItems(d, PresentItems(d, xs)) == PresentItems(d, xs)
    decreases xs, 0
  {
    if xs.Item? {
      PresentItemsTwice(d, xs.tail);
      PresentTwice(d, xs.head);
    }
  }

  /** Presentation is idempotent. */
  lemma {:induction false} PresentTwice(d: Describe, s: Json)
    ensures Present(d, Present(d, s)) == Present(d, s)
    decreases s, 1
  {
    match s
    case Arr(xs) => PresentItemsTwice(d, xs);
    case Obj(fs) =>
      var number := IsNumber(fs);
      var entries := PresentFields(d, fs, number);
      PresentFieldsTwice(d, fs, number);
      PresentedFieldsKeepNumber(d, fs, number);
      if number {
        NoBoundsLeft(d, fs);
        var t := d(Get(fs, "description"), Bounds(fs));
        PresentPut(d, entries, number, t);
        PutKeepsBounds(entries, Str(t));
        GetPut(entries, "description", Str(t), "type");
      }
    case _ =>
  }

  // presentation widens, where bounds are dropped under an even number of negations

  /**
   * Bounds are dropped only where that is harmless: `up` for schemas that may accept more, not `up` under a negation.
   * The branches of `oneOf` must be untouched, or no two of them for values of the same type; what the model does not interpret
   * must be untouched.
   */
  predicate Harmless(d: Describe, s: Json, up: bool)
    decreases s, 1
  {
    Present(d, s) == s ||
    match s
    case Obj(fs) => (up || !IsNumber(fs) || Bounds(fs) == NoFields) && HarmlessFields(d, fs, up)
    case _ => true
  }

  predicate HarmlessFields(d: Describe, fs: Fields, up: bool)
    decreases fs, 0
  {
    match fs
    case NoFields => true
    case Field(k, v, rest) => HarmlessKeyword(d, Kind(k), v, up) && HarmlessFields(d, rest, up)
  }

  predicate HarmlessKeyword(d: Describe, kind: KeywordKind, arg: Json, up: bool)
    decreases arg, 2
  {
    match kind
    case Annotation => true
    case Type => true
    case Literal => true
    case Not => Harmless(d, arg, !up)
    case AllOf => if arg.Arr? then HarmlessItems(d, arg.items, up) else Present(d, arg) == arg
    case AnyOf => if arg.Arr? then HarmlessItems(d, arg.items, up) else Present(d, arg) == arg
    case OneOf => Present(d, arg) == arg || (arg.Arr? && DisjointTypes(arg.items) && HarmlessItems(d, arg.items, up))
    case Props => if arg.Obj? then HarmlessProperties(d, arg.fields, up) else Present(d, arg) == arg
    case Extras => Harmless(d, arg, up)
    case Elements => Harmless(d, arg, up)
    case _ => Present(d, arg) == arg
  }

  predicate HarmlessItems(d: Describe, xs: Items, up: bool)
    decreases xs, 0
  {
    match xs case NoItems => true case Item(x, rest) => Harmless(d, x, up) && HarmlessItems(d, rest, up)
  }

  predicate HarmlessProperties(d: Describe, ps: Fields, up: bool)
    decreases ps, 0
  {
    match ps
    case NoFields => true
    case Field(_, x, rest) => (x.Obj? || x.Bool?) && Harmless(d, x, up) && HarmlessProperties(d, rest, up)
  }

  // ---------------------------------------------------------------- disjoint types

  /** The names that a `type` keyword lists. */
  function TypeNames(x: Json): Items {
    match Lookup(x, "type")
    case Some(Str(name)) => Item(Str(name), NoItems)
    case Some(Arr(names)) => names
    case _ => NoItems
  }

  predicate HasTypes(x: Json) {
    Lookup(x, "type").Some? && (Lookup(x, "type").value.Str? || Lookup(x, "type").value.Arr?)
  }

  /** Both are types of some value. */
  predicate Overlap(a: string, b: string) {
    a == b || (a == "number" && b == "integer") || (a == "integer" && b == "number")
  }

  predicate NameApart(a: string, names: Items) {
    match names case NoItems => true case Item(b, rest) => !(b.Str? && Overlap(a, b.s)) && NameApart(a, rest)
  }

  predicate NamesApart(names: Items, others: Items) {
    match names case NoItems => true case Item(a, rest) => (a.Str? ==> NameApart(a.s, others)) && NamesApart(rest, others)
  }

  predicate ApartFrom(x: Json, xs: Items) {
    match xs case NoItems => true case Item(y, rest) => NamesApart(TypeNames(x), TypeNames(y)) && ApartFrom(x, rest)
  }

  /** Every branch names its types, and no two of them the same. */
  predicate DisjointTypes(xs: Items) {
    match xs case NoItems => true case Item(x, rest) => HasTypes(x) && ApartFrom(x, rest) && DisjointTypes(rest)
  }

  lemma {:induction false} NameExcludes(a: string, names: Items, v: Json)
    requires NameApart(a, names) && HasType(a, v)
    ensures !AnyType(names, v)
  {
    if names.Item? { NameExcludes(a, names.tail, v); }
  }

  lemma {:induction false} NamesExclude(names: Items, others: Items, v: Json)
    requires NamesApart(names, others) && AnyType(names, v)
    ensures !AnyType(others, v)
  {
    if names.head.Str? && HasType(names.head.s, v) { NameExcludes(names.head.s, others, v); } else { NamesExclude(names.tail, others, v); }
  }

  /** Each of `ys` accepts only values of the types of its partner. */
  ghost predicate Typed(o: Oracle, xs: Items, ys: Items, v: Json) {
    match (xs, ys)
    case (NoItems, NoItems) => true
    case (Item(x, xs1), Item(y, ys1)) => (Accepts(o, y, v) ==> AnyType(TypeNames(x), v)) && Typed(o, xs1, ys1, v)
    case _ => false
  }

  lemma {:induction false} NoneElse(o: Oracle, x: Json, xs: Items, ys: Items, v: Json)
    requires ApartFrom(x, xs) && Typed(o, xs, ys, v) && AnyType(TypeNames(x), v)
    ensures CountAccepts(o, ys, v) == 0
  {
    if xs.Item? {
      NamesExclude(TypeNames(x), TypeNames(xs.head), v);
      NoneElse(o, x, xs.tail, ys.tail, v);
    }
  }

  lemma {:induction false} CountsOnce(o: Oracle, xs: Items, ys: Items, v: Json)
    requires DisjointTypes(xs) && Typed(o, xs, ys, v)
    ensures CountAccepts(o, ys, v) == 1 <==> AnyAccepts(o, ys, v)
    ensures CountAccepts(o, ys, v) <= 1
  {
    if xs.Item? {
      CountsOnce(o, xs.tail, ys.tail, v);
      if Accepts(o, ys.head, v) { NoneElse(o, xs.head, xs.tail, ys.tail, v); }
    }
  }

  lemma TypedOne(o: Oracle, x: Json, v: Json)
    requires HasTypes(x) && Accepts(o, x, v)
    ensures AnyType(TypeNames(x), v)
  {
    TypeHolds(o, x, v);
    assert Lookup(x, "type").value.Str? ==> AnyType(NoItems, v) == false;
  }

  lemma {:induction false} TypedItself(o: Oracle, xs: Items, v: Json)
    requires DisjointTypes(xs)
    ensures Typed(o, xs, xs, v)
  {
    if xs.Item? {
      if Accepts(o, xs.head, v) { TypedOne(o, xs.head, v); }
      TypedItself(o, xs.tail, v);
    }
  }

  /** Presentation leaves the types of a schema. */
  lemma PresentedTypes(d: Describe, x: Json, v: Json)
    requires HasTypes(x)
    ensures HasTypes(Present(d, x)) && AnyType(TypeNames(Present(d, x)), v) == AnyType(TypeNames(x), v)
  {
    var fs, number := x.fields, IsNumber(x.fields);
    GetPresented(d, fs, number, "type");
    if number && Bounds(fs) != NoFields {
      GetPut(PresentFields(d, fs, number), "description", Str(d(Get(fs, "description"), Bounds(fs))), "type");
    }
    var type_ := Get(fs, "type").value;
    if type_.Arr? { SameTypes(d, type_.items, v); }
  }

  lemma {:induction false} TypedPresented(o: Oracle, d: Describe, xs: Items, v: Json)
    requires DisjointTypes(xs)
    ensures Typed(o, xs, PresentItems(d, xs), v)
  {
    if xs.Item? {
      PresentedTypes(d, xs.head, v);
      if Accepts(o, Present(d, xs.head), v) { TypedOne(o, Present(d, xs.head), v); }
      TypedPresented(o, d, xs.tail, v);
    }
  }

  /** Implication in the direction of the polarity. */
  predicate Toward(up: bool, a: bool, b: bool) {
    if up then a ==> b else b ==> a
  }

  lemma {:induction false} SameTypes(d: Describe, ts: Items, v: Json)
    ensures AnyType(PresentItems(d, ts), v) == AnyType(ts, v)
  {
    if ts.Item? { SameTypes(d, ts.tail, v); }
  }

  lemma {:induction false} PropertiesAreNoNumber(d: Describe, ps: Fields, up: bool)
    requires HarmlessProperties(d, ps, up)
    ensures !IsNumber(ps)
  {
    if ps.Field? && ps.key != "type" { PropertiesAreNoNumber(d, ps.rest, up); }
  }

  lemma {:induction false} SameNames(d: Describe, ps: Fields, n: string)
    ensures Has(PresentFields(d, ps, false), n) == Has(ps, n)
  {
    if ps.Field? && ps.key != n { SameNames(d, ps.rest, n); }
  }

  /** The declared names that `additionalProperties` looks at are the same after presentation. */
  ghost predicate SameDeclared(all: Fields, all': Fields) {
    forall n :: Has(Properties(Obj(all)), n) == Has(Properties(Obj(all')), n)
  }

  lemma {:induction false} Widens(o: Oracle, d: Describe, s: Json, v: Json, up: bool)
    requires Harmless(d, s, up)
    ensures Toward(up, Accepts(o, s, v), Accepts(o, Present(d, s), v))
    decreases s, v, 2
  {
    if Present(d, s) != s && s.Obj? {
      var fs, number := s.fields, IsNumber(s.fields);
      var all' := Present(d, s).fields;
      PresentDeclares(d, s, up);
      FieldsWiden(o, d, fs, fs, all', number, v, up);
      if number && Bounds(fs) != NoFields {
        DescriptionIsFree(o, PresentFields(d, fs, number), Str(d(Get(fs, "description"), Bounds(fs))), all', v);
      }
    }
  }

  lemma {:induction false} HarmlessGet(d: Describe, fs: Fields, up: bool, k: string)
    requires HarmlessFields(d, fs, up) && Has(fs, k)
    ensures HarmlessKeyword(d, Kind(k), Get(fs, k).value, up)
  {
    if fs.key != k { HarmlessGet(d, fs.rest, up, k); }
  }

  lemma PresentDeclares(d: Describe, s: Json, up: bool)
    requires s.Obj? && HarmlessFields(d, s.fields, up)
    ensures SameDeclared(s.fields, Present(d, s).fields)
  {
    var fs, number := s.fields, IsNumber(s.fields);
    var entries := PresentFields(d, fs, number);
    GetPresented(d, fs, number, "properties");
    if number && Bounds(fs) != NoFields {
      GetPut(entries, "description", Str(d(Get(fs, "description"), Bounds(fs))), "properties");
    }
    if Has(fs, "properties") && Get(fs, "properties").value.Obj? {
      var ps := Get(fs, "properties").value.fields;
      HarmlessGet(d, fs, up, "properties");
      PropertiesAreNoNumber(d, ps, up);
      forall n ensures Has(PresentFields(d, ps, false), n) == Has(ps, n) { SameNames(d, ps, n); }
    }
  }

  lemma {:induction false} DescriptionIsFree(o: Oracle, fs: Fields, t: Json, all: Fields, v: Json)
    ensures AcceptsFields(o, Put(fs, "description", t), all, v) == AcceptsFields(o, fs, all, v)
  {
    if fs.Field? && fs.key != "description" { DescriptionIsFree(o, fs.rest, t, all, v); }
  }

  lemma {:induction false} FieldsWiden(o: Oracle, d: Describe, fs: Fields, all: Fields, all': Fields, number: bool, v: Json, up: bool)
    requires HarmlessFields(d, fs, up) && SameDeclared(all, all') && (up || !number || Bounds(fs) == NoFields)
    ensures Toward(up, AcceptsFields(o, fs, all, v), AcceptsFields(o, PresentFields(d, fs, number), all', v))
    decreases fs, v, 1
  {
    if fs.Field? {
      FieldsWiden(o, d, fs.rest, all, all', number, v, up);
      if !(number && IsBound(fs.key)) { KeywordWidens(o, d, fs.key, fs.value, all, all', v, up); }
    }
  }

  lemma {:induction false} KeywordWidens(o: Oracle, d: Describe, k: string, arg: Json, all: Fields, all': Fields, v: Json, up: bool)
    requires HarmlessKeyword(d, Kind(k), arg, up) && SameDeclared(all, all')
    ensures Toward(up, Keyword(o, Kind(k), k, arg, all, v), Keyword(o, Kind(k), k, if IsLiteral(k) then arg else Present(d, arg), all', v))
    decreases arg, v, 7
  {
    KindWidens(o, d, Kind(k), k, arg, all, all', IsLiteral(k), v, up);
  }

  /** `kept`: the argument is left as it is. */
  lemma {:induction false} KindWidens(
    o: Oracle, d: Describe, kind: KeywordKind, k: string, arg: Json, all: Fields, all': Fields, kept: bool, v: Json, up: bool)
    requires HarmlessKeyword(d, kind, arg, up) && SameDeclared(all, all')
    requires (kind == Literal ==> kept) && (kept ==> kind == Literal || kind == Annotation)
    ensures Toward(up, Keyword(o, kind, k, arg, all, v), Keyword(o, kind, k, if kept then arg else Present(d, arg), all', v))
    decreases arg, v, 6
  {
    match kind
    case Type => if arg.Arr? { SameTypes(d, arg.items, v); }
    case Not => Widens(o, d, arg, v, !up);
    case AllOf => if arg.Arr? { ItemsWiden(o, d, arg.items, v, up); }
    case AnyOf => if arg.Arr? { ItemsWiden(o, d, arg.items, v, up); }
    case OneOf => if Present(d, arg) != arg { OneOfWidens(o, d, arg.items, v, up); }
    case Props =>
      if arg.Obj? {
        PropertiesAreNoNumber(d, arg.fields, up);
        if v.Obj? { PropertiesWiden(o, d, arg.fields, v, up); }
      }
    case Extras => if v.Obj? { ExtrasWiden(o, d, arg, Properties(Obj(all)), Properties(Obj(all')), v.fields, up); }
    case Elements => if v.Arr? { ElementsWiden(o, d, arg, v.items, up); }
    case _ =>
  }

  /** At most one branch is for values of a type, before and after presentation, so that `oneOf` is `anyOf`. */
  lemma {:induction false} OneOfWidens(o: Oracle, d: Describe, xs: Items, v: Json, up: bool)
    requires DisjointTypes(xs) && HarmlessItems(d, xs, up)
    ensures Toward(up, CountAccepts(o, xs, v) == 1, CountAccepts(o, PresentItems(d, xs), v) == 1)
    decreases xs, v, 1
  {
    ItemsWiden(o, d, xs, v, up);
    TypedItself(o, xs, v);
    TypedPresented(o, d, xs, v);
    CountsOnce(o, xs, xs, v);
    CountsOnce(o, xs, PresentItems(d, xs), v);
  }

  lemma {:induction false} ItemsWiden(o: Oracle, d: Describe, xs: Items, v: Json, up: bool)
    requires HarmlessItems(d, xs, up)
    ensures Toward(up, AllAccept(o, xs, v), AllAccept(o, PresentItems(d, xs), v))
    ensures Toward(up, AnyAccepts(o, xs, v), AnyAccepts(o, PresentItems(d, xs), v))
    decreases xs, v, 0
  {
    if xs.Item? {
      Widens(o, d, xs.head, v, up);
      ItemsWiden(o, d, xs.tail, v, up);
    }
  }

  lemma {:induction false} PropertiesWiden(o: Oracle, d: Describe, ps: Fields, v: Json, up: bool)
    requires HarmlessProperties(d, ps, up) && v.Obj?
    ensures Toward(up, PropertiesOk(o, ps, v), PropertiesOk(o, PresentFields(d, ps, false), v))
    decreases ps, v, 0
  {
    if ps.Field? {
      if Has(v.fields, ps.key) { Widens(o, d, ps.value, Get(v.fields, ps.key).value, up); }
      PropertiesWiden(o, d, ps.rest, v, up);
    }
  }

  lemma {:induction false} ExtrasWiden(o: Oracle, d: Describe, x: Json, ps: Fields, ps': Fields, vs: Fields, up: bool)
    requires Harmless(d, x, up) && forall n :: Has(ps, n) == Has(ps', n)
    ensures Toward(up, ExtrasOk(o, x, ps, vs), ExtrasOk(o, Present(d, x), ps', vs))
    decreases x, vs, 4
  {
    if vs.Field? {
      Widens(o, d, x, vs.value, up);
      ExtrasWiden(o, d, x, ps, ps', vs.rest, up);
    }
  }

  lemma {:induction false} ElementsWiden(o: Oracle, d: Describe, x: Json, vs: Items, up: bool)
    requires Harmless(d, x, up)
    ensures Toward(up, ItemsOk(o, x, vs), ItemsOk(o, Present(d, x), vs))
    decreases x, vs, 4
  {
    if vs.Item? {
      Widens(o, d, x, vs.head, up);
      ElementsWiden(o, d, x, vs.tail, up);
    }
  }

  // ---------------------------------------------------------------- the whole rewriting

  function AnthropicToolSchema(d: Describe, s: Json): Option<Json> {
    if RequiresObject(s) then Some(Present(d, Wire(s))) else None
  }

  /** The property schemas that reach the root are schemas, and lose no bound under an odd number of negations. */
  ghost predicate HarmlessDeclarations(d: Describe, s: Json) {
    forall n, y :: Declares(s, n, y) ==> (y.Obj? || y.Bool?) && Harmless(d, y, true)
  }

  lemma {:induction false} HarmlessList(d: Describe, xs: seq<Json>)
    requires forall y :: y in xs ==> Harmless(d, y, true)
    ensures HarmlessItems(d, ToItems(xs), true)
  {
    if xs != [] { HarmlessList(d, xs[1..]); }
  }

  lemma {:induction false} HarmlessWireProperties(d: Describe, acc: Variants)
    requires forall i, y :: 0 <= i < |acc| && y in acc[i].1 ==> (y.Obj? || y.Bool?) && Harmless(d, y, true)
    ensures HarmlessProperties(d, WireProperties(acc), true)
  {
    if acc != [] {
      forall i, y | 0 <= i < |acc[1..]| && y in acc[1..][i].1 ensures (y.Obj? || y.Bool?) && Harmless(d, y, true) {
        assert acc[1..][i] == acc[i + 1];
      }
      HarmlessWireProperties(d, acc[1..]);
      if |acc[0].1| == 1 {
        assert acc[0].1[0] in acc[0].1;
      } else {
        HarmlessList(d, acc[0].1);
        var fs := Field("anyOf", Arr(ToItems(acc[0].1)), NoFields);
        assert HarmlessKeyword(d, Kind("anyOf"), Arr(ToItems(acc[0].1)), true);
        assert HarmlessFields(d, fs, true);
        assert Harmless(d, Obj(fs), true);
      }
    }
  }

  lemma {:induction false} HarmlessCopied(d: Describe, s: Json, keywords: seq<string>)
    requires forall k :: k in keywords ==> IsAnnotation(k)
    ensures HarmlessFields(d, Copied(s, keywords), true)
  {
    if keywords != [] {
      assert IsAnnotation(keywords[0]);
      HarmlessCopied(d, s, keywords[1..]);
    }
  }

  lemma WireIsHarmless(d: Describe, s: Json)
    requires HasUnion(s) && Harmless(d, s, true) && HarmlessDeclarations(d, s)
    ensures Harmless(d, Wire(s), true)
  {
    var acc := ParameterFields(s, []);
    forall i, y | 0 <= i < |acc| && y in acc[i].1 ensures (y.Obj? || y.Bool?) && Harmless(d, y, true) {
      FieldsAreDeclarations(s, [], acc[i].0, y);
      assert HasVariant(acc, acc[i].0, y);
    }
    HarmlessWireProperties(d, acc);
    HarmlessCopied(d, s, COPIED);
    HarmlessDenial(d, s, Copied(s, COPIED));
    HarmlessObject(d, WireProperties(acc), Wire(s).fields.rest.rest);
  }

  lemma HarmlessDenial(d: Describe, s: Json, rest: Fields)
    requires Harmless(d, s, true) && HarmlessFields(d, rest, true)
    ensures HarmlessFields(d, Field("not", Obj(Field("not", s, NoFields)), rest), true)
  {
    var denial := Field("not", s, NoFields);
    assert Kind("not") == Not;
    assert Get(denial, "type") == Get(NoFields, "type") == None;
    assert HarmlessFields(d, NoFields, false);
    assert HarmlessFields(d, denial, false);
    assert Harmless(d, Obj(denial), false);
  }

  lemma HarmlessObject(d: Describe, ps: Fields, rest: Fields)
    requires HarmlessProperties(d, ps, true) && HarmlessFields(d, rest, true)
    ensures Harmless(d, Obj(Field("type", Str("object"), Field("properties", Obj(ps), rest))), true)
  {
    assert Kind("type") == Type && Kind("properties") == Props;
    assert HarmlessFields(d, Field("properties", Obj(ps), rest), true);
  }

  /** The provider's schema rejects no call that the native contract accepts. */
  lemma NothingValidIsRejected(o: Oracle, d: Describe, s: Json, v: Json)
    requires RequiresObject(s) && ClosedUnions(s) && Harmless(d, s, true) && HarmlessDeclarations(d, s)
    requires Accepts(o, s, v)
    ensures AnthropicToolSchema(d, s).Some? && Accepts(o, AnthropicToolSchema(d, s).value, v)
  {
    if HasUnion(s) {
      ClosedUnionsKeepMeaning(o, s, v);
      WireIsHarmless(d, s);
    }
    Widens(o, d, Wire(s), v, true);
  }

  // an open branch: a union that accepts a value which the wire schema, which merges the declarations, rejects

  const TEXT: Json := Obj(Field("type", Str("string"), NoFields))
  const ANY_OBJECT: Fields := Field("type", Str("object"), NoFields)
  const NAMED: Json := Obj(Field("properties", Obj(Field("a", TEXT, NoFields)), ANY_OBJECT))
  const CHOICES: Items := Item(NAMED, Item(Obj(ANY_OBJECT), NoItems))
  const OPEN_UNION: Json := Obj(Field("anyOf", Arr(CHOICES), NoFields))
  const NUMBERED: Json := Obj(Field("a", Num(1.0), NoFields))

  /** The union `{a?: string} or any object` accepts `{a: 1}`; the wire schema does not. */
  lemma OpenBranchesNarrow(o: Oracle)
    ensures RequiresObject(OPEN_UNION) && Accepts(o, OPEN_UNION, NUMBERED) && !Accepts(o, Wire(OPEN_UNION), NUMBERED)
  {
    OpenUnionAccepts(o);
    OpenUnionRequiresObject();
    DeclaredMustMeet(o, OPEN_UNION, NUMBERED, "a", TEXT) by { OnlyTextDeclared(); NumberIsNoText(o); }
  }

  lemma NumberIsNoText(o: Oracle)
    ensures !Accepts(o, TEXT, Num(1.0)) && Get(NUMBERED.fields, "a") == Some(Num(1.0))
  {
    assert AcceptsFields(o, NoFields, TEXT.fields, Num(1.0));
  }

  /** A property whose only declaration rejects its value makes the wire schema reject the whole. */
  lemma DeclaredMustMeet(o: Oracle, s: Json, v: Json, n: string, x: Json)
    requires RequiresObject(s) && HasUnion(s) && v.Obj? && Has(v.fields, n)
    requires forall y :: Declares(s, n, y) <==> y == x
    requires !Accepts(o, x, Get(v.fields, n).value)
    ensures !Accepts(o, Wire(s), v)
  {
    assert Declares(s, n, x) && !Meets(o, s, n, Get(v.fields, n).value);
    WireIsExact(o, s, v);
  }

  lemma OpenUnionAccepts(o: Oracle)
    ensures Accepts(o, OPEN_UNION, NUMBERED)
  {
    assert Kind("anyOf") == AnyOf && Kind("type") == Type;
    assert Accepts(o, Obj(ANY_OBJECT), NUMBERED) by { assert AcceptsFields(o, NoFields, ANY_OBJECT, NUMBERED); }
    assert AnyAccepts(o, CHOICES.tail, NUMBERED);
    assert AnyAccepts(o, CHOICES, NUMBERED);
    assert AcceptsFields(o, NoFields, OPEN_UNION.fields, NUMBERED);
  }

  lemma OpenUnionRequiresObject()
    ensures RequiresObject(OPEN_UNION) && HasUnion(OPEN_UNION)
  {
    assert Branches(OPEN_UNION, "anyOf") == CHOICES;
    assert Lookup(OPEN_UNION, "type").None?;
    assert RequiresObject(Obj(ANY_OBJECT));
    assert RequiresObject(NAMED);
    assert EveryRequires(CHOICES.tail);
    assert EveryRequires(CHOICES);
  }

  lemma OnlyTextDeclared()
    ensures forall y :: Declares(OPEN_UNION, "a", y) <==> y == TEXT
  {
    forall y ensures Declares(OPEN_UNION, "a", y) <==> y == TEXT {
      NoBranches(OPEN_UNION);
      ChoicesDeclare(y);
      assert Branches(OPEN_UNION, "anyOf") == CHOICES;
      assert !Listed(NoFields, "a", y);
      assert !BranchDeclares(NoItems, "a", y);
    }
  }

  lemma ChoicesDeclare(y: Json)
    ensures BranchDeclares(CHOICES, "a", y) <==> y == TEXT
  {
    NamedDeclares(y);
    AnyObjectDeclares(y);
    assert !BranchDeclares(NoItems, "a", y);
    assert !BranchDeclares(CHOICES.tail, "a", y);
  }

  lemma NamedDeclares(y: Json)
    ensures Declares(NAMED, "a", y) <==> y == TEXT
  {
    NoBranches(NAMED);
    assert Properties(NAMED) == Field("a", TEXT, NoFields);
    assert !Listed(NoFields, "a", y);
    assert !BranchDeclares(NoItems, "a", y);
  }

  lemma AnyObjectDeclares(y: Json)
    ensures !Declares(Obj(ANY_OBJECT), "a", y)
  {
    NoBranches(Obj(ANY_OBJECT));
    assert !Listed(NoFields, "a", y);
    assert !BranchDeclares(NoItems, "a", y);
  }

  lemma NoBranches(s: Json)
    requires s in [OPEN_UNION, NAMED, Obj(ANY_OBJECT)]
    ensures Branches(s, "oneOf") == NoItems && Branches(s, "allOf") == NoItems
    ensures s != OPEN_UNION ==> Branches(s, "anyOf") == NoItems
    ensures s != NAMED ==> Properties(s) == NoFields
  {
    assert Get(NoFields, "a") == None;
  }

  // branches of one type: a `oneOf` that accepts a value which the presented one, with both bounds dropped, accepts twice

  const AT_LEAST_FIVE: Fields := Field("type", Str("number"), Field("minimum", Num(5.0), NoFields))
  const AT_MOST_THREE: Fields := Field("type", Str("number"), Field("maximum", Num(3.0), NoFields))
  const RANGES: Items := Item(Obj(AT_LEAST_FIVE), Item(Obj(AT_MOST_THREE), NoItems))
  const EITHER_RANGE: Json := Obj(Field("oneOf", Arr(RANGES), NoFields))

  /** Either at least 5 or at most 3: seven is accepted before presentation, and not after. */
  lemma OneOfMayNarrow(o: Oracle, d: Describe)
    requires o.bound("minimum", Num(5.0), 7.0) && !o.bound("maximum", Num(3.0), 7.0)
    ensures Accepts(o, EITHER_RANGE, Num(7.0)) && !Accepts(o, Present(d, EITHER_RANGE), Num(7.0))
    ensures !DisjointTypes(RANGES)
  {
    RangesCount(o);
    OneOfCounts(o, RANGES, Num(7.0));
    PresentedRanges(o, d);
    OneOfCounts(o, PresentItems(d, RANGES), Num(7.0));
    assert Present(d, EITHER_RANGE) == Obj(Field("oneOf", Arr(PresentItems(d, RANGES)), NoFields)) by { OnlyOneOf(d, RANGES); }
    assert Overlap("number", "number");
  }

  lemma OneOfCounts(o: Oracle, xs: Items, v: Json)
    ensures Accepts(o, Obj(Field("oneOf", Arr(xs), NoFields)), v) <==> CountAccepts(o, xs, v) == 1
  {
    var fs := Field("oneOf", Arr(xs), NoFields);
    assert Kind("oneOf") == OneOf;
    assert AcceptsFields(o, fs, fs, v) == (CountAccepts(o, xs, v) == 1 && AcceptsFields(o, NoFields, fs, v));
  }

  lemma OnlyOneOf(d: Describe, xs: Items)
    ensures Present(d, Obj(Field("oneOf", Arr(xs), NoFields))) == Obj(Field("oneOf", Arr(PresentItems(d, xs)), NoFields))
  {
    var fs := Field("oneOf", Arr(xs), NoFields);
    assert Get(fs, "type") == Get(NoFields, "type") == None;
    assert PresentFields(d, fs, false) == Field("oneOf", Present(d, Arr(xs)), PresentFields(d, NoFields, false));
  }

  lemma BoundedNumber(o: Oracle, k: string, limit: real, x: real)
    requires IsBound(k)
    ensures Accepts(o, Obj(Field("type", Str("number"), Field(k, Num(limit), NoFields))), Num(x)) <==> o.bound(k, Num(limit), x)
  {
    var fs := Field("type", Str("number"), Field(k, Num(limit), NoFields));
    assert Kind("type") == Type && Kind(k) == Bound;
    assert AcceptsFields(o, fs.rest, fs, Num(x)) == (o.bound(k, Num(limit), x) && AcceptsFields(o, NoFields, fs, Num(x)));
    assert AcceptsFields(o, fs, fs, Num(x)) == (TypeOk(Str("number"), Num(x)) && AcceptsFields(o, fs.rest, fs, Num(x)));
  }

  lemma RangesCount(o: Oracle)
    requires o.bound("minimum", Num(5.0), 7.0) && !o.bound("maximum", Num(3.0), 7.0)
    ensures CountAccepts(o, RANGES, Num(7.0)) == 1
  {
    BoundedNumber(o, "minimum", 5.0, 7.0);
    BoundedNumber(o, "maximum", 3.0, 7.0);
    assert CountAccepts(o, RANGES.tail, Num(7.0)) == 0;
  }

  /** A number with one bound becomes any number. */
  lemma UnboundedNumber(o: Oracle, d: Describe, k: string, limit: real, x: real)
    requires IsBound(k)
    ensures Accepts(o, Present(d, Obj(Field("type", Str("number"), Field(k, Num(limit), NoFields)))), Num(x))
  {
    var fs := Field("type", Str("number"), Field(k, Num(limit), NoFields));
    var kept := Field("type", Str("number"), NoFields);
    assert IsNumber(fs) && Bounds(fs) != NoFields && PresentFields(d, fs, true) == kept by {
      assert !IsBound("type") && Bounds(fs) == Bounds(fs.rest) && Bounds(NoFields) == NoFields;
      assert PresentFields(d, fs.rest, true) == NoFields;
    }
    var t := Str(d(Get(fs, "description"), Bounds(fs)));
    DescriptionIsFree(o, kept, t, Put(kept, "description", t), Num(x));
    assert Kind("type") == Type;
    assert AcceptsFields(o, NoFields, Put(kept, "description", t), Num(x));
  }

  lemma PresentedRanges(o: Oracle, d: Describe)
    ensures CountAccepts(o, PresentItems(d, RANGES), Num(7.0)) == 2
  {
    UnboundedNumber(o, d, "minimum", 5.0, 7.0);
    UnboundedNumber(o, d, "maximum", 3.0, 7.0);
    assert PresentItems(d, RANGES.tail) == Item(Present(d, Obj(AT_MOST_THREE)), NoItems);
    assert CountAccepts(o, PresentItems(d, RANGES.tail), Num(7.0)) == 1;
  }
}
