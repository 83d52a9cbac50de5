/**
 * The parts of the tool-schema model read one by one: what each keyword of a schema means (sections 10.2 and 10.3 of JSON Schema
 * Core 2020-12), which schemas the root test admits, and what each key of a rewritten schema holds
 * (packages/runtime/anthropic-tool-schema.js).
 */
module ToolSchemaMeaning {
  import opened Options
  import opened ToolSchema

  /** The elements of a JSON array. */
  function List(xs: Items): seq<Json> {
    match xs case NoItems => [] case Item(x, rest) => [x] + List(rest)
  }

  function Keys(fs: Fields): seq<string> {
    match fs case NoFields => [] case Field(k, _, rest) => [k] + Keys(rest)
  }

  // ---------------------------------------------------------------- what the keywords mean

  lemma ListCons(xs: Items)
    requires xs.Item?
    ensures List(xs) == [xs.head] + List(xs.tail)
    ensures xs.head in List(xs)
    ensures forall x :: x in List(xs) ==> x == xs.head || x in List(xs.tail)
    ensures forall x :: x in List(xs.tail) ==> x in List(xs)
  {}

  ghost predicate EachAccepts(o: Oracle, list: seq<Json>, v: Json) {
    forall x :: x in list ==> Accepts(o, x, v)
  }

  ghost predicate SomeAccepts(o: Oracle, list: seq<Json>, v: Json) {
    exists x :: x in list && Accepts(o, x, v)
  }

  ghost predicate AcceptsEach(o: Oracle, x: Json, list: seq<Json>) {
    forall v :: v in list ==> Accepts(o, x, v)
  }

  /** Every property that is there meets each declaration of its name. */
  ghost predicate DeclaredAccept(o: Oracle, ps: Fields, v: Json)
    requires v.Obj?
  {
    forall n, x :: Listed(ps, n, x) && Has(v.fields, n) ==> Accepts(o, x, Get(v.fields, n).value)
  }

  lemma {:induction false} AllMeans(o: Oracle, xs: Items, v: Json)
    ensures AllAccept(o, xs, v) <==> EachAccepts(o, List(xs), v)
  {
    if xs.Item? {
      AllMeans(o, xs.tail, v);
      ListCons(xs);
      assert AllAccept(o, xs, v) == (Accepts(o, xs.head, v) && AllAccept(o, xs.tail, v));
    }
  }

  lemma {:induction false} AnyMeans(o: Oracle, xs: Items, v: Json)
    ensures AnyAccepts(o, xs, v) <==> SomeAccepts(o, List(xs), v)
  {
    if xs.Item? {
      AnyMeans(o, xs.tail, v);
      ListCons(xs);
      assert AnyAccepts(o, xs, v) == (Accepts(o, xs.head, v) || AnyAccepts(o, xs.tail, v));
    }
  }

  ghost predicate AcceptsAt(o: Oracle, list: seq<Json>, i: int, v: Json) {
    0 <= i < |list| && Accepts(o, list[i], v)
  }

  ghost predicate NoneOf(o: Oracle, list: seq<Json>, v: Json) {
    forall i :: !AcceptsAt(o, list, i, v)
  }

  /** Accepted by the branch at one place, and by no other. */
  ghost predicate JustOne(o: Oracle, list: seq<Json>, v: Json) {
    exists i :: Alone(o, list, i, v)
  }

  ghost predicate Alone(o: Oracle, list: seq<Json>, i: int, v: Json) {
    AcceptsAt(o, list, i, v) && forall j :: AcceptsAt(o, list, j, v) ==> j == i
  }

  lemma AcceptsCons(o: Oracle, x: Json, rest: seq<Json>, v: Json, i: int)
    ensures AcceptsAt(o, [x] + rest, 0, v) <==> Accepts(o, x, v)
    ensures i != 0 ==> (AcceptsAt(o, [x] + rest, i, v) <==> AcceptsAt(o, rest, i - 1, v))
  {}

  lemma NoneCons(o: Oracle, x: Json, rest: seq<Json>, v: Json)
    ensures NoneOf(o, [x] + rest, v) <==> !Accepts(o, x, v) && NoneOf(o, rest, v)
  {
    forall i ensures i != 0 ==> (AcceptsAt(o, [x] + rest, i, v) <==> AcceptsAt(o, rest, i - 1, v)) { AcceptsCons(o, x, rest, v, i); }
    AcceptsCons(o, x, rest, v, 0);
    if NoneOf(o, [x] + rest, v) {
      forall i ensures !AcceptsAt(o, rest, i, v) { AcceptsCons(o, x, rest, v, i + 1); }
    }
  }

  lemma OneCons(o: Oracle, x: Json, rest: seq<Json>, v: Json)
    ensures JustOne(o, [x] + rest, v) <==> if Accepts(o, x, v) then NoneOf(o, rest, v) else JustOne(o, rest, v)
  {
    var list := [x] + rest;
    AcceptsCons(o, x, rest, v, 0);
    if JustOne(o, list, v) {
      var i :| Alone(o, list, i, v);
      if Accepts(o, x, v) {
        forall j ensures !AcceptsAt(o, rest, j, v) { AcceptsCons(o, x, rest, v, j + 1); }
      } else {
        AcceptsCons(o, x, rest, v, i);
        forall j | AcceptsAt(o, rest, j, v) ensures j == i - 1 { AcceptsCons(o, x, rest, v, j + 1); }
        assert Alone(o, rest, i - 1, v);
      }
    }
    if Accepts(o, x, v) && NoneOf(o, rest, v) {
      forall j | AcceptsAt(o, list, j, v) ensures j == 0 { AcceptsCons(o, x, rest, v, j); }
      assert Alone(o, list, 0, v);
    }
    if !Accepts(o, x, v) && JustOne(o, rest, v) {
      var i :| Alone(o, rest, i, v);
      AcceptsCons(o, x, rest, v, i + 1);
      forall j | AcceptsAt(o, list, j, v) ensures j == i + 1 { AcceptsCons(o, x, rest, v, j); }
      assert Alone(o, list, i + 1, v);
    }
  }

  lemma {:induction false} OneMeans(o: Oracle, xs: Items, v: Json)
    ensures CountAccepts(o, xs, v) == 0 <==> NoneOf(o, List(xs), v)
    ensures CountAccepts(o, xs, v) == 1 <==> JustOne(o, List(xs), v)
  {
    if xs.Item? {
      OneMeans(o, xs.tail, v);
      ListCons(xs);
      NoneCons(o, xs.head, List(xs.tail), v);
      OneCons(o, xs.head, List(xs.tail), v);
      assert CountAccepts(o, xs, v) == (if Accepts(o, xs.head, v) then 1 else 0) + CountAccepts(o, xs.tail, v);
    }
  }

  lemma {:induction false} ItemsMean(o: Oracle, x: Json, vs: Items)
    ensures ItemsOk(o, x, vs) <==> AcceptsEach(o, x, List(vs))
  {
    if vs.Item? {
      ItemsMean(o, x, vs.tail);
      ListCons(vs);
      assert ItemsOk(o, x, vs) == (Accepts(o, x, vs.head) && ItemsOk(o, x, vs.tail));
    }
  }

  /** Each listed property that the value has is accepted by its schema. */
  lemma {:induction false} PropertiesMean(o: Oracle, ps: Fields, v: Json)
    requires v.Obj?
    ensures PropertiesOk(o, ps, v) <==> DeclaredAccept(o, ps, v)
  {
    if ps.Field? {
      PropertiesMean(o, ps.rest, v);
      ListedCons(ps);
      assert PropertiesOk(o, ps, v) ==
        ((Get(v.fields, ps.key).Some? ==> Accepts(o, ps.value, Get(v.fields, ps.key).value)) && PropertiesOk(o, ps.rest, v));
    }
  }

  lemma ListedCons(fs: Fields)
    requires fs.Field?
    ensures Listed(fs, fs.key, fs.value)
    ensures forall n, x :: Listed(fs, n, x) ==> (n == fs.key && x == fs.value) || Listed(fs.rest, n, x)
    ensures forall n, x :: Listed(fs.rest, n, x) ==> Listed(fs, n, x)
  {}

  ghost predicate OthersAccept(o: Oracle, x: Json, ps: Fields, vs: Fields) {
    forall n, v :: Listed(vs, n, v) && n !in Keys(ps) ==> Accepts(o, x, v)
  }

  /** Each value whose name no property has is accepted by the schema for the others. */
  lemma {:induction false} ExtrasMean(o: Oracle, x: Json, ps: Fields, vs: Fields)
    ensures ExtrasOk(o, x, ps, vs) <==> OthersAccept(o, x, ps, vs)
  {
    if vs.Field? {
      ExtrasMean(o, x, ps, vs.rest);
      ListedCons(vs);
      HasIsKey(ps, vs.key);
      assert ExtrasOk(o, x, ps, vs) == ((Has(ps, vs.key) || Accepts(o, x, vs.value)) && ExtrasOk(o, x, ps, vs.rest));
      if OthersAccept(o, x, ps, vs) {
        forall n, v | Listed(vs.rest, n, v) && n !in Keys(ps) ensures Accepts(o, x, v) { assert Listed(vs, n, v); }
      }
    }
  }

  lemma {:induction false} HasIsKey(fs: Fields, k: string)
    ensures Has(fs, k) <==> k in Keys(fs)
  {
    if fs.Field? && fs.key != k { HasIsKey(fs.rest, k); }
  }

  /** A `type` is one name or several; an integer is a whole number. */
  predicate OfType(name: string, v: Json) {
    || (name == "null" && v == Null) || (name == "boolean" && v.Bool?) || (name == "string" && v.Str?)
    || (name == "array" && v.Arr?) || (name == "object" && v.Obj?) || (name == "number" && v.Num?)
    || (name == "integer" && v.Num? && v.n - v.n.Floor as real == 0.0)
  }

  ghost predicate OfSomeType(names: seq<Json>, v: Json) {
    exists x :: x in names && x.Str? && OfType(x.s, v)
  }

  lemma TypeMeans(name: string, v: Json)
    ensures TypeOk(Str(name), v) <==> OfType(name, v)
  {}

  lemma {:induction false} TypesMean(names: Items, v: Json)
    ensures TypeOk(Arr(names), v) <==> OfSomeType(List(names), v)
  {
    if names.Item? {
      ListCons(names);
      TypesMean(names.tail, v);
      if names.head.Str? { TypeMeans(names.head.s, v); }
    }
  }

  /** One keyword, read by itself. */
  ghost predicate Means(o: Oracle, k: string, arg: Json, declared: Fields, v: Json) {
    if k == "type" && arg.Str? then OfType(arg.s, v)
    else if k == "type" && arg.Arr? then OfSomeType(List(arg.items), v)
    else if k == "not" then !Accepts(o, arg, v)
    else if k == "allOf" && arg.Arr? then EachAccepts(o, List(arg.items), v)
    else if k == "anyOf" && arg.Arr? then SomeAccepts(o, List(arg.items), v)
    else if k == "oneOf" && arg.Arr? then JustOne(o, List(arg.items), v)
    else if k == "properties" && arg.Obj? then v.Obj? ==> DeclaredAccept(o, arg.fields, v)
    else if k == "additionalProperties" then v.Obj? ==> OthersAccept(o, arg, declared, v.fields)
    else if k == "items" then v.Arr? ==> AcceptsEach(o, arg, List(v.items))
    else if k in {"minimum", "maximum", "exclusiveMinimum", "exclusiveMaximum", "multipleOf"} then v.Num? ==> o.bound(k, arg, v.n)
    else if k in {"description", "title", "$defs", "definitions", "$id", "$schema", "default", "examples"} then true
    else if k == "type" then true
    else o.other(k, arg, v)
  }

  /** Each keyword of the fragment has the meaning that the standard gives it. */
  lemma KeywordMeans(o: Oracle, k: string, arg: Json, all: Fields, v: Json)
    ensures Keyword(o, Kind(k), k, arg, all, v) <==> Means(o, k, arg, Properties(Obj(all)), v)
  {
    match k
    case "type" => TypeKeyword(o, arg, all, v);
    case "allOf" => AllKeyword(o, arg, all, v);
    case "anyOf" => AnyKeyword(o, arg, all, v);
    case "oneOf" => OneKeyword(o, arg, all, v);
    case "properties" => PropsMean(o, arg, all, v);
    case "additionalProperties" => OthersMean(o, arg, all, v);
    case "items" => ElementsMean(o, arg, all, v);
    case _ => PlainKeywords(o, k, arg, all, v);
  }

  lemma TypeKeyword(o: Oracle, arg: Json, all: Fields, v: Json)
    ensures Kind("type") == Type
    ensures Keyword(o, Type, "type", arg, all, v) <==> Means(o, "type", arg, Properties(Obj(all)), v)
  {
    if arg.Str? { TypeMeans(arg.s, v); } else if arg.Arr? { TypesMean(arg.items, v); }
  }

  lemma AllKeyword(o: Oracle, arg: Json, all: Fields, v: Json)
    ensures Kind("allOf") == AllOf
    ensures Keyword(o, AllOf, "allOf", arg, all, v) <==> Means(o, "allOf", arg, Properties(Obj(all)), v)
  {
    if arg.Arr? { AllMeans(o, arg.items, v); }
  }

  lemma AnyKeyword(o: Oracle, arg: Json, all: Fields, v: Json)
    ensures Kind("anyOf") == AnyOf
    ensures Keyword(o, AnyOf, "anyOf", arg, all, v) <==> Means(o, "anyOf", arg, Properties(Obj(all)), v)
  {
    if arg.Arr? { AnyMeans(o, arg.items, v); }
  }

  lemma OneKeyword(o: Oracle, arg: Json, all: Fields, v: Json)
    ensures Kind("oneOf") == OneOf
    ensures Keyword(o, OneOf, "oneOf", arg, all, v) <==> Means(o, "oneOf", arg, Properties(Obj(all)), v)
  {
    if arg.Arr? { OneMeans(o, arg.items, v); }
  }

  lemma OthersMean(o: Oracle, arg: Json, all: Fields, v: Json)
    ensures Kind("additionalProperties") == Extras
    ensures Keyword(o, Extras, "additionalProperties", arg, all, v) <==> Means(o, "additionalProperties", arg, Properties(Obj(all)), v)
  {
    if v.Obj? { ExtrasMean(o, arg, Properties(Obj(all)), v.fields); }
  }

  lemma PlainKeywords(o: Oracle, k: string, arg: Json, all: Fields, v: Json)
    requires k !in ["type", "allOf", "anyOf", "oneOf", "properties", "additionalProperties", "items"]
    ensures Keyword(o, Kind(k), k, arg, all, v) <==> Means(o, k, arg, Properties(Obj(all)), v)
  {}

  lemma PropsMean(o: Oracle, arg: Json, all: Fields, v: Json)
    ensures Kind("properties") == Props
    ensures Keyword(o, Props, "properties", arg, all, v) <==> Means(o, "properties", arg, Properties(Obj(all)), v)
  {
    if arg.Obj? && v.Obj? {
      PropertiesMean(o, arg.fields, v);
      assert Keyword(o, Props, "properties", arg, all, v) == PropertiesOk(o, arg.fields, v);
    }
  }

  lemma ElementsMean(o: Oracle, arg: Json, all: Fields, v: Json)
    ensures Kind("items") == Elements
    ensures Keyword(o, Elements, "items", arg, all, v) <==> Means(o, "items", arg, Properties(Obj(all)), v)
  {
    if v.Arr? {
      ItemsMean(o, arg, v.items);
      assert Keyword(o, Elements, "items", arg, all, v) == ItemsOk(o, arg, v.items);
    }
  }

  /** A schema object accepts what each of its keywords accepts; `true` accepts everything and `false` nothing. */
  lemma {:induction false} SchemaMeans(o: Oracle, fs: Fields, all: Fields, v: Json)
    ensures AcceptsFields(o, fs, all, v) <==> forall k, arg :: Listed(fs, k, arg) ==> Means(o, k, arg, Properties(Obj(all)), v)
    ensures Accepts(o, Bool(true), v) && !Accepts(o, Bool(false), v)
    ensures Accepts(o, Obj(fs), v) == AcceptsFields(o, fs, fs, v)
  {
    if fs.Field? {
      SchemaMeans(o, fs.rest, all, v);
      KeywordMeans(o, fs.key, fs.value, all, v);
      ListedCons(fs);
    }
  }

  // ---------------------------------------------------------------- the root test

  lemma {:induction false} EveryMeans(xs: Items)
    ensures EveryRequires(xs) <==> forall x :: x in List(xs) ==> RequiresObject(x)
    ensures SomeRequires(xs) <==> exists x :: x in List(xs) && RequiresObject(x)
  {
    if xs.Item? {
      EveryMeans(xs.tail);
      ListCons(xs);
      assert EveryRequires(xs) == (RequiresObject(xs.head) && EveryRequires(xs.tail));
      assert SomeRequires(xs) == (RequiresObject(xs.head) || SomeRequires(xs.tail));
    }
  }

  lemma {:induction false} ContainsMeans(xs: Items, x: Json)
    ensures Contains(xs, x) <==> x in List(xs)
  {
    if xs.Item? { ContainsMeans(xs.tail, x); }
  }

  /** The array under a keyword, when there is one. */
  function Under(s: Json, key: string): seq<Json> {
    match Lookup(s, key) case Some(Arr(xs)) => List(xs) case _ => []
  }

  /** The type of a schema leaves room for objects. */
  predicate MayBeObject(s: Json) {
    Lookup(s, "type").None? || Str("object") in Under(s, "type")
  }

  /**
   * The root test: the type is `object`; or it leaves room for objects, and all branches of a union or some conjunct pass the
   * test themselves.
   */
  lemma RootTest(s: Json)
    ensures RequiresObject(s) <==>
      && s.Obj?
      && (|| Lookup(s, "type") == Some(Str("object"))
          || (MayBeObject(s)
              && (|| (Under(s, "anyOf") != [] && forall x :: x in Under(s, "anyOf") ==> RequiresObject(x))
                  || (Under(s, "oneOf") != [] && forall x :: x in Under(s, "oneOf") ==> RequiresObject(x))
                  || (exists x :: x in Under(s, "allOf") && RequiresObject(x)))))
  {
    BranchesUnder(s, "anyOf");
    BranchesUnder(s, "oneOf");
    BranchesUnder(s, "allOf");
    if Lookup(s, "type").Some? && Lookup(s, "type").value.Arr? { ContainsMeans(Lookup(s, "type").value.items, Str("object")); }
  }

  lemma BranchesUnder(s: Json, key: string)
    ensures List(Branches(s, key)) == Under(s, key) && (Branches(s, key) == NoItems <==> Under(s, key) == [])
    ensures EveryRequires(Branches(s, key)) <==> forall x :: x in Under(s, key) ==> RequiresObject(x)
    ensures SomeRequires(Branches(s, key)) <==> exists x :: x in Under(s, key) && RequiresObject(x)
  {
    EveryMeans(Branches(s, key));
  }

  // ---------------------------------------------------------------- collected fields

  /** A declaration is added to the schemas of its name, unless it is there; a new name comes last. */
  lemma {:induction false} AddVariantExact(acc: Variants, name: string, x: Json)
    ensures Unnamed(acc, name) ==> AddVariant(acc, name, x) == acc + [(name, [x])]
    ensures forall i :: FirstNamed(acc, i, name) ==>
      AddVariant(acc, name, x) == acc[i := (name, if x in acc[i].1 then acc[i].1 else acc[i].1 + [x])]
  {
    if acc != [] {
      var rest := acc[1..];
      AddVariantExact(rest, name, x);
      if Unnamed(acc, name) {
        UnnamedRest(acc, name);
        assert [acc[0]] + (rest + [(name, [x])]) == acc + [(name, [x])];
      }
      forall i | FirstNamed(acc, i, name) ensures AddVariant(acc, name, x) == acc[i := (name, if x in acc[i].1 then acc[i].1 else acc[i].1 + [x])] {
        if i == 0 {
          assert [(name, acc[0].1 + [x])] + rest == acc[0 := (name, acc[0].1 + [x])];
        } else {
          FirstNamedRest(acc, i, name);
          AddedBehind(acc, name, x, i);
        }
      }
    }
  }

  ghost predicate Unnamed(acc: Variants, name: string) {
    forall i :: 0 <= i < |acc| ==> acc[i].0 != name
  }

  ghost predicate FirstNamed(acc: Variants, i: int, name: string) {
    0 <= i < |acc| && acc[i].0 == name && forall j :: 0 <= j < i ==> acc[j].0 != name
  }

  lemma UnnamedRest(acc: Variants, name: string)
    requires acc != [] && Unnamed(acc, name)
    ensures Unnamed(acc[1..], name) && acc[0].0 != name
  {
    forall i | 0 <= i < |acc[1..]| ensures acc[1..][i].0 != name { assert acc[1..][i] == acc[i + 1]; }
  }

  lemma FirstNamedRest(acc: Variants, i: int, name: string)
    requires FirstNamed(acc, i, name) && i > 0
    ensures FirstNamed(acc[1..], i - 1, name) && acc[0].0 != name
  {
    forall j | 0 <= j < i - 1 ensures acc[1..][j].0 != name { assert acc[1..][j] == acc[j + 1]; }
  }

  lemma AddedBehind(acc: Variants, name: string, x: Json, i: int)
    requires 0 < i < |acc| && acc[i].0 == name && acc[0].0 != name
    requires AddVariant(acc[1..], name, x) == acc[1..][i - 1 := (name, if x in acc[1..][i - 1].1 then acc[1..][i - 1].1 else acc[1..][i - 1].1 + [x])]
    ensures AddVariant(acc, name, x) == acc[i := (name, if x in acc[i].1 then acc[i].1 else acc[i].1 + [x])]
  {
    var e := (name, if x in acc[i].1 then acc[i].1 else acc[i].1 + [x]);
    assert acc[1..][i - 1] == acc[i];
    assert [acc[0]] + acc[1..][i - 1 := e] == acc[i := e];
  }

  /** The declarations of a schema as one reads it: its own properties, then those of its branches. */
  function Declarations(s: Json): seq<(string, Json)>
    decreases Size(s), 1
  {
    Pairs(Properties(s)) + BranchDeclarations(Branches(s, "anyOf")) + BranchDeclarations(Branches(s, "oneOf"))
    + BranchDeclarations(Branches(s, "allOf"))
  }

  function BranchDeclarations(xs: Items): seq<(string, Json)>
    decreases ItemsSize(xs), 0
  {
    match xs case NoItems => [] case Item(x, rest) => Declarations(x) + BranchDeclarations(rest)
  }

  function Pairs(fs: Fields): seq<(string, Json)> {
    match fs case NoFields => [] case Field(k, v, rest) => [(k, v)] + Pairs(rest)
  }

  function AddAll(acc: Variants, ds: seq<(string, Json)>): Variants
    decreases |ds|
  {
    if ds == [] then acc else AddAll(AddVariant(acc, ds[0].0, ds[0].1), ds[1..])
  }

  lemma {:induction false} AddAllTogether(acc: Variants, a: seq<(string, Json)>, b: seq<(string, Json)>)
    ensures AddAll(acc, a + b) == AddAll(AddAll(acc, a), b)
    decreases |a|
  {
    if a == [] {
      assert a + b == b;
    } else {
      assert (a + b)[1..] == a[1..] + b;
      AddAllTogether(AddVariant(acc, a[0].0, a[0].1), a[1..], b);
    }
  }

  lemma {:induction false} PropertiesInOrder(ps: Fields, acc: Variants)
    ensures AddProperties(ps, acc) == AddAll(acc, Pairs(ps))
  {
    if ps.Field? {
      assert Pairs(ps)[1..] == Pairs(ps.rest);
      PropertiesInOrder(ps.rest, AddVariant(acc, ps.key, ps.value));
    }
  }

  /** The fields are collected one declaration after the other, in the order in which one reads them. */
  lemma {:induction false} FieldsInOrder(s: Json, acc: Variants)
    ensures ParameterFields(s, acc) == AddAll(acc, Declarations(s))
    decreases Size(s), 1
  {
    var own, any, one, all := Pairs(Properties(s)), BranchDeclarations(Branches(s, "anyOf")), BranchDeclarations(Branches(s, "oneOf")), BranchDeclarations(Branches(s, "allOf"));
    PropertiesInOrder(Properties(s), acc);
    BranchesInOrder(Branches(s, "anyOf"), AddAll(acc, own));
    BranchesInOrder(Branches(s, "oneOf"), AddAll(AddAll(acc, own), any));
    BranchesInOrder(Branches(s, "allOf"), AddAll(AddAll(AddAll(acc, own), any), one));
    AddAllTogether(acc, own, any);
    AddAllTogether(acc, own + any, one);
    AddAllTogether(acc, own + any + one, all);
  }

  lemma {:induction false} BranchesInOrder(xs: Items, acc: Variants)
    ensures BranchFields(xs, acc) == AddAll(acc, BranchDeclarations(xs))
    decreases ItemsSize(xs), 0
  {
    if xs.Item? {
      FieldsInOrder(xs.head, acc);
      BranchesInOrder(xs.tail, ParameterFields(xs.head, acc));
      AddAllTogether(acc, Declarations(xs.head), BranchDeclarations(xs.tail));
    }
  }

  // ---------------------------------------------------------------- the wire schema

  /** A plain object schema goes out as it is; there is nothing to merge, and its type is already there. */
  lemma PlainIsUntouched(s: Json)
    requires RequiresObject(s) && Lookup(s, "anyOf").None? && Lookup(s, "oneOf").None? && Lookup(s, "allOf").None?
    ensures Wire(s) == s && Lookup(s, "type") == Some(Str("object"))
  {
    RootTest(s);
  }

  /** The schema of a property that was declared once is that declaration; several become a union. */
  function Merged(variants: seq<Json>): Json {
    if |variants| == 1 then variants[0] else Obj(Field("anyOf", Arr(ToItems(variants)), NoFields))
  }

  lemma {:induction false} ListedBack(xs: seq<Json>)
    ensures List(ToItems(xs)) == xs
  {
    if xs != [] { ListedBack(xs[1..]); }
  }

  lemma {:induction false} WirePropertiesExact(acc: Variants)
    ensures |Pairs(WireProperties(acc))| == |acc|
    ensures forall i :: 0 <= i < |acc| ==> Pairs(WireProperties(acc))[i] == (acc[i].0, Merged(acc[i].1))
  {
    if acc != [] {
      WirePropertiesExact(acc[1..]);
      forall i | 0 <= i < |acc| ensures Pairs(WireProperties(acc))[i] == (acc[i].0, Merged(acc[i].1)) {
        if i > 0 { assert acc[1..][i - 1] == acc[i]; }
      }
    }
  }

  lemma {:induction false} CopiedExact(s: Json, keywords: seq<string>, k: string)
    ensures Get(Copied(s, keywords), k) == if k in keywords then Lookup(s, k) else None
  {
    if keywords != [] {
      CopiedExact(s, keywords[1..], k);
      assert keywords == [keywords[0]] + keywords[1..];
    }
  }

  lemma CopiedKeys(k: string)
    ensures k in COPIED <==> k in {"$defs", "definitions", "$id", "$schema", "title", "description"}
    ensures k in COPIED ==> k != "type" && k != "properties" && k != "not"
  {
    assert COPIED == ["$defs", "definitions", "$id", "$schema", "title", "description"];
  }

  lemma WireShape(s: Json, ps: Fields, k: string)
    ensures
      var copied := Copied(s, COPIED);
      Get(Field("type", Str("object"), Field("properties", Obj(ps), Field("not", Obj(Field("not", s, NoFields)), copied))), k)
      == if k == "type" then Some(Str("object"))
         else if k == "properties" then Some(Obj(ps))
         else if k == "not" then Some(Obj(Field("not", s, NoFields))) else Get(copied, k)
  {
    var denied := Field("not", Obj(Field("not", s, NoFields)), Copied(s, COPIED));
    var described := Field("properties", Obj(ps), denied);
    assert Get(described, k) == if k == "properties" then Some(Obj(ps)) else Get(denied, k);
    assert Get(Field("type", Str("object"), described), k) == if k == "type" then Some(Str("object")) else Get(described, k);
  }

  /** What each key of the wire schema of a union holds: the merged properties, the original twice denied, its annotations. */
  lemma WireKeys(s: Json, k: string)
    requires HasUnion(s)
    ensures HasUnion(s) <==> Lookup(s, "anyOf").Some? || Lookup(s, "oneOf").Some? || Lookup(s, "allOf").Some?
    ensures Lookup(Wire(s), k) ==
      if k == "type" then Some(Str("object"))
      else if k == "properties" then Some(Obj(WireProperties(AddAll([], Declarations(s)))))
      else if k == "not" then Some(Obj(Field("not", s, NoFields)))
      else if k in {"$defs", "definitions", "$id", "$schema", "title", "description"} then Lookup(s, k) else None
  {
    FieldsInOrder(s, []);
    CopiedExact(s, COPIED, k);
    CopiedKeys(k);
    WireShape(s, WireProperties(ParameterFields(s, [])), k);
  }

  // ---------------------------------------------------------------- presentation

  /** The schema is for numbers. */
  predicate ForNumbers(fs: Fields) {
    match Get(fs, "type")
    case Some(Str(t)) => t == "number"
    case Some(Arr(ts)) => Str("number") in List(ts)
    case _ => false
  }

  predicate NumericBound(k: string) {
    k == "minimum" || k == "maximum" || k == "exclusiveMinimum" || k == "exclusiveMaximum" || k == "multipleOf"
  }

  /** The value of a key as it is presented: literal values as they are, everything else presented itself. */
  function Shown(d: Describe, k: string, v: Json): Json {
    if k == "const" || k == "enum" || k == "default" || k == "examples" then v else Present(d, v)
  }

  lemma BoundsAreNumeric(k: string)
    ensures IsBound(k) <==> NumericBound(k)
    ensures IsLiteral(k) <==> k == "const" || k == "enum" || k == "default" || k == "examples"
  {}

  lemma {:induction false} BoundsKept(fs: Fields)
    ensures Pairs(Bounds(fs)) == Kept(Pairs(fs), true)
  {
    if fs.Field? {
      BoundsKept(fs.rest);
      BoundsAreNumeric(fs.key);
      assert Pairs(fs)[1..] == Pairs(fs.rest);
    }
  }

  /** The entries that are bounds, or those that are not, in order. */
  function Kept(entries: seq<(string, Json)>, bounds: bool): seq<(string, Json)> {
    if entries == [] then []
    else (if NumericBound(entries[0].0) == bounds then [entries[0]] else []) + Kept(entries[1..], bounds)
  }

  function ShownEach(d: Describe, entries: seq<(string, Json)>): seq<(string, Json)> {
    if entries == [] then [] else [(entries[0].0, Shown(d, entries[0].0, entries[0].1))] + ShownEach(d, entries[1..])
  }

  lemma {:induction false} EntriesShown(d: Describe, fs: Fields, number: bool)
    ensures Pairs(PresentFields(d, fs, number)) == ShownEach(d, if number then Kept(Pairs(fs), false) else Pairs(fs))
  {
    if fs.Field? {
      EntriesShown(d, fs.rest, number);
      BoundsAreNumeric(fs.key);
      assert Pairs(fs) == [(fs.key, fs.value)] + Pairs(fs.rest);
      if number {
        KeptFirst(fs.key, fs.value, Pairs(fs.rest));
        if IsBound(fs.key) {
          assert Kept(Pairs(fs), false) == Kept(Pairs(fs.rest), false);
        } else {
          assert Kept(Pairs(fs), false) == [(fs.key, fs.value)] + Kept(Pairs(fs.rest), false);
          ShownFirst(d, fs.key, fs.value, Kept(Pairs(fs.rest), false));
        }
      } else {
        ShownFirst(d, fs.key, fs.value, Pairs(fs.rest));
      }
    }
  }

  lemma KeptFirst(k: string, v: Json, rest: seq<(string, Json)>)
    ensures Kept([(k, v)] + rest, false) == (if NumericBound(k) then [] else [(k, v)]) + Kept(rest, false)
  {
    assert ([(k, v)] + rest)[1..] == rest;
  }

  lemma ShownFirst(d: Describe, k: string, v: Json, rest: seq<(string, Json)>)
    ensures ShownEach(d, [(k, v)] + rest) == [(k, Shown(d, k, v))] + ShownEach(d, rest)
  {
    assert ([(k, v)] + rest)[1..] == rest;
  }

  /** `object[key] = value` on a list of entries: in its place if the key is there, and else at the end. */
  function Set(entries: seq<(string, Json)>, k: string, v: Json): seq<(string, Json)> {
    if entries == [] then [(k, v)]
    else if entries[0].0 == k then [(k, v)] + entries[1..]
    else [entries[0]] + Set(entries[1..], k, v)
  }

  lemma {:induction false} PutSets(fs: Fields, k: string, v: Json)
    ensures Pairs(Put(fs, k, v)) == Set(Pairs(fs), k, v)
  {
    if fs.Field? {
      assert Pairs(fs)[1..] == Pairs(fs.rest);
      PutSets(fs.rest, k, v);
    }
  }

  /**
   * An object is presented entry by entry, in order.  Where it is for numbers its bounds are left out, and the description tells
   * them; nothing else is added.
   */
  lemma PresentedEntries(d: Describe, fs: Fields)
    ensures Present(d, Obj(fs)).Obj?
    ensures
      var bounds := if ForNumbers(fs) then Bounds(fs) else NoFields;
      var entries := ShownEach(d, if ForNumbers(fs) then Kept(Pairs(fs), false) else Pairs(fs));
      && Pairs(bounds) == (if ForNumbers(fs) then Kept(Pairs(fs), true) else [])
      && Pairs(Present(d, Obj(fs)).fields)
         == if bounds == NoFields then entries else Set(entries, "description", Str(d(Get(fs, "description"), bounds)))
  {
    NumbersAreMeant(fs);
    BoundsKept(fs);
    EntriesShown(d, fs, IsNumber(fs));
    PutSets(PresentFields(d, fs, IsNumber(fs)), "description", Str(d(Get(fs, "description"), Bounds(fs))));
  }

  lemma NumbersAreMeant(fs: Fields)
    ensures IsNumber(fs) <==> ForNumbers(fs)
  {
    match Get(fs, "type")
    case Some(Arr(ts)) => ContainsMeans(ts, Str("number"));
    case _ =>
  }

  lemma {:induction false} PresentedElements(d: Describe, xs: Items)
    ensures |List(PresentItems(d, xs))| == |List(xs)|
    ensures forall i :: 0 <= i < |List(xs)| ==> List(PresentItems(d, xs))[i] == Present(d, List(xs)[i])
  {
    if xs.Item? { PresentedElements(d, xs.tail); }
  }

  /** An array is presented element by element, a value that is neither stays as it is, and a root that is no object is refused. */
  lemma PresentedOthers(d: Describe, s: Json)
    ensures s.Arr? ==>
      Present(d, s).Arr? && |List(Present(d, s).items)| == |List(s.items)|
      && forall i :: 0 <= i < |List(s.items)| ==> List(Present(d, s).items)[i] == Present(d, List(s.items)[i])
    ensures !s.Arr? && !s.Obj? ==> Present(d, s) == s
    ensures AnthropicToolSchema(d, s) == if RequiresObject(s) then Some(Present(d, Wire(s))) else None
  {
    if s.Arr? { PresentedElements(d, s.items); }
  }
}
