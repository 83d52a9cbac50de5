/** Route templates: the path for some parameters, and the parameters of a path (apps/remote/server/api.ts:8-31). */
module ApiRoutes {
  import opened Options
  import opened Utf16
  import opened UriText

  datatype Piece = Literal(text: Text) | Param(name: string)
  datatype Matched = NoMatch | Malformed | Params(values: map<string, Text>)

  /** None: a parameter is missing or not well formed, and the source throws. */
  function Path(template: seq<Piece>, params: map<string, Text>): Option<Text> {
    if template == [] then Some([])
    else
      match (PieceText(template[0], params), Path(template[1..], params))
      case (Some(first), Some(rest)) => Some(first + rest)
      case _ => None
  }

  function PieceText(piece: Piece, params: map<string, Text>): Option<Text> {
    match piece
    case Literal(text) => Some(text)
    case Param(name) => if name in params then Encode(params[name]) else None
  }

  /** The pattern ignores the case of ASCII letters. */
  function Fold(u: Unit): Unit { if 0x41 <= u <= 0x5A then u + 0x20 else u }

  predicate SameText(a: Text, b: Text) {
    |a| == |b| && forall i :: 0 <= i < |a| ==> Fold(a[i]) == Fold(b[i])
  }

  /** The captures of the pattern: each parameter is a nonempty run without `/`. */
  function Captures(template: seq<Piece>, path: Text): Option<seq<Text>> {
    if template == [] then (if path == [] then Some([]) else None)
    else
      match template[0]
      case Literal(text) =>
        if |text| <= |path| && SameText(text, path[..|text|]) then Captures(template[1..], path[|text|..]) else None
      case Param(_) =>
        var n := PartLength(path);
        if n == 0 then None
        else match Captures(template[1..], path[n..]) case None => None case Some(rest) => Some([path[..n]] + rest)
  }

  function Names(template: seq<Piece>): seq<string> {
    if template == [] then [] else (match template[0] case Param(name) => [name] case _ => []) + Names(template[1..])
  }

  /** `Object.fromEntries`: a later entry of a name replaces an earlier one. */
  function Entries(names: seq<string>, captures: seq<Text>, before: map<string, Text>): Matched {
    if names == [] || captures == [] then Params(before)
    else
      match Decode(captures[0])
      case None => Malformed
      case Some(value) => Entries(names[1..], captures[1..], before[names[0] := value])
  }

  function Match(template: seq<Piece>, path: Text): Matched {
    match Captures(template, path)
    case None => NoMatch
    case Some(captures) => Entries(Names(template), captures, map[])
  }

  /** A parameter ends where a `/` or the whole template does, as in every template of the interface. */
  predicate Separated(template: seq<Piece>) {
    forall i :: 0 <= i < |template| && template[i].Param? && i + 1 < |template| ==>
      template[i + 1].Literal? && template[i + 1].text != [] && template[i + 1].text[0] == SLASH
  }

  predicate NonemptyParams(template: seq<Piece>, params: map<string, Text>) {
    forall name :: name in Names(template) ==> name in params && params[name] != []
  }

  function Encoded(names: seq<string>, params: map<string, Text>): seq<Text> {
    if names == [] then []
    else [if names[0] in params && Encode(params[names[0]]).Some? then Encode(params[names[0]]).value else []] + Encoded(names[1..], params)
  }

  /** A path is there exactly if every parameter is given and can be encoded. */
  lemma {:induction false} PathNeedsItsParameters(template: seq<Piece>, params: map<string, Text>)
    ensures Path(template, params).Some? <==> forall name :: name in Names(template) ==> name in params && Encode(params[name]).Some?
  {
    if template != [] {
      PathNeedsItsParameters(template[1..], params);
      assert Names(template) == (match template[0] case Param(name) => [name] case _ => []) + Names(template[1..]);
    }
  }

  lemma {:induction false} PathStart(template: seq<Piece>, params: map<string, Text>)
    requires template != [] && template[0].Param? && Separated(template) && Path(template, params).Some?
    ensures var rest := Path(template[1..], params).value; rest == [] || rest[0] == SLASH
  {
    if |template| > 1 { assert template[1..][0] == template[1]; }
  }

  /** The pattern captures the encoded parameters, exactly if none is empty. */
  lemma {:induction false} CapturesBack(template: seq<Piece>, params: map<string, Text>)
    requires Separated(template) && Path(template, params).Some?
    ensures Captures(template, Path(template, params).value)
      == if NonemptyParams(template, params) then Some(Encoded(Names(template), params)) else None
    decreases |template|
  {
    if template != [] {
      assert Separated(template[1..]) by {
        assert forall i :: 0 <= i < |template[1..]| ==> template[1..][i] == template[i + 1];
      }
      CapturesBack(template[1..], params);
      match template[0]
      case Literal(text) => LiteralBack(template, params, text);
      case Param(name) => ParamBack(template, params, name);
    }
  }

  lemma LiteralBack(template: seq<Piece>, params: map<string, Text>, text: Text)
    requires template != [] && template[0] == Literal(text) && Path(template, params).Some?
    ensures Captures(template, Path(template, params).value) == Captures(template[1..], Path(template[1..], params).value)
    ensures Names(template) == Names(template[1..])
  {
    var rest, path := Path(template[1..], params).value, Path(template, params).value;
    assert path[..|text|] == text && path[|text|..] == rest;
  }

  lemma ParamBack(template: seq<Piece>, params: map<string, Text>, name: string)
    requires template != [] && template[0] == Param(name) && Separated(template) && Path(template, params).Some?
    requires Captures(template[1..], Path(template[1..], params).value)
      == if NonemptyParams(template[1..], params) then Some(Encoded(Names(template[1..]), params)) else None
    ensures Captures(template, Path(template, params).value)
      == if NonemptyParams(template, params) then Some(Encoded(Names(template), params)) else None
  {
    var value, rest, path := Encode(params[name]).value, Path(template[1..], params).value, Path(template, params).value;
    EncodedHasNoSlash(params[name]);
    PathStart(template, params);
    PartEnds(value, rest);
    assert path[..|value|] == value && path[|value|..] == rest;
    assert Names(template)[1..] == Names(template[1..]) && Names(template)[0] == name;
    assert forall n :: n in Names(template) <==> n == name || n in Names(template[1..]);
  }

  lemma {:induction false} ParamsWereEncoded(template: seq<Piece>, params: map<string, Text>)
    requires Path(template, params).Some?
    ensures forall name :: name in Names(template) ==> name in params && Encode(params[name]).Some?
    decreases |template|
  {
    if template != [] { ParamsWereEncoded(template[1..], params); }
  }

  /** Decoded captures are the parameters again. */
  lemma {:induction false} EntriesBack(names: seq<string>, params: map<string, Text>, before: map<string, Text>)
    requires forall name :: name in names ==> name in params && Encode(params[name]).Some?
    ensures Entries(names, Encoded(names, params), before).Params?
    ensures var values := Entries(names, Encoded(names, params), before).values;
      values.Keys == before.Keys + (set name | name in names)
      && forall name :: name in values ==> values[name] == if name in names then params[name] else before[name]
    decreases |names|
  {
    if names != [] {
      var name := names[0];
      assert name in names && forall n :: n in names <==> n == name || n in names[1..];
      DecodeEncode(params[name]);
      assert Encoded(names, params)[1..] == Encoded(names[1..], params);
      EntriesBack(names[1..], params, before[name := params[name]]);
    }
  }

  /** A path matches its own template with exactly its parameters; with an empty parameter it does not match. */
  lemma MatchUndoesPath(template: seq<Piece>, params: map<string, Text>)
    requires Separated(template) && Path(template, params).Some?
    ensures var m := Match(template, Path(template, params).value);
      if NonemptyParams(template, params) then m.Params? && Same(m.values, template, params) else m == NoMatch
  {
    CapturesBack(template, params);
    ParamsWereEncoded(template, params);
    EntriesBack(Names(template), params, map[]);
  }

  ghost predicate Same(values: map<string, Text>, template: seq<Piece>, params: map<string, Text>) {
    (forall name :: name in values <==> name in Names(template)) && forall name :: name in values ==> name in params && values[name] == params[name]
  }

  // ---------------------------------------------------------------- what the pattern matches

  /** The same letters, in whatever case. */
  predicate InAnyCase(a: Text, b: Text) {
    |a| == |b| && forall i :: 0 <= i < |a| ==> a[i] == b[i] || (IsLetter(a[i]) && IsLetter(b[i]) && (a[i] as int - b[i] as int == 32 || b[i] as int - a[i] as int == 32))
  }

  predicate IsLetter(u: Unit) { 65 <= u <= 90 || 97 <= u <= 122 }

  lemma SameInAnyCase(a: Text, b: Text)
    ensures SameText(a, b) <==> InAnyCase(a, b)
  {}

  /** A path piece by piece: literal text in any case, and a nonempty run without `/` for each parameter. */
  ghost predicate Reads(template: seq<Piece>, path: Text, captures: seq<Text>)
    decreases |template|
  {
    if template == [] then path == [] && captures == []
    else
      match template[0]
      case Literal(text) => |text| <= |path| && InAnyCase(text, path[..|text|]) && Reads(template[1..], path[|text|..], captures)
      case Param(_) =>
        && captures != [] && captures[0] != [] && SLASH !in captures[0] && captures[0] <= path
        && Reads(template[1..], path[|captures[0]|..], captures[1..])
  }

  /** The greedy match finds the captures exactly if there are some, and there is one way at most. */
  lemma {:induction false} CapturesAreTheReading(template: seq<Piece>, path: Text, captures: seq<Text>)
    requires Separated(template)
    ensures Captures(template, path) == Some(captures) <==> Reads(template, path, captures)
    decreases |template|
  {
    if template != [] {
      assert Separated(template[1..]) by { assert forall i :: 0 <= i < |template[1..]| ==> template[1..][i] == template[i + 1]; }
      match template[0]
      case Literal(text) =>
        if |text| <= |path| {
          SameInAnyCase(text, path[..|text|]);
          CapturesAreTheReading(template[1..], path[|text|..], captures);
        }
      case Param(_) =>
        var n := PartLength(path);
        if captures != [] {
          if Reads(template, path, captures) { ParameterEnds(template, path, captures); }
          CapturesAreTheReading(template[1..], path[n..], captures[1..]);
          if n > 0 { assert [path[..n]] + captures[1..] == captures <==> captures[0] == path[..n]; }
        }
    }
  }

  lemma ParameterEnds(template: seq<Piece>, path: Text, captures: seq<Text>)
    requires Separated(template) && template != [] && template[0].Param? && Reads(template, path, captures)
    ensures captures[0] == path[..PartLength(path)]
  {
    var n := |captures[0]|;
    assert path[..n] == captures[0];
    if n < |path| {
      assert |template| > 1;
      var text := template[1].text;
      assert template[1..][0] == template[1];
      assert InAnyCase(text, path[n..][..|text|]) && path[n..][..|text|][0] == path[n];
      assert path[n] == SLASH;
    }
    PartUpTo(path, n);
  }

  lemma {:induction false} PartUpTo(path: Text, n: nat)
    requires n <= |path| && SLASH !in path[..n] && (n < |path| ==> path[n] == SLASH)
    ensures PartLength(path) == n
  {
    if n > 0 {
      assert path[0] == path[..n][0];
      assert path[1..][..n - 1] == path[..n][1..];
      PartUpTo(path[1..], n - 1);
    }
  }

  /** A capture that does not decode makes the whole request malformed. */
  lemma {:induction false} EntriesDecode(names: seq<string>, captures: seq<Text>, before: map<string, Text>)
    requires |names| == |captures|
    ensures Entries(names, captures, before).Malformed? <==> exists c :: c in captures && Decode(c).None?
    ensures !Entries(names, captures, before).NoMatch?
    decreases |names|
  {
    if names != [] {
      assert captures == [captures[0]] + captures[1..];
      assert captures[0] in captures && forall c :: c in captures[1..] ==> c in captures;
      if Decode(captures[0]).Some? { EntriesDecode(names[1..], captures[1..], before[names[0] := Decode(captures[0]).value]); }
    }
  }
}
