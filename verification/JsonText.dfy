/**
 * JSON as text (RFC 8259, sections 2 to 7): what `JSON.stringify` prints without white space, with every `<` escaped
 * afterwards as the reply codec does, and what `JSON.parse` reads.
 */
module JsonText {
  import opened Options
  import opened Utf16

  datatype Json = Null | Bool(b: bool) | Num(token: Text) | Str(s: Text) | Arr(items: Items) | Obj(fields: Fields)
  datatype Items = NoItems | Item(head: Json, tail: Items)
  datatype Fields = NoFields | Field(key: Text, value: Json, rest: Fields)

  const QUOTE: Unit := 0x22
  const BACKSLASH: Unit := 0x5C
  const LESS: Unit := 0x3C
  const COMMA: Unit := 0x2C
  const COLON: Unit := 0x3A
  const OPEN_OBJECT: Unit := 0x7B
  const CLOSE_OBJECT: Unit := 0x7D
  const OPEN_ARRAY: Unit := 0x5B
  const CLOSE_ARRAY: Unit := 0x5D
  const TRUE: Text := [0x74, 0x72, 0x75, 0x65]
  const FALSE: Text := [0x66, 0x61, 0x6C, 0x73, 0x65]
  const NULL: Text := [0x6E, 0x75, 0x6C, 0x6C]

  // ---------------------------------------------------------------- printing

  function HexDigit(d: int): Unit
    requires 0 <= d < 16
  {
    if d < 10 then (0x30 + d) as Unit else (0x61 + d - 10) as Unit
  }

  /** `\uXXXX` */
  function UnicodeEscape(u: Unit): (t: Text)
    ensures |t| == 6
  {
    var c := u as int;
    [BACKSLASH, 0x75, HexDigit(c / 4096), HexDigit(c / 256 % 16), HexDigit(c / 16 % 16), HexDigit(c % 16)]
  }

  /** The letter of a two-character escape. */
  function ShortEscape(u: Unit): Option<Unit> {
    if u == QUOTE || u == BACKSLASH then Some(u)
    else if u == 8 then Some(0x62) else if u == 9 then Some(0x74) else if u == 10 then Some(0x6E)
    else if u == 12 then Some(0x66) else if u == 13 then Some(0x72) else None
  }

  function PrintUnit(u: Unit, lone: bool): (t: Text)
    ensures t != []
  {
    if ShortEscape(u).Some? then [BACKSLASH, ShortEscape(u).value]
    else if u < 0x20 || lone then UnicodeEscape(u)
    else [u]
  }

  function PrintChars(s: Text): Text {
    if s == [] then []
    else if |s| >= 2 && High(s[0]) && Low(s[1]) then [s[0], s[1]] + PrintChars(s[2..])
    else PrintUnit(s[0], High(s[0]) || Low(s[0])) + PrintChars(s[1..])
  }

  function PrintString(s: Text): Text { [QUOTE] + PrintChars(s) + [QUOTE] }

  function Print(j: Json): Text {
    match j
    case Null => NULL
    case Bool(b) => if b then TRUE else FALSE
    case Num(token) => token
    case Str(s) => PrintString(s)
    case Arr(items) => [OPEN_ARRAY] + PrintItems(items) + [CLOSE_ARRAY]
    case Obj(fields) => [OPEN_OBJECT] + PrintFields(fields) + [CLOSE_OBJECT]
  }

  function PrintItems(items: Items): Text {
    match items
    case NoItems => []
    case Item(head, tail) => Print(head) + if tail.Item? then [COMMA] + PrintItems(tail) else []
  }

  function PrintFields(fields: Fields): Text {
    match fields
    case NoFields => []
    case Field(key, value, rest) => PrintString(key) + [COLON] + Print(value) + if rest.Field? then [COMMA] + PrintFields(rest) else []
  }

  /** `replace(/</g, "\\u003c")` */
  function EscapeLess(t: Text): Text {
    if t == [] then [] else (if t[0] == LESS then UnicodeEscape(LESS) else [t[0]]) + EscapeLess(t[1..])
  }

  // ---------------------------------------------------------------- parsing

  predicate White(u: Unit) { u == 0x20 || u == 9 || u == 10 || u == 13 }

  function SkipWhite(t: Text): (r: Text)
    ensures |r| <= |t| && (r != [] ==> !White(r[0]))
  {
    if t != [] && White(t[0]) then SkipWhite(t[1..]) else t
  }

  function HexOf(u: Unit): Option<int> {
    if 0x30 <= u <= 0x39 then Some(u as int - 0x30)
    else if 0x41 <= u <= 0x46 then Some(u as int - 0x41 + 10)
    else if 0x61 <= u <= 0x66 then Some(u as int - 0x61 + 10)
    else None
  }

  function ParseHex(t: Text): Option<Unit> {
    if |t| >= 4 && HexOf(t[0]).Some? && HexOf(t[1]).Some? && HexOf(t[2]).Some? && HexOf(t[3]).Some?
    then HexValue(HexOf(t[0]).value, HexOf(t[1]).value, HexOf(t[2]).value, HexOf(t[3]).value) else None
  }

  function HexValue(a: int, b: int, c: int, d: int): Option<Unit> {
    if 0 <= a < 16 && 0 <= b < 16 && 0 <= c < 16 && 0 <= d < 16 then Some((a * 4096 + b * 256 + c * 16 + d) as Unit) else None
  }

  function Unescape(letter: Unit): Option<Unit> {
    if letter == QUOTE || letter == BACKSLASH || letter == 0x2F then Some(letter)
    else if letter == 0x62 then Some(8) else if letter == 0x74 then Some(9) else if letter == 0x6E then Some(10)
    else if letter == 0x66 then Some(12) else if letter == 0x72 then Some(13) else None
  }

  /** The unit at the start of a string's inside, and how many units it takes. */
  function ParseUnit(t: Text): (r: Option<(Unit, nat)>)
    ensures r.Some? ==> 1 <= r.value.1 <= |t|
  {
    if t == [] || t[0] == QUOTE || t[0] < 0x20 then None
    else if t[0] != BACKSLASH then Some((t[0], 1))
    else if |t| >= 2 && t[1] == 0x75 then
      (match ParseHex(t[2..]) case Some(u) => Some((u, 6)) case None => None)
    else if |t| >= 2 then
      (match Unescape(t[1]) case Some(u) => Some((u, 2)) case None => None)
    else None
  }

  /** Up to the closing quote, and what follows it. */
  function ParseChars(t: Text): (r: Option<(Text, Text)>)
    ensures r.Some? ==> |r.value.1| < |t|
    decreases |t|
  {
    if t == [] then None
    else if t[0] == QUOTE then Some(([], t[1..]))
    else
      match ParseUnit(t)
      case None => None
      case Some((u, n)) =>
        match ParseChars(t[n..])
        case None => None
        case Some((s, rest)) => Some(([u] + s, rest))
  }

  predicate NumberUnit(u: Unit) { 0x30 <= u <= 0x39 || u == 0x2B || u == 0x2D || u == 0x2E || u == 0x45 || u == 0x65 }

  predicate Digit(t: Text, i: nat) { i < |t| && 0x30 <= t[i] <= 0x39 }

  function SkipDigits(t: Text, i: nat): (j: nat)
    ensures j >= i
    decreases |t| - i
  {
    if Digit(t, i) then SkipDigits(t, i + 1) else i
  }

  /** `-?(0|[1-9]\d*)(\.\d+)?([eE][+-]?\d+)?` */
  predicate IsNumber(t: Text) {
    var a := if |t| > 0 && t[0] == 0x2D then 1 else 0;
    Digit(t, a) &&
    var b := if t[a] == 0x30 then a + 1 else SkipDigits(t, a);
    var c := if b < |t| && t[b] == 0x2E && Digit(t, b + 1) then SkipDigits(t, b + 1) else b;
    c == |t| || (c < |t| && (t[c] == 0x45 || t[c] == 0x65) &&
      var d := if c + 1 < |t| && (t[c + 1] == 0x2B || t[c + 1] == 0x2D) then c + 2 else c + 1;
      Digit(t, d) && SkipDigits(t, d) == |t|)
  }

  function NumberLength(t: Text): (n: nat)
    ensures n <= |t| && (forall i :: 0 <= i < n ==> NumberUnit(t[i])) && (n < |t| ==> !NumberUnit(t[n]))
  {
    if t == [] || !NumberUnit(t[0]) then 0 else 1 + NumberLength(t[1..])
  }

  /** `object[key] = value` */
  function Put(fs: Fields, key: Text, value: Json): Fields {
    match fs
    case NoFields => Field(key, value, NoFields)
    case Field(k, v, rest) => if k == key then Field(k, value, rest) else Field(k, v, Put(rest, key, value))
  }

  function Append(items: Items, j: Json): Items {
    match items case NoItems => Item(j, NoItems) case Item(head, tail) => Item(head, Append(tail, j))
  }

  /** A value at the start, after white space, and what follows it. */
  function ParseValue(text: Text): (r: Option<(Json, Text)>)
    ensures r.Some? ==> |r.value.1| < |text|
    decreases |text|, 2
  {
    var t := SkipWhite(text);
    if t == [] then None
    else if t[0] == QUOTE then
      (match ParseChars(t[1..]) case None => None case Some((s, rest)) => Some((Str(s), rest)))
    else if t[0] == OPEN_OBJECT then
      var inside := SkipWhite(t[1..]);
      if inside != [] && inside[0] == CLOSE_OBJECT then Some((Obj(NoFields), inside[1..])) else ParseFields(t[1..], NoFields)
    else if t[0] == OPEN_ARRAY then
      var inside := SkipWhite(t[1..]);
      if inside != [] && inside[0] == CLOSE_ARRAY then Some((Arr(NoItems), inside[1..])) else ParseItems(t[1..], NoItems)
    else ParsePlain(t)
  }

  function ParsePlain(t: Text): (r: Option<(Json, Text)>)
    ensures r.Some? ==> |r.value.1| < |t|
  {
    if StartsWith(t, TRUE) then Some((Bool(true), t[4..]))
    else if StartsWith(t, FALSE) then Some((Bool(false), t[5..]))
    else if StartsWith(t, NULL) then Some((Null, t[4..]))
    else
      var n := NumberLength(t);
      if n > 0 && IsNumber(t[..n]) then Some((Num(t[..n]), t[n..])) else None
  }

  function ParseItems(t: Text, before: Items): (r: Option<(Json, Text)>)
    ensures r.Some? ==> |r.value.1| < |t|
    decreases |t|, 3
  {
    match ParseValue(t)
    case None => None
    case Some((j, after)) =>
      var rest := SkipWhite(after);
      if rest == [] then None
      else if rest[0] == COMMA then ParseItems(rest[1..], Append(before, j))
      else if rest[0] == CLOSE_ARRAY then Some((Arr(Append(before, j)), rest[1..]))
      else None
  }

  function ParseFields(text: Text, before: Fields): (r: Option<(Json, Text)>)
    ensures r.Some? ==> |r.value.1| < |text|
    decreases |text|, 1
  {
    var t := SkipWhite(text);
    if t == [] || t[0] != QUOTE then None
    else
      match ParseChars(t[1..])
      case None => None
      case Some((key, after)) =>
        var colon := SkipWhite(after);
        if colon == [] || colon[0] != COLON then None
        else
          match ParseValue(colon[1..])
          case None => None
          case Some((value, more)) =>
            var rest := SkipWhite(more);
            if rest == [] then None
            else if rest[0] == COMMA then ParseFields(rest[1..], Put(before, key, value))
            else if rest[0] == CLOSE_OBJECT then Some((Obj(Put(before, key, value)), rest[1..]))
            else None
  }

  /** `JSON.parse`: one value, and nothing but white space around it. */
  function Parse(t: Text): Option<Json> {
    match ParseValue(t)
    case Some((j, rest)) => if SkipWhite(rest) == [] then Some(j) else None
    case None => None
  }

  // ---------------------------------------------------------------- values that are printed

  predicate HasKey(fs: Fields, key: Text) {
    match fs case NoFields => false case Field(k, _, rest) => k == key || HasKey(rest, key)
  }

  /** Numbers are number tokens, and the keys of an object are distinct. */
  predicate Proper(j: Json) {
    match j
    case Num(token) => IsNumber(token) && forall i :: 0 <= i < |token| ==> NumberUnit(token[i])
    case Arr(items) => ProperItems(items)
    case Obj(fields) => ProperFields(fields)
    case _ => true
  }

  predicate ProperItems(items: Items) {
    match items case NoItems => true case Item(head, tail) => Proper(head) && ProperItems(tail)
  }

  predicate ProperFields(fields: Fields) {
    match fields case NoFields => true case Field(key, value, rest) => !HasKey(rest, key) && Proper(value) && ProperFields(rest)
  }

  // ---------------------------------------------------------------- escaping `<`

  lemma {:induction false} EscapeJoins(a: Text, b: Text)
    ensures EscapeLess(a + b) == EscapeLess(a) + EscapeLess(b)
  {
    if a == [] {
      assert a + b == b;
    } else {
      assert (a + b)[1..] == a[1..] + b;
      EscapeJoins(a[1..], b);
    }
  }

  lemma {:induction false} NoLess(t: Text)
    ensures LESS !in EscapeLess(t)
  {
    if t != [] { NoLess(t[1..]); }
  }

  lemma {:induction false} EscapeNothing(t: Text)
    requires LESS !in t
    ensures EscapeLess(t) == t
  {
    if t != [] {
      assert t[0] in t;
      EscapeNothing(t[1..]);
    }
  }

  // ---------------------------------------------------------------- parsing undoes printing

  lemma DigitBack(d: int)
    requires 0 <= d < 16
    ensures HexOf(HexDigit(d)) == Some(d)
  {
  }

  lemma Nibbles(c: int)
    requires 0 <= c < 0x1_0000
    ensures 0 <= c / 4096 < 16 && c == c / 4096 * 4096 + c / 256 % 16 * 256 + c / 16 % 16 * 16 + c % 16
  {
    assert c / 16 == c / 256 * 16 + c / 16 % 16 && c / 256 == c / 4096 * 16 + c / 256 % 16;
  }

  lemma HexBack(u: Unit)
    ensures ParseHex(UnicodeEscape(u)[2..]) == Some(u)
  {
    var c := u as int;
    Nibbles(c);
    DigitBack(c / 4096);
    DigitBack(c / 256 % 16);
    DigitBack(c / 16 % 16);
    DigitBack(c % 16);
    HexRead(UnicodeEscape(u)[2..], c / 4096, c / 256 % 16, c / 16 % 16, c % 16);
  }

  lemma HexRead(t: Text, a: int, b: int, c: int, d: int)
    requires |t| == 4 && HexOf(t[0]) == Some(a) && HexOf(t[1]) == Some(b) && HexOf(t[2]) == Some(c) && HexOf(t[3]) == Some(d)
    ensures ParseHex(t) == HexValue(a, b, c, d)
  {
  }

  lemma EscapeBack(u: Unit, rest: Text)
    ensures ParseUnit(UnicodeEscape(u) + rest) == Some((u, 6))
  {
    HexBack(u);
    var t := UnicodeEscape(u) + rest;
    assert t[0] == BACKSLASH && t[1] == 0x75;
    assert t[2..][0] == UnicodeEscape(u)[2..][0] && t[2..][1] == UnicodeEscape(u)[2..][1];
    assert t[2..][2] == UnicodeEscape(u)[2..][2] && t[2..][3] == UnicodeEscape(u)[2..][3];
  }

  /** A unit as it is printed, with `<` escaped, is read back. */
  lemma UnitBack(u: Unit, lone: bool, rest: Text)
    ensures var t := EscapeLess(PrintUnit(u, lone)); t != [] && ParseUnit(t + rest) == Some((u, |t|)) && t[0] != QUOTE
  {
    var p := PrintUnit(u, lone);
    if ShortEscape(u).Some? {
      assert p == [BACKSLASH, ShortEscape(u).value];
      assert LESS !in p;
      EscapeNothing(p);
      assert (p + rest)[0] == BACKSLASH && (p + rest)[1] == ShortEscape(u).value;
    } else if u < 0x20 || lone {
      assert LESS !in p;
      EscapeNothing(p);
      EscapeBack(u, rest);
    } else if u == LESS {
      assert EscapeLess(p) == UnicodeEscape(LESS) + EscapeLess([]);
      assert EscapeLess(p) == UnicodeEscape(LESS);
      EscapeBack(LESS, rest);
    } else {
      EscapeNothing(p);
      assert (p + rest)[0] == u;
    }
  }

  lemma ParseOne(t: Text, rest: Text, u: Unit)
    requires t != [] && t[0] != QUOTE && ParseUnit(t + rest) == Some((u, |t|)) && ParseChars(rest).Some?
    ensures ParseChars(t + rest) == Some(([u] + ParseChars(rest).value.0, ParseChars(rest).value.1))
  {
    assert (t + rest)[0] == t[0] && (t + rest)[|t|..] == rest;
  }

  function Closed(s: Text, rest: Text): Text { EscapeLess(PrintChars(s)) + [QUOTE] + rest }

  lemma {:induction false} CharsBack(s: Text, rest: Text)
    ensures ParseChars(Closed(s, rest)) == Some((s, rest))
    decreases |s|
  {
    if s == [] {
      assert Closed(s, rest) == [QUOTE] + rest;
      assert ([QUOTE] + rest)[1..] == rest;
    } else if |s| >= 2 && High(s[0]) && Low(s[1]) {
      CharsBack(s[2..], rest);
      PairCharsBack(s, rest);
    } else {
      CharsBack(s[1..], rest);
      OneCharBack(s, rest);
    }
  }

  lemma PairCharsBack(s: Text, rest: Text)
    requires |s| >= 2 && High(s[0]) && Low(s[1]) && ParseChars(Closed(s[2..], rest)) == Some((s[2..], rest))
    ensures ParseChars(Closed(s, rest)) == Some((s, rest))
  {
    PairShape(s, rest);
    PairBack(s[0], s[1], Closed(s[2..], rest), s[2..], rest);
    assert [s[0]] + ([s[1]] + s[2..]) == s;
  }

  lemma OneCharBack(s: Text, rest: Text)
    requires s != [] && !(|s| >= 2 && High(s[0]) && Low(s[1])) && ParseChars(Closed(s[1..], rest)) == Some((s[1..], rest))
    ensures ParseChars(Closed(s, rest)) == Some((s, rest))
  {
    var lone := High(s[0]) || Low(s[0]);
    OneShape(s, rest);
    UnitBack(s[0], lone, Closed(s[1..], rest));
    ParseOne(EscapeLess(PrintUnit(s[0], lone)), Closed(s[1..], rest), s[0]);
    assert [s[0]] + s[1..] == s;
  }

  lemma PairShape(s: Text, rest: Text)
    requires |s| >= 2 && High(s[0]) && Low(s[1])
    ensures Closed(s, rest) == [s[0]] + ([s[1]] + Closed(s[2..], rest))
  {
    EscapeJoins([s[0], s[1]], PrintChars(s[2..]));
    EscapeNothing([s[0], s[1]]);
  }

  lemma PairBack(a: Unit, b: Unit, tail: Text, body: Text, rest: Text)
    requires High(a) && Low(b) && ParseChars(tail) == Some((body, rest))
    ensures ParseChars([a] + ([b] + tail)) == Some(([a] + ([b] + body), rest))
  {
    ParseOne([b], tail, b);
    ParseOne([a], [b] + tail, a);
  }

  lemma OneShape(s: Text, rest: Text)
    requires s != [] && !(|s| >= 2 && High(s[0]) && Low(s[1]))
    ensures Closed(s, rest) == EscapeLess(PrintUnit(s[0], High(s[0]) || Low(s[0]))) + Closed(s[1..], rest)
  {
    var p := PrintUnit(s[0], High(s[0]) || Low(s[0]));
    assert PrintChars(s) == p + PrintChars(s[1..]);
    EscapeJoins(p, PrintChars(s[1..]));
    assert EscapeLess(p) + EscapeLess(PrintChars(s[1..])) + [QUOTE] + rest == EscapeLess(p) + (EscapeLess(PrintChars(s[1..])) + [QUOTE] + rest);
  }

  lemma Single(u: Unit)
    requires u != LESS
    ensures EscapeLess([u]) == [u]
  {
    EscapeNothing([u]);
  }

  /** A printed string, escaped: quote, inside, quote. */
  lemma StringShape(s: Text)
    ensures EscapeLess(PrintString(s)) == [QUOTE] + (EscapeLess(PrintChars(s)) + [QUOTE])
  {
    EscapeJoins([QUOTE] + PrintChars(s), [QUOTE]);
    EscapeJoins([QUOTE], PrintChars(s));
    Single(QUOTE);
  }

  lemma StringBack(s: Text, rest: Text)
    ensures var t := EscapeLess(PrintString(s)) + rest; t != [] && t[0] == QUOTE && ParseChars(t[1..]) == Some((s, rest))
  {
    StringShape(s);
    var t := EscapeLess(PrintString(s)) + rest;
    assert t[1..] == Closed(s, rest);
    CharsBack(s, rest);
  }

  /** What may follow a value: nothing that would go on with a number. */
  predicate Ends(rest: Text) { rest == [] || !NumberUnit(rest[0]) }

  lemma {:induction false} NumberEnds(token: Text, rest: Text)
    requires (forall i :: 0 <= i < |token| ==> NumberUnit(token[i])) && Ends(rest)
    ensures NumberLength(token + rest) == |token|
  {
    if token != [] {
      assert (token + rest)[1..] == token[1..] + rest;
      NumberEnds(token[1..], rest);
    } else {
      assert token + rest == rest;
    }
  }

  /** Values that start neither a string nor an array nor an object. */
  predicate Plain(u: Unit) { !White(u) && u != QUOTE && u != OPEN_OBJECT && u != OPEN_ARRAY }

  lemma PlainStart(t: Text)
    requires t != [] && Plain(t[0])
    ensures ParseValue(t) == ParsePlain(t)
  {
    assert SkipWhite(t) == t;
  }

  lemma NumberBack(token: Text, rest: Text)
    requires Proper(Num(token)) && Ends(rest)
    ensures EscapeLess(token) == token && token != [] && NumberUnit(token[0])
    ensures ParseValue(token + rest) == Some((Num(token), rest))
  {
    NumberFirst(token);
    NumberPlain(token, rest);
    assert (token + rest)[0] == token[0];
    PlainStart(token + rest);
  }

  lemma NumberPlain(token: Text, rest: Text)
    requires Proper(Num(token)) && Ends(rest)
    ensures ParsePlain(token + rest) == Some((Num(token), rest))
  {
    NumberEnds(token, rest);
    var t := token + rest;
    assert t[0] == token[0] && NumberUnit(t[0]);
    assert t[..|token|] == token && t[|token|..] == rest;
  }

  lemma WordStart(j: Json)
    requires j.Null? || j.Bool?
    ensures LESS !in Print(j) && StartsAValue(Print(j)) && Plain(Print(j)[0])
  {
  }

  lemma WordBack(j: Json, rest: Text)
    requires j.Null? || j.Bool?
    ensures EscapeLess(Print(j)) == Print(j) && ParseValue(Print(j) + rest) == Some((j, rest))
  {
    WordStart(j);
    EscapeNothing(Print(j));
    PlainBack(j, rest);
    PlainStart(Print(j) + rest);
  }

  lemma PlainBack(j: Json, rest: Text)
    requires j.Null? || j.Bool?
    ensures ParsePlain(Print(j) + rest) == Some((j, rest))
  {
    var w := Print(j);
    var t := w + rest;
    assert w <= t && t[|w|..] == rest && t[0] == w[0];
    assert j == Bool(false) ==> !StartsWith(t, TRUE);
    assert j == Null ==> !StartsWith(t, TRUE) && !StartsWith(t, FALSE);
  }

  /** Nothing printed starts with white space or a closing bracket. */
  lemma FirstUnit(j: Json)
    requires Proper(j)
    ensures StartsAValue(EscapeLess(Print(j)))
  {
    match j
    case Null => WordFirst(j);
    case Bool(_) => WordFirst(j);
    case Num(token) => NumberFirst(token);
    case Str(s) => StringShape(s);
    case Arr(items) => Bracketed(OPEN_ARRAY, PrintItems(items), CLOSE_ARRAY);
    case Obj(fields) => Bracketed(OPEN_OBJECT, PrintFields(fields), CLOSE_OBJECT);
  }

  predicate StartsAValue(t: Text) { t != [] && !White(t[0]) && t[0] != CLOSE_OBJECT && t[0] != CLOSE_ARRAY }

  lemma WordFirst(j: Json)
    requires j.Null? || j.Bool?
    ensures StartsAValue(EscapeLess(Print(j)))
  {
    WordStart(j);
    EscapeNothing(Print(j));
  }

  lemma NumberFirst(token: Text)
    requires Proper(Num(token))
    ensures EscapeLess(token) == token && StartsAValue(token) && NumberUnit(token[0]) && Plain(token[0])
  {
    assert !NumberUnit(LESS) && LESS !in token;
    EscapeNothing(token);
  }

  lemma Bracketed(a: Unit, inside: Text, b: Unit)
    requires a != LESS && b != LESS
    ensures EscapeLess([a] + inside + [b]) == [a] + (EscapeLess(inside) + [b])
  {
    EscapeJoins([a] + inside, [b]);
    EscapeJoins([a], inside);
    Single(a);
    Single(b);
  }

  function Concat(a: Items, b: Items): Items {
    match a case NoItems => b case Item(head, tail) => Item(head, Concat(tail, b))
  }

  function Merge(a: Fields, b: Fields): Fields {
    match a case NoFields => b case Field(k, v, rest) => Field(k, v, Merge(rest, b))
  }

  lemma {:induction false} AppendConcat(a: Items, j: Json, b: Items)
    ensures Concat(Append(a, j), b) == Concat(a, Item(j, b))
  {
    if a.Item? { AppendConcat(a.tail, j, b); }
  }

  lemma {:induction false} PutMerge(a: Fields, key: Text, value: Json, b: Fields)
    requires !HasKey(a, key)
    ensures Merge(Put(a, key, value), b) == Merge(a, Field(key, value, b))
    ensures forall k :: HasKey(Put(a, key, value), k) <==> HasKey(a, k) || k == key
  {
    if a.Field? { PutMerge(a.rest, key, value, b); }
  }

  lemma {:induction false} MergeNothing(a: Fields)
    ensures Merge(a, NoFields) == a
  {
    if a.Field? { MergeNothing(a.rest); }
  }

  lemma {:induction false} ConcatNothing(a: Items)
    ensures Concat(a, NoItems) == a
  {
    if a.Item? { ConcatNothing(a.tail); }
  }

  /** `JSON.parse` reads back every printed value, with `<` escaped or not present. */
  lemma {:induction false} ValueBack(j: Json, rest: Text)
    requires Proper(j) && Ends(rest)
    ensures ParseValue(EscapeLess(Print(j)) + rest) == Some((j, rest))
    decreases j, 1
  {
    match j
    case Null => WordBack(j, rest);
    case Bool(_) => WordBack(j, rest);
    case Num(token) => NumberBack(token, rest);
    case Str(s) =>
      StringBack(s, rest);
      var t := EscapeLess(PrintString(s)) + rest;
      assert SkipWhite(t) == t;
    case Arr(items) => ArrayBack(items, rest);
    case Obj(fields) => ObjectBack(fields, rest);
  }

  lemma ArrayStart(t: Text, inside: Text)
    requires t == [OPEN_ARRAY] + inside && inside != [] && SkipWhite(inside) == inside
    ensures ParseValue(t) == if inside[0] == CLOSE_ARRAY then Some((Arr(NoItems), inside[1..])) else ParseItems(inside, NoItems)
  {
    assert t[1..] == inside && SkipWhite(t) == t;
  }

  lemma ObjectStart(t: Text, inside: Text)
    requires t == [OPEN_OBJECT] + inside && inside != [] && SkipWhite(inside) == inside
    ensures ParseValue(t) == if inside[0] == CLOSE_OBJECT then Some((Obj(NoFields), inside[1..])) else ParseFields(inside, NoFields)
  {
    assert t[1..] == inside && SkipWhite(t) == t;
  }

  lemma NoneInside(close: Unit, rest: Text)
    requires !White(close)
    ensures var inside := EscapeLess([]) + [close] + rest;
      inside != [] && inside[0] == close && inside[1..] == rest && SkipWhite(inside) == inside
  {
    assert EscapeLess([]) + [close] + rest == [close] + rest;
  }

  lemma {:induction false} ArrayBack(items: Items, rest: Text)
    requires ProperItems(items)
    ensures ParseValue(EscapeLess(Print(Arr(items))) + rest) == Some((Arr(items), rest))
    decreases items, 1
  {
    Bracketed(OPEN_ARRAY, PrintItems(items), CLOSE_ARRAY);
    var inside := EscapeLess(PrintItems(items)) + [CLOSE_ARRAY] + rest;
    var t := EscapeLess(Print(Arr(items))) + rest;
    assert t == [OPEN_ARRAY] + inside;
    if items.NoItems? {
      NoneInside(CLOSE_ARRAY, rest);
    } else {
      ItemsStart(items);
      assert inside[0] == EscapeLess(PrintItems(items))[0] && SkipWhite(inside) == inside;
      ItemsBack(items, NoItems, rest);
    }
    ArrayStart(t, inside);
  }

  lemma ItemsStart(items: Items)
    requires items.Item? && ProperItems(items)
    ensures var t := EscapeLess(PrintItems(items)); t != [] && !White(t[0]) && t[0] != CLOSE_ARRAY
  {
    FirstUnit(items.head);
    EscapeJoins(Print(items.head), if items.tail.Item? then [COMMA] + PrintItems(items.tail) else []);
  }

  lemma ItemsStep(t: Text, before: Items, j: Json, follow: Text)
    requires ParseValue(t) == Some((j, follow)) && follow != [] && SkipWhite(follow) == follow
    ensures follow[0] == COMMA ==> ParseItems(t, before) == ParseItems(follow[1..], Append(before, j))
    ensures follow[0] == CLOSE_ARRAY ==> ParseItems(t, before) == Some((Arr(Append(before, j)), follow[1..]))
  {
  }

  function AfterItem(rest: Items): Text { if rest.Item? then [COMMA] + PrintItems(rest) else [] }

  lemma AfterItemShape(items: Items, rest: Text)
    ensures var follow := EscapeLess(AfterItem(items)) + [CLOSE_ARRAY] + rest;
      follow != [] && Ends(follow) && SkipWhite(follow) == follow
      && if items.Item? then follow[0] == COMMA && follow[1..] == EscapeLess(PrintItems(items)) + [CLOSE_ARRAY] + rest
         else follow[0] == CLOSE_ARRAY && follow[1..] == rest
  {
    if items.Item? {
      EscapeJoins([COMMA], PrintItems(items));
      Single(COMMA);
      assert EscapeLess(AfterItem(items)) + [CLOSE_ARRAY] + rest == [COMMA] + (EscapeLess(PrintItems(items)) + [CLOSE_ARRAY] + rest);
    } else {
      NoneInside(CLOSE_ARRAY, rest);
    }
  }

  lemma {:induction false} ItemsBack(items: Items, before: Items, rest: Text)
    requires items.Item? && ProperItems(items)
    ensures ParseItems(EscapeLess(PrintItems(items)) + [CLOSE_ARRAY] + rest, before) == Some((Arr(Concat(before, items)), rest))
    decreases items, 0
  {
    var follow := EscapeLess(AfterItem(items.tail)) + [CLOSE_ARRAY] + rest;
    EscapeJoins(Print(items.head), AfterItem(items.tail));
    var t := EscapeLess(PrintItems(items)) + [CLOSE_ARRAY] + rest;
    assert t == EscapeLess(Print(items.head)) + follow;
    AfterItemShape(items.tail, rest);
    ValueBack(items.head, follow);
    ItemsStep(t, before, items.head, follow);
    AppendConcat(before, items.head, items.tail);
    if items.tail.Item? { ItemsBack(items.tail, Append(before, items.head), rest); }
    else { ConcatNothing(Append(before, items.head)); }
  }

  lemma {:induction false} ObjectBack(fields: Fields, rest: Text)
    requires ProperFields(fields)
    ensures ParseValue(EscapeLess(Print(Obj(fields))) + rest) == Some((Obj(fields), rest))
    decreases fields, 1
  {
    Bracketed(OPEN_OBJECT, PrintFields(fields), CLOSE_OBJECT);
    var inside := EscapeLess(PrintFields(fields)) + [CLOSE_OBJECT] + rest;
    var t := EscapeLess(Print(Obj(fields))) + rest;
    assert t == [OPEN_OBJECT] + inside;
    if fields.NoFields? {
      NoneInside(CLOSE_OBJECT, rest);
    } else {
      FieldsShape(fields);
      assert inside[0] == QUOTE && SkipWhite(inside) == inside;
      FieldsBack(fields, NoFields, rest);
    }
    ObjectStart(t, inside);
  }

  function AfterField(rest: Fields): Text { if rest.Field? then [COMMA] + PrintFields(rest) else [] }

  lemma FieldsShape(fields: Fields)
    requires fields.Field?
    ensures EscapeLess(PrintFields(fields))
      == EscapeLess(PrintString(fields.key)) + ([COLON] + (EscapeLess(Print(fields.value)) + EscapeLess(AfterField(fields.rest))))
    ensures EscapeLess(PrintFields(fields)) != [] && EscapeLess(PrintFields(fields))[0] == QUOTE
  {
    var key, value, after := PrintString(fields.key), Print(fields.value), AfterField(fields.rest);
    assert PrintFields(fields) == key + ([COLON] + (value + after));
    EscapeJoins(key, [COLON] + (value + after));
    EscapeJoins([COLON], value + after);
    EscapeJoins(value, after);
    Single(COLON);
    StringShape(fields.key);
  }

  /** No key is in both. */
  ghost predicate Apart(a: Fields, b: Fields) {
    forall k :: HasKey(a, k) ==> !HasKey(b, k)
  }

  lemma FieldsStep(t: Text, before: Fields, key: Text, colon: Text, value: Json, follow: Text)
    requires t != [] && t[0] == QUOTE && ParseChars(t[1..]) == Some((key, colon)) && colon != [] && colon[0] == COLON
    requires ParseValue(colon[1..]) == Some((value, follow)) && follow != [] && SkipWhite(follow) == follow
    ensures follow[0] == COMMA ==> ParseFields(t, before) == ParseFields(follow[1..], Put(before, key, value))
    ensures follow[0] == CLOSE_OBJECT ==> ParseFields(t, before) == Some((Obj(Put(before, key, value)), follow[1..]))
  {
    assert SkipWhite(t) == t && SkipWhite(colon) == colon;
  }

  lemma {:induction false} FieldsBack(fields: Fields, before: Fields, rest: Text)
    requires fields.Field? && ProperFields(fields) && Apart(before, fields)
    ensures ParseFields(EscapeLess(PrintFields(fields)) + [CLOSE_OBJECT] + rest, before) == Some((Obj(Merge(before, fields)), rest))
    decreases fields, 0
  {
    var key, value := fields.key, fields.value;
    var t := EscapeLess(PrintFields(fields)) + [CLOSE_OBJECT] + rest;
    var follow := EscapeLess(AfterField(fields.rest)) + [CLOSE_OBJECT] + rest;
    var colon := [COLON] + (EscapeLess(Print(value)) + follow);
    FieldsShape(fields);
    assert t == EscapeLess(PrintString(key)) + colon;
    StringBack(key, colon);
    assert colon[1..] == EscapeLess(Print(value)) + follow;
    assert HasKey(fields, key);
    FollowField(fields, before, rest);
    ValueBack(value, follow);
    FieldsStep(t, before, key, colon, value, follow);
  }

  /** What comes after a field: the next, or the end. */
  lemma {:induction false} FollowField(fields: Fields, before: Fields, rest: Text)
    requires fields.Field? && ProperFields(fields) && Apart(before, fields) && !HasKey(before, fields.key)
    ensures var follow := EscapeLess(AfterField(fields.rest)) + [CLOSE_OBJECT] + rest;
      var fs := Put(before, fields.key, fields.value);
      follow != [] && Ends(follow) && SkipWhite(follow) == follow
      && if fields.rest.Field? then follow[0] == COMMA && ParseFields(follow[1..], fs) == Some((Obj(Merge(before, fields)), rest))
         else follow[0] == CLOSE_OBJECT && follow[1..] == rest && fs == Merge(before, fields)
    decreases fields.rest, 2
  {
    PutMerge(before, fields.key, fields.value, fields.rest);
    var fs := Put(before, fields.key, fields.value);
    FollowShape(fields.rest, rest);
    if fields.rest.Field? {
      FieldsBack(fields.rest, fs, rest);
    } else {
      MergeNothing(fs);
    }
  }

  lemma FollowShape(fields: Fields, rest: Text)
    ensures var follow := EscapeLess(AfterField(fields)) + [CLOSE_OBJECT] + rest;
      follow != [] && Ends(follow) && SkipWhite(follow) == follow
      && if fields.Field? then follow[0] == COMMA && follow[1..] == EscapeLess(PrintFields(fields)) + [CLOSE_OBJECT] + rest
         else follow[0] == CLOSE_OBJECT && follow[1..] == rest
  {
    if fields.Field? {
      EscapeJoins([COMMA], PrintFields(fields));
      Single(COMMA);
      assert EscapeLess(AfterField(fields)) + [CLOSE_OBJECT] + rest == [COMMA] + (EscapeLess(PrintFields(fields)) + [CLOSE_OBJECT] + rest);
    } else {
      NoneInside(CLOSE_OBJECT, rest);
    }
  }

  lemma ParsePrinted(j: Json)
    requires Proper(j)
    ensures Parse(EscapeLess(Print(j))) == Some(j)
  {
    ValueBack(j, []);
    assert EscapeLess(Print(j)) + [] == EscapeLess(Print(j));
  }

  // ---------------------------------------------------------------- which characters are escaped

  /** The two-character escapes. */
  lemma ShortEscapesAre(u: Unit)
    ensures ShortEscape(u) ==
      if u == 34 then Some(34) else if u == 92 then Some(92)
      else if u == 8 then Some(Ascii("b")[0]) else if u == 9 then Some(Ascii("t")[0]) else if u == 10 then Some(Ascii("n")[0])
      else if u == 12 then Some(Ascii("f")[0]) else if u == 13 then Some(Ascii("r")[0]) else None
  {}

  /** Of the other characters exactly control characters and lone surrogates become `\\uXXXX`, with lower-case digits. */
  lemma OthersPrinted(u: Unit, lone: bool)
    requires ShortEscape(u).None?
    ensures if u < 32 || lone then |PrintUnit(u, lone)| == 6 && PrintUnit(u, lone)[..2] == Ascii("\\u") else PrintUnit(u, lone) == [u]
    ensures forall k :: 2 <= k < |UnicodeEscape(u)| ==> 48 <= UnicodeEscape(u)[k] <= 57 || 97 <= UnicodeEscape(u)[k] <= 102
  {}
}
