/** `encodeURIComponent` and `decodeURIComponent` on UTF-16 text (section 2.1 of RFC 3986, section 3 of RFC 3629), and `/`-separated parts. */
module UriText {
  import opened Options
  import opened Utf16

  const PERCENT: Unit := 0x25
  const SLASH: Unit := 0x2F

  /** The characters that stand for themselves. */
  predicate Unescaped(c: int) {
    0x30 <= c <= 0x39 || 0x41 <= c <= 0x5A || 0x61 <= c <= 0x7A || c == 0x2D || c == 0x5F || c == 0x2E || c == 0x21 || c == 0x7E
    || 0x27 <= c <= 0x2A
  }

  // ---------------------------------------------------------------- code points

  predicate IsScalar(c: int) { 0 <= c < 0xD800 || 0xE000 <= c < 0x11_0000 }

  /** The code point at the start, and its units; none at a lone surrogate. */
  function Scalar(t: Text): (r: Option<(int, nat)>)
    requires t != []
    ensures r.Some? ==> IsScalar(r.value.0) && 1 <= r.value.1 <= |t|
  {
    if High(t[0]) then
      if |t| >= 2 && Low(t[1]) then Some((0x1_0000 + (t[0] as int - 0xD800) * 0x400 + (t[1] as int - 0xDC00), 2)) else None
    else if Low(t[0]) then None
    else Some((t[0] as int, 1))
  }

  function Units(c: int): (t: Text)
    requires IsScalar(c)
    ensures t != []
  {
    if c < 0x1_0000 then [c as Unit]
    else [(0xD800 + (c - 0x1_0000) / 0x400) as Unit, (0xDC00 + (c - 0x1_0000) % 0x400) as Unit]
  }

  function Octets(c: int): (bytes: seq<int>)
    requires IsScalar(c)
    ensures forall k :: 0 <= k < |bytes| ==> 0 <= bytes[k] < 256
  {
    if c < 0x80 then [c]
    else if c < 0x800 then [0xC0 + c / 64, 0x80 + c % 64]
    else if c < 0x1_0000 then [0xE0 + c / 4096, 0x80 + c / 64 % 64, 0x80 + c % 64]
    else [0xF0 + c / 262144, 0x80 + c / 4096 % 64, 0x80 + c / 64 % 64, 0x80 + c % 64]
  }

  function Hex(d: int): Unit
    requires 0 <= d < 16
  {
    if d < 10 then (0x30 + d) as Unit else (0x41 + d - 10) as Unit
  }

  function HexValue(u: Unit): Option<int> {
    var c := u as int;
    if 0x30 <= c <= 0x39 then Some(c - 0x30)
    else if 0x41 <= c <= 0x46 then Some(c - 0x41 + 10)
    else if 0x61 <= c <= 0x66 then Some(c - 0x61 + 10)
    else None
  }

  function Percent(b: int): (t: Text)
    requires 0 <= b < 256
    ensures |t| == 3
  {
    [PERCENT, Hex(b / 16), Hex(b % 16)]
  }

  function Percents(bytes: seq<int>): (t: Text)
    requires forall k :: 0 <= k < |bytes| ==> 0 <= bytes[k] < 256
    ensures |t| == 3 * |bytes|
  {
    if bytes == [] then [] else Percent(bytes[0]) + Percents(bytes[1..])
  }

  function EncodeScalar(c: int): (t: Text)
    requires IsScalar(c)
    ensures t != []
  {
    if Unescaped(c) then [c as Unit] else Percents(Octets(c))
  }

  /** None: the source throws, at a lone surrogate. */
  function Encode(t: Text): Option<Text> {
    if t == [] then Some([])
    else
      match Scalar(t)
      case None => None
      case Some((c, n)) =>
        match Encode(t[n..])
        case None => None
        case Some(rest) => Some(EncodeScalar(c) + rest)
  }

  /** The UTF-8 encoding, in which U+FFFD stands for a lone surrogate. */
  function Utf8(t: Text): seq<int> {
    if t == [] then []
    else
      match Scalar(t)
      case None => Octets(0xFFFD) + Utf8(t[1..])
      case Some((c, n)) => Octets(c) + Utf8(t[n..])
  }

  /** The byte count that budgets are kept in is the length of that encoding. */
  lemma {:induction false} BytesAreUtf8(t: Text)
    ensures |Utf8(t)| == ByteLength(t)
  {
    if t != [] {
      match Scalar(t)
      case None => BytesAreUtf8(t[1..]);
      case Some((c, n)) => BytesAreUtf8(t[n..]);
    }
  }

  /** Every code point is read back from its units, whatever follows them. */
  lemma ScalarBack(c: int, rest: Text)
    requires IsScalar(c)
    ensures Scalar(Units(c) + rest) == Some((c, |Units(c)|))
  {}

  // ---------------------------------------------------------------- decoding

  function ByteAt(t: Text, i: nat): Option<int> {
    if i + 3 <= |t| && t[i] == PERCENT && HexValue(t[i + 1]).Some? && HexValue(t[i + 2]).Some?
    then Some(HexValue(t[i + 1]).value * 16 + HexValue(t[i + 2]).value) else None
  }

  /** Six bits of a continuation byte. */
  function More(t: Text, i: nat): Option<int> {
    match ByteAt(t, i) case Some(b) => if 0x80 <= b < 0xC0 then Some(b - 0x80) else None case None => None
  }

  function Checked(c: int, least: int, n: nat): Option<(int, nat)> {
    if c >= least && IsScalar(c) then Some((c, n)) else None
  }

  /** The escaped code point at the start, and the units of its escapes. */
  function Escaped(t: Text): (r: Option<(int, nat)>)
    ensures r.Some? ==> IsScalar(r.value.0) && 1 <= r.value.1 <= |t|
  {
    match ByteAt(t, 0)
    case None => None
    case Some(b) =>
      if b < 0x80 then Checked(b, 0, 3)
      else if 0xC0 <= b < 0xE0 then
        if More(t, 3).None? then None else Checked((b - 0xC0) * 64 + More(t, 3).value, 0x80, 6)
      else if 0xE0 <= b < 0xF0 then
        if More(t, 3).None? || More(t, 6).None? then None
        else Checked((b - 0xE0) * 4096 + More(t, 3).value * 64 + More(t, 6).value, 0x800, 9)
      else if 0xF0 <= b < 0xF8 then
        if More(t, 3).None? || More(t, 6).None? || More(t, 9).None? then None
        else Checked((b - 0xF0) * 262144 + More(t, 3).value * 4096 + More(t, 6).value * 64 + More(t, 9).value, 0x1_0000, 12)
      else None
  }

  /** None: the source throws, at a malformed escape. */
  function Decode(t: Text): Option<Text> {
    if t == [] then Some([])
    else if t[0] != PERCENT then
      match Decode(t[1..]) case None => None case Some(rest) => Some([t[0]] + rest)
    else
      match Escaped(t)
      case None => None
      case Some((c, n)) =>
        match Decode(t[n..]) case None => None case Some(rest) => Some(Units(c) + rest)
  }

  // ---------------------------------------------------------------- decoding undoes encoding

  lemma PercentByte(t: Text, i: nat, b: int)
    requires 0 <= b < 256 && i + 3 <= |t| && t[i..i + 3] == Percent(b)
    ensures ByteAt(t, i) == Some(b)
  {
    assert t[i] == t[i..i + 3][0] && t[i + 1] == t[i..i + 3][1] && t[i + 2] == t[i..i + 3][2];
  }

  lemma {:induction false} PercentsAt(bytes: seq<int>, rest: Text, k: nat)
    requires forall k :: 0 <= k < |bytes| ==> 0 <= bytes[k] < 256
    requires k < |bytes|
    ensures ByteAt(Percents(bytes) + rest, 3 * k) == Some(bytes[k])
  {
    var t, tail := Percents(bytes) + rest, Percents(bytes[1..]) + rest;
    assert t == Percent(bytes[0]) + tail;
    if k == 0 {
      PercentByte(t, 0, bytes[0]);
    } else {
      PercentsAt(bytes[1..], rest, k - 1);
      ByteBehind(Percent(bytes[0]), tail, 3 * (k - 1));
    }
  }

  lemma ByteBehind(a: Text, t: Text, i: nat)
    requires |a| == 3
    ensures ByteAt(a + t, 3 + i) == ByteAt(t, i)
  {}

  lemma SixBits(c: int)
    requires 0 <= c
    ensures c == c / 64 * 64 + c % 64 && c / 64 == c / 4096 * 64 + c / 64 % 64 && c / 4096 == c / 262144 * 64 + c / 4096 % 64
  {
  }

  lemma EscapedBack(c: int, rest: Text)
    requires IsScalar(c)
    ensures Escaped(Percents(Octets(c)) + rest) == Some((c, |Percents(Octets(c))|))
  {
    if c >= 0x1_0000 { FourBack(c, rest); }
    else if c >= 0x800 { ThreeBack(c, rest); }
    else if c >= 0x80 { TwoBack(c, rest); }
    else { PercentsAt(Octets(c), rest, 0); }
  }

  lemma TwoBack(c: int, rest: Text)
    requires 0x80 <= c < 0x800
    ensures Escaped(Percents(Octets(c)) + rest) == Some((c, 6)) && |Percents(Octets(c))| == 6
  {
    PercentsAt(Octets(c), rest, 0);
    PercentsAt(Octets(c), rest, 1);
    TwoBytes(Percents(Octets(c)) + rest, c);
  }

  lemma ThreeBack(c: int, rest: Text)
    requires 0x800 <= c < 0x1_0000 && IsScalar(c)
    ensures Escaped(Percents(Octets(c)) + rest) == Some((c, 9)) && |Percents(Octets(c))| == 9
  {
    PercentsAt(Octets(c), rest, 0);
    PercentsAt(Octets(c), rest, 1);
    PercentsAt(Octets(c), rest, 2);
    ThreeBytes(Percents(Octets(c)) + rest, c);
  }

  lemma FourBack(c: int, rest: Text)
    requires 0x1_0000 <= c < 0x11_0000
    ensures Escaped(Percents(Octets(c)) + rest) == Some((c, 12)) && |Percents(Octets(c))| == 12
  {
    PercentsAt(Octets(c), rest, 0);
    PercentsAt(Octets(c), rest, 1);
    PercentsAt(Octets(c), rest, 2);
    PercentsAt(Octets(c), rest, 3);
    FourBytes(Percents(Octets(c)) + rest, c);
  }

  lemma TwoBytes(t: Text, c: int)
    requires 0x80 <= c < 0x800 && |t| >= 6 && ByteAt(t, 0) == Some(0xC0 + c / 64) && ByteAt(t, 3) == Some(0x80 + c % 64)
    ensures Escaped(t) == Some((c, 6))
  {
  }

  lemma ThreeBytes(t: Text, c: int)
    requires 0x800 <= c < 0x1_0000 && IsScalar(c) && |t| >= 9
    requires ByteAt(t, 0) == Some(0xE0 + c / 4096) && ByteAt(t, 3) == Some(0x80 + c / 64 % 64) && ByteAt(t, 6) == Some(0x80 + c % 64)
    ensures Escaped(t) == Some((c, 9))
  {
    SixBits(c);
  }

  lemma FourBytes(t: Text, c: int)
    requires 0x1_0000 <= c < 0x11_0000 && |t| >= 12
    requires ByteAt(t, 0) == Some(0xF0 + c / 262144) && ByteAt(t, 3) == Some(0x80 + c / 4096 % 64)
    requires ByteAt(t, 6) == Some(0x80 + c / 64 % 64) && ByteAt(t, 9) == Some(0x80 + c % 64)
    ensures Escaped(t) == Some((c, 12))
  {
    SixBits(c);
  }

  lemma ScalarUnits(t: Text)
    requires t != [] && Scalar(t).Some?
    ensures Units(Scalar(t).value.0) == t[..Scalar(t).value.1]
  {
  }

  lemma DecodeScalar(c: int, rest: Text)
    requires IsScalar(c) && Decode(rest).Some?
    ensures Decode(EncodeScalar(c) + rest) == Some(Units(c) + Decode(rest).value)
  {
    var e := EncodeScalar(c) + rest;
    assert e[|EncodeScalar(c)|..] == rest;
    if Unescaped(c) {
      assert e[0] == c as Unit && e[0] != PERCENT && e[1..] == rest;
    } else {
      PercentsAt(Octets(c), rest, 0);
      EscapedBack(c, rest);
    }
  }

  lemma {:induction false} DecodeEncode(t: Text)
    requires Encode(t).Some?
    ensures Decode(Encode(t).value) == Some(t)
    decreases |t|
  {
    if t != [] {
      EncodeFirst(t);
      var (c, n) := Scalar(t).value;
      DecodeEncode(t[n..]);
      DecodeScalar(c, Encode(t[n..]).value);
      ScalarUnits(t);
      assert t[..n] + t[n..] == t;
    }
  }

  lemma EncodeFirst(t: Text)
    requires t != [] && Encode(t).Some?
    ensures Scalar(t).Some? && var (c, n) := Scalar(t).value; Encode(t[n..]).Some? && Encode(t).value == EncodeScalar(c) + Encode(t[n..]).value
  {}

  /** A surrogate has its partner. */
  predicate PairedAt(t: Text, i: nat)
    requires i < |t|
  {
    (High(t[i]) ==> i + 1 < |t| && Low(t[i + 1])) && (Low(t[i]) ==> i > 0 && High(t[i - 1]))
  }

  predicate WellFormed(t: Text) {
    forall i :: 0 <= i < |t| ==> PairedAt(t, i)
  }

  /** Exactly the well-formed texts can be encoded. */
  lemma {:induction false} EncodesWellFormed(t: Text)
    ensures Encode(t).Some? <==> WellFormed(t)
    decreases |t|
  {
    if t != [] {
      if Scalar(t).None? {
        assert !PairedAt(t, 0);
      } else {
        EncodesWellFormed(t[Scalar(t).value.1..]);
        WellFormedTail(t);
      }
    }
  }

  lemma WellFormedTail(t: Text)
    requires t != [] && Scalar(t).Some?
    ensures WellFormed(t) <==> WellFormed(t[Scalar(t).value.1..])
  {
    var n := Scalar(t).value.1;
    var r := t[n..];
    if WellFormed(t) {
      forall i | 0 <= i < |r| ensures PairedAt(r, i) { assert PairedAt(t, i + n); }
    }
    if WellFormed(r) {
      forall i | 0 <= i < |t| ensures PairedAt(t, i) {
        if i >= n { assert PairedAt(r, i - n); }
      }
    }
  }

  /** An encoded part holds no `/`, and is empty exactly when the part is. */
  lemma {:induction false} EncodedHasNoSlash(t: Text)
    requires Encode(t).Some?
    ensures SLASH !in Encode(t).value && (Encode(t).value == [] <==> t == [])
    decreases |t|
  {
    if t != [] {
      var (c, n) := Scalar(t).value;
      EncodedHasNoSlash(t[n..]);
      if !Unescaped(c) { PercentsHaveNoSlash(Octets(c)); }
    }
  }

  lemma {:induction false} PercentsHaveNoSlash(bytes: seq<int>)
    requires forall k :: 0 <= k < |bytes| ==> 0 <= bytes[k] < 256
    ensures SLASH !in Percents(bytes)
  {
    if bytes != [] { PercentsHaveNoSlash(bytes[1..]); }
  }

  // ---------------------------------------------------------------- parts

  function Join(parts: seq<Text>): Text
    requires parts != []
  {
    if |parts| == 1 then parts[0] else parts[0] + [SLASH] + Join(parts[1..])
  }

  /** The length of the part at the start. */
  function PartLength(t: Text): (n: nat)
    ensures n <= |t| && SLASH !in t[..n] && (n < |t| ==> t[n] == SLASH)
  {
    if t == [] || t[0] == SLASH then 0
    else
      var n := PartLength(t[1..]);
      assert t[..n + 1] == [t[0]] + t[1..][..n];
      n + 1
  }

  function Split(t: Text): (parts: seq<Text>)
    ensures parts != []
    decreases |t|
  {
    var n := PartLength(t);
    if n == |t| then [t] else [t[..n]] + Split(t[n + 1..])
  }

  lemma PartEnds(a: Text, rest: Text)
    requires SLASH !in a && (rest == [] || rest[0] == SLASH)
    ensures PartLength(a + rest) == |a|
    decreases |a|
  {
    if a != [] {
      assert (a + rest)[1..] == a[1..] + rest;
      assert forall u :: u in a[1..] ==> u in a;
      PartEnds(a[1..], rest);
    } else {
      assert a + rest == rest;
    }
  }

  lemma {:induction false} SplitJoin(parts: seq<Text>)
    requires parts != [] && forall p :: p in parts ==> SLASH !in p
    ensures Split(Join(parts)) == parts
  {
    assert parts[0] in parts;
    if |parts| == 1 {
      assert parts[0] + [] == parts[0];
      PartEnds(parts[0], []);
    } else {
      var rest := [SLASH] + Join(parts[1..]);
      assert Join(parts) == parts[0] + rest;
      PartEnds(parts[0], rest);
      assert Join(parts)[|parts[0]| + 1..] == Join(parts[1..]);
      SplitJoin(parts[1..]);
    }
  }

  // ---------------------------------------------------------------- which characters are escaped, and how

  /** Letters, digits and `-_.!~*'()` stand for themselves. */
  lemma UnescapedAre(c: int)
    ensures Unescaped(c) <==>
      65 <= c <= 90 || 97 <= c <= 122 || 48 <= c <= 57 || c in {0x2D, 0x5F, 0x2E, 0x21, 0x7E, 0x2A, 0x27, 0x28, 0x29}
  {}

  /** Encoded text holds nothing else but escapes, with upper-case digits. */
  lemma {:induction false} EncodedUnits(t: Text)
    requires Encode(t).Some?
    ensures forall u :: u in Encode(t).value ==> Unescaped(u as int) || u == 0x25
    decreases |t|
  {
    if t != [] {
      var (c, n) := Scalar(t).value;
      EncodedUnits(t[n..]);
      if !Unescaped(c) { EscapeUnits(Octets(c)); }
    }
  }

  lemma {:induction false} EscapeUnits(bytes: seq<int>)
    requires forall k :: 0 <= k < |bytes| ==> 0 <= bytes[k] < 256
    ensures forall u :: u in Percents(bytes) ==> u == 0x25 || 48 <= u <= 57 || 65 <= u <= 70
  {
    if bytes != [] { EscapeUnits(bytes[1..]); }
  }

  /** The octets that the escapes at the start stand for. */
  ghost predicate EscapesOf(t: Text, bytes: seq<int>) {
    forall k :: 0 <= k < |bytes| ==> ByteAt(t, 3 * k) == Some(bytes[k])
  }

  lemma SixMore(a: int, m: int)
    requires a >= 0 && 0 <= m < 64
    ensures (a * 64 + m) / 64 == a && (a * 64 + m) % 64 == m
  {}

  lemma FromTwo(a: int, m: int)
    requires 0 <= a < 32 && 0 <= m < 64 && a * 64 + m >= 0x80
    ensures Octets(a * 64 + m) == [0xC0 + a, 0x80 + m]
  {
    SixMore(a, m);
  }

  lemma FromThree(a: int, m: int, n: int)
    requires 0 <= a < 16 && 0 <= m < 64 && 0 <= n < 64 && a * 4096 + m * 64 + n >= 0x800 && IsScalar(a * 4096 + m * 64 + n)
    ensures Octets(a * 4096 + m * 64 + n) == [0xE0 + a, 0x80 + m, 0x80 + n]
  {
    SixMore(a * 64 + m, n);
    SixMore(a, m);
    assert (a * 64 + m) * 64 + n == a * 4096 + m * 64 + n;
    SixBits(a * 4096 + m * 64 + n);
  }

  lemma FromFour(a: int, m: int, n: int, p: int)
    requires 0 <= a < 8 && 0 <= m < 64 && 0 <= n < 64 && 0 <= p < 64
    requires a * 262144 + m * 4096 + n * 64 + p >= 0x1_0000 && IsScalar(a * 262144 + m * 4096 + n * 64 + p)
    ensures Octets(a * 262144 + m * 4096 + n * 64 + p) == [0xF0 + a, 0x80 + m, 0x80 + n, 0x80 + p]
  {
    var c := a * 262144 + m * 4096 + n * 64 + p;
    SixMore(a * 4096 + m * 64 + n, p);
    SixMore(a * 64 + m, n);
    SixMore(a, m);
    assert (a * 4096 + m * 64 + n) * 64 + p == c && (a * 64 + m) * 64 + n == a * 4096 + m * 64 + n;
    SixBits(c);
  }

  /** Only the shortest encoding of a code point is read, and no encoding of a surrogate. */
  lemma EscapesAreCanonical(t: Text, c: int, n: nat)
    requires Escaped(t) == Some((c, n))
    ensures IsScalar(c) && n == 3 * |Octets(c)| && EscapesOf(t, Octets(c))
  {
    var b := ByteAt(t, 0).value;
    if b >= 0xF0 {
      CanonicalFour(t, c, n);
    } else if b >= 0xE0 {
      CanonicalThree(t, c, n);
    } else if b >= 0x80 {
      FromTwo(b - 0xC0, More(t, 3).value);
    }
  }

  lemma CanonicalThree(t: Text, c: int, n: nat)
    requires Escaped(t) == Some((c, n)) && ByteAt(t, 0).Some? && 0xE0 <= ByteAt(t, 0).value < 0xF0
    ensures n == 3 * |Octets(c)| && EscapesOf(t, Octets(c))
  {
    FromThree(ByteAt(t, 0).value - 0xE0, More(t, 3).value, More(t, 6).value);
  }

  lemma CanonicalFour(t: Text, c: int, n: nat)
    requires Escaped(t) == Some((c, n)) && ByteAt(t, 0).Some? && 0xF0 <= ByteAt(t, 0).value
    ensures n == 3 * |Octets(c)| && EscapesOf(t, Octets(c))
  {
    FourOctets(t, ByteAt(t, 0).value - 0xF0, More(t, 3).value, More(t, 6).value, More(t, 9).value);
  }

  lemma FourOctets(t: Text, a: int, m: int, n: int, p: int)
    requires 0 <= a < 8 && 0 <= m < 64 && 0 <= n < 64 && 0 <= p < 64
    requires a * 262144 + m * 4096 + n * 64 + p >= 0x1_0000 && IsScalar(a * 262144 + m * 4096 + n * 64 + p)
    requires ByteAt(t, 0) == Some(0xF0 + a) && ByteAt(t, 3) == Some(0x80 + m) && ByteAt(t, 6) == Some(0x80 + n) && ByteAt(t, 9) == Some(0x80 + p)
    ensures var bytes := Octets(a * 262144 + m * 4096 + n * 64 + p); |bytes| == 4 && EscapesOf(t, bytes)
  {
    FromFour(a, m, n, p);
    EscapedEach(t, [0xF0 + a, 0x80 + m, 0x80 + n, 0x80 + p]);
  }

  lemma EscapedEach(t: Text, bytes: seq<int>)
    requires |bytes| == 4 && ByteAt(t, 0) == Some(bytes[0]) && ByteAt(t, 3) == Some(bytes[1])
    requires ByteAt(t, 6) == Some(bytes[2]) && ByteAt(t, 9) == Some(bytes[3])
    ensures EscapesOf(t, bytes)
  {}
}
