/** JavaScript strings: sequences of UTF-16 code units, and their length in UTF-8 bytes. */
module Utf16 {
  newtype Unit = u: int | 0 <= u < 0x1_0000

  type Text = seq<Unit>

  /** The literals of the source are ASCII. */
  function Ascii(s: string): (t: Text)
    ensures |t| == |s| && forall i :: 0 <= i < |s| && s[i] < 128 as char ==> t[i] as int == s[i] as int
  {
    seq(|s|, i requires 0 <= i < |s| => if s[i] < 128 as char then s[i] as int as Unit else 0xFFFD)
  }

  predicate High(u: Unit) { 0xD800 <= u <= 0xDBFF }
  predicate Low(u: Unit) { 0xDC00 <= u <= 0xDFFF }

  function UnitBytes(u: Unit): nat {
    if u < 0x80 then 1 else if u < 0x800 then 2 else 3
  }

  /** `Buffer.byteLength`: a pair takes four bytes, a lone surrogate becomes a three-byte replacement. */
  function ByteLength(t: Text): nat {
    if t == [] then 0
    else if |t| >= 2 && High(t[0]) && Low(t[1]) then 4 + ByteLength(t[2..])
    else UnitBytes(t[0]) + ByteLength(t[1..])
  }

  /** A cut before index `i` separates the halves of a surrogate pair. */
  predicate SplitsPair(t: Text, i: nat) {
    0 < i < |t| && High(t[i - 1]) && Low(t[i])
  }

  lemma {:induction false} AtMostThreeBytes(t: Text)
    ensures ByteLength(t) <= 3 * |t|
  {
    if t != [] {
      if |t| >= 2 && High(t[0]) && Low(t[1]) { AtMostThreeBytes(t[2..]); } else { AtMostThreeBytes(t[1..]); }
    }
  }

  lemma {:induction false} AtLeastOneByte(t: Text)
    ensures ByteLength(t) >= |t|
  {
    if t != [] {
      if |t| >= 2 && High(t[0]) && Low(t[1]) { AtLeastOneByte(t[2..]); } else { AtLeastOneByte(t[1..]); }
    }
  }

  /** Bytes add up at every cut that does not split a pair. */
  lemma {:induction false} BytesAdd(a: Text, b: Text)
    requires !SplitsPair(a + b, |a|)
    ensures ByteLength(a + b) == ByteLength(a) + ByteLength(b)
  {
    if a == [] {
      assert a + b == b;
    } else if |a| >= 2 && High(a[0]) && Low(a[1]) {
      assert (a + b)[2..] == a[2..] + b;
      BytesAdd(a[2..], b);
    } else {
      assert (a + b)[1..] == a[1..] + b;
      assert |a| == 1 && b != [] ==> (a + b)[1] == b[0];
      BytesAdd(a[1..], b);
    }
  }

  function Slice(t: Text, from: int, to: int): Text {
    if 0 <= from <= to <= |t| then t[from..to] else []
  }

  predicate StartsWith(t: Text, p: Text) {
    p <= t
  }

  predicate OccursAt(t: Text, p: Text, i: int) {
    0 <= i && i + |p| <= |t| && t[i..i + |p|] == p
  }

  /** `lastIndexOf`, or -1. */
  function LastIndexOf(t: Text, p: Text): (i: int)
    ensures i == -1 || OccursAt(t, p, i)
    ensures forall j :: OccursAt(t, p, j) ==> j <= i
  {
    LastIndexFrom(t, p, |t|)
  }

  function LastIndexFrom(t: Text, p: Text, n: nat): (i: int)
    requires n <= |t|
    ensures i == -1 || OccursAt(t, p, i)
    ensures forall j :: OccursAt(t, p, j) && j <= n ==> j <= i
  {
    if OccursAt(t, p, n) then n else if n == 0 then -1 else LastIndexFrom(t, p, n - 1)
  }
}
