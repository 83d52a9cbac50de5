/**
 * The rules of the tag scanner one by one (apps/remote/server/inline-image-contract.ts:84-119): each recogniser finds exactly what
 * the regular expression of the source matches, and each position of a line does exactly what its text says.
 */
module InlineImageRules {
  import opened Options
  import opened InlineImageTags

  // ---------------------------------------------------------------- characters

  predicate White(c: char) {
    var u := c as int;
    9 <= u <= 13 || u in {0x20, 0xA0, 0x1680, 0x2028, 0x2029, 0x202F, 0x205F, 0x3000, 0xFEFF} || 0x2000 <= u <= 0x200A
  }

  lemma SpaceIsWhite(c: char)
    ensures Space(c) <==> White(c)
    ensures LineTerminator(c) <==> c as int in {10, 13, 0x2028, 0x2029}
  {}

  predicate AllAre(t: string, from: int, to: int, c: char) {
    0 <= from && to <= |t| && forall k :: from <= k < to ==> t[k] == c
  }

  lemma RunIsMaximal(t: string, i: nat, c: char, n: nat)
    requires i <= |t|
    ensures RunLength(t, i, c) == n <==> AllAre(t, i, i + n, c) && (i + n < |t| ==> t[i + n] != c)
  {
    var m := RunLength(t, i, c);
    assert n < m ==> t[i + n] == c;
  }

  // ---------------------------------------------------------------- fences and indentation

  /** `^ {0,3}(`{3,}|~{3,})`: up to three spaces and a whole run of three or more. */
  predicate MarkerAt(body: string, n: nat, c: char, length: nat) {
    && n <= 3 && length >= 3 && (c == '`' || c == '~') && AllAre(body, 0, n, ' ') && AllAre(body, n, n + length, c)
    && (n + length < |body| ==> body[n + length] != c)
  }

  lemma MarkerExact(body: string)
    ensures forall n: nat, c, length: nat :: MarkerAt(body, n, c, length) ==> Marker(body) == Some((Fence(c, length), n + length))
    ensures Marker(body).Some? ==> exists n: nat, c, length: nat :: MarkerAt(body, n, c, length)
  {
    forall n: nat, c, length: nat | MarkerAt(body, n, c, length) ensures Marker(body) == Some((Fence(c, length), n + length)) {
      assert body[n] == c;
      RunIsMaximal(body, 0, ' ', n);
      RunIsMaximal(body, n, c, length);
    }
    if Marker(body).Some? {
      var n := RunLength(body, 0, ' ');
      var length := RunLength(body, n, body[n]);
      RunIsMaximal(body, 0, ' ', n);
      RunIsMaximal(body, n, body[n], length);
      assert MarkerAt(body, n, body[n], length);
    }
  }

  /** White space up to the end of the line, or of the text. */
  ghost predicate BlankRest(body: string, i: nat) {
    exists e :: i <= e <= |body| && LineOver(body, e) && forall k :: i <= k < e ==> White(body[k])
  }

  predicate LineOver(body: string, e: int)
    requires 0 <= e <= |body|
  {
    e == |body| || body[e] as int in {10, 13, 0x2028, 0x2029}
  }

  lemma {:induction false} BlankIsWhite(body: string, i: nat)
    requires i <= |body|
    ensures BlankFrom(body, i) <==> BlankRest(body, i)
    decreases |body| - i
  {
    if i < |body| {
      SpaceIsWhite(body[i]);
      BlankIsWhite(body, i + 1);
      if LineOver(body, i) {
        assert BlankRest(body, i);
      } else if White(body[i]) {
        if BlankRest(body, i + 1) {
          var e :| i + 1 <= e <= |body| && LineOver(body, e) && forall k :: i + 1 <= k < e ==> White(body[k]);
          assert i <= e <= |body| && LineOver(body, e);
        }
        if BlankRest(body, i) {
          var e :| i <= e <= |body| && LineOver(body, e) && forall k :: i <= k < e ==> White(body[k]);
          assert i + 1 <= e;
        }
      }
    } else {
      assert LineOver(body, i);
    }
  }

  /** A fence is closed by a marker of its own character, at least as long, with nothing behind it. */
  lemma FenceCloses(fence: Fence, body: string)
    ensures Closes(fence, body) <==>
      exists n: nat, length: nat :: MarkerAt(body, n, fence.character, length) && length >= fence.length && BlankRest(body, n + length)
  {
    MarkerExact(body);
    if Closes(fence, body) {
      var n: nat, c, length: nat :| MarkerAt(body, n, c, length);
      BlankIsWhite(body, n + length);
    }
    forall n: nat, length: nat | MarkerAt(body, n, fence.character, length) && length >= fence.length && BlankRest(body, n + length)
      ensures Closes(fence, body)
    {
      BlankIsWhite(body, n + length);
    }
  }

  /** Code is indented by four spaces or a tab. */
  lemma IndentedExact(body: string)
    ensures Indented(body) <==> "    " <= body || "\t" <= body
  {
    var n := RunLength(body, 0, ' ');
    if n >= 4 { assert body[..4] == "    "; }
    if "    " <= body {
      forall k | 0 <= k < 4 ensures body[k] == ' ' { assert body[k] == "    "[k]; }
    }
    if "\t" <= body { assert body[0] == "\t"[0]; }
    if body != "" && body[0] == '\t' { assert body[..1] == "\t"; }
  }

  // ---------------------------------------------------------------- quote and list prefixes

  /** ` {0,3}> ?` */
  predicate QuoteAt(line: string, n: nat) {
    n <= 3 && n < |line| && AllAre(line, 0, n, ' ') && line[n] == '>'
  }

  /** One quotation mark after the other is dropped, each with the space behind it. */
  lemma QuotesDropped(line: string, n: nat)
    ensures QuoteAt(line, n) ==> StripQuotes(line) == StripQuotes(line[BehindMark(line, n)..])
    ensures (forall k: nat :: !QuoteAt(line, k)) ==> StripQuotes(line) == line
  {
    if QuoteAt(line, n) { RunIsMaximal(line, 0, ' ', n); }
    if QuoteMark(line).Some? { assert QuoteAt(line, RunLength(line, 0, ' ')); }
  }

  /** The mark takes one space with it. */
  function BehindMark(line: string, n: nat): (d: nat)
    requires n < |line|
    ensures d <= |line|
  {
    if n + 1 < |line| && line[n + 1] == ' ' then n + 2 else n + 1
  }

  predicate Digit(c: char) { 48 <= c as int <= 57 }

  /** ` {0,3}(?:[-+*]|\d+[.)])` up to `p`. */
  predicate ItemAt(line: string, n: nat, p: nat) {
    && n <= 3 && n < p <= |line| && AllAre(line, 0, n, ' ')
    && (|| (p == n + 1 && line[n] in {'-', '+', '*'})
        || (p > n + 1 && line[p - 1] in {'.', ')'} && forall k :: n <= k < p - 1 ==> Digit(line[k])))
  }

  lemma ItemMarkExact(line: string)
    ensures forall n: nat, p: nat :: ItemAt(line, n, p) ==> ItemMark(line) == Some(p)
    ensures ItemMark(line).Some? ==> exists n: nat :: ItemAt(line, n, ItemMark(line).value)
  {
    forall n: nat, p: nat | ItemAt(line, n, p) ensures ItemMark(line) == Some(p) {
      assert line[n] != ' ';
      RunIsMaximal(line, 0, ' ', n);
      if p > n + 1 { DigitsTo(line, n, p - 1); }
    }
    if ItemMark(line).Some? {
      var n := RunLength(line, 0, ' ');
      assert ItemAt(line, n, ItemMark(line).value);
    }
  }

  lemma {:induction false} DigitsTo(line: string, i: nat, d: nat)
    requires i <= d < |line| && !Digit(line[d]) && forall k :: i <= k < d ==> Digit(line[k])
    ensures Digits(line, i) == d
    decreases d - i
  {
    if i < d { DigitsTo(line, i + 1, d); }
  }

  /** A list marker is dropped with the space behind it, and only then. */
  lemma ItemDropped(line: string)
    ensures forall n: nat, p: nat :: ItemAt(line, n, p) && p < |line| && line[p] == ' ' ==> StripItem(line) == line[p + 1..]
    ensures (forall n: nat, p: nat :: ItemAt(line, n, p) ==> p >= |line| || line[p] != ' ') ==> StripItem(line) == line
    ensures Body(line) == StripItem(StripQuotes(line))
  {
    ItemMarkExact(line);
  }

  // ---------------------------------------------------------------- raw blocks

  predicate InAnyCase(t: string, name: string) {
    |t| == |name| && forall k :: 0 <= k < |name| ==> t[k] == name[k] || (65 <= t[k] as int <= 90 && t[k] as int + 32 == name[k] as int)
  }

  /** `<(pre|code|script|style)(?:\s[^>]*|)>` */
  predicate OpensRaw(w: string, i: nat, name: string, e: nat) {
    var j := i + 1 + |name|;
    && (name == "pre" || name == "code" || name == "script" || name == "style")
    && j < e <= |w| && w[i] == '<' && InAnyCase(w[i + 1..j], name)
    && w[e - 1] == '>' && (e == j + 1 || White(w[j])) && forall k :: j <= k < e - 1 ==> w[k] != '>'
  }

  lemma NamedInAnyCase(w: string, i: nat, name: string)
    requires forall k :: 0 <= k < |name| ==> 97 <= name[k] as int <= 122
    ensures NamedAt(w, i, name) <==> i + |name| <= |w| && InAnyCase(w[i..i + |name|], name)
  {
    if i + |name| <= |w| {
      forall k | 0 <= k < |name| ensures Lower(w[i + k]) == name[k] <==> w[i..i + |name|][k] == name[k] || (65 <= w[i..i + |name|][k] as int <= 90 && w[i..i + |name|][k] as int + 32 == name[k] as int) {
        assert w[i..i + |name|][k] == w[i + k];
      }
    }
  }

  lemma {:induction false} FindIsFirst(w: string, i: nat, text: string)
    requires text != ""
    ensures Find(w, i, text).Some? ==> forall k :: i <= k < Find(w, i, text).value ==> !StartsAt(w, k, text)
    ensures Find(w, i, text).None? ==> forall k :: i <= k ==> !StartsAt(w, k, text)
    decreases |w| - i
  {
    if i + |text| <= |w| && i < |w| && !StartsAt(w, i, text) { FindIsFirst(w, i + 1, text); }
  }

  lemma {:induction false} AngleIsFirst(w: string, j: nat, k: nat)
    ensures Find(w, j, ">") == Some(k) <==> FirstAngle(w, j, k)
    decreases |w| - j
  {
    if j < |w| {
      assert w[j..j + 1] == [w[j]];
      assert StartsAt(w, j, ">") <==> w[j] == '>';
      if w[j] != '>' { AngleIsFirst(w, j + 1, k); }
    }
  }

  lemma RawEndExact(w: string, i: nat, name: string, e: nat)
    requires i < |w| && w[i] == '<' && (name == "pre" || name == "code" || name == "script" || name == "style")
    requires NamedAt(w, i + 1, name)
    ensures RawEnd(w, i, name).Some? && RawEnd(w, i, name).value.1 == e <==> OpensRaw(w, i, name, e)
  {
    var j := i + 1 + |name|;
    OpensNamed(w, i, name, e);
    if j < |w| { SpaceIsWhite(w[j]); }
    EndIsThere(w, i, name);
    if e > 0 { AngleIsFirst(w, j, e - 1); }
  }

  predicate FirstAngle(w: string, j: nat, k: int) {
    j <= k < |w| && w[k] == '>' && forall x :: j <= x < k ==> w[x] != '>'
  }

  lemma OpensNamed(w: string, i: nat, name: string, e: nat)
    requires i < |w| && w[i] == '<' && (name == "pre" || name == "code" || name == "script" || name == "style")
    requires NamedAt(w, i + 1, name)
    ensures OpensRaw(w, i, name, e) <==>
      var j := i + 1 + |name|; j < |w| && (w[j] == '>' || White(w[j])) && FirstAngle(w, j, e - 1)
  {
    NamedInAnyCase(w, i + 1, name);
  }

  lemma EndIsThere(w: string, i: nat, name: string)
    requires i < |w|
    ensures var j, r := i + 1 + |name|, RawEnd(w, i, name);
      && (r.Some? <==> j < |w| && (w[j] == '>' || Space(w[j])) && Find(w, j, ">").Some?)
      && (r.Some? ==> r.value.1 == Find(w, j, ">").value + 1)
  {}

  /** A block starts exactly where the expression for its start tag matches, and it ends where the match does. */
  lemma RawOpenExact(w: string, i: nat, name: string, e: nat)
    ensures RawOpen(w, i) == Some((name, e)) <==> i < |w| && OpensRaw(w, i, name, e)
  {
    if i < |w| && w[i] == '<' {
      NamesDiffer(w, i + 1);
      if NamedAt(w, i + 1, "pre") { RawEndExact(w, i, "pre", e); }
      else if NamedAt(w, i + 1, "code") { RawEndExact(w, i, "code", e); }
      else if NamedAt(w, i + 1, "script") { RawEndExact(w, i, "script", e); }
      else if NamedAt(w, i + 1, "style") { RawEndExact(w, i, "style", e); }
      if OpensRaw(w, i, name, e) { RawNames(w, i, name, e); }
    }
  }

  lemma NamesDiffer(w: string, i: nat)
    ensures NamedAt(w, i, "pre") ==> !NamedAt(w, i, "code") && !NamedAt(w, i, "script") && !NamedAt(w, i, "style")
    ensures NamedAt(w, i, "code") ==> !NamedAt(w, i, "script") && !NamedAt(w, i, "style")
    ensures NamedAt(w, i, "script") ==> !NamedAt(w, i, "style")
  {
    if NamedAt(w, i, "pre") { assert Lower(w[i + 0]) == "pre"[0]; }
    if NamedAt(w, i, "code") { assert Lower(w[i + 0]) == "code"[0]; }
    if NamedAt(w, i, "script") { assert Lower(w[i + 0]) == "script"[0] && Lower(w[i + 1]) == "script"[1]; }
    if NamedAt(w, i, "style") { assert Lower(w[i + 0]) == "style"[0] && Lower(w[i + 1]) == "style"[1]; }
  }

  lemma RawNames(w: string, i: nat, name: string, e: nat)
    requires OpensRaw(w, i, name, e)
    ensures NamedAt(w, i + 1, name)
  {
    NamedInAnyCase(w, i + 1, name);
  }

  /** `</name\s*>` */
  predicate ClosesRaw(w: string, i: nat, name: string, e: nat) {
    var j := i + 2 + |name|;
    && j < e <= |w| && w[i] == '<' && w[i + 1] == '/' && InAnyCase(w[i + 2..j], name)
    && w[e - 1] == '>' && forall k :: j <= k < e - 1 ==> White(w[k])
  }

  lemma {:induction false} SkipsTo(w: string, j: nat, k: nat)
    requires j <= k < |w| && !Space(w[k]) && forall x :: j <= x < k ==> Space(w[x])
    ensures SkipSpaces(w, j) == k
    decreases k - j
  {
    if j < k { SkipsTo(w, j + 1, k); }
  }

  lemma CloseExact(w: string, i: nat, name: string, e: nat)
    requires forall k :: 0 <= k < |name| ==> 97 <= name[k] as int <= 122
    ensures CloseAt(w, i, name) == Some(e) <==> ClosesRaw(w, i, name, e)
  {
    var j := i + 2 + |name|;
    NamedInAnyCase(w, i + 2, name);
    if i + 2 <= |w| { assert w[i..i + 2] == [w[i], w[i + 1]]; }
    if j <= |w| {
      forall c: char ensures Space(c) <==> White(c) { SpaceIsWhite(c); }
      if ClosesRaw(w, i, name, e) { SkipsTo(w, j, e - 1); }
    }
  }

  /** The first end tag from `i` on is at `k`, and ends at `e`. */
  ghost predicate FirstEnd(w: string, i: nat, k: nat, name: string, e: nat) {
    i <= k && ClosesRaw(w, k, name, e) && NoEnd(w, i, k, name)
  }

  ghost predicate NoEnd(w: string, i: nat, k: nat, name: string) {
    forall x: nat, y: nat :: i <= x < k ==> !ClosesRaw(w, x, name, y)
  }

  /** A block ends with the first such end tag. */
  lemma {:induction false} FirstCloseExact(w: string, i: nat, name: string)
    requires forall k :: 0 <= k < |name| ==> 97 <= name[k] as int <= 122
    ensures FindClose(w, i, name).None? ==> NoEnd(w, i, |w|, name)
    ensures FindClose(w, i, name).Some? ==> exists k: nat :: FirstEnd(w, i, k, name, FindClose(w, i, name).value)
    decreases |w| - i
  {
    if i < |w| {
      forall e: nat ensures CloseAt(w, i, name) == Some(e) <==> ClosesRaw(w, i, name, e) { CloseExact(w, i, name, e); }
      if CloseAt(w, i, name).Some? {
        assert FirstEnd(w, i, i, name, CloseAt(w, i, name).value);
      } else {
        FirstCloseExact(w, i + 1, name);
        if FindClose(w, i, name).Some? {
          var k: nat :| FirstEnd(w, i + 1, k, name, FindClose(w, i, name).value);
          assert FirstEnd(w, i, k, name, FindClose(w, i, name).value);
        }
      }
    }
  }

  // ---------------------------------------------------------------- what a position does

  /** A comment lasts to its end, a raw block to its end tag; on a line that has neither the rest is skipped. */
  lemma HiddenMoves(s: string, w: string, i: nat, m: Mode, streaming: bool)
    requires i < |w| && w <= s && (m.raw.Some? ==> RawName(m.raw.value))
    ensures m.comment ==>
      var move := At(s, w, i, m, streaming);
      if exists k: nat :: i <= k && StartsAt(w, k, "-->")
      then move.On? && move.mode == Mode(m.ticks, false, m.raw) && move.next >= i + 3 && StartsAt(w, move.next - 3, "-->")
           && forall k: nat :: i <= k < move.next - 3 ==> !StartsAt(w, k, "-->")
      else move == Break
    ensures !m.comment && m.raw.Some? ==>
      var move := At(s, w, i, m, streaming);
      if NoEnd(w, i, |w|, m.raw.value) then move == Break
      else move.On? && move.mode == Mode(m.ticks, false, None) && exists k: nat :: FirstEnd(w, i, k, m.raw.value, move.next)
  {
    if m.comment {
      FindIsFirst(w, i, "-->");
    } else if m.raw.Some? {
      FirstCloseExact(w, i, m.raw.value);
    }
  }

  predicate InText(m: Mode) { !m.comment && m.raw.None? }

  /** In open text: comments start, a backslash escapes, ticks pair up with runs of their own length, and hide what is between. */
  lemma TextMoves(s: string, w: string, i: nat, m: Mode, streaming: bool)
    requires i < |w| && w <= s && InText(m)
    ensures m.ticks == 0 && StartsAt(w, i, "<!--") ==> At(s, w, i, m, streaming) == On(i + 4, Mode(0, true, None))
    ensures m.ticks == 0 && w[i] == '\\' ==> At(s, w, i, m, streaming) == On(i + 2, m)
    ensures forall n: nat :: TickRun(w, i, n) ==>
      At(s, w, i, m, streaming) == On(i + n, Mode(if m.ticks == 0 then n else if m.ticks == n then 0 else m.ticks, false, None))
    ensures w[i] != '`' && (m.ticks != 0 || (w[i] != '<' && w[i] != '\\')) ==> At(s, w, i, m, streaming) == On(i + 1, m)
  {
    if StartsAt(w, i, "<!--") { assert w[i] == w[i..i + 4][0] == '<'; }
    forall n: nat | TickRun(w, i, n) ensures w[i] == '`' && RunLength(w, i, '`') == n { RunIsMaximal(w, i, '`', n); }
  }

  predicate TickRun(w: string, i: nat, n: nat) {
    n > 0 && AllAre(w, i, i + n, '`') && (i + n < |w| ==> w[i + n] != '`')
  }

  /** Where a start tag could be. */
  predicate AtAngle(w: string, i: nat, m: Mode) {
    i < |w| && InText(m) && m.ticks == 0 && w[i] == '<' && !StartsAt(w, i, "<!--")
  }

  /** `<pi-remote-image` with white space, a slash or a closing bracket behind it. */
  predicate TagNamed(s: string, w: string, i: nat)
    requires w <= s
  {
    StartsAt(w, i, "<pi-remote-image") && i + 16 < |s| && (White(s[i + 16]) || s[i + 16] == '/' || s[i + 16] == '>')
  }

  /** The text ends within the name, after `<pi-remote-`. */
  predicate EndsInName(s: string, i: nat) {
    i + 11 <= |s| <= i + 16 && s[i..] == "<pi-remote-image"[..|s| - i]
  }

  lemma TailExact(s: string, i: nat)
    requires i <= |s|
    ensures IsTail(s, i) <==> EndsInName(s, i)
  {
    var tail := s[i..];
    if IsTail(s, i) {
      assert NAME[0..|tail|] == NAME[..|tail|];
      assert |tail| >= 11;
    }
    if EndsInName(s, i) {
      assert NAME[0..|tail|] == NAME[..|tail|] == tail;
      assert s[i..i + 11] == tail[..11] == "<pi-remote-"[..];
    }
  }

  /**
   * At an angle: a raw block starts; or a tag name is there, and the tag is found as far as its pattern matches, is passed over when
   * it closes otherwise, and is unfinished when nothing closes it; or nothing is there.
   */
  lemma AngleMoves(s: string, w: string, i: nat, m: Mode, streaming: bool)
    requires w <= s && AtAngle(w, i, m)
    ensures forall name, e: nat :: OpensRaw(w, i, name, e) ==> At(s, w, i, m, streaming) == On(e, Mode(0, false, Some(name)))
    ensures (forall name, e: nat :: !OpensRaw(w, i, name, e)) ==> At(s, w, i, m, streaming) == TagMove(s, w, i, m, streaming)
  {
    TailExact(s, i);
    if i + 16 < |s| { SpaceIsWhite(s[i + 16]); }
    forall name, e: nat | OpensRaw(w, i, name, e) ensures At(s, w, i, m, streaming) == On(e, Mode(0, false, Some(name))) {
      RawOpenExact(w, i, name, e);
    }
    if RawOpen(w, i).Some? { RawOpenExact(w, i, RawOpen(w, i).value.0, RawOpen(w, i).value.1); }
  }

  function TagMove(s: string, w: string, i: nat, m: Mode, streaming: bool): Move
    requires w <= s && i < |w|
  {
    if streaming && EndsInName(s, i) then Unfinished
    else if !TagNamed(s, w, i) then On(i + 1, m)
    else
      match FirstClose(s, i + 16, None)
      case None => Unfinished
      case Some(p) => if TagAt(s, w, i, m, false) == Found(p + 1) then Found(p + 1) else On(i + 1, m)
  }

  // ---------------------------------------------------------------- what a line is

  /** A line is skipped when a tag has passed it, in a fence, as a fence, or as indented code; otherwise it is scanned. */
  lemma LineMeans(line: string, consumed: bool, continuation: bool, fence: Option<Fence>, ticks: nat)
    ensures var body, kind := StripItem(StripQuotes(line)), KindOf(line, consumed, continuation, fence, ticks);
      if consumed then kind == Consumed
      else if fence.Some? then kind.InFence? && (kind.closes <==>
        exists n: nat, length: nat :: MarkerAt(body, n, fence.value.character, length) && length >= fence.value.length && BlankRest(body, n + length))
      else if !continuation && ticks == 0 && exists n: nat, c, length: nat :: MarkerAt(body, n, c, length)
      then kind.Opens? && exists n: nat :: MarkerAt(body, n, kind.fence.character, kind.fence.length)
      else if !continuation && ("    " <= body || "\t" <= body) then kind == Code
      else kind == Text
  {
    var body := StripItem(StripQuotes(line));
    if fence.Some? { FenceCloses(fence.value, body); }
    MarkerExact(body);
    IndentedExact(body);
    if Marker(body).Some? {
      var n: nat, c, length: nat :| MarkerAt(body, n, c, length);
      assert MarkerAt(body, n, Marker(body).value.0.character, Marker(body).value.0.length);
    }
  }

  /** Lines end after each line feed. */
  lemma {:induction false} LinesEnd(s: string, o: nat)
    requires o < |s|
    ensures var end := LineEnd(s, o);
      o < end <= |s| && (end < |s| ==> s[end - 1] == '\n') && forall k :: o <= k < end - 1 ==> s[k] != '\n'
    decreases |s| - o
  {
    if s[o] != '\n' && o + 1 < |s| { LinesEnd(s, o + 1); }
  }

  // ---------------------------------------------------------------- the whole scan, position by position and line by line

  /** Where the scan of a line stands, and what it has found. */
  datatype Point = Point(i: nat, mode: Mode, consumed: nat, tags: seq<Tag>)

  /** One move: on to the next position, or behind a tag, which is recorded. */
  predicate Moves(s: string, w: string, streaming: bool, a: Point, b: Point)
    requires w <= s
  {
    a.i < |w| &&
    match At(s, w, a.i, a.mode, streaming)
    case On(next, mode) => b == Point(next, mode, a.consumed, a.tags)
    case Found(next) => b == Point(next, a.mode, next, a.tags + [Tag(a.i, next, s[a.i..next], false)])
    case _ => false
  }

  predicate MovesAt(s: string, w: string, streaming: bool, ps: seq<Point>, k: nat)
    requires w <= s && k < |ps| - 1
  {
    Moves(s, w, streaming, ps[k], ps[k + 1])
  }

  predicate Path(s: string, w: string, streaming: bool, ps: seq<Point>)
    requires w <= s
  {
    |ps| >= 1 && forall k :: 0 <= k < |ps| - 1 ==> MovesAt(s, w, streaming, ps, k)
  }

  /** Nothing moves on: the line is over, or hidden to its end, or the text ends inside a tag. */
  predicate Unclosed(s: string, w: string, streaming: bool, p: Point)
    requires w <= s
  {
    p.i < |w| && At(s, w, p.i, p.mode, streaming) == Unfinished
  }

  predicate Over(s: string, w: string, streaming: bool, p: Point)
    requires w <= s
  {
    p.i >= |w| || At(s, w, p.i, p.mode, streaming) == Break || Unclosed(s, w, streaming, p)
  }

  /** What is found in all: streaming shows the unfinished end as well. */
  function AllFound(s: string, w: string, streaming: bool, p: Point): seq<Tag>
    requires w <= s
  {
    if Unclosed(s, w, streaming, p) && streaming then p.tags + [Tag(p.i, |s|, s[p.i..], true)] else p.tags
  }

  /** A line is scanned along a path of moves, to a point where nothing moves on. */
  lemma {:induction false} LinePath(s: string, w: string, streaming: bool, p: Point) returns (ps: seq<Point>)
    requires w <= s
    ensures Path(s, w, streaming, ps) && ps[0] == p && Over(s, w, streaming, ps[|ps| - 1])
    ensures var r, q := ScanLine(s, w, p.i, p.mode, p.consumed, streaming), ps[|ps| - 1];
      && r.mode == q.mode && r.consumed == q.consumed && (r.stopped <==> Unclosed(s, w, streaming, q))
      && p.tags + r.tags == AllFound(s, w, streaming, q)
    decreases |w| - p.i
  {
    ps := [p];
    if p.i < |w| {
      var move := At(s, w, p.i, p.mode, streaming);
      if move.On? {
        ps := PathFrom(s, w, streaming, p, Point(move.next, move.mode, p.consumed, p.tags));
      } else if move.Found? {
        var tag := Tag(p.i, move.next, s[p.i..move.next], false);
        var rest := ScanLine(s, w, move.next, p.mode, move.next, streaming).tags;
        assert p.tags + ([tag] + rest) == p.tags + [tag] + rest;
        ps := PathFrom(s, w, streaming, p, Point(move.next, p.mode, move.next, p.tags + [tag]));
      }
    }
  }

  lemma {:induction false} PathFrom(s: string, w: string, streaming: bool, p: Point, q: Point) returns (ps: seq<Point>)
    requires w <= s && Moves(s, w, streaming, p, q) && q.i > p.i
    ensures Path(s, w, streaming, ps) && ps[0] == p && Over(s, w, streaming, ps[|ps| - 1])
    ensures var r, last := ScanLine(s, w, q.i, q.mode, q.consumed, streaming), ps[|ps| - 1];
      && r.mode == last.mode && r.consumed == last.consumed && (r.stopped <==> Unclosed(s, w, streaming, last))
      && q.tags + r.tags == AllFound(s, w, streaming, last)
    decreases |w| - p.i, 0
  {
    var rest := LinePath(s, w, streaming, q);
    ps := [p] + rest;
    PathCons(s, w, streaming, p, rest);
  }

  lemma PathCons(s: string, w: string, streaming: bool, p: Point, rest: seq<Point>)
    requires w <= s && Path(s, w, streaming, rest) && Moves(s, w, streaming, p, rest[0])
    ensures Path(s, w, streaming, [p] + rest)
  {
    var ps := [p] + rest;
    forall k | 0 <= k < |ps| - 1 ensures MovesAt(s, w, streaming, ps, k) {
      if k > 0 { assert MovesAt(s, w, streaming, rest, k - 1); }
    }
  }

  /** Where the scan of the text stands: at the start of a line. */
  datatype Place = Place(o: nat, fence: Option<Fence>, mode: Mode, consumed: nat, tags: seq<Tag>)

  function KindAt(s: string, a: Place): LineKind
    requires a.o < |s|
  {
    var end := LineEnd(s, a.o);
    KindOf(s[a.o..end], end <= a.consumed, a.consumed > a.o, a.fence, a.mode.ticks)
  }

  /** The path of a line that is scanned: from behind the last tag, or else from its start. */
  predicate ScannedBy(s: string, streaming: bool, a: Place, ps: seq<Point>)
    requires a.o < |s|
  {
    var w := s[..LineEnd(s, a.o)];
    && KindAt(s, a).Text? && Path(s, w, streaming, ps) && Over(s, w, streaming, ps[|ps| - 1])
    && ps[0] == Point(if a.consumed > a.o then a.consumed else a.o, a.mode, a.consumed, a.tags)
  }

  /** From line to line: fences open and close, skipped lines change nothing else, and text is scanned. */
  ghost predicate NextLine(s: string, streaming: bool, a: Place, b: Place)
    requires a.o < |s|
  {
    var end := LineEnd(s, a.o);
    match KindAt(s, a)
    case Opens(fence) => b == Place(end, Some(fence), a.mode, a.consumed, a.tags)
    case InFence(closes) => b == Place(end, if closes then None else a.fence, a.mode, a.consumed, a.tags)
    case Text =>
      exists ps: seq<Point> :: ScannedBy(s, streaming, a, ps) && !Unclosed(s, s[..end], streaming, ps[|ps| - 1])
        && b == Place(end, a.fence, ps[|ps| - 1].mode, ps[|ps| - 1].consumed, ps[|ps| - 1].tags)
    case _ => b == Place(end, a.fence, a.mode, a.consumed, a.tags)
  }

  /** The scan ends behind the last line, or where the text ends inside a tag. */
  ghost predicate EndsWith(s: string, streaming: bool, a: Place, tags: seq<Tag>) {
    if a.o >= |s| then tags == a.tags
    else
      exists ps: seq<Point> :: ScannedBy(s, streaming, a, ps) && Unclosed(s, s[..LineEnd(s, a.o)], streaming, ps[|ps| - 1])
        && tags == AllFound(s, s[..LineEnd(s, a.o)], streaming, ps[|ps| - 1])
  }

  /** What is found before a place and from there on. */
  function FoundFrom(s: string, streaming: bool, a: Place): seq<Tag>
    requires a.o <= |s|
  {
    a.tags + ScanText(s, a.o, a.fence, a.mode, a.consumed, streaming)
  }

  ghost predicate Chain(next: (Place, Place) -> bool, places: seq<Place>) {
    |places| >= 1 && forall k :: 0 <= k < |places| - 1 ==> next(places[k], places[k + 1])
  }

  /** Wherever one can go on or stop, one comes to stop. */
  lemma {:induction false} Walk(next: (Place, Place) -> bool, good: Place -> bool, ends: Place -> bool, size: nat, a: Place)
    requires good(a) && a.o <= size
    requires forall x :: good(x) && x.o <= size ==> ends(x) || exists y :: next(x, y) && good(y) && x.o < y.o <= size
    ensures exists places :: Chain(next, places) && places[0] == a && ends(places[|places| - 1])
    decreases size - a.o
  {
    if ends(a) {
      assert Chain(next, [a]);
    } else {
      var y :| next(a, y) && good(y) && a.o < y.o <= size;
      Walk(next, good, ends, size, y);
      var rest :| Chain(next, rest) && rest[0] == y && ends(rest[|rest| - 1]);
      ChainCons(next, a, rest);
      assert ([a] + rest)[|rest|] == rest[|rest| - 1];
    }
  }

  lemma ChainCons(next: (Place, Place) -> bool, a: Place, rest: seq<Place>)
    requires Chain(next, rest) && next(a, rest[0])
    ensures Chain(next, [a] + rest)
  {
    var all := [a] + rest;
    forall k | 0 <= k < |all| - 1 ensures next(all[k], all[k + 1]) {
      if k > 0 { assert all[k] == rest[k - 1] && all[k + 1] == rest[k - 1 + 1]; }
    }
  }

  ghost predicate NextFrom(s: string, streaming: bool, a: Place, b: Place) {
    a.o < |s| && NextLine(s, streaming, a, b)
  }

  predicate Finds(s: string, streaming: bool, tags: seq<Tag>, a: Place) {
    a.o <= |s| && FoundFrom(s, streaming, a) == tags
  }

  lemma StopOrGoOn(s: string, streaming: bool, tags: seq<Tag>, a: Place)
    requires Finds(s, streaming, tags, a)
    ensures EndsWith(s, streaming, a, tags)
      || exists b :: NextFrom(s, streaming, a, b) && Finds(s, streaming, tags, b) && a.o < b.o <= |s|
  {
    if a.o < |s| {
      var over, b := OneLine(s, streaming, a, tags);
      if !over { assert NextFrom(s, streaming, a, b) && Finds(s, streaming, tags, b); }
    } else {
      EndsBehind(s, streaming, a);
    }
  }

  lemma EndsBehind(s: string, streaming: bool, a: Place)
    requires a.o == |s|
    ensures EndsWith(s, streaming, a, FoundFrom(s, streaming, a))
  {}

  lemma OneLine(s: string, streaming: bool, a: Place, tags: seq<Tag>) returns (over: bool, b: Place)
    requires a.o < |s| && tags == FoundFrom(s, streaming, a)
    ensures over ==> EndsWith(s, streaming, a, tags)
    ensures !over ==> a.o < b.o <= |s| && NextLine(s, streaming, a, b) && tags == FoundFrom(s, streaming, b)
  {
    if KindAt(s, a).Text? {
      over, b := ScannedLine(s, streaming, a);
    } else {
      over, b := false, Place(LineEnd(s, a.o), FenceAfter(a.fence, KindAt(s, a)), a.mode, a.consumed, a.tags);
      TextSkipped(s, streaming, a);
    }
  }

  lemma ScannedLine(s: string, streaming: bool, a: Place) returns (over: bool, b: Place)
    requires a.o < |s| && KindAt(s, a).Text?
    ensures over ==> EndsWith(s, streaming, a, FoundFrom(s, streaming, a))
    ensures !over ==>
      && b.o == LineEnd(s, a.o) && NextLine(s, streaming, a, b)
      && FoundFrom(s, streaming, a) == FoundFrom(s, streaming, b)
  {
    var w := s[..LineEnd(s, a.o)];
    var ps := LinePath(s, w, streaming, Point(if a.consumed > a.o then a.consumed else a.o, a.mode, a.consumed, a.tags));
    var q := ps[|ps| - 1];
    over, b := Unclosed(s, w, streaming, q), Place(LineEnd(s, a.o), a.fence, q.mode, q.consumed, q.tags);
    if over {
      TextStopped(s, streaming, a, q);
      StopsHere(s, streaming, a, ps);
    } else {
      LineScanned(s, streaming, a, ps);
      TextJoined(s, streaming, a, q);
    }
  }

  lemma StopsHere(s: string, streaming: bool, a: Place, ps: seq<Point>)
    requires a.o < |s| && ScannedBy(s, streaming, a, ps) && Unclosed(s, s[..LineEnd(s, a.o)], streaming, ps[|ps| - 1])
    ensures EndsWith(s, streaming, a, AllFound(s, s[..LineEnd(s, a.o)], streaming, ps[|ps| - 1]))
  {}

  lemma LineScanned(s: string, streaming: bool, a: Place, ps: seq<Point>)
    requires a.o < |s| && ScannedBy(s, streaming, a, ps) && !Unclosed(s, s[..LineEnd(s, a.o)], streaming, ps[|ps| - 1])
    ensures NextLine(s, streaming, a, Place(LineEnd(s, a.o), a.fence, ps[|ps| - 1].mode, ps[|ps| - 1].consumed, ps[|ps| - 1].tags))
  {}

  lemma TextSkipped(s: string, streaming: bool, a: Place)
    requires a.o < |s| && !KindAt(s, a).Text?
    ensures var b := Place(LineEnd(s, a.o), FenceAfter(a.fence, KindAt(s, a)), a.mode, a.consumed, a.tags);
      && NextLine(s, streaming, a, b)
      && ScanText(s, a.o, a.fence, a.mode, a.consumed, streaming) == ScanText(s, b.o, b.fence, b.mode, b.consumed, streaming)
  {}

  lemma TextJoined(s: string, streaming: bool, a: Place, q: Point)
    requires a.o < |s| && KindAt(s, a).Text?
    requires var r := ScanLine(s, s[..LineEnd(s, a.o)], Max(a.o, a.consumed), a.mode, a.consumed, streaming);
      r.mode == q.mode && r.consumed == q.consumed && !r.stopped && a.tags + r.tags == q.tags
    ensures a.tags + ScanText(s, a.o, a.fence, a.mode, a.consumed, streaming)
      == q.tags + ScanText(s, LineEnd(s, a.o), a.fence, q.mode, q.consumed, streaming)
  {
    var r := ScanLine(s, s[..LineEnd(s, a.o)], Max(a.o, a.consumed), a.mode, a.consumed, streaming);
    var rest := ScanText(s, LineEnd(s, a.o), a.fence, r.mode, r.consumed, streaming);
    assert a.tags + (r.tags + rest) == a.tags + r.tags + rest;
  }

  lemma TextStopped(s: string, streaming: bool, a: Place, q: Point)
    requires a.o < |s| && KindAt(s, a).Text?
    requires ScanLine(s, s[..LineEnd(s, a.o)], Max(a.o, a.consumed), a.mode, a.consumed, streaming).stopped
    ensures ScanText(s, a.o, a.fence, a.mode, a.consumed, streaming)
      == ScanLine(s, s[..LineEnd(s, a.o)], Max(a.o, a.consumed), a.mode, a.consumed, streaming).tags
  {}

  /** The scan starts outside everything, and goes line by line to the end of the text, or to a tag that the text does not close. */
  lemma ScanIsRun(s: string, streaming: bool)
    ensures exists places: seq<Place> ::
      && Chain((a, b) => NextFrom(s, streaming, a, b), places) && places[0] == Place(0, None, Mode(0, false, None), 0, [])
      && EndsWith(s, streaming, places[|places| - 1], Tags(s, streaming))
  {
    var first, tags := Place(0, None, Mode(0, false, None), 0, []), Tags(s, streaming);
    assert FoundFrom(s, streaming, first) == tags;
    var next := (a, b) => NextFrom(s, streaming, a, b);
    forall a | Finds(s, streaming, tags, a)
      ensures EndsWith(s, streaming, a, tags) || exists b :: next(a, b) && Finds(s, streaming, tags, b) && a.o < b.o <= |s|
    {
      StopOrGoOn(s, streaming, tags, a);
      if !EndsWith(s, streaming, a, tags) {
        var b :| NextFrom(s, streaming, a, b) && Finds(s, streaming, tags, b) && a.o < b.o <= |s|;
        assert next(a, b);
      }
    }
    Walk(next, a => Finds(s, streaming, tags, a), a => EndsWith(s, streaming, a, tags), |s|, first);
  }
}
