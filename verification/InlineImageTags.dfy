/**
 * The scanner for image tags in a growing message (apps/remote/server/inline-image-contract.ts:71-147): code fences, inline
 * ticks, comments and raw blocks hide tags; a tag may span lines.  Each regular expression of the source is a recogniser here.
 * A tag keeps its text, from which its attributes are read.
 */
module InlineImageTags {
  import opened Options

  datatype Tag = Tag(start: nat, end: nat, text: string, partial: bool)
  datatype Fence = Fence(character: char, length: nat)
  /** What hides the text at a position of a line. */
  datatype Mode = Mode(ticks: nat, comment: bool, raw: Option<string>)

  const NAME: string := "<pi-remote-image"

  // ---------------------------------------------------------------- recognisers

  /** White space in the sense of JavaScript's `\s` and `trim`. */
  predicate Space(c: char) {
    '\t' <= c <= '\r' || c == ' ' || c == '\U{A0}' || c == '\U{1680}' || '\U{2000}' <= c <= '\U{200A}' || c == '\U{2028}'
    || c == '\U{2029}' || c == '\U{202F}' || c == '\U{205F}' || c == '\U{3000}' || c == '\U{FEFF}'
  }

  predicate LineTerminator(c: char) { c == '\n' || c == '\r' || c == '\U{2028}' || c == '\U{2029}' }

  function Lower(c: char): char { if 'A' <= c <= 'Z' then c + 32 as char else c }

  /** The end of the line that starts at `o`, after its newline. */
  function LineEnd(s: string, o: nat): (end: nat)
    requires o <= |s|
    ensures o <= end <= |s| && (o < |s| ==> o < end) && (end < |s| ==> end > 0 && s[end - 1] == '\n')
    decreases |s| - o
  {
    if o == |s| then o else if s[o] == '\n' then o + 1 else LineEnd(s, o + 1)
  }

  predicate StartsAt(w: string, i: nat, text: string) {
    i + |text| <= |w| && w[i..i + |text|] == text
  }

  function Find(w: string, i: nat, text: string): (k: Option<nat>)
    ensures k.Some? ==> i <= k.value && StartsAt(w, k.value, text)
    decreases |w| - i
  {
    if i + |text| > |w| || i >= |w| then None else if StartsAt(w, i, text) then Some(i) else Find(w, i + 1, text)
  }

  /** The length of the run of `c` at `i`. */
  function RunLength(w: string, i: nat, c: char): (n: nat)
    ensures i <= |w| ==> i + n <= |w|
    ensures forall k :: i <= k < i + n ==> k < |w| && w[k] == c
    ensures i + n < |w| ==> w[i + n] != c
    ensures i < |w| && w[i] == c ==> n > 0
    decreases |w| - i
  {
    if i < |w| && w[i] == c then 1 + RunLength(w, i + 1, c) else 0
  }

  function SkipSpaces(w: string, i: nat): (j: nat)
    ensures i <= j && (i <= |w| ==> j <= |w|) && (forall k :: i <= k < j ==> k < |w| && Space(w[k])) && (j < |w| ==> !Space(w[j]))
    decreases |w| - i
  {
    if i < |w| && Space(w[i]) then SkipSpaces(w, i + 1) else i
  }

  /** The name at `i`, in any case. */
  predicate NamedAt(w: string, i: nat, name: string) {
    i + |name| <= |w| && forall k :: 0 <= k < |name| ==> Lower(w[i + k]) == name[k]
  }

  predicate RawName(name: string) { name == "pre" || name == "code" || name == "script" || name == "style" }

  /** `<(pre|code|script|style)(?:\s[^>]*|)>`: the name and where it ends. */
  function RawOpen(w: string, i: nat): (r: Option<(string, nat)>)
    ensures r.Some? ==> RawName(r.value.0) && i < r.value.1 <= |w|
  {
    if i >= |w| || w[i] != '<' then None
    else if NamedAt(w, i + 1, "pre") then RawEnd(w, i, "pre")
    else if NamedAt(w, i + 1, "code") then RawEnd(w, i, "code")
    else if NamedAt(w, i + 1, "script") then RawEnd(w, i, "script")
    else if NamedAt(w, i + 1, "style") then RawEnd(w, i, "style")
    else None
  }

  function RawEnd(w: string, i: nat, name: string): (r: Option<(string, nat)>)
    ensures r.Some? ==> r.value.0 == name && i < r.value.1 <= |w|
  {
    var j := i + 1 + |name|;
    if j >= |w| || !(w[j] == '>' || Space(w[j])) then None
    else
      match Find(w, j, ">")
      case None => None
      case Some(k) => Some((name, k + 1))
  }

  /** `</name\s*>` at `i`: where it ends. */
  function CloseAt(w: string, i: nat, name: string): (e: Option<nat>)
    ensures e.Some? ==> i < e.value <= |w|
  {
    if StartsAt(w, i, "</") && NamedAt(w, i + 2, name) then
      var j := SkipSpaces(w, i + 2 + |name|);
      if j < |w| && w[j] == '>' then Some(j + 1) else None
    else None
  }

  function FindClose(w: string, i: nat, name: string): (e: Option<nat>)
    ensures e.Some? ==> i < e.value <= |w|
    decreases |w| - i
  {
    if i >= |w| then None else if CloseAt(w, i, name).Some? then CloseAt(w, i, name) else FindClose(w, i + 1, name)
  }

  /** The first `>` outside quotes. */
  function FirstClose(s: string, j: nat, quote: Option<char>): (p: Option<nat>)
    ensures p.Some? ==> j <= p.value < |s| && s[p.value] == '>'
    decreases |s| - j
  {
    if j >= |s| then None
    else if quote.Some? then FirstClose(s, j + 1, if s[j] == quote.value then None else quote)
    else if s[j] == '"' || s[j] == '\'' then FirstClose(s, j + 1, Some(s[j]))
    else if s[j] == '>' then Some(j)
    else FirstClose(s, j + 1, None)
  }

  /** `^(?: {0,3}> ?)+` is dropped. */
  function StripQuotes(line: string): string
    decreases |line|
  {
    match QuoteMark(line) case None => line case Some(d) => StripQuotes(line[d..])
  }

  /** Where one ` {0,3}> ?` ends. */
  function QuoteMark(line: string): (d: Option<nat>)
    ensures d.Some? ==> 0 < d.value <= |line|
  {
    var n := RunLength(line, 0, ' ');
    if n <= 3 && n < |line| && line[n] == '>' then Some(if n + 1 < |line| && line[n + 1] == ' ' then n + 2 else n + 1) else None
  }

  function Digits(line: string, i: nat): (j: nat)
    ensures i <= j && (i <= |line| ==> j <= |line|) && forall k :: i <= k < j ==> k < |line| && '0' <= line[k] <= '9'
    decreases |line| - i
  {
    if i < |line| && '0' <= line[i] <= '9' then Digits(line, i + 1) else i
  }

  /** `^ {0,3}(?:[-+*]|\d+[.)]) ` is dropped. */
  function StripItem(line: string): string {
    match ItemMark(line) case None => line case Some(p) => After(line, p)
  }

  /** Where the marker ends. */
  function ItemMark(line: string): (p: Option<nat>)
    ensures p.Some? ==> 0 < p.value <= |line|
  {
    var n := RunLength(line, 0, ' ');
    if n > 3 || n >= |line| then None
    else if line[n] == '-' || line[n] == '+' || line[n] == '*' then Some(n + 1)
    else
      var d := Digits(line, n);
      if d > n && d < |line| && (line[d] == '.' || line[d] == ')') then Some(d + 1) else None
  }

  /** What follows the space at `p`; without one nothing is dropped. */
  function After(line: string, p: nat): string {
    if p < |line| && line[p] == ' ' then line[p + 1..] else line
  }

  /** `^ {0,3}(`{3,}|~{3,})(.*)`: the marker and where it ends. */
  function Marker(body: string): (m: Option<(Fence, nat)>)
    ensures m.Some? ==> m.value.1 <= |body|
  {
    var n := RunLength(body, 0, ' ');
    if n > 3 || n >= |body| || !(body[n] == '`' || body[n] == '~') then None
    else
      var run := RunLength(body, n, body[n]);
      if run >= 3 then Some((Fence(body[n], run), n + run)) else None
  }

  /** `!marker[2].trim()` */
  predicate BlankFrom(body: string, i: nat)
    decreases |body| - i
  {
    i >= |body| || LineTerminator(body[i]) || (Space(body[i]) && BlankFrom(body, i + 1))
  }

  predicate Indented(body: string) {
    RunLength(body, 0, ' ') >= 4 || (body != "" && body[0] == '\t')
  }

  function Body(line: string): string { StripItem(StripQuotes(line)) }

  predicate Closes(fence: Fence, body: string) {
    match Marker(body)
    case Some((marker, end)) => marker.character == fence.character && marker.length >= fence.length && BlankFrom(body, end)
    case None => false
  }

  // ---------------------------------------------------------------- one position

  /** On: go on at `next`.  Found: a tag that ends at `next`.  Unfinished: a tag that the text does not close. */
  datatype Move = Break | On(next: nat, mode: Mode) | Found(next: nat) | Unfinished

  /** The source tests `[\s/>]` on the character after the name. */
  predicate NameEnds(s: string, i: nat) {
    i < |s| && (Space(s[i]) || s[i] == '/' || s[i] == '>')
  }

  /** The rest of the text is the beginning of a tag's name. */
  predicate IsTail(s: string, i: nat)
    requires i <= |s|
  {
    StartsAt(s, i, "<pi-remote-") && StartsAt(NAME, 0, s[i..])
  }

  /** `w` is the text up to the end of the line. */
  function At(s: string, w: string, i: nat, m: Mode, streaming: bool): (r: Move)
    requires i < |w| && w <= s
    ensures r.On? || r.Found? ==> r.next > i
    ensures r.Found? ==> r.next <= |s| && i + 16 < r.next
  {
    if m.comment then
      (match Find(w, i, "-->") case None => Break case Some(k) => On(k + 3, m.(comment := false)))
    else if m.raw.Some? then
      (match FindClose(w, i, m.raw.value) case None => Break case Some(e) => On(e, m.(raw := None)))
    else if m.ticks == 0 && StartsAt(w, i, "<!--") then On(i + 4, m.(comment := true))
    else if w[i] == '\\' && m.ticks == 0 then On(i + 2, m)
    else if w[i] == '`' then
      var ticks := RunLength(w, i, '`');
      On(i + ticks, m.(ticks := if m.ticks == ticks then 0 else if m.ticks != 0 then m.ticks else ticks))
    else if m.ticks != 0 || w[i] != '<' then On(i + 1, m)
    else
      match RawOpen(w, i)
      case Some((name, e)) => On(e, m.(raw := Some(name)))
      case None => TagAt(s, w, i, m, streaming)
  }

  function TagAt(s: string, w: string, i: nat, m: Mode, streaming: bool): (r: Move)
    requires i < |w| && w <= s
    ensures r.On? ==> r == On(i + 1, m)
    ensures r.Found? ==> i + 16 < r.next <= |s|
  {
    if streaming && IsTail(s, i) then Unfinished
    else if !StartsAt(w, i, NAME) || !NameEnds(s, i + 16) then On(i + 1, m)
    else
      match FirstClose(s, i + 16, None)
      case None => Unfinished
      case Some(p) => if p > i + 16 && s[p - 1] == '/' then Found(p + 1) else On(i + 1, m)
  }

  // ---------------------------------------------------------------- lines and text

  datatype Scan = Scan(tags: seq<Tag>, mode: Mode, consumed: nat, stopped: bool)

  function ScanLine(s: string, w: string, i: nat, m: Mode, consumed: nat, streaming: bool): Scan
    requires w <= s
    decreases |w| - i, 1
  {
    if i >= |w| then Scan([], m, consumed, false) else Follow(s, w, i, At(s, w, i, m, streaming), m, consumed, streaming)
  }

  function Follow(s: string, w: string, i: nat, move: Move, m: Mode, consumed: nat, streaming: bool): Scan
    requires i < |w| && w <= s && (move.On? || move.Found? ==> move.next > i) && (move.Found? ==> move.next <= |s|)
    decreases |w| - i, 0
  {
    match move
    case Break => Scan([], m, consumed, false)
    case On(next, m1) => ScanLine(s, w, next, m1, consumed, streaming)
    case Found(next) =>
      var rest := ScanLine(s, w, next, m, next, streaming);
      rest.(tags := [Tag(i, next, s[i..next], false)] + rest.tags)
    case Unfinished => Scan(if streaming then [Tag(i, |s|, s[i..], true)] else [], m, consumed, true)
  }

  datatype LineKind = Consumed | InFence(closes: bool) | Opens(fence: Fence) | Code | Text

  function KindOf(line: string, consumed: bool, continuation: bool, fence: Option<Fence>, ticks: nat): LineKind {
    var body := Body(line);
    if consumed then Consumed
    else if fence.Some? then InFence(Closes(fence.value, body))
    else if !continuation && ticks == 0 && Marker(body).Some? then Opens(Marker(body).value.0)
    else if !continuation && Indented(body) then Code
    else Text
  }

  function Max(a: nat, b: nat): nat { if a < b then b else a }

  function ScanText(s: string, o: nat, fence: Option<Fence>, m: Mode, consumed: nat, streaming: bool): seq<Tag>
    requires o <= |s|
    decreases |s| - o, 1
  {
    if o == |s| then []
    else
      var end := LineEnd(s, o);
      AsKind(s, o, end, KindOf(s[o..end], end <= consumed, consumed > o, fence, m.ticks), fence, m, consumed, streaming)
  }

  function AsKind(s: string, o: nat, end: nat, kind: LineKind, fence: Option<Fence>, m: Mode, consumed: nat, streaming: bool): seq<Tag>
    requires o < end <= |s|
    decreases |s| - o, 0
  {
    if !kind.Text? then ScanText(s, end, FenceAfter(fence, kind), m, consumed, streaming)
    else
      var r := ScanLine(s, s[..end], Max(o, consumed), m, consumed, streaming);
      r.tags + if r.stopped then [] else ScanText(s, end, fence, r.mode, r.consumed, streaming)
  }

  function FenceAfter(fence: Option<Fence>, kind: LineKind): Option<Fence> {
    match kind
    case InFence(closes) => if closes then None else fence
    case Opens(marker) => Some(marker)
    case _ => fence
  }

  const CLEAR: Mode := Mode(0, false, None)

  function Tags(s: string, streaming: bool): seq<Tag> { ScanText(s, 0, None, CLEAR, 0, streaming) }

  /** What a line is does not depend on the mode of the scan. */
  lemma LineKindOf(s: string, o: nat, fence: Option<Fence>, m: Mode, consumed: nat) returns (end: nat, kind: LineKind)
    requires o < |s|
    ensures o < end <= |s|
    ensures forall streaming ::
      ScanText(s, o, fence, m, consumed, streaming) == AsKind(s, o, end, kind, fence, m, consumed, streaming)
  {
    end := LineEnd(s, o);
    kind := KindOf(s[o..end], end <= consumed, consumed > o, fence, m.ticks);
  }

  // ---------------------------------------------------------------- the scanner

  method ParseInlineImageTags(s: string, streaming: bool) returns (tags: seq<Tag>)
    ensures tags == Tags(s, streaming)
  {
    tags := [];
    var fence: Option<Fence> := None;
    var mode := CLEAR;
    var offset: nat, consumedUntil: nat := 0, 0;
    while offset < |s|
      invariant offset <= |s|
      invariant tags + ScanText(s, offset, fence, mode, consumedUntil, streaming) == Tags(s, streaming)
    {
      var end, kind := LookAtLine(s, offset, fence, mode, consumedUntil, streaming);
      if kind.Text? {
        var found, stopped;
        found, mode, consumedUntil, stopped := ParseLine(s, s[..end], Max(offset, consumedUntil), mode, consumedUntil, streaming);
        tags := tags + found;
        if stopped { return; }
      } else {
        fence := FenceAfter(fence, kind);
      }
      offset := end;
    }
  }

  method LookAtLine(s: string, o: nat, fence: Option<Fence>, m: Mode, consumed: nat, streaming: bool) returns (end: nat, kind: LineKind)
    requires o < |s|
    ensures o < end <= |s| && ScanText(s, o, fence, m, consumed, streaming) == AsKind(s, o, end, kind, fence, m, consumed, streaming)
  {
    end := LineEnd(s, o);
    kind := KindOf(s[o..end], end <= consumed, consumed > o, fence, m.ticks);
  }

  method ParseLine(s: string, w: string, from: nat, m: Mode, consumed: nat, streaming: bool)
    returns (tags: seq<Tag>, mode: Mode, consumedUntil: nat, stopped: bool)
    requires w <= s
    ensures Scan(tags, mode, consumedUntil, stopped) == ScanLine(s, w, from, m, consumed, streaming)
  {
    tags, mode, consumedUntil, stopped := [], m, consumed, false;
    var i := from;
    while i < |w|
      invariant !stopped
      invariant var rest := ScanLine(s, w, i, mode, consumedUntil, streaming);
        rest.(tags := tags + rest.tags) == ScanLine(s, w, from, m, consumed, streaming)
      decreases |w| - i
    {
      var move := LookAt(s, w, i, mode, consumedUntil, streaming);
      match move {
        case Break => return;
        case On(next, changed) => i, mode := next, changed;
        case Found(next) =>
          ghost var rest := ScanLine(s, w, next, mode, next, streaming);
          assert tags + ([Tag(i, next, s[i..next], false)] + rest.tags) == tags + [Tag(i, next, s[i..next], false)] + rest.tags;
          tags := tags + [Tag(i, next, s[i..next], false)];
          i, consumedUntil := next, next;
        case Unfinished =>
          if streaming { tags := tags + [Tag(i, |s|, s[i..], true)]; }
          stopped := true;
          return;
      }
    }
  }

  method LookAt(s: string, w: string, i: nat, m: Mode, consumed: nat, streaming: bool) returns (move: Move)
    requires i < |w| && w <= s
    ensures (move.On? || move.Found? ==> move.next > i) && (move.Found? ==> move.next <= |s|)
    ensures ScanLine(s, w, i, m, consumed, streaming) == Follow(s, w, i, move, m, consumed, streaming)
  {
    move := At(s, w, i, m, streaming);
  }

  // ---------------------------------------------------------------- the text of a tag

  predicate Quoting(c: char) { c == '"' || c == '\'' }

  /** `(?:[^'">]|"[^"]*"|'[^']*')*` */
  ghost predicate Attributes(b: string)
    decreases |b|
  {
    || b == ""
    || (!Quoting(b[0]) && b[0] != '>' && Attributes(b[1..]))
    || (Quoting(b[0]) && exists k :: QuotedTo(b, k) && Attributes(b[k + 1..]))
  }

  predicate QuotedTo(b: string, k: int) {
    0 < k < |b| && b[k] == b[0] && forall x :: 0 < x < k ==> b[x] != b[0]
  }

  /** Inside a quotation the scan runs to its end. */
  lemma {:induction false} QuoteEnds(s: string, j: nat, k: nat, q: char)
    requires j <= k < |s| && s[k] == q && forall x :: j <= x < k ==> s[x] != q
    ensures FirstClose(s, j, Some(q)) == FirstClose(s, k + 1, None)
    decreases k - j
  {
    if j < k { QuoteEnds(s, j + 1, k, q); }
  }

  /** Attributes hold no `>` that the scan would see, so that the `/>` behind them is the one it finds. */
  lemma {:induction false} AttributesPass(s: string, j: nat, b: string)
    requires Attributes(b) && StartsAt(s, j, b)
    ensures FirstClose(s, j, None) == FirstClose(s, j + |b|, None)
    decreases |b|
  {
    if b != "" {
      var n := FirstAttribute(b);
      if Quoting(b[0]) { QuotePasses(s, j, b, n); } else { CharacterPasses(s, j, b); }
      AttributesPass(s, j + n, b[n..]);
    }
  }

  /** A character or a quotation comes first. */
  lemma FirstAttribute(b: string) returns (n: nat)
    requires Attributes(b) && b != ""
    ensures 0 < n <= |b| && Attributes(b[n..])
    ensures if Quoting(b[0]) then QuotedTo(b, n - 1) else n == 1 && b[0] != '>'
  {
    if Quoting(b[0]) {
      var k :| QuotedTo(b, k) && Attributes(b[k + 1..]);
      n := k + 1;
    } else {
      n := 1;
    }
  }

  lemma CharacterPasses(s: string, j: nat, b: string)
    requires b != "" && !Quoting(b[0]) && b[0] != '>' && StartsAt(s, j, b)
    ensures FirstClose(s, j, None) == FirstClose(s, j + 1, None) && StartsAt(s, j + 1, b[1..])
  {
    assert s[j] == s[j..j + |b|][0] == b[0];
    assert s[j + 1..j + |b|] == b[1..];
  }

  lemma QuotePasses(s: string, j: nat, b: string, n: nat)
    requires 0 < n && QuotedTo(b, n - 1) && Quoting(b[0]) && StartsAt(s, j, b)
    ensures FirstClose(s, j, None) == FirstClose(s, j + n, None) && StartsAt(s, j + n, b[n..])
  {
    forall x | 0 <= x < |b| ensures s[j + x] == b[x] { assert s[j..j + |b|][x] == b[x]; }
    assert s[j] == s[j + 0] == b[0];
    forall x | j + 1 <= x < j + n - 1 ensures s[x] != b[0] { assert s[j + (x - j)] == b[x - j]; }
    QuoteEnds(s, j + 1, j + n - 1, b[0]);
    assert s[j + n..j + |b|] == b[n..];
  }

  lemma {:induction false} PassedAreAttributes(s: string, j: nat, p: nat)
    requires FirstClose(s, j, None) == Some(p)
    ensures Attributes(s[j..p])
    decreases |s| - j
  {
    var b := s[j..p];
    if j < p {
      if Quoting(s[j]) {
        var k := QuoteFound(s, j + 1, p, s[j]);
        PassedAreAttributes(s, k + 1, p);
        assert QuotedTo(b, k - j) && b[k - j + 1..] == s[k + 1..p];
      } else {
        PassedAreAttributes(s, j + 1, p);
        assert b[1..] == s[j + 1..p];
      }
    }
  }

  lemma {:induction false} QuoteFound(s: string, j: nat, p: nat, q: char) returns (k: nat)
    requires FirstClose(s, j, Some(q)) == Some(p)
    ensures j <= k < p && s[k] == q && (forall x :: j <= x < k ==> s[x] != q) && FirstClose(s, k + 1, None) == Some(p)
    decreases |s| - j
  {
    if s[j] == q { k := j; } else { k := QuoteFound(s, j + 1, p, q); }
  }

  /** A tag is found exactly when the source's pattern matches, and then with the pattern's only match. */
  lemma TagTextIsExact(s: string, w: string, i: nat, m: Mode, e: nat)
    requires i < |w| && w <= s && StartsAt(w, i, NAME) && NameEnds(s, i + 16)
    ensures TagAt(s, w, i, m, false) == Found(e) <==>
      i + 18 <= e <= |s| && StartsAt(s, e - 2, "/>") && Attributes(s[i + 16..e - 2])
  {
    if i + 18 <= e <= |s| && StartsAt(s, e - 2, "/>") && Attributes(s[i + 16..e - 2]) {
      PatternIsFound(s, i + 16, e);
    }
    if TagAt(s, w, i, m, false) == Found(e) {
      FoundIsPattern(s, i + 16, e);
    }
  }

  lemma PatternIsFound(s: string, j: nat, e: nat)
    requires j + 2 <= e <= |s| && StartsAt(s, e - 2, "/>") && Attributes(s[j..e - 2])
    ensures FirstClose(s, j, None) == Some(e - 1) && s[e - 2] == '/'
  {
    AttributesPass(s, j, s[j..e - 2]);
    assert s[e - 2] == s[e - 2..e][0] && s[e - 1] == s[e - 2..e][1];
  }

  lemma FoundIsPattern(s: string, j: nat, e: nat)
    requires j + 1 < e <= |s| && FirstClose(s, j, None) == Some(e - 1) && s[e - 2] == '/'
    ensures StartsAt(s, e - 2, "/>") && Attributes(s[j..e - 2])
  {
    PassedAreAttributes(s, j, e - 1);
    SliceFront(s, j, e - 1);
    DropSlash(s[j..e - 1]);
  }

  lemma SliceFront(s: string, a: nat, b: nat)
    requires a < b <= |s|
    ensures s[a..b][..|s[a..b]| - 1] == s[a..b - 1] && s[a..b][|s[a..b]| - 1] == s[b - 1]
  {
  }

  lemma {:induction false} DropSlash(b: string)
    requires Attributes(b) && b != "" && b[|b| - 1] == '/'
    ensures Attributes(b[..|b| - 1])
    decreases |b|
  {
    var front := b[..|b| - 1];
    if |b| > 1 {
      if Quoting(b[0]) {
        var k :| QuotedTo(b, k) && Attributes(b[k + 1..]);
        DropSlash(b[k + 1..]);
        assert front[k + 1..] == b[k + 1..][..|b| - k - 2];
        assert QuotedTo(front, k);
      } else {
        DropSlash(b[1..]);
        assert front[1..] == b[1..][..|b| - 2];
      }
    }
  }

  // ---------------------------------------------------------------- order

  /** Tags between two positions: in order, apart, each with its own text. */
  ghost predicate Between(s: string, tags: seq<Tag>, from: nat, limit: nat) {
    && (forall k :: 0 <= k < |tags| ==> from <= tags[k].start < tags[k].end <= limit <= |s| && tags[k].text == s[tags[k].start..tags[k].end])
    && (forall k, l :: 0 <= k < l < |tags| ==> tags[k].end <= tags[l].start)
  }

  lemma {:induction false} LineInOrder(s: string, w: string, i: nat, m: Mode, consumed: nat, streaming: bool)
    requires w <= s && consumed <= i
    ensures var r := ScanLine(s, w, i, m, consumed, streaming);
      Between(s, r.tags, i, |s|) && consumed <= r.consumed
      && (!r.stopped ==> forall k :: 0 <= k < |r.tags| ==> r.tags[k].end <= r.consumed)
      && (r.consumed > consumed ==> r.consumed <= |s|)
    decreases |w| - i
  {
    if i < |w| {
      match At(s, w, i, m, streaming)
      case Break =>
      case On(next, m1) => LineInOrder(s, w, next, m1, consumed, streaming);
      case Found(next) =>
        LineInOrder(s, w, next, m, next, streaming);
        TagBefore(s, i, next, ScanLine(s, w, next, m, next, streaming).tags);
      case Unfinished =>
    }
  }

  lemma TagBefore(s: string, i: nat, next: nat, tags: seq<Tag>)
    requires i < next <= |s| && Between(s, tags, next, |s|)
    ensures Between(s, [Tag(i, next, s[i..next], false)] + tags, i, |s|)
  {}

  lemma {:induction false} TextInOrder(s: string, o: nat, fence: Option<Fence>, m: Mode, consumed: nat, streaming: bool)
    requires o <= |s| && consumed <= |s|
    ensures Between(s, ScanText(s, o, fence, m, consumed, streaming), Max(o, consumed), |s|)
    decreases |s| - o
  {
    if o < |s| {
      var end, kind := LineKindOf(s, o, fence, m, consumed);
      if kind.Text? {
        LineInOrder(s, s[..end], Max(o, consumed), m, consumed, streaming);
        var r := ScanLine(s, s[..end], Max(o, consumed), m, consumed, streaming);
        if !r.stopped {
          TextInOrder(s, end, fence, r.mode, r.consumed, streaming);
          BetweenBoth(s, r.tags, ScanText(s, end, fence, r.mode, r.consumed, streaming), Max(o, consumed), r.consumed, Max(end, r.consumed));
        }
      } else {
        TextInOrder(s, end, FenceAfter(fence, kind), m, consumed, streaming);
      }
    }
  }

  lemma BetweenBoth(s: string, tags: seq<Tag>, rest: seq<Tag>, from: nat, consumed: nat, next: nat)
    requires Between(s, tags, from, |s|) && Between(s, rest, next, |s|) && from <= next && consumed <= next
    requires forall k :: 0 <= k < |tags| ==> tags[k].end <= consumed
    ensures Between(s, tags + rest, from, |s|)
  {}

  /** In both modes the tags come in order, disjoint and in bounds, each with the text it covers. */
  lemma TagsAreOrdered(s: string, streaming: bool)
    ensures Between(s, Tags(s, streaming), 0, |s|)
  {
    TextInOrder(s, 0, None, CLEAR, 0, streaming);
  }

  // ---------------------------------------------------------------- text that can hold no tag

  /** No `<` with a `>` behind it. */
  ghost predicate Quiet(s: string, i: nat) {
    forall j, k :: i <= j < k < |s| && s[j] == '<' ==> s[k] != '>'
  }

  lemma {:induction false} QuietLine(s: string, w: string, i: nat, m: Mode, consumed: nat)
    requires w <= s && Quiet(s, i)
    ensures ScanLine(s, w, i, m, consumed, false).tags == [] && ScanLine(s, w, i, m, consumed, false).consumed == consumed
    decreases |w| - i
  {
    if i < |w| {
      match At(s, w, i, m, false)
      case Break =>
      case On(next, m1) => QuietLine(s, w, next, m1, consumed);
      case Found(next) => NameHasNoClose(); FoundHasBoth(s, w, i, m, next); assert false;
      case Unfinished =>
    }
  }

  lemma FoundHasBoth(s: string, w: string, i: nat, m: Mode, e: nat)
    requires i < |w| && w <= s && At(s, w, i, m, false) == Found(e)
    ensures s[i] == '<' && i < e - 1 < |s| && s[e - 1] == '>'
  {
  }

  lemma NameHasNoClose()
    ensures forall k :: 0 <= k < |NAME| ==> NAME[k] != '>'
  {
  }

  lemma {:induction false} QuietText(s: string, o: nat, fence: Option<Fence>, m: Mode, consumed: nat)
    requires o <= |s| && Quiet(s, o)
    ensures ScanText(s, o, fence, m, consumed, false) == []
    decreases |s| - o
  {
    if o < |s| {
      var end, kind := LineKindOf(s, o, fence, m, consumed);
      if kind.Text? {
        QuietLine(s, s[..end], Max(o, consumed), m, consumed);
        var r := ScanLine(s, s[..end], Max(o, consumed), m, consumed, false);
        QuietText(s, end, fence, r.mode, r.consumed);
      } else {
        QuietText(s, end, FenceAfter(fence, kind), m, consumed);
      }
    }
  }

  // ---------------------------------------------------------------- streaming

  /** The rest of the text when it ends inside a tag. */
  ghost predicate IsRest(s: string, tag: Tag) {
    tag.partial && tag.end == |s|
  }

  /** The same, or one partial tag more. */
  ghost predicate OneMore(s: string, batch: seq<Tag>, stream: seq<Tag>) {
    stream == batch || (|stream| == |batch| + 1 && batch <= stream && IsRest(s, stream[|batch|]))
  }

  lemma TailIsQuiet(s: string, i: nat)
    requires i <= |s| && IsTail(s, i)
    ensures Quiet(s, i)
  {
    NameHasNoClose();
    var tail := s[i..];
    assert NAME[0..|tail|] == tail;
    forall k | i <= k < |s| ensures s[k] != '>' { assert s[k] == tail[k - i] == NAME[k - i]; }
  }

  /** Where the modes part, the closed tags have ended. */
  lemma StreamMove(s: string, w: string, i: nat, m: Mode)
    requires i < |w| && w <= s && At(s, w, i, m, true) != At(s, w, i, m, false)
    ensures At(s, w, i, m, true) == Unfinished && Quiet(s, i)
  {
    TailIsQuiet(s, i);
  }

  lemma {:induction false} StreamLine(s: string, w: string, i: nat, m: Mode, consumed: nat)
    requires w <= s
    ensures var stream, batch := ScanLine(s, w, i, m, consumed, true), ScanLine(s, w, i, m, consumed, false);
      (stream.stopped || stream == batch) && OneMore(s, batch.tags, stream.tags)
      && (stream.stopped ==> |stream.tags| == |batch.tags| + 1 && (batch.stopped || Quiet(s, |w|)))
    decreases |w| - i, 1
  {
    if i < |w| {
      var move := At(s, w, i, m, false);
      if At(s, w, i, m, true) != move {
        StreamMove(s, w, i, m);
        QuietLine(s, w, i, m, consumed);
      } else {
        StreamFollow(s, w, i, move, m, consumed);
      }
    }
  }

  lemma {:induction false} StreamFollow(s: string, w: string, i: nat, move: Move, m: Mode, consumed: nat)
    requires i < |w| && w <= s && (move.On? || move.Found? ==> move.next > i) && (move.Found? ==> move.next <= |s|)
    ensures var stream, batch := Follow(s, w, i, move, m, consumed, true), Follow(s, w, i, move, m, consumed, false);
      (stream.stopped || stream == batch) && OneMore(s, batch.tags, stream.tags)
      && (stream.stopped ==> |stream.tags| == |batch.tags| + 1 && (batch.stopped || Quiet(s, |w|)))
    decreases |w| - i, 0
  {
    match move
    case Break =>
    case On(next, m1) => StreamLine(s, w, next, m1, consumed);
    case Found(next) =>
      StreamLine(s, w, next, m, next);
      OneMoreBehind(s, [Tag(i, next, s[i..next], false)], ScanLine(s, w, next, m, next, false).tags, ScanLine(s, w, next, m, next, true).tags);
    case Unfinished =>
  }

  lemma {:induction false} StreamText(s: string, o: nat, fence: Option<Fence>, m: Mode, consumed: nat)
    requires o <= |s|
    ensures OneMore(s, ScanText(s, o, fence, m, consumed, false), ScanText(s, o, fence, m, consumed, true))
    decreases |s| - o, 0
  {
    if o < |s| {
      var end, kind := LineKindOf(s, o, fence, m, consumed);
      if kind.Text? {
        StreamAsText(s, o, end, fence, m, consumed);
      } else {
        StreamText(s, end, FenceAfter(fence, kind), m, consumed);
      }
    }
  }

  lemma {:induction false} StreamAsText(s: string, o: nat, end: nat, fence: Option<Fence>, m: Mode, consumed: nat)
    requires o < end <= |s|
    ensures OneMore(s, AsKind(s, o, end, Text, fence, m, consumed, false), AsKind(s, o, end, Text, fence, m, consumed, true))
    decreases |s| - end, 1
  {
    StreamLine(s, s[..end], Max(o, consumed), m, consumed);
    var stream := ScanLine(s, s[..end], Max(o, consumed), m, consumed, true);
    var batch := ScanLine(s, s[..end], Max(o, consumed), m, consumed, false);
    if stream.stopped {
      if !batch.stopped { QuietText(s, end, fence, batch.mode, batch.consumed); }
    } else {
      StreamText(s, end, fence, batch.mode, batch.consumed);
      OneMoreBehind(s, batch.tags, ScanText(s, end, fence, batch.mode, batch.consumed, false),
                    ScanText(s, end, fence, batch.mode, batch.consumed, true));
    }
  }

  lemma OneMoreBehind(s: string, tags: seq<Tag>, batch: seq<Tag>, stream: seq<Tag>)
    requires OneMore(s, batch, stream)
    ensures OneMore(s, tags + batch, tags + stream)
  {}

  /** Streaming returns exactly the closed tags, and at most one more for an unfinished end. */
  lemma StreamingAddsOneTail(s: string)
    ensures var batch, stream := Tags(s, false), Tags(s, true);
      stream == batch || (|stream| == |batch| + 1 && stream[..|batch|] == batch && stream[|batch|].partial && stream[|batch|].end == |s|)
  {
    StreamText(s, 0, None, CLEAR, 0);
  }

  // ---------------------------------------------------------------- closed tags stay

  lemma StartsStable(w: string, x: string, i: nat, text: string)
    ensures StartsAt(w, i, text) ==> StartsAt(w + x, i, text)
    ensures i + |text| <= |w| && StartsAt(w + x, i, text) ==> StartsAt(w, i, text)
  {
    if i + |text| <= |w| { assert (w + x)[i..i + |text|] == w[i..i + |text|]; }
  }

  lemma {:induction false} FindStable(w: string, x: string, i: nat, text: string)
    requires Find(w, i, text).Some?
    ensures Find(w + x, i, text) == Find(w, i, text)
    decreases |w| - i
  {
    StartsStable(w, x, i, text);
    if !StartsAt(w, i, text) { FindStable(w, x, i + 1, text); }
  }

  /** A later end of a search that the shorter text does not answer lies behind it. */
  lemma {:induction false} FindBeyond(w: string, x: string, i: nat, text: string)
    requires text != "" && Find(w, i, text).None? && Find(w + x, i, text).Some?
    ensures Find(w + x, i, text).value + |text| > |w|
    decreases |w + x| - i
  {
    StartsStable(w, x, i, text);
    if !StartsAt(w + x, i, text) {
      if i >= |w| || i + |text| > |w| { } else { FindBeyond(w, x, i + 1, text); }
    }
  }

  lemma {:induction false} FirstCloseStable(s: string, t: string, j: nat, quote: Option<char>)
    requires FirstClose(s, j, quote).Some?
    ensures FirstClose(s + t, j, quote) == FirstClose(s, j, quote)
    decreases |s| - j
  {
    if quote.Some? {
      FirstCloseStable(s, t, j + 1, if s[j] == quote.value then None else quote);
    } else if Quoting(s[j]) {
      FirstCloseStable(s, t, j + 1, Some(s[j]));
    } else if s[j] != '>' {
      FirstCloseStable(s, t, j + 1, None);
    }
  }

  lemma {:induction false} RunStable(w: string, x: string, i: nat, c: char)
    requires i + RunLength(w, i, c) < |w|
    ensures RunLength(w + x, i, c) == RunLength(w, i, c)
    decreases |w| - i
  {
    if w[i] == c { RunStable(w, x, i + 1, c); }
  }

  lemma {:induction false} SkipStable(w: string, x: string, i: nat)
    requires SkipSpaces(w, i) < |w|
    ensures SkipSpaces(w + x, i) == SkipSpaces(w, i)
    decreases |w| - i
  {
    if Space(w[i]) { SkipStable(w, x, i + 1); }
  }

  lemma {:induction false} SkipBeyond(w: string, x: string, i: nat)
    requires i <= |w|
    ensures SkipSpaces(w, i) == |w| ==> SkipSpaces(w + x, i) >= |w|
    decreases |w| - i
  {
    if i < |w| { SkipBeyond(w, x, i + 1); }
  }

  /** No `>` from `i` on. */
  ghost predicate NoClose(w: string, i: nat) {
    forall k :: i <= k < |w| ==> w[k] != '>'
  }

  predicate Plain(name: string) {
    forall k :: 0 <= k < |name| ==> name[k] != '>'
  }

  lemma RawNamesArePlain(name: string)
    requires RawName(name)
    ensures Plain(name)
  {
  }

  /** A name, or what there is of it, holds no `>`. */
  lemma NamePlain(w: string, x: string, i: nat, name: string)
    requires Plain(name) && NamedAt(w + x, i, name)
    ensures forall k :: i <= k < i + |name| && k < |w| ==> w[k] != '>'
    ensures i + |name| <= |w| ==> NamedAt(w, i, name)
  {
    forall k | i <= k < i + |name| && k < |w| ensures w[k] != '>' {
      assert Lower((w + x)[i + (k - i)]) == name[k - i];
    }
    if i + |name| <= |w| {
      forall k | 0 <= k < |name| ensures Lower(w[i + k]) == name[k] { assert (w + x)[i + k] == w[i + k]; }
    }
  }

  lemma CloseAtStays(w: string, x: string, i: nat, name: string)
    requires CloseAt(w, i, name).Some?
    ensures CloseAt(w + x, i, name) == CloseAt(w, i, name) && w[CloseAt(w, i, name).value - 1] == '>'
  {
    StartsStable(w, x, i, "</");
    NamedStable(w, x, i + 2, name);
    SkipStable(w, x, i + 2 + |name|);
  }

  lemma CloseAtBeyond(w: string, x: string, i: nat, name: string)
    requires Plain(name) && CloseAt(w, i, name).None? && CloseAt(w + x, i, name).Some?
    ensures NoClose(w, i)
  {
    var u, j := w + x, i + 2 + |name|;
    assert u[i..i + 2] == "</";
    assert u[i] == u[i..i + 2][0] && u[i + 1] == u[i..i + 2][1];
    NamePlain(w, x, i + 2, name);
    StartsStable(w, x, i, "</");
    if j <= |w| {
      if SkipSpaces(w, j) < |w| { SkipStable(w, x, j); }
      SkipBeyond(w, x, j);
    }
    forall k | i <= k < |w| ensures w[k] != '>' { assert u[k] == w[k]; }
  }

  lemma {:induction false} FindCloseStable(w: string, x: string, i: nat, name: string)
    requires RawName(name) && FindClose(w, i, name).Some?
    ensures FindClose(w + x, i, name) == FindClose(w, i, name)
    ensures w[FindClose(w, i, name).value - 1] == '>'
    decreases |w| - i
  {
    if CloseAt(w, i, name).Some? {
      CloseAtStays(w, x, i, name);
    } else {
      FindCloseStable(w, x, i + 1, name);
      NotClosedBefore(w, x, i, name, FindClose(w, i + 1, name).value);
    }
  }

  lemma NotClosedBefore(w: string, x: string, i: nat, name: string, e: nat)
    requires RawName(name) && CloseAt(w, i, name).None? && i < e - 1 < |w| && w[e - 1] == '>'
    ensures CloseAt(w + x, i, name).None?
  {
    RawNamesArePlain(name);
    if CloseAt(w + x, i, name).Some? { CloseAtBeyond(w, x, i, name); }
  }

  lemma RawEndStays(w: string, x: string, i: nat, name: string)
    requires RawEnd(w, i, name).Some?
    ensures RawEnd(w + x, i, name) == RawEnd(w, i, name)
  {
    FindStable(w, x, i + 1 + |name|, ">");
  }

  lemma RawEndBeyond(w: string, x: string, i: nat, name: string)
    requires Plain(name) && NamedAt(w + x, i + 1, name) && i < |w| && w[i] == '<'
    requires NamedAt(w, i + 1, name) ==> RawEnd(w, i, name).None? && RawEnd(w + x, i, name).Some?
    ensures NoClose(w, i)
  {
    var j := i + 1 + |name|;
    NamePlain(w, x, i + 1, name);
    if j < |w| { NotBefore(w, j); }
  }

  lemma RawEndAgrees(w: string, x: string, i: nat, name: string)
    requires RawName(name) && NamedAt(w + x, i + 1, name) && i < |w| && w[i] == '<'
    ensures NoClose(w, i) || (NamedAt(w, i + 1, name) && RawEnd(w + x, i, name) == RawEnd(w, i, name))
  {
    RawNamesArePlain(name);
    if NamedAt(w, i + 1, name) && RawEnd(w, i, name).Some? { RawEndStays(w, x, i, name); }
    else if !NamedAt(w, i + 1, name) || RawEnd(w + x, i, name).Some? { RawEndBeyond(w, x, i, name); }
  }

  lemma {:induction false} NotBefore(w: string, j: nat)
    requires Find(w, j, ">").None?
    ensures NoClose(w, j)
    decreases |w| - j
  {
    if j < |w| {
      NotBefore(w, j + 1);
      assert w[j..j + 1] == [w[j]];
    }
  }

  lemma RawOpenStable(w: string, x: string, i: nat)
    requires i < |w|
    ensures RawOpen(w + x, i) == RawOpen(w, i) || NoClose(w, i)
  {
    var u := w + x;
    assert u[i] == w[i];
    if w[i] == '<' {
      NamedStable(w, x, i + 1, "pre");
      NamedStable(w, x, i + 1, "code");
      NamedStable(w, x, i + 1, "script");
      NamedStable(w, x, i + 1, "style");
      if NamedAt(u, i + 1, "pre") { RawEndAgrees(w, x, i, "pre"); }
      else if NamedAt(u, i + 1, "code") { RawEndAgrees(w, x, i, "code"); }
      else if NamedAt(u, i + 1, "script") { RawEndAgrees(w, x, i, "script"); }
      else if NamedAt(u, i + 1, "style") { RawEndAgrees(w, x, i, "style"); }
    }
  }

  lemma NamedStable(w: string, x: string, i: nat, name: string)
    ensures NamedAt(w, i, name) ==> NamedAt(w + x, i, name)
  {
  }

  /** At a position of a line, more text changes nothing, or comes where the shorter text has no tag left. */
  ghost predicate Agree(s: string, a: Move, b: Move, i: nat) {
    a == b || a == Unfinished || a == Break || Quiet(s, i)
  }

  /** The whole line is there already. */
  lemma WholeLineAgrees(s: string, t: string, w: string, i: nat, m: Mode)
    requires w <= s && i < |w| && w[|w| - 1] == '\n'
    ensures var a := At(s, w, i, m, false); a == At(s + t, w, i, m, false) || a == Unfinished
  {
    if StartsAt(w, i, NAME) {
      assert w[i..i + 16][15] == 'e';
      assert i + 16 < |w|;
      assert (s + t)[i + 16] == s[i + 16];
      if FirstClose(s, i + 16, None).Some? { FirstCloseStable(s, t, i + 16, None); }
    }
  }

  /** The last line, which may go on. */
  lemma LastLineAgrees(s: string, t: string, x: string, i: nat, m: Mode)
    requires i < |s| && s + x <= s + t && (m.raw.Some? ==> RawName(m.raw.value))
    ensures Agree(s, At(s, s, i, m, false), At(s + t, s + x, i, m, false), i)
  {
    assert (s + x)[i] == s[i];
    if m.comment {
      if Find(s, i, "-->").Some? { FindStable(s, x, i, "-->"); }
    } else if m.raw.Some? {
      if FindClose(s, i, m.raw.value).Some? { FindCloseStable(s, x, i, m.raw.value); }
    } else if m.ticks == 0 && StartsAt(s + x, i, "<!--") {
      CommentAgrees(s, x, i);
    } else if s[i] == '`' {
      if i + RunLength(s, i, '`') < |s| { RunStable(s, x, i, '`'); }
    } else if m.ticks == 0 && s[i] == '<' {
      CommentAgrees(s, x, i);
      RawOpenStable(s, x, i);
      if RawOpen(s, i) == RawOpen(s + x, i) { TagAgrees(s, t, x, i, m); }
    }
  }

  lemma CommentAgrees(s: string, x: string, i: nat)
    requires i < |s|
    ensures StartsAt(s, i, "<!--") ==> StartsAt(s + x, i, "<!--")
    ensures StartsAt(s + x, i, "<!--") && !StartsAt(s, i, "<!--") ==> NoClose(s, i)
  {
    var u := s + x;
    if i + 4 <= |s| {
      assert u[i..i + 4] == s[i..i + 4];
    } else if StartsAt(u, i, "<!--") {
      forall k | i <= k < |s| ensures s[k] != '>' { assert s[k] == u[k] == u[i..i + 4][k - i]; }
    }
  }

  lemma TagAgrees(s: string, t: string, x: string, i: nat, m: Mode)
    requires i < |s| && s + x <= s + t
    ensures Agree(s, TagAt(s, s, i, m, false), TagAt(s + t, s + x, i, m, false), i)
  {
    var u, y := s + t, s + x;
    if i + 16 < |s| {
      assert y[i..i + 16] == s[i..i + 16] && u[i + 16] == s[i + 16];
      if FirstClose(s, i + 16, None).Some? { FirstCloseStable(s, t, i + 16, None); }
    } else if StartsAt(y, i, NAME) {
      NameHasNoClose();
      forall k | i <= k < |s| ensures s[k] != '>' { assert s[k] == y[k] == y[i..i + 16][k - i]; }
    }
  }

  /** Raw blocks carry the names that open them. */
  predicate ModeOk(m: Mode) { m.raw.Some? ==> RawName(m.raw.value) }

  lemma {:induction false} WholeLine(s: string, t: string, w: string, i: nat, m: Mode, consumed: nat)
    requires w <= s && w != "" && w[|w| - 1] == '\n' && ModeOk(m)
    ensures var a, b := ScanLine(s, w, i, m, consumed, false), ScanLine(s + t, w, i, m, consumed, false);
      a.tags <= b.tags && (a.stopped || a == b) && ModeOk(a.mode)
    decreases |w| - i
  {
    if i < |w| {
      WholeLineAgrees(s, t, w, i, m);
      match At(s, w, i, m, false)
      case Break =>
      case On(next, m1) => WholeLine(s, t, w, next, m1, consumed);
      case Found(next) =>
        WholeLine(s, t, w, next, m, next);
        assert (s + t)[i..next] == s[i..next];
      case Unfinished =>
    }
  }

  lemma {:induction false} LastLine(s: string, t: string, x: string, i: nat, m: Mode, consumed: nat)
    requires s + x <= s + t && ModeOk(m)
    ensures ScanLine(s, s, i, m, consumed, false).tags <= ScanLine(s + t, s + x, i, m, consumed, false).tags
    decreases |s| - i, 1
  {
    if i < |s| {
      LastLineAgrees(s, t, x, i, m);
      if Quiet(s, i) {
        QuietLine(s, s, i, m, consumed);
      } else {
        var move := At(s, s, i, m, false);
        MoveKeepsMode(s, i, m);
        LastMove(s, t, x, i, move, m, consumed);
      }
    }
  }

  lemma MoveKeepsMode(s: string, i: nat, m: Mode)
    requires i < |s| && ModeOk(m)
    ensures var move := At(s, s, i, m, false); move.On? ==> ModeOk(move.mode)
  {}

  /** The same move in both texts, or none in the shorter one. */
  lemma {:induction false} LastMove(s: string, t: string, x: string, i: nat, move: Move, m: Mode, consumed: nat)
    requires s + x <= s + t && i < |s| && ModeOk(m) && (move.On? ==> ModeOk(move.mode))
    requires (move.On? || move.Found? ==> move.next > i) && (move.Found? ==> move.next <= |s|)
    ensures Follow(s, s, i, move, m, consumed, false).tags <= Follow(s + t, s + x, i, move, m, consumed, false).tags
    ensures move == Unfinished || move == Break ==> Follow(s, s, i, move, m, consumed, false).tags == []
    decreases |s| - i, 0
  {
    match move
    case Break =>
    case On(next, m1) => LastLine(s, t, x, next, m1, consumed);
    case Found(next) =>
      LastLine(s, t, x, next, m, next);
      assert (s + t)[i..next] == s[i..next];
    case Unfinished =>
  }

  // the look of a line that holds a `<`

  ghost predicate HasOpen(line: string) {
    exists k :: 0 <= k < |line| && line[k] == '<'
  }

  lemma RunUpTo(line: string, x: string, i: nat, c: char, k: nat)
    requires c != '<' && i <= k < |line| && line[k] == '<'
    ensures i + RunLength(line, i, c) <= k && RunLength(line + x, i, c) == RunLength(line, i, c)
  {
    RunStable(line, x, i, c);
  }

  lemma QuoteMarkStable(line: string, x: string, k: nat)
    requires k < |line| && line[k] == '<'
    ensures QuoteMark(line + x) == QuoteMark(line) && (QuoteMark(line).Some? ==> QuoteMark(line).value <= k)
  {
    RunUpTo(line, x, 0, ' ', k);
    var n := RunLength(line, 0, ' ');
    assert (line + x)[n] == line[n];
    if line[n] == '>' { assert n + 1 <= k && (line + x)[n + 1] == line[n + 1]; }
  }

  lemma {:induction false} StripQuotesStable(line: string, x: string, k: nat) returns (k': nat)
    requires k < |line| && line[k] == '<'
    ensures StripQuotes(line + x) == StripQuotes(line) + x && k' < |StripQuotes(line)| && StripQuotes(line)[k'] == '<'
    decreases |line|
  {
    QuoteMarkStable(line, x, k);
    match QuoteMark(line)
    case None => k' := k;
    case Some(d) =>
      assert (line + x)[d..] == line[d..] + x;
      k' := StripQuotesStable(line[d..], x, k - d);
  }

  lemma OpenAt(line: string) returns (k: nat)
    requires HasOpen(line)
    ensures k < |line| && line[k] == '<'
  {
    k :| 0 <= k < |line| && line[k] == '<';
  }

  lemma {:induction false} DigitsStable(line: string, x: string, i: nat, k: nat)
    requires i <= k < |line| && line[k] == '<'
    ensures Digits(line, i) <= k && Digits(line + x, i) == Digits(line, i)
    decreases |line| - i
  {
    assert (line + x)[i] == line[i];
    if '0' <= line[i] <= '9' { DigitsStable(line, x, i + 1, k); }
  }

  lemma ItemMarkStable(line: string, x: string, k: nat)
    requires k < |line| && line[k] == '<'
    ensures ItemMark(line + x) == ItemMark(line) && (ItemMark(line).Some? ==> ItemMark(line).value <= k)
  {
    RunUpTo(line, x, 0, ' ', k);
    var n := RunLength(line, 0, ' ');
    assert (line + x)[n] == line[n];
    DigitsStable(line, x, n, k);
    assert (line + x)[Digits(line, n)] == line[Digits(line, n)];
  }

  lemma StripItemStable(line: string, x: string, k: nat) returns (k': nat)
    requires k < |line| && line[k] == '<'
    ensures StripItem(line + x) == StripItem(line) + x && k' < |StripItem(line)| && StripItem(line)[k'] == '<'
  {
    ItemMarkStable(line, x, k);
    match ItemMark(line)
    case None => k' := k;
    case Some(p) => k' := AfterStable(line, x, p, k);
  }

  lemma AfterStable(line: string, x: string, p: nat, k: nat) returns (k': nat)
    requires p <= k < |line| && line[k] == '<'
    ensures After(line + x, p) == After(line, p) + x && k' < |After(line, p)| && After(line, p)[k'] == '<'
  {
    assert (line + x)[p] == line[p];
    if line[p] == ' ' {
      assert (line + x)[p + 1..] == line[p + 1..] + x;
      k' := k - p - 1;
    } else {
      k' := k;
    }
  }

  lemma BodyStable(line: string, x: string)
    requires HasOpen(line)
    ensures var a, b := Body(line), Body(line + x);
      Marker(a).Some? == Marker(b).Some? && (Marker(a).Some? ==> Marker(a).value.0 == Marker(b).value.0) && Indented(a) == Indented(b)
  {
    var k := OpenAt(line);
    k := StripQuotesStable(line, x, k);
    k := StripItemStable(StripQuotes(line), x, k);
    var a := Body(line);
    RunUpTo(a, x, 0, ' ', k);
    var n := RunLength(a, 0, ' ');
    assert (a + x)[n] == a[n];
    if a[n] == '`' || a[n] == '~' { RunUpTo(a, x, n, a[n], k); }
  }

  lemma {:induction false} LineEndStable(s: string, t: string, o: nat)
    requires o < |s|
    ensures LineEnd(s + t, o) >= LineEnd(s, o)
    ensures s[LineEnd(s, o) - 1] == '\n' ==> LineEnd(s + t, o) == LineEnd(s, o)
    ensures s[LineEnd(s, o) - 1] != '\n' ==> LineEnd(s, o) == |s|
    decreases |s| - o
  {
    if s[o] != '\n' && o + 1 < |s| { LineEndStable(s, t, o + 1); }
  }

  lemma {:induction false} TextGrows(s: string, t: string, o: nat, fence: Option<Fence>, m: Mode, consumed: nat)
    requires o <= |s| && ModeOk(m)
    ensures ScanText(s, o, fence, m, consumed, false) <= ScanText(s + t, o, fence, m, consumed, false)
    decreases |s| - o, 1
  {
    if o < |s| {
      LineEndStable(s, t, o);
      if s[LineEnd(s, o) - 1] == '\n' { WholeLineGrows(s, t, o, fence, m, consumed); }
      else { LastLineGrows(s, t, o, fence, m, consumed); }
    }
  }

  /** A whole line looks the same in the longer text. */
  lemma WholeKind(s: string, t: string, o: nat, fence: Option<Fence>, m: Mode, consumed: nat) returns (end: nat, kind: LineKind)
    requires o < |s| && s[LineEnd(s, o) - 1] == '\n' && LineEnd(s + t, o) == LineEnd(s, o)
    ensures o < end <= |s| && s[end - 1] == '\n' && (s + t)[..end] == s[..end]
    ensures ScanText(s, o, fence, m, consumed, false) == AsKind(s, o, end, kind, fence, m, consumed, false)
    ensures ScanText(s + t, o, fence, m, consumed, false) == AsKind(s + t, o, end, kind, fence, m, consumed, false)
  {
    end := LineEnd(s, o);
    kind := KindOf(s[o..end], end <= consumed, consumed > o, fence, m.ticks);
    assert (s + t)[o..end] == s[o..end];
  }

  lemma {:induction false} WholeLineGrows(s: string, t: string, o: nat, fence: Option<Fence>, m: Mode, consumed: nat)
    requires o < |s| && ModeOk(m) && s[LineEnd(s, o) - 1] == '\n' && LineEnd(s + t, o) == LineEnd(s, o)
    ensures ScanText(s, o, fence, m, consumed, false) <= ScanText(s + t, o, fence, m, consumed, false)
    decreases |s| - o, 0
  {
    var end, kind := WholeKind(s, t, o, fence, m, consumed);
    if kind.Text? {
      WholeTextGrows(s, t, o, end, fence, m, consumed);
    } else {
      TextGrows(s, t, end, FenceAfter(fence, kind), m, consumed);
    }
  }

  lemma {:induction false} WholeTextGrows(s: string, t: string, o: nat, end: nat, fence: Option<Fence>, m: Mode, consumed: nat)
    requires o < end <= |s| && ModeOk(m) && s[end - 1] == '\n' && (s + t)[..end] == s[..end]
    ensures AsKind(s, o, end, Text, fence, m, consumed, false) <= AsKind(s + t, o, end, Text, fence, m, consumed, false)
    decreases |s| - end, 2
  {
    WholeLine(s, t, s[..end], Max(o, consumed), m, consumed);
    var r := ScanLine(s, s[..end], Max(o, consumed), m, consumed, false);
    if !r.stopped { TextGrows(s, t, end, fence, r.mode, r.consumed); }
  }

  lemma KindStable(line: string, x: string, continuation: bool, ticks: nat)
    requires HasOpen(line)
    ensures KindOf(line + x, false, continuation, None, ticks) == KindOf(line, false, continuation, None, ticks)
  {
    BodyStable(line, x);
  }

  lemma LastLineGrows(s: string, t: string, o: nat, fence: Option<Fence>, m: Mode, consumed: nat)
    requires o < |s| && ModeOk(m) && LineEnd(s, o) == |s| <= LineEnd(s + t, o)
    ensures ScanText(s, o, fence, m, consumed, false) <= ScanText(s + t, o, fence, m, consumed, false)
  {
    if !HasOpen(s[o..]) {
      assert forall k :: o <= k < |s| ==> s[k] == s[o..][k - o];
      QuietText(s, o, fence, m, consumed);
    } else if consumed < |s| && fence.None? && KindOf(s[o..], false, consumed > o, None, m.ticks).Text? {
      LastTextGrows(s, t, o, m, consumed);
    } else {
      LastNotText(s, o, fence, m, consumed);
    }
  }

  /** A last line that is not scanned yields nothing. */
  lemma LastNotText(s: string, o: nat, fence: Option<Fence>, m: Mode, consumed: nat)
    requires o < |s| && LineEnd(s, o) == |s|
    requires consumed >= |s| || fence.Some? || !KindOf(s[o..], false, consumed > o, None, m.ticks).Text?
    ensures ScanText(s, o, fence, m, consumed, false) == []
  {
    assert s[o..|s|] == s[o..];
    var kind := KindOf(s[o..], |s| <= consumed, consumed > o, fence, m.ticks);
    assert !kind.Text?;
    assert ScanText(s, |s|, FenceAfter(fence, kind), m, consumed, false) == [];
    assert AsKind(s, o, |s|, kind, fence, m, consumed, false) == [];
  }

  lemma LastTextGrows(s: string, t: string, o: nat, m: Mode, consumed: nat)
    requires o < |s| && ModeOk(m) && LineEnd(s, o) == |s| <= LineEnd(s + t, o)
    requires HasOpen(s[o..]) && consumed < |s| && KindOf(s[o..], false, consumed > o, None, m.ticks).Text?
    ensures ScanText(s, o, None, m, consumed, false) <= ScanText(s + t, o, None, m, consumed, false)
  {
    var x := LastKind(s, t, o, m, consumed);
    LastLine(s, t, x, Max(o, consumed), m, consumed);
    assert s[..|s|] == s && (s + t)[..|s + x|] == s + x;
  }

  lemma LastKind(s: string, t: string, o: nat, m: Mode, consumed: nat) returns (x: string)
    requires o < |s| && LineEnd(s, o) == |s| <= LineEnd(s + t, o)
    requires HasOpen(s[o..]) && consumed < |s| && KindOf(s[o..], false, consumed > o, None, m.ticks).Text?
    ensures s + x <= s + t
    ensures ScanText(s, o, None, m, consumed, false) == AsKind(s, o, |s|, Text, None, m, consumed, false)
    ensures ScanText(s + t, o, None, m, consumed, false) == AsKind(s + t, o, |s + x|, Text, None, m, consumed, false)
  {
    var u, end := s + t, LineEnd(s + t, o);
    x := u[|s|..end];
    assert u[..end] == s + x;
    assert u[o..end] == (s + x)[o..] == s[o..] + x;
    assert s[o..|s|] == s[o..];
    KindStable(s[o..], x, consumed > o, m.ticks);
  }

  /** Closed tags are stable: those of a text are the first of every longer text, position and text included. */
  lemma ClosedTagsStay(s: string, t: string)
    ensures Tags(s, false) <= Tags(s + t, false)
  {
    TextGrows(s, t, 0, None, CLEAR, 0);
  }
}
