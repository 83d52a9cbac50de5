/**
 * Bounded summarisation (packages/runtime/bounded-summary.js): a text too long for one request is folded
 * segment by segment into a checkpoint, within a byte budget and at most 32 requests.
 */
module BoundedSummary {
  import opened Options
  import opened Utf16

  datatype StopReason = Stopped | Length | Failed | Aborted | ToolUse

  /** A provider response: its joined text blocks, whether it calls a tool, whether its error says the prompt is too long. */
  datatype Response = Response(stop: StopReason, tooLong: bool, text: Text, toolCall: bool, usage: Option<nat>)

  datatype Request = Request(text: Text, reasoning: bool)

  datatype Problem =
    | RequestLimit | Cancelled | NoRecoveryBudget | InvalidPreviousCheckpoint
    | EmptyCheckpoint | InstructionsTooLong | NothingToReduce

  /** The response to the n-th request. */
  type Provider = (nat, Text) -> Response

  datatype Outcome = Return(response: Response) | Throw(problem: Problem)

  const MAX_REQUESTS: nat := 32
  const OPEN_XML := "<conversation>\n"
  const CLOSE_XML := "\n</conversation>"
  const OPEN_MD := "# Conversation\n"
  const CLOSE_MD := "\n\n# Instructions\n"
  const OPEN_PREVIOUS := "\n\n<previous-summary>\n"
  const CLOSE_PREVIOUS := "\n</previous-summary>\n\n"

  predicate Complete(r: Response) {
    r.stop == Stopped && !r.toolCall
  }

  predicate Overflow(r: Response) {
    r.stop == Failed && r.tooLong
  }

  predicate Blank(u: Unit) {
    9 <= u <= 13 || u == 32 || u == 160 || u == 0x1680 || 0x2000 <= u <= 0x200A || u == 0x2028 || u == 0x2029
    || u == 0x202F || u == 0x205F || u == 0x3000 || u == 0xFEFF
  }

  /** `!value.trim()` */
  predicate IsBlank(t: Text) {
    forall i :: 0 <= i < |t| ==> Blank(t[i])
  }

  /** White space and line ends, as sections 12.2 and 12.3 of ECMA-262 list them. */
  const WHITE: set<Unit> := {
    9, 10, 11, 12, 13, 32, 0xA0, 0x1680, 0x2000, 0x2001, 0x2002, 0x2003, 0x2004, 0x2005, 0x2006, 0x2007, 0x2008, 0x2009, 0x200A,
    0x2028, 0x2029, 0x202F, 0x205F, 0x3000, 0xFEFF}

  lemma BlankIsWhite(t: Text)
    ensures IsBlank(t) <==> forall u :: u in t ==> u in WHITE
  {
    forall u ensures Blank(u) <==> u in WHITE {}
  }

  function Combine(a: Option<nat>, b: Option<nat>): Option<nat> {
    if b.None? then a else if a.None? then b else Some(a.value + b.value)
  }

  /** Usage of every response received, in order. */
  function TotalUsage(received: seq<Response>): Option<nat> {
    if received == [] then None
    else Combine(TotalUsage(received[..|received| - 1]), received[|received| - 1].usage)
  }

  function Reported(received: seq<Response>): nat {
    if received == [] then 0
    else (if received[0].usage.Some? then received[0].usage.value else 0) + Reported(received[1..])
  }

  /** The usage is the sum of all that was reported, and nothing only if nothing was. */
  lemma {:induction false} UsageIsTheSum(received: seq<Response>)
    ensures TotalUsage(received).None? <==> forall r :: r in received ==> r.usage.None?
    ensures TotalUsage(received).Some? ==> TotalUsage(received).value == Reported(received)
    ensures TotalUsage(received).None? ==> Reported(received) == 0
  {
    if received != [] {
      var front, last := received[..|received| - 1], received[|received| - 1];
      UsageIsTheSum(front);
      ReportedLast(front, last);
      assert received == front + [last];
    }
  }

  lemma {:induction false} ReportedLast(front: seq<Response>, last: Response)
    ensures Reported(front + [last]) == Reported(front) + if last.usage.Some? then last.usage.value else 0
  {
    if front == [] {
      assert [last][1..] == [];
    } else {
      assert (front + [last])[1..] == front[1..] + [last];
      ReportedLast(front[1..], last);
    }
  }

  // ---------------------------------------------------------------- the parts of the text

  datatype Parts = Parts(opening: Text, closing: Text, conversation: Text, previous: Text, instructions: Text)
  datatype Parsed = Split(parts: Parts) | Unsplit(problem: Problem)

  function Split2(text: Text, opening: Text, closing: Text): Parsed {
    var end := LastIndexOf(text, closing);
    if end < |opening| then Unsplit(NoRecoveryBudget)
    else SplitPrevious(opening, closing, text[|opening|..end], text[end + |closing|..])
  }

  function SplitPrevious(opening: Text, closing: Text, conversation: Text, rest: Text): Parsed {
    var before, after := Ascii(OPEN_PREVIOUS), Ascii(CLOSE_PREVIOUS);
    if !StartsWith(rest, before) then Split(Parts(opening, closing, conversation, [], rest))
    else
      var end := LastIndexOf(rest, after);
      if end < 0 then Unsplit(InvalidPreviousCheckpoint)
      else Split(Parts(opening, closing, conversation, Slice(rest, |before|, end), Ascii("\n\n") + rest[end + |after|..]))
  }

  function ParseText(text: Text): Parsed {
    if StartsWith(text, Ascii(OPEN_XML)) then Split2(text, Ascii(OPEN_XML), Ascii(CLOSE_XML))
    else if StartsWith(text, Ascii(OPEN_MD)) then Split2(text, Ascii(OPEN_MD), Ascii(CLOSE_MD))
    else Unsplit(NoRecoveryBudget)
  }

  /** What follows the conversation: plain instructions, or a previous checkpoint and instructions. */
  ghost predicate Reassembles(rest: Text, previous: Text, instructions: Text) {
    || (previous == [] && rest == instructions)
    || (exists tail :: instructions == Ascii("\n\n") + tail &&
          rest == Ascii(OPEN_PREVIOUS) + previous + Ascii(CLOSE_PREVIOUS) + tail)
    || (exists tail :: instructions == Ascii("\n\n") + tail && previous == [] &&
          rest == Ascii(OPEN_PREVIOUS) + Ascii(CLOSE_PREVIOUS)[1..] + tail)
  }

  /** The parts are the text, in order: nothing is lost by taking it apart. */
  lemma PartsMakeTheText(text: Text) returns (rest: Text)
    requires ParseText(text).Split?
    ensures
      var p := ParseText(text).parts;
      text == p.opening + p.conversation + p.closing + rest && Reassembles(rest, p.previous, p.instructions)
  {
    if StartsWith(text, Ascii(OPEN_XML)) {
      rest := TextReassembles(text, Ascii(OPEN_XML), Ascii(CLOSE_XML));
    } else {
      rest := TextReassembles(text, Ascii(OPEN_MD), Ascii(CLOSE_MD));
    }
  }

  /** A text that is taken apart: its opening, and the last end tag behind it. */
  ghost predicate Tagged(text: Text, opening: Text, closing: Text, end: nat) {
    && StartsWith(text, opening) && |opening| <= end && OccursAt(text, closing, end)
    && forall later :: later > end ==> !OccursAt(text, closing, later)
  }

  ghost predicate Recoverable(text: Text, end: nat) {
    || Tagged(text, Ascii("<conversation>\n"), Ascii("\n</conversation>"), end)
    || Tagged(text, Ascii("# Conversation\n"), Ascii("\n\n# Instructions\n"), end)
  }

  lemma OpeningsDiffer(text: Text)
    requires StartsWith(text, Ascii("<conversation>\n"))
    ensures !StartsWith(text, Ascii("# Conversation\n"))
  {
    assert text[0] == Ascii("<conversation>\n")[0] == 60;
    assert Ascii("# Conversation\n")[0] == 35;
  }

  /** A text is taken apart at its last end tag, whatever the conversation itself contains; otherwise it is refused. */
  lemma PartsEndAtTheLastTag(text: Text)
    ensures ParseText(text) == Unsplit(NoRecoveryBudget) <==> !exists end: nat :: Recoverable(text, end)
    ensures ParseText(text).Split? ==>
      var p := ParseText(text).parts;
      Tagged(text, p.opening, p.closing, |p.opening| + |p.conversation|) && Recoverable(text, |p.opening| + |p.conversation|)
  {
    if StartsWith(text, Ascii(OPEN_XML)) {
      OpeningsDiffer(text);
      SplitsAtTheLast(text, Ascii(OPEN_XML), Ascii(CLOSE_XML));
      assert forall end: nat :: Recoverable(text, end) <==> Tagged(text, Ascii(OPEN_XML), Ascii(CLOSE_XML), end);
    } else if StartsWith(text, Ascii(OPEN_MD)) {
      SplitsAtTheLast(text, Ascii(OPEN_MD), Ascii(CLOSE_MD));
      assert forall end: nat :: Recoverable(text, end) <==> Tagged(text, Ascii(OPEN_MD), Ascii(CLOSE_MD), end);
    }
  }

  lemma SplitsAtTheLast(text: Text, opening: Text, closing: Text)
    requires StartsWith(text, opening)
    ensures Split2(text, opening, closing) == Unsplit(NoRecoveryBudget) <==> !exists end: nat :: Tagged(text, opening, closing, end)
    ensures Split2(text, opening, closing).Split? ==>
      var p := Split2(text, opening, closing).parts;
      p.opening == opening && p.closing == closing && Tagged(text, opening, closing, |opening| + |p.conversation|)
  {
    var end := LastIndexOf(text, closing);
    if end >= |opening| { assert Tagged(text, opening, closing, end); }
  }

  lemma TextReassembles(text: Text, opening: Text, closing: Text) returns (rest: Text)
    requires StartsWith(text, opening) && Split2(text, opening, closing).Split?
    ensures
      var p := Split2(text, opening, closing).parts;
      text == p.opening + p.conversation + p.closing + rest && Reassembles(rest, p.previous, p.instructions)
  {
    var end := LastIndexOf(text, closing);
    rest := text[end + |closing|..];
    assert text == opening + text[|opening|..end] + closing + rest;
    PreviousReassembles(opening, closing, text[|opening|..end], rest);
  }

  lemma PreviousReassembles(opening: Text, closing: Text, conversation: Text, rest: Text)
    requires SplitPrevious(opening, closing, conversation, rest).Split?
    ensures
      var p := SplitPrevious(opening, closing, conversation, rest).parts;
      p.opening == opening && p.closing == closing && p.conversation == conversation &&
      Reassembles(rest, p.previous, p.instructions)
  {
    var before, after := Ascii(OPEN_PREVIOUS), Ascii(CLOSE_PREVIOUS);
    if StartsWith(rest, before) {
      SplitPreviousMakesRest(rest, before, after);
      var tail := rest[LastIndexOf(rest, after) + |after|..];
      assert SplitPrevious(opening, closing, conversation, rest).parts.instructions == Ascii("\n\n") + tail;
    }
  }

  lemma SplitPreviousMakesRest(rest: Text, before: Text, after: Text)
    requires before == Ascii(OPEN_PREVIOUS) && after == Ascii(CLOSE_PREVIOUS)
    requires StartsWith(rest, before) && LastIndexOf(rest, after) >= 0
    ensures
      var last := LastIndexOf(rest, after);
      if last >= |before| then rest == before + rest[|before|..last] + after + rest[last + |after|..]
      else last == |before| - 1 && rest == before + after[1..] + rest[last + |after|..]
  {
    var last := LastIndexOf(rest, after);
    if last < |before| {
      SharedNewline(rest, before, after, last);
      Overlapped(rest, before, after, last);
    } else {
      Apart(rest, before, after, last);
    }
  }

  lemma Apart(rest: Text, before: Text, after: Text, last: nat)
    requires StartsWith(rest, before) && OccursAt(rest, after, last) && |before| <= last
    ensures rest == before + rest[|before|..last] + after + rest[last + |after|..]
  {}

  /** The end tag can begin inside the start tag only by sharing its last line break. */
  lemma SharedNewline(rest: Text, before: Text, after: Text, last: nat)
    requires before == Ascii(OPEN_PREVIOUS) && after == Ascii(CLOSE_PREVIOUS)
    requires StartsWith(rest, before) && OccursAt(rest, after, last) && last < |before|
    ensures last == |before| - 1 && before[last] == after[0]
  {
    OccursBy(rest, after, last, 0);
    OccursBy(rest, after, last, 1);
    OccursBy(rest, after, last, 2);
    assert rest[last] == before[last] == after[0] == 10;
    NewlinesOfPrevious(last);
    assert before[1] == 10 && before[2] == 60 && before[3] == 112;
    assert after[1] == 60 && after[2] == 47;
  }

  lemma OccursBy(t: Text, p: Text, i: nat, k: nat)
    requires OccursAt(t, p, i) && k < |p|
    ensures t[i + k] == p[k]
  {
    assert t[i..i + |p|][k] == p[k];
  }

  lemma Overlapped(rest: Text, before: Text, after: Text, last: nat)
    requires StartsWith(rest, before) && OccursAt(rest, after, last) && before != [] && after != []
    requires last == |before| - 1 && before[last] == after[0]
    ensures rest == before + after[1..] + rest[last + |after|..]
  {
    assert rest == rest[..last] + after + rest[last + |after|..];
    assert rest[..last] == before[..last];
    assert before[..last] + [after[0]] == before;
  }

  lemma NewlinesOfPrevious(i: nat)
    requires i < |OPEN_PREVIOUS| && Ascii(OPEN_PREVIOUS)[i] == 10
    ensures i == 0 || i == 1 || i == |OPEN_PREVIOUS| - 1
  {
    assert forall c :: c in OPEN_PREVIOUS ==> c < 128 as char;
    assert OPEN_PREVIOUS[i] == '\n';
  }

  // ---------------------------------------------------------------- prompts

  const EMPTY_CONVERSATION := "<conversation>\n\n</conversation>\n\n<previous-summary>\n"

  /** The English of the prompts; the proofs use only that the concise suffix begins with a line break. */
  datatype Wording = Wording(concise: Text, reducedHeading: Text, checkpointHeading: Text, afterHistory: Text, afterSegment: Text) {
    predicate Valid() {
      concise != [] && concise[0] == 10
    }
  }

  function Preceding(heading: Text, checkpoint: Text): Text {
    if checkpoint == [] then [] else heading + checkpoint + Ascii("\n\n")
  }

  function Head(w: Wording, p: Parts, historical: bool, checkpoint: Text): Text {
    if historical then Ascii(EMPTY_CONVERSATION) + Preceding(w.reducedHeading, checkpoint)
    else p.opening + Preceding(w.checkpointHeading, checkpoint)
  }

  function Tail(w: Wording, p: Parts, historical: bool): Text {
    if historical then Ascii("\n</previous-summary>") + p.instructions + w.afterHistory
    else p.closing + p.instructions + w.afterSegment
  }

  function Prompt(w: Wording, p: Parts, historical: bool, checkpoint: Text, segment: Text): Text {
    Head(w, p, historical, checkpoint) + segment + Tail(w, p, historical)
  }

  /** The opening ends and the closing begins with a line break, so no segment can pair up with its surroundings. */
  predicate Framed(p: Parts) {
    p.opening != [] && p.opening[|p.opening| - 1] == 10 && p.closing != [] && p.closing[0] == 10
  }

  lemma ParsedIsFramed(text: Text)
    requires ParseText(text).Split?
    ensures Framed(ParseText(text).parts)
  {}

  lemma HeadAndTailAreFramed(w: Wording, p: Parts, historical: bool, checkpoint: Text)
    requires Framed(p)
    ensures
      var head, tail := Head(w, p, historical, checkpoint), Tail(w, p, historical);
      head != [] && head[|head| - 1] == 10 && tail != [] && tail[0] == 10
  {}

  /** A prompt costs its frame plus its segment; the concise suffix adds its own bytes. */
  lemma PromptBytes(w: Wording, p: Parts, historical: bool, checkpoint: Text, segment: Text)
    requires Framed(p)
    ensures ByteLength(Prompt(w, p, historical, checkpoint, segment)) ==
            ByteLength(Prompt(w, p, historical, checkpoint, [])) + ByteLength(segment)
  {
    HeadAndTailAreFramed(w, p, historical, checkpoint);
    FramedBytes(Head(w, p, historical, checkpoint), segment, Tail(w, p, historical));
    FramedBytes(Head(w, p, historical, checkpoint), [], Tail(w, p, historical));
  }

  lemma FramedBytes(head: Text, segment: Text, tail: Text)
    requires head != [] && head[|head| - 1] == 10 && tail != [] && tail[0] == 10
    ensures ByteLength(head + segment + tail) == ByteLength(head) + ByteLength(segment) + ByteLength(tail)
  {
    BytesAdd(head, segment + tail);
    BytesAdd(segment, tail);
    assert head + (segment + tail) == head + segment + tail;
  }

  lemma ConciseBytes(w: Wording, prompt: Text)
    requires w.Valid()
    ensures ByteLength(prompt + w.concise) == ByteLength(prompt) + ByteLength(w.concise)
  {
    BytesAdd(prompt, w.concise);
  }

  // ---------------------------------------------------------------- what a fold has read

  /**
   * How a checkpoint came about: each merge read the current checkpoint and the next segment; each reduction read all
   * of the current checkpoint, segment by segment.
   */
  datatype Derivation =
    | Begin
    | Merge(prev: Derivation, segment: Text, result: Text)
    | Reduce(prev: Derivation, inner: Derivation)

  function Checkpoint(d: Derivation, initial: Text): Text {
    match d
    case Begin => initial
    case Merge(_, _, result) => result
    case Reduce(_, inner) => Checkpoint(inner, [])
  }

  /** The segments merged so far, concatenated. */
  function Consumed(d: Derivation): Text {
    match d
    case Begin => []
    case Merge(prev, segment, _) => Consumed(prev) + segment
    case Reduce(prev, _) => Consumed(prev)
  }

  /** The answer to request `k`, or to the concise one after it when the output budget ran out. */
  ghost predicate AnsweredBy(w: Wording, f: Provider, log: seq<Request>, k: nat, r: Response) {
    && k < |log|
    && if f(k, log[k].text).stop != Length then r == f(k, log[k].text).(usage := r.usage)
       else k + 1 < |log| && log[k + 1] == Request(log[k].text + w.concise, false) && r == f(k + 1, log[k + 1].text).(usage := r.usage)
  }

  /** A request that was answered completely, with a text that is not blank. */
  ghost predicate Asked(w: Wording, f: Provider, log: seq<Request>, prompt: Text, result: Text) {
    exists k: nat, r ::
      && AnsweredBy(w, f, log, k, r) && log[k] == Request(prompt, false)
      && r.stop == Stopped && !r.toolCall && r.text == result && !IsBlank(result)
  }

  lemma AskedLater(w: Wording, f: Provider, log: seq<Request>, prompt: Text, result: Text, more: seq<Request>)
    requires Asked(w, f, log, prompt, result) && log <= more
    ensures Asked(w, f, more, prompt, result)
  {
    var k: nat, r :| AnsweredBy(w, f, log, k, r) && log[k] == Request(prompt, false)
      && r.stop == Stopped && !r.toolCall && r.text == result && !IsBlank(result);
    assert AnsweredBy(w, f, more, k, r);
  }

  /** Every merge put exactly the checkpoint before it and an unsplit segment of `source` into a request; its result is the answer. */
  ghost predicate Faithful(d: Derivation, w: Wording, f: Provider, p: Parts, historical: bool, source: Text, initial: Text, log: seq<Request>) {
    match d
    case Begin => true
    case Merge(prev, segment, result) =>
      && Faithful(prev, w, f, p, historical, source, initial, log)
      && segment != [] && Consumed(d) <= source && !SplitsPair(source, |Consumed(d)|)
      && Asked(w, f, log, Prompt(w, p, historical, Checkpoint(prev, initial), segment), result)
    case Reduce(prev, inner) =>
      && Faithful(prev, w, f, p, historical, source, initial, log)
      && Faithful(inner, w, f, p, true, Checkpoint(prev, initial), [], log)
      && Consumed(inner) == Checkpoint(prev, initial)
  }

  lemma FaithfulLater(d: Derivation, w: Wording, f: Provider, p: Parts, historical: bool, source: Text, initial: Text, log: seq<Request>, more: seq<Request>)
    requires Faithful(d, w, f, p, historical, source, initial, log) && log <= more
    ensures Faithful(d, w, f, p, historical, source, initial, more)
  {
    match d
    case Begin =>
    case Merge(prev, segment, result) =>
      FaithfulLater(prev, w, f, p, historical, source, initial, log, more);
      AskedLater(w, f, log, Prompt(w, p, historical, Checkpoint(prev, initial), segment), result, more);
    case Reduce(prev, inner) =>
      FaithfulLater(prev, w, f, p, historical, source, initial, log, more);
      FaithfulLater(inner, w, f, p, true, Checkpoint(prev, initial), [], log, more);
  }

  /** A fold stands at `offset` with `checkpoint`, having read everything before. */
  ghost predicate Read(d: Derivation, w: Wording, f: Provider, p: Parts, historical: bool, source: Text, initial: Text,
                       log: seq<Request>, offset: nat, checkpoint: Text)
  {
    && Faithful(d, w, f, p, historical, source, initial, log)
    && offset <= |source| && Consumed(d) == source[..offset] && Checkpoint(d, initial) == checkpoint
  }

  lemma ReadLater(d: Derivation, w: Wording, f: Provider, p: Parts, historical: bool, source: Text, initial: Text, log: seq<Request>,
                  offset: nat, checkpoint: Text, more: seq<Request>)
    requires Read(d, w, f, p, historical, source, initial, log, offset, checkpoint) && log <= more
    ensures Read(d, w, f, p, historical, source, initial, more, offset, checkpoint)
  {
    FaithfulLater(d, w, f, p, historical, source, initial, log, more);
  }

  /** An answer to a segment leaves the fold where it was, or one segment further. */
  lemma ReadAnswered(d: Derivation, w: Wording, f: Provider, p: Parts, historical: bool, source: Text, initial: Text, log: seq<Request>,
                     offset: nat, checkpoint: Text, more: seq<Request>, next: nat, r: Response)
    requires Read(d, w, f, p, historical, source, initial, log, offset, checkpoint) && log <= more
    requires offset < next <= |source| && !SplitsPair(source, next)
    requires Delivered(w, f, log, more, Prompt(w, p, historical, checkpoint, source[offset..next]), r)
    ensures Read(d, w, f, p, historical, source, initial, more, offset, checkpoint)
    ensures Complete(r) && !IsBlank(r.text) ==>
      Read(Merge(d, source[offset..next], r.text), w, f, p, historical, source, initial, more, next, r.text)
  {
    ReadLater(d, w, f, p, historical, source, initial, log, offset, checkpoint, more);
    if Complete(r) && !IsBlank(r.text) {
      assert Asked(w, f, more, Prompt(w, p, historical, checkpoint, source[offset..next]), r.text);
      ReadMerge(d, w, f, p, historical, source, initial, log, offset, checkpoint, more, next, r.text);
    }
  }

  lemma ReadMerge(d: Derivation, w: Wording, f: Provider, p: Parts, historical: bool, source: Text, initial: Text, log: seq<Request>,
                  offset: nat, checkpoint: Text, more: seq<Request>, next: nat, result: Text)
    requires Read(d, w, f, p, historical, source, initial, log, offset, checkpoint) && log <= more
    requires offset < next <= |source| && !SplitsPair(source, next)
    requires Asked(w, f, more, Prompt(w, p, historical, checkpoint, source[offset..next]), result)
    ensures Read(d, w, f, p, historical, source, initial, more, offset, checkpoint)
    ensures Read(Merge(d, source[offset..next], result), w, f, p, historical, source, initial, more, next, result)
  {
    FaithfulLater(d, w, f, p, historical, source, initial, log, more);
    assert source[..next] == source[..offset] + source[offset..next];
  }

  lemma ReadReduce(d: Derivation, w: Wording, f: Provider, p: Parts, historical: bool, source: Text, initial: Text, log: seq<Request>,
                   offset: nat, checkpoint: Text, more: seq<Request>, inner: Derivation, result: Text)
    requires Read(d, w, f, p, historical, source, initial, log, offset, checkpoint) && log <= more
    requires Read(inner, w, f, p, true, checkpoint, [], more, |checkpoint|, result)
    ensures Read(Reduce(d, inner), w, f, p, historical, source, initial, more, offset, result)
  {
    FaithfulLater(d, w, f, p, historical, source, initial, log, more);
  }

  // ---------------------------------------------------------------- cutting

  lemma HalfIsEnough(n: nat, available: int)
    requires 3 * n > available
    ensures 6 * (n / 2) + 3 > available
  {}

  /** The next cut: within the budget, forward, and never inside a surrogate pair. */
  method Cut(source: Text, offset: nat, available: int) returns (next: nat)
    requires offset < |source| && available >= 1024
    ensures offset < next <= |source|
    ensures !SplitsPair(source, next) && ByteLength(source[offset..next]) <= available
    ensures ByteLength(source[offset..]) <= available ==> next == |source|
    ensures next == |source| || 6 * (next - offset) + 9 > available
  {
    next := if |source| < offset + available then |source| else offset + available;
    if next < |source| && High(source[next - 1]) { next := next - 1; }
    AtLeastOneByte(source[offset..]);
    assert source[offset..|source|] == source[offset..];
    while ByteLength(source[offset..next]) > available
      invariant ByteLength(source[offset..]) <= available ==> next == |source|
      invariant next == |source| || 6 * (next - offset) + 9 > available
      invariant offset < next <= |source| && !SplitsPair(source, next)
      decreases next
    {
      AtMostThreeBytes(source[offset..next]);
      HalfIsEnough(next - offset, available);
      next := offset + (next - offset) / 2;
      if High(source[next - 1]) { next := next - 1; }
    }
  }

  // ---------------------------------------------------------------- the summariser

  /** Each response is what the provider answers to its request. */
  ghost predicate Exchanged(f: Provider, log: seq<Request>, received: seq<Response>) {
    |log| == |received| && forall i :: 0 <= i < |log| ==> received[i] == f(i, log[i].text)
  }

  /** Only three answers lead to a further request: one cut off by the output budget, a complete one, and a prompt too long. */
  ghost predicate Pursued(f: Provider, log: seq<Request>, from: nat, to: int) {
    forall i :: from <= i < to && i < |log| ==> Pursuable(f(i, log[i].text))
  }

  predicate Pursuable(r: Response) {
    r.stop == Length || (r.stop == Stopped && !r.toolCall) || (r.stop == Failed && r.tooLong)
  }

  ghost predicate Last(f: Provider, log: seq<Request>, r: Response) {
    log != [] && r == f(|log| - 1, log[|log| - 1].text).(usage := r.usage)
  }

  /** What is returned is the answer to the last request, and none that says the prompt is too long. */
  ghost predicate Final(f: Provider, log: seq<Request>, r: Response) {
    Last(f, log, r) && !(r.stop == Failed && r.tooLong)
  }

  /** A prompt was sent, and answered by the last request. */
  ghost predicate Delivered(w: Wording, f: Provider, before: seq<Request>, log: seq<Request>, prompt: Text, r: Response) {
    && |before| < |log| && log[|before|] == Request(prompt, false) && AnsweredBy(w, f, log, |before|, r)
    && Last(f, log, r) && Pursued(f, log, |before|, |log| - 1)
  }

  lemma PursuedFurther(f: Provider, log: seq<Request>, from: nat, r: Response)
    requires Last(f, log, r) && Pursued(f, log, from, |log| - 1) && Pursuable(r)
    ensures Pursued(f, log, from, |log|)
  {}

  ghost predicate WithinBudget(log: seq<Request>, from: nat, budget: int) {
    forall i :: from <= i < |log| ==> ByteLength(log[i].text) <= budget && !log[i].reasoning
  }

  lemma WithinBoth(f: Provider, log: seq<Request>, more: seq<Request>, from: nat, budget: int)
    requires log <= more && WithinBudget(log, from, budget) && WithinBudget(more, |log|, budget) && Pursued(f, log, from, |log|)
    ensures WithinBudget(more, from, budget)
    ensures Pursued(f, more, |log|, |more|) ==> Pursued(f, more, from, |more|)
    ensures Pursued(f, more, |log|, |more| - 1) ==> Pursued(f, more, from, |more| - 1)
  {}

  lemma PursuedBoth(f: Provider, log: seq<Request>, more: seq<Request>)
    requires log <= more && Pursued(f, log, 0, |log|) && Pursued(f, more, |log|, |more| - 1)
    ensures Pursued(f, more, 0, |more| - 1)
  {}

  predicate Blanked(r: Response) {
    r.stop == Stopped && !r.toolCall && IsBlank(r.text)
  }

  class Summarizer {
    const budget: int
    const reasoning: bool
    const wording: Wording
    const provider: Provider
    /** Whether the n-th look at the abort signal finds it raised. */
    const aborted: nat -> bool
    var calls: nat
    var looks: nat
    var usage: Option<nat>
    var chunkBudget: int
    ghost var log: seq<Request>
    ghost var received: seq<Response>

    /** Every request is counted and had its own look at the signal, and every response is accounted for. */
    ghost predicate Valid()
      reads this
    {
      && |log| == |received| == calls <= MAX_REQUESTS && Exchanged(provider, log, received)
      && usage == TotalUsage(received)
      && looks >= calls && forall n :: 0 <= n < looks ==> !aborted(n)
    }

    constructor (contextWindow: int, maxTokens: int, reasoning: bool, wording: Wording,
        provider: Provider, aborted: nat -> bool)
      ensures Valid() && log == [] && budget == (contextWindow - maxTokens - 8192) / 2
      ensures this.provider == provider && this.wording == wording && this.reasoning == reasoning
    {
      budget := (contextWindow - maxTokens - 8192) / 2;
      this.reasoning, this.wording, this.provider, this.aborted := reasoning, wording, provider, aborted;
      calls, looks, usage, chunkBudget, log, received := 0, 0, None, 0, [], [];
    }

    /** Why a fold was given up: the signal was raised, the requests were used up, or an answer was blank. */
    ghost predicate Excused(problem: Problem)
      reads this
    {
      match problem
      case Cancelled => looks > 0 && aborted(looks - 1)
      case RequestLimit => |log| == 32
      case EmptyCheckpoint => log != [] && Blanked(provider(|log| - 1, log[|log| - 1].text))
      case _ => false
    }

    /** Even without a checkpoint the frame of a prompt leaves no room for a segment. */
    ghost predicate NoRoom(p: Parts, problem: Problem)
      reads this
    {
      problem == InstructionsTooLong && exists historical :: chunkBudget - ByteLength(Prompt(wording, p, historical, [], [])) < 1024
    }

    method Cancelled() returns (raised: bool)
      modifies this`looks
      ensures looks == old(looks) + 1 && raised == aborted(old(looks))
    {
      raised := aborted(looks);
      looks := looks + 1;
    }

    /** `request` and `account`. */
    method Ask(text: Text, withReasoning: bool) returns (response: Response)
      requires |log| == |received| == calls - 1 && usage == TotalUsage(received) && Exchanged(provider, log, received)
      modifies this`usage, this`log, this`received
      ensures response == provider(|old(log)|, text)
      ensures log == old(log) + [Request(text, withReasoning)] && received == old(received) + [response]
      ensures usage == TotalUsage(received) && Exchanged(provider, log, received)
    {
      response := provider(calls - 1, text);
      log := log + [Request(text, withReasoning)];
      received := received + [response];
      assert received[..|received| - 1] == old(received);
      usage := Combine(usage, response.usage);
    }

    /** `call`: one request, and a concise second one when the output budget ran out. */
    method Call(prompt: Text, recovery: bool) returns (outcome: Outcome)
      requires Valid()
      modifies this`calls, this`looks, this`usage, this`log, this`received
      ensures |log| <= MAX_REQUESTS && old(log) <= log && |log| <= |old(log)| + 2
      ensures forall i :: |old(log)| <= i < |log| ==>
        log[i] == if i == |old(log)| then Request(prompt, reasoning && !recovery) else Request(prompt + wording.concise, false)
      ensures outcome.Throw? ==> Excused(outcome.problem)
      ensures outcome.Return? ==> Valid() && |log| > |old(log)| && outcome.response.usage == usage
      ensures outcome.Return? ==> Last(provider, log, outcome.response)
      ensures outcome.Return? ==> AnsweredBy(wording, provider, log, |old(log)|, outcome.response)
      ensures outcome.Return? ==> Pursued(provider, log, |old(log)|, |log| - 1)
    {
      outcome := Attempt(prompt, reasoning && !recovery);
      if outcome.Return? && outcome.response.stop == Length { outcome := Attempt(prompt + wording.concise, false); }
      if outcome.Return? { return Return(outcome.response.(usage := usage)); }
    }

    /** A counted request, unless the signal is raised or the limit is reached. */
    method Attempt(text: Text, withReasoning: bool) returns (outcome: Outcome)
      requires Valid()
      modifies this`calls, this`looks, this`usage, this`log, this`received
      ensures |log| <= MAX_REQUESTS
      ensures if outcome.Throw? then log == old(log) && Excused(outcome.problem) else
        Valid() && log == old(log) + [Request(text, withReasoning)] && outcome.response == received[|received| - 1]
    {
      var raised := Cancelled();
      if raised { return Throw(Problem.Cancelled); }
      calls := calls + 1;
      if calls > MAX_REQUESTS { return Throw(RequestLimit); }
      var response := Ask(text, withReasoning);
      return Return(response);
    }

    method Deliver(prompt: Text) returns (outcome: Outcome)
      requires Valid() && ByteLength(prompt) <= budget && ByteLength(prompt + wording.concise) <= budget
      modifies this`calls, this`looks, this`usage, this`log, this`received
      ensures |log| <= MAX_REQUESTS && old(log) <= log && WithinBudget(log, |old(log)|, budget)
      ensures outcome.Throw? ==> Excused(outcome.problem)
      ensures outcome.Return? ==> Valid() && outcome.response.usage == usage && Delivered(wording, provider, old(log), log, prompt, outcome.response)
    {
      outcome := Call(prompt, true);
    }

    /** One iteration that issues a request: cut the next segment, and send it after the checkpoint. */
    method ReadSegment(p: Parts, source: Text, initial: Text, offset: nat, checkpoint: Text, historical: bool, available: int, ghost d: Derivation)
      returns (outcome: Outcome, next: nat)
      requires Valid() && wording.Valid() && Framed(p) && offset < |source| && available >= 1024
      requires available + ByteLength(Prompt(wording, p, historical, checkpoint, [])) <= budget - ByteLength(wording.concise)
      requires Read(d, wording, provider, p, historical, source, initial, log, offset, checkpoint)
      modifies this`calls, this`looks, this`usage, this`log, this`received
      ensures |log| <= MAX_REQUESTS && old(log) <= log && WithinBudget(log, |old(log)|, budget)
      ensures offset < next <= |source| && !SplitsPair(source, next)
      ensures outcome.Throw? ==> Excused(outcome.problem)
      ensures outcome.Return? ==> Valid() && |log| > |old(log)| && outcome.response.usage == usage
      ensures outcome.Return? ==> Read(d, wording, provider, p, historical, source, initial, log, offset, checkpoint)
      ensures outcome.Return? && Complete(outcome.response) && !IsBlank(outcome.response.text) ==>
        Read(Merge(d, source[offset..next], outcome.response.text), wording, provider, p, historical, source, initial, log, next, outcome.response.text)
      ensures outcome.Return? ==> Last(provider, log, outcome.response) && Pursued(provider, log, |old(log)|, |log| - 1)
    {
      next := Cut(source, offset, available);
      var segment := source[offset..next];
      PromptBytes(wording, p, historical, checkpoint, segment);
      ConciseBytes(wording, Prompt(wording, p, historical, checkpoint, segment));
      outcome := Deliver(Prompt(wording, p, historical, checkpoint, segment));
      if outcome.Return? {
        ReadAnswered(d, wording, provider, p, historical, source, initial, old(log), offset, checkpoint, log, next, outcome.response);
      }
    }

    /** The branch of the loop that reads on: the answer stops the fold, halves the chunks, or is the next checkpoint. */
    method ReadOn(p: Parts, source: Text, initial: Text, offset: nat, checkpoint: Text, historical: bool, available: int, ghost d: Derivation)
      returns (stop: Option<Outcome>, next: nat, response: Option<Response>, ghost merged: Derivation)
      requires Valid() && wording.Valid() && Framed(p) && offset < |source| && available >= 1024 && chunkBudget <= budget - ByteLength(wording.concise)
      requires available + ByteLength(Prompt(wording, p, historical, checkpoint, [])) <= budget - ByteLength(wording.concise)
      requires Read(d, wording, provider, p, historical, source, initial, log, offset, checkpoint)
      modifies this`calls, this`looks, this`usage, this`log, this`received, this`chunkBudget
      ensures |log| <= MAX_REQUESTS && old(log) <= log && WithinBudget(log, |old(log)|, budget) && chunkBudget <= budget - ByteLength(wording.concise)
      ensures chunkBudget == if stop.None? && response.None? then old(chunkBudget) / 2 else old(chunkBudget)
      ensures stop == None || stop.value.Return? ==> Valid() && |log| > |old(log)|
      ensures stop.Some? && stop.value.Throw? ==> Excused(stop.value.problem)
      ensures stop.Some? && stop.value.Return? ==> stop.value.response.usage == usage && !Complete(stop.value.response)
      ensures stop.None? && response.None? ==> Read(d, wording, provider, p, historical, source, initial, log, offset, checkpoint)
      ensures stop.None? && response.Some? ==> Read(merged, wording, provider, p, historical, source, initial, log, next, response.value.text)
      ensures stop.None? && response.Some? ==>
        Complete(response.value) && !IsBlank(response.value.text) && response.value.usage == usage && Final(provider, log, response.value)
      ensures stop.None? ==> Pursued(provider, log, |old(log)|, |log|)
      ensures stop.Some? && stop.value.Return? ==> Pursued(provider, log, |old(log)|, |log| - 1) && Final(provider, log, stop.value.response)
    {
      var outcome;
      outcome, next := ReadSegment(p, source, initial, offset, checkpoint, historical, available, d);
      merged := d;
      if outcome.Throw? { return Some(outcome), next, None, d; }
      var answer := outcome.response;
      if Overflow(answer) {
        PursuedFurther(provider, log, |old(log)|, answer);
        chunkBudget := chunkBudget / 2;
        return None, next, None, d;
      }
      if !Complete(answer) { return Some(outcome), next, None, d; }
      if IsBlank(answer.text) { return Some(Throw(EmptyCheckpoint)), next, None, d; }
      PursuedFurther(provider, log, |old(log)|, answer);
      return None, next, Some(answer), Merge(d, source[offset..next], answer.text);
    }

    /** The branch of the loop that makes room: the checkpoint is folded by itself, from nothing. */
    method ReduceCheckpoint(p: Parts, source: Text, initial: Text, offset: nat, checkpoint: Text, historical: bool, ghost d: Derivation)
      returns (stop: Option<Outcome>, reduced: Text, ghost reduction: Derivation)
      requires Valid() && wording.Valid() && Framed(p) && chunkBudget <= budget - ByteLength(wording.concise)
      requires Read(d, wording, provider, p, historical, source, initial, log, offset, checkpoint)
      requires chunkBudget - ByteLength(Prompt(wording, p, historical, checkpoint, [])) < 1024
      modifies this`calls, this`looks, this`usage, this`log, this`received, this`chunkBudget
      ensures |log| <= MAX_REQUESTS && old(log) <= log && WithinBudget(log, |old(log)|, budget) && chunkBudget <= budget - ByteLength(wording.concise)
      ensures stop == None || stop.value.Return? ==> Valid() && |log| > |old(log)|
      ensures stop.Some? && stop.value.Throw? ==> Excused(stop.value.problem) || NoRoom(p, stop.value.problem)
      ensures stop.Some? && stop.value.Return? ==> stop.value.response.usage == usage && !Complete(stop.value.response)
      ensures stop.None? ==> Read(reduction, wording, provider, p, historical, source, initial, log, offset, reduced)
      ensures stop.None? ==> Pursued(provider, log, |old(log)|, |log|)
      ensures stop.Some? && stop.value.Return? ==> Pursued(provider, log, |old(log)|, |log| - 1) && Final(provider, log, stop.value.response)
      decreases MAX_REQUESTS + 1 - calls, |checkpoint|, 0
    {
      if checkpoint == [] { return Some(Throw(InstructionsTooLong)), [], d; }
      ghost var before := log;
      var outcome; ghost var inner;
      outcome, inner := Fold(p, checkpoint, [], true);
      if outcome.Throw? || !Complete(outcome.response) { return Some(outcome), [], d; }
      PursuedFurther(provider, log, |before|, outcome.response);
      ReadReduce(d, wording, provider, p, historical, source, initial, before, offset, checkpoint, log, inner, outcome.response.text);
      return None, outcome.response.text, Reduce(d, inner);
    }

    /** One turn of the loop: it makes room, or reads on. */
    method Turn(p: Parts, source: Text, initial: Text, offset: nat, checkpoint: Text, historical: bool, ghost d: Derivation)
      returns (stop: Option<Outcome>, next: nat, text: Text, response: Option<Response>, ghost read: Derivation)
      requires Valid() && wording.Valid() && Framed(p) && offset < |source| && chunkBudget <= budget - ByteLength(wording.concise)
      requires Read(d, wording, provider, p, historical, source, initial, log, offset, checkpoint)
      modifies this`calls, this`looks, this`usage, this`log, this`received, this`chunkBudget
      ensures |log| <= MAX_REQUESTS && old(log) <= log && WithinBudget(log, |old(log)|, budget) && chunkBudget <= budget - ByteLength(wording.concise)
      ensures stop == None || stop.value.Return? ==> Valid() && |log| > |old(log)|
      ensures stop.Some? && stop.value.Throw? ==> Excused(stop.value.problem) || NoRoom(p, stop.value.problem)
      ensures stop.Some? && stop.value.Return? ==> stop.value.response.usage == usage && !Complete(stop.value.response)
      ensures stop.Some? && stop.value.Return? ==> Pursued(provider, log, |old(log)|, |log| - 1) && Final(provider, log, stop.value.response)
      ensures stop.None? ==> Pursued(provider, log, |old(log)|, |log|)
      ensures stop.None? ==> Read(read, wording, provider, p, historical, source, initial, log, next, text)
      ensures stop.None? ==> if response.None? then next == offset else
        && Complete(response.value) && response.value.text == text && !IsBlank(text)
        && response.value.usage == usage && Final(provider, log, response.value)
      decreases MAX_REQUESTS + 1 - calls, |checkpoint|, 1
    {
      next, text, response, read := offset, checkpoint, None, d;
      var raised := Cancelled();
      if raised { return Some(Throw(Problem.Cancelled)), next, text, response, read; }
      var available := chunkBudget - ByteLength(Prompt(wording, p, historical, checkpoint, []));
      if available < 1024 {
        stop, text, read := ReduceCheckpoint(p, source, initial, offset, checkpoint, historical, d);
      } else {
        var cut; ghost var merged;
        stop, cut, response, merged := ReadOn(p, source, initial, offset, checkpoint, historical, available, d);
        if response.Some? { next, text, read := cut, response.value.text, merged; }
      }
    }

    /**
     * `fold`.  A complete response means that all of `source` was read, in order and unsplit, each segment together
     * with all of the checkpoint before it; and no request exceeded the budget.
     */
    method Fold(p: Parts, source: Text, initial: Text, historical: bool) returns (outcome: Outcome, ghost d: Derivation)
      requires Valid() && wording.Valid() && Framed(p) && chunkBudget <= budget - ByteLength(wording.concise)
      modifies this`calls, this`looks, this`usage, this`log, this`received, this`chunkBudget
      ensures |log| <= MAX_REQUESTS && old(log) <= log && chunkBudget <= budget - ByteLength(wording.concise)
      ensures WithinBudget(log, |old(log)|, budget)
      ensures outcome.Throw? ==> Excused(outcome.problem) || NoRoom(p, outcome.problem) || (outcome.problem == NothingToReduce && source == [])
      ensures outcome.Return? ==> Valid() && |log| > |old(log)| && outcome.response.usage == usage
      ensures outcome.Return? && outcome.response.stop == Stopped && !outcome.response.toolCall ==>
        && Read(d, wording, provider, p, historical, source, initial, log, |source|, outcome.response.text)
        && !IsBlank(outcome.response.text)
      ensures outcome.Return? ==> Pursued(provider, log, |old(log)|, |log| - 1) && Final(provider, log, outcome.response)
      decreases MAX_REQUESTS + 1 - calls, |initial|, 2
    {
      var checkpoint: Text, offset: nat := initial, 0;
      var final: Option<Response> := None;
      d := Begin;
      while offset < |source|
        invariant Valid() && old(log) <= log && chunkBudget <= budget - ByteLength(wording.concise)
        invariant if calls == old(calls) then checkpoint == initial && final.None? else calls > old(calls)
        invariant final.None? ==> offset == 0
        invariant WithinBudget(log, |old(log)|, budget)
        invariant Read(d, wording, provider, p, historical, source, initial, log, offset, checkpoint)
        invariant offset == |source| && final.Some? ==>
          Complete(final.value) && final.value.text == checkpoint && !IsBlank(checkpoint) && final.value.usage == usage && Final(provider, log, final.value)
        invariant Pursued(provider, log, |old(log)|, |log|)
        decreases MAX_REQUESTS - calls
      {
        ghost var before := log;
        var stop, next, text, response; ghost var read;
        stop, next, text, response, read := Turn(p, source, initial, offset, checkpoint, historical, d);
        WithinBoth(provider, before, log, |old(log)|, budget);
        if stop.Some? { return stop.value, d; }
        offset, checkpoint, d := next, text, read;
        if response.Some? { final := response; }
      }
      if final.None? { return Throw(NothingToReduce), d; }
      return Return(final.value), d;
    }

    /**
     * `boundedSummarization` of one user text.  A complete answer comes from a request that holds the whole text, or from
     * a fold that read the whole conversation after the whole previous checkpoint; there are at most 32 requests,
     * all within a positive budget; and the usage returned is the usage of every response.
     */
    method Summarize(text: Text) returns (outcome: Outcome, ghost d: Derivation)
      requires Valid() && wording.Valid() && log == []
      modifies this`calls, this`looks, this`usage, this`log, this`received, this`chunkBudget
      ensures |log| <= MAX_REQUESTS
      ensures budget > 0 ==> forall i :: 0 <= i < |log| ==> ByteLength(log[i].text) <= budget
      ensures forall i :: 0 <= i < |log| && log[i].reasoning ==> i == 0 && log[i].text == text
      ensures log != [] && (budget <= 0 || ByteLength(text + wording.concise) <= budget) ==> log[0] == Request(text, reasoning)
      ensures outcome.Throw? ==> Excused(outcome.problem) || Hopeless(text, outcome.problem)
      ensures outcome.Return? ==> outcome.response.usage == TotalUsage(received)
      ensures outcome.Return? ==> Pursued(provider, log, 0, |log| - 1) && Final(provider, log, outcome.response)
      ensures outcome.Return? && outcome.response.stop == Stopped && !outcome.response.toolCall ==>
        || log == [Request(text, reasoning)]
        || log == [Request(text, reasoning), Request(text + wording.concise, false)]
        || (ParseText(text).Split? && FoldedAll(ParseText(text).parts, outcome.response.text, d))
    {
      d := Begin;
      ConciseBytes(wording, text);
      if !(budget > 0) || ByteLength(text + wording.concise) <= budget {
        outcome := Call(text, false);
        if outcome.Throw? || !Overflow(outcome.response) { return; }
        PursuedFurther(provider, log, 0, outcome.response);
      }
      ghost var before := log;
      outcome, d := Recover(text);
      if outcome.Return? { PursuedBoth(provider, before, log); }
    }

    /** What is done about a text too long for one request. */
    method Recover(text: Text) returns (outcome: Outcome, ghost d: Derivation)
      requires Valid() && wording.Valid()
      modifies this`calls, this`looks, this`usage, this`log, this`received, this`chunkBudget
      ensures |log| <= MAX_REQUESTS && old(log) <= log && WithinBudget(log, |old(log)|, budget) && (log == old(log) || budget > 0)
      ensures outcome.Throw? ==> Excused(outcome.problem) || Hopeless(text, outcome.problem)
      ensures outcome.Return? ==> outcome.response.usage == TotalUsage(received) && |log| > |old(log)|
      ensures outcome.Return? ==> Pursued(provider, log, |old(log)|, |log| - 1) && Final(provider, log, outcome.response)
      ensures outcome.Return? && Complete(outcome.response) ==>
        ParseText(text).Split? && FoldedAll(ParseText(text).parts, outcome.response.text, d)
    {
      d := Begin;
      var parsed := ParseText(text);
      if parsed == Unsplit(NoRecoveryBudget) || budget <= 0 { return Throw(NoRecoveryBudget), d; }
      if parsed.Unsplit? { return Throw(parsed.problem), d; }
      ParsedIsFramed(text);
      outcome, d := FoldParts(parsed.parts);
    }

    method FoldParts(p: Parts) returns (outcome: Outcome, ghost d: Derivation)
      requires Valid() && wording.Valid() && Framed(p)
      modifies this`calls, this`looks, this`usage, this`log, this`received, this`chunkBudget
      ensures |log| <= MAX_REQUESTS && old(log) <= log && WithinBudget(log, |old(log)|, budget)
      ensures outcome.Throw? ==> Excused(outcome.problem) || NoRoom(p, outcome.problem) || (outcome.problem == NothingToReduce && p.conversation == p.previous == [])
      ensures outcome.Return? ==> outcome.response.usage == TotalUsage(received) && |log| > |old(log)|
      ensures outcome.Return? ==> Pursued(provider, log, |old(log)|, |log| - 1) && Final(provider, log, outcome.response)
      ensures outcome.Return? && Complete(outcome.response) ==> FoldedAll(p, outcome.response.text, d)
    {
      chunkBudget := budget - ByteLength(wording.concise);
      if p.conversation != [] {
        outcome, d := Fold(p, p.conversation, p.previous, false);
      } else {
        outcome, d := Fold(p, p.previous, [], true);
      }
    }

    /** A text that cannot be taken apart, holds nothing, or leaves no room. */
    ghost predicate Hopeless(text: Text, problem: Problem)
      reads this
    {
      match problem
      case NoRecoveryBudget => budget <= 0 || ParseText(text) == Unsplit(NoRecoveryBudget)
      case InvalidPreviousCheckpoint => ParseText(text) == Unsplit(InvalidPreviousCheckpoint)
      case NothingToReduce => ParseText(text).Split? && ParseText(text).parts.conversation == ParseText(text).parts.previous == []
      case InstructionsTooLong => ParseText(text).Split? && NoRoom(ParseText(text).parts, problem)
      case _ => false
    }

    /** Everything the text held was read: the conversation after the previous checkpoint, or that checkpoint alone. */
    ghost predicate FoldedAll(p: Parts, result: Text, d: Derivation)
      reads this
    {
      if p.conversation != []
      then Read(d, wording, provider, p, false, p.conversation, p.previous, log, |p.conversation|, result)
      else Read(d, wording, provider, p, true, p.previous, [], log, |p.previous|, result)
    }
  }

  /** Segment by segment, what a finished fold has read is its source. */
  lemma FinishedFoldReadEverything(d: Derivation, w: Wording, f: Provider, p: Parts, historical: bool, source: Text, initial: Text,
                                   log: seq<Request>, checkpoint: Text)
    requires Read(d, w, f, p, historical, source, initial, log, |source|, checkpoint)
    ensures Flatten(Segments(d)) == source
    ensures forall i :: 0 <= i <= |Segments(d)| ==> !SplitsPair(source, |Flatten(Segments(d)[..i])|)
    ensures forall s :: s in Segments(d) ==> s != []
  {
    assert source[..|source|] == source;
    SegmentsAreConsumed(d, w, f, p, historical, source, initial, log);
  }

  function Segments(d: Derivation): seq<Text> {
    match d
    case Begin => []
    case Merge(prev, segment, _) => Segments(prev) + [segment]
    case Reduce(prev, _) => Segments(prev)
  }

  function Flatten(ts: seq<Text>): Text {
    if ts == [] then [] else Flatten(ts[..|ts| - 1]) + ts[|ts| - 1]
  }

  lemma {:induction false} SegmentsAreConsumed(d: Derivation, w: Wording, f: Provider, p: Parts, historical: bool, source: Text, initial: Text, log: seq<Request>)
    requires Faithful(d, w, f, p, historical, source, initial, log)
    ensures Flatten(Segments(d)) == Consumed(d) && forall s :: s in Segments(d) ==> s != []
    ensures forall i :: 0 <= i <= |Segments(d)| ==> !SplitsPair(source, |Flatten(Segments(d)[..i])|)
  {
    match d
    case Begin =>
    case Merge(prev, segment, _) =>
      SegmentsAreConsumed(prev, w, f, p, historical, source, initial, log);
      var all := Segments(d);
      assert all[..|all| - 1] == Segments(prev);
      forall i | 0 <= i <= |all| ensures !SplitsPair(source, |Flatten(all[..i])|) {
        if i < |all| { assert all[..i] == Segments(prev)[..i]; } else { assert all[..i] == all; }
      }
    case Reduce(prev, _) => SegmentsAreConsumed(prev, w, f, p, historical, source, initial, log);
  }

  // ---------------------------------------------------------------- what the requests hold

  /** The text of a request: the whole checkpoint, if there is one, and the segment, between the fixed texts. */
  ghost predicate Carries(w: Wording, p: Parts, historical: bool, checkpoint: Text, segment: Text, text: Text) {
    if historical then
      text == Ascii("<conversation>\n\n</conversation>\n\n<previous-summary>\n")
        + (if checkpoint == [] then [] else w.reducedHeading + checkpoint + Ascii("\n\n"))
        + segment + Ascii("\n</previous-summary>") + p.instructions + w.afterHistory
    else
      text == p.opening
        + (if checkpoint == [] then [] else w.checkpointHeading + checkpoint + Ascii("\n\n"))
        + segment + p.closing + p.instructions + w.afterSegment
  }

  ghost predicate CarriedBy(w: Wording, p: Parts, historical: bool, checkpoint: Text, segment: Text, log: seq<Request>, k: nat) {
    k < |log| && !log[k].reasoning && Carries(w, p, historical, checkpoint, segment, log[k].text)
  }

  /** Every merge of a derivation, those of its reductions included, has such a request in the log. */
  ghost predicate Carried(d: Derivation, w: Wording, p: Parts, historical: bool, initial: Text, log: seq<Request>) {
    match d
    case Begin => true
    case Merge(prev, segment, _) =>
      && Carried(prev, w, p, historical, initial, log)
      && exists k: nat :: CarriedBy(w, p, historical, Checkpoint(prev, initial), segment, log, k)
    case Reduce(prev, inner) =>
      Carried(prev, w, p, historical, initial, log) && Carried(inner, w, p, true, [], log)
  }

  /** Whatever a fold has read, each segment went out in a request together with the whole checkpoint before it. */
  lemma {:induction false} RequestsCarryCheckpoints(d: Derivation, w: Wording, f: Provider, p: Parts, historical: bool, source: Text, initial: Text,
                                                    log: seq<Request>)
    requires Faithful(d, w, f, p, historical, source, initial, log)
    ensures Carried(d, w, p, historical, initial, log)
  {
    match d
    case Begin =>
    case Merge(prev, segment, result) =>
      RequestsCarryCheckpoints(prev, w, f, p, historical, source, initial, log);
      AskedCarries(w, f, p, historical, Checkpoint(prev, initial), segment, log, result);
    case Reduce(prev, inner) =>
      RequestsCarryCheckpoints(prev, w, f, p, historical, source, initial, log);
      RequestsCarryCheckpoints(inner, w, f, p, true, Checkpoint(prev, initial), [], log);
  }

  lemma AskedCarries(w: Wording, f: Provider, p: Parts, historical: bool, checkpoint: Text, segment: Text, log: seq<Request>, result: Text)
    requires Asked(w, f, log, Prompt(w, p, historical, checkpoint, segment), result)
    ensures exists k: nat :: CarriedBy(w, p, historical, checkpoint, segment, log, k)
  {
    var k: nat, r :| AnsweredBy(w, f, log, k, r) && log[k] == Request(Prompt(w, p, historical, checkpoint, segment), false)
      && r.stop == Stopped && !r.toolCall && r.text == result && !IsBlank(result);
    PromptCarries(w, p, historical, checkpoint, segment);
    assert CarriedBy(w, p, historical, checkpoint, segment, log, k);
  }

  lemma PromptCarries(w: Wording, p: Parts, historical: bool, checkpoint: Text, segment: Text)
    ensures Carries(w, p, historical, checkpoint, segment, Prompt(w, p, historical, checkpoint, segment))
  {
    var head, closing := Head(w, p, historical, checkpoint) + segment, if historical then Ascii("\n</previous-summary>") else p.closing;
    var after := if historical then w.afterHistory else w.afterSegment;
    assert head + (closing + p.instructions + after) == head + closing + p.instructions + after;
  }
}
