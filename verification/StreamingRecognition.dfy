/**
 * The streaming recogniser (apps/meet-recognition/nemotron.py).  Samples are reals, tensors are flat sequences of reals, the
 * spectrum, the encoder and the decoder are parameters.  What is proved is how audio is cut: the text cannot depend on packets.
 */
module StreamingRecognition {
  type Tensor = seq<real>

  const BLANK: int := 1024
  const HOP: nat := 160
  const HALF: int := 256
  const SPAN: nat := 512
  const CONTEXT: nat := 9
  const MAX_TOKENS: nat := 10

  /** The frames an encoder run yields, how many of them count, and the caches for the next run. */
  datatype Encoded = Encoded(frame: nat -> Tensor, length: nat, cache: Tensor)
  datatype Decoded = Decoded(token: int, state: Tensor)

  datatype Model = Model(
    chunkFrames: nat,
    logMel: Tensor -> Tensor,
    floorRow: Tensor,
    encode: (seq<Tensor>, Tensor) -> Encoded,
    decode: (Tensor, int, Tensor) -> Decoded,
    vocab: int -> string)

  // ---------------------------------------------------------------- features

  function Min(a: int, b: int): int { if a < b then a else b }
  function Max(a: int, b: int): int { if a > b then a else b }

  function Zeros(n: nat): (z: seq<real>)
    ensures |z| == n && forall i :: 0 <= i < n ==> z[i] == 0.0
  {
    seq(n, i => 0.0)
  }

  /** `x[begin:end] - 0.97*x[begin-1:end-1]`, with silence before the first sample. */
  function Emphasise(x: seq<real>, begin: nat, end: nat): (y: seq<real>)
    requires begin <= end <= |x|
    ensures |y| == end - begin
  {
    seq(end - begin, i requires 0 <= i < end - begin =>
      x[begin + i] - 0.97 * (if begin + i > 0 then x[begin + i - 1] else 0.0))
  }

  function FrameCount(x: seq<real>, first: nat, count: int): int {
    Min(count, |x| / HOP + 1 - first)
  }

  /** The padded window under `n` frames from `first` on. */
  function PaddedWindow(x: seq<real>, first: nat, n: nat): (window: seq<real>)
    requires 0 < n && first + n <= |x| / HOP + 1
    ensures |window| == (n - 1) * HOP + SPAN
  {
    var lo, hi := first * HOP - HALF, (first + n - 1) * HOP + HALF;
    var begin, end := Max(0, lo), Min(|x|, hi);
    Zeros(begin - lo) + Emphasise(x, begin, end) + Zeros(hi - end)
  }

  function Sliced(window: seq<real>, i: nat): seq<real>
    requires i * HOP + SPAN <= |window|
  {
    window[i * HOP..i * HOP + SPAN]
  }

  /** `features`: one padded window is built and sliced every 160 samples. */
  function Features(m: Model, x: seq<real>, first: nat, count: int): seq<Tensor>
    requires x != []
  {
    var n := FrameCount(x, first, count);
    if n <= 0 then [] else
      var window := PaddedWindow(x, first, n);
      seq(n, i requires 0 <= i < n => m.logMel(Sliced(window, i)))
  }

  /** The emphasised signal continued by silence on both sides. */
  function Signal(x: seq<real>, i: int): real {
    if 0 <= i < |x| then x[i] - 0.97 * (if i > 0 then x[i - 1] else 0.0) else 0.0
  }

  /** The 512 samples centred on frame `f`. */
  function Window(x: seq<real>, f: nat): seq<real> {
    seq(SPAN, j requires 0 <= j < SPAN => Signal(x, f * HOP - HALF + j))
  }

  lemma PaddingIsSignal(x: seq<real>, first: nat, n: nat)
    requires 0 < n && first + n <= |x| / HOP + 1
    ensures forall k :: 0 <= k < |PaddedWindow(x, first, n)| ==> PaddedWindow(x, first, n)[k] == Signal(x, first * HOP - HALF + k)
  {}

  lemma SliceIsWindow(x: seq<real>, first: nat, n: nat, i: nat)
    requires i < n && first + n <= |x| / HOP + 1
    ensures Sliced(PaddedWindow(x, first, n), i) == Window(x, first + i)
  {
    PaddingIsSignal(x, first, n);
    assert (first + i) * HOP == first * HOP + i * HOP;
  }

  /** Features are local: every requested frame is the one at its place in the whole audio, whatever range it was asked with. */
  lemma FeaturesAreFrames(m: Model, x: seq<real>, first: nat, count: int)
    requires x != []
    ensures |Features(m, x, first, count)| == Max(0, FrameCount(x, first, count))
    ensures forall i :: 0 <= i < |Features(m, x, first, count)| ==> Features(m, x, first, count)[i] == m.logMel(Window(x, first + i))
  {
    var n := FrameCount(x, first, count);
    forall i | 0 <= i < n ensures Features(m, x, first, count)[i] == m.logMel(Window(x, first + i)) {
      SliceIsWindow(x, first, n, i);
    }
  }

  /** A range of features is the matching slice of the features of the whole audio. */
  lemma FeaturesAreASlice(m: Model, x: seq<real>, first: nat, count: nat)
    requires x != [] && first + count <= |x| / HOP + 1
    ensures Features(m, x, first, count) == Features(m, x, 0, |x| / HOP + 1)[first..first + count]
  {
    FeaturesAreFrames(m, x, first, count);
    FeaturesAreFrames(m, x, 0, |x| / HOP + 1);
  }

  // ---------------------------------------------------------------- one step

  /** Everything the decoder carries from step to step. */
  datatype Decoder = Decoder(cache: Tensor, state: Tensor, last: int, pieces: seq<string>)

  datatype StreamState = StreamState(audio: seq<real>, decoded: nat, decoder: Decoder)

  /** The tokens of one frame: at most ten, up to the first blank. */
  function Tokens(m: Model, frame: Tensor, d: Decoder, budget: nat): Decoder
    decreases budget, frame
  {
    if budget == 0 then d else
      var out := m.decode(frame, d.last, d.state);
      if out.token == BLANK then d
      else Tokens(m, frame, d.(state := out.state, last := out.token, pieces := d.pieces + [m.vocab(out.token)]), budget - 1)
  }

  /** A frame adds at most its budget of pieces behind the earlier ones, and without a piece leaves the decoder as it was. */
  lemma {:induction false} TokensAreBounded(m: Model, frame: Tensor, d: Decoder, budget: nat)
    ensures var r := Tokens(m, frame, d, budget);
      d.pieces <= r.pieces && |r.pieces| <= |d.pieces| + budget && r.cache == d.cache && (r.pieces == d.pieces ==> r == d)
    decreases budget
  {
    if budget > 0 {
      var out := m.decode(frame, d.last, d.state);
      if out.token != BLANK {
        TokensAreBounded(m, frame, d.(state := out.state, last := out.token, pieces := d.pieces + [m.vocab(out.token)]), budget - 1);
      }
    }
  }

  function Frames(m: Model, encoded: Encoded, d: Decoder, next: nat, count: nat): Decoder
    requires next <= count
    decreases count - next
  {
    if next == count then d else Frames(m, encoded, Tokens(m, encoded.frame(next), d, MAX_TOKENS), next + 1, count)
  }

  function CeilDiv(a: nat, b: nat): nat
    requires b > 0
  {
    (a + b - 1) / b
  }

  function FramesToDecode(encoded: Encoded, validFrames: nat): nat {
    Min(encoded.length, Max(1, CeilDiv(validFrames, 8)))
  }

  function Fill(row: Tensor, n: int): (rows: seq<Tensor>)
    ensures |rows| == Max(0, n)
  {
    seq(Max(0, n), i => row)
  }

  /** Nine rows of context from the first `back` features, then the chunk from the rest, both padded. */
  function Assemble(floorRow: Tensor, features: seq<Tensor>, back: nat, chunkFrames: nat): (rows: seq<Tensor>)
    requires back <= CONTEXT
    ensures |rows| == chunkFrames + CONTEXT
  {
    var previous := features[..Min(back, |features|)];
    var segment := features[|previous|..Max(|previous|, Min(|features|, back + chunkFrames))];
    Fill(floorRow, CONTEXT - |previous|) + previous + segment + Fill(floorRow, chunkFrames - |segment|)
  }

  /** The rows the encoder receives at `decoded`: nine rows of context, then the chunk, both padded with the log floor. */
  function EncoderInput(m: Model, audio: seq<real>, decoded: nat): (rows: seq<Tensor>)
    requires audio != []
    ensures |rows| == m.chunkFrames + CONTEXT
  {
    InputFrom(m, audio, decoded / HOP, Max(0, decoded / HOP - CONTEXT))
  }

  function InputFrom(m: Model, audio: seq<real>, pos: nat, first: nat): (rows: seq<Tensor>)
    requires audio != [] && first <= pos <= first + CONTEXT
    ensures |rows| == m.chunkFrames + CONTEXT
  {
    Assemble(m.floorRow, Features(m, audio, first, pos + m.chunkFrames - first), pos - first, m.chunkFrames)
  }

  lemma AssembledRow(floorRow: Tensor, features: seq<Tensor>, back: nat, chunkFrames: nat, i: nat)
    requires back <= CONTEXT && back <= |features| <= back + chunkFrames && i < chunkFrames + CONTEXT
    ensures Assemble(floorRow, features, back, chunkFrames)[i]
      == if 0 <= back - CONTEXT + i < |features| then features[back - CONTEXT + i] else floorRow
  {
    var before, segment := Fill(floorRow, CONTEXT - back), features[back..];
    var rows := before + features[..back] + segment + Fill(floorRow, chunkFrames - |segment|);
    assert Assemble(floorRow, features, back, chunkFrames) == rows;
    assert features[..back] + segment == features;
    assert rows == before + features + Fill(floorRow, chunkFrames - |segment|);
  }

  /** The frame at its absolute place in the audio, or the log floor outside it. */
  function FrameAt(m: Model, audio: seq<real>, f: int): Tensor {
    if 0 <= f <= |audio| / HOP then m.logMel(Window(audio, f)) else m.floorRow
  }

  /**
   * Every row the encoder sees is the frame at its own place in the audio, from nine frames back to the end of the chunk,
   * whatever was decoded before.
   */
  lemma EncoderSeesFramesInPlace(m: Model, audio: seq<real>, decoded: nat, i: nat)
    requires audio != [] && decoded <= |audio| && i < m.chunkFrames + CONTEXT
    ensures EncoderInput(m, audio, decoded)[i] == FrameAt(m, audio, decoded / HOP - CONTEXT + i)
  {
    InputRow(m, audio, decoded / HOP, Max(0, decoded / HOP - CONTEXT), i);
  }

  lemma InputRow(m: Model, audio: seq<real>, pos: nat, first: nat, i: nat)
    requires audio != [] && first == Max(0, pos - CONTEXT) && pos <= |audio| / HOP && i < m.chunkFrames + CONTEXT
    ensures InputFrom(m, audio, pos, first)[i] == FrameAt(m, audio, pos - CONTEXT + i)
  {
    FeaturesAreFrames(m, audio, first, pos + m.chunkFrames - first);
    PlacedRow(m, audio, Features(m, audio, first, pos + m.chunkFrames - first), first, pos, i);
  }

  lemma PlacedRow(m: Model, audio: seq<real>, features: seq<Tensor>, first: nat, pos: nat, i: nat)
    requires first == Max(0, pos - CONTEXT) && pos <= |audio| / HOP && i < m.chunkFrames + CONTEXT
    requires |features| == Min(pos + m.chunkFrames, |audio| / HOP + 1) - first
    requires forall j :: 0 <= j < |features| ==> features[j] == m.logMel(Window(audio, first + j))
    ensures Assemble(m.floorRow, features, pos - first, m.chunkFrames)[i] == FrameAt(m, audio, pos - CONTEXT + i)
  {
    AssembledRow(m.floorRow, features, pos - first, m.chunkFrames, i);
    var k := pos - first - CONTEXT + i;
    if 0 <= k < |features| { assert features[k] == m.logMel(Window(audio, first + k)); }
  }

  /** The decoder after one step on the audio up to the end of its chunk. */
  function StepDecoder(m: Model, audio: seq<real>, decoded: nat, validFrames: nat, d: Decoder): Decoder
    requires audio != []
  {
    var encoded := m.encode(EncoderInput(m, audio, decoded), d.cache);
    Frames(m, encoded, d.(cache := encoded.cache), 0, FramesToDecode(encoded, validFrames))
  }

  // ---------------------------------------------------------------- accept and finish

  /** What matters of a model for cutting audio: its chunk, and a step that sees the audio up to the end of its chunk. */
  datatype Machine = Machine(chunkFrames: nat, step: (seq<real>, nat, nat, Decoder) -> Decoder) {
    ghost predicate Valid() { chunkFrames > 0 }
    function Chunk(): nat { chunkFrames * HOP }
  }

  function MachineOf(m: Model): Machine {
    Machine(m.chunkFrames, (audio: seq<real>, decoded: nat, validFrames: nat, d: Decoder) =>
      if audio == [] then d else StepDecoder(m, audio, decoded, validFrames, d))
  }

  function Upto(m: Machine, audio: seq<real>, decoded: nat): seq<real> {
    audio[..Min(|audio|, decoded + m.Chunk())]
  }

  function Stepped(m: Machine, s: StreamState, validFrames: nat): StreamState {
    StreamState(s.audio, s.decoded + m.Chunk(), m.step(Upto(m, s.audio, s.decoded), s.decoded, validFrames, s.decoder))
  }

  function Drain(m: Machine, s: StreamState): (r: StreamState)
    requires m.Valid()
    decreases |s.audio| - s.decoded
  {
    if |s.audio| - s.decoded >= m.Chunk() then Drain(m, Stepped(m, s, m.chunkFrames)) else s
  }

  function Extend(s: StreamState, samples: seq<real>): StreamState {
    s.(audio := s.audio + samples)
  }

  function Accept(m: Machine, s: StreamState, samples: seq<real>): StreamState
    requires m.Valid()
  {
    Drain(m, Extend(s, samples))
  }

  /** The frames that `finish` counts for the chunk at hand. */
  function LastFrames(m: Machine, s: StreamState): nat
    requires |s.audio| > s.decoded
  {
    CeilDiv(Min(|s.audio| - s.decoded, m.Chunk()), HOP)
  }

  function Flush(m: Machine, s: StreamState): StreamState
    requires m.Valid()
    decreases |s.audio| - s.decoded
  {
    if |s.audio| > s.decoded then Flush(m, Stepped(m, s, LastFrames(m, s))) else s
  }

  function Finish(m: Machine, s: StreamState, silence: nat): StreamState
    requires m.Valid()
  {
    Flush(m, Extend(s, Zeros(silence)))
  }

  function AcceptAll(m: Machine, s: StreamState, packets: seq<seq<real>>): StreamState
    requires m.Valid()
    decreases packets
  {
    if packets == [] then s else AcceptAll(m, Accept(m, s, packets[0]), packets[1..])
  }

  function Flatten(packets: seq<seq<real>>): seq<real> {
    if packets == [] then [] else packets[0] + Flatten(packets[1..])
  }

  function NewStream(cache: Tensor, state: Tensor): StreamState {
    StreamState([], 0, Decoder(cache, state, BLANK, []))
  }

  // ---------------------------------------------------------------- packet independence

  /** A full chunk is decoded from the audio up to its end, so audio that arrives later does not matter. */
  lemma LaterAudioIsIrrelevant(m: Machine, s: StreamState, more: seq<real>, validFrames: nat)
    requires |s.audio| - s.decoded >= m.Chunk()
    ensures Stepped(m, Extend(s, more), validFrames) == Extend(Stepped(m, s, validFrames), more)
  {
    assert Upto(m, s.audio + more, s.decoded) == Upto(m, s.audio, s.decoded);
  }

  lemma {:induction false} DrainThenExtend(m: Machine, s: StreamState, more: seq<real>)
    requires m.Valid()
    ensures Drain(m, Extend(s, more)) == Drain(m, Extend(Drain(m, s), more))
    decreases |s.audio| - s.decoded
  {
    if |s.audio| - s.decoded >= m.Chunk() {
      LaterAudioIsIrrelevant(m, s, more, m.chunkFrames);
      DrainThenExtend(m, Stepped(m, s, m.chunkFrames), more);
    }
  }

  /** For a full chunk `finish` counts exactly the frames that `accept` counts. */
  lemma FullChunkFrames(m: Machine, s: StreamState)
    requires m.Valid() && |s.audio| - s.decoded >= m.Chunk()
    ensures LastFrames(m, s) == m.chunkFrames
  {}

  lemma {:induction false} FlushAfterDrain(m: Machine, s: StreamState, more: seq<real>)
    requires m.Valid()
    ensures Flush(m, Extend(Drain(m, s), more)) == Flush(m, Extend(s, more))
    decreases |s.audio| - s.decoded
  {
    if |s.audio| - s.decoded >= m.Chunk() {
      FullChunkFrames(m, Extend(s, more));
      LaterAudioIsIrrelevant(m, s, more, m.chunkFrames);
      FlushAfterDrain(m, Stepped(m, s, m.chunkFrames), more);
    }
  }

  lemma {:induction false} AcceptsAdd(m: Machine, s: StreamState, packets: seq<seq<real>>, more: seq<real>)
    requires m.Valid()
    ensures Drain(m, Extend(AcceptAll(m, s, packets), more)) == Drain(m, Extend(s, Flatten(packets) + more))
    ensures Flush(m, Extend(AcceptAll(m, s, packets), more)) == Flush(m, Extend(s, Flatten(packets) + more))
    decreases packets
  {
    if packets == [] {
      assert [] + more == more;
    } else {
      var p, rest := packets[0], packets[1..];
      var tail := Flatten(rest) + more;
      AcceptsAdd(m, Accept(m, s, p), rest, more);
      DrainThenExtend(m, Extend(s, p), tail);
      FlushAfterDrain(m, Extend(s, p), tail);
      assert Extend(Extend(s, p), tail) == Extend(s, Flatten(packets) + more) by {
        assert s.audio + p + tail == s.audio + (Flatten(packets) + more);
      }
    }
  }

  /** The whole stream: any cutting of the samples into packets gives the state that the whole audio gives at once. */
  lemma PacketIndependence(m: Machine, packets: seq<seq<real>>, cache: Tensor, state: Tensor, silence: nat)
    requires m.Valid()
    ensures
      var s0 := NewStream(cache, state);
      && AcceptAll(m, s0, packets) == Accept(m, s0, Flatten(packets))
      && Finish(m, AcceptAll(m, s0, packets), silence) == Flush(m, Extend(s0, Flatten(packets) + Zeros(silence)))
  {
    var s0 := NewStream(cache, state);
    AcceptsAdd(m, s0, packets, []);
    AcceptsAdd(m, s0, packets, Zeros(silence));
    assert Flatten(packets) + [] == Flatten(packets);
    assert 0 == 0 * m.Chunk();
    AcceptedIsDrained(m, s0, packets);
    var s := AcceptAll(m, s0, packets);
    assert Extend(s, []) == s by { assert s.audio + [] == s.audio; }
  }

  /** Between packets less than a chunk is pending, and what was decoded is a whole number of chunks. */
  ghost predicate Settled(m: Machine, s: StreamState) {
    |s.audio| - s.decoded < m.Chunk() && s.decoded <= |s.audio| && Chunks(m, s.decoded)
  }

  ghost predicate Chunks(m: Machine, n: nat) {
    exists k: nat :: n == k * m.Chunk()
  }

  lemma {:induction false} DrainSettles(m: Machine, s: StreamState)
    requires m.Valid() && s.decoded <= |s.audio| && Chunks(m, s.decoded)
    ensures Settled(m, Drain(m, s))
    decreases |s.audio| - s.decoded
  {
    if |s.audio| - s.decoded >= m.Chunk() {
      NextChunk(m, s.decoded);
      DrainSettles(m, Stepped(m, s, m.chunkFrames));
    }
  }

  lemma NextChunk(m: Machine, n: nat)
    requires Chunks(m, n)
    ensures Chunks(m, n + m.Chunk())
  {
    var k: nat :| n == k * m.Chunk();
    assert n + m.Chunk() == (k + 1) * m.Chunk();
  }

  lemma {:induction false} AcceptedIsDrained(m: Machine, s: StreamState, packets: seq<seq<real>>)
    requires m.Valid() && Settled(m, s)
    ensures Settled(m, AcceptAll(m, s, packets)) && Drain(m, AcceptAll(m, s, packets)) == AcceptAll(m, s, packets)
    decreases packets
  {
    if packets != [] {
      DrainSettles(m, Extend(s, packets[0]));
      AcceptedIsDrained(m, Accept(m, s, packets[0]), packets[1..]);
    }
  }

  /** `finish` decodes whole chunks too: the count passes the end by less than one chunk. */
  lemma {:induction false} FlushEndsOnAChunk(m: Machine, s: StreamState)
    requires m.Valid() && Chunks(m, s.decoded)
    ensures Chunks(m, Flush(m, s).decoded) && Flush(m, s).decoded >= |s.audio|
    decreases |s.audio| - s.decoded
  {
    if |s.audio| > s.decoded {
      NextChunk(m, s.decoded);
      FlushEndsOnAChunk(m, Stepped(m, s, LastFrames(m, s)));
    }
  }

  // ---------------------------------------------------------------- what a stream decodes

  /** A piece: the call gets the last token and the state of the one before, and leaves both its own. */
  ghost predicate Piece(m: Model, frame: Tensor, ds: seq<Decoder>, k: nat)
    requires k < |ds| - 1
  {
    var d, out := ds[k], m.decode(frame, ds[k].last, ds[k].state);
    out.token != 1024 && ds[k + 1] == Decoder(d.cache, out.state, out.token, d.pieces + [m.vocab(out.token)])
  }

  ghost predicate Pieces(m: Model, frame: Tensor, ds: seq<Decoder>) {
    forall k :: 0 <= k < |ds| - 1 ==> Piece(m, frame, ds, k)
  }

  /** A frame decoded greedily: piece after piece until a blank, and ten at most. */
  ghost predicate Greedy(m: Model, frame: Tensor, d: Decoder, r: Decoder) {
    exists ds: seq<Decoder> ::
      && 1 <= |ds| <= 11 && ds[0] == d && ds[|ds| - 1] == r
      && Pieces(m, frame, ds)
      && (|ds| == 11 || m.decode(frame, r.last, r.state).token == 1024)
  }

  ghost predicate FrameByFrame(m: Model, encoded: Encoded, ds: seq<Decoder>) {
    forall k :: 0 <= k < |ds| - 1 ==> FrameDone(m, encoded, ds, k)
  }

  ghost predicate FrameDone(m: Model, encoded: Encoded, ds: seq<Decoder>, k: nat)
    requires k < |ds| - 1
  {
    Greedy(m, encoded.frame(k), ds[k], ds[k + 1])
  }

  /** The first frames of an encoder run: one for every eight that count, at least one, and no more than there are. */
  ghost predicate Decodes(m: Model, encoded: Encoded, validFrames: nat, d: Decoder, r: Decoder) {
    exists ds: seq<Decoder> ::
      && |ds| >= 1 && ds[0] == d.(cache := encoded.cache) && ds[|ds| - 1] == r
      && FrameByFrame(m, encoded, ds)
      && FramesCounted(|ds| - 1, encoded.length, validFrames)
  }

  ghost predicate FramesCounted(n: nat, length: nat, validFrames: nat) {
    && n <= length
    && (n <= 1 || 8 * (n - 1) < validFrames)
    && (n == length || (n >= 1 && validFrames <= 8 * n))
  }

  /** The rows for a chunk: the 512 samples around every 160th, from nine frames back, with nothing behind the chunk. */
  ghost predicate ChunkRows(m: Model, audio: seq<real>, decoded: nat, rows: seq<Tensor>) {
    && |rows| == m.chunkFrames + 9
    && forall i :: 0 <= i < |rows| ==> RowInPlace(m, Heard(m, audio, decoded), decoded / 160 - 9 + i, rows[i])
  }

  function Heard(m: Model, audio: seq<real>, decoded: nat): seq<real> {
    if |audio| <= decoded + 160 * m.chunkFrames then audio else audio[..decoded + 160 * m.chunkFrames]
  }

  ghost predicate RowInPlace(m: Model, audio: seq<real>, f: int, row: Tensor) {
    row == if 0 <= f <= |audio| / 160 then m.logMel(seq(512, j => Signal(audio, f * 160 - 256 + j))) else m.floorRow
  }

  /** One chunk decoded: one encoder run on its rows with the caches of the run before, then its frames. */
  ghost predicate ChunkDecoded(m: Model, s: StreamState, validFrames: nat, r: StreamState) {
    && r.audio == s.audio && r.decoded == s.decoded + 160 * m.chunkFrames
    && exists rows ::
      && ChunkRows(m, s.audio, s.decoded, rows)
      && Decodes(m, m.encode(rows, s.decoder.cache), validFrames, s.decoder, r.decoder)
  }

  lemma {:induction false} TokensAreGreedy(m: Model, frame: Tensor, d: Decoder, budget: nat) returns (ds: seq<Decoder>)
    ensures 1 <= |ds| <= budget + 1 && ds[0] == d && ds[|ds| - 1] == Tokens(m, frame, d, budget)
    ensures Pieces(m, frame, ds)
    ensures |ds| == budget + 1 || m.decode(frame, ds[|ds| - 1].last, ds[|ds| - 1].state).token == 1024
    decreases budget
  {
    ds := [d];
    if budget > 0 {
      var out := m.decode(frame, d.last, d.state);
      if out.token != BLANK {
        var e := d.(state := out.state, last := out.token, pieces := d.pieces + [m.vocab(out.token)]);
        var rest := TokensAreGreedy(m, frame, e, budget - 1);
        ds := [d] + rest;
        forall k | 0 <= k < |ds| - 1 ensures Piece(m, frame, ds, k) {
          if k > 0 { assert Piece(m, frame, rest, k - 1); }
        }
      }
    }
  }

  lemma FrameIsGreedy(m: Model, frame: Tensor, d: Decoder)
    ensures Greedy(m, frame, d, Tokens(m, frame, d, MAX_TOKENS))
  {
    var ds := TokensAreGreedy(m, frame, d, MAX_TOKENS);
  }

  lemma {:induction false} FramesAreGreedy(m: Model, encoded: Encoded, done: seq<Decoder>, count: nat) returns (ds: seq<Decoder>)
    requires 1 <= |done| <= count + 1 && FrameByFrame(m, encoded, done)
    ensures |ds| == count + 1 && ds[0] == done[0] && FrameByFrame(m, encoded, ds)
    ensures ds[count] == Frames(m, encoded, done[|done| - 1], |done| - 1, count)
    decreases count - |done|
  {
    ds := done;
    if |done| <= count {
      var last, frame := done[|done| - 1], encoded.frame(|done| - 1);
      FrameIsGreedy(m, frame, last);
      NextFrame(m, encoded, done, Tokens(m, frame, last, MAX_TOKENS));
      ds := FramesAreGreedy(m, encoded, done + [Tokens(m, frame, last, MAX_TOKENS)], count);
    }
  }

  lemma NextFrame(m: Model, encoded: Encoded, done: seq<Decoder>, r: Decoder)
    requires |done| >= 1 && FrameByFrame(m, encoded, done) && Greedy(m, encoded.frame(|done| - 1), done[|done| - 1], r)
    ensures FrameByFrame(m, encoded, done + [r])
  {
    forall k | 0 <= k < |done| ensures FrameDone(m, encoded, done + [r], k) {
      if k < |done| - 1 { assert FrameDone(m, encoded, done, k); }
    }
  }

  lemma CountIsCounted(encoded: Encoded, validFrames: nat)
    ensures FramesCounted(FramesToDecode(encoded, validFrames), encoded.length, validFrames)
  {}

  lemma FramesDecode(m: Model, encoded: Encoded, validFrames: nat, d: Decoder)
    ensures Decodes(m, encoded, validFrames, d, Frames(m, encoded, d.(cache := encoded.cache), 0, FramesToDecode(encoded, validFrames)))
  {
    CountIsCounted(encoded, validFrames);
    var ds := FramesAreGreedy(m, encoded, [d.(cache := encoded.cache)], FramesToDecode(encoded, validFrames));
    Collected(m, encoded, validFrames, d, ds);
  }

  lemma Collected(m: Model, encoded: Encoded, validFrames: nat, d: Decoder, ds: seq<Decoder>)
    requires |ds| >= 1 && ds[0] == d.(cache := encoded.cache) && FrameByFrame(m, encoded, ds)
    requires FramesCounted(|ds| - 1, encoded.length, validFrames)
    ensures Decodes(m, encoded, validFrames, d, ds[|ds| - 1])
  {}

  /** A step decodes the frames of its encoder run, and of each all pieces up to a blank. */
  lemma StepDecodes(m: Model, audio: seq<real>, decoded: nat, validFrames: nat, d: Decoder)
    requires audio != []
    ensures Decodes(m, m.encode(EncoderInput(m, audio, decoded), d.cache), validFrames, d, StepDecoder(m, audio, decoded, validFrames, d))
  {
    FramesDecode(m, m.encode(EncoderInput(m, audio, decoded), d.cache), validFrames, d);
  }

  /** A step of the machine decodes one chunk. */
  lemma StepDecodesChunk(m: Model, s: StreamState, validFrames: nat)
    requires m.chunkFrames > 0 && s.decoded < |s.audio|
    ensures ChunkDecoded(m, s, validFrames, Stepped(MachineOf(m), s, validFrames))
  {
    var heard := Heard(m, s.audio, s.decoded);
    assert heard == Upto(MachineOf(m), s.audio, s.decoded);
    var rows := EncoderInput(m, heard, s.decoded);
    forall i | 0 <= i < |rows| ensures RowInPlace(m, heard, s.decoded / 160 - 9 + i, rows[i]) {
      EncoderSeesFramesInPlace(m, heard, s.decoded, i);
      var f := s.decoded / 160 - 9 + i;
      if 0 <= f { assert Window(heard, f) == seq(512, j => Signal(heard, f * 160 - 256 + j)); }
    }
    assert ChunkRows(m, s.audio, s.decoded, rows);
    StepDecodes(m, heard, s.decoded, validFrames, s.decoder);
  }

  ghost predicate WholeChunks(m: Model, ss: seq<StreamState>) {
    forall k :: 0 <= k < |ss| - 1 ==>
      |ss[k].audio| - ss[k].decoded >= 160 * m.chunkFrames && ChunkDecoded(m, ss[k], m.chunkFrames, ss[k + 1])
  }

  lemma {:induction false} DrainDecodesChunks(m: Model, s: StreamState) returns (ss: seq<StreamState>)
    requires m.chunkFrames > 0
    ensures |ss| >= 1 && ss[0] == s && ss[|ss| - 1] == Drain(MachineOf(m), s)
    ensures |ss[|ss| - 1].audio| - ss[|ss| - 1].decoded < 160 * m.chunkFrames
    ensures WholeChunks(m, ss)
    decreases |s.audio| - s.decoded
  {
    ss := [s];
    if |s.audio| - s.decoded >= MachineOf(m).Chunk() {
      StepDecodesChunk(m, s, m.chunkFrames);
      var rest := DrainDecodesChunks(m, Stepped(MachineOf(m), s, m.chunkFrames));
      ss := [s] + rest;
      forall k | 0 <= k < |ss| - 1
        ensures |ss[k].audio| - ss[k].decoded >= 160 * m.chunkFrames && ChunkDecoded(m, ss[k], m.chunkFrames, ss[k + 1])
      {
        if k > 0 { assert ChunkDecoded(m, rest[k - 1], m.chunkFrames, rest[k - 1 + 1]); }
      }
    }
  }

  /** A packet: chunk after chunk is decoded while a whole one is pending, each once and in order. */
  lemma AcceptDecodesChunks(m: Model, s: StreamState, samples: seq<real>)
    requires m.chunkFrames > 0
    ensures exists ss: seq<StreamState> ::
      && |ss| >= 1
      && ss[0] == StreamState(s.audio + samples, s.decoded, s.decoder)
      && ss[|ss| - 1] == Accept(MachineOf(m), s, samples)
      && WholeChunks(m, ss)
      && |ss[|ss| - 1].audio| - ss[|ss| - 1].decoded < 160 * m.chunkFrames
  {
    var ss := DrainDecodesChunks(m, Extend(s, samples));
  }

  /** What is left at the end: a chunk counts one frame for every 160 samples, a begun one included. */
  ghost predicate LastChunk(m: Model, s: StreamState, r: StreamState) {
    exists validFrames: nat ::
      && ChunkDecoded(m, s, validFrames, r)
      && 160 * (validFrames - 1) < |s.audio| - s.decoded
      && validFrames <= m.chunkFrames
      && (validFrames == m.chunkFrames || |s.audio| - s.decoded <= 160 * validFrames)
  }

  ghost predicate LastChunks(m: Model, ss: seq<StreamState>) {
    forall k :: 0 <= k < |ss| - 1 ==> ss[k].decoded < |ss[k].audio| && LastChunk(m, ss[k], ss[k + 1])
  }

  lemma StepDecodesLastChunk(m: Model, s: StreamState)
    requires m.chunkFrames > 0 && s.decoded < |s.audio|
    ensures LastChunk(m, s, Stepped(MachineOf(m), s, LastFrames(MachineOf(m), s)))
  {
    StepDecodesChunk(m, s, LastFrames(MachineOf(m), s));
  }

  lemma {:induction false} FlushDecodesChunks(m: Model, s: StreamState) returns (ss: seq<StreamState>)
    requires m.chunkFrames > 0
    ensures |ss| >= 1 && ss[0] == s && ss[|ss| - 1] == Flush(MachineOf(m), s)
    ensures |ss[|ss| - 1].audio| <= ss[|ss| - 1].decoded
    ensures LastChunks(m, ss)
    decreases |s.audio| - s.decoded
  {
    ss := [s];
    if |s.audio| > s.decoded {
      StepDecodesLastChunk(m, s);
      var rest := FlushDecodesChunks(m, Stepped(MachineOf(m), s, LastFrames(MachineOf(m), s)));
      ss := [s] + rest;
      forall k | 0 <= k < |ss| - 1 ensures ss[k].decoded < |ss[k].audio| && LastChunk(m, ss[k], ss[k + 1]) {
        if k > 0 { assert LastChunk(m, rest[k - 1], rest[k - 1 + 1]); }
      }
    }
  }

  /** The end: silence is appended, and chunk after chunk is decoded until the samples are used up. */
  lemma FinishDecodesChunks(m: Model, s: StreamState, silence: nat)
    requires m.chunkFrames > 0
    ensures exists ss: seq<StreamState> ::
      && |ss| >= 1
      && ss[0] == StreamState(s.audio + seq(silence, i => 0.0), s.decoded, s.decoder)
      && ss[|ss| - 1] == Finish(MachineOf(m), s, silence)
      && LastChunks(m, ss)
      && |ss[|ss| - 1].audio| <= ss[|ss| - 1].decoded
  {
    assert Zeros(silence) == seq(silence, i => 0.0);
    var ss := FlushDecodesChunks(m, Extend(s, Zeros(silence)));
  }

  // ---------------------------------------------------------------- the stream object

  class Stream {
    const model: Model
    const machine: Machine
    var audio: seq<real>
    var samplesDecoded: nat
    var cache: Tensor
    var state: Tensor
    var last: int
    var pieces: seq<string>

    function View(): StreamState
      reads this
    {
      StreamState(audio, samplesDecoded, Decoder(cache, state, last, pieces))
    }

    ghost predicate Valid()
      reads this
    {
      machine == MachineOf(model) && machine.Valid() && Settled(machine, View())
    }

    constructor (model: Model, cache: Tensor, state: Tensor)
      requires model.chunkFrames > 0
      ensures Valid() && View() == NewStream(cache, state) == StreamState([], 0, Decoder(cache, state, 1024, []))
      ensures this.model == model
    {
      this.model, machine := model, MachineOf(model);
      audio, samplesDecoded := [], 0;
      this.cache, this.state, last, pieces := cache, state, BLANK, [];
      new;
      assert 0 == 0 * machine.Chunk();
    }

    method AcceptSamples(samples: seq<real>)
      requires Valid()
      modifies this
      ensures Valid() && View() == Accept(machine, old(View()), samples)
    {
      audio := audio + samples;
      DrainSettles(machine, View());
      while |audio| - samplesDecoded >= machine.Chunk()
        invariant Drain(machine, View()) == Accept(machine, old(View()), samples)
        decreases |audio| - samplesDecoded
      {
        ghost var before := View();
        Step(machine.chunkFrames);
        samplesDecoded := samplesDecoded + machine.Chunk();
        assert View() == Stepped(machine, before, machine.chunkFrames);
      }
    }

    method FinishStream(silence: nat) returns (text: seq<string>)
      requires Valid()
      modifies this
      ensures View() == Finish(machine, old(View()), silence) && text == pieces
    {
      audio := audio + Zeros(silence);
      while |audio| > samplesDecoded
        invariant Flush(machine, View()) == Finish(machine, old(View()), silence)
        decreases |audio| - samplesDecoded
      {
        FlushChunk();
      }
      text := pieces;
    }

    method FlushChunk()
      requires machine == MachineOf(model) && machine.Valid() && |audio| > samplesDecoded
      modifies this`samplesDecoded, this`cache, this`state, this`last, this`pieces
      ensures View() == Stepped(machine, old(View()), LastFrames(machine, old(View())))
    {
      var validFrames := LastFrames(machine, View());
      Step(validFrames);
      samplesDecoded := samplesDecoded + machine.Chunk();
    }

    /** `_step`: one encoder run, then a greedy decoder loop over its frames. */
    method Step(validFrames: nat)
      requires machine == MachineOf(model) && machine.Valid() && samplesDecoded < |audio|
      modifies this`cache, this`state, this`last, this`pieces
      ensures View().decoder == machine.step(Upto(machine, audio, samplesDecoded), samplesDecoded, validFrames, old(View().decoder))
    {
      var upto := Upto(machine, audio, samplesDecoded);
      var encoded := model.encode(EncoderInput(model, upto, samplesDecoded), cache);
      cache := encoded.cache;
      DecodeFrames(encoded, FramesToDecode(encoded, validFrames));
    }

    method DecodeFrames(encoded: Encoded, n: nat)
      modifies this`state, this`last, this`pieces
      ensures View().decoder == Frames(model, encoded, old(View().decoder), 0, n)
    {
      ghost var start := View().decoder;
      for frame := 0 to n
        invariant Frames(model, encoded, View().decoder, frame, n) == Frames(model, encoded, start, 0, n)
      {
        ghost var before := View().decoder;
        DecodeFrame(encoded.frame(frame));
        assert View().decoder == Tokens(model, encoded.frame(frame), before, MAX_TOKENS);
      }
    }

    method DecodeFrame(frame: Tensor)
      modifies this`state, this`last, this`pieces
      ensures View().decoder == Tokens(model, frame, old(View().decoder), MAX_TOKENS)
    {
      ghost var before := View().decoder;
      var k := 0;
      while k < MAX_TOKENS
        invariant 0 <= k <= MAX_TOKENS
        invariant Tokens(model, frame, View().decoder, MAX_TOKENS - k) == Tokens(model, frame, before, MAX_TOKENS)
      {
        var out := model.decode(frame, last, state);
        if out.token == BLANK { break; }
        pieces := pieces + [model.vocab(out.token)];
        last, state := out.token, out.state;
        k := k + 1;
      }
    }
  }
}
