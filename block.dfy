/**
  The data model of the dataflow engine (src/block.rs): block identifiers and
  ports, the sample clock, the lane container IOData, the Block record, the two
  closure adapters and the per-frame adapter `frame_block!`.

  Samples are `real`; block computations are uninterpreted function values that
  write into the output buffer they are given without resizing it.
*/
module Block {

  /** Process-unique block identifier (a random UUID in the source). */
  datatype BlockId = BlockId(uuid: nat)

  /** One input or output lane of a block. */
  datatype Port = Port(blockId: BlockId, port: nat)

  /** `BlockId::port`: the port with index `k` of block `id`. */
  function PortOf(id: BlockId, k: nat): (p: Port)
    ensures p.blockId == id && p.port == k
  {
    Port(id, k)
  }

  /**
    The sample clock. It is a `Copy` value in the source and every computation
    receives it by value, so the in-place `tick` of the source is modelled by
    replacing the holder's value with `Tick()`.
  */
  datatype Time = Time(sampleRate: nat, sample: nat) {

    /** `Time::sample`: the number of samples elapsed since the clock started. */
    function Sample(): (s: nat)
      ensures s == sample
    {
      sample
    }

    /** `Time::tick`: one more sample. */
    function Tick(): (t: Time)
      ensures t.sampleRate == sampleRate
      ensures t.Sample() == Sample() + 1
    {
      Time(sampleRate, sample + 1)
    }

    /** `Time::tick_by_buffer`: advance by one interleaved buffer; a zero channel count divides by zero. */
    function TickByBuffer(bufferSize: nat, numChannels: nat): (t: Time)
      requires numChannels > 0
      ensures t.sampleRate == sampleRate
      ensures t.Sample() == Sample() + bufferSize / numChannels
    {
      Time(sampleRate, sample + bufferSize / numChannels)
    }

    /** The clock after `n` calls of `Tick`. */
    function Ticks(n: nat): Time
      decreases n
    {
      if n == 0 then this else Ticks(n - 1).Tick()
    }
  }

  /** `Time::new`: asserts a positive rate, then starts at sample 0. */
  function NewTime(sampleRate: nat): (t: Time)
    requires sampleRate > 0
    ensures t.sampleRate == sampleRate && t.Sample() == 0
  {
    Time(sampleRate, 0)
  }

  /** `n` ticks advance the sample count by exactly `n` and keep the rate. */
  lemma {:induction false} TicksAdvance(t: Time, n: nat)
    ensures t.Ticks(n).sampleRate == t.sampleRate
    ensures t.Ticks(n).Sample() == t.Sample() + n
    decreases n
  {
    if n > 0 {
      TicksAdvance(t, n - 1);
    }
  }

  /**
    Ticking once per frame over a buffer of `bufferSize` interleaved samples
    lands on the same clock as one `TickByBuffer`, and the clock never goes back.
  */
  lemma FrameTicksMatchBufferTick(t: Time, bufferSize: nat, numChannels: nat)
    requires numChannels > 0
    ensures t.Ticks(bufferSize / numChannels) == t.TickByBuffer(bufferSize, numChannels)
    ensures t.TickByBuffer(bufferSize, numChannels).Sample() >= t.Sample()
  {
    TicksAdvance(t, bufferSize / numChannels);
  }

  type Lane = seq<real>

  /** `IOData`: an ordered sequence of sample lanes ("ports"). */
  type IOData = seq<Lane>

  /** A lane of `n` zero samples. */
  function Zeros(n: nat): (z: Lane)
    ensures |z| == n
    ensures forall k :: 0 <= k < n ==> z[k] == 0.0
  {
    seq(n, k => 0.0)
  }

  /** `IOData::new`. */
  function NewIOData(portLen: nat, bufferSize: nat): (d: IOData)
    ensures |d| == portLen
    ensures forall p :: 0 <= p < portLen ==> d[p] == Zeros(bufferSize)
  {
    seq(portLen, p => Zeros(bufferSize))
  }

  /** `IOData::port_len`: the number of lanes. */
  function PortLen(d: IOData): (n: nat)
    ensures n == |d|
  {
    |d|
  }

  /** `IOData::buffer_size`: the first lane's length; `first().unwrap()` panics without lanes. */
  function BufferSize(d: IOData): (n: nat)
    requires |d| > 0
    ensures n == |d[0]|
  {
    |d[0]|
  }

  /** The accessors read back what `IOData::new` was given. */
  lemma NewIODataShape(portLen: nat, bufferSize: nat)
    requires portLen > 0
    ensures PortLen(NewIOData(portLen, bufferSize)) == portLen
    ensures BufferSize(NewIOData(portLen, bufferSize)) == bufferSize
  {
  }

  /** Same lane count and the same length lane by lane. */
  ghost predicate SameShape(a: IOData, b: IOData)
  {
    |a| == |b| && forall p :: 0 <= p < |a| ==> |a[p]| == |b[p]|
  }

  /**
    A block computation `Fn(Time, &IOData, &mut IOData, usize)`: given the clock,
    the inputs, the output buffer and the channel count, it yields the output
    buffer after writing into it (same shape).
  */
  ghost predicate KeepsShape(f: (Time, IOData, IOData, nat) -> IOData)
  {
    forall t, i, o, c :: SameShape(f(t, i, o, c), o)
  }

  type Compute = f: (Time, IOData, IOData, nat) -> IOData
    | KeepsShape(f)
    witness (t: Time, i: IOData, o: IOData, c: nat) => o

  /** A computation without inputs, `Fn(Time, &mut IOData, usize)`. */
  type Generator = g: (Time, IOData, nat) -> IOData
    | forall t, o, c :: SameShape(g(t, o, c), o)
    witness (t: Time, o: IOData, c: nat) => o

  /**
    The Block record: its computation, declared port count, last computed data,
    `inputs` (predecessor id -> set of (predecessor port, own port)), the number
    of `connect` calls targeting it (`d_in`) and the dependencies still
    unresolved in the current evaluation (`d_in_cur`).
  */
  datatype Block = Block(
    process: Compute,
    portLen: nat,
    inputs: map<BlockId, set<(nat, nat)>>,
    data: IOData,
    dIn: nat,
    dInCur: nat)

  /** `Block::new`. */
  function NewBlock(process: Compute, portLen: nat, bufferSize: nat): (b: Block)
    ensures b.process == process && b.portLen == portLen
    ensures b.inputs == map[] && b.dIn == 0 && b.dInCur == 0
    ensures |b.data| == portLen && forall p :: 0 <= p < portLen ==> b.data[p] == Zeros(bufferSize)
  {
    Block(process, portLen, map[], NewIOData(portLen, bufferSize), 0, 0)
  }

  /** Port count and buffer length used by both `IntoBlock` impls. */
  const IntoBlockPorts: nat := 256
  const IntoBlockBufferSize: nat := 512

  /** `IntoBlock<WithInput>`: the closure itself becomes the computation. */
  function IntoBlockWithInput(f: Compute): (b: Block)
    ensures b.process == f
    ensures b.portLen == 256 && |b.data| == 256
    ensures forall p :: 0 <= p < 256 ==> b.data[p] == Zeros(512)
    ensures b.inputs == map[] && b.dIn == 0 && b.dInCur == 0
  {
    NewBlock(f, IntoBlockPorts, IntoBlockBufferSize)
  }

  /** The `WithoutInput` wrapper closure: drops the inputs and calls the generator. */
  function IgnoreInputs(g: Generator): (f: Compute)
    ensures forall t, i, o, c :: f(t, i, o, c) == g(t, o, c)
  {
    (t: Time, i: IOData, o: IOData, c: nat) => g(t, o, c)
  }

  /** `IntoBlock<WithoutInput>`: the resulting computation never reads its inputs. */
  function IntoBlockWithoutInput(g: Generator): (b: Block)
    ensures forall t, i, o, c :: b.process(t, i, o, c) == g(t, o, c)
    ensures forall t, i1, i2, o, c :: b.process(t, i1, o, c) == b.process(t, i2, o, c)
    ensures b.portLen == 256 && |b.data| == 256
    ensures forall p :: 0 <= p < 256 ==> b.data[p] == Zeros(512)
    ensures b.inputs == map[] && b.dIn == 0 && b.dInCur == 0
  {
    NewBlock(IgnoreInputs(g), IntoBlockPorts, IntoBlockBufferSize)
  }

  // ---------------------------------------------------------------------------
  // frame_block!: run a per-frame computation over a whole buffer.
  // ---------------------------------------------------------------------------

  /** The number of whole frames of `c` interleaved samples in the first input lane. */
  function NumFrames(inputs: IOData, c: nat): nat
    requires |inputs| > 0 && c > 0
  {
    BufferSize(inputs) / c
  }

  /** Every input lane holds all whole frames (slicing panics otherwise). */
  predicate InputsFit(inputs: IOData, c: nat)
  {
    && c > 0
    && |inputs| > 0
    && (forall p :: 0 <= p < |inputs| ==> NumFrames(inputs, c) * c <= |inputs[p]|)
  }

  /**
    The adapter does not panic: a positive channel count, at least one input
    lane, and every input and output lane long enough for all whole frames.
  */
  predicate FrameFits(inputs: IOData, outputs: IOData, c: nat)
  {
    && InputsFit(inputs, c)
    && (forall p :: 0 <= p < |outputs| ==> NumFrames(inputs, c) * c <= |outputs[p]|)
  }

  /** Frame `f`'s inputs: lane `p` is `inputs[p][f*c .. f*c + c]`. */
  function FrameInputs(inputs: IOData, f: nat, c: nat): (fi: IOData)
    requires InputsFit(inputs, c) && f < NumFrames(inputs, c)
    ensures |fi| == |inputs|
    ensures forall p :: 0 <= p < |inputs| ==> f * c + c <= |inputs[p]| && fi[p] == inputs[p][f * c .. f * c + c]
  {
    FrameEnd(f, NumFrames(inputs, c), c);
    seq(|inputs|, p requires 0 <= p < |inputs| => inputs[p][f * c .. f * c + c])
  }

  /**
    What `block_fn` writes for frame `f`: it sees that frame's input slices, a
    zeroed frame output buffer, and the caller's clock advanced by `f` ticks.
  */
  function FrameOutput(blockFn: Compute, time: Time, inputs: IOData, portCount: nat, f: nat, c: nat): (fo: IOData)
    requires InputsFit(inputs, c) && f < NumFrames(inputs, c)
    ensures |fo| == portCount && forall p :: 0 <= p < portCount ==> |fo[p]| == c
  {
    blockFn(time.Ticks(f), FrameInputs(inputs, f, c), NewIOData(portCount, c), c)
  }

  /** Division facts for a position inside frame `f`. */
  lemma InFrame(k: nat, f: nat, c: nat)
    requires c > 0 && f * c <= k < f * c + c
    ensures k / c == f && k % c == k - f * c
  {
    var q, r := k / c, k % c;
    assert k == q * c + r && 0 <= r < c;
    if q < f {
      assert q + 1 <= f;
      assert (q + 1) * c <= f * c by { MulLeq(q + 1, f, c); }
      assert false;
    } else if q > f {
      assert f + 1 <= q;
      assert (f + 1) * c <= q * c by { MulLeq(f + 1, q, c); }
      assert false;
    }
  }

  lemma MulLeq(a: nat, b: nat, c: nat)
    requires a <= b
    ensures a * c <= b * c
  {
  }

  /** Frame `f` ends within `nf * c` when `f < nf`. */
  lemma FrameEnd(f: nat, nf: nat, c: nat)
    requires f < nf
    ensures f * c + c <= nf * c
  {
    MulLeq(f + 1, nf, c);
  }

  /** A position below `nf * c` lies in one of the first `nf` frames. */
  lemma FrameOfPosition(k: nat, nf: nat, c: nat)
    requires c > 0 && k < nf * c
    ensures k / c < nf
  {
    if k / c >= nf {
      MulLeq(nf, k / c, c);
      assert false;
    }
  }

  /** Sample `k` of output lane `p`, inside a whole frame: slot `k % c` of frame `k / c`. */
  function FrameSample(blockFn: Compute, time: Time, inputs: IOData, portCount: nat, c: nat, p: nat, k: nat): real
    requires InputsFit(inputs, c) && p < portCount && k < NumFrames(inputs, c) * c
  {
    FrameOfPosition(k, NumFrames(inputs, c), c);
    FrameOutput(blockFn, time, inputs, portCount, k / c, c)[p][k % c]
  }

  /**
    The buffer `frame_block!` leaves in `outputs`: sample `k` of a whole frame
    comes from that frame's output; samples from `NumFrames * c` on are untouched.
  */
  function FrameBlockOf(blockFn: Compute, time: Time, inputs: IOData, outputs: IOData, c: nat): (r: IOData)
    requires FrameFits(inputs, outputs, c)
    ensures SameShape(r, outputs)
  {
    var nf := NumFrames(inputs, c);
    seq(|outputs|, p requires 0 <= p < |outputs| =>
      seq(|outputs[p]|, k requires 0 <= k < |outputs[p]| =>
        if k < nf * c then FrameSample(blockFn, time, inputs, |outputs|, c, p, k) else outputs[p][k]))
  }

  /** One sample of `FrameBlockOf`, unfolded. */
  lemma FrameBlockAt(blockFn: Compute, time: Time, inputs: IOData, outputs: IOData, c: nat, p: nat, k: nat)
    requires FrameFits(inputs, outputs, c)
    requires p < |outputs| && k < |outputs[p]|
    ensures FrameBlockOf(blockFn, time, inputs, outputs, c)[p][k]
         == if k < NumFrames(inputs, c) * c then FrameSample(blockFn, time, inputs, |outputs|, c, p, k)
            else outputs[p][k]
  {
  }

  /**
    Frame `f < NumFrames` of output lane `p`, i.e. the slice `[f*c, f*c + c)`,
    is exactly what `block_fn` wrote for frame `f`.
  */
  lemma FrameBlockFrame(blockFn: Compute, time: Time, inputs: IOData, outputs: IOData, c: nat, p: nat, f: nat)
    requires FrameFits(inputs, outputs, c)
    requires p < |outputs| && f < NumFrames(inputs, c)
    ensures f * c + c <= |FrameBlockOf(blockFn, time, inputs, outputs, c)[p]|
    ensures FrameBlockOf(blockFn, time, inputs, outputs, c)[p][f * c .. f * c + c]
         == FrameOutput(blockFn, time, inputs, |outputs|, f, c)[p]
  {
    var nf := NumFrames(inputs, c);
    var r := FrameBlockOf(blockFn, time, inputs, outputs, c);
    var fo := FrameOutput(blockFn, time, inputs, |outputs|, f, c);
    FrameEnd(f, nf, c);
    assert |r[p]| == |outputs[p]|;
    var start := f * c;
    forall j | 0 <= j < c
      ensures r[p][start + j] == fo[p][j]
    {
      var k := start + j;
      InFrame(k, f, c);
      FrameBlockAt(blockFn, time, inputs, outputs, c, p, k);
      assert k < nf * c;
      assert r[p][k] == FrameSample(blockFn, time, inputs, |outputs|, c, p, k);
    }
    assert r[p][start .. start + c] == fo[p];
  }

  /** Samples at or beyond `NumFrames * c` keep the value the caller's buffer had. */
  lemma FrameBlockTail(blockFn: Compute, time: Time, inputs: IOData, outputs: IOData, c: nat, p: nat, k: nat)
    requires FrameFits(inputs, outputs, c)
    requires p < |outputs| && NumFrames(inputs, c) * c <= k < |outputs[p]|
    ensures FrameBlockOf(blockFn, time, inputs, outputs, c)[p][k] == outputs[p][k]
  {
    FrameBlockAt(blockFn, time, inputs, outputs, c, p, k);
  }

  /** Output lanes `[0, upTo)` hold frame `f`'s output in `[f*c, f*c+c)`; everything else is `prev`. */
  ghost predicate FrameWritten(result: IOData, prev: IOData, fo: IOData, upTo: nat, start: nat, c: nat)
    requires SameShape(result, prev) && upTo <= |prev|
    requires forall p :: 0 <= p < |prev| ==> start + c <= |prev[p]|
    requires |fo| == |prev| && forall p :: 0 <= p < |prev| ==> |fo[p]| == c
  {
    forall p, k :: 0 <= p < |prev| && 0 <= k < |prev[p]| ==>
      result[p][k] == if p < upTo && start <= k < start + c then fo[p][k - start] else prev[p][k]
  }

  /** Copies frame `f`'s input slices into the reused frame input buffer (`copy_from_slice` per lane). */
  method LoadFrameInputs(frameInputs: IOData, inputs: IOData, f: nat, c: nat) returns (loaded: IOData)
    requires InputsFit(inputs, c) && f < NumFrames(inputs, c)
    requires |frameInputs| == |inputs| && forall p :: 0 <= p < |inputs| ==> |frameInputs[p]| == c
    ensures loaded == FrameInputs(inputs, f, c)
  {
    FrameEnd(f, NumFrames(inputs, c), c);
    var start := f * c;
    var end := start + c;
    assert forall q :: 0 <= q < |inputs| ==> end <= |inputs[q]|;
    loaded := frameInputs;
    var p := 0;
    while p < |inputs|
      invariant 0 <= p <= |inputs|
      invariant |loaded| == |inputs|
      invariant forall q :: 0 <= q < p ==> loaded[q] == inputs[q][start..end]
    {
      loaded := loaded[p := inputs[p][start..end]];
      p := p + 1;
    }
  }

  /**
    Copies each frame output lane into `outputs[p][start .. start + c]` and then
    zeroes it (`fill(0.0)`), so the next frame starts from a zero buffer.
  */
  method StoreFrameOutputs(outputs: IOData, frameOutputs: IOData, start: nat, c: nat)
    returns (stored: IOData, cleared: IOData)
    requires |frameOutputs| == |outputs| && forall p :: 0 <= p < |outputs| ==> |frameOutputs[p]| == c
    requires forall p :: 0 <= p < |outputs| ==> start + c <= |outputs[p]|
    ensures SameShape(stored, outputs)
    ensures FrameWritten(stored, outputs, frameOutputs, |outputs|, start, c)
    ensures cleared == NewIOData(|outputs|, c)
  {
    stored, cleared := outputs, frameOutputs;
    var p := 0;
    while p < |outputs|
      invariant 0 <= p <= |outputs|
      invariant SameShape(stored, outputs)
      invariant FrameWritten(stored, outputs, frameOutputs, p, start, c)
      invariant |cleared| == |outputs|
      invariant forall q :: 0 <= q < p ==> cleared[q] == Zeros(c)
      invariant forall q :: p <= q < |outputs| ==> cleared[q] == frameOutputs[q]
    {
      stored := stored[p := stored[p][..start] + cleared[p] + stored[p][start + c..]];
      cleared := cleared[p := Zeros(c)];
      p := p + 1;
    }
  }

  /** After storing frame `f` at `start = f * c`, the buffer agrees with `FrameBlockOf` on all samples before `start + c`. */
  lemma NextFrame(blockFn: Compute, time: Time, inputs: IOData, outputs: IOData, c: nat, f: nat, start: nat, prev: IOData, result: IOData)
    requires FrameFits(inputs, outputs, c) && f < NumFrames(inputs, c) && start == f * c
    requires SameShape(prev, outputs) && SameShape(result, outputs)
    requires forall p :: 0 <= p < |outputs| ==> start + c <= |outputs[p]|
    requires forall p, k :: 0 <= p < |outputs| && 0 <= k < |outputs[p]| ==>
      prev[p][k] == if k < start then FrameBlockOf(blockFn, time, inputs, outputs, c)[p][k] else outputs[p][k]
    requires FrameWritten(result, prev, FrameOutput(blockFn, time, inputs, |outputs|, f, c), |outputs|, start, c)
    ensures forall p, k :: 0 <= p < |outputs| && 0 <= k < |outputs[p]| ==>
      result[p][k] == if k < start + c then FrameBlockOf(blockFn, time, inputs, outputs, c)[p][k] else outputs[p][k]
  {
    var fo := FrameOutput(blockFn, time, inputs, |outputs|, f, c);
    forall p, k | 0 <= p < |outputs| && 0 <= k < |outputs[p]|
      ensures result[p][k] == if k < start + c then FrameBlockOf(blockFn, time, inputs, outputs, c)[p][k] else outputs[p][k]
    {
      if start <= k < start + c {
        FrameSlot(blockFn, time, inputs, outputs, c, f, start, p, k);
        assert result[p][k] == fo[p][k - start];
      }
    }
  }

  /** Sample `k` of frame `f` in `FrameBlockOf` is slot `k - f*c` of that frame's output. */
  lemma FrameSlot(blockFn: Compute, time: Time, inputs: IOData, outputs: IOData, c: nat, f: nat, start: nat, p: nat, k: nat)
    requires FrameFits(inputs, outputs, c) && f < NumFrames(inputs, c) && start == f * c
    requires p < |outputs| && start <= k < start + c && k < |outputs[p]|
    ensures FrameBlockOf(blockFn, time, inputs, outputs, c)[p][k] == FrameOutput(blockFn, time, inputs, |outputs|, f, c)[p][k - start]
  {
    InFrame(k, f, c);
    FrameEnd(f, NumFrames(inputs, c), c);
    FrameBlockAt(blockFn, time, inputs, outputs, c, p, k);
  }

  /** `result` agrees with `target` on samples before `upTo`, and with `outputs` from there on. */
  ghost predicate DoneUpTo(target: IOData, outputs: IOData, result: IOData, upTo: nat)
    requires SameShape(target, outputs) && SameShape(result, outputs)
  {
    forall p, k :: 0 <= p < |outputs| && 0 <= k < |outputs[p]| ==>
      result[p][k] == if k < upTo then target[p][k] else outputs[p][k]
  }

  /**
    One iteration of the frame loop: loads frame `f`'s inputs, runs `block_fn`
    on them with the frame clock `t`, stores its output and clears the frame
    output buffer.
  */
  method RunFrame(blockFn: Compute, time: Time, inputs: IOData, outputs: IOData, c: nat, f: nat, t: Time,
                  frameInputs: IOData, frameOutputs: IOData, result: IOData)
    returns (loaded: IOData, cleared: IOData, stored: IOData)
    requires FrameFits(inputs, outputs, c) && f < NumFrames(inputs, c) && t == time.Ticks(f)
    requires |frameInputs| == |inputs| && forall p :: 0 <= p < |inputs| ==> |frameInputs[p]| == c
    requires frameOutputs == NewIOData(|outputs|, c)
    requires SameShape(result, outputs) && DoneUpTo(FrameBlockOf(blockFn, time, inputs, outputs, c), outputs, result, f * c)
    ensures |loaded| == |inputs| && forall p :: 0 <= p < |inputs| ==> |loaded[p]| == c
    ensures cleared == NewIOData(|outputs|, c)
    ensures SameShape(stored, outputs) && DoneUpTo(FrameBlockOf(blockFn, time, inputs, outputs, c), outputs, stored, (f + 1) * c)
  {
    var start := f * c;
    FrameEnd(f, NumFrames(inputs, c), c);
    assert forall q :: 0 <= q < |outputs| ==> start + c <= |result[q]|;
    loaded := LoadFrameInputs(frameInputs, inputs, f, c);
    var written := blockFn(t, loaded, frameOutputs, c);
    assert written == FrameOutput(blockFn, time, inputs, |outputs|, f, c);
    stored, cleared := StoreFrameOutputs(result, written, start, c);
    NextFrame(blockFn, time, inputs, outputs, c, f, start, result, stored);
    assert (f + 1) * c == start + c;
  }

  /**
    The `frame_block!` adapter body: slices the buffer into frames of
    `numChannels` samples, runs `block_fn` on each with a local clock that
    ticks once per frame, copies each frame output back, and zeroes the frame
    output buffer before the next frame.
  */
  method FrameBlock(blockFn: Compute, time: Time, inputs: IOData, outputs: IOData, numChannels: nat)
    returns (result: IOData)
    requires FrameFits(inputs, outputs, numChannels)
    ensures result == FrameBlockOf(blockFn, time, inputs, outputs, numChannels)
  {
    var c := numChannels;
    var bufferSize := BufferSize(inputs);
    var numFrames := bufferSize / c;
    var portCount := PortLen(inputs);
    var frameInputs := NewIOData(portCount, c);
    var frameOutputs := NewIOData(|outputs|, c);
    var t := time;
    result := outputs;
    ghost var target := FrameBlockOf(blockFn, time, inputs, outputs, c);
    var f := 0;
    while f < numFrames
      invariant 0 <= f <= numFrames
      invariant t == time.Ticks(f)
      invariant frameOutputs == NewIOData(|outputs|, c)
      invariant |frameInputs| == portCount && forall p :: 0 <= p < portCount ==> |frameInputs[p]| == c
      invariant SameShape(result, outputs) && DoneUpTo(target, outputs, result, f * c)
    {
      frameInputs, frameOutputs, result := RunFrame(blockFn, time, inputs, outputs, c, f, t, frameInputs, frameOutputs, result);
      t := t.Tick();
      f := f + 1;
    }
    AllFramesCovered(blockFn, time, inputs, outputs, c, result);
  }

  /** A buffer agreeing with `FrameBlockOf` on every whole frame, and with `outputs` after them, is `FrameBlockOf`. */
  lemma AllFramesCovered(blockFn: Compute, time: Time, inputs: IOData, outputs: IOData, c: nat, result: IOData)
    requires FrameFits(inputs, outputs, c) && SameShape(result, outputs)
    requires DoneUpTo(FrameBlockOf(blockFn, time, inputs, outputs, c), outputs, result, NumFrames(inputs, c) * c)
    ensures result == FrameBlockOf(blockFn, time, inputs, outputs, c)
  {
    var r := FrameBlockOf(blockFn, time, inputs, outputs, c);
    forall q | 0 <= q < |outputs|
      ensures result[q] == r[q]
    {
      forall k | 0 <= k < |outputs[q]|
        ensures result[q][k] == r[q][k]
      {
        FrameBlockAt(blockFn, time, inputs, outputs, c, q, k);
      }
    }
  }

  /** `frame_block!` as a block computation; on a buffer it cannot slice the source panics, here the outputs stay as given. */
  function FrameBlockAdapter(blockFn: Compute): (adapter: Compute)
    ensures forall t, i, o, c :: FrameFits(i, o, c) ==> adapter(t, i, o, c) == FrameBlockOf(blockFn, t, i, o, c)
  {
    (t: Time, i: IOData, o: IOData, c: nat) => if FrameFits(i, o, c) then FrameBlockOf(blockFn, t, i, o, c) else o
  }

  /**
    Buffers the engine hands to a computation always fit the adapter: at least
    one input and one output lane, every lane of both holding the same
    `bufferSize` samples, and a positive channel count.
  */
  lemma EngineBuffersFit(i: IOData, o: IOData, bufferSize: nat, c: nat)
    requires |i| > 0 && |o| > 0 && c > 0
    requires forall p :: 0 <= p < |i| ==> |i[p]| == bufferSize
    requires forall p :: 0 <= p < |o| ==> |o[p]| == bufferSize
    ensures FrameFits(i, o, c)
  {
    assert NumFrames(i, c) * c <= bufferSize by {
      var nf := bufferSize / c;
      assert nf * c + bufferSize % c == bufferSize;
    }
  }
}
