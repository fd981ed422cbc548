/**
  The uniformly partitioned convolution reverb of src/effects.rs and its
  per-channel wrapper.

  `ConvolveReverb` cuts the impulse response into sub-filters of
  `subFilterSize` taps, keeps a sliding window of the last two input blocks
  (`2 * bufferSize` samples), and sums, per output sample, one time-domain
  block per sub-filter. `ConvolveChannels` de-interleaves a multichannel
  buffer, runs one reverb per channel and interleaves the results.

  The spectral work (forward FFT, complex multiply, inverse FFT, division by
  the transform size) is not modelled: the forward transform of the
  constructor is the parameter `fft`, and the whole chain from one input
  window and one transformed sub-filter to the normalised time-domain block is
  the parameter `spectral`. Both only promise to keep the length.
*/
module Effects {
  import Block

  datatype Complex = Complex(re: real, im: real)

  const ComplexZero: Complex := Complex(0.0, 0.0)

  /** A planned FFT applied in place: a length-preserving map on complex vectors. */
  type Transform = f: seq<Complex> -> seq<Complex>
    | forall v :: |f(v)| == |v|
    witness (v: seq<Complex>) => v

  /**
    Transform of an input window, product with one transformed sub-filter,
    inverse transform and normalisation: one time-domain block per sub-filter,
    as long as the window.
  */
  type Spectral = g: (seq<real>, seq<Complex>) -> seq<Complex>
    | forall w, h :: |g(w, h)| == |w|
    witness (w: seq<real>, h: seq<Complex>) => seq(|w|, k => ComplexZero)

  // ---------------------------------------------------------------------------
  // Partitioning of the impulse response.
  // ---------------------------------------------------------------------------

  /** `(n + s - 1) / s`: the number of sub-filters of `s` taps needed for `n` taps. */
  function NumSubFilters(n: nat, s: nat): nat
    requires s > 0
  {
    (n + s - 1) / s
  }

  /**
    Sub-filter `i` before its transform: slot `j < s` holds tap `i*s + j` of
    `ir` (zero past the end of `ir`), and the vector is zero up to `size`.
  */
  function SubFilter(ir: seq<real>, i: nat, s: nat, size: nat): (h: seq<Complex>)
    ensures |h| == size
  {
    seq(size, j requires 0 <= j < size => if j < s && i * s + j < |ir| then Complex(ir[i * s + j], 0.0) else ComplexZero)
  }

  /** The sub-filter count covers every tap, and no sub-filter lies wholly past the end. */
  lemma NumSubFiltersIsCeiling(n: nat, s: nat)
    requires s > 0
    ensures n <= NumSubFilters(n, s) * s
    ensures NumSubFilters(n, s) > 0 ==> (NumSubFilters(n, s) - 1) * s < n
  {
    var q, r := (n + s - 1) / s, (n + s - 1) % s;
    assert n + s - 1 == q * s + r;
    if q > 0 {
      assert (q - 1) * s == q * s - s;
    }
  }

  /**
    Every tap `k` of the impulse response lands in exactly one place: slot
    `k % s` of sub-filter `k / s`, which is one of the sub-filters built.
  */
  lemma SubFiltersCoverTaps(ir: seq<real>, s: nat, size: nat, k: nat)
    requires 0 < s <= size && k < |ir|
    ensures k / s < NumSubFilters(|ir|, s)
    ensures SubFilter(ir, k / s, s, size)[k % s] == Complex(ir[k], 0.0)
  {
    NumSubFiltersIsCeiling(|ir|, s);
    var i, j := k / s, k % s;
    assert k == i * s + j;
    if i >= NumSubFilters(|ir|, s) {
      Block.MulLeq(NumSubFilters(|ir|, s), i, s);
      assert false;
    }
  }

  /** The inner loop of `new`: zeros of length `size`, then taps `i*s .. i*s + s` copied in. */
  method BuildSubFilter(ir: seq<real>, i: nat, s: nat, size: nat) returns (h: seq<Complex>)
    requires s <= size
    ensures h == SubFilter(ir, i, s, size)
  {
    var start := i * s;
    h := seq(size, k => ComplexZero);
    var j := 0;
    while j < s
      invariant 0 <= j <= s && |h| == size
      invariant forall k :: 0 <= k < size ==>
        h[k] == if k < j && start + k < |ir| then Complex(ir[start + k], 0.0) else ComplexZero
    {
      h := h[j := if start + j < |ir| then Complex(ir[start + j], 0.0) else ComplexZero];
      j := j + 1;
    }
  }

  /** A vector of `n` complex zeros. */
  function ComplexZeros(n: nat): (z: seq<Complex>)
    ensures |z| == n && forall k :: 0 <= k < n ==> z[k] == ComplexZero
  {
    seq(n, k => ComplexZero)
  }

  /** The transformed sub-filters of `ir`, in order. */
  function SubFilterSpectra(ir: seq<real>, s: nat, size: nat, fft: Transform): (fs: seq<seq<Complex>>)
    requires s > 0
    ensures |fs| == NumSubFilters(|ir|, s)
    ensures forall i :: 0 <= i < |fs| ==> |fs[i]| == size
  {
    var fs := seq(NumSubFilters(|ir|, s), i requires 0 <= i => fft(SubFilter(ir, i, s, size)));
    assert forall i :: 0 <= i < |fs| ==> fs[i] == fft(SubFilter(ir, i, s, size)) && |fft(SubFilter(ir, i, s, size))| == size;
    fs
  }

  /**
    The loop of `new`: one transformed sub-filter and one zero delay line of
    `size` bins per sub-filter, in order.
  */
  method BuildSubFilters(ir: seq<real>, s: nat, size: nat, fft: Transform)
    returns (filters: seq<seq<Complex>>, delays: seq<seq<Complex>>)
    requires 0 < s <= size
    ensures filters == SubFilterSpectra(ir, s, size, fft) && |delays| == |filters|
    ensures forall i :: 0 <= i < |delays| ==> delays[i] == ComplexZeros(size)
  {
    var n := NumSubFilters(|ir|, s);
    filters, delays := [], [];
    var i := 0;
    while i < n
      invariant 0 <= i <= n && |filters| == i && |delays| == i
      invariant forall k :: 0 <= k < i ==> filters[k] == fft(SubFilter(ir, k, s, size))
      invariant forall k :: 0 <= k < i ==> delays[k] == ComplexZeros(size)
    {
      var h := BuildSubFilter(ir, i, s, size);
      filters := filters + [fft(h)];
      delays := delays + [ComplexZeros(size)];
      i := i + 1;
    }
  }

  // ---------------------------------------------------------------------------
  // The sliding input window and the output sum.
  // ---------------------------------------------------------------------------

  /** The window after one input block: its second half moves to the front and the new block fills the back. */
  function Shifted(window: seq<real>, input: seq<real>, b: nat): (w: seq<real>)
    requires |window| == 2 * b && |input| >= b
    ensures |w| == 2 * b
  {
    window[b..] + input[..b]
  }

  /** After two blocks the window holds exactly those two blocks, oldest first, whatever it held before. */
  lemma WindowHoldsLastTwoBlocks(window: seq<real>, x1: seq<real>, x2: seq<real>, b: nat)
    requires |window| == 2 * b && |x1| >= b && |x2| >= b
    ensures Shifted(Shifted(window, x1, b), x2, b) == x1[..b] + x2[..b]
  {
    var w1 := Shifted(window, x1, b);
    assert w1[b..] == x1[..b];
  }

  /** The real part of bin `k`, silence past the end. */
  function ReAt(v: seq<Complex>, k: nat): real
  {
    if k < |v| then v[k].re else 0.0
  }

  /** Output sample `j`: the real parts at `j + s` of the first `m` time-domain blocks, summed. */
  function OverlapSum(blocks: seq<seq<Complex>>, s: nat, j: nat, m: nat): real
    requires m <= |blocks|
  {
    if m == 0 then 0.0 else OverlapSum(blocks, s, j, m - 1) + ReAt(blocks[m - 1], j + s)
  }

  /** One time-domain block per sub-filter, all computed from the same window prefix. */
  function DelayLine(window: seq<real>, filters: seq<seq<Complex>>, spectral: Spectral, fftSize: nat): (d: seq<seq<Complex>>)
    requires fftSize <= |window|
    ensures |d| == |filters| && forall i :: 0 <= i < |d| ==> |d[i]| == fftSize
  {
    seq(|filters|, i requires 0 <= i < |filters| => spectral(window[..fftSize], filters[i]))
  }

  /** What `process` returns for a window: `b` samples, each the overlap sum over all sub-filters. */
  function ConvolveBlock(window: seq<real>, filters: seq<seq<Complex>>, spectral: Spectral, b: nat, s: nat): (out: seq<real>)
    requires b + s <= |window|
    ensures |out| == b
  {
    var d := DelayLine(window, filters, spectral, b + s);
    seq(b, j requires 0 <= j < b => OverlapSum(d, s, j, |d|))
  }

  /** The accumulation loops of `process`: every output sample adds each block's real part at `j + s`. */
  method OverlapAdd(blocks: seq<seq<Complex>>, s: nat, b: nat) returns (output: seq<real>)
    requires forall i :: 0 <= i < |blocks| ==> b + s <= |blocks[i]|
    ensures |output| == b
    ensures forall j :: 0 <= j < b ==> output[j] == OverlapSum(blocks, s, j, |blocks|)
  {
    output := seq(b, j => 0.0);
    var i := 0;
    while i < |blocks|
      invariant 0 <= i <= |blocks| && |output| == b
      invariant forall j :: 0 <= j < b ==> output[j] == OverlapSum(blocks, s, j, i)
    {
      var j := 0;
      while j < b
        invariant 0 <= j <= b && |output| == b
        invariant forall k :: 0 <= k < j ==> output[k] == OverlapSum(blocks, s, k, i + 1)
        invariant forall k :: j <= k < b ==> output[k] == OverlapSum(blocks, s, k, i)
      {
        output := output[j := output[j] + blocks[i][j + s].re];
        j := j + 1;
      }
      i := i + 1;
    }
  }

  /** With no sub-filter (an empty impulse response) every output sample is silent. */
  lemma NoSubFilterIsSilent(window: seq<real>, spectral: Spectral, b: nat, s: nat)
    requires b + s <= |window|
    ensures ConvolveBlock(window, [], spectral, b, s) == seq(b, j => 0.0)
  {
  }

  /** Each output sample is the sum of the contributions of the sub-filters taken one by one. */
  lemma {:induction false} OverlapSumSplit(blocks: seq<seq<Complex>>, s: nat, j: nat, m: nat)
    requires 0 < m <= |blocks|
    ensures OverlapSum(blocks, s, j, m) == OverlapSum(blocks[..m - 1], s, j, m - 1) + ReAt(blocks[m - 1], j + s)
    decreases m
  {
    OverlapSumPrefix(blocks, blocks[..m - 1], s, j, m - 1);
  }

  /** The sum over the first `m` blocks only reads those blocks. */
  lemma {:induction false} OverlapSumPrefix(a: seq<seq<Complex>>, b: seq<seq<Complex>>, s: nat, j: nat, m: nat)
    requires m <= |a| && m <= |b| && a[..m] == b[..m]
    ensures OverlapSum(a, s, j, m) == OverlapSum(b, s, j, m)
    decreases m
  {
    if m > 0 {
      assert a[m - 1] == a[..m][m - 1] == b[..m][m - 1] == b[m - 1];
      assert a[..m - 1] == a[..m][..m - 1];
      assert b[..m - 1] == b[..m][..m - 1];
      OverlapSumPrefix(a, b, s, j, m - 1);
    }
  }

  // ---------------------------------------------------------------------------
  // ConvolveReverb.
  // ---------------------------------------------------------------------------

  /** `vec![0.0; n]` as a fixed-size buffer. */
  method ZeroArray(n: nat) returns (a: array<real>)
    ensures fresh(a) && a.Length == n
    ensures forall k :: 0 <= k < n ==> a[k] == 0.0
  {
    a := new real[n](k => 0.0);
  }

  class ConvolveReverb {
    const irData: seq<real>
    /** `2 * bufferSize` samples: the previous input block, then the current one. */
    const inputDomain: array<real>
    const subFiltersFft: seq<seq<Complex>>
    var freqDelayLine: seq<seq<Complex>>
    const bufferSize: nat
    const subFilterSize: nat

    /** The transform length, `buffer_size + sub_filter_size`. */
    function FftSize(): nat
    {
      bufferSize + subFilterSize
    }

    ghost predicate Valid()
      reads this
    {
      && subFilterSize > 0
      && inputDomain.Length == 2 * bufferSize
      && |subFiltersFft| == NumSubFilters(|irData|, subFilterSize)
      && |freqDelayLine| == |subFiltersFft|
      && (forall i :: 0 <= i < |freqDelayLine| ==> |freqDelayLine[i]| == FftSize())
    }

    /**
      `ConvolveReverb::new`: ceil(|ir| / subFilterSize) transformed sub-filters
      of `bufferSize + subFilterSize` bins, as many zero delay lines, and a zero
      window of two blocks. A zero sub-filter size divides by zero.
    */
    constructor (ir: seq<real>, bufferSize: nat, subFilterSize: nat, fft: Transform)
      requires subFilterSize > 0
      ensures Valid()
      ensures this.irData == ir && this.bufferSize == bufferSize && this.subFilterSize == subFilterSize
      ensures subFiltersFft == SubFilterSpectra(ir, subFilterSize, bufferSize + subFilterSize, fft)
      ensures forall i :: 0 <= i < |freqDelayLine| ==> freqDelayLine[i] == ComplexZeros(FftSize())
      ensures fresh(inputDomain) && forall k :: 0 <= k < inputDomain.Length ==> inputDomain[k] == 0.0
    {
      var filters, delays := BuildSubFilters(ir, subFilterSize, bufferSize + subFilterSize, fft);
      var domain := ZeroArray(2 * bufferSize);
      this.irData := ir;
      this.inputDomain := domain;
      this.subFiltersFft := filters;
      this.freqDelayLine := delays;
      this.bufferSize := bufferSize;
      this.subFilterSize := subFilterSize;
    }

    /** The window shift of `process`: the back half moves to the front and `input[..bufferSize]` fills the back. */
    method ShiftWindow(input: seq<real>)
      requires inputDomain.Length == 2 * bufferSize && |input| >= bufferSize
      modifies inputDomain
      ensures inputDomain[..] == Shifted(old(inputDomain[..]), input, bufferSize)
    {
      var b := bufferSize;
      var i := 0;
      while i < b
        invariant 0 <= i <= b
        invariant forall k :: 0 <= k < i ==> inputDomain[k] == old(inputDomain[b + k])
        invariant forall k :: i <= k < b ==> inputDomain[k] == old(inputDomain[k])
        invariant forall k :: b <= k < b + i ==> inputDomain[k] == input[k - b]
        invariant forall k :: b + i <= k < 2 * b ==> inputDomain[k] == old(inputDomain[k])
      {
        inputDomain[i] := inputDomain[i + b];
        inputDomain[i + b] := input[i];
        i := i + 1;
      }
    }

    /** The per-sub-filter loop of `process`: each delay line becomes that sub-filter's time-domain block. */
    method FillDelayLine(spectral: Spectral)
      requires Valid() && subFilterSize <= bufferSize
      modifies this
      ensures Valid()
      ensures freqDelayLine == DelayLine(inputDomain[..], subFiltersFft, spectral, FftSize())
    {
      ghost var target := DelayLine(inputDomain[..], subFiltersFft, spectral, FftSize());
      var window := inputDomain[..FftSize()];
      var i := 0;
      while i < |subFiltersFft|
        invariant 0 <= i <= |subFiltersFft| && |freqDelayLine| == |subFiltersFft|
        invariant forall k :: 0 <= k < |freqDelayLine| ==> |freqDelayLine[k]| == FftSize()
        invariant forall k :: 0 <= k < i ==> freqDelayLine[k] == target[k]
      {
        freqDelayLine := freqDelayLine[i := spectral(window, subFiltersFft[i])];
        i := i + 1;
      }
    }

    /**
      `ConvolveReverb::process`: slides the window by one block, refreshes the
      delay lines from the window's first `bufferSize + subFilterSize` samples
      (so the sub-filter size may not exceed the block size), and returns
      `bufferSize` samples, each summed over all sub-filters.
    */
    method Process(input: seq<real>, spectral: Spectral) returns (output: seq<real>)
      requires Valid() && |input| >= bufferSize && subFilterSize <= bufferSize
      modifies this, inputDomain
      ensures Valid()
      ensures inputDomain[..] == Shifted(old(inputDomain[..]), input, bufferSize)
      ensures freqDelayLine == DelayLine(inputDomain[..], subFiltersFft, spectral, FftSize())
      ensures output == ConvolveBlock(inputDomain[..], subFiltersFft, spectral, bufferSize, subFilterSize)
    {
      ShiftWindow(input);
      FillDelayLine(spectral);
      output := OverlapAdd(freqDelayLine, subFilterSize, bufferSize);
    }
  }

  // ---------------------------------------------------------------------------
  // ConvolveChannels: de-interleave, convolve per channel, interleave.
  // ---------------------------------------------------------------------------

  /** `iter().skip(c).step_by(n)`: samples `c, c + n, c + 2n, …` of `x`. */
  function Deinterleave(x: seq<real>, n: nat, c: nat): seq<real>
    requires n > 0
    decreases |x| - c
  {
    if c >= |x| then [] else [x[c]] + Deinterleave(x, n, c + n)
  }

  /** Sample `k` of channel `c` is `x[c + k*n]`, and it exists exactly when that position does. */
  lemma {:induction false} DeinterleaveAt(x: seq<real>, n: nat, c: nat, k: nat)
    requires n > 0
    ensures k < |Deinterleave(x, n, c)| <==> c + k * n < |x|
    ensures k < |Deinterleave(x, n, c)| ==> Deinterleave(x, n, c)[k] == x[c + k * n]
    decreases |x| - c
  {
    if c < |x| && k > 0 {
      DeinterleaveAt(x, n, c + n, k - 1);
      assert c + n + (k - 1) * n == c + k * n;
    }
  }

  /** Position of sample `i` of channel `c` in a buffer of `m` interleaved frames of `n` channels. */
  function Slot(i: nat, c: nat, n: nat, m: nat): (p: nat)
    requires i < m && c < n
    ensures p < m * n && p / n == i && p % n == c
  {
    Block.InFrame(i * n + c, i, n);
    Block.FrameEnd(i, m, n);
    i * n + c
  }

  /** Every position of an interleaved buffer is the slot of one sample of one channel. */
  lemma SlotOf(p: nat, n: nat, m: nat)
    requires n > 0 && p < m * n
    ensures p / n < m && p == Slot(p / n, p % n, n, m)
  {
    Block.FrameOfPosition(p, m, n);
  }

  /**
    What the interleaving loop of `ConvolveChannels::process` leaves: `m * n`
    samples, position `i*n + c` holding sample `i` of channel `c`, zero where
    that channel has no sample `i`.
  */
  function Interleave(outs: seq<seq<real>>, n: nat, m: nat): (r: seq<real>)
    requires n > 0 && |outs| == n
    ensures |r| == m * n
  {
    seq(m * n, p requires 0 <= p < m * n => if p / n < |outs[p % n]| then outs[p % n][p / n] else 0.0)
  }

  /**
    With every channel passed through unchanged, de-interleaving and
    interleaving again restores the first `(|x| / n) * n` samples.
  */
  lemma InterleaveDeinterleave(x: seq<real>, n: nat)
    requires n > 0
    ensures Interleave(seq(n, c requires 0 <= c < n => Deinterleave(x, n, c)), n, |x| / n) == x[..(|x| / n) * n]
  {
    var m := |x| / n;
    var outs := seq(n, c requires 0 <= c < n => Deinterleave(x, n, c));
    var r := Interleave(outs, n, m);
    assert m * n <= |x|;
    forall p | 0 <= p < m * n
      ensures r[p] == x[p]
    {
      SlotOf(p, n, m);
      var i, c := p / n, p % n;
      DeinterleaveAt(x, n, c, i);
    }
  }

  /** Each channel receives at least `|x| / n` samples. */
  lemma DeinterleaveLength(x: seq<real>, n: nat, c: nat)
    requires 0 <= c < n
    ensures |Deinterleave(x, n, c)| >= |x| / n
  {
    var m := |x| / n;
    if m > 0 {
      assert m * n <= |x|;
      var p := Slot(m - 1, c, n, m);
      DeinterleaveAt(x, n, c, m - 1);
    }
  }

  /** The inner interleaving loop: sample `i` of channel `c` goes to slot `(i, c)`; every other slot keeps its value. */
  method WriteChannel(buf: array<real>, lane: seq<real>, c: nat, n: nat, m: nat)
    requires buf.Length == m * n && c < n && |lane| <= m
    modifies buf
    ensures forall i, k :: 0 <= i < m && 0 <= k < n ==>
      buf[Slot(i, k, n, m)] == if k == c && i < |lane| then lane[i] else old(buf[Slot(i, k, n, m)])
  {
    var i := 0;
    while i < |lane|
      invariant 0 <= i <= |lane|
      invariant forall i', k :: 0 <= i' < m && 0 <= k < n ==>
        buf[Slot(i', k, n, m)] == if k == c && i' < i then lane[i'] else old(buf[Slot(i', k, n, m)])
    {
      buf[Slot(i, c, n, m)] := lane[i];
      i := i + 1;
    }
  }

  /** The interleaving loops, writing channel by channel into a zeroed buffer of `m * n` samples. */
  method InterleaveOutputs(outs: seq<seq<real>>, n: nat, m: nat) returns (r: seq<real>)
    requires n > 0 && |outs| == n
    requires forall c :: 0 <= c < n ==> |outs[c]| <= m
    ensures r == Interleave(outs, n, m)
  {
    var buf := new real[m * n](p => 0.0);
    var c := 0;
    while c < n
      invariant 0 <= c <= n
      invariant forall i, k :: 0 <= i < m && 0 <= k < n ==>
        buf[Slot(i, k, n, m)] == if k < c && i < |outs[k]| then outs[k][i] else 0.0
    {
      WriteChannel(buf, outs[c], c, n, m);
      c := c + 1;
    }
    r := buf[..];
    forall p | 0 <= p < m * n
      ensures r[p] == Interleave(outs, n, m)[p]
    {
      SlotOf(p, n, m);
    }
  }

  /** The `map(..).collect()` of `ConvolveChannels::new`: `n` independent reverbs with block and sub-filter size `half`. */
  method NewConvolvers(n: nat, ir: seq<real>, half: nat, fft: Transform) returns (cs: seq<ConvolveReverb>)
    requires n > 0 ==> half > 0
    ensures |cs| == n
    ensures forall j :: 0 <= j < n ==> cs[j].Valid() && cs[j].irData == ir
    ensures forall j :: 0 <= j < n ==> cs[j].bufferSize == half && cs[j].subFilterSize == half
    ensures forall a, b :: 0 <= a < b < n ==> cs[a] != cs[b] && cs[a].inputDomain != cs[b].inputDomain
  {
    cs := [];
    var k := 0;
    while k < n
      invariant 0 <= k <= n && |cs| == k
      invariant forall j :: 0 <= j < k ==> cs[j].Valid() && cs[j].irData == ir
      invariant forall j :: 0 <= j < k ==> cs[j].bufferSize == half && cs[j].subFilterSize == half
      invariant forall a, b :: 0 <= a < b < k ==> cs[a] != cs[b] && cs[a].inputDomain != cs[b].inputDomain
      invariant forall j :: 0 <= j < k ==> fresh(cs[j]) && fresh(cs[j].inputDomain)
    {
      var r := new ConvolveReverb(ir, half, half, fft);
      cs := cs + [r];
      k := k + 1;
    }
  }

  class ConvolveChannels {
    const numChannels: nat
    const convolvers: seq<ConvolveReverb>

    /** The per-channel block size: half the buffer size given to `new`. */
    const channelBufferSize: nat

    ghost predicate Valid()
      reads this, set k | 0 <= k < |convolvers| :: convolvers[k]
    {
      && |convolvers| == numChannels
      && (forall k :: 0 <= k < |convolvers| ==> convolvers[k].Valid())
      && (forall k :: 0 <= k < |convolvers| ==>
            convolvers[k].bufferSize == channelBufferSize && convolvers[k].subFilterSize == channelBufferSize)
      && (forall a, b :: 0 <= a < b < |convolvers| ==>
            convolvers[a] != convolvers[b] && convolvers[a].inputDomain != convolvers[b].inputDomain)
    }

    /** The objects `process` updates: every convolver and its window. */
    ghost function Footprint(): set<object>
    {
      (set k | 0 <= k < |convolvers| :: convolvers[k]) + (set k | 0 <= k < |convolvers| :: convolvers[k].inputDomain)
    }

    /**
      `ConvolveChannels::new`: halves the buffer size and builds one reverb per
      channel with that block and sub-filter size (a zero size divides by zero
      when there is a channel).
    */
    constructor (numChannels: nat, ir: seq<real>, bufferSize: nat, fft: Transform)
      requires numChannels > 0 ==> bufferSize / 2 > 0
      ensures Valid()
      ensures this.numChannels == numChannels && channelBufferSize == bufferSize / 2
      ensures forall k :: 0 <= k < numChannels ==> convolvers[k].irData == ir
    {
      var cs := NewConvolvers(numChannels, ir, bufferSize / 2, fft);
      this.numChannels := numChannels;
      this.convolvers := cs;
      this.channelBufferSize := bufferSize / 2;
    }

    /** One iteration of the channel loop: channel `c`'s samples through its own reverb; the other channels keep their windows. */
    method ProcessChannel(x: seq<real>, spectral: Spectral, c: nat) returns (out: seq<real>)
      requires Valid() && c < numChannels && channelBufferSize <= |x| / numChannels
      modifies convolvers[c], convolvers[c].inputDomain
      ensures Valid()
      ensures |Deinterleave(x, numChannels, c)| >= channelBufferSize
      ensures convolvers[c].inputDomain[..]
           == Shifted(old(convolvers[c].inputDomain[..]), Deinterleave(x, numChannels, c), channelBufferSize)
      ensures forall k :: 0 <= k < numChannels && k != c ==> convolvers[k].inputDomain[..] == old(convolvers[k].inputDomain[..])
      ensures out == ConvolveBlock(convolvers[c].inputDomain[..], convolvers[c].subFiltersFft, spectral, channelBufferSize, channelBufferSize)
    {
      DeinterleaveLength(x, numChannels, c);
      var channelInput := Deinterleave(x, numChannels, c);
      out := convolvers[c].Process(channelInput, spectral);
    }

    /**
      `ConvolveChannels::process`: channel `c` gets samples `c, c + n, …`, its
      reverb returns `channelBufferSize` samples, and those are interleaved
      into `(|x| / n) * n` samples. The channel outputs must fit: a longer one
      would write past the interleaved buffer.
    */
    method Process(x: seq<real>, spectral: Spectral) returns (r: seq<real>, ghost outs: seq<seq<real>>)
      requires Valid() && numChannels > 0 && channelBufferSize <= |x| / numChannels
      modifies Footprint()
      ensures Valid()
      ensures |outs| == numChannels
      ensures forall c :: 0 <= c < numChannels ==>
        |Deinterleave(x, numChannels, c)| >= channelBufferSize &&
        convolvers[c].inputDomain[..] == Shifted(old(convolvers[c].inputDomain[..]), Deinterleave(x, numChannels, c), channelBufferSize)
      ensures forall c :: 0 <= c < numChannels ==>
        outs[c] == ConvolveBlock(convolvers[c].inputDomain[..], convolvers[c].subFiltersFft, spectral, channelBufferSize, channelBufferSize)
      ensures r == Interleave(outs, numChannels, |x| / numChannels)
    {
      var n := numChannels;
      var signals: seq<seq<real>> := [];
      var c := 0;
      while c < n
        invariant 0 <= c <= n && |signals| == c
        invariant Valid()
        invariant forall k :: 0 <= k < c ==>
          |Deinterleave(x, n, k)| >= channelBufferSize &&
          convolvers[k].inputDomain[..] == Shifted(old(convolvers[k].inputDomain[..]), Deinterleave(x, n, k), channelBufferSize)
        invariant forall k :: c <= k < n ==> convolvers[k].inputDomain[..] == old(convolvers[k].inputDomain[..])
        invariant forall k :: 0 <= k < c ==>
          signals[k] == ConvolveBlock(convolvers[k].inputDomain[..], convolvers[k].subFiltersFft, spectral, channelBufferSize, channelBufferSize)
      {
        var out := ProcessChannel(x, spectral, c);
        signals := signals + [out];
        c := c + 1;
      }
      r := InterleaveOutputs(signals, n, |x| / n);
      outs := signals;
    }
  }
}
