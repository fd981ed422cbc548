/**
  The sample-by-sample convolution reverb of src/bin/test.rs: a ring of
  `bufferSize` input samples and one of output samples, a write and a read
  pointer that advance together, and a counter that runs one block step every
  `bufferSize` samples.

  The block step transforms the input ring (zero-padded to `fftSize`) with the
  forward transform `fft` (a parameter; the FFT itself is not modelled) and
  multiplies the low `fftSize / 2 + 1` bins by each sub-filter. The inverse
  transform call is commented out in the source, so the scratch buffer that
  the output ring is copied from is never written: the output ring is
  refilled with zeros and every sample the reverb returns is 0.0.
*/
module RingReverb {
  import opened Effects
  import Block

  // ---------------------------------------------------------------------------
  // Transform size.
  // ---------------------------------------------------------------------------

  /** 1, 2, 4, 8, … */
  predicate IsPowerOfTwo(p: nat)
    decreases p
  {
    p == 1 || (p >= 2 && p % 2 == 0 && IsPowerOfTwo(p / 2))
  }

  /** Doubling `p` until it reaches `n`; `p` is a power of two that is still below `n` or is 1. */
  function NextPowerOfTwoFrom(p: nat, n: nat): (r: nat)
    requires IsPowerOfTwo(p) && (p > 1 ==> p / 2 < n)
    ensures IsPowerOfTwo(r) && r >= n && r >= p
    ensures r > 1 ==> r / 2 < n
    decreases n - p
  {
    if p >= n then p
    else
      assert (2 * p) / 2 == p;
      assert IsPowerOfTwo(2 * p);
      NextPowerOfTwoFrom(2 * p, n)
  }

  /** `usize::next_power_of_two`: the least power of two that is at least `n` (1 for 0 and 1). */
  function NextPowerOfTwo(n: nat): (r: nat)
    ensures IsPowerOfTwo(r) && r >= n && r >= 1
    ensures r > 1 ==> r / 2 < n
  {
    NextPowerOfTwoFrom(1, n)
  }

  /** `fft_size = next_power_of_two(buffer_size) * 2`. */
  function FftSizeFor(bufferSize: nat): (r: nat)
    ensures r >= 2 * bufferSize && r >= 2
  {
    NextPowerOfTwo(bufferSize) * 2
  }

  /** The transform holds two blocks, and is less than four blocks long once a block is longer than one sample. */
  lemma FftSizeBounds(bufferSize: nat)
    ensures FftSizeFor(bufferSize) >= 2 * bufferSize && FftSizeFor(bufferSize) >= 2
    ensures bufferSize > 1 ==> FftSizeFor(bufferSize) < 4 * bufferSize
  {
    var p := NextPowerOfTwo(bufferSize);
    if bufferSize > 1 {
      assert p > 1;
      assert p / 2 < bufferSize;
      assert p % 2 == 0 by { PowerOfTwoIsEven(p); }
    }
  }

  /** A power of two above 1 is even. */
  lemma PowerOfTwoIsEven(p: nat)
    requires IsPowerOfTwo(p) && p > 1
    ensures p % 2 == 0
  {
  }

  // ---------------------------------------------------------------------------
  // The counter and the two ring pointers.
  // ---------------------------------------------------------------------------

  /** The counter after one `process_sample`: one more, back to 0 once it reaches `bufferSize`. */
  function CounterStep(counter: nat, bufferSize: nat): nat
  {
    if counter + 1 >= bufferSize then 0 else counter + 1
  }

  /** The counter after `k` calls from 0. */
  function CounterAfter(k: nat, bufferSize: nat): nat
  {
    if k == 0 then 0 else CounterStep(CounterAfter(k - 1, bufferSize), bufferSize)
  }

  /**
    A ring pointer advanced modulo `bufferSize` stays equal to the counter:
    both wrap to 0 on the same call.
  */
  lemma PointerMatchesCounter(counter: nat, bufferSize: nat)
    requires counter < bufferSize
    ensures (counter + 1) % bufferSize == CounterStep(counter, bufferSize)
  {
  }

  /**
    After `k` calls the counter is `k % bufferSize`, so the block step (which
    runs when the counter wraps) runs on exactly every `bufferSize`-th call.
  */
  lemma {:induction false} CounterIsCallCountModBuffer(k: nat, bufferSize: nat)
    requires bufferSize > 0
    ensures CounterAfter(k, bufferSize) == k % bufferSize
    ensures k > 0 ==> (CounterAfter(k - 1, bufferSize) + 1 >= bufferSize <==> k % bufferSize == 0)
  {
    if k > 0 {
      CounterIsCallCountModBuffer(k - 1, bufferSize);
      var c := (k - 1) % bufferSize;
      if c + 1 < bufferSize {
        assert k % bufferSize == c + 1 by { ModStep(k - 1, bufferSize); }
      } else {
        assert k % bufferSize == 0 by { ModStep(k - 1, bufferSize); }
      }
    }
  }

  /** `(k + 1) % b` is one more than `k % b`, or wraps to 0. */
  lemma ModStep(k: nat, b: nat)
    requires b > 0
    ensures (k + 1) % b == if k % b + 1 < b then k % b + 1 else 0
  {
    var q, r := k / b, k % b;
    assert k == q * b + r;
    if r + 1 < b {
      Block.InFrame(k + 1, q, b);
    } else {
      assert k + 1 == (q + 1) * b;
      Block.InFrame(k + 1, q + 1, b);
    }
  }

  // ---------------------------------------------------------------------------
  // The block step, on values.
  // ---------------------------------------------------------------------------

  /** Complex product. */
  function Mul(a: Complex, b: Complex): Complex
  {
    Complex(a.re * b.re - a.im * b.im, a.re * b.im + a.im * b.re)
  }

  /** Complex sum. */
  function Add(a: Complex, b: Complex): Complex
  {
    Complex(a.re + b.re, a.im + b.im)
  }

  /** Division of both parts by a positive length. */
  function Scale(a: Complex, n: nat): Complex
    requires n > 0
  {
    Complex(a.re / n as real, a.im / n as real)
  }

  /** The input ring as complex samples, zero-padded to `size`. */
  function Padded(input: seq<real>, size: nat): (v: seq<Complex>)
    ensures |v| == size
  {
    seq(size, k requires 0 <= k < size => if k < |input| then Complex(input[k], 0.0) else ComplexZero)
  }

  /** A delay line after the product step: bins below `bins` become spectrum times sub-filter, the rest keep their value. */
  function BinProducts(line: seq<Complex>, spectrum: seq<Complex>, filter: seq<Complex>, bins: nat): (r: seq<Complex>)
    requires bins <= |line| && bins <= |spectrum| && bins <= |filter|
    ensures |r| == |line|
  {
    seq(|line|, j requires 0 <= j < |line| => if j < bins then Mul(spectrum[j], filter[j]) else line[j])
  }

  /**
    What the block step leaves in the delay lines: the input ring, padded to
    `fftSize` and transformed, times each sub-filter on the low
    `fftSize / 2 + 1` bins.
  */
  function BlockSpectra(input: seq<real>, lines: seq<seq<Complex>>, filters: seq<seq<Complex>>, fftSize: nat, fft: Transform)
    : (r: seq<seq<Complex>>)
    requires SpectraFit(lines, filters, fftSize)
    ensures |r| == |lines| && forall i :: 0 <= i < |r| ==> |r[i]| == fftSize
  {
    ProductLines(lines, fft(Padded(input, fftSize)), filters, fftSize / 2 + 1)
  }

  /** One delay line per sub-filter, all of `fftSize >= 2` bins. */
  predicate SpectraFit(lines: seq<seq<Complex>>, filters: seq<seq<Complex>>, fftSize: nat)
  {
    && |lines| == |filters| && fftSize >= 2
    && forall i :: 0 <= i < |lines| ==> |lines[i]| == fftSize && |filters[i]| == fftSize
  }

  /** Every delay line after the product step with its own sub-filter. */
  function ProductLines(lines: seq<seq<Complex>>, spectrum: seq<Complex>, filters: seq<seq<Complex>>, bins: nat)
    : (r: seq<seq<Complex>>)
    requires |lines| == |filters| && bins <= |spectrum|
    requires forall i :: 0 <= i < |lines| ==> bins <= |lines[i]| && bins <= |filters[i]|
    ensures |r| == |lines| && forall i :: 0 <= i < |r| ==> |r[i]| == |lines[i]|
  {
    seq(|lines|, i requires 0 <= i < |lines| => BinProducts(lines[i], spectrum, filters[i], bins))
  }

  /** The sum of bin `j` over the first `m` delay lines. */
  function BinSum(lines: seq<seq<Complex>>, j: nat, m: nat): Complex
    requires m <= |lines|
  {
    if m == 0 then ComplexZero
    else Add(BinSum(lines, j, m - 1), if j < |lines[m - 1]| then lines[m - 1][j] else ComplexZero)
  }

  /** The copy of the input ring into the zeroed transform buffer. */
  method LoadInput(input: seq<real>, size: nat) returns (v: seq<Complex>)
    requires |input| <= size
    ensures v == Padded(input, size)
  {
    v := seq(size, k => ComplexZero);
    var i := 0;
    while i < |input|
      invariant 0 <= i <= |input| && |v| == size
      invariant forall k :: 0 <= k < size ==> v[k] == if k < i then Complex(input[k], 0.0) else ComplexZero
    {
      v := v[i := Complex(input[i], 0.0)];
      i := i + 1;
    }
  }

  /** The product loops: for every sub-filter, bins below `bins` of its delay line are overwritten. */
  method MultiplyBins(lines: seq<seq<Complex>>, spectrum: seq<Complex>, filters: seq<seq<Complex>>, bins: nat)
    returns (r: seq<seq<Complex>>)
    requires |lines| == |filters| && bins <= |spectrum|
    requires forall i :: 0 <= i < |lines| ==> bins <= |lines[i]| && bins <= |filters[i]|
    ensures r == ProductLines(lines, spectrum, filters, bins)
  {
    r := lines;
    var i := 0;
    while i < |filters|
      invariant 0 <= i <= |filters| && |r| == |lines|
      invariant forall k :: 0 <= k < i ==> r[k] == BinProducts(lines[k], spectrum, filters[k], bins)
      invariant forall k :: i <= k < |r| ==> r[k] == lines[k]
    {
      var line := r[i];
      var j := 0;
      while j < bins
        invariant 0 <= j <= bins && |line| == |lines[i]|
        invariant forall b :: 0 <= b < |line| ==>
          line[b] == if b < j then Mul(spectrum[b], filters[i][b]) else lines[i][b]
      {
        line := line[j := Mul(spectrum[j], filters[i][j])];
        j := j + 1;
      }
      r := r[i := line];
      i := i + 1;
    }
    assert forall k :: 0 <= k < |r| ==> r[k] == ProductLines(lines, spectrum, filters, bins)[k];
  }

  /** The summing loops: bin `j < bins` of the result adds bin `j` of every delay line. */
  method SumBins(lines: seq<seq<Complex>>, bins: nat) returns (sum: seq<Complex>)
    requires forall i :: 0 <= i < |lines| ==> bins <= |lines[i]|
    ensures |sum| == bins
    ensures forall j :: 0 <= j < bins ==> sum[j] == BinSum(lines, j, |lines|)
  {
    sum := seq(bins, j => ComplexZero);
    var i := 0;
    while i < |lines|
      invariant 0 <= i <= |lines| && |sum| == bins
      invariant forall j :: 0 <= j < bins ==> sum[j] == BinSum(lines, j, i)
    {
      var j := 0;
      while j < bins
        invariant 0 <= j <= bins && |sum| == bins
        invariant forall b :: 0 <= b < j ==> sum[b] == BinSum(lines, b, i + 1)
        invariant forall b :: j <= b < bins ==> sum[b] == BinSum(lines, b, i)
      {
        sum := sum[j := Add(sum[j], lines[i][j])];
        j := j + 1;
      }
      i := i + 1;
    }
  }

  /** The normalisation loop: every bin divided by `n`. */
  method Normalise(v: seq<Complex>, n: nat) returns (r: seq<Complex>)
    requires n > 0
    ensures |r| == |v| && forall k :: 0 <= k < |v| ==> r[k] == Scale(v[k], n)
  {
    r := v;
    var i := 0;
    while i < |v|
      invariant 0 <= i <= |v| && |r| == |v|
      invariant forall k :: 0 <= k < |v| ==> r[k] == if k < i then Scale(v[k], n) else v[k]
    {
      r := r[i := Scale(r[i], n)];
      i := i + 1;
    }
  }

  /** Normalising silence leaves silence. */
  lemma ScaleZero(n: nat)
    requires n > 0
    ensures Scale(ComplexZero, n) == ComplexZero
  {
  }

  /**
    The value part of `process_block`: transform the padded input ring,
    multiply the low bins into the delay lines, sum them (the sum is never
    read), and normalise the scratch buffer the inverse transform would have
    filled, which stays silent.
  */
  method BlockStep(input: seq<real>, lines: seq<seq<Complex>>, filters: seq<seq<Complex>>, fftSize: nat, fft: Transform)
    returns (newLines: seq<seq<Complex>>, scratch: seq<Complex>)
    requires |input| <= fftSize && SpectraFit(lines, filters, fftSize)
    ensures newLines == BlockSpectra(input, lines, filters, fftSize, fft)
    ensures scratch == ComplexZeros(fftSize)
  {
    newLines := ProductStep(input, lines, filters, fftSize, fft);
    var summed := SumBins(newLines, fftSize / 2 + 1);
    scratch := SilentScratch(fftSize);
  }

  /** The forward transform of the padded input ring and the product loops. */
  method ProductStep(input: seq<real>, lines: seq<seq<Complex>>, filters: seq<seq<Complex>>, fftSize: nat, fft: Transform)
    returns (newLines: seq<seq<Complex>>)
    requires |input| <= fftSize && SpectraFit(lines, filters, fftSize)
    ensures newLines == BlockSpectra(input, lines, filters, fftSize, fft)
  {
    var bins := fftSize / 2 + 1;
    var padded := LoadInput(input, fftSize);
    var spectrum := fft(padded);
    assert |spectrum| == fftSize && bins <= fftSize;
    newLines := MultiplyBins(lines, spectrum, filters, bins);
  }

  /** The scratch buffer, never written, normalised by its length: still silence. */
  method SilentScratch(n: nat) returns (scratch: seq<Complex>)
    requires n > 0
    ensures scratch == ComplexZeros(n)
  {
    scratch := Normalise(ComplexZeros(n), n);
    ScaleZero(n);
    assert forall k :: 0 <= k < n ==> scratch[k] == ComplexZero;
  }

  // ---------------------------------------------------------------------------
  // ConvolveReverb (ring-buffer version).
  // ---------------------------------------------------------------------------

  class ConvolveReverb {
    var irData: seq<real>
    const inputBuffer: array<real>
    const outputBuffer: array<real>
    var subFiltersFft: seq<seq<Complex>>
    var freqDelayLine: seq<seq<Complex>>
    const bufferSize: nat
    const subFilterSize: nat
    const fftSize: nat
    var inputWritePointer: nat
    var outputReadPointer: nat
    var counter: nat

    /**
      Between calls: both rings hold `bufferSize` samples, the transform size
      is twice the next power of two, every spectrum has `fftSize` bins, and
      both pointers equal the counter, which is below `bufferSize` (or 0 when
      the rings are empty).
    */
    ghost predicate Valid()
      reads this
    {
      Shape() && inputWritePointer == counter && outputReadPointer == counter && (counter < bufferSize || counter == 0)
    }

    /** The buffer sizes alone, which also hold in the middle of `process_sample`. */
    ghost predicate Shape()
      reads this`freqDelayLine, this`subFiltersFft
    {
      && inputBuffer.Length == bufferSize && outputBuffer.Length == bufferSize
      && inputBuffer != outputBuffer
      && fftSize == FftSizeFor(bufferSize)
      && SpectraFit(freqDelayLine, subFiltersFft, fftSize)
    }

    /** The output ring holds only silence. */
    ghost predicate Silent()
      reads outputBuffer
    {
      forall k :: 0 <= k < outputBuffer.Length ==> outputBuffer[k] == 0.0
    }

    /**
      `ConvolveReverb::new`: zero rings of `bufferSize` samples, a transform
      size of twice the next power of two, no sub-filters yet, and both
      pointers and the counter at 0.
    */
    constructor (bufferSize: nat, subFilterSize: nat)
      ensures Valid() && Silent()
      ensures this.bufferSize == bufferSize && this.subFilterSize == subFilterSize
      ensures fftSize == 2 * NextPowerOfTwo(bufferSize)
      ensures irData == [] && subFiltersFft == [] && freqDelayLine == []
      ensures fresh(inputBuffer) && fresh(outputBuffer)
      ensures forall k :: 0 <= k < inputBuffer.Length ==> inputBuffer[k] == 0.0
      ensures inputWritePointer == 0 && outputReadPointer == 0 && counter == 0
    {
      var input := ZeroArray(bufferSize);
      var output := ZeroArray(bufferSize);
      irData := [];
      inputBuffer := input;
      outputBuffer := output;
      subFiltersFft := [];
      freqDelayLine := [];
      this.bufferSize := bufferSize;
      this.subFilterSize := subFilterSize;
      fftSize := FftSizeFor(bufferSize);
      inputWritePointer := 0;
      outputReadPointer := 0;
      counter := 0;
    }

    /**
      `prepare`: stores the impulse response and cuts it into
      ceil(|ir| / bufferSize) sub-filters of `bufferSize` taps (the block size,
      not `subFilterSize`), each zero-padded to `fftSize` and transformed, with
      as many zero delay lines. A zero block size divides by zero.
    */
    method Prepare(ir: seq<real>, fft: Transform)
      requires Valid() && bufferSize > 0
      modifies this
      ensures Valid()
      ensures irData == ir
      ensures subFiltersFft == SubFilterSpectra(ir, bufferSize, fftSize, fft)
      ensures |freqDelayLine| == NumSubFilters(|ir|, bufferSize)
      ensures forall i :: 0 <= i < |freqDelayLine| ==> freqDelayLine[i] == ComplexZeros(fftSize)
      ensures inputWritePointer == old(inputWritePointer) && outputReadPointer == old(outputReadPointer)
      ensures counter == old(counter)
    {
      FftSizeBounds(bufferSize);
      var filters, delays := BuildSubFilters(ir, bufferSize, fftSize, fft);
      irData := ir;
      subFiltersFft := filters;
      freqDelayLine := delays;
    }

    /** The copy loop of `process_block`: `outputBuffer[i] = scratch[fftSize - bufferSize + i].re`. */
    method CopyOut(scratch: seq<Complex>)
      requires outputBuffer.Length == bufferSize && |scratch| == fftSize && bufferSize <= fftSize
      modifies outputBuffer
      ensures forall i :: 0 <= i < bufferSize ==> outputBuffer[i] == scratch[fftSize - bufferSize + i].re
    {
      var i := 0;
      while i < bufferSize
        invariant 0 <= i <= bufferSize
        invariant forall k :: 0 <= k < i ==> outputBuffer[k] == scratch[fftSize - bufferSize + k].re
      {
        outputBuffer[i] := scratch[fftSize - bufferSize + i].re;
        i := i + 1;
      }
    }

    /**
      `process_block`: the product step rewrites the low `fftSize / 2 + 1`
      bins of every delay line, and the output ring is refilled from a
      scratch buffer that nothing writes (the inverse transform is commented
      out), so it ends up silent. The input ring, the pointers and the counter
      are left alone.
    */
    method ProcessBlock(fft: Transform)
      requires Shape()
      modifies this`freqDelayLine, outputBuffer
      ensures Shape() && Silent()
      ensures irData == old(irData) && subFiltersFft == old(subFiltersFft)
      ensures freqDelayLine == BlockSpectra(inputBuffer[..], old(freqDelayLine), old(subFiltersFft), fftSize, fft)
      ensures inputWritePointer == old(inputWritePointer) && outputReadPointer == old(outputReadPointer)
      ensures counter == old(counter)
    {
      var lines, scratch := BlockStep(inputBuffer[..], freqDelayLine, subFiltersFft, fftSize, fft);
      freqDelayLine := lines;
      assert forall k :: 0 <= k < fftSize ==> scratch[k].re == 0.0;
      CopyOut(scratch);
    }

    /**
      The ring step of `process_sample`: the sample goes in at the write
      pointer, the output is read at the read pointer, both pointers move on
      modulo `bufferSize` and the counter counts the call.
    */
    method Advance(sample: real) returns (output: real)
      requires Valid() && bufferSize > 0
      modifies this`inputWritePointer, this`outputReadPointer, this`counter, inputBuffer
      ensures Shape()
      ensures output == outputBuffer[old(outputReadPointer)]
      ensures inputBuffer[..] == old(inputBuffer[..])[old(inputWritePointer) := sample]
      ensures inputWritePointer == CounterStep(old(inputWritePointer), bufferSize)
      ensures outputReadPointer == CounterStep(old(outputReadPointer), bufferSize)
      ensures counter == old(counter) + 1
    {
      PointerMatchesCounter(counter, bufferSize);
      inputBuffer[inputWritePointer] := sample;
      inputWritePointer := (inputWritePointer + 1) % bufferSize;
      output := outputBuffer[outputReadPointer];
      outputReadPointer := (outputReadPointer + 1) % bufferSize;
      counter := counter + 1;
    }

    /**
      `process_sample`: writes `sample` at the write pointer, returns the
      output ring's sample at the read pointer (read before any block step),
      advances both pointers modulo `bufferSize`, and runs the block step and
      resets the counter when the counter reaches `bufferSize`. A zero block
      size panics.
    */
    method ProcessSample(sample: real, fft: Transform) returns (output: real)
      requires Valid() && bufferSize > 0
      modifies this`inputWritePointer, this`outputReadPointer, this`counter, this`freqDelayLine
      modifies inputBuffer, outputBuffer
      ensures Valid()
      ensures output == old(outputBuffer[outputReadPointer])
      ensures inputBuffer[..] == old(inputBuffer[..])[old(inputWritePointer) := sample]
      ensures counter == CounterStep(old(counter), bufferSize)
      ensures counter == 0 ==> Silent()
      ensures counter == 0 ==> freqDelayLine == BlockSpectra(inputBuffer[..], old(freqDelayLine), old(subFiltersFft), fftSize, fft)
      ensures counter != 0 ==> outputBuffer[..] == old(outputBuffer[..]) && freqDelayLine == old(freqDelayLine)
      ensures old(Silent()) ==> output == 0.0 && Silent()
    {
      output := Advance(sample);
      if counter >= bufferSize {
        ProcessBlock(fft);
        counter := 0;
      }
    }
  }
}
