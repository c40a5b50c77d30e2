/**
 Resampling recorded audio to 16 kHz signed 16-bit samples by averaging windows, with exact
 rational arithmetic.
 */
module Resampler {
  import opened Common

  const OUTPUT_RATE := 16_000

  /** floor(index * ratio), where ratio = rate / OUTPUT_RATE. */
  function StartOf(index: nat, rate: nat): nat { index * rate / OUTPUT_RATE }

  function EndOf(index: nat, rate: nat): nat
  {
    if StartOf(index + 1, rate) > StartOf(index, rate) + 1 then StartOf(index + 1, rate) else StartOf(index, rate) + 1
  }

  /** max(1, floor(length / ratio)). */
  function OutputLength(length: nat, rate: nat): nat
    requires rate > 0
  {
    if length * OUTPUT_RATE / rate > 1 then length * OUTPUT_RATE / rate else 1
  }

  /** The sum of the samples of a window that exist. */
  function Sum(input: seq<real>, from: nat, to: nat): real
    decreases to
  {
    if to <= from then 0.0
    else if to > |input| then Sum(input, from, to - 1)
    else Sum(input, from, to - 1) + input[to - 1]
  }

  function Clamp(v: real): real
  {
    if v > 1.0 then 1.0 else if v < -1.0 then -1.0 else v
  }

  /** Conversion to an integer, toward zero. */
  function Truncate(v: real): int
  {
    if v < 0.0 then -((-v).Floor) else v.Floor
  }

  /** A clamped sample as a signed 16-bit value. */
  function Quantise(v: real): (q: int)
    ensures -0x8000 <= q <= 0x7fff
  {
    var c := Clamp(v);
    if c < 0.0 then Truncate(c * 32768.0) else Truncate(c * 32767.0)
  }

  function Sample(input: seq<real>, index: nat, rate: nat): int
  {
    var from, to := StartOf(index, rate), EndOf(index, rate);
    Quantise(Sum(input, from, to) / (to - from) as real)
  }

  /** Joins the chunks, averages each window and writes the result to a fresh buffer. */
  method ChunksToPcm16(chunks: seq<seq<real>>, rate: nat) returns (pcm: array<int>)
    requires rate > 0
    ensures fresh(pcm)
    ensures pcm.Length == OutputLength(|Flatten(chunks)|, rate)
    ensures forall i | 0 <= i < pcm.Length :: pcm[i] == Sample(Flatten(chunks), i, rate)
    ensures forall i: nat, lo: real, hi: real | i < pcm.Length && WindowWithin(Flatten(chunks), i, rate, lo, hi) ::
              Quantise(lo) <= pcm[i] <= Quantise(hi)
  {
    var input: seq<real> := [];
    var c := 0;
    assert chunks[..0] == [];
    while c < |chunks|
      invariant 0 <= c <= |chunks|
      invariant input == Flatten(chunks[..c])
    {
      assert chunks[..c + 1] == chunks[..c] + [chunks[c]];
      FlattenOne(chunks[..c], chunks[c]);
      input := input + chunks[c];
      c := c + 1;
    }
    assert chunks[..c] == chunks;
    var length := OutputLength(|input|, rate);
    pcm := new int[length];
    var index := 0;
    while index < length
      invariant 0 <= index <= length == pcm.Length
      invariant forall i | 0 <= i < index :: pcm[i] == Sample(input, i, rate)
    {
      var from := index * rate / OUTPUT_RATE;
      var to := (index + 1) * rate / OUTPUT_RATE;
      if to < from + 1 {
        to := from + 1;
      }
      assert from == StartOf(index, rate) && to == EndOf(index, rate);
      var sum := 0.0;
      var sample := from;
      while sample < to && sample < |input|
        invariant from <= sample <= to
        invariant sum == Sum(input, from, sample)
      {
        sum := sum + input[sample];
        sample := sample + 1;
      }
      SumBeyond(input, from, sample, to);
      pcm[index] := Quantise(sum / (to - from) as real);
      index := index + 1;
    }
    SamplesAreAverages(input, rate);
  }

  /** The window of output i: from i * rate / 16000 to (i + 1) * rate / 16000, rounded down, and at least one sample. */
  function WindowFrom(i: nat, rate: nat): nat { i * rate / 16_000 }

  function WindowTo(i: nat, rate: nat): nat
  {
    if (i + 1) * rate / 16_000 <= WindowFrom(i, rate) then WindowFrom(i, rate) + 1 else (i + 1) * rate / 16_000
  }

  /** A sample of the input; beyond its end there is silence. */
  function At(input: seq<real>, j: nat): real { if j < |input| then input[j] else 0.0 }

  /** The samples of the window lie between two levels. */
  predicate WindowWithin(input: seq<real>, i: nat, rate: nat, lo: real, hi: real)
  {
    forall j: nat | WindowFrom(i, rate) <= j < WindowTo(i, rate) :: lo <= At(input, j) <= hi
  }

  lemma OneMore(level: real, n: nat)
    ensures level * (n + 1) as real == level * n as real + level
  {
  }

  lemma {:induction false} SumWithin(input: seq<real>, from: nat, to: nat, lo: real, hi: real)
    requires from <= to && forall j: nat | from <= j < to :: lo <= At(input, j) <= hi
    ensures lo * (to - from) as real <= Sum(input, from, to) <= hi * (to - from) as real
  {
    if from < to {
      SumWithin(input, from, to - 1, lo, hi);
      OneMore(lo, to - 1 - from);
      OneMore(hi, to - 1 - from);
      assert lo <= At(input, to - 1) <= hi;
    }
  }

  lemma AverageBetween(sum: real, lo: real, hi: real, n: real)
    requires n > 0.0 && lo * n <= sum <= hi * n
    ensures lo <= sum / n <= hi
  {
  }

  lemma SampleIs(input: seq<real>, i: nat, rate: nat, lo: real, hi: real) returns (from: nat, to: nat)
    requires WindowWithin(input, i, rate, lo, hi)
    ensures from < to && Sample(input, i, rate) == Quantise(Sum(input, from, to) / (to - from) as real)
    ensures forall j: nat | from <= j < to :: lo <= At(input, j) <= hi
  {
    from, to := WindowFrom(i, rate), WindowTo(i, rate);
    assert from == StartOf(i, rate) && to == EndOf(i, rate);
  }

  lemma SpanAverage(input: seq<real>, from: nat, to: nat, lo: real, hi: real)
    requires from < to && forall j: nat | from <= j < to :: lo <= At(input, j) <= hi
    ensures lo <= Sum(input, from, to) / (to - from) as real <= hi
  {
    SumWithin(input, from, to, lo, hi);
    AverageBetween(Sum(input, from, to), lo, hi, (to - from) as real);
  }

  /** Each output is the average of its window: it lies between the least and the greatest sample there. */
  lemma SampleIsAverage(input: seq<real>, i: nat, rate: nat, lo: real, hi: real)
    requires WindowWithin(input, i, rate, lo, hi)
    ensures Quantise(lo) <= Sample(input, i, rate) <= Quantise(hi)
  {
    var from, to := SampleIs(input, i, rate, lo, hi);
    SpanAverage(input, from, to, lo, hi);
    QuantiseBetween(lo, Sum(input, from, to) / (to - from) as real, hi);
  }

  lemma QuantiseBetween(a: real, v: real, b: real)
    requires a <= v <= b
    ensures Quantise(a) <= Quantise(v) <= Quantise(b)
  {
    QuantiseMonotone(a, v);
    QuantiseMonotone(v, b);
  }

  lemma SamplesAreAverages(input: seq<real>, rate: nat)
    ensures forall i: nat, lo: real, hi: real | WindowWithin(input, i, rate, lo, hi) ::
              Quantise(lo) <= Sample(input, i, rate) <= Quantise(hi)
  {
    forall i: nat, lo: real, hi: real | WindowWithin(input, i, rate, lo, hi)
      ensures Quantise(lo) <= Sample(input, i, rate) <= Quantise(hi)
    {
      SampleIsAverage(input, i, rate, lo, hi);
    }
  }

  /** A window of one level gives that level. */
  lemma ConstantStays(input: seq<real>, i: nat, rate: nat, level: real)
    requires forall j: nat | WindowFrom(i, rate) <= j < WindowTo(i, rate) :: j < |input| && input[j] == level
    ensures Sample(input, i, rate) == Quantise(level)
  {
    SampleIsAverage(input, i, rate, level, level);
  }

  /** Quantising scales by 32768 below zero and by 32767 above, cuts toward zero, and clips. */
  lemma QuantiseNear(v: real)
    ensures -1.0 <= v <= 0.0 ==> v * 32768.0 <= Quantise(v) as real < v * 32768.0 + 1.0 && Quantise(v) <= 0
    ensures 0.0 <= v <= 1.0 ==> v * 32767.0 - 1.0 < Quantise(v) as real <= v * 32767.0 && Quantise(v) >= 0
    ensures v < -1.0 ==> Quantise(v) == -32768
    ensures v > 1.0 ==> Quantise(v) == 32767
  {
  }

  lemma {:induction false} SumBeyond(input: seq<real>, from: nat, sample: nat, to: nat)
    requires sample <= to && (sample == to || sample >= |input|)
    ensures Sum(input, from, to) == Sum(input, from, sample)
  {
    if sample < to {
      SumBeyond(input, from, sample, to - 1);
      if from >= to {
        assert Sum(input, from, to) == 0.0;
      }
    }
  }

  /** Within one unit of the average of its window at full scale, where that does not clip. */
  lemma SampleNear(input: seq<real>, i: nat, rate: nat)
    ensures var from, to := WindowFrom(i, rate), WindowTo(i, rate);
            && from < to
            && var average, sample := Sum(input, from, to) / (to - from) as real, Sample(input, i, rate) as real;
            && (-1.0 <= average <= 0.0 ==> average * 32768.0 <= sample < average * 32768.0 + 1.0)
            && (0.0 <= average <= 1.0 ==> average * 32767.0 - 1.0 < sample <= average * 32767.0)
            && (average < -1.0 ==> sample == -32768.0) && (average > 1.0 ==> sample == 32767.0)
  {
    var from, to := WindowFrom(i, rate), WindowTo(i, rate);
    assert from == StartOf(i, rate) && to == EndOf(i, rate);
    QuantiseNear(Sum(input, from, to) / (to - from) as real);
  }

  /** A sum is the sum of its parts, and of one sample that sample. */
  lemma SumParts(input: seq<real>, a: nat, b: nat, c: nat)
    requires a <= b <= c
    ensures Sum(input, a, c) == Sum(input, a, b) + Sum(input, b, c)
    ensures Sum(input, a, a + 1) == At(input, a)
  {
    SumSplit(input, a, b, c);
  }

  // ---------------------------------------------------------------------------------------------
  // Windows
  // ---------------------------------------------------------------------------------------------

  /** Each window ends where the next one starts. */
  ghost predicate Contiguous(rate: nat)
  {
    forall i: nat :: EndOf(i, rate) == StartOf(i + 1, rate)
  }

  /** Windows start at sample 0, are not empty, and follow each other without gap or overlap exactly from 16 kHz on. */
  lemma WindowsContiguous(rate: nat)
    ensures StartOf(0, rate) == 0
    ensures forall i: nat :: StartOf(i, rate) < EndOf(i, rate)
    ensures Contiguous(rate) <==> rate >= 16_000
  {
  }

  /** The input is at least one output step long. */
  predicate CoversOneStep(length: nat, rate: nat) { length * OUTPUT_RATE >= rate }

  /** Then the last window ends inside the input and fewer than ratio + 1 samples are left over. */
  lemma LittleUnused(length: nat, rate: nat)
    requires rate > 0 && CoversOneStep(length, rate)
    ensures var end := EndOf(OutputLength(length, rate) - 1, rate);
            end <= length && (length - end) * OUTPUT_RATE < rate + OUTPUT_RATE
  {
    var n := OutputLength(length, rate);
    assert n * rate <= length * OUTPUT_RATE < n * rate + rate;
    assert (n - 1) * rate == n * rate - rate;
  }

  /** Later windows end later. */
  lemma EndsGrow(i: nat, j: nat, rate: nat)
    requires i <= j
    ensures EndOf(i, rate) <= EndOf(j, rate)
  {
    assert (i + 1) * rate <= (j + 1) * rate;
  }

  lemma LastInBounds(length: nat, rate: nat)
    requires rate > 0
    ensures EndOf(OutputLength(length, rate) - 1, rate) <= length <==> length >= 1 && length >= rate / OUTPUT_RATE
  {
    if CoversOneStep(length, rate) {
      LittleUnused(length, rate);
    } else {
      assert OutputLength(length, rate) == 1;
      assert StartOf(1, rate) == rate / OUTPUT_RATE;
    }
  }

  /** All windows stay inside the input exactly when there is a sample, and as many as an output step has whole ones. */
  lemma WindowsInBounds(length: nat, rate: nat)
    requires rate > 0
    ensures (forall i: nat | i < OutputLength(length, rate) :: EndOf(i, rate) <= length)
            <==> length >= 1 && length >= rate / 16_000
  {
    var last := OutputLength(length, rate) - 1;
    LastInBounds(length, rate);
    forall i: nat | i <= last
      ensures EndOf(i, rate) <= EndOf(last, rate)
    {
      EndsGrow(i, last, rate);
    }
  }

  // ---------------------------------------------------------------------------------------------
  // Nothing is counted twice
  // ---------------------------------------------------------------------------------------------

  lemma {:induction false} SumSplit(input: seq<real>, a: nat, b: nat, c: nat)
    requires a <= b <= c
    ensures Sum(input, a, c) == Sum(input, a, b) + Sum(input, b, c)
  {
    if b < c {
      SumSplit(input, a, b, c - 1);
    }
  }

  /** The window sums of the first n outputs. */
  function WindowSums(input: seq<real>, n: nat, rate: nat): real
  {
    if n == 0 then 0.0 else WindowSums(input, n - 1, rate) + Sum(input, StartOf(n - 1, rate), EndOf(n - 1, rate))
  }

  /** From 16 kHz on the windows add up to exactly the samples up to the end of the last one. */
  lemma {:induction false} WindowsConserve(input: seq<real>, n: nat, rate: nat)
    requires rate >= OUTPUT_RATE
    ensures WindowSums(input, n, rate) == Sum(input, 0, StartOf(n, rate))
  {
    if n > 0 {
      WindowsConserve(input, n - 1, rate);
      var from, to := StartOf(n - 1, rate), StartOf(n, rate);
      assert EndOf(n - 1, rate) == to && from <= to by {
        WindowsContiguous(rate);
        assert EndOf(n - 1, rate) == StartOf(n - 1 + 1, rate);
      }
      SumSplit(input, 0, from, to);
    }
  }

  /** Louder never becomes quieter, and full scale maps to full scale. */
  lemma QuantiseMonotone(a: real, b: real)
    requires a <= b
    ensures Quantise(a) <= Quantise(b)
    ensures Quantise(0.0) == 0 && Quantise(1.0) == 0x7fff && Quantise(-1.0) == -0x8000
  {
  }
}
