/** The input level meter: the mean of one byte-valued frequency frame of the
    analyser, scaled to [0, 1]. */
module Level {

  /** One bin of `getByteFrequencyData`. */
  type Byte = x: int | 0 <= x < 256

  const MaxByte: nat := 255

  /** The analyser is created with this FFT size ... */
  const FftSize: nat := 256

  /** ... so every frame it fills holds this many bins. */
  const BinCount: nat := FftSize / 2

  /** Left-to-right sum of a frame, as `reduce((a, b) => a + b, 0)`. */
  function Sum(frame: seq<Byte>): (t: nat)
    ensures t <= MaxByte * |frame|
  {
    if |frame| == 0 then 0 else Sum(frame[..|frame| - 1]) + frame[|frame| - 1]
  }

  /** Mean bin value divided by 255: the width of the level bar. */
  function LevelOf(frame: seq<Byte>): (level: real)
    requires |frame| > 0
    ensures 0.0 <= level <= 1.0
  {
    var n := |frame| as real;
    var total := Sum(frame) as real;
    var full := MaxByte as real;
    DivideMonotone(total, full * n, n);
    assert (full * n) / n == full;
    DivideMonotone(total / n, full, full);
    DivideMonotone(0.0, total / n, full);
    (total / n) / full
  }

  predicate AllBins(frame: seq<Byte>, v: Byte) {
    forall i :: 0 <= i < |frame| ==> frame[i] == v
  }

  /** The sum is zero exactly when every bin is zero. */
  lemma {:induction false} SumZeroIff(frame: seq<Byte>)
    ensures Sum(frame) == 0 <==> AllBins(frame, 0)
  {
    if |frame| > 0 {
      var init := frame[..|frame| - 1];
      SumZeroIff(init);
      if AllBins(frame, 0) {
        assert AllBins(init, 0);
      }
    }
  }

  /** The sum reaches 255 per bin exactly when every bin is 255. */
  lemma {:induction false} SumFullIff(frame: seq<Byte>)
    ensures Sum(frame) == MaxByte * |frame| <==> AllBins(frame, 255)
  {
    if |frame| > 0 {
      var init := frame[..|frame| - 1];
      SumFullIff(init);
      if AllBins(frame, 255) {
        assert AllBins(init, 255);
      }
    }
  }

  /** A silent frame shows an empty bar, and only a silent frame does. */
  lemma LevelZeroIff(frame: seq<Byte>)
    requires |frame| > 0
    ensures LevelOf(frame) == 0.0 <==> AllBins(frame, 0)
  {
    SumZeroIff(frame);
    var n := |frame| as real;
    var total := Sum(frame) as real;
    if total != 0.0 {
      assert total / n > 0.0;
    }
  }

  /** A saturated frame shows a full bar, and only a saturated frame does. */
  lemma LevelOneIff(frame: seq<Byte>)
    requires |frame| > 0
    ensures LevelOf(frame) == 1.0 <==> AllBins(frame, 255)
  {
    SumFullIff(frame);
    var n := |frame| as real;
    var total := Sum(frame) as real;
    if LevelOf(frame) == 1.0 {
      assert total / n == MaxByte as real;
      assert total == MaxByte as real * n;
    }
  }

  /** Louder bins never shrink the sum. */
  lemma {:induction false} SumMonotone(quiet: seq<Byte>, loud: seq<Byte>)
    requires |quiet| == |loud|
    requires forall i :: 0 <= i < |quiet| ==> quiet[i] <= loud[i]
    ensures Sum(quiet) <= Sum(loud)
  {
    if |quiet| > 0 {
      SumMonotone(quiet[..|quiet| - 1], loud[..|loud| - 1]);
    }
  }

  /** Louder bins never shrink the bar. */
  lemma LevelMonotone(quiet: seq<Byte>, loud: seq<Byte>)
    requires |quiet| == |loud| > 0
    requires forall i :: 0 <= i < |quiet| ==> quiet[i] <= loud[i]
    ensures LevelOf(quiet) <= LevelOf(loud)
  {
    SumMonotone(quiet, loud);
    DivideMonotone(Sum(quiet) as real, Sum(loud) as real, |quiet| as real);
    DivideMonotone(Sum(quiet) as real / |quiet| as real, Sum(loud) as real / |quiet| as real, MaxByte as real);
  }

  lemma DivideMonotone(a: real, b: real, n: real)
    requires a <= b && n > 0.0
    ensures a / n <= b / n
  {
    assert b / n - a / n == (b - a) / n;
  }
}
