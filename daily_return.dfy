/**
 * The daily percentage return of one asset (`getUpdownRate`). The
 * `Math.random()` samples are an input: a sequence of reals in [0, 1),
 * one per trial.
 */
module DailyReturn {
  import opened Sums

  /** `Math.max(1, numTry)`: the number of samples averaged. */
  function NumTrials(numTry: int): (n: nat)
    ensures n >= 1 && n >= numTry
    ensures n == 1 || n == numTry
  {
    if numTry < 1 then 1 else numTry
  }

  /**
   * The economy correction: `keikiHosei * updown`, negated for an asset that
   * moves against the economy.
   */
  function Hosei(keikiHosei: real, updown: real, positive: bool): real
  {
    if positive then keikiHosei * updown else -(keikiHosei * updown)
  }

  /** Lower end of the sampling band. */
  function Low(keikiHosei: real, updown: real, positive: bool): real
  {
    -updown + Hosei(keikiHosei, updown, positive)
  }

  /** Upper end of the sampling band. */
  function High(keikiHosei: real, updown: real, positive: bool): real
  {
    updown + Hosei(keikiHosei, updown, positive)
  }

  /** Every sample lies in [0, 1), as `Math.random()` promises. */
  ghost predicate UnitSamples(draws: seq<real>)
  {
    forall i :: 0 <= i < |draws| ==> 0.0 <= draws[i] < 1.0
  }

  /** The mean of the samples. */
  function Mean(draws: seq<real>): real
    requires |draws| > 0
  {
    Sum(draws) / |draws| as real
  }

  /**
   * The return as a closed form: the mean sample mapped linearly from
   * [0, 1) onto the band [low, high).
   */
  function UpdownRate(keikiHosei: real, updown: real, numTry: int, positive: bool, draws: seq<real>): real
    requires |draws| == NumTrials(numTry)
  {
    var low := Low(keikiHosei, updown, positive);
    low + (High(keikiHosei, updown, positive) - low) * Mean(draws)
  }

  /** A sum of `n` samples from [0, 1) lies in [0, n), and is 0 only for no samples. */
  lemma {:induction false} SampleSumBounds(draws: seq<real>)
    requires UnitSamples(draws)
    ensures 0.0 <= Sum(draws)
    ensures |draws| > 0 ==> Sum(draws) < |draws| as real
  {
    if |draws| > 0 {
      SampleSumBounds(draws[..|draws| - 1]);
    }
  }

  /** The mean of samples from [0, 1) lies in [0, 1). */
  lemma MeanBounds(draws: seq<real>)
    requires |draws| > 0 && UnitSamples(draws)
    ensures 0.0 <= Mean(draws) < 1.0
  {
    SampleSumBounds(draws);
    var n := |draws| as real;
    assert Mean(draws) * n == Sum(draws);
  }

  /**
   * A point `low + width * m` with `m` in [0, 1) lies between `low` and
   * `low + width`, open at the far end, on the side the sign of `width` picks.
   */
  lemma BandPoint(low: real, width: real, m: real, r: real)
    requires 0.0 <= m < 1.0
    requires r == low + width * m
    ensures width >= 0.0 ==> low <= r <= low + width
    ensures width > 0.0 ==> r < low + width
    ensures width < 0.0 ==> low + width < r <= low
  {
    if width > 0.0 {
      assert width * (1.0 - m) > 0.0;
    } else if width < 0.0 {
      assert (-width) * (1.0 - m) > 0.0;
      assert (-width) * m >= 0.0;
    } else {
      assert width * m == 0.0;
    }
  }

  /**
   * The return lies in the band [-updown + hosei, updown + hosei], open at the
   * top when `updown` is positive; for a negative `updown` the ends swap.
   */
  lemma UpdownBand(keikiHosei: real, updown: real, numTry: int, positive: bool, draws: seq<real>)
    requires |draws| == NumTrials(numTry)
    requires UnitSamples(draws)
    ensures updown >= 0.0 ==>
      Low(keikiHosei, updown, positive) <= UpdownRate(keikiHosei, updown, numTry, positive, draws)
                                        <= High(keikiHosei, updown, positive)
    ensures updown > 0.0 ==>
      UpdownRate(keikiHosei, updown, numTry, positive, draws) < High(keikiHosei, updown, positive)
    ensures updown < 0.0 ==>
      High(keikiHosei, updown, positive) < UpdownRate(keikiHosei, updown, numTry, positive, draws)
                                         <= Low(keikiHosei, updown, positive)
  {
    MeanBounds(draws);
    var low := Low(keikiHosei, updown, positive);
    var high := High(keikiHosei, updown, positive);
    BandPoint(low, high - low, Mean(draws), UpdownRate(keikiHosei, updown, numTry, positive, draws));
    assert high - low == 2.0 * updown;
  }

  /** An inversely correlated asset behaves like a correlated one in the mirrored economy. */
  lemma InverseCorrelation(keikiHosei: real, updown: real, numTry: int, draws: seq<real>)
    requires |draws| == NumTrials(numTry)
    ensures UpdownRate(keikiHosei, updown, numTry, false, draws) == UpdownRate(-keikiHosei, updown, numTry, true, draws)
  {
  }

  /** The running sum of `getUpdownRate`: every sample stretched by `width` and shifted by `min`. */
  function ShiftedSum(draws: seq<real>, min: real, width: real): real
  {
    if |draws| == 0 then 0.0
    else ShiftedSum(draws[..|draws| - 1], min, width) + (draws[|draws| - 1] * width + min)
  }

  /** One more sample, shifted by `min` and stretched by `width`, keeps the running sum in closed form. */
  lemma ShiftedStep(width: real, min: real, s: real, d: real, i: real)
    ensures width * s + i * min + (d * width + min) == width * (s + d) + (i + 1.0) * min
  {
  }

  /** The shifted sum in closed form: `width` times the plain sum, plus `min` once per sample. */
  lemma {:induction false} ShiftedSumClosed(draws: seq<real>, min: real, width: real)
    ensures ShiftedSum(draws, min, width) == width * Sum(draws) + |draws| as real * min
  {
    if |draws| > 0 {
      var n := |draws| - 1;
      ShiftedSumClosed(draws[..n], min, width);
      ShiftedStep(width, min, Sum(draws[..n]), draws[n], n as real);
    }
  }

  /** Dividing the shifted sum of `n` samples by `n` maps their mean onto the band. */
  lemma MeanOfShifted(width: real, min: real, draws: seq<real>, sum: real)
    requires |draws| > 0
    requires sum == width * Sum(draws) + |draws| as real * min
    ensures sum / |draws| as real == min + width * Mean(draws)
  {
    Rescale(width, min, Sum(draws), |draws| as real, sum);
  }

  /** `n` values spread over `width` from `min` with total `total` average `min` plus `width` times their mean. */
  lemma Rescale(width: real, min: real, total: real, n: real, sum: real)
    requires n > 0.0
    requires sum == width * total + n * min
    ensures sum / n == min + width * (total / n)
  {
    assert sum / n == (width * total) / n + (n * min) / n;
    assert (width * total) / n == width * (total / n);
  }

  /**
   * `getUpdownRate`: average `max(1, numTry)` samples drawn uniformly from the
   * band. `draws[i]` stands for the i-th `Math.random()` value.
   */
  method GetUpdownRate(keikiHosei: real, updown: real, numTry: int, positive: bool, draws: seq<real>)
      returns (rate: real)
    requires |draws| == NumTrials(numTry)
    requires UnitSamples(draws)
    ensures rate == UpdownRate(keikiHosei, updown, numTry, positive, draws)
    ensures updown >= 0.0 ==>
      Low(keikiHosei, updown, positive) <= rate <= High(keikiHosei, updown, positive)
    ensures updown > 0.0 ==> rate < High(keikiHosei, updown, positive)
    ensures updown < 0.0 ==> High(keikiHosei, updown, positive) < rate <= Low(keikiHosei, updown, positive)
  {
    var hosei := keikiHosei * updown;
    if !positive {
      hosei := -hosei;
    }
    var max := updown + hosei;
    var min := -updown + hosei;

    var trials := NumTrials(numTry);
    var width := max - min;
    var sum := 0.0;
    var i := 0;
    while i < trials
      invariant 0 <= i <= trials
      invariant sum == ShiftedSum(draws[..i], min, width)
    {
      assert draws[..i + 1][..i] == draws[..i];
      sum := sum + draws[i] * width + min;
      i := i + 1;
    }
    assert draws[..trials] == draws;
    ShiftedSumClosed(draws, min, width);
    rate := sum / trials as real;
    MeanOfShifted(width, min, draws, sum);
    UpdownBand(keikiHosei, updown, numTry, positive, draws);
  }
}
