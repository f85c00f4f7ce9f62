/** The monotone binning calibrator: fitted bins and the probability it predicts. */
module MonotonicCalibrator {
  import opened Wrappers
  import opened RealArithmetic
  import opened Binning

  // Labels are 0 or 1 by convention, but any integer is accepted.
  datatype Example = Example(score: real, truth: int)

  datatype CalibrationBin = CalibrationBin(lower: real, upper: real, probability: real, count: nat)

  // ------------------------------------------------------------- specification

  function InBinCount(examples: seq<Example>, i: int, n: int): nat
    requires n > 0
  {
    if examples == [] then 0
    else
      var last := |examples| - 1;
      InBinCount(examples[..last], i, n) + (if InBin(examples[last].score, i, n) then 1 else 0)
  }

  function LabelSum(examples: seq<Example>, i: int, n: int): int
    requires n > 0
  {
    if examples == [] then 0
    else
      var last := |examples| - 1;
      LabelSum(examples[..last], i, n) + (if InBin(examples[last].score, i, n) then examples[last].truth else 0)
  }

  /** The smoothed mean label of one bin. */
  function Rate(examples: seq<Example>, i: int, n: int): real
    requires n > 0
  {
    (LabelSum(examples, i, n) + 1) as real / (InBinCount(examples, i, n) + 2) as real
  }

  /** The largest rate of the bins up to i. */
  function RunningMax(examples: seq<Example>, n: int, i: nat): real
    requires n > 0
  {
    var before := if i == 0 then 0.0 else RunningMax(examples, n, i - 1);
    if Rate(examples, i, n) < before then before else Rate(examples, i, n)
  }

  // ----------------------------------------------------------- implementations

  method FitBin(examples: seq<Example>, i: int, n: int) returns (rate: real, count: nat)
    requires n > 0
    ensures rate == Rate(examples, i, n) && count == InBinCount(examples, i, n)
  {
    var labels := 0;
    count := 0;
    var lower, upper := i as real / n as real, if i == n - 1 then 1.0 else (i + 1) as real / n as real;
    LastEdge(n);
    for k := 0 to |examples|
      invariant count == InBinCount(examples[..k], i, n)
      invariant labels == LabelSum(examples[..k], i, n)
    {
      assert examples[..k + 1][..k] == examples[..k];
      var score := examples[k].score;
      if lower <= score <= upper && (i == n - 1 || score < upper) {
        count := count + 1;
        labels := labels + examples[k].truth;
      }
    }
    assert examples[..|examples|] == examples;
    rate := (labels + 1) as real / (count + 2) as real;
  }

  lemma LastEdge(n: int)
    requires n > 0
    ensures (n - 1 + 1) as real / n as real == 1.0
  {
  }

  /** With no examples one flat bin; otherwise `binCount` bins, none when it is not positive. */
  method Fit(examples: seq<Example>, binCount: int) returns (bins: seq<CalibrationBin>)
    ensures examples == [] ==> bins == [CalibrationBin(0.0, 1.0, 0.5, 0)]
    ensures examples != [] ==> Fitted(bins, examples, if binCount < 0 then 0 else binCount)
  {
    if examples == [] {
      return [CalibrationBin(0.0, 1.0, 0.5, 0)];
    }
    var n := if binCount < 0 then 0 else binCount;
    bins := [];
    var previous := 0.0;
    for i := 0 to n
      invariant |bins| == i && forall k :: 0 <= k < i ==> FittedBin(bins[k], examples, n, k)
      invariant previous == if i == 0 then 0.0 else RunningMax(examples, n, i - 1)
    {
      var rate, count := FitBin(examples, i, n);
      var probability := if rate < previous then previous else rate;
      previous := probability;
      bins := bins + [CalibrationBin(Lower(i, n), Upper(i, n), probability, count)];
    }
  }

  function Lower(i: int, n: int): real
    requires n > 0
  {
    i as real / n as real
  }

  function Upper(i: int, n: int): real
    requires n > 0
  {
    if i == n - 1 then 1.0 else (i + 1) as real / n as real
  }

  ghost predicate FittedBin(bin: CalibrationBin, examples: seq<Example>, n: int, i: nat)
    requires n > 0
  {
    bin == CalibrationBin(Lower(i, n), Upper(i, n), RunningMax(examples, n, i), InBinCount(examples, i, n))
  }

  ghost predicate Fitted(bins: seq<CalibrationBin>, examples: seq<Example>, n: nat) {
    |bins| == n && forall i :: 0 <= i < n ==> FittedBin(bins[i], examples, n, i)
  }

  function Clamp(score: real): real {
    if score < 0.0 then 0.0 else if score > 1.0 then 1.0 else score
  }

  /** The first bin that covers the score decides, the last one when none does. */
  function FirstCover(bins: seq<CalibrationBin>, value: real, from: nat): (i: nat)
    requires bins != [] && from <= |bins|
    ensures i < |bins|
    decreases |bins| - from
  {
    if from == |bins| then |bins| - 1
    else if bins[from].lower <= value <= bins[from].upper then from
    else FirstCover(bins, value, from + 1)
  }

  function Predicted(bins: seq<CalibrationBin>, score: real): real
    requires bins != []
  {
    bins[FirstCover(bins, Clamp(score), 0)].probability
  }

  /** A calibrator without bins fails on its missing last bin. */
  method Predict(bins: seq<CalibrationBin>, score: real) returns (r: Option<real>)
    ensures r == if bins == [] then None else Some(Predicted(bins, score))
  {
    var value := Clamp(score);
    for i := 0 to |bins|
      invariant bins != [] ==> FirstCover(bins, value, 0) == FirstCover(bins, value, i)
    {
      if bins[i].lower <= value <= bins[i].upper {
        return Some(bins[i].probability);
      }
    }
    r := if bins == [] then None else Some(bins[|bins| - 1].probability);
  }

  // -------------------------------------------------------------------- proofs

  /** Contiguous bins over the unit interval whose probabilities never fall. */
  ghost predicate Ascends(bins: seq<CalibrationBin>) {
    && bins != [] && bins[0].lower == 0.0 && bins[|bins| - 1].upper == 1.0
    && (forall i :: 0 <= i < |bins| - 1 ==> bins[i].upper == bins[i + 1].lower)
    && (forall i :: 0 <= i < |bins| ==> bins[i].lower < bins[i].upper)
    && (forall i, j :: 0 <= i < j < |bins| ==> bins[i].probability <= bins[j].probability)
  }

  /** What makes bins a calibration. */
  ghost predicate Calibrates(bins: seq<CalibrationBin>) {
    Ascends(bins) && forall i :: 0 <= i < |bins| ==> 0.0 < bins[i].probability < 1.0
  }

  predicate LabelsCapped(examples: seq<Example>, k: int, n: int)
    requires n > 0
  {
    LabelSum(examples, k, n) <= InBinCount(examples, k, n)
  }

  lemma Quotient(a: int, b: int)
    requires 0 < b
    ensures 0.0 < a as real / b as real <==> 0 < a
    ensures a as real / b as real < 1.0 <==> a < b
  {
    ClearDenominator(a as real, 1.0, b as real);
    ClearDenominator(a as real, 0.0, b as real);
  }

  lemma RateBounds(examples: seq<Example>, i: int, n: int)
    requires n > 0
    ensures Rate(examples, i, n) > 0.0 <==> 0 <= LabelSum(examples, i, n)
    ensures Rate(examples, i, n) < 1.0 <==> LabelsCapped(examples, i, n)
  {
    Quotient(LabelSum(examples, i, n) + 1, InBinCount(examples, i, n) + 2);
  }

  /** No bin up to i has labels summing above its number of examples. */
  predicate AllCapped(examples: seq<Example>, n: int, i: nat)
    requires n > 0
  {
    LabelsCapped(examples, i, n) && (i > 0 ==> AllCapped(examples, n, i - 1))
  }

  lemma {:induction false} AllCappedIff(examples: seq<Example>, n: int, i: nat)
    requires n > 0
    ensures AllCapped(examples, n, i) <==> forall k :: 0 <= k <= i ==> LabelsCapped(examples, k, n)
  {
    if i > 0 {
      AllCappedIff(examples, n, i - 1);
    }
  }

  lemma Larger(x: real, y: real)
    ensures var m := if y < x then x else y; (m < 1.0 <==> x < 1.0 && y < 1.0) && m >= x
  {
  }

  lemma {:induction false} RunningMaxBounds(examples: seq<Example>, n: int, i: nat)
    requires n > 0
    ensures RunningMax(examples, n, i) >= 0.0
    ensures RunningMax(examples, n, i) < 1.0 <==> AllCapped(examples, n, i)
    ensures i == 0 ==> (RunningMax(examples, n, i) > 0.0 <==> 0 <= LabelSum(examples, 0, n))
  {
    RateBounds(examples, i, n);
    if i > 0 {
      RunningMaxBounds(examples, n, i - 1);
      Larger(RunningMax(examples, n, i - 1), Rate(examples, i, n));
    } else {
      Larger(0.0, Rate(examples, i, n));
    }
  }

  lemma {:induction false} RunningMaxGrows(examples: seq<Example>, n: int, i: nat, j: nat)
    requires n > 0 && i <= j
    ensures RunningMax(examples, n, i) <= RunningMax(examples, n, j)
  {
    if i < j {
      RunningMaxGrows(examples, n, i, j - 1);
    }
  }

  lemma EdgesAscend(i: int, n: int)
    requires 0 <= i < n
    ensures Lower(i, n) < Upper(i, n)
    ensures i < n - 1 ==> Upper(i, n) == Lower(i + 1, n)
    ensures Lower(0, n) == 0.0
  {
    LastEdge(n);
    Edge((i + 1) as real / n as real, i, n);
    DivideThenMultiply((i + 1) as real, n as real);
    ClearDenominator((i + 1) as real, i as real / n as real, n as real);
    DivideThenMultiply(i as real, n as real);
  }

  /** Fitting yields contiguous bins over the unit interval whose probabilities never fall. */
  lemma FitAscends(bins: seq<CalibrationBin>, examples: seq<Example>, n: nat)
    requires n > 0 && Fitted(bins, examples, n)
    ensures Ascends(bins)
  {
    forall i | 0 <= i < n
      ensures bins[i].lower < bins[i].upper
      ensures i < n - 1 ==> bins[i].upper == bins[i + 1].lower
    {
      assert FittedBin(bins[i], examples, n, i);
      assert i < n - 1 ==> FittedBin(bins[i + 1], examples, n, i + 1);
      EdgesAscend(i, n);
    }
    forall i, j | 0 <= i < j < n ensures bins[i].probability <= bins[j].probability {
      assert FittedBin(bins[i], examples, n, i) && FittedBin(bins[j], examples, n, j);
      RunningMaxGrows(examples, n, i, j);
    }
    assert FittedBin(bins[0], examples, n, 0) && FittedBin(bins[n - 1], examples, n, n - 1);
    EdgesAscend(0, n);
  }

  /** The fitted probabilities lie strictly between zero and one exactly when the labels of the
      first bin do not sum below zero and those of no bin above its number of examples. */
  lemma FitCalibratesIff(bins: seq<CalibrationBin>, examples: seq<Example>, n: nat)
    requires n > 0 && Fitted(bins, examples, n)
    ensures Ascends(bins)
    ensures Calibrates(bins)
            <==> && 0 <= LabelSum(examples, 0, n)
                 && forall k :: 0 <= k < n ==> LabelsCapped(examples, k, n)
  {
    FitAscends(bins, examples, n);
    assert FittedBin(bins[0], examples, n, 0) && FittedBin(bins[n - 1], examples, n, n - 1);
    RunningMaxBounds(examples, n, 0);
    RunningMaxBounds(examples, n, n - 1);
    AllCappedIff(examples, n, n - 1);
    assert forall i :: 0 < i < n ==> bins[0].probability <= bins[i].probability;
    assert forall i :: 0 <= i < n - 1 ==> bins[i].probability <= bins[n - 1].probability;
  }

  ghost predicate Binary(examples: seq<Example>) {
    forall i :: 0 <= i < |examples| ==> examples[i].truth == 0 || examples[i].truth == 1
  }

  lemma {:induction false} BinaryLabels(examples: seq<Example>, k: int, n: int)
    requires n > 0 && Binary(examples)
    ensures 0 <= LabelSum(examples, k, n) <= InBinCount(examples, k, n)
  {
    if examples != [] {
      BinaryLabels(examples[..|examples| - 1], k, n);
    }
  }

  /** With labels of zero and one, the fitted bins are a calibration. */
  lemma FitCalibrates(bins: seq<CalibrationBin>, examples: seq<Example>, n: nat)
    requires n > 0 && Fitted(bins, examples, n) && Binary(examples)
    ensures Calibrates(bins)
  {
    forall k | 0 <= k < n ensures 0 <= LabelSum(examples, k, n) && LabelsCapped(examples, k, n) {
      BinaryLabels(examples, k, n);
    }
    FitCalibratesIff(bins, examples, n);
  }

  function Total(bins: seq<CalibrationBin>): nat {
    if bins == [] then 0 else Total(bins[..|bins| - 1]) + bins[|bins| - 1].count
  }

  /** The number of examples scored inside the unit interval. */
  function Scored(examples: seq<Example>): nat {
    if examples == [] then 0
    else
      var last := |examples| - 1;
      Scored(examples[..last]) + (if 0.0 <= examples[last].score <= 1.0 then 1 else 0)
  }

  function CountUpTo(examples: seq<Example>, n: int, upTo: nat): nat
    requires n > 0
  {
    if upTo == 0 then 0 else CountUpTo(examples, n, upTo - 1) + InBinCount(examples, upTo - 1, n)
  }

  lemma {:induction false} OneMoreExample(examples: seq<Example>, e: Example, n: int, upTo: nat)
    requires 0 < n && upTo <= n
    ensures CountUpTo(examples + [e], n, upTo)
            == CountUpTo(examples, n, upTo)
               + (if 0.0 <= e.score <= 1.0 && BinIndex(e.score, n) < upTo then 1 else 0)
  {
    if upTo > 0 {
      OneMoreExample(examples, e, n, upTo - 1);
      BinsPartition(e.score, upTo - 1, n);
      assert (examples + [e])[..|examples|] == examples;
    }
  }

  lemma {:induction false} NoExamples(n: int, upTo: nat)
    requires n > 0
    ensures CountUpTo([], n, upTo) == 0
  {
    if upTo > 0 {
      NoExamples(n, upTo - 1);
    }
  }

  lemma {:induction false} CountsCoverExamples(examples: seq<Example>, n: int)
    requires n > 0
    ensures CountUpTo(examples, n, n) == Scored(examples)
  {
    if examples == [] {
      NoExamples(n, n);
    } else {
      var last := |examples| - 1;
      CountsCoverExamples(examples[..last], n);
      OneMoreExample(examples[..last], examples[last], n, n);
      assert examples == examples[..last] + [examples[last]];
    }
  }

  lemma {:induction false} TotalIsCountUpTo(bins: seq<CalibrationBin>, examples: seq<Example>, n: nat)
    requires n > 0 && |bins| <= n && forall i :: 0 <= i < |bins| ==> FittedBin(bins[i], examples, n, i)
    ensures Total(bins) == CountUpTo(examples, n, |bins|)
  {
    if bins != [] {
      var last := |bins| - 1;
      TotalIsCountUpTo(bins[..last], examples, n);
      assert FittedBin(bins[last], examples, n, last);
    }
  }

  /** Every example scored in the unit interval is counted in exactly one bin. */
  lemma FitCountsEveryExample(bins: seq<CalibrationBin>, examples: seq<Example>, n: nat)
    requires n > 0 && Fitted(bins, examples, n)
    ensures Total(bins) == Scored(examples)
  {
    TotalIsCountUpTo(bins, examples, n);
    CountsCoverExamples(examples, n);
  }

  /** The bin of a larger value is never an earlier one. */
  lemma {:induction false} CoverAscends(bins: seq<CalibrationBin>, low: real, high: real, from: nat)
    requires Ascends(bins) && from <= |bins| && 0.0 <= low <= high <= 1.0
    requires from < |bins| ==> bins[from].lower <= low
    requires from == |bins| ==> low >= 1.0
    ensures FirstCover(bins, low, from) <= FirstCover(bins, high, from)
    decreases |bins| - from
  {
    if from < |bins| && low > bins[from].upper {
      CoverAscends(bins, low, high, from + 1);
    } else if from < |bins| {
      CoverFrom(bins, high, from);
    }
  }

  lemma {:induction false} CoverFrom(bins: seq<CalibrationBin>, value: real, from: nat)
    requires bins != [] && from < |bins|
    ensures from <= FirstCover(bins, value, from)
    decreases |bins| - from
  {
    if from + 1 < |bins| {
      CoverFrom(bins, value, from + 1);
    }
  }

  /** Prediction never falls as the score rises, and stays a proper probability. */
  lemma PredictMonotone(bins: seq<CalibrationBin>, low: real, high: real)
    requires Ascends(bins) && low <= high
    ensures Predicted(bins, low) <= Predicted(bins, high)
    ensures Calibrates(bins) ==> 0.0 < Predicted(bins, low) && Predicted(bins, high) < 1.0
  {
    CoverAscends(bins, Clamp(low), Clamp(high), 0);
  }

  /** A fitted calibrator predicts for every score exactly when it was fitted without
      examples or with a positive number of bins. */
  method FitThenPredict(examples: seq<Example>, binCount: int, low: real, high: real)
    returns (l: Option<real>, h: Option<real>)
    ensures l.Some? && h.Some? <==> examples == [] || binCount > 0
    ensures l.Some? && h.Some? && low <= high ==>
              l.value <= h.value && (Binary(examples) ==> 0.0 < l.value && h.value < 1.0)
  {
    var bins := Fit(examples, binCount);
    if examples != [] && binCount > 0 {
      FitAscends(bins, examples, binCount);
      if Binary(examples) {
        FitCalibrates(bins, examples, binCount);
      }
    }
    l := Predict(bins, low);
    h := Predict(bins, high);
    if bins != [] && low <= high {
      PredictMonotone(bins, low, high);
    }
  }
}
