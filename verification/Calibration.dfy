/** Expected calibration error, in its two implementations, and the Brier score. */
module Calibration {
  import opened Wrappers
  import opened RealArithmetic
  import opened Binning

  datatype Sample = Sample(probability: real, truth: int)

  // ------------------------------------------------------------- specification

  function Members(samples: seq<Sample>, i: int, n: int): (members: seq<Sample>)
    requires n > 0
  {
    if samples == [] then []
    else
      var last := |samples| - 1;
      Members(samples[..last], i, n)
      + (if InBin(samples[last].probability, i, n) then [samples[last]] else [])
  }

  function Sum(samples: seq<Sample>, f: Sample -> real): real {
    if samples == [] then 0.0 else Sum(samples[..|samples| - 1], f) + f(samples[|samples| - 1])
  }

  function Probability(s: Sample): real { s.probability }

  function Label(s: Sample): real { s.truth as real }

  function Gap(s: Sample): real { s.probability - s.truth as real }

  function Distance(s: Sample): real { Abs(Gap(s)) }

  function Square(s: Sample): real { Gap(s) * Gap(s) }

  /** The net gaps of the first bins, taken without sign. */
  function GapTotal(samples: seq<Sample>, n: int, upTo: nat): (total: real)
    requires upTo == 0 || upTo <= n
    ensures total >= 0.0
  {
    if upTo == 0 then 0.0
    else GapTotal(samples, n, upTo - 1) + Abs(Sum(Members(samples, upTo - 1, n), Gap))
  }

  /** The calibration error: the mean, over the samples, of the net gap of each bin. */
  function CalibrationError(samples: seq<Sample>, n: nat): real
    requires samples != []
  {
    GapTotal(samples, n, n) / |samples| as real
  }

  // ----------------------------------------------------------- implementations

  method Select(samples: seq<Sample>, i: int, n: int) returns (selected: seq<Sample>)
    requires n > 0
    ensures selected == Members(samples, i, n)
  {
    selected := [];
    for k := 0 to |samples|
      invariant selected == Members(samples[..k], i, n)
    {
      assert samples[..k + 1][..k] == samples[..k];
      if InBin(samples[k].probability, i, n) {
        selected := selected + [samples[k]];
      }
    }
    assert samples[..|samples|] == samples;
  }

  method Mean(samples: seq<Sample>, f: Sample -> real) returns (mean: real)
    requires samples != []
    ensures mean == Sum(samples, f) / |samples| as real
  {
    var total := 0.0;
    for k := 0 to |samples|
      invariant total == Sum(samples[..k], f)
    {
      assert samples[..k + 1][..k] == samples[..k];
      total := total + f(samples[k]);
    }
    assert samples[..|samples|] == samples;
    mean := total / |samples| as real;
  }

  /** Confidence and accuracy of the members of one bin, and its weighted gap. */
  method BinGap(members: seq<Sample>, total: nat) returns (confidence: real, accuracy: real, term: real)
    requires members != [] && total > 0
    ensures confidence == Sum(members, Probability) / |members| as real
    ensures accuracy == Sum(members, Label) / |members| as real
    ensures term == Abs(Sum(members, Gap)) / total as real
  {
    confidence := Mean(members, Probability);
    accuracy := Mean(members, Label);
    TermIsGap(members, total);
    term := |members| as real / total as real * Abs(confidence - accuracy);
  }

  datatype Bin = Bin(lower: real, upper: real, count: nat, confidence: real, accuracy: real)

  /** The alignment report: an error for unequal or empty lists, otherwise the error and
      its bins, an empty bin counting as confidence and accuracy zero. */
  method ExpectedCalibrationError(probabilities: seq<real>, labels: seq<int>, binCount: int)
    returns (r: Result<(real, seq<Bin>), string>)
    ensures r.Err? <==> |probabilities| != |labels| || labels == []
    ensures r.Ok? ==>
              var n := if binCount < 0 then 0 else binCount;
              var samples := Zip(probabilities, labels);
              && r.value.0 == CalibrationError(samples, n)
              && |r.value.1| == n
              && forall i :: 0 <= i < n ==> ReportsBin(r.value.1[i], samples, i, n)
  {
    if |probabilities| != |labels| || labels == [] {
      return Err("ECE requires equal non-empty probability and label lists.");
    }
    var samples, n := Zip(probabilities, labels), if binCount < 0 then 0 else binCount;
    var total := |samples| as real;
    var error: real, bins: seq<Bin> := 0.0, [];
    for i := 0 to n
      invariant error == GapTotal(samples, n, i) / total
      invariant |bins| == i && forall k :: 0 <= k < i ==> ReportsBin(bins[k], samples, k, n)
    {
      var selected := Select(samples, i, n);
      var confidence, accuracy, term := 0.0, 0.0, 0.0;
      if selected != [] {
        confidence, accuracy, term := BinGap(selected, |samples|);
      }
      DivideSum(GapTotal(samples, n, i), Abs(Sum(selected, Gap)), total);
      error := error + term;
      bins := bins + [Bin(i as real / n as real, (i + 1) as real / n as real, |selected|, confidence, accuracy)];
    }
    r := Ok((error, bins));
  }

  ghost predicate ReportsBin(bin: Bin, samples: seq<Sample>, i: int, n: int)
    requires n > 0
  {
    var members := Members(samples, i, n);
    && bin.lower == i as real / n as real && bin.upper == (i + 1) as real / n as real
    && bin.count == |members|
    && bin.confidence == (if members == [] then 0.0 else Sum(members, Probability) / |members| as real)
    && bin.accuracy == if members == [] then 0.0 else Sum(members, Label) / |members| as real
  }

  /** The engine tells the last bin apart before it compares. */
  method EngineMembers(samples: seq<Sample>, i: int, n: int) returns (members: seq<Sample>)
    requires n > 0
    ensures members == Members(samples, i, n)
  {
    var lower, upper := i as real / n as real, (i + 1) as real / n as real;
    members := [];
    for k := 0 to |samples|
      invariant members == Members(samples[..k], i, n)
    {
      assert samples[..k + 1][..k] == samples[..k];
      var p := samples[k].probability;
      if if i == n - 1 then lower <= p <= upper else lower <= p < upper {
        members := members + [samples[k]];
      }
    }
    assert samples[..|samples|] == samples;
  }

  /** The evaluation engine: no value for no probabilities, and empty bins skipped.
      Unequal lists raise as soon as a bin is filled. */
  method Ece(probabilities: seq<real>, labels: seq<int>, bins: int) returns (r: Result<Option<real>, string>)
    ensures probabilities == [] ==> r == Ok(None)
    ensures r.Err? <==> probabilities != [] && |probabilities| != |labels| && bins > 0
    ensures probabilities != [] && bins <= 0 ==> r == Ok(Some(0.0))
    ensures probabilities != [] && bins > 0 && r.Ok? ==>
              r.value == Some(CalibrationError(Zip(probabilities, labels), bins))
  {
    if probabilities == [] {
      return Ok(None);
    }
    if bins <= 0 {
      return Ok(Some(0.0));
    }
    if |probabilities| != |labels| {
      return Err("zip() arguments have different lengths");
    }
    var samples, score := Zip(probabilities, labels), 0.0;
    var total := |samples| as real;
    for i := 0 to bins
      invariant score == GapTotal(samples, bins, i) / total
    {
      var members := EngineMembers(samples, i, bins);
      DivideSum(GapTotal(samples, bins, i), Abs(Sum(members, Gap)), total);
      if members != [] {
        var confidence, accuracy, term := BinGap(members, |samples|);
        score := score + term;
      }
    }
    r := Ok(Some(score));
  }

  function Zip(probabilities: seq<real>, labels: seq<int>): (samples: seq<Sample>)
    requires |probabilities| == |labels|
    ensures |samples| == |labels|
  {
    seq(|labels|, i requires 0 <= i < |labels| => Sample(probabilities[i], labels[i]))
  }

  // -------------------------------------------------------------------- proofs

  lemma {:induction false} GapIsDifference(samples: seq<Sample>)
    ensures Sum(samples, Gap) == Sum(samples, Probability) - Sum(samples, Label)
  {
    if samples != [] {
      GapIsDifference(samples[..|samples| - 1]);
    }
  }

  /** The weighted gap of the means of one bin is the net gap of its members. */
  lemma TermIsGap(members: seq<Sample>, total: nat)
    requires members != [] && total > 0
    ensures |members| as real / total as real
            * Abs(Sum(members, Probability) / |members| as real - Sum(members, Label) / |members| as real)
            == Abs(Sum(members, Gap)) / total as real
  {
    GapIsDifference(members);
    var m, p, y := |members| as real, Sum(members, Probability), Sum(members, Label);
    DivideSum(p, y, m);
    DivideAbs(p - y, m);
    CancelFactor(Abs(p - y), m, total as real);
  }

  /** The samples of one class under any classification. */
  function Class(samples: seq<Sample>, classOf: Sample -> int, i: int): seq<Sample> {
    if samples == [] then []
    else
      var last := |samples| - 1;
      Class(samples[..last], classOf, i) + (if classOf(samples[last]) == i then [samples[last]] else [])
  }

  /** A sum taken class by class. */
  function SumByClass(samples: seq<Sample>, f: Sample -> real, classOf: Sample -> int, upTo: nat): real {
    if upTo == 0 then 0.0
    else SumByClass(samples, f, classOf, upTo - 1) + Sum(Class(samples, classOf, upTo - 1), f)
  }

  lemma ClassSum(samples: seq<Sample>, s: Sample, f: Sample -> real, classOf: Sample -> int, i: int)
    ensures Sum(Class(samples + [s], classOf, i), f)
            == Sum(Class(samples, classOf, i), f) + (if classOf(s) == i then f(s) else 0.0)
  {
    var more, before := samples + [s], Class(samples, classOf, i);
    assert more[..|more| - 1] == samples && more[|more| - 1] == s;
    assert (before + [s])[..|before|] == before && before + [] == before;
  }

  lemma {:induction false} OneMoreSample(samples: seq<Sample>, s: Sample, f: Sample -> real,
                                         classOf: Sample -> int, upTo: nat)
    requires 0 <= classOf(s)
    ensures SumByClass(samples + [s], f, classOf, upTo)
            == SumByClass(samples, f, classOf, upTo) + (if classOf(s) < upTo then f(s) else 0.0)
  {
    if upTo > 0 {
      OneMoreSample(samples, s, f, classOf, upTo - 1);
      ClassSum(samples, s, f, classOf, upTo - 1);
    }
  }

  lemma {:induction false} EmptyClasses(f: Sample -> real, classOf: Sample -> int, upTo: nat)
    ensures SumByClass([], f, classOf, upTo) == 0.0
  {
    if upTo > 0 {
      EmptyClasses(f, classOf, upTo - 1);
    }
  }

  /** Nothing is lost or counted twice: summing class by class is summing. */
  lemma {:induction false} ClassesCoverSamples(samples: seq<Sample>, f: Sample -> real, classOf: Sample -> int, n: nat)
    requires forall i :: 0 <= i < |samples| ==> 0 <= classOf(samples[i]) < n
    ensures SumByClass(samples, f, classOf, n) == Sum(samples, f)
  {
    if samples == [] {
      EmptyClasses(f, classOf, n);
    } else {
      var last := |samples| - 1;
      ClassesCoverSamples(samples[..last], f, classOf, n);
      OneMoreSample(samples[..last], samples[last], f, classOf, n);
      assert samples == samples[..last] + [samples[last]];
    }
  }

  predicate Unit(samples: seq<Sample>) {
    forall i :: 0 <= i < |samples| ==> 0.0 <= samples[i].probability <= 1.0
  }

  /** The bin of a sample, or -1 outside the unit interval. */
  function BinOf(n: nat): Sample -> int
    requires n > 0
  {
    (s: Sample) => if 0.0 <= s.probability <= 1.0 then BinIndex(s.probability, n) else -1
  }

  lemma {:induction false} BinsAreClasses(samples: seq<Sample>, i: int, n: nat)
    requires 0 <= i < n
    ensures Members(samples, i, n) == Class(samples, BinOf(n), i)
  {
    if samples != [] {
      BinsAreClasses(samples[..|samples| - 1], i, n);
      BinsPartition(samples[|samples| - 1].probability, i, n);
    }
  }

  lemma {:induction false} GapAtMostDistance(samples: seq<Sample>)
    ensures Abs(Sum(samples, Gap)) <= Sum(samples, Distance)
  {
    if samples != [] {
      GapAtMostDistance(samples[..|samples| - 1]);
    }
  }

  lemma {:induction false} ErrorBetween(samples: seq<Sample>, n: nat, upTo: nat)
    requires 0 < n && upTo <= n
    ensures Abs(SumByClass(samples, Gap, BinOf(n), upTo)) <= GapTotal(samples, n, upTo)
            <= SumByClass(samples, Distance, BinOf(n), upTo)
  {
    if upTo > 0 {
      ErrorBetween(samples, n, upTo - 1);
      BinsAreClasses(samples, upTo - 1, n);
      GapAtMostDistance(Members(samples, upTo - 1, n));
    }
  }

  predicate Binary(samples: seq<Sample>) {
    forall i :: 0 <= i < |samples| ==> samples[i].truth == 0 || samples[i].truth == 1
  }

  lemma {:induction false} DistanceAtMostCount(samples: seq<Sample>)
    requires Unit(samples) && Binary(samples)
    ensures 0.0 <= Sum(samples, Distance) <= |samples| as real
  {
    if samples != [] {
      DistanceAtMostCount(samples[..|samples| - 1]);
    }
  }

  lemma TotalsOrdered(samples: seq<Sample>, n: nat)
    requires n > 0 && Unit(samples) && Binary(samples)
    ensures Abs(Sum(samples, Gap)) <= GapTotal(samples, n, n) <= Sum(samples, Distance) <= |samples| as real
  {
    ErrorBetween(samples, n, n);
    ClassesCoverSamples(samples, Gap, BinOf(n), n);
    ClassesCoverSamples(samples, Distance, BinOf(n), n);
    DistanceAtMostCount(samples);
  }

  /** The error lies between the net miscalibration and the mean distance, whatever the
      number of bins, and never exceeds one. */
  lemma ErrorBounds(samples: seq<Sample>, n: nat)
    requires samples != [] && n > 0 && Unit(samples) && Binary(samples)
    ensures var error, count := CalibrationError(samples, n), |samples| as real;
            && Abs(Sum(samples, Probability) / count - Sum(samples, Label) / count) <= error
            && 0.0 <= error <= Sum(samples, Distance) / count <= 1.0
  {
    var count, gap := |samples| as real, Sum(samples, Gap);
    TotalsOrdered(samples, n);
    GapIsDifference(samples);
    DivideSum(Sum(samples, Probability), Sum(samples, Label), count);
    DivideAbs(gap, count);
    DivideOrdered(Abs(gap), GapTotal(samples, n, n), Sum(samples, Distance), count);
  }

  lemma DivideOrdered(x: real, y: real, z: real, c: real)
    requires c > 0.0 && 0.0 <= x <= y <= z <= c
    ensures 0.0 <= x / c <= y / c <= z / c <= 1.0
  {
    var q, r := y / c, z / c;
    DivideThenMultiply(y, c);
    DivideThenMultiply(z, c);
    ClearDenominator(x, 0.0, c);
    ClearDenominator(x, q, c);
    ClearDenominator(y, r, c);
    ClearDenominator(z, 1.0, c);
  }

  /** Both implementations return the same value for every input they both accept. */
  method Agree(probabilities: seq<real>, labels: seq<int>, bins: int)
    returns (report: Result<(real, seq<Bin>), string>, engine: Result<Option<real>, string>)
    ensures report.Ok? ==> engine == Ok(Some(report.value.0))
  {
    report := ExpectedCalibrationError(probabilities, labels, bins);
    engine := Ece(probabilities, labels, bins);
  }

  // --------------------------------------------------------------- Brier score

  lemma {:induction false} SumCombines(samples: seq<Sample>, f: Sample -> real, g: Sample -> real,
                                       h: Sample -> real, k: Sample -> real)
    requires forall s :: f(s) == g(s) - 2.0 * h(s) + k(s) && f(s) >= 0.0
    ensures Sum(samples, f) == Sum(samples, g) - 2.0 * Sum(samples, h) + Sum(samples, k)
    ensures Sum(samples, f) >= 0.0
  {
    if samples != [] {
      SumCombines(samples[..|samples| - 1], f, g, h, k);
    }
  }

  lemma {:induction false} SumScales(samples: seq<Sample>, f: Sample -> real, g: Sample -> real, a: real)
    requires forall s :: g(s) == a * f(s)
    ensures Sum(samples, g) == a * Sum(samples, f)
  {
    if samples != [] {
      var rest, last := samples[..|samples| - 1], samples[|samples| - 1];
      SumScales(rest, f, g, a);
      Distribute(a, Sum(rest, f), f(last));
    }
  }

  lemma Distribute(a: real, x: real, y: real)
    ensures a * (x + y) == a * x + a * y
  {
  }

  lemma {:induction false} SumOfOnes(samples: seq<Sample>)
    ensures Sum(samples, s => 1.0) == |samples| as real
  {
    if samples != [] {
      SumOfOnes(samples[..|samples| - 1]);
    }
  }

  function Shifted(a: real): Sample -> real { s => (Distance(s) - a) * (Distance(s) - a) }

  function Scaled(a: real): Sample -> real { s => a * Distance(s) }

  function Constant(a: real): Sample -> real { s => a * 1.0 }

  lemma SquareExpands(a: real)
    ensures forall s :: Shifted(a)(s) == Square(s) - 2.0 * Scaled(a)(s) + Constant(a * a)(s) && Shifted(a)(s) >= 0.0
  {
    forall s: Sample
      ensures Shifted(a)(s) == Square(s) - 2.0 * Scaled(a)(s) + Constant(a * a)(s) && Shifted(a)(s) >= 0.0
    {
      assert Distance(s) * Distance(s) == Square(s);
    }
  }

  lemma ScaledSums(samples: seq<Sample>, a: real)
    ensures Sum(samples, Scaled(a)) == a * Sum(samples, Distance)
    ensures Sum(samples, Constant(a)) == a * |samples| as real
  {
    var one := (s: Sample) => 1.0;
    SumScales(samples, Distance, Scaled(a), a);
    SumScales(samples, one, Constant(a), a);
    SumOfOnes(samples);
  }

  /** Squared deviations from any point have a non-negative sum. */
  lemma Spread(samples: seq<Sample>, a: real)
    ensures Sum(samples, Square) - 2.0 * Sum(samples, Scaled(a)) + Sum(samples, Constant(a * a)) >= 0.0
  {
    SquareExpands(a);
    SumCombines(samples, Shifted(a), Square, Scaled(a), Constant(a * a));
  }

  /** The squared mean distance never exceeds the Brier score. */
  lemma MeanSquare(samples: seq<Sample>)
    requires samples != []
    ensures var mean := Sum(samples, Distance) / |samples| as real;
            mean * mean <= Sum(samples, Square) / |samples| as real
  {
    var mean := Sum(samples, Distance) / |samples| as real;
    Spread(samples, mean);
    ScaledSums(samples, mean);
    ScaledSums(samples, mean * mean);
    MeanOfSquares(Sum(samples, Square), Sum(samples, Distance), |samples| as real,
                  Sum(samples, Scaled(mean)), Sum(samples, Constant(mean * mean)));
  }

  lemma MeanOfSquares(q: real, s: real, count: real, scaled: real, constant: real)
    requires count > 0.0 && q - 2.0 * scaled + constant >= 0.0
    requires scaled == s / count * s && constant == s / count * (s / count) * count
    ensures s / count * (s / count) <= q / count
  {
    var mean := s / count;
    DivideThenMultiply(s, count);
    assert mean * s == mean * (mean * count) == mean * mean * count;
    ClearDenominator(q, mean * mean, count);
  }

  method BrierScore(probabilities: seq<real>, labels: seq<int>) returns (r: Result<real, string>)
    ensures r.Err? <==> |probabilities| != |labels| || labels == []
    ensures r.Ok? ==> r.value == Sum(Zip(probabilities, labels), Square) / |labels| as real
  {
    if |probabilities| != |labels| || labels == [] {
      return Err("Brier score requires equal non-empty probability and label lists.");
    }
    var mean := Mean(Zip(probabilities, labels), Square);
    r := Ok(mean);
  }

  /** The two calibration measures are related: the squared calibration error, with any
      number of bins, never exceeds the Brier score. */
  lemma ErrorSquaredAtMostBrier(samples: seq<Sample>, n: nat)
    requires samples != [] && n > 0 && Unit(samples) && Binary(samples)
    ensures CalibrationError(samples, n) * CalibrationError(samples, n)
            <= Sum(samples, Square) / |samples| as real
  {
    ErrorBounds(samples, n);
    MeanSquare(samples);
    SquareMonotone(CalibrationError(samples, n), Sum(samples, Distance) / |samples| as real);
  }
}
