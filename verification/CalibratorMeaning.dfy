/** What fitted bins say about the examples, and which bin answers for a score. */
module CalibratorMeaning {
  import opened Wrappers
  import opened RealArithmetic
  import opened Binning
  import opened MonotonicCalibrator

  /** A score is one of a bin from its lower edge up to but without its upper one, which only the
      last bin includes. */
  predicate Holds(bin: CalibrationBin, last: bool, score: real) {
    bin.lower <= score && (score < bin.upper || (last && score == bin.upper))
  }

  function Held(bin: CalibrationBin, last: bool, examples: seq<Example>): seq<Example> {
    if examples == [] then []
    else (if Holds(bin, last, examples[0].score) then [examples[0]] else []) + Held(bin, last, examples[1..])
  }

  function Labels(examples: seq<Example>): int {
    if examples == [] then 0 else examples[0].truth + Labels(examples[1..])
  }

  lemma LabelsFront(e: Example, rest: seq<Example>)
    ensures Labels([e] + rest) == e.truth + Labels(rest)
  {
    assert ([e] + rest)[1..] == rest;
  }

  lemma BinsHold(bin: CalibrationBin, examples: seq<Example>, n: nat, i: nat, score: real)
    requires i < n && FittedBin(bin, examples, n, i)
    ensures InBin(score, i, n) <==> Holds(bin, i == n - 1, score)
  {
    LastEdge(n);
  }

  lemma {:induction false} CountFront(e: Example, rest: seq<Example>, i: int, n: int)
    requires n > 0
    ensures InBinCount([e] + rest, i, n) == InBinCount(rest, i, n) + (if InBin(e.score, i, n) then 1 else 0)
    ensures LabelSum([e] + rest, i, n) == LabelSum(rest, i, n) + (if InBin(e.score, i, n) then e.truth else 0)
  {
    var all, k := [e] + rest, |rest|;
    if rest == [] {
      assert all[..0] == [];
    } else {
      CountFront(e, rest[..k - 1], i, n);
      assert all[..k] == [e] + rest[..k - 1] && all[k] == rest[k - 1];
    }
  }

  lemma {:induction false} HeldCounts(bin: CalibrationBin, all: seq<Example>, examples: seq<Example>, n: nat, i: nat)
    requires i < n && FittedBin(bin, all, n, i)
    ensures InBinCount(examples, i, n) == |Held(bin, i == n - 1, examples)|
    ensures LabelSum(examples, i, n) == Labels(Held(bin, i == n - 1, examples))
  {
    if examples != [] {
      assert [] + Held(bin, i == n - 1, examples[1..]) == Held(bin, i == n - 1, examples[1..]);
      HeldCounts(bin, all, examples[1..], n, i);
      CountFront(examples[0], examples[1..], i, n);
      assert [examples[0]] + examples[1..] == examples;
      BinsHold(bin, all, n, i, examples[0].score);
      LabelsFront(examples[0], Held(bin, i == n - 1, examples[1..]));
    }
  }

  /** The smoothed rate of a bin: one positive and one negative example are added to its own. */
  function RateIn(bin: CalibrationBin, last: bool, examples: seq<Example>): real {
    (Labels(Held(bin, last, examples)) + 1) as real / (|Held(bin, last, examples)| + 2) as real
  }

  lemma RateOfBin(bin: CalibrationBin, examples: seq<Example>, n: nat, i: nat)
    requires i < n && FittedBin(bin, examples, n, i)
    ensures RateIn(bin, i == n - 1, examples) == Rate(examples, i, n)
  {
    HeldCounts(bin, examples, examples, n, i);
  }

  lemma {:induction false} RunningMaxExact(examples: seq<Example>, n: int, i: nat)
    requires n > 0
    ensures RunningMax(examples, n, i) >= 0.0
    ensures forall k :: 0 <= k <= i ==> Rate(examples, k, n) <= RunningMax(examples, n, i)
    ensures RunningMax(examples, n, i) == 0.0 || exists k :: 0 <= k <= i && RunningMax(examples, n, i) == Rate(examples, k, n)
  {
    if i > 0 {
      RunningMaxExact(examples, n, i - 1);
    }
  }

  /** Bins are fitted with equal widths over the unit interval. */
  lemma FitDivides(bins: seq<CalibrationBin>, examples: seq<Example>, n: nat, i: nat)
    requires i < n && Fitted(bins, examples, n)
    ensures (bins[i].upper - bins[i].lower) * n as real == 1.0 && bins[i].lower * n as real == i as real
  {
    assert FittedBin(bins[i], examples, n, i);
    EqualWidth(i, n);
  }

  /** A bin counts the examples it holds and carries the largest of zero and the smoothed rates of
      the bins up to it. */
  lemma FitMeans(bins: seq<CalibrationBin>, examples: seq<Example>, n: nat, i: nat)
    requires i < n && Fitted(bins, examples, n)
    ensures bins[i].count == |Held(bins[i], i == n - 1, examples)|
    ensures bins[i].probability >= 0.0
    ensures forall k :: 0 <= k <= i ==> RateIn(bins[k], k == n - 1, examples) <= bins[i].probability
    ensures bins[i].probability == 0.0
            || exists k :: 0 <= k <= i && RateIn(bins[k], k == n - 1, examples) == bins[i].probability
  {
    assert FittedBin(bins[i], examples, n, i);
    HeldCounts(bins[i], examples, examples, n, i);
    RunningMaxExact(examples, n, i);
    RatesOfBins(bins, examples, n);
  }

  lemma RatesOfBins(bins: seq<CalibrationBin>, examples: seq<Example>, n: nat)
    requires Fitted(bins, examples, n)
    ensures forall k :: 0 <= k < n ==> RateIn(bins[k], k == n - 1, examples) == Rate(examples, k, n)
  {
    forall k | 0 <= k < n ensures RateIn(bins[k], k == n - 1, examples) == Rate(examples, k, n) {
      assert FittedBin(bins[k], examples, n, k);
      RateOfBin(bins[k], examples, n, k);
    }
  }

  lemma EqualWidth(i: int, n: int)
    requires 0 <= i < n
    ensures (Upper(i, n) - Lower(i, n)) * n as real == 1.0 && Lower(i, n) * n as real == i as real
  {
    LastEdge(n);
    DivideThenMultiply(i as real, n as real);
    DivideThenMultiply((i + 1) as real, n as real);
    Distribute(Upper(i, n), Lower(i, n), n as real);
  }

  lemma Distribute(x: real, y: real, c: real)
    ensures (x - y) * c == x * c - y * c
  {
  }

  lemma {:induction false} CoverExact(bins: seq<CalibrationBin>, value: real, from: nat)
    requires bins != [] && from <= |bins|
    ensures var i := FirstCover(bins, value, from);
            && (forall k :: from <= k < i ==> !(bins[k].lower <= value <= bins[k].upper))
            && ((from <= i && bins[i].lower <= value <= bins[i].upper)
                || (i == |bins| - 1 && forall k :: from <= k < |bins| ==> !(bins[k].lower <= value <= bins[k].upper)))
    decreases |bins| - from
  {
    if from < |bins| && !(bins[from].lower <= value <= bins[from].upper) {
      CoverExact(bins, value, from + 1);
    }
  }

  /** A score is answered by the first bin that contains it, a score outside the unit interval as
      the end of it, and by the last bin if none contains it. */
  lemma PredictsFirst(bins: seq<CalibrationBin>, score: real)
    requires bins != []
    ensures var value := if score < 0.0 then 0.0 else if score > 1.0 then 1.0 else score;
            if exists k :: 0 <= k < |bins| && bins[k].lower <= value <= bins[k].upper then
              exists i :: && 0 <= i < |bins| && bins[i].lower <= value <= bins[i].upper
                          && Predicted(bins, score) == bins[i].probability
                          && forall k :: 0 <= k < i ==> !(bins[k].lower <= value <= bins[k].upper)
            else Predicted(bins, score) == bins[|bins| - 1].probability
  {
    CoverExact(bins, Clamp(score), 0);
  }

  /** With contiguous bins some bin always answers for itself. */
  lemma {:induction false} SomeBinContains(bins: seq<CalibrationBin>, value: real, upTo: nat) returns (i: nat)
    requires Ascends(bins) && 0.0 <= value && upTo < |bins| && value <= bins[upTo].upper
    ensures i <= upTo && bins[i].lower <= value <= bins[i].upper
    decreases upTo
  {
    if bins[upTo].lower <= value {
      i := upTo;
    } else {
      assert upTo > 0;
      i := SomeBinContains(bins, value, upTo - 1);
    }
  }

  /** A fitted calibrator answers every score from a bin that contains it, the first of them. */
  lemma FittedAnswers(bins: seq<CalibrationBin>, examples: seq<Example>, n: nat, score: real)
    requires n > 0 && Fitted(bins, examples, n)
    ensures var value := if score < 0.0 then 0.0 else if score > 1.0 then 1.0 else score;
            exists i :: && 0 <= i < n && bins[i].lower <= value <= bins[i].upper
                        && Predicted(bins, score) == bins[i].probability
                        && forall k :: 0 <= k < i ==> !(bins[k].lower <= value <= bins[k].upper)
  {
    FitAscends(bins, examples, n);
    PredictsFirst(bins, score);
    var i := SomeBinContains(bins, Clamp(score), n - 1);
  }
}
