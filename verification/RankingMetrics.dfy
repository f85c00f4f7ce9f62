/** Set overlap (F1) and ranking (nDCG) scores of the evaluation engine. */
module RankingMetrics {
  import opened RealArithmetic

  // ------------------------------------------------------------------------ F1

  /** Both F1 codes: one for two empty sets, zero when precision and recall vanish. */
  function F1<T>(found: set<T>, gold: set<T>): real {
    if found == {} && gold == {} then 1.0
    else
      var overlap := |found * gold| as real;
      var precision := if found == {} then 0.0 else overlap / |found| as real;
      var recall := if gold == {} then 0.0 else overlap / |gold| as real;
      if precision + recall == 0.0 then 0.0 else 2.0 * precision * recall / (precision + recall)
  }

  lemma OverlapBounds<T>(found: set<T>, gold: set<T>)
    ensures |found * gold| <= |found| && |found * gold| <= |gold|
    ensures |found * gold| == |found| ==> found <= gold
    ensures |found * gold| == |gold| ==> gold <= found
  {
    Subset(found * gold, found);
    Subset(found * gold, gold);
  }

  lemma {:induction false} Subset<T>(part: set<T>, whole: set<T>)
    requires part <= whole
    ensures |part| <= |whole| && (|part| == |whole| ==> part == whole)
  {
    assert whole == part + (whole - part);
    assert |whole| == |part| + |whole - part|;
  }

  lemma HarmonicMean(o: real, f: real, g: real)
    requires 0.0 < o && 0.0 < f && 0.0 < g
    ensures o / f + o / g > 0.0
    ensures 2.0 * (o / f) * (o / g) / (o / f + o / g) == 2.0 * o / (f + g)
  {
    var p, r := o / f, o / g;
    DivideThenMultiply(o, f);
    DivideThenMultiply(o, g);
    ClearDenominator(o, 0.0, f);
    ClearDenominator(o, 0.0, g);
    HarmonicSum(p, r, o, f, g);
    SameQuotient(2.0 * p * r, p + r, 2.0 * o, f + g);
  }

  lemma HarmonicSum(p: real, r: real, o: real, f: real, g: real)
    requires p * f == o && r * g == o
    ensures 2.0 * p * r * (f + g) == 2.0 * o * (p + r)
  {
    assert p * r * f == o * r && p * r * g == o * p;
  }

  lemma SameQuotient(a: real, b: real, c: real, d: real)
    requires b > 0.0 && d > 0.0 && a * d == c * b
    ensures a / b == c / d
  {
    var x, y := a / b, c / d;
    DivideThenMultiply(a, b);
    DivideThenMultiply(c, d);
    Clear(x, y, b, d);
  }

  lemma Clear(x: real, y: real, b: real, d: real)
    requires b > 0.0 && d > 0.0 && x * b * d == y * d * b
    ensures x == y
  {
    assert (x - y) * (b * d) == 0.0;
  }

  /** F1 is the Dice coefficient: twice the overlap over the sum of the sizes. */
  lemma F1IsDice<T>(found: set<T>, gold: set<T>)
    ensures F1(found, gold)
            == if found == {} && gold == {} then 1.0
               else 2.0 * |found * gold| as real / (|found| + |gold|) as real
  {
    if found * gold != {} {
      HarmonicMean(|found * gold| as real, |found| as real, |gold| as real);
    } else if found != {} || gold != {} {
      assert found != {} ==> 0.0 / |found| as real == 0.0;
    }
  }

  /** F1 lies between zero and one, is one exactly when the sets are equal, and does not
      tell the two sets apart. */
  lemma F1Extremes<T>(found: set<T>, gold: set<T>)
    ensures 0.0 <= F1(found, gold) <= 1.0
    ensures F1(found, gold) == 1.0 <==> found == gold
    ensures F1(found, gold) == 0.0 <==> found * gold == {} && !(found == {} && gold == {})
    ensures F1(found, gold) == F1(gold, found)
  {
    F1IsDice(found, gold);
    F1IsDice(gold, found);
    assert found * gold == gold * found;
    if found != {} || gold != {} {
      OverlapBounds(found, gold);
      DiceExtremes(2 * |found * gold|, |found| + |gold|);
      assert found == gold ==> found * gold == found;
    }
  }

  lemma DiceExtremes(a: nat, b: nat)
    requires a <= b && 0 < b
    ensures 0.0 <= a as real / b as real <= 1.0
    ensures a as real / b as real == 1.0 <==> a == b
    ensures a as real / b as real == 0.0 <==> a == 0
  {
    DivideThenMultiply(a as real, b as real);
    ClearDenominator(a as real, 1.0, b as real);
    ClearDenominator(a as real, 0.0, b as real);
  }

  // ---------------------------------------------------------------------- nDCG

  /** The weight of a rank, 1 / log2(rank + 1) in the engine; only its shape matters. */
  ghost predicate Discount(d: nat -> real) {
    && (forall i: nat :: 0 < i ==> d(i) > 0.0)
    && (forall i: nat, j: nat :: 0 < i < j ==> d(j) < d(i))
  }

  /** The number of gold items among the first n ranks. */
  function Hits<T(==)>(ranking: seq<T>, gold: set<T>, n: nat): (hits: nat)
    requires n <= |ranking|
    ensures hits <= n
  {
    if n == 0 then 0 else Hits(ranking, gold, n - 1) + (if ranking[n - 1] in gold then 1 else 0)
  }

  function Gain<T(==)>(ranking: seq<T>, gold: set<T>, d: nat -> real, n: nat): real
    requires n <= |ranking|
  {
    if n == 0 then 0.0
    else Gain(ranking, gold, d, n - 1) + (if ranking[n - 1] in gold then d(n) else 0.0)
  }

  /** The gain of n hits in the first n ranks. */
  function Ideal(d: nat -> real, n: nat): real {
    if n == 0 then 0.0 else Ideal(d, n - 1) + d(n)
  }

  function Min(a: nat, b: nat): nat { if a < b then a else b }

  function Ndcg<T(==)>(ranking: seq<T>, gold: set<T>, d: nat -> real, k: nat): real {
    if gold == {} then 1.0
    else
      var ideal := Ideal(d, Min(|gold|, k));
      if ideal == 0.0 then 0.0 else Gain(ranking, gold, d, Min(k, |ranking|)) / ideal
  }

  /** The loop form of the engine's two sums. */
  method ComputeNdcg<T(==)>(ranking: seq<T>, gold: set<T>, d: nat -> real, k: nat) returns (r: real)
    ensures r == Ndcg(ranking, gold, d, k)
  {
    if gold == {} {
      return 1.0;
    }
    var score := 0.0;
    for index := 1 to Min(k, |ranking|) + 1
      invariant score == Gain(ranking, gold, d, index - 1)
    {
      if ranking[index - 1] in gold {
        score := score + d(index);
      }
    }
    var ideal := 0.0;
    for index := 1 to Min(|gold|, k) + 1
      invariant ideal == Ideal(d, index - 1)
    {
      ideal := ideal + d(index);
    }
    r := if ideal == 0.0 then 0.0 else score / ideal;
  }

  /** The first `hits` ranks are all gold and no later one is. */
  predicate Packed<T(==)>(ranking: seq<T>, gold: set<T>, n: nat)
    requires n <= |ranking|
  {
    forall i :: 0 <= i < Hits(ranking, gold, n) ==> ranking[i] in gold
  }

  lemma {:induction false} IdealGrows(d: nat -> real, m: nat, n: nat)
    requires Discount(d) && m <= n
    ensures 0.0 <= Ideal(d, m) <= Ideal(d, n) && (m < n ==> Ideal(d, m) < Ideal(d, n))
  {
    if m < n {
      IdealGrows(d, m, n - 1);
    } else if m > 0 {
      IdealGrows(d, m - 1, m - 1);
    }
  }

  /** Hits are worth most in the first ranks. */
  lemma {:induction false} GainAtMostIdeal<T>(ranking: seq<T>, gold: set<T>, d: nat -> real, n: nat)
    requires Discount(d) && n <= |ranking|
    ensures 0.0 <= Gain(ranking, gold, d, n) <= Ideal(d, Hits(ranking, gold, n))
    ensures Gain(ranking, gold, d, n) == Ideal(d, Hits(ranking, gold, n)) <==> Packed(ranking, gold, n)
  {
    if n > 0 {
      GainAtMostIdeal(ranking, gold, d, n - 1);
      var before := Hits(ranking, gold, n - 1);
      if ranking[n - 1] in gold {
        PackedStep(ranking, gold, n);
        assert before + 1 < n ==> d(n) < d(before + 1);
      }
    }
  }

  lemma PackedStep<T>(ranking: seq<T>, gold: set<T>, n: nat)
    requires 0 < n <= |ranking| && ranking[n - 1] in gold
    ensures Packed(ranking, gold, n) <==> Packed(ranking, gold, n - 1) && Hits(ranking, gold, n - 1) == n - 1
  {
    var before := Hits(ranking, gold, n - 1);
    if Packed(ranking, gold, n) {
      AllHits(ranking, gold, n, before);
    }
  }

  /** If the first h + 1 ranks are gold and there are only h hits before rank n, then h is n - 1. */
  lemma {:induction false} AllHits<T>(ranking: seq<T>, gold: set<T>, n: nat, h: nat)
    requires 0 < n <= |ranking| && h == Hits(ranking, gold, n - 1)
    requires forall i :: 0 <= i < h + 1 ==> i < |ranking| && ranking[i] in gold
    ensures h == n - 1
  {
    if h < n - 1 {
      HitsOfPrefix(ranking, gold, h + 1);
      HitsGrow(ranking, gold, h + 1, n - 1);
    }
  }

  lemma {:induction false} HitsOfPrefix<T>(ranking: seq<T>, gold: set<T>, n: nat)
    requires n <= |ranking| && forall i :: 0 <= i < n ==> ranking[i] in gold
    ensures Hits(ranking, gold, n) == n
  {
    if n > 0 {
      HitsOfPrefix(ranking, gold, n - 1);
    }
  }

  lemma {:induction false} HitsGrow<T>(ranking: seq<T>, gold: set<T>, m: nat, n: nat)
    requires m <= n <= |ranking|
    ensures Hits(ranking, gold, m) <= Hits(ranking, gold, n)
  {
    if m < n {
      HitsGrow(ranking, gold, m, n - 1);
    }
  }

  lemma {:induction false} GainZeroIff<T>(ranking: seq<T>, gold: set<T>, d: nat -> real, n: nat)
    requires Discount(d) && n <= |ranking|
    ensures Gain(ranking, gold, d, n) >= 0.0
    ensures Gain(ranking, gold, d, n) == 0.0 <==> forall i :: 0 <= i < n ==> ranking[i] !in gold
  {
    if n > 0 {
      GainZeroIff(ranking, gold, d, n - 1);
    }
  }

  /** nDCG is zero exactly if there is a gold item and none among the ranks considered. */
  lemma NdcgZeroIff<T>(ranking: seq<T>, gold: set<T>, d: nat -> real, k: nat)
    requires Discount(d)
    ensures Ndcg(ranking, gold, d, k) == 0.0
            <==> gold != {} && forall i :: 0 <= i < k && i < |ranking| ==> ranking[i] !in gold
  {
    IdealGrows(d, 0, Min(|gold|, k));
    GainZeroIff(ranking, gold, d, Min(k, |ranking|));
    if gold != {} && k > 0 {
      ClearDenominator(Gain(ranking, gold, d, Min(k, |ranking|)), 0.0, Ideal(d, Min(|gold|, k)));
    }
  }

  predicate NoDuplicates<T(==)>(s: seq<T>) {
    forall i, j :: 0 <= i < j < |s| ==> s[i] != s[j]
  }

  /** Without duplicates the hits are distinct gold items. */
  lemma {:induction false} HitsAtMostGold<T>(ranking: seq<T>, gold: set<T>, n: nat) returns (found: set<T>)
    requires NoDuplicates(ranking) && n <= |ranking|
    ensures found <= gold && |found| == Hits(ranking, gold, n) <= |gold|
    ensures forall x :: x in found ==> exists i :: 0 <= i < n && ranking[i] == x
  {
    if n == 0 {
      found := {};
    } else {
      found := HitsAtMostGold(ranking, gold, n - 1);
      if ranking[n - 1] in gold {
        assert ranking[n - 1] !in found;
        found := found + {ranking[n - 1]};
      }
    }
    Subset(found, gold);
  }

  /** When nDCG is well behaved: it stays within [0, 1] under every discount exactly when
      the ranks considered hold no more hits than there are gold items. A duplicate-free
      ranking meets this; one that repeats a gold item may not. */
  lemma NdcgWithinOneIff<T>(ranking: seq<T>, gold: set<T>, k: nat)
    ensures (forall d | Discount(d) :: 0.0 <= Ndcg(ranking, gold, d, k) <= 1.0)
            <==> gold == {} || Hits(ranking, gold, Min(k, |ranking|)) <= |gold|
    ensures NoDuplicates(ranking) ==> Hits(ranking, gold, Min(k, |ranking|)) <= |gold|
  {
    var n := Min(k, |ranking|);
    if gold != {} {
      if Hits(ranking, gold, n) <= |gold| {
        forall d | Discount(d) ensures 0.0 <= Ndcg(ranking, gold, d, k) <= 1.0 {
          FewHitsBounded(ranking, gold, d, k);
        }
      } else {
        ManyHitsExceed(ranking, gold, k);
      }
    }
    if NoDuplicates(ranking) {
      var found := HitsAtMostGold(ranking, gold, n);
    }
  }

  lemma FewHitsBounded<T>(ranking: seq<T>, gold: set<T>, d: nat -> real, k: nat)
    requires Discount(d) && gold != {} && Hits(ranking, gold, Min(k, |ranking|)) <= |gold|
    ensures 0.0 <= Ndcg(ranking, gold, d, k) <= 1.0
  {
    var n, m := Min(k, |ranking|), Min(|gold|, k);
    GainAtMostIdeal(ranking, gold, d, n);
    IdealGrows(d, Hits(ranking, gold, n), m);
    IdealGrows(d, 0, m);
    if Ideal(d, m) > 0.0 {
      ClearDenominator(Gain(ranking, gold, d, n), 1.0, Ideal(d, m));
      ClearDenominator(Gain(ranking, gold, d, n), 0.0, Ideal(d, m));
    }
  }

  /** A discount so flat that one surplus hit outweighs the ideal. */
  function Flat(k: nat): nat -> real {
    (i: nat) => 1.0 + 1.0 / (i + k + 1) as real
  }

  lemma FlatIsDiscount(k: nat)
    ensures Discount(Flat(k))
  {
    forall i: nat, j: nat | 0 < i < j ensures Flat(k)(j) < Flat(k)(i) {
      Reciprocal((i + k + 1) as real, (j + k + 1) as real);
    }
  }

  lemma Reciprocal(a: real, b: real)
    requires 0.0 < a < b
    ensures 1.0 / b < 1.0 / a
  {
    DivideThenMultiply(1.0, a);
    ClearDenominator(1.0, 1.0 / a, b);
    ClearDenominator(1.0, 0.0, a);
    assert (b - a) * (1.0 / a) > 0.0;
    DivideThenMultiply(1.0, b);
  }

  lemma {:induction false} FlatGain<T>(ranking: seq<T>, gold: set<T>, k: nat, n: nat)
    requires n <= |ranking|
    ensures Gain(ranking, gold, Flat(k), n) >= Hits(ranking, gold, n) as real
  {
    if n > 0 {
      FlatGain(ranking, gold, k, n - 1);
      assert Flat(k)(n) >= 1.0;
    }
  }

  lemma {:induction false} FlatIdeal(k: nat, m: nat)
    ensures Ideal(Flat(k), m) <= m as real + m as real / (k + 1) as real
    ensures 0 < m ==> Ideal(Flat(k), m) > 0.0
  {
    if m > 0 {
      FlatIdeal(k, m - 1);
      Reciprocal((k + 1) as real, (m + k + 1) as real);
      DivideSum((m - 1) as real, 1.0, (k + 1) as real);
    }
  }

  lemma ManyHitsExceed<T>(ranking: seq<T>, gold: set<T>, k: nat)
    requires gold != {} && Hits(ranking, gold, Min(k, |ranking|)) > |gold|
    ensures Discount(Flat(k)) && Ndcg(ranking, gold, Flat(k), k) > 1.0
  {
    var n, m := Min(k, |ranking|), |gold|;
    FlatIsDiscount(k);
    FlatGain(ranking, gold, k, n);
    FlatIdeal(k, m);
    ClearDenominator(m as real, 1.0, (k + 1) as real);
    DivideThenMultiply(m as real, (k + 1) as real);
    assert m as real / (k + 1) as real < 1.0;
    ClearDenominator(Gain(ranking, gold, Flat(k), n), 1.0, Ideal(Flat(k), m));
  }

  /** All of the first m ranks are gold. */
  predicate GoldUpTo<T(==)>(ranking: seq<T>, gold: set<T>, m: nat) {
    m <= |ranking| && forall i :: 0 <= i < m ==> ranking[i] in gold
  }

  /** A discount so steep after rank p that all later ranks weigh less than that one. */
  function Steep(p: nat, n: nat): nat -> real {
    (i: nat) => if i <= p then 1.0 + 1.0 / (i + 1) as real else 1.0 / ((n + 1) * (i + 1)) as real
  }

  lemma SteepIsDiscount(p: nat, n: nat)
    ensures Discount(Steep(p, n))
  {
    forall i: nat | 0 < i ensures Steep(p, n)(i) > 0.0 {
      ClearDenominator(1.0, 0.0, (i + 1) as real);
      SteepTail(n, i);
    }
    forall i: nat, j: nat | 0 < i < j ensures Steep(p, n)(j) < Steep(p, n)(i) {
      ClearDenominator(1.0, 0.0, (i + 1) as real);
      SteepTail(n, j);
      Reciprocal((i + 1) as real, (j + 1) as real);
      Products(n + 1, i + 1, j + 1);
      Reciprocal(((n + 1) * (i + 1)) as real, ((n + 1) * (j + 1)) as real);
    }
  }

  lemma Products(a: nat, x: nat, y: nat)
    requires 0 < a && 0 < x < y
    ensures 0 < a * x < a * y
  {
    assert a * y - a * x == a * (y - x);
  }

  lemma SteepTail(n: nat, i: nat)
    requires 0 < i
    ensures 0.0 < 1.0 / ((n + 1) * (i + 1)) as real < 1.0 / (n + 1) as real <= 1.0
  {
    Products(n + 1, 1, i + 1);
    Reciprocal((n + 1) as real, ((n + 1) * (i + 1)) as real);
    ClearDenominator(1.0, 0.0, ((n + 1) * (i + 1)) as real);
    ClearDenominator(1.0, 1.0, (n + 1) as real);
  }

  function Tail(count: nat, w: real): real {
    if count == 0 then 0.0 else Tail(count - 1, w) + w
  }

  lemma {:induction false} TailIsQuotient(count: nat, c: real)
    requires c > 0.0
    ensures Tail(count, 1.0 / c) == count as real / c
  {
    if count > 0 {
      TailIsQuotient(count - 1, c);
      DivideSum((count - 1) as real, 1.0, c);
    }
  }

  /** Missing rank p, the gain is at most that of the ranks before and a tail. */
  lemma {:induction false} MissedGain<T>(ranking: seq<T>, gold: set<T>, d: nat -> real, w: real, p: nat, j: nat)
    requires Discount(d) && 0 < p <= j <= |ranking| && ranking[p - 1] !in gold
    requires w > 0.0 && forall i: nat :: p < i ==> d(i) < w
    ensures Gain(ranking, gold, d, j) <= Ideal(d, p - 1) + Tail(j - p, w)
  {
    if j == p {
      GainAtMostIdeal(ranking, gold, d, p - 1);
      IdealGrows(d, Hits(ranking, gold, p - 1), p - 1);
    } else {
      MissedGain(ranking, gold, d, w, p, j - 1);
    }
  }

  /** Under a discount that weighs rank p above all later ones together, missing it costs more
      than they can bring. */
  lemma MissedRankCosts<T>(ranking: seq<T>, gold: set<T>, d: nat -> real, k: nat, p: nat)
    requires gold != {} && 0 < p <= Min(|gold|, k) && p <= |ranking| && ranking[p - 1] !in gold
    requires Discount(d) && d(p) > 1.0
    requires forall i: nat :: p < i ==> d(i) < 1.0 / (Min(k, |ranking|) + 1) as real
    ensures Ndcg(ranking, gold, d, k) < 1.0
  {
    var n, m := Min(k, |ranking|), Min(|gold|, k);
    var w := 1.0 / (n + 1) as real;
    ClearDenominator(1.0, 0.0, (n + 1) as real);
    MissedGain(ranking, gold, d, w, p, n);
    TailIsQuotient(n - p, (n + 1) as real);
    BelowOne((n - p) as real, (n + 1) as real);
    IdealGrows(d, p, m);
    IdealGrows(d, 0, p);
    assert Ideal(d, p) == Ideal(d, p - 1) + d(p);
    BelowOne(Gain(ranking, gold, d, n), Ideal(d, m));
  }

  lemma MissedRankBelow<T>(ranking: seq<T>, gold: set<T>, k: nat, p: nat)
    requires gold != {} && 0 < p <= Min(|gold|, k) && p <= |ranking| && ranking[p - 1] !in gold
    ensures exists d :: Discount(d) && Ndcg(ranking, gold, d, k) < 1.0
  {
    var n := Min(k, |ranking|);
    var d := Steep(p, n);
    SteepIsDiscount(p, n);
    ClearDenominator(1.0, 0.0, (p + 1) as real);
    forall i: nat | p < i ensures d(i) < 1.0 / (n + 1) as real {
      SteepTail(n, i);
    }
    MissedRankCosts(ranking, gold, d, k, p);
  }

  lemma BelowOne(x: real, c: real)
    requires c > 0.0 && x < c
    ensures x / c < 1.0
  {
    DivideThenMultiply(x, c);
    ClearDenominator(x, 1.0, c);
  }

  /** Gold in every rank the ideal counts and a further hit: above one, whatever the discount. */
  lemma SurplusHitExceeds<T>(ranking: seq<T>, gold: set<T>, d: nat -> real, k: nat)
    requires Discount(d) && gold != {} && 0 < k && GoldUpTo(ranking, gold, Min(|gold|, k))
    requires Hits(ranking, gold, Min(k, |ranking|)) > Min(|gold|, k)
    ensures Ndcg(ranking, gold, d, k) > 1.0
  {
    var n, m := Min(k, |ranking|), Min(|gold|, k);
    HitsOfPrefix(ranking, gold, m);
    HitsOfGain(ranking, gold, d, m, n);
    GainOfPrefix(ranking, gold, d, m);
    IdealGrows(d, 0, m);
    ClearDenominator(Gain(ranking, gold, d, n), 1.0, Ideal(d, m));
  }

  lemma {:induction false} GainOfPrefix<T>(ranking: seq<T>, gold: set<T>, d: nat -> real, m: nat)
    requires GoldUpTo(ranking, gold, m)
    ensures Gain(ranking, gold, d, m) == Ideal(d, m)
  {
    if m > 0 {
      GainOfPrefix(ranking, gold, d, m - 1);
    }
  }

  lemma {:induction false} HitsOfGain<T>(ranking: seq<T>, gold: set<T>, d: nat -> real, m: nat, n: nat)
    requires Discount(d) && m <= n <= |ranking|
    ensures Gain(ranking, gold, d, m) <= Gain(ranking, gold, d, n)
    ensures Hits(ranking, gold, m) < Hits(ranking, gold, n) ==> Gain(ranking, gold, d, m) < Gain(ranking, gold, d, n)
  {
    if m < n {
      HitsOfGain(ranking, gold, d, m, n - 1);
    }
  }

  /** Which rankings score above one under every positive decreasing discount, the engine's
      included: exactly those with gold in every rank the ideal counts and a further hit. */
  lemma NdcgAlwaysAboveOneIff<T>(ranking: seq<T>, gold: set<T>, k: nat)
    ensures (forall d | Discount(d) :: Ndcg(ranking, gold, d, k) > 1.0)
            <==> && gold != {} && 0 < k && GoldUpTo(ranking, gold, Min(|gold|, k))
                 && Hits(ranking, gold, Min(k, |ranking|)) > Min(|gold|, k)
  {
    var n, m := Min(k, |ranking|), Min(|gold|, k);
    if gold != {} && 0 < k && GoldUpTo(ranking, gold, m) && Hits(ranking, gold, n) > m {
      forall d | Discount(d) ensures Ndcg(ranking, gold, d, k) > 1.0 {
        SurplusHitExceeds(ranking, gold, d, k);
      }
    } else {
      SometimesAtMostOne(ranking, gold, k);
    }
  }

  lemma SometimesAtMostOne<T>(ranking: seq<T>, gold: set<T>, k: nat)
    requires !(gold != {} && 0 < k && GoldUpTo(ranking, gold, Min(|gold|, k))
               && Hits(ranking, gold, Min(k, |ranking|)) > Min(|gold|, k))
    ensures exists d :: Discount(d) && Ndcg(ranking, gold, d, k) <= 1.0
  {
    var n, m := Min(k, |ranking|), Min(|gold|, k);
    FlatIsDiscount(k);
    if gold != {} && Hits(ranking, gold, n) <= m {
      FewHitsBounded(ranking, gold, Flat(k), k);
    } else if gold != {} {
      assert m <= n && m > 0;
      var i :| 0 <= i < m && ranking[i] !in gold;
      MissedRankBelow(ranking, gold, k, i + 1);
    } else {
      assert Ndcg(ranking, gold, Flat(k), k) == 1.0;
    }
  }

  /** The smallest ranking that exceeds one under every discount, for every k that sees both ranks. */
  lemma RepeatedGoldExceeds<T>(g: T, d: nat -> real, k: nat)
    requires Discount(d) && k >= 2
    ensures Ndcg([g, g], {g}, d, k) > 1.0
  {
    assert Hits([g, g], {g}, 1) == 1;
    SurplusHitExceeds([g, g], {g}, d, k);
  }

  /** A perfect score: with at least one rank considered and no duplicates, nDCG is one
      exactly when the first min(|gold|, k) ranks exist and are all gold. */
  lemma NdcgPerfectIff<T>(ranking: seq<T>, gold: set<T>, d: nat -> real, k: nat)
    requires Discount(d) && gold != {} && 0 < k && NoDuplicates(ranking)
    ensures var m := Min(|gold|, k);
            Ndcg(ranking, gold, d, k) == 1.0
            <==> m <= |ranking| && forall i :: 0 <= i < m ==> ranking[i] in gold
  {
    var n, m := Min(k, |ranking|), Min(|gold|, k);
    var found := HitsAtMostGold(ranking, gold, n);
    var hits := Hits(ranking, gold, n);
    GainAtMostIdeal(ranking, gold, d, n);
    IdealGrows(d, hits, m);
    IdealGrows(d, 0, m);
    OneIff(Gain(ranking, gold, d, n), Ideal(d, m));
    if m <= |ranking| && forall i :: 0 <= i < m ==> ranking[i] in gold {
      HitsOfPrefix(ranking, gold, m);
      HitsGrow(ranking, gold, m, n);
      assert hits == m;
    }
  }

  lemma OneIff(x: real, c: real)
    requires c > 0.0
    ensures x / c == 1.0 <==> x == c
  {
    DivideThenMultiply(x, c);
  }
}
