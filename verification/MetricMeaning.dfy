/** What the figures of a metric say about the results it was computed from. */
module MetricMeaning {
  import opened Wrappers
  import opened RealArithmetic
  import opened Calibration
  import opened MetricEngine

  // ------------------------------------------------------------------- the groups

  function Occurrences(tags: seq<string>, tag: string): nat {
    if tags == [] then 0 else Occurrences(tags[1..], tag) + (if tags[0] == tag then 1 else 0)
  }

  /** How often a case belongs to a group: once to the group of all, of its split, of its source and
      of its repository, and to the group of a tag as often as it has the tag. */
  function Belongs(c: Case, group: Group): nat {
    match group
    case All => 1
    case Split(split) => if c.split == split then 1 else 0
    case Source(source) => if c.source == source then 1 else 0
    case Repo(repo) => if c.repo == repo then 1 else 0
    case Tag(tag) => Occurrences(c.tags, tag)
  }

  function TagGroups(tags: seq<string>): seq<Group> {
    seq(|tags|, i requires 0 <= i < |tags| => Tag(tags[i]))
  }

  lemma {:induction false} TagsCounted(tags: seq<string>, group: Group)
    ensures multiset(TagGroups(tags))[group] == if group.Tag? then Occurrences(tags, group.tag) else 0
  {
    if tags == [] {
      assert TagGroups(tags) == [];
    } else {
      TagsCounted(tags[1..], group);
      assert TagGroups(tags) == [Tag(tags[0])] + TagGroups(tags[1..]);
    }
  }

  /** A result is a row of a group of its own component as often as its case belongs to it. */
  lemma TimesExact(cases: map<CaseId, Case>, component: string, group: Group, r: CaseResult)
    ensures Times(cases, component, group)(r)
            == if r.caseId in cases && r.component == component then Belongs(cases[r.caseId], group) else 0
  {
    if r.caseId in cases {
      var c := cases[r.caseId];
      TagsCounted(c.tags, group);
      assert GroupsOf(c) == [All, Split(c.split), Source(c.source), Repo(c.repo)] + TagGroups(c.tags);
      assert multiset(GroupsOf(c)) == multiset([All, Split(c.split), Source(c.source), Repo(c.repo)])
                                      + multiset(TagGroups(c.tags));
    }
  }

  /** The sum of a quantity over the results, each as often as it belongs to the group. */
  function GroupSum(cases: map<CaseId, Case>, results: seq<CaseResult>, component: string, group: Group,
                    f: (Case, CaseResult) -> real): real
  {
    if results == [] then 0.0
    else Share(cases, component, group, f, results[0]) + GroupSum(cases, results[1..], component, group, f)
  }

  lemma {:induction false} ScaleIsProduct(n: nat, x: real)
    ensures Scale(n, x) == n as real * x
  {
    if n > 0 {
      ScaleIsProduct(n - 1, x);
      OneMore((n - 1) as real, x);
      assert n as real == (n - 1) as real + 1.0;
    }
  }

  lemma OneMore(k: real, x: real)
    ensures (k + 1.0) * x == k * x + x
  {
  }

  lemma {:induction false} TotalFront<T>(x: T, rest: seq<T>, f: T -> real)
    ensures MetricEngine.Total([x] + rest, f) == f(x) + MetricEngine.Total(rest, f)
  {
    TotalAppend([x], rest, f);
    assert [x][..0] == [];
    assert MetricEngine.Total([x], f) == MetricEngine.Total([x][..0], f) + f(x);
  }

  /** What a result adds to the sum over a group. */
  function Share(cases: map<CaseId, Case>, component: string, group: Group, f: (Case, CaseResult) -> real,
                 r: CaseResult): real
  {
    if r.caseId in cases && r.component == component
    then Belongs(cases[r.caseId], group) as real * f(cases[r.caseId], r) else 0.0
  }

  lemma WeightedIsShare(cases: map<CaseId, Case>, component: string, group: Group, f: (Case, CaseResult) -> real,
                        r: CaseResult)
    ensures Weighted(Times(cases, component, group), Over(cases, f))(r) == Share(cases, component, group, f, r)
  {
    TimesExact(cases, component, group, r);
    ScaleIsProduct(Times(cases, component, group)(r), Over(cases, f)(r));
  }

  lemma {:induction false} WeightedIsGroupSum(cases: map<CaseId, Case>, results: seq<CaseResult>, component: string,
                                              group: Group, f: (Case, CaseResult) -> real)
    ensures MetricEngine.Total(results, Weighted(Times(cases, component, group), Over(cases, f)))
            == GroupSum(cases, results, component, group, f)
  {
    if results != [] {
      WeightedIsGroupSum(cases, results[1..], component, group, f);
      TotalFront(results[0], results[1..], Weighted(Times(cases, component, group), Over(cases, f)));
      assert [results[0]] + results[1..] == results;
      WeightedIsShare(cases, component, group, f, results[0]);
    }
  }

  /** A sum over the rows of a group is the sum over the results, counted as they belong. */
  lemma RowsSum(cases: map<CaseId, Case>, results: seq<CaseResult>, component: string, group: Group,
                f: (Case, CaseResult) -> real)
    ensures MetricEngine.Total(RowsOf(cases, results, component, group), Over(cases, f))
            == GroupSum(cases, results, component, group, f)
  {
    AppendedTotal(results, Times(cases, component, group), Over(cases, f));
    WeightedIsGroupSum(cases, results, component, group, f);
  }

  /** Which results are rows of a group. */
  ghost predicate InGroup(cases: map<CaseId, Case>, results: seq<CaseResult>, component: string, group: Group,
                          r: CaseResult)
  {
    r in results && r.caseId in cases && r.component == component && Belongs(cases[r.caseId], group) > 0
  }

  lemma RowsExact(cases: map<CaseId, Case>, results: seq<CaseResult>, component: string, group: Group)
    ensures forall r :: r in RowsOf(cases, results, component, group) <==> InGroup(cases, results, component, group, r)
  {
    AppendedMembers(results, Times(cases, component, group));
    forall r ensures Times(cases, component, group)(r) > 0
                     <==> r.caseId in cases && r.component == component && Belongs(cases[r.caseId], group) > 0
    {
      TimesExact(cases, component, group, r);
    }
  }

  function One(c: Case, r: CaseResult): real {
    1.0
  }

  lemma RowsCounted(cases: map<CaseId, Case>, results: seq<CaseResult>, component: string, group: Group)
    ensures |RowsOf(cases, results, component, group)| as real == GroupSum(cases, results, component, group, One)
  {
    var rows := RowsOf(cases, results, component, group);
    RowsExact(cases, results, component, group);
    RowsSum(cases, results, component, group, One);
    CountRows(cases, rows);
  }

  lemma {:induction false} CountRows(cases: map<CaseId, Case>, rows: seq<CaseResult>)
    requires forall r :: r in rows ==> r.caseId in cases
    ensures MetricEngine.Total(rows, Over(cases, One)) == |rows| as real
  {
    if rows != [] {
      assert rows[|rows| - 1] in rows && Over(cases, One)(rows[|rows| - 1]) == 1.0;
      CountRows(cases, rows[..|rows| - 1]);
    }
  }

  // ------------------------------------------------------------------ the metrics

  /** A metric is there for a definition of a component and a group that has a row, and it is
      complete if and only if every row is a complete verdict and, for a metric of samples, there
      is one; its time is the last finish of any result. */
  lemma MetricExists(definitions: Definitions, cases: map<CaseId, Case>, results: seq<CaseResult>, key: MetricKey)
    ensures Computes(definitions, cases, results, key)
            <==> (key.component, key.name) in definitions
                 && exists r :: InGroup(cases, results, key.component, key.group, r)
  {
    RowsExact(cases, results, key.component, key.group);
    var rows := RowsOf(cases, results, key.component, key.group);
    assert rows != [] ==> rows[0] in rows;
  }

  predicate Verdicted(r: CaseResult) {
    r.executed && r.verdict in {Some(Passed), Some(Failed)} && r.complete
  }

  lemma MetricComplete(cases: map<CaseId, Case>, results: seq<CaseResult>, key: MetricKey, m: Measure)
    requires results != []
    ensures var metric := MetricOf(cases, results, key, m);
            && (metric.complete <==>
                  && (forall r :: InGroup(cases, results, key.component, key.group, r) ==> Verdicted(r))
                  && ((m.BrierOf? || m.CalibrationOf?) ==> metric.denominator > 0.0))
            && (exists r :: r in results && r.finishedAt == metric.computedAt)
            && (forall r :: r in results ==> r.finishedAt <= metric.computedAt)
  {
    RowsExact(cases, results, key.component, key.group);
    var rows := RowsOf(cases, results, key.component, key.group);
    assert AllGood(rows) <==> forall r :: r in rows ==> Evaluable(r) && r.complete;
    var i :| 0 <= i < |results| && results[i].finishedAt == LatestFinish(results);
    assert results[i] in results;
  }

  /** A value that gives the numerator back when multiplied with the denominator, none for zero. */
  ghost predicate QuotientOf(value: Option<real>, numerator: real, denominator: real) {
    (value.None? <==> denominator == 0.0) && (value.Some? ==> value.value * denominator == numerator)
  }

  lemma DivideBack(n: real, d: real)
    ensures QuotientOf(if d == 0.0 then None else Some(n / d), n, d)
  {
  }

  /** A quotient times its denominator is its numerator, both summed over the group; there is no
      quotient if and only if the denominator is zero. */
  lemma QuotientExact(cases: map<CaseId, Case>, results: seq<CaseResult>, key: MetricKey,
                      numerator: (Case, CaseResult) -> real, denominator: (Case, CaseResult) -> real)
    requires results != []
    ensures var metric := MetricOf(cases, results, key, Quotient(numerator, denominator));
            && metric.numerator == Some(GroupSum(cases, results, key.component, key.group, numerator))
            && metric.denominator == GroupSum(cases, results, key.component, key.group, denominator)
            && QuotientOf(metric.value, metric.numerator.value, metric.denominator)
  {
    RowsSum(cases, results, key.component, key.group, numerator);
    RowsSum(cases, results, key.component, key.group, denominator);
    RowsQuotient(cases, RowsOf(cases, results, key.component, key.group), numerator, denominator);
  }

  lemma RowsQuotient(cases: map<CaseId, Case>, rows: seq<CaseResult>, numerator: (Case, CaseResult) -> real,
                     denominator: (Case, CaseResult) -> real)
    ensures var v := Value(cases, rows, Quotient(numerator, denominator));
            && v.numerator == Some(MetricEngine.Total(rows, Over(cases, numerator)))
            && v.denominator == MetricEngine.Total(rows, Over(cases, denominator)) && v.known
            && QuotientOf(v.value, v.numerator.value, v.denominator)
  {
    DivideBack(MetricEngine.Total(rows, Over(cases, numerator)), MetricEngine.Total(rows, Over(cases, denominator)));
  }

  /** A count is its numerator, and its denominator the number of rows. */
  lemma CountExact(cases: map<CaseId, Case>, results: seq<CaseResult>, key: MetricKey,
                   counted: (Case, CaseResult) -> real)
    requires results != []
    ensures var metric := MetricOf(cases, results, key, Count(counted));
            && metric.value == metric.numerator
            && metric.numerator == Some(GroupSum(cases, results, key.component, key.group, counted))
            && metric.denominator == GroupSum(cases, results, key.component, key.group, One)
  {
    RowsSum(cases, results, key.component, key.group, counted);
    RowsCounted(cases, results, key.component, key.group);
  }

  // --------------------------------------------------------------------- the rates

  /** In each row the numerator measures a part of the denominator. */
  ghost predicate PartOf(cases: map<CaseId, Case>, results: seq<CaseResult>, key: MetricKey,
                         numerator: (Case, CaseResult) -> real, denominator: (Case, CaseResult) -> real)
  {
    forall r :: InGroup(cases, results, key.component, key.group, r) ==>
      0.0 <= numerator(cases[r.caseId], r) <= denominator(cases[r.caseId], r)
  }

  lemma {:induction false} SumsBetween(cases: map<CaseId, Case>, rows: seq<CaseResult>,
                                       n: (Case, CaseResult) -> real, d: (Case, CaseResult) -> real)
    requires forall r :: r in rows ==> r.caseId in cases && 0.0 <= n(cases[r.caseId], r) <= d(cases[r.caseId], r)
    ensures 0.0 <= MetricEngine.Total(rows, Over(cases, n)) <= MetricEngine.Total(rows, Over(cases, d))
    ensures MetricEngine.Total(rows, Over(cases, n)) == 0.0 <==> forall r :: r in rows ==> n(cases[r.caseId], r) == 0.0
    ensures MetricEngine.Total(rows, Over(cases, n)) == MetricEngine.Total(rows, Over(cases, d))
            <==> forall r :: r in rows ==> n(cases[r.caseId], r) == d(cases[r.caseId], r)
  {
    if rows != [] {
      var rest, last := rows[..|rows| - 1], rows[|rows| - 1];
      assert last in rows && forall r :: r in rows <==> r in rest || r == last;
      SumsBetween(cases, rest, n, d);
    }
  }

  /** A rate lies between zero and one; it is one exactly if the numerator is the whole in every
      row, and zero exactly if it is nothing in every row. */
  lemma RateExact(cases: map<CaseId, Case>, results: seq<CaseResult>, key: MetricKey,
                  numerator: (Case, CaseResult) -> real, denominator: (Case, CaseResult) -> real)
    requires results != [] && PartOf(cases, results, key, numerator, denominator)
    requires MetricOf(cases, results, key, Quotient(numerator, denominator)).value.Some?
    ensures var rate := MetricOf(cases, results, key, Quotient(numerator, denominator)).value.value;
            && 0.0 <= rate <= 1.0
            && (rate == 1.0 <==> forall r :: InGroup(cases, results, key.component, key.group, r) ==>
                                   numerator(cases[r.caseId], r) == denominator(cases[r.caseId], r))
            && (rate == 0.0 <==> forall r :: InGroup(cases, results, key.component, key.group, r) ==>
                                   numerator(cases[r.caseId], r) == 0.0)
  {
    var rows := RowsOf(cases, results, key.component, key.group);
    RowsExact(cases, results, key.component, key.group);
    SumsBetween(cases, rows, numerator, denominator);
    RatioExact(MetricEngine.Total(rows, Over(cases, numerator)), MetricEngine.Total(rows, Over(cases, denominator)));
  }

  lemma RatioExact(n: real, d: real)
    requires 0.0 <= n <= d && d != 0.0
    ensures 0.0 <= n / d <= 1.0 && (n / d == 1.0 <==> n == d) && (n / d == 0.0 <==> n == 0.0)
  {
    ClearDenominator(n, 1.0, d);
    ClearDenominator(n, 0.0, d);
  }

  // The rate of passed cases: of the rows that could be evaluated, those that passed.

  function PassedOne(c: Case, r: CaseResult): real {
    if r.executed && r.verdict == Some(Passed) then 1.0 else 0.0
  }

  function EvaluableOne(c: Case, r: CaseResult): real {
    if Evaluable(r) then 1.0 else 0.0
  }

  ghost predicate Ran(cases: map<CaseId, Case>, results: seq<CaseResult>, key: MetricKey, r: CaseResult) {
    InGroup(cases, results, key.component, key.group, r) && r.executed
  }

  /** The pass rate of a group is one exactly if every row that has a verdict passed, zero exactly
      if none did, and it is there exactly if some row has a verdict. */
  lemma PassRate(cases: map<CaseId, Case>, results: seq<CaseResult>, key: MetricKey)
    requires results != []
    ensures var rate := MetricOf(cases, results, key, Quotient(PassedOne, EvaluableOne)).value;
            && (rate.Some? <==> exists r :: Ran(cases, results, key, r) && r.verdict in {Some(Passed), Some(Failed)})
            && (rate.Some? ==>
                  && 0.0 <= rate.value <= 1.0
                  && (rate.value == 1.0 <==> forall r :: Ran(cases, results, key, r) ==> r.verdict != Some(Failed))
                  && (rate.value == 0.0 <==> forall r :: Ran(cases, results, key, r) ==> r.verdict != Some(Passed)))
  {
    var rows := RowsOf(cases, results, key.component, key.group);
    RowsExact(cases, results, key.component, key.group);
    SumsBetween(cases, rows, EvaluableOne, EvaluableOne);
    if MetricOf(cases, results, key, Quotient(PassedOne, EvaluableOne)).value.Some? {
      RateExact(cases, results, key, PassedOne, EvaluableOne);
    }
  }

  // ------------------------------------------------------------------- the samples

  /** Brier score and calibration error are those of the samples of the rows, which there must be. */
  lemma SamplesExact(cases: map<CaseId, Case>, results: seq<CaseResult>, key: MetricKey,
                     samples: (Case, CaseResult) -> seq<Sample>)
    requires results != []
    ensures var all := Flatten(RowsOf(cases, results, key.component, key.group), SamplesOf(cases, samples));
            var brier := MetricOf(cases, results, key, BrierOf(samples));
            var error := MetricOf(cases, results, key, CalibrationOf(samples));
            && brier.denominator == error.denominator == |all| as real
            && brier.numerator.None? && error.numerator.None?
            && QuotientOf(brier.value, Sum(all, Square), |all| as real)
            && error.value == (if all == [] then None else Some(CalibrationError(all, 10)))
  {
    RowsSamples(cases, RowsOf(cases, results, key.component, key.group), samples);
  }

  lemma RowsSamples(cases: map<CaseId, Case>, rows: seq<CaseResult>, samples: (Case, CaseResult) -> seq<Sample>)
    ensures var all := Flatten(rows, SamplesOf(cases, samples));
            var brier, error := Value(cases, rows, BrierOf(samples)), Value(cases, rows, CalibrationOf(samples));
            && brier.denominator == error.denominator == |all| as real
            && brier.numerator.None? && error.numerator.None?
            && QuotientOf(brier.value, Sum(all, Square), |all| as real)
            && error.value == (if all == [] then None else Some(CalibrationError(all, 10)))
  {
    var all := Flatten(rows, SamplesOf(cases, samples));
    DivideBack(Sum(all, Square), |all| as real);
  }

  function SquaresOf(samples: (Case, CaseResult) -> seq<Sample>): (Case, CaseResult) -> real {
    (c, r) => Sum(samples(c, r), Square)
  }

  function NumberOf(samples: (Case, CaseResult) -> seq<Sample>): (Case, CaseResult) -> real {
    (c, r) => |samples(c, r)| as real
  }

  lemma {:induction false} FlattenSums(cases: map<CaseId, Case>, rows: seq<CaseResult>,
                                       samples: (Case, CaseResult) -> seq<Sample>)
    requires forall r :: r in rows ==> r.caseId in cases
    ensures var all := Flatten(rows, SamplesOf(cases, samples));
            && Sum(all, Square) == MetricEngine.Total(rows, Over(cases, SquaresOf(samples)))
            && |all| as real == MetricEngine.Total(rows, Over(cases, NumberOf(samples)))
  {
    if rows != [] {
      var rest, last := rows[..|rows| - 1], rows[|rows| - 1];
      FlattenSums(cases, rest, samples);
      assert last in rows;
      SumAppend(Flatten(rest, SamplesOf(cases, samples)), samples(cases[last.caseId], last), Square);
    }
  }

  /** A Brier score times the number of samples is the sum of their squared distances, both over the
      group; there is none exactly if there are no samples. */
  lemma BrierExact(cases: map<CaseId, Case>, results: seq<CaseResult>, key: MetricKey,
                   samples: (Case, CaseResult) -> seq<Sample>)
    requires results != []
    ensures var brier := MetricOf(cases, results, key, BrierOf(samples));
            && brier.denominator == GroupSum(cases, results, key.component, key.group, NumberOf(samples))
            && QuotientOf(brier.value, GroupSum(cases, results, key.component, key.group, SquaresOf(samples)),
                          brier.denominator)
  {
    SamplesExact(cases, results, key, samples);
    RowsExact(cases, results, key.component, key.group);
    FlattenSums(cases, RowsOf(cases, results, key.component, key.group), samples);
    RowsSum(cases, results, key.component, key.group, SquaresOf(samples));
    RowsSum(cases, results, key.component, key.group, NumberOf(samples));
  }
}
