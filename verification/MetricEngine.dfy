/** Metrics of an evaluation run, computed from its case results group by group. */
module MetricEngine {
  import opened Wrappers
  import opened RealArithmetic
  import opened Binning
  import opened Calibration

  type CaseId = nat

  datatype Verdict = Passed | Failed | NotEvaluable | Indeterminate

  datatype Case = Case(id: CaseId, component: string, split: string, source: string, repo: string, tags: seq<string>)

  // The measured outcome of a case is foreign data; metrics read it through the measures below.
  datatype CaseResult = CaseResult(
    caseId: CaseId,
    component: string,
    executed: bool,
    verdict: Option<Verdict>,
    complete: bool,
    finishedAt: int,
    outcome: string)

  datatype Group = All | Split(split: string) | Source(source: string) | Repo(repo: string) | Tag(tag: string)

  /** A metric is a quotient of sums over the rows of its group, a plain sum beside the number
      of rows, or the Brier score or calibration error of the samples of those rows. */
  datatype Measure =
    | Quotient(numerator: (Case, CaseResult) -> real, denominator: (Case, CaseResult) -> real)
    | Count(counted: (Case, CaseResult) -> real)
    | BrierOf(samples: (Case, CaseResult) -> seq<Sample>)
    | CalibrationOf(samples: (Case, CaseResult) -> seq<Sample>)

  datatype MetricKey = MetricKey(component: string, name: string, group: Group)

  datatype Metric = Metric(value: Option<real>, numerator: Option<real>, denominator: real, complete: bool,
                           computedAt: int)

  type Definitions = map<(string, string), Measure>

  predicate Evaluable(r: CaseResult) {
    r.executed && (r.verdict == Some(Passed) || r.verdict == Some(Failed))
  }

  /** Every group a result is appended to, in the order of the appends. */
  function GroupsOf(c: Case): seq<Group> {
    [All, Split(c.split), Source(c.source), Repo(c.repo)] + seq(|c.tags|, i requires 0 <= i < |c.tags| => Tag(c.tags[i]))
  }

  function Repeat(r: CaseResult, n: nat): (rows: seq<CaseResult>)
    ensures |rows| == n && forall i :: 0 <= i < n ==> rows[i] == r
  {
    seq(n, i => r)
  }

  /** How often a result is appended to a group: a repeated tag counts again. */
  function Times(cases: map<CaseId, Case>, component: string, group: Group): CaseResult -> nat {
    (r: CaseResult) =>
      if r.caseId !in cases || r.component != component then 0 else multiset(GroupsOf(cases[r.caseId]))[group]
  }

  /** The rows appended, for results in the given order. */
  function Appended(results: seq<CaseResult>, times: CaseResult -> nat): seq<CaseResult> {
    if results == [] then []
    else
      var last := results[|results| - 1];
      Appended(results[..|results| - 1], times) + Repeat(last, times(last))
  }

  function RowsOf(cases: map<CaseId, Case>, results: seq<CaseResult>, component: string, group: Group): seq<CaseResult> {
    Appended(results, Times(cases, component, group))
  }

  function Total<T>(list: seq<T>, f: T -> real): real {
    if list == [] then 0.0 else Total(list[..|list| - 1], f) + f(list[|list| - 1])
  }

  function Over(cases: map<CaseId, Case>, f: (Case, CaseResult) -> real): CaseResult -> real {
    (r: CaseResult) => if r.caseId in cases then f(cases[r.caseId], r) else 0.0
  }

  function SamplesOf(cases: map<CaseId, Case>, f: (Case, CaseResult) -> seq<Sample>): CaseResult -> seq<Sample> {
    (r: CaseResult) => if r.caseId in cases then f(cases[r.caseId], r) else []
  }

  function Flatten(rows: seq<CaseResult>, f: CaseResult -> seq<Sample>): seq<Sample> {
    if rows == [] then [] else Flatten(rows[..|rows| - 1], f) + f(rows[|rows| - 1])
  }

  datatype Measured = Measured(value: Option<real>, numerator: Option<real>, denominator: real, known: bool)

  function Value(cases: map<CaseId, Case>, rows: seq<CaseResult>, m: Measure): Measured {
    match m
    case Quotient(numerator, denominator) =>
      var n, d := Total(rows, Over(cases, numerator)), Total(rows, Over(cases, denominator));
      Measured(if d == 0.0 then None else Some(n / d), Some(n), d, true)
    case Count(counted) =>
      var n := Total(rows, Over(cases, counted));
      Measured(Some(n), Some(n), |rows| as real, true)
    case BrierOf(samples) =>
      var all := Flatten(rows, SamplesOf(cases, samples));
      Measured(if all == [] then None else Some(Sum(all, Square) / |all| as real), None, |all| as real, all != [])
    case CalibrationOf(samples) =>
      var all := Flatten(rows, SamplesOf(cases, samples));
      Measured(if all == [] then None else Some(CalibrationError(all, 10)), None, |all| as real, all != [])
  }

  predicate AllGood(rows: seq<CaseResult>) {
    forall i :: 0 <= i < |rows| ==> Evaluable(rows[i]) && rows[i].complete
  }

  function LatestFinish(results: seq<CaseResult>): (at: int)
    requires results != []
    ensures exists i :: 0 <= i < |results| && results[i].finishedAt == at
    ensures forall i :: 0 <= i < |results| ==> results[i].finishedAt <= at
  {
    var last := results[|results| - 1].finishedAt;
    if |results| == 1 then last
    else
      var before := LatestFinish(results[..|results| - 1]);
      if last > before then last else before
  }

  function MetricOf(cases: map<CaseId, Case>, results: seq<CaseResult>, key: MetricKey, m: Measure): Metric
    requires results != []
  {
    var rows := RowsOf(cases, results, key.component, key.group);
    var v := Value(cases, rows, m);
    Metric(v.value, v.numerator, v.denominator, AllGood(rows) && v.known, LatestFinish(results))
  }

  /** A metric exists for every definition and every group with at least one row. */
  predicate Computes(definitions: Definitions, cases: map<CaseId, Case>, results: seq<CaseResult>, key: MetricKey) {
    (key.component, key.name) in definitions && RowsOf(cases, results, key.component, key.group) != []
  }

  // ---------------------------------------------- the order of results is immaterial

  lemma {:induction false} TotalAppend<T>(a: seq<T>, b: seq<T>, f: T -> real)
    ensures Total(a + b, f) == Total(a, f) + Total(b, f)
  {
    if b == [] {
      assert a + b == a;
    } else {
      var rest, last := b[..|b| - 1], b[|b| - 1];
      TotalAppend(a, rest, f);
      assert (a + b)[..|a + b| - 1] == a + rest;
    }
  }

  lemma RemoveOne<T>(a: seq<T>, b: seq<T>) returns (before: seq<T>, after: seq<T>)
    requires a != [] && multiset(a) == multiset(b)
    ensures b == before + [a[|a| - 1]] + after
    ensures multiset(a[..|a| - 1]) == multiset(before + after)
  {
    var rest, last := a[..|a| - 1], a[|a| - 1];
    assert a == rest + [last];
    assert last in multiset(b);
    var i :| 0 <= i < |b| && b[i] == last;
    before, after := b[..i], b[i + 1..];
    assert b == before + [last] + after;
    assert multiset(b) == multiset(before + after) + multiset{last};
    assert multiset(a) == multiset(rest) + multiset{last};
    assert multiset(rest) == multiset(a) - multiset{last};
  }

  lemma {:induction false} TotalPermuted<T>(a: seq<T>, b: seq<T>, f: T -> real)
    requires multiset(a) == multiset(b)
    ensures Total(a, f) == Total(b, f)
  {
    if a == [] {
      assert |multiset(b)| == 0;
    } else {
      var last := a[|a| - 1];
      var before, after := RemoveOne(a, b);
      TotalPermuted(a[..|a| - 1], before + after, f);
      TotalAppend(before, after, f);
      TotalAppend(before + [last], after, f);
      TotalAppend(before, [last], f);
    }
  }

  function Weighted(times: CaseResult -> nat, f: CaseResult -> real): CaseResult -> real {
    r => Scale(times(r), f(r))
  }

  function Scale(n: nat, x: real): real {
    if n == 0 then 0.0 else Scale(n - 1, x) + x
  }

  lemma {:induction false} TotalRepeat(r: CaseResult, n: nat, f: CaseResult -> real)
    ensures Total(Repeat(r, n), f) == Scale(n, f(r))
  {
    if n > 0 {
      TotalRepeat(r, n - 1, f);
      assert Repeat(r, n)[..n - 1] == Repeat(r, n - 1);
    }
  }

  /** A sum over the rows of a group is a weighted sum over the results. */
  lemma {:induction false} AppendedTotal(results: seq<CaseResult>, times: CaseResult -> nat, f: CaseResult -> real)
    ensures Total(Appended(results, times), f) == Total(results, Weighted(times, f))
  {
    if results != [] {
      var rest, last := results[..|results| - 1], results[|results| - 1];
      AppendedTotal(rest, times, f);
      TotalAppend(Appended(rest, times), Repeat(last, times(last)), f);
      TotalRepeat(last, times(last), f);
    }
  }

  lemma RowsTotalPermuted(cases: map<CaseId, Case>, a: seq<CaseResult>, b: seq<CaseResult>, component: string,
                          group: Group, f: CaseResult -> real)
    requires multiset(a) == multiset(b)
    ensures Total(RowsOf(cases, a, component, group), f) == Total(RowsOf(cases, b, component, group), f)
  {
    var times := Times(cases, component, group);
    AppendedTotal(a, times, f);
    AppendedTotal(b, times, f);
    TotalPermuted(a, b, Weighted(times, f));
  }

  lemma {:induction false} AppendedMembers(results: seq<CaseResult>, times: CaseResult -> nat)
    ensures forall r :: r in Appended(results, times) <==> r in results && times(r) > 0
  {
    if results != [] {
      var rest, last := results[..|results| - 1], results[|results| - 1];
      AppendedMembers(rest, times);
      assert forall r :: r in results <==> r in rest || r == last;
      assert times(last) > 0 ==> Repeat(last, times(last))[0] == last;
    }
  }

  lemma AppendedPermuted(a: seq<CaseResult>, b: seq<CaseResult>, times: CaseResult -> nat)
    requires multiset(a) == multiset(b)
    ensures forall r :: r in Appended(a, times) <==> r in Appended(b, times)
  {
    AppendedMembers(a, times);
    AppendedMembers(b, times);
    assert forall r :: (r in a <==> r in multiset(a)) && (r in b <==> r in multiset(b));
  }

  lemma SameMembers(x: seq<CaseResult>, y: seq<CaseResult>)
    requires forall r :: r in x <==> r in y
    ensures AllGood(x) == AllGood(y) && (x == [] <==> y == [])
  {
    assert AllGood(x) <==> forall r :: r in x ==> Evaluable(r) && r.complete;
    assert AllGood(y) <==> forall r :: r in y ==> Evaluable(r) && r.complete;
    assert |x| > 0 ==> x[0] in x;
    assert |y| > 0 ==> y[0] in y;
  }

  // Calibration samples, row by row.

  function SumSamples(f: CaseResult -> seq<Sample>, g: Sample -> real): CaseResult -> real {
    r => Sum(f(r), g)
  }

  lemma {:induction false} SumAppend(a: seq<Sample>, b: seq<Sample>, g: Sample -> real)
    ensures Sum(a + b, g) == Sum(a, g) + Sum(b, g)
  {
    if b == [] {
      assert a + b == a;
    } else {
      SumAppend(a, b[..|b| - 1], g);
      assert (a + b)[..|a + b| - 1] == a + b[..|b| - 1];
    }
  }

  lemma {:induction false} FlattenTotal(rows: seq<CaseResult>, f: CaseResult -> seq<Sample>, g: Sample -> real)
    ensures Sum(Flatten(rows, f), g) == Total(rows, SumSamples(f, g))
  {
    if rows != [] {
      FlattenTotal(rows[..|rows| - 1], f, g);
      SumAppend(Flatten(rows[..|rows| - 1], f), f(rows[|rows| - 1]), g);
    }
  }

  /** The gap of a sample inside one bin, zero elsewhere. */
  function GapIn(i: int, n: nat): Sample -> real
    requires n > 0
  {
    (s: Sample) => if InBin(s.probability, i, n) then Gap(s) else 0.0
  }

  lemma {:induction false} MembersGap(samples: seq<Sample>, i: int, n: nat)
    requires n > 0
    ensures Sum(Members(samples, i, n), Gap) == Sum(samples, GapIn(i, n))
  {
    if samples != [] {
      var rest, last := samples[..|samples| - 1], samples[|samples| - 1];
      MembersGap(rest, i, n);
      var before := Members(rest, i, n);
      assert (before + [last])[..|before|] == before && before + [] == before;
    }
  }

  function One(s: Sample): real { 1.0 }

  lemma {:induction false} SumOne(samples: seq<Sample>)
    ensures Sum(samples, One) == |samples| as real
  {
    if samples != [] {
      SumOne(samples[..|samples| - 1]);
    }
  }

  lemma {:induction false} GapTotalFrom(a: seq<Sample>, b: seq<Sample>, n: nat, upTo: nat)
    requires upTo == 0 || upTo <= n
    requires forall i :: 0 <= i < n ==> Sum(a, GapIn(i, n)) == Sum(b, GapIn(i, n))
    ensures GapTotal(a, n, upTo) == GapTotal(b, n, upTo)
  {
    if upTo > 0 {
      GapTotalFrom(a, b, n, upTo - 1);
      MembersGap(a, upTo - 1, n);
      MembersGap(b, upTo - 1, n);
    }
  }

  lemma SamplesPermuted(cases: map<CaseId, Case>, a: seq<CaseResult>, b: seq<CaseResult>, component: string,
                        group: Group, f: CaseResult -> seq<Sample>, g: Sample -> real)
    requires multiset(a) == multiset(b)
    ensures Sum(Flatten(RowsOf(cases, a, component, group), f), g)
            == Sum(Flatten(RowsOf(cases, b, component, group), f), g)
  {
    FlattenTotal(RowsOf(cases, a, component, group), f, g);
    FlattenTotal(RowsOf(cases, b, component, group), f, g);
    RowsTotalPermuted(cases, a, b, component, group, SumSamples(f, g));
  }

  lemma CalibrationPermuted(cases: map<CaseId, Case>, a: seq<CaseResult>, b: seq<CaseResult>, component: string,
                            group: Group, f: CaseResult -> seq<Sample>)
    requires multiset(a) == multiset(b)
    ensures var x, y := Flatten(RowsOf(cases, a, component, group), f), Flatten(RowsOf(cases, b, component, group), f);
            |x| == |y| && (x != [] ==> CalibrationError(x, 10) == CalibrationError(y, 10))
  {
    var x, y := Flatten(RowsOf(cases, a, component, group), f), Flatten(RowsOf(cases, b, component, group), f);
    SamplesPermuted(cases, a, b, component, group, f, One);
    SumOne(x);
    SumOne(y);
    forall i | 0 <= i < 10 ensures Sum(x, GapIn(i, 10)) == Sum(y, GapIn(i, 10)) {
      SamplesPermuted(cases, a, b, component, group, f, GapIn(i, 10));
    }
    GapTotalFrom(x, y, 10, 10);
  }

  lemma LatestPermuted(a: seq<CaseResult>, b: seq<CaseResult>)
    requires a != [] && multiset(a) == multiset(b)
    ensures b != [] && LatestFinish(a) == LatestFinish(b)
  {
    assert a[0] in multiset(b);
    var i :| 0 <= i < |a| && a[i].finishedAt == LatestFinish(a);
    var j :| 0 <= j < |b| && b[j].finishedAt == LatestFinish(b);
    assert a[i] in multiset(a) && b[j] in multiset(b);
    assert a[i] in b && b[j] in a;
  }

  function OneRow(r: CaseResult): real { 1.0 }

  lemma {:induction false} TotalCount(rows: seq<CaseResult>)
    ensures Total(rows, OneRow) == |rows| as real
  {
    if rows != [] {
      TotalCount(rows[..|rows| - 1]);
    }
  }

  lemma RowsCountPermuted(cases: map<CaseId, Case>, a: seq<CaseResult>, b: seq<CaseResult>, component: string,
                          group: Group)
    requires multiset(a) == multiset(b)
    ensures |RowsOf(cases, a, component, group)| == |RowsOf(cases, b, component, group)|
  {
    RowsTotalPermuted(cases, a, b, component, group, OneRow);
    TotalCount(RowsOf(cases, a, component, group));
    TotalCount(RowsOf(cases, b, component, group));
  }

  lemma ValuePermuted(cases: map<CaseId, Case>, a: seq<CaseResult>, b: seq<CaseResult>, component: string,
                      group: Group, m: Measure)
    requires multiset(a) == multiset(b)
    ensures Value(cases, RowsOf(cases, a, component, group), m) == Value(cases, RowsOf(cases, b, component, group), m)
  {
    match m
    case Quotient(numerator, denominator) =>
      RowsTotalPermuted(cases, a, b, component, group, Over(cases, numerator));
      RowsTotalPermuted(cases, a, b, component, group, Over(cases, denominator));
    case Count(counted) =>
      RowsTotalPermuted(cases, a, b, component, group, Over(cases, counted));
      RowsCountPermuted(cases, a, b, component, group);
    case BrierOf(samples) =>
      CalibrationPermuted(cases, a, b, component, group, SamplesOf(cases, samples));
      SamplesPermuted(cases, a, b, component, group, SamplesOf(cases, samples), Square);
    case CalibrationOf(samples) =>
      CalibrationPermuted(cases, a, b, component, group, SamplesOf(cases, samples));
  }

  /** Metrics depend on which results there are, not on the order they are listed in. */
  lemma MetricsOrderFree(definitions: Definitions, cases: map<CaseId, Case>, a: seq<CaseResult>, b: seq<CaseResult>,
                         key: MetricKey)
    requires a != [] && multiset(a) == multiset(b)
    ensures b != [] && (Computes(definitions, cases, a, key) <==> Computes(definitions, cases, b, key))
    ensures Computes(definitions, cases, a, key) ==>
              var m := definitions[(key.component, key.name)];
              MetricOf(cases, a, key, m) == MetricOf(cases, b, key, m)
  {
    LatestPermuted(a, b);
    AppendedPermuted(a, b, Times(cases, key.component, key.group));
    SameMembers(RowsOf(cases, a, key.component, key.group), RowsOf(cases, b, key.component, key.group));
    if Computes(definitions, cases, a, key) {
      ValuePermuted(cases, a, b, key.component, key.group, definitions[(key.component, key.name)]);
    }
  }
}
