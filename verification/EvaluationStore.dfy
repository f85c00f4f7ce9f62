/** The evaluation store: dictionaries whose entries, but for runs and bad cases, never change. */
module EvaluationStorage {
  import opened Wrappers
  import opened MetricEngine
  import BadCases

  type RunId = nat

  datatype RunStatus =
    | Queued | Preparing | Running | Aggregating | Comparing
    | Completed | Partial | FailedRun | Cancelled

  datatype Run = Run(status: RunStatus, cancelRequested: bool, complete: bool)

  datatype StoreError =
    | RunNotFound | RunImmutable | RunTransitionInvalid | CaseResultImmutable | MetricResultImmutable
    | RecoveryStateInvalid

  predicate TerminalRun(s: RunStatus) {
    s.Completed? || s.Partial? || s.FailedRun? || s.Cancelled?
  }

  predicate MayFollow(from: RunStatus, to: RunStatus) {
    match from
    case Queued => to == Preparing || to == FailedRun || to == Cancelled
    case Preparing => to == Running || to == FailedRun || to == Cancelled
    case Running => to == Aggregating || to == FailedRun || to == Cancelled
    case Aggregating => to == Comparing || to == Completed || to == Partial || to == FailedRun || to == Cancelled
    case Comparing => to == Completed || to == Partial || to == FailedRun || to == Cancelled
    case _ => false
  }

  class InMemoryEvaluationStore {
    var runs: map<RunId, Run>
    var caseResults: map<(RunId, CaseId), CaseResult>
    var metricResults: map<(RunId, MetricKey), Metric>
    var badCases: map<BadCases.Fingerprint, BadCases.BadCase>
    var occurrences: map<BadCases.OccurrenceKey, BadCases.Occurrence>
    var events: map<BadCases.Slot, BadCases.Event>
    var verifications: map<nat, BadCases.Verification>
    ghost var history: map<BadCases.Fingerprint, seq<BadCases.Status>>

    ghost function Records(): BadCases.Records
      reads this
    {
      BadCases.Records(badCases, occurrences, events, verifications, history)
    }

    constructor ()
      ensures runs == map[] && caseResults == map[] && metricResults == map[] && Records() == BadCases.NoRecords
    {
      runs, caseResults, metricResults := map[], map[], map[];
      badCases, occurrences, events, verifications, history := map[], map[], map[], map[], map[];
    }

    /** A stored bad case is replaced by its next revision only. */
    method SaveBadCase(id: BadCases.Fingerprint, badCase: BadCases.BadCase) returns (r: Result<(), BadCases.Error>)
      modifies this`badCases, this`history
      ensures var w := BadCases.PutBadCase(id, badCase);
              BadCases.Performs(old(Records()), w, Records(), r)
    {
      if id in badCases {
        if badCases[id] == badCase {
          return Ok(());
        }
        if badCase.revision != badCases[id].revision + 1 {
          return Err(BadCases.BadCaseConflict);
        }
      }
      badCases := badCases[id := badCase];
      history := history[id := (if id in history then history[id] else []) + [badCase.status]];
      r := Ok(());
    }

    method AppendEvent(slot: BadCases.Slot, event: BadCases.Event) returns (r: Result<(), BadCases.Error>)
      modifies this`events
      ensures BadCases.Performs(old(Records()), BadCases.PutEvent(slot, event), Records(), r)
    {
      if slot in events && events[slot] != event {
        return Err(BadCases.EventImmutable);
      }
      events := events[slot := event];
      r := Ok(());
    }

    method AppendOccurrence(key: BadCases.OccurrenceKey, occurrence: BadCases.Occurrence)
      returns (r: Result<(), BadCases.Error>)
      modifies this`occurrences
      ensures BadCases.Performs(old(Records()), BadCases.PutOccurrence(key, occurrence), Records(), r)
    {
      if key in occurrences && occurrences[key] != occurrence {
        return Err(BadCases.OccurrenceImmutable);
      }
      occurrences := occurrences[key := occurrence];
      r := Ok(());
    }

    method SaveVerification(id: nat, verification: BadCases.Verification) returns (r: Result<(), BadCases.Error>)
      modifies this`verifications
      ensures BadCases.Performs(old(Records()), BadCases.PutVerification(id, verification), Records(), r)
    {
      if id in verifications && verifications[id] != verification {
        return Err(BadCases.VerificationImmutable);
      }
      verifications := verifications[id := verification];
      r := Ok(());
    }

    /** A terminal run is immutable, and a status follows the transition table. */
    method UpdateRun(id: RunId, run: Run) returns (r: Result<(), StoreError>)
      modifies this`runs
      ensures id in old(runs) && (run == old(runs)[id] || (!TerminalRun(old(runs)[id].status)
                && (run.status == old(runs)[id].status || MayFollow(old(runs)[id].status, run.status)))) ==>
                r.Ok? && runs == old(runs)[id := run]
      ensures r.Ok? ==> runs == old(runs)[id := run]
      ensures r.Err? ==> runs == old(runs)
    {
      if id !in runs {
        return Err(RunNotFound);
      }
      var current := runs[id];
      if TerminalRun(current.status) && current != run {
        return Err(RunImmutable);
      }
      if run.status != current.status && !MayFollow(current.status, run.status) {
        return Err(RunTransitionInvalid);
      }
      runs := runs[id := run];
      r := Ok(());
    }

    method SaveCaseResult(id: RunId, result: CaseResult) returns (r: Result<(), StoreError>)
      modifies this`caseResults
      ensures r.Ok? <==> BadCases.MayPut(old(caseResults), (id, result.caseId), result)
      ensures r.Ok? ==> caseResults == old(caseResults)[(id, result.caseId) := result]
      ensures r.Err? ==> r.error == CaseResultImmutable && caseResults == old(caseResults)
    {
      var k := (id, result.caseId);
      if k in caseResults && caseResults[k] != result {
        return Err(CaseResultImmutable);
      }
      caseResults := caseResults[k := result];
      r := Ok(());
    }

    method SaveMetricResult(id: RunId, key: MetricKey, metric: Metric) returns (r: Result<(), StoreError>)
      modifies this`metricResults
      ensures r.Ok? <==> BadCases.MayPut(old(metricResults), (id, key), metric)
      ensures r.Ok? ==> metricResults == old(metricResults)[(id, key) := metric]
      ensures r.Err? ==> r.error == MetricResultImmutable && metricResults == old(metricResults)
    {
      var k := (id, key);
      if k in metricResults && metricResults[k] != metric {
        return Err(MetricResultImmutable);
      }
      metricResults := metricResults[k := metric];
      r := Ok(());
    }

    /** The stored results of a run, each once, by case id. */
    method ListCaseResults(id: RunId) returns (list: seq<CaseResult>)
      requires KeyedResults(caseResults, id)
      ensures Listing(list, caseResults, id) && ByCase(list)
    {
      list := [];
      var left := set k | k in caseResults && k.0 == id :: k.1;
      ghost var all := left;
      while left != {}
        invariant left <= all && ByCase(list)
        invariant forall r :: r in list <==> exists c :: c in all && c !in left && caseResults[(id, c)] == r
        invariant forall i, c :: 0 <= i < |list| && c in left ==> list[i].caseId < c
        decreases |left|
      {
        var c := First(left);
        list, left := list + [caseResults[(id, c)]], left - {c};
      }
    }
  }

  method First(cases: set<CaseId>) returns (first: CaseId)
    requires cases != {}
    ensures first in cases && forall c :: c in cases ==> first <= c
  {
    first :| first in cases;
    var left := cases - {first};
    while left != {}
      invariant left <= cases && first in cases
      invariant forall c :: c in cases && c !in left ==> first <= c
      decreases |left|
    {
      var c :| c in left;
      left := left - {c};
      if c < first {
        first := c;
      }
    }
  }

  predicate ByCase(list: seq<CaseResult>) {
    forall i, j :: 0 <= i < j < |list| ==> list[i].caseId < list[j].caseId
  }

  /** The listing by case id is unique. */
  lemma {:induction false} ListingUnique(a: seq<CaseResult>, b: seq<CaseResult>)
    requires ByCase(a) && ByCase(b) && forall x :: x in a <==> x in b
    ensures a == b
    decreases |a|
  {
    if a == [] {
      assert multiset(b) == multiset{} by {
        assert forall x :: x in multiset(b) <==> x in b;
      }
      assert |b| == |multiset(b)|;
    } else {
      assert a[|a| - 1] in a;
      assert b != [] && b[|b| - 1] in b;
      var m, n := |a| - 1, |b| - 1;
      assert a[m] == b[n] by {
        var i :| 0 <= i < |b| && b[i] == a[m];
        var j :| 0 <= j < |a| && a[j] == b[n];
      }
      forall x ensures x in a[..m] <==> x in b[..n] {
        assert x in a[..m] <==> x in a && x != a[m];
        assert x in b[..n] <==> x in b && x != b[n];
      }
      ListingUnique(a[..m], b[..n]);
      assert a == a[..m] + [a[m]] && b == b[..n] + [b[n]];
    }
  }

  /** Results are stored under the case they are for. */
  ghost predicate KeyedResults(results: map<(RunId, CaseId), CaseResult>, id: RunId) {
    forall k :: k in results && k.0 == id ==> results[k].caseId == k.1
  }

  ghost predicate Listing(list: seq<CaseResult>, results: map<(RunId, CaseId), CaseResult>, id: RunId) {
    && (forall i, j :: 0 <= i < j < |list| ==> list[i].caseId != list[j].caseId)
    && (forall r :: r in list <==> exists k :: k in results && k.0 == id && results[k] == r)
  }

  lemma {:induction false} OccursOnce(list: seq<CaseResult>, x: CaseResult)
    requires forall i, j :: 0 <= i < j < |list| ==> list[i].caseId != list[j].caseId
    ensures multiset(list)[x] == if x in list then 1 else 0
  {
    if list != [] {
      var rest, last := list[..|list| - 1], list[|list| - 1];
      assert list == rest + [last];
      OccursOnce(rest, x);
    }
  }

  /** Two listings of the same results are permutations of each other. */
  lemma ListingsPermute(a: seq<CaseResult>, b: seq<CaseResult>, results: map<(RunId, CaseId), CaseResult>, id: RunId)
    requires Listing(a, results, id) && Listing(b, results, id)
    ensures multiset(a) == multiset(b)
  {
    forall x ensures multiset(a)[x] == multiset(b)[x] {
      OccursOnce(a, x);
      OccursOnce(b, x);
      assert x in a <==> x in b;
    }
  }
}
