/**
 Processing an evaluation run. Cases run side by side and may give any result, the process may
 be cut off before any write, and a cancellation may arrive while cases run; the next call
 resumes from the stored status and results.
 */
module EvaluationRuns {
  import opened Wrappers
  import opened Interferences
  import opened MetricEngine
  import opened EvaluationStorage
  import opened BadCases
  import opened BadCaseHistory
  import opened BadCaseWorkflow
  import opened RunAnalysis

  type RunId = EvaluationStorage.RunId
  type CaseId = MetricEngine.CaseId

  datatype Plan = Plan(cases: seq<Case>, concurrency: nat, definitions: Definitions, diagnose: CaseResult -> Fingerprint)

  datatype Failure = StoreFailure(store: StoreError) | BadCaseFailure(badCase: BadCases.Error)

  datatype Ending = Crashed | CancelledRun | Finished(complete: bool) | Raised(failure: Failure)

  /** What the service did: a case started, its result stored. */
  datatype Act = Ran(run: RunId, caseId: CaseId) | Stored(run: RunId, caseId: CaseId)

  /** list_cases yields the planned cases by id, and a plan runs at least one case at a time. */
  ghost predicate ValidPlan(plan: Plan) {
    && plan.cases != [] && plan.concurrency > 0
    && forall i, j :: 0 <= i < j < |plan.cases| ==> plan.cases[i].id < plan.cases[j].id
  }

  function CaseMap(plan: Plan): map<CaseId, Case>
    requires ValidPlan(plan)
  {
    map c | c in plan.cases :: c.id := c
  }

  ghost predicate Planned(plan: Plan, c: CaseId) {
    exists i :: 0 <= i < |plan.cases| && plan.cases[i].id == c
  }

  /** Every planned case has a stored result. */
  ghost predicate AllStored(plan: Plan, results: map<(RunId, CaseId), CaseResult>, id: RunId) {
    forall i :: 0 <= i < |plan.cases| ==> (id, plan.cases[i].id) in results
  }

  /** Past execution: the run only aggregates from here. */
  predicate Counted(s: RunStatus) {
    s.Aggregating? || s.Comparing? || s.Completed? || s.Partial?
  }

  /** A stored metric is what the engine computes from the stored results in any order. */
  ghost predicate MetricExact(plan: Plan, results: map<(RunId, CaseId), CaseResult>, id: RunId,
                              key: MetricKey, metric: Metric)
    requires ValidPlan(plan)
  {
    forall list :: Listing(list, results, id) && list != [] ==>
      Computes(plan.definitions, CaseMap(plan), list, key)
      && metric == MetricOf(CaseMap(plan), list, key, plan.definitions[(key.component, key.name)])
  }

  /** The durable invariant of a run. */
  ghost predicate Progress(plan: Plan, id: RunId, runs: map<RunId, Run>,
                           results: map<(RunId, CaseId), CaseResult>, metrics: map<(RunId, MetricKey), Metric>)
    requires ValidPlan(plan)
  {
    && id in runs && KeyedResults(results, id)
    && (forall c :: (id, c) in results ==> Planned(plan, c))
    && (Counted(runs[id].status) ==> AllStored(plan, results, id))
    && (forall k :: k in metrics && k.0 == id ==>
          AllStored(plan, results, id) && MetricExact(plan, results, id, k.1, metrics[k]))
  }

  /** No case is started, and none stored, once its result is stored. */
  ghost predicate NeverRepeats(log: seq<Act>) {
    forall i, j :: 0 <= i < j < |log| && log[i].Stored? ==> log[j].run != log[i].run || log[j].caseId != log[i].caseId
  }

  ghost predicate LogStored(log: seq<Act>, results: map<(RunId, CaseId), CaseResult>) {
    forall i :: 0 <= i < |log| && log[i].Stored? ==> (log[i].run, log[i].caseId) in results
  }

  /** One call: it started cases without a result, each at most once. */
  ghost predicate StartedFresh(before: seq<Act>, after: seq<Act>, stored: map<(RunId, CaseId), CaseResult>, id: RunId) {
    && before <= after
    && (forall i :: |before| <= i < |after| ==> after[i].run == id && (id, after[i].caseId) !in stored)
    && (forall i, j :: |before| <= i < j < |after| && after[i].Ran? ==> after[j] != after[i])
  }

  ghost predicate Extends(results: map<(RunId, CaseId), CaseResult>, after: map<(RunId, CaseId), CaseResult>) {
    forall k :: k in results ==> k in after && after[k] == results[k]
  }

  function TriggerOf(r: CaseResult): Option<Trigger> {
    if !r.executed then Some(ExecutionError)
    else if r.verdict == Some(Failed) then Some(QualityFailure)
    else if r.verdict == Some(NotEvaluable) then Some(NotEvaluableTrigger)
    else if r.verdict == Some(Indeterminate) || !r.complete then Some(TelemetryIncomplete)
    else None
  }

  function FindingOf(plan: Plan, id: RunId, r: CaseResult): Option<Finding> {
    var trigger := TriggerOf(r);
    if trigger.Some? && (r.verdict != Some(Passed) || !r.complete) then
      Some(Finding(plan.diagnose(r), ResultId(id, r.caseId), trigger.value, r.finishedAt))
    else None
  }

  function FindingsOf(plan: Plan, id: RunId, results: seq<CaseResult>): Findings {
    seq(|results|, i requires 0 <= i < |results| => FindingOf(plan, id, results[i]))
  }

  predicate Good(r: CaseResult) {
    Evaluable(r) && r.complete
  }

  /** Runs a case against the subject; any outcome is possible. */
  class EvaluationAdapter {
    constructor () {
    }

    method Execute(c: Case) returns (r: CaseResult)
      ensures r.caseId == c.id && r.component == c.component
    {
      var executedWell: bool, complete: bool := *, *;
      var verdict: Option<Verdict>, finishedAt: int, outcome: string := *, *, *;
      r := CaseResult(c.id, c.component, executedWell, verdict, complete, finishedAt, outcome);
    }
  }

  class EvaluationService {
    const store: InMemoryEvaluationStore
    const adapter: EvaluationAdapter
    const analyzer: BadCaseAnalyzer
    ghost var log: seq<Act>

    constructor (store: InMemoryEvaluationStore, adapter: EvaluationAdapter, analyzer: BadCaseAnalyzer)
      requires analyzer.store == store
      ensures this.store == store && this.adapter == adapter && this.analyzer == analyzer && log == []
    {
      this.store, this.adapter, this.analyzer, log := store, adapter, analyzer, [];
    }

    ghost predicate Stands(plan: Plan, id: RunId)
      requires ValidPlan(plan)
      reads this, store
    {
      && analyzer.store == store
      && Progress(plan, id, store.runs, store.caseResults, store.metricResults)
      && NeverRepeats(log) && LogStored(log, store.caseResults)
    }

    ghost predicate Progresses(plan: Plan, id: RunId)
      requires ValidPlan(plan)
      reads store
    {
      Progress(plan, id, store.runs, store.caseResults, store.metricResults)
    }

    /** Moves the run on; the new status must be one the stored results vouch for. */
    method MoveTo(plan: Plan, id: RunId, run: Run, status: RunStatus) returns (r: Result<Run, StoreError>)
      requires ValidPlan(plan) && Stands(plan, id) && (Counted(status) ==> AllStored(plan, store.caseResults, id))
      modifies store`runs
      ensures Stands(plan, id)
      ensures r.Ok? ==> r.value == run.(status := status) && store.runs == old(store.runs)[id := r.value]
      ensures r.Err? ==> store.runs == old(store.runs)
      ensures run.status == old(store.runs)[id].status && MayFollow(run.status, status) ==> r.Ok?
    {
      var updated := run.(status := status);
      var u := store.UpdateRun(id, updated);
      r := if u.Ok? then Ok(updated) else Err(u.error);
    }

    // ---------------------------------------------------------------- execution

    /** The case of an id. */
    method CaseById(plan: Plan, c: CaseId) returns (found: Case)
      requires ValidPlan(plan) && Planned(plan, c)
      ensures found in plan.cases && found.id == c
    {
      for i := 0 to |plan.cases|
        invariant exists k :: i <= k < |plan.cases| && plan.cases[k].id == c
      {
        if plan.cases[i].id == c {
          return plan.cases[i];
        }
      }
      assert false;
    }

    /** A case in flight ends, and its result is stored. */
    method EndCase(plan: Plan, id: RunId, c: CaseId, around: Interference) returns (stop: bool, result: CaseResult)
      requires ValidPlan(plan) && Stands(plan, id) && !Counted(store.runs[id].status)
      requires Planned(plan, c) && (id, c) !in store.caseResults
      modifies store`caseResults, this`log
      ensures Stands(plan, id) && result.caseId == c
      ensures stop ==> store.caseResults == old(store.caseResults) && log == old(log)
      ensures !stop ==> store.caseResults == old(store.caseResults)[(id, c) := result] && log == old(log) + [Stored(id, c)]
      ensures around.Calm? ==> !stop
    {
      var one := CaseById(plan, c);
      result := adapter.Execute(one);
      stop := Strikes(around);
      if stop {
        return;
      }
      var saved := store.SaveCaseResult(id, result);
      log := log + [Stored(id, c)];
    }

    /** The cases still to run, those running, and the results so far. */
    static ghost predicate Underway(plan: Plan, id: RunId, waiting: set<CaseId>, inFlight: set<CaseId>,
                                    done: map<CaseId, CaseResult>, stored: map<(RunId, CaseId), CaseResult>,
                                    results: map<(RunId, CaseId), CaseResult>)
    {
      && waiting !! inFlight && |inFlight| <= plan.concurrency
      && (forall c :: c in waiting || c in inFlight ==> Planned(plan, c) && (id, c) !in results)
      && Extends(stored, results)
      && (forall c :: c in done ==> (id, c) in results && done[c] == results[(id, c)])
      && (forall k :: k in results ==> k in stored || (k.0 == id && k.1 in done))
      && (forall k :: k in stored && k.0 == id ==> k.1 !in done)
    }

    /** Until a cancellation every case is stored, waiting or running. */
    static ghost predicate Covered(plan: Plan, id: RunId, waiting: set<CaseId>, inFlight: set<CaseId>,
                                   results: map<(RunId, CaseId), CaseResult>)
    {
      forall c :: Planned(plan, c) ==> (id, c) in results || c in waiting || c in inFlight
    }

    /** What this call logged: cases without a result, not waiting any more. */
    static ghost predicate Logged(before: seq<Act>, log: seq<Act>, stored: map<(RunId, CaseId), CaseResult>, id: RunId,
                                  waiting: set<CaseId>)
    {
      && StartedFresh(before, log, stored, id)
      && (forall i :: |before| <= i < |log| ==> log[i].caseId !in waiting)
    }

    static lemma CaseStarted(plan: Plan, id: RunId, waiting: set<CaseId>, inFlight: set<CaseId>, c: CaseId,
                             done: map<CaseId, CaseResult>, stored: map<(RunId, CaseId), CaseResult>,
                             results: map<(RunId, CaseId), CaseResult>, before: seq<Act>, log: seq<Act>)
      requires Underway(plan, id, waiting, inFlight, done, stored, results) && c in waiting
      requires Logged(before, log, stored, id, waiting) && NeverRepeats(log) && LogStored(log, results)
      ensures Underway(plan, id, waiting - {c}, inFlight, done, stored, results)
      ensures Logged(before, log, stored, id, waiting - {c})
      ensures |inFlight| < plan.concurrency ==>
                Underway(plan, id, waiting - {c}, inFlight + {c}, done, stored, results)
      ensures var next := log + [Ran(id, c)];
              Logged(before, next, stored, id, waiting - {c}) && NeverRepeats(next) && LogStored(next, results)
      ensures Covered(plan, id, waiting, inFlight, results) ==>
                Covered(plan, id, waiting - {c}, inFlight + {c}, results)
    {
    }

    static lemma CaseEnded(plan: Plan, id: RunId, waiting: set<CaseId>, inFlight: set<CaseId>, c: CaseId,
                           result: CaseResult, done: map<CaseId, CaseResult>,
                           stored: map<(RunId, CaseId), CaseResult>, results: map<(RunId, CaseId), CaseResult>,
                           before: seq<Act>, log: seq<Act>)
      requires Underway(plan, id, waiting, inFlight, done, stored, results) && c in inFlight
      requires Logged(before, log, stored, id, waiting)
      ensures Underway(plan, id, waiting, inFlight - {c}, done[c := result], stored, results[(id, c) := result])
      ensures Logged(before, log + [Stored(id, c)], stored, id, waiting)
      ensures Covered(plan, id, waiting, inFlight, results) ==>
                Covered(plan, id, waiting, inFlight - {c}, results[(id, c) := result])
    {
    }

    /** Only the run's cancellation flag was raised, if anything may get in. */
    static ghost predicate OnlyCancelled(before: map<RunId, Run>, runs: map<RunId, Run>, id: RunId, around: Interference)
      requires id in before
    {
      && runs.Keys == before.Keys && (forall k :: k in runs && k != id ==> runs[k] == before[k])
      && runs[id] == before[id].(cancelRequested := runs[id].cancelRequested)
      && (before[id].cancelRequested ==> runs[id].cancelRequested)
      && (!around.Anything? ==> runs[id] == before[id])
    }

    /** Runs the cases without a result side by side, in any order and at most `concurrency` of
        them at a time. From a cancellation on no further case is started. */
    method ExecutePending(plan: Plan, id: RunId, existing: seq<CaseResult>, around: Interference)
      returns (stop: bool, added: seq<CaseResult>)
      requires ValidPlan(plan) && Stands(plan, id) && !Counted(store.runs[id].status)
      requires Listing(existing, store.caseResults, id)
      modifies store`caseResults, store`runs, this`log
      ensures Stands(plan, id) && OnlyCancelled(old(store.runs), store.runs, id, around)
      ensures around.Calm? ==> !stop
      ensures Extends(old(store.caseResults), store.caseResults)
      ensures StartedFresh(old(log), log, old(store.caseResults), id)
      ensures !stop && !store.runs[id].cancelRequested ==>
                && AllStored(plan, store.caseResults, id) && ByCase(added)
                && Listing(existing + added, store.caseResults, id)
    {
      ghost var stored, before := store.caseResults, log;
      var waiting := set c | c in plan.cases && (id, c.id) !in store.caseResults :: c.id;
      var inFlight: set<CaseId>, done: map<CaseId, CaseResult> := {}, map[];
      stop, added := false, [];
      NothingYet(plan, id, waiting, stored, log);
      while waiting != {} || inFlight != {}
        invariant Stands(plan, id) && OnlyCancelled(old(store.runs), store.runs, id, around)
        invariant Underway(plan, id, waiting, inFlight, done, stored, store.caseResults)
        invariant Logged(before, log, stored, id, waiting)
        invariant !store.runs[id].cancelRequested ==> Covered(plan, id, waiting, inFlight, store.caseResults)
        decreases |waiting| * 2 + |inFlight|
      {
        stop, waiting, inFlight, done := Advance(plan, id, waiting, inFlight, done, around, stored, before);
        if stop {
          return;
        }
      }
      added := InPlanOrder(plan, done);
      if !store.runs[id].cancelRequested {
        Joined(plan, id, existing, added, done, stored, store.caseResults);
      }
    }

    static lemma NothingYet(plan: Plan, id: RunId, waiting: set<CaseId>, stored: map<(RunId, CaseId), CaseResult>,
                            log: seq<Act>)
      requires waiting == set c | c in plan.cases && (id, c.id) !in stored :: c.id
      ensures Underway(plan, id, waiting, {}, map[], stored, stored)
      ensures Logged(log, log, stored, id, waiting) && Covered(plan, id, waiting, {}, stored)
    {
      forall c | c in waiting ensures Planned(plan, c) {
        var one :| one in plan.cases && one.id == c;
      }
      forall c | Planned(plan, c) && (id, c) !in stored ensures c in waiting {
        var i :| 0 <= i < |plan.cases| && plan.cases[i].id == c;
        assert plan.cases[i] in plan.cases;
      }
    }

    /** One case starts, or one in flight ends; before that a cancellation may arrive. */
    method Advance(plan: Plan, id: RunId, was: set<CaseId>, flying: set<CaseId>, results: map<CaseId, CaseResult>,
                   around: Interference, ghost stored: map<(RunId, CaseId), CaseResult>, ghost before: seq<Act>)
      returns (stop: bool, waiting: set<CaseId>, inFlight: set<CaseId>, done: map<CaseId, CaseResult>)
      requires ValidPlan(plan) && Stands(plan, id) && !Counted(store.runs[id].status)
      requires Underway(plan, id, was, flying, results, stored, store.caseResults)
      requires Logged(before, log, stored, id, was) && (was != {} || flying != {})
      modifies store`caseResults, store`runs, this`log
      ensures Stands(plan, id) && OnlyCancelled(old(store.runs), store.runs, id, around)
      ensures Underway(plan, id, waiting, inFlight, done, stored, store.caseResults)
      ensures Logged(before, log, stored, id, waiting)
      ensures old(Covered(plan, id, was, flying, store.caseResults)) && !store.runs[id].cancelRequested && !stop ==>
                Covered(plan, id, waiting, inFlight, store.caseResults)
      ensures |waiting| * 2 + |inFlight| < |was| * 2 + |flying| || stop
      ensures around.Calm? ==> !stop
    {
      stop, waiting, inFlight, done := false, was, flying, results;
      MayCancel(plan, id, around);
      var starts: bool := *;
      if inFlight == {} || (starts && waiting != {} && |inFlight| < plan.concurrency) {
        var c :| c in waiting;
        CaseStarted(plan, id, waiting, inFlight, c, done, stored, store.caseResults, before, log);
        waiting := waiting - {c};
        if !store.runs[id].cancelRequested {
          inFlight := inFlight + {c};
          log := log + [Ran(id, c)];
        }
      } else {
        stop, inFlight, done := EndOne(plan, id, waiting, inFlight, done, around, stored, before);
      }
    }

    /** Another caller may ask for the run to be cancelled. */
    method MayCancel(plan: Plan, id: RunId, around: Interference)
      requires ValidPlan(plan) && Stands(plan, id)
      modifies store`runs
      ensures Stands(plan, id) && OnlyCancelled(old(store.runs), store.runs, id, around)
    {
      var cancelled := Disturbs(around);
      if cancelled {
        store.runs := store.runs[id := store.runs[id].(cancelRequested := true)];
      }
    }

    method EndOne(plan: Plan, id: RunId, waiting: set<CaseId>, flying: set<CaseId>, results: map<CaseId, CaseResult>,
                  around: Interference, ghost stored: map<(RunId, CaseId), CaseResult>, ghost before: seq<Act>)
      returns (stop: bool, inFlight: set<CaseId>, done: map<CaseId, CaseResult>)
      requires ValidPlan(plan) && Stands(plan, id) && !Counted(store.runs[id].status) && flying != {}
      requires Underway(plan, id, waiting, flying, results, stored, store.caseResults)
      requires Logged(before, log, stored, id, waiting)
      modifies store`caseResults, this`log
      ensures Stands(plan, id) && Logged(before, log, stored, id, waiting)
      ensures Underway(plan, id, waiting, inFlight, done, stored, store.caseResults)
      ensures old(Covered(plan, id, waiting, flying, store.caseResults)) && !stop ==>
                Covered(plan, id, waiting, inFlight, store.caseResults)
      ensures stop || |inFlight| < |flying|
      ensures around.Calm? ==> !stop
    {
      inFlight, done := flying, results;
      var c :| c in inFlight;
      ghost var kept, acts := store.caseResults, log;
      var result;
      stop, result := EndCase(plan, id, c, around);
      if !stop {
        CaseEnded(plan, id, waiting, inFlight, c, result, done, stored, kept, before, acts);
        inFlight, done := inFlight - {c}, done[c := result];
      }
    }

    /** gather returns the results in the order of the cases. */
    method InPlanOrder(plan: Plan, done: map<CaseId, CaseResult>) returns (added: seq<CaseResult>)
      requires ValidPlan(plan) && forall c :: c in done ==> done[c].caseId == c
      ensures ByCase(added)
      ensures forall r :: r in added <==> exists c :: c in done && Planned(plan, c) && done[c] == r
    {
      added := [];
      for i := 0 to |plan.cases|
        invariant ByCase(added)
        invariant forall k :: 0 <= k < |added| ==> exists j :: 0 <= j < i && plan.cases[j].id == added[k].caseId
        invariant forall r :: r in added ==> r.caseId in done && done[r.caseId] == r
        invariant forall j :: 0 <= j < i && plan.cases[j].id in done ==> done[plan.cases[j].id] in added
      {
        var c := plan.cases[i].id;
        if c in done {
          added := added + [done[c]];
        }
      }
      forall r | r in added ensures exists c :: c in done && Planned(plan, c) && done[c] == r {
        var k :| 0 <= k < |added| && added[k] == r;
        assert Planned(plan, r.caseId);
      }
    }

    static lemma Joined(plan: Plan, id: RunId, existing: seq<CaseResult>, added: seq<CaseResult>,
                        done: map<CaseId, CaseResult>, stored: map<(RunId, CaseId), CaseResult>,
                        results: map<(RunId, CaseId), CaseResult>)
      requires Listing(existing, stored, id) && KeyedResults(results, id) && ByCase(added)
      requires Underway(plan, id, {}, {}, done, stored, results) && Covered(plan, id, {}, {}, results)
      requires forall r :: r in added <==> exists c :: c in done && Planned(plan, c) && done[c] == r
      requires forall c :: (id, c) in results ==> Planned(plan, c)
      ensures AllStored(plan, results, id) && Listing(existing + added, results, id)
    {
      forall i | 0 <= i < |plan.cases| ensures (id, plan.cases[i].id) in results {
        assert Planned(plan, plan.cases[i].id);
      }
      var all := existing + added;
      forall r ensures r in all <==> exists k :: k in results && k.0 == id && results[k] == r {
        assert r in all <==> r in existing || r in added;
        if exists k :: k in results && k.0 == id && results[k] == r {
          var k :| k in results && k.0 == id && results[k] == r;
          assert k == (id, k.1);
          if k !in stored {
            assert k.1 in done && Planned(plan, k.1) && done[k.1] == r;
          }
        }
        if r in added {
          var c :| c in done && Planned(plan, c) && done[c] == r;
          assert (id, c) in results && results[(id, c)] == r;
        }
      }
      forall i, j | 0 <= i < j < |all| ensures all[i].caseId != all[j].caseId {
        if i < |existing| <= j {
          assert all[i] in existing && all[j] in added;
          var k :| k in stored && k.0 == id && stored[k] == all[i];
          var c :| c in done && Planned(plan, c) && done[c] == all[j];
        }
      }
    }

    // -------------------------------------------------------------- aggregation

    /** The metrics to save, each once, in some order. */
    method MetricKeys(plan: Plan, results: seq<CaseResult>) returns (keys: seq<MetricKey>)
      requires ValidPlan(plan)
      ensures forall key :: key in keys ==> Computes(plan.definitions, CaseMap(plan), results, key)
      ensures forall key :: Computes(plan.definitions, CaseMap(plan), results, key) ==> key in keys
    {
      keys := [];
      var names := plan.definitions.Keys;
      var groups := set c, g | c in plan.cases && g in GroupsOf(c) :: g;
      var left := set n, g | n in names && g in groups :: MetricKey(n.0, n.1, g);
      ghost var all := left;
      while left != {}
        invariant left <= all
        invariant forall key :: key in keys ==> Computes(plan.definitions, CaseMap(plan), results, key)
        invariant forall key :: key in all && key !in left && Computes(plan.definitions, CaseMap(plan), results, key) ==>
                    key in keys
        decreases |left|
      {
        var key :| key in left;
        left := left - {key};
        if Computes(plan.definitions, CaseMap(plan), results, key) {
          keys := keys + [key];
        }
      }
      forall key | Computes(plan.definitions, CaseMap(plan), results, key) ensures key in all {
        RowInGroup(CaseMap(plan), results, key.component, key.group);
        var c :| c in CaseMap(plan) && key.group in GroupsOf(CaseMap(plan)[c]);
        assert CaseMap(plan)[c] in plan.cases;
        assert (key.component, key.name) in names && key.group in groups;
      }
    }

    lemma RowInGroup(cases: map<CaseId, Case>, results: seq<CaseResult>, component: string, group: Group)
      requires RowsOf(cases, results, component, group) != []
      ensures exists c :: c in cases && group in GroupsOf(cases[c])
    {
      var times := Times(cases, component, group);
      AppendedMembers(results, times);
      var row := Appended(results, times)[0];
      assert row in Appended(results, times) && times(row) > 0;
      assert group in multiset(GroupsOf(cases[row.caseId]));
    }

    /** Saves one computed metric; a value saved before is the same. */
    method SaveMetric(plan: Plan, id: RunId, results: seq<CaseResult>, key: MetricKey)
      requires ValidPlan(plan) && Progresses(plan, id) && AllStored(plan, store.caseResults, id)
      requires Listing(results, store.caseResults, id) && results != []
      requires Computes(plan.definitions, CaseMap(plan), results, key)
      modifies store`metricResults
      ensures Progresses(plan, id) && (id, key) in store.metricResults
      ensures forall k :: k in old(store.metricResults) ==> k in store.metricResults
    {
      var metric := MetricOf(CaseMap(plan), results, key, plan.definitions[(key.component, key.name)]);
      ComputedIsExact(plan, store.caseResults, id, results, key);
      assert (id, key) in store.metricResults ==>
          MetricExact(plan, store.caseResults, id, key, store.metricResults[(id, key)]);
      var saved := store.SaveMetricResult(id, key, metric);
      assert saved.Ok?;
    }

    /** Saving the metrics of a fully executed run never conflicts with what an earlier,
        interrupted call saved. */
    method SaveMetrics(plan: Plan, id: RunId, results: seq<CaseResult>, around: Interference) returns (stop: bool)
      requires ValidPlan(plan) && Progresses(plan, id) && AllStored(plan, store.caseResults, id)
      requires Listing(results, store.caseResults, id) && results != []
      modifies store`metricResults
      ensures Progresses(plan, id)
      ensures around.Calm? ==> !stop
      ensures !stop ==> forall key :: Computes(plan.definitions, CaseMap(plan), results, key) ==>
                (id, key) in store.metricResults
                && store.metricResults[(id, key)]
                   == MetricOf(CaseMap(plan), results, key, plan.definitions[(key.component, key.name)])
    {
      var keys := MetricKeys(plan, results);
      stop := SaveKeys(plan, id, results, keys, around);
      if !stop {
        SavedMetrics(plan, id, results, keys);
      }
    }

    method SaveKeys(plan: Plan, id: RunId, results: seq<CaseResult>, keys: seq<MetricKey>, around: Interference)
      returns (stop: bool)
      requires ValidPlan(plan) && Progresses(plan, id) && AllStored(plan, store.caseResults, id)
      requires Listing(results, store.caseResults, id) && results != []
      requires forall k :: 0 <= k < |keys| ==> Computes(plan.definitions, CaseMap(plan), results, keys[k])
      modifies store`metricResults
      ensures Progresses(plan, id)
      ensures around.Calm? ==> !stop
      ensures !stop ==> forall k :: 0 <= k < |keys| ==> (id, keys[k]) in store.metricResults
    {
      stop := false;
      for i := 0 to |keys|
        invariant Progresses(plan, id)
        invariant forall k :: 0 <= k < i ==> (id, keys[k]) in store.metricResults
      {
        stop := Strikes(around);
        if stop {
          return;
        }
        SaveMetric(plan, id, results, keys[i]);
      }
    }

    lemma SavedMetrics(plan: Plan, id: RunId, results: seq<CaseResult>, keys: seq<MetricKey>)
      requires ValidPlan(plan) && Progresses(plan, id) && Listing(results, store.caseResults, id) && results != []
      requires forall key :: Computes(plan.definitions, CaseMap(plan), results, key) ==> key in keys
      requires forall k :: 0 <= k < |keys| ==> (id, keys[k]) in store.metricResults
      ensures forall key :: Computes(plan.definitions, CaseMap(plan), results, key) ==>
                (id, key) in store.metricResults
                && store.metricResults[(id, key)]
                   == MetricOf(CaseMap(plan), results, key, plan.definitions[(key.component, key.name)])
    {
      forall key | Computes(plan.definitions, CaseMap(plan), results, key)
        ensures (id, key) in store.metricResults
        ensures store.metricResults[(id, key)]
             == MetricOf(CaseMap(plan), results, key, plan.definitions[(key.component, key.name)])
      {
        assert key in keys;
        var k :| 0 <= k < |keys| && keys[k] == key;
        assert MetricExact(plan, store.caseResults, id, key, store.metricResults[(id, key)]);
      }
    }

    lemma ComputedIsExact(plan: Plan, results: map<(RunId, CaseId), CaseResult>, id: RunId,
                          list: seq<CaseResult>, key: MetricKey)
      requires ValidPlan(plan) && Listing(list, results, id) && list != []
      requires Computes(plan.definitions, CaseMap(plan), list, key)
      ensures MetricExact(plan, results, id, key,
                          MetricOf(CaseMap(plan), list, key, plan.definitions[(key.component, key.name)]))
    {
      forall other | Listing(other, results, id) && other != []
        ensures Computes(plan.definitions, CaseMap(plan), other, key)
        ensures MetricOf(CaseMap(plan), list, key, plan.definitions[(key.component, key.name)])
             == MetricOf(CaseMap(plan), other, key, plan.definitions[(key.component, key.name)])
      {
        ListingsPermute(list, other, results, id);
        MetricsOrderFree(plan.definitions, CaseMap(plan), list, other, key);
      }
    }

    /** Every result that is not a complete pass is analysed. `at` and `writes` say how far it got. */
    method AnalyzeResults(plan: Plan, id: RunId, results: seq<CaseResult>, around: Interference)
      returns (stop: bool, error: Option<BadCases.Error>, ghost at: nat, ghost writes: nat)
      requires analyzer.store == store
      modifies store`badCases, store`occurrences, store`events, store`history
      ensures stop ==> store.Records() == CutRun(old(store.Records()), FindingsOf(plan, id, results), at, writes)
      ensures !stop ==> (store.Records(), error) == AnalyzeAll(old(store.Records()), FindingsOf(plan, id, results))
      ensures around.Calm? ==> !stop
    {
      ghost var fs, before := FindingsOf(plan, id, results), store.Records();
      stop, error, at, writes := false, None, 0, 0;
      for i := 0 to |results|
        invariant AnalyzeAll(before, fs[..i]) == (store.Records(), None)
      {
        var f := FindingOf(plan, id, results[i]);
        if f.Some? {
          var r;
          stop, r, writes := analyzer.Analyze(f.value, around);
          at := i;
          AnalyzePrefix(before, fs, i, writes);
          if stop {
            return;
          }
          if r.Err? {
            error := Some(r.error);
            return;
          }
        } else {
          AnalyzePrefix(before, fs, i, 0);
        }
      }
      assert fs[..|results|] == fs;
    }

    /** As many results as cases. */
    static lemma OneEach(plan: Plan, id: RunId, results: seq<CaseResult>, stored: map<(RunId, CaseId), CaseResult>)
      requires ValidPlan(plan) && KeyedResults(stored, id) && forall c :: (id, c) in stored ==> Planned(plan, c)
      requires AllStored(plan, stored, id) && Listing(results, stored, id)
      ensures |results| == |plan.cases|
    {
      var listed := seq(|results|, i requires 0 <= i < |results| => results[i].caseId);
      var planned := seq(|plan.cases|, i requires 0 <= i < |plan.cases| => plan.cases[i].id);
      forall i | 0 <= i < |listed| ensures listed[i] in planned {
        assert results[i] in results;
        var k :| k in stored && k.0 == id && stored[k] == results[i];
        assert k == (id, k.1) && Planned(plan, k.1);
        var j :| 0 <= j < |plan.cases| && plan.cases[j].id == k.1;
        assert planned[j] == listed[i];
      }
      forall i | 0 <= i < |planned| ensures planned[i] in listed {
        var r := stored[(id, planned[i])];
        assert r in results;
        var k :| 0 <= k < |results| && results[k] == r;
        assert listed[k] == planned[i];
      }
      SameMembersSameCount(listed, planned);
    }

    static function MembersOf(ids: seq<CaseId>): (members: set<CaseId>)
      ensures forall c :: c in members <==> c in ids
    {
      if ids == [] then {}
      else
        assert forall c :: c in ids <==> c in ids[..|ids| - 1] || c == ids[|ids| - 1];
        MembersOf(ids[..|ids| - 1]) + {ids[|ids| - 1]}
    }

    static lemma {:induction false} DistinctCount(ids: seq<CaseId>)
      requires forall i, j :: 0 <= i < j < |ids| ==> ids[i] != ids[j]
      ensures |MembersOf(ids)| == |ids|
    {
      if ids != [] {
        DistinctCount(ids[..|ids| - 1]);
      }
    }

    static lemma SameMembersSameCount(a: seq<CaseId>, b: seq<CaseId>)
      requires forall i, j :: 0 <= i < j < |a| ==> a[i] != a[j]
      requires forall i, j :: 0 <= i < j < |b| ==> b[i] != b[j]
      requires (forall i :: 0 <= i < |a| ==> a[i] in b) && (forall i :: 0 <= i < |b| ==> b[i] in a)
      ensures |a| == |b|
    {
      DistinctCount(a);
      DistinctCount(b);
      assert MembersOf(a) == MembersOf(b);
    }

    lemma SomeResult(plan: Plan, id: RunId, results: seq<CaseResult>)
      requires ValidPlan(plan) && AllStored(plan, store.caseResults, id) && Listing(results, store.caseResults, id)
      ensures results != []
    {
      var k := (id, plan.cases[0].id);
      assert store.caseResults[k] in results;
    }

    ghost predicate MetricsComplete(plan: Plan, id: RunId)
      requires ValidPlan(plan)
      reads store
    {
      forall list, key :: Listing(list, store.caseResults, id) && list != []
                          && Computes(plan.definitions, CaseMap(plan), list, key) ==>
        (id, key) in store.metricResults
        && store.metricResults[(id, key)]
           == MetricOf(CaseMap(plan), list, key, plan.definitions[(key.component, key.name)])
    }

    lemma ListedMetrics(plan: Plan, id: RunId, results: seq<CaseResult>)
      requires ValidPlan(plan) && Listing(results, store.caseResults, id) && results != []
      requires forall key :: Computes(plan.definitions, CaseMap(plan), results, key) ==>
                 (id, key) in store.metricResults
                 && store.metricResults[(id, key)]
                    == MetricOf(CaseMap(plan), results, key, plan.definitions[(key.component, key.name)])
      ensures MetricsComplete(plan, id)
    {
      forall list, key | Listing(list, store.caseResults, id) && list != []
                         && Computes(plan.definitions, CaseMap(plan), list, key)
        ensures (id, key) in store.metricResults
        ensures store.metricResults[(id, key)]
             == MetricOf(CaseMap(plan), list, key, plan.definitions[(key.component, key.name)])
      {
        ListingsPermute(list, results, store.caseResults, id);
        MetricsOrderFree(plan.definitions, CaseMap(plan), list, results, key);
      }
    }

    /** Every planned case has a result that is complete and evaluable. */
    ghost predicate AllGoodStored(plan: Plan, id: RunId)
      reads store
    {
      forall i :: 0 <= i < |plan.cases| ==>
        (id, plan.cases[i].id) in store.caseResults && Good(store.caseResults[(id, plan.cases[i].id)])
    }

    lemma GoodIff(plan: Plan, id: RunId, results: seq<CaseResult>)
      requires ValidPlan(plan) && Stands(plan, id) && AllStored(plan, store.caseResults, id)
      requires Listing(results, store.caseResults, id)
      ensures AllGood(results) <==> AllGoodStored(plan, id)
    {
      forall i | 0 <= i < |plan.cases| ensures store.caseResults[(id, plan.cases[i].id)] in results {
      }
      forall i | 0 <= i < |results|
        ensures exists j :: 0 <= j < |plan.cases| && store.caseResults[(id, plan.cases[j].id)] == results[i]
      {
        assert results[i] in results;
        var k :| k in store.caseResults && k.0 == id && store.caseResults[k] == results[i];
        assert k == (id, k.1) && Planned(plan, k.1);
      }
    }

    /** How one call ended: `order` is the order the results were analysed in, empty if it did
        not come to that. */
    ghost predicate Ended(plan: Plan, id: RunId, before: Records, ending: Ending, order: seq<CaseResult>, at: nat,
                          writes: nat)
      requires ValidPlan(plan)
      reads this, store
    {
      var fs := FindingsOf(plan, id, order);
      && id in store.runs
      && (order == [] ==> store.Records() == before && !ending.Finished?)
      && (order != [] ==> Listing(order, store.caseResults, id) && Counted(store.runs[id].status)
                          && !ending.CancelledRun?)
      && (ending.Crashed? ==>
            !TerminalRun(store.runs[id].status)
            && (if order == [] then Counted(store.runs[id].status) ==> store.runs[id].cancelRequested
                else store.Records() == CutRun(before, fs, at, writes)))
      && (ending.CancelledRun? ==> store.runs[id].status == Cancelled)
      && (ending.Finished? ==>
            && AnalyzeAll(before, fs) == (store.Records(), None)
            && store.runs[id].status == (if ending.complete then Completed else Partial)
            && (ending.complete <==> AllGoodStored(plan, id)) && MetricsComplete(plan, id))
      && (ending.Raised? && order != [] ==>
            && ending.failure.BadCaseFailure? && !TerminalRun(store.runs[id].status)
            && AnalyzeAll(before, fs) == (store.Records(), Some(ending.failure.badCase)))
    }

    /** From aggregating to the end. Metrics an interrupted call saved are the same again; the
        analysis of the results may be cut off, or fail where a bad case is blocked. */
    method AggregationPhase(plan: Plan, id: RunId, results: seq<CaseResult>, around: Interference)
      returns (ending: Ending, ghost at: nat, ghost writes: nat)
      requires ValidPlan(plan) && Stands(plan, id)
      requires store.runs[id].status == Aggregating || store.runs[id].status == Comparing
      requires Listing(results, store.caseResults, id)
      modifies store`runs, store`metricResults, store`badCases, store`occurrences, store`events, store`history
      ensures Stands(plan, id) && results != [] && !ending.CancelledRun?
      ensures Ended(plan, id, old(store.Records()), ending, results, at, writes)
      ensures store.runs[id].cancelRequested == old(store.runs)[id].cancelRequested
      ensures around.Calm? ==> !ending.Crashed?
    {
      at, writes := 0, 0;
      SomeResult(plan, id, results);
      CutRunFirst(store.Records(), FindingsOf(plan, id, results));
      var stop := SaveMetrics(plan, id, results, around);
      if stop {
        return Crashed, at, writes;
      }
      ListedMetrics(plan, id, results);
      ending, at, writes := AnalyzeAndFinish(plan, id, results, around);
    }

    /** The analysis and, if it goes through, the end of the run. */
    method AnalyzeAndFinish(plan: Plan, id: RunId, results: seq<CaseResult>, around: Interference)
      returns (ending: Ending, ghost at: nat, ghost writes: nat)
      requires ValidPlan(plan) && Stands(plan, id) && MetricsComplete(plan, id)
      requires store.runs[id].status == Aggregating || store.runs[id].status == Comparing
      requires Listing(results, store.caseResults, id) && results != []
      modifies store`runs, store`badCases, store`occurrences, store`events, store`history
      ensures Stands(plan, id) && !ending.CancelledRun?
      ensures Ended(plan, id, old(store.Records()), ending, results, at, writes)
      ensures store.runs[id].cancelRequested == old(store.runs)[id].cancelRequested
      ensures around.Calm? ==> !ending.Crashed?
    {
      var stop, error;
      stop, error, at, writes := AnalyzeResults(plan, id, results, around);
      if stop {
        return Crashed, at, writes;
      }
      if error.Some? {
        return Raised(BadCaseFailure(error.value)), at, writes;
      }
      ending := Finish(plan, id, results, around);
      at := |FindingsOf(plan, id, results)|;
    }

    /** The last write of a run. */
    method Finish(plan: Plan, id: RunId, results: seq<CaseResult>, around: Interference) returns (ending: Ending)
      requires ValidPlan(plan) && Stands(plan, id) && MetricsComplete(plan, id)
      requires store.runs[id].status == Aggregating || store.runs[id].status == Comparing
      requires Listing(results, store.caseResults, id)
      modifies store`runs
      ensures Stands(plan, id) && MetricsComplete(plan, id) && (ending.Crashed? || ending.Finished?)
      ensures ending.Crashed? ==> store.runs == old(store.runs)
      ensures ending.Finished? ==>
                && store.runs[id] == old(store.runs)[id].(complete := ending.complete,
                                                          status := if ending.complete then Completed else Partial)
                && (ending.complete <==> AllGoodStored(plan, id))
      ensures around.Calm? ==> ending.Finished?
    {
      OneEach(plan, id, results, store.caseResults);
      GoodIff(plan, id, results);
      var stop := Strikes(around);
      if stop {
        return Crashed;
      }
      var complete := |results| == |plan.cases| && AllGood(results);
      var r := MoveTo(plan, id, store.runs[id].(complete := complete), if complete then Completed else Partial);
      ending := Finished(complete);
    }

    lemma CutRunFirst(r: Records, fs: Findings)
      ensures CutRun(r, fs, 0, 0) == r
    {
      if fs != [] && fs[0].Some? {
        assert Take(Writes(r, CallAnalyze(fs[0].value)), 0) == [];
      }
    }

    // ----------------------------------------------------------------- one call

    /** From queued to running, unless a cancellation was requested before. */
    method Prepare(plan: Plan, id: RunId, around: Interference) returns (stop: bool, cancelled: bool)
      requires ValidPlan(plan) && Stands(plan, id) && !TerminalRun(store.runs[id].status)
      modifies store`runs
      ensures Stands(plan, id) && store.runs[id].cancelRequested == old(store.runs)[id].cancelRequested
      ensures stop ==> !TerminalRun(store.runs[id].status)
      ensures stop ==> !Counted(store.runs[id].status) || store.runs[id].cancelRequested
      ensures old(Counted(store.runs[id].status)) && !old(store.runs)[id].cancelRequested ==> !stop
      ensures !stop ==> (cancelled <==> old(store.runs)[id].cancelRequested)
      ensures !stop && cancelled ==> store.runs[id].status == Cancelled
      ensures !stop && !cancelled ==>
                store.runs[id] == if old(store.runs)[id].status == Queued || old(store.runs)[id].status == Preparing
                                  then old(store.runs)[id].(status := Running) else old(store.runs)[id]
      ensures around.Calm? ==> !stop
    {
      stop, cancelled := false, false;
      var run := store.runs[id];
      if run.status == Queued {
        stop := Strikes(around);
        if stop {
          return;
        }
        var r := MoveTo(plan, id, run, Preparing);
        run := r.value;
      }
      if run.cancelRequested {
        stop := Strikes(around);
        if stop {
          return;
        }
        var r := MoveTo(plan, id, run.(complete := false), Cancelled);
        cancelled := true;
        return;
      }
      if run.status == Preparing {
        stop := Strikes(around);
        if stop {
          return;
        }
        var r := MoveTo(plan, id, run, Running);
        run := r.value;
      }
    }

    /** From running to aggregating. */
    method ExecutionPhase(plan: Plan, id: RunId, existing: seq<CaseResult>, around: Interference)
      returns (ending: Option<Ending>, results: seq<CaseResult>)
      requires ValidPlan(plan) && Stands(plan, id) && store.runs[id].status == Running
      requires Listing(existing, store.caseResults, id) && ByCase(existing)
      modifies store`caseResults, store`runs, this`log
      ensures Stands(plan, id) && Extends(old(store.caseResults), store.caseResults)
      ensures StartedFresh(old(log), log, old(store.caseResults), id)
      ensures ending.None? || ending == Some(Crashed) || ending == Some(CancelledRun)
      ensures ending == Some(Crashed) ==> store.runs[id].status == Running
      ensures ending == Some(CancelledRun) ==> store.runs[id].status == Cancelled
      ensures ending.None? ==>
                && store.runs[id].status == Aggregating && Listing(results, store.caseResults, id)
                && (existing == [] ==> ByCase(results))
      ensures !around.Anything? ==> store.runs[id].cancelRequested == old(store.runs)[id].cancelRequested
      ensures !around.Anything? && !old(store.runs)[id].cancelRequested ==> ending != Some(CancelledRun)
      ensures around.Calm? ==> ending != Some(Crashed)
    {
      var stop, added := ExecutePending(plan, id, existing, around);
      results := existing + added;
      if !stop {
        stop := Strikes(around);
      }
      if stop {
        return Some(Crashed), results;
      }
      var latest := store.runs[id];
      if latest.cancelRequested {
        var r := MoveTo(plan, id, latest.(complete := false), Cancelled);
        return Some(CancelledRun), results;
      }
      var r := MoveTo(plan, id, latest, Aggregating);
      assert existing == [] ==> results == added;
      ending := None;
    }

    /** What is known of every call, however it ended. */
    twostate predicate Keeps(plan: Plan, id: RunId, around: Interference)
      requires ValidPlan(plan) && id in old(store.runs)
      reads this, store
    {
      && Stands(plan, id)
      && Extends(old(store.caseResults), store.caseResults)
      && StartedFresh(old(log), log, old(store.caseResults), id)
      && (!around.Anything? ==> store.runs[id].cancelRequested == old(store.runs)[id].cancelRequested)
    }

    /** From running or later to the end. */
    method Proceed(plan: Plan, id: RunId, around: Interference)
      returns (ending: Ending, ghost order: seq<CaseResult>, ghost at: nat, ghost writes: nat)
      requires ValidPlan(plan) && Stands(plan, id)
      requires store.runs[id].status in {Running, Aggregating, Comparing}
      modifies store, this`log
      ensures Keeps(plan, id, around) && Ended(plan, id, old(store.Records()), ending, order, at, writes)
      ensures ending.Raised? ==> order != []
      ensures old(store.runs[id].status) != Running ==> order != [] && ByCase(order)
      ensures !around.Anything? && !old(store.runs)[id].cancelRequested ==> !ending.CancelledRun?
      ensures around.Calm? ==> !ending.Crashed? && (ending.CancelledRun? || order != [])
    {
      order, at, writes := [], 0, 0;
      var results := store.ListCaseResults(id);
      if store.runs[id].status == Running {
        var stopped;
        stopped, results := ExecutionPhase(plan, id, results, around);
        if stopped.Some? {
          return stopped.value, order, at, writes;
        }
      }
      order := results;
      ending, at, writes := AggregationPhase(plan, id, results, around);
    }

    /** What an ending says about the records and, of a call that was not cut off, about what
        it met. */
    lemma EndedKept(plan: Plan, id: RunId, before: Records, ending: Ending, order: seq<CaseResult>, at: nat, writes: nat)
      requires ValidPlan(plan) && Kept(before) && Ended(plan, id, before, ending, order, at, writes)
      ensures Kept(store.Records())
      ensures order != [] && !ending.Crashed? ==>
                (ending.Finished? <==> Unblocked(before, FindingsOf(plan, id, order)))
    {
      AnalyzesAllIff(before, FindingsOf(plan, id, order));
      AllKeep(before, FindingsOf(plan, id, order));
      CutRunKeeps(before, FindingsOf(plan, id, order), at, writes);
    }

    /** One call. However it ends, stored results never change, no case with a stored result is
        started again, and no stored metric conflicts; if it ends by finishing the run, every
        planned case has a result and every metric is the one computed from them. A terminal
        run is refused untouched. A calm call finishes a run that is not to be cancelled if and
        only if no bad case is blocked for the first new finding of the run. */
    method ProcessRun(plan: Plan, id: RunId, around: Interference)
      returns (ending: Ending, ghost order: seq<CaseResult>, ghost at: nat, ghost writes: nat)
      requires ValidPlan(plan) && Stands(plan, id) && Kept(store.Records())
      modifies store, this`log
      ensures Keeps(plan, id, around) && Kept(store.Records())
      ensures Ended(plan, id, old(store.Records()), ending, order, at, writes)
      ensures ending.Raised? && order == [] <==> old(TerminalRun(store.runs[id].status))
      ensures old(TerminalRun(store.runs[id].status)) ==> ending.failure.StoreFailure? && store.runs == old(store.runs)
      ensures old(Counted(store.runs[id].status)) && order != [] ==> ByCase(order)
      ensures old(Counted(store.runs[id].status)) && !old(TerminalRun(store.runs[id].status))
                && !old(store.runs)[id].cancelRequested ==>
                order != []
      ensures !around.Anything? && !old(store.runs)[id].cancelRequested ==> !ending.CancelledRun?
      ensures around.Calm? && !old(TerminalRun(store.runs[id].status)) ==>
                if old(store.runs)[id].cancelRequested then ending.CancelledRun?
                else order != [] && !ending.Crashed?
                     && (ending.Finished? <==> Unblocked(old(store.Records()), FindingsOf(plan, id, order)))
    {
      ghost var before := store.Records();
      ending, order, at, writes := Process(plan, id, around);
      EndedKept(plan, id, before, ending, order, at, writes);
    }

    method Process(plan: Plan, id: RunId, around: Interference)
      returns (ending: Ending, ghost order: seq<CaseResult>, ghost at: nat, ghost writes: nat)
      requires ValidPlan(plan) && Stands(plan, id)
      modifies store, this`log
      ensures Keeps(plan, id, around) && Ended(plan, id, old(store.Records()), ending, order, at, writes)
      ensures ending.Raised? && order == [] <==> old(TerminalRun(store.runs[id].status))
      ensures old(TerminalRun(store.runs[id].status)) ==> ending.failure.StoreFailure? && store.runs == old(store.runs)
      ensures old(Counted(store.runs[id].status)) && order != [] ==> ByCase(order)
      ensures old(Counted(store.runs[id].status)) && !old(TerminalRun(store.runs[id].status))
                && !old(store.runs)[id].cancelRequested ==>
                order != []
      ensures !around.Anything? && !old(store.runs)[id].cancelRequested ==> !ending.CancelledRun?
      ensures around.Calm? && !old(TerminalRun(store.runs[id].status)) ==>
                if old(store.runs)[id].cancelRequested then ending.CancelledRun? else order != [] && !ending.Crashed?
    {
      order, at, writes := [], 0, 0;
      if TerminalRun(store.runs[id].status) {
        return Raised(StoreFailure(if store.runs[id].cancelRequested then RunImmutable else RecoveryStateInvalid)),
          order, at, writes;
      }
      var stop, cancelled := Prepare(plan, id, around);
      if stop {
        return Crashed, order, at, writes;
      }
      if cancelled {
        return CancelledRun, order, at, writes;
      }
      ending, order, at, writes := Proceed(plan, id, around);
    }

    // ------------------------------------------------------------- repeated calls

    /** The next call can analyse the results by case id. */
    static ghost predicate Ready(plan: Plan, id: RunId, counted: bool, results: map<(RunId, CaseId), CaseResult>,
                                 records: Records)
    {
      if counted then
        forall list :: Listing(list, results, id) && ByCase(list) ==> Unblocked(records, FindingsOf(plan, id, list))
      else Sound(records)
    }

    ghost predicate ReadyNow(plan: Plan, id: RunId)
      requires id in store.runs
      reads store
    {
      Ready(plan, id, Counted(store.runs[id].status), store.caseResults, store.Records())
    }

    static lemma SoundReady(plan: Plan, id: RunId, counted: bool, results: map<(RunId, CaseId), CaseResult>,
                            records: Records)
      requires Sound(records)
      ensures Ready(plan, id, counted, results, records)
    {
      forall list | Listing(list, results, id) && ByCase(list) ensures Unblocked(records, FindingsOf(plan, id, list)) {
        SoundUnblocked(records, FindingsOf(plan, id, list));
      }
    }

    /** A run with all results gets no more. */
    static lemma SameListing(plan: Plan, id: RunId, order: seq<CaseResult>,
                             before: map<(RunId, CaseId), CaseResult>, after: map<(RunId, CaseId), CaseResult>)
      requires Listing(order, after, id) && Extends(before, after) && AllStored(plan, before, id)
      requires forall c :: (id, c) in after ==> Planned(plan, c)
      ensures Listing(order, before, id)
    {
      forall r ensures r in order <==> exists k :: k in before && k.0 == id && before[k] == r {
        if r in order {
          var k :| k in after && k.0 == id && after[k] == r;
          assert k == (id, k.1) && Planned(plan, k.1);
          assert k in before && before[k] == r;
        }
        if exists k :: k in before && k.0 == id && before[k] == r {
          var k :| k in before && k.0 == id && before[k] == r;
          assert k in after && after[k] == r;
        }
      }
    }

    /** Results are listed by case id in one way only. */
    static lemma ReadyIff(plan: Plan, id: RunId, results: map<(RunId, CaseId), CaseResult>, records: Records,
                          order: seq<CaseResult>)
      requires Listing(order, results, id) && ByCase(order)
      ensures Ready(plan, id, true, results, records) <==> Unblocked(records, FindingsOf(plan, id, order))
    {
      forall list | Listing(list, results, id) && ByCase(list) ensures list == order {
        assert forall r :: r in list <==> r in order;
        ListingUnique(list, order);
      }
    }

    /** Analysing the results of a ready run by case id is not blocked, nor is doing it again
        after being cut off; a run past its execution is neither made ready by a call nor unready. */
    static lemma StaysReady(plan: Plan, id: RunId, counted: bool, stored: map<(RunId, CaseId), CaseResult>,
                            before: Records, results: map<(RunId, CaseId), CaseResult>, order: seq<CaseResult>,
                            at: nat, writes: nat)
      requires Kept(before)
      requires Listing(order, results, id) && ByCase(order) && Extends(stored, results)
      requires forall c :: (id, c) in results ==> Planned(plan, c)
      requires counted ==> AllStored(plan, stored, id)
      ensures Ready(plan, id, counted, stored, before) ==> Unblocked(before, FindingsOf(plan, id, order))
      ensures counted && Unblocked(before, FindingsOf(plan, id, order)) ==> Ready(plan, id, counted, stored, before)
      ensures Ready(plan, id, true, results, CutRun(before, FindingsOf(plan, id, order), at, writes))
              <==> Unblocked(before, FindingsOf(plan, id, order))
    {
      var fs := FindingsOf(plan, id, order);
      if counted {
        SameListing(plan, id, order, stored, results);
        ReadyIff(plan, id, stored, before, order);
      } else if Sound(before) {
        SoundUnblocked(before, fs);
      }
      ResumedRun(before, fs, at, writes);
      ReadyIff(plan, id, results, CutRun(before, fs, at, writes), order);
    }

    /** When a call that was cut off after the event of a recurrence leaves the run ready: exactly
        if the first new finding of that bad case by case id has the time of the recurrence. A call
        that resumed the execution may have analysed the results in another order. */
    static lemma CutStaysReadyIff(plan: Plan, id: RunId, before: Records, order: seq<CaseResult>, i: nat,
                                  results: map<(RunId, CaseId), CaseResult>, list: seq<CaseResult>)
      requires Sound(before) && i < |order| && Listing(list, results, id) && ByCase(list)
      requires var fs := FindingsOf(plan, id, order);
               var done := AnalyzeAll(before, fs[..i]).0;
               New(done, fs[i]) && Reopens(done, fs[i].value)
      ensures var fs := FindingsOf(plan, id, order);
              Ready(plan, id, true, results, CutRun(before, fs, i, 1))
              <==> FirstHasTime(AnalyzeAll(before, fs[..i]).0, FindingsOf(plan, id, list),
                                fs[i].value.fingerprint, fs[i].value.at)
    {
      var fs := FindingsOf(plan, id, order);
      ReadyIff(plan, id, results, CutRun(before, fs, i, 1), list);
      ResumedInOtherOrderIff(before, fs, i, FindingsOf(plan, id, list));
    }

    /** The input that gets a run stuck: two new findings of one closed bad case with different
        times, the one of the higher case id stored before the execution was resumed, and the call
        that resumed it cut off after the recurrence of that one. */
    static lemma OtherOrderSticks(plan: Plan, id: RunId, before: Records, a: CaseResult, b: CaseResult,
                                  results: map<(RunId, CaseId), CaseResult>)
      requires Sound(before) && Listing([a, b], results, id) && a.caseId < b.caseId
      requires New(before, FindingOf(plan, id, a)) && New(before, FindingOf(plan, id, b))
      requires var f, g := FindingOf(plan, id, a).value, FindingOf(plan, id, b).value;
               f.fingerprint == g.fingerprint && f.at != g.at && Reopens(before, g)
      ensures !Ready(plan, id, true, results, CutRun(before, FindingsOf(plan, id, [b, a]), 0, 1))
    {
      var fs, gs := FindingsOf(plan, id, [b, a]), FindingsOf(plan, id, [a, b]);
      assert fs[0] == FindingOf(plan, id, b) && gs[0] == FindingOf(plan, id, a) && fs[..0] == [];
      CutStaysReadyIff(plan, id, before, [b, a], 0, results, [a, b]);
      assert !Earlier(before, gs, 0);
    }

    /** One call, at most cut off by crashes. `byCase` says it did not analyse the results in
        another order than by case id. */
    method ProcessOnce(plan: Plan, id: RunId, around: Interference) returns (ending: Ending, ghost byCase: bool)
      requires ValidPlan(plan) && Stands(plan, id) && Kept(store.Records()) && !around.Anything?
      requires !TerminalRun(store.runs[id].status) && !store.runs[id].cancelRequested
      modifies store, this`log
      ensures Stands(plan, id) && Kept(store.Records()) && Extends(old(store.caseResults), store.caseResults)
      ensures !store.runs[id].cancelRequested && !ending.CancelledRun? && (around.Calm? ==> !ending.Crashed?)
      ensures !ending.Finished? ==> !TerminalRun(store.runs[id].status)
      ensures !ending.Crashed? ==> AllStored(plan, store.caseResults, id) && FinishedWell(plan, id, ending)
      ensures ending.Raised? ==> ending.failure.BadCaseFailure? && Counted(store.runs[id].status)
      ensures old(ReadyNow(plan, id)) && byCase ==> !ending.Raised? && (ending.Crashed? ==> ReadyNow(plan, id))
      ensures old(Counted(store.runs[id].status)) ==>
                && byCase && Counted(store.runs[id].status)
                && (if ending.Finished? then old(ReadyNow(plan, id)) else ReadyNow(plan, id) <==> old(ReadyNow(plan, id)))
    {
      ghost var ready, counted, stored, before :=
        ReadyNow(plan, id), Counted(store.runs[id].status), store.caseResults, store.Records();
      ghost var order: seq<CaseResult>, at: nat, writes: nat;
      ending, order, at, writes := ProcessRun(plan, id, around);
      byCase := order == [] || ByCase(order);
      if byCase && order != [] {
        StaysReady(plan, id, counted, stored, before, store.caseResults, order, at, writes);
        StaysReady(plan, id, counted, stored, before, store.caseResults, order, |FindingsOf(plan, id, order)|, 0);
        AnalyzesAllIff(before, FindingsOf(plan, id, order));
      }
    }

    /** Any number of calls cut off by crashes and then a calm one. Every planned case then has
        a result, and no case was started again after its result was stored. A run past its
        execution is finished if and only if it was ready, and otherwise stays aggregating with
        the analyzer's error, however often it is called. A run before that is finished if its
        bad cases were sound, unless a call that resumed the execution analysed the results in
        another order than by case id. */
    method ProcessRepeatedly(plan: Plan, id: RunId, cuts: nat) returns (ending: Ending, ghost byCase: bool)
      requires ValidPlan(plan) && Stands(plan, id) && Kept(store.Records())
      requires !TerminalRun(store.runs[id].status) && !store.runs[id].cancelRequested
      modifies store, this`log
      ensures Stands(plan, id) && Kept(store.Records()) && Extends(old(store.caseResults), store.caseResults)
      ensures AllStored(plan, store.caseResults, id) && FinishedWell(plan, id, ending)
      ensures ending.Finished? || (ending.Raised? && ending.failure.BadCaseFailure?
                                   && (store.runs[id].status == Aggregating || store.runs[id].status == Comparing))
      ensures old(Counted(store.runs[id].status)) ==> (ending.Finished? <==> old(ReadyNow(plan, id)))
      ensures old(ReadyNow(plan, id)) && byCase ==> ending.Finished?
      ensures Sound(old(store.Records())) && byCase ==> ending.Finished?
      ensures old(Counted(store.runs[id].status)) ==> byCase
    {
      ghost var ready, counted, now := ReadyNow(plan, id), Counted(store.runs[id].status), true;
      SoundReadyNow(plan, id);
      ending, byCase := Crashed, true;
      for i := 0 to cuts
        invariant Stands(plan, id) && Kept(store.Records()) && Extends(old(store.caseResults), store.caseResults)
        invariant BetweenCalls(plan, id, ending, byCase, ready, counted)
      {
        if !ending.Finished? {
          ending, now := ProcessOnce(plan, id, Crashes);
          byCase := byCase && now;
        }
      }
      if !ending.Finished? {
        ending, now := ProcessOnce(plan, id, Calm);
        byCase := byCase && now;
      }
    }

    lemma SoundReadyNow(plan: Plan, id: RunId)
      requires id in store.runs
      ensures Sound(store.Records()) ==> ReadyNow(plan, id)
    {
      if Sound(store.Records()) {
        SoundReady(plan, id, Counted(store.runs[id].status), store.caseResults, store.Records());
      }
    }

    /** Between two calls, of a run that was ready or past its execution when they began. */
    ghost predicate BetweenCalls(plan: Plan, id: RunId, ending: Ending, byCase: bool, ready: bool, counted: bool)
      requires ValidPlan(plan) && id in store.runs
      reads store
    {
      && (if ending.Finished? then AllStored(plan, store.caseResults, id) && FinishedWell(plan, id, ending)
          else !TerminalRun(store.runs[id].status) && !store.runs[id].cancelRequested)
      && (ready && byCase && !ending.Finished? ==> ReadyNow(plan, id))
      && (counted ==> byCase && Counted(store.runs[id].status)
                      && if ending.Finished? then ready else ReadyNow(plan, id) <==> ready)
    }

    ghost predicate FinishedWell(plan: Plan, id: RunId, ending: Ending)
      requires ValidPlan(plan)
      reads store
    {
      ending.Finished? ==>
        && id in store.runs && store.runs[id].status == (if ending.complete then Completed else Partial)
        && (ending.complete <==> AllGoodStored(plan, id)) && MetricsComplete(plan, id)
    }
  }
}
