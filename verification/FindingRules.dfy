/** Which results of a run are findings, and when a run is complete. */
module FindingRules {
  import opened Wrappers
  import opened MetricEngine
  import opened EvaluationStorage
  import opened BadCases
  import opened BadCaseHistory
  import opened EvaluationRuns

  /** A result that ran and is complete is a finding if it failed or could not be judged; an
      incomplete one always; one that did not run unless it is a complete pass. */
  lemma FindingIff(plan: Plan, id: EvaluationRuns.RunId, r: CaseResult)
    ensures FindingOf(plan, id, r).Some?
            <==> if !r.complete then true
                 else if r.executed then r.verdict in {Some(Failed), Some(NotEvaluable), Some(Indeterminate)}
                 else r.verdict != Some(Passed)
  {
  }

  /** A finding names its result and its time, and is what the result was diagnosed as. */
  lemma FindingExact(plan: Plan, id: EvaluationRuns.RunId, r: CaseResult)
    requires FindingOf(plan, id, r).Some?
    ensures var f := FindingOf(plan, id, r).value;
            && f.result.run == id && f.result.caseId == r.caseId && f.at == r.finishedAt
            && f.fingerprint == plan.diagnose(r)
            && (f.trigger == ExecutionError <==> !r.executed)
            && (f.trigger == QualityFailure <==> r.executed && r.verdict == Some(Failed))
            && (f.trigger == NotEvaluableTrigger <==> r.executed && r.verdict == Some(NotEvaluable))
            && (f.trigger == TelemetryIncomplete <==>
                  r.executed && r.verdict !in {Some(Failed), Some(NotEvaluable)})
  {
  }

  lemma FindingsInOrder(plan: Plan, id: EvaluationRuns.RunId, results: seq<CaseResult>)
    ensures |FindingsOf(plan, id, results)| == |results|
    ensures forall i :: 0 <= i < |results| ==> FindingsOf(plan, id, results)[i] == FindingOf(plan, id, results[i])
  {
  }

  /** A run is complete exactly if each of its cases ran, passed or failed, and was complete. */
  lemma CompleteIff(service: EvaluationService, plan: Plan, id: EvaluationRuns.RunId)
    ensures service.AllGoodStored(plan, id)
            <==> forall i :: 0 <= i < |plan.cases| ==>
                   && (id, plan.cases[i].id) in service.store.caseResults
                   && var r := service.store.caseResults[(id, plan.cases[i].id)];
                      r.executed && r.complete && r.verdict in {Some(Passed), Some(Failed)}
  {
  }

  /** The statuses from which a run may be moved to a given one. */
  function RunSources(to: EvaluationStorage.RunStatus): set<EvaluationStorage.RunStatus> {
    match to
    case Queued => {}
    case Preparing => {Queued}
    case Running => {Preparing}
    case Aggregating => {Running}
    case Comparing => {Aggregating}
    case Completed => {Aggregating, Comparing}
    case Partial => {Aggregating, Comparing}
    case FailedRun => {Queued, Preparing, Running, Aggregating, Comparing}
    case Cancelled => {Queued, Preparing, Running, Aggregating, Comparing}
  }

  /** The transition table of runs, read by target; nothing leads out of a terminal status. */
  lemma RunSourcesExact(from: EvaluationStorage.RunStatus, to: EvaluationStorage.RunStatus)
    ensures MayFollow(from, to) <==> from in RunSources(to)
    ensures TerminalRun(from) <==> forall next :: from !in RunSources(next)
  {
    assert Queued in RunSources(Preparing) && Preparing in RunSources(Running) && Running in RunSources(Aggregating);
    assert Aggregating in RunSources(Completed) && Comparing in RunSources(Completed);
  }
}
