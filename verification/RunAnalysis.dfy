/** Analysing the results of a run one after another, and doing so again after being cut off. */
module RunAnalysis {
  import opened Wrappers
  import opened BadCases
  import opened BadCaseHistory
  import opened BadCaseInterruption

  /** The finding of each result, none for a complete pass. */
  type Findings = seq<Option<Finding>>

  function AnalyzeOne(r: Records, x: Option<Finding>): (Records, Option<Error>) {
    if x.None? then (r, None)
    else
      var o := Analyze(r, x.value);
      (o.records, if o.result.Err? then Some(o.result.error) else None)
  }

  /** Stops at the first analysis that fails. */
  function AnalyzeAll(r: Records, fs: Findings): (Records, Option<Error>)
    decreases |fs|
  {
    if fs == [] then (r, None)
    else
      var (next, error) := AnalyzeOne(r, fs[0]);
      if error.Some? then (next, error) else AnalyzeAll(next, fs[1..])
  }

  function CutOne(r: Records, x: Option<Finding>, n: nat): Records {
    if x.None? then r else Cut(r, CallAnalyze(x.value), n)
  }

  /** Cut off after `i` whole analyses and `n` writes of the next. */
  function CutAll(r: Records, fs: Findings, i: nat, n: nat): Records
    requires i < |fs|
    decreases |fs|
  {
    if i == 0 then CutOne(r, fs[0], n)
    else
      var (next, error) := AnalyzeOne(r, fs[0]);
      if error.Some? then next else CutAll(next, fs[1..], i - 1, n)
  }

  predicate New(r: Records, x: Option<Finding>) {
    x.Some? && Unseen(r, x.value)
  }

  predicate Earlier(r: Records, fs: Findings, i: nat)
    requires i < |fs| && fs[i].Some?
  {
    exists j :: 0 <= j < i && fs[j].Some? && fs[j].value.fingerprint == fs[i].value.fingerprint && Unseen(r, fs[j].value)
  }

  /** No new finding is the first of its bad case and blocked. */
  ghost predicate Unblocked(r: Records, fs: Findings) {
    forall i :: 0 <= i < |fs| && fs[i].Some? && Blocked(r, fs[i].value) ==> Earlier(r, fs, i)
  }

  // ------------------------------------------------------------ one analysis in front

  /** Analysing a finding unblocks its bad case and leaves every other finding as it was. */
  lemma AnalyzedElsewhere(r: Records, f: Finding, g: Finding)
    requires Unseen(r, f)
    ensures g.fingerprint == f.fingerprint ==> !Blocked(Analyzed(r, f), g) && !Blocked(Saved(r, f), g)
    ensures g.fingerprint != f.fingerprint ==>
              && (Blocked(Analyzed(r, f), g) <==> Blocked(r, g)) && (Unseen(Analyzed(r, f), g) <==> Unseen(r, g))
              && (Blocked(Saved(r, f), g) <==> Blocked(r, g)) && (Blocked(Announced(r, f), g) <==> Blocked(r, g))
  {
  }

  lemma UnblockedTail(r: Records, fs: Findings)
    requires fs != [] && !New(r, fs[0])
    ensures Unblocked(r, fs) <==> Unblocked(r, fs[1..])
  {
    var rest := fs[1..];
    forall i | 0 <= i < |rest| && rest[i].Some? ensures Earlier(r, rest, i) <==> Earlier(r, fs, i + 1) {
      assert rest[i] == fs[i + 1];
      if Earlier(r, fs, i + 1) {
        var j :| 0 <= j < i + 1 && fs[j].Some? && fs[j].value.fingerprint == fs[i + 1].value.fingerprint
                 && Unseen(r, fs[j].value);
        assert rest[j - 1] == fs[j];
      }
      if Earlier(r, rest, i) {
        var j :| 0 <= j < i && rest[j].Some? && rest[j].value.fingerprint == rest[i].value.fingerprint
                 && Unseen(r, rest[j].value);
        assert rest[j] == fs[j + 1];
      }
    }
    assert forall i :: 0 <= i < |rest| ==> rest[i] == fs[i + 1];
    if Unblocked(r, rest) {
      forall i | 0 <= i < |fs| && fs[i].Some? && Blocked(r, fs[i].value) ensures Earlier(r, fs, i) {
        assert rest[i - 1] == fs[i];
      }
    }
  }

  lemma UnblockedAnalyzed(r: Records, fs: Findings)
    requires fs != [] && fs[0].Some? && Unseen(r, fs[0].value) && !Blocked(r, fs[0].value)
    ensures Unblocked(r, fs) <==> Unblocked(Analyzed(r, fs[0].value), fs[1..])
  {
    var f, rest := fs[0].value, fs[1..];
    var after := Analyzed(r, f);
    forall i | 0 <= i < |rest| && rest[i].Some? && rest[i].value.fingerprint != f.fingerprint
      ensures Earlier(after, rest, i) <==> Earlier(r, fs, i + 1)
    {
      EarlierElsewhere(r, fs, i);
    }
    assert forall i :: 0 <= i < |rest| ==> rest[i] == fs[i + 1];
    if Unblocked(after, rest) {
      forall i | 0 <= i < |fs| && fs[i].Some? && Blocked(r, fs[i].value) ensures Earlier(r, fs, i) {
        AnalyzedElsewhere(r, f, fs[i].value);
        assert rest[i - 1] == fs[i];
        assert fs[i].value.fingerprint == f.fingerprint ==> Earlier(r, fs, i);
      }
    }
    if Unblocked(r, fs) {
      forall i | 0 <= i < |rest| && rest[i].Some? && Blocked(after, rest[i].value) ensures Earlier(after, rest, i) {
        AnalyzedElsewhere(r, f, rest[i].value);
        assert Blocked(r, fs[i + 1].value);
      }
    }
  }

  lemma EarlierElsewhere(r: Records, fs: Findings, i: nat)
    requires i + 1 < |fs| && fs[0].Some? && Unseen(r, fs[0].value) && fs[i + 1].Some?
    requires fs[i + 1].value.fingerprint != fs[0].value.fingerprint
    ensures Earlier(Analyzed(r, fs[0].value), fs[1..], i) <==> Earlier(r, fs, i + 1)
  {
    var f, rest := fs[0].value, fs[1..];
    var after := Analyzed(r, f);
    if Earlier(r, fs, i + 1) {
      var j :| 0 <= j < i + 1 && fs[j].Some? && fs[j].value.fingerprint == fs[i + 1].value.fingerprint
               && Unseen(r, fs[j].value);
      AnalyzedElsewhere(r, f, fs[j].value);
      assert rest[j - 1] == fs[j];
    }
    if Earlier(after, rest, i) {
      var j :| 0 <= j < i && rest[j].Some? && rest[j].value.fingerprint == rest[i].value.fingerprint
               && Unseen(after, rest[j].value);
      AnalyzedElsewhere(r, f, rest[j].value);
      assert rest[j] == fs[j + 1];
    }
  }

  // ----------------------------------------------------------------- whole analyses

  lemma OneKeeps(r: Records, x: Option<Finding>, n: nat)
    requires Kept(r)
    ensures Kept(CutOne(r, x, n)) && Kept(AnalyzeOne(r, x).0)
  {
    if x.Some? {
      WholeCall(r, CallAnalyze(x.value), 3);
      StepKeeps(r, Step(CallAnalyze(x.value), 3));
      StepKeeps(r, Step(CallAnalyze(x.value), n));
    }
  }

  lemma OneOwned(r: Records, x: Option<Finding>)
    requires OccurrencesOwned(r)
    ensures OccurrencesOwned(AnalyzeOne(r, x).0)
  {
    if x.Some? {
      WholeCall(r, CallAnalyze(x.value), 3);
      AnalysisOwned(r, x.value, 3);
    }
  }

  /** Analysing the first finding fails if it is blocked, and otherwise changes nothing for the rest. */
  lemma UnblockedFront(r: Records, fs: Findings)
    requires OccurrencesOwned(r) && fs != []
    ensures var (next, error) := AnalyzeOne(r, fs[0]);
            && (error.Some? ==> !Unblocked(r, fs))
            && (error.None? ==> !New(next, fs[0]) && (Unblocked(r, fs) <==> Unblocked(next, fs[1..])))
  {
    if New(r, fs[0]) {
      AnalyzeFailsIff(r, fs[0].value);
      if Blocked(r, fs[0].value) {
        assert !Earlier(r, fs, 0);
      } else {
        AnalyzeStates(r, fs[0].value, 3);
        UnblockedAnalyzed(r, fs);
      }
    } else {
      if fs[0].Some? {
        AnalyzeFailsIff(r, fs[0].value);
      }
      UnblockedTail(r, fs);
    }
  }

  /** The analysis of a run goes through if and only if no bad case is blocked for the first
      of its new findings. */
  lemma {:induction false} AnalyzesAllIff(r: Records, fs: Findings)
    requires OccurrencesOwned(r)
    ensures AnalyzeAll(r, fs).1.None? <==> Unblocked(r, fs)
    decreases |fs|
  {
    if fs != [] {
      UnblockedFront(r, fs);
      OneOwned(r, fs[0]);
      AnalyzesAllIff(AnalyzeOne(r, fs[0]).0, fs[1..]);
    }
  }

  lemma {:induction false} AllKeep(r: Records, fs: Findings)
    requires Kept(r)
    ensures Kept(AnalyzeAll(r, fs).0)
    decreases |fs|
  {
    if fs != [] {
      OneKeeps(r, fs[0], 0);
      AllKeep(AnalyzeOne(r, fs[0]).0, fs[1..]);
    }
  }

  lemma {:induction false} CutKeeps(r: Records, fs: Findings, i: nat, n: nat)
    requires Kept(r) && i < |fs|
    ensures Kept(CutAll(r, fs, i, n))
    decreases i
  {
    OneKeeps(r, fs[0], n);
    if i > 0 {
      CutKeeps(AnalyzeOne(r, fs[0]).0, fs[1..], i - 1, n);
    }
  }

  /** The analyses of a list, split after the first. */
  lemma {:induction false} AnalyzePrefix(r: Records, fs: Findings, i: nat, n: nat)
    requires i < |fs| && AnalyzeAll(r, fs[..i]).1.None?
    ensures var done := AnalyzeAll(r, fs[..i]).0;
            && CutAll(r, fs, i, n) == CutOne(done, fs[i], n)
            && AnalyzeAll(r, fs[..i + 1]) == AnalyzeOne(done, fs[i])
            && (AnalyzeOne(done, fs[i]).1.Some? ==> AnalyzeAll(r, fs) == AnalyzeOne(done, fs[i]))
    decreases i
  {
    var rest := fs[1..];
    assert fs[..i + 1][0] == fs[0] && fs[..i + 1][1..] == rest[..i];
    if i > 0 {
      assert fs[..i][0] == fs[0] && fs[..i][1..] == rest[..i - 1];
      AnalyzePrefix(AnalyzeOne(r, fs[0]).0, rest, i - 1, n);
    }
  }

  /** Cut off after `at` analyses, or after all of them. */
  function CutRun(r: Records, fs: Findings, at: nat, writes: nat): Records {
    if at < |fs| then CutAll(r, fs, at, writes) else AnalyzeAll(r, fs).0
  }

  lemma CutRunKeeps(r: Records, fs: Findings, at: nat, writes: nat)
    requires Kept(r)
    ensures Kept(CutRun(r, fs, at, writes))
  {
    if at < |fs| {
      CutKeeps(r, fs, at, writes);
    } else {
      AllKeep(r, fs);
    }
  }

  /** In sound records nothing is blocked. */
  lemma SoundUnblocked(r: Records, fs: Findings)
    requires Sound(r)
    ensures Unblocked(r, fs)
  {
    forall i | 0 <= i < |fs| && fs[i].Some? ensures !Blocked(r, fs[i].value) {
      if fs[i].value.fingerprint in r.badCases {
        NextSlotFree(r, fs[i].value.fingerprint);
      }
    }
  }

  // ------------------------------------------------------------------ cut and resumed

  /** Cut off anywhere, the analysis of a run goes through in the same order if and only if it
      would have without the cut. */
  lemma {:induction false} ResumedInSameOrder(r: Records, fs: Findings, i: nat, n: nat)
    requires OccurrencesOwned(r) && i < |fs|
    ensures Unblocked(CutAll(r, fs, i, n), fs) <==> Unblocked(r, fs)
    decreases i
  {
    if i == 0 {
      CutFirst(r, fs, n);
    } else {
      UnblockedFront(r, fs);
      OneOwned(r, fs[0]);
      var (next, error) := AnalyzeOne(r, fs[0]);
      if error.Some? {
        AnalyzeFailsIff(r, fs[0].value);
      } else {
        ResumedInSameOrder(next, fs[1..], i - 1, n);
        StaysKnown(next, fs[1..], i - 1, n, fs[0]);
        UnblockedTail(CutAll(next, fs[1..], i - 1, n), fs);
      }
    }
  }

  /** The same after any cut of a whole run of analyses, and after all of them. */
  lemma ResumedRun(r: Records, fs: Findings, at: nat, writes: nat)
    requires OccurrencesOwned(r)
    ensures Unblocked(CutRun(r, fs, at, writes), fs) <==> Unblocked(r, fs)
  {
    if at < |fs| {
      ResumedInSameOrder(r, fs, at, writes);
    } else {
      AllUnblocked(r, fs);
    }
  }

  lemma {:induction false} AllUnblocked(r: Records, fs: Findings)
    requires OccurrencesOwned(r)
    ensures Unblocked(AnalyzeAll(r, fs).0, fs) <==> Unblocked(r, fs)
    decreases |fs|
  {
    if fs != [] {
      UnblockedFront(r, fs);
      OneOwned(r, fs[0]);
      var (next, error) := AnalyzeOne(r, fs[0]);
      if error.Some? {
        AnalyzeFailsIff(r, fs[0].value);
      } else {
        AllUnblocked(next, fs[1..]);
        AllKnown(next, fs[1..], fs[0]);
        UnblockedTail(AnalyzeAll(next, fs[1..]).0, fs);
      }
    }
  }

  lemma {:induction false} AllKnown(r: Records, fs: Findings, x: Option<Finding>)
    requires !New(r, x)
    ensures !New(AnalyzeAll(r, fs).0, x)
    decreases |fs|
  {
    if fs != [] {
      if x.Some? {
        OneKnown(r, fs[0], 0, (x.value.fingerprint, x.value.result));
      }
      AllKnown(AnalyzeOne(r, fs[0]).0, fs[1..], x);
    }
  }

  lemma CutFirst(r: Records, fs: Findings, n: nat)
    requires OccurrencesOwned(r) && fs != []
    ensures Unblocked(CutAll(r, fs, 0, n), fs) <==> Unblocked(r, fs)
  {
    if New(r, fs[0]) {
      AnalyzeFailsIff(r, fs[0].value);
      if !Blocked(r, fs[0].value) {
        CutFirstNew(r, fs, n);
      }
    } else if fs[0].Some? {
      assert Take([], n) == [];
    }
  }

  lemma CutFirstNew(r: Records, fs: Findings, n: nat)
    requires fs != [] && fs[0].Some? && Unseen(r, fs[0].value) && !Blocked(r, fs[0].value)
    ensures Unblocked(Cut(r, CallAnalyze(fs[0].value), n), fs) <==> Unblocked(r, fs)
  {
    var f := fs[0].value;
    AnalyzeStates(r, f, n);
    var cut := Cut(r, CallAnalyze(f), n);
    if cut == Analyzed(r, f) {
      UnblockedAnalyzed(r, fs);
      UnblockedTail(cut, fs);
    } else {
      forall i | 0 <= i < |fs| && fs[i].Some?
        ensures (Blocked(cut, fs[i].value) ==> Earlier(cut, fs, i)) <==> (Blocked(r, fs[i].value) ==> Earlier(r, fs, i))
      {
        CutElsewhere(r, fs, cut, i);
      }
    }
  }

  /** A cut that left no occurrence blocks no finding but later ones of the same bad case. */
  lemma CutElsewhere(r: Records, fs: Findings, cut: Records, i: nat)
    requires i < |fs| && fs[0].Some? && Unseen(r, fs[0].value) && !Blocked(r, fs[0].value) && fs[i].Some?
    requires cut == r || cut == Announced(r, fs[0].value) || cut == Saved(r, fs[0].value)
    ensures (Blocked(cut, fs[i].value) ==> Earlier(cut, fs, i)) <==> (Blocked(r, fs[i].value) ==> Earlier(r, fs, i))
  {
    AnalyzedElsewhere(r, fs[0].value, fs[i].value);
    assert Earlier(cut, fs, i) <==> Earlier(r, fs, i) by {
      assert forall g: Finding :: Unseen(cut, g) <==> Unseen(r, g);
    }
    assert i > 0 && fs[i].value.fingerprint == fs[0].value.fingerprint ==> Earlier(r, fs, i);
  }

  lemma OneKnown(r: Records, x: Option<Finding>, n: nat, k: OccurrenceKey)
    requires k in r.occurrences
    ensures k in CutOne(r, x, n).occurrences && k in AnalyzeOne(r, x).0.occurrences
  {
    if x.Some? {
      WholeCall(r, CallAnalyze(x.value), 3);
      OccurrencesPerformed(r, Take(Writes(r, CallAnalyze(x.value)), 3), k);
      OccurrencesPerformed(r, Take(Writes(r, CallAnalyze(x.value)), n), k);
    }
  }

  lemma {:induction false} StaysKnown(r: Records, fs: Findings, i: nat, n: nat, x: Option<Finding>)
    requires i < |fs| && !New(r, x)
    ensures !New(CutAll(r, fs, i, n), x)
    decreases i
  {
    if x.Some? {
      OneKnown(r, fs[0], n, (x.value.fingerprint, x.value.result));
    }
    if i > 0 {
      StaysKnown(AnalyzeOne(r, fs[0]).0, fs[1..], i - 1, n, x);
    }
  }

  /** The first new finding of a bad case, if there is one, has a given time. */
  ghost predicate FirstHasTime(r: Records, fs: Findings, id: Fingerprint, at: int) {
    forall k :: 0 <= k < |fs| && fs[k].Some? && fs[k].value.fingerprint == id && Unseen(r, fs[k].value)
                && !Earlier(r, fs, k) ==>
      fs[k].value.at == at
  }

  lemma AnnouncedUnblockedIff(r: Records, f: Finding, gs: Findings)
    requires Sound(r) && Reopens(r, f)
    ensures Unblocked(Announced(r, f), gs) <==> FirstHasTime(r, gs, f.fingerprint, f.at)
  {
    var cut := Announced(r, f);
    forall k | 0 <= k < |gs| && gs[k].Some?
      ensures Blocked(cut, gs[k].value)
              <==> gs[k].value.fingerprint == f.fingerprint && Unseen(r, gs[k].value) && gs[k].value.at != f.at
      ensures Earlier(cut, gs, k) <==> Earlier(r, gs, k)
    {
      AnnouncedBlocksIff(r, f, gs[k].value);
    }
  }

  lemma AnnouncedBlocksIff(r: Records, f: Finding, g: Finding)
    requires Sound(r) && Reopens(r, f)
    ensures Blocked(Announced(r, f), g) <==> g.fingerprint == f.fingerprint && Unseen(r, g) && g.at != f.at
  {
    NextSlotFree(r, f.fingerprint);
    if g.fingerprint in r.badCases {
      NextSlotFree(r, g.fingerprint);
    }
  }

  lemma {:induction false} AllSound(r: Records, fs: Findings)
    requires Sound(r)
    ensures Sound(AnalyzeAll(r, fs).0) && AnalyzeAll(r, fs).1.None?
    decreases |fs|
  {
    SoundUnblocked(r, fs);
    AnalyzesAllIff(r, fs);
    if fs != [] {
      if fs[0].Some? {
        WholeCall(r, CallAnalyze(fs[0].value), 3);
        WholeStepSound(r, Step(CallAnalyze(fs[0].value), 3));
      }
      AllSound(AnalyzeOne(r, fs[0]).0, fs[1..]);
    }
  }

  /** An analysis of sound records that is cut off after the event of a recurrence leaves the
      state before it, with the event. */
  lemma CutAfterRecurrence(r: Records, fs: Findings, i: nat)
    requires Sound(r) && i < |fs|
    requires var done := AnalyzeAll(r, fs[..i]).0; New(done, fs[i]) && Reopens(done, fs[i].value)
    ensures var done := AnalyzeAll(r, fs[..i]).0;
            Sound(done) && CutAll(r, fs, i, 1) == Announced(done, fs[i].value)
  {
    AllSound(r, fs[..i]);
    AnalyzePrefix(r, fs, i, 1);
    var done := AnalyzeAll(r, fs[..i]).0;
    AnalyzedGenuine(done, fs[i].value);
    AnalyzeStates(done, fs[i].value, 1);
  }

  /** In another order it may not: cut off after the event of a recurrence, the analysis of a run
      goes through in any order if and only if the first new finding of that bad case in it has
      the time of the recurrence. */
  lemma ResumedInOtherOrderIff(r: Records, fs: Findings, i: nat, gs: Findings)
    requires Sound(r) && i < |fs|
    requires var done := AnalyzeAll(r, fs[..i]).0; New(done, fs[i]) && Reopens(done, fs[i].value)
    ensures AnalyzeAll(CutAll(r, fs, i, 1), gs).1.None? <==> Unblocked(CutAll(r, fs, i, 1), gs)
    ensures Unblocked(CutAll(r, fs, i, 1), gs)
            <==> FirstHasTime(AnalyzeAll(r, fs[..i]).0, gs, fs[i].value.fingerprint, fs[i].value.at)
  {
    CutAfterRecurrence(r, fs, i);
    CutKeeps(r, fs, i, 1);
    AnnouncedUnblockedIff(AnalyzeAll(r, fs[..i]).0, fs[i].value, gs);
    AnalyzesAllIff(CutAll(r, fs, i, 1), gs);
  }

  /** It then fails in every later state as well, until somebody writes that recurrence. */
  lemma ResumedInOtherOrderIsStuck(r: Records, fs: Findings, i: nat, gs: Findings, trace: seq<Step>)
    requires Sound(r) && i < |fs|
    requires var done := AnalyzeAll(r, fs[..i]).0; New(done, fs[i]) && Reopens(done, fs[i].value)
    requires !FirstHasTime(AnalyzeAll(r, fs[..i]).0, gs, fs[i].value.fingerprint, fs[i].value.at)
    requires forall k :: 0 <= k < |trace| ==>
               !WritesEvent(trace[k].call, fs[i].value.fingerprint, Recurrence(fs[i].value.at))
    ensures AnalyzeAll(Run(CutAll(r, fs, i, 1), trace), gs).1.Some?
  {
    CutAfterRecurrence(r, fs, i);
    CutKeeps(r, fs, i, 1);
    StuckFails(AnalyzeAll(r, fs[..i]).0, fs[i].value, gs, trace);
  }

  lemma StuckFails(r: Records, f: Finding, gs: Findings, trace: seq<Step>)
    requires Sound(r) && Reopens(r, f) && Kept(Announced(r, f)) && !FirstHasTime(r, gs, f.fingerprint, f.at)
    requires forall k :: 0 <= k < |trace| ==> !WritesEvent(trace[k].call, f.fingerprint, Recurrence(f.at))
    ensures AnalyzeAll(Run(Announced(r, f), trace), gs).1.Some?
  {
    var cut := Announced(r, f);
    ClosedAheadStays(cut, trace, f.fingerprint, Recurrence(f.at));
    RunOwned(cut, trace);
    StillBlocked(r, Run(cut, trace), f, gs);
    AnalyzesAllIff(Run(cut, trace), gs);
  }

  lemma StillBlocked(r: Records, later: Records, f: Finding, gs: Findings)
    requires ClosedAhead(later, f.fingerprint, Recurrence(f.at)) && SameOccurrences(r, later, f.fingerprint)
    requires !FirstHasTime(r, gs, f.fingerprint, f.at)
    ensures !Unblocked(later, gs)
  {
    var k :| 0 <= k < |gs| && gs[k].Some? && gs[k].value.fingerprint == f.fingerprint && Unseen(r, gs[k].value)
             && !Earlier(r, gs, k) && gs[k].value.at != f.at;
    assert Blocked(later, gs[k].value);
    assert !Earlier(later, gs, k);
  }
}
