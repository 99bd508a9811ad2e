/**
 * Properties of whole runs of the `PwBaseWorkChain` loop: the iteration budget, the
 * "second consecutive failure" rules for submission failures and unexpected failures, and two
 * complete runs against particular calculation behaviours.
 */
module PwTrace {
  import opened Wrappers
  import opened Strings
  import opened PwBase

  // ---------------------------------------------------------------------------------------
  // Kinds of attempts
  // ---------------------------------------------------------------------------------------

  /** An attempt whose submission failed. */
  predicate SubmissionFailedAttempt(a: Attempt) {
    a.completion.state == SubmissionFailed && !a.completion.finishedOk
  }

  /** An attempt that failed for a reason the failure rules do not handle. */
  predicate UnexpectedAttempt(a: Attempt) {
    a.completion.state == Failed && !a.completion.finishedOk
    && ClassifyFailure(a.launch.parameters, a.completion.output) == Unexpected
  }

  /** An attempt that finished without converging: the only kind that clears the
      unexpected-failure flag. */
  predicate ClearsUnexpected(a: Attempt) {
    a.completion.state == Finished && !a.completion.finishedOk
  }

  /** Whether an unexpected failure occurred with no unconverged-but-finished attempt after it. */
  function PendingUnexpected(calcs: seq<Attempt>): bool
    decreases |calcs|
  {
    if calcs == [] then false
    else if UnexpectedAttempt(Last(calcs)) then true
    else if ClearsUnexpected(Last(calcs)) then false
    else PendingUnexpected(calcs[..|calcs| - 1])
  }

  lemma PendingUnexpectedSnoc(calcs: seq<Attempt>, a: Attempt)
    ensures PendingUnexpected(calcs + [a])
            == if UnexpectedAttempt(a) then true else if ClearsUnexpected(a) then false else PendingUnexpected(calcs)
  {
    assert (calcs + [a])[..|calcs|] == calcs;
  }

  // ---------------------------------------------------------------------------------------
  // The invariant of the loop
  // ---------------------------------------------------------------------------------------

  /** Calculations carry their iteration number as identifier. */
  predicate Numbered(calcs: seq<Attempt>) {
    forall i :: 0 <= i < |calcs| ==> calcs[i].launch.pk == i + 1
  }

  /** Two submission failures in a row only ever end a run: the second is the last attempt and
      the workchain aborted on it (or had exhausted its budget before looking at it). */
  predicate NoRepeatedSubmissionFailure(calcs: seq<Attempt>, status: Status) {
    forall i :: 0 < i < |calcs| && SubmissionFailedAttempt(calcs[i - 1]) && SubmissionFailedAttempt(calcs[i]) ==>
      i == |calcs| - 1 &&
      status in {Aborted(RepeatedSubmissionFailure(i + 1)), Aborted(MaxIterationsReached(i + 1))}
  }

  /** An unexpected failure while an earlier one is still pending only ever ends a run. */
  predicate NoRepeatedUnexpectedFailure(calcs: seq<Attempt>, status: Status) {
    forall i :: 0 <= i < |calcs| && UnexpectedAttempt(calcs[i]) && PendingUnexpected(calcs[..i]) ==>
      i == |calcs| - 1 &&
      status in {Aborted(RepeatedUnexpectedFailure(i + 1)), Aborted(MaxIterationsReached(i + 1))}
  }

  /** What the context fields mean in terms of the calculations launched so far. */
  predicate Consistent(c: Ctx) {
    && c.iteration == |c.calculations|
    && Numbered(c.calculations)
    && (c.isFinished ==>
          c.calculations != [] && Last(c.calculations).completion.finishedOk
          && c.restartCalc == Some(Last(c.calculations)))
    && (c.status.Running? && !c.isFinished ==>
          && (c.submissionFailure <==> c.calculations != [] && SubmissionFailedAttempt(Last(c.calculations)))
          && (c.unexpectedFailure <==> PendingUnexpected(c.calculations)))
    && NoRepeatedSubmissionFailure(c.calculations, c.status)
    && NoRepeatedUnexpectedFailure(c.calculations, c.status)
  }

  /** `setup` and the pseudopotential validation establish the invariant. */
  lemma InitialConsistent(inputs: Inputs)
    ensures Consistent(Initial(inputs))
    ensures Consistent(ValidatedPseudos(Initial(inputs), inputs))
  {
  }

  // ---------------------------------------------------------------------------------------
  // One pass of the loop, summarised
  // ---------------------------------------------------------------------------------------

  /** What one pass of `run_pw` and `inspect_pw` does to a running, unfinished context `c`:
      the attempt it appends, and the decision taken on it. */
  predicate PassEffect(c: Ctx, r: Ctx) {
    PassOutline(c, r) && PassFlags(c, r) && FailedActions(c, r)
  }

  /** The attempt appended, and the decisions that end the loop. */
  predicate PassOutline(c: Ctx, r: Ctx) {
    && |r.calculations| == |c.calculations| + 1
    && r.calculations[..|c.calculations|] == c.calculations
    && r.iteration == c.iteration + 1
    && r.maxIterations == c.maxIterations
    && var a := Last(r.calculations);
       var pk := a.launch.pk;
       var ok := a.completion.finishedOk;
       && pk == r.iteration
       && (ok ==> r.isFinished && r.restartCalc == Some(a) && r.status == c.status)
       && (!ok ==> !r.isFinished)
       && (!ok && r.iteration >= r.maxIterations ==> r.status == Aborted(MaxIterationsReached(pk)))
       && (!ok && r.iteration < r.maxIterations && a.completion.state.OtherState? ==>
             r.status == Aborted(UnexpectedState(pk)))
  }

  /** Whether the last attempt of `r` was inspected past the budget and state checks. */
  predicate Handled(r: Ctx)
    requires |r.calculations| > 0
  {
    !Last(r.calculations).completion.finishedOk && r.iteration < r.maxIterations
  }

  /** The two failure flags after an attempt that was inspected in full. */
  predicate PassFlags(c: Ctx, r: Ctx)
    requires |r.calculations| > 0
  {
    SubmissionPass(c, r) && FinishedPass(c, r) && FailedPass(c, r)
  }

  predicate SubmissionPass(c: Ctx, r: Ctx)
    requires |r.calculations| > 0
  {
    var a := Last(r.calculations);
    Handled(r) && a.completion.state == SubmissionFailed ==>
      && r.submissionFailure && r.unexpectedFailure == c.unexpectedFailure
      && r.status == (if c.submissionFailure then Aborted(RepeatedSubmissionFailure(a.launch.pk)) else c.status)
  }

  predicate FinishedPass(c: Ctx, r: Ctx)
    requires |r.calculations| > 0
  {
    Handled(r) && Last(r.calculations).completion.state == Finished ==>
      !r.submissionFailure && !r.unexpectedFailure && r.status == c.status
      && r.restartCalc == Some(Last(r.calculations))
  }

  predicate FailedPass(c: Ctx, r: Ctx)
    requires |r.calculations| > 0
  {
    var a := Last(r.calculations);
    Handled(r) && a.completion.state == Failed ==>
      && !r.submissionFailure
      && (UnexpectedAttempt(a) ==>
            r.unexpectedFailure
            && r.status == (if c.unexpectedFailure then Aborted(RepeatedUnexpectedFailure(a.launch.pk)) else c.status))
      && (!UnexpectedAttempt(a) ==> r.unexpectedFailure == c.unexpectedFailure)
  }

  /** What a failed attempt's handled action does: the abort on invalid input, the switch to
      `'cg'`, the lowered `max_seconds` (or the error reading it) and the walltime restart. Only the
      walltime restart moves `restart_calc`. */
  predicate ActionEffects(c: Ctx, a: Attempt, r: Ctx) {
    var action := ClassifyFailure(a.launch.parameters, a.completion.output);
    var reduced := ReducedMaxSeconds(c.settings, a.launch.parameters);
    && (action == AbortInvalidInput ==> r.status == Aborted(InvalidInputFile(a.launch.pk)))
    && (action == SwitchDiagonalization ==>
          r.status == c.status && Lookup(r.parameters, "ELECTRONS", "diagonalization") == Some(StrV("cg")))
    && (action == ReduceMaxSeconds && reduced.Success? ==>
          r.status == c.status && Lookup(r.parameters, "CONTROL", "max_seconds") == Some(IntV(reduced.value)))
    && (action == ReduceMaxSeconds && reduced.Failure? ==> r.status == Excepted(reduced.error))
    && (action == RestartFromCalculation ==> r.status == c.status && r.restartCalc == Some(a))
    && (action != RestartFromCalculation ==> r.restartCalc == c.restartCalc)
  }

  predicate FailedActions(c: Ctx, r: Ctx)
    requires |r.calculations| > 0
  {
    Handled(r) && Last(r.calculations).completion.state == Failed ==> ActionEffects(c, Last(r.calculations), r)
  }

  lemma StepOutline(c: Ctx, hasParent: bool, run: Runner)
    requires c.status.Running? && !c.isFinished
    ensures PassOutline(c, Step(c, hasParent, run))
  {
    var l := Launched(c, hasParent, run);
    LaunchedAttempt(c, hasParent, run);
    InspectedDecision(l);
  }

  lemma StepSubmission(c: Ctx, hasParent: bool, run: Runner)
    requires c.status.Running? && !c.isFinished
    ensures |Step(c, hasParent, run).calculations| > 0
    ensures SubmissionPass(c, Step(c, hasParent, run))
  {
    assert Launched(c, hasParent, run).iteration == c.iteration + 1;
  }

  lemma StepFinished(c: Ctx, hasParent: bool, run: Runner)
    requires c.status.Running? && !c.isFinished
    ensures |Step(c, hasParent, run).calculations| > 0
    ensures FinishedPass(c, Step(c, hasParent, run))
  {
    assert Launched(c, hasParent, run).iteration == c.iteration + 1;
  }

  lemma StepFailed(c: Ctx, hasParent: bool, run: Runner)
    requires c.status.Running? && !c.isFinished
    ensures |Step(c, hasParent, run).calculations| > 0
    ensures FailedPass(c, Step(c, hasParent, run))
  {
    assert Launched(c, hasParent, run).iteration == c.iteration + 1;
  }

  /** `_handle_calculation_failure` has the effects of its classified action. */
  lemma HandlerActionEffects(c: Ctx, a: Attempt)
    ensures ActionEffects(c, a, AfterCalculationFailure(c, a))
  {
    CalculationFailureActions(c, a);
    var reduced := ReducedMaxSeconds(c.settings, a.launch.parameters);
    if reduced.Success? {
      SetKeyLookup(c.parameters, "CONTROL", "max_seconds", IntV(reduced.value));
    }
  }

  /** `inspect_pw` on a failed attempt has the effects of its classified action. */
  lemma FailedActionsOfInspected(l: Ctx)
    requires |l.calculations| > 0
    ensures |Inspected(l).calculations| > 0
    ensures FailedActions(l, Inspected(l))
  {
    var a := Last(l.calculations);
    if !a.completion.finishedOk && l.iteration < l.maxIterations && a.completion.state == Failed {
      var c1 := l.(submissionFailure := false);
      InspectedUnconverged(l);
      HandlerActionEffects(c1, a);
    }
  }

  lemma StepFailedActions(c: Ctx, hasParent: bool, run: Runner)
    requires c.status.Running? && !c.isFinished
    ensures |Step(c, hasParent, run).calculations| > 0
    ensures FailedActions(c, Step(c, hasParent, run))
  {
    var l := Launched(c, hasParent, run);
    assert l.status == c.status && l.settings == c.settings && l.restartCalc == c.restartCalc;
    assert |l.calculations| > 0;
    FailedActionsOfInspected(l);
  }

  /** `Step` has the effect summarised by `PassEffect`. */
  lemma StepEffect(c: Ctx, hasParent: bool, run: Runner)
    requires c.status.Running? && !c.isFinished
    ensures PassEffect(c, Step(c, hasParent, run))
  {
    StepOutline(c, hasParent, run);
    StepSubmission(c, hasParent, run);
    StepFinished(c, hasParent, run);
    StepFailed(c, hasParent, run);
    StepFailedActions(c, hasParent, run);
  }

  lemma {:induction false} PassKeepsSubmissionRule(c: Ctx, r: Ctx)
    requires Consistent(c) && c.status.Running? && !c.isFinished && PassOutline(c, r) && PassFlags(c, r)
    ensures NoRepeatedSubmissionFailure(r.calculations, r.status)
    ensures r.status.Running? && !r.isFinished ==>
              (r.submissionFailure <==> SubmissionFailedAttempt(Last(r.calculations)))
  {
    var n := |c.calculations|;
    assert forall j :: 0 <= j < n ==> r.calculations[j] == c.calculations[j];
    assert forall j :: 0 < j < n ==> !(SubmissionFailedAttempt(c.calculations[j - 1]) && SubmissionFailedAttempt(c.calculations[j]));
    forall i | 0 < i < |r.calculations| && SubmissionFailedAttempt(r.calculations[i - 1]) && SubmissionFailedAttempt(r.calculations[i])
      ensures i == |r.calculations| - 1
      ensures r.status in {Aborted(RepeatedSubmissionFailure(i + 1)), Aborted(MaxIterationsReached(i + 1))}
    {
      assert r.calculations[i - 1] == Last(c.calculations);
    }
  }

  lemma {:induction false} PassKeepsUnexpectedRule(c: Ctx, r: Ctx)
    requires Consistent(c) && c.status.Running? && !c.isFinished && PassOutline(c, r) && PassFlags(c, r)
    ensures NoRepeatedUnexpectedFailure(r.calculations, r.status)
  {
    var n := |c.calculations|;
    assert forall j :: 0 <= j < n ==> r.calculations[..j] == c.calculations[..j] && r.calculations[j] == c.calculations[j];
    assert forall j :: 0 <= j < n ==> !(UnexpectedAttempt(c.calculations[j]) && PendingUnexpected(c.calculations[..j]));
    forall i | 0 <= i < |r.calculations| && UnexpectedAttempt(r.calculations[i]) && PendingUnexpected(r.calculations[..i])
      ensures i == |r.calculations| - 1
      ensures r.status in {Aborted(RepeatedUnexpectedFailure(i + 1)), Aborted(MaxIterationsReached(i + 1))}
    {
      assert r.calculations[..i] == c.calculations;
    }
  }

  lemma PassKeepsUnexpectedFlag(c: Ctx, r: Ctx)
    requires Consistent(c) && c.status.Running? && !c.isFinished && PassOutline(c, r) && PassFlags(c, r)
    ensures r.status.Running? && !r.isFinished ==> (r.unexpectedFailure <==> PendingUnexpected(r.calculations))
  {
    var a := Last(r.calculations);
    assert r.calculations == c.calculations + [a];
    PendingUnexpectedSnoc(c.calculations, a);
  }

  /** One pass of the loop keeps the invariant. */
  lemma StepConsistent(c: Ctx, hasParent: bool, run: Runner)
    requires Consistent(c) && c.status.Running? && !c.isFinished
    ensures Consistent(Step(c, hasParent, run))
  {
    var r := Step(c, hasParent, run);
    StepEffect(c, hasParent, run);
    PassKeepsSubmissionRule(c, r);
    PassKeepsUnexpectedRule(c, r);
    PassKeepsUnexpectedFlag(c, r);
    assert forall j :: 0 <= j < |c.calculations| ==> r.calculations[j] == c.calculations[j];
  }

  /** The whole loop keeps the invariant. */
  lemma {:induction false} DriveConsistent(c: Ctx, hasParent: bool, run: Runner)
    requires Consistent(c)
    ensures Consistent(Drive(c, hasParent, run))
    decreases Budget(c)
  {
    if c.status.Running? && ShouldRun(c) {
      StepConsistent(c, hasParent, run);
      DriveConsistent(Step(c, hasParent, run), hasParent, run);
    }
  }

  // ---------------------------------------------------------------------------------------
  // Termination and the iteration budget
  // ---------------------------------------------------------------------------------------

  /** The loop ends only when its guard fails or the workchain stopped, never launches more than
      `max_iterations` calculations, and a still-running, unfinished workchain after the loop is
      one whose budget was exhausted before the first launch. */
  lemma {:induction false} DriveOutcome(c: Ctx, hasParent: bool, run: Runner)
    requires c.status.Running? && !c.isFinished
    ensures var r := Drive(c, hasParent, run);
            && (r.status.Running? ==> !ShouldRun(r))
            && (c.iteration < c.maxIterations ==> r.iteration <= c.maxIterations)
            && (r.status.Running? && !r.isFinished ==> r == c && c.iteration >= c.maxIterations)
    decreases Budget(c)
  {
    if ShouldRun(c) {
      var s := Step(c, hasParent, run);
      StepEffect(c, hasParent, run);
      if s.status.Running? && !s.isFinished {
        DriveOutcome(s, hasParent, run);
      }
    }
  }

  /** The pieces together: from `setup`, the run never repeats a submission failure or an
      unexpected failure without aborting, and a finished run ends on a converged calculation
      that becomes `restart_calc`. */
  lemma RunRespectsFailureRules(inputs: Inputs, run: Runner)
    ensures var c := ValidatedPseudos(Initial(inputs), inputs);
            var r := Drive(c, inputs.parentFolder, run);
            && NoRepeatedSubmissionFailure(r.calculations, r.status)
            && NoRepeatedUnexpectedFailure(r.calculations, r.status)
            && |r.calculations| == r.iteration
            && (r.isFinished ==> r.restartCalc == Some(Last(r.calculations)) && Last(r.calculations).completion.finishedOk)
            && (r.status.Running? ==> r.isFinished || inputs.maxIterations <= 0)
  {
    var c := ValidatedPseudos(Initial(inputs), inputs);
    InitialConsistent(inputs);
    DriveConsistent(c, inputs.parentFolder, run);
    if c.status.Running? {
      DriveOutcome(c, inputs.parentFolder, run);
    }
  }

  /** The restart chain: after a pass whose attempt finished without converging (or failed on
      the walltime), that attempt is `restart_calc`, so the next `run_pw` launches from its remote
      folder in `restart` mode. */
  lemma {:induction false} NextAttemptRestartsFromLast(c: Ctx, hasParent: bool, run: Runner)
    requires c.status.Running? && !c.isFinished
    ensures var r := Step(c, hasParent, run);
            |r.calculations| > 0 && Handled(r) &&
            (Last(r.calculations).completion.state == Finished
             || (Last(r.calculations).completion.state == Failed
                 && ClassifyFailure(Last(r.calculations).launch.parameters, Last(r.calculations).completion.output)
                    == RestartFromCalculation)) ==>
              var next := Last(Launched(r, hasParent, run).calculations);
              && next.launch.parentFolder == Some(RemoteFolderOf(Last(r.calculations).launch.pk))
              && Lookup(next.launch.parameters, "CONTROL", "restart_mode") == Some(StrV("restart"))
  {
    var r := Step(c, hasParent, run);
    StepEffect(c, hasParent, run);
    LaunchedAttempt(r, hasParent, run);
  }

  // ---------------------------------------------------------------------------------------
  // Two complete runs
  // ---------------------------------------------------------------------------------------

  const NotSubmitted := Completion(SubmissionFailed, false, None, false, false)

  /** A run whose submissions always fail stops on the second attempt. */
  lemma AlwaysFailingSubmissionAbortsOnSecond(c: Ctx, hasParent: bool, run: Runner)
    requires c.status.Running? && c.iteration == 0 && c.calculations == [] && !c.isFinished
    requires !c.submissionFailure && c.maxIterations >= 3
    requires forall l :: run(l) == NotSubmitted
    ensures var r := Drive(c, hasParent, run);
            r.iteration == 2 && r.status == Aborted(RepeatedSubmissionFailure(2))
  {
    LaunchedAttempt(c, hasParent, run);
    StepEffect(c, hasParent, run);
    var c1 := Step(c, hasParent, run);
    assert c1.status.Running? && c1.submissionFailure && c1.iteration == 1;
    LaunchedAttempt(c1, hasParent, run);
    StepEffect(c1, hasParent, run);
    var c2 := Step(c1, hasParent, run);
    assert c2.status == Aborted(RepeatedSubmissionFailure(2)) && c2.iteration == 2;
    assert Drive(c, hasParent, run) == Drive(c1, hasParent, run) == Drive(c2, hasParent, run) == c2;
  }

  /** A calculation that fails to diagonalize with warning `w` unless it runs with `'cg'`. */
  function DiagonalizationSensitive(w: string): Runner {
    (l: Launch) =>
      if Lookup(l.parameters, "ELECTRONS", "diagonalization") == Some(StrV("cg")) then
        Completion(Finished, true, Some(OutputParameters(Some([]), Some([]))), true, true)
      else
        Completion(Failed, false, Some(OutputParameters(Some([w]), Some([]))), true, false)
  }

  /** A diagonalization warning that mentions no other rule's fragment. */
  predicate DiagonalizationOnly(w: string) {
    && (Contains(w, "eigenvalues not converged") || Contains(w, "too many bands are not converged"))
    && '_' !in w && '%' !in w && 'E' !in w
  }

  lemma DiagonalizationWarningClassified(p: Params, w: string)
    requires DiagonalizationScheme(p) == StrV(DefaultDiagonalization)
    requires DiagonalizationOnly(w)
    ensures ClassifyFailure(p, Some(OutputParameters(Some([w]), Some([])))) == SwitchDiagonalization
  {
    MissingCharNotContained(w, "read_namelists", '_');
    assert [w][0] == w;
  }

  /** The first attempt fails to diagonalize, and the next one is set up with `'cg'`. */
  lemma FirstAttemptSwitchesScheme(c: Ctx, hasParent: bool, w: string)
    requires c.status.Running? && !c.isFinished && c.iteration < c.maxIterations - 1
    requires DiagonalizationScheme(c.parameters) == StrV(DefaultDiagonalization)
    requires DiagonalizationOnly(w)
    ensures var c1 := Step(c, hasParent, DiagonalizationSensitive(w));
            && c1.status == Running && !c1.isFinished && c1.iteration == c.iteration + 1
            && Lookup(c1.parameters, "ELECTRONS", "diagonalization") == Some(StrV("cg"))
  {
    var run := DiagonalizationSensitive(w);
    var l1 := Launched(c, hasParent, run);
    LaunchedAttempt(c, hasParent, run);
    LaunchedKeepsOtherKeys(c, hasParent, run, "ELECTRONS", "diagonalization");
    DiagonalizationWarningClassified(Last(l1.calculations).launch.parameters, w);
    assert Step(c, hasParent, run).parameters == WithDiagonalizationCg(l1.parameters);
  }

  /** An attempt set up with `'cg'` converges and ends the loop. */
  lemma CgAttemptConverges(c: Ctx, hasParent: bool, w: string)
    requires c.status.Running? && !c.isFinished && c.iteration < c.maxIterations
    requires Lookup(c.parameters, "ELECTRONS", "diagonalization") == Some(StrV("cg"))
    ensures var c2 := Step(c, hasParent, DiagonalizationSensitive(w));
            && c2.isFinished && c2.status == Running && c2.iteration == c.iteration + 1
            && |c2.calculations| == |c.calculations| + 1
            && Lookup(Last(c2.calculations).launch.parameters, "ELECTRONS", "diagonalization") == Some(StrV("cg"))
  {
    var run := DiagonalizationSensitive(w);
    LaunchedAttempt(c, hasParent, run);
    LaunchedKeepsOtherKeys(c, hasParent, run, "ELECTRONS", "diagonalization");
    StepOutline(c, hasParent, run);
  }

  /** A run against a calculation that only converges with `'cg'` switches scheme once and
      converges on the second attempt, which runs with `'cg'`. */
  lemma DiagonalizationSwitchConverges(c: Ctx, hasParent: bool, w: string)
    requires c.status.Running? && c.iteration == 0 && c.calculations == [] && !c.isFinished
    requires c.maxIterations >= 2
    requires DiagonalizationScheme(c.parameters) == StrV(DefaultDiagonalization)
    requires DiagonalizationOnly(w)
    ensures var r := Drive(c, hasParent, DiagonalizationSensitive(w));
            && r.isFinished && r.status == Running && r.iteration == 2 && |r.calculations| == 2
            && Lookup(Last(r.calculations).launch.parameters, "ELECTRONS", "diagonalization") == Some(StrV("cg"))
  {
    var run := DiagonalizationSensitive(w);
    FirstAttemptSwitchesScheme(c, hasParent, w);
    var c1 := Step(c, hasParent, run);
    CgAttemptConverges(c1, hasParent, w);
    var c2 := Step(c1, hasParent, run);
    assert Drive(c, hasParent, run) == Drive(c1, hasParent, run) == Drive(c2, hasParent, run) == c2;
  }
}
