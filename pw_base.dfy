/**
 * The restart controller `PwBaseWorkChain` of workflows/pw/base.py.
 *
 * The workchain launches one pw.x calculation per loop pass, inspects how it ended, adapts the
 * input parameters of the next pass and decides whether to stop. The state the source keeps in
 * `self.ctx` is the class `PwBaseWorkChain` below; every method that changes it is proved equal
 * to a pure step function on a snapshot of that state (`Ctx`), and the properties of the
 * controller are proved about those functions.
 */
module PwBase {
  import opened Wrappers
  import opened Strings

  // ---------------------------------------------------------------------------------------
  // What the workchain exchanges with the calculation
  // ---------------------------------------------------------------------------------------

  /** The states of a finished PwCalculation that the workchain tells apart (`calc_states`). */
  datatype CalcState = Finished | Failed | SubmissionFailed | OtherState(name: string)

  /** One entry of a pw.x namelist. */
  datatype Value = IntV(i: int) | RealV(r: real) | StrV(s: string) | BoolV(b: bool)

  /** A namelist (`CONTROL`, `ELECTRONS`, ...) and the parameter tree of namelists. */
  type Namelist = map<string, Value>
  type Params = map<string, Namelist>

  /** A pseudopotential entry: an `UpfData` node or a node of any other type. */
  datatype Pseudo = UpfPseudo(element: string) | OtherNode(element: string)

  /** The `output_parameters` node of a calculation; a key missing from it is `None`. */
  datatype OutputParameters = OutputParameters(warnings: Option<seq<string>>, parserWarnings: Option<seq<string>>)

  /**
   * How a launched calculation ended, as far as the workchain can see: its state, whether it
   * `has_finished_ok()`, its output parameters if it produced them, whether removing its remote
   * folder succeeds, and whether it has an output structure.
   */
  datatype Completion = Completion(
    state: CalcState,
    finishedOk: bool,
    output: Option<OutputParameters>,
    releasable: bool,
    hasOutputStructure: bool)

  /** Where a restarted calculation reads its previous run from. */
  datatype ParentFolder = SuppliedParent | RemoteFolderOf(pk: nat)

  /** What one `run_pw` submits. The calculation is identified by its iteration number. */
  datatype Launch = Launch(pk: nat, parameters: Params, parentFolder: Option<ParentFolder>)

  /** A launched calculation together with how it ended. */
  datatype Attempt = Attempt(launch: Launch, completion: Completion)

  /** The external calculation runner: submission, the daemon and pw.x itself. */
  type Runner = Launch -> Completion

  /** The workchain inputs (`spec.input`). `familyPseudos` is what `get_pseudos_from_structure`
      returns for the pseudo family. */
  datatype Inputs = Inputs(
    kindNames: seq<string>,
    pseudos: Option<map<string, Pseudo>>,
    pseudoFamily: Option<string>,
    familyPseudos: map<string, Pseudo>,
    parentFolder: bool,
    parameters: Params,
    settings: Namelist,
    options: Namelist,
    cleanWorkdir: bool,
    maxIterations: int)

  /** The reasons `abort_nowait` is called with. */
  datatype AbortReason =
    | NoPseudoInputs
    | NoPseudoFor(kind: string)
    | PseudoNotUpf(kind: string)
    | NoCalculation
    | MaxIterationsReached(pk: nat)
    | UnexpectedState(pk: nat)
    | RepeatedSubmissionFailure(pk: nat)
    | RepeatedUnexpectedFailure(pk: nat)
    | InvalidInputFile(pk: nat)

  /** Python exceptions that escape a workchain step and end the process. */
  datatype Crash =
    | MissingKey(key: string)
    | NotANumber(key: string)
    | MissingInput(name: string)
    | FormatIndexError

  datatype Status = Running | Aborted(reason: AbortReason) | Excepted(crash: Crash)

  /** The outputs `run_results` attaches, taken from the calculation `pk`. */
  datatype ChainOutputs = ChainOutputs(pk: nat, outputParameters: OutputParameters, hasOutputStructure: bool)

  /** A snapshot of the workchain context. */
  datatype Ctx = Ctx(
    maxIterations: int,
    iteration: nat,
    isFinished: bool,
    submissionFailure: bool,
    unexpectedFailure: bool,
    restartCalc: Option<Attempt>,
    parameters: Params,
    settings: Namelist,
    pseudos: map<string, Pseudo>,
    calculations: seq<Attempt>,
    status: Status,
    outputs: Option<ChainOutputs>)

  const DefaultDiagonalization := "david"
  const PrematureTerminationWarning := "QE pw run did not reach the end of the execution."
  const MaxCpuTimeWarning := "Maximum CPU time exceeded"

  function Last<T>(s: seq<T>): T
    requires s != []
  {
    s[|s| - 1]
  }

  // ---------------------------------------------------------------------------------------
  // The parameter tree
  // ---------------------------------------------------------------------------------------

  /** `p[namelist][key]`, or None when either key is missing. */
  function Lookup(p: Params, namelist: string, key: string): Option<Value> {
    if namelist in p && key in p[namelist] then Some(p[namelist][key]) else None
  }

  /** `p[namelist][key] = v`; the namelist is created when absent. */
  function SetKey(p: Params, namelist: string, key: string, v: Value): Params {
    p[namelist := (if namelist in p then p[namelist] else map[])[key := v]]
  }

  /** Setting a key changes that key and no other, and adds at most its namelist. */
  lemma SetKeyLookup(p: Params, namelist: string, key: string, v: Value)
    ensures Lookup(SetKey(p, namelist, key, v), namelist, key) == Some(v)
    ensures forall n, k :: (n, k) != (namelist, key) ==> Lookup(SetKey(p, namelist, key, v), n, k) == Lookup(p, n, k)
    ensures SetKey(p, namelist, key, v).Keys == p.Keys + {namelist}
  {
  }

  /** The number Python's `0.95 * v` multiplies, or None when that product raises a TypeError. */
  function AsNumber(v: Value): Option<real> {
    match v
    case IntV(i) => Some(i as real)
    case RealV(r) => Some(r)
    case BoolV(b) => Some(if b then 1.0 else 0.0)
    case StrV(_) => None
  }

  /** Python's `int(x)` on a float: truncation toward zero. */
  function TruncateTowardZero(x: real): (n: int)
    ensures x >= 0.0 ==> n as real <= x < n as real + 1.0
    ensures x < 0.0 ==> n as real - 1.0 < x <= n as real
  {
    if x >= 0.0 then x.Floor else -((-x).Floor)
  }

  /** `int(0.95 * x)`: the budget cut applied to wall-clock limits. It lies between zero and `x`,
      strictly closer to zero unless `x` is zero. */
  function Reduce95(x: real): (n: int)
    ensures x >= 0.0 ==> 0 <= n && n as real <= x
    ensures x > 0.0 ==> n as real < x
    ensures x < 0.0 ==> x < n as real && n <= 0
    ensures x >= 0.0 ==> 95.0 * x / 100.0 - 1.0 < n as real <= 95.0 * x / 100.0
  {
    TruncateTowardZero(0.95 * x)
  }

  // ---------------------------------------------------------------------------------------
  // setup and validate_pseudo_potentials
  // ---------------------------------------------------------------------------------------

  /** The context after `setup`: counters and flags reset, and `CONTROL.max_seconds` set to 95% of
      the scheduler's wall-clock limit. A missing or non-numeric limit, or a missing `CONTROL`
      namelist, raises. */
  function Initial(inputs: Inputs): (c: Ctx)
    ensures c.iteration == 0 && !c.isFinished && !c.submissionFailure && !c.unexpectedFailure
    ensures c.restartCalc == None && c.calculations == [] && c.outputs == None
    ensures c.maxIterations == inputs.maxIterations && c.settings == inputs.settings && c.pseudos == map[]
    ensures c.status.Running? <==>
              "max_wallclock_seconds" in inputs.options && AsNumber(inputs.options["max_wallclock_seconds"]).Some?
              && "CONTROL" in inputs.parameters
    ensures c.status.Running? ==>
              Lookup(c.parameters, "CONTROL", "max_seconds")
              == Some(IntV(Reduce95(AsNumber(inputs.options["max_wallclock_seconds"]).value)))
    ensures forall n, k :: (n, k) != ("CONTROL", "max_seconds") ==> Lookup(c.parameters, n, k) == Lookup(inputs.parameters, n, k)
    ensures !c.status.Running? ==> c.status.Excepted? && c.parameters == inputs.parameters
  {
    var c0 := Ctx(inputs.maxIterations, 0, false, false, false, None, inputs.parameters,
                  inputs.settings, map[], [], Running, None);
    if "max_wallclock_seconds" !in inputs.options then c0.(status := Excepted(MissingKey("max_wallclock_seconds")))
    else match AsNumber(inputs.options["max_wallclock_seconds"])
      case None => c0.(status := Excepted(NotANumber("max_wallclock_seconds")))
      case Some(w) =>
        if "CONTROL" !in inputs.parameters then c0.(status := Excepted(MissingKey("CONTROL")))
        else c0.(parameters := SetKey(inputs.parameters, "CONTROL", "max_seconds", IntV(Reduce95(w))))
  }

  /** The pseudopotential map the calculation will use: the explicit `pseudos` whenever given,
      otherwise the family's, and None when neither input is present. */
  function SelectedPseudos(inputs: Inputs): (r: Option<map<string, Pseudo>>)
    ensures r.None? <==> inputs.pseudos.None? && inputs.pseudoFamily.None?
    ensures inputs.pseudos.Some? ==> r == inputs.pseudos
    ensures inputs.pseudos.None? && inputs.pseudoFamily.Some? ==> r == Some(inputs.familyPseudos)
  {
    if inputs.pseudos.Some? then inputs.pseudos
    else if inputs.pseudoFamily.Some? then Some(inputs.familyPseudos)
    else None
  }

  /** The first structure kind that has no pseudopotential or one that is not an `UpfData`. */
  function PseudoProblem(kinds: seq<string>, pseudos: map<string, Pseudo>): Option<AbortReason>
    decreases |kinds|
  {
    if kinds == [] then None
    else if kinds[0] !in pseudos then Some(NoPseudoFor(kinds[0]))
    else if !pseudos[kinds[0]].UpfPseudo? then Some(PseudoNotUpf(kinds[0]))
    else PseudoProblem(kinds[1..], pseudos)
  }

  /** Kind coverage: there is no problem exactly when every kind has an `UpfData` entry, and a
      problem names a kind of the structure. */
  lemma {:induction false} PseudoProblemIffUncovered(kinds: seq<string>, pseudos: map<string, Pseudo>)
    ensures PseudoProblem(kinds, pseudos).None? <==>
              forall i :: 0 <= i < |kinds| ==> kinds[i] in pseudos && pseudos[kinds[i]].UpfPseudo?
    ensures PseudoProblem(kinds, pseudos).Some? ==>
              match PseudoProblem(kinds, pseudos).value
              case NoPseudoFor(k) => k in kinds && k !in pseudos
              case PseudoNotUpf(k) => k in kinds && k in pseudos && !pseudos[k].UpfPseudo?
              case _ => false
    decreases |kinds|
  {
    if kinds != [] && kinds[0] in pseudos && pseudos[kinds[0]].UpfPseudo? {
      PseudoProblemIffUncovered(kinds[1..], pseudos);
      assert forall i :: 1 <= i < |kinds| ==> kinds[i] == kinds[1..][i - 1];
      if PseudoProblem(kinds[1..], pseudos).Some? {
        assert forall k :: k in kinds[1..] ==> k in kinds;
      }
    }
  }

  /** The context after `validate_pseudo_potentials` (corrected: see `ValidatedPseudosAsWritten`). */
  function ValidatedPseudos(c: Ctx, inputs: Inputs): (r: Ctx)
    ensures r.(status := c.status, pseudos := c.pseudos) == c
    ensures inputs.pseudos.None? && inputs.pseudoFamily.None? ==> r.status == Aborted(NoPseudoInputs)
    ensures SelectedPseudos(inputs).Some? ==> r.pseudos == SelectedPseudos(inputs).value
    ensures r.status != c.status ==> r.status.Aborted?
    ensures c.status.Running? ==>
              (r.status.Running? <==>
                 SelectedPseudos(inputs).Some? &&
                 forall k :: k in inputs.kindNames ==> k in r.pseudos && r.pseudos[k].UpfPseudo?)
  {
    match SelectedPseudos(inputs)
    case None => c.(status := Aborted(NoPseudoInputs))
    case Some(p) =>
      PseudoProblemIffUncovered(inputs.kindNames, p);
      match PseudoProblem(inputs.kindNames, p)
      case None => c.(pseudos := p)
      case Some(reason) => c.(pseudos := p, status := Aborted(reason))
  }

  /** `validate_pseudo_potentials` as written: line 93 reads `self.inputs.pseudo_family.value`
      before checking which inputs were given, which raises whenever no family was given. */
  function ValidatedPseudosAsWritten(c: Ctx, inputs: Inputs): (r: Ctx)
    ensures inputs.pseudoFamily.None? ==> r.status == Excepted(MissingInput("pseudo_family"))
    ensures inputs.pseudoFamily.Some? ==> r == ValidatedPseudos(c, inputs)
  {
    if inputs.pseudoFamily.None? then c.(status := Excepted(MissingInput("pseudo_family")))
    else ValidatedPseudos(c, inputs)
  }

  /** The discrepancy at line 93: explicit, complete pseudopotentials without a family are
      accepted by the corrected step and crash the step as written. */
  lemma ExplicitPseudosWithoutFamily(c: Ctx, inputs: Inputs)
    requires c.status.Running?
    requires inputs.pseudoFamily.None? && inputs.pseudos.Some?
    requires forall k :: k in inputs.kindNames ==> k in inputs.pseudos.value && inputs.pseudos.value[k].UpfPseudo?
    ensures ValidatedPseudos(c, inputs).status == Running
    ensures ValidatedPseudosAsWritten(c, inputs).status == Excepted(MissingInput("pseudo_family"))
  {
    PseudoProblemIffUncovered(inputs.kindNames, inputs.pseudos.value);
  }

  // ---------------------------------------------------------------------------------------
  // should_run_pw and run_pw
  // ---------------------------------------------------------------------------------------

  /** The loop guard of the outline. */
  predicate ShouldRun(c: Ctx) {
    !c.isFinished && c.iteration < c.maxIterations
  }

  /** Where the calculation launched at iteration `it` restarts from. */
  function RestartSource(it: int, hasParent: bool, restartCalc: Option<Attempt>): Option<ParentFolder> {
    if it == 1 && hasParent then Some(SuppliedParent)
    else if restartCalc.Some? then Some(RemoteFolderOf(restartCalc.value.launch.pk))
    else None
  }

  /** The context after `run_pw`: one more iteration, `CONTROL.restart_mode` chosen, and the
      calculation appended to `calculations` with the answer of the runner. The restart mode is
      written into the workchain's own parameter tree, so it persists into later attempts. */
  function Launched(c: Ctx, hasParent: bool, run: Runner): Ctx {
    var it := c.iteration + 1;
    var parent := RestartSource(it, hasParent, c.restartCalc);
    var mode := if parent.Some? then "restart" else "from_scratch";
    var params := SetKey(c.parameters, "CONTROL", "restart_mode", StrV(mode));
    var launch := Launch(it, params, parent);
    c.(iteration := it, parameters := params, calculations := c.calculations + [Attempt(launch, run(launch))])
  }

  /** The launched calculation: it carries the iteration number and the current parameters,
      restarts from the supplied parent folder on the first iteration and from `restart_calc`
      otherwise, and runs `from_scratch` exactly when there is nothing to restart from. No other
      parameter changes. */
  lemma LaunchedAttempt(c: Ctx, hasParent: bool, run: Runner)
    ensures var r := Launched(c, hasParent, run);
            && r.iteration == c.iteration + 1
            && |r.calculations| == |c.calculations| + 1 && r.calculations[..|c.calculations|] == c.calculations
            && r.(iteration := c.iteration, parameters := c.parameters, calculations := c.calculations) == c
    ensures var r := Launched(c, hasParent, run);
            var a := Last(r.calculations);
            && a.launch.pk == r.iteration
            && a.launch.parameters == r.parameters
            && a.completion == run(a.launch)
            && (r.iteration == 1 && hasParent ==> a.launch.parentFolder == Some(SuppliedParent))
            && (!(r.iteration == 1 && hasParent) && c.restartCalc.Some? ==>
                  a.launch.parentFolder == Some(RemoteFolderOf(c.restartCalc.value.launch.pk)))
            && (!(r.iteration == 1 && hasParent) && c.restartCalc.None? ==> a.launch.parentFolder.None?)
            && ((Lookup(r.parameters, "CONTROL", "restart_mode") == Some(StrV("from_scratch")))
                  <==> a.launch.parentFolder.None?)
            && Lookup(r.parameters, "CONTROL", "restart_mode") in {Some(StrV("restart")), Some(StrV("from_scratch"))}
  {
  }

  lemma LaunchedKeepsOtherKeys(c: Ctx, hasParent: bool, run: Runner, n: string, k: string)
    requires (n, k) != ("CONTROL", "restart_mode")
    ensures Lookup(Launched(c, hasParent, run).parameters, n, k) == Lookup(c.parameters, n, k)
  {
  }

  // ---------------------------------------------------------------------------------------
  // The failure classifier (_handle_calculation_failure)
  // ---------------------------------------------------------------------------------------

  /** What `_handle_calculation_failure` decides for a failed calculation. `Unexpected` is the
      `UnexpectedFailure` exception. */
  datatype FailureAction =
    | AbortInvalidInput
    | SwitchDiagonalization
    | Unexpected
    | ReduceMaxSeconds
    | RestartFromCalculation

  /** `ELECTRONS.diagonalization` of the calculation's input, `'david'` when absent. */
  function DiagonalizationScheme(p: Params): Value {
    Lookup(p, "ELECTRONS", "diagonalization").GetOr(StrV(DefaultDiagonalization))
  }

  /** The rule table of `_handle_calculation_failure`, applied to the calculation's input
      parameters and output. A missing output node or missing warning lists are unexpected. */
  function ClassifyFailure(input: Params, output: Option<OutputParameters>): FailureAction
  {
    if output.None? || output.value.warnings.None? || output.value.parserWarnings.None? then Unexpected
    else
      var warnings := output.value.warnings.value;
      var parserWarnings := output.value.parserWarnings.value;
      if AnyContains(warnings, "read_namelists") then AbortInvalidInput
      else if (AnyContains(warnings, "too many bands are not converged") || AnyContains(warnings, "eigenvalues not converged"))
              && DiagonalizationScheme(input) == StrV(DefaultDiagonalization) then SwitchDiagonalization
      else if AnyContains(warnings, "%%%") || AnyContains(warnings, "Error") then Unexpected
      else if PrematureTerminationWarning in parserWarnings then ReduceMaxSeconds
      else if MaxCpuTimeWarning in warnings then RestartFromCalculation
      else Unexpected
  }

  /** What each decision of the classifier requires of the calculation's output: only
      `read_namelists` aborts, only the default scheme is switched, and a walltime restart or a
      `max_seconds` cut needs the exact warning and no general error. A missing output node or
      warning list is always unexpected. */
  lemma ClassifyFailureOutcomes(input: Params, output: Option<OutputParameters>)
    ensures ClassifyFailure(input, output) != Unexpected ==>
              output.Some? && output.value.warnings.Some? && output.value.parserWarnings.Some?
    ensures ClassifyFailure(input, output) == AbortInvalidInput <==>
              output.Some? && output.value.warnings.Some? && output.value.parserWarnings.Some?
              && AnyContains(output.value.warnings.value, "read_namelists")
    ensures ClassifyFailure(input, output) == SwitchDiagonalization ==> DiagonalizationScheme(input) == StrV(DefaultDiagonalization)
    ensures ClassifyFailure(input, output) in {ReduceMaxSeconds, RestartFromCalculation} ==>
              !AnyContains(output.value.warnings.value, "%%%") && !AnyContains(output.value.warnings.value, "Error")
    ensures ClassifyFailure(input, output) == RestartFromCalculation ==> MaxCpuTimeWarning in output.value.warnings.value
    ensures ClassifyFailure(input, output) == ReduceMaxSeconds ==> PrematureTerminationWarning in output.value.parserWarnings.value
  {
  }

  /** The classifier as an ordered table of (condition, action) rules. */
  datatype Condition =
    | WarningContains(fragment: string)
    | DiagonalizationFailureWithDefault
    | ParserWarningIs(text: string)
    | WarningIs(text: string)
    | Always

  datatype Rule = Rule(condition: Condition, action: FailureAction)

  const FailureRules: seq<Rule> := [
    Rule(WarningContains("read_namelists"), AbortInvalidInput),
    Rule(DiagonalizationFailureWithDefault, SwitchDiagonalization),
    Rule(WarningContains("%%%"), Unexpected),
    Rule(WarningContains("Error"), Unexpected),
    Rule(ParserWarningIs(PrematureTerminationWarning), ReduceMaxSeconds),
    Rule(WarningIs(MaxCpuTimeWarning), RestartFromCalculation),
    Rule(Always, Unexpected)
  ]

  predicate Holds(cond: Condition, warnings: seq<string>, parserWarnings: seq<string>, scheme: Value) {
    match cond
    case WarningContains(fragment) => AnyContains(warnings, fragment)
    case DiagonalizationFailureWithDefault =>
      (AnyContains(warnings, "too many bands are not converged") || AnyContains(warnings, "eigenvalues not converged"))
      && scheme == StrV(DefaultDiagonalization)
    case ParserWarningIs(text) => text in parserWarnings
    case WarningIs(text) => text in warnings
    case Always => true
  }

  /** The action of the first rule whose condition holds; unexpected when none does. */
  function FirstMatch(rules: seq<Rule>, warnings: seq<string>, parserWarnings: seq<string>, scheme: Value): FailureAction
    decreases |rules|
  {
    if rules == [] then Unexpected
    else if Holds(rules[0].condition, warnings, parserWarnings, scheme) then rules[0].action
    else FirstMatch(rules[1..], warnings, parserWarnings, scheme)
  }

  /** First-match read as a search: the answer is the action of the lowest-numbered rule whose
      condition holds, and unexpected when no condition holds. */
  lemma {:induction false} FirstMatchIsLeast(rules: seq<Rule>, w: seq<string>, pw: seq<string>, scheme: Value)
    ensures forall i | 0 <= i < |rules| && Holds(rules[i].condition, w, pw, scheme)
                       && (forall j :: 0 <= j < i ==> !Holds(rules[j].condition, w, pw, scheme)) ::
              FirstMatch(rules, w, pw, scheme) == rules[i].action
    ensures (forall i :: 0 <= i < |rules| ==> !Holds(rules[i].condition, w, pw, scheme)) ==>
              FirstMatch(rules, w, pw, scheme) == Unexpected
    decreases |rules|
  {
    if rules != [] {
      var rest := rules[1..];
      FirstMatchIsLeast(rest, w, pw, scheme);
      assert forall i :: 1 <= i < |rules| ==> rules[i] == rest[i - 1];
    }
  }

  lemma FirstMatchCons(r: Rule, rest: seq<Rule>, w: seq<string>, pw: seq<string>, scheme: Value)
    ensures FirstMatch([r] + rest, w, pw, scheme)
            == if Holds(r.condition, w, pw, scheme) then r.action else FirstMatch(rest, w, pw, scheme)
  {
    assert ([r] + rest)[1..] == rest;
  }

  lemma FirstMatchOfSeven(r0: Rule, r1: Rule, r2: Rule, r3: Rule, r4: Rule, r5: Rule, r6: Rule,
                          w: seq<string>, pw: seq<string>, scheme: Value)
    ensures FirstMatch([r0, r1, r2, r3, r4, r5, r6], w, pw, scheme)
            == if Holds(r0.condition, w, pw, scheme) then r0.action
               else if Holds(r1.condition, w, pw, scheme) then r1.action
               else if Holds(r2.condition, w, pw, scheme) then r2.action
               else if Holds(r3.condition, w, pw, scheme) then r3.action
               else if Holds(r4.condition, w, pw, scheme) then r4.action
               else if Holds(r5.condition, w, pw, scheme) then r5.action
               else if Holds(r6.condition, w, pw, scheme) then r6.action
               else Unexpected
  {
    FirstMatchCons(r6, [], w, pw, scheme);
    FirstMatchCons(r5, [r6], w, pw, scheme);
    FirstMatchCons(r4, [r5, r6], w, pw, scheme);
    FirstMatchCons(r3, [r4, r5, r6], w, pw, scheme);
    FirstMatchCons(r2, [r3, r4, r5, r6], w, pw, scheme);
    FirstMatchCons(r1, [r2, r3, r4, r5, r6], w, pw, scheme);
    FirstMatchCons(r0, [r1, r2, r3, r4, r5, r6], w, pw, scheme);
  }

  /** The rule table read in order. */
  lemma FailureRulesInOrder(warnings: seq<string>, parserWarnings: seq<string>, scheme: Value)
    ensures FirstMatch(FailureRules, warnings, parserWarnings, scheme)
            == if AnyContains(warnings, "read_namelists") then AbortInvalidInput
               else if (AnyContains(warnings, "too many bands are not converged") || AnyContains(warnings, "eigenvalues not converged"))
                       && scheme == StrV(DefaultDiagonalization) then SwitchDiagonalization
               else if AnyContains(warnings, "%%%") || AnyContains(warnings, "Error") then Unexpected
               else if PrematureTerminationWarning in parserWarnings then ReduceMaxSeconds
               else if MaxCpuTimeWarning in warnings then RestartFromCalculation
               else Unexpected
  {
    var w, pw := warnings, parserWarnings;
    FirstMatchOfSeven(FailureRules[0], FailureRules[1], FailureRules[2], FailureRules[3], FailureRules[4],
                      FailureRules[5], FailureRules[6], w, pw, scheme);
  }

  /** The if/elif chain of the source is the first-match reading of the rule table. */
  lemma ClassifyFollowsRuleTable(input: Params, warnings: seq<string>, parserWarnings: seq<string>)
    ensures ClassifyFailure(input, Some(OutputParameters(Some(warnings), Some(parserWarnings))))
            == FirstMatch(FailureRules, warnings, parserWarnings, DiagonalizationScheme(input))
  {
    FailureRulesInOrder(warnings, parserWarnings, DiagonalizationScheme(input));
  }

  // ---------------------------------------------------------------------------------------
  // The failure handlers and inspect_pw
  // ---------------------------------------------------------------------------------------

  /** `_handle_error_diagonalization`, corrected: switch the next attempt to the `'cg'` scheme,
      creating the `ELECTRONS` namelist when the input had none. */
  function WithDiagonalizationCg(p: Params): (r: Params)
    ensures Lookup(r, "ELECTRONS", "diagonalization") == Some(StrV("cg"))
    ensures DiagonalizationScheme(r) != StrV(DefaultDiagonalization)
    ensures forall n, k :: (n, k) != ("ELECTRONS", "diagonalization") ==> Lookup(r, n, k) == Lookup(p, n, k)
  {
    SetKey(p, "ELECTRONS", "diagonalization", StrV("cg"))
  }

  /** `_handle_error_diagonalization` as written. Line 334 indexes `['ELECTRONS']`, which raises
      when the namelist is absent although line 290 treats that as the default scheme; and the
      report at line 335 formats two placeholders with one argument, which always raises. */
  function DiagonalizationHandlerAsWritten(p: Params): Result<Params, Crash> {
    if "ELECTRONS" !in p then Failure(MissingKey("ELECTRONS"))
    else Failure(FormatIndexError)
  }

  /** The discrepancy at lines 334-335: as written the handler never lets the workchain retry,
      whereas the corrected handler always yields a tree whose next attempt uses `'cg'`. */
  lemma DiagonalizationHandlerNeverRetriesAsWritten(p: Params)
    ensures DiagonalizationHandlerAsWritten(p).Failure?
    ensures DiagonalizationScheme(WithDiagonalizationCg(p)) == StrV("cg")
  {
  }

  /** `max_seconds` for the next attempt after a premature termination: 95% of the `settings`
      value if given, else of the calculation's `CONTROL.max_seconds`. Python evaluates the
      default argument of `settings.get` first, so a missing `CONTROL.max_seconds` always raises. */
  function ReducedMaxSeconds(settings: Namelist, input: Params): (r: Result<int, Crash>)
    ensures Lookup(input, "CONTROL", "max_seconds").None? ==> r == Failure(MissingKey("max_seconds"))
    ensures Lookup(input, "CONTROL", "max_seconds").Some? ==>
              var limit := if "max_seconds" in settings then settings["max_seconds"]
                           else Lookup(input, "CONTROL", "max_seconds").value;
              && (r.Success? <==> AsNumber(limit).Some?)
              && (r.Success? ==> r.value == Reduce95(AsNumber(limit).value))
              && (r.Success? && limit == IntV(r.value) ==> r.value == 0)
  {
    if Lookup(input, "CONTROL", "max_seconds").None? then Failure(MissingKey("max_seconds"))
    else
      var v := if "max_seconds" in settings then settings["max_seconds"] else input["CONTROL"]["max_seconds"];
      match AsNumber(v)
      case None => Failure(NotANumber("max_seconds"))
      case Some(x) => Success(Reduce95(x))
  }

  /** `_handle_submission_failure` followed by `submission_failure = True`. */
  function AfterSubmissionFailure(c: Ctx, calculation: Attempt): (r: Ctx)
    ensures r.submissionFailure
    ensures r.status == (if c.submissionFailure then Aborted(RepeatedSubmissionFailure(calculation.launch.pk)) else c.status)
    ensures r.(status := c.status, submissionFailure := c.submissionFailure) == c
  {
    c.(status := if c.submissionFailure then Aborted(RepeatedSubmissionFailure(calculation.launch.pk)) else c.status,
       submissionFailure := true)
  }

  /** `_handle_unexpected_failure` followed by `unexpected_failure = True`. */
  function AfterUnexpectedFailure(c: Ctx, calculation: Attempt): (r: Ctx)
    ensures r.unexpectedFailure
    ensures r.status == (if c.unexpectedFailure then Aborted(RepeatedUnexpectedFailure(calculation.launch.pk)) else c.status)
    ensures r.(status := c.status, unexpectedFailure := c.unexpectedFailure) == c
  {
    c.(status := if c.unexpectedFailure then Aborted(RepeatedUnexpectedFailure(calculation.launch.pk)) else c.status,
       unexpectedFailure := true)
  }

  /** `_handle_calculation_failure` with its `UnexpectedFailure` caught by `inspect_pw`. Only
      `ELECTRONS.diagonalization` or `CONTROL.max_seconds` of the tree can change. */
  function AfterCalculationFailure(c: Ctx, calculation: Attempt): (r: Ctx)
    ensures forall n, k :: (n, k) != ("ELECTRONS", "diagonalization") && (n, k) != ("CONTROL", "max_seconds") ==>
              Lookup(r.parameters, n, k) == Lookup(c.parameters, n, k)
    ensures r.(status := c.status, parameters := c.parameters, restartCalc := c.restartCalc,
               unexpectedFailure := c.unexpectedFailure) == c
    ensures r.restartCalc != c.restartCalc ==> r.restartCalc == Some(calculation)
  {
    match ClassifyFailure(calculation.launch.parameters, calculation.completion.output)
    case AbortInvalidInput => c.(status := Aborted(InvalidInputFile(calculation.launch.pk)))
    case SwitchDiagonalization => c.(parameters := WithDiagonalizationCg(c.parameters))
    case Unexpected => AfterUnexpectedFailure(c, calculation)
    case ReduceMaxSeconds =>
      (match ReducedMaxSeconds(c.settings, calculation.launch.parameters)
       case Failure(e) => c.(status := Excepted(e))
       case Success(n) => c.(parameters := SetKey(c.parameters, "CONTROL", "max_seconds", IntV(n))))
    case RestartFromCalculation => c.(restartCalc := Some(calculation))
  }

  /** What each decision of the classifier does to the context: an invalid input aborts naming the
      calculation, a diagonalization failure switches to `'cg'`, an unexpected failure goes through
      `_handle_unexpected_failure`, a premature termination lowers `CONTROL.max_seconds` (or raises
      when it cannot be read), and an exceeded walltime restarts from the calculation. */
  lemma CalculationFailureActions(c: Ctx, calculation: Attempt)
    ensures var r := AfterCalculationFailure(c, calculation);
            var action := ClassifyFailure(calculation.launch.parameters, calculation.completion.output);
            && (action == AbortInvalidInput ==> r == c.(status := Aborted(InvalidInputFile(calculation.launch.pk))))
            && (action == SwitchDiagonalization ==> r == c.(parameters := WithDiagonalizationCg(c.parameters)))
            && (action == Unexpected ==> r == AfterUnexpectedFailure(c, calculation))
            && (action == RestartFromCalculation ==> r == c.(restartCalc := Some(calculation)))
    ensures var r := AfterCalculationFailure(c, calculation);
            var action := ClassifyFailure(calculation.launch.parameters, calculation.completion.output);
            var reduced := ReducedMaxSeconds(c.settings, calculation.launch.parameters);
            && (action == ReduceMaxSeconds && reduced.Success? ==>
                  r == c.(parameters := SetKey(c.parameters, "CONTROL", "max_seconds", IntV(reduced.value))))
            && (action == ReduceMaxSeconds && reduced.Failure? ==> r == c.(status := Excepted(reduced.error)))
  {
  }

  /** The context after `inspect_pw`. The first matching case wins: a calculation that finished
      ok ends the loop; otherwise an exhausted budget aborts; otherwise an unknown state aborts;
      otherwise submission failures and failed or unconverged calculations are handled. Only a
      calculation that finished ok sets `is_finished`. */
  function Inspected(c: Ctx): (r: Ctx)
    ensures r.(isFinished := c.isFinished, submissionFailure := c.submissionFailure, unexpectedFailure := c.unexpectedFailure,
               restartCalc := c.restartCalc, parameters := c.parameters, status := c.status) == c
  {
    if c.calculations == [] then c.(status := Aborted(NoCalculation))
    else
      var calculation := Last(c.calculations);
      var pk := calculation.launch.pk;
      if calculation.completion.finishedOk then c.(restartCalc := Some(calculation), isFinished := true)
      else if c.iteration >= c.maxIterations then c.(status := Aborted(MaxIterationsReached(pk)))
      else if calculation.completion.state.OtherState? then c.(status := Aborted(UnexpectedState(pk)))
      else if calculation.completion.state == SubmissionFailed then AfterSubmissionFailure(c, calculation)
      else
        var c1 := c.(submissionFailure := false);
        if calculation.completion.state == Failed then AfterCalculationFailure(c1, calculation)
        else c1.(unexpectedFailure := false, restartCalc := Some(calculation))
  }

  /** The decisions of `inspect_pw`, in the order the source takes them. */
  lemma InspectedDecision(c: Ctx)
    ensures var r := Inspected(c);
            && (c.calculations == [] ==> r.status == Aborted(NoCalculation))
            && (c.calculations != [] && Last(c.calculations).completion.finishedOk ==>
                  r.isFinished && r.restartCalc == Some(Last(c.calculations)) && r.status == c.status)
            && (r.isFinished != c.isFinished ==> c.calculations != [] && Last(c.calculations).completion.finishedOk)
            && (c.calculations != [] && !Last(c.calculations).completion.finishedOk && c.iteration >= c.maxIterations ==>
                  r.status == Aborted(MaxIterationsReached(Last(c.calculations).launch.pk)))
            && (c.calculations != [] && !Last(c.calculations).completion.finishedOk && c.iteration < c.maxIterations
                && Last(c.calculations).completion.state.OtherState? ==>
                  r.status == Aborted(UnexpectedState(Last(c.calculations).launch.pk)))
            && (c.calculations != [] && !Last(c.calculations).completion.finishedOk && c.iteration < c.maxIterations
                && !Last(c.calculations).completion.state.OtherState? ==>
                  (r.submissionFailure <==> Last(c.calculations).completion.state == SubmissionFailed))
  {
  }

  /** The two handled outcomes of `inspect_pw` besides a submission failure: a calculation that
      finished without converging clears both flags and becomes `restart_calc`, so the next
      `run_pw` restarts from it; a failed calculation goes to `_handle_calculation_failure`. */
  lemma InspectedUnconverged(c: Ctx)
    ensures var r := Inspected(c);
            && (c.calculations != [] && !Last(c.calculations).completion.finishedOk && c.iteration < c.maxIterations
                && Last(c.calculations).completion.state == Finished ==>
                  r.restartCalc == Some(Last(c.calculations)) && !r.unexpectedFailure && !r.submissionFailure
                  && r.status == c.status && r.parameters == c.parameters)
            && (c.calculations != [] && !Last(c.calculations).completion.finishedOk && c.iteration < c.maxIterations
                && Last(c.calculations).completion.state == Failed ==>
                  r == AfterCalculationFailure(c.(submissionFailure := false), Last(c.calculations)))
  {
  }

  /** Whatever the calculation reports, `inspect_pw` changes at most the diagonalization scheme
      and `CONTROL.max_seconds` of the parameters used for the next attempt. */
  lemma InspectChangesOnlyTwoKeys(c: Ctx, n: string, k: string)
    requires (n, k) != ("ELECTRONS", "diagonalization") && (n, k) != ("CONTROL", "max_seconds")
    ensures Lookup(Inspected(c).parameters, n, k) == Lookup(c.parameters, n, k)
  {
  }

  // ---------------------------------------------------------------------------------------
  // The outline: the while loop, run_results and run_clean
  // ---------------------------------------------------------------------------------------

  function Budget(c: Ctx): nat {
    if c.iteration < c.maxIterations then c.maxIterations - c.iteration else 0
  }

  /** One pass of the loop body: `run_pw` then `inspect_pw`. */
  function Step(c: Ctx, hasParent: bool, run: Runner): Ctx {
    Inspected(Launched(c, hasParent, run))
  }

  /** `while_(should_run_pw)(run_pw, inspect_pw)`, stopping as soon as the workchain aborts or
      raises. */
  function Drive(c: Ctx, hasParent: bool, run: Runner): (r: Ctx)
    ensures r.maxIterations == c.maxIterations
    ensures c.iteration <= r.iteration
    decreases Budget(c)
  {
    if c.status.Running? && ShouldRun(c) then Drive(Step(c, hasParent, run), hasParent, run)
    else c
  }

  /** The context after `run_results`: the outputs of `restart_calc`. Reading them from a missing
      `restart_calc` or a calculation without output parameters raises. */
  function WithResults(c: Ctx): (r: Ctx)
    ensures r.(status := c.status, outputs := c.outputs) == c
    ensures c.status.Running? ==>
              (r.status.Running? <==> c.restartCalc.Some? && c.restartCalc.value.completion.output.Some?)
    ensures c.status.Running? && r.status.Running? ==>
              r.outputs == Some(ChainOutputs(c.restartCalc.value.launch.pk, c.restartCalc.value.completion.output.value,
                                             c.restartCalc.value.completion.hasOutputStructure))
    ensures r.outputs != c.outputs ==> r.status == c.status
  {
    if c.restartCalc.None? then c.(status := Excepted(MissingKey("restart_calc")))
    else
      var calculation := c.restartCalc.value;
      match calculation.completion.output
      case None => c.(status := Excepted(MissingKey("output_parameters")))
      case Some(out) => c.(outputs := Some(ChainOutputs(calculation.launch.pk, out, calculation.completion.hasOutputStructure)))
  }

  /** The whole outline after `setup`: validation, the loop and `run_results`; each step runs
      only if the previous ones neither aborted nor raised. */
  function Completed(c: Ctx, inputs: Inputs, run: Runner): Ctx {
    var v := if c.status.Running? then ValidatedPseudos(c, inputs) else c;
    var d := Drive(v, inputs.parentFolder, run);
    if d.status.Running? then WithResults(d) else d
  }

  /** The calculations whose remote folder `run_clean` removes, in launch order. */
  function Released(calcs: seq<Attempt>): seq<nat>
    decreases |calcs|
  {
    if calcs == [] then []
    else Released(calcs[..|calcs| - 1]) + (if Last(calcs).completion.releasable then [Last(calcs).launch.pk] else [])
  }

  /** Cleaning is best effort: a calculation is released exactly when its own release succeeds,
      whatever happens to the others. */
  lemma {:induction false} ReleasedExactlyReleasable(calcs: seq<Attempt>, pk: nat)
    ensures pk in Released(calcs) <==>
              exists i :: 0 <= i < |calcs| && calcs[i].launch.pk == pk && calcs[i].completion.releasable
    ensures |Released(calcs)| <= |calcs|
    decreases |calcs|
  {
    if calcs != [] {
      var init := calcs[..|calcs| - 1];
      ReleasedExactlyReleasable(init, pk);
      assert forall i :: 0 <= i < |init| ==> init[i] == calcs[i];
      if exists i :: 0 <= i < |calcs| && calcs[i].launch.pk == pk && calcs[i].completion.releasable {
        var i :| 0 <= i < |calcs| && calcs[i].launch.pk == pk && calcs[i].completion.releasable;
        if i < |init| {
          assert init[i] == calcs[i];
        }
      }
    }
  }

  // ---------------------------------------------------------------------------------------
  // The workchain object
  // ---------------------------------------------------------------------------------------

  /** `PwBaseWorkChain`: the inputs and the fields of `self.ctx` that the steps update. */
  class PwBaseWorkChain {
    const inputs: Inputs
    var maxIterations: int
    var iteration: nat
    var isFinished: bool
    var submissionFailure: bool
    var unexpectedFailure: bool
    var restartCalc: Option<Attempt>
    var parameters: Params
    var settings: Namelist
    var pseudos: map<string, Pseudo>
    var calculations: seq<Attempt>
    var status: Status
    var outputs: Option<ChainOutputs>

    /** The context as a value. */
    function Snapshot(): Ctx
      reads this
    {
      Ctx(maxIterations, iteration, isFinished, submissionFailure, unexpectedFailure, restartCalc,
          parameters, settings, pseudos, calculations, status, outputs)
    }

    /** `setup`. */
    constructor Setup(inputs: Inputs)
      ensures this.inputs == inputs
      ensures Snapshot() == Initial(inputs)
    {
      this.inputs := inputs;
      maxIterations := inputs.maxIterations;
      unexpectedFailure := false;
      submissionFailure := false;
      restartCalc := None;
      isFinished := false;
      iteration := 0;
      parameters := inputs.parameters;
      settings := inputs.settings;
      pseudos := map[];
      calculations := [];
      outputs := None;
      status := Running;
      if "max_wallclock_seconds" !in inputs.options {
        status := Excepted(MissingKey("max_wallclock_seconds"));
      } else {
        var wallclock := AsNumber(inputs.options["max_wallclock_seconds"]);
        if wallclock.None? {
          status := Excepted(NotANumber("max_wallclock_seconds"));
        } else if "CONTROL" !in inputs.parameters {
          status := Excepted(MissingKey("CONTROL"));
        } else {
          parameters := SetKey(inputs.parameters, "CONTROL", "max_seconds", IntV(Reduce95(wallclock.value)));
        }
      }
    }

    /** `validate_pseudo_potentials` (corrected at line 93): choose the pseudopotentials, then
        check every kind of the structure in turn. */
    method ValidatePseudoPotentials()
      modifies this
      ensures Snapshot() == ValidatedPseudos(old(Snapshot()), inputs)
    {
      var selected := SelectedPseudos(inputs);
      if selected.None? {
        status := Aborted(NoPseudoInputs);
        return;
      }
      pseudos := selected.value;
      // Every kind is visited; the first problem found is the one reported.
      var kinds := inputs.kindNames;
      var problem: Option<AbortReason> := None;
      var i := 0;
      while i < |kinds|
        invariant 0 <= i <= |kinds|
        invariant Snapshot() == old(Snapshot()).(pseudos := pseudos)
        invariant pseudos == selected.value
        invariant PseudoProblem(kinds, pseudos) ==
                  if problem.None? then PseudoProblem(kinds[i..], pseudos) else problem
      {
        assert kinds[i..][1..] == kinds[i + 1..];
        if problem.None? {
          if kinds[i] !in pseudos {
            problem := Some(NoPseudoFor(kinds[i]));
          } else if !pseudos[kinds[i]].UpfPseudo? {
            problem := Some(PseudoNotUpf(kinds[i]));
          }
        }
        i := i + 1;
      }
      if problem.Some? {
        status := Aborted(problem.value);
      }
    }

    /** `should_run_pw`. */
    method ShouldRunPw() returns (run: bool)
      ensures run <==> !isFinished && iteration < maxIterations
    {
      run := !isFinished && iteration < maxIterations;
    }

    /** `run_pw`: advance the iteration, choose the restart mode and submit. */
    method RunPw(run: Runner)
      modifies this
      ensures Snapshot() == Launched(old(Snapshot()), inputs.parentFolder, run)
    {
      iteration := iteration + 1;
      var parent: Option<ParentFolder>;
      if iteration == 1 && inputs.parentFolder {
        parent := Some(SuppliedParent);
      } else if restartCalc.Some? {
        parent := Some(RemoteFolderOf(restartCalc.value.launch.pk));
      } else {
        parent := None;
      }
      var mode := if parent.Some? then "restart" else "from_scratch";
      parameters := SetKey(parameters, "CONTROL", "restart_mode", StrV(mode));
      var launch := Launch(iteration, parameters, parent);
      calculations := calculations + [Attempt(launch, run(launch))];
    }

    /** `_handle_submission_failure`. */
    method HandleSubmissionFailure(calculation: Attempt)
      modifies this
      ensures old(submissionFailure) ==> status == Aborted(RepeatedSubmissionFailure(calculation.launch.pk))
      ensures Snapshot() == if old(submissionFailure) then old(Snapshot()).(status := status) else old(Snapshot())
    {
      if submissionFailure {
        status := Aborted(RepeatedSubmissionFailure(calculation.launch.pk));
      }
    }

    /** `_handle_unexpected_failure`. */
    method HandleUnexpectedFailure(calculation: Attempt)
      modifies this
      ensures old(unexpectedFailure) ==> status == Aborted(RepeatedUnexpectedFailure(calculation.launch.pk))
      ensures Snapshot() == if old(unexpectedFailure) then old(Snapshot()).(status := status) else old(Snapshot())
    {
      if unexpectedFailure {
        status := Aborted(RepeatedUnexpectedFailure(calculation.launch.pk));
      }
    }

    /** `_handle_fatal_error_read_namelists`. */
    method HandleFatalErrorReadNamelists(calculation: Attempt)
      modifies this
      ensures Snapshot() == old(Snapshot()).(status := Aborted(InvalidInputFile(calculation.launch.pk)))
    {
      status := Aborted(InvalidInputFile(calculation.launch.pk));
    }

    /** `_handle_error_diagonalization` (corrected at lines 334-335). */
    method HandleErrorDiagonalization()
      modifies this
      ensures Snapshot() == old(Snapshot()).(parameters := WithDiagonalizationCg(old(parameters)))
    {
      parameters := SetKey(parameters, "ELECTRONS", "diagonalization", StrV("cg"));
    }

    /** `_handle_error_premature_termination`: cut `CONTROL.max_seconds` to 95%. */
    method HandleErrorPrematureTermination(calculation: Attempt)
      modifies this
      ensures match ReducedMaxSeconds(old(settings), calculation.launch.parameters)
              case Success(n) => Snapshot() == old(Snapshot()).(parameters := SetKey(old(parameters), "CONTROL", "max_seconds", IntV(n)))
              case Failure(e) => Snapshot() == old(Snapshot()).(status := Excepted(e))
    {
      var reduced := ReducedMaxSeconds(settings, calculation.launch.parameters);
      if reduced.Failure? {
        status := Excepted(reduced.error);
      } else {
        parameters := SetKey(parameters, "CONTROL", "max_seconds", IntV(reduced.value));
      }
    }

    /** `_handle_error_exceeded_maximum_walltime`: restart from this calculation. */
    method HandleErrorExceededMaximumWalltime(calculation: Attempt)
      modifies this
      ensures Snapshot() == old(Snapshot()).(restartCalc := Some(calculation))
    {
      restartCalc := Some(calculation);
    }

    /** `_handle_calculation_failure`; `unexpected` reports the `UnexpectedFailure` it raises. */
    method HandleCalculationFailure(calculation: Attempt) returns (unexpected: bool)
      modifies this
      ensures unexpected <==> ClassifyFailure(calculation.launch.parameters, calculation.completion.output) == Unexpected
      ensures unexpected ==> Snapshot() == old(Snapshot())
      ensures !unexpected ==> Snapshot() == AfterCalculationFailure(old(Snapshot()), calculation)
    {
      var action := ClassifyFailure(calculation.launch.parameters, calculation.completion.output);
      unexpected := false;
      match action
      case AbortInvalidInput => HandleFatalErrorReadNamelists(calculation);
      case SwitchDiagonalization => HandleErrorDiagonalization();
      case Unexpected => unexpected := true;
      case ReduceMaxSeconds => HandleErrorPrematureTermination(calculation);
      case RestartFromCalculation => HandleErrorExceededMaximumWalltime(calculation);
    }

    /** `inspect_pw`. */
    method InspectPw()
      modifies this
      ensures Snapshot() == Inspected(old(Snapshot()))
    {
      if calculations == [] {
        status := Aborted(NoCalculation);
        return;
      }
      var calculation := calculations[|calculations| - 1];
      if calculation.completion.finishedOk {
        restartCalc := Some(calculation);
        isFinished := true;
      } else if iteration >= maxIterations {
        status := Aborted(MaxIterationsReached(calculation.launch.pk));
      } else if calculation.completion.state.OtherState? {
        status := Aborted(UnexpectedState(calculation.launch.pk));
      } else if calculation.completion.state == SubmissionFailed {
        HandleSubmissionFailure(calculation);
        submissionFailure := true;
      } else {
        submissionFailure := false;
        if calculation.completion.state == Failed {
          var unexpected := HandleCalculationFailure(calculation);
          if unexpected {
            HandleUnexpectedFailure(calculation);
            unexpectedFailure := true;
          }
        } else {
          unexpectedFailure := false;
          restartCalc := Some(calculation);
        }
      }
    }

    /** `run_results`. */
    method RunResults()
      modifies this
      ensures Snapshot() == WithResults(old(Snapshot()))
    {
      if restartCalc.None? {
        status := Excepted(MissingKey("restart_calc"));
      } else if restartCalc.value.completion.output.None? {
        status := Excepted(MissingKey("output_parameters"));
      } else {
        var calculation := restartCalc.value;
        outputs := Some(ChainOutputs(calculation.launch.pk, calculation.completion.output.value, calculation.completion.hasOutputStructure));
      }
    }

    /** `run_clean`: when `clean_workdir` is set, try to release every calculation's remote
        folder; a failing release is swallowed and the loop goes on. */
    method RunClean() returns (attempted: seq<nat>, released: seq<nat>)
      ensures !inputs.cleanWorkdir ==> attempted == [] && released == []
      ensures inputs.cleanWorkdir ==>
                |attempted| == |calculations| &&
                (forall i :: 0 <= i < |calculations| ==> attempted[i] == calculations[i].launch.pk) &&
                released == Released(calculations)
    {
      attempted, released := [], [];
      if !inputs.cleanWorkdir {
        return;
      }
      var i := 0;
      while i < |calculations|
        invariant 0 <= i <= |calculations|
        invariant |attempted| == i
        invariant forall j :: 0 <= j < i ==> attempted[j] == calculations[j].launch.pk
        invariant released == Released(calculations[..i])
      {
        var calculation := calculations[i];
        attempted := attempted + [calculation.launch.pk];
        if calculation.completion.releasable {
          released := released + [calculation.launch.pk];
        }
        assert calculations[..i + 1][..i] == calculations[..i];
        i := i + 1;
      }
      assert calculations[..i] == calculations;
    }

    /** The outline after `setup`: validate, loop, then `run_results` and `run_clean`. */
    method Execute(run: Runner) returns (released: seq<nat>)
      modifies this
      ensures Snapshot() == Completed(old(Snapshot()), inputs, run)
      ensures released == if status.Running? && inputs.cleanWorkdir then Released(calculations) else []
    {
      released := [];
      if status.Running? {
        ValidatePseudoPotentials();
      }
      ghost var start := Snapshot();
      var more := ShouldRunPw();
      while status.Running? && more
        invariant more == ShouldRun(Snapshot())
        invariant Drive(Snapshot(), inputs.parentFolder, run) == Drive(start, inputs.parentFolder, run)
        decreases Budget(Snapshot())
      {
        RunPw(run);
        InspectPw();
        more := ShouldRunPw();
      }
      if status.Running? {
        RunResults();
        if status.Running? {
          var attempted;
          attempted, released := RunClean();
        }
      }
    }
  }
}
