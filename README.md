# PwBaseWorkChain and the pw.x XML decoder, in Dafny

This project models two parts of aiida-quantumespresso.

**The restart controller `PwBaseWorkChain`** (`aiida_quantumespresso/workflows/pw/base.py`) launches
Quantum ESPRESSO `pw.x` calculations one after another. After each one it inspects the result and
does one of three things:
- stops when a calculation finished ok;
- aborts on an unrecoverable state;
- adjusts the input parameters and tries again, up to `max_iterations` attempts.

**The decoder `parse_pw_xml_post_6_2`** (`aiida_quantumespresso/parsers/parse_xml/pw/parse.py`)
turns the XML file that `pw.x` (version 6.2 and later) writes into the dictionaries the plugin stores.

The project has five files:

| file | contents |
|---|---|
| `wrappers.dfy` | `Option`, `Result` and `Outcome`, standing in for Python's `None`, missing keys and exceptions |
| `strings.dfy` | Python's substring test `sub in s`, proved equal to "occurs at some position", and ASCII `lower()` |
| `pw_base.dfy` | the workchain |
| `pw_trace.dfy` | properties of whole runs of the workchain |
| `pw_xml.dfy` | the decoder |

How `pw_base.dfy` models the workchain:
- The workchain is the class `PwBaseWorkChain`. Its fields are the context variables. One method per outline step updates them in place, and `Execute` is the `while` driver of the outline.
- Every method is proved equal to a pure step function on a snapshot of the fields. `Initial`, `ValidatedPseudos`, `Launched`, `Inspected` and `WithResults` are steps; `Drive` is the loop and `Completed` is the whole outline.
- A calculation is an `Attempt`: what was launched (`pk`, parameters, parent folder) plus its `Completion` (state, `finished_ok`, output parameters with `warnings` and `parser_warnings`).
- The calculation engine is a parameter `run: Launch -> Completion`.
- `abort_nowait` becomes the status `Aborted(reason)`. An exception the workchain does not catch becomes `Excepted(crash)`.

How `pw_xml.dfy` models the decoder:
- The decoded XML dictionary is a typed record, `PwXmlDocument`.
- `Decode` gives either the decoded values or the error that stops decoding.
- The loops of the source (species, symmetries, the two band loops) are methods, each proved equal to the function that specifies it.
- `ParsePwXml` takes the steps in the order of the source: first the header values (occupations and the smearing log, magnetisation, spin constraint and spin settings), then the symmetry loop, the band counts and the band arrays. It is proved equal to `Decode`. It reports whether the missing-smearing error was logged for every document, including one that fails later.

Where the code and the design description of the workchain differ, the model follows the code, with the two exceptions listed under "## Findings":
- `unexpected_failure` is cleared only by a calculation that is FINISHED but not ok (base.py:204). A successful calculation ends the loop without clearing it.
- A submission failure does not reset `restart_calc`.
- `run_pw` copies `ctx.inputs` with `dict(...)`, which is shallow. So the `restart_mode` it writes stays in the context parameters, and later attempts inherit it unless they overwrite it.

The two exceptions are `validate_pseudo_potentials` at base.py:93 and `_handle_error_diagonalization` at base.py:334-335, whose code as written always raises. The class, the step functions and every lemma about whole runs use the corrected reading:
- `ValidatePseudoPotentials`, `ValidatedPseudos`, `Execute` and `Completed` validate explicit pseudopotentials without a family.
- `HandleErrorDiagonalization`, `AfterCalculationFailure`, `InspectPw` and `Inspected` switch the scheme to `cg`.

The code as written exists only as `ValidatedPseudosAsWritten` and `DiagonalizationHandlerAsWritten`, with the lemmas that exhibit the difference.

The decoder is Python 2 code:
- `number_of_bands` is `nbnd/2`, which is integer division; for a positive divisor Dafny's `/` agrees with Python 2's floor division.
- The `keys()` lists are concatenated with `+`.
- numpy turns a ragged nested list into an array of Python lists. Multiplying such an array by a float raises `TypeError`.

## Model

| member | source | states |
|---|---|---|
| `PwBase.PwBaseWorkChain.Setup` | aiida_quantumespresso/workflows/pw/base.py:54-85 | The new workchain's fields are `Initial(inputs)`. |
| `PwBase.Initial` | aiida_quantumespresso/workflows/pw/base.py:58-83 | `iteration` is 0, no flag is set, no `restart_calc`, no calculations. The workchain keeps running exactly when `max_wallclock_seconds` is a number and `CONTROL` exists; it then sets `CONTROL.max_seconds` to `int(0.95 * max_wallclock_seconds)` and changes no other key. Otherwise it stops with an uncaught error. |
| `PwBase.TruncateTowardZero` | aiida_quantumespresso/workflows/pw/base.py:83 | Python `int()` on a real: the result lies within 1 of x, on the side toward zero. |
| `PwBase.Reduce95` | aiida_quantumespresso/workflows/pw/base.py:83 | For x >= 0, `int(0.95 * x)` is at most x, and strictly below x when x > 0. For negative x it lies between x and 0. For x >= 0 it is within 1 below 95% of x. |
| `PwBase.SetKeyLookup` | aiida_quantumespresso/workflows/pw/base.py:132 | Writing one key of a namelist sets that key and leaves every other key of every namelist as it was. |
| `PwBase.SelectedPseudos` | aiida_quantumespresso/workflows/pw/base.py:95-106 | No pseudopotentials are selected exactly when neither `pseudos` nor `pseudo_family` is given. Explicit `pseudos` win over the family. With only a family, the family's pseudopotentials are selected. |
| `PwBase.PseudoProblemIffUncovered` | aiida_quantumespresso/workflows/pw/base.py:108-112 | The kind check finds no problem exactly when every kind has a pseudopotential of UPF type. A problem names a kind that is missing, or one whose entry is not UPF. |
| `PwBase.ValidatedPseudos` | aiida_quantumespresso/workflows/pw/base.py:87-112 | Aborts with "no pseudos" when neither input is given. A running workchain stays running exactly when a selection exists and covers every kind with UPF data. The status can only change to an abort, and nothing but the status and the pseudos changes. |
| `PwBase.PwBaseWorkChain.ValidatePseudoPotentials` | aiida_quantumespresso/workflows/pw/base.py:87-112 | The loop over kinds leaves the fields equal to `ValidatedPseudos` of the old fields. |
| `PwBase.ValidatedPseudosAsWritten` | aiida_quantumespresso/workflows/pw/base.py:92-93 | As written: without `pseudo_family` the method raises before any check. With a family it behaves like `ValidatedPseudos`. |
| `PwBase.ExplicitPseudosWithoutFamily` | aiida_quantumespresso/workflows/pw/base.py:93-103 | With valid explicit `pseudos` and no family, the intended validation passes but the code as written crashes. |
| `PwBase.PwBaseWorkChain.ShouldRunPw` | aiida_quantumespresso/workflows/pw/base.py:114-120 | The loop continues exactly when the workchain is not finished and `iteration < max_iterations`. |
| `PwBase.LaunchedAttempt` | aiida_quantumespresso/workflows/pw/base.py:122-148 | A launch adds 1 to `iteration` and appends one attempt numbered with the new iteration. The attempt's completion is the runner's answer to it. The parent folder is chosen in order: the supplied parent on iteration 1, else `restart_calc`'s remote folder, else none. `restart_mode` is `from_scratch` exactly when there is no parent, and `restart` otherwise. |
| `PwBase.LaunchedKeepsOtherKeys` | aiida_quantumespresso/workflows/pw/base.py:129-138 | A launch changes no parameter except `CONTROL.restart_mode`. |
| `PwBase.PwBaseWorkChain.RunPw` | aiida_quantumespresso/workflows/pw/base.py:122-148 | The fields after `run_pw` are `Launched` of the old fields. |
| `PwBase.ClassifyFailureOutcomes` | aiida_quantumespresso/workflows/pw/base.py:282-320 | Missing output or missing warning lists make the failure unexpected. An invalid-input abort happens exactly when a warning mentions `read_namelists`. Switching the scheme requires `david`. Reducing `max_seconds` requires the premature-termination parser warning. A restart requires the CPU-time warning, and neither of these two follows a `%%%` or `Error` warning. |
| `PwBase.FailureRulesInOrder` | aiida_quantumespresso/workflows/pw/base.py:294-320 | The table of seven failure rules (the last always matches), tried in priority order, gives the action of the first rule that matches. |
| `PwBase.ClassifyFollowsRuleTable` | aiida_quantumespresso/workflows/pw/base.py:282-320 | The if/elif chain of the handler picks the same action as the first matching rule of the table. |
| `PwBase.FirstMatchCons` | aiida_quantumespresso/workflows/pw/base.py:294-320 | A rule list answers with its first rule's action when that rule matches, otherwise with the rest of the list. |
| `PwBase.FirstMatchOfSeven` | aiida_quantumespresso/workflows/pw/base.py:294-320 | For a seven-rule list, the answer is the action of the earliest matching rule. |
| `PwBase.FirstMatchIsLeast` | aiida_quantumespresso/workflows/pw/base.py:294-320 | First-match as a search: the answer is the action of the lowest-numbered rule whose condition holds, and unexpected when none holds. |
| `PwBase.WithDiagonalizationCg` | aiida_quantumespresso/workflows/pw/base.py:333-334 | Corrected handler: `ELECTRONS.diagonalization` becomes `cg`, so the default scheme no longer applies. Every other key is unchanged. |
| `PwBase.DiagonalizationHandlerNeverRetriesAsWritten` | aiida_quantumespresso/workflows/pw/base.py:334-335 | As written, the handler always ends in an exception, while the corrected update yields scheme `cg`. |
| `PwBase.PwBaseWorkChain.HandleErrorDiagonalization` | aiida_quantumespresso/workflows/pw/base.py:329-336 | The corrected handler (see Findings): only the parameters change, and they become `WithDiagonalizationCg` of the old ones. |
| `PwBase.ReducedMaxSeconds` | aiida_quantumespresso/workflows/pw/base.py:343-347 | The lookup of the attempt's `CONTROL.max_seconds` is evaluated eagerly, so a missing one raises `KeyError` even when settings hold the value. The settings value is preferred. The result is `int(0.95 * limit)` exactly when the limit is a number, and it is a fixed point only at 0. |
| `PwBase.PwBaseWorkChain.HandleErrorPrematureTermination` | aiida_quantumespresso/workflows/pw/base.py:338-349 | Either only `CONTROL.max_seconds` changes, to the reduced value, or the workchain excepts with the lookup error. |
| `PwBase.PwBaseWorkChain.HandleErrorExceededMaximumWalltime` | aiida_quantumespresso/workflows/pw/base.py:351-357 | Only `restart_calc` changes; it becomes this calculation. |
| `PwBase.PwBaseWorkChain.HandleFatalErrorReadNamelists` | aiida_quantumespresso/workflows/pw/base.py:322-327 | Only the status changes; it becomes an invalid-input abort naming the calculation. |
| `PwBase.AfterSubmissionFailure` | aiida_quantumespresso/workflows/pw/base.py:181-183 | The flag is set afterwards. A second consecutive submission failure aborts, and nothing else changes. |
| `PwBase.PwBaseWorkChain.HandleSubmissionFailure` | aiida_quantumespresso/workflows/pw/base.py:238-249 | Aborts exactly when the flag was already set; otherwise nothing changes. |
| `PwBase.AfterUnexpectedFailure` | aiida_quantumespresso/workflows/pw/base.py:198-200 | The flag is set afterwards. A second consecutive unexpected failure aborts, and nothing else changes. |
| `PwBase.PwBaseWorkChain.HandleUnexpectedFailure` | aiida_quantumespresso/workflows/pw/base.py:251-265 | Aborts exactly when the flag was already set; otherwise nothing changes. |
| `PwBase.AfterCalculationFailure` | aiida_quantumespresso/workflows/pw/base.py:276-320 | A handled failure changes at most `ELECTRONS.diagonalization` and `CONTROL.max_seconds`, the status, `unexpected_failure` and `restart_calc`. `restart_calc` can only become this calculation. |
| `PwBase.CalculationFailureActions` | aiida_quantumespresso/workflows/pw/base.py:276-357 | Each classified action has its handler's effect, and nothing else:<br>- invalid input: abort naming the calculation;<br>- diagonalization: the parameters switched to `cg`;<br>- unexpected: `_handle_unexpected_failure`;<br>- premature termination: `CONTROL.max_seconds` set to the reduced value, or the error reading it;<br>- exceeded walltime: `restart_calc` becomes the calculation. |
| `PwBase.PwBaseWorkChain.HandleCalculationFailure` | aiida_quantumespresso/workflows/pw/base.py:276-320 | Reports an unexpected failure exactly when the classifier says so, and then leaves the fields untouched. Otherwise the fields become `AfterCalculationFailure`. |
| `PwBase.Inspected` | aiida_quantumespresso/workflows/pw/base.py:150-208 | Inspection changes only the two flags, `is_finished`, `restart_calc`, the parameters and the status. What each case does is stated by `InspectedDecision` and `InspectedUnconverged`. |
| `PwBase.InspectedDecision` | aiida_quantumespresso/workflows/pw/base.py:156-189 | The first matching case wins:<br>- no calculation: abort;<br>- finished ok: finished, with `restart_calc` set to the calculation;<br>- otherwise, `iteration >= max_iterations`: max-iterations abort;<br>- otherwise, a state outside FINISHED/FAILED/SUBMISSIONFAILED: abort.<br>`is_finished` changes only on a finished-ok calculation. For the expected states, `submission_failure` ends up set exactly after a submission failure. |
| `PwBase.InspectedUnconverged` | aiida_quantumespresso/workflows/pw/base.py:191-207 | A calculation that finished without converging clears both flags, becomes `restart_calc`, and changes neither status nor parameters. A failed one clears the submission flag and goes through `_handle_calculation_failure`. |
| `PwBase.InspectChangesOnlyTwoKeys` | aiida_quantumespresso/workflows/pw/base.py:150-208 | Inspection changes no parameter other than `ELECTRONS.diagonalization` and `CONTROL.max_seconds`. |
| `PwBase.PwBaseWorkChain.InspectPw` | aiida_quantumespresso/workflows/pw/base.py:150-208 | The fields after `inspect_pw` are `Inspected` of the old fields. |
| `PwBase.Drive` | aiida_quantumespresso/workflows/pw/base.py:45-48 | The loop never changes `max_iterations` and never lowers `iteration`. |
| `PwBase.WithResults` | aiida_quantumespresso/workflows/pw/base.py:210-220 | A running workchain reports the output parameters and structure flag of `restart_calc`. It fails with a missing-attribute error when `restart_calc` or its output is absent. Only the status and outputs change. |
| `PwBase.PwBaseWorkChain.RunResults` | aiida_quantumespresso/workflows/pw/base.py:210-220 | The fields after `run_results` are `WithResults` of the old fields. |
| `PwBase.ReleasedExactlyReleasable` | aiida_quantumespresso/workflows/pw/base.py:231-236 | A folder is cleaned exactly when some calculation's folder can be released; a failing release does not stop the others. |
| `PwBase.PwBaseWorkChain.RunClean` | aiida_quantumespresso/workflows/pw/base.py:222-236 | Nothing is attempted unless `clean_workdir` is set. Otherwise every calculation is attempted in order, and the released folders are `Released(calculations)`. |
| `PwBase.PwBaseWorkChain.Execute` | aiida_quantumespresso/workflows/pw/base.py:42-51 | After `Setup`, running the outline (validation, loop, results) leaves the fields equal to `Completed`. Cleaning happens only when the run did not abort. |
| `PwTrace.PendingUnexpectedSnoc` | aiida_quantumespresso/workflows/pw/base.py:195-205 | An unexpected failure is pending after an attempt: set by an unexpected failure, cleared by FINISHED-not-ok, else unchanged. |
| `PwTrace.InitialConsistent` | aiida_quantumespresso/workflows/pw/base.py:54-112 | The state after setup and validation satisfies the run invariant. |
| `PwTrace.StepOutline` | aiida_quantumespresso/workflows/pw/base.py:122-208 | One launch-and-inspect pass appends one attempt and keeps the earlier ones. |
| `PwTrace.StepSubmission` | aiida_quantumespresso/workflows/pw/base.py:181-183 | Pass effect of a submission failure. |
| `PwTrace.StepFinished` | aiida_quantumespresso/workflows/pw/base.py:202-205 | After a FINISHED-not-ok attempt within budget, both flags are clear, the status is unchanged, and the attempt is `restart_calc`. |
| `PwTrace.StepFailed` | aiida_quantumespresso/workflows/pw/base.py:195-200 | After a FAILED attempt within budget, the submission flag is clear. An unexpected failure sets the flag and aborts if one was pending; otherwise the flag is unchanged. |
| `PwTrace.HandlerActionEffects` | aiida_quantumespresso/workflows/pw/base.py:276-357 | The handler's effect per classified action, as seen in the status, the two parameter keys and `restart_calc`. Only the walltime restart moves `restart_calc`. |
| `PwTrace.FailedActionsOfInspected` | aiida_quantumespresso/workflows/pw/base.py:191-200 | `inspect_pw` on a failed attempt within budget has the effect of its classified action. |
| `PwTrace.StepFailedActions` | aiida_quantumespresso/workflows/pw/base.py:195-200 | One pass whose attempt failed has the effect of its classified action. |
| `PwTrace.StepEffect` | aiida_quantumespresso/workflows/pw/base.py:122-208 | One pass has all the effects above: outline, submission, finished and failed attempts, and the failure actions. |
| `PwTrace.PassKeepsSubmissionRule` | aiida_quantumespresso/workflows/pw/base.py:181-189 | After a pass, two consecutive submission failures occur only as the last two attempts of a run that then stops, and the flag is set exactly when the last attempt failed to submit. |
| `PwTrace.PassKeepsUnexpectedRule` | aiida_quantumespresso/workflows/pw/base.py:195-205 | After a pass, an unexpected failure while another is pending occurs only as the last attempt of a run that then stops. |
| `PwTrace.PassKeepsUnexpectedFlag` | aiida_quantumespresso/workflows/pw/base.py:195-205 | After a pass that leaves the workchain running and unfinished, the flag is set exactly when an unexpected failure is pending. |
| `PwTrace.StepConsistent` | aiida_quantumespresso/workflows/pw/base.py:122-208 | One pass preserves the run invariant. |
| `PwTrace.DriveConsistent` | aiida_quantumespresso/workflows/pw/base.py:45-48 | The whole loop preserves the run invariant. |
| `PwTrace.DriveOutcome` | aiida_quantumespresso/workflows/pw/base.py:114-120 | A loop that ends still running has a false guard. It runs at most `max_iterations` attempts. It ends running but unfinished only when it never started. |
| `PwTrace.RunRespectsFailureRules` | aiida_quantumespresso/workflows/pw/base.py:42-51 | Over a whole run:<br>- no two consecutive submission failures, and no repeated unexpected failure, except the one that stops it;<br>- one attempt per iteration;<br>- a finished run's `restart_calc` is its last, successful attempt;<br>- a run that is still running has finished, or was allowed no attempts. |
| `PwTrace.NextAttemptRestartsFromLast` | aiida_quantumespresso/workflows/pw/base.py:126-205 | After a pass whose attempt finished without converging, or failed on the walltime, the next launch restarts from that attempt's remote folder in `restart` mode. |
| `PwTrace.AlwaysFailingSubmissionAbortsOnSecond` | aiida_quantumespresso/workflows/pw/base.py:238-249 | If every submission fails, the run aborts on the second attempt. |
| `PwTrace.DiagonalizationWarningClassified` | aiida_quantumespresso/workflows/pw/base.py:297-304 | A lone diagonalization warning under the default scheme is classified as "switch to cg". |
| `PwTrace.FirstAttemptSwitchesScheme` | aiida_quantumespresso/workflows/pw/base.py:297-304 | With the corrected handler, such a failure leaves the workchain running with `cg` set for the next attempt. |
| `PwTrace.CgAttemptConverges` | aiida_quantumespresso/workflows/pw/base.py:164-168 | An attempt that converges under `cg` finishes the workchain. |
| `PwTrace.DiagonalizationSwitchConverges` | aiida_quantumespresso/workflows/pw/base.py:297-336 | With the corrected handler, a calculation that fails only under `david` finishes in two attempts, the second one with `cg`. |
| `PwXml.ParserAssert` | aiida_quantumespresso/parsers/parse_xml/pw/parse.py:14-18 | Passes exactly when the condition holds; otherwise it raises with the given message. |
| `PwXml.ParserAssertEqual` | aiida_quantumespresso/parsers/parse_xml/pw/parse.py:20-26 | Passes exactly when the values are equal; otherwise it raises carrying both values and the message. |
| `PwXml.CellVolume` | aiida_quantumespresso/parsers/parse_xml/pw/parse.py:28-34 | The volume is never negative. |
| `PwXml.CellVolumeIsAbsDeterminant` | aiida_quantumespresso/parsers/parse_xml/pw/parse.py:28-34 | The volume is the absolute determinant of the three vectors. |
| `PwXml.CellVolumeSymmetric` | aiida_quantumespresso/parsers/parse_xml/pw/parse.py:28-34 | The volume does not depend on the order of the vectors. |
| `PwXml.CellVolumeOfRepeatedVector` | aiida_quantumespresso/parsers/parse_xml/pw/parse.py:28-34 | The volume is zero when two vectors coincide. |
| `PwXml.CellVolumeScales` | aiida_quantumespresso/parsers/parse_xml/pw/parse.py:28-34 | Scaling one vector by k scales the volume by abs(k). |
| `PwXml.OccupationFlagsExclusive` | aiida_quantumespresso/parsers/parse_xml/pw/parse.py:107-120 | Exactly one of fixed occupations and smearing is set. Tetrahedra imply smearing, because `from_input` does not contain `tetrahedra`. |
| `PwXml.SmearingMissingLogged` | aiida_quantumespresso/parsers/parse_xml/pw/parse.py:122-125 | The missing-smearing error is logged exactly when the older keys are requested, smearing is on and neither section has `smearing`. |
| `PwXml.MagnetizationColumn` | aiida_quantumespresso/parsers/parse_xml/pw/parse.py:160-163 | There is one entry per species: its value when present, else 0.0. |
| `PwXml.SpeciesMagnetization` | aiida_quantumespresso/parsers/parse_xml/pw/parse.py:156-163 | The loop over species builds the three magnetisation lists of `MagnetizationColumn`. |
| `PwXml.ConstraintMag` | aiida_quantumespresso/parsers/parse_xml/pw/parse.py:165-177 | The code is one of 0, 1, 2, 3, 6, and it is 0 when no constraint is given. |
| `PwXml.ConstraintMagRoundTrip` | aiida_quantumespresso/parsers/parse_xml/pw/parse.py:165-177 | Code and name are inverse: each known name maps to its code and back, and any non-zero code comes from exactly that name. |
| `PwXml.TimeReversal` | aiida_quantumespresso/parsers/parse_xml/pw/parse.py:185-188 | Time reversal is broken exactly for a non-collinear magnetic calculation. |
| `PwXml.SpinComponents` | aiida_quantumespresso/parsers/parse_xml/pw/parse.py:191-196 | `nspin` is one of 1, 2, 4. It is 4 exactly when the calculation is non-collinear or spin-orbit, and 1 exactly when it is none of these and not LSDA. |
| `PwXml.BrokenTimeReversalHasFourComponents` | aiida_quantumespresso/parsers/parse_xml/pw/parse.py:185-196 | Without time reversal there are always four spin components. |
| `PwXml.SliceIndex` | aiida_quantumespresso/parsers/parse_xml/pw/parse.py:218-220 | A Python slice bound, clamped into the sequence. |
| `PwXml.PySlice` | aiida_quantumespresso/parsers/parse_xml/pw/parse.py:280-283 | Python slicing agrees with the plain subsequence for in-range bounds and is never longer than the list. |
| `PwXml.RotationRowsRoundTrip` | aiida_quantumespresso/parsers/parse_xml/pw/parse.py:216-221 | The three rows, concatenated, are the first nine entries of the flat rotation. Nine entries give the 3x3 matrix with `rows[i][j] == flat[3i+j]`. |
| `PwXml.SymmetriesOfKindSnoc` | aiida_quantumespresso/parsers/parse_xml/pw/parse.py:236-239 | Filtering one more symmetry appends it exactly when it has the kind. |
| `PwXml.ClassifiedSymmetriesMeaning` | aiida_quantumespresso/parsers/parse_xml/pw/parse.py:198-241 | Decoding accepts exactly the documents in which every symmetry is a crystal or a lattice one. It keeps each kind in document order, and the inversion flag is set exactly when some crystal symmetry is named `inversion` in any case. |
| `PwXml.ClassifiedSymmetriesRejects` | aiida_quantumespresso/parsers/parse_xml/pw/parse.py:236-241 | A rejection names the type of the first symmetry of any other kind. |
| `PwXml.ClassifiedFailurePersists` | aiida_quantumespresso/parsers/parse_xml/pw/parse.py:240-241 | Once the loop has raised, later symmetries do not change the error. |
| `PwXml.ClassifySymmetries` | aiida_quantumespresso/parsers/parse_xml/pw/parse.py:198-241 | The loop over `symmetry` elements computes `ClassifiedSymmetries`. |
| `PwXml.SpinCase` | aiida_quantumespresso/parsers/parse_xml/pw/parse.py:248-258 | The spin case:<br>- both counts absent: not polarised;<br>- both present and adding up to `nbnd`: polarised;<br>- exactly one present: the "only one" error, checked first;<br>- both present but inconsistent: the error carrying the three counts. |
| `PwXml.Channels` | aiida_quantumespresso/parsers/parse_xml/pw/parse.py:269-283 | There are one or two channels, each with one row per k-point. |
| `PwXml.UnpolarisedChannels` | aiida_quantumespresso/parsers/parse_xml/pw/parse.py:269-275 | Without spin, there is one channel holding the vectors unchanged. |
| `PwXml.SplitUnpolarised` | aiida_quantumespresso/parsers/parse_xml/pw/parse.py:271-275 | The non-spin loop puts each k-point's full vectors, in order, into the single channel. |
| `PwXml.SplitPolarised` | aiida_quantumespresso/parsers/parse_xml/pw/parse.py:277-283 | The spin loop cuts each vector into `[0:nbnd_up]` and `[nbnd_up:nbnd]`. |
| `PwXml.SplitBands` | aiida_quantumespresso/parsers/parse_xml/pw/parse.py:269-283 | The band lists handed to numpy are `Channels` of the document's vectors. |
| `PwXml.NumpyShapeThreeD` | aiida_quantumespresso/parsers/parse_xml/pw/parse.py:285-297 | numpy reports a shape `(c, k, b)` exactly for a non-empty rectangular c x k x b block, and such an array is numeric. |
| `PwXml.BuildBands` | aiida_quantumespresso/parsers/parse_xml/pw/parse.py:269-297 | Building and checking the band arrays computes `CheckedBands`. |
| `PwXml.DecodeHeader` | aiida_quantumespresso/parsers/parse_xml/pw/parse.py:99-196 | The occupation flags, smearing log, magnetisation lists, spin constraint and spin settings worked out before the symmetry loop are those of `HeaderOf`. |
| `PwXml.ParsePwXml` | aiida_quantumespresso/parsers/parse_xml/pw/parse.py:41-417 | The decoder, run in the order of the source, computes `Decode`. It logs the missing-smearing error exactly when the older keys are requested, smearing is on and no smearing is given, whether or not decoding then fails. |
| `PwXml.DecodedBandsShape` | aiida_quantumespresso/parsers/parse_xml/pw/parse.py:288-297 | Decoding succeeds only when there are `nks > 0` k-points and both arrays have shape `(1, nks, nbnd)`, or `(2, nks, nbnd_up)` when spin-polarised. |
| `PwXml.UnpolarisedBandsVerbatim` | aiida_quantumespresso/parsers/parse_xml/pw/parse.py:269-275 | Without spin, the bands are the document's vectors in one channel and `number_of_bands` is `nbnd`. |
| `PwXml.PySliceSplit` | aiida_quantumespresso/parsers/parse_xml/pw/parse.py:280-281 | Two adjacent slices make up the slice that spans both. |
| `PwXml.PolarisedBandsHalves` | aiida_quantumespresso/parsers/parse_xml/pw/parse.py:277-297 | With complete vectors, spin decoding succeeds only when `nbnd_up == nbnd_dw`. `number_of_bands` (`nbnd/2`) is then `nbnd_up`, and the two channels of each k-point put back together give its vector. |
| `PwXml.UnequalSpinCountsRejected` | aiida_quantumespresso/parsers/parse_xml/pw/parse.py:277-285 | With complete vectors and `nbnd_up != nbnd_dw`, the channels are ragged and numpy's scaling raises. |
| `PwXml.ChannelsOfCompleteVectors` | aiida_quantumespresso/parsers/parse_xml/pw/parse.py:269-283 | Complete vectors, split evenly when polarised, form a rectangular block. |
| `PwXml.WellFormedBandsAccepted` | aiida_quantumespresso/parsers/parse_xml/pw/parse.py:236-297 | Known symmetry kinds, consistent and equal spin counts, and `nks` complete k-points are always accepted. |
| `PwXml.UnknownSymmetryReportedFirst` | aiida_quantumespresso/parsers/parse_xml/pw/parse.py:236-258 | The first unknown symmetry type is reported whatever the band data hold. |
| `PwXml.InconsistentBandCountReported` | aiida_quantumespresso/parsers/parse_xml/pw/parse.py:256-257 | `nbnd=10`, `nbnd_up=6`, `nbnd_dw=3` fails with the inconsistent-count error carrying 10, 6 and 3. |
| `Strings.ContainsIffOccurs` | aiida_quantumespresso/workflows/pw/base.py:294 | Python's `sub in s` holds exactly when `sub` occurs at some position of `s`. |
| `Strings.MissingCharNotContained` | aiida_quantumespresso/parsers/parse_xml/pw/parse.py:112 | A string lacking one of the characters of `sub` does not contain `sub`. |
| `Strings.Lower` | aiida_quantumespresso/parsers/parse_xml/pw/parse.py:213 | Lower-casing keeps the length and lower-cases each character. |

## Left out

- Interaction with AiiDA's engine is left out: `submit`, `ToContext`/`append_`, the process lifecycle and `report` messages. The calculation is the `run` parameter, and a launch is an appended `Attempt`.
- `get_pseudos_from_structure` (a database query) is left out; the family's pseudopotentials are an input map.
- `ValidatedPseudos` keeps only the first abort reason when several kinds fail, where the source calls `abort_nowait` once per failing kind.
- The text of the messages passed to `abort_nowait`, `report` and the parsing errors is not modelled. Errors carry structured values instead of the formatted strings.
- `_handle_calculation_sanity_checks` is left out: it returns at once and does nothing.
- `Reduce95` and `PwBase.Initial` compute `int(0.95 * x)` over exact reals. Floating-point rounding of the product is not modelled.
- `RunClean` does not model what `remote_folder._clean()` does, only which calls succeed. The exception it swallows is whether the attempt's folder can be released.
- The workchain's `define` (input ports, defaults and types) is left out; the inputs are a typed record.
- XML and XSD loading are left out: `ElementTree.parse`, `xmlschema`, `to_dict` and the schema-file fallback. The document is the typed record `PwXmlDocument`.
- The printing of the whole dictionary at parse.py:75 is left out.
- Unit conversions are left out (`hartree_to_ev`, `bohr_to_ang`, and the `2*pi/alat` scaling of k-points). Eigenvalues stay in Hartree, the cell vectors and volume in the document's units, and k-point coordinates and weights are not decoded.
- The many `xml_data` and `structure_data` entries that are plain copies of document keys are left out (grids, cut-offs, format and creator, atoms and species). Reading a required key that is absent, which raises `KeyError`, is not modelled either.
- `Strings.Lower` folds only ASCII letters, where Python's `lower()` also folds other Unicode letters.
- `PwXml.CellVolume` computes the triple product over exact reals, where the source uses `float`. `CellVolumeSymmetric`, `CellVolumeOfRepeatedVector` and `CellVolumeScales` hold for reals but not in general under IEEE rounding.
- `PwBase.Launched` and `PwBase.WithResults` read `restart_calc`'s `remote_folder` and `retrieved` outputs as always present. In the source, an absent output raises `AttributeError` (base.py:136, 216-217). `WithResults` models only a missing `restart_calc` or missing `output_parameters`.
- `PwXmlDocument.occupations` is the occupations string. The fallback that reads the element without its `$` attribute after a `TypeError` (parse.py:99-102) is not modelled.
- The shape numpy gives an array is modelled only for lists nested three deep, as the decoder builds them. The numeric element type is not modelled.

## Findings

| source | as written | input that shows it | evidently intended | confidence | as-written member | corrected member |
|---|---|---|---|---|---|---|
| aiida_quantumespresso/workflows/pw/base.py:334-335 | The handler writes into `parameters['ELECTRONS']`, which raises `KeyError` when there is no `ELECTRONS` namelist. It then formats a message with two `{}` placeholders from one argument, which always raises `IndexError`, so the workchain stops instead of retrying. | Any FAILED calculation with a "eigenvalues not converged" warning under the default `david` scheme. | Set `ELECTRONS.diagonalization = 'cg'` and restart. | not executed | `PwBase.DiagonalizationHandlerNeverRetriesAsWritten` | `PwBase.WithDiagonalizationCg` |
| aiida_quantumespresso/workflows/pw/base.py:93 | `self.inputs.pseudo_family.value` is read before checking whether `pseudo_family` was given, so the missing input raises before validation. | Inputs with explicit `pseudos` covering every kind and no `pseudo_family`. | Use the explicit pseudopotentials, as lines 101-103 intend. | not executed | `PwBase.ExplicitPseudosWithoutFamily` | `PwBase.ValidatedPseudos` |
