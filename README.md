# Great Expectations maturity checklist and DLT `expect` decorator, in Dafny

This project models two small pieces of Great Expectations and proves what they promise.

**The maturity checklist of `ExpectationDiagnostics`** (module `MaturityChecklist`, file
`expectation_diagnostics.dfy`; records in `diagnostic_types.dfy`). It covers:

- counting the positive and negative example cases;
- counting the test diagnostics that did not pass;
- the pass flag of each checklist item: library metadata, docstring, example cases, the two
  execution-engine checks, input validation, renderers, linting, full test suite and manual
  review;
- rendering the checklist as text. Each check gets a line, passed ones marked with `✔`, and
  each sub-message gets an indented line beneath its check.

The counting loops and the renderer are methods with loops. The example-case and
unexpected-case counts and the rendered text are proved equal to recursive specification
functions. The engine count is proved equal to the size of a set comprehension: the engines
whose value is exactly `True`. The source's promises are proved about these specifications as
lemmas:

- the bounds on the counts;
- when a count is positive;
- the order of the maturity levels;
- the number of lines and check marks in the rendered text.

**The call-time logic of the Databricks Delta Live Tables (DLT) `expect` decorator** (module
`DltExpectations`, file `dlt_expectations.dfy`). It covers:

- which DLT library the wrapper uses;
- how it rejects an invalid choice between a DLT condition and a Great Expectations
  configuration;
- the order in which it calls its collaborators: build the other kind of expectation, run an
  optional checkpoint on the first positional argument, register with DLT, then call the
  wrapped function.

Collaborators whose code is not visible are function-valued parameters: the translators, the
expectation factory, the checkpoint runner, `dlt.expect` and the wrapped function. The
wrapper returns the value or the exception, together with a log of the calls it made in order.

Python values that the source compares with `is True` / `is False` are modelled as
`PyValue = True | False | Other`. Exceptions are `Result`/`Outcome` values (`wrappers.dfy`).

`_get_dlt_library` is modelled as the code behaves, not as its doc-comment says. The
doc-comment (`integrations/databricks/dlt_expectations.py:42-48`) says an already-loaded `dlt`
is preferred. But the function assigns `dlt` in its handler (line 53), which makes `dlt` a
local variable of the whole function. The probe at line 51 therefore always raises
`UnboundLocalError`, which is a `NameError`, so the injected `dlt_library` is always the one
used. `GetDltLibrary` takes the environment's `dlt` as a parameter, and its contract shows
that the result depends only on the injected library.

## Model

| member | source | states |
|---|---|---|
| `MaturityChecklist.Scanned` | great_expectations/core/expectation_diagnostics/expectation_diagnostics.py:186-195 | the tests of a group that get read are a prefix of the group; each has a "success" key; the scan stops only at the end or at a test without one |
| `MaturityChecklist.CountGroup` | great_expectations/core/expectation_diagnostics/expectation_diagnostics.py:187-195 | the loop over one group's tests counts exactly the read tests whose "success" is `True`, and separately those whose "success" is `False` |
| `MaturityChecklist.CountPositiveAndNegativeExampleCases` | great_expectations/core/expectation_diagnostics/expectation_diagnostics.py:183-216 | the positive and negative counts equal the per-group counts summed over all groups; a group abandoned at a missing "success" keeps what it counted |
| `MaturityChecklist.CountSuccessPartition` | great_expectations/core/expectation_diagnostics/expectation_diagnostics.py:189-192 | each test with a "success" key counts on exactly one side: `True`, `False`, or neither for any other value |
| `MaturityChecklist.CountSuccessBound` | great_expectations/core/expectation_diagnostics/expectation_diagnostics.py:189-192 | within one group, positive plus negative is at most the number of tests read |
| `MaturityChecklist.CasesBoundedByTests` | great_expectations/core/expectation_diagnostics/expectation_diagnostics.py:183-216 | positive plus negative never exceeds the total number of tests in all groups |
| `MaturityChecklist.CasesWithAppend` | great_expectations/core/expectation_diagnostics/expectation_diagnostics.py:186-195 | the counts of a concatenation of groups are the sums of the parts, so no group's failure affects another group's count |
| `MaturityChecklist.MissingSuccessEndsScan` | great_expectations/core/expectation_diagnostics/expectation_diagnostics.py:187-195 | a test without "success" ends its group: exactly the tests before it are read, and none after it |
| `MaturityChecklist.CompleteGroupFullyScanned` | great_expectations/core/expectation_diagnostics/expectation_diagnostics.py:188-192 | a group whose tests all have "success" is read in full |
| `MaturityChecklist.CountSuccessPositive` | great_expectations/core/expectation_diagnostics/expectation_diagnostics.py:189-192 | a group's count for a value is positive if and only if some read test carries exactly that value |
| `MaturityChecklist.CasesWithPositive` | great_expectations/core/expectation_diagnostics/expectation_diagnostics.py:183-216 | the positive (or negative) count is above zero if and only if some read test of some group has "success" exactly `True` (or `False`) |
| `MaturityChecklist.CountUnexpectedTestCases` | great_expectations/core/expectation_diagnostics/expectation_diagnostics.py:224-231 | the loop counts exactly the diagnostics whose `test_passed` is not exactly `True` |
| `MaturityChecklist.UnexpectedMeaning` | great_expectations/core/expectation_diagnostics/expectation_diagnostics.py:226-231 | the unexpected count lies between 0 and the number of diagnostics, and is 0 if and only if every `test_passed` is exactly `True` |
| `MaturityChecklist.CheckLibraryMetadata` | great_expectations/core/expectation_diagnostics/expectation_diagnostics.py:75-78 | the fixed message, no sub-messages, and passed exactly when the metadata's own checks passed |
| `MaturityChecklist.CheckDocstring` | great_expectations/core/expectation_diagnostics/expectation_diagnostics.py:86-107 | passes if and only if a short description is present and is none of "", "\n" and "TODO: Add a docstring here"; on failure there are no sub-messages; on success there is exactly one, and it passed |
| `MaturityChecklist.DocstringQuotesDescription` | great_expectations/core/expectation_diagnostics/expectation_diagnostics.py:92-101 | the one sub-message of a passing docstring check is the description wrapped in double quotes: two characters longer, a `"` at each end, the description in between |
| `MaturityChecklist.CheckExampleCases` | great_expectations/core/expectation_diagnostics/expectation_diagnostics.py:117-132 | passes if and only if positive > 0, negative > 0 and unexpected == 0; equivalently, some read case is `True`, some is `False`, and every test diagnostic passed |
| `MaturityChecklist.CountSuccessfulExecutionEngines` | great_expectations/core/expectation_diagnostics/expectation_diagnostics.py:142-145 | the loop visits each engine once and counts exactly the engines whose value is `True` |
| `MaturityChecklist.CheckCoreLogicForAtLeastOneExecutionEngine` | great_expectations/core/expectation_diagnostics/expectation_diagnostics.py:140-153 | passes if and only if some engine's value is exactly `True` |
| `MaturityChecklist.CheckCoreLogicForAllApplicableExecutionEngines` | great_expectations/core/expectation_diagnostics/expectation_diagnostics.py:162-175 | passes under exactly the same condition as the at-least-one check (some engine is exactly `True`), with its own message |
| `MaturityChecklist.CheckInputValidation` | great_expectations/core/expectation_diagnostics/expectation_diagnostics.py:269-288 | fails when there is no first example or no first test; otherwise passes if and only if validating the first test's input under the expectation type returns true, and it fails when validation raises |
| `MaturityChecklist.UpToUnderscore` | great_expectations/core/expectation_diagnostics/expectation_diagnostics.py:304 | the segment before the first `_`: a prefix of the text, free of `_`, and followed by `_` unless it is the whole text |
| `MaturityChecklist.CheckRendererMethods` | great_expectations/core/expectation_diagnostics/expectation_diagnostics.py:295-311 | passes if and only if each of diagnostic, prescriptive and descriptive is the type of some name that starts with `_` and ends with "renderer", and no such name has another type except "question" |
| `MaturityChecklist.RendererTypesExactly` | great_expectations/core/expectation_diagnostics/expectation_diagnostics.py:304-306 | the source's set equality (renderer types minus "question" equal the required three) holds exactly when the two quantified conditions of `RenderersComplete` hold |
| `MaturityChecklist.UpToUnderscoreStops` | great_expectations/core/expectation_diagnostics/expectation_diagnostics.py:304 | the segment up to the first `_` of `segment + "_" + rest` is `segment` when `segment` has no `_` |
| `MaturityChecklist.RendererTypeOfConventionalName` | great_expectations/core/expectation_diagnostics/expectation_diagnostics.py:299-304 | a name `_<kind>_renderer` counts as a renderer, and its type is `<kind>` |
| `MaturityChecklist.CheckLinting` | great_expectations/core/expectation_diagnostics/expectation_diagnostics.py:317-320 | always passes, with the fixed message and no sub-messages |
| `MaturityChecklist.CheckFullTestSuite` | great_expectations/core/expectation_diagnostics/expectation_diagnostics.py:327-330 | passed exactly when the metadata says there is a full test suite |
| `MaturityChecklist.CheckManualCodeReview` | great_expectations/core/expectation_diagnostics/expectation_diagnostics.py:337-340 | passed exactly when the metadata says the code was manually reviewed |
| `MaturityChecklist.ConvertChecksIntoOutputMessage` | great_expectations/core/expectation_diagnostics/expectation_diagnostics.py:239-261 | the text built step by step equals `Checklist`: the header, each check of experimental, beta, production rendered in turn, then "\n" |
| `MaturityChecklist.AppendCheckLines` | great_expectations/core/expectation_diagnostics/expectation_diagnostics.py:247-258 | one check adds its opener (`"\n ✔ "` if passed, `"\n   "` otherwise), its message, then its sub-message lines |
| `MaturityChecklist.AppendSubMessages` | great_expectations/core/expectation_diagnostics/expectation_diagnostics.py:253-258 | each sub-message adds its opener (`"\n    ✔ "` if passed, `"\n      "` otherwise) and its message, in order |
| `MaturityChecklist.GenerateChecklist` | great_expectations/core/expectation_diagnostics/expectation_diagnostics.py:61-67 | the checklist is titled with the description's camel-case name: it starts with "Completeness checklist for <camel name>:", is longer than that header, and ends with "\n" |
| `MaturityChecklist.RenderChecksAppend` | great_expectations/core/expectation_diagnostics/expectation_diagnostics.py:247-258 | rendering a concatenation of checks is the concatenation of the renderings: checks keep their order |
| `MaturityChecklist.ChecklistOrder` | great_expectations/core/expectation_diagnostics/expectation_diagnostics.py:239-259 | the checklist is the header, then the experimental block, the beta block, the production block, then "\n" |
| `MaturityChecklist.PrefixTally` | great_expectations/core/expectation_diagnostics/expectation_diagnostics.py:248-258 | each line opener holds exactly one line break, and holds a check mark exactly when its entry passed |
| `MaturityChecklist.HeaderTally` | great_expectations/core/expectation_diagnostics/expectation_diagnostics.py:239 | when the class name holds no line break (or no check mark), the header holds none either |
| `MaturityChecklist.SubMessagesTally` | great_expectations/core/expectation_diagnostics/expectation_diagnostics.py:254-258 | the sub-message lines hold one line break per sub-message and one check mark per passed sub-message |
| `MaturityChecklist.CheckTally` | great_expectations/core/expectation_diagnostics/expectation_diagnostics.py:248-258 | a rendered check holds 1 + (number of sub-messages) line breaks, and one check mark per passed entry |
| `MaturityChecklist.ChecksTally` | great_expectations/core/expectation_diagnostics/expectation_diagnostics.py:247-258 | the rendered checks hold one line break per check and per sub-message, and one check mark per passed check or sub-message |
| `MaturityChecklist.ChecklistLineCount` | great_expectations/core/expectation_diagnostics/expectation_diagnostics.py:239-259 | with no line break in the name or the messages, the checklist has (checks + sub-messages + 1) line breaks |
| `MaturityChecklist.ChecklistMarkCount` | great_expectations/core/expectation_diagnostics/expectation_diagnostics.py:247-258 | with no check mark in the name or the messages, the checklist has exactly one check mark per passed check and per passed sub-message |
| `DltExpectations.GetDltLibrary` | integrations/databricks/dlt_expectations.py:50-58 | raises `ModuleNotFoundError("dlt library was not found")` if and only if the injected library is `None`; otherwise returns the injected library, whatever `dlt` the environment has |
| `DltExpectations.WrapperExpect` | integrations/databricks/dlt_expectations.py:83-146 | fixes the outcome and the call log on every path: the missing library and invalid-configuration errors with no call; otherwise the build, checkpoint and registration in order, the first one that raises ending the call with its exception, and the function's own outcome when none raises; the notes below give the details |
| `DltExpectations.RunExpectation` | integrations/databricks/dlt_expectations.py:102-146 | after validation: the first call builds the other kind of expectation; the log keeps the order, checkpoint and registration promises; a raising build, checkpoint (or missing first argument) or registration ends the call with that exception and the log with that call; a successful result means every step succeeded; when every collaborator succeeds, the result is the function's outcome and the log is exactly the build call, the checkpoint (if asked for), the registration (if something was built), then the function call |
| `DltExpectations.BuildExpectation` | integrations/databricks/dlt_expectations.py:102-123 | a condition is translated and then becomes the expectation `(name, condition)`, unless translation raises; a configuration is handed to the factory, whose result (an expectation, none, or an exception) is taken as it is; exactly one call is made |
| `DltExpectations.CheckRegisterAndCall` | integrations/databricks/dlt_expectations.py:125-146 | the checkpoint runs on `args[0]` only with a data context, and raises `IndexError` with no call made when there is no positional argument; a raising checkpoint ends the call with its exception before registration, and a raising registration ends it before the function is called; when the checkpoint and registration succeed, the log is exactly the checkpoint, the registration, then the function call, and the function's outcome is returned |
| `DltExpectations.RegisterAndCall` | integrations/databricks/dlt_expectations.py:136-146 | registers the built expectation with `dlt`, if there is one, then calls the function last; a raising `dlt.expect` ends the call with its exception and the function is not called; when registration succeeds, the log is exactly that registration (none for `None`) and the call, and the function's outcome is returned |

The contract of `DltExpectations.WrapperExpect` states:

- **Precedence of errors.** A missing library raises `ModuleNotFoundError`. Given a library,
  supplying both a condition and a configuration raises `UnsupportedExpectationConfiguration`.
  Supplying neither raises it too, with the other message. In all three cases the wrapper
  makes no call at all.
- **First call.** The condition branch first translates `[(name, condition)]` under
  `expect_column_values_to_not_be_null`. The configuration branch first asks the factory to
  build from the configuration and the name.
- **Checkpoint.** It runs only when a data context is given. It receives `args[0]` and the
  configuration exactly as given, so `None` on the condition branch. With a data context
  and no positional argument, the wrapper raises before any later call.
- **Registration.** Every `dlt.expect` goes to the injected library and comes after the
  checkpoint. On the condition branch, a successful call has registered exactly
  `(name, condition)`.
- **Wrapped function.** It is called at most once, as the last call, with the original
  `args` and `kwargs`. Its outcome, value or exception, is returned unchanged. A successful
  result always comes from this call.
- **Order, at most once each.** The calls follow the order build, checkpoint, registration,
  function call, and no kind of call is made twice.
- **Failure paths.** The steps are the build step, the checkpoint and the registration. The
  first step that raises ends the call, and the wrapper returns that exception unchanged. The
  log then ends with that step's call, so no later call is made. The build step raises when
  the translator or the factory raises. The checkpoint raises `IndexError` when a data context
  is given but there is no positional argument; in that case the checkpoint itself is never
  called. Conversely, a successful result means that every step succeeded.
- **Success path.** On either branch, suppose the build step does not raise, the checkpoint
  (if asked for) has a first argument and does not raise, and registration (if anything was
  built) does not raise. Then the wrapper returns exactly what `func(*args, **kwargs)`
  returns. Its log is exactly the build call, then the checkpoint call when a data context is
  given, then the `dlt.expect` call when an expectation was built, then the function call. A
  factory that builds nothing (`None`) means no `dlt.expect` call.

## Left out

- `to_json_dict`: it is serialisation only.
- The `print` calls (expectation_diagnostics.py line 128; dlt_expectations.py lines 137-144): they are output only.
- The module-level import fallback that sets `dlt_mock_library` to `None`. The default `dlt_library` is whatever the caller passes as `Decorator.dltLibrary`.
- The unused YAML instance and the `functools.wraps` metadata.
- `expect` and `decorator_expect` are the records `Decorator` and `Wrapped`. They only capture their arguments, and neither raises nor calls anything at decoration time.
- The internals of the translators, `DLTExpectationFactory`, `run_ge_checkpoint_on_dataframe_from_suite` and DLT itself. They are function parameters, and any exception they raise comes back as a `PyError` value, which the wrapper passes on unchanged. `DLTExpectation`'s constructor is taken as a plain record.
- `dlt_expectation.py`, `dlt_expectation_translator.py`, `dlt_ge_utils.py` and `supporting_types.py` are not part of this model.
- `CheckRendererMethods`: `dir(expectation_instance)` is taken as a given list of names, because Python reflection is not modelled.
- `CheckInputValidation`: `validate_configuration` is a parameter that returns a boolean or raises. A non-boolean return value is not modelled.
- `CheckInputValidation`: the `ExpectationConfiguration(...)` constructor (expectation_diagnostics.py lines 276-279) is outside the inner `try` and is assumed not to raise; an exception it raised would escape the check, and that is not modelled.
- Every example group is assumed to have a "tests" key. A missing one raises `KeyError` inside the same `try`, and `examples[0]["tests"]` would raise `KeyError` rather than `IndexError`; neither is modelled.
- An absent "sub_messages" key and an empty list are the same value: both render identically.
- A "short_description" key that is absent and one that holds `None` are the same value (`None`): the source treats them alike.
- The execution-engine loop is shared by the two engine checks (`CountSuccessfulExecutionEngines`), since the source repeats the same loop verbatim. The visiting order of a dictionary does not affect the count.
