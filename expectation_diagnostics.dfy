/**
  The maturity-checklist rules of `ExpectationDiagnostics`: counting example
  cases and failed tests, deciding the pass flag of every checklist item, and
  rendering the checklist as text with a check mark on each item that passed.
 */
module MaturityChecklist {
  import opened Wrappers
  import opened DiagnosticTypes

  /* ---------------------------------------------------------------------
     Positive and negative example cases
     --------------------------------------------------------------------- */

  /** Reading `test["output"]["success"]` does not raise. */
  predicate HasSuccess(t: TestCase) {
    "success" in t.output
  }

  /** The test's "success" is present and is exactly `v`. */
  predicate SuccessIs(t: TestCase, v: PyValue) {
    "success" in t.output && t.output["success"] == v
  }

  /**
    The tests of one example group that the scan inspects: every test before
    the first one without a "success" key, whose `KeyError` leaves the `try`
    and so ends the scan of that group.
   */
  function Scanned(tests: seq<TestCase>): (r: seq<TestCase>)
    ensures |r| <= |tests| && r == tests[..|r|]
    ensures forall i :: 0 <= i < |r| ==> HasSuccess(r[i])
    ensures |r| < |tests| ==> !HasSuccess(tests[|r|])
  {
    if tests == [] || !HasSuccess(tests[0]) then []
    else [tests[0]] + Scanned(tests[1..])
  }

  /** The number of tests in `s` whose "success" is exactly `v`. */
  function CountSuccess(s: seq<TestCase>, v: PyValue): nat {
    if s == [] then 0
    else CountSuccess(s[..|s| - 1], v) + (if SuccessIs(s[|s| - 1], v) then 1 else 0)
  }

  /**
    The number of example cases counted for `v` over all groups: `True` gives
    the positive count, `False` the negative one.
   */
  function CasesWith(examples: seq<ExampleCases>, v: PyValue): nat {
    if examples == [] then 0
    else CasesWith(examples[..|examples| - 1], v) + CountSuccess(Scanned(examples[|examples| - 1].tests), v)
  }

  /** The number of tests in all groups, whether or not they are scanned. */
  function TotalTests(examples: seq<ExampleCases>): nat {
    if examples == [] then 0
    else TotalTests(examples[..|examples| - 1]) + |examples[|examples| - 1].tests|
  }

  /** The scan stopped at `j` exactly when `Scanned` says it does. */
  lemma {:induction false} ScannedUpTo(tests: seq<TestCase>, j: nat)
    requires j <= |tests|
    requires forall i :: 0 <= i < j ==> HasSuccess(tests[i])
    requires j == |tests| || !HasSuccess(tests[j])
    ensures Scanned(tests) == tests[..j]
  {
    if j > 0 {
      ScannedUpTo(tests[1..], j - 1);
      assert tests[..j] == [tests[0]] + tests[1..][..j - 1];
    }
  }

  /**
    `_count_positive_and_negative_example_cases`: scans every group and counts
    the tests whose "success" is exactly `True` and exactly `False`. A test
    without "success" abandons the rest of its group; the counts already
    made stay.
   */
  method CountPositiveAndNegativeExampleCases(examples: seq<ExampleCases>) returns (positive: nat, negative: nat)
    ensures positive == CasesWith(examples, True)
    ensures negative == CasesWith(examples, False)
  {
    positive, negative := 0, 0;
    for g := 0 to |examples|
      invariant positive == CasesWith(examples[..g], True)
      invariant negative == CasesWith(examples[..g], False)
    {
      var groupPositive, groupNegative := CountGroup(examples[g].tests);
      positive, negative := positive + groupPositive, negative + groupNegative;
      assert examples[..g + 1][..g] == examples[..g];
    }
    assert examples[..|examples|] == examples;
  }

  /**
    The `try` block for one example group: tests are read in order until one
    lacks a "success" key, whose `KeyError` ends the group's scan.
   */
  method CountGroup(tests: seq<TestCase>) returns (positive: nat, negative: nat)
    ensures positive == CountSuccess(Scanned(tests), True)
    ensures negative == CountSuccess(Scanned(tests), False)
  {
    positive, negative := 0, 0;
    var j := 0;
    while j < |tests|
      invariant j <= |tests|
      invariant forall i :: 0 <= i < j ==> HasSuccess(tests[i])
      invariant positive == CountSuccess(tests[..j], True)
      invariant negative == CountSuccess(tests[..j], False)
    {
      if !HasSuccess(tests[j]) {
        break;
      }
      if tests[j].output["success"] == True {
        positive := positive + 1;
      } else if tests[j].output["success"] == False {
        negative := negative + 1;
      }
      assert tests[..j + 1][..j] == tests[..j];
      j := j + 1;
    }
    ScannedUpTo(tests, j);
  }

  /** Each scanned test is counted at most once, on one side. */
  lemma {:induction false} CountSuccessBound(s: seq<TestCase>)
    ensures CountSuccess(s, True) + CountSuccess(s, False) <= |s|
  {
    if s != [] {
      CountSuccessBound(s[..|s| - 1]);
    }
  }

  /**
    Every test with a "success" key falls on exactly one side: positive when
    it is `True`, negative when it is `False`, neither for any other value.
   */
  lemma {:induction false} CountSuccessPartition(s: seq<TestCase>)
    requires forall i :: 0 <= i < |s| ==> HasSuccess(s[i])
    ensures CountSuccess(s, True) + CountSuccess(s, False) + CountSuccess(s, Other) == |s|
  {
    if s != [] {
      CountSuccessPartition(s[..|s| - 1]);
    }
  }

  /** Positive plus negative never exceeds the number of tests. */
  lemma {:induction false} CasesBoundedByTests(examples: seq<ExampleCases>)
    ensures CasesWith(examples, True) + CasesWith(examples, False) <= TotalTests(examples)
  {
    if examples != [] {
      CasesBoundedByTests(examples[..|examples| - 1]);
      CountSuccessBound(Scanned(examples[|examples| - 1].tests));
    }
  }

  /**
    Counts are made group by group: what an earlier group contributed is kept
    whatever a later group does, a missing "success" included.
   */
  lemma {:induction false} CasesWithAppend(e1: seq<ExampleCases>, e2: seq<ExampleCases>, v: PyValue)
    ensures CasesWith(e1 + e2, v) == CasesWith(e1, v) + CasesWith(e2, v)
  {
    if e2 != [] {
      var n := |e2| - 1;
      assert (e1 + e2)[..|e1 + e2| - 1] == e1 + e2[..n];
      CasesWithAppend(e1, e2[..n], v);
    } else {
      assert e1 + e2 == e1;
    }
  }

  /** A test without "success" ends its group's scan: only the tests before it count. */
  lemma {:induction false} MissingSuccessEndsScan(before: seq<TestCase>, t: TestCase, after: seq<TestCase>)
    requires forall i :: 0 <= i < |before| ==> HasSuccess(before[i])
    requires !HasSuccess(t)
    ensures Scanned(before + [t] + after) == before
  {
    var tests := before + [t] + after;
    assert tests[..|before|] == before;
    ScannedUpTo(tests, |before|);
  }

  /** With every "success" present, the whole group is scanned. */
  lemma {:induction false} CompleteGroupFullyScanned(tests: seq<TestCase>)
    requires forall i :: 0 <= i < |tests| ==> HasSuccess(tests[i])
    ensures Scanned(tests) == tests
  {
    ScannedUpTo(tests, |tests|);
  }

  /** The count for `v` is positive exactly when some test carries `v`. */
  lemma {:induction false} CountSuccessPositive(s: seq<TestCase>, v: PyValue)
    ensures CountSuccess(s, v) > 0 <==> exists i :: 0 <= i < |s| && SuccessIs(s[i], v)
  {
    if s != [] {
      var p := s[..|s| - 1];
      CountSuccessPositive(p, v);
      if exists i :: 0 <= i < |p| && SuccessIs(p[i], v) {
        var i :| 0 <= i < |p| && SuccessIs(p[i], v);
        assert s[i] == p[i];
      }
      if exists i :: 0 <= i < |s| && SuccessIs(s[i], v) {
        var i :| 0 <= i < |s| && SuccessIs(s[i], v);
        if i < |p| {
          assert p[i] == s[i];
        }
      }
    }
  }

  /** A test of `group` that the scan reaches and that carries `v`. */
  ghost predicate GroupHasCase(group: ExampleCases, v: PyValue) {
    exists i :: 0 <= i < |Scanned(group.tests)| && SuccessIs(Scanned(group.tests)[i], v)
  }

  /** Some group has a scanned test that carries `v`. */
  ghost predicate HasScannedCase(examples: seq<ExampleCases>, v: PyValue) {
    exists g :: 0 <= g < |examples| && GroupHasCase(examples[g], v)
  }

  /** The count for `v` is positive exactly when some scanned test of some group carries `v`. */
  lemma {:induction false} CasesWithPositive(examples: seq<ExampleCases>, v: PyValue)
    ensures CasesWith(examples, v) > 0 <==> HasScannedCase(examples, v)
  {
    if examples != [] {
      var n := |examples| - 1;
      var p := examples[..n];
      assert CasesWith(p, v) > 0 <==> HasScannedCase(p, v) by {
        CasesWithPositive(p, v);
      }
      assert CountSuccess(Scanned(examples[n].tests), v) > 0 <==> GroupHasCase(examples[n], v) by {
        CountSuccessPositive(Scanned(examples[n].tests), v);
      }
      HasScannedCaseSplit(examples, v);
    }
  }

  /** A scanned case is in the last group or in the groups before it. */
  lemma HasScannedCaseSplit(examples: seq<ExampleCases>, v: PyValue)
    requires examples != []
    ensures var n := |examples| - 1;
      HasScannedCase(examples, v) <==> HasScannedCase(examples[..n], v) || GroupHasCase(examples[n], v)
  {
    var n := |examples| - 1;
    var p := examples[..n];
    if HasScannedCase(p, v) {
      var g :| 0 <= g < |p| && GroupHasCase(p[g], v);
      assert examples[g] == p[g];
    }
    if HasScannedCase(examples, v) {
      var g :| 0 <= g < |examples| && GroupHasCase(examples[g], v);
      if g < n {
        assert p[g] == examples[g];
      }
    }
  }

  /* ---------------------------------------------------------------------
     Unexpected test cases
     --------------------------------------------------------------------- */

  /** The number of test diagnostics whose `test_passed` is not exactly `True`. */
  function Unexpected(diagnostics: seq<TestDiagnostic>): nat {
    if diagnostics == [] then 0
    else Unexpected(diagnostics[..|diagnostics| - 1]) + (if diagnostics[|diagnostics| - 1].testPassed == True then 0 else 1)
  }

  /** `_count_unexpected_test_cases`: counts the diagnostics that did not pass. */
  method CountUnexpectedTestCases(diagnostics: seq<TestDiagnostic>) returns (unexpected: nat)
    ensures unexpected == Unexpected(diagnostics)
  {
    unexpected := 0;
    for i := 0 to |diagnostics|
      invariant unexpected == Unexpected(diagnostics[..i])
    {
      var passed := diagnostics[i].testPassed == True;
      if !passed {
        unexpected := unexpected + 1;
      }
      assert diagnostics[..i + 1][..i] == diagnostics[..i];
    }
    assert diagnostics[..|diagnostics|] == diagnostics;
  }

  /**
    The unexpected count lies between 0 and the number of diagnostics, and
    is 0 exactly when every diagnostic passed with exactly `True`.
   */
  lemma {:induction false} UnexpectedMeaning(diagnostics: seq<TestDiagnostic>)
    ensures Unexpected(diagnostics) <= |diagnostics|
    ensures Unexpected(diagnostics) == 0 <==> forall i :: 0 <= i < |diagnostics| ==> diagnostics[i].testPassed == True
  {
    if diagnostics != [] {
      var p := diagnostics[..|diagnostics| - 1];
      UnexpectedMeaning(p);
      if Unexpected(diagnostics) == 0 {
        forall i | 0 <= i < |diagnostics|
          ensures diagnostics[i].testPassed == True
        {
          if i < |p| {
            assert diagnostics[i] == p[i];
          }
        }
      }
      if forall i :: 0 <= i < |diagnostics| ==> diagnostics[i].testPassed == True {
        assert forall i :: 0 <= i < |p| ==> p[i] == diagnostics[i];
      }
    }
  }

  /* ---------------------------------------------------------------------
     Checklist items
     --------------------------------------------------------------------- */

  const LibraryMetadataMessage := "Has a library_metadata object"
  const DocstringMessage := "Has a docstring, including a one-line short description"
  const ExampleCasesMessage := "Has at least one positive and negative example case, and all test cases pass"
  const AtLeastOneEngineMessage := "Has core logic and passes tests on at least one Execution Engine"
  const AllEnginesMessage := "Has core logic that passes tests for all applicable Execution Engines and SQL dialects"
  const InputValidationMessage := "Has basic input validation and type checking"
  const RendererMessage := "Has all three statement Renderers: descriptive, prescriptive, diagnostic"
  const LintingMessage := "Passes all linting checks"
  const FullTestSuiteMessage := "Has a full suite of tests, as determined by project code standards"
  const ManualReviewMessage := "Has passed a manual review by a code owner for code standards and style guides"

  /** `_check_library_metadata`: passes exactly when the metadata's own checks passed. */
  function CheckLibraryMetadata(metadata: LibraryMetadata): (c: CheckMessage)
    ensures c.message == LibraryMetadataMessage && c.subMessages == []
    ensures c.passed == metadata.libraryMetadataPassedChecks
  {
    CheckMessage(LibraryMetadataMessage, metadata.libraryMetadataPassedChecks, [])
  }

  /** The short descriptions that count as no docstring at all. */
  const PlaceholderDescriptions: set<string> := {"", "\n", "TODO: Add a docstring here"}

  /**
    `_check_docstring`: fails when the short description is absent or a
    placeholder; otherwise passes with one passed sub-message quoting it.
   */
  function CheckDocstring(description: Description): (c: CheckMessage)
    ensures c.message == DocstringMessage
    ensures c.passed <==> description.shortDescription.Some? && description.shortDescription.value !in PlaceholderDescriptions
    ensures !c.passed ==> c.subMessages == []
    ensures c.passed ==> |c.subMessages| == 1 && c.subMessages[0].passed
  {
    match description.shortDescription
    case Some(text) =>
      if text in PlaceholderDescriptions then CheckMessage(DocstringMessage, false, [])
      else CheckMessage(DocstringMessage, true, [SubMessage("\"" + text + "\"", true)])
    case None => CheckMessage(DocstringMessage, false, [])
  }

  /** The sub-message of a passing docstring check is the description between double quotes. */
  lemma DocstringQuotesDescription(description: Description)
    requires CheckDocstring(description).passed
    ensures var quoted := CheckDocstring(description).subMessages[0].message;
      && |quoted| == |description.shortDescription.value| + 2
      && quoted[0] == '"' && quoted[|quoted| - 1] == '"'
      && quoted[1..|quoted| - 1] == description.shortDescription.value
  {
    var text := description.shortDescription.value;
    var quoted := "\"" + text + "\"";
    assert quoted[1..|quoted| - 1] == text;
  }

  /** Some example case is positive, some negative, and every test diagnostic passed. */
  ghost predicate ExampleCasesSatisfied(examples: seq<ExampleCases>, tests: seq<TestDiagnostic>) {
    && HasScannedCase(examples, True)
    && HasScannedCase(examples, False)
    && forall i :: 0 <= i < |tests| ==> tests[i].testPassed == True
  }

  /**
    `_check_example_cases`: passes exactly when the positive count and the
    negative count are above zero and no test case is unexpected.
   */
  method CheckExampleCases(examples: seq<ExampleCases>, tests: seq<TestDiagnostic>) returns (c: CheckMessage)
    ensures c.message == ExampleCasesMessage && c.subMessages == []
    ensures c.passed <==> CasesWith(examples, True) > 0 && CasesWith(examples, False) > 0 && Unexpected(tests) == 0
    ensures c.passed <==> ExampleCasesSatisfied(examples, tests)
  {
    var positive, negative := CountPositiveAndNegativeExampleCases(examples);
    var unexpected := CountUnexpectedTestCases(tests);
    var passed := positive > 0 && negative > 0 && unexpected == 0;
    CasesWithPositive(examples, True);
    CasesWithPositive(examples, False);
    UnexpectedMeaning(tests);
    c := CheckMessage(ExampleCasesMessage, passed, []);
  }

  /** The engines whose diagnostic value is exactly `True`, restricted to `keys`. */
  function SuccessfulAmong(engines: map<string, PyValue>, keys: set<string>): set<string> {
    set k | k in keys && k in engines && engines[k] == True
  }

  /**
    The loop shared by both execution-engine checks: counts the engines whose
    value is exactly `True`, visiting each engine once.
   */
  method CountSuccessfulExecutionEngines(engines: map<string, PyValue>) returns (successful: nat)
    ensures successful == |SuccessfulAmong(engines, engines.Keys)|
  {
    successful := 0;
    var remaining := engines.Keys;
    while remaining != {}
      invariant remaining <= engines.Keys
      invariant successful == |SuccessfulAmong(engines, engines.Keys - remaining)|
      decreases |remaining|
    {
      var k :| k in remaining;
      var visited := engines.Keys - remaining;
      if engines[k] == True {
        assert SuccessfulAmong(engines, visited + {k}) == SuccessfulAmong(engines, visited) + {k};
        successful := successful + 1;
      } else {
        assert SuccessfulAmong(engines, visited + {k}) == SuccessfulAmong(engines, visited);
      }
      assert engines.Keys - (remaining - {k}) == visited + {k};
      remaining := remaining - {k};
    }
    assert engines.Keys - remaining == engines.Keys;
  }

  /**
    `_check_core_logic_for_at_least_one_execution_engine`: passes exactly when
    some engine's value is exactly `True`.
   */
  method CheckCoreLogicForAtLeastOneExecutionEngine(engines: map<string, PyValue>) returns (c: CheckMessage)
    ensures c.message == AtLeastOneEngineMessage && c.subMessages == []
    ensures c.passed <==> exists k :: k in engines && engines[k] == True
  {
    var passed := false;
    var successful := CountSuccessfulExecutionEngines(engines);
    if successful > 0 {
      passed := true;
    }
    if exists k :: k in engines && engines[k] == True {
      var k :| k in engines && engines[k] == True;
      assert k in SuccessfulAmong(engines, engines.Keys);
    }
    c := CheckMessage(AtLeastOneEngineMessage, passed, []);
  }

  /**
    `_check_core_logic_for_all_applicable_execution_engines`: despite its name,
    the same flag as the at-least-one check, under a different message.
   */
  method CheckCoreLogicForAllApplicableExecutionEngines(engines: map<string, PyValue>) returns (c: CheckMessage)
    ensures c.message == AllEnginesMessage && c.subMessages == []
    ensures c.passed <==> exists k :: k in engines && engines[k] == True
  {
    var passed := false;
    var successful := CountSuccessfulExecutionEngines(engines);
    if successful > 0 {
      passed := true;
    }
    if exists k :: k in engines && engines[k] == True {
      var k :| k in engines && engines[k] == True;
      assert k in SuccessfulAmong(engines, engines.Keys);
    }
    c := CheckMessage(AllEnginesMessage, passed, []);
  }

  /**
    `_check_input_validation`: fails when there is no first example or it has
    no first test (`IndexError`), or when validation raises; otherwise it
    passes as the validator says.
   */
  function CheckInputValidation(
    expectationType: string,
    examples: seq<ExampleCases>,
    validate: ExpectationConfiguration -> Validation): (c: CheckMessage)
    ensures c.message == InputValidationMessage && c.subMessages == []
    ensures (examples == [] || examples[0].tests == []) ==> !c.passed
    ensures c.passed ==>
      validate(ExpectationConfiguration(expectationType, examples[0].tests[0].input)) == Returned(true)
    ensures examples != [] && examples[0].tests != [] ==>
      (c.passed <==> validate(ExpectationConfiguration(expectationType, examples[0].tests[0].input)) == Returned(true))
  {
    var passed :=
      if examples == [] || examples[0].tests == [] then false
      else match validate(ExpectationConfiguration(expectationType, examples[0].tests[0].input))
        case Returned(flag) => flag
        case Raised => false;
    CheckMessage(InputValidationMessage, passed, [])
  }

  /** The renderer types the check asks for; "question" is left out of it. */
  const RequiredRendererTypes: set<string> := {"diagnostic", "prescriptive", "descriptive"}

  function EndsWith(s: string, suffix: string): bool {
    |suffix| <= |s| && s[|s| - |suffix|..] == suffix
  }

  /** A method name the check treats as a renderer: it starts with `_` and ends with "renderer". */
  predicate IsRendererName(name: string) {
    EndsWith(name, "renderer") && |name| > 0 && name[0] == '_'
  }

  /** The text of `s` up to its first `_`, or all of `s` when it has none. */
  function UpToUnderscore(s: string): (r: string)
    ensures |r| <= |s| && r == s[..|r|]
    ensures '_' !in r
    ensures |r| < |s| ==> s[|r|] == '_'
  {
    if s == [] || s[0] == '_' then []
    else [s[0]] + UpToUnderscore(s[1..])
  }

  /**
    `name.split("_")[1]` for a name that starts with `_`: the segment between
    the first `_` and the next one (or the end).
   */
  function RendererType(name: string): string
    requires |name| > 0 && name[0] == '_'
  {
    UpToUnderscore(name[1..])
  }

  /** The renderer types named by `names` (the result of `dir` on the instance). */
  function RendererTypes(names: seq<string>): set<string> {
    set name | name in names && IsRendererName(name) :: RendererType(name)
  }

  /** Every required renderer type is present, and no renderer of another type (but "question") is. */
  ghost predicate RenderersComplete(names: seq<string>) {
    && (forall t :: t in RequiredRendererTypes ==>
          exists name :: name in names && IsRendererName(name) && RendererType(name) == t)
    && (forall name :: name in names && IsRendererName(name) ==>
          RendererType(name) in RequiredRendererTypes || RendererType(name) == "question")
  }

  /**
    `_check_renderer_methods`: passes exactly when the renderer types, less
    "question", are exactly diagnostic, prescriptive and descriptive.
   */
  function CheckRendererMethods(names: seq<string>): (c: CheckMessage)
    ensures c.message == RendererMessage && c.subMessages == []
    ensures c.passed <==> RenderersComplete(names)
  {
    RendererTypesExactly(names);
    CheckMessage(RendererMessage, RendererTypes(names) - {"question"} == RequiredRendererTypes, [])
  }

  /** The set equality the source tests, stated name by name. */
  lemma RendererTypesExactly(names: seq<string>)
    ensures RendererTypes(names) - {"question"} == RequiredRendererTypes <==> RenderersComplete(names)
  {
    var types := RendererTypes(names);
    if types - {"question"} == RequiredRendererTypes {
      forall t | t in RequiredRendererTypes
        ensures exists name :: name in names && IsRendererName(name) && RendererType(name) == t
      {
        assert t in types;
      }
      forall name | name in names && IsRendererName(name)
        ensures RendererType(name) in RequiredRendererTypes || RendererType(name) == "question"
      {
        assert RendererType(name) in types;
      }
    }
    if RenderersComplete(names) {
      forall t | t in types - {"question"}
        ensures t in RequiredRendererTypes
      {
        var name :| name in names && IsRendererName(name) && RendererType(name) == t;
      }
      forall t | t in RequiredRendererTypes
        ensures t in types - {"question"}
      {
        var name :| name in names && IsRendererName(name) && RendererType(name) == t;
      }
    }
  }

  /** The segment of a name up to the first `_` after a segment free of `_`. */
  lemma {:induction false} UpToUnderscoreStops(segment: string, rest: string)
    requires '_' !in segment
    ensures UpToUnderscore(segment + "_" + rest) == segment
  {
    if segment != [] {
      assert segment[0] in segment;
      assert (segment + "_" + rest)[1..] == segment[1..] + "_" + rest;
      assert forall c :: c in segment[1..] ==> c in segment;
      UpToUnderscoreStops(segment[1..], rest);
    } else {
      assert segment + "_" + rest == "_" + rest;
    }
  }

  /** The conventional renderer name `_<kind>_renderer` has type `<kind>`. */
  lemma RendererTypeOfConventionalName(kind: string)
    requires '_' !in kind
    ensures IsRendererName("_" + kind + "_renderer")
    ensures RendererType("_" + kind + "_renderer") == kind
  {
    var name := "_" + kind + "_renderer";
    assert name[1..] == kind + "_" + "renderer";
    UpToUnderscoreStops(kind, "renderer");
    assert name[|name| - 8..] == "renderer";
  }

  /** `_check_linting`: always passes. */
  function CheckLinting(): (c: CheckMessage)
    ensures c.passed && c.message == LintingMessage && c.subMessages == []
  {
    CheckMessage(LintingMessage, true, [])
  }

  /** `_check_full_test_suite`: copies the metadata's full-test-suite flag. */
  function CheckFullTestSuite(metadata: LibraryMetadata): (c: CheckMessage)
    ensures c.message == FullTestSuiteMessage && c.subMessages == []
    ensures c.passed == metadata.hasFullTestSuite
  {
    CheckMessage(FullTestSuiteMessage, metadata.hasFullTestSuite, [])
  }

  /** `_check_manual_code_review`: copies the metadata's manual-review flag. */
  function CheckManualCodeReview(metadata: LibraryMetadata): (c: CheckMessage)
    ensures c.message == ManualReviewMessage && c.subMessages == []
    ensures c.passed == metadata.manuallyReviewedCode
  {
    CheckMessage(ManualReviewMessage, metadata.manuallyReviewedCode, [])
  }

  /* ---------------------------------------------------------------------
     Rendering the checklist
     --------------------------------------------------------------------- */

  function Header(className: string): string {
    HeaderText + className + ":"
  }

  /** The line opener of a check: a check mark when it passed, blanks otherwise. */
  function CheckPrefix(passed: bool): string {
    if passed then "\n ✔ " else "\n   "
  }

  /** The line opener of a sub-message, indented further. */
  function SubPrefix(passed: bool): string {
    if passed then "\n    ✔ " else "\n      "
  }

  function RenderSubMessages(subs: seq<SubMessage>): string {
    if subs == [] then ""
    else
      var last := subs[|subs| - 1];
      RenderSubMessages(subs[..|subs| - 1]) + SubPrefix(last.passed) + last.message
  }

  function RenderCheck(check: CheckMessage): string {
    CheckPrefix(check.passed) + check.message + RenderSubMessages(check.subMessages)
  }

  function RenderChecks(checks: seq<CheckMessage>): string {
    if checks == [] then ""
    else RenderChecks(checks[..|checks| - 1]) + RenderCheck(checks[|checks| - 1])
  }

  /** Experimental checks first, then beta, then production. */
  function AllChecks(maturity: MaturityMessages): seq<CheckMessage> {
    maturity.experimental + maturity.beta + maturity.production
  }

  /** The text `_convert_checks_into_output_message` builds. */
  function Checklist(className: string, maturity: MaturityMessages): string {
    Header(className) + RenderChecks(AllChecks(maturity)) + "\n"
  }

  /**
    `_convert_checks_into_output_message`: appends, after the header, one line
    per check and one per sub-message beneath it, then a final newline.
   */
  method ConvertChecksIntoOutputMessage(className: string, maturity: MaturityMessages) returns (output: string)
    ensures output == Checklist(className, maturity)
  {
    output := "Completeness checklist for " + className + ":";
    var checks := maturity.experimental + maturity.beta + maturity.production;
    for i := 0 to |checks|
      invariant output == Header(className) + RenderChecks(checks[..i])
    {
      output := AppendCheckLines(output, checks[i]);
      assert Header(className) + RenderChecks(checks[..i + 1]) == output by {
        assert checks[..i + 1][..i] == checks[..i];
        Regroup(Header(className), RenderChecks(checks[..i]), RenderCheck(checks[i]));
      }
    }
    assert checks[..|checks|] == checks;
    output := output + "\n";
  }

  /** The body of the outer loop of `_convert_checks_into_output_message`: a check's line and its sub-message lines. */
  method AppendCheckLines(output: string, check: CheckMessage) returns (extended: string)
    ensures extended == output + RenderCheck(check)
  {
    if check.passed {
      extended := output + "\n ✔ " + check.message;
    } else {
      extended := output + "\n   " + check.message;
    }
    extended := AppendSubMessages(extended, check.subMessages);
    assert output + CheckPrefix(check.passed) + check.message + RenderSubMessages(check.subMessages) == output + (CheckPrefix(check.passed) + check.message + RenderSubMessages(check.subMessages));
  }

  /** The inner loop of `_convert_checks_into_output_message`: one line per sub-message. */
  method AppendSubMessages(output: string, subs: seq<SubMessage>) returns (extended: string)
    ensures extended == output + RenderSubMessages(subs)
  {
    extended := output;
    for j := 0 to |subs|
      invariant extended == output + RenderSubMessages(subs[..j])
    {
      var sub := subs[j];
      if sub.passed {
        extended := extended + "\n    ✔ " + sub.message;
      } else {
        extended := extended + "\n      " + sub.message;
      }
      assert subs[..j + 1][..j] == subs[..j];
      assert output + RenderSubMessages(subs[..j]) + SubPrefix(sub.passed) + sub.message == output + (RenderSubMessages(subs[..j]) + SubPrefix(sub.passed) + sub.message);
    }
    assert subs[..|subs|] == subs;
  }

  /** Concatenation regrouped: what the loops build left to right, the rendering functions nest. */
  lemma Regroup(x: string, y: string, z: string)
    ensures x + y + z == x + (y + z)
  {
  }

  /** `generate_checklist`: the checklist titled with the description's camel-case name. */
  method GenerateChecklist(diagnostics: ExpectationDiagnostics) returns (text: string)
    ensures text == Checklist(diagnostics.description.camelName, diagnostics.maturityChecklist)
    ensures |text| > |Header(diagnostics.description.camelName)|
    ensures text[..|Header(diagnostics.description.camelName)|] == Header(diagnostics.description.camelName)
    ensures text[|text| - 1] == '\n'
  {
    text := ConvertChecksIntoOutputMessage(diagnostics.description.camelName, diagnostics.maturityChecklist);
  }

  /** Rendering distributes over concatenation: checks appear in their given order. */
  lemma {:induction false} RenderChecksAppend(a: seq<CheckMessage>, b: seq<CheckMessage>)
    ensures RenderChecks(a + b) == RenderChecks(a) + RenderChecks(b)
  {
    if b != [] {
      var n := |b| - 1;
      var ab := a + b;
      assert ab[..|ab| - 1] == a + b[..n];
      assert ab[|ab| - 1] == b[n];
      RenderChecksAppend(a, b[..n]);
      Regroup(RenderChecks(a), RenderChecks(b[..n]), RenderCheck(b[n]));
    } else {
      assert a + b == a;
    }
  }

  /** The checklist is the header, the experimental, beta and production blocks in that order, and a newline. */
  lemma ChecklistOrder(className: string, maturity: MaturityMessages)
    ensures Checklist(className, maturity) ==
      Header(className) + RenderChecks(maturity.experimental) + RenderChecks(maturity.beta)
      + RenderChecks(maturity.production) + "\n"
  {
    var h, e, b, p := Header(className), RenderChecks(maturity.experimental),
      RenderChecks(maturity.beta), RenderChecks(maturity.production);
    assert RenderChecks(maturity.experimental + maturity.beta + maturity.production) == e + b + p by {
      RenderChecksAppend(maturity.experimental + maturity.beta, maturity.production);
      RenderChecksAppend(maturity.experimental, maturity.beta);
    }
    Regroup(h, e + b, p);
    Regroup(h, e, b);
  }

  /** The number of occurrences of `ch` in `s`. */
  function Occurrences(s: string, ch: char): nat {
    if s == [] then 0 else (if s[0] == ch then 1 else 0) + Occurrences(s[1..], ch)
  }

  lemma {:induction false} OccurrencesAppend(a: string, b: string, ch: char)
    ensures Occurrences(a + b, ch) == Occurrences(a, ch) + Occurrences(b, ch)
  {
    if a != [] {
      assert (a + b)[1..] == a[1..] + b;
      OccurrencesAppend(a[1..], b, ch);
    } else {
      assert a + b == b;
    }
  }

  lemma {:induction false} OccurrencesAbsent(s: string, ch: char)
    requires ch !in s
    ensures Occurrences(s, ch) == 0
  {
    if s != [] {
      assert s[0] in s;
      assert forall c :: c in s[1..] ==> c in s;
      OccurrencesAbsent(s[1..], ch);
    }
  }

  /** No message, check or sub-message, contains `ch`. */
  predicate MessagesFree(checks: seq<CheckMessage>, ch: char) {
    forall i :: 0 <= i < |checks| ==>
      && ch !in checks[i].message
      && forall j :: 0 <= j < |checks[i].subMessages| ==> ch !in checks[i].subMessages[j].message
  }

  function SubMessageCount(checks: seq<CheckMessage>): nat {
    if checks == [] then 0
    else SubMessageCount(checks[..|checks| - 1]) + |checks[|checks| - 1].subMessages|
  }

  function PassedSubMessages(subs: seq<SubMessage>): nat {
    if subs == [] then 0
    else PassedSubMessages(subs[..|subs| - 1]) + (if subs[|subs| - 1].passed then 1 else 0)
  }

  /** The number of checks and sub-messages that passed. */
  function PassedEntries(checks: seq<CheckMessage>): nat {
    if checks == [] then 0
    else
      var last := checks[|checks| - 1];
      PassedEntries(checks[..|checks| - 1]) + (if last.passed then 1 else 0) + PassedSubMessages(last.subMessages)
  }

  /** The line openers hold one line break each, and a check mark when passed. */
  lemma PrefixTally(passed: bool, ch: char)
    requires ch == '\n' || ch == '✔'
    ensures Occurrences(CheckPrefix(passed), ch) == if ch == '\n' || passed then 1 else 0
    ensures Occurrences(SubPrefix(passed), ch) == if ch == '\n' || passed then 1 else 0
  {
    if passed {
      assert Occurrences("\n ✔ ", ch) == 1;
      assert Occurrences("\n    ✔ ", ch) == 1;
    } else {
      assert Occurrences("\n   ", ch) == if ch == '\n' then 1 else 0;
      assert Occurrences("\n      ", ch) == if ch == '\n' then 1 else 0;
    }
  }

  /** One rendered sub-message: its opener's tally, since the message itself holds no `ch`. */
  lemma SubMessageTally(sub: SubMessage, ch: char)
    requires ch == '\n' || ch == '✔'
    requires ch !in sub.message
    ensures Occurrences(SubPrefix(sub.passed) + sub.message, ch) == if ch == '\n' || sub.passed then 1 else 0
  {
    PrefixTally(sub.passed, ch);
    OccurrencesAbsent(sub.message, ch);
    OccurrencesAppend(SubPrefix(sub.passed), sub.message, ch);
  }

  /** Each sub-message adds one line, marked when it passed. */
  lemma {:induction false} SubMessagesTally(subs: seq<SubMessage>, ch: char)
    requires ch == '\n' || ch == '✔'
    requires forall j :: 0 <= j < |subs| ==> ch !in subs[j].message
    ensures Occurrences(RenderSubMessages(subs), ch) == if ch == '\n' then |subs| else PassedSubMessages(subs)
  {
    if subs != [] {
      var p := subs[..|subs| - 1];
      var last := subs[|subs| - 1];
      var line := SubPrefix(last.passed) + last.message;
      assert RenderSubMessages(subs) == RenderSubMessages(p) + line by {
        Regroup(RenderSubMessages(p), SubPrefix(last.passed), last.message);
      }
      SubMessagesTally(p, ch);
      SubMessageTally(last, ch);
      OccurrencesAppend(RenderSubMessages(p), line, ch);
    }
  }

  /** One rendered check: its own line and one per sub-message, marked when passed. */
  lemma CheckTally(check: CheckMessage, ch: char)
    requires ch == '\n' || ch == '✔'
    requires ch !in check.message
    requires forall j :: 0 <= j < |check.subMessages| ==> ch !in check.subMessages[j].message
    ensures Occurrences(RenderCheck(check), ch) ==
      if ch == '\n' then 1 + |check.subMessages|
      else (if check.passed then 1 else 0) + PassedSubMessages(check.subMessages)
  {
    var prefix, subs := CheckPrefix(check.passed), RenderSubMessages(check.subMessages);
    assert Occurrences(prefix, ch) == if ch == '\n' || check.passed then 1 else 0 by {
      PrefixTally(check.passed, ch);
    }
    assert Occurrences(subs, ch) ==
      if ch == '\n' then |check.subMessages| else PassedSubMessages(check.subMessages) by {
      SubMessagesTally(check.subMessages, ch);
    }
    OccurrencesAbsent(check.message, ch);
    OccurrencesAppend(prefix, check.message, ch);
    OccurrencesAppend(prefix + check.message, subs, ch);
  }

  /** Each check adds one line of its own and one per sub-message, marked when passed. */
  lemma {:induction false} ChecksTally(checks: seq<CheckMessage>, ch: char)
    requires ch == '\n' || ch == '✔'
    requires MessagesFree(checks, ch)
    ensures Occurrences(RenderChecks(checks), ch) ==
      if ch == '\n' then |checks| + SubMessageCount(checks) else PassedEntries(checks)
  {
    if checks != [] {
      var p := checks[..|checks| - 1];
      var last := checks[|checks| - 1];
      assert Occurrences(RenderChecks(p), ch) ==
        if ch == '\n' then |p| + SubMessageCount(p) else PassedEntries(p) by {
        assert MessagesFree(p, ch) by {
          forall i | 0 <= i < |p| ensures p[i] == checks[i] { }
        }
        ChecksTally(p, ch);
      }
      assert Occurrences(RenderCheck(last), ch) ==
        if ch == '\n' then 1 + |last.subMessages|
        else (if last.passed then 1 else 0) + PassedSubMessages(last.subMessages) by {
        CheckTally(last, ch);
      }
      OccurrencesAppend(RenderChecks(p), RenderCheck(last), ch);
    }
  }

  /** The fixed text that opens the checklist. */
  const HeaderText: string := "Completeness checklist for "

  lemma HeaderTally(className: string, ch: char)
    requires ch == '\n' || ch == '✔'
    requires ch !in className
    ensures Occurrences(Header(className), ch) == 0
  {
    assert ch !in HeaderText + className + ":";
    OccurrencesAbsent(Header(className), ch);
  }

  /**
    When no name or message holds a line break, the checklist has exactly one
    line per check and per sub-message after the header, closed by a newline.
   */
  lemma ChecklistLineCount(className: string, maturity: MaturityMessages)
    requires '\n' !in className
    requires MessagesFree(AllChecks(maturity), '\n')
    ensures Occurrences(Checklist(className, maturity), '\n') ==
      |AllChecks(maturity)| + SubMessageCount(AllChecks(maturity)) + 1
  {
    var checks := AllChecks(maturity);
    HeaderTally(className, '\n');
    ChecksTally(checks, '\n');
    OccurrencesAppend(Header(className), RenderChecks(checks), '\n');
    OccurrencesAppend(Header(className) + RenderChecks(checks), "\n", '\n');
  }

  /**
    When no name or message holds a check mark, the checklist has exactly one
    mark per passed check and per passed sub-message.
   */
  lemma ChecklistMarkCount(className: string, maturity: MaturityMessages)
    requires '✔' !in className
    requires MessagesFree(AllChecks(maturity), '✔')
    ensures Occurrences(Checklist(className, maturity), '✔') == PassedEntries(AllChecks(maturity))
  {
    var checks := AllChecks(maturity);
    HeaderTally(className, '✔');
    ChecksTally(checks, '✔');
    OccurrencesAppend(Header(className), RenderChecks(checks), '✔');
    OccurrencesAppend(Header(className) + RenderChecks(checks), "\n", '✔');
  }
}
