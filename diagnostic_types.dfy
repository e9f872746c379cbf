/**
  The plain records the maturity checklist is computed from. In the source
  they are the supporting types of the expectation diagnostics package
  (`supporting_types` is not part of this model); only the fields the
  checklist logic reads are kept.
 */
module DiagnosticTypes {
  import opened Wrappers

  /**
    A Python value as seen through `is True` / `is False`: the two boolean
    singletons, and every other value (a truthy `1`, a string, `None`, ...),
    which is identical to neither.
   */
  datatype PyValue = True | False | Other

  /** The keyword arguments of one test; their contents are never inspected here. */
  type TestInput(==)

  /**
    One test of an example group. `output` is the expected-output dictionary:
    a test whose output has no "success" key raises `KeyError` when it is read.
   */
  datatype TestCase = TestCase(input: TestInput, output: map<string, PyValue>)

  /** `ExpectationTestDataCases`: one example data set and its tests. */
  datatype ExampleCases = ExampleCases(tests: seq<TestCase>)

  /** `ExpectationTestDiagnostics`: the outcome of running one test. */
  datatype TestDiagnostic = TestDiagnostic(testPassed: PyValue)

  /** A nested line of a check message. */
  datatype SubMessage = SubMessage(message: string, passed: bool)

  /**
    `ExpectationDiagnosticCheckMessage`. A check built without sub-messages
    carries the empty list, which renders exactly like an absent one.
   */
  datatype CheckMessage = CheckMessage(message: string, passed: bool, subMessages: seq<SubMessage>)

  /** `ExpectationDiagnosticMaturityMessages`: the checks grouped by maturity level. */
  datatype MaturityMessages = MaturityMessages(
    experimental: seq<CheckMessage>,
    beta: seq<CheckMessage>,
    production: seq<CheckMessage>)

  /** The flags of `AugmentedLibraryMetadata` that the checks copy. */
  datatype LibraryMetadata = LibraryMetadata(
    libraryMetadataPassedChecks: bool,
    hasFullTestSuite: bool,
    manuallyReviewedCode: bool)

  /**
    `ExpectationDescriptionDiagnostics`. `shortDescription` is `None` both
    when the key is absent and when it holds `None`: the source treats the
    two alike.
   */
  datatype Description = Description(camelName: string, shortDescription: Option<string>)

  /** The configuration handed to an expectation's `validate_configuration`. */
  datatype ExpectationConfiguration = ExpectationConfiguration(expectationType: string, kwargs: TestInput)

  /** What `validate_configuration` did: returned a flag, or raised. */
  datatype Validation = Returned(value: bool) | Raised

  /** The fields of the frozen `ExpectationDiagnostics` record that the checklist uses. */
  datatype ExpectationDiagnostics = ExpectationDiagnostics(
    examples: seq<ExampleCases>,
    libraryMetadata: LibraryMetadata,
    description: Description,
    executionEngines: map<string, PyValue>,
    tests: seq<TestDiagnostic>,
    maturityChecklist: MaturityMessages)
}
