/**
  The call-time behaviour of the `expect` decorator for Delta Live Tables
  (DLT): which DLT library the wrapper uses, how it validates the two ways
  of giving an expectation, and the fixed order of its effects — build the
  DLT expectation, optionally run a Great Expectations checkpoint on the
  first argument, register the expectation with DLT, call the wrapped
  function. The translators, the expectation factory, the checkpoint runner,
  the DLT library and the wrapped function are not visible here: they are
  parameters, and each call to one of them is recorded in an effect log.
 */
module DltExpectations {
  import opened Wrappers

  /** A loaded DLT library module (the real one or the mock). */
  type DltHandle(==)

  /** A Great Expectations `ExpectationConfiguration`. */
  type GeConfig(==)

  /** A Great Expectations `BaseDataContext`. */
  type DataContext(==)

  /** Any Python value passed to or returned by the wrapped function. */
  type Value(==)

  /** The exceptions the wrapper raises itself, and those its collaborators raise. */
  datatype PyError =
    | ModuleNotFoundError(message: string)
    | UnsupportedExpectationConfiguration(message: string)
    | IndexError
    | Raised(code: nat)

  /** `DLTExpectation`: a DLT expectation's name (which may be `None`) and its SQL condition. */
  datatype DltExpectation = DltExpectation(name: Option<string>, condition: string)

  const DltNotFoundMessage: string := "dlt library was not found"
  const BothGivenMessage: string :=
    "Please provide only one of dlt_expectation_condition OR ge_expectation_configuration, not both."
  const NoneGivenMessage: string := "Please provide at least one type of expectation configuration"

  /** The expectation type every DLT condition is translated into. */
  const NotNullExpectationType: string := "expect_column_values_to_not_be_null"

  /**
    `_get_dlt_library`. `environmentDlt` is a `dlt` the surrounding program may
    have imported. It is never consulted: the handler assigns the name `dlt`,
    which makes `dlt` a local variable of the whole function, so the probe
    `dlt.__version__` always reads an unbound local and raises
    `UnboundLocalError`. That is a `NameError`, so the handler always runs and
    the injected `dltLibrary` is always the one used.
   */
  function GetDltLibrary(environmentDlt: Option<DltHandle>, dltLibrary: Option<DltHandle>): (r: Result<DltHandle, PyError>)
    ensures r.Ok? <==> dltLibrary.Some?
    ensures r.Ok? ==> r.value == dltLibrary.value
    ensures r.Err? ==> r.error == ModuleNotFoundError(DltNotFoundMessage)
  {
    var dlt := dltLibrary;
    if dlt.None? then Err(ModuleNotFoundError(DltNotFoundMessage)) else Ok(dlt.value)
  }

  /** The arguments `expect` captures; `expect` itself never raises or calls anything. */
  datatype Decorator = Decorator(
    name: Option<string>,
    condition: Option<string>,
    dataContext: Option<DataContext>,
    geConfig: Option<GeConfig>,
    dltLibrary: Option<DltHandle>)

  /** The wrapped function's signature: positional and keyword arguments, and a value or an exception. */
  type Func = (seq<Value>, map<string, Value>) -> Result<Value, PyError>

  /** What `decorator_expect(func)` returns: the captured arguments and the function being wrapped. */
  datatype Wrapped = Wrapped(decorator: Decorator, func: Func)

  /**
    The code `wrapper_expect` calls but that is not part of this model, and
    the `dlt` the surrounding program may have imported.
   */
  datatype Collaborators = Collaborators(
    environmentDlt: Option<DltHandle>,
    translateToConfig: (seq<(Option<string>, string)>, string) -> Result<GeConfig, PyError>,
    fromGeConfig: (GeConfig, Option<string>) -> Result<Option<DltExpectation>, PyError>,
    runCheckpoint: (DataContext, Value, Option<GeConfig>) -> Outcome<PyError>,
    dltExpect: (DltHandle, Option<string>, string) -> Outcome<PyError>)

  /** One call the wrapper makes, with the arguments it passes. */
  datatype Effect =
    | TranslateToConfig(expectations: seq<(Option<string>, string)>, expectationType: string)
    | BuildFromConfig(config: GeConfig, expectationName: Option<string>)
    | RunCheckpoint(context: DataContext, df: Value, expectationConfiguration: Option<GeConfig>)
    | DltExpect(handle: DltHandle, expectationName: Option<string>, condition: string)
    | CallFunc(args: seq<Value>, kwargs: map<string, Value>)

  /** Exactly one of the condition and the configuration is given. */
  predicate OneKindGiven(d: Decorator) {
    d.condition.Some? != d.geConfig.Some?
  }

  /** The place of each kind of call in the wrapper's fixed sequence. */
  function Stage(e: Effect): nat {
    match e
    case TranslateToConfig(_, _) => 0
    case BuildFromConfig(_, _) => 0
    case RunCheckpoint(_, _, _) => 1
    case DltExpect(_, _, _) => 2
    case CallFunc(_, _) => 3
  }

  /** The checkpoint call the wrapper makes: one when a data context and a first argument are given. */
  function CheckpointCall(d: Decorator, args: seq<Value>): seq<Effect> {
    if d.dataContext.Some? && |args| > 0 then [RunCheckpoint(d.dataContext.value, args[0], d.geConfig)] else []
  }

  /**
    What the checkpoint step does: nothing without a data context, `IndexError`
    when there is no first positional argument, otherwise what the checkpoint
    runner does.
   */
  function CheckpointOutcome(d: Decorator, c: Collaborators, args: seq<Value>): Outcome<PyError> {
    if d.dataContext.None? then Pass
    else if |args| == 0 then Fail(IndexError)
    else c.runCheckpoint(d.dataContext.value, args[0], d.geConfig)
  }

  /** The checkpoint is not asked for, or it can be run and does not raise. */
  predicate CheckpointSucceeds(d: Decorator, c: Collaborators, args: seq<Value>) {
    d.dataContext.Some? ==> |args| > 0 && c.runCheckpoint(d.dataContext.value, args[0], d.geConfig).Pass?
  }

  /** The registration call for a built expectation; none when the factory built nothing. */
  function Registration(handle: DltHandle, expectation: Option<DltExpectation>): seq<Effect> {
    match expectation
    case None => []
    case Some(e) => [DltExpect(handle, e.name, e.condition)]
  }

  /** What the registration step does: nothing without an expectation, otherwise what `dlt.expect` does. */
  function RegistrationOutcome(c: Collaborators, handle: DltHandle, expectation: Option<DltExpectation>): Outcome<PyError> {
    match expectation
    case None => Pass
    case Some(e) => c.dltExpect(handle, e.name, e.condition)
  }

  /** There is nothing to register, or `dlt.expect` does not raise on it. */
  predicate RegistrationSucceeds(c: Collaborators, handle: DltHandle, expectation: Option<DltExpectation>) {
    expectation.Some? ==> c.dltExpect(handle, expectation.value.name, expectation.value.condition).Pass?
  }

  /** The build step's call: translating the condition, or building from the configuration. */
  function BuildCall(d: Decorator): Effect
    requires OneKindGiven(d)
  {
    if d.condition.Some? then TranslateToConfig([(d.name, d.condition.value)], NotNullExpectationType)
    else BuildFromConfig(d.geConfig.value, d.name)
  }

  /**
    What the build step yields: the expectation to register, if any, or the
    exception the translator or the factory raised.
   */
  function Built(d: Decorator, c: Collaborators): Result<Option<DltExpectation>, PyError>
    requires OneKindGiven(d)
  {
    if d.condition.Some? then
      match c.translateToConfig([(d.name, d.condition.value)], NotNullExpectationType)
      case Ok(_) => Ok(Some(DltExpectation(d.name, d.condition.value)))
      case Err(e) => Err(e)
    else c.fromGeConfig(d.geConfig.value, d.name)
  }

  /* Properties of a call log, each named after what the wrapper promises. */

  /** Each kind of call is made at most once, in the order build, checkpoint, register, call. */
  predicate CallsInOrder(log: seq<Effect>) {
    forall i, j :: 0 <= i < j < |log| ==> Stage(log[i]) < Stage(log[j])
  }

  /** Every checkpoint call is asked for and gets the first positional argument and the configuration as given. */
  predicate CheckpointArguments(d: Decorator, args: seq<Value>, log: seq<Effect>) {
    forall i :: 0 <= i < |log| && log[i].RunCheckpoint? ==>
      d.dataContext.Some? && |args| > 0 && log[i] == RunCheckpoint(d.dataContext.value, args[0], d.geConfig)
  }

  /** Every registration goes to `handle`. */
  predicate RegistersWith(handle: DltHandle, log: seq<Effect>) {
    forall i :: 0 <= i < |log| && log[i].DltExpect? ==> log[i].handle == handle
  }

  /**
    The wrapped function is called, if at all, last and with the original
    arguments, and its outcome is the wrapper's; a successful wrapper always
    called it.
   */
  predicate FunctionCalledLast(w: Wrapped, args: seq<Value>, kwargs: map<string, Value>, r: Result<Value, PyError>, log: seq<Effect>) {
    && (forall i :: 0 <= i < |log| && log[i].CallFunc? ==>
          i == |log| - 1 && log[i] == CallFunc(args, kwargs) && r == w.func(args, kwargs))
    && (r.Ok? ==> |log| > 0 && log[|log| - 1] == CallFunc(args, kwargs))
  }

  /** The four promises every log of the wrapper keeps. */
  predicate LogKeepsPromises(
    w: Wrapped, args: seq<Value>, kwargs: map<string, Value>, r: Result<Value, PyError>,
    handle: DltHandle, log: seq<Effect>)
  {
    && CallsInOrder(log) && CheckpointArguments(w.decorator, args, log) && RegistersWith(handle, log)
    && FunctionCalledLast(w, args, kwargs, r, log)
  }

  /**
    A call followed by a log of later stages: the whole log keeps the order,
    the checkpoint arguments, the registration handle and the place of the
    function call.
   */
  lemma {:induction false} CallThen(
    w: Wrapped, args: seq<Value>, kwargs: map<string, Value>, r: Result<Value, PyError>,
    handle: DltHandle, first: Effect, rest: seq<Effect>)
    requires !first.CallFunc? && CheckpointArguments(w.decorator, args, [first]) && RegistersWith(handle, [first])
    requires forall i :: 0 <= i < |rest| ==> Stage(first) < Stage(rest[i])
    requires CallsInOrder(rest) && CheckpointArguments(w.decorator, args, rest) && RegistersWith(handle, rest)
    requires FunctionCalledLast(w, args, kwargs, r, rest)
    ensures LogKeepsPromises(w, args, kwargs, r, handle, [first] + rest)
  {
    var log := [first] + rest;
    assert forall i :: 1 <= i < |log| ==> log[i] == rest[i - 1];
  }

  /**
    `wrapper_expect(*args, **kwargs)`: returns what the wrapper returns or
    raises, and `log`, the calls it made in order.
   */
  method WrapperExpect(w: Wrapped, c: Collaborators, args: seq<Value>, kwargs: map<string, Value>)
    returns (r: Result<Value, PyError>, log: seq<Effect>)
    // engine resolution comes first: a missing library wins over a bad configuration
    ensures w.decorator.dltLibrary.None? ==> r == Err(ModuleNotFoundError(DltNotFoundMessage)) && log == []
    ensures w.decorator.dltLibrary.Some? && w.decorator.condition.Some? && w.decorator.geConfig.Some? ==>
      r == Err(UnsupportedExpectationConfiguration(BothGivenMessage)) && log == []
    ensures w.decorator.dltLibrary.Some? && w.decorator.condition.None? && w.decorator.geConfig.None? ==>
      r == Err(UnsupportedExpectationConfiguration(NoneGivenMessage)) && log == []
    // with a library and one kind of expectation, the first call builds the other kind
    ensures w.decorator.dltLibrary.Some? && OneKindGiven(w.decorator) ==> |log| > 0
    ensures w.decorator.dltLibrary.Some? && w.decorator.condition.Some? && w.decorator.geConfig.None? ==>
      log[0] == TranslateToConfig([(w.decorator.name, w.decorator.condition.value)], NotNullExpectationType)
    ensures w.decorator.dltLibrary.Some? && w.decorator.condition.None? && w.decorator.geConfig.Some? ==>
      log[0] == BuildFromConfig(w.decorator.geConfig.value, w.decorator.name)
    ensures CheckpointArguments(w.decorator, args, log)
    ensures w.decorator.dataContext.Some? && |args| == 0 ==> r.Err? && |log| <= 1
    ensures w.decorator.dltLibrary.Some? ==> RegistersWith(w.decorator.dltLibrary.value, log)
    ensures CallsInOrder(log)
    ensures FunctionCalledLast(w, args, kwargs, r, log)
    // a successful call ran every step the configuration asks for
    ensures r.Ok? && w.decorator.dataContext.Some? ==>
      |args| > 0 && RunCheckpoint(w.decorator.dataContext.value, args[0], w.decorator.geConfig) in log
    ensures r.Ok? && w.decorator.condition.Some? ==>
      DltExpect(w.decorator.dltLibrary.value, w.decorator.name, w.decorator.condition.value) in log
    // when every collaborator succeeds, every step runs once and the function's outcome is returned
    ensures var d := w.decorator;
      && d.dltLibrary.Some? && d.condition.Some? && d.geConfig.None?
      && c.translateToConfig([(d.name, d.condition.value)], NotNullExpectationType).Ok?
      && CheckpointSucceeds(d, c, args)
      && RegistrationSucceeds(c, d.dltLibrary.value, Some(DltExpectation(d.name, d.condition.value)))
      ==>
      && r == w.func(args, kwargs)
      && log == [TranslateToConfig([(d.name, d.condition.value)], NotNullExpectationType)]
        + CheckpointCall(d, args)
        + Registration(d.dltLibrary.value, Some(DltExpectation(d.name, d.condition.value)))
        + [CallFunc(args, kwargs)]
    ensures var d := w.decorator;
      && d.dltLibrary.Some? && d.condition.None? && d.geConfig.Some?
      && c.fromGeConfig(d.geConfig.value, d.name).Ok?
      && CheckpointSucceeds(d, c, args)
      && RegistrationSucceeds(c, d.dltLibrary.value, c.fromGeConfig(d.geConfig.value, d.name).value)
      ==>
      && r == w.func(args, kwargs)
      && log == [BuildFromConfig(d.geConfig.value, d.name)]
        + CheckpointCall(d, args)
        + Registration(d.dltLibrary.value, c.fromGeConfig(d.geConfig.value, d.name).value)
        + [CallFunc(args, kwargs)]
    // with a library and one kind of expectation, a step that raises ends the call with its exception
    ensures var d := w.decorator; d.dltLibrary.Some? && OneKindGiven(d) && Built(d, c).Err? ==>
      r == Err(Built(d, c).error) && log == [BuildCall(d)]
    ensures var d := w.decorator;
      d.dltLibrary.Some? && OneKindGiven(d) && Built(d, c).Ok? && CheckpointOutcome(d, c, args).Fail? ==>
      r == Err(CheckpointOutcome(d, c, args).error) && log == [BuildCall(d)] + CheckpointCall(d, args)
    ensures var d := w.decorator;
      && d.dltLibrary.Some? && OneKindGiven(d) && Built(d, c).Ok? && CheckpointSucceeds(d, c, args)
      && RegistrationOutcome(c, d.dltLibrary.value, Built(d, c).value).Fail?
      ==>
      && r == Err(RegistrationOutcome(c, d.dltLibrary.value, Built(d, c).value).error)
      && log == [BuildCall(d)] + CheckpointCall(d, args) + Registration(d.dltLibrary.value, Built(d, c).value)
    // so a successful call passed every check and had every step succeed
    ensures var d := w.decorator; r.Ok? ==>
      && d.dltLibrary.Some? && OneKindGiven(d) && Built(d, c).Ok? && CheckpointSucceeds(d, c, args)
      && RegistrationSucceeds(c, d.dltLibrary.value, Built(d, c).value)
  {
    log := [];
    var d := w.decorator;
    var resolved := GetDltLibrary(c.environmentDlt, d.dltLibrary);
    if resolved.Err? {
      return Err(resolved.error), log;
    }
    var dlt := resolved.value;

    if d.condition.Some? && d.geConfig.Some? {
      return Err(UnsupportedExpectationConfiguration(BothGivenMessage)), log;
    } else if d.condition.None? && d.geConfig.None? {
      return Err(UnsupportedExpectationConfiguration(NoneGivenMessage)), log;
    }

    r, log := RunExpectation(w, c, args, kwargs, dlt);
  }

  /**
    `wrapper_expect` after the library is resolved to `dlt` and exactly one
    kind of expectation was given: build, then check, register and call.
   */
  method RunExpectation(w: Wrapped, c: Collaborators, args: seq<Value>, kwargs: map<string, Value>, dlt: DltHandle)
    returns (r: Result<Value, PyError>, log: seq<Effect>)
    requires OneKindGiven(w.decorator)
    ensures |log| > 0
    ensures w.decorator.condition.Some? ==>
      log[0] == TranslateToConfig([(w.decorator.name, w.decorator.condition.value)], NotNullExpectationType)
    ensures w.decorator.geConfig.Some? ==> log[0] == BuildFromConfig(w.decorator.geConfig.value, w.decorator.name)
    ensures LogKeepsPromises(w, args, kwargs, r, dlt, log)
    ensures w.decorator.dataContext.Some? && |args| == 0 ==> r.Err? && |log| <= 1
    ensures r.Ok? && w.decorator.dataContext.Some? ==>
      |args| > 0 && RunCheckpoint(w.decorator.dataContext.value, args[0], w.decorator.geConfig) in log
    ensures r.Ok? && w.decorator.condition.Some? ==> DltExpect(dlt, w.decorator.name, w.decorator.condition.value) in log
    ensures var d := w.decorator;
      && d.condition.Some?
      && c.translateToConfig([(d.name, d.condition.value)], NotNullExpectationType).Ok?
      && CheckpointSucceeds(d, c, args)
      && RegistrationSucceeds(c, dlt, Some(DltExpectation(d.name, d.condition.value)))
      ==>
      && r == w.func(args, kwargs)
      && log == [TranslateToConfig([(d.name, d.condition.value)], NotNullExpectationType)]
        + CheckpointCall(d, args)
        + Registration(dlt, Some(DltExpectation(d.name, d.condition.value)))
        + [CallFunc(args, kwargs)]
    ensures var d := w.decorator;
      && d.geConfig.Some?
      && c.fromGeConfig(d.geConfig.value, d.name).Ok?
      && CheckpointSucceeds(d, c, args)
      && RegistrationSucceeds(c, dlt, c.fromGeConfig(d.geConfig.value, d.name).value)
      ==>
      && r == w.func(args, kwargs)
      && log == [BuildFromConfig(d.geConfig.value, d.name)]
        + CheckpointCall(d, args)
        + Registration(dlt, c.fromGeConfig(d.geConfig.value, d.name).value)
        + [CallFunc(args, kwargs)]
    // a step that raises ends the call with its exception, and no later call is made
    ensures Built(w.decorator, c).Err? ==> r == Err(Built(w.decorator, c).error) && log == [BuildCall(w.decorator)]
    ensures Built(w.decorator, c).Ok? && CheckpointOutcome(w.decorator, c, args).Fail? ==>
      && r == Err(CheckpointOutcome(w.decorator, c, args).error)
      && log == [BuildCall(w.decorator)] + CheckpointCall(w.decorator, args)
    ensures
      && Built(w.decorator, c).Ok? && CheckpointSucceeds(w.decorator, c, args)
      && RegistrationOutcome(c, dlt, Built(w.decorator, c).value).Fail?
      ==>
      && r == Err(RegistrationOutcome(c, dlt, Built(w.decorator, c).value).error)
      && log == [BuildCall(w.decorator)] + CheckpointCall(w.decorator, args) + Registration(dlt, Built(w.decorator, c).value)
    // so a successful call had every step succeed
    ensures r.Ok? ==>
      && Built(w.decorator, c).Ok? && CheckpointSucceeds(w.decorator, c, args)
      && RegistrationSucceeds(c, dlt, Built(w.decorator, c).value)
  {
    var expectation, first := BuildExpectation(w.decorator, c);
    if expectation.Err? {
      r, log := Err(expectation.error), [first];
      CallThen(w, args, kwargs, r, dlt, first, []);
      assert log == [first] + [];
      return;
    }
    var rest;
    r, rest := CheckRegisterAndCall(w, c, args, kwargs, dlt, expectation.value);
    log := [first] + rest;
    CallThen(w, args, kwargs, r, dlt, first, rest);
    BuiltThenRest(w, args, dlt, first, expectation.value, r, rest);
    BuiltThenSuccess(w, c, args, kwargs, dlt, first, expectation.value, r, rest);
    BuiltThenFailure(w, c, args, kwargs, dlt, first, expectation.value, r, rest);
  }

  /**
    The build call followed by a rest that ended at a raising checkpoint or
    registration: the whole log ends at that call too, and a successful rest
    had both steps succeed.
   */
  lemma {:induction false} BuiltThenFailure(
    w: Wrapped, c: Collaborators, args: seq<Value>, kwargs: map<string, Value>,
    dlt: DltHandle, first: Effect, expectation: Option<DltExpectation>, r: Result<Value, PyError>, rest: seq<Effect>)
    requires CheckpointOutcome(w.decorator, c, args).Fail? ==>
      r == Err(CheckpointOutcome(w.decorator, c, args).error) && rest == CheckpointCall(w.decorator, args)
    requires CheckpointSucceeds(w.decorator, c, args) && RegistrationOutcome(c, dlt, expectation).Fail? ==>
      && r == Err(RegistrationOutcome(c, dlt, expectation).error)
      && rest == CheckpointCall(w.decorator, args) + Registration(dlt, expectation)
    ensures CheckpointOutcome(w.decorator, c, args).Fail? ==> [first] + rest == [first] + CheckpointCall(w.decorator, args)
    ensures CheckpointSucceeds(w.decorator, c, args) && RegistrationOutcome(c, dlt, expectation).Fail? ==>
      [first] + rest == [first] + CheckpointCall(w.decorator, args) + Registration(dlt, expectation)
    ensures r.Ok? ==> CheckpointSucceeds(w.decorator, c, args) && RegistrationSucceeds(c, dlt, expectation)
  {
    var checkpoint := CheckpointCall(w.decorator, args);
    if rest == checkpoint + Registration(dlt, expectation) {
      assert [first] + rest == [first] + checkpoint + Registration(dlt, expectation);
    }
  }

  /**
    The build call followed by the rest of the wrapper's calls: what a
    successful rest ran is in the whole log, and a rest cut short by a missing
    first argument leaves only the build call.
   */
  lemma {:induction false} BuiltThenRest(
    w: Wrapped, args: seq<Value>, dlt: DltHandle, first: Effect, expectation: Option<DltExpectation>,
    r: Result<Value, PyError>, rest: seq<Effect>)
    requires w.decorator.dataContext.Some? && |args| == 0 ==> r == Err(IndexError) && rest == []
    requires r.Ok? && w.decorator.dataContext.Some? ==>
      |args| > 0 && RunCheckpoint(w.decorator.dataContext.value, args[0], w.decorator.geConfig) in rest
    requires r.Ok? && expectation.Some? ==> DltExpect(dlt, expectation.value.name, expectation.value.condition) in rest
    ensures w.decorator.dataContext.Some? && |args| == 0 ==> r.Err? && |[first] + rest| <= 1
    ensures r.Ok? && w.decorator.dataContext.Some? ==>
      |args| > 0 && RunCheckpoint(w.decorator.dataContext.value, args[0], w.decorator.geConfig) in [first] + rest
    ensures r.Ok? && expectation.Some? ==>
      DltExpect(dlt, expectation.value.name, expectation.value.condition) in [first] + rest
  {
  }

  /**
    The build call followed by a rest in which every later collaborator
    succeeded: the whole log is the build call, the checkpoint, the
    registration and the function call.
   */
  lemma {:induction false} BuiltThenSuccess(
    w: Wrapped, c: Collaborators, args: seq<Value>, kwargs: map<string, Value>,
    dlt: DltHandle, first: Effect, expectation: Option<DltExpectation>, r: Result<Value, PyError>, rest: seq<Effect>)
    requires CheckpointSucceeds(w.decorator, c, args) && RegistrationSucceeds(c, dlt, expectation) ==>
      && r == w.func(args, kwargs)
      && rest == CheckpointCall(w.decorator, args) + Registration(dlt, expectation) + [CallFunc(args, kwargs)]
    ensures CheckpointSucceeds(w.decorator, c, args) && RegistrationSucceeds(c, dlt, expectation) ==>
      && r == w.func(args, kwargs)
      && [first] + rest == [first] + CheckpointCall(w.decorator, args) + Registration(dlt, expectation) + [CallFunc(args, kwargs)]
  {
    var tail := Registration(dlt, expectation) + [CallFunc(args, kwargs)];
    if rest == CheckpointCall(w.decorator, args) + tail {
      assert [first] + rest == [first] + CheckpointCall(w.decorator, args) + tail;
    }
  }

  /**
    The "Create DLT expectation" block of `wrapper_expect`, once the choice of
    condition or configuration has been validated: a condition is wrapped as a
    DLT expectation and translated (only for the exception the translator may
    raise); a configuration is handed to the expectation factory, which may
    build no expectation at all.
   */
  method BuildExpectation(d: Decorator, c: Collaborators) returns (r: Result<Option<DltExpectation>, PyError>, call: Effect)
    requires OneKindGiven(d)
    ensures d.condition.Some? ==>
      && call == TranslateToConfig([(d.name, d.condition.value)], NotNullExpectationType)
      && var translated := c.translateToConfig([(d.name, d.condition.value)], NotNullExpectationType);
         r == if translated.Ok? then Ok(Some(DltExpectation(d.name, d.condition.value))) else Err(translated.error)
    ensures d.geConfig.Some? ==>
      call == BuildFromConfig(d.geConfig.value, d.name) && r == c.fromGeConfig(d.geConfig.value, d.name)
    ensures call == BuildCall(d) && r == Built(d, c)
  {
    if d.condition.Some? {
      var expectation := DltExpectation(d.name, d.condition.value);
      // the translated configuration is not used afterwards; only its exception matters
      var pairs := [(expectation.name, expectation.condition)];
      call := TranslateToConfig(pairs, NotNullExpectationType);
      var translated := c.translateToConfig(pairs, NotNullExpectationType);
      if translated.Err? {
        return Err(translated.error), call;
      }
      r := Ok(Some(expectation));
    } else {
      call := BuildFromConfig(d.geConfig.value, d.name);
      r := c.fromGeConfig(d.geConfig.value, d.name);
    }
  }

  /**
    The rest of `wrapper_expect`: the checkpoint on the first positional
    argument when a data context is given, then registration and the call.
   */
  method CheckRegisterAndCall(
    w: Wrapped, c: Collaborators, args: seq<Value>, kwargs: map<string, Value>,
    dlt: DltHandle, expectation: Option<DltExpectation>)
    returns (r: Result<Value, PyError>, log: seq<Effect>)
    ensures forall i :: 0 <= i < |log| ==> Stage(log[i]) > 0
    ensures CallsInOrder(log)
    ensures CheckpointArguments(w.decorator, args, log)
    ensures w.decorator.dataContext.Some? && |args| == 0 ==> r == Err(IndexError) && log == []
    ensures RegistersWith(dlt, log)
    ensures FunctionCalledLast(w, args, kwargs, r, log)
    ensures r.Ok? && w.decorator.dataContext.Some? ==>
      |args| > 0 && RunCheckpoint(w.decorator.dataContext.value, args[0], w.decorator.geConfig) in log
    ensures r.Ok? && expectation.Some? ==> DltExpect(dlt, expectation.value.name, expectation.value.condition) in log
    ensures CheckpointSucceeds(w.decorator, c, args) && RegistrationSucceeds(c, dlt, expectation) ==>
      && r == w.func(args, kwargs)
      && log == CheckpointCall(w.decorator, args) + Registration(dlt, expectation) + [CallFunc(args, kwargs)]
    // a raising checkpoint ends the call with its exception before registration
    ensures CheckpointOutcome(w.decorator, c, args).Fail? ==>
      r == Err(CheckpointOutcome(w.decorator, c, args).error) && log == CheckpointCall(w.decorator, args)
    // a raising `dlt.expect` ends the call after the checkpoint, and the function is not called
    ensures CheckpointSucceeds(w.decorator, c, args) && RegistrationOutcome(c, dlt, expectation).Fail? ==>
      && r == Err(RegistrationOutcome(c, dlt, expectation).error)
      && log == CheckpointCall(w.decorator, args) + Registration(dlt, expectation)
  {
    var d := w.decorator;
    if d.dataContext.None? {
      r, log := RegisterAndCall(w, c, args, kwargs, dlt, expectation);
      return;
    }
    if |args| == 0 {
      return Err(IndexError), [];
    }
    var checkpoint := RunCheckpoint(d.dataContext.value, args[0], d.geConfig);
    var checked := c.runCheckpoint(d.dataContext.value, args[0], d.geConfig);
    if checked.Fail? {
      return Err(checked.error), [checkpoint];
    }
    var rest;
    r, rest := RegisterAndCall(w, c, args, kwargs, dlt, expectation);
    log := [checkpoint] + rest;
    CallThen(w, args, kwargs, r, dlt, checkpoint, rest);
    if rest == Registration(dlt, expectation) + [CallFunc(args, kwargs)] {
      assert log == [checkpoint] + Registration(dlt, expectation) + [CallFunc(args, kwargs)];
    }
  }

  /** The last lines of `wrapper_expect`: register the built expectation, if any, with `dlt`, then call the function. */
  method RegisterAndCall(
    w: Wrapped, c: Collaborators, args: seq<Value>, kwargs: map<string, Value>,
    dlt: DltHandle, expectation: Option<DltExpectation>)
    returns (r: Result<Value, PyError>, log: seq<Effect>)
    ensures forall i :: 0 <= i < |log| ==> Stage(log[i]) > 1
    ensures CallsInOrder(log)
    ensures RegistersWith(dlt, log)
    ensures FunctionCalledLast(w, args, kwargs, r, log)
    ensures r.Ok? && expectation.Some? ==> DltExpect(dlt, expectation.value.name, expectation.value.condition) in log
    ensures RegistrationSucceeds(c, dlt, expectation) ==>
      r == w.func(args, kwargs) && log == Registration(dlt, expectation) + [CallFunc(args, kwargs)]
    // a raising `dlt.expect` ends the call with its exception, and the function is not called
    ensures RegistrationOutcome(c, dlt, expectation).Fail? ==>
      r == Err(RegistrationOutcome(c, dlt, expectation).error) && log == Registration(dlt, expectation)
  {
    log := [];
    if expectation.Some? {
      log := [DltExpect(dlt, expectation.value.name, expectation.value.condition)];
      var registered := c.dltExpect(dlt, expectation.value.name, expectation.value.condition);
      if registered.Fail? {
        return Err(registered.error), log;
      }
    }
    log := log + [CallFunc(args, kwargs)];
    r := w.func(args, kwargs);
  }
}
