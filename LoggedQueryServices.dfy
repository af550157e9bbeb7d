/**
 * The logged query services of src/Commanding/LoggedQueryService.cs.
 * `Execute` logs through the query-service entries of `LogHandler`:
 * executing, then the guard; refused, cannot-execute and a call of the
 * `OnCommandException` hook; then `OnExecute` inside a try/catch that logs
 * executed and returns the result, or logs failed-to-execute and rethrows.
 * Both shapes call the hook, so a hook that returns lets `OnExecute` run.
 */
module LoggedQueryServices {
  import opened Wrappers
  import opened Exceptions
  import opened LogHandler
  import opened Logging
  import opened Gate

  /** `LoggedQueryService<TResult>`. */
  class LoggedQueryService<T> {
    const logger: Journal<()>
    const typeName: string      // `GetType().Name`, the name the events carry
    const commandName: string   // the action's `CommandName`, the name its exceptions carry
    const guard: Guard<()>
    const hook: Hook<()>
    const onExecute: Outcome<T>

    constructor (logger: Journal<()>, typeName: string, commandName: string, guard: Guard<()>, hook: Hook<()>,
                 onExecute: Outcome<T>)
      ensures this.logger == logger && this.typeName == typeName && this.commandName == commandName
      ensures this.guard == guard && this.hook == hook && this.onExecute == onExecute
    {
      this.logger := logger;
      this.typeName := typeName;
      this.commandName := commandName;
      this.guard := guard;
      this.hook := hook;
      this.onExecute := onExecute;
    }

    /** The default hook's exception: `QueryException<TResult>`. */
    function DefaultError(): Exception
    {
      QueryException(commandName)
    }

    /** The invocation `Execute()` performs, as the protocol sees it. */
    function Call(): Invocation<(), T>
    {
      Invocation(ThroughLogHandler(QueryService), typeName, None, logger.enabled, Allows(guard, ()),
                 Hook(HookResult(hook, (), DefaultError())), onExecute)
    }

    method CanExecute() returns (allowed: bool)
      modifies logger
      ensures logger.steps == old(logger.steps) + [GuardEvaluated]
      ensures allowed == Allows(guard, ())
    {
      logger.Record(GuardEvaluated);
      allowed := Allows(guard, ());
    }

    method OnCommandException() returns (thrown: Option<Exception>)
      modifies logger
      ensures logger.steps == old(logger.steps) + [HookCalled]
      ensures thrown == HookResult(hook, (), DefaultError())
    {
      logger.Record(HookCalled);
      thrown := HookResult(hook, (), DefaultError());
    }

    method OnExecute() returns (outcome: Outcome<T>)
      modifies logger
      ensures logger.steps == old(logger.steps) + [BodyRan]
      ensures outcome == onExecute
    {
      logger.Record(BodyRan);
      outcome := onExecute;
    }

    /** The try/catch around `OnExecute`: completion or failure is logged and the outcome passed on. */
    method TryOnExecute() returns (outcome: Outcome<T>)
      modifies logger
      ensures logger.steps == old(logger.steps) + Attempt(Call())
      ensures outcome == onExecute
    {
      ghost var inv := Call();
      outcome := OnExecute();
      if outcome.Returned? {
        HandlerEmits(inv, QueryService, Completed, None);
        LogStage(logger, QueryService, Completed, typeName, None);
      } else {
        HandlerEmits(inv, QueryService, Failed, Some(outcome.error));
        LogStage(logger, QueryService, Failed, typeName, None);
      }
    }

    /** `Execute`: its steps and its outcome are the protocol's for this variant. */
    method Execute() returns (outcome: Outcome<T>)
      modifies logger
      ensures logger.steps == old(logger.steps) + Run(Call()).steps
      ensures outcome == Run(Call()).outcome
    {
      ghost var inv := Call();
      ghost var start := logger.steps;
      HandlerEmits(inv, QueryService, Entering, None);
      LogStage(logger, QueryService, Entering, typeName, None);
      var allowed := CanExecute();
      ghost var done := Emit(inv, Entering, None) + [GuardEvaluated];
      assert logger.steps == start + done;
      if !allowed {
        HandlerEmits(inv, QueryService, Cannot, None);
        LogStage(logger, QueryService, Cannot, typeName, None);
        var thrown := OnCommandException();
        done := done + Emit(inv, Cannot, None) + [HookCalled];
        assert logger.steps == start + done;
        if thrown.Some? {
          HookThrewRun(inv, thrown.value);
          return Threw(thrown.value);
        }
        BypassedRun(inv);
      } else {
        AllowedRun(inv);
      }
      outcome := TryOnExecute();
      AppendAssoc(start, done, Attempt(inv));
    }
  }

  /**
   * Refused with the default hook, `LoggedQueryService<TResult>` logs the entering and
   * cannot `LogHandler` events (ids -336876455 and -177478635, the second at Warning),
   * throws `QueryException<TResult>` and never runs `OnExecute`.
   */
  lemma LoggedQueryServiceRefuses<T>(c: LoggedQueryService<T>)
    requires !Allows(c.guard, ()) && c.hook.DefaultHook?
    ensures Run(c.Call()).outcome == Threw(QueryException(c.commandName))
    ensures Count(Run(c.Call()).steps, BodyKind) == 0
    ensures var events := Events(Run(c.Call()).steps);
            |events| == 2 && events[0].id == Some(-336876455) && events[1].id == Some(-177478635)
            && events[0].level == Information && events[1].level == Warning
  {
    RefusalTrace(c.Call());
  }

  /**
   * Allowed, `LoggedQueryService<TResult>` logs the entering and completed `LogHandler`
   * events (ids -336876455 and -2076214865, both at Information) and returns as
   * `OnExecute` does.
   */
  lemma LoggedQueryServiceSucceeds<T>(c: LoggedQueryService<T>)
    requires Allows(c.guard, ()) && c.onExecute.Returned?
    ensures Run(c.Call()).outcome == c.onExecute
    ensures var events := Events(Run(c.Call()).steps);
            |events| == 2 && events[0].id == Some(-336876455) && events[1].id == Some(-2076214865)
            && events[0].level == Information && events[1].level == Information
            && events[0].request == None && events[1].request == None
  {
    SuccessTrace(c.Call(), c.onExecute.value);
    EventsIdentifyInvocation(c.Call());
  }

  /**
   * Allowed, when `OnExecute` throws, `LoggedQueryService<TResult>` logs the entering and
   * failed `LogHandler` events (ids -336876455 and 2030904752, the second at Error,
   * neither with the exception) and rethrows that same exception.
   */
  lemma LoggedQueryServiceFails<T>(c: LoggedQueryService<T>)
    requires Allows(c.guard, ()) && c.onExecute.Threw?
    ensures Run(c.Call()).outcome == c.onExecute
    ensures var events := Events(Run(c.Call()).steps);
            |events| == 2 && events[0].id == Some(-336876455) && events[1].id == Some(2030904752)
            && events[1].level == Error && events[1].cause == None
  {
    FailureTrace(c.Call(), c.onExecute.error);
  }

  /** `LoggedQueryService<TParameters, TResult>`. */
  class ParameterizedLoggedQueryService<R, T> {
    const logger: Journal<R>
    const typeName: string      // `GetType().Name`, the name the events carry
    const commandName: string   // the action's `CommandName`, the name its exceptions carry
    const guard: Guard<R>
    const hook: Hook<R>
    const onExecute: R -> Outcome<T>

    constructor (logger: Journal<R>, typeName: string, commandName: string, guard: Guard<R>, hook: Hook<R>,
                 onExecute: R -> Outcome<T>)
      ensures this.logger == logger && this.typeName == typeName && this.commandName == commandName
      ensures this.guard == guard && this.hook == hook && this.onExecute == onExecute
    {
      this.logger := logger;
      this.typeName := typeName;
      this.commandName := commandName;
      this.guard := guard;
      this.hook := hook;
      this.onExecute := onExecute;
    }

    /** The default hook's exception: `QueryException<TParameters, TResult>`. */
    function DefaultError(): Exception
    {
      TypedQueryException(commandName)
    }

    /** The invocation `Execute(request)` performs, as the protocol sees it. */
    function Call(request: R): Invocation<R, T>
    {
      Invocation(ThroughLogHandler(QueryService), typeName, Some(request), logger.enabled, Allows(guard, request),
                 Hook(HookResult(hook, request, DefaultError())), onExecute(request))
    }

    method CanExecute(request: R) returns (allowed: bool)
      modifies logger
      ensures logger.steps == old(logger.steps) + [GuardEvaluated]
      ensures allowed == Allows(guard, request)
    {
      logger.Record(GuardEvaluated);
      allowed := Allows(guard, request);
    }

    method OnCommandException(request: R) returns (thrown: Option<Exception>)
      modifies logger
      ensures logger.steps == old(logger.steps) + [HookCalled]
      ensures thrown == HookResult(hook, request, DefaultError())
    {
      logger.Record(HookCalled);
      thrown := HookResult(hook, request, DefaultError());
    }

    method OnExecute(request: R) returns (outcome: Outcome<T>)
      modifies logger
      ensures logger.steps == old(logger.steps) + [BodyRan]
      ensures outcome == onExecute(request)
    {
      logger.Record(BodyRan);
      outcome := onExecute(request);
    }

    /** The try/catch around `OnExecute`: completion or failure is logged and the outcome passed on. */
    method TryOnExecute(request: R) returns (outcome: Outcome<T>)
      modifies logger
      ensures logger.steps == old(logger.steps) + Attempt(Call(request))
      ensures outcome == onExecute(request)
    {
      ghost var inv := Call(request);
      outcome := OnExecute(request);
      if outcome.Returned? {
        HandlerEmits(inv, QueryService, Completed, None);
        LogStage(logger, QueryService, Completed, typeName, Some(request));
      } else {
        HandlerEmits(inv, QueryService, Failed, Some(outcome.error));
        LogStage(logger, QueryService, Failed, typeName, Some(request));
      }
    }

    /** `Execute`: its steps and its outcome are the protocol's for this variant. */
    method Execute(request: R) returns (outcome: Outcome<T>)
      modifies logger
      ensures logger.steps == old(logger.steps) + Run(Call(request)).steps
      ensures outcome == Run(Call(request)).outcome
    {
      ghost var inv := Call(request);
      ghost var start := logger.steps;
      HandlerEmits(inv, QueryService, Entering, None);
      LogStage(logger, QueryService, Entering, typeName, Some(request));
      var allowed := CanExecute(request);
      ghost var done := Emit(inv, Entering, None) + [GuardEvaluated];
      assert logger.steps == start + done;
      if !allowed {
        HandlerEmits(inv, QueryService, Cannot, None);
        LogStage(logger, QueryService, Cannot, typeName, Some(request));
        var thrown := OnCommandException(request);
        done := done + Emit(inv, Cannot, None) + [HookCalled];
        assert logger.steps == start + done;
        if thrown.Some? {
          HookThrewRun(inv, thrown.value);
          return Threw(thrown.value);
        }
        BypassedRun(inv);
      } else {
        AllowedRun(inv);
      }
      outcome := TryOnExecute(request);
      AppendAssoc(start, done, Attempt(inv));
    }
  }

  /**
   * Refused with the default hook, `LoggedQueryService<TParameters, TResult>` logs the entering and
   * cannot `LogHandler` events (ids 504745592 and 979968330, the second at Warning),
   * throws `QueryException<TParameters, TResult>` and never runs `OnExecute`.
   */
  lemma ParameterizedLoggedQueryServiceRefuses<R, T>(c: ParameterizedLoggedQueryService<R, T>, request: R)
    requires !Allows(c.guard, request) && c.hook.DefaultHook?
    ensures Run(c.Call(request)).outcome == Threw(TypedQueryException(c.commandName))
    ensures Count(Run(c.Call(request)).steps, BodyKind) == 0
    ensures var events := Events(Run(c.Call(request)).steps);
            |events| == 2 && events[0].id == Some(504745592) && events[1].id == Some(979968330)
            && events[0].level == Information && events[1].level == Warning
  {
    RefusalTrace(c.Call(request));
  }

  /**
   * Allowed, `LoggedQueryService<TParameters, TResult>` logs the entering and completed `LogHandler`
   * events (ids 504745592 and 845758664, both at Information) and returns as
   * `OnExecute` does.
   */
  lemma ParameterizedLoggedQueryServiceSucceeds<R, T>(c: ParameterizedLoggedQueryService<R, T>, request: R)
    requires Allows(c.guard, request) && c.onExecute(request).Returned?
    ensures Run(c.Call(request)).outcome == c.onExecute(request)
    ensures var events := Events(Run(c.Call(request)).steps);
            |events| == 2 && events[0].id == Some(504745592) && events[1].id == Some(845758664)
            && events[0].level == Information && events[1].level == Information
            && events[0].request == Some(request) && events[1].request == Some(request)
  {
    SuccessTrace(c.Call(request), c.onExecute(request).value);
    EventsIdentifyInvocation(c.Call(request));
  }

  /**
   * Allowed, when `OnExecute` throws, `LoggedQueryService<TParameters, TResult>` logs the entering and
   * failed `LogHandler` events (ids 504745592 and -1858691295, the second at Error,
   * neither with the exception) and rethrows that same exception.
   */
  lemma ParameterizedLoggedQueryServiceFails<R, T>(c: ParameterizedLoggedQueryService<R, T>, request: R)
    requires Allows(c.guard, request) && c.onExecute(request).Threw?
    ensures Run(c.Call(request)).outcome == c.onExecute(request)
    ensures var events := Events(Run(c.Call(request)).steps);
            |events| == 2 && events[0].id == Some(504745592) && events[1].id == Some(-1858691295)
            && events[1].level == Error && events[1].cause == None
  {
    FailureTrace(c.Call(request), c.onExecute(request).error);
  }

}
