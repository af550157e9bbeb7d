/**
 * The logged query handlers of src/Commanding/LoggedQueryHandler.cs.
 * `Execute` logs through the query-handler entries of `LogHandler`:
 * handling, then the guard; refused, cannot-handle and a call of the
 * `OnCommandException` hook; then `OnExecute` inside a try/catch that logs
 * handled and returns the response, or logs failed-to-handle and rethrows.
 * Both shapes call the hook, so a hook that returns lets `OnExecute` run.
 */
module LoggedQueryHandlers {
  import opened Wrappers
  import opened Exceptions
  import opened LogHandler
  import opened Logging
  import opened Gate

  /** `LoggedQueryHandler<TResponse>`. */
  class LoggedQueryHandler<T> {
    const logger: Journal<()>
    const typeName: string      // `GetType().Name`, the name the events carry
    const commandName: string   // the action's `CommandName`, the name its exceptions carry
    const guard: Guard<()>
    const hook: Hook<()>
    const onExecute: Outcome<T>

    constructor (logger: Journal<()>, typeName: string, commandName: string, guard: Guard<()>, hook: Hook<()>,
                 onExecute: Outcome<T>)
      ensures this.logger == logger && this.typeName == typeName && this.commandName == commandName
      ensures this.guard == guard && this.hook == hook && this.onExecute == onExecute
    {
      this.logger := logger;
      this.typeName := typeName;
      this.commandName := commandName;
      this.guard := guard;
      this.hook := hook;
      this.onExecute := onExecute;
    }

    /** The default hook's exception: `QueryException<TResponse>`. */
    function DefaultError(): Exception
    {
      QueryException(commandName)
    }

    /** The invocation `Execute()` performs, as the protocol sees it. */
    function Call(): Invocation<(), T>
    {
      Invocation(ThroughLogHandler(QueryHandler), typeName, None, logger.enabled, Allows(guard, ()),
                 Hook(HookResult(hook, (), DefaultError())), onExecute)
    }

    method CanExecute() returns (allowed: bool)
      modifies logger
      ensures logger.steps == old(logger.steps) + [GuardEvaluated]
      ensures allowed == Allows(guard, ())
    {
      logger.Record(GuardEvaluated);
      allowed := Allows(guard, ());
    }

    method OnCommandException() returns (thrown: Option<Exception>)
      modifies logger
      ensures logger.steps == old(logger.steps) + [HookCalled]
      ensures thrown == HookResult(hook, (), DefaultError())
    {
      logger.Record(HookCalled);
      thrown := HookResult(hook, (), DefaultError());
    }

    method OnExecute() returns (outcome: Outcome<T>)
      modifies logger
      ensures logger.steps == old(logger.steps) + [BodyRan]
      ensures outcome == onExecute
    {
      logger.Record(BodyRan);
      outcome := onExecute;
    }

    /** The try/catch around `OnExecute`: completion or failure is logged and the outcome passed on. */
    method TryOnExecute() returns (outcome: Outcome<T>)
      modifies logger
      ensures logger.steps == old(logger.steps) + Attempt(Call())
      ensures outcome == onExecute
    {
      ghost var inv := Call();
      outcome := OnExecute();
      if outcome.Returned? {
        HandlerEmits(inv, QueryHandler, Completed, None);
        LogStage(logger, QueryHandler, Completed, typeName, None);
      } else {
        HandlerEmits(inv, QueryHandler, Failed, Some(outcome.error));
        LogStage(logger, QueryHandler, Failed, typeName, None);
      }
    }

    /** `Execute`: its steps and its outcome are the protocol's for this variant. */
    method Execute() returns (outcome: Outcome<T>)
      modifies logger
      ensures logger.steps == old(logger.steps) + Run(Call()).steps
      ensures outcome == Run(Call()).outcome
    {
      ghost var inv := Call();
      ghost var start := logger.steps;
      HandlerEmits(inv, QueryHandler, Entering, None);
      LogStage(logger, QueryHandler, Entering, typeName, None);
      var allowed := CanExecute();
      ghost var done := Emit(inv, Entering, None) + [GuardEvaluated];
      assert logger.steps == start + done;
      if !allowed {
        HandlerEmits(inv, QueryHandler, Cannot, None);
        LogStage(logger, QueryHandler, Cannot, typeName, None);
        var thrown := OnCommandException();
        done := done + Emit(inv, Cannot, None) + [HookCalled];
        assert logger.steps == start + done;
        if thrown.Some? {
          HookThrewRun(inv, thrown.value);
          return Threw(thrown.value);
        }
        BypassedRun(inv);
      } else {
        AllowedRun(inv);
      }
      outcome := TryOnExecute();
      AppendAssoc(start, done, Attempt(inv));
    }
  }

  /**
   * Refused with the default hook, `LoggedQueryHandler<TResponse>` logs the entering and
   * cannot `LogHandler` events (ids -1312408377 and 1508363972, the second at Warning),
   * throws `QueryException<TResponse>` and never runs `OnExecute`.
   */
  lemma LoggedQueryHandlerRefuses<T>(c: LoggedQueryHandler<T>)
    requires !Allows(c.guard, ()) && c.hook.DefaultHook?
    ensures Run(c.Call()).outcome == Threw(QueryException(c.commandName))
    ensures Count(Run(c.Call()).steps, BodyKind) == 0
    ensures var events := Events(Run(c.Call()).steps);
            |events| == 2 && events[0].id == Some(-1312408377) && events[1].id == Some(1508363972)
            && events[0].level == Information && events[1].level == Warning
  {
    RefusalTrace(c.Call());
  }

  /**
   * Allowed, `LoggedQueryHandler<TResponse>` logs the entering and completed `LogHandler`
   * events (ids -1312408377 and -1769740389, both at Information) and returns as
   * `OnExecute` does.
   */
  lemma LoggedQueryHandlerSucceeds<T>(c: LoggedQueryHandler<T>)
    requires Allows(c.guard, ()) && c.onExecute.Returned?
    ensures Run(c.Call()).outcome == c.onExecute
    ensures var events := Events(Run(c.Call()).steps);
            |events| == 2 && events[0].id == Some(-1312408377) && events[1].id == Some(-1769740389)
            && events[0].level == Information && events[1].level == Information
            && events[0].request == None && events[1].request == None
  {
    SuccessTrace(c.Call(), c.onExecute.value);
    EventsIdentifyInvocation(c.Call());
  }

  /**
   * Allowed, when `OnExecute` throws, `LoggedQueryHandler<TResponse>` logs the entering and
   * failed `LogHandler` events (ids -1312408377 and -2031604466, the second at Error,
   * neither with the exception) and rethrows that same exception.
   */
  lemma LoggedQueryHandlerFails<T>(c: LoggedQueryHandler<T>)
    requires Allows(c.guard, ()) && c.onExecute.Threw?
    ensures Run(c.Call()).outcome == c.onExecute
    ensures var events := Events(Run(c.Call()).steps);
            |events| == 2 && events[0].id == Some(-1312408377) && events[1].id == Some(-2031604466)
            && events[1].level == Error && events[1].cause == None
  {
    FailureTrace(c.Call(), c.onExecute.error);
  }

  /** `LoggedQueryHandler<TRequest, TResponse>`. */
  class ParameterizedLoggedQueryHandler<R, T> {
    const logger: Journal<R>
    const typeName: string      // `GetType().Name`, the name the events carry
    const commandName: string   // the action's `CommandName`, the name its exceptions carry
    const guard: Guard<R>
    const hook: Hook<R>
    const onExecute: R -> Outcome<T>

    constructor (logger: Journal<R>, typeName: string, commandName: string, guard: Guard<R>, hook: Hook<R>,
                 onExecute: R -> Outcome<T>)
      ensures this.logger == logger && this.typeName == typeName && this.commandName == commandName
      ensures this.guard == guard && this.hook == hook && this.onExecute == onExecute
    {
      this.logger := logger;
      this.typeName := typeName;
      this.commandName := commandName;
      this.guard := guard;
      this.hook := hook;
      this.onExecute := onExecute;
    }

    /** The default hook's exception: `QueryException<TRequest, TResponse>`. */
    function DefaultError(): Exception
    {
      TypedQueryException(commandName)
    }

    /** The invocation `Execute(request)` performs, as the protocol sees it. */
    function Call(request: R): Invocation<R, T>
    {
      Invocation(ThroughLogHandler(QueryHandler), typeName, Some(request), logger.enabled, Allows(guard, request),
                 Hook(HookResult(hook, request, DefaultError())), onExecute(request))
    }

    method CanExecute(request: R) returns (allowed: bool)
      modifies logger
      ensures logger.steps == old(logger.steps) + [GuardEvaluated]
      ensures allowed == Allows(guard, request)
    {
      logger.Record(GuardEvaluated);
      allowed := Allows(guard, request);
    }

    method OnCommandException(request: R) returns (thrown: Option<Exception>)
      modifies logger
      ensures logger.steps == old(logger.steps) + [HookCalled]
      ensures thrown == HookResult(hook, request, DefaultError())
    {
      logger.Record(HookCalled);
      thrown := HookResult(hook, request, DefaultError());
    }

    method OnExecute(request: R) returns (outcome: Outcome<T>)
      modifies logger
      ensures logger.steps == old(logger.steps) + [BodyRan]
      ensures outcome == onExecute(request)
    {
      logger.Record(BodyRan);
      outcome := onExecute(request);
    }

    /** The try/catch around `OnExecute`: completion or failure is logged and the outcome passed on. */
    method TryOnExecute(request: R) returns (outcome: Outcome<T>)
      modifies logger
      ensures logger.steps == old(logger.steps) + Attempt(Call(request))
      ensures outcome == onExecute(request)
    {
      ghost var inv := Call(request);
      outcome := OnExecute(request);
      if outcome.Returned? {
        HandlerEmits(inv, QueryHandler, Completed, None);
        LogStage(logger, QueryHandler, Completed, typeName, Some(request));
      } else {
        HandlerEmits(inv, QueryHandler, Failed, Some(outcome.error));
        LogStage(logger, QueryHandler, Failed, typeName, Some(request));
      }
    }

    /** `Execute`: its steps and its outcome are the protocol's for this variant. */
    method Execute(request: R) returns (outcome: Outcome<T>)
      modifies logger
      ensures logger.steps == old(logger.steps) + Run(Call(request)).steps
      ensures outcome == Run(Call(request)).outcome
    {
      ghost var inv := Call(request);
      ghost var start := logger.steps;
      HandlerEmits(inv, QueryHandler, Entering, None);
      LogStage(logger, QueryHandler, Entering, typeName, Some(request));
      var allowed := CanExecute(request);
      ghost var done := Emit(inv, Entering, None) + [GuardEvaluated];
      assert logger.steps == start + done;
      if !allowed {
        HandlerEmits(inv, QueryHandler, Cannot, None);
        LogStage(logger, QueryHandler, Cannot, typeName, Some(request));
        var thrown := OnCommandException(request);
        done := done + Emit(inv, Cannot, None) + [HookCalled];
        assert logger.steps == start + done;
        if thrown.Some? {
          HookThrewRun(inv, thrown.value);
          return Threw(thrown.value);
        }
        BypassedRun(inv);
      } else {
        AllowedRun(inv);
      }
      outcome := TryOnExecute(request);
      AppendAssoc(start, done, Attempt(inv));
    }
  }

  /**
   * Refused with the default hook, `LoggedQueryHandler<TRequest, TResponse>` logs the entering and
   * cannot `LogHandler` events (ids -1483675383 and 953864082, the second at Warning),
   * throws `QueryException<TRequest, TResponse>` and never runs `OnExecute`.
   */
  lemma ParameterizedLoggedQueryHandlerRefuses<R, T>(c: ParameterizedLoggedQueryHandler<R, T>, request: R)
    requires !Allows(c.guard, request) && c.hook.DefaultHook?
    ensures Run(c.Call(request)).outcome == Threw(TypedQueryException(c.commandName))
    ensures Count(Run(c.Call(request)).steps, BodyKind) == 0
    ensures var events := Events(Run(c.Call(request)).steps);
            |events| == 2 && events[0].id == Some(-1483675383) && events[1].id == Some(953864082)
            && events[0].level == Information && events[1].level == Warning
  {
    RefusalTrace(c.Call(request));
  }

  /**
   * Allowed, `LoggedQueryHandler<TRequest, TResponse>` logs the entering and completed `LogHandler`
   * events (ids -1483675383 and 2081299211, both at Information) and returns as
   * `OnExecute` does.
   */
  lemma ParameterizedLoggedQueryHandlerSucceeds<R, T>(c: ParameterizedLoggedQueryHandler<R, T>, request: R)
    requires Allows(c.guard, request) && c.onExecute(request).Returned?
    ensures Run(c.Call(request)).outcome == c.onExecute(request)
    ensures var events := Events(Run(c.Call(request)).steps);
            |events| == 2 && events[0].id == Some(-1483675383) && events[1].id == Some(2081299211)
            && events[0].level == Information && events[1].level == Information
            && events[0].request == Some(request) && events[1].request == Some(request)
  {
    SuccessTrace(c.Call(request), c.onExecute(request).value);
    EventsIdentifyInvocation(c.Call(request));
  }

  /**
   * Allowed, when `OnExecute` throws, `LoggedQueryHandler<TRequest, TResponse>` logs the entering and
   * failed `LogHandler` events (ids -1483675383 and 676216179, the second at Error,
   * neither with the exception) and rethrows that same exception.
   */
  lemma ParameterizedLoggedQueryHandlerFails<R, T>(c: ParameterizedLoggedQueryHandler<R, T>, request: R)
    requires Allows(c.guard, request) && c.onExecute(request).Threw?
    ensures Run(c.Call(request)).outcome == c.onExecute(request)
    ensures var events := Events(Run(c.Call(request)).steps);
            |events| == 2 && events[0].id == Some(-1483675383) && events[1].id == Some(676216179)
            && events[1].level == Error && events[1].cause == None
  {
    FailureTrace(c.Call(request), c.onExecute(request).error);
  }

}
