/**
 * The logged command handlers of src/Commanding/LoggedCommandHandler.cs.
 * `Execute` logs through the command-handler entries of `LogHandler`:
 * handling, then the guard; refused, cannot-handle and an exception;
 * allowed, `OnExecute` inside a try/catch that logs handled, or logs
 * failed-to-handle and rethrows. The events carry the handler's type name;
 * the refusal's exception names the action by its `CommandName`.
 */
module LoggedCommandHandlers {
  import opened Wrappers
  import opened Exceptions
  import opened LogHandler
  import opened Logging
  import opened Gate

  /** `LoggedCommandHandler`: refused, it throws a `CommandException` itself. */
  class LoggedCommandHandler {
    const logger: Journal<()>
    const typeName: string      // `GetType().Name`, the name the events carry
    const commandName: string   // the action's `CommandName`, the name its exceptions carry
    const guard: Guard<()>
    const onExecute: Outcome<()>

    constructor (logger: Journal<()>, typeName: string, commandName: string, guard: Guard<()>,
                 onExecute: Outcome<()>)
      ensures this.logger == logger && this.typeName == typeName && this.commandName == commandName
      ensures this.guard == guard && this.onExecute == onExecute
    {
      this.logger := logger;
      this.typeName := typeName;
      this.commandName := commandName;
      this.guard := guard;
      this.onExecute := onExecute;
    }

    /** The invocation `Execute()` performs, as the protocol sees it. */
    function Call(): Invocation<(), ()>
    {
      Invocation(ThroughLogHandler(CommandHandler), typeName, None, logger.enabled, Allows(guard, ()),
                 Throw(FromAction(commandName)), onExecute)
    }

    method CanExecute() returns (allowed: bool)
      modifies logger
      ensures logger.steps == old(logger.steps) + [GuardEvaluated]
      ensures allowed == Allows(guard, ())
    {
      logger.Record(GuardEvaluated);
      allowed := Allows(guard, ());
    }

    method OnExecute() returns (outcome: Outcome<()>)
      modifies logger
      ensures logger.steps == old(logger.steps) + [BodyRan]
      ensures outcome == onExecute
    {
      logger.Record(BodyRan);
      outcome := onExecute;
    }

    /** The try/catch around `OnExecute`: completion or failure is logged and the outcome passed on. */
    method TryOnExecute() returns (outcome: Outcome<()>)
      modifies logger
      ensures logger.steps == old(logger.steps) + Attempt(Call())
      ensures outcome == onExecute
    {
      ghost var inv := Call();
      outcome := OnExecute();
      if outcome.Returned? {
        HandlerEmits(inv, CommandHandler, Completed, None);
        LogStage(logger, CommandHandler, Completed, typeName, None);
      } else {
        HandlerEmits(inv, CommandHandler, Failed, Some(outcome.error));
        LogStage(logger, CommandHandler, Failed, typeName, None);
      }
    }

    /** `Execute`: its steps and its outcome are the protocol's for this variant. */
    method Execute() returns (outcome: Outcome<()>)
      modifies logger
      ensures logger.steps == old(logger.steps) + Run(Call()).steps
      ensures outcome == Run(Call()).outcome
    {
      ghost var inv := Call();
      ghost var start := logger.steps;
      HandlerEmits(inv, CommandHandler, Entering, None);
      LogStage(logger, CommandHandler, Entering, typeName, None);
      var allowed := CanExecute();
      ghost var done := Emit(inv, Entering, None) + [GuardEvaluated];
      assert logger.steps == start + done;
      if !allowed {
        HandlerEmits(inv, CommandHandler, Cannot, None);
        LogStage(logger, CommandHandler, Cannot, typeName, None);
        done := done + Emit(inv, Cannot, None);
        assert logger.steps == start + done;
        ThrowRun(inv, FromAction(commandName));
        return Threw(FromAction(commandName));
      }
      AllowedRun(inv);
      outcome := TryOnExecute();
      AppendAssoc(start, done, Attempt(inv));
    }
  }

  /**
   * Refused, `LoggedCommandHandler` logs the entering and
   * cannot `LogHandler` events (ids -1052453872 and -852123818, the second at Warning),
   * throws a `CommandException` naming the action and never runs `OnExecute`.
   */
  lemma LoggedCommandHandlerRefuses(c: LoggedCommandHandler)
    requires !Allows(c.guard, ())
    ensures Run(c.Call()).outcome == Threw(FromAction(c.commandName))
    ensures Count(Run(c.Call()).steps, BodyKind) == 0
    ensures var events := Events(Run(c.Call()).steps);
            |events| == 2 && events[0].id == Some(-1052453872) && events[1].id == Some(-852123818)
            && events[0].level == Information && events[1].level == Warning
  {
    RefusalTrace(c.Call());
  }

  /**
   * Allowed, `LoggedCommandHandler` logs the entering and completed `LogHandler`
   * events (ids -1052453872 and 26502146, both at Information) and returns as
   * `OnExecute` does.
   */
  lemma LoggedCommandHandlerSucceeds(c: LoggedCommandHandler)
    requires Allows(c.guard, ()) && c.onExecute.Returned?
    ensures Run(c.Call()).outcome == c.onExecute
    ensures var events := Events(Run(c.Call()).steps);
            |events| == 2 && events[0].id == Some(-1052453872) && events[1].id == Some(26502146)
            && events[0].level == Information && events[1].level == Information
            && events[0].request == None && events[1].request == None
  {
    SuccessTrace(c.Call(), c.onExecute.value);
    EventsIdentifyInvocation(c.Call());
  }

  /**
   * Allowed, when `OnExecute` throws, `LoggedCommandHandler` logs the entering and
   * failed `LogHandler` events (ids -1052453872 and -1611729963, the second at Error,
   * neither with the exception) and rethrows that same exception.
   */
  lemma LoggedCommandHandlerFails(c: LoggedCommandHandler)
    requires Allows(c.guard, ()) && c.onExecute.Threw?
    ensures Run(c.Call()).outcome == c.onExecute
    ensures var events := Events(Run(c.Call()).steps);
            |events| == 2 && events[0].id == Some(-1052453872) && events[1].id == Some(-1611729963)
            && events[1].level == Error && events[1].cause == None
  {
    FailureTrace(c.Call(), c.onExecute.error);
  }

  /** `LoggedCommandHandler<TRequest>`: refused, it calls `OnCommandException`. */
  class ParameterizedLoggedCommandHandler<R> {
    const logger: Journal<R>
    const typeName: string      // `GetType().Name`, the name the events carry
    const commandName: string   // the action's `CommandName`, the name its exceptions carry
    const guard: Guard<R>
    const hook: Hook<R>
    const onExecute: R -> Outcome<()>

    constructor (logger: Journal<R>, typeName: string, commandName: string, guard: Guard<R>, hook: Hook<R>,
                 onExecute: R -> Outcome<()>)
      ensures this.logger == logger && this.typeName == typeName && this.commandName == commandName
      ensures this.guard == guard && this.hook == hook && this.onExecute == onExecute
    {
      this.logger := logger;
      this.typeName := typeName;
      this.commandName := commandName;
      this.guard := guard;
      this.hook := hook;
      this.onExecute := onExecute;
    }

    /** The default hook's exception: `CommandException<TRequest>`. */
    function DefaultError(): Exception
    {
      TypedCommandException(commandName)
    }

    /** The invocation `Execute(request)` performs, as the protocol sees it. */
    function Call(request: R): Invocation<R, ()>
    {
      Invocation(ThroughLogHandler(CommandHandler), typeName, Some(request), logger.enabled, Allows(guard, request),
                 Hook(HookResult(hook, request, DefaultError())), onExecute(request))
    }

    method CanExecute(request: R) returns (allowed: bool)
      modifies logger
      ensures logger.steps == old(logger.steps) + [GuardEvaluated]
      ensures allowed == Allows(guard, request)
    {
      logger.Record(GuardEvaluated);
      allowed := Allows(guard, request);
    }

    method OnCommandException(request: R) returns (thrown: Option<Exception>)
      modifies logger
      ensures logger.steps == old(logger.steps) + [HookCalled]
      ensures thrown == HookResult(hook, request, DefaultError())
    {
      logger.Record(HookCalled);
      thrown := HookResult(hook, request, DefaultError());
    }

    method OnExecute(request: R) returns (outcome: Outcome<()>)
      modifies logger
      ensures logger.steps == old(logger.steps) + [BodyRan]
      ensures outcome == onExecute(request)
    {
      logger.Record(BodyRan);
      outcome := onExecute(request);
    }

    /** The try/catch around `OnExecute`: completion or failure is logged and the outcome passed on. */
    method TryOnExecute(request: R) returns (outcome: Outcome<()>)
      modifies logger
      ensures logger.steps == old(logger.steps) + Attempt(Call(request))
      ensures outcome == onExecute(request)
    {
      ghost var inv := Call(request);
      outcome := OnExecute(request);
      if outcome.Returned? {
        HandlerEmits(inv, CommandHandler, Completed, None);
        LogStage(logger, CommandHandler, Completed, typeName, Some(request));
      } else {
        HandlerEmits(inv, CommandHandler, Failed, Some(outcome.error));
        LogStage(logger, CommandHandler, Failed, typeName, Some(request));
      }
    }

    /** `Execute`: its steps and its outcome are the protocol's for this variant. */
    method Execute(request: R) returns (outcome: Outcome<()>)
      modifies logger
      ensures logger.steps == old(logger.steps) + Run(Call(request)).steps
      ensures outcome == Run(Call(request)).outcome
    {
      ghost var inv := Call(request);
      ghost var start := logger.steps;
      HandlerEmits(inv, CommandHandler, Entering, None);
      LogStage(logger, CommandHandler, Entering, typeName, Some(request));
      var allowed := CanExecute(request);
      ghost var done := Emit(inv, Entering, None) + [GuardEvaluated];
      assert logger.steps == start + done;
      if !allowed {
        HandlerEmits(inv, CommandHandler, Cannot, None);
        LogStage(logger, CommandHandler, Cannot, typeName, Some(request));
        var thrown := OnCommandException(request);
        done := done + Emit(inv, Cannot, None) + [HookCalled];
        assert logger.steps == start + done;
        if thrown.Some? {
          HookThrewRun(inv, thrown.value);
          return Threw(thrown.value);
        }
        BypassedRun(inv);
      } else {
        AllowedRun(inv);
      }
      outcome := TryOnExecute(request);
      AppendAssoc(start, done, Attempt(inv));
    }
  }

  /**
   * Refused with the default hook, `LoggedCommandHandler<TRequest>` logs the entering and
   * cannot `LogHandler` events (ids -694605769 and 1204198089, the second at Warning),
   * throws `CommandException<TRequest>` and never runs `OnExecute`.
   */
  lemma ParameterizedLoggedCommandHandlerRefuses<R>(c: ParameterizedLoggedCommandHandler<R>, request: R)
    requires !Allows(c.guard, request) && c.hook.DefaultHook?
    ensures Run(c.Call(request)).outcome == Threw(TypedCommandException(c.commandName))
    ensures Count(Run(c.Call(request)).steps, BodyKind) == 0
    ensures var events := Events(Run(c.Call(request)).steps);
            |events| == 2 && events[0].id == Some(-694605769) && events[1].id == Some(1204198089)
            && events[0].level == Information && events[1].level == Warning
  {
    RefusalTrace(c.Call(request));
  }

  /**
   * Allowed, `LoggedCommandHandler<TRequest>` logs the entering and completed `LogHandler`
   * events (ids -694605769 and 1527975633, both at Information) and returns as
   * `OnExecute` does.
   */
  lemma ParameterizedLoggedCommandHandlerSucceeds<R>(c: ParameterizedLoggedCommandHandler<R>, request: R)
    requires Allows(c.guard, request) && c.onExecute(request).Returned?
    ensures Run(c.Call(request)).outcome == c.onExecute(request)
    ensures var events := Events(Run(c.Call(request)).steps);
            |events| == 2 && events[0].id == Some(-694605769) && events[1].id == Some(1527975633)
            && events[0].level == Information && events[1].level == Information
            && events[0].request == Some(request) && events[1].request == Some(request)
  {
    SuccessTrace(c.Call(request), c.onExecute(request).value);
    EventsIdentifyInvocation(c.Call(request));
  }

  /**
   * Allowed, when `OnExecute` throws, `LoggedCommandHandler<TRequest>` logs the entering and
   * failed `LogHandler` events (ids -694605769 and 1841231565, the second at Error,
   * neither with the exception) and rethrows that same exception.
   */
  lemma ParameterizedLoggedCommandHandlerFails<R>(c: ParameterizedLoggedCommandHandler<R>, request: R)
    requires Allows(c.guard, request) && c.onExecute(request).Threw?
    ensures Run(c.Call(request)).outcome == c.onExecute(request)
    ensures var events := Events(Run(c.Call(request)).steps);
            |events| == 2 && events[0].id == Some(-694605769) && events[1].id == Some(1841231565)
            && events[1].level == Error && events[1].cause == None
  {
    FailureTrace(c.Call(request), c.onExecute(request).error);
  }

}
