/**
 * The logged command services of src/Commanding/LoggedCommandService.cs.
 * Unlike the other logged variants, `Execute` writes its own log calls, with
 * no event id: `LogInformation` for executing and executed, each only when
 * `IsEnabled(Information)` holds; `LogWarning` for cannot-execute; and
 * `LogError` for failed-to-execute, handing the logger the exception
 * `OnExecute` threw. The parameters are logged under `{@Parameters}`.
 */
module LoggedCommandServices {
  import opened Wrappers
  import opened Exceptions
  import opened LogHandler
  import opened Logging
  import opened Gate

  /** `LoggedCommandService`: refused, it throws a `CommandException` itself. */
  class LoggedCommandService {
    const logger: Journal<()>
    const typeName: string      // `GetType().Name`, the name the events carry
    const commandName: string   // the action's `CommandName`, the name its exceptions carry
    const guard: Guard<()>
    const onExecute: Outcome<()>

    constructor (logger: Journal<()>, typeName: string, commandName: string, guard: Guard<()>,
                 onExecute: Outcome<()>)
      ensures this.logger == logger && this.typeName == typeName && this.commandName == commandName
      ensures this.guard == guard && this.onExecute == onExecute
    {
      this.logger := logger;
      this.typeName := typeName;
      this.commandName := commandName;
      this.guard := guard;
      this.onExecute := onExecute;
    }

    /** The invocation `Execute()` performs, as the protocol sees it. */
    function Call(): Invocation<(), ()>
    {
      Invocation(InlineService, typeName, None, logger.enabled, Allows(guard, ()),
                 Throw(FromAction(commandName)), onExecute)
    }

    method CanExecute() returns (allowed: bool)
      modifies logger
      ensures logger.steps == old(logger.steps) + [GuardEvaluated]
      ensures allowed == Allows(guard, ())
    {
      logger.Record(GuardEvaluated);
      allowed := Allows(guard, ());
    }

    method OnExecute() returns (outcome: Outcome<()>)
      modifies logger
      ensures logger.steps == old(logger.steps) + [BodyRan]
      ensures outcome == onExecute
    {
      logger.Record(BodyRan);
      outcome := onExecute;
    }

    /** The try/catch around `OnExecute`: completion or failure is logged and the outcome passed on. */
    method TryOnExecute() returns (outcome: Outcome<()>)
      modifies logger
      ensures logger.steps == old(logger.steps) + Attempt(Call())
      ensures outcome == onExecute
    {
      ghost var inv := Call();
      outcome := OnExecute();
      if outcome.Returned? {
        ServiceEmits(inv, Completed, None);
        if logger.IsEnabled(Information) {
          logger.Log(ServiceEvent(Completed, typeName, None, None));
        }
      } else {
        ServiceEmits(inv, Failed, Some(outcome.error));
        logger.Log(ServiceEvent(Failed, typeName, None, Some(outcome.error)));
      }
    }

    /** `Execute`: its steps and its outcome are the protocol's for this variant. */
    method Execute() returns (outcome: Outcome<()>)
      modifies logger
      ensures logger.steps == old(logger.steps) + Run(Call()).steps
      ensures outcome == Run(Call()).outcome
    {
      ghost var inv := Call();
      ghost var start := logger.steps;
      ServiceEmits(inv, Entering, None);
      if logger.IsEnabled(Information) {
        logger.Log(ServiceEvent(Entering, typeName, None, None));
      }
      var allowed := CanExecute();
      ghost var done := Emit(inv, Entering, None) + [GuardEvaluated];
      assert logger.steps == start + done;
      if !allowed {
        ServiceEmits(inv, Cannot, None);
        logger.Log(ServiceEvent(Cannot, typeName, None, None));
        done := done + Emit(inv, Cannot, None);
        assert logger.steps == start + done;
        ThrowRun(inv, FromAction(commandName));
        return Threw(FromAction(commandName));
      }
      AllowedRun(inv);
      outcome := TryOnExecute();
      AppendAssoc(start, done, Attempt(inv));
    }
  }

  /**
   * Refused, `LoggedCommandService` logs cannot-execute (and executing when Information is enabled),
   * throws a `CommandException` naming the action and never runs `OnExecute`.
   */
  lemma LoggedCommandServiceRefuses(c: LoggedCommandService)
    requires !Allows(c.guard, ())
    ensures Run(c.Call()).outcome == Threw(FromAction(c.commandName))
    ensures Count(Run(c.Call()).steps, BodyKind) == 0
    ensures Stages(Events(Run(c.Call()).steps)) == (if Information in c.logger.enabled then [Entering] else []) + [Cannot]
  {
    RefusalStopsBody(c.Call());
  }

  /**
   * Allowed, with Information enabled, `LoggedCommandService` logs executing and executed,
   * both at Information and without an event id, and returns as `OnExecute` does.
   */
  lemma LoggedCommandServiceSucceeds(c: LoggedCommandService)
    requires Allows(c.guard, ()) && c.onExecute.Returned? && Information in c.logger.enabled
    ensures Run(c.Call()).outcome == c.onExecute
    ensures var events := Events(Run(c.Call()).steps);
            |events| == 2 && events[0].stage == Entering && events[1].stage == Completed
            && events[0].id == None && events[1].id == None
            && events[0].level == Information && events[1].level == Information
            && events[0].request == None && events[1].request == None
  {
    SuccessTrace(c.Call(), c.onExecute.value);
    EventsIdentifyInvocation(c.Call());
  }

  /**
   * Allowed, when `OnExecute` throws, `LoggedCommandService` hands that exception to
   * the logger with its failed event at Error, and rethrows it, whatever
   * levels are enabled.
   */
  lemma LoggedCommandServiceFails(c: LoggedCommandService)
    requires Allows(c.guard, ()) && c.onExecute.Threw?
    ensures Run(c.Call()).outcome == c.onExecute
    ensures var events := Events(Run(c.Call()).steps);
            |events| > 0 && events[|events| - 1].stage == Failed && events[|events| - 1].level == Error
            && events[|events| - 1].cause == Some(c.onExecute.error)
  {
    ClosingEventLast(c.Call());
  }

  /** `LoggedCommandService<TParameters>`: refused, it calls `OnCommandException`. */
  class ParameterizedLoggedCommandService<R> {
    const logger: Journal<R>
    const typeName: string      // `GetType().Name`, the name the events carry
    const commandName: string   // the action's `CommandName`, the name its exceptions carry
    const guard: Guard<R>
    const hook: Hook<R>
    const onExecute: R -> Outcome<()>

    constructor (logger: Journal<R>, typeName: string, commandName: string, guard: Guard<R>, hook: Hook<R>,
                 onExecute: R -> Outcome<()>)
      ensures this.logger == logger && this.typeName == typeName && this.commandName == commandName
      ensures this.guard == guard && this.hook == hook && this.onExecute == onExecute
    {
      this.logger := logger;
      this.typeName := typeName;
      this.commandName := commandName;
      this.guard := guard;
      this.hook := hook;
      this.onExecute := onExecute;
    }

    /** The default hook's exception: `CommandException<TParameters>`. */
    function DefaultError(): Exception
    {
      TypedCommandException(commandName)
    }

    /** The invocation `Execute(request)` performs, as the protocol sees it. */
    function Call(request: R): Invocation<R, ()>
    {
      Invocation(InlineService, typeName, Some(request), logger.enabled, Allows(guard, request),
                 Hook(HookResult(hook, request, DefaultError())), onExecute(request))
    }

    method CanExecute(request: R) returns (allowed: bool)
      modifies logger
      ensures logger.steps == old(logger.steps) + [GuardEvaluated]
      ensures allowed == Allows(guard, request)
    {
      logger.Record(GuardEvaluated);
      allowed := Allows(guard, request);
    }

    method OnCommandException(request: R) returns (thrown: Option<Exception>)
      modifies logger
      ensures logger.steps == old(logger.steps) + [HookCalled]
      ensures thrown == HookResult(hook, request, DefaultError())
    {
      logger.Record(HookCalled);
      thrown := HookResult(hook, request, DefaultError());
    }

    method OnExecute(request: R) returns (outcome: Outcome<()>)
      modifies logger
      ensures logger.steps == old(logger.steps) + [BodyRan]
      ensures outcome == onExecute(request)
    {
      logger.Record(BodyRan);
      outcome := onExecute(request);
    }

    /** The try/catch around `OnExecute`: completion or failure is logged and the outcome passed on. */
    method TryOnExecute(request: R) returns (outcome: Outcome<()>)
      modifies logger
      ensures logger.steps == old(logger.steps) + Attempt(Call(request))
      ensures outcome == onExecute(request)
    {
      ghost var inv := Call(request);
      outcome := OnExecute(request);
      if outcome.Returned? {
        ServiceEmits(inv, Completed, None);
        if logger.IsEnabled(Information) {
          logger.Log(ServiceEvent(Completed, typeName, Some(request), None));
        }
      } else {
        ServiceEmits(inv, Failed, Some(outcome.error));
        logger.Log(ServiceEvent(Failed, typeName, Some(request), Some(outcome.error)));
      }
    }

    /** `Execute`: its steps and its outcome are the protocol's for this variant. */
    method Execute(request: R) returns (outcome: Outcome<()>)
      modifies logger
      ensures logger.steps == old(logger.steps) + Run(Call(request)).steps
      ensures outcome == Run(Call(request)).outcome
    {
      ghost var inv := Call(request);
      ghost var start := logger.steps;
      ServiceEmits(inv, Entering, None);
      if logger.IsEnabled(Information) {
        logger.Log(ServiceEvent(Entering, typeName, Some(request), None));
      }
      var allowed := CanExecute(request);
      ghost var done := Emit(inv, Entering, None) + [GuardEvaluated];
      assert logger.steps == start + done;
      if !allowed {
        ServiceEmits(inv, Cannot, None);
        logger.Log(ServiceEvent(Cannot, typeName, Some(request), None));
        var thrown := OnCommandException(request);
        done := done + Emit(inv, Cannot, None) + [HookCalled];
        assert logger.steps == start + done;
        if thrown.Some? {
          HookThrewRun(inv, thrown.value);
          return Threw(thrown.value);
        }
        BypassedRun(inv);
      } else {
        AllowedRun(inv);
      }
      outcome := TryOnExecute(request);
      AppendAssoc(start, done, Attempt(inv));
    }
  }

  /**
   * Refused with the default hook, `LoggedCommandService<TParameters>` logs cannot-execute (and executing when Information is enabled),
   * throws `CommandException<TParameters>` and never runs `OnExecute`.
   */
  lemma ParameterizedLoggedCommandServiceRefuses<R>(c: ParameterizedLoggedCommandService<R>, request: R)
    requires !Allows(c.guard, request) && c.hook.DefaultHook?
    ensures Run(c.Call(request)).outcome == Threw(TypedCommandException(c.commandName))
    ensures Count(Run(c.Call(request)).steps, BodyKind) == 0
    ensures Stages(Events(Run(c.Call(request)).steps)) == (if Information in c.logger.enabled then [Entering] else []) + [Cannot]
  {
    RefusalStopsBody(c.Call(request));
  }

  /**
   * Allowed, with Information enabled, `LoggedCommandService<TParameters>` logs executing and executed,
   * both at Information and without an event id, and returns as `OnExecute` does.
   */
  lemma ParameterizedLoggedCommandServiceSucceeds<R>(c: ParameterizedLoggedCommandService<R>, request: R)
    requires Allows(c.guard, request) && c.onExecute(request).Returned? && Information in c.logger.enabled
    ensures Run(c.Call(request)).outcome == c.onExecute(request)
    ensures var events := Events(Run(c.Call(request)).steps);
            |events| == 2 && events[0].stage == Entering && events[1].stage == Completed
            && events[0].id == None && events[1].id == None
            && events[0].level == Information && events[1].level == Information
            && events[0].request == Some(request) && events[1].request == Some(request)
  {
    SuccessTrace(c.Call(request), c.onExecute(request).value);
    EventsIdentifyInvocation(c.Call(request));
  }

  /**
   * Allowed, when `OnExecute` throws, `LoggedCommandService<TParameters>` hands that exception to
   * the logger with its failed event at Error, and rethrows it, whatever
   * levels are enabled.
   */
  lemma ParameterizedLoggedCommandServiceFails<R>(c: ParameterizedLoggedCommandService<R>, request: R)
    requires Allows(c.guard, request) && c.onExecute(request).Threw?
    ensures Run(c.Call(request)).outcome == c.onExecute(request)
    ensures var events := Events(Run(c.Call(request)).steps);
            |events| > 0 && events[|events| - 1].stage == Failed && events[|events| - 1].level == Error
            && events[|events| - 1].cause == Some(c.onExecute(request).error)
  {
    ClosingEventLast(c.Call(request));
  }

}
