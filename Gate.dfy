/**
 * The "guard, then act" protocol that every `Execute` of the library runs,
 * as one specification over the variants. An invocation enters (the logged
 * variants log it), evaluates `CanExecute` once, and on a refusal logs a
 * warning and either throws a fixed exception or calls the overridable
 * `OnCommandException` hook; it then runs `OnExecute` and the logged
 * variants log completion, or log the failure and rethrow the exception.
 *
 * What the overridden members do is an input: the guard's answer, what the
 * hook does (throws its own exception, or returns) and what the body does
 * (returns a value, or throws).
 */
module Gate {
  import opened Wrappers
  import opened Exceptions
  import opened LogHandler
  import opened Logging

  /** How a variant logs: not at all, through a `LogHandler` family, or with the command service's own calls. */
  datatype Instrumentation = Unlogged | ThroughLogHandler(family: Family) | InlineService

  /**
   * What a refused invocation does next: throw a fixed exception itself (the
   * parameterless commands), or call `OnCommandException`, which throws or,
   * when overridden that way, returns.
   */
  datatype Refusal = Throw(error: Exception) | Hook(thrown: Option<Exception>)

  /** How a call ends: with a value (unit for commands) or with an exception. */
  datatype Outcome<T> = Returned(value: T) | Threw(error: Exception)

  datatype Invocation<R, T> = Invocation(
    instrumentation: Instrumentation,
    name: string,           // the name the logged variants put in their events
    request: Option<R>,     // None for the parameterless variants
    enabled: set<Level>,    // the levels the logger reports enabled
    allowed: bool,          // what CanExecute answers
    refusal: Refusal,       // what happens when it answers false
    body: Outcome<T>)       // what OnExecute does

  datatype Execution<R, T> = Execution(steps: seq<Step<R>>, outcome: Outcome<T>)

  /** The event a variant logs at a stage, whether or not the logger is asked to take it. */
  function EventAt<R, T>(inv: Invocation<R, T>, stage: Stage, cause: Option<Exception>): LogEvent<R>
    requires inv.instrumentation != Unlogged
  {
    match inv.instrumentation
    case ThroughLogHandler(f) => HandlerEvent(f, stage, inv.name, inv.request)
    case InlineService => ServiceEvent(stage, inv.name, inv.request, cause)
  }

  /**
   * Whether the variant logs a stage: the `LogHandler` variants always do;
   * the command service checks `IsEnabled(Information)` before its entering
   * and completed events only.
   */
  predicate Logs<R, T>(inv: Invocation<R, T>, stage: Stage)
  {
    match inv.instrumentation
    case Unlogged => false
    case ThroughLogHandler(_) => true
    case InlineService => (stage == Entering || stage == Completed) ==> Information in inv.enabled
  }

  function Emit<R, T>(inv: Invocation<R, T>, stage: Stage, cause: Option<Exception>): seq<Step<R>>
  {
    if Logs(inv, stage) then [Logged(EventAt(inv, stage, cause))] else []
  }

  /** Whether `OnExecute` is reached: the guard allows it, or a hook returned instead of throwing. */
  predicate Proceeds<R, T>(inv: Invocation<R, T>)
  {
    inv.allowed || inv.refusal == Hook(None)
  }

  /** The exception a refusal ends with, if it ends the invocation. */
  function RefusalError(r: Refusal): Option<Exception>
  {
    match r
    case Throw(e) => Some(e)
    case Hook(thrown) => thrown
  }

  /**
   * An overridable `CanExecute`: the base classes' default answers true for
   * every request; a concrete action may override it with its own test.
   */
  datatype Guard<!R> = DefaultGuard | OverriddenGuard(canExecute: R -> bool)

  function Allows<R>(g: Guard<R>, request: R): (allowed: bool)
    ensures g.DefaultGuard? ==> allowed
  {
    match g
    case DefaultGuard => true
    case OverriddenGuard(canExecute) => canExecute(request)
  }

  /**
   * An overridable `OnCommandException`: the default throws the variant's
   * guard-failure exception; an override throws its own exception (`Some`)
   * or returns normally (`None`).
   */
  datatype Hook<!R> = DefaultHook | OverriddenHook(onCommandException: R -> Option<Exception>)

  function HookResult<R>(h: Hook<R>, request: R, defaultError: Exception): (thrown: Option<Exception>)
    ensures h.DefaultHook? ==> thrown == Some(defaultError)
  {
    match h
    case DefaultHook => Some(defaultError)
    case OverriddenHook(onCommandException) => onCommandException(request)
  }

  /** A `LogHandler` variant logs every stage with its family's entry. */
  lemma HandlerEmits<R, T>(inv: Invocation<R, T>, f: Family, stage: Stage, cause: Option<Exception>)
    requires inv.instrumentation == ThroughLogHandler(f)
    ensures Emit(inv, stage, cause) == [Logged(HandlerEvent(f, stage, inv.name, inv.request))]
  {
  }

  /**
   * The command service logs a stage with its own call, and the entering and
   * completed stages only when Information is enabled.
   */
  lemma ServiceEmits<R, T>(inv: Invocation<R, T>, stage: Stage, cause: Option<Exception>)
    requires inv.instrumentation == InlineService
    ensures Emit(inv, stage, cause)
         == if (stage == Entering || stage == Completed) && Information !in inv.enabled then []
            else [Logged(ServiceEvent(stage, inv.name, inv.request, cause))]
  {
  }

  /** An unlogged variant logs no stage. */
  lemma SilentEmits<R, T>(inv: Invocation<R, T>, stage: Stage, cause: Option<Exception>)
    requires inv.instrumentation == Unlogged
    ensures Emit(inv, stage, cause) == []
  {
  }

  /** The journal steps and the outcome of one invocation. */
  function Run<R, T>(inv: Invocation<R, T>): Execution<R, T>
  {
    var checked := Emit(inv, Entering, None) + [GuardEvaluated];
    if inv.allowed then Act(inv, checked)
    else
      var warned := checked + Emit(inv, Cannot, None);
      match inv.refusal
      case Throw(e) => Execution(warned, Threw(e))
      case Hook(Some(e)) => Execution(warned + [HookCalled], Threw(e))
      case Hook(None) => Act(inv, warned + [HookCalled])
  }

  /** Running `OnExecute` after the steps so far; its outcome is the invocation's. */
  function Act<R, T>(inv: Invocation<R, T>, before: seq<Step<R>>): Execution<R, T>
  {
    Execution(before + Attempt(inv), inv.body)
  }

  /**
   * The steps of the logged variants' try/catch: `OnExecute`, then the
   * completed event, or the failed event before the exception is rethrown.
   */
  function Attempt<R, T>(inv: Invocation<R, T>): seq<Step<R>>
  {
    match inv.body
    case Returned(_) => [BodyRan] + Emit(inv, Completed, None)
    case Threw(e) => [BodyRan] + Emit(inv, Failed, Some(e))
  }

  /** An allowed invocation runs `OnExecute` right after the guard. */
  lemma AllowedRun<R, T>(inv: Invocation<R, T>)
    requires inv.allowed
    ensures Run(inv) == Act(inv, Emit(inv, Entering, None) + [GuardEvaluated])
  {
  }

  /** A refused invocation whose hook returned runs `OnExecute` after the hook. */
  lemma BypassedRun<R, T>(inv: Invocation<R, T>)
    requires !inv.allowed && inv.refusal == Hook(None)
    ensures Run(inv) == Act(inv, Emit(inv, Entering, None) + [GuardEvaluated] + Emit(inv, Cannot, None) + [HookCalled])
  {
  }

  /** A refused invocation whose hook threw ends with the hook's exception. */
  lemma HookThrewRun<R, T>(inv: Invocation<R, T>, e: Exception)
    requires !inv.allowed && inv.refusal == Hook(Some(e))
    ensures Run(inv) == Execution(Emit(inv, Entering, None) + [GuardEvaluated] + Emit(inv, Cannot, None) + [HookCalled], Threw(e))
  {
  }

  /** A refused invocation without a hook ends with the variant's own exception. */
  lemma ThrowRun<R, T>(inv: Invocation<R, T>, e: Exception)
    requires !inv.allowed && inv.refusal == Throw(e)
    ensures Run(inv) == Execution(Emit(inv, Entering, None) + [GuardEvaluated] + Emit(inv, Cannot, None), Threw(e))
  {
  }

  // ---------------------------------------------------------------------
  // Counting steps
  // ---------------------------------------------------------------------

  lemma EmitCounts<R, T>(inv: Invocation<R, T>, stage: Stage, cause: Option<Exception>)
    ensures Count(Emit(inv, stage, cause), GuardKind) == 0
    ensures Count(Emit(inv, stage, cause), HookKind) == 0
    ensures Count(Emit(inv, stage, cause), BodyKind) == 0
    ensures Events(Emit(inv, stage, cause)) == if Logs(inv, stage) then [EventAt(inv, stage, cause)] else []
  {
    var s := Emit(inv, stage, cause);
    if Logs(inv, stage) {
      assert s[1..] == [];
    }
  }

  lemma SingleCounts<R>(s: Step<R>)
    requires !s.Logged?
    ensures Events([s]) == []
    ensures Count([s], KindOf(s)) == 1
    ensures forall k :: k != KindOf(s) ==> Count([s], k) == 0
  {
    assert [s][1..] == [];
  }

  /**
   * Every `Execute` evaluates the guard exactly once; it calls the hook once
   * when the guard refuses and the variant has a hook, and never otherwise;
   * it runs `OnExecute` once when the guard allows it or a hook returned,
   * and never otherwise.
   */
  lemma {:induction false} CallCounts<R, T>(inv: Invocation<R, T>)
    ensures Count(Run(inv).steps, GuardKind) == 1
    ensures Count(Run(inv).steps, HookKind) == if !inv.allowed && inv.refusal.Hook? then 1 else 0
    ensures Count(Run(inv).steps, BodyKind) == if Proceeds(inv) then 1 else 0
  {
    forall k | k != LogKind
      ensures Count(Run(inv).steps, k) == (if k == GuardKind then 1 else 0)
                                          + (if k == HookKind && !inv.allowed && inv.refusal.Hook? then 1 else 0)
                                          + (if k == BodyKind && Proceeds(inv) then 1 else 0)
    {
      StepCounts(inv, k);
    }
  }

  lemma {:induction false} StepCounts<R, T>(inv: Invocation<R, T>, k: Kind)
    requires k != LogKind
    ensures Count(Run(inv).steps, k) == (if k == GuardKind then 1 else 0)
                                        + (if k == HookKind && !inv.allowed && inv.refusal.Hook? then 1 else 0)
                                        + (if k == BodyKind && Proceeds(inv) then 1 else 0)
  {
    var entering := Emit(inv, Entering, None);
    var cannot := Emit(inv, Cannot, None);
    EmitCounts(inv, Entering, None);
    EmitCounts(inv, Cannot, None);
    SingleCounts<R>(GuardEvaluated);
    SingleCounts<R>(HookCalled);
    CountAppend(entering, [GuardEvaluated], k);
    var checked := entering + [GuardEvaluated];
    if inv.allowed {
      ActCounts(inv, checked, k);
    } else {
      CountAppend(checked, cannot, k);
      var warned := checked + cannot;
      match inv.refusal {
        case Throw(e) =>
        case Hook(Some(e)) =>
          CountAppend(warned, [HookCalled], k);
        case Hook(None) =>
          CountAppend(warned, [HookCalled], k);
          ActCounts(inv, warned + [HookCalled], k);
      }
    }
  }

  lemma {:induction false} ActCounts<R, T>(inv: Invocation<R, T>, before: seq<Step<R>>, k: Kind)
    requires k != LogKind
    ensures Count(Act(inv, before).steps, k) == Count(before, k) + (if k == BodyKind then 1 else 0)
  {
    var stage := if inv.body.Returned? then Completed else Failed;
    var cause := if inv.body.Returned? then None else Some(inv.body.error);
    SingleCounts<R>(BodyRan);
    EmitCounts(inv, stage, cause);
    CountAppend([BodyRan], Emit(inv, stage, cause), k);
    CountAppend(before, [BodyRan] + Emit(inv, stage, cause), k);
  }

  // ---------------------------------------------------------------------
  // The log events of an invocation
  // ---------------------------------------------------------------------

  /** The events logged at a stage: those of the steps `Emit` adds, zero or one. */
  function Shown<R, T>(inv: Invocation<R, T>, stage: Stage, cause: Option<Exception>): seq<LogEvent<R>>
  {
    Events(Emit(inv, stage, cause))
  }

  /** The stage and cause of the event that closes a body's run. */
  function Closing<T>(body: Outcome<T>): (Stage, Option<Exception>)
  {
    match body
    case Returned(_) => (Completed, None)
    case Threw(e) => (Failed, Some(e))
  }

  /**
   * The events of an invocation: entering; cannot, when the guard refuses;
   * completed or failed, when the body runs.
   */
  lemma {:induction false} RunEvents<R, T>(inv: Invocation<R, T>)
    ensures Events(Run(inv).steps)
         == Shown(inv, Entering, None)
            + (if inv.allowed then [] else Shown(inv, Cannot, None))
            + (if Proceeds(inv) then Shown(inv, Closing(inv.body).0, Closing(inv.body).1) else [])
  {
    var (stage, cause) := Closing(inv.body);
    var checked := Emit(inv, Entering, None) + [GuardEvaluated];
    var warned := checked + Emit(inv, Cannot, None);
    LeadEvents(inv);
    if inv.allowed {
      assert Run(inv) == Act(inv, checked);
      ActEvents(inv, checked);
      assert Events(Run(inv).steps) == Shown(inv, Entering, None) + Shown(inv, stage, cause);
    } else if inv.refusal == Hook(None) {
      assert Run(inv) == Act(inv, warned + [HookCalled]);
      ActEvents(inv, warned + [HookCalled]);
      assert Events(Run(inv).steps) == Shown(inv, Entering, None) + Shown(inv, Cannot, None) + Shown(inv, stage, cause);
    } else {
      assert Events(Run(inv).steps) == Shown(inv, Entering, None) + Shown(inv, Cannot, None);
    }
  }

  /** The events of the steps before `OnExecute` (or before the refusal's exception). */
  lemma {:induction false} LeadEvents<R, T>(inv: Invocation<R, T>)
    ensures Events(Emit(inv, Entering, None) + [GuardEvaluated]) == Shown(inv, Entering, None)
    ensures Events(Emit(inv, Entering, None) + [GuardEvaluated] + Emit(inv, Cannot, None))
         == Shown(inv, Entering, None) + Shown(inv, Cannot, None)
    ensures Events(Emit(inv, Entering, None) + [GuardEvaluated] + Emit(inv, Cannot, None) + [HookCalled])
         == Shown(inv, Entering, None) + Shown(inv, Cannot, None)
  {
    var entering := Emit(inv, Entering, None);
    var cannot := Emit(inv, Cannot, None);
    EmitCounts(inv, Entering, None);
    EmitCounts(inv, Cannot, None);
    SingleCounts<R>(GuardEvaluated);
    SingleCounts<R>(HookCalled);
    EventsAppend(entering, [GuardEvaluated]);
    var checked := entering + [GuardEvaluated];
    EventsAppend(checked, cannot);
    EventsAppend(checked + cannot, [HookCalled]);
  }

  lemma {:induction false} ActEvents<R, T>(inv: Invocation<R, T>, before: seq<Step<R>>)
    ensures Events(Act(inv, before).steps) == Events(before) + Shown(inv, Closing(inv.body).0, Closing(inv.body).1)
  {
    var (stage, cause) := Closing(inv.body);
    SingleCounts<R>(BodyRan);
    EmitCounts(inv, stage, cause);
    EventsAppend([BodyRan], Emit(inv, stage, cause));
    EventsAppend(before, [BodyRan] + Emit(inv, stage, cause));
  }

  /** The stages logged at a stage: itself, or nothing when the variant does not log it. */
  function ShownStage<R, T>(inv: Invocation<R, T>, stage: Stage): seq<Stage>
  {
    if Logs(inv, stage) then [stage] else []
  }

  /** The stages an invocation logs, in order. */
  lemma {:induction false} RunStages<R, T>(inv: Invocation<R, T>)
    ensures Stages(Events(Run(inv).steps))
         == ShownStage(inv, Entering)
            + (if inv.allowed then [] else ShownStage(inv, Cannot))
            + (if Proceeds(inv) then ShownStage(inv, Closing(inv.body).0) else [])
  {
    RunEvents(inv);
    var (stage, cause) := Closing(inv.body);
    var a := Shown(inv, Entering, None);
    var b := if inv.allowed then [] else Shown(inv, Cannot, None);
    var c := if Proceeds(inv) then Shown(inv, stage, cause) else [];
    StagesAppend(a + b, c);
    StagesAppend(a, b);
    ShownStages(inv, Entering, None);
    ShownStages(inv, Cannot, None);
    ShownStages(inv, stage, cause);
  }

  lemma ShownStages<R, T>(inv: Invocation<R, T>, stage: Stage, cause: Option<Exception>)
    ensures Stages(Shown(inv, stage, cause)) == ShownStage(inv, stage)
  {
    if Logs(inv, stage) {
      assert Shown(inv, stage, cause)[1..] == [];
    }
  }

  // ---------------------------------------------------------------------
  // Properties of every variant
  // ---------------------------------------------------------------------

  /**
   * The entering event, when logged, is the first step, and the guard is
   * evaluated right after it: before the hook, the body or any other event.
   */
  lemma EnteringBeforeGuard<R, T>(inv: Invocation<R, T>)
    ensures var n := if Logs(inv, Entering) then 1 else 0;
            |Run(inv).steps| > n && Run(inv).steps[n] == GuardEvaluated
            && (n == 1 ==> Run(inv).steps[0] == Logged(EventAt(inv, Entering, None)))
  {
  }

  /**
   * With the guard allowing it, `Execute` ends exactly as `OnExecute` does:
   * its value is returned and its exception rethrown, unchanged. Refused,
   * it ends with the refusal's exception, unless a hook returned, in which
   * case `OnExecute` runs and decides the outcome all the same.
   */
  lemma OutcomeOfRun<R, T>(inv: Invocation<R, T>)
    ensures Proceeds(inv) ==> Run(inv).outcome == inv.body
    ensures !Proceeds(inv) ==> RefusalError(inv.refusal).Some?
                               && Run(inv).outcome == Threw(RefusalError(inv.refusal).value)
  {
  }

  /** `OnExecute` never runs on a refusal that throws, whether the exception is fixed or the hook's. */
  lemma {:induction false} RefusalStopsBody<R, T>(inv: Invocation<R, T>)
    requires !inv.allowed && inv.refusal != Hook(None)
    ensures Count(Run(inv).steps, BodyKind) == 0
    ensures Run(inv).outcome == Threw(RefusalError(inv.refusal).value)
    ensures Stages(Events(Run(inv).steps)) == (if Logs(inv, Entering) then [Entering] else [])
                                              + (if Logs(inv, Cannot) then [Cannot] else [])
  {
    CallCounts(inv);
    RunEvents(inv);
  }

  /** A hook that returns normally lets `OnExecute` run, and its outcome is the invocation's. */
  lemma {:induction false} HookBypass<R, T>(inv: Invocation<R, T>)
    requires !inv.allowed && inv.refusal == Hook(None)
    ensures Count(Run(inv).steps, HookKind) == 1 && Count(Run(inv).steps, BodyKind) == 1
    ensures Run(inv).outcome == inv.body
  {
    CallCounts(inv);
  }

  /** A variant that logs: through `LogHandler`, or the command service with Information enabled. */
  predicate Verbose<R, T>(inv: Invocation<R, T>)
  {
    inv.instrumentation != Unlogged && (inv.instrumentation == InlineService ==> Information in inv.enabled)
  }

  /** Success: exactly [entering, completed], both Information, and the body's value returned. */
  lemma {:induction false} SuccessTrace<R, T>(inv: Invocation<R, T>, v: T)
    requires Verbose(inv) && inv.allowed && inv.body == Returned(v)
    ensures Events(Run(inv).steps) == [EventAt(inv, Entering, None), EventAt(inv, Completed, None)]
    ensures Stages(Events(Run(inv).steps)) == [Entering, Completed]
    ensures forall e <- Events(Run(inv).steps) :: e.level == Information
    ensures Run(inv).outcome == Returned(v)
  {
    RunEvents(inv);
  }

  /** Refusal that throws: exactly [entering, cannot (Warning)], the refusal's exception, no body. */
  lemma {:induction false} RefusalTrace<R, T>(inv: Invocation<R, T>)
    requires Verbose(inv) && !inv.allowed && inv.refusal != Hook(None)
    ensures Events(Run(inv).steps) == [EventAt(inv, Entering, None), EventAt(inv, Cannot, None)]
    ensures EventAt(inv, Cannot, None).level == Warning
    ensures Count(Run(inv).steps, BodyKind) == 0
    ensures Run(inv).outcome == Threw(RefusalError(inv.refusal).value)
  {
    RunEvents(inv);
    CallCounts(inv);
  }

  /** Failure of the body: exactly [entering, failed (Error)], and that same exception rethrown. */
  lemma {:induction false} FailureTrace<R, T>(inv: Invocation<R, T>, e: Exception)
    requires Verbose(inv) && inv.allowed && inv.body == Threw(e)
    ensures Events(Run(inv).steps) == [EventAt(inv, Entering, None), EventAt(inv, Failed, Some(e))]
    ensures EventAt(inv, Failed, Some(e)).level == Error
    ensures Run(inv).outcome == Threw(e)
  {
    RunEvents(inv);
  }

  /** When the body runs and its closing stage is logged, the closing event is the last one. */
  lemma {:induction false} ClosingEventLast<R, T>(inv: Invocation<R, T>)
    requires Proceeds(inv) && Logs(inv, Closing(inv.body).0)
    ensures var events := Events(Run(inv).steps);
            |events| > 0 && events[|events| - 1] == EventAt(inv, Closing(inv.body).0, Closing(inv.body).1)
  {
    RunEvents(inv);
    EmitCounts(inv, Closing(inv.body).0, Closing(inv.body).1);
  }

  /**
   * No invocation logs both completion and failure, and a refusal that
   * throws is never logged as a failure: the refusal happens outside the
   * try/catch around `OnExecute`.
   */
  lemma {:induction false} AtMostOneClosingEvent<R, T>(inv: Invocation<R, T>)
    ensures !(Completed in Stages(Events(Run(inv).steps)) && Failed in Stages(Events(Run(inv).steps)))
    ensures !Proceeds(inv) ==> Failed !in Stages(Events(Run(inv).steps))
                               && Completed !in Stages(Events(Run(inv).steps))
  {
    RunStages(inv);
    var lead := ShownStage(inv, Entering) + (if inv.allowed then [] else ShownStage(inv, Cannot));
    assert Completed !in lead && Failed !in lead;
    if Proceeds(inv) {
      var closing := ShownStage(inv, Closing(inv.body).0);
      assert Stages(Events(Run(inv).steps)) == lead + closing;
      if inv.body.Returned? {
        assert Failed !in closing;
      } else {
        assert Completed !in closing;
      }
    } else {
      assert Stages(Events(Run(inv).steps)) == lead;
    }
  }

  /** What each logged event of a stage carries. */
  lemma ShownFacts<R, T>(inv: Invocation<R, T>, stage: Stage, cause: Option<Exception>)
    ensures forall e <- Shown(inv, stage, cause) ::
              e.stage == stage && e.name == inv.name && e.request == inv.request
              && e.level == StageLevel(stage)
              && e.cause == (if inv.instrumentation == InlineService && stage == Failed then cause else None)
  {
  }

  /**
   * Every event of an invocation carries the variant's name and the
   * invocation's request, and its level is the level of its stage.
   */
  lemma {:induction false} EventsIdentifyInvocation<R, T>(inv: Invocation<R, T>)
    ensures forall e <- Events(Run(inv).steps) ::
              e.name == inv.name && e.request == inv.request && e.level == StageLevel(e.stage)
  {
    RunEvents(inv);
    var (stage, cause) := Closing(inv.body);
    ShownFacts(inv, Entering, None);
    ShownFacts(inv, Cannot, None);
    ShownFacts(inv, stage, cause);
  }

  /**
   * Only the command service hands the logger an exception, and only with
   * its failed event, where it is the exception `OnExecute` threw; the
   * `LogHandler` variants never pass one.
   */
  lemma {:induction false} FailureCause<R, T>(inv: Invocation<R, T>)
    ensures forall e <- Events(Run(inv).steps) ::
              e.cause == (if inv.instrumentation == InlineService && e.stage == Failed && inv.body.Threw?
                          then Some(inv.body.error) else None)
  {
    RunEvents(inv);
    var (stage, cause) := Closing(inv.body);
    ShownFacts(inv, Entering, None);
    ShownFacts(inv, Cannot, None);
    ShownFacts(inv, stage, cause);
  }

  /** The command service logs entering and completed only when Information is enabled. */
  lemma {:induction false} ServiceInformationGate<R, T>(inv: Invocation<R, T>)
    requires inv.instrumentation == InlineService
    ensures Entering in Stages(Events(Run(inv).steps)) <==> Information in inv.enabled
    ensures Completed in Stages(Events(Run(inv).steps))
        <==> Proceeds(inv) && inv.body.Returned? && Information in inv.enabled
  {
    RunStages(inv);
    ServiceStages(inv, Stages(Events(Run(inv).steps)));
  }

  lemma ServiceStages<R, T>(inv: Invocation<R, T>, stages: seq<Stage>)
    requires inv.instrumentation == InlineService
    requires stages == ShownStage(inv, Entering)
                       + (if inv.allowed then [] else ShownStage(inv, Cannot))
                       + (if Proceeds(inv) then ShownStage(inv, Closing(inv.body).0) else [])
    ensures Entering in stages <==> Information in inv.enabled
    ensures Completed in stages <==> Proceeds(inv) && inv.body.Returned? && Information in inv.enabled
    ensures Cannot in stages <==> !inv.allowed
    ensures Failed in stages <==> Proceeds(inv) && inv.body.Threw?
  {
    var entering := if Information in inv.enabled then [Entering] else [];
    var completed := if Information in inv.enabled then [Completed] else [];
    assert ShownStage(inv, Entering) == entering;
    if inv.allowed && inv.body.Returned? {
      assert stages == entering + completed;
    } else if inv.allowed {
      assert stages == entering + [Failed];
    } else if !Proceeds(inv) {
      assert stages == entering + [Cannot];
    } else if inv.body.Returned? {
      assert stages == entering + [Cannot] + completed;
    } else {
      assert stages == entering + [Cannot, Failed];
    }
  }

  /** The command service logs cannot and failed whatever levels are enabled. */
  lemma {:induction false} ServiceWarningsAndErrors<R, T>(inv: Invocation<R, T>)
    requires inv.instrumentation == InlineService
    ensures Cannot in Stages(Events(Run(inv).steps)) <==> !inv.allowed
    ensures Failed in Stages(Events(Run(inv).steps)) <==> Proceeds(inv) && inv.body.Threw?
  {
    RunStages(inv);
    ServiceStages(inv, Stages(Events(Run(inv).steps)));
  }
  /** An unlogged variant (the plain `Command` and `Query`) logs nothing. */
  lemma {:induction false} UnloggedIsSilent<R, T>(inv: Invocation<R, T>)
    requires inv.instrumentation == Unlogged
    ensures Events(Run(inv).steps) == []
  {
    RunEvents(inv);
  }
}
