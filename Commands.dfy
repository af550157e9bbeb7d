/**
 * The plain commands of src/Commanding/Command.cs. `Command` evaluates its
 * guard and, refused, throws a `CommandException` naming the action itself;
 * `Command<TRequest>` (here `ParameterizedCommand`) calls the overridable
 * `OnCommandException` hook instead, whose default throws
 * `CommandException<TRequest>`. Neither logs anything, and neither catches
 * what `OnExecute` throws.
 *
 * A concrete command is given by its overrides: its `CanExecute` (or the
 * default), its `OnCommandException` (or the default) and what its
 * `OnExecute` does. The journal observes the calls made to them.
 */
module Commands {
  import opened Wrappers
  import opened Exceptions
  import opened LogHandler
  import opened Logging
  import opened Gate

  class Command {
    const journal: Journal<()>
    const commandName: string
    const guard: Guard<()>
    const onExecute: Outcome<()>

    constructor (journal: Journal<()>, commandName: string, guard: Guard<()>, onExecute: Outcome<()>)
      ensures this.journal == journal && this.commandName == commandName
      ensures this.guard == guard && this.onExecute == onExecute
    {
      this.journal := journal;
      this.commandName := commandName;
      this.guard := guard;
      this.onExecute := onExecute;
    }

    /** The invocation `Execute()` performs, as the protocol sees it. */
    function Call(): Invocation<(), ()>
    {
      Invocation(Unlogged, commandName, None, journal.enabled, Allows(guard, ()),
                 Throw(FromAction(commandName)), onExecute)
    }

    method CanExecute() returns (allowed: bool)
      modifies journal
      ensures journal.steps == old(journal.steps) + [GuardEvaluated]
      ensures allowed == Allows(guard, ())
    {
      journal.Record(GuardEvaluated);
      allowed := Allows(guard, ());
    }

    method OnExecute() returns (outcome: Outcome<()>)
      modifies journal
      ensures journal.steps == old(journal.steps) + [BodyRan]
      ensures outcome == onExecute
    {
      journal.Record(BodyRan);
      outcome := onExecute;
    }

    /** `Execute`: its steps and its outcome are the protocol's for this variant. */
    method Execute() returns (outcome: Outcome<()>)
      modifies journal
      ensures journal.steps == old(journal.steps) + Run(Call()).steps
      ensures outcome == Run(Call()).outcome
    {
      ghost var inv := Call();
      ghost var start := journal.steps;
      SilentEmits(inv, Entering, None);
      SilentEmits(inv, Cannot, None);
      var allowed := CanExecute();
      ghost var done := Emit(inv, Entering, None) + [GuardEvaluated];
      assert journal.steps == start + done;
      if !allowed {
        done := done + Emit(inv, Cannot, None);
        assert journal.steps == start + done;
        ThrowRun(inv, FromAction(commandName));
        return Threw(FromAction(commandName));
      }
      AllowedRun(inv);
      outcome := OnExecute();
      if outcome.Returned? {
        SilentEmits(inv, Completed, None);
      } else {
        SilentEmits(inv, Failed, Some(outcome.error));
      }
      AppendAssoc(start, done, Attempt(inv));
    }
  }

  /**
   * Refused, `Command.Execute` throws a `CommandException` whose message
   * names the action, never runs `OnExecute` and logs nothing.
   */
  lemma CommandRefuses(c: Command)
    requires !Allows(c.guard, ())
    ensures Run(c.Call()).outcome == Threw(FromAction(c.commandName))
    ensures Count(Run(c.Call()).steps, BodyKind) == 0
    ensures Events(Run(c.Call()).steps) == []
  {
    RefusalStopsBody(c.Call());
    UnloggedIsSilent(c.Call());
  }

  /** Allowed, `Command.Execute` runs `OnExecute` once and ends as it does. */
  lemma CommandProceeds(c: Command)
    requires Allows(c.guard, ())
    ensures Run(c.Call()).outcome == c.onExecute
    ensures Count(Run(c.Call()).steps, BodyKind) == 1
  {
    CallCounts(c.Call());
  }

  class ParameterizedCommand<R> {
    const journal: Journal<R>
    const commandName: string
    const guard: Guard<R>
    const hook: Hook<R>
    const onExecute: R -> Outcome<()>

    constructor (journal: Journal<R>, commandName: string, guard: Guard<R>, hook: Hook<R>,
                 onExecute: R -> Outcome<()>)
      ensures this.journal == journal && this.commandName == commandName
      ensures this.guard == guard && this.hook == hook && this.onExecute == onExecute
    {
      this.journal := journal;
      this.commandName := commandName;
      this.guard := guard;
      this.hook := hook;
      this.onExecute := onExecute;
    }

    /** The default hook's exception: `CommandException<TRequest>` for this command. */
    function DefaultError(): Exception
    {
      TypedCommandException(commandName)
    }

    /** The invocation `Execute(parameters)` performs, as the protocol sees it. */
    function Call(request: R): Invocation<R, ()>
    {
      Invocation(Unlogged, commandName, Some(request), journal.enabled, Allows(guard, request),
                 Hook(HookResult(hook, request, DefaultError())), onExecute(request))
    }

    method CanExecute(request: R) returns (allowed: bool)
      modifies journal
      ensures journal.steps == old(journal.steps) + [GuardEvaluated]
      ensures allowed == Allows(guard, request)
    {
      journal.Record(GuardEvaluated);
      allowed := Allows(guard, request);
    }

    /** Returns the exception the hook throws, or `None` when it returns normally. */
    method OnCommandException(request: R) returns (thrown: Option<Exception>)
      modifies journal
      ensures journal.steps == old(journal.steps) + [HookCalled]
      ensures thrown == HookResult(hook, request, DefaultError())
    {
      journal.Record(HookCalled);
      thrown := HookResult(hook, request, DefaultError());
    }

    method OnExecute(request: R) returns (outcome: Outcome<()>)
      modifies journal
      ensures journal.steps == old(journal.steps) + [BodyRan]
      ensures outcome == onExecute(request)
    {
      journal.Record(BodyRan);
      outcome := onExecute(request);
    }

    /** `Execute`: its steps and its outcome are the protocol's for this variant. */
    method Execute(request: R) returns (outcome: Outcome<()>)
      modifies journal
      ensures journal.steps == old(journal.steps) + Run(Call(request)).steps
      ensures outcome == Run(Call(request)).outcome
    {
      ghost var inv := Call(request);
      ghost var start := journal.steps;
      SilentEmits(inv, Entering, None);
      SilentEmits(inv, Cannot, None);
      var allowed := CanExecute(request);
      ghost var done := Emit(inv, Entering, None) + [GuardEvaluated];
      assert journal.steps == start + done;
      if !allowed {
        var thrown := OnCommandException(request);
        done := done + Emit(inv, Cannot, None) + [HookCalled];
        assert journal.steps == start + done;
        if thrown.Some? {
          HookThrewRun(inv, thrown.value);
          return Threw(thrown.value);
        }
        BypassedRun(inv);
      } else {
        AllowedRun(inv);
      }
      outcome := OnExecute(request);
      if outcome.Returned? {
        SilentEmits(inv, Completed, None);
      } else {
        SilentEmits(inv, Failed, Some(outcome.error));
      }
      AppendAssoc(start, done, Attempt(inv));
    }
  }

  /**
   * Refused, with the default hook, `Command<TRequest>.Execute` throws
   * `CommandException<TRequest>` and never runs `OnExecute`.
   */
  lemma ParameterizedCommandRefuses<R>(c: ParameterizedCommand<R>, request: R)
    requires !Allows(c.guard, request) && c.hook.DefaultHook?
    ensures Run(c.Call(request)).outcome == Threw(TypedCommandException(c.commandName))
    ensures Count(Run(c.Call(request)).steps, BodyKind) == 0
    ensures Count(Run(c.Call(request)).steps, HookKind) == 1
  {
    RefusalStopsBody(c.Call(request));
    CallCounts(c.Call(request));
  }

  /**
   * Refused, a hook overridden to return normally does not stop the command:
   * `OnExecute` still runs, once, and decides the outcome.
   */
  lemma ParameterizedCommandHookBypass<R>(c: ParameterizedCommand<R>, request: R)
    requires !Allows(c.guard, request) && HookResult(c.hook, request, c.DefaultError()) == None
    ensures Run(c.Call(request)).outcome == c.onExecute(request)
    ensures Count(Run(c.Call(request)).steps, HookKind) == 1
    ensures Count(Run(c.Call(request)).steps, BodyKind) == 1
  {
    HookBypass(c.Call(request));
  }
}
