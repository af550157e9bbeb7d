/**
 * The plain queries of src/Commanding/Query.cs. `Query<TResponse>` offers a
 * `CanExecute` that answers true unless overridden, but leaves `Execute`
 * abstract, so the base class guards nothing. `Query<TRequest, TResponse>`
 * (here `ParameterizedQuery`) leaves `CanExecute` abstract and guards its
 * `Execute` with it; refused, it calls the `OnCommandException` hook, whose
 * default throws a `CommandException` naming the query. Neither logs.
 */
module Queries {
  import opened Wrappers
  import opened Exceptions
  import opened LogHandler
  import opened Logging
  import opened Gate

  class Query<T> {
    const journal: Journal<()>
    const commandName: string
    const guard: Guard<()>
    const execute: Outcome<T>     // what the concrete query's `Execute` does

    constructor (journal: Journal<()>, commandName: string, guard: Guard<()>, execute: Outcome<T>)
      ensures this.journal == journal && this.commandName == commandName
      ensures this.guard == guard && this.execute == execute
    {
      this.journal := journal;
      this.commandName := commandName;
      this.guard := guard;
      this.execute := execute;
    }

    method CanExecute() returns (allowed: bool)
      modifies journal
      ensures journal.steps == old(journal.steps) + [GuardEvaluated]
      ensures allowed == Allows(guard, ())
    {
      journal.Record(GuardEvaluated);
      allowed := Allows(guard, ());
    }

    /**
     * The concrete query's `Execute`: the base class wraps nothing around
     * it, so the guard is not evaluated and the outcome is the query's own,
     * whatever the guard would answer.
     */
    method Execute() returns (outcome: Outcome<T>)
      modifies journal
      ensures journal.steps == old(journal.steps) + [BodyRan]
      ensures Count(journal.steps, GuardKind) == Count(old(journal.steps), GuardKind)
      ensures Count(journal.steps, HookKind) == Count(old(journal.steps), HookKind)
      ensures Count(journal.steps, BodyKind) == Count(old(journal.steps), BodyKind) + 1
      ensures Events(journal.steps) == Events(old(journal.steps))
      ensures outcome == execute
    {
      BodyRunCounts(journal.steps);
      journal.Record(BodyRan);
      outcome := execute;
    }
  }

  /** Appending a body run adds one body run and no guard evaluation, hook call or event. */
  lemma BodyRunCounts<R>(before: seq<Step<R>>)
    ensures Count(before + [BodyRan], GuardKind) == Count(before, GuardKind)
    ensures Count(before + [BodyRan], HookKind) == Count(before, HookKind)
    ensures Count(before + [BodyRan], BodyKind) == Count(before, BodyKind) + 1
    ensures Events(before + [BodyRan]) == Events(before)
  {
    CountAppend(before, [BodyRan], GuardKind);
    CountAppend(before, [BodyRan], HookKind);
    CountAppend(before, [BodyRan], BodyKind);
    EventsAppend(before, [BodyRan]);
    SingleCounts<R>(BodyRan);
  }

  class ParameterizedQuery<R, T> {
    const journal: Journal<R>
    const commandName: string
    const canExecute: R -> bool   // abstract in the base class: every query supplies it
    const hook: Hook<R>
    const onExecute: R -> Outcome<T>

    constructor (journal: Journal<R>, commandName: string, canExecute: R -> bool, hook: Hook<R>,
                 onExecute: R -> Outcome<T>)
      ensures this.journal == journal && this.commandName == commandName
      ensures this.canExecute == canExecute && this.hook == hook && this.onExecute == onExecute
    {
      this.journal := journal;
      this.commandName := commandName;
      this.canExecute := canExecute;
      this.hook := hook;
      this.onExecute := onExecute;
    }

    /** The default hook's exception: a `CommandException` naming the query. */
    function DefaultError(): Exception
    {
      FromAction(commandName)
    }

    function Call(request: R): Invocation<R, T>
    {
      Invocation(Unlogged, commandName, Some(request), journal.enabled, canExecute(request),
                 Hook(HookResult(hook, request, DefaultError())), onExecute(request))
    }

    method CanExecute(request: R) returns (allowed: bool)
      modifies journal
      ensures journal.steps == old(journal.steps) + [GuardEvaluated]
      ensures allowed == canExecute(request)
    {
      journal.Record(GuardEvaluated);
      allowed := canExecute(request);
    }

    method OnCommandException(request: R) returns (thrown: Option<Exception>)
      modifies journal
      ensures journal.steps == old(journal.steps) + [HookCalled]
      ensures thrown == HookResult(hook, request, DefaultError())
    {
      journal.Record(HookCalled);
      thrown := HookResult(hook, request, DefaultError());
    }

    method OnExecute(request: R) returns (outcome: Outcome<T>)
      modifies journal
      ensures journal.steps == old(journal.steps) + [BodyRan]
      ensures outcome == onExecute(request)
    {
      journal.Record(BodyRan);
      outcome := onExecute(request);
    }

    /** `Execute`: its steps and its outcome are the protocol's for this variant. */
    method Execute(request: R) returns (outcome: Outcome<T>)
      modifies journal
      ensures journal.steps == old(journal.steps) + Run(Call(request)).steps
      ensures outcome == Run(Call(request)).outcome
    {
      ghost var inv := Call(request);
      ghost var start := journal.steps;
      SilentEmits(inv, Entering, None);
      SilentEmits(inv, Cannot, None);
      var allowed := CanExecute(request);
      ghost var done := Emit(inv, Entering, None) + [GuardEvaluated];
      assert journal.steps == start + done;
      if !allowed {
        var thrown := OnCommandException(request);
        done := done + Emit(inv, Cannot, None) + [HookCalled];
        assert journal.steps == start + done;
        if thrown.Some? {
          HookThrewRun(inv, thrown.value);
          return Threw(thrown.value);
        }
        BypassedRun(inv);
      } else {
        AllowedRun(inv);
      }
      outcome := OnExecute(request);
      if outcome.Returned? {
        SilentEmits(inv, Completed, None);
      } else {
        SilentEmits(inv, Failed, Some(outcome.error));
      }
      AppendAssoc(start, done, Attempt(inv));
    }
  }

  /**
   * Refused, with the default hook, `Query<TRequest, TResponse>.Execute`
   * throws a `CommandException` naming the query and never runs `OnExecute`.
   */
  lemma ParameterizedQueryRefuses<R, T>(q: ParameterizedQuery<R, T>, request: R)
    requires !q.canExecute(request) && q.hook.DefaultHook?
    ensures Run(q.Call(request)).outcome == Threw(FromAction(q.commandName))
    ensures Count(Run(q.Call(request)).steps, BodyKind) == 0
    ensures Count(Run(q.Call(request)).steps, HookKind) == 1
  {
    RefusalStopsBody(q.Call(request));
    CallCounts(q.Call(request));
  }

  /** Allowed, `Execute` runs `OnExecute` once, without calling the hook, and ends as it does. */
  lemma ParameterizedQueryProceeds<R, T>(q: ParameterizedQuery<R, T>, request: R)
    requires q.canExecute(request)
    ensures Run(q.Call(request)).outcome == q.onExecute(request)
    ensures Count(Run(q.Call(request)).steps, HookKind) == 0
    ensures Count(Run(q.Call(request)).steps, BodyKind) == 1
  {
    CallCounts(q.Call(request));
  }

  /**
   * Refused, a hook overridden to return normally lets `OnExecute` run, once,
   * and the query answers with its response.
   */
  lemma ParameterizedQueryHookBypass<R, T>(q: ParameterizedQuery<R, T>, request: R)
    requires !q.canExecute(request) && HookResult(q.hook, request, q.DefaultError()) == None
    ensures Run(q.Call(request)).outcome == q.onExecute(request)
    ensures Count(Run(q.Call(request)).steps, HookKind) == 1
    ensures Count(Run(q.Call(request)).steps, BodyKind) == 1
  {
    HookBypass(q.Call(request));
  }
}
