/**
 * What one execution of an action makes observable. The injected logger is a
 * sink that receives log events; the members a concrete action overrides
 * (`CanExecute`, `OnCommandException`, `OnExecute`) are observed by the calls
 * made to them. Both go into one journal, so the order of log events and
 * calls is kept.
 */
module Logging {
  import opened Wrappers
  import opened Exceptions
  import opened LogHandler

  /**
   * One call the logger receives: the event id (`None` for the command
   * service, which logs through `LogInformation`/`LogWarning`/`LogError`
   * without one), the level, the stage it reports, the message template and
   * its arguments, and the exception handed to the logger, if any.
   */
  datatype LogEvent<R> = LogEvent(
    id: Option<int>,
    level: Level,
    stage: Stage,
    template: Template,
    name: string,
    request: Option<R>,
    cause: Option<Exception>)

  datatype Step<R> =
    | Logged(event: LogEvent<R>)
    | GuardEvaluated   // CanExecute was called
    | HookCalled       // OnCommandException was called
    | BodyRan          // OnExecute (or an overriding Execute) was called

  datatype Kind = LogKind | GuardKind | HookKind | BodyKind

  function KindOf<R>(s: Step<R>): Kind
  {
    match s
    case Logged(_) => LogKind
    case GuardEvaluated => GuardKind
    case HookCalled => HookKind
    case BodyRan => BodyKind
  }

  /** How many steps of a kind a journal holds. */
  function Count<R>(steps: seq<Step<R>>, k: Kind): nat
  {
    if steps == [] then 0
    else (if KindOf(steps[0]) == k then 1 else 0) + Count(steps[1..], k)
  }

  lemma {:induction false} CountAppend<R>(a: seq<Step<R>>, b: seq<Step<R>>, k: Kind)
    ensures Count(a + b, k) == Count(a, k) + Count(b, k)
    decreases |a|
  {
    if a == [] {
      assert a + b == b;
    } else {
      assert (a + b)[1..] == a[1..] + b;
      CountAppend(a[1..], b, k);
    }
  }

  /** The log events of a journal, in order. */
  function Events<R>(steps: seq<Step<R>>): (events: seq<LogEvent<R>>)
    ensures |events| == Count(steps, LogKind)
  {
    if steps == [] then []
    else (if steps[0].Logged? then [steps[0].event] else []) + Events(steps[1..])
  }

  lemma {:induction false} EventsAppend<R>(a: seq<Step<R>>, b: seq<Step<R>>)
    ensures Events(a + b) == Events(a) + Events(b)
    decreases |a|
  {
    if a == [] {
      assert a + b == b;
    } else {
      assert (a + b)[1..] == a[1..] + b;
      EventsAppend(a[1..], b);
    }
  }

  /** Regroups a journal split in three, where an `Execute` proof joins its prefix to `Attempt`. */
  lemma AppendAssoc<X>(a: seq<X>, b: seq<X>, c: seq<X>)
    ensures a + b + c == a + (b + c)
  {
  }

  /** The stages the events of a journal report, in order. */
  function Stages<R>(events: seq<LogEvent<R>>): (stages: seq<Stage>)
    ensures |stages| == |events|
    ensures forall i :: 0 <= i < |events| ==> stages[i] == events[i].stage
  {
    if events == [] then [] else [events[0].stage] + Stages(events[1..])
  }

  lemma {:induction false} StagesAppend<R>(a: seq<LogEvent<R>>, b: seq<LogEvent<R>>)
    ensures Stages(a + b) == Stages(a) + Stages(b)
  {
  }

  /**
   * The logger and the observed members of one action. The set of enabled
   * levels is the logger's configuration, consulted by `ILogger.IsEnabled`.
   */
  class Journal<R> {
    var steps: seq<Step<R>>
    const enabled: set<Level>

    constructor (enabled: set<Level>)
      ensures steps == [] && this.enabled == enabled
    {
      steps := [];
      this.enabled := enabled;
    }

    predicate IsEnabled(level: Level)
    {
      level in enabled
    }

    /** The logger receives one event. */
    method Log(event: LogEvent<R>)
      modifies this
      ensures steps == old(steps) + [Logged(event)]
    {
      steps := steps + [Logged(event)];
    }

    /** One of the action's overridden members is called. */
    method Record(step: Step<R>)
      requires !step.Logged?
      modifies this
      ensures steps == old(steps) + [step]
    {
      steps := steps + [step];
    }
  }

  /** The shape of the `LogHandler` method a variant calls: with a request or without. */
  function ShapeOf<R>(request: Option<R>): Shape
  {
    if request.None? then Parameterless else Parameterized
  }

  /**
   * What `LogHandler.<Stage>(logger, name[, request])` hands the logger:
   * the table entry's id, level and template, and no exception.
   */
  function HandlerEvent<R>(f: Family, stage: Stage, name: string, request: Option<R>): (e: LogEvent<R>)
    ensures e.id.Some? && KeyOf(e.id.value) == Some(Key(f, ShapeOf(request), stage))
    ensures e.level == StageLevel(stage) && e.cause == None
    ensures e.stage == stage && e.name == name && e.request == request
  {
    var m := Entry(Key(f, ShapeOf(request), stage));
    KeyOfEntry(Key(f, ShapeOf(request), stage));
    LevelsByStage(Key(f, ShapeOf(request), stage));
    LogEvent(Some(m.id), m.level, stage, m.template, name, request, None)
  }

  /**
   * A call of one of the `LogHandler` methods, `HandlingCommand(logger,
   * commandName[, request])` and its fifteen siblings, picked by family,
   * stage and whether a request is passed: the logger receives the entry's
   * event.
   */
  method LogStage<R>(logger: Journal<R>, f: Family, stage: Stage, name: string, request: Option<R>)
    modifies logger
    ensures logger.steps == old(logger.steps) + [Logged(HandlerEvent(f, stage, name, request))]
  {
    logger.Log(HandlerEvent(f, stage, name, request));
  }

  /** The templates `LoggedCommandService` writes out in its own log calls. */
  function ServiceTemplate(sh: Shape, stage: Stage): Template
  {
    var hole := if sh == Parameterless then None else Some("@Parameters");
    match stage
    case Entering => Template("Executing", "CommandName", hole)
    case Completed => Template("Executed", "CommandName", hole)
    case Cannot => Template("Cannot execute", "CommandName", hole)
    case Failed => Template("Failed to execute", "CommandName", hole)
  }

  /** They are the templates of the table's command-service entries, which the service does not call. */
  lemma ServiceTemplatesMatchTable(sh: Shape, stage: Stage)
    ensures ServiceTemplate(sh, stage) == Entry(Key(CommandService, sh, stage)).template
  {
    TemplateParts(Key(CommandService, sh, stage));
  }

  /**
   * What one `Logger.Log<Level>([ex, ]template, name[, parameters])` call of
   * `LoggedCommandService` hands the logger: the error call passes the caught
   * exception.
   */
  function ServiceEvent<R>(stage: Stage, name: string, request: Option<R>, cause: Option<Exception>): (e: LogEvent<R>)
    ensures e.id == None && e.level == StageLevel(stage)
    ensures e.template == Entry(Key(CommandService, ShapeOf(request), stage)).template
    ensures e.stage == stage && e.name == name && e.request == request
    ensures e.cause == (if stage == Failed then cause else None)
  {
    ServiceTemplatesMatchTable(ShapeOf(request), stage);
    LogEvent(None, StageLevel(stage), stage, ServiceTemplate(ShapeOf(request), stage), name, request,
             if stage == Failed then cause else None)
  }
}
