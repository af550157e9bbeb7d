# Shared.Commanding, modelled in Dafny

Shared.Commanding is a small C# library of base classes for commands and
queries. All of them but `Query<TResponse>` run the same "guard, then act"
protocol in their `Execute`:

1. The logged variants log an entering event.
2. `CanExecute` is evaluated once.
3. If it answers false, the logged variants log a warning. The variant then
   either throws a fixed exception itself (the parameterless commands) or
   calls the overridable `OnCommandException` hook. The hook throws by
   default, but an override may throw its own exception or return normally.
4. `OnExecute` runs. The logged variants log completion, or log the failure
   and rethrow the exception unchanged.

There are twelve classes:

- the plain `Command`, `Command<TRequest>`, `Query<TResponse>` and
  `Query<TRequest, TResponse>`;
- the eight logged handlers and services for commands and queries, each in
  a parameterless and a parameterized form.

`Query<TResponse>` is the exception: its `Execute` is abstract, so the base
class neither evaluates the guard nor logs, and only the concrete query's
own `Execute` runs.

The logged classes log through the `LogHandler` table of 32 `[LoggerMessage]`
entries, except `LoggedCommandService`, which makes its own `Log*` calls.
Those calls carry no event id, are guarded by `IsEnabled(Information)` for
the informational events, and pass the caught exception with the error event.

## How the model is built

- `Gate.Run` is the protocol as a specification. It is a function of an
  `Invocation`, which holds:
  - how the variant logs (not at all, through a `LogHandler` family, or
    inline as the command service does);
  - the name its events carry, the request, and the levels the logger
    reports enabled;
  - what the guard answers, what a refusal does, and what the body does.

  The guard, the hook and the body are the concrete action's overrides, so
  they are inputs of the model. `Run` yields the journal steps and the
  outcome: a returned value, or an exception.
- `Logging.Journal` is the injected logger, seen as a sink. It also records
  each call to an overridden member (`CanExecute`, `OnCommandException`,
  `OnExecute`). Keeping both in one journal preserves their relative order,
  for example "entering is logged before the guard is evaluated".
- Each class of the library is a Dafny `class` in the module of its source
  file. Its fields are the logger, the name its events carry, the action's
  `CommandName`, the guard, the hook where it has one, and the body. Its
  `Execute` is an imperative method that makes the same calls in the same
  order as the C# code. For the eleven guarded classes it is proved to
  append exactly `Run(Call(..)).steps` to the journal and to return
  `Run(Call(..)).outcome`. For `Query<TResponse>` it is proved to append one
  body run and nothing else, and to return the body's outcome.
  - In the logged classes the try/catch around `OnExecute` is a method of
    its own, `TryOnExecute`, which `Execute` calls at the point of the
    `try`.
  - Next to each class, lemmas state the concrete facts for that class:
    - which exception a refusal throws;
    - that `OnExecute` then does not run;
    - which event ids and levels a success and a failure log.
- `LogHandler.Entry` is the table of event id, level and template per
  family, shape and stage. The lemmas beside it state the table's
  regularities, and `Templates.Render` fills a template's holes the way the
  logger renders a message.
- `Exceptions` models `CommandException`'s three constructors and the
  message it builds from an action.

Two names are kept apart, as in the code:

- the logged classes put `GetType().Name` in their events (`typeName`,
  given at construction);
- their exceptions name the action by `CommandName` (`commandName`).

Some test expectations disagree with the code. The typed query handler
tests (src/Commanding.Tests/TypedLoggedQueryHandlerTest.cs) expect messages
of another shape than the templates in src/Commanding/LogHandler.cs. The
model follows LogHandler.cs.

## Model

| member | source | states |
|---|---|---|
| Exceptions.ActionMessage | src/Commanding/CommandException.cs:7 | the message built from an action is "Failed to execute command " followed by its name and a period |
| Exceptions.ActionMessageNamesAction | src/Commanding/CommandException.cs:7 | the action name can be read back out of that message: reading inverts building |
| Exceptions.ActionNameOfOnlyActionMessages | src/Commanding/CommandException.cs:7 | a message names an action exactly when it is that action's message (both directions) |
| Exceptions.ActionMessageInjective | src/Commanding/CommandException.cs:7 | actions with different names get different messages |
| Exceptions.FromAction | src/Commanding/CommandException.cs:7 | `CommandException(IAction)` gives a CommandException with no inner exception whose message names the action |
| Exceptions.FromMessage | src/Commanding/CommandException.cs:8 | the string constructor keeps the message verbatim, with no inner exception |
| Exceptions.FromMessageAndInner | src/Commanding/CommandException.cs:9 | the message+inner constructor keeps both |
| Exceptions.FromActionInjective | src/Commanding/CommandException.cs:7 | guard-failure exceptions of differently named actions differ |
| LogHandler.LevelsByStage | src/Commanding/LogHandler.cs:12-174 | in all 32 entries the level is fixed by the stage: Information for entering and completed, Warning for cannot, Error for failed; Information exactly for entering and completed |
| LogHandler.TemplateParts | src/Commanding/LogHandler.cs:12-174 | handlers use the verbs "Handling/Handled/Cannot handle/Failed to handle", services "Executing/Executed/Cannot execute/Failed to execute"; commands use `{CommandName}`, queries `{QueryName}`; parameterized entries add `{@Request}`, the command service `{@Parameters}` |
| LogHandler.ParameterizedExtends | src/Commanding/LogHandler.cs:33-48 | each parameterized template is its parameterless template followed by " with {@Request}" (" with {@Parameters}" for the command service) |
| LogHandler.KeyOfEntry | src/Commanding/LogHandler.cs:12-162 | every entry's event id maps back to that entry (the id table is a left inverse of the entry table) |
| LogHandler.IdsDistinct | src/Commanding/LogHandler.cs:12-162 | the 32 event ids are pairwise distinct |
| LogHandler.RenderTemplate | src/Commanding/LogHandler.cs:17-18 | rendering a template fills the name hole with the name and the request hole with the request |
| LogHandler.RenderedMessage | src/Commanding/LogHandler.cs:17-18 | every entry renders to its verb, " a ", the name and, when parameterized, " with " and the request: the command handler's entering message for N is "Handling a " + N |
| Logging.Events | src/Commanding/LoggedCommandHandler.cs:21-41 | the log events of a journal are as many as its logged steps |
| Logging.Stages | src/Commanding/LoggedCommandHandler.cs:21-41 | the stages of a list of events are position by position the events' stages |
| Logging.Journal.Log | src/Commanding/LoggedCommandService.cs:25 | a logger call appends exactly one event to the sink |
| Logging.Journal.Record | src/Commanding/LoggedCommandHandler.cs:25 | a call to an overridden member is appended to the journal |
| Logging.HandlerEvent | src/Commanding/LogHandler.cs:17-27 | a `LogHandler` call logs its entry's id (which identifies family, shape and stage), the stage's level, the name and request, and never an exception |
| Logging.LogStage | src/Commanding/LoggedCommandHandler.cs:23 | a `LogHandler` call appends that one event to the logger |
| Logging.ServiceTemplatesMatchTable | src/Commanding/LoggedCommandService.cs:25 | the templates the command service writes inline are those of the table's command-service entries |
| Logging.ServiceEvent | src/Commanding/LoggedCommandService.cs:25-45 | the command service's own calls log no event id, the stage's level, the table template, the name and request, and the caught exception only with the failed event |
| Gate.Allows | src/Commanding/Command.cs:13 | the default `CanExecute` answers true for every request |
| Gate.HookResult | src/Commanding/Command.cs:52-55 | the default `OnCommandException` throws the variant's default exception |
| Gate.CallCounts | src/Commanding/Command.cs:40-48 | every `Execute` evaluates the guard exactly once, calls the hook once exactly when refused with a hook, and runs `OnExecute` once exactly when allowed or the hook returned |
| Gate.RunEvents | src/Commanding/LoggedCommandHandler.cs:60-80 | the events are entering, then cannot when refused, then completed or failed when the body runs |
| Gate.RunStages | src/Commanding/LoggedCommandHandler.cs:60-80 | the logged stages, in order, of every invocation |
| Gate.EnteringBeforeGuard | src/Commanding/LoggedQueryService.cs:21-25 | the entering event, when logged, is the first step and the guard is evaluated right after it |
| Gate.OutcomeOfRun | src/Commanding/Command.cs:40-48 | reaching `OnExecute`, `Execute` ends as it does (value returned, exception unchanged); otherwise it throws the refusal's exception |
| Gate.RefusalStopsBody | src/Commanding/LoggedCommandHandler.cs:64-68 | a refusal that throws never runs `OnExecute`, ends with that exception, and logs only entering and cannot |
| Gate.HookBypass | src/Commanding/Command.cs:42-47 | a hook that returns normally lets `OnExecute` run once and decide the outcome |
| Gate.SuccessTrace | src/Commanding/LoggedQueryHandler.cs:21-43 | a logging variant that is allowed and succeeds logs exactly [entering, completed], both Information, and returns the body's value |
| Gate.RefusalTrace | src/Commanding/LoggedQueryHandler.cs:25-29 | a logging variant refused with a throwing refusal logs exactly [entering, cannot (Warning)] and never runs the body |
| Gate.FailureTrace | src/Commanding/LoggedQueryHandler.cs:38-42 | a logging variant whose body throws e logs exactly [entering, failed (Error)] and rethrows e |
| Gate.AtMostOneClosingEvent | src/Commanding/LoggedQueryHandler.cs:31-42 | no invocation logs both completed and failed, and a refusal that throws logs neither |
| Gate.EventsIdentifyInvocation | src/Commanding/LoggedCommandHandler.cs:53-77 | every event of an invocation carries the name fixed at construction, the request, and its stage's level |
| Gate.FailureCause | src/Commanding/LoggedCommandService.cs:89-93 | only the command service hands the logger an exception, only with its failed event, and it is the exception `OnExecute` threw |
| Gate.ServiceInformationGate | src/Commanding/LoggedCommandService.cs:69-87 | the command service logs entering exactly when Information is enabled, and completed exactly when the body succeeded with Information enabled |
| Gate.ServiceWarningsAndErrors | src/Commanding/LoggedCommandService.cs:74-91 | the command service logs cannot exactly when refused and failed exactly when the body threw, whatever the enabled levels |
| Gate.UnloggedIsSilent | src/Commanding/Command.cs:15-23 | the plain commands and queries log nothing |
| Commands.Command.CanExecute | src/Commanding/Command.cs:13 | the guard is evaluated once (recorded) and answers `Allows`, true for the default guard |
| Commands.Command.Execute | src/Commanding/Command.cs:15-23 | the journal steps and the outcome are exactly those of `Gate.Run` for an unlogged variant that throws a `CommandException` itself when refused |
| Commands.CommandRefuses | src/Commanding/Command.cs:17-20 | refused, it throws the `CommandException` naming the action, never runs `OnExecute` and logs nothing |
| Commands.CommandProceeds | src/Commanding/Command.cs:22 | allowed, it runs `OnExecute` once and ends exactly as it does |
| Commands.ParameterizedCommand.CanExecute | src/Commanding/Command.cs:38 | the guard is evaluated once (recorded) and answers `Allows`, true for the default guard |
| Commands.ParameterizedCommand.OnCommandException | src/Commanding/Command.cs:52-55 | the hook is called once and by default throws `CommandException<TRequest>` |
| Commands.ParameterizedCommand.Execute | src/Commanding/Command.cs:40-48 | the journal steps and the outcome are exactly those of `Gate.Run` for an unlogged variant with a hook |
| Commands.ParameterizedCommandRefuses | src/Commanding/Command.cs:42-45 | refused with the default hook, it throws `CommandException<TRequest>`, calls the hook once and never runs `OnExecute` |
| Commands.ParameterizedCommandHookBypass | src/Commanding/Command.cs:42-47 | refused, a hook that returns normally is followed by `OnExecute`, which runs once and decides the outcome |
| Queries.Query.CanExecute | src/Commanding/Query.cs:20 | the guard is evaluated once (recorded) and answers `Allows`, true for the default guard |
| Queries.Query.Execute | src/Commanding/Query.cs:22 | the base class wraps nothing around the concrete `Execute`: the journal gains exactly one body run and no guard evaluation, hook call or event, and the outcome is the query's own whatever the guard would answer |
| Queries.ParameterizedQuery.CanExecute | src/Commanding/Query.cs:29 | the guard (abstract, so always supplied) is evaluated once and its answer returned |
| Queries.ParameterizedQuery.OnCommandException | src/Commanding/Query.cs:43-46 | the hook is called once and by default throws a `CommandException` naming the query |
| Queries.ParameterizedQuery.Execute | src/Commanding/Query.cs:31-39 | the journal steps and the outcome are exactly those of `Gate.Run` for an unlogged variant with a hook |
| Queries.ParameterizedQueryRefuses | src/Commanding/Query.cs:33-36 | refused with the default hook, it throws a `CommandException` (not a query exception) naming the query and never runs `OnExecute` |
| Queries.ParameterizedQueryProceeds | src/Commanding/Query.cs:38 | allowed, it returns exactly `OnExecute`'s result (or its exception) without calling the hook |
| Queries.ParameterizedQueryHookBypass | src/Commanding/Query.cs:33-38 | refused, a hook that returns normally still yields `OnExecute`'s result |
| LoggedCommandHandlers.LoggedCommandHandler.constructor | src/Commanding/LoggedCommandHandler.cs:11-15 | the logger, the name the events carry (the type name), the action name, the guard and the body are fixed at construction |
| LoggedCommandHandlers.LoggedCommandHandler.CanExecute | src/Commanding/LoggedCommandHandler.cs:19 | the guard is evaluated once (recorded) and answers `Allows`, true for the default guard |
| LoggedCommandHandlers.LoggedCommandHandler.TryOnExecute | src/Commanding/LoggedCommandHandler.cs:31-40 | the try/catch runs `OnExecute`, logs completed or failed, and passes its outcome on unchanged |
| LoggedCommandHandlers.LoggedCommandHandler.Execute | src/Commanding/LoggedCommandHandler.cs:21-41 | the steps appended to the journal and the outcome are exactly those of the guard-then-act protocol `Gate.Run` for this variant |
| LoggedCommandHandlers.LoggedCommandHandlerRefuses | src/Commanding/LoggedCommandHandler.cs:25-29 | refused, it logs exactly the ids -1052453872 (Information) and -852123818 (Warning), throws the `CommandException` naming the action and never runs `OnExecute` |
| LoggedCommandHandlers.LoggedCommandHandlerSucceeds | src/Commanding/LoggedCommandHandler.cs:23-34 | allowed and successful, it logs exactly the ids -1052453872 and 26502146, both Information and neither carrying a request |
| LoggedCommandHandlers.LoggedCommandHandlerFails | src/Commanding/LoggedCommandHandler.cs:36-40 | when `OnExecute` throws e, it logs ids -1052453872 and -1611729963 (Error, no exception) and rethrows e |
| LoggedCommandHandlers.ParameterizedLoggedCommandHandler.constructor | src/Commanding/LoggedCommandHandler.cs:50-54 | the logger, the name the events carry (the type name), the action name, the guard, the hook and the body are fixed at construction |
| LoggedCommandHandlers.ParameterizedLoggedCommandHandler.CanExecute | src/Commanding/LoggedCommandHandler.cs:58 | the guard is evaluated once (recorded) and answers `Allows`, true for the default guard |
| LoggedCommandHandlers.ParameterizedLoggedCommandHandler.OnCommandException | src/Commanding/LoggedCommandHandler.cs:84-87 | the hook is called once (recorded) and throws the variant's default exception unless overridden |
| LoggedCommandHandlers.ParameterizedLoggedCommandHandler.TryOnExecute | src/Commanding/LoggedCommandHandler.cs:70-79 | the try/catch runs `OnExecute`, logs completed or failed, and passes its outcome on unchanged |
| LoggedCommandHandlers.ParameterizedLoggedCommandHandler.Execute | src/Commanding/LoggedCommandHandler.cs:60-80 | the steps appended to the journal and the outcome are exactly those of the guard-then-act protocol `Gate.Run` for this variant |
| LoggedCommandHandlers.ParameterizedLoggedCommandHandlerRefuses | src/Commanding/LoggedCommandHandler.cs:64-68 | refused with the default hook, it logs exactly the ids -694605769 (Information) and 1204198089 (Warning), throws `CommandException<TRequest>` and never runs `OnExecute` |
| LoggedCommandHandlers.ParameterizedLoggedCommandHandlerSucceeds | src/Commanding/LoggedCommandHandler.cs:62-73 | allowed and successful, it logs exactly the ids -694605769 and 1527975633, both Information and both carrying the request |
| LoggedCommandHandlers.ParameterizedLoggedCommandHandlerFails | src/Commanding/LoggedCommandHandler.cs:75-79 | when `OnExecute` throws e, it logs ids -694605769 and 1841231565 (Error, no exception) and rethrows e |
| LoggedCommandServices.LoggedCommandService.constructor | src/Commanding/LoggedCommandService.cs:11-15 | the logger, the name the events carry (the type name), the action name, the guard and the body are fixed at construction |
| LoggedCommandServices.LoggedCommandService.CanExecute | src/Commanding/LoggedCommandService.cs:19 | the guard is evaluated once (recorded) and answers `Allows`, true for the default guard |
| LoggedCommandServices.LoggedCommandService.TryOnExecute | src/Commanding/LoggedCommandService.cs:34-47 | the try/catch runs `OnExecute`, logs completed or failed, and passes its outcome on unchanged |
| LoggedCommandServices.LoggedCommandService.Execute | src/Commanding/LoggedCommandService.cs:21-48 | the steps appended to the journal and the outcome are exactly those of the guard-then-act protocol `Gate.Run` for this variant |
| LoggedCommandServices.LoggedCommandServiceRefuses | src/Commanding/LoggedCommandService.cs:28-32 | refused, it logs executing (only with Information enabled) and cannot, throws the `CommandException` naming the action and never runs `OnExecute` |
| LoggedCommandServices.LoggedCommandServiceSucceeds | src/Commanding/LoggedCommandService.cs:23-41 | allowed and successful with Information enabled, it logs exactly [Executing, Executed], without event ids and without a request |
| LoggedCommandServices.LoggedCommandServiceFails | src/Commanding/LoggedCommandService.cs:43-47 | when `OnExecute` throws e, the last event is failed, at Error, carrying e, and e is rethrown |
| LoggedCommandServices.ParameterizedLoggedCommandService.constructor | src/Commanding/LoggedCommandService.cs:57-61 | the logger, the name the events carry (the type name), the action name, the guard, the hook and the body are fixed at construction |
| LoggedCommandServices.ParameterizedLoggedCommandService.CanExecute | src/Commanding/LoggedCommandService.cs:65 | the guard is evaluated once (recorded) and answers `Allows`, true for the default guard |
| LoggedCommandServices.ParameterizedLoggedCommandService.OnCommandException | src/Commanding/LoggedCommandService.cs:98-101 | the hook is called once (recorded) and throws the variant's default exception unless overridden |
| LoggedCommandServices.ParameterizedLoggedCommandService.TryOnExecute | src/Commanding/LoggedCommandService.cs:80-93 | the try/catch runs `OnExecute`, logs completed or failed, and passes its outcome on unchanged |
| LoggedCommandServices.ParameterizedLoggedCommandService.Execute | src/Commanding/LoggedCommandService.cs:67-94 | the steps appended to the journal and the outcome are exactly those of the guard-then-act protocol `Gate.Run` for this variant |
| LoggedCommandServices.ParameterizedLoggedCommandServiceRefuses | src/Commanding/LoggedCommandService.cs:74-78 | refused with the default hook, it logs executing (only with Information enabled) and cannot, throws `CommandException<TParameters>` and never runs `OnExecute` |
| LoggedCommandServices.ParameterizedLoggedCommandServiceSucceeds | src/Commanding/LoggedCommandService.cs:69-87 | allowed and successful with Information enabled, it logs exactly [Executing, Executed] without event ids, both carrying the parameters |
| LoggedCommandServices.ParameterizedLoggedCommandServiceFails | src/Commanding/LoggedCommandService.cs:89-93 | when `OnExecute` throws e, the last event is failed, at Error, carrying e, and e is rethrown |
| LoggedQueryHandlers.LoggedQueryHandler.constructor | src/Commanding/LoggedQueryHandler.cs:11-15 | the logger, the name the events carry (the type name), the action name, the guard, the hook and the body are fixed at construction |
| LoggedQueryHandlers.LoggedQueryHandler.CanExecute | src/Commanding/LoggedQueryHandler.cs:19 | the guard is evaluated once (recorded) and answers `Allows`, true for the default guard |
| LoggedQueryHandlers.LoggedQueryHandler.OnCommandException | src/Commanding/LoggedQueryHandler.cs:47-50 | the hook is called once (recorded) and throws the variant's default exception unless overridden |
| LoggedQueryHandlers.LoggedQueryHandler.TryOnExecute | src/Commanding/LoggedQueryHandler.cs:31-42 | the try/catch runs `OnExecute`, logs completed or failed, and passes its outcome on unchanged |
| LoggedQueryHandlers.LoggedQueryHandler.Execute | src/Commanding/LoggedQueryHandler.cs:21-43 | the steps appended to the journal and the outcome are exactly those of the guard-then-act protocol `Gate.Run` for this variant |
| LoggedQueryHandlers.LoggedQueryHandlerRefuses | src/Commanding/LoggedQueryHandler.cs:25-29 | refused with the default hook, it logs exactly the ids -1312408377 (Information) and 1508363972 (Warning), throws `QueryException<TResponse>` and never runs `OnExecute` |
| LoggedQueryHandlers.LoggedQueryHandlerSucceeds | src/Commanding/LoggedQueryHandler.cs:23-36 | allowed and successful, it returns `OnExecute`'s result and logs exactly the ids -1312408377 and -1769740389, both Information and neither carrying a request |
| LoggedQueryHandlers.LoggedQueryHandlerFails | src/Commanding/LoggedQueryHandler.cs:38-42 | when `OnExecute` throws e, it logs ids -1312408377 and -2031604466 (Error, no exception) and rethrows e |
| LoggedQueryHandlers.ParameterizedLoggedQueryHandler.constructor | src/Commanding/LoggedQueryHandler.cs:57-61 | the logger, the name the events carry (the type name), the action name, the guard, the hook and the body are fixed at construction |
| LoggedQueryHandlers.ParameterizedLoggedQueryHandler.CanExecute | src/Commanding/LoggedQueryHandler.cs:65 | the guard is evaluated once (recorded) and answers `Allows`, true for the default guard |
| LoggedQueryHandlers.ParameterizedLoggedQueryHandler.OnCommandException | src/Commanding/LoggedQueryHandler.cs:93-96 | the hook is called once (recorded) and throws the variant's default exception unless overridden |
| LoggedQueryHandlers.ParameterizedLoggedQueryHandler.TryOnExecute | src/Commanding/LoggedQueryHandler.cs:77-88 | the try/catch runs `OnExecute`, logs completed or failed, and passes its outcome on unchanged |
| LoggedQueryHandlers.ParameterizedLoggedQueryHandler.Execute | src/Commanding/LoggedQueryHandler.cs:67-89 | the steps appended to the journal and the outcome are exactly those of the guard-then-act protocol `Gate.Run` for this variant |
| LoggedQueryHandlers.ParameterizedLoggedQueryHandlerRefuses | src/Commanding/LoggedQueryHandler.cs:71-75 | refused with the default hook, it logs exactly the ids -1483675383 (Information) and 953864082 (Warning), throws `QueryException<TRequest, TResponse>` and never runs `OnExecute` |
| LoggedQueryHandlers.ParameterizedLoggedQueryHandlerSucceeds | src/Commanding/LoggedQueryHandler.cs:69-82 | allowed and successful, it returns `OnExecute`'s result and logs exactly the ids -1483675383 and 2081299211, both Information and both carrying the request |
| LoggedQueryHandlers.ParameterizedLoggedQueryHandlerFails | src/Commanding/LoggedQueryHandler.cs:84-88 | when `OnExecute` throws e, it logs ids -1483675383 and 676216179 (Error, no exception) and rethrows e |
| LoggedQueryServices.LoggedQueryService.constructor | src/Commanding/LoggedQueryService.cs:11-15 | the logger, the name the events carry (the type name), the action name, the guard, the hook and the body are fixed at construction |
| LoggedQueryServices.LoggedQueryService.CanExecute | src/Commanding/LoggedQueryService.cs:19 | the guard is evaluated once (recorded) and answers `Allows`, true for the default guard |
| LoggedQueryServices.LoggedQueryService.OnCommandException | src/Commanding/LoggedQueryService.cs:47-50 | the hook is called once (recorded) and throws the variant's default exception unless overridden |
| LoggedQueryServices.LoggedQueryService.TryOnExecute | src/Commanding/LoggedQueryService.cs:31-42 | the try/catch runs `OnExecute`, logs completed or failed, and passes its outcome on unchanged |
| LoggedQueryServices.LoggedQueryService.Execute | src/Commanding/LoggedQueryService.cs:21-43 | the steps appended to the journal and the outcome are exactly those of the guard-then-act protocol `Gate.Run` for this variant |
| LoggedQueryServices.LoggedQueryServiceRefuses | src/Commanding/LoggedQueryService.cs:25-29 | refused with the default hook, it logs exactly the ids -336876455 (Information) and -177478635 (Warning), throws `QueryException<TResult>` and never runs `OnExecute` |
| LoggedQueryServices.LoggedQueryServiceSucceeds | src/Commanding/LoggedQueryService.cs:23-36 | allowed and successful, it returns `OnExecute`'s result and logs exactly the ids -336876455 and -2076214865, both Information and neither carrying a request |
| LoggedQueryServices.LoggedQueryServiceFails | src/Commanding/LoggedQueryService.cs:38-42 | when `OnExecute` throws e, it logs ids -336876455 and 2030904752 (Error, no exception) and rethrows e |
| LoggedQueryServices.ParameterizedLoggedQueryService.constructor | src/Commanding/LoggedQueryService.cs:58-62 | the logger, the name the events carry (the type name), the action name, the guard, the hook and the body are fixed at construction |
| LoggedQueryServices.ParameterizedLoggedQueryService.CanExecute | src/Commanding/LoggedQueryService.cs:66 | the guard is evaluated once (recorded) and answers `Allows`, true for the default guard |
| LoggedQueryServices.ParameterizedLoggedQueryService.OnCommandException | src/Commanding/LoggedQueryService.cs:94-97 | the hook is called once (recorded) and throws the variant's default exception unless overridden |
| LoggedQueryServices.ParameterizedLoggedQueryService.TryOnExecute | src/Commanding/LoggedQueryService.cs:78-89 | the try/catch runs `OnExecute`, logs completed or failed, and passes its outcome on unchanged |
| LoggedQueryServices.ParameterizedLoggedQueryService.Execute | src/Commanding/LoggedQueryService.cs:68-90 | the steps appended to the journal and the outcome are exactly those of the guard-then-act protocol `Gate.Run` for this variant |
| LoggedQueryServices.ParameterizedLoggedQueryServiceRefuses | src/Commanding/LoggedQueryService.cs:72-76 | refused with the default hook, it logs exactly the ids 504745592 (Information) and 979968330 (Warning), throws `QueryException<TParameters, TResult>` and never runs `OnExecute` |
| LoggedQueryServices.ParameterizedLoggedQueryServiceSucceeds | src/Commanding/LoggedQueryService.cs:70-83 | allowed and successful, it returns `OnExecute`'s result and logs exactly the ids 504745592 and 845758664, both Information and both carrying the request |
| LoggedQueryServices.ParameterizedLoggedQueryServiceFails | src/Commanding/LoggedQueryService.cs:85-89 | when `OnExecute` throws e, it logs ids 504745592 and -1858691295 (Error, no exception) and rethrows e |

## Left out

- Asynchrony: `Task`, `ValueTask` and `await` are modelled as plain sequential calls.
- The logging library: `Microsoft.Extensions.Logging`, the source-generated `LoggerMessage` bodies and their own `IsEnabled` check are not modelled. A log call is one event holding the id, level, stage, template, name, request and exception. Structured rendering of a request (`{@Request}`) is left to the caller as a string.
- A logger that throws is not modelled. The logger is total; in the code, a throwing success log inside the `try` would be logged as a failure.
- Reflection: `GetType().Name` is a name given at construction.
- `CommandException<TRequest>`, `QueryException<TResponse>`, `QueryException<TRequest, TResponse>`, `IAction` and `IRequest` are not part of this model. These exceptions are tags carrying the action's name. Exceptions raised by an action's own code are opaque values.
- src/Commanding/IExecutable.cs is not part of this model; it declares interfaces only.
- Concurrency: concurrent invocations of one action are not modelled.
- The guard, the hook and the body are pure inputs. An override that has side effects or answers differently on a second call is not modelled. `Execute` calls each of them at most once.
- Queries.Query.Execute: the base class declares `Execute` abstract. The model therefore gives no guarded protocol for `Query<TResponse>`, only the concrete query's own outcome.
- A `CanExecute` override that throws is not modelled: the guard is a total boolean. In the code such an exception propagates out of `Execute` after the entering event (for example src/Commanding/LoggedCommandHandler.cs:23-26), with no cannot or failed event and no call to the hook.
- A log level that changes during one call is not modelled: the enabled levels are a constant of the journal. The command service asks `IsEnabled(Information)` twice per call (src/Commanding/LoggedCommandService.cs:23 and 38, and 69 and 84), so in the code the entering and completed events could be decided differently.
- The command service's `LogHandler` entries (src/Commanding/LogHandler.cs:54-90) are in the table but never called. The command service writes the same templates inline, without their event ids.
