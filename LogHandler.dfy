/**
 * The table of src/Commanding/LogHandler.cs: for every logging family
 * (command handler, command service, query handler, query service), every
 * shape (parameterless or with a request) and every stage of an execution
 * (entering, completed, cannot, failed) one `[LoggerMessage]` entry with an
 * event id, a level and a message template. None of the 32 entries takes an
 * exception argument.
 */
module LogHandler {
  import opened Wrappers
  import Templates

  /** The levels of the logging library, in increasing severity. */
  datatype Level = Trace | Debug | Information | Warning | Error | Critical

  datatype Family = CommandHandler | CommandService | QueryHandler | QueryService

  datatype Shape = Parameterless | Parameterized

  /** The four points of an execution at which a logged action emits an event. */
  datatype Stage = Entering | Completed | Cannot | Failed

  datatype Key = Key(family: Family, shape: Shape, stage: Stage)

  /**
   * A message template of the table, kept in its parts: the verb, the hole
   * for the action's name and, for a parameterized entry, the hole for the
   * request. `Text` spells it out as the source writes it.
   */
  datatype Template = Template(verb: string, nameHole: string, requestHole: Option<string>)

  function Text(t: Template): string
  {
    t.verb + " a {" + t.nameHole + "}"
    + match t.requestHole
      case None => ""
      case Some(hole) => " with {" + hole + "}"
  }

  datatype Message = Message(id: int, level: Level, template: Template)

  /** The `[LoggerMessage]` attributes (`EventId`, `Level`, `Message`) of the 32 partial methods. */
  function Entry(k: Key): Message
  {
    match k
    case Key(CommandHandler, Parameterless, Entering) => Message(-1052453872, Information, Template("Handling", "CommandName", None))
    case Key(CommandHandler, Parameterless, Completed) => Message(26502146, Information, Template("Handled", "CommandName", None))
    case Key(CommandHandler, Parameterless, Cannot) => Message(-852123818, Warning, Template("Cannot handle", "CommandName", None))
    case Key(CommandHandler, Parameterless, Failed) => Message(-1611729963, Error, Template("Failed to handle", "CommandName", None))
    case Key(CommandHandler, Parameterized, Entering) => Message(-694605769, Information, Template("Handling", "CommandName", Some("@Request")))
    case Key(CommandHandler, Parameterized, Completed) => Message(1527975633, Information, Template("Handled", "CommandName", Some("@Request")))
    case Key(CommandHandler, Parameterized, Cannot) => Message(1204198089, Warning, Template("Cannot handle", "CommandName", Some("@Request")))
    case Key(CommandHandler, Parameterized, Failed) => Message(1841231565, Error, Template("Failed to handle", "CommandName", Some("@Request")))
    case Key(CommandService, Parameterless, Entering) => Message(1489615776, Information, Template("Executing", "CommandName", None))
    case Key(CommandService, Parameterless, Completed) => Message(-67864941, Information, Template("Executed", "CommandName", None))
    case Key(CommandService, Parameterless, Cannot) => Message(-1666849133, Warning, Template("Cannot execute", "CommandName", None))
    case Key(CommandService, Parameterless, Failed) => Message(1865557750, Error, Template("Failed to execute", "CommandName", None))
    case Key(CommandService, Parameterized, Entering) => Message(-1647182086, Information, Template("Executing", "CommandName", Some("@Parameters")))
    case Key(CommandService, Parameterized, Completed) => Message(878645943, Information, Template("Executed", "CommandName", Some("@Parameters")))
    case Key(CommandService, Parameterized, Cannot) => Message(1176137617, Warning, Template("Cannot execute", "CommandName", Some("@Parameters")))
    case Key(CommandService, Parameterized, Failed) => Message(-721960863, Error, Template("Failed to execute", "CommandName", Some("@Parameters")))
    case Key(QueryHandler, Parameterless, Entering) => Message(-1312408377, Information, Template("Handling", "QueryName", None))
    case Key(QueryHandler, Parameterless, Completed) => Message(-1769740389, Information, Template("Handled", "QueryName", None))
    case Key(QueryHandler, Parameterless, Cannot) => Message(1508363972, Warning, Template("Cannot handle", "QueryName", None))
    case Key(QueryHandler, Parameterless, Failed) => Message(-2031604466, Error, Template("Failed to handle", "QueryName", None))
    case Key(QueryHandler, Parameterized, Entering) => Message(-1483675383, Information, Template("Handling", "QueryName", Some("@Request")))
    case Key(QueryHandler, Parameterized, Completed) => Message(2081299211, Information, Template("Handled", "QueryName", Some("@Request")))
    case Key(QueryHandler, Parameterized, Cannot) => Message(953864082, Warning, Template("Cannot handle", "QueryName", Some("@Request")))
    case Key(QueryHandler, Parameterized, Failed) => Message(676216179, Error, Template("Failed to handle", "QueryName", Some("@Request")))
    case Key(QueryService, Parameterless, Entering) => Message(-336876455, Information, Template("Executing", "QueryName", None))
    case Key(QueryService, Parameterless, Completed) => Message(-2076214865, Information, Template("Executed", "QueryName", None))
    case Key(QueryService, Parameterless, Cannot) => Message(-177478635, Warning, Template("Cannot execute", "QueryName", None))
    case Key(QueryService, Parameterless, Failed) => Message(2030904752, Error, Template("Failed to execute", "QueryName", None))
    case Key(QueryService, Parameterized, Entering) => Message(504745592, Information, Template("Executing", "QueryName", Some("@Request")))
    case Key(QueryService, Parameterized, Completed) => Message(845758664, Information, Template("Executed", "QueryName", Some("@Request")))
    case Key(QueryService, Parameterized, Cannot) => Message(979968330, Warning, Template("Cannot execute", "QueryName", Some("@Request")))
    case Key(QueryService, Parameterized, Failed) => Message(-1858691295, Error, Template("Failed to execute", "QueryName", Some("@Request")))
  }

  predicate IsHandler(f: Family)
  {
    f == CommandHandler || f == QueryHandler
  }

  predicate IsCommand(f: Family)
  {
    f == CommandHandler || f == CommandService
  }

  /** The level of a stage: entering and completed inform, cannot warns, failed is an error. */
  function StageLevel(st: Stage): Level
  {
    match st
    case Entering => Information
    case Completed => Information
    case Cannot => Warning
    case Failed => Error
  }

  /** The words a message opens with: handlers "handle", services "execute". */
  function Verb(f: Family, st: Stage): string
  {
    match st
    case Entering => if IsHandler(f) then "Handling" else "Executing"
    case Completed => if IsHandler(f) then "Handled" else "Executed"
    case Cannot => if IsHandler(f) then "Cannot handle" else "Cannot execute"
    case Failed => if IsHandler(f) then "Failed to handle" else "Failed to execute"
  }

  /** In every family and shape the level depends on the stage alone. */
  lemma LevelsByStage(k: Key)
    ensures Entry(k).level == StageLevel(k.stage)
    ensures Entry(k).level == Information <==> k.stage == Entering || k.stage == Completed
  {
  }

  /**
   * Handlers "handle" and services "execute"; commands name the action
   * `{CommandName}` and queries `{QueryName}`; a parameterized entry adds
   * `{@Request}`, except the command service's, which adds `{@Parameters}`.
   */
  lemma TemplateParts(k: Key)
    ensures Entry(k).template.verb == Verb(k.family, k.stage)
    ensures Entry(k).template.nameHole == if IsCommand(k.family) then "CommandName" else "QueryName"
    ensures Entry(k).template.requestHole
         == if k.shape == Parameterless then None
            else if k.family == CommandService then Some("@Parameters")
            else Some("@Request")
  {
  }

  /** The parameterized template of a stage is the parameterless one with the request hole appended. */
  lemma ParameterizedExtends(f: Family, st: Stage)
    ensures Text(Entry(Key(f, Parameterized, st)).template)
         == Text(Entry(Key(f, Parameterless, st)).template)
            + " with {" + (if f == CommandService then "@Parameters" else "@Request") + "}"
  {
    TemplateParts(Key(f, Parameterized, st));
    TemplateParts(Key(f, Parameterless, st));
  }

  /** The key a table id belongs to. */
  function KeyOf(id: int): Option<Key>
  {
    if id == -1052453872 then Some(Key(CommandHandler, Parameterless, Entering))
    else if id == 26502146 then Some(Key(CommandHandler, Parameterless, Completed))
    else if id == -852123818 then Some(Key(CommandHandler, Parameterless, Cannot))
    else if id == -1611729963 then Some(Key(CommandHandler, Parameterless, Failed))
    else if id == -694605769 then Some(Key(CommandHandler, Parameterized, Entering))
    else if id == 1527975633 then Some(Key(CommandHandler, Parameterized, Completed))
    else if id == 1204198089 then Some(Key(CommandHandler, Parameterized, Cannot))
    else if id == 1841231565 then Some(Key(CommandHandler, Parameterized, Failed))
    else if id == 1489615776 then Some(Key(CommandService, Parameterless, Entering))
    else if id == -67864941 then Some(Key(CommandService, Parameterless, Completed))
    else if id == -1666849133 then Some(Key(CommandService, Parameterless, Cannot))
    else if id == 1865557750 then Some(Key(CommandService, Parameterless, Failed))
    else if id == -1647182086 then Some(Key(CommandService, Parameterized, Entering))
    else if id == 878645943 then Some(Key(CommandService, Parameterized, Completed))
    else if id == 1176137617 then Some(Key(CommandService, Parameterized, Cannot))
    else if id == -721960863 then Some(Key(CommandService, Parameterized, Failed))
    else if id == -1312408377 then Some(Key(QueryHandler, Parameterless, Entering))
    else if id == -1769740389 then Some(Key(QueryHandler, Parameterless, Completed))
    else if id == 1508363972 then Some(Key(QueryHandler, Parameterless, Cannot))
    else if id == -2031604466 then Some(Key(QueryHandler, Parameterless, Failed))
    else if id == -1483675383 then Some(Key(QueryHandler, Parameterized, Entering))
    else if id == 2081299211 then Some(Key(QueryHandler, Parameterized, Completed))
    else if id == 953864082 then Some(Key(QueryHandler, Parameterized, Cannot))
    else if id == 676216179 then Some(Key(QueryHandler, Parameterized, Failed))
    else if id == -336876455 then Some(Key(QueryService, Parameterless, Entering))
    else if id == -2076214865 then Some(Key(QueryService, Parameterless, Completed))
    else if id == -177478635 then Some(Key(QueryService, Parameterless, Cannot))
    else if id == 2030904752 then Some(Key(QueryService, Parameterless, Failed))
    else if id == 504745592 then Some(Key(QueryService, Parameterized, Entering))
    else if id == 845758664 then Some(Key(QueryService, Parameterized, Completed))
    else if id == 979968330 then Some(Key(QueryService, Parameterized, Cannot))
    else if id == -1858691295 then Some(Key(QueryService, Parameterized, Failed))
    else None
  }

  /** Every entry's event id leads back to that entry. */
  lemma KeyOfEntry(k: Key)
    ensures KeyOf(Entry(k).id) == Some(k)
  {
  }

  /** The 32 event ids are pairwise distinct. */
  lemma IdsDistinct(k1: Key, k2: Key)
    ensures Entry(k1).id == Entry(k2).id ==> k1 == k2
  {
    KeyOfEntry(k1);
    KeyOfEntry(k2);
  }

  /** The arguments a log call passes for the template's holes. */
  function Arguments(sh: Shape, name: string, request: string): seq<string>
  {
    if sh == Parameterless then [name] else [name, request]
  }

  /** Rendering a template fills the name hole with the name and the request hole with the request. */
  lemma {:induction false} RenderTemplate(t: Template, name: string, request: string)
    requires '{' !in t.verb && '}' !in t.nameHole
    requires t.requestHole.Some? ==> '}' !in t.requestHole.value
    ensures Templates.Render(Text(t), if t.requestHole.None? then [name] else [name, request])
         == t.verb + " a " + name + (if t.requestHole.None? then "" else " with " + request)
  {
    if t.requestHole.None? {
      RenderNameOnly(t, name);
    } else {
      RenderNameAndRequest(t, name, request);
    }
  }

  lemma {:induction false} RenderNameOnly(t: Template, name: string)
    requires '{' !in t.verb && '}' !in t.nameHole && t.requestHole.None?
    ensures Templates.Render(Text(t), [name]) == t.verb + " a " + name
  {
    var head := t.verb + " a ";
    assert Text(t) == head + ("{" + t.nameHole + "}" + "");
    Templates.RenderText(head, "{" + t.nameHole + "}" + "", [name]);
    Templates.RenderHole(t.nameHole, "", [name]);
    assert Templates.Render("", []) == "";
  }

  lemma {:induction false} RenderNameAndRequest(t: Template, name: string, request: string)
    requires '{' !in t.verb && '}' !in t.nameHole && t.requestHole.Some? && '}' !in t.requestHole.value
    ensures Templates.Render(Text(t), [name, request]) == t.verb + " a " + name + " with " + request
  {
    var hole := t.requestHole.value;
    var head := t.verb + " a ";
    var rest := " with " + ("{" + hole + "}" + "");
    assert Text(t) == head + ("{" + t.nameHole + "}" + rest);
    Templates.RenderText(head, "{" + t.nameHole + "}" + rest, [name, request]);
    Templates.RenderHole(t.nameHole, rest, [name, request]);
    assert [name, request][1..] == [request];
    Templates.RenderText(" with ", "{" + hole + "}" + "", [request]);
    Templates.RenderHole(hole, "", [request]);
    assert Templates.Render("", []) == "";
  }

  /**
   * Rendering an entry with the action's name (and the request's rendering)
   * gives the verb, " a ", the name, and " with " and the request: the
   * entering message of a command handler named N reads "Handling a " + N.
   */
  lemma RenderedMessage(k: Key, name: string, request: string)
    ensures Templates.Render(Text(Entry(k).template), Arguments(k.shape, name, request))
         == Verb(k.family, k.stage) + " a " + name
            + (if k.shape == Parameterless then "" else " with " + request)
  {
    var t := Entry(k).template;
    TemplateParts(k);
    VerbHasNoBrace(k.family, k.stage);
    RenderTemplate(t, name, request);
  }

  lemma VerbHasNoBrace(f: Family, st: Stage)
    ensures '{' !in Verb(f, st)
  {
  }
}
