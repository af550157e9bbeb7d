/**
 * The exceptions a gate can throw. `CommandException` is the one class of
 * src/Commanding/CommandException.cs; the generic exception types the gates
 * also throw (`CommandException<TRequest>`, `QueryException<TResponse>`,
 * `QueryException<TRequest, TResponse>`) are not part of this model's source
 * text, so they are tags carrying the action's name. Exceptions raised by an
 * action's own code (a custom guard-failure hook, a failing OnExecute) are
 * `Other`, told apart by their kind.
 */
module Exceptions {
  import opened Wrappers

  datatype Exception =
    | CommandException(message: string, inner: Option<Exception>)
    | TypedCommandException(action: string)
    | QueryException(action: string)
    | TypedQueryException(action: string)
    | Other(kind: string)

  const MessagePrefix: string := "Failed to execute command "

  /** The message `CommandException(IAction)` builds from the action's name. */
  function ActionMessage(commandName: string): (m: string)
    ensures |m| == |MessagePrefix| + |commandName| + 1
    ensures m[..|MessagePrefix|] == MessagePrefix && m[|m| - 1] == '.'
  {
    MessagePrefix + commandName + "."
  }

  /** Reads the action name back out of a message of that shape. */
  function ActionNameOf(message: string): Option<string>
  {
    if |message| > |MessagePrefix| && message[..|MessagePrefix|] == MessagePrefix
       && message[|message| - 1] == '.'
    then Some(message[|MessagePrefix|..|message| - 1])
    else None
  }

  lemma {:induction false} ActionMessageNamesAction(commandName: string)
    ensures ActionNameOf(ActionMessage(commandName)) == Some(commandName)
  {
    var m := ActionMessage(commandName);
    assert m == MessagePrefix + commandName + ".";
    assert m[|MessagePrefix|..|m| - 1] == commandName;
  }

  /** Only messages of exactly that shape name an action. */
  lemma {:induction false} ActionNameOfOnlyActionMessages(message: string, commandName: string)
    ensures ActionNameOf(message) == Some(commandName) <==> message == ActionMessage(commandName)
  {
    if ActionNameOf(message) == Some(commandName) {
      var p := |MessagePrefix|;
      assert message == message[..p] + message[p..|message| - 1] + [message[|message| - 1]];
    }
    if message == ActionMessage(commandName) {
      ActionMessageNamesAction(commandName);
    }
  }

  /** Different action names give different messages. */
  lemma {:induction false} ActionMessageInjective(a: string, b: string)
    ensures ActionMessage(a) == ActionMessage(b) ==> a == b
  {
    ActionMessageNamesAction(a);
    ActionMessageNamesAction(b);
  }

  /** `CommandException(IAction command)`: the message names the action; no inner exception. */
  function FromAction(commandName: string): (e: Exception)
    ensures e.CommandException? && e.inner == None
    ensures ActionNameOf(e.message) == Some(commandName)
  {
    ActionMessageNamesAction(commandName);
    FromMessage(ActionMessage(commandName))
  }

  /** `CommandException(string message)`: the message is kept verbatim; no inner exception. */
  function FromMessage(message: string): (e: Exception)
    ensures e.CommandException? && e.message == message && e.inner == None
  {
    CommandException(message, None)
  }

  /** `CommandException(string message, Exception innerException)`: both are kept. */
  function FromMessageAndInner(message: string, innerException: Exception): (e: Exception)
    ensures e.CommandException? && e.message == message && e.inner == Some(innerException)
  {
    CommandException(message, Some(innerException))
  }

  /** Guard-failure exceptions of two different actions are different. */
  lemma FromActionInjective(a: string, b: string)
    ensures FromAction(a) == FromAction(b) ==> a == b
  {
    ActionMessageInjective(a, b);
  }
}
