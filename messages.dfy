/** The values exchanged between the chat clients, the language model and the
    tool servers: messages, tool calls, JSON-shaped payloads, and the ways a
    turn can fail. */
module Messages {

  datatype Option<+T> = None | Some(value: T)

  datatype Result<+T, +E> = Ok(value: T) | Err(error: E)

  /** A JSON-shaped payload, as JSON parsing produces and JSON serialisation consumes:
      tool arguments and tool results. */
  datatype Value =
    | Null
    | Bool(b: bool)
    | Num(n: int)
    | Str(s: string)
    | Arr(items: seq<Value>)
    | Obj(fields: map<string, Value>)

  /** Python truthiness: a falsy value is replaced by the default of an "or". */
  predicate Falsy(v: Value) {
    match v
    case Null => true
    case Bool(b) => !b
    case Num(n) => n == 0
    case Str(s) => s == ""
    case Arr(items) => items == []
    case Obj(fields) => fields == map[]
  }

  /** The empty argument dictionary `{}`. */
  const EmptyArgs: Value := Obj(map[])

  /** A tool call as the model emits it. `args` is None when the call's
      dictionary has no "args" key. */
  datatype ToolCall = ToolCall(id: string, name: string, args: Option<Value>)

  /** What the model returns: an assistant message with its text content
      (None when missing) and its ordered tool calls. */
  datatype AiMessage = AiMessage(content: Option<string>, toolCalls: seq<ToolCall>)

  /** A conversation entry. */
  datatype Message =
    | System(text: string)
    | Human(text: string)
    | AI(reply: AiMessage)
    | Tool(toolCallId: string, content: Value)

  /** A model endpoint: its reply to a message list, or None when the call
      raised. */
  type Model = seq<Message> -> Option<AiMessage>

  /** A tool as listed by the tool servers: its name and the server that
      provides it (two servers may offer tools with the same name). */
  datatype ToolHandle = ToolHandle(name: string, server: string)

  /** Why a turn stopped early; each is a Python exception in the clients. */
  datatype Failure =
    | UnknownTool(name: string)    // KeyError from the name->tool map
    | ToolRaised(name: string)     // the tool's invocation raised
    | ModelRaised                  // the model call raised
    | NoToolCall                   // IndexError: the response has no tool call
    | MissingArgs                  // KeyError: the first call has no "args" key

  /** A missing content reads as the empty text. */
  function OrEmpty(content: Option<string>): (r: string)
    ensures content.Some? ==> r == content.value
    ensures content.None? ==> r == ""
  {
    if content.Some? then content.value else ""
  }

  /** Argument defaulting: a missing or falsy argument value becomes the
      empty dictionary; anything else passes through. */
  function DefaultArgs(args: Option<Value>): (r: Value)
    ensures args.None? ==> r == EmptyArgs
    ensures args.Some? && Falsy(args.value) ==> r == EmptyArgs
    ensures args.Some? && !Falsy(args.value) ==> r == args.value
    ensures r == EmptyArgs || !Falsy(r)
  {
    if args.None? || Falsy(args.value) then EmptyArgs else args.value
  }

  /** `DefaultArgs` followed by the parse-or-keep-raw fallback for strings:
      a string is replaced by what `parse` makes of it, or kept as it is
      when parsing fails. */
  function NormalizeArgs(args: Option<Value>, parse: string -> Option<Value>): (r: Value)
    ensures args.None? ==> r == EmptyArgs
    ensures args.Some? && Falsy(args.value) ==> r == EmptyArgs
    ensures args.Some? && !Falsy(args.value) && !args.value.Str? ==> r == args.value
    ensures args.Some? && args.value.Str? && args.value.s != "" ==>
              r == (if parse(args.value.s).Some? then parse(args.value.s).value else args.value)
  {
    var a := DefaultArgs(args);
    if a.Str? then
      match parse(a.s)
      case Some(v) => v
      case None => a
    else a
  }

  /** The two normalisations disagree only on non-empty string arguments, and
      there only when the string parses. */
  lemma NormalizeRefinesDefault(args: Option<Value>, parse: string -> Option<Value>)
    ensures NormalizeArgs(args, parse) != DefaultArgs(args) ==>
              DefaultArgs(args).Str? && parse(DefaultArgs(args).s).Some?
  {
  }
}
