# chatbot-mcp-client: the tool-calling chat loop, in Dafny

This project models the orchestration core of chatbot-mcp-client. The
repository has three clients that connect a language model to tools offered
by MCP tool servers:

- **02_client.py**, a web chat with a persistent history. Each user input is
  sent with the whole history to the model with tools bound. Every tool call
  of the response is dispatched. The tool messages are appended, and a second
  call to the model without tools produces the final answer. The page shows
  the history filtered to user messages and assistant messages without tool
  calls.
- **03_client.py**, a terminal loop. It reads a line, strips it, and stops on
  "exit" or "quit". It sends the line alone to the model. If the response
  calls tools, it dispatches every call and asks the model again with the
  line, the response and the tool messages.
- **01_client.py**, a batch run over a fixed list of prompts. Only the first
  tool call of each response is dispatched, with its arguments as they came.
  The tool's raw result goes back to the model.

The model is split into these modules:

- `Messages`: messages, tool calls, JSON-shaped values, and argument
  defaulting and parsing.
- `Registry`: the name-to-tool map. When two tools share a name, the last
  one wins.
- `Dispatch`: the per-call dispatch of 02 and 03 and the loop they share.
  `DispatchToolCalls` is proved against the recursive function `DispatchAll`.
- `StreamlitChat` (02): the render pass, one user turn as the function
  `Turn`, and a session invariant. The invariant says the system message
  comes first and only there, and every tool message answers a call of the
  assistant message just before its run of tool messages. The session is a
  class whose `history` field the turn method updates in place.
- `TerminalChat` (03): Python's `strip` and the exit check, one line as
  `Step`, and the loop as `Run`. The method `RunTerminal` is proved against
  `Run`.
- `BatchChat` (01): the first-call dispatch, one prompt as `BatchStep`, and
  the loop as `Batch`. The method `RunBatch` is proved against `Batch`.

Collaborators the clients call but do not define are parameters:

- the model endpoints are functions from a message list to an optional
  reply;
- the tool invocation is a function from a tool and its arguments to an
  optional result;
- JSON parsing and serialisation are functions too.

`None` stands for "the call raised". Each Python exception that ends a turn
or a program is a `Failure` value: a `KeyError` on an unknown tool name, a
raising tool, a raising model call, the `IndexError` on a response without
tool calls in 01, and the `KeyError` on missing arguments in 01.

What the clients do, and therefore what the model states:

- A failing or unknown tool is not turned into an error tool message. The
  exception aborts the turn in 02 and ends the program in 03 and 01.
  `TurnAbortsBeforeToolMessages`, `StepUnknownTool` and `DispatchAllErr`
  state this.
- The web page does not group tool results with their calls and raises no
  error for a tool message without a matching call. It only hides messages. The pairing by id holds of the
  history anyway, as the invariant `Correlated` that every turn keeps.
- There is no second round of tool calls. The final call in 02 uses the model
  without tools. The final call in 03 and 01 uses the model with tools, and
  any tool calls in its reply are ignored: only its content is shown.
- The terminal client sends no history to the model, only the current line
  (and, for the final call, the response and the tool messages).

## Model

| member | source | states |
|---|---|---|
| Messages.DefaultArgs | 03_client.py:76 | missing or falsy arguments become the empty dictionary, anything else passes unchanged; the result is never a falsy value other than the empty dictionary |
| Messages.NormalizeArgs | 02_client.py:105-110 | arguments are defaulted as in 03; a non-empty string is then replaced by what it parses to, or kept as it is when parsing fails; every other value is untouched |
| Messages.NormalizeRefinesDefault | 02_client.py:105-110 | the two clients' argument handling differs only on a string that parses |
| Registry.ToolByName | 02_client.py:56 | the map's keys are exactly the names in the tool list, and each name maps to a tool of the list that carries that name |
| Registry.ToolByNameLastWins | 03_client.py:46 | a name maps to the last tool in the list that has it |
| Registry.ShadowedToolUnreachable | 01_client.py:40 | a tool with a later namesake is never reached by name |
| Dispatch.DispatchAllOk | 02_client.py:102-116 | dispatch succeeds exactly when every call names a known tool whose invocation returns; then there is one tool message per call, in call order, answering the call's id with the serialised result of the tool on the prepared arguments |
| Dispatch.FirstFailing | 03_client.py:74-81 | the index of the first call that fails; every call before it succeeds |
| Dispatch.DispatchAllErr | 02_client.py:112-113 | a failed dispatch carries the failure of the first failing call |
| Dispatch.DispatchToolCalls | 03_client.py:73-89 | the loop over the tool calls computes exactly the dispatch function: the tool messages in order, or the first failure |
| StreamlitChat.RenderShowsOnlyDisplayed | 02_client.py:66-75 | the page shows only user messages and assistant messages without tool calls, all taken from the history |
| StreamlitChat.RenderShowsDisplayed | 02_client.py:66-75 | every user message and every assistant message without tool calls in the history is shown |
| StreamlitChat.RenderAppend | 02_client.py:66-75 | rendering keeps history order: a concatenated history renders as the two renderings concatenated |
| StreamlitChat.RenderIdempotent | 02_client.py:66-75 | rendering a rendering changes nothing |
| StreamlitChat.RenderToolMessages | 02_client.py:66-75 | a run of tool messages shows nothing |
| StreamlitChat.TurnOnlyAppends | 02_client.py:79-124 | a turn never rewrites the history: the old history is a prefix of the new one, followed by the user message when there was input; an empty input changes nothing, and a raising first model call leaves exactly the user message appended and aborts the turn |
| StreamlitChat.TurnWithoutToolCalls | 02_client.py:90-96 | a first response without tool calls appends exactly the user message and that response, and is the answer |
| StreamlitChat.TurnWithToolCalls | 02_client.py:97-124 | a completed turn with n tool calls appends n + 3 messages: the user message, the first response, one tool message per call in call order with the serialised result of the named tool, and the final answer; that answer is the tool-less model's reply to the history up to the tool messages, kept to its content with a missing content read as the empty text, and without tool calls |
| StreamlitChat.TurnFinalCallRaises | 02_client.py:116-121 | when the final model call raises, the turn aborts with the user message, the first response and the tool messages (one per call, answering the calls' ids in order) already in the history |
| StreamlitChat.TurnAbortsBeforeToolMessages | 02_client.py:102-116 | a call that fails aborts the turn after the first response and before any tool message is appended |
| StreamlitChat.UnknownToolIsNamedCall | 02_client.py:112 | a turn aborted on an unknown tool names a call of the first response whose name is not in the map, and its history ends with that response |
| StreamlitChat.TurnEndsWithAnswer | 02_client.py:119-124 | an answered turn's history ends with its answer, and the answer never has tool calls: no second tool round follows |
| StreamlitChat.TurnRender | 02_client.py:66-124 | after a turn the page shows what it showed before, then the user message when there was input, then the answer when the turn was answered, and nothing else |
| StreamlitChat.TurnKeepsSessionInvariant | 02_client.py:62-124 | every turn keeps the session invariant: the system message first and only there, and every tool message answering by id a call of the assistant message before its run |
| StreamlitChat.ChatSession.constructor | 02_client.py:48-63 | a new session's history is the system prompt alone, and the tool map is built from the tool list |
| StreamlitChat.ChatSession.HandleUserInput | 02_client.py:77-124 | handling an input leaves the history and outcome that the turn function computes from the old history, and keeps the session invariant |
| TerminalChat.LeadingSpace | 03_client.py:58 | the length of the whitespace prefix: all whitespace, and followed by a non-space or the end |
| TerminalChat.TrailingSpace | 03_client.py:58 | the length of the whitespace suffix: all whitespace, and preceded by a non-space or the start |
| TerminalChat.Strip | 03_client.py:58 | the stripped line neither starts nor ends with whitespace and is no longer than the line |
| TerminalChat.StripExact | 03_client.py:58 | stripping whitespace around a text that neither starts nor ends with whitespace gives that text back |
| TerminalChat.ExitWordAnySpacing | 03_client.py:58-61 | "exit" or "quit" in any letter case and with any surrounding whitespace ends the loop |
| TerminalChat.StepShape | 03_client.py:65-94 | the first model call sees the line alone; a reply without tool calls is shown with no dispatch and no final call; otherwise the final call sees the line, the response and one tool message per call in order, with the serialised result of the named tool on the defaulted arguments |
| TerminalChat.StepUnknownTool | 03_client.py:81 | a line that fails on an unknown tool had a call with that name, and the name is not in the map |
| TerminalChat.TakeLine | 03_client.py:58-95 | one pass of the loop body computes exactly the line's outcome: an exit command, a turn, or the failure that ends the program |
| TerminalChat.RunLinesInOrder | 03_client.py:57-95 | whatever each line does, the loop takes the lines in order and stops at the first line that produces no turn, with that line's reason |
| TerminalChat.RunLineByLine | 03_client.py:57-95 | lines are handled in order and no history carries over: the model inputs of turn k are built from line k alone, so, given the model and tools as the functions listed under "## Left out", turn k is what line k produces on its own; the loop ends on the first exit command, on the first failure with that failure, or when the input runs out |
| TerminalChat.RunTerminal | 03_client.py:43-95 | the program's loop computes exactly the loop function over the lines typed |
| BatchChat.LaterCallsIgnored | 01_client.py:57-64 | only the first tool call of a response is dispatched; the calls after it change nothing |
| BatchChat.BatchStepShape | 01_client.py:55-69 | a response without tool calls fails; otherwise the record is for its own prompt, and the final input is the prompt, the response and one tool message answering the first call's id with the raw result of the named tool on that call's own arguments |
| BatchChat.BatchPromptByPrompt | 01_client.py:51-71 | prompts are handled in list order and no history carries over: record k is what prompt k produces, given the model and tools as the functions listed under "## Left out"; the run completes every prompt or stops at the first failing one with its failure |
| BatchChat.ClientPrompts | 01_client.py:45-51 | the client's run over its two prompts yields at most two records, the k-th for the k-th prompt with that prompt, its response and its tool message as the final input, and both when nothing fails |
| BatchChat.RunBatch | 01_client.py:35-71 | the program's loop computes exactly the loop function over the prompts |

## Left out

- The Streamlit page layout, the chat widgets and the print helpers are left out. Only what is shown is modelled, not how it is drawn.
- asyncio and the event loop are left out. Every awaited call is modelled as an ordinary call that returns or raises.
- The server configuration, tool discovery and the stdio and HTTP transports are left out. The tool list is a parameter.
- The model, `bind_tools` and the tools' own behaviour are left out. They are function parameters, so the same input always gives the same reply within one proof; the model's nondeterminism and any state a tool keeps between calls (the expense tracker's records, say) are not captured.
- JSON parsing and serialisation are parameters. A serialisation that raises on a result JSON cannot encode is not modelled.
- Value has no floating-point numbers, and Python's distinction between a list and a tuple is not modelled.
- The round trip of a tool result through serialisation and back for display is not modelled, because the page never displays tool results.
- TerminalChat.IsExitCommand: lower-cases ASCII letters only. This is exact for the comparison with "exit" and "quit", because no non-ASCII character lower-cases to one of their letters.
- TerminalChat.RunTerminal: running out of input ends the loop as InputExhausted. In Python, `input` raises EOFError there and the program stops with a traceback.
- The web chat's re-run of the whole script on each interaction is modelled as one call of HandleUserInput on a session that outlives it.
- The clients do not turn tool errors into tool messages, group results with their calls, raise errors for unmatched tool messages or run a second tool round, so none of these is modelled.
