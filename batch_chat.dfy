/** The batch client (01_client.py): for each prompt of a fixed list, in
    order and on its own, ask the model with tools bound, dispatch the FIRST
    tool call of the response only, with its arguments as they came, and ask
    the model again with the prompt, the response and that one tool message. */
module BatchChat {
  import opened Messages
  import opened Registry
  import opened Dispatch

  /** The prompts the client runs. */
  const Prompts: seq<string> := [
    "Can you list my all expenses for september (1/9/25 to 30/9/25) month and print it in proper readable format",
    "Can you list my all expenses for January 2026 month and print it in proper readable format"
  ]

  /** The tool message for the first call of a response: its id, and the raw
      result of the named tool on the call's arguments, unchanged and not
      serialised. Each failure is the exception the indexing, the key lookups
      or the invocation raises. */
  function DispatchFirst(calls: seq<ToolCall>, namedTools: map<string, ToolHandle>, invoke: Invoker)
    : Result<Message, Failure>
  {
    if calls == [] then Err(NoToolCall)
    else
      var call := calls[0];
      if call.args.None? then Err(MissingArgs)
      else if call.name !in namedTools then Err(UnknownTool(call.name))
      else
        match invoke(namedTools[call.name], call.args.value)
        case None => Err(ToolRaised(call.name))
        case Some(result) => Ok(Tool(call.id, result))
  }

  /** Only the first call is dispatched: whatever follows it changes nothing. */
  lemma LaterCallsIgnored(call: ToolCall, later: seq<ToolCall>, namedTools: map<string, ToolHandle>,
                          invoke: Invoker)
    ensures DispatchFirst([call] + later, namedTools, invoke) == DispatchFirst([call], namedTools, invoke)
  {
    assert ([call] + later)[0] == call;
  }

  /** What one prompt produced. */
  datatype BatchRecord = BatchRecord(prompt: string, response: AiMessage, toolMessage: Message,
                                     finalInput: seq<Message>, shown: Option<string>)

  /** One iteration of the loop. */
  function BatchStep(prompt: string, namedTools: map<string, ToolHandle>, llmWithTools: Model,
                     invoke: Invoker): Result<BatchRecord, Failure>
  {
    match llmWithTools([Human(prompt)])
    case None => Err(ModelRaised)
    case Some(response) =>
      match DispatchFirst(response.toolCalls, namedTools, invoke)
      case Err(e) => Err(e)
      case Ok(toolMessage) =>
        var finalInput := [Human(prompt), AI(response), toolMessage];
        match llmWithTools(finalInput)
        case None => Err(ModelRaised)
        case Some(final) => Ok(BatchRecord(prompt, response, toolMessage, finalInput, final.content))
  }

  /** A prompt whose response has no tool call fails; otherwise the final
      model input is exactly the prompt, the response and one tool message
      answering the first call's id with the raw result of the named tool on
      the call's own arguments. */
  lemma BatchStepShape(prompt: string, namedTools: map<string, ToolHandle>, llmWithTools: Model,
                       invoke: Invoker)
    ensures var first := llmWithTools([Human(prompt)]);
            first.Some? && first.value.toolCalls == [] ==>
              BatchStep(prompt, namedTools, llmWithTools, invoke) == Err(NoToolCall)
    ensures var step := BatchStep(prompt, namedTools, llmWithTools, invoke);
            step.Ok? ==>
              var rec := step.value;
              var call := rec.response.toolCalls[0];
              && rec.prompt == prompt
              && llmWithTools([Human(prompt)]) == Some(rec.response)
              && rec.response.toolCalls != []
              && call.args.Some? && call.name in namedTools
              && invoke(namedTools[call.name], call.args.value).Some?
              && rec.toolMessage == Tool(call.id, invoke(namedTools[call.name], call.args.value).value)
              && rec.finalInput == [Human(prompt), AI(rec.response), rec.toolMessage]
              && rec.shown == llmWithTools(rec.finalInput).value.content
  {
  }

  datatype BatchResult = BatchResult(records: seq<BatchRecord>, failure: Option<Failure>)

  /** The loop over the prompts, as a function: it stops at the first
      exception. */
  function Batch(prompts: seq<string>, namedTools: map<string, ToolHandle>, llmWithTools: Model,
                 invoke: Invoker): BatchResult
  {
    if prompts == [] then BatchResult([], None)
    else
      match BatchStep(prompts[0], namedTools, llmWithTools, invoke)
      case Err(e) => BatchResult([], Some(e))
      case Ok(rec) =>
        var rest := Batch(prompts[1..], namedTools, llmWithTools, invoke);
        BatchResult([rec] + rest.records, rest.failure)
  }

  function Continue(done: seq<BatchRecord>, r: BatchResult): BatchResult {
    BatchResult(done + r.records, r.failure)
  }

  /** The prompts are handled in list order and no history carries over: the
      model inputs of record k are built from prompt k alone, so, with the
      model and the tools as given functions, record k is what prompt k
      produces on its own. The run completes every prompt, or stops at
      the first one that fails, with that prompt's failure. */
  lemma {:induction false} BatchPromptByPrompt(prompts: seq<string>, namedTools: map<string, ToolHandle>,
                                               llmWithTools: Model, invoke: Invoker)
    ensures var r := Batch(prompts, namedTools, llmWithTools, invoke);
            var n := |r.records|;
            && n <= |prompts|
            && (forall k | 0 <= k < n ::
                  BatchStep(prompts[k], namedTools, llmWithTools, invoke) == Ok(r.records[k]))
            && (r.failure.None? <==> n == |prompts|)
            && (r.failure.Some? ==>
                  BatchStep(prompts[n], namedTools, llmWithTools, invoke) == Err(r.failure.value))
  {
    if prompts != [] {
      var here := BatchStep(prompts[0], namedTools, llmWithTools, invoke);
      if here.Ok? {
        BatchPromptByPrompt(prompts[1..], namedTools, llmWithTools, invoke);
        var rest := Batch(prompts[1..], namedTools, llmWithTools, invoke);
        var r := Batch(prompts, namedTools, llmWithTools, invoke);
        assert r == BatchResult([here.value] + rest.records, rest.failure);
        forall k | 1 <= k <= |rest.records|
          ensures prompts[k] == prompts[1..][k - 1] && r.records[k] == rest.records[k - 1]
        {
        }
        if |rest.records| < |prompts| - 1 {
          assert prompts[|rest.records| + 1] == prompts[1..][|rest.records|];
        }
      }
    }
  }

  /** The client's own run over its two prompts: at most two records, the
      k-th for the k-th prompt, whose final model input is that prompt, its
      response and its tool message; a run that stops early stops on a prompt of the list. */
  lemma ClientPrompts(namedTools: map<string, ToolHandle>, llmWithTools: Model, invoke: Invoker)
    ensures var r := Batch(Prompts, namedTools, llmWithTools, invoke);
            && |r.records| <= 2
            && (forall k | 0 <= k < |r.records| ::
                  r.records[k].prompt == Prompts[k]
                  && r.records[k].finalInput == [Human(Prompts[k]), AI(r.records[k].response), r.records[k].toolMessage])
            && (r.failure.None? ==> |r.records| == 2)
  {
    BatchPromptByPrompt(Prompts, namedTools, llmWithTools, invoke);
    var r := Batch(Prompts, namedTools, llmWithTools, invoke);
    forall k | 0 <= k < |r.records|
      ensures r.records[k].prompt == Prompts[k]
                  && r.records[k].finalInput == [Human(Prompts[k]), AI(r.records[k].response), r.records[k].toolMessage]
    {
      BatchStepShape(Prompts[k], namedTools, llmWithTools, invoke);
    }
  }

  /** The client's entry point: build the name->tool map, then run the prompts. */
  method RunBatch(prompts: seq<string>, tools: seq<ToolHandle>, llmWithTools: Model, invoke: Invoker)
    returns (records: seq<BatchRecord>, failure: Option<Failure>)
    ensures BatchResult(records, failure) == Batch(prompts, ToolByName(tools), llmWithTools, invoke)
  {
    var namedTools := ToolByName(tools);
    records := [];
    var i := 0;
    assert prompts[0..] == prompts;
    while i < |prompts|
      invariant 0 <= i <= |prompts|
      invariant Batch(prompts, namedTools, llmWithTools, invoke)
                == Continue(records, Batch(prompts[i..], namedTools, llmWithTools, invoke))
    {
      assert prompts[i..][0] == prompts[i] && prompts[i..][1..] == prompts[i + 1..];
      ghost var rest := Batch(prompts[i + 1..], namedTools, llmWithTools, invoke);
      ghost var here := BatchStep(prompts[i], namedTools, llmWithTools, invoke);
      assert Batch(prompts[i..], namedTools, llmWithTools, invoke)
             == match here
                case Err(e) => BatchResult([], Some(e))
                case Ok(rec) => BatchResult([rec] + rest.records, rest.failure);
      var prompt := prompts[i];
      var response := llmWithTools([Human(prompt)]);
      if response.None? {
        assert records + [] == records;
        return records, Some(ModelRaised);
      }
      var reply := response.value;
      if reply.toolCalls == [] {
        assert records + [] == records;
        return records, Some(NoToolCall);
      }
      var selectedTool := reply.toolCalls[0].name;
      var selectedToolArgs := reply.toolCalls[0].args;
      var selectedToolId := reply.toolCalls[0].id;
      if selectedToolArgs.None? {
        assert records + [] == records;
        return records, Some(MissingArgs);
      }
      if selectedTool !in namedTools {
        assert records + [] == records;
        return records, Some(UnknownTool(selectedTool));
      }
      var toolResult := invoke(namedTools[selectedTool], selectedToolArgs.value);
      if toolResult.None? {
        assert records + [] == records;
        return records, Some(ToolRaised(selectedTool));
      }
      var toolMessage := Tool(selectedToolId, toolResult.value);
      var finalInput := [Human(prompt), AI(reply), toolMessage];
      var final := llmWithTools(finalInput);
      if final.None? {
        assert records + [] == records;
        return records, Some(ModelRaised);
      }
      var rec := BatchRecord(prompt, reply, toolMessage, finalInput, final.value.content);
      assert here == Ok(rec);
      assert records + ([rec] + rest.records) == (records + [rec]) + rest.records;
      records := records + [rec];
      i := i + 1;
    }
    assert prompts[i..] == [] && records + [] == records;
    failure := None;
  }
}
