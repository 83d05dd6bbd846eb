/** The web chat client with a persistent history (02_client.py). A session
    keeps one message log, started with a system message. Each user input
    appends the user message and the model's first response; when that
    response calls tools, the calls are dispatched, their tool messages are
    appended as one batch, and a second model call without tools produces a
    content-only final answer. The page shows the log filtered to what the
    user should see. */
module StreamlitChat {
  import opened Messages
  import opened Registry
  import opened Dispatch

  const SystemPrompt: string :=
    "You have access to tools. When you choose to call a tool, do not narrate status updates. "
    + "After tools run, return only a concise final answer."

  // ---------------------------------------------------------------------------
  // Rendering the history

  /** The page shows user messages and assistant messages without tool calls. */
  predicate Displayed(m: Message) {
    m.Human? || (m.AI? && m.reply.toolCalls == [])
  }

  /** The render pass: the history filtered to the displayed messages, in order. */
  function Render(h: seq<Message>): (shown: seq<Message>)
    ensures |shown| <= |h|
  {
    if h == [] then []
    else (if Displayed(h[0]) then [h[0]] else []) + Render(h[1..])
  }

  /** Rendering a log is rendering its parts one after the other, so the
      order of the history is kept. */
  lemma {:induction false} RenderAppend(a: seq<Message>, b: seq<Message>)
    ensures Render(a + b) == Render(a) + Render(b)
  {
    if a == [] {
      assert a + b == b;
    } else {
      var head := if Displayed(a[0]) then [a[0]] else [];
      assert (a + b)[0] == a[0] && (a + b)[1..] == a[1..] + b;
      assert Render(a + b) == head + Render(a[1..] + b);
      RenderAppend(a[1..], b);
      assert head + (Render(a[1..]) + Render(b)) == (head + Render(a[1..])) + Render(b);
    }
  }

  /** Only displayed messages of the history are shown: never the system
      message, a tool message or an assistant message that calls tools. */
  lemma {:induction false} RenderShowsOnlyDisplayed(h: seq<Message>)
    ensures forall m | m in Render(h) :: Displayed(m) && m in h
  {
    if h != [] {
      RenderShowsOnlyDisplayed(h[1..]);
      forall m | m in Render(h[1..]) ensures m in h {
        var k :| 0 <= k < |h[1..]| && h[1..][k] == m;
        assert h[k + 1] == m;
      }
    }
  }

  /** Every displayed message of the history is shown. */
  lemma {:induction false} RenderShowsDisplayed(h: seq<Message>, i: nat)
    requires i < |h| && Displayed(h[i])
    ensures h[i] in Render(h)
  {
    if i > 0 {
      assert h[i] == h[1..][i - 1];
      RenderShowsDisplayed(h[1..], i - 1);
    }
  }

  /** Rendering what is already rendered changes nothing. */
  lemma {:induction false} RenderIdempotent(h: seq<Message>)
    ensures Render(Render(h)) == Render(h)
  {
    if h != [] {
      var head := if Displayed(h[0]) then [h[0]] else [];
      RenderAppend(head, Render(h[1..]));
      RenderIdempotent(h[1..]);
    }
  }

  /** A run of tool messages shows nothing. */
  lemma {:induction false} RenderToolMessages(msgs: seq<Message>)
    requires forall k | 0 <= k < |msgs| :: msgs[k].Tool?
    ensures Render(msgs) == []
  {
    if msgs != [] {
      RenderToolMessages(msgs[1..]);
    }
  }

  // ---------------------------------------------------------------------------
  // One user turn

  datatype TurnOutcome =
    | NoInput                     // the input box was empty
    | Answered(answer: AiMessage) // the reply the page shows
    | Aborted(failure: Failure)   // an exception ended the turn

  datatype TurnResult = TurnResult(history: seq<Message>, outcome: TurnOutcome)

  /** What one user input does to the history h. */
  function Turn(h: seq<Message>, userInput: string, byName: map<string, ToolHandle>,
                llm: Model, llmWithTools: Model,
                parse: string -> Option<Value>, invoke: Invoker, serialize: Serializer): TurnResult
  {
    if userInput == "" then TurnResult(h, NoInput)
    else
      var h1 := h + [Human(userInput)];
      match llmWithTools(h1)
      case None => TurnResult(h1, Aborted(ModelRaised))
      case Some(first) =>
        var h2 := h1 + [AI(first)];
        if first.toolCalls == [] then TurnResult(h2, Answered(first))
        else
          match DispatchAll(first.toolCalls, byName, DefaultThenParse(parse), invoke, serialize)
          case Err(e) => TurnResult(h2, Aborted(e))
          case Ok(toolMsgs) =>
            var h3 := h2 + toolMsgs;
            match llm(h3)
            case None => TurnResult(h3, Aborted(ModelRaised))
            case Some(final) =>
              var answer := AiMessage(Some(OrEmpty(final.content)), []);
              TurnResult(h3 + [AI(answer)], Answered(answer))
  }

  /** A turn only appends: the old history is a prefix of the new one. An
      empty input leaves the history alone; a first model call that raises
      leaves exactly the user message appended. */
  lemma TurnOnlyAppends(h: seq<Message>, userInput: string, byName: map<string, ToolHandle>,
                        llm: Model, llmWithTools: Model,
                        parse: string -> Option<Value>, invoke: Invoker, serialize: Serializer)
    ensures var r := Turn(h, userInput, byName, llm, llmWithTools, parse, invoke, serialize);
            && |h| <= |r.history| && r.history[..|h|] == h
            && (userInput != "" ==> r.history[|h|] == Human(userInput))
            && (userInput == "" ==> r == TurnResult(h, NoInput))
            && (userInput != "" && llmWithTools(h + [Human(userInput)]).None? ==>
                  r == TurnResult(h + [Human(userInput)], Aborted(ModelRaised)))
  {
  }

  /** Without tool calls the turn appends exactly the user message and the reply. */
  lemma TurnWithoutToolCalls(h: seq<Message>, userInput: string, byName: map<string, ToolHandle>,
                             llm: Model, llmWithTools: Model,
                             parse: string -> Option<Value>, invoke: Invoker, serialize: Serializer,
                             first: AiMessage)
    requires userInput != ""
    requires llmWithTools(h + [Human(userInput)]) == Some(first) && first.toolCalls == []
    ensures var r := Turn(h, userInput, byName, llm, llmWithTools, parse, invoke, serialize);
            && r.history == h + [Human(userInput), AI(first)]
            && |r.history| == |h| + 2
            && r.outcome == Answered(first)
  {
  }

  /** A completed turn with n tool calls appends, in order, the user message,
      the first response, one tool message per call answering that call's id
      with the serialised result of the named tool, and the final answer:
      n + 3 messages. The final answer is the reply of the model WITHOUT tools
      to the history up to and including the tool messages, reduced to its
      content, with a missing content read as the empty text. */
  lemma TurnWithToolCalls(h: seq<Message>, userInput: string, byName: map<string, ToolHandle>,
                          llm: Model, llmWithTools: Model,
                          parse: string -> Option<Value>, invoke: Invoker, serialize: Serializer,
                          first: AiMessage)
    requires userInput != ""
    requires llmWithTools(h + [Human(userInput)]) == Some(first) && first.toolCalls != []
    requires Turn(h, userInput, byName, llm, llmWithTools, parse, invoke, serialize).outcome.Answered?
    ensures var r := Turn(h, userInput, byName, llm, llmWithTools, parse, invoke, serialize);
            var calls, n := first.toolCalls, |first.toolCalls|;
            && |r.history| == |h| + n + 3
            && r.history[|h|] == Human(userInput)
            && r.history[|h| + 1] == AI(first)
            && (forall i | 0 <= i < n ::
                  && calls[i].name in byName
                  && var res := invoke(byName[calls[i].name], NormalizeArgs(calls[i].args, parse));
                  && res.Some?
                  && r.history[|h| + 2 + i] == Tool(calls[i].id, Str(serialize(res.value))))
            && r.history[|h| + n + 2] == AI(r.outcome.answer)
            && var final := llm(r.history[..|h| + n + 2]);
            && final.Some?
            && r.outcome.answer == AiMessage(Some(OrEmpty(final.value.content)), [])
            && (final.value.content.None? ==> r.outcome.answer.content == Some(""))
  {
    var calls := first.toolCalls;
    var policy := DefaultThenParse(parse);
    DispatchAllOk(calls, byName, policy, invoke, serialize);
    var r := Turn(h, userInput, byName, llm, llmWithTools, parse, invoke, serialize);
    var msgs := DispatchAll(calls, byName, policy, invoke, serialize).value;
    var h3 := h + [Human(userInput)] + [AI(first)] + msgs;
    assert r.history == h3 + [r.history[|h3|]];
    assert r.history[..|h3|] == h3;
    forall i | 0 <= i < |calls|
      ensures r.history[|h| + 2 + i] == msgs[i]
      ensures CallSucceeds(calls[i], byName, policy, invoke)
    {
    }
  }

  /** When every tool call went through but the final model call raises, the
      turn aborts with the tool messages already in the history: the user
      message, the first response and one tool message per call, answering
      the calls' ids in order. */
  lemma TurnFinalCallRaises(h: seq<Message>, userInput: string, byName: map<string, ToolHandle>,
                            llm: Model, llmWithTools: Model,
                            parse: string -> Option<Value>, invoke: Invoker, serialize: Serializer,
                            first: AiMessage, msgs: seq<Message>)
    requires userInput != ""
    requires llmWithTools(h + [Human(userInput)]) == Some(first) && first.toolCalls != []
    requires DispatchAll(first.toolCalls, byName, DefaultThenParse(parse), invoke, serialize) == Ok(msgs)
    requires llm(h + [Human(userInput), AI(first)] + msgs).None?
    ensures var r := Turn(h, userInput, byName, llm, llmWithTools, parse, invoke, serialize);
            && r.outcome == Aborted(ModelRaised)
            && r.history == h + [Human(userInput), AI(first)] + msgs
            && |msgs| == |first.toolCalls|
            && forall i | 0 <= i < |msgs| :: msgs[i].Tool? && msgs[i].toolCallId == first.toolCalls[i].id
  {
    DispatchAllOk(first.toolCalls, byName, DefaultThenParse(parse), invoke, serialize);
    assert h + [Human(userInput)] + [AI(first)] == h + [Human(userInput), AI(first)];
  }

  /** A failing tool lookup or invocation aborts the turn after the first
      response was appended and before any tool message is: the failure is
      that of the first call that fails, and every call before it went
      through. */
  lemma TurnAbortsBeforeToolMessages(h: seq<Message>, userInput: string, byName: map<string, ToolHandle>,
                                     llm: Model, llmWithTools: Model,
                                     parse: string -> Option<Value>, invoke: Invoker, serialize: Serializer,
                                     first: AiMessage, i: nat)
    requires userInput != ""
    requires llmWithTools(h + [Human(userInput)]) == Some(first)
    requires i < |first.toolCalls| && !CallSucceeds(first.toolCalls[i], byName, DefaultThenParse(parse), invoke)
    ensures var r := Turn(h, userInput, byName, llm, llmWithTools, parse, invoke, serialize);
            var k := FirstFailing(first.toolCalls, byName, DefaultThenParse(parse), invoke);
            && r.history == h + [Human(userInput), AI(first)]
            && k <= i
            && r.outcome == Aborted(DispatchOne(first.toolCalls[k], byName, DefaultThenParse(parse), invoke, serialize).error)
  {
    var policy := DefaultThenParse(parse);
    DispatchAllOk(first.toolCalls, byName, policy, invoke, serialize);
    DispatchAllErr(first.toolCalls, byName, policy, invoke, serialize);
  }

  /** An unknown tool name is never turned into a tool message: it aborts the
      turn, naming a tool the map does not hold. */
  lemma UnknownToolIsNamedCall(h: seq<Message>, userInput: string, byName: map<string, ToolHandle>,
                               llm: Model, llmWithTools: Model,
                               parse: string -> Option<Value>, invoke: Invoker, serialize: Serializer,
                               name: string)
    requires Turn(h, userInput, byName, llm, llmWithTools, parse, invoke, serialize).outcome == Aborted(UnknownTool(name))
    ensures name !in byName
    ensures exists first :: llmWithTools(h + [Human(userInput)]) == Some(first)
                          && Turn(h, userInput, byName, llm, llmWithTools, parse, invoke, serialize).history
                             == h + [Human(userInput), AI(first)]
                          && exists c | c in first.toolCalls :: c.name == name
  {
    var first := llmWithTools(h + [Human(userInput)]).value;
    var policy := DefaultThenParse(parse);
    DispatchAllErr(first.toolCalls, byName, policy, invoke, serialize);
    var k := FirstFailing(first.toolCalls, byName, policy, invoke);
    assert first.toolCalls[k] in first.toolCalls;
  }

  /** An answered turn ends with its answer, and the answer of a turn that
      called tools has no tool calls: no second tool round is dispatched. */
  lemma TurnEndsWithAnswer(h: seq<Message>, userInput: string, byName: map<string, ToolHandle>,
                           llm: Model, llmWithTools: Model,
                           parse: string -> Option<Value>, invoke: Invoker, serialize: Serializer)
    requires Turn(h, userInput, byName, llm, llmWithTools, parse, invoke, serialize).outcome.Answered?
    ensures var r := Turn(h, userInput, byName, llm, llmWithTools, parse, invoke, serialize);
            && r.history[|r.history| - 1] == AI(r.outcome.answer)
            && r.outcome.answer.toolCalls == []
  {
  }

  /** After a turn the page shows what it showed before, then the user's
      message, then the answer when there is one; the first response with
      tool calls and the tool messages stay hidden. */
  lemma TurnRender(h: seq<Message>, userInput: string, byName: map<string, ToolHandle>,
                   llm: Model, llmWithTools: Model,
                   parse: string -> Option<Value>, invoke: Invoker, serialize: Serializer)
    ensures var r := Turn(h, userInput, byName, llm, llmWithTools, parse, invoke, serialize);
            Render(r.history)
            == Render(h)
               + (if userInput == "" then [] else [Human(userInput)])
               + (if r.outcome.Answered? then [AI(r.outcome.answer)] else [])
  {
    var r := Turn(h, userInput, byName, llm, llmWithTools, parse, invoke, serialize);
    if userInput != "" {
      var h1 := h + [Human(userInput)];
      RenderAppend(h, [Human(userInput)]);
      assert Render([Human(userInput)]) == [Human(userInput)];
      if llmWithTools(h1).None? {
        assert r == TurnResult(h1, Aborted(ModelRaised));
      } else {
        var first := llmWithTools(h1).value;
        var h2 := h1 + [AI(first)];
        RenderAppend(h1, [AI(first)]);
        if first.toolCalls == [] {
          assert Render([AI(first)]) == [AI(first)];
          assert r == TurnResult(h2, Answered(first));
        } else {
          assert Render([AI(first)]) == [];
          ToolPathRender(h2, first, byName, llm, parse, invoke, serialize);
          var d := DispatchAll(first.toolCalls, byName, DefaultThenParse(parse), invoke, serialize);
          if d.Err? {
            assert r == TurnResult(h2, Aborted(d.error));
          } else if llm(h2 + d.value).None? {
            assert r == TurnResult(h2 + d.value, Aborted(ModelRaised));
          } else {
            var answer := AiMessage(Some(OrEmpty(llm(h2 + d.value).value.content)), []);
            assert r == TurnResult(h2 + d.value + [AI(answer)], Answered(answer));
          }
        }
      }
    }
  }

  /** The tool path of a turn, from the history ending in the first response:
      the tool messages add nothing to the page, the final answer adds itself. */
  lemma ToolPathRender(h2: seq<Message>, first: AiMessage, byName: map<string, ToolHandle>,
                       llm: Model, parse: string -> Option<Value>,
                       invoke: Invoker, serialize: Serializer)
    ensures var d := DispatchAll(first.toolCalls, byName, DefaultThenParse(parse), invoke, serialize);
            d.Ok? ==>
              && Render(h2 + d.value) == Render(h2)
              && (llm(h2 + d.value).Some? ==>
                    var answer := AiMessage(Some(OrEmpty(llm(h2 + d.value).value.content)), []);
                    Render(h2 + d.value + [AI(answer)]) == Render(h2) + [AI(answer)])
  {
    var policy := DefaultThenParse(parse);
    var d := DispatchAll(first.toolCalls, byName, policy, invoke, serialize);
    if d.Ok? {
      DispatchAllOk(first.toolCalls, byName, policy, invoke, serialize);
      var h3 := h2 + d.value;
      RenderToolMessages(d.value);
      RenderAppend(h2, d.value);
      assert Render(h3) == Render(h2);
      if llm(h3).Some? {
        var answer := AiMessage(Some(OrEmpty(llm(h3).value.content)), []);
        RenderAppend(h3, [AI(answer)]);
        assert Render([AI(answer)]) == [AI(answer)];
      }
    }
  }

  // ---------------------------------------------------------------------------
  // The session invariant: tool messages answer the calls that announced them

  /** The position of the closest message before i that is not a tool
      message, or -1 when there is none. */
  function Announcer(h: seq<Message>, i: nat): (j: int)
    requires i <= |h|
    ensures -1 <= j < i
    ensures j >= 0 ==> !h[j].Tool?
    ensures forall k | j < k < i :: h[k].Tool?
  {
    if i == 0 then -1
    else if !h[i - 1].Tool? then i - 1
    else Announcer(h, i - 1)
  }

  function CallIds(calls: seq<ToolCall>): seq<string> {
    seq(|calls|, k requires 0 <= k < |calls| => calls[k].id)
  }

  /** Every tool message answers, by id, a call of the assistant message that
      precedes its run of tool messages. */
  predicate Correlated(h: seq<Message>) {
    forall i | 0 <= i < |h| && h[i].Tool? ::
      var j := Announcer(h, i);
      j >= 0 && h[j].AI? && h[i].toolCallId in CallIds(h[j].reply.toolCalls)
  }

  /** The session's history: the system message first and only there, and
      every tool message correlated to its announcing call. */
  predicate SessionInvariant(h: seq<Message>) {
    && |h| >= 1
    && h[0] == System(SystemPrompt)
    && (forall i | 1 <= i < |h| :: !h[i].System?)
    && Correlated(h)
  }

  lemma {:induction false} AnnouncerPrefix(h: seq<Message>, ext: seq<Message>, i: nat)
    requires i <= |h|
    ensures Announcer(h + ext, i) == Announcer(h, i)
  {
    if i > 0 {
      assert (h + ext)[i - 1] == h[i - 1];
      AnnouncerPrefix(h, ext, i - 1);
    }
  }

  lemma {:induction false} AnnouncerInRun(h: seq<Message>, run: seq<Message>, k: nat)
    requires |h| > 0 && !h[|h| - 1].Tool?
    requires k <= |run|
    requires forall j | 0 <= j < |run| :: run[j].Tool?
    ensures Announcer(h + run, |h| + k) == |h| - 1
  {
    if k > 0 {
      assert (h + run)[|h| + k - 1] == run[k - 1];
      AnnouncerInRun(h, run, k - 1);
    }
  }

  lemma CorrelatedAppendOther(h: seq<Message>, m: Message)
    requires Correlated(h) && !m.Tool?
    ensures Correlated(h + [m])
  {
    var g := h + [m];
    forall i | 0 <= i < |g| && g[i].Tool?
      ensures var j := Announcer(g, i);
              j >= 0 && g[j].AI? && g[i].toolCallId in CallIds(g[j].reply.toolCalls)
    {
      AnnouncerPrefix(h, [m], i);
      assert g[i] == h[i];
      var j := Announcer(h, i);
      assert g[j] == h[j];
    }
  }

  lemma CorrelatedAppendReplies(h: seq<Message>, run: seq<Message>)
    requires Correlated(h) && |h| > 0 && h[|h| - 1].AI?
    requires forall k | 0 <= k < |run| ::
               run[k].Tool? && run[k].toolCallId in CallIds(h[|h| - 1].reply.toolCalls)
    ensures Correlated(h + run)
  {
    var g := h + run;
    forall i | 0 <= i < |g| && g[i].Tool?
      ensures var j := Announcer(g, i);
              j >= 0 && g[j].AI? && g[i].toolCallId in CallIds(g[j].reply.toolCalls)
    {
      if i < |h| {
        AnnouncerPrefix(h, run, i);
        assert g[i] == h[i];
        var j := Announcer(h, i);
        assert g[j] == h[j];
      } else {
        AnnouncerInRun(h, run, i - |h|);
        assert g[i] == run[i - |h|];
        assert g[|h| - 1] == h[|h| - 1];
      }
    }
  }

  lemma SessionInvariantAppend(h: seq<Message>, ext: seq<Message>)
    requires SessionInvariant(h) && Correlated(h + ext)
    requires forall k | 0 <= k < |ext| :: !ext[k].System?
    ensures SessionInvariant(h + ext)
  {
    var g := h + ext;
    forall i | 1 <= i < |g| ensures !g[i].System? {
      if i >= |h| { assert g[i] == ext[i - |h|]; }
    }
  }

  /** Every turn keeps the session invariant. */
  lemma TurnKeepsSessionInvariant(h: seq<Message>, userInput: string, byName: map<string, ToolHandle>,
                                  llm: Model, llmWithTools: Model,
                                  parse: string -> Option<Value>, invoke: Invoker, serialize: Serializer)
    requires SessionInvariant(h)
    ensures SessionInvariant(Turn(h, userInput, byName, llm, llmWithTools, parse, invoke, serialize).history)
  {
    var r := Turn(h, userInput, byName, llm, llmWithTools, parse, invoke, serialize);
    if userInput != "" {
      var h1 := h + [Human(userInput)];
      CorrelatedAppendOther(h, Human(userInput));
      SessionInvariantAppend(h, [Human(userInput)]);
      if llmWithTools(h1).None? {
        assert r.history == h1;
      } else {
        var first := llmWithTools(h1).value;
        var h2 := h1 + [AI(first)];
        CorrelatedAppendOther(h1, AI(first));
        SessionInvariantAppend(h1, [AI(first)]);
        if first.toolCalls == [] {
          assert r.history == h2;
        } else {
          ToolPathKeepsSessionInvariant(h2, first, byName, llm, parse, invoke, serialize);
          var d := DispatchAll(first.toolCalls, byName, DefaultThenParse(parse), invoke, serialize);
          if d.Err? {
            assert r.history == h2;
          } else if llm(h2 + d.value).None? {
            assert r.history == h2 + d.value;
          } else {
            var answer := AiMessage(Some(OrEmpty(llm(h2 + d.value).value.content)), []);
            assert r.history == h2 + d.value + [AI(answer)];
          }
        }
      }
    }
  }

  /** The tool path of a turn, from the history ending in the first response. */
  lemma ToolPathKeepsSessionInvariant(h2: seq<Message>, first: AiMessage, byName: map<string, ToolHandle>,
                                      llm: Model, parse: string -> Option<Value>,
                                      invoke: Invoker, serialize: Serializer)
    requires SessionInvariant(h2) && h2[|h2| - 1] == AI(first)
    ensures var d := DispatchAll(first.toolCalls, byName, DefaultThenParse(parse), invoke, serialize);
            d.Ok? ==>
              && SessionInvariant(h2 + d.value)
              && (llm(h2 + d.value).Some? ==>
                    SessionInvariant(h2 + d.value + [AI(AiMessage(Some(OrEmpty(llm(h2 + d.value).value.content)), []))]))
  {
    var policy := DefaultThenParse(parse);
    var d := DispatchAll(first.toolCalls, byName, policy, invoke, serialize);
    if d.Ok? {
      DispatchAllOk(first.toolCalls, byName, policy, invoke, serialize);
      forall k | 0 <= k < |d.value|
        ensures d.value[k].Tool? && d.value[k].toolCallId in CallIds(first.toolCalls)
      {
        assert CallIds(first.toolCalls)[k] == first.toolCalls[k].id;
      }
      var h3 := h2 + d.value;
      CorrelatedAppendReplies(h2, d.value);
      SessionInvariantAppend(h2, d.value);
      if llm(h3).Some? {
        var answer := AiMessage(Some(OrEmpty(llm(h3).value.content)), []);
        CorrelatedAppendOther(h3, AI(answer));
        SessionInvariantAppend(h3, [AI(answer)]);
      }
    }
  }

  // ---------------------------------------------------------------------------
  // The session object

  /** The per-browser-session state: the tool map, the two model endpoints
      (with and without tools bound) and the history. */
  class ChatSession {
    var history: seq<Message>
    const toolByName: map<string, ToolHandle>
    const llm: Model
    const llmWithTools: Model

    ghost predicate Valid()
      reads this
    {
      SessionInvariant(history)
    }

    /** The one-time initialisation: a new session's history is exactly the
        system message. */
    constructor (tools: seq<ToolHandle>, llm: Model, llmWithTools: Model)
      ensures Valid()
      ensures history == [System(SystemPrompt)]
      ensures toolByName == ToolByName(tools)
      ensures this.llm == llm && this.llmWithTools == llmWithTools
    {
      this.llm := llm;
      this.llmWithTools := llmWithTools;
      toolByName := ToolByName(tools);
      history := [System(SystemPrompt)];
    }

    /** The user-input handler. */
    method HandleUserInput(userInput: string, parse: string -> Option<Value>,
                           invoke: Invoker, serialize: Serializer)
      returns (outcome: TurnOutcome)
      requires Valid()
      modifies this
      ensures Valid()
      ensures TurnResult(history, outcome)
              == Turn(old(history), userInput, toolByName, llm, llmWithTools, parse, invoke, serialize)
    {
      TurnKeepsSessionInvariant(history, userInput, toolByName, llm, llmWithTools, parse, invoke, serialize);
      if userInput == "" {
        return NoInput;
      }
      history := history + [Human(userInput)];
      var first := llmWithTools(history);
      if first.None? {
        return Aborted(ModelRaised);
      }
      var reply := first.value;
      if reply.toolCalls == [] {
        history := history + [AI(reply)];
        return Answered(reply);
      }
      history := history + [AI(reply)];
      var toolMsgs := DispatchToolCalls(reply.toolCalls, toolByName, DefaultThenParse(parse), invoke, serialize);
      if toolMsgs.Err? {
        return Aborted(toolMsgs.error);
      }
      history := history + toolMsgs.value;
      var final := llm(history);
      if final.None? {
        return Aborted(ModelRaised);
      }
      var answer := AiMessage(Some(OrEmpty(final.value.content)), []);
      history := history + [AI(answer)];
      outcome := Answered(answer);
    }
  }
}
