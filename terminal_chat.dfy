/** The terminal client (03_client.py): a loop that reads a line, stops on
    "exit" or "quit", sends the line alone to the model with tools bound,
    prints a reply without tool calls at once, and otherwise dispatches every
    tool call and asks the model again with the line, the response and the
    tool messages. Nothing is carried from one line to the next. */
module TerminalChat {
  import opened Messages
  import opened Registry
  import opened Dispatch

  // ---------------------------------------------------------------------------
  // Reading a line: stripping it and the exit check

  /** Python's `str.isspace` for one character. */
  predicate IsSpace(c: char) {
    || '\t' <= c <= '\r'
    || '\U{1C}' <= c <= ' '
    || c == '\U{85}' || c == '\U{A0}' || c == '\U{1680}'
    || '\U{2000}' <= c <= '\U{200A}'
    || c == '\U{2028}' || c == '\U{2029}' || c == '\U{202F}' || c == '\U{205F}' || c == '\U{3000}'
  }

  predicate AllSpace(s: string) {
    forall k | 0 <= k < |s| :: IsSpace(s[k])
  }

  /** The number of whitespace characters at the front of s. */
  function LeadingSpace(s: string): (n: nat)
    ensures n <= |s|
    ensures forall k | 0 <= k < n :: IsSpace(s[k])
    ensures n < |s| ==> !IsSpace(s[n])
  {
    if s == [] || !IsSpace(s[0]) then 0
    else 1 + LeadingSpace(s[1..])
  }

  /** The number of whitespace characters at the end of s. */
  function TrailingSpace(s: string): (n: nat)
    ensures n <= |s|
    ensures forall k | |s| - n <= k < |s| :: IsSpace(s[k])
    ensures n < |s| ==> !IsSpace(s[|s| - n - 1])
  {
    if s == [] || !IsSpace(s[|s| - 1]) then 0
    else 1 + TrailingSpace(s[..|s| - 1])
  }

  /** Python's `str.strip`: s without its leading and trailing whitespace. */
  function Strip(s: string): (r: string)
    ensures |r| <= |s|
    ensures r == [] || (!IsSpace(r[0]) && !IsSpace(r[|r| - 1]))
  {
    var t := s[LeadingSpace(s)..];
    t[..|t| - TrailingSpace(t)]
  }

  lemma {:induction false} LeadingSpaceSkips(pre: string, rest: string)
    requires AllSpace(pre)
    ensures LeadingSpace(pre + rest) == |pre| + LeadingSpace(rest)
  {
    if pre == [] {
      assert pre + rest == rest;
    } else {
      assert (pre + rest)[0] == pre[0] && (pre + rest)[1..] == pre[1..] + rest;
      LeadingSpaceSkips(pre[1..], rest);
    }
  }

  lemma {:induction false} TrailingSpaceSkips(rest: string, post: string)
    requires AllSpace(post)
    ensures TrailingSpace(rest + post) == TrailingSpace(rest) + |post|
  {
    if post == [] {
      assert rest + post == rest;
    } else {
      var s := rest + post;
      assert s[|s| - 1] == post[|post| - 1];
      assert s[..|s| - 1] == rest + post[..|post| - 1];
      TrailingSpaceSkips(rest, post[..|post| - 1]);
    }
  }

  /** Stripping removes exactly the surrounding whitespace: a text with no
      whitespace at either end comes back unchanged from any amount of
      whitespace around it. */
  lemma StripExact(pre: string, u: string, post: string)
    requires AllSpace(pre) && AllSpace(post)
    requires u == [] || (!IsSpace(u[0]) && !IsSpace(u[|u| - 1]))
    ensures Strip(pre + u + post) == u
  {
    var s := pre + u + post;
    assert s == pre + (u + post);
    LeadingSpaceSkips(pre, u + post);
    var n := LeadingSpace(s);
    if u == [] {
      assert u + post == post;
      LeadingSpaceSkips(post, []);
      assert post + [] == post;
      assert n == |s|;
      assert s[n..] == [];
    } else {
      assert (u + post)[0] == u[0];
      assert n == |pre|;
      var t := s[n..];
      assert t == u + post;
      TrailingSpaceSkips(u, post);
      var m := TrailingSpace(t);
      assert m == |post|;
      assert t[..|t| - m] == u;
    }
  }

  /** Python's `str.lower` on ASCII letters. */
  function Lower(s: string): string {
    seq(|s|, k requires 0 <= k < |s| => if 'A' <= s[k] <= 'Z' then (s[k] as int + 32) as char else s[k])
  }

  /** The line, lower-cased, is "exit" or "quit". */
  predicate IsExitCommand(userInput: string) {
    Lower(userInput) == "exit" || Lower(userInput) == "quit"
  }

  /** "exit" and "quit" end the loop in any letter case and with any
      whitespace around them. */
  lemma ExitWordAnySpacing(pre: string, word: string, post: string)
    requires AllSpace(pre) && AllSpace(post)
    requires Lower(word) == "exit" || Lower(word) == "quit"
    ensures IsExitCommand(Strip(pre + word + post))
  {
    assert |word| == 4;
    assert Lower(word)[0] in "eq" && Lower(word)[3] == 't';
    assert !IsSpace(word[0]) && !IsSpace(word[3]);
    StripExact(pre, word, post);
  }

  // ---------------------------------------------------------------------------
  // One line of conversation

  /** What one line produced: the line, the input of the first model call,
      its response, the input of the final call when there was one, and the
      content printed as the answer. */
  datatype TerminalTurn = TerminalTurn(userInput: string, firstInput: seq<Message>, response: AiMessage,
                                       finalInput: Option<seq<Message>>, shown: Option<string>)

  /** One iteration of the loop for a line that is not an exit command. */
  function Step(userInput: string, namedTools: map<string, ToolHandle>, llmWithTools: Model,
                invoke: Invoker, serialize: Serializer): Result<TerminalTurn, Failure>
  {
    var firstInput := [Human(userInput)];
    match llmWithTools(firstInput)
    case None => Err(ModelRaised)
    case Some(response) =>
      if response.toolCalls == [] then
        Ok(TerminalTurn(userInput, firstInput, response, None, response.content))
      else
        match DispatchAll(response.toolCalls, namedTools, DefaultOnly, invoke, serialize)
        case Err(e) => Err(e)
        case Ok(toolMessages) =>
          var finalInput := [Human(userInput), AI(response)] + toolMessages;
          match llmWithTools(finalInput)
          case None => Err(ModelRaised)
          case Some(final) => Ok(TerminalTurn(userInput, firstInput, response, Some(finalInput), final.content))
  }

  /** A line's first model call sees that line alone; a response without
      tool calls ends the turn with no dispatch and no final call; otherwise
      the final call's input is the line, the response, and one tool message
      per call in call order, answering the call's id with the serialised
      result of the named tool on the defaulted arguments. */
  lemma StepShape(userInput: string, namedTools: map<string, ToolHandle>, llmWithTools: Model,
                  invoke: Invoker, serialize: Serializer)
    requires Step(userInput, namedTools, llmWithTools, invoke, serialize).Ok?
    ensures var t := Step(userInput, namedTools, llmWithTools, invoke, serialize).value;
            var calls := t.response.toolCalls;
            && t.userInput == userInput
            && t.firstInput == [Human(userInput)]
            && llmWithTools(t.firstInput) == Some(t.response)
            && (t.finalInput.None? <==> calls == [])
            && (t.finalInput.None? ==> t.shown == t.response.content)
            && (t.finalInput.Some? ==>
                  var fin := t.finalInput.value;
                  && |fin| == |calls| + 2
                  && fin[0] == Human(userInput)
                  && fin[1] == AI(t.response)
                  && (forall i | 0 <= i < |calls| ::
                        && calls[i].name in namedTools
                        && var res := invoke(namedTools[calls[i].name], DefaultArgs(calls[i].args));
                        && res.Some?
                        && fin[i + 2] == Tool(calls[i].id, Str(serialize(res.value))))
                  && t.shown == llmWithTools(fin).value.content)
  {
    var response := llmWithTools([Human(userInput)]).value;
    if response.toolCalls != [] {
      var calls := response.toolCalls;
      DispatchAllOk(calls, namedTools, DefaultOnly, invoke, serialize);
      var msgs := DispatchAll(calls, namedTools, DefaultOnly, invoke, serialize).value;
      var fin := [Human(userInput), AI(response)] + msgs;
      forall i | 0 <= i < |calls|
        ensures fin[i + 2] == msgs[i]
        ensures CallSucceeds(calls[i], namedTools, DefaultOnly, invoke)
      {
      }
    }
  }

  /** An unknown tool name is not turned into a tool message: the turn fails
      with a name that one of the calls carries and the map does not hold. */
  lemma StepUnknownTool(userInput: string, namedTools: map<string, ToolHandle>, llmWithTools: Model,
                        invoke: Invoker, serialize: Serializer, name: string)
    requires Step(userInput, namedTools, llmWithTools, invoke, serialize) == Err(UnknownTool(name))
    ensures name !in namedTools
    ensures exists c | c in llmWithTools([Human(userInput)]).value.toolCalls :: c.name == name
  {
    var calls := llmWithTools([Human(userInput)]).value.toolCalls;
    DispatchAllErr(calls, namedTools, DefaultOnly, invoke, serialize);
    var k := FirstFailing(calls, namedTools, DefaultOnly, invoke);
    assert calls[k] in calls;
  }

  // ---------------------------------------------------------------------------
  // The loop

  /** What one line typed does. */
  datatype LineOutcome = ExitCommand | Turned(turn: TerminalTurn) | Failed(failure: Failure)

  /** One pass of the loop body: strip the line, leave on an exit command,
      run the turn otherwise. */
  function HandleLine(line: string, namedTools: map<string, ToolHandle>, llmWithTools: Model,
                      invoke: Invoker, serialize: Serializer): LineOutcome
  {
    var userInput := Strip(line);
    if IsExitCommand(userInput) then ExitCommand
    else
      match Step(userInput, namedTools, llmWithTools, invoke, serialize)
      case Err(e) => Failed(e)
      case Ok(t) => Turned(t)
  }

  datatype RunEnd =
    | Exited                      // an exit command was read
    | InputExhausted              // `input()` found no more lines
    | Crashed(failure: Failure)   // an exception ended the program

  datatype RunResult = RunResult(turns: seq<TerminalTurn>, end: RunEnd)

  /** The loop body as a value: what each line typed does. */
  function LineHandler(namedTools: map<string, ToolHandle>, llmWithTools: Model,
                       invoke: Invoker, serialize: Serializer): string -> LineOutcome
  {
    line => HandleLine(line, namedTools, llmWithTools, invoke, serialize)
  }

  /** The loop over the lines typed, each line handled by handle. */
  function RunLines(lines: seq<string>, handle: string -> LineOutcome): RunResult {
    if lines == [] then RunResult([], InputExhausted)
    else
      match handle(lines[0])
      case ExitCommand => RunResult([], Exited)
      case Failed(e) => RunResult([], Crashed(e))
      case Turned(t) =>
        var rest := RunLines(lines[1..], handle);
        RunResult([t] + rest.turns, rest.end)
  }

  /** The program's loop over the lines typed, as a function. */
  function Run(lines: seq<string>, namedTools: map<string, ToolHandle>, llmWithTools: Model,
               invoke: Invoker, serialize: Serializer): RunResult
  {
    RunLines(lines, LineHandler(namedTools, llmWithTools, invoke, serialize))
  }

  function Continue(done: seq<TerminalTurn>, r: RunResult): RunResult {
    RunResult(done + r.turns, r.end)
  }

  /** Whatever each line does, the loop handles the lines in order, each on
      its own, and stops at the first line that does not produce a turn. */
  lemma {:induction false} RunLinesInOrder(lines: seq<string>, handle: string -> LineOutcome)
    ensures var r := RunLines(lines, handle);
            var n := |r.turns|;
            && n <= |lines|
            && (forall k | 0 <= k < n :: handle(lines[k]) == Turned(r.turns[k]))
            && (r.end == InputExhausted <==> n == |lines|)
            && (r.end == Exited ==> n < |lines| && handle(lines[n]) == ExitCommand)
            && (r.end.Crashed? ==> n < |lines| && handle(lines[n]) == Failed(r.end.failure))
  {
    if lines != [] && handle(lines[0]).Turned? {
      RunLinesInOrder(lines[1..], handle);
      var rest := RunLines(lines[1..], handle);
      var r := RunLines(lines, handle);
      assert r == RunResult([handle(lines[0]).turn] + rest.turns, rest.end);
      forall k | 1 <= k <= |rest.turns|
        ensures lines[k] == lines[1..][k - 1] && r.turns[k] == rest.turns[k - 1]
      {
      }
      if |rest.turns| < |lines| - 1 {
        assert lines[|rest.turns| + 1] == lines[1..][|rest.turns|];
      }
    }
  }

  /** The loop handles the lines in order and carries no history from one
      line to the next: the model inputs of turn k are built from line k
      alone, so, with the model and the tools as given functions, turn k is
      what line k produces on its own. It leaves at the first exit command, at the
      first failure, or when the lines run out, and at no other point. */
  lemma RunLineByLine(lines: seq<string>, namedTools: map<string, ToolHandle>,
                      llmWithTools: Model, invoke: Invoker, serialize: Serializer)
    ensures var r := Run(lines, namedTools, llmWithTools, invoke, serialize);
            var n := |r.turns|;
            && n <= |lines|
            && (forall k | 0 <= k < n ::
                  HandleLine(lines[k], namedTools, llmWithTools, invoke, serialize) == Turned(r.turns[k]))
            && (r.end == InputExhausted <==> n == |lines|)
            && (r.end == Exited ==>
                  n < |lines| && HandleLine(lines[n], namedTools, llmWithTools, invoke, serialize) == ExitCommand)
            && (r.end.Crashed? ==>
                  n < |lines| && HandleLine(lines[n], namedTools, llmWithTools, invoke, serialize) == Failed(r.end.failure))
  {
    RunLinesInOrder(lines, LineHandler(namedTools, llmWithTools, invoke, serialize));
  }

  /** The loop body for one line typed: strip it, leave on an exit command,
      otherwise ask the model, dispatch the tool calls and ask again. */
  method TakeLine(line: string, namedTools: map<string, ToolHandle>, llmWithTools: Model,
                  invoke: Invoker, serialize: Serializer)
    returns (outcome: LineOutcome)
    ensures outcome == HandleLine(line, namedTools, llmWithTools, invoke, serialize)
  {
    var userInput := Strip(line);
    if IsExitCommand(userInput) {
      return ExitCommand;
    }
    var response := llmWithTools([Human(userInput)]);
    if response.None? {
      return Failed(ModelRaised);
    }
    var reply := response.value;
    if reply.toolCalls == [] {
      return Turned(TerminalTurn(userInput, [Human(userInput)], reply, None, reply.content));
    }
    var toolMessages := DispatchToolCalls(reply.toolCalls, namedTools, DefaultOnly, invoke, serialize);
    if toolMessages.Err? {
      return Failed(toolMessages.error);
    }
    var finalInput := [Human(userInput), AI(reply)] + toolMessages.value;
    var final := llmWithTools(finalInput);
    if final.None? {
      return Failed(ModelRaised);
    }
    outcome := Turned(TerminalTurn(userInput, [Human(userInput)], reply, Some(finalInput), final.value.content));
  }

  /** The client's entry point: build the name->tool map, then run the loop. */
  method RunTerminal(lines: seq<string>, tools: seq<ToolHandle>, llmWithTools: Model,
                     invoke: Invoker, serialize: Serializer)
    returns (turns: seq<TerminalTurn>, end: RunEnd)
    ensures RunResult(turns, end) == Run(lines, ToolByName(tools), llmWithTools, invoke, serialize)
  {
    var namedTools := ToolByName(tools);
    ghost var handle := LineHandler(namedTools, llmWithTools, invoke, serialize);
    turns := [];
    var i := 0;
    assert lines[0..] == lines;
    while i < |lines|
      invariant 0 <= i <= |lines|
      invariant Run(lines, namedTools, llmWithTools, invoke, serialize)
                == Continue(turns, RunLines(lines[i..], handle))
    {
      assert lines[i..][0] == lines[i] && lines[i..][1..] == lines[i + 1..];
      ghost var rest := RunLines(lines[i + 1..], handle);
      var outcome := TakeLine(lines[i], namedTools, llmWithTools, invoke, serialize);
      match outcome {
        case ExitCommand =>
          assert turns + [] == turns;
          return turns, Exited;
        case Failed(e) =>
          assert turns + [] == turns;
          return turns, Crashed(e);
        case Turned(t) =>
          assert RunLines(lines[i..], handle) == RunResult([t] + rest.turns, rest.end);
          assert turns + ([t] + rest.turns) == (turns + [t]) + rest.turns;
          turns := turns + [t];
          i := i + 1;
      }
    }
    assert lines[i..] == [] && turns + [] == turns;
    end := InputExhausted;
  }
}
