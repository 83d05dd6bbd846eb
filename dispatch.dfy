/** Dispatching the tool calls of one model response, as the per-call loops
    of the persistent-history client and the terminal client do: for each call
    in order, prepare its arguments, look the tool up by name, invoke it and
    build a tool message holding the serialised result. The first failing call
    ends the loop, and no tool message of the turn survives it. */
module Dispatch {
  import opened Messages

  /** A tool backend: None when the invocation raised. */
  type Invoker = (ToolHandle, Value) -> Option<Value>

  /** JSON serialisation of a tool result. */
  type Serializer = Value -> string

  /** How a client prepares a call's arguments: the terminal client only
      defaults them, the persistent-history client also parses strings. */
  datatype ArgsPolicy = DefaultOnly | DefaultThenParse(parse: string -> Option<Value>)

  function PrepareArgs(policy: ArgsPolicy, args: Option<Value>): Value {
    match policy
    case DefaultOnly => DefaultArgs(args)
    case DefaultThenParse(parse) => NormalizeArgs(args, parse)
  }

  /** One iteration of the loop: the tool message for call `c`, or why
      the call failed. */
  function DispatchOne(c: ToolCall, byName: map<string, ToolHandle>, policy: ArgsPolicy,
                       invoke: Invoker, serialize: Serializer): Result<Message, Failure>
  {
    var args := PrepareArgs(policy, c.args);
    if c.name !in byName then Err(UnknownTool(c.name))
    else
      match invoke(byName[c.name], args)
      case None => Err(ToolRaised(c.name))
      case Some(res) => Ok(Tool(c.id, Str(serialize(res))))
  }

  /** Puts `done` in front of a successful batch; a failure stays a failure. */
  function Prepend(done: seq<Message>, r: Result<seq<Message>, Failure>): Result<seq<Message>, Failure> {
    match r
    case Ok(rest) => Ok(done + rest)
    case Err(e) => Err(e)
  }

  lemma PrependNothing(r: Result<seq<Message>, Failure>)
    ensures Prepend([], r) == r
  {
    if r.Ok? { assert [] + r.value == r.value; }
  }

  lemma PrependTwice(a: seq<Message>, b: seq<Message>, r: Result<seq<Message>, Failure>)
    ensures Prepend(a, Prepend(b, r)) == Prepend(a + b, r)
  {
    if r.Ok? { assert a + (b + r.value) == (a + b) + r.value; }
  }

  /** The whole loop: the batch of tool messages, or the first failure. */
  function DispatchAll(calls: seq<ToolCall>, byName: map<string, ToolHandle>, policy: ArgsPolicy,
                       invoke: Invoker, serialize: Serializer): Result<seq<Message>, Failure>
  {
    if calls == [] then Ok([])
    else
      match DispatchOne(calls[0], byName, policy, invoke, serialize)
      case Err(e) => Err(e)
      case Ok(m) => Prepend([m], DispatchAll(calls[1..], byName, policy, invoke, serialize))
  }

  /** The call at position i went through: its tool exists and did not raise. */
  predicate CallSucceeds(c: ToolCall, byName: map<string, ToolHandle>, policy: ArgsPolicy, invoke: Invoker) {
    c.name in byName && invoke(byName[c.name], PrepareArgs(policy, c.args)).Some?
  }

  /** Dispatch succeeds iff every call succeeds, and then it yields exactly one
      tool message per call, in call order, answering that call's id with the
      serialised result of invoking the named tool on the prepared arguments. */
  lemma {:induction false} DispatchAllOk(calls: seq<ToolCall>, byName: map<string, ToolHandle>,
                                         policy: ArgsPolicy, invoke: Invoker, serialize: Serializer)
    ensures DispatchAll(calls, byName, policy, invoke, serialize).Ok?
            <==> forall i | 0 <= i < |calls| :: CallSucceeds(calls[i], byName, policy, invoke)
    ensures DispatchAll(calls, byName, policy, invoke, serialize).Ok? ==>
              var msgs := DispatchAll(calls, byName, policy, invoke, serialize).value;
              && |msgs| == |calls|
              && forall i | 0 <= i < |calls| ::
                   var c := calls[i];
                   msgs[i] == Tool(c.id, Str(serialize(invoke(byName[c.name], PrepareArgs(policy, c.args)).value)))
  {
    if calls != [] {
      DispatchAllOk(calls[1..], byName, policy, invoke, serialize);
      var r := DispatchAll(calls, byName, policy, invoke, serialize);
      if r.Ok? {
        assert CallSucceeds(calls[0], byName, policy, invoke);
        forall i | 0 < i < |calls| ensures CallSucceeds(calls[i], byName, policy, invoke) {
          assert calls[i] == calls[1..][i - 1];
        }
      }
      if forall i | 0 <= i < |calls| :: CallSucceeds(calls[i], byName, policy, invoke) {
        forall i | 0 <= i < |calls| - 1 ensures CallSucceeds(calls[1..][i], byName, policy, invoke) {
          assert calls[1..][i] == calls[i + 1];
        }
        assert CallSucceeds(calls[0], byName, policy, invoke);
      }
    }
  }

  /** The position of the first call that fails, or |calls| when none does. */
  function FirstFailing(calls: seq<ToolCall>, byName: map<string, ToolHandle>, policy: ArgsPolicy,
                        invoke: Invoker): (k: nat)
    ensures k <= |calls|
    ensures forall j | 0 <= j < k :: CallSucceeds(calls[j], byName, policy, invoke)
    ensures k < |calls| ==> !CallSucceeds(calls[k], byName, policy, invoke)
  {
    if calls == [] || !CallSucceeds(calls[0], byName, policy, invoke) then 0
    else 1 + FirstFailing(calls[1..], byName, policy, invoke)
  }

  /** A failed dispatch reports the first call that failed: every call before
      it succeeded, and that call's own dispatch gives the failure. */
  lemma {:induction false} DispatchAllErr(calls: seq<ToolCall>, byName: map<string, ToolHandle>,
                                          policy: ArgsPolicy, invoke: Invoker, serialize: Serializer)
    requires DispatchAll(calls, byName, policy, invoke, serialize).Err?
    ensures FirstFailing(calls, byName, policy, invoke) < |calls|
    ensures DispatchOne(calls[FirstFailing(calls, byName, policy, invoke)], byName, policy, invoke, serialize)
            == Err(DispatchAll(calls, byName, policy, invoke, serialize).error)
  {
    if CallSucceeds(calls[0], byName, policy, invoke) {
      DispatchAllErr(calls[1..], byName, policy, invoke, serialize);
      var k := FirstFailing(calls[1..], byName, policy, invoke);
      assert calls[1..][k] == calls[k + 1];
    }
  }

  /** The loop itself: the tool messages are collected one call at a time and
      handed back as one batch only after every call went through. */
  method DispatchToolCalls(calls: seq<ToolCall>, byName: map<string, ToolHandle>, policy: ArgsPolicy,
                           invoke: Invoker, serialize: Serializer)
    returns (r: Result<seq<Message>, Failure>)
    ensures r == DispatchAll(calls, byName, policy, invoke, serialize)
  {
    var toolMsgs: seq<Message> := [];
    var i := 0;
    assert calls[0..] == calls;
    PrependNothing(DispatchAll(calls, byName, policy, invoke, serialize));
    while i < |calls|
      invariant 0 <= i <= |calls|
      invariant DispatchAll(calls, byName, policy, invoke, serialize)
                == Prepend(toolMsgs, DispatchAll(calls[i..], byName, policy, invoke, serialize))
    {
      var tc := calls[i];
      var args := PrepareArgs(policy, tc.args);
      ghost var rest := DispatchAll(calls[i + 1..], byName, policy, invoke, serialize);
      assert calls[i..][0] == tc && calls[i..][1..] == calls[i + 1..];
      if tc.name !in byName {
        return Err(UnknownTool(tc.name));
      }
      var res := invoke(byName[tc.name], args);
      if res.None? {
        return Err(ToolRaised(tc.name));
      }
      var msg := Tool(tc.id, Str(serialize(res.value)));
      assert DispatchAll(calls[i..], byName, policy, invoke, serialize) == Prepend([msg], rest);
      PrependTwice(toolMsgs, [msg], rest);
      toolMsgs := toolMsgs + [msg];
      i := i + 1;
    }
    assert calls[i..] == [] && toolMsgs + [] == toolMsgs;
    r := Ok(toolMsgs);
  }
}
