/** The upstream-to-client loop of the websocket handler (`send_to_client` in
    backend/main.py): for every message of the live session it runs the
    requested tools and answers them in one batch, and forwards the model's
    audio to the browser. The live session is not modelled: the loop receives
    the sequence of messages it would yield and how the stream ended, and its
    result is the trace of effects it performs. */
module SendToClient {
  import opened Wrappers
  import opened Text
  import Shutdown
  import Tools

  /** A value in a function call's argument mapping. */
  datatype ArgValue = Str(s: string) | Num(n: int)

  /** How an f-string renders an argument. */
  function Show(v: ArgValue): string {
    match v
    case Str(s) => s
    case Num(n) => IntToString(n)
  }

  type Args = map<string, ArgValue>

  /** One function call of a tool-call message: name, correlation id, arguments. */
  datatype FunctionCall = FunctionCall(name: string, id: string, args: Args)

  /** What running a tool does: return a string or raise an exception. */
  datatype ToolOutcome = Returned(value: string) | Raised(message: string)

  /** A tool called with keyword arguments. */
  type Tool = Args -> ToolOutcome

  /** `AVAILABLE_TOOLS`: the tool names the relay executes. */
  type Registry = map<string, Tool>

  /** The `response` mapping of a function response. */
  datatype ResponseBody = Result(value: string) | Error(message: string)

  datatype FunctionResponse = FunctionResponse(name: string, id: string, response: ResponseBody)

  /** What the loop does, in order. */
  datatype Effect =
    | NotifyClient(functionName: string, arguments: Args)  // a `tool_execution` text frame to the browser
    | RunTool(toolName: string, toolArgs: Args)            // the tool is invoked
    | SendToolResponse(responses: seq<FunctionResponse>)    // one batch back to the live session
    | ForwardAudio(data: Bytes)                             // a binary frame to the browser

  /** The prefix of the error for a name that is not in the registry. */
  const UnknownToolPrefix := "Unknown tool: "

  /** The response to one call: the tool's result, the message of the
      exception it raised, or the unknown-tool error. */
  function Respond(registry: Registry, call: FunctionCall): (r: FunctionResponse)
    ensures r.name == call.name && r.id == call.id
    ensures call.name !in registry ==> r.response == Error(UnknownToolPrefix + call.name)
    ensures call.name in registry ==>
              match registry[call.name](call.args)
              case Returned(v) => r.response == Result(v)
              case Raised(m) => r.response == Error(m)
  {
    if call.name in registry then
      match registry[call.name](call.args)
      case Returned(v) => FunctionResponse(call.name, call.id, Result(v))
      case Raised(m) => FunctionResponse(call.name, call.id, Error(m))
    else FunctionResponse(call.name, call.id, Error(UnknownToolPrefix + call.name))
  }

  /** The effects of handling one call: the notification, then the tool run
      when the tool is known. */
  function CallEffects(registry: Registry, call: FunctionCall): seq<Effect> {
    [NotifyClient(call.name, call.args)] + (if call.name in registry then [RunTool(call.name, call.args)] else [])
  }

  datatype Dispatch = Dispatch(effects: seq<Effect>, responses: seq<FunctionResponse>)

  /** The `for call in calls` loop: the effects of every call in order, and
      one response per call, in call order. */
  function DispatchCalls(registry: Registry, calls: seq<FunctionCall>): (d: Dispatch)
    ensures |d.responses| == |calls|
    ensures forall i :: 0 <= i < |calls| ==> d.responses[i] == Respond(registry, calls[i])
    decreases |calls|
  {
    if |calls| == 0 then Dispatch([], [])
    else
      var rest := DispatchCalls(registry, calls[1..]);
      Dispatch(CallEffects(registry, calls[0]) + rest.effects, [Respond(registry, calls[0])] + rest.responses)
  }

  /** A tool-call message: its calls, then the batch when there is one. */
  function HandleToolCall(registry: Registry, calls: seq<FunctionCall>): seq<Effect> {
    var d := DispatchCalls(registry, calls);
    d.effects + (if |d.responses| > 0 then [SendToolResponse(d.responses)] else [])
  }

  /** Every call is answered by exactly one response carrying its name and
      id, in call order, and the responses travel in a single batch, which is
      sent if and only if there was at least one call. */
  lemma {:induction false} OneBatchOneResponsePerCall(registry: Registry, calls: seq<FunctionCall>)
    ensures var e := HandleToolCall(registry, calls);
            (|calls| == 0 ==> forall j :: 0 <= j < |e| ==> !e[j].SendToolResponse?)
            && (|calls| > 0 ==>
                  && |e| > 0 && e[|e| - 1].SendToolResponse?
                  && (forall j :: 0 <= j < |e| - 1 ==> !e[j].SendToolResponse?)
                  && |e[|e| - 1].responses| == |calls|
                  && (forall i :: 0 <= i < |calls| ==>
                        e[|e| - 1].responses[i].name == calls[i].name && e[|e| - 1].responses[i].id == calls[i].id))
  {
    DispatchHasNoBatch(registry, calls);
  }

  lemma {:induction false} DispatchHasNoBatch(registry: Registry, calls: seq<FunctionCall>)
    ensures forall j :: 0 <= j < |DispatchCalls(registry, calls).effects| ==>
              !DispatchCalls(registry, calls).effects[j].SendToolResponse?
    decreases |calls|
  {
    if |calls| > 0 {
      DispatchHasNoBatch(registry, calls[1..]);
    }
  }

  /** Every tool run in `e` is of a registered tool and is immediately
      preceded by the notification naming it with the same arguments. */
  predicate RunsAnnounced(registry: Registry, e: seq<Effect>) {
    forall j :: 0 <= j < |e| && e[j].RunTool? ==>
      j > 0 && e[j - 1] == NotifyClient(e[j].toolName, e[j].toolArgs) && e[j].toolName in registry
  }

  /** The browser hears of each tool, with its arguments, just before it runs,
      and only registered tools run. */
  lemma {:induction false} NotifiedBeforeRun(registry: Registry, calls: seq<FunctionCall>)
    ensures RunsAnnounced(registry, DispatchCalls(registry, calls).effects)
    decreases |calls|
  {
    if |calls| > 0 {
      NotifiedBeforeRun(registry, calls[1..]);
      var head := CallEffects(registry, calls[0]);
      var rest := DispatchCalls(registry, calls[1..]).effects;
      var e := head + rest;
      assert RunsAnnounced(registry, rest);
      forall j | 0 <= j < |e| && e[j].RunTool?
        ensures j > 0 && e[j - 1] == NotifyClient(e[j].toolName, e[j].toolArgs) && e[j].toolName in registry
      {
        if j < |head| {
          assert j == 1 && calls[0].name in registry;
          assert e[j] == RunTool(calls[0].name, calls[0].args);
          assert e[j - 1] == NotifyClient(calls[0].name, calls[0].args);
        } else {
          var k := j - |head|;
          assert e[j] == rest[k] && rest[k].RunTool?;
          assert e[j - 1] == rest[k - 1];
        }
      }
      assert DispatchCalls(registry, calls).effects == e;
    }
  }

  /** The notifications of a dispatch, in order. */
  function Notifications(effects: seq<Effect>): seq<(string, Args)>
    decreases |effects|
  {
    if |effects| == 0 then []
    else (if effects[0].NotifyClient? then [(effects[0].functionName, effects[0].arguments)] else [])
         + Notifications(effects[1..])
  }

  lemma {:induction false} NotificationsAppend(a: seq<Effect>, b: seq<Effect>)
    ensures Notifications(a + b) == Notifications(a) + Notifications(b)
    decreases |a|
  {
    if |a| == 0 {
      assert a + b == b;
    } else {
      assert (a + b)[0] == a[0];
      assert (a + b)[1..] == a[1..] + b;
      NotificationsAppend(a[1..], b);
    }
  }

  /** Exactly one notification is sent per call, known or not, carrying the
      call's name and arguments, in call order. */
  lemma {:induction false} OneNotificationPerCall(registry: Registry, calls: seq<FunctionCall>)
    ensures var n := Notifications(DispatchCalls(registry, calls).effects);
            |n| == |calls| && forall i :: 0 <= i < |calls| ==> n[i] == (calls[i].name, calls[i].args)
    decreases |calls|
  {
    if |calls| > 0 {
      OneNotificationPerCall(registry, calls[1..]);
      var head := CallEffects(registry, calls[0]);
      NotificationsAppend(head, DispatchCalls(registry, calls[1..]).effects);
      assert Notifications(head) == [(calls[0].name, calls[0].args)] by {
        if calls[0].name in registry {
          assert head[1..] == [RunTool(calls[0].name, calls[0].args)];
          assert head[1..][1..] == [];
        } else {
          assert head[1..] == [];
        }
      }
    }
  }

  /** The inline audio of a part: its `data` bytes, when present. */
  datatype Blob = Blob(data: Option<Bytes>)

  /** A part of the model's turn; only its inline data matters here. */
  datatype Part = Part(inlineData: Option<Blob>)

  /** `model_turn.parts` may be `None`. */
  datatype ModelTurn = ModelTurn(parts: Option<seq<Part>>)

  datatype ServerContent = ServerContent(modelTurn: Option<ModelTurn>)

  /** `tool_call.function_calls` may be `None`. */
  datatype ToolCall = ToolCall(functionCalls: Option<seq<FunctionCall>>)

  /** One message of the live session, reduced to the fields the loop acts on. */
  datatype ServerMessage = ServerMessage(toolCall: Option<ToolCall>, serverContent: Option<ServerContent>)

  /** A part with non-empty inline data is audio to play. */
  predicate Audible(p: Part) {
    p.inlineData.Some? && p.inlineData.value.data.Some? && |p.inlineData.value.data.value| > 0
  }

  /** `for part in model_turn.parts`: forward every audible part. */
  function ForwardParts(parts: seq<Part>): (e: seq<Effect>)
    ensures forall j :: 0 <= j < |e| ==> e[j].ForwardAudio? && |e[j].data| > 0
    decreases |parts|
  {
    if |parts| == 0 then []
    else (if Audible(parts[0]) then [ForwardAudio(parts[0].inlineData.value.data.value)] else [])
         + ForwardParts(parts[1..])
  }

  /** The calls of a tool-call message: `function_calls or []`. */
  function CallsOf(t: ToolCall): seq<FunctionCall> {
    if t.functionCalls.Some? then t.functionCalls.value else []
  }

  /** Handling one message: the effects, and whether it raised (iterating
      `model_turn.parts` when it is `None` raises TypeError). */
  datatype Handled = Handled(effects: seq<Effect>, raised: bool)

  function HandleMessage(registry: Registry, m: ServerMessage): Handled {
    var tools := if m.toolCall.Some? then HandleToolCall(registry, CallsOf(m.toolCall.value)) else [];
    if m.serverContent.Some? && m.serverContent.value.modelTurn.Some? then
      var parts := m.serverContent.value.modelTurn.value.parts;
      if parts.None? then Handled(tools, true)
      else Handled(tools + ForwardParts(parts.value), false)
    else Handled(tools, false)
  }

  /** How the live session's message stream ended. */
  datatype StreamEnd = StreamClosed | StreamFailed

  /** The loop's trace, how many messages it handled, and the reason it
      triggered shutdown with. */
  datatype Run = Run(effects: seq<Effect>, consumed: nat, reason: string)

  function RunMessages(registry: Registry, messages: seq<ServerMessage>, end: StreamEnd): (r: Run)
    ensures r.consumed <= |messages|
    ensures r.reason in {Shutdown.GeminiClose, Shutdown.GeminiFatal}
    ensures r.reason == Shutdown.GeminiClose ==> r.consumed == |messages|
    ensures r.reason == Shutdown.GeminiClose <==>
              end == StreamClosed && forall i :: 0 <= i < |messages| ==> !HandleMessage(registry, messages[i]).raised
    decreases |messages|
  {
    if |messages| == 0 then
      Run([], 0, if end == StreamClosed then Shutdown.GeminiClose else Shutdown.GeminiFatal)
    else
      var h := HandleMessage(registry, messages[0]);
      if h.raised then Run(h.effects, 1, Shutdown.GeminiFatal)
      else
        var rest := RunMessages(registry, messages[1..], end);
        Run(h.effects + rest.effects, 1 + rest.consumed, rest.reason)
  }

  /** The audio frames a trace sends to the browser, in order. */
  function AudioOut(effects: seq<Effect>): seq<Bytes>
    decreases |effects|
  {
    if |effects| == 0 then []
    else (if effects[0].ForwardAudio? then [effects[0].data] else []) + AudioOut(effects[1..])
  }

  lemma {:induction false} AudioOutAppend(a: seq<Effect>, b: seq<Effect>)
    ensures AudioOut(a + b) == AudioOut(a) + AudioOut(b)
    decreases |a|
  {
    if |a| == 0 {
      assert a + b == b;
    } else {
      assert (a + b)[0] == a[0];
      assert (a + b)[1..] == a[1..] + b;
      AudioOutAppend(a[1..], b);
    }
  }

  /** The audio a message carries: the data of its audible parts, in order. */
  function PartsAudio(parts: seq<Part>): seq<Bytes>
    decreases |parts|
  {
    if |parts| == 0 then []
    else (if Audible(parts[0]) then [parts[0].inlineData.value.data.value] else []) + PartsAudio(parts[1..])
  }

  function MessageAudio(m: ServerMessage): seq<Bytes> {
    if m.serverContent.Some? && m.serverContent.value.modelTurn.Some?
       && m.serverContent.value.modelTurn.value.parts.Some?
    then PartsAudio(m.serverContent.value.modelTurn.value.parts.value)
    else []
  }

  /** The audio of a sequence of messages, in order. */
  function StreamAudio(messages: seq<ServerMessage>): seq<Bytes>
    decreases |messages|
  {
    if |messages| == 0 then [] else MessageAudio(messages[0]) + StreamAudio(messages[1..])
  }

  lemma {:induction false} ForwardPartsAudio(parts: seq<Part>)
    ensures AudioOut(ForwardParts(parts)) == PartsAudio(parts)
    decreases |parts|
  {
    if |parts| > 0 {
      var head := if Audible(parts[0]) then [ForwardAudio(parts[0].inlineData.value.data.value)] else [];
      AudioOutAppend(head, ForwardParts(parts[1..]));
      ForwardPartsAudio(parts[1..]);
      if head != [] {
        assert head[1..] == [];
      }
    }
  }

  /** Tool handling sends no audio to the browser. */
  lemma {:induction false} ToolCallsSendNoAudio(registry: Registry, calls: seq<FunctionCall>)
    ensures AudioOut(HandleToolCall(registry, calls)) == []
  {
    var d := DispatchCalls(registry, calls);
    DispatchSendsNoAudio(registry, calls);
    var tail: seq<Effect> := if |d.responses| > 0 then [SendToolResponse(d.responses)] else [];
    AudioOutAppend(d.effects, tail);
    if tail != [] {
      assert tail[1..] == [];
    }
  }

  lemma {:induction false} DispatchSendsNoAudio(registry: Registry, calls: seq<FunctionCall>)
    ensures AudioOut(DispatchCalls(registry, calls).effects) == []
    decreases |calls|
  {
    if |calls| > 0 {
      var head := CallEffects(registry, calls[0]);
      DispatchSendsNoAudio(registry, calls[1..]);
      AudioOutAppend(head, DispatchCalls(registry, calls[1..]).effects);
      assert AudioOut(head) == [] by {
        if calls[0].name in registry {
          assert head[1..] == [RunTool(calls[0].name, calls[0].args)];
          assert head[1..][1..] == [];
        } else {
          assert head[1..] == [];
        }
      }
    }
  }

  lemma HandleMessageAudio(registry: Registry, m: ServerMessage)
    ensures AudioOut(HandleMessage(registry, m).effects) == MessageAudio(m)
  {
    var tools := if m.toolCall.Some? then HandleToolCall(registry, CallsOf(m.toolCall.value)) else [];
    if m.toolCall.Some? {
      ToolCallsSendNoAudio(registry, CallsOf(m.toolCall.value));
    }
    if m.serverContent.Some? && m.serverContent.value.modelTurn.Some?
       && m.serverContent.value.modelTurn.value.parts.Some? {
      var parts := m.serverContent.value.modelTurn.value.parts.value;
      AudioOutAppend(tools, ForwardParts(parts));
      ForwardPartsAudio(parts);
    }
  }

  /** The browser receives exactly the audio of the messages the loop
      handled, verbatim and in order, and every frame it receives is non-empty. */
  lemma {:induction false} AudioForwardedInOrder(registry: Registry, messages: seq<ServerMessage>, end: StreamEnd)
    ensures var r := RunMessages(registry, messages, end);
            AudioOut(r.effects) == StreamAudio(messages[..r.consumed])
    decreases |messages|
  {
    var r := RunMessages(registry, messages, end);
    if |messages| > 0 {
      var h := HandleMessage(registry, messages[0]);
      HandleMessageAudio(registry, messages[0]);
      var prefix := messages[..r.consumed];
      assert prefix[0] == messages[0];
      if h.raised {
        assert prefix == [messages[0]];
        assert StreamAudio(prefix) == MessageAudio(messages[0]) + StreamAudio([]);
      } else {
        var rest := RunMessages(registry, messages[1..], end);
        AudioForwardedInOrder(registry, messages[1..], end);
        AudioOutAppend(h.effects, rest.effects);
        assert prefix[1..] == messages[1..][..rest.consumed];
      }
    } else {
      assert messages[..0] == [];
    }
  }

  /** Message of the TypeError raised when keyword arguments do not match a
      tool's parameters. */
  function SignatureMismatch(toolName: string): string {
    toolName + "() got arguments that do not match its parameters"
  }

  const ScoutName := "scout_github_issues"
  const AnalyzeName := "analyze_issue_code"

  /** `scout_github_issues(**args)`; `fetch` stands for the issue-tracking
      service, returning the feed of the repository an argument names. */
  function ScoutTool(fetch: ArgValue -> Tools.IssueFeed): Tool {
    (args: Args) =>
      if args.Keys == {"repo_name"} then
        Returned(Tools.ScoutSummary(Show(args["repo_name"]), fetch(args["repo_name"])))
      else Raised(SignatureMismatch(ScoutName))
  }

  /** `analyze_issue_code(**args)`. */
  const AnalyzeTool: Tool :=
    (args: Args) =>
      if args.Keys == {"repo_name", "issue_number"} then
        Returned(Tools.AnalyzeIssueCode(Show(args["repo_name"]), Show(args["issue_number"])))
      else Raised(SignatureMismatch(AnalyzeName))

  /** `AVAILABLE_TOOLS`. */
  function AvailableTools(fetch: ArgValue -> Tools.IssueFeed): (r: Registry)
    ensures r.Keys == {ScoutName, AnalyzeName}
  {
    map[ScoutName := ScoutTool(fetch), AnalyzeName := AnalyzeTool]
  }

  /** A call to a name outside the registry is answered with an error that
      names it; the dispatch never fails. */
  lemma UnknownToolAnswered(fetch: ArgValue -> Tools.IssueFeed, call: FunctionCall)
    requires call.name != ScoutName && call.name != AnalyzeName
    ensures var r := Respond(AvailableTools(fetch), call);
            r.response.Error? && Contains(r.response.message, call.name)
  {
    ContainsMiddle(UnknownToolPrefix, call.name, "");
    assert UnknownToolPrefix + call.name + "" == UnknownToolPrefix + call.name;
  }

  /** A tool that raises is answered with the exception's message. */
  lemma RaisingToolAnswered(registry: Registry, call: FunctionCall, message: string)
    requires call.name in registry && registry[call.name](call.args) == Raised(message)
    ensures Respond(registry, call) == FunctionResponse(call.name, call.id, Error(message))
  {
  }

  /** A call of the analysis with exactly its two parameters returns the
      analysis of the rendered arguments. */
  lemma AnalyzeToolBinds(args: Args)
    requires args.Keys == {"repo_name", "issue_number"}
    ensures AnalyzeTool(args) == Returned(Tools.AnalyzeIssueCode(Show(args["repo_name"]), Show(args["issue_number"])))
  {
  }

  lemma FortyTwo()
    ensures Show(Num(42)) == "42"
  {
  }

  /** The analysis of issue 42 of "a/b", requested through a tool call, is
      answered with a result naming both. */
  lemma AnalyzeScenario(fetch: ArgValue -> Tools.IssueFeed, id: string)
    ensures var r := Respond(AvailableTools(fetch),
                             FunctionCall(AnalyzeName, id, map["repo_name" := Str("a/b"), "issue_number" := Num(42)]));
            r.response.Result? && Contains(r.response.value, "a/b") && Contains(r.response.value, "42")
  {
    var args := map["repo_name" := Str("a/b"), "issue_number" := Num(42)];
    assert args.Keys == {"repo_name", "issue_number"};
    AnalyzeToolBinds(args);
    FortyTwo();
    var text := Tools.AnalyzeIssueCode("a/b", "42");
    assert Contains(text, "a/b") && Contains(text, "42");
    assert Respond(AvailableTools(fetch), FunctionCall(AnalyzeName, id, args)).response == Result(text);
  }
}
