/**
 * `process_tool_calls` of `stock_analyzer.tools.management`: run the tool calls a
 * paused assistant run asks for, in order, and collect one output per call.
 *
 * `json.loads` and `json.dumps` are parameters (`decode`, `dumps`); so is the
 * registry of tool functions, which the module imports under the name
 * `available_functions`. A tool function is given the position of its call in the
 * batch besides the arguments: it stands for whatever outside state (the time-series
 * server, its rate limit) lets the same request be answered differently later on.
 */
module Management {
  import opened Wrappers
  import Json

  /** A function tool call: its id, the name of the function and its arguments as JSON text. */
  datatype ToolCall = ToolCall(id: string, functionName: string, arguments: string)

  /** The record submitted back for a call. */
  datatype ToolOutput = ToolOutput(toolCallId: string, output: string)

  /** A tool function, called with the decoded arguments as keyword arguments by the
      call at the given position of the batch. It returns its response, or raises an
      exception described by a message. */
  type ToolFunction = (nat, Json.Value) -> Result<Json.Value, string>

  type Registry = map<string, ToolFunction>

  /** The exceptions that end processing. */
  datatype DispatchError =
    | ArgumentsNotJson(arguments: string)   // `json.loads` raised
    | ArgumentsNotMapping                   // `**` applied to something other than an object
    | NotCallable(functionName: string)     // the registry holds no such function: `None(...)`
    | ToolRaised(message: string)           // the tool function raised
    | ResponseWithoutKeys                   // the response has no `keys()`: not an object
    | TooFewKeys(count: nat)                // `list(response.keys())[1]` is out of range

  /** `response[list(response.keys())[1]]`: the value under the second key, in key order. */
  function SecondValue(response: Json.Value): (r: Result<Json.Value, DispatchError>)
    ensures r.Ok? <==> response.Object? && |response.fields| >= 2
    ensures r.Ok? ==> |Json.Keys(response.fields)| >= 2 && (Json.Keys(response.fields)[1], r.value) == response.fields[1]
    ensures response.Object? && |response.fields| < 2 ==> r == Err(TooFewKeys(|response.fields|))
  {
    if !response.Object? then Err(ResponseWithoutKeys)
    else if |response.fields| < 2 then Err(TooFewKeys(|response.fields|))
    else Ok(response.fields[1].1)
  }

  /** A tool function run by a call: at which position, under which name, with
      which decoded arguments. */
  datatype Invocation = Invocation(position: nat, functionName: string, arguments: Json.Value)

  /** The tool function the call at `position` runs, if it gets that far: its
      arguments must decode to an object and its name must be registered. */
  function InvocationOf(call: ToolCall, position: nat, registry: Registry, decode: string -> Option<Json.Value>)
    : (inv: Option<Invocation>)
    ensures inv.Some? <==>
      decode(call.arguments).Some? && decode(call.arguments).value.Object? && call.functionName in registry
    ensures inv.Some? ==> inv.value == Invocation(position, call.functionName, decode(call.arguments).value)
  {
    match decode(call.arguments)
    case None => None
    case Some(args) =>
      if args.Object? && call.functionName in registry then Some(Invocation(position, call.functionName, args)) else None
  }

  /** The tool functions a prefix of the batch runs, in call order: one for each call
      that gets as far as its tool. */
  function Invocations(calls: seq<ToolCall>, registry: Registry, decode: string -> Option<Json.Value>)
    : (invs: seq<Invocation>)
    ensures |invs| <= |calls|
    decreases |calls|
  {
    if calls == [] then []
    else
      var n := |calls| - 1;
      var last := InvocationOf(calls[n], n, registry, decode);
      Invocations(calls[..n], registry, decode) + (if last.Some? then [last.value] else [])
  }

  /** The prefix one call longer runs that call's tool function, if it runs one, last. */
  lemma InvocationsExtend(calls: seq<ToolCall>, i: nat, registry: Registry, decode: string -> Option<Json.Value>)
    requires i < |calls|
    ensures var ran := InvocationOf(calls[i], i, registry, decode);
      Invocations(calls[..i + 1], registry, decode)
        == Invocations(calls[..i], registry, decode) + (if ran.Some? then [ran.value] else [])
  {
    assert calls[..i + 1][..i] == calls[..i];
  }

  /** One turn of the loop, for the call at `position`: decode the arguments, call
      the registered function with them and serialise the value under the second key
      of its response. */
  function ProcessCall(
    call: ToolCall, position: nat, registry: Registry, decode: string -> Option<Json.Value>, dumps: Json.Value -> string)
    : (r: Result<ToolOutput, DispatchError>)
    ensures r.Ok? ==> r.value.toolCallId == call.id
    ensures r.Ok? <==>
      && decode(call.arguments).Some? && decode(call.arguments).value.Object?
      && call.functionName in registry
      && registry[call.functionName](position, decode(call.arguments).value).Ok?
      && SecondValue(registry[call.functionName](position, decode(call.arguments).value).value).Ok?
    ensures r.Ok? ==>
      r.value.output == dumps(SecondValue(registry[call.functionName](position, decode(call.arguments).value).value).value)
    ensures decode(call.arguments).Some? && decode(call.arguments).value.Object? && call.functionName !in registry ==>
      r == Err(NotCallable(call.functionName))
  {
    match decode(call.arguments)
    case None => Err(ArgumentsNotJson(call.arguments))
    case Some(args) =>
      if !args.Object? then Err(ArgumentsNotMapping)
      else if call.functionName !in registry then Err(NotCallable(call.functionName))
      else
        match registry[call.functionName](position, args)
        case Err(message) => Err(ToolRaised(message))
        case Ok(response) =>
          match SecondValue(response)
          case Err(e) => Err(e)
          case Ok(series) => Ok(ToolOutput(call.id, dumps(series)))
  }

  /** `process_tool_calls`: the calls in order, one output appended per call; the
      first failing call ends the whole batch, and no outputs are returned. Also
      returns the tool functions run: those of the calls up to and including the
      failing one, and none after it. */
  method ProcessToolCalls(
    calls: seq<ToolCall>, registry: Registry, decode: string -> Option<Json.Value>, dumps: Json.Value -> string)
    returns (r: Result<seq<ToolOutput>, DispatchError>, invoked: seq<Invocation>)
    ensures r.Ok? <==> forall i :: 0 <= i < |calls| ==> ProcessCall(calls[i], i, registry, decode, dumps).Ok?
    ensures r.Ok? ==> |r.value| == |calls|
    ensures r.Ok? ==> forall i :: 0 <= i < |calls| ==>
      ProcessCall(calls[i], i, registry, decode, dumps) == Ok(r.value[i]) && r.value[i].toolCallId == calls[i].id
    ensures r.Ok? ==> invoked == Invocations(calls, registry, decode)
    ensures r.Err? ==>
      exists k :: 0 <= k < |calls|
        && ProcessCall(calls[k], k, registry, decode, dumps) == Err(r.error)
        && (forall j :: 0 <= j < k ==> ProcessCall(calls[j], j, registry, decode, dumps).Ok?)
        && invoked == Invocations(calls[..k + 1], registry, decode)
  {
    var output: seq<ToolOutput> := [];
    invoked := [];
    for i := 0 to |calls|
      invariant |output| == i
      invariant forall j :: 0 <= j < i ==> ProcessCall(calls[j], j, registry, decode, dumps) == Ok(output[j])
      invariant invoked == Invocations(calls[..i], registry, decode)
    {
      InvocationsExtend(calls, i, registry, decode);
      var ran := InvocationOf(calls[i], i, registry, decode);
      if ran.Some? {
        invoked := invoked + [ran.value];
      }
      var result := ProcessCall(calls[i], i, registry, decode, dumps);
      if result.Err? {
        assert invoked == Invocations(calls[..i + 1], registry, decode);
        assert forall j :: 0 <= j < i ==> ProcessCall(calls[j], j, registry, decode, dumps).Ok?;
        return Err(result.error), invoked;
      }
      output := output + [result.value];
    }
    assert calls[..|calls|] == calls;
    return Ok(output), invoked;
  }

  /** A batch that succeeds runs every call's tool function exactly once, in call
      order, with the call's own position, name and decoded arguments. */
  lemma {:induction false} SuccessfulBatchRunsEveryTool(
    calls: seq<ToolCall>, registry: Registry, decode: string -> Option<Json.Value>, dumps: Json.Value -> string)
    requires forall i :: 0 <= i < |calls| ==> ProcessCall(calls[i], i, registry, decode, dumps).Ok?
    ensures |Invocations(calls, registry, decode)| == |calls|
    ensures forall i :: 0 <= i < |calls| ==>
      && decode(calls[i].arguments).Some?
      && Invocations(calls, registry, decode)[i] == Invocation(i, calls[i].functionName, decode(calls[i].arguments).value)
  {
    if calls != [] {
      var n := |calls| - 1;
      var prefix := calls[..n];
      assert forall i :: 0 <= i < |prefix| ==> prefix[i] == calls[i];
      SuccessfulBatchRunsEveryTool(prefix, registry, decode, dumps);
      assert ProcessCall(calls[n], n, registry, decode, dumps).Ok?;
    }
  }

  /** The same call made twice can fail the second time after succeeding the first:
      when the provider answers the repeated request with its throttling notice,
      the batch ends at the repeat with an index error. */
  lemma RepeatedCallCanFail(
    call: ToolCall, registry: Registry, decode: string -> Option<Json.Value>, dumps: Json.Value -> string,
    meta: Json.Value, series: Json.Value, notice: string)
    requires decode(call.arguments).Some? && decode(call.arguments).value.Object?
    requires call.functionName in registry
    requires registry[call.functionName](0, decode(call.arguments).value)
      == Ok(Json.Object([("Meta Data", meta), ("Time Series (Daily)", series)]))
    requires registry[call.functionName](1, decode(call.arguments).value)
      == Ok(Json.Object([("Information", Json.String(notice))]))
    ensures ProcessCall(call, 0, registry, decode, dumps) == Ok(ToolOutput(call.id, dumps(series)))
    ensures ProcessCall(call, 1, registry, decode, dumps) == Err(TooFewKeys(1))
  {
  }

  /** A response holding only an "Information" key, the provider's throttling notice,
      fails with an index error instead of producing an output. */
  lemma InformationOnlyFails(
    call: ToolCall, position: nat, registry: Registry, decode: string -> Option<Json.Value>, dumps: Json.Value -> string,
    notice: string)
    requires decode(call.arguments).Some? && decode(call.arguments).value.Object?
    requires call.functionName in registry
    requires registry[call.functionName](position, decode(call.arguments).value)
      == Ok(Json.Object([("Information", Json.String(notice))]))
    ensures ProcessCall(call, position, registry, decode, dumps) == Err(TooFewKeys(1))
  {
  }

  /** The value taken is the second one whatever its key: with a "Note" between the
      metadata and the time series, the note is serialised and the series dropped. */
  lemma SecondKeyIsNotScanned(
    call: ToolCall, position: nat, registry: Registry, decode: string -> Option<Json.Value>, dumps: Json.Value -> string,
    meta: Json.Value, note: Json.Value, series: Json.Value)
    requires decode(call.arguments).Some? && decode(call.arguments).value.Object?
    requires call.functionName in registry
    requires registry[call.functionName](position, decode(call.arguments).value)
      == Ok(Json.Object([("Meta Data", meta), ("Note", note), ("Time Series (Daily)", series)]))
    ensures ProcessCall(call, position, registry, decode, dumps) == Ok(ToolOutput(call.id, dumps(note)))
  {
  }
}
