/**
 * The completion client of server/src/cli/ai/openai-service.ts.
 *
 * `streamText` is a call into the provider SDK, so it is a parameter: given
 * the request it either throws before streaming (`Err`) or yields the chunks
 * it delivered, possibly an error raised after them, and the per-step tool
 * records. The callbacks `onChunk` and `onToolCall` are recorded as an event
 * log, in the order they would have been called.
 */
module AiService {
  import opened Wrappers
  import opened Json
  import opened ChatService
  import opened ToolConfig

  const MaxSteps: nat := 5
  const MissingKeyMessage: string :=
    "OpenAI API key is not configured. Please set the OPENAI_API_KEY environment variable."

  /** What the configuration module reads from the environment. */
  datatype OpenAIConfig = OpenAIConfig(apiKey: Option<string>, model: string)

  /** A constructed `AIService`. */
  datatype Service = Service(apiKey: string, model: string)

  /** The options object handed to `streamText`. */
  datatype StreamRequest = StreamRequest(
    apiKey: string, model: string, messages: seq<ChatMessage>, tools: Option<ToolSet>, maxSteps: Option<nat>)

  /** One step of a multi-step generation: the tool calls it made and the results they produced. */
  datatype StepRecord = StepRecord(toolCalls: seq<Json>, toolResults: seq<Json>)

  /**
   * A started stream: the text chunks delivered, an error raised while
   * iterating after them, and `steps`, which is `None` when the result has
   * no steps array.
   */
  datatype StreamResult = StreamResult(
    textStream: seq<string>, streamError: Option<string>, steps: Option<seq<StepRecord>>, finishReason: string, usage: Json)

  /** What `sendMessage` resolves to. */
  datatype Reply = Reply(
    content: string, finishReason: string, usage: Json,
    toolCalls: seq<Json>, toolResults: seq<Json>, steps: Option<seq<StepRecord>>)

  /** A callback invocation. */
  datatype Event = OnChunk(chunk: string) | OnToolCall(call: Json)

  /** The `AIService` constructor: throws when no API key is configured. */
  function NewService(config: OpenAIConfig): (r: Result<Service>)
    ensures r.Ok? <==> Truthy(config.apiKey)
    ensures r.Ok? ==> r.value == Service(config.apiKey.value, config.model)
    ensures r.Err? ==> r.message == MissingKeyMessage
  {
    if Truthy(config.apiKey) then Ok(Service(config.apiKey.value, config.model)) else Err(MissingKeyMessage)
  }

  /** Tools, and with them the step limit, go into the request only when there is at least one tool. */
  function BuildRequest(service: Service, messages: seq<ChatMessage>, tools: Option<ToolSet>): (r: StreamRequest)
    ensures r.apiKey == service.apiKey && r.model == service.model && r.messages == messages
    ensures r.tools.Some? <==> tools.Some? && |tools.value| > 0
    ensures r.tools.Some? ==> r.tools == tools
    ensures r.maxSteps.Some? <==> r.tools.Some?
    ensures r.maxSteps.Some? ==> r.maxSteps.value == MaxSteps
  {
    if tools.Some? && |tools.value| > 0
    then StreamRequest(service.apiKey, service.model, messages, tools, Some(MaxSteps))
    else StreamRequest(service.apiKey, service.model, messages, None, None)
  }

  // ---------------------------------------------------------------------------
  // Specification of the accumulation
  // ---------------------------------------------------------------------------

  /** The in-order concatenation of a sequence of sequences; on strings, the joined text. */
  function Flatten<T>(xss: seq<seq<T>>): (r: seq<T>)
    ensures r == [] <==> forall i :: 0 <= i < |xss| ==> xss[i] == []
  {
    if xss == [] then [] else xss[0] + Flatten(xss[1..])
  }

  lemma {:induction false} FlattenAppend<T>(a: seq<seq<T>>, b: seq<seq<T>>)
    ensures Flatten(a + b) == Flatten(a) + Flatten(b)
  {
    if a == [] {
      assert a + b == b;
    } else {
      assert (a + b)[1..] == a[1..] + b;
      calc {
        Flatten(a + b);
        a[0] + Flatten(a[1..] + b);
        { FlattenAppend(a[1..], b); }
        a[0] + (Flatten(a[1..]) + Flatten(b));
        (a[0] + Flatten(a[1..])) + Flatten(b);
      }
    }
  }

  lemma FlattenSingle<T>(xs: seq<T>)
    ensures Flatten([xs]) == xs
  {
    assert [xs][1..] == [];
  }

  /** Every element of every part is in the concatenation, and only those are. */
  lemma {:induction false} FlattenMembers<T>(xss: seq<seq<T>>)
    ensures forall x :: x in Flatten(xss) <==> exists i :: 0 <= i < |xss| && x in xss[i]
  {
    if xss != [] {
      FlattenMembers(xss[1..]);
      forall x ensures x in Flatten(xss) <==> exists i :: 0 <= i < |xss| && x in xss[i] {
        if exists i :: 0 <= i < |xss[1..]| && x in xss[1..][i] {
          var i :| 0 <= i < |xss[1..]| && x in xss[1..][i];
          assert x in xss[i + 1];
        }
        if exists i :: 0 <= i < |xss| && x in xss[i] {
          var i :| 0 <= i < |xss| && x in xss[i];
          if i > 0 { assert x in xss[1..][i - 1]; }
        }
      }
    }
  }

  function CallsOf(steps: seq<StepRecord>): (r: seq<seq<Json>>)
    ensures |r| == |steps| && forall i :: 0 <= i < |steps| ==> r[i] == steps[i].toolCalls
  {
    seq(|steps|, i requires 0 <= i < |steps| => steps[i].toolCalls)
  }

  function ResultsOf(steps: seq<StepRecord>): (r: seq<seq<Json>>)
    ensures |r| == |steps| && forall i :: 0 <= i < |steps| ==> r[i] == steps[i].toolResults
  {
    seq(|steps|, i requires 0 <= i < |steps| => steps[i].toolResults)
  }

  /** `toolCalls` of the reply: every step's calls in order, nothing when there are no steps. */
  function ToolCalls(steps: Option<seq<StepRecord>>): seq<Json> {
    if steps.Some? then Flatten(CallsOf(steps.value)) else []
  }

  /** `toolResults` of the reply: every step's results in order, nothing when there are no steps. */
  function ToolResults(steps: Option<seq<StepRecord>>): seq<Json> {
    if steps.Some? then Flatten(ResultsOf(steps.value)) else []
  }

  /** One `onChunk` call per chunk, in arrival order. */
  function ChunkEvents(chunks: seq<string>): (r: seq<Event>)
    ensures |r| == |chunks| && forall i :: 0 <= i < |chunks| ==> r[i] == OnChunk(chunks[i])
  {
    seq(|chunks|, i requires 0 <= i < |chunks| => OnChunk(chunks[i]))
  }

  /** One `onToolCall` call per tool call, in order. */
  function CallEvents(calls: seq<Json>): (r: seq<Event>)
    ensures |r| == |calls| && forall i :: 0 <= i < |calls| ==> r[i] == OnToolCall(calls[i])
  {
    seq(|calls|, i requires 0 <= i < |calls| => OnToolCall(calls[i]))
  }

  /** The tool calls reported to `onToolCall` are exactly those of the steps, step by step. */
  lemma ToolCallsSpec(steps: seq<StepRecord>)
    ensures forall c :: c in ToolCalls(Some(steps)) <==> exists i :: 0 <= i < |steps| && c in steps[i].toolCalls
    ensures ToolCalls(Some(steps + [StepRecord([], [])])) == ToolCalls(Some(steps))
  {
    FlattenMembers(CallsOf(steps));
    assert CallsOf(steps + [StepRecord([], [])]) == CallsOf(steps) + [[]];
    FlattenAppend(CallsOf(steps), [[]]);
  }

  lemma CallEventsAppend(a: seq<Json>, b: seq<Json>)
    ensures CallEvents(a + b) == CallEvents(a) + CallEvents(b)
  {
  }

  lemma CallsOfAppend(steps: seq<StepRecord>, k: nat)
    requires k < |steps|
    ensures CallsOf(steps[..k + 1]) == CallsOf(steps[..k]) + [steps[k].toolCalls]
    ensures ResultsOf(steps[..k + 1]) == ResultsOf(steps[..k]) + [steps[k].toolResults]
  {
  }

  // ---------------------------------------------------------------------------
  // The two methods
  // ---------------------------------------------------------------------------

  /** The `for await` loop of `sendMessage`: appends each chunk and hands it to `onChunk`. */
  method ReadStream(chunks: seq<string>, hasOnChunk: bool) returns (fullResponse: string, events: seq<Event>)
    ensures fullResponse == Flatten(chunks)
    ensures events == if hasOnChunk then ChunkEvents(chunks) else []
  {
    fullResponse := "";
    events := [];
    for i := 0 to |chunks|
      invariant fullResponse == Flatten(chunks[..i])
      invariant events == if hasOnChunk then ChunkEvents(chunks[..i]) else []
    {
      FlattenAppend(chunks[..i], [chunks[i]]);
      assert chunks[..i + 1] == chunks[..i] + [chunks[i]];
      fullResponse := fullResponse + chunks[i];
      if hasOnChunk {
        events := events + [OnChunk(chunks[i])];
      }
    }
    assert chunks[..|chunks|] == chunks;
  }

  /** The inner loop over one step's calls: pushes each and hands it to `onToolCall`. */
  method PushCalls(toolCalls: seq<Json>, stepCalls: seq<Json>, hasOnToolCall: bool)
    returns (calls: seq<Json>, events: seq<Event>)
    ensures calls == toolCalls + stepCalls
    ensures events == if hasOnToolCall then CallEvents(stepCalls) else []
  {
    calls, events := toolCalls, [];
    for c := 0 to |stepCalls|
      invariant calls == toolCalls + stepCalls[..c]
      invariant events == if hasOnToolCall then CallEvents(stepCalls[..c]) else []
    {
      assert stepCalls[..c + 1] == stepCalls[..c] + [stepCalls[c]];
      calls := calls + [stepCalls[c]];
      if hasOnToolCall {
        events := events + [OnToolCall(stepCalls[c])];
      }
    }
    assert stepCalls[..|stepCalls|] == stepCalls;
  }

  /** The loop over `steps`: every step's calls, then every step's results, in step order. */
  method CollectSteps(steps: seq<StepRecord>, hasOnToolCall: bool)
    returns (toolCalls: seq<Json>, toolResults: seq<Json>, events: seq<Event>)
    ensures toolCalls == ToolCalls(Some(steps)) && toolResults == ToolResults(Some(steps))
    ensures events == if hasOnToolCall then CallEvents(toolCalls) else []
  {
    toolCalls, toolResults, events := [], [], [];
    for s := 0 to |steps|
      invariant toolCalls == Flatten(CallsOf(steps[..s]))
      invariant toolResults == Flatten(ResultsOf(steps[..s]))
      invariant events == if hasOnToolCall then CallEvents(toolCalls) else []
    {
      var step := steps[s];
      CallsOfAppend(steps, s);
      FlattenAppend(CallsOf(steps[..s]), [step.toolCalls]);
      FlattenAppend(ResultsOf(steps[..s]), [step.toolResults]);
      FlattenSingle(step.toolCalls);
      FlattenSingle(step.toolResults);
      CallEventsAppend(toolCalls, step.toolCalls);
      if |step.toolCalls| > 0 {
        var more;
        toolCalls, more := PushCalls(toolCalls, step.toolCalls, hasOnToolCall);
        events := events + more;
      }
      if |step.toolResults| > 0 {
        toolResults := toolResults + step.toolResults;
      }
    }
    assert steps[..|steps|] == steps;
  }

  /**
   * `sendMessage`: streams the reply, handing each chunk to `onChunk` when
   * one is given, then collects the tool calls (each handed to `onToolCall`
   * when one is given) and tool results of every step. Any error is rethrown
   * and no partial reply is returned.
   */
  method SendMessage(service: Service, messages: seq<ChatMessage>, hasOnChunk: bool, tools: Option<ToolSet>,
                     hasOnToolCall: bool, streamText: StreamRequest -> Result<StreamResult>)
    returns (r: Result<Reply>, events: seq<Event>)
    ensures streamText(BuildRequest(service, messages, tools)).Err? ==>
              r == Err(streamText(BuildRequest(service, messages, tools)).message) && events == []
    ensures streamText(BuildRequest(service, messages, tools)).Ok? ==>
              var result := streamText(BuildRequest(service, messages, tools)).value;
              && (r.Err? <==> result.streamError.Some?)
              && (r.Err? ==> r.message == result.streamError.value
                             && events == (if hasOnChunk then ChunkEvents(result.textStream) else []))
              && (r.Ok? ==>
                    && r.value == Reply(Flatten(result.textStream), result.finishReason, result.usage,
                                        ToolCalls(result.steps), ToolResults(result.steps), result.steps)
                    && events == (if hasOnChunk then ChunkEvents(result.textStream) else [])
                                 + (if hasOnToolCall then CallEvents(ToolCalls(result.steps)) else []))
  {
    var request := BuildRequest(service, messages, tools);
    var started := streamText(request);
    if started.Err? {
      return Err(started.message), [];
    }
    var result := started.value;
    var fullResponse;
    fullResponse, events := ReadStream(result.textStream, hasOnChunk);
    if result.streamError.Some? {
      return Err(result.streamError.value), events;
    }
    var toolCalls: seq<Json> := [];
    var toolResults: seq<Json> := [];
    if result.steps.Some? {
      var more;
      toolCalls, toolResults, more := CollectSteps(result.steps.value, hasOnToolCall);
      events := events + more;
    }
    r := Ok(Reply(fullResponse, result.finishReason, result.usage, toolCalls, toolResults, result.steps));
  }

  /**
   * `getMessage`: the content `sendMessage` produces, with a chunk callback
   * whose own accumulation is discarded and no tool-call callback.
   */
  method GetMessage(service: Service, messages: seq<ChatMessage>, tools: Option<ToolSet>,
                    streamText: StreamRequest -> Result<StreamResult>)
    returns (r: Result<string>)
    ensures streamText(BuildRequest(service, messages, tools)).Err? ==>
              r == Err(streamText(BuildRequest(service, messages, tools)).message)
    ensures streamText(BuildRequest(service, messages, tools)).Ok? ==>
              var result := streamText(BuildRequest(service, messages, tools)).value;
              && (result.streamError.Some? ==> r == Err(result.streamError.value))
              && (result.streamError.None? ==> r == Ok(Flatten(result.textStream)))
  {
    var reply, events := SendMessage(service, messages, true, tools, false, streamText);
    if reply.Err? {
      return Err(reply.message);
    }
    r := Ok(reply.value.content);
  }
}
