/**
 * The adapters that talk through a vendor SDK: OpenAI text and chat
 * completions, Azure OpenAI chat, Anthropic text completions and Anthropic
 * messages. The SDK client is reduced to what it settles to: a rejection, a
 * complete answer, or the chunks of a stream and how the stream ended. The
 * request each adapter hands to the SDK is recorded as a `Request` event whose
 * target is the SDK's base URL.
 */
module SdkAdapters {
  import opened JsValues
  import opened Conversation
  import opened Payloads
  import opened Proxies
  import opened Responses

  datatype SdkKind = OpenAIText | OpenAIChat | AzureOpenAIChat | AnthropicText | AnthropicMessages

  /** What the SDK call settles to: it rejected, or it resolved to an answer
    * (read in non-streaming mode) or to a stream of chunks that either ran out or
    * threw (read in streaming mode). */
  datatype SdkResult =
    | Rejected(error: JsError)
    | Resolved(answer: Value, chunks: seq<Value>, end: Option<JsError>)

  const OpenAIBase: string := "https://api.openai.com"
  const AnthropicBase: string := "https://api.anthropic.com"

  /** `AzureOpenAIClient` is referenced, but its import is commented out. */
  const AzureClientMissing: JsError := JsError("AzureOpenAIClient is not defined")

  /** `this.proxy.modifyUrl(this.config.url || base)`. */
  function SdkBaseUrl(config: Config, proxy: ProxyInstance, base: string): string {
    var u := Field(config, "url");
    ModifyUrl(proxy, if Truthy(u) then Render(u) else base)
  }

  /** The parameters each adapter hands to its SDK. */
  function SdkRequest(kind: SdkKind, config: Config, proxy: ProxyInstance, msgs: seq<ChatMessage>): Event
    requires kind != AzureOpenAIChat
  {
    var stream := Truthy(Field(config, "stream"));
    match kind
    case OpenAIText =>
      Request(SdkBaseUrl(config, proxy, OpenAIBase),
              OpenAITextParams(OpenAITextPrompt(msgs), Field(config, "model"), Field(config, "maxTokens"),
                               Field(config, "temperature"), Field(config, "frequencyPenalty"),
                               Field(config, "presencePenalty"), stream))
    case OpenAIChat =>
      Request(SdkBaseUrl(config, proxy, OpenAIBase),
              OpenAIChatParams(OpenAIChatMessages(msgs), Field(config, "model"), Field(config, "maxTokens"),
                               Field(config, "temperature"), Field(config, "frequencyPenalty"),
                               Field(config, "presencePenalty"), stream))
    case AnthropicText =>
      Request(SdkBaseUrl(config, proxy, AnthropicBase),
              AnthropicTextParams(AnthropicTextPrompt(msgs), Field(config, "model"), Field(config, "maxTokens"),
                                  Field(config, "temperature"), [Roles.HumanPrompt], stream))
    case AnthropicMessages =>
      Request(SdkBaseUrl(config, proxy, AnthropicBase),
              AnthropicMessagesParams(AnthropicMessageList(msgs), AnthropicSystem(msgs), Field(config, "model"),
                                      Field(config, "maxTokens"), Field(config, "temperature"), stream))
  }

  /** `message.choices[0]`: throws when `choices` is null or undefined. */
  function FirstChoice(message: Value): Result<Value> {
    match Get(message, "choices")
    case Throw(e) => Throw(e)
    case Ok(choices) => Index(choices, 0)
  }

  function Assistant(text: Value, mode: Mode): Event {
    Notify(text, Str("assistant"), mode)
  }

  /** `choices[0]?.text ?? ""`, or with `delta?.content` (chat) or `message?.content`
    * (a complete chat answer) in place of `text`. */
  function ChoiceText(message: Value, path: seq<string>): Result<Value> {
    match FirstChoice(message)
    case Throw(e) => Throw(e)
    case Ok(choice) => Ok(Coalesce(OptPath(choice, path), Str("")))
  }

  /** `v?.a?.b…`. */
  function OptPath(v: Value, path: seq<string>): Value
    decreases |path|
  {
    if path == [] then v else OptPath(OptGet(v, path[0]), path[1..])
  }

  /** A log line of the Anthropic messages stream, or a delta for the answer. */
  function AnthropicStreamEvent(chunk: Value): (r: Result<Event>)
    ensures r.Ok? ==> r.value.Log? || (r.value.Notify? && r.value == Assistant(r.value.text, Append))
  {
    match Get(chunk, "type")
    case Throw(e) => Throw(e)
    case Ok(kind) =>
      if kind == Str("content_block_delta") then
        Ok(Assistant(Coalesce(OptPath(chunk, ["delta", "text"]), Str("")), Append))
      else if kind == Str("message_start") then
        Ok(Log("Message sent (input: " + Render(OptPath(chunk, ["usage", "input_tokens"])) + " tokens)"))
      else if kind == Str("message_stop") then
        Ok(Log("Message received (input: " + Render(OptGet(chunk, "inputTokenCount")) + " tokens, output: " +
               Render(OptGet(chunk, "outputTokenCount")) + ")"))
      else
        Ok(Log("Event " + Render(kind)))
  }

  /** What one streamed chunk raises: an appended piece of the answer, or, for
    * the Anthropic messages stream, a log line for events other than a delta. */
  function ChunkEvent(kind: SdkKind, chunk: Value): (r: Result<Event>)
    ensures r.Ok? && kind != AnthropicMessages ==> r.value.Notify?
    ensures r.Ok? ==> r.value.Log? || (r.value.Notify? && r.value == Assistant(r.value.text, Append))
  {
    match kind
    case OpenAIText =>
      (match ChoiceText(chunk, ["text"])
       case Throw(e) => Throw(e)
       case Ok(text) => Ok(Assistant(text, Append)))
    case AnthropicText =>
      (match Get(chunk, "completion")
       case Throw(e) => Throw(e)
       case Ok(completion) => Ok(Assistant(completion, Append)))
    case AnthropicMessages => AnthropicStreamEvent(chunk)
    case _ =>
      (match ChoiceText(chunk, ["delta", "content"])
       case Throw(e) => Throw(e)
       case Ok(text) => Ok(Assistant(text, Append)))
  }

  /** The text of a complete, non-streamed answer. */
  function AnswerText(kind: SdkKind, answer: Value): Result<Value> {
    match kind
    case OpenAIText => ChoiceText(answer, ["text"])
    case AnthropicText => Get(answer, "completion")
    case AnthropicMessages =>
      (match Get(answer, "data")
       case Throw(e) => Throw(e)
       case Ok(data) => Get(data, "content"))
    case _ => ChoiceText(answer, ["message", "content"])
  }

  /** The events a stream raised and, if reading a chunk threw, the exception. */
  datatype Streamed = Streamed(events: seq<Event>, failure: Option<JsError>)

  /** The `for await` loop over the chunks, specified chunk by chunk from the
    * front: it stops at the first chunk it cannot read. */
  function StreamEvents(kind: SdkKind, chunks: seq<Value>): (s: Streamed)
    ensures |s.events| <= |chunks|
    ensures s.failure.None? ==> |s.events| == |chunks|
    decreases |chunks|
  {
    if chunks == [] then Streamed([], None)
    else
      var prev := StreamEvents(kind, chunks[..|chunks| - 1]);
      if prev.failure.Some? then prev
      else match ChunkEvent(kind, chunks[|chunks| - 1])
        case Throw(e) => Streamed(prev.events, Some(e))
        case Ok(ev) => Streamed(prev.events + [ev], None)
  }

  /** Each event is what its chunk raised, in order; a failure is the exception
    * of the chunk right after the last one delivered. */
  lemma {:induction false} StreamEventsPerChunk(kind: SdkKind, chunks: seq<Value>)
    ensures var s := StreamEvents(kind, chunks);
            (forall i :: 0 <= i < |s.events| ==> ChunkEvent(kind, chunks[i]) == Ok(s.events[i])) &&
            (s.failure.Some? ==> |s.events| < |chunks| && ChunkEvent(kind, chunks[|s.events|]) == Throw(s.failure.value))
    decreases |chunks|
  {
    if chunks != [] {
      var init := chunks[..|chunks| - 1];
      StreamEventsPerChunk(kind, init);
      var prev := StreamEvents(kind, init);
      var s := StreamEvents(kind, chunks);
      forall i | 0 <= i < |s.events| ensures ChunkEvent(kind, chunks[i]) == Ok(s.events[i]) {
        if i < |prev.events| {
          assert chunks[i] == init[i];
          assert s.events[i] == prev.events[i];
        }
      }
      if prev.failure.Some? {
        assert chunks[|s.events|] == init[|prev.events|];
      }
    }
  }

  /** Once the loop has thrown, later chunks change nothing. */
  lemma {:induction false} StreamFailureSticks(kind: SdkKind, chunks: seq<Value>, k: nat)
    requires k <= |chunks| && StreamEvents(kind, chunks[..k]).failure.Some?
    ensures StreamEvents(kind, chunks) == StreamEvents(kind, chunks[..k])
    decreases |chunks| - k
  {
    if k < |chunks| {
      var init := chunks[..|chunks| - 1];
      assert init[..k] == chunks[..k];
      StreamFailureSticks(kind, init, k);
    } else {
      assert chunks[..k] == chunks;
    }
  }

  /** One more chunk read after a run of readable ones. */
  lemma StreamEventsStep(kind: SdkKind, chunks: seq<Value>, i: nat)
    requires i < |chunks| && StreamEvents(kind, chunks[..i]).failure.None?
    ensures var prev := StreamEvents(kind, chunks[..i]);
            var ev := ChunkEvent(kind, chunks[i]);
            StreamEvents(kind, chunks[..i + 1]) ==
              if ev.Throw? then Streamed(prev.events, Some(ev.error)) else Streamed(prev.events + [ev.value], None)
  {
    assert chunks[..i + 1][..i] == chunks[..i];
  }

  /** The `for await` loop: raise what each chunk calls for until one cannot be
    * read. */
  method DeliverStream(kind: SdkKind, chunks: seq<Value>) returns (s: Streamed)
    ensures s == StreamEvents(kind, chunks)
  {
    var events: seq<Event> := [];
    var i := 0;
    while i < |chunks|
      invariant 0 <= i <= |chunks|
      invariant StreamEvents(kind, chunks[..i]) == Streamed(events, None)
    {
      var ev := ChunkEvent(kind, chunks[i]);
      StreamEventsStep(kind, chunks, i);
      if ev.Throw? {
        StreamFailureSticks(kind, chunks, i + 1);
        return Streamed(events, Some(ev.error));
      }
      events := events + [ev.value];
      i := i + 1;
    }
    assert chunks[..i] == chunks;
    return Streamed(events, None);
  }

  /** "Query failed", reported without a response: the SDK hands a stream over
    * only for an ok response, whose suffix is empty as well. */
  function QueryFailed(e: JsError, state: ConversationState): Event {
    Error(ErrorText("Query failed", e, state, None))
  }

  /** How the `try` block settles once the request is made: with the final
    * message and true, or, when anything in it throws, with "Query failed" and
    * false. */
  function Settle(kind: SdkKind, stream: bool, state: ConversationState, request: Event, result: SdkResult): Run {
    match result
    case Rejected(e) => Run(Returned(Bool(false)), [request, QueryFailed(e, state)])
    case Resolved(answer, chunks, end) =>
      if stream then
        var s := StreamEvents(kind, chunks);
        var failure := if s.failure.Some? then s.failure else end;
        if failure.Some? then Run(Returned(Bool(false)), [request] + s.events + [QueryFailed(failure.value, state)])
        else Run(Returned(Bool(true)), [request] + s.events + [Assistant(Str(""), Done)])
      else match AnswerText(kind, answer)
        case Throw(e) => Run(Returned(Bool(false)), [request, QueryFailed(e, state)])
        case Ok(text) => Run(Returned(Bool(true)), [request, Assistant(text, Complete)])
  }

  /** The specification of an SDK adapter's `sendRequest`. */
  function SdkRun(kind: SdkKind, config: Config, proxy: ProxyInstance, state: ConversationState, result: SdkResult): Run {
    if kind == AzureOpenAIChat then Run(Threw(AzureClientMissing), [])
    else Settle(kind, Truthy(Field(config, "stream")), state, SdkRequest(kind, config, proxy, state.messages), result)
  }

  /** An SDK adapter's `sendRequest`. */
  method SdkSendRequest(kind: SdkKind, config: Config, proxy: ProxyInstance, state: ConversationState, result: SdkResult)
    returns (outcome: Outcome, events: seq<Event>)
    ensures Run(outcome, events) == SdkRun(kind, config, proxy, state, result)
  {
    if kind == AzureOpenAIChat {
      return Threw(AzureClientMissing), [];
    }
    var run := TrySdk(kind, Truthy(Field(config, "stream")), state, SdkRequest(kind, config, proxy, state.messages), result);
    return run.outcome, run.events;
  }

  /** The `try` block of an SDK adapter's `sendRequest`. */
  method TrySdk(kind: SdkKind, stream: bool, state: ConversationState, request: Event, result: SdkResult)
    returns (run: Run)
    ensures run == Settle(kind, stream, state, request, result)
  {
    if result.Rejected? {
      return Run(Returned(Bool(false)), [request, QueryFailed(result.error, state)]);
    }
    if stream {
      var s := DeliverStream(kind, result.chunks);
      var failure := if s.failure.Some? then s.failure else result.end;
      if failure.Some? {
        return Run(Returned(Bool(false)), [request] + s.events + [QueryFailed(failure.value, state)]);
      }
      return Run(Returned(Bool(true)), [request] + s.events + [Assistant(Str(""), Done)]);
    }
    var text := AnswerText(kind, result.answer);
    if text.Throw? {
      return Run(Returned(Bool(false)), [request, QueryFailed(text.error, state)]);
    }
    return Run(Returned(Bool(true)), [request, Assistant(text.value, Complete)]);
  }

  function ErrorCount(events: seq<Event>): nat {
    if events == [] then 0 else (if events[0].Error? then 1 else 0) + ErrorCount(events[1..])
  }

  lemma {:induction false} ErrorCountAppend(a: seq<Event>, b: seq<Event>)
    ensures ErrorCount(a + b) == ErrorCount(a) + ErrorCount(b)
    decreases |a|
  {
    if a == [] {
      assert a + b == b;
    } else {
      assert (a + b)[0] == a[0];
      assert (a + b)[1..] == a[1..] + b;
      ErrorCountAppend(a[1..], b);
    }
  }

  lemma {:induction false} NoErrors(events: seq<Event>)
    requires forall i :: 0 <= i < |events| ==> !events[i].Error?
    ensures ErrorCount(events) == 0
    decreases |events|
  {
    if events != [] {
      NoErrors(events[1..]);
    }
  }

  /** A stream that ran to its end raised every chunk's piece in order and then
    * the end marker; one that threw raised what it had read and one error. */
  lemma SdkStreamShape(kind: SdkKind, state: ConversationState, request: Event,
                       answer: Value, chunks: seq<Value>, end: Option<JsError>)
    requires !request.Error?
    ensures var run := Settle(kind, true, state, request, Resolved(answer, chunks, end));
            var last := run.events[|run.events| - 1];
            |run.events| >= 2 && run.events[0] == request &&
            (run.outcome == Returned(Bool(true)) || run.outcome == Returned(Bool(false))) &&
            (run.outcome == Returned(Bool(false)) <==> ErrorCount(run.events) == 1) &&
            (run.outcome == Returned(Bool(false)) ==> last.Error?) &&
            (run.outcome == Returned(Bool(true)) ==>
               ErrorCount(run.events) == 0 && last == Assistant(Str(""), Done) &&
               |run.events| == |chunks| + 2 &&
               forall i :: 0 <= i < |chunks| ==> ChunkEvent(kind, chunks[i]) == Ok(run.events[i + 1]))
  {
    var s := StreamEvents(kind, chunks);
    StreamEventsPerChunk(kind, chunks);
    assert forall i :: 0 <= i < |s.events| ==> !s.events[i].Error?;
    var failure := if s.failure.Some? then s.failure else end;
    StreamTail(request, s.events, if failure.Some? then QueryFailed(failure.value, state) else Assistant(Str(""), Done));
  }

  /** The request, then events raising no error, then one last event. */
  lemma StreamTail(request: Event, events: seq<Event>, last: Event)
    requires !request.Error? && forall i :: 0 <= i < |events| ==> !events[i].Error?
    ensures var all := [request] + events + [last];
            |all| == |events| + 2 && all[0] == request && all[|all| - 1] == last &&
            ErrorCount(all) == (if last.Error? then 1 else 0) &&
            forall i :: 0 <= i < |events| ==> all[i + 1] == events[i]
  {
    var all := [request] + events + [last];
    NoErrors([request] + events);
    ErrorCountAppend([request] + events, [last]);
    assert ErrorCount([last]) == (if last.Error? then 1 else 0) + ErrorCount([last][1..]);
    assert [last][1..] == [];
  }

  /** A complete answer is one message, complete; a rejection or an unreadable
    * answer is one error. */
  lemma SdkAnswerShape(kind: SdkKind, stream: bool, state: ConversationState, request: Event, result: SdkResult)
    requires !request.Error? && (result.Resolved? ==> !stream)
    ensures var run := Settle(kind, stream, state, request, result);
            var last := run.events[|run.events| - 1];
            |run.events| == 2 && run.events[0] == request &&
            (run.outcome == Returned(Bool(true)) || run.outcome == Returned(Bool(false))) &&
            (run.outcome == Returned(Bool(false)) <==> ErrorCount(run.events) == 1) &&
            (run.outcome == Returned(Bool(false)) ==> last.Error?) &&
            (run.outcome == Returned(Bool(true)) ==>
               ErrorCount(run.events) == 0 && result.Resolved? &&
               last == Assistant(AnswerText(kind, result.answer).value, Complete))
  {
    var run := Settle(kind, stream, state, request, result);
    assert ErrorCount(run.events) == ErrorCount(run.events[1..]);
    assert ErrorCount(run.events[1..]) == (if run.events[1].Error? then 1 else 0) + ErrorCount(run.events[2..]);
    assert run.events[2..] == [];
  }

  /** The Azure adapter rejects before it builds any request. */
  lemma AzureNeverRequests(config: Config, proxy: ProxyInstance, state: ConversationState, result: SdkResult)
    ensures SdkRun(AzureOpenAIChat, config, proxy, state, result) == Run(Threw(AzureClientMissing), [])
  {
  }
}
