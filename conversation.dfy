/**
 * The data every adapter shares: the conversation it is handed, the
 * notifications it raises through its callbacks (recorded as a trace of
 * events, with the requests it issues in between), what `sendRequest`
 * settles to, and the HTTP replies the network answers with.
 */
module Conversation {
  import opened JsValues
  import opened Text

  /** One message of the conversation; role and text may be missing. */
  datatype ChatMessage = ChatMessage(role: Option<string>, text: Option<string>)

  /** What the caller passes to `sendRequest`: the ordered messages and the text
    * appended to every error message. The cancellation signal is not modelled:
    * its effect reaches the adapters as a rejected call. */
  datatype ConversationState = ConversationState(messages: seq<ChatMessage>, extraText: string)

  /** `m.text?.length > 0`. */
  predicate HasText(m: ChatMessage) {
    m.text.Some? && |m.text.value| > 0
  }

  /** `state.messages.filter(m => m.text?.length > 0)`: the messages with a
    * non-empty text, in their original order. */
  function NonEmpty(msgs: seq<ChatMessage>): (r: seq<ChatMessage>)
    ensures forall i :: 0 <= i < |r| ==> HasText(r[i])
  {
    Filter(HasText, msgs)
  }

  /** The text of a message known to have one. */
  function TextOf(m: ChatMessage): string {
    if m.text.Some? then m.text.value else ""
  }

  function Texts(msgs: seq<ChatMessage>): (r: seq<string>)
    ensures |r| == |msgs|
    ensures forall i :: 0 <= i < |msgs| ==> r[i] == TextOf(msgs[i])
  {
    if msgs == [] then [] else [TextOf(msgs[0])] + Texts(msgs[1..])
  }

  /** The `mode` tag of a message notification. */
  datatype Mode = Append | Complete | Done

  /** One entry of a chat-style `messages` array. */
  datatype ChatEntry = ChatEntry(role: string, content: string)

  /** One entry of ChatBotKit's `messages` array. */
  datatype TypedText = TypedText(kind: string, text: string)

  /** The body of a request an adapter issues, one variant per request shape. */
  datatype Payload =
    | OpenAITextParams(prompt: string, model: Value, maxTokens: Value, temperature: Value,
                       frequencyPenalty: Value, presencePenalty: Value, stream: bool)
    | OpenAIChatParams(messages: seq<ChatEntry>, model: Value, maxTokens: Value, temperature: Value,
                       frequencyPenalty: Value, presencePenalty: Value, stream: bool)
    | AnthropicTextParams(prompt: string, model: Value, maxTokensToSample: Value, temperature: Value,
                          stopSequences: seq<string>, stream: bool)
    | AnthropicMessagesParams(messages: seq<ChatEntry>, system: string, model: Value, maxTokens: Value,
                              temperature: Value, stream: bool)
    | SteamShipGenerate(appendOutputToFile: bool, text: string, pluginInstance: Value)
    | SteamShipStatus(taskId: Value)
    | ScaleInput(input: string)
    | FishRelay(token: Value, scaleUrl: Value, chatLog: string)
    | ChatBotKitCreate(backstory: string, model: Value, datasetId: string, skillsetId: string,
                       history: seq<TypedText>)
    | ChatBotKitSend(text: string)
    | ChatBotKitReceive(channel: Option<string>)
    | ChatBotKitDelete

  /** What an adapter does that its caller can observe, in order: a request it
    * issues (to an API path or a URL), a log notification, an error
    * notification, and a message notification. */
  datatype Event =
    | Request(target: string, body: Payload)
    | Log(message: string)
    | Error(message: string)
    | Notify(text: Value, role: Value, mode: Mode)

  /** How `sendRequest` settles: its promise resolves to a value or rejects with an
    * exception. `Pending` marks a run whose scripted replies ran out while the
    * adapter still awaited one. */
  datatype Outcome = Returned(value: Value) | Threw(error: JsError) | Pending

  /** JSON.parse of a body text: a value or a SyntaxError. */
  datatype Parse = Json(value: Value) | Malformed(error: JsError)

  /** A response body: `response.text()` either fails or yields a text, whose
    * JSON parse is given alongside it. */
  datatype Body = Unreadable(error: JsError) | Text(text: string, parsed: Parse)

  datatype HttpResponse = HttpResponse(ok: bool, status: nat, statusText: string, body: Body)

  /** What one `fetch` settles to: a network failure (including an abort) or a response. */
  datatype Reply = NetworkError(error: JsError) | Received(response: HttpResponse)

  /** The `n`-th reply of a script of replies consumed in order, if it has one. */
  function ReplyAt(replies: seq<Reply>, n: nat): Option<Reply> {
    if n < |replies| then Some(replies[n]) else None
  }

  /** A whole `sendRequest`: how it settles and what it did on the way. */
  datatype Run = Run(outcome: Outcome, events: seq<Event>)

  /** The number of message notifications in a trace. */
  function NotifyCount(events: seq<Event>): nat {
    if events == [] then 0
    else (if events[0].Notify? then 1 else 0) + NotifyCount(events[1..])
  }

  lemma {:induction false} NotifyCountAppend(a: seq<Event>, b: seq<Event>)
    ensures NotifyCount(a + b) == NotifyCount(a) + NotifyCount(b)
    decreases |a|
  {
    if a == [] {
      assert a + b == b;
    } else {
      assert (a + b)[0] == a[0];
      assert (a + b)[1..] == a[1..] + b;
      NotifyCountAppend(a[1..], b);
    }
  }

  /** The texts of the log notifications of a trace, in order. */
  function LogTexts(events: seq<Event>): seq<string> {
    if events == [] then []
    else (if events[0].Log? then [events[0].message] else []) + LogTexts(events[1..])
  }

  lemma {:induction false} LogTextsAppend(a: seq<Event>, b: seq<Event>)
    ensures LogTexts(a + b) == LogTexts(a) + LogTexts(b)
    decreases |a|
  {
    if a == [] {
      assert a + b == b;
    } else {
      assert (a + b)[0] == a[0];
      assert (a + b)[1..] == a[1..] + b;
      LogTextsAppend(a[1..], b);
    }
  }
}
