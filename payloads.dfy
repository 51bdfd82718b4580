/**
 * Request shaping: how each adapter turns the conversation into the body of
 * its request. Every adapter except Scale Spellbook first drops the messages
 * whose text is missing or empty, keeping the others in order.
 */
module Payloads {
  import opened Text
  import opened JsValues
  import opened Conversation
  import opened Roles

  // ---------------------------------------------------------------------------
  // OpenAI text: every kept message followed by a blank line.

  /** The concatenation of `text + "\n\n"` over `msgs`. */
  function Paragraphs(msgs: seq<ChatMessage>): string {
    if msgs == [] then "" else TextOf(msgs[0]) + "\n\n" + Paragraphs(msgs[1..])
  }

  lemma {:induction false} ParagraphsAppend(a: seq<ChatMessage>, b: seq<ChatMessage>)
    ensures Paragraphs(a + b) == Paragraphs(a) + Paragraphs(b)
    decreases |a|
  {
    if a == [] {
      assert a + b == b;
    } else {
      assert (a + b)[0] == a[0];
      assert (a + b)[1..] == a[1..] + b;
      ParagraphsAppend(a[1..], b);
    }
  }

  /** The `prompt` of the OpenAI text adapter. */
  function OpenAITextPrompt(msgs: seq<ChatMessage>): string {
    Paragraphs(NonEmpty(msgs))
  }

  /** The prompt is built message by message: a conversation's prompt is the
    * prompts of its parts one after the other, and a single message contributes
    * its text and a blank line, or nothing when its text is missing or empty. */
  lemma OpenAITextPromptHomomorphic(a: seq<ChatMessage>, b: seq<ChatMessage>)
    ensures OpenAITextPrompt(a + b) == OpenAITextPrompt(a) + OpenAITextPrompt(b)
    ensures OpenAITextPrompt([]) == ""
  {
    FilterAppend(HasText, a, b);
    ParagraphsAppend(NonEmpty(a), NonEmpty(b));
  }

  lemma OpenAITextPromptSingle(m: ChatMessage)
    ensures OpenAITextPrompt([m]) == if HasText(m) then m.text.value + "\n\n" else ""
  {
    assert [m][1..] == [];
    if HasText(m) {
      assert NonEmpty([m]) == [m];
      assert Paragraphs([m]) == TextOf(m) + "\n\n" + Paragraphs([]);
    } else {
      assert NonEmpty([m]) == [];
    }
  }

  // ---------------------------------------------------------------------------
  // OpenAI chat (and Azure OpenAI chat): one `{ role, content }` entry per kept message.

  function ChatEntries(msgs: seq<ChatMessage>): (r: seq<ChatEntry>)
    ensures |r| == |msgs|
    ensures forall i :: 0 <= i < |msgs| ==>
              r[i] == ChatEntry(ChatRoleOf(msgs[i].role).WireName(), TextOf(msgs[i]))
  {
    if msgs == [] then [] else [ChatEntry(ChatRoleOf(msgs[0].role).WireName(), TextOf(msgs[0]))] + ChatEntries(msgs[1..])
  }

  /** The `messages` of the OpenAI chat and Azure OpenAI chat adapters: the kept
    * messages in order, none of them empty, each with its mapped role. */
  function OpenAIChatMessages(msgs: seq<ChatMessage>): (r: seq<ChatEntry>)
    ensures |r| == |NonEmpty(msgs)| <= |msgs|
    ensures forall i :: 0 <= i < |r| ==>
              r[i].content == NonEmpty(msgs)[i].text.value && r[i].content != "" &&
              r[i].role == ChatRoleOf(NonEmpty(msgs)[i].role).WireName()
    ensures forall i :: 0 <= i < |r| ==> r[i].role in {"system", "user", "assistant"}
  {
    ChatEntries(NonEmpty(msgs))
  }

  /** Shaping commutes with splitting the conversation: the entries for `a + b`
    * are those for `a` followed by those for `b`. */
  lemma OpenAIChatMessagesAppend(a: seq<ChatMessage>, b: seq<ChatMessage>)
    ensures OpenAIChatMessages(a + b) == OpenAIChatMessages(a) + OpenAIChatMessages(b)
  {
    FilterAppend(HasText, a, b);
    var l := OpenAIChatMessages(a + b);
    var r := OpenAIChatMessages(a) + OpenAIChatMessages(b);
    assert |l| == |r|;
    forall i | 0 <= i < |l| ensures l[i] == r[i] {
      if i < |NonEmpty(a)| {
        assert NonEmpty(a + b)[i] == NonEmpty(a)[i];
      } else {
        assert NonEmpty(a + b)[i] == NonEmpty(b)[i - |NonEmpty(a)|];
      }
    }
  }

  // ---------------------------------------------------------------------------
  // Anthropic text: turn markers, and a final assistant marker unless the last
  // message already is the assistant's.

  /** The concatenation of `prefix(role) + text` over `msgs`. */
  function Turns(msgs: seq<ChatMessage>): string {
    if msgs == [] then ""
    else Turns(msgs[..|msgs| - 1]) + AnthropicPrefix(msgs[|msgs| - 1].role) + TextOf(msgs[|msgs| - 1])
  }

  lemma TurnsSnoc(msgs: seq<ChatMessage>, m: ChatMessage)
    ensures Turns(msgs + [m]) == Turns(msgs) + AnthropicPrefix(m.role) + TextOf(m)
  {
    assert (msgs + [m])[..|msgs|] == msgs;
  }

  /** `allMessages.at(-1)?.role`. */
  function LastRole(msgs: seq<ChatMessage>): Option<string> {
    if msgs == [] then None else msgs[|msgs| - 1].role
  }

  /** The `prompt` of the Anthropic text adapter. */
  function AnthropicTextPrompt(msgs: seq<ChatMessage>): string {
    var kept := NonEmpty(msgs);
    Turns(kept) + (if AnthropicPrefix(LastRole(kept)) == AssistantPrompt then "" else AssistantPrompt)
  }

  /** The prompt always hands the turn to the assistant: with no kept message it
    * is empty; when the last kept message is the assistant's, it ends with that
    * message under the assistant marker (a prefilled answer); otherwise every
    * kept turn is followed by one assistant marker. */
  lemma AnthropicTextPromptEndsWithAssistantTurn(msgs: seq<ChatMessage>)
    ensures NonEmpty(msgs) == [] ==> AnthropicTextPrompt(msgs) == ""
    ensures NonEmpty(msgs) != [] && ChatRoleOf(LastRole(NonEmpty(msgs))) == AssistantRole ==>
              var kept := NonEmpty(msgs);
              AnthropicTextPrompt(msgs) == Turns(kept[..|kept| - 1]) + AssistantPrompt + kept[|kept| - 1].text.value
    ensures NonEmpty(msgs) != [] && ChatRoleOf(LastRole(NonEmpty(msgs))) != AssistantRole ==>
              AnthropicTextPrompt(msgs) == Turns(NonEmpty(msgs)) + AssistantPrompt
  {
    var kept := NonEmpty(msgs);
    if kept != [] {
      assert kept == kept[..|kept| - 1] + [kept[|kept| - 1]];
      TurnsSnoc(kept[..|kept| - 1], kept[|kept| - 1]);
    }
  }

  // ---------------------------------------------------------------------------
  // Anthropic Messages: system texts go to `system`, the rest to `messages`.

  predicate IsSystemMessage(m: ChatMessage) {
    ChatRoleOf(m.role) == SystemRole
  }

  predicate IsConversationMessage(m: ChatMessage) {
    ChatRoleOf(m.role) != SystemRole
  }

  /** `{ role, content: text.trimRight() }` per message. */
  function TrimmedEntries(msgs: seq<ChatMessage>): (r: seq<ChatEntry>)
    ensures |r| == |msgs|
    ensures forall i :: 0 <= i < |msgs| ==>
              r[i] == ChatEntry(ChatRoleOf(msgs[i].role).WireName(), TrimEnd(TextOf(msgs[i])))
  {
    if msgs == [] then [] else [ChatEntry(ChatRoleOf(msgs[0].role).WireName(), TrimEnd(TextOf(msgs[0])))] + TrimmedEntries(msgs[1..])
  }

  /** The `messages` of the Anthropic Messages adapter. */
  function AnthropicMessageList(msgs: seq<ChatMessage>): (r: seq<ChatEntry>)
    ensures forall i :: 0 <= i < |r| ==> r[i].role == "user" || r[i].role == "assistant"
  {
    TrimmedEntries(Filter(IsConversationMessage, NonEmpty(msgs)))
  }

  /** The `system` of the Anthropic Messages adapter. */
  function AnthropicSystem(msgs: seq<ChatMessage>): string {
    Trim(Join(Texts(Filter(IsSystemMessage, NonEmpty(msgs))), "\n"))
  }

  /** Every kept message lands in exactly one of the two fields: the system-mapped
    * ones in `system`, in order, the others as entries of `messages`, in order,
    * each with its text stripped of trailing whitespace only. */
  lemma AnthropicMessagesSplit(msgs: seq<ChatMessage>)
    ensures |AnthropicMessageList(msgs)| + |Filter(IsSystemMessage, NonEmpty(msgs))| == |NonEmpty(msgs)|
    ensures multiset(Filter(IsConversationMessage, NonEmpty(msgs))) + multiset(Filter(IsSystemMessage, NonEmpty(msgs)))
            == multiset(NonEmpty(msgs))
    ensures forall i :: 0 <= i < |AnthropicMessageList(msgs)| ==>
              var m := Filter(IsConversationMessage, NonEmpty(msgs))[i];
              HasText(m) && AnthropicMessageList(msgs)[i].content == TrimEnd(TextOf(m)) &&
              TextOf(m)[..|AnthropicMessageList(msgs)[i].content|] == AnthropicMessageList(msgs)[i].content
    ensures Filter(IsSystemMessage, NonEmpty(msgs)) == [] ==> AnthropicSystem(msgs) == ""
  {
    FilterSplits(IsConversationMessage, IsSystemMessage, NonEmpty(msgs));
    var conv := Filter(IsConversationMessage, NonEmpty(msgs));
    FilterMembers(IsConversationMessage, NonEmpty(msgs));
    FilterMembers(HasText, msgs);
    forall i | 0 <= i < |conv| ensures HasText(conv[i]) {
      assert conv[i] in NonEmpty(msgs);
    }
  }

  // ---------------------------------------------------------------------------
  // ChatBotKit: backstory, earlier messages, and the message to send.

  predicate IsBackstoryMessage(m: ChatMessage) {
    IsBackstoryRole(m.role)
  }

  predicate IsChatTurn(m: ChatMessage) {
    !IsBackstoryRole(m.role)
  }

  /** `chatMessages`: the kept messages that are not backstory. */
  function ChatTurns(msgs: seq<ChatMessage>): seq<ChatMessage> {
    Filter(IsChatTurn, NonEmpty(msgs))
  }

  /** The `backstory` of the create call. */
  function Backstory(msgs: seq<ChatMessage>): string {
    Join(Texts(Filter(IsBackstoryMessage, NonEmpty(msgs))), "\n")
  }

  function TypedTexts(msgs: seq<ChatMessage>): (r: seq<TypedText>)
    ensures |r| == |msgs|
    ensures forall i :: 0 <= i < |msgs| ==>
              r[i] == TypedText(ChatBotKitType(msgs[i].role), TextOf(msgs[i]))
  {
    if msgs == [] then [] else [TypedText(ChatBotKitType(msgs[0].role), TextOf(msgs[0]))] + TypedTexts(msgs[1..])
  }

  /** `chatMessages.slice(0, -1)`: every chat turn but the last. */
  function EarlierTurns(msgs: seq<ChatMessage>): seq<ChatMessage> {
    var turns := ChatTurns(msgs);
    if turns == [] then [] else turns[..|turns| - 1]
  }

  /** The `messages` of the create call. */
  function History(msgs: seq<ChatMessage>): seq<TypedText> {
    TypedTexts(EarlierTurns(msgs))
  }

  /** `chatMessages.slice(-1)[0]`: the message to send, if any. */
  function NewMessage(msgs: seq<ChatMessage>): Option<ChatMessage> {
    var turns := ChatTurns(msgs);
    if turns == [] then None else Some(turns[|turns| - 1])
  }

  /** The body of the create call. */
  function CreatePayload(config: Config, msgs: seq<ChatMessage>): Payload {
    ChatBotKitCreate(Backstory(msgs), Field(config, "model"), "", "", History(msgs))
  }

  /** Every kept message goes to exactly one place: the backstory, the history of
    * the create call, or the send call; the history and the sent message are the
    * chat turns in their order, and no history entry is typed as backstory. */
  lemma ChatBotKitSplit(msgs: seq<ChatMessage>)
    ensures |Filter(IsBackstoryMessage, NonEmpty(msgs))| + |History(msgs)| +
            (if NewMessage(msgs).Some? then 1 else 0) == |NonEmpty(msgs)|
    ensures NewMessage(msgs).Some? ==> EarlierTurns(msgs) + [NewMessage(msgs).value] == ChatTurns(msgs)
    ensures NewMessage(msgs).None? ==> History(msgs) == []
    ensures NewMessage(msgs).Some? ==> HasText(NewMessage(msgs).value) && !IsBackstoryRole(NewMessage(msgs).value.role)
    ensures forall i :: 0 <= i < |History(msgs)| ==> History(msgs)[i].kind != "backstory" && History(msgs)[i].text != ""
  {
    FilterSplits(IsBackstoryMessage, IsChatTurn, NonEmpty(msgs));
    HistoryShape(msgs);
    NewMessageShape(msgs);
  }

  lemma HistoryShape(msgs: seq<ChatMessage>)
    ensures |History(msgs)| == if ChatTurns(msgs) == [] then 0 else |ChatTurns(msgs)| - 1
    ensures forall i :: 0 <= i < |History(msgs)| ==> History(msgs)[i].kind != "backstory" && History(msgs)[i].text != ""
  {
    var turns := ChatTurns(msgs);
    ChatTurnsKept(msgs);
    var earlier := EarlierTurns(msgs);
    assert forall i :: 0 <= i < |earlier| ==> earlier[i] == turns[i];
  }

  lemma NewMessageShape(msgs: seq<ChatMessage>)
    ensures NewMessage(msgs).None? <==> ChatTurns(msgs) == []
    ensures NewMessage(msgs).Some? ==> EarlierTurns(msgs) + [NewMessage(msgs).value] == ChatTurns(msgs)
    ensures NewMessage(msgs).Some? ==> HasText(NewMessage(msgs).value) && !IsBackstoryRole(NewMessage(msgs).value.role)
  {
    var turns := ChatTurns(msgs);
    ChatTurnsKept(msgs);
    if turns != [] {
      assert turns == turns[..|turns| - 1] + [turns[|turns| - 1]];
    }
  }

  /** Every chat turn has text and a role that is not backstory. */
  lemma ChatTurnsKept(msgs: seq<ChatMessage>)
    ensures forall i :: 0 <= i < |ChatTurns(msgs)| ==>
              HasText(ChatTurns(msgs)[i]) && !IsBackstoryRole(ChatTurns(msgs)[i].role)
  {
    var turns := ChatTurns(msgs);
    FilterMembers(IsChatTurn, NonEmpty(msgs));
    FilterMembers(HasText, msgs);
    forall i | 0 <= i < |turns| ensures HasText(turns[i]) && !IsBackstoryRole(turns[i].role) {
      assert turns[i] in NonEmpty(msgs);
    }
  }

  // ---------------------------------------------------------------------------
  // SteamShip and Scale Spellbook: the texts joined by newlines.

  /** The `text` of the SteamShip generate call: the kept texts, one per line. */
  function SteamShipText(msgs: seq<ChatMessage>): string {
    Join(Texts(NonEmpty(msgs)), "\n")
  }

  /** The `input` of the Scale Spellbook request: every message's text, one per
    * line, a missing text reading as an empty line. Scale does not drop empty
    * messages. */
  function ScaleText(msgs: seq<ChatMessage>): string {
    Join(Texts(msgs), "\n")
  }

  /** Adding a message adds one line to the SteamShip text if it has one, and
    * always adds one line to the Scale text. */
  lemma JoinedTextsSnoc(msgs: seq<ChatMessage>, m: ChatMessage)
    ensures msgs != [] ==> ScaleText(msgs + [m]) == ScaleText(msgs) + "\n" + TextOf(m)
    ensures !HasText(m) ==> SteamShipText(msgs + [m]) == SteamShipText(msgs)
    ensures HasText(m) && NonEmpty(msgs) != [] ==>
              SteamShipText(msgs + [m]) == SteamShipText(msgs) + "\n" + m.text.value
  {
    FilterAppend(HasText, msgs, [m]);
    assert [m][1..] == [];
    if msgs != [] {
      assert Texts(msgs + [m]) == Texts(msgs) + [TextOf(m)];
      JoinSnoc(Texts(msgs), TextOf(m), "\n");
    }
    if HasText(m) {
      assert NonEmpty([m]) == [m];
      if NonEmpty(msgs) != [] {
        assert Texts(NonEmpty(msgs) + [m]) == Texts(NonEmpty(msgs)) + [TextOf(m)];
        JoinSnoc(Texts(NonEmpty(msgs)), TextOf(m), "\n");
      }
    } else {
      assert NonEmpty([m]) == [];
      assert NonEmpty(msgs) + [] == NonEmpty(msgs);
    }
  }

  // ---------------------------------------------------------------------------
  // The OpenAI adapters' fetch hook: headers and target URL.

  /** The request the SDK hands to the fetch hook, after the hook adjusted it. */
  datatype FetchCall = FetchCall(url: Value, headers: map<string, Value>)

  /** `this.config.rawUrl ? this.config.url : url`. */
  function FetchTarget(config: Config, url: string): Value {
    if Truthy(Field(config, "rawUrl")) then Field(config, "url") else Str(url)
  }

  /** The OpenAI chat adapter's fetch hook: it adds `Api-Key` unless the key is
    * "-", in which case it removes `Authorization`. */
  function OpenAIChatFetch(config: Config, url: string, headers: map<string, Value>): FetchCall {
    var key := Field(config, "key");
    FetchCall(FetchTarget(config, url),
              if !LooseEq(key, Str("-")) then headers["Api-Key" := key] else headers - {"Authorization"})
  }

  /** The OpenAI text adapter's fetch hook: it always adds `Api-Key`. */
  function OpenAITextFetch(config: Config, url: string, headers: map<string, Value>): FetchCall {
    FetchCall(FetchTarget(config, url), headers["Api-Key" := Field(config, "key")])
  }

  /** The text hook sends the key in `Api-Key` whatever it is, keeps every other
    * header, and fetches the configured URL as is when `rawUrl` is truthy,
    * otherwise the URL the SDK built. */
  lemma OpenAITextFetchCredentials(config: Config, url: string, headers: map<string, Value>)
    ensures OpenAITextFetch(config, url, headers).headers["Api-Key"] == Field(config, "key")
    ensures forall h :: h in headers && h != "Api-Key" ==>
              h in OpenAITextFetch(config, url, headers).headers &&
              OpenAITextFetch(config, url, headers).headers[h] == headers[h]
    ensures OpenAITextFetch(config, url, headers).headers.Keys == headers.Keys + {"Api-Key"}
    ensures Truthy(Field(config, "rawUrl")) ==> OpenAITextFetch(config, url, headers).url == Field(config, "url")
    ensures !Truthy(Field(config, "rawUrl")) ==> OpenAITextFetch(config, url, headers).url == Str(url)
  {
  }

  /** With the key "-" no credential leaves the client (the SDK's own headers carry
    * no `Api-Key`); with any other key both the SDK's `Authorization` and the key
    * in `Api-Key` are sent. No other header is touched, and the target is chosen
    * as in the text hook. */
  lemma OpenAIChatFetchCredentials(config: Config, url: string, headers: map<string, Value>)
    requires "Api-Key" !in headers
    ensures Field(config, "key") == Str("-") ==>
              "Api-Key" !in OpenAIChatFetch(config, url, headers).headers &&
              "Authorization" !in OpenAIChatFetch(config, url, headers).headers
    ensures !LooseEq(Field(config, "key"), Str("-")) ==>
              OpenAIChatFetch(config, url, headers).headers["Api-Key"] == Field(config, "key") &&
              ("Authorization" in headers ==>
                 OpenAIChatFetch(config, url, headers).headers["Authorization"] == headers["Authorization"])
    ensures forall h :: h in headers && h != "Api-Key" && h != "Authorization" ==>
              h in OpenAIChatFetch(config, url, headers).headers &&
              OpenAIChatFetch(config, url, headers).headers[h] == headers[h]
    ensures Truthy(Field(config, "rawUrl")) ==> OpenAIChatFetch(config, url, headers).url == Field(config, "url")
    ensures !Truthy(Field(config, "rawUrl")) ==> OpenAIChatFetch(config, url, headers).url == Str(url)
  {
  }
}
