# NotAIChat providers, modelled in Dafny

NotAIChat is a browser chat client that talks to several AI back-ends.
`src/providers.js` is its connection layer. This project models that layer:

- **The connection factory.** Static tables of provider and proxy descriptors, lookup by id with a fallback to entry 0, the creation of a connection (a merged configuration plus a proxy), and the default configurations.
- **Request shaping.** Each adapter turns the conversation into a request body. Empty messages are dropped, roles are mapped case-insensitively, and there is an OpenAI text prompt, an Anthropic text prompt with its trailing assistant turn, the Anthropic Messages split of system from chat messages, the ChatBotKit backstory / history / new-message split, the SteamShip and Scale Spellbook chat logs, and the OpenAI fetch hooks.
- **Proxies.** The direct proxy leaves URLs unchanged; the CORS Anywhere proxy puts its relay in front of them.
- **Error texts and reply classification.** This covers `raiseError`'s text with its HTTP suffix and `handleJsonResponse` with its 4096-character threshold. It also covers the `handleJson` override of every adapter.
- **The adapters' `sendRequest`.** SteamShip's generate-then-poll loop, the ChatBotKit create / send / receive / delete lifecycle with its `try`/`finally`, Scale Spellbook and its Fish relay, the SDK-driven OpenAI, Azure and Anthropic adapters, and the placeholder providers.

How the outside world is represented:

- The network is a script of replies consumed in order. When the script runs out, the run is `Pending`, still awaiting a reply.
- An SDK call is the value it settles to.
- The callbacks (`onMessage`, `onLogMessage`, `onError`) and every request issued become one trace of events, in order.
- JavaScript values are a small datatype. It covers property reads that throw on `null`/`undefined`, loose `==`, truthiness and `String(v)`.
- `JSON.parse` is a parameter: a response body (`Conversation.Body`) pairs the text `response.text()` yields with the outcome of parsing it, a value or a SyntaxError, so nothing relates the two beyond that pairing.

Modules, one per file:

| file | module |
|---|---|
| `text.dfy` | `Text` |
| `js_values.dfy` | `JsValues` |
| `conversation.dfy` | `Conversation` |
| `roles.dfy` | `Roles` |
| `payloads.dfy` | `Payloads` |
| `proxies.dfy` | `Proxies` |
| `responses.dfy` | `Responses` |
| `factory.dfy` | `Factory` |
| `steamship.dfy` | `SteamShip` |
| `chatbotkit.dfy` | `ChatBotKitAdapter` |
| `base_provider.dfy` | `ProviderBase` |
| `scale.dfy` | `ScaleSpellbook` |
| `sdk_adapters.dfy` | `SdkAdapters` |

The code that changes state is imperative here too:

- `ConnectionFactory` is a class with the two static tables as fields.
- `Object.assign` is a loop over keys.
- The SteamShip `while (true)` poll loop and the streaming `for await` loop are `while` loops.
- The ChatBotKit lifecycle is a method whose `finally` blocks are explicit control flow.

Each method is proved equal to a specification function, and the lemmas state what the source promises about that function.

## Model

| member | source | states |
|---|---|---|
| Factory.ConnectionFactory.Init | src/providers.js:27-129 | the provider table holds its eleven entries in source order, led by the empty provider; the proxy table holds the direct proxy then CORS Anywhere |
| Factory.FirstMatch | src/providers.js:151-157 | the position found is the first whose id is loosely equal to the requested one; none is found only when no id matches |
| Factory.ConnectionFactory.GetProvider | src/providers.js:151-153 | the descriptor returned is registered; it is the first one whose id loosely equals the requested id, or entry 0 when none does |
| Factory.ConnectionFactory.GetProxy | src/providers.js:155-157 | as for providers, falling back to the direct proxy |
| Factory.ResolveRegistered | src/providers.js:151-157 | with distinct ids, every registered id resolves to its own entry |
| Factory.ResolveNullish | src/providers.js:151-157 | a missing (null or undefined) id resolves to entry 0 |
| Factory.RegisteredIdsResolve | src/providers.js:27-129 | every id in the two tables resolves to its own entry, so only unknown ids fall back |
| Factory.Assign | src/providers.js:148 | `Object.assign` leaves the target's keys plus the source's, the source's value winning on a shared key |
| Factory.MergePrefersProviderConfig | src/providers.js:140-148 | the merged configuration has the parsed options' keys and the provider config's keys; a provider-config field overrides a parsed option of the same name, and each of the four options (`maxTokens`, `temperature`, `frequencyPenalty`, `presencePenalty`) the config lacks keeps its parsed value |
| Factory.ConnectionFactory.CreateConnection | src/providers.js:135-149 | no connection exactly when the provider config is missing or its `typeId` resolves to the empty provider; otherwise the connection runs the resolved provider with the merged configuration and a proxy built from the proxy config (direct when it is missing) |
| Factory.CreateConnectionByTable | src/providers.js:135-157 | an unknown `typeId` resolves to the empty provider, hence no connection, and every registered non-empty provider gives one of its own kind |
| Factory.CreateConfigAsWrittenDropsTemplate | src/providers.js:23-25 | `createConfig` as written yields only `typeId` and `name`, losing every template field; for OpenAI Chat the key is lost |
| Factory.CreateConfig | src/providers.js:131-133 | the corrected configuration, for providers and proxies alike, holds `typeId`, `name` and every template field; the template wins on a clash, and `typeId` and `name` default to the id and "Name" |
| Factory.CreateConfigReadingsAgree | src/providers.js:131-133 | the two readings agree exactly when the template adds nothing beyond `typeId` and `name`, as for the first provider and the first proxy |
| Factory.ConnectionFactory.CreateDefaultProviderConfig | src/providers.js:159-161 | after `init` the default provider configuration is `{typeId: "", name: "Name"}`, entry 0's under both readings of `createConfig` |
| Factory.ConnectionFactory.CreateDefaultProxyConfig | src/providers.js:163-165 | after `init` the default proxy configuration is `{typeId: "", name: "Name"}`, entry 0's under both readings of `createConfig` |
| Roles.ChatRoleOfOccurrences | src/providers.js:291-293 | a role maps to system iff "system" occurs in it ignoring case; to user iff it does not and "user" or "human" occurs; to assistant otherwise, so a missing or empty role is assistant |
| Roles.ChatRoleOfIgnoresCase | src/providers.js:291-293 | roles equal up to ASCII case map alike |
| Roles.ChatRoleOfSystemFirst | src/providers.js:291-293 | a role containing both "system" and "user" is system |
| Roles.AnthropicPrefix | src/providers.js:373-375 | the text prompt's prefix is the assistant marker exactly for assistant roles and empty exactly for system roles |
| Roles.ChatBotKitType | src/providers.js:699-716 | the type is never empty; it is "bot" iff the role is assistant or bot; "user" iff the role is missing, empty or "user"; any other role except "system" is kept as is |
| Payloads.OpenAITextPromptHomomorphic | src/providers.js:254-256 | the prompt of two conversations is the concatenation of their prompts |
| Payloads.OpenAITextPromptSingle | src/providers.js:254-256 | a message with text contributes its text and a blank line; one without contributes nothing |
| Payloads.OpenAIChatMessages | src/providers.js:301-306 | one entry per message with text, in order, carrying that text and its mapped role, always one of system, user and assistant |
| Payloads.OpenAIChatMessagesAppend | src/providers.js:301-306 | the entries of two conversations are the entries of each, concatenated |
| Payloads.AnthropicTextPromptEndsWithAssistantTurn | src/providers.js:380-383 | no messages give the empty prompt; a last kept assistant message ends the prompt; otherwise the turns are followed by the assistant marker |
| Payloads.AnthropicMessageList | src/providers.js:420-425 | only user and assistant entries, each trimmed at the end |
| Payloads.AnthropicMessagesSplit | src/providers.js:420-426 | every kept message goes to exactly one side: system texts to `system`, the rest to `messages`, in order, trimmed at the end; with no system message `system` is empty |
| Payloads.TypedTexts | src/providers.js:713-716 | one typed entry per message, its type from the role map and its text unchanged |
| Payloads.ChatBotKitSplit | src/providers.js:699-725 | backstory messages and chat turns partition the kept messages; the history plus the new message are the chat turns; the new message has text and is no backstory; history entries are never typed backstory |
| Payloads.JoinedTextsSnoc | src/providers.js:583-586 | a new message adds one line to the Scale log always, and to the SteamShip text only if it has text |
| Payloads.OpenAITextFetchCredentials | src/providers.js:243-246 | the text hook always sends the key in `Api-Key` and keeps every other header; a truthy `rawUrl` sends to `config.url`, otherwise to the SDK's URL |
| Payloads.OpenAIChatFetchCredentials | src/providers.js:284-289 | with key "-" neither `Api-Key` nor `Authorization` is sent; with another key `Api-Key` carries it; no other header changes; the target is chosen by `rawUrl` as in the text hook |
| Proxies.RelayBase | src/providers.js:872-876 | an unset relay URL falls back to the public CORS Anywhere relay; a non-empty one is used as is |
| Proxies.ModifyUrlKeepsTarget | src/providers.js:864-876 | the direct proxy is the identity; the relay prefixes its URL; either way the requested URL is intact at the end |
| Responses.HttpErrorSuffixAsWrittenGluesStatus | src/providers.js:226-227 | as written the status code and status text are glued together |
| Responses.HttpErrorSuffixAsWrittenNotFound | src/providers.js:226-227 | as written a 404 "Not Found" reads " (HTTP code: 404Not Found)" |
| Responses.HttpErrorSuffix | src/providers.js:226-227 | the suffix is empty exactly when there is no response or it is ok |
| Responses.HttpErrorSuffixSeparatesStatus | src/providers.js:226-227 | corrected, the code and a non-empty status text without surrounding whitespace are separated by one space, and an empty status text leaves the code alone |
| Responses.ErrorTextSuffixOnlyOnFailure | src/providers.js:224-231 | the error text starts with the message, the extra text, ": " and the exception's message; more follows exactly when a response exists and is not ok |
| Responses.HandleJson | src/providers.js:211-213 | the base handler throws "not implemented"; every adapter's override yields at most one notification: an error means false; a message means true and a complete message; no notification passes the body through |
| Responses.SteamShipFailedStatus | src/providers.js:639-646 | a failed status is an error "<code>: <message>", or "<message>" without a code, and false |
| Responses.ScaleOutcome | src/providers.js:668-673 | an output without a message is one complete message with an empty role, and true; anything else is an error with the message or "Unknown", and false |
| Responses.ChatBotKitOutcome | src/providers.js:848-852 | a body carrying `message` is an error "<code>: <message>" and false; any other object passes through |
| Responses.FishHandlerAsWrittenAlwaysThrows | src/providers.js:690-692 | as written the Fish handler throws for every body |
| Responses.FishHandlerUnwraps | src/providers.js:690-692 | corrected, the Fish handler is the Scale handler applied to the wrapped `response` |
| Responses.ParseFailureLead | src/providers.js:206 | a body up to 4096 characters is quoted whole; a longer one becomes "Failed to parse message" |
| Responses.HandleJsonResponse | src/providers.js:193-209 | an unreadable body is "Failed to decode message" and false; a malformed or throwing body is an error led by the body (or the placeholder) and false; otherwise the handler's answer |
| Responses.CallApi | src/providers.js:623-637 | the request comes first; no reply leaves the call waiting; a failed fetch rejects; a reply is classified by the adapter's handler |
| SteamShip.RoleTags | src/providers.js:604 | reading the tags throws iff one of them is nullish; otherwise the tags of kind "role", in order |
| SteamShip.BlockMessageRole | src/providers.js:601-607 | the message carries the first block's text and its first role tag's name, or "assistant" when there is none |
| SteamShip.BlockTagsUnusable | src/providers.js:604 | missing or null tags throw the TypeError of reading `filter` of them; tags of any other kind that is no array throw "block.tags.filter is not a function" |
| SteamShip.PollStep | src/providers.js:599-619 | an answer of false ends the poll with undefined; a nullish body or status throws the TypeError of reading `status` or `state`; once the state reads, non-nullish data ends the run with true and the first block's complete message, or with the block's read error; without data a changed state is logged once and becomes the previous state, and an unchanged state goes on silently |
| SteamShip.Generate | src/providers.js:583-596 | the generate request comes first and carries the kept texts, one per line, and the workspace; a call that waits, rejects or answers false stops there with that outcome; otherwise polling starts iff the task id is not nullish, after the log "Sending message (done: generate)", and a nullish id stops the run with false after the "Failed to generate" error |
| Responses.CallApiLogsNothing | src/providers.js:623-637 | an API call logs nothing: after its request come at most one error or message |
| SteamShip.SendRequest | src/providers.js:579-621 | the loop's outcome and events are those of the specification: generate, then poll until a reply ends it |
| SteamShip.PollTurn | src/providers.js:599-620 | one turn of the loop either ends the poll with the specification's outcome and events, or consumes one reply, leaving a state from which the rest of the specified poll continues |
| SteamShip.PollRaisesAtMostOneMessage | src/providers.js:599-620 | polling raises at most one message, and only as its last event |
| SteamShip.PollLogsStateChanges | src/providers.js:599-620 | over replies whose bodies, whatever else they carry, report a state other than "failed" and no data, the poll waits for more replies, raises no message, and logs exactly the state changes |
| SteamShip.RepeatedStateLoggedOnce | src/providers.js:611-614 | a state repeated over several polls is logged once |
| SteamShip.SameStateSilent | src/providers.js:611-614 | polls repeating the previous state log nothing |
| SteamShip.FailedReplyHandled | src/providers.js:639-646 | any body whose `status.state` is loosely "failed" is classified as the failure error, carrying its status code and message, and false |
| SteamShip.PassingReplyHandled | src/providers.js:639-646 | any body whose `status.state` is not loosely "failed" passes through the handler with no event |
| SteamShip.PollDataEnds | src/providers.js:599-612 | a poll answered with any body whose state reads and is not "failed" and whose data is set with a readable first block ends the run with true, after the poll request and that one complete message |
| SteamShip.GeneratedThenData | src/providers.js:579-612 | once generate has started polling, a first poll answered with such a data body ends the whole run with true: the generate events, one poll request, then the complete message |
| SteamShip.PollFailedStatusEnds | src/providers.js:599-646 | a poll answered with any body whose `status.state` is loosely "failed" ends the run with undefined, after the poll request and the failure error |
| ChatBotKitAdapter.TaskNameOfAction | src/providers.js:841 | "a/b" is logged as "a - b" |
| ChatBotKitAdapter.TaskNameOfConversationCall | src/providers.js:841 | "conversation/<id>/send" is logged as "conversation - send" whatever the one-line id |
| ChatBotKitAdapter.KitCall | src/providers.js:830-846 | the request comes first; nothing after it is a request or a message; the call waits exactly when no reply is left |
| ChatBotKitAdapter.KitCallLogs | src/providers.js:830-846 | the call answers as the shared API call does, with that call's events first; it logs "Sending message (done: <task>)" exactly when the answer is not false and the call is logged, and logs nothing else |
| ChatBotKitAdapter.LoggedTaskName | src/providers.js:841-844 | a logged call to "a/b" answered with anything but false logs exactly "Sending message (done: a - b)" |
| ChatBotKitAdapter.LoggedIdCall | src/providers.js:841-844 | a logged call to "a/<id>/b", the id on one line, answered with anything but false logs exactly "Sending message (done: a - b)" |
| ChatBotKitAdapter.LoggedConversationCall | src/providers.js:841-844 | a logged conversation call answered with anything but false logs exactly "Sending message (done: conversation - <action>)", whatever the one-line id |
| ChatBotKitAdapter.TryBlock | src/providers.js:723-757 | the message prepared is a notification, prepared exactly when the block does not leave early; leaving early means throwing or returning false |
| ChatBotKitAdapter.AfterSend | src/providers.js:733-756 | after the send, a Pusher failure is an error and false; otherwise the receive call follows; the prepared message is a notification, prepared exactly when the block does not leave early; nothing raised so far is a message |
| ChatBotKitAdapter.ReceiveAnswer | src/providers.js:733-756 | the steps after the send match their specification |
| ChatBotKitAdapter.SendAndReceive | src/providers.js:723-757 | the `try` block's steps match its specification |
| ChatBotKitAdapter.DeleteConversation | src/providers.js:758-765 | the `finally` block's steps match its specification |
| ChatBotKitAdapter.TryAndDelete | src/providers.js:723-765 | the `try` and its `finally` match their specification |
| ChatBotKitAdapter.SendRequest | src/providers.js:698-767 | the method's outcome and events are those of the lifecycle specification |
| ChatBotKitAdapter.FinallyRaisesAfterDelete | src/providers.js:758-765 | the `finally` starts with the delete request; the prepared message is raised after it, last, unless the delete is still waiting |
| ChatBotKitAdapter.ConverseDeletes | src/providers.js:722-766 | once a conversation exists, the run either waits or requests its deletion; at most one message is raised, last and after the delete request; true means it was raised |
| ChatBotKitAdapter.ChatBotKitLifecycle | src/providers.js:698-767 | the create request is first; without a conversation nothing else is requested; with one and no pending reply its delete is requested; the message comes last, after the delete, at most once; true means one message |
| ChatBotKitAdapter.NothingToSendStillDeletes | src/providers.js:723-765 | with no chat message the conversation is still deleted, then the call rejects with the TypeError of reading `text` |
| ProviderBase.ErrorObject | src/providers.js:181-183 | an object whose `error` field is the given text |
| ProviderBase.PlaceholdersOnlyReportErrors | src/providers.js:235-239 | the abstract and the empty provider send nothing and resolve to "Provider not implemented" and "Provider not set" |
| ScaleSpellbook.ScaleRunShape | src/providers.js:650-673 | one request, carrying every message's text one per line; true exactly when one complete message with an empty role was raised last; false after one error; a failed fetch rejects |
| ScaleSpellbook.FishAsWrittenNeverAnswers | src/providers.js:676-693 | as written the Fish adapter sends nothing and resolves to "Provider not implemented"; its handler would throw anyway |
| ScaleSpellbook.ScaleHandlerSeesOnlyStatus | src/providers.js:668-673 | the Scale handler reads only the response's status |
| ScaleSpellbook.FishRelaysScale | src/providers.js:679-692 | corrected, the Fish adapter posts the key, the Scale URL and the log to the relay, bypassing the proxy, and settles exactly as a direct Scale call given the unwrapped answer |
| SdkAdapters.AnthropicStreamEvent | src/providers.js:439-455 | a stream event is a log line, or an appended assistant piece for a content delta |
| SdkAdapters.ChunkEvent | src/providers.js:439-455 | every readable chunk gives an appended assistant piece, or a log line in the Anthropic messages stream |
| SdkAdapters.StreamEventsPerChunk | src/providers.js:269-270 | the events are the chunks' events in order; on a failure the chunk after the last delivered one threw |
| SdkAdapters.StreamFailureSticks | src/providers.js:269-270 | once a chunk throws, later chunks raise nothing |
| SdkAdapters.DeliverStream | src/providers.js:319-320 | the `for await` loop's result is that of its specification |
| SdkAdapters.TrySdk | src/providers.js:265-278 | the `try` block's steps match the specification of how an SDK call settles |
| SdkAdapters.SdkSendRequest | src/providers.js:241-280 | the adapter's outcome and events are those of its specification |
| SdkAdapters.SdkStreamShape | src/providers.js:265-278 | a stream ending normally raises each chunk's event in order then the end marker, with no error, and resolves to true; otherwise exactly one "Query failed" error ends the trace, and false |
| SdkAdapters.SdkAnswerShape | src/providers.js:272-277 | a complete answer is one complete assistant message and true; a rejection or an unreadable answer is one "Query failed" error and false |
| SdkAdapters.AzureNeverRequests | src/providers.js:337-338 | the Azure adapter rejects before any request, since its client class is never imported |

## Left out

- Network, timers and browser I/O. `fetch`, the abort signal, `delay` between polls, `console.log` and the response-header dump are replaced by the reply script. Request headers are not recorded, except in the OpenAI fetch hooks.
- The SDK clients. The OpenAI, Anthropic and Azure clients are reduced to what their calls settle to. The request target recorded is the SDK's base URL, not the endpoint path the SDK appends. Aborting a stream is not modelled; the SDK surfaces it as a thrown error, which the model reports as "Query failed".
- Anthropic stream failures. The `response` an Anthropic stream attaches is not carried. The SDK hands out a stream only for an ok response, whose HTTP suffix is empty, as with no response.
- Pusher WebSocket handling (`connectToPusher`, its connection timeout and the `batchTokens*` events). It is event-driven concurrency. It is reduced to whether connecting threw, and the streamed pieces it would raise are not modelled. The channel id from `generateUuid` is a parameter.
- NatDev's `sendRequest`. It is an unfinished stub that only fetches and logs. Its handler, which passes the body through, is modelled.
- Option parsing. `parseIntOrNull` and `parseFloatOrNull` are not part of this model. The parsed generation options are opaque values, and numbers are carried by their canonical text.
- `options` itself being null in `createConnection`, which throws a TypeError, is not modelled.
- `Factory.ConnectionFactory.Init`: the hole in NatDev's models array (a doubled comma) is dropped, so the array has one entry fewer than its JavaScript length.
- Role-map keys. A role named after an `Object.prototype` member (`toString`, `constructor`, …) would read an inherited function from the ChatBotKit role map. Roles are treated as plain keys.
- Text encoding. Lengths are counted in characters, not UTF-16 code units; this matters only for the 4096-character threshold. Case folding covers ASCII, which is all a non-Unicode case-insensitive regular expression folds onto these patterns.
- `JsValues.LooseEq` is exact for strings, null, undefined and booleans. Numeric strings are compared in canonical form only, and objects are never loosely equal to one another.
- `Responses.ResolveUrl`: `new URL(path, base)` is taken as the base up to its last "/" followed by the relative path. That covers the plain relative paths the adapters use against a base URL with a path ending in "/", such as the built-in ones. It departs from URL resolution in three ways. Absolute paths and dot segments are not resolved. A host-only base gains no "/" before the path: "https://host" with "task/status" gives "https://host/task/status" in the browser but "https://task/status" here. A base the URL parser rejects, such as "api.example.com/", makes `callApi` throw a TypeError before any fetch, whereas the model still issues the request to the joined text.
- `Responses.ErrorText`: every error text in the adapter traces carries the corrected HTTP suffix, with the code and the status text separated by a space, not the glued form the code produces. `Responses.HttpErrorSuffixAsWritten` models the glued form; the two agree when there is no response, an ok one, or an empty status text.
- Log data payloads (`data: [json]`) are dropped; only log texts are kept.
- `AbstractClassError`, `NotImplementedError` and the abstract `Proxy` guard are represented by closed datatypes: no abstract instance can be built.

## Findings

| source | as written | input that shows it | evidently intended | confidence | as-written member | corrected member |
|---|---|---|---|---|---|---|
| src/providers.js:226-227 | `${status}${` ${statusText}`.trim()}` trims away the space it adds, so code and text run together | a response with status 404 and status text "Not Found" gives " (HTTP code: 404Not Found)" | " (HTTP code: 404 Not Found)" | high, not executed | Responses.HttpErrorSuffixAsWrittenNotFound | Responses.HttpErrorSuffixSeparatesStatus |
| src/providers.js:131-133 | `createConfig` reads the never-set `defaultConfig`, while the constructor (lines 23-25) stores `configGetter` | the OpenAI Chat descriptor yields only `{typeId: "openai-chat", name: "Name"}`, without its key, url, model, stream and rawUrl fields | the template fields merged in after `typeId` and `name` | high, not executed | Factory.CreateConfigAsWrittenDropsTemplate | Factory.CreateConfigReadingsAgree |
| src/providers.js:676-693 | `ScaleSpellbookFishProvider` extends `AIProvider`, so it inherits the default `sendRequest` and its `handleJson` reaches the abstract method | any conversation resolves to `{error: "Provider not implemented"}` without a request | extending the Scale Spellbook adapter: relay the conversation, unwrap `response`, classify as Scale | medium, not executed | ScaleSpellbook.FishAsWrittenNeverAnswers | ScaleSpellbook.FishRelaysScale |

For each finding the as-written member models the code and the corrected one is used by the rest of the model:

- The HTTP suffix keeps its glued form in `Responses.HttpErrorSuffixAsWritten`; error texts use the spaced form.
- `createConfig` is modelled both ways; the default configurations are the same under both.
- The Fish adapter is modelled both as the placeholder it is and as the Scale relay it evidently should be.

Elsewhere the model follows the code: an aborted SDK stream, for instance, is reported as "Query failed", as the `catch` does.
