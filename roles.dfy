/**
 * The role mappers: how each adapter turns the free-form role of a
 * conversation message into the role vocabulary of its backend.
 */
module Roles {
  import opened JsValues
  import opened Text

  /** The roles of a chat-style backend. */
  datatype ChatRole = SystemRole | UserRole | AssistantRole {
    /** The role's name on the wire. */
    function WireName(): string {
      match this
      case SystemRole => "system"
      case UserRole => "user"
      case AssistantRole => "assistant"
    }
  }

  /** `r || ''`: a missing role reads as the empty string. */
  function RoleText(r: Option<string>): string {
    if r.Some? then r.value else ""
  }

  /** `getMessageRole` of the OpenAI chat, Azure OpenAI chat and Anthropic Messages
    * adapters: "system" anywhere in the role, in any case, wins; then "user" or
    * "human"; anything else, a missing role included, is the assistant. */
  function ChatRoleOf(r: Option<string>): ChatRole {
    var s := RoleText(r);
    if ContainsIgnoreCase(s, "system") then SystemRole
    else if ContainsIgnoreCase(s, "user") || ContainsIgnoreCase(s, "human") then UserRole
    else AssistantRole
  }

  /** The role mapper stated by occurrences of the three words, in both directions. */
  lemma ChatRoleOfOccurrences(r: Option<string>)
    ensures ChatRoleOf(r) == SystemRole <==> exists i :: OccursAt(RoleText(r), "system", i)
    ensures ChatRoleOf(r) == UserRole <==>
              (!exists i :: OccursAt(RoleText(r), "system", i)) &&
              ((exists i :: OccursAt(RoleText(r), "user", i)) || (exists i :: OccursAt(RoleText(r), "human", i)))
    ensures ChatRoleOf(r) == AssistantRole <==>
              (!exists i :: OccursAt(RoleText(r), "system", i)) &&
              (!exists i :: OccursAt(RoleText(r), "user", i)) &&
              (!exists i :: OccursAt(RoleText(r), "human", i))
  {
    ContainsIgnoreCaseIffOccurs(RoleText(r), "system");
    ContainsIgnoreCaseIffOccurs(RoleText(r), "user");
    ContainsIgnoreCaseIffOccurs(RoleText(r), "human");
  }

  /** Roles that differ only in the case of their letters map alike. */
  lemma ChatRoleOfIgnoresCase(a: Option<string>, b: Option<string>)
    requires Lower(RoleText(a)) == Lower(RoleText(b))
    ensures ChatRoleOf(a) == ChatRoleOf(b)
  {
    ContainsIgnoreCaseFolds(RoleText(a), RoleText(b), "system");
    ContainsIgnoreCaseFolds(RoleText(a), RoleText(b), "user");
    ContainsIgnoreCaseFolds(RoleText(a), RoleText(b), "human");
  }

  /** A role that contains "system" is the system role whatever else it contains. */
  lemma ChatRoleOfSystemFirst(r: Option<string>, i: int)
    requires OccursAt(RoleText(r), "system", i)
    ensures ChatRoleOf(r) == SystemRole
  {
    ContainsIgnoreCaseIffOccurs(RoleText(r), "system");
  }

  /** `HUMAN_PROMPT` and `AI_PROMPT` of the Anthropic SDK. */
  const HumanPrompt: string := "\n\nHuman:"
  const AssistantPrompt: string := "\n\nAssistant:"

  /** `getMessageRole` of the Anthropic text adapter: the turn marker written
    * before a message's text; system text goes in unmarked. */
  function AnthropicPrefix(r: Option<string>): (p: string)
    ensures p == AssistantPrompt <==> ChatRoleOf(r) == AssistantRole
    ensures p == "" <==> ChatRoleOf(r) == SystemRole
  {
    match ChatRoleOf(r)
    case SystemRole => ""
    case UserRole => HumanPrompt
    case AssistantRole => AssistantPrompt
  }

  /** ChatBotKit's `isSystemRole`: an exact, case-sensitive comparison. */
  predicate IsBackstoryRole(r: Option<string>) {
    r == Some("backstory") || r == Some("system")
  }

  /** ChatBotKit's message type: `messageRoleMap[m.role] || m.role || 'user'` with
    * `messageRoleMap = { assistant: 'bot', system: 'backstory' }`. */
  function ChatBotKitType(r: Option<string>): (t: string)
    ensures t != ""
    ensures t == "bot" <==> r == Some("assistant") || r == Some("bot")
    ensures t == "user" <==> r == None || r == Some("") || r == Some("user")
    ensures r.Some? && r.value != "" && r.value != "assistant" && r.value != "system" ==> t == r.value
  {
    if r == Some("assistant") then "bot"
    else if r == Some("system") then "backstory"
    else if r.Some? && r.value != "" then r.value
    else "user"
  }
}
