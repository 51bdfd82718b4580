/**
 * The connection registry: the tables of provider and proxy descriptors that
 * `init` installs, lookup by id with a fallback to the first entry, and
 * `createConnection`, which merges the generation options with a provider's
 * configuration.
 */
module Factory {
  import opened JsValues
  import opened Proxies

  /** The adapter class a provider descriptor instantiates. */
  datatype ProviderKind =
    | EmptyProvider | OpenAIText | OpenAIChat | AzureOpenAIChat | AnthropicText | AnthropicMessages
    | NatDevChat | SteamShipPlugin | ScaleSpellbook | ScaleSpellbookFish | ChatBotKit

  /** The proxy class a proxy descriptor instantiates. */
  datatype ProxyKind = DirectKind | CorsAnywhereKind

  /** One registered provider: its id, its display name, its adapter, the
    * configuration template, the role names and the model names it suggests. */
  datatype ProviderDescriptor = ProviderDescriptor(
    id: string, displayName: string, runner: ProviderKind,
    configGetter: Config, messageRoles: seq<string>, models: seq<string>)

  /** One registered proxy; proxies have no roles and no models. */
  datatype ProxyDescriptor = ProxyDescriptor(id: string, displayName: string, runner: ProxyKind, configGetter: Config)

  /** The configuration template shared by most providers. */
  function KeyUrlModelStream(): Config {
    map["key" := Str(""), "url" := Str(""), "model" := Str(""), "stream" := Bool(false)]
  }

  /** The providers `init` registers, in order; the first is the empty provider. */
  function ProviderTable(): seq<ProviderDescriptor> {
    [ ProviderDescriptor("", "", EmptyProvider, map[], [], []),
      ProviderDescriptor("openai-text", "OpenAI Text", OpenAIText, KeyUrlModelStream(), [],
        ["gpt-3.5-turbo-instruct"]),
      ProviderDescriptor("openai-chat", "OpenAI Chat", OpenAIChat, KeyUrlModelStream()["rawUrl" := Bool(false)],
        ["user", "assistant", "system"],
        ["gpt-4-1106-preview", "gpt-4-vision-preview",
         "gpt-4", "gpt-4-0314", "gpt-4-0613", "gpt-4-32k", "gpt-4-32k-0314", "gpt-4-32k-0613",
         "gpt-3.5-turbo-1106", "gpt-3.5-turbo-16k",
         "gpt-3.5-turbo",
         "gpt-3.5-turbo-0301", "gpt-3.5-turbo-0613", "gpt-3.5-turbo-1106", "gpt-3.5-turbo-16k-0613",
         "gemini-pro", "mistral-medium"]),
      ProviderDescriptor("azure-openai-chat", "Azure OpenAI Chat", AzureOpenAIChat,
        map["key" := Str(""), "resource" := Str(""), "deployment" := Str(""), "apiVersion" := Str(""),
            "stream" := Bool(false)],
        ["user", "assistant", "system"], []),
      ProviderDescriptor("anthropic-text", "Anthropic Text", AnthropicText, KeyUrlModelStream(),
        ["human", "assistant", "system"],
        ["claude-1.0", "claude-1.2", "claude-1.3",
         "claude-1.3-100k",
         "claude-instant-1.0", "claude-instant-1.1", "claude-instant-1.2",
         "claude-instant-1-100k", "claude-instant-1.1-100k",
         "claude-2.0", "claude-2.1",
         "anthropic.claude-v1", "anthropic.claude-v2", "anthropic.claude-v2:1"]),
      ProviderDescriptor("anthropic-messages", "Anthropic Messages", AnthropicMessages, KeyUrlModelStream(),
        ["user", "assistant", "system"],
        ["claude-3-opus-20240229", "claude-3-sonnet-20240229", "claude-3-haiku-20240307",
         "anthropic.claude-v2", "anthropic.claude-v2:1",
         "anthropic.claude-3-sonnet-20240229-v1:0", "anthropic.claude-3-haiku-20240307-v1:0",
         "anthropic.claude-instant-v1"]),
      ProviderDescriptor("natdev", "Nat.dev", NatDevChat, KeyUrlModelStream(), [],
        ["textgeneration:llama-65b", "replicate:alpaca-7b", "replicate:llama-13b", "huggingface:bigscience/bloomz",
         "openai:gpt-3.5-turbo", "openai:gpt-4", "openai:text-davinci-002", "openai:text-davinci-003",
         "anthropic:claude-instant-v1.0", "anthropic:claude-v1.2"]),
      ProviderDescriptor("steamship-plugin", "SteamShip Plugin", SteamShipPlugin,
        map["key" := Str(""), "workspace" := Str(""), "model" := Str("")], [],
        ["gpt-3", "gpt-4"]),
      ProviderDescriptor("scale-spellbook", "Scale Spellbook", ScaleSpellbook,
        map["key" := Str(""), "url" := Str("")], [], []),
      ProviderDescriptor("scale-spellbook-fish", "Scale Spellbook (Fish proxy)", ScaleSpellbookFish,
        map["key" := Str(""), "url" := Str("")], [], []),
      ProviderDescriptor("chatbotkit", "ChatBotKit", ChatBotKit, KeyUrlModelStream(),
        ["user", "bot", "context", "instruction", "backstory"],
        ["gpt-4", "gbt-3.5-turbo", "text-davinci-003", "text-davinci-002", "text-algo-003", "text-algo-002",
         "text-algo-001"])
    ]
  }

  /** The proxies `init` registers; the first is the direct connection. */
  function ProxyTable(): seq<ProxyDescriptor> {
    [ ProxyDescriptor("", "Direct", DirectKind, map[]),
      ProxyDescriptor("cors-anywhere", "CORS Anywhere", CorsAnywhereKind, map["url" := Str("")]) ]
  }

  // ---------------------------------------------------------------------------
  // Lookup

  /** The position of the first id loosely equal to `id`, if any. */
  function FirstMatch(ids: seq<string>, id: Value): (r: Option<nat>)
    ensures r.Some? ==> r.value < |ids| && LooseEq(Str(ids[r.value]), id)
    ensures r.Some? ==> forall j :: 0 <= j < r.value ==> !LooseEq(Str(ids[j]), id)
    ensures r.None? <==> forall j :: 0 <= j < |ids| ==> !LooseEq(Str(ids[j]), id)
  {
    if ids == [] then None
    else if LooseEq(Str(ids[0]), id) then Some(0)
    else
      var rest := FirstMatch(ids[1..], id);
      assert forall j :: 1 <= j < |ids| ==> ids[1..][j - 1] == ids[j];
      if rest.None? then None else Some(rest.value + 1)
  }

  /** `list.filter(p => p.id == id)[0] ?? list[0]`, as a position. */
  function Resolve(ids: seq<string>, id: Value): (i: nat)
    requires |ids| > 0
    ensures i < |ids|
  {
    match FirstMatch(ids, id)
    case Some(k) => k
    case None => 0
  }

  /** Ids are found where they are registered when no two entries share one. */
  lemma ResolveRegistered(ids: seq<string>, i: nat)
    requires i < |ids|
    requires forall j, k :: 0 <= j < k < |ids| ==> ids[j] != ids[k]
    ensures Resolve(ids, Str(ids[i])) == i
  {
    var r := FirstMatch(ids, Str(ids[i]));
    assert LooseEq(Str(ids[i]), Str(ids[i]));
    assert r.Some?;
    LooseEqStrings(ids[r.value], ids[i]);
  }

  /** A missing id (`undefined` or `null`) matches no string id. */
  lemma ResolveNullish(ids: seq<string>, id: Value)
    requires |ids| > 0 && IsNullish(id)
    ensures Resolve(ids, id) == 0
  {
    assert forall j :: 0 <= j < |ids| ==> !LooseEq(Str(ids[j]), id);
  }

  function ProviderIds(ps: seq<ProviderDescriptor>): (r: seq<string>)
    ensures |r| == |ps| && forall i :: 0 <= i < |ps| ==> r[i] == ps[i].id
  {
    seq(|ps|, i requires 0 <= i < |ps| => ps[i].id)
  }

  function ProxyIds(ps: seq<ProxyDescriptor>): (r: seq<string>)
    ensures |r| == |ps| && forall i :: 0 <= i < |ps| ==> r[i] == ps[i].id
  {
    seq(|ps|, i requires 0 <= i < |ps| => ps[i].id)
  }

  /** The registered ids are distinct, so every registered id finds its own entry. */
  lemma RegisteredIdsResolve(i: nat, j: nat)
    requires i < |ProviderTable()| && j < |ProxyTable()|
    ensures Resolve(ProviderIds(ProviderTable()), Str(ProviderTable()[i].id)) == i
    ensures Resolve(ProxyIds(ProxyTable()), Str(ProxyTable()[j].id)) == j
  {
    ProviderIdsDistinct();
    ResolveRegistered(ProviderIds(ProviderTable()), i);
    ProxyIdsDistinct();
    ResolveRegistered(ProxyIds(ProxyTable()), j);
  }

  lemma ProviderIdsDistinct()
    ensures var ids := ProviderIds(ProviderTable());
            forall j, k :: 0 <= j < k < |ids| ==> ids[j] != ids[k]
  {
    var ids := ProviderIds(ProviderTable());
    assert ids == ["", "openai-text", "openai-chat", "azure-openai-chat", "anthropic-text", "anthropic-messages",
                   "natdev", "steamship-plugin", "scale-spellbook", "scale-spellbook-fish", "chatbotkit"];
  }

  lemma ProxyIdsDistinct()
    ensures var ids := ProxyIds(ProxyTable());
            forall j, k :: 0 <= j < k < |ids| ==> ids[j] != ids[k]
  {
    assert ProxyIds(ProxyTable()) == ["", "cors-anywhere"];
  }

  // ---------------------------------------------------------------------------
  // Configurations

  /** `createConfig` as written: it merges `defaultConfig`, a field the
    * constructor never sets (it stores `configGetter`), so the template is lost. */
  function CreateConfigAsWritten(id: string): Config {
    map["typeId" := Str(id), "name" := Str("Name")]
  }

  /** As written, no template setting reaches the new configuration: the OpenAI
    * chat provider's fresh configuration has no `key`, `url`, `model`, `stream`
    * or `rawUrl`. */
  lemma CreateConfigAsWrittenDropsTemplate(id: string, template: Config)
    ensures forall k :: k in template && k != "typeId" && k != "name" ==> k !in CreateConfigAsWritten(id)
    ensures var d := ProviderTable()[2];
            "key" in d.configGetter && "key" !in CreateConfigAsWritten(d.id)
  {
  }

  /** `createConfig` as intended, for provider and proxy descriptors alike: the
    * type id and a default name, overridden by and extended with the template. */
  function CreateConfig(id: string, template: Config): (c: Config)
    ensures c.Keys == {"typeId", "name"} + template.Keys
    ensures forall k :: k in template ==> c[k] == template[k]
    ensures "typeId" !in template ==> c["typeId"] == Str(id)
    ensures "name" !in template ==> c["name"] == Str("Name")
  {
    map["typeId" := Str(id), "name" := Str("Name")] + template
  }

  /** The two readings agree exactly on templates that add nothing beyond the type
    * id and the name, such as those of the first provider and the first proxy. */
  lemma CreateConfigReadingsAgree(id: string, template: Config)
    ensures CreateConfig(id, template) == CreateConfigAsWritten(id) <==>
            template.Keys <= {"typeId", "name"} &&
            ("typeId" in template ==> template["typeId"] == Str(id)) &&
            ("name" in template ==> template["name"] == Str("Name"))
    ensures CreateConfig(ProviderTable()[0].id, ProviderTable()[0].configGetter) ==
            CreateConfigAsWritten(ProviderTable()[0].id)
    ensures CreateConfig(ProxyTable()[0].id, ProxyTable()[0].configGetter) ==
            CreateConfigAsWritten(ProxyTable()[0].id)
  {
    var c := CreateConfig(id, template);
    var w := CreateConfigAsWritten(id);
    if c == w {
      assert c.Keys == w.Keys;
      if "typeId" in template { assert c["typeId"] == w["typeId"]; }
      if "name" in template { assert c["name"] == w["name"]; }
    }
    FirstEntries();
  }

  /** The first provider and the first proxy have the empty id and no template. */
  lemma FirstEntries()
    ensures ProviderTable()[0].id == "" && ProviderTable()[0].configGetter == map[]
    ensures ProxyTable()[0].id == "" && ProxyTable()[0].configGetter == map[]
  {
  }

  // ---------------------------------------------------------------------------
  // Connections

  /** The generation options after parsing; the parse helpers are not modelled
    * and their results are taken as given. */
  datatype GenerationOptions = GenerationOptions(
    maxTokens: Value, temperature: Value, frequencyPenalty: Value, presencePenalty: Value)

  /** The `modelOptions` object built from the options. */
  function ModelOptions(o: GenerationOptions): Config {
    map["maxTokens" := o.maxTokens, "temperature" := o.temperature,
        "frequencyPenalty" := o.frequencyPenalty, "presencePenalty" := o.presencePenalty]
  }

  /** A connection: the adapter, its merged configuration and its proxy. */
  datatype Connection = Connection(kind: ProviderKind, config: Config, proxy: ProxyInstance)

  /** `Object.assign(target, source)`: copies every own property of `source` onto
    * `target`, one key at a time. */
  method Assign(target: Config, source: Config) returns (r: Config)
    ensures r == target + source
  {
    r := target;
    var pending := source.Keys;
    while pending != {}
      invariant pending <= source.Keys
      invariant r.Keys == target.Keys + (source.Keys - pending)
      invariant forall k :: k in source && k !in pending ==> r[k] == source[k]
      invariant forall k :: k in target && (k !in source || k in pending) ==> r[k] == target[k]
      decreases pending
    {
      var k :| k in pending;
      r := r[k := source[k]];
      pending := pending - {k};
    }
  }

  /** After the merge the provider configuration wins every collision; option
    * keys it lacks keep their parsed values; nothing else appears. */
  lemma MergePrefersProviderConfig(o: GenerationOptions, providerConfig: Config)
    ensures (ModelOptions(o) + providerConfig).Keys ==
            providerConfig.Keys + {"maxTokens", "temperature", "frequencyPenalty", "presencePenalty"}
    ensures forall k :: k in providerConfig ==> (ModelOptions(o) + providerConfig)[k] == providerConfig[k]
    ensures "maxTokens" !in providerConfig ==> (ModelOptions(o) + providerConfig)["maxTokens"] == o.maxTokens
    ensures "temperature" !in providerConfig ==> (ModelOptions(o) + providerConfig)["temperature"] == o.temperature
    ensures "frequencyPenalty" !in providerConfig ==>
              (ModelOptions(o) + providerConfig)["frequencyPenalty"] == o.frequencyPenalty
    ensures "presencePenalty" !in providerConfig ==>
              (ModelOptions(o) + providerConfig)["presencePenalty"] == o.presencePenalty
    ensures forall k :: k in ModelOptions(o) && k !in providerConfig ==>
              (ModelOptions(o) + providerConfig)[k] == ModelOptions(o)[k]
  {
  }

  /** `new proxy.runner(proxyConfig)`. */
  function MakeProxy(kind: ProxyKind, proxyConfig: Option<Config>): ProxyInstance
    requires kind == CorsAnywhereKind ==> proxyConfig.Some?
  {
    match kind
    case DirectKind => Direct
    case CorsAnywhereKind => CorsAnywhere(proxyConfig.value)
  }

  /** The registry: `AIConnectionFactory`'s static tables. */
  class ConnectionFactory {
    var providers: seq<ProviderDescriptor>
    var proxies: seq<ProxyDescriptor>

    /** Before `init` both tables are empty. */
    constructor ()
      ensures providers == [] && proxies == []
    {
      providers := [];
      proxies := [];
    }

    /** `init`: installs the two tables. */
    method Init()
      modifies this
      ensures providers == ProviderTable() && proxies == ProxyTable()
    {
      providers := ProviderTable();
      proxies := ProxyTable();
    }

    ghost predicate Initialized()
      reads this
    {
      providers == ProviderTable() && proxies == ProxyTable()
    }

    /** `getProvider(id)`: the first provider whose id equals `id`, else the first. */
    function GetProvider(id: Value): (d: ProviderDescriptor)
      reads this
      requires |providers| > 0
      ensures d in providers
      ensures (exists i :: 0 <= i < |providers| && LooseEq(Str(providers[i].id), id)) ==>
                LooseEq(Str(d.id), id) &&
                exists i :: 0 <= i < |providers| && d == providers[i] &&
                            forall j :: 0 <= j < i ==> !LooseEq(Str(providers[j].id), id)
      ensures (forall i :: 0 <= i < |providers| ==> !LooseEq(Str(providers[i].id), id)) ==> d == providers[0]
    {
      var ids := ProviderIds(providers);
      var i := Resolve(ids, id);
      assert FirstMatch(ids, id).Some? ==> i == FirstMatch(ids, id).value;
      providers[i]
    }

    /** `getProxy(id)`: the first proxy whose id equals `id`, else the first. */
    function GetProxy(id: Value): (d: ProxyDescriptor)
      reads this
      requires |proxies| > 0
      ensures d in proxies
      ensures (exists i :: 0 <= i < |proxies| && LooseEq(Str(proxies[i].id), id)) ==>
                LooseEq(Str(d.id), id) &&
                exists i :: 0 <= i < |proxies| && d == proxies[i] &&
                            forall j :: 0 <= j < i ==> !LooseEq(Str(proxies[j].id), id)
      ensures (forall i :: 0 <= i < |proxies| ==> !LooseEq(Str(proxies[i].id), id)) ==> d == proxies[0]
    {
      var ids := ProxyIds(proxies);
      var i := Resolve(ids, id);
      assert FirstMatch(ids, id).Some? ==> i == FirstMatch(ids, id).value;
      proxies[i]
    }

    /** `createConnection`: nothing for a missing configuration or the empty
      * provider; otherwise the provider's adapter over the parsed options merged
      * with the configuration, behind the proxy the proxy configuration names. */
    method CreateConnection(providerConfig: Option<Config>, proxyConfig: Option<Config>, options: GenerationOptions)
      returns (c: Option<Connection>)
      requires Initialized()
      ensures c.None? <==>
                providerConfig.None? || GetProvider(Field(providerConfig.value, "typeId")).runner == EmptyProvider
      ensures c.Some? ==>
                c.value.kind == GetProvider(Field(providerConfig.value, "typeId")).runner &&
                c.value.config == ModelOptions(options) + providerConfig.value
      ensures c.Some? && proxyConfig.None? ==> c.value.proxy == Direct
      ensures c.Some? && proxyConfig.Some? ==>
                c.value.proxy == MakeProxy(GetProxy(Field(proxyConfig.value, "typeId")).runner, proxyConfig)
    {
      if providerConfig.None? {
        return None;
      }
      var provider := GetProvider(Field(providerConfig.value, "typeId"));
      if provider.runner == EmptyProvider {
        return None;
      }
      var proxyId := if proxyConfig.Some? then Field(proxyConfig.value, "typeId") else Undefined;
      var proxy := GetProxy(proxyId);
      if proxyConfig.None? {
        ResolveNullish(ProxyIds(proxies), Undefined);
        assert proxy == proxies[0];
      }
      var merged := Assign(ModelOptions(options), providerConfig.value);
      c := Some(Connection(provider.runner, merged, MakeProxy(proxy.runner, proxyConfig)));
    }

    /** `createDefaultProviderConfig`: the first provider's configuration, the
      * same under both readings of `createConfig`. */
    method CreateDefaultProviderConfig() returns (c: Config)
      requires Initialized()
      ensures c == map["typeId" := Str(""), "name" := Str("Name")]
      ensures c == CreateConfig(providers[0].id, providers[0].configGetter) == CreateConfigAsWritten(providers[0].id)
    {
      FirstEntries();
      c := CreateConfig(providers[0].id, providers[0].configGetter);
      CreateConfigReadingsAgree(providers[0].id, providers[0].configGetter);
    }

    /** `createDefaultProxyConfig`: the first proxy's configuration, the same
      * under both readings of `createConfig`. */
    method CreateDefaultProxyConfig() returns (c: Config)
      requires Initialized()
      ensures c == map["typeId" := Str(""), "name" := Str("Name")]
      ensures c == CreateConfig(proxies[0].id, proxies[0].configGetter) == CreateConfigAsWritten(proxies[0].id)
    {
      FirstEntries();
      c := CreateConfig(proxies[0].id, proxies[0].configGetter);
      CreateConfigReadingsAgree(proxies[0].id, proxies[0].configGetter);
    }
  }

  /** After `init`, an unknown or missing provider id yields no connection, and
    * every registered non-empty provider yields its own adapter. */
  lemma CreateConnectionByTable(f: ConnectionFactory, typeId: Value, i: nat)
    requires f.Initialized()
    ensures (forall j :: 0 <= j < |ProviderTable()| ==> !LooseEq(Str(ProviderTable()[j].id), typeId)) ==>
              f.GetProvider(typeId).runner == EmptyProvider
    ensures 0 < i < |ProviderTable()| ==>
              f.GetProvider(Str(ProviderTable()[i].id)).runner == ProviderTable()[i].runner != EmptyProvider
  {
    ProviderRunners();
    if 0 < i < |ProviderTable()| {
      RegisteredIdsResolve(i, 0);
      assert f.GetProvider(Str(ProviderTable()[i].id)) == f.providers[i];
    }
  }

  /** Only the first registered provider is the empty one. */
  lemma ProviderRunners()
    ensures |ProviderTable()| == 11 && ProviderTable()[0].runner == EmptyProvider
    ensures forall i :: 0 < i < |ProviderTable()| ==> ProviderTable()[i].runner != EmptyProvider
  {
  }
}
