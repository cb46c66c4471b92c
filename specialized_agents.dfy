/** handleWithSpecializedAgent and its five per-identity wrappers
    (lib/agents/customer-success/specialized-agents.ts). A customer context is
    given as the JSON text of a truthy context value (None when the context is
    absent or falsy); `generate` is generateText and `now` the ISO timestamp. */
module SpecializedAgents {
  import opened Base
  import opened AgentTypes
  import opened ModelCalls

  datatype SpecialistMetadata = SpecialistMetadata(agentType: AgentType, agentName: string, timestamp: string)

  /** What a specialist returns: the model text and who produced it. */
  datatype SpecialistReply = SpecialistReply(content: string, metadata: SpecialistMetadata)

  /** `configs.find(c => c.id === id)`. */
  function FindAgentConfig(configs: seq<AgentConfig>, id: AgentType): (r: Option<AgentConfig>)
    ensures r.None? <==> id !in Ids(configs)
    ensures r.Some? ==> r.value in configs && r.value.id == id
    ensures r.Some? ==> exists k :: 0 <= k < |configs| && configs[k] == r.value && id !in Ids(configs[..k])
  {
    if configs == [] then None
    else if configs[0].id == id then
      assert configs[..0] == [];
      Some(configs[0])
    else
      var rest := FindAgentConfig(configs[1..], id);
      if rest.Some? then
        var k :| 0 <= k < |configs[1..]| && configs[1..][k] == rest.value && id !in Ids(configs[1..][..k]);
        assert configs[..k + 1] == [configs[0]] + configs[1..][..k];
        assert Ids(configs[..k + 1]) == [configs[0].id] + Ids(configs[1..][..k]);
        rest
      else
        rest
  }

  /** In a list whose ids are distinct, find returns the one entry with that id. */
  lemma FindAtIndex(configs: seq<AgentConfig>, k: nat)
    requires k < |configs| && DistinctIds(configs)
    ensures FindAgentConfig(configs, configs[k].id) == Some(configs[k])
  {
  }

  /** Lookup in the static catalog never fails and finds the entry of that identity. */
  lemma CatalogLookup(t: AgentType)
    ensures FindAgentConfig(AgentConfigs, t) == Some(ConfigOf(t))
  {
  }

  /** The model a configuration runs on: its own when non-empty, else the default. */
  function ModelFor(config: AgentConfig): (m: string)
    ensures m != ""
    ensures config.model != "" ==> m == config.model
    ensures config.model == "" ==> m == DefaultModel
  {
    if config.model != "" then config.model else DefaultModel
  }

  const CustomerContextHeader: string := "\nCustomer Context:\n"

  /** The user prompt: the query, followed by a Customer Context block when a
      context is given. */
  function SpecialistPrompt(query: string, context: Option<string>): (p: string)
    ensures |p| >= |query| && p[..|query|] == query
    ensures p == query <==> context.None?
    ensures context.Some? ==> p[|query|..] == CustomerContextHeader + context.value
  {
    match context
    case None => query
    case Some(c) => query + CustomerContextHeader + c
  }

  /** The generateText arguments for one configuration. */
  function SpecialistRequest(config: AgentConfig, query: string, context: Option<string>, tools: Option<Tools>): TextRequest
  {
    TextRequest(ModelFor(config), config.systemPrompt, SpecialistPrompt(query, context), tools)
  }

  /** handleWithSpecializedAgent: the catalog entry of `agentType` answers
      through one model call; the reply carries the model's text verbatim, the
      requested identity and the entry's display name. A failed call fails the
      whole handler. */
  function HandleWithSpecializedAgent(
    query: string, agentType: AgentType, context: Option<string>, tools: Option<Tools>,
    generate: TextRequest -> Result<string, string>, now: string): (r: Result<SpecialistReply, Failure>)
    ensures var req := SpecialistRequest(ConfigOf(agentType), query, context, tools);
      && req.system == ConfigOf(agentType).systemPrompt
      && req.tools == tools
      && (r.Ok? <==> generate(req).Ok?)
      && (r.Ok? ==> r.value == SpecialistReply(generate(req).value,
                                 SpecialistMetadata(agentType, ConfigOf(agentType).name, now)))
      && (r.Err? ==> r.error == ModelCallFailed(generate(req).error))
  {
    CatalogLookup(agentType);
    match FindAgentConfig(AgentConfigs, agentType)
    case None => Err(AgentNotFound(AgentTypeName(agentType)))
    case Some(config) =>
      match generate(SpecialistRequest(config, query, context, tools))
      case Err(cause) => Err(ModelCallFailed(cause))
      case Ok(text) => Ok(SpecialistReply(text, SpecialistMetadata(agentType, config.name, now)))
  }

  function RetentionAgent(query: string, context: Option<string>, tools: Option<Tools>,
    generate: TextRequest -> Result<string, string>, now: string): (r: Result<SpecialistReply, Failure>)
    ensures r.Ok? ==> r.value.metadata.agentType == Retention && r.value.metadata.agentName == "Retention Agent"
  {
    HandleWithSpecializedAgent(query, Retention, context, tools, generate, now)
  }

  function ExpansionAgent(query: string, context: Option<string>, tools: Option<Tools>,
    generate: TextRequest -> Result<string, string>, now: string): (r: Result<SpecialistReply, Failure>)
    ensures r.Ok? ==> r.value.metadata.agentType == Expansion && r.value.metadata.agentName == "Expansion Agent"
  {
    HandleWithSpecializedAgent(query, Expansion, context, tools, generate, now)
  }

  function OutreachAgent(query: string, context: Option<string>, tools: Option<Tools>,
    generate: TextRequest -> Result<string, string>, now: string): (r: Result<SpecialistReply, Failure>)
    ensures r.Ok? ==> r.value.metadata.agentType == Outreach && r.value.metadata.agentName == "Outreach Agent"
  {
    HandleWithSpecializedAgent(query, Outreach, context, tools, generate, now)
  }

  function StrategyAgent(query: string, context: Option<string>, tools: Option<Tools>,
    generate: TextRequest -> Result<string, string>, now: string): (r: Result<SpecialistReply, Failure>)
    ensures r.Ok? ==> r.value.metadata.agentType == Strategy && r.value.metadata.agentName == "Strategy Agent"
  {
    HandleWithSpecializedAgent(query, Strategy, context, tools, generate, now)
  }

  function GeneralAgent(query: string, context: Option<string>, tools: Option<Tools>,
    generate: TextRequest -> Result<string, string>, now: string): (r: Result<SpecialistReply, Failure>)
    ensures r.Ok? ==> r.value.metadata.agentType == General && r.value.metadata.agentName == "General Customer Support Agent"
  {
    HandleWithSpecializedAgent(query, General, context, tools, generate, now)
  }
}
