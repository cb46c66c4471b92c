/** The agent identities, their configuration records, the response shape
    and the static five-entry catalog of lib/agents/types.ts. */
module AgentTypes {
  import opened Base

  datatype AgentType = Retention | Expansion | Strategy | Outreach | General

  /** The string literal each identity is written as. */
  function AgentTypeName(t: AgentType): string
  {
    match t
    case Retention => "retention"
    case Expansion => "expansion"
    case Strategy => "strategy"
    case Outreach => "outreach"
    case General => "general"
  }

  /** Reads an identity back from its string; anything else is not an AgentType. */
  function ParseAgentType(s: string): (r: Option<AgentType>)
    ensures r.Some? ==> AgentTypeName(r.value) == s
    ensures r.None? ==> forall t: AgentType :: AgentTypeName(t) != s
  {
    if s == "retention" then Some(Retention)
    else if s == "expansion" then Some(Expansion)
    else if s == "strategy" then Some(Strategy)
    else if s == "outreach" then Some(Outreach)
    else if s == "general" then Some(General)
    else None
  }

  datatype AgentConfig = AgentConfig(
    id: AgentType,
    name: string,
    description: string,
    enabled: bool,
    model: string,
    systemPrompt: string)

  /** Response metadata: when present, `confidence` is always there and every
      other field may be absent. */
  datatype Metadata = Metadata(
    confidence: real,
    reasoning: Option<string>,
    suggestions: Option<seq<string>>,
    priority: Option<string>,
    agentType: Option<AgentType>,
    agentName: Option<string>,
    timestamp: Option<string>)

  datatype AgentResponse = AgentResponse(content: string, metadata: Option<Metadata>)

  /** The identities of a list of configurations, in list order. */
  function Ids(configs: seq<AgentConfig>): (r: seq<AgentType>)
    ensures |r| == |configs|
    ensures forall i :: 0 <= i < |configs| ==> r[i] == configs[i].id
  {
    if configs == [] then [] else [configs[0].id] + Ids(configs[1..])
  }

  /** No identity occurs twice. */
  predicate DistinctIds(configs: seq<AgentConfig>)
  {
    forall i, j :: 0 <= i < j < |configs| ==> configs[i].id != configs[j].id
  }

  const DefaultModel: string := "gpt-4o-mini"

  // The system prompts are multi-paragraph instructions; each constant holds
  // the opening sentence of its prompt.
  const RetentionPrompt: string := "You are a Customer Retention Specialist AI agent."
  const ExpansionPrompt: string := "You are a Growth and Expansion Advisor AI agent."
  const StrategyPrompt: string := "You are a Strategic Solutions Consultant AI agent."
  const OutreachPrompt: string := "You are a Customer Outreach Specialist AI agent."
  const GeneralPrompt: string := "You are a General Customer Support AI agent."

  /** The default catalog, in declaration order. */
  const AgentConfigs: seq<AgentConfig> := [
    AgentConfig(Retention, "Retention Agent",
      "Analyzes and suggests strategies for customer retention", true, DefaultModel, RetentionPrompt),
    AgentConfig(Expansion, "Expansion Agent",
      "Identifies upsell and growth opportunities", true, DefaultModel, ExpansionPrompt),
    AgentConfig(Strategy, "Strategy Agent",
      "Develops comprehensive CS strategies", true, DefaultModel, StrategyPrompt),
    AgentConfig(Outreach, "Outreach Agent",
      "Handles customer acquisition and re-engagement", true, DefaultModel, OutreachPrompt),
    AgentConfig(General, "General Customer Support Agent",
      "Handles general customer inquiries and communication", true, DefaultModel, GeneralPrompt)
  ]

  /** Where each identity sits in the catalog. */
  function CatalogIndex(t: AgentType): (k: nat)
    ensures k < |AgentConfigs| && AgentConfigs[k].id == t
  {
    match t
    case Retention => 0
    case Expansion => 1
    case Strategy => 2
    case Outreach => 3
    case General => 4
  }

  /** The catalog entry of an identity. */
  function ConfigOf(t: AgentType): (c: AgentConfig)
    ensures c.id == t && c in AgentConfigs
  {
    AgentConfigs[CatalogIndex(t)]
  }

  /** Five entries, one per identity in declaration order, all enabled and all
      on the default model. */
  lemma CatalogShape()
    ensures |AgentConfigs| == 5
    ensures Ids(AgentConfigs) == [Retention, Expansion, Strategy, Outreach, General]
    ensures DistinctIds(AgentConfigs)
    ensures forall t: AgentType :: t in Ids(AgentConfigs)
    ensures forall c :: c in AgentConfigs ==> c.enabled && c.model == DefaultModel
  {
    var ids := Ids(AgentConfigs);
    assert ids == [Retention, Expansion, Strategy, Outreach, General];
    forall t: AgentType ensures t in ids {
      assert ids[CatalogIndex(t)] == t;
    }
  }

  /** Every identity's string form reads back as itself. */
  lemma AgentTypeNameRoundTrip(t: AgentType)
    ensures ParseAgentType(AgentTypeName(t)) == Some(t)
  {
  }
}
