/** customerSuccessAgent and invokeSpecificAgent
    (lib/agents/customer-success/index.ts). */
module CustomerSuccess {
  import opened Base
  import opened AgentTypes
  import opened ModelCalls
  import opened SpecializedAgents
  import opened Orchestrator

  /** The five-way switch on an identity string, with its "Unsupported agent
      type" default. */
  function DispatchByName(name: string, query: string, context: Option<string>, tools: Option<Tools>,
    generate: TextRequest -> Result<string, string>, now: string): (r: Result<SpecialistReply, Failure>)
    ensures ParseAgentType(name).None? ==> r == Err(UnsupportedAgentType(name))
    ensures ParseAgentType(name).Some? ==>
      r == HandleWithSpecializedAgent(query, ParseAgentType(name).value, context, tools, generate, now)
  {
    match name
    case "retention" => RetentionAgent(query, context, tools, generate, now)
    case "expansion" => ExpansionAgent(query, context, tools, generate, now)
    case "outreach" => OutreachAgent(query, context, tools, generate, now)
    case "strategy" => StrategyAgent(query, context, tools, generate, now)
    case "general" => GeneralAgent(query, context, tools, generate, now)
    case _ => Err(UnsupportedAgentType(name))
  }

  /** The metadata of an orchestrated answer: confidence, reasoning and
      priority from the classification, identity from the router, name and
      timestamp from the specialist. */
  function MergedMetadata(classification: Classification, agentType: AgentType, reply: SpecialistReply): Metadata
  {
    Metadata(classification.confidence, Some(classification.reasoning), None,
      Some(PriorityName(classification.priority)), Some(agentType),
      Some(reply.metadata.agentName), Some(reply.metadata.timestamp))
  }

  /** customerSuccessAgent: classify, dispatch to the specialist of the
      classified identity, merge. The answer is the specialist's model text;
      its metadata names the classified identity and carries the
      classification's confidence, reasoning and priority. A classifier or
      model failure is the result; nothing is retried or redirected. */
  function CustomerSuccessAgent(query: string, context: Option<string>, tools: Option<Tools>,
    classify: ObjectRequest -> Result<RawClassification, string>,
    generate: TextRequest -> Result<string, string>, now: string): (r: Result<AgentResponse, Failure>)
    ensures var c := ClassifyCustomerQuery(query, context, classify);
      && (c.Err? ==> r == Err(c.error))
      && (c.Ok? ==>
            var req := SpecialistRequest(ConfigOf(c.value.agentType), query, context, tools);
            && (r.Ok? <==> generate(req).Ok?)
            && (r.Err? ==> r.error == ModelCallFailed(generate(req).error))
            && (r.Ok? ==> r.value == AgentResponse(generate(req).value, Some(Metadata(
                 c.value.confidence, Some(c.value.reasoning), None, Some(PriorityName(c.value.priority)),
                 Some(c.value.agentType), Some(ConfigOf(c.value.agentType).name), Some(now))))))
  {
    match RouteCustomerQuery(query, context, classify)
    case Err(e) => Err(e)
    case Ok(routed) =>
      AgentTypeNameRoundTrip(routed.agentType);
      match DispatchByName(AgentTypeName(routed.agentType), query, context, tools, generate, now)
      case Err(e) => Err(e)
      case Ok(reply) =>
        Ok(AgentResponse(reply.content, Some(MergedMetadata(routed.classification, routed.agentType, reply))))
  }

  /** invokeSpecificAgent: no classification; the named specialist answers
      with confidence 1.0 and no reasoning or priority. A name outside the five
      identities is "Unsupported agent type". */
  function InvokeSpecificAgent(agentType: string, query: string, context: Option<string>, tools: Option<Tools>,
    generate: TextRequest -> Result<string, string>, now: string): (r: Result<AgentResponse, Failure>)
    ensures ParseAgentType(agentType).None? ==> r == Err(UnsupportedAgentType(agentType))
    ensures ParseAgentType(agentType).Some? ==>
      var t := ParseAgentType(agentType).value;
      var req := SpecialistRequest(ConfigOf(t), query, context, tools);
      && (r.Ok? <==> generate(req).Ok?)
      && (r.Err? ==> r.error == ModelCallFailed(generate(req).error))
      && (r.Ok? ==> r.value == AgentResponse(generate(req).value,
            Some(Metadata(1.0, None, None, None, Some(t), Some(ConfigOf(t).name), Some(now)))))
  {
    match DispatchByName(agentType, query, context, tools, generate, now)
    case Err(e) => Err(e)
    case Ok(reply) =>
      Ok(AgentResponse(reply.content, Some(Metadata(1.0, None, None, None,
        ParseAgentType(agentType), Some(reply.metadata.agentName), Some(reply.metadata.timestamp)))))
  }

  /** The classified path gives the same content, identity, name and
      timestamp as invoking the classified specialist directly; only
      confidence, reasoning and priority differ. */
  lemma RoutedMatchesDirect(query: string, context: Option<string>, tools: Option<Tools>,
    classify: ObjectRequest -> Result<RawClassification, string>,
    generate: TextRequest -> Result<string, string>, now: string)
    requires ClassifyCustomerQuery(query, context, classify).Ok?
    ensures var c := ClassifyCustomerQuery(query, context, classify).value;
      var direct := InvokeSpecificAgent(AgentTypeName(c.agentType), query, context, tools, generate, now);
      var routed := CustomerSuccessAgent(query, context, tools, classify, generate, now);
      && (routed.Ok? <==> direct.Ok?)
      && (routed.Ok? ==> routed.value == direct.value.(metadata := Some(direct.value.metadata.value.(
            confidence := c.confidence as real, reasoning := Some(c.reasoning), priority := Some(PriorityName(c.priority))))))
  {
  }

  /** The classified path never reaches the "Unsupported agent type" default
      nor a missing catalog entry: its errors come from the model calls or
      the schema. */
  lemma ClassifiedPathErrors(query: string, context: Option<string>, tools: Option<Tools>,
    classify: ObjectRequest -> Result<RawClassification, string>,
    generate: TextRequest -> Result<string, string>, now: string)
    ensures var r := CustomerSuccessAgent(query, context, tools, classify, generate, now);
      r.Err? ==> r.error.ModelCallFailed? || r.error == SchemaMismatch
  {
  }
}
