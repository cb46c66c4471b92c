/** The classification schema, the classifier prompt and routeCustomerQuery
    (lib/agents/customer-success/orchestrator.ts). generateObject is split in
    two: the model call itself, a parameter returning the raw object, and the
    schema validation the SDK applies to that object, modelled here. */
module Orchestrator {
  import opened Base
  import opened AgentTypes
  import opened ModelCalls

  datatype Priority = Low | Medium | High

  function PriorityName(p: Priority): string
  {
    match p
    case Low => "low"
    case Medium => "medium"
    case High => "high"
  }

  function ParsePriority(s: string): (r: Option<Priority>)
    ensures r.Some? ==> PriorityName(r.value) == s
    ensures r.None? ==> forall p: Priority :: PriorityName(p) != s
  {
    if s == "low" then Some(Low)
    else if s == "medium" then Some(Medium)
    else if s == "high" then Some(High)
    else None
  }

  type Confidence = c: real | 0.0 <= c <= 1.0

  /** A value of the CustomerQueryClassification schema. */
  datatype Classification = Classification(
    reasoning: string,
    agentType: AgentType,
    priority: Priority,
    confidence: Confidence)

  /** The object the model produced, before validation; a None field is
      missing or of the wrong JSON type. */
  datatype RawClassification = RawClassification(
    reasoning: Option<string>,
    agentType: Option<string>,
    priority: Option<string>,
    confidence: Option<real>)

  /** The object that encodes a classification. */
  function ToRaw(c: Classification): RawClassification
  {
    RawClassification(Some(c.reasoning), Some(AgentTypeName(c.agentType)),
      Some(PriorityName(c.priority)), Some(c.confidence))
  }

  /** The schema: a string reasoning, one of the five identities, one of the
      three priorities and a number in [0, 1]. */
  predicate Conforms(raw: RawClassification)
  {
    && raw.reasoning.Some?
    && raw.agentType.Some? && ParseAgentType(raw.agentType.value).Some?
    && raw.priority.Some? && ParsePriority(raw.priority.value).Some?
    && raw.confidence.Some? && 0.0 <= raw.confidence.value <= 1.0
  }

  /** Schema validation: a conforming object is accepted as it is, anything
      else is an error. */
  function ValidateClassification(raw: RawClassification): (r: Result<Classification, Failure>)
    ensures r.Ok? <==> Conforms(raw)
    ensures r.Ok? ==> ToRaw(r.value) == raw
    ensures r.Err? ==> r.error == SchemaMismatch
  {
    if Conforms(raw) then
      Ok(Classification(raw.reasoning.value, ParseAgentType(raw.agentType.value).value,
        ParsePriority(raw.priority.value).value, raw.confidence.value))
    else
      Err(SchemaMismatch)
  }

  /** Every classification passes validation unchanged. */
  lemma ValidateToRaw(c: Classification)
    ensures ValidateClassification(ToRaw(c)) == Ok(c)
  {
  }

  /** The arguments of the classifier's generateObject call. */
  datatype ObjectRequest = ObjectRequest(model: string, system: string, prompt: string)

  /** The classifier's model, fixed whatever the user picked for chat. */
  const ClassifierModel: string := "gpt-4o-mini"

  // The instruction texts are long; each constant holds the opening of its text.
  const OrchestratorInstructions: string :=
    "You are an expert Customer Success Orchestrator responsible for analyzing customer queries and routing them to the most appropriate specialized agent."
  const ClassifierPromptHead: string := "Analyze this customer success query and classify it:\n    \""
  const ClassifierPromptTail: string := "\n    \n    Determine:"
  const ClassifierContextHeader: string := "\nAdditional context about this customer:\n    "

  function ClassifierContextInfo(context: Option<string>): string
  {
    match context
    case None => ""
    case Some(c) => ClassifierContextHeader + c
  }

  /** The classifier's user prompt: the quoted query, then the context block
      when a context is given, then the fixed questions. */
  function ClassifierPrompt(query: string, context: Option<string>): string
  {
    ClassifierPromptHead + query + "\"" + ClassifierContextInfo(context) + ClassifierPromptTail
  }

  /** The context block is the only difference a context makes: it is spliced
      in right after the quoted query. */
  lemma ClassifierContextSplice(query: string, context: string)
    ensures var bare := ClassifierPrompt(query, None);
      var k := |ClassifierPromptHead| + |query| + 1;
      k <= |bare| && ClassifierPrompt(query, Some(context)) == bare[..k] + ClassifierContextHeader + context + bare[k..]
  {
  }

  function ClassifierRequest(query: string, context: Option<string>): (req: ObjectRequest)
    ensures req.model == ClassifierModel && req.system == OrchestratorInstructions
    ensures req.prompt == ClassifierPrompt(query, context)
  {
    ObjectRequest(ClassifierModel, OrchestratorInstructions, ClassifierPrompt(query, context))
  }

  /** classifyCustomerQuery: the model's object, validated and returned as is
      (no confidence floor is applied); a failed call or a non-conforming
      object is an error. */
  function ClassifyCustomerQuery(query: string, context: Option<string>,
    generate: ObjectRequest -> Result<RawClassification, string>): (r: Result<Classification, Failure>)
    ensures var out := generate(ClassifierRequest(query, context));
      && (r.Ok? <==> out.Ok? && Conforms(out.value))
      && (r.Ok? ==> out == Ok(ToRaw(r.value)))
      && (out.Err? ==> r == Err(ModelCallFailed(out.error)))
      && (out.Ok? && !Conforms(out.value) ==> r == Err(SchemaMismatch))
  {
    match generate(ClassifierRequest(query, context))
    case Err(cause) => Err(ModelCallFailed(cause))
    case Ok(raw) => ValidateClassification(raw)
  }

  /** routeCustomerQuery's result: the classification and the identity to route to. */
  datatype Routed = Routed(classification: Classification, agentType: AgentType)

  /** routeCustomerQuery: the classification unchanged, with its identity as
      the route; a classifier error is passed on. */
  function RouteCustomerQuery(query: string, context: Option<string>,
    generate: ObjectRequest -> Result<RawClassification, string>): (r: Result<Routed, Failure>)
    ensures var c := ClassifyCustomerQuery(query, context, generate);
      && (r.Ok? <==> c.Ok?)
      && (r.Ok? ==> r.value.classification == c.value && r.value.agentType == c.value.agentType)
      && (r.Err? ==> r.error == c.error)
  {
    match ClassifyCustomerQuery(query, context, generate)
    case Err(e) => Err(e)
    case Ok(classification) => Ok(Routed(classification, classification.agentType))
  }

  /** The 0.7 floor lives only in the instruction text: a specialised identity
      returned with low confidence is routed to as returned, not to general. */
  lemma LowConfidenceIsNotOverridden(query: string, context: Option<string>,
    generate: ObjectRequest -> Result<RawClassification, string>, c: Classification)
    requires generate(ClassifierRequest(query, context)) == Ok(ToRaw(c))
    requires c.confidence < 0.7 && c.agentType != General
    ensures RouteCustomerQuery(query, context, generate) == Ok(Routed(c, c.agentType))
    ensures RouteCustomerQuery(query, context, generate).value.agentType != General
  {
  }
}
