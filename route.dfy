/** The POST handler of the customer-success endpoint
    (app/api/customer-success/route.ts). */
module CustomerSuccessRoute {
  import opened Base
  import opened AgentTypes
  import opened ModelCalls
  import opened SpecializedAgents
  import opened Orchestrator
  import opened CustomerSuccess

  /** A field of the JSON request body as far as the handler looks at it. */
  datatype JsonField = Missing | JsonString(s: string) | JsonOther(truthy: bool)

  /** The parsed body. `customerContext` is the JSON text of a truthy context. */
  datatype RequestBody = RequestBody(query: JsonField, customerContext: Option<string>, specificAgent: JsonField)

  datatype ResponseBody = ErrorBody(error: string) | AgentBody(response: AgentResponse)

  datatype HttpResponse = HttpResponse(status: int, body: ResponseBody)

  const QueryRequired: string := "Query is required and must be a string"
  const InvalidAgent: string := "Invalid agent type specified"
  const ProcessingFailed: string := "Failed to process the query"

  /** The identities a caller may name directly; general is not one of them. */
  const DirectAgents: seq<string> := ["retention", "expansion", "outreach", "strategy"]

  predicate TruthyField(f: JsonField)
  {
    match f
    case Missing => false
    case JsonString(s) => s != ""
    case JsonOther(t) => t
  }

  /** `query && typeof query === 'string'`. */
  predicate ValidQuery(f: JsonField)
  {
    f.JsonString? && f.s != ""
  }

  /** `DirectAgents.includes(specificAgent)`. */
  predicate Whitelisted(f: JsonField)
  {
    f.JsonString? && f.s in DirectAgents
  }

  /** An agent result as a response: 200 with the answer, 500 on any error. */
  function Respond(result: Result<AgentResponse, Failure>): (r: HttpResponse)
    ensures r.status == 200 <==> result.Ok?
    ensures result.Ok? ==> r.body == AgentBody(result.value)
    ensures result.Err? ==> r == HttpResponse(500, ErrorBody(ProcessingFailed))
  {
    match result
    case Ok(response) => HttpResponse(200, AgentBody(response))
    case Err(_) => HttpResponse(500, ErrorBody(ProcessingFailed))
  }

  /** POST. `body` is None when the request body is not JSON. */
  function Post(body: Option<RequestBody>,
    classify: ObjectRequest -> Result<RawClassification, string>,
    generate: TextRequest -> Result<string, string>, now: string): (r: HttpResponse)
    ensures body.None? ==> r == HttpResponse(500, ErrorBody(ProcessingFailed))
    ensures r.status == 200 || r.status == 400 || r.status == 500
    ensures r.status == 400 <==>
      body.Some? && (!ValidQuery(body.value.query) || (TruthyField(body.value.specificAgent) && !Whitelisted(body.value.specificAgent)))
    ensures r.status == 400 ==> r.body == ErrorBody(if ValidQuery(body.value.query) then InvalidAgent else QueryRequired)
    ensures r.status == 500 ==> r.body == ErrorBody(ProcessingFailed)
    ensures r.status == 200 ==> r.body.AgentBody?
  {
    match body
    case None => HttpResponse(500, ErrorBody(ProcessingFailed))
    case Some(b) =>
      if !ValidQuery(b.query) then
        HttpResponse(400, ErrorBody(QueryRequired))
      else if TruthyField(b.specificAgent) then
        if !Whitelisted(b.specificAgent) then
          HttpResponse(400, ErrorBody(InvalidAgent))
        else
          Respond(InvokeSpecificAgent(b.specificAgent.s, b.query.s, b.customerContext, None, generate, now))
      else
        Respond(CustomerSuccessAgent(b.query.s, b.customerContext, None, classify, generate, now))
  }

  /** A bad query is reported first, whatever specificAgent holds. */
  lemma BadQueryReportedFirst(body: RequestBody,
    classify: ObjectRequest -> Result<RawClassification, string>,
    generate: TextRequest -> Result<string, string>, now: string)
    requires !ValidQuery(body.query)
    ensures Post(Some(body), classify, generate, now) == HttpResponse(400, ErrorBody(QueryRequired))
  {
  }

  /** Naming general directly is refused, though invokeSpecificAgent supports it. */
  lemma GeneralRejected(query: string, context: Option<string>,
    classify: ObjectRequest -> Result<RawClassification, string>,
    generate: TextRequest -> Result<string, string>, now: string)
    requires query != ""
    ensures Post(Some(RequestBody(JsonString(query), context, JsonString("general"))), classify, generate, now)
      == HttpResponse(400, ErrorBody(InvalidAgent))
    ensures InvokeSpecificAgent("general", query, context, None, generate, now).Err? ==>
      InvokeSpecificAgent("general", query, context, None, generate, now).error.ModelCallFailed?
  {
    assert "general" !in DirectAgents;
  }

  /** The direct path never consults the classifier and forwards no tools:
      the response is the named specialist's answer with confidence 1.0. */
  lemma DirectPathSkipsClassifier(query: string, context: Option<string>, agent: string,
    classify1: ObjectRequest -> Result<RawClassification, string>,
    classify2: ObjectRequest -> Result<RawClassification, string>,
    generate: TextRequest -> Result<string, string>, now: string)
    requires query != "" && agent in DirectAgents
    ensures var body := Some(RequestBody(JsonString(query), context, JsonString(agent)));
      Post(body, classify1, generate, now) == Post(body, classify2, generate, now)
    ensures Post(Some(RequestBody(JsonString(query), context, JsonString(agent))), classify1, generate, now)
      == Respond(InvokeSpecificAgent(agent, query, context, None, generate, now))
    ensures var r := Post(Some(RequestBody(JsonString(query), context, JsonString(agent))), classify1, generate, now);
      && ParseAgentType(agent).Some?
      && var t := ParseAgentType(agent).value;
      && (r.status == 200 <==> generate(SpecialistRequest(ConfigOf(t), query, context, None)).Ok?)
      && (r.status == 200 ==> r.body.response.content == generate(SpecialistRequest(ConfigOf(t), query, context, None)).value
                              && r.body.response.metadata.value.confidence == 1.0
                              && r.body.response.metadata.value.agentType == Some(t))
  {
  }

  /** Without specificAgent the classified identity answers, and the response
      names it; no tools are forwarded. */
  lemma OrchestratedPath(query: string, context: Option<string>, agent: JsonField,
    classify: ObjectRequest -> Result<RawClassification, string>,
    generate: TextRequest -> Result<string, string>, now: string)
    requires query != "" && !TruthyField(agent)
    ensures Post(Some(RequestBody(JsonString(query), context, agent)), classify, generate, now)
      == Respond(CustomerSuccessAgent(query, context, None, classify, generate, now))
    ensures var r := Post(Some(RequestBody(JsonString(query), context, agent)), classify, generate, now);
      var c := ClassifyCustomerQuery(query, context, classify);
      c.Ok? && generate(SpecialistRequest(ConfigOf(c.value.agentType), query, context, None)).Ok? ==> r.status == 200
    ensures var r := Post(Some(RequestBody(JsonString(query), context, agent)), classify, generate, now);
      var c := ClassifyCustomerQuery(query, context, classify);
      && (c.Err? ==> r == HttpResponse(500, ErrorBody(ProcessingFailed)))
      && (r.status == 200 ==>
            && c.Ok?
            && r.body.response.metadata.value.agentType == Some(c.value.agentType)
            && r.body.response.metadata.value.confidence == c.value.confidence as real
            && generate(SpecialistRequest(ConfigOf(c.value.agentType), query, context, None))
                 == Ok(r.body.response.content))
  {
  }
}
