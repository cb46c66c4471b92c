/** What the agents hand to, and get back from, the language-model SDK.
    The calls themselves are function-valued parameters of the operations
    that make them. */
module ModelCalls {
  import opened Base

  /** Tool bindings passed through to the model; the agents never look inside. */
  datatype Tools = Tools(names: seq<string>)

  /** The arguments of one generateText call. */
  datatype TextRequest = TextRequest(model: string, system: string, prompt: string, tools: Option<Tools>)

  /** The errors the customer-success code throws or lets through. */
  datatype Failure =
    | ModelCallFailed(cause: string)      // the SDK call threw
    | SchemaMismatch                      // generateObject's output broke the schema
    | AgentNotFound(agentType: string)    // "Agent type … not found in configuration"
    | UnsupportedAgentType(agentType: string)  // "Unsupported agent type: …"
}
