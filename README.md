# Customer-success routing and message quota, modelled in Dafny

This project models the deterministic core of a Next.js chat application that
answers customer-success questions through five prompt-specialised agents
(retention, expansion, strategy, outreach, general) and that switches from the
app's shared API keys to the user's own keys after a number of free messages.

Every call to a language model is a function-valued parameter: `generate`
(generateText, returning the model text or an error) and `classify` (the model
behind generateObject, returning the raw object or an error). The clock
(`new Date().toISOString()`) is the parameter `now`, JSON serialisation is the
parameter `stringify` or `parse`, and a customer context is represented by the
JSON text of a truthy context value (`None` when it is absent or falsy).

Modules, one per source file:

- `ApiKeys` (lib/db/api-keys.ts): the message counter as a class
  `BrowserSession` whose fields are the browser's stored entries, with
  increment, reset and key setters as methods; the two credential selectors and
  `requiresUserApiKeys` as functions over that state, both selectors built on
  the one pure decision `SelectClientKey`.
- `AgentTypes` (lib/agents/types.ts): the identities, the configuration and
  response records, and the five-entry catalog. `Metadata` makes `confidence`
  mandatory and every other field optional, as the response type does.
- `AgentStore` (hooks/use-agents.ts): the editable agent list as a class
  `Store` whose methods replace the list by the result of a pure rewrite
  (`Toggled`, `WithModel`, `WithPrompt`), plus the initial-state rule and saving.
- `ModelCalls`: the shape of a generateText request and the errors the code throws.
- `SpecializedAgents` (lib/agents/customer-success/specialized-agents.ts): the
  catalog lookup, model fallback, prompt assembly and reply construction, and
  the five per-identity wrappers.
- `Orchestrator` (lib/agents/customer-success/orchestrator.ts): the
  classification schema and its validation, the classifier prompt and request,
  `classifyCustomerQuery` and `routeCustomerQuery`.
- `CustomerSuccess` (lib/agents/customer-success/index.ts): the classified path
  (classify, dispatch, merge) and the direct path.
- `CustomerSuccessRoute` (app/api/customer-success/route.ts): the POST handler's
  branch table.

Where the code's comments or instruction texts say otherwise, the model follows the code:

- Credential choice: the comments at lib/db/api-keys.ts:36 and :58 ("After 10
  messages, require user's API key") suggest a refusal once the free messages
  are used up. The code has none. During the free tier the shared key is
  preferred over the user's key, and past the limit with no user key the
  shared key is still returned (lib/db/api-keys.ts:32-33).
- Confidence floor: the classifier's instruction texts ask the model to choose
  general below confidence 0.7 (lib/agents/customer-success/orchestrator.ts:57
  and :76). No code enforces it. A specialised identity with confidence below
  0.7 is routed as returned (`LowConfidenceIsNotOverridden`).
- Direct invocation: the endpoint refuses `general` as `specificAgent`, although
  `invokeSpecificAgent` itself serves it.
- Edited configuration: the handler looks agents up in the static catalog, not
  in the edited store. Model, prompt or enabled edits never reach a dispatched
  call, and a disabled agent is still dispatched to.

## Model

| member | source | states |
|---|---|---|
| `ApiKeys.SelectClientKey` | lib/db/api-keys.ts:31-37 | The result is the shared key or the user key. It is truthy whenever either key is. Past 10 messages a truthy user key wins. In the free tier a truthy shared key wins. With no user key the shared key is returned: there is no refusal. |
| `ApiKeys.BrowserSession.MessageCount` | lib/db/api-keys.ts:6-9 | The count is 0 on the server and when nothing is stored; otherwise it is the stored value. |
| `ApiKeys.BrowserSession.IncrementMessageCount` | lib/db/api-keys.ts:11-15 | In the browser the count goes up by exactly 1. On the server nothing changes. Stored keys are untouched. |
| `ApiKeys.BrowserSession.ResetMessageCount` | lib/db/api-keys.ts:17-20 | In the browser the stored count becomes 0. On the server nothing changes. Keys are untouched. |
| `ApiKeys.BrowserSession.SetOpenAIApiKey` | lib/db/api-keys.ts:40-43 | Stores the OpenAI key in the browser and nothing else. It is a no-op on the server. |
| `ApiKeys.BrowserSession.SetAnthropicApiKey` | lib/db/api-keys.ts:62-65 | Stores the Anthropic key in the browser and nothing else. It is a no-op on the server. |
| `ApiKeys.BrowserSession.RequiresUserApiKeys` | lib/db/api-keys.ts:78-79 | Holds exactly when a browser session has stored a count of at least 10. It never holds on the server. |
| `ApiKeys.BrowserSession.OpenAIApiKey` | lib/db/api-keys.ts:22-38 | The server returns OPENAI_API_KEY as is. The browser returns the public key or the stored key: the stored key once the limit is reached and a key is stored, otherwise the public key when it is set. When the public key is unset, the stored key is returned. |
| `ApiKeys.BrowserSession.AnthropicApiKey` | lib/db/api-keys.ts:45-60 | The server returns `ANTHROPIC_API_KEY \|\| null`. The browser applies the same rule as for OpenAI. |
| `ApiKeys.UserKeyWinsIffLimitReached` | lib/db/api-keys.ts:32-37 | With a truthy shared key and a different truthy user key, the user key is chosen if and only if the count is at least 10. |
| `ApiKeys.ClientSelectorsAgree` | lib/db/api-keys.ts:50-59 | In the browser the Anthropic selector gives the same answer as the OpenAI selector for the same public and stored keys. |
| `ApiKeys.KeyAtNineAndTenMessages` | lib/db/api-keys.ts:11-37 | Start from a fresh browser session with a user key stored. With nine messages recorded the shared key is chosen. With ten recorded the user's key is chosen if one is stored, and otherwise the shared key still is. |
| `AgentTypes.ParseAgentType` | lib/agents/types.ts:1 | A string parses exactly when it is one of the five identity literals, and it parses to that identity. |
| `AgentTypes.AgentTypeNameRoundTrip` | lib/agents/types.ts:1 | Each identity's literal reads back as that identity. |
| `AgentTypes.Ids` | lib/agents/types.ts:3-4 | Lists the identities of a configuration list, position by position. |
| `AgentTypes.CatalogIndex` | lib/agents/types.ts:25-236 | Each identity has a catalog position whose entry carries that identity. |
| `AgentTypes.ConfigOf` | lib/agents/types.ts:25-236 | Each identity's catalog entry is in the catalog and carries that identity. |
| `AgentTypes.CatalogShape` | lib/agents/types.ts:25-236 | The catalog has five entries with distinct ids. They come in the order retention, expansion, strategy, outreach, general, so every identity is present. Every entry is enabled and uses gpt-4o-mini. |
| `AgentStore.MapMatching` | hooks/use-agents.ts:32-34 | The result has the same length as the input. The entry with the given id is rewritten and every other entry is kept as is. |
| `AgentStore.Toggled` | hooks/use-agents.ts:30-35 | Flips `enabled` on the entries with that id only. Length and the id sequence are unchanged. |
| `AgentStore.WithModel` | hooks/use-agents.ts:36-41 | Sets `model` on the entries with that id only. Length and the id sequence are unchanged. |
| `AgentStore.WithPrompt` | hooks/use-agents.ts:42-47 | Sets `systemPrompt` on the entries with that id only. All other fields and entries are unchanged, and so is the id sequence. |
| `AgentStore.InitialState` | hooks/use-agents.ts:6-18 | Yields the default catalog on the server, with nothing stored, or when parsing fails. In the browser, stored text that parses yields exactly the parsed list. Any result other than the default catalog is that parsed list. |
| `AgentStore.Store.constructor` | hooks/use-agents.ts:28-29 | The store starts from the initial-state rule. |
| `AgentStore.Store.ToggleAgent` | hooks/use-agents.ts:30-35 | The list becomes `Toggled` of the old list. Storage is untouched. |
| `AgentStore.Store.UpdateAgentModel` | hooks/use-agents.ts:36-41 | The list becomes `WithModel` of the old list. Storage is untouched. |
| `AgentStore.Store.UpdateAgentPrompt` | hooks/use-agents.ts:42-47 | The list becomes `WithPrompt` of the old list. Storage is untouched. |
| `AgentStore.Store.SaveAgentChanges` | hooks/use-agents.ts:48-56 | The list is unchanged. In the browser its JSON text is written to storage. |
| `AgentStore.ToggleInvolution` | hooks/use-agents.ts:30-35 | Toggling the same id twice restores the list. |
| `AgentStore.WithModelIdempotent` | hooks/use-agents.ts:36-41 | Repeating a model update with the same model changes nothing. |
| `AgentStore.WithPromptIdempotent` | hooks/use-agents.ts:42-47 | Repeating a prompt update with the same prompt changes nothing. |
| `AgentStore.AbsentIdChangesNothing` | hooks/use-agents.ts:32-44 | An id that is not in the list leaves the list unchanged under all three actions. |
| `AgentStore.ActionsPreserveIds` | hooks/use-agents.ts:28-57 | No run of store actions changes the id sequence. From the default catalog, the five identities stay in declaration order. |
| `AgentStore.SaveThenReload` | hooks/use-agents.ts:48-56 | What is saved is what the next session starts from, when the saved JSON parses back to the list. |
| `SpecializedAgents.FindAgentConfig` | lib/agents/customer-success/specialized-agents.ts:23 | Finds nothing exactly when the id is absent. Otherwise it returns the first list entry that carries the id. |
| `SpecializedAgents.FindAtIndex` | lib/agents/customer-success/specialized-agents.ts:23 | In a list with distinct ids, find returns the one entry that carries the id. |
| `SpecializedAgents.CatalogLookup` | lib/agents/customer-success/specialized-agents.ts:23-27 | Lookup in the static catalog always succeeds and finds that identity's entry, so the not-found throw is unreachable. |
| `SpecializedAgents.ModelFor` | lib/agents/customer-success/specialized-agents.ts:30-32 | The model is never empty. It is the configured model when that is non-empty, and gpt-4o-mini otherwise. |
| `SpecializedAgents.SpecialistPrompt` | lib/agents/customer-success/specialized-agents.ts:35-43 | The prompt starts with the query. It equals the query exactly when no context is given. Otherwise the query is followed by the "Customer Context" block. |
| `SpecializedAgents.HandleWithSpecializedAgent` | lib/agents/customer-success/specialized-agents.ts:14-56 | The catalog entry's system prompt is the system instruction, and tools are forwarded unchanged. The content is the model text verbatim, with the requested identity, the entry's name and `now`. A failed model call is the error. |
| `SpecializedAgents.RetentionAgent` | lib/agents/customer-success/specialized-agents.ts:61-63 | Answers as identity retention, named "Retention Agent". |
| `SpecializedAgents.ExpansionAgent` | lib/agents/customer-success/specialized-agents.ts:68-70 | Answers as identity expansion, named "Expansion Agent". |
| `SpecializedAgents.OutreachAgent` | lib/agents/customer-success/specialized-agents.ts:75-77 | Answers as identity outreach, named "Outreach Agent". |
| `SpecializedAgents.StrategyAgent` | lib/agents/customer-success/specialized-agents.ts:82-84 | Answers as identity strategy, named "Strategy Agent". |
| `SpecializedAgents.GeneralAgent` | lib/agents/customer-success/specialized-agents.ts:89-91 | Answers as identity general, named "General Customer Support Agent". |
| `Orchestrator.ParsePriority` | lib/agents/customer-success/orchestrator.ts:12 | A string parses exactly when it is low, medium or high. |
| `Orchestrator.ValidateClassification` | lib/agents/customer-success/orchestrator.ts:7-18 | Accepts exactly the objects whose agent type is one of the five identities, whose priority is one of three, and whose confidence lies in [0,1]. The accepted value encodes back to the same object. Anything else is a schema error. |
| `Orchestrator.ValidateToRaw` | lib/agents/customer-success/orchestrator.ts:7-18 | Every classification passes validation unchanged. |
| `Orchestrator.ClassifierContextSplice` | lib/agents/customer-success/orchestrator.ts:28-30 | A context only splices its block in after the quoted query. The rest of the prompt is identical to the prompt without context. |
| `Orchestrator.ClassifierRequest` | lib/agents/customer-success/orchestrator.ts:25-60 | Always uses gpt-4o-mini and the orchestrator instructions, whatever the user chose. |
| `Orchestrator.ClassifyCustomerQuery` | lib/agents/customer-success/orchestrator.ts:24-80 | Succeeds exactly when the model call succeeds and its object conforms. The result is exactly that object, with no post-filter. A call failure or a schema violation is the error. |
| `Orchestrator.RouteCustomerQuery` | lib/agents/customer-success/orchestrator.ts:85-96 | Returns the classification unchanged with `agentType == classification.agentType`. Classifier errors propagate. |
| `Orchestrator.LowConfidenceIsNotOverridden` | lib/agents/customer-success/orchestrator.ts:57-79 | A specialised identity returned with confidence below 0.7 is routed to as returned, not to general. |
| `CustomerSuccess.DispatchByName` | lib/agents/customer-success/index.ts:35-53 | The five literals go to the handler of that identity. Any other string is "Unsupported agent type". |
| `CustomerSuccess.CustomerSuccessAgent` | lib/agents/customer-success/index.ts:21-73 | A classifier error is rethrown unchanged. Otherwise the classified identity's specialist answers. The content is its model text. The metadata has the classification's confidence, reasoning and priority, the routed identity, the specialist's name and `now`. A failed model call is the error. |
| `CustomerSuccess.InvokeSpecificAgent` | lib/agents/customer-success/index.ts:79-124 | Never classifies. An unknown name is "Unsupported agent type". Otherwise the named specialist's text is returned with confidence 1.0, that identity, and no reasoning or priority. |
| `CustomerSuccess.RoutedMatchesDirect` | lib/agents/customer-success/index.ts:56-66 | The classified path equals direct invocation of the classified identity, except for confidence, reasoning and priority. |
| `CustomerSuccess.ClassifiedPathErrors` | lib/agents/customer-success/index.ts:47-53 | The classified path fails only through a model call or the schema, never through the unsupported-type default. |
| `CustomerSuccessRoute.Respond` | app/api/customer-success/route.ts:39-45 | An answer becomes 200 with the answer as its body. Any error becomes 500 "Failed to process the query". |
| `CustomerSuccessRoute.Post` | app/api/customer-success/route.ts:7-47 | A body that is not JSON gives 500 "Failed to process the query". The status is 200, 400 or 500. It is 400 exactly for a bad query or a truthy non-whitelisted agent, with the matching message, and the query message takes precedence. A 500 always carries "Failed to process the query". |
| `CustomerSuccessRoute.BadQueryReportedFirst` | app/api/customer-success/route.ts:11-16 | A missing, empty or non-string query gives 400 "Query is required and must be a string" whatever `specificAgent` is. |
| `CustomerSuccessRoute.GeneralRejected` | app/api/customer-success/route.ts:21-27 | `specificAgent: "general"` gives 400 "Invalid agent type specified". |
| `CustomerSuccessRoute.DirectPathSkipsClassifier` | app/api/customer-success/route.ts:29-39 | With a whitelisted agent the response does not depend on the classifier. It is exactly `InvokeSpecificAgent` for that name (no tools) turned into 200 or 500, so it carries the specialist's name and `now` and no reasoning or priority. It is 200 exactly when the model call succeeds, with confidence 1.0 and that identity. |
| `CustomerSuccessRoute.OrchestratedPath` | app/api/customer-success/route.ts:34-36 | With a valid query and a falsy `specificAgent`, the response is exactly the classified path's result (without tools) turned into 200 or 500. A successful classification and model call give 200. A classifier failure gives 500. A 200 carries the classified identity and confidence, and the specialist text. |

## Left out

- Storage helpers: `getLocalStorage`/`setLocalStorage` (lib/utils) are not part of this model. Stored values appear as already decoded values, so a stored count that is not a number (which `Number` would turn into NaN) is not modelled.
- Absent storage entries: the model assumes that `getLocalStorage` returns a falsy value (null, undefined or the empty string) for a key that was never set, so an unset user key is `None`. The "no refusal, shared key returned" behaviour past the limit rests on this assumption.
- `getLocalOpenAIApiKey` and `getLocalAnthropicApiKey` only read a stored key. They are the `openAIKey`/`anthropicKey` fields themselves rather than separate members.
- Language-model calls, the SDK provider wiring and the network: these are function parameters with no behaviour assumed. Which identity, priority or confidence a model picks is unspecified.
- Schema validation is reduced to the four fields. Extra keys, zod's coercions and JSON number precision are not modelled, and confidence is a real number, not a floating-point value.
- `JSON.parse` of the saved agent list is a parameter that either fails or yields a list of configurations. A stored JSON value of another shape, which the source would accept unchecked, is not modelled.
- `JSON.stringify` of a context and of the agent list, and `new Date().toISOString()`: parameters (`context` text, `stringify`, `now`).
- System prompts and classifier instructions: each text constant holds only the opening sentence of its multi-paragraph text, and the classifier prompt's fixed question list is shortened to its first line.
- Tools are an opaque list of names. Only their pass-through is modelled.
- The `suggestions` metadata field is never set by the core; it is present in `Metadata` but no member produces it.
- Logging (`console.log`/`console.error`), async/await and the edge runtime: no effect on results.
- The HTTP layer is reduced to a status and a JSON body. A body that is not JSON, or is the JSON value `null` (destructuring it throws), is `None` and gives 500.
