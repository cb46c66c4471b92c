/** The editable agent list of hooks/use-agents.ts: its initial value, the
    three actions that rewrite one record by id, and saving. */
module AgentStore {
  import opened Base
  import opened AgentTypes

  /** `agents.map(a => a.id === id ? f(a) : a)`. */
  function MapMatching(agents: seq<AgentConfig>, id: AgentType, f: AgentConfig -> AgentConfig): (r: seq<AgentConfig>)
    ensures |r| == |agents|
    ensures forall i :: 0 <= i < |agents| ==> r[i] == if agents[i].id == id then f(agents[i]) else agents[i]
  {
    if agents == [] then []
    else [if agents[0].id == id then f(agents[0]) else agents[0]] + MapMatching(agents[1..], id, f)
  }

  /** The list after toggleAgent(id). */
  function Toggled(agents: seq<AgentConfig>, id: AgentType): (r: seq<AgentConfig>)
    ensures Ids(r) == Ids(agents)
    ensures forall i :: 0 <= i < |agents| && agents[i].id == id ==> r[i] == agents[i].(enabled := !agents[i].enabled)
    ensures forall i :: 0 <= i < |agents| && agents[i].id != id ==> r[i] == agents[i]
  {
    MapMatching(agents, id, (a: AgentConfig) => a.(enabled := !a.enabled))
  }

  /** The list after updateAgentModel(id, model). */
  function WithModel(agents: seq<AgentConfig>, id: AgentType, model: string): (r: seq<AgentConfig>)
    ensures Ids(r) == Ids(agents)
    ensures forall i :: 0 <= i < |agents| && agents[i].id == id ==> r[i] == agents[i].(model := model)
    ensures forall i :: 0 <= i < |agents| && agents[i].id != id ==> r[i] == agents[i]
  {
    MapMatching(agents, id, (a: AgentConfig) => a.(model := model))
  }

  /** The list after updateAgentPrompt(id, prompt). */
  function WithPrompt(agents: seq<AgentConfig>, id: AgentType, prompt: string): (r: seq<AgentConfig>)
    ensures Ids(r) == Ids(agents)
    ensures forall i :: 0 <= i < |agents| && agents[i].id == id ==> r[i] == agents[i].(systemPrompt := prompt)
    ensures forall i :: 0 <= i < |agents| && agents[i].id != id ==> r[i] == agents[i]
  {
    MapMatching(agents, id, (a: AgentConfig) => a.(systemPrompt := prompt))
  }

  /** getInitialState: on the server, with nothing (or the empty string)
      stored, or when the stored text does not parse, the default catalog;
      otherwise whatever the stored text parses to. */
  function InitialState(onServer: bool, saved: Option<string>, parse: string -> Option<seq<AgentConfig>>): (r: seq<AgentConfig>)
    ensures onServer || !Truthy(saved) ==> r == AgentConfigs
    ensures Truthy(saved) && parse(saved.value).None? ==> r == AgentConfigs
    ensures !onServer && Truthy(saved) && parse(saved.value).Some? ==> r == parse(saved.value).value
    ensures r != AgentConfigs ==> !onServer && Truthy(saved) && parse(saved.value) == Some(r)
  {
    if !onServer && Truthy(saved) then
      match parse(saved.value)
      case Some(parsed) => parsed
      case None => AgentConfigs
    else
      AgentConfigs
  }

  /** The zustand store: the agent list and the localStorage entry it is saved to. */
  class Store {
    const onServer: bool
    var agents: seq<AgentConfig>
    var saved: Option<string>  // localStorage 'agentConfigs'

    constructor (onServer: bool, saved: Option<string>, parse: string -> Option<seq<AgentConfig>>)
      ensures this.onServer == onServer && this.saved == saved
      ensures agents == InitialState(onServer, saved, parse)
    {
      this.onServer := onServer;
      this.saved := saved;
      agents := InitialState(onServer, saved, parse);
    }

    method ToggleAgent(id: AgentType)
      modifies this
      ensures agents == Toggled(old(agents), id)
      ensures saved == old(saved)
    {
      agents := Toggled(agents, id);
    }

    method UpdateAgentModel(id: AgentType, model: string)
      modifies this
      ensures agents == WithModel(old(agents), id, model)
      ensures saved == old(saved)
    {
      agents := WithModel(agents, id, model);
    }

    method UpdateAgentPrompt(id: AgentType, prompt: string)
      modifies this
      ensures agents == WithPrompt(old(agents), id, prompt)
      ensures saved == old(saved)
    {
      agents := WithPrompt(agents, id, prompt);
    }

    /** saveAgentChanges: the list is left as it is; in the browser its JSON
        text (`stringify`) is written to storage. */
    method SaveAgentChanges(stringify: seq<AgentConfig> -> string)
      modifies this
      ensures agents == old(agents)
      ensures saved == if onServer then old(saved) else Some(stringify(agents))
    {
      if !onServer {
        saved := Some(stringify(agents));
      }
    }
  }

  /** Toggling the same id twice gives back the list. */
  lemma ToggleInvolution(agents: seq<AgentConfig>, id: AgentType)
    ensures Toggled(Toggled(agents, id), id) == agents
  {
  }

  /** Setting the same model twice is the same as setting it once. */
  lemma WithModelIdempotent(agents: seq<AgentConfig>, id: AgentType, model: string)
    ensures WithModel(WithModel(agents, id, model), id, model) == WithModel(agents, id, model)
  {
  }

  /** Setting the same prompt twice is the same as setting it once. */
  lemma WithPromptIdempotent(agents: seq<AgentConfig>, id: AgentType, prompt: string)
    ensures WithPrompt(WithPrompt(agents, id, prompt), id, prompt) == WithPrompt(agents, id, prompt)
  {
  }

  /** An id that is not in the list leaves it unchanged under every action. */
  lemma AbsentIdChangesNothing(agents: seq<AgentConfig>, id: AgentType, model: string, prompt: string)
    requires id !in Ids(agents)
    ensures Toggled(agents, id) == agents
    ensures WithModel(agents, id, model) == agents
    ensures WithPrompt(agents, id, prompt) == agents
  {
  }

  /** One editing action on the store. */
  datatype Action =
    | Toggle(id: AgentType)
    | SetModel(id: AgentType, model: string)
    | SetPrompt(id: AgentType, prompt: string)
    | Save

  /** The list after a run of actions (saving leaves it unchanged). */
  function ApplyActions(agents: seq<AgentConfig>, actions: seq<Action>): seq<AgentConfig>
    decreases |actions|
  {
    if actions == [] then agents
    else
      var next := match actions[0]
        case Toggle(id) => Toggled(agents, id)
        case SetModel(id, m) => WithModel(agents, id, m)
        case SetPrompt(id, p) => WithPrompt(agents, id, p)
        case Save => agents;
      ApplyActions(next, actions[1..])
  }

  /** No run of actions adds, drops or reorders an entry: starting from the
      default catalog, every identity stays present exactly once. */
  lemma {:induction false} ActionsPreserveIds(agents: seq<AgentConfig>, actions: seq<Action>)
    ensures Ids(ApplyActions(agents, actions)) == Ids(agents)
    ensures agents == AgentConfigs ==> Ids(ApplyActions(agents, actions)) == [Retention, Expansion, Strategy, Outreach, General]
    decreases |actions|
  {
    if actions != [] {
      var next := match actions[0]
        case Toggle(id) => Toggled(agents, id)
        case SetModel(id, m) => WithModel(agents, id, m)
        case SetPrompt(id, p) => WithPrompt(agents, id, p)
        case Save => agents;
      ActionsPreserveIds(next, actions[1..]);
    }
    CatalogShape();
  }

  /** What saveAgentChanges writes is what the next session starts from, when
      the stored JSON text parses back to the list it came from. */
  lemma SaveThenReload(agents: seq<AgentConfig>, stringify: seq<AgentConfig> -> string, parse: string -> Option<seq<AgentConfig>>)
    requires stringify(agents) != ""
    requires parse(stringify(agents)) == Some(agents)
    ensures InitialState(false, Some(stringify(agents)), parse) == agents
  {
  }
}
