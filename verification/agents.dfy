/** The static agent catalog (`agents.ts`) and its two lookups. */
module Agents {
  import opened Wrappers
  import opened Types
  import opened Seqs

  /** The agent every fresh coordinator, provider and hook starts with. */
  const DefaultAgentId: string := "general-reasoning"

  const GeneralReasoning: Agent := Agent(
    "general-reasoning",
    "General Reasoning Agent",
    "Handles general conversation and basic reasoning tasks",
    [AgentCapability(
      "general-chat",
      "General Chat",
      "Basic conversation and general knowledge",
      [],
      ["conversation", "general-knowledge", "basic-reasoning"])],
    true,
    Some(0.8))

  const TechnicalSpecialist: Agent := Agent(
    "technical-specialist",
    "Technical Specialist",
    "Handles technical questions, code analysis, and development tasks",
    [AgentCapability(
      "code-analysis",
      "Code Analysis",
      "Analyze and understand code structures",
      [],
      ["programming", "debugging", "architecture", "code-review"])],
    true,
    Some(0.9))

  const DocumentSpecialist: Agent := Agent(
    "document-specialist",
    "Document Specialist",
    "Specializes in document creation, editing, and management",
    [AgentCapability(
      "document-management",
      "Document Management",
      "Create, update, and manage documents",
      ["createDocument", "updateDocument"],
      ["writing", "editing", "documentation", "content-creation"])],
    true,
    Some(0.85))

  const ResearchAgent: Agent := Agent(
    "research-agent",
    "Research Agent",
    "Handles research tasks, information gathering, and analysis",
    [AgentCapability(
      "information-gathering",
      "Information Gathering",
      "Gather and analyze information from various sources",
      ["getWeather"],
      ["research", "analysis", "data-gathering", "fact-checking"])],
    true,
    Some(0.8))

  const CreativeAssistant: Agent := Agent(
    "creative-assistant",
    "Creative Assistant",
    "Handles creative tasks like suggestions and brainstorming",
    [AgentCapability(
      "creative-suggestions",
      "Creative Suggestions",
      "Generate creative ideas and suggestions",
      ["requestSuggestions"],
      ["creativity", "brainstorming", "ideation", "content-generation"])],
    true,
    Some(0.75))

  /** `AVAILABLE_AGENTS`, in catalog order. */
  const AvailableAgents: seq<Agent> :=
    [GeneralReasoning, TechnicalSpecialist, DocumentSpecialist, ResearchAgent, CreativeAssistant]

  /** No two catalog entries share an id. */
  predicate IdsDistinct(agents: seq<Agent>) {
    forall i, j :: 0 <= i < j < |agents| ==> agents[i].id != agents[j].id
  }

  /** `id` names some catalog entry. */
  predicate Known(id: string) {
    exists i :: 0 <= i < |AvailableAgents| && AvailableAgents[i].id == id
  }

  /** `getAgentById`: the first catalog entry with the given id, if any. */
  function GetAgentById(id: string): (r: Option<Agent>)
    ensures r.Some? <==> Known(id)
    ensures r.Some? ==> r.value in AvailableAgents && r.value.id == id
  {
    CatalogIdsDistinct();
    var k := FirstIndex(AvailableAgents, (a: Agent) => a.id == id);
    if k < |AvailableAgents| then Some(AvailableAgents[k]) else None
  }

  /** The agent offers `capability` as an expertise tag or a tool name in one
      of its capabilities. */
  predicate Offers(agent: Agent, capability: string) {
    exists i :: 0 <= i < |agent.capabilities|
      && (capability in agent.capabilities[i].expertise || capability in agent.capabilities[i].tools)
  }

  /** `getAgentsByCapability`: exactly the catalog agents offering
      `capability`, in catalog order. */
  function GetAgentsByCapability(capability: string): (r: seq<Agent>)
    ensures forall a :: a in r <==> a in AvailableAgents && Offers(a, capability)
    ensures IsSubsequence(r, AvailableAgents)
    ensures forall a :: multiset(r)[a] == (if Offers(a, capability) then multiset(AvailableAgents)[a] else 0)
  {
    var p := (a: Agent) => Offers(a, capability);
    FilterMembers(AvailableAgents, p);
    FilterCounts(AvailableAgents, p);
    FilterKeepsOrder(AvailableAgents, p);
    Filter(AvailableAgents, p)
  }

  /** The union of the tool names granted by the agent's capabilities, in
      capability order (`capabilities.flatMap(cap => cap.tools)`). */
  function ToolUnion(agent: Agent): (tools: seq<string>)
    ensures forall t :: t in tools <==> exists i :: 0 <= i < |agent.capabilities| && t in agent.capabilities[i].tools
  {
    FlatMap(agent.capabilities, (c: AgentCapability) => c.tools)
  }

  /** The expertise tags of all the agent's capabilities, in order. */
  function ExpertiseUnion(agent: Agent): (tags: seq<string>)
    ensures forall t :: t in tags <==> exists i :: 0 <= i < |agent.capabilities| && t in agent.capabilities[i].expertise
  {
    FlatMap(agent.capabilities, (c: AgentCapability) => c.expertise)
  }

  /** The names of the agent's capabilities, in order. */
  function CapabilityNames(agent: Agent): (names: seq<string>)
    ensures |names| == |agent.capabilities|
    ensures forall i :: 0 <= i < |names| ==> names[i] == agent.capabilities[i].name
  {
    seq(|agent.capabilities|, i requires 0 <= i < |agent.capabilities| => agent.capabilities[i].name)
  }

  /** The current agent is the default when no handoff has been recorded,
      and otherwise the target of the most recent handoff. */
  predicate CurrentMatchesHandoffs(currentAgent: string, handoffs: seq<AgentHandoff>) {
    if |handoffs| == 0 then currentAgent == DefaultAgentId else currentAgent == Last(handoffs).toAgent
  }

  /** The catalog's ids are pairwise distinct, so a lookup by id can match at
      most one entry. */
  lemma CatalogIdsDistinct()
    ensures IdsDistinct(AvailableAgents)
  {
  }

  /** The default agent is a catalog entry. */
  lemma DefaultKnown()
    ensures Known(DefaultAgentId)
  {
    assert AvailableAgents[0].id == DefaultAgentId;
  }

  /** Ids are distinct, so `getAgentById` finds the one catalog entry
      carrying the id. */
  lemma GetAgentByIdFinds(id: string, a: Agent)
    requires a in AvailableAgents && a.id == id
    ensures GetAgentById(id) == Some(a)
  {
    CatalogIdsDistinct();
    var found := GetAgentById(id).value;
    var i :| 0 <= i < |AvailableAgents| && AvailableAgents[i] == a;
    var j :| 0 <= j < |AvailableAgents| && AvailableAgents[j] == found;
    if i < j {
      assert AvailableAgents[i].id != AvailableAgents[j].id;
    } else if j < i {
      assert AvailableAgents[j].id != AvailableAgents[i].id;
    }
  }

  /** The default agent and the four handoff targets are catalog entries. */
  lemma CatalogResolves()
    ensures GetAgentById(DefaultAgentId) == Some(GeneralReasoning)
    ensures GetAgentById("technical-specialist") == Some(TechnicalSpecialist)
    ensures GetAgentById("document-specialist") == Some(DocumentSpecialist)
    ensures GetAgentById("research-agent") == Some(ResearchAgent)
    ensures GetAgentById("creative-assistant") == Some(CreativeAssistant)
  {
    var agents := AvailableAgents;
    GetAgentByIdFinds(DefaultAgentId, agents[0]);
    GetAgentByIdFinds("technical-specialist", agents[1]);
    GetAgentByIdFinds("document-specialist", agents[2]);
    GetAgentByIdFinds("research-agent", agents[3]);
    GetAgentByIdFinds("creative-assistant", agents[4]);
  }

  /** Every catalog agent has exactly one capability, and the tool unions are
      as listed: the general and technical agents grant no tools. */
  lemma CatalogToolUnions()
    ensures forall i :: 0 <= i < |AvailableAgents| ==> |AvailableAgents[i].capabilities| == 1
    ensures ToolUnion(GeneralReasoning) == []
    ensures ToolUnion(TechnicalSpecialist) == []
    ensures ToolUnion(DocumentSpecialist) == ["createDocument", "updateDocument"]
    ensures ToolUnion(ResearchAgent) == ["getWeather"]
    ensures ToolUnion(CreativeAssistant) == ["requestSuggestions"]
  {
  }
}
