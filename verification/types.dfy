/** The records of the multi-agent layer (`types.ts`). Dates are modelled by
    their millisecond value (`getTime()`) as a natural number, generated step
    ids as natural numbers, and the untyped `any` payloads as opaque JSON
    values that are only ever copied or compared. */
module Types {
  import opened Wrappers

  /** An opaque JavaScript value, represented by its JSON text. */
  datatype Json = Json(text: string)

  /** Identifier of a step (a generated UUID in the source). */
  type StepId = nat

  /** Milliseconds of a `Date`. */
  type Timestamp = nat

  datatype AgentCapability = AgentCapability(
    id: string,
    name: string,
    description: string,
    tools: seq<string>,
    expertise: seq<string>)

  datatype Agent = Agent(
    id: string,
    name: string,
    description: string,
    capabilities: seq<AgentCapability>,
    isActive: bool,
    confidence: Option<real>)

  datatype AgentHandoff = AgentHandoff(
    fromAgent: string,
    toAgent: string,
    reason: string,
    timestamp: Timestamp,
    context: Option<Json>)

  /** The four step kinds `'reasoning' | 'tool_call' | 'handoff' | 'completion'`. */
  datatype StepType = Reasoning | ToolCall | Handoff | Completion

  /** Step metadata: the coordinator only ever attaches the tool name and
      arguments of a tool call; anything else is carried opaquely. */
  datatype Metadata = ToolCallMetadata(toolName: string, toolArgs: Json) | OtherMetadata(value: Json)

  datatype AgentStep = AgentStep(
    id: StepId,
    agentId: string,
    stepType: StepType,
    content: string,
    timestamp: Timestamp,
    confidence: Option<real>,
    metadata: Option<Metadata>)

  datatype MultiAgentState = MultiAgentState(
    currentAgent: string,
    availableAgents: seq<Agent>,
    handoffHistory: seq<AgentHandoff>,
    stepHistory: seq<AgentStep>,
    isActive: bool,
    context: Json)

  datatype HandoffDecision = HandoffDecision(
    shouldHandoff: bool,
    targetAgent: Option<string>,
    reason: Option<string>,
    confidence: Option<real>)

  /** The context object `{}` every fresh state starts with. */
  const EmptyContext: Json := Json("{}")
}
