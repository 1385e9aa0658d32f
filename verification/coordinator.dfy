/** `MultiAgentCoordinator` (`coordinator.ts`) as pure state transitions.

    The coordinator value carries the session state together with the
    sources the class draws on: the next fresh step id (standing in for
    `generateUUID`), a clock that advances on every read (standing in for
    `new Date()`), and the log of observer notifications (`onStepUpdate`,
    `onHandoffUpdate`) in the order they were made.

    `processMessage` is split into phases: `Begin` runs everything up to and
    including the `streamText` call, `OnStepFinish` is the step-finish
    observer, and `Settle` is the `then`/`catch` of the returned promise.
    The `await` of the handoff policy inside `Begin` is not a separate
    phase: the policy resolves at once and touches no state, and calls on
    one coordinator do not overlap. The streaming service is abstracted to
    a `StreamRun`: `streamText` itself throws, or it reports a finite
    sequence of step-finish events and then resolves or rejects. */
module Coordinator {
  import opened Wrappers
  import opened Types
  import opened Seqs
  import opened Text
  import opened Agents
  import opened HandoffPolicy

  /** One observer call: a step was appended or a handoff occurred. */
  datatype Notice = StepUpdate(step: AgentStep) | HandoffUpdate(handoff: AgentHandoff)

  datatype MultiAgentCoordinator = MultiAgentCoordinator(
    state: MultiAgentState,
    nextId: StepId,
    clock: Timestamp,
    notices: seq<Notice>)

  /** A step-finish event of the streaming service; only tool-call steps are
      recorded. */
  datatype StepFinishEvent = ToolCallStep(toolName: string, toolArgs: Json) | OtherStep

  /** How the streaming service behaves for one call: `streamText` throws
      when called, or it runs. */
  datatype StreamRun = ThrowsSynchronously | Runs(events: seq<StepFinishEvent>, resolves: bool)

  /** The caller-supplied options the coordinator reads: the base system
      prompt and the optional list of active tool names. */
  datatype StreamOptions = StreamOptions(system: string, activeTools: Option<seq<string>>)

  /** The agent context added to the base system prompt. */
  datatype EnhancedPrompt = EnhancedPrompt(
    base: string,
    agentName: string,
    role: string,
    capabilities: seq<string>,
    recentHandoffs: seq<AgentHandoff>)

  /** What is handed to the streaming service. */
  datatype Delegation = Delegation(activeAgent: Agent, prompt: EnhancedPrompt, activeTools: seq<string>)

  datatype CoordinatorError =
    | NoCurrentAgent             // 'No current agent available'
    | NoActiveAgentAfterHandoff  // 'No active agent available after handoff'
    | StreamThrew                // whatever `streamText` threw, re-thrown

  datatype Started = Started(coordinator: MultiAgentCoordinator, delegation: Result<Delegation, CoordinatorError>)

  /** What the caller of `processMessage` observes. `processMessage` is
      `async`, so each of its own errors (`Threw`) reaches the caller as a
      rejection of the promise it returns; otherwise that promise yields the
      stream, whose own promise resolves or rejects. */
  datatype CallOutcome = Threw(error: CoordinatorError) | Resolved | Rejected

  datatype Processed = Processed(coordinator: MultiAgentCoordinator, outcome: CallOutcome)

  /** Shallow copy returned by `getState`: the scalar fields as they were at
      the time of the call. The two history arrays are shared with the live
      state, which only ever pushes onto them, so a reader of the copy sees
      the live histories (`SnapshotView`). */
  datatype Snapshot = Snapshot(
    currentAgent: string,
    availableAgents: seq<Agent>,
    isActive: bool,
    context: Json)

  // ---------------------------------------------------------------------
  // Invariant of every reachable coordinator

  /** The observer log, restricted to step notifications. */
  function StepsOf(ns: seq<Notice>): seq<AgentStep>
    decreases |ns|
  {
    if |ns| == 0 then []
    else StepsOf(ns[..|ns| - 1]) + (if Last(ns).StepUpdate? then [Last(ns).step] else [])
  }

  /** The observer log, restricted to handoff notifications. */
  function HandoffsOf(ns: seq<Notice>): seq<AgentHandoff>
    decreases |ns|
  {
    if |ns| == 0 then []
    else HandoffsOf(ns[..|ns| - 1]) + (if Last(ns).HandoffUpdate? then [Last(ns).handoff] else [])
  }

  /** The agent named by the latest notification: the step's agent or the
      handoff's target; the default agent before any notification. */
  function LatestNoticed(ns: seq<Notice>): string {
    if |ns| == 0 then DefaultAgentId
    else match Last(ns)
      case StepUpdate(step) => step.agentId
      case HandoffUpdate(handoff) => handoff.toAgent
  }

  /** Each handoff starts where the previous one ended, the first at the
      default agent, and no handoff stays with the same agent. */
  predicate HandoffChain(hs: seq<AgentHandoff>) {
    && (|hs| > 0 ==> hs[0].fromAgent == DefaultAgentId)
    && (forall i :: 0 < i < |hs| ==> hs[i].fromAgent == hs[i - 1].toAgent)
    && (forall i :: 0 <= i < |hs| ==> hs[i].fromAgent != hs[i].toAgent && Known(hs[i].toAgent))
  }

  /** Every step is by a catalog agent, and step ids strictly increase and
      lie below the next id to hand out. */
  predicate StepsWellFormed(steps: seq<AgentStep>, nextId: StepId) {
    && (forall i :: 0 <= i < |steps| ==> Known(steps[i].agentId) && steps[i].id < nextId)
    && (forall i, j :: 0 <= i < j < |steps| ==> steps[i].id < steps[j].id)
  }

  /** The handoffs chain from the default agent to `current`, and their
      timestamps strictly increase and lie before `clock`. */
  predicate HandoffsWellFormed(hs: seq<AgentHandoff>, current: string, clock: Timestamp) {
    && CurrentMatchesHandoffs(current, hs)
    && HandoffChain(hs)
    && (forall i :: 0 <= i < |hs| ==> hs[i].timestamp < clock)
    && (forall i, j :: 0 <= i < j < |hs| ==> hs[i].timestamp < hs[j].timestamp)
  }

  /** What every coordinator reachable from the constructor satisfies: the
      catalog is the static one, the current agent resolves, the histories
      are well formed, and the observers saw exactly the histories, the
      latest notification naming the current agent. */
  ghost predicate Valid(c: MultiAgentCoordinator) {
    var s := c.state;
    && s.availableAgents == AvailableAgents
    && Known(s.currentAgent)
    && StepsWellFormed(s.stepHistory, c.nextId)
    && HandoffsWellFormed(s.handoffHistory, s.currentAgent, c.clock)
    && StepsOf(c.notices) == s.stepHistory
    && HandoffsOf(c.notices) == s.handoffHistory
    && LatestNoticed(c.notices) == s.currentAgent
  }

  // ---------------------------------------------------------------------
  // Construction and projection

  /** The constructor: default agent, empty histories, inactive. */
  function NewCoordinator(): (c: MultiAgentCoordinator)
    ensures Valid(c)
    ensures c.state == MultiAgentState(DefaultAgentId, AvailableAgents, [], [], false, EmptyContext)
    ensures c.notices == []
  {
    DefaultKnown();
    MultiAgentCoordinator(MultiAgentState(DefaultAgentId, AvailableAgents, [], [], false, EmptyContext), 0, 0, [])
  }

  /** `getState`: a shallow copy. Read right away it shows the live state. */
  function GetState(c: MultiAgentCoordinator): (snap: Snapshot)
    ensures SnapshotView(snap, c) == c.state
  {
    Snapshot(c.state.currentAgent, c.state.availableAgents, c.state.isActive, c.state.context)
  }

  /** What a holder of `snap` reads once the coordinator has moved on to
      `live`: the copied scalars and the shared, live history arrays. */
  function SnapshotView(snap: Snapshot, live: MultiAgentCoordinator): MultiAgentState {
    MultiAgentState(snap.currentAgent, snap.availableAgents, live.state.handoffHistory,
                    live.state.stepHistory, snap.isActive, snap.context)
  }

  /** `getCurrentAgent`: the catalog entry of the current agent id. */
  function GetCurrentAgent(c: MultiAgentCoordinator): (r: Option<Agent>)
    ensures r.Some? <==> Known(c.state.currentAgent)
    ensures r.Some? ==> r.value in AvailableAgents && r.value.id == c.state.currentAgent
  {
    GetAgentById(c.state.currentAgent)
  }

  // ---------------------------------------------------------------------
  // Step contents

  /** The message as shown in the first reasoning step: its first 100
      characters, followed by "..." when it is longer. */
  function Preview(message: string): string {
    if |message| > 100 then message[..100] + "..." else message
  }

  /** A message of at most 100 characters is shown whole; a longer one is
      cut to its first 100 characters and marked with "...". */
  lemma PreviewShape(message: string)
    ensures |message| <= 100 ==> Preview(message) == message
    ensures |message| > 100 ==>
      && |Preview(message)| == 103
      && Preview(message)[..100] == message[..100]
      && Preview(message)[100..] == "..."
  {
  }

  function AnalyzingContent(agent: Agent, message: string): string {
    agent.name + " is analyzing the request: \"" + Preview(message) + "\""
  }

  function HandoffContent(from: string, to: string, reason: string): string {
    "Handed off from " + from + " to " + to + ": " + reason
  }

  function ToolsContent(agent: Agent, tools: seq<string>): string {
    agent.name + " has access to tools: " + Join(tools, ", ")
  }

  function ProcessingContent(agent: Agent): string {
    agent.name + " is processing the request with specialized knowledge in: " + Join(ExpertiseUnion(agent), ", ")
  }

  /** The tool arguments appear as their JSON text. */
  function ToolCallContent(agent: Agent, toolName: string, toolArgs: Json): string {
    agent.name + " used tool: " + toolName + " with args: " + toolArgs.text
  }

  function CompletionContent(agent: Agent): string {
    agent.name + " completed processing the request"
  }

  // ---------------------------------------------------------------------
  // State updates

  /** `addStep`: stamps the step with a fresh id and the current time,
      appends it and notifies the step observer; nothing else changes. */
  function AddStep(c: MultiAgentCoordinator, agentId: string, stepType: StepType, content: string,
                   confidence: Option<real>, metadata: Option<Metadata>): (c': MultiAgentCoordinator)
    ensures c'.state.stepHistory
         == c.state.stepHistory + [AgentStep(c.nextId, agentId, stepType, content, c.clock, confidence, metadata)]
    ensures c'.state == c.state.(stepHistory := c'.state.stepHistory)
    ensures c'.nextId > c.nextId && c'.clock > c.clock
    ensures c'.notices == c.notices + [StepUpdate(Last(c'.state.stepHistory))]
  {
    var step := AgentStep(c.nextId, agentId, stepType, content, c.clock, confidence, metadata);
    MultiAgentCoordinator(c.state.(stepHistory := c.state.stepHistory + [step]), c.nextId + 1, c.clock + 1,
                          c.notices + [StepUpdate(step)])
  }

  /** `performHandoff`: makes the target current, records one handoff from
      the previous agent with the given reason, notifies the handoff
      observer, then appends one handoff step by the target with
      confidence 0.9. */
  function PerformHandoff(c: MultiAgentCoordinator, target: string, reason: string): (c': MultiAgentCoordinator)
    ensures c'.state.currentAgent == target
    ensures c'.state.handoffHistory
         == c.state.handoffHistory + [AgentHandoff(c.state.currentAgent, target, reason, c.clock, Some(c.state.context))]
    ensures |c'.state.stepHistory| == |c.state.stepHistory| + 1
    ensures c'.state.stepHistory[..|c.state.stepHistory|] == c.state.stepHistory
    ensures var step := Last(c'.state.stepHistory);
      && step.agentId == target && step.stepType == Handoff && step.confidence == Some(0.9)
      && step.content == HandoffContent(c.state.currentAgent, target, reason)
    ensures c'.state.isActive == c.state.isActive && c'.state.context == c.state.context
    ensures c'.state.availableAgents == c.state.availableAgents
    ensures c'.notices
         == c.notices + [HandoffUpdate(Last(c'.state.handoffHistory)), StepUpdate(Last(c'.state.stepHistory))]
  {
    AddStep(RecordHandoff(c, target, reason), target, Handoff,
            HandoffContent(c.state.currentAgent, target, reason), Some(0.9), None)
  }

  /** The first half of `performHandoff`: the target becomes current, the
      handoff from the previous agent is recorded with the current time and
      context, and the handoff observer is notified. */
  function RecordHandoff(c: MultiAgentCoordinator, target: string, reason: string): (c': MultiAgentCoordinator)
    ensures c'.state.stepHistory == c.state.stepHistory && c'.nextId == c.nextId && c'.clock > c.clock
  {
    var handoff := AgentHandoff(c.state.currentAgent, target, reason, c.clock, Some(c.state.context));
    MultiAgentCoordinator(
      c.state.(currentAgent := target, handoffHistory := c.state.handoffHistory + [handoff]),
      c.nextId, c.clock + 1, c.notices + [HandoffUpdate(handoff)])
  }

  /** `handoffDecision.reason || 'Agent handoff required'`. */
  function ReasonOrDefault(reason: Option<string>): (r: string)
    ensures r != ""
    ensures reason.Some? && reason.value != "" ==> r == reason.value
  {
    match reason
    case Some(text) => if text != "" then text else "Agent handoff required"
    case None => "Agent handoff required"
  }

  /** Acts on a decision: hands off when it names a (non-empty) target. */
  function ApplyDecision(c: MultiAgentCoordinator, d: HandoffDecision): (c': MultiAgentCoordinator)
    ensures c'.state.currentAgent
         == if d.shouldHandoff && d.targetAgent.Some? && d.targetAgent.value != "" then d.targetAgent.value
            else c.state.currentAgent
    ensures c'.state.isActive == c.state.isActive
  {
    if d.shouldHandoff && d.targetAgent.Some? && d.targetAgent.value != "" then
      PerformHandoff(c, d.targetAgent.value, ReasonOrDefault(d.reason))
    else c
  }

  /** The tools passed on to the streaming service: the requested tools the
      agent grants, in request order; every requested tool when the agent
      grants none at all; nothing when no list was requested. */
  function FilterTools(agent: Agent, requested: Option<seq<string>>): (tools: seq<string>)
    ensures requested.None? ==> tools == []
  {
    var granted := ToolUnion(agent);
    match requested
    case None => []
    case Some(names) => Filter(names, (t: string) => t in granted || |granted| == 0)
  }

  /** The requested tools kept by `FilterTools` are exactly those the agent
      grants (all of them when it grants none), each as often as requested,
      in request order. */
  lemma FilterToolsSpec(agent: Agent, names: seq<string>)
    ensures var tools := FilterTools(agent, Some(names));
      var granted := ToolUnion(agent);
      && IsSubsequence(tools, names)
      && (forall t :: t in tools <==> t in names && (t in granted || |granted| == 0))
      && (forall t :: multiset(tools)[t] == (if t in granted || |granted| == 0 then multiset(names)[t] else 0))
      && (|granted| == 0 ==> tools == names)
  {
    var granted := ToolUnion(agent);
    var p := (t: string) => t in granted || |granted| == 0;
    FilterMembers(names, p);
    FilterCounts(names, p);
    FilterKeepsOrder(names, p);
    if |granted| == 0 {
      FilterKeepsAll(names, p);
    }
  }

  /** Appends the tool-listing step only when some tool is available. */
  function AnnounceTools(c: MultiAgentCoordinator, active: Agent, tools: seq<string>): (c': MultiAgentCoordinator)
    ensures |tools| == 0 ==> c' == c
    ensures |tools| > 0 ==>
      && |c'.state.stepHistory| == |c.state.stepHistory| + 1
      && Last(c'.state.stepHistory).stepType == Reasoning
      && Last(c'.state.stepHistory).agentId == active.id
      && Last(c'.state.stepHistory).content == ToolsContent(active, tools)
    ensures c.state.stepHistory <= c'.state.stepHistory
    ensures c'.state == c.state.(stepHistory := c'.state.stepHistory)
  {
    if |tools| > 0 then AddStep(c, active.id, Reasoning, ToolsContent(active, tools), None, None) else c
  }

  /** The prompt context: the agent's name, description, capability names and
      the last (at most) three handoffs, oldest first. */
  function BuildPrompt(system: string, active: Agent, handoffs: seq<AgentHandoff>): (p: EnhancedPrompt)
    ensures |p.recentHandoffs| == if |handoffs| <= 3 then |handoffs| else 3
    ensures handoffs == handoffs[..|handoffs| - |p.recentHandoffs|] + p.recentHandoffs
    ensures p.base == system && p.agentName == active.name && p.role == active.description
    ensures p.capabilities == CapabilityNames(active)
  {
    EnhancedPrompt(system, active.name, active.description, CapabilityNames(active), TakeLast(handoffs, 3))
  }

  // ---------------------------------------------------------------------
  // processMessage

  /** The part of `processMessage` up to the stream: mark active, announce the
      request, evaluate the handoff policy once, filter tools, build the
      prompt, announce processing, and start the stream (`streamThrows`
      says whether `streamText` throws). */
  function Begin(c: MultiAgentCoordinator, message: string, options: StreamOptions, streamThrows: bool): (r: Started)
    ensures streamThrows ==> r.delegation.Failure?
  {
    var c1 := c.(state := c.state.(isActive := true));
    match GetCurrentAgent(c1)
    case None => Started(c1, Failure(NoCurrentAgent))
    case Some(current) => Evaluate(c1, current, message, options, streamThrows)
  }

  /** The rest of `Begin` once the current agent resolved: announce the
      request, decide and perform at most one handoff, then delegate. */
  function Evaluate(c: MultiAgentCoordinator, current: Agent, message: string, options: StreamOptions,
                    streamThrows: bool): (r: Started)
    requires GetAgentById(c.state.currentAgent) == Some(current)
    ensures streamThrows ==> r.delegation.Failure?
  {
    var c2 := AddStep(c, current.id, Reasoning, AnalyzingContent(current, message), None, None);
    var c3 := Consider(c2, current, message);
    match GetCurrentAgent(c3)
    case None => assert false; Started(c3, Failure(NoActiveAgentAfterHandoff))
    case Some(active) => Delegate(c3, active, options, streamThrows)
  }

  /** Asks the policy once and acts on its decision. The current agent stays
      a catalog agent. */
  function Consider(c: MultiAgentCoordinator, current: Agent, message: string): (c': MultiAgentCoordinator)
    requires GetAgentById(c.state.currentAgent) == Some(current)
    ensures Known(c'.state.currentAgent)
    ensures c'.state.currentAgent
         == (var d := ShouldHandoff(message, current, c.state.context);
             if d.shouldHandoff then d.targetAgent.value else current.id)
  {
    var decision := ShouldHandoff(message, current, c.state.context);
    RuleTargetsAreCatalogAgents(message, current, c.state.context);
    ApplyDecision(c, decision)
  }

  /** Tool filtering, prompt construction, the processing step and the
      `streamText` call. */
  function Delegate(c: MultiAgentCoordinator, active: Agent, options: StreamOptions, streamThrows: bool): (r: Started)
    ensures streamThrows ==> r.delegation.Failure?
  {
    var tools := FilterTools(active, options.activeTools);
    var c4 := AnnounceTools(c, active, tools);
    var prompt := BuildPrompt(options.system, active, c4.state.handoffHistory);
    var c5 := AddStep(c4, active.id, Reasoning, ProcessingContent(active), None, None);
    if streamThrows then Started(c5.(state := c5.state.(isActive := false)), Failure(StreamThrew))
    else Started(c5, Success(Delegation(active, prompt, tools)))
  }

  /** A handoff decision of the policy names a catalog agent. */
  lemma RuleTargetsAreCatalogAgents(message: string, current: Agent, context: Json)
    ensures var d := ShouldHandoff(message, current, context);
      d.shouldHandoff ==> Known(d.targetAgent.value)
  {
    var d := ShouldHandoff(message, current, context);
    if d.shouldHandoff {
      FirstFiringRule(message, current, context);
      RuleTargetsKnown();
      var i :| 0 <= i < |Rules| && Fires(Rules[i], Tokenize(message), current.id);
      var k :| 0 <= k <= i && d == Decide(Rules[k]);
      assert Known(Rules[k].target);
    }
  }

  /** The step-finish observer: a tool-call event appends a tool-call step by
      the active agent carrying the tool name and arguments; other events
      change nothing. */
  function OnStepFinish(c: MultiAgentCoordinator, active: Agent, event: StepFinishEvent): (c': MultiAgentCoordinator)
  {
    match event
    case ToolCallStep(name, args) =>
      AddStep(c, active.id, ToolCall, ToolCallContent(active, name, args), None, Some(ToolCallMetadata(name, args)))
    case OtherStep => c
  }

  /** The tool-call events of a run, in order. */
  function ToolCalls(events: seq<StepFinishEvent>): (calls: seq<StepFinishEvent>)
    ensures forall i :: 0 <= i < |calls| ==> calls[i].ToolCallStep?
  {
    Filter(events, (e: StepFinishEvent) => e.ToolCallStep?)
  }

  /** `added` are the steps recording `calls` for the active agent, one per
      call and in the same order. */
  predicate RecordsToolCalls(added: seq<AgentStep>, active: Agent, calls: seq<StepFinishEvent>) {
    && |added| == |calls|
    && forall i :: 0 <= i < |added| ==>
         && calls[i].ToolCallStep?
         && added[i].agentId == active.id
         && added[i].stepType == ToolCall
         && added[i].metadata == Some(ToolCallMetadata(calls[i].toolName, calls[i].toolArgs))
  }

  /** Feeds the step-finish events to the observer in order: one tool-call
      step per tool-call event, in event order; nothing else changes. */
  function ApplyEvents(c: MultiAgentCoordinator, active: Agent, events: seq<StepFinishEvent>): (c': MultiAgentCoordinator)
    ensures c.state.stepHistory <= c'.state.stepHistory
    ensures RecordsToolCalls(c'.state.stepHistory[|c.state.stepHistory|..], active, ToolCalls(events))
    ensures c'.state == c.state.(stepHistory := c'.state.stepHistory)
    ensures c'.nextId >= c.nextId && c'.clock >= c.clock
    ensures c.notices <= c'.notices
    decreases |events|
  {
    if |events| == 0 then c
    else
      var c1 := OnStepFinish(c, active, events[0]);
      var c' := ApplyEvents(c1, active, events[1..]);
      ApplyEventsStep(c, c1, c', active, events);
      c'
  }

  /** The inductive step of `ApplyEvents`: the first event's step (if any)
      followed by the rest's steps records all the tool calls. */
  lemma ApplyEventsStep(c: MultiAgentCoordinator, c1: MultiAgentCoordinator, c': MultiAgentCoordinator,
                        active: Agent, events: seq<StepFinishEvent>)
    requires |events| > 0
    requires c1 == OnStepFinish(c, active, events[0])
    requires c1.state.stepHistory <= c'.state.stepHistory
    requires RecordsToolCalls(c'.state.stepHistory[|c1.state.stepHistory|..], active, ToolCalls(events[1..]))
    ensures RecordsToolCalls(c'.state.stepHistory[|c.state.stepHistory|..], active, ToolCalls(events))
  {
    assert events == [events[0]] + events[1..];
    if events[0].ToolCallStep? {
      assert ToolCalls(events) == [events[0]] + ToolCalls(events[1..]);
      RecordedToolCall(c, c1, c', active, events[0], ToolCalls(events[1..]));
    } else {
      assert ToolCalls(events) == ToolCalls(events[1..]);
    }
  }

  lemma RecordedToolCall(c: MultiAgentCoordinator, c1: MultiAgentCoordinator, c': MultiAgentCoordinator,
                         active: Agent, call: StepFinishEvent, calls: seq<StepFinishEvent>)
    requires call.ToolCallStep?
    requires c1 == OnStepFinish(c, active, call)
    requires c1.state.stepHistory <= c'.state.stepHistory
    requires RecordsToolCalls(c'.state.stepHistory[|c1.state.stepHistory|..], active, calls)
    ensures RecordsToolCalls(c'.state.stepHistory[|c.state.stepHistory|..], active, [call] + calls)
  {
    var n := |c.state.stepHistory|;
    var rest := c'.state.stepHistory[|c1.state.stepHistory|..];
    var step := c1.state.stepHistory[n];
    assert c1.state.stepHistory == c.state.stepHistory + [step];
    assert c'.state.stepHistory == c.state.stepHistory + ([step] + rest);
    DropPrefix(c.state.stepHistory, [step] + rest);
    RecordsToolCallsCons(step, rest, active, call, calls);
  }

  lemma RecordsToolCallsCons(step: AgentStep, rest: seq<AgentStep>, active: Agent,
                             call: StepFinishEvent, calls: seq<StepFinishEvent>)
    requires call.ToolCallStep? && step.agentId == active.id && step.stepType == ToolCall
    requires step.metadata == Some(ToolCallMetadata(call.toolName, call.toolArgs))
    requires RecordsToolCalls(rest, active, calls)
    ensures RecordsToolCalls([step] + rest, active, [call] + calls)
  {
    var added, all := [step] + rest, [call] + calls;
    forall i | 0 <= i < |added|
      ensures all[i].ToolCallStep? && added[i].agentId == active.id && added[i].stepType == ToolCall
      ensures added[i].metadata == Some(ToolCallMetadata(all[i].toolName, all[i].toolArgs))
    {
      if i > 0 {
        assert added[i] == rest[i - 1] && all[i] == calls[i - 1];
      }
    }
  }

  /** The `then`/`catch` of the returned promise: on success a completion
      step is appended and the session becomes inactive; on rejection it
      only becomes inactive. */
  function Settle(c: MultiAgentCoordinator, active: Agent, resolves: bool): (c': MultiAgentCoordinator)
    ensures !c'.state.isActive
    ensures resolves ==> |c'.state.stepHistory| == |c.state.stepHistory| + 1
    ensures resolves ==> c'.state.stepHistory == c.state.stepHistory + [Last(c'.state.stepHistory)]
    ensures resolves ==> Last(c'.state.stepHistory).stepType == Completion && Last(c'.state.stepHistory).agentId == active.id
    ensures !resolves ==> c'.state.stepHistory == c.state.stepHistory
    ensures c'.state.handoffHistory == c.state.handoffHistory && c'.state.currentAgent == c.state.currentAgent
    ensures c.notices <= c'.notices
  {
    if resolves then
      var c1 := AddStep(c, active.id, Completion, CompletionContent(active), None, None);
      c1.(state := c1.state.(isActive := false))
    else c.(state := c.state.(isActive := false))
  }

  /** `processMessage` from entry to the settling of the stream. */
  function ProcessMessage(c: MultiAgentCoordinator, message: string, options: StreamOptions, run: StreamRun): (r: Processed)
  {
    Finish(Begin(c, message, options, run.ThrowsSynchronously?), run)
  }

  /** What follows the start: a failed start rejects the call as is;
      a started stream runs its events and settles. */
  function Finish(started: Started, run: StreamRun): (r: Processed)
    requires started.delegation.Success? ==> run.Runs?
  {
    match started.delegation
    case Failure(e) => Processed(started.coordinator, Threw(e))
    case Success(delegation) =>
      var c1 := ApplyEvents(started.coordinator, delegation.activeAgent, run.events);
      var c2 := Settle(c1, delegation.activeAgent, run.resolves);
      Processed(c2, if run.resolves then Resolved else Rejected)
  }

  // ---------------------------------------------------------------------
  // What each phase of processMessage does

  /** `c'` continues `c`: both histories and the observer log only grew. */
  predicate Extends(c: MultiAgentCoordinator, c': MultiAgentCoordinator) {
    && c.state.stepHistory <= c'.state.stepHistory
    && c.state.handoffHistory <= c'.state.handoffHistory
    && c.notices <= c'.notices
  }

  lemma ExtendsTransitive(c1: MultiAgentCoordinator, c2: MultiAgentCoordinator, c3: MultiAgentCoordinator)
    requires Extends(c1, c2) && Extends(c2, c3)
    ensures Extends(c1, c3)
  {
  }

  lemma AddStepExtends(c: MultiAgentCoordinator, agentId: string, stepType: StepType, content: string,
                       confidence: Option<real>, metadata: Option<Metadata>)
    ensures Extends(c, AddStep(c, agentId, stepType, content, confidence, metadata))
  {
  }

  /** Acting on a decision only appends. */
  lemma ApplyDecisionExtends(c: MultiAgentCoordinator, d: HandoffDecision)
    ensures Extends(c, ApplyDecision(c, d))
  {
    if d.shouldHandoff && d.targetAgent.Some? && d.targetAgent.value != "" {
      var target, reason := d.targetAgent.value, ReasonOrDefault(d.reason);
      var c1 := RecordHandoff(c, target, reason);
      assert Extends(c, c1);
      AddStepExtends(c1, target, Handoff, HandoffContent(c.state.currentAgent, target, reason), Some(0.9), None);
      ExtendsTransitive(c, c1, PerformHandoff(c, target, reason));
    }
  }

  /** Delegation keeps the handoffs and the current agent. The stream is
      started exactly when `streamText` does not throw, for `active`, with
      the filtered tools and the last three handoffs, and the session keeps
      its activity flag; a throw leaves the session inactive. */
  lemma DelegateEffect(c: MultiAgentCoordinator, active: Agent, options: StreamOptions, streamThrows: bool)
    ensures var r := Delegate(c, active, options, streamThrows);
      && Extends(c, r.coordinator)
      && r.coordinator.state.handoffHistory == c.state.handoffHistory
      && r.coordinator.state.currentAgent == c.state.currentAgent
      && (r.delegation.Success? <==> !streamThrows)
      && (r.delegation.Success? ==>
            && r.coordinator.state.isActive == c.state.isActive
            && r.delegation.value.activeAgent == active
            && r.delegation.value.activeTools == FilterTools(active, options.activeTools)
            && r.delegation.value.prompt.recentHandoffs == TakeLast(c.state.handoffHistory, 3))
      && (r.delegation.Failure? ==> r.delegation.error == StreamThrew && !r.coordinator.state.isActive)
  {
    var tools := FilterTools(active, options.activeTools);
    var c4 := AnnounceTools(c, active, tools);
    if |tools| > 0 {
      AddStepExtends(c, active.id, Reasoning, ToolsContent(active, tools), None, None);
    }
    AddStepExtends(c4, active.id, Reasoning, ProcessingContent(active), None, None);
    ExtendsTransitive(c, c4, AddStep(c4, active.id, Reasoning, ProcessingContent(active), None, None));
  }

  /** Once the current agent resolved, the (possibly new) current agent is a
      catalog agent, and the stream is started for it exactly when
      `streamText` does not throw. */
  lemma EvaluateEffect(c: MultiAgentCoordinator, current: Agent, message: string, options: StreamOptions,
                       streamThrows: bool)
    requires GetAgentById(c.state.currentAgent) == Some(current)
    ensures var r := Evaluate(c, current, message, options, streamThrows);
      && Extends(c, r.coordinator)
      && Known(r.coordinator.state.currentAgent)
      && (r.delegation.Success? <==> !streamThrows)
      && (r.delegation.Success? ==>
            && r.coordinator.state.isActive == c.state.isActive
            && r.delegation.value.activeAgent == GetAgentById(r.coordinator.state.currentAgent).value)
      && (r.delegation.Failure? ==> r.delegation.error == StreamThrew && !r.coordinator.state.isActive)
  {
    var c2 := AddStep(c, current.id, Reasoning, AnalyzingContent(current, message), None, None);
    AddStepExtends(c, current.id, Reasoning, AnalyzingContent(current, message), None, None);
    var c3 := Consider(c2, current, message);
    ApplyDecisionExtends(c2, ShouldHandoff(message, current, c2.state.context));
    ExtendsTransitive(c, c2, c3);
    var active := GetCurrentAgent(c3).value;
    DelegateEffect(c3, active, options, streamThrows);
    ExtendsTransitive(c, c3, Delegate(c3, active, options, streamThrows).coordinator);
  }

  /** The start of the call. When the current agent does not resolve, only
      `isActive` is set and the call throws. Otherwise the current agent
      after it is a catalog agent, and the stream is started for it, with
      the session active, exactly when `streamText` does not throw; a throw
      leaves the session inactive. */
  lemma BeginEffect(c: MultiAgentCoordinator, message: string, options: StreamOptions, streamThrows: bool)
    ensures var r := Begin(c, message, options, streamThrows);
      && Extends(c, r.coordinator)
      && (!Known(c.state.currentAgent) ==>
            r == Started(c.(state := c.state.(isActive := true)), Failure(NoCurrentAgent)))
      && (Known(c.state.currentAgent) ==>
            && Known(r.coordinator.state.currentAgent)
            && (r.delegation.Success? <==> !streamThrows)
            && (r.delegation.Success? ==>
                  && r.coordinator.state.isActive
                  && r.delegation.value.activeAgent == GetAgentById(r.coordinator.state.currentAgent).value)
            && (r.delegation.Failure? ==> r.delegation.error == StreamThrew && !r.coordinator.state.isActive))
  {
    var c1 := c.(state := c.state.(isActive := true));
    if Known(c.state.currentAgent) {
      var current := GetCurrentAgent(c1).value;
      EvaluateEffect(c1, current, message, options, streamThrows);
      ExtendsTransitive(c, c1, Evaluate(c1, current, message, options, streamThrows).coordinator);
    }
  }

  /** The running stream only appends. */
  lemma StreamExtends(b: MultiAgentCoordinator, active: Agent, events: seq<StepFinishEvent>, resolves: bool)
    ensures Extends(b, Settle(ApplyEvents(b, active, events), active, resolves))
  {
    var c1 := ApplyEvents(b, active, events);
    assert Extends(b, c1);
    if resolves {
      AddStepExtends(c1, active.id, Completion, CompletionContent(active), None, None);
    }
    ExtendsTransitive(b, c1, Settle(c1, active, resolves));
  }

  /** `processMessage` as its caller sees it. The histories and the observer
      log only grow. The call returns a stream that resolves or rejects as
      the streaming service does, or throws: for want of a current agent,
      or with what `streamText` threw; never for want of an agent after the
      handoff. It ends inactive except when no current agent resolves,
      which throws after `isActive` was set. */
  lemma ProcessMessageOutcome(c: MultiAgentCoordinator, message: string, options: StreamOptions, run: StreamRun)
    ensures var r := ProcessMessage(c, message, options, run);
      && Extends(c, r.coordinator)
      && (r.outcome == Resolved <==> Known(c.state.currentAgent) && run.Runs? && run.resolves)
      && (r.outcome == Rejected <==> Known(c.state.currentAgent) && run.Runs? && !run.resolves)
      && (r.outcome == Threw(NoCurrentAgent) <==> !Known(c.state.currentAgent))
      && (r.outcome == Threw(StreamThrew) <==> Known(c.state.currentAgent) && run.ThrowsSynchronously?)
      && r.outcome != Threw(NoActiveAgentAfterHandoff)
      && (r.outcome == Threw(NoCurrentAgent) ==> r.coordinator.state.isActive)
      && (r.outcome != Threw(NoCurrentAgent) ==> !r.coordinator.state.isActive)
  {
    var started := Begin(c, message, options, run.ThrowsSynchronously?);
    BeginEffect(c, message, options, run.ThrowsSynchronously?);
    if started.delegation.Success? {
      var active := started.delegation.value.activeAgent;
      StreamExtends(started.coordinator, active, run.events, run.resolves);
      ExtendsTransitive(c, started.coordinator, Settle(ApplyEvents(started.coordinator, active, run.events), active, run.resolves));
    }
  }

  // ---------------------------------------------------------------------
  // The invariant is kept by every transition

  lemma NoticesAppend(ns: seq<Notice>, n: Notice)
    ensures StepsOf(ns + [n]) == StepsOf(ns) + (if n.StepUpdate? then [n.step] else [])
    ensures HandoffsOf(ns + [n]) == HandoffsOf(ns) + (if n.HandoffUpdate? then [n.handoff] else [])
  {
    assert (ns + [n])[..|ns|] == ns;
  }

  lemma AddStepValid(c: MultiAgentCoordinator, agentId: string, stepType: StepType, content: string,
                     confidence: Option<real>, metadata: Option<Metadata>)
    requires Valid(c) && agentId == c.state.currentAgent
    ensures Valid(AddStep(c, agentId, stepType, content, confidence, metadata))
  {
    var step := AgentStep(c.nextId, agentId, stepType, content, c.clock, confidence, metadata);
    StepsAppend(c.state.stepHistory, c.nextId, step, c.nextId + 1);
    HandoffsLater(c.state.handoffHistory, c.state.currentAgent, c.clock, c.clock + 1);
    NoticesAppend(c.notices, StepUpdate(step));
  }

  lemma WithActiveValid(c: MultiAgentCoordinator, active: bool)
    requires Valid(c)
    ensures Valid(c.(state := c.state.(isActive := active)))
  {
  }

  lemma PerformHandoffValid(c: MultiAgentCoordinator, target: string, reason: string)
    requires Valid(c) && Known(target) && target != c.state.currentAgent
    ensures Valid(PerformHandoff(c, target, reason))
  {
    RecordHandoffValid(c, target, reason);
    AddStepValid(RecordHandoff(c, target, reason), target, Handoff,
                 HandoffContent(c.state.currentAgent, target, reason), Some(0.9), None);
  }

  lemma RecordHandoffValid(c: MultiAgentCoordinator, target: string, reason: string)
    requires Valid(c) && Known(target) && target != c.state.currentAgent
    ensures Valid(RecordHandoff(c, target, reason))
  {
    var handoff := AgentHandoff(c.state.currentAgent, target, reason, c.clock, Some(c.state.context));
    NoticesAppend(c.notices, HandoffUpdate(handoff));
    HandoffsAppend(c.state.handoffHistory, handoff, c.clock);
  }

  /** Appending a step by a catalog agent with the next id keeps the steps
      well formed. */
  lemma StepsAppend(steps: seq<AgentStep>, nextId: StepId, step: AgentStep, nextId': StepId)
    requires StepsWellFormed(steps, nextId) && Known(step.agentId) && step.id == nextId < nextId'
    ensures StepsWellFormed(steps + [step], nextId')
  {
    var steps' := steps + [step];
    forall i | 0 <= i < |steps'|
      ensures Known(steps'[i].agentId) && steps'[i].id < nextId'
    {
      if i < |steps| {
        assert steps'[i] == steps[i];
      }
    }
    forall i, j | 0 <= i < j < |steps'|
      ensures steps'[i].id < steps'[j].id
    {
      assert steps'[i] == steps[i];
      if j < |steps| {
        assert steps'[j] == steps[j];
      }
    }
  }

  /** A later clock keeps the handoffs well formed. */
  lemma HandoffsLater(hs: seq<AgentHandoff>, current: string, clock: Timestamp, clock': Timestamp)
    requires HandoffsWellFormed(hs, current, clock) && clock <= clock'
    ensures HandoffsWellFormed(hs, current, clock')
  {
  }

  /** Appending a handoff from the current agent to another catalog agent,
      stamped with the clock, keeps the handoffs well formed, with the
      target as the new current agent. */
  lemma HandoffsAppend(hs: seq<AgentHandoff>, h: AgentHandoff, clock: Timestamp)
    requires HandoffsWellFormed(hs, h.fromAgent, clock)
    requires h.fromAgent != h.toAgent && Known(h.toAgent) && h.timestamp == clock
    ensures HandoffsWellFormed(hs + [h], h.toAgent, clock + 1)
  {
    HandoffChainAppend(hs, h);
    TimestampsAppend(hs, h, clock);
  }

  lemma HandoffChainAppend(hs: seq<AgentHandoff>, h: AgentHandoff)
    requires HandoffChain(hs) && CurrentMatchesHandoffs(h.fromAgent, hs)
    requires h.fromAgent != h.toAgent && Known(h.toAgent)
    ensures HandoffChain(hs + [h])
  {
    var hs' := hs + [h];
    forall i | 0 <= i < |hs'|
      ensures hs'[i].fromAgent != hs'[i].toAgent && Known(hs'[i].toAgent)
    {
      if i < |hs| {
        assert hs'[i] == hs[i];
      }
    }
  }

  lemma TimestampsAppend(hs: seq<AgentHandoff>, h: AgentHandoff, clock: Timestamp)
    requires forall i, j :: 0 <= i < j < |hs| ==> hs[i].timestamp < hs[j].timestamp
    requires forall i :: 0 <= i < |hs| ==> hs[i].timestamp < clock
    requires h.timestamp == clock
    ensures var hs' := hs + [h];
      && (forall i, j :: 0 <= i < j < |hs'| ==> hs'[i].timestamp < hs'[j].timestamp)
      && (forall i :: 0 <= i < |hs'| ==> hs'[i].timestamp < clock + 1)
  {
    var hs' := hs + [h];
    forall i, j | 0 <= i < j < |hs'|
      ensures hs'[i].timestamp < hs'[j].timestamp
    {
      assert hs'[i] == hs[i];
      if j < |hs| {
        assert hs'[j] == hs[j];
      }
    }
  }

  lemma ConsiderValid(c: MultiAgentCoordinator, current: Agent, message: string)
    requires Valid(c) && GetAgentById(c.state.currentAgent) == Some(current)
    ensures Valid(Consider(c, current, message))
  {
    var d := ShouldHandoff(message, current, c.state.context);
    RuleTargetsAreCatalogAgents(message, current, c.state.context);
    if d.shouldHandoff && d.targetAgent.Some? && d.targetAgent.value != "" {
      PerformHandoffValid(c, d.targetAgent.value, ReasonOrDefault(d.reason));
    }
  }

  lemma DelegateValid(c: MultiAgentCoordinator, active: Agent, options: StreamOptions, streamThrows: bool)
    requires Valid(c) && active.id == c.state.currentAgent
    ensures Valid(Delegate(c, active, options, streamThrows).coordinator)
  {
    var tools := FilterTools(active, options.activeTools);
    var c4 := AnnounceTools(c, active, tools);
    if |tools| > 0 {
      AddStepValid(c, active.id, Reasoning, ToolsContent(active, tools), None, None);
    }
    AddStepValid(c4, active.id, Reasoning, ProcessingContent(active), None, None);
    var c5 := AddStep(c4, active.id, Reasoning, ProcessingContent(active), None, None);
    WithActiveValid(c5, false);
  }

  lemma BeginValid(c: MultiAgentCoordinator, message: string, options: StreamOptions, streamThrows: bool)
    requires Valid(c)
    ensures Valid(Begin(c, message, options, streamThrows).coordinator)
  {
    var c1 := c.(state := c.state.(isActive := true));
    WithActiveValid(c, true);
    EvaluateValid(c1, GetCurrentAgent(c1).value, message, options, streamThrows);
  }

  lemma EvaluateValid(c: MultiAgentCoordinator, current: Agent, message: string, options: StreamOptions,
                      streamThrows: bool)
    requires Valid(c) && GetAgentById(c.state.currentAgent) == Some(current)
    ensures Valid(Evaluate(c, current, message, options, streamThrows).coordinator)
  {
    var c2 := AddStep(c, current.id, Reasoning, AnalyzingContent(current, message), None, None);
    AnnounceAndConsiderValid(c, current, message);
    var c3 := Consider(c2, current, message);
    DelegateValid(c3, GetCurrentAgent(c3).value, options, streamThrows);
  }

  lemma AnnounceAndConsiderValid(c: MultiAgentCoordinator, current: Agent, message: string)
    requires Valid(c) && GetAgentById(c.state.currentAgent) == Some(current)
    ensures Valid(Consider(AddStep(c, current.id, Reasoning, AnalyzingContent(current, message), None, None),
                           current, message))
  {
    AddStepValid(c, current.id, Reasoning, AnalyzingContent(current, message), None, None);
    ConsiderValid(AddStep(c, current.id, Reasoning, AnalyzingContent(current, message), None, None), current, message);
  }

  lemma {:induction false} ApplyEventsValid(c: MultiAgentCoordinator, active: Agent, events: seq<StepFinishEvent>)
    requires Valid(c) && active.id == c.state.currentAgent
    ensures Valid(ApplyEvents(c, active, events))
    decreases |events|
  {
    if |events| > 0 {
      var c1 := OnStepFinish(c, active, events[0]);
      if events[0].ToolCallStep? {
        var name, args := events[0].toolName, events[0].toolArgs;
        AddStepValid(c, active.id, ToolCall, ToolCallContent(active, name, args), None, Some(ToolCallMetadata(name, args)));
      }
      ApplyEventsValid(c1, active, events[1..]);
    }
  }

  lemma SettleValid(c: MultiAgentCoordinator, active: Agent, resolves: bool)
    requires Valid(c) && active.id == c.state.currentAgent
    ensures Valid(Settle(c, active, resolves))
  {
    if resolves {
      AddStepValid(c, active.id, Completion, CompletionContent(active), None, None);
      WithActiveValid(AddStep(c, active.id, Completion, CompletionContent(active), None, None), false);
    } else {
      WithActiveValid(c, false);
    }
  }

  /** Every coordinator reachable from the constructor by `processMessage`
      calls satisfies `Valid`: the current agent resolves, it is the target
      of the last handoff (or the default), handoffs chain, step ids are
      fresh and increasing, and the observers saw exactly the histories. */
  lemma ProcessMessageValid(c: MultiAgentCoordinator, message: string, options: StreamOptions, run: StreamRun)
    requires Valid(c)
    ensures Valid(ProcessMessage(c, message, options, run).coordinator)
  {
    BeginValid(c, message, options, run.ThrowsSynchronously?);
    var started := Begin(c, message, options, run.ThrowsSynchronously?);
    if started.delegation.Success? {
      var active := started.delegation.value.activeAgent;
      BeginEffect(c, message, options, false);
      ApplyEventsValid(started.coordinator, active, run.events);
      SettleValid(ApplyEvents(started.coordinator, active, run.events), active, run.resolves);
    }
  }

  // ---------------------------------------------------------------------
  // The steps of one processMessage call

  /** What acting on the decision `d` appended going from `c` to `c'`: one
      handoff record and one handoff step by the target, with confidence
      0.9, when the policy fired; nothing otherwise. */
  predicate ConsiderShape(c: MultiAgentCoordinator, c': MultiAgentCoordinator, current: Agent, d: HandoffDecision) {
    && c.state.stepHistory <= c'.state.stepHistory
    && c.state.handoffHistory <= c'.state.handoffHistory
    && |c'.state.stepHistory| == |c.state.stepHistory| + (if d.shouldHandoff then 1 else 0)
    && |c'.state.handoffHistory| == |c.state.handoffHistory| + (if d.shouldHandoff then 1 else 0)
    && (d.shouldHandoff ==>
          && d.targetAgent.Some? && d.reason.Some?
          && Last(c'.state.stepHistory).stepType == Handoff
          && Last(c'.state.stepHistory).agentId == d.targetAgent.value
          && Last(c'.state.stepHistory).confidence == Some(0.9)
          && Last(c'.state.handoffHistory)
             == AgentHandoff(current.id, d.targetAgent.value, d.reason.value, c.clock, Some(c.state.context)))
  }

  /** Asking the policy records at most one handoff. */
  lemma ConsiderSteps(c: MultiAgentCoordinator, current: Agent, message: string)
    requires GetAgentById(c.state.currentAgent) == Some(current)
    ensures ConsiderShape(c, Consider(c, current, message), current, ShouldHandoff(message, current, c.state.context))
  {
  }

  /** The steps appended before delegation, in order: a reasoning step by
      the original agent; a handoff step by the new agent when a handoff
      happened; a tool-listing step when tools survived filtering; a
      processing step. Every step after the first is by the active agent. */
  predicate PreDelegationShape(added: seq<AgentStep>, originalId: string, activeId: string,
                               handedOff: bool, listsTools: bool)
  {
    && |added| == 2 + (if handedOff then 1 else 0) + (if listsTools then 1 else 0)
    && added[0].agentId == originalId && added[0].stepType == Reasoning
    && (handedOff ==> added[1].agentId == activeId && added[1].stepType == Handoff)
    && forall i :: (if handedOff then 2 else 1) <= i < |added| ==>
         added[i].agentId == activeId && added[i].stepType == Reasoning
  }

  /** What delegation appended to the steps `before`, giving `after`: the
      tool-listing step when `tools` is not empty, then the processing step,
      both reasoning steps by the active agent. */
  predicate DelegateShape(before: seq<AgentStep>, after: seq<AgentStep>, active: Agent, tools: seq<string>) {
    var n := |before|;
    && before <= after
    && |after| == n + (if |tools| > 0 then 2 else 1)
    && (forall i :: n <= i < |after| ==> after[i].agentId == active.id && after[i].stepType == Reasoning)
    && Last(after).content == ProcessingContent(active)
    && (|tools| > 0 ==> after[n].content == ToolsContent(active, tools))
  }

  /** The part appended by `Delegate`. */
  lemma DelegateSteps(c: MultiAgentCoordinator, active: Agent, options: StreamOptions, streamThrows: bool)
    ensures DelegateShape(c.state.stepHistory, Delegate(c, active, options, streamThrows).coordinator.state.stepHistory,
                          active, FilterTools(active, options.activeTools))
  {
    var tools := FilterTools(active, options.activeTools);
    AnnouncedSteps(c, active, tools);
  }

  /** The tool-listing (if any) and processing steps, for given tools. */
  lemma AnnouncedSteps(c: MultiAgentCoordinator, active: Agent, tools: seq<string>)
    ensures var c5 := AddStep(AnnounceTools(c, active, tools), active.id, Reasoning, ProcessingContent(active), None, None);
      DelegateShape(c.state.stepHistory, c5.state.stepHistory, active, tools)
  {
    var c4 := AnnounceTools(c, active, tools);
    var last := AgentStep(c4.nextId, active.id, Reasoning, ProcessingContent(active), c4.clock, None, None);
    if |tools| > 0 {
      var first := AgentStep(c.nextId, active.id, Reasoning, ToolsContent(active, tools), c.clock, None, None);
      assert c4.state.stepHistory + [last] == c.state.stepHistory + [first, last];
      ReasoningAppended(c.state.stepHistory, [first, last], active, tools);
    } else {
      ReasoningAppended(c.state.stepHistory, [last], active, tools);
    }
  }

  lemma ReasoningAppended(before: seq<AgentStep>, added: seq<AgentStep>, active: Agent, tools: seq<string>)
    requires |added| == (if |tools| > 0 then 2 else 1)
    requires forall i :: 0 <= i < |added| ==> added[i].agentId == active.id && added[i].stepType == Reasoning
    requires Last(added).content == ProcessingContent(active)
    requires |tools| > 0 ==> added[0].content == ToolsContent(active, tools)
    ensures DelegateShape(before, before + added, active, tools)
  {
    var after := before + added;
    forall i | |before| <= i < |after|
      ensures after[i].agentId == active.id && after[i].stepType == Reasoning
    {
      assert after[i] == added[i - |before|];
    }
    assert Last(after) == Last(added);
  }

  /** The three phases before the stream starts put together: the
      announcement, acting on the decision, and delegation. */
  lemma ComposePhases(steps: seq<AgentStep>, handoffs: seq<AgentHandoff>, c2: MultiAgentCoordinator,
                      c3: MultiAgentCoordinator, r: MultiAgentCoordinator, current: Agent, active: Agent,
                      message: string, d: HandoffDecision, options: StreamOptions)
    requires steps <= c2.state.stepHistory && |c2.state.stepHistory| == |steps| + 1
    requires var first := c2.state.stepHistory[|steps|];
      first.agentId == current.id && first.stepType == Reasoning && first.content == AnalyzingContent(current, message)
    requires c2.state.handoffHistory == handoffs
    requires ConsiderShape(c2, c3, current, d)
    requires c3.state.currentAgent == (if d.shouldHandoff then d.targetAgent.value else current.id)
    requires Known(c3.state.currentAgent) && active == GetAgentById(c3.state.currentAgent).value
    requires DelegateShape(c3.state.stepHistory, r.state.stepHistory, active, FilterTools(active, options.activeTools))
    requires r.state.currentAgent == c3.state.currentAgent && r.state.handoffHistory == c3.state.handoffHistory
    ensures PreDelegation(steps, handoffs, r, current, message, d, options)
  {
    ComposeSteps(steps, c2.state.stepHistory, c3.state.stepHistory, r.state.stepHistory, current, active,
                 d.shouldHandoff, FilterTools(active, options.activeTools), AnalyzingContent(current, message));
  }

  /** The step histories of the three phases put together. */
  lemma ComposeSteps(h0: seq<AgentStep>, h2: seq<AgentStep>, h3: seq<AgentStep>, h4: seq<AgentStep>,
                     current: Agent, active: Agent, handedOff: bool, tools: seq<string>, firstContent: string)
    requires h0 <= h2 && |h2| == |h0| + 1
    requires h2[|h0|].agentId == current.id && h2[|h0|].stepType == Reasoning && h2[|h0|].content == firstContent
    requires h2 <= h3 && |h3| == |h2| + (if handedOff then 1 else 0)
    requires handedOff ==> Last(h3).agentId == active.id && Last(h3).stepType == Handoff
    requires DelegateShape(h3, h4, active, tools)
    ensures h0 <= h4
    ensures var added := h4[|h0|..];
      && PreDelegationShape(added, current.id, active.id, handedOff, |tools| > 0)
      && added[0].content == firstContent
      && Last(added).content == ProcessingContent(active)
  {
    ExtensionParts(h0, h2, h3, h4);
    var handoffPart, delegatePart := h3[|h2|..], h4[|h3|..];
    if handedOff {
      assert handoffPart[0] == Last(h3);
    }
    forall i | 0 <= i < |delegatePart|
      ensures delegatePart[i].agentId == active.id && delegatePart[i].stepType == Reasoning
    {
      assert delegatePart[i] == h4[|h3| + i];
    }
    ShapeCompose(h2[|h0|], handoffPart, delegatePart, current.id, active.id, handedOff, |tools| > 0);
    var added := h4[|h0|..];
    assert added[0] == h2[|h0|];
    assert Last(added) == Last(h4);
  }

  lemma ShapeCompose(first: AgentStep, handoffPart: seq<AgentStep>, delegatePart: seq<AgentStep>,
                     originalId: string, activeId: string, handedOff: bool, listsTools: bool)
    requires first.agentId == originalId && first.stepType == Reasoning
    requires |handoffPart| == (if handedOff then 1 else 0)
    requires handedOff ==> handoffPart[0].agentId == activeId && handoffPart[0].stepType == Handoff
    requires |delegatePart| == (if listsTools then 2 else 1)
    requires forall i :: 0 <= i < |delegatePart| ==>
      delegatePart[i].agentId == activeId && delegatePart[i].stepType == Reasoning
    ensures PreDelegationShape([first] + handoffPart + delegatePart, originalId, activeId, handedOff, listsTools)
  {
    var added := [first] + handoffPart + delegatePart;
    var k := if handedOff then 2 else 1;
    forall i | k <= i < |added|
      ensures added[i].agentId == activeId && added[i].stepType == Reasoning
    {
      assert added[i] == delegatePart[i - k];
    }
  }

  /** What the start of the call appends to the histories `steps` and
      `handoffs` it started from, ending in `r`, when the policy decided `d`:
      the current agent becomes the decision's target (or stays), and the
      steps follow `PreDelegationShape`, the first announcing the message
      preview and the last the active agent's expertise, with one handoff
      record exactly when the policy fired. */
  predicate PreDelegation(steps: seq<AgentStep>, handoffs: seq<AgentHandoff>, r: MultiAgentCoordinator,
                          current: Agent, message: string, d: HandoffDecision, options: StreamOptions)
  {
    var activeId := r.state.currentAgent;
    && (d.shouldHandoff ==> d.targetAgent.Some?)
    && activeId == (if d.shouldHandoff then d.targetAgent.value else current.id)
    && Known(activeId)
    && var active := GetAgentById(activeId).value;
    && var tools := FilterTools(active, options.activeTools);
    && steps <= r.state.stepHistory
    && var added := r.state.stepHistory[|steps|..];
    && PreDelegationShape(added, current.id, activeId, d.shouldHandoff, |tools| > 0)
    && added[0].content == AnalyzingContent(current, message)
    && Last(added).content == ProcessingContent(active)
    && |r.state.handoffHistory| == |handoffs| + (if d.shouldHandoff then 1 else 0)
  }

  /** Before delegating, `processMessage` appends the steps of
      `PreDelegation`: the policy is asked once, so there is at most one
      handoff step, and it is the second step. */
  lemma BeginStepOrder(c: MultiAgentCoordinator, message: string, options: StreamOptions, streamThrows: bool)
    requires Known(c.state.currentAgent)
    ensures var current := GetAgentById(c.state.currentAgent).value;
      PreDelegation(c.state.stepHistory, c.state.handoffHistory, Begin(c, message, options, streamThrows).coordinator,
                    current, message, ShouldHandoff(message, current, c.state.context), options)
  {
    var c1 := c.(state := c.state.(isActive := true));
    var current := GetCurrentAgent(c1).value;
    EvaluateStepOrder(c1, current, message, options, streamThrows);
  }

  /** `BeginStepOrder` for the part after the current agent resolved. */
  lemma EvaluateStepOrder(c: MultiAgentCoordinator, current: Agent, message: string, options: StreamOptions,
                          streamThrows: bool)
    requires GetAgentById(c.state.currentAgent) == Some(current)
    ensures PreDelegation(c.state.stepHistory, c.state.handoffHistory,
                          Evaluate(c, current, message, options, streamThrows).coordinator,
                          current, message, ShouldHandoff(message, current, c.state.context), options)
  {
    var d := ShouldHandoff(message, current, c.state.context);
    var c2 := AddStep(c, current.id, Reasoning, AnalyzingContent(current, message), None, None);
    var c3 := Consider(c2, current, message);
    ConsiderSteps(c2, current, message);
    var active := GetCurrentAgent(c3).value;
    var r := Delegate(c3, active, options, streamThrows);
    assert Evaluate(c, current, message, options, streamThrows) == r;
    DelegateSteps(c3, active, options, streamThrows);
    DelegateEffect(c3, active, options, streamThrows);
    ComposePhases(c.state.stepHistory, c.state.handoffHistory, c2, c3, r.coordinator, current, active, message, d, options);
  }

  // ---------------------------------------------------------------------
  // After delegation

  /** While the stream runs, the session stays active: after any prefix of
      the step-finish events the coordinator is still marked active. */
  lemma ActiveWhileStreaming(c: MultiAgentCoordinator, message: string, options: StreamOptions,
                             events: seq<StepFinishEvent>, k: nat)
    requires Known(c.state.currentAgent) && k <= |events|
    ensures var b := Begin(c, message, options, false);
      && b.delegation.Success?
      && ApplyEvents(b.coordinator, b.delegation.value.activeAgent, events[..k]).state.isActive
  {
    BeginEffect(c, message, options, false);
  }

  /** No current agent: `processMessage` throws after setting `isActive`,
      and nothing else changes. */
  lemma MissingAgentKeepsActive(c: MultiAgentCoordinator, message: string, options: StreamOptions, run: StreamRun)
    requires !Known(c.state.currentAgent)
    ensures ProcessMessage(c, message, options, run)
         == Processed(c.(state := c.state.(isActive := true)), Threw(NoCurrentAgent))
  {
  }

  /** A throw of `streamText` itself: the call ends inactive, with the
      steps appended up to the throw and no others. */
  lemma StreamThrowEndsInactive(c: MultiAgentCoordinator, message: string, options: StreamOptions)
    requires Known(c.state.currentAgent)
    ensures var b := Begin(c, message, options, true).coordinator;
      && ProcessMessage(c, message, options, ThrowsSynchronously) == Processed(b, Threw(StreamThrew))
      && !b.state.isActive
      && forall i :: |c.state.stepHistory| <= i < |b.state.stepHistory| ==> b.state.stepHistory[i].stepType != Completion
  {
    BeginEffect(c, message, options, true);
    BeginAddsNoCompletion(c, message, options, true);
  }

  /** How a call ends once the stream runs: the handoffs and current agent
      stay as delegation left them, the current agent is a catalog agent,
      and the session ends inactive. */
  lemma ProcessMessageEndState(c: MultiAgentCoordinator, message: string, options: StreamOptions,
                               events: seq<StepFinishEvent>, resolves: bool)
    requires Known(c.state.currentAgent)
    ensures var r := ProcessMessage(c, message, options, Runs(events, resolves)).coordinator;
      var b := Begin(c, message, options, false).coordinator;
      && r.state.handoffHistory == b.state.handoffHistory
      && r.state.currentAgent == b.state.currentAgent
      && Known(r.state.currentAgent)
      && !r.state.isActive
  {
    BeginEffect(c, message, options, false);
    ProcessMessageRuns(c, message, options, events, resolves);
  }

  /** The steps the running stream leaves after `before`: one tool-call
      step by the active agent per tool-call event, in order, then a
      completion step by the active agent exactly when the stream resolves;
      from index `m` on, that completion is the only one. */
  predicate StreamSteps(before: seq<AgentStep>, steps: seq<AgentStep>, active: Agent,
                        calls: seq<StepFinishEvent>, resolves: bool, m: nat)
  {
    && before <= steps
    && |steps| == |before| + |calls| + (if resolves then 1 else 0)
    && RecordsToolCalls(steps[|before|..|before| + |calls|], active, calls)
    && (resolves ==> Last(steps).stepType == Completion && Last(steps).agentId == active.id)
    && forall i :: m <= i < |steps| && steps[i].stepType == Completion ==> resolves && i == |steps| - 1
  }

  /** The steps of a call once the stream runs: those of `StreamSteps` after
      the delegation to the current agent, with no completion step anywhere
      else in the call. */
  lemma ProcessMessageLifecycle(c: MultiAgentCoordinator, message: string, options: StreamOptions,
                                events: seq<StepFinishEvent>, resolves: bool)
    requires Known(c.state.currentAgent)
    ensures var started := Begin(c, message, options, false);
      && started.delegation.Success?
      && var active := started.delegation.value.activeAgent;
      && active == GetAgentById(started.coordinator.state.currentAgent).value
      && StreamSteps(started.coordinator.state.stepHistory,
                     ProcessMessage(c, message, options, Runs(events, resolves)).coordinator.state.stepHistory,
                     active, ToolCalls(events), resolves, |c.state.stepHistory|)
  {
    var started := Begin(c, message, options, false);
    BeginEffect(c, message, options, false);
    BeginAddsNoCompletion(c, message, options, false);
    RunSteps(started.coordinator, started.delegation.value.activeAgent, events, resolves, |c.state.stepHistory|);
    ProcessMessageRuns(c, message, options, events, resolves);
  }

  /** Once the stream runs, `processMessage` is delegation followed by the
      step-finish observer over the events and the settling of the stream. */
  lemma ProcessMessageRuns(c: MultiAgentCoordinator, message: string, options: StreamOptions,
                           events: seq<StepFinishEvent>, resolves: bool)
    requires Known(c.state.currentAgent)
    ensures var started := Begin(c, message, options, false);
      && started.delegation.Success?
      && ProcessMessage(c, message, options, Runs(events, resolves)).coordinator
         == Settle(ApplyEvents(started.coordinator, started.delegation.value.activeAgent, events),
                   started.delegation.value.activeAgent, resolves)
  {
    BeginEffect(c, message, options, false);
  }

  /** None of the steps appended before the stream starts is a completion. */
  lemma BeginAddsNoCompletion(c: MultiAgentCoordinator, message: string, options: StreamOptions, streamThrows: bool)
    requires Known(c.state.currentAgent)
    ensures var steps := Begin(c, message, options, streamThrows).coordinator.state.stepHistory;
      forall i :: |c.state.stepHistory| <= i < |steps| ==> steps[i].stepType != Completion
  {
    var r := Begin(c, message, options, streamThrows);
    var current := GetAgentById(c.state.currentAgent).value;
    BeginStepOrder(c, message, options, streamThrows);
    PreDelegationHasNoCompletion(c.state.stepHistory, c.state.handoffHistory, r.coordinator, current, message,
                                 ShouldHandoff(message, current, c.state.context), options);
  }

  lemma PreDelegationHasNoCompletion(steps: seq<AgentStep>, handoffs: seq<AgentHandoff>, r: MultiAgentCoordinator,
                                     current: Agent, message: string, d: HandoffDecision, options: StreamOptions)
    requires PreDelegation(steps, handoffs, r, current, message, d, options)
    ensures forall i :: |steps| <= i < |r.state.stepHistory| ==> r.state.stepHistory[i].stepType != Completion
  {
    var activeId := r.state.currentAgent;
    var tools := FilterTools(GetAgentById(activeId).value, options.activeTools);
    var added := r.state.stepHistory[|steps|..];
    ShapeHasNoCompletion(added, current.id, activeId, d.shouldHandoff, |tools| > 0);
    forall i | |steps| <= i < |r.state.stepHistory|
      ensures r.state.stepHistory[i].stepType != Completion
    {
      assert r.state.stepHistory[i] == added[i - |steps|];
    }
  }

  lemma ShapeHasNoCompletion(added: seq<AgentStep>, originalId: string, activeId: string,
                             handedOff: bool, listsTools: bool)
    requires PreDelegationShape(added, originalId, activeId, handedOff, listsTools)
    ensures forall i :: 0 <= i < |added| ==> added[i].stepType != Completion
  {
  }

  /** The steps the running stream appends: one tool-call step per tool-call
      event, then a completion step exactly when it resolves. When no step
      from `m` on was a completion before, the only completion from `m` on is
      the last step. */
  lemma RunSteps(b: MultiAgentCoordinator, active: Agent, events: seq<StepFinishEvent>, resolves: bool, m: nat)
    requires m <= |b.state.stepHistory|
    requires forall i :: m <= i < |b.state.stepHistory| ==> b.state.stepHistory[i].stepType != Completion
    ensures StreamSteps(b.state.stepHistory, Settle(ApplyEvents(b, active, events), active, resolves).state.stepHistory,
                        active, ToolCalls(events), resolves, m)
  {
    var calls := ToolCalls(events);
    var c1 := ApplyEvents(b, active, events);
    var steps := Settle(c1, active, resolves).state.stepHistory;
    var n := |b.state.stepHistory|;
    var added := c1.state.stepHistory[n..];
    var tail := steps[|c1.state.stepHistory|..];
    PrefixSplit(b.state.stepHistory, c1.state.stepHistory);
    PrefixSplit(c1.state.stepHistory, steps);
    assert steps[n..n + |calls|] == added;
    CompletionOnlyAtEnd(b.state.stepHistory, added, tail, m);
  }

  /** Appending tool-call steps and at most one more step to a history with
      no completion from `m` on leaves only the last step as a possible
      completion from `m` on. */
  lemma CompletionOnlyAtEnd(before: seq<AgentStep>, added: seq<AgentStep>, tail: seq<AgentStep>, m: nat)
    requires m <= |before| && |tail| <= 1
    requires forall i :: m <= i < |before| ==> before[i].stepType != Completion
    requires forall i :: 0 <= i < |added| ==> added[i].stepType == ToolCall
    ensures var all := before + added + tail;
      forall i :: m <= i < |all| && all[i].stepType == Completion ==> |tail| == 1 && i == |all| - 1
  {
  }

  /** `getState` copies shallowly: a snapshot taken before a call shows the
      steps and handoffs appended by the call (the arrays are shared) but the
      current agent and activity flag of the time it was taken. The sharing
      itself is modelled by `SnapshotView`, not derived; what this lemma adds
      is that the call only appends to the histories the snapshot shares. */
  lemma SnapshotIsShallow(c: MultiAgentCoordinator, message: string, options: StreamOptions, run: StreamRun)
    ensures var snap := GetState(c);
      var after := ProcessMessage(c, message, options, run).coordinator;
      var view := SnapshotView(snap, after);
      && view.stepHistory == after.state.stepHistory
      && view.handoffHistory == after.state.handoffHistory
      && c.state.stepHistory <= view.stepHistory
      && view.isActive == c.state.isActive
      && view.currentAgent == c.state.currentAgent
  {
    ProcessMessageOutcome(c, message, options, run);
  }
}
