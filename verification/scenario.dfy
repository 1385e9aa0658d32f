/** One complete `processMessage` call on a fresh coordinator: a weather
    request from the default agent is handed to the research agent, which
    may only use the weather tool, calls it once, and completes. */
module Scenario {
  import opened Wrappers
  import opened Types
  import opened Seqs
  import opened Text
  import opened Agents
  import opened HandoffPolicy
  import opened Coordinator

  /** The message of the call: it names the research keywords "research" and
      "weather" in mixed case. */
  const Question: string := "Research the WEATHER"

  /** The tools a chat route typically offers. */
  const OfferedTools: seq<string> := ["createDocument", "getWeather"]

  /** The step kinds of a history, in order. */
  function Kinds(steps: seq<AgentStep>): (kinds: seq<StepType>)
    ensures |kinds| == |steps|
    ensures forall i :: 0 <= i < |steps| ==> kinds[i] == steps[i].stepType
  {
    seq(|steps|, i requires 0 <= i < |steps| => steps[i].stepType)
  }

  /** Of the offered tools, the research agent keeps only the weather tool. */
  lemma ResearchKeepsWeatherTool(requested: seq<string>)
    requires requested == OfferedTools
    ensures FilterTools(ResearchAgent, Some(requested)) == ["getWeather"]
  {
    CatalogToolUnions();
    var tools := FilterTools(ResearchAgent, Some(requested));
    assert "createDocument" !in tools;
    assert "getWeather" in tools;
    assert multiset(tools)["getWeather"] == 1;
    assert multiset(tools) == multiset{"getWeather"} by {
      forall t ensures multiset(tools)[t] == multiset{"getWeather"}[t] {
        if t != "getWeather" && t != "createDocument" {
          assert t !in requested;
        }
      }
    }
    assert |tools| == 1;
    assert tools[0] in tools;
  }

  /** The whole call on the example question. */
  lemma WeatherQuestion(message: string, options: StreamOptions, args: Json)
    requires message == Question && options.activeTools == Some(OfferedTools)
    ensures var r := ProcessMessage(NewCoordinator(), message, options, Runs([ToolCallStep("getWeather", args)], true));
      var steps := r.coordinator.state.stepHistory;
      && r.outcome == Resolved
      && r.coordinator.state.currentAgent == ResearchAgent.id
      && |r.coordinator.state.handoffHistory| == 1
      && r.coordinator.state.handoffHistory[0].fromAgent == DefaultAgentId
      && r.coordinator.state.handoffHistory[0].toAgent == ResearchAgent.id
      && r.coordinator.state.handoffHistory[0].reason == "Task requires research and information gathering"
      && Kinds(steps) == [Reasoning, Handoff, Reasoning, Reasoning, ToolCall, Completion]
      && steps[0].agentId == DefaultAgentId
      && (forall i :: 1 <= i < |steps| ==> steps[i].agentId == ResearchAgent.id)
      && steps[4].metadata == Some(ToolCallMetadata("getWeather", args))
      && !r.coordinator.state.isActive
  {
    CaseInsensitiveExample(message, EmptyContext);
    ResearchKeepsWeatherTool(OfferedTools);
    var events := [ToolCallStep("getWeather", args)];
    assert ToolCalls(events) == events;
    ResearchCallEnd(NewCoordinator(), message, options, events);
    ResearchCallSteps(NewCoordinator(), message, options, events, args);
  }

  /** How the call ends, for any message the research rule decides on from
      the default agent and any tool list of which the research agent keeps
      only the weather tool: resolved, inactive, with the research agent
      current after one recorded handoff from the default agent. */
  lemma ResearchCallEnd(c: MultiAgentCoordinator, message: string, options: StreamOptions,
                        events: seq<StepFinishEvent>)
    requires c.state.currentAgent == DefaultAgentId && c.state.stepHistory == [] && c.state.handoffHistory == []
    requires ShouldHandoff(message, GeneralReasoning, c.state.context) == Decide(ResearchRule)
    requires FilterTools(ResearchAgent, options.activeTools) == ["getWeather"]
    ensures var r := ProcessMessage(c, message, options, Runs(events, true));
      && r.outcome == Resolved
      && r.coordinator.state.currentAgent == ResearchAgent.id
      && |r.coordinator.state.handoffHistory| == 1
      && r.coordinator.state.handoffHistory[0].fromAgent == DefaultAgentId
      && r.coordinator.state.handoffHistory[0].toAgent == ResearchAgent.id
      && r.coordinator.state.handoffHistory[0].reason == "Task requires research and information gathering"
      && !r.coordinator.state.isActive
  {
    DefaultKnown();
    ResearchBegin(c, message, options);
    ProcessMessageEndState(c, message, options, events, true);
    ProcessMessageOutcome(c, message, options, Runs(events, true));
  }

  /** The steps of that call: the default agent announces the message; the
      research agent records the handoff, lists its one tool, announces
      processing, records the weather tool call and completes. */
  lemma ResearchCallSteps(c: MultiAgentCoordinator, message: string, options: StreamOptions,
                          events: seq<StepFinishEvent>, args: Json)
    requires c.state.currentAgent == DefaultAgentId && c.state.stepHistory == [] && c.state.handoffHistory == []
    requires ShouldHandoff(message, GeneralReasoning, c.state.context) == Decide(ResearchRule)
    requires FilterTools(ResearchAgent, options.activeTools) == ["getWeather"]
    requires ToolCalls(events) == [ToolCallStep("getWeather", args)]
    ensures var steps := ProcessMessage(c, message, options, Runs(events, true)).coordinator.state.stepHistory;
      && Kinds(steps) == [Reasoning, Handoff, Reasoning, Reasoning, ToolCall, Completion]
      && steps[0].agentId == DefaultAgentId
      && (forall i :: 1 <= i < |steps| ==> steps[i].agentId == ResearchAgent.id)
      && steps[4].metadata == Some(ToolCallMetadata("getWeather", args))
  {
    ResearchBegin(c, message, options);
    ResearchStreamSteps(c, message, options, events, args);
    var b := Begin(c, message, options, false).coordinator;
    var steps := ProcessMessage(c, message, options, Runs(events, true)).coordinator.state.stepHistory;
    AppendedKinds(b.state.stepHistory, steps, ResearchAgent.id);
  }

  /** The two steps the stream adds in that call: the weather tool call and
      the completion, both by the research agent. */
  lemma ResearchStreamSteps(c: MultiAgentCoordinator, message: string, options: StreamOptions,
                            events: seq<StepFinishEvent>, args: Json)
    requires c.state.currentAgent == DefaultAgentId && c.state.stepHistory == [] && c.state.handoffHistory == []
    requires ShouldHandoff(message, GeneralReasoning, c.state.context) == Decide(ResearchRule)
    requires FilterTools(ResearchAgent, options.activeTools) == ["getWeather"]
    requires ToolCalls(events) == [ToolCallStep("getWeather", args)]
    ensures var b := Begin(c, message, options, false).coordinator;
      var steps := ProcessMessage(c, message, options, Runs(events, true)).coordinator.state.stepHistory;
      && b.state.stepHistory <= steps && |steps| == 6
      && steps[4].stepType == ToolCall && steps[4].agentId == ResearchAgent.id
      && steps[4].metadata == Some(ToolCallMetadata("getWeather", args))
      && steps[5].stepType == Completion && steps[5].agentId == ResearchAgent.id
  {
    DefaultKnown();
    ResearchBegin(c, message, options);
    OneToolCallSteps(c, message, options, events, "getWeather", args);
  }

  /** A call whose stream makes exactly one tool call and resolves adds that
      tool-call step and a completion step, both by the agent current after
      delegation. */
  lemma OneToolCallSteps(c: MultiAgentCoordinator, message: string, options: StreamOptions,
                         events: seq<StepFinishEvent>, name: string, args: Json)
    requires Known(c.state.currentAgent)
    requires ToolCalls(events) == [ToolCallStep(name, args)]
    ensures var b := Begin(c, message, options, false).coordinator;
      var steps := ProcessMessage(c, message, options, Runs(events, true)).coordinator.state.stepHistory;
      var n := |b.state.stepHistory|;
      && b.state.stepHistory <= steps && |steps| == n + 2
      && steps[n].stepType == ToolCall && steps[n].agentId == b.state.currentAgent
      && steps[n].metadata == Some(ToolCallMetadata(name, args))
      && steps[n + 1].stepType == Completion && steps[n + 1].agentId == b.state.currentAgent
  {
    ProcessMessageLifecycle(c, message, options, events, true);
    var started := Begin(c, message, options, false);
    var steps := ProcessMessage(c, message, options, Runs(events, true)).coordinator.state.stepHistory;
    OneCallStream(started.coordinator.state.stepHistory, steps, started.delegation.value.activeAgent, name, args,
                  |c.state.stepHistory|);
  }

  lemma OneCallStream(before: seq<AgentStep>, steps: seq<AgentStep>, active: Agent, name: string, args: Json, m: nat)
    requires StreamSteps(before, steps, active, [ToolCallStep(name, args)], true, m)
    ensures var n := |before|;
      && before <= steps && |steps| == n + 2
      && steps[n].stepType == ToolCall && steps[n].agentId == active.id
      && steps[n].metadata == Some(ToolCallMetadata(name, args))
      && steps[n + 1].stepType == Completion && steps[n + 1].agentId == active.id
  {
    var n := |before|;
    assert steps[n] == steps[n..n + 1][0];
  }

  lemma AppendedKinds(before: seq<AgentStep>, steps: seq<AgentStep>, agentId: string)
    requires Kinds(before) == [Reasoning, Handoff, Reasoning, Reasoning]
    requires forall i :: 1 <= i < 4 ==> before[i].agentId == agentId
    requires before <= steps && |steps| == 6
    requires steps[4].stepType == ToolCall && steps[4].agentId == agentId
    requires steps[5].stepType == Completion && steps[5].agentId == agentId
    ensures Kinds(steps) == [Reasoning, Handoff, Reasoning, Reasoning, ToolCall, Completion]
    ensures forall i :: 1 <= i < |steps| ==> steps[i].agentId == agentId
  {
    assert forall i :: 0 <= i < 4 ==> steps[i] == before[i];
  }

  /** The part before the stream starts: announcement by the default agent,
      the handoff step, the tool list and the processing step, the last
      three by the research agent, which is now current. */
  lemma ResearchBegin(c: MultiAgentCoordinator, message: string, options: StreamOptions)
    requires c.state.currentAgent == DefaultAgentId && c.state.stepHistory == [] && c.state.handoffHistory == []
    requires ShouldHandoff(message, GeneralReasoning, c.state.context) == Decide(ResearchRule)
    requires FilterTools(ResearchAgent, options.activeTools) == ["getWeather"]
    ensures var b := Begin(c, message, options, false).coordinator;
      && b.state.currentAgent == ResearchAgent.id
      && Kinds(b.state.stepHistory) == [Reasoning, Handoff, Reasoning, Reasoning]
      && b.state.stepHistory[0].agentId == DefaultAgentId
      && (forall i :: 1 <= i < 4 ==> b.state.stepHistory[i].agentId == ResearchAgent.id)
      && |b.state.handoffHistory| == 1
      && b.state.handoffHistory[0].fromAgent == DefaultAgentId
      && b.state.handoffHistory[0].toAgent == ResearchAgent.id
      && b.state.handoffHistory[0].reason == "Task requires research and information gathering"
  {
    DefaultKnown();
    CatalogResolves();
    BeginStepOrder(c, message, options, false);
    var r := Begin(c, message, options, false);
    var steps := r.coordinator.state.stepHistory;
    assert steps[0..] == steps;
    ShapeKinds(steps, DefaultAgentId, ResearchAgent.id);
    ResearchHandoffRecord(c, message, options);
  }

  /** The pre-delegation shape with a handoff and a tool list, spelled out. */
  lemma ShapeKinds(added: seq<AgentStep>, originalId: string, activeId: string)
    requires PreDelegationShape(added, originalId, activeId, true, true)
    ensures Kinds(added) == [Reasoning, Handoff, Reasoning, Reasoning]
    ensures added[0].agentId == originalId
    ensures forall i :: 1 <= i < 4 ==> added[i].agentId == activeId
  {
  }

  /** The one handoff of the call, from the default agent to the research
      agent with the research rule's reason. */
  lemma ResearchHandoffRecord(c: MultiAgentCoordinator, message: string, options: StreamOptions)
    requires c.state.currentAgent == DefaultAgentId && c.state.handoffHistory == []
    requires ShouldHandoff(message, GeneralReasoning, c.state.context) == Decide(ResearchRule)
    ensures var hs := Begin(c, message, options, false).coordinator.state.handoffHistory;
      && |hs| == 1
      && hs[0].fromAgent == DefaultAgentId && hs[0].toAgent == ResearchAgent.id
      && hs[0].reason == "Task requires research and information gathering"
  {
    var c1 := c.(state := c.state.(isActive := true));
    DefaultKnown();
    CatalogResolves();
    var current := GetCurrentAgent(c1).value;
    assert current == GeneralReasoning;
    var c2 := AddStep(c1, current.id, Reasoning, AnalyzingContent(current, message), None, None);
    ConsiderSteps(c2, current, message);
  }
}
