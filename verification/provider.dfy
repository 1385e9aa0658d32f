/** The React provider of the multi-agent state (`multi-agent-provider.tsx`):
    an initial state and three reducers, `addStep`, `addHandoff` and
    `clearHistory`, applied in the order their updates are queued. */
module Provider {
  import opened Types
  import opened Seqs
  import opened Agents

  /** One queued state update. */
  datatype Action = AddStepAction(step: AgentStep) | AddHandoffAction(handoff: AgentHandoff) | ClearHistoryAction

  /** The activity flag follows the latest step: active exactly when some
      step was added since the last clear and it was not a completion. */
  predicate ActiveMatchesSteps(isActive: bool, steps: seq<AgentStep>) {
    isActive <==> |steps| > 0 && Last(steps).stepType != Completion
  }

  /** What every provider state satisfies: the current agent is the default
      or the target of the latest handoff, and the activity flag follows the
      latest step. */
  predicate Consistent(s: MultiAgentState) {
    && CurrentMatchesHandoffs(s.currentAgent, s.handoffHistory)
    && ActiveMatchesSteps(s.isActive, s.stepHistory)
  }

  /** The state the provider is mounted with. */
  function InitialState(): (s: MultiAgentState)
    ensures Consistent(s)
    ensures s.currentAgent == DefaultAgentId && Known(s.currentAgent)
    ensures s.stepHistory == [] && s.handoffHistory == [] && !s.isActive
    ensures s.availableAgents == AvailableAgents && s.context == EmptyContext
  {
    DefaultKnown();
    MultiAgentState(DefaultAgentId, AvailableAgents, [], [], false, EmptyContext)
  }

  /** `addStep`: appends the step and makes the session inactive exactly when
      the step is a completion. */
  function AddStep(s: MultiAgentState, step: AgentStep): (s': MultiAgentState)
    ensures s'.stepHistory == s.stepHistory + [step]
    ensures s.stepHistory <= s'.stepHistory
    ensures !s'.isActive <==> step.stepType == Completion
    ensures ActiveMatchesSteps(s'.isActive, s'.stepHistory)
    ensures s'.currentAgent == s.currentAgent && s'.handoffHistory == s.handoffHistory
    ensures s'.availableAgents == s.availableAgents && s'.context == s.context
  {
    s.(stepHistory := s.stepHistory + [step], isActive := step.stepType != Completion)
  }

  /** `addHandoff`: the handoff's target becomes the current agent and the
      handoff is appended; steps and the activity flag are untouched. */
  function AddHandoff(s: MultiAgentState, handoff: AgentHandoff): (s': MultiAgentState)
    ensures s'.handoffHistory == s.handoffHistory + [handoff]
    ensures CurrentMatchesHandoffs(s'.currentAgent, s'.handoffHistory)
    ensures s'.stepHistory == s.stepHistory && s'.isActive == s.isActive
    ensures s'.availableAgents == s.availableAgents && s'.context == s.context
  {
    s.(currentAgent := handoff.toAgent, handoffHistory := s.handoffHistory + [handoff])
  }

  /** `clearHistory`: back to the default agent with empty histories and an
      inactive session; the catalog and the context are kept. */
  function ClearHistory(s: MultiAgentState): (s': MultiAgentState)
    ensures Consistent(s')
    ensures s'.stepHistory == [] && s'.handoffHistory == [] && !s'.isActive
    ensures s'.currentAgent == DefaultAgentId
    ensures s'.availableAgents == s.availableAgents && s'.context == s.context
  {
    s.(handoffHistory := [], stepHistory := [], isActive := false, currentAgent := DefaultAgentId)
  }

  function Apply(s: MultiAgentState, action: Action): (s': MultiAgentState)
    ensures s'.availableAgents == s.availableAgents && s'.context == s.context
  {
    match action
    case AddStepAction(step) => AddStep(s, step)
    case AddHandoffAction(handoff) => AddHandoff(s, handoff)
    case ClearHistoryAction => ClearHistory(s)
  }

  /** Applies the queued updates in order. */
  function Replay(s: MultiAgentState, actions: seq<Action>): (s': MultiAgentState)
    ensures s'.availableAgents == s.availableAgents && s'.context == s.context
    decreases |actions|
  {
    if |actions| == 0 then s else Apply(Replay(s, actions[..|actions| - 1]), Last(actions))
  }

  // ---------------------------------------------------------------------
  // Reference definitions: what a sequence of updates leaves behind

  /** The updates after the most recent `clearHistory` (all of them when
      there is none). */
  function SinceClear(actions: seq<Action>): (r: seq<Action>)
    ensures forall i :: 0 <= i < |r| ==> !r[i].ClearHistoryAction?
    ensures |r| <= |actions| && r == actions[|actions| - |r|..]
    decreases |actions|
  {
    if |actions| == 0 then []
    else if Last(actions).ClearHistoryAction? then []
    else SinceClear(actions[..|actions| - 1]) + [Last(actions)]
  }

  /** The steps added by a sequence of updates, in order. */
  function StepsAdded(actions: seq<Action>): (steps: seq<AgentStep>)
    decreases |actions|
  {
    if |actions| == 0 then []
    else StepsAdded(actions[..|actions| - 1]) + (if Last(actions).AddStepAction? then [Last(actions).step] else [])
  }

  /** The handoffs added by a sequence of updates, in order. */
  function HandoffsAdded(actions: seq<Action>): (handoffs: seq<AgentHandoff>)
    decreases |actions|
  {
    if |actions| == 0 then []
    else HandoffsAdded(actions[..|actions| - 1])
         + (if Last(actions).AddHandoffAction? then [Last(actions).handoff] else [])
  }

  // ---------------------------------------------------------------------
  // Properties

  /** Every reducer keeps `Consistent`, so every state the provider reaches
      from its initial state has the current agent of the latest handoff
      since the last clear (or the default) and the activity flag of the
      latest step. */
  lemma {:induction false} ReplayConsistent(s: MultiAgentState, actions: seq<Action>)
    requires Consistent(s)
    ensures Consistent(Replay(s, actions))
    decreases |actions|
  {
    if |actions| > 0 {
      ReplayConsistent(s, actions[..|actions| - 1]);
    }
  }

  /** From the initial state, the histories are exactly the steps and
      handoffs added since the most recent clear, in order; the current agent
      and the activity flag follow from them. */
  lemma ReplayFromInitial(actions: seq<Action>)
    ensures var s := Replay(InitialState(), actions);
      var recent := SinceClear(actions);
      && s.stepHistory == StepsAdded(recent)
      && s.handoffHistory == HandoffsAdded(recent)
      && CurrentMatchesHandoffs(s.currentAgent, s.handoffHistory)
      && ActiveMatchesSteps(s.isActive, s.stepHistory)
  {
    ReplayHistories(actions);
    ReplayConsistent(InitialState(), actions);
  }

  lemma {:induction false} ReplayHistories(actions: seq<Action>)
    ensures var s := Replay(InitialState(), actions);
      && s.stepHistory == StepsAdded(SinceClear(actions))
      && s.handoffHistory == HandoffsAdded(SinceClear(actions))
    decreases |actions|
  {
    if |actions| > 0 {
      var prefix := actions[..|actions| - 1];
      ReplayHistories(prefix);
      if !Last(actions).ClearHistoryAction? {
        var recent := SinceClear(prefix) + [Last(actions)];
        assert recent[..|recent| - 1] == SinceClear(prefix);
      }
    }
  }

  /** `clearHistory` is idempotent. */
  lemma ClearHistoryIdempotent(s: MultiAgentState)
    ensures ClearHistory(ClearHistory(s)) == ClearHistory(s)
  {
  }

  /** Clearing a provider state gives back the state it was mounted with. */
  lemma ClearRestoresInitial(s: MultiAgentState)
    requires s.availableAgents == AvailableAgents && s.context == EmptyContext
    ensures ClearHistory(s) == InitialState()
  {
  }

  /** Updates queued after a clear act as if the provider had just been
      mounted: what came before the clear is forgotten. */
  lemma {:induction false} ClearForgets(s: MultiAgentState, before: seq<Action>, after: seq<Action>)
    requires s.availableAgents == AvailableAgents && s.context == EmptyContext
    ensures Replay(s, before + [ClearHistoryAction] + after) == Replay(InitialState(), after)
    decreases |after|
  {
    var all := before + [ClearHistoryAction] + after;
    if |after| == 0 {
      assert all[..|all| - 1] == before;
      ClearRestoresInitial(Replay(s, before));
    } else {
      assert all[..|all| - 1] == before + [ClearHistoryAction] + after[..|after| - 1];
      ClearForgets(s, before, after[..|after| - 1]);
    }
  }

  /** `addHandoff` never touches the steps or the activity flag, and
      `addStep` never touches the handoffs or the current agent. */
  lemma ReducersAreIndependent(s: MultiAgentState, step: AgentStep, handoff: AgentHandoff)
    ensures AddHandoff(AddStep(s, step), handoff) == AddStep(AddHandoff(s, handoff), step)
  {
  }
}
