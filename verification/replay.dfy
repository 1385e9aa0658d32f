/** How the three components would fit together. This wiring is
    hypothetical: none of the modelled sources forwards the coordinator's
    observer notifications to the provider or the hook. Forwarded to the
    provider's reducers, or to the hook as data-stream items, they rebuild
    the coordinator's histories exactly. The hook's de-duplication never
    drops a notification of the coordinator, because step ids are fresh and
    the model's clock makes handoff timestamps strictly increase. */
module Replay {
  import opened Types
  import opened Seqs
  import opened Agents
  import opened Coordinator
  import Provider
  import AgentData

  /** The data-stream item carrying a notification. */
  function ItemOf(n: Notice): (item: AgentData.DataItem)
    ensures n.StepUpdate? <==> item.StepItem?
    ensures n.StepUpdate? ==> item.step == n.step
    ensures n.HandoffUpdate? ==> item == AgentData.HandoffItem(n.handoff)
  {
    match n
    case StepUpdate(step) => AgentData.StepItem(step)
    case HandoffUpdate(handoff) => AgentData.HandoffItem(handoff)
  }

  function ItemsOf(ns: seq<Notice>): (items: seq<AgentData.DataItem>)
    ensures |items| == |ns|
    ensures forall i :: 0 <= i < |ns| ==> items[i] == ItemOf(ns[i])
  {
    seq(|ns|, i requires 0 <= i < |ns| => ItemOf(ns[i]))
  }

  /** The provider update a notification triggers. */
  function ActionOf(n: Notice): (action: Provider.Action)
    ensures n.StepUpdate? ==> action == Provider.AddStepAction(n.step)
    ensures n.HandoffUpdate? ==> action == Provider.AddHandoffAction(n.handoff)
  {
    match n
    case StepUpdate(step) => Provider.AddStepAction(step)
    case HandoffUpdate(handoff) => Provider.AddHandoffAction(handoff)
  }

  function ActionsOf(ns: seq<Notice>): (actions: seq<Provider.Action>)
    ensures |actions| == |ns|
    ensures forall i :: 0 <= i < |ns| ==> actions[i] == ActionOf(ns[i])
  {
    seq(|ns|, i requires 0 <= i < |ns| => ActionOf(ns[i]))
  }

  /** Step ids strictly increase along the list. */
  predicate IdsIncrease(steps: seq<AgentStep>) {
    forall i, j :: 0 <= i < j < |steps| ==> steps[i].id < steps[j].id
  }

  /** Handoff timestamps strictly increase along the list. */
  predicate TimesIncrease(handoffs: seq<AgentHandoff>) {
    forall i, j :: 0 <= i < j < |handoffs| ==> handoffs[i].timestamp < handoffs[j].timestamp
  }

  /** A notification log whose steps have increasing ids and whose handoffs
      have increasing timestamps is absorbed by a fresh hook without loss:
      the hook holds exactly the logged steps and handoffs, and its latest
      agent is the one of the latest notification. */
  lemma {:induction false} HookAbsorbsNotices(ns: seq<Notice>)
    requires IdsIncrease(StepsOf(ns)) && TimesIncrease(HandoffsOf(ns))
    ensures var h := AgentData.Fold(AgentData.Initial, ItemsOf(ns));
      && h.agentSteps == StepsOf(ns)
      && h.handoffs == HandoffsOf(ns)
      && h.currentAgent == LatestNoticed(ns)
    decreases |ns|
  {
    var items := ItemsOf(ns);
    if |ns| > 0 {
      var p := ns[..|ns| - 1];
      assert items[..|items| - 1] == ItemsOf(p);
      var steps := StepsOf(ns);
      var handoffs := HandoffsOf(ns);
      assert StepsOf(p) <= steps;
      assert HandoffsOf(p) <= handoffs;
      HookAbsorbsNotices(p);
      var prev := AgentData.Fold(AgentData.Initial, ItemsOf(p));
      var n := Last(ns);
      if n.StepUpdate? {
        assert steps == StepsOf(p) + [n.step];
        FreshId(StepsOf(p), n.step);
      } else {
        assert handoffs == HandoffsOf(p) + [n.handoff];
        FreshHandoff(HandoffsOf(p), n.handoff);
      }
    }
  }

  lemma IdsIncreaseAt(steps: seq<AgentStep>, i: nat, j: nat)
    requires IdsIncrease(steps) && i < j < |steps|
    ensures steps[i].id < steps[j].id
  {
  }

  lemma TimesIncreaseAt(handoffs: seq<AgentHandoff>, i: nat, j: nat)
    requires TimesIncrease(handoffs) && i < j < |handoffs|
    ensures handoffs[i].timestamp < handoffs[j].timestamp
  {
  }

  /** A step whose id exceeds all held ids is not held. */
  lemma FreshId(steps: seq<AgentStep>, step: AgentStep)
    requires IdsIncrease(steps + [step])
    ensures !AgentData.HasStepId(steps, step.id)
  {
    if AgentData.HasStepId(steps, step.id) {
      var i :| 0 <= i < |steps| && steps[i].id == step.id;
      IdsIncreaseAt(steps + [step], i, |steps|);
      assert false;
    }
  }

  /** A handoff later than all held ones is not the same as any of them. */
  lemma FreshHandoff(handoffs: seq<AgentHandoff>, h: AgentHandoff)
    requires TimesIncrease(handoffs + [h])
    ensures !AgentData.HasHandoff(handoffs, h)
  {
    if AgentData.HasHandoff(handoffs, h) {
      var i :| 0 <= i < |handoffs| && AgentData.SameHandoff(handoffs[i], h);
      TimesIncreaseAt(handoffs + [h], i, |handoffs|);
      assert false;
    }
  }

  /** A hook fed every notification of a reachable coordinator holds exactly
      the coordinator's step and handoff histories and names its current
      agent. */
  lemma HookMirrorsCoordinator(c: MultiAgentCoordinator)
    requires Valid(c)
    ensures var h := AgentData.Fold(AgentData.Initial, ItemsOf(c.notices));
      && h.agentSteps == c.state.stepHistory
      && h.handoffs == c.state.handoffHistory
      && h.currentAgent == c.state.currentAgent
  {
    HookAbsorbsNotices(c.notices);
  }

  /** Forwarding a notification log to a fresh provider appends exactly the
      logged steps and handoffs. */
  lemma {:induction false} ProviderAbsorbsNotices(ns: seq<Notice>)
    ensures var s := Provider.Replay(Provider.InitialState(), ActionsOf(ns));
      && s.stepHistory == StepsOf(ns)
      && s.handoffHistory == HandoffsOf(ns)
    decreases |ns|
  {
    if |ns| > 0 {
      var p := ns[..|ns| - 1];
      assert ActionsOf(ns)[..|ns| - 1] == ActionsOf(p);
      ProviderAbsorbsNotices(p);
    }
  }

  /** A provider fed every notification of a reachable coordinator holds the
      coordinator's histories and current agent, and it is active exactly
      when the latest step is not a completion. */
  lemma ProviderMirrorsCoordinator(c: MultiAgentCoordinator)
    requires Valid(c)
    ensures var s := Provider.Replay(Provider.InitialState(), ActionsOf(c.notices));
      && s.stepHistory == c.state.stepHistory
      && s.handoffHistory == c.state.handoffHistory
      && s.currentAgent == c.state.currentAgent
      && Provider.ActiveMatchesSteps(s.isActive, s.stepHistory)
  {
    ProviderAbsorbsNotices(c.notices);
    Provider.ReplayConsistent(Provider.InitialState(), ActionsOf(c.notices));
  }

  /** After any `processMessage` call on a reachable coordinator, a hook and
      a provider fed its notifications agree with it; a completed call
      leaves the provider inactive, like the coordinator. */
  lemma ObserversAfterCall(c: MultiAgentCoordinator, message: string, options: StreamOptions,
                           events: seq<StepFinishEvent>)
    requires Valid(c) && Known(c.state.currentAgent)
    ensures var c' := ProcessMessage(c, message, options, Runs(events, true)).coordinator;
      var h := AgentData.Fold(AgentData.Initial, ItemsOf(c'.notices));
      var s := Provider.Replay(Provider.InitialState(), ActionsOf(c'.notices));
      && h.agentSteps == c'.state.stepHistory == s.stepHistory
      && h.currentAgent == c'.state.currentAgent == s.currentAgent
      && !s.isActive && !c'.state.isActive
  {
    var c' := ProcessMessage(c, message, options, Runs(events, true)).coordinator;
    ProcessMessageValid(c, message, options, Runs(events, true));
    ProcessMessageLifecycle(c, message, options, events, true);
    HookMirrorsCoordinator(c');
    ProviderMirrorsCoordinator(c');
  }
}
