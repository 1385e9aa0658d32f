/** The `useAgentData` hook (`use-agent-data.ts`): it folds the items of the
    data stream into a list of steps, a list of handoffs and the latest
    agent, skipping steps whose id it already holds and handoffs it already
    holds on (timestamp, fromAgent, toAgent). The effect runs over the whole
    stream each time the stream changes. */
module AgentData {
  import opened Wrappers
  import opened Types
  import opened Seqs
  import opened Agents

  /** One item of the data stream: a step, a handoff, or anything else
      (identified only by its `type`). */
  datatype DataItem = StepItem(step: AgentStep) | HandoffItem(handoff: AgentHandoff) | OtherItem(kind: string)

  datatype HookState = HookState(agentSteps: seq<AgentStep>, handoffs: seq<AgentHandoff>, currentAgent: string)

  /** The state the hook is created with. */
  const Initial: HookState := HookState([], [], DefaultAgentId)

  /** Some held step has this id. */
  predicate HasStepId(steps: seq<AgentStep>, id: StepId) {
    exists i :: 0 <= i < |steps| && steps[i].id == id
  }

  /** Two handoffs are the same for the hook when they agree on timestamp,
      source and target; reason and context are ignored. */
  predicate SameHandoff(h: AgentHandoff, k: AgentHandoff) {
    h.timestamp == k.timestamp && h.fromAgent == k.fromAgent && h.toAgent == k.toAgent
  }

  /** Some held handoff is the same as `h`. */
  predicate HasHandoff(handoffs: seq<AgentHandoff>, h: AgentHandoff) {
    exists i :: 0 <= i < |handoffs| && SameHandoff(handoffs[i], h)
  }

  /** No two held steps share an id. */
  predicate StepIdsDistinct(steps: seq<AgentStep>) {
    forall i, j :: 0 <= i < j < |steps| ==> steps[i].id != steps[j].id
  }

  /** No two held handoffs are the same. */
  predicate HandoffsDistinct(handoffs: seq<AgentHandoff>) {
    forall i, j :: 0 <= i < j < |handoffs| ==> !SameHandoff(handoffs[i], handoffs[j])
  }

  /** The effect of one item. A step is appended unless its id is held; a
      handoff is appended unless the same handoff is held. Either way the
      latest agent becomes the step's agent or the handoff's target. Other
      items change nothing. */
  function Absorb(s: HookState, item: DataItem): (s': HookState)
    ensures item.StepItem? ==>
              && (HasStepId(s.agentSteps, item.step.id) ==> s'.agentSteps == s.agentSteps)
              && (!HasStepId(s.agentSteps, item.step.id) ==> s'.agentSteps == s.agentSteps + [item.step])
              && s'.handoffs == s.handoffs
              && s'.currentAgent == item.step.agentId
    ensures item.HandoffItem? ==>
              && (HasHandoff(s.handoffs, item.handoff) ==> s'.handoffs == s.handoffs)
              && (!HasHandoff(s.handoffs, item.handoff) ==> s'.handoffs == s.handoffs + [item.handoff])
              && s'.agentSteps == s.agentSteps
              && s'.currentAgent == item.handoff.toAgent
    ensures item.OtherItem? ==> s' == s
  {
    match item
    case StepItem(step) =>
      var steps := if HasStepId(s.agentSteps, step.id) then s.agentSteps else s.agentSteps + [step];
      HookState(steps, s.handoffs, step.agentId)
    case HandoffItem(handoff) =>
      var handoffs := if HasHandoff(s.handoffs, handoff) then s.handoffs else s.handoffs + [handoff];
      HookState(s.agentSteps, handoffs, handoff.toAgent)
    case OtherItem(_) => s
  }

  /** The agent named by the latest step or handoff item, or `default` when
      there is none. */
  function LatestAgent(items: seq<DataItem>, default: string): (agent: string)
    decreases |items|
  {
    if |items| == 0 then default
    else match Last(items)
      case StepItem(step) => step.agentId
      case HandoffItem(handoff) => handoff.toAgent
      case OtherItem(_) => LatestAgent(items[..|items| - 1], default)
  }

  /** Every step item's id and every handoff item is held. */
  predicate Covers(s: HookState, items: seq<DataItem>) {
    && (forall i :: 0 <= i < |items| && items[i].StepItem? ==> HasStepId(s.agentSteps, items[i].step.id))
    && (forall i :: 0 <= i < |items| && items[i].HandoffItem? ==> HasHandoff(s.handoffs, items[i].handoff))
  }

  /** The `forEach` over the stream: absorbs the items in order. The lists
      only grow, every item ends up held, and the latest agent is that of
      the latest step or handoff item. */
  function Fold(s: HookState, items: seq<DataItem>): (s': HookState)
    ensures s.agentSteps <= s'.agentSteps && s.handoffs <= s'.handoffs
    ensures Covers(s', items)
    ensures s'.currentAgent == LatestAgent(items, s.currentAgent)
    decreases |items|
  {
    if |items| == 0 then s
    else
      var prev := Fold(s, items[..|items| - 1]);
      var s' := Absorb(prev, Last(items));
      CoversGrow(prev, s', items[..|items| - 1]);
      AbsorbHolds(prev, Last(items));
      CoversSnoc(s', items);
      s'
  }

  /** The whole effect: nothing happens while there is no data. */
  function OnData(s: HookState, data: Option<seq<DataItem>>): (s': HookState)
    ensures data.None? ==> s' == s
    ensures data.Some? ==> Covers(s', data.value) && s.agentSteps <= s'.agentSteps && s.handoffs <= s'.handoffs
  {
    match data
    case None => s
    case Some(items) => Fold(s, items)
  }

  /** `clearAgentData`: empty lists and the default agent. */
  function ClearAgentData(s: HookState): (s': HookState)
    ensures s'.agentSteps == [] && s'.handoffs == [] && s'.currentAgent == DefaultAgentId
    ensures !HasAgentData(s')
  {
    Initial
  }

  /** `hasAgentData`: some step or some handoff is held. */
  predicate HasAgentData(s: HookState) {
    |s.agentSteps| > 0 || |s.handoffs| > 0
  }

  // ---------------------------------------------------------------------
  // Properties

  /** Holding is kept when the lists only grow. */
  lemma CoversGrow(s: HookState, s': HookState, items: seq<DataItem>)
    requires Covers(s, items)
    requires s.agentSteps <= s'.agentSteps && s.handoffs <= s'.handoffs
    ensures Covers(s', items)
  {
    forall i | 0 <= i < |items| && items[i].StepItem?
      ensures HasStepId(s'.agentSteps, items[i].step.id)
    {
      var k :| 0 <= k < |s.agentSteps| && s.agentSteps[k].id == items[i].step.id;
      assert s'.agentSteps[k] == s.agentSteps[k];
    }
    forall i | 0 <= i < |items| && items[i].HandoffItem?
      ensures HasHandoff(s'.handoffs, items[i].handoff)
    {
      var k :| 0 <= k < |s.handoffs| && SameHandoff(s.handoffs[k], items[i].handoff);
      assert s'.handoffs[k] == s.handoffs[k];
    }
  }

  /** An absorbed item is held. */
  lemma AbsorbHolds(s: HookState, item: DataItem)
    ensures item.StepItem? ==> HasStepId(Absorb(s, item).agentSteps, item.step.id)
    ensures item.HandoffItem? ==> HasHandoff(Absorb(s, item).handoffs, item.handoff)
  {
    var s' := Absorb(s, item);
    if item.StepItem? && !HasStepId(s.agentSteps, item.step.id) {
      assert s'.agentSteps[|s.agentSteps|] == item.step;
    }
    if item.HandoffItem? && !HasHandoff(s.handoffs, item.handoff) {
      assert SameHandoff(s'.handoffs[|s.handoffs|], item.handoff);
    }
  }

  /** Holding all but the last item and the last item is holding them all. */
  lemma CoversSnoc(s: HookState, items: seq<DataItem>)
    requires |items| > 0 && Covers(s, items[..|items| - 1])
    requires Last(items).StepItem? ==> HasStepId(s.agentSteps, Last(items).step.id)
    requires Last(items).HandoffItem? ==> HasHandoff(s.handoffs, Last(items).handoff)
    ensures Covers(s, items)
  {
    var prefix := items[..|items| - 1];
    assert forall i :: 0 <= i < |prefix| ==> items[i] == prefix[i];
  }

  /** Absorbing an item keeps the step ids and the handoffs distinct. */
  lemma AbsorbKeepsDistinct(s: HookState, item: DataItem)
    requires StepIdsDistinct(s.agentSteps) && HandoffsDistinct(s.handoffs)
    ensures StepIdsDistinct(Absorb(s, item).agentSteps) && HandoffsDistinct(Absorb(s, item).handoffs)
  {
    var s' := Absorb(s, item);
    if item.StepItem? && !HasStepId(s.agentSteps, item.step.id) {
      forall i, j | 0 <= i < j < |s'.agentSteps|
        ensures s'.agentSteps[i].id != s'.agentSteps[j].id
      {
        if j == |s.agentSteps| {
          assert s'.agentSteps[i] == s.agentSteps[i];
        }
      }
    }
    if item.HandoffItem? && !HasHandoff(s.handoffs, item.handoff) {
      forall i, j | 0 <= i < j < |s'.handoffs|
        ensures !SameHandoff(s'.handoffs[i], s'.handoffs[j])
      {
        if j == |s.handoffs| {
          assert s'.handoffs[i] == s.handoffs[i];
        }
      }
    }
  }

  /** Starting from distinct lists (in particular from the initial state),
      the held step ids and the held handoffs stay pairwise distinct. */
  lemma {:induction false} FoldKeepsDistinct(s: HookState, items: seq<DataItem>)
    requires StepIdsDistinct(s.agentSteps) && HandoffsDistinct(s.handoffs)
    ensures StepIdsDistinct(Fold(s, items).agentSteps) && HandoffsDistinct(Fold(s, items).handoffs)
    decreases |items|
  {
    if |items| > 0 {
      FoldKeepsDistinct(s, items[..|items| - 1]);
      AbsorbKeepsDistinct(Fold(s, items[..|items| - 1]), Last(items));
    }
  }

  /** Items that are all held change neither list. */
  lemma {:induction false} FoldHeld(s: HookState, items: seq<DataItem>)
    requires Covers(s, items)
    ensures Fold(s, items).agentSteps == s.agentSteps && Fold(s, items).handoffs == s.handoffs
    decreases |items|
  {
    if |items| > 0 {
      var prefix := items[..|items| - 1];
      assert Covers(s, prefix) by {
        assert forall i :: 0 <= i < |prefix| ==> prefix[i] == items[i];
      }
      FoldHeld(s, prefix);
      assert Last(items) == items[|items| - 1];
    }
  }

  /** Running the effect twice over the same stream gives the state of
      running it once: the second pass finds every item held and ends on the
      same latest agent. */
  lemma FoldIdempotent(s: HookState, items: seq<DataItem>)
    ensures Fold(Fold(s, items), items) == Fold(s, items)
  {
    var t := Fold(s, items);
    FoldHeld(t, items);
    LatestAgentDefault(items, s.currentAgent, t.currentAgent);
  }

  /** The latest agent depends on the default only when there is no step or
      handoff item; when there is one, that default is never used. */
  lemma {:induction false} LatestAgentDefault(items: seq<DataItem>, d: string, e: string)
    requires e == LatestAgent(items, d)
    ensures LatestAgent(items, e) == e
    decreases |items|
  {
    if |items| > 0 && Last(items).OtherItem? {
      LatestAgentDefault(items[..|items| - 1], d, e);
    }
  }

  /** Absorbing a concatenation absorbs its parts in turn. */
  lemma {:induction false} FoldAppend(s: HookState, xs: seq<DataItem>, ys: seq<DataItem>)
    ensures Fold(s, xs + ys) == Fold(Fold(s, xs), ys)
    decreases |ys|
  {
    if |ys| == 0 {
      assert xs + ys == xs;
    } else {
      assert (xs + ys)[..|xs + ys| - 1] == xs + ys[..|ys| - 1];
      FoldAppend(s, xs, ys[..|ys| - 1]);
    }
  }

  /** The stream only grows between runs of the effect, and each run goes
      over the whole stream. Re-absorbing the old items is harmless: the
      state after the run over the grown stream is that of absorbing the
      grown stream once. */
  lemma GrownStream(s: HookState, xs: seq<DataItem>, ys: seq<DataItem>)
    ensures Fold(Fold(s, xs), xs + ys) == Fold(s, xs + ys)
  {
    FoldAppend(Fold(s, xs), xs, ys);
    FoldIdempotent(s, xs);
    FoldAppend(s, xs, ys);
  }

  /** From the initial state the hook has data exactly when the stream held
      some step or handoff item. */
  lemma {:induction false} HasAgentDataIffItems(items: seq<DataItem>)
    ensures HasAgentData(Fold(Initial, items))
        <==> exists i :: 0 <= i < |items| && (items[i].StepItem? || items[i].HandoffItem?)
    decreases |items|
  {
    if |items| > 0 {
      var prefix := items[..|items| - 1];
      HasAgentDataIffItems(prefix);
      if exists i :: 0 <= i < |prefix| && (prefix[i].StepItem? || prefix[i].HandoffItem?) {
        var i :| 0 <= i < |prefix| && (prefix[i].StepItem? || prefix[i].HandoffItem?);
        assert items[i] == prefix[i];
      }
      if exists i :: 0 <= i < |items| && (items[i].StepItem? || items[i].HandoffItem?) {
        var i :| 0 <= i < |items| && (items[i].StepItem? || items[i].HandoffItem?);
        if i < |prefix| {
          assert prefix[i] == items[i];
        }
      }
    }
  }

  /** After `clearAgentData` the hook absorbs a stream exactly as a fresh
      hook would. */
  lemma ClearThenFold(s: HookState, items: seq<DataItem>)
    ensures Fold(ClearAgentData(s), items) == Fold(Initial, items)
  {
  }
}
