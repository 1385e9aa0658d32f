# Multi-agent coordination, modelled in Dafny

This project models the agent-coordination engine of a chat application and
proves properties of it. The engine has four parts:

- **The catalog** (`agents.dfy`, module `Agents`). Five agents, each with a
  single capability listing expertise tags and tools. It has a lookup by id
  (`getAgentById`) and a filter by capability (`getAgentsByCapability`).
- **The handoff policy** (`policy.dfy`, module `HandoffPolicy`). This is
  `shouldHandoff`. The message is lower-cased and split on single spaces.
  Four keyword rules are then tried in a fixed order: document, technical,
  research, creative. A rule fires when one of its keywords is a token and
  its target is not the current agent. The first rule that fires decides.
- **The coordinator** (`coordinator.dfy`, module `Coordinator`). This is the
  `MultiAgentCoordinator` class, written as pure state transitions over an
  immutable `MultiAgentCoordinator` value. The value holds:
  - the engine's `MultiAgentState`;
  - a step-id counter and a clock, standing in for `generateUUID` and
    `new Date()`;
  - the log of notifications sent to the two observers (`onStepUpdate`,
    `onHandoffUpdate`).

  `processMessage` is split into phases:
  1. `Begin`: set `isActive`, look up the current agent.
  2. `Evaluate`: the analysing step, the policy, a possible handoff and the
     second lookup.
  3. `Delegate`: tool filtering, the tool-listing step, the prompt and the
     processing step.
  4. The stream: a `StreamRun` value. Either `streamText` itself throws,
     or the stream delivers a finite list of step-finish events and then resolves or
     rejects. `ApplyEvents` records the tool calls and `Settle` handles the
     outcome.
- **The two client-side replicas of the history.**
  - The React provider's state updaters (`provider.dfy`, module `Provider`):
    `addStep`, `addHandoff` and `clearHistory` as pure reducers, plus
    `Replay` over a list of actions.
  - The `useAgentData` hook's effect (`agent_data.dfy`, module `AgentData`):
    a fold over data-stream items that drops duplicate steps by id and
    duplicate handoffs by (timestamp, from, to).

`replay.dfy` (module `Replay`) connects the parts through a hypothetical
wiring. None of the modelled files passes the coordinator's notifications
to the provider or the hook; their observer callbacks suggest this use. The
module forwards the notifications to a fresh provider or a fresh hook, and
proves that either one rebuilds exactly the coordinator's histories.
`scenario.dfy` (module `Scenario`) proves an end-to-end run: a weather
question reaches the research agent, which calls the weather tool and
completes.

Supporting modules:
- `wrappers.dfy`: `Option`, `Result`.
- `seqs.dfy`: `find`, `filter`, `flatMap`, `slice(-n)` and subsequences.
- `text.dfy`: ASCII lower-casing, split on a character, join.
- `types.dfy`: the records of `types.ts`.

## Model

| member | source | states |
|---|---|---|
| Agents.CatalogIdsDistinct | lib/ai/multi-agent/agents.ts:3-84 | No two catalog entries share an id, so a lookup by id can match at most one agent |
| Agents.GetAgentById | lib/ai/multi-agent/agents.ts:86-88 | The lookup finds an agent exactly when some catalog entry has the id, and what it finds is a catalog entry with that id |
| Agents.GetAgentByIdFinds | lib/ai/multi-agent/agents.ts:86-88 | Any catalog entry is what the lookup returns for its own id |
| Agents.GetAgentsByCapability | lib/ai/multi-agent/agents.ts:90-95 | The result holds exactly the catalog agents with the tag among some capability's expertise or tools, in catalog order, each as often as in the catalog |
| Agents.DefaultKnown | lib/ai/multi-agent/agents.ts:5 | The default agent `general-reasoning` is in the catalog |
| Agents.CatalogResolves | lib/ai/multi-agent/agents.ts:3-88 | The default id and the four specialist ids each resolve to their catalog entry |
| Agents.CatalogToolUnions | lib/ai/multi-agent/agents.ts:8-80 | Every agent has exactly one capability. The tool unions are: general and technical none; document createDocument and updateDocument; research getWeather; creative requestSuggestions |
| Agents.ToolUnion | lib/ai/multi-agent/coordinator.ts:174 | A tool is in an agent's union exactly when some capability of the agent lists it |
| Agents.ExpertiseUnion | lib/ai/multi-agent/coordinator.ts:205 | A tag is in the union exactly when some capability of the agent lists it as expertise |
| Agents.CapabilityNames | lib/ai/multi-agent/coordinator.ts:193 | One name per capability, in order |
| Seqs.FirstIndex | lib/ai/multi-agent/agents.ts:87 | `find`: no earlier element satisfies the test, and the one found does |
| Seqs.Filter | lib/ai/multi-agent/agents.ts:91-94 | `filter` keeps only elements passing the test and never grows the sequence |
| Seqs.FilterMembers | lib/ai/multi-agent/agents.ts:91-94 | An element is kept exactly when it is in the input and passes the test |
| Seqs.FilterCounts | lib/ai/multi-agent/agents.ts:91-94 | A passing element keeps its multiplicity and a failing one disappears |
| Seqs.FilterKeepsOrder | lib/ai/multi-agent/agents.ts:91-94 | The result is a subsequence of the input, so input order is kept |
| Seqs.FilterKeepsAll | lib/ai/multi-agent/coordinator.ts:175-177 | When every element passes, `filter` returns the input unchanged |
| Seqs.FlatMap | lib/ai/multi-agent/coordinator.ts:174 | `flatMap` yields exactly the elements of the per-item lists, and is empty exactly when every list is |
| Seqs.TakeLast | lib/ai/multi-agent/coordinator.ts:195 | `slice(-n)` yields min(n, length) elements, and they form a suffix of the input |
| Text.Lower | lib/ai/multi-agent/coordinator.ts:61 | Lower-casing keeps the length, maps each character independently, leaves no upper-case letter, and fixes lower-case text |
| Text.Split | lib/ai/multi-agent/coordinator.ts:61 | `split` yields at least one piece, no piece holds the separator, and joining the pieces with the separator gives back the input |
| Text.SplitJoin | lib/ai/multi-agent/coordinator.ts:61 | Splitting a join of separator-free pieces gives back those pieces, so split is the inverse of join |
| HandoffPolicy.Tokenize | lib/ai/multi-agent/coordinator.ts:61 | The tokens are lower-case, contain no space, and joined with single spaces are the lower-cased message |
| HandoffPolicy.ShouldHandoff | lib/ai/multi-agent/coordinator.ts:53-112 | A handoff decision names a non-empty target other than the current agent and a non-empty reason; otherwise the decision is exactly `{shouldHandoff: false}` |
| HandoffPolicy.FirstFiringRule | lib/ai/multi-agent/coordinator.ts:61-111 | A handoff happens exactly when some rule fires, and the decision is that of a rule that fires with no earlier rule firing, i.e. the earliest firing rule in the fixed order |
| HandoffPolicy.RuleTargetsKnown | lib/ai/multi-agent/agents.ts:21-69 | Every rule's target is a catalog agent, so the "no active agent after handoff" error cannot arise |
| HandoffPolicy.DocumentRuleFirst | lib/ai/multi-agent/coordinator.ts:64-73 | A document keyword hands off to the document specialist, whatever else the message says, unless that agent is current |
| HandoffPolicy.CurrentTargetFallsThrough | lib/ai/multi-agent/coordinator.ts:64-85 | When the document specialist is current, a document keyword is skipped and a technical keyword decides |
| HandoffPolicy.DecisionDependsOnIdOnly | lib/ai/multi-agent/coordinator.ts:53-112 | Two agents with the same id get the same decision, whatever the context argument |
| HandoffPolicy.WriteAndDebugExample | lib/ai/multi-agent/coordinator.ts:64-85 | "write and debug" sent to the technical specialist hands off to the document specialist with confidence 0.8 |
| HandoffPolicy.PunctuationDefeatsKeyword | lib/ai/multi-agent/coordinator.ts:61-66 | "write, please" triggers no handoff, because "write," is not exactly the keyword "write" |
| HandoffPolicy.CaseInsensitiveExample | lib/ai/multi-agent/coordinator.ts:61-97 | "Research the WEATHER" matches the research rule after lower-casing |
| Coordinator.NewCoordinator | lib/ai/multi-agent/coordinator.ts:17-31 | A new coordinator is at the default agent with the static catalog, empty histories, inactive, with no notifications, and satisfies the reachability invariant |
| Coordinator.GetState | lib/ai/multi-agent/coordinator.ts:33-35 | Viewed against the live coordinator, the snapshot is the live state |
| Coordinator.SnapshotIsShallow | lib/ai/multi-agent/coordinator.ts:33-35 | A snapshot taken before a call shows the histories as they are after the call, but keeps the current agent and activity flag from when it was taken |
| Coordinator.GetCurrentAgent | lib/ai/multi-agent/coordinator.ts:37-39 | Finds an agent exactly when the current id is in the catalog, and then the entry with that id |
| Coordinator.PreviewShape | lib/ai/multi-agent/coordinator.ts:158 | A message of at most 100 characters is previewed whole; a longer one becomes its first 100 characters plus "..." |
| Coordinator.AddStep | lib/ai/multi-agent/coordinator.ts:41-51 | Appends exactly one step stamped with a fresh id and the current time, notifies the step observer with it, and changes nothing else; later ids and times are larger |
| Coordinator.AddStepValid | lib/ai/multi-agent/coordinator.ts:41-51 | Adding a step by the current agent keeps the reachability invariant |
| Coordinator.PerformHandoff | lib/ai/multi-agent/coordinator.ts:114-135 | Sets the current agent to the target, appends one handoff record from the previous agent with the given reason, and appends one handoff step by the target with confidence 0.9. It notifies the handoff observer with the record and then the step observer with the step, and nothing else; activity, context and catalog are unchanged |
| Coordinator.PerformHandoffValid | lib/ai/multi-agent/coordinator.ts:114-135 | A handoff to a different catalog agent keeps the invariant: the handoff chain, increasing timestamps, and observers seeing exactly the histories |
| Coordinator.ReasonOrDefault | lib/ai/multi-agent/coordinator.ts:165 | The recorded reason is the policy's reason when it is non-empty, and is never empty |
| Coordinator.ApplyDecision | lib/ai/multi-agent/coordinator.ts:164-166 | The current agent changes to the target exactly when the decision asks for a handoff with a non-empty target |
| Coordinator.Consider | lib/ai/multi-agent/coordinator.ts:162-171 | After asking the policy, the current agent is the decision's target or stays, and always resolves in the catalog |
| Coordinator.RuleTargetsAreCatalogAgents | lib/ai/multi-agent/coordinator.ts:168-171 | Every target the policy can name resolves, so the second lookup always succeeds |
| Coordinator.FilterTools | lib/ai/multi-agent/coordinator.ts:175-177 | Without requested tools the filtered list is empty |
| Coordinator.FilterToolsSpec | lib/ai/multi-agent/coordinator.ts:174-177 | The filtered tools are an order-preserving subsequence of the requested ones, keeping each one, with its multiplicity, exactly when it is in the agent's tool union or that union is empty |
| Coordinator.AnnounceTools | lib/ai/multi-agent/coordinator.ts:180-186 | A reasoning step by the active agent listing the filtered tools is appended after the unchanged earlier steps exactly when the filtered list is non-empty; otherwise nothing changes |
| Coordinator.BuildPrompt | lib/ai/multi-agent/coordinator.ts:188-199 | The prompt carries the base prompt, the active agent's name, description and capability names, and exactly the last min(3, n) of the n handoffs, oldest first |
| Coordinator.ConsiderSteps | lib/ai/multi-agent/coordinator.ts:162-166 | Asking the policy keeps the earlier steps and handoff records, and adds one handoff step and one handoff record (from the current agent, with the decision's target and reason) exactly when it fires |
| Coordinator.DelegateEffect | lib/ai/multi-agent/coordinator.ts:173-241 | Delegation keeps the current agent and handoffs, and succeeds exactly when the stream does not throw. On success it passes the filtered tools and the last three handoffs. When `streamText` throws it leaves the coordinator inactive |
| Coordinator.EvaluateEffect | lib/ai/multi-agent/coordinator.ts:155-241 | After the first lookup, the call always gets to delegation with a catalog agent; it succeeds exactly when the stream does not throw |
| Coordinator.BeginEffect | lib/ai/multi-agent/coordinator.ts:147-152 | An unknown current agent leaves the coordinator with only `isActive` set and the "no current agent" error. Otherwise the coordinator is active while delegating to the catalog entry of the new current agent, and inactive when `streamText` throws |
| Coordinator.BeginStepOrder | lib/ai/multi-agent/coordinator.ts:155-206 | Before delegation a call appends, in order: a reasoning step by the original agent previewing the message; a handoff step exactly when the policy fired; a tool-listing step exactly when tools survived filtering; a processing step listing the active agent's expertise |
| Coordinator.ApplyEvents | lib/ai/multi-agent/coordinator.ts:213-222 | Each tool-call event appends one tool-call step by the active agent carrying the tool name and arguments, in event order; other events and other state are untouched |
| Coordinator.Settle | lib/ai/multi-agent/coordinator.ts:226-235 | The coordinator ends inactive; a resolved stream appends exactly one completion step by the active agent and a rejected one appends nothing |
| Coordinator.ProcessMessageOutcome | lib/ai/multi-agent/coordinator.ts:137-242 | Histories and notifications only grow. The outcome is resolved, rejected, a "no current agent" throw or a stream throw, each exactly in its case; "no active agent after handoff" never occurs; only the "no current agent" throw leaves the coordinator active |
| Coordinator.ProcessMessageValid | lib/ai/multi-agent/coordinator.ts:137-242 | Every call keeps the invariant: current agent in the catalog, step ids increasing, handoffs chaining from the default agent, timestamps increasing, and observers having seen exactly the histories |
| Coordinator.ProcessMessageLifecycle | lib/ai/multi-agent/coordinator.ts:208-235 | When the stream runs, after the pre-delegation steps come one tool-call step per tool-call event, then one completion step exactly when the stream resolves; no other completion step appears in the call |
| Coordinator.ActiveWhileStreaming | lib/ai/multi-agent/coordinator.ts:147-222 | While step-finish events arrive, at every prefix of them, the coordinator is active |
| Coordinator.MissingAgentKeepsActive | lib/ai/multi-agent/coordinator.ts:147-152 | With an unknown current agent the call throws "no current agent", appends nothing and leaves `isActive` true |
| Coordinator.StreamThrowEndsInactive | lib/ai/multi-agent/coordinator.ts:238-241 | A throw of `streamText` is re-raised, keeps the pre-delegation steps, adds no completion step and leaves the coordinator inactive |
| Coordinator.ProcessMessageEndState | lib/ai/multi-agent/coordinator.ts:226-235 | Once the stream settles, the coordinator is inactive and keeps the agent and handoffs chosen before delegation |
| Coordinator.BeginAddsNoCompletion | lib/ai/multi-agent/coordinator.ts:155-206 | None of the pre-delegation steps is a completion step |
| Provider.InitialState | components/multi-agent-provider.tsx:22-29 | The provider starts at the default agent with empty histories, inactive, with the static catalog and empty context |
| Provider.AddStep | components/multi-agent-provider.tsx:31-37 | The step is appended after unchanged earlier steps, and the provider is inactive exactly when the step is a completion; nothing else changes |
| Provider.AddHandoff | components/multi-agent-provider.tsx:39-45 | The handoff is appended and its target becomes the current agent; steps and activity are unchanged |
| Provider.ClearHistory | components/multi-agent-provider.tsx:47-55 | Both histories become empty, the provider is inactive at the default agent, and catalog and context are kept |
| Provider.ClearHistoryIdempotent | components/multi-agent-provider.tsx:47-55 | Clearing twice is the same as clearing once |
| Provider.ClearRestoresInitial | components/multi-agent-provider.tsx:22-55 | Clearing a provider that has the static catalog and empty context gives the initial state |
| Provider.ClearForgets | components/multi-agent-provider.tsx:47-55 | Whatever came before a clear has no effect on the later state |
| Provider.ReducersAreIndependent | components/multi-agent-provider.tsx:31-45 | Adding a step and adding a handoff commute |
| Provider.ReplayConsistent | components/multi-agent-provider.tsx:23-53 | Every sequence of updates keeps the current agent equal to the default or to the target of the latest handoff, and activity equal to "the latest step is not a completion" |
| Provider.ReplayFromInitial | components/multi-agent-provider.tsx:22-55 | From the initial state, the histories are exactly the steps and handoffs added since the latest clear, and the current agent is the target of the latest of those handoffs, or the default |
| AgentData.Absorb | hooks/use-agent-data.ts:18-38 | A step with a held id leaves the steps unchanged, otherwise it is appended. A handoff matching a held one on timestamp, from and to leaves the handoffs unchanged, otherwise it is appended. The current agent becomes the step's agent or the handoff's target, even for duplicates. Other items change nothing |
| AgentData.Fold | hooks/use-agent-data.ts:17-39 | The lists only grow, every item ends up held, and the current agent is that of the latest step or handoff item |
| AgentData.OnData | hooks/use-agent-data.ts:14-40 | Missing data changes nothing; present data is absorbed |
| AgentData.FoldKeepsDistinct | hooks/use-agent-data.ts:8-34 | Held step ids stay pairwise distinct and held handoffs stay pairwise different |
| AgentData.FoldHeld | hooks/use-agent-data.ts:22-34 | Items that are all already held leave both lists unchanged |
| AgentData.FoldIdempotent | hooks/use-agent-data.ts:17-39 | Folding the same items a second time changes nothing |
| AgentData.FoldAppend | hooks/use-agent-data.ts:17-39 | Folding a concatenation is folding one part after the other |
| AgentData.GrownStream | hooks/use-agent-data.ts:14-40 | When the data stream grows, re-folding the whole stream gives the same state as folding it once |
| AgentData.ClearAgentData | hooks/use-agent-data.ts:42-46 | Clearing empties both lists, resets the current agent to the default, and leaves no agent data |
| AgentData.ClearThenFold | hooks/use-agent-data.ts:8-46 | After clearing, folding behaves as from the initial state |
| AgentData.HasAgentDataIffItems | hooks/use-agent-data.ts:53 | From the initial state, the hook has agent data exactly when some item is a step or a handoff |
| Replay.HookAbsorbsNotices | hooks/use-agent-data.ts:17-39 | A log with increasing step ids and increasing handoff timestamps reaches a fresh hook without loss: it holds exactly the logged steps and handoffs and names the latest agent |
| Replay.HookMirrorsCoordinator | lib/ai/multi-agent/coordinator.ts:48-127 | A hook fed all notifications of a reachable coordinator holds its step and handoff histories and its current agent |
| Replay.ProviderAbsorbsNotices | components/multi-agent-provider.tsx:31-45 | A provider fed a notification log holds exactly its steps and handoffs |
| Replay.ProviderMirrorsCoordinator | lib/ai/multi-agent/coordinator.ts:48-127 | A provider fed all notifications of a reachable coordinator holds its histories and current agent, and is active exactly when the latest step is not a completion |
| Replay.ObserversAfterCall | lib/ai/multi-agent/coordinator.ts:137-242 | After a completed call, hook, provider and coordinator agree on the steps and current agent, and provider and coordinator are both inactive |
| Scenario.ResearchKeepsWeatherTool | lib/ai/multi-agent/coordinator.ts:174-177 | Of the tools offered to the research agent, only getWeather survives filtering |
| Scenario.WeatherQuestion | lib/ai/multi-agent/coordinator.ts:137-242 | "Research the WEATHER" on a new coordinator, with one getWeather call and a resolved stream, ends at the research agent after one handoff from the default agent with the research reason. The steps are reasoning, handoff, reasoning, reasoning, tool call, completion; the first is by the default agent and the rest by the research agent; the coordinator ends inactive |
| Scenario.ResearchCallSteps | lib/ai/multi-agent/coordinator.ts:155-235 | Any call starting fresh at the default agent where the research rule fires and one getWeather call happens yields those six steps, with the tool call carrying its arguments |
| Scenario.OneToolCallSteps | lib/ai/multi-agent/coordinator.ts:213-231 | A resolved stream with one tool-call event appends exactly a tool-call step and then a completion step, both by the agent delegated to |

## Left out

- The asynchronous interleaving of `streamText`, its Promise chain and the
  `onStepFinish` callback. A stream is a `StreamRun` value: a throw of
  `streamText` itself, or a finite list of step-finish events followed by
  resolution or rejection. The events are applied in order, then the settlement. A stream
  that never settles is not modelled; in the source it leaves `isActive`
  true.
- The `await` of `shouldHandoff` (lib/ai/multi-agent/coordinator.ts:162)
  is not modelled as a suspension point. The policy resolves at once and
  writes no state. Another call on the same coordinator could only run
  there if calls overlapped, and the model assumes they do not.
- What the streaming call returns to the caller. The model records only
  the outcome: resolved, rejected, or one of the three thrown errors.
- `generateUUID` and `new Date()` become a counter and a clock in the
  coordinator. Each step takes the next id and each timestamp read ticks the
  clock. Real UUIDs are only unique, and the model's increasing ids are a
  stronger assumption that the hook's de-duplication argument relies on.
- Replay.HookMirrorsCoordinator: relies on the model's clock strictly
  increasing, so that no two handoffs share a timestamp. `new Date()` has
  millisecond resolution and can repeat a value or go back. Two handoffs
  between the same pair of agents within one millisecond would then be
  merged by the hook, which de-duplicates on timestamp, source and target.
  `Replay.HookAbsorbsNotices` states the assumption as an explicit
  precondition, with strictly increasing timestamps.
- `toLowerCase` is modelled on ASCII letters only. Every keyword is ASCII,
  so a non-ASCII character is never part of a match.
- String length and `substring` count UTF-16 code units in the source. The
  model counts characters, so the 100-character preview is exact only for
  text in the Basic Multilingual Plane.
- The exact text of the enhanced system prompt and of step contents is
  left out. `JSON.stringify` of tool arguments is taken as given: a `Json`
  value carries its text. Of the prompt, the model keeps the handoff window.
- The `context` and `metadata` payloads are uninterpreted values.
  `shouldHandoff` ignores its context argument, and the model does too.
- An observer callback that throws is not modelled. Both observers are
  taken to return normally, and their calls are logged as notifications.
- Mutating the returned snapshot is not modelled. `getState` is a shallow
  copy, so a caller who pushes onto the snapshot's arrays changes the
  engine's histories. The model shows only that the snapshot keeps sharing
  the histories (`Coordinator.SnapshotIsShallow`).
- `useMultiAgent`, React state and context plumbing, `useDataStream` and
  the reasoning UI component are left out. The model keeps only the pure
  updaters and the effect's fold.
- The search and PDF tools and the console test script are outside the
  engine.
- HandoffPolicy.WriteAndDebugExample: states the rule-priority example on
  the message "write and debug". This carries the same keywords as "please
  write and debug this function", where "function" is one more technical
  keyword that changes nothing, because the document rule already fires.
- Coordinator.FilterTools: its own contract states only the empty result
  when no tools are requested. The full filtering property is stated by
  `Coordinator.FilterToolsSpec`.
- Scenario.WeatherQuestion: uses the short message "Research the WEATHER".
  A longer question such as "Can you research the weather in Paris?" adds
  only tokens that are no keyword of any rule ("can", "you", "in",
  "paris?"), so the decision is the same.

## Behaviour worth knowing

The model follows the code in each of these cases.

- A failed lookup of the current agent leaves `isActive` true. The "No
  current agent available" throw (lib/ai/multi-agent/coordinator.ts:149-152)
  comes after `isActive` is set (line 147), and nothing resets it.
  `Coordinator.MissingAgentKeepsActive` states this.
- The throw "No active agent available after handoff" (lines 168-171)
  would leave `isActive` true in the same way. The model proves this throw
  unreachable, because every rule target is a catalog agent.
- `getState` returns a shallow copy. Its arrays are the live histories,
  while its scalars are frozen at the time of the call.
