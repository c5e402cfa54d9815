# AgentRD2 verification

A Dafny model of the AgentRD2 runtime and game bridge, with proofs.

The runtime gives pedestrians of a running game an agent: it watches which
non-player characters (NPCs) the player comes near, takes them over, asks a
decision backend what they do next, and hands them back. A bridge inside the game
sends it messages and carries out its action requests. Each bridge message is
handled under one lock, so the runtime is a transition system with one atomic
step per message. The project models

- the ownership machine of each NPC and the manager of their records
  (`Ownership.dfy`);
- the runtime's state, its atomic acts and the conditions under which each is
  performed (`Scheduler.dfy`), the reasoning turn (`Turns.dfy`), the message
  handlers (`Handlers.dfy`), what goes out to timeline and bridge (`Journal.dfy`),
  the repair of backend decisions (`Decisions.dfy`), the book of pending requests
  (`Dispatching.dfy`);
- the same runtime as the program performs it, as classes with fields, loops and
  mutual recursion (`Transport.dfy`, `Runtime.dfy`), each method proved to be the
  corresponding step;
- what holds over every run of messages (`HandlerProofs.dfy`, `Runs.dfy`,
  `Promotions.dfy`, `Promptness.dfy`, `Provenance.dfy`, `Overlay.dfy`,
  `Requests.dfy`, `Goals.dfy`, `Suspensions.dfy`, `Spacing.dfy`, `Fleeing.dfy`),
  exactly when the caps are exceeded (`Exceptions.dfy`), and runs from a fresh
  runtime that show the exceptions (`Witnesses.dfy`); what a turn and a handler
  never let out (`Withholding.dfy`, `Answers.dfy`);
- the action protocol between dispatcher and bridge (`Protocol.dfy`), and the whole
  runtime with the bridge at its other end (`Composition.dfy`);
- the bridge's JSON codec (`MiniJson.dfy`, `JsonCodec.dfy`), line framing
  (`Framing.dfy`) and both from end to end (`Exchange.dfy`);
- the timeline's tail reader (`TailReader.dfy`) and sequence cache
  (`Sequences.dfy`);
- the eligibility gate's glob matcher (`Glob.dfy`).

How the runtime part is put together: a state is *live* when a sequence of enabled
acts leads to it. Every handler is shown to be such a sequence, so a property that
each enabled act keeps holds after every run of messages. Functions over values say
what a step does; the classes perform it; `Runtime.Session` ties the two together.

Assumptions, stated once:

- Timeline writes and backend calls do not fail. The backend, the clock, profile
  courage, numeric text and recent positions are arbitrary functions (`Env`); a
  clock that never runs back and a backend that speaks only through a decision's
  speech are assumed only where a lemma says so.
- `candidate_distance_m` is not negative; the classes require it. The
  stronger relation between the two radii is assumed only by
  `Provenance.EngagementIsEarned`, and `Provenance.ProvenanceIsExact` shows that it
  is needed.
- Request ids are fresh, and the line a dispatch writes for speech carries a reading
  of the runtime's clock.

Some tempting claims are not kept by the code; the model follows the code, and each
such claim has the exact condition under which it fails:

- *The agent cap holds.* Turning to an NPC exceeds it exactly when the NPC is aware
  or in a quest dialogue and no slot is free
  (`Exceptions.TalkingExceedsTheCapExactly`), a story-safety clear exactly when
  somebody returns to a slot and not all fit
  (`Exceptions.ClearingExceedsTheAgentCapExactly`), nothing else ever
  (`Runs.OnlyOverridesExceedCaps`).
- *The conversation cap holds.* Only a story-safety clear exceeds it, exactly when
  the conversations and those suspended from one do not fit it together
  (`Exceptions.ClearingExceedsTheConversationCapExactly`).
- *No deferred NPC waits beside a free slot.* Only story-safety changes and scans of
  peds flagged for a quest leave one waiting (`Promptness.RunsServe`): exactly when is
  said for any targets of a suspension or a clear and for any list of scanned peds
  (`Promptness.SuspendingNeglectsExactly`, `Promptness.ClearingNeglectsExactly`,
  `Promptness.ScanNeglectsExactly`), and the next tick always ends it
  (`Promptness.TickedRunsServe`).
- *A threatened NPC of low courage flees.* It does in every turn it is given for the
  threat (`Fleeing.ThreatenedTurnFlees`); the message sends it fleeing exactly when
  its body is its own and it gets that turn at once
  (`Fleeing.ThreatSendsFleeingExactly`).
- *Unprompted speech is spaced.* It is when the backend speaks only through a
  decision's speech (`Spacing.SpeechIsSpaced`). While a cooldown is running, a turn
  without an exempt reason speaks exactly when the decision holds a `say` action with
  text (`Spacing.CoolingTurnSpeaksExactly`), and runs do
  (`Witnesses.SayActionsAreUnspaced`).
- *An NPC's goal is the fold of its timeline.* It is exactly when the newest goal
  event was in the rehydration window at the first meeting, or was written since
  (`Goals.GoalsAreEventSourced`).
- *Suspend and resume restore the state.* Exactly when it was not RELEASE
  (`Ownership.ResumeRestores`).
- *Engagement is earned.* Exactly when the aware radius lies within the candidate
  distance (`Provenance.ProvenanceIsExact`).
- *The tail reader returns the last lines.* For one chunk size exactly when the file
  ends well up to the chunk boundary (`TailReader.ExactForThisChunk`), for every
  chunk size exactly when it ends well at all (`TailReader.ExactForEveryChunk`).
- *Timelines are numbered consecutively.* Exactly when no two NPC ids share a file
  (`Sequences.NumberingIsExact`).
- *Queued lines survive a failing send.* All that was not sent whole is queued again
  exactly when the send fails at the last line before any byte of it went out
  (`Framing.BreakingOffKeepsExactly`). Across the reconnect every message arrives
  whole exactly when it fails at the last message and not inside its text
  (`Exchange.ReconnectKeepsExactly`).

To check everything: `dafny verify dfyconfig.toml`.

## Model

| member | source | states |
|---|---|---|
| `Ownership.ScanChange` | runtime-go/internal/state/ownership.go:206-275 | for each destination of a scan update, exactly which states, distances and verdicts lead to it |
| `Ownership.Manager.Get` | runtime-go/internal/state/ownership.go:135-152 | a record is created, Rockstar-owned, on first sight and listed once, in first-seen order |
| `Ownership.Manager.State` | runtime-go/internal/state/ownership.go:157-160 | the state before the look-up |
| `Ownership.Manager.CanReason` | runtime-go/internal/state/ownership.go:164-172 | true in AWARE, AI_ACTIVE, AI_CONVERSATION and QUEST_DIALOGUE only |
| `Ownership.Manager.CanSpeak` | runtime-go/internal/state/ownership.go:176-184 | true in AI_ACTIVE, AI_CONVERSATION and QUEST_DIALOGUE only |
| `Ownership.Manager.Transition` | runtime-go/internal/state/ownership.go:104-115 | state, saved state and history after one change; every other record unchanged |
| `Ownership.Manager.UpdateFromScan` | runtime-go/internal/state/ownership.go:206-275 | the ledger and the reported transition are those of the scan branch table |
| `Ownership.Manager.EnterQuestDialogue` | runtime-go/internal/state/ownership.go:279-290 | same, for entering a quest dialogue |
| `Ownership.Manager.PushToTalk` | runtime-go/internal/state/ownership.go:296-307 | same, for push-to-talk |
| `Ownership.Manager.ConversationEnded` | runtime-go/internal/state/ownership.go:310-319 | same, for the end of a conversation |
| `Ownership.Manager.RequestReleaseOf` | runtime-go/internal/state/ownership.go:323-334 | same, for a release request with its default reason |
| `Ownership.Manager.FinalizeRelease` | runtime-go/internal/state/ownership.go:338-346 | same, for finalising a release |
| `Ownership.Manager.SuspendOwnership` | runtime-go/internal/state/ownership.go:352-366 | same; the state before is saved |
| `Ownership.Manager.ResumeOwnership` | runtime-go/internal/state/ownership.go:371-392 | same; the saved state is restored and forgotten |
| `Ownership.Manager.ResumeState` | runtime-go/internal/state/ownership.go:376-385 | the saved state, or AWARE when none is worth returning to |
| `Ownership.PerformKeeps` | runtime-go/internal/state/ownership.go:104-392 | every operation keeps histories connected and a suspension paired with a state to return to |
| `Ownership.HistoryIsPath` | runtime-go/internal/state/ownership.go:104-115 | after any operations every history is a connected path from ROCKSTAR to the current state |
| `Ownership.SuspensionIsFrozen` | runtime-go/internal/state/ownership.go:206-366 | no operations other than resume and request-release change a suspended record |
| `Ownership.ResumeRestores` | runtime-go/internal/state/ownership.go:352-392 | suspend, any such operations, resume: the earlier state is restored exactly when it was not RELEASE |
| `Decisions.Normalize` | runtime-go/internal/agent/decision.go:154-225 | what survives is a supported tool with its required argument; silence only for a say beside a spoken line |
| `Decisions.SurvivorsAreReady` | runtime-go/internal/agent/decision.go:121-149 | every survivor is supported, carries its argument, and is no duplicate say |
| `Decisions.StabilizeAccounts` | runtime-go/internal/agent/decision.go:121-149 | each action survives, logs exactly one failure, or is a duplicate say |
| `Decisions.StabilizeIsIdempotent` | runtime-go/internal/agent/decision.go:121-225 | a second pass, whatever it looks up, changes and logs nothing |
| `Decisions.ReadyIsDispatched` | runtime-go/internal/tools/speech.go:40-55 | no survivor is refused by its tool handler for a missing argument |
| `Decisions.ThreatenedNpcFlees` | runtime-go/internal/agent/decision.go:314-344 | for every decision, what is left of its actions after guardrails and repair holds flee_from and none of go_to, follow, wander, investigate when an NPC of courage below 0.48 is threatened |
| `Fleeing.ThreatenedTurnFlees` | runtime-go/internal/agent/scheduler.go:20-58 | the whole turn of such an NPC, unless Rockstar owns its body: whatever the backend decides, flee_from is sent for it and no pursuing tool is |
| `Fleeing.ThreatSendsFleeingExactly` | runtime-go/internal/agent/scheduler.go:282-318 | a threat message sends an NPC of courage below 0.48 fleeing if and only if it is not overlaid and is either aware with a slot free or engaged already |
| `Decisions.GuardAddsNoSpeech` | runtime-go/internal/agent/decision.go:314-375 | the guardrails never add or change speech |
| `Decisions.NormalizeAction` | runtime-go/internal/agent/decision.go:154-225 | the imperative repair agrees with the verdict function |
| `Decisions.FilterActions` | runtime-go/internal/agent/decision.go:441-450 | exactly the actions whose tool is not blocked, in order |
| `Decisions.ApplyBehaviorGuardrails` | runtime-go/internal/agent/decision.go:314-375 | the imperative guardrails agree with the guard function |
| `Transport.Dispatcher.Dispatch` | runtime-go/internal/agent/dispatcher.go:50-93 | the book, the journal lines (start, speech, request) and the clock after a dispatch |
| `Transport.Dispatcher.Resolve` | runtime-go/internal/agent/dispatcher.go:98-111 | a known id is returned, struck out once and noted; an unknown one changes nothing |
| `Transport.Dispatcher.RemoveLocked` | runtime-go/internal/agent/dispatcher.go:159-167 | the id leaves the map and the order, the rest keeps its place |
| `Transport.Dispatcher.PendingNPCIDs` | runtime-go/internal/agent/dispatcher.go:134-144 | exactly the NPCs with a request in flight |
| `Transport.Dispatcher.PendingRequests` | runtime-go/internal/agent/dispatcher.go:147-157 | all pending requests, in dispatch order |
| `Dispatching.AcceptKeeps` | runtime-go/internal/agent/dispatcher.go:50-59 | the order lists the pending ids once each; no short overlay is booked |
| `Dispatching.RemoveKeeps` | runtime-go/internal/agent/dispatcher.go:159-167 | the same after a removal |
| `Runtime.NpcAgentRuntime.RehydrateGoal` | runtime-go/internal/agent/agent.go:261-276 | the backwards loop finds the goal a forward fold over the window gives |
| `Runtime.NpcAgentRuntime.AgentStateLocked` | runtime-go/internal/agent/agent.go:250-280 | bookkeeping appears on first use with the goal restored from the timeline |
| `Runtime.NpcAgentRuntime.SetDeferred` | runtime-go/internal/agent/scheduler.go:370-375 | re-deferring keeps the place in the queue and replaces the reason |
| `Runtime.NpcAgentRuntime.RemoveDeferred` | runtime-go/internal/agent/scheduler.go:379-390 | the NPC leaves map and queue; the others keep their order |
| `Runtime.NpcAgentRuntime.PopDeferred` | runtime-go/internal/agent/scheduler.go:394-404 | the oldest entry that has a reason, entries without one dropped |
| `Runtime.NpcAgentRuntime.StabilizeDecision` | runtime-go/internal/agent/decision.go:121-149 | survivors and logged failures are those of the stabilisation function |
| `Runtime.NpcAgentRuntime.KeepSpeech` | runtime-go/internal/agent/decision.go:18-39 | under the overlay only say survives and every other action logs one failure |
| `Runtime.NpcAgentRuntime.ExecuteDecision` | runtime-go/internal/agent/decision.go:15-112 | the state after execution, step for step |
| `Runtime.NpcAgentRuntime.ApplySpeechPolicy` | runtime-go/internal/agent/decision.go:380-408 | speech is dropped exactly when the policy applies and a cooldown is running |
| `Runtime.NpcAgentRuntime.ReasoningCount` | runtime-go/internal/agent/scheduler.go:28-33 | how many NPCs are reasoning, in whatever order the map is walked |
| `Runtime.NpcAgentRuntime.EmitWaitGesture` | runtime-go/internal/agent/scheduler.go:135-157 | a thinking gesture exactly when enabled, not overlaid and active |
| `Runtime.NpcAgentRuntime.ScheduleReasoning` | runtime-go/internal/agent/scheduler.go:20-58 | a turn is taken exactly when the NPC is not reasoning, may reason and the scheduler has room; its whole effect |
| `Runtime.NpcAgentRuntime.ActiveAgentCount` | runtime-go/internal/agent/scheduler.go:322-331 | the number of NPCs in AI_ACTIVE or AI_CONVERSATION |
| `Runtime.NpcAgentRuntime.CanPromoteAgent` | runtime-go/internal/agent/scheduler.go:340-346 | active already, or a slot is free |
| `Runtime.NpcAgentRuntime.RecordTransition` | runtime-go/internal/agent/scheduler.go:452-498 | the line, the hand-off clean-up, the finalised release and every promotion it makes room for |
| `Runtime.NpcAgentRuntime.PromoteNextDeferred` | runtime-go/internal/agent/scheduler.go:351-364 | the loop with its recursion is the promotion step |
| `Runtime.NpcAgentRuntime.MakeMeaningful` | runtime-go/internal/agent/scheduler.go:282-318 | activate, defer or just think, each with its whole effect |
| `Runtime.NpcAgentRuntime.EnsureSingleConversation` | runtime-go/internal/agent/scheduler.go:409-447 | the oldest excess conversations, and only those, are ended |
| `Runtime.NpcAgentRuntime.ReactToEvent` | runtime-go/internal/agent/scheduler.go:230-277 | the reaction step for every event name |
| `Runtime.NpcAgentRuntime.NpcFromPending` | runtime-go/internal/agent/agent.go:300-313 | the walk over the pending requests finds the NPC of the one with this id, or nobody |
| `Runtime.NpcAgentRuntime.HandleGameEvent` | runtime-go/internal/agent/runtime.go:169-197 | the step of a game event, its NPC found through the pending request if need be |
| `Runtime.NpcAgentRuntime.HandleActionResult` | runtime-go/internal/agent/runtime.go:199-233 | the step of an action result |
| `Runtime.NpcAgentRuntime.MaybeScheduleIdleThinking` | runtime-go/internal/agent/scheduler.go:538-564 | the idle-planning step over all known NPCs |
| `Runtime.NpcAgentRuntime.HandleQuestDialoguePed` | runtime-go/internal/agent/scheduler.go:678-715 | the overlay step, and whether ownership moved |
| `Runtime.NpcAgentRuntime.HandlePed` | runtime-go/internal/agent/runtime.go:113-162 | one scanned ped |
| `Runtime.NpcAgentRuntime.UpdateFromScan` | runtime-go/internal/agent/runtime.go:141-160 | a scan without a trigger never moves anybody to AI_ACTIVE, so the activation branch there is dead |
| `Runtime.NpcAgentRuntime.HandlePedScan` | runtime-go/internal/agent/runtime.go:92-167 | a whole scan, then idle planning |
| `Runtime.NpcAgentRuntime.MaybeReleaseFromWorldState` | runtime-go/internal/agent/runtime.go:65-90 | the step of a player distance beyond the candidate distance |
| `Runtime.NpcAgentRuntime.HandleTalkStart` | runtime-go/internal/agent/runtime.go:264-293 | the step of a push-to-talk start |
| `Runtime.NpcAgentRuntime.HandleTalkStop` | runtime-go/internal/agent/runtime.go:294-314 | the step of a push-to-talk stop |
| `Runtime.NpcAgentRuntime.HandleStorySafety` | runtime-go/internal/agent/runtime.go:322-366 | the step of a story-safety change for one NPC or all |
| `Runtime.NpcAgentRuntime.ReleaseEverybody` | runtime-go/internal/agent/scheduler.go:513-531 | the release loop |
| `Runtime.NpcAgentRuntime.Tick` | runtime-go/internal/agent/scheduler.go:571-577 | idle planning, then promotion |
| `Runtime.NpcAgentRuntime.HandleMessage` | runtime-go/internal/agent/runtime.go:21-46 | every message is exactly one step of the transition system |
| `Runtime.Session` | runtime-go/internal/agent/runtime.go:21-46 | a fresh runtime fed any messages ends in the state the run theorems speak of |
| `Scheduler.StructureStep` | runtime-go/internal/agent/scheduler.go:370-498 | every guarded act keeps: nobody in RELEASE, queue and reason map in step, only engaged NPCs queued |
| `Promotions.RunsAreStructured` | runtime-go/internal/agent/scheduler.go:370-404 | after every run: no record in RELEASE, the queue lists the keys of its reason map once each, all of them engaged |
| `Promotions.ActRefinesOrderedMap` | runtime-go/internal/agent/scheduler.go:367-404 | under every act queue and reasons together are an ordered map: which entry joins, is replaced in place or leaves, and with which reason |
| `Promotions.RunsRefineOrderedMap` | runtime-go/internal/agent/scheduler.go:367-404 | after every run they are what those effects make of the empty map |
| `Promotions.PromotionIsExact` | runtime-go/internal/agent/scheduler.go:351-364 | exactly the first min(free slots, waiting) still-aware NPCs, oldest first, become active; nobody else moves; queue empty or house full |
| `Promotions.ReleaseAllReleasesAll` | runtime-go/internal/agent/scheduler.go:513-531 | from every state between messages, everybody ends in ROCKSTAR and nobody is waiting, though releases promote while the loop runs |
| `Promotions.EveryRunCanBeReleased` | runtime-go/internal/agent/scheduler.go:513-531 | the same after every run of messages |
| `Runs.OnlyOverridesExceedCaps` | runtime-go/internal/agent/scheduler.go:282-364 | no message but talk start, player speech and a story-safety clear adds a conversation or goes beyond max(previous count, cap) |
| `Runs.TurningToAnNpcRestoresTheCap` | runtime-go/internal/agent/scheduler.go:409-447 | talk start and player speech leave at most max(1, cap) conversations, whatever held before |
| `Runs.RunIsGood` | runtime-go/internal/agent/runtime.go:21-46 | every run is a legal run of guarded acts; without a story-safety clear the conversation cap always holds |
| `Exceptions.TalkingExceedsTheCapExactly` | runtime-go/internal/state/ownership.go:296-307 | talk start and player speech go beyond max(previous count, cap) exactly when the NPC is in AWARE or QUEST_DIALOGUE and no slot is free |
| `Exceptions.ClearingExceedsTheConversationCapExactly` | runtime-go/internal/agent/runtime.go:342-364 | after a clear, for one NPC or all, the conversation cap holds exactly when the conversations and those suspended from one among the targets fit it |
| `Exceptions.ClearingExceedsTheAgentCapExactly` | runtime-go/internal/agent/runtime.go:342-364 | a clear goes beyond max(previous count, cap) exactly when somebody returns to a slot and the active and the returning together exceed the cap |
| `Witnesses.TurningToTwoTakesTwoSlots` | runtime-go/internal/agent/runtime.go:264-293 | a run with one slot: two NPCs met, both turned to, two slots taken, by a talk start or by speech |
| `Witnesses.ClearingMakesTwoConversations` | runtime-go/internal/agent/runtime.go:342-364 | a run with a cap of one: a conversation suspended, another begun, the first cleared, two conversations |
| `Promptness.OtherMessagesServe` | runtime-go/internal/agent/scheduler.go:351-364 | no message but a story-safety change or a scan of a quest ped leaves a deferred aware NPC waiting beside a free slot |
| `Promptness.RunsServe` | runtime-go/internal/agent/scheduler.go:351-364 | after every run without those messages nobody waits beside a free slot |
| `Promptness.TickServes` | runtime-go/internal/agent/scheduler.go:571-577 | a tick serves whoever was left waiting |
| `Promptness.TickedRunsServe` | runtime-go/internal/agent/scheduler.go:571-577 | so after any run at all that ends in a tick nobody waits beside a free slot |
| `Promptness.ReleasingServes` | runtime-go/internal/agent/scheduler.go:452-498 | every release ends with nobody waiting beside a free slot |
| `Promptness.SuspendingNeglectsExactly` | runtime-go/internal/agent/runtime.go:342-364 | suspending any targets leaves somebody waiting exactly when an aware NPC outside them is queued and the others' slots do not reach the cap |
| `Promptness.ClearingNeglectsExactly` | runtime-go/internal/agent/runtime.go:342-364 | clearing does exactly when a queued NPC is or becomes aware and the slots held and regained do not reach the cap |
| `Promptness.ScanNeglectsExactly` | runtime-go/internal/agent/runtime.go:113-162 | a scan of any peds, flagged or not, from any state between messages does exactly when, counted from its last release, a queued aware NPC is none of those that enter a quest dialogue and the others' slots do not reach the cap |
| `Witnesses.WaitersAreNeglected` | runtime-go/internal/agent/scheduler.go:351-364 | runs with one slot in which a suspension or a quest leaves an NPC waiting beside it until the next tick |
| `Provenance.EngagementIsEarned` | runtime-go/internal/state/ownership.go:206-290 | with sound radii, nobody is engaged (or suspended while engaged) without a gate-approved near scan or a quest entry since last in ROCKSTAR |
| `Provenance.ProvenanceIsExact` | runtime-go/internal/agent/runtime.go:65-90 | that holds over all runs exactly when the aware radius lies within the candidate distance |
| `Provenance.HistoriesAreConnected` | runtime-go/internal/state/ownership.go:104-115 | after every run every history is a connected path from ROCKSTAR |
| `Provenance.IdleKeepsRecords` | runtime-go/internal/agent/scheduler.go:538-564 | idle planning moves no record |
| `Overlay.QuestNpcsOnlySpeak` | runtime-go/internal/agent/decision.go:15-47 | after every run quest NPCs are overlaid, and from overlay entry to hand-off every request sent for the NPC is say |
| `Requests.IdlePlansDisturbNobody` | runtime-go/internal/agent/scheduler.go:538-564 | after every run the pending requests are those sent and not resolved, and no idle plan was made for an NPC with one in flight |
| `Goals.GoalsAreEventSourced` | runtime-go/internal/agent/decision.go:48-66 | whatever timelines the runtime starts from and after every run in which the bridge authors no goals, an NPC's goal is the fold of the goal events on its whole timeline exactly when there was none to restore at its first meeting, or the newest was in the window then, or one was written since |
| `Journal.RehydrationIsExact` | runtime-go/internal/agent/agent.go:261-276 | a fresh runtime restores the goal exactly when there is none or its newest goal event is in the window |
| `Suspensions.SuspensionsAlternate` | runtime-go/internal/agent/runtime.go:342-364 | suspended/resumed lines alternate for every NPC, unmatched exactly while it is suspended |
| `Spacing.SpeechIsSpaced` | runtime-go/internal/agent/decision.go:380-408 | each non-exempt line comes a cooldown after the same NPC and a global cooldown after anybody, on every run with a steady clock and a polite backend |
| `Spacing.CoolingTurnSpeaksExactly` | runtime-go/internal/agent/decision.go:93-103 | while a cooldown is running, a turn without an exempt reason speaks exactly when the backend's decision holds a say action with text |
| `Witnesses.SayActionsAreUnspaced` | runtime-go/internal/agent/decision.go:93-103 | a run in which two such lines are spoken at the same time although a cooldown is set |
| `Turns.TurnSettles` | runtime-go/internal/agent/scheduler.go:20-58 | whatever the backend answers, a turn moves nobody and books all its speech |
| `Protocol.Bridge.OnActionRequest` | bridge/src/bridge_runtime.cpp:123-132 | a started action is queued, a refused one reported at once |
| `Protocol.Bridge.Tick` | bridge/src/bridge_runtime.cpp:85-94 | erasing while walking reports exactly what is due, in order, and keeps the rest in order |
| `Protocol.TickMoves` | bridge/src/bridge_runtime.cpp:85-94 | nothing is lost or doubled between the list and the results |
| `Protocol.EveryRequestIsInOnePlace` | runtime-go/internal/agent/dispatcher.go:50-111 | each dispatched request is in exactly one of channel, bridge list, result channel, answered; the book is what is in flight, short overlays left out |
| `Protocol.EverythingIsAnswered` | bridge/src/bridge_runtime.cpp:85-132 | once requests are taken, due and results taken in, every request was answered exactly once and the book is empty |
| `Answers.OtherMessagesTakeNone` | runtime-go/internal/agent/runtime.go:21-46 | no message but an action result takes a result back, and every message only extends the journal |
| `Composition.EveryRequestOfARunIsInOnePlace` | runtime-go/internal/agent/runtime.go:199-233 | whatever the runtime's handlers send while the bridge works: the channel carries what the journal says was sent, each request is in exactly one place or answered once, and the runtime's book holds exactly those in flight, short overlays left out |
| `MiniJson.StringReadsBack` | bridge/include/mini_json.hpp:163-185 | every byte string is read back from its printed form, and no more is consumed |
| `MiniJson.NumberReadsBack` | bridge/include/mini_json.hpp:288-303 | every integer within the 64-bit range that a double holds exactly is read back |
| `MiniJson.ValueReadsBack` | bridge/include/mini_json.hpp:217-341 | whatever follows, a printed tree is read back and exactly its bytes are consumed |
| `MiniJson.ParseUndoesDump` | bridge/include/mini_json.hpp:102-111 | parse(dump(j)) == j for every tree of null, booleans, strings, arrays, objects and integers that lie within the 64-bit range and that a double holds exactly |
| `MiniJson.InsertKeepsOrder` | bridge/include/mini_json.hpp:335 | field assignment keeps keys strictly increasing |
| `MiniJson.InsertedFields` | bridge/include/mini_json.hpp:335 | an assignment replaces the field of that key and leaves all others |
| `MiniJson.ReprintingIsFaithful` | bridge/include/mini_json.hpp:191-197 | any parsed text without inexact numbers prints to a text that parses to the same tree |
| `JsonCodec.Printer.Write` | bridge/include/mini_json.hpp:121-161 | the recursive printer with its loops appends exactly the printed form |
| `JsonCodec.Printer.WriteString` | bridge/include/mini_json.hpp:163-185 | the escaping loop appends exactly the quoted string |
| `JsonCodec.Parser.ParseStringText` | bridge/include/mini_json.hpp:236-286 | the scanning loop with all escapes agrees with the specification, failures included |
| `JsonCodec.Parser.ParseHex` | bridge/include/mini_json.hpp:256-265 | four hexadecimal digits shifted in one by one |
| `JsonCodec.Parser.LexNumberText` | bridge/include/mini_json.hpp:288-302 | the number scanner takes sign, digits, fraction, exponent |
| `JsonCodec.Parser.ParseArray` | bridge/include/mini_json.hpp:305-319 | the array loop agrees with the specification |
| `JsonCodec.Parser.ParseObject` | bridge/include/mini_json.hpp:321-341 | the object loop agrees with the specification |
| `JsonCodec.ParseText` | bridge/include/mini_json.hpp:191-197 | the parser finds the printed tree in its printed text |
| `Framing.DumpFits` | bridge/include/mini_json.hpp:163-185 | no printed tree contains a newline byte |
| `Framing.CuttingIsIrrelevant` | bridge/src/ipc_client.cpp:206-214 | how the stream is cut into chunks makes no difference |
| `Framing.IpcClient.Enqueue` | bridge/src/ipc_client.cpp:128-136 | a non-empty line is queued with exactly one closing newline added if missing |
| `Framing.IpcClient.SendQueued` | bridge/src/ipc_client.cpp:161-182 | the wire carries the queue in order, however lines are split by the socket; when the socket fails, the lines before, part of one line, and only the rest of that one is queued again; when the client is stopped, the lines before |
| `Framing.IpcClient.Connect` | bridge/src/ipc_client.cpp:192-198 | the greeting is queued behind what is still unsent |
| `Framing.BreakingOffKeepsExactly` | bridge/src/ipc_client.cpp:161-182 | what is queued again is everything that was not sent whole exactly when the send failed at the last line and none of that had gone out |
| `Framing.BreakingOffTearsExactly` | bridge/src/ipc_client.cpp:161-182 | what is queued again is the whole line exactly when none of it went out |
| `Framing.IpcClient.Receive` | bridge/src/ipc_client.cpp:206-214 | the find-and-erase loop equals a reader that takes one byte at a time |
| `Framing.MessagesArrive` | bridge/src/ipc_client.cpp:128-214 | any printable messages, any chunking: the reader delivers texts that parse to exactly those messages, in order, and keeps nothing back |
| `Framing.BrokenStreamDelivers` | bridge/src/ipc_client.cpp:161-214 | of a stream that breaks off inside a line the messages before that line are delivered, and its beginning is kept back |
| `Framing.QueueIsStream` | bridge/src/ipc_client.cpp:128-140 | what the sender queues for its messages is their stream |
| `Exchange.SendAndReceive` | bridge/src/ipc_client.cpp:128-214 | messages printed, queued, sent in pieces, received in pieces and parsed: they arrive as sent, or, when the socket fails or the client is stopped, exactly those before the one it was at arrive |
| `Exchange.SendAcross` | bridge/src/ipc_client.cpp:161-198 | a failing connection, then one that holds: the message the first one failed at is handed on in two pieces, those behind it never, then the greeting |
| `Exchange.ReconnectKeepsExactly` | bridge/src/ipc_client.cpp:161-198 | across both every message is handed on whole, and nothing else but the greeting, exactly when the first failed at the last message and not inside its text |
| `TailReader.TailNonEmptyLines` | runtime-go/internal/timeline/store.go:446-497 | the backwards loop returns the last lines of its window |
| `TailReader.WindowIsBoundary` | runtime-go/internal/timeline/store.go:463-478 | the chunked reading stops at the last chunk boundary, counted from the end of the file, that is not behind the newline in front of the last limit + 1 lines |
| `TailReader.ExactForThisChunk` | runtime-go/internal/timeline/store.go:446-497 | for each chunk size: always a suffix of the full scan, equal if and only if limit non-blank lines begin behind that boundary or only blank ones begin before it |
| `TailReader.ExactForEveryChunk` | runtime-go/internal/timeline/store.go:446-497 | exact for every chunk size if and only if the last limit + 1 lines of the file hold limit non-blank ones or no others precede them |
| `TailReader.WithoutBlankLinesTheTailIsExact` | runtime-go/internal/timeline/store.go:446-497 | exact on every file without blank lines, for every limit and chunk size |
| `TailReader.BlankLinesHideALine` | runtime-go/internal/timeline/store.go:467-485 | for every limit and chunk size, files of one line and enough blank ones after it of which the reader returns nothing |
| `TailReader.TheProgramCanMissALine` | runtime-go/internal/timeline/store.go:28-30 | so with the program's own chunk of 64 KiB |
| `Sequences.Store.PathFor` | runtime-go/internal/timeline/store.go:110-125 | the sanitised name, or none |
| `Sequences.Store.NextSeqLocked` | runtime-go/internal/timeline/store.go:372-394 | cache hit, or one scan that fills the cache |
| `Sequences.Store.AppendLocked` | runtime-go/internal/timeline/store.go:317-368 | the event written carries the next number; what is refused; file and cache after it |
| `Sequences.Store.AppendEvent` | runtime-go/internal/timeline/store.go:151-183 | the same for an event created here |
| `Sequences.Store.DeleteTimeline` | runtime-go/internal/timeline/store.go:297-314 | the file and this id's cached number are gone, no others |
| `Sequences.CacheStaysTrue` | runtime-go/internal/timeline/store.go:317-394 | over any operations, with distinct paths, every cached number is the largest in its file |
| `Sequences.FilesStayNumbered` | runtime-go/internal/timeline/store.go:317-394 | over any operations the k-th event of a file begun empty has number k |
| `Sequences.SharingBreaksNumbers` | runtime-go/internal/timeline/store.go:110-125 | two ids with one path: the third append repeats a number |
| `Sequences.NumberingIsExact` | runtime-go/internal/timeline/store.go:110-394 | files are numbered 1, 2, 3, ... in every run over a set of ids exactly when no two share a path |
| `Glob.ClassEnd` | runtime-go/internal/state/eligibility.go:382-396 | the bracket that closes a class, with the rules for ! and a leading ] |
| `Glob.ClassContains` | runtime-go/internal/state/eligibility.go:400-424 | membership by ranges and singles, negation included |
| `Glob.SearchIsExact` | runtime-go/internal/state/eligibility.go:330-376 | the search accepts exactly the names that can be cut into pieces fitting the tokens |
| `Glob.Matcher.Match` | runtime-go/internal/state/eligibility.go:339-373 | an answer taken from memory was finished; each index pair is evaluated at most once; the answer is the search's |
| `Glob.GlobMatch` | runtime-go/internal/state/eligibility.go:330-376 | the memoised matcher decides the declarative relation |

## Left out

- Model backends, prompts, lore, HTTP, speech recognition and synthesis: the backend is an arbitrary decision per turn.
- Scanning, native game calls and the action executor: executing an action either starts it or fails.
- Sockets and threads: lines queued while a send is under way are not modelled; the action protocol's channels are lossless and first in, first out.
- The gate's verdict on a ped and whether a ped is flagged for the quest overlay are inputs of a scan; only the glob matcher inside the gate is modelled.
- Player speech arrives as the event `PLAYER_SPOKE` of a named NPC; whether waiting gestures are enabled and supported by the backend is one setting.
- Replies to the bridge, message normalisation errors and the world snapshot store.
- Quest context and profile contents, mood semantics, tool arguments inside requests and importance scores: nothing below depends on them.
- Record aliasing: the manager's records and the per-NPC bookkeeping are values in a map that the methods replace, so a reference a caller keeps to one of them is not modelled.
- Floating point: distances, clocks and courage are reals; rounding is not modelled.
- Decisions.ReadyIsDispatched: the handlers' argument checks for `say`, `go_to` and `investigate` are the ones in the tool sources; the registry itself and tools beyond the twelve supported ones are not modelled.
- Runtime.NpcAgentRuntime.CallTool: the unknown-tool and panicking-handler paths are not modelled, because a repaired decision only names registered tools.
- Runtime.NpcAgentRuntime.RecordTransition: the markers for hand-off, overlay and consultation in the journal are bookkeeping of the model; the program writes no such lines.
- Transport.Dispatcher.Dispatch: the transport callback is the journal's request line; a missing callback is not modelled.
- Runtime.NpcAgentRuntime.HandleGameEvent: normalisation errors and the repair of a bridge-supplied sequence number are not modelled; the event is one that normalises.
- Runtime.NpcAgentRuntime.HandleQuestDialoguePed: whether the ped carries a quest payload is an input.
- Runtime.NpcAgentRuntime.HandlePed: the eligibility gate's verdict is an input.
- Runtime.NpcAgentRuntime.HandlePedScan: sorting the peds by distance and cutting the list at the tracked limit happen before; the list handled is an input.
- Runtime.NpcAgentRuntime.HandleTalkStart: the choice of a target when the message names none is left to the input.
- Runtime.NpcAgentRuntime.AgentStateLocked: the length of the journal it stores with the bookkeeping is the model's own, kept only so that `Goals.GoalsAreEventSourced` can speak of the first meeting.
- Goals.GoalsAreEventSourced: runs in which the bridge itself reports goal events as created or changed are not covered; the program does not adopt such goals.
- Framing.IpcClient.Receive: that the buffer of unfinished bytes is dropped when a connection ends is not modelled.
- Exchange.SendAcross: the greeting of the first connection counts as one of the messages; the limit on a line's length and the stripping of a carriage return in the runtime's line scanner are not modelled.
- Protocol.EveryRequestIsInOnePlace: the runtime's side is the dispatcher alone, dispatching anything at any time; `Composition.EveryRequestOfARunIsInOnePlace` says it of the whole runtime.
- Composition.EveryRequestOfARunIsInOnePlace: action results that answer no request, which a bridge other than this one might report, are not covered.
- Protocol.EverythingIsAnswered: nothing is dispatched while the channels drain; a failed action would make the whole runtime plan anew.
- MiniJson.ParseUndoesDump: numbers that are not integers from -2^63 up to but excluding 2^63 that a double holds exactly, or are written with a fraction or an exponent such as `1.0` or `1e3`, are kept as the text they were read from and are outside the round trip: the program reads `1.0` and `1e3` as the integers 1 and 1000, rounds the inexact ones and prints ten significant digits, and casting a larger one to a 64-bit integer has no defined result.
- MiniJson.Parse: error texts and positions are not modelled, only that parsing fails.
- Sequences.Store.DeleteTimeline: the refusal to delete a directory of that name is not modelled.
- Sequences.Store.AppendLocked: corrupt or unreadable files, the directory checks of deletion and the other fields a repaired event loses are not modelled.
- TailReader.TailNonEmptyLines: decoding the lines as events is not modelled; what counts as a blank line is an arbitrary predicate.
- Glob.GlobMatch: lower-casing and the decoding of bytes into characters happen in the callers.
- Tool schemas, quest packs, settings merge, `.env` parsing, installers, doctor and scenario runners, and the Python twins of these modules.
