/** The runtime's state and its atomic changes.

    Every message handler is a composition of the acts below, each guarded by the
    condition under which the program performs it.  A state is `Live` when some
    sequence of enabled acts leads to it from the start, so a property that every
    enabled act keeps holds at every point of every run. */
module Scheduler {
  import opened Common
  import opened Names
  import opened Ownership
  import opened Decisions
  import opened Journal
  import opened Dispatching

  datatype Settings = Settings(
    candidateDistance: real,
    awareDistance: real,
    maxReasoning: int,
    maxConversations: int,
    idleSeconds: real,
    cooldown: real,
    globalCooldown: real,
    waitGestures: bool)

  /** Everything the runtime is given: settings, the backend's answers, the
      clock's readings and what it reads from profiles and event payloads, each
      as an arbitrary function; and the timeline lines persisted before it started. */
  datatype Env = Env(
    settings: Settings,
    decide: nat -> Decision,
    clock: nat -> real,
    courage: string -> real,
    parseFloat: string -> Option<real>,
    recentPosition: nat -> Value,
    archive: seq<Item>)

  /** Per-NPC bookkeeping.  `metAt` is the length of the journal when it was made:
      the point in time a restored goal stems from. */
  datatype Agent = Agent(
    goal: Option<string>,
    mood: string,
    conversing: bool,
    lastSpokenAt: real,
    lastDecisionAt: real,
    reasoning: bool,
    dialogueOnly: bool,
    metAt: nat)

  datatype Sys = Sys(
    ledger: Ledger,
    queue: seq<string>,
    reasons: map<string, Reason>,
    agents: map<string, Agent>,
    agentOrder: seq<string>,
    tracked: set<string>,
    desk: Desk,
    lastGlobalSpeechAt: real,
    log: seq<Item>,
    turns: nat,
    ticks: nat,
    nextId: nat)

  const START: Sys :=
    Sys(Ledger(map[], []), [], map[], map[], [], {}, Desk(map[], []), 0.0, [], 0, 0, 0)

  // ---------------------------------------------------------------------
  // Readings of a state
  // ---------------------------------------------------------------------

  ghost function InState(ledger: Ledger, states: set<OwnershipState>): set<string> {
    set n | n in ledger.records && ledger.records[n].state in states
  }

  /** The NPCs that hold an active-agent slot. */
  ghost function Active(s: Sys): set<string> {
    InState(s.ledger, {AIActive, AIConversation})
  }

  ghost function Conversations(s: Sys): set<string> {
    InState(s.ledger, {AIConversation})
  }

  ghost function Reasoning(s: Sys): set<string> {
    set n | n in s.agents && s.agents[n].reasoning
  }

  function Overlaid(s: Sys, npc: string): bool {
    npc in s.agents && s.agents[npc].dialogueOnly
  }

  function Max(a: int, b: int): int {
    if a < b then b else a
  }

  function ConversationCap(env: Env): int {
    Max(1, env.settings.maxConversations)
  }

  function UpdateFor(env: Env, source: Source, distance: real, eligible: bool, trigger: bool): ScanUpdate {
    ScanUpdate(source, distance, eligible, env.settings.candidateDistance, env.settings.awareDistance, trigger)
  }

  /** The update by which a meaningful trigger promotes an aware NPC. */
  function TriggerUpdate(env: Env): ScanUpdate {
    UpdateFor(env, FromTrigger, 0.0, true, true)
  }

  // ---------------------------------------------------------------------
  // State changes
  // ---------------------------------------------------------------------

  function Logged(s: Sys, item: Item): Sys {
    s.(log := s.log + [item])
  }

  function NewAgent(goal: Option<string>, metAt: nat): Agent {
    Agent(goal, "neutral", false, 0.0, 0.0, false, false, metAt)
  }

  /** An NPC's bookkeeping is created on first use, its goal restored from the timeline. */
  function Met(env: Env, s: Sys, npc: string): Sys {
    if npc in s.agents then s
    else s.(agents := s.agents[npc := NewAgent(Rehydrated(env.archive + s.log, npc), |s.log|)],
            agentOrder := s.agentOrder + [npc])
  }

  function Unqueued(s: Sys, npc: string): Sys {
    if npc in s.reasons then s.(reasons := s.reasons - {npc}, queue := Drop(s.queue, npc)) else s
  }

  function Queued(s: Sys, npc: string, reason: Reason): Sys {
    s.(queue := if npc in s.reasons then s.queue else s.queue + [npc],
       reasons := s.reasons[npc := reason])
  }

  function NameOf(move: Move): Option<EventName> {
    if move.EventName().None? && move.to == AIConversation then Some(ConversationStarted) else move.EventName()
  }

  /** The hand-off clean-up: out of the queue, and out of the dialogue-only overlay. */
  function HandedOver(env: Env, s: Sys, npc: string): Sys {
    var met := Met(env, Unqueued(s, npc), npc);
    Logged(met.(agents := met.agents[npc := met.agents[npc].(dialogueOnly := false)]), HandedOff(npc))
  }

  function Announced(s: Sys, move: Move): Sys {
    if NameOf(move).None? then s else Logged(s, Fact(move.npc, NameOf(move).value, ByRuntime, Plain))
  }

  /** Recording a move: its timeline line, and the clean-up of a move to RELEASE
      or ROCKSTAR.  RELEASE is finalised on the spot. */
  function Filed(env: Env, s: Sys, move: Move): Sys {
    var s1 := Announced(s, move);
    if move.to !in {Release, Rockstar} then s1
    else
      var s2 := HandedOver(env, s1, move.npc);
      if move.to == Release then s2.(ledger := Finalized(s2.ledger, move.npc)) else s2
  }

  function ShiftedBy(env: Env, s: Sys, npc: string, change: Change, evidence: Option<ScanUpdate>): Sys {
    var step := Moved(s.ledger, npc, change, evidence);
    if step.move.None? then s.(ledger := step.ledger)
    else Filed(env, s.(ledger := step.ledger), step.move.value)
  }

  /** An ownership operation, recorded. */
  function Shifted(env: Env, s: Sys, npc: string, op: Op): Sys {
    ShiftedBy(env, s, npc, ChangeOf(s.ledger.Lookup(npc), op), EvidenceOf(op))
  }

  function Dispatched(env: Env, s: Sys, npc: string, tool: Tool, reason: Reason): Sys {
    var started := if npc == "" then [] else [Fact(npc, ActionStarted, ByRuntime, Plain)];
    var spoken :=
      if npc == "" || tool != Say then []
      else [Fact(npc, NpcSpoke, ByRuntime, Spoken(reason, env.clock(s.ticks)))];
    s.(desk := s.desk.Accept(Request(s.nextId, npc, tool)),
       log := s.log + started + spoken + [Sent(s.nextId, npc, tool)],
       ticks := s.ticks + |spoken|,
       nextId := s.nextId + 1)
  }

  datatype Act =
    /** Ownership is looked up, or changed by an operation and recorded. */
    | See(npc: string)
    | Shift(npc: string, op: Op)
    /** The queue of deferred activations. */
    | Defer(npc: string, reason: Reason)
    | Pop
    /** Per-NPC bookkeeping. */
    | Meet(npc: string)
    | RaiseOverlay(npc: string)
    | Converse(npc: string, on: bool)
    | Track(npc: string)
    /** Timeline lines that neither move ownership nor belong to a turn. */
    | Note(npc: string, name: EventName, author: Author)
    | Hear(npc: string, name: EventName, payload: Payload)
    | Resolve(id: nat)
    /** The parts of a reasoning turn. */
    | ReadClock
    | Consult(npc: string, reason: Reason)
    | Fail(npc: string)
    | AdoptGoal(npc: string, goal: string)
    | Revise(npc: string, agent: Agent)
    | Dispatch(npc: string, tool: Tool, reason: Reason)
    | StampSpeech

  function Completed(s: Sys, npc: string, name: EventName): Sys {
    if name == GoalCompleted && npc in s.agents
    then s.(agents := s.agents[npc := s.agents[npc].(goal := None)]) else s
  }

  /** A bridge event: its timeline line, the NPC's bookkeeping, a completed goal dropped. */
  function Heard(env: Env, s: Sys, npc: string, name: EventName): Sys {
    Completed(Met(env, s, npc), npc, name)
  }

  function Apply(env: Env, s: Sys, act: Act): Sys {
    match act
    case See(npc) => s.(ledger := s.ledger.Seen(npc))
    case Shift(npc, op) => Shifted(env, s, npc, op)
    case Defer(npc, reason) =>
      Logged(Queued(s, npc, reason), Fact(npc, AgentActivationDeferred, ByRuntime, Plain))
    case Pop => if s.queue == [] then s else s.(queue := s.queue[1..], reasons := s.reasons - {s.queue[0]})
    case Meet(npc) => Met(env, s, npc)
    case RaiseOverlay(npc) =>
      if npc !in s.agents then s
      else Logged(s.(agents := s.agents[npc := s.agents[npc].(dialogueOnly := true)]), OverlayRaised(npc))
    case Converse(npc, on) =>
      if npc !in s.agents then s
      else s.(agents := s.agents[npc := s.agents[npc].(conversing := on)])
    case Track(npc) => s.(tracked := s.tracked + {npc})
    case Note(npc, name, author) => Logged(s, Fact(npc, name, author, Plain))
    case Hear(npc, name, payload) => Heard(env, Logged(s, Fact(npc, name, ByBridge, payload)), npc, name)
    case Resolve(id) => Logged(s.(desk := s.desk.Remove(id)), Resolved(id))
    case ReadClock => s.(ticks := s.ticks + 1)
    case Consult(npc, reason) =>
      Logged(s, Consulted(npc, reason, s.ledger.State(npc))).(turns := s.turns + 1)
    case Fail(npc) => Logged(s, Fact(npc, ActionFailed, ByRuntime, Plain))
    case AdoptGoal(npc, goal) =>
      if npc !in s.agents then s
      else
        var name := if s.agents[npc].goal.None? then GoalCreated else GoalChanged;
        Logged(s, Fact(npc, name, ByRuntime, GoalText(goal)))
          .(agents := s.agents[npc := s.agents[npc].(goal := Some(goal))])
    case Revise(npc, agent) => s.(agents := s.agents[npc := agent])
    case Dispatch(npc, tool, reason) => Dispatched(env, s, npc, tool, reason)
    case StampSpeech => s.(lastGlobalSpeechAt := env.clock(s.ticks), ticks := s.ticks + 1)
  }

  // ---------------------------------------------------------------------
  // When each act is performed
  // ---------------------------------------------------------------------

  /** The clock never runs backwards. */
  ghost predicate SteadyClock(env: Env) {
    forall i: nat, j: nat :: i <= j ==> env.clock(i) <= env.clock(j)
  }

  /** The backend speaks only through a decision's speech, never by a `say` action. */
  ghost predicate SpeaksPolitely(env: Env) {
    forall k: nat :: !Has(env.decide(k).actions, Say)
  }

  predicate IsSpeech(item: Item) {
    item.Fact? && item.payload.Spoken?
  }

  /** Speaking now keeps the cooldown after every line spoken so far. */
  ghost predicate CooledDown(env: Env, s: Sys, npc: string) {
    forall item <- s.log :: IsSpeech(item) ==>
      && env.clock(s.ticks) - item.payload.at >= env.settings.globalCooldown
      && (item.npc == npc ==> env.clock(s.ticks) - item.payload.at >= env.settings.cooldown)
  }

  ghost predicate MaySay(env: Env, s: Sys, npc: string, reason: Reason) {
    SteadyClock(env) && SpeaksPolitely(env) && !Exempt(reason) ==> CooledDown(env, s, npc)
  }

  ghost predicate ShiftEnabled(env: Env, s: Sys, npc: string, op: Op) {
    match op
    case Scan(u) =>
      && u.candidateDistance == env.settings.candidateDistance
      && u.awareDistance == env.settings.awareDistance
      && (match u.source
          case FromPedScan => !u.trigger
          case FromWorldUpdate => !u.trigger && u.eligible && u.distance > env.settings.candidateDistance
          case FromTrigger =>
            u == TriggerUpdate(env) && s.ledger.State(npc) == Aware && |Active(s)| < env.settings.maxReasoning)
    case EnterQuest => Overlaid(s, npc)
    case Talk =>
      s.ledger.State(npc) != AIConversation && |Conversations(s) - {npc}| < ConversationCap(env)
    case Finalize => false
    case _ => true
  }

  ghost predicate Enabled(env: Env, s: Sys, act: Act) {
    match act
    case Shift(npc, op) => ShiftEnabled(env, s, npc, op)
    case Defer(npc, _) =>
      && npc in s.ledger.records && s.ledger.State(npc) == Aware
      && |Active(s)| >= env.settings.maxReasoning
    case Pop => s.queue != []
    case RaiseOverlay(npc) => npc in s.agents
    case Converse(npc, _) => npc in s.agents
    case Note(_, name, author) =>
      if author == ByRuntime then name in {ConversationEnded, ConversationInterrupted}
      else name in {ActionStarted, ActionCompleted, ActionFailed}
    case Hear(_, _, payload) => !payload.Spoken?
    case Consult(npc, reason) =>
      && npc in s.agents && MayReason(s.ledger.State(npc))
      && (reason == Idle ==>
            npc !in s.desk.Busy() && s.ledger.State(npc) == AIActive && !Overlaid(s, npc) && npc in s.tracked)
    case AdoptGoal(npc, _) => npc in s.agents
    case Revise(npc, agent) =>
      && npc in s.agents
      && agent.goal == s.agents[npc].goal && agent.dialogueOnly == s.agents[npc].dialogueOnly
      && agent.metAt == s.agents[npc].metAt
    case Dispatch(npc, tool, reason) =>
      && npc in s.agents && MayReason(s.ledger.State(npc))
      && (Overlaid(s, npc) ==> tool == Say)
      && (tool == Say ==> MaySay(env, s, npc, reason))
    case _ => true
  }

  // ---------------------------------------------------------------------
  // Runs of acts
  // ---------------------------------------------------------------------

  ghost function Replay(env: Env, acts: seq<Act>): Sys {
    if acts == [] then START
    else Apply(env, Replay(env, acts[..|acts| - 1]), acts[|acts| - 1])
  }

  ghost predicate Legal(env: Env, acts: seq<Act>) {
    acts != [] ==>
      && Legal(env, acts[..|acts| - 1])
      && Enabled(env, Replay(env, acts[..|acts| - 1]), acts[|acts| - 1])
  }

  ghost predicate LeadsTo(env: Env, acts: seq<Act>, s: Sys) {
    Legal(env, acts) && Replay(env, acts) == s
  }

  ghost predicate Live(env: Env, s: Sys) {
    exists acts :: LeadsTo(env, acts, s)
  }

  lemma StartIsLive(env: Env)
    ensures Live(env, START)
  {
    assert LeadsTo(env, [], START);
  }

  lemma EnabledActsStayLive(env: Env, s: Sys, act: Act)
    requires Live(env, s) && Enabled(env, s, act)
    ensures Live(env, Apply(env, s, act))
  {
    var acts :| LeadsTo(env, acts, s);
    assert (acts + [act])[..|acts|] == acts;
    assert LeadsTo(env, acts + [act], Apply(env, s, act));
  }

  // ---------------------------------------------------------------------
  // The structural invariant
  // ---------------------------------------------------------------------

  /** The state a record holds, or would hold again if resumed. */
  function Held(r: Record): OwnershipState {
    if r.state == Suspended then ResumeTarget(r.previous) else r.state
  }

  const ENGAGED: set<OwnershipState> := {Aware, AIActive, AIConversation, QuestDialogue}

  /** No record rests in RELEASE, and a suspension always saves a state to return to. */
  predicate RecordRests(r: Record) {
    && r.state != Release
    && (r.state == Suspended ==> r.previous.Some? && r.previous.value !in {Rockstar, Suspended, Release})
  }

  ghost predicate Rested(ledger: Ledger) {
    && Lists(ledger.order, ledger.records.Keys)
    && forall n <- ledger.records :: RecordRests(ledger.records[n])
  }

  /** The queue lists the keys of its reason map, all of them engaged NPCs. */
  ghost predicate QueueInv(s: Sys) {
    && Lists(s.queue, s.reasons.Keys)
    && forall n <- s.reasons :: n in s.ledger.records && Held(s.ledger.records[n]) in ENGAGED
  }

  ghost predicate Structure(s: Sys) {
    && Rested(s.ledger)
    && QueueInv(s)
    && Lists(s.agentOrder, s.agents.Keys)
    && s.desk.Valid()
    && (forall id <- s.desk.pending :: id < s.nextId)
  }

  lemma UnqueuedKeeps(s: Sys, npc: string)
    requires QueueInv(s)
    ensures QueueInv(Unqueued(s, npc)) && npc !in Unqueued(s, npc).reasons
  {
    if npc in s.reasons {
      DropLists(s.queue, s.reasons.Keys, npc);
      assert Unqueued(s, npc).reasons.Keys == s.reasons.Keys - {npc};
    }
  }

  lemma MetKeeps(env: Env, s: Sys, npc: string)
    requires Lists(s.agentOrder, s.agents.Keys)
    ensures Lists(Met(env, s, npc).agentOrder, Met(env, s, npc).agents.Keys)
  {
    if npc !in s.agents {
      AppendLists(s.agentOrder, s.agents.Keys, npc);
      assert Met(env, s, npc).agents.Keys == s.agents.Keys + {npc};
    }
  }

  predicate HandsOff(change: Change) {
    change.Go? && change.to in {Release, Rockstar}
  }

  /** The state a change leaves behind once RELEASE has been finalised. */
  function StateAfter(r: Record, change: Change): OwnershipState {
    if change.Stay? then r.state else if change.to == Release then Rockstar else change.to
  }

  lemma FiledLedger(env: Env, s: Sys, move: Move)
    ensures Filed(env, s, move).ledger ==
            if move.to == Release then Finalized(s.ledger, move.npc) else s.ledger
  {
  }

  lemma MovedRecords(ledger: Ledger, npc: string, change: Change, evidence: Option<ScanUpdate>)
    ensures var r := ledger.Lookup(npc);
            var after := Moved(ledger, npc, change, evidence).ledger;
            && after.records.Keys == ledger.records.Keys + {npc}
            && after.order == ledger.Seen(npc).order
            && after.records[npc].state == (if change.Stay? then r.state else change.to)
            && after.records[npc].previous == (if change.Stay? then r.previous else change.previous)
            && forall n <- ledger.records :: n != npc ==> after.records[n] == ledger.records[n]
  {
  }

  /** A recorded change moves one record and nothing else in the ledger. */
  lemma ShiftedRecords(env: Env, s: Sys, npc: string, change: Change, evidence: Option<ScanUpdate>)
    ensures var r := s.ledger.Lookup(npc);
            var after := ShiftedBy(env, s, npc, change, evidence).ledger;
            && after.records.Keys == s.ledger.records.Keys + {npc}
            && after.order == s.ledger.Seen(npc).order
            && after.records[npc].state == StateAfter(r, change)
            && after.records[npc].previous == (if change.Stay? then r.previous else change.previous)
            && forall n <- s.ledger.records :: n != npc ==> after.records[n] == s.ledger.records[n]
  {
    MovedRecords(s.ledger, npc, change, evidence);
    var step := Moved(s.ledger, npc, change, evidence);
    if step.move.Some? {
      FiledLedger(env, s.(ledger := step.ledger), step.move.value);
      MovedRecords(step.ledger, npc, FinalizeChange(step.ledger.Lookup(npc)), None);
    }
  }

  lemma HandedOverRest(env: Env, s: Sys, npc: string)
    ensures var r := HandedOver(env, s, npc);
            && r.desk == s.desk && r.nextId == s.nextId && r.tracked == s.tracked && r.ledger == s.ledger
            && r.queue == Unqueued(s, npc).queue && r.reasons == Unqueued(s, npc).reasons
            && r.agentOrder == Met(env, s, npc).agentOrder
            && r.agents.Keys == s.agents.Keys + {npc} && !Overlaid(r, npc)
            && forall n <- s.agents :: n != npc ==> r.agents[n] == s.agents[n]
  {
  }

  lemma AnnouncedRest(s: Sys, move: Move)
    ensures Announced(s, move) == s.(log := Announced(s, move).log)
  {
  }

  lemma FiledRest(env: Env, s: Sys, move: Move)
    ensures var r := Filed(env, s, move);
            && r.desk == s.desk && r.nextId == s.nextId && r.tracked == s.tracked
            && (move.to !in {Release, Rockstar} ==>
                  r.queue == s.queue && r.reasons == s.reasons && r.agents == s.agents && r.agentOrder == s.agentOrder)
            && (move.to in {Release, Rockstar} ==>
                  && r.queue == Unqueued(s, move.npc).queue && r.reasons == Unqueued(s, move.npc).reasons
                  && r.agentOrder == Met(env, s, move.npc).agentOrder
                  && r.agents.Keys == s.agents.Keys + {move.npc} && !Overlaid(r, move.npc))
            && forall n <- s.agents :: n != move.npc ==> r.agents[n] == s.agents[n]
  {
    AnnouncedRest(s, move);
    if move.to in {Release, Rockstar} {
      HandedOverRest(env, Announced(s, move), move.npc);
    }
  }

  /** Outside the ledger, only a hand-off cleans anything up. */
  lemma ShiftedRest(env: Env, s: Sys, npc: string, change: Change, evidence: Option<ScanUpdate>)
    ensures var r := ShiftedBy(env, s, npc, change, evidence);
            && r.desk == s.desk && r.nextId == s.nextId && r.tracked == s.tracked
            && (!HandsOff(change) ==> r.queue == s.queue && r.reasons == s.reasons &&
                                      r.agents == s.agents && r.agentOrder == s.agentOrder)
            && (HandsOff(change) ==> r.queue == Unqueued(s, npc).queue && r.reasons == Unqueued(s, npc).reasons &&
                                     r.agentOrder == Met(env, s, npc).agentOrder &&
                                     r.agents.Keys == s.agents.Keys + {npc} && !Overlaid(r, npc))
            && forall n <- s.agents :: n != npc ==> r.agents[n] == s.agents[n]
  {
    var step := Moved(s.ledger, npc, change, evidence);
    if step.move.Some? {
      FiledRest(env, s.(ledger := step.ledger), step.move.value);
    }
  }

  /** No operation leaves a record resting in RELEASE or suspended without a way back. */
  lemma OperationRests(r: Record, op: Op, after: Record)
    requires RecordRests(r)
    requires var change := ChangeOf(r, op);
             after.state == StateAfter(r, change) &&
             after.previous == if change.Stay? then r.previous else change.previous
    ensures RecordRests(after)
    ensures Held(r) in ENGAGED && !HandsOff(ChangeOf(r, op)) ==> Held(after) in ENGAGED
  {
  }

  lemma ShiftKeepsRested(env: Env, s: Sys, npc: string, op: Op)
    requires Rested(s.ledger)
    ensures Rested(Shifted(env, s, npc, op).ledger)
  {
    var r := s.ledger.Lookup(npc);
    var after := Shifted(env, s, npc, op).ledger;
    ShiftedRecords(env, s, npc, ChangeOf(r, op), EvidenceOf(op));
    if npc !in s.ledger.records {
      AppendLists(s.ledger.order, s.ledger.records.Keys, npc);
    }
    OperationRests(r, op, after.records[npc]);
  }

  lemma ShiftKeepsQueue(env: Env, s: Sys, npc: string, op: Op)
    requires Rested(s.ledger) && QueueInv(s)
    ensures QueueInv(Shifted(env, s, npc, op))
  {
    var change := ChangeOf(s.ledger.Lookup(npc), op);
    var r := Shifted(env, s, npc, op);
    ShiftedRecords(env, s, npc, change, EvidenceOf(op));
    ShiftedRest(env, s, npc, change, EvidenceOf(op));
    if HandsOff(change) {
      UnqueuedKeeps(s, npc);
      UnqueuedRecordMoves(s, r, npc);
    } else {
      OperationRests(s.ledger.Lookup(npc), op, r.ledger.records[npc]);
      QueuedRecordMoves(s, r, npc);
    }
  }

  /** One record changes, of an NPC that has left the queue, or that stays engaged. */
  lemma UnqueuedRecordMoves(s: Sys, r: Sys, npc: string)
    requires QueueInv(Unqueued(s, npc)) && npc !in Unqueued(s, npc).reasons
    requires r.queue == Unqueued(s, npc).queue && r.reasons == Unqueued(s, npc).reasons
    requires r.ledger.records.Keys == s.ledger.records.Keys + {npc}
    requires forall n <- s.ledger.records :: n != npc ==> r.ledger.records[n] == s.ledger.records[n]
    ensures QueueInv(r)
  {
  }

  lemma QueuedRecordMoves(s: Sys, r: Sys, npc: string)
    requires QueueInv(s) && r.queue == s.queue && r.reasons == s.reasons
    requires r.ledger.records.Keys == s.ledger.records.Keys + {npc}
    requires forall n <- s.ledger.records :: n != npc ==> r.ledger.records[n] == s.ledger.records[n]
    requires Held(s.ledger.Lookup(npc)) in ENGAGED ==> Held(r.ledger.records[npc]) in ENGAGED
    ensures QueueInv(r)
  {
  }

  lemma ShiftKeepsStructure(env: Env, s: Sys, npc: string, op: Op)
    requires Structure(s)
    ensures Structure(Shifted(env, s, npc, op))
  {
    ShiftedRest(env, s, npc, ChangeOf(s.ledger.Lookup(npc), op), EvidenceOf(op));
    ShiftKeepsRested(env, s, npc, op);
    ShiftKeepsQueue(env, s, npc, op);
    MetKeeps(env, s, npc);
  }

  lemma DeferKeepsStructure(env: Env, s: Sys, npc: string, reason: Reason)
    requires Structure(s) && Enabled(env, s, Defer(npc, reason))
    ensures Structure(Apply(env, s, Defer(npc, reason)))
  {
    if npc !in s.reasons {
      AppendLists(s.queue, s.reasons.Keys, npc);
    }
    assert Queued(s, npc, reason).reasons.Keys == s.reasons.Keys + {npc};
  }

  lemma SeeKeepsStructure(env: Env, s: Sys, npc: string)
    requires Structure(s)
    ensures Structure(Apply(env, s, See(npc)))
  {
    if npc !in s.ledger.records {
      AppendLists(s.ledger.order, s.ledger.records.Keys, npc);
      assert s.ledger.Seen(npc).records.Keys == s.ledger.records.Keys + {npc};
    }
  }

  /** The other acts touch neither records nor queue nor the agents met so far. */
  lemma QuietActsKeepStructure(env: Env, s: Sys, act: Act)
    requires Structure(s) && Enabled(env, s, act)
    requires !act.See? && !act.Shift? && !act.Defer? && !act.Pop?
    requires !act.Meet? && !act.Hear? && !act.Resolve? && !act.Dispatch?
    ensures Structure(Apply(env, s, act))
  {
    var r := Apply(env, s, act);
    assert r.ledger == s.ledger && r.queue == s.queue && r.reasons == s.reasons;
    assert r.agentOrder == s.agentOrder && r.desk == s.desk && r.nextId == s.nextId;
    assert r.agents.Keys == s.agents.Keys;
  }

  lemma MeetingKeepsStructure(env: Env, s: Sys, act: Act)
    requires Structure(s) && (act.Meet? || act.Hear?)
    ensures Structure(Apply(env, s, act))
  {
    if act.Meet? {
      MetKeeps(env, s, act.npc);
    } else {
      var noted := Logged(s, Fact(act.npc, act.name, ByBridge, act.payload));
      MetKeeps(env, noted, act.npc);
      assert Heard(env, noted, act.npc, act.name).agents.Keys == Met(env, noted, act.npc).agents.Keys;
    }
  }

  lemma DeskActsKeepStructure(env: Env, s: Sys, act: Act)
    requires Structure(s) && (act.Resolve? || act.Dispatch?)
    ensures Structure(Apply(env, s, act))
  {
    if act.Resolve? {
      RemoveKeeps(s.desk, act.id);
    } else {
      AcceptKeeps(s.desk, Request(s.nextId, act.npc, act.tool));
    }
  }

  lemma PopKeepsStructure(env: Env, s: Sys)
    requires Structure(s) && s.queue != []
    ensures Structure(Apply(env, s, Pop))
    ensures s.queue[0] in s.reasons && s.queue[0] in s.ledger.records
  {
    UnqueuedKeeps(s, s.queue[0]);
  }

  lemma StructureStep(env: Env, s: Sys, act: Act)
    requires Structure(s) && Enabled(env, s, act)
    ensures Structure(Apply(env, s, act))
  {
    match act {
      case See(npc) => SeeKeepsStructure(env, s, npc);
      case Shift(npc, op) => ShiftKeepsStructure(env, s, npc, op);
      case Defer(npc, reason) => DeferKeepsStructure(env, s, npc, reason);
      case Pop => PopKeepsStructure(env, s);
      case Meet(_) => MeetingKeepsStructure(env, s, act);
      case Hear(_, _, _) => MeetingKeepsStructure(env, s, act);
      case Resolve(_) => DeskActsKeepStructure(env, s, act);
      case Dispatch(_, _, _) => DeskActsKeepStructure(env, s, act);
      case _ => QuietActsKeepStructure(env, s, act);
    }
  }

  /** The structural invariant holds in every live state. */
  lemma {:induction false} StructureAfter(env: Env, acts: seq<Act>)
    requires Legal(env, acts)
    ensures Structure(Replay(env, acts))
  {
    if acts != [] {
      StructureAfter(env, acts[..|acts| - 1]);
      StructureStep(env, Replay(env, acts[..|acts| - 1]), acts[|acts| - 1]);
    }
  }

  lemma StructureHolds(env: Env, s: Sys)
    requires Live(env, s)
    ensures Structure(s)
  {
    var acts :| LeadsTo(env, acts, s);
    StructureAfter(env, acts);
  }

  // ---------------------------------------------------------------------
  // What a recorded change writes
  // ---------------------------------------------------------------------

  /** The lines a recorded move writes. */
  function MoveLines(move: Move): seq<Item> {
    (if NameOf(move).None? then [] else [Fact(move.npc, NameOf(move).value, ByRuntime, Plain)]) +
    (if move.to in {Release, Rockstar} then [HandedOff(move.npc)] else [])
  }

  lemma FiledLines(env: Env, s: Sys, move: Move)
    ensures Filed(env, s, move).log == s.log + MoveLines(move)
  {
    HandedOverAgentsLog(env, Announced(s, move), move.npc);
  }

  lemma HandedOverAgentsLog(env: Env, s: Sys, npc: string)
    ensures HandedOver(env, s, npc).log == s.log + [HandedOff(npc)]
  {
  }

  lemma ShiftedLines(env: Env, s: Sys, npc: string, change: Change, evidence: Option<ScanUpdate>)
    ensures ShiftedBy(env, s, npc, change, evidence).log ==
            s.log + if change.Stay? then []
                    else MoveLines(Move(npc, s.ledger.State(npc), change.to, change.reason, evidence))
  {
    var step := Moved(s.ledger, npc, change, evidence);
    if step.move.Some? {
      FiledLines(env, s.(ledger := step.ledger), step.move.value);
    }
  }

  /** What a dispatch puts on the timeline. */
  function StartLines(env: Env, s: Sys, npc: string, tool: Tool, reason: Reason): (lines: seq<Item>)
    ensures forall item <- lines :: item.Fact?
  {
    (if npc == "" then [] else [Fact(npc, ActionStarted, ByRuntime, Plain)]) +
    (if npc == "" || tool != Say then []
     else [Fact(npc, NpcSpoke, ByRuntime, Spoken(reason, env.clock(s.ticks)))])
  }

  /** The lines any other act writes. */
  function LinesOf(env: Env, s: Sys, act: Act): seq<Item> {
    match act
    case Defer(npc, _) => [Fact(npc, AgentActivationDeferred, ByRuntime, Plain)]
    case RaiseOverlay(npc) => if npc in s.agents then [OverlayRaised(npc)] else []
    case Note(npc, name, author) => [Fact(npc, name, author, Plain)]
    case Hear(npc, name, payload) => [Fact(npc, name, ByBridge, payload)]
    case Resolve(id) => [Resolved(id)]
    case Consult(npc, reason) => [Consulted(npc, reason, s.ledger.State(npc))]
    case Fail(npc) => [Fact(npc, ActionFailed, ByRuntime, Plain)]
    case AdoptGoal(npc, goal) =>
      if npc !in s.agents then []
      else [Fact(npc, if s.agents[npc].goal.None? then GoalCreated else GoalChanged, ByRuntime, GoalText(goal))]
    case Dispatch(npc, tool, reason) => StartLines(env, s, npc, tool, reason) + [Sent(s.nextId, npc, tool)]
    case _ => []
  }

  lemma HearingWritesNothing(env: Env, s: Sys, npc: string, name: EventName)
    ensures Heard(env, s, npc, name).log == s.log
  {
  }

  lemma ActLines(env: Env, s: Sys, act: Act)
    requires !act.Shift?
    ensures Apply(env, s, act).log == s.log + LinesOf(env, s, act)
  {
    match act {
      case Hear(npc, name, payload) =>
        HearingWritesNothing(env, Logged(s, Fact(npc, name, ByBridge, payload)), npc, name);
      case Dispatch(npc, tool, reason) =>
        DispatchLines(env, s, npc, tool, reason);
      case _ =>
    }
  }

  lemma DispatchLines(env: Env, s: Sys, npc: string, tool: Tool, reason: Reason)
    ensures Dispatched(env, s, npc, tool, reason).log ==
            (s.log + StartLines(env, s, npc, tool, reason)) + [Sent(s.nextId, npc, tool)]
  {
  }

  /** The history entries of a change: the move, and RELEASE finalised. */
  function Steps(npc: string, from: OwnershipState, change: Change, evidence: Option<ScanUpdate>): seq<Move> {
    if change.Stay? then []
    else
      [Move(npc, from, change.to, change.reason, evidence)] +
      (if change.to == Release then [Move(npc, Release, Rockstar, ReleaseComplete, None)] else [])
  }

  lemma ShiftedHistory(env: Env, s: Sys, npc: string, change: Change, evidence: Option<ScanUpdate>)
    ensures var r := s.ledger.Lookup(npc);
            var after := ShiftedBy(env, s, npc, change, evidence).ledger;
            npc in after.records && after.records[npc].history == r.history + Steps(npc, r.state, change, evidence)
  {
    var step := Moved(s.ledger, npc, change, evidence);
    if step.move.Some? {
      FiledLedger(env, s.(ledger := step.ledger), step.move.value);
    }
  }

  /** Acts other than See and Shift leave the ledger alone. */
  lemma LedgerFrame(env: Env, s: Sys, act: Act)
    requires !act.Shift?
    ensures Apply(env, s, act).ledger == if act.See? then s.ledger.Seen(act.npc) else s.ledger
  {
  }
}
