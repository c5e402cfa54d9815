/** The message handlers: compositions of acts and turns. */
module Handlers {
  import opened Common
  import opened Names
  import opened Ownership
  import opened Decisions
  import opened Journal
  import opened Dispatching
  import opened Scheduler
  import opened Turns

  /** A scanned pedestrian: the gate's verdict and whether it is flagged for the
      quest overlay are inputs. */
  datatype Ped = Ped(id: string, distance: real, eligible: bool, quest: bool)

  datatype Status = Reported | Finished | Broken

  datatype Message =
    | WorldUpdate(npc: string, distance: Option<real>)
    | PedScan(peds: seq<Ped>)
    | GameEvent(npc: string, request: Option<nat>, name: EventName, goal: Option<string>, position: Value)
    | ActionResult(npc: string, request: Option<nat>, status: Status)
    | TalkStart(npc: string)
    | TalkStop(npc: string)
    | StorySafetyChange(active: bool, npc: string, reason: Why)
    | ReleaseAll(reason: Why)
    | SchedulerTick
    /** Exported look-ups, which create records and bookkeeping on first sight. */
    | Observe(npc: string)
    | Inspect(npc: string)

  // ---------------------------------------------------------------------
  // Promotion of deferred activations
  // ---------------------------------------------------------------------

  ghost predicate HasSlot(env: Env, s: Sys) {
    |Active(s)| < env.settings.maxReasoning
  }

  lemma ShiftShrinksQueue(env: Env, s: Sys, npc: string, op: Op)
    ensures |Shifted(env, s, npc, op).queue| <= |s.queue|
  {
    ShiftedRest(env, s, npc, ChangeOf(s.ledger.Lookup(npc), op), EvidenceOf(op));
    DropShrinks(s.queue, npc);
  }

  lemma {:induction false} DropShrinks<T>(s: seq<T>, x: T)
    ensures |Drop(s, x)| <= |s|
  {
    if s != [] && s[0] != x {
      DropShrinks(s[1..], x);
    }
  }

  /** A turn, for an NPC whose owner lets it reason. */
  ghost function Roused(env: Env, s: Sys, npc: string, reason: Reason, trigger: Option<Trigger>): (r: Sys)
    ensures r.queue == s.queue
  {
    if MayReason(s.ledger.State(npc)) then Turned(env, s, npc, reason, trigger) else s
  }

  /** An aware NPC takes a slot and is asked for its first plan. */
  ghost function Activated(env: Env, s: Sys, npc: string, reason: Reason, trigger: Option<Trigger>): (r: Sys)
    ensures |r.queue| <= |s.queue|
  {
    ShiftShrinksQueue(env, s, npc, Scan(TriggerUpdate(env)));
    Roused(env, Apply(env, s, Shift(npc, Scan(TriggerUpdate(env)))), npc, reason, trigger)
  }

  ghost function Woken(env: Env, s: Sys, npc: string, reason: Reason, trigger: Option<Trigger>): Sys {
    if HasSlot(env, s) then Activated(env, s, npc, reason, trigger) else Apply(env, s, Defer(npc, reason))
  }

  /** A meaningful trigger: activate, defer when the slots are taken, or just think. */
  ghost function Stirred(env: Env, s: Sys, npc: string, reason: Reason, trigger: Option<Trigger>): Sys {
    var seen := Apply(env, s, See(npc));
    if seen.ledger.State(npc) == Aware then Woken(env, seen, npc, reason, trigger)
    else Roused(env, seen, npc, reason, trigger)
  }

  /** While slots are free the oldest deferred NPCs are promoted; those that are
      no longer aware are forgotten. */
  ghost function Promoted(env: Env, s: Sys): Sys
    decreases |s.queue|
  {
    if s.queue == [] || !HasSlot(env, s) then s
    else
      var npc := s.queue[0];
      if npc !in s.reasons then Promoted(env, s.(queue := s.queue[1..]))
      else
        var popped := Apply(env, Apply(env, s, Pop), See(npc));
        if popped.ledger.State(npc) != Aware then Promoted(env, popped)
        else Promoted(env, Activated(env, popped, npc, Promotion(s.reasons[npc]), None))
  }

  /** An ownership operation, recorded, and the promotions a release makes room for. */
  ghost function Carried(env: Env, s: Sys, npc: string, op: Op): Sys {
    var change := ChangeOf(s.ledger.Lookup(npc), op);
    var shifted := Apply(env, s, Shift(npc, op));
    if change.Go? && change.to == Release then Promoted(env, shifted) else shifted
  }

  // ---------------------------------------------------------------------
  // Conversations
  // ---------------------------------------------------------------------

  /** Those of `ids` that are in conversation, except `npc`. */
  function Talking(ledger: Ledger, ids: seq<string>, npc: string): seq<string> {
    if ids == [] then []
    else
      var last := ids[|ids| - 1];
      Talking(ledger, ids[..|ids| - 1], npc) +
      if last != npc && ledger.State(last) == AIConversation then [last] else []
  }

  function StopCount(talking: int, cap: int): int {
    if talking < cap then 0
    else if talking - cap + 1 > talking then talking
    else talking - cap + 1
  }

  function Silenced(env: Env, s: Sys, npc: string): Sys {
    var ended := Apply(env, s, Shift(npc, EndTalk));
    Apply(env, Apply(env, Apply(env, ended, Note(npc, ConversationEnded, ByRuntime)), Meet(npc)), Converse(npc, false))
  }

  function AllSilenced(env: Env, s: Sys, ids: seq<string>): Sys {
    if ids == [] then s else Silenced(env, AllSilenced(env, s, ids[..|ids| - 1]), ids[|ids| - 1])
  }

  /** Room for one more conversation: the oldest excess ones end. */
  function RoomMade(env: Env, s: Sys, npc: string): Sys {
    var talking := Talking(s.ledger, s.ledger.order, npc);
    var stop := StopCount(|talking|, env.settings.maxConversations);
    if stop <= 0 then s else AllSilenced(env, s, talking[..stop])
  }

  /** The player turns to an NPC: at most one conversation more than allowed ends,
      then the NPC joins unless it is talking already. */
  ghost function Addressed(env: Env, s: Sys, npc: string): Sys {
    var s1 := Apply(env, RoomMade(env, s, npc), See(npc));
    if s1.ledger.State(npc) == AIConversation then s1 else Carried(env, s1, npc, Talk)
  }

  // ---------------------------------------------------------------------
  // Game events
  // ---------------------------------------------------------------------

  const ALARMS: set<EventName> := {
    PlayerThreatenedNpc, PlayerAttackedNpc, NpcDamaged, GunshotHeard, DeadBodyDiscovered, FightStarted}

  /** The player speaks to the NPC, which answers. */
  ghost function Answering(env: Env, s: Sys, npc: string, trigger: Option<Trigger>): Sys {
    Turned(env, Apply(env, Addressed(env, s, npc), Converse(npc, true)), npc, AnswerPlayer, trigger)
  }

  ghost function StirredIfAware(env: Env, s: Sys, npc: string, reason: Reason, trigger: Option<Trigger>): Sys {
    var seen := Apply(env, s, See(npc));
    if seen.ledger.State(npc) == Aware then Stirred(env, seen, npc, reason, trigger) else seen
  }

  /** The player comes near or looks: a quest NPC may say its line, an aware one stirs. */
  ghost function Noticed(env: Env, s: Sys, npc: string, name: EventName, trigger: Option<Trigger>): Sys {
    if Overlaid(s, npc) then Turned(env, s, npc, QuestLine, trigger)
    else StirredIfAware(env, s, npc, Meaningful(name), trigger)
  }

  function Parted(env: Env, s: Sys, npc: string): Sys {
    Apply(env, Apply(env, s, Shift(npc, EndTalk)), Converse(npc, false))
  }

  /** The reaction to an event that neither addresses nor alarms the NPC. */
  ghost function Attended(env: Env, s: Sys, npc: string, name: EventName, position: Value): Sys {
    var trigger := Some(Trigger(name, position));
    if name == PlayerApproached || name == PlayerLookedAtNpc then Noticed(env, s, npc, name, trigger)
    else if name == ActionFailed then Turned(env, s, npc, ActionFailure, trigger)
    else if name == ConversationEnded || name == ConversationInterrupted then Parted(env, s, npc)
    else s
  }

  /** The reaction to an event that has been heard. */
  ghost function Reacted(env: Env, s: Sys, npc: string, name: EventName, position: Value): Sys {
    var trigger := Some(Trigger(name, position));
    if name == PlayerSpoke then Answering(env, s, npc, trigger)
    else if name in ALARMS then Stirred(env, s, npc, Meaningful(name), trigger)
    else Attended(env, s, npc, name, position)
  }

  function PendingNpc(s: Sys, request: Option<nat>): string {
    if request.Some? && request.value in s.desk.pending then s.desk.pending[request.value].npc else ""
  }

  function PayloadOf(goal: Option<string>): Payload {
    if goal.Some? then GoalText(goal.value) else Plain
  }

  /** An event is heard, then reacted to. */
  ghost function Received(env: Env, s: Sys, npc: string, name: EventName, payload: Payload, position: Value): Sys {
    Reacted(env, Apply(env, s, Hear(npc, name, payload)), npc, name, position)
  }

  /** The NPC an event names, or the one whose request it answers. */
  function Meant(s: Sys, npc: string, request: Option<nat>): string {
    if npc == "" then PendingNpc(s, request) else npc
  }

  ghost function EventFor(env: Env, s: Sys, npc: string, name: EventName, payload: Payload, position: Value): Sys {
    if npc == "" then s else Received(env, s, npc, name, payload, position)
  }

  ghost function EventHandled(
    env: Env, s: Sys, npc: string, request: Option<nat>, name: EventName, goal: Option<string>, position: Value): Sys
  {
    EventFor(env, s, Meant(s, npc, request), name, PayloadOf(goal), position)
  }

  function NameOfStatus(status: Status): EventName {
    match status
    case Finished => ActionCompleted
    case Broken => ActionFailed
    case Reported => ActionStarted
  }

  ghost function ResultHandled(env: Env, s: Sys, npc: string, request: Option<nat>, status: Status): Sys {
    var who := if npc == "" then PendingNpc(s, request) else npc;
    var s1 := if request.Some? && request.value in s.desk.pending then Apply(env, s, Resolve(request.value)) else s;
    if who == "" then s1
    else
      var s2 := Apply(env, s1, Note(who, NameOfStatus(status), ByBridge));
      if status == Broken then Turned(env, s2, who, ActionFailure, Some(Trigger(ActionFailed, Nil))) else s2
  }

  // ---------------------------------------------------------------------
  // Idle planning
  // ---------------------------------------------------------------------

  ghost function IdleOne(env: Env, s: Sys, npc: string, busy: set<string>, now: real): Sys {
    if npc !in s.agents || s.agents[npc].reasoning || npc in busy || s.agents[npc].dialogueOnly then s
    else
      var seen := Apply(env, s, See(npc));
      if seen.ledger.State(npc) != AIActive || npc !in s.tracked
         || now - s.agents[npc].lastDecisionAt < env.settings.idleSeconds
      then seen
      else Turned(env, seen, npc, Idle, None)
  }

  ghost function IdleEach(env: Env, s: Sys, ids: seq<string>, busy: set<string>, now: real): Sys {
    if ids == [] then s
    else IdleOne(env, IdleEach(env, s, ids[..|ids| - 1], busy, now), ids[|ids| - 1], busy, now)
  }

  ghost function Idled(env: Env, s: Sys): Sys {
    if env.settings.idleSeconds <= 0.0 then s
    else IdleEach(env, Apply(env, s, ReadClock), s.agentOrder, s.desk.Busy(), env.clock(s.ticks))
  }

  // ---------------------------------------------------------------------
  // Scans, world updates, story safety, release
  // ---------------------------------------------------------------------

  /** An overlaid ped that is no longer flagged goes back to Rockstar; the flag
      tells whether it moved. */
  ghost function QuestEnded(env: Env, s: Sys, ped: Ped): (Sys, bool) {
    if !Overlaid(s, ped.id) then (s, false)
    else
      var why := if ped.distance > env.settings.candidateDistance then QuestDialogueLeftArea else QuestDialogueEnded;
      (Carried(env, s, ped.id, RequestRelease(why)), ChangeOf(s.ledger.Lookup(ped.id), RequestRelease(why)).Go?)
  }

  /** A flagged ped is overlaid, released when far and engaged when near. */
  ghost function QuestOpened(env: Env, s: Sys, ped: Ped): (Sys, bool) {
    if ped.distance > env.settings.candidateDistance then
      var seen := Apply(env, s, See(ped.id));
      if seen.ledger.State(ped.id) in {QuestDialogue, AIActive, AIConversation} then
        (Carried(env, seen, ped.id, RequestRelease(QuestDialogueLeftArea)), true)
      else (seen, false)
    else if ped.distance <= env.settings.awareDistance then
      (Carried(env, s, ped.id, EnterQuest), ChangeOf(s.ledger.Lookup(ped.id), EnterQuest).Go?)
    else (s, false)
  }

  /** The quest overlay's part of a scan. */
  ghost function QuestStep(env: Env, s: Sys, ped: Ped): (Sys, bool) {
    var met := Apply(env, s, Meet(ped.id));
    if !ped.quest then QuestEnded(env, met, ped)
    else QuestOpened(env, Apply(env, met, RaiseOverlay(ped.id)), ped)
  }

  ghost function PedStep(env: Env, s: Sys, ped: Ped): Sys {
    if ped.id == "" then s
    else
      var (s1, moved) := QuestStep(env, Apply(env, s, Track(ped.id)), ped);
      if moved || Overlaid(s1, ped.id) then s1
      else Carried(env, s1, ped.id, Scan(UpdateFor(env, FromPedScan, ped.distance, ped.eligible, false)))
  }

  ghost function EachPed(env: Env, s: Sys, peds: seq<Ped>): Sys {
    if peds == [] then s else PedStep(env, EachPed(env, s, peds[..|peds| - 1]), peds[|peds| - 1])
  }

  ghost function LeftBehind(env: Env, s: Sys, npc: string, distance: Option<real>): Sys {
    if distance.None? || distance.value <= env.settings.candidateDistance then s
    else Carried(env, s, npc, Scan(UpdateFor(env, FromWorldUpdate, distance.value, true, false)))
  }

  function SafetyOp(active: bool, reason: Why): Op {
    if active then Suspend(reason) else Resume(reason)
  }

  ghost function EachSafety(env: Env, s: Sys, ids: seq<string>, op: Op): Sys {
    if ids == [] then s else Carried(env, EachSafety(env, s, ids[..|ids| - 1], op), ids[|ids| - 1], op)
  }

  function SafetyTargets(s: Sys, npc: string): seq<string> {
    if npc != "" then [npc] else if s.ledger.order != [] then s.ledger.order else s.agentOrder
  }

  ghost function ReleaseOne(env: Env, s: Sys, npc: string, reason: Why): Sys {
    var seen := Apply(env, s, See(npc));
    if seen.ledger.State(npc) in {Rockstar, Release} then seen else Carried(env, seen, npc, RequestRelease(reason))
  }

  ghost function EachReleased(env: Env, s: Sys, ids: seq<string>, reason: Why): Sys {
    if ids == [] then s else ReleaseOne(env, EachReleased(env, s, ids[..|ids| - 1], reason), ids[|ids| - 1], reason)
  }

  /** Once there is room, an NPC that is talking is interrupted and any other
      starts to listen. */
  ghost function Listened(env: Env, s: Sys, npc: string): Sys {
    var seen := Apply(env, s, See(npc));
    if seen.ledger.State(npc) == AIConversation then Apply(env, seen, Note(npc, ConversationInterrupted, ByRuntime))
    else Carried(env, seen, npc, Talk)
  }

  ghost function Listening(env: Env, s: Sys, npc: string): Sys {
    Listened(env, RoomMade(env, s, npc), npc)
  }

  ghost function TalkStarted(env: Env, s: Sys, npc: string): Sys {
    if npc == "" then s
    else Apply(env, Listening(env, Apply(env, s, Meet(npc)), npc), Converse(npc, true))
  }

  ghost function TalkStopped(env: Env, s: Sys, npc: string): Sys {
    if npc == "" then s
    else
      var s1 := Apply(env, Apply(env, Carried(env, s, npc, EndTalk), Meet(npc)), Converse(npc, false));
      Apply(env, s1, Note(npc, ConversationEnded, ByRuntime))
  }

  /** One message, handled as one step. */
  ghost function Handle(env: Env, s: Sys, msg: Message): Sys {
    match msg
    case WorldUpdate(npc, distance) => if npc == "" then s else Idled(env, LeftBehind(env, s, npc, distance))
    case PedScan(peds) => Idled(env, EachPed(env, s, peds))
    case GameEvent(npc, request, name, goal, position) => EventHandled(env, s, npc, request, name, goal, position)
    case ActionResult(npc, request, status) => ResultHandled(env, s, npc, request, status)
    case TalkStart(npc) => TalkStarted(env, s, npc)
    case TalkStop(npc) => TalkStopped(env, s, npc)
    case StorySafetyChange(active, npc, reason) =>
      EachSafety(env, s, SafetyTargets(s, npc), SafetyOp(active, reason))
    case ReleaseAll(reason) => EachReleased(env, s, s.ledger.order, reason)
    case SchedulerTick => Promoted(env, Idled(env, s))
    case Observe(npc) => Apply(env, s, See(npc))
    case Inspect(npc) => Apply(env, s, Meet(npc))
  }

  ghost function Run(env: Env, msgs: seq<Message>): Sys {
    if msgs == [] then START else Handle(env, Run(env, msgs[..|msgs| - 1]), msgs[|msgs| - 1])
  }
}
