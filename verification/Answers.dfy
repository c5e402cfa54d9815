/** Only the handling of an action result takes a result back: no other message
    does, however many handlers and turns it runs through. */
module Answers {
  import opened Common
  import opened Names
  import opened Ownership
  import opened Decisions
  import opened Journal
  import opened Scheduler
  import opened Turns
  import opened Handlers
  import opened Withholding

  /** From `s` to `r` the journal only grows, and no result is taken back. */
  ghost predicate TakesNone(s: Sys, r: Sys) {
    Withholds(s, r, {})
  }

  lemma Chain(s: Sys, t: Sys, r: Sys)
    requires TakesNone(s, t) && TakesNone(t, r)
    ensures TakesNone(s, r)
  {
    WithholdingChains(s, t, r, {});
  }

  lemma SameLines(s: Sys, r: Sys)
    requires r.log == s.log
    ensures TakesNone(s, r)
  {
  }

  lemma ActTakesNone(env: Env, s: Sys, act: Act)
    requires !act.Shift? && !act.Resolve? && (act.Hear? ==> !act.payload.Spoken?)
    ensures TakesNone(s, Apply(env, s, act))
  {
    ActWithholds(env, s, act, {});
  }

  lemma ShiftTakesNone(env: Env, s: Sys, npc: string, op: Op)
    ensures TakesNone(s, Shifted(env, s, npc, op))
  {
    ShiftWithholds(env, s, npc, ChangeOf(s.ledger.Lookup(npc), op), EvidenceOf(op), {});
  }

  lemma TurnTakesNone(env: Env, s: Sys, npc: string, reason: Reason, trigger: Option<Trigger>)
    ensures TakesNone(s, Turned(env, s, npc, reason, trigger))
  {
    TurnWithholds(env, s, npc, reason, trigger, {});
  }

  // ---------------------------------------------------------------------
  // Activation and promotion
  // ---------------------------------------------------------------------

  lemma RousingTakesNone(env: Env, s: Sys, npc: string, reason: Reason, trigger: Option<Trigger>)
    ensures TakesNone(s, Roused(env, s, npc, reason, trigger))
  {
    TurnTakesNone(env, s, npc, reason, trigger);
    SameLines(s, s);
  }

  lemma ActivationTakesNone(env: Env, s: Sys, npc: string, reason: Reason, trigger: Option<Trigger>)
    ensures TakesNone(s, Activated(env, s, npc, reason, trigger))
  {
    var s1 := Shifted(env, s, npc, Scan(TriggerUpdate(env)));
    ShiftTakesNone(env, s, npc, Scan(TriggerUpdate(env)));
    RousingTakesNone(env, s1, npc, reason, trigger);
    Chain(s, s1, Roused(env, s1, npc, reason, trigger));
  }

  lemma WakingTakesNone(env: Env, s: Sys, npc: string, reason: Reason, trigger: Option<Trigger>)
    ensures TakesNone(s, Woken(env, s, npc, reason, trigger))
  {
    ActivationTakesNone(env, s, npc, reason, trigger);
    ActTakesNone(env, s, Defer(npc, reason));
  }

  lemma StirringTakesNone(env: Env, s: Sys, npc: string, reason: Reason, trigger: Option<Trigger>)
    ensures TakesNone(s, Stirred(env, s, npc, reason, trigger))
  {
    var seen := Apply(env, s, See(npc));
    ActTakesNone(env, s, See(npc));
    WakingTakesNone(env, seen, npc, reason, trigger);
    RousingTakesNone(env, seen, npc, reason, trigger);
    Chain(s, seen, Stirred(env, s, npc, reason, trigger));
  }

  lemma {:induction false} PromotionTakesNone(env: Env, s: Sys)
    ensures TakesNone(s, Promoted(env, s))
    decreases |s.queue|, 0
  {
    if s.queue == [] || !HasSlot(env, s) {
      SameLines(s, s);
    } else if s.queue[0] !in s.reasons {
      var t := s.(queue := s.queue[1..]);
      SameLines(s, t);
      PromotionTakesNone(env, t);
      Chain(s, t, Promoted(env, t));
    } else {
      var popped := Apply(env, Apply(env, s, Pop), See(s.queue[0]));
      PoppingTakesNone(env, s);
      PoppedTakesNone(env, popped, s.queue[0], s.reasons[s.queue[0]], |s.queue|);
      Chain(s, popped, Promoted(env, s));
    }
  }

  lemma PoppingTakesNone(env: Env, s: Sys)
    requires s.queue != []
    ensures var popped := Apply(env, Apply(env, s, Pop), See(s.queue[0]));
            TakesNone(s, popped) && |popped.queue| < |s.queue|
  {
  }

  /** What a promotion does with the NPC it has taken off the queue. */
  lemma {:induction false} PoppedTakesNone(env: Env, s: Sys, npc: string, reason: Reason, size: nat)
    requires |s.queue| < size
    ensures s.ledger.State(npc) != Aware ==> TakesNone(s, Promoted(env, s))
    ensures s.ledger.State(npc) == Aware ==>
              TakesNone(s, Promoted(env, Activated(env, s, npc, Promotion(reason), None)))
    decreases size - 1, 1
  {
    if s.ledger.State(npc) != Aware {
      PromotionTakesNone(env, s);
    } else {
      var t := Activated(env, s, npc, Promotion(reason), None);
      ActivationTakesNone(env, s, npc, Promotion(reason), None);
      PromotionTakesNone(env, t);
      Chain(s, t, Promoted(env, t));
    }
  }

  lemma CarryingTakesNone(env: Env, s: Sys, npc: string, op: Op)
    ensures TakesNone(s, Carried(env, s, npc, op))
  {
    var t := Shifted(env, s, npc, op);
    ShiftTakesNone(env, s, npc, op);
    PromotionTakesNone(env, t);
    Chain(s, t, Promoted(env, t));
  }

  // ---------------------------------------------------------------------
  // Conversations
  // ---------------------------------------------------------------------

  lemma ClosingTakesNone(env: Env, s: Sys, npc: string)
    ensures TakesNone(s, Apply(env, Apply(env, s, Meet(npc)), Converse(npc, false)))
  {
    var met := Apply(env, s, Meet(npc));
    ActTakesNone(env, s, Meet(npc));
    ActTakesNone(env, met, Converse(npc, false));
    Chain(s, met, Apply(env, met, Converse(npc, false)));
  }

  lemma SilencingTakesNone(env: Env, s: Sys, npc: string)
    ensures TakesNone(s, Silenced(env, s, npc))
  {
    var ended := Apply(env, s, Shift(npc, EndTalk));
    var noted := Apply(env, ended, Note(npc, ConversationEnded, ByRuntime));
    ShiftTakesNone(env, s, npc, EndTalk);
    ActTakesNone(env, ended, Note(npc, ConversationEnded, ByRuntime));
    ClosingTakesNone(env, noted, npc);
    Chain(s, ended, noted);
    Chain(s, noted, Silenced(env, s, npc));
  }

  lemma {:induction false} AllSilencedTakesNone(env: Env, s: Sys, ids: seq<string>)
    ensures TakesNone(s, AllSilenced(env, s, ids))
  {
    if ids == [] {
      SameLines(s, s);
    } else {
      var t := AllSilenced(env, s, ids[..|ids| - 1]);
      AllSilencedTakesNone(env, s, ids[..|ids| - 1]);
      SilencingTakesNone(env, t, ids[|ids| - 1]);
      Chain(s, t, Silenced(env, t, ids[|ids| - 1]));
    }
  }

  lemma MakingRoomTakesNone(env: Env, s: Sys, npc: string)
    ensures TakesNone(s, RoomMade(env, s, npc))
  {
    var talking := Talking(s.ledger, s.ledger.order, npc);
    var stop := StopCount(|talking|, env.settings.maxConversations);
    if stop <= 0 {
      SameLines(s, s);
    } else {
      AllSilencedTakesNone(env, s, talking[..stop]);
    }
  }

  lemma ReadyTakesNone(env: Env, s: Sys, npc: string)
    ensures TakesNone(s, Apply(env, RoomMade(env, s, npc), See(npc)))
  {
    var room := RoomMade(env, s, npc);
    MakingRoomTakesNone(env, s, npc);
    ActTakesNone(env, room, See(npc));
    Chain(s, room, Apply(env, room, See(npc)));
  }

  lemma AddressingTakesNone(env: Env, s: Sys, npc: string)
    ensures TakesNone(s, Addressed(env, s, npc))
  {
    var ready := Apply(env, RoomMade(env, s, npc), See(npc));
    ReadyTakesNone(env, s, npc);
    CarryingTakesNone(env, ready, npc, Talk);
    Chain(s, ready, Carried(env, ready, npc, Talk));
  }

  lemma ListeningTakesNone(env: Env, s: Sys, npc: string)
    ensures TakesNone(s, Listening(env, s, npc))
  {
    var room := RoomMade(env, s, npc);
    var seen := Apply(env, room, See(npc));
    ReadyTakesNone(env, s, npc);
    CarryingTakesNone(env, seen, npc, Talk);
    ActTakesNone(env, seen, Note(npc, ConversationInterrupted, ByRuntime));
    Chain(s, seen, Listened(env, room, npc));
  }

  lemma TalkStartTakesNone(env: Env, s: Sys, npc: string)
    ensures TakesNone(s, TalkStarted(env, s, npc))
  {
    if npc == "" {
      SameLines(s, s);
    } else {
      var met := Apply(env, s, Meet(npc));
      var heard := Listening(env, met, npc);
      ActTakesNone(env, s, Meet(npc));
      ListeningTakesNone(env, met, npc);
      ActTakesNone(env, heard, Converse(npc, true));
      Chain(s, met, heard);
      Chain(s, heard, Apply(env, heard, Converse(npc, true)));
    }
  }

  lemma TalkStopTakesNone(env: Env, s: Sys, npc: string)
    ensures TakesNone(s, TalkStopped(env, s, npc))
  {
    if npc == "" {
      SameLines(s, s);
    } else {
      var ended := Carried(env, s, npc, EndTalk);
      var closed := Apply(env, Apply(env, ended, Meet(npc)), Converse(npc, false));
      CarryingTakesNone(env, s, npc, EndTalk);
      ClosingTakesNone(env, ended, npc);
      ActTakesNone(env, closed, Note(npc, ConversationEnded, ByRuntime));
      Chain(s, ended, closed);
      Chain(s, closed, TalkStopped(env, s, npc));
    }
  }

  // ---------------------------------------------------------------------
  // Events
  // ---------------------------------------------------------------------

  lemma AnsweringTakesNone(env: Env, s: Sys, npc: string, trigger: Option<Trigger>)
    ensures TakesNone(s, Answering(env, s, npc, trigger))
  {
    var joined := Addressed(env, s, npc);
    var conversing := Apply(env, joined, Converse(npc, true));
    AddressingTakesNone(env, s, npc);
    ActTakesNone(env, joined, Converse(npc, true));
    TurnTakesNone(env, conversing, npc, AnswerPlayer, trigger);
    Chain(s, joined, conversing);
    Chain(s, conversing, Answering(env, s, npc, trigger));
  }

  lemma NoticingTakesNone(env: Env, s: Sys, npc: string, name: EventName, trigger: Option<Trigger>)
    ensures TakesNone(s, Noticed(env, s, npc, name, trigger))
  {
    var seen := Apply(env, s, See(npc));
    TurnTakesNone(env, s, npc, QuestLine, trigger);
    ActTakesNone(env, s, See(npc));
    StirringTakesNone(env, seen, npc, Meaningful(name), trigger);
    Chain(s, seen, StirredIfAware(env, s, npc, Meaningful(name), trigger));
  }

  lemma PartingTakesNone(env: Env, s: Sys, npc: string)
    ensures TakesNone(s, Parted(env, s, npc))
  {
    var ended := Apply(env, s, Shift(npc, EndTalk));
    ShiftTakesNone(env, s, npc, EndTalk);
    ActTakesNone(env, ended, Converse(npc, false));
    Chain(s, ended, Parted(env, s, npc));
  }

  lemma AttendingTakesNone(env: Env, s: Sys, npc: string, name: EventName, position: Value)
    ensures TakesNone(s, Attended(env, s, npc, name, position))
  {
    var trigger := Some(Trigger(name, position));
    NoticingTakesNone(env, s, npc, name, trigger);
    TurnTakesNone(env, s, npc, ActionFailure, trigger);
    PartingTakesNone(env, s, npc);
    SameLines(s, s);
  }

  lemma ReactionTakesNone(env: Env, s: Sys, npc: string, name: EventName, position: Value)
    ensures TakesNone(s, Reacted(env, s, npc, name, position))
  {
    var trigger := Some(Trigger(name, position));
    AnsweringTakesNone(env, s, npc, trigger);
    StirringTakesNone(env, s, npc, Meaningful(name), trigger);
    AttendingTakesNone(env, s, npc, name, position);
  }

  lemma EventTakesNone(env: Env, s: Sys, npc: string, name: EventName, goal: Option<string>, position: Value)
    ensures TakesNone(s, EventFor(env, s, npc, name, PayloadOf(goal), position))
  {
    if npc == "" {
      SameLines(s, s);
    } else {
      var heard := Apply(env, s, Hear(npc, name, PayloadOf(goal)));
      ActTakesNone(env, s, Hear(npc, name, PayloadOf(goal)));
      ReactionTakesNone(env, heard, npc, name, position);
      Chain(s, heard, Reacted(env, heard, npc, name, position));
    }
  }

  // ---------------------------------------------------------------------
  // Idle planning, scans, story safety, release
  // ---------------------------------------------------------------------

  lemma IdlingOneTakesNone(env: Env, s: Sys, npc: string, busy: set<string>, now: real)
    ensures TakesNone(s, IdleOne(env, s, npc, busy, now))
  {
    var seen := Apply(env, s, See(npc));
    SameLines(s, s);
    ActTakesNone(env, s, See(npc));
    TurnTakesNone(env, seen, npc, Idle, None);
    Chain(s, seen, Turned(env, seen, npc, Idle, None));
  }

  lemma {:induction false} IdlingTakesNone(env: Env, s: Sys, ids: seq<string>, busy: set<string>, now: real)
    ensures TakesNone(s, IdleEach(env, s, ids, busy, now))
  {
    if ids == [] {
      SameLines(s, s);
    } else {
      var t := IdleEach(env, s, ids[..|ids| - 1], busy, now);
      IdlingTakesNone(env, s, ids[..|ids| - 1], busy, now);
      IdlingOneTakesNone(env, t, ids[|ids| - 1], busy, now);
      Chain(s, t, IdleOne(env, t, ids[|ids| - 1], busy, now));
    }
  }

  lemma IdleTakesNone(env: Env, s: Sys)
    ensures TakesNone(s, Idled(env, s))
  {
    if env.settings.idleSeconds <= 0.0 {
      SameLines(s, s);
    } else {
      var read := Apply(env, s, ReadClock);
      ActTakesNone(env, s, ReadClock);
      IdlingTakesNone(env, read, s.agentOrder, s.desk.Busy(), env.clock(s.ticks));
      Chain(s, read, IdleEach(env, read, s.agentOrder, s.desk.Busy(), env.clock(s.ticks)));
    }
  }

  lemma QuestEndTakesNone(env: Env, s: Sys, ped: Ped)
    ensures TakesNone(s, QuestEnded(env, s, ped).0)
  {
    SameLines(s, s);
    CarryingTakesNone(env, s, ped.id, RequestRelease(QuestDialogueLeftArea));
    CarryingTakesNone(env, s, ped.id, RequestRelease(QuestDialogueEnded));
  }

  lemma QuestOpeningTakesNone(env: Env, s: Sys, ped: Ped)
    ensures TakesNone(s, QuestOpened(env, s, ped).0)
  {
    if ped.distance > env.settings.candidateDistance {
      var seen := Apply(env, s, See(ped.id));
      ActTakesNone(env, s, See(ped.id));
      CarryingTakesNone(env, seen, ped.id, RequestRelease(QuestDialogueLeftArea));
      Chain(s, seen, Carried(env, seen, ped.id, RequestRelease(QuestDialogueLeftArea)));
    } else {
      SameLines(s, s);
      CarryingTakesNone(env, s, ped.id, EnterQuest);
    }
  }

  lemma QuestStepTakesNone(env: Env, s: Sys, ped: Ped)
    ensures TakesNone(s, QuestStep(env, s, ped).0)
  {
    var met := Apply(env, s, Meet(ped.id));
    ActTakesNone(env, s, Meet(ped.id));
    if ped.quest {
      var raised := Apply(env, met, RaiseOverlay(ped.id));
      ActTakesNone(env, met, RaiseOverlay(ped.id));
      QuestOpeningTakesNone(env, raised, ped);
      Chain(s, met, raised);
      Chain(s, raised, QuestOpened(env, raised, ped).0);
    } else {
      QuestEndTakesNone(env, met, ped);
      Chain(s, met, QuestEnded(env, met, ped).0);
    }
  }

  lemma PedStepTakesNone(env: Env, s: Sys, ped: Ped)
    ensures TakesNone(s, PedStep(env, s, ped))
  {
    if ped.id == "" {
      SameLines(s, s);
    } else {
      var tracked := Apply(env, s, Track(ped.id));
      var t := QuestStep(env, tracked, ped).0;
      var op := Scan(UpdateFor(env, FromPedScan, ped.distance, ped.eligible, false));
      ActTakesNone(env, s, Track(ped.id));
      QuestStepTakesNone(env, tracked, ped);
      CarryingTakesNone(env, t, ped.id, op);
      Chain(s, tracked, t);
      Chain(s, t, Carried(env, t, ped.id, op));
    }
  }

  lemma {:induction false} PedsTakeNone(env: Env, s: Sys, peds: seq<Ped>)
    ensures TakesNone(s, EachPed(env, s, peds))
  {
    if peds == [] {
      SameLines(s, s);
    } else {
      var t := EachPed(env, s, peds[..|peds| - 1]);
      PedsTakeNone(env, s, peds[..|peds| - 1]);
      PedStepTakesNone(env, t, peds[|peds| - 1]);
      Chain(s, t, PedStep(env, t, peds[|peds| - 1]));
    }
  }

  lemma {:induction false} SafetyTakesNone(env: Env, s: Sys, ids: seq<string>, op: Op)
    ensures TakesNone(s, EachSafety(env, s, ids, op))
  {
    if ids == [] {
      SameLines(s, s);
    } else {
      var t := EachSafety(env, s, ids[..|ids| - 1], op);
      SafetyTakesNone(env, s, ids[..|ids| - 1], op);
      CarryingTakesNone(env, t, ids[|ids| - 1], op);
      Chain(s, t, Carried(env, t, ids[|ids| - 1], op));
    }
  }

  lemma {:induction false} ReleasingTakesNone(env: Env, s: Sys, ids: seq<string>, reason: Why)
    ensures TakesNone(s, EachReleased(env, s, ids, reason))
  {
    if ids == [] {
      SameLines(s, s);
    } else {
      var t := EachReleased(env, s, ids[..|ids| - 1], reason);
      ReleasingTakesNone(env, s, ids[..|ids| - 1], reason);
      ReleasingOneTakesNone(env, t, ids[|ids| - 1], reason);
      Chain(s, t, ReleaseOne(env, t, ids[|ids| - 1], reason));
    }
  }

  lemma ReleasingOneTakesNone(env: Env, s: Sys, npc: string, reason: Why)
    ensures TakesNone(s, ReleaseOne(env, s, npc, reason))
  {
    var seen := Apply(env, s, See(npc));
    ActTakesNone(env, s, See(npc));
    CarryingTakesNone(env, seen, npc, RequestRelease(reason));
    Chain(s, seen, Carried(env, seen, npc, RequestRelease(reason)));
  }

  lemma LeavingBehindTakesNone(env: Env, s: Sys, npc: string, distance: Option<real>)
    ensures TakesNone(s, LeftBehind(env, s, npc, distance))
  {
    SameLines(s, s);
    if distance.Some? {
      CarryingTakesNone(env, s, npc, Scan(UpdateFor(env, FromWorldUpdate, distance.value, true, false)));
    }
  }

  // ---------------------------------------------------------------------
  // Messages
  // ---------------------------------------------------------------------

  lemma PlanningMessageTakesNone(env: Env, s: Sys, msg: Message)
    requires msg.WorldUpdate? || msg.PedScan? || msg.SchedulerTick?
    ensures TakesNone(s, Handle(env, s, msg))
  {
    if msg.PedScan? {
      var t := EachPed(env, s, msg.peds);
      PedsTakeNone(env, s, msg.peds);
      IdleTakesNone(env, t);
      Chain(s, t, Idled(env, t));
    } else if msg.SchedulerTick? {
      var t := Idled(env, s);
      IdleTakesNone(env, s);
      PromotionTakesNone(env, t);
      Chain(s, t, Promoted(env, t));
    } else if msg.npc == "" {
      SameLines(s, s);
    } else {
      var t := LeftBehind(env, s, msg.npc, msg.distance);
      LeavingBehindTakesNone(env, s, msg.npc, msg.distance);
      IdleTakesNone(env, t);
      Chain(s, t, Idled(env, t));
    }
  }

  /** No message other than an action result takes a result back. */
  lemma OtherMessagesTakeNone(env: Env, s: Sys, msg: Message)
    requires !msg.ActionResult?
    ensures TakesNone(s, Handle(env, s, msg))
  {
    match msg {
      case GameEvent(npc, request, name, goal, position) =>
        EventTakesNone(env, s, Meant(s, npc, request), name, goal, position);
      case TalkStart(npc) => TalkStartTakesNone(env, s, npc);
      case TalkStop(npc) => TalkStopTakesNone(env, s, npc);
      case StorySafetyChange(active, npc, reason) =>
        SafetyTakesNone(env, s, SafetyTargets(s, npc), SafetyOp(active, reason));
      case ReleaseAll(reason) => ReleasingTakesNone(env, s, s.ledger.order, reason);
      case Observe(npc) => ActTakesNone(env, s, See(npc));
      case Inspect(npc) => ActTakesNone(env, s, Meet(npc));
      case _ => PlanningMessageTakesNone(env, s, msg);
    }
  }

  /** The result of a pending request is taken back first; nothing else is. */
  lemma ResultTakesOne(env: Env, s: Sys, npc: string, id: nat, status: Status)
    ensures var settled := if id in s.desk.pending then Apply(env, s, Resolve(id)) else s;
            TakesNone(settled, Handle(env, s, ActionResult(npc, Some(id), status)))
  {
    var settled := if id in s.desk.pending then Apply(env, s, Resolve(id)) else s;
    var who := if npc == "" then PendingNpc(s, Some(id)) else npc;
    var noted := Apply(env, settled, Note(who, NameOfStatus(status), ByBridge));
    SameLines(settled, settled);
    ActTakesNone(env, settled, Note(who, NameOfStatus(status), ByBridge));
    TurnTakesNone(env, noted, who, ActionFailure, Some(Trigger(ActionFailed, Nil)));
    Chain(settled, noted, Turned(env, noted, who, ActionFailure, Some(Trigger(ActionFailed, Nil))));
  }
}
