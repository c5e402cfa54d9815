/** Exactly when the messages that pass the scheduler by exceed a cap. */
module Exceptions {
  import opened Common
  import opened Names
  import opened Ownership
  import opened Decisions
  import opened Journal
  import opened Scheduler
  import opened Turns
  import opened Handlers
  import opened HandlerProofs
  import opened Runs

  /** Ending a conversation keeps the NPC's slot. */
  lemma SilencingKeepsSlots(env: Env, s: Sys, npc: string)
    ensures Active(Silenced(env, s, npc)) == Active(s)
    ensures Silenced(env, s, npc).ledger.State(npc) ==
            if s.ledger.State(npc) == AIConversation then AIActive else s.ledger.State(npc)
    ensures forall x :: x != npc ==> Silenced(env, s, npc).ledger.State(x) == s.ledger.State(x)
  {
    SilencingEnds(env, s, npc);
    ShiftedMembers(env, s, npc, EndTalk, {AIActive, AIConversation});
    ShiftedRecords(env, s, npc, ChangeOf(s.ledger.Lookup(npc), EndTalk), None);
  }

  lemma {:induction false} SilencingAllKeepsSlots(env: Env, s: Sys, ids: seq<string>, npc: string)
    requires npc !in ids
    ensures Active(AllSilenced(env, s, ids)) == Active(s)
    ensures AllSilenced(env, s, ids).ledger.State(npc) == s.ledger.State(npc)
  {
    if ids != [] {
      var front, last := ids[..|ids| - 1], ids[|ids| - 1];
      assert last in ids && forall x <- front :: x in ids;
      SilencingAllKeepsSlots(env, s, front, npc);
      SilencingKeepsSlots(env, AllSilenced(env, s, front), last);
    }
  }

  lemma MakingRoomKeepsSlots(env: Env, s: Sys, npc: string)
    requires Rested(s.ledger)
    ensures Active(RoomMade(env, s, npc)) == Active(s)
    ensures RoomMade(env, s, npc).ledger.State(npc) == s.ledger.State(npc)
  {
    var talking := Talking(s.ledger, s.ledger.order, npc);
    TalkingLists(s.ledger, s.ledger.order, npc);
    var stop := StopCount(|talking|, env.settings.maxConversations);
    if stop > 0 {
      assert forall x <- talking[..stop] :: x in talking;
      SilencingAllKeepsSlots(env, s, talking[..stop], npc);
    }
  }

  // ---------------------------------------------------------------------
  // Talking
  // ---------------------------------------------------------------------

  /** Does the player's turning to an NPC in this state take a slot? */
  predicate TakesSlot(state: OwnershipState) {
    state in {Aware, QuestDialogue}
  }

  lemma TalkTakesSlot(r: Record)
    ensures StateAfter(r, ChangeOf(r, Talk)) in {AIActive, AIConversation} <==>
            r.state in {AIActive, AIConversation} || TakesSlot(r.state)
    ensures ChangeOf(r, Talk).Go? ==> ChangeOf(r, Talk).to == AIConversation
  {
  }

  lemma TalkingJoins(env: Env, s: Sys, npc: string)
    ensures var r := Shifted(env, s, npc, Talk);
            Active(r) == Active(s) + (if TakesSlot(s.ledger.State(npc)) then {npc} else {}) &&
            (TakesSlot(s.ledger.State(npc)) ==> npc !in Active(s))
  {
    TalkTakesSlot(s.ledger.Lookup(npc));
    ShiftedMembers(env, s, npc, Talk, {AIActive, AIConversation});
  }

  lemma TalkingIsCarried(env: Env, s: Sys, npc: string)
    ensures Carried(env, s, npc, Talk) == Shifted(env, s, npc, Talk)
  {
    TalkTakesSlot(s.ledger.Lookup(npc));
  }

  lemma ReadyCounts(env: Env, s: Sys, npc: string)
    requires Rested(s.ledger)
    ensures var ready := Apply(env, RoomMade(env, s, npc), See(npc));
            ready.ledger.State(npc) == s.ledger.State(npc) && Active(ready) == Active(s)
  {
    MakingRoomKeepsSlots(env, s, npc);
  }

  lemma AddedCounts(a: set<string>, b: set<string>, npc: string, joins: bool)
    requires b == a + (if joins then {npc} else {}) && (joins ==> npc !in a)
    ensures |b| == |a| + if joins then 1 else 0
  {
  }

  /** From room made to the conversation begun or gone on with. */
  lemma JoiningCounts(env: Env, s: Sys, npc: string)
    requires Rested(s.ledger)
    ensures var ready := Apply(env, RoomMade(env, s, npc), See(npc));
            |Active(Carried(env, ready, npc, Talk))| == |Active(s)| + if TakesSlot(s.ledger.State(npc)) then 1 else 0
  {
    var ready := Apply(env, RoomMade(env, s, npc), See(npc));
    ReadyCounts(env, s, npc);
    TalkingIsCarried(env, ready, npc);
    TalkingJoins(env, ready, npc);
    AddedCounts(Active(s), Active(Carried(env, ready, npc, Talk)), npc, TakesSlot(s.ledger.State(npc)));
  }

  lemma ActiveOfLedger(s: Sys, r: Sys)
    requires r.ledger == s.ledger
    ensures Active(r) == Active(s) && Conversations(r) == Conversations(s)
  {
  }

  lemma ConversingLedger(env: Env, s: Sys, npc: string, on: bool)
    ensures Apply(env, s, Converse(npc, on)).ledger == s.ledger
  {
  }

  /** The NPC goes on talking, interrupted, or joins. */
  lemma ListeningCounts(env: Env, s: Sys, npc: string)
    requires Rested(s.ledger)
    ensures |Active(Listening(env, s, npc))| == |Active(s)| + if TakesSlot(s.ledger.State(npc)) then 1 else 0
  {
    var ready := Apply(env, RoomMade(env, s, npc), See(npc));
    if ready.ledger.State(npc) == AIConversation {
      ReadyCounts(env, s, npc);
      ActiveOfLedger(ready, Listening(env, s, npc));
    } else {
      JoiningCounts(env, s, npc);
    }
  }

  lemma StartListens(env: Env, s: Sys, npc: string)
    requires npc != ""
    ensures TalkStarted(env, s, npc).ledger == Listening(env, Apply(env, s, Meet(npc)), npc).ledger
  {
    ConversingLedger(env, Listening(env, Apply(env, s, Meet(npc)), npc), npc, true);
  }

  lemma StartCounts(env: Env, s: Sys, npc: string)
    requires Good(env, s) && npc != ""
    ensures |Active(TalkStarted(env, s, npc))| == |Active(s)| + if TakesSlot(s.ledger.State(npc)) then 1 else 0
  {
    StructureHolds(env, s);
    var met := Apply(env, s, Meet(npc));
    LedgerFrame(env, s, Meet(npc));
    ActiveOfLedger(s, met);
    ListeningCounts(env, met, npc);
    StartListens(env, s, npc);
    ActiveOfLedger(Listening(env, met, npc), TalkStarted(env, s, npc));
  }

  lemma AddressingCounts(env: Env, s: Sys, npc: string)
    requires Rested(s.ledger)
    ensures |Active(Addressed(env, s, npc))| == |Active(s)| + if TakesSlot(s.ledger.State(npc)) then 1 else 0
  {
    JoiningCounts(env, s, npc);
    ReadyCounts(env, s, npc);
  }

  lemma SpeechCounts(env: Env, s: Sys, npc: string, position: Value)
    requires Good(env, s)
    ensures |Active(Reacted(env, s, npc, PlayerSpoke, position))| ==
            |Active(s)| + if TakesSlot(s.ledger.State(npc)) then 1 else 0
  {
    StructureHolds(env, s);
    AddressingCounts(env, s, npc);
    AddressingIsBounded(env, s, npc);
    var joined := Addressed(env, s, npc);
    ConversingIsCalm(env, joined, npc);
    ConversingLedger(env, joined, npc, true);
    var conversing := Apply(env, joined, Converse(npc, true));
    ActiveOfLedger(joined, conversing);
    TurnKeepsActive(env, conversing, npc, AnswerPlayer, Some(Trigger(PlayerSpoke, position)));
  }

  lemma TurnKeepsActive(env: Env, s: Sys, npc: string, reason: Reason, trigger: Option<Trigger>)
    requires Good(env, s) && reason != Idle
    ensures Active(Turned(env, s, npc, reason, trigger)) == Active(s)
  {
    TurnIsCalm(env, s, npc, reason, trigger);
  }

  /** The NPC a message turns the player to, if it is one that does. */
  function Addressee(s: Sys, msg: Message): string {
    match msg
    case TalkStart(npc) => npc
    case GameEvent(npc, request, PlayerSpoke, _, _) => Meant(s, npc, request)
    case _ => ""
  }

  lemma SpokenToCounts(env: Env, s: Sys, npc: string, goal: Option<string>, position: Value)
    requires Good(env, s)
    ensures |Active(Received(env, s, npc, PlayerSpoke, PayloadOf(goal), position))| ==
            |Active(s)| + if TakesSlot(s.ledger.State(npc)) then 1 else 0
  {
    var act := Hear(npc, PlayerSpoke, PayloadOf(goal));
    HearingIsCalm(env, s, npc, PlayerSpoke, goal);
    LedgerFrame(env, s, act);
    ActiveOfLedger(s, Apply(env, s, act));
    SpeechCounts(env, Apply(env, s, act), npc, position);
  }

  lemma AddresseeCounts(env: Env, s: Sys, msg: Message)
    requires Good(env, s) && (msg.TalkStart? || (msg.GameEvent? && msg.name == PlayerSpoke))
    ensures var npc := Addressee(s, msg);
            |Active(Handle(env, s, msg))| ==
            |Active(s)| + if npc != "" && TakesSlot(s.ledger.State(npc)) then 1 else 0
  {
    var npc := Addressee(s, msg);
    if npc == "" {
      if msg.TalkStart? {
        StartIsHandled(env, s, npc);
      } else {
        UnmeantIsIgnored(env, s, msg);
      }
    } else if msg.TalkStart? {
      StartCounts(env, s, npc);
      StartIsHandled(env, s, npc);
    } else {
      SpokenToCounts(env, s, npc, msg.goal, msg.position);
      EventIsReceived(env, s, msg);
    }
  }

  lemma StartIsHandled(env: Env, s: Sys, npc: string)
    ensures Handle(env, s, TalkStart(npc)) == TalkStarted(env, s, npc)
  {
  }

  /** Talk start and player speech go beyond both the previous count and the cap
      exactly when the NPC is aware or in a quest dialogue and no slot is free. */
  lemma TalkingExceedsTheCapExactly(env: Env, s: Sys, msg: Message)
    requires Good(env, s) && (msg.TalkStart? || (msg.GameEvent? && msg.name == PlayerSpoke))
    ensures var npc := Addressee(s, msg);
            |Active(Handle(env, s, msg))| > Max(|Active(s)|, env.settings.maxReasoning) <==>
            npc != "" && TakesSlot(s.ledger.State(npc)) && |Active(s)| >= env.settings.maxReasoning
  {
    AddresseeCounts(env, s, msg);
  }

  // ---------------------------------------------------------------------
  // Clearing story safety
  // ---------------------------------------------------------------------

  /** The suspended among the given NPCs that return to one of these states. */
  ghost function Returning(s: Sys, ids: seq<string>, states: set<OwnershipState>): set<string> {
    set n | n in s.ledger.records && n in ids && s.ledger.records[n].state == Suspended &&
            ResumeTarget(s.ledger.records[n].previous) in states
  }

  /** The record of one NPC after a bulk clear, as far as clearing goes. */
  lemma {:induction false} ClearedState(env: Env, s: Sys, ids: seq<string>, reason: Why, n: string)
    ensures var before := s.ledger.Lookup(n);
            var after := EachSafety(env, s, ids, Resume(reason)).ledger.Lookup(n);
            if n in ids && before.state == Suspended then after.state == ResumeTarget(before.previous)
            else after.state == before.state && after.previous == before.previous
    ensures EachSafety(env, s, ids, Resume(reason)).queue == s.queue
    ensures EachSafety(env, s, ids, Resume(reason)).reasons == s.reasons
  {
    if ids != [] {
      var front, last := ids[..|ids| - 1], ids[|ids| - 1];
      ClearedState(env, s, front, reason, n);
      var t := EachSafety(env, s, front, Resume(reason));
      ResumingOne(env, t, last, reason, n);
      assert n in ids <==> n in front || n == last;
    }
  }

  lemma ResumingOne(env: Env, s: Sys, npc: string, reason: Why, n: string)
    ensures var before := s.ledger.Lookup(n);
            var r := Carried(env, s, npc, Resume(reason));
            var after := r.ledger.Lookup(n);
            && (if n == npc && before.state == Suspended then after.state == ResumeTarget(before.previous)
                else after.state == before.state && after.previous == before.previous)
            && r.queue == s.queue && r.reasons == s.reasons
  {
    ResumeChange(s.ledger.Lookup(npc), reason);
    ResumedBy(env, s, npc, ChangeOf(s.ledger.Lookup(npc), Resume(reason)), n);
  }

  lemma ResumeChange(r: Record, reason: Why)
    ensures var change := ChangeOf(r, Resume(reason));
            && (r.state != Suspended ==> change.Stay?)
            && (r.state == Suspended ==> change.Go? && change.to == ResumeTarget(r.previous))
            && !HandsOff(change)
  {
  }

  lemma ResumedBy(env: Env, s: Sys, npc: string, change: Change, n: string)
    requires !HandsOff(change)
    ensures var before := s.ledger.Lookup(n);
            var r := ShiftedBy(env, s, npc, change, None);
            var after := r.ledger.Lookup(n);
            && (if n == npc && change.Go? then after.state == change.to
                else after.state == before.state && after.previous == before.previous)
            && r.queue == s.queue && r.reasons == s.reasons
  {
    ShiftedRecords(env, s, npc, change, None);
    ShiftedRest(env, s, npc, change, None);
  }

  lemma ClearedMembers(env: Env, s: Sys, ids: seq<string>, reason: Why, states: set<OwnershipState>)
    requires Rockstar !in states && Suspended !in states
    ensures var r := EachSafety(env, s, ids, Resume(reason));
            && InState(r.ledger, states) == InState(s.ledger, states) + Returning(s, ids, states)
            && InState(s.ledger, states) !! Returning(s, ids, states)
  {
    var r := EachSafety(env, s, ids, Resume(reason));
    forall n
      ensures n in InState(r.ledger, states) <==> n in InState(s.ledger, states) + Returning(s, ids, states)
    {
      ClearedState(env, s, ids, reason, n);
      assert n in InState(r.ledger, states) <==> r.ledger.State(n) in states;
      assert n in InState(s.ledger, states) <==> s.ledger.State(n) in states;
    }
    assert InState(r.ledger, states) == InState(s.ledger, states) + Returning(s, ids, states);
  }

  lemma DisjointCount(a: set<string>, b: set<string>)
    requires a !! b
    ensures |a + b| == |a| + |b|
  {
  }

  /** How many are in these states after a clear. */
  lemma ClearedCount(env: Env, s: Sys, ids: seq<string>, reason: Why, states: set<OwnershipState>)
    requires Rockstar !in states && Suspended !in states
    ensures |InState(EachSafety(env, s, ids, Resume(reason)).ledger, states)| ==
            |InState(s.ledger, states)| + |Returning(s, ids, states)|
  {
    ClearedMembers(env, s, ids, reason, states);
    DisjointCount(InState(s.ledger, states), Returning(s, ids, states));
  }

  /** Clearing story safety, for one NPC or for all: the conversation cap holds
      afterwards exactly when the conversations and those suspended from one
      among the targets fit it together. */
  lemma ClearingExceedsTheConversationCapExactly(env: Env, s: Sys, npc: string, reason: Why)
    ensures TalkBounded(env, EachSafety(env, s, SafetyTargets(s, npc), SafetyOp(false, reason))) <==>
            |Conversations(s)| + |Returning(s, SafetyTargets(s, npc), {AIConversation})| <= ConversationCap(env)
  {
    ClearedCount(env, s, SafetyTargets(s, npc), reason, {AIConversation});
  }

  /** The slots stay within the previous count and the cap exactly when nobody
      returns to a slot or all fit. */
  lemma ClearingExceedsTheAgentCapExactly(env: Env, s: Sys, npc: string, reason: Why)
    ensures var returning := Returning(s, SafetyTargets(s, npc), {AIActive, AIConversation});
            |Active(EachSafety(env, s, SafetyTargets(s, npc), SafetyOp(false, reason)))|
              > Max(|Active(s)|, env.settings.maxReasoning) <==>
            returning != {} && |Active(s)| + |returning| > env.settings.maxReasoning
  {
    ClearedCount(env, s, SafetyTargets(s, npc), reason, {AIActive, AIConversation});
  }

  /** Both are what a story-safety message that is not active does. */
  lemma ClearingIsAMessage(env: Env, s: Sys, npc: string, reason: Why)
    ensures Handle(env, s, StorySafetyChange(false, npc, reason)) ==
            EachSafety(env, s, SafetyTargets(s, npc), SafetyOp(false, reason))
  {
  }
}
