/** Every handler keeps the state live and settled; all but the talking and
    resuming ones respect the caps. */
module HandlerProofs {
  import opened Common
  import opened Names
  import opened Ownership
  import opened Decisions
  import opened Journal
  import opened Dispatching
  import opened Scheduler
  import opened Turns
  import opened Handlers

  /** Between the steps of a handler. */
  ghost predicate Good(env: Env, s: Sys) {
    Live(env, s) && Settled(env, s)
  }

  /** No new conversation, and no new slot beyond the cap. */
  ghost predicate Calm(env: Env, s: Sys, r: Sys) {
    && Good(env, r)
    && |Active(r)| <= Max(|Active(s)|, env.settings.maxReasoning)
    && Conversations(r) <= Conversations(s)
  }

  lemma CalmChains(env: Env, s: Sys, t: Sys, r: Sys)
    requires Calm(env, s, t) && Calm(env, t, r)
    ensures Calm(env, s, r)
  {
  }

  // ---------------------------------------------------------------------
  // Single acts
  // ---------------------------------------------------------------------

  /** Acts outside a reasoning turn. */
  predicate Plainly(act: Act) {
    !(act.Consult? || act.Fail? || act.AdoptGoal? || act.Revise? || act.Dispatch? || act.StampSpeech?)
  }

  lemma ShiftSettles(env: Env, s: Sys, npc: string, op: Op)
    requires Settled(env, s)
    ensures Settled(env, Shifted(env, s, npc, op))
  {
    ShiftLogsNoSpeech(env, s, npc, ChangeOf(s.ledger.Lookup(npc), op), EvidenceOf(op));
  }

  predicate TouchesAgents(act: Act) {
    act.Meet? || act.RaiseOverlay? || act.Converse? || act.Hear?
  }

  lemma BookkeepingSettles(env: Env, s: Sys, act: Act)
    requires Settled(env, s) && Enabled(env, s, act) && Plainly(act) && !act.Shift? && !TouchesAgents(act)
    ensures Settled(env, Apply(env, s, act))
  {
    var r := Apply(env, s, act);
    assert r.agents == s.agents && r.lastGlobalSpeechAt == s.lastGlobalSpeechAt;
    assert forall item <- r.log :: IsSpeech(item) ==> item in s.log;
  }

  /** The clocks of known agents stand and newcomers are not reasoning. */
  ghost predicate AgentsStand(s: Sys, r: Sys) {
    && r.lastGlobalSpeechAt == s.lastGlobalSpeechAt
    && (forall n <- s.agents ::
          n in r.agents && r.agents[n].lastSpokenAt == s.agents[n].lastSpokenAt &&
          r.agents[n].reasoning == s.agents[n].reasoning)
    && (forall n <- r.agents :: n !in s.agents ==> !r.agents[n].reasoning)
  }

  lemma AgentActsStand(env: Env, s: Sys, act: Act)
    requires Enabled(env, s, act) && TouchesAgents(act)
    ensures AgentsStand(s, Apply(env, s, act))
  {
  }

  lemma StandingSettles(env: Env, s: Sys, r: Sys)
    requires Settled(env, s) && AgentsStand(s, r)
    requires forall item <- r.log :: IsSpeech(item) ==> item in s.log
    ensures Settled(env, r)
  {
  }

  lemma MeetingAgentsSettles(env: Env, s: Sys, act: Act)
    requires Settled(env, s) && Enabled(env, s, act) && TouchesAgents(act)
    ensures Settled(env, Apply(env, s, act))
  {
    ActLines(env, s, act);
    AgentActsStand(env, s, act);
    StandingSettles(env, s, Apply(env, s, act));
  }

  lemma PlainActSettles(env: Env, s: Sys, act: Act)
    requires Good(env, s) && Enabled(env, s, act) && Plainly(act)
    ensures Good(env, Apply(env, s, act))
  {
    EnabledActsStayLive(env, s, act);
    if act.Shift? {
      ShiftSettles(env, s, act.npc, act.op);
    } else if TouchesAgents(act) {
      MeetingAgentsSettles(env, s, act);
    } else {
      BookkeepingSettles(env, s, act);
    }
  }

  /** Only talking, resuming and a trigger with a free slot make an NPC active. */
  lemma OperationIsCalm(r: Record, op: Op)
    requires !op.Talk? && !op.Resume? && RecordRests(r)
    ensures StateAfter(r, ChangeOf(r, op)) == AIConversation ==> r.state == AIConversation
    ensures StateAfter(r, ChangeOf(r, op)) == AIActive ==>
              r.state in {AIActive, AIConversation} || (op.Scan? && op.update.trigger && r.state == Aware)
  {
  }

  lemma AddOne(a: set<string>, b: set<string>, x: string)
    requires b <= a + {x}
    ensures |b| <= |a| + 1 && (x in a ==> |b| <= |a|)
  {
    Subsets(b, a + {x});
  }

  lemma Subsets(b: set<string>, a: set<string>)
    requires b <= a
    ensures |b| <= |a|
  {
    assert a == b + (a - b);
  }

  /** Ledgers that differ in one record differ in one NPC's place. */
  lemma ChangedMembers(before: Ledger, after: Ledger, npc: string, states: set<OwnershipState>)
    requires after.records.Keys == before.records.Keys + {npc} && Rockstar !in states
    requires forall n <- before.records :: n != npc ==> after.records[n] == before.records[n]
    ensures InState(after, states) <= InState(before, states) + {npc}
    ensures InState(before, states) <= InState(after, states) + {npc}
    ensures npc in InState(before, states) <==> before.State(npc) in states
    ensures npc in InState(after, states) <==> after.records[npc].state in states
  {
  }

  /** Who is in which states changes for one NPC only. */
  lemma ShiftedMembers(env: Env, s: Sys, npc: string, op: Op, states: set<OwnershipState>)
    requires Rockstar !in states
    ensures var before := InState(s.ledger, states);
            var after := InState(Shifted(env, s, npc, op).ledger, states);
            && after <= before + {npc} && before <= after + {npc}
            && (npc in before <==> s.ledger.State(npc) in states)
            && (npc in after <==> StateAfter(s.ledger.Lookup(npc), ChangeOf(s.ledger.Lookup(npc), op)) in states)
  {
    ShiftedRecords(env, s, npc, ChangeOf(s.ledger.Lookup(npc), op), EvidenceOf(op));
    ChangedMembers(s.ledger, Shifted(env, s, npc, op).ledger, npc, states);
  }

  lemma ActiveAfterShift(env: Env, s: Sys, npc: string, op: Op)
    requires Rested(s.ledger) && !op.Talk? && !op.Resume?
    ensures var r := Shifted(env, s, npc, op);
            && Conversations(r) <= Conversations(s)
            && Active(r) <= Active(s) + {npc}
            && (npc in Active(r) - Active(s) ==> op.Scan? && op.update.trigger)
  {
    ShiftedMembers(env, s, npc, op, {AIConversation});
    ShiftedMembers(env, s, npc, op, {AIActive, AIConversation});
    OperationIsCalm(s.ledger.Lookup(npc), op);
  }

  lemma ShiftIsCalm(env: Env, s: Sys, npc: string, op: Op)
    requires Good(env, s) && ShiftEnabled(env, s, npc, op) && !op.Talk? && !op.Resume?
    ensures Calm(env, s, Shifted(env, s, npc, op))
  {
    StructureHolds(env, s);
    PlainActSettles(env, s, Shift(npc, op));
    ActiveAfterShift(env, s, npc, op);
    var r := Shifted(env, s, npc, op);
    AddOne(Active(s), Active(r), npc);
    if npc !in Active(r) - Active(s) {
      Subsets(Active(r), Active(s));
    }
  }

  /** A first sight puts nobody into another state than ROCKSTAR. */
  lemma SeenMembers(ledger: Ledger, npc: string, states: set<OwnershipState>)
    requires Rockstar !in states
    ensures InState(ledger.Seen(npc), states) == InState(ledger, states)
  {
  }

  lemma CalmBySight(env: Env, s: Sys, r: Sys, npc: string)
    requires Good(env, r) && (r.ledger == s.ledger || r.ledger == s.ledger.Seen(npc))
    ensures Calm(env, s, r) && Active(r) == Active(s) && Conversations(r) == Conversations(s)
  {
    SeenMembers(s.ledger, npc, {AIActive, AIConversation});
    SeenMembers(s.ledger, npc, {AIConversation});
  }

  lemma QuietActIsCalm(env: Env, s: Sys, act: Act)
    requires Good(env, s) && Enabled(env, s, act) && Plainly(act) && !act.Shift?
    ensures Calm(env, s, Apply(env, s, act))
  {
    PlainActSettles(env, s, act);
    LedgerFrame(env, s, act);
    CalmBySight(env, s, Apply(env, s, act), if act.See? then act.npc else "");
  }

  lemma TurnIsCalm(env: Env, s: Sys, npc: string, reason: Reason, trigger: Option<Trigger>)
    requires Good(env, s) && IdleFits(s, npc, reason)
    ensures Calm(env, s, Turned(env, s, npc, reason, trigger))
    ensures AfterTurn(env, s, Turned(env, s, npc, reason, trigger), npc)
  {
    TurnSettles(env, s, npc, reason, trigger);
    CalmBySight(env, s, Turned(env, s, npc, reason, trigger), npc);
  }

  // ---------------------------------------------------------------------
  // Promotion
  // ---------------------------------------------------------------------

  lemma ActivationIsCalm(env: Env, s: Sys, npc: string, reason: Reason, trigger: Option<Trigger>)
    requires Good(env, s) && s.ledger.State(npc) == Aware && HasSlot(env, s) && reason != Idle
    ensures Calm(env, s, Activated(env, s, npc, reason, trigger))
  {
    ShiftIsCalm(env, s, npc, Scan(TriggerUpdate(env)));
    var s1 := Shifted(env, s, npc, Scan(TriggerUpdate(env)));
    if MayReason(s1.ledger.State(npc)) {
      TurnIsCalm(env, s1, npc, reason, trigger);
    }
  }

  lemma PoppingIsCalm(env: Env, s: Sys)
    requires Good(env, s) && s.queue != []
    ensures var popped := Apply(env, Apply(env, s, Pop), See(s.queue[0]));
            Calm(env, s, popped) && Active(popped) == Active(s) && |popped.queue| < |s.queue|
  {
    var t := Apply(env, s, Pop);
    QuietActIsCalm(env, s, Pop);
    QuietActIsCalm(env, t, See(s.queue[0]));
    CalmBySight(env, s, Apply(env, t, See(s.queue[0])), s.queue[0]);
  }

  lemma {:induction false} PromotionIsCalm(env: Env, s: Sys)
    requires Good(env, s)
    ensures Calm(env, s, Promoted(env, s))
    decreases |s.queue|, 0
  {
    if s.queue != [] && HasSlot(env, s) {
      StructureHolds(env, s);
      PopKeepsStructure(env, s);
      PoppingIsCalm(env, s);
      var popped := Apply(env, Apply(env, s, Pop), See(s.queue[0]));
      PoppedIsCalm(env, popped, s.queue[0], s.reasons[s.queue[0]], |s.queue|);
      CalmChains(env, s, popped, Promoted(env, s));
    }
  }

  /** What a promotion does with the NPC it has taken off the queue. */
  lemma {:induction false} PoppedIsCalm(env: Env, s: Sys, npc: string, reason: Reason, size: nat)
    requires Good(env, s) && HasSlot(env, s) && |s.queue| < size
    ensures s.ledger.State(npc) != Aware ==> Calm(env, s, Promoted(env, s))
    ensures s.ledger.State(npc) == Aware ==>
              Calm(env, s, Promoted(env, Activated(env, s, npc, Promotion(reason), None)))
    decreases size - 1, 1
  {
    if s.ledger.State(npc) != Aware {
      PromotionIsCalm(env, s);
    } else {
      ActivationIsCalm(env, s, npc, Promotion(reason), None);
      PromotionIsCalm(env, Activated(env, s, npc, Promotion(reason), None));
    }
  }

  lemma CarryingIsCalm(env: Env, s: Sys, npc: string, op: Op)
    requires Good(env, s) && ShiftEnabled(env, s, npc, op) && !op.Talk? && !op.Resume?
    ensures Calm(env, s, Carried(env, s, npc, op))
  {
    ShiftIsCalm(env, s, npc, op);
    PromotionIsCalm(env, Shifted(env, s, npc, op));
  }

  lemma StirringIsCalm(env: Env, s: Sys, npc: string, reason: Reason, trigger: Option<Trigger>)
    requires Good(env, s) && reason != Idle
    ensures Calm(env, s, Stirred(env, s, npc, reason, trigger))
  {
    QuietActIsCalm(env, s, See(npc));
    var seen := Apply(env, s, See(npc));
    if seen.ledger.State(npc) == Aware {
      if HasSlot(env, seen) {
        ActivationIsCalm(env, seen, npc, reason, trigger);
      } else {
        QuietActIsCalm(env, seen, Defer(npc, reason));
      }
    } else if MayReason(seen.ledger.State(npc)) {
      TurnIsCalm(env, seen, npc, reason, trigger);
    }
  }

  // ---------------------------------------------------------------------
  // Conversations
  // ---------------------------------------------------------------------

  lemma SilencingIsCalm(env: Env, s: Sys, npc: string)
    requires Good(env, s)
    ensures Calm(env, s, Silenced(env, s, npc))
  {
    ShiftIsCalm(env, s, npc, EndTalk);
    var s1 := Apply(env, s, Shift(npc, EndTalk));
    QuietActIsCalm(env, s1, Note(npc, ConversationEnded, ByRuntime));
    var s2 := Apply(env, s1, Note(npc, ConversationEnded, ByRuntime));
    QuietActIsCalm(env, s2, Meet(npc));
    QuietActIsCalm(env, Apply(env, s2, Meet(npc)), Converse(npc, false));
  }

  lemma {:induction false} AllSilencedIsCalm(env: Env, s: Sys, ids: seq<string>)
    requires Good(env, s)
    ensures Calm(env, s, AllSilenced(env, s, ids))
  {
    if ids != [] {
      AllSilencedIsCalm(env, s, ids[..|ids| - 1]);
      SilencingIsCalm(env, AllSilenced(env, s, ids[..|ids| - 1]), ids[|ids| - 1]);
    }
  }

  lemma MakingRoomIsCalm(env: Env, s: Sys, npc: string)
    requires Good(env, s)
    ensures Calm(env, s, RoomMade(env, s, npc))
  {
    var talking := Talking(s.ledger, s.ledger.order, npc);
    var stop := StopCount(|talking|, env.settings.maxConversations);
    if stop > 0 {
      AllSilencedIsCalm(env, s, talking[..stop]);
    }
  }

  // ---------------------------------------------------------------------
  // Idle planning
  // ---------------------------------------------------------------------

  lemma IdlingOneIsCalm(env: Env, s: Sys, npc: string, busy: set<string>, now: real)
    requires Good(env, s) && (npc !in busy ==> npc !in s.desk.Busy())
    ensures Calm(env, s, IdleOne(env, s, npc, busy, now))
    ensures IdleOne(env, s, npc, busy, now).desk.Busy() <= s.desk.Busy() + {npc}
  {
    if npc in s.agents && !s.agents[npc].reasoning && npc !in busy && !s.agents[npc].dialogueOnly {
      QuietActIsCalm(env, s, See(npc));
      var seen := Apply(env, s, See(npc));
      if seen.ledger.State(npc) == AIActive && npc in s.tracked {
        TurnIsCalm(env, seen, npc, Idle, None);
      }
    }
  }

  /** While the loop runs, only NPCs already visited become busy. */
  lemma {:induction false} IdlingIsCalm(env: Env, s: Sys, ids: seq<string>, busy: set<string>, now: real)
    requires Good(env, s) && NoDup(ids) && s.desk.Busy() <= busy
    ensures Calm(env, s, IdleEach(env, s, ids, busy, now))
    ensures forall n <- IdleEach(env, s, ids, busy, now).desk.Busy() :: n in busy || n in ids
  {
    if ids != [] {
      var front, last := ids[..|ids| - 1], ids[|ids| - 1];
      IdlingIsCalm(env, s, front, busy, now);
      var before := IdleEach(env, s, front, busy, now);
      assert last !in front;
      IdlingOneIsCalm(env, before, last, busy, now);
      CalmChains(env, s, before, IdleEach(env, s, ids, busy, now));
    }
  }

  lemma IdleIsCalm(env: Env, s: Sys)
    requires Good(env, s)
    ensures Calm(env, s, Idled(env, s))
  {
    if env.settings.idleSeconds > 0.0 {
      StructureHolds(env, s);
      QuietActIsCalm(env, s, ReadClock);
      IdlingIsCalm(env, Apply(env, s, ReadClock), s.agentOrder, s.desk.Busy(), env.clock(s.ticks));
    }
  }

  // ---------------------------------------------------------------------
  // Scans, world updates, story safety, release
  // ---------------------------------------------------------------------

  lemma QuestEndIsCalm(env: Env, s: Sys, ped: Ped)
    requires Good(env, s)
    ensures Calm(env, s, QuestEnded(env, s, ped).0)
  {
    if Overlaid(s, ped.id) {
      var why := if ped.distance > env.settings.candidateDistance then QuestDialogueLeftArea else QuestDialogueEnded;
      CarryingIsCalm(env, s, ped.id, RequestRelease(why));
    }
  }

  lemma QuestOpeningIsCalm(env: Env, s: Sys, ped: Ped)
    requires Good(env, s) && Overlaid(s, ped.id)
    ensures Calm(env, s, QuestOpened(env, s, ped).0)
  {
    if ped.distance > env.settings.candidateDistance {
      ReleasingOneIsCalm(env, s, ped.id, QuestDialogueLeftArea);
    } else if ped.distance <= env.settings.awareDistance {
      CarryingIsCalm(env, s, ped.id, EnterQuest);
    }
  }

  lemma QuestStepIsCalm(env: Env, s: Sys, ped: Ped)
    requires Good(env, s)
    ensures Calm(env, s, QuestStep(env, s, ped).0)
  {
    QuietActIsCalm(env, s, Meet(ped.id));
    var met := Apply(env, s, Meet(ped.id));
    if ped.quest {
      QuietActIsCalm(env, met, RaiseOverlay(ped.id));
      QuestOpeningIsCalm(env, Apply(env, met, RaiseOverlay(ped.id)), ped);
    } else {
      QuestEndIsCalm(env, met, ped);
    }
  }

  lemma PedStepIsCalm(env: Env, s: Sys, ped: Ped)
    requires Good(env, s)
    ensures Calm(env, s, PedStep(env, s, ped))
  {
    if ped.id != "" {
      QuietActIsCalm(env, s, Track(ped.id));
      var tracked := Apply(env, s, Track(ped.id));
      QuestStepIsCalm(env, tracked, ped);
      var (s1, moved) := QuestStep(env, tracked, ped);
      if !moved && !Overlaid(s1, ped.id) {
        CarryingIsCalm(env, s1, ped.id, Scan(UpdateFor(env, FromPedScan, ped.distance, ped.eligible, false)));
      }
    }
  }

  lemma {:induction false} PedsAreCalm(env: Env, s: Sys, peds: seq<Ped>)
    requires Good(env, s)
    ensures Calm(env, s, EachPed(env, s, peds))
  {
    if peds != [] {
      PedsAreCalm(env, s, peds[..|peds| - 1]);
      PedStepIsCalm(env, EachPed(env, s, peds[..|peds| - 1]), peds[|peds| - 1]);
    }
  }

  lemma LeavingBehindIsCalm(env: Env, s: Sys, npc: string, distance: Option<real>)
    requires Good(env, s)
    ensures Calm(env, s, LeftBehind(env, s, npc, distance))
  {
    if distance.Some? && distance.value > env.settings.candidateDistance {
      CarryingIsCalm(env, s, npc, Scan(UpdateFor(env, FromWorldUpdate, distance.value, true, false)));
    }
  }

  lemma {:induction false} SuspendingIsCalm(env: Env, s: Sys, ids: seq<string>, reason: Why)
    requires Good(env, s)
    ensures Calm(env, s, EachSafety(env, s, ids, Suspend(reason)))
  {
    if ids != [] {
      SuspendingIsCalm(env, s, ids[..|ids| - 1], reason);
      CarryingIsCalm(env, EachSafety(env, s, ids[..|ids| - 1], Suspend(reason)), ids[|ids| - 1], Suspend(reason));
    }
  }

  lemma ReleasingOneIsCalm(env: Env, s: Sys, npc: string, reason: Why)
    requires Good(env, s)
    ensures Calm(env, s, ReleaseOne(env, s, npc, reason))
  {
    QuietActIsCalm(env, s, See(npc));
    CarryingIsCalm(env, Apply(env, s, See(npc)), npc, RequestRelease(reason));
  }

  lemma {:induction false} ReleasingIsCalm(env: Env, s: Sys, ids: seq<string>, reason: Why)
    requires Good(env, s)
    ensures Calm(env, s, EachReleased(env, s, ids, reason))
  {
    if ids != [] {
      ReleasingIsCalm(env, s, ids[..|ids| - 1], reason);
      ReleasingOneIsCalm(env, EachReleased(env, s, ids[..|ids| - 1], reason), ids[|ids| - 1], reason);
    }
  }

  lemma StoppingTalkIsCalm(env: Env, s: Sys, npc: string)
    requires Good(env, s)
    ensures Calm(env, s, TalkStopped(env, s, npc))
  {
    if npc != "" {
      CarryingIsCalm(env, s, npc, EndTalk);
      var s1 := Carried(env, s, npc, EndTalk);
      QuietActIsCalm(env, s1, Meet(npc));
      var s2 := Apply(env, s1, Meet(npc));
      QuietActIsCalm(env, s2, Converse(npc, false));
      QuietActIsCalm(env, Apply(env, s2, Converse(npc, false)), Note(npc, ConversationEnded, ByRuntime));
    }
  }

  lemma NoticingIsCalm(env: Env, s: Sys, npc: string, reason: Reason, trigger: Option<Trigger>)
    requires Good(env, s) && reason != Idle
    ensures var seen := Apply(env, s, See(npc));
            Calm(env, s, seen) && Calm(env, s, Stirred(env, seen, npc, reason, trigger))
  {
    QuietActIsCalm(env, s, See(npc));
    StirringIsCalm(env, Apply(env, s, See(npc)), npc, reason, trigger);
  }

  lemma PartingIsCalm(env: Env, s: Sys, npc: string)
    requires Good(env, s) && npc in s.agents
    ensures Calm(env, s, Parted(env, s, npc))
  {
    ShiftIsCalm(env, s, npc, EndTalk);
    ShiftedRest(env, s, npc, ChangeOf(s.ledger.Lookup(npc), EndTalk), None);
    QuietActIsCalm(env, Apply(env, s, Shift(npc, EndTalk)), Converse(npc, false));
  }

  /** Reactions other than to the player's speech. */
  lemma ReactionIsCalm(env: Env, s: Sys, npc: string, name: EventName, position: Value)
    requires Good(env, s) && npc in s.agents && name != PlayerSpoke
    ensures Calm(env, s, Reacted(env, s, npc, name, position))
  {
    if name in ALARMS {
      StirringIsCalm(env, s, npc, Meaningful(name), Some(Trigger(name, position)));
    } else {
      AttendingIsCalm(env, s, npc, name, position);
    }
  }

  lemma AttendingIsCalm(env: Env, s: Sys, npc: string, name: EventName, position: Value)
    requires Good(env, s) && npc in s.agents
    ensures Calm(env, s, Attended(env, s, npc, name, position))
  {
    var trigger := Some(Trigger(name, position));
    if name == PlayerApproached || name == PlayerLookedAtNpc {
      NoticedIsCalm(env, s, npc, name, trigger);
    } else if name == ActionFailed {
      TurnIsCalm(env, s, npc, ActionFailure, trigger);
    } else if name == ConversationEnded || name == ConversationInterrupted {
      PartingIsCalm(env, s, npc);
    }
  }

  lemma NoticedIsCalm(env: Env, s: Sys, npc: string, name: EventName, trigger: Option<Trigger>)
    requires Good(env, s)
    ensures Calm(env, s, Noticed(env, s, npc, name, trigger))
  {
    if Overlaid(s, npc) {
      TurnIsCalm(env, s, npc, QuestLine, trigger);
    } else {
      NoticingIsCalm(env, s, npc, Meaningful(name), trigger);
    }
  }

  lemma ReportIsCalm(env: Env, s: Sys, npc: string, status: Status)
    requires Good(env, s)
    ensures var noted := Apply(env, s, Note(npc, NameOfStatus(status), ByBridge));
            && Calm(env, s, noted)
            && Calm(env, s, Turned(env, noted, npc, ActionFailure, Some(Trigger(ActionFailed, Nil))))
  {
    QuietActIsCalm(env, s, Note(npc, NameOfStatus(status), ByBridge));
    TurnIsCalm(env, Apply(env, s, Note(npc, NameOfStatus(status), ByBridge)), npc, ActionFailure,
               Some(Trigger(ActionFailed, Nil)));
  }

  lemma ResultIsCalm(env: Env, s: Sys, npc: string, request: Option<nat>, status: Status)
    requires Good(env, s)
    ensures Calm(env, s, ResultHandled(env, s, npc, request, status))
  {
    var who := if npc == "" then PendingNpc(s, request) else npc;
    if request.Some? && request.value in s.desk.pending {
      var s1 := Apply(env, s, Resolve(request.value));
      QuietActIsCalm(env, s, Resolve(request.value));
      if who != "" {
        ReportIsCalm(env, s1, who, status);
        CalmChains(env, s, s1, ResultHandled(env, s, npc, request, status));
      }
    } else if who != "" {
      ReportIsCalm(env, s, who, status);
    }
  }

  // ---------------------------------------------------------------------
  // Talking
  // ---------------------------------------------------------------------

  lemma {:induction false} ListsCount<T(!new)>(s: seq<T>, keys: set<T>)
    requires Lists(s, keys)
    ensures |s| == |keys|
  {
    if s == [] {
      assert keys == {};
    } else {
      var front, last := s[..|s| - 1], s[|s| - 1];
      assert last !in front;
      assert Lists(front, keys - {last}) by {
        assert forall x <- s :: x in front || x == last;
      }
      ListsCount(front, keys - {last});
    }
  }

  lemma SilencingEnds(env: Env, s: Sys, npc: string)
    ensures Conversations(Silenced(env, s, npc)) == Conversations(s) - {npc}
    ensures Silenced(env, s, npc).ledger == Shifted(env, s, npc, EndTalk).ledger
  {
    var r := Silenced(env, s, npc);
    assert r.ledger == Shifted(env, s, npc, EndTalk).ledger;
    ShiftedMembers(env, s, npc, EndTalk, {AIConversation});
  }

  lemma {:induction false} AllSilencedEnd(env: Env, s: Sys, ids: seq<string>)
    ensures forall n :: n in Conversations(AllSilenced(env, s, ids)) <==> n in Conversations(s) && n !in ids
  {
    if ids != [] {
      var front, last := ids[..|ids| - 1], ids[|ids| - 1];
      AllSilencedEnd(env, s, front);
      var before := AllSilenced(env, s, front);
      SilencingEnds(env, before, last);
      assert Conversations(AllSilenced(env, s, ids)) == Conversations(before) - {last};
      assert forall n :: n in ids <==> n in front || n == last;
    }
  }

  /** The excess is counted on exactly the other NPCs in conversation, each once,
      in the order in which they were first seen. */
  lemma {:induction false} TalkingLists(ledger: Ledger, ids: seq<string>, npc: string)
    requires NoDup(ids)
    ensures NoDup(Talking(ledger, ids, npc))
    ensures forall n :: n in Talking(ledger, ids, npc) <==>
                        n in ids && n != npc && ledger.State(n) == AIConversation
  {
    if ids != [] {
      var front, last := ids[..|ids| - 1], ids[|ids| - 1];
      TalkingLists(ledger, front, npc);
      assert last !in front;
      assert forall n <- ids :: n in front || n == last;
    }
  }

  lemma RestIsTheOthers(talking: seq<string>, stop: nat, before: set<string>, after: set<string>, npc: string)
    requires stop <= |talking| && Lists(talking, before - {npc})
    requires forall n :: n in after <==> n in before && n !in talking[..stop]
    ensures |after - {npc}| == |talking| - stop
  {
    var rest := talking[stop..];
    assert forall x <- talking :: x in talking[..stop] || x in rest by {
      assert talking == talking[..stop] + rest;
    }
    assert forall x <- rest :: x in talking && x !in talking[..stop];
    ListsCount(rest, after - {npc});
  }

  lemma TalkingListsOthers(env: Env, s: Sys, npc: string)
    requires Rested(s.ledger)
    ensures Lists(Talking(s.ledger, s.ledger.order, npc), Conversations(s) - {npc})
  {
    TalkingLists(s.ledger, s.ledger.order, npc);
    var talking := Talking(s.ledger, s.ledger.order, npc);
    forall n
      ensures n in talking <==> n in Conversations(s) - {npc}
    {
    }
  }

  /** Making room leaves fewer other conversations than the cap, however many
      there were before. */
  lemma RoomIsMade(env: Env, s: Sys, npc: string)
    requires Rested(s.ledger)
    ensures |Conversations(RoomMade(env, s, npc)) - {npc}| < ConversationCap(env)
  {
    var talking := Talking(s.ledger, s.ledger.order, npc);
    TalkingListsOthers(env, s, npc);
    var stop := StopCount(|talking|, env.settings.maxConversations);
    if stop > 0 {
      AllSilencedEnd(env, s, talking[..stop]);
      RestIsTheOthers(talking, stop, Conversations(s), Conversations(AllSilenced(env, s, talking[..stop])), npc);
    } else {
      ListsCount(talking, Conversations(s) - {npc});
    }
  }

  lemma TalkIsGood(env: Env, s: Sys, npc: string)
    requires Good(env, s) && s.ledger.State(npc) != AIConversation
    requires |Conversations(s) - {npc}| < ConversationCap(env)
    ensures Good(env, Carried(env, s, npc, Talk))
    ensures Conversations(Carried(env, s, npc, Talk)) <= Conversations(s) + {npc}
  {
    PlainActSettles(env, s, Shift(npc, Talk));
    ShiftedMembers(env, s, npc, Talk, {AIConversation});
  }

  ghost predicate TalkBounded(env: Env, s: Sys) {
    |Conversations(s)| <= ConversationCap(env)
  }

  lemma JoiningIsBounded(env: Env, before: set<string>, after: set<string>, npc: string)
    requires |before - {npc}| < ConversationCap(env) && after <= before + {npc}
    ensures |after| <= ConversationCap(env)
  {
    AddOne(before - {npc}, after, npc);
  }

  lemma RoomIsReady(env: Env, s: Sys, npc: string)
    requires Good(env, s)
    ensures var ready := Apply(env, RoomMade(env, s, npc), See(npc));
            Good(env, ready) && |Conversations(ready) - {npc}| < ConversationCap(env)
  {
    StructureHolds(env, s);
    MakingRoomIsCalm(env, s, npc);
    RoomIsMade(env, s, npc);
    var room := RoomMade(env, s, npc);
    QuietActIsCalm(env, room, See(npc));
    assert Conversations(Apply(env, room, See(npc))) == Conversations(room);
  }

  lemma AddressingIsBounded(env: Env, s: Sys, npc: string)
    requires Good(env, s)
    ensures Good(env, Addressed(env, s, npc)) && TalkBounded(env, Addressed(env, s, npc))
  {
    RoomIsReady(env, s, npc);
    var ready := Apply(env, RoomMade(env, s, npc), See(npc));
    if ready.ledger.State(npc) != AIConversation {
      TalkIsGood(env, ready, npc);
    }
    JoiningIsBounded(env, Conversations(ready), Conversations(Addressed(env, s, npc)), npc);
  }
}
