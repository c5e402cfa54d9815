/** Does a deferred NPC wait while a slot is free?  Most messages never let that
    happen; a suspension, a quest entry and a clear can, exactly when stated. */
module Promptness {
  import opened Common
  import opened Names
  import opened Ownership
  import opened Decisions
  import opened Journal
  import opened Dispatching
  import opened Scheduler
  import opened Turns
  import opened Handlers
  import opened HandlerProofs
  import opened Runs
  import opened Promotions
  import opened Exceptions

  /** Some queued NPC is still aware. */
  predicate Awaited(s: Sys) {
    exists n <- s.queue :: s.ledger.State(n) == Aware
  }

  /** Nobody waits in vain: no queued NPC is aware, or no slot is free. */
  ghost predicate Served(env: Env, s: Sys) {
    !Awaited(s) || !HasSlot(env, s)
  }

  lemma {:induction false} AwaitedMeans(ledger: Ledger, ids: seq<string>)
    ensures AwareIn(ledger, ids) != [] <==> exists n <- ids :: ledger.State(n) == Aware
  {
    if ids != [] {
      AwaitedMeans(ledger, ids[1..]);
      assert forall n <- ids :: n == ids[0] || n in ids[1..];
      assert ids[0] in ids && forall n <- ids[1..] :: n in ids;
    }
  }

  /** The standing assumption of this module. */
  ghost predicate Sound(env: Env, s: Sys) {
    Good(env, s) && 0.0 <= env.settings.candidateDistance
  }

  /** The step keeps queued NPCs served. */
  ghost predicate Serves(env: Env, s: Sys, r: Sys) {
    Served(env, s) ==> Served(env, r)
  }

  // ---------------------------------------------------------------------
  // Steps that neither move an NPC nor touch the queue
  // ---------------------------------------------------------------------

  ghost predicate Unmoved(s: Sys, r: Sys) {
    r.queue == s.queue && forall n :: r.ledger.State(n) == s.ledger.State(n)
  }

  ghost predicate Still(s: Sys, r: Sys) {
    Unmoved(s, r) && forall n :: Overlaid(r, n) == Overlaid(s, n)
  }

  lemma ActiveByState(s: Sys, r: Sys)
    requires forall n :: r.ledger.State(n) in {AIActive, AIConversation} <==> s.ledger.State(n) in {AIActive, AIConversation}
    ensures Active(r) == Active(s)
  {
    forall n
      ensures n in Active(r) <==> n in Active(s)
    {
      assert n in Active(r) <==> r.ledger.State(n) in {AIActive, AIConversation};
      assert n in Active(s) <==> s.ledger.State(n) in {AIActive, AIConversation};
    }
  }

  lemma StillServes(env: Env, s: Sys, r: Sys)
    requires Unmoved(s, r)
    ensures Serves(env, s, r) && Active(r) == Active(s) && Awaited(r) == Awaited(s)
  {
    ActiveByState(s, r);
  }

  /** Acts that move nobody and queue nobody. */
  predicate Idles(act: Act) {
    act.See? || act.Meet? || act.Note? || act.Converse? || act.Track? || act.ReadClock? || act.Resolve? || act.Hear?
  }

  lemma IdleActIsStill(env: Env, s: Sys, act: Act)
    requires Idles(act)
    ensures Still(s, Apply(env, s, act))
  {
    LedgerFrame(env, s, act);
    IdleActQueue(env, s, act);
    forall n
      ensures Overlaid(Apply(env, s, act), n) == Overlaid(s, n)
    {
      IdleActOverlay(env, s, act, n);
    }
  }

  lemma IdleActQueue(env: Env, s: Sys, act: Act)
    requires Idles(act)
    ensures Apply(env, s, act).queue == s.queue
  {
  }

  lemma IdleActOverlay(env: Env, s: Sys, act: Act, n: string)
    requires Idles(act)
    ensures Overlaid(Apply(env, s, act), n) == Overlaid(s, n)
  {
  }

  lemma TurnIsStill(env: Env, s: Sys, npc: string, reason: Reason, trigger: Option<Trigger>)
    requires Good(env, s) && IdleFits(s, npc, reason)
    ensures Still(s, Turned(env, s, npc, reason, trigger))
  {
    TurnSettles(env, s, npc, reason, trigger);
    TurnedIsStill(env, s, Turned(env, s, npc, reason, trigger), npc);
  }

  lemma TurnedIsStill(env: Env, s: Sys, r: Sys, npc: string)
    requires AfterTurn(env, s, r, npc)
    ensures Still(s, r)
  {
  }

  lemma IdlingOneIsStill(env: Env, s: Sys, npc: string, busy: set<string>, now: real)
    requires Good(env, s) && (npc !in busy ==> npc !in s.desk.Busy())
    ensures Still(s, IdleOne(env, s, npc, busy, now))
  {
    if npc in s.agents && !s.agents[npc].reasoning && npc !in busy && !s.agents[npc].dialogueOnly {
      var seen := Apply(env, s, See(npc));
      IdleActIsStill(env, s, See(npc));
      QuietActIsCalm(env, s, See(npc));
      if seen.ledger.State(npc) == AIActive && npc in s.tracked {
        TurnIsStill(env, seen, npc, Idle, None);
      }
    }
  }

  lemma {:induction false} IdlingIsStill(env: Env, s: Sys, ids: seq<string>, busy: set<string>, now: real)
    requires Good(env, s) && NoDup(ids) && s.desk.Busy() <= busy
    ensures Still(s, IdleEach(env, s, ids, busy, now))
  {
    if ids != [] {
      var front, last := ids[..|ids| - 1], ids[|ids| - 1];
      IdlingIsStill(env, s, front, busy, now);
      IdlingIsCalm(env, s, front, busy, now);
      assert last !in front;
      IdlingOneIsStill(env, IdleEach(env, s, front, busy, now), last, busy, now);
    }
  }

  lemma IdleIsStill(env: Env, s: Sys)
    requires Good(env, s)
    ensures Still(s, Idled(env, s))
  {
    if env.settings.idleSeconds > 0.0 {
      StructureHolds(env, s);
      QuietActIsCalm(env, s, ReadClock);
      IdlingIsStill(env, Apply(env, s, ReadClock), s.agentOrder, s.desk.Busy(), env.clock(s.ticks));
    }
  }

  // ---------------------------------------------------------------------
  // Moves
  // ---------------------------------------------------------------------

  /** One NPC moves between states; the queue stays. */
  ghost predicate MovesOne(s: Sys, r: Sys, npc: string, to: OwnershipState) {
    && r.queue == s.queue && r.ledger.State(npc) == to
    && forall n :: n != npc ==> r.ledger.State(n) == s.ledger.State(n)
  }

  lemma ChangeMovesOne(env: Env, s: Sys, npc: string, change: Change, evidence: Option<ScanUpdate>)
    requires !HandsOff(change)
    ensures MovesOne(s, ShiftedBy(env, s, npc, change, evidence), npc,
                     if change.Stay? then s.ledger.State(npc) else change.to)
  {
    ShiftedRecords(env, s, npc, change, evidence);
    ShiftedRest(env, s, npc, change, evidence);
  }

  predicate HoldsSlot(state: OwnershipState) {
    state in {AIActive, AIConversation}
  }

  /** A move that gives up no slot and queues nobody keeps everybody served. */
  lemma MovingServes(env: Env, s: Sys, r: Sys, npc: string, to: OwnershipState)
    requires MovesOne(s, r, npc, to) && (HoldsSlot(s.ledger.State(npc)) ==> HoldsSlot(to))
    requires to == Aware && npc in s.queue ==> s.ledger.State(npc) == Aware
    ensures Serves(env, s, r)
  {
    forall n
      ensures n in Active(s) ==> n in Active(r)
    {
      assert n in Active(r) <==> HoldsSlot(r.ledger.State(n));
      assert n in Active(s) <==> HoldsSlot(s.ledger.State(n));
    }
    Subsets(Active(s), Active(r));
  }

  lemma PromotingServes(env: Env, s: Sys)
    requires Sound(env, s)
    ensures Served(env, Promoted(env, s))
  {
    PromotionIsExact(env, s);
  }

  /** A release makes room and fills it at once. */
  lemma ReleasingServes(env: Env, s: Sys, npc: string, op: Op)
    requires Sound(env, s) && ShiftEnabled(env, s, npc, op) && !op.Talk? && !op.Resume?
    requires var change := ChangeOf(s.ledger.Lookup(npc), op); change.Go? && change.to == Release
    ensures Served(env, Carried(env, s, npc, op))
  {
    ShiftIsCalm(env, s, npc, op);
    PromotingServes(env, Shifted(env, s, npc, op));
  }

  /** Without a trigger a scan gives up a slot only by a release. */
  lemma PlainScanKeepsSlots(r: Record, u: ScanUpdate)
    requires !u.trigger && r.state != Release
    ensures var change := ChangeOf(r, Scan(u));
            change.Stay? || change.to == Release ||
            (r.state in {Rockstar, Candidate} && change.to in {Candidate, Aware, Rockstar})
  {
  }

  lemma NotQueued(s: Sys, npc: string)
    requires QueueInv(s) && s.ledger.State(npc) in {Rockstar, Candidate}
    ensures npc !in s.reasons && npc !in s.queue
  {
    assert npc in s.reasons ==> Held(s.ledger.records[npc]) in ENGAGED;
  }

  lemma PlainScanServes(env: Env, s: Sys, npc: string, u: ScanUpdate)
    requires Sound(env, s) && ShiftEnabled(env, s, npc, Scan(u)) && !u.trigger
    ensures Serves(env, s, Carried(env, s, npc, Scan(u)))
  {
    var r := Carried(env, s, npc, Scan(u));
    ScanWithdraws(env, s, npc, u);
    if !Served(env, r) {
      WithdrawingNeglectsExactly(env, s, r, {});
      assert Active(s) - {} == Active(s);
    }
  }

  lemma TalkKeepsSlots(r: Record)
    ensures var talk, end := ChangeOf(r, Talk), ChangeOf(r, EndTalk);
            && !HandsOff(talk) && !HandsOff(end)
            && (talk.Go? ==> talk.to == AIConversation) && (end.Go? ==> end.to == AIActive)
  {
  }

  lemma TalkServes(env: Env, s: Sys, npc: string)
    ensures Serves(env, s, Carried(env, s, npc, Talk)) && Serves(env, s, Shifted(env, s, npc, EndTalk))
    ensures Carried(env, s, npc, EndTalk) == Shifted(env, s, npc, EndTalk)
  {
    TalkKeepsSlots(s.ledger.Lookup(npc));
    MoveServes(env, s, npc, ChangeOf(s.ledger.Lookup(npc), Talk));
    MoveServes(env, s, npc, ChangeOf(s.ledger.Lookup(npc), EndTalk));
  }

  lemma MoveServes(env: Env, s: Sys, npc: string, change: Change)
    requires !HandsOff(change) && (change.Go? ==> HoldsSlot(change.to))
    ensures Serves(env, s, ShiftedBy(env, s, npc, change, None))
  {
    ChangeMovesOne(env, s, npc, change, None);
    MovingServes(env, s, ShiftedBy(env, s, npc, change, None), npc,
                 if change.Stay? then s.ledger.State(npc) else change.to);
  }

  // ---------------------------------------------------------------------
  // Handlers
  // ---------------------------------------------------------------------

  /** An activation happens only when nobody is waiting. */
  lemma ActivationServes(env: Env, s: Sys, npc: string, reason: Reason, trigger: Option<Trigger>)
    requires Sound(env, s) && reason != Idle && s.ledger.State(npc) == Aware && HasSlot(env, s)
    ensures Serves(env, s, Activated(env, s, npc, reason, trigger))
  {
    ActivationMovesOne(env, s, npc, reason, trigger);
    MovingServes(env, s, Activated(env, s, npc, reason, trigger), npc, AIActive);
  }

  lemma DeferringServes(env: Env, s: Sys, npc: string, reason: Reason)
    requires !HasSlot(env, s)
    ensures Served(env, Apply(env, s, Defer(npc, reason)))
  {
    ActiveOfLedger(s, Apply(env, s, Defer(npc, reason)));
  }

  lemma StirringServes(env: Env, s: Sys, npc: string, reason: Reason, trigger: Option<Trigger>)
    requires Sound(env, s) && reason != Idle
    ensures Serves(env, s, Stirred(env, s, npc, reason, trigger))
  {
    QuietActIsCalm(env, s, See(npc));
    IdleActIsStill(env, s, See(npc));
    var seen := Apply(env, s, See(npc));
    StillServes(env, s, seen);
    if seen.ledger.State(npc) == Aware {
      if HasSlot(env, seen) {
        ActivationServes(env, seen, npc, reason, trigger);
      } else {
        DeferringServes(env, seen, npc, reason);
      }
    } else if MayReason(seen.ledger.State(npc)) {
      TurnIsStill(env, seen, npc, reason, trigger);
      StillServes(env, seen, Turned(env, seen, npc, reason, trigger));
    }
  }

  lemma SilencingServes(env: Env, s: Sys, npc: string)
    ensures Serves(env, s, Silenced(env, s, npc))
  {
    TalkServes(env, s, npc);
    var s1 := Apply(env, s, Shift(npc, EndTalk));
    var s2 := Apply(env, s1, Note(npc, ConversationEnded, ByRuntime));
    IdleActIsStill(env, s1, Note(npc, ConversationEnded, ByRuntime));
    StillServes(env, s1, s2);
    StopConversingServes(env, s2, npc);
  }

  lemma StopConversingServes(env: Env, s: Sys, npc: string)
    ensures Serves(env, s, Apply(env, Apply(env, s, Meet(npc)), Converse(npc, false)))
  {
    var met := Apply(env, s, Meet(npc));
    IdleActIsStill(env, s, Meet(npc));
    StillServes(env, s, met);
    IdleActIsStill(env, met, Converse(npc, false));
    StillServes(env, met, Apply(env, met, Converse(npc, false)));
  }

  lemma {:induction false} AllSilencedServes(env: Env, s: Sys, ids: seq<string>)
    ensures Serves(env, s, AllSilenced(env, s, ids))
  {
    if ids != [] {
      AllSilencedServes(env, s, ids[..|ids| - 1]);
      SilencingServes(env, AllSilenced(env, s, ids[..|ids| - 1]), ids[|ids| - 1]);
    }
  }

  lemma MakingRoomServes(env: Env, s: Sys, npc: string)
    ensures Serves(env, s, Apply(env, RoomMade(env, s, npc), See(npc)))
  {
    var talking := Talking(s.ledger, s.ledger.order, npc);
    var stop := StopCount(|talking|, env.settings.maxConversations);
    if stop > 0 {
      AllSilencedServes(env, s, talking[..stop]);
    }
    var room := RoomMade(env, s, npc);
    IdleActIsStill(env, room, See(npc));
    StillServes(env, room, Apply(env, room, See(npc)));
  }

  lemma IdleActServes(env: Env, s: Sys, act: Act)
    requires Idles(act)
    ensures Serves(env, s, Apply(env, s, act))
  {
    IdleActIsStill(env, s, act);
    StillServes(env, s, Apply(env, s, act));
  }

  lemma TurnServes(env: Env, s: Sys, npc: string, reason: Reason, trigger: Option<Trigger>)
    requires Good(env, s) && reason != Idle
    ensures Serves(env, s, Turned(env, s, npc, reason, trigger))
  {
    TurnIsStill(env, s, npc, reason, trigger);
    StillServes(env, s, Turned(env, s, npc, reason, trigger));
  }

  lemma SpeechServes(env: Env, s: Sys, npc: string, position: Value)
    requires Sound(env, s)
    ensures Serves(env, s, Reacted(env, s, npc, PlayerSpoke, position))
  {
    AddressingIsBounded(env, s, npc);
    AddressingServes(env, s, npc);
    var joined := Addressed(env, s, npc);
    ConversingIsCalm(env, joined, npc);
    IdleActServes(env, joined, Converse(npc, true));
    TurnServes(env, Apply(env, joined, Converse(npc, true)), npc, AnswerPlayer, Some(Trigger(PlayerSpoke, position)));
  }

  lemma AddressingServes(env: Env, s: Sys, npc: string)
    ensures Serves(env, s, Addressed(env, s, npc))
  {
    MakingRoomServes(env, s, npc);
    TalkServes(env, Apply(env, RoomMade(env, s, npc), See(npc)), npc);
  }

  lemma NoticingServes(env: Env, s: Sys, npc: string, name: EventName, trigger: Option<Trigger>)
    requires Sound(env, s)
    ensures Serves(env, s, Apply(env, s, See(npc)))
    ensures Serves(env, s, Stirred(env, Apply(env, s, See(npc)), npc, Meaningful(name), trigger))
  {
    IdleActServes(env, s, See(npc));
    QuietActIsCalm(env, s, See(npc));
    StirringServes(env, Apply(env, s, See(npc)), npc, Meaningful(name), trigger);
  }

  lemma ConversationOverServes(env: Env, s: Sys, npc: string)
    ensures Serves(env, s, Apply(env, Apply(env, s, Shift(npc, EndTalk)), Converse(npc, false)))
  {
    TalkServes(env, s, npc);
    IdleActServes(env, Apply(env, s, Shift(npc, EndTalk)), Converse(npc, false));
  }

  lemma ReactionServes(env: Env, s: Sys, npc: string, name: EventName, position: Value)
    requires Sound(env, s)
    ensures Serves(env, s, Reacted(env, s, npc, name, position))
  {
    var trigger := Some(Trigger(name, position));
    if name == PlayerSpoke {
      SpeechServes(env, s, npc, position);
    } else if name in ALARMS {
      StirringServes(env, s, npc, Meaningful(name), trigger);
    } else if name == PlayerApproached || name == PlayerLookedAtNpc {
      if Overlaid(s, npc) {
        TurnServes(env, s, npc, QuestLine, trigger);
      } else {
        NoticingServes(env, s, npc, name, trigger);
      }
    } else if name == ActionFailed {
      TurnServes(env, s, npc, ActionFailure, trigger);
    } else if name == ConversationEnded || name == ConversationInterrupted {
      ConversationOverServes(env, s, npc);
    }
  }

  lemma EventServes(env: Env, s: Sys, npc: string, name: EventName, payload: Payload, position: Value)
    requires Sound(env, s) && !payload.Spoken?
    ensures Serves(env, s, Received(env, s, npc, name, payload, position))
  {
    IdleActServes(env, s, Hear(npc, name, payload));
    QuietActIsCalm(env, s, Hear(npc, name, payload));
    ReactionServes(env, Apply(env, s, Hear(npc, name, payload)), npc, name, position);
  }

  lemma ResultServes(env: Env, s: Sys, npc: string, request: Option<nat>, status: Status)
    requires Sound(env, s)
    ensures Serves(env, s, ResultHandled(env, s, npc, request, status))
  {
    var who := if npc == "" then PendingNpc(s, request) else npc;
    var s1 := s;
    if request.Some? && request.value in s.desk.pending {
      QuietActIsCalm(env, s, Resolve(request.value));
      IdleActServes(env, s, Resolve(request.value));
      s1 := Apply(env, s, Resolve(request.value));
    }
    if who != "" {
      NotedResultServes(env, s1, who, status);
    }
  }

  lemma NotedResultServes(env: Env, s: Sys, npc: string, status: Status)
    requires Sound(env, s)
    ensures var noted := Apply(env, s, Note(npc, NameOfStatus(status), ByBridge));
            Serves(env, s, if status == Broken
                           then Turned(env, noted, npc, ActionFailure, Some(Trigger(ActionFailed, Nil))) else noted)
  {
    var noted := Apply(env, s, Note(npc, NameOfStatus(status), ByBridge));
    QuietActIsCalm(env, s, Note(npc, NameOfStatus(status), ByBridge));
    IdleActServes(env, s, Note(npc, NameOfStatus(status), ByBridge));
    if status == Broken {
      TurnServes(env, noted, npc, ActionFailure, Some(Trigger(ActionFailed, Nil)));
    }
  }

  lemma IdleServes(env: Env, s: Sys)
    requires Good(env, s)
    ensures Serves(env, s, Idled(env, s))
  {
    IdleIsStill(env, s);
    StillServes(env, s, Idled(env, s));
  }

  lemma LeavingBehindServes(env: Env, s: Sys, npc: string, distance: Option<real>)
    requires Sound(env, s)
    ensures Serves(env, s, LeftBehind(env, s, npc, distance))
  {
    if distance.Some? && distance.value > env.settings.candidateDistance {
      PlainScanServes(env, s, npc, UpdateFor(env, FromWorldUpdate, distance.value, true, false));
    }
  }

  lemma TalkStartServes(env: Env, s: Sys, npc: string)
    ensures Serves(env, s, TalkStarted(env, s, npc))
  {
    if npc != "" {
      var met := Apply(env, s, Meet(npc));
      IdleActServes(env, s, Meet(npc));
      ListeningServes(env, met, npc);
      IdleActServes(env, Listening(env, met, npc), Converse(npc, true));
    }
  }

  lemma ListeningServes(env: Env, s: Sys, npc: string)
    ensures Serves(env, s, Listening(env, s, npc))
  {
    MakingRoomServes(env, s, npc);
    var ready := Apply(env, RoomMade(env, s, npc), See(npc));
    TalkServes(env, ready, npc);
    IdleActServes(env, ready, Note(npc, ConversationInterrupted, ByRuntime));
  }

  lemma TalkStopServes(env: Env, s: Sys, npc: string)
    ensures Serves(env, s, TalkStopped(env, s, npc))
  {
    if npc != "" {
      TalkServes(env, s, npc);
      var s1 := Carried(env, s, npc, EndTalk);
      StopConversingServes(env, s1, npc);
      var s2 := Apply(env, Apply(env, s1, Meet(npc)), Converse(npc, false));
      IdleActServes(env, s2, Note(npc, ConversationEnded, ByRuntime));
    }
  }

  // ---------------------------------------------------------------------
  // Withdrawals
  // ---------------------------------------------------------------------

  /** These NPCs give up their slots and no longer wait; for the others neither
      changes. */
  ghost predicate OnlyWithdraws(s: Sys, r: Sys, ids: set<string>) {
    && r.queue == s.queue
    && (forall n :: HoldsSlot(r.ledger.State(n)) <==> HoldsSlot(s.ledger.State(n)) && n !in ids)
    && (forall n <- s.queue :: r.ledger.State(n) == Aware <==> s.ledger.State(n) == Aware && n !in ids)
  }

  lemma WithdrawalsChain(s: Sys, t: Sys, r: Sys, a: set<string>, b: set<string>)
    requires OnlyWithdraws(s, t, a) && OnlyWithdraws(t, r, b)
    ensures OnlyWithdraws(s, r, a + b)
  {
  }

  lemma UnmovedWithdraws(s: Sys, r: Sys)
    requires Unmoved(s, r)
    ensures OnlyWithdraws(s, r, {})
  {
  }

  /** Somebody queued and aware is not among `ids`. */
  predicate OthersAwaited(s: Sys, ids: set<string>) {
    exists n <- s.queue :: s.ledger.State(n) == Aware && n !in ids
  }

  lemma WithdrawnSlots(s: Sys, r: Sys, ids: set<string>)
    requires OnlyWithdraws(s, r, ids)
    ensures Active(r) == Active(s) - ids
  {
    forall n
      ensures n in Active(r) <==> n in Active(s) - ids
    {
      assert n in Active(r) <==> HoldsSlot(r.ledger.State(n));
      assert n in Active(s) <==> HoldsSlot(s.ledger.State(n));
    }
  }

  /** Somebody is left waiting beside a free slot exactly when another queued NPC
      is aware and the slots the others hold do not reach the cap. */
  lemma WithdrawingNeglectsExactly(env: Env, s: Sys, r: Sys, ids: set<string>)
    requires OnlyWithdraws(s, r, ids)
    ensures !Served(env, r) <==> OthersAwaited(s, ids) && |Active(s) - ids| < env.settings.maxReasoning
  {
    WithdrawnSlots(s, r, ids);
    if OthersAwaited(s, ids) {
      var n :| n in s.queue && s.ledger.State(n) == Aware && n !in ids;
      assert n in r.queue && r.ledger.State(n) == Aware;
    }
  }

  // ---------------------------------------------------------------------
  // Scans, exactly
  // ---------------------------------------------------------------------

  /** A scan engages a flagged ped this near. */
  predicate EntersQuest(env: Env, ped: Ped) {
    && ped.id != "" && ped.quest
    && ped.distance <= env.settings.candidateDistance && ped.distance <= env.settings.awareDistance
  }

  lemma EnterChange(r: Record)
    ensures var change := ChangeOf(r, EnterQuest);
            && !HandsOff(change) && (change.Go? ==> change.to == QuestDialogue)
            && (HoldsSlot(r.state) || r.state == Aware ==> change.Go?)
  {
  }

  /** Up to the raised overlay a flagged ped's step moves nobody. */
  ghost function Flagged(env: Env, s: Sys, ped: Ped): Sys {
    Apply(env, Apply(env, Apply(env, s, Track(ped.id)), Meet(ped.id)), RaiseOverlay(ped.id))
  }

  lemma FlaggingIsUnmoved(env: Env, s: Sys, ped: Ped)
    ensures Unmoved(s, Flagged(env, s, ped)) && Overlaid(Flagged(env, s, ped), ped.id)
  {
    var tracked := Apply(env, s, Track(ped.id));
    IdleActIsStill(env, s, Track(ped.id));
    IdleActIsStill(env, tracked, Meet(ped.id));
    RaisingIsUnmoved(env, Apply(env, tracked, Meet(ped.id)), ped.id);
  }

  lemma RaisingIsUnmoved(env: Env, s: Sys, npc: string)
    requires npc in s.agents
    ensures Unmoved(s, Apply(env, s, RaiseOverlay(npc))) && Overlaid(Apply(env, s, RaiseOverlay(npc)), npc)
  {
    LedgerFrame(env, s, RaiseOverlay(npc));
  }

  lemma EnteringMovesOne(env: Env, s: Sys, npc: string)
    ensures Carried(env, s, npc, EnterQuest) == Shifted(env, s, npc, EnterQuest)
    ensures MovesOne(s, Carried(env, s, npc, EnterQuest), npc,
                     if ChangeOf(s.ledger.Lookup(npc), EnterQuest).Go? then QuestDialogue else s.ledger.State(npc))
    ensures Overlaid(Carried(env, s, npc, EnterQuest), npc) == Overlaid(s, npc)
  {
    var change := ChangeOf(s.ledger.Lookup(npc), EnterQuest);
    EnterChange(s.ledger.Lookup(npc));
    ChangeMovesOne(env, s, npc, change, None);
    ShiftedRest(env, s, npc, change, None);
  }

  /** The overlay being up, nothing but the quest's part of the step happens. */
  lemma FlaggedStep(env: Env, s: Sys, ped: Ped)
    requires ped.id != "" && ped.quest
    ensures PedStep(env, s, ped) == QuestOpened(env, Flagged(env, s, ped), ped).0
  {
    FlaggingIsUnmoved(env, s, ped);
    var flagged := Flagged(env, s, ped);
    IdleActIsStill(env, flagged, See(ped.id));
    EnteringMovesOne(env, flagged, ped.id);
  }

  lemma FlaggingIsGood(env: Env, s: Sys, ped: Ped)
    requires Good(env, s)
    ensures Good(env, Flagged(env, s, ped))
  {
    var tracked := Apply(env, s, Track(ped.id));
    QuietActIsCalm(env, s, Track(ped.id));
    QuietActIsCalm(env, tracked, Meet(ped.id));
    QuietActIsCalm(env, Apply(env, tracked, Meet(ped.id)), RaiseOverlay(ped.id));
  }

  /** The guard of the branches that record a release when a ped is handled. */
  predicate ReleasesPed(env: Env, s: Sys, ped: Ped) {
    var u := UpdateFor(env, FromPedScan, ped.distance, ped.eligible, false);
    var state := s.ledger.State(ped.id);
    && ped.id != ""
    && if ped.quest then
         ped.distance > env.settings.candidateDistance && state in {QuestDialogue, AIActive, AIConversation}
       else
         Overlaid(s, ped.id) ||
         (state !in {Rockstar, Release, Suspended} &&
          (!ped.eligible || (ped.distance > u.CandidateRadius() && state != Candidate)))
  }

  lemma EnteringWithdraws(env: Env, s: Sys, npc: string)
    ensures OnlyWithdraws(s, Carried(env, s, npc, EnterQuest), {npc})
  {
    EnterChange(s.ledger.Lookup(npc));
    EnteringMovesOne(env, s, npc);
  }

  lemma LeavingAreaReleases(env: Env, s: Sys, ped: Ped)
    requires Sound(env, s) && ped.distance > env.settings.candidateDistance
    ensures var r := QuestOpened(env, s, ped).0;
            if s.ledger.State(ped.id) in {QuestDialogue, AIActive, AIConversation} then Served(env, r)
            else Unmoved(s, r)
  {
    var seen := Apply(env, s, See(ped.id));
    IdleActIsStill(env, s, See(ped.id));
    if s.ledger.State(ped.id) in {QuestDialogue, AIActive, AIConversation} {
      QuietActIsCalm(env, s, See(ped.id));
      ReleasingServes(env, seen, ped.id, RequestRelease(QuestDialogueLeftArea));
    }
  }

  lemma FlaggedPedStep(env: Env, s: Sys, ped: Ped)
    requires Sound(env, s) && ped.id != "" && ped.quest
    ensures var r := PedStep(env, s, ped);
            if ReleasesPed(env, s, ped) then Served(env, r)
            else OnlyWithdraws(s, r, if EntersQuest(env, ped) then {ped.id} else {})
  {
    var flagged := Flagged(env, s, ped);
    FlaggedStep(env, s, ped);
    FlaggingIsGood(env, s, ped);
    FlaggingIsUnmoved(env, s, ped);
    OpeningWithdraws(env, flagged, ped);
    UnmovedWithdraws(s, flagged);
  }

  /** The quest's part of the step of a flagged ped. */
  lemma OpeningWithdraws(env: Env, s: Sys, ped: Ped)
    requires Sound(env, s) && ped.id != "" && ped.quest
    ensures var r := QuestOpened(env, s, ped).0;
            if ReleasesPed(env, s, ped) then Served(env, r)
            else OnlyWithdraws(s, r, if EntersQuest(env, ped) then {ped.id} else {})
  {
    if ped.distance > env.settings.candidateDistance {
      LeavingAreaReleases(env, s, ped);
    } else if ped.distance <= env.settings.awareDistance {
      EnteringWithdraws(env, s, ped.id);
    }
  }

  lemma ScanWithdraws(env: Env, s: Sys, npc: string, u: ScanUpdate)
    requires Sound(env, s) && ShiftEnabled(env, s, npc, Scan(u)) && !u.trigger
    ensures var change := ChangeOf(s.ledger.Lookup(npc), Scan(u));
            var r := Carried(env, s, npc, Scan(u));
            if change.Go? && change.to == Release then Served(env, r) else OnlyWithdraws(s, r, {})
  {
    StructureHolds(env, s);
    var change := ChangeOf(s.ledger.Lookup(npc), Scan(u));
    PlainScanKeepsSlots(s.ledger.Lookup(npc), u);
    if change.Go? && change.to == Release {
      ReleasingServes(env, s, npc, Scan(u));
    } else {
      if change.Go? {
        NotQueued(s, npc);
      }
      ScanMovesOne(env, s, npc, change, EvidenceOf(Scan(u)));
    }
  }

  /** A change that is no release, of an NPC that is not queued if it is one. */
  lemma ScanMovesOne(env: Env, s: Sys, npc: string, change: Change, evidence: Option<ScanUpdate>)
    requires change.Go? ==> change.to != Release && npc !in s.reasons
    ensures MovesOne(s, ShiftedBy(env, s, npc, change, evidence), npc,
                     if change.Stay? then s.ledger.State(npc) else change.to)
  {
    ShiftedRecords(env, s, npc, change, evidence);
    ShiftedRest(env, s, npc, change, evidence);
  }

  /** Up to the quest's part of the step a ped without the flag moves nobody. */
  ghost function Approached(env: Env, s: Sys, npc: string): Sys {
    Apply(env, Apply(env, s, Track(npc)), Meet(npc))
  }

  lemma ApproachingIsStill(env: Env, s: Sys, npc: string)
    requires Good(env, s)
    ensures Good(env, Approached(env, s, npc)) && Still(s, Approached(env, s, npc))
  {
    IdleActIsStill(env, s, Track(npc));
    IdleActIsStill(env, Apply(env, s, Track(npc)), Meet(npc));
    QuietActIsCalm(env, s, Track(npc));
    QuietActIsCalm(env, Apply(env, s, Track(npc)), Meet(npc));
  }

  lemma PlainPedStep(env: Env, s: Sys, ped: Ped)
    requires Sound(env, s) && ped.id != "" && !ped.quest
    ensures var r := PedStep(env, s, ped);
            if ReleasesPed(env, s, ped) then Served(env, r) else OnlyWithdraws(s, r, {})
  {
    var met := Approached(env, s, ped.id);
    ApproachingIsStill(env, s, ped.id);
    PlainStepByParts(env, s, ped);
    if Overlaid(s, ped.id) {
      StructureHolds(env, met);
      ReleasingServes(env, met, ped.id, RequestRelease(QuestEndReason(env, ped)));
    } else {
      PlainScanStep(env, met, ped);
      assert PedStep(env, s, ped) ==
             Carried(env, met, ped.id, Scan(UpdateFor(env, FromPedScan, ped.distance, ped.eligible, false)));
    }
  }

  lemma PlainScanStep(env: Env, s: Sys, ped: Ped)
    requires Sound(env, s) && ped.id != "" && !ped.quest && !Overlaid(s, ped.id)
    ensures var r := Carried(env, s, ped.id, Scan(UpdateFor(env, FromPedScan, ped.distance, ped.eligible, false)));
            if ReleasesPed(env, s, ped) then Served(env, r) else OnlyWithdraws(s, r, {})
  {
    StructureHolds(env, s);
    ScanWithdraws(env, s, ped.id, UpdateFor(env, FromPedScan, ped.distance, ped.eligible, false));
  }

  function QuestEndReason(env: Env, ped: Ped): Why {
    if ped.distance > env.settings.candidateDistance then QuestDialogueLeftArea else QuestDialogueEnded
  }

  lemma PlainStepByParts(env: Env, s: Sys, ped: Ped)
    requires Good(env, s) && ped.id != "" && !ped.quest
    ensures var met := Approached(env, s, ped.id);
            PedStep(env, s, ped) ==
            if Overlaid(s, ped.id) then Carried(env, met, ped.id, RequestRelease(QuestEndReason(env, ped)))
            else Carried(env, met, ped.id, Scan(UpdateFor(env, FromPedScan, ped.distance, ped.eligible, false)))
  {
    var met := Approached(env, s, ped.id);
    ApproachingIsStill(env, s, ped.id);
    StructureHolds(env, met);
  }

  /** One ped: a release serves everybody; otherwise at most the ped itself
      withdraws, into a quest dialogue. */
  lemma PedStepWithdraws(env: Env, s: Sys, ped: Ped)
    requires Sound(env, s)
    ensures var r := PedStep(env, s, ped);
            if ReleasesPed(env, s, ped) then Served(env, r)
            else OnlyWithdraws(s, r, if EntersQuest(env, ped) then {ped.id} else {})
  {
    if ped.id != "" {
      if ped.quest {
        FlaggedPedStep(env, s, ped);
      } else {
        PlainPedStep(env, s, ped);
      }
    }
  }

  /** How many peds are handled up to the last one whose step records a release. */
  ghost function LastRelease(env: Env, s: Sys, peds: seq<Ped>): (k: nat)
    ensures k <= |peds|
  {
    if peds == [] then 0
    else
      var front := peds[..|peds| - 1];
      if ReleasesPed(env, EachPed(env, s, front), peds[|peds| - 1]) then |peds| else LastRelease(env, s, front)
  }

  /** The NPCs that a scan engages in quest dialogues. */
  function Entering(env: Env, peds: seq<Ped>): set<string> {
    set ped | ped in peds && EntersQuest(env, ped) :: ped.id
  }

  lemma EnteringGrows(env: Env, peds: seq<Ped>, last: Ped)
    ensures Entering(env, peds + [last]) == Entering(env, peds) + if EntersQuest(env, last) then {last.id} else {}
  {
    forall id
      ensures id in Entering(env, peds + [last]) <==>
              id in Entering(env, peds) || (EntersQuest(env, last) && id == last.id)
    {
      if id in Entering(env, peds) {
        var ped :| ped in peds && EntersQuest(env, ped) && ped.id == id;
        assert ped in peds + [last];
      }
      assert last in peds + [last];
    }
  }

  /** After the first `k` peds, which end with a release if there are any, only
      those that enter a quest dialogue withdraw. */
  ghost predicate WithdrawsAfter(env: Env, s: Sys, peds: seq<Ped>, k: nat)
    requires k <= |peds|
  {
    var t := EachPed(env, s, peds[..k]);
    (k > 0 ==> Served(env, t)) && OnlyWithdraws(t, EachPed(env, s, peds), Entering(env, peds[k..]))
  }

  lemma {:induction false} PedsWithdraw(env: Env, s: Sys, peds: seq<Ped>)
    requires Sound(env, s)
    ensures WithdrawsAfter(env, s, peds, LastRelease(env, s, peds))
  {
    if peds == [] {
      NothingAfter(env, s, peds);
    } else {
      var front, last := peds[..|peds| - 1], peds[|peds| - 1];
      PedsAreCalm(env, s, front);
      if ReleasesPed(env, EachPed(env, s, front), last) {
        PedStepWithdraws(env, EachPed(env, s, front), last);
        NothingAfter(env, s, peds);
      } else {
        PedsWithdraw(env, s, front);
        OneMoreAfter(env, s, peds, LastRelease(env, s, front));
      }
    }
  }

  lemma NothingAfter(env: Env, s: Sys, peds: seq<Ped>)
    requires peds != [] ==> Served(env, EachPed(env, s, peds))
    ensures WithdrawsAfter(env, s, peds, |peds|)
  {
    assert peds[..|peds|] == peds && peds[|peds|..] == [];
    UnmovedWithdraws(EachPed(env, s, peds), EachPed(env, s, peds));
  }

  lemma OneMoreAfter(env: Env, s: Sys, peds: seq<Ped>, k: nat)
    requires peds != [] && k < |peds|
    requires var front, last := peds[..|peds| - 1], peds[|peds| - 1];
             var before := EachPed(env, s, front);
             Sound(env, before) && !ReleasesPed(env, before, last) && WithdrawsAfter(env, s, front, k)
    ensures WithdrawsAfter(env, s, peds, k)
  {
    var front, last := peds[..|peds| - 1], peds[|peds| - 1];
    var t, before, r := EachPed(env, s, peds[..k]), EachPed(env, s, front), EachPed(env, s, peds);
    CutsAgree(peds, k);
    LastPedStep(env, s, peds);
    NextPedWithdraws(env, t, before, r, front[k..], last);
  }

  lemma CutsAgree<T>(s: seq<T>, k: nat)
    requires s != [] && k < |s|
    ensures var front, last := s[..|s| - 1], s[|s| - 1];
            front[..k] == s[..k] && front[k..] + [last] == s[k..]
  {
  }

  lemma LastPedStep(env: Env, s: Sys, peds: seq<Ped>)
    requires peds != []
    ensures EachPed(env, s, peds) == PedStep(env, EachPed(env, s, peds[..|peds| - 1]), peds[|peds| - 1])
  {
  }

  lemma NextPedWithdraws(env: Env, t: Sys, s: Sys, r: Sys, peds: seq<Ped>, ped: Ped)
    requires Sound(env, s) && !ReleasesPed(env, s, ped) && OnlyWithdraws(t, s, Entering(env, peds))
    requires r == PedStep(env, s, ped)
    ensures OnlyWithdraws(t, r, Entering(env, peds + [ped]))
  {
    PedStepWithdraws(env, s, ped);
    EnteringGrows(env, peds, ped);
    WithdrawalsChain(t, s, r, Entering(env, peds), if EntersQuest(env, ped) then {ped.id} else {});
  }

  /** A scan of any peds leaves somebody waiting beside a free slot exactly when,
      counted from the last release in it, a queued aware NPC is none of those that
      enter a quest dialogue and the slots of the others do not reach the cap. */
  lemma ScanNeglectsExactly(env: Env, s: Sys, peds: seq<Ped>)
    requires Sound(env, s)
    ensures var k := LastRelease(env, s, peds);
            var t := EachPed(env, s, peds[..k]);
            var entering := Entering(env, peds[k..]);
            && (k > 0 ==> Served(env, t))
            && (!Served(env, Handle(env, s, PedScan(peds))) <==>
                  OthersAwaited(t, entering) && |Active(t) - entering| < env.settings.maxReasoning)
  {
    var k := LastRelease(env, s, peds);
    var r := EachPed(env, s, peds);
    PedsWithdraw(env, s, peds);
    WithdrawingNeglectsExactly(env, EachPed(env, s, peds[..k]), r, Entering(env, peds[k..]));
    PedsAreCalm(env, s, peds);
    IdleIsStill(env, r);
    StillServes(env, r, Idled(env, r));
    ScanIsHandled(env, s, peds);
    IdlingHidesNothing(env, r);
  }

  lemma ScanIsHandled(env: Env, s: Sys, peds: seq<Ped>)
    ensures Handle(env, s, PedScan(peds)) == Idled(env, EachPed(env, s, peds))
  {
  }

  lemma IdlingHidesNothing(env: Env, s: Sys)
    requires Good(env, s)
    ensures Served(env, Idled(env, s)) == Served(env, s)
  {
    IdleIsStill(env, s);
    UnmovedWithdraws(s, Idled(env, s));
    WithdrawingNeglectsExactly(env, s, Idled(env, s), {});
    assert Active(s) - {} == Active(s);
  }

  /** So without quest peds a scan leaves nobody waiting. */
  lemma PlainScansServe(env: Env, s: Sys, peds: seq<Ped>)
    requires Sound(env, s) && forall ped <- peds :: !ped.quest
    ensures Serves(env, s, Handle(env, s, PedScan(peds)))
  {
    var k := LastRelease(env, s, peds);
    var t := EachPed(env, s, peds[..k]);
    ScanNeglectsExactly(env, s, peds);
    assert Entering(env, peds[k..]) == {};
    assert Active(t) - {} == Active(t);
    assert k == 0 ==> t == s;
  }

  // ---------------------------------------------------------------------
  // Messages and runs
  // ---------------------------------------------------------------------

  /** The messages that can leave a deferred NPC waiting beside a free slot:
      story-safety changes, and scans of peds flagged for a quest. */
  predicate MayNeglect(msg: Message) {
    || msg.StorySafetyChange?
    || (msg.PedScan? && exists ped <- msg.peds :: ped.quest)
  }

  lemma EventMessageServes(env: Env, s: Sys, msg: Message)
    requires Sound(env, s) && msg.GameEvent?
    ensures Serves(env, s, Handle(env, s, msg))
  {
    var who := if msg.npc == "" then PendingNpc(s, msg.request) else msg.npc;
    if who != "" {
      EventServes(env, s, who, msg.name, PayloadOf(msg.goal), msg.position);
    }
  }

  /** Every other message keeps queued NPCs served. */
  lemma OtherMessagesServe(env: Env, s: Sys, msg: Message)
    requires Sound(env, s) && !MayNeglect(msg)
    ensures Serves(env, s, Handle(env, s, msg))
  {
    match msg {
      case WorldUpdate(npc, distance) =>
        if npc != "" {
          LeavingBehindServes(env, s, npc, distance);
          LeavingBehindIsCalm(env, s, npc, distance);
          IdleServes(env, LeftBehind(env, s, npc, distance));
        }
      case PedScan(peds) =>
        PlainScansServe(env, s, peds);
      case GameEvent(_, _, _, _, _) => EventMessageServes(env, s, msg);
      case ActionResult(npc, request, status) => ResultServes(env, s, npc, request, status);
      case TalkStart(npc) => TalkStartServes(env, s, npc);
      case TalkStop(npc) => TalkStopServes(env, s, npc);
      case ReleaseAll(reason) => ReleaseAllReleasesAll(env, s, reason);
      case SchedulerTick => TickServes(env, s);
      case Observe(npc) => IdleActServes(env, s, See(npc));
      case Inspect(npc) => IdleActServes(env, s, Meet(npc));
    }
  }

  /** A scheduler tick serves whoever was left waiting. */
  lemma TickServes(env: Env, s: Sys)
    requires Sound(env, s)
    ensures Served(env, Handle(env, s, SchedulerTick))
  {
    IdleIsCalm(env, s);
    PromotingServes(env, Idled(env, s));
  }

  /** Over every run without story-safety changes and quest peds, no deferred
      aware NPC ever waits while a slot is free. */
  lemma {:induction false} RunsServe(env: Env, msgs: seq<Message>)
    requires 0.0 <= env.settings.candidateDistance && forall m <- msgs :: !MayNeglect(m)
    ensures Served(env, Run(env, msgs))
  {
    if msgs != [] {
      var front, last := msgs[..|msgs| - 1], msgs[|msgs| - 1];
      assert last in msgs && forall m <- front :: m in msgs;
      RunsServe(env, front);
      RunIsGood(env, front);
      OtherMessagesServe(env, Run(env, front), last);
    }
  }

  /** And after any run at all, the next tick sees to it. */
  lemma TickedRunsServe(env: Env, msgs: seq<Message>)
    requires 0.0 <= env.settings.candidateDistance
    ensures Served(env, Run(env, msgs + [SchedulerTick]))
  {
    RunIsGood(env, msgs);
    assert (msgs + [SchedulerTick])[..|msgs|] == msgs;
    TickServes(env, Run(env, msgs));
  }

  // ---------------------------------------------------------------------
  // The exceptions, exactly: story safety
  // ---------------------------------------------------------------------

  lemma SuspendChange(r: Record, reason: Why)
    ensures var change := ChangeOf(r, Suspend(reason));
            && !HandsOff(change) && (change.Go? ==> change.to == Suspended)
            && (change.Stay? <==> r.state in {Rockstar, Suspended})
  {
  }

  function SuspendedFrom(state: OwnershipState): OwnershipState {
    if state == Rockstar then Rockstar else Suspended
  }

  lemma {:induction false} SuspendedState(env: Env, s: Sys, ids: seq<string>, reason: Why, n: string)
    ensures var r := EachSafety(env, s, ids, Suspend(reason));
            && r.queue == s.queue
            && r.ledger.State(n) == if n in ids then SuspendedFrom(s.ledger.State(n)) else s.ledger.State(n)
  {
    if ids != [] {
      var front, last := ids[..|ids| - 1], ids[|ids| - 1];
      SuspendedState(env, s, front, reason, n);
      var t := EachSafety(env, s, front, Suspend(reason));
      SuspendingOne(env, t, last, reason);
      assert n in ids <==> n in front || n == last;
    }
  }

  lemma SuspendingOne(env: Env, s: Sys, npc: string, reason: Why)
    ensures MovesOne(s, Carried(env, s, npc, Suspend(reason)), npc, SuspendedFrom(s.ledger.State(npc)))
  {
    SuspendChange(s.ledger.Lookup(npc), reason);
    ChangeMovesOne(env, s, npc, ChangeOf(s.ledger.Lookup(npc), Suspend(reason)), None);
  }

  lemma SuspendingWithdraws(env: Env, s: Sys, ids: seq<string>, reason: Why)
    ensures OnlyWithdraws(s, EachSafety(env, s, ids, Suspend(reason)), set n <- ids)
  {
    var r := EachSafety(env, s, ids, Suspend(reason));
    SuspendedState(env, s, ids, reason, "");
    forall n
      ensures r.ledger.State(n) == if n in ids then SuspendedFrom(s.ledger.State(n)) else s.ledger.State(n)
    {
      SuspendedState(env, s, ids, reason, n);
    }
  }

  /** Suspending, one NPC or all: somebody is left waiting beside a free slot
      exactly when an aware NPC outside the targets is queued and the slots the
      others hold do not reach the cap. */
  lemma SuspendingNeglectsExactly(env: Env, s: Sys, ids: seq<string>, reason: Why)
    ensures var targets := set n <- ids;
            !Served(env, EachSafety(env, s, ids, Suspend(reason))) <==>
            OthersAwaited(s, targets) && |Active(s) - targets| < env.settings.maxReasoning
  {
    SuspendingWithdraws(env, s, ids, reason);
    WithdrawingNeglectsExactly(env, s, EachSafety(env, s, ids, Suspend(reason)), set n <- ids);
  }

  /** For one NPC: exactly when it gives up the last slot somebody queued needs. */
  lemma SuspendingOneNeglectsExactly(env: Env, s: Sys, npc: string, reason: Why)
    requires Served(env, s)
    ensures !Served(env, EachSafety(env, s, [npc], Suspend(reason))) <==>
            npc in Active(s) && |Active(s)| == env.settings.maxReasoning && Awaited(s)
  {
    SuspendingNeglectsExactly(env, s, [npc], reason);
    LastSlot(env, s, npc);
    assert (set n <- [npc]) == {npc};
  }

  /** Withdrawing one NPC from a state where nobody waits in vain. */
  lemma LastSlot(env: Env, s: Sys, npc: string)
    requires Served(env, s)
    ensures OthersAwaited(s, {npc}) && |Active(s) - {npc}| < env.settings.maxReasoning <==>
            npc in Active(s) && |Active(s)| == env.settings.maxReasoning && Awaited(s)
  {
    assert npc in Active(s) ==> HoldsSlot(s.ledger.State(npc));
    if npc !in Active(s) {
      assert Active(s) - {npc} == Active(s);
    }
  }

  /** Clearing: somebody is left waiting exactly when a queued NPC is aware, or
      becomes so again, and the slots taken and retaken do not reach the cap. */
  lemma ClearingNeglectsExactly(env: Env, s: Sys, ids: seq<string>, reason: Why)
    ensures !Served(env, EachSafety(env, s, ids, Resume(reason))) <==>
            && (Awaited(s) || exists n <- s.queue :: n in Returning(s, ids, {Aware}))
            && |Active(s)| + |Returning(s, ids, {AIActive, AIConversation})| < env.settings.maxReasoning
  {
    var r := EachSafety(env, s, ids, Resume(reason));
    ClearedCount(env, s, ids, reason, {AIActive, AIConversation});
    forall n
      ensures r.queue == s.queue
      ensures r.ledger.State(n) == Aware <==> s.ledger.State(n) == Aware || n in Returning(s, ids, {Aware})
    {
      ClearedState(env, s, ids, reason, n);
    }
  }

  /** Both are what a story-safety message does. */
  lemma StorySafetyIsAMessage(env: Env, s: Sys, active: bool, npc: string, reason: Why)
    ensures Handle(env, s, StorySafetyChange(active, npc, reason)) ==
            EachSafety(env, s, SafetyTargets(s, npc), if active then Suspend(reason) else Resume(reason))
  {
  }
}
