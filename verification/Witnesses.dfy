/** Runs from a fresh runtime that show the exceptions to be real: two NPCs, one
    slot and one conversation. */
module Witnesses {
  import opened Common
  import opened Names
  import opened Ownership
  import opened Decisions
  import opened Journal
  import opened Scheduler
  import opened Turns
  import opened Handlers
  import opened HandlerProofs
  import opened Runs
  import opened Promotions
  import opened Exceptions
  import opened Promptness
  import opened Withholding
  import opened Spacing
  import opened Fleeing

  /** Sensible distances, one slot, one conversation. */
  predicate Tight(env: Env) {
    && 0.0 <= env.settings.candidateDistance && 0.0 <= env.settings.awareDistance
    && env.settings.maxReasoning == 1 && env.settings.maxConversations == 1
  }

  function Near(npc: string, quest: bool): Ped {
    Ped(npc, 0.0, true, quest)
  }

  function Sighting(npc: string): Message {
    PedScan([Near(npc, false)])
  }

  function Gunshot(npc: string): Message {
    GameEvent(npc, None, GunshotHeard, None, Nil)
  }

  /** The player meets both NPCs. */
  function Meeting(a: string, b: string): seq<Message> {
    [Sighting(a)] + [Sighting(a)] + [Sighting(b)] + [Sighting(b)]
  }

  lemma RunNext(env: Env, msgs: seq<Message>, msg: Message)
    ensures Run(env, msgs + [msg]) == Handle(env, Run(env, msgs), msg)
  {
    assert (msgs + [msg])[..|msgs|] == msgs;
  }

  // ---------------------------------------------------------------------
  // Scenes
  // ---------------------------------------------------------------------

  /** Two NPCs in these states, everybody else Rockstar's, nobody overlaid. */
  ghost predicate Scene(env: Env, s: Sys, a: string, b: string, x: OwnershipState, y: OwnershipState, queue: seq<string>) {
    && Sound(env, s) && s.queue == queue
    && s.ledger.State(a) == x && s.ledger.State(b) == y
    && (forall n :: n != a && n != b ==> s.ledger.State(n) == Rockstar)
    && (forall n :: !Overlaid(s, n))
  }

  lemma SceneActive(env: Env, s: Sys, a: string, b: string, x: OwnershipState, y: OwnershipState, queue: seq<string>)
    requires Scene(env, s, a, b, x, y, queue) && a != b && !HoldsSlot(x) && !HoldsSlot(y)
    ensures Active(s) == {}
  {
    forall n
      ensures n !in Active(s)
    {
      assert n in Active(s) <==> HoldsSlot(s.ledger.State(n));
    }
  }

  lemma SceneStart(env: Env, a: string, b: string)
    requires Tight(env)
    ensures Scene(env, Run(env, []), a, b, Rockstar, Rockstar, [])
  {
    RunIsGood(env, []);
  }

  // ---------------------------------------------------------------------
  // Sightings
  // ---------------------------------------------------------------------

  function Sighted(state: OwnershipState): OwnershipState {
    if state == Rockstar then Candidate else Aware
  }

  lemma SightingChange(env: Env, r: Record)
    requires Tight(env) && r.state in {Rockstar, Candidate}
    ensures var change := ChangeOf(r, Scan(UpdateFor(env, FromPedScan, 0.0, true, false)));
            change.Go? && change.to == Sighted(r.state)
  {
  }

  lemma ScanMoves(env: Env, s: Sys, npc: string)
    requires Tight(env) && s.ledger.State(npc) in {Rockstar, Candidate}
    ensures var r := Carried(env, s, npc, Scan(UpdateFor(env, FromPedScan, 0.0, true, false)));
            MovesOne(s, r, npc, Sighted(s.ledger.State(npc))) && r.agents == s.agents
  {
    var op := Scan(UpdateFor(env, FromPedScan, 0.0, true, false));
    var change := ChangeOf(s.ledger.Lookup(npc), op);
    SightingChange(env, s.ledger.Lookup(npc));
    ChangeMovesOne(env, s, npc, change, EvidenceOf(op));
    ShiftedRest(env, s, npc, change, EvidenceOf(op));
  }

  lemma PedMoves(env: Env, s: Sys, npc: string)
    requires Tight(env) && npc != "" && !Overlaid(s, npc) && s.ledger.State(npc) in {Rockstar, Candidate}
    ensures var r := PedStep(env, s, Near(npc, false));
            MovesOne(s, r, npc, Sighted(s.ledger.State(npc))) && forall n :: Overlaid(r, n) == Overlaid(s, n)
  {
    IdleActIsStill(env, s, Track(npc));
    IdleActIsStill(env, Apply(env, s, Track(npc)), Meet(npc));
    var met := Approached(env, s, npc);
    assert Still(s, met);
    ScanMoves(env, met, npc);
    assert PedStep(env, s, Near(npc, false)) ==
           Carried(env, met, npc, Scan(UpdateFor(env, FromPedScan, 0.0, true, false)));
  }

  lemma SightingMoves(env: Env, s: Sys, npc: string)
    requires Tight(env) && Sound(env, s) && npc != "" && !Overlaid(s, npc)
    requires s.ledger.State(npc) in {Rockstar, Candidate}
    ensures var r := Handle(env, s, Sighting(npc));
            && Sound(env, r) && MovesOne(s, r, npc, Sighted(s.ledger.State(npc)))
            && forall n :: Overlaid(r, n) == Overlaid(s, n)
  {
    var peds := [Near(npc, false)];
    assert peds[..0] == [];
    var stepped := PedStep(env, s, peds[0]);
    assert EachPed(env, s, peds) == stepped;
    PedMoves(env, s, npc);
    PedStepIsCalm(env, s, peds[0]);
    IdleIsStill(env, stepped);
    IdleIsCalm(env, stepped);
  }

  lemma SightingScene(env: Env, s: Sys, a: string, b: string, x: OwnershipState, y: OwnershipState)
    requires Tight(env) && Scene(env, s, a, b, x, y, []) && a != b && a != "" && b != ""
    ensures x in {Rockstar, Candidate} ==> Scene(env, Handle(env, s, Sighting(a)), a, b, Sighted(x), y, [])
    ensures y in {Rockstar, Candidate} ==> Scene(env, Handle(env, s, Sighting(b)), a, b, x, Sighted(y), [])
  {
    if x in {Rockstar, Candidate} {
      SightingMoves(env, s, a);
    }
    if y in {Rockstar, Candidate} {
      SightingMoves(env, s, b);
    }
  }

  lemma MeetingScene(env: Env, a: string, b: string)
    requires Tight(env) && a != b && a != "" && b != ""
    ensures Scene(env, Run(env, Meeting(a, b)), a, b, Aware, Aware, [])
  {
    SceneStart(env, a, b);
    SightingScene(env, Run(env, []), a, b, Rockstar, Rockstar);
    var one := [Sighting(a)];
    RunNext(env, [], Sighting(a));
    assert [] + one == one;
    SightingScene(env, Run(env, one), a, b, Candidate, Rockstar);
    RunNext(env, one, Sighting(a));
    SightingScene(env, Run(env, one + [Sighting(a)]), a, b, Aware, Rockstar);
    RunNext(env, one + [Sighting(a)], Sighting(b));
    SightingScene(env, Run(env, one + [Sighting(a)] + [Sighting(b)]), a, b, Aware, Candidate);
    RunNext(env, one + [Sighting(a)] + [Sighting(b)], Sighting(b));
  }

  // ---------------------------------------------------------------------
  // Talking leaves the others alone
  // ---------------------------------------------------------------------

  lemma SilencingSpares(env: Env, s: Sys, npc: string, n: string)
    requires s.ledger.State(n) != AIConversation
    ensures Silenced(env, s, npc).ledger.Lookup(n).state == s.ledger.State(n)
    ensures Silenced(env, s, npc).ledger.Lookup(n).previous == s.ledger.Lookup(n).previous
  {
    SilencingEnds(env, s, npc);
    ShiftedRecords(env, s, npc, ChangeOf(s.ledger.Lookup(npc), EndTalk), None);
  }

  lemma {:induction false} SilencingAllSpares(env: Env, s: Sys, ids: seq<string>, n: string)
    requires s.ledger.State(n) != AIConversation
    ensures AllSilenced(env, s, ids).ledger.Lookup(n).state == s.ledger.State(n)
    ensures AllSilenced(env, s, ids).ledger.Lookup(n).previous == s.ledger.Lookup(n).previous
  {
    if ids != [] {
      SilencingAllSpares(env, s, ids[..|ids| - 1], n);
      SilencingSpares(env, AllSilenced(env, s, ids[..|ids| - 1]), ids[|ids| - 1], n);
    }
  }

  lemma MakingRoomSpares(env: Env, s: Sys, npc: string, n: string)
    requires s.ledger.State(n) != AIConversation
    ensures RoomMade(env, s, npc).ledger.Lookup(n).state == s.ledger.State(n)
    ensures RoomMade(env, s, npc).ledger.Lookup(n).previous == s.ledger.Lookup(n).previous
  {
    var talking := Talking(s.ledger, s.ledger.order, npc);
    var stop := StopCount(|talking|, env.settings.maxConversations);
    if stop > 0 {
      SilencingAllSpares(env, s, talking[..stop], n);
    }
  }

  lemma TalkMoves(env: Env, s: Sys, npc: string, n: string)
    requires s.ledger.State(npc) == Aware
    ensures var r := Carried(env, s, npc, Talk);
            && r.ledger.State(npc) == AIConversation
            && (n != npc ==> r.ledger.Lookup(n).state == s.ledger.State(n) &&
                             r.ledger.Lookup(n).previous == s.ledger.Lookup(n).previous)
  {
    TalkingIsCarried(env, s, npc);
    ShiftedRecords(env, s, npc, ChangeOf(s.ledger.Lookup(npc), Talk), None);
  }

  /** A talk start brings an aware NPC into conversation and spares everybody
      who was not in one. */
  lemma TalkStartMoves(env: Env, s: Sys, npc: string, n: string)
    requires npc != "" && s.ledger.State(npc) == Aware && n != npc && s.ledger.State(n) != AIConversation
    ensures var r := Handle(env, s, TalkStart(npc));
            && r.ledger.State(npc) == AIConversation
            && r.ledger.State(n) == s.ledger.State(n) && r.ledger.Lookup(n).previous == s.ledger.Lookup(n).previous
  {
    var met := Apply(env, s, Meet(npc));
    LedgerFrame(env, s, Meet(npc));
    MakingRoomSpares(env, met, npc, n);
    MakingRoomSpares(env, met, npc, npc);
    TalkMoves(env, Apply(env, RoomMade(env, met, npc), See(npc)), npc, n);
    StartListens(env, s, npc);
  }

  // ---------------------------------------------------------------------
  // The agent cap
  // ---------------------------------------------------------------------

  lemma TalkedToScene(env: Env, s: Sys, a: string, b: string)
    requires Tight(env) && a != b && a != "" && Scene(env, s, a, b, Aware, Aware, [])
    ensures var r := Handle(env, s, TalkStart(a));
            Good(env, r) && |Active(r)| == 1 && r.ledger.State(a) == AIConversation && r.ledger.State(b) == Aware
  {
    SceneActive(env, s, a, b, Aware, Aware, []);
    HandlingIsGood(env, s, TalkStart(a));
    TalkStartMoves(env, s, a, b);
    AddresseeCounts(env, s, TalkStart(a));
  }

  lemma TalkedTo(env: Env, a: string, b: string)
    requires Tight(env) && a != b && a != "" && b != ""
    ensures var s := Run(env, Meeting(a, b) + [TalkStart(a)]);
            && Good(env, s) && |Active(s)| == 1
            && s.ledger.State(a) == AIConversation && s.ledger.State(b) == Aware
  {
    MeetingScene(env, a, b);
    RunNext(env, Meeting(a, b), TalkStart(a));
    TalkedToScene(env, Run(env, Meeting(a, b)), a, b);
  }

  function Greeting(npc: string): Message {
    GameEvent(npc, None, PlayerSpoke, None, Nil)
  }

  lemma SecondTakesASlot(env: Env, s: Sys, npc: string, msg: Message)
    requires Good(env, s) && npc != "" && s.ledger.State(npc) == Aware
    requires msg == TalkStart(npc) || msg == Greeting(npc)
    ensures |Active(Handle(env, s, msg))| == |Active(s)| + 1
  {
    TurnsTo(s, npc, msg);
    AddresseeCounts(env, s, msg);
  }

  lemma TurnsTo(s: Sys, npc: string, msg: Message)
    requires npc != "" && (msg == TalkStart(npc) || msg == Greeting(npc))
    ensures (msg.TalkStart? || (msg.GameEvent? && msg.name == PlayerSpoke)) && Addressee(s, msg) == npc
  {
  }

  /** The player meets two NPCs and turns to both, the second time by a talk
      start or by speaking: with one slot, two are taken. */
  lemma TurningToTwoTakesTwoSlots(env: Env, a: string, b: string, msg: Message)
    requires Tight(env) && a != b && a != "" && b != ""
    requires msg == TalkStart(b) || msg == Greeting(b)
    ensures |Active(Run(env, Meeting(a, b) + [TalkStart(a)] + [msg]))| == 2
  {
    TalkedTo(env, a, b);
    RunNext(env, Meeting(a, b) + [TalkStart(a)], msg);
    SecondTakesASlot(env, Run(env, Meeting(a, b) + [TalkStart(a)]), b, msg);
  }

  // ---------------------------------------------------------------------
  // The conversation cap
  // ---------------------------------------------------------------------

  function Suspension(npc: string): Message {
    StorySafetyChange(true, npc, StorySafety)
  }

  function Clearance(npc: string): Message {
    StorySafetyChange(false, npc, StorySafetyCleared)
  }

  lemma SuspensionMoves(env: Env, s: Sys, npc: string, n: string)
    requires npc != "" && s.ledger.State(npc) !in {Rockstar, Suspended} && n != npc
    ensures var r := Handle(env, s, Suspension(npc));
            && r.ledger.State(npc) == Suspended && r.ledger.Lookup(npc).previous == Some(s.ledger.State(npc))
            && r.ledger.State(n) == s.ledger.State(n)
  {
    SuspensionIsCarried(env, s, npc);
    SuspendingMoves(env, s, npc, n);
  }

  lemma SuspensionIsCarried(env: Env, s: Sys, npc: string)
    requires npc != ""
    ensures Handle(env, s, Suspension(npc)) == Carried(env, s, npc, Suspend(StorySafety))
  {
    StorySafetyIsAMessage(env, s, true, npc, StorySafety);
    SafetyForOne(env, s, npc, Suspend(StorySafety));
  }

  lemma SafetyForOne(env: Env, s: Sys, npc: string, op: Op)
    ensures EachSafety(env, s, [npc], op) == Carried(env, s, npc, op)
  {
    var ids := [npc];
    assert ids[..0] == [];
    assert EachSafety(env, s, ids[..0], op) == s;
  }

  lemma SuspendingMoves(env: Env, s: Sys, npc: string, n: string)
    requires s.ledger.State(npc) !in {Rockstar, Suspended} && n != npc
    ensures var r := Carried(env, s, npc, Suspend(StorySafety));
            && r.ledger.State(npc) == Suspended && r.ledger.Lookup(npc).previous == Some(s.ledger.State(npc))
            && r.ledger.State(n) == s.ledger.State(n)
  {
    SuspendChange(s.ledger.Lookup(npc), StorySafety);
    ShiftedRecords(env, s, npc, ChangeOf(s.ledger.Lookup(npc), Suspend(StorySafety)), None);
  }

  /** Up to the moment before the clear: one NPC suspended in conversation, the
      other in conversation. */
  function Interrupted(a: string, b: string): seq<Message> {
    Meeting(a, b) + [TalkStart(a)] + [Suspension(a)] + [TalkStart(b)]
  }

  lemma InterruptedStates(env: Env, a: string, b: string)
    requires Tight(env) && a != b && a != "" && b != ""
    ensures var s := Run(env, Interrupted(a, b));
            && s.ledger.State(a) == Suspended && s.ledger.Lookup(a).previous == Some(AIConversation)
            && s.ledger.State(b) == AIConversation
  {
    var msgs := Meeting(a, b) + [TalkStart(a)];
    TalkedTo(env, a, b);
    RunNext(env, msgs, Suspension(a));
    SuspensionMoves(env, Run(env, msgs), a, b);
    RunNext(env, msgs + [Suspension(a)], TalkStart(b));
    TalkStartMoves(env, Run(env, msgs + [Suspension(a)]), b, a);
  }

  lemma ReturnsToTalk(s: Sys, a: string)
    requires s.ledger.State(a) == Suspended && s.ledger.Lookup(a).previous == Some(AIConversation)
    ensures a in Returning(s, [a], {AIConversation})
  {
  }

  lemma TwoMembers(x: set<string>, y: set<string>, a: string, b: string)
    requires a in x && b in y
    ensures |x| + |y| >= 2
  {
    assert x != {} && y != {};
  }

  /** A conversation suspended, another begun, the first one cleared: with a cap
      of one conversation there are two. */
  lemma ClearingMakesTwoConversations(env: Env, a: string, b: string)
    requires Tight(env) && a != b && a != "" && b != ""
    ensures !TalkBounded(env, Run(env, Interrupted(a, b) + [Clearance(a)]))
  {
    var s := Run(env, Interrupted(a, b));
    InterruptedStates(env, a, b);
    RunNext(env, Interrupted(a, b), Clearance(a));
    ClearingIsAMessage(env, s, a, StorySafetyCleared);
    ClearingExceedsTheConversationCapExactly(env, s, a, StorySafetyCleared);
    ReturnsToTalk(s, a);
    assert b in Conversations(s);
    TwoMembers(Returning(s, [a], {AIConversation}), Conversations(s), a, b);
  }

  // ---------------------------------------------------------------------
  // Waiting beside a free slot
  // ---------------------------------------------------------------------

  lemma GunshotHeardScene(env: Env, s: Sys, npc: string)
    requires Sound(env, s) && npc != "" && s.ledger.State(npc) == Aware && npc !in s.reasons
    ensures var r := Handle(env, s, Gunshot(npc));
            && Sound(env, r)
            && (HasSlot(env, s) ==> MovesOne(s, r, npc, AIActive))
            && (!HasSlot(env, s) ==> r.queue == s.queue + [npc] && forall n :: r.ledger.State(n) == s.ledger.State(n))
  {
    HandlingIsGood(env, s, Gunshot(npc));
    var heard := Apply(env, s, Hear(npc, GunshotHeard, Plain));
    IdleActIsStill(env, s, Hear(npc, GunshotHeard, Plain));
    StillServes(env, s, heard);
    HearingIsCalm(env, s, npc, GunshotHeard, None);
    HearingQueue(env, s, npc);
    StirredScene(env, heard, npc, Some(Trigger(GunshotHeard, Nil)));
    GunshotStirs(env, s, npc);
  }

  lemma GunshotStirs(env: Env, s: Sys, npc: string)
    requires npc != ""
    ensures Handle(env, s, Gunshot(npc)) ==
            Stirred(env, Apply(env, s, Hear(npc, GunshotHeard, Plain)), npc, Meaningful(GunshotHeard),
                    Some(Trigger(GunshotHeard, Nil)))
  {
  }

  lemma HearingQueue(env: Env, s: Sys, npc: string)
    ensures Apply(env, s, Hear(npc, GunshotHeard, Plain)).reasons == s.reasons
  {
  }

  lemma StirredScene(env: Env, s: Sys, npc: string, trigger: Option<Trigger>)
    requires Sound(env, s) && s.ledger.State(npc) == Aware && npc !in s.reasons
    ensures var r := Stirred(env, s, npc, Meaningful(GunshotHeard), trigger);
            && (HasSlot(env, s) ==> MovesOne(s, r, npc, AIActive))
            && (!HasSlot(env, s) ==> r.queue == s.queue + [npc] && forall n :: r.ledger.State(n) == s.ledger.State(n))
  {
    var seen := Apply(env, s, See(npc));
    IdleActIsStill(env, s, See(npc));
    StillServes(env, s, seen);
    QuietActIsCalm(env, s, See(npc));
    if HasSlot(env, s) {
      ActivationMovesOne(env, seen, npc, Meaningful(GunshotHeard), trigger);
    }
  }

  /** Two gunshots: the first NPC takes the only slot, the second one waits. */
  function Queueing(a: string, b: string): seq<Message> {
    Meeting(a, b) + [Gunshot(a)] + [Gunshot(b)]
  }

  lemma FirstShotScene(env: Env, s: Sys, a: string, b: string)
    requires Tight(env) && a != b && a != "" && Scene(env, s, a, b, Aware, Aware, [])
    ensures var r := Handle(env, s, Gunshot(a));
            && Sound(env, r) && r.queue == [] && Active(r) == {a}
            && r.ledger.State(a) == AIActive && r.ledger.State(b) == Aware
  {
    SceneActive(env, s, a, b, Aware, Aware, []);
    StructureHolds(env, s);
    NobodyQueued(s, a);
    GunshotHeardScene(env, s, a);
    OnlyActive(Handle(env, s, Gunshot(a)), a, b);
  }

  lemma SecondShotScene(env: Env, s: Sys, a: string, b: string)
    requires Tight(env) && a != b && b != ""
    requires Sound(env, s) && s.queue == [] && Active(s) == {a}
    requires s.ledger.State(a) == AIActive && s.ledger.State(b) == Aware
    ensures var r := Handle(env, s, Gunshot(b));
            && Sound(env, r) && r.queue == [b] && Active(r) == {a}
            && r.ledger.State(a) == AIActive && r.ledger.State(b) == Aware
  {
    StructureHolds(env, s);
    NobodyQueued(s, b);
    GunshotHeardScene(env, s, b);
    ActiveByState(s, Handle(env, s, Gunshot(b)));
  }

  lemma QueueingScene(env: Env, a: string, b: string)
    requires Tight(env) && a != b && a != "" && b != ""
    ensures var s := Run(env, Queueing(a, b));
            && Sound(env, s) && s.queue == [b]
            && s.ledger.State(a) == AIActive && s.ledger.State(b) == Aware && Active(s) == {a}
  {
    MeetingScene(env, a, b);
    RunNext(env, Meeting(a, b), Gunshot(a));
    FirstShotScene(env, Run(env, Meeting(a, b)), a, b);
    RunNext(env, Meeting(a, b) + [Gunshot(a)], Gunshot(b));
    SecondShotScene(env, Run(env, Meeting(a, b) + [Gunshot(a)]), a, b);
  }

  lemma OnlyActive(s: Sys, a: string, b: string)
    requires s.ledger.State(a) == AIActive && s.ledger.State(b) == Aware
    requires forall n :: n != a && n != b ==> s.ledger.State(n) == Rockstar
    ensures Active(s) == {a}
  {
    forall n
      ensures n in Active(s) <==> n == a
    {
      assert n in Active(s) <==> HoldsSlot(s.ledger.State(n));
    }
  }

  lemma NobodyQueued(s: Sys, npc: string)
    requires QueueInv(s) && s.queue == []
    ensures npc !in s.reasons
  {
    assert npc in s.queue <==> npc in s.reasons.Keys;
  }

  /** What the queue looks like, for whoever takes the slot away. */
  ghost predicate LastSlotNeeded(env: Env, s: Sys, a: string) {
    && Sound(env, s) && Served(env, s) && Awaited(s)
    && a in Active(s) && HoldsSlot(s.ledger.State(a)) && |Active(s)| == env.settings.maxReasoning
  }

  lemma QueueingNeedsTheSlot(env: Env, a: string, b: string)
    requires Tight(env) && a != b && a != "" && b != ""
    ensures LastSlotNeeded(env, Run(env, Queueing(a, b)), a)
  {
    QueueingScene(env, a, b);
    assert b in Run(env, Queueing(a, b)).queue;
  }

  lemma SuspensionNeglects(env: Env, s: Sys, a: string)
    requires LastSlotNeeded(env, s, a) && a != ""
    ensures !Served(env, Handle(env, s, Suspension(a)))
  {
    StorySafetyIsAMessage(env, s, true, a, StorySafety);
    SuspendingOneNeglectsExactly(env, s, a, StorySafety);
  }

  lemma QuestNeglects(env: Env, s: Sys, a: string)
    requires Tight(env) && LastSlotNeeded(env, s, a) && a != ""
    ensures !Served(env, Handle(env, s, PedScan([Near(a, true)])))
  {
    var peds := [Near(a, true)];
    assert peds[..0] == [] && EachPed(env, s, []) == s;
    assert !ReleasesPed(env, s, peds[0]) && LastRelease(env, s, peds) == 0;
    assert peds[0] in peds && peds[0..] == peds && Entering(env, peds) == {a};
    ScanNeglectsExactly(env, s, peds);
    LastSlot(env, s, a);
  }

  /** Story safety suspends the active NPC, or a quest engages it: the waiting
      one is left beside the free slot, until the next tick. */
  lemma WaitersAreNeglected(env: Env, a: string, b: string)
    requires Tight(env) && a != b && a != "" && b != ""
    ensures !Served(env, Run(env, Queueing(a, b) + [Suspension(a)]))
    ensures !Served(env, Run(env, Queueing(a, b) + [PedScan([Near(a, true)])]))
    ensures Served(env, Run(env, Queueing(a, b) + [Suspension(a)] + [SchedulerTick]))
  {
    QueueingNeedsTheSlot(env, a, b);
    RunNext(env, Queueing(a, b), Suspension(a));
    SuspensionNeglects(env, Run(env, Queueing(a, b)), a);
    RunNext(env, Queueing(a, b), PedScan([Near(a, true)]));
    QuestNeglects(env, Run(env, Queueing(a, b)), a);
    TickedRunsServe(env, Queueing(a, b) + [Suspension(a)]);
  }

  // ---------------------------------------------------------------------
  // Speech by a say action
  // ---------------------------------------------------------------------

  /** A clock that stands, a cooldown, and a backend that speaks by a `say` action
      whenever it is asked. */
  ghost predicate Chatty(env: Env) {
    && Tight(env) && env.settings.globalCooldown > 0.0
    && (forall i: nat :: env.clock(i) == env.clock(0))
    && (forall k: nat :: env.decide(k).speech.None? && SaysIn(env.decide(k).actions))
  }

  function Complaint(npc: string): Message {
    GameEvent(npc, None, ActionFailed, None, Nil)
  }

  lemma ChattyAnswerSpeaks(env: Env, s: Sys, npc: string, d: Decision, reason: Reason)
    requires npc in s.agents && npc != "" && d.speech.None? && SaysIn(d.actions)
    ensures SpeaksUp(env, s, Answered(env, s, npc, d, reason), npc, reason)
  {
    var s1 := Apply(env, s, Consult(npc, reason));
    var s2 := Spoke(env, s1, npc, d, reason);
    ActWithholds(env, s, Consult(npc, reason), {});
    UnspokenExecutionSpeaksExactly(env, s1, npc, d, reason);
    SpeakingJoins(env, s, s1, s2, npc, reason);
    ConclusionWritesNothing(env, s2, npc);
  }

  lemma ChattyThoughtSpeaks(env: Env, s: Sys, npc: string, trigger: Trigger)
    requires Chatty(env) && npc in s.agents && npc != "" && trigger.eventName == ActionFailed
    ensures SpeaksUp(env, s, Thought(env, s, npc, ActionFailure, Some(trigger)), npc, ActionFailure)
  {
    var s1 := Opened(env, s, npc, ActionFailure);
    var d := Decided(env, s1, npc, Some(trigger));
    OpeningWithholds(env, s, npc, ActionFailure, {});
    assert d == env.decide(s1.turns);
    ChattyAnswerSpeaks(env, s1, npc, d, ActionFailure);
    SpeakingJoins(env, s, s1, Answered(env, s1, npc, d, ActionFailure), npc, ActionFailure);
  }

  lemma ChattyTurnSpeaks(env: Env, s: Sys, npc: string, trigger: Trigger)
    requires Chatty(env) && Good(env, s) && npc != "" && s.ledger.State(npc) == Aware
    requires trigger.eventName == ActionFailed
    ensures SpeaksUp(env, s, Turned(env, s, npc, ActionFailure, Some(trigger)), npc, ActionFailure)
  {
    var seen := Apply(env, Apply(env, s, Meet(npc)), See(npc));
    AskingWritesNothing(env, s, npc);
    TurnIsTakenExactly(env, s, npc, ActionFailure, Some(trigger));
    ChattyThoughtSpeaks(env, seen, npc, trigger);
  }

  lemma ComplaintIsATurn(env: Env, s: Sys, npc: string)
    requires npc != ""
    ensures Handle(env, s, Complaint(npc)) ==
            Turned(env, Apply(env, s, Hear(npc, ActionFailed, Plain)), npc, ActionFailure,
                   Some(Trigger(ActionFailed, Nil)))
  {
    var heard := Apply(env, s, Hear(npc, ActionFailed, Plain));
    ComplaintIsReceived(env, s, npc);
    FailureIsATurn(env, heard, npc, Nil);
  }

  lemma ComplaintIsReceived(env: Env, s: Sys, npc: string)
    requires npc != ""
    ensures Handle(env, s, Complaint(npc)) == Received(env, s, npc, ActionFailed, Plain, Nil)
  {
    EventIsReceived(env, s, Complaint(npc));
  }

  lemma FailureIsATurn(env: Env, s: Sys, npc: string, position: Value)
    ensures Reacted(env, s, npc, ActionFailed, position) ==
            Turned(env, s, npc, ActionFailure, Some(Trigger(ActionFailed, position)))
  {
    assert ActionFailed !in ALARMS;
    assert Attended(env, s, npc, ActionFailed, position) ==
           Turned(env, s, npc, ActionFailure, Some(Trigger(ActionFailed, position)));
  }

  lemma ComplaintSpeaks(env: Env, s: Sys, npc: string)
    requires Chatty(env) && Good(env, s) && npc != "" && s.ledger.State(npc) == Aware
    ensures var r := Handle(env, s, Complaint(npc));
            Good(env, r) && r.ledger.State(npc) == Aware && SpeaksUp(env, s, r, npc, ActionFailure)
  {
    var heard := Apply(env, s, Hear(npc, ActionFailed, Plain));
    var trigger := Trigger(ActionFailed, Nil);
    HandlingIsGood(env, s, Complaint(npc));
    ComplaintIsATurn(env, s, npc);
    HearingIsCalm(env, s, npc, ActionFailed, None);
    IdleActIsStill(env, s, Hear(npc, ActionFailed, Plain));
    TurnIsStill(env, heard, npc, ActionFailure, Some(trigger));
    ActWithholds(env, s, Hear(npc, ActionFailed, Plain), {});
    ChattyTurnSpeaks(env, heard, npc, trigger);
    SpeakingJoins(env, s, heard, Handle(env, s, Complaint(npc)), npc, ActionFailure);
  }

  /** Two lines at the same time are not spaced. */
  lemma TwoLinesAreUnspaced(env: Env, s: Sys, t: Sys, r: Sys, npc: string)
    requires Chatty(env)
    requires SpeaksUp(env, s, t, npc, ActionFailure) && SpeaksUp(env, t, r, npc, ActionFailure)
    ensures exists i: nat, j: nat :: i < j < |r.log| && !Apart(env, r.log[i], r.log[j])
  {
    var first :| first in t.log[|s.log|..] && LineOf(env, first, npc, ActionFailure);
    var second :| second in r.log[|t.log|..] && LineOf(env, second, npc, ActionFailure);
    var i: nat :| i < |t.log| && t.log[i] == first;
    var j: nat :| |t.log| <= j < |r.log| && r.log[j] == second;
    assert r.log[i] == first;
    assert !Apart(env, r.log[i], r.log[j]);
  }

  /** An NPC is met and two of its actions fail: both times the backend answers
      with a `say` action, and no cooldown keeps the two lines apart. */
  lemma SayActionsAreUnspaced(env: Env, a: string)
    requires Chatty(env) && a != ""
    ensures var log := Run(env, [Sighting(a)] + [Sighting(a)] + [Complaint(a)] + [Complaint(a)]).log;
            exists i: nat, j: nat :: i < j < |log| && !Apart(env, log[i], log[j])
  {
    var b := a + ".";
    var met := [Sighting(a)] + [Sighting(a)];
    SceneStart(env, a, b);
    RunNext(env, [], Sighting(a));
    assert [] + [Sighting(a)] == [Sighting(a)];
    SightingScene(env, Run(env, []), a, b, Rockstar, Rockstar);
    RunNext(env, [Sighting(a)], Sighting(a));
    SightingScene(env, Run(env, [Sighting(a)]), a, b, Candidate, Rockstar);
    RunNext(env, met, Complaint(a));
    ComplaintSpeaks(env, Run(env, met), a);
    RunNext(env, met + [Complaint(a)], Complaint(a));
    ComplaintSpeaks(env, Run(env, met + [Complaint(a)]), a);
    TwoLinesAreUnspaced(env, Run(env, met), Run(env, met + [Complaint(a)]),
                        Run(env, met + [Complaint(a)] + [Complaint(a)]), a);
  }
}
