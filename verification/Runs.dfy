/** What holds over every run of messages. */
module Runs {
  import opened Common
  import opened Names
  import opened Ownership
  import opened Decisions
  import opened Journal
  import opened Dispatching
  import opened Scheduler
  import opened Turns
  import opened Handlers
  import opened HandlerProofs

  // ---------------------------------------------------------------------
  // Messages
  // ---------------------------------------------------------------------

  /** The messages that may take a slot without asking the scheduler: the player
      turning to an NPC, and the end of a story-safety suspension. */
  predicate Overrides(msg: Message) {
    || msg.TalkStart?
    || (msg.GameEvent? && msg.name == PlayerSpoke)
    || (msg.StorySafetyChange? && !msg.active)
  }

  lemma HearingIsCalm(env: Env, s: Sys, npc: string, name: EventName, goal: Option<string>)
    requires Good(env, s)
    ensures Calm(env, s, Apply(env, s, Hear(npc, name, PayloadOf(goal))))
    ensures npc in Apply(env, s, Hear(npc, name, PayloadOf(goal))).agents
  {
    QuietActIsCalm(env, s, Hear(npc, name, PayloadOf(goal)));
  }

  lemma EventIsReceived(env: Env, s: Sys, msg: Message)
    requires msg.GameEvent? && Meant(s, msg.npc, msg.request) != ""
    ensures Handle(env, s, msg) ==
            Received(env, s, Meant(s, msg.npc, msg.request), msg.name, PayloadOf(msg.goal), msg.position)
  {
  }

  lemma UnmeantIsIgnored(env: Env, s: Sys, msg: Message)
    requires msg.GameEvent? && Meant(s, msg.npc, msg.request) == ""
    ensures Handle(env, s, msg) == s
  {
  }

  lemma SpeechReceivedIsBounded(env: Env, s: Sys, npc: string, goal: Option<string>, position: Value)
    requires Good(env, s)
    ensures var r := Received(env, s, npc, PlayerSpoke, PayloadOf(goal), position);
            Good(env, r) && TalkBounded(env, r)
  {
    HearingIsCalm(env, s, npc, PlayerSpoke, goal);
    SpeechIsBounded(env, Apply(env, s, Hear(npc, PlayerSpoke, PayloadOf(goal))), npc, position);
  }

  lemma EventIsCalm(env: Env, s: Sys, msg: Message)
    requires Good(env, s) && msg.GameEvent? && msg.name != PlayerSpoke
    ensures Calm(env, s, Handle(env, s, msg))
  {
    var who := if msg.npc == "" then PendingNpc(s, msg.request) else msg.npc;
    if who != "" {
      HearingIsCalm(env, s, who, msg.name, msg.goal);
      ReactionIsCalm(env, Apply(env, s, Hear(who, msg.name, PayloadOf(msg.goal))), who, msg.name, msg.position);
    }
  }

  /** The messages after which idle planning runs. */
  lemma PlanningMessageIsCalm(env: Env, s: Sys, msg: Message)
    requires Good(env, s) && (msg.WorldUpdate? || msg.PedScan? || msg.SchedulerTick?)
    ensures Calm(env, s, Handle(env, s, msg))
  {
    if msg.PedScan? {
      PedsAreCalm(env, s, msg.peds);
      IdleIsCalm(env, EachPed(env, s, msg.peds));
    } else if msg.SchedulerTick? {
      IdleIsCalm(env, s);
      PromotionIsCalm(env, Idled(env, s));
    } else if msg.npc != "" {
      LeavingBehindIsCalm(env, s, msg.npc, msg.distance);
      IdleIsCalm(env, LeftBehind(env, s, msg.npc, msg.distance));
    }
  }

  /** No message but an overriding one starts a conversation, or takes the number
      of active NPCs beyond both its previous value and the cap. */
  lemma OnlyOverridesExceedCaps(env: Env, s: Sys, msg: Message)
    requires Good(env, s) && !Overrides(msg)
    ensures Calm(env, s, Handle(env, s, msg))
  {
    match msg {
      case GameEvent(_, _, _, _, _) => EventIsCalm(env, s, msg);
      case ActionResult(npc, request, status) => ResultIsCalm(env, s, npc, request, status);
      case TalkStop(npc) => StoppingTalkIsCalm(env, s, npc);
      case StorySafetyChange(_, npc, reason) => SuspendingIsCalm(env, s, SafetyTargets(s, npc), reason);
      case ReleaseAll(reason) => ReleasingIsCalm(env, s, s.ledger.order, reason);
      case Observe(npc) => QuietActIsCalm(env, s, See(npc));
      case Inspect(npc) => QuietActIsCalm(env, s, Meet(npc));
      case _ => PlanningMessageIsCalm(env, s, msg);
    }
  }

  lemma TalkStartIsBounded(env: Env, s: Sys, npc: string)
    requires Good(env, s) && npc != ""
    ensures Good(env, TalkStarted(env, s, npc)) && TalkBounded(env, TalkStarted(env, s, npc))
  {
    QuietActIsCalm(env, s, Meet(npc));
    var met := Apply(env, s, Meet(npc));
    RoomIsReady(env, met, npc);
    var ready := Apply(env, RoomMade(env, met, npc), See(npc));
    if ready.ledger.State(npc) == AIConversation {
      QuietActIsCalm(env, ready, Note(npc, ConversationInterrupted, ByRuntime));
      JoinedIsBounded(env, ready, Apply(env, ready, Note(npc, ConversationInterrupted, ByRuntime)), npc);
    } else {
      TalkIsGood(env, ready, npc);
      JoinedIsBounded(env, ready, Carried(env, ready, npc, Talk), npc);
    }
  }

  lemma JoinedIsBounded(env: Env, ready: Sys, joined: Sys, npc: string)
    requires Good(env, joined) && |Conversations(ready) - {npc}| < ConversationCap(env)
    requires Conversations(joined) <= Conversations(ready) + {npc}
    ensures var r := Apply(env, joined, Converse(npc, true));
            Good(env, r) && TalkBounded(env, r)
  {
    ConversingIsCalm(env, joined, npc);
    JoiningIsBounded(env, Conversations(ready),
                     Conversations(Apply(env, joined, Converse(npc, true))), npc);
  }

  lemma ConversingIsCalm(env: Env, s: Sys, npc: string)
    requires Good(env, s)
    ensures Calm(env, s, Apply(env, s, Converse(npc, true)))
  {
    if npc in s.agents {
      QuietActIsCalm(env, s, Converse(npc, true));
    }
  }

  lemma SpeechIsBounded(env: Env, s: Sys, npc: string, position: Value)
    requires Good(env, s)
    ensures var r := Reacted(env, s, npc, PlayerSpoke, position);
            Good(env, r) && TalkBounded(env, r)
  {
    AddressingIsBounded(env, s, npc);
    var joined := Addressed(env, s, npc);
    ConversingIsCalm(env, joined, npc);
    var conversing := Apply(env, joined, Converse(npc, true));
    TurnIsCalm(env, conversing, npc, AnswerPlayer, Some(Trigger(PlayerSpoke, position)));
    Subsets(Conversations(Reacted(env, s, npc, PlayerSpoke, position)), Conversations(joined));
  }

  lemma {:induction false} ResumingIsGood(env: Env, s: Sys, ids: seq<string>, reason: Why)
    requires Good(env, s)
    ensures Good(env, EachSafety(env, s, ids, Resume(reason)))
  {
    if ids != [] {
      var front, last := ids[..|ids| - 1], ids[|ids| - 1];
      ResumingIsGood(env, s, front, reason);
      ResumingOneIsGood(env, EachSafety(env, s, front, Resume(reason)), last, reason);
    }
  }

  lemma ResumingOneIsGood(env: Env, s: Sys, npc: string, reason: Why)
    requires Good(env, s)
    ensures Good(env, Carried(env, s, npc, Resume(reason)))
  {
    PlainActSettles(env, s, Shift(npc, Resume(reason)));
    assert !HandsOff(ChangeOf(s.ledger.Lookup(npc), Resume(reason)));
  }

  /** The conversation cap: whatever held before, turning to an NPC leaves at
      most max(1, cap) conversations. */
  lemma TurningToAnNpcRestoresTheCap(env: Env, s: Sys, msg: Message)
    requires Good(env, s)
    requires msg.TalkStart? || (msg.GameEvent? && msg.name == PlayerSpoke)
    requires msg.TalkStart? ==> msg.npc != ""
    requires msg.GameEvent? ==> msg.npc != "" || PendingNpc(s, msg.request) != ""
    ensures Good(env, Handle(env, s, msg)) && TalkBounded(env, Handle(env, s, msg))
  {
    if msg.TalkStart? {
      TalkStartIsBounded(env, s, msg.npc);
    } else {
      SpeechReceivedIsBounded(env, s, Meant(s, msg.npc, msg.request), msg.goal, msg.position);
      EventIsReceived(env, s, msg);
    }
  }

  lemma HandlingIsGood(env: Env, s: Sys, msg: Message)
    requires Good(env, s)
    ensures Good(env, Handle(env, s, msg))
    ensures TalkBounded(env, s) && !(msg.StorySafetyChange? && !msg.active) ==> TalkBounded(env, Handle(env, s, msg))
  {
    if !Overrides(msg) {
      OnlyOverridesExceedCaps(env, s, msg);
      Subsets(Conversations(Handle(env, s, msg)), Conversations(s));
    } else if msg.StorySafetyChange? {
      ResumingIsGood(env, s, SafetyTargets(s, msg.npc), msg.reason);
    } else if msg.npc != "" || (msg.GameEvent? && PendingNpc(s, msg.request) != "") {
      TurningToAnNpcRestoresTheCap(env, s, msg);
    }
  }

  /** Every run of messages stays within the guarded acts, so whatever the acts
      keep holds after every run. */
  lemma {:induction false} RunIsGood(env: Env, msgs: seq<Message>)
    ensures Good(env, Run(env, msgs))
    ensures (forall m <- msgs :: !(m.StorySafetyChange? && !m.active)) ==> TalkBounded(env, Run(env, msgs))
  {
    if msgs == [] {
      StartIsLive(env);
      assert Conversations(START) == {};
    } else {
      var front, last := msgs[..|msgs| - 1], msgs[|msgs| - 1];
      assert last in msgs && forall m <- front :: m in msgs;
      RunIsGood(env, front);
      HandlingIsGood(env, Run(env, front), last);
    }
  }
}
