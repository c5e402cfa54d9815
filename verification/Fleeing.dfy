/** A threatened NPC of low courage flees: the requests that leave the runtime in
    its turn, whatever the backend decided, and when there is such a turn. */
module Fleeing {
  import opened Common
  import opened Names
  import opened Ownership
  import opened Decisions
  import opened Journal
  import opened Scheduler
  import opened Turns
  import opened Handlers
  import opened HandlerProofs
  import opened Runs
  import opened Promotions
  import opened Promptness
  import opened Withholding
  import opened Answers

  /** From `s` to `r` the NPC is sent fleeing. */
  ghost predicate SentFleeing(s: Sys, r: Sys, npc: string) {
    && s.log <= r.log
    && exists item <- r.log[|s.log|..] :: item.Sent? && item.npc == npc && item.tool == FleeFrom
  }

  /** What is sent stays sent, before and after. */
  lemma FleeingStays(s: Sys, t: Sys, u: Sys, r: Sys, npc: string)
    requires s.log <= t.log && SentFleeing(t, u, npc) && u.log <= r.log
    ensures SentFleeing(s, r, npc)
  {
    assert r.log[|s.log|..] == t.log[|s.log|..] + u.log[|t.log|..] + r.log[|u.log|..];
  }

  /** Steps that send nobody fleeing do not matter. */
  lemma FleeingStarts(s: Sys, t: Sys, r: Sys, npc: string)
    requires Withholds(s, t, {FleeFrom}) && t.log <= r.log
    ensures SentFleeing(s, r, npc) <==> SentFleeing(t, r, npc)
  {
    assert r.log[|s.log|..] == t.log[|s.log|..] + r.log[|t.log|..];
  }

  lemma CallSendsFleeing(env: Env, s: Sys, npc: string, a: Action, reason: Reason)
    requires a.tool == FleeFrom && Accepted(a)
    ensures SentFleeing(s, Called(env, s, npc, a, reason), npc)
  {
    ActLines(env, s, Dispatch(npc, FleeFrom, reason));
    var lines := LinesOf(env, s, Dispatch(npc, FleeFrom, reason));
    assert (s.log + lines)[|s.log|..] == lines;
    assert lines[|lines| - 1] == Sent(s.nextId, npc, FleeFrom);
  }

  // ---------------------------------------------------------------------
  // The turn
  // ---------------------------------------------------------------------

  lemma {:induction false} ActingSendsFleeing(
    env: Env, s: Sys, npc: string, actions: seq<Action>, speaks: bool, reason: Reason)
    requires forall a <- actions :: a.tool !in PURSUITS && Accepted(a)
    requires Has(actions, FleeFrom)
    ensures SentFleeing(s, Acted(env, s, npc, actions, speaks, reason), npc)
  {
    var front, a := actions[..|actions| - 1], actions[|actions| - 1];
    assert a in actions && forall b <- front :: b in actions;
    ActingWithholds(env, s, npc, front, speaks, reason, PURSUITS);
    var before := Acted(env, s, npc, front, speaks, reason);
    CallWithholds(env, before, npc, a, reason, PURSUITS);
    if a.tool == FleeFrom {
      CallSendsFleeing(env, before, npc, a, reason);
      FleeingStays(s, before, Called(env, before, npc, a, reason), Called(env, before, npc, a, reason), npc);
    } else {
      FleesAlready(actions);
      ActingSendsFleeing(env, s, npc, front, speaks, reason);
      FleeingStays(s, s, before, Acted(env, s, npc, actions, speaks, reason), npc);
    }
  }

  lemma FleesAlready(actions: seq<Action>)
    requires Has(actions, FleeFrom) && actions[|actions| - 1].tool != FleeFrom
    ensures Has(actions[..|actions| - 1], FleeFrom)
  {
    var a :| a in actions && a.tool == FleeFrom;
    assert a in actions[..|actions| - 1];
  }

  /** Stabilising keeps a flight and adds no pursuit, and every survivor reaches
      the bridge. */
  lemma StabilizedFleesOnly(d: Decision, look: Lookups)
    requires FleesOnly(d.actions)
    ensures var kept := Stabilize(d, d.actions, look).kept;
            Has(kept, FleeFrom) && forall a <- kept :: a.tool !in PURSUITS && Accepted(a)
  {
    FleeSurvives(d, d.actions, look);
    forall a | a in Stabilize(d, d.actions, look).kept
      ensures a.tool !in PURSUITS && Accepted(a)
    {
      KeptComesFrom(d, d.actions, look, a);
      SurvivorsAreReady(d, d.actions, look, a);
      ReadyIsDispatched(a);
    }
  }

  lemma ExecutionFlees(env: Env, s: Sys, npc: string, d: Decision, reason: Reason)
    requires npc in s.agents && !s.agents[npc].dialogueOnly && FleesOnly(d.actions)
    ensures var r := Executed(env, s, npc, d, reason); Withholds(s, r, PURSUITS) && SentFleeing(s, r, npc)
  {
    var kept := Filtered(env, s, npc, d).kept;
    StabilizedFleesOnly(d, Lookup(env, s));
    ExecutionWithholds(env, s, npc, d, reason, PURSUITS);
    var s1 := Prepared(env, s, npc, d);
    PreparationWithholds(env, s, npc, d, PURSUITS);
    var s2 := Uttered(env, s1, npc, d, reason);
    UtteranceWithholds(env, s1, npc, d, reason, PURSUITS);
    var s3 := Acted(env, s2, npc, kept, d.speech.Some?, reason);
    ActingSendsFleeing(env, s2, npc, kept, d.speech.Some?, reason);
    WithholdingChains(s, s1, s2, PURSUITS);
    StampWritesNothing(env, s3);
    FleeingStays(s, s2, s3, Executed(env, s, npc, d, reason), npc);
  }

  lemma SpeakingFlees(env: Env, s: Sys, npc: string, d: Decision, reason: Reason)
    requires npc in s.agents && !s.agents[npc].dialogueOnly && FleesOnly(d.actions)
    ensures var r := Spoke(env, s, npc, d, reason); Withholds(s, r, PURSUITS) && SentFleeing(s, r, npc)
  {
    if !PolicyApplies(d, reason) {
      ExecutionFlees(env, s, npc, d, reason);
    } else {
      var read := Apply(env, s, ReadClock);
      assert read.log == s.log && read.agents == s.agents;
      ExecutionFlees(env, read, npc, d, reason);
      ExecutionFlees(env, read, npc, d.(speech := None), reason);
    }
  }

  lemma AnswerFlees(env: Env, s: Sys, npc: string, d: Decision, reason: Reason)
    requires npc in s.agents && !s.agents[npc].dialogueOnly && FleesOnly(d.actions)
    ensures var r := Answered(env, s, npc, d, reason); Withholds(s, r, PURSUITS) && SentFleeing(s, r, npc)
  {
    var s1 := Apply(env, s, Consult(npc, reason));
    ActWithholds(env, s, Consult(npc, reason), PURSUITS);
    SpeakingFlees(env, s1, npc, d, reason);
    var s2 := Spoke(env, s1, npc, d, reason);
    WithholdingChains(s, s1, s2, PURSUITS);
    ConclusionWritesNothing(env, s2, npc);
    FleeingStays(s, s1, s2, s2, npc);
  }

  /** The whole turn of a threatened NPC whose courage is below 0.48 and whose
      body Rockstar does not own: whatever the backend decides, it is sent
      fleeing and is sent neither after the player nor wandering. */
  lemma ThreatenedTurnFlees(env: Env, s: Sys, npc: string, reason: Reason, trigger: Trigger)
    requires npc in s.agents && !s.agents[npc].dialogueOnly
    requires trigger.eventName in THREATS && env.courage(npc) < 0.48
    ensures var r := Thought(env, s, npc, reason, Some(trigger)); Withholds(s, r, PURSUITS) && SentFleeing(s, r, npc)
  {
    OpeningWithholds(env, s, npc, reason, PURSUITS);
    var s1 := Opened(env, s, npc, reason);
    var d := Decided(env, s1, npc, Some(trigger));
    GuardMakesFlee(env.decide(s1.turns), trigger, env.courage(npc));
    AnswerFlees(env, s1, npc, d, reason);
    var r := Answered(env, s1, npc, d, reason);
    WithholdingChains(s, s1, r, PURSUITS);
    FleeingStays(s, s1, r, r, npc);
  }

  // ---------------------------------------------------------------------
  // The message
  // ---------------------------------------------------------------------

  lemma WithholdingSendsNobody(s: Sys, r: Sys, npc: string)
    requires Withholds(s, r, {FleeFrom})
    ensures !SentFleeing(s, r, npc)
  {
  }

  lemma NobodyReasons(s: Sys)
    requires forall n <- s.agents :: !s.agents[n].reasoning
    ensures Reasoning(s) == {}
  {
  }

  /** Between messages nobody is reasoning, so a turn is taken as soon as the
      owner state allows it and the scheduler has a cap at all. */
  lemma TurnIsTakenExactly(env: Env, s: Sys, npc: string, reason: Reason, trigger: Option<Trigger>)
    requires Good(env, s)
    ensures var seen := Apply(env, Apply(env, s, Meet(npc)), See(npc));
            Turned(env, s, npc, reason, trigger) ==
            if MayReason(s.ledger.State(npc)) && 0 < env.settings.maxReasoning
            then Thought(env, seen, npc, reason, trigger) else seen
  {
    var seen := Apply(env, Apply(env, s, Meet(npc)), See(npc));
    AskingWritesNothing(env, s, npc);
    MeetingSettles(env, s, npc);
    NobodyReasons(seen);
  }

  lemma TurnFleesExactly(env: Env, s: Sys, npc: string, reason: Reason, trigger: Trigger)
    requires Good(env, s) && trigger.eventName in THREATS && env.courage(npc) < 0.48
    ensures SentFleeing(s, Turned(env, s, npc, reason, Some(trigger)), npc) <==>
            MayReason(s.ledger.State(npc)) && !Overlaid(s, npc) && 0 < env.settings.maxReasoning
  {
    var seen := Apply(env, Apply(env, s, Meet(npc)), See(npc));
    AskingWritesNothing(env, s, npc);
    SilenceWithholds(s, seen, {FleeFrom});
    TurnIsTakenExactly(env, s, npc, reason, Some(trigger));
    if !MayReason(s.ledger.State(npc)) || 0 >= env.settings.maxReasoning {
      WithholdingSendsNobody(s, seen, npc);
    } else if Overlaid(s, npc) {
      TurnWithholds(env, s, npc, reason, Some(trigger), {FleeFrom});
      WithholdingSendsNobody(s, Turned(env, s, npc, reason, Some(trigger)), npc);
    } else {
      ThreatenedTurnFlees(env, seen, npc, reason, trigger);
      FleeingStarts(s, seen, Thought(env, seen, npc, reason, Some(trigger)), npc);
    }
  }

  lemma RousedFleesExactly(env: Env, s: Sys, npc: string, reason: Reason, trigger: Trigger)
    requires Good(env, s) && trigger.eventName in THREATS && env.courage(npc) < 0.48
    ensures SentFleeing(s, Roused(env, s, npc, reason, Some(trigger)), npc) <==>
            MayReason(s.ledger.State(npc)) && !Overlaid(s, npc) && 0 < env.settings.maxReasoning
    ensures s.log <= Roused(env, s, npc, reason, Some(trigger)).log
  {
    TurnFleesExactly(env, s, npc, reason, trigger);
    TurnWithholds(env, s, npc, reason, Some(trigger), {});
    if !MayReason(s.ledger.State(npc)) {
      SilenceWithholds(s, s, {FleeFrom});
      WithholdingSendsNobody(s, s, npc);
    }
  }

  /** An aware NPC that gets a slot. */
  lemma ActivatedFleesExactly(env: Env, s: Sys, npc: string, reason: Reason, trigger: Trigger)
    requires Sound(env, s) && trigger.eventName in THREATS && env.courage(npc) < 0.48
    requires s.ledger.State(npc) == Aware && HasSlot(env, s)
    ensures SentFleeing(s, Activated(env, s, npc, reason, Some(trigger)), npc) <==> !Overlaid(s, npc)
  {
    var update := Scan(TriggerUpdate(env));
    var change := ChangeOf(s.ledger.Lookup(npc), update);
    var s1 := Shifted(env, s, npc, update);
    TriggerActivates(env, s.ledger.Lookup(npc));
    ShiftIsCalm(env, s, npc, update);
    ShiftActivates(env, s, npc, change, EvidenceOf(update));
    ShiftedRest(env, s, npc, change, EvidenceOf(update));
    ShiftWithholds(env, s, npc, change, EvidenceOf(update), {FleeFrom});
    RousedFleesExactly(env, s1, npc, reason, trigger);
    FleeingStarts(s, s1, Roused(env, s1, npc, reason, Some(trigger)), npc);
    assert |Active(s)| >= 0;
  }

  /** Is the NPC given a turn on this message in which its body is its own? */
  ghost predicate FleesNow(env: Env, s: Sys, npc: string) {
    && !Overlaid(s, npc)
    && if s.ledger.State(npc) == Aware then HasSlot(env, s)
       else MayReason(s.ledger.State(npc)) && 0 < env.settings.maxReasoning
  }

  lemma StirredFleesExactly(env: Env, s: Sys, npc: string, reason: Reason, trigger: Trigger)
    requires Sound(env, s) && trigger.eventName in THREATS && env.courage(npc) < 0.48
    ensures SentFleeing(s, Stirred(env, s, npc, reason, Some(trigger)), npc) <==> FleesNow(env, s, npc)
  {
    var seen := Apply(env, s, See(npc));
    IdleActIsStill(env, s, See(npc));
    QuietActIsCalm(env, s, See(npc));
    ActiveByState(s, seen);
    SilenceWithholds(s, seen, {FleeFrom});
    if s.ledger.State(npc) != Aware {
      RousedFleesExactly(env, seen, npc, reason, trigger);
    } else if HasSlot(env, s) {
      ActivatedFleesExactly(env, seen, npc, reason, trigger);
    } else {
      ActWithholds(env, seen, Defer(npc, reason), {FleeFrom});
      WithholdingSendsNobody(seen, Apply(env, seen, Defer(npc, reason)), npc);
    }
    assert s.log == seen.log;
  }

  lemma ThreatStirs(env: Env, s: Sys, msg: Message)
    requires msg.GameEvent? && msg.name in THREATS && Meant(s, msg.npc, msg.request) != ""
    ensures var npc := Meant(s, msg.npc, msg.request);
            var heard := Apply(env, s, Hear(npc, msg.name, PayloadOf(msg.goal)));
            Handle(env, s, msg) ==
            Stirred(env, heard, npc, Meaningful(msg.name), Some(Trigger(msg.name, msg.position)))
  {
    EventIsReceived(env, s, msg);
  }

  /** A threat to an NPC of courage below 0.48: it is sent fleeing exactly when its
      body is its own and it gets a turn at once, that is, when it is aware and a
      slot is free, or engaged already.  A deferred one is promoted without the
      trigger and need not flee. */
  lemma ThreatSendsFleeingExactly(env: Env, s: Sys, msg: Message)
    requires Sound(env, s) && msg.GameEvent? && msg.name in THREATS && Meant(s, msg.npc, msg.request) != ""
    requires env.courage(Meant(s, msg.npc, msg.request)) < 0.48
    ensures var npc := Meant(s, msg.npc, msg.request);
            SentFleeing(s, Handle(env, s, msg), npc) <==> FleesNow(env, s, npc)
  {
    var npc := Meant(s, msg.npc, msg.request);
    var act := Hear(npc, msg.name, PayloadOf(msg.goal));
    var heard := Apply(env, s, act);
    var trigger := Trigger(msg.name, msg.position);
    ThreatStirs(env, s, msg);
    HearingIsCalm(env, s, npc, msg.name, msg.goal);
    IdleActIsStill(env, s, act);
    ActiveByState(s, heard);
    StirredFleesExactly(env, heard, npc, Meaningful(msg.name), trigger);
    ActWithholds(env, s, act, {FleeFrom});
    StirringTakesNone(env, heard, npc, Meaningful(msg.name), Some(trigger));
    FleeingStarts(s, heard, Handle(env, s, msg), npc);
  }
}
