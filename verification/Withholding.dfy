/** What a turn lets out: between two states no result is taken back, no request
    with one of the given tools is sent and, if `say` is one of them, no line is
    spoken. */
module Withholding {
  import opened Common
  import opened Names
  import opened Ownership
  import opened Decisions
  import opened Journal
  import opened Scheduler
  import opened Turns

  predicate Passes(item: Item, blocked: set<Tool>) {
    && !item.Resolved?
    && (item.Sent? ==> item.tool !in blocked)
    && (IsSpeech(item) ==> Say !in blocked)
  }

  ghost predicate Withholds(s: Sys, r: Sys, blocked: set<Tool>) {
    s.log <= r.log && forall item <- r.log[|s.log|..] :: Passes(item, blocked)
  }

  lemma WithholdingChains(s: Sys, t: Sys, r: Sys, blocked: set<Tool>)
    requires Withholds(s, t, blocked) && Withholds(t, r, blocked)
    ensures Withholds(s, r, blocked)
  {
    assert r.log[|s.log|..] == t.log[|s.log|..] + r.log[|t.log|..];
  }

  lemma SameLinesWithhold(s: Sys, t: Sys, r: Sys, blocked: set<Tool>)
    requires Withholds(s, t, blocked) && r.log == t.log
    ensures Withholds(s, r, blocked)
  {
  }

  lemma SilenceWithholds(s: Sys, r: Sys, blocked: set<Tool>)
    requires r.log == s.log
    ensures Withholds(s, r, blocked)
  {
  }

  lemma LinesWithhold(s: Sys, r: Sys, lines: seq<Item>, blocked: set<Tool>)
    requires r.log == s.log + lines && forall item <- lines :: Passes(item, blocked)
    ensures Withholds(s, r, blocked)
  {
    assert r.log[|s.log|..] == lines;
  }

  lemma ActWithholds(env: Env, s: Sys, act: Act, blocked: set<Tool>)
    requires !act.Shift? && !act.Resolve? && (act.Dispatch? ==> act.tool !in blocked)
    requires act.Hear? ==> !act.payload.Spoken?
    ensures Withholds(s, Apply(env, s, act), blocked)
  {
    ActLines(env, s, act);
    LinesWithhold(s, Apply(env, s, act), LinesOf(env, s, act), blocked);
  }

  lemma ShiftWithholds(env: Env, s: Sys, npc: string, change: Change, evidence: Option<ScanUpdate>, blocked: set<Tool>)
    ensures Withholds(s, ShiftedBy(env, s, npc, change, evidence), blocked)
  {
    ShiftedLines(env, s, npc, change, evidence);
    var lines := if change.Stay? then []
                 else MoveLines(Move(npc, s.ledger.State(npc), change.to, change.reason, evidence));
    LinesWithhold(s, ShiftedBy(env, s, npc, change, evidence), lines, blocked);
  }

  // ---------------------------------------------------------------------
  // The parts of a turn
  // ---------------------------------------------------------------------

  lemma CallWithholds(env: Env, s: Sys, npc: string, a: Action, reason: Reason, blocked: set<Tool>)
    requires a.tool !in blocked
    ensures Withholds(s, Called(env, s, npc, a, reason), blocked)
  {
    if Accepted(a) {
      ActWithholds(env, s, Dispatch(npc, a.tool, reason), blocked);
    }
  }

  lemma {:induction false} ActingWithholds(
    env: Env, s: Sys, npc: string, actions: seq<Action>, speaks: bool, reason: Reason, blocked: set<Tool>)
    requires forall a <- actions :: a.tool !in blocked
    ensures Withholds(s, Acted(env, s, npc, actions, speaks, reason), blocked)
  {
    if actions != [] {
      var front, a := actions[..|actions| - 1], actions[|actions| - 1];
      assert a in actions && forall b <- front :: b in actions;
      ActingWithholds(env, s, npc, front, speaks, reason, blocked);
      var before := Acted(env, s, npc, front, speaks, reason);
      CallWithholds(env, before, npc, a, reason, blocked);
      WithholdingChains(s, before, Called(env, before, npc, a, reason), blocked);
    }
  }

  lemma {:induction false} FailuresWithhold(env: Env, s: Sys, npc: string, failed: seq<Tool>, blocked: set<Tool>)
    ensures Withholds(s, Failures(env, s, npc, failed), blocked)
  {
    if failed != [] {
      var before := Failures(env, s, npc, failed[..|failed| - 1]);
      FailuresWithhold(env, s, npc, failed[..|failed| - 1], blocked);
      ActWithholds(env, before, Fail(npc), blocked);
      WithholdingChains(s, before, Apply(env, before, Fail(npc)), blocked);
    }
  }

  lemma PreparationWithholds(env: Env, s: Sys, npc: string, d: Decision, blocked: set<Tool>)
    requires npc in s.agents
    ensures Withholds(s, Prepared(env, s, npc, d), blocked)
  {
    var plan := Filtered(env, s, npc, d);
    FailuresWithhold(env, s, npc, plan.failed, blocked);
    FailuresOnlyLog(env, s, npc, plan.failed);
    var s1 := Failures(env, s, npc, plan.failed);
    GoalAndMoodWithhold(env, s1, npc, d, blocked);
    WithholdingChains(s, s1, Prepared(env, s, npc, d), blocked);
  }

  lemma GoalAndMoodWithhold(env: Env, s: Sys, npc: string, d: Decision, blocked: set<Tool>)
    requires npc in s.agents
    ensures npc in GoalTaken(env, s, npc, d).agents
    ensures Withholds(s, MoodTaken(env, GoalTaken(env, s, npc, d), npc, d), blocked)
  {
    var s1 := GoalTaken(env, s, npc, d);
    if s1 != s {
      ActWithholds(env, s, AdoptGoal(npc, d.goal.value), blocked);
    }
    if d.mood.Some? && d.mood.value != "" {
      ActWithholds(env, s1, Revise(npc, s1.agents[npc].(mood := d.mood.value)), blocked);
      WithholdingChains(s, s1, MoodTaken(env, s1, npc, d), blocked);
    }
  }

  lemma UtteranceWithholds(env: Env, s: Sys, npc: string, d: Decision, reason: Reason, blocked: set<Tool>)
    requires npc in s.agents && Say !in blocked
    ensures Withholds(s, Uttered(env, s, npc, d, reason), blocked)
  {
    if Utters(s, npc, d) {
      var said := Called(env, s, npc, SayAction(d.speech.value), reason);
      CallWithholds(env, s, npc, SayAction(d.speech.value), reason, blocked);
      UtteredLines(env, s, npc, d, reason);
      SameLinesWithhold(s, said, Uttered(env, s, npc, d, reason), blocked);
    }
  }

  lemma UtteredLines(env: Env, s: Sys, npc: string, d: Decision, reason: Reason)
    requires npc in s.agents && Utters(s, npc, d)
    ensures Uttered(env, s, npc, d, reason).log == Called(env, s, npc, SayAction(d.speech.value), reason).log
  {
  }

  /** From the decision prepared to its last action. */
  lemma SpeechAndActionsWithhold(
    env: Env, s: Sys, npc: string, d: Decision, kept: seq<Action>, reason: Reason, blocked: set<Tool>)
    requires npc in s.agents && Say !in blocked && forall a <- kept :: a.tool !in blocked
    ensures Withholds(s, Acted(env, Uttered(env, s, npc, d, reason), npc, kept, d.speech.Some?, reason), blocked)
  {
    var t := Uttered(env, s, npc, d, reason);
    UtteranceWithholds(env, s, npc, d, reason, blocked);
    ActingWithholds(env, t, npc, kept, d.speech.Some?, reason, blocked);
    WithholdingChains(s, t, Acted(env, t, npc, kept, d.speech.Some?, reason), blocked);
  }

  lemma StampWritesNothing(env: Env, s: Sys)
    ensures Apply(env, s, StampSpeech).log == s.log
  {
  }

  lemma ExecutionWithholds(env: Env, s: Sys, npc: string, d: Decision, reason: Reason, blocked: set<Tool>)
    requires npc in s.agents && Say !in blocked && forall a <- Filtered(env, s, npc, d).kept :: a.tool !in blocked
    ensures Withholds(s, Executed(env, s, npc, d, reason), blocked)
  {
    var kept := Filtered(env, s, npc, d).kept;
    var s1 := Prepared(env, s, npc, d);
    var s2 := Acted(env, Uttered(env, s1, npc, d, reason), npc, kept, d.speech.Some?, reason);
    PreparationWithholds(env, s, npc, d, blocked);
    SpeechAndActionsWithhold(env, s1, npc, d, kept, reason, blocked);
    WithholdingChains(s, s1, s2, blocked);
    StampWritesNothing(env, s2);
    SameLinesWithhold(s, s2, Executed(env, s, npc, d, reason), blocked);
  }

  /** What may survive filtering, whether or not the speech policy drops the line. */
  ghost predicate KeepsOff(env: Env, s: Sys, npc: string, d: Decision, blocked: set<Tool>)
    requires npc in s.agents
  {
    && (forall a <- Filtered(env, s, npc, d).kept :: a.tool !in blocked)
    && (forall a <- Filtered(env, s, npc, d.(speech := None)).kept :: a.tool !in blocked)
  }

  lemma ReadingKeepsOff(env: Env, s: Sys, npc: string, d: Decision, blocked: set<Tool>)
    requires npc in s.agents && KeepsOff(env, s, npc, d, blocked)
    ensures var read := Apply(env, s, ReadClock);
            read.log == s.log && npc in read.agents && KeepsOff(env, read, npc, d, blocked)
  {
  }

  lemma SpeakingWithholds(env: Env, s: Sys, npc: string, d: Decision, reason: Reason, blocked: set<Tool>)
    requires npc in s.agents && Say !in blocked && KeepsOff(env, s, npc, d, blocked)
    ensures Withholds(s, Spoke(env, s, npc, d, reason), blocked)
  {
    if !PolicyApplies(d, reason) {
      ExecutionWithholds(env, s, npc, d, reason, blocked);
    } else {
      var read := Apply(env, s, ReadClock);
      ReadingKeepsOff(env, s, npc, d, blocked);
      ExecutionWithholds(env, read, npc, d, reason, blocked);
      ExecutionWithholds(env, read, npc, d.(speech := None), reason, blocked);
    }
  }

  lemma ConclusionWritesNothing(env: Env, s: Sys, npc: string)
    ensures Concluded(env, s, npc).log == s.log
  {
  }

  lemma ConsultingKeepsOff(env: Env, s: Sys, npc: string, reason: Reason)
    requires npc in s.agents
    ensures var r := Apply(env, s, Consult(npc, reason)); npc in r.agents && Overlaid(r, npc) == Overlaid(s, npc)
  {
  }

  lemma AnswerWithholds(env: Env, s: Sys, npc: string, d: Decision, reason: Reason, blocked: set<Tool>)
    requires npc in s.agents && Say !in blocked
    requires KeepsOff(env, Apply(env, s, Consult(npc, reason)), npc, d, blocked)
    ensures Withholds(s, Answered(env, s, npc, d, reason), blocked)
  {
    var s1 := Apply(env, s, Consult(npc, reason));
    var s2 := Spoke(env, s1, npc, d, reason);
    ActWithholds(env, s, Consult(npc, reason), blocked);
    SpeakingWithholds(env, s1, npc, d, reason, blocked);
    WithholdingChains(s, s1, s2, blocked);
    ConclusionWritesNothing(env, s2, npc);
    SameLinesWithhold(s, s2, Answered(env, s, npc, d, reason), blocked);
  }

  lemma OpeningWithholds(env: Env, s: Sys, npc: string, reason: Reason, blocked: set<Tool>)
    requires npc in s.agents && Think !in blocked
    ensures Withholds(s, Opened(env, s, npc, reason), blocked) && npc in Opened(env, s, npc, reason).agents
    ensures Overlaid(Opened(env, s, npc, reason), npc) == Overlaid(s, npc)
  {
    var s1 := Apply(env, Apply(env, s, Revise(npc, s.agents[npc].(reasoning := true,
                                                                  lastDecisionAt := env.clock(s.ticks)))), ReadClock);
    assert s1.log == s.log;
    if Gestures(env, s1, npc) {
      ActWithholds(env, s1, Dispatch(npc, Think, reason), blocked);
    }
  }

  // ---------------------------------------------------------------------
  // Whole turns
  // ---------------------------------------------------------------------

  lemma OverlaidKeepsOff(env: Env, s: Sys, npc: string, d: Decision, blocked: set<Tool>)
    requires npc in s.agents && s.agents[npc].dialogueOnly && Say !in blocked
    ensures KeepsOff(env, s, npc, d, blocked)
  {
  }

  /** A turn under the overlay sends nothing but speech, a free one anything that
      is not blocked. */
  lemma ThoughtWithholds(env: Env, s: Sys, npc: string, reason: Reason, trigger: Option<Trigger>, blocked: set<Tool>)
    requires npc in s.agents && Say !in blocked && Think !in blocked
    requires s.agents[npc].dialogueOnly || blocked == {}
    ensures Withholds(s, Thought(env, s, npc, reason, trigger), blocked)
  {
    var s1 := Opened(env, s, npc, reason);
    var d := Decided(env, s1, npc, trigger);
    OpeningWithholds(env, s, npc, reason, blocked);
    ConsultingKeepsOff(env, s1, npc, reason);
    if blocked != {} {
      OverlaidKeepsOff(env, Apply(env, s1, Consult(npc, reason)), npc, d, blocked);
    }
    AnswerWithholds(env, s1, npc, d, reason, blocked);
    WithholdingChains(s, s1, Answered(env, s1, npc, d, reason), blocked);
  }

  /** The state in which a turn that was asked for is taken, or not. */
  lemma AskingWritesNothing(env: Env, s: Sys, npc: string)
    ensures var seen := Apply(env, Apply(env, s, Meet(npc)), See(npc));
            && seen.log == s.log && npc in seen.agents && Overlaid(seen, npc) == Overlaid(s, npc)
            && seen.ledger.State(npc) == s.ledger.State(npc)
  {
  }

  lemma TurnWithholds(env: Env, s: Sys, npc: string, reason: Reason, trigger: Option<Trigger>, blocked: set<Tool>)
    requires Say !in blocked && Think !in blocked && (Overlaid(s, npc) || blocked == {})
    ensures Withholds(s, Turned(env, s, npc, reason, trigger), blocked)
  {
    var seen := Apply(env, Apply(env, s, Meet(npc)), See(npc));
    AskingWritesNothing(env, s, npc);
    SilenceWithholds(s, seen, blocked);
    if TakesTurn(env, seen, npc) {
      ThoughtWithholds(env, seen, npc, reason, trigger, blocked);
      WithholdingChains(s, seen, Thought(env, seen, npc, reason, trigger), blocked);
    }
  }
}
