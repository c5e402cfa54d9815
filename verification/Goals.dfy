/** Goals are event-sourced: an NPC's current goal is what its timeline says. */
module Goals {
  import opened Common
  import opened Names
  import opened Ownership
  import opened Journal
  import opened Scheduler
  import opened Handlers
  import opened HandlerProofs
  import opened Runs

  predicate IsGoalLine(item: Item, npc: string) {
    item.Fact? && item.npc == npc && item.name in GOAL_NAMES
  }

  lemma GoalAfterOne(log: seq<Item>, item: Item, npc: string)
    ensures GoalIn(log + [item], npc) == if IsGoalLine(item, npc) then GoalOf(item) else GoalIn(log, npc)
  {
    assert (log + [item])[..|log|] == log;
    TimelineHasFacts(log, npc);
    TimelineHasFacts(log + [item], npc);
    if item.Fact? && item.npc == npc {
      assert Timeline(log + [item], npc)[..|Timeline(log, npc)|] == Timeline(log, npc);
    } else {
      assert Timeline(log + [item], npc) == Timeline(log, npc);
    }
  }

  lemma {:induction false} GoalIgnores(log: seq<Item>, more: seq<Item>, npc: string)
    requires forall item <- more :: !IsGoalLine(item, npc)
    ensures GoalIn(log + more, npc) == GoalIn(log, npc)
  {
    if more == [] {
      assert log + more == log;
    } else {
      var front, last := more[..|more| - 1], more[|more| - 1];
      assert last in more && forall item <- front :: item in more;
      assert log + more == (log + front) + [last];
      GoalIgnores(log, front, npc);
      GoalAfterOne(log + front, last, npc);
    }
  }

  /** The bridge completes goals but authors none. */
  ghost predicate BridgeSetsNoGoals(log: seq<Item>) {
    forall item <- log :: item.Fact? && item.author == ByBridge ==> item.name !in {GoalCreated, GoalChanged}
  }

  /** The bookkeeping tells the goal the whole timeline tells. */
  predicate Synced(env: Env, s: Sys, npc: string)
    requires npc in s.agents
  {
    s.agents[npc].goal == GoalIn(env.archive + s.log, npc)
  }

  /** There is no goal to restore, or its newest line is within reach. */
  ghost predicate Restorable(log: seq<Item>, npc: string) {
    || GoalIn(log, npc) == None
    || exists f <- Tail(Timeline(log, npc), REHYDRATION_WINDOW) :: f.Fact? && f.name in GOAL_NAMES
  }

  /** A goal line has been written since the NPC was met. */
  predicate Retold(s: Sys, npc: string)
    requires npc in s.agents && s.agents[npc].metAt <= |s.log|
  {
    exists item <- s.log[s.agents[npc].metAt..] :: IsGoalLine(item, npc)
  }

  /** The goal is the timeline's exactly when the timeline could be restored at
      the first meeting or has told a goal since. */
  ghost predicate GoalTraced(env: Env, s: Sys, npc: string) {
    npc in s.agents ==>
      var metAt := s.agents[npc].metAt;
      metAt <= |s.log| &&
      (Synced(env, s, npc) <==> Restorable(env.archive + s.log[..metAt], npc) || Retold(s, npc))
  }

  // ---------------------------------------------------------------------
  // The three things that can happen to a goal
  // ---------------------------------------------------------------------

  /** Nothing: no goal line, the bookkeeping as it was. */
  lemma NothingTold(env: Env, s: Sys, r: Sys, more: seq<Item>, npc: string)
    requires npc in s.agents && GoalTraced(env, s, npc) && r.log == s.log + more
    requires npc in r.agents && r.agents[npc].goal == s.agents[npc].goal && r.agents[npc].metAt == s.agents[npc].metAt
    requires forall item <- more :: !IsGoalLine(item, npc)
    ensures GoalTraced(env, r, npc)
  {
    var metAt := s.agents[npc].metAt;
    assert env.archive + r.log == (env.archive + s.log) + more;
    GoalIgnores(env.archive + s.log, more, npc);
    assert r.log[..metAt] == s.log[..metAt] && r.log[metAt..] == s.log[metAt..] + more;
    assert forall item <- r.log[metAt..] :: item in s.log[metAt..] || item in more;
    assert forall item <- s.log[metAt..] :: item in r.log[metAt..];
  }

  /** A goal line of the NPC's own, and the bookkeeping follows it. */
  lemma GoalTold(env: Env, s: Sys, r: Sys, line: Item, npc: string)
    requires npc in r.agents && r.agents[npc].metAt <= |s.log| && r.log == s.log + [line]
    requires IsGoalLine(line, npc) && r.agents[npc].goal == GoalOf(line)
    ensures GoalTraced(env, r, npc)
  {
    assert env.archive + r.log == (env.archive + s.log) + [line];
    GoalAfterOne(env.archive + s.log, line, npc);
    assert line in r.log[r.agents[npc].metAt..];
  }

  /** A first meeting, the goal restored from the timeline so far. */
  lemma FirstMet(env: Env, r: Sys, more: seq<Item>, npc: string)
    requires npc in r.agents && r.agents[npc].metAt <= |r.log| && more == r.log[r.agents[npc].metAt..]
    requires r.agents[npc].goal == Rehydrated(env.archive + r.log[..r.agents[npc].metAt], npc)
    requires forall item <- more :: !IsGoalLine(item, npc)
    ensures GoalTraced(env, r, npc)
  {
    var before := env.archive + r.log[..r.agents[npc].metAt];
    assert env.archive + r.log == before + more;
    GoalIgnores(before, more, npc);
    RehydrationIsExact(before, npc);
  }

  // ---------------------------------------------------------------------
  // Acts
  // ---------------------------------------------------------------------

  lemma MeetingTraces(env: Env, s: Sys, npc: string, n: string)
    requires GoalTraced(env, s, n)
    ensures GoalTraced(env, Met(env, s, npc), n)
  {
    if n == npc && npc !in s.agents {
      assert s.log[..|s.log|] == s.log;
      FirstMet(env, Met(env, s, npc), [], n);
    }
  }

  /** Lines that tell nobody's goal, written beside untouched bookkeeping. */
  lemma LinesTrace(env: Env, s: Sys, r: Sys, more: seq<Item>, n: string)
    requires GoalTraced(env, s, n) && r.log == s.log + more
    requires n in r.agents ==>
               n in s.agents && r.agents[n].goal == s.agents[n].goal && r.agents[n].metAt == s.agents[n].metAt
    requires forall item <- more :: !IsGoalLine(item, n)
    ensures GoalTraced(env, r, n)
  {
    if n in r.agents {
      NothingTold(env, s, r, more, n);
    }
  }

  lemma HearingNoGoalTraces(env: Env, s: Sys, npc: string, name: EventName, payload: Payload, n: string)
    requires GoalTraced(env, s, n) && name !in GOAL_NAMES
    ensures GoalTraced(env, Apply(env, s, Hear(npc, name, payload)), n)
  {
    var line := Fact(npc, name, ByBridge, payload);
    LinesTrace(env, s, Logged(s, line), [line], n);
    MeetingTraces(env, Logged(s, line), npc, n);
  }

  lemma CompletionTraces(env: Env, s: Sys, npc: string, payload: Payload, n: string)
    requires GoalTraced(env, s, n)
    ensures GoalTraced(env, Apply(env, s, Hear(npc, GoalCompleted, payload)), n)
  {
    var line := Fact(npc, GoalCompleted, ByBridge, payload);
    var noted := Logged(s, line);
    var r := Heard(env, noted, npc, GoalCompleted);
    HearingWritesNothing(env, noted, npc, GoalCompleted);
    if n != npc {
      LinesTrace(env, s, r, [line], n);
    } else if npc in s.agents {
      GoalTold(env, s, r, line, n);
    } else {
      CompletedBefore(env, s, line, npc);
      assert noted.log[..|noted.log|] == noted.log;
      FirstMet(env, r, [], n);
    }
  }

  /** With a completed goal as its last line a timeline restores none. */
  lemma CompletedBefore(env: Env, s: Sys, line: Item, npc: string)
    requires IsGoalLine(line, npc) && GoalOf(line) == None
    ensures Rehydrated(env.archive + (s.log + [line]), npc) == None
  {
    assert env.archive + (s.log + [line]) == (env.archive + s.log) + [line];
    GoalAfterOne(env.archive + s.log, line, npc);
    RehydrationIsExact((env.archive + s.log) + [line], npc);
  }

  lemma AdoptionTraces(env: Env, s: Sys, npc: string, goal: string, n: string)
    requires GoalTraced(env, s, n) && npc in s.agents
    ensures GoalTraced(env, Apply(env, s, AdoptGoal(npc, goal)), n)
  {
    var r := Apply(env, s, AdoptGoal(npc, goal));
    var line := LinesOf(env, s, AdoptGoal(npc, goal))[0];
    if n == npc {
      GoalTold(env, s, r, line, n);
    } else {
      LinesTrace(env, s, r, [line], n);
    }
  }

  lemma HandingOverTraces(env: Env, s: Sys, npc: string, n: string)
    requires GoalTraced(env, s, n)
    ensures GoalTraced(env, HandedOver(env, s, npc), n)
  {
    var unqueued := Unqueued(s, npc);
    assert unqueued.log == s.log && unqueued.agents == s.agents;
    LinesTrace(env, s, unqueued, [], n);
    MeetingTraces(env, unqueued, npc, n);
    LinesTrace(env, Met(env, unqueued, npc), HandedOver(env, s, npc), [HandedOff(npc)], n);
  }

  lemma FilingTraces(env: Env, s: Sys, move: Move, n: string)
    requires GoalTraced(env, s, n)
    ensures GoalTraced(env, Filed(env, s, move), n)
  {
    var s1 := Announced(s, move);
    var more := if NameOf(move).None? then [] else [Fact(move.npc, NameOf(move).value, ByRuntime, Plain)];
    assert s1 == s.(log := s.log + more);
    LinesTrace(env, s, s1, more, n);
    if move.to in {Release, Rockstar} {
      HandingOverTraces(env, s1, move.npc, n);
      var s2 := HandedOver(env, s1, move.npc);
      assert Filed(env, s, move).log == s2.log + [];
      LinesTrace(env, s2, Filed(env, s, move), [], n);
    }
  }

  lemma ShiftTraces(env: Env, s: Sys, npc: string, change: Change, evidence: Option<ScanUpdate>, n: string)
    requires GoalTraced(env, s, n)
    ensures GoalTraced(env, ShiftedBy(env, s, npc, change, evidence), n)
  {
    var step := Moved(s.ledger, npc, change, evidence);
    var moved := s.(ledger := step.ledger);
    assert moved.log == s.log + [];
    LinesTrace(env, s, moved, [], n);
    if step.move.Some? {
      FilingTraces(env, moved, step.move.value, n);
    }
  }

  lemma OtherActsKeepGoals(env: Env, s: Sys, act: Act, n: string)
    requires Enabled(env, s, act) && !act.Shift? && !act.Hear? && !act.AdoptGoal? && !act.Meet?
    ensures var r := Apply(env, s, act);
            n in r.agents ==>
              n in s.agents && r.agents[n].goal == s.agents[n].goal && r.agents[n].metAt == s.agents[n].metAt
  {
  }

  lemma OtherActsTellNothing(env: Env, s: Sys, act: Act, n: string)
    requires Enabled(env, s, act) && !act.Shift? && !act.Hear? && !act.AdoptGoal? && !act.Meet?
    ensures forall item <- LinesOf(env, s, act) :: !IsGoalLine(item, n)
  {
  }

  lemma GoalStep(env: Env, s: Sys, act: Act, n: string)
    requires GoalTraced(env, s, n) && Enabled(env, s, act)
    requires act.Hear? ==> act.name !in {GoalCreated, GoalChanged}
    ensures GoalTraced(env, Apply(env, s, act), n)
  {
    match act {
      case Shift(npc, op) => ShiftTraces(env, s, npc, ChangeOf(s.ledger.Lookup(npc), op), EvidenceOf(op), n);
      case Hear(npc, name, payload) =>
        if name == GoalCompleted {
          CompletionTraces(env, s, npc, payload, n);
        } else {
          HearingNoGoalTraces(env, s, npc, name, payload, n);
        }
      case AdoptGoal(npc, goal) => AdoptionTraces(env, s, npc, goal, n);
      case Meet(npc) => MeetingTraces(env, s, npc, n);
      case _ => OtherActTraces(env, s, act, n);
    }
  }

  lemma OtherActTraces(env: Env, s: Sys, act: Act, n: string)
    requires GoalTraced(env, s, n) && Enabled(env, s, act)
    requires !(act.Shift? || act.Hear? || act.AdoptGoal? || act.Meet?)
    ensures GoalTraced(env, Apply(env, s, act), n)
  {
    ActLines(env, s, act);
    OtherActsKeepGoals(env, s, act, n);
    OtherActsTellNothing(env, s, act, n);
    LinesTrace(env, s, Apply(env, s, act), LinesOf(env, s, act), n);
  }

  /** The log only grows. */
  lemma LogGrows(env: Env, s: Sys, act: Act)
    requires Enabled(env, s, act)
    ensures s.log <= Apply(env, s, act).log
    ensures act.Hear? ==> Fact(act.npc, act.name, ByBridge, act.payload) in Apply(env, s, act).log
  {
    if act.Shift? {
      ShiftedLines(env, s, act.npc, ChangeOf(s.ledger.Lookup(act.npc), act.op), EvidenceOf(act.op));
    } else {
      ActLines(env, s, act);
    }
  }

  lemma {:induction false} GoalsAfter(env: Env, acts: seq<Act>, npc: string)
    requires Legal(env, acts) && BridgeSetsNoGoals(Replay(env, acts).log)
    ensures GoalTraced(env, Replay(env, acts), npc)
  {
    if acts != [] {
      var s, act := Replay(env, acts[..|acts| - 1]), acts[|acts| - 1];
      LogGrows(env, s, act);
      assert forall item <- s.log :: item in Replay(env, acts).log;
      GoalsAfter(env, acts[..|acts| - 1], npc);
      GoalStep(env, s, act, npc);
    }
  }

  /** Whatever timelines the runtime starts from, and after every run in which
      the bridge authors no goals: an NPC's goal is the fold of the goal events
      on its whole timeline exactly when there was none to restore at their
      first meeting, or its newest event was in the window then, or a goal event
      was written since. */
  lemma GoalsAreEventSourced(env: Env, msgs: seq<Message>)
    requires BridgeSetsNoGoals(Run(env, msgs).log)
    ensures var s := Run(env, msgs);
            forall npc <- s.agents ::
              var metAt := s.agents[npc].metAt;
              metAt <= |s.log| &&
              (s.agents[npc].goal == GoalIn(env.archive + s.log, npc) <==>
                 Restorable(env.archive + s.log[..metAt], npc) || Retold(s, npc))
  {
    var s := Run(env, msgs);
    RunIsGood(env, msgs);
    var acts :| LeadsTo(env, acts, s);
    forall npc | npc in s.agents
      ensures GoalTraced(env, s, npc)
    {
      GoalsAfter(env, acts, npc);
    }
  }
}
