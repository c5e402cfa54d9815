/** One reasoning turn: ask the backend, repair its decision, execute it. */
module Turns {
  import opened Common
  import opened Names
  import opened Ownership
  import opened Decisions
  import opened Journal
  import opened Dispatching
  import opened Scheduler

  // ---------------------------------------------------------------------
  // The turn as a function
  // ---------------------------------------------------------------------

  /** A turn leaves ownership, queue and overlay alone and speaks for one NPC only. */
  ghost predicate OnlyThinks(s: Sys, r: Sys, npc: string) {
    && r.ledger == s.ledger && r.queue == s.queue && r.reasons == s.reasons
    && r.agentOrder == s.agentOrder && r.tracked == s.tracked
    && r.agents.Keys == s.agents.Keys
    && (forall n <- s.agents :: r.agents[n].dialogueOnly == s.agents[n].dialogueOnly)
    && (forall n <- s.agents :: n != npc ==> r.agents[n] == s.agents[n])
    && r.desk.Busy() <= s.desk.Busy() + {npc}
  }

  function Lookup(env: Env, s: Sys): Lookups {
    Lookups(env.parseFloat, env.recentPosition(s.turns))
  }

  /** While Rockstar owns the body only speech survives. */
  function SpeechOnly(actions: seq<Action>): (r: Stabilized)
    ensures forall a <- r.kept :: a in actions && a.tool == Say
  {
    if actions == [] then Stabilized([], [])
    else
      var r := SpeechOnly(actions[..|actions| - 1]);
      var a := actions[|actions| - 1];
      if a.tool == Say then Stabilized(r.kept + [a], r.failed) else Stabilized(r.kept, r.failed + [a.tool])
  }

  predicate Accepted(a: Action) {
    HandlerAccepts(a.tool, WithoutNil(a.args))
  }

  function Called(env: Env, s: Sys, npc: string, a: Action, reason: Reason): (r: Sys)
    ensures r.queue == s.queue
  {
    if Accepted(a) then Apply(env, s, Dispatch(npc, a.tool, reason)) else s
  }

  function Failures(env: Env, s: Sys, npc: string, failed: seq<Tool>): (r: Sys)
    ensures r.queue == s.queue
  {
    if failed == [] then s else Apply(env, Failures(env, s, npc, failed[..|failed| - 1]), Fail(npc))
  }

  function GoalTaken(env: Env, s: Sys, npc: string, d: Decision): (r: Sys)
    requires npc in s.agents
    ensures r.queue == s.queue
  {
    if d.goal.Some? && d.goal.value != "" && s.agents[npc].goal != d.goal
    then Apply(env, s, AdoptGoal(npc, d.goal.value)) else s
  }

  function MoodTaken(env: Env, s: Sys, npc: string, d: Decision): (r: Sys)
    requires npc in s.agents
    ensures r.queue == s.queue
  {
    if d.mood.Some? && d.mood.value != ""
    then Apply(env, s, Revise(npc, s.agents[npc].(mood := d.mood.value))) else s
  }

  function SayAction(speech: Speech): Action {
    var args: Args := map[Text := Str(speech.text)];
    var args' := if speech.target == "" then args else args[OtherKey("target") := Str(speech.target)];
    Action(Say, if speech.emotion == "" then args' else args'[OtherKey("emotion") := Str(speech.emotion)])
  }

  /** The NPC's own clock of speech is set to the present reading. */
  function SpeechMarked(env: Env, s: Sys, npc: string): (r: Sys)
    requires npc in s.agents
    ensures r.queue == s.queue
  {
    Apply(env, Apply(env, s, Revise(npc, s.agents[npc].(lastSpokenAt := env.clock(s.ticks)))), ReadClock)
  }

  /** Does the decision's own speech reach the tool layer? */
  predicate Utters(s: Sys, npc: string, d: Decision) {
    d.speech.Some? && MaySpeak(s.ledger.State(npc))
  }

  function Uttered(env: Env, s: Sys, npc: string, d: Decision, reason: Reason): (r: Sys)
    requires npc in s.agents
    ensures r.queue == s.queue
  {
    if Utters(s, npc, d)
    then SpeechMarked(env, Called(env, s, npc, SayAction(d.speech.value), reason), npc) else s
  }

  /** Actions run in order; a `say` beside a decision's own speech is skipped. */
  function Acted(env: Env, s: Sys, npc: string, actions: seq<Action>, speaks: bool, reason: Reason): (r: Sys)
    ensures r.queue == s.queue
  {
    if actions == [] then s
    else
      var before := Acted(env, s, npc, actions[..|actions| - 1], speaks, reason);
      var a := actions[|actions| - 1];
      if a.tool == Say && speaks then before else Called(env, before, npc, a, reason)
  }

  /** Did any line reach the bridge? */
  predicate SpokeUp(s: Sys, npc: string, d: Decision, kept: seq<Action>) {
    || (Utters(s, npc, d) && Accepted(SayAction(d.speech.value)))
    || (d.speech.None? && exists a <- kept :: a.tool == Say && Accepted(a))
  }

  function Filtered(env: Env, s: Sys, npc: string, d: Decision): Stabilized
    requires npc in s.agents
  {
    if s.agents[npc].dialogueOnly then SpeechOnly(d.actions) else Stabilize(d, d.actions, Lookup(env, s))
  }

  /** Failures logged, goal and mood adopted. */
  function Prepared(env: Env, s: Sys, npc: string, d: Decision): (r: Sys)
    requires npc in s.agents
    ensures npc in r.agents && r.queue == s.queue
  {
    var plan := Filtered(env, s, npc, d);
    FailuresOnlyLog(env, s, npc, plan.failed);
    MoodTaken(env, GoalTaken(env, Failures(env, s, npc, plan.failed), npc, d), npc, d)
  }

  function Executed(env: Env, s: Sys, npc: string, d: Decision, reason: Reason): (r: Sys)
    requires npc in s.agents
    ensures r.queue == s.queue
  {
    var plan := Filtered(env, s, npc, d);
    var s1 := Uttered(env, Prepared(env, s, npc, d), npc, d, reason);
    var s2 := Acted(env, s1, npc, plan.kept, d.speech.Some?, reason);
    if SpokeUp(s, npc, d, plan.kept) then Apply(env, s2, StampSpeech) else s2
  }

  predicate Gestures(env: Env, s: Sys, npc: string) {
    env.settings.waitGestures && !Overlaid(s, npc) && s.ledger.State(npc) in {AIActive, AIConversation}
  }

  function Decided(env: Env, s: Sys, npc: string, trigger: Option<Trigger>): Decision {
    if Overlaid(s, npc) then env.decide(s.turns) else Guard(env.decide(s.turns), trigger, env.courage(npc))
  }

  /** Starting a turn: the clock is read, then perhaps a waiting gesture is played. */
  function Opened(env: Env, s: Sys, npc: string, reason: Reason): (r: Sys)
    requires npc in s.agents
    ensures r.queue == s.queue
  {
    var s1 := Apply(env, Apply(env, s, Revise(npc, s.agents[npc].(reasoning := true,
                                                                  lastDecisionAt := env.clock(s.ticks)))), ReadClock);
    if Gestures(env, s1, npc) then Apply(env, s1, Dispatch(npc, Think, reason)) else s1
  }

  /** The turn proper, once it is known that it takes place. */
  function Thought(env: Env, s: Sys, npc: string, reason: Reason, trigger: Option<Trigger>): (r: Sys)
    requires npc in s.agents
    ensures r.queue == s.queue
  {
    var s1 := Opened(env, s, npc, reason);
    Answered(env, s1, npc, Decided(env, s1, npc, trigger), reason)
  }

  /** From the backend's answer to the end of the turn. */
  function Answered(env: Env, s: Sys, npc: string, d: Decision, reason: Reason): (r: Sys)
    requires npc in s.agents
    ensures r.queue == s.queue
  {
    Concluded(env, Spoke(env, Apply(env, s, Consult(npc, reason)), npc, d, reason), npc)
  }

  /** The speech policy, then the execution of what it leaves. */
  function Spoke(env: Env, s: Sys, npc: string, d: Decision, reason: Reason): (r: Sys)
    requires npc in s.agents
    ensures r.queue == s.queue
  {
    if !PolicyApplies(d, reason) then Executed(env, s, npc, d, reason)
    else
      var cooling := CoolingDown(env.clock(s.ticks), s.agents[npc].lastSpokenAt, s.lastGlobalSpeechAt,
                                 env.settings.cooldown, env.settings.globalCooldown);
      Executed(env, Apply(env, s, ReadClock), npc, if cooling then d.(speech := None) else d, reason)
  }

  function Concluded(env: Env, s: Sys, npc: string): (r: Sys)
    ensures r.queue == s.queue
  {
    if npc !in s.agents then s
    else Apply(env, Apply(env, s, Revise(npc, s.agents[npc].(lastDecisionAt := env.clock(s.ticks),
                                                             reasoning := false))), ReadClock)
  }

  ghost predicate TakesTurn(env: Env, s: Sys, npc: string) {
    && npc in s.agents && !s.agents[npc].reasoning
    && MayReason(s.ledger.State(npc))
    && |Reasoning(s)| < env.settings.maxReasoning
  }

  /** Asking for a turn: nothing happens when the NPC is reasoning already, may
      not reason, or the scheduler is at its cap. */
  ghost function Turned(env: Env, s: Sys, npc: string, reason: Reason, trigger: Option<Trigger>): (r: Sys)
    ensures r.queue == s.queue
  {
    var met := Apply(env, s, Meet(npc));
    if met.agents[npc].reasoning then met
    else
      var seen := Apply(env, met, See(npc));
      if TakesTurn(env, seen, npc) then Thought(env, seen, npc, reason, trigger) else seen
  }

  // ---------------------------------------------------------------------
  // A turn only thinks
  // ---------------------------------------------------------------------

  lemma {:induction false} FailuresOnlyLog(env: Env, s: Sys, npc: string, failed: seq<Tool>)
    ensures var r := Failures(env, s, npc, failed); r == s.(log := r.log)
  {
    if failed != [] {
      FailuresOnlyLog(env, s, npc, failed[..|failed| - 1]);
    }
  }

  predicate IsThought(act: Act, npc: string) {
    match act
    case Revise(n, _) => n == npc
    case ReadClock => true
    case Consult(n, _) => n == npc
    case Fail(n) => n == npc
    case AdoptGoal(n, _) => n == npc
    case Dispatch(n, _, _) => n == npc
    case StampSpeech => true
    case _ => false
  }

  /** No line is spoken between the two states, and time does not run back. */
  ghost predicate Silent(s: Sys, r: Sys) {
    && s.ticks <= r.ticks
    && forall item <- r.log :: IsSpeech(item) ==> item in s.log
  }

  lemma BusyAfterAccept(desk: Desk, request: Request)
    ensures desk.Accept(request).Busy() <= desk.Busy() + {request.npc}
  {
    var after := desk.Accept(request);
    forall n | n in after.Busy()
      ensures n in desk.Busy() + {request.npc}
    {
      var id :| id in after.pending && after.pending[id].npc == n && n != "";
      if id in desk.pending && id != request.id {
        assert desk.pending[id].npc in desk.Busy();
      }
    }
  }

  lemma ThoughtActThinks(env: Env, s: Sys, act: Act, npc: string)
    requires IsThought(act, npc) && Enabled(env, s, act) && npc in s.agents
    ensures OnlyThinks(s, Apply(env, s, act), npc)
    ensures !(act.Dispatch? && act.tool == Say) ==> Silent(s, Apply(env, s, act))
  {
    if act.Dispatch? {
      BusyAfterAccept(s.desk, Request(s.nextId, npc, act.tool));
    }
  }

  lemma Ponder(env: Env, s: Sys, act: Act, npc: string) returns (r: Sys)
    requires Live(env, s) && IsThought(act, npc) && Enabled(env, s, act) && npc in s.agents
    ensures r == Apply(env, s, act) && Live(env, r) && OnlyThinks(s, r, npc)
    ensures !(act.Dispatch? && act.tool == Say) ==> Silent(s, r)
  {
    r := Apply(env, s, act);
    EnabledActsStayLive(env, s, act);
    ThoughtActThinks(env, s, act, npc);
  }

  // ---------------------------------------------------------------------
  // Speech bookkeeping
  // ---------------------------------------------------------------------

  ghost predicate Polite(env: Env) {
    SteadyClock(env) && SpeaksPolitely(env)
  }

  /** Each NPC's last-spoken time covers every line it spoke. */
  ghost predicate OwnBooked(env: Env, s: Sys) {
    Polite(env) ==> forall item <- s.log :: IsSpeech(item) ==>
      item.npc in s.agents && item.payload.at <= s.agents[item.npc].lastSpokenAt
  }

  /** The shared last-spoken time covers every line spoken. */
  ghost predicate AllBooked(env: Env, s: Sys) {
    Polite(env) ==> forall item <- s.log :: IsSpeech(item) ==> item.payload.at <= s.lastGlobalSpeechAt
  }

  /** No line was spoken in the future. */
  ghost predicate Timely(env: Env, s: Sys) {
    SteadyClock(env) ==> forall item <- s.log :: IsSpeech(item) ==> item.payload.at <= env.clock(s.ticks)
  }

  /** Between turns nobody is reasoning and all speech is booked. */
  ghost predicate Settled(env: Env, s: Sys) {
    && (forall n <- s.agents :: !s.agents[n].reasoning)
    && OwnBooked(env, s)
    && AllBooked(env, s)
  }

  lemma TimelyStep(env: Env, s: Sys, act: Act)
    requires Timely(env, s) && Enabled(env, s, act)
    ensures Timely(env, Apply(env, s, act))
  {
    if act.Shift? {
      ShiftLogsNoSpeech(env, s, act.npc, ChangeOf(s.ledger.Lookup(act.npc), act.op), EvidenceOf(act.op));
    }
  }

  /** The agents after a hand-off: at most one is new, and only overlays came down. */
  ghost predicate OnlyOverlaysDiffer(s: Sys, r: Sys, npc: string) {
    && s.agents.Keys <= r.agents.Keys <= s.agents.Keys + {npc}
    && (forall n <- s.agents :: r.agents[n] == s.agents[n].(dialogueOnly := r.agents[n].dialogueOnly))
    && (npc !in s.agents && npc in r.agents ==> !r.agents[npc].reasoning)
  }

  lemma HandedOverAgents(env: Env, s: Sys, npc: string)
    ensures OnlyOverlaysDiffer(s, HandedOver(env, s, npc), npc)
    ensures HandedOver(env, s, npc).log == s.log + [HandedOff(npc)]
  {
  }

  lemma HandedOverClocks(env: Env, s: Sys, npc: string)
    ensures var r := HandedOver(env, s, npc);
            r.ticks == s.ticks && r.lastGlobalSpeechAt == s.lastGlobalSpeechAt && r.turns == s.turns
  {
  }

  lemma FiledLogsNoSpeech(env: Env, s: Sys, move: Move)
    ensures var r := Filed(env, s, move);
            && r.ticks == s.ticks && r.lastGlobalSpeechAt == s.lastGlobalSpeechAt && r.turns == s.turns
            && (forall item <- r.log :: IsSpeech(item) ==> item in s.log)
            && OnlyOverlaysDiffer(s, r, move.npc)
  {
    var s1 := Announced(s, move);
    assert forall item <- s1.log :: IsSpeech(item) ==> item in s.log;
    if move.to in {Release, Rockstar} {
      HandedOverAgents(env, s1, move.npc);
      HandedOverClocks(env, s1, move.npc);
      assert Filed(env, s, move).log == s1.log + [HandedOff(move.npc)];
    }
  }

  lemma ShiftLogsNoSpeech(env: Env, s: Sys, npc: string, change: Change, evidence: Option<ScanUpdate>)
    ensures var r := ShiftedBy(env, s, npc, change, evidence);
            && r.ticks == s.ticks && r.lastGlobalSpeechAt == s.lastGlobalSpeechAt && r.turns == s.turns
            && (forall item <- r.log :: IsSpeech(item) ==> item in s.log)
            && OnlyOverlaysDiffer(s, r, npc)
  {
    var step := Moved(s.ledger, npc, change, evidence);
    if step.move.Some? {
      FiledLogsNoSpeech(env, s.(ledger := step.ledger), step.move.value);
    }
  }

  lemma {:induction false} TimelyAfter(env: Env, acts: seq<Act>)
    requires Legal(env, acts)
    ensures Timely(env, Replay(env, acts))
  {
    if acts != [] {
      TimelyAfter(env, acts[..|acts| - 1]);
      TimelyStep(env, Replay(env, acts[..|acts| - 1]), acts[|acts| - 1]);
    }
  }

  lemma TimelyHolds(env: Env, s: Sys)
    requires Live(env, s)
    ensures Timely(env, s)
  {
    var acts :| LeadsTo(env, acts, s);
    TimelyAfter(env, acts);
  }

  /** Silence keeps what is booked, as long as the last-spoken times stand. */
  lemma SilenceKeepsBooks(env: Env, s: Sys, r: Sys, npc: string)
    requires Silent(s, r) && OnlyThinks(s, r, npc) && npc in s.agents
    requires r.agents[npc].lastSpokenAt == s.agents[npc].lastSpokenAt
    ensures OwnBooked(env, s) ==> OwnBooked(env, r)
    ensures r.lastGlobalSpeechAt == s.lastGlobalSpeechAt && AllBooked(env, s) ==> AllBooked(env, r)
    ensures forall reason :: MaySay(env, s, npc, reason) ==> MaySay(env, r, npc, reason)
  {
  }

  // ---------------------------------------------------------------------
  // Each part of a turn stays live
  // ---------------------------------------------------------------------

  /** Parts of a turn that log and revise without speaking. */
  ghost predicate Mutters(env: Env, s: Sys, r: Sys, npc: string) {
    && Live(env, r) && OnlyThinks(s, r, npc) && Silent(s, r) && npc in s.agents
    && r.agents[npc].lastSpokenAt == s.agents[npc].lastSpokenAt
    && r.agents[npc].reasoning == s.agents[npc].reasoning
    && r.lastGlobalSpeechAt == s.lastGlobalSpeechAt
  }

  lemma {:induction false} FailuresMutter(env: Env, s: Sys, npc: string, failed: seq<Tool>)
    requires Live(env, s) && npc in s.agents
    ensures Mutters(env, s, Failures(env, s, npc, failed), npc)
  {
    if failed != [] {
      FailuresMutter(env, s, npc, failed[..|failed| - 1]);
      var r := Ponder(env, Failures(env, s, npc, failed[..|failed| - 1]), Fail(npc), npc);
    }
  }

  lemma GoalAndMoodMutter(env: Env, s: Sys, npc: string, d: Decision)
    requires Live(env, s) && npc in s.agents
    ensures npc in GoalTaken(env, s, npc, d).agents
    ensures Mutters(env, s, MoodTaken(env, GoalTaken(env, s, npc, d), npc, d), npc)
  {
    var s1 := GoalTaken(env, s, npc, d);
    if s1 != s {
      var r := Ponder(env, s, AdoptGoal(npc, d.goal.value), npc);
    }
    if d.mood.Some? && d.mood.value != "" {
      var r := Ponder(env, s1, Revise(npc, s1.agents[npc].(mood := d.mood.value)), npc);
    }
  }

  /** Booked for everybody but one speaker. */
  ghost predicate OthersBooked(env: Env, s: Sys, npc: string) {
    Polite(env) ==> forall item <- s.log :: IsSpeech(item) ==>
      item.npc in s.agents && (item.npc != npc ==> item.payload.at <= s.agents[item.npc].lastSpokenAt)
  }

  lemma MarkingBooksOwn(env: Env, s: Sys, npc: string)
    requires npc in s.agents && Timely(env, s) && OthersBooked(env, s, npc)
    ensures OwnBooked(env, SpeechMarked(env, s, npc))
  {
    var r := SpeechMarked(env, s, npc);
    assert r.log == s.log && r.agents[npc].lastSpokenAt == env.clock(s.ticks);
  }

  lemma DispatchBooksOthers(env: Env, s: Sys, npc: string, reason: Reason)
    requires npc in s.agents && OwnBooked(env, s)
    ensures OthersBooked(env, Apply(env, s, Dispatch(npc, Say, reason)), npc)
  {
  }

  lemma MarkingIsLive(env: Env, s: Sys, npc: string)
    requires Live(env, s) && npc in s.agents
    ensures var r := SpeechMarked(env, s, npc);
            && Live(env, r) && OnlyThinks(s, r, npc) && Silent(s, r)
            && r.agents[npc].reasoning == s.agents[npc].reasoning && r.lastGlobalSpeechAt == s.lastGlobalSpeechAt
  {
    var s1 := Ponder(env, s, Revise(npc, s.agents[npc].(lastSpokenAt := env.clock(s.ticks))), npc);
    var s2 := Ponder(env, s1, ReadClock, npc);
  }

  lemma CallingSpeechIsLive(env: Env, s: Sys, npc: string, a: Action, reason: Reason)
    requires Live(env, s) && npc in s.agents && MayReason(s.ledger.State(npc)) && OwnBooked(env, s)
    requires a.tool == Say && MaySay(env, s, npc, reason)
    ensures var r := Called(env, s, npc, a, reason);
            && Live(env, r) && OnlyThinks(s, r, npc) && OthersBooked(env, r, npc)
            && r.agents == s.agents && r.lastGlobalSpeechAt == s.lastGlobalSpeechAt
            && (!Accepted(a) ==> r == s)
  {
    if Accepted(a) {
      var r := Ponder(env, s, Dispatch(npc, Say, reason), npc);
      DispatchBooksOthers(env, s, npc, reason);
    }
  }

  /** The decision's own speech; it is booked on the speaker at once. */
  lemma UtteranceIsBooked(env: Env, s: Sys, npc: string, d: Decision, reason: Reason)
    requires Live(env, s) && npc in s.agents && OwnBooked(env, s)
    requires Utters(s, npc, d) ==> MaySay(env, s, npc, reason)
    ensures var r := Uttered(env, s, npc, d, reason);
            && Live(env, r) && OnlyThinks(s, r, npc) && OwnBooked(env, r)
            && r.agents[npc].reasoning == s.agents[npc].reasoning
            && r.lastGlobalSpeechAt == s.lastGlobalSpeechAt
            && (!(Utters(s, npc, d) && Accepted(SayAction(d.speech.value))) ==> Silent(s, r))
  {
    if Utters(s, npc, d) {
      var a := SayAction(d.speech.value);
      CallingSpeechIsLive(env, s, npc, a, reason);
      var s1 := Called(env, s, npc, a, reason);
      TimelyHolds(env, s1);
      MarkingBooksOwn(env, s1, npc);
      MarkingIsLive(env, s1, npc);
    }
  }

  /** Running actions: live, and silent when the backend is polite. */
  ghost predicate ActsOut(env: Env, s: Sys, r: Sys, npc: string) {
    && Live(env, r) && OnlyThinks(s, r, npc) && npc in s.agents
    && (SpeaksPolitely(env) ==> Silent(s, r))
    && r.agents[npc] == s.agents[npc] && r.lastGlobalSpeechAt == s.lastGlobalSpeechAt
  }

  lemma CallActsOut(env: Env, s: Sys, npc: string, a: Action, reason: Reason)
    requires Live(env, s) && npc in s.agents && MayReason(s.ledger.State(npc))
    requires Overlaid(s, npc) ==> a.tool == Say
    requires SpeaksPolitely(env) ==> a.tool != Say
    ensures ActsOut(env, s, Called(env, s, npc, a, reason), npc)
  {
    if Accepted(a) {
      var r := Ponder(env, s, Dispatch(npc, a.tool, reason), npc);
    }
  }

  lemma ActingChains(env: Env, s: Sys, t: Sys, r: Sys, npc: string)
    requires ActsOut(env, s, t, npc) && ActsOut(env, t, r, npc)
    ensures ActsOut(env, s, r, npc)
  {
  }

  /** A plan that the overlay permits and a polite backend's silence. */
  ghost predicate Permitted(env: Env, overlaid: bool, actions: seq<Action>) {
    && (overlaid ==> forall a <- actions :: a.tool == Say)
    && (SpeaksPolitely(env) ==> forall a <- actions :: a.tool != Say)
  }

  lemma {:induction false} ActionsActOut(env: Env, s: Sys, npc: string, actions: seq<Action>, speaks: bool, reason: Reason)
    requires Live(env, s) && npc in s.agents && MayReason(s.ledger.State(npc))
    requires Permitted(env, Overlaid(s, npc), actions)
    ensures ActsOut(env, s, Acted(env, s, npc, actions, speaks, reason), npc)
  {
    if actions != [] {
      var front, a := actions[..|actions| - 1], actions[|actions| - 1];
      assert forall b <- front :: b in actions;
      assert a in actions;
      ActionsActOut(env, s, npc, front, speaks, reason);
      var before := Acted(env, s, npc, front, speaks, reason);
      if !(a.tool == Say && speaks) {
        CallActsOut(env, before, npc, a, reason);
        ActingChains(env, s, before, Called(env, before, npc, a, reason), npc);
      }
    }
  }

  // ---------------------------------------------------------------------
  // Execution and the whole turn
  // ---------------------------------------------------------------------

  /** What survives filtering is permitted. */
  lemma FilteredIsPermitted(env: Env, s: Sys, npc: string, d: Decision)
    requires npc in s.agents
    requires SpeaksPolitely(env) ==> !Has(d.actions, Say)
    ensures Permitted(env, Overlaid(s, npc), Filtered(env, s, npc, d).kept)
  {
    forall a | a in Filtered(env, s, npc, d).kept && SpeaksPolitely(env)
      ensures a.tool != Say
    {
      if !s.agents[npc].dialogueOnly {
        KeptComesFrom(d, d.actions, Lookup(env, s), a);
      }
    }
  }

  lemma PreparationMutters(env: Env, s: Sys, npc: string, d: Decision)
    requires Live(env, s) && npc in s.agents
    ensures Mutters(env, s, Prepared(env, s, npc, d), npc)
  {
    var plan := Filtered(env, s, npc, d);
    FailuresMutter(env, s, npc, plan.failed);
    GoalAndMoodMutter(env, Failures(env, s, npc, plan.failed), npc, d);
  }

  lemma ExecutionSettles(env: Env, s: Sys, npc: string, d: Decision, reason: Reason)
    requires Live(env, s) && npc in s.agents && MayReason(s.ledger.State(npc))
    requires OwnBooked(env, s) && AllBooked(env, s)
    requires SpeaksPolitely(env) ==> !Has(d.actions, Say)
    requires d.speech.Some? ==> MaySay(env, s, npc, reason)
    ensures var r := Executed(env, s, npc, d, reason);
            && Live(env, r) && OnlyThinks(s, r, npc)
            && OwnBooked(env, r) && AllBooked(env, r)
            && r.agents[npc].reasoning == s.agents[npc].reasoning
  {
    var kept := Filtered(env, s, npc, d).kept;
    PreparationMutters(env, s, npc, d);
    var s1 := Prepared(env, s, npc, d);
    SilenceKeepsBooks(env, s, s1, npc);
    FilteredIsPermitted(env, s, npc, d);
    SpeechAndActionsSettle(env, s1, npc, d, kept, reason);
    var s2 := Uttered(env, s1, npc, d, reason);
    FinishSettles(env, s, s1, Acted(env, s2, npc, kept, d.speech.Some?, reason), npc, d, kept);
  }

  /** The shared last-spoken time is stamped exactly when a line was spoken. */
  lemma FinishSettles(env: Env, s: Sys, s1: Sys, s3: Sys, npc: string, d: Decision, kept: seq<Action>)
    requires npc in s.agents && Mutters(env, s, s1, npc) && AllBooked(env, s)
    requires Live(env, s3) && OnlyThinks(s1, s3, npc) && OwnBooked(env, s3)
    requires s3.agents[npc].reasoning == s1.agents[npc].reasoning
    requires s3.lastGlobalSpeechAt == s1.lastGlobalSpeechAt
    requires SpeaksPolitely(env) && !(Utters(s1, npc, d) && Accepted(SayAction(d.speech.value))) ==> Silent(s1, s3)
    ensures var r := if SpokeUp(s, npc, d, kept) then Apply(env, s3, StampSpeech) else s3;
            && Live(env, r) && OnlyThinks(s, r, npc)
            && OwnBooked(env, r) && AllBooked(env, r)
            && r.agents[npc].reasoning == s.agents[npc].reasoning
  {
    if SpokeUp(s, npc, d, kept) {
      TimelyHolds(env, s3);
      var r := Ponder(env, s3, StampSpeech, npc);
    }
  }

  /** The decision's speech and its actions, up to the shared stamp. */
  lemma SpeechAndActionsSettle(env: Env, s: Sys, npc: string, d: Decision, kept: seq<Action>, reason: Reason)
    requires Live(env, s) && npc in s.agents && MayReason(s.ledger.State(npc)) && OwnBooked(env, s)
    requires Permitted(env, Overlaid(s, npc), kept) && (Utters(s, npc, d) ==> MaySay(env, s, npc, reason))
    ensures var r := Acted(env, Uttered(env, s, npc, d, reason), npc, kept, d.speech.Some?, reason);
            && Live(env, r) && OnlyThinks(s, r, npc) && OwnBooked(env, r)
            && r.agents[npc].reasoning == s.agents[npc].reasoning
            && r.lastGlobalSpeechAt == s.lastGlobalSpeechAt
            && (SpeaksPolitely(env) && !(Utters(s, npc, d) && Accepted(SayAction(d.speech.value))) ==> Silent(s, r))
  {
    UtteranceIsBooked(env, s, npc, d, reason);
    var s1 := Uttered(env, s, npc, d, reason);
    ActionsActOut(env, s1, npc, kept, d.speech.Some?, reason);
    if SpeaksPolitely(env) {
      SilenceKeepsBooks(env, s1, Acted(env, s1, npc, kept, d.speech.Some?, reason), npc);
    }
  }

  /** Passing the cooldown check clears the way for the line about to be spoken. */
  lemma PolicyClears(env: Env, s: Sys, npc: string, d: Decision, reason: Reason)
    requires npc in s.agents && OwnBooked(env, s) && AllBooked(env, s)
    requires PolicyApplies(d, reason)
    requires !CoolingDown(env.clock(s.ticks), s.agents[npc].lastSpokenAt, s.lastGlobalSpeechAt,
                          env.settings.cooldown, env.settings.globalCooldown)
    ensures MaySay(env, Apply(env, s, ReadClock), npc, reason)
  {
    if SteadyClock(env) {
      assert env.clock(s.ticks) <= env.clock(s.ticks + 1);
    }
  }

  lemma SpeakingSettles(env: Env, s: Sys, npc: string, d: Decision, reason: Reason)
    requires Live(env, s) && npc in s.agents && MayReason(s.ledger.State(npc))
    requires OwnBooked(env, s) && AllBooked(env, s)
    requires SpeaksPolitely(env) ==> !Has(d.actions, Say)
    ensures var r := Spoke(env, s, npc, d, reason);
            && Live(env, r) && OnlyThinks(s, r, npc)
            && OwnBooked(env, r) && AllBooked(env, r)
            && r.agents[npc].reasoning == s.agents[npc].reasoning
  {
    if !PolicyApplies(d, reason) {
      ExecutionSettles(env, s, npc, d, reason);
    } else {
      var s1 := Ponder(env, s, ReadClock, npc);
      SilenceKeepsBooks(env, s, s1, npc);
      if CoolingDown(env.clock(s.ticks), s.agents[npc].lastSpokenAt, s.lastGlobalSpeechAt,
                     env.settings.cooldown, env.settings.globalCooldown) {
        ExecutionSettles(env, s1, npc, d.(speech := None), reason);
      } else {
        PolicyClears(env, s, npc, d, reason);
        ExecutionSettles(env, s1, npc, d, reason);
      }
    }
  }

  lemma GuardStaysPolite(env: Env, s: Sys, npc: string, trigger: Option<Trigger>)
    requires SpeaksPolitely(env)
    ensures !Has(Decided(env, s, npc, trigger).actions, Say)
  {
    GuardAddsNoSpeech(env.decide(s.turns), trigger, env.courage(npc));
    assert !Has(env.decide(s.turns).actions, Say);
  }

  /** An idle plan is only made for an NPC that is free to act on it. */
  ghost predicate IdleFits(s: Sys, npc: string, reason: Reason) {
    reason == Idle ==>
      npc !in s.desk.Busy() && s.ledger.State(npc) == AIActive && !Overlaid(s, npc) && npc in s.tracked
  }

  lemma OpeningMutters(env: Env, s: Sys, npc: string, reason: Reason)
    requires Live(env, s) && npc in s.agents && MayReason(s.ledger.State(npc))
    ensures var r := Opened(env, s, npc, reason);
            && Live(env, r) && OnlyThinks(s, r, npc) && Silent(s, r)
            && r.agents[npc].lastSpokenAt == s.agents[npc].lastSpokenAt
            && r.lastGlobalSpeechAt == s.lastGlobalSpeechAt
            && r.desk == s.desk
  {
    var s0 := Ponder(env, s, Revise(npc, s.agents[npc].(reasoning := true, lastDecisionAt := env.clock(s.ticks))), npc);
    var s1 := Ponder(env, s0, ReadClock, npc);
    if Gestures(env, s1, npc) {
      var s2 := Ponder(env, s1, Dispatch(npc, Think, reason), npc);
    }
  }

  lemma ConclusionSettles(env: Env, s: Sys, npc: string)
    requires Live(env, s) && npc in s.agents && OwnBooked(env, s) && AllBooked(env, s)
    requires forall n <- s.agents :: n != npc ==> !s.agents[n].reasoning
    ensures var r := Concluded(env, s, npc);
            Live(env, r) && OnlyThinks(s, r, npc) && Settled(env, r)
  {
    var s1 := Ponder(env, s, Revise(npc, s.agents[npc].(lastDecisionAt := env.clock(s.ticks), reasoning := false)), npc);
    SilenceKeepsBooks(env, s, s1, npc);
    var s2 := Ponder(env, s1, ReadClock, npc);
    SilenceKeepsBooks(env, s1, s2, npc);
  }

  lemma AnswerSettles(env: Env, s: Sys, npc: string, d: Decision, reason: Reason)
    requires Live(env, s) && npc in s.agents && MayReason(s.ledger.State(npc)) && IdleFits(s, npc, reason)
    requires OwnBooked(env, s) && AllBooked(env, s)
    requires forall n <- s.agents :: n != npc ==> !s.agents[n].reasoning
    requires SpeaksPolitely(env) ==> !Has(d.actions, Say)
    ensures var r := Answered(env, s, npc, d, reason);
            Live(env, r) && OnlyThinks(s, r, npc) && Settled(env, r)
  {
    var s1 := Ponder(env, s, Consult(npc, reason), npc);
    SilenceKeepsBooks(env, s, s1, npc);
    SpeakingSettles(env, s1, npc, d, reason);
    ConclusionSettles(env, Spoke(env, s1, npc, d, reason), npc);
  }

  lemma ThoughtSettles(env: Env, s: Sys, npc: string, reason: Reason, trigger: Option<Trigger>)
    requires Live(env, s) && Settled(env, s) && npc in s.agents && MayReason(s.ledger.State(npc))
    requires IdleFits(s, npc, reason)
    ensures var r := Thought(env, s, npc, reason, trigger);
            Live(env, r) && OnlyThinks(s, r, npc) && Settled(env, r)
  {
    OpeningMutters(env, s, npc, reason);
    var s1 := Opened(env, s, npc, reason);
    SilenceKeepsBooks(env, s, s1, npc);
    if SpeaksPolitely(env) {
      GuardStaysPolite(env, s1, npc, trigger);
    }
    AnswerSettles(env, s1, npc, Decided(env, s1, npc, trigger), reason);
  }

  /** The frame of an asked-for turn, taken or not. */
  ghost predicate AfterTurn(env: Env, s: Sys, r: Sys, npc: string) {
    && r.ledger == s.ledger.Seen(npc) && r.queue == s.queue && r.reasons == s.reasons && r.tracked == s.tracked
    && r.agents.Keys == s.agents.Keys + {npc} && r.agentOrder == Met(env, s, npc).agentOrder
    && (forall n <- s.agents :: r.agents[n].dialogueOnly == s.agents[n].dialogueOnly)
    && (forall n <- s.agents :: n != npc ==> r.agents[n] == s.agents[n])
    && (npc !in s.agents ==> !r.agents[npc].dialogueOnly)
    && r.desk.Busy() <= s.desk.Busy() + {npc}
  }

  lemma MeetingSettles(env: Env, s: Sys, npc: string)
    requires Live(env, s) && Settled(env, s)
    ensures var r := Apply(env, Apply(env, s, Meet(npc)), See(npc));
            Live(env, r) && Settled(env, r) && AfterTurn(env, s, r, npc) && r.desk == s.desk
  {
    EnabledActsStayLive(env, s, Meet(npc));
    EnabledActsStayLive(env, Apply(env, s, Meet(npc)), See(npc));
  }

  /** Asking for a turn keeps the state live and settled, whatever the backend answers. */
  lemma TurnSettles(env: Env, s: Sys, npc: string, reason: Reason, trigger: Option<Trigger>)
    requires Live(env, s) && Settled(env, s) && IdleFits(s, npc, reason)
    ensures var r := Turned(env, s, npc, reason, trigger);
            Live(env, r) && Settled(env, r) && AfterTurn(env, s, r, npc)
  {
    MeetingSettles(env, s, npc);
    var seen := Apply(env, Apply(env, s, Meet(npc)), See(npc));
    if TakesTurn(env, seen, npc) {
      ThoughtSettles(env, seen, npc, reason, trigger);
    }
  }
}
