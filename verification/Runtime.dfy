/** The runtime as the program performs it.  Its methods change the runtime's
    fields step by step; each is proved to realise the step of the transition
    system whose runs the other modules speak of. */
module Runtime {
  import opened Common
  import opened Names
  import opened Ownership
  import opened Decisions
  import opened Journal
  import opened Dispatching
  import opened Transport
  import opened Scheduler
  import opened Turns
  import opened Handlers
  import opened HandlerProofs

  /** Did a tool reach the bridge? */
  datatype ToolResult = ToolResult(tool: Tool, started: bool)

  predicate SaidSomething(results: seq<ToolResult>) {
    exists r <- results :: r.tool == Say && r.started
  }

  lemma SayingInEither(a: seq<ToolResult>, b: seq<ToolResult>)
    ensures SaidSomething(a + b) <==> SaidSomething(a) || SaidSomething(b)
  {
  }

  class NpcAgentRuntime {
    const env: Env
    const ownership: Manager
    const dispatcher: Dispatcher
    const recorder: Recorder
    var agentState: map<string, Agent>
    var agentOrder: seq<string>
    var lastPedScan: map<string, Ped>
    var lastGlobalSpeechAt: real
    var deferredOrder: seq<string>
    var deferredReason: map<string, Reason>
    /** How often the backend was asked. */
    var turns: nat

    /** The state as a value. */
    ghost function S(): Sys
      reads this, ownership, dispatcher, recorder
    {
      Sys(ownership.Contents(), deferredOrder, deferredReason, agentState, agentOrder, lastPedScan.Keys,
          dispatcher.Book(), lastGlobalSpeechAt, recorder.log, turns, recorder.ticks, recorder.nextId)
    }

    ghost predicate Valid()
      reads this, ownership, dispatcher
    {
      && dispatcher.recorder == recorder && dispatcher.Valid()
      && recorder.clock == env.clock
      && ownership.Valid()
      && 0.0 <= env.settings.candidateDistance
    }

    constructor (env: Env)
      requires 0.0 <= env.settings.candidateDistance
      ensures Valid() && S() == START && this.env == env
      ensures fresh(ownership) && fresh(dispatcher) && fresh(recorder)
    {
      this.env := env;
      var manager := new Manager();
      var journal := new Recorder(env.clock);
      var desk := new Dispatcher(journal);
      ownership, recorder, dispatcher := manager, journal, desk;
      agentState, agentOrder, lastPedScan, lastGlobalSpeechAt := map[], [], map[], 0.0;
      deferredOrder, deferredReason, turns := [], map[], 0;
    }

    // -------------------------------------------------------------------
    // Per-NPC bookkeeping
    // -------------------------------------------------------------------

    /** The newest goal event decides: a completed goal leaves none. */
    method RehydrateGoal(recent: seq<Item>) returns (goal: Option<string>)
      requires forall f <- recent :: f.Fact?
      ensures goal == GoalAfter(recent)
    {
      goal := None;
      var index := |recent|;
      assert recent[..index] == recent;
      while index > 0
        invariant 0 <= index <= |recent|
        invariant goal == None && GoalAfter(recent) == GoalAfter(recent[..index])
      {
        index := index - 1;
        var event := recent[index];
        assert recent[..index + 1][..index] == recent[..index];
        if event.name == GoalCompleted {
          break;
        }
        if event.name == GoalCreated || event.name == GoalChanged {
          if event.payload.GoalText? {
            goal := Some(event.payload.goal);
          }
          break;
        }
      }
    }

    method AgentStateLocked(npc: string)
      requires Valid()
      modifies this`agentState, this`agentOrder
      ensures Valid() && S() == Met(env, old(S()), npc) && npc in agentState
    {
      if npc in agentState {
        return;
      }
      var recent := Tail(Timeline(env.archive + recorder.log, npc), REHYDRATION_WINDOW);
      TimelineHasFacts(env.archive + recorder.log, npc);
      var goal := RehydrateGoal(recent);
      agentState := agentState[npc := NewAgent(goal, |recorder.log|)];
      agentOrder := agentOrder + [npc];
    }

    // -------------------------------------------------------------------
    // The queue of deferred activations
    // -------------------------------------------------------------------

    method SetDeferred(npc: string, reason: Reason)
      requires Valid()
      modifies this`deferredOrder, this`deferredReason
      ensures Valid() && S() == Queued(old(S()), npc, reason)
    {
      if npc !in deferredReason {
        deferredOrder := deferredOrder + [npc];
      }
      deferredReason := deferredReason[npc := reason];
    }

    method RemoveDeferred(npc: string)
      requires Valid()
      modifies this`deferredOrder, this`deferredReason
      ensures Valid() && S() == Unqueued(old(S()), npc)
    {
      if npc !in deferredReason {
        return;
      }
      deferredReason := map k | k in deferredReason && k != npc :: deferredReason[k];
      assert deferredReason == old(deferredReason) - {npc};
      for index := 0 to |deferredOrder|
        invariant deferredOrder == old(deferredOrder) && deferredReason == old(deferredReason) - {npc}
        invariant npc !in deferredOrder[..index]
      {
        if deferredOrder[index] == npc {
          DropAt(deferredOrder, npc, index);
          deferredOrder := deferredOrder[..index] + deferredOrder[index + 1..];
          return;
        }
      }
      DropAbsent(deferredOrder, npc);
    }

    /** Removes and returns the oldest queued NPC, passing over entries without a reason. */
    method PopDeferred() returns (npc: string, reason: Reason, ok: bool, ghost stale: nat)
      requires Valid()
      modifies this`deferredOrder, this`deferredReason
      ensures Valid() && stale <= |old(deferredOrder)|
      ensures forall i :: 0 <= i < stale ==> old(deferredOrder[i] !in deferredReason)
      ensures ok ==>
                && stale < |old(deferredOrder)| && npc == old(deferredOrder)[stale] && npc in old(deferredReason)
                && reason == old(deferredReason)[npc]
                && S() == Apply(env, old(S()).(queue := old(deferredOrder)[stale..]), Pop)
      ensures !ok ==> stale == |old(deferredOrder)| && S() == old(S()).(queue := [])
    {
      stale := 0;
      while deferredOrder != []
        invariant stale <= |old(deferredOrder)| && deferredOrder == old(deferredOrder)[stale..]
        invariant deferredReason == old(deferredReason)
        invariant forall i :: 0 <= i < stale ==> old(deferredOrder)[i] !in old(deferredReason)
        decreases |deferredOrder|
      {
        npc := deferredOrder[0];
        deferredOrder := deferredOrder[1..];
        if npc in deferredReason {
          reason := deferredReason[npc];
          deferredReason := map k | k in deferredReason && k != npc :: deferredReason[k];
          assert deferredReason == old(deferredReason) - {npc};
          return npc, reason, true, stale;
        }
        stale := stale + 1;
      }
      return "", Idle, false, stale;
    }

    // -------------------------------------------------------------------
    // Executing a decision
    // -------------------------------------------------------------------

    method AppendEvent(npc: string, name: EventName, payload: Payload)
      requires Valid()
      modifies recorder`log
      ensures Valid() && S() == Logged(old(S()), Fact(npc, name, ByRuntime, payload))
    {
      recorder.Append(Fact(npc, name, ByRuntime, payload));
    }

    method DispatchTool(npc: string, tool: Tool, reason: Reason)
      requires Valid()
      modifies dispatcher`pending, dispatcher`order, recorder
      ensures Valid() && S() == Apply(env, old(S()), Dispatch(npc, tool, reason))
    {
      dispatcher.Dispatch(npc, tool, reason);
    }

    /** Runs one tool; a handler that misses its argument refuses. */
    method CallTool(npc: string, a: Action, reason: Reason) returns (result: ToolResult)
      requires Valid()
      modifies dispatcher`pending, dispatcher`order, recorder
      ensures Valid() && S() == Called(env, old(S()), npc, a, reason)
      ensures result == ToolResult(a.tool, Accepted(a))
    {
      var filtered := map k | k in a.args && a.args[k] != Nil :: a.args[k];
      assert filtered == WithoutNil(a.args);
      if !HandlerAccepts(a.tool, filtered) {
        return ToolResult(a.tool, false);
      }
      DispatchTool(npc, a.tool, reason);
      return ToolResult(a.tool, true);
    }

    method StabilizeDecision(npc: string, d: Decision) returns (normalized: seq<Action>)
      requires Valid()
      modifies recorder`log
      ensures Valid()
      ensures var plan := Stabilize(d, d.actions, Lookup(env, old(S())));
              normalized == plan.kept && S() == Failures(env, old(S()), npc, plan.failed)
    {
      ghost var s := S();
      ghost var look := Lookup(env, s);
      normalized := [];
      ghost var plan := Stabilized([], []);
      for i := 0 to |d.actions|
        invariant Valid() && turns == s.turns
        invariant plan == Stabilize(d, d.actions[..i], look) && normalized == plan.kept
        invariant S() == Failures(env, s, npc, plan.failed)
      {
        assert d.actions[..i + 1][..i] == d.actions[..i];
        FailuresAppend(env, s, npc, plan.failed, d.actions[i].tool);
        var fixed, ok := RepairOrReport(npc, d, d.actions[i]);
        if ok {
          normalized := normalized + [fixed];
        }
        plan := Judged(plan, d.actions[i], Normalize(d, d.actions[i], look));
      }
      assert d.actions[..|d.actions|] == d.actions;
    }

    /** Repairs one action; a rejection that has a reason is put on the timeline. */
    method RepairOrReport(npc: string, d: Decision, a: Action) returns (fixed: Action, ok: bool)
      requires Valid()
      modifies recorder`log
      ensures Valid()
      ensures var v := Normalize(d, a, Lookup(env, old(S())));
              && ok == v.Keep? && (ok ==> fixed == v.action)
              && S() == if v.Keep? || v.reason == "" then old(S())
                        else Logged(old(S()), Fact(npc, ActionFailed, ByRuntime, Plain))
    {
      var reason: string;
      fixed, reason, ok := NormalizeAction(d, a, Lookups(env.parseFloat, env.recentPosition(turns)));
      if !ok && reason != "" {
        AppendEvent(npc, ActionFailed, Plain);
      }
    }

    /** Rockstar owns a quest NPC's body: only speech is kept. */
    method KeepSpeech(npc: string, actions: seq<Action>) returns (allowed: seq<Action>)
      requires Valid()
      modifies recorder`log
      ensures Valid()
      ensures var plan := SpeechOnly(actions);
              allowed == plan.kept && S() == Failures(env, old(S()), npc, plan.failed)
    {
      ghost var s := S();
      allowed := [];
      ghost var failed: seq<Tool> := [];
      for i := 0 to |actions|
        invariant Valid()
        invariant SpeechOnly(actions[..i]) == Stabilized(allowed, failed)
        invariant S() == Failures(env, s, npc, failed)
      {
        assert actions[..i + 1][..i] == actions[..i];
        if actions[i].tool == Say {
          allowed := allowed + [actions[i]];
        } else {
          AppendEvent(npc, ActionFailed, Plain);
          FailuresAppend(env, s, npc, failed, actions[i].tool);
          failed := failed + [actions[i].tool];
        }
      }
      assert actions[..|actions|] == actions;
    }

    method TakeGoal(npc: string, d: Decision)
      requires Valid() && npc in agentState
      modifies this`agentState, recorder`log
      ensures Valid() && npc in agentState && S() == GoalTaken(env, old(S()), npc, d)
    {
      var st := agentState[npc];
      if d.goal.Some? && d.goal.value != "" && (st.goal.None? || st.goal.value != d.goal.value) {
        var name := GoalChanged;
        if st.goal.None? {
          name := GoalCreated;
        }
        AppendEvent(npc, name, GoalText(d.goal.value));
        agentState := agentState[npc := st.(goal := Some(d.goal.value))];
      }
    }

    method TakeMood(npc: string, d: Decision)
      requires Valid() && npc in agentState
      modifies this`agentState
      ensures Valid() && npc in agentState && S() == MoodTaken(env, old(S()), npc, d)
    {
      if d.mood.Some? && d.mood.value != "" {
        agentState := agentState[npc := agentState[npc].(mood := d.mood.value)];
      }
    }

    /** Speaks the decision's own line, if the owner state allows speech. */
    method Utter(npc: string, d: Decision, reason: Reason) returns (results: seq<ToolResult>)
      requires Valid() && npc in agentState && npc in ownership.records
      modifies this`agentState, ownership, dispatcher`pending, dispatcher`order, recorder
      ensures Valid() && npc in agentState
      ensures S() == Uttered(env, old(S()), npc, d, reason)
      ensures SaidSomething(results) <==> old(Utters(S(), npc, d)) && Accepted(SayAction(d.speech.value))
    {
      results := [];
      if d.speech.None? {
        return;
      }
      var allowed := ownership.CanSpeak(npc);
      assert S() == old(S());
      if allowed {
        var args := SpeechArguments(d.speech.value);
        var result := CallTool(npc, Action(Say, args), reason);
        results := results + [result];
        assert results == [result] && result in results;
        MarkSpeech(npc);
      }
    }

    method SpeechArguments(speech: Speech) returns (args: Args)
      ensures Action(Say, args) == SayAction(speech)
    {
      args := map[Text := Str(speech.text)];
      if speech.target != "" {
        args := args[OtherKey("target") := Str(speech.target)];
      }
      if speech.emotion != "" {
        args := args[OtherKey("emotion") := Str(speech.emotion)];
      }
    }

    method MarkSpeech(npc: string)
      requires Valid() && npc in agentState
      modifies this`agentState, recorder`ticks
      ensures Valid() && npc in agentState && S() == SpeechMarked(env, old(S()), npc)
    {
      var now := recorder.Now();
      agentState := agentState[npc := agentState[npc].(lastSpokenAt := now)];
    }

    method RunActions(npc: string, actions: seq<Action>, speaks: bool, reason: Reason) returns (results: seq<ToolResult>)
      requires Valid()
      modifies dispatcher`pending, dispatcher`order, recorder
      ensures Valid() && S() == Acted(env, old(S()), npc, actions, speaks, reason)
      ensures SaidSomething(results) <==> !speaks && exists a <- actions :: a.tool == Say && Accepted(a)
    {
      ghost var s := S();
      results := [];
      for i := 0 to |actions|
        invariant Valid() && S() == Acted(env, s, npc, actions[..i], speaks, reason)
        invariant forall r <- results :: r.tool == Say && r.started ==>
                    !speaks && exists a <- actions :: a.tool == Say && Accepted(a)
        invariant forall j :: 0 <= j < i && !speaks ==> ToolResult(actions[j].tool, Accepted(actions[j])) in results
      {
        assert actions[..i + 1][..i] == actions[..i];
        var action := actions[i];
        if !(action.tool == Say && speaks) {
          var result := CallTool(npc, action, reason);
          results := results + [result];
        }
      }
      assert actions[..|actions|] == actions;
      forall a | a in actions && !speaks
        ensures ToolResult(a.tool, Accepted(a)) in results
      {
        var j :| 0 <= j < |actions| && actions[j] == a;
      }
    }

    /** The shared speech clock is stamped at the first line that was started. */
    method StampSpokenLine(results: seq<ToolResult>)
      requires Valid()
      modifies this`lastGlobalSpeechAt, recorder`ticks
      ensures Valid()
      ensures S() == if SaidSomething(results) then Apply(env, old(S()), StampSpeech) else old(S())
    {
      for i := 0 to |results|
        invariant Valid() && S() == old(S())
        invariant forall j :: 0 <= j < i ==> !(results[j].tool == Say && results[j].started)
      {
        if results[i].tool == Say && results[i].started {
          var now := recorder.Now();
          lastGlobalSpeechAt := now;
          assert results[i] in results;
          return;
        }
      }
    }

    /** Repairs the actions, logs what is dropped, adopts goal and mood. */
    method PrepareDecision(npc: string, d: Decision) returns (actions: seq<Action>)
      requires Valid() && npc in agentState
      modifies this`agentState, recorder`log
      ensures Valid() && npc in agentState
      ensures S() == Prepared(env, old(S()), npc, d) && actions == Filtered(env, old(S()), npc, d).kept
    {
      if agentState[npc].dialogueOnly {
        actions := KeepSpeech(npc, d.actions);
      } else {
        actions := StabilizeDecision(npc, d);
      }
      TakeGoal(npc, d);
      TakeMood(npc, d);
    }

    method ExecuteDecision(npc: string, d: Decision, reason: Reason)
      requires Valid() && npc in agentState && npc in ownership.records
      modifies this`agentState, this`lastGlobalSpeechAt, ownership, dispatcher`pending, dispatcher`order, recorder
      ensures Valid() && npc in agentState
      ensures S() == Executed(env, old(S()), npc, d, reason)
    {
      var actions := PrepareDecision(npc, d);
      assert Utters(S(), npc, d) == old(Utters(S(), npc, d));
      var said := Utter(npc, d, reason);
      var done := RunActions(npc, actions, d.speech.Some?, reason);
      SayingInEither(said, done);
      StampSpokenLine(said + done);
    }

    // -------------------------------------------------------------------
    // A reasoning turn
    // -------------------------------------------------------------------

    /** How many NPCs are reasoning; the map is walked in no particular order. */
    method ReasoningCount() returns (active: nat)
      ensures active == |Reasoning(S())|
    {
      active := 0;
      ghost var seen: set<string> := {};
      var left := agentState.Keys;
      while left != {}
        invariant left <= agentState.Keys
        invariant active == |seen|
        invariant forall n :: n in seen <==> n in agentState.Keys - left && agentState[n].reasoning
        decreases |left|
      {
        var npc :| npc in left;
        if agentState[npc].reasoning {
          active := active + 1;
          seen := seen + {npc};
        }
        left := left - {npc};
      }
      assert seen == Reasoning(S());
    }

    /** Plays a short thinking gesture while the backend generates. */
    method EmitWaitGesture(npc: string, reason: Reason)
      requires Valid() && npc in agentState && npc in ownership.records
      modifies ownership, dispatcher`pending, dispatcher`order, recorder
      ensures Valid() && npc in ownership.records
      ensures S() == if Gestures(env, old(S()), npc) then Apply(env, old(S()), Dispatch(npc, Think, reason)) else old(S())
    {
      if !env.settings.waitGestures || agentState[npc].dialogueOnly {
        return;
      }
      var state := ownership.State(npc);
      assert S() == old(S());
      if state == AIActive || state == AIConversation {
        DispatchTool(npc, Think, reason);
      }
    }

    /** Enforces the speech cooldowns unless the turn is an answer or urgent. */
    method ApplySpeechPolicy(npc: string, d: Decision, reason: Reason) returns (allowed: Decision)
      requires Valid() && npc in agentState
      modifies recorder`ticks
      ensures Valid()
      ensures !PolicyApplies(d, reason) ==> S() == old(S()) && allowed == d
      ensures PolicyApplies(d, reason) ==>
                && S() == Apply(env, old(S()), ReadClock)
                && allowed == if CoolingDown(env.clock(old(recorder.ticks)), agentState[npc].lastSpokenAt,
                                             lastGlobalSpeechAt, env.settings.cooldown, env.settings.globalCooldown)
                              then d.(speech := None) else d
    {
      allowed := d;
      if d.speech.None? || Exempt(reason) {
        return;
      }
      var now := recorder.Now();
      if now - agentState[npc].lastSpokenAt < env.settings.cooldown {
        return d.(speech := None);
      }
      if now - lastGlobalSpeechAt < env.settings.globalCooldown {
        allowed := d.(speech := None);
      }
    }

    method Speak(npc: string, d: Decision, reason: Reason)
      requires Valid() && npc in agentState && npc in ownership.records
      modifies this`agentState, this`lastGlobalSpeechAt, ownership, dispatcher`pending, dispatcher`order, recorder
      ensures Valid() && npc in agentState && S() == Spoke(env, old(S()), npc, d, reason)
    {
      var allowed := ApplySpeechPolicy(npc, d, reason);
      ExecuteDecision(npc, allowed, reason);
    }

    /** Asks the backend; its answer is guarded unless only dialogue is allowed. */
    method CallBackend(npc: string, reason: Reason, trigger: Option<Trigger>) returns (decision: Decision)
      requires Valid() && npc in agentState && npc in ownership.records
      modifies this`turns, ownership, recorder`log
      ensures Valid() && npc in ownership.records
      ensures S() == Apply(env, old(S()), Consult(npc, reason))
      ensures decision == Decided(env, old(S()), npc, trigger)
    {
      var owner := ownership.State(npc);
      assert S() == old(S());
      recorder.Append(Consulted(npc, reason, owner));
      decision := env.decide(turns);
      turns := turns + 1;
      if !agentState[npc].dialogueOnly {
        decision := ApplyBehaviorGuardrails(decision, trigger, env.courage(npc));
      }
    }

    /** The turn starts: the NPC is marked as reasoning and may gesture. */
    method Open(npc: string, reason: Reason)
      requires Valid() && npc in agentState && npc in ownership.records
      modifies this`agentState, ownership, dispatcher`pending, dispatcher`order, recorder
      ensures Valid() && npc in agentState && npc in ownership.records
      ensures S() == Opened(env, old(S()), npc, reason)
    {
      MarkReasoning(npc);
      EmitWaitGesture(npc, reason);
    }

    method MarkReasoning(npc: string)
      requires Valid() && npc in agentState
      modifies this`agentState, recorder`ticks
      ensures Valid() && npc in agentState
      ensures var s := old(S());
              S() == Apply(env, Apply(env, s, Revise(npc, s.agents[npc].(reasoning := true,
                                                                           lastDecisionAt := env.clock(s.ticks)))), ReadClock)
    {
      var now := recorder.Now();
      agentState := agentState[npc := agentState[npc].(reasoning := true, lastDecisionAt := now)];
    }

    method Conclude(npc: string)
      requires Valid() && npc in agentState
      modifies this`agentState, recorder`ticks
      ensures Valid() && npc in agentState && S() == Concluded(env, old(S()), npc)
    {
      var now := recorder.Now();
      agentState := agentState[npc := agentState[npc].(lastDecisionAt := now, reasoning := false)];
    }

    method ScheduleReasoning(npc: string, reason: Reason, trigger: Option<Trigger>)
      requires Valid()
      modifies this`agentState, this`agentOrder, this`lastGlobalSpeechAt, this`turns
      modifies ownership, dispatcher`pending, dispatcher`order, recorder
      ensures Valid() && npc in agentState && S() == Turned(env, old(S()), npc, reason, trigger)
    {
      AgentStateLocked(npc);
      if agentState[npc].reasoning {
        return;
      }
      var allowed := ownership.CanReason(npc);
      var active := ReasoningCount();
      assert S() == Apply(env, Apply(env, old(S()), Meet(npc)), See(npc));
      if !allowed || active >= env.settings.maxReasoning {
        return;
      }
      TakeTurn(npc, reason, trigger);
    }

    method TakeTurn(npc: string, reason: Reason, trigger: Option<Trigger>)
      requires Valid() && npc in agentState && npc in ownership.records
      modifies this`agentState, this`lastGlobalSpeechAt, this`turns
      modifies ownership, dispatcher`pending, dispatcher`order, recorder
      ensures Valid() && npc in agentState && S() == Thought(env, old(S()), npc, reason, trigger)
    {
      Open(npc, reason);
      var decision := CallBackend(npc, reason, trigger);
      Speak(npc, decision, reason);
      Conclude(npc);
    }

    // -------------------------------------------------------------------
    // Scheduling: activation, deferral, promotion, recorded transitions
    // -------------------------------------------------------------------

    /** Who owns an NPC; looking it up creates its record on first sight. */
    method OwnerState(npc: string) returns (state: OwnershipState)
      requires Valid()
      modifies ownership
      ensures Valid() && npc in ownership.records
      ensures S() == Apply(env, old(S()), See(npc)) && state == S().ledger.State(npc)
      ensures npc in old(ownership.records) ==> S() == old(S())
    {
      state := ownership.State(npc);
    }

    /** How many NPCs hold an active-agent slot. */
    method ActiveAgentCount() returns (active: nat)
      requires Valid()
      modifies ownership
      ensures Valid() && S() == old(S()) && active == |Active(S())|
    {
      active := 0;
      var ids := ownership.OwnedNPCs();
      ghost var s := S();
      for i := 0 to |ids|
        invariant Valid() && S() == s
        invariant active == |ActiveAmong(s.ledger, ids[..i])|
      {
        assert ids[..i + 1][..i] == ids[..i];
        assert ids[i] in ids;
        var state := OwnerState(ids[i]);
        if state == AIActive || state == AIConversation {
          active := active + 1;
        }
      }
      assert ids[..|ids|] == ids;
      ActiveAmongCounts(s, ids);
    }

    method CanPromoteAgent(npc: string) returns (can: bool)
      requires Valid() && npc in ownership.records
      modifies ownership
      ensures Valid() && S() == old(S())
      ensures can <==> S().ledger.State(npc) in {AIActive, AIConversation} || HasSlot(env, S())
    {
      var state := OwnerState(npc);
      if state == AIActive || state == AIConversation {
        return true;
      }
      var active := ActiveAgentCount();
      can := active < env.settings.maxReasoning;
    }

    /** The hand-off clean-up of a move to RELEASE or ROCKSTAR. */
    method HandOver(npc: string)
      requires Valid()
      modifies this`deferredOrder, this`deferredReason, this`agentState, this`agentOrder, recorder`log
      ensures Valid() && S() == HandedOver(env, old(S()), npc)
    {
      RemoveDeferred(npc);
      AgentStateLocked(npc);
      agentState := agentState[npc := agentState[npc].(dialogueOnly := false)];
      recorder.Append(HandedOff(npc));
    }

    method Announce(move: Move)
      requires Valid()
      modifies recorder`log
      ensures Valid() && S() == Announced(old(S()), move)
    {
      var name := move.EventName();
      if name.None? && move.to == AIConversation {
        name := Some(ConversationStarted);
      }
      if name.Some? {
        AppendEvent(move.npc, name.value, Plain);
      }
    }

    /** Persists a transition; a release is finalised and makes room for others. */
    method RecordTransition(move: Move)
      requires Valid()
      modifies this, ownership, dispatcher, recorder
      ensures Valid() && S() == Recorded(env, old(S()), move)
      decreases if move.to == Release then 5 else 0
    {
      Announce(move);
      if move.to == Release || move.to == Rockstar {
        HandOver(move.npc);
      }
      if move.to == Release {
        FinalizeTransition(move);
        PromoteNextDeferred();
      }
    }

    method FinalizeTransition(move: Move)
      requires Valid()
      modifies ownership
      ensures Valid() && S() == old(S()).(ledger := Finalized(old(S()).ledger, move.npc))
    {
      var finalized := ownership.FinalizeRelease(move.npc);
    }

    /** Promotes the oldest deferred AWARE NPCs while slots are free. */
    method PromoteNextDeferred()
      requires Valid()
      modifies this, ownership, dispatcher, recorder
      ensures Valid() && S() == Promoted(env, old(S()))
      decreases 4
    {
      var active := ActiveAgentCount();
      while deferredOrder != [] && active < env.settings.maxReasoning
        invariant Valid() && Promoted(env, S()) == Promoted(env, old(S()))
        invariant active == |Active(S())|
        decreases |deferredOrder|
      {
        var ok := PromoteOldest();
        if !ok {
          return;
        }
        active := ActiveAgentCount();
      }
    }

    /** Takes the oldest deferred NPC and activates it if it is still AWARE. */
    method PromoteOldest() returns (ok: bool)
      requires Valid() && HasSlot(env, S())
      modifies this, ownership, dispatcher, recorder
      ensures Valid() && Promoted(env, S()) == Promoted(env, old(S()))
      ensures if ok then |deferredOrder| < |old(deferredOrder)| else deferredOrder == []
      decreases 3
    {
      ghost var s := S();
      var npc, reason, found, stale := PopDeferred();
      PassingStale(env, s, stale);
      if !found {
        return false;
      }
      PoppingIsPromoting(env, s.(queue := s.queue[stale..]));
      var state := OwnerState(npc);
      if state == Aware {
        SlotAfterPop(env, s, S());
        StirredWithSlot(env, S(), npc, Promotion(reason));
        MakeMeaningful(npc, Promotion(reason), None);
      }
      return true;
    }

    /** Promotes an AWARE NPC on a meaningful trigger, or defers it when the
        slots are taken. */
    method MakeMeaningful(npc: string, reason: Reason, trigger: Option<Trigger>)
      requires Valid()
      modifies this, ownership, dispatcher, recorder
      ensures Valid() && S() == Stirred(env, old(S()), npc, reason, trigger)
      decreases 2, 1
    {
      var state := OwnerState(npc);
      if state == Aware {
        StirAware(npc, reason, trigger);
      } else {
        ReasonIfAllowed(npc, reason, trigger);
      }
    }

    method StirAware(npc: string, reason: Reason, trigger: Option<Trigger>)
      requires Valid() && npc in ownership.records && S().ledger.State(npc) == Aware
      modifies this, ownership, dispatcher, recorder
      ensures Valid() && S() == Woken(env, old(S()), npc, reason, trigger)
      decreases 2, 0
    {
      var can := CanPromoteAgent(npc);
      if !can {
        DeferActivation(npc, reason);
        return;
      }
      Activate(npc);
      ReasonIfAllowed(npc, reason, trigger);
    }

    method DeferActivation(npc: string, reason: Reason)
      requires Valid()
      modifies this`deferredOrder, this`deferredReason, recorder`log
      ensures Valid() && S() == Apply(env, old(S()), Defer(npc, reason))
    {
      SetDeferred(npc, reason);
      AppendEvent(npc, AgentActivationDeferred, Plain);
    }

    method ReasonIfAllowed(npc: string, reason: Reason, trigger: Option<Trigger>)
      requires Valid() && npc in ownership.records
      modifies this`agentState, this`agentOrder, this`lastGlobalSpeechAt, this`turns
      modifies ownership, dispatcher`pending, dispatcher`order, recorder
      ensures Valid() && S() == Roused(env, old(S()), npc, reason, trigger)
    {
      var allowed := ownership.CanReason(npc);
      assert S() == old(S());
      if allowed {
        ScheduleReasoning(npc, reason, trigger);
      }
    }

    /** The transition by which a meaningful trigger activates an AWARE NPC. */
    method Activate(npc: string)
      requires Valid() && npc in ownership.records && S().ledger.State(npc) == Aware
      modifies this, ownership, dispatcher, recorder
      ensures Valid() && npc in ownership.records
      ensures S() == Apply(env, old(S()), Shift(npc, Scan(TriggerUpdate(env))))
      decreases 1
    {
      ShiftByParts(env, S(), npc, Scan(TriggerUpdate(env)));
      var move := ownership.UpdateFromScan(npc, TriggerUpdate(env));
      if move.Some? {
        RecordTransition(move.value);
      }
    }

    // -------------------------------------------------------------------
    // Ownership operations, each recorded
    // -------------------------------------------------------------------

    method RecordIfAny(move: Option<Move>)
      requires Valid()
      modifies this, ownership, dispatcher, recorder
      ensures Valid() && S() == if move.Some? then Recorded(env, old(S()), move.value) else old(S())
    {
      if move.Some? {
        RecordTransition(move.value);
      }
    }

    method EndTalking(npc: string)
      requires Valid()
      modifies this, ownership, dispatcher, recorder
      ensures Valid() && S() == Carried(env, old(S()), npc, EndTalk)
      ensures S() == Apply(env, old(S()), Shift(npc, EndTalk))
    {
      CarryByParts(env, S(), npc, EndTalk);
      EndingTalkReleasesNobody(env, S(), npc);
      var move := ownership.ConversationEnded(npc);
      RecordIfAny(move);
    }

    method StartTalking(npc: string)
      requires Valid()
      modifies this, ownership, dispatcher, recorder
      ensures Valid() && S() == Carried(env, old(S()), npc, Talk)
    {
      CarryByParts(env, S(), npc, Talk);
      var move := ownership.PushToTalk(npc);
      RecordIfAny(move);
    }

    method EnterQuestDialogue(npc: string) returns (moved: bool)
      requires Valid()
      modifies this, ownership, dispatcher, recorder
      ensures Valid() && S() == Carried(env, old(S()), npc, EnterQuest)
      ensures moved == ChangeOf(old(S()).ledger.Lookup(npc), EnterQuest).Go?
    {
      CarryByParts(env, S(), npc, EnterQuest);
      var move := ownership.EnterQuestDialogue(npc);
      RecordIfAny(move);
      return move.Some?;
    }

    method RequestRelease(npc: string, reason: Why) returns (moved: bool)
      requires Valid()
      modifies this, ownership, dispatcher, recorder
      ensures Valid() && S() == Carried(env, old(S()), npc, Op.RequestRelease(reason))
      ensures moved == ChangeOf(old(S()).ledger.Lookup(npc), Op.RequestRelease(reason)).Go?
    {
      CarryByParts(env, S(), npc, Op.RequestRelease(reason));
      var move := ownership.RequestReleaseOf(npc, reason);
      RecordIfAny(move);
      return move.Some?;
    }

    method SuspendOrResume(npc: string, active: bool, reason: Why)
      requires Valid()
      modifies this, ownership, dispatcher, recorder
      ensures Valid() && S() == Carried(env, old(S()), npc, SafetyOp(active, reason))
    {
      CarryByParts(env, S(), npc, SafetyOp(active, reason));
      var move: Option<Move>;
      if active {
        move := ownership.SuspendOwnership(npc, reason);
      } else {
        move := ownership.ResumeOwnership(npc, reason);
      }
      RecordIfAny(move);
    }

    /** A scan without a meaningful trigger never activates anybody. */
    method UpdateFromScan(npc: string, u: ScanUpdate) returns (ghost to: Option<OwnershipState>)
      requires Valid() && !u.trigger
      modifies this, ownership, dispatcher, recorder
      ensures Valid() && S() == Carried(env, old(S()), npc, Scan(u))
      ensures to != Some(AIActive)
    {
      CarryByParts(env, S(), npc, Scan(u));
      var move := ownership.UpdateFromScan(npc, u);
      to := if move.Some? then Some(move.value.to) else None;
      RecordIfAny(move);
    }

    // -------------------------------------------------------------------
    // Conversations
    // -------------------------------------------------------------------

    /** The other NPCs in conversation, in first-seen order. */
    method OthersTalking(npc: string) returns (active: seq<string>)
      requires Valid()
      modifies ownership
      ensures Valid() && S() == old(S()) && active == Talking(S().ledger, S().ledger.order, npc)
    {
      active := [];
      var ids := ownership.OwnedNPCs();
      ghost var s := S();
      for i := 0 to |ids|
        invariant Valid() && S() == s && active == Talking(s.ledger, ids[..i], npc)
      {
        assert ids[..i + 1][..i] == ids[..i];
        assert ids[i] in ids;
        if ids[i] != npc {
          var state := OwnerState(ids[i]);
          if state == AIConversation {
            active := active + [ids[i]];
          }
        }
      }
      assert ids[..|ids|] == ids;
    }

    method Silence(npc: string)
      requires Valid()
      modifies this, ownership, dispatcher, recorder
      ensures Valid() && S() == Silenced(env, old(S()), npc)
    {
      EndTalking(npc);
      NoteEvent(npc, ConversationEnded);
      StopConversing(npc);
    }

    method NoteEvent(npc: string, name: EventName)
      requires Valid()
      modifies recorder`log
      ensures Valid() && S() == Apply(env, old(S()), Note(npc, name, ByRuntime))
    {
      AppendEvent(npc, name, Plain);
    }

    method StopConversing(npc: string)
      requires Valid()
      modifies this`agentState, this`agentOrder
      ensures Valid() && S() == Apply(env, Apply(env, old(S()), Meet(npc)), Converse(npc, false))
    {
      AgentStateLocked(npc);
      SetConversing(npc, false);
    }

    method SetConversing(npc: string, on: bool)
      requires Valid()
      modifies this`agentState
      ensures Valid() && S() == Apply(env, old(S()), Converse(npc, on))
    {
      if npc in agentState {
        agentState := agentState[npc := agentState[npc].(conversing := on)];
      }
    }

    /** Ends the oldest excess conversations. */
    method EnsureSingleConversation(npc: string)
      requires Valid()
      modifies this, ownership, dispatcher, recorder
      ensures Valid() && S() == RoomMade(env, old(S()), npc)
    {
      var cap := env.settings.maxConversations;
      var active := OthersTalking(npc);
      if |active| < cap {
        return;
      }
      var stopCount := |active| - cap + 1;
      if stopCount < 0 {
        stopCount := 0;
      }
      if stopCount > |active| {
        stopCount := |active|;
      }
      SilenceAll(active[..stopCount]);
    }

    method SilenceAll(ids: seq<string>)
      requires Valid()
      modifies this, ownership, dispatcher, recorder
      ensures Valid() && S() == AllSilenced(env, old(S()), ids)
    {
      ghost var s := S();
      for i := 0 to |ids|
        invariant Valid() && S() == AllSilenced(env, s, ids[..i])
      {
        assert ids[..i + 1][..i] == ids[..i];
        Silence(ids[i]);
      }
      assert ids[..|ids|] == ids;
    }

    /** The player turns to an NPC; one that talks already is not started again. */
    method Address(npc: string)
      requires Valid()
      modifies this, ownership, dispatcher, recorder
      ensures Valid() && S() == Addressed(env, old(S()), npc)
    {
      EnsureSingleConversation(npc);
      var state := OwnerState(npc);
      if state != AIConversation {
        StartTalking(npc);
      }
    }

    // -------------------------------------------------------------------
    // Events and results
    // -------------------------------------------------------------------

    method AnswerPlayer(npc: string, trigger: Option<Trigger>)
      requires Valid()
      modifies this, ownership, dispatcher, recorder
      ensures Valid() && S() == Answering(env, old(S()), npc, trigger)
    {
      Address(npc);
      SetConversing(npc, true);
      ScheduleReasoning(npc, Reason.AnswerPlayer, trigger);
    }

    method NoticePlayer(npc: string, name: EventName, trigger: Option<Trigger>)
      requires Valid() && npc in agentState
      modifies this, ownership, dispatcher, recorder
      ensures Valid() && S() == Noticed(env, old(S()), npc, name, trigger)
    {
      var overlaid := agentState[npc].dialogueOnly;
      assert overlaid == Overlaid(S(), npc);
      if overlaid {
        ScheduleReasoning(npc, QuestLine, trigger);
      } else {
        StirIfAware(npc, Meaningful(name), trigger);
      }
    }

    method StirIfAware(npc: string, reason: Reason, trigger: Option<Trigger>)
      requires Valid()
      modifies this, ownership, dispatcher, recorder
      ensures Valid() && S() == StirredIfAware(env, old(S()), npc, reason, trigger)
    {
      var state := OwnerState(npc);
      if state == Aware {
        MakeMeaningful(npc, reason, trigger);
      }
    }

    method ConversationOver(npc: string)
      requires Valid()
      modifies this, ownership, dispatcher, recorder
      ensures Valid() && S() == Parted(env, old(S()), npc)
    {
      EndingTalkIsUnrecorded(env, S(), npc);
      var move := ownership.ConversationEnded(npc);
      SetConversing(npc, false);
    }

    /** Completes the hearing of a fact that is on the timeline already. */
    method ForgetGoal(npc: string, name: EventName, ghost before: Sys, ghost payload: Payload)
      requires Valid() && S() == Logged(before, Fact(npc, name, ByBridge, payload))
      modifies this`agentState, this`agentOrder
      ensures Valid() && npc in agentState && S() == Apply(env, before, Hear(npc, name, payload))
    {
      HearingByParts(env, before, npc, name, payload);
      AgentStateLocked(npc);
      if name == GoalCompleted {
        agentState := agentState[npc := agentState[npc].(goal := None)];
      }
    }

    /** The fact-driven half of the runtime: an event on the timeline is reacted to. */
    method ReactToEvent(npc: string, name: EventName, position: Value, ghost before: Sys, ghost payload: Payload)
      requires Valid() && S() == Logged(before, Fact(npc, name, ByBridge, payload))
      modifies this, ownership, dispatcher, recorder
      ensures Valid() && S() == Received(env, before, npc, name, payload, position)
    {
      ForgetGoal(npc, name, before, payload);
      React(npc, name, position);
    }

    method React(npc: string, name: EventName, position: Value)
      requires Valid() && npc in agentState
      modifies this, ownership, dispatcher, recorder
      ensures Valid() && S() == Reacted(env, old(S()), npc, name, position)
    {
      var trigger := Some(Trigger(name, position));
      var alarming := IsAlarm(name);
      if name == PlayerSpoke {
        AnswerPlayer(npc, trigger);
      } else if alarming {
        MakeMeaningful(npc, Meaningful(name), trigger);
      } else {
        ReactQuietly(npc, name, position);
      }
    }

    method IsAlarm(name: EventName) returns (alarming: bool)
      ensures alarming <==> name in ALARMS
    {
      match name {
        case PlayerThreatenedNpc | PlayerAttackedNpc | NpcDamaged | GunshotHeard | DeadBodyDiscovered | FightStarted =>
          alarming := true;
        case _ =>
          alarming := false;
      }
    }

    method ReactQuietly(npc: string, name: EventName, position: Value)
      requires Valid() && npc in agentState
      modifies this, ownership, dispatcher, recorder
      ensures Valid() && S() == Attended(env, old(S()), npc, name, position)
    {
      var trigger := Some(Trigger(name, position));
      if name == PlayerApproached || name == PlayerLookedAtNpc {
        NoticePlayer(npc, name, trigger);
      } else if name == ActionFailed {
        ScheduleReasoning(npc, ActionFailure, trigger);
      } else if name == ConversationEnded || name == ConversationInterrupted {
        ConversationOver(npc);
      }
    }

    /** Walks the pending requests for the one with this id. */
    method NpcFromPending(request: Option<nat>) returns (npc: string)
      requires Valid()
      ensures npc == PendingNpc(S(), request)
    {
      if request.None? {
        return "";
      }
      var requests := dispatcher.PendingRequests();
      for i := 0 to |requests|
        invariant forall j :: 0 <= j < i ==> requests[j].id != request.value
      {
        if requests[i].id == request.value {
          return requests[i].npc;
        }
      }
      return "";
    }

    method NpcMeant(npc: string, request: Option<nat>) returns (who: string)
      requires Valid()
      ensures who == Meant(S(), npc, request)
    {
      who := npc;
      if who == "" {
        who := NpcFromPending(request);
      }
    }

    method HearFact(npc: string, name: EventName, payload: Payload)
      requires Valid()
      modifies recorder`log
      ensures Valid() && S() == Logged(old(S()), Fact(npc, name, ByBridge, payload))
    {
      recorder.Append(Fact(npc, name, ByBridge, payload));
    }

    method HandleGameEvent(npc: string, request: Option<nat>, name: EventName, goal: Option<string>, position: Value)
      requires Valid()
      modifies this, ownership, dispatcher, recorder
      ensures Valid() && S() == EventHandled(env, old(S()), npc, request, name, goal, position)
    {
      var who := NpcMeant(npc, request);
      HandleEventFor(who, name, PayloadOf(goal), position);
    }

    method HandleEventFor(npc: string, name: EventName, payload: Payload, position: Value)
      requires Valid()
      modifies this, ownership, dispatcher, recorder
      ensures Valid() && S() == EventFor(env, old(S()), npc, name, payload, position)
    {
      if npc == "" {
        return;
      }
      HearEvent(npc, name, payload, position);
    }

    /** The event is put on the timeline and reacted to. */
    method HearEvent(npc: string, name: EventName, payload: Payload, position: Value)
      requires Valid()
      modifies this, ownership, dispatcher, recorder
      ensures Valid()
      ensures S() == Received(env, old(S()), npc, name, payload, position)
    {
      ghost var before := S();
      HearFact(npc, name, payload);
      ReactToEvent(npc, name, position, before, payload);
    }

    method ResolveResult(request: Option<nat>) returns (npc: string)
      requires Valid()
      modifies dispatcher`pending, dispatcher`order, recorder`log
      ensures Valid() && npc == PendingNpc(old(S()), request)
      ensures S() == if request.Some? && request.value in old(dispatcher.pending)
                     then Apply(env, old(S()), Resolve(request.value)) else old(S())
    {
      var resolved := dispatcher.Resolve(request);
      npc := if resolved.Some? then resolved.value.npc else "";
    }

    method NoteResult(npc: string, status: Status)
      requires Valid()
      modifies recorder`log
      ensures Valid() && S() == Apply(env, old(S()), Note(npc, NameOfStatus(status), ByBridge))
    {
      recorder.Append(Fact(npc, NameOfStatus(status), ByBridge, Plain));
    }

    method HandleActionResult(npc: string, request: Option<nat>, status: Status)
      requires Valid()
      modifies this, ownership, dispatcher, recorder
      ensures Valid() && S() == ResultHandled(env, old(S()), npc, request, status)
    {
      var pendingNpc := ResolveResult(request);
      var who := npc;
      if who == "" {
        who := pendingNpc;
      }
      if who == "" {
        return;
      }
      NoteResult(who, status);
      if status == Broken {
        ScheduleReasoning(who, ActionFailure, Some(Trigger(ActionFailed, Nil)));
      }
    }

    // -------------------------------------------------------------------
    // Idle planning
    // -------------------------------------------------------------------

    /** One NPC's turn in the idle planner. */
    method PlanIdle(npc: string, busy: set<string>, now: real)
      requires Valid()
      modifies this`agentState, this`agentOrder, this`lastGlobalSpeechAt, this`turns
      modifies ownership, dispatcher`pending, dispatcher`order, recorder
      ensures Valid() && S() == IdleOne(env, old(S()), npc, busy, now)
    {
      if npc !in agentState || agentState[npc].reasoning || npc in busy || agentState[npc].dialogueOnly {
        return;
      }
      var state := OwnerState(npc);
      if state != AIActive || npc !in lastPedScan || now - agentState[npc].lastDecisionAt < env.settings.idleSeconds {
        return;
      }
      ScheduleReasoning(npc, Idle, None);
    }

    method MaybeScheduleIdleThinking()
      requires Valid()
      modifies this`agentState, this`agentOrder, this`lastGlobalSpeechAt, this`turns
      modifies ownership, dispatcher`pending, dispatcher`order, recorder
      ensures Valid() && S() == Idled(env, old(S()))
    {
      if env.settings.idleSeconds <= 0.0 {
        return;
      }
      var now := recorder.Now();
      var busy := dispatcher.PendingNPCIDs();
      var ids := agentOrder;
      ghost var s := S();
      assert s == Apply(env, old(S()), ReadClock);
      for i := 0 to |ids|
        invariant Valid() && S() == IdleEach(env, s, ids[..i], busy, now)
      {
        assert ids[..i + 1][..i] == ids[..i];
        PlanIdle(ids[i], busy, now);
      }
      assert ids[..|ids|] == ids;
    }

    // -------------------------------------------------------------------
    // Scans, world updates, talking, story safety, release
    // -------------------------------------------------------------------

    method EndQuest(ped: Ped) returns (moved: bool)
      requires Valid() && ped.id in agentState
      modifies this, ownership, dispatcher, recorder
      ensures Valid() && (S(), moved) == QuestEnded(env, old(S()), ped)
    {
      if !agentState[ped.id].dialogueOnly {
        return false;
      }
      var reason := QuestDialogueEnded;
      if ped.distance > env.settings.candidateDistance {
        reason := QuestDialogueLeftArea;
      }
      moved := RequestRelease(ped.id, reason);
    }

    method OpenQuest(ped: Ped) returns (moved: bool)
      requires Valid()
      modifies this, ownership, dispatcher, recorder
      ensures Valid() && (S(), moved) == QuestOpened(env, old(S()), ped)
    {
      if ped.distance > env.settings.candidateDistance {
        var state := OwnerState(ped.id);
        if state == QuestDialogue || state == AIActive || state == AIConversation {
          moved := RequestRelease(ped.id, QuestDialogueLeftArea);
          return;
        }
        return false;
      }
      if ped.distance <= env.settings.awareDistance {
        moved := EnterQuestDialogue(ped.id);
        return;
      }
      return false;
    }

    /** The dialogue-only overlay of quest NPCs. */
    method HandleQuestDialoguePed(ped: Ped) returns (moved: bool)
      requires Valid()
      modifies this, ownership, dispatcher, recorder
      ensures Valid() && (S(), moved) == QuestStep(env, old(S()), ped)
    {
      AgentStateLocked(ped.id);
      if !ped.quest {
        moved := EndQuest(ped);
        return;
      }
      RaiseDialogueOnly(ped.id);
      moved := OpenQuest(ped);
    }

    method RaiseDialogueOnly(npc: string)
      requires Valid() && npc in agentState
      modifies this`agentState, recorder`log
      ensures Valid() && S() == Apply(env, old(S()), RaiseOverlay(npc))
    {
      agentState := agentState[npc := agentState[npc].(dialogueOnly := true)];
      recorder.Append(OverlayRaised(npc));
    }

    method TrackPed(ped: Ped)
      requires Valid()
      modifies this`lastPedScan
      ensures Valid() && S() == Apply(env, old(S()), Track(ped.id))
    {
      lastPedScan := lastPedScan[ped.id := ped];
      assert lastPedScan.Keys == old(lastPedScan.Keys) + {ped.id};
    }

    method HandlePed(ped: Ped)
      requires Valid()
      modifies this, ownership, dispatcher, recorder
      ensures Valid() && S() == PedStep(env, old(S()), ped)
    {
      if ped.id == "" {
        return;
      }
      TrackPed(ped);
      var moved := HandleQuestDialoguePed(ped);
      if moved {
        return;
      }
      if ped.id in agentState && agentState[ped.id].dialogueOnly {
        return;
      }
      var u := UpdateFor(env, FromPedScan, ped.distance, ped.eligible, false);
      ghost var to := UpdateFromScan(ped.id, u);
    }

    method HandlePedScan(peds: seq<Ped>)
      requires Valid()
      modifies this, ownership, dispatcher, recorder
      ensures Valid() && S() == Idled(env, EachPed(env, old(S()), peds))
    {
      ghost var s := S();
      for i := 0 to |peds|
        invariant Valid() && S() == EachPed(env, s, peds[..i])
      {
        assert peds[..i + 1][..i] == peds[..i];
        HandlePed(peds[i]);
      }
      assert peds[..|peds|] == peds;
      MaybeScheduleIdleThinking();
    }

    method MaybeReleaseFromWorldState(npc: string, distance: Option<real>)
      requires Valid()
      modifies this, ownership, dispatcher, recorder
      ensures Valid() && S() == LeftBehind(env, old(S()), npc, distance)
    {
      if distance.None? || distance.value <= env.settings.candidateDistance {
        return;
      }
      var u := UpdateFor(env, FromWorldUpdate, distance.value, true, false);
      ghost var to := UpdateFromScan(npc, u);
    }

    method HandleTalkStart(npc: string)
      requires Valid()
      modifies this, ownership, dispatcher, recorder
      ensures Valid() && S() == TalkStarted(env, old(S()), npc)
    {
      if npc == "" {
        return;
      }
      MeetNpc(npc);
      BeginConversation(npc);
      SetConversing(npc, true);
    }

    method MeetNpc(npc: string)
      requires Valid()
      modifies this`agentState, this`agentOrder
      ensures Valid() && S() == Apply(env, old(S()), Meet(npc))
    {
      AgentStateLocked(npc);
    }

    method BeginConversation(npc: string)
      requires Valid()
      modifies this, ownership, dispatcher, recorder
      ensures Valid() && S() == Listening(env, old(S()), npc)
    {
      EnsureSingleConversation(npc);
      Listen(npc);
    }

    /** An NPC that is talking is interrupted; any other starts to listen. */
    method Listen(npc: string)
      requires Valid()
      modifies this, ownership, dispatcher, recorder
      ensures Valid() && S() == Listened(env, old(S()), npc)
    {
      var state := OwnerState(npc);
      if state == AIConversation {
        NoteEvent(npc, ConversationInterrupted);
      } else {
        StartTalking(npc);
      }
    }

    method HandleTalkStop(npc: string)
      requires Valid()
      modifies this, ownership, dispatcher, recorder
      ensures Valid() && S() == TalkStopped(env, old(S()), npc)
    {
      if npc == "" {
        return;
      }
      EndTalking(npc);
      StopConversing(npc);
      NoteEvent(npc, ConversationEnded);
    }

    /** Suspends or resumes ownership around missions and cutscenes. */
    method HandleStorySafety(active: bool, npc: string, reason: Why)
      requires Valid()
      modifies this, ownership, dispatcher, recorder
      ensures Valid()
      ensures S() == EachSafety(env, old(S()), SafetyTargets(old(S()), npc), SafetyOp(active, reason))
    {
      var targets := [npc];
      if npc == "" {
        targets := ownership.OwnedNPCs();
        if targets == [] {
          targets := agentOrder;
        }
      }
      ghost var s := S();
      assert targets == SafetyTargets(s, npc);
      for i := 0 to |targets|
        invariant Valid() && S() == EachSafety(env, s, targets[..i], SafetyOp(active, reason))
      {
        assert targets[..i + 1][..i] == targets[..i];
        SuspendOrResume(targets[i], active, reason);
      }
      assert targets[..|targets|] == targets;
    }

    method ReleaseOwned(npc: string, reason: Why)
      requires Valid()
      modifies this, ownership, dispatcher, recorder
      ensures Valid() && S() == ReleaseOne(env, old(S()), npc, reason)
    {
      var state := OwnerState(npc);
      if state == Rockstar || state == Release {
        return;
      }
      var moved := RequestRelease(npc, reason);
    }

    /** Releases every agent-owned NPC back to Rockstar. */
    method ReleaseEverybody(reason: Why)
      requires Valid()
      modifies this, ownership, dispatcher, recorder
      ensures Valid() && S() == EachReleased(env, old(S()), old(S()).ledger.order, reason)
    {
      var ids := ownership.OwnedNPCs();
      ReleaseEach(ids, reason);
    }

    method ReleaseEach(ids: seq<string>, reason: Why)
      requires Valid()
      modifies this, ownership, dispatcher, recorder
      ensures Valid() && S() == EachReleased(env, old(S()), ids, reason)
    {
      ghost var s := S();
      for i := 0 to |ids|
        invariant Valid() && S() == EachReleased(env, s, ids[..i], reason)
      {
        assert ids[..i + 1][..i] == ids[..i];
        ReleaseOwned(ids[i], reason);
      }
      assert ids[..|ids|] == ids;
    }

    method Tick()
      requires Valid()
      modifies this, ownership, dispatcher, recorder
      ensures Valid() && S() == Promoted(env, Idled(env, old(S())))
    {
      MaybeScheduleIdleThinking();
      PromoteNextDeferred();
    }

    /** The entry point: one message is one step of the transition system. */
    method HandleMessage(msg: Message)
      requires Valid()
      modifies this, ownership, dispatcher, recorder
      ensures Valid() && S() == Handle(env, old(S()), msg)
    {
      match msg {
        case WorldUpdate(npc, distance) =>
          if npc != "" {
            MaybeReleaseFromWorldState(npc, distance);
            MaybeScheduleIdleThinking();
          }
        case PedScan(peds) => HandlePedScan(peds);
        case GameEvent(npc, request, name, goal, position) => HandleGameEvent(npc, request, name, goal, position);
        case ActionResult(npc, request, status) => HandleActionResult(npc, request, status);
        case _ => HandleRequest(msg);
      }
    }

    /** The player's and the story's requests, and the look-ups. */
    method HandleRequest(msg: Message)
      requires Valid() && !(msg.WorldUpdate? || msg.PedScan? || msg.GameEvent? || msg.ActionResult?)
      modifies this, ownership, dispatcher, recorder
      ensures Valid() && S() == Handle(env, old(S()), msg)
    {
      match msg {
        case TalkStart(npc) => HandleTalkStart(npc);
        case TalkStop(npc) => HandleTalkStop(npc);
        case StorySafetyChange(active, npc, reason) => HandleStorySafety(active, npc, reason);
        case ReleaseAll(reason) => ReleaseEverybody(reason);
        case SchedulerTick => Tick();
        case Observe(npc) =>
          var state := OwnerState(npc);
        case Inspect(npc) => AgentStateLocked(npc);
      }
    }
  }

  /** A whole session: a fresh runtime that handles the messages in turn ends in
      the state the run properties speak of. */
  method Session(env: Env, msgs: seq<Message>) returns (runtime: NpcAgentRuntime)
    requires 0.0 <= env.settings.candidateDistance
    ensures fresh(runtime) && runtime.Valid() && runtime.env == env
    ensures runtime.S() == Run(env, msgs)
  {
    runtime := new NpcAgentRuntime(env);
    for i := 0 to |msgs|
      invariant runtime.Valid() && runtime.env == env && runtime.S() == Run(env, msgs[..i])
      invariant fresh(runtime) && fresh(runtime.ownership) && fresh(runtime.dispatcher) && fresh(runtime.recorder)
    {
      assert msgs[..i + 1][..i] == msgs[..i];
      runtime.HandleMessage(msgs[i]);
    }
    assert msgs[..|msgs|] == msgs;
  }

  /** A move, recorded, with the promotions a release makes room for. */
  ghost function Recorded(env: Env, s: Sys, move: Move): Sys {
    if move.to == Release then Promoted(env, Filed(env, s, move)) else Filed(env, s, move)
  }

  /** An operation performed and then recorded is the step `Carried`. */
  lemma CarryByParts(env: Env, s: Sys, npc: string, op: Op)
    ensures var step := Perform(s.ledger, npc, op);
            var moved := s.(ledger := step.ledger);
            Carried(env, s, npc, op) == if step.move.None? then moved else Recorded(env, moved, step.move.value)
  {
  }

  lemma HearingByParts(env: Env, s: Sys, npc: string, name: EventName, payload: Payload)
    ensures Apply(env, s, Hear(npc, name, payload)) ==
            Heard(env, Logged(s, Fact(npc, name, ByBridge, payload)), npc, name)
  {
  }

  lemma EndingTalkReleasesNobody(env: Env, s: Sys, npc: string)
    ensures Carried(env, s, npc, EndTalk) == Apply(env, s, Shift(npc, EndTalk))
  {
    EndTalkChange(s.ledger.Lookup(npc));
  }

  lemma EndTalkChange(r: Record)
    ensures ChangeOf(r, EndTalk).Go? ==> ChangeOf(r, EndTalk).to == AIActive
  {
  }

  /** Ending a conversation writes no line of its own and hands nobody over. */
  lemma EndingTalkIsUnrecorded(env: Env, s: Sys, npc: string)
    ensures Shifted(env, s, npc, EndTalk) == s.(ledger := Perform(s.ledger, npc, EndTalk).ledger)
  {
    EndTalkChange(s.ledger.Lookup(npc));
    ShiftByParts(env, s, npc, EndTalk);
  }

  lemma ShiftByParts(env: Env, s: Sys, npc: string, op: Op)
    ensures var step := Perform(s.ledger, npc, op);
            var moved := s.(ledger := step.ledger);
            Shifted(env, s, npc, op) == if step.move.None? then moved else Filed(env, moved, step.move.value)
  {
  }

  lemma {:induction false} PassingStale(env: Env, s: Sys, n: nat)
    requires n <= |s.queue| && HasSlot(env, s)
    requires forall i :: 0 <= i < n ==> s.queue[i] !in s.reasons
    ensures Promoted(env, s) == Promoted(env, s.(queue := s.queue[n..]))
    decreases n
  {
    if n == 0 {
      assert s.queue[0..] == s.queue;
    } else {
      var t := s.(queue := s.queue[1..]);
      assert Active(t) == Active(s);
      PassingStale(env, t, n - 1);
      assert s.queue[1..][n - 1..] == s.queue[n..];
    }
  }

  lemma PoppingIsPromoting(env: Env, s: Sys)
    requires s.queue != [] && s.queue[0] in s.reasons && HasSlot(env, s)
    ensures Promoted(env, s) == AfterPop(env, Apply(env, s, Pop), s.queue[0], s.reasons[s.queue[0]])
  {
  }

  function ActiveAmong(ledger: Ledger, ids: seq<string>): seq<string> {
    if ids == [] then []
    else
      ActiveAmong(ledger, ids[..|ids| - 1]) +
      if ledger.State(ids[|ids| - 1]) in {AIActive, AIConversation} then [ids[|ids| - 1]] else []
  }

  lemma {:induction false} ActiveAmongLists(ledger: Ledger, ids: seq<string>)
    requires NoDup(ids)
    ensures NoDup(ActiveAmong(ledger, ids))
    ensures forall n :: n in ActiveAmong(ledger, ids) <==> n in ids && ledger.State(n) in {AIActive, AIConversation}
  {
    if ids != [] {
      var front, last := ids[..|ids| - 1], ids[|ids| - 1];
      ActiveAmongLists(ledger, front);
      assert last !in front;
      assert forall n <- ids :: n in front || n == last;
    }
  }

  /** Walking the first-seen order counts every active NPC once. */
  lemma ActiveAmongCounts(s: Sys, ids: seq<string>)
    requires Lists(ids, s.ledger.records.Keys)
    ensures |ActiveAmong(s.ledger, ids)| == |Active(s)|
  {
    ActiveAmongLists(s.ledger, ids);
    ListsCount(ActiveAmong(s.ledger, ids), Active(s));
  }

  lemma SlotAfterPop(env: Env, s: Sys, t: Sys)
    requires forall n <- s.ledger.records :: n in t.ledger.records && t.ledger.records[n] == s.ledger.records[n]
    requires forall n <- t.ledger.records :: n !in s.ledger.records ==> t.ledger.records[n] == FRESH
    ensures HasSlot(env, t) == HasSlot(env, s)
  {
    assert Active(t) == Active(s);
  }

  lemma StirredWithSlot(env: Env, s: Sys, npc: string, reason: Reason)
    requires npc in s.ledger.records && s.ledger.State(npc) == Aware && HasSlot(env, s)
    ensures Stirred(env, s, npc, reason, None) == Activated(env, s, npc, reason, None)
    ensures |Activated(env, s, npc, reason, None).queue| <= |s.queue|
  {
    assert Apply(env, s, See(npc)) == s;
  }

  lemma FailuresAppend(env: Env, s: Sys, npc: string, failed: seq<Tool>, tool: Tool)
    ensures Failures(env, s, npc, failed + [tool]) ==
            Logged(Failures(env, s, npc, failed), Fact(npc, ActionFailed, ByRuntime, Plain))
  {
    assert (failed + [tool])[..|failed|] == failed;
  }

  /** What a promotion still does once an entry is off the queue. */
  ghost function AfterPop(env: Env, s: Sys, npc: string, reason: Reason): Sys {
    var seen := Apply(env, s, See(npc));
    if seen.ledger.State(npc) != Aware then Promoted(env, seen)
    else Promoted(env, Activated(env, seen, npc, Promotion(reason), None))
  }
}
