/** Unprompted speech is spaced: cooldowns hold between the lines that reach the
    timeline, whoever speaks and whatever happens in between. */
module Spacing {
  import opened Common
  import opened Names
  import opened Ownership
  import opened Decisions
  import opened Journal
  import opened Scheduler
  import opened Turns
  import opened Handlers
  import opened HandlerProofs
  import opened Runs
  import opened Withholding

  /** `later` keeps its distance from `earlier`, unless its reason is exempt. */
  predicate Apart(env: Env, earlier: Item, later: Item) {
    IsSpeech(earlier) && IsSpeech(later) && !Exempt(later.payload.reason) ==>
      && later.payload.at - earlier.payload.at >= env.settings.globalCooldown
      && (earlier.npc == later.npc ==> later.payload.at - earlier.payload.at >= env.settings.cooldown)
  }

  ghost predicate ApartFromAll(env: Env, log: seq<Item>, later: Item) {
    forall earlier <- log :: Apart(env, earlier, later)
  }

  ghost predicate Spaced(env: Env, log: seq<Item>) {
    log != [] ==> Spaced(env, log[..|log| - 1]) && ApartFromAll(env, log[..|log| - 1], log[|log| - 1])
  }

  lemma {:induction false} SilenceKeepsSpacing(env: Env, log: seq<Item>, more: seq<Item>)
    requires Spaced(env, log) && forall item <- more :: !IsSpeech(item)
    ensures Spaced(env, log + more)
  {
    if more == [] {
      assert log + more == log;
    } else {
      var front, last := more[..|more| - 1], more[|more| - 1];
      assert last in more && forall item <- front :: item in more;
      assert (log + more)[..|log + more| - 1] == log + front;
      SilenceKeepsSpacing(env, log, front);
    }
  }

  lemma SpokenLineIsSpaced(env: Env, s: Sys, npc: string, reason: Reason)
    requires Spaced(env, s.log) && Polite(env) && MaySay(env, s, npc, reason)
    ensures var started := Fact(npc, ActionStarted, ByRuntime, Plain);
            var spoken := Fact(npc, NpcSpoke, ByRuntime, Spoken(reason, env.clock(s.ticks)));
            Spaced(env, s.log + [started] + [spoken])
  {
    var started := Fact(npc, ActionStarted, ByRuntime, Plain);
    var spoken := Fact(npc, NpcSpoke, ByRuntime, Spoken(reason, env.clock(s.ticks)));
    var before := s.log + [started];
    SilenceKeepsSpacing(env, s.log, [started]);
    assert (before + [spoken])[..|before|] == before;
    forall earlier | earlier in before
      ensures Apart(env, earlier, spoken)
    {
      assert earlier in s.log || earlier == started;
    }
  }

  lemma DispatchKeepsSpacing(env: Env, s: Sys, npc: string, tool: Tool, reason: Reason)
    requires Spaced(env, s.log) && Polite(env) && Enabled(env, s, Dispatch(npc, tool, reason))
    ensures Spaced(env, Apply(env, s, Dispatch(npc, tool, reason)).log)
  {
    var r := Apply(env, s, Dispatch(npc, tool, reason));
    if npc != "" && tool == Say {
      SpokenLineIsSpaced(env, s, npc, reason);
      SilenceKeepsSpacing(env, r.log[..|r.log| - 1], [Sent(s.nextId, npc, tool)]);
      assert r.log[..|r.log| - 1] + [Sent(s.nextId, npc, tool)] == r.log;
    } else {
      var started := if npc == "" then [] else [Fact(npc, ActionStarted, ByRuntime, Plain)];
      assert r.log == s.log + (started + [Sent(s.nextId, npc, tool)]);
      SilenceKeepsSpacing(env, s.log, started + [Sent(s.nextId, npc, tool)]);
    }
  }

  lemma ShiftKeepsSpacing(env: Env, s: Sys, npc: string, change: Change, evidence: Option<ScanUpdate>)
    requires Spaced(env, s.log)
    ensures Spaced(env, ShiftedBy(env, s, npc, change, evidence).log)
  {
    ShiftedLines(env, s, npc, change, evidence);
    if change.Go? {
      SilenceKeepsSpacing(env, s.log, MoveLines(Move(npc, s.ledger.State(npc), change.to, change.reason, evidence)));
    } else {
      assert s.log + [] == s.log;
    }
  }

  lemma OtherActsKeepSpacing(env: Env, s: Sys, act: Act)
    requires Spaced(env, s.log) && Enabled(env, s, act) && !act.Shift? && !act.Dispatch?
    ensures Spaced(env, Apply(env, s, act).log)
  {
    var r := Apply(env, s, act);
    var more := LinesOf(env, s, act);
    ActLines(env, s, act);
    SilenceKeepsSpacing(env, s.log, more);
  }

  lemma {:induction false} SpacedAfter(env: Env, acts: seq<Act>)
    requires Legal(env, acts) && Polite(env)
    ensures Spaced(env, Replay(env, acts).log)
  {
    if acts != [] {
      var s, act := Replay(env, acts[..|acts| - 1]), acts[|acts| - 1];
      SpacedAfter(env, acts[..|acts| - 1]);
      if act.Shift? {
        ShiftKeepsSpacing(env, s, act.npc, ChangeOf(s.ledger.Lookup(act.npc), act.op), EvidenceOf(act.op));
      } else if act.Dispatch? {
        DispatchKeepsSpacing(env, s, act.npc, act.tool, act.reason);
      } else {
        OtherActsKeepSpacing(env, s, act);
      }
    }
  }

  lemma {:induction false} SpacedAt(env: Env, log: seq<Item>, i: nat, j: nat)
    requires Spaced(env, log) && i < j < |log|
    ensures Apart(env, log[i], log[j])
  {
    var front := log[..|log| - 1];
    if j < |log| - 1 {
      SpacedAt(env, front, i, j);
    } else {
      assert front[i] == log[i];
    }
  }

  /** On every run with a clock that never runs back and a backend that speaks
      only through a decision's speech, each line spoken for a non-exempt reason
      comes at least `cooldown` after the same NPC's earlier lines and at least
      `globalCooldown` after everybody's. */
  lemma SpeechIsSpaced(env: Env, msgs: seq<Message>, i: nat, j: nat)
    requires SteadyClock(env) && SpeaksPolitely(env)
    requires i < j < |Run(env, msgs).log|
    ensures Apart(env, Run(env, msgs).log[i], Run(env, msgs).log[j])
  {
    RunIsGood(env, msgs);
    var acts :| LeadsTo(env, acts, Run(env, msgs));
    SpacedAfter(env, acts);
    SpacedAt(env, Run(env, msgs).log, i, j);
  }

  // ---------------------------------------------------------------------
  // When a line is spoken although a cooldown is running
  // ---------------------------------------------------------------------

  /** A line that the NPC spoke for this reason. */
  ghost predicate LineOf(env: Env, item: Item, npc: string, reason: Reason) {
    && IsSpeech(item) && item.npc == npc && item.payload.reason == reason
    && exists tick: nat :: item.payload.at == env.clock(tick)
  }

  /** From `s` to `r` such a line is spoken. */
  ghost predicate SpeaksUp(env: Env, s: Sys, r: Sys, npc: string, reason: Reason) {
    s.log <= r.log && exists item <- r.log[|s.log|..] :: LineOf(env, item, npc, reason)
  }

  lemma SpeakingJoins(env: Env, s: Sys, t: Sys, r: Sys, npc: string, reason: Reason)
    requires s.log <= t.log && t.log <= r.log
    ensures SpeaksUp(env, s, r, npc, reason) <==> SpeaksUp(env, s, t, npc, reason) || SpeaksUp(env, t, r, npc, reason)
  {
    assert r.log[|s.log|..] == t.log[|s.log|..] + r.log[|t.log|..];
  }

  lemma WithholdingIsMute(env: Env, s: Sys, r: Sys, npc: string, reason: Reason)
    requires Withholds(s, r, {Say})
    ensures !SpeaksUp(env, s, r, npc, reason)
  {
  }

  /** The decision holds a `say` action with text. */
  predicate SaysIn(actions: seq<Action>) {
    exists a <- actions :: a.tool == Say && Accepted(a)
  }

  lemma SaysInLast(actions: seq<Action>)
    requires actions != []
    ensures var front, last := actions[..|actions| - 1], actions[|actions| - 1];
            SaysIn(actions) <==> SaysIn(front) || (last.tool == Say && Accepted(last))
  {
    var front, last := actions[..|actions| - 1], actions[|actions| - 1];
    assert forall a :: a in actions <==> a in front || a == last;
  }

  lemma CallSpeaks(env: Env, s: Sys, npc: string, a: Action, reason: Reason)
    requires npc != "" && a.tool == Say && Accepted(a)
    ensures SpeaksUp(env, s, Called(env, s, npc, a, reason), npc, reason)
  {
    var lines := LinesOf(env, s, Dispatch(npc, Say, reason));
    ActLines(env, s, Dispatch(npc, Say, reason));
    assert (s.log + lines)[|s.log|..] == lines;
    assert lines[1] == Fact(npc, NpcSpoke, ByRuntime, Spoken(reason, env.clock(s.ticks)));
    assert lines[1] in (s.log + lines)[|s.log|..] && LineOf(env, lines[1], npc, reason);
  }

  lemma {:induction false} ActingSpeaksExactly(env: Env, s: Sys, npc: string, actions: seq<Action>, reason: Reason)
    requires npc != ""
    ensures s.log <= Acted(env, s, npc, actions, false, reason).log
    ensures SpeaksUp(env, s, Acted(env, s, npc, actions, false, reason), npc, reason) <==> SaysIn(actions)
  {
    if actions != [] {
      var front, a := actions[..|actions| - 1], actions[|actions| - 1];
      var before := Acted(env, s, npc, front, false, reason);
      var r := Called(env, before, npc, a, reason);
      ActingSpeaksExactly(env, s, npc, front, reason);
      SaysInLast(actions);
      CallWithholds(env, before, npc, a, reason, {});
      SpeakingJoins(env, s, before, r, npc, reason);
      if a.tool == Say && Accepted(a) {
        CallSpeaks(env, before, npc, a, reason);
      } else if a.tool == Say {
        assert r == before;
      } else {
        CallWithholds(env, before, npc, a, reason, {Say});
        WithholdingIsMute(env, before, r, npc, reason);
      }
    }
  }

  /** Without a line of the decision's own, repair keeps a `say` with text. */
  lemma {:induction false} RepairKeepsSays(d: Decision, actions: seq<Action>, look: Lookups)
    requires d.speech.None?
    ensures SaysIn(Stabilize(d, actions, look).kept) <==> SaysIn(actions)
  {
    if actions != [] {
      var front, a := actions[..|actions| - 1], actions[|actions| - 1];
      var v := Normalize(d, a, look);
      RepairKeepsSays(d, front, look);
      SaysInLast(actions);
      StabilizeUnfolds(d, actions, look);
      JudgedSays(d, Stabilize(d, front, look), a, look);
    }
  }

  lemma JudgedSays(d: Decision, r: Stabilized, a: Action, look: Lookups)
    requires d.speech.None?
    ensures SaysIn(Judged(r, a, Normalize(d, a, look)).kept) <==> SaysIn(r.kept) || (a.tool == Say && Accepted(a))
  {
    var v := Normalize(d, a, look);
    NormalizedSay(d, a, look);
    if v.Keep? {
      assert (r.kept + [v.action])[..|r.kept|] == r.kept;
      SaysInLast(r.kept + [v.action]);
    }
  }

  lemma NormalizedSay(d: Decision, a: Action, look: Lookups)
    requires d.speech.None?
    ensures var v := Normalize(d, a, look);
            (v.Keep? && v.action.tool == Say && Accepted(v.action)) <==> (a.tool == Say && Accepted(a))
  {
    var args := WithoutNil(a.args);
    assert WithoutNil(args) == args;
  }

  lemma {:induction false} OverlayKeepsSays(actions: seq<Action>)
    ensures SaysIn(SpeechOnly(actions).kept) <==> SaysIn(actions)
  {
    if actions != [] {
      var front, a := actions[..|actions| - 1], actions[|actions| - 1];
      OverlayKeepsSays(front);
      SaysInLast(actions);
      if a.tool == Say {
        assert (SpeechOnly(front).kept + [a])[..|SpeechOnly(front).kept|] == SpeechOnly(front).kept;
        SaysInLast(SpeechOnly(front).kept + [a]);
      }
    }
  }

  lemma UnspokenExecutionSpeaksExactly(env: Env, s: Sys, npc: string, d: Decision, reason: Reason)
    requires npc in s.agents && npc != "" && d.speech.None?
    ensures SpeaksUp(env, s, Executed(env, s, npc, d, reason), npc, reason) <==> SaysIn(d.actions)
  {
    var kept := Filtered(env, s, npc, d).kept;
    var s1 := Prepared(env, s, npc, d);
    var s2 := Acted(env, s1, npc, kept, false, reason);
    RepairKeepsSays(d, d.actions, Lookup(env, s));
    OverlayKeepsSays(d.actions);
    PreparationWithholds(env, s, npc, d, {Say});
    WithholdingIsMute(env, s, s1, npc, reason);
    ActingSpeaksExactly(env, s1, npc, kept, reason);
    SpeakingJoins(env, s, s1, s2, npc, reason);
    StampWritesNothing(env, s2);
    assert Executed(env, s, npc, d, reason).log == s2.log;
  }

  /** While a cooldown is running, a turn whose reason is not exempt speaks all the
      same exactly when the backend's decision holds a `say` action with text: the
      policy only ever drops the decision's own line. */
  lemma CoolingTurnSpeaksExactly(env: Env, s: Sys, npc: string, d: Decision, reason: Reason)
    requires npc in s.agents && npc != "" && !Exempt(reason)
    requires CoolingDown(env.clock(s.ticks), s.agents[npc].lastSpokenAt, s.lastGlobalSpeechAt,
                         env.settings.cooldown, env.settings.globalCooldown)
    ensures SpeaksUp(env, s, Spoke(env, s, npc, d, reason), npc, reason) <==> SaysIn(d.actions)
  {
    if d.speech.None? {
      UnspokenExecutionSpeaksExactly(env, s, npc, d, reason);
    } else {
      var read := Apply(env, s, ReadClock);
      assert read.log == s.log && read.agents == s.agents;
      UnspokenExecutionSpeaksExactly(env, read, npc, d.(speech := None), reason);
    }
  }
}
