/** The dialogue-only overlay: a quest NPC is overlaid for as long as it is one,
    and while the overlay is up the runtime asks the bridge for nothing but speech. */
module Overlay {
  import opened Common
  import opened Names
  import opened Ownership
  import opened Journal
  import opened Scheduler
  import opened Handlers
  import opened HandlerProofs
  import opened Runs

  predicate IsOverlayMark(item: Item, npc: string) {
    item == OverlayRaised(npc) || item == HandedOff(npc)
  }

  lemma OverlayAfterOne(log: seq<Item>, item: Item, npc: string)
    ensures OverlayUp(log + [item], npc) ==
            if item == OverlayRaised(npc) then true
            else if item == HandedOff(npc) then false
            else OverlayUp(log, npc)
  {
    assert (log + [item])[..|log|] == log;
  }

  lemma {:induction false} OverlayIgnores(log: seq<Item>, more: seq<Item>, npc: string)
    requires forall item <- more :: !IsOverlayMark(item, npc)
    ensures OverlayUp(log + more, npc) == OverlayUp(log, npc)
  {
    if more == [] {
      assert log + more == log;
    } else {
      var front, last := more[..|more| - 1], more[|more| - 1];
      assert log + more == (log + front) + [last];
      assert last in more && forall item <- front :: item in more;
      OverlayIgnores(log, front, npc);
      OverlayAfterOne(log + front, last, npc);
    }
  }

  /** The flag in the NPC's bookkeeping is what the journal says. */
  ghost predicate FlagsAgree(s: Sys) {
    forall npc :: Overlaid(s, npc) == OverlayUp(s.log, npc)
  }

  /** QUEST_DIALOGUE, or suspended from it, implies the overlay. */
  ghost predicate QuestsOverlaid(s: Sys) {
    forall n <- s.ledger.records :: Held(s.ledger.records[n]) == QuestDialogue ==> Overlaid(s, n)
  }

  /** Under the overlay only speech has been sent. */
  ghost predicate OnlySpeechSent(log: seq<Item>) {
    log != [] ==>
      && OnlySpeechSent(log[..|log| - 1])
      && (log[|log| - 1].Sent? && OverlayUp(log[..|log| - 1], log[|log| - 1].npc) ==> log[|log| - 1].tool == Say)
  }

  lemma SentAfterOne(log: seq<Item>, item: Item)
    requires OnlySpeechSent(log)
    requires item.Sent? && OverlayUp(log, item.npc) ==> item.tool == Say
    ensures OnlySpeechSent(log + [item])
  {
    assert (log + [item])[..|log|] == log;
  }

  lemma {:induction false} SentIgnores(log: seq<Item>, more: seq<Item>)
    requires OnlySpeechSent(log) && forall item <- more :: !item.Sent?
    ensures OnlySpeechSent(log + more)
  {
    if more == [] {
      assert log + more == log;
    } else {
      assert log + more == (log + more[..|more| - 1]) + [more[|more| - 1]];
      SentIgnores(log, more[..|more| - 1]);
      SentAfterOne(log + more[..|more| - 1], more[|more| - 1]);
    }
  }

  ghost predicate OverlayInv(s: Sys) {
    FlagsAgree(s) && QuestsOverlaid(s) && OnlySpeechSent(s.log)
  }

  // ---------------------------------------------------------------------
  // Acts
  // ---------------------------------------------------------------------

  /** Only EnterQuest makes a record hold QUEST_DIALOGUE. */
  lemma OperationKeepsQuest(r: Record, op: Op, after: Record)
    requires RecordRests(r)
    requires var change := ChangeOf(r, op);
             after.state == StateAfter(r, change) &&
             after.previous == if change.Stay? then r.previous else change.previous
    ensures Held(after) == QuestDialogue ==>
              (Held(r) == QuestDialogue || op.EnterQuest?) && !HandsOff(ChangeOf(r, op))
  {
  }

  lemma MoveLinesMark(log: seq<Item>, move: Move, n: string)
    ensures OverlayUp(log + MoveLines(move), n) ==
            (OverlayUp(log, n) && !(move.to in {Release, Rockstar} && n == move.npc))
  {
    var lines := MoveLines(move);
    if move.to in {Release, Rockstar} {
      var facts := lines[..|lines| - 1];
      assert log + lines == (log + facts) + [HandedOff(move.npc)];
      OverlayIgnores(log, facts, n);
      OverlayAfterOne(log + facts, HandedOff(move.npc), n);
    } else {
      OverlayIgnores(log, lines, n);
    }
  }

  lemma ShiftedOverlaid(env: Env, s: Sys, npc: string, change: Change, evidence: Option<ScanUpdate>, n: string)
    ensures Overlaid(ShiftedBy(env, s, npc, change, evidence), n) ==
            (Overlaid(s, n) && !(HandsOff(change) && n == npc))
  {
    ShiftedRest(env, s, npc, change, evidence);
  }

  lemma ShiftKeepsFlag(env: Env, s: Sys, npc: string, change: Change, evidence: Option<ScanUpdate>, n: string)
    requires FlagsAgree(s)
    ensures var r := ShiftedBy(env, s, npc, change, evidence); Overlaid(r, n) == OverlayUp(r.log, n)
  {
    ShiftedLines(env, s, npc, change, evidence);
    ShiftedOverlaid(env, s, npc, change, evidence, n);
    if change.Go? {
      MoveLinesMark(s.log, Move(npc, s.ledger.State(npc), change.to, change.reason, evidence), n);
    } else {
      assert s.log + [] == s.log;
    }
  }

  lemma ShiftKeepsFlags(env: Env, s: Sys, npc: string, change: Change, evidence: Option<ScanUpdate>)
    requires FlagsAgree(s) && OnlySpeechSent(s.log)
    ensures var r := ShiftedBy(env, s, npc, change, evidence); FlagsAgree(r) && OnlySpeechSent(r.log)
  {
    forall n
      ensures var r := ShiftedBy(env, s, npc, change, evidence); Overlaid(r, n) == OverlayUp(r.log, n)
    {
      ShiftKeepsFlag(env, s, npc, change, evidence, n);
    }
    ShiftedLines(env, s, npc, change, evidence);
    if change.Go? {
      SentIgnores(s.log, MoveLines(Move(npc, s.ledger.State(npc), change.to, change.reason, evidence)));
    } else {
      assert s.log + [] == s.log;
    }
  }

  /** One NPC's overlay survives a change of another's, and of its own unless it
      is handed off. */
  lemma ShiftKeepsQuest(env: Env, s: Sys, npc: string, change: Change, evidence: Option<ScanUpdate>, n: string)
    requires QuestsOverlaid(s)
    requires var after := ShiftedBy(env, s, npc, change, evidence).ledger;
             npc in after.records && Held(after.records[npc]) == QuestDialogue ==> Overlaid(s, npc) && !HandsOff(change)
    ensures var r := ShiftedBy(env, s, npc, change, evidence);
            n in r.ledger.records && Held(r.ledger.records[n]) == QuestDialogue ==> Overlaid(r, n)
  {
    ShiftedRecords(env, s, npc, change, evidence);
    ShiftedOverlaid(env, s, npc, change, evidence, n);
  }

  lemma ShiftKeepsQuests(env: Env, s: Sys, npc: string, op: Op)
    requires QuestsOverlaid(s) && Rested(s.ledger) && ShiftEnabled(env, s, npc, op)
    ensures QuestsOverlaid(Shifted(env, s, npc, op))
  {
    var change := ChangeOf(s.ledger.Lookup(npc), op);
    ShiftedRecords(env, s, npc, change, EvidenceOf(op));
    OperationKeepsQuest(s.ledger.Lookup(npc), op, Shifted(env, s, npc, op).ledger.records[npc]);
    forall n
      ensures var r := Shifted(env, s, npc, op);
              n in r.ledger.records && Held(r.ledger.records[n]) == QuestDialogue ==> Overlaid(r, n)
    {
      ShiftKeepsQuest(env, s, npc, change, EvidenceOf(op), n);
    }
  }

  lemma ShiftKeepsOverlay(env: Env, s: Sys, npc: string, op: Op)
    requires OverlayInv(s) && Rested(s.ledger) && ShiftEnabled(env, s, npc, op)
    ensures OverlayInv(Shifted(env, s, npc, op))
  {
    ShiftKeepsFlags(env, s, npc, ChangeOf(s.ledger.Lookup(npc), op), EvidenceOf(op));
    ShiftKeepsQuests(env, s, npc, op);
  }

  lemma RaisingKeepsOverlay(env: Env, s: Sys, npc: string)
    requires OverlayInv(s) && npc in s.agents
    ensures OverlayInv(Apply(env, s, RaiseOverlay(npc)))
  {
    forall n
      ensures OverlayUp(s.log + [OverlayRaised(npc)], n) == (n == npc || OverlayUp(s.log, n))
    {
      OverlayAfterOne(s.log, OverlayRaised(npc), n);
    }
    SentAfterOne(s.log, OverlayRaised(npc));
  }

  lemma DispatchKeepsOverlay(env: Env, s: Sys, npc: string, tool: Tool, reason: Reason)
    requires OverlayInv(s) && Enabled(env, s, Dispatch(npc, tool, reason))
    ensures OverlayInv(Apply(env, s, Dispatch(npc, tool, reason)))
  {
    var r := Apply(env, s, Dispatch(npc, tool, reason));
    var facts := StartLines(env, s, npc, tool, reason);
    DispatchLines(env, s, npc, tool, reason);
    forall n
      ensures OverlayUp(r.log, n) == OverlayUp(s.log, n) && OverlayUp(s.log + facts, n) == OverlayUp(s.log, n)
    {
      OverlayIgnores(s.log, facts, n);
      OverlayAfterOne(s.log + facts, Sent(s.nextId, npc, tool), n);
    }
    SentIgnores(s.log, facts);
    SentAfterOne(s.log + facts, Sent(s.nextId, npc, tool));
  }

  lemma FrameKeepsOverlay(s: Sys, r: Sys, more: seq<Item>)
    requires OverlayInv(s) && r.log == s.log + more
    requires forall item <- more :: item.Fact? || item.Consulted? || item.Resolved?
    requires forall n :: Overlaid(r, n) == Overlaid(s, n)
    requires forall n <- r.ledger.records ::
               r.ledger.records[n] == if n in s.ledger.records then s.ledger.records[n] else FRESH
    ensures OverlayInv(r)
  {
    SentIgnores(s.log, more);
    forall n
      ensures OverlayUp(r.log, n) == OverlayUp(s.log, n)
    {
      OverlayIgnores(s.log, more, n);
    }
  }

  lemma AgentActsKeepFlag(env: Env, s: Sys, act: Act, n: string)
    requires Enabled(env, s, act)
    requires act.Meet? || act.Converse? || act.Hear? || act.AdoptGoal? || act.Revise?
    ensures Overlaid(Apply(env, s, act), n) == Overlaid(s, n)
  {
  }

  lemma AgentActsKeepOverlay(env: Env, s: Sys, act: Act)
    requires OverlayInv(s) && Enabled(env, s, act)
    requires act.Meet? || act.Converse? || act.Hear? || act.AdoptGoal? || act.Revise?
    ensures OverlayInv(Apply(env, s, act))
  {
    ActLines(env, s, act);
    LedgerFrame(env, s, act);
    forall n
      ensures Overlaid(Apply(env, s, act), n) == Overlaid(s, n)
    {
      AgentActsKeepFlag(env, s, act, n);
    }
    FrameKeepsOverlay(s, Apply(env, s, act), LinesOf(env, s, act));
  }

  lemma OtherActsKeepOverlay(env: Env, s: Sys, act: Act)
    requires OverlayInv(s) && Enabled(env, s, act)
    requires !act.Shift? && !act.RaiseOverlay? && !act.Dispatch?
    requires !(act.Meet? || act.Converse? || act.Hear? || act.AdoptGoal? || act.Revise?)
    ensures OverlayInv(Apply(env, s, act))
  {
    var r := Apply(env, s, act);
    var more := LinesOf(env, s, act);
    ActLines(env, s, act);
    LedgerFrame(env, s, act);
    assert r.agents == s.agents;
    FrameKeepsOverlay(s, r, more);
  }

  lemma OverlayStep(env: Env, s: Sys, act: Act)
    requires OverlayInv(s) && Rested(s.ledger) && Enabled(env, s, act)
    ensures OverlayInv(Apply(env, s, act))
  {
    match act {
      case Shift(npc, op) => ShiftKeepsOverlay(env, s, npc, op);
      case RaiseOverlay(npc) => RaisingKeepsOverlay(env, s, npc);
      case Dispatch(npc, tool, reason) => DispatchKeepsOverlay(env, s, npc, tool, reason);
      case _ =>
        if act.Meet? || act.Converse? || act.Hear? || act.AdoptGoal? || act.Revise? {
          AgentActsKeepOverlay(env, s, act);
        } else {
          OtherActsKeepOverlay(env, s, act);
        }
    }
  }

  lemma {:induction false} OverlayAfter(env: Env, acts: seq<Act>)
    requires Legal(env, acts)
    ensures OverlayInv(Replay(env, acts))
  {
    if acts != [] {
      var front := acts[..|acts| - 1];
      OverlayAfter(env, front);
      StructureAfter(env, front);
      OverlayStep(env, Replay(env, front), acts[|acts| - 1]);
    }
  }

  // ---------------------------------------------------------------------
  // Every run
  // ---------------------------------------------------------------------

  lemma {:induction false} OnlySpeechSentAt(log: seq<Item>, i: nat, j: nat, npc: string)
    requires OnlySpeechSent(log) && i < j < |log|
    requires log[i] == OverlayRaised(npc) && log[j].Sent? && log[j].npc == npc
    requires forall k :: i < k < j ==> log[k] != HandedOff(npc)
    ensures log[j].tool == Say
    decreases |log|
  {
    var front := log[..|log| - 1];
    if j == |log| - 1 {
      OverlayStaysUp(front, i, npc);
    } else {
      OnlySpeechSentAt(front, i, j, npc);
    }
  }

  lemma {:induction false} OverlayStaysUp(log: seq<Item>, i: nat, npc: string)
    requires i < |log| && log[i] == OverlayRaised(npc)
    requires forall k :: i < k < |log| ==> log[k] != HandedOff(npc)
    ensures OverlayUp(log, npc)
  {
    if i < |log| - 1 {
      OverlayStaysUp(log[..|log| - 1], i, npc);
    }
  }

  /** While the overlay is up, only `say` is sent. */
  ghost predicate OnlySpeechWhileUp(log: seq<Item>) {
    forall npc, i: nat, j: nat ::
      (i < j < |log| && log[i] == OverlayRaised(npc) && log[j].Sent? && log[j].npc == npc &&
       forall k :: i < k < j ==> log[k] != HandedOff(npc))
      ==> log[j].tool == Say
  }

  lemma SpeechWhileUp(log: seq<Item>)
    requires OnlySpeechSent(log)
    ensures OnlySpeechWhileUp(log)
  {
    forall npc, i: nat, j: nat |
      i < j < |log| && log[i] == OverlayRaised(npc) && log[j].Sent? && log[j].npc == npc &&
      (forall k :: i < k < j ==> log[k] != HandedOff(npc))
      ensures log[j].tool == Say
    {
      OnlySpeechSentAt(log, i, j, npc);
    }
  }

  /** After every run: a quest NPC is overlaid, and from the moment the overlay
      goes up until the NPC is handed back to Rockstar every request sent for it
      is `say`, wherever push-to-talk may have moved it meanwhile. */
  lemma QuestNpcsOnlySpeak(env: Env, msgs: seq<Message>)
    ensures var s := Run(env, msgs);
            && (forall n <- s.ledger.records :: Held(s.ledger.records[n]) == QuestDialogue ==> Overlaid(s, n))
            && OnlySpeechWhileUp(s.log)
  {
    var s := Run(env, msgs);
    RunIsGood(env, msgs);
    var acts :| LeadsTo(env, acts, s);
    OverlayAfter(env, acts);
    SpeechWhileUp(s.log);
  }
}
