/** The timeline tells suspensions truly: for each NPC the runtime's
    AGENT_SUSPENDED and AGENT_RESUMED lines alternate, unmatched exactly while
    the NPC is suspended. */
module Suspensions {
  import opened Common
  import opened Names
  import opened Ownership
  import opened Journal
  import opened Scheduler
  import opened Handlers
  import opened HandlerProofs
  import opened Runs

  predicate IsMark(item: Item, npc: string) {
    item.Fact? && item.npc == npc && item.author == ByRuntime && item.name in {AgentSuspended, AgentResumed}
  }

  lemma {:induction false} MarkIgnores(log: seq<Item>, more: seq<Item>, npc: string)
    requires forall item <- more :: !IsMark(item, npc)
    ensures SuspensionMark(log + more, npc) == SuspensionMark(log, npc)
  {
    if more == [] {
      assert log + more == log;
    } else {
      var front, last := more[..|more| - 1], more[|more| - 1];
      assert last in more && forall item <- front :: item in more;
      assert (log + more)[..|log + more| - 1] == log + front;
      MarkIgnores(log, front, npc);
    }
  }

  ghost predicate MarksAgree(s: Sys) {
    forall npc :: SuspensionMark(s.log, npc) == Some(s.ledger.State(npc) == Suspended)
  }

  /** A mark that is due, whatever unmarked lines follow it. */
  lemma MarkTurns(log: seq<Item>, mark: Item, rest: seq<Item>, npc: string)
    requires IsMark(mark, npc) && SuspensionMark(log, npc) == Some(mark.name == AgentResumed)
    requires forall item <- rest :: !IsMark(item, npc)
    ensures SuspensionMark(log + ([mark] + rest), npc) == Some(mark.name == AgentSuspended)
  {
    assert log + ([mark] + rest) == (log + [mark]) + rest;
    assert (log + [mark])[..|log|] == log;
    MarkIgnores(log + [mark], rest, npc);
  }

  lemma MoveLinesMarks(log: seq<Item>, move: Move, n: string)
    requires SuspensionMark(log, n).Some?
    requires n == move.npc ==> SuspensionMark(log, n).value == (move.from == Suspended)
    requires move.from == Suspended ==> move.to != Suspended
    ensures SuspensionMark(log + MoveLines(move), n) ==
            Some(if n == move.npc then move.to == Suspended else SuspensionMark(log, n).value)
  {
    var lines := MoveLines(move);
    if n != move.npc || (move.from != Suspended && move.to != Suspended) {
      MarkIgnores(log, lines, n);
    } else {
      assert lines == [lines[0]] + lines[1..];
      MarkTurns(log, lines[0], lines[1..], n);
    }
  }

  lemma NeverSuspendedTwice(r: Record, op: Op)
    requires r.state == Suspended && ChangeOf(r, op).Go?
    ensures ChangeOf(r, op).to != Suspended
  {
  }

  lemma ShiftKeepsMark(env: Env, s: Sys, npc: string, change: Change, evidence: Option<ScanUpdate>, n: string)
    requires MarksAgree(s) && (change.Go? && s.ledger.State(npc) == Suspended ==> change.to != Suspended)
    ensures var r := ShiftedBy(env, s, npc, change, evidence);
            SuspensionMark(r.log, n) == Some(r.ledger.State(n) == Suspended)
  {
    ShiftedLines(env, s, npc, change, evidence);
    ShiftedRecords(env, s, npc, change, evidence);
    if change.Go? {
      MoveLinesMarks(s.log, Move(npc, s.ledger.State(npc), change.to, change.reason, evidence), n);
    } else {
      assert s.log + [] == s.log;
    }
  }

  /** No other act writes a mark or moves a record. */
  lemma OtherActsWriteNoMark(env: Env, s: Sys, act: Act, npc: string)
    requires Enabled(env, s, act) && !act.Shift?
    ensures SuspensionMark(Apply(env, s, act).log, npc) == SuspensionMark(s.log, npc)
  {
    var r := Apply(env, s, act);
    var more := LinesOf(env, s, act);
    ActLines(env, s, act);
    MarkIgnores(s.log, more, npc);
  }

  lemma MarksStep(env: Env, s: Sys, act: Act)
    requires MarksAgree(s) && Enabled(env, s, act)
    ensures MarksAgree(Apply(env, s, act))
  {
    forall n
      ensures SuspensionMark(Apply(env, s, act).log, n) == Some(Apply(env, s, act).ledger.State(n) == Suspended)
    {
      MarkStep(env, s, act, n);
    }
  }

  lemma MarkStep(env: Env, s: Sys, act: Act, n: string)
    requires MarksAgree(s) && Enabled(env, s, act)
    ensures SuspensionMark(Apply(env, s, act).log, n) == Some(Apply(env, s, act).ledger.State(n) == Suspended)
  {
    if act.Shift? {
      var r := s.ledger.Lookup(act.npc);
      if r.state == Suspended && ChangeOf(r, act.op).Go? {
        NeverSuspendedTwice(r, act.op);
      }
      ShiftKeepsMark(env, s, act.npc, ChangeOf(r, act.op), EvidenceOf(act.op), n);
    } else {
      OtherActsWriteNoMark(env, s, act, n);
      LedgerFrame(env, s, act);
    }
  }

  lemma {:induction false} MarksAfter(env: Env, acts: seq<Act>)
    requires Legal(env, acts)
    ensures MarksAgree(Replay(env, acts))
  {
    if acts != [] {
      MarksAfter(env, acts[..|acts| - 1]);
      MarksStep(env, Replay(env, acts[..|acts| - 1]), acts[|acts| - 1]);
    }
  }

  /** After every run the marks alternate for every NPC, and the last one is an
      unmatched suspension exactly when the NPC is suspended. */
  lemma SuspensionsAlternate(env: Env, msgs: seq<Message>)
    ensures var s := Run(env, msgs);
            forall npc :: SuspensionMark(s.log, npc) == Some(s.ledger.State(npc) == Suspended)
  {
    RunIsGood(env, msgs);
    var acts :| LeadsTo(env, acts, Run(env, msgs));
    MarksAfter(env, acts);
  }
}
