/** The dispatcher's book of pending requests is the one the journal tells, and
    idle planning keeps away from NPCs with a request in flight. */
module Requests {
  import opened Common
  import opened Names
  import opened Ownership
  import opened Journal
  import opened Dispatching
  import opened Scheduler
  import opened Turns
  import opened Handlers
  import opened HandlerProofs
  import opened Runs
  import opened Overlay

  lemma {:induction false} OutstandingIgnores(log: seq<Item>, more: seq<Item>)
    requires forall item <- more :: !item.Sent? && !item.Resolved?
    ensures Outstanding(log + more) == Outstanding(log)
  {
    if more == [] {
      assert log + more == log;
    } else {
      var front, last := more[..|more| - 1], more[|more| - 1];
      assert last in more && forall item <- front :: item in more;
      assert (log + more)[..|log + more| - 1] == log + front;
      OutstandingIgnores(log, front);
    }
  }

  ghost predicate DeskAgrees(s: Sys) {
    s.desk.pending == Outstanding(s.log)
  }

  lemma OutstandingSent(log: seq<Item>, id: nat, npc: string, tool: Tool)
    ensures Outstanding(log + [Sent(id, npc, tool)]) ==
            if tool in TRANSIENT_TOOLS then Outstanding(log) else Outstanding(log)[id := Request(id, npc, tool)]
  {
    assert (log + [Sent(id, npc, tool)])[..|log|] == log;
  }

  lemma DispatchKeepsDesk(env: Env, s: Sys, npc: string, tool: Tool, reason: Reason)
    requires DeskAgrees(s)
    ensures DeskAgrees(Apply(env, s, Dispatch(npc, tool, reason)))
  {
    var r := Apply(env, s, Dispatch(npc, tool, reason));
    var facts := StartLines(env, s, npc, tool, reason);
    DispatchLines(env, s, npc, tool, reason);
    OutstandingIgnores(s.log, facts);
    OutstandingSent(s.log + facts, s.nextId, npc, tool);
  }

  lemma ResolveKeepsDesk(env: Env, s: Sys, id: nat)
    requires DeskAgrees(s)
    ensures DeskAgrees(Apply(env, s, Resolve(id)))
  {
    assert (s.log + [Resolved(id)])[..|s.log|] == s.log;
    assert s.desk.Remove(id).pending == s.desk.pending - {id};
  }

  lemma ShiftKeepsDesk(env: Env, s: Sys, npc: string, change: Change, evidence: Option<ScanUpdate>)
    requires DeskAgrees(s)
    ensures DeskAgrees(ShiftedBy(env, s, npc, change, evidence))
  {
    ShiftedRest(env, s, npc, change, evidence);
    ShiftedLines(env, s, npc, change, evidence);
    if change.Go? {
      OutstandingIgnores(s.log, MoveLines(Move(npc, s.ledger.State(npc), change.to, change.reason, evidence)));
    } else {
      assert s.log + [] == s.log;
    }
  }

  lemma DeskFrame(env: Env, s: Sys, act: Act)
    requires !act.Dispatch? && !act.Resolve? && !act.Shift?
    ensures Apply(env, s, act).desk == s.desk
  {
  }

  lemma QuietLines(env: Env, s: Sys, act: Act)
    requires !act.Dispatch? && !act.Resolve?
    ensures forall item <- LinesOf(env, s, act) :: !item.Sent? && !item.Resolved?
  {
  }

  lemma OtherActsKeepDesk(env: Env, s: Sys, act: Act)
    requires DeskAgrees(s) && !act.Dispatch? && !act.Resolve? && !act.Shift?
    ensures DeskAgrees(Apply(env, s, act))
  {
    ActLines(env, s, act);
    QuietLines(env, s, act);
    DeskFrame(env, s, act);
    OutstandingIgnores(s.log, LinesOf(env, s, act));
  }

  lemma DeskStep(env: Env, s: Sys, act: Act)
    requires DeskAgrees(s) && Enabled(env, s, act)
    ensures DeskAgrees(Apply(env, s, act))
  {
    if act.Dispatch? {
      DispatchKeepsDesk(env, s, act.npc, act.tool, act.reason);
    } else if act.Resolve? {
      ResolveKeepsDesk(env, s, act.id);
    } else if act.Shift? {
      ShiftKeepsDesk(env, s, act.npc, ChangeOf(s.ledger.Lookup(act.npc), act.op), EvidenceOf(act.op));
    } else {
      OtherActsKeepDesk(env, s, act);
    }
  }

  // ---------------------------------------------------------------------
  // Consultations
  // ---------------------------------------------------------------------

  ghost predicate InFlight(log: seq<Item>, npc: string) {
    exists id <- Outstanding(log) :: Outstanding(log)[id].npc == npc && npc != ""
  }

  /** The backend is asked only for NPCs that may reason; for an idle plan only
      for one the runtime moves freely and that is not busy acting. */
  ghost predicate ConsultFits(log: seq<Item>, item: Item) {
    item.Consulted? ==>
      && MayReason(item.owner)
      && (item.reason == Idle ==>
            item.owner == AIActive && !OverlayUp(log, item.npc) && !InFlight(log, item.npc))
  }

  ghost predicate ConsultsFit(log: seq<Item>) {
    log != [] ==> ConsultsFit(log[..|log| - 1]) && ConsultFits(log[..|log| - 1], log[|log| - 1])
  }

  lemma {:induction false} ConsultsIgnore(log: seq<Item>, more: seq<Item>)
    requires ConsultsFit(log) && forall item <- more :: !item.Consulted?
    ensures ConsultsFit(log + more)
  {
    if more == [] {
      assert log + more == log;
    } else {
      var front, last := more[..|more| - 1], more[|more| - 1];
      assert last in more && forall item <- front :: item in more;
      assert (log + more)[..|log + more| - 1] == log + front;
      ConsultsIgnore(log, front);
    }
  }

  lemma BusyIsInFlight(s: Sys, npc: string)
    requires DeskAgrees(s) && InFlight(s.log, npc)
    ensures npc in s.desk.Busy()
  {
  }

  lemma ShiftConsultsNobody(env: Env, s: Sys, npc: string, change: Change, evidence: Option<ScanUpdate>)
    requires ConsultsFit(s.log)
    ensures ConsultsFit(ShiftedBy(env, s, npc, change, evidence).log)
  {
    ShiftedLines(env, s, npc, change, evidence);
    if change.Go? {
      ConsultsIgnore(s.log, MoveLines(Move(npc, s.ledger.State(npc), change.to, change.reason, evidence)));
    } else {
      assert s.log + [] == s.log;
    }
  }

  lemma ConsultingFits(env: Env, s: Sys, npc: string, reason: Reason)
    requires DeskAgrees(s) && FlagsAgree(s) && ConsultsFit(s.log) && Enabled(env, s, Consult(npc, reason))
    ensures ConsultsFit(Apply(env, s, Consult(npc, reason)).log)
  {
    var item := Consulted(npc, reason, s.ledger.State(npc));
    assert (s.log + [item])[..|s.log|] == s.log;
    if InFlight(s.log, npc) {
      BusyIsInFlight(s, npc);
    }
  }

  lemma ConsultStep(env: Env, s: Sys, act: Act)
    requires DeskAgrees(s) && FlagsAgree(s) && ConsultsFit(s.log) && Enabled(env, s, act)
    ensures ConsultsFit(Apply(env, s, act).log)
  {
    if act.Shift? {
      ShiftConsultsNobody(env, s, act.npc, ChangeOf(s.ledger.Lookup(act.npc), act.op), EvidenceOf(act.op));
    } else if act.Consult? {
      ConsultingFits(env, s, act.npc, act.reason);
    } else {
      OtherActsConsultNobody(env, s, act);
    }
  }

  lemma OtherActsConsultNobody(env: Env, s: Sys, act: Act)
    requires ConsultsFit(s.log) && Enabled(env, s, act) && !act.Shift? && !act.Consult?
    ensures ConsultsFit(Apply(env, s, act).log)
  {
    var r := Apply(env, s, act);
    var more := LinesOf(env, s, act);
    ActLines(env, s, act);
    ConsultsIgnore(s.log, more);
  }

  lemma {:induction false} RequestsAfter(env: Env, acts: seq<Act>)
    requires Legal(env, acts)
    ensures DeskAgrees(Replay(env, acts)) && ConsultsFit(Replay(env, acts).log)
  {
    if acts != [] {
      var front := acts[..|acts| - 1];
      RequestsAfter(env, front);
      OverlayAfter(env, front);
      DeskStep(env, Replay(env, front), acts[|acts| - 1]);
      ConsultStep(env, Replay(env, front), acts[|acts| - 1]);
    }
  }

  lemma {:induction false} ConsultsFitAt(log: seq<Item>, j: nat)
    requires ConsultsFit(log) && j < |log|
    ensures ConsultFits(log[..j], log[j])
  {
    if j < |log| - 1 {
      ConsultsFitAt(log[..|log| - 1], j);
      assert log[..|log| - 1][..j] == log[..j];
    }
  }

  /** After every run the pending requests are exactly those sent and not yet
      resolved, and no idle plan was asked for while one was in flight. */
  lemma IdlePlansDisturbNobody(env: Env, msgs: seq<Message>)
    ensures var s := Run(env, msgs);
            && s.desk.pending == Outstanding(s.log)
            && forall j :: 0 <= j < |s.log| ==> ConsultFits(s.log[..j], s.log[j])
  {
    var s := Run(env, msgs);
    RunIsGood(env, msgs);
    var acts :| LeadsTo(env, acts, s);
    RequestsAfter(env, acts);
    forall j | 0 <= j < |s.log|
      ensures ConsultFits(s.log[..j], s.log[j])
    {
      ConsultsFitAt(s.log, j);
    }
  }
}
