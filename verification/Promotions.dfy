/** Which deferred NPCs a promotion activates, and how releasing everybody ends. */
module Promotions {
  import opened Common
  import opened Names
  import opened Ownership
  import opened Decisions
  import opened Journal
  import opened Scheduler
  import opened Turns
  import opened Handlers
  import opened HandlerProofs
  import opened Runs

  function Min(a: int, b: int): int {
    if a < b then a else b
  }

  /** Those of `ids` that are aware, in the same order. */
  function AwareIn(ledger: Ledger, ids: seq<string>): (r: seq<string>)
    ensures forall x <- r :: x in ids && ledger.State(x) == Aware
  {
    if ids == [] then []
    else (if ledger.State(ids[0]) == Aware then [ids[0]] else []) + AwareIn(ledger, ids[1..])
  }

  ghost function FreeSlots(env: Env, s: Sys): nat {
    Max(0, env.settings.maxReasoning - |Active(s)|)
  }

  /** How many of the waiting NPCs a promotion activates. */
  ghost function Places(env: Env, s: Sys): (k: nat)
    ensures k <= |AwareIn(s.ledger, s.queue)|
  {
    Min(|AwareIn(s.ledger, s.queue)|, FreeSlots(env, s))
  }

  /** `r` is `s` with the first `n` entries taken off the queue and exactly the
      NPCs `chosen` active that were aware before. */
  ghost predicate Activates(s: Sys, r: Sys, n: nat, chosen: seq<string>) {
    && n <= |s.queue| && r.queue == s.queue[n..]
    && AwareIn(s.ledger, s.queue[..n]) == chosen
    && r.ledger.order == s.ledger.order && r.ledger.records.Keys == s.ledger.records.Keys
    && forall x :: r.ledger.State(x) == if x in chosen then AIActive else s.ledger.State(x)
  }

  ghost predicate PromotesFirst(s: Sys, r: Sys, chosen: seq<string>) {
    exists n: nat :: Activates(s, r, n, chosen)
  }

  lemma {:induction false} AwareInAgrees(a: Ledger, b: Ledger, ids: seq<string>)
    requires forall x <- ids :: a.State(x) == b.State(x)
    ensures AwareIn(a, ids) == AwareIn(b, ids)
  {
    if ids != [] {
      AwareInAgrees(a, b, ids[1..]);
    }
  }

  lemma {:induction false} AwareInPrefix(ledger: Ledger, ids: seq<string>, n: nat)
    requires 0 < n <= |ids|
    ensures AwareIn(ledger, ids[..n]) ==
            (if ledger.State(ids[0]) == Aware then [ids[0]] else []) + AwareIn(ledger, ids[1..][..n - 1])
  {
    assert ids[..n][1..] == ids[1..][..n - 1];
  }

  /** Activation moves one aware NPC to AI_ACTIVE and nothing else in the ledger. */
  lemma ActivationMovesOne(env: Env, s: Sys, npc: string, reason: Reason, trigger: Option<Trigger>)
    requires Good(env, s) && 0.0 <= env.settings.candidateDistance && reason != Idle
    requires s.ledger.State(npc) == Aware && HasSlot(env, s)
    ensures var r := Activated(env, s, npc, reason, trigger);
            && r.queue == s.queue && r.reasons == s.reasons
            && r.ledger.order == s.ledger.order && r.ledger.records.Keys == s.ledger.records.Keys
            && r.ledger.State(npc) == AIActive
            && forall x :: x != npc ==> r.ledger.State(x) == s.ledger.State(x)
  {
    var update := Scan(TriggerUpdate(env));
    var s1 := Shifted(env, s, npc, update);
    TriggerActivates(env, s.ledger.Lookup(npc));
    ShiftActivates(env, s, npc, ChangeOf(s.ledger.Lookup(npc), update), EvidenceOf(update));
    ShiftIsCalm(env, s, npc, update);
    TurnIsCalm(env, s1, npc, reason, trigger);
  }

  lemma TriggerActivates(env: Env, r: Record)
    requires 0.0 <= env.settings.candidateDistance && r.state == Aware
    ensures ChangeOf(r, Scan(TriggerUpdate(env))) == Go(AIActive, MeaningfulTrigger, r.previous)
  {
  }

  lemma ShiftActivates(env: Env, s: Sys, npc: string, change: Change, evidence: Option<ScanUpdate>)
    requires s.ledger.State(npc) == Aware && change.Go? && change.to == AIActive
    ensures var r := ShiftedBy(env, s, npc, change, evidence);
            && r.queue == s.queue && r.reasons == s.reasons
            && r.ledger.order == s.ledger.order && r.ledger.records.Keys == s.ledger.records.Keys
            && r.ledger.State(npc) == AIActive && npc in r.ledger.records
            && forall x :: x != npc ==> r.ledger.State(x) == s.ledger.State(x)
  {
    ShiftedRecords(env, s, npc, change, evidence);
    ShiftedRest(env, s, npc, change, evidence);
  }

  lemma ActiveGrowsByOne(s: Sys, r: Sys, npc: string)
    requires r.ledger.records.Keys == s.ledger.records.Keys && npc in s.ledger.records
    requires s.ledger.State(npc) == Aware && r.ledger.State(npc) == AIActive
    requires forall x :: x != npc ==> r.ledger.State(x) == s.ledger.State(x)
    ensures |Active(r)| == |Active(s)| + 1
  {
    forall x
      ensures x in Active(r) <==> x in Active(s) + {npc}
    {
      assert r.ledger.State(x) == if x == npc then AIActive else s.ledger.State(x);
    }
    assert Active(r) == Active(s) + {npc};
  }

  /** One entry off the queue, activated or not, then the rest. */
  lemma ActivatesChains(s: Sys, t: Sys, r: Sys, n: nat, chosen: seq<string>)
    requires NoDup(s.queue) && s.queue != [] && t.queue == s.queue[1..]
    requires t.ledger.order == s.ledger.order && t.ledger.records.Keys == s.ledger.records.Keys
    requires var npc := s.queue[0];
             && (forall x :: x != npc ==> t.ledger.State(x) == s.ledger.State(x))
             && t.ledger.State(npc) == if s.ledger.State(npc) == Aware then AIActive else s.ledger.State(npc)
    requires Activates(t, r, n, chosen)
    ensures var npc := s.queue[0];
            Activates(s, r, n + 1, if s.ledger.State(npc) == Aware then [npc] + chosen else chosen)
  {
    var npc := s.queue[0];
    AwareInPrefix(s.ledger, s.queue, n + 1);
    AwareInAgrees(t.ledger, s.ledger, s.queue[1..][..n]);
  }

  lemma PlacesAfterOne(env: Env, s: Sys, t: Sys)
    requires NoDup(s.queue) && s.queue != [] && t.queue == s.queue[1..] && HasSlot(env, s)
    requires forall x :: x != s.queue[0] ==> t.ledger.State(x) == s.ledger.State(x)
    requires |Active(t)| == |Active(s)| + if s.ledger.State(s.queue[0]) == Aware then 1 else 0
    ensures var waiting := AwareIn(s.ledger, s.queue);
            var left := AwareIn(t.ledger, t.queue);
            && waiting == (if s.ledger.State(s.queue[0]) == Aware then [s.queue[0]] else []) + left
            && waiting[..Places(env, s)] ==
                 (if s.ledger.State(s.queue[0]) == Aware then [s.queue[0]] else []) + left[..Places(env, t)]
  {
    AwareInAgrees(t.ledger, s.ledger, s.queue[1..]);
  }

  /** A promotion activates exactly the first min(free slots, waiting) of the
      still-aware NPCs, oldest first, and leaves either an empty queue or a full
      house; nobody else moves and the rest of the queue keeps its order. */
  lemma {:induction false} PromotionIsExact(env: Env, s: Sys)
    requires Good(env, s) && 0.0 <= env.settings.candidateDistance
    ensures var r := Promoted(env, s);
            && PromotesFirst(s, r, AwareIn(s.ledger, s.queue)[..Places(env, s)])
            && (r.queue == [] || !HasSlot(env, r))
    decreases |s.queue|
  {
    var r := Promoted(env, s);
    if s.queue == [] || !HasSlot(env, s) {
      assert s.queue[..0] == [] && s.queue[0..] == s.queue;
      var chosen := AwareIn(s.ledger, s.queue)[..Places(env, s)];
      assert chosen == [];
      assert Activates(s, r, 0, chosen);
    } else {
      var t := AfterFirst(env, s);
      PromotionIsExact(env, t);
      var n: nat :| Activates(t, r, n, AwareIn(t.ledger, t.queue)[..Places(env, t)]);
      PlacesAfterOne(env, s, t);
      ActivatesChains(s, t, r, n, AwareIn(t.ledger, t.queue)[..Places(env, t)]);
      assert Activates(s, r, n + 1, AwareIn(s.ledger, s.queue)[..Places(env, s)]);
    }
  }

  /** The state after the loop has dealt with the oldest entry. */
  lemma AfterFirst(env: Env, s: Sys) returns (t: Sys)
    requires Good(env, s) && 0.0 <= env.settings.candidateDistance
    requires s.queue != [] && HasSlot(env, s)
    ensures Good(env, t) && Promoted(env, s) == Promoted(env, t)
    ensures NoDup(s.queue) && t.queue == s.queue[1..]
    ensures t.ledger.order == s.ledger.order && t.ledger.records.Keys == s.ledger.records.Keys
    ensures var npc := s.queue[0];
            && (forall x :: x != npc ==> t.ledger.State(x) == s.ledger.State(x))
            && t.ledger.State(npc) == (if s.ledger.State(npc) == Aware then AIActive else s.ledger.State(npc))
            && |Active(t)| == |Active(s)| + if s.ledger.State(npc) == Aware then 1 else 0
  {
    var npc := s.queue[0];
    StructureHolds(env, s);
    PopKeepsStructure(env, s);
    QuietActIsCalm(env, s, Pop);
    QuietActIsCalm(env, Apply(env, s, Pop), See(npc));
    t := Apply(env, Apply(env, s, Pop), See(npc));
    assert t.ledger == s.ledger;
    if s.ledger.State(npc) == Aware {
      var popped := t;
      t := Activated(env, popped, npc, Promotion(s.reasons[npc]), None);
      ActivationIsCalm(env, popped, npc, Promotion(s.reasons[npc]), None);
      ActivationMovesOne(env, popped, npc, Promotion(s.reasons[npc]), None);
      ActiveGrowsByOne(popped, t, npc);
      assert Active(popped) == Active(s);
    }
  }

  // ---------------------------------------------------------------------
  // Releasing everybody
  // ---------------------------------------------------------------------

  lemma PromotionSparesRockstar(env: Env, s: Sys)
    requires Good(env, s) && 0.0 <= env.settings.candidateDistance
    ensures var r := Promoted(env, s);
            OnlyReleases(s, r)
  {
    PromotionIsExact(env, s);
  }

  /** Nobody new among the records, and Rockstar's NPCs stay Rockstar's. */
  ghost predicate OnlyReleases(s: Sys, r: Sys) {
    && r.ledger.order == s.ledger.order && r.ledger.records.Keys == s.ledger.records.Keys
    && forall x :: s.ledger.State(x) == Rockstar ==> r.ledger.State(x) == Rockstar
  }

  lemma ReleaseMove(env: Env, s: Sys, npc: string, reason: Why)
    requires Rested(s.ledger) && npc in s.ledger.records
    ensures var r := Shifted(env, s, npc, RequestRelease(reason));
            OnlyReleases(s, r) && r.ledger.State(npc) == Rockstar
  {
    var op := RequestRelease(reason);
    ShiftedRecords(env, s, npc, ChangeOf(s.ledger.Lookup(npc), op), EvidenceOf(op));
  }

  lemma CarriedRelease(env: Env, s: Sys, npc: string, reason: Why)
    requires Good(env, s) && 0.0 <= env.settings.candidateDistance && npc in s.ledger.records
    ensures var r := Carried(env, s, npc, RequestRelease(reason));
            OnlyReleases(s, r) && r.ledger.State(npc) == Rockstar
  {
    StructureHolds(env, s);
    ShiftIsCalm(env, s, npc, RequestRelease(reason));
    ReleaseMove(env, s, npc, reason);
    PromotionSparesRockstar(env, Shifted(env, s, npc, RequestRelease(reason)));
  }

  lemma ReleasingOne(env: Env, s: Sys, npc: string, reason: Why)
    requires Good(env, s) && 0.0 <= env.settings.candidateDistance && npc in s.ledger.records
    ensures var r := ReleaseOne(env, s, npc, reason);
            OnlyReleases(s, r) && r.ledger.State(npc) == Rockstar
  {
    StructureHolds(env, s);
    var seen := Apply(env, s, See(npc));
    assert seen.ledger == s.ledger;
    if s.ledger.State(npc) != Rockstar {
      QuietActIsCalm(env, s, See(npc));
      CarriedRelease(env, seen, npc, reason);
    }
  }

  lemma {:induction false} ReleasingEach(env: Env, s: Sys, ids: seq<string>, reason: Why)
    requires Good(env, s) && 0.0 <= env.settings.candidateDistance
    requires forall x <- ids :: x in s.ledger.records
    ensures var r := EachReleased(env, s, ids, reason);
            && Good(env, r) && OnlyReleases(s, r)
            && forall x <- ids :: r.ledger.State(x) == Rockstar
  {
    ReleasingIsCalm(env, s, ids, reason);
    if ids != [] {
      var front, last := ids[..|ids| - 1], ids[|ids| - 1];
      assert last in ids && forall x <- front :: x in ids;
      ReleasingEach(env, s, front, reason);
      var t := EachReleased(env, s, front, reason);
      ReleasingOne(env, t, last, reason);
      ReleasesChain(s, t, ReleaseOne(env, t, last, reason), ids);
    }
  }

  lemma ReleasesChain(s: Sys, t: Sys, r: Sys, ids: seq<string>)
    requires ids != [] && OnlyReleases(s, t) && OnlyReleases(t, r)
    requires forall x <- ids[..|ids| - 1] :: t.ledger.State(x) == Rockstar
    requires r.ledger.State(ids[|ids| - 1]) == Rockstar
    ensures OnlyReleases(s, r) && forall x <- ids :: r.ledger.State(x) == Rockstar
  {
    assert forall x <- ids :: x in ids[..|ids| - 1] || x == ids[|ids| - 1];
  }

  /** With every record Rockstar's nobody can be waiting. */
  lemma NobodyWaits(s: Sys)
    requires QueueInv(s) && forall npc <- s.ledger.records :: s.ledger.records[npc].state == Rockstar
    ensures s.queue == [] && s.reasons == map[]
  {
    forall npc
      ensures npc !in s.reasons
    {
      assert Held(s.ledger.Lookup(npc)) == Rockstar;
    }
    assert s.reasons.Keys == {};
    ListsCount(s.queue, s.reasons.Keys);
  }

  /** Releasing everybody ends with every record owned by Rockstar and nobody
      waiting, although each release may promote a deferred NPC while the loop
      is still running. */
  lemma ReleaseAllReleasesAll(env: Env, s: Sys, reason: Why)
    requires Good(env, s) && 0.0 <= env.settings.candidateDistance
    ensures var r := Handle(env, s, ReleaseAll(reason));
            && (forall npc :: r.ledger.State(npc) == Rockstar)
            && r.queue == [] && r.reasons == map[]
            && r.ledger.order == s.ledger.order
  {
    StructureHolds(env, s);
    ReleasingEach(env, s, s.ledger.order, reason);
    var r := EachReleased(env, s, s.ledger.order, reason);
    StructureHolds(env, r);
    EverybodyReleased(s, r);
    NobodyWaits(r);
  }

  lemma EverybodyReleased(s: Sys, r: Sys)
    requires Rested(s.ledger) && OnlyReleases(s, r)
    requires forall x <- s.ledger.order :: r.ledger.State(x) == Rockstar
    ensures forall npc :: r.ledger.State(npc) == Rockstar
    ensures forall npc <- r.ledger.records :: r.ledger.records[npc].state == Rockstar
  {
    forall npc | npc in r.ledger.records
      ensures r.ledger.State(npc) == Rockstar
    {
      assert npc in s.ledger.order;
    }
  }

  /** The same, from every state a run of messages reaches. */
  lemma EveryRunCanBeReleased(env: Env, msgs: seq<Message>, reason: Why)
    requires 0.0 <= env.settings.candidateDistance
    ensures var r := Run(env, msgs + [ReleaseAll(reason)]);
            && (forall npc :: r.ledger.State(npc) == Rockstar)
            && r.queue == [] && r.reasons == map[]
  {
    RunIsGood(env, msgs);
    assert (msgs + [ReleaseAll(reason)])[..|msgs|] == msgs;
    ReleaseAllReleasesAll(env, Run(env, msgs), reason);
  }

  // ---------------------------------------------------------------------
  // Between messages
  // ---------------------------------------------------------------------

  /** Between messages no record rests in RELEASE, the queue lists exactly the
      keys of its reason map, each once, and everybody on it is engaged. */
  lemma RunsAreStructured(env: Env, msgs: seq<Message>)
    ensures var s := Run(env, msgs);
            && Structure(s)
            && (forall npc :: s.ledger.State(npc) != Release)
            && forall npc <- s.queue ::
                 s.ledger.State(npc) in {Aware, AIActive, AIConversation, QuestDialogue, Suspended}
  {
    RunIsGood(env, msgs);
    StructureHolds(env, Run(env, msgs));
  }

  // ---------------------------------------------------------------------
  // The queue as an ordered map
  // ---------------------------------------------------------------------

  datatype Entry = Entry(npc: string, reason: Reason)

  /** Assignment in an ordered map: in place, or at the end. */
  function Put(entries: seq<Entry>, npc: string, reason: Reason): seq<Entry> {
    if entries == [] then [Entry(npc, reason)]
    else if entries[0].npc == npc then [Entry(npc, reason)] + entries[1..]
    else [entries[0]] + Put(entries[1..], npc, reason)
  }

  function Cut(entries: seq<Entry>, npc: string): seq<Entry> {
    if entries == [] then []
    else if entries[0].npc == npc then entries[1..]
    else [entries[0]] + Cut(entries[1..], npc)
  }

  /** Slice and map read as one ordered map. */
  function Entries(queue: seq<string>, reasons: map<string, Reason>): seq<Entry> {
    if queue == [] then []
    else
      [Entry(queue[0], if queue[0] in reasons then reasons[queue[0]] else Idle)] + Entries(queue[1..], reasons)
  }

  /** What an act does to the ordered map. */
  function QueueEffect(s: Sys, act: Act, entries: seq<Entry>): seq<Entry> {
    match act
    case Defer(npc, reason) => Put(entries, npc, reason)
    case Pop => if entries == [] then [] else entries[1..]
    case Shift(npc, op) => if HandsOff(ChangeOf(s.ledger.Lookup(npc), op)) then Cut(entries, npc) else entries
    case _ => entries
  }

  lemma {:induction false} EntriesAgree(queue: seq<string>, a: map<string, Reason>, b: map<string, Reason>)
    requires forall n <- queue :: (n in a <==> n in b) && (n in a ==> a[n] == b[n])
    ensures Entries(queue, a) == Entries(queue, b)
  {
    if queue != [] {
      EntriesAgree(queue[1..], a, b);
    }
  }

  lemma {:induction false} PuttingAgrees(queue: seq<string>, reasons: map<string, Reason>, npc: string, reason: Reason)
    requires NoDup(queue)
    ensures Entries(if npc in queue then queue else queue + [npc], reasons[npc := reason]) ==
            Put(Entries(queue, reasons), npc, reason)
  {
    var next := reasons[npc := reason];
    if queue == [] {
      assert queue + [npc] == [npc] && [npc][1..] == [];
    } else if queue[0] == npc {
      assert npc !in queue[1..];
      EntriesAgree(queue[1..], reasons, next);
    } else {
      PuttingAgrees(queue[1..], reasons, npc, reason);
      assert (queue + [npc])[1..] == queue[1..] + [npc];
      assert npc in queue <==> npc in queue[1..];
    }
  }

  lemma {:induction false} CuttingAgrees(queue: seq<string>, reasons: map<string, Reason>, npc: string)
    requires NoDup(queue)
    ensures Entries(Drop(queue, npc), reasons - {npc}) == Cut(Entries(queue, reasons), npc)
  {
    if queue != [] {
      if queue[0] == npc {
        assert npc !in queue[1..];
        EntriesAgree(queue[1..], reasons, reasons - {npc});
      } else {
        CuttingAgrees(queue[1..], reasons, npc);
      }
    }
  }

  lemma {:induction false} CuttingNothing(queue: seq<string>, reasons: map<string, Reason>, npc: string)
    requires npc !in queue
    ensures Cut(Entries(queue, reasons), npc) == Entries(queue, reasons)
  {
    if queue != [] {
      CuttingNothing(queue[1..], reasons, npc);
    }
  }

  lemma HandOffCuts(env: Env, s: Sys, npc: string, change: Change, evidence: Option<ScanUpdate>)
    requires QueueInv(s) && HandsOff(change)
    ensures var r := ShiftedBy(env, s, npc, change, evidence);
            Entries(r.queue, r.reasons) == Cut(Entries(s.queue, s.reasons), npc)
  {
    ShiftedRest(env, s, npc, change, evidence);
    if npc in s.reasons {
      CuttingAgrees(s.queue, s.reasons, npc);
    } else {
      CuttingNothing(s.queue, s.reasons, npc);
    }
  }

  lemma PoppingAgrees(env: Env, s: Sys)
    requires QueueInv(s) && s.queue != []
    ensures var r := Apply(env, s, Pop);
            Entries(r.queue, r.reasons) == Entries(s.queue, s.reasons)[1..]
  {
    assert s.queue[0] !in s.queue[1..];
    EntriesAgree(s.queue[1..], s.reasons, s.reasons - {s.queue[0]});
  }

  /** Every act does to slice and map what it does to the ordered map: a first
      deferral joins at the end, a repeated one keeps its place and takes the new
      reason, a pop takes the oldest, a hand-off takes exactly its own NPC out,
      and nothing else touches them. */
  lemma ActRefinesOrderedMap(env: Env, s: Sys, act: Act)
    requires QueueInv(s) && Enabled(env, s, act)
    ensures var r := Apply(env, s, act);
            Entries(r.queue, r.reasons) == QueueEffect(s, act, Entries(s.queue, s.reasons))
  {
    if act.Defer? {
      PuttingAgrees(s.queue, s.reasons, act.npc, act.reason);
      assert act.npc in s.queue <==> act.npc in s.reasons.Keys;
    } else if act.Pop? {
      PoppingAgrees(env, s);
    } else if act.Shift? {
      var change := ChangeOf(s.ledger.Lookup(act.npc), act.op);
      if HandsOff(change) {
        HandOffCuts(env, s, act.npc, change, EvidenceOf(act.op));
      } else {
        ShiftedRest(env, s, act.npc, change, EvidenceOf(act.op));
      }
    } else {
      OtherActsKeepQueue(env, s, act);
    }
  }

  lemma OtherActsKeepQueue(env: Env, s: Sys, act: Act)
    requires !act.Defer? && !act.Pop? && !act.Shift?
    ensures Apply(env, s, act).queue == s.queue && Apply(env, s, act).reasons == s.reasons
  {
  }

  /** The ordered map after a run of acts. */
  ghost function OrderedMapAfter(env: Env, acts: seq<Act>): seq<Entry> {
    if acts == [] then []
    else
      QueueEffect(Replay(env, acts[..|acts| - 1]), acts[|acts| - 1], OrderedMapAfter(env, acts[..|acts| - 1]))
  }

  /** Over every run of enabled acts slice and map together are the ordered map. */
  lemma {:induction false} QueueRefinesOrderedMap(env: Env, acts: seq<Act>)
    requires Legal(env, acts)
    ensures var s := Replay(env, acts);
            Entries(s.queue, s.reasons) == OrderedMapAfter(env, acts)
  {
    if acts != [] {
      var front := acts[..|acts| - 1];
      QueueRefinesOrderedMap(env, front);
      StructureAfter(env, front);
      ActRefinesOrderedMap(env, Replay(env, front), acts[|acts| - 1]);
    }
  }

  /** And every run of messages is such a run of acts. */
  lemma RunsRefineOrderedMap(env: Env, msgs: seq<Message>)
    ensures var s := Run(env, msgs);
            exists acts :: LeadsTo(env, acts, s) && Entries(s.queue, s.reasons) == OrderedMapAfter(env, acts)
  {
    RunIsGood(env, msgs);
    var acts :| LeadsTo(env, acts, Run(env, msgs));
    QueueRefinesOrderedMap(env, acts);
  }
}
