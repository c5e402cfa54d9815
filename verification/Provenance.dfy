/** Where ownership comes from: histories are connected, and no NPC is engaged
    without having passed the gate nearby or entered a quest dialogue since it
    was last Rockstar's. */
module Provenance {
  import opened Common
  import opened Names
  import opened Ownership
  import opened Journal
  import opened Scheduler
  import opened Turns
  import opened Handlers
  import opened HandlerProofs
  import opened Runs

  // ---------------------------------------------------------------------
  // Connected histories
  // ---------------------------------------------------------------------

  lemma PathExtends(history: seq<Move>, state: OwnershipState, move: Move)
    requires PathTo(history, state) && move.from == state
    ensures PathTo(history + [move], move.to)
  {
  }

  lemma StepsExtendPath(history: seq<Move>, npc: string, from: OwnershipState, change: Change, evidence: Option<ScanUpdate>, r: Record)
    requires PathTo(history, from) && r.state == from
    ensures PathTo(history + Steps(npc, from, change, evidence), StateAfter(r, change))
  {
    if change.Stay? {
      assert history + [] == history;
    } else {
      var move := Move(npc, from, change.to, change.reason, evidence);
      PathExtends(history, from, move);
      if change.to == Release {
        var last := Move(npc, Release, Rockstar, ReleaseComplete, None);
        PathExtends(history + [move], Release, last);
        assert history + Steps(npc, from, change, evidence) == (history + [move]) + [last];
      }
    }
  }

  ghost predicate HistoriesConnect(ledger: Ledger) {
    forall n <- ledger.records :: PathTo(ledger.records[n].history, ledger.records[n].state)
  }

  lemma ShiftConnects(env: Env, s: Sys, npc: string, change: Change, evidence: Option<ScanUpdate>)
    requires HistoriesConnect(s.ledger)
    ensures HistoriesConnect(ShiftedBy(env, s, npc, change, evidence).ledger)
  {
    var r := s.ledger.Lookup(npc);
    ShiftedRecords(env, s, npc, change, evidence);
    ShiftedHistory(env, s, npc, change, evidence);
    StepsExtendPath(r.history, npc, r.state, change, evidence, r);
  }

  // ---------------------------------------------------------------------
  // Earned engagement
  // ---------------------------------------------------------------------

  /** A move to AWARE by a ped scan that the gate approved within the aware distance. */
  predicate PassedGateNearby(m: Move) {
    && m.to == Aware && m.evidence.Some?
    && m.evidence.value.source == FromPedScan && m.evidence.value.eligible
    && m.evidence.value.distance <= m.evidence.value.AwareRadius()
  }

  predicate Entitles(m: Move) {
    PassedGateNearby(m) || m.to == QuestDialogue
  }

  /** An entitling move with no return to Rockstar after it. */
  predicate Earned(history: seq<Move>) {
    history != [] &&
    var last := history[|history| - 1];
    Entitles(last) || (last.to != Rockstar && Earned(history[..|history| - 1]))
  }

  /** Earned by the step at this place. */
  ghost predicate EarnedAt(history: seq<Move>, i: int) {
    && 0 <= i < |history| && Entitles(history[i])
    && forall j :: i <= j < |history| ==> history[j].to != Rockstar
  }

  lemma EarnedAtFront(history: seq<Move>, i: int)
    requires history != []
    ensures var front, last := history[..|history| - 1], history[|history| - 1];
            EarnedAt(history, i) <==>
            (EarnedAt(front, i) && last.to != Rockstar) || (i == |front| && Entitles(last))
  {
  }

  lemma {:induction false} EarnedMeans(history: seq<Move>)
    ensures Earned(history) <==> exists i :: EarnedAt(history, i)
  {
    if history != [] {
      var front, last := history[..|history| - 1], history[|history| - 1];
      EarnedMeans(front);
      forall i
        ensures EarnedAt(history, i) <==>
                (EarnedAt(front, i) && last.to != Rockstar) || (i == |front| && Entitles(last))
      {
        EarnedAtFront(history, i);
      }
      if Entitles(last) {
        assert EarnedAt(history, |front|);
      } else if Earned(history) {
        var i :| EarnedAt(front, i);
        assert EarnedAt(history, i);
      }
    }
  }

  lemma EarnedExtends(history: seq<Move>, m: Move)
    ensures Earned(history + [m]) <==> Entitles(m) || (m.to != Rockstar && Earned(history))
  {
    assert (history + [m])[..|history|] == history;
  }

  ghost predicate RecordEarned(r: Record) {
    Held(r) in ENGAGED ==> Earned(r.history)
  }

  ghost predicate AllEarned(ledger: Ledger) {
    forall n <- ledger.records :: RecordEarned(ledger.records[n])
  }

  /** World updates only count when the NPC is beyond the candidate distance;
      that is beyond the aware radius exactly when the settings are sound. */
  predicate SoundRadii(env: Env) {
    UpdateFor(env, FromWorldUpdate, 0.0, true, false).AwareRadius() <= env.settings.candidateDistance
  }

  /** An operation that makes an NPC engaged anew is itself entitling. */
  lemma OperationEarns(env: Env, s: Sys, npc: string, op: Op, after: Record)
    requires SoundRadii(env) && ShiftEnabled(env, s, npc, op) && RecordRests(s.ledger.Lookup(npc))
    requires var r := s.ledger.Lookup(npc); var change := ChangeOf(r, op);
             after.state == StateAfter(r, change) &&
             after.previous == if change.Stay? then r.previous else change.previous
    ensures var r := s.ledger.Lookup(npc); var change := ChangeOf(r, op);
            Held(after) in ENGAGED ==>
              !HandsOff(change) &&
              (Held(r) in ENGAGED ||
               (change.Go? && Entitles(Move(npc, r.state, change.to, change.reason, EvidenceOf(op)))))
  {
  }

  lemma StepsEarn(history: seq<Move>, npc: string, from: OwnershipState, change: Change, evidence: Option<ScanUpdate>)
    requires change.Go? ==> change.to !in {Release, Rockstar}
    requires Earned(history) || (change.Go? && Entitles(Move(npc, from, change.to, change.reason, evidence)))
    ensures Earned(history + Steps(npc, from, change, evidence))
  {
    if change.Go? {
      EarnedExtends(history, Move(npc, from, change.to, change.reason, evidence));
    } else {
      assert history + [] == history;
    }
  }

  lemma ShiftedRecordEarns(env: Env, s: Sys, npc: string, op: Op)
    requires SoundRadii(env) && ShiftEnabled(env, s, npc, op)
    requires RecordRests(s.ledger.Lookup(npc)) && RecordEarned(s.ledger.Lookup(npc))
    ensures RecordEarned(Shifted(env, s, npc, op).ledger.Lookup(npc))
  {
    var r := s.ledger.Lookup(npc);
    var change := ChangeOf(r, op);
    var after := Shifted(env, s, npc, op).ledger.Lookup(npc);
    ShiftedRecords(env, s, npc, change, EvidenceOf(op));
    ShiftedHistory(env, s, npc, change, EvidenceOf(op));
    OperationEarns(env, s, npc, op, after);
    if Held(after) in ENGAGED {
      StepsEarn(r.history, npc, r.state, change, EvidenceOf(op));
    }
  }

  lemma ShiftEarns(env: Env, s: Sys, npc: string, op: Op)
    requires SoundRadii(env) && ShiftEnabled(env, s, npc, op)
    requires Rested(s.ledger) && AllEarned(s.ledger)
    ensures AllEarned(Shifted(env, s, npc, op).ledger)
  {
    ShiftedRecordEarns(env, s, npc, op);
    OneRecordEarns(env, s, npc, ChangeOf(s.ledger.Lookup(npc), op), EvidenceOf(op));
  }

  lemma OneRecordEarns(env: Env, s: Sys, npc: string, change: Change, evidence: Option<ScanUpdate>)
    requires AllEarned(s.ledger) && RecordEarned(ShiftedBy(env, s, npc, change, evidence).ledger.Lookup(npc))
    ensures AllEarned(ShiftedBy(env, s, npc, change, evidence).ledger)
  {
    ShiftedRecords(env, s, npc, change, evidence);
  }

  lemma {:induction false} OwnershipAfter(env: Env, acts: seq<Act>)
    requires Legal(env, acts)
    ensures HistoriesConnect(Replay(env, acts).ledger)
    ensures SoundRadii(env) ==> AllEarned(Replay(env, acts).ledger)
  {
    if acts != [] {
      var front, act := acts[..|acts| - 1], acts[|acts| - 1];
      var s := Replay(env, front);
      OwnershipAfter(env, front);
      StructureAfter(env, front);
      if act.Shift? {
        ShiftConnects(env, s, act.npc, ChangeOf(s.ledger.Lookup(act.npc), act.op), EvidenceOf(act.op));
        if SoundRadii(env) {
          ShiftEarns(env, s, act.npc, act.op);
        }
      } else {
        LedgerFrame(env, s, act);
      }
    }
  }

  /** No NPC is engaged, or suspended while engaged, without an entitling step
      since it was last in ROCKSTAR. */
  ghost predicate Provenanced(ledger: Ledger) {
    forall n <- ledger.records :: Held(ledger.records[n]) in ENGAGED ==>
      exists i :: EarnedAt(ledger.records[n].history, i)
  }

  lemma EngagementIsEarned(env: Env, msgs: seq<Message>)
    requires SoundRadii(env)
    ensures Provenanced(Run(env, msgs).ledger)
  {
    RunIsGood(env, msgs);
    var s := Run(env, msgs);
    var acts :| LeadsTo(env, acts, s);
    OwnershipAfter(env, acts);
    forall n | n in s.ledger.records
      ensures Earned(s.ledger.records[n].history) <==> exists i :: EarnedAt(s.ledger.records[n].history, i)
    {
      EarnedMeans(s.ledger.records[n].history);
    }
  }

  lemma HistoriesAreConnected(env: Env, msgs: seq<Message>)
    ensures HistoriesConnect(Run(env, msgs).ledger)
  {
    RunIsGood(env, msgs);
    var acts :| LeadsTo(env, acts, Run(env, msgs));
    OwnershipAfter(env, acts);
  }

  // ---------------------------------------------------------------------
  // The settings condition is exact
  // ---------------------------------------------------------------------

  /** Idle planning changes no record. */
  ghost predicate RecordsStand(s: Sys, r: Sys) {
    forall n <- s.ledger.records :: n in r.ledger.records && r.ledger.records[n] == s.ledger.records[n]
  }

  lemma IdlingOneKeepsRecords(env: Env, s: Sys, npc: string, busy: set<string>, now: real)
    requires Good(env, s) && (npc !in busy ==> npc !in s.desk.Busy())
    ensures RecordsStand(s, IdleOne(env, s, npc, busy, now))
  {
    if npc in s.agents && npc !in busy && !s.agents[npc].dialogueOnly {
      var seen := Apply(env, s, See(npc));
      QuietActIsCalm(env, s, See(npc));
      if seen.ledger.State(npc) == AIActive && npc in seen.tracked {
        TurnIsCalm(env, seen, npc, Idle, None);
      }
    }
  }

  lemma {:induction false} IdlingKeepsRecords(env: Env, s: Sys, ids: seq<string>, busy: set<string>, now: real)
    requires Good(env, s) && NoDup(ids) && s.desk.Busy() <= busy
    ensures RecordsStand(s, IdleEach(env, s, ids, busy, now))
  {
    if ids != [] {
      var front, last := ids[..|ids| - 1], ids[|ids| - 1];
      IdlingKeepsRecords(env, s, front, busy, now);
      IdlingIsCalm(env, s, front, busy, now);
      assert last !in front;
      IdlingOneKeepsRecords(env, IdleEach(env, s, front, busy, now), last, busy, now);
    }
  }

  lemma IdleKeepsRecords(env: Env, s: Sys)
    requires Good(env, s)
    ensures RecordsStand(s, Idled(env, s))
  {
    StructureHolds(env, s);
    QuietActIsCalm(env, s, ReadClock);
    IdlingKeepsRecords(env, Apply(env, s, ReadClock), s.agentOrder, s.desk.Busy(), env.clock(s.ticks));
  }

  const STRAY := "n"

  /** A ped is scanned at the edge of the candidate circle; then a world update
      reports the player at the aware radius. */
  function Approach(env: Env): Message {
    PedScan([Ped(STRAY, UpdateFor(env, FromPedScan, 0.0, true, false).CandidateRadius(), true, false)])
  }

  function Report(env: Env): Message {
    WorldUpdate(STRAY, Some(UpdateFor(env, FromWorldUpdate, 0.0, true, false).AwareRadius()))
  }

  lemma CarriedOnce(env: Env, s: Sys, npc: string, op: Op)
    requires ChangeOf(s.ledger.Lookup(npc), op).Go? && ChangeOf(s.ledger.Lookup(npc), op).to != Release
    ensures var r := s.ledger.Lookup(npc); var change := ChangeOf(r, op);
            var after := Carried(env, s, npc, op).ledger;
            && npc in after.records && after.records[npc].state == change.to
            && after.records[npc].history == r.history + [Move(npc, r.state, change.to, change.reason, EvidenceOf(op))]
  {
    ShiftedOnce(env, s, npc, ChangeOf(s.ledger.Lookup(npc), op), EvidenceOf(op));
  }

  lemma ShiftedOnce(env: Env, s: Sys, npc: string, change: Change, evidence: Option<ScanUpdate>)
    requires change.Go? && change.to != Release
    ensures var r := s.ledger.Lookup(npc);
            var after := ShiftedBy(env, s, npc, change, evidence).ledger;
            && npc in after.records && after.records[npc].state == change.to
            && after.records[npc].history == r.history + [Move(npc, r.state, change.to, change.reason, evidence)]
  {
    ShiftedRecords(env, s, npc, change, evidence);
    ShiftedHistory(env, s, npc, change, evidence);
  }

  ghost predicate StrayIs(s: Sys, state: OwnershipState) {
    && STRAY in s.ledger.records && s.ledger.records[STRAY].state == state
    && forall m <- s.ledger.records[STRAY].history :: !Entitles(m)
  }

  lemma ScanMakesCandidate(env: Env, ped: Ped)
    requires Approach(env).peds == [ped]
    ensures StrayIs(PedStep(env, START, ped), Candidate)
  {
    var met := Apply(env, Apply(env, START, Track(STRAY)), Meet(STRAY));
    var op := Scan(UpdateFor(env, FromPedScan, ped.distance, true, false));
    assert met.ledger == START.ledger && !Overlaid(met, STRAY);
    CarriedOnce(env, met, STRAY, op);
  }

  lemma ApproachMakesCandidate(env: Env)
    ensures StrayIs(Run(env, [Approach(env)]), Candidate)
  {
    var ped := Approach(env).peds[0];
    ScanMakesCandidate(env, ped);
    RunIsGood(env, []);
    PedStepIsCalm(env, START, ped);
    IdleKeepsRecords(env, PedStep(env, START, ped));
    assert [ped][..0] == [] && EachPed(env, START, [ped]) == PedStep(env, EachPed(env, START, []), ped);
    assert [Approach(env)][..0] == [] && Run(env, [Approach(env)]) == Handle(env, Run(env, []), Approach(env));
  }

  lemma ReportIsBelieved(env: Env, s: Sys)
    requires !SoundRadii(env) && StrayIs(s, Candidate)
    ensures StrayIs(LeftBehind(env, s, STRAY, Report(env).distance), Aware)
  {
    CarriedOnce(env, s, STRAY, Scan(UpdateFor(env, FromWorldUpdate, Report(env).distance.value, true, false)));
  }

  /** With an aware radius beyond the candidate distance a world update alone
      makes an NPC aware. */
  lemma ReportMakesAware(env: Env)
    requires !SoundRadii(env)
    ensures !Provenanced(Run(env, [Approach(env), Report(env)]).ledger)
  {
    var s := Run(env, [Approach(env)]);
    ApproachMakesCandidate(env);
    RunIsGood(env, [Approach(env)]);
    ReportIsBelieved(env, s);
    LeavingBehindIsCalm(env, s, STRAY, Report(env).distance);
    IdleKeepsRecords(env, LeftBehind(env, s, STRAY, Report(env).distance));
    assert [Approach(env), Report(env)][..1] == [Approach(env)];
    assert Run(env, [Approach(env), Report(env)]) == Handle(env, s, Report(env));
    StrayIsUnearned(Handle(env, s, Report(env)));
  }

  lemma StrayIsUnearned(s: Sys)
    requires StrayIs(s, Aware)
    ensures !Provenanced(s.ledger)
  {
    var h := s.ledger.records[STRAY].history;
    forall i
      ensures !EarnedAt(h, i)
    {
      if 0 <= i < |h| {
        assert h[i] in h;
      }
    }
  }

  /** Provenance holds over all runs exactly when the aware radius lies within
      the configured candidate distance. */
  lemma ProvenanceIsExact(env: Env)
    ensures (forall msgs :: Provenanced(Run(env, msgs).ledger)) <==> SoundRadii(env)
  {
    if SoundRadii(env) {
      forall msgs
        ensures Provenanced(Run(env, msgs).ledger)
      {
        EngagementIsEarned(env, msgs);
      }
    } else {
      ReportMakesAware(env);
    }
  }
}
