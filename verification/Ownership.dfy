/** The per-NPC ownership machine and the manager that keeps one record per NPC.

    `ChangeOf` says what one operation does to one record; the methods of
    `Manager` perform it in place.  The lemmas speak of arbitrary operation
    sequences. */
module Ownership {
  import opened Common
  import opened Names

  datatype OwnershipState =
    | Rockstar | Candidate | Aware | AIActive | AIConversation | QuestDialogue | Suspended | Release

  /** Why an NPC changed hands; a caller may give its own words. */
  datatype Why =
    | EligibilityFailed | PlayerLeftArea | PlayerNearby | EligibilityPassed | CandidateLeftArea
    | MeaningfulTrigger | QuestDialogueOpened | TalkRequested | TalkEnded
    | ReleaseComplete | ReleasePolicy | StorySafety | StorySafetyCleared
    | QuestDialogueEnded | QuestDialogueLeftArea
    | Given(words: string)

  const DEFAULT_CANDIDATE_DISTANCE: real := 20.0
  const DEFAULT_AWARE_DISTANCE: real := 10.0

  /** Who asked for a scan update.  The program keeps no such field: it records
      which of its three call sites an update came from, so that a history can
      be read as evidence. */
  datatype Source = FromPedScan | FromWorldUpdate | FromTrigger

  datatype ScanUpdate = ScanUpdate(
    source: Source,
    distance: real,
    eligible: bool,
    candidateDistance: real,
    awareDistance: real,
    trigger: bool)
  {
    /** A zero distance setting means "not supplied". */
    function CandidateRadius(): real {
      if candidateDistance == 0.0 then DEFAULT_CANDIDATE_DISTANCE else candidateDistance
    }

    function AwareRadius(): real {
      if awareDistance == 0.0 then DEFAULT_AWARE_DISTANCE else awareDistance
    }
  }

  /** One ownership change.  `evidence` is the scan update that caused it, if any. */
  datatype Move = Move(
    npc: string, from: OwnershipState, to: OwnershipState, reason: Why, evidence: Option<ScanUpdate>)
  {
    /** The timeline event of this change, if it is notable. */
    function EventName(): Option<EventName> {
      if from == Suspended then Some(AgentResumed)
      else if to == QuestDialogue then Some(QuestDialogueEntered)
      else if to == Suspended then Some(AgentSuspended)
      else if to == Release then Some(NpcReleased)
      else if to == AIActive && (from == Candidate || from == Aware) then Some(NpcActivated)
      else None
    }
  }

  datatype Record = Record(state: OwnershipState, previous: Option<OwnershipState>, history: seq<Move>)

  const FRESH: Record := Record(Rockstar, None, [])

  /** What the manager knows: the records and the order in which NPCs were first seen. */
  datatype Ledger = Ledger(records: map<string, Record>, order: seq<string>)
  {
    function Lookup(npc: string): Record {
      if npc in records then records[npc] else FRESH
    }

    function State(npc: string): OwnershipState {
      Lookup(npc).state
    }

    /** Looking an NPC up creates a Rockstar-owned record on first sight. */
    function Seen(npc: string): Ledger {
      if npc in records then this else Ledger(records[npc := FRESH], order + [npc])
    }
  }

  datatype Op =
    | Scan(update: ScanUpdate)
    | EnterQuest
    | Talk
    | EndTalk
    | RequestRelease(reason: Why)
    | Finalize
    | Suspend(reason: Why)
    | Resume(reason: Why)

  datatype Change =
    | Stay
    | Go(to: OwnershipState, reason: Why, previous: Option<OwnershipState>)

  /** The proximity and eligibility branch table.  The contract is its flat
      reading: for each destination, exactly when it is reached. */
  function ScanChange(record: Record, u: ScanUpdate): (c: Change)
    ensures c.Go? ==> c.previous == record.previous
    ensures c.Go? ==> c.to in {Candidate, Aware, AIActive, Release, Rockstar}
    ensures (c.Go? && c.to == Candidate) <==>
            (record.state in {Rockstar, Release} && u.eligible && u.distance <= u.CandidateRadius())
    ensures (c.Go? && c.to == Aware) <==>
            (record.state == Candidate && u.eligible && u.distance <= u.AwareRadius())
    ensures (c.Go? && c.to == AIActive) <==>
            (record.state == Aware && u.eligible && u.trigger && u.distance <= u.CandidateRadius())
    ensures (c.Go? && c.to == Release) <==>
            (record.state !in {Rockstar, Release, Suspended} &&
             (!u.eligible || (u.distance > u.CandidateRadius() && record.state != Candidate)))
    ensures (c.Go? && c.to == Rockstar) <==>
            ((record.state == Release && !(u.eligible && u.distance <= u.CandidateRadius())) ||
             (record.state == Candidate && u.eligible &&
              u.distance > u.AwareRadius() && u.distance > u.CandidateRadius()))
  {
    var farAway := u.distance > u.CandidateRadius();
    if record.state == Suspended then Stay
    else if !u.eligible && record.state != Rockstar && record.state != Release then
      Go(Release, EligibilityFailed, record.previous)
    else if farAway && record.state != Rockstar && record.state != Candidate && record.state != Release then
      Go(Release, PlayerLeftArea, record.previous)
    else
      match record.state
      case Rockstar =>
        if u.distance <= u.CandidateRadius() && u.eligible then Go(Candidate, PlayerNearby, record.previous)
        else Stay
      case Release =>
        if u.distance <= u.CandidateRadius() && u.eligible then Go(Candidate, PlayerNearby, record.previous)
        else Go(Rockstar, ReleaseComplete, record.previous)
      case Candidate =>
        if u.distance <= u.AwareRadius() && u.eligible then Go(Aware, EligibilityPassed, record.previous)
        else if farAway then Go(Rockstar, CandidateLeftArea, record.previous)
        else Stay
      case Aware =>
        if u.trigger && u.eligible then Go(AIActive, MeaningfulTrigger, record.previous)
        else Stay
      case _ => Stay
  }

  /** Where Resume goes for a given saved state. */
  function ResumeTarget(previous: Option<OwnershipState>): OwnershipState {
    if previous.None? || previous.value in {Rockstar, Release, Suspended} then Aware else previous.value
  }

  /** An empty reason falls back to the operation's own. */
  function WithDefault(reason: Why, fallback: Why): Why {
    if reason == Given("") then fallback else reason
  }

  function FinalizeChange(record: Record): Change {
    if record.state == Release then Go(Rockstar, ReleaseComplete, record.previous) else Stay
  }

  function ChangeOf(record: Record, op: Op): Change {
    match op
    case Scan(u) => ScanChange(record, u)
    case EnterQuest =>
      if record.state in {Rockstar, Candidate, Aware, AIActive, AIConversation}
      then Go(QuestDialogue, QuestDialogueOpened, record.previous) else Stay
    case Talk =>
      if record.state in {Aware, AIActive, AIConversation, QuestDialogue}
      then Go(AIConversation, TalkRequested, record.previous) else Stay
    case EndTalk =>
      if record.state == AIConversation then Go(AIActive, TalkEnded, record.previous) else Stay
    case RequestRelease(reason) =>
      if record.state == Release then Stay
      else Go(Release, WithDefault(reason, ReleasePolicy), record.previous)
    case Finalize => FinalizeChange(record)
    case Suspend(reason) =>
      if record.state in {Rockstar, Suspended} then Stay
      else Go(Suspended, WithDefault(reason, StorySafety), Some(record.state))
    case Resume(reason) =>
      if record.state != Suspended then Stay
      else Go(ResumeTarget(record.previous), WithDefault(reason, StorySafetyCleared), None)
  }

  datatype Step = Step(ledger: Ledger, move: Option<Move>)

  function EvidenceOf(op: Op): Option<ScanUpdate> {
    if op.Scan? then Some(op.update) else None
  }

  /** See the NPC, then apply a change to its record and put it on its history. */
  function Moved(ledger: Ledger, npc: string, change: Change, evidence: Option<ScanUpdate>): Step {
    var seen := ledger.Seen(npc);
    var record := seen.records[npc];
    if change.Stay? then Step(seen, None)
    else
      var move := Move(npc, record.state, change.to, change.reason, evidence);
      Step(
        seen.(records := seen.records[npc := Record(change.to, change.previous, record.history + [move])]),
        Some(move))
  }

  /** One manager operation. */
  function Perform(ledger: Ledger, npc: string, op: Op): Step {
    Moved(ledger, npc, ChangeOf(ledger.Lookup(npc), op), EvidenceOf(op))
  }

  function Finalized(ledger: Ledger, npc: string): Ledger {
    Moved(ledger, npc, FinalizeChange(ledger.Lookup(npc)), None).ledger
  }

  predicate MayReason(state: OwnershipState) {
    state in {Aware, AIActive, AIConversation, QuestDialogue}
  }

  predicate MaySpeak(state: OwnershipState) {
    state in {AIActive, AIConversation, QuestDialogue}
  }

  class Manager {
    var records: map<string, Record>
    var order: seq<string>

    ghost function Contents(): Ledger
      reads this
    {
      Ledger(records, order)
    }

    /** The order lists every known NPC once. */
    ghost predicate Valid()
      reads this
    {
      Lists(order, records.Keys)
    }

    constructor ()
      ensures Valid() && Contents() == Ledger(map[], [])
    {
      records, order := map[], [];
    }

    /** The record for `npc`, created on first sight. */
    method Get(npc: string) returns (record: Record)
      requires Valid()
      modifies this
      ensures Valid()
      ensures Contents() == old(Contents()).Seen(npc)
      ensures record == Contents().Lookup(npc) && npc in records
    {
      if npc !in records {
        AppendLists(order, records.Keys, npc);
        assert records[npc := FRESH].Keys == records.Keys + {npc};
        records := records[npc := FRESH];
        order := order + [npc];
      }
      record := records[npc];
    }

    method State(npc: string) returns (state: OwnershipState)
      requires Valid()
      modifies this
      ensures Valid()
      ensures Contents() == old(Contents()).Seen(npc)
      ensures state == old(Contents()).State(npc)
    {
      var record := Get(npc);
      state := record.state;
    }

    /** Every known NPC, in first-seen order. */
    method OwnedNPCs() returns (ids: seq<string>)
      requires Valid()
      ensures ids == Contents().order && Lists(ids, Contents().records.Keys)
    {
      ids := order;
    }

    method CanReason(npc: string) returns (allowed: bool)
      requires Valid()
      modifies this
      ensures Valid()
      ensures Contents() == old(Contents()).Seen(npc)
      ensures allowed == MayReason(old(Contents()).State(npc))
    {
      var state := State(npc);
      match state {
        case Aware | AIActive | AIConversation | QuestDialogue => allowed := true;
        case _ => allowed := false;
      }
    }

    method CanSpeak(npc: string) returns (allowed: bool)
      requires Valid()
      modifies this
      ensures Valid()
      ensures Contents() == old(Contents()).Seen(npc)
      ensures allowed == MaySpeak(old(Contents()).State(npc))
    {
      var state := State(npc);
      match state {
        case AIActive | AIConversation | QuestDialogue => allowed := true;
        case _ => allowed := false;
      }
    }

    /** Applies a state change to a known record and appends it to the history. */
    method Transition(npc: string, to: OwnershipState, reason: Why, evidence: Option<ScanUpdate>)
      returns (move: Option<Move>)
      requires Valid() && npc in records
      modifies this`records
      ensures Valid()
      ensures move == Some(Move(npc, old(records[npc].state), to, reason, evidence))
      ensures records == old(records)[npc := Record(to, old(records[npc].previous),
                                                    old(records[npc].history) + [move.value])]
    {
      var record := records[npc];
      var applied := Move(npc, record.state, to, reason, evidence);
      records := records[npc := record.(state := to, history := record.history + [applied])];
      move := Some(applied);
    }

    /** Remembers a state to return to, then changes the state. */
    method SaveAndMove(npc: string, previous: Option<OwnershipState>, to: OwnershipState, reason: Why)
      returns (move: Option<Move>)
      requires Valid() && npc in records
      modifies this`records
      ensures Valid()
      ensures move == Some(Move(npc, old(records[npc].state), to, reason, None))
      ensures records == old(records)[npc := Record(to, previous, old(records[npc].history) + [move.value])]
    {
      ghost var keys := records.Keys;
      records := records[npc := records[npc].(previous := previous)];
      assert records.Keys == keys;
      move := Transition(npc, to, reason, None);
    }

    method UpdateFromScan(npc: string, u: ScanUpdate) returns (move: Option<Move>)
      requires Valid()
      modifies this
      ensures Valid()
      ensures Step(Contents(), move) == Perform(old(Contents()), npc, Scan(u))
    {
      var record := Get(npc);
      var candidateDistance := u.candidateDistance;
      if candidateDistance == 0.0 {
        candidateDistance := DEFAULT_CANDIDATE_DISTANCE;
      }
      var awareDistance := u.awareDistance;
      if awareDistance == 0.0 {
        awareDistance := DEFAULT_AWARE_DISTANCE;
      }
      move := None;
      if record.state == Suspended {
        return;
      }
      if !u.eligible && record.state != Rockstar && record.state != Release {
        move := Transition(npc, Release, EligibilityFailed, Some(u));
        return;
      }
      var farAway := u.distance > candidateDistance;
      if farAway && record.state != Rockstar && record.state != Candidate && record.state != Release {
        move := Transition(npc, Release, PlayerLeftArea, Some(u));
        return;
      }
      match record.state {
        case Rockstar =>
          if u.distance <= candidateDistance && u.eligible {
            move := Transition(npc, Candidate, PlayerNearby, Some(u));
          }
        case Release =>
          if u.distance <= candidateDistance && u.eligible {
            move := Transition(npc, Candidate, PlayerNearby, Some(u));
          } else {
            move := Transition(npc, Rockstar, ReleaseComplete, Some(u));
          }
        case Candidate =>
          if u.distance <= awareDistance && u.eligible {
            move := Transition(npc, Aware, EligibilityPassed, Some(u));
          } else if farAway {
            move := Transition(npc, Rockstar, CandidateLeftArea, Some(u));
          }
        case Aware =>
          if u.trigger && u.eligible {
            move := Transition(npc, AIActive, MeaningfulTrigger, Some(u));
          }
        case _ =>
      }
    }

    method EnterQuestDialogue(npc: string) returns (move: Option<Move>)
      requires Valid()
      modifies this
      ensures Valid()
      ensures Step(Contents(), move) == Perform(old(Contents()), npc, EnterQuest)
    {
      var record := Get(npc);
      move := None;
      match record.state {
        case Rockstar | Candidate | Aware | AIActive | AIConversation =>
          move := Transition(npc, QuestDialogue, QuestDialogueOpened, None);
        case _ =>
      }
    }

    method PushToTalk(npc: string) returns (move: Option<Move>)
      requires Valid()
      modifies this
      ensures Valid()
      ensures Step(Contents(), move) == Perform(old(Contents()), npc, Talk)
    {
      var record := Get(npc);
      move := None;
      match record.state {
        case Aware | AIActive | AIConversation | QuestDialogue =>
          move := Transition(npc, AIConversation, TalkRequested, None);
        case _ =>
      }
    }

    method ConversationEnded(npc: string) returns (move: Option<Move>)
      requires Valid()
      modifies this
      ensures Valid()
      ensures Step(Contents(), move) == Perform(old(Contents()), npc, EndTalk)
    {
      var record := Get(npc);
      move := None;
      if record.state == AIConversation {
        move := Transition(npc, AIActive, TalkEnded, None);
      }
    }

    method RequestReleaseOf(npc: string, reason: Why) returns (move: Option<Move>)
      requires Valid()
      modifies this
      ensures Valid()
      ensures Step(Contents(), move) == Perform(old(Contents()), npc, RequestRelease(reason))
    {
      var why := reason;
      if why == Given("") {
        why := ReleasePolicy;
      }
      var record := Get(npc);
      move := None;
      if record.state != Release {
        move := Transition(npc, Release, why, None);
      }
    }

    method FinalizeRelease(npc: string) returns (move: Option<Move>)
      requires Valid()
      modifies this
      ensures Valid()
      ensures Step(Contents(), move) == Perform(old(Contents()), npc, Finalize)
    {
      var record := Get(npc);
      move := None;
      if record.state == Release {
        move := Transition(npc, Rockstar, ReleaseComplete, None);
      }
    }

    method SuspendOwnership(npc: string, reason: Why) returns (move: Option<Move>)
      requires Valid()
      modifies this
      ensures Valid()
      ensures Step(Contents(), move) == Perform(old(Contents()), npc, Suspend(reason))
    {
      var why := reason;
      if why == Given("") {
        why := StorySafety;
      }
      var record := Get(npc);
      move := None;
      if record.state != Rockstar && record.state != Suspended {
        move := SaveAndMove(npc, Some(record.state), Suspended, why);
      }
    }

    /** The saved state, or AWARE when there is none worth returning to. */
    static method ResumeState(previous: Option<OwnershipState>) returns (resumeTo: OwnershipState)
      ensures resumeTo == ResumeTarget(previous)
    {
      resumeTo := Aware;
      if previous.Some? {
        resumeTo := previous.value;
      }
      if resumeTo == Rockstar || resumeTo == Release || resumeTo == Suspended {
        resumeTo := Aware;
      }
    }

    method ResumeOwnership(npc: string, reason: Why) returns (move: Option<Move>)
      requires Valid()
      modifies this
      ensures Valid()
      ensures Step(Contents(), move) == Perform(old(Contents()), npc, Resume(reason))
    {
      var why := reason;
      if why == Given("") {
        why := StorySafetyCleared;
      }
      var record := Get(npc);
      move := None;
      if record.state == Suspended {
        var resumeTo := ResumeState(record.previous);
        move := SaveAndMove(npc, None, resumeTo, why);
      }
    }
  }

  // ---------------------------------------------------------------------
  // Runs of manager operations
  // ---------------------------------------------------------------------

  datatype Call = Call(npc: string, op: Op)

  function Performed(ledger: Ledger, calls: seq<Call>): Ledger
    decreases |calls|
  {
    if calls == [] then ledger
    else Performed(Perform(ledger, calls[0].npc, calls[0].op).ledger, calls[1..])
  }

  /** A history is a connected path that starts with Rockstar and ends in `state`. */
  ghost predicate PathTo(history: seq<Move>, state: OwnershipState) {
    && (history == [] ==> state == Rockstar)
    && (history != [] ==> history[0].from == Rockstar && history[|history| - 1].to == state)
    && (forall i :: 0 < i < |history| ==> history[i - 1].to == history[i].from)
  }

  ghost predicate RecordInv(npc: string, r: Record) {
    && PathTo(r.history, r.state)
    && (forall m <- r.history :: m.npc == npc)
    && (r.state == Suspended ==> r.previous.Some? && r.previous.value !in {Rockstar, Suspended})
  }

  ghost predicate LedgerInv(ledger: Ledger) {
    && Lists(ledger.order, ledger.records.Keys)
    && forall npc <- ledger.records :: RecordInv(npc, ledger.records[npc])
  }

  lemma SeenKeeps(ledger: Ledger, npc: string)
    requires LedgerInv(ledger)
    ensures LedgerInv(ledger.Seen(npc))
  {
    if npc !in ledger.records {
      AppendLists(ledger.order, ledger.records.Keys, npc);
      assert ledger.Seen(npc).records.Keys == ledger.records.Keys + {npc};
    }
  }

  /** A suspension, and only a suspension, leaves a record suspended. */
  lemma SuspensionsSave(r: Record, op: Op)
    requires ChangeOf(r, op).Go? && ChangeOf(r, op).to == Suspended
    ensures ChangeOf(r, op).previous == Some(r.state) && r.state !in {Rockstar, Suspended}
  {
  }

  lemma MoveKeepsRecord(npc: string, r: Record, change: Change, evidence: Option<ScanUpdate>)
    requires RecordInv(npc, r) && change.Go?
    requires change.to == Suspended ==> change.previous.Some? && change.previous.value !in {Rockstar, Suspended}
    ensures RecordInv(npc, Record(change.to, change.previous,
                                  r.history + [Move(npc, r.state, change.to, change.reason, evidence)]))
  {
  }

  /** Every operation keeps the bookkeeping sound, whatever the record's state. */
  lemma PerformKeeps(ledger: Ledger, npc: string, op: Op)
    requires LedgerInv(ledger)
    ensures LedgerInv(Perform(ledger, npc, op).ledger)
  {
    SeenKeeps(ledger, npc);
    var r := ledger.Lookup(npc);
    var change := ChangeOf(r, op);
    if change.Go? {
      if change.to == Suspended {
        SuspensionsSave(r, op);
      }
      MoveKeepsRecord(npc, r, change, EvidenceOf(op));
    }
    MovedKeeps(ledger, npc, change, EvidenceOf(op));
  }

  lemma MovedKeeps(ledger: Ledger, npc: string, change: Change, evidence: Option<ScanUpdate>)
    requires LedgerInv(ledger.Seen(npc))
    requires change.Go? ==>
               var r := ledger.Lookup(npc);
               RecordInv(npc, Record(change.to, change.previous,
                                     r.history + [Move(npc, r.state, change.to, change.reason, evidence)]))
    ensures LedgerInv(Moved(ledger, npc, change, evidence).ledger)
  {
    assert Moved(ledger, npc, change, evidence).ledger.records.Keys == ledger.Seen(npc).records.Keys;
  }

  /** In every run from the empty manager, each history is a connected path
      from Rockstar to the record's current state. */
  lemma {:induction false} HistoryIsPath(ledger: Ledger, calls: seq<Call>)
    requires LedgerInv(ledger)
    ensures LedgerInv(Performed(ledger, calls))
    decreases |calls|
  {
    if calls != [] {
      PerformKeeps(ledger, calls[0].npc, calls[0].op);
      HistoryIsPath(Perform(ledger, calls[0].npc, calls[0].op).ledger, calls[1..]);
    }
  }

  /** Only Resume and RequestRelease touch a suspended record. */
  lemma {:induction false} SuspensionIsFrozen(ledger: Ledger, npc: string, calls: seq<Call>)
    requires ledger.State(npc) == Suspended
    requires forall c <- calls :: c.npc == npc ==> !c.op.Resume? && !c.op.RequestRelease?
    ensures Performed(ledger, calls).Lookup(npc) == ledger.Lookup(npc)
    decreases |calls|
  {
    if calls != [] {
      SuspensionIsFrozen(Perform(ledger, calls[0].npc, calls[0].op).ledger, npc, calls[1..]);
    }
  }

  /** Suspending, then any operations but Resume and RequestRelease, then
      resuming restores the state held before, exactly when that state is not
      the transient RELEASE. */
  lemma ResumeRestores(ledger: Ledger, npc: string, why: Why, calls: seq<Call>, cleared: Why)
    requires ledger.State(npc) !in {Rockstar, Suspended}
    requires forall c <- calls :: c.npc == npc ==> !c.op.Resume? && !c.op.RequestRelease?
    ensures var suspended := Perform(ledger, npc, Suspend(why)).ledger;
            var resumed := Perform(Performed(suspended, calls), npc, Resume(cleared)).ledger;
            resumed.State(npc) == ledger.State(npc) <==> ledger.State(npc) != Release
  {
    var suspended := Perform(ledger, npc, Suspend(why)).ledger;
    SuspensionIsFrozen(suspended, npc, calls);
  }
}
