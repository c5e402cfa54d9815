/** What the runtime lets the outside world see, in order: the timeline lines of
    every NPC and the requests sent to the bridge, interleaved with the markers
    that the run properties speak about. */
module Journal {
  import opened Common
  import opened Names
  import opened Ownership

  datatype Author = ByRuntime | ByBridge

  datatype Payload =
    | Plain
    | GoalText(goal: string)
    | Spoken(reason: Reason, at: real)

  datatype Item =
    /** One timeline line. */
    | Fact(npc: string, name: EventName, author: Author, payload: Payload)
    /** An action request handed to the bridge, and its result taken back. */
    | Sent(id: nat, npc: string, tool: Tool)
    | Resolved(id: nat)
    /** `DialogueOnly` is set; it is cleared on a recorded RELEASE or ROCKSTAR. */
    | OverlayRaised(npc: string)
    | HandedOff(npc: string)
    /** The backend is asked for a decision. */
    | Consulted(npc: string, reason: Reason, owner: OwnershipState)

  /** An action request sent to the bridge. */
  datatype Request = Request(id: nat, npc: string, tool: Tool)

  /** Short overlays whose result nobody waits for. */
  const TRANSIENT_TOOLS: set<Tool> := {Think, Gesture, ClearAttention}

  // ---------------------------------------------------------------------
  // Goals
  // ---------------------------------------------------------------------

  const GOAL_NAMES: set<EventName> := {GoalCreated, GoalChanged, GoalCompleted}

  /** The timeline of one NPC. */
  function Timeline(log: seq<Item>, npc: string): seq<Item> {
    if log == [] then []
    else
      var item := log[|log| - 1];
      Timeline(log[..|log| - 1], npc) + if item.Fact? && item.npc == npc then [item] else []
  }

  function GoalOf(item: Item): Option<string>
    requires item.Fact?
  {
    if item.name != GoalCompleted && item.payload.GoalText? then Some(item.payload.goal) else None
  }

  /** The goal after a whole timeline, folded forwards. */
  function GoalAfter(facts: seq<Item>): Option<string>
    requires forall f <- facts :: f.Fact?
  {
    if facts == [] then None
    else
      var last := facts[|facts| - 1];
      if last.name in GOAL_NAMES then GoalOf(last) else GoalAfter(facts[..|facts| - 1])
  }

  const REHYDRATION_WINDOW: nat := 50

  /** The last `limit` entries. */
  function Tail<T>(s: seq<T>, limit: nat): seq<T> {
    if |s| <= limit then s else s[|s| - limit..]
  }

  lemma {:induction false} TimelineHasFacts(log: seq<Item>, npc: string)
    ensures forall f <- Timeline(log, npc) :: f.Fact? && f.npc == npc && f in log
  {
    if log != [] {
      TimelineHasFacts(log[..|log| - 1], npc);
      assert forall f <- log[..|log| - 1] :: f in log;
    }
  }

  /** The goal restored for an NPC met for the first time. */
  function Rehydrated(log: seq<Item>, npc: string): Option<string> {
    TimelineHasFacts(log, npc);
    GoalAfter(Tail(Timeline(log, npc), REHYDRATION_WINDOW))
  }

  function GoalIn(log: seq<Item>, npc: string): Option<string> {
    TimelineHasFacts(log, npc);
    GoalAfter(Timeline(log, npc))
  }

  lemma {:induction false} GoalAfterTail(facts: seq<Item>, limit: nat)
    requires forall f <- facts :: f.Fact?
    ensures (exists f <- Tail(facts, limit) :: f.name in GOAL_NAMES) ==>
              GoalAfter(Tail(facts, limit)) == GoalAfter(facts)
    ensures (forall f <- Tail(facts, limit) :: f.name !in GOAL_NAMES) ==>
              GoalAfter(Tail(facts, limit)) == None
    decreases |facts|, limit
  {
    var tail := Tail(facts, limit);
    if tail != [] {
      var front, last := facts[..|facts| - 1], facts[|facts| - 1];
      assert tail[|tail| - 1] == last;
      assert tail[..|tail| - 1] == Tail(front, limit - 1);
      if last.name !in GOAL_NAMES {
        GoalAfterTail(front, limit - 1);
        assert tail == Tail(front, limit - 1) + [last];
      }
    }
  }

  /** A restarted runtime restores an NPC's goal exactly when there is none to
      restore or the newest goal event is among the last 50 lines. */
  lemma RehydrationIsExact(log: seq<Item>, npc: string)
    ensures Rehydrated(log, npc) == GoalIn(log, npc) <==>
            (GoalIn(log, npc) == None ||
             exists f <- Tail(Timeline(log, npc), REHYDRATION_WINDOW) :: f.Fact? && f.name in GOAL_NAMES)
  {
    TimelineHasFacts(log, npc);
    GoalAfterTail(Timeline(log, npc), REHYDRATION_WINDOW);
  }

  // ---------------------------------------------------------------------
  // Folds of the journal: independent readings of the runtime's state
  // ---------------------------------------------------------------------

  /** Is the dialogue-only overlay up after this journal? */
  predicate OverlayUp(log: seq<Item>, npc: string) {
    log != [] &&
    match log[|log| - 1]
    case OverlayRaised(n) => n == npc || OverlayUp(log[..|log| - 1], npc)
    case HandedOff(n) => n != npc && OverlayUp(log[..|log| - 1], npc)
    case _ => OverlayUp(log[..|log| - 1], npc)
  }

  /** The requests that still wait for a result, by id. */
  function Outstanding(log: seq<Item>): map<nat, Request> {
    if log == [] then map[]
    else
      var before := Outstanding(log[..|log| - 1]);
      match log[|log| - 1]
      case Sent(id, npc, tool) => if tool in TRANSIENT_TOOLS then before else before[id := Request(id, npc, tool)]
      case Resolved(id) => before - {id}
      case _ => before
  }

  /** Reads the AGENT_SUSPENDED / AGENT_RESUMED lines the runtime wrote for one
      NPC: `Some(true)` after an unmatched suspension, `Some(false)` when all are
      matched, `None` as soon as they fail to alternate. */
  function SuspensionMark(log: seq<Item>, npc: string): Option<bool> {
    if log == [] then Some(false)
    else
      var before := SuspensionMark(log[..|log| - 1], npc);
      var item := log[|log| - 1];
      if before.None? || !item.Fact? || item.npc != npc || item.author != ByRuntime then before
      else if item.name == AgentSuspended then (if before.value then None else Some(true))
      else if item.name == AgentResumed then (if before.value then Some(false) else None)
      else before
  }
}
