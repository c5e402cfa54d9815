/** The runtime of any run and the bridge together: what the runtime's handlers
    send goes down the request channel, what the bridge reports comes back as
    action results, and all other messages may arrive at any time. */
module Composition {
  import opened Common
  import opened Names
  import opened Ownership
  import opened Journal
  import opened Dispatching
  import opened Scheduler
  import opened Handlers
  import opened HandlerProofs
  import opened Runs
  import opened Requests
  import opened Withholding
  import opened Answers
  import Protocol

  /** The runtime's state beside the channels, the bridge's list and the histories. */
  datatype Joint = Joint(s: Sys, w: Protocol.World)

  datatype Event =
    /** Any message that is no result of the bridge's. */
    | Arrives(msg: Message)
    /** The bridge takes the oldest request, or reports what is due. */
    | Receives(started: bool, now: int, duration: int)
    | Ticks(now: int)
    /** The oldest result arrives. */
    | Reports

  predicate Genuine(events: seq<Event>) {
    forall e <- events :: e.Arrives? ==> !e.msg.ActionResult?
  }

  function SentIn(items: seq<Item>): seq<Request> {
    if items == [] then []
    else
      SentIn(items[..|items| - 1]) +
      match items[|items| - 1]
      case Sent(id, npc, tool) => [Request(id, npc, tool)]
      case _ => []
  }

  /** The requests that went out from one state to the next. */
  function Outgoing(s: Sys, r: Sys): seq<Request> {
    if |s.log| <= |r.log| then SentIn(r.log[|s.log|..]) else []
  }

  /** Requests are put on the channel in order. */
  function Dispatches(w: Protocol.World, sent: seq<Request>): Protocol.World {
    if sent == [] then w
    else
      var last := sent[|sent| - 1];
      Protocol.Next(Dispatches(w, sent[..|sent| - 1]), Protocol.Dispatch(last.npc, last.tool))
  }

  function ResultOf(outcome: Protocol.Outcome): Message {
    ActionResult(outcome.request.npc, Some(outcome.request.id), outcome.status)
  }

  ghost function After(env: Env, j: Joint, e: Event): Joint {
    match e
    case Arrives(msg) =>
      var r := Handle(env, j.s, msg);
      Joint(r, Dispatches(j.w, Outgoing(j.s, r)))
    case Receives(started, now, duration) => j.(w := Protocol.Next(j.w, Protocol.Receive(started, now, duration)))
    case Ticks(now) => j.(w := Protocol.Next(j.w, Protocol.Tick(now)))
    case Reports =>
      if j.w.results == [] then j
      else
        var r := Handle(env, j.s, ResultOf(j.w.results[0]));
        Joint(r, Dispatches(Protocol.Next(j.w, Protocol.Answer), Outgoing(j.s, r)))
  }

  ghost function Together(env: Env, events: seq<Event>): Joint {
    if events == [] then Joint(START, Protocol.QUIET)
    else After(env, Together(env, events[..|events| - 1]), events[|events| - 1])
  }

  /** The messages the runtime handles meanwhile. */
  ghost function Handled(env: Env, events: seq<Event>): seq<Message> {
    if events == [] then []
    else
      var j := Together(env, events[..|events| - 1]);
      Handled(env, events[..|events| - 1]) +
      match events[|events| - 1]
      case Arrives(msg) => [msg]
      case Reports => if j.w.results == [] then [] else [ResultOf(j.w.results[0])]
      case _ => []
  }

  // ---------------------------------------------------------------------
  // Requests in the journal
  // ---------------------------------------------------------------------

  lemma {:induction false} SentInJoins(a: seq<Item>, b: seq<Item>)
    ensures SentIn(a + b) == SentIn(a) + SentIn(b)
  {
    if b == [] {
      assert a + b == a;
    } else {
      assert (a + b)[..|a + b| - 1] == a + b[..|b| - 1];
      SentInJoins(a, b[..|b| - 1]);
    }
  }

  lemma SentInOne(log: seq<Item>, item: Item)
    ensures SentIn(log + [item]) ==
            SentIn(log) + if item.Sent? then [Request(item.id, item.npc, item.tool)] else []
  {
    assert (log + [item])[..|log|] == log;
  }

  lemma {:induction false} NothingSent(items: seq<Item>)
    requires forall item <- items :: !item.Sent?
    ensures SentIn(items) == []
  {
    if items != [] {
      assert items[|items| - 1] in items && forall item <- items[..|items| - 1] :: item in items;
      NothingSent(items[..|items| - 1]);
    }
  }

  /** Requests are numbered in the order they are sent. */
  predicate Numbered(sent: seq<Request>) {
    forall i :: 0 <= i < |sent| ==> sent[i].id == i
  }

  ghost predicate IdsAgree(s: Sys) {
    Numbered(SentIn(s.log)) && s.nextId == |SentIn(s.log)|
  }

  lemma LinesKeepIds(s: Sys, r: Sys, lines: seq<Item>)
    requires IdsAgree(s) && r.log == s.log + lines && r.nextId == s.nextId
    requires forall item <- lines :: !item.Sent?
    ensures IdsAgree(r)
  {
    SentInJoins(s.log, lines);
    NothingSent(lines);
  }

  lemma ShiftKeepsIds(env: Env, s: Sys, npc: string, change: Change, evidence: Option<ScanUpdate>)
    requires IdsAgree(s)
    ensures IdsAgree(ShiftedBy(env, s, npc, change, evidence))
  {
    ShiftedLines(env, s, npc, change, evidence);
    ShiftedRest(env, s, npc, change, evidence);
    var lines := if change.Stay? then []
                 else MoveLines(Move(npc, s.ledger.State(npc), change.to, change.reason, evidence));
    LinesKeepIds(s, ShiftedBy(env, s, npc, change, evidence), lines);
  }

  lemma DispatchKeepsIds(env: Env, s: Sys, npc: string, tool: Tool, reason: Reason)
    requires IdsAgree(s)
    ensures IdsAgree(Apply(env, s, Dispatch(npc, tool, reason)))
  {
    DispatchLines(env, s, npc, tool, reason);
    SendingKeepsIds(s, Apply(env, s, Dispatch(npc, tool, reason)), StartLines(env, s, npc, tool, reason), npc, tool);
  }

  lemma SendingKeepsIds(s: Sys, r: Sys, facts: seq<Item>, npc: string, tool: Tool)
    requires IdsAgree(s) && forall item <- facts :: item.Fact?
    requires r.log == (s.log + facts) + [Sent(s.nextId, npc, tool)] && r.nextId == s.nextId + 1
    ensures IdsAgree(r)
  {
    SentInJoins(s.log, facts);
    NothingSent(facts);
    SentInOne(s.log + facts, Sent(s.nextId, npc, tool));
  }

  lemma OtherActsKeepIds(env: Env, s: Sys, act: Act)
    requires IdsAgree(s) && !act.Shift? && !act.Dispatch?
    ensures IdsAgree(Apply(env, s, act))
  {
    ActLines(env, s, act);
    LinesKeepIds(s, Apply(env, s, act), LinesOf(env, s, act));
  }

  lemma {:induction false} IdsAfter(env: Env, acts: seq<Act>)
    requires Legal(env, acts)
    ensures IdsAgree(Replay(env, acts))
  {
    if acts != [] {
      var s, act := Replay(env, acts[..|acts| - 1]), acts[|acts| - 1];
      IdsAfter(env, acts[..|acts| - 1]);
      if act.Shift? {
        ShiftKeepsIds(env, s, act.npc, ChangeOf(s.ledger.Lookup(act.npc), act.op), EvidenceOf(act.op));
      } else if act.Dispatch? {
        DispatchKeepsIds(env, s, act.npc, act.tool, act.reason);
      } else {
        OtherActsKeepIds(env, s, act);
      }
    }
  }

  /** In every live state requests are numbered, and the book holds those that are
      sent and not resolved. */
  lemma JournalHolds(env: Env, s: Sys)
    requires Live(env, s)
    ensures Numbered(SentIn(s.log)) && s.desk.pending == Outstanding(s.log)
  {
    var acts :| LeadsTo(env, acts, s);
    IdsAfter(env, acts);
    RequestsAfter(env, acts);
  }

  // ---------------------------------------------------------------------
  // The protocol follows the journal
  // ---------------------------------------------------------------------

  /** The protocol's world tells what the journal tells. */
  ghost predicate Mirrors(w: Protocol.World, log: seq<Item>) {
    w.sent == SentIn(log) && w.desk.pending == Outstanding(log)
  }

  lemma {:induction false} DispatchesMirror(w: Protocol.World, log: seq<Item>, items: seq<Item>)
    requires Mirrors(w, log) && Numbered(SentIn(log + items)) && forall item <- items :: !item.Resolved?
    ensures Mirrors(Dispatches(w, SentIn(items)), log + items)
  {
    if items == [] {
      assert log + items == log;
    } else {
      var front, last := items[..|items| - 1], items[|items| - 1];
      assert last in items && forall item <- front :: item in items;
      assert front + [last] == items;
      FrontIsNumbered(log, front, last);
      DispatchesMirror(w, log, front);
      NextItemMirrors(w, log, front, last);
    }
  }

  lemma FrontIsNumbered(log: seq<Item>, front: seq<Item>, last: Item)
    requires Numbered(SentIn(log + (front + [last])))
    ensures Numbered(SentIn(log + front)) && log + (front + [last]) == (log + front) + [last]
  {
    assert log + (front + [last]) == (log + front) + [last];
    SentInOne(log + front, last);
    NumberedFront(SentIn(log + front), SentIn(log + (front + [last])));
  }

  lemma NextItemMirrors(w: Protocol.World, log: seq<Item>, front: seq<Item>, last: Item)
    requires Mirrors(Dispatches(w, SentIn(front)), log + front)
    requires !last.Resolved? && Numbered(SentIn(log + (front + [last])))
    ensures Mirrors(Dispatches(w, SentIn(front + [last])), log + (front + [last]))
  {
    FrontIsNumbered(log, front, last);
    OneMoreMirrors(Dispatches(w, SentIn(front)), log + front, last);
    LastDispatch(w, front, last);
  }

  lemma NumberedFront(a: seq<Request>, b: seq<Request>)
    requires a <= b && Numbered(b)
    ensures Numbered(a)
  {
  }

  lemma LastDispatch(w: Protocol.World, front: seq<Item>, last: Item)
    ensures var before := Dispatches(w, SentIn(front));
            Dispatches(w, SentIn(front + [last])) ==
            if last.Sent? then Protocol.Next(before, Protocol.Dispatch(last.npc, last.tool)) else before
  {
    SentInOne(front, last);
    var sent := SentIn(front + [last]);
    if last.Sent? {
      assert sent[..|sent| - 1] == SentIn(front);
    } else {
      assert sent == SentIn(front);
    }
  }

  lemma OneMoreMirrors(w: Protocol.World, log: seq<Item>, item: Item)
    requires Mirrors(w, log) && !item.Resolved? && Numbered(SentIn(log + [item]))
    ensures Mirrors(if item.Sent? then Protocol.Next(w, Protocol.Dispatch(item.npc, item.tool)) else w, log + [item])
  {
    SentInOne(log, item);
    assert (log + [item])[..|log|] == log;
    if item.Sent? {
      assert SentIn(log + [item])[|w.sent|].id == |w.sent|;
    }
  }

  /** What is taken back is struck out, whether or not anybody waited for it. */
  lemma AnswerMirrors(w: Protocol.World, log: seq<Item>)
    requires Mirrors(w, log) && w.results != []
    ensures var id := w.results[0].request.id;
            Mirrors(Protocol.Next(w, Protocol.Answer), if id in w.desk.pending then log + [Resolved(id)] else log)
  {
    var id := w.results[0].request.id;
    assert Protocol.Next(w, Protocol.Answer).desk.pending == w.desk.pending - {id};
    SentInOne(log, Resolved(id));
    assert (log + [Resolved(id)])[..|log|] == log;
  }

  /** A world of the protocol's own runs. */
  ghost predicate IsReached(w: Protocol.World) {
    exists steps :: Protocol.Reached(steps) == w
  }

  lemma StepIsReached(w: Protocol.World, step: Protocol.Step)
    requires IsReached(w)
    ensures IsReached(Protocol.Next(w, step))
  {
    var steps :| Protocol.Reached(steps) == w;
    assert (steps + [step])[..|steps|] == steps;
    assert Protocol.Reached(steps + [step]) == Protocol.Next(w, step);
  }

  lemma {:induction false} DispatchesAreReached(w: Protocol.World, sent: seq<Request>)
    requires IsReached(w)
    ensures IsReached(Dispatches(w, sent))
  {
    if sent != [] {
      var last := sent[|sent| - 1];
      DispatchesAreReached(w, sent[..|sent| - 1]);
      StepIsReached(Dispatches(w, sent[..|sent| - 1]), Protocol.Dispatch(last.npc, last.tool));
    }
  }

  // ---------------------------------------------------------------------
  // Both together
  // ---------------------------------------------------------------------

  ghost predicate InStep(env: Env, j: Joint) {
    Good(env, j.s) && IsReached(j.w) && Mirrors(j.w, j.s.log)
  }

  lemma SuffixAfter(s: Sys, r: Sys)
    requires s.log <= r.log
    ensures r.log == s.log + r.log[|s.log|..]
  {
  }

  lemma ArrivingKeepsStep(env: Env, j: Joint, msg: Message)
    requires InStep(env, j) && !msg.ActionResult?
    ensures InStep(env, After(env, j, Arrives(msg)))
  {
    var r := Handle(env, j.s, msg);
    HandlingIsGood(env, j.s, msg);
    OtherMessagesTakeNone(env, j.s, msg);
    OutgoingMirrors(env, j.w, j.s, r);
    DispatchesAreReached(j.w, Outgoing(j.s, r));
  }

  lemma OutgoingMirrors(env: Env, w: Protocol.World, s: Sys, r: Sys)
    requires Mirrors(w, s.log) && TakesNone(s, r) && Live(env, r)
    ensures Mirrors(Dispatches(w, SentIn(r.log[|s.log|..])), r.log)
  {
    SuffixAfter(s, r);
    JournalHolds(env, r);
    DispatchesMirror(w, s.log, r.log[|s.log|..]);
  }

  /** Between the result taken back and the end of its handling. */
  lemma SettledOutgoing(s: Sys, settled: Sys, r: Sys, id: nat)
    requires settled.log == s.log || settled.log == s.log + [Resolved(id)]
    requires settled.log <= r.log
    ensures Outgoing(s, r) == SentIn(r.log[|settled.log|..])
  {
    if settled.log != s.log {
      var rest := r.log[|settled.log|..];
      assert r.log[|s.log|..] == [Resolved(id)] + rest;
      SentInJoins([Resolved(id)], rest);
      NothingSent([Resolved(id)]);
    }
  }

  lemma ReportingKeepsStep(env: Env, j: Joint)
    requires InStep(env, j) && j.w.results != []
    ensures InStep(env, After(env, j, Reports))
  {
    var outcome := j.w.results[0];
    var id := outcome.request.id;
    var settled := if id in j.s.desk.pending then Apply(env, j.s, Resolve(id)) else j.s;
    var r := Handle(env, j.s, ResultOf(outcome));
    var w := Protocol.Next(j.w, Protocol.Answer);
    HandlingIsGood(env, j.s, ResultOf(outcome));
    JournalHolds(env, j.s);
    AnswerMirrors(j.w, j.s.log);
    ResolvingWrites(env, j.s, id);
    ResultTakesOne(env, j.s, outcome.request.npc, id, outcome.status);
    OutgoingMirrors(env, w, settled, r);
    SettledOutgoing(j.s, settled, r, id);
    StepIsReached(j.w, Protocol.Answer);
    DispatchesAreReached(w, Outgoing(j.s, r));
  }

  lemma ResolvingWrites(env: Env, s: Sys, id: nat)
    ensures Apply(env, s, Resolve(id)).log == s.log + [Resolved(id)]
  {
  }

  lemma EventKeepsStep(env: Env, j: Joint, e: Event)
    requires InStep(env, j) && (e.Arrives? ==> !e.msg.ActionResult?)
    ensures InStep(env, After(env, j, e))
  {
    match e {
      case Arrives(msg) => ArrivingKeepsStep(env, j, msg);
      case Receives(started, now, duration) => StepIsReached(j.w, Protocol.Receive(started, now, duration));
      case Ticks(now) => StepIsReached(j.w, Protocol.Tick(now));
      case Reports =>
        if j.w.results != [] {
          ReportingKeepsStep(env, j);
        }
    }
  }

  lemma {:induction false} TogetherInStep(env: Env, events: seq<Event>)
    requires Genuine(events)
    ensures InStep(env, Together(env, events))
  {
    if events == [] {
      assert Protocol.Reached([]) == Protocol.QUIET;
      StartIsLive(env);
    } else {
      var front, last := events[..|events| - 1], events[|events| - 1];
      assert last in events && forall e <- front :: e in events;
      TogetherInStep(env, front);
      EventKeepsStep(env, Together(env, front), last);
    }
  }

  /** The runtime's part of it is a run like any other. */
  lemma {:induction false} TogetherIsARun(env: Env, events: seq<Event>)
    ensures Together(env, events).s == Run(env, Handled(env, events))
  {
    if events != [] {
      var front := events[..|events| - 1];
      var msgs, all := Handled(env, front), Handled(env, events);
      TogetherIsARun(env, front);
      if all != msgs {
        assert all[..|all| - 1] == msgs;
      }
    }
  }

  /** Whatever the handlers send while the bridge works: after every run of both,
      the request channel carries what the runtime's journal says was sent, each
      request is in exactly one place or answered once, and the dispatcher's book
      holds exactly those in flight that are no short overlays. */
  lemma EveryRequestOfARunIsInOnePlace(env: Env, events: seq<Event>, request: Request)
    requires Genuine(events)
    ensures var j := Together(env, events);
            && j.s == Run(env, Handled(env, events))
            && j.w.sent == SentIn(j.s.log)
            && Protocol.Places(j.w, request) + Protocol.TimesAnswered(j.w, request) ==
               (if request in SentIn(j.s.log) then 1 else 0)
            && (request in SentIn(j.s.log) && request.id in j.s.desk.pending <==>
                  Protocol.Places(j.w, request) == 1 && request.tool !in TRANSIENT_TOOLS)
  {
    var j := Together(env, events);
    TogetherInStep(env, events);
    TogetherIsARun(env, events);
    JournalHolds(env, j.s);
    var steps :| Protocol.Reached(steps) == j.w;
    Protocol.EveryRequestIsInOnePlace(steps, request);
    assert request in SentIn(j.s.log) <==> request.id < |j.w.sent| && j.w.sent[request.id] == request;
  }
}
