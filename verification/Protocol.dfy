/** The action protocol between the runtime's dispatcher and the game bridge:
    two parties and two lossless first-in first-out channels. */
module Protocol {
  import opened Common
  import opened Names
  import opened Journal
  import opened Dispatching
  import opened Handlers

  /** An action the bridge has started and will report once it is due. */
  datatype Running = Running(request: Request, due: int)

  /** A result on its way to the runtime. */
  datatype Outcome = Outcome(request: Request, status: Status)

  // ---------------------------------------------------------------------
  // The bridge
  // ---------------------------------------------------------------------

  function StillRunning(running: seq<Running>, now: int): seq<Running> {
    if running == [] then []
    else
      StillRunning(running[..|running| - 1], now) +
      if now >= running[|running| - 1].due then [] else [running[|running| - 1]]
  }

  /** The results of everything that is due, in the order it was started. */
  function Completions(running: seq<Running>, now: int): seq<Outcome> {
    if running == [] then []
    else
      Completions(running[..|running| - 1], now) +
      if now >= running[|running| - 1].due then [Outcome(running[|running| - 1].request, Finished)] else []
  }

  class Bridge {
    var pending: seq<Running>
    /** Results handed to the connection, oldest first. */
    var outbox: seq<Outcome>

    constructor ()
      ensures pending == [] && outbox == []
    {
      pending, outbox := [], [];
    }

    /** Executing an action either starts it or fails; a failure is reported at once. */
    method OnActionRequest(request: Request, started: bool, now: int, duration: int)
      modifies this
      ensures !started ==> pending == old(pending) && outbox == old(outbox) + [Outcome(request, Broken)]
      ensures started ==> pending == old(pending) + [Running(request, now + duration)] && outbox == old(outbox)
    {
      if !started {
        outbox := outbox + [Outcome(request, Broken)];
        return;
      }
      QueueCompletion(request, now + duration);
    }

    method QueueCompletion(request: Request, due: int)
      modifies this`pending
      ensures pending == old(pending) + [Running(request, due)]
    {
      pending := pending + [Running(request, due)];
    }

    /** Reports what is due, erasing each entry from the list being walked. */
    method Tick(now: int)
      modifies this
      ensures pending == StillRunning(old(pending), now)
      ensures outbox == old(outbox) + Completions(old(pending), now)
    {
      ghost var before := pending;
      ghost var walked: nat, kept: seq<Running>, rest := 0, [], pending;
      var it := 0;
      while it < |pending|
        invariant walked <= |before| && rest == before[walked..] && it == |kept|
        invariant kept == StillRunning(before[..walked], now) && pending == kept + rest
        invariant outbox == old(outbox) + Completions(before[..walked], now)
        decreases |pending| - it
      {
        Walked(before, walked, now);
        ErasesMiddle(kept, rest);
        if now >= pending[it].due {
          outbox := outbox + [Outcome(pending[it].request, Finished)];
          pending := pending[..it] + pending[it + 1..];
        } else {
          kept := kept + [pending[it]];
          it := it + 1;
        }
        walked, rest := walked + 1, rest[1..];
      }
      assert before[..walked] == before;
    }
  }

  lemma Walked(running: seq<Running>, i: nat, now: int)
    requires i < |running|
    ensures var due := now >= running[i].due;
            && StillRunning(running[..i + 1], now) ==
               StillRunning(running[..i], now) + (if due then [] else [running[i]])
            && Completions(running[..i + 1], now) ==
               Completions(running[..i], now) + (if due then [Outcome(running[i].request, Finished)] else [])
  {
    assert running[..i + 1][..i] == running[..i];
  }

  lemma ErasesMiddle<T>(a: seq<T>, b: seq<T>)
    requires b != []
    ensures var s := a + b;
            s[|a|] == b[0] && s[..|a|] + s[|a| + 1..] == a + b[1..] && s == (a + [b[0]]) + b[1..]
  {
  }

  // ---------------------------------------------------------------------
  // Both parties and the channels between them
  // ---------------------------------------------------------------------

  /** `sent` and `answered` are the histories: every request dispatched, in
      order, and every request whose result was taken in, in order. */
  datatype World = World(
    desk: Desk,
    requests: seq<Request>,
    running: seq<Running>,
    results: seq<Outcome>,
    sent: seq<Request>,
    answered: seq<Request>)

  const QUIET: World := World(Desk(map[], []), [], [], [], [], [])

  datatype Step =
    /** The runtime dispatches a tool under a fresh id. */
    | Dispatch(npc: string, tool: Tool)
    /** The bridge takes the oldest request. */
    | Receive(started: bool, now: int, duration: int)
    | Tick(now: int)
    /** The runtime takes the oldest result. */
    | Answer

  function Next(w: World, step: Step): World {
    match step
    case Dispatch(npc, tool) =>
      var request := Request(|w.sent|, npc, tool);
      w.(desk := w.desk.Accept(request), requests := w.requests + [request], sent := w.sent + [request])
    case Receive(started, now, duration) =>
      if w.requests == [] then w
      else
        var request := w.requests[0];
        if started then w.(requests := w.requests[1..], running := w.running + [Running(request, now + duration)])
        else w.(requests := w.requests[1..], results := w.results + [Outcome(request, Broken)])
    case Tick(now) =>
      w.(running := StillRunning(w.running, now), results := w.results + Completions(w.running, now))
    case Answer =>
      if w.results == [] then w
      else
        var request := w.results[0].request;
        w.(results := w.results[1..], desk := w.desk.Remove(request.id), answered := w.answered + [request])
  }

  function Reached(steps: seq<Step>): World {
    if steps == [] then QUIET else Next(Reached(steps[..|steps| - 1]), steps[|steps| - 1])
  }

  function Started(running: seq<Running>): seq<Request> {
    seq(|running|, i requires 0 <= i < |running| => running[i].request)
  }

  function Reported(results: seq<Outcome>): seq<Request> {
    seq(|results|, i requires 0 <= i < |results| => results[i].request)
  }

  /** The requests that have left the runtime and not come back. */
  function InFlight(w: World): multiset<Request> {
    multiset(w.requests) + multiset(Started(w.running)) + multiset(Reported(w.results))
  }

  /** Every dispatched request is in exactly one place: the request channel, the
      bridge's list, the result channel, or answered. */
  ghost predicate Conserved(w: World) {
    && (forall i :: 0 <= i < |w.sent| ==> w.sent[i].id == i)
    && InFlight(w) + multiset(w.answered) == multiset(w.sent)
  }

  lemma {:induction false} TickMoves(running: seq<Running>, now: int)
    ensures multiset(Started(StillRunning(running, now))) + multiset(Reported(Completions(running, now)))
            == multiset(Started(running))
  {
    if running != [] {
      var front, last := running[..|running| - 1], running[|running| - 1];
      TickMoves(front, now);
      assert running == front + [last];
      StartedGrows(front, last);
      StartedGrows(StillRunning(front, now), last);
      ReportedGrows(Completions(front, now), Outcome(last.request, Finished));
      assert StillRunning(front, now) + [] == StillRunning(front, now);
      assert Completions(front, now) + [] == Completions(front, now);
    }
  }

  lemma StartedGrows(running: seq<Running>, last: Running)
    ensures multiset(Started(running + [last])) == multiset(Started(running)) + multiset{last.request}
  {
    assert Started(running + [last]) == Started(running) + [last.request];
  }

  lemma ReportedGrows(results: seq<Outcome>, last: Outcome)
    ensures multiset(Reported(results + [last])) == multiset(Reported(results)) + multiset{last.request}
  {
    assert Reported(results + [last]) == Reported(results) + [last.request];
  }

  lemma DispatchConserves(w: World, npc: string, tool: Tool)
    requires Conserved(w)
    ensures Conserved(Next(w, Dispatch(npc, tool)))
  {
    var r := Next(w, Dispatch(npc, tool));
    assert multiset(r.sent) == multiset(w.sent) + multiset{Request(|w.sent|, npc, tool)};
  }

  lemma ReceiveConserves(w: World, started: bool, now: int, duration: int)
    requires Conserved(w)
    ensures Conserved(Next(w, Receive(started, now, duration)))
  {
    if w.requests != [] {
      var r := Next(w, Receive(started, now, duration));
      assert w.requests == [w.requests[0]] + w.requests[1..];
      if started {
        assert Started(r.running) == Started(w.running) + [w.requests[0]];
      } else {
        assert Reported(r.results) == Reported(w.results) + [w.requests[0]];
      }
    }
  }

  lemma TickConserves(w: World, now: int)
    requires Conserved(w)
    ensures Conserved(Next(w, Tick(now)))
  {
    var r := Next(w, Tick(now));
    TickMoves(w.running, now);
    assert multiset(Reported(r.results)) == multiset(Reported(w.results)) + multiset(Reported(Completions(w.running, now))) by {
      ReportedJoins(w.results, Completions(w.running, now));
    }
  }

  lemma ReportedJoins(a: seq<Outcome>, b: seq<Outcome>)
    ensures multiset(Reported(a + b)) == multiset(Reported(a)) + multiset(Reported(b))
  {
    assert Reported(a + b) == Reported(a) + Reported(b);
  }

  lemma InFlightIsSent(w: World, request: Request)
    requires Conserved(w) && request in InFlight(w)
    ensures request.id < |w.sent| && w.sent[request.id] == request
    ensures InFlight(w)[request] == 1 && request !in w.answered
  {
    assert (InFlight(w) + multiset(w.answered))[request] >= 1;
    SentOnce(w.sent, request);
    assert multiset(w.answered)[request] == 0;
  }

  lemma {:induction false} SentOnce(sent: seq<Request>, request: Request)
    requires forall i :: 0 <= i < |sent| ==> sent[i].id == i
    ensures multiset(sent)[request] == if request.id < |sent| && sent[request.id] == request then 1 else 0
  {
    if sent != [] {
      var front, last := sent[..|sent| - 1], sent[|sent| - 1];
      assert sent == front + [last];
      SentOnce(front, request);
    }
  }

  lemma AnswerConserves(w: World)
    requires Conserved(w)
    ensures Conserved(Next(w, Answer))
  {
    if w.results != [] {
      var r := Next(w, Answer);
      var request := w.results[0].request;
      assert Reported(w.results)[0] == request;
      assert request in InFlight(w);
      InFlightIsSent(w, request);
      assert Reported(w.results) == [request] + Reported(r.results);
    }
  }

  /** The dispatcher waits for exactly the requests in flight whose tool is not
      a short overlay. */
  ghost predicate DeskInv(w: World) {
    && w.desk.Valid()
    && (forall id: nat ::
          id in w.desk.pending <==> id < |w.sent| && w.sent[id] !in w.answered && w.sent[id].tool !in TRANSIENT_TOOLS)
    && forall id <- w.desk.pending :: id < |w.sent| && w.desk.pending[id] == w.sent[id]
  }

  lemma DispatchKeepsDesk(w: World, npc: string, tool: Tool)
    requires Conserved(w) && DeskInv(w)
    ensures DeskInv(Next(w, Dispatch(npc, tool)))
  {
    var request := Request(|w.sent|, npc, tool);
    AcceptKeeps(w.desk, request);
    SentOnce(w.sent, request);
    assert (InFlight(w) + multiset(w.answered))[request] == 0;
    var r := Next(w, Dispatch(npc, tool));
    assert r.sent[|w.sent|] == request && request !in r.answered;
  }

  lemma AnswerKeepsDesk(w: World)
    requires Conserved(w) && DeskInv(w)
    ensures DeskInv(Next(w, Answer))
  {
    if w.results != [] {
      var request := w.results[0].request;
      assert Reported(w.results)[0] == request;
      InFlightIsSent(w, request);
      RemoveKeeps(w.desk, request.id);
      assert Next(w, Answer).desk.pending == w.desk.pending - {w.results[0].request.id};
    }
  }

  lemma {:induction false} ReachedIsConserved(steps: seq<Step>)
    ensures Conserved(Reached(steps)) && DeskInv(Reached(steps))
  {
    if steps == [] {
      assert InFlight(QUIET) == multiset{};
    } else {
      var w := Reached(steps[..|steps| - 1]);
      ReachedIsConserved(steps[..|steps| - 1]);
      match steps[|steps| - 1] {
        case Dispatch(npc, tool) =>
          DispatchConserves(w, npc, tool);
          DispatchKeepsDesk(w, npc, tool);
        case Receive(started, now, duration) => ReceiveConserves(w, started, now, duration);
        case Tick(now) => TickConserves(w, now);
        case Answer =>
          AnswerConserves(w);
          AnswerKeepsDesk(w);
      }
    }
  }

  /** In how many places a request is at the moment. */
  function Places(w: World, request: Request): nat {
    multiset(w.requests)[request] + multiset(Started(w.running))[request] + multiset(Reported(w.results))[request]
  }

  /** How often the result of a request was taken in. */
  function TimesAnswered(w: World, request: Request): nat {
    multiset(w.answered)[request]
  }

  /** In every run each dispatched request is in exactly one place: on its way,
      running, reported, or answered once; nothing else is anywhere; and the
      dispatcher's book is what is in flight, short overlays left out. */
  lemma EveryRequestIsInOnePlace(steps: seq<Step>, request: Request)
    ensures var w := Reached(steps);
            var known := request.id < |w.sent| && w.sent[request.id] == request;
            && Places(w, request) + TimesAnswered(w, request) == (if known then 1 else 0)
            && (request.id in w.desk.pending && known <==>
                  Places(w, request) == 1 && request.tool !in TRANSIENT_TOOLS)
  {
    var w := Reached(steps);
    ReachedIsConserved(steps);
    SentOnce(w.sent, request);
    assert (InFlight(w) + multiset(w.answered))[request] == Places(w, request) + TimesAnswered(w, request);
  }

  // ---------------------------------------------------------------------
  // Everything is answered in the end
  // ---------------------------------------------------------------------

  /** The bridge works through its requests, then everything falls due, then the
      runtime takes in every result. */
  function ReceiveAll(w: World, started: nat -> bool, now: int): (r: World)
    ensures r.requests == [] && r.sent == w.sent
    decreases |w.requests|
  {
    if w.requests == [] then w
    else ReceiveAll(Next(w, Receive(started(w.requests[0].id), now, 0)), started, now)
  }

  function AnswerAll(w: World): (r: World)
    ensures r.results == [] && r.requests == w.requests && r.running == w.running && r.sent == w.sent
    decreases |w.results|
  {
    if w.results == [] then w else AnswerAll(Next(w, Answer))
  }

  function Latest(running: seq<Running>): int {
    if running == [] then 0
    else
      var rest := Latest(running[..|running| - 1]);
      if running[|running| - 1].due > rest then running[|running| - 1].due else rest
  }

  lemma {:induction false} AllDue(running: seq<Running>, now: int)
    requires now >= Latest(running)
    ensures StillRunning(running, now) == []
  {
    if running != [] {
      AllDue(running[..|running| - 1], now);
    }
  }

  lemma {:induction false} ReceivingAllConserves(w: World, started: nat -> bool, now: int)
    requires Conserved(w) && DeskInv(w)
    ensures var r := ReceiveAll(w, started, now); Conserved(r) && DeskInv(r)
    decreases |w.requests|
  {
    if w.requests != [] {
      ReceiveConserves(w, started(w.requests[0].id), now, 0);
      ReceivingAllConserves(Next(w, Receive(started(w.requests[0].id), now, 0)), started, now);
    }
  }

  lemma {:induction false} AnsweringAllConserves(w: World)
    requires Conserved(w) && DeskInv(w)
    ensures var r := AnswerAll(w); Conserved(r) && DeskInv(r)
    decreases |w.results|
  {
    if w.results != [] {
      AnswerConserves(w);
      AnswerKeepsDesk(w);
      AnsweringAllConserves(Next(w, Answer));
    }
  }

  /** From every reachable world, whichever actions the bridge starts or refuses:
      once it has taken all requests, everything has fallen due and the runtime
      has taken in the results, every request ever dispatched has been answered
      exactly once and the dispatcher waits for nothing. */
  lemma EverythingIsAnswered(steps: seq<Step>, started: nat -> bool, now: int)
    ensures var w := Reached(steps);
            var received := ReceiveAll(w, started, now);
            var done := AnswerAll(Next(received, Tick(Latest(received.running))));
            && done.desk.pending == map[]
            && |done.answered| == |w.sent|
            && forall request <- w.sent :: TimesAnswered(done, request) == 1
  {
    var w := Reached(steps);
    ReachedIsConserved(steps);
    var received := ReceiveAll(w, started, now);
    ReceivingAllConserves(w, started, now);
    var ticked := Next(received, Tick(Latest(received.running)));
    TickConserves(received, Latest(received.running));
    AllDue(received.running, Latest(received.running));
    AnsweringAllConserves(ticked);
    NothingLeft(AnswerAll(ticked));
  }

  lemma NothingLeft(w: World)
    requires Conserved(w) && DeskInv(w) && w.requests == [] && w.running == [] && w.results == []
    ensures w.desk.pending == map[] && |w.answered| == |w.sent|
    ensures forall request <- w.sent :: TimesAnswered(w, request) == 1
  {
    assert Started(w.running) == [] && Reported(w.results) == [];
    assert multiset(w.answered) == multiset(w.sent);
    assert |multiset(w.answered)| == |w.answered| && |multiset(w.sent)| == |w.sent|;
    forall request | request in w.sent
      ensures TimesAnswered(w, request) == 1
    {
      SentOnce(w.sent, request);
    }
    forall id: nat | id < |w.sent|
      ensures id !in w.desk.pending
    {
      assert w.sent[id] in multiset(w.answered);
    }
    assert w.desk.pending.Keys == {};
  }
}
