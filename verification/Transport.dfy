/** The dispatcher, and the recorder it shares with the runtime: the journal
    of what leaves the program, the clock and the source of request ids. */
module Transport {
  import opened Common
  import opened Names
  import opened Ownership
  import opened Journal
  import opened Dispatching

  class Recorder {
    const clock: nat -> real
    var log: seq<Item>
    var ticks: nat
    var nextId: nat

    constructor (clock: nat -> real)
      ensures this.clock == clock && log == [] && ticks == 0 && nextId == 0
    {
      this.clock := clock;
      log, ticks, nextId := [], 0, 0;
    }

    method Append(item: Item)
      modifies this`log
      ensures log == old(log) + [item]
    {
      log := log + [item];
    }

    /** One reading of the clock. */
    method Now() returns (now: real)
      modifies this`ticks
      ensures now == clock(old(ticks)) && ticks == old(ticks) + 1
    {
      now := clock(ticks);
      ticks := ticks + 1;
    }

    method FreshId() returns (id: nat)
      modifies this`nextId
      ensures id == old(nextId) && nextId == old(nextId) + 1
    {
      id := nextId;
      nextId := nextId + 1;
    }
  }

  class Dispatcher {
    const recorder: Recorder
    var pending: map<nat, Request>
    var order: seq<nat>

    ghost function Book(): Desk
      reads this
    {
      Desk(pending, order)
    }

    /** The order lists the pending ids once each, and no short overlay is booked. */
    ghost predicate Valid()
      reads this
    {
      Book().Valid()
    }

    constructor (recorder: Recorder)
      ensures Valid() && this.recorder == recorder && Book() == Desk(map[], [])
    {
      this.recorder := recorder;
      pending, order := map[], [];
    }

    /** Books the request unless its tool is transient, records the start (and
        the line spoken), and hands it to the bridge. */
    method Dispatch(npc: string, tool: Tool, reason: Reason)
      requires Valid()
      modifies this`pending, this`order, recorder
      ensures Valid()
      ensures Book() == old(Book()).Accept(Request(old(recorder.nextId), npc, tool))
      ensures recorder.nextId == old(recorder.nextId) + 1
      ensures recorder.ticks == old(recorder.ticks) + (if npc != "" && tool == Say then 1 else 0)
      ensures recorder.log == old(recorder.log) +
                (if npc == "" then [] else [Fact(npc, ActionStarted, ByRuntime, Plain)]) +
                (if npc == "" || tool != Say then []
                 else [Fact(npc, NpcSpoke, ByRuntime, Spoken(reason, recorder.clock(old(recorder.ticks))))]) +
                [Sent(old(recorder.nextId), npc, tool)]
    {
      var id := recorder.FreshId();
      AcceptKeeps(Book(), Request(id, npc, tool));
      if tool !in TRANSIENT_TOOLS {
        if id !in pending {
          order := order + [id];
        }
        pending := pending[id := Request(id, npc, tool)];
      }
      if npc != "" {
        recorder.Append(Fact(npc, ActionStarted, ByRuntime, Plain));
        if tool == Say {
          var now := recorder.Now();
          recorder.Append(Fact(npc, NpcSpoke, ByRuntime, Spoken(reason, now)));
        }
      }
      recorder.Append(Sent(id, npc, tool));
    }

    /** Clears and returns the pending request with this id. */
    method Resolve(id: Option<nat>) returns (request: Option<Request>)
      requires Valid()
      modifies this`pending, this`order, recorder`log
      ensures Valid()
      ensures id.None? || id.value !in old(pending) ==>
                request == None && Book() == old(Book()) && recorder.log == old(recorder.log)
      ensures id.Some? && id.value in old(pending) ==>
                && request == Some(old(pending)[id.value])
                && Book() == old(Book()).Remove(id.value)
                && recorder.log == old(recorder.log) + [Resolved(id.value)]
    {
      request := None;
      if id.None? || id.value !in pending {
        return;
      }
      request := Some(pending[id.value]);
      RemoveLocked(id.value);
      recorder.Append(Resolved(id.value));
    }

    /** Forgets a request: out of the map, and cut out of the order. */
    method RemoveLocked(id: nat)
      requires Valid() && id in pending
      modifies this`pending, this`order
      ensures Valid() && Book() == old(Book()).Remove(id)
    {
      ghost var removed := Book().Remove(id);
      RemoveKeeps(Book(), id);
      CutOut(id);
      assert Book() == removed;
    }

    method CutOut(id: nat)
      requires id in pending
      modifies this`pending, this`order
      ensures Book() == old(Book()).Remove(id)
    {
      pending := map k | k in pending && k != id :: pending[k];
      assert pending == old(pending) - {id};
      for index := 0 to |order|
        invariant order == old(order) && pending == old(pending) - {id}
        invariant id !in order[..index]
      {
        if order[index] == id {
          DropAt(order, id, index);
          order := order[..index] + order[index + 1..];
          return;
        }
      }
      DropAbsent(order, id);
    }

    /** The NPCs that have a request in flight. */
    method PendingNPCIDs() returns (ids: set<string>)
      ensures ids == Book().Busy()
    {
      ids := {};
      var left := pending.Keys;
      while left != {}
        invariant left <= pending.Keys
        invariant forall n :: n in ids <==> exists id :: id in pending.Keys - left && pending[id].npc == n && n != ""
        decreases |left|
      {
        var id :| id in left;
        if pending[id].npc != "" {
          ids := ids + {pending[id].npc};
        }
        left := left - {id};
      }
    }

    /** The requests in flight, in dispatch order. */
    method PendingRequests() returns (requests: seq<Request>)
      requires Valid()
      ensures |requests| == |order|
      ensures forall i :: 0 <= i < |order| ==> order[i] in pending && requests[i] == pending[order[i]]
      ensures forall id <- pending :: pending[id] in requests
    {
      requests := [];
      for i := 0 to |order|
        invariant |requests| == i
        invariant forall j :: 0 <= j < i ==> requests[j] == pending[order[j]]
      {
        if order[i] in pending {
          requests := requests + [pending[order[i]]];
        }
      }
      forall id | id in pending
        ensures pending[id] in requests
      {
        var i :| 0 <= i < |order| && order[i] == id;
        assert requests[i] == pending[id];
      }
    }
  }
}
