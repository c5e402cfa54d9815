/** The runtime's side of the action protocol: which requests wait for a result. */
module Dispatching {
  import opened Common
  import opened Names
  import opened Journal

  /** The pending requests, with the ids in dispatch order beside the map. */
  datatype Desk = Desk(pending: map<nat, Request>, order: seq<nat>)
  {
    function Accept(request: Request): Desk {
      if request.tool in TRANSIENT_TOOLS then this
      else Desk(pending[request.id := request],
                if request.id in pending then order else order + [request.id])
    }

    function Remove(id: nat): Desk {
      if id in pending then Desk(pending - {id}, Drop(order, id)) else this
    }

    /** The NPCs with at least one pending request. */
    function Busy(): set<string> {
      set id | id in pending && pending[id].npc != "" :: pending[id].npc
    }

    ghost predicate Valid() {
      && Lists(order, pending.Keys)
      && forall id <- pending :: pending[id].id == id && pending[id].tool !in TRANSIENT_TOOLS
    }
  }

  lemma AcceptKeeps(desk: Desk, request: Request)
    requires desk.Valid()
    ensures desk.Accept(request).Valid()
  {
    if request.tool !in TRANSIENT_TOOLS && request.id !in desk.pending {
      AppendLists(desk.order, desk.pending.Keys, request.id);
      assert desk.Accept(request).pending.Keys == desk.pending.Keys + {request.id};
    }
  }

  lemma RemoveKeeps(desk: Desk, id: nat)
    requires desk.Valid()
    ensures desk.Remove(id).Valid()
  {
    if id in desk.pending {
      DropLists(desk.order, desk.pending.Keys, id);
      assert desk.Remove(id).pending.Keys == desk.pending.Keys - {id};
    }
  }
}
