/** A function under optimization: its START and END nodes and the nodes that have not been removed. */
module Funcs {
  import opened Graphs
  import opened Nodes

  class Func {
    var nextId: Id
    var start: Node?
    var end: Node?
    ghost var live: set<Node>

    constructor ()
      ensures nextId == 1 && start == null && end == null && live == {}
    {
      nextId, start, end, live := 1, null, null, {};
    }

    /** Every node but END has a user, and users and inputs mirror each other. */
    ghost predicate Valid()
      reads this, live
    {
      start != null && end != null && start in live && end in live && Distinct(live) && Mirror(live, null, 0) &&
      forall n :: n in live ==> n.id < nextId && (n.uses == [] <==> n == end)
    }

    ghost function Graph(): Graph
      reads this, live
      requires Valid()
    {
      GraphOf(live, start.id, end.id)
    }
  }
}
