/** Graph nodes as the program holds them: objects that know their inputs and their users. */
module Nodes {
  import opened Graphs

  class Node {
    const id: Id
    const kind: Kind
    const value: int
    var ins: seq<Node?>
    var uses: seq<Use>

    constructor (id: Id, kind: Kind, value: int, numIns: nat)
      ensures this.id == id && this.kind == kind && this.value == value
      ensures ins == seq(numIns, _ => null) && uses == []
    {
      this.id, this.kind, this.value := id, kind, value;
      ins, uses := seq(numIns, _ => null), [];
    }
  }

  /** `user` takes the node that lists this use as its input number `index`. */
  datatype Use = Use(user: Node, index: nat)

  function IdOf(n: Node?): Id {
    if n == null then 0 else n.id
  }

  function IdsOf(ns: seq<Node?>): (ids: seq<Id>)
    ensures |ids| == |ns| && forall i :: 0 <= i < |ns| ==> ids[i] == IdOf(ns[i])
  {
    seq(|ns|, i requires 0 <= i < |ns| => IdOf(ns[i]))
  }

  function View(n: Node): Vertex
    reads n`ins
  {
    Vertex(n.kind, IdsOf(n.ins), n.value)
  }

  predicate SameId(m: Node, n: Node) {
    m.id == n.id
  }

  ghost predicate Distinct(live: set<Node>) {
    (forall n :: n in live ==> n.id != 0) &&
    forall m, n {:trigger SameId(m, n)} :: m in live && n in live && SameId(m, n) ==> m == n
  }

  ghost function Ids(live: set<Node>): set<Id> {
    set n | n in live :: n.id
  }

  /** `g` tells the inputs of the nodes of `live`. */
  ghost predicate Shows(g: Graph, live: set<Node>)
    reads live`ins
  {
    forall n :: n in live ==> n.id in g.nodes && g.nodes[n.id] == View(n)
  }

  /** What the nodes of `live` say, as a value. */
  ghost function GraphOf(live: set<Node>, start: Id, end: Id): (g: Graph)
    requires Distinct(live)
    reads live`ins
    ensures g.start == start && g.end == end && g.nodes.Keys == Ids(live) && Shows(g, live)
  {
    GraphExists(live, start, end);
    var g: Graph :| g.start == start && g.end == end && g.nodes.Keys == Ids(live) && Shows(g, live); g
  }

  lemma GraphExists(live: set<Node>, start: Id, end: Id)
    requires Distinct(live)
    ensures exists g: Graph :: g.start == start && g.end == end && g.nodes.Keys == Ids(live) && Shows(g, live)
  {
    assert forall m, n :: m in live && n in live && m.id == n.id ==> SameId(m, n);
    var nodes := map n | n in live :: n.id := View(n);
    assert Shows(Graph(nodes, start, end), live);
  }

  /** `u` is an edge between nodes of `live`: its user's slot is filled, and, while `dying` is being
      unlinked, not one of the slots of `dying` before `from`. */
  ghost predicate Linked(live: set<Node>, dying: Node?, from: nat, u: Use)
    reads live
  {
    u.user in live && u.index < |u.user.ins| && u.user.ins[u.index] != null && (u.user != dying || from <= u.index)
  }

  ghost predicate InputsLive(live: set<Node>)
    reads live
  {
    forall n, i :: n in live && 0 <= i < |n.ins| && n.ins[i] != null ==> n.ins[i] in live
  }

  ghost predicate UsesLinked(live: set<Node>, dying: Node?, from: nat)
    reads live
  {
    forall n, u :: n in live && u in n.uses ==> Linked(live, dying, from, u) && u.user.ins[u.index] == n
  }

  ghost predicate LinksUsed(live: set<Node>, dying: Node?, from: nat)
    requires InputsLive(live)
    reads live
  {
    forall n, i: nat :: n in live && i < |n.ins| && Linked(live, dying, from, Use(n, i)) ==> Use(n, i) in n.ins[i].uses
  }

  ghost predicate UsesUnique(live: set<Node>)
    reads live
  {
    forall n :: n in live ==> NoDuplicates(n.uses)
  }

  /** Inputs and uses mirror each other: the uses of a node are exactly the slots that hold it, each once. */
  ghost predicate Mirror(live: set<Node>, dying: Node?, from: nat)
    reads live
  {
    InputsLive(live) && UsesLinked(live, dying, from) && LinksUsed(live, dying, from) && UsesUnique(live)
  }

  predicate NoDuplicates<T(==)>(s: seq<T>) {
    forall i, j :: 0 <= i < j < |s| ==> s[i] != s[j]
  }
}
