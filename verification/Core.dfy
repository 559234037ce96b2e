/** Building a graph node by node. */
module Core {
  import opened Graphs
  import opened Rewrites
  import opened Nodes
  import opened Funcs
  import opened PostOrder
  import opened Walks
  import opened Removal

  /** The nodes made so far, possibly with slots still to fill, are those of `nodes`. */
  ghost predicate Building(f: Func, nodes: map<Id, Vertex>)
    reads f`live, f`nextId, f.live
  {
    Distinct(f.live) && Mirror(f.live, null, 0) && (forall n :: n in f.live ==> n.id < f.nextId) &&
    nodes.Keys == Ids(f.live) && forall n :: n in f.live ==> n.id in nodes && nodes[n.id] == View(n)
  }

  lemma NullsView(kind: Kind, value: int, n: nat, node: Node)
    requires node.kind == kind && node.value == value && node.ins == seq(n, _ => null)
    ensures View(node) == Vertex(kind, seq(n, _ => 0), value)
  {}

  /** A node with all its slots empty. */
  method NewNode(f: Func, kind: Kind, value: int, numIns: nat, ghost nodes: map<Id, Vertex>) returns (node: Node)
    requires f.nextId > 0 && Building(f, nodes)
    modifies f`nextId, f`live
    ensures fresh(node) && f.live == old(f.live) + {node} && node !in old(f.live) && f.nextId == old(f.nextId) + 1
    ensures node.id == old(f.nextId) && node.kind == kind && node.value == value && node.ins == seq(numIns, _ => null)
    ensures node.id !in nodes && Building(f, nodes[node.id := Vertex(kind, seq(numIns, _ => 0), value)])
  {
    node := new Node(f.nextId, kind, value, numIns);
    NullsView(kind, value, numIns, node);
    f.nextId := f.nextId + 1;
    ghost var all := f.live;
    f.live := f.live + {node};
    NewMirror(all, node);
    NewDistinct(all, node);
  }

  lemma NewDistinct(all: set<Node>, node: Node)
    requires Distinct(all) && node.id != 0 && forall n :: n in all ==> n.id < node.id
    ensures Distinct(all + {node}) && Ids(all + {node}) == Ids(all) + {node.id}
  {}

  lemma NewMirror(all: set<Node>, node: Node)
    requires Mirror(all, null, 0) && node !in all && node.uses == []
    requires forall i :: 0 <= i < |node.ins| ==> node.ins[i] == null
    ensures Mirror(all + {node}, null, 0)
  {
    var live := all + {node};
    forall n, u | n in live && u in n.uses
      ensures Linked(live, null, 0, u) && u.user.ins[u.index] == n
    {
      assert Linked(all, null, 0, u);
    }
    forall n, i: nat | n in live && i < |n.ins| && Linked(live, null, 0, Use(n, i))
      ensures Use(n, i) in n.ins[i].uses
    {
      assert Linked(all, null, 0, Use(n, i));
    }
  }

  /** Fills an empty slot, and lists the use. */
  method LinkInput(node: Node, index: nat, input: Node, ghost live: set<Node>)
    requires Mirror(live, null, 0) && node in live && input in live && index < |node.ins| && node.ins[index] == null
    modifies node`ins, input`uses
    ensures node.ins == old(node.ins)[index := input] && Mirror(live, null, 0)
  {
    assert Use(node, index) !in input.uses;
    node.ins := node.ins[index := input];
    input.uses := [Use(node, index)] + input.uses;
    forall n, u | n in live && u in n.uses
      ensures Linked(live, null, 0, u) && u.user.ins[u.index] == n
    {
      assert u != Use(node, index) ==> u in old(n.uses) && old(Linked(live, null, 0, u));
    }
    forall n, i: nat | n in live && i < |n.ins| && Linked(live, null, 0, Use(n, i))
      ensures Use(n, i) in n.ins[i].uses
    {
      assert Use(n, i) != Use(node, index) ==> old(Linked(live, null, 0, Use(n, i)));
    }
  }

  method SetInput(f: Func, node: Node, index: nat, input: Node, ghost nodes: map<Id, Vertex>)
    requires Building(f, nodes) && node in f.live && input in f.live && index < |node.ins| && node.ins[index] == null
    modifies node`ins, input`uses
    ensures node.ins == old(node.ins)[index := input]
    ensures Building(f, nodes[node.id := nodes[node.id].(ins := nodes[node.id].ins[index := input.id])])
  {
    LinkInput(node, index, input, f.live);
    SameNode(f.live, node);
  }

  lemma SameNode(live: set<Node>, node: Node)
    requires Distinct(live) && node in live
    ensures forall n :: n in live && n.id == node.id ==> n == node
  {
    forall n | n in live && n.id == node.id
      ensures n == node
    {
      assert SameId(n, node);
    }
  }

  function Refilled(nodes: map<Id, Vertex>, n: Id, ins: seq<Id>): map<Id, Vertex> {
    if n in nodes then nodes[n := nodes[n].(ins := ins)] else nodes
  }

  function Filled(inputs: seq<Node?>, i: nat): seq<Id> {
    seq(|inputs|, k requires 0 <= k < |inputs| => if k < i then IdOf(inputs[k]) else 0)
  }

  function Partial(inputs: seq<Node?>, i: nat): seq<Node?> {
    seq(|inputs|, k requires 0 <= k < |inputs| => if k < i then inputs[k] else null)
  }

  lemma NextSlot(inputs: seq<Node?>, i: nat)
    requires i < |inputs|
    ensures Partial(inputs, i + 1) == Partial(inputs, i)[i := inputs[i]]
    ensures inputs[i] == null ==>
      Partial(inputs, i + 1) == Partial(inputs, i) && Filled(inputs, i + 1) == Filled(inputs, i)
  {}

  lemma LastSlot(inputs: seq<Node?>)
    ensures Partial(inputs, |inputs|) == inputs && Filled(inputs, |inputs|) == IdsOf(inputs)
    ensures Partial(inputs, 0) == seq(|inputs|, _ => null)
  {}

  lemma NoneFilled(f: Func, node: Node, inputs: seq<Node?>, nodes: map<Id, Vertex>)
    requires Building(f, nodes) && node in f.live && node.ins == seq(|inputs|, _ => null)
    ensures node.id in nodes && nodes == Refilled(nodes, node.id, Filled(inputs, 0))
  {
    assert nodes[node.id] == View(node);
    assert nodes[node.id].ins == Filled(inputs, 0);
  }

  method FillSlot(f: Func, node: Node, inputs: seq<Node?>, i: nat, input: Node, ghost nodes: map<Id, Vertex>)
    requires i < |inputs| && inputs[i] == input && input in f.live && node in f.live && node.id in nodes
    requires node.ins == Partial(inputs, i)
    requires Building(f, Refilled(nodes, node.id, Filled(inputs, i)))
    modifies node`ins, input`uses
    ensures node.ins == Partial(inputs, i + 1)
    ensures Building(f, Refilled(nodes, node.id, Filled(inputs, i + 1)))
  {
    NextSlot(inputs, i);
    ghost var now: map<Id, Vertex> := Refilled(nodes, node.id, Filled(inputs, i));
    assert Filled(inputs, i + 1) == Filled(inputs, i)[i := IdOf(input)];
    assert now[node.id := now[node.id].(ins := now[node.id].ins[i := input.id])] ==
      Refilled(nodes, node.id, Filled(inputs, i + 1));
    hide Building;
    SetInput(f, node, i, input, now);
  }

  /** Fills all slots of a node that has none filled; null stays null. */
  method SetInputs(f: Func, node: Node, inputs: seq<Node?>, ghost nodes: map<Id, Vertex>)
    requires Building(f, nodes) && node in f.live && node.ins == seq(|inputs|, _ => null)
    requires forall i :: 0 <= i < |inputs| && inputs[i] != null ==> inputs[i] in f.live
    modifies node`ins, f.live`uses
    ensures node.ins == inputs
    ensures Building(f, Refilled(nodes, node.id, IdsOf(inputs)))
  {
    hide Building, Filled, Refilled, Partial, IdsOf;
    NoneFilled(f, node, inputs, nodes);
    LastSlot(inputs);
    var i := 0;
    while i < |inputs|
      invariant i <= |inputs| && node.ins == Partial(inputs, i)
      invariant Building(f, Refilled(nodes, node.id, Filled(inputs, i)))
    {
      if inputs[i] != null {
        var input := inputs[i];
        FillSlot(f, node, inputs, i, input, nodes);
      }
      NextSlot(inputs, i);
      i := i + 1;
    }
    LastSlot(inputs);
  }

  /** Gives a region or phi, made without slots, its slots. */
  method InitIns(f: Func, node: Node, numIns: nat, ghost nodes: map<Id, Vertex>)
    requires Building(f, nodes) && node in f.live && node.ins == []
    modifies node`ins
    ensures node.ins == seq(numIns, _ => null)
    ensures Building(f, nodes[node.id := nodes[node.id].(ins := seq(numIns, _ => 0))])
  {
    assert nodes[node.id] == View(node);
    node.ins := seq(numIns, _ => null);
    NullsView(node.kind, node.value, numIns, node);
    InitMirror(f.live, node);
    SameNode(f.live, node);
  }

  lemma InitMirror(live: set<Node>, node: Node)
    requires node in live && forall i :: 0 <= i < |node.ins| ==> node.ins[i] == null
    requires InputsLive(live) && UsesUnique(live)
    requires forall n, u :: n in live && u in n.uses ==> Linked(live, null, 0, u) && u.user.ins[u.index] == n
    requires forall n, i: nat :: n in live && n != node && i < |n.ins| && Linked(live, null, 0, Use(n, i)) ==>
      Use(n, i) in n.ins[i].uses
    ensures Mirror(live, null, 0)
  {}

  /** A node with its inputs. */
  method Make(f: Func, kind: Kind, value: int, inputs: seq<Node?>, ghost nodes: map<Id, Vertex>) returns (node: Node)
    requires f.nextId > 0 && Building(f, nodes)
    requires forall i :: 0 <= i < |inputs| && inputs[i] != null ==> inputs[i] in f.live
    modifies f`nextId, f`live, f.live`uses
    ensures fresh(node) && f.live == old(f.live) + {node} && f.nextId == old(f.nextId) + 1
    ensures node.id == old(f.nextId) && node.kind == kind
    ensures node.id !in nodes && Building(f, nodes[node.id := Vertex(kind, IdsOf(inputs), value)])
  {
    hide *;
    node := NewNode(f, kind, value, |inputs|, nodes);
    ghost var with: map<Id, Vertex> := nodes[node.id := Vertex(kind, seq(|inputs|, _ => 0), value)];
    RefilledIs(nodes, with, node.id, kind, value, inputs);
    SetInputs(f, node, inputs, with);
  }

  lemma RefilledIs(nodes: map<Id, Vertex>, with: map<Id, Vertex>, n: Id, kind: Kind, value: int, inputs: seq<Node?>)
    requires with == nodes[n := Vertex(kind, seq(|inputs|, _ => 0), value)]
    ensures Refilled(with, n, IdsOf(inputs)) == nodes[n := Vertex(kind, IdsOf(inputs), value)]
  {}

  // ----- finishing -----

  /** Drops the uses by nodes END does not depend on. */
  lemma UsesWithout(uses: seq<Use>, i: nat)
    requires i < |uses| && NoDuplicates(uses)
    ensures var rest := uses[..i] + uses[i + 1..];
      NoDuplicates(rest) && (forall u :: u in rest ==> u in uses) && forall u :: u in uses && u != uses[i] ==> u in rest
  {
    var rest := uses[..i] + uses[i + 1..];
    forall u | u in uses && u != uses[i]
      ensures u in rest
    {
      var k :| 0 <= k < |uses| && uses[k] == u;
      assert rest[if k < i then k else k - 1] == u;
    }
  }

  method FilterUses(node: Node, visited: set<Id>)
    requires NoDuplicates(node.uses)
    modifies node`uses
    ensures NoDuplicates(node.uses) && forall u :: u in node.uses <==> u in old(node.uses) && u.user.id in visited
  {
    hide NoDuplicates;
    var i := 0;
    while i < |node.uses|
      invariant i <= |node.uses| && NoDuplicates(node.uses)
      invariant forall u :: u in node.uses ==> u in old(node.uses)
      invariant forall u :: u in old(node.uses) && u.user.id in visited ==> u in node.uses
      invariant forall k :: 0 <= k < i ==> node.uses[k].user.id in visited
      decreases |node.uses| - i
    {
      if node.uses[i].user.id !in visited {
        UsesWithout(node.uses, i);
        node.uses := node.uses[..i] + node.uses[i + 1..];
      } else {
        i := i + 1;
      }
    }
  }

  /** `kept` are the nodes of `all` with an id in `visited`. */
  ghost predicate Kept(all: set<Node>, kept: set<Node>, visited: set<Id>) {
    kept <= all && forall n :: n in all ==> (n in kept <==> n.id in visited)
  }

  ghost function Keepers(all: set<Node>, visited: set<Id>): (kept: set<Node>)
    ensures kept <= all && Kept(all, kept, visited)
  {
    set n | n in all && n.id in visited
  }

  ghost predicate IsFiltered(now: seq<Use>, was: seq<Use>, visited: set<Id>) {
    (forall u :: u in now ==> u in was && u.user.id in visited) &&
    forall u :: u in was && u.user.id in visited ==> u in now
  }

  method FilterAll(nodes: seq<Node>, visited: set<Id>, ghost all: set<Node>, ghost kept: set<Node>)
    requires Mirror(all, null, 0) && Kept(all, kept, visited) && NoDuplicates(nodes)
    requires forall n :: n in nodes <==> n in kept
    modifies kept`uses
    ensures UsesUnique(kept) && forall n :: n in kept ==> IsFiltered(n.uses, old(n.uses), visited)
  {
    var i := 0;
    while i < |nodes|
      invariant i <= |nodes| && UsesUnique(kept)
      invariant forall n :: n in kept && n !in nodes[..i] ==> n.uses == old(n.uses)
      invariant forall n :: n in nodes[..i] ==> IsFiltered(n.uses, old(n.uses), visited)
    {
      assert nodes[..i + 1] == nodes[..i] + [nodes[i]];
      assert nodes[i] !in nodes[..i] && nodes[i] in nodes;
      FilterUses(nodes[i], visited);
      i := i + 1;
    }
    assert nodes[..i] == nodes;
    assert forall n :: n in kept ==> n in nodes[..i];
  }

  /** Unlinks what END does not depend on: the nodes that stay mirror each other. */
  method Prune(nodes: seq<Node>, visited: set<Id>, ghost all: set<Node>, ghost kept: set<Node>)
    requires Mirror(all, null, 0) && Kept(all, kept, visited) && NoDuplicates(nodes)
    requires forall n :: n in nodes <==> n in kept
    requires forall n, i :: n in kept && 0 <= i < |n.ins| && n.ins[i] != null ==> n.ins[i] in kept
    modifies kept`uses
    ensures Mirror(kept, null, 0)
  {
    FilterAll(nodes, visited, all, kept);
    forall n, u | n in kept && u in n.uses
      ensures Linked(kept, null, 0, u) && u.user.ins[u.index] == n
    {
      assert IsFiltered(n.uses, old(n.uses), visited);
      assert u in old(n.uses) && old(Linked(all, null, 0, u));
    }
    forall n, i: nat | n in kept && i < |n.ins| && Linked(kept, null, 0, Use(n, i))
      ensures Use(n, i) in n.ins[i].uses
    {
      assert old(Linked(all, null, 0, Use(n, i)));
      assert IsFiltered(n.ins[i].uses, old(n.ins[i].uses), visited);
    }
  }

  /** What END depends on, other than END, is used by something END depends on. */
  lemma VisitedIsUsed(g: Graph, visited: set<Id>, n: Id)
    requires InputClosed(g, visited) && n in visited && n != g.end && n != 0
    requires forall K :: InputClosed(g, K) ==> visited <= K
    ensures HasUser(g, visited, n)
  {
    if !HasUser(g, visited, n) {
      assert InputClosed(g, visited - {n});
    }
  }

  lemma UsesById(live: set<Node>, g: Graph, n: Node)
    requires Distinct(live) && Mirror(live, null, 0) && Shows(g, live) && g.nodes.Keys == Ids(live) && n in live
    ensures n.uses != [] <==> HasUser(g, Ids(live), n.id)
  {
    if n.uses != [] {
      var u := n.uses[0];
      assert u in n.uses && Linked(live, null, 0, u);
      assert g.nodes[u.user.id] == View(u.user);
      assert g.nodes[u.user.id].ins[u.index] == n.id;
    }
    if HasUser(g, Ids(live), n.id) {
      UserIsListed(g, live, n, Ids(live));
    }
  }

  /** Everything in the graph is something END depends on. */
  ghost predicate AllUsed(g: Graph) {
    forall K :: InputClosed(g, K) ==> g.nodes.Keys <= K
  }

  lemma KeepAllUsed(g: Graph, visited: set<Id>)
    requires InputClosed(g, visited) && forall K :: InputClosed(g, K) ==> visited <= K
    ensures AllUsed(Keep(g, visited))
  {
    forall K | InputClosed(Keep(g, visited), K)
      ensures Keep(g, visited).nodes.Keys <= K
    {
      forall n, i | n in K * visited && n in g.nodes && 0 <= i < |g.nodes[n].ins| && g.nodes[n].ins[i] != 0
        ensures g.nodes[n].ins[i] in K * visited
      {
        assert n in Keep(g, visited).nodes;
      }
      assert InputClosed(g, K * visited);
    }
  }

  lemma KeptFacts(g: Graph, all: set<Node>, kept: set<Node>, visited: set<Id>)
    requires Distinct(all) && InputsLive(all) && Shows(g, all) && g.nodes.Keys == Ids(all)
    requires Kept(all, kept, visited) && visited <= Ids(all) && InputClosed(g, visited)
    ensures Distinct(kept) && Ids(kept) == visited && Shows(Keep(g, visited), kept)
    ensures forall n, i :: n in kept && 0 <= i < |n.ins| && n.ins[i] != null ==> n.ins[i] in kept
  {
    forall i | i in visited
      ensures i in Ids(kept)
    {
      var n :| n in all && n.id == i;
    }
    forall n, i | n in kept && 0 <= i < |n.ins| && n.ins[i] != null
      ensures n.ins[i] in kept
    {
      assert g.nodes[n.id] == View(n) && g.nodes[n.id].ins[i] == n.ins[i].id;
    }
  }

  lemma KeptUses(g: Graph, kept: set<Node>, visited: set<Id>)
    requires Distinct(kept) && Mirror(kept, null, 0) && Ids(kept) == visited && Shows(Keep(g, visited), kept)
    requires InputClosed(g, visited) && (forall K :: InputClosed(g, K) ==> visited <= K) && visited <= g.nodes.Keys
    requires forall n, i :: n in g.nodes && 0 <= i < |g.nodes[n].ins| ==> g.nodes[n].ins[i] != g.end
    ensures forall n :: n in kept ==> (n.uses == [] <==> n.id == g.end)
  {
    var h := Keep(g, visited);
    forall n | n in kept
      ensures n.uses == [] <==> n.id == g.end
    {
      UsesById(kept, h, n);
      if n.id != g.end {
        VisitedIsUsed(g, visited, n.id);
        assert HasUser(h, visited, n.id);
      }
    }
  }

  lemma WalkedKept(all: set<Node>, kept: set<Node>, visited: set<Id>, walk: seq<Node>)
    requires Kept(all, kept, visited) && forall n :: n in walk ==> n in all
    requires forall n :: n in all ==> (n in walk <==> n.id in visited)
    ensures kept <= all && forall n :: n in walk <==> n in kept
  {}

  /** Drops the nodes that were not walked, and their uses of the ones that were. */
  method DropRest(f: Func, ghost g: Graph, walk: seq<Node>, visited: set<Id>)
    requires f.start != null && f.end != null && g.start == f.start.id && g.end == f.end.id
    requires f.start in f.live && f.end in f.live
    requires Distinct(f.live) && InputsLive(f.live) && Shows(g, f.live) && g.nodes.Keys == Ids(f.live)
    requires Mirror(f.live, null, 0) && NoDuplicates(walk) && f.start.id in visited && f.end.id in visited
    requires visited <= Ids(f.live) && InputClosed(g, visited) && forall K :: InputClosed(g, K) ==> visited <= K
    requires forall n :: n in walk ==> n in f.live
    requires forall n :: n in f.live ==> (n in walk <==> n.id in visited)
    requires forall n, i :: n in g.nodes && 0 <= i < |g.nodes[n].ins| ==> g.nodes[n].ins[i] != g.end
    requires forall n :: n in f.live ==> n.id < f.nextId
    modifies f`live, f.live`uses
    ensures f.live <= old(f.live) && f.Valid() && f.Graph() == Keep(g, visited) && AllUsed(f.Graph())
  {
    hide *;
    ghost var all := f.live;
    ghost var kept := Keepers(all, visited);
    KeptFacts(g, all, kept, visited);
    WalkedKept(all, kept, visited, walk);
    f.live := kept;
    Prune(walk, visited, all, kept);
    PrunedIsValid(f, g, all, visited);
  }

  /** Completes the function: the uses by nodes that END does not depend on are dropped. START is always
      found, so the complaint that the function never terminates cannot arise. */
  method FinishFunc(f: Func, ghost nodes: map<Id, Vertex>) returns (ghost visited: set<Id>)
    requires f.start != null && f.end != null && f.start in f.live && f.end in f.live && Building(f, nodes)
    requires StartPinned(Graph(nodes, f.start.id, f.end.id))
    requires forall n, i :: n in nodes && 0 <= i < |nodes[n].ins| ==> nodes[n].ins[i] != f.end.id
    modifies f`live, f.live`uses
    ensures f.live <= old(f.live) && f.Valid() && f.Graph() == Keep(Graph(nodes, f.start.id, f.end.id), visited)
    ensures InputClosed(Graph(nodes, f.start.id, f.end.id), visited) && AllUsed(f.Graph())
  {
    ghost var g := Graph(nodes, f.start.id, f.end.id);
    BuildingFacts(f, g);
    hide *;
    var walk, seen := PostOrderWalk(f.end, f.live, g);
    visited := seen;
    DropRest(f, g, walk, seen);
  }

  lemma PrunedIsValid(f: Func, g: Graph, all: set<Node>, visited: set<Id>)
    requires f.start != null && f.end != null && g.start == f.start.id && g.end == f.end.id
    requires f.start in all && f.end in all
    requires Distinct(all) && Kept(all, f.live, visited) && f.start.id in visited && f.end.id in visited
    requires visited <= g.nodes.Keys
    requires Distinct(f.live) && Mirror(f.live, null, 0) && Ids(f.live) == visited && Shows(Keep(g, visited), f.live)
    requires InputClosed(g, visited) && forall K :: InputClosed(g, K) ==> visited <= K
    requires forall n, i :: n in g.nodes && 0 <= i < |g.nodes[n].ins| ==> g.nodes[n].ins[i] != g.end
    requires forall n :: n in f.live ==> n.id < f.nextId
    ensures f.Valid() && f.Graph() == Keep(g, visited) && AllUsed(f.Graph())
  {
    KeptUses(g, f.live, visited);
    KeepAllUsed(g, visited);
    KeptGraph(g, all, f.live, visited, f.start, f.end);
  }

  lemma BuildingFacts(f: Func, g: Graph)
    requires f.end != null && f.end in f.live && f.start != null && Building(f, g.nodes)
    requires g == Graph(g.nodes, f.start.id, f.end.id) && StartPinned(g)
    ensures Distinct(f.live) && InputsLive(f.live) && Shows(g, f.live)
    ensures g.nodes.Keys == Ids(f.live) && Mirror(f.live, null, 0)
    ensures forall K :: InputClosed(g, K) ==> g.start in K && g.end in K
    ensures forall n :: n in f.live ==> n.id < f.nextId
  {}

  lemma KeptGraph(g: Graph, all: set<Node>, kept: set<Node>, visited: set<Id>, start: Node, end: Node)
    requires Distinct(kept) && Distinct(all) && Ids(kept) == visited && Shows(Keep(g, visited), kept)
    requires visited <= g.nodes.Keys
    requires start in all && end in all && Kept(all, kept, visited) && start.id in visited && end.id in visited
    requires g.start == start.id && g.end == end.id
    ensures start in kept && end in kept && GraphOf(kept, start.id, end.id) == Keep(g, visited)
    ensures forall n :: n in kept ==> (n.id == end.id <==> n == end)
  {
    assert GraphOf(kept, start.id, end.id).nodes.Keys == Keep(g, visited).nodes.Keys;
    forall n | n in kept && n.id == end.id
      ensures n == end
    {
      assert SameId(n, end);
    }
  }
}
