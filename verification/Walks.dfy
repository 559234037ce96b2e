/** Walking the graph from END along inputs, with an explicit stack. */
module Walks {
  import opened Graphs
  import opened Rewrites
  import opened Nodes
  import opened PostOrder

  datatype PostOrderNode = PostOrderNode(childrenProcessed: bool, node: Node)

  /** `K` contains what the stack still holds. */
  ghost predicate StackWithin(stack: seq<PostOrderNode>, K: set<Id>) {
    forall x :: x in stack ==> x.node.id in K
  }

  /** The inputs of visited nodes are visited, or wait on the stack. */
  ghost predicate InputsSeen(all: set<Node>, visited: set<Id>, stack: seq<PostOrderNode>)
    reads all`ins
  {
    forall n, i :: n in all && n.id in visited && 0 <= i < |n.ins| && n.ins[i] != null ==>
      n.ins[i].id in visited || PostOrderNode(false, n.ins[i]) in stack
  }

  /** The visited nodes are those already listed and those whose inputs are being walked, each once. */
  ghost predicate Listed(all: set<Node>, visited: set<Id>, stack: seq<PostOrderNode>, nodes: seq<Node>) {
    (forall n :: n in nodes ==> n in all && n.id in visited) &&
    (forall x :: x in stack ==> x.node in all && (x.childrenProcessed ==> x.node.id in visited && x.node !in nodes)) &&
    (forall n :: n in all && n.id in visited ==> n in nodes || PostOrderNode(true, n) in stack) &&
    NoDuplicates(nodes) &&
    (forall i, j :: 0 <= i < j < |stack| && stack[i].childrenProcessed && stack[j].childrenProcessed ==>
      stack[i] != stack[j])
  }

  ghost predicate WalkState(end: Node, all: set<Node>, g: Graph, visited: set<Id>, stack: seq<PostOrderNode>,
                            nodes: seq<Node>)
    reads all`ins
  {
    visited <= Ids(all) && Listed(all, visited, stack, nodes) && InputsSeen(all, visited, stack) &&
    (end.id in visited || PostOrderNode(false, end) in stack) &&
    forall K :: InputClosed(g, K) ==> visited <= K && StackWithin(stack, K)
  }

  // ----- what the stack still stands for -----

  function Listing(nodes: seq<Node>): (ids: seq<Id>)
    ensures |ids| == |nodes|
  {
    seq(|nodes|, i requires 0 <= i < |nodes| => nodes[i].id)
  }

  /** What will be listed for the stack, from the top down. */
  function Pending(g: Graph, stack: seq<PostOrderNode>, seen: set<Id>): seq<Id> {
    if |stack| == 0 then []
    else
      var top, rest := stack[|stack| - 1], stack[..|stack| - 1];
      if top.childrenProcessed then [top.node.id] + Pending(g, rest, seen)
      else
        var w := Visit(g, top.node.id, seen);
        w.order + Pending(g, rest, w.visited)
  }

  /** The inputs as they are pushed. */
  function Inputs(ins: seq<Node?>): seq<PostOrderNode> {
    if |ins| == 0 then []
    else
      var last := ins[|ins| - 1];
      Inputs(ins[..|ins| - 1]) + if last == null then [] else [PostOrderNode(false, last)]
  }

  lemma {:induction false} PendingTop(g: Graph, rest: seq<PostOrderNode>, top: PostOrderNode, seen: set<Id>)
    ensures Pending(g, rest + [top], seen) ==
            if top.childrenProcessed then [top.node.id] + Pending(g, rest, seen)
            else Visit(g, top.node.id, seen).order + Pending(g, rest, Visit(g, top.node.id, seen).visited)
  {
    assert (rest + [top])[..|rest|] == rest;
  }

  /** The inputs on the stack are visited as the recursion visits them. */
  lemma {:induction false} PendingInputs(g: Graph, rest: seq<PostOrderNode>, ins: seq<Node?>, seen: set<Id>)
    requires 0 !in g.nodes
    ensures var w := VisitAll(g, IdsOf(ins), seen);
      Pending(g, rest + Inputs(ins), seen) == w.order + Pending(g, rest, w.visited)
    decreases |ins|
  {
    hide Visit, VisitAll, Pending;
    if |ins| == 0 {
      NoInputs(g, rest, seen);
      assert rest + [] == rest;
    } else {
      var last, init := ins[|ins| - 1], ins[..|ins| - 1];
      var v := Visit(g, IdOf(last), seen);
      var w := VisitAll(g, IdsOf(init), v.visited);
      LastVisited(g, ins, seen);
      PendingInputs(g, rest, init, v.visited);
      PushedLast(g, rest, ins, seen);
      assert v.order + (w.order + Pending(g, rest, w.visited)) == v.order + w.order + Pending(g, rest, w.visited);
    }
  }

  lemma {:induction false} NoInputs(g: Graph, rest: seq<PostOrderNode>, seen: set<Id>)
    ensures VisitAll(g, IdsOf([]), seen) == Walked(seen, []) && Inputs([]) == []
  {}

  lemma {:induction false} LastVisited(g: Graph, ins: seq<Node?>, seen: set<Id>)
    requires |ins| > 0
    ensures var v := Visit(g, IdOf(ins[|ins| - 1]), seen);
      var w := VisitAll(g, IdsOf(ins[..|ins| - 1]), v.visited);
      VisitAll(g, IdsOf(ins), seen) == Walked(w.visited, v.order + w.order)
  {
    assert IdsOf(ins)[..|ins| - 1] == IdsOf(ins[..|ins| - 1]);
  }

  lemma {:induction false} PushedLast(g: Graph, rest: seq<PostOrderNode>, ins: seq<Node?>, seen: set<Id>)
    requires |ins| > 0 && 0 !in g.nodes
    ensures var v := Visit(g, IdOf(ins[|ins| - 1]), seen);
      Pending(g, rest + Inputs(ins), seen) == v.order + Pending(g, rest + Inputs(ins[..|ins| - 1]), v.visited)
  {
    var last, init := ins[|ins| - 1], ins[..|ins| - 1];
    if last == null {
      assert Inputs(ins) == Inputs(init);
      assert Visit(g, 0, seen) == Walked(seen, []);
    } else {
      assert rest + Inputs(ins) == (rest + Inputs(init)) + [PostOrderNode(false, last)];
      PendingTop(g, rest + Inputs(init), PostOrderNode(false, last), seen);
    }
  }

  /** The nodes listed and what the stack stands for make up the recursive order. */
  ghost predicate OnCourse(g: Graph, visited: set<Id>, stack: seq<PostOrderNode>, nodes: seq<Node>) {
    Listing(nodes) + Pending(g, stack, visited) == WalkOrder(g)
  }

  lemma {:induction false} CourseStarts(g: Graph, end: Node)
    requires end.id == g.end
    ensures OnCourse(g, {}, [PostOrderNode(false, end)], [])
  {
    assert [] + [PostOrderNode(false, end)] == [PostOrderNode(false, end)];
    PendingTop(g, [], PostOrderNode(false, end), {});
  }

  lemma {:induction false} CourseSkips(g: Graph, visited: set<Id>, rest: seq<PostOrderNode>, n: PostOrderNode,
                                       nodes: seq<Node>)
    requires OnCourse(g, visited, rest + [n], nodes) && !n.childrenProcessed && n.node.id in visited
    ensures OnCourse(g, visited, rest, nodes)
  {
    PendingTop(g, rest, n, visited);
  }

  lemma {:induction false} CourseLists(g: Graph, visited: set<Id>, rest: seq<PostOrderNode>, n: PostOrderNode,
                                       nodes: seq<Node>)
    requires OnCourse(g, visited, rest + [n], nodes) && n.childrenProcessed
    ensures OnCourse(g, visited, rest, nodes + [n.node])
  {
    PendingTop(g, rest, n, visited);
    assert Listing(nodes + [n.node]) == Listing(nodes) + [n.node.id];
    assert Listing(nodes) + ([n.node.id] + Pending(g, rest, visited)) ==
      Listing(nodes) + [n.node.id] + Pending(g, rest, visited);
  }

  lemma {:induction false} CourseIs(g: Graph, visited: set<Id>, stack: seq<PostOrderNode>, nodes: seq<Node>)
    ensures OnCourse(g, visited, stack, nodes) <==> Listing(nodes) + Pending(g, stack, visited) == WalkOrder(g)
  {}

  lemma {:induction false} VisitIs(g: Graph, node: Node, visited: set<Id>)
    requires node.id !in visited && node.id in g.nodes && g.nodes[node.id] == View(node)
    ensures var w := VisitAll(g, IdsOf(node.ins), visited + {node.id});
      Visit(g, node.id, visited) == Walked(w.visited, w.order + [node.id])
  {
    hide VisitAll;
  }

  lemma {:induction false} CourseVisits(g: Graph, visited: set<Id>, rest: seq<PostOrderNode>, node: Node,
                                        nodes: seq<Node>)
    requires OnCourse(g, visited, rest + [PostOrderNode(false, node)], nodes) && node.id !in visited
    requires 0 !in g.nodes && node.id in g.nodes && g.nodes[node.id] == View(node)
    ensures OnCourse(g, visited + {node.id}, rest + [PostOrderNode(true, node)] + Inputs(node.ins), nodes)
  {
    hide *;
    var seen, marked := visited + {node.id}, rest + [PostOrderNode(true, node)];
    CourseIs(g, visited, rest + [PostOrderNode(false, node)], nodes);
    CourseIs(g, seen, marked + Inputs(node.ins), nodes);
    VisitIs(g, node, visited);
    PendingTop(g, rest, PostOrderNode(false, node), visited);
    PendingInputs(g, marked, node.ins, seen);
    var w := VisitAll(g, IdsOf(node.ins), seen);
    PendingTop(g, rest, PostOrderNode(true, node), w.visited);
    assert w.order + ([node.id] + Pending(g, rest, w.visited)) == w.order + [node.id] + Pending(g, rest, w.visited);
  }

  // ----- the walk -----

  /** The nodes END depends on, each once, in depth-first post-order. */
  method PostOrderWalk(end: Node, ghost all: set<Node>, ghost g: Graph) returns (nodes: seq<Node>, visited: set<Id>)
    requires end in all && end.id == g.end && Distinct(all) && InputsLive(all) && Shows(g, all)
    requires g.nodes.Keys == Ids(all)
    ensures NoDuplicates(nodes)
    ensures forall n :: n in nodes ==> n in all
    ensures forall n :: n in all ==> (n in nodes <==> n.id in visited)
    ensures visited <= Ids(all) && InputClosed(g, visited)
    ensures forall K :: InputClosed(g, K) ==> visited <= K
    ensures Listing(nodes) == WalkOrder(g)
  {
    hide WalkState, OnCourse, Shows, Distinct, InputsLive, InputClosed, Ids;
    nodes, visited := [], {};
    var stack := [PostOrderNode(false, end)];
    WalkStarts(end, all, g);
    CourseStarts(g, end);
    while |stack| > 0
      invariant WalkState(end, all, g, visited, stack, nodes) && OnCourse(g, visited, stack, nodes)
      decreases Ids(all) - visited, |stack|
    {
      var n := stack[|stack| - 1];
      var rest := stack[..|stack| - 1];
      assert stack == rest + [n];
      assert n in stack;
      if !n.childrenProcessed {
        if n.node.id in visited {
          SkipStep(end, all, g, visited, rest, n, nodes);
          CourseSkips(g, visited, rest, n, nodes);
          stack := rest;
        } else {
          var pushed := PushInputs(rest + [PostOrderNode(true, n.node)], n.node);
          InWalk(end, all, g, visited, rest, n, nodes);
          VisitStep(end, all, g, visited, rest, n.node, pushed, nodes);
          CourseVisits(g, visited, rest, n.node, nodes);
          Fewer(all, visited, n.node);
          visited := visited + {n.node.id};
          stack := pushed;
        }
      } else {
        FinishStep(end, all, g, visited, rest, n, nodes);
        CourseLists(g, visited, rest, n, nodes);
        nodes := nodes + [n.node];
        stack := rest;
      }
    }
    assert stack == [];
    Finished(end, all, g, visited, nodes);
    CourseEnds(g, visited, nodes);
  }

  lemma {:induction false} CourseEnds(g: Graph, visited: set<Id>, nodes: seq<Node>)
    requires OnCourse(g, visited, [], nodes)
    ensures Listing(nodes) == WalkOrder(g)
  {
    assert Listing(nodes) + [] == Listing(nodes);
  }

  lemma {:induction false} WalkStarts(end: Node, all: set<Node>, g: Graph)
    requires end in all && end.id == g.end
    ensures WalkState(end, all, g, {}, [PostOrderNode(false, end)], [])
  {}

  lemma {:induction false} InWalk(end: Node, all: set<Node>, g: Graph, visited: set<Id>, rest: seq<PostOrderNode>,
                                  n: PostOrderNode, nodes: seq<Node>)
    requires WalkState(end, all, g, visited, rest + [n], nodes) && Shows(g, all) && Distinct(all)
    requires g.nodes.Keys == Ids(all)
    ensures n.node in all && n.node.id in g.nodes && g.nodes[n.node.id] == View(n.node) && 0 !in g.nodes
  {
    assert n in rest + [n];
  }

  lemma {:induction false} Fewer(all: set<Node>, visited: set<Id>, node: Node)
    requires node in all && node.id !in visited
    ensures Ids(all) - (visited + {node.id}) < Ids(all) - visited
  {}

  lemma SkipStep(end: Node, all: set<Node>, g: Graph, visited: set<Id>, rest: seq<PostOrderNode>, n: PostOrderNode,
                 nodes: seq<Node>)
    requires WalkState(end, all, g, visited, rest + [n], nodes) && !n.childrenProcessed && n.node.id in visited
    ensures WalkState(end, all, g, visited, rest, nodes)
  {
    var stack := rest + [n];
    assert forall x :: x in rest ==> x in stack;
    assert forall x :: x in stack && x != n ==> x in rest;
    forall i, j | 0 <= i < j < |rest| && rest[i].childrenProcessed && rest[j].childrenProcessed
      ensures rest[i] != rest[j]
    {
      assert stack[i] != stack[j];
    }
  }

  lemma FinishStep(end: Node, all: set<Node>, g: Graph, visited: set<Id>, rest: seq<PostOrderNode>, n: PostOrderNode,
                   nodes: seq<Node>)
    requires WalkState(end, all, g, visited, rest + [n], nodes) && n.childrenProcessed
    ensures WalkState(end, all, g, visited, rest, nodes + [n.node])
  {
    var stack := rest + [n];
    assert n in stack;
    assert forall x :: x in rest ==> x in stack;
    assert forall x :: x in stack && x != n ==> x in rest;
    forall x | x in rest && x.childrenProcessed
      ensures x.node != n.node
    {
      var i :| 0 <= i < |rest| && rest[i] == x;
      assert stack[i] != stack[|rest|];
    }
    forall i, j | 0 <= i < j < |rest| && rest[i].childrenProcessed && rest[j].childrenProcessed
      ensures rest[i] != rest[j]
    {
      assert stack[i] != stack[j];
    }
  }

  lemma VisitStep(end: Node, all: set<Node>, g: Graph, visited: set<Id>, rest: seq<PostOrderNode>, node: Node,
                  pushed: seq<PostOrderNode>, nodes: seq<Node>)
    requires Distinct(all) && InputsLive(all) && Shows(g, all)
    requires WalkState(end, all, g, visited, rest + [PostOrderNode(false, node)], nodes)
    requires node.id !in visited && node in all
    requires rest + [PostOrderNode(true, node)] <= pushed
    requires forall i :: 0 <= i < |node.ins| && node.ins[i] != null ==> PostOrderNode(false, node.ins[i]) in pushed
    requires forall k :: |rest| < k < |pushed| ==> !pushed[k].childrenProcessed && pushed[k].node in node.ins
    ensures WalkState(end, all, g, visited + {node.id}, pushed, nodes)
  {
    var n := PostOrderNode(false, node);
    var stack := rest + [n];
    assert n in stack;
    assert forall x :: x in stack && x != n ==> x in rest;
    forall x | x in rest
      ensures x in pushed
    {
      var k :| 0 <= k < |rest| && rest[k] == x;
      assert pushed[k] == x;
    }
    assert pushed[|rest|] == PostOrderNode(true, node);
    VisitListed(all, visited, rest, node, pushed, nodes);
    VisitSeen(all, visited, rest, node, pushed);
    forall K | InputClosed(g, K)
      ensures visited + {node.id} <= K && StackWithin(pushed, K)
    {
      assert StackWithin(stack, K);
      forall x | x in pushed
        ensures x.node.id in K
      {
        var k :| 0 <= k < |pushed| && pushed[k] == x;
        if k < |rest| {
          assert x == rest[k] && x in stack;
        } else if k > |rest| {
          var i :| 0 <= i < |node.ins| && node.ins[i] == x.node;
          assert g.nodes[node.id] == View(node) && g.nodes[node.id].ins[i] == x.node.id;
        }
      }
    }
  }

  lemma VisitListed(all: set<Node>, visited: set<Id>, rest: seq<PostOrderNode>, node: Node,
                    pushed: seq<PostOrderNode>, nodes: seq<Node>)
    requires Distinct(all) && InputsLive(all) && Listed(all, visited, rest + [PostOrderNode(false, node)], nodes)
    requires node.id !in visited && node in all && rest + [PostOrderNode(true, node)] <= pushed
    requires forall k :: |rest| < k < |pushed| ==> !pushed[k].childrenProcessed && pushed[k].node in node.ins
    ensures Listed(all, visited + {node.id}, pushed, nodes)
  {
    var stack := rest + [PostOrderNode(false, node)];
    assert forall k :: 0 <= k < |rest| ==> pushed[k] == rest[k] == stack[k];
    assert pushed[|rest|] == PostOrderNode(true, node);
    forall x | x in pushed
      ensures x.node in all && (x.childrenProcessed ==> x.node.id in visited + {node.id} && x.node !in nodes)
    {
      var k :| 0 <= k < |pushed| && pushed[k] == x;
      if k < |rest| {
        assert x in stack;
      }
    }
    forall m | m in all && m.id in visited + {node.id}
      ensures m in nodes || PostOrderNode(true, m) in pushed
    {
      if m.id == node.id {
        assert SameId(m, node);
      } else if m !in nodes {
        var k :| 0 <= k < |stack| && stack[k] == PostOrderNode(true, m);
        assert pushed[k] == stack[k];
      }
    }
    forall i, j | 0 <= i < j < |pushed| && pushed[i].childrenProcessed && pushed[j].childrenProcessed
      ensures pushed[i] != pushed[j]
    {
      if j == |rest| {
        assert stack[i] in stack;
      } else {
        assert stack[i] != stack[j];
      }
    }
  }

  lemma VisitSeen(all: set<Node>, visited: set<Id>, rest: seq<PostOrderNode>, node: Node, pushed: seq<PostOrderNode>)
    requires Distinct(all) && InputsSeen(all, visited, rest + [PostOrderNode(false, node)]) && node in all
    requires rest <= pushed
    requires forall i :: 0 <= i < |node.ins| && node.ins[i] != null ==> PostOrderNode(false, node.ins[i]) in pushed
    ensures InputsSeen(all, visited + {node.id}, pushed)
  {
    var stack := rest + [PostOrderNode(false, node)];
    forall n, i | n in all && n.id in visited + {node.id} && 0 <= i < |n.ins| && n.ins[i] != null
      ensures n.ins[i].id in visited + {node.id} || PostOrderNode(false, n.ins[i]) in pushed
    {
      if n.id == node.id {
        assert SameId(n, node);
      } else if n.ins[i].id !in visited {
        var k :| 0 <= k < |stack| && stack[k] == PostOrderNode(false, n.ins[i]);
        assert k < |rest| ==> pushed[k] == stack[k];
      }
    }
  }

  lemma Finished(end: Node, all: set<Node>, g: Graph, visited: set<Id>, nodes: seq<Node>)
    requires end in all && end.id == g.end && Distinct(all) && InputsLive(all) && Shows(g, all)
    requires g.nodes.Keys == Ids(all)
    requires WalkState(end, all, g, visited, [], nodes)
    ensures visited <= Ids(all) && InputClosed(g, visited) && forall K :: InputClosed(g, K) ==> visited <= K
    ensures NoDuplicates(nodes)
    ensures forall n :: n in nodes ==> n in all
    ensures forall n :: n in all ==> (n in nodes <==> n.id in visited)
  {
    forall n, i | n in visited && n in g.nodes && 0 <= i < |g.nodes[n].ins| && g.nodes[n].ins[i] != 0
      ensures g.nodes[n].ins[i] in visited
    {
      var o :| o in all && o.id == n;
      assert g.nodes[n] == View(o);
      assert o.ins[i] != null;
    }
  }

  method PushInputs(stack: seq<PostOrderNode>, node: Node) returns (stack': seq<PostOrderNode>)
    ensures stack <= stack' && stack' == stack + Inputs(node.ins)
    ensures forall i :: 0 <= i < |node.ins| && node.ins[i] != null ==> PostOrderNode(false, node.ins[i]) in stack'
    ensures forall k :: |stack| <= k < |stack'| ==> !stack'[k].childrenProcessed && stack'[k].node in node.ins
  {
    stack' := stack;
    var i := 0;
    while i < |node.ins|
      invariant i <= |node.ins| && stack <= stack' && stack' == stack + Inputs(node.ins[..i])
      invariant forall k :: 0 <= k < i && node.ins[k] != null ==> PostOrderNode(false, node.ins[k]) in stack'
      invariant forall k :: |stack| <= k < |stack'| ==> !stack'[k].childrenProcessed && stack'[k].node in node.ins
    {
      assert node.ins[..i + 1][..i] == node.ins[..i];
      if node.ins[i] != null {
        stack' := stack' + [PostOrderNode(false, node.ins[i])];
      }
      i := i + 1;
    }
    assert node.ins[..i] == node.ins;
  }
}
