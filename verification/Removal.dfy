/** Removing a node, and all that nothing uses any more; redirecting the users of a node. */
module Removal {
  import opened Graphs
  import opened Rewrites
  import opened Nodes
  import opened Worklists
  import opened Funcs

  method RemoveUse(node: Node, user: Node, index: nat)
    requires Use(user, index) in node.uses && NoDuplicates(node.uses)
    modifies node`uses
    ensures NoDuplicates(node.uses)
    ensures forall u :: u in node.uses <==> u in old(node.uses) && u != Use(user, index)
  {
    var i := 0;
    while i < |node.uses|
      invariant i <= |node.uses| && node.uses == old(node.uses)
      invariant Use(user, index) !in node.uses[..i]
    {
      if node.uses[i] == Use(user, index) {
        ghost var was := node.uses;
        node.uses := node.uses[..i] + node.uses[i + 1..];
        forall u
          ensures u in node.uses <==> u in was && u != Use(user, index)
        {
          if u in was && u != Use(user, index) {
            var k :| 0 <= k < |was| && was[k] == u;
            assert node.uses[if k < i then k else k - 1] == u;
          }
        }
        return;
      }
      i := i + 1;
    }
    assert false;
  }

  /** Every node of `K` other than END has a user in `K`. */
  ghost predicate Supported(g: Graph, K: set<Id>) {
    forall n {:trigger HasUser(g, K, n)} :: n in K && n != g.end ==> HasUser(g, K, n)
  }

  ghost predicate HasUser(g: Graph, K: set<Id>, n: Id) {
    exists u, i :: u in K && u in g.nodes && 0 <= i < |g.nodes[u].ins| && g.nodes[u].ins[i] == n
  }

  /** Shrinking from `from` to `to` has not removed a node of any supported set. */
  ghost predicate Keeps(g: Graph, from: set<Id>, to: set<Id>) {
    forall K :: K <= from && Supported(g, K) ==> K <= to
  }

  lemma KeepsTransitive(g: Graph, a: set<Id>, b: set<Id>, c: set<Id>)
    requires Keeps(g, a, b) && Keeps(g, b, c)
    ensures Keeps(g, a, c)
  {}

  /** The nodes without uses are END, the one being unlinked, and those on the stack. */
  ghost predicate Pending(live: set<Node>, end: Node?, dying: Node?, stack: seq<Node>)
    reads live
  {
    NoDuplicates(stack) && (forall n :: n in stack ==> n in live && n != end && n != dying) &&
    forall n :: n in live ==> (n.uses == [] <==> n == end || n == dying || n in stack)
  }

  /** Takes `node` off the users of its input `i`. */
  method UnlinkSlot(node: Node, i: nat, input: Node, ghost live: set<Node>)
    requires node in live && i < |node.ins| && node.ins[i] == input && Mirror(live, node, i)
    modifies input`uses
    ensures Mirror(live, node, i + 1)
    ensures forall u :: u in input.uses ==> u in old(input.uses)
    ensures old(input.uses) != []
  {
    assert Linked(live, node, i, Use(node, i));
    RemoveUse(input, node, i);
    forall n, u | n in live && u in n.uses
      ensures Linked(live, node, i + 1, u) && u.user.ins[u.index] == n
    {
      assert u in old(n.uses);
      assert old(Linked(live, node, i, u));
    }
  }

  /** Unlinks one input, and schedules it for removal if that was its last use. */
  method UnlinkInput(wl: Worklist, node: Node, i: nat, input: Node, ghost live: set<Node>, ghost end: Node?)
    requires node in live && i < |node.ins| && node.ins[i] == input
    requires Mirror(live, node, i) && Pending(live, end, node, wl.stack)
    modifies wl`stack, input`uses
    ensures Mirror(live, node, i + 1) && Pending(live, end, node, wl.stack)
  {
    UnlinkSlot(node, i, input, live);
    if input.uses == [] {
      wl.stack := wl.stack + [input];
    }
  }

  lemma DropDead(live: set<Node>, end: Node?, node: Node, stack: seq<Node>)
    requires node in live && Mirror(live, node, |node.ins|) && Pending(live, end, node, stack) && node != end
    ensures Mirror(live - {node}, null, 0) && Pending(live - {node}, end, null, stack)
  {
    var rest := live - {node};
    assert node.uses == [];
    forall n, i: nat | n in rest && i < |n.ins| && n.ins[i] != null
      ensures n.ins[i] in rest && Use(n, i) in n.ins[i].uses
    {
      assert Linked(live, node, |node.ins|, Use(n, i));
    }
  }

  lemma UserIsListed(g: Graph, live: set<Node>, node: Node, K: set<Id>)
    requires Distinct(live) && Mirror(live, null, 0) && Shows(g, live) && node in live && K <= Ids(live)
    requires HasUser(g, K, node.id)
    ensures node.uses != []
  {
    var u, i :| u in K && u in g.nodes && 0 <= i < |g.nodes[u].ins| && g.nodes[u].ins[i] == node.id;
    var user :| user in live && user.id == u;
    assert SameId(user.ins[i], node);
    assert Linked(live, null, 0, Use(user, i));
  }

  lemma DeadUnsupported(g: Graph, live: set<Node>, node: Node, K: set<Id>)
    requires Distinct(live) && Mirror(live, null, 0) && Shows(g, live)
    requires node in live && node.uses == [] && node.id != g.end && K <= Ids(live) && Supported(g, K)
    ensures node.id !in K
  {
    if HasUser(g, K, node.id) {
      UserIsListed(g, live, node, K);
    }
  }

  /** Removes `first`, which nothing uses, and every node left without users by that, over and over.
      What stays is the largest set of nodes in which every node but END has a user. */
  method RemoveNode(wl: Worklist, f: Func, first: Node, ghost g: Graph)
    requires f.end != null && f.end in f.live && Distinct(f.live) && Mirror(f.live, null, 0)
    requires f.end.id == g.end && Shows(g, f.live)
    requires first in f.live && Pending(f.live, f.end, null, [first])
    requires wl.Valid() && wl.contents <= f.live
    modifies wl, f`live, f.live`uses
    ensures f.live <= old(f.live) - {first} && f.end in f.live
    ensures Distinct(f.live) && Mirror(f.live, null, 0) && forall n :: n in f.live ==> (n.uses == [] <==> n == f.end)
    ensures wl.Valid() && wl.contents == old(wl.contents) * f.live
    ensures Keeps(g, Ids(old(f.live)), Ids(f.live))
  {
    wl.stack := [first];
    while |wl.stack| > 0
      invariant f.live <= old(f.live) && f.end in f.live && (first in f.live ==> wl.stack == [first])
      invariant Distinct(f.live) && Mirror(f.live, null, 0) && Pending(f.live, f.end, null, wl.stack)
      invariant wl.Valid() && wl.contents == old(wl.contents) * f.live
      invariant Keeps(g, Ids(old(f.live)), Ids(f.live))
      decreases f.live
    {
      var node := wl.stack[|wl.stack| - 1];
      assert node in wl.stack;
      assert !SameId(node, f.end);
      NoneUnsupported(g, f.live, node);
      KeepsTransitive(g, Ids(old(f.live)), Ids(f.live), Ids(f.live - {node}));
      RemoveOne(wl, f, node);
    }
  }

  lemma NoneUnsupported(g: Graph, live: set<Node>, node: Node)
    requires Distinct(live) && Mirror(live, null, 0) && Shows(g, live)
    requires node in live && node.uses == [] && node.id != g.end
    ensures Keeps(g, Ids(live), Ids(live - {node}))
  {
    forall K | K <= Ids(live) && Supported(g, K)
      ensures K <= Ids(live - {node})
    {
      DeadUnsupported(g, live, node, K);
    }
  }

  lemma PendingPop(live: set<Node>, end: Node?, stack: seq<Node>)
    requires stack != [] && Pending(live, end, null, stack)
    ensures stack[|stack| - 1] in live && stack[|stack| - 1] != end
    ensures Pending(live, end, stack[|stack| - 1], stack[..|stack| - 1])
  {
    var rest := stack[..|stack| - 1];
    assert stack == rest + [stack[|stack| - 1]];
    forall n | n in rest
      ensures n in stack && n != stack[|stack| - 1]
    {
      var i :| 0 <= i < |rest| && rest[i] == n;
      assert stack[i] == n;
    }
  }

  /** Takes the top of the stack out of the graph. */
  method RemoveOne(wl: Worklist, f: Func, node: Node)
    requires f.end != null && f.end in f.live && Distinct(f.live) && Mirror(f.live, null, 0)
    requires Pending(f.live, f.end, null, wl.stack)
    requires wl.Valid() && wl.contents <= f.live
    requires wl.stack != [] && node == wl.stack[|wl.stack| - 1]
    modifies wl, f`live, f.live`uses
    ensures f.live == old(f.live) - {node} && f.end in f.live
    ensures Mirror(f.live, null, 0)
    ensures Pending(f.live, f.end, null, wl.stack)
    ensures wl.Valid() && wl.contents == old(wl.contents) - {node}
  {
    PendingPop(f.live, f.end, wl.stack);
    wl.stack := wl.stack[..|wl.stack| - 1];
    wl.Remove(node);
    UnlinkDead(wl, f, node);
  }

  method UnlinkDead(wl: Worklist, f: Func, node: Node)
    requires f.end != null && f.end in f.live && Mirror(f.live, null, 0) && Pending(f.live, f.end, node, wl.stack)
    requires node in f.live && node != f.end
    modifies wl`stack, f`live, f.live`uses
    ensures f.live == old(f.live) - {node} && Mirror(f.live, null, 0) && Pending(f.live, f.end, null, wl.stack)
  {
    UnlinkAll(wl, node, f.live, f.end);
    DropDead(f.live, f.end, node, wl.stack);
    f.live := f.live - {node};
  }

  method UnlinkAll(wl: Worklist, node: Node, ghost live: set<Node>, ghost end: Node?)
    requires node in live && Mirror(live, null, 0) && Pending(live, end, node, wl.stack)
    modifies wl`stack, live`uses
    ensures Mirror(live, node, |node.ins|) && Pending(live, end, node, wl.stack)
  {
    var i := 0;
    while i < |node.ins|
      invariant i <= |node.ins|
      invariant Mirror(live, node, i) && Pending(live, end, node, wl.stack)
    {
      var input := node.ins[i];
      if input != null {
        UnlinkInput(wl, node, i, input, live, end);
      } else {
        SkipNull(live, node, i);
      }
      i := i + 1;
    }
  }

  lemma SkipNull(live: set<Node>, node: Node, i: nat)
    requires node in live && Mirror(live, node, i) && i < |node.ins| && node.ins[i] == null
    ensures Mirror(live, node, i + 1)
  {
    forall u: Use
      ensures Linked(live, node, i, u) <==> Linked(live, node, i + 1, u)
    {}
  }

  ghost function UsersOf(node: Node, live: set<Node>): set<Node>
    reads live`ins
  {
    set n | n in live && node in n.ins
  }

  /** Queues every user of `node`. */
  method PushUses(wl: Worklist, node: Node, ghost live: set<Node>)
    requires wl.Valid() && wl.contents <= live && Distinct(live) && node in live && Mirror(live, null, 0)
    modifies wl`packed, wl`sparse, wl`contents
    ensures wl.Valid() && wl.contents == old(wl.contents) + UsersOf(node, live)
  {
    var i := 0;
    while i < |node.uses|
      invariant i <= |node.uses| && wl.Valid() && wl.contents <= live && old(wl.contents) <= wl.contents
      invariant forall k :: 0 <= k < i ==> node.uses[k].user in wl.contents
      invariant forall n :: n in wl.contents ==> n in old(wl.contents) || (n in live && node in n.ins)
    {
      assert node.uses[i] in node.uses && Linked(live, null, 0, node.uses[i]);
      wl.Add(node.uses[i].user);
      i := i + 1;
    }
    forall n | n in live && node in n.ins
      ensures n in wl.contents
    {
      var k: nat :| k < |n.ins| && n.ins[k] == node;
      assert Linked(live, null, 0, Use(n, k));
    }
  }

  /** `now` is `was` with `target` replaced by `source`. */
  ghost predicate Redirected(was: seq<Node?>, now: seq<Node?>, target: Node, source: Node) {
    |now| == |was| && forall i :: 0 <= i < |was| ==> now[i] == if was[i] == target then source else was[i]
  }

  /** Points the slots that hold `target` at `source`. */
  method RedirectSlots(target: Node, source: Node, ghost live: set<Node>)
    requires target in live && source in live && target != source && Mirror(live, null, 0)
    modifies live`ins
    ensures forall n :: n in live ==> Redirected(old(n.ins), n.ins, target, source)
  {
    var i := 0;
    while i < |target.uses|
      invariant i <= |target.uses|
      invariant forall n :: n in live ==> |n.ins| == |old(n.ins)|
      invariant forall n, k :: n in live && 0 <= k < |n.ins| ==>
        n.ins[k] == if Use(n, k) in target.uses[..i] then source else old(n.ins[k])
    {
      var u := target.uses[i];
      assert u in target.uses && old(Linked(live, null, 0, u));
      assert target.uses[..i + 1] == target.uses[..i] + [u];
      u.user.ins := u.user.ins[u.index := source];
      i := i + 1;
    }
    assert target.uses[..i] == target.uses;
    forall n, k | n in live && 0 <= k < |n.ins|
      ensures n.ins[k] == if old(n.ins[k]) == target then source else old(n.ins[k])
    {
      if old(n.ins[k]) == target {
        assert old(Linked(live, null, 0, Use(n, k)));
      }
      assert Use(n, k) in old(target.uses) ==> old(n.ins[k]) == target;
    }
  }

  lemma JoinUses(target: Node, source: Node, live: set<Node>)
    requires target in live && source in live && target != source && Mirror(live, null, 0)
    ensures NoDuplicates(source.uses + target.uses)
  {
    var both := source.uses + target.uses;
    forall i, j | 0 <= i < j < |both|
      ensures both[i] != both[j]
    {
      if i < |source.uses| <= j {
        assert both[i] in source.uses && both[j] in target.uses;
      }
    }
  }

  /** Redirects the users of `target` to `source`, slots and use lists both. */
  method MoveUses(target: Node, source: Node, ghost live: set<Node>)
    requires target in live && source in live && target != source && Mirror(live, null, 0)
    modifies live`ins, target`uses, source`uses
    ensures forall n :: n in live ==> Redirected(old(n.ins), n.ins, target, source)
    ensures target.uses == [] && source.uses == old(source.uses) + old(target.uses)
    ensures Mirror(live, null, 0)
  {
    JoinUses(target, source, live);
    RedirectSlots(target, source, live);
    source.uses := source.uses + target.uses;
    target.uses := [];
    forall n, u | n in live && u in n.uses
      ensures Linked(live, null, 0, u) && u.user.ins[u.index] == n
    {
      if n == source && u in old(target.uses) {
        assert old(Linked(live, null, 0, u));
      } else {
        assert u in old(n.uses) && old(Linked(live, null, 0, u));
      }
    }
    forall n, k: nat | n in live && k < |n.ins| && n.ins[k] != null
      ensures n.ins[k] in live && Use(n, k) in n.ins[k].uses
    {
      assert old(Linked(live, null, 0, Use(n, k)));
    }
    assert UsesUnique(live);
  }

  /** After redirection, the nodes other than `target` show the replaced graph. */
  lemma RedirectedGraph(g: Graph, mid: Graph, target: Id, source: Id, K: set<Id>)
    requires target in g.nodes && source in g.nodes && target != 0 && IsRedirected(g, mid, target, source)
    requires K <= g.nodes.Keys - {target}
    ensures Keep(mid, K) == Keep(Replace(g, target, source), K)
    ensures Keeps(mid, mid.nodes.Keys, K) ==>
      Keeps(Replace(g, target, source), Replace(g, target, source).nodes.Keys, K)
    ensures InputClosed(mid, K) ==> InputClosed(Replace(g, target, source), K)
  {
    var h := Replace(g, target, source);
    forall L | L <= h.nodes.Keys && Supported(h, L)
      ensures Supported(mid, L)
    {
      forall n | n in L && n != mid.end
        ensures HasUser(mid, L, n)
      {
        assert HasUser(h, L, n);
      }
    }
  }

  /** The nodes of `live`, closed under inputs, as the part of a larger graph. */
  lemma LiveGraph(mid: Graph, live: set<Node>, end: Node)
    requires Distinct(live) && Mirror(live, null, 0) && Shows(mid, live) && end in live && end.id == mid.end
    ensures GraphOf(live, mid.start, mid.end) == Keep(mid, Ids(live)) && InputClosed(mid, Ids(live))
  {
    var g := GraphOf(live, mid.start, mid.end);
    assert g.nodes.Keys == Keep(mid, Ids(live)).nodes.Keys;
    forall n, i | n in Ids(live) && n in mid.nodes && 0 <= i < |mid.nodes[n].ins| && mid.nodes[n].ins[i] != 0
      ensures mid.nodes[n].ins[i] in Ids(live)
    {
      var o :| o in live && o.id == n;
      assert mid.nodes[n] == View(o);
      assert o.ins[i] in live;
    }
  }

  /** Redirects the users of `target`; `mid` is the graph that results, `target` still included. */
  method Redirect(f: Func, target: Node, source: Node) returns (ghost mid: Graph)
    requires f.Valid()
    requires target in f.live && source in f.live && target != source && target != f.end && source != f.end
    modifies f.live`ins, target`uses, source`uses
    ensures Mirror(f.live, null, 0) && Pending(f.live, f.end, null, [target])
    ensures Shows(mid, f.live) && mid.start == f.start.id && mid.end == f.end.id
    ensures IsRedirected(old(f.Graph()), mid, target.id, source.id)
  {
    ghost var g := f.Graph();
    MoveUses(target, source, f.live);
    mid := GraphOf(f.live, g.start, g.end);
    forall n | n in f.live
      ensures View(n) == Vertex(n.kind, Subst(g.nodes[n.id].ins, target.id, source.id), n.value)
    {
      ViewRedirected(old(n.ins), n.ins, target, source, f.live);
    }
  }

  predicate IsRedirected(g: Graph, mid: Graph, target: Id, source: Id) {
    mid.nodes.Keys == g.nodes.Keys && mid.start == g.start && mid.end == g.end && forall n :: n in g.nodes ==>
      mid.nodes[n] == Vertex(g.nodes[n].kind, Subst(g.nodes[n].ins, target, source), g.nodes[n].value)
  }

  lemma ViewRedirected(was: seq<Node?>, now: seq<Node?>, target: Node, source: Node, live: set<Node>)
    requires Redirected(was, now, target, source) && Distinct(live) && target in live
    requires forall i :: 0 <= i < |was| && was[i] != null ==> was[i] in live
    ensures IdsOf(now) == Subst(IdsOf(was), target.id, source.id)
  {
    forall i | 0 <= i < |was|
      ensures IdOf(now[i]) == Subst(IdsOf(was), target.id, source.id)[i]
    {
      if was[i] != null && was[i].id == target.id {
        assert SameId(was[i], target);
      }
    }
  }

  lemma IdsShrink(all: set<Node>, live: set<Node>, target: Node)
    requires Distinct(all) && target in all && live <= all - {target}
    ensures Ids(live) <= Ids(all) - {target.id}
  {
    forall n | n in live
      ensures n.id != target.id
    {
      assert !SameId(n, target);
    }
  }

  /** What is left after redirection and removal, as a value. */
  lemma Finish(g: Graph, mid: Graph, all: set<Node>, live: set<Node>, start: Node, end: Node, target: Node, source: Id)
    requires Distinct(all) && Distinct(live) && live <= all - {target} && target in all && start in all && end in live
    requires Mirror(live, null, 0) && Shows(mid, live) && start.id == mid.start && end.id == mid.end
    requires g.nodes.Keys == Ids(all) && source in g.nodes && IsRedirected(g, mid, target.id, source)
    requires Keeps(mid, Ids(all), Ids(live)) && StartPinned(Replace(g, target.id, source))
    ensures start in live
    ensures var h := Replace(g, target.id, source);
      GraphOf(live, g.start, g.end) == Keep(h, Ids(live)) && InputClosed(h, Ids(live)) &&
      Keeps(h, h.nodes.Keys, Ids(live))
  {
    IdsShrink(all, live, target);
    LiveGraph(mid, live, end);
    RedirectedGraph(g, mid, target.id, source, Ids(live));
    var n :| n in live && n.id == start.id;
    assert SameId(n, start);
  }

  /** The second half of a replacement: `target` has lost its uses and goes. */
  method RemoveReplaced(wl: Worklist, f: Func, target: Node, ghost source: Id, ghost g: Graph, ghost mid: Graph)
    requires f.start != null && f.end != null && f.start in f.live && f.end in f.live && target in f.live
    requires Distinct(f.live)
    requires forall n :: n in f.live ==> n.id < f.nextId
    requires Mirror(f.live, null, 0) && Pending(f.live, f.end, null, [target]) && wl.Valid() && wl.contents <= f.live
    requires Shows(mid, f.live) && mid.start == f.start.id && mid.end == f.end.id
    requires g.nodes.Keys == Ids(f.live) && source in g.nodes && IsRedirected(g, mid, target.id, source)
    requires StartPinned(Replace(g, target.id, source))
    modifies wl, f`live, f.live`uses
    ensures f.live <= old(f.live) - {target} && f.Valid()
    ensures var h := Replace(g, target.id, source);
      f.Graph() == Keep(h, Ids(f.live)) && InputClosed(h, Ids(f.live)) && Keeps(h, h.nodes.Keys, Ids(f.live))
    ensures wl.Valid() && wl.contents == old(wl.contents) * f.live
  {
    ghost var all := f.live;
    RemoveNode(wl, f, target, mid);
    Finish(g, mid, all, f.live, f.start, f.end, target, source);
  }

  lemma ValidFacts(f: Func)
    requires f.Valid()
    ensures f.start != null && f.end != null && f.start in f.live && f.end in f.live
    ensures Distinct(f.live) && Mirror(f.live, null, 0) && forall n :: n in f.live ==> n.id < f.nextId
    ensures f.Graph().nodes.Keys == Ids(f.live)
  {}

  lemma InGraph(live: set<Node>, n: Node)
    requires n in live
    ensures n.id in Ids(live)
  {}

  lemma UsersLive(n: Node, live: set<Node>)
    ensures UsersOf(n, live) <= live
  {}

  /** `users` are the nodes of `all` that `g` shows as users of `node`. */
  ghost predicate UsersMatch(g: Graph, all: set<Node>, users: set<Node>, node: Node) {
    forall m :: m in all ==> m.id in g.nodes && (m in users <==> node.id in g.nodes[m.id].ins)
  }

  lemma UsersById(f: Func, g: Graph, node: Node)
    requires f.Valid() && g == f.Graph() && node in f.live
    ensures UsersMatch(g, f.live, UsersOf(node, f.live), node)
  {
    forall m | m in f.live
      ensures node in m.ins <==> node.id in g.nodes[m.id].ins
    {
      assert g.nodes[m.id] == View(m);
      if k: nat :| k < |m.ins| && m.ins[k] == node {
        assert IdsOf(m.ins)[k] == node.id;
      }
      if k: nat :| k < |m.ins| && IdsOf(m.ins)[k] == node.id {
        assert SameId(m.ins[k], node);
      }
    }
  }

  /** Redirects every use of `target` to `source` and removes `target` and what only it kept alive. */
  method ReplaceNode(wl: Worklist, f: Func, target: Node, source: Node)
    requires f.Valid() && wl.Valid() && wl.contents <= f.live
    requires target in f.live && source in f.live && target != source && target != f.end && source != f.end
    requires StartPinned(Replace(f.Graph(), target.id, source.id))
    modifies wl, f`live, f.live`ins, f.live`uses
    ensures f.live <= old(f.live) - {target} && f.Valid()
    ensures var h := Replace(old(f.Graph()), target.id, source.id);
      f.Graph() == Keep(h, Ids(f.live)) && InputClosed(h, Ids(f.live)) && Keeps(h, h.nodes.Keys, Ids(f.live))
    ensures wl.Valid() && wl.contents == (old(wl.contents) + old(UsersOf(target, f.live))) * f.live
  {
    hide *;
    ghost var g := f.Graph();
    ghost var queued := wl.contents + UsersOf(target, f.live);
    ValidFacts(f);
    UsersLive(target, f.live);
    PushUses(wl, target, f.live);
    ghost var mid := Redirect(f, target, source);
    InGraph(f.live, source);
    RemoveReplaced(wl, f, target, source.id, g, mid);
  }
}
