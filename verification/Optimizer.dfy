/** The optimizer: local rewrites to a fixpoint, alternating with dead-store elimination. */
module Optimizer {
  import opened Graphs
  import opened Rewrites
  import opened Peephole
  import opened Fixpoint
  import opened Nodes
  import opened Worklists
  import opened Funcs
  import opened Removal
  import opened DeadStores
  import opened Core
  import opened Walks
  import opened DeadStorePass

  // ----- finding a rewrite -----

  /** The slots of `ins` are nodes of a set whose ids tell nodes apart. */
  ghost predicate Among(ins: seq<Node?>, live: set<Node>) {
    Distinct(live) && forall i :: 0 <= i < |ins| && ins[i] != null ==> ins[i] in live
  }

  /** Looks for the one node that fills all non-null slots from `from` on. */
  method CommonInput(ins: seq<Node?>, from: nat, ghost live: set<Node>) returns (same: Node?)
    requires from <= |ins| && Among(ins, live)
    ensures same != null ==> same in ins && forall x :: OnlyInput(IdsOf(ins), from, x) <==> x == same.id
    ensures same == null ==> forall x :: !OnlyInput(IdsOf(ins), from, x)
  {
    same := null;
    ghost var first: nat := 0;
    var i := from;
    while i < |ins|
      invariant from <= i <= |ins| && (same != null ==> from <= first < i && ins[first] == same)
      invariant forall k :: from <= k < i ==> ins[k] == null || ins[k] == same
    {
      if ins[i] != null {
        if same == null {
          same, first := ins[i], i;
        }
        if same != ins[i] {
          assert !SameId(same, ins[i]);
          assert IdsOf(ins)[first] != IdsOf(ins)[i];
          return null;
        }
      }
      i := i + 1;
    }
    if same != null {
      assert IdsOf(ins)[first] == same.id != 0;
    }
  }

  /** The state the rewrites work on; `g` is the graph it stands for. */
  ghost predicate Ready(f: Func, wl: Worklist, g: Graph)
    reads f, f.live, wl
  {
    f.Valid() && wl.Valid() && wl.contents <= f.live && g == f.Graph() && Shape(g)
  }

  lemma ReadyNode(f: Func, wl: Worklist, g: Graph, node: Node)
    requires Ready(f, wl, g) && node in f.live
    ensures g.nodes[node.id] == View(node) && Among(node.ins, f.live)
  {}

  lemma PhiRule(g: Graph, n: Id)
    requires Is(g, n, Phi)
    ensures forall x :: Becomes(g, n, x) <==> x != n && OnlyInput(g.nodes[n].ins, 1, x)
  {}

  lemma PhiRegion(f: Func, wl: Worklist, g: Graph, node: Node)
    requires Ready(f, wl, g) && node in f.live && node.kind == Phi
    ensures |node.ins| > 1 && node.ins[0] != null && node.ins[0] in f.live && node.ins[0].kind == Region
    ensures node.ins[0].id == Arg(g, node.id, 0)
  {
    assert SlotOk(g, node.id, 0);
    assert Arity(Phi, |g.nodes[node.id].ins|);
    assert g.nodes[node.id] == View(node);
    var r := node.ins[0];
    assert r in f.live;
    assert g.nodes[r.id] == View(r);
  }

  lemma PhiAnswer(f: Func, wl: Worklist, g: Graph, node: Node, same: Node?)
    requires Ready(f, wl, g) && node in f.live && node.kind == Phi && |node.ins| > 1
    requires same != null ==> same in node.ins && forall x :: OnlyInput(IdsOf(node.ins), 1, x) <==> x == same.id
    requires same == null ==> forall x :: !OnlyInput(IdsOf(node.ins), 1, x)
    ensures same == null || same == node ==> Stable(g, node.id)
    ensures same != null ==> same in f.live && (same != node ==> Becomes(g, node.id, same.id))
    ensures same == null || same == node <==> Settled(g, node.id)
    ensures same != null ==> forall i :: 1 <= i < |node.ins| ==> node.ins[i] == same
  {
    PhiSettled(f, wl, g, node);
    hide Shape, Worklist.Valid, Settled, OnlyInput;
    ReadyNode(f, wl, g, node);
    PhiRule(g, node.id);
    if same != null {
      assert SameId(same, node) ==> same == node;
      assert OnlyInput(IdsOf(node.ins), 1, same.id);
      AllSame(f, wl, g, node, same);
    }
  }

  lemma PhiSettled(f: Func, wl: Worklist, g: Graph, node: Node)
    requires Ready(f, wl, g) && node in f.live && node.kind == Phi
    ensures Settled(g, node.id) <==> Stable(g, node.id)
  {
    KindIs(f, wl, g, node, Phi);
    PhiSettledIff(g, node.id);
  }

  lemma AllSame(f: Func, wl: Worklist, g: Graph, node: Node, same: Node)
    requires Ready(f, wl, g) && node in f.live && node.kind == Phi && same in node.ins
    requires OnlyInput(IdsOf(node.ins), 1, same.id)
    ensures forall i :: 1 <= i < |node.ins| ==> node.ins[i] == same
  {
    ReadyNode(f, wl, g, node);
    NoneNull(g, node.id);
    hide Shape, Worklist.Valid, Func.Valid;
    forall i | 1 <= i < |node.ins|
      ensures node.ins[i] == same
    {
      assert IdsOf(node.ins)[i] == IdOf(node.ins[i]) != 0;
      assert SameId(node.ins[i], same);
    }
  }

  lemma ReadyIs(f: Func, wl: Worklist, g: Graph, node: Node)
    requires Ready(f, wl, g) && node in f.live
    ensures wl.Valid() && wl.contents <= f.live
    ensures forall m {:trigger SameId(m, node)} :: m in wl.contents && SameId(m, node) ==> m == node
  {
    hide Shape, Worklist.Valid;
  }

  method IdealizePhi(wl: Worklist, node: Node, ghost f: Func, ghost g: Graph) returns (ideal: Node)
    requires Ready(f, wl, g) && node in f.live && node.kind == Phi
    modifies wl`packed, wl`sparse, wl`contents
    ensures wl.Valid() && wl.contents <= f.live && ideal in f.live
    ensures if ideal == node then Stable(g, node.id) else Becomes(g, node.id, ideal.id)
    ensures node.ins != [] && node.ins[0] != null && node.ins[0].kind == Region && node.ins[0].id == Arg(g, node.id, 0)
    ensures wl.contents == old(wl.contents) || wl.contents == old(wl.contents) + {node.ins[0]}
    ensures ideal != node ==> node.ins[0] in wl.contents
    ensures ideal == node <==> Settled(g, node.id)
    ensures ideal != node ==> forall i :: 1 <= i < |node.ins| ==> node.ins[i] == ideal
  {
    hide *;
    PhiRegion(f, wl, g, node);
    ReadyIs(f, wl, g, node.ins[0]);
    ReadyNode(f, wl, g, node);
    var same := CommonInput(node.ins, 1, f.live);
    PhiAnswer(f, wl, g, node, same);
    if same == null {
      return node;
    }
    wl.Add(node.ins[0]);
    ideal := same;
  }

  lemma RegionRule(f: Func, wl: Worklist, g: Graph, node: Node)
    requires Ready(f, wl, g) && node in f.live && node.kind == Region
    ensures forall x :: Becomes(g, node.id, x) <==>
      x != node.id && !HasPhi(g, node.id) && OnlyInput(g.nodes[node.id].ins, 0, x)
    ensures node.ins != [] && node.ins[0] != null
  {
    assert g.nodes[node.id] == View(node);
    assert Arity(Region, |g.nodes[node.id].ins|);
    assert SlotOk(g, node.id, 0);
  }

  /** A use by a phi shows in the graph as a phi among the users, and the other way around. */
  lemma PhiUse(f: Func, wl: Worklist, g: Graph, node: Node)
    requires Ready(f, wl, g) && node in f.live
    ensures HasPhi(g, node.id) <==> exists k :: 0 <= k < |node.uses| && node.uses[k].user.kind == Phi
  {
    if k :| 0 <= k < |node.uses| && node.uses[k].user.kind == Phi {
      PhiUseShows(f, wl, g, node, k);
    }
    if HasPhi(g, node.id) {
      var k := PhiShowsUse(f, wl, g, node);
    }
  }

  lemma PhiUseShows(f: Func, wl: Worklist, g: Graph, node: Node, k: nat)
    requires Ready(f, wl, g) && node in f.live && k < |node.uses| && node.uses[k].user.kind == Phi
    ensures HasPhi(g, node.id)
  {
    hide Shape, Worklist.Valid;
    var u := node.uses[k];
    assert u in node.uses && Linked(f.live, null, 0, u);
    assert g.nodes[u.user.id] == View(u.user) && g.nodes[u.user.id].ins[u.index] == node.id;
  }

  lemma PhiShowsUse(f: Func, wl: Worklist, g: Graph, node: Node) returns (k: nat)
    requires Ready(f, wl, g) && node in f.live && HasPhi(g, node.id)
    ensures k < |node.uses| && node.uses[k].user.kind == Phi
  {
    hide Shape, Worklist.Valid;
    var p, i: nat :| p in g.nodes && g.nodes[p].kind == Phi && i < |g.nodes[p].ins| && g.nodes[p].ins[i] == node.id;
    var user :| user in f.live && user.id == p;
    assert g.nodes[p] == View(user);
    assert SameId(user.ins[i], node);
    assert Linked(f.live, null, 0, Use(user, i));
    k :| k < |node.uses| && node.uses[k] == Use(user, i);
  }

  method UsedByPhi(node: Node) returns (b: bool)
    ensures b <==> exists k :: 0 <= k < |node.uses| && node.uses[k].user.kind == Phi
  {
    var k := 0;
    while k < |node.uses|
      invariant k <= |node.uses| && forall l :: 0 <= l < k ==> node.uses[l].user.kind != Phi
    {
      if node.uses[k].user.kind == Phi {
        return true;
      }
      k := k + 1;
    }
    return false;
  }

  method IdealizeRegion(node: Node, ghost f: Func, ghost wl: Worklist, ghost g: Graph) returns (ideal: Node)
    requires Ready(f, wl, g) && node in f.live && node.kind == Region
    ensures ideal in f.live && if ideal == node then Stable(g, node.id) else Becomes(g, node.id, ideal.id)
  {
    RegionRule(f, wl, g, node);
    PhiUse(f, wl, g, node);
    var usedByPhi := UsedByPhi(node);
    if usedByPhi {
      return node;
    }
    ReadyNode(f, wl, g, node);
    var same := CommonInput(node.ins, 0, f.live);
    if same == null {
      return node;
    }
    ideal := same;
    assert SameId(ideal, node) ==> ideal == node;
  }

  lemma LoadInputs(f: Func, wl: Worklist, g: Graph, node: Node)
    requires Ready(f, wl, g) && node in f.live && node.kind == Load
    ensures |node.ins| == 3 && node.ins[1] != null && node.ins[1] in f.live
    ensures node.ins[2] != null && node.ins[2] in f.live
    ensures forall x :: Becomes(g, node.id, x) <==>
      x != node.id && Is(g, node.ins[1].id, Store) && Arg(g, node.ins[1].id, 2) == node.ins[2].id &&
      x == Arg(g, node.ins[1].id, 3)
  {
    hide Worklist.Valid;
    assert g.nodes[node.id] == View(node) && Arity(Load, |g.nodes[node.id].ins|);
    assert SlotOk(g, node.id, 1) && SlotOk(g, node.id, 2);
    assert node.ins[1] in f.live && node.ins[2] in f.live;
  }

  lemma StoreInputs(f: Func, wl: Worklist, g: Graph, node: Node)
    requires Ready(f, wl, g) && node in f.live && node.kind == Store
    ensures |node.ins| == 4 && node.ins[2] != null && node.ins[3] != null
    ensures node.ins[2] in f.live && node.ins[3] in f.live
    ensures Arg(g, node.id, 2) == node.ins[2].id && Arg(g, node.id, 3) == node.ins[3].id
  {
    hide Worklist.Valid;
    assert g.nodes[node.id] == View(node) && Arity(Store, |g.nodes[node.id].ins|);
    assert SlotOk(g, node.id, 2) && SlotOk(g, node.id, 3);
  }

  lemma KindIs(f: Func, wl: Worklist, g: Graph, node: Node, kind: Kind)
    requires Ready(f, wl, g) && node in f.live
    ensures Is(g, node.id, kind) <==> node.kind == kind
  {
    hide Shape, Worklist.Valid;
    assert g.nodes[node.id] == View(node);
  }

  lemma SameNode(f: Func, wl: Worklist, g: Graph, m: Node, n: Node)
    requires Ready(f, wl, g) && m in f.live && n in f.live
    ensures m.id == n.id ==> m == n
  {
    hide Shape, Worklist.Valid;
    assert SameId(m, n) ==> m == n;
  }

  lemma LoadRule(f: Func, wl: Worklist, g: Graph, node: Node)
    requires Ready(f, wl, g) && node in f.live && node.kind == Load
    ensures |node.ins| == 3 && node.ins[1] != null && node.ins[1] in f.live && node.ins[2] != null
    ensures var mem := node.ins[1];
      mem.kind == Store ==>
        |mem.ins| == 4 && mem.ins[2] != null && mem.ins[3] != null && mem.ins[2] in f.live && mem.ins[3] in f.live
    ensures var mem := node.ins[1];
      forall x :: Becomes(g, node.id, x) <==>
        x != node.id && mem.kind == Store && mem.ins[2] == node.ins[2] && x == mem.ins[3].id
  {
    hide *;
    LoadInputs(f, wl, g, node);
    var mem := node.ins[1];
    KindIs(f, wl, g, mem, Store);
    if mem.kind == Store {
      StoreInputs(f, wl, g, mem);
      SameNode(f, wl, g, mem.ins[2], node.ins[2]);
    }
  }

  method IdealizeLoad(node: Node, ghost f: Func, ghost wl: Worklist, ghost g: Graph) returns (ideal: Node)
    requires Ready(f, wl, g) && node in f.live && node.kind == Load
    ensures ideal in f.live && if ideal == node then Stable(g, node.id) else Becomes(g, node.id, ideal.id)
  {
    LoadRule(f, wl, g, node);
    hide Ready, Becomes;
    var mem := node.ins[1];
    if mem.kind == Store && mem.ins[2] == node.ins[2] {
      ideal := mem.ins[3];
      SameNode(f, wl, g, ideal, node);
      return;
    }
    return node;
  }

  // ----- rewriting until nothing changes -----

  /** Looks for a rewrite of `node`; the phi rule also queues the phi's region. */
  lemma RegionOf(f: Func, wl: Worklist, g: Graph, node: Node)
    requires Ready(f, wl, g) && node in f.live && node.kind == Phi
    ensures |node.ins| > 1 && node.ins[0] != null
    ensures forall n :: n in f.live && n.id == Arg(g, node.id, 0) ==> n == node.ins[0]
  {
    hide Shape, Worklist.Valid, Arg;
    PhiRegion(f, wl, g, node);
    forall n | n in f.live && n.id == Arg(g, node.id, 0)
      ensures n == node.ins[0]
    {
      SameNode(f, wl, g, n, node.ins[0]);
    }
  }

  lemma OthersStable(f: Func, wl: Worklist, g: Graph, node: Node)
    requires Ready(f, wl, g) && node in f.live && node.kind !in {Phi, Region, Load}
    ensures Stable(g, node.id) && wl.Valid() && wl.contents <= f.live
  {
    hide Shape, Worklist.Valid;
    assert g.nodes[node.id] == View(node);
  }

  method Idealize(wl: Worklist, node: Node, ghost f: Func, ghost g: Graph) returns (ideal: Node)
    requires Ready(f, wl, g) && node in f.live
    modifies wl`packed, wl`sparse, wl`contents
    ensures wl.Valid() && wl.contents <= f.live && ideal in f.live
    ensures if ideal == node then Stable(g, node.id) else Becomes(g, node.id, ideal.id)
    ensures old(wl.contents) <= wl.contents
    ensures forall n :: n in wl.contents ==> n in old(wl.contents) || (node.kind == Phi && n.kind == Region)
    ensures ideal != node && node.kind == Phi ==>
      forall n :: n in f.live && n.id == Arg(g, node.id, 0) ==> n in wl.contents
  {
    hide *;
    ReadyIs(f, wl, g, node);
    match node.kind {
      case Phi =>
        RegionOf(f, wl, g, node);
        ideal := IdealizePhi(wl, node, f, g);
      case Region => ideal := IdealizeRegion(node, f, wl, g);
      case Load => ideal := IdealizeLoad(node, f, wl, g);
      case _ =>
        OthersStable(f, wl, g, node);
        ideal := node;
    }
  }

  ghost predicate StableOutside(g: Graph, todo: set<Id>) {
    forall n :: n in g.nodes && n !in todo ==> Stable(g, n)
  }

  /** One rewrite, seen from the value: what it keeps. */
  lemma RewriteStep(g: Graph, mem: set<Id>, t: Id, x: Id, K: set<Id>)
    requires WellFormed(g, mem) && Becomes(g, t, x) && InputClosed(Replace(g, t, x), K)
    ensures WellFormed(Keep(Replace(g, t, x), K), mem) && SameBehaviour(g, Keep(Replace(g, t, x), K))
    ensures Anchored(g, mem) ==> Anchored(Keep(Replace(g, t, x), K), mem)
  {
    PeepSound(g, mem, t, x);
    KeepSound(Replace(g, t, x), mem, K);
    if Anchored(g, mem) {
      AnchoredReplace(g, mem, t, x);
      AnchoredKeep(Replace(g, t, x), mem, K);
    }
  }

  /** After a rewrite, only its users and (for a phi) its region can have become rewritable. */
  lemma StableStays(g: Graph, mem: set<Id>, t: Id, x: Id, K: set<Id>, todo: set<Id>, todo': set<Id>, n: Id)
    requires WellFormed(g, mem) && Becomes(g, t, x) && InputClosed(Replace(g, t, x), K) && Anchored(g, mem)
    requires Shape(Replace(g, t, x)) && StableOutside(g, todo) && todo * K <= todo' + {t} && t !in K
    requires n in Keep(Replace(g, t, x), K).nodes && n !in todo'
    requires t !in g.nodes[n].ins && !(g.nodes[t].kind == Phi && n == Arg(g, t, 0))
    ensures Stable(Keep(Replace(g, t, x), K), n)
  {
    hide Shape, MemTyped, Acyclic, Strict, AllReached, AllLeave, Anchored, Stable, InputClosed, Becomes;
    assert n in K && n != t;
    assert n in todo ==> n in todo * K;
    StableStep(g, mem, t, x, K, n);
  }

  lemma StableAfter(g: Graph, mem: set<Id>, t: Id, x: Id, K: set<Id>, todo: set<Id>, todo': set<Id>)
    requires WellFormed(g, mem) && Becomes(g, t, x) && InputClosed(Replace(g, t, x), K) && Anchored(g, mem)
    requires StableOutside(g, todo) && todo * K <= todo' + {t} && t !in K
    requires forall n ::
      n in g.nodes && n in K && (t in g.nodes[n].ins || (g.nodes[t].kind == Phi && n == Arg(g, t, 0))) ==> n in todo'
    ensures StableOutside(Keep(Replace(g, t, x), K), todo')
  {
    PeepSound(g, mem, t, x);
    hide WellFormed, Anchored, Stable, InputClosed, Becomes, Arg;
    var h := Keep(Replace(g, t, x), K);
    forall n | n in h.nodes && n !in todo'
      ensures Stable(h, n)
    {
      ReplacedShape(g, mem, t, x);
      StableStays(g, mem, t, x, K, todo, todo', n);
    }
  }

  lemma ReplacedShape(g: Graph, mem: set<Id>, t: Id, x: Id)
    requires WellFormed(Replace(g, t, x), mem)
    ensures Shape(Replace(g, t, x))
  {}

  ghost function Phis(ns: set<Node>): set<Node> {
    set n | n in ns && n.kind == Phi
  }

  /** What every step of the optimizer keeps, with respect to the graph `g0` it started from:
      the behaviour; being a graph the front end could produce, with all nodes but those of `todo` stable;
      and a graph in which nothing can be rewritten. */
  ghost predicate Progress(g0: Graph, todo0: set<Id>, g: Graph, todo: set<Id>, mem: set<Id>) {
    WellFormed(g, mem) && SameBehaviour(g0, g) &&
    (Anchored(g0, mem) && StableOutside(g0, todo0) ==> Anchored(g, mem) && StableOutside(g, todo)) &&
    (Anchored(g0, mem) && StableOutside(g0, {}) ==> g == g0)
  }

  lemma ProgressStep(g0: Graph, todo0: set<Id>, g: Graph, todo: set<Id>, mem: set<Id>, t: Id, x: Id, K: set<Id>,
                     todo': set<Id>)
    requires Progress(g0, todo0, g, todo, mem) && Becomes(g, t, x) && InputClosed(Replace(g, t, x), K)
    requires todo * K <= todo' + {t} && t !in K
    requires forall n ::
      n in g.nodes && n in K && (t in g.nodes[n].ins || (g.nodes[t].kind == Phi && n == Arg(g, t, 0))) ==> n in todo'
    ensures Progress(g0, todo0, Keep(Replace(g, t, x), K), todo', mem)
  {
    RewriteStep(g, mem, t, x, K);
    if Anchored(g0, mem) && StableOutside(g0, todo0) {
      StableAfter(g, mem, t, x, K, todo, todo');
    }
    NotStable(g, t, x);
  }

  lemma NotStable(g: Graph, t: Id, x: Id)
    requires Becomes(g, t, x)
    ensures !Stable(g, t) && t in g.nodes
  {}

  lemma ProgressShape(g0: Graph, todo0: set<Id>, g: Graph, todo: set<Id>, mem: set<Id>)
    requires Progress(g0, todo0, g, todo, mem)
    ensures WellFormed(g, mem) && Shape(g)
  {}

  lemma NoIds()
    ensures Ids({}) == {}
  {}

  lemma ProgressStart(g: Graph, todo: set<Id>, mem: set<Id>)
    requires WellFormed(g, mem)
    ensures Progress(g, todo, g, todo, mem)
  {}

  /** Nothing left to look at may be rewritten: dropping a stable node from the list. */
  lemma ProgressDrop(g0: Graph, todo0: set<Id>, g: Graph, todo: set<Id>, mem: set<Id>, t: Id, todo': set<Id>)
    requires Progress(g0, todo0, g, todo, mem) && Stable(g, t) && todo <= todo' + {t}
    ensures Progress(g0, todo0, g, todo', mem)
  {
    if StableOutside(g, todo) {
      assert StableOutside(g, todo');
    }
  }

  /** The worklist has shrunk, where a phi weighs more than any number of other nodes. */
  ghost predicate Fewer(after: set<Node>, before: set<Node>) {
    Phis(after) < Phis(before) || (Phis(after) == Phis(before) && after < before)
  }

  lemma FewerDecreases(after: set<Node>, before: set<Node>)
    ensures Fewer(after, before) ==> Phis(after) < Phis(before) || (Phis(after) == Phis(before) && after < before)
  {}

  /** Takes a node off the worklist and looks for its rewrite. */
  method PopIdeal(wl: Worklist, ghost f: Func, ghost g: Graph) returns (node: Node, ideal: Node)
    requires Ready(f, wl, g) && wl.contents != {}
    modifies wl`packed, wl`sparse, wl`contents
    ensures wl.Valid() && wl.contents <= f.live && node in f.live && ideal in f.live
    ensures if ideal == node then Stable(g, node.id) else Becomes(g, node.id, ideal.id)
    ensures Ids(old(wl.contents)) <= Ids(wl.contents) + {node.id}
    ensures ideal != node && g.nodes[node.id].kind == Phi && Arg(g, node.id, 0) in g.nodes ==>
      Arg(g, node.id, 0) in Ids(wl.contents)
    ensures Fewer(wl.contents, old(wl.contents))
  {
    hide Shape, Func.Valid, Becomes, Stable, Distinct;
    node := wl.Pop();
    assert node.kind == Phi ==> node in Phis(old(wl.contents));
    ideal := Idealize(wl, node, f, g);
    IdsWithout(old(wl.contents), wl.contents, node);
    assert g.nodes.Keys == Ids(f.live);
  }

  lemma IdsWithout(before: set<Node>, after: set<Node>, node: Node)
    requires before <= after + {node}
    ensures Ids(before) <= Ids(after) + {node.id}
  {
    forall i | i in Ids(before)
      ensures i in Ids(after) + {node.id}
    {
      var n :| n in before && n.id == i;
    }
  }

  lemma EndIsFixed(f: Func, wl: Worklist, g: Graph, node: Node, ideal: Node)
    requires Ready(f, wl, g) && node in f.live && ideal in f.live && Becomes(g, node.id, ideal.id)
    ensures node != f.end && ideal != f.end && node != ideal
  {
    if g.nodes[node.id].kind == Load {
      var m := Arg(g, node.id, 1);
      assert Arity(Store, |g.nodes[m].ins|);
      assert SlotOk(g, m, 3);
    } else {
      var i: nat :| i < |g.nodes[node.id].ins| && g.nodes[node.id].ins[i] == ideal.id;
      assert SlotOk(g, node.id, i);
    }
  }

  lemma IdsAfter(g: Graph, all: set<Node>, before: set<Node>, users: set<Node>, live: set<Node>, node: Node)
    requires Distinct(all) && before <= all && live <= all && UsersMatch(g, all, users, node)
    ensures Ids(before) * Ids(live) <= Ids((before + users) * live)
    ensures forall n :: n in g.nodes && n in Ids(live) && node.id in g.nodes[n].ins ==>
      n in Ids((before + users) * live)
  {
    forall n | n in Ids(live) && (n in Ids(before) || (n in g.nodes && node.id in g.nodes[n].ins))
      ensures n in Ids((before + users) * live)
    {
      var m :| m in live && m.id == n;
      if n in Ids(before) {
        var b :| b in before && b.id == n;
        assert SameId(m, b);
      }
    }
  }

  /** Carries a rewrite out; what has to be looked at again is on the worklist. */
  method Apply(wl: Worklist, f: Func, node: Node, ideal: Node, ghost g: Graph)
    requires Ready(f, wl, g) && node in f.live && ideal in f.live && Becomes(g, node.id, ideal.id)
    requires StartPinned(Replace(g, node.id, ideal.id))
    modifies wl, f`live, f.live`ins, f.live`uses
    ensures f.Valid() && wl.Valid() && wl.contents <= f.live < old(f.live)
    ensures f.Graph() == Keep(Replace(g, node.id, ideal.id), Ids(f.live))
    ensures InputClosed(Replace(g, node.id, ideal.id), Ids(f.live)) && node.id !in Ids(f.live)
    ensures Ids(old(wl.contents)) * Ids(f.live) <= Ids(wl.contents)
    ensures forall n :: n in g.nodes && n in Ids(f.live) && node.id in g.nodes[n].ins ==> n in Ids(wl.contents)
  {
    ghost var all, before, users := f.live, wl.contents, UsersOf(node, f.live);
    EndIsFixed(f, wl, g, node, ideal);
    UsersById(f, g, node);
    ReplaceNode(wl, f, node, ideal);
    IdsShrink(all, f.live, node);
    IdsAfter(g, all, before, users, f.live, node);
  }

  /** Carries a rewrite out and records what it keeps. */
  method ApplyProgress(wl: Worklist, f: Func, node: Node, ideal: Node, ghost mem: set<Id>, ghost g0: Graph,
                       ghost todo0: set<Id>, ghost g: Graph, ghost todo: set<Id>) returns (ghost g': Graph)
    requires Ready(f, wl, g) && node in f.live && ideal in f.live && Becomes(g, node.id, ideal.id)
    requires Progress(g0, todo0, g, todo, mem) && todo <= Ids(wl.contents) + {node.id}
    requires g.nodes[node.id].kind == Phi && Arg(g, node.id, 0) in g.nodes ==> Arg(g, node.id, 0) in Ids(wl.contents)
    modifies wl, f`live, f.live`ins, f.live`uses
    ensures f.Valid() && wl.Valid() && wl.contents <= f.live < old(f.live) && g' == f.Graph()
    ensures Progress(g0, todo0, g', Ids(wl.contents), mem)
  {
    ghost var mid := Ids(wl.contents);
    PeepSound(g, mem, node.id, ideal.id);
    StartIsPinned(Replace(g, node.id, ideal.id), mem);
    hide Func.Valid, Worklist.Valid, WellFormed, Shape, Progress, Becomes, Replace;
    Apply(wl, f, node, ideal, g);
    g' := Keep(Replace(g, node.id, ideal.id), Ids(f.live));
    QueuedById(g, node.id, mid, Ids(f.live), Ids(wl.contents));
    ProgressStep(g0, todo0, g, todo, mem, node.id, ideal.id, Ids(f.live), Ids(wl.contents));
  }

  lemma QueuedById(g: Graph, t: Id, mid: set<Id>, K: set<Id>, todo': set<Id>)
    requires t in g.nodes && mid * K <= todo'
    requires g.nodes[t].kind == Phi && Arg(g, t, 0) in g.nodes ==> Arg(g, t, 0) in mid
    requires forall n :: n in g.nodes && n in K && t in g.nodes[n].ins ==> n in todo'
    ensures forall n ::
      n in g.nodes && n in K && (t in g.nodes[n].ins || (g.nodes[t].kind == Phi && n == Arg(g, t, 0))) ==> n in todo'
  {}

  /** One turn of the loop. */
  method PeepOnce(wl: Worklist, f: Func, ghost mem: set<Id>, ghost g0: Graph, ghost todo0: set<Id>, ghost g: Graph)
    returns (ghost g': Graph)
    requires f.Valid() && wl.Valid() && wl.contents <= f.live && wl.contents != {} && g == f.Graph()
    requires Progress(g0, todo0, g, Ids(wl.contents), mem)
    modifies wl, f`live, f.live`ins, f.live`uses
    ensures f.Valid() && wl.Valid() && wl.contents <= f.live && g' == f.Graph()
    ensures Progress(g0, todo0, g', Ids(wl.contents), mem)
    ensures f.live < old(f.live) || (f.live == old(f.live) && Fewer(wl.contents, old(wl.contents)))
  {
    hide Func.Valid, Worklist.Valid, WellFormed, Shape, Progress, Becomes, Stable, Fewer;
    ProgressShape(g0, todo0, g, Ids(wl.contents), mem);
    ghost var todo := Ids(wl.contents);
    var node, ideal := PopIdeal(wl, f, g);
    if ideal == node {
      g' := g;
      ProgressDrop(g0, todo0, g, todo, mem, node.id, Ids(wl.contents));
    } else {
      g' := ApplyProgress(wl, f, node, ideal, mem, g0, todo0, g, todo);
    }
  }

  /** Rewrites nodes until the worklist is empty. */
  method Peeps(wl: Worklist, f: Func, ghost mem: set<Id>)
    requires f.Valid() && wl.Valid() && wl.contents <= f.live && WellFormed(f.Graph(), mem)
    modifies wl, f`live, f.live`ins, f.live`uses
    ensures f.Valid() && wl.Valid() && wl.contents == {} && f.live <= old(f.live)
    ensures Progress(old(f.Graph()), old(Ids(wl.contents)), f.Graph(), {}, mem)
  {
    hide *;
    ghost var g0, todo0 := f.Graph(), Ids(wl.contents);
    ghost var g := g0;
    ProgressStart(g0, todo0, mem);
    var empty := wl.Empty();
    while !empty
      invariant f.Valid() && wl.Valid() && wl.contents <= f.live <= old(f.live) && (empty <==> wl.contents == {})
      invariant g == f.Graph() && Progress(g0, todo0, g, Ids(wl.contents), mem)
      decreases f.live, Phis(wl.contents), wl.contents
    {
      ghost var before := wl.contents;
      g := PeepOnce(wl, f, mem, g0, todo0, g);
      FewerDecreases(wl.contents, before);
      empty := wl.Empty();
    }
    NoIds();
  }

  // ----- the whole optimizer -----

  lemma ProgressChain(g0: Graph, todo0: set<Id>, g: Graph, todo: set<Id>, g': Graph, todo': set<Id>, mem: set<Id>)
    requires Progress(g0, todo0, g, todo, mem) && Progress(g, todo, g', todo', mem)
    ensures Progress(g0, todo0, g', todo', mem)
  {}

  lemma ProgressDse(g: Graph, todo: set<Id>, g': Graph, todo': set<Id>, mem: set<Id>)
    requires WellFormed(g', mem) && SameBehaviour(g, g') && (Anchored(g, mem) ==> g' == g && todo' == todo)
    ensures Progress(g, todo, g', todo', mem)
  {}

  /** What optimization promises: the same behaviour and, for graphs whose memory leads to END, a graph in which
      nothing is left to simplify; if nothing was from the start, the graph it was given. */
  ghost predicate Optimized(g0: Graph, g: Graph, mem: set<Id>) {
    WellFormed(g, mem) && SameBehaviour(g0, g) &&
    (Anchored(g0, mem) && AllUsed(g0) ==> Anchored(g, mem) && forall n :: n in g.nodes ==> Settled(g, n)) &&
    (Anchored(g0, mem) && (forall n :: n in g0.nodes ==> Settled(g0, n)) ==> g == g0)
  }

  lemma AllSettled(g: Graph, mem: set<Id>)
    requires WellFormed(g, mem)
    ensures StableOutside(g, {}) <==> forall n :: n in g.nodes ==> Settled(g, n)
  {
    hide Settled, Stable;
    forall n | n in g.nodes
      ensures Settled(g, n) <==> Stable(g, n)
    {
      SettledIff(g, n);
    }
  }

  lemma ProgressEnd(g0: Graph, todo0: set<Id>, g: Graph, mem: set<Id>)
    requires WellFormed(g0, mem) && Progress(g0, todo0, g, {}, mem) && InputClosed(g0, todo0)
    ensures Optimized(g0, g, mem)
  {
    hide Settled, Stable;
    AllSettled(g0, mem);
    AllSettled(g, mem);
    if AllUsed(g0) {
      assert StableOutside(g0, todo0);
    }
  }

  method QueueAll(wl: Worklist, nodes: seq<Node>, ghost live: set<Node>)
    requires wl.Valid() && wl.contents == {} && Distinct(live) && forall n :: n in nodes ==> n in live
    modifies wl`packed, wl`sparse, wl`contents
    ensures wl.Valid() && forall n :: n in wl.contents <==> n in nodes
  {
    var i := 0;
    while i < |nodes|
      invariant i <= |nodes| && wl.Valid() && forall n :: n in wl.contents <==> n in nodes[..i]
    {
      assert nodes[..i + 1] == nodes[..i] + [nodes[i]];
      wl.Add(nodes[i]);
      i := i + 1;
    }
    assert nodes[..i] == nodes;
  }

  lemma QueuedIds(live: set<Node>, nodes: seq<Node>, visited: set<Id>, queued: set<Node>)
    requires (forall n :: n in queued <==> n in nodes) && (forall n :: n in nodes ==> n in live)
    requires visited <= Ids(live) && forall n :: n in live ==> (n in nodes <==> n.id in visited)
    ensures Ids(queued) == visited && queued <= live
  {
    forall i | i in visited
      ensures i in Ids(queued)
    {
      var n :| n in live && n.id == i;
    }
  }

  /** A worklist that holds what END depends on. */
  method NewWorklist(f: Func, ghost g: Graph) returns (wl: Worklist, visited: set<Id>)
    requires f.Valid() && g == f.Graph()
    ensures fresh(wl) && wl.Valid() && wl.contents <= f.live && Ids(wl.contents) == visited && InputClosed(g, visited)
  {
    FuncFacts(f, g);
    hide Func.Valid, Worklist.Valid, Distinct;
    wl := new Worklist();
    var nodes;
    nodes, visited := PostOrderWalk(f.end, f.live, g);
    QueueAll(wl, nodes, f.live);
    QueuedIds(f.live, nodes, visited, wl.contents);
  }

  /** Optimizes a well-formed graph: what it shows along its runs stays the same, loops included, and no store is
      left that nothing reads. On a graph as the front end produces it, the result can nowhere be rewritten any
      more, and a graph that already was like that is left alone. */
  method Opt(f: Func, ghost mem: set<Id>)
    requires f.Valid() && WellFormed(f.Graph(), mem)
    modifies f`live, f.live`ins, f.live`uses
    ensures f.Valid() && f.live <= old(f.live) && Optimized(old(f.Graph()), f.Graph(), mem)
    ensures OnlyRead(f.Graph(), f.Graph())
  {
    hide OnlyRead, Func.Valid, Worklist.Valid, WellFormed, Progress, Optimized;
    ghost var g0 := f.Graph();
    var wl, visited := NewWorklist(f, g0);
    ProgressStart(g0, visited, mem);
    ghost var g := g0;
    var done := false;
    while !done
      invariant f.Valid() && wl.Valid() && wl.contents <= f.live <= old(f.live) && g == f.Graph()
      invariant Progress(g0, visited, g, Ids(wl.contents), mem) && (done ==> wl.contents == {} && OnlyRead(g, g))
      decreases f.live, wl.contents, !done
    {
      g, done := Round(wl, f, mem, g0, visited, g);
      NoIds();
    }
    NoIds();
    ProgressEnd(g0, visited, g, mem);
  }

  /** One dead-store pass, and a round of rewriting if there is anything to look at. */
  method Round(wl: Worklist, f: Func, ghost mem: set<Id>, ghost g0: Graph, ghost todo0: set<Id>, ghost g: Graph)
    returns (ghost g': Graph, done: bool)
    requires f.Valid() && wl.Valid() && wl.contents <= f.live && g == f.Graph()
    requires Progress(g0, todo0, g, Ids(wl.contents), mem)
    modifies wl, f`live, f.live`ins, f.live`uses
    ensures f.Valid() && wl.Valid() && wl.contents == {} && f.live <= old(f.live) && g' == f.Graph()
    ensures Progress(g0, todo0, g', {}, mem) && (done ==> OnlyRead(g', g'))
    ensures f.live < old(f.live) ||
      (f.live == old(f.live) && (wl.contents < old(wl.contents) || (wl.contents == old(wl.contents) && done)))
  {
    hide *;
    ghost var todo := Ids(wl.contents);
    ProgressShape(g0, todo0, g, todo, mem);
    var dropped := DeadStoreElim(wl, f, mem);
    ghost var mid := Ids(wl.contents);
    ProgressDse(g, todo, dropped, mid, mem);
    ProgressChain(g0, todo0, g, todo, dropped, mid, mem);
    done := wl.Empty();
    g' := dropped;
    NoIds();
    if !done {
      Peeps(wl, f, mem);
      g' := f.Graph();
      ProgressChain(g0, todo0, dropped, mid, g', {}, mem);
    }
  }
}
