/** Depth-first post-order along inputs, by recursion: the order the walk with a stack is measured against. */
module PostOrder {
  import opened Graphs
  import opened Rewrites

  /** What has been visited, and what has been listed since the start. */
  datatype Walked = Walked(visited: set<Id>, order: seq<Id>)

  /** Visits node `n`: its inputs first, the last slot first, then `n` itself. */
  function Visit(g: Graph, n: Id, seen: set<Id>): (w: Walked)
    ensures seen <= w.visited
    decreases g.nodes.Keys - seen, 0
  {
    if n in seen || n !in g.nodes then Walked(seen, [])
    else
      assert n in g.nodes.Keys - seen && n !in g.nodes.Keys - (seen + {n});
      var w := VisitAll(g, g.nodes[n].ins, seen + {n});
      Walked(w.visited, w.order + [n])
  }

  function VisitAll(g: Graph, ns: seq<Id>, seen: set<Id>): (w: Walked)
    ensures seen <= w.visited
    decreases g.nodes.Keys - seen, 1, |ns|
  {
    if |ns| == 0 then Walked(seen, [])
    else
      var v := Visit(g, ns[|ns| - 1], seen);
      assert g.nodes.Keys - v.visited <= g.nodes.Keys - seen;
      var w := VisitAll(g, ns[..|ns| - 1], v.visited);
      Walked(w.visited, v.order + w.order)
  }

  /** The nodes END depends on, in depth-first post-order. */
  function WalkOrder(g: Graph): seq<Id> {
    Visit(g, g.end, {}).order
  }

  // ----- on acyclic graphs, inputs come first -----

  /** Inputs of the nodes of `R` have a smaller rank than the nodes they go into. */
  predicate RanksInputs(g: Graph, R: set<Id>, rank: map<Id, nat>) {
    R <= rank.Keys && R <= g.nodes.Keys &&
    forall n, i :: n in R && 0 <= i < |g.nodes[n].ins| && g.nodes[n].ins[i] in R ==> rank[g.nodes[n].ins[i]] < rank[n]
  }

  /** Each input of a listed node is in `done`, or listed before it. */
  predicate InputsFirst(g: Graph, done: set<Id>, order: seq<Id>) {
    forall k, i ::
      0 <= k < |order| && order[k] in g.nodes && 0 <= i < |g.nodes[order[k]].ins| && g.nodes[order[k]].ins[i] != 0 ==>
      g.nodes[order[k]].ins[i] in done || g.nodes[order[k]].ins[i] in order[..k]
  }

  function Members(order: seq<Id>): set<Id> {
    set n | n in order
  }

  lemma {:induction false} FirstThen(g: Graph, done: set<Id>, a: seq<Id>, b: seq<Id>)
    requires InputsFirst(g, done, a) && InputsFirst(g, done + Members(a), b)
    ensures InputsFirst(g, done, a + b) && Members(a + b) == Members(a) + Members(b)
  {
    var c := a + b;
    forall k, i | 0 <= k < |c| && c[k] in g.nodes && 0 <= i < |g.nodes[c[k]].ins| && g.nodes[c[k]].ins[i] != 0
      ensures g.nodes[c[k]].ins[i] in done || g.nodes[c[k]].ins[i] in c[..k]
    {
      if k < |a| {
        assert c[..k] == a[..k];
      } else {
        assert c[k] == b[k - |a|] && c[..k] == a + b[..k - |a|];
      }
    }
  }

  lemma {:induction false} NoneFirst(g: Graph, done: set<Id>)
    ensures InputsFirst(g, done, []) && Members([]) == {}
  {}

  lemma {:induction false} AllUnfold(g: Graph, ns: seq<Id>, seen: set<Id>)
    ensures |ns| == 0 ==> VisitAll(g, ns, seen) == Walked(seen, [])
    ensures |ns| > 0 ==> var v := Visit(g, ns[|ns| - 1], seen);
      var w := VisitAll(g, ns[..|ns| - 1], v.visited);
      VisitAll(g, ns, seen) == Walked(w.visited, v.order + w.order)
  {}

  /** `active` are the nodes whose inputs are being visited. */
  lemma {:induction false} VisitOrdered(g: Graph, R: set<Id>, rank: map<Id, nat>, n: Id, done: set<Id>, active: set<Id>)
    requires RanksInputs(g, R, rank) && InputClosed(g, R) && 0 !in g.nodes && n in R
    requires active <= R && forall a :: a in active ==> rank[a] > rank[n]
    ensures var w := Visit(g, n, done + active);
      InputsFirst(g, done, w.order) && w.visited == done + active + Members(w.order) && (n in done || n in w.order)
    decreases rank[n], 1, 0
  {
    if n !in done {
      var ins := g.nodes[n].ins;
      assert done + active + {n} == done + (active + {n});
      VisitAllOrdered(g, R, rank, ins, done, active + {n}, n);
      var w := VisitAll(g, ins, done + (active + {n}));
      assert Visit(g, n, done + active) == Walked(w.visited, w.order + [n]);
      FirstThen(g, done, w.order, [n]);
    }
  }

  lemma {:induction false} VisitAllOrdered(g: Graph, R: set<Id>, rank: map<Id, nat>, ns: seq<Id>, done: set<Id>,
                                           active: set<Id>, user: Id)
    requires RanksInputs(g, R, rank) && InputClosed(g, R) && active <= R && user in R
    requires forall k :: 0 <= k < |ns| && ns[k] != 0 ==> ns[k] in R && rank[ns[k]] < rank[user]
    requires forall a :: a in active ==> rank[a] >= rank[user]
    requires 0 !in g.nodes
    ensures var w := VisitAll(g, ns, done + active);
      InputsFirst(g, done, w.order) && w.visited == done + active + Members(w.order) &&
      forall k :: 0 <= k < |ns| && ns[k] != 0 ==> ns[k] in done || ns[k] in w.order
    decreases rank[user], 0, |ns|
  {
    hide InputsFirst;
    AllUnfold(g, ns, done + active);
    if |ns| == 0 {
      NoneFirst(g, done);
    } else {
      var last, init := ns[|ns| - 1], ns[..|ns| - 1];
      var v := Visit(g, last, done + active);
      if last != 0 {
        VisitOrdered(g, R, rank, last, done, active);
      } else {
        NoneFirst(g, done);
      }
      var done' := done + Members(v.order);
      assert v.visited == done' + active;
      VisitAllOrdered(g, R, rank, init, done', active, user);
      FirstThen(g, done, v.order, VisitAll(g, init, done' + active).order);
    }
  }

  /** If the nodes END depends on can be ranked, inputs stand before the nodes they go into. */
  lemma {:induction false} RankedInputsFirst(g: Graph, R: set<Id>, rank: map<Id, nat>)
    requires RanksInputs(g, R, rank) && InputClosed(g, R) && 0 !in g.nodes
    ensures InputsFirst(g, {}, WalkOrder(g))
  {
    var none: set<Id> := {};
    assert none + none == none;
    VisitOrdered(g, R, rank, g.end, none, none);
  }

  /** If inputs stand before the nodes they go into, positions rank them. */
  lemma {:induction false} InputsFirstRanked(g: Graph, R: set<Id>, order: seq<Id>) returns (rank: map<Id, nat>)
    requires InputsFirst(g, {}, order) && R == Members(order) && R <= g.nodes.Keys && 0 !in g.nodes
    requires OnceEach(order)
    ensures RanksInputs(g, R, rank)
  {
    rank := map n | n in R :: Position(order, n);
    forall n, i | n in R && 0 <= i < |g.nodes[n].ins| && g.nodes[n].ins[i] in R
      ensures rank[g.nodes[n].ins[i]] < rank[n]
    {
      var k, d := rank[n], g.nodes[n].ins[i];
      assert order[k] == n && d in order[..k];
      var j :| 0 <= j < k && order[..k][j] == d;
      assert order[j] == d;
    }
  }

  ghost function Position(order: seq<Id>, n: Id): (k: nat)
    requires n in order
    ensures k < |order| && order[k] == n
  {
    var k :| 0 <= k < |order| && order[k] == n; k
  }

  // ----- on all graphs -----

  predicate OnceEach(order: seq<Id>) {
    forall i, j :: 0 <= i < j < |order| ==> order[i] != order[j]
  }

  /** A visit lists nodes not seen before, each once, and they are then seen. */
  predicate ListsNew(g: Graph, seen: set<Id>, w: Walked) {
    w.visited == seen + Members(w.order) && Members(w.order) !! seen && Members(w.order) <= g.nodes.Keys &&
    OnceEach(w.order)
  }

  lemma {:induction false} NewThen(g: Graph, seen: set<Id>, v: Walked, w: Walked)
    requires ListsNew(g, seen, v) && ListsNew(g, v.visited, w)
    ensures ListsNew(g, seen, Walked(w.visited, v.order + w.order))
  {
    var c := v.order + w.order;
    assert Members(c) == Members(v.order) + Members(w.order);
    forall i, j | 0 <= i < j < |c|
      ensures c[i] != c[j]
    {
      if i < |v.order| <= j {
        assert c[i] in Members(v.order) && c[j] in Members(w.order);
      }
    }
  }

  lemma {:induction false} VisitLists(g: Graph, n: Id, seen: set<Id>)
    ensures ListsNew(g, seen, Visit(g, n, seen))
    decreases g.nodes.Keys - seen, 0
  {
    if n !in seen && n in g.nodes {
      assert n in g.nodes.Keys - seen && n !in g.nodes.Keys - (seen + {n});
      VisitAllLists(g, g.nodes[n].ins, seen + {n});
      var w := VisitAll(g, g.nodes[n].ins, seen + {n});
      assert Members(w.order + [n]) == Members(w.order) + {n};
      assert n !in Members(w.order);
    }
  }

  lemma {:induction false} VisitAllLists(g: Graph, ns: seq<Id>, seen: set<Id>)
    ensures ListsNew(g, seen, VisitAll(g, ns, seen))
    decreases g.nodes.Keys - seen, 1, |ns|
  {
    if |ns| > 0 {
      VisitLists(g, ns[|ns| - 1], seen);
      var v := Visit(g, ns[|ns| - 1], seen);
      assert g.nodes.Keys - v.visited <= g.nodes.Keys - seen;
      VisitAllLists(g, ns[..|ns| - 1], v.visited);
      NewThen(g, seen, v, VisitAll(g, ns[..|ns| - 1], v.visited));
    }
  }

  /** Inputs stand before the nodes they go into exactly if what END depends on can be ranked. */
  lemma {:induction false} InputsFirstIff(g: Graph)
    requires 0 !in g.nodes && InputClosed(g, Members(WalkOrder(g)))
    ensures InputsFirst(g, {}, WalkOrder(g)) <==> exists rank :: RanksInputs(g, Members(WalkOrder(g)), rank)
  {
    VisitLists(g, g.end, {});
    var order := WalkOrder(g);
    if InputsFirst(g, {}, order) {
      var rank := InputsFirstRanked(g, Members(order), order);
    }
    if rank :| RanksInputs(g, Members(order), rank) {
      RankedInputsFirst(g, Members(order), rank);
    }
  }
}
