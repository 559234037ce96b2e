/** The graphs the front end produces, and why optimizing one of them ends in a true fixpoint. */
module Fixpoint {
  import opened Graphs
  import opened Rewrites
  import opened Peephole
  import opened DeadStores

  predicate MemEdge(g: Graph, mem: set<Id>, n: Id, i: nat) {
    n in g.nodes && i < |g.nodes[n].ins| && (n == g.end || n in mem) && g.nodes[n].ins[i] != 0 &&
    g.nodes[n].ins[i] in mem
  }

  ghost predicate MemClosed(g: Graph, mem: set<Id>, K: set<Id>) {
    g.end in K && forall n, i: nat :: n in K && MemEdge(g, mem, n, i) ==> g.nodes[n].ins[i] in K
  }

  /** Memory reaches END through an escape, every memory node lies on the way there, addresses are
      allocas, and the only data phi is the returned value. */
  ghost predicate Anchored(g: Graph, mem: set<Id>) {
    Is(g, Arg(g, g.end, 1), MemEscape) &&
    (forall n :: Is(g, n, Store) || Is(g, n, Load) ==> Is(g, Arg(g, n, 2), Alloca)) &&
    (forall q :: Is(g, q, Phi) ==> q in mem || q == Arg(g, g.end, 2)) &&
    forall K :: MemClosed(g, mem, K) ==> forall n :: n in g.nodes && n in mem ==> n in K
  }

  lemma AnchoredKeep(g: Graph, mem: set<Id>, K: set<Id>)
    requires Shape(g) && Anchored(g, mem) && InputClosed(g, K)
    ensures Anchored(Keep(g, K), mem)
    ensures forall n :: n in g.nodes && n in mem ==> n in K
    ensures forall q :: Is(g, q, Phi) ==> q in K
  {
    var h := Keep(g, K);
    assert MemClosed(g, mem, K);
    assert SlotOk(g, g.end, 1) && SlotOk(g, g.end, 2);
    forall n | Is(h, n, Store) || Is(h, n, Load)
      ensures Is(h, Arg(h, n, 2), Alloca)
    {
      assert SlotOk(g, n, 2);
      assert Is(g, Arg(g, n, 2), Alloca);
    }
    forall X | MemClosed(h, mem, X)
      ensures forall n :: n in h.nodes && n in mem ==> n in X
    {
      forall n, i: nat | n in X * K && MemEdge(g, mem, n, i)
        ensures g.nodes[n].ins[i] in X * K
      {
        assert MemEdge(h, mem, n, i);
      }
      assert MemClosed(g, mem, X * K);
    }
  }

  lemma MemClosedBefore(g: Graph, mem: set<Id>, t: Id, x: Id, K: set<Id>)
    requires Shape(g) && MemTyped(g, mem) && Becomes(g, t, x) && MemClosed(Replace(g, t, x), mem, K)
    requires Is(g, Arg(g, g.end, 1), MemEscape)
    ensures MemClosed(g, mem, WithTarget(t, x, K))
  {
    var K' := WithTarget(t, x, K);
    forall n, i: nat | n in K' && MemEdge(g, mem, n, i)
      ensures g.nodes[n].ins[i] in K'
    {
      assert SlotOk(g, n, i);
      if n != t {
        MemEdgeReplace(g, mem, t, x, n, i);
      } else {
        assert g.nodes[t].kind == Phi && g.nodes[n].ins[i] == x;
      }
    }
    assert t != g.end;
  }

  lemma AddressesReplace(g: Graph, t: Id, x: Id, n: Id)
    requires Shape(g) && Becomes(g, t, x) && (Is(g, n, Store) || Is(g, n, Load) ==> Is(g, Arg(g, n, 2), Alloca))
    requires Is(Replace(g, t, x), n, Store) || Is(Replace(g, t, x), n, Load)
    ensures Is(Replace(g, t, x), Arg(Replace(g, t, x), n, 2), Alloca)
  {
    assert SlotOk(g, n, 2);
  }

  lemma EscapeReplace(g: Graph, mem: set<Id>, t: Id, x: Id)
    requires Shape(g) && MemTyped(g, mem) && Becomes(g, t, x) && Is(g, Arg(g, g.end, 1), MemEscape)
    ensures Is(Replace(g, t, x), Arg(Replace(g, t, x), g.end, 1), MemEscape)
  {
    assert SlotOk(g, g.end, 1);
  }

  lemma DataPhiReplace(g: Graph, mem: set<Id>, t: Id, x: Id, q: Id)
    requires Shape(g) && Becomes(g, t, x) && Is(Replace(g, t, x), q, Phi)
    requires Is(g, q, Phi) ==> q in mem || q == Arg(g, g.end, 2)
    ensures q in mem || q == Arg(Replace(g, t, x), g.end, 2)
  {
    assert SlotOk(g, g.end, 2);
  }

  lemma AnchoredReplace(g: Graph, mem: set<Id>, t: Id, x: Id)
    requires Shape(g) && MemTyped(g, mem) && Anchored(g, mem) && Becomes(g, t, x)
    ensures Anchored(Replace(g, t, x), mem)
  {
    var h := Replace(g, t, x);
    EscapeReplace(g, mem, t, x);
    forall n | Is(h, n, Store) || Is(h, n, Load)
      ensures Is(h, Arg(h, n, 2), Alloca)
    {
      AddressesReplace(g, t, x, n);
    }
    forall q | Is(h, q, Phi)
      ensures q in mem || q == Arg(h, h.end, 2)
    {
      DataPhiReplace(g, mem, t, x, q);
    }
    forall K | MemClosed(h, mem, K)
      ensures forall n :: n in h.nodes && n in mem ==> n in K
    {
      MemClosedBefore(g, mem, t, x, K);
      assert forall n :: n in g.nodes && n in mem ==> n in WithTarget(t, x, K);
    }
    hide Is, Arg, Shape, MemTyped, MemClosed, Becomes;
  }

  lemma MemEdgeReplace(g: Graph, mem: set<Id>, t: Id, x: Id, n: Id, i: nat)
    requires Shape(g) && MemTyped(g, mem) && Becomes(g, t, x) && n != t && MemEdge(g, mem, n, i)
    ensures MemEdge(Replace(g, t, x), mem, n, i)
  {
    if g.nodes[n].ins[i] == t {
      assert g.nodes[t].kind == Phi;
      var j :| 1 <= j < |g.nodes[t].ins| && g.nodes[t].ins[j] == x;
      assert x in mem;
    }
  }

  // ----- what a graph without rewrites looks like -----

  /** From slot `from` on there are two different inputs, or nothing but `n` itself. */
  predicate Varied(ins: seq<Id>, from: nat, n: Id) {
    (exists i, j :: from <= i < j < |ins| && ins[i] != 0 && ins[j] != 0 && ins[i] != ins[j]) ||
    forall i :: from <= i < |ins| ==> ins[i] == n
  }

  /** Nothing is left to simplify at `n`: a phi has two different values to choose from, a region without phis has
      two ways in, and what a load reads is not what the store before it has just written. */
  predicate Settled(g: Graph, n: Id)
    requires n in g.nodes
  {
    match g.nodes[n].kind
    case Phi => Varied(g.nodes[n].ins, 1, n)
    case Region =>
      (exists p, i ::
         p in g.nodes && g.nodes[p].kind == Phi && 0 <= i < |g.nodes[p].ins| && g.nodes[p].ins[i] == n) ||
      Varied(g.nodes[n].ins, 0, n)
    case Load => Is(g, Arg(g, n, 1), Store) ==> Arg(g, Arg(g, n, 1), 2) != Arg(g, n, 2)
    case _ => true
  }

  lemma {:induction false} VariedIff(ins: seq<Id>, from: nat, n: Id)
    requires from < |ins| && forall i :: from <= i < |ins| ==> ins[i] != 0
    ensures Varied(ins, from, n) <==> forall x :: x != n ==> !OnlyInput(ins, from, x)
  {
    if forall x :: x != n ==> !OnlyInput(ins, from, x) {
      if i :| from <= i < |ins| && ins[i] != n {
        assert !OnlyInput(ins, from, ins[i]);
        var j :| from <= j < |ins| && ins[j] != 0 && ins[j] != ins[i];
        assert i < j || j < i;
      }
    }
  }

  /** No rule applies to a node exactly if nothing is left to simplify there. */
  lemma SettledIff(g: Graph, n: Id)
    requires Shape(g) && Acyclic(g) && n in g.nodes
    ensures Settled(g, n) <==> Stable(g, n)
  {
    var ins := g.nodes[n].ins;
    assert Arity(g.nodes[n].kind, |ins|);
    if g.nodes[n].kind == Phi {
      PhiSettledIff(g, n);
    } else if g.nodes[n].kind == Region {
      NoneNull(g, n);
      VariedIff(ins, 0, n);
      assert forall x :: Becomes(g, n, x) <==> x != n && !HasPhi(g, n) && OnlyInput(ins, 0, x);
    } else if g.nodes[n].kind == Load {
      LoadSettled(g, n);
    }
  }

  lemma PhiSettledIff(g: Graph, n: Id)
    requires Shape(g) && Is(g, n, Phi)
    ensures Settled(g, n) <==> Stable(g, n)
  {
    assert Arity(Phi, |g.nodes[n].ins|);
    NoneNull(g, n);
    VariedIff(g.nodes[n].ins, 1, n);
    assert forall x :: Becomes(g, n, x) <==> x != n && OnlyInput(g.nodes[n].ins, 1, x);
  }

  lemma NoneNull(g: Graph, n: Id)
    requires Shape(g) && n in g.nodes && g.nodes[n].kind in {Phi, Region}
    ensures forall i :: 0 <= i < |g.nodes[n].ins| ==> g.nodes[n].ins[i] != 0
  {
    forall i | 0 <= i < |g.nodes[n].ins|
      ensures g.nodes[n].ins[i] != 0
    {
      assert SlotOk(g, n, i);
    }
  }

  lemma LoadSettled(g: Graph, n: Id)
    requires Shape(g) && Acyclic(g) && Is(g, n, Load)
    ensures Settled(g, n) <==> Stable(g, n)
  {
    var m := Arg(g, n, 1);
    var x := Arg(g, m, 3);
    if Is(g, m, Store) && Arg(g, m, 2) == Arg(g, n, 2) {
      assert SlotOk(g, n, 1) && SlotOk(g, m, 3);
      assert Operand(Store, 3) && Operand(Load, 1);
      assert RankOf(g)[x] < RankOf(g)[m] < RankOf(g)[n];
      assert Becomes(g, n, x);
    }
  }

  // ----- one rewrite, and the nodes it does not touch -----

  /** A node that a rewrite does not touch stays as it was: neither using the replaced node nor
      being its region, it cannot become rewritable. */
  lemma StableStep(g: Graph, mem: set<Id>, t: Id, x: Id, K: set<Id>, n: Id)
    requires Shape(g) && MemTyped(g, mem) && Anchored(g, mem) && Becomes(g, t, x) && Shape(Replace(g, t, x))
    requires InputClosed(Replace(g, t, x), K) && n in g.nodes && n != t && n in K && Stable(g, n)
    requires t !in g.nodes[n].ins && !(g.nodes[t].kind == Phi && n == Arg(g, t, 0))
    ensures Stable(Keep(Replace(g, t, x), K), n)
  {
    forall y
      ensures !Becomes(Keep(Replace(g, t, x), K), n, y)
    {
      if Becomes(Keep(Replace(g, t, x), K), n, y) {
        WasUnstable(g, mem, t, x, K, n, y);
      }
    }
  }

  lemma WasUnstable(g: Graph, mem: set<Id>, t: Id, x: Id, K: set<Id>, n: Id, y: Id)
    requires Shape(g) && MemTyped(g, mem) && Anchored(g, mem) && Becomes(g, t, x) && Shape(Replace(g, t, x))
    requires InputClosed(Replace(g, t, x), K) && n in g.nodes && n != t && n in K
    requires t !in g.nodes[n].ins && !(g.nodes[t].kind == Phi && n == Arg(g, t, 0))
    requires Becomes(Keep(Replace(g, t, x), K), n, y)
    ensures exists z :: Becomes(g, n, z)
  {
    assert Keep(Replace(g, t, x), K).nodes[n].ins == g.nodes[n].ins;
    match g.nodes[n].kind
    case Phi => assert Becomes(g, n, y);
    case Load => LoadStays(g, mem, t, x, K, n);
    case Region =>
      if HasPhi(g, n) {
        RegionStays(g, mem, t, x, K, n);
      }
      assert Becomes(g, n, y);
  }

  lemma LoadStays(g: Graph, mem: set<Id>, t: Id, x: Id, K: set<Id>, n: Id)
    requires Shape(g) && MemTyped(g, mem) && Anchored(g, mem) && Becomes(g, t, x) && Shape(Replace(g, t, x))
    requires Is(g, n, Load) && n != t && t !in g.nodes[n].ins && n in K
    requires exists y :: Becomes(Keep(Replace(g, t, x), K), n, y)
    ensures Becomes(g, n, Arg(g, Arg(g, n, 1), 3))
  {
    var k := Keep(Replace(g, t, x), K);
    var m := Arg(g, n, 1);
    assert SlotOk(g, n, 1) && SlotOk(g, n, 2);
    assert Arg(k, n, 1) == m && Arg(k, n, 2) == Arg(g, n, 2);
    assert Is(g, m, Store);
    assert SlotOk(g, m, 2) && SlotOk(g, m, 3);
    assert Is(g, Arg(g, m, 2), Alloca);
    assert Arg(k, m, 2) == Arg(g, m, 2);
  }

  lemma RegionStays(g: Graph, mem: set<Id>, t: Id, x: Id, K: set<Id>, n: Id)
    requires Shape(g) && MemTyped(g, mem) && Anchored(g, mem) && Becomes(g, t, x) && Shape(Replace(g, t, x))
    requires InputClosed(Replace(g, t, x), K) && Is(g, n, Region) && n != t && n in K
    requires !(g.nodes[t].kind == Phi && n == Arg(g, t, 0)) && HasPhi(g, n)
    ensures HasPhi(Keep(Replace(g, t, x), K), n)
  {
    var h := Replace(g, t, x);
    var k := Keep(h, K);
    AnchoredReplace(g, mem, t, x);
    AnchoredKeep(h, mem, K);
    var q, i :| q in g.nodes && g.nodes[q].kind == Phi && 0 <= i < |g.nodes[q].ins| && g.nodes[q].ins[i] == n;
    assert SlotOk(g, q, i);
    assert i == 0;
    assert Is(h, q, Phi);
    assert k.nodes[q].kind == Phi && k.nodes[q].ins[0] == n;
  }

  /** In such a graph every store is read: dead-store elimination has nothing to do. */
  lemma AllMarked(g: Graph, mem: set<Id>, R: set<Id>, S: set<Id>)
    requires Shape(g) && MemTyped(g, mem) && Anchored(g, mem) && InputClosed(g, R) && MarkClosed(g, R, S)
    ensures forall n :: n in g.nodes && n in mem ==> n in S
  {
    AnchoredKeep(g, mem, R);
    var K := S + {g.end};
    assert SlotOk(g, g.end, 1) && SlotOk(g, g.end, 2);
    forall n, i: nat | n in K && MemEdge(g, mem, n, i)
      ensures g.nodes[n].ins[i] in K
    {
      assert SlotOk(g, n, i);
      if n != g.end {
        assert n in R && MarkSlot(g.nodes[n].kind, i);
      } else {
        assert i == 1;
      }
    }
    assert MemClosed(g, mem, K);
  }
}
