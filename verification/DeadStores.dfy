/** Dead-store elimination: which stores nothing reads, and why dropping them is right. */
module DeadStores {
  import opened Machines
  import opened Graphs
  import opened Rewrites

  predicate ReadsMemory(k: Kind) {
    k in {Load, MemEscape}
  }

  predicate HasMemDep(k: Kind) {
    k in {Store, Load, MemEscape}
  }

  /** The slots through which a marked node marks others. */
  predicate MarkSlot(k: Kind, i: nat) {
    (k == Phi && i >= 1) || (HasMemDep(k) && i == 1)
  }

  /** `S` contains the readers among `R`, and what marked nodes of `R` take their memory from. */
  predicate MarkClosed(g: Graph, R: set<Id>, S: set<Id>) {
    (forall n :: n in R && n in g.nodes && ReadsMemory(g.nodes[n].kind) ==> n in S) &&
    forall n, i ::
      n in R && n in S && n in g.nodes &&
      0 <= i < |g.nodes[n].ins| && MarkSlot(g.nodes[n].kind, i) && g.nodes[n].ins[i] != 0 ==>
      g.nodes[n].ins[i] in S
  }

  function Unread(mem: set<Id>, S: set<Id>): set<Id> {
    mem - S
  }

  lemma UnreadLoose(g: Graph, mem: set<Id>, R: set<Id>, S: set<Id>)
    requires Shape(g) && MemTyped(g, mem) && MarkClosed(g, R, S)
    ensures Loose(Keep(g, R), mem, Unread(mem, S))
  {
    var h := Keep(g, R);
    forall n, i | n in h.nodes && 0 <= i < |h.nodes[n].ins| && h.nodes[n].ins[i] in Unread(mem, S)
      ensures n in Unread(mem, S) || n == h.end
    {
      assert SlotOk(g, n, i);
      assert !ControlSlot(g.nodes[n].kind, i);
      if n in S && n != g.end {
        assert MarkSlot(g.nodes[n].kind, i);
      }
    }
  }

  // ----- dropping one unread store -----

  lemma StoreReady(g: Graph, mem: set<Id>, t: Id)
    requires WellFormed(g, mem) && Is(g, t, Store)
    ensures Replaceable(g, mem, t, Arg(g, t, 1)) && Ranked(Replace(g, t, Arg(g, t, 1)), RankOf(g))
    ensures Deps(g, Arg(g, t, 1)) <= Deps(g, t)
  {
    var m := Arg(g, t, 1);
    assert SlotOk(g, t, 1);
    assert Operand(Store, 1);
    assert Deps(g, m) == DepsArg(g, t, 1);
  }

  lemma DropStoreWellFormed(g: Graph, mem: set<Id>, t: Id)
    requires WellFormed(g, mem) && Is(g, t, Store)
    ensures WellFormed(Replace(g, t, Arg(g, t, 1)), mem)
  {
    StoreReady(g, mem, t);
    ReplaceWellFormed(g, mem, t, Arg(g, t, 1));
  }

  lemma DropLooseStore(g: Graph, mem: set<Id>, L: set<Id>, t: Id)
    requires WellFormed(g, mem) && Loose(g, mem, L) && Is(g, t, Store) && t in L
    ensures SameBehaviour(g, Replace(g, t, Arg(g, t, 1)))
  {
    var m := Arg(g, t, 1);
    StoreReady(g, mem, t);
    assert t !in Deps(g, m) by {
      if t in Deps(g, m) { DepsArePhis(g, m, t); }
    }
    forall M, p, c, j, d | Walk(g, p) && Edge(g, At(g, p), c, j) && Demands(g, c, j, d)
      ensures Alike(L, t, Eval(g, M, EnvAt(g, M, p), t), Eval(g, M, EnvAt(g, M, p), m))
    {
      StoreHidden(g, M, EnvAt(g, M, p), t);
    }
    assert Interchangeable(g, L, t, m);
    ReplaceSound(g, mem, L, t, m);
  }

  lemma StoreHidden(g: Graph, M: Machine, env: Env, t: Id)
    requires Shape(g) && Acyclic(g) && Is(g, t, Store)
    ensures Observed(Eval(g, M, env, t)) == Observed(Eval(g, M, env, Arg(g, t, 1)))
  {
    assert Eval(g, M, env, t) ==
      MemV(Written(AsMemory(EvalArg(g, M, env, t, 1)), EvalArg(g, M, env, t, 2), EvalArg(g, M, env, t, 3)));
    assert EvalArg(g, M, env, t, 1) == Eval(g, M, env, Arg(g, t, 1));
    assert forall v: Val :: LastEscape(AsMemory(v)) == Observed(v);
  }

  lemma KeepReplace(g: Graph, R: set<Id>, t: Id, s: Id)
    ensures Replace(Keep(g, R), t, s) == Keep(Replace(g, t, s), R - {t})
  {
    var a, b := Replace(Keep(g, R), t, s), Keep(Replace(g, t, s), R - {t});
    assert a.nodes.Keys == b.nodes.Keys;
  }

  lemma ReplaceClosed(g: Graph, R: set<Id>, t: Id, s: Id)
    requires InputClosed(g, R) && t in R && t in g.nodes && t != g.end && t != s && s in R
    ensures InputClosed(Replace(g, t, s), R - {t})
  {}

  /** Dropping a store the marking missed keeps the behaviour. */
  lemma DropUnread(g: Graph, mem: set<Id>, R: set<Id>, S: set<Id>, t: Id)
    requires WellFormed(g, mem) && InputClosed(g, R) && MarkClosed(g, R, S) && Is(g, t, Store) && t in R && t !in S
    ensures WellFormed(Replace(g, t, Arg(g, t, 1)), mem) && SameBehaviour(g, Replace(g, t, Arg(g, t, 1)))
    ensures InputClosed(Replace(g, t, Arg(g, t, 1)), R - {t}) && MarkClosed(Replace(g, t, Arg(g, t, 1)), R - {t}, S)
  {
    var m := Arg(g, t, 1);
    var h := Replace(g, t, m);
    assert SlotOk(g, t, 1);
    StoreReady(g, mem, t);
    KeepSound(g, mem, R);
    UnreadLoose(g, mem, R, S);
    assert t in Unread(mem, S);
    DropLooseStore(Keep(g, R), mem, Unread(mem, S), t);
    KeepReplace(g, R, t, m);
    DropStoreWellFormed(g, mem, t);
    ReplaceClosed(g, R, t, m);
    KeepSound(h, mem, R - {t});
  }

  // ----- dead stores, read off the graph -----

  /** END depends on `n`. */
  ghost predicate Needed(g: Graph, n: Id) {
    forall K :: InputClosed(g, K) ==> n in K
  }

  /** `R` is what END depends on. */
  ghost predicate EndNeeds(g: Graph, R: set<Id>) {
    InputClosed(g, R) && forall K :: InputClosed(g, K) ==> R <= K
  }

  /** Of the nodes of `R`, `X` holds the loads and the escapes, the memory that loads, escapes and stores of `X` are
      given, and all that phis of `X` choose from. */
  predicate ReadClosed(g: Graph, R: set<Id>, X: set<Id>) {
    forall n :: n in R && n in g.nodes ==>
      (Is(g, n, Load) || Is(g, n, MemEscape) ==> n in X) &&
      (n in X && (Is(g, n, Load) || Is(g, n, MemEscape) || Is(g, n, Store)) ==> Arg(g, n, 1) in X) &&
      (n in X && Is(g, n, Phi) ==> forall i :: 1 <= i < |g.nodes[n].ins| ==> g.nodes[n].ins[i] in X)
  }

  /** Every store that END depends on in `g` may be read in `g0`. */
  ghost predicate OnlyRead(g0: Graph, g: Graph) {
    forall R, X, n :: EndNeeds(g0, R) && ReadClosed(g0, R, X) && Needed(g, n) && Is(g, n, Store) ==> n in X
  }

  /** The marking by slots is the one by kinds. */
  lemma ReadIff(g: Graph, R: set<Id>, X: set<Id>)
    requires Shape(g)
    ensures ReadClosed(g, R, X) <==> MarkClosed(g, R, X)
  {
    forall n, i | n in g.nodes && 0 <= i < |g.nodes[n].ins| && MarkSlot(g.nodes[n].kind, i)
      ensures g.nodes[n].ins[i] != 0
    {
      assert SlotOk(g, n, i);
    }
    if MarkClosed(g, R, X) {
      forall n | n in R && n in X && n in g.nodes && HasMemDep(g.nodes[n].kind)
        ensures Arg(g, n, 1) in X
      {
        assert Arity(g.nodes[n].kind, |g.nodes[n].ins|) && MarkSlot(g.nodes[n].kind, 1);
      }
      forall n, i | n in R && n in X && Is(g, n, Phi) && 1 <= i < |g.nodes[n].ins|
        ensures g.nodes[n].ins[i] in X
      {
        assert MarkSlot(g.nodes[n].kind, i);
      }
    }
    if ReadClosed(g, R, X) {
      forall n, i |
        n in R && n in X && n in g.nodes && 0 <= i < |g.nodes[n].ins| && MarkSlot(g.nodes[n].kind, i)
        ensures g.nodes[n].ins[i] in X
      {
        assert HasMemDep(g.nodes[n].kind) ==> g.nodes[n].ins[i] == Arg(g, n, 1);
      }
    }
  }

  // ----- the stores to drop stay in the graph until they are dropped -----

  predicate SpineSlot(g: Graph, mem: set<Id>, S: set<Id>, n: Id, i: nat) {
    n in g.nodes && i < |g.nodes[n].ins| && (n == g.end || (n in mem && n !in S)) &&
    g.nodes[n].ins[i] != 0 && g.nodes[n].ins[i] in mem && g.nodes[n].ins[i] !in S
  }

  ghost predicate SpineClosed(g: Graph, mem: set<Id>, S: set<Id>, K: set<Id>) {
    g.end in K && forall n, i: nat :: n in K && SpineSlot(g, mem, S, n, i) ==> g.nodes[n].ins[i] in K
  }

  /** Every unread memory node hangs on END by unread memory nodes only. */
  ghost predicate Spine(g: Graph, mem: set<Id>, R: set<Id>, S: set<Id>) {
    forall K :: SpineClosed(g, mem, S, K) ==> forall n :: n in g.nodes && n in R && n in mem && n !in S ==> n in K
  }

  lemma SpineInitially(g: Graph, mem: set<Id>, R: set<Id>, S: set<Id>)
    requires Shape(g) && MemTyped(g, mem) && MarkClosed(g, R, S) && InputClosed(g, R)
    requires forall K :: InputClosed(g, K) ==> R <= K
    ensures Spine(g, mem, R, S)
  {
    forall K | SpineClosed(g, mem, S, K)
      ensures forall n :: n in g.nodes && n in R && n in mem && n !in S ==> n in K
    {
      var K' := (K * R) + (R - Unread(mem, S));
      forall n, i | n in K' && n in g.nodes && 0 <= i < |g.nodes[n].ins| && g.nodes[n].ins[i] != 0
        ensures g.nodes[n].ins[i] in K'
      {
        assert SlotOk(g, n, i);
        assert ControlSlot(g.nodes[n].kind, i) ==> g.nodes[n].ins[i] !in mem;
        if g.nodes[n].ins[i] in Unread(mem, S) {
          assert SpineSlot(g, mem, S, n, i);
        }
      }
      assert InputClosed(g, K');
    }
  }

  /** An unread store is used by END or by another unread memory node. */
  lemma UnreadUser(g: Graph, mem: set<Id>, R: set<Id>, S: set<Id>, t: Id) returns (u: Id)
    requires Shape(g) && MemTyped(g, mem) && InputClosed(g, R) && Spine(g, mem, R, S)
    requires Is(g, t, Store) && t in R && t !in S
    ensures u in g.nodes && t in g.nodes[u].ins && u != t
    ensures u == g.end || (u in R && u in mem && u !in S)
  {
    var K := R - {t};
    assert !SpineClosed(g, mem, S, K);
    var n, i: nat :| n in K && SpineSlot(g, mem, S, n, i) && g.nodes[n].ins[i] !in K;
    u := n;
  }

  lemma SpineReplace(g: Graph, mem: set<Id>, R: set<Id>, S: set<Id>, t: Id)
    requires Shape(g) && MemTyped(g, mem) && Spine(g, mem, R, S) && Is(g, t, Store) && t !in S
    ensures Spine(Replace(g, t, Arg(g, t, 1)), mem, R - {t}, S)
  {
    var m := Arg(g, t, 1);
    var h := Replace(g, t, m);
    assert SlotOk(g, t, 1);
    forall K | SpineClosed(h, mem, S, K)
      ensures forall n :: n in h.nodes && n in R - {t} && n in mem && n !in S ==> n in K
    {
      var K' := if m in K || m in S then K + {t} else K - {t};
      forall n, i: nat | n in K' && SpineSlot(g, mem, S, n, i)
        ensures g.nodes[n].ins[i] in K'
      {
        assert SlotOk(g, n, i);
        if n == t {
          assert i == 1;
        } else if g.nodes[n].ins[i] != t || m !in S {
          assert SpineSlot(h, mem, S, n, i);
        }
      }
      assert SpineClosed(g, mem, S, K');
    }
  }

  lemma SpineKeep(g: Graph, mem: set<Id>, R: set<Id>, S: set<Id>, K: set<Id>)
    requires Shape(g) && Spine(g, mem, R, S) && InputClosed(g, K)
    ensures forall n :: n in g.nodes && n in R && n in mem && n !in S ==> n in K
    ensures Spine(Keep(g, K), mem, R * K, S)
  {
    forall n, i: nat | n in K && SpineSlot(g, mem, S, n, i)
      ensures g.nodes[n].ins[i] in K
    {
    }
    assert SpineClosed(g, mem, S, K);
    forall X | SpineClosed(Keep(g, K), mem, S, X)
      ensures forall n :: n in Keep(g, K).nodes && n in R * K && n in mem && n !in S ==> n in X
    {
      forall n, i: nat | n in X * K && SpineSlot(g, mem, S, n, i)
        ensures g.nodes[n].ins[i] in X * K
      {
        assert SpineSlot(Keep(g, K), mem, S, n, i);
      }
      assert SpineClosed(g, mem, S, X * K);
    }
  }
}
