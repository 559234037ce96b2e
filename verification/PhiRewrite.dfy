/** The phi rewrite keeps the meaning of every graph, loops included.

    A phi whose inputs all agree on one other node `x` is replaced by `x`. Between the moment the phi
    took its value and the moment it is used, `x` could have changed, if a region that `x` depends on
    had been entered again. Strictness excludes that: such a run could be cut short so that
    it reaches the use without entering the phi's region at all. */
module PhiRewrite {
  import opened Machines
  import opened Graphs
  import opened Rewrites

  predicate TrivialPhi(g: Graph, t: Id, x: Id) {
    Is(g, t, Phi) && x in g.nodes && x != t &&
    forall i :: 1 <= i < |g.nodes[t].ins| ==> g.nodes[t].ins[i] == x
  }

  // ----- the phi's value stays that of its input for as long as it is used -----

  ghost predicate DepRegion(g: Graph, x: Id, c: Id)
    requires Acyclic(g)
  {
    exists q :: q in Deps(g, x) && Arg(g, q, 0) == c
  }

  lemma Prefix(g: Graph, p: Path, c: Id) returns (p': Path)
    requires Walk(g, p) && Visits(p, c)
    ensures Walk(g, p') && At(g, p') == c && forall r :: Visits(p', r) ==> Visits(p, r)
  {
    if p.node == c {
      p' := p;
    } else {
      p' := Prefix(g, p.prev, c);
    }
  }

  lemma PhiEntry(g: Graph, mem: set<Id>, t: Id, x: Id, p: Path)
    requires WellFormed(g, mem) && TrivialPhi(g, t, x) && p.Go? && Walk(g, p) && p.node == Arg(g, t, 0)
    ensures Arg(g, t, p.slot + 1) == x && Ready(g, p.prev, x)
  {
    var r := Arg(g, t, 0);
    assert SlotOk(g, t, 0);
    assert Edge(g, At(g, p.prev), r, p.slot);
    assert PhiOf(g, t, r);
    assert Demands(g, r, p.slot, x);
  }

  /** What `x` depends on is entered before the phi's region is entered for the first time. */
  lemma BeforeFirstEntry(g: Graph, mem: set<Id>, t: Id, x: Id, p: Path, c: Id) returns (p': Path)
    requires WellFormed(g, mem) && TrivialPhi(g, t, x) && Walk(g, p) && Visits(p, Arg(g, t, 0)) && DepRegion(g, x, c)
    ensures Walk(g, p') && At(g, p') == c && !Visits(p', Arg(g, t, 0)) && c != Arg(g, t, 0)
  {
    var r := Arg(g, t, 0);
    if Visits(p.prev, r) {
      p' := BeforeFirstEntry(g, mem, t, x, p.prev, c);
    } else {
      PhiEntry(g, mem, t, x, p);
      assert Visits(p.prev, c);
      p' := Prefix(g, p.prev, c);
    }
  }

  /** Since the last entry of `r`, no region `x` depends on was entered. */
  ghost predicate Fresh(g: Graph, x: Id, p: Path, r: Id)
    requires Acyclic(g)
  {
    p.Go? && (p.node == r || (!DepRegion(g, x, p.node) && Fresh(g, x, p.prev, r)))
  }

  lemma StaleHasDetour(g: Graph, mem: set<Id>, t: Id, x: Id, p: Path) returns (p': Path)
    requires WellFormed(g, mem) && TrivialPhi(g, t, x) && Walk(g, p)
    requires Visits(p, Arg(g, t, 0)) && !Fresh(g, x, p, Arg(g, t, 0))
    ensures Walk(g, p') && At(g, p') == At(g, p) && !Visits(p', Arg(g, t, 0))
  {
    var r := Arg(g, t, 0);
    if DepRegion(g, x, p.node) {
      p' := BeforeFirstEntry(g, mem, t, x, p, p.node);
    } else {
      p' := StaleHasDetour(g, mem, t, x, p.prev);
      p' := Go(p', p.node, p.slot);
    }
  }

  lemma EvalDeps(g: Graph, M: Machine, env: Env, env': Env, n: Id)
    requires Acyclic(g) && forall q :: q in Deps(g, n) ==> Get(env, q) == Get(env', q)
    ensures Eval(g, M, env, n) == Eval(g, M, env', n)
    decreases if n in g.nodes then RankOf(g)[n] else 0
  {
    if n in g.nodes && g.nodes[n].kind != Phi {
      forall i | 0 <= i < 4
        ensures EvalArg(g, M, env, n, i) == EvalArg(g, M, env', n, i)
      {
        if i < |g.nodes[n].ins| && Operand(g.nodes[n].kind, i) {
          assert forall q :: q in DepsArg(g, n, i) ==> q in Deps(g, n);
          EvalDeps(g, M, env, env', g.nodes[n].ins[i]);
        }
      }
    }
  }

  lemma FreshValue(g: Graph, mem: set<Id>, t: Id, x: Id, M: Machine, p: Path)
    requires WellFormed(g, mem) && TrivialPhi(g, t, x) && Walk(g, p) && Fresh(g, x, p, Arg(g, t, 0))
    ensures Get(EnvAt(g, M, p), t) == Eval(g, M, EnvAt(g, M, p), x)
  {
    var r := Arg(g, t, 0);
    assert SlotOk(g, t, 0);
    GetStep(g, M, p, t);
    if p.node == r {
      PhiEntry(g, mem, t, x, p);
    } else {
      FreshValue(g, mem, t, x, M, p.prev);
    }
    forall q | q in Deps(g, x)
      ensures Get(EnvAt(g, M, p), q) == Get(EnvAt(g, M, p.prev), q)
    {
      GetStep(g, M, p, q);
      assert DepRegion(g, x, Arg(g, q, 0));
      if p.node == r {
        var _ := BeforeFirstEntry(g, mem, t, x, p, Arg(g, q, 0));
      }
    }
    EvalDeps(g, M, EnvAt(g, M, p), EnvAt(g, M, p.prev), x);
  }

  lemma UseIsVisited(g: Graph, p: Path, n: Id, j: nat, d: Id, q: Id)
    requires Acyclic(g) && Strict(g) && Walk(g, p) && Edge(g, At(g, p), n, j) && Demands(g, n, j, d) && q in Deps(g, d)
    ensures Visits(p, Arg(g, q, 0))
  {
    assert Ready(g, p, d);
  }

  /** Wherever a value computed from the phi is used, the phi holds what `x` evaluates to. */
  lemma UsedValue(g: Graph, mem: set<Id>, t: Id, x: Id, M: Machine, p: Path, n: Id, j: nat, d: Id)
    requires WellFormed(g, mem) && TrivialPhi(g, t, x)
    requires Walk(g, p) && Edge(g, At(g, p), n, j) && Demands(g, n, j, d) && t in Deps(g, d)
    ensures Get(EnvAt(g, M, p), t) == Eval(g, M, EnvAt(g, M, p), x)
  {
    UseIsVisited(g, p, n, j, d, t);
    if !Fresh(g, x, p, Arg(g, t, 0)) {
      var p' := StaleHasDetour(g, mem, t, x, p);
      UseIsVisited(g, p', n, j, d, t);
    }
    FreshValue(g, mem, t, x, M, p);
  }

  // ----- the graph after the rewrite -----

  /** The phi's input does not depend on the phi before a region is entered again. */
  lemma NoSelf(g: Graph, mem: set<Id>, t: Id, x: Id)
    requires WellFormed(g, mem) && TrivialPhi(g, t, x)
    ensures t !in Deps(g, x)
  {
    assert SlotOk(g, t, 0);
    var r := Arg(g, t, 0);
    assert IsControl(g, r);
    var p :| Walk(g, p) && At(g, p) == r;
    if t in Deps(g, x) {
      assert DepRegion(g, x, r);
      var _ := BeforeFirstEntry(g, mem, t, x, p, r);
    }
  }

  lemma RewriteAcyclic(g: Graph, mem: set<Id>, t: Id, x: Id)
    requires WellFormed(g, mem) && TrivialPhi(g, t, x)
    ensures Acyclic(Replace(g, t, x))
  {
    var h := Replace(g, t, x);
    NoSelf(g, mem, t, x);
    var rank := RankOf(g);
    var rank' := map n | n in g.nodes :: if t in Deps(g, n) then rank[n] + rank[x] + 1 else rank[n];
    forall n, i | n in h.nodes && 0 <= i < |h.nodes[n].ins| && Operand(h.nodes[n].kind, i)
      ensures h.nodes[n].ins[i] in h.nodes && rank'[h.nodes[n].ins[i]] < rank'[n]
    {
      var d := g.nodes[n].ins[i];
      assert DepsArg(g, n, i) <= Deps(g, n);
      assert Deps(g, d) == DepsArg(g, n, i);
    }
    assert Ranked(h, rank');
  }

  lemma ReadyAfterPhi(g: Graph, mem: set<Id>, t: Id, x: Id, p: Path)
    requires WellFormed(g, mem) && TrivialPhi(g, t, x) && Walk(g, p) && Visits(p, Arg(g, t, 0))
    ensures Ready(g, p, x)
  {
    if p.node == Arg(g, t, 0) {
      PhiEntry(g, mem, t, x, p);
    } else {
      ReadyAfterPhi(g, mem, t, x, p.prev);
    }
  }

  /** Replacing a phi by its only input keeps the behaviour, whatever loops the graph has. */
  lemma PhiSound(g: Graph, mem: set<Id>, t: Id, x: Id)
    requires WellFormed(g, mem) && TrivialPhi(g, t, x)
    ensures WellFormed(Replace(g, t, x), mem) && SameBehaviour(g, Replace(g, t, x))
  {
    assert SlotOk(g, t, 0);
    assert SlotOk(g, t, 1);
    NoSelf(g, mem, t, x);
    RewriteAcyclic(g, mem, t, x);
    forall p | Walk(g, p) && Ready(g, p, t)
      ensures Ready(g, p, x)
    {
      assert t in Deps(g, t);
      ReadyAfterPhi(g, mem, t, x, p);
    }
    forall M, p, n, j, d | Walk(g, p) && Edge(g, At(g, p), n, j) && Demands(g, n, j, d) &&
      (Is(g, t, Phi) ==> t in Deps(g, d))
      ensures Alike({}, t, Eval(g, M, EnvAt(g, M, p), t), Eval(g, M, EnvAt(g, M, p), x))
    {
      UsedValue(g, mem, t, x, M, p, n, j, d);
    }
    assert Interchangeable(g, {}, t, x);
    ReplaceSound(g, mem, {}, t, x);
  }
}
