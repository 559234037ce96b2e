/** The three local rewrites of the optimizer, and why they are right. */
module Peephole {
  import opened Machines
  import opened Graphs
  import opened Rewrites
  import opened PhiRewrite

  /** The non-null inputs from slot `from` on are all `x`, and there is one. */
  predicate OnlyInput(ins: seq<Id>, from: nat, x: Id) {
    x != 0 && (exists i :: from <= i < |ins| && ins[i] == x) &&
    forall i :: from <= i < |ins| ==> ins[i] == 0 || ins[i] == x
  }

  /** The rewrite rules: node `n` is to be replaced by `x`. */
  predicate Becomes(g: Graph, n: Id, x: Id) {
    n in g.nodes && x != n &&
    match g.nodes[n].kind
    case Phi => OnlyInput(g.nodes[n].ins, 1, x)
    case Region => !HasPhi(g, n) && OnlyInput(g.nodes[n].ins, 0, x)
    case Load => Is(g, Arg(g, n, 1), Store) && Arg(g, Arg(g, n, 1), 2) == Arg(g, n, 2) && x == Arg(g, Arg(g, n, 1), 3)
    case _ => false
  }

  ghost predicate Stable(g: Graph, n: Id) {
    forall x :: !Becomes(g, n, x)
  }

  // ----- load of a value just stored -----

  lemma LoadOperands(g: Graph, n: Id, x: Id)
    requires Shape(g) && Acyclic(g) && Is(g, n, Load) && Becomes(g, n, x)
    ensures x in g.nodes && x != g.end && !IsControl(g, x) && RankOf(g)[x] < RankOf(g)[n]
    ensures Deps(g, x) <= Deps(g, n) && n !in Deps(g, x)
  {
    var m := Arg(g, n, 1);
    assert SlotOk(g, n, 1) && SlotOk(g, m, 3);
    assert Operand(Store, 3) && Operand(Load, 1);
    assert RankOf(g)[x] < RankOf(g)[m] < RankOf(g)[n];
    assert Deps(g, x) == DepsArg(g, m, 3) <= Deps(g, m) == DepsArg(g, n, 1) <= Deps(g, n);
    if n in Deps(g, x) {
      DepsArePhis(g, x, n);
    }
  }

  lemma LoadAcyclic(g: Graph, n: Id, x: Id)
    requires Shape(g) && Acyclic(g) && n in g.nodes && x in g.nodes && x != n && RankOf(g)[x] < RankOf(g)[n]
    ensures Acyclic(Replace(g, n, x))
  {
    hide Shape, Acyclic;
    assert Ranked(Replace(g, n, x), RankOf(g));
    RankedAcyclic(Replace(g, n, x), RankOf(g));
  }

  lemma RankedAcyclic(g: Graph, rank: map<Id, nat>)
    requires Ranked(g, rank)
    ensures Acyclic(g)
  {}

  lemma LoadInterchangeable(g: Graph, n: Id, x: Id)
    requires Shape(g) && Acyclic(g) && Is(g, n, Load) && Becomes(g, n, x)
    requires Deps(g, x) <= Deps(g, n) && n !in Deps(g, x)
    ensures Interchangeable(g, {}, n, x)
  {
    hide Shape, Acyclic, Becomes, Eval, Deps, Is, Arg;
    forall M, p, c, j, d | Walk(g, p) && Edge(g, At(g, p), c, j) && Demands(g, c, j, d)
      ensures Alike({}, n, Eval(g, M, EnvAt(g, M, p), n), Eval(g, M, EnvAt(g, M, p), x))
    {
      LoadBecomes(g, n, x);
      LoadForwards(g, M, EnvAt(g, M, p), n);
    }
  }

  lemma LoadBecomes(g: Graph, n: Id, x: Id)
    requires Is(g, n, Load) && Becomes(g, n, x)
    ensures Is(g, Arg(g, n, 1), Store) && Arg(g, Arg(g, n, 1), 2) == Arg(g, n, 2) && x == Arg(g, Arg(g, n, 1), 3)
  {}

  lemma LoadReplaceable(g: Graph, mem: set<Id>, n: Id, x: Id)
    requires Shape(g) && MemTyped(g, mem) && Is(g, n, Load) && Becomes(g, n, x)
    ensures Replaceable(g, mem, n, x) && !IsControl(g, n)
  {
    var m := Arg(g, n, 1);
    assert SlotOk(g, n, 1) && SlotOk(g, m, 3);
  }

  lemma NoneLoose(g: Graph, mem: set<Id>)
    ensures Loose(g, mem, {})
  {}

  lemma LoadSound(g: Graph, mem: set<Id>, n: Id, x: Id)
    requires WellFormed(g, mem) && Is(g, n, Load) && Becomes(g, n, x)
    ensures WellFormed(Replace(g, n, x), mem) && SameBehaviour(g, Replace(g, n, x))
  {
    hide Shape, MemTyped, Acyclic, Strict, AllReached, AllLeave, Becomes, Interchangeable, Replaceable, Loose, Deps;
    LoadOperands(g, n, x);
    LoadReplaceable(g, mem, n, x);
    DifferentId(g, mem, n, x);
    LoadAcyclic(g, n, x);
    LoadInterchangeable(g, n, x);
    NoneLoose(g, mem);
    ReplaceSound(g, mem, {}, n, x);
  }

  lemma DifferentId(g: Graph, mem: set<Id>, n: Id, x: Id)
    requires Replaceable(g, mem, n, x)
    ensures n != x
  {}

  lemma LoadForwards(g: Graph, M: Machine, env: Env, n: Id)
    requires Shape(g) && Acyclic(g) && Is(g, n, Load) && Is(g, Arg(g, n, 1), Store)
    requires Arg(g, Arg(g, n, 1), 2) == Arg(g, n, 2)
    ensures Eval(g, M, env, n) == Eval(g, M, env, Arg(g, Arg(g, n, 1), 3))
  {
    var m := Arg(g, n, 1);
    var w := Eval(g, M, env, m);
    assert w == MemV(Written(AsMemory(EvalArg(g, M, env, m, 1)), EvalArg(g, M, env, m, 2), EvalArg(g, M, env, m, 3)));
    assert Eval(g, M, env, n) == Lookup(M, AsMemory(EvalArg(g, M, env, n, 1)), EvalArg(g, M, env, n, 2));
  }

  // ----- region with one predecessor -----

  /** The walk with its visits to `t` cut out. */
  function Cut(p: Path, t: Id): Path {
    if p.Origin? then p else if p.node == t then Cut(p.prev, t) else Go(Cut(p.prev, t), p.node, p.slot)
  }

  ghost predicate RegionSetting(g: Graph, mem: set<Id>, t: Id, s: Id) {
    Shape(g) && MemTyped(g, mem) && Acyclic(g) && Is(g, t, Region) && Becomes(g, t, s)
  }

  lemma RegionAcyclic(g: Graph, mem: set<Id>, t: Id, s: Id)
    requires RegionSetting(g, mem, t, s)
    ensures Acyclic(g)
  {}

  lemma RegionShape(g: Graph, mem: set<Id>, t: Id, s: Id)
    requires RegionSetting(g, mem, t, s)
    ensures Replaceable(g, mem, t, s) && IsControl(g, s) && (forall c, j :: Edge(g, c, t, j) ==> c == s)
    ensures forall p :: p in g.nodes && g.nodes[p].kind == Phi ==> Arg(g, p, 0) != t
    ensures exists j :: Edge(g, s, t, j)
    ensures Ranked(Replace(g, t, s), RankOf(g))
  {
    var i :| 0 <= i < |g.nodes[t].ins| && g.nodes[t].ins[i] == s;
    assert SlotOk(g, t, i);
    assert Edge(g, s, t, i);
    forall c, j: nat | Edge(g, c, t, j)
      ensures c == s
    {
      assert SlotOk(g, t, j);
    }
    forall p | p in g.nodes && g.nodes[p].kind == Phi
      ensures Arg(g, p, 0) != t
    {
      assert SlotOk(g, p, 0);
      assert Arity(Phi, |g.nodes[p].ins|);
    }
    forall n, i | n in g.nodes && 0 <= i < |g.nodes[n].ins| && Operand(g.nodes[n].kind, i)
      ensures g.nodes[n].ins[i] != t
    {
      assert SlotOk(g, n, i);
    }
  }

  lemma RegionEval(g: Graph, mem: set<Id>, t: Id, s: Id, M: Machine, env: Env, n: Id)
    requires RegionSetting(g, mem, t, s) && Acyclic(Replace(g, t, s)) && n != t
    ensures Eval(Replace(g, t, s), M, env, n) == Eval(g, M, env, n) && Deps(Replace(g, t, s), n) == Deps(g, n)
    decreases if n in g.nodes then RankOf(g)[n] else 0
  {
    var h := Replace(g, t, s);
    if n in g.nodes && g.nodes[n].kind != Phi {
      forall i | 0 <= i < 4
        ensures EvalArg(h, M, env, n, i) == EvalArg(g, M, env, n, i) && DepsArg(h, n, i) == DepsArg(g, n, i)
      {
        if i < |g.nodes[n].ins| && Operand(g.nodes[n].kind, i) {
          assert SlotOk(g, n, i);
          RegionEval(g, mem, t, s, M, env, g.nodes[n].ins[i]);
        }
      }
    }
  }

  /** A step in `g` to a node other than `t` is a step in the new graph, from `s` if it came from `t`. */
  lemma RegionEdge(g: Graph, mem: set<Id>, t: Id, s: Id, c: Id, n: Id, j: nat)
    requires RegionSetting(g, mem, t, s) && n != t && c != t
    ensures Edge(Replace(g, t, s), c, n, j) <==> Edge(g, c, n, j) || (c == s && Edge(g, t, n, j))
  {
    if n in g.nodes && j < |g.nodes[n].ins| {
      assert SlotOk(g, n, j);
    }
  }

  lemma RegionArgs(g: Graph, mem: set<Id>, t: Id, s: Id, n: Id, i: nat)
    requires RegionSetting(g, mem, t, s) && n in g.nodes && n != t
    requires i < |g.nodes[n].ins|
    requires ControlSlot(g.nodes[n].kind, i) ==> Is(g, n, Phi) || Is(g, n, BranchTrue) || Is(g, n, BranchFalse)
    ensures Arg(Replace(g, t, s), n, i) == Arg(g, n, i) != t
  {
    assert SlotOk(g, n, i);
    RegionShape(g, mem, t, s);
  }

  lemma RegionDemands(g: Graph, mem: set<Id>, t: Id, s: Id, n: Id, j: nat, d: Id)
    requires RegionSetting(g, mem, t, s) && n != t && IsControl(g, n) && j < |g.nodes[n].ins|
    requires Demands(Replace(g, t, s), n, j, d)
    ensures Demands(g, n, j, d) && d != t
  {
    var h := Replace(g, t, s);
    if Is(g, n, Region) {
      var p :| p in h.nodes && PhiOf(h, p, n) && d == Arg(h, p, j + 1);
      RegionArgs(g, mem, t, s, p, 0);
      assert SlotOk(g, p, 0) && PhiOf(g, p, n);
      RegionArgs(g, mem, t, s, p, j + 1);
    } else if Is(g, n, End) {
      RegionArgs(g, mem, t, s, n, 1);
      RegionArgs(g, mem, t, s, n, 2);
    } else {
      assert SlotOk(g, n, 0);
      RegionArgs(g, mem, t, s, n, 0);
      RegionArgs(g, mem, t, s, Arg(g, n, 0), 1);
    }
  }

  lemma RegionPhi(g: Graph, mem: set<Id>, t: Id, s: Id, M: Machine, env: Env, n: Id, j: nat, q: Id)
    requires RegionSetting(g, mem, t, s) && Acyclic(Replace(g, t, s)) && Is(g, n, Region) && n != t
    requires j < |g.nodes[n].ins|
    requires Is(g, q, Phi)
    ensures PhiOf(Replace(g, t, s), q, n) <==> PhiOf(g, q, n)
    ensures PhiOf(g, q, n) ==>
      Eval(Replace(g, t, s), M, env, Arg(Replace(g, t, s), q, j + 1)) == Eval(g, M, env, Arg(g, q, j + 1))
  {
    assert Arity(Phi, |g.nodes[q].ins|);
    RegionArgs(g, mem, t, s, q, 0);
    if PhiOf(g, q, n) {
      assert SlotOk(g, q, 0);
      RegionArgs(g, mem, t, s, q, j + 1);
      RegionEval(g, mem, t, s, M, env, Arg(g, q, j + 1));
    }
  }

  lemma RegionEnvStep(g: Graph, mem: set<Id>, t: Id, s: Id, M: Machine, env: Env, n: Id, j: nat)
    requires RegionSetting(g, mem, t, s) && Acyclic(Replace(g, t, s)) && Is(g, n, Region) && n != t
    requires j < |g.nodes[n].ins|
    ensures Enter(Replace(g, t, s), M, env, n, j) == Enter(g, M, env, n, j)
  {
    forall q | Is(g, q, Phi)
      ensures SamePhi(g, t, s, M, env, n, j, q)
    {
      RegionPhi(g, mem, t, s, M, env, n, j, q);
    }
    SamePhis(g, t, s, M, env, n, j);
  }

  ghost predicate SamePhi(g: Graph, t: Id, s: Id, M: Machine, env: Env, n: Id, j: nat, q: Id)
    requires Acyclic(g) && Acyclic(Replace(g, t, s))
  {
    var h := Replace(g, t, s);
    (PhiOf(h, q, n) <==> PhiOf(g, q, n)) &&
    (PhiOf(g, q, n) ==> Eval(h, M, env, Arg(h, q, j + 1)) == Eval(g, M, env, Arg(g, q, j + 1)))
  }

  lemma SamePhis(g: Graph, t: Id, s: Id, M: Machine, env: Env, n: Id, j: nat)
    requires Acyclic(g) && Acyclic(Replace(g, t, s))
    requires forall q :: Is(g, q, Phi) ==> SamePhi(g, t, s, M, env, n, j, q)
    requires forall q :: Is(Replace(g, t, s), q, Phi) <==> Is(g, q, Phi)
    ensures Enter(Replace(g, t, s), M, env, n, j) == Enter(g, M, env, n, j)
  {
    hide Eval, Acyclic, Replace;
    forall q | PhiOf(g, q, n) || PhiOf(Replace(g, t, s), q, n)
      ensures PhiOf(Replace(g, t, s), q, n) && PhiOf(g, q, n)
    {
      assert SamePhi(g, t, s, M, env, n, j, q);
    }
    assert PhiValues(Replace(g, t, s), M, env, n, j) == PhiValues(g, M, env, n, j);
  }

  lemma RegionSelfEnter(g: Graph, mem: set<Id>, t: Id, s: Id, M: Machine, env: Env, j: nat)
    requires RegionSetting(g, mem, t, s)
    ensures Enter(g, M, env, t, j) == env
  {
    RegionShape(g, mem, t, s);
    assert PhiValues(g, M, env, t, j) == map[];
  }

  lemma RegionShown(g: Graph, mem: set<Id>, t: Id, s: Id, M: Machine, env: Env, n: Id)
    requires RegionSetting(g, mem, t, s) && Acyclic(Replace(g, t, s)) && IsControl(g, n) && n != t
    ensures Shown(Replace(g, t, s), M, env, n) == Shown(g, M, env, n)
  {
    var h := Replace(g, t, s);
    if Is(g, n, End) {
      RegionArgs(g, mem, t, s, n, 1);
      RegionArgs(g, mem, t, s, n, 2);
      RegionEval(g, mem, t, s, M, env, Arg(g, n, 1));
      RegionEval(g, mem, t, s, M, env, Arg(g, n, 2));
    } else if Is(g, n, BranchTrue) || Is(g, n, BranchFalse) {
      assert SlotOk(g, n, 0);
      RegionArgs(g, mem, t, s, n, 0);
      RegionArgs(g, mem, t, s, Arg(g, n, 0), 1);
      RegionEval(g, mem, t, s, M, env, Arg(g, Arg(g, n, 0), 1));
    }
  }

  /** Cutting `t` out of a walk of `g` gives a walk of the new graph with the same events. */
  /** Leaving the region out, `p` goes through the same environments and shows the same. */
  ghost predicate CutHolds(g: Graph, t: Id, s: Id, M: Machine, p: Path)
    requires Acyclic(g) && Acyclic(Replace(g, t, s))
  {
    var h, q := Replace(g, t, s), Cut(p, t);
    Walk(h, q) && At(g, q) == (if At(g, p) == t then s else At(g, p)) &&
    EnvAt(h, M, q) == EnvAt(g, M, p) && Events(h, M, q) == Events(g, M, p)
  }

  lemma CutAtRegion(g: Graph, mem: set<Id>, t: Id, s: Id, M: Machine, p: Path)
    requires RegionSetting(g, mem, t, s) && Acyclic(Replace(g, t, s)) && Walk(g, p) && p.Go? && p.node == t
    requires CutHolds(g, t, s, M, p.prev)
    ensures CutHolds(g, t, s, M, p)
  {
    RegionShape(g, mem, t, s);
    RegionSelfEnter(g, mem, t, s, M, EnvAt(g, M, p.prev), p.slot);
    hide Acyclic, RegionSetting, Eval, Enter;
    assert Shown(g, M, EnvAt(g, M, p.prev), t) == [];
  }

  lemma CutElsewhere(g: Graph, mem: set<Id>, t: Id, s: Id, M: Machine, p: Path)
    requires RegionSetting(g, mem, t, s) && Acyclic(Replace(g, t, s)) && Walk(g, p) && p.Go? && p.node != t
    requires CutHolds(g, t, s, M, p.prev)
    ensures CutHolds(g, t, s, M, p)
  {
    CutWalks(g, mem, t, s, M, p);
    RegionShown(g, mem, t, s, M, EnvAt(g, M, p.prev), p.node);
    CutEnv(g, mem, t, s, M, p);
    hide Acyclic, RegionSetting, Eval, EnvAt, Shown, Walk;
  }

  lemma CutWalks(g: Graph, mem: set<Id>, t: Id, s: Id, M: Machine, p: Path)
    requires RegionSetting(g, mem, t, s) && Acyclic(Replace(g, t, s)) && Walk(g, p) && p.Go? && p.node != t
    requires CutHolds(g, t, s, M, p.prev)
    ensures Walk(Replace(g, t, s), Cut(p, t)) && At(g, Cut(p, t)) == At(g, p)
  {
    hide Acyclic, Eval, EnvAt, Events;
    var c := At(g, p.prev);
    RegionShape(g, mem, t, s);
    RegionEdge(g, mem, t, s, if c == t then s else c, p.node, p.slot);
    hide RegionSetting;
  }

  lemma CutEnv(g: Graph, mem: set<Id>, t: Id, s: Id, M: Machine, p: Path)
    requires RegionSetting(g, mem, t, s) && Acyclic(Replace(g, t, s)) && Walk(g, p) && p.Go? && p.node != t
    requires CutHolds(g, t, s, M, p.prev)
    ensures EnvAt(Replace(g, t, s), M, Cut(p, t)) == EnvAt(g, M, p)
  {
    hide *;
    var h := Replace(g, t, s);
    RegionAcyclic(g, mem, t, s);
    CutIs(g, t, s, M, p);
    EnvStep(g, M, p);
    EnvStep(h, M, Cut(p, t));
    SameRegion(g, t, s, p.node);
    if Is(g, p.node, Region) {
      WalkStep(g, p);
      RegionEnvStep(g, mem, t, s, M, EnvAt(g, M, p.prev), p.node, p.slot);
    }
  }

  lemma EnvStep(g: Graph, M: Machine, p: Path)
    requires Acyclic(g) && p.Go?
    ensures EnvAt(g, M, p) ==
      if Is(g, p.node, Region) then Enter(g, M, EnvAt(g, M, p.prev), p.node, p.slot) else EnvAt(g, M, p.prev)
  {}

  lemma CutIs(g: Graph, t: Id, s: Id, M: Machine, p: Path)
    requires Acyclic(g) && Acyclic(Replace(g, t, s)) && p.Go? && p.node != t && CutHolds(g, t, s, M, p.prev)
    ensures Cut(p, t) == Go(Cut(p.prev, t), p.node, p.slot)
    ensures EnvAt(Replace(g, t, s), M, Cut(p.prev, t)) == EnvAt(g, M, p.prev)
  {}

  lemma SameRegion(g: Graph, t: Id, s: Id, n: Id)
    requires n != t
    ensures Is(Replace(g, t, s), n, Region) <==> Is(g, n, Region)
  {}

  lemma CutSound(g: Graph, mem: set<Id>, t: Id, s: Id, M: Machine, p: Path)
    requires RegionSetting(g, mem, t, s) && Acyclic(Replace(g, t, s)) && Walk(g, p)
    ensures CutHolds(g, t, s, M, p)
  {
    if p.Go? {
      CutSound(g, mem, t, s, M, p.prev);
      hide CutHolds;
      if p.node == t {
        CutAtRegion(g, mem, t, s, M, p);
      } else {
        CutElsewhere(g, mem, t, s, M, p);
      }
    }
  }

  /** Every walk of the new graph is a walk of `g` with its visits to `t` cut out. */
  lemma Uncut(g: Graph, mem: set<Id>, t: Id, s: Id, p: Path) returns (q: Path)
    requires RegionSetting(g, mem, t, s) && Walk(Replace(g, t, s), p)
    ensures Walk(g, q) && Cut(q, t) == p && At(g, q) == At(g, p) != t
  {
    RegionShape(g, mem, t, s);
    if p.Origin? {
      q := p;
    } else {
      var c := At(g, p.prev);
      q := Uncut(g, mem, t, s, p.prev);
      RegionEdge(g, mem, t, s, c, p.node, p.slot);
      if !Edge(g, c, p.node, p.slot) {
        var j :| Edge(g, s, t, j);
        q := Go(q, t, j);
      }
      q := Go(q, p.node, p.slot);
    }
  }

  lemma CutVisits(p: Path, t: Id, r: Id)
    requires r != t
    ensures Visits(Cut(p, t), r) <==> Visits(p, r)
  {}

  lemma RegionStrict(g: Graph, mem: set<Id>, t: Id, s: Id)
    requires WellFormed(g, mem) && RegionSetting(g, mem, t, s) && Acyclic(Replace(g, t, s))
    ensures Strict(Replace(g, t, s)) && AllReached(Replace(g, t, s))
  {
    var h := Replace(g, t, s);
    forall p, n, j, d | Walk(h, p) && Edge(h, At(h, p), n, j) && Demands(h, n, j, d)
      ensures Ready(h, p, d)
    {
      RegionReady(g, mem, t, s, p, n, j, d);
    }
    forall c | IsControl(h, c)
      ensures Arrives(h, c)
    {
      assert IsControl(g, c) && Arrives(g, c);
      var p :| Walk(g, p) && At(g, p) == c;
      CutSound(g, mem, t, s, Machine((o, a, b) => 0, a => false, a => 0), p);
    }
  }

  lemma RegionReady(g: Graph, mem: set<Id>, t: Id, s: Id, p: Path, n: Id, j: nat, d: Id)
    requires WellFormed(g, mem) && RegionSetting(g, mem, t, s) && Acyclic(Replace(g, t, s))
    requires Walk(Replace(g, t, s), p) && Edge(Replace(g, t, s), At(g, p), n, j) && Demands(Replace(g, t, s), n, j, d)
    ensures Ready(Replace(g, t, s), p, d)
  {
    var h := Replace(g, t, s);
    var q := Uncut(g, mem, t, s, Go(p, n, j));
    RegionDemands(g, mem, t, s, n, j, d);
    assert Ready(g, q.prev, d);
    RegionEval(g, mem, t, s, Machine((o, a, b) => 0, a => false, a => 0), map[], d);
    forall f | f in Deps(h, d)
      ensures Visits(p, Arg(h, f, 0))
    {
      DepsArePhis(g, d, f);
      assert Arity(Phi, |g.nodes[f].ins|);
      RegionArgs(g, mem, t, s, f, 0);
      CutVisits(q.prev, t, Arg(g, f, 0));
    }
  }

  /** Replacing a region that has one predecessor and no phis keeps the behaviour. */
  lemma RegionSound(g: Graph, mem: set<Id>, t: Id, s: Id)
    requires WellFormed(g, mem) && RegionSetting(g, mem, t, s)
    ensures WellFormed(Replace(g, t, s), mem) && SameBehaviour(g, Replace(g, t, s))
  {
    var h := Replace(g, t, s);
    RegionShape(g, mem, t, s);
    ReplaceShape(g, mem, t, s);
    ReplaceLeaves(g, mem, t, s);
    RegionStrict(g, mem, t, s);
    forall M, events
      ensures Behaves(g, M, events) <==> Behaves(h, M, events)
    {
      if Behaves(g, M, events) {
        var p :| Walk(g, p) && Events(g, M, p) == events;
        CutSound(g, mem, t, s, M, p);
      }
      if Behaves(h, M, events) {
        var p :| Walk(h, p) && Events(h, M, p) == events;
        var q := Uncut(g, mem, t, s, p);
        CutSound(g, mem, t, s, M, q);
      }
    }
  }

  /** Each local rewrite of a well-formed graph keeps its behaviour and its well-formedness. */
  lemma PeepSound(g: Graph, mem: set<Id>, n: Id, x: Id)
    requires WellFormed(g, mem) && Becomes(g, n, x)
    ensures WellFormed(Replace(g, n, x), mem) && SameBehaviour(g, Replace(g, n, x))
  {
    match g.nodes[n].kind
    case Phi =>
      forall i | 1 <= i < |g.nodes[n].ins|
        ensures g.nodes[n].ins[i] == x && x in g.nodes
      {
        assert SlotOk(g, n, i);
      }
      PhiSound(g, mem, n, x);
    case Region => RegionSound(g, mem, n, x);
    case Load => LoadSound(g, mem, n, x);
  }
}
