/** Changing a graph: redirecting all uses of one node to another, and forgetting nodes. */
module Rewrites {
  import opened Machines
  import opened Graphs

  function Subst(ins: seq<Id>, t: Id, s: Id): (r: seq<Id>)
    ensures |r| == |ins|
    ensures forall i :: 0 <= i < |ins| ==> r[i] == if ins[i] == t then s else ins[i]
  {
    seq(|ins|, i requires 0 <= i < |ins| => if ins[i] == t then s else ins[i])
  }

  /** `g` with every use of `t` redirected to `s`, and without `t`. */
  function Replace(g: Graph, t: Id, s: Id): (h: Graph) {
    Graph(map n | n in g.nodes && n != t :: Vertex(g.nodes[n].kind, Subst(g.nodes[n].ins, t, s), g.nodes[n].value),
          g.start, g.end)
  }

  /** `g` with the nodes of `K` only. */
  function Keep(g: Graph, K: set<Id>): Graph {
    Graph(map n | n in g.nodes && n in K :: g.nodes[n], g.start, g.end)
  }

  /** Every input of a node of `K` is in `K`, and so is END. */
  predicate InputClosed(g: Graph, K: set<Id>) {
    g.end in K && forall n, i :: n in K && n in g.nodes && 0 <= i < |g.nodes[n].ins| && g.nodes[n].ins[i] != 0 ==>
      g.nodes[n].ins[i] in K
  }

  predicate HasPhi(g: Graph, r: Id) {
    exists p, i :: p in g.nodes && g.nodes[p].kind == Phi && 0 <= i < |g.nodes[p].ins| && g.nodes[p].ins[i] == r
  }

  predicate Replaceable(g: Graph, mem: set<Id>, t: Id, s: Id) {
    t in g.nodes && s in g.nodes && t != s && s != g.end && g.nodes[t].kind !in {Branch, Start, End} &&
    (IsControl(g, t) <==> IsControl(g, s)) && (g.nodes[t].kind == Region ==> !HasPhi(g, t)) &&
    (t in mem <==> s in mem)
  }

  lemma ReplaceShape(g: Graph, mem: set<Id>, t: Id, s: Id)
    requires Shape(g) && MemTyped(g, mem) && Replaceable(g, mem, t, s)
    ensures Shape(Replace(g, t, s)) && MemTyped(Replace(g, t, s), mem)
  {
    var h := Replace(g, t, s);
    forall n, i | n in h.nodes && 0 <= i < |h.nodes[n].ins|
      ensures SlotOk(h, n, i)
      ensures !ControlSlot(h.nodes[n].kind, i) && h.nodes[n].ins[i] != 0 ==>
        (h.nodes[n].ins[i] in mem <==> if h.nodes[n].kind == Phi then n in mem else MemSlot(h.nodes[n].kind, i))
    {
      assert SlotOk(g, n, i);
    }
  }

  /** What a set closed in the new graph is in the old one. */
  function WithTarget(t: Id, s: Id, K: set<Id>): set<Id> {
    if s in K then K + {t} else K - {t}
  }

  lemma ClosedBefore(g: Graph, t: Id, s: Id, K: set<Id>)
    requires t != g.end && ControlClosed(Replace(g, t, s), K) && forall c, j :: Edge(g, c, t, j) ==> c == s
    ensures ControlClosed(g, WithTarget(t, s, K))
  {
    var h, K' := Replace(g, t, s), WithTarget(t, s, K);
    forall c, n, j | n in K' && Edge(g, c, n, j)
      ensures c in K'
    {
      if n != t {
        ReplacedEdge(g, t, s, c, n, j);
        assert Edge(h, if c == t then s else c, n, j);
      }
    }
  }

  lemma LeftBefore(g: Graph, t: Id, s: Id, K: set<Id>)
    requires AllLeave(g) && ControlClosed(g, WithTarget(t, s, K))
    ensures forall c :: IsControl(Replace(g, t, s), c) ==> c in K
  {
    hide ControlClosed;
    forall c | IsControl(Replace(g, t, s), c)
      ensures c in K
    {
      assert IsControl(g, c) && c != t;
      assert c in WithTarget(t, s, K);
    }
  }

  lemma ReplaceLeaves(g: Graph, mem: set<Id>, t: Id, s: Id)
    requires Shape(g) && AllLeave(g) && Replaceable(g, mem, t, s)
    requires forall c, j :: Edge(g, c, t, j) ==> c == s
    ensures AllLeave(Replace(g, t, s))
  {
    var h := Replace(g, t, s);
    forall K | ControlClosed(h, K)
      ensures forall c :: IsControl(h, c) ==> c in K
    {
      ClosedBefore(g, t, s, K);
      LeftBefore(g, t, s, K);
    }
  }

  lemma ReplacedEdge(g: Graph, t: Id, s: Id, c: Id, n: Id, j: nat)
    requires Edge(g, c, n, j) && n != t
    ensures Edge(Replace(g, t, s), if c == t then s else c, n, j)
  {}

  // ----- transformations that leave the control edges alone -----

  ghost predicate SameControl(g: Graph, h: Graph) {
    g.start == h.start && g.end == h.end &&
    (forall n :: IsControl(g, n) <==> IsControl(h, n)) &&
    (forall n :: IsControl(g, n) ==> g.nodes[n].kind == h.nodes[n].kind) &&
    (forall c, n, j :: Edge(g, c, n, j) <==> Edge(h, c, n, j))
  }

  lemma SameWalks(g: Graph, h: Graph, p: Path)
    requires SameControl(g, h)
    ensures Walk(g, p) <==> Walk(h, p)
  {}

  lemma SameControlKeeps(g: Graph, h: Graph)
    requires SameControl(g, h)
    ensures AllReached(g) ==> AllReached(h)
    ensures AllLeave(g) ==> AllLeave(h)
  {
    if AllReached(g) {
      forall c | IsControl(h, c)
        ensures Arrives(h, c)
      {
        var p :| Walk(g, p) && At(g, p) == c;
        SameWalks(g, h, p);
      }
    }
    if AllLeave(g) {
      forall K | ControlClosed(h, K)
        ensures forall c :: IsControl(h, c) ==> c in K
      {
        assert ControlClosed(g, K);
      }
    }
  }

  lemma SameEventsSameBehaviour(g: Graph, h: Graph)
    requires Acyclic(g) && Acyclic(h) && SameControl(g, h)
    requires forall M, p :: Walk(g, p) ==> Events(g, M, p) == Events(h, M, p)
    ensures SameBehaviour(g, h)
  {
    forall M, events
      ensures Behaves(g, M, events) <==> Behaves(h, M, events)
    {
      if Behaves(g, M, events) {
        var p :| Walk(g, p) && Events(g, M, p) == events;
        SameWalks(g, h, p);
        assert Events(h, M, p) == events;
      }
      if Behaves(h, M, events) {
        var p :| Walk(h, p) && Events(h, M, p) == events;
        SameWalks(g, h, p);
        assert Events(g, M, p) == events;
      }
    }
  }

  lemma DataReplaceControl(g: Graph, mem: set<Id>, t: Id, s: Id)
    requires Shape(g) && Replaceable(g, mem, t, s) && !IsControl(g, t)
    ensures SameControl(g, Replace(g, t, s))
  {
    var h := Replace(g, t, s);
    forall c, n, j: nat
      ensures Edge(g, c, n, j) <==> Edge(h, c, n, j)
    {
      if IsControl(g, n) && j < |g.nodes[n].ins| {
        assert SlotOk(g, n, j);
      }
    }
  }

  // ----- forgetting nodes -----

  lemma KeepEval(g: Graph, K: set<Id>, M: Machine, env: Env, env': Env, n: Id)
    requires Shape(g) && Acyclic(g) && InputClosed(g, K) && Acyclic(Keep(g, K)) && n in K
    requires forall q :: q in K && Is(g, q, Phi) ==> Get(env, q) == Get(env', q)
    ensures Eval(Keep(g, K), M, env', n) == Eval(g, M, env, n)
    ensures Deps(Keep(g, K), n) == Deps(g, n) && Deps(g, n) <= K
    decreases if n in g.nodes then RankOf(g)[n] else 0
  {
    if n in g.nodes && g.nodes[n].kind != Phi {
      forall i | 0 <= i < 4
        ensures EvalArg(Keep(g, K), M, env', n, i) == EvalArg(g, M, env, n, i)
        ensures DepsArg(Keep(g, K), n, i) == DepsArg(g, n, i) && DepsArg(g, n, i) <= K
      {
        if i < |g.nodes[n].ins| && Operand(g.nodes[n].kind, i) {
          assert SlotOk(g, n, i);
          KeepEval(g, K, M, env, env', g.nodes[n].ins[i]);
        }
      }
    }
  }

  lemma KeepControl(g: Graph, mem: set<Id>, K: set<Id>)
    requires Shape(g) && MemTyped(g, mem) && Acyclic(g) && AllLeave(g) && InputClosed(g, K)
    ensures Shape(Keep(g, K)) && MemTyped(Keep(g, K), mem) && Acyclic(Keep(g, K)) && SameControl(g, Keep(g, K))
  {
    var h := Keep(g, K);
    assert ControlClosed(g, K) by {
      forall c, n, j | n in K && Edge(g, c, n, j)
        ensures c in K
      {
        assert SlotOk(g, n, j);
      }
    }
    assert forall c :: IsControl(g, c) ==> c in K;
    assert IsControl(g, g.start);
    forall n, i | n in h.nodes && 0 <= i < |h.nodes[n].ins|
      ensures SlotOk(h, n, i)
    {
      assert SlotOk(g, n, i);
    }
    forall n, i | n in h.nodes && 0 <= i < |h.nodes[n].ins| && Operand(h.nodes[n].kind, i)
      ensures h.nodes[n].ins[i] in h.nodes && RankOf(g)[h.nodes[n].ins[i]] < RankOf(g)[n]
    {
      assert SlotOk(g, n, i);
    }
    assert Ranked(h, RankOf(g));
  }

  lemma GetStep(g: Graph, M: Machine, p: Path, q: Id)
    requires Acyclic(g) && p.Go?
    ensures Get(EnvAt(g, M, p), q) ==
      if Is(g, p.node, Region) && PhiOf(g, q, p.node) then Eval(g, M, EnvAt(g, M, p.prev), Arg(g, q, p.slot + 1))
      else Get(EnvAt(g, M, p.prev), q)
  {}

  /** `START` is an input of an input of ... of END. */
  ghost predicate StartPinned(h: Graph) {
    forall K :: InputClosed(h, K) ==> h.start in K
  }

  lemma StartIsPinned(h: Graph, mem: set<Id>)
    requires WellFormed(h, mem)
    ensures StartPinned(h)
  {
    forall K | InputClosed(h, K)
      ensures h.start in K
    {
      KeepControl(h, mem, K);
    }
  }

  lemma KeepEnv(g: Graph, K: set<Id>, M: Machine, p: Path)
    requires Shape(g) && Acyclic(g) && InputClosed(g, K) && Acyclic(Keep(g, K))
    requires SameControl(g, Keep(g, K)) && Walk(g, p)
    ensures forall q :: q in K && Is(g, q, Phi) ==> Get(EnvAt(g, M, p), q) == Get(EnvAt(Keep(g, K), M, p), q)
  {
    if p.Go? {
      KeepEnv(g, K, M, p.prev);
      forall q | q in K && Is(g, q, Phi)
        ensures Get(EnvAt(g, M, p), q) == Get(EnvAt(Keep(g, K), M, p), q)
      {
        KeepEnvStep(g, K, M, p, q);
      }
    }
  }

  lemma KeepEnvStep(g: Graph, K: set<Id>, M: Machine, p: Path, q: Id)
    requires Shape(g) && Acyclic(g) && InputClosed(g, K) && Acyclic(Keep(g, K)) && SameControl(g, Keep(g, K))
    requires p.Go? && Walk(g, p) && q in K && Is(g, q, Phi)
    requires forall q :: q in K && Is(g, q, Phi) ==> Get(EnvAt(g, M, p.prev), q) == Get(EnvAt(Keep(g, K), M, p.prev), q)
    ensures Get(EnvAt(g, M, p), q) == Get(EnvAt(Keep(g, K), M, p), q)
  {
    var h := Keep(g, K);
    GetStep(g, M, p, q);
    GetStep(h, M, p, q);
    assert Edge(g, At(g, p.prev), p.node, p.slot) && Edge(h, At(g, p.prev), p.node, p.slot);
    if Is(g, p.node, Region) && PhiOf(g, q, p.node) {
      assert SlotOk(g, q, 0);
      assert SlotOk(g, q, p.slot + 1);
      KeepEval(g, K, M, EnvAt(g, M, p.prev), EnvAt(h, M, p.prev), Arg(g, q, p.slot + 1));
    }
  }

  lemma WalkStep(g: Graph, p: Path)
    requires p.Go? && Walk(g, p)
    ensures Walk(g, p.prev) && Edge(g, At(g, p.prev), p.node, p.slot)
    ensures IsControl(g, p.node) && p.node in g.nodes && p.slot < |g.nodes[p.node].ins|
  {}

  lemma EndShows(g: Graph, M: Machine, env: Env, n: Id)
    requires Acyclic(g) && Is(g, n, End)
    ensures Shown(g, M, env, n) == [Finished(Observed(Eval(g, M, env, Arg(g, n, 1))), Eval(g, M, env, Arg(g, n, 2)))]
  {}

  lemma BranchShows(g: Graph, M: Machine, env: Env, n: Id)
    requires Acyclic(g) && (Is(g, n, BranchTrue) || Is(g, n, BranchFalse))
    ensures Shown(g, M, env, n) == [Took(Eval(g, M, env, Arg(g, Arg(g, n, 0), 1)), g.nodes[n].kind == BranchTrue)]
  {
    hide Eval;
  }

  lemma OtherShows(g: Graph, M: Machine, env: Env, n: Id)
    requires Acyclic(g) && !Is(g, n, End) && !Is(g, n, BranchTrue) && !Is(g, n, BranchFalse)
    ensures Shown(g, M, env, n) == []
  {}

  lemma KeepShown(g: Graph, K: set<Id>, M: Machine, env: Env, env': Env, n: Id, j: nat)
    requires Shape(g) && Acyclic(g) && InputClosed(g, K) && Acyclic(Keep(g, K)) && IsControl(g, n)
    requires n in Keep(g, K).nodes && j < |g.nodes[n].ins|
    requires forall q :: q in K && Is(g, q, Phi) ==> Get(env, q) == Get(env', q)
    ensures Shown(g, M, env, n) == Shown(Keep(g, K), M, env', n)
  {
    var h := Keep(g, K);
    if Is(g, n, End) {
      EndShows(g, M, env, n);
      EndShows(h, M, env', n);
      hide Eval, Shown, Acyclic;
      DemandShape(g, n, j, Arg(g, n, 1));
      DemandShape(g, n, j, Arg(g, n, 2));
      KeepEval(g, K, M, env, env', Arg(g, n, 1));
      KeepEval(g, K, M, env, env', Arg(g, n, 2));
    } else if Is(g, n, BranchTrue) || Is(g, n, BranchFalse) {
      BranchShows(g, M, env, n);
      BranchShows(h, M, env', n);
      hide Eval, Shown, Acyclic;
      DemandShape(g, n, j, Arg(g, Arg(g, n, 0), 1));
      KeepEval(g, K, M, env, env', Arg(g, Arg(g, n, 0), 1));
    } else {
      OtherShows(g, M, env, n);
      OtherShows(h, M, env', n);
    }
  }

  lemma KeepEvents(g: Graph, K: set<Id>, M: Machine, p: Path)
    requires Shape(g) && Acyclic(g) && InputClosed(g, K) && Acyclic(Keep(g, K))
    requires SameControl(g, Keep(g, K)) && Walk(g, p)
    ensures Events(g, M, p) == Events(Keep(g, K), M, p)
  {
    if p.Go? {
      KeepEvents(g, K, M, p.prev);
      KeepEnv(g, K, M, p.prev);
      WalkStep(g, p);
      SameWalks(g, Keep(g, K), p);
      WalkStep(Keep(g, K), p);
      KeepShown(g, K, M, EnvAt(g, M, p.prev), EnvAt(Keep(g, K), M, p.prev), p.node, p.slot);
    }
  }

  /** Demanded nodes are inputs of live nodes, so they exist. */
  lemma DemandShape(g: Graph, n: Id, j: nat, d: Id)
    requires Shape(g) && Demands(g, n, j, d) && IsControl(g, n) && j < |g.nodes[n].ins|
    ensures d in g.nodes && d != 0 && !IsControl(g, d)
  {
    if Is(g, n, Region) {
      var p :| p in g.nodes && PhiOf(g, p, n) && d == Arg(g, p, j + 1);
      assert SlotOk(g, p, 0);
      assert SlotOk(g, p, j + 1);
    } else if Is(g, n, End) {
      assert SlotOk(g, n, 1) && SlotOk(g, n, 2);
    } else {
      assert SlotOk(g, n, 0);
      assert SlotOk(g, Arg(g, n, 0), 1);
    }
  }

  /** Forgetting nodes END does not depend on changes nothing. */
  lemma KeepSound(g: Graph, mem: set<Id>, K: set<Id>)
    requires WellFormed(g, mem) && InputClosed(g, K)
    ensures WellFormed(Keep(g, K), mem) && SameBehaviour(g, Keep(g, K))
  {
    var h := Keep(g, K);
    KeepControl(g, mem, K);
    SameControlKeeps(g, h);
    forall M, p | Walk(g, p)
      ensures Events(g, M, p) == Events(h, M, p)
    {
      KeepEvents(g, K, M, p);
    }
    SameEventsSameBehaviour(g, h);
    forall p, n, j, d | Walk(h, p) && Edge(h, At(h, p), n, j) && Demands(h, n, j, d)
      ensures Ready(h, p, d)
    {
      KeepReady(g, mem, K, p, n, j, d);
    }
  }

  lemma KeepReady(g: Graph, mem: set<Id>, K: set<Id>, p: Path, n: Id, j: nat, d: Id)
    requires WellFormed(g, mem) && InputClosed(g, K) && Shape(Keep(g, K)) && Acyclic(Keep(g, K))
    requires SameControl(g, Keep(g, K))
    requires Walk(Keep(g, K), p) && Edge(Keep(g, K), At(g, p), n, j) && Demands(Keep(g, K), n, j, d)
    ensures Ready(Keep(g, K), p, d)
  {
    SameWalks(g, Keep(g, K), p);
    assert Edge(g, At(g, p), n, j);
    KeepDemands(g, K, n, j, d);
    assert Ready(g, p, d);
    KeepEval(g, K, Machine((o, a, b) => 0, a => false, a => 0), map[], map[], d);
    forall q | q in Deps(Keep(g, K), d)
      ensures Visits(p, Arg(Keep(g, K), q, 0))
    {
      assert Visits(p, Arg(g, q, 0));
      DepsArePhis(g, d, q);
    }
  }

  lemma DepsArePhis(g: Graph, n: Id, q: Id)
    requires Acyclic(g) && q in Deps(g, n)
    ensures Is(g, q, Phi)
    decreases if n in g.nodes then RankOf(g)[n] else 0
  {
    if g.nodes[n].kind != Phi {
      var i :| 0 <= i < 4 && q in DepsArg(g, n, i);
      DepsArePhis(g, g.nodes[n].ins[i], q);
    }
  }

  lemma KeepDemands(g: Graph, K: set<Id>, n: Id, j: nat, d: Id)
    requires Shape(g) && Shape(Keep(g, K)) && Demands(Keep(g, K), n, j, d) && IsControl(Keep(g, K), n)
    requires j < |g.nodes[n].ins|
    ensures Demands(g, n, j, d) && d in K
  {
    var h := Keep(g, K);
    DemandShape(h, n, j, d);
    if Is(h, n, Region) {
      var p :| p in h.nodes && PhiOf(h, p, n) && d == Arg(h, p, j + 1);
      assert PhiOf(g, p, n) && d == Arg(g, p, j + 1);
    } else if !Is(h, n, End) {
      assert SlotOk(h, n, 0);
    }
  }

  // ----- replacing a data node by another that means the same -----

  /** `L` holds memory nodes whose contents nothing reads: only nodes of `L` and END take them in. */
  predicate Loose(g: Graph, mem: set<Id>, L: set<Id>) {
    L <= mem && (forall n :: n in L && n in g.nodes ==> g.nodes[n].kind in {Phi, StartMem, Store}) &&
    forall n, i :: n in g.nodes && 0 <= i < |g.nodes[n].ins| && g.nodes[n].ins[i] in L ==> n in L || n == g.end
  }

  /** Equal, or for an unread memory, equal as far as the outside has seen. */
  predicate Alike(L: set<Id>, n: Id, v: Val, w: Val) {
    if n in L then Observed(v) == Observed(w) else v == w
  }

  /** Wherever a value computed from `t` is used, `t` and `s` evaluate alike; and `s` is known whenever `t` is. */
  ghost predicate Interchangeable(g: Graph, L: set<Id>, t: Id, s: Id)
    requires Acyclic(g)
  {
    (s in L ==> t in L) && t !in Deps(g, s) &&
    (forall p :: Walk(g, p) && Ready(g, p, t) ==> Ready(g, p, s)) &&
    AlikeWhereUsed(g, L, t, s)
  }

  ghost predicate AlikeWhereUsed(g: Graph, L: set<Id>, t: Id, s: Id)
    requires Acyclic(g)
  {
    forall M, p, n, j, d {:trigger EnvAt(g, M, p), Demands(g, n, j, d)} ::
      Walk(g, p) && Edge(g, At(g, p), n, j) && Demands(g, n, j, d) && (Is(g, t, Phi) ==> t in Deps(g, d)) ==>
      Alike(L, t, Eval(g, M, EnvAt(g, M, p), t), Eval(g, M, EnvAt(g, M, p), s))
  }

  ghost predicate ReplaceSetting(g: Graph, mem: set<Id>, L: set<Id>, t: Id, s: Id) {
    WellFormed(g, mem) && Loose(g, mem, L) && Replaceable(g, mem, t, s) && !IsControl(g, t) &&
    Interchangeable(g, L, t, s) && Acyclic(Replace(g, t, s)) && SameControl(g, Replace(g, t, s))
  }

  /** The part of the setting that strictness needs. */
  ghost predicate StrictSetting(g: Graph, mem: set<Id>, t: Id, s: Id) {
    WellFormed(g, mem) && Replaceable(g, mem, t, s) && !IsControl(g, t) &&
    Acyclic(Replace(g, t, s)) && SameControl(g, Replace(g, t, s)) &&
    forall p :: Walk(g, p) && Ready(g, p, t) ==> Ready(g, p, s)
  }

  /** The part of the setting that evaluation needs. */
  ghost predicate EvalSetting(g: Graph, mem: set<Id>, L: set<Id>, t: Id, s: Id) {
    Shape(g) && MemTyped(g, mem) && Loose(g, mem, L) && Acyclic(g) && Acyclic(Replace(g, t, s)) &&
    t in g.nodes && s in g.nodes && t != s && (s in L ==> t in L) && t !in Deps(g, s)
  }

  ghost predicate AlikeEnvs(g: Graph, L: set<Id>, t: Id, env: Env, env': Env) {
    forall q :: q != t && Is(g, q, Phi) ==> Alike(L, q, Get(env, q), Get(env', q))
  }

  function Moved(t: Id, s: Id, d: Id): Id {
    if d == t then s else d
  }

  lemma AlikeCompute(M: Machine, L: set<Id>, n: Id, k: Kind, value: int, a: seq<Val>, b: seq<Val>)
    requires |a| == |b| == 4 && a[0] == b[0] && a[2] == b[2] && a[3] == b[3]
    requires if n in L then k in {StartMem, Store} && Observed(a[1]) == Observed(b[1]) else a[1] == b[1]
    ensures Alike(L, n, Compute(M, n, k, value, a), Compute(M, n, k, value, b))
  {
    if n !in L {
      assert a == b;
    } else if k == Store {
      assert forall v: Val :: LastEscape(AsMemory(v)) == Observed(v);
    }
  }

  lemma ReplaceEval(g: Graph, mem: set<Id>, L: set<Id>, t: Id, s: Id, M: Machine, env: Env, env': Env, n: Id)
    requires EvalSetting(g, mem, L, t, s) && n in g.nodes && n != t && AlikeEnvs(g, L, t, env, env')
    requires (Is(g, t, Phi) ==> t in Deps(g, n)) ==> Alike(L, t, Eval(g, M, env, t), Eval(g, M, env, s))
    ensures Alike(L, n, Eval(g, M, env, n), Eval(Replace(g, t, s), M, env', n))
    decreases RankOf(Replace(g, t, s))[n]
  {
    var h := Replace(g, t, s);
    if g.nodes[n].kind != Phi {
      forall i | 0 <= i < 4
        ensures if n in L && i == 1 then Observed(EvalArg(g, M, env, n, i)) == Observed(EvalArg(h, M, env', n, i))
                else EvalArg(g, M, env, n, i) == EvalArg(h, M, env', n, i)
      {
        if i < |g.nodes[n].ins| && Operand(g.nodes[n].kind, i) {
          ReplaceEvalArg(g, mem, L, t, s, M, env, env', n, i);
        }
      }
      AlikeCompute(M, L, n, g.nodes[n].kind, g.nodes[n].value,
        [EvalArg(g, M, env, n, 0), EvalArg(g, M, env, n, 1), EvalArg(g, M, env, n, 2), EvalArg(g, M, env, n, 3)],
        [EvalArg(h, M, env', n, 0), EvalArg(h, M, env', n, 1), EvalArg(h, M, env', n, 2), EvalArg(h, M, env', n, 3)]);
    }
  }

  /** What a slot a node's value is computed from says about the node it holds. */
  lemma OperandEval(g: Graph, M: Machine, env: Env, n: Id, i: nat)
    requires Acyclic(g) && n in g.nodes && i < 4 && i < |g.nodes[n].ins| && Operand(g.nodes[n].kind, i)
    ensures EvalArg(g, M, env, n, i) == Eval(g, M, env, g.nodes[n].ins[i])
  {
    hide Eval;
  }

  lemma OperandFacts(g: Graph, mem: set<Id>, L: set<Id>, t: Id, s: Id, n: Id, i: nat)
    requires EvalSetting(g, mem, L, t, s) && n in g.nodes && n != t
    requires i < 4 && i < |g.nodes[n].ins| && Operand(g.nodes[n].kind, i)
    ensures Acyclic(g) && Acyclic(Replace(g, t, s)) && s in g.nodes && s != t && t !in Deps(g, s) && (s in L ==> t in L)
    ensures g.nodes[n].ins[i] in L ==> n in L && i == 1
    ensures var h := Replace(g, t, s);
      n in h.nodes && h.nodes[n].kind == g.nodes[n].kind && |h.nodes[n].ins| == |g.nodes[n].ins| &&
      h.nodes[n].ins[i] == Moved(t, s, g.nodes[n].ins[i])
    ensures Is(g, t, Phi) ==> t in Deps(g, t)
  {
    hide Acyclic;
    assert SlotOk(g, n, i);
  }

  lemma AlikeIs(L: set<Id>, n: Id, v: Val, w: Val)
    requires Alike(L, n, v, w)
    ensures Observed(v) == Observed(w) && (n !in L ==> v == w)
  {}

  lemma ReplaceEvalArg(g: Graph, mem: set<Id>, L: set<Id>, t: Id, s: Id, M: Machine, env: Env, env': Env, n: Id, i: nat)
    requires EvalSetting(g, mem, L, t, s) && n in g.nodes && n != t && AlikeEnvs(g, L, t, env, env')
    requires (Is(g, t, Phi) ==> t in Deps(g, n)) ==> Alike(L, t, Eval(g, M, env, t), Eval(g, M, env, s))
    requires i < 4 && i < |g.nodes[n].ins| && Operand(g.nodes[n].kind, i)
    ensures n in L && i == 1 ==>
      Observed(EvalArg(g, M, env, n, i)) == Observed(EvalArg(Replace(g, t, s), M, env', n, i))
    ensures !(n in L && i == 1) ==> EvalArg(g, M, env, n, i) == EvalArg(Replace(g, t, s), M, env', n, i)
    decreases RankOf(Replace(g, t, s))[n], 0
  {
    OperandFacts(g, mem, L, t, s, n, i);
    hide *;
    var h, d := Replace(g, t, s), g.nodes[n].ins[i];
    OperandEval(g, M, env, n, i);
    OperandEval(h, M, env', n, i);
    OperandDeps(g, n, i);
    OperandDeps(h, n, i);
    if d == t {
      MovedIs(t, s);
      ReplaceEval(g, mem, L, t, s, M, env, env', s);
      AlikeIs(L, s, Eval(g, M, env, s), Eval(h, M, env', s));
      AlikeIs(L, t, Eval(g, M, env, t), Eval(g, M, env, s));
    } else {
      MovedNot(t, s, d);
      ReplaceEval(g, mem, L, t, s, M, env, env', d);
      AlikeIs(L, d, Eval(g, M, env, d), Eval(h, M, env', d));
    }
  }

  lemma MovedIs(t: Id, s: Id)
    ensures Moved(t, s, t) == s
  {}

  lemma MovedNot(t: Id, s: Id, d: Id)
    requires d != t
    ensures Moved(t, s, d) == d
  {}

  lemma DepsThrough(g: Graph, n: Id, q: Id) returns (i: nat)
    requires Acyclic(g) && n in g.nodes && g.nodes[n].kind != Phi && q in Deps(g, n)
    ensures i < 4 && i < |g.nodes[n].ins| && Operand(g.nodes[n].kind, i) && q in Deps(g, g.nodes[n].ins[i])
  {
    i :| 0 <= i < 4 && q in DepsArg(g, n, i);
  }

  lemma OperandDeps(g: Graph, n: Id, i: nat)
    requires Acyclic(g) && n in g.nodes && i < 4 && i < |g.nodes[n].ins| && Operand(g.nodes[n].kind, i)
    ensures Deps(g, g.nodes[n].ins[i]) <= Deps(g, n)
    ensures g.nodes[n].ins[i] in g.nodes && RankOf(g)[g.nodes[n].ins[i]] < RankOf(g)[n]
  {
    assert DepsArg(g, n, i) == Deps(g, g.nodes[n].ins[i]);
  }

  lemma OperandMoved(g: Graph, t: Id, s: Id, n: Id, i: nat)
    requires n in g.nodes && n != t && n in Replace(g, t, s).nodes && i < |Replace(g, t, s).nodes[n].ins|
    ensures i < |g.nodes[n].ins| && Replace(g, t, s).nodes[n].kind == g.nodes[n].kind
    ensures Replace(g, t, s).nodes[n].ins[i] == Moved(t, s, g.nodes[n].ins[i])
  {}

  lemma ReplaceDeps(g: Graph, t: Id, s: Id, n: Id, q: Id)
    requires Acyclic(g) && Acyclic(Replace(g, t, s)) && s in g.nodes && t != s && n in g.nodes && n != t
    requires q in Deps(Replace(g, t, s), n)
    ensures q != t && (q in Deps(g, n) || (Deps(g, t) <= Deps(g, n) && q in Deps(g, s)))
    decreases RankOf(Replace(g, t, s))[n]
  {
    var h := Replace(g, t, s);
    if g.nodes[n].kind != Phi {
      var i := DepsThrough(h, n, q);
      OperandMoved(g, t, s, n, i);
      OperandDeps(g, n, i);
      OperandDeps(h, n, i);
      hide Acyclic, Deps, Subst;
      ReplaceDeps(g, t, s, Moved(t, s, g.nodes[n].ins[i]), q);
    }
  }

  lemma UseAlike(g: Graph, L: set<Id>, t: Id, s: Id, M: Machine, p: Path, n: Id, j: nat, d: Id)
    requires Acyclic(g) && Interchangeable(g, L, t, s)
    requires Walk(g, p) && Edge(g, At(g, p), n, j) && Demands(g, n, j, d)
    ensures d == t || (Is(g, t, Phi) ==> t in Deps(g, d)) ==>
      Alike(L, t, Eval(g, M, EnvAt(g, M, p), t), Eval(g, M, EnvAt(g, M, p), s))
  {
    assert AlikeWhereUsed(g, L, t, s);
    assert d == t && Is(g, t, Phi) ==> t in Deps(g, d);
    hide Interchangeable, Alike, Acyclic;
  }

  /** Whatever a step uses is, in the new graph, alike to what it was, and just as ready. */
  lemma ReplaceDemand(g: Graph, mem: set<Id>, L: set<Id>, t: Id, s: Id, M: Machine, p: Path, n: Id, j: nat, d: Id)
    requires ReplaceSetting(g, mem, L, t, s)
    requires Walk(g, p) && Edge(g, At(g, p), n, j) && Demands(g, n, j, d)
    requires AlikeEnvs(g, L, t, EnvAt(g, M, p), EnvAt(Replace(g, t, s), M, p))
    ensures Alike(L, d, Eval(g, M, EnvAt(g, M, p), d),
      Eval(Replace(g, t, s), M, EnvAt(Replace(g, t, s), M, p), Moved(t, s, d)))
  {
    var env, env' := EnvAt(g, M, p), EnvAt(Replace(g, t, s), M, p);
    DemandShape(g, n, j, d);
    UseAlike(g, L, t, s, M, p, n, j, d);
    if d == t {
      ReplaceEval(g, mem, L, t, s, M, env, env', s);
    } else {
      ReplaceEval(g, mem, L, t, s, M, env, env', d);
    }
  }

  lemma ReplaceReady(g: Graph, mem: set<Id>, t: Id, s: Id, p: Path, d: Id)
    requires StrictSetting(g, mem, t, s) && Walk(g, p) && Ready(g, p, d) && d in g.nodes
    ensures Ready(Replace(g, t, s), p, Moved(t, s, d))
  {
    var h := Replace(g, t, s);
    forall q | q in Deps(h, Moved(t, s, d))
      ensures Visits(p, Arg(h, q, 0))
    {
      ReplaceDeps(g, t, s, Moved(t, s, d), q);
      if d == t || q !in Deps(g, d) {
        assert Ready(g, p, t);
        assert Ready(g, p, s);
      }
      if q in Deps(g, d) { DepsArePhis(g, d, q); } else { DepsArePhis(g, s, q); }
      assert SlotOk(g, q, 0);
    }
  }

  lemma PhiOperand(g: Graph, mem: set<Id>, L: set<Id>, t: Id, s: Id, q: Id, n: Id, j: nat)
    requires Shape(g) && MemTyped(g, mem) && Loose(g, mem, L) && t in g.nodes && !IsControl(g, t)
    requires q != t && Is(g, q, Phi) && IsControl(g, n) && j < |g.nodes[n].ins|
    ensures var h := Replace(g, t, s);
      (PhiOf(h, q, n) <==> PhiOf(g, q, n)) && (Is(h, n, Region) <==> Is(g, n, Region))
    ensures Is(g, n, Region) && PhiOf(g, q, n) ==>
      var d := Arg(g, q, j + 1);
      Demands(g, n, j, d) && (d in L ==> q in L) && Arg(Replace(g, t, s), q, j + 1) == Moved(t, s, d)
  {
    assert SlotOk(g, q, 0);
    if PhiOf(g, q, n) && Is(g, n, Region) {
      assert SlotOk(g, q, j + 1);
    }
  }

  lemma AlikeAt(g: Graph, L: set<Id>, t: Id, env: Env, env': Env, q: Id)
    requires AlikeEnvs(g, L, t, env, env') && q != t && Is(g, q, Phi)
    ensures Alike(L, q, Get(env, q), Get(env', q))
  {}

  lemma AlikeMore(L: set<Id>, d: Id, q: Id, v: Val, w: Val)
    requires Alike(L, d, v, w) && (d in L ==> q in L)
    ensures Alike(L, q, v, w)
  {}

  lemma ReplaceEnvStep(g: Graph, mem: set<Id>, L: set<Id>, t: Id, s: Id, M: Machine, p: Path, q: Id)
    requires ReplaceSetting(g, mem, L, t, s) && p.Go? && Walk(g, p) && q != t && Is(g, q, Phi)
    requires AlikeEnvs(g, L, t, EnvAt(g, M, p.prev), EnvAt(Replace(g, t, s), M, p.prev))
    ensures Alike(L, q, Get(EnvAt(g, M, p), q), Get(EnvAt(Replace(g, t, s), M, p), q))
  {
    hide *;
    var h := Replace(g, t, s);
    SettingIs(g, mem, L, t, s);
    WalkStep(g, p);
    PhiOperand(g, mem, L, t, s, q, p.node, p.slot);
    GetStep(g, M, p, q);
    GetStep(h, M, p, q);
    if Is(g, p.node, Region) && PhiOf(g, q, p.node) {
      var d := Arg(g, q, p.slot + 1);
      ReplaceDemand(g, mem, L, t, s, M, p.prev, p.node, p.slot, d);
      AlikeMore(L, d, q, Eval(g, M, EnvAt(g, M, p.prev), d), Eval(h, M, EnvAt(h, M, p.prev), Moved(t, s, d)));
    } else {
      AlikeAt(g, L, t, EnvAt(g, M, p.prev), EnvAt(h, M, p.prev), q);
    }
  }

  lemma ReplaceEnv(g: Graph, mem: set<Id>, L: set<Id>, t: Id, s: Id, M: Machine, p: Path)
    requires ReplaceSetting(g, mem, L, t, s) && Walk(g, p)
    ensures AlikeEnvs(g, L, t, EnvAt(g, M, p), EnvAt(Replace(g, t, s), M, p))
  {
    if p.Go? {
      ReplaceEnv(g, mem, L, t, s, M, p.prev);
      forall q | q != t && Is(g, q, Phi)
        ensures Alike(L, q, Get(EnvAt(g, M, p), q), Get(EnvAt(Replace(g, t, s), M, p), q))
      {
        ReplaceEnvStep(g, mem, L, t, s, M, p, q);
      }
    }
  }

  lemma SettingIs(g: Graph, mem: set<Id>, L: set<Id>, t: Id, s: Id)
    requires ReplaceSetting(g, mem, L, t, s)
    ensures Acyclic(g) && Acyclic(Replace(g, t, s)) && Shape(g) && Loose(g, mem, L) && MemTyped(g, mem)
    ensures t in g.nodes && !IsControl(g, t)
  {
    hide Acyclic, Shape, Loose, MemTyped, Strict, AllReached, AllLeave;
  }

  lemma EndOperands(g: Graph, mem: set<Id>, L: set<Id>, t: Id, s: Id, j: nat)
    requires Shape(g) && MemTyped(g, mem) && Loose(g, mem, L) && t in g.nodes && !IsControl(g, t)
    ensures Demands(g, g.end, j, Arg(g, g.end, 1)) && Demands(g, g.end, j, Arg(g, g.end, 2)) && Arg(g, g.end, 2) !in L
    ensures var h := Replace(g, t, s);
      Is(h, g.end, End) && Arg(h, g.end, 1) == Moved(t, s, Arg(g, g.end, 1)) &&
      Arg(h, g.end, 2) == Moved(t, s, Arg(g, g.end, 2))
  {
    assert SlotOk(g, g.end, 1) && SlotOk(g, g.end, 2);
  }

  lemma ReplaceFinish(g: Graph, mem: set<Id>, L: set<Id>, t: Id, s: Id, M: Machine, p: Path, j: nat)
    requires ReplaceSetting(g, mem, L, t, s) && Walk(g, p) && Edge(g, At(g, p), g.end, j) && Is(g, g.end, End)
    requires AlikeEnvs(g, L, t, EnvAt(g, M, p), EnvAt(Replace(g, t, s), M, p))
    ensures Shown(g, M, EnvAt(g, M, p), g.end) == Shown(Replace(g, t, s), M, EnvAt(Replace(g, t, s), M, p), g.end)
  {
    SettingIs(g, mem, L, t, s);
    hide *;
    var n, h := g.end, Replace(g, t, s);
    EndOperands(g, mem, L, t, s, j);
    EndShows(g, M, EnvAt(g, M, p), n);
    EndShows(h, M, EnvAt(h, M, p), n);
    ReplaceDemand(g, mem, L, t, s, M, p, n, j, Arg(g, n, 1));
    AlikeIs(L, Arg(g, n, 1), Eval(g, M, EnvAt(g, M, p), Arg(g, n, 1)), Eval(h, M, EnvAt(h, M, p), Arg(h, n, 1)));
    ReplaceDemand(g, mem, L, t, s, M, p, n, j, Arg(g, n, 2));
    AlikeIs(L, Arg(g, n, 2), Eval(g, M, EnvAt(g, M, p), Arg(g, n, 2)), Eval(h, M, EnvAt(h, M, p), Arg(h, n, 2)));
  }

  lemma BranchOperand(g: Graph, mem: set<Id>, L: set<Id>, t: Id, s: Id, n: Id, j: nat)
    requires Shape(g) && MemTyped(g, mem) && Loose(g, mem, L) && t in g.nodes && !IsControl(g, t)
    requires Is(g, n, BranchTrue) || Is(g, n, BranchFalse)
    ensures var d, h := Arg(g, Arg(g, n, 0), 1), Replace(g, t, s);
      Demands(g, n, j, d) && d !in L && Is(h, n, g.nodes[n].kind) && Arg(h, Arg(h, n, 0), 1) == Moved(t, s, d)
  {
    assert SlotOk(g, n, 0);
    assert SlotOk(g, Arg(g, n, 0), 1);
  }

  lemma ReplaceBranch(g: Graph, mem: set<Id>, L: set<Id>, t: Id, s: Id, M: Machine, p: Path, n: Id, j: nat)
    requires ReplaceSetting(g, mem, L, t, s) && Walk(g, p) && Edge(g, At(g, p), n, j)
    requires Is(g, n, BranchTrue) || Is(g, n, BranchFalse)
    requires AlikeEnvs(g, L, t, EnvAt(g, M, p), EnvAt(Replace(g, t, s), M, p))
    ensures Shown(g, M, EnvAt(g, M, p), n) == Shown(Replace(g, t, s), M, EnvAt(Replace(g, t, s), M, p), n)
  {
    SettingIs(g, mem, L, t, s);
    BranchKind(g, t, s, n);
    hide *;
    var h, d := Replace(g, t, s), Arg(g, Arg(g, n, 0), 1);
    BranchOperand(g, mem, L, t, s, n, j);
    BranchShows(g, M, EnvAt(g, M, p), n);
    BranchShows(h, M, EnvAt(h, M, p), n);
    ReplaceDemand(g, mem, L, t, s, M, p, n, j, d);
    AlikeIs(L, d, Eval(g, M, EnvAt(g, M, p), d), Eval(h, M, EnvAt(h, M, p), Moved(t, s, d)));
  }

  lemma BranchKind(g: Graph, t: Id, s: Id, n: Id)
    requires !IsControl(g, t)
    requires Is(g, n, BranchTrue) || Is(g, n, BranchFalse)
    ensures n in g.nodes && n in Replace(g, t, s).nodes && Replace(g, t, s).nodes[n].kind == g.nodes[n].kind
    ensures Is(Replace(g, t, s), n, BranchTrue) || Is(Replace(g, t, s), n, BranchFalse)
  {}

  lemma ReplaceShown(g: Graph, mem: set<Id>, L: set<Id>, t: Id, s: Id, M: Machine, p: Path, n: Id, j: nat)
    requires ReplaceSetting(g, mem, L, t, s) && Walk(g, p) && Edge(g, At(g, p), n, j)
    requires AlikeEnvs(g, L, t, EnvAt(g, M, p), EnvAt(Replace(g, t, s), M, p))
    ensures Shown(g, M, EnvAt(g, M, p), n) == Shown(Replace(g, t, s), M, EnvAt(Replace(g, t, s), M, p), n)
  {
    if Is(g, n, End) {
      ReplaceFinish(g, mem, L, t, s, M, p, j);
    } else if Is(g, n, BranchTrue) || Is(g, n, BranchFalse) {
      ReplaceBranch(g, mem, L, t, s, M, p, n, j);
    }
  }

  lemma ReplaceEvents(g: Graph, mem: set<Id>, L: set<Id>, t: Id, s: Id, M: Machine, p: Path)
    requires ReplaceSetting(g, mem, L, t, s) && Walk(g, p)
    ensures Events(g, M, p) == Events(Replace(g, t, s), M, p)
  {
    if p.Go? {
      hide ReplaceSetting, AlikeEnvs, Shown;
      ReplaceEvents(g, mem, L, t, s, M, p.prev);
      ReplaceEnv(g, mem, L, t, s, M, p.prev);
      ReplaceShown(g, mem, L, t, s, M, p.prev, p.node, p.slot);
    }
  }

  lemma ReplaceDemands(g: Graph, t: Id, s: Id, n: Id, j: nat, d: Id) returns (d': Id)
    requires Shape(g) && t in g.nodes && !IsControl(g, t) && s in g.nodes && SameControl(g, Replace(g, t, s))
    requires IsControl(g, n) && j < |g.nodes[n].ins| && Demands(Replace(g, t, s), n, j, d)
    ensures Demands(g, n, j, d') && d == Moved(t, s, d') && d' in g.nodes
  {
    var h := Replace(g, t, s);
    if Is(h, n, Region) {
      d' := RegionDemands(g, t, s, n, j, d);
    } else if Is(h, n, End) {
      d' := EndDemands(g, t, s, n, j, d);
    } else {
      d' := BranchDemands(g, t, s, n, j, d);
    }
  }

  lemma RegionDemands(g: Graph, t: Id, s: Id, n: Id, j: nat, d: Id) returns (d': Id)
    requires Shape(g) && t in g.nodes && !IsControl(g, t) && IsControl(g, n) && j < |g.nodes[n].ins|
    requires Is(Replace(g, t, s), n, Region) && Demands(Replace(g, t, s), n, j, d)
    ensures Demands(g, n, j, d') && d == Moved(t, s, d') && d' in g.nodes
  {
    var h := Replace(g, t, s);
    var p :| p in h.nodes && PhiOf(h, p, n) && d == Arg(h, p, j + 1);
    assert SlotOk(g, p, 0);
    assert SlotOk(g, p, j + 1);
    d' := Arg(g, p, j + 1);
    assert PhiOf(g, p, n);
  }

  lemma EndDemands(g: Graph, t: Id, s: Id, n: Id, j: nat, d: Id) returns (d': Id)
    requires Shape(g) && t in g.nodes && !IsControl(g, t) && IsControl(g, n)
    requires Is(Replace(g, t, s), n, End) && Demands(Replace(g, t, s), n, j, d)
    ensures Demands(g, n, j, d') && d == Moved(t, s, d') && d' in g.nodes
  {
    assert SlotOk(g, n, 1) && SlotOk(g, n, 2);
    d' := if d == Arg(Replace(g, t, s), n, 1) then Arg(g, n, 1) else Arg(g, n, 2);
  }

  lemma BranchDemands(g: Graph, t: Id, s: Id, n: Id, j: nat, d: Id) returns (d': Id)
    requires Shape(g) && t in g.nodes && !IsControl(g, t) && IsControl(g, n)
    requires !Is(Replace(g, t, s), n, Region) && !Is(Replace(g, t, s), n, End) && Demands(Replace(g, t, s), n, j, d)
    ensures Demands(g, n, j, d') && d == Moved(t, s, d') && d' in g.nodes
  {
    assert SlotOk(g, n, 0);
    assert SlotOk(g, Arg(g, n, 0), 1);
    d' := Arg(g, Arg(g, n, 0), 1);
  }

  lemma ReplaceWellFormed(g: Graph, mem: set<Id>, t: Id, s: Id)
    requires WellFormed(g, mem) && Replaceable(g, mem, t, s) && !IsControl(g, t) && Acyclic(Replace(g, t, s))
    requires forall p :: Walk(g, p) && Ready(g, p, t) ==> Ready(g, p, s)
    ensures WellFormed(Replace(g, t, s), mem) && SameControl(g, Replace(g, t, s))
  {
    ReplaceShape(g, mem, t, s);
    DataReplaceControl(g, mem, t, s);
    SameControlKeeps(g, Replace(g, t, s));
    ReplaceStrict(g, mem, t, s);
  }

  /** Replacing a data node by an interchangeable one keeps the behaviour, and every invariant. */
  lemma ReplaceSound(g: Graph, mem: set<Id>, L: set<Id>, t: Id, s: Id)
    requires WellFormed(g, mem) && Loose(g, mem, L) && Replaceable(g, mem, t, s) && !IsControl(g, t)
    requires Interchangeable(g, L, t, s) && Acyclic(Replace(g, t, s))
    ensures WellFormed(Replace(g, t, s), mem) && SameBehaviour(g, Replace(g, t, s))
  {
    var h := Replace(g, t, s);
    ReplaceWellFormed(g, mem, t, s);
    forall M, p | Walk(g, p)
      ensures Events(g, M, p) == Events(h, M, p)
    {
      ReplaceEvents(g, mem, L, t, s, M, p);
    }
    SameEventsSameBehaviour(g, h);
  }

  lemma ReplaceStrict(g: Graph, mem: set<Id>, t: Id, s: Id)
    requires StrictSetting(g, mem, t, s)
    ensures Strict(Replace(g, t, s))
  {
    var h := Replace(g, t, s);
    forall p, n, j, d | Walk(h, p) && Edge(h, At(h, p), n, j) && Demands(h, n, j, d)
      ensures Ready(h, p, d)
    {
      SameWalks(g, h, p);
      assert Edge(g, At(g, p), n, j);
      var d' := ReplaceDemands(g, t, s, n, j, d);
      assert Ready(g, p, d');
      ReplaceReady(g, mem, t, s, p, d');
    }
  }
}
