/** The sea-of-nodes graph as a value, and what it means.

    A node is known by its id; ids start at 1, so 0 stands for a null input. A run is a walk along
    control edges from START. Entering a region through slot j gives each of its phis the
    value of input j+1; every other value is computed from the phis' current values. */
module Graphs {
  import opened Machines

  type Id = nat

  datatype Kind =
    | Start | StartCtrl | StartMem | End | Null | Region | Phi | Branch | BranchTrue | BranchFalse
    | Store | Load | MemEscape | Alloca | Constant | Arith(op: BinOp)

  datatype Vertex = Vertex(kind: Kind, ins: seq<Id>, value: int)

  datatype Graph = Graph(nodes: map<Id, Vertex>, start: Id, end: Id)

  // ----- the roles of input slots -----

  predicate ControlKind(k: Kind) {
    k in {Start, StartCtrl, Region, Branch, BranchTrue, BranchFalse, End}
  }

  predicate ControlSlot(k: Kind, i: nat) {
    k == Region || (i == 0 && !k.Arith? && k != MemEscape)
  }

  /** The slots a node's own value is computed from. */
  predicate Operand(k: Kind, i: nat) {
    match k
    case Store => 1 <= i <= 3
    case Load => 1 <= i <= 2
    case MemEscape => i == 1
    case Arith(_) => i < 2
    case _ => false
  }

  predicate MemSlot(k: Kind, i: nat) {
    i == 1 && k in {Store, Load, MemEscape, End}
  }

  predicate Arity(k: Kind, n: nat) {
    match k
    case Start => n == 0
    case Region => n >= 1
    case Phi => n >= 2
    case End => n == 3
    case Branch => n == 2
    case Store => n == 4
    case Load => n == 3
    case MemEscape => n == 2
    case Arith(_) => n == 2
    case _ => n == 1
  }

  function Arg(g: Graph, n: Id, i: nat): Id {
    if n in g.nodes && i < |g.nodes[n].ins| then g.nodes[n].ins[i] else 0
  }

  /** `n` is a node of kind `k`. */
  predicate Is(g: Graph, n: Id, k: Kind) {
    n in g.nodes && g.nodes[n].kind == k
  }

  predicate IsControl(g: Graph, n: Id) {
    n in g.nodes && ControlKind(g.nodes[n].kind)
  }

  // ----- values -----

  datatype Val = NullV | WordV(w: int) | AddrV(alloca: Id) | MemV(mem: Memory)

  /** Memory is the list of writes made to it; `Escaped` marks a point where it became visible
      to the outside. */
  datatype Memory = Initial | Written(prev: Memory, addr: Val, val: Val) | Escaped(prev: Memory)

  function Lookup(M: Machine, m: Memory, a: Val): Val {
    match m
    case Initial => if a.AddrV? then WordV(M.init(a.alloca)) else NullV
    case Written(prev, b, v) => if a == b then v else Lookup(M, prev, a)
    case Escaped(prev) => Lookup(M, prev, a)
  }

  /** The memory the outside has seen, if any. */
  function Observed(v: Val): Val {
    if v.MemV? then LastEscape(v.mem) else NullV
  }

  function LastEscape(m: Memory): Val {
    match m
    case Initial => NullV
    case Written(prev, _, _) => LastEscape(prev)
    case Escaped(prev) => MemV(prev)
  }

  function AsMemory(v: Val): Memory {
    if v.MemV? then v.mem else Initial
  }

  function Compute(M: Machine, n: Id, k: Kind, value: int, args: seq<Val>): Val
    requires |args| == 4
  {
    match k
    case StartMem => MemV(Initial)
    case Alloca => AddrV(n)
    case Constant => WordV(value)
    case Store => MemV(Written(AsMemory(args[1]), args[2], args[3]))
    case Load => Lookup(M, AsMemory(args[1]), args[2])
    case MemEscape => MemV(Escaped(AsMemory(args[1])))
    case Arith(op) =>
      if args[0].WordV? && args[1].WordV? then WordV(M.apply(op, args[0].w, args[1].w)) else NullV
    case _ => NullV
  }

  // ----- evaluation between two region entries -----

  /** `rank` decreases along every value edge that does not leave a phi. */
  ghost predicate Ranked(g: Graph, rank: map<Id, nat>) {
    g.nodes.Keys <= rank.Keys &&
    forall n, i :: n in g.nodes && 0 <= i < |g.nodes[n].ins| && Operand(g.nodes[n].kind, i) ==>
      g.nodes[n].ins[i] in g.nodes && rank[g.nodes[n].ins[i]] < rank[n]
  }

  ghost predicate Acyclic(g: Graph) {
    exists rank :: Ranked(g, rank)
  }

  ghost function RankOf(g: Graph): (rank: map<Id, nat>)
    requires Acyclic(g)
    ensures Ranked(g, rank)
  {
    var rank :| Ranked(g, rank); rank
  }

  type Env = map<Id, Val>

  function Get(env: Env, p: Id): Val {
    if p in env then env[p] else NullV
  }

  ghost function Eval(g: Graph, M: Machine, env: Env, n: Id): Val
    requires Acyclic(g)
    decreases if n in g.nodes then RankOf(g)[n] else 0, 4
  {
    if n !in g.nodes then NullV
    else if g.nodes[n].kind == Phi then Get(env, n)
    else Compute(M, n, g.nodes[n].kind, g.nodes[n].value,
                 [EvalArg(g, M, env, n, 0), EvalArg(g, M, env, n, 1),
                  EvalArg(g, M, env, n, 2), EvalArg(g, M, env, n, 3)])
  }

  ghost function EvalArg(g: Graph, M: Machine, env: Env, n: Id, i: nat): Val
    requires Acyclic(g) && n in g.nodes
    decreases RankOf(g)[n], i
  {
    if i < |g.nodes[n].ins| && Operand(g.nodes[n].kind, i) then Eval(g, M, env, g.nodes[n].ins[i]) else NullV
  }

  /** The phis whose current values `n` is computed from. */
  ghost function Deps(g: Graph, n: Id): set<Id>
    requires Acyclic(g)
    decreases if n in g.nodes then RankOf(g)[n] else 0, 4
  {
    if n !in g.nodes then {}
    else if g.nodes[n].kind == Phi then {n}
    else DepsArg(g, n, 0) + DepsArg(g, n, 1) + DepsArg(g, n, 2) + DepsArg(g, n, 3)
  }

  ghost function DepsArg(g: Graph, n: Id, i: nat): set<Id>
    requires Acyclic(g) && n in g.nodes
    decreases RankOf(g)[n], i
  {
    if i < |g.nodes[n].ins| && Operand(g.nodes[n].kind, i) then Deps(g, g.nodes[n].ins[i]) else {}
  }

  // ----- runs -----

  /** A walk along control edges: `Go(p, n, j)` extends `p` by entering `n` through its slot `j`. */
  datatype Path = Origin | Go(prev: Path, node: Id, slot: nat)

  function At(g: Graph, p: Path): Id {
    if p.Origin? then g.start else p.node
  }

  predicate Edge(g: Graph, c: Id, n: Id, j: nat) {
    IsControl(g, n) && j < |g.nodes[n].ins| && ControlSlot(g.nodes[n].kind, j) && g.nodes[n].ins[j] == c
  }

  predicate Walk(g: Graph, p: Path) {
    p.Go? ==> Walk(g, p.prev) && Edge(g, At(g, p.prev), p.node, p.slot)
  }

  predicate Visits(p: Path, r: Id) {
    p.Go? && (p.node == r || Visits(p.prev, r))
  }

  predicate PhiOf(g: Graph, p: Id, r: Id) {
    Is(g, p, Phi) && Arg(g, p, 0) == r
  }

  ghost function PhiValues(g: Graph, M: Machine, env: Env, r: Id, j: nat): Env
    requires Acyclic(g)
  {
    map p | p in g.nodes && PhiOf(g, p, r) :: Eval(g, M, env, Arg(g, p, j + 1))
  }

  ghost function Enter(g: Graph, M: Machine, env: Env, r: Id, j: nat): Env
    requires Acyclic(g)
  {
    env + PhiValues(g, M, env, r, j)
  }

  ghost function EnvAt(g: Graph, M: Machine, p: Path): Env
    requires Acyclic(g)
  {
    if p.Origin? then map[]
    else if Is(g, p.node, Region) then Enter(g, M, EnvAt(g, M, p.prev), p.node, p.slot)
    else EnvAt(g, M, p.prev)
  }

  /** What a run shows: the predicate and the direction of each branch taken, and at END the memory
      that escaped and the returned value. */
  datatype Event = Took(predicate_: Val, outcome: bool) | Finished(escaped: Val, result: Val)

  ghost function Shown(g: Graph, M: Machine, env: Env, n: Id): seq<Event>
    requires Acyclic(g)
  {
    if Is(g, n, BranchTrue) then [Took(Eval(g, M, env, Arg(g, Arg(g, n, 0), 1)), true)]
    else if Is(g, n, BranchFalse) then [Took(Eval(g, M, env, Arg(g, Arg(g, n, 0), 1)), false)]
    else if Is(g, n, End) then [Finished(Observed(Eval(g, M, env, Arg(g, n, 1))), Eval(g, M, env, Arg(g, n, 2)))]
    else []
  }

  ghost function Events(g: Graph, M: Machine, p: Path): seq<Event>
    requires Acyclic(g)
  {
    if p.Origin? then [] else Events(g, M, p.prev) + Shown(g, M, EnvAt(g, M, p.prev), p.node)
  }

  ghost predicate Behaves(g: Graph, M: Machine, events: seq<Event>)
    requires Acyclic(g)
  {
    exists p :: Walk(g, p) && Events(g, M, p) == events
  }

  /** The two graphs show the same along all their runs, finished or not, on every machine. */
  ghost predicate SameBehaviour(g: Graph, h: Graph) {
    Acyclic(g) && Acyclic(h) && forall M, events :: Behaves(g, M, events) <==> Behaves(h, M, events)
  }

  // ----- well-formed graphs -----

  predicate SlotOk(g: Graph, n: Id, i: nat)
    requires n in g.nodes && i < |g.nodes[n].ins|
  {
    var k, d := g.nodes[n].kind, g.nodes[n].ins[i];
    if k == MemEscape && i == 0 then d == 0
    else
      d in g.nodes && d != 0 && d != g.end && (ControlKind(g.nodes[d].kind) <==> ControlSlot(k, i)) &&
      (i == 0 ==>
         (k == Phi ==> g.nodes[d].kind == Region && |g.nodes[n].ins| == |g.nodes[d].ins| + 1) &&
         (k in {BranchTrue, BranchFalse} ==> g.nodes[d].kind == Branch) &&
         (k in {StartCtrl, StartMem, Null, Alloca, Constant} ==> g.nodes[d].kind == Start))
  }

  predicate Shape(g: Graph) {
    0 !in g.nodes && Is(g, g.start, Start) && Is(g, g.end, End) &&
    (forall n :: n in g.nodes ==>
      && Arity(g.nodes[n].kind, |g.nodes[n].ins|)
      && (g.nodes[n].kind == End ==> n == g.end)
      && (g.nodes[n].kind == Start ==> n == g.start)) &&
    (forall n, i :: n in g.nodes && 0 <= i < |g.nodes[n].ins| ==> SlotOk(g, n, i))
  }

  predicate MemNode(k: Kind) {
    k in {StartMem, Store, MemEscape}
  }

  /** `mem` picks the nodes that denote memory: no node mixes memory and data. */
  predicate MemTyped(g: Graph, mem: set<Id>) {
    0 !in mem && (forall n :: n in g.nodes && g.nodes[n].kind != Phi ==> (n in mem <==> MemNode(g.nodes[n].kind))) &&
    (forall n, i ::
      n in g.nodes && 0 <= i < |g.nodes[n].ins| && !ControlSlot(g.nodes[n].kind, i) && g.nodes[n].ins[i] != 0 ==>
      (g.nodes[n].ins[i] in mem <==> if g.nodes[n].kind == Phi then n in mem else MemSlot(g.nodes[n].kind, i)))
  }

  /** The nodes whose values a step into `n` through slot `j` uses. */
  predicate Demands(g: Graph, n: Id, j: nat, d: Id) {
    (Is(g, n, Region) && exists p :: p in g.nodes && PhiOf(g, p, n) && d == Arg(g, p, j + 1)) ||
    ((Is(g, n, BranchTrue) || Is(g, n, BranchFalse)) && d == Arg(g, Arg(g, n, 0), 1)) ||
    (Is(g, n, End) && (d == Arg(g, n, 1) || d == Arg(g, n, 2)))
  }

  ghost predicate Ready(g: Graph, p: Path, d: Id)
    requires Acyclic(g)
  {
    forall q :: q in Deps(g, d) ==> Visits(p, Arg(g, q, 0))
  }

  /** On every run, a phi's region is entered before the phi's value is used. */
  ghost predicate Strict(g: Graph)
    requires Acyclic(g)
  {
    forall p, n, j, d :: Walk(g, p) && Edge(g, At(g, p), n, j) && Demands(g, n, j, d) ==> Ready(g, p, d)
  }

  ghost predicate Arrives(g: Graph, c: Id) {
    exists p :: Walk(g, p) && At(g, p) == c
  }

  /** Every control node lies on some run. */
  ghost predicate AllReached(g: Graph) {
    forall c :: IsControl(g, c) ==> Arrives(g, c)
  }

  ghost predicate ControlClosed(g: Graph, K: set<Id>) {
    g.end in K && forall c, n, j :: n in K && Edge(g, c, n, j) ==> c in K
  }

  /** From every control node a control walk leads to END. */
  ghost predicate AllLeave(g: Graph) {
    forall K :: ControlClosed(g, K) ==> forall c :: IsControl(g, c) ==> c in K
  }

  ghost predicate WellFormed(g: Graph, mem: set<Id>) {
    Shape(g) && MemTyped(g, mem) && Acyclic(g) && Strict(g) && AllReached(g) && AllLeave(g)
  }
}
