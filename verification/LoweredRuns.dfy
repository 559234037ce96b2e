/** A lowered graph means what its block graph means: whole runs, in both directions. */
module LoweredRuns {
  import opened Machines
  import C = Cfgs
  import opened Graphs
  import opened Roles
  import opened LoweredShape
  import opened LoweredGraph
  import opened LoweredStrict
  import opened LoweredMeaning

  // ----- runs that follow the predicates -----

  predicate Follows(M: Machine, e: Event) {
    e.Took? ==> (e.predicate_.WordV? && M.truthy(e.predicate_.w) == e.outcome)
  }

  predicate AllFollow(M: Machine, events: seq<Event>) {
    forall e :: e in events ==> Follows(M, e)
  }

  /** The branches taken the way the values tested tell. */
  function Tooks(M: Machine, w: seq<int>): (events: seq<Event>)
    ensures |events| == |w|
    ensures forall i :: 0 <= i < |w| ==> events[i] == Took(WordV(w[i]), M.truthy(w[i]))
  {
    seq(|w|, i requires 0 <= i < |w| => Took(WordV(w[i]), M.truthy(w[i])))
  }

  lemma FollowPrefix(M: Machine, a: seq<Event>, b: seq<Event>)
    ensures AllFollow(M, a + b) <==> AllFollow(M, a) && AllFollow(M, b)
  {
    forall e
      ensures e in a + b <==> e in a || e in b
    {}
  }

  // ----- what holds at each node of such a run -----

  function Initially(c: C.Cfg): C.Config {
    C.At(if |c.order| > 0 then c.order[0] else 0, 0, map[])
  }

  function ResultVal(r: C.Result): Val {
    if r.Just? then WordV(r.value) else NullV
  }

  /** The predicate of the branch that ends block `b`, entered with store `s`. */
  function Predicate(M: Machine, c: C.Cfg, b: C.BlockId, s: C.Store): int {
    var code := Code(c, b);
    if |code| == Plain(code) then 0 else C.Operand(M, Straight(M, code, Plain(code), s), code[Plain(code)], 0)
  }

  lemma SettingAcyclic(c: C.Cfg, num: Numbering, g: Graph)
    requires FullSetting(c, num, g)
    ensures Acyclic(g) && C.GoodCfg(c)
  {
    hide IsLowering, Shape, C.GoodCfg;
  }

  /** The block graph is where the run of the nodes is: configuration `cf` belongs to role `r`. */
  ghost predicate Matches(c: C.Cfg, num: Numbering, M: Machine, env: Env, r: Role, cf: C.Config, m: Memory) {
    match r
    case RStart => true
    case RStartCtrl => true
    case REndRegion => cf.Done? && Left(c, num, M, env, cf, m)
    case REnd => cf.Done? && Left(c, num, M, env, cf, m)
    case RRegion(b) => Inside(c, num, M, env, b, cf, m)
    case RBranch(b) => Inside(c, num, M, env, b, cf, m)
    case RTrue(b) => Inside(c, num, M, env, b, cf, m) && M.truthy(Predicate(PlaceMachine(M, num), c, b, cf.store))
    case RFalse(b) => Inside(c, num, M, env, b, cf, m) && !M.truthy(Predicate(PlaceMachine(M, num), c, b, cf.store))
    case _ => false
  }

  ghost predicate Inside(c: C.Cfg, num: Numbering, M: Machine, env: Env, b: C.BlockId, cf: C.Config, m: Memory) {
    cf.At? && cf.block == b && cf.index == 0 && Entered(c, num, M, env, b, m, cf.store)
  }

  ghost predicate Left(c: C.Cfg, num: Numbering, M: Machine, env: Env, cf: C.Config, m: Memory)
    requires cf.Done?
  {
    Get(env, Num(num, REndMem)) == MemV(m) && Agrees(M, c, num, m, cf.store) &&
    Get(env, Num(num, REndVal)) == ResultVal(cf.result)
  }

  // ----- one step of the nodes -----

  /** From the start of a block to its jump. */
  lemma ToJump(c: C.Cfg, num: Numbering, M: Machine, b: C.BlockId, s: C.Store, m: Memory, k: nat)
    requires C.GoodCfg(c) && b in c.order && k <= Plain(Code(c, b))
    ensures var M', cf := PlaceMachine(M, num), C.At(b, 0, s);
      C.Run(M', c.blocks, cf, k) == C.At(b, k, Straight(M', Code(c, b), k, s)) && C.Trace(M', c.blocks, cf, k) == [] &&
      Recorded(M, num, c.blocks, cf, m, k) == Logged(M, num, Code(c, b), k, s, m)
  {
    forall l | 0 <= l < k
      ensures !C.Jump(Code(c, b)[l].op)
    {
      InstAt(c, b, l);
    }
    StraightRun(M, num, c.blocks, b, k, s, m);
  }

  /** The memory at the end of block `b`. */
  function After(c: C.Cfg, num: Numbering, M: Machine, b: C.BlockId, s: C.Store, m: Memory): Memory {
    Logged(M, num, Code(c, b), Plain(Code(c, b)), s, m)
  }

  /** What the branch at the end of block `b`, if there is one, tests. */
  function Asked(c: C.Cfg, M: Machine, b: C.BlockId, s: C.Store): seq<int> {
    if LastOp(c, b).Branch? then [Predicate(M, c, b, s)] else []
  }

  /** What the block graph does in the steps that take it out of block `b`. */
  lemma Leave(c: C.Cfg, num: Numbering, M: Machine, b: C.BlockId, s: C.Store, m: Memory)
    requires C.GoodCfg(c) && b in c.order
    ensures var M', cf, n := PlaceMachine(M, num), C.At(b, 0, s), Plain(Code(c, b)) + 1;
      C.Run(M', c.blocks, cf, n) == Next(c, M', b, s) && C.Trace(M', c.blocks, cf, n) == Asked(c, M', b, s) &&
      Recorded(M, num, c.blocks, cf, m, n) == After(c, num, M, b, s, m)
  {
    var k := Plain(Code(c, b));
    ToJump(c, num, M, b, s, m, k);
    StepOn(M, num, c.blocks, C.At(b, 0, s), k, m);
    hide C.Run, C.Trace, Recorded, C.GoodCfg;
    LastStep(c, num, M, b, s, After(c, num, M, b, s, m));
    var mid := C.At(b, k, Straight(PlaceMachine(M, num), Code(c, b), k, s));
    assert [] + C.Tested(PlaceMachine(M, num), c.blocks, mid) == C.Tested(PlaceMachine(M, num), c.blocks, mid);
  }

  lemma LastStep(c: C.Cfg, num: Numbering, M: Machine, b: C.BlockId, s: C.Store, m: Memory)
    requires C.GoodCfg(c) && b in c.order
    ensures var M', k := PlaceMachine(M, num), Plain(Code(c, b));
      var mid := C.At(b, k, Straight(M', Code(c, b), k, s));
      C.Step(M', c.blocks, mid) == Next(c, M', b, s) && C.Tested(M', c.blocks, mid) == Asked(c, M', b, s) &&
      StepNoted(M, num, c.blocks, mid, m) == m
  {
    var k := Plain(Code(c, b));
    if k < |Code(c, b)| {
      InstAt(c, b, k);
    }
  }

  function Next(c: C.Cfg, M: Machine, b: C.BlockId, s: C.Store): C.Config {
    var code := Code(c, b);
    var s' := Straight(M, code, Plain(code), s);
    match LastOp(c, b)
    case Goto(t) => C.At(t, 0, s')
    case Branch(t, e) => C.At(if M.truthy(Predicate(M, c, b, s)) then t else e, 0, s')
    case _ => C.Done(if ReturnsValue(c, b) then C.Just(Predicate(M, c, b, s)) else C.Nothing, s')
  }

  /** The load of the last instruction evaluates to its operand. */
  lemma LastLoad(c: C.Cfg, num: Numbering, g: Graph, M: Machine, env: Env, b: C.BlockId, cf: C.Config, m: Memory)
    requires FullSetting(c, num, g) && b in c.order && Inside(c, num, M, env, b, cf, m)
    requires LastOp(c, b).Branch? || ReturnsValue(c, b)
    ensures Plain(Code(c, b)) == |Code(c, b)| - 1 && ValidRole(c, RLoad(b, Plain(Code(c, b)), 0))
    ensures Eval(g, M, env, Num(num, RLoad(b, Plain(Code(c, b)), 0))) ==
      WordV(Predicate(PlaceMachine(M, num), c, b, cf.store))
  {
    hide Setting, IsLowering, GoodNumbering, C.GoodCfg, Shape, Entered, Agrees;
    Lists(c, num, g);
    InstAt(c, b, |Code(c, b)| - 1);
    BlockSound(c, num, g, M, env, b, Plain(Code(c, b)), m, cf.store);
    LoadEval(c, num, g, M, env, b, Plain(Code(c, b)), 0, m, cf.store);
  }

  lemma LastMemory(c: C.Cfg, num: Numbering, g: Graph, M: Machine, env: Env, b: C.BlockId, cf: C.Config, m: Memory)
    requires FullSetting(c, num, g) && b in c.order && Inside(c, num, M, env, b, cf, m)
    ensures var m' := After(c, num, M, b, cf.store, m);
      Eval(g, M, env, Num(num, LastMem(c, b))) == MemV(m') &&
      Agrees(M, c, num, m', Straight(PlaceMachine(M, num), Code(c, b), Plain(Code(c, b)), cf.store))
  {
    hide Setting, IsLowering, GoodNumbering, C.GoodCfg, Shape, Entered, Agrees;
    Lists(c, num, g);
    BlockSound(c, num, g, M, env, b, Plain(Code(c, b)), m, cf.store);
  }

  lemma PhiAfter(c: C.Cfg, num: Numbering, g: Graph, M: Machine, p: Path, r: Role, phi: Role)
    requires FullSetting(c, num, g) && p.Go? && ValidRole(c, r) && ValidRole(c, phi)
    requires KindOf(c, r) == Region && KindOf(c, phi) == Phi
    requires p.node == Num(num, r) && Inputs(c, phi)[0] == r && p.slot + 1 < |Inputs(c, phi)|
    ensures Get(EnvAt(g, M, p), Num(num, phi)) == Eval(g, M, EnvAt(g, M, p.prev), Num(num, Inputs(c, phi)[p.slot + 1]))
  {
    hide Setting, IsLowering, GoodNumbering, C.GoodCfg, Shape;
    Lists(c, num, g);
    Node(c, num, g, r);
    Node(c, num, g, phi);
  }

  lemma EnvKept(c: C.Cfg, num: Numbering, g: Graph, M: Machine, p: Path, r: Role)
    requires FullSetting(c, num, g) && p.Go? && ValidRole(c, r) && KindOf(c, r) != Region && p.node == Num(num, r)
    ensures EnvAt(g, M, p) == EnvAt(g, M, p.prev)
  {
    hide Setting, IsLowering, GoodNumbering, C.GoodCfg, Shape;
    Node(c, num, g, r);
  }

  /** Entering block `t` from the end of block `b`. */
  lemma EnterFromBlock(c: C.Cfg, num: Numbering, g: Graph, M: Machine, p: Path, b: C.BlockId, t: C.BlockId, way: Role,
                       cf: C.Config, m: Memory)
    requires FullSetting(c, num, g) && p.Go? && b in c.order && t in c.order && p.node == Num(num, RRegion(t))
    requires p.slot < |Entries(c, t)| && Entries(c, t)[p.slot] == Entry(way, LastMem(c, b))
    requires FromBlock(c, b, t, Entries(c, t)[p.slot])
    requires Matches(c, num, M, EnvAt(g, M, p.prev), way, cf, m)
    ensures cf.At? && cf.block == b && cf.index == 0
    ensures Inside(c, num, M, EnvAt(g, M, p), t, Next(c, PlaceMachine(M, num), b, cf.store),
      After(c, num, M, b, cf.store, m))
  {
    hide *;
    SettingAcyclic(c, num, g);
    WayInside(c, num, M, EnvAt(g, M, p.prev), b, t, way, cf, m);
    LastMemory(c, num, g, M, EnvAt(g, M, p.prev), b, cf, m);
    EntryPhi(c, num, g, M, p, b, t, way);
    InsideNext(c, num, M, EnvAt(g, M, p), b, t, way, cf.store, After(c, num, M, b, cf.store, m));
  }

  lemma WayInside(c: C.Cfg, num: Numbering, M: Machine, env: Env, b: C.BlockId, t: C.BlockId, way: Role, cf: C.Config,
                  m: Memory)
    requires FromBlock(c, b, t, Entry(way, LastMem(c, b))) && Matches(c, num, M, env, way, cf, m)
    ensures Inside(c, num, M, env, b, cf, m) && cf.At? && cf.block == b && cf.index == 0
    ensures way == RTrue(b) ==> M.truthy(Predicate(PlaceMachine(M, num), c, b, cf.store))
    ensures way == RFalse(b) ==> !M.truthy(Predicate(PlaceMachine(M, num), c, b, cf.store))
  {
    hide Predicate, Entered;
  }

  lemma EntryPhi(c: C.Cfg, num: Numbering, g: Graph, M: Machine, p: Path, b: C.BlockId, t: C.BlockId, way: Role)
    requires FullSetting(c, num, g) && p.Go? && t in c.order && p.node == Num(num, RRegion(t))
    requires p.slot < |Entries(c, t)| && Entries(c, t)[p.slot] == Entry(way, LastMem(c, b))
    ensures Get(EnvAt(g, M, p), Num(num, RPhi(t))) == Eval(g, M, EnvAt(g, M, p.prev), Num(num, LastMem(c, b)))
  {
    hide FullSetting, Entries, EnvAt, Eval, LastMem;
    PhiAfter(c, num, g, M, p, RRegion(t), RPhi(t));
  }

  /** The store at the end of block `b` is the one block `t` is entered with. */
  lemma InsideNext(c: C.Cfg, num: Numbering, M: Machine, env: Env, b: C.BlockId, t: C.BlockId, way: Role, s: C.Store,
                   m: Memory)
    requires FromBlock(c, b, t, Entry(way, LastMem(c, b))) && Get(env, Num(num, RPhi(t))) == MemV(m)
    requires Agrees(M, c, num, m, Straight(PlaceMachine(M, num), Code(c, b), Plain(Code(c, b)), s))
    requires way == RTrue(b) ==> M.truthy(Predicate(PlaceMachine(M, num), c, b, s))
    requires way == RFalse(b) ==> !M.truthy(Predicate(PlaceMachine(M, num), c, b, s))
    ensures Inside(c, num, M, env, t, Next(c, PlaceMachine(M, num), b, s), m)
  {
    hide Agrees, Straight, Predicate, Plain;
  }

  lemma EnterFromStart(c: C.Cfg, num: Numbering, g: Graph, M: Machine, p: Path, t: C.BlockId)
    requires FullSetting(c, num, g) && p.Go? && t in c.order && p.node == Num(num, RRegion(t))
    requires p.slot < |Entries(c, t)| && FromStart(c, t, Entries(c, t)[p.slot])
    ensures Inside(c, num, M, EnvAt(g, M, p), t, Initially(c), Initial)
  {
    hide Setting, IsLowering, GoodNumbering, C.GoodCfg, Shape, Entries;
    PhiAfter(c, num, g, M, p, RRegion(t), RPhi(t));
    Node(c, num, g, RStartMem);
    AgreesInitially(M, c, num);
  }

  lemma LeaveFromBlock(c: C.Cfg, num: Numbering, g: Graph, M: Machine, p: Path, b: C.BlockId, cf: C.Config, m: Memory)
    requires FullSetting(c, num, g) && p.Go? && b in c.order && p.node == Num(num, REndRegion) && C.Exits(Code(c, b))
    requires p.slot < |Exits(c)| && Exits(c)[p.slot] == ExitOf(c, b)
    requires Inside(c, num, M, EnvAt(g, M, p.prev), b, cf, m)
    ensures Matches(c, num, M, EnvAt(g, M, p), REndRegion, Next(c, PlaceMachine(M, num), b, cf.store),
      After(c, num, M, b, cf.store, m))
  {
    hide *;
    SettingAcyclic(c, num, g);
    LastMemory(c, num, g, M, EnvAt(g, M, p.prev), b, cf, m);
    ExitPhis(c, num, g, M, p, b);
    ExitValue(c, num, g, M, EnvAt(g, M, p.prev), b, cf, m);
    LeftNext(c, num, M, EnvAt(g, M, p), b, cf.store, After(c, num, M, b, cf.store, m));
  }

  lemma ExitPhis(c: C.Cfg, num: Numbering, g: Graph, M: Machine, p: Path, b: C.BlockId)
    requires FullSetting(c, num, g) && p.Go? && b in c.order && p.node == Num(num, REndRegion)
    requires p.slot < |Exits(c)| && Exits(c)[p.slot] == ExitOf(c, b)
    ensures Get(EnvAt(g, M, p), Num(num, REndMem)) == Eval(g, M, EnvAt(g, M, p.prev), Num(num, LastMem(c, b)))
    ensures Get(EnvAt(g, M, p), Num(num, REndVal)) == Eval(g, M, EnvAt(g, M, p.prev), Num(num, ExitOf(c, b).val))
  {
    hide FullSetting, Exits, EnvAt, Eval, LastMem;
    PhiAfter(c, num, g, M, p, REndRegion, REndMem);
    PhiAfter(c, num, g, M, p, REndRegion, REndVal);
  }

  lemma ExitValue(c: C.Cfg, num: Numbering, g: Graph, M: Machine, env: Env, b: C.BlockId, cf: C.Config, m: Memory)
    requires FullSetting(c, num, g) && b in c.order && C.Exits(Code(c, b)) && Inside(c, num, M, env, b, cf, m)
    ensures Next(c, PlaceMachine(M, num), b, cf.store).Done?
    ensures Eval(g, M, env, Num(num, ExitOf(c, b).val)) ==
      ResultVal(Next(c, PlaceMachine(M, num), b, cf.store).result)
  {
    hide Setting, Shape, Inside, Predicate;
    if ReturnsValue(c, b) {
      hide Eval;
      LastLoad(c, num, g, M, env, b, cf, m);
    } else {
      Node(c, num, g, RNull(b));
    }
  }

  lemma LeftNext(c: C.Cfg, num: Numbering, M: Machine, env: Env, b: C.BlockId, s: C.Store, m: Memory)
    requires Next(c, PlaceMachine(M, num), b, s).Done? && Get(env, Num(num, REndMem)) == MemV(m)
    requires Get(env, Num(num, REndVal)) == ResultVal(Next(c, PlaceMachine(M, num), b, s).result)
    requires Agrees(M, c, num, m, Straight(PlaceMachine(M, num), Code(c, b), Plain(Code(c, b)), s))
    ensures Matches(c, num, M, env, REndRegion, Next(c, PlaceMachine(M, num), b, s), m)
  {
    hide Agrees, Straight, Predicate, Plain;
  }

  /** The predicate a branch shows is the one the block graph computes. */
  lemma BranchShown(c: C.Cfg, num: Numbering, g: Graph, M: Machine, env: Env, b: C.BlockId, cf: C.Config, m: Memory,
                    way: Role)
    requires FullSetting(c, num, g) && b in c.order && LastOp(c, b).Branch? && Inside(c, num, M, env, b, cf, m)
    requires way == RTrue(b) || way == RFalse(b)
    ensures Shown(g, M, env, Num(num, way)) ==
      [Took(WordV(Predicate(PlaceMachine(M, num), c, b, cf.store)), way == RTrue(b))]
  {
    hide Setting, IsLowering, GoodNumbering, C.GoodCfg, Shape, Agrees;
    Node(c, num, g, way);
    Node(c, num, g, RBranch(b));
    LastLoad(c, num, g, M, env, b, cf, m);
  }

  lemma EscapeNode(c: C.Cfg, num: Numbering, g: Graph, M: Machine, env: Env)
    requires FullSetting(c, num, g)
    ensures Eval(g, M, env, Num(num, REscape)) == MemV(Escaped(AsMemory(Eval(g, M, env, Num(num, REndMem)))))
  {
    hide Setting, Shape, AsMemory;
    Node(c, num, g, REscape);
    assert EvalArg(g, M, env, Num(num, REscape), 1) == Eval(g, M, env, Num(num, REndMem));
  }

  /** The value of a phi is the one it was given when its region was entered. */
  lemma PhiNode(c: C.Cfg, num: Numbering, g: Graph, M: Machine, env: Env, r: Role)
    requires FullSetting(c, num, g) && ValidRole(c, r) && KindOf(c, r) == Phi
    ensures Eval(g, M, env, Num(num, r)) == Get(env, Num(num, r))
  {
    hide Setting, Shape;
    Node(c, num, g, r);
  }

  lemma EndNode(c: C.Cfg, num: Numbering, g: Graph, M: Machine, env: Env)
    requires FullSetting(c, num, g)
    ensures Shown(g, M, env, Num(num, REnd)) ==
      [Finished(Observed(Eval(g, M, env, Num(num, REscape))), Eval(g, M, env, Num(num, REndVal)))]
  {
    hide Setting, Shape, Eval, Observed;
    Node(c, num, g, REnd);
  }

  lemma EndShown(c: C.Cfg, num: Numbering, g: Graph, M: Machine, env: Env, cf: C.Config, m: Memory)
    requires FullSetting(c, num, g) && Matches(c, num, M, env, REndRegion, cf, m)
    ensures Shown(g, M, env, Num(num, REnd)) == [Finished(MemV(m), ResultVal(cf.result))]
  {
    hide Setting, Shape, Agrees, Eval, Shown, ResultVal;
    EndNode(c, num, g, M, env);
    EscapeNode(c, num, g, M, env);
    PhiNode(c, num, g, M, env, REndMem);
    PhiNode(c, num, g, M, env, REndVal);
  }
}
