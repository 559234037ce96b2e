/** A lowered graph means what its block graph means: straight-line code. */
module LoweredMeaning {
  import opened Machines
  import C = Cfgs
  import opened Graphs
  import opened Roles
  import opened LoweredShape
  import opened LoweredGraph

  /** The machine of the block graph: a place initially holds what its alloca does. */
  function PlaceMachine(M: Machine, num: Numbering): Machine {
    Machine(M.apply, M.truthy, (p: nat) => M.init(Num(num, RAlloca(p))))
  }

  /** Memory `m` holds the values of store `s`. */
  ghost predicate Agrees(M: Machine, c: C.Cfg, num: Numbering, m: Memory, s: C.Store) {
    forall p: nat :: p < c.places ==>
      Lookup(M, m, AddrV(Num(num, RAlloca(p)))) == WordV(C.Read(PlaceMachine(M, num), s, p))
  }

  lemma AgreesInitially(M: Machine, c: C.Cfg, num: Numbering)
    ensures Agrees(M, c, num, Initial, map[])
  {}

  lemma AgreesAfterWrite(M: Machine, c: C.Cfg, num: Numbering, m: Memory, s: C.Store, p: C.Place, v: int)
    requires GoodNumbering(c, num) && Agrees(M, c, num, m, s) && p < c.places
    ensures Agrees(M, c, num, Written(m, AddrV(Num(num, RAlloca(p))), WordV(v)), s[p := v])
  {
    forall q: nat | q < c.places && q != p
      ensures Num(num, RAlloca(q)) != Num(num, RAlloca(p))
    {
      if Num(num, RAlloca(q)) == Num(num, RAlloca(p)) {
        Unique(c, num, RAlloca(q), RAlloca(p));
      }
    }
  }

  // ----- straight-line code -----

  /** The store before instruction `k`. */
  function Straight(M: Machine, code: seq<C.Inst>, k: nat, s: C.Store): C.Store
    requires k <= |code|
  {
    if k == 0 then s
    else
      var s' := Straight(M, code, k - 1, s);
      C.Write(s', code[k - 1].write, C.Value(M, s', code[k - 1]))
  }

  /** The memory after an instruction that does not jump: what it writes is added. */
  function Noted(M: Machine, num: Numbering, s: C.Store, i: C.Inst, m: Memory): Memory {
    if i.write.Slot? then Written(m, AddrV(Num(num, RAlloca(i.write.place))),
      WordV(C.Value(PlaceMachine(M, num), s, i))) else m
  }

  /** The memory before instruction `k`. */
  function Logged(M: Machine, num: Numbering, code: seq<C.Inst>, k: nat, s: C.Store, m: Memory): Memory
    requires k <= |code|
  {
    if k == 0 then m
    else Noted(M, num, Straight(PlaceMachine(M, num), code, k - 1, s), code[k - 1], Logged(M, num, code, k - 1, s, m))
  }

  // ----- the memory along a run of the blocks -----

  function StepNoted(M: Machine, num: Numbering, blocks: seq<C.Block>, cf: C.Config, m: Memory): Memory {
    if cf.Done? || cf.block >= |blocks| || cf.index >= |blocks[cf.block].code| then m
    else
      var i := blocks[cf.block].code[cf.index];
      if C.Jump(i.op) then m else Noted(M, num, cf.store, i, m)
  }

  /** The memory after `n` steps from `cf`: `m`, and the writes of those steps. */
  function Recorded(M: Machine, num: Numbering, blocks: seq<C.Block>, cf: C.Config, m: Memory, n: nat): Memory
    decreases n
  {
    if n == 0 then m
    else Recorded(M, num, blocks, C.Step(PlaceMachine(M, num), blocks, cf), StepNoted(M, num, blocks, cf, m), n - 1)
  }

  lemma {:induction false} RecordedAdd(M: Machine, num: Numbering, blocks: seq<C.Block>, cf: C.Config, m: Memory,
                                       j: nat, k: nat)
    ensures Recorded(M, num, blocks, cf, m, j + k) ==
      Recorded(M, num, blocks, C.Run(PlaceMachine(M, num), blocks, cf, j), Recorded(M, num, blocks, cf, m, j), k)
    decreases j
  {
    if j > 0 {
      RecordedAdd(M, num, blocks, C.Step(PlaceMachine(M, num), blocks, cf), StepNoted(M, num, blocks, cf, m), j - 1, k);
    }
  }

  lemma {:induction false} RecordedDone(M: Machine, num: Numbering, blocks: seq<C.Block>, cf: C.Config, m: Memory,
                                        n: nat)
    requires cf.Done?
    ensures Recorded(M, num, blocks, cf, m, n) == m
    decreases n
  {
    if n > 0 {
      RecordedDone(M, num, blocks, cf, m, n - 1);
    }
  }

  /** Straight-line code runs to its end, and tests nothing. */
  lemma StraightNone(M: Machine, num: Numbering, blocks: seq<C.Block>, b: C.BlockId, s: C.Store, m: Memory)
    requires b < |blocks|
    ensures var M', cf := PlaceMachine(M, num), C.At(b, 0, s);
      C.Run(M', blocks, cf, 0) == C.At(b, 0, Straight(M', blocks[b].code, 0, s)) && C.Trace(M', blocks, cf, 0) == [] &&
      Recorded(M, num, blocks, cf, m, 0) == Logged(M, num, blocks[b].code, 0, s, m)
  {}

  lemma StraightStep(M: Machine, num: Numbering, blocks: seq<C.Block>, b: C.BlockId, k: nat, s: C.Store, m: Memory)
    requires b < |blocks| && k < |blocks[b].code| && !C.Jump(blocks[b].code[k].op)
    ensures var M', code := PlaceMachine(M, num), blocks[b].code;
      var mid := C.At(b, k, Straight(M', code, k, s));
      C.Step(M', blocks, mid) == C.At(b, k + 1, Straight(M', code, k + 1, s)) && C.Tested(M', blocks, mid) == [] &&
      StepNoted(M, num, blocks, mid, Logged(M, num, code, k, s, m)) == Logged(M, num, code, k + 1, s, m)
  {
    hide C.Value, PlaceMachine;
  }

  lemma {:induction false} StraightRun(M: Machine, num: Numbering, blocks: seq<C.Block>, b: C.BlockId, k: nat,
                                       s: C.Store, m: Memory)
    requires b < |blocks| && k <= |blocks[b].code| && forall l :: 0 <= l < k ==> !C.Jump(blocks[b].code[l].op)
    ensures var M', cf := PlaceMachine(M, num), C.At(b, 0, s);
      C.Run(M', blocks, cf, k) == C.At(b, k, Straight(M', blocks[b].code, k, s)) && C.Trace(M', blocks, cf, k) == [] &&
      Recorded(M, num, blocks, cf, m, k) == Logged(M, num, blocks[b].code, k, s, m)
  {
    hide *;
    if k == 0 {
      StraightNone(M, num, blocks, b, s, m);
    } else {
      StraightRun(M, num, blocks, b, k - 1, s, m);
      StepOn(M, num, blocks, C.At(b, 0, s), k - 1, m);
      StraightStep(M, num, blocks, b, k - 1, s, m);
      var none: seq<int> := [];
      assert none + none == none;
    }
  }

  /** One step more. */
  lemma {:induction false} StepOn(M: Machine, num: Numbering, blocks: seq<C.Block>, cf: C.Config, n: nat, m: Memory)
    ensures var M', mid := PlaceMachine(M, num), C.Run(PlaceMachine(M, num), blocks, cf, n);
      C.Run(M', blocks, cf, n + 1) == C.Step(M', blocks, mid) &&
      C.Trace(M', blocks, cf, n + 1) == C.Trace(M', blocks, cf, n) + C.Tested(M', blocks, mid) &&
      Recorded(M, num, blocks, cf, m, n + 1) == StepNoted(M, num, blocks, mid, Recorded(M, num, blocks, cf, m, n))
  {
    var M', mid := PlaceMachine(M, num), C.Run(PlaceMachine(M, num), blocks, cf, n);
    C.RunAdd(M', blocks, cf, n, 1);
    C.TraceAdd(M', blocks, cf, n, 1);
    RecordedAdd(M, num, blocks, cf, m, n, 1);
    var next, after := C.Step(M', blocks, mid), StepNoted(M, num, blocks, mid, Recorded(M, num, blocks, cf, m, n));
    assert C.Run(M', blocks, next, 0) == next && C.Trace(M', blocks, next, 0) == [];
    assert Recorded(M, num, blocks, next, after, 0) == after;
    assert C.Tested(M', blocks, mid) + [] == C.Tested(M', blocks, mid);
  }

  /** The phi of block `b` holds a memory that agrees with the store the block is entered with. */
  ghost predicate Entered(c: C.Cfg, num: Numbering, M: Machine, env: Env, b: C.BlockId, m: Memory, s: C.Store) {
    Get(env, Num(num, RPhi(b))) == MemV(m) && Agrees(M, c, num, m, s)
  }

  ghost predicate Sound(c: C.Cfg, num: Numbering, g: Graph, M: Machine, env: Env, b: C.BlockId, k: nat, m: Memory,
                        s: C.Store)
    requires Acyclic(g) && k <= |Code(c, b)|
  {
    var m' := Logged(M, num, Code(c, b), k, s, m);
    Eval(g, M, env, Num(num, MemAt(b, k))) == MemV(m') &&
    Agrees(M, c, num, m', Straight(PlaceMachine(M, num), Code(c, b), k, s))
  }

  // ----- what a node computes, in terms of its role -----

  lemma AllocaEval(c: C.Cfg, num: Numbering, g: Graph, M: Machine, env: Env, p: C.Place)
    requires Setting(c, num, g) && Acyclic(g) && p < c.places
    ensures Eval(g, M, env, Num(num, RAlloca(p))) == AddrV(Num(num, RAlloca(p)))
  {
    hide Setting;
    Node(c, num, g, RAlloca(p));
  }

  lemma LoadNode(c: C.Cfg, num: Numbering, g: Graph, M: Machine, env: Env, b: C.BlockId, k: nat, i: nat)
    requires Setting(c, num, g) && Acyclic(g) && ValidRole(c, RLoad(b, k, i))
    ensures Eval(g, M, env, Num(num, RLoad(b, k, i))) ==
      Lookup(M, AsMemory(Eval(g, M, env, Num(num, MemAt(b, k)))), Eval(g, M, env, Num(num, PlaceOf(c, b, k, i))))
  {
    hide Setting, MemAt, PlaceOf, Lookup, AsMemory, ValidRole;
    Node(c, num, g, RLoad(b, k, i));
    var n := Num(num, RLoad(b, k, i));
    assert EvalArg(g, M, env, n, 1) == Eval(g, M, env, Num(num, MemAt(b, k)));
    assert EvalArg(g, M, env, n, 2) == Eval(g, M, env, Num(num, PlaceOf(c, b, k, i)));
  }

  lemma StoreNode(c: C.Cfg, num: Numbering, g: Graph, M: Machine, env: Env, b: C.BlockId, k: nat)
    requires Setting(c, num, g) && Acyclic(g) && ValidRole(c, RStore(b, k))
    ensures Eval(g, M, env, Num(num, RStore(b, k))) ==
      MemV(Written(AsMemory(Eval(g, M, env, Num(num, MemAt(b, k)))), Eval(g, M, env, Num(num, WritePlace(c, b, k))),
                   Eval(g, M, env, Num(num, ResultOf(c, b, k)))))
  {
    hide Setting, MemAt, WritePlace, ResultOf, AsMemory, ValidRole;
    Node(c, num, g, RStore(b, k));
    var n := Num(num, RStore(b, k));
    assert EvalArg(g, M, env, n, 1) == Eval(g, M, env, Num(num, MemAt(b, k)));
    assert EvalArg(g, M, env, n, 2) == Eval(g, M, env, Num(num, WritePlace(c, b, k)));
    assert EvalArg(g, M, env, n, 3) == Eval(g, M, env, Num(num, ResultOf(c, b, k)));
  }

  lemma ConstantNode(c: C.Cfg, num: Numbering, g: Graph, M: Machine, env: Env, b: C.BlockId, k: nat)
    requires Setting(c, num, g) && Acyclic(g) && ValidRole(c, RValue(b, k)) && Code(c, b)[k].op.IntegerConst?
    ensures Eval(g, M, env, Num(num, RValue(b, k))) == WordV(Code(c, b)[k].op.value)
  {
    hide Setting;
    Node(c, num, g, RValue(b, k));
  }

  lemma ArithmeticNode(c: C.Cfg, num: Numbering, g: Graph, M: Machine, env: Env, b: C.BlockId, k: nat, x: int, y: int)
    requires Setting(c, num, g) && Acyclic(g) && ValidRole(c, RValue(b, k)) && Code(c, b)[k].op.Arithmetic?
    requires Eval(g, M, env, Num(num, RLoad(b, k, 0))) == WordV(x)
    requires Eval(g, M, env, Num(num, RLoad(b, k, 1))) == WordV(y)
    ensures Eval(g, M, env, Num(num, RValue(b, k))) == WordV(M.apply(Code(c, b)[k].op.op, x, y))
  {
    hide Setting;
    Node(c, num, g, RValue(b, k));
    ArithmeticRole(c, b, k);
    var n := Num(num, RValue(b, k));
    hide KindOf, Inputs, ValidRole, Code;
    assert EvalArg(g, M, env, n, 0) == Eval(g, M, env, Num(num, RLoad(b, k, 0)));
    assert EvalArg(g, M, env, n, 1) == Eval(g, M, env, Num(num, RLoad(b, k, 1)));
  }

  lemma ArithmeticRole(c: C.Cfg, b: C.BlockId, k: nat)
    requires k < |Code(c, b)| && Code(c, b)[k].op.Arithmetic?
    ensures KindOf(c, RValue(b, k)) == Arith(Code(c, b)[k].op.op)
    ensures Inputs(c, RValue(b, k)) == [RLoad(b, k, 0), RLoad(b, k, 1)]
  {}

  // ----- blocks -----

  /** A load reads what the store holds. */
  lemma LoadEval(c: C.Cfg, num: Numbering, g: Graph, M: Machine, env: Env, b: C.BlockId, k: nat, i: nat, m: Memory,
                 s: C.Store)
    requires Setting(c, num, g) && Acyclic(g) && ValidRole(c, RLoad(b, k, i)) && k <= Plain(Code(c, b))
    requires Sound(c, num, g, M, env, b, k, m, s)
    ensures Eval(g, M, env, Num(num, RLoad(b, k, i))) ==
      WordV(C.Operand(PlaceMachine(M, num), Straight(PlaceMachine(M, num), Code(c, b), k, s), Code(c, b)[k], i))
  {
    hide Setting, IsLowering, GoodNumbering, C.GoodCfg, Eval, Agrees, Straight, Logged, Lookup, MemAt,
         PlaceMachine, Plain;
    Lists(c, num, g);
    InstAt(c, b, k);
    LoadNode(c, num, g, M, env, b, k, i);
    var ref := Code(c, b)[k].args[i];
    assert ref in Code(c, b)[k].args;
    AllocaEval(c, num, g, M, env, ref.place);
    LookupPlace(M, c, num, Logged(M, num, Code(c, b), k, s, m), Straight(PlaceMachine(M, num), Code(c, b), k, s),
      ref.place);
  }

  lemma LookupPlace(M: Machine, c: C.Cfg, num: Numbering, m: Memory, s: C.Store, p: C.Place)
    requires Agrees(M, c, num, m, s) && p < c.places
    ensures Lookup(M, m, AddrV(Num(num, RAlloca(p)))) == WordV(C.Read(PlaceMachine(M, num), s, p))
  {}

  /** The result of an instruction is the value it computes. */
  lemma ResultEval(c: C.Cfg, num: Numbering, g: Graph, M: Machine, env: Env, b: C.BlockId, k: nat, m: Memory,
                   s: C.Store)
    requires Setting(c, num, g) && Acyclic(g) && b in c.order && k < Plain(Code(c, b))
    requires Sound(c, num, g, M, env, b, k, m, s)
    ensures ValidRole(c, ResultOf(c, b, k))
    ensures Eval(g, M, env, Num(num, ResultOf(c, b, k))) ==
      WordV(C.Value(PlaceMachine(M, num), Straight(PlaceMachine(M, num), Code(c, b), k, s), Code(c, b)[k]))
  {
    hide Setting, IsLowering, GoodNumbering, C.GoodCfg, Sound, Eval, Straight, Plain, PlaceMachine, C.Operand;
    Lists(c, num, g);
    InstAt(c, b, k);
    MachineIs(M, num);
    var op := Code(c, b)[k].op;
    if op.IntegerConst? {
      ConstantNode(c, num, g, M, env, b, k);
    } else {
      LoadEval(c, num, g, M, env, b, k, 0, m, s);
      if op.Arithmetic? {
        LoadEval(c, num, g, M, env, b, k, 1, m, s);
        var M', s' := PlaceMachine(M, num), Straight(PlaceMachine(M, num), Code(c, b), k, s);
        ArithmeticNode(c, num, g, M, env, b, k, C.Operand(M', s', Code(c, b)[k], 0),
          C.Operand(M', s', Code(c, b)[k], 1));
      }
    }
  }

  lemma MachineIs(M: Machine, num: Numbering)
    ensures PlaceMachine(M, num).apply == M.apply && PlaceMachine(M, num).truthy == M.truthy
  {}

  /** Along a block, the current memory node holds the current store. */
  lemma {:induction false} BlockSound(c: C.Cfg, num: Numbering, g: Graph, M: Machine, env: Env, b: C.BlockId, k: nat,
                                      m: Memory, s: C.Store)
    requires Setting(c, num, g) && Acyclic(g) && b in c.order && k <= Plain(Code(c, b))
    requires Entered(c, num, M, env, b, m, s)
    ensures Sound(c, num, g, M, env, b, k, m, s)
  {
    hide Setting, IsLowering, GoodNumbering, C.GoodCfg, Agrees;
    Lists(c, num, g);
    if k == 0 {
      Node(c, num, g, RPhi(b));
    } else {
      hide *;
      BlockSound(c, num, g, M, env, b, k - 1, m, s);
      StoreSound(c, num, g, M, env, b, k - 1, m, s);
    }
  }

  lemma StoreSound(c: C.Cfg, num: Numbering, g: Graph, M: Machine, env: Env, b: C.BlockId, k: nat, m: Memory,
                   s: C.Store)
    requires Setting(c, num, g) && Acyclic(g) && b in c.order && k < Plain(Code(c, b))
    requires Sound(c, num, g, M, env, b, k, m, s)
    ensures Sound(c, num, g, M, env, b, k + 1, m, s)
  {
    hide Setting, IsLowering, GoodNumbering, C.GoodCfg, Agrees, Eval, PlaceMachine, Plain, C.Value, ResultOf;
    Lists(c, num, g);
    InstAt(c, b, k);
    ResultEval(c, num, g, M, env, b, k, m, s);
    StoreNode(c, num, g, M, env, b, k);
    var w := Code(c, b)[k].write.place;
    AllocaEval(c, num, g, M, env, w);
    var s', m' := Straight(PlaceMachine(M, num), Code(c, b), k, s), Logged(M, num, Code(c, b), k, s, m);
    AgreesAfterWrite(M, c, num, m', s', w, C.Value(PlaceMachine(M, num), s', Code(c, b)[k]));
  }
}
