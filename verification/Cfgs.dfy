/** The block graph between the checker and the lowering, and how it runs. */
module Cfgs {
  import opened Machines

  type BlockId = nat
  type Place = nat

  /** A place of an instruction, or the null place. */
  datatype PlaceRef = NoPlace | Slot(place: Place)

  datatype Op =
    | IntegerConst(value: int)
    | Arithmetic(op: BinOp)
    | Copy
    | Return
    | Goto(target: BlockId)
    | Branch(thenTo: BlockId, elseTo: BlockId)

  datatype Inst = Inst(op: Op, args: seq<PlaceRef>, write: PlaceRef)

  datatype Block = Block(code: seq<Inst>, usercode: bool)

  /** All blocks ever made, and the list of those in use; the first of the list is the entry. */
  datatype Cfg = Cfg(blocks: seq<Block>, order: seq<BlockId>, places: nat)

  // ----- running -----

  type Store = map<Place, int>

  function Read(M: Machine, s: Store, p: Place): int {
    if p in s then s[p] else M.init(p)
  }

  function ReadRef(M: Machine, s: Store, r: PlaceRef): int {
    if r.Slot? then Read(M, s, r.place) else 0
  }

  function Write(s: Store, w: PlaceRef, v: int): Store {
    if w.Slot? then s[w.place := v] else s
  }

  function Operand(M: Machine, s: Store, i: Inst, k: nat): int {
    if k < |i.args| then ReadRef(M, s, i.args[k]) else 0
  }

  datatype Config = At(block: BlockId, index: nat, store: Store) | Done(result: Result, store: Store)

  datatype Result = Nothing | Just(value: int)

  /** The value a non-jump instruction computes. */
  function Value(M: Machine, s: Store, i: Inst): int {
    match i.op
    case IntegerConst(v) => v
    case Arithmetic(op) => M.apply(op, Operand(M, s, i, 0), Operand(M, s, i, 1))
    case _ => Operand(M, s, i, 0)
  }

  function Step(M: Machine, blocks: seq<Block>, c: Config): Config {
    if c.Done? || c.block >= |blocks| then c
    else
      var code := blocks[c.block].code;
      if c.index >= |code| then Done(Nothing, c.store)
      else
        var i := code[c.index];
        match i.op
        case Return => Done(if |i.args| == 0 then Nothing else Just(Operand(M, c.store, i, 0)), c.store)
        case Goto(t) => At(t, 0, c.store)
        case Branch(t, e) => At(if M.truthy(Operand(M, c.store, i, 0)) then t else e, 0, c.store)
        case _ => At(c.block, c.index + 1, Write(c.store, i.write, Value(M, c.store, i)))
  }

  function Run(M: Machine, blocks: seq<Block>, c: Config, n: nat): Config
    decreases n
  {
    if n == 0 then c else Run(M, blocks, Step(M, blocks, c), n - 1)
  }

  lemma RunAdd(M: Machine, blocks: seq<Block>, c: Config, m: nat, n: nat)
    ensures Run(M, blocks, c, m + n) == Run(M, blocks, Run(M, blocks, c, m), n)
    decreases m
  {
    if m > 0 {
      RunAdd(M, blocks, Step(M, blocks, c), m - 1, n);
    }
  }

  lemma RunDone(M: Machine, blocks: seq<Block>, c: Config, n: nat)
    requires c.Done?
    ensures Run(M, blocks, c, n) == c
    decreases n
  {}

  /** The value a step tests, if it branches. */
  function Tested(M: Machine, blocks: seq<Block>, c: Config): (w: seq<int>)
    ensures |w| <= 1
  {
    if c.Done? || c.block >= |blocks| || c.index >= |blocks[c.block].code| then []
    else
      var i := blocks[c.block].code[c.index];
      if i.op.Branch? then [Operand(M, c.store, i, 0)] else []
  }

  /** The values tested in `n` steps. */
  function Trace(M: Machine, blocks: seq<Block>, c: Config, n: nat): (w: seq<int>)
    ensures |w| <= n
    decreases n
  {
    if n == 0 then [] else Tested(M, blocks, c) + Trace(M, blocks, Step(M, blocks, c), n - 1)
  }

  lemma {:induction false} TraceAdd(M: Machine, blocks: seq<Block>, c: Config, m: nat, n: nat)
    ensures Trace(M, blocks, c, m + n) == Trace(M, blocks, c, m) + Trace(M, blocks, Run(M, blocks, c, m), n)
    decreases m
  {
    hide *;
    TraceStep(M, blocks, c, m);
    RunStep(M, blocks, c, m);
    if m > 0 {
      var d := Step(M, blocks, c);
      TraceStep(M, blocks, c, m + n);
      TraceAdd(M, blocks, d, m - 1, n);
      assert Tested(M, blocks, c) + (Trace(M, blocks, d, m - 1) + Trace(M, blocks, Run(M, blocks, d, m - 1), n)) ==
        Tested(M, blocks, c) + Trace(M, blocks, d, m - 1) + Trace(M, blocks, Run(M, blocks, d, m - 1), n);
    }
  }

  lemma {:induction false} TraceStep(M: Machine, blocks: seq<Block>, c: Config, n: nat)
    ensures Trace(M, blocks, c, n) ==
      if n == 0 then [] else Tested(M, blocks, c) + Trace(M, blocks, Step(M, blocks, c), n - 1)
  {}

  lemma {:induction false} RunStep(M: Machine, blocks: seq<Block>, c: Config, n: nat)
    ensures Run(M, blocks, c, n) == if n == 0 then c else Run(M, blocks, Step(M, blocks, c), n - 1)
  {}

  lemma TraceDone(M: Machine, blocks: seq<Block>, c: Config, n: nat)
    requires c.Done?
    ensures Trace(M, blocks, c, n) == []
    decreases n
  {}

  // ----- well-formed block graphs -----

  predicate Jump(op: Op) {
    op.Goto? || op.Branch? || op.Return?
  }

  predicate GoodRef(r: PlaceRef, places: nat) {
    r.Slot? && r.place < places
  }

  predicate GoodInst(i: Inst, places: nat) {
    (forall r :: r in i.args ==> GoodRef(r, places)) &&
    match i.op
    case IntegerConst(_) => |i.args| == 0 && GoodRef(i.write, places)
    case Arithmetic(_) => |i.args| == 2 && GoodRef(i.write, places)
    case Copy => |i.args| == 1 && GoodRef(i.write, places)
    case Return => |i.args| <= 1 && i.write == NoPlace
    case Goto(_) => |i.args| == 0 && i.write == NoPlace
    case Branch(_, _) => |i.args| == 1 && i.write == NoPlace
  }

  /** Jumps only at the end. */
  predicate GoodCode(code: seq<Inst>, places: nat) {
    forall k :: 0 <= k < |code| ==> GoodInst(code[k], places) && (Jump(code[k].op) ==> k == |code| - 1)
  }

  predicate Succ(code: seq<Inst>, t: BlockId) {
    |code| > 0 && match code[|code| - 1].op
    case Goto(x) => x == t
    case Branch(x, y) => x == t || y == t
    case _ => false
  }

  /** Control leaves the function at the end of the block. */
  predicate Exits(code: seq<Inst>) {
    |code| == 0 || !(code[|code| - 1].op.Goto? || code[|code| - 1].op.Branch?)
  }

  ghost predicate ForwardClosed(c: Cfg, K: set<BlockId>) {
    (|c.order| > 0 ==> c.order[0] in K) &&
    forall b, t :: b in K && b in c.order && b < |c.blocks| && Succ(c.blocks[b].code, t) ==> t in K
  }

  ghost predicate BackwardClosed(c: Cfg, K: set<BlockId>) {
    (forall b :: b in c.order && b < |c.blocks| && Exits(c.blocks[b].code) ==> b in K) &&
    forall b, t :: b in c.order && b < |c.blocks| && t in K && Succ(c.blocks[b].code, t) ==> b in K
  }

  /** The flag tells whether there is anything but jumps that the program did not write. */
  predicate Flagged(b: Block) {
    b.usercode <==> exists k :: 0 <= k < |b.code| && !b.code[k].op.Goto? && !b.code[k].op.Branch?
  }

  ghost predicate Listed(c: Cfg) {
    |c.order| > 0 && (forall i :: 0 <= i < |c.order| ==> c.order[i] < |c.blocks|) &&
    (forall i, j :: 0 <= i < j < |c.order| ==> c.order[i] != c.order[j]) &&
    forall b, t :: b in c.order && Succ(c.blocks[b].code, t) ==> t in c.order
  }

  /** The block graphs that can be lowered: every listed block is reached, and reaches an exit. */
  ghost predicate GoodCfg(c: Cfg) {
    Listed(c) && (forall b :: b in c.order ==> GoodCode(c.blocks[b].code, c.places)) &&
    (forall K :: ForwardClosed(c, K) ==> forall b :: b in c.order ==> b in K) &&
    (forall K :: BackwardClosed(c, K) ==> forall b :: b in c.order ==> b in K)
  }
}
