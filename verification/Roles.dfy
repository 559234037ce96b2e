/** What graph a block graph is lowered to: every node has a role in the block graph, and the role
    tells its kind and its inputs. */
module Roles {
  import C = Cfgs
  import opened Graphs

  datatype Role =
    | RNone                                  // the null input
    | RStart | RStartCtrl | RStartMem
    | RAlloca(place: C.Place)
    | RRegion(b: C.BlockId) | RPhi(b: C.BlockId)
    | RLoad(b: C.BlockId, k: nat, i: nat)    // read of argument `i` of instruction `k`
    | RValue(b: C.BlockId, k: nat)           // constant or arithmetic result of instruction `k`
    | RStore(b: C.BlockId, k: nat)           // write of instruction `k`
    | RBranch(b: C.BlockId) | RTrue(b: C.BlockId) | RFalse(b: C.BlockId)
    | RNull(b: C.BlockId)                    // the value returned when there is none
    | REndRegion | REndMem | REndVal | REscape | REnd

  function Code(c: C.Cfg, b: C.BlockId): seq<C.Inst> {
    if b < |c.blocks| then c.blocks[b].code else []
  }

  /** How many instructions come before the jump that ends the block, if one does. */
  function Plain(code: seq<C.Inst>): (n: nat)
    ensures n <= |code|
  {
    if |code| > 0 && C.Jump(code[|code| - 1].op) then |code| - 1 else |code|
  }

  /** The memory as instruction `k` finds it. */
  function MemAt(b: C.BlockId, k: nat): Role {
    if k == 0 then RPhi(b) else RStore(b, k - 1)
  }

  function LastMem(c: C.Cfg, b: C.BlockId): Role {
    MemAt(b, Plain(Code(c, b)))
  }

  predicate Computes(op: C.Op) {
    op.IntegerConst? || op.Arithmetic?
  }

  function ResultOf(c: C.Cfg, b: C.BlockId, k: nat): Role {
    if k < |Code(c, b)| && Computes(Code(c, b)[k].op) then RValue(b, k) else RLoad(b, k, 0)
  }

  function LastOp(c: C.Cfg, b: C.BlockId): C.Op {
    var code := Code(c, b);
    if |code| == 0 then C.Copy else code[|code| - 1].op
  }

  predicate ReturnsValue(c: C.Cfg, b: C.BlockId) {
    LastOp(c, b) == C.Return && |Code(c, b)| > 0 && |Code(c, b)[|Code(c, b)| - 1].args| > 0
  }

  ghost predicate ValidRole(c: C.Cfg, r: Role) {
    match r
    case RNone => false
    case RAlloca(p) => p < c.places
    case RRegion(b) => b in c.order
    case RPhi(b) => b in c.order
    case RLoad(b, k, i) => b in c.order && k < |Code(c, b)| && i < |Code(c, b)[k].args|
    case RValue(b, k) => b in c.order && k < |Code(c, b)| && Computes(Code(c, b)[k].op)
    case RStore(b, k) => b in c.order && k < Plain(Code(c, b))
    case RBranch(b) => b in c.order && LastOp(c, b).Branch?
    case RTrue(b) => b in c.order && LastOp(c, b).Branch?
    case RFalse(b) => b in c.order && LastOp(c, b).Branch?
    case RNull(b) => b in c.order && C.Exits(Code(c, b)) && !ReturnsValue(c, b)
    case _ => true
  }

  // ----- the ways into a block, and out of the function -----

  datatype Entry = Entry(ctrl: Role, mem: Role)

  function BlockEntries(c: C.Cfg, b: C.BlockId, t: C.BlockId): seq<Entry> {
    match LastOp(c, b)
    case Goto(x) => if x == t then [Entry(RRegion(b), LastMem(c, b))] else []
    case Branch(x, y) =>
      (if x == t then [Entry(RTrue(b), LastMem(c, b))] else []) +
      (if y == t then [Entry(RFalse(b), LastMem(c, b))] else [])
    case _ => []
  }

  function EntriesUpTo(c: C.Cfg, t: C.BlockId, n: nat): seq<Entry>
    requires n <= |c.order|
  {
    if n == 0 then [] else EntriesUpTo(c, t, n - 1) + BlockEntries(c, c.order[n - 1], t)
  }

  /** The entries into block `t`, in the order in which they are found. */
  function Entries(c: C.Cfg, t: C.BlockId): seq<Entry> {
    EntriesUpTo(c, t, |c.order|) + if |c.order| > 0 && c.order[0] == t then [Entry(RStartCtrl, RStartMem)] else []
  }

  datatype Exit = Exit(ctrl: Role, mem: Role, val: Role)

  function BlockExits(c: C.Cfg, b: C.BlockId): seq<Exit> {
    if !C.Exits(Code(c, b)) then []
    else [Exit(RRegion(b), LastMem(c, b), if ReturnsValue(c, b) then RLoad(b, |Code(c, b)| - 1, 0) else RNull(b))]
  }

  function ExitsUpTo(c: C.Cfg, n: nat): seq<Exit>
    requires n <= |c.order|
  {
    if n == 0 then [] else ExitsUpTo(c, n - 1) + BlockExits(c, c.order[n - 1])
  }

  function Exits(c: C.Cfg): seq<Exit> {
    ExitsUpTo(c, |c.order|)
  }

  // ----- nodes -----

  function Ctrls(es: seq<Entry>): seq<Role> {
    seq(|es|, j requires 0 <= j < |es| => es[j].ctrl)
  }

  function Mems(es: seq<Entry>): seq<Role> {
    seq(|es|, j requires 0 <= j < |es| => es[j].mem)
  }

  function ExitCtrls(es: seq<Exit>): seq<Role> {
    seq(|es|, j requires 0 <= j < |es| => es[j].ctrl)
  }

  function ExitMems(es: seq<Exit>): seq<Role> {
    seq(|es|, j requires 0 <= j < |es| => es[j].mem)
  }

  function ExitVals(es: seq<Exit>): seq<Role> {
    seq(|es|, j requires 0 <= j < |es| => es[j].val)
  }

  function PlaceOf(c: C.Cfg, b: C.BlockId, k: nat, i: nat): Role {
    if k < |Code(c, b)| && i < |Code(c, b)[k].args| && Code(c, b)[k].args[i].Slot?
      then RAlloca(Code(c, b)[k].args[i].place) else RNone
  }

  function WritePlace(c: C.Cfg, b: C.BlockId, k: nat): Role {
    if k < |Code(c, b)| && Code(c, b)[k].write.Slot? then RAlloca(Code(c, b)[k].write.place) else RNone
  }

  /** The inputs of the node in role `r`. */
  function Inputs(c: C.Cfg, r: Role): seq<Role> {
    match r
    case RNone => []
    case RStart => []
    case RRegion(b) => Ctrls(Entries(c, b))
    case RPhi(b) => [RRegion(b)] + Mems(Entries(c, b))
    case RLoad(b, k, i) => [RRegion(b), MemAt(b, k), PlaceOf(c, b, k, i)]
    case RValue(b, k) =>
      if k < |Code(c, b)| && Code(c, b)[k].op.Arithmetic? then [RLoad(b, k, 0), RLoad(b, k, 1)] else [RStart]
    case RStore(b, k) => [RRegion(b), MemAt(b, k), WritePlace(c, b, k), ResultOf(c, b, k)]
    case RBranch(b) => [RRegion(b), RLoad(b, Plain(Code(c, b)), 0)]
    case RTrue(b) => [RBranch(b)]
    case RFalse(b) => [RBranch(b)]
    case REndRegion => ExitCtrls(Exits(c))
    case REndMem => [REndRegion] + ExitMems(Exits(c))
    case REndVal => [REndRegion] + ExitVals(Exits(c))
    case REscape => [RNone, REndMem]
    case REnd => [REndRegion, REscape, REndVal]
    case _ => [RStart]
  }

  function KindOf(c: C.Cfg, r: Role): Kind {
    match r
    case RNone => Null
    case RStart => Start
    case RStartCtrl => StartCtrl
    case RStartMem => StartMem
    case RAlloca(_) => Alloca
    case RRegion(_) => Region
    case RPhi(_) => Phi
    case RLoad(_, _, _) => Load
    case RValue(b, k) => if k < |Code(c, b)| && Code(c, b)[k].op.Arithmetic? then Arith(Code(c, b)[k].op.op)
      else Constant
    case RStore(_, _) => Store
    case RBranch(_) => Branch
    case RTrue(_) => BranchTrue
    case RFalse(_) => BranchFalse
    case RNull(_) => Null
    case REndRegion => Region
    case REndMem => Phi
    case REndVal => Phi
    case REscape => MemEscape
    case REnd => End
  }

  function ConstOf(c: C.Cfg, r: Role): int {
    if r.RValue? && r.k < |Code(c, r.b)| && Code(c, r.b)[r.k].op.IntegerConst? then Code(c, r.b)[r.k].op.value else 0
  }

  type Numbering = map<Role, Id>

  function Num(num: Numbering, r: Role): Id {
    if r in num then num[r] else 0
  }

  function NumAll(num: Numbering, rs: seq<Role>): seq<Id> {
    seq(|rs|, i requires 0 <= i < |rs| => Num(num, rs[i]))
  }

  function VertexOf(c: C.Cfg, num: Numbering, r: Role): Vertex {
    Vertex(KindOf(c, r), NumAll(num, Inputs(c, r)), ConstOf(c, r))
  }

  predicate SameNum(num: Numbering, q: Role, r: Role) {
    Num(num, q) == Num(num, r)
  }

  /** `num` gives each role its own id; value inputs are made before what uses them. */
  ghost predicate GoodNumbering(c: C.Cfg, num: Numbering) {
    (forall r :: r in num <==> ValidRole(c, r)) && (forall r :: r in num ==> num[r] != 0) &&
    (forall q, r {:trigger SameNum(num, q, r)} :: q in num && r in num && SameNum(num, q, r) ==> q == r) &&
    forall r, i :: r in num && 0 <= i < |Inputs(c, r)| && Operand(KindOf(c, r), i) ==>
      Num(num, Inputs(c, r)[i]) < num[r]
  }

  /** `g` is the block graph `c` as nodes: one per role, with the kind and inputs of its role. */
  ghost predicate IsLowering(c: C.Cfg, num: Numbering, g: Graph) {
    GoodNumbering(c, num) && g.start == Num(num, RStart) && g.end == Num(num, REnd) &&
    (forall r :: r in num ==> num[r] in g.nodes && g.nodes[num[r]] == VertexOf(c, num, r)) &&
    forall n :: n in g.nodes ==> exists r :: r in num && num[r] == n
  }
}
