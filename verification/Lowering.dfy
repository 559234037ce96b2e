/** Lowering a block graph: places become allocas, reads loads and writes stores. */
module Lowering {
  import C = Cfgs
  import opened Graphs
  import opened Rewrites
  import opened Nodes
  import opened Funcs
  import opened Core
  import opened Roles
  import opened LoweredShape
  import opened Drafts
  import opened LoweringState
  import LoweredGraph
  import opened LoweredBlocks

  class Lowerer {
    const func: Func
    var blockData: map<C.BlockId, BlockData>
    var places: seq<Node>
    var ctrl: Node?
    var mem: Node?
    var endCtrl: seq<Node>
    var endMem: seq<Node>
    var endVal: seq<Node>
    var hadReturn: bool
    ghost var num: Numbering
    ghost var nodes: map<Id, Vertex>
    ghost var open: set<Role>

    constructor ()
      ensures fresh(func) && func.start == null && func.end == null && func.live == {} && func.nextId == 1
      ensures places == [] && endCtrl == [] && endMem == []
      ensures endVal == [] && num == map[] && nodes == map[]
      ensures open == {}
    {
      func := new Func();
      blockData, places, ctrl, mem := map[], [], null, null;
      endCtrl, endMem, endVal, hadReturn := [], [], [], false;
      num, nodes, open := map[], map[], {};
    }

    ghost predicate Valid(c: C.Cfg)
      reads this`num, this`nodes, this`open, func`live, func`nextId, func.live
    {
      func.nextId > 0 && Building(func, nodes) && Draft(c, num, nodes, open)
    }

    /** A node in role `r`, with its inputs. */
    method NewRole(ghost c: C.Cfg, ghost r: Role, kind: Kind, value: int, inputs: seq<Node?>) returns (node: Node)
      requires Valid(c) && ValidRole(c, r) && r !in num && KindOf(c, r) == kind && ConstOf(c, r) == value
      requires HoldsAll(func.live, num, inputs, Inputs(c, r))
      modifies this`num, this`nodes, func`nextId, func`live, func.live`uses
      ensures Valid(c) && fresh(node) && num == old(num)[r := node.id] && func.live == old(func.live) + {node}
      ensures Grows(old(num), num)
    {
      hide Building, Draft, ValidRole, Inputs, KindOf, ConstOf, HoldsAll, Known;
      HoldsAllKnown(c, num, nodes, open, func.live, inputs, r);
      SmallIds(func, nodes);
      ghost var was := nodes;
      node := Make(func, kind, value, inputs, nodes);
      Draw(c, num, was, open, r, node.id, VertexOf(c, num, r), true);
      num, nodes := num[r := node.id], was[node.id := VertexOf(c, num, r)];
    }

    /** A region or phi whose inputs come later. */
    method NewJoin(ghost c: C.Cfg, ghost r: Role, kind: Kind) returns (node: Node)
      requires Valid(c) && ValidRole(c, r) && r !in num && KindOf(c, r) == kind && Join(c, r)
      modifies this`num, this`nodes, this`open, func`nextId, func`live
      ensures Valid(c) && fresh(node) && num == old(num)[r := node.id] && func.live == old(func.live) + {node}
      ensures Grows(old(num), num) && open == old(open) + {r} && node.ins == []
    {
      hide Building, Draft, ValidRole, Inputs, KindOf, ConstOf, Known, Join;
      SmallIds(func, nodes);
      ghost var was := nodes;
      node := NewNode(func, kind, 0, 0, nodes);
      ghost var v := Vertex(kind, [], 0);
      assert seq(0, _ => 0 as Id) == [];
      Draw(c, num, was, open, r, node.id, v, false);
      num, nodes, open := num[r := node.id], was[node.id := v], open + {r};
    }

    /** The inputs of a region or phi, once they are all known. */
    method SetJoin(ghost c: C.Cfg, ghost r: Role, node: Node, inputs: seq<Node?>)
      requires Valid(c) && r in open && Holds(func.live, num, node, r) && HoldsAll(func.live, num, inputs, Inputs(c, r))
      requires |inputs| > 0
      modifies this`nodes, this`open, node`ins, func.live`uses
      ensures Valid(c) && open == old(open) - {r}
    {
      hide Building, Draft, Inputs, KindOf, Known, HoldsAll, Filled, Refilled;
      HoldsAllKnown(c, num, nodes, open, func.live, inputs, r);
      Close(c, num, nodes, open, r, IdsOf(inputs));
      ghost var was := nodes;
      NoSlots(func, nodes, node);
      InitIns(func, node, |inputs|, nodes);
      ghost var mid := was[node.id := was[node.id].(ins := seq(|inputs|, _ => 0))];
      SetInputs(func, node, inputs, mid);
      RefilledTwice(was, node.id, IdsOf(inputs), seq(|inputs|, _ => 0));
      nodes, open := was[node.id := was[node.id].(ins := IdsOf(inputs))], open - {r};
    }

    // ----- instructions -----

    ghost predicate Placed(c: C.Cfg)
      reads this`num, this`places, func`live, func`start
    {
      AllPlaced(c, func.live, num, places, func.start)
    }

    /** About to lower instruction `k` of block `b`. */
    ghost predicate Here(c: C.Cfg, b: C.BlockId, k: nat)
      reads this`num, this`places, this`ctrl, this`mem, func`live, func`start
    {
      Placed(c) && Holds(func.live, num, ctrl, RRegion(b)) && Holds(func.live, num, mem, MemAt(b, k))
    }

    /** What the first `n` blocks send to others and out of the function has been collected. */
    ghost predicate Collecting(c: C.Cfg, n: nat)
      requires n <= |c.order|
      reads this`num, this`blockData, this`endCtrl, this`endMem, this`endVal, func`live
    {
      Gathered(c, func.live, num, blockData, n) && Leaving(c, func.live, num, endCtrl, endMem, endVal, n)
    }

    /** The load of argument `a`. */
    method In(ghost c: C.Cfg, ghost b: C.BlockId, ghost k: nat, inst: C.Inst, a: nat) returns (node: Node)
      requires Valid(c) && Here(c, b, k) && ValidRole(c, RLoad(b, k, a)) && RLoad(b, k, a) !in num
      requires inst == Code(c, b)[k] && C.GoodRef(inst.args[a], c.places)
      modifies this`num, this`nodes, func`nextId, func`live, func.live`uses
      ensures Valid(c) && Here(c, b, k) && Holds(func.live, num, node, RLoad(b, k, a))
      ensures num == old(num)[RLoad(b, k, a) := node.id] && func.live == old(func.live) + {node} && fresh(node)
    {
      hide Valid, C.GoodCfg;
      var place := inst.args[a].place;
      node := NewRole(c, RLoad(b, k, a), Load, 0, [ctrl, mem, places[place]]);
    }

    method LowerIntegerConst(ghost c: C.Cfg, ghost b: C.BlockId, ghost k: nat, inst: C.Inst) returns (node: Node)
      requires Valid(c) && Here(c, b, k) && ForInst(c, b, k, inst, num) && inst.op.IntegerConst?
      modifies this`num, this`nodes, func`nextId, func`live, func.live`uses
      ensures Valid(c) && Here(c, b, k) && Holds(func.live, num, node, RValue(b, k))
      ensures Made(c, b, k, old(num), num) && old(func.live) <= func.live && fresh(func.live - old(func.live))
    {
      hide Valid, C.GoodCfg;
      node := NewRole(c, RValue(b, k), Constant, inst.op.value, [func.start]);
    }

    method LowerArithmetic(ghost c: C.Cfg, ghost b: C.BlockId, ghost k: nat, inst: C.Inst) returns (node: Node)
      requires Valid(c) && Here(c, b, k) && ForInst(c, b, k, inst, num) && inst.op.Arithmetic?
      modifies this`num, this`nodes, func`nextId, func`live, func.live`uses
      ensures Valid(c) && Here(c, b, k) && Holds(func.live, num, node, RValue(b, k))
      ensures Made(c, b, k, old(num), num) && old(func.live) <= func.live && fresh(func.live - old(func.live))
    {
      hide Valid, ForInst, Made, ValidRole, Inputs, KindOf, ConstOf;
      ghost var was := num;
      ArithmeticRoles(c, b, k, inst, num);
      var lhs := In(c, b, k, inst, 0);
      var rhs := In(c, b, k, inst, 1);
      node := NewRole(c, RValue(b, k), Arith(inst.op.op), 0, [lhs, rhs]);
      ArithmeticMade(c, b, k, inst, was, lhs.id, rhs.id, node.id);
    }

    method LowerCopy(ghost c: C.Cfg, ghost b: C.BlockId, ghost k: nat, inst: C.Inst) returns (node: Node)
      requires Valid(c) && Here(c, b, k) && ForInst(c, b, k, inst, num) && inst.op.Copy?
      modifies this`num, this`nodes, func`nextId, func`live, func.live`uses
      ensures Valid(c) && Here(c, b, k) && Holds(func.live, num, node, RLoad(b, k, 0))
      ensures Made(c, b, k, old(num), num) && old(func.live) <= func.live && fresh(func.live - old(func.live))
    {
      hide Valid, C.GoodCfg;
      node := In(c, b, k, inst, 0);
    }

    /** The store of a result. */
    method StoreResult(ghost c: C.Cfg, ghost b: C.BlockId, ghost k: nat, inst: C.Inst, result: Node)
      requires Valid(c) && Here(c, b, k) && C.GoodCfg(c) && b in c.order && k < |Code(c, b)| && inst == Code(c, b)[k]
      requires !C.Jump(inst.op) && C.GoodInst(inst, c.places)
      requires Holds(func.live, num, result, ResultOf(c, b, k)) && RStore(b, k) !in num
      modifies this`mem, this`num, this`nodes, func`nextId, func`live, func.live`uses
      ensures Valid(c) && Here(c, b, k + 1) && old(func.live) <= func.live && fresh(func.live - old(func.live))
      ensures Grows(old(num), num) && forall r :: r in num <==> r in old(num) || r == RStore(b, k)
    {
      hide Valid;
      InstAt(c, b, k);
      hide C.GoodCfg;
      mem := NewRole(c, RStore(b, k), Store, 0, [ctrl, mem, places[inst.write.place], result]);
    }

    method LowerPlain(ghost c: C.Cfg, ghost b: C.BlockId, ghost k: nat, inst: C.Inst)
      requires Valid(c) && Here(c, b, k) && ForInst(c, b, k, inst, num) && !C.Jump(inst.op)
      modifies this`mem, this`num, this`nodes, func`nextId, func`live, func.live`uses
      ensures Valid(c) && Here(c, b, k + 1) && old(func.live) <= func.live && fresh(func.live - old(func.live))
      ensures Done(c, b, k, old(num), num)
    {
      hide Valid, Here, Made, ForInst, Done;
      ghost var was := num;
      InstFacts(c, b, k, inst, num);
      var result: Node;
      match inst.op {
        case IntegerConst(_) => result := LowerIntegerConst(c, b, k, inst);
        case Arithmetic(_) => result := LowerArithmetic(c, b, k, inst);
        case Copy => result := LowerCopy(c, b, k, inst);
      }
      ghost var mid := num;
      NoStoreYet(c, b, k, inst, was, mid);
      StoreResult(c, b, k, inst, result);
      PlainDone(c, b, k, inst, was, mid, num);
    }

    method PushFuncExit(ghost c: C.Cfg, ghost n: nat, x: Node, y: Node, z: Node)
      requires n < |c.order| && Collecting(c, n) && C.Exits(Code(c, c.order[n]))
      requires var e := BlockExits(c, c.order[n])[0];
        Holds(func.live, num, x, e.ctrl) && Holds(func.live, num, y, e.mem) && Holds(func.live, num, z, e.val)
      modifies this`endCtrl, this`endMem, this`endVal
      ensures Collecting(c, n + 1)
    {
      hide Gathered, Leaving, Holds;
      NothingGathered(c, func.live, num, blockData, n);
      LeavingPush(c, func.live, num, endCtrl, endMem, endVal, n, x, y, z);
      endCtrl, endMem, endVal := endCtrl + [x], endMem + [y], endVal + [z];
    }

    method ReturnValue(ghost c: C.Cfg, ghost n: nat, ghost k: nat, inst: C.Inst) returns (value: Node)
      requires Valid(c) && AtJump(c, n, k, inst, num) && Here(c, c.order[n], k) && inst.op.Return?
      modifies this`num, this`nodes, func`nextId, func`live, func.live`uses
      ensures Valid(c) && Here(c, c.order[n], k)
      ensures Holds(func.live, num, value, if |inst.args| == 0 then RNull(c.order[n]) else RLoad(c.order[n], k, 0))
      ensures Done(c, c.order[n], k, old(num), num) && old(func.live) <= func.live && fresh(func.live - old(func.live))
    {
      hide Valid;
      ghost var b, was := c.order[n], num;
      ReturnRoles(c, n, k, inst, num);
      hide ForInst, Done, AtJump, C.GoodCfg, ValidRole, KindOf, ConstOf, Inputs;
      if |inst.args| == 0 {
        value := NewRole(c, RNull(b), Null, 0, [func.start]);
      } else {
        value := In(c, b, k, inst, 0);
      }
      ReturnDone(c, n, k, inst, was, value.id);
    }

    method LowerReturn(ghost c: C.Cfg, ghost n: nat, ghost k: nat, inst: C.Inst)
      requires Valid(c) && AtJump(c, n, k, inst, num) && Here(c, c.order[n], k) && Collecting(c, n) && inst.op.Return?
      modifies this`hadReturn, this`endCtrl, this`endMem, this`endVal, this`num, this`nodes, func`nextId, func`live,
        func.live`uses
      ensures Valid(c) && Placed(c) && Collecting(c, n + 1) && hadReturn
      ensures Done(c, c.order[n], k, old(num), num) && old(func.live) <= func.live && fresh(func.live - old(func.live))
    {
      hide Valid, Gathered, Leaving, ForInst, C.GoodCfg, Of;
      ghost var was, all := num, func.live;
      ReturnRoles(c, n, k, inst, num);
      var value := ReturnValue(c, n, k, inst);
      hadReturn := true;
      GatheredGrows(c, all, was, func.live, num, blockData, n);
      LeavingGrows(c, all, was, func.live, num, endCtrl, endMem, endVal, n);
      hide AtJump, Holds;
      PushFuncExit(c, n, ctrl, mem, value);
    }

    method LowerGoto(ghost c: C.Cfg, ghost n: nat, ghost k: nat, inst: C.Inst)
      requires Valid(c) && AtJump(c, n, k, inst, num) && Here(c, c.order[n], k) && Collecting(c, n) && inst.op.Goto?
      modifies this`blockData
      ensures Valid(c) && Placed(c) && Collecting(c, n + 1) && SameJoins(old(blockData), blockData)
      ensures Done(c, c.order[n], k, old(num), num)
    {
      hide Valid, Gathered, Leaving, Done, ForInst, C.GoodCfg, ValidRole, KindOf, ConstOf, Inputs;
      ghost var b := c.order[n];
      JumpFacts(c, n, k, inst, num);
      GotoDone(c, n, k, inst, num);
      HasData(c, func.live, num, blockData, n, inst.op.target);
      hide AtJump, LastOp, Plain, LastMem, MemAt;
      GotoGathered(c, func.live, num, blockData, n, ctrl, mem);
      NothingLeaves(c, func.live, num, endCtrl, endMem, endVal, n);
      blockData := blockData[inst.op.target := PushEntry(blockData[inst.op.target], ctrl, mem)];
    }

    method NewProj(ghost c: C.Cfg, ghost r: Role, kind: Kind, parent: Node, ghost p: Role) returns (node: Node)
      requires Valid(c) && Placed(c) && ValidRole(c, r) && r !in num && KindOf(c, r) == kind && ConstOf(c, r) == 0
      requires Inputs(c, r) == [p] && Holds(func.live, num, parent, p)
      modifies this`num, this`nodes, func`nextId, func`live, func.live`uses
      ensures Valid(c) && Placed(c) && fresh(node)
      ensures num == old(num)[r := node.id]
      ensures func.live == old(func.live) + {node}
      ensures Grows(old(num), num)
    {
      hide Valid, ValidRole, KindOf, ConstOf, Inputs, AllPlaced;
      ghost var all, was := func.live, num;
      node := NewRole(c, r, kind, 0, [parent]);
      AllPlacedGrows(c, all, was, func.live, num, places, func.start);
    }

    method Projections(ghost c: C.Cfg, ghost b: C.BlockId, branch: Node) returns (yes: Node, no: Node)
      requires Valid(c) && Placed(c) && Holds(func.live, num, branch, RBranch(b))
      requires forall r :: r == RTrue(b) || r == RFalse(b) ==>
        ValidRole(c, r) && r !in num && ConstOf(c, r) == 0 && Inputs(c, r) == [RBranch(b)]
      modifies this`num, this`nodes, func`nextId, func`live, func.live`uses
      ensures Valid(c) && Placed(c) && num == old(num)[RTrue(b) := yes.id][RFalse(b) := no.id]
      ensures fresh(yes) && fresh(no) && func.live == old(func.live) + {yes} + {no}
    {
      hide Valid, ValidRole, ConstOf, Inputs, Placed;
      yes := NewProj(c, RTrue(b), BranchTrue, branch, RBranch(b));
      no := NewProj(c, RFalse(b), BranchFalse, branch, RBranch(b));
    }

    method BranchNode(ghost c: C.Cfg, ghost b: C.BlockId, ghost k: nat, inst: C.Inst)
      returns (predicate_: Node, branch: Node)
      requires Valid(c) && Here(c, b, k) && k < |Code(c, b)| && inst == Code(c, b)[k] && |inst.args| == 1
      requires C.GoodRef(inst.args[0], c.places)
      requires forall r :: r == RLoad(b, k, 0) || r == RBranch(b) ==> ValidRole(c, r) && r !in num && ConstOf(c, r) == 0
      requires KindOf(c, RBranch(b)) == Branch && Inputs(c, RBranch(b)) == [RRegion(b), RLoad(b, k, 0)]
      modifies this`num, this`nodes, func`nextId, func`live, func.live`uses
      ensures Valid(c) && Here(c, b, k)
      ensures Holds(func.live, num, branch, RBranch(b))
      ensures fresh(predicate_) && fresh(branch)
      ensures num == old(num)[RLoad(b, k, 0) := predicate_.id][RBranch(b) := branch.id]
      ensures func.live == old(func.live) + {predicate_} + {branch}
    {
      hide Valid, ValidRole, KindOf, ConstOf, Inputs;
      predicate_ := In(c, b, k, inst, 0);
      branch := NewRole(c, RBranch(b), Branch, 0, [ctrl, predicate_]);
    }

    method BranchNodes(ghost c: C.Cfg, ghost n: nat, ghost k: nat, inst: C.Inst) returns (yes: Node, no: Node)
      requires Valid(c) && AtJump(c, n, k, inst, num) && Here(c, c.order[n], k) && inst.op.Branch?
      modifies this`ctrl, this`num, this`nodes, func`nextId, func`live, func.live`uses
      ensures Valid(c) && Placed(c)
      ensures Holds(func.live, num, yes, RTrue(c.order[n])) && Holds(func.live, num, no, RFalse(c.order[n]))
      ensures Done(c, c.order[n], k, old(num), num) && old(func.live) <= func.live && fresh(func.live - old(func.live))
    {
      hide Valid, Done, ForInst, ValidRole, KindOf, ConstOf, Inputs, AllPlaced;
      ghost var b, was := c.order[n], num;
      BranchRoles(c, n, k, inst, num);
      hide AtJump;
      var predicate_, branch := BranchNode(c, b, k, inst);
      ctrl := branch;
      yes, no := Projections(c, b, branch);
      BranchDone(c, n, k, inst, was, predicate_.id, branch.id, yes.id, no.id);
    }

    method LowerBranch(ghost c: C.Cfg, ghost n: nat, ghost k: nat, inst: C.Inst)
      requires Valid(c) && AtJump(c, n, k, inst, num) && Here(c, c.order[n], k) && Collecting(c, n) && inst.op.Branch?
      modifies this`ctrl, this`blockData, this`num, this`nodes, func`nextId, func`live, func.live`uses
      ensures Valid(c) && Placed(c) && Collecting(c, n + 1) && SameJoins(old(blockData), blockData)
      ensures Done(c, c.order[n], k, old(num), num) && old(func.live) <= func.live && fresh(func.live - old(func.live))
    {
      hide Valid, Gathered, Leaving, ForInst, C.GoodCfg, Of;
      ghost var b, was, all := c.order[n], num, func.live;
      JumpFacts(c, n, k, inst, num);
      HasData(c, func.live, num, blockData, n, inst.op.thenTo);
      HasData(c, func.live, num, blockData, n, inst.op.elseTo);
      var yes, no := BranchNodes(c, n, k, inst);
      hide AtJump, LastOp, Plain, LastMem, MemAt;
      GatheredGrows(c, all, was, func.live, num, blockData, n);
      LeavingGrows(c, all, was, func.live, num, endCtrl, endMem, endVal, n);
      HoldsGrows(all, was, func.live, num, mem, LastMem(c, b));
      BranchGathered(c, func.live, num, blockData, n, yes, no, mem);
      NothingLeaves(c, func.live, num, endCtrl, endMem, endVal, n);
      blockData := blockData[inst.op.thenTo := PushEntry(blockData[inst.op.thenTo], yes, mem)];
      blockData := blockData[inst.op.elseTo := PushEntry(blockData[inst.op.elseTo], no, mem)];
    }

    method LowerInst(ghost c: C.Cfg, ghost n: nat, ghost k: nat, inst: C.Inst)
      requires Valid(c) && n < |c.order| && ForInst(c, c.order[n], k, inst, num) && Here(c, c.order[n], k)
      requires Collecting(c, n) && !hadReturn
      modifies this`ctrl, this`mem, this`blockData, this`endCtrl, this`endMem, this`endVal, this`hadReturn
      modifies this`num, this`nodes, func`nextId, func`live, func.live`uses
      ensures Valid(c) && Placed(c) && Done(c, c.order[n], k, old(num), num)
      ensures old(func.live) <= func.live && fresh(func.live - old(func.live))
      ensures if C.Jump(inst.op) then Collecting(c, n + 1) else Here(c, c.order[n], k + 1) && Collecting(c, n)
      ensures hadReturn == inst.op.Return? && SameJoins(old(blockData), blockData)
    {
      hide Valid, Gathered, Leaving, ForInst, C.GoodCfg, Of, AllPlaced, Holds;
      ghost var was, all := num, func.live;
      match inst.op {
        case Return => LowerReturn(c, n, k, inst);
        case Goto(_) => LowerGoto(c, n, k, inst);
        case Branch(_, _) => LowerBranch(c, n, k, inst);
        case _ =>
          LowerPlain(c, c.order[n], k, inst);
          GatheredGrows(c, all, was, func.live, num, blockData, n);
          LeavingGrows(c, all, was, func.live, num, endCtrl, endMem, endVal, n);
      }
    }

    // ----- blocks -----

    /** The first `n` blocks are lowered, except for the inputs of their regions and phis. */
    ghost predicate Lowered(c: C.Cfg, n: nat)
      requires n <= |c.order|
      reads this`num, this`open, this`places, this`blockData, this`endCtrl, this`endMem, this`endVal, func`live,
        func`start
    {
      Placed(c) && Collecting(c, n) && MadeBefore(c, n, num) && OpenBefore(c, n, open) &&
      JoinsHeld(c, n, func.live, num, blockData)
    }

    method BlockNodes(ghost c: C.Cfg, ghost b: C.BlockId) returns (region: Node, memPhi: Node)
      requires Valid(c) && ValidRole(c, RRegion(b)) && ValidRole(c, RPhi(b)) && RRegion(b) !in num && RPhi(b) !in num
      modifies this`num, this`nodes, this`open, func`nextId, func`live
      ensures Valid(c)
      ensures num == old(num)[RRegion(b) := region.id][RPhi(b) := memPhi.id]
      ensures open == old(open) + {RRegion(b)} + {RPhi(b)}
      ensures fresh(region) && fresh(memPhi) && func.live == old(func.live) + {region} + {memPhi}
    {
      hide Valid, ValidRole;
      region := NewJoin(c, RRegion(b), Region);
      memPhi := NewJoin(c, RPhi(b), Phi);
    }

    method OpenBlock(ghost c: C.Cfg, ghost n: nat, b: C.BlockId)
      requires Valid(c) && C.GoodCfg(c) && n < |c.order| && c.order[n] == b && Lowered(c, n)
      modifies this`ctrl, this`mem, this`blockData, this`hadReturn, this`num, this`nodes, this`open, func`nextId,
        func`live
      ensures Valid(c) && Here(c, b, 0) && Collecting(c, n) && MadeWithin(c, n, 0, num) && !hadReturn
      ensures OpenBefore(c, n + 1, open) && JoinsHeld(c, n + 1, func.live, num, blockData)
      ensures old(func.live) <= func.live && fresh(func.live - old(func.live)) && Grows(old(num), num)
    {
      hide Valid, Gathered, Leaving, AllPlaced, MadeBefore, OpenBefore, JoinsHeld, MadeWithin, C.GoodCfg, Holds,
           ValidRole;
      ghost var was, all, before := num, func.live, open;
      NewBlock(c, n, num);
      HasData(c, func.live, num, blockData, n, b);
      var region, memPhi := BlockNodes(c, b);
      Opened(c, n, b, was, all, before, places, func.start, blockData, endCtrl, endMem, endVal, region, memPhi,
        func.live, num);
      blockData := blockData[b := blockData[b].(region := region, memPhi := memPhi)];
      ctrl, mem, hadReturn := region, memPhi, false;
    }

    /** Control that falls off the end of a block leaves the function. */
    method FallOff(ghost c: C.Cfg, ghost n: nat, ghost b: C.BlockId)
      requires Valid(c) && C.GoodCfg(c) && n < |c.order| && c.order[n] == b && Plain(Code(c, b)) == |Code(c, b)|
      requires Here(c, b, |Code(c, b)|) && Collecting(c, n) && MadeWithin(c, n, |Code(c, b)|, num)
      modifies this`endCtrl, this`endMem, this`endVal, this`num, this`nodes, func`nextId, func`live, func.live`uses
      ensures Valid(c) && Placed(c) && Collecting(c, n + 1) && MadeWithin(c, n, |Code(c, b)| + 1, num)
      ensures old(func.live) <= func.live && fresh(func.live - old(func.live)) && Grows(old(num), num)
    {
      hide Valid, Gathered, Leaving, C.GoodCfg, MadeWithin;
      ghost var was, all := num, func.live;
      FallOffRole(c, n, num);
      var none := NewRole(c, RNull(b), Null, 0, [func.start]);
      FallOffDone(c, n, was, none.id);
      GatheredGrows(c, all, was, func.live, num, blockData, n);
      LeavingGrows(c, all, was, func.live, num, endCtrl, endMem, endVal, n);
      PushFuncExit(c, n, ctrl, mem, none);
    }

    method LowerBlock(ghost c: C.Cfg, ghost n: nat, b: C.BlockId, code: seq<C.Inst>)
      requires Valid(c) && C.GoodCfg(c) && n < |c.order| && c.order[n] == b && Code(c, b) == code && Lowered(c, n)
      modifies this`ctrl, this`mem, this`blockData, this`endCtrl, this`endMem, this`endVal, this`hadReturn
      modifies this`num, this`nodes, this`open, func`nextId, func`live, func.live`uses
      ensures Valid(c) && Lowered(c, n + 1)
      ensures old(func.live) <= func.live
      ensures fresh(func.live - old(func.live))
      ensures Grows(old(num), num)
    {
      hide Valid, C.GoodCfg, Gathered, Leaving, AllPlaced, MadeBefore, OpenBefore, JoinsHeld, MadeWithin, Holds,
           Here, Done, ForInst, SameJoins;
      OpenBlock(c, n, b);
      var k := 0;
      while k < |code|
        invariant k <= |code| && Valid(c) && MadeWithin(c, n, k, num)
        invariant if Ended(code, k) then Placed(c) && Collecting(c, n + 1) else Here(c, b, k) && Collecting(c, n)
        invariant hadReturn == (Ended(code, k) && code[k - 1].op.Return?)
        invariant old(func.live) <= func.live && fresh(func.live - old(func.live)) && Grows(old(num), num)
        invariant OpenBefore(c, n + 1, open) && JoinsHeld(c, n + 1, func.live, num, blockData)
      {
        NextInst(c, n, k, num);
        ghost var was, all, data := num, func.live, blockData;
        LowerInst(c, n, k, code[k]);
        WithinStep(c, n, k, was, num);
        JoinsGrow(c, n + 1, all, was, data, func.live, num, blockData);
        k := k + 1;
      }
      if !hadReturn && (|code| == 0 || !(code[|code| - 1].op.Goto? || code[|code| - 1].op.Branch?)) {
        ghost var was, all := num, func.live;
        FallOff(c, n, b);
        JoinsGrow(c, n + 1, all, was, blockData, func.live, num, blockData);
      }
      BlockDone(c, n, num);
    }

    // ----- the whole function -----

    method Begin(ghost c: C.Cfg) returns (startCtrl: Node, startMem: Node)
      requires Valid(c) && num == map[] && func.live == {}
      modifies this`num, this`nodes, func`start, func`nextId, func`live
      ensures Valid(c) && AtStart(func.live, num, func.start, startCtrl, startMem) && fresh(func.live)
      ensures forall r :: r in num <==> r == RStart || r == RStartCtrl || r == RStartMem
    {
      hide Valid;
      var start := NewRole(c, RStart, Start, 0, []);
      func.start := start;
      startCtrl := NewRole(c, RStartCtrl, StartCtrl, 0, [start]);
      startMem := NewRole(c, RStartMem, StartMem, 0, [start]);
    }

    method MakePlaces(ghost c: C.Cfg, count: nat, startCtrl: Node, startMem: Node)
      requires Valid(c) && count == c.places && places == [] && AtStart(func.live, num, func.start, startCtrl, startMem)
      requires forall r :: r in num <==> r == RStart || r == RStartCtrl || r == RStartMem
      modifies this`num, this`nodes, this`places, func`nextId, func`live, func.live`uses
      ensures Valid(c) && Placed(c) && MadeBefore(c, 0, num) && AtStart(func.live, num, func.start, startCtrl, startMem)
      ensures old(func.live) <= func.live && fresh(func.live - old(func.live))
    {
      hide Valid, AtStart, SomePlaced;
      NonePlaced(func.live, num);
      var i := 0;
      while i < count
        invariant i <= count && Valid(c) && AtStart(func.live, num, func.start, startCtrl, startMem)
        invariant SomePlaced(func.live, num, places, i)
        invariant forall r :: r in num <==>
          r == RStart || r == RStartCtrl || r == RStartMem || (r.RAlloca? && r.place < i)
        invariant old(func.live) <= func.live && fresh(func.live - old(func.live))
      {
        ghost var was, all := num, func.live;
        StartHeld(func.live, num, func.start, startCtrl, startMem);
        var node := NewRole(c, RAlloca(i), Alloca, 0, [func.start]);
        AtStartGrows(all, was, func.live, num, func.start, startCtrl, startMem);
        OneMorePlace(all, was, func.live, num, places, i, node);
        places := places + [node];
        i := i + 1;
      }
      StartHeld(func.live, num, func.start, startCtrl, startMem);
      PlacesDone(c, func.live, num, places, func.start);
    }

    method PushStart(ghost c: C.Cfg, entry: C.BlockId, startCtrl: Node, startMem: Node)
      requires Valid(c) && C.GoodCfg(c) && entry == c.order[0] && Lowered(c, |c.order|)
      requires AtStart(func.live, num, func.start, startCtrl, startMem)
      modifies this`blockData
      ensures Valid(c)
      ensures JoinsHeld(c, |c.order|, func.live, num, blockData)
      ensures AllGathered(c, func.live, num, blockData)
    {
      hide Valid;
      AllIn(c, func.live, num, blockData, startCtrl, startMem);
      blockData := blockData[entry := PushEntry(blockData[entry], startCtrl, startMem)];
    }

    method SetBlockJoins(ghost c: C.Cfg, ghost n: nat, b: C.BlockId)
      requires Valid(c) && C.GoodCfg(c) && n < |c.order| && c.order[n] == b && OpenAfter(c, n, open)
      requires JoinsHeld(c, |c.order|, func.live, num, blockData) && AllGathered(c, func.live, num, blockData)
      modifies this`nodes, this`open, func.live`ins, func.live`uses
      ensures Valid(c) && OpenAfter(c, n + 1, open)
    {
      hide Valid, OpenAfter, C.GoodCfg, JoinsHeld, AllGathered, HoldsAll, Holds;
      BlockInputs(c, n, func.live, num, blockData, open);
      var data := blockData[b];
      SetJoin(c, RRegion(b), data.region, data.ctrlIn);
      SetJoin(c, RPhi(b), data.memPhi, [data.region] + data.memIn);
    }

    method LowerBlocks(cfg: C.Cfg, startCtrl: Node, startMem: Node)
      requires Valid(cfg) && C.GoodCfg(cfg) && Placed(cfg) && MadeBefore(cfg, 0, num) && open == {}
      requires AtStart(func.live, num, func.start, startCtrl, startMem) && endCtrl == [] && endMem == [] && endVal == []
      requires forall t :: t in cfg.order ==> t in blockData && blockData[t] == BlockData(null, null, [], [])
      modifies this`ctrl, this`mem, this`blockData, this`endCtrl, this`endMem, this`endVal, this`hadReturn
      modifies this`num, this`nodes, this`open, func`nextId, func`live, func.live`uses
      ensures Valid(cfg) && MadeBefore(cfg, |cfg.order|, num)
      ensures OpenAfter(cfg, 0, open)
      ensures Holds(func.live, num, func.start, RStart)
      ensures JoinsHeld(cfg, |cfg.order|, func.live, num, blockData) && AllGathered(cfg, func.live, num, blockData)
      ensures Leaving(cfg, func.live, num, endCtrl, endMem, endVal, |cfg.order|)
      ensures old(func.live) <= func.live && fresh(func.live - old(func.live))
    {
      hide Valid, C.GoodCfg, Gathered, Leaving, AllPlaced, MadeBefore, OpenBefore, JoinsHeld, OpenAfter,
           AllGathered, AtStart, Grows;
      LoweredNone(cfg, func.live, num, blockData);
      ListedBlocks(cfg);
      var n := 0;
      while n < |cfg.order|
        invariant n <= |cfg.order| && Valid(cfg) && Lowered(cfg, n)
        invariant AtStart(func.live, num, func.start, startCtrl, startMem)
        invariant old(func.live) <= func.live && fresh(func.live - old(func.live))
      {
        ghost var was, all := num, func.live;
        LowerBlock(cfg, n, cfg.order[n], cfg.blocks[cfg.order[n]].code);
        AtStartGrows(all, was, func.live, num, func.start, startCtrl, startMem);
        n := n + 1;
      }
      AllOpen(cfg, open);
      StartHeld(func.live, num, func.start, startCtrl, startMem);
      PushStart(cfg, cfg.order[0], startCtrl, startMem);
    }

    method SetJoins(cfg: C.Cfg)
      requires Valid(cfg) && C.GoodCfg(cfg) && OpenAfter(cfg, 0, open)
      requires JoinsHeld(cfg, |cfg.order|, func.live, num, blockData) && AllGathered(cfg, func.live, num, blockData)
      modifies this`nodes, this`open, func.live`ins, func.live`uses
      ensures Valid(cfg) && open == {}
    {
      hide Valid, C.GoodCfg, OpenAfter, JoinsHeld, AllGathered;
      var n := 0;
      while n < |cfg.order|
        invariant n <= |cfg.order| && Valid(cfg) && OpenAfter(cfg, n, open)
      {
        SetBlockJoins(cfg, n, cfg.order[n]);
        n := n + 1;
      }
      NoneOpen(cfg, open);
    }

    method EndNodes(ghost c: C.Cfg) returns (region: Node, memPhi: Node, valPhi: Node)
      requires Valid(c) && open == {} && REndRegion !in num && REndMem !in num && REndVal !in num
      modifies this`num, this`nodes, this`open, func`nextId, func`live
      ensures Valid(c) && open == {REndRegion, REndMem, REndVal} && Grows(old(num), num)
      ensures num == old(num)[REndRegion := region.id][REndMem := memPhi.id][REndVal := valPhi.id]
      ensures fresh(region) && fresh(memPhi) && fresh(valPhi)
      ensures func.live == old(func.live) + {region} + {memPhi} + {valPhi}
    {
      hide Valid;
      region := NewJoin(c, REndRegion, Region);
      memPhi := NewJoin(c, REndMem, Phi);
      valPhi := NewJoin(c, REndVal, Phi);
    }

    /** The three joins every way out of the function leads to. */
    method EndJoins(ghost c: C.Cfg) returns (region: Node, memPhi: Node, valPhi: Node)
      requires Valid(c) && C.GoodCfg(c) && open == {} && MadeBefore(c, |c.order|, num)
      requires Leaving(c, func.live, num, endCtrl, endMem, endVal, |c.order|)
      modifies this`num, this`nodes, this`open, func`nextId, func`live, func.live`uses
      ensures Valid(c) && open == {}
      ensures num == old(num)[REndRegion := region.id][REndMem := memPhi.id][REndVal := valPhi.id]
      ensures Holds(func.live, num, region, REndRegion)
      ensures Holds(func.live, num, memPhi, REndMem)
      ensures Holds(func.live, num, valPhi, REndVal)
      ensures old(func.live) <= func.live && fresh(func.live - old(func.live))
    {
      hide Valid, MadeBefore, Leaving, HoldsAll, C.GoodCfg, Inputs, KindOf, ValidRole, Join;
      ghost var was, all := num, func.live;
      NoEndYet(c, num);
      region, memPhi, valPhi := EndNodes(c);
      LeavingGrows(c, all, was, func.live, num, endCtrl, endMem, endVal, |c.order|);
      EndInputs(c, func.live, num, endCtrl, endMem, endVal, region);
      SetJoin(c, REndRegion, region, endCtrl);
      SetJoin(c, REndMem, memPhi, [region] + endMem);
      SetJoin(c, REndVal, valPhi, [region] + endVal);
    }

    method EndNode(ghost c: C.Cfg, region: Node, memPhi: Node, valPhi: Node)
      requires Valid(c) && REscape !in num && REnd !in num && Holds(func.live, num, region, REndRegion)
      requires Holds(func.live, num, memPhi, REndMem) && Holds(func.live, num, valPhi, REndVal)
      modifies this`num, this`nodes, func`end, func`nextId, func`live, func.live`uses
      ensures Valid(c) && Grows(old(num), num) && REscape in num && Holds(func.live, num, func.end, REnd)
      ensures old(func.live) <= func.live && fresh(func.live - old(func.live))
    {
      hide Valid;
      var escape := NewRole(c, REscape, MemEscape, 0, [null, memPhi]);
      var end := NewRole(c, REnd, Kind.End, 0, [region, escape, valPhi]);
      func.end := end;
    }

    method End(ghost c: C.Cfg)
      requires Valid(c) && C.GoodCfg(c) && open == {} && MadeBefore(c, |c.order|, num)
      requires Leaving(c, func.live, num, endCtrl, endMem, endVal, |c.order|)
      modifies this`num, this`nodes, this`open, func`end, func`nextId, func`live, func.live`uses
      ensures Valid(c) && open == {} && Grows(old(num), num) && Holds(func.live, num, func.end, REnd)
      ensures old(func.live) <= func.live
      ensures fresh(func.live - old(func.live))
      ensures forall r :: ValidRole(c, r) ==> r in num
    {
      hide Valid, MadeBefore, Leaving, C.GoodCfg, ValidRole;
      ghost var was := num;
      NoEndYet(c, num);
      var region, memPhi, valPhi := EndJoins(c);
      EndNode(c, region, memPhi, valPhi);
      EverythingMade(c, was, num);
    }

    /** Makes all the nodes. */
    method LowerAll(cfg: C.Cfg)
      requires Valid(cfg) && C.GoodCfg(cfg) && num == map[] && func.live == {} && open == {}
      requires places == [] && endCtrl == [] && endMem == [] && endVal == []
      modifies this, func
      ensures Valid(cfg) && open == {}
      ensures Holds(func.live, num, func.start, RStart)
      ensures Holds(func.live, num, func.end, REnd)
      ensures fresh(func.live) && forall r :: ValidRole(cfg, r) ==> r in num
    {
      hide Valid, C.GoodCfg, MadeBefore, OpenAfter, JoinsHeld, AllGathered, Leaving, AtStart, AllPlaced, Grows,
           ValidRole;
      var startCtrl, startMem := Begin(cfg);
      MakePlaces(cfg, cfg.places, startCtrl, startMem);
      blockData := map b | b in cfg.order :: BlockData(null, null, [], []);
      LowerBlocks(cfg, startCtrl, startMem);
      SetJoins(cfg);
      ghost var was, all := num, func.live;
      End(cfg);
      HoldsGrows(all, was, func.live, num, func.start, RStart);
    }
  }

  lemma FinishedInBlocks(c: C.Cfg, num: Numbering, whole: Graph, kept: set<Id>)
    requires C.GoodCfg(c) && IsLowering(c, num, whole) && InputClosed(whole, kept)
    ensures AllInBlocks(Keep(whole, kept))
  {
    LoweredInBlocks(c, num, whole);
    LoweredGraph.Shaped(c, num, whole);
    KeepInBlocks(whole, kept);
  }

  /** Lowers a block graph: the result is the graph of its roles, cut down to what END depends on. */
  method LowerFunc(cfg: C.Cfg) returns (f: Func, ghost num: Numbering, ghost whole: Graph, ghost kept: set<Id>)
    requires C.GoodCfg(cfg)
    ensures fresh(f) && fresh(f.live) && f.Valid() && IsLowering(cfg, num, whole) && f.Graph() == Keep(whole, kept)
    ensures InputClosed(whole, kept) && AllUsed(f.Graph()) && AllInBlocks(f.Graph())
  {
    hide C.GoodCfg, Draft, Building, IsLowering, ValidRole, AllUsed, AllInBlocks, StartPinned, InputClosed, Func.Valid,
         Func.Graph, Keep;
    var l := new Lowerer();
    f := l.func;
    Blank(cfg);
    NoNodes(f);
    l.LowerAll(cfg);
    num := l.num;
    whole := Graph(l.nodes, Num(num, RStart), Num(num, REnd));
    WholeGraph(cfg, num, l.nodes);
    kept := FinishFunc(f, l.nodes);
    FinishedInBlocks(cfg, num, whole, kept);
  }
}
