/** What the lowering keeps track of: which node has which role, and what each block has collected. */
module LoweringState {
  import C = Cfgs
  import opened Graphs
  import opened Nodes
  import opened Funcs
  import opened Core
  import opened Roles
  import opened LoweredShape
  import opened Drafts
  import opened Rewrites
  import opened LoweredGraph
  import opened LoweredStrict

  datatype BlockData = BlockData(region: Node?, memPhi: Node?, ctrlIn: seq<Node>, memIn: seq<Node>)

  // ----- nodes and their roles -----

  /** `node` is the node made in role `r`. */
  ghost predicate Holds(live: set<Node>, num: Numbering, node: Node?, r: Role) {
    node != null && node in live && r in num && num[r] == node.id
  }

  ghost predicate HoldsAll(live: set<Node>, num: Numbering, ns: seq<Node?>, rs: seq<Role>) {
    |ns| == |rs| && forall i :: 0 <= i < |ns| ==>
      if ns[i] == null then rs[i] == RNone else Holds(live, num, ns[i], rs[i])
  }

  lemma HoldsAllKnown(c: C.Cfg, num: Numbering, nodes: map<Id, Vertex>, open: set<Role>, live: set<Node>,
                      ins: seq<Node?>, r: Role)
    requires Draft(c, num, nodes, open) && HoldsAll(live, num, ins, Inputs(c, r))
    ensures Known(c, num, r) && IdsOf(ins) == NumAll(num, Inputs(c, r))
    ensures forall i :: 0 <= i < |ins| && ins[i] != null ==> ins[i] in live
  {
    assert RNone in num ==> Drawn(c, num, nodes, open, RNone);
    forall i | 0 <= i < |ins|
      ensures IdsOf(ins)[i] == NumAll(num, Inputs(c, r))[i]
    {}
  }

  lemma HoldsAllGrows(live: set<Node>, num: Numbering, live': set<Node>, num': Numbering, ns: seq<Node?>, rs: seq<Role>)
    requires HoldsAll(live, num, ns, rs) && live <= live' && Grows(num, num')
    ensures HoldsAll(live', num', ns, rs)
  {}

  /** The entries collected for a block are `es`: controls and memories side by side. */
  ghost predicate Collected(live: set<Node>, num: Numbering, d: BlockData, es: seq<Entry>) {
    HoldsAll(live, num, d.ctrlIn, Ctrls(es)) && HoldsAll(live, num, d.memIn, Mems(es))
  }

  /** Every block has collected its entries from the first `n` blocks. */
  ghost predicate Gathered(c: C.Cfg, live: set<Node>, num: Numbering, data: map<C.BlockId, BlockData>, n: nat)
    requires n <= |c.order|
  {
    forall t :: t in c.order ==> t in data && Collected(live, num, data[t], EntriesUpTo(c, t, n))
  }

  lemma GatheredGrows(c: C.Cfg, live: set<Node>, num: Numbering, live': set<Node>, num': Numbering,
                      data: map<C.BlockId, BlockData>, n: nat)
    requires n <= |c.order| && Gathered(c, live, num, data, n) && live <= live' && Grows(num, num')
    ensures Gathered(c, live', num', data, n)
  {
    forall t | t in c.order
      ensures Collected(live', num', data[t], EntriesUpTo(c, t, n))
    {
      HoldsAllGrows(live, num, live', num', data[t].ctrlIn, Ctrls(EntriesUpTo(c, t, n)));
      HoldsAllGrows(live, num, live', num', data[t].memIn, Mems(EntriesUpTo(c, t, n)));
    }
  }

  lemma HasData(c: C.Cfg, live: set<Node>, num: Numbering, data: map<C.BlockId, BlockData>, n: nat, t: C.BlockId)
    requires n <= |c.order| && Gathered(c, live, num, data, n) && t in c.order
    ensures t in data
  {}

  function PushEntry(d: BlockData, ctrl: Node, mem: Node): BlockData {
    d.(ctrlIn := d.ctrlIn + [ctrl], memIn := d.memIn + [mem])
  }

  lemma CollectedPush(live: set<Node>, num: Numbering, d: BlockData, es: seq<Entry>, ctrl: Node, mem: Node, e: Entry)
    requires Collected(live, num, d, es) && Holds(live, num, ctrl, e.ctrl) && Holds(live, num, mem, e.mem)
    ensures Collected(live, num, PushEntry(d, ctrl, mem), es + [e])
  {
    assert Ctrls(es + [e]) == Ctrls(es) + [e.ctrl];
    assert Mems(es + [e]) == Mems(es) + [e.mem];
  }

  /** The exits of the first `n` blocks are collected. */
  ghost predicate Leaving(c: C.Cfg, live: set<Node>, num: Numbering, ctrl: seq<Node>, mem: seq<Node>, val: seq<Node>,
                          n: nat)
    requires n <= |c.order|
  {
    HoldsAll(live, num, ctrl, ExitCtrls(ExitsUpTo(c, n))) && HoldsAll(live, num, mem, ExitMems(ExitsUpTo(c, n))) &&
    HoldsAll(live, num, val, ExitVals(ExitsUpTo(c, n)))
  }

  lemma LeavingGrows(c: C.Cfg, live: set<Node>, num: Numbering, live': set<Node>, num': Numbering,
                     ctrl: seq<Node>, mem: seq<Node>, val: seq<Node>, n: nat)
    requires n <= |c.order| && Leaving(c, live, num, ctrl, mem, val, n) && live <= live' && Grows(num, num')
    ensures Leaving(c, live', num', ctrl, mem, val, n)
  {
    HoldsAllGrows(live, num, live', num', ctrl, ExitCtrls(ExitsUpTo(c, n)));
    HoldsAllGrows(live, num, live', num', mem, ExitMems(ExitsUpTo(c, n)));
    HoldsAllGrows(live, num, live', num', val, ExitVals(ExitsUpTo(c, n)));
  }

  lemma LeavingPush(c: C.Cfg, live: set<Node>, num: Numbering, ctrl: seq<Node>, mem: seq<Node>, val: seq<Node>, n: nat,
                    x: Node, y: Node, z: Node)
    requires n < |c.order| && Leaving(c, live, num, ctrl, mem, val, n) && C.Exits(Code(c, c.order[n]))
    requires var e := BlockExits(c, c.order[n])[0];
      Holds(live, num, x, e.ctrl) && Holds(live, num, y, e.mem) && Holds(live, num, z, e.val)
    ensures Leaving(c, live, num, ctrl + [x], mem + [y], val + [z], n + 1)
  {
    var es, e := ExitsUpTo(c, n), BlockExits(c, c.order[n])[0];
    assert ExitsUpTo(c, n + 1) == es + [e];
    assert ExitCtrls(es + [e]) == ExitCtrls(es) + [e.ctrl];
    assert ExitMems(es + [e]) == ExitMems(es) + [e.mem];
    assert ExitVals(es + [e]) == ExitVals(es) + [e.val];
  }

  lemma CollectedNone(live: set<Node>, num: Numbering, d: BlockData, es: seq<Entry>, more: seq<Entry>)
    requires Collected(live, num, d, es) && more == []
    ensures Collected(live, num, d, es + more)
  {
    assert es + more == es;
  }

  lemma NothingGathered(c: C.Cfg, live: set<Node>, num: Numbering, data: map<C.BlockId, BlockData>, n: nat)
    requires n < |c.order| && Gathered(c, live, num, data, n) && !LastOp(c, c.order[n]).Goto?
    requires !LastOp(c, c.order[n]).Branch?
    ensures Gathered(c, live, num, data, n + 1)
  {
    hide Collected;
    forall t | t in c.order
      ensures Collected(live, num, data[t], EntriesUpTo(c, t, n + 1))
    {
      CollectedNone(live, num, data[t], EntriesUpTo(c, t, n), BlockEntries(c, c.order[n], t));
    }
  }

  lemma GotoGathered(c: C.Cfg, live: set<Node>, num: Numbering, data: map<C.BlockId, BlockData>, n: nat, ctrl: Node,
                     mem: Node)
    requires n < |c.order| && Gathered(c, live, num, data, n) && LastOp(c, c.order[n]).Goto?
    requires Holds(live, num, ctrl, RRegion(c.order[n])) && Holds(live, num, mem, LastMem(c, c.order[n]))
    requires LastOp(c, c.order[n]).target in data
    ensures var t := LastOp(c, c.order[n]).target;
      Gathered(c, live, num, data[t := PushEntry(data[t], ctrl, mem)], n + 1)
  {
    hide Collected, Holds;
    var b := c.order[n];
    var goal := LastOp(c, b).target;
    forall t | t in c.order
      ensures Collected(live, num, if t == goal then PushEntry(data[t], ctrl, mem)
        else data[t], EntriesUpTo(c, t, n + 1))
    {
      if t == goal {
        CollectedPush(live, num, data[t], EntriesUpTo(c, t, n), ctrl, mem, Entry(RRegion(b), LastMem(c, b)));
      } else {
        CollectedNone(live, num, data[t], EntriesUpTo(c, t, n), BlockEntries(c, b, t));
      }
    }
  }

  lemma BranchGathered(c: C.Cfg, live: set<Node>, num: Numbering, data: map<C.BlockId, BlockData>, n: nat, yes: Node,
                       no: Node, mem: Node)
    requires n < |c.order| && Gathered(c, live, num, data, n) && LastOp(c, c.order[n]).Branch?
    requires Holds(live, num, yes, RTrue(c.order[n])) && Holds(live, num, no, RFalse(c.order[n]))
    requires Holds(live, num, mem, LastMem(c, c.order[n])) && LastOp(c, c.order[n]).thenTo in data
    requires LastOp(c, c.order[n]).elseTo in data
    ensures var op := LastOp(c, c.order[n]);
      var data' := data[op.thenTo := PushEntry(data[op.thenTo], yes, mem)];
      Gathered(c, live, num, data'[op.elseTo := PushEntry(data'[op.elseTo], no, mem)], n + 1)
  {
    hide Collected, Holds;
    var b, op := c.order[n], LastOp(c, c.order[n]);
    var data' := data[op.thenTo := PushEntry(data[op.thenTo], yes, mem)];
    var data'' := data'[op.elseTo := PushEntry(data'[op.elseTo], no, mem)];
    forall t | t in c.order
      ensures Collected(live, num, data''[t], EntriesUpTo(c, t, n + 1))
    {
      var es := EntriesUpTo(c, t, n);
      var first, second := if t == op.thenTo then [Entry(RTrue(b), LastMem(c, b))]
        else [], if t == op.elseTo then [Entry(RFalse(b), LastMem(c, b))] else [];
      if t == op.thenTo {
        CollectedPush(live, num, data[t], es, yes, mem, first[0]);
      } else {
        CollectedNone(live, num, data[t], es, first);
      }
      if t == op.elseTo {
        CollectedPush(live, num, data'[t], es + first, no, mem, second[0]);
      } else {
        CollectedNone(live, num, data'[t], es + first, second);
      }
      assert EntriesUpTo(c, t, n + 1) == es + first + second;
    }
  }

  lemma NothingLeaves(c: C.Cfg, live: set<Node>, num: Numbering, ctrl: seq<Node>, mem: seq<Node>, val: seq<Node>,
                      n: nat)
    requires n < |c.order| && Leaving(c, live, num, ctrl, mem, val, n) && !C.Exits(Code(c, c.order[n]))
    ensures Leaving(c, live, num, ctrl, mem, val, n + 1)
  {
    assert ExitsUpTo(c, n + 1) == ExitsUpTo(c, n);
  }

  ghost predicate AllPlaced(c: C.Cfg, live: set<Node>, num: Numbering, places: seq<Node>, start: Node?) {
    |places| == c.places && (forall p :: 0 <= p < |places| ==> Holds(live, num, places[p], RAlloca(p))) &&
    Holds(live, num, start, RStart)
  }

  lemma AllPlacedGrows(c: C.Cfg, live: set<Node>, num: Numbering, live': set<Node>, num': Numbering,
                       places: seq<Node>, start: Node?)
    requires AllPlaced(c, live, num, places, start) && live <= live' && Grows(num, num')
    ensures AllPlaced(c, live', num', places, start)
  {}

  lemma HoldsGrows(live: set<Node>, num: Numbering, live': set<Node>, num': Numbering, node: Node?, r: Role)
    requires Holds(live, num, node, r) && live <= live' && Grows(num, num')
    ensures Holds(live', num', node, r) && node != null
  {}

  // ----- the roles of an instruction -----

  /** `r` is a role that instruction `k` of block `b` brings in. */
  ghost predicate Of(c: C.Cfg, b: C.BlockId, k: nat, r: Role) {
    ValidRole(c, r) && InCode(r) && r.b == b && StepOf(c, r) == k
  }

  /** `inst` is instruction `k` of block `b`, and none of its nodes is made. */
  ghost predicate ForInst(c: C.Cfg, b: C.BlockId, k: nat, inst: C.Inst, num: Numbering) {
    C.GoodCfg(c) && b in c.order && k < |Code(c, b)| && inst == Code(c, b)[k] && C.GoodInst(inst, c.places) &&
    forall r :: Of(c, b, k, r) ==> r !in num
  }

  /** The nodes of instruction `k` have been made, but for the store of its result. */
  ghost predicate Made(c: C.Cfg, b: C.BlockId, k: nat, num: Numbering, num': Numbering) {
    Grows(num, num') && forall r :: r in num' <==> r in num || (Of(c, b, k, r) && !r.RStore?)
  }

  /** The nodes of instruction `k` have been made. */
  ghost predicate Done(c: C.Cfg, b: C.BlockId, k: nat, num: Numbering, num': Numbering) {
    Grows(num, num') && forall r :: r in num' <==> r in num || Of(c, b, k, r)
  }

  lemma InstFacts(c: C.Cfg, b: C.BlockId, k: nat, inst: C.Inst, num: Numbering)
    requires ForInst(c, b, k, inst, num)
    ensures C.GoodCfg(c) && b in c.order && k < |Code(c, b)| && inst == Code(c, b)[k] && C.GoodInst(inst, c.places)
  {}

  lemma NoStoreYet(c: C.Cfg, b: C.BlockId, k: nat, inst: C.Inst, num: Numbering, num': Numbering)
    requires ForInst(c, b, k, inst, num) && !C.Jump(inst.op) && Made(c, b, k, num, num')
    ensures RStore(b, k) !in num'
  {
    InstAt(c, b, k);
    assert Of(c, b, k, RStore(b, k));
  }

  lemma PlainDone(c: C.Cfg, b: C.BlockId, k: nat, inst: C.Inst, num: Numbering, mid: Numbering, num': Numbering)
    requires ForInst(c, b, k, inst, num) && !C.Jump(inst.op) && Made(c, b, k, num, mid)
    requires Grows(mid, num') && forall r :: r in num' <==> r in mid || r == RStore(b, k)
    ensures Done(c, b, k, num, num')
  {
    InstAt(c, b, k);
    hide C.GoodCfg;
    assert forall r :: Of(c, b, k, r) && r.RStore? ==> r == RStore(b, k);
  }

  /** `inst` is the jump that ends block number `n`. */
  ghost predicate AtJump(c: C.Cfg, n: nat, k: nat, inst: C.Inst, num: Numbering) {
    n < |c.order| && ForInst(c, c.order[n], k, inst, num) && C.Jump(inst.op)
  }

  lemma JumpFacts(c: C.Cfg, n: nat, k: nat, inst: C.Inst, num: Numbering)
    requires AtJump(c, n, k, inst, num)
    ensures var b := c.order[n];
      k == Plain(Code(c, b)) == |Code(c, b)| - 1 && LastMem(c, b) == MemAt(b, k) && LastOp(c, b) == inst.op
    ensures inst.op.Goto? ==> inst.op.target in c.order
    ensures inst.op.Branch? ==> inst.op.thenTo in c.order && inst.op.elseTo in c.order
  {
    var b := c.order[n];
    InstAt(c, b, k);
    if inst.op.Goto? {
      assert C.Succ(c.blocks[b].code, inst.op.target);
    }
    if inst.op.Branch? {
      assert C.Succ(c.blocks[b].code, inst.op.thenTo) && C.Succ(c.blocks[b].code, inst.op.elseTo);
    }
  }

  lemma ReturnRoles(c: C.Cfg, n: nat, k: nat, inst: C.Inst, num: Numbering)
    requires AtJump(c, n, k, inst, num) && inst.op.Return?
    ensures inst == Code(c, c.order[n])[k] && C.Exits(Code(c, c.order[n])) && |inst.args| <= 1
    ensures var b := c.order[n];
      BlockExits(c, b)[0] == Exit(RRegion(b), MemAt(b, k), if |inst.args| == 0 then RNull(b) else RLoad(b, k, 0))
    ensures |inst.args| == 1 ==>
      C.GoodRef(inst.args[0], c.places) && ValidRole(c, RLoad(c.order[n], k, 0)) && RLoad(c.order[n], k, 0) !in num
    ensures var r := RNull(c.order[n]);
      |inst.args| == 0 ==>
        ValidRole(c, r) && r !in num && KindOf(c, r) == Null && ConstOf(c, r) == 0 && Inputs(c, r) == [RStart]
  {
    JumpFacts(c, n, k, inst, num);
    hide C.GoodCfg;
    assert |inst.args| == 0 ==> Of(c, c.order[n], k, RNull(c.order[n]));
    assert |inst.args| == 1 ==> Of(c, c.order[n], k, RLoad(c.order[n], k, 0));
  }

  lemma ReturnDone(c: C.Cfg, n: nat, k: nat, inst: C.Inst, num: Numbering, x: Id)
    requires AtJump(c, n, k, inst, num) && inst.op.Return?
    ensures Done(c, c.order[n], k, num,
      num[(if |inst.args| == 0 then RNull(c.order[n]) else RLoad(c.order[n], k, 0)) := x])
  {
    JumpFacts(c, n, k, inst, num);
    hide C.GoodCfg;
  }

  lemma GotoDone(c: C.Cfg, n: nat, k: nat, inst: C.Inst, num: Numbering)
    requires AtJump(c, n, k, inst, num) && inst.op.Goto?
    ensures Done(c, c.order[n], k, num, num)
  {
    JumpFacts(c, n, k, inst, num);
    InstAt(c, c.order[n], k);
    hide C.GoodCfg;
  }

  lemma BranchRoles(c: C.Cfg, n: nat, k: nat, inst: C.Inst, num: Numbering)
    requires AtJump(c, n, k, inst, num) && inst.op.Branch?
    ensures var b := c.order[n];
      k < |Code(c, b)| && inst == Code(c, b)[k] && |inst.args| == 1 && C.GoodRef(inst.args[0], c.places)
    ensures var b := c.order[n];
      forall r :: r == RLoad(b, k, 0) || r == RBranch(b) || r == RTrue(b) || r == RFalse(b) ==>
        ValidRole(c, r) && r !in num && ConstOf(c, r) == 0
    ensures var b := c.order[n];
      KindOf(c, RBranch(b)) == Branch && Inputs(c, RBranch(b)) == [RRegion(b), RLoad(b, k, 0)]
    ensures var b := c.order[n]; KindOf(c, RTrue(b)) == BranchTrue && Inputs(c, RTrue(b)) == [RBranch(b)]
    ensures var b := c.order[n]; KindOf(c, RFalse(b)) == BranchFalse && Inputs(c, RFalse(b)) == [RBranch(b)]
  {
    JumpFacts(c, n, k, inst, num);
    hide C.GoodCfg;
    var b := c.order[n];
    assert Of(c, b, k, RLoad(b, k, 0)) && Of(c, b, k, RBranch(b)) && Of(c, b, k, RTrue(b)) && Of(c, b, k, RFalse(b));
  }

  lemma BranchDone(c: C.Cfg, n: nat, k: nat, inst: C.Inst, num: Numbering, x: Id, y: Id, z: Id, w: Id)
    requires AtJump(c, n, k, inst, num) && inst.op.Branch?
    ensures var b := c.order[n];
      Done(c, b, k, num, num[RLoad(b, k, 0) := x][RBranch(b) := y][RTrue(b) := z][RFalse(b) := w])
  {
    JumpFacts(c, n, k, inst, num);
    hide C.GoodCfg;
  }

  // ----- the roles made so far -----

  ghost predicate MadeBefore(c: C.Cfg, n: nat, num: Numbering)
    requires n <= |c.order|
  {
    forall r :: r in num <==> Before(c, n, r)
  }

  ghost predicate MadeWithin(c: C.Cfg, n: nat, k: nat, num: Numbering)
    requires n < |c.order|
  {
    forall r :: r in num <==> Within(c, n, k, r)
  }

  ghost predicate OpenBefore(c: C.Cfg, n: nat, open: set<Role>)
    requires n <= |c.order|
  {
    forall r :: r in open <==> (r.RRegion? || r.RPhi?) && r.b in c.order[..n]
  }

  ghost predicate JoinsHeld(c: C.Cfg, n: nat, live: set<Node>, num: Numbering, data: map<C.BlockId, BlockData>)
    requires n <= |c.order|
  {
    forall t :: t in c.order[..n] ==>
      t in data && Holds(live, num, data[t].region, RRegion(t)) && Holds(live, num, data[t].memPhi, RPhi(t))
  }

  predicate SameJoins(data: map<C.BlockId, BlockData>, data': map<C.BlockId, BlockData>) {
    forall t :: t in data ==> t in data' && data'[t].region == data[t].region && data'[t].memPhi == data[t].memPhi
  }

  lemma JoinsGrow(c: C.Cfg, n: nat, live: set<Node>, num: Numbering, data: map<C.BlockId, BlockData>,
                  live': set<Node>, num': Numbering, data': map<C.BlockId, BlockData>)
    requires n <= |c.order| && JoinsHeld(c, n, live, num, data) && live <= live' && Grows(num, num')
    requires SameJoins(data, data')
    ensures JoinsHeld(c, n, live', num', data')
  {}

  lemma Earlier(c: C.Cfg, n: nat)
    requires C.GoodCfg(c) && n < |c.order|
    ensures c.order[n] !in c.order[..n] && c.order[n] in c.order
    ensures forall t :: t in c.order[..n + 1] <==> t in c.order[..n] || t == c.order[n]
  {
    hide C.ForwardClosed, C.BackwardClosed, C.GoodCode;
    assert c.order[..n + 1] == c.order[..n] + [c.order[n]];
  }

  lemma NewBlock(c: C.Cfg, n: nat, num: Numbering)
    requires C.GoodCfg(c) && n < |c.order| && MadeBefore(c, n, num)
    ensures var b := c.order[n];
      b in c.order && ValidRole(c, RRegion(b)) && ValidRole(c, RPhi(b)) && RRegion(b) !in num && RPhi(b) !in num
  {
    Earlier(c, n);
  }

  lemma OpenMore(c: C.Cfg, n: nat, open: set<Role>)
    requires C.GoodCfg(c) && n < |c.order| && OpenBefore(c, n, open)
    ensures OpenBefore(c, n + 1, open + {RRegion(c.order[n])} + {RPhi(c.order[n])})
  {
    Earlier(c, n);
  }

  lemma BlockJoins(c: C.Cfg, n: nat, num: Numbering, x: Id, y: Id)
    requires C.GoodCfg(c) && n < |c.order| && MadeBefore(c, n, num)
    ensures MadeWithin(c, n, 0, num[RRegion(c.order[n]) := x][RPhi(c.order[n]) := y])
  {
    Earlier(c, n);
    hide C.GoodCfg;
  }

  lemma JoinsMore(c: C.Cfg, n: nat, live: set<Node>, num: Numbering, data: map<C.BlockId, BlockData>, region: Node,
                  memPhi: Node)
    requires C.GoodCfg(c) && n < |c.order| && JoinsHeld(c, n, live, num, data) && c.order[n] in data
    requires Holds(live, num, region, RRegion(c.order[n])) && Holds(live, num, memPhi, RPhi(c.order[n]))
    ensures var b := c.order[n]; JoinsHeld(c, n + 1, live, num, data[b := data[b].(region := region, memPhi := memPhi)])
  {
    Earlier(c, n);
    hide C.GoodCfg;
  }

  lemma SetGathered(c: C.Cfg, live: set<Node>, num: Numbering, data: map<C.BlockId, BlockData>, n: nat, b: C.BlockId,
                    region: Node, memPhi: Node)
    requires n <= |c.order| && Gathered(c, live, num, data, n) && b in data
    ensures Gathered(c, live, num, data[b := data[b].(region := region, memPhi := memPhi)], n)
  {
    var data' := data[b := data[b].(region := region, memPhi := memPhi)];
    forall t | t in c.order
      ensures t in data' && Collected(live, num, data'[t], EntriesUpTo(c, t, n))
    {
      assert Collected(live, num, data[t], EntriesUpTo(c, t, n));
    }
  }

  lemma Opened(c: C.Cfg, n: nat, b: C.BlockId, was: Numbering, all: set<Node>, open: set<Role>, places: seq<Node>,
               start: Node?, data: map<C.BlockId, BlockData>, ctrl: seq<Node>, mem: seq<Node>, val: seq<Node>,
               region: Node, memPhi: Node, live: set<Node>, num: Numbering)
    requires C.GoodCfg(c) && n < |c.order| && c.order[n] == b && AllPlaced(c, all, was, places, start)
    requires Gathered(c, all, was, data, n) && Leaving(c, all, was, ctrl, mem, val, n)
    requires JoinsHeld(c, n, all, was, data)
    requires MadeBefore(c, n, was) && OpenBefore(c, n, open) && b in data && RRegion(b) !in was && RPhi(b) !in was
    requires num == was[RRegion(b) := region.id][RPhi(b) := memPhi.id] && live == all + {region} + {memPhi}
    ensures var data' := data[b := data[b].(region := region, memPhi := memPhi)];
      Gathered(c, live, num, data', n) && JoinsHeld(c, n + 1, live, num, data')
    ensures AllPlaced(c, live, num, places, start) && Leaving(c, live, num, ctrl, mem, val, n)
    ensures MadeWithin(c, n, 0, num) && OpenBefore(c, n + 1, open + {RRegion(b)} + {RPhi(b)})
    ensures Holds(live, num, region, RRegion(b)) && Holds(live, num, memPhi, RPhi(b)) && Grows(was, num)
  {
    hide C.GoodCfg, Gathered, Leaving, JoinsHeld, MadeBefore, MadeWithin, OpenBefore, AllPlaced, ValidRole;
    GatheredGrows(c, all, was, live, num, data, n);
    LeavingGrows(c, all, was, live, num, ctrl, mem, val, n);
    AllPlacedGrows(c, all, was, live, num, places, start);
    JoinsGrow(c, n, all, was, data, live, num, data);
    OpenMore(c, n, open);
    BlockJoins(c, n, was, region.id, memPhi.id);
    JoinsMore(c, n, live, num, data, region, memPhi);
    SetGathered(c, live, num, data, n, b, region, memPhi);
  }

  /** The first three nodes. */
  ghost predicate AtStart(live: set<Node>, num: Numbering, start: Node?, startCtrl: Node, startMem: Node) {
    Holds(live, num, start, RStart) && Holds(live, num, startCtrl, RStartCtrl) && Holds(live, num, startMem, RStartMem)
  }

  lemma StartHeld(live: set<Node>, num: Numbering, start: Node?, startCtrl: Node, startMem: Node)
    requires AtStart(live, num, start, startCtrl, startMem)
    ensures Holds(live, num, start, RStart)
  {}

  lemma AtStartGrows(live: set<Node>, num: Numbering, live': set<Node>, num': Numbering, start: Node?,
                     startCtrl: Node, startMem: Node)
    requires AtStart(live, num, start, startCtrl, startMem) && live <= live' && Grows(num, num')
    ensures AtStart(live', num', start, startCtrl, startMem)
  {}

  ghost predicate SomePlaced(live: set<Node>, num: Numbering, places: seq<Node>, n: nat) {
    |places| == n && forall p :: 0 <= p < |places| ==> Holds(live, num, places[p], RAlloca(p))
  }

  lemma NonePlaced(live: set<Node>, num: Numbering)
    ensures SomePlaced(live, num, [], 0)
  {}

  lemma OneMorePlace(live: set<Node>, num: Numbering, live': set<Node>, num': Numbering, places: seq<Node>, n: nat,
                     node: Node)
    requires SomePlaced(live, num, places, n) && live <= live' && Grows(num, num')
    requires Holds(live', num', node, RAlloca(n))
    ensures SomePlaced(live', num', places + [node], n + 1)
  {}

  lemma PlacesDone(c: C.Cfg, live: set<Node>, num: Numbering, places: seq<Node>, start: Node?)
    requires SomePlaced(live, num, places, c.places) && Holds(live, num, start, RStart)
    ensures AllPlaced(c, live, num, places, start)
  {}

  /** Every block has collected all its entries. */
  ghost predicate AllGathered(c: C.Cfg, live: set<Node>, num: Numbering, data: map<C.BlockId, BlockData>) {
    forall t :: t in c.order ==> t in data && Collected(live, num, data[t], Entries(c, t))
  }

  lemma AllIn(c: C.Cfg, live: set<Node>, num: Numbering, data: map<C.BlockId, BlockData>, startCtrl: Node,
              startMem: Node)
    requires C.GoodCfg(c) && Gathered(c, live, num, data, |c.order|) && JoinsHeld(c, |c.order|, live, num, data)
    requires Holds(live, num, startCtrl, RStartCtrl) && Holds(live, num, startMem, RStartMem)
    ensures c.order[0] in data
    ensures AllGathered(c, live, num, data[c.order[0] := PushEntry(data[c.order[0]], startCtrl, startMem)])
    ensures JoinsHeld(c, |c.order|, live, num, data[c.order[0] := PushEntry(data[c.order[0]], startCtrl, startMem)])
  {
    hide Collected, Holds;
    var b := c.order[0];
    HasData(c, live, num, data, |c.order|, b);
    var data' := data[b := PushEntry(data[b], startCtrl, startMem)];
    JoinsGrow(c, |c.order|, live, num, data, live, num, data');
    forall t | t in c.order
      ensures Collected(live, num, data'[t], Entries(c, t))
    {
      var es := EntriesUpTo(c, t, |c.order|);
      if t == b {
        CollectedPush(live, num, data[t], es, startCtrl, startMem, Entry(RStartCtrl, RStartMem));
      } else {
        assert es + [] == es;
      }
    }
  }

  /** Only the regions and phis from block number `n` on still wait for their inputs. */
  ghost predicate OpenAfter(c: C.Cfg, n: nat, open: set<Role>)
    requires n <= |c.order|
  {
    forall r :: r in open <==> (r.RRegion? || r.RPhi?) && r.b in c.order[n..]
  }

  lemma JoinsAt(c: C.Cfg, n: nat, live: set<Node>, num: Numbering, data: map<C.BlockId, BlockData>)
    requires n < |c.order| && JoinsHeld(c, |c.order|, live, num, data)
    ensures c.order[n] in data
    ensures Holds(live, num, data[c.order[n]].region, RRegion(c.order[n]))
    ensures Holds(live, num, data[c.order[n]].memPhi, RPhi(c.order[n]))
    ensures data[c.order[n]].region != null && data[c.order[n]].region in live
    ensures data[c.order[n]].memPhi != null && data[c.order[n]].memPhi in live
  {
    assert c.order[..|c.order|] == c.order;
  }

  lemma CollectedAt(c: C.Cfg, n: nat, live: set<Node>, num: Numbering, data: map<C.BlockId, BlockData>)
    requires C.GoodCfg(c) && n < |c.order| && c.order[n] in data && AllGathered(c, live, num, data)
    requires Holds(live, num, data[c.order[n]].region, RRegion(c.order[n]))
    ensures |data[c.order[n]].ctrlIn| == |data[c.order[n]].memIn| > 0
    ensures HoldsAll(live, num, data[c.order[n]].ctrlIn, Inputs(c, RRegion(c.order[n])))
    ensures HoldsAll(live, num, [data[c.order[n]].region] + data[c.order[n]].memIn, Inputs(c, RPhi(c.order[n])))
  {
    var b := c.order[n];
    HasEntry(c, b);
    assert Collected(live, num, data[b], Entries(c, b));
    hide C.GoodCfg, Entries, Holds, AllGathered;
  }

  lemma OpenAt(c: C.Cfg, n: nat, open: set<Role>)
    requires C.GoodCfg(c) && n < |c.order| && OpenAfter(c, n, open)
    ensures var b := c.order[n];
      RRegion(b) in open && RPhi(b) in open && OpenAfter(c, n + 1, open - {RRegion(b)} - {RPhi(b)})
  {
    var b := c.order[n];
    assert c.order[n..] == [b] + c.order[n + 1..];
    hide C.ForwardClosed, C.BackwardClosed;
    assert b !in c.order[n + 1..];
    hide C.GoodCfg;
  }

  lemma BlockInputs(c: C.Cfg, n: nat, live: set<Node>, num: Numbering, data: map<C.BlockId, BlockData>, open: set<Role>)
    requires C.GoodCfg(c) && n < |c.order| && OpenAfter(c, n, open)
    requires JoinsHeld(c, |c.order|, live, num, data) && AllGathered(c, live, num, data)
    ensures c.order[n] in data
    ensures Holds(live, num, data[c.order[n]].region, RRegion(c.order[n]))
    ensures Holds(live, num, data[c.order[n]].memPhi, RPhi(c.order[n]))
    ensures data[c.order[n]].region != null
    ensures data[c.order[n]].region in live
    ensures data[c.order[n]].memPhi != null
    ensures data[c.order[n]].memPhi in live
    ensures |data[c.order[n]].ctrlIn| == |data[c.order[n]].memIn| > 0
    ensures HoldsAll(live, num, data[c.order[n]].ctrlIn, Inputs(c, RRegion(c.order[n])))
    ensures HoldsAll(live, num, [data[c.order[n]].region] + data[c.order[n]].memIn, Inputs(c, RPhi(c.order[n])))
    ensures var b := c.order[n];
      RRegion(b) in open && RPhi(b) in open && OpenAfter(c, n + 1, open - {RRegion(b)} - {RPhi(b)})
  {
    hide *;
    JoinsAt(c, n, live, num, data);
    CollectedAt(c, n, live, num, data);
    OpenAt(c, n, open);
  }

  predicate Ended(code: seq<C.Inst>, k: nat) {
    k == |code| > 0 && C.Jump(code[k - 1].op)
  }

  lemma NextInst(c: C.Cfg, n: nat, k: nat, num: Numbering)
    requires C.GoodCfg(c) && n < |c.order| && k < |Code(c, c.order[n])| && MadeWithin(c, n, k, num)
    ensures var code := Code(c, c.order[n]);
      ForInst(c, c.order[n], k, code[k], num) && (C.Jump(code[k].op) ==> Ended(code, k + 1))
  {
    Earlier(c, n);
    InstAt(c, c.order[n], k);
  }

  lemma WithinStep(c: C.Cfg, n: nat, k: nat, num: Numbering, num': Numbering)
    requires C.GoodCfg(c) && n < |c.order| && MadeWithin(c, n, k, num) && Done(c, c.order[n], k, num, num')
    ensures MadeWithin(c, n, k + 1, num') && Grows(num, num')
  {
    hide C.GoodCfg;
  }

  lemma FallOffRole(c: C.Cfg, n: nat, num: Numbering)
    requires C.GoodCfg(c) && n < |c.order| && Plain(Code(c, c.order[n])) == |Code(c, c.order[n])|
    requires MadeWithin(c, n, |Code(c, c.order[n])|, num)
    ensures var b := c.order[n]; ValidRole(c, RNull(b)) && RNull(b) !in num && C.Exits(Code(c, b))
    ensures var b := c.order[n]; BlockExits(c, b)[0] == Exit(RRegion(b), MemAt(b, |Code(c, b)|), RNull(b))
  {
    Earlier(c, n);
    hide C.GoodCfg;
  }

  lemma FallOffDone(c: C.Cfg, n: nat, num: Numbering, x: Id)
    requires C.GoodCfg(c) && n < |c.order| && Plain(Code(c, c.order[n])) == |Code(c, c.order[n])|
    requires MadeWithin(c, n, |Code(c, c.order[n])|, num)
    ensures MadeWithin(c, n, |Code(c, c.order[n])| + 1, num[RNull(c.order[n]) := x])
  {
    Earlier(c, n);
    hide C.GoodCfg;
  }

  lemma BlockDone(c: C.Cfg, n: nat, num: Numbering)
    requires C.GoodCfg(c) && n < |c.order| && MadeWithin(c, n, Plain(Code(c, c.order[n])) + 1, num)
    ensures MadeBefore(c, n + 1, num)
  {
    Earlier(c, n);
    forall r: Role
      ensures r in num <==> Before(c, n + 1, r)
    {
      BlockDoneAt(c, n, r);
    }
  }

  lemma BlockDoneAt(c: C.Cfg, n: nat, r: Role)
    requires C.GoodCfg(c) && n < |c.order|
    ensures Before(c, n + 1, r) <==> Within(c, n, Plain(Code(c, c.order[n])) + 1, r)
  {
    Earlier(c, n);
    hide C.GoodCfg;
    if ValidRole(c, r) && InCode(r) {
      StepsInside(c, r);
    }
  }

  lemma StepsInside(c: C.Cfg, r: Role)
    requires ValidRole(c, r) && InCode(r)
    ensures StepOf(c, r) <= Plain(Code(c, r.b))
  {}

  // ----- instructions -----

  lemma ArithmeticRoles(c: C.Cfg, b: C.BlockId, k: nat, inst: C.Inst, num: Numbering)
    requires ForInst(c, b, k, inst, num) && inst.op.Arithmetic?
    ensures inst == Code(c, b)[k] && C.GoodRef(inst.args[0], c.places) && C.GoodRef(inst.args[1], c.places)
    ensures forall r :: r == RLoad(b, k, 0) || r == RLoad(b, k, 1) || r == RValue(b, k) ==> ValidRole(c, r) && r !in num
    ensures KindOf(c, RValue(b, k)) == Arith(inst.op.op) && ConstOf(c, RValue(b, k)) == 0
    ensures Inputs(c, RValue(b, k)) == [RLoad(b, k, 0), RLoad(b, k, 1)]
  {
    hide C.GoodCfg;
  }

  lemma ArithmeticMade(c: C.Cfg, b: C.BlockId, k: nat, inst: C.Inst, num: Numbering, x: Id, y: Id, z: Id)
    requires ForInst(c, b, k, inst, num) && inst.op.Arithmetic?
    ensures Made(c, b, k, num, num[RLoad(b, k, 0) := x][RLoad(b, k, 1) := y][RValue(b, k) := z])
  {
    hide C.GoodCfg;
  }

  lemma SmallIds(f: Func, nodes: map<Id, Vertex>)
    requires Building(f, nodes)
    ensures forall n :: n in nodes ==> n < f.nextId
    ensures f.nextId !in nodes
  {}

  lemma NoSlots(f: Func, nodes: map<Id, Vertex>, node: Node)
    requires Building(f, nodes) && node in f.live && node.id in nodes && nodes[node.id].ins == []
    ensures node.ins == []
  {
    assert nodes[node.id] == View(node);
    assert |IdsOf(node.ins)| == 0;
  }

  lemma RefilledTwice(nodes: map<Id, Vertex>, n: Id, ins: seq<Id>, other: seq<Id>)
    requires n in nodes
    ensures Refilled(nodes[n := nodes[n].(ins := other)], n, ins) == nodes[n := nodes[n].(ins := ins)]
  {}

  // ----- beginning and end -----

  lemma NoNodes(f: Func)
    requires f.live == {}
    ensures Building(f, map[])
  {}

  lemma ListedBlocks(c: C.Cfg)
    requires C.GoodCfg(c)
    ensures |c.order| > 0
    ensures forall n :: 0 <= n < |c.order| ==>
      c.order[n] < |c.blocks| && Code(c, c.order[n]) == c.blocks[c.order[n]].code
  {}

  lemma Blank(c: C.Cfg)
    ensures Draft(c, map[], map[], {})
  {}

  lemma LoweredNone(c: C.Cfg, live: set<Node>, num: Numbering, data: map<C.BlockId, BlockData>)
    requires forall t :: t in c.order ==> t in data && data[t] == BlockData(null, null, [], [])
    ensures Gathered(c, live, num, data, 0)
    ensures Leaving(c, live, num, [], [], [], 0)
    ensures OpenBefore(c, 0, {}) && JoinsHeld(c, 0, live, num, data)
  {}

  lemma AllOpen(c: C.Cfg, open: set<Role>)
    requires OpenBefore(c, |c.order|, open)
    ensures OpenAfter(c, 0, open)
  {
    assert c.order[..|c.order|] == c.order[0..] == c.order;
  }

  lemma NoneOpen(c: C.Cfg, open: set<Role>)
    requires OpenAfter(c, |c.order|, open)
    ensures open == {}
  {}

  predicate Late(r: Role) {
    r.REndRegion? || r.REndMem? || r.REndVal? || r.REscape? || r.REnd?
  }

  lemma NoEndYet(c: C.Cfg, num: Numbering)
    requires MadeBefore(c, |c.order|, num)
    ensures forall r :: Late(r) ==> r !in num
  {}

  lemma EverythingMade(c: C.Cfg, num: Numbering, num': Numbering)
    requires MadeBefore(c, |c.order|, num) && Grows(num, num') && forall r :: Late(r) ==> r in num'
    ensures forall r :: ValidRole(c, r) ==> r in num'
  {
    assert c.order[..|c.order|] == c.order;
    forall r | ValidRole(c, r)
      ensures r in num'
    {
      assert Late(r) || Before(c, |c.order|, r);
    }
  }

  lemma EndInputs(c: C.Cfg, live: set<Node>, num: Numbering, ctrl: seq<Node>, mem: seq<Node>, val: seq<Node>,
                  region: Node)
    requires C.GoodCfg(c) && Leaving(c, live, num, ctrl, mem, val, |c.order|) && Holds(live, num, region, REndRegion)
    ensures |ctrl| == |mem| == |val| > 0 && HoldsAll(live, num, ctrl, Inputs(c, REndRegion))
    ensures HoldsAll(live, num, [region] + mem, Inputs(c, REndMem))
    ensures HoldsAll(live, num, [region] + val, Inputs(c, REndVal))
  {
    var b := HasExit(c);
    hide C.GoodCfg;
  }

  /** The finished draft can be cut down to what END depends on. */
  lemma WholeGraph(c: C.Cfg, num: Numbering, nodes: map<Id, Vertex>)
    requires C.GoodCfg(c) && Draft(c, num, nodes, {}) && forall r :: ValidRole(c, r) ==> r in num
    ensures var g := Graph(nodes, Num(num, RStart), Num(num, REnd)); IsLowering(c, num, g) && StartPinned(g)
    ensures forall n, i :: n in nodes && 0 <= i < |nodes[n].ins| ==> nodes[n].ins[i] != Num(num, REnd)
  {
    hide C.GoodCfg, Draft;
    var g := Graph(nodes, Num(num, RStart), Num(num, REnd));
    Complete(c, num, nodes);
    LoweredWellFormed(c, num, g);
    StartIsPinned(g, MemIds(c, num));
    NoEndInput(g, MemIds(c, num));
  }

  lemma NoEndInput(g: Graph, mem: set<Id>)
    requires WellFormed(g, mem)
    ensures forall n, i :: n in g.nodes && 0 <= i < |g.nodes[n].ins| ==> g.nodes[n].ins[i] != g.end
  {
    forall n, i | n in g.nodes && 0 <= i < |g.nodes[n].ins|
      ensures g.nodes[n].ins[i] != g.end
    {
      assert SlotOk(g, n, i);
    }
  }
}
