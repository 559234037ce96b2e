/** A lowered graph is well formed, and anchored in the way the optimizer's fixpoint needs. */
module LoweredGraph {
  import C = Cfgs
  import opened Graphs
  import opened Roles
  import opened LoweredShape

  ghost predicate Setting(c: C.Cfg, num: Numbering, g: Graph) {
    C.GoodCfg(c) && IsLowering(c, num, g)
  }

  lemma Node(c: C.Cfg, num: Numbering, g: Graph, r: Role)
    requires Setting(c, num, g) && ValidRole(c, r)
    ensures r in num && Num(num, r) == num[r] && num[r] != 0 && num[r] in g.nodes
    ensures g.nodes[num[r]].kind == KindOf(c, r)
    ensures |g.nodes[num[r]].ins| == |Inputs(c, r)|
    ensures g.nodes[num[r]].value == ConstOf(c, r)
    ensures forall i :: 0 <= i < |Inputs(c, r)| ==>
      g.nodes[num[r]].ins[i] == Num(num, Inputs(c, r)[i]) == Arg(g, num[r], i)
  {
    assert g.nodes[num[r]] == VertexOf(c, num, r);
  }

  lemma Unique(c: C.Cfg, num: Numbering, q: Role, r: Role)
    requires GoodNumbering(c, num) && ValidRole(c, q) && ValidRole(c, r) && Num(num, q) == Num(num, r)
    ensures q == r
  {
    assert SameNum(num, q, r);
  }

  lemma RoleOf(c: C.Cfg, num: Numbering, g: Graph, n: Id) returns (r: Role)
    requires Setting(c, num, g) && n in g.nodes
    ensures ValidRole(c, r) && r in num && num[r] == n && Num(num, r) == n
  {
    r :| r in num && num[r] == n;
  }

  lemma Lists(c: C.Cfg, num: Numbering, g: Graph)
    requires Setting(c, num, g)
    ensures |c.order| > 0 && c.order[0] in c.order && C.GoodCfg(c) && IsLowering(c, num, g)
    ensures GoodNumbering(c, num) && g.start == Num(num, RStart) && g.end == Num(num, REnd)
    ensures forall b, t :: b in c.order && C.Succ(Code(c, b), t) ==> t in c.order
    ensures forall b :: b in c.order ==> b < |c.blocks|
  {}

  ghost function MemIds(c: C.Cfg, num: Numbering): set<Id> {
    set r | r in num && MemRole(r) :: num[r]
  }

  lemma InMem(c: C.Cfg, num: Numbering, r: Role)
    requires GoodNumbering(c, num) && ValidRole(c, r)
    ensures Num(num, r) in MemIds(c, num) <==> MemRole(r)
  {
    if Num(num, r) in MemIds(c, num) {
      var q :| q in num && MemRole(q) && num[q] == Num(num, r);
      Unique(c, num, q, r);
    }
  }

  lemma SlotFits(c: C.Cfg, num: Numbering, g: Graph, n: Id, i: nat)
    requires Setting(c, num, g) && n in g.nodes && i < |g.nodes[n].ins|
    ensures SlotOk(g, n, i)
    ensures !ControlSlot(g.nodes[n].kind, i) && g.nodes[n].ins[i] != 0 ==>
      (g.nodes[n].ins[i] in MemIds(c, num) <==>
        if g.nodes[n].kind == Phi then n in MemIds(c, num) else MemSlot(g.nodes[n].kind, i))
    ensures Operand(g.nodes[n].kind, i) ==> g.nodes[n].ins[i] in g.nodes && g.nodes[n].ins[i] < n
  {
    var r := RoleOf(c, num, g, n);
    Node(c, num, g, r);
    InputFits(c, r, i);
    InMem(c, num, r);
    var q := Inputs(c, r)[i];
    if q != RNone {
      Node(c, num, g, q);
      InMem(c, num, q);
      Node(c, num, g, REnd);
      if Num(num, q) == Num(num, REnd) {
        Unique(c, num, q, REnd);
      }
    }
  }

  lemma Shaped(c: C.Cfg, num: Numbering, g: Graph)
    requires Setting(c, num, g)
    ensures Shape(g) && MemTyped(g, MemIds(c, num)) && Acyclic(g)
  {
    hide C.GoodCfg, IsLowering, SlotOk;
    forall n, i | n in g.nodes && 0 <= i < |g.nodes[n].ins|
      ensures SlotOk(g, n, i)
      ensures !ControlSlot(g.nodes[n].kind, i) && g.nodes[n].ins[i] != 0 ==>
        (g.nodes[n].ins[i] in MemIds(c, num) <==>
          if g.nodes[n].kind == Phi then n in MemIds(c, num) else MemSlot(g.nodes[n].kind, i))
      ensures Operand(g.nodes[n].kind, i) ==> g.nodes[n].ins[i] in g.nodes && g.nodes[n].ins[i] < n
    {
      SlotFits(c, num, g, n, i);
    }
    forall n | n in g.nodes
      ensures n != 0 && Arity(g.nodes[n].kind, |g.nodes[n].ins|)
      ensures (g.nodes[n].kind == End ==> n == g.end) && (g.nodes[n].kind == Start ==> n == g.start)
      ensures g.nodes[n].kind != Phi ==> (n in MemIds(c, num) <==> MemNode(g.nodes[n].kind))
    {
      NodeFits(c, num, g, n);
    }
    Ends(c, num, g);
    var rank := map n | n in g.nodes :: n;
    assert Ranked(g, rank);
  }

  lemma KindFacts(c: C.Cfg, r: Role)
    requires ValidRole(c, r)
    ensures KindOf(c, r) == End ==> r == REnd
    ensures KindOf(c, r) == Start ==> r == RStart
    ensures KindOf(c, r) != Phi ==> (MemRole(r) <==> MemNode(KindOf(c, r)))
  {}

  lemma NodeFits(c: C.Cfg, num: Numbering, g: Graph, n: Id)
    requires Setting(c, num, g) && n in g.nodes
    ensures n != 0 && Arity(g.nodes[n].kind, |g.nodes[n].ins|)
    ensures (g.nodes[n].kind == End ==> n == g.end) && (g.nodes[n].kind == Start ==> n == g.start)
    ensures g.nodes[n].kind != Phi ==> (n in MemIds(c, num) <==> MemNode(g.nodes[n].kind))
  {
    var r := RoleOf(c, num, g, n);
    Node(c, num, g, r);
    RoleArity(c, r);
    Lists(c, num, g);
    InMem(c, num, r);
    KindFacts(c, r);
    hide C.GoodCfg, IsLowering, GoodNumbering, ValidRole, Arity, KindOf, Inputs;
  }

  lemma Ends(c: C.Cfg, num: Numbering, g: Graph)
    requires Setting(c, num, g)
    ensures Is(g, g.start, Start) && Is(g, g.end, End) && 0 !in MemIds(c, num)
  {
    Node(c, num, g, RStart);
    Node(c, num, g, REnd);
    assert forall r :: r in num ==> num[r] != 0;
  }

  // ----- control -----

  /** Control goes from the node in role `q` to slot `i` of the node in role `r`. */
  lemma RoleEdge(c: C.Cfg, num: Numbering, g: Graph, r: Role, i: nat)
    requires Setting(c, num, g) && ValidRole(c, r) && i < |Inputs(c, r)| && ControlKind(KindOf(c, r))
    requires ControlSlot(KindOf(c, r), i)
    ensures Edge(g, Num(num, Inputs(c, r)[i]), Num(num, r), i)
  {
    Node(c, num, g, r);
  }

  lemma ExtendTo(c: C.Cfg, num: Numbering, g: Graph, r: Role, i: nat)
    requires Setting(c, num, g) && ValidRole(c, r) && i < |Inputs(c, r)| && ControlKind(KindOf(c, r))
    requires ControlSlot(KindOf(c, r), i)
    requires Arrives(g, Num(num, Inputs(c, r)[i]))
    ensures Arrives(g, Num(num, r))
  {
    RoleEdge(c, num, g, r, i);
    var p :| Walk(g, p) && At(g, p) == Num(num, Inputs(c, r)[i]);
    assert Walk(g, Go(p, Num(num, r), i));
    assert At(g, Go(p, Num(num, r), i)) == Num(num, r);
  }

  lemma StartArrives(c: C.Cfg, num: Numbering, g: Graph)
    requires Setting(c, num, g)
    ensures Arrives(g, Num(num, RStart)) && Arrives(g, Num(num, RStartCtrl))
  {
    assert Walk(g, Origin) && At(g, Origin) == Num(num, RStart);
    ExtendTo(c, num, g, RStartCtrl, 0);
  }

  /** The way from `b` to `t` is an input of the region of `t`. */
  lemma EntryInput(c: C.Cfg, b: C.BlockId, t: C.BlockId, ctrl: Role) returns (j: nat)
    requires FromBlock(c, b, t, Entry(ctrl, LastMem(c, b))) && b in c.order
    ensures j < |Inputs(c, RRegion(t))| && Inputs(c, RRegion(t))[j] == ctrl
  {
    j := EntryExists(c, b, t, Entry(ctrl, LastMem(c, b)));
  }

  lemma StartInput(c: C.Cfg) returns (j: nat)
    requires |c.order| > 0
    ensures j < |Inputs(c, RRegion(c.order[0]))| && Inputs(c, RRegion(c.order[0]))[j] == RStartCtrl
  {
    j := EntryExists(c, c.order[0], c.order[0], Entry(RStartCtrl, RStartMem));
  }

  lemma ExitInput(c: C.Cfg, b: C.BlockId) returns (j: nat)
    requires b in c.order && C.Exits(Code(c, b))
    ensures j < |Inputs(c, REndRegion)| && Inputs(c, REndRegion)[j] == RRegion(b)
  {
    j := ExitExists(c, b);
  }

  function WayTo(c: C.Cfg, b: C.BlockId, t: C.BlockId): Role {
    var op := LastOp(c, b);
    if op.Branch? then if op.thenTo == t then RTrue(b) else RFalse(b) else RRegion(b)
  }

  lemma WayIsEntry(c: C.Cfg, b: C.BlockId, t: C.BlockId)
    requires C.Succ(Code(c, b), t)
    ensures FromBlock(c, b, t, Entry(WayTo(c, b, t), LastMem(c, b)))
  {}

  lemma BranchArrives(c: C.Cfg, num: Numbering, g: Graph, b: C.BlockId)
    requires Setting(c, num, g) && b in c.order && LastOp(c, b).Branch? && Arrives(g, Num(num, RRegion(b)))
    ensures Arrives(g, Num(num, RBranch(b))) && Arrives(g, Num(num, RTrue(b))) && Arrives(g, Num(num, RFalse(b)))
  {
    hide Setting, Arrives;
    ExtendTo(c, num, g, RBranch(b), 0);
    ExtendTo(c, num, g, RTrue(b), 0);
    ExtendTo(c, num, g, RFalse(b), 0);
  }

  lemma SuccArrives(c: C.Cfg, num: Numbering, g: Graph, b: C.BlockId, t: C.BlockId)
    requires Setting(c, num, g) && b in c.order && C.Succ(Code(c, b), t) && Arrives(g, Num(num, RRegion(b)))
    ensures Arrives(g, Num(num, RRegion(t)))
  {
    hide Setting, Inputs, IsLowering, GoodNumbering, C.GoodCfg;
    Lists(c, num, g);
    WayIsEntry(c, b, t);
    var j := EntryInput(c, b, t, WayTo(c, b, t));
    if LastOp(c, b).Branch? {
      BranchArrives(c, num, g, b);
    }
    ExtendTo(c, num, g, RRegion(t), j);
  }

  lemma RegionsArrive(c: C.Cfg, num: Numbering, g: Graph)
    requires Setting(c, num, g)
    ensures forall b :: b in c.order ==> Arrives(g, Num(num, RRegion(b)))
  {
    hide Setting, Inputs, C.Succ, IsLowering, GoodNumbering, C.GoodCfg;
    Lists(c, num, g);
    var K := set b | b in c.order && Arrives(g, Num(num, RRegion(b)));
    var j := StartInput(c);
    StartArrives(c, num, g);
    ExtendTo(c, num, g, RRegion(c.order[0]), j);
    forall b, t | b in K && b in c.order && b < |c.blocks| && C.Succ(c.blocks[b].code, t)
      ensures t in K
    {
      SuccArrives(c, num, g, b, t);
    }
    assert C.ForwardClosed(c, K);
  }

  lemma EndArrives(c: C.Cfg, num: Numbering, g: Graph)
    requires Setting(c, num, g) && forall b :: b in c.order ==> Arrives(g, Num(num, RRegion(b)))
    ensures Arrives(g, Num(num, REndRegion)) && Arrives(g, Num(num, REnd))
  {
    hide Setting, Exits, C.GoodCfg, IsLowering, GoodNumbering;
    Lists(c, num, g);
    var b := HasExit(c);
    var j := ExitInput(c, b);
    ExtendTo(c, num, g, REndRegion, j);
    ExtendTo(c, num, g, REnd, 0);
  }

  lemma RoleArrives(c: C.Cfg, num: Numbering, g: Graph, n: Id)
    requires Setting(c, num, g) && IsControl(g, n) && forall b :: b in c.order ==> Arrives(g, Num(num, RRegion(b)))
    ensures Arrives(g, n)
  {
    hide Setting;
    var r := RoleOf(c, num, g, n);
    Node(c, num, g, r);
    StartArrives(c, num, g);
    if r.RBranch? || r.RTrue? || r.RFalse? {
      BranchArrives(c, num, g, r.b);
    } else if r.REndRegion? || r.REnd? {
      EndArrives(c, num, g);
    }
  }

  lemma Reached(c: C.Cfg, num: Numbering, g: Graph)
    requires Setting(c, num, g)
    ensures AllReached(g)
  {
    hide Setting;
    RegionsArrive(c, num, g);
    forall n | IsControl(g, n)
      ensures Arrives(g, n)
    {
      RoleArrives(c, num, g, n);
    }
  }

  // ----- every control node leads to END -----

  lemma Back(c: C.Cfg, num: Numbering, g: Graph, K: set<Id>, r: Role, i: nat)
    requires Setting(c, num, g) && ControlClosed(g, K) && Num(num, r) in K
    requires ValidRole(c, r) && i < |Inputs(c, r)| && ControlKind(KindOf(c, r)) && ControlSlot(KindOf(c, r), i)
    ensures Num(num, Inputs(c, r)[i]) in K
  {
    hide Setting;
    RoleEdge(c, num, g, r, i);
  }

  /** If a successor's region is in `K`, so is all that leads there. */
  lemma PredIn(c: C.Cfg, num: Numbering, g: Graph, K: set<Id>, b: C.BlockId, t: C.BlockId, way: Role)
    requires Setting(c, num, g) && ControlClosed(g, K) && b in c.order && t in c.order && Num(num, RRegion(t)) in K
    requires FromBlock(c, b, t, Entry(way, LastMem(c, b)))
    ensures Num(num, way) in K && Num(num, RRegion(b)) in K && (LastOp(c, b).Branch? ==> Num(num, RBranch(b)) in K)
  {
    hide Setting, ControlClosed;
    var j := EntryInput(c, b, t, way);
    Back(c, num, g, K, RRegion(t), j);
    if LastOp(c, b).Branch? {
      Back(c, num, g, K, way, 0);
      Back(c, num, g, K, RBranch(b), 0);
    }
  }

  lemma RegionsLeave(c: C.Cfg, num: Numbering, g: Graph, K: set<Id>)
    requires Setting(c, num, g) && ControlClosed(g, K) && Num(num, REnd) in K
    ensures Num(num, REndRegion) in K && forall b :: b in c.order ==> Num(num, RRegion(b)) in K
  {
    hide Setting, ControlClosed, C.Succ, C.Exits, FromBlock, IsLowering, GoodNumbering, C.GoodCfg;
    Lists(c, num, g);
    Back(c, num, g, K, REnd, 0);
    var B := set b | b in c.order && Num(num, RRegion(b)) in K;
    forall b | b in c.order && b < |c.blocks| && C.Exits(c.blocks[b].code)
      ensures b in B
    {
      var j := ExitInput(c, b);
      Back(c, num, g, K, REndRegion, j);
    }
    forall b, t | b in c.order && b < |c.blocks| && t in B && C.Succ(c.blocks[b].code, t)
      ensures b in B
    {
      WayIsEntry(c, b, t);
      PredIn(c, num, g, K, b, t, WayTo(c, b, t));
    }
    assert C.BackwardClosed(c, B);
  }

  lemma RoleLeaves(c: C.Cfg, num: Numbering, g: Graph, K: set<Id>, n: Id)
    requires Setting(c, num, g) && ControlClosed(g, K) && IsControl(g, n) && Num(num, REnd) in K
    requires Num(num, REndRegion) in K && forall b :: b in c.order ==> Num(num, RRegion(b)) in K
    ensures n in K
  {
    hide Setting, ControlClosed, GoodNumbering, IsLowering, C.GoodCfg;
    Lists(c, num, g);
    var r := RoleOf(c, num, g, n);
    Node(c, num, g, r);
    if r.RBranch? || r.RTrue? {
      PredIn(c, num, g, K, r.b, LastOp(c, r.b).thenTo, RTrue(r.b));
    } else if r.RFalse? {
      PredIn(c, num, g, K, r.b, LastOp(c, r.b).elseTo, RFalse(r.b));
    } else if r.RStart? || r.RStartCtrl? {
      var j := StartInput(c);
      Back(c, num, g, K, RRegion(c.order[0]), j);
      Back(c, num, g, K, RStartCtrl, 0);
    }
  }

  lemma Leaves(c: C.Cfg, num: Numbering, g: Graph)
    requires Setting(c, num, g)
    ensures AllLeave(g)
  {
    assert g.end == Num(num, REnd);
    hide Setting;
    forall K | ControlClosed(g, K)
      ensures forall n :: IsControl(g, n) ==> n in K
    {
      assert g.end in K;
      RegionsLeave(c, num, g, K);
      forall n | IsControl(g, n)
        ensures n in K
      {
        RoleLeaves(c, num, g, K, n);
      }
    }
  }
}
