/** On every run of a lowered graph, the phi a value depends on has been entered: it is the memory phi of the
    block the run is in. */
module LoweredStrict {
  import C = Cfgs
  import opened Graphs
  import opened Roles
  import opened LoweredShape
  import opened LoweredGraph

  ghost predicate FullSetting(c: C.Cfg, num: Numbering, g: Graph) {
    Setting(c, num, g) && Shape(g) && Acyclic(g)
  }

  /** `r` belongs to the straight-line code of block `b`. */
  predicate InBlock(r: Role, b: C.BlockId) {
    (r.RPhi? || r.RLoad? || r.RValue? || r.RStore?) && r.b == b
  }

  lemma OperandRoles(c: C.Cfg, r: Role, b: C.BlockId, i: nat)
    requires C.GoodCfg(c) && ValidRole(c, r) && (InBlock(r, b) || r.RAlloca? || r.RStartMem? || r.RNull?)
    requires i < |Inputs(c, r)|
    requires Operand(KindOf(c, r), i)
    ensures InBlock(r, b) && ValidRole(c, Inputs(c, r)[i]) && (InBlock(Inputs(c, r)[i], b) || Inputs(c, r)[i].RAlloca?)
  {
    InputFits(c, r, i);
  }

  /** Within a block, values depend on the block's memory phi only. */
  lemma RoleDeps(c: C.Cfg, num: Numbering, g: Graph, r: Role, b: C.BlockId)
    requires FullSetting(c, num, g) && ValidRole(c, r) && (InBlock(r, b) || r.RAlloca? || r.RStartMem? || r.RNull?)
    ensures Deps(g, Num(num, r)) <= {Num(num, RPhi(b))}
    decreases Num(num, r)
  {
    hide Setting, Shape, C.GoodCfg, IsLowering, GoodNumbering;
    Lists(c, num, g);
    Node(c, num, g, r);
    var n := Num(num, r);
    if KindOf(c, r) != Phi {
      forall i, q | 0 <= i < 4 && q in DepsArg(g, n, i)
        ensures q == Num(num, RPhi(b))
      {
        ArgDeps(c, num, g, r, b, i, q);
      }
    }
  }

  lemma ArgDeps(c: C.Cfg, num: Numbering, g: Graph, r: Role, b: C.BlockId, i: nat, q: Id)
    requires FullSetting(c, num, g) && ValidRole(c, r) && (InBlock(r, b) || r.RAlloca? || r.RStartMem? || r.RNull?)
    requires i < 4 && Num(num, r) in g.nodes && q in DepsArg(g, Num(num, r), i) && KindOf(c, r) != Phi
    ensures q == Num(num, RPhi(b))
    decreases Num(num, r), 0
  {
    hide Setting, Shape, C.GoodCfg, IsLowering, GoodNumbering;
    Lists(c, num, g);
    Node(c, num, g, r);
    OperandRoles(c, r, b, i);
    SlotFits(c, num, g, Num(num, r), i);
    RoleDeps(c, num, g, Inputs(c, r)[i], b);
  }

  lemma Came(c: C.Cfg, num: Numbering, g: Graph, p: Path, r: Role)
    requires Setting(c, num, g) && Walk(g, p) && ValidRole(c, r) && At(g, p) == Num(num, r) && r != RStart
    ensures p.Go? && Edge(g, At(g, p.prev), Num(num, r), p.slot) && p.slot < |Inputs(c, r)|
    ensures At(g, p.prev) == Num(num, Inputs(c, r)[p.slot])
  {
    hide Setting, IsLowering, GoodNumbering, C.GoodCfg;
    Lists(c, num, g);
    Node(c, num, g, r);
    Node(c, num, g, RStart);
    if p.Origin? {
      Unique(c, num, r, RStart);
    }
  }

  lemma InBlockVisited(c: C.Cfg, num: Numbering, g: Graph, p: Path, r: Role, b: C.BlockId)
    requires Setting(c, num, g) && Walk(g, p) && ValidRole(c, r) && At(g, p) == Num(num, r)
    requires r == RRegion(b) || r == RBranch(b) || r == RTrue(b) || r == RFalse(b)
    ensures Visits(p, Num(num, RRegion(b)))
  {
    hide Setting;
    Came(c, num, g, p, r);
    if r != RRegion(b) {
      Node(c, num, g, r);
      InBlockVisited(c, num, g, p.prev, if r == RBranch(b) then RRegion(b) else RBranch(b), b);
    }
  }

  lemma PhiArg(c: C.Cfg, num: Numbering, g: Graph, b: C.BlockId)
    requires Setting(c, num, g) && b in c.order
    ensures Arg(g, Num(num, RPhi(b)), 0) == Num(num, RRegion(b))
  {
    Node(c, num, g, RPhi(b));
  }

  predicate Demanded(c: C.Cfg, r: Role, j: nat, q: Role) {
    match r
    case RRegion(t) => j < |Entries(c, t)| && q == Entries(c, t)[j].mem
    case REndRegion => j < |Exits(c)| && (q == Exits(c)[j].mem || q == Exits(c)[j].val)
    case RTrue(b) => q == RLoad(b, Plain(Code(c, b)), 0)
    case RFalse(b) => q == RLoad(b, Plain(Code(c, b)), 0)
    case REnd => q == REscape || q == REndVal
    case _ => false
  }

  /** What a step uses, by the roles of the nodes. */
  lemma WayDemand(c: C.Cfg, num: Numbering, g: Graph, r: Role, j: nat, d: Id)
    requires Setting(c, num, g) && ValidRole(c, r) && (r.RTrue? || r.RFalse?) && Demands(g, Num(num, r), j, d)
    ensures d == Num(num, RLoad(r.b, Plain(Code(c, r.b)), 0))
  {
    hide Setting;
    Node(c, num, g, r);
    Node(c, num, g, RBranch(r.b));
  }

  lemma EndDemand(c: C.Cfg, num: Numbering, g: Graph, j: nat, d: Id)
    requires Setting(c, num, g) && Demands(g, Num(num, REnd), j, d)
    ensures d == Num(num, REscape) || d == Num(num, REndVal)
  {
    hide Setting;
    Node(c, num, g, REnd);
  }

  lemma KindCases(c: C.Cfg, num: Numbering, g: Graph, r: Role, j: nat, d: Id)
    requires Setting(c, num, g) && ValidRole(c, r) && Demands(g, Num(num, r), j, d)
    ensures r.RRegion? || r.REndRegion? || r.RTrue? || r.RFalse? || r.REnd?
    ensures r.RRegion? || r.REndRegion? ==>
      KindOf(c, r) == Region && exists p :: p in g.nodes && PhiOf(g, p, Num(num, r)) && d == Arg(g, p, j + 1)
  {
    hide Setting;
    Node(c, num, g, r);
  }

  lemma DemandRole(c: C.Cfg, num: Numbering, g: Graph, r: Role, j: nat, d: Id) returns (q: Role)
    requires Setting(c, num, g) && ValidRole(c, r) && Demands(g, Num(num, r), j, d) && j < |Inputs(c, r)|
    ensures d == Num(num, q)
    ensures Demanded(c, r, j, q)
  {
    KindCases(c, num, g, r, j, d);
    hide Setting, KindOf, Inputs, ValidRole, PhiOf, Demands;
    if r.RTrue? || r.RFalse? {
      WayDemand(c, num, g, r, j, d);
      q := RLoad(r.b, Plain(Code(c, r.b)), 0);
    } else if r.REnd? {
      EndDemand(c, num, g, j, d);
      q := if d == Num(num, REscape) then REscape else REndVal;
    } else {
      var p :| p in g.nodes && PhiOf(g, p, Num(num, r)) && d == Arg(g, p, j + 1);
      q := RegionDemand(c, num, g, r, j, p);
    }
  }

  /** The phis of a region take, along slot `j` of the region, what the entry or exit `j` holds. */
  lemma PhiRegions(c: C.Cfg, phi: Role, j: nat)
    requires ValidRole(c, phi) && KindOf(c, phi) == Phi
    ensures |Inputs(c, phi)| > 0 && |Inputs(c, phi)| == |Inputs(c, Inputs(c, phi)[0])| + 1
    ensures j + 1 < |Inputs(c, phi)| ==> Demanded(c, Inputs(c, phi)[0], j, Inputs(c, phi)[j + 1])
  {
    hide Entries, Exits;
  }

  lemma RegionDemand(c: C.Cfg, num: Numbering, g: Graph, r: Role, j: nat, p: Id) returns (q: Role)
    requires Setting(c, num, g) && ValidRole(c, r) && KindOf(c, r) == Region && j < |Inputs(c, r)|
    requires PhiOf(g, p, Num(num, r))
    ensures Arg(g, p, j + 1) == Num(num, q)
    ensures Demanded(c, r, j, q)
  {
    Lists(c, num, g);
    var pr := RoleOf(c, num, g, p);
    Node(c, num, g, pr);
    InputFits(c, pr, 0);
    PhiRegions(c, pr, j);
    RoleArity(c, pr);
    hide Setting, C.GoodCfg, IsLowering, GoodNumbering, Entries, Exits, Inputs, Demanded, ValidRole;
    Unique(c, num, Inputs(c, pr)[0], r);
    q := Inputs(c, pr)[j + 1];
  }

  lemma ReadyAtRegion(c: C.Cfg, num: Numbering, g: Graph, p: Path, t: C.BlockId, j: nat)
    requires FullSetting(c, num, g) && t in c.order && Walk(g, p) && j < |Entries(c, t)|
    requires At(g, p) == Num(num, Entries(c, t)[j].ctrl)
    ensures Ready(g, p, Num(num, Entries(c, t)[j].mem))
  {
    hide *;
    SettingParts(c, num, g);
    var b := EntryCases(c, t, j);
    EntryFits(c, t, j);
    if FromStart(c, t, Entries(c, t)[j]) {
      StartMemDeps(c, num, g);
      StartReady(c, num, g, p, t, Entries(c, t)[j]);
    } else {
      EntryInBlock(c, b, t, Entries(c, t)[j]);
      ReadyInBlock(c, num, g, p, Entries(c, t)[j].ctrl, b, Entries(c, t)[j].mem);
    }
  }

  lemma StartReady(c: C.Cfg, num: Numbering, g: Graph, p: Path, t: C.BlockId, e: Entry)
    requires Acyclic(g) && FromStart(c, t, e) && Deps(g, Num(num, RStartMem)) == {}
    ensures Ready(g, p, Num(num, e.mem))
  {}

  lemma EntryInBlock(c: C.Cfg, b: C.BlockId, t: C.BlockId, e: Entry)
    requires FromBlock(c, b, t, e)
    ensures e.ctrl == RRegion(b) || e.ctrl == RTrue(b) || e.ctrl == RFalse(b)
    ensures InBlock(e.mem, b)
  {}

  lemma ReadyAtExit(c: C.Cfg, num: Numbering, g: Graph, p: Path, j: nat, q: Role)
    requires FullSetting(c, num, g) && Walk(g, p) && j < |Exits(c)| && At(g, p) == Num(num, Exits(c)[j].ctrl)
    requires q == Exits(c)[j].mem || q == Exits(c)[j].val
    ensures Ready(g, p, Num(num, q))
  {
    hide *;
    SettingParts(c, num, g);
    var b := ExitCases(c, j);
    ExitFits(c, j);
    ExitInBlock(c, b);
    ReadyInBlock(c, num, g, p, RRegion(b), b, q);
  }

  lemma ExitInBlock(c: C.Cfg, b: C.BlockId)
    ensures var e := ExitOf(c, b);
      e.ctrl == RRegion(b) && InBlock(e.mem, b) && (InBlock(e.val, b) || e.val.RNull?)
  {}

  lemma ReadyAtWay(c: C.Cfg, num: Numbering, g: Graph, p: Path, b: C.BlockId)
    requires FullSetting(c, num, g) && Walk(g, p) && b in c.order && LastOp(c, b).Branch?
    requires At(g, p) == Num(num, RBranch(b))
    ensures Ready(g, p, Num(num, RLoad(b, Plain(Code(c, b)), 0)))
  {
    SettingParts(c, num, g);
    hide Setting, FullSetting, C.GoodCfg;
    BranchLoad(c, b);
    ReadyInBlock(c, num, g, p, RBranch(b), b, RLoad(b, Plain(Code(c, b)), 0));
  }

  lemma StepReady(c: C.Cfg, num: Numbering, g: Graph, p: Path, r: Role, j: nat, d: Id)
    requires FullSetting(c, num, g) && ValidRole(c, r) && Walk(g, p) && Edge(g, At(g, p), Num(num, r), j)
    requires Demands(g, Num(num, r), j, d)
    ensures Ready(g, p, d)
  {
    hide *;
    SettingParts(c, num, g);
    StepFrom(c, num, g, p, r, j);
    var q := DemandRole(c, num, g, r, j, d);
    StepCases(c, r, j, q);
    if r.RRegion? {
      ReadyAtRegion(c, num, g, p, r.b, j);
    } else if r.REndRegion? {
      ReadyAtExit(c, num, g, p, j, q);
    } else if r.REnd? {
      ReadyAtEnd(c, num, g, p, q);
    } else {
      ReadyAtWay(c, num, g, p, r.b);
    }
  }

  /** A control edge into the node of `r` leaves a node of the role its slot names. */
  lemma StepFrom(c: C.Cfg, num: Numbering, g: Graph, p: Path, r: Role, j: nat)
    requires Setting(c, num, g) && ValidRole(c, r) && Edge(g, At(g, p), Num(num, r), j)
    ensures j < |Inputs(c, r)| && At(g, p) == Num(num, Inputs(c, r)[j]) && ControlSlot(KindOf(c, r), j)
  {
    hide Setting, Inputs, KindOf, ValidRole;
    Node(c, num, g, r);
  }

  lemma StepCases(c: C.Cfg, r: Role, j: nat, q: Role)
    requires ValidRole(c, r) && j < |Inputs(c, r)| && ControlSlot(KindOf(c, r), j) && Demanded(c, r, j, q)
    ensures r.RRegion? || r.REndRegion? || r.RTrue? || r.RFalse? || r.REnd?
    ensures r.RRegion? ==>
      r.b in c.order && j < |Entries(c, r.b)| &&
      Inputs(c, r)[j] == Entries(c, r.b)[j].ctrl && q == Entries(c, r.b)[j].mem
    ensures r.REndRegion? ==>
      j < |Exits(c)| && Inputs(c, r)[j] == Exits(c)[j].ctrl &&
      (q == Exits(c)[j].mem || q == Exits(c)[j].val)
    ensures r.RTrue? || r.RFalse? ==>
      r.b in c.order && LastOp(c, r.b).Branch? &&
      Inputs(c, r)[j] == RBranch(r.b) && q == RLoad(r.b, Plain(Code(c, r.b)), 0)
    ensures r.REnd? ==> Inputs(c, r)[j] == REndRegion && (q == REscape || q == REndVal)
  {
    hide Entries, Exits;
  }

  lemma BranchLoad(c: C.Cfg, b: C.BlockId)
    requires C.GoodCfg(c) && b in c.order && LastOp(c, b).Branch?
    ensures ValidRole(c, RLoad(b, Plain(Code(c, b)), 0))
  {
    InstAt(c, b, |Code(c, b)| - 1);
  }

  lemma StartMemDeps(c: C.Cfg, num: Numbering, g: Graph)
    requires FullSetting(c, num, g)
    ensures Deps(g, Num(num, RStartMem)) == {}
  {
    Node(c, num, g, RStartMem);
  }

  lemma ReadyInBlock(c: C.Cfg, num: Numbering, g: Graph, p: Path, ctrl: Role, b: C.BlockId, q: Role)
    requires FullSetting(c, num, g) && Walk(g, p) && ValidRole(c, ctrl) && At(g, p) == Num(num, ctrl) && b in c.order
    requires ctrl == RRegion(b) || ctrl == RBranch(b) || ctrl == RTrue(b) || ctrl == RFalse(b)
    requires ValidRole(c, q) && (InBlock(q, b) || q.RNull?)
    ensures Ready(g, p, Num(num, q))
  {
    hide Setting, Shape, C.GoodCfg, IsLowering, GoodNumbering;
    Lists(c, num, g);
    RoleDeps(c, num, g, q, b);
    InBlockVisited(c, num, g, p, ctrl, b);
    PhiArg(c, num, g, b);
  }

  lemma EscapeDeps(c: C.Cfg, num: Numbering, g: Graph)
    requires FullSetting(c, num, g)
    ensures Deps(g, Num(num, REscape)) == {Num(num, REndMem)}
  {
    hide Setting, Shape;
    Node(c, num, g, REndMem);
    Node(c, num, g, REscape);
    var n := Num(num, REscape);
    assert Deps(g, n) == DepsArg(g, n, 0) + DepsArg(g, n, 1) + DepsArg(g, n, 2) + DepsArg(g, n, 3);
    assert DepsArg(g, n, 1) == Deps(g, Num(num, REndMem)) == {Num(num, REndMem)};
  }

  lemma SettingParts(c: C.Cfg, num: Numbering, g: Graph)
    requires FullSetting(c, num, g)
    ensures Setting(c, num, g) && Acyclic(g) && C.GoodCfg(c)
  {
    hide C.GoodCfg, IsLowering, Acyclic;
  }

  lemma EndRegionIsRole(c: C.Cfg)
    ensures ValidRole(c, REndRegion)
  {}

  lemma VisitsNow(g: Graph, p: Path, r: Id)
    requires p.Go? && At(g, p) == r
    ensures Visits(p, r)
  {}

  lemma ReadyThrough(g: Graph, p: Path, d: Id, q: Id)
    requires Acyclic(g) && Deps(g, d) <= {q} && Visits(p, Arg(g, q, 0))
    ensures Ready(g, p, d)
  {}

  lemma EndPhi(c: C.Cfg, num: Numbering, g: Graph, phi: Role)
    requires FullSetting(c, num, g) && (phi == REndMem || phi == REndVal)
    ensures Deps(g, Num(num, phi)) == {Num(num, phi)} && Arg(g, Num(num, phi), 0) == Num(num, REndRegion)
  {
    hide Setting, Shape;
    Node(c, num, g, phi);
  }

  lemma ReadyAtEnd(c: C.Cfg, num: Numbering, g: Graph, p: Path, q: Role)
    requires FullSetting(c, num, g) && Walk(g, p) && At(g, p) == Num(num, REndRegion) && (q == REscape || q == REndVal)
    ensures Ready(g, p, Num(num, q))
  {
    hide *;
    SettingParts(c, num, g);
    EndRegionIsRole(c);
    Came(c, num, g, p, REndRegion);
    VisitsNow(g, p, Num(num, REndRegion));
    var phi := if q == REscape then REndMem else REndVal;
    EndPhi(c, num, g, phi);
    if q == REscape {
      EscapeDeps(c, num, g);
    }
    ReadyThrough(g, p, Num(num, q), Num(num, phi));
  }

  lemma IsStrict(c: C.Cfg, num: Numbering, g: Graph)
    requires FullSetting(c, num, g)
    ensures Strict(g)
  {
    forall p, n, j, d | Walk(g, p) && Edge(g, At(g, p), n, j) && Demands(g, n, j, d)
      ensures Ready(g, p, d)
    {
      var r := RoleOf(c, num, g, n);
      StepReady(c, num, g, p, r, j, d);
    }
  }

  /** The lowering of a good block graph is a well-formed graph. */
  lemma LoweredWellFormed(c: C.Cfg, num: Numbering, g: Graph)
    requires C.GoodCfg(c) && IsLowering(c, num, g)
    ensures WellFormed(g, MemIds(c, num))
  {
    hide C.GoodCfg, IsLowering, Shape, MemTyped, Acyclic, Strict, AllReached, AllLeave;
    Shaped(c, num, g);
    Reached(c, num, g);
    Leaves(c, num, g);
    IsStrict(c, num, g);
  }
}
