/** A lowered graph is well formed. */
module LoweredShape {
  import C = Cfgs
  import opened Graphs
  import opened Roles

  // ----- entries and exits -----

  /** `e` leads from the end of block `b` to block `t`. */
  predicate FromBlock(c: C.Cfg, b: C.BlockId, t: C.BlockId, e: Entry) {
    e.mem == LastMem(c, b) && match LastOp(c, b)
    case Goto(x) => x == t && e.ctrl == RRegion(b)
    case Branch(x, y) => (x == t && e.ctrl == RTrue(b)) || (y == t && e.ctrl == RFalse(b))
    case _ => false
  }

  lemma EntriesUpToCases(c: C.Cfg, t: C.BlockId, n: nat, j: nat) returns (b: C.BlockId)
    requires n <= |c.order| && j < |EntriesUpTo(c, t, n)|
    ensures b in c.order && FromBlock(c, b, t, EntriesUpTo(c, t, n)[j])
  {
    hide BlockEntries, FromBlock;
    if j < |EntriesUpTo(c, t, n - 1)| {
      b := EntriesUpToCases(c, t, n - 1, j);
    } else {
      b := c.order[n - 1];
      BlockOnly(c, b, t, j - |EntriesUpTo(c, t, n - 1)|);
    }
  }

  lemma BlockHas(c: C.Cfg, b: C.BlockId, t: C.BlockId, e: Entry) returns (i: nat)
    requires FromBlock(c, b, t, e)
    ensures i < |BlockEntries(c, b, t)| && BlockEntries(c, b, t)[i] == e
  {
    i := if e.ctrl.RFalse? && |BlockEntries(c, b, t)| == 2 then 1 else 0;
  }

  lemma BlockOnly(c: C.Cfg, b: C.BlockId, t: C.BlockId, i: nat)
    requires i < |BlockEntries(c, b, t)|
    ensures FromBlock(c, b, t, BlockEntries(c, b, t)[i])
  {}

  lemma EntriesUpToHave(c: C.Cfg, t: C.BlockId, n: nat, k: nat, e: Entry) returns (j: nat)
    requires k < n <= |c.order| && FromBlock(c, c.order[k], t, e)
    ensures j < |EntriesUpTo(c, t, n)| && EntriesUpTo(c, t, n)[j] == e
  {
    hide BlockEntries, FromBlock;
    var before, here := EntriesUpTo(c, t, n - 1), BlockEntries(c, c.order[n - 1], t);
    assert EntriesUpTo(c, t, n) == before + here;
    if k < n - 1 {
      j := EntriesUpToHave(c, t, n - 1, k, e);
    } else {
      var i := BlockHas(c, c.order[k], t, e);
      j := |before| + i;
    }
  }

  predicate FromStart(c: C.Cfg, t: C.BlockId, e: Entry) {
    |c.order| > 0 && c.order[0] == t && e == Entry(RStartCtrl, RStartMem)
  }

  /** Every entry into a block is START's or comes from the end of a listed block... */
  lemma EntryCases(c: C.Cfg, t: C.BlockId, j: nat) returns (b: C.BlockId)
    requires j < |Entries(c, t)|
    ensures FromStart(c, t, Entries(c, t)[j]) || (b in c.order && FromBlock(c, b, t, Entries(c, t)[j]))
  {
    b := 0;
    if j < |EntriesUpTo(c, t, |c.order|)| {
      b := EntriesUpToCases(c, t, |c.order|, j);
    }
  }

  /** ... and every such way is an entry. */
  lemma EntryExists(c: C.Cfg, b: C.BlockId, t: C.BlockId, e: Entry) returns (j: nat)
    requires FromStart(c, t, e) || (b in c.order && FromBlock(c, b, t, e))
    ensures j < |Entries(c, t)| && Entries(c, t)[j] == e
  {
    if FromStart(c, t, e) {
      j := |EntriesUpTo(c, t, |c.order|)|;
    } else {
      var k :| 0 <= k < |c.order| && c.order[k] == b;
      j := EntriesUpToHave(c, t, |c.order|, k, e);
    }
  }

  function ExitOf(c: C.Cfg, b: C.BlockId): Exit {
    Exit(RRegion(b), LastMem(c, b), if ReturnsValue(c, b) then RLoad(b, |Code(c, b)| - 1, 0) else RNull(b))
  }

  lemma ExitsUpToCases(c: C.Cfg, n: nat, j: nat) returns (b: C.BlockId)
    requires n <= |c.order| && j < |ExitsUpTo(c, n)|
    ensures b in c.order && C.Exits(Code(c, b)) && ExitsUpTo(c, n)[j] == ExitOf(c, b)
  {
    if j < |ExitsUpTo(c, n - 1)| {
      b := ExitsUpToCases(c, n - 1, j);
    } else {
      b := c.order[n - 1];
    }
  }

  lemma ExitsUpToHave(c: C.Cfg, n: nat, k: nat) returns (j: nat)
    requires k < n <= |c.order| && C.Exits(Code(c, c.order[k]))
    ensures j < |ExitsUpTo(c, n)| && ExitsUpTo(c, n)[j] == ExitOf(c, c.order[k])
  {
    if k < n - 1 {
      j := ExitsUpToHave(c, n - 1, k);
    } else {
      j := |ExitsUpTo(c, n - 1)|;
    }
  }

  lemma ExitCases(c: C.Cfg, j: nat) returns (b: C.BlockId)
    requires j < |Exits(c)|
    ensures b in c.order && C.Exits(Code(c, b)) && Exits(c)[j] == ExitOf(c, b)
  {
    b := ExitsUpToCases(c, |c.order|, j);
  }

  lemma ExitExists(c: C.Cfg, b: C.BlockId) returns (j: nat)
    requires b in c.order && C.Exits(Code(c, b))
    ensures j < |Exits(c)| && Exits(c)[j] == ExitOf(c, b)
  {
    var k :| 0 <= k < |c.order| && c.order[k] == b;
    j := ExitsUpToHave(c, |c.order|, k);
  }

  lemma HasEntry(c: C.Cfg, t: C.BlockId)
    requires C.GoodCfg(c) && t in c.order
    ensures |Entries(c, t)| > 0
  {
    if t == c.order[0] {
      var j := EntryExists(c, t, t, Entry(RStartCtrl, RStartMem));
    } else if forall b :: b in c.order ==> !C.Succ(Code(c, b), t) {
      var K := (set b | b in c.order) - {t};
      assert C.ForwardClosed(c, K);
    } else {
      var b :| b in c.order && C.Succ(Code(c, b), t);
      var e := Entry(if LastOp(c, b).Goto? then RRegion(b)
        else if LastOp(c, b).thenTo == t then RTrue(b) else RFalse(b), LastMem(c, b));
      var j := EntryExists(c, b, t, e);
    }
  }

  lemma HasExit(c: C.Cfg) returns (b: C.BlockId)
    requires C.GoodCfg(c)
    ensures b in c.order && C.Exits(Code(c, b)) && |Exits(c)| > 0
  {
    if forall b :: b in c.order ==> !C.Exits(Code(c, b)) {
      assert c.order[0] in c.order;
      assert C.BackwardClosed(c, {});
    }
    b :| b in c.order && C.Exits(Code(c, b));
    var j := ExitExists(c, b);
  }

  // ----- inputs are what their slots ask for -----

  /** Input `i` of role `r` is a role that fits the slot. */
  ghost predicate Fits(c: C.Cfg, r: Role, i: nat)
    requires i < |Inputs(c, r)|
  {
    var q := Inputs(c, r)[i];
    if r == REscape && i == 0 then q == RNone
    else
      ValidRole(c, q) && q != REnd && (ControlKind(KindOf(c, q)) <==> ControlSlot(KindOf(c, r), i)) &&
      (i == 0 ==>
         (KindOf(c, r) == Phi ==> KindOf(c, q) == Region && |Inputs(c, r)| == |Inputs(c, q)| + 1) &&
         (KindOf(c, r) in {BranchTrue, BranchFalse} ==> KindOf(c, q) == Branch) &&
         (KindOf(c, r) in {StartCtrl, StartMem, Null, Alloca, Constant} ==> KindOf(c, q) == Start))
  }

  predicate MemRole(r: Role) {
    r.RStartMem? || r.RPhi? || r.RStore? || r.REndMem? || r.REscape?
  }

  /** ... and is memory exactly where the slot asks for memory. */
  ghost predicate FitsMem(c: C.Cfg, r: Role, i: nat)
    requires i < |Inputs(c, r)|
  {
    !ControlSlot(KindOf(c, r), i) && Inputs(c, r)[i] != RNone ==>
      (MemRole(Inputs(c, r)[i]) <==> if KindOf(c, r) == Phi then MemRole(r) else MemSlot(KindOf(c, r), i))
  }

  lemma InstAt(c: C.Cfg, b: C.BlockId, k: nat)
    requires C.GoodCfg(c) && b in c.order && k < |Code(c, b)|
    ensures C.GoodInst(Code(c, b)[k], c.places) && (k < Plain(Code(c, b)) <==> !C.Jump(Code(c, b)[k].op))
  {
    assert C.GoodCode(c.blocks[b].code, c.places);
  }

  lemma MemAtValid(c: C.Cfg, b: C.BlockId, k: nat)
    requires b in c.order && k <= Plain(Code(c, b))
    ensures ValidRole(c, MemAt(b, k)) && MemRole(MemAt(b, k)) && !ControlKind(KindOf(c, MemAt(b, k)))
  {}

  lemma StartEntryFits(c: C.Cfg, t: C.BlockId, e: Entry)
    requires FromStart(c, t, e)
    ensures ValidRole(c, e.ctrl) && ControlKind(KindOf(c, e.ctrl)) && e.ctrl != REnd
    ensures ValidRole(c, e.mem) && MemRole(e.mem) && !ControlKind(KindOf(c, e.mem))
  {}

  lemma LastMemValid(c: C.Cfg, b: C.BlockId)
    requires b in c.order
    ensures ValidRole(c, LastMem(c, b)) && MemRole(LastMem(c, b)) && !ControlKind(KindOf(c, LastMem(c, b)))
  {
    MemAtValid(c, b, Plain(Code(c, b)));
  }

  lemma BlockEntryFits(c: C.Cfg, b: C.BlockId, t: C.BlockId, e: Entry)
    requires b in c.order && FromBlock(c, b, t, e)
    ensures ValidRole(c, e.ctrl) && ControlKind(KindOf(c, e.ctrl)) && e.ctrl != REnd
    ensures ValidRole(c, e.mem) && MemRole(e.mem) && !ControlKind(KindOf(c, e.mem))
  {
    LastMemValid(c, b);
    hide LastMem, MemRole;
  }

  lemma EntryFits(c: C.Cfg, t: C.BlockId, j: nat)
    requires C.GoodCfg(c) && t in c.order && j < |Entries(c, t)|
    ensures var e := Entries(c, t)[j];
      ValidRole(c, e.ctrl) && ControlKind(KindOf(c, e.ctrl)) && e.ctrl != REnd &&
      ValidRole(c, e.mem) && MemRole(e.mem) && !ControlKind(KindOf(c, e.mem))
  {
    hide *;
    var b := EntryCases(c, t, j);
    if FromStart(c, t, Entries(c, t)[j]) {
      StartEntryFits(c, t, Entries(c, t)[j]);
    } else {
      BlockEntryFits(c, b, t, Entries(c, t)[j]);
    }
  }

  lemma ExitRoles(c: C.Cfg, b: C.BlockId)
    requires b in c.order && C.Exits(Code(c, b))
    ensures var e := ExitOf(c, b);
      ValidRole(c, e.ctrl) && ControlKind(KindOf(c, e.ctrl)) && e.ctrl != REnd && e.mem == LastMem(c, b) &&
      ValidRole(c, e.val) && !MemRole(e.val) && !ControlKind(KindOf(c, e.val))
  {
    hide LastMem;
  }

  lemma ExitFits(c: C.Cfg, j: nat)
    requires C.GoodCfg(c) && j < |Exits(c)|
    ensures var e := Exits(c)[j];
      ValidRole(c, e.ctrl) && ControlKind(KindOf(c, e.ctrl)) && e.ctrl != REnd &&
      ValidRole(c, e.mem) && MemRole(e.mem) && !ControlKind(KindOf(c, e.mem)) &&
      ValidRole(c, e.val) && !MemRole(e.val) && !ControlKind(KindOf(c, e.val))
  {
    hide *;
    var b := ExitCases(c, j);
    LastMemValid(c, b);
    ExitRoles(c, b);
  }

  lemma LoadFits(c: C.Cfg, b: C.BlockId, k: nat, a: nat, i: nat)
    requires C.GoodCfg(c) && ValidRole(c, RLoad(b, k, a)) && i < 3
    ensures Fits(c, RLoad(b, k, a), i) && FitsMem(c, RLoad(b, k, a), i)
  {
    hide C.GoodCfg;
    InstAt(c, b, k);
    assert Code(c, b)[k].args[a] in Code(c, b)[k].args;
    MemAtValid(c, b, k);
  }

  lemma StoreRoles(c: C.Cfg, b: C.BlockId, k: nat)
    requires C.GoodCfg(c) && ValidRole(c, RStore(b, k))
    ensures b in c.order && k <= Plain(Code(c, b)) && ValidRole(c, RRegion(b))
    ensures ValidRole(c, WritePlace(c, b, k)) && WritePlace(c, b, k).RAlloca?
    ensures ValidRole(c, ResultOf(c, b, k)) && (ResultOf(c, b, k).RValue? || ResultOf(c, b, k).RLoad?)
  {
    hide C.GoodCfg;
    InstAt(c, b, k);
  }

  lemma StoreInputs(c: C.Cfg, b: C.BlockId, k: nat)
    ensures Inputs(c, RStore(b, k)) == [RRegion(b), MemAt(b, k), WritePlace(c, b, k), ResultOf(c, b, k)]
  {}

  lemma StoreFits(c: C.Cfg, b: C.BlockId, k: nat, i: nat)
    requires C.GoodCfg(c) && ValidRole(c, RStore(b, k)) && i < 4
    ensures Fits(c, RStore(b, k), i) && FitsMem(c, RStore(b, k), i)
  {
    StoreRoles(c, b, k);
    MemAtValid(c, b, k);
    StoreInputs(c, b, k);
    hide C.GoodCfg, Inputs, MemAt, WritePlace, ResultOf, ValidRole;
  }

  lemma InBlockFits(c: C.Cfg, r: Role, i: nat)
    requires C.GoodCfg(c) && ValidRole(c, r) && i < |Inputs(c, r)| && (r.RValue? || r.RBranch? || r.RTrue? || r.RFalse?)
    ensures Fits(c, r, i) && FitsMem(c, r, i)
  {
    hide C.GoodCfg;
    if r.RValue? {
      InstAt(c, r.b, r.k);
    } else {
      InstAt(c, r.b, |Code(c, r.b)| - 1);
    }
  }

  lemma RegionFits(c: C.Cfg, b: C.BlockId, i: nat)
    requires C.GoodCfg(c) && ValidRole(c, RRegion(b)) && i < |Inputs(c, RRegion(b))|
    ensures Fits(c, RRegion(b), i) && FitsMem(c, RRegion(b), i)
  {
    EntryFits(c, b, i);
    hide C.GoodCfg, Entries, ValidRole, MemRole;
  }

  lemma PhiInputs(c: C.Cfg, b: C.BlockId)
    ensures |Inputs(c, RPhi(b))| == |Entries(c, b)| + 1 && Inputs(c, RPhi(b))[0] == RRegion(b)
    ensures forall j :: 0 <= j < |Entries(c, b)| ==> Inputs(c, RPhi(b))[j + 1] == Entries(c, b)[j].mem
    ensures |Inputs(c, RRegion(b))| == |Entries(c, b)|
  {
    hide Entries;
  }

  lemma EndPhiInputs(c: C.Cfg)
    ensures |Inputs(c, REndMem)| == |Exits(c)| + 1 && Inputs(c, REndMem)[0] == REndRegion
    ensures forall j :: 0 <= j < |Exits(c)| ==> Inputs(c, REndMem)[j + 1] == Exits(c)[j].mem
    ensures |Inputs(c, REndVal)| == |Exits(c)| + 1 && Inputs(c, REndVal)[0] == REndRegion
    ensures forall j :: 0 <= j < |Exits(c)| ==> Inputs(c, REndVal)[j + 1] == Exits(c)[j].val
    ensures |Inputs(c, REndRegion)| == |Exits(c)|
  {
    hide Exits;
  }

  lemma PhiFits(c: C.Cfg, b: C.BlockId, i: nat)
    requires C.GoodCfg(c) && ValidRole(c, RPhi(b)) && i < |Inputs(c, RPhi(b))|
    ensures Fits(c, RPhi(b), i) && FitsMem(c, RPhi(b), i)
  {
    PhiInputs(c, b);
    hide C.GoodCfg, Entries, Inputs;
    if i > 0 {
      EntryFits(c, b, i - 1);
      hide ValidRole, MemRole;
    }
  }

  lemma EndRegionFits(c: C.Cfg, i: nat)
    requires C.GoodCfg(c) && i < |Inputs(c, REndRegion)|
    ensures Fits(c, REndRegion, i) && FitsMem(c, REndRegion, i)
  {
    ExitFits(c, i);
    hide C.GoodCfg, Exits, ValidRole, MemRole;
  }

  lemma EndMemFits(c: C.Cfg, i: nat)
    requires C.GoodCfg(c) && i < |Inputs(c, REndMem)|
    ensures Fits(c, REndMem, i) && FitsMem(c, REndMem, i)
  {
    EndPhiInputs(c);
    hide C.GoodCfg, Exits, Inputs;
    if i > 0 {
      ExitFits(c, i - 1);
      hide ValidRole, MemRole;
    }
  }

  lemma EndValFits(c: C.Cfg, i: nat)
    requires C.GoodCfg(c) && i < |Inputs(c, REndVal)|
    ensures Fits(c, REndVal, i) && FitsMem(c, REndVal, i)
  {
    EndPhiInputs(c);
    hide C.GoodCfg, Exits, Inputs;
    if i > 0 {
      ExitFits(c, i - 1);
      hide ValidRole, MemRole;
    }
  }

  lemma JoinFits(c: C.Cfg, r: Role, i: nat)
    requires C.GoodCfg(c) && ValidRole(c, r) && i < |Inputs(c, r)|
    requires r.RRegion? || r.RPhi? || r.REndRegion? || r.REndMem? || r.REndVal?
    ensures Fits(c, r, i) && FitsMem(c, r, i)
  {
    hide *;
    match r
    case RRegion(b) => RegionFits(c, b, i);
    case RPhi(b) => PhiFits(c, b, i);
    case REndRegion => EndRegionFits(c, i);
    case REndMem => EndMemFits(c, i);
    case REndVal => EndValFits(c, i);
  }

  lemma InputFits(c: C.Cfg, r: Role, i: nat)
    requires C.GoodCfg(c) && ValidRole(c, r) && i < |Inputs(c, r)|
    ensures Fits(c, r, i) && FitsMem(c, r, i)
  {
    if r.RLoad? {
      LoadFits(c, r.b, r.k, r.i, i);
    } else if r.RStore? {
      StoreFits(c, r.b, r.k, i);
    } else if r.RValue? || r.RBranch? || r.RTrue? || r.RFalse? {
      InBlockFits(c, r, i);
    } else if r.RRegion? || r.RPhi? || r.REndRegion? || r.REndMem? || r.REndVal? {
      JoinFits(c, r, i);
    }
  }

  lemma RoleArity(c: C.Cfg, r: Role)
    requires C.GoodCfg(c) && ValidRole(c, r)
    ensures Arity(KindOf(c, r), |Inputs(c, r)|)
  {
    match r
    case RRegion(b) => HasEntry(c, b);
    case RPhi(b) => HasEntry(c, b);
    case REndRegion => var b := HasExit(c);
    case REndMem => var b := HasExit(c);
    case REndVal => var b := HasExit(c);
    case _ =>
  }
}
