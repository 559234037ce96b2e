/** The block graph of an accepted program: all jumps lead to its blocks, and from every block there is a
    way out of the function. */
module CheckCfg {
  import opened Options
  import C = Cfgs
  import opened Syntax
  import opened Grammar
  import opened CheckSpec
  import opened TreeSemantics
  import opened CheckShape
  import opened CheckBlocks

  /** `K` contains every block that leaves the function, and every block that leads to one of `K`. */
  ghost predicate WaysOut(fb: seq<C.Block>, K: set<C.BlockId>) {
    (forall b :: 0 <= b < |fb| && C.Exits(fb[b].code) ==> b in K) &&
    forall b, t :: 0 <= b < |fb| && t in K && C.Succ(fb[b].code, t) ==> b in K
  }

  predicate Within(s: Checking, s': Checking, K: set<C.BlockId>)
    requires Running(s) && Running(s')
  {
    forall b :: Cur(s) <= b <= Cur(s') ==> b in K
  }

  lemma {:induction false} WaitsOut(fb: seq<C.Block>, K: set<C.BlockId>, s: Checking, b: C.BlockId, jump: C.Inst)
    requires WaysOut(fb, K) && Waits(fb, s, b, jump)
    ensures jump.op.Goto? && jump.op.target in K ==> b in K
    ensures jump.op.Branch? && (jump.op.thenTo in K || jump.op.elseTo in K) ==> b in K
    ensures jump.op.Return? ==> b in K
  {
    var code := fb[b].code;
    assert code[|code| - 1] == jump;
    if jump.op.Goto? {
      assert C.Succ(code, jump.op.target);
    }
    if jump.op.Branch? {
      assert C.Succ(code, jump.op.thenTo) && C.Succ(code, jump.op.elseTo);
    }
  }

  /** If control can leave from where a statement ends, it can leave from all of the statement. */
  lemma {:induction false} StmtLeaves(t: Tree, s: Checking, s': Checking, fb: seq<C.Block>, K: set<C.BlockId>)
    requires Running(s) && Good(s) && ScopeGood(s) && IsStmt(t) && Check(t, s) == Some(s')
    requires Holds(fb, s, s') && WaysOut(fb, K) && Cur(s') in K
    ensures Within(s, s', K)
    decreases t
  {
    hide Good, ScopeGood, ExprAdds, WaysOut, Holds, Check, IsStmt, Obeys;
    StmtCases(t);
    if t.kind == Block {
      BlockHolds(t, s, s', fb);
      AllLeave(t.children, BlockBegin(s), CheckAll(t.children, BlockBegin(s)).value, fb, K);
    } else if t.kind == If {
      IfLeaves(t, s, s', fb, K);
    } else if t.kind == While {
      WhileLeaves(t, s, s', fb, K);
    } else if t.kind == Return {
      ReturnLeaves(t, s, s', fb, K);
    } else {
      SimpleStays(t, s, s');
    }
  }

  lemma {:induction false} SimpleStays(t: Tree, s: Checking, s': Checking)
    requires Running(s) && Good(s) && ScopeGood(s) && (IsLocal(t) || Obeys(t)) && Check(t, s) == Some(s')
    ensures Cur(s') == Cur(s)
  {
    if Obeys(t) {
      ExprShape(t, s, s');
    }
  }

  lemma {:induction false} AllLeave(ts: seq<Tree>, s: Checking, s': Checking, fb: seq<C.Block>, K: set<C.BlockId>)
    requires Running(s) && Good(s) && ScopeGood(s) && s.scope.Scope?
    requires (forall k :: 0 <= k < |ts| ==> IsStmt(ts[k])) && CheckAll(ts, s) == Some(s')
    requires Holds(fb, s, s') && WaysOut(fb, K) && Cur(s') in K
    ensures Within(s, s', K)
    decreases ts
  {
    hide Good, ScopeGood, Part, WaysOut, IsStmt;
    if |ts| > 0 {
      AllHolds(ts, s, s', fb);
      var s1 := Check(ts[0], s).value;
      AllLeave(ts[1..], s1, s', fb, K);
      StmtLeaves(ts[0], s, s1, fb, K);
    }
  }

  lemma {:induction false} ReturnLeaves(t: Tree, s: Checking, s': Checking, fb: seq<C.Block>, K: set<C.BlockId>)
    requires Running(s) && Good(s) && ScopeGood(s) && IsReturn(t) && Check(t, s) == Some(s')
    requires Holds(fb, s, s') && WaysOut(fb, K) && Cur(s') in K
    ensures Within(s, s', K)
  {
    hide *;
    var n := |t.children|;
    var s1 := ReturnIsAt(t, s, s');
    ReturnHolds(n, s, s1, s', fb);
    WaitsOut(fb, K, s1, Cur(s1), C.Inst(C.Return, s1.stack[|s1.stack| - n..], C.NoPlace));
    ReturnWithin(n, s, s1, s', K);
  }

  lemma {:induction false} ReturnWithin(n: nat, s: Checking, s1: Checking, s': Checking, K: set<C.BlockId>)
    requires Running(s) && Running(s1) && |s1.blocks| == |s.blocks| && n <= |s1.stack| && ReturnEnd(n, s1) == Some(s')
    requires Cur(s1) in K && Cur(s') in K
    ensures Within(s, s', K)
  {}

  /** The state before the instruction itself. */
  lemma {:induction false} ReturnIsAt(t: Tree, s: Checking, s': Checking) returns (s1: Checking)
    requires Running(s) && Good(s) && ScopeGood(s) && IsReturn(t) && Check(t, s) == Some(s')
    ensures Running(s1) && Extends(s, s1) && |s1.blocks| == |s.blocks|
    ensures |t.children| <= |s1.stack|
    ensures ReturnEnd(|t.children|, s1) == Some(s')
    ensures if |t.children| == 0 then s1 == s else Check(t.children[0], s) == Some(s1) && ExprAdds(t.children[0], s, s1)
  {
    hide ScopeGood, Good, Part;
    s1 := CheckAll(t.children, s).value;
    if |t.children| == 1 {
      CheckOne(t.children, s);
      ExprShape(t.children[0], s, s1);
    }
  }

  lemma {:induction false} IfLeaves(t: Tree, s: Checking, s': Checking, fb: seq<C.Block>, K: set<C.BlockId>)
    requires Running(s) && Good(s) && ScopeGood(s) && IsIf(t) && Check(t, s) == Some(s') && Holds(fb, s, s')
    requires WaysOut(fb, K) && Cur(s') in K
    ensures Within(s, s', K)
    decreases t, 0
  {
    hide Good, ScopeGood, Part, WaysOut, Check, IfElse, IfEnd, Obeys, Holds, Waits;
    var at := IfIs(t, s, s');
    IfHolds(t, s, s', at, fb);
    ExprFacts(t.children[0], s, at.s0);
    var s1 := NewBlock(at.s0);
    WaitsOut(fb, K, at.s2, Cur(at.s2), GotoInst(Cur(s')));
    StmtLeaves(t.children[1], s1, at.s2, fb, K);
    if |t.children| == 3 {
      WaitsOut(fb, K, at.s4, Cur(at.s4), GotoInst(Cur(s')));
      StmtLeaves(t.children[2], at.s3, at.s4, fb, K);
    }
    HoldsOrder(fb, s1, at.s2);
    WaitsOut(fb, K, at.s0, Cur(at.s0), BranchInst(at.s0, |at.s0.blocks|, |at.s2.blocks|));
  }

  lemma {:induction false} HoldsOrder(fb: seq<C.Block>, s: Checking, s': Checking)
    requires Holds(fb, s, s')
    ensures Running(s) && Running(s') && Cur(s) <= Cur(s')
  {}

  lemma {:induction false} WhileLeaves(t: Tree, s: Checking, s': Checking, fb: seq<C.Block>, K: set<C.BlockId>)
    requires Running(s) && Good(s) && ScopeGood(s) && IsWhile(t) && Check(t, s) == Some(s')
    requires Holds(fb, s, s') && WaysOut(fb, K) && Cur(s') in K
    ensures Within(s, s', K)
    decreases t, 0
  {
    hide Good, ScopeGood, Part, WaysOut, Check, WhileEnd, Obeys, Holds, Waits;
    var at := WhileIs(t, s, s');
    WhileHolds(t, s, s', at, fb);
    ExprFacts(t.children[0], at.s1, at.s2);
    WaitsOut(fb, K, at.s2, Cur(at.s2), BranchInst(at.s2, |at.s2.blocks|, |at.s4.blocks|));
    WaitsOut(fb, K, at.s4, Cur(at.s4), GotoInst(|s.blocks|));
    StmtLeaves(t.children[1], NewBlock(at.s2), at.s4, fb, K);
    WaitsOut(fb, K, s, Cur(s), GotoInst(|s.blocks|));
  }

  // ----- the whole program -----

  /** The blocks in the order they were made. */
  function InOrder(n: nat): seq<C.BlockId> {
    seq(n, i requires 0 <= i < n => i)
  }

  /** The block graph as the checker hands it on. */
  function CfgOf(s: Checking): C.Cfg {
    C.Cfg(s.blocks, InOrder(|s.blocks|), s.places)
  }

  lemma {:induction false} OrderHas(s: Checking)
    ensures forall b: C.BlockId :: b in CfgOf(s).order <==> b < |s.blocks|
  {
    var c := CfgOf(s);
    forall b: C.BlockId | b < |s.blocks|
      ensures b in c.order
    {
      assert c.order[b] == b;
    }
  }

  lemma {:induction false} ProgramChecked(t: Tree, s: Checking)
    requires IsBlock(t) && Check(t, Initial()) == Some(s)
    ensures StmtAdds(t, Initial(), s) && AllGood(s)
    ensures NoJumps(CodeOf(s, Cur(s))) && s.stack == []
    ensures s.places == Slots(t)
    ensures forall b :: 0 <= b < Cur(s) ==> Closed(CodeOf(s, b))
    ensures C.Listed(CfgOf(s)) && (forall b :: b in CfgOf(s).order ==> C.GoodCode(s.blocks[b].code, s.places))
    ensures forall K :: C.BackwardClosed(CfgOf(s), K) ==> forall b :: b in CfgOf(s).order ==> b in K
  {
    hide Check, Part, StmtAdds;
    EmptyGood();
    StmtShape(t, Initial(), s);
    StmtEnd(t, Initial(), s);
    EndCfg(s);
    forall K | C.BackwardClosed(CfgOf(s), K)
      ensures forall b :: b in CfgOf(s).order ==> b in K
    {
      EndLeaves(s, K);
      assert Holds(s.blocks, Initial(), s);
      StmtLeaves(t, Initial(), s, s.blocks, K);
    }
  }

  lemma {:induction false} EmptyGood()
    ensures Good(Initial()) && ScopeGood(Initial()) && Cur(Initial()) == 0
  {}

  lemma {:induction false} StmtEnd(t: Tree, s: Checking, s': Checking)
    requires IsBlock(t) && s == Initial() && StmtAdds(t, s, s')
    ensures Good(s') && s'.stack == [] && s'.places == Slots(t) && Left(s, s', {})
  {}

  lemma {:induction false} EndCfg(s: Checking)
    requires Good(s) && Left(Initial(), s, {})
    ensures forall b :: 0 <= b < Cur(s) ==> Closed(CodeOf(s, b))
    ensures C.Listed(CfgOf(s)) && forall b :: b in CfgOf(s).order ==> C.GoodCode(s.blocks[b].code, s.places)
  {
    forall b: C.BlockId | b < Cur(s)
      ensures Closed(CodeOf(s, b))
    {
      assert LeadsWithin(CodeOf(s, b), 0, Cur(s));
    }
    OrderHas(s);
    forall b: C.BlockId, t: C.BlockId | b in CfgOf(s).order && C.Succ(s.blocks[b].code, t)
      ensures t in CfgOf(s).order
    {
      if b < Cur(s) {
        assert LeadsWithin(CodeOf(s, b), 0, Cur(s));
      }
    }
    forall b | b in CfgOf(s).order
      ensures C.GoodCode(s.blocks[b].code, s.places)
    {
      assert GoodBlock(s.blocks[b], s.places);
    }
  }

  lemma {:induction false} EndLeaves(s: Checking, K: set<C.BlockId>)
    requires Good(s) && C.BackwardClosed(CfgOf(s), K)
    ensures WaysOut(s.blocks, K) && Cur(s) in K
  {
    OrderHas(s);
    var code := s.blocks[Cur(s)].code;
    assert CodeOf(s, Cur(s)) == code;
    assert C.Exits(code);
  }
}
