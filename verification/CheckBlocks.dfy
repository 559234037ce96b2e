/** Where the code of each part of a statement ends up in the finished blocks. */
module CheckBlocks {
  import opened Options
  import C = Cfgs
  import opened Syntax
  import opened Grammar
  import opened CheckSpec
  import opened CheckShape

  /** `fb` has the blocks as they are at `s'`, from the one current at `s` on; the one current at `s'`
      may have grown. */
  predicate Holds(fb: seq<C.Block>, s: Checking, s': Checking) {
    Running(s) && |s.blocks| <= |s'.blocks| <= |fb| &&
    (forall b :: Cur(s) <= b < Cur(s') ==> fb[b].code == s'.blocks[b].code) &&
    CodeOf(s', Cur(s')) <= fb[Cur(s')].code
  }

  predicate BlockIs(fb: seq<C.Block>, b: C.BlockId, code: seq<C.Inst>) {
    b < |fb| && fb[b].code == code
  }

  lemma {:induction false} HoldsFirst(fb: seq<C.Block>, s: Checking, s': Checking, s'': Checking)
    requires Holds(fb, s, s'') && Extends(s, s') && Extends(s', s'')
    ensures Holds(fb, s, s')
  {
    forall b | Cur(s) <= b < Cur(s')
      ensures fb[b].code == s'.blocks[b].code
    {
      assert s''.blocks[b] == s'.blocks[b];
    }
    if Cur(s') < Cur(s'') {
      assert fb[Cur(s')].code == CodeOf(s'', Cur(s'));
    }
  }

  lemma {:induction false} HoldsSecond(fb: seq<C.Block>, s: Checking, s': Checking, s'': Checking)
    requires Holds(fb, s, s'') && Extends(s, s') && |s'.blocks| <= |s''.blocks| && Running(s')
    ensures Holds(fb, s', s'')
  {}

  /** Block `b` ends up as it is at `s`, with `jump` added. */
  predicate Waits(fb: seq<C.Block>, s: Checking, b: C.BlockId, jump: C.Inst) {
    b < |s.blocks| && BlockIs(fb, b, CodeOf(s, b) + [jump])
  }

  function GotoInst(to: C.BlockId): C.Inst {
    C.Inst(C.Goto(to), [], C.NoPlace)
  }

  function BranchInst(s: Checking, thenTo: C.BlockId, elseTo: C.BlockId): C.Inst
    requires |s.stack| > 0
  {
    C.Inst(C.Branch(thenTo, elseTo), [s.stack[|s.stack| - 1]], C.NoPlace)
  }

  lemma {:induction false} GotoCode(s: Checking, from: C.BlockId, to: C.BlockId)
    requires from < |s.blocks|
    ensures var s' := MakeGoto(s, from, to); s'.stack == s.stack && s'.scope == s.scope && s'.places == s.places
    ensures var s' := MakeGoto(s, from, to);
      CodeOf(s', from) == CodeOf(s, from) + [GotoInst(to)] &&
      forall b :: 0 <= b < |s.blocks| && b != from ==> s'.blocks[b] == s.blocks[b]
  {
    assert s.stack[|s.stack|..] == [] && s.stack[..|s.stack|] == s.stack;
  }

  lemma {:induction false} BranchCode(s: Checking, from: C.BlockId, thenTo: C.BlockId, elseTo: C.BlockId)
    requires from < |s.blocks| && |s.stack| > 0
    ensures var s' := MakeBranch(s, from, thenTo, elseTo);
      CodeOf(s', from) == CodeOf(s, from) + [BranchInst(s, thenTo, elseTo)] &&
      forall b :: 0 <= b < |s.blocks| && b != from ==> s'.blocks[b] == s.blocks[b]
  {
    assert s.stack[|s.stack| - 1..] == [s.stack[|s.stack| - 1]];
  }

  // ----- `if` -----

  /** The states an `if` goes through: after the condition, after the first branch, and, with an
      `else`, before and after the second. */
  datatype IfStates = IfStates(s0: Checking, s2: Checking, s3: Checking, s4: Checking)

  ghost predicate IfSteps(t: Tree, s: Checking, s': Checking, at: IfStates) {
    IsIf(t) && ExprAdds(t.children[0], s, at.s0) && ScopeGood(s) && Good(NewBlock(at.s0)) &&
    ScopeGood(NewBlock(at.s0)) &&
    Check(t.children[0], s) == Some(at.s0) && Check(t.children[1], NewBlock(at.s0)) == Some(at.s2) &&
    StmtAdds(t.children[1], NewBlock(at.s0), at.s2) && IfElse(t, Cur(at.s0), |at.s0.blocks|, at.s2) == Some(at.s3) &&
    at.s2.stack == at.s0.stack &&
    Running(at.s3) && at.s3.stack == s.stack &&
    if |t.children| == 2 then s' == at.s3
    else
      Check(t.children[2], at.s3) == Some(at.s4) && StmtAdds(t.children[2], at.s3, at.s4) &&
      Good(at.s3) && ScopeGood(at.s3) && IfEnd(Cur(at.s2), at.s4) == Some(s')
  }

  lemma {:induction false} IfStepsMade(t: Tree, s: Checking, s': Checking, at: IfStates)
    requires IsIf(t) && 2 <= |t.children| <= 3 && ExprAdds(t.children[0], s, at.s0) && ScopeGood(s)
    requires Good(NewBlock(at.s0)) && ScopeGood(NewBlock(at.s0)) && Running(s) && Running(at.s0) && Running(at.s2)
    requires Check(t.children[0], s) == Some(at.s0) && Check(t.children[1], NewBlock(at.s0)) == Some(at.s2)
    requires StmtAdds(t.children[1], NewBlock(at.s0), at.s2) && at.s2.stack == at.s0.stack
    requires IfElse(t, Cur(at.s0), |at.s0.blocks|, at.s2) == Some(at.s3) && Running(at.s3) && at.s3.stack == s.stack
    requires |t.children| == 2 ==> s' == at.s3
    requires |t.children| == 3 ==>
      Check(t.children[2], at.s3) == Some(at.s4) && StmtAdds(t.children[2], at.s3, at.s4) && Good(at.s3) &&
      ScopeGood(at.s3) && Running(at.s4) && IfEnd(Cur(at.s2), at.s4) == Some(s')
    ensures IfSteps(t, s, s', at)
  {
    hide IsIf, Good, ScopeGood, Check, ExprAdds, StmtAdds, IfElse, IfEnd, NewBlock;
  }

  lemma {:induction false} IfIs(t: Tree, s: Checking, s': Checking) returns (at: IfStates)
    requires Running(s) && Good(s) && ScopeGood(s) && IsIf(t) && Check(t, s) == Some(s')
    ensures IfSteps(t, s, s', at)
  {
    hide *;
    IfUnfold(t, s);
    IfTrees(t);
    var s0 := Check(t.children[0], s).value;
    ThenIs(s0);
    var s1 := NewBlock(s0);
    var s2 := Check(t.children[1], s1).value;
    var s3 := IfElse(t, Cur(s0), |s0.blocks|, s2).value;
    at := IfStates(s0, s2, s3, if |t.children| == 2 then s3 else Check(t.children[2], s3).value);
    ExprShape(t.children[0], s, s0);
    AddsGood(t.children[0], s, s0);
    ExprPart(t.children[0], s, s0);
    PartFresh(s, s0, {});
    assert {} + {Cur(s0)} == {Cur(s0)};
    PartGood(s, s1, {Cur(s0)});
    StmtShape(t.children[1], s1, s2);
    IfElseShape(t, s, s0, s2);
    BranchesQuiet(t);
    QuietAdds(t.children[1], s1, s2);
    NewBlockIs(s0);
    if |t.children| == 3 {
      PartGood(s, s3, {Cur(s2)});
      StmtShape(t.children[2], s3, at.s4);
    }
    IfStepsMade(t, s, s', at);
  }

  /** Where the pieces of an `if` are. */
  ghost predicate IfLaid(t: Tree, s: Checking, s': Checking, at: IfStates, fb: seq<C.Block>)
    requires IfSteps(t, s, s', at)
  {
    Holds(fb, s, at.s0) && Holds(fb, NewBlock(at.s0), at.s2) && Running(s') &&
    Waits(fb, at.s0, Cur(at.s0), BranchInst(at.s0, |at.s0.blocks|, |at.s2.blocks|)) && CodeOf(s', Cur(s')) == [] &&
    if |t.children| == 2 then Cur(s') == |at.s2.blocks| && Waits(fb, at.s2, Cur(at.s2), GotoInst(Cur(s')))
    else
      Holds(fb, at.s3, at.s4) && Cur(at.s3) == |at.s2.blocks| && CodeOf(at.s3, Cur(at.s3)) == [] &&
      Cur(s') == |at.s4.blocks| &&
      Waits(fb, at.s2, Cur(at.s2), GotoInst(Cur(s'))) && Waits(fb, at.s4, Cur(at.s4), GotoInst(Cur(s')))
  }

  /** The blocks after the first branch of an `if`, and after all of it. */
  lemma {:induction false} IfElseBlocks(t: Tree, e: C.BlockId, h: C.BlockId, s: Checking, s3: Checking)
    requires Running(s) && |s.stack| > 0 && e < Cur(s) && IfElse(t, e, h, s) == Some(s3)
    ensures |s3.blocks| == |s.blocks| + 1 && CodeOf(s3, |s.blocks|) == []
    ensures CodeOf(s3, e) == CodeOf(s, e) + [BranchInst(s, h, |s.blocks|)]
    ensures CodeOf(s3, Cur(s)) == CodeOf(s, Cur(s)) + if |t.children| == 2 then [GotoInst(|s.blocks|)] else []
    ensures forall b :: 0 <= b < Cur(s) && b != e ==> s3.blocks[b] == s.blocks[b]
  {
    var n := |s.blocks|;
    BranchCode(NewBlock(s), e, h, n);
    GotoCode(MakeBranch(NewBlock(s), e, h, n), Cur(s), n);
  }

  lemma {:induction false} IfEndBlocks(a: C.BlockId, s: Checking, s': Checking)
    requires Running(s) && a < Cur(s) && IfEnd(a, s) == Some(s')
    ensures |s'.blocks| == |s.blocks| + 1 && CodeOf(s', |s.blocks|) == []
    ensures CodeOf(s', a) == CodeOf(s, a) + [GotoInst(|s.blocks|)]
    ensures CodeOf(s', Cur(s)) == CodeOf(s, Cur(s)) + [GotoInst(|s.blocks|)]
    ensures forall b :: 0 <= b < Cur(s) && b != a ==> s'.blocks[b] == s.blocks[b]
  {
    var n := |s.blocks|;
    GotoCode(NewBlock(s), a, n);
    GotoCode(MakeGoto(NewBlock(s), a, n), Cur(s), n);
  }

  lemma {:induction false} PartExtends(s: Checking, s': Checking, open: set<C.BlockId>)
    requires Part(s, s', open)
    ensures Extends(s, s')
  {}

  /** Blocks left behind by the first branch stay as they are. */
  lemma {:induction false} ElseKeeps(s2: Checking, s3: Checking, s4: Checking, s': Checking, e: C.BlockId, a: C.BlockId)
    requires Running(s2) && Running(s4) && e < Cur(s2) && a == Cur(s2) && |s3.blocks| == |s2.blocks| + 1
    requires Extends(s3, s4)
    requires forall b :: 0 <= b < Cur(s2) && b != e ==> s3.blocks[b] == s2.blocks[b]
    requires |s'.blocks| == |s4.blocks| + 1 && forall b :: 0 <= b < Cur(s4) && b != a ==> s'.blocks[b] == s4.blocks[b]
    ensures forall b :: 0 <= b < Cur(s2) && b != e ==> s'.blocks[b] == s2.blocks[b]
    ensures s'.blocks[e] == s3.blocks[e] && s4.blocks[a] == s3.blocks[a]
    ensures forall b :: Cur(s3) <= b < Cur(s4) ==> s'.blocks[b] == s4.blocks[b]
  {}

  lemma {:induction false} IfThreeStates(t: Tree, s: Checking, s': Checking, at: IfStates)
    requires Running(s) && IfSteps(t, s, s', at) && |t.children| == 3
    ensures Running(at.s0) && |at.s0.blocks| == |s.blocks| && |at.s0.stack| > 0 && at.s2.stack == at.s0.stack
    ensures Running(at.s2) && Running(at.s3) && Running(at.s4) && Running(s')
    ensures Extends(NewBlock(at.s0), at.s2) && Extends(at.s3, at.s4)
    ensures IfElse(t, Cur(at.s0), |at.s0.blocks|, at.s2) == Some(at.s3) && IfEnd(Cur(at.s2), at.s4) == Some(s')
  {
    hide Good, ScopeGood, Check, Extends, Left, IfElse, IfEnd, ExprAdds, NewBlock;
    ExprFacts(t.children[0], s, at.s0);
    PartGood(NewBlock(at.s0), at.s2, {});
    PartGood(at.s3, at.s4, {});
  }

  lemma {:induction false} CodeIs(s: Checking, s': Checking, b: C.BlockId)
    requires b < |s.blocks| && b < |s'.blocks| && s.blocks[b] == s'.blocks[b]
    ensures CodeOf(s, b) == CodeOf(s', b)
  {}

  lemma {:induction false} SameBranch(s: Checking, s': Checking, thenTo: C.BlockId, elseTo: C.BlockId)
    requires |s.stack| > 0 && s'.stack == s.stack
    ensures BranchInst(s, thenTo, elseTo) == BranchInst(s', thenTo, elseTo)
  {}

  /** What holds of the whole holds of the blocks left behind between `a` and `b`. */
  lemma {:induction false} HoldsPart(fb: seq<C.Block>, s: Checking, s': Checking, a: Checking, b: Checking)
    requires Holds(fb, s, s') && Running(a) && Running(b) && Running(s') && Running(s)
    requires Cur(s) <= Cur(a) <= Cur(b) < Cur(s') && forall k :: Cur(a) <= k < Cur(b) ==> s'.blocks[k] == b.blocks[k]
    requires CodeOf(b, Cur(b)) <= CodeOf(s', Cur(b))
    ensures Holds(fb, a, b)
  {}

  lemma {:induction false} WaitsPart(fb: seq<C.Block>, s: Checking, s': Checking, b: Checking, k: C.BlockId,
                                     jump: C.Inst)
    requires Holds(fb, s, s') && Running(s') && Running(s) && Cur(s) <= k < Cur(s') && k < |b.blocks|
    requires CodeOf(s', k) == CodeOf(b, k) + [jump]
    ensures Waits(fb, b, k, jump)
  {}

  lemma {:induction false} IfLaidThree(t: Tree, s: Checking, s': Checking, at: IfStates, fb: seq<C.Block>)
    requires Running(s) && IfSteps(t, s, s', at) && |t.children| == 3 && Running(s') && Running(at.s4)
    requires Running(at.s0) && |at.s0.stack| > 0 && Running(at.s2) && Running(at.s3)
    requires Holds(fb, s, at.s0) && Holds(fb, NewBlock(at.s0), at.s2) && Holds(fb, at.s3, at.s4)
    requires Waits(fb, at.s0, Cur(at.s0), BranchInst(at.s0, |at.s0.blocks|, |at.s2.blocks|))
    requires Waits(fb, at.s2, Cur(at.s2), GotoInst(Cur(s'))) && Waits(fb, at.s4, Cur(at.s4), GotoInst(Cur(s')))
    requires Cur(at.s3) == |at.s2.blocks| && CodeOf(at.s3, Cur(at.s3)) == []
    requires Cur(s') == |at.s4.blocks| && CodeOf(s', Cur(s')) == []
    ensures IfLaid(t, s, s', at, fb)
  {
    hide Holds, Waits, Good, ScopeGood, Check, Extends, Left, IfElse, IfEnd, ExprAdds, StmtAdds;
  }

  lemma {:induction false} IfTwoStates(t: Tree, s: Checking, s': Checking, at: IfStates)
    requires Running(s) && IfSteps(t, s, s', at) && |t.children| == 2
    ensures Running(at.s0) && |at.s0.blocks| == |s.blocks| && |at.s0.stack| > 0 && at.s2.stack == at.s0.stack
    ensures Running(at.s2) && Running(s') && Extends(NewBlock(at.s0), at.s2)
    ensures IfElse(t, Cur(at.s0), |at.s0.blocks|, at.s2) == Some(s')
  {
    hide Good, ScopeGood, Check, Extends, Left, IfElse, ExprAdds, NewBlock;
    ExprFacts(t.children[0], s, at.s0);
    PartGood(NewBlock(at.s0), at.s2, {});
  }

  lemma {:induction false} IfLaidTwo(t: Tree, s: Checking, s': Checking, at: IfStates, fb: seq<C.Block>)
    requires Running(s) && IfSteps(t, s, s', at) && |t.children| == 2 && Running(s')
    requires Running(at.s0) && |at.s0.stack| > 0 && Running(at.s2)
    requires Holds(fb, s, at.s0) && Holds(fb, NewBlock(at.s0), at.s2)
    requires Waits(fb, at.s0, Cur(at.s0), BranchInst(at.s0, |at.s0.blocks|, |at.s2.blocks|))
    requires Waits(fb, at.s2, Cur(at.s2), GotoInst(Cur(s')))
    requires Cur(s') == |at.s2.blocks| && CodeOf(s', Cur(s')) == []
    ensures IfLaid(t, s, s', at, fb)
  {
    hide Holds, Waits, Good, ScopeGood, Check, Extends, Left, IfElse, IfEnd, ExprAdds, StmtAdds;
  }

  lemma {:induction false} IfTwoLaid(t: Tree, s: Checking, s': Checking, at: IfStates, fb: seq<C.Block>)
    requires Running(s) && IfSteps(t, s, s', at) && Holds(fb, s, s') && |t.children| == 2
    ensures IfLaid(t, s, s', at, fb)
  {
    hide *;
    var s0, s1, s2 := at.s0, NewBlock(at.s0), at.s2;
    IfTwoStates(t, s, s', at);
    CurIs(s, s0);
    CurIs(s1, s2);
    CurIs(s, s');
    NewBlockIs(s0);
    ExtendsSizes(s1, s2);
    IfElseBlocks(t, Cur(s0), |s0.blocks|, s2, s');
    ExprKeeps(s0, s1, s2);
    SameBranch(s2, s0, |s0.blocks|, |s2.blocks|);
    HoldsPart(fb, s, s', s, s0);
    HoldsPart(fb, s, s', s1, s2);
    WaitsPart(fb, s, s', s0, Cur(s0), BranchInst(s0, |s0.blocks|, |s2.blocks|));
    WaitsPart(fb, s, s', s2, Cur(s2), GotoInst(|s2.blocks|));
    IfLaidTwo(t, s, s', at, fb);
  }

  lemma {:induction false} IfThreeLaid(t: Tree, s: Checking, s': Checking, at: IfStates, fb: seq<C.Block>)
    requires Running(s) && IfSteps(t, s, s', at) && Holds(fb, s, s') && |t.children| == 3
    ensures IfLaid(t, s, s', at, fb)
  {
    hide *;
    var s0, s1, s2, s3, s4 := at.s0, NewBlock(at.s0), at.s2, at.s3, at.s4;
    IfThreeStates(t, s, s', at);
    CurIs(s, s0);
    CurIs(s1, s2);
    CurIs(s3, s4);
    CurIs(s, s');
    NewBlockIs(s0);
    ExtendsSizes(s1, s2);
    ExtendsSizes(s3, s4);
    IfElseBlocks(t, Cur(s0), |s0.blocks|, s2, s3);
    IfEndBlocks(Cur(s2), s4, s');
    ElseKeeps(s2, s3, s4, s', Cur(s0), Cur(s2));
    ExprKeeps(s0, s1, s2);
    CodeIs(s', s3, Cur(s0));
    CodeIs(s4, s3, Cur(s2));
    SameBranch(s2, s0, |s0.blocks|, |s2.blocks|);
    HoldsPart(fb, s, s', s, s0);
    HoldsPart(fb, s, s', s1, s2);
    HoldsPart(fb, s, s', s3, s4);
    WaitsPart(fb, s, s', s0, Cur(s0), BranchInst(s0, |s0.blocks|, |s2.blocks|));
    WaitsPart(fb, s, s', s2, Cur(s2), GotoInst(|s4.blocks|));
    WaitsPart(fb, s, s', s4, Cur(s4), GotoInst(|s4.blocks|));
    IfLaidThree(t, s, s', at, fb);
  }

  lemma {:induction false} ExtendsSizes(s: Checking, s': Checking)
    requires Extends(s, s')
    ensures Running(s) && Running(s') && |s.blocks| <= |s'.blocks|
    ensures forall b :: 0 <= b < Cur(s) ==> s'.blocks[b] == s.blocks[b]
  {}

  /** The condition's block is still as the condition left it. */
  lemma {:induction false} ExprKeeps(s0: Checking, s1: Checking, s2: Checking)
    requires Running(s0) && s1 == NewBlock(s0) && Running(s2) && |s1.blocks| <= |s2.blocks|
    requires forall b :: 0 <= b < Cur(s1) ==> s2.blocks[b] == s1.blocks[b]
    ensures s2.blocks[Cur(s0)] == s0.blocks[Cur(s0)] && CodeOf(s2, Cur(s0)) == CodeOf(s0, Cur(s0))
  {}

  lemma {:induction false} IfHolds(t: Tree, s: Checking, s': Checking, at: IfStates, fb: seq<C.Block>)
    requires Running(s) && IfSteps(t, s, s', at) && Holds(fb, s, s')
    ensures IfLaid(t, s, s', at, fb)
  {
    if |t.children| == 2 {
      IfTwoLaid(t, s, s', at, fb);
    } else {
      IfThreeLaid(t, s, s', at, fb);
    }
  }

  // ----- `while` -----

  /** The states a `while` goes through: in the condition's block, after the condition, and after the body. */
  datatype WhileStates = WhileStates(s1: Checking, s2: Checking, s4: Checking)

  ghost predicate WhileSteps(t: Tree, s: Checking, s': Checking, at: WhileStates) {
    IsWhile(t) && Running(s) && at.s1 == WhileBegin(s) && Good(at.s1) && ScopeGood(at.s1) &&
    ExprAdds(t.children[0], at.s1, at.s2) &&
    Good(NewBlock(at.s2)) && ScopeGood(NewBlock(at.s2)) &&
    Check(t.children[0], at.s1) == Some(at.s2) && Check(t.children[1], NewBlock(at.s2)) == Some(at.s4) &&
    StmtAdds(t.children[1], NewBlock(at.s2), at.s4) && at.s4.stack == at.s2.stack && at.s1.stack == s.stack &&
    at.s1.scope == s.scope && at.s1.places == s.places &&
    WhileEnd(|s.blocks|, Cur(at.s2), |at.s2.blocks|, at.s4) == Some(s')
  }

  lemma {:induction false} WhileIs(t: Tree, s: Checking, s': Checking) returns (at: WhileStates)
    requires Running(s) && Good(s) && ScopeGood(s) && IsWhile(t) && Check(t, s) == Some(s')
    ensures WhileSteps(t, s, s', at)
  {
    WhileUnfold(t, s);
    hide Good, ScopeGood, Part, ExprAdds, Left, CheckWhile, Check, WhileEnd;
    var s1 := WhileBegin(s);
    WhileBeginShape(s);
    PartGood(s, s1, {});
    var s2 := Check(t.children[0], s1).value;
    ExprShape(t.children[0], s1, s2);
    AddsGood(t.children[0], s1, s2);
    ExprPart(t.children[0], s1, s2);
    PartFresh(s1, s2, {});
    PartGood(s1, NewBlock(s2), {} + {Cur(s2)});
    var s4 := Check(t.children[1], NewBlock(s2)).value;
    StmtShape(t.children[1], NewBlock(s2), s4);
    at := WhileStates(s1, s2, s4);
  }

  /** Where the pieces of a `while` are. */
  predicate WhileLaid(s: Checking, s': Checking, at: WhileStates, fb: seq<C.Block>) {
    Running(s) && Running(s') && Running(at.s1) && Running(at.s2) && Running(at.s4) && |at.s2.stack| > 0 &&
    Waits(fb, s, Cur(s), GotoInst(|s.blocks|)) && Cur(at.s1) == |s.blocks| && CodeOf(at.s1, Cur(at.s1)) == [] &&
    Holds(fb, at.s1, at.s2) &&
    Waits(fb, at.s2, Cur(at.s2), BranchInst(at.s2, |at.s2.blocks|, |at.s4.blocks|)) &&
    Holds(fb, NewBlock(at.s2), at.s4) &&
    Waits(fb, at.s4, Cur(at.s4), GotoInst(|s.blocks|)) && Cur(s') == |at.s4.blocks| && CodeOf(s', Cur(s')) == []
  }

  lemma {:induction false} WhileHolds(t: Tree, s: Checking, s': Checking, at: WhileStates, fb: seq<C.Block>)
    requires WhileSteps(t, s, s', at) && Holds(fb, s, s')
    ensures WhileLaid(s, s', at, fb)
  {
    hide Good, ScopeGood, Left, Check, Obeys;
    var s1, s2, s3, s4 := at.s1, at.s2, NewBlock(at.s2), at.s4;
    GotoCode(NewBlock(s), Cur(s), |s.blocks|);
    BranchCode(NewBlock(s4), Cur(s2), |s2.blocks|, |s4.blocks|);
    GotoCode(MakeBranch(NewBlock(s4), Cur(s2), |s2.blocks|, |s4.blocks|), Cur(s4), |s.blocks|);
    assert CodeOf(s', Cur(s4)) == CodeOf(s4, Cur(s4)) + [GotoInst(|s.blocks|)];
    forall b | Cur(s3) <= b < Cur(s4)
      ensures fb[b].code == s4.blocks[b].code
    {}
  }

  // ----- `return`, blocks -----

  lemma {:induction false} ReturnHolds(n: nat, s: Checking, s1: Checking, s': Checking, fb: seq<C.Block>)
    requires Extends(s, s1) && Running(s1) && n <= |s1.stack| && ReturnEnd(n, s1) == Some(s') && Holds(fb, s, s')
    ensures Holds(fb, s, s1) && Waits(fb, s1, Cur(s1), C.Inst(C.Return, s1.stack[|s1.stack| - n..], C.NoPlace))
    ensures Cur(s') == |s1.blocks| && CodeOf(s', Cur(s')) == []
  {
    ReturnIs(n, s1);
    var i := C.Inst(C.Return, s1.stack[|s1.stack| - n..], C.NoPlace);
    assert CodeOf(s', Cur(s1)) == CodeOf(s1, Cur(s1)) + [i];
    assert forall b :: 0 <= b < Cur(s1) ==> s'.blocks[b] == s1.blocks[b];
  }

  lemma {:induction false} AllHolds(ts: seq<Tree>, s: Checking, s': Checking, fb: seq<C.Block>)
    requires |ts| > 0 && Running(s) && Good(s) && ScopeGood(s) && s.scope.Scope?
    requires forall k :: 0 <= k < |ts| ==> IsStmt(ts[k])
    requires CheckAll(ts, s) == Some(s') && Holds(fb, s, s')
    ensures Check(ts[0], s).Some?
    ensures var s1 := Check(ts[0], s).value;
      StmtAdds(ts[0], s, s1) && Good(s1) && ScopeGood(s1) && s1.scope.Scope? && CheckAll(ts[1..], s1) == Some(s') &&
      Holds(fb, s, s1) && Holds(fb, s1, s')
  {
    hide Good, ScopeGood, Part, Left, IsStmt;
    var s1 := Check(ts[0], s).value;
    StmtShape(ts[0], s, s1);
    PartGood(s, s1, {});
    AllShape(ts[1..], s1, s');
    PartExtends(s, s1, {});
    PartExtends(s1, s', {});
    HoldsFirst(fb, s, s1, s');
    HoldsSecond(fb, s, s1, s');
  }

  lemma {:induction false} BlockHolds(t: Tree, s: Checking, s': Checking, fb: seq<C.Block>)
    requires Running(s) && Good(s) && ScopeGood(s) && IsBlock(t) && Check(t, s) == Some(s') && Holds(fb, s, s')
    ensures var s0 := BlockBegin(s); Good(s0) && ScopeGood(s0) && s0.scope.Scope? && CheckAll(t.children, s0).Some?
    ensures var s0 := BlockBegin(s);
      var s1 := CheckAll(t.children, s0).value;
      Holds(fb, s0, s1) && s1.blocks == s'.blocks
  {
    InnerScope(s);
  }
}
