/** Which programs the checker accepts. */
module Scoping {
  import opened Options
  import C = Cfgs
  import opened Syntax
  import opened Grammar
  import opened CheckSpec
  import opened CheckShape

  /** Names are used where they are visible, and only names are assigned. */
  predicate ExprOk(t: Tree, names: set<string>) {
    (t.kind == Symbol ==> t.token.Name? && t.token.text in names) &&
    (t.kind == Assign ==> |t.children| > 0 && t.children[0].kind == Symbol) &&
    forall k :: 0 <= k < |t.children| ==> ExprOk(t.children[k], names)
  }

  /** Declarations have no initializer, and no name that is visible already. */
  predicate StmtOk(t: Tree, names: set<string>) {
    match t.kind
    case Block => AllOk(t.children, names)
    case Local => |t.children| == 2 && t.children[0].token.Name? && t.children[0].token.text !in names
    case If => |t.children| > 1 && ExprOk(t.children[0], names) && StmtOk(t.children[1], names) &&
      (|t.children| > 2 ==> StmtOk(t.children[2], names))
    case While => |t.children| > 1 && ExprOk(t.children[0], names) && StmtOk(t.children[1], names)
    case Return => |t.children| > 0 ==> ExprOk(t.children[0], names)
    case _ => ExprOk(t, names)
  }

  function NamesAfter(t: Tree, names: set<string>): set<string> {
    if t.kind == Local && |t.children| > 0 && t.children[0].token.Name? then names + {t.children[0].token.text}
    else names
  }

  /** A name is visible from its declaration to the end of the block. */
  predicate AllOk(ts: seq<Tree>, names: set<string>) {
    |ts| > 0 ==> StmtOk(ts[0], names) && AllOk(ts[1..], NamesAfter(ts[0], names))
  }

  ghost predicate Visible(scope: Scope, names: set<string>) {
    forall x :: x in names <==> FindSymbol(scope, x) != C.NoPlace
  }

  lemma {:induction false} ExprPair(t: Tree, names: set<string>)
    requires Obeys(t) && !IsPrimary(t)
    ensures |t.children| == 2 && Obeys(t.children[0]) && Obeys(t.children[1])
    ensures t.kind == Assign || Arithmetic(t.kind)
    ensures ExprOk(t, names) <==>
      (t.kind == Assign ==> t.children[0].kind == Symbol) && ExprOk(t.children[0], names) &&
      ExprOk(t.children[1], names)
  {}

  lemma {:induction false} CheckOperands(t: Tree, s: Checking)
    requires Running(s) && |t.children| == 2 && (t.kind == Assign || Arithmetic(t.kind))
    ensures t.kind == Assign && t.children[0].kind != Symbol ==> Check(t, s) == None
    ensures Check(t.children[0], s) == None ==> Check(t, s) == None
    ensures Check(t.children[0], s).Some? ==>
      var r := Check(t.children[1], Check(t.children[0], s).value);
      (r == None ==> Check(t, s) == None) &&
      (r.Some? && t.kind == Assign && t.children[0].kind == Symbol ==> Check(t, s) == AssignEnd(r.value)) &&
      (r.Some? && Arithmetic(t.kind) ==> Check(t, s) == BinaryEnd(t, r.value))
  {
    CheckPair(t.children, s);
    hide CheckAll, AssignEnd, BinaryEnd;
  }

  lemma {:induction false} ExprAccepted(t: Tree, s: Checking, names: set<string>)
    requires Running(s) && Good(s) && ScopeGood(s) && Obeys(t) && Visible(s.scope, names)
    ensures Check(t, s).Some? <==> ExprOk(t, names)
    decreases t
  {
    if IsPrimary(t) {
      LeafAccepted(t, s, names);
    } else {
      hide *;
      ExprPair(t, names);
      CheckOperands(t, s);
      var l, r := t.children[0], t.children[1];
      ExprAccepted(l, s, names);
      if Check(l, s).Some? {
        var s1 := Check(l, s).value;
        ExprShape(l, s, s1);
        AddsGood(l, s, s1);
        ExprFacts(l, s, s1);
        ExprAccepted(r, s1, names);
        if Check(r, s1).Some? {
          ExprShape(r, s1, Check(r, s1).value);
          EndAccepted(t, s, s1, Check(r, s1).value);
        }
      }
    }
  }

  lemma {:induction false} LeafAccepted(t: Tree, s: Checking, names: set<string>)
    requires Running(s) && IsPrimary(t) && Visible(s.scope, names)
    ensures Check(t, s).Some? <==> ExprOk(t, names)
  {}

  lemma {:induction false} EndAccepted(t: Tree, s: Checking, s1: Checking, s2: Checking)
    requires |t.children| == 2 && ExprAdds(t.children[0], s, s1) && ExprAdds(t.children[1], s1, s2)
    ensures Running(s2) && AssignEnd(s2).Some? && (Arithmetic(t.kind) ==> BinaryEnd(t, s2).Some?)
  {
    TwoAdded(t.children[0], t.children[1], s, s1, s2);
  }

  lemma {:induction false} StmtAccepted(t: Tree, s: Checking, names: set<string>)
    requires Running(s) && Good(s) && ScopeGood(s) && IsStmt(t) && Visible(s.scope, names)
    requires t.kind == Local ==> s.scope.Scope?
    ensures Check(t, s).Some? <==> StmtOk(t, names)
    decreases t, 2
  {
    hide Good, ScopeGood, Visible, IsBlock;
    StmtCases(t);
    if t.kind == Block {
      BlockAccepted(t, s, names);
    } else if t.kind == Local {
      LocalAccepted(t, s, names);
    } else if t.kind == If {
      IfAccepted(t, s, names);
    } else if t.kind == While {
      WhileAccepted(t, s, names);
    } else if t.kind == Return {
      ReturnAccepted(t, s, names);
    } else {
      ExprAccepted(t, s, names);
      assert t.kind !in {Block, Local, If, While, Return};
    }
  }

  lemma {:induction false} LocalAccepted(t: Tree, s: Checking, names: set<string>)
    requires Running(s) && IsLocal(t) && Visible(s.scope, names) && s.scope.Scope?
    ensures Check(t, s).Some? <==> StmtOk(t, names)
  {}

  lemma {:induction false} ReturnAccepted(t: Tree, s: Checking, names: set<string>)
    requires Running(s) && Good(s) && ScopeGood(s) && IsReturn(t) && Visible(s.scope, names)
    ensures Check(t, s).Some? <==> StmtOk(t, names)
  {
    hide Good, ScopeGood, Visible, Obeys;
    if |t.children| == 1 {
      CheckOne(t.children, s);
      ExprAccepted(t.children[0], s, names);
      if Check(t.children[0], s).Some? {
        ExprShape(t.children[0], s, Check(t.children[0], s).value);
        ExprFacts(t.children[0], s, Check(t.children[0], s).value);
      }
    }
  }

  lemma {:induction false} BlockAccepted(t: Tree, s: Checking, names: set<string>)
    requires Running(s) && Good(s) && ScopeGood(s) && IsBlock(t) && Visible(s.scope, names)
    ensures Check(t, s).Some? <==> StmtOk(t, names)
    decreases t, 0
  {
    InnerScope(s);
    InnerVisible(s, names);
    hide Good, ScopeGood, Visible;
    AllAccepted(t.children, BlockBegin(s), names);
    if CheckAll(t.children, BlockBegin(s)).Some? {
      AllShape(t.children, BlockBegin(s), CheckAll(t.children, BlockBegin(s)).value);
    }
  }

  lemma {:induction false} InnerVisible(s: Checking, names: set<string>)
    requires Visible(s.scope, names)
    ensures Visible(BlockBegin(s).scope, names)
  {
    forall x
      ensures FindSymbol(BlockBegin(s).scope, x) == FindSymbol(s.scope, x)
    {}
  }

  lemma {:induction false} AllAccepted(ts: seq<Tree>, s: Checking, names: set<string>)
    requires Running(s) && Good(s) && ScopeGood(s) && (forall k :: 0 <= k < |ts| ==> IsStmt(ts[k]))
    requires Visible(s.scope, names) && s.scope.Scope?
    ensures CheckAll(ts, s).Some? <==> AllOk(ts, names)
    decreases ts, 3
  {
    hide Good, ScopeGood, Visible, IsStmt, Part;
    if |ts| > 0 {
      StmtAccepted(ts[0], s, names);
      if Check(ts[0], s).Some? {
        var s1 := Check(ts[0], s).value;
        StmtShape(ts[0], s, s1);
        PartGood(s, s1, {});
        VisibleAfter(ts[0], s, s1, names);
        AllAccepted(ts[1..], s1, NamesAfter(ts[0], names));
      }
    }
  }

  lemma {:induction false} VisibleAfter(t: Tree, s: Checking, s1: Checking, names: set<string>)
    requires Running(s) && s.scope.Scope? && Visible(s.scope, names) && IsStmt(t) && Check(t, s) == Some(s1)
    requires s1.scope == ScopeAfter(t, s)
    ensures Visible(s1.scope, NamesAfter(t, names)) && s1.scope.Scope?
  {
    if t.kind == Local {
      StmtCases(t);
      assert |t.children| == 2;
      assert IsLeaf(t.children[0], Identifier);
      hide IsStmt, Obeys, IsLocal;
      var name, locals := Text(t.children[0].token), s.scope.locals;
      forall x
        ensures FindSymbol(s1.scope, x) == if x == name then C.Slot(s.places) else FindSymbol(s.scope, x)
      {
        assert FindLocal(s1.scope.locals, x) == if x == name then C.Slot(s.places) else FindLocal(locals, x);
      }
    }
  }

  lemma {:induction false} IfAccepted(t: Tree, s: Checking, names: set<string>)
    requires Running(s) && Good(s) && ScopeGood(s) && IsIf(t) && Visible(s.scope, names)
    ensures Check(t, s).Some? <==> StmtOk(t, names)
    decreases t, 1
  {
    hide Good, ScopeGood, Visible, Part, Left, ExprAdds, Obeys, IsBlock, ExprOk;
    ExprAccepted(t.children[0], s, names);
    assert Check(t, s) == CheckIf(t, s);
    if Check(t.children[0], s).Some? {
      var s0 := Check(t.children[0], s).value;
      ExprShape(t.children[0], s, s0);
      ExprFacts(t.children[0], s, s0);
      ExprPart(t.children[0], s, s0);
      PartFresh(s, s0, {});
      PartGood(s, IfThen(s0), {} + {Cur(s0)});
      IfParts(t);
      StmtAccepted(t.children[1], IfThen(s0), names);
      assert CheckIf(t, s) == IfFromThen(t, s0);
      if Check(t.children[1], IfThen(s0)).Some? {
        ElseAccepted(t, s, s0, Check(t.children[1], IfThen(s0)).value, names);
      }
    }
  }

  lemma {:induction false} WhilePart(t: Tree)
    requires IsWhile(t)
    ensures IsStmt(t.children[1]) && t.children[1].kind != Local
  {
    assert IsBlock(t.children[1]);
  }

  lemma {:induction false} IfParts(t: Tree)
    requires IsIf(t)
    ensures IsStmt(t.children[1]) && t.children[1].kind != Local
    ensures |t.children| == 3 ==> IsStmt(t.children[2]) && t.children[2].kind != Local
  {
    assert IsBlock(t.children[1]);
    assert |t.children| == 3 ==> IsBlock(t.children[2]) || IsIf(t.children[2]);
  }

  lemma {:induction false} ElseAccepted(t: Tree, s: Checking, s0: Checking, s2: Checking, names: set<string>)
    requires Running(s) && ScopeGood(s) && IsIf(t) && Visible(s.scope, names)
    requires ExprAdds(t.children[0], s, s0) && Part(s, s0, {})
    requires Running(s0) && Part(s, IfThen(s0), {} + {Cur(s0)}) && Check(t.children[1], IfThen(s0)) == Some(s2)
    ensures IfFromElse(t, Cur(s0), |s0.blocks|, s2).Some? <==> (|t.children| > 2 ==> StmtOk(t.children[2], names))
    decreases t, 0
  {
    hide Good, ScopeGood, Visible, Part, Left, ExprAdds, Obeys, IsBlock, StmtOk, Check, IfElse;
    IfParts(t);
    PartGood(s, IfThen(s0), {} + {Cur(s0)});
    StmtShape(t.children[1], IfThen(s0), s2);
    assert {} + {Cur(s0)} == {Cur(s0)};
    IfElseShape(t, s, s0, s2);
    if |t.children| == 3 {
      var s3 := IfElse(t, Cur(s0), |s0.blocks|, s2).value;
      PartGood(s, s3, {Cur(s2)});
      StmtAccepted(t.children[2], s3, names);
      if Check(t.children[2], s3).Some? {
        StmtShape(t.children[2], s3, Check(t.children[2], s3).value);
        IfEndShape(t, s, s2, s3, Check(t.children[2], s3).value);
      }
    }
  }

  lemma {:induction false} WhileAccepted(t: Tree, s: Checking, names: set<string>)
    requires Running(s) && Good(s) && ScopeGood(s) && IsWhile(t) && Visible(s.scope, names)
    ensures Check(t, s).Some? <==> StmtOk(t, names)
    decreases t, 0
  {
    hide Good, ScopeGood, Visible, Part, Left, ExprAdds, Obeys, IsBlock, ExprOk, WhileEnd;
    var s1 := WhileBegin(s);
    WhileBeginShape(s);
    PartGood(s, s1, {});
    ExprAccepted(t.children[0], s1, names);
    assert Check(t, s) == CheckWhile(t, s);
    if Check(t.children[0], s1).Some? {
      var s2 := Check(t.children[0], s1).value;
      ExprShape(t.children[0], s1, s2);
      ExprFacts(t.children[0], s1, s2);
      ExprPart(t.children[0], s1, s2);
      PartThen(s, s1, s2, {});
      PartFresh(s, s2, {});
      PartGood(s, NewBlock(s2), {} + {Cur(s2)});
      assert {} + {Cur(s2)} == {Cur(s2)};
      WhilePart(t);
      StmtAccepted(t.children[1], NewBlock(s2), names);
      assert CheckWhile(t, s) == WhileFromBody(t, |s.blocks|, s2);
      if Check(t.children[1], NewBlock(s2)).Some? {
        var s4 := Check(t.children[1], NewBlock(s2)).value;
        StmtShape(t.children[1], NewBlock(s2), s4);
        WhileEndShape(t, s, s1, s2, s4);
      }
    }
  }

  /** The checker accepts exactly the programs that use names where they are visible, assign only to names,
      redeclare no visible name and give no initializers. */
  lemma {:induction false} AcceptedIff(t: Tree)
    requires IsBlock(t)
    ensures Check(t, Initial()).Some? <==> StmtOk(t, {})
  {
    EmptyGood();
    BlockAccepted(t, Initial(), {});
  }

  lemma {:induction false} EmptyGood()
    ensures Good(Initial()) && ScopeGood(Initial()) && Visible(Initial().scope, {})
  {}
}
