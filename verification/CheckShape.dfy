/** The blocks the checker makes: each but the current one ends in its only jump, to a later block it
    knows or back to a loop's head; conditions find their value on top of the stack. */
module CheckShape {
  import opened Options
  import C = Cfgs
  import opened Syntax
  import opened Grammar
  import opened CheckSpec
  import opened TreeSemantics

  // ----- blocks -----

  predicate NoJumps(code: seq<C.Inst>) {
    forall k :: 0 <= k < |code| ==> !C.Jump(code[k].op)
  }

  /** The last instruction is a jump. */
  predicate Closed(code: seq<C.Inst>) {
    |code| > 0 && C.Jump(code[|code| - 1].op)
  }

  predicate GoodBlock(b: C.Block, places: nat) {
    C.GoodCode(b.code, places) && C.Flagged(b)
  }

  predicate AllGood(s: Checking) {
    forall b :: 0 <= b < |s.blocks| ==> GoodBlock(s.blocks[b], s.places)
  }

  predicate Good(s: Checking) {
    Running(s) && AllGood(s) && NoJumps(CodeOf(s, Cur(s)))
  }

  /** Names lead to places that exist. */
  ghost predicate ScopeGood(s: Checking) {
    forall x :: FindSymbol(s.scope, x).Slot? ==> FindSymbol(s.scope, x).place < s.places
  }

  predicate TopGood(s: Checking) {
    |s.stack| > 0 && C.GoodRef(s.stack[|s.stack| - 1], s.places)
  }

  /** Blocks before the current one stay as they were, and the current one only grows. */
  predicate Extends(s: Checking, s': Checking) {
    Running(s) && |s.blocks| <= |s'.blocks| && (forall b :: 0 <= b < Cur(s) ==> s'.blocks[b] == s.blocks[b]) &&
    CodeOf(s, Cur(s)) <= CodeOf(s', Cur(s))
  }

  lemma {:induction false} ExtendsTrans(s: Checking, s': Checking, s'': Checking)
    requires Extends(s, s') && Extends(s', s'')
    ensures Extends(s, s'')
  {}

  /** Of the blocks from `s` on, those left behind by now are closed, and lead to blocks made since `s`;
      except that those in `open` still wait for their jump. */
  ghost predicate Left(s: Checking, s': Checking, open: set<C.BlockId>) {
    Running(s) && |s.blocks| <= |s'.blocks| &&
    (forall b :: b in open ==> Cur(s) <= b < Cur(s') && NoJumps(CodeOf(s', b))) &&
    forall b: C.BlockId :: Cur(s) <= b < Cur(s') && b !in open ==> LeadsWithin(CodeOf(s', b), Cur(s), Cur(s'))
  }

  ghost predicate LeadsWithin(code: seq<C.Inst>, from: C.BlockId, to: C.BlockId) {
    Closed(code) && forall t: C.BlockId :: C.Succ(code, t) ==> from < t <= to
  }

  /** From `s` to `s'` part of a statement has been checked. */
  ghost predicate Part(s: Checking, s': Checking, open: set<C.BlockId>) {
    Good(s') && Extends(s, s') && Left(s, s', open) && ScopeGood(s')
  }

  lemma {:induction false} PartNone(s: Checking)
    requires Good(s) && ScopeGood(s)
    ensures Part(s, s, {})
  {}

  lemma {:induction false} PartThen(s: Checking, s': Checking, s'': Checking, open: set<C.BlockId>)
    requires Part(s, s', open) && Part(s', s'', {})
    ensures Part(s, s'', open)
  {
    ExtendsTrans(s, s', s'');
    forall b: C.BlockId | Cur(s) <= b < Cur(s'')
      ensures if b in open then NoJumps(CodeOf(s'', b)) else LeadsWithin(CodeOf(s'', b), Cur(s), Cur(s''))
    {
      if b < Cur(s') {
        assert s''.blocks[b] == s'.blocks[b] && CodeOf(s'', b) == CodeOf(s', b);
      } else {
        assert LeadsWithin(CodeOf(s'', b), Cur(s'), Cur(s''));
      }
    }
  }

  lemma {:induction false} PartFresh(s: Checking, s': Checking, open: set<C.BlockId>)
    requires Part(s, s', open)
    ensures Part(s, NewBlock(s'), open + {Cur(s')})
  {
    FreshGood(s');
    forall b: C.BlockId | Cur(s) <= b < Cur(s') && b !in open
      ensures LeadsWithin(CodeOf(NewBlock(s'), b), Cur(s), Cur(NewBlock(s')))
    {
      assert LeadsWithin(CodeOf(s', b), Cur(s), Cur(s'));
    }
  }

  predicate TargetsWithin(op: C.Op, from: C.BlockId, to: C.BlockId) {
    match op
    case Goto(t) => from < t <= to
    case Branch(t, e) => from < t <= to && from < e <= to
    case _ => true
  }

  /** A waiting block gets its jump. */
  lemma {:induction false} PartJump(s: Checking, s': Checking, open: set<C.BlockId>, b: C.BlockId, op: C.Op, n: nat)
    requires Part(s, s', open) && b in open && C.Jump(op) && TargetsWithin(op, Cur(s), Cur(s')) && n <= |s'.stack|
    requires C.GoodInst(C.Inst(op, s'.stack[|s'.stack| - n..], C.NoPlace), s'.places)
    ensures Part(s, MakeInstBase(s', b, C.NoPlace, op, n), open - {b})
  {
    var s'' := MakeInstBase(s', b, C.NoPlace, op, n);
    BaseGood(s', b, C.NoPlace, op, n);
    var code := CodeOf(s'', b);
    assert code[|code| - 1].op == op;
    assert LeadsWithin(code, Cur(s), Cur(s''));
    forall a: C.BlockId | Cur(s) <= a < Cur(s'') && a != b
      ensures CodeOf(s'', a) == CodeOf(s', a)
    {}
  }

  lemma {:induction false} GoodInstGrows(i: C.Inst, places: nat, places': nat)
    requires C.GoodInst(i, places) && places <= places'
    ensures C.GoodInst(i, places')
  {}

  lemma {:induction false} MorePlaces(s: Checking, places: nat)
    requires AllGood(s) && s.places <= places
    ensures AllGood(s.(places := places))
  {
    forall b | 0 <= b < |s.blocks|
      ensures C.GoodCode(s.blocks[b].code, places)
    {
      var code := s.blocks[b].code;
      forall k | 0 <= k < |code|
        ensures C.GoodInst(code[k], places)
      {
        GoodInstGrows(code[k], s.places, places);
      }
    }
  }

  lemma {:induction false} InstAdded(b: C.Block, i: C.Inst, places: nat)
    requires GoodBlock(b, places) && NoJumps(b.code) && C.GoodInst(i, places)
    ensures GoodBlock(AddInst([b], 0, i)[0], places) && (C.Jump(i.op) <==> Closed(AddInst([b], 0, i)[0].code))
    ensures !C.Jump(i.op) ==> NoJumps(AddInst([b], 0, i)[0].code)
  {
    var b' := AddInst([b], 0, i)[0];
    assert b'.code[|b.code|] == i;
    assert forall k :: 0 <= k < |b.code| ==> b'.code[k] == b.code[k];
  }

  /** Adding an instruction to a block without jumps. */
  lemma {:induction false} BaseGood(s: Checking, b: C.BlockId, write: C.PlaceRef, op: C.Op, n: nat)
    requires AllGood(s) && b < |s.blocks| && NoJumps(CodeOf(s, b)) && n <= |s.stack|
    requires C.GoodInst(C.Inst(op, s.stack[|s.stack| - n..], write), s.places)
    ensures var s' := MakeInstBase(s, b, write, op, n);
      AllGood(s') && (C.Jump(op) <==> Closed(CodeOf(s', b))) && (!C.Jump(op) ==> NoJumps(CodeOf(s', b))) &&
      (forall a :: 0 <= a < |s.blocks| && a != b ==> s'.blocks[a] == s.blocks[a]) &&
      CodeOf(s', b) == CodeOf(s, b) + [C.Inst(op, s.stack[|s.stack| - n..], write)]
  {
    InstAdded(s.blocks[b], C.Inst(op, s.stack[|s.stack| - n..], write), s.places);
  }

  lemma {:induction false} FreshGood(s: Checking)
    requires AllGood(s)
    ensures Good(NewBlock(s)) && CodeOf(NewBlock(s), |s.blocks|) == []
    ensures forall b :: 0 <= b < |s.blocks| ==> NewBlock(s).blocks[b] == s.blocks[b]
  {}

  // ----- expressions -----

  /** An expression adds to the current block, and puts one place on the stack. */
  predicate ExprAdds(t: Tree, s: Checking, s': Checking) {
    Running(s) && Good(s') && |s'.blocks| == |s.blocks| && Extends(s, s') && s'.places == s.places + Slots(t) &&
    s'.scope == s.scope &&
    |s'.stack| == |s.stack| + 1 && s'.stack[..|s.stack|] == s.stack && TopGood(s')
  }

  lemma {:induction false} ScopeKept(s: Checking, s': Checking)
    requires ScopeGood(s) && s'.scope == s.scope && s.places <= s'.places
    ensures ScopeGood(s')
  {}

  lemma {:induction false} Pair(t: Tree)
    requires |t.children| == 2
    ensures SlotsAll(t.children) == Slots(t.children[0]) + Slots(t.children[1])
  {
    assert SlotsAll(t.children[1..]) == Slots(t.children[1]) + SlotsAll(t.children[1..][1..]);
  }

  lemma {:induction false} CheckPair(ts: seq<Tree>, s: Checking)
    requires |ts| == 2 && Running(s)
    ensures CheckAll(ts, s) == match Check(ts[0], s) case None => None case Some(s') => Check(ts[1], s')
  {
    if Check(ts[0], s).Some? {
      var s' := Check(ts[0], s).value;
      assert ts[1..][0] == ts[1] && ts[1..][1..] == [];
      if Check(ts[1], s').Some? {
        assert CheckAll([], Check(ts[1], s').value) == Some(Check(ts[1], s').value);
      }
    }
  }

  lemma {:induction false} LeafAdds(t: Tree, s: Checking, s': Checking)
    requires IsPrimary(t) && Good(s) && ScopeGood(s) && Check(t, s) == Some(s')
    ensures ExprAdds(t, s, s')
  {
    if t.kind == Integer {
      var w := C.Slot(s.places);
      MorePlaces(s, s.places + 1);
      BaseGood(s.(places := s.places + 1), Cur(s), w, C.IntegerConst(Literal(Text(t.token))), 0);
    }
  }

  /** Two operands one after the other. */
  lemma {:induction false} TwoAdded(l: Tree, r: Tree, s: Checking, s1: Checking, s2: Checking)
    requires ExprAdds(l, s, s1) && ExprAdds(r, s1, s2)
    ensures Running(s) && Running(s2) && Good(s2) && Extends(s, s2)
    ensures |s2.blocks| == |s.blocks|
    ensures s2.places == s.places + Slots(l) + Slots(r)
    ensures s2.scope == s.scope
    ensures |s2.stack| == |s.stack| + 2 && s2.stack[..|s.stack|] == s.stack
    ensures C.GoodRef(s2.stack[|s.stack|], s2.places) && C.GoodRef(s2.stack[|s.stack| + 1], s2.places)
    ensures s2.stack[|s.stack|] == s1.stack[|s.stack|]
  {
    ExtendsTrans(s, s1, s2);
    var n := |s.stack|;
    assert s2.stack[n] == s2.stack[..n + 1][n] == s1.stack[n];
    assert s2.stack[..n] == s2.stack[..n + 1][..n] == s.stack;
  }

  /** Adding a plain instruction to the current block. */
  lemma {:induction false} PlainAdded(s: Checking, s': Checking, write: C.PlaceRef, op: C.Op, n: nat)
    requires Good(s') && Extends(s, s') && |s'.blocks| == |s.blocks| && n <= |s'.stack| && !C.Jump(op)
    requires C.GoodInst(C.Inst(op, s'.stack[|s'.stack| - n..], write), s'.places)
    ensures var s'' := MakeInstBase(s', Cur(s'), write, op, n); Good(s'') && Extends(s, s'')
  {
    BaseGood(s', Cur(s'), write, op, n);
  }

  function BinaryTo(s: Checking, rest: seq<C.PlaceRef>, op: C.Op, x: C.PlaceRef, y: C.PlaceRef): (s': Checking)
    requires Running(s)
    ensures s'.stack == rest + [C.Slot(s.places)]
    ensures s'.scope == s.scope && s'.places == s.places + 1
    ensures |s'.blocks| == |s.blocks|
  {
    Checking(AddInst(s.blocks, Cur(s), C.Inst(op, [x, y], C.Slot(s.places))), s.places + 1,
      rest + [C.Slot(s.places)], s.scope)
  }

  lemma {:induction false} BinaryEndIs(t: Tree, s: Checking)
    requires Running(s) && |s.stack| >= 2 && Arithmetic(t.kind)
    ensures var n := |s.stack|;
      BinaryEnd(t, s) ==
      Some(BinaryTo(s, s.stack[..n - 2], C.Arithmetic(OpOf(t.kind)), s.stack[n - 2], s.stack[n - 1]))
  {
    var n := |s.stack|;
    assert s.stack[n - 2..] == [s.stack[n - 2], s.stack[n - 1]];
  }

  lemma {:induction false} BinaryAdded(s: Checking, s2: Checking, rest: seq<C.PlaceRef>, op: C.Op, x: C.PlaceRef,
                                       y: C.PlaceRef)
    requires Running(s2) && Good(s2) && Extends(s, s2) && |s2.blocks| == |s.blocks| && op.Arithmetic?
    requires C.GoodRef(x, s2.places) && C.GoodRef(y, s2.places)
    ensures Good(BinaryTo(s2, rest, op, x, y)) && Extends(s, BinaryTo(s2, rest, op, x, y))
  {
    hide Good, Extends, GoodBlock;
    var s3 := s2.(places := s2.places + 1, stack := rest + [x, y]);
    OtherStack(s, s2, s3.stack);
    GoodWide(s, s2.(stack := s3.stack), s3.places);
    assert s3.stack[|s3.stack| - 2..] == [x, y];
    PlainAdded(s, s3, C.Slot(s2.places), op, 2);
    var s4 := MakeInstBase(s3, Cur(s3), C.Slot(s2.places), op, 2);
    OtherStack(s, s4, rest + [C.Slot(s2.places)]);
    assert BinaryTo(s2, rest, op, x, y) == s4.(stack := rest + [C.Slot(s2.places)]);
  }

  lemma {:induction false} BinaryAdds(t: Tree, s: Checking, s1: Checking, s2: Checking)
    requires |t.children| == 2 && Arithmetic(t.kind) && ExprAdds(t.children[0], s, s1)
    requires ExprAdds(t.children[1], s1, s2)
    ensures BinaryEnd(t, s2).Some? && ExprAdds(t, s, BinaryEnd(t, s2).value)
  {
    Pair(t);
    TwoAdded(t.children[0], t.children[1], s, s1, s2);
    hide ExprAdds, Extends, Good, AllGood, BinaryEnd;
    var n := |s.stack|;
    BinaryAdded(s, s2, s2.stack[..n], C.Arithmetic(OpOf(t.kind)), s2.stack[n], s2.stack[n + 1]);
    BinaryEndIs(t, s2);
    OneMore(t, s, BinaryEnd(t, s2).value);
  }

  lemma {:induction false} OneMore(t: Tree, s: Checking, s': Checking)
    requires Running(s) && Good(s') && |s'.blocks| == |s.blocks| && Extends(s, s')
    requires s'.places == s.places + Slots(t) && s'.scope == s.scope
    requires |s'.stack| == |s.stack| + 1 && s'.stack[..|s.stack|] == s.stack && TopGood(s')
    ensures ExprAdds(t, s, s')
  {}

  lemma {:induction false} GoodWide(s: Checking, s': Checking, places: nat)
    requires Good(s') && Extends(s, s') && s'.places <= places
    ensures Good(s'.(places := places)) && Extends(s, s'.(places := places))
  {
    MorePlaces(s', places);
  }

  lemma {:induction false} AssignAdds(t: Tree, s: Checking, s1: Checking, s2: Checking)
    requires |t.children| == 2 && t.kind == Assign && ExprAdds(t.children[0], s, s1) && ExprAdds(t.children[1], s1, s2)
    ensures AssignEnd(s2).Some? && ExprAdds(t, s, AssignEnd(s2).value)
  {
    Pair(t);
    TwoAdded(t.children[0], t.children[1], s, s1, s2);
    hide ExprAdds, Extends, Good, AllGood, AssignEnd;
    var n := |s.stack|;
    var value, dest := s2.stack[n + 1], s2.stack[n];
    CopyGood(value, dest, s2.places);
    CopyAdded(s, s2, s2.stack[..n], dest, value);
    AssignEndIs(s2);
    OneMore(t, s, AssignEnd(s2).value);
  }

  lemma {:induction false} CopyGood(value: C.PlaceRef, dest: C.PlaceRef, places: nat)
    requires C.GoodRef(value, places) && C.GoodRef(dest, places)
    ensures C.GoodInst(C.Inst(C.Copy, [value], dest), places)
  {}

  function CopyTo(s: Checking, rest: seq<C.PlaceRef>, dest: C.PlaceRef, value: C.PlaceRef): (s': Checking)
    requires Running(s)
    ensures s'.stack == rest + [value] && s'.scope == s.scope && s'.places == s.places && |s'.blocks| == |s.blocks|
  {
    s.(blocks := AddInst(s.blocks, Cur(s), C.Inst(C.Copy, [value], dest)), stack := rest + [value])
  }

  lemma {:induction false} CopyAdded(s: Checking, s2: Checking, rest: seq<C.PlaceRef>, dest: C.PlaceRef,
                                     value: C.PlaceRef)
    requires Running(s2) && Good(s2) && Extends(s, s2) && |s2.blocks| == |s.blocks|
    requires C.GoodInst(C.Inst(C.Copy, [value], dest), s2.places)
    ensures Good(CopyTo(s2, rest, dest, value)) && Extends(s, CopyTo(s2, rest, dest, value))
  {
    var s3 := s2.(stack := rest + [value]);
    OtherStack(s, s2, s3.stack);
    assert s3.stack[|s3.stack| - 1..] == [value];
    PlainAdded(s, s3, dest, C.Copy, 1);
  }

  lemma {:induction false} AssignEndIs(s: Checking)
    requires Running(s) && |s.stack| >= 2
    ensures var n := |s.stack|; AssignEnd(s) == Some(CopyTo(s, s.stack[..n - 2], s.stack[n - 2], s.stack[n - 1]))
  {
    var n := |s.stack|;
    var s3 := s.(stack := s.stack[..n - 2] + [s.stack[n - 1]]);
    assert s3.stack[n - 2..] == [s.stack[n - 1]] && s3.stack[..n - 2] == s.stack[..n - 2];
  }

  lemma {:induction false} OtherStack(s: Checking, s': Checking, stack: seq<C.PlaceRef>)
    requires Good(s') && Extends(s, s')
    ensures Good(s'.(stack := stack)) && Extends(s, s'.(stack := stack))
  {}

  lemma {:induction false} ExprShape(t: Tree, s: Checking, s': Checking)
    requires Running(s) && Obeys(t) && Good(s) && ScopeGood(s) && Check(t, s) == Some(s')
    ensures ExprAdds(t, s, s')
    decreases t
  {
    hide Good, ScopeGood, ExprAdds;
    if IsPrimary(t) {
      LeafAdds(t, s, s');
    } else {
      CheckPair(t.children, s);
      var s1 := Check(t.children[0], s).value;
      var s2 := Check(t.children[1], s1).value;
      ExprShape(t.children[0], s, s1);
      AddsGood(t.children[0], s, s1);
      ExprShape(t.children[1], s1, s2);
      if t.kind == Assign {
        AssignAdds(t, s, s1, s2);
      } else {
        BinaryAdds(t, s, s1, s2);
      }
    }
  }

  lemma {:induction false} AddsGood(t: Tree, s: Checking, s': Checking)
    requires ExprAdds(t, s, s') && ScopeGood(s)
    ensures Good(s') && ScopeGood(s')
  {
    ScopeKept(s, s');
  }

  lemma {:induction false} ExprFacts(t: Tree, s: Checking, s': Checking)
    requires ExprAdds(t, s, s')
    ensures Running(s) && Running(s') && |s'.blocks| == |s.blocks|
    ensures s'.places == s.places + Slots(t) && s'.scope == s.scope
    ensures |s'.stack| == |s.stack| + 1 && s'.stack[..|s.stack|] == s.stack && C.GoodRef(s'.stack[|s.stack|], s'.places)
  {}

  // ----- statements -----

  /** Statements that leave nothing on the stack. */
  predicate Quiet(t: Tree) {
    t.kind == Block || t.kind == If || t.kind == While || t.kind == Local
  }

  predicate StackAfter(t: Tree, s: Checking, s': Checking) {
    if Quiet(t) then s'.stack == s.stack else |s'.stack| == |s.stack| + 1 && s'.stack[..|s.stack|] == s.stack
  }

  function ScopeAfter(t: Tree, s: Checking): Scope {
    if t.kind == Local && |t.children| == 2 && s.scope.Scope?
    then s.scope.(locals := [(Text(t.children[0].token), s.places)] + s.scope.locals)
    else s.scope
  }

  ghost predicate StmtAdds(t: Tree, s: Checking, s': Checking) {
    Part(s, s', {}) && s'.places == s.places + Slots(t) && s'.scope == ScopeAfter(t, s) && StackAfter(t, s, s')
  }

  lemma {:induction false} ExprIsStmt(t: Tree, s: Checking, s': Checking)
    requires Obeys(t) && ExprAdds(t, s, s') && ScopeGood(s)
    ensures StmtAdds(t, s, s')
  {
    ScopeKept(s, s');
  }

  lemma {:induction false} LocalAdds(t: Tree, s: Checking, s': Checking)
    requires IsLocal(t) && Good(s) && ScopeGood(s) && Check(t, s) == Some(s')
    ensures StmtAdds(t, s, s')
  {
    MorePlaces(s, s.places + 1);
    Pair(t);
    assert Slots(t.children[0]) == 0 && Slots(t.children[1]) == 0;
    var name, scope := Text(t.children[0].token), s.scope;
    forall x
      ensures FindSymbol(s'.scope, x) == if x == name then C.Slot(s.places) else FindSymbol(s.scope, x)
    {
      assert FindLocal(s'.scope.locals, x) == if x == name then C.Slot(s.places) else FindLocal(scope.locals, x);
    }
  }

  lemma {:induction false} ExprPart(t: Tree, s: Checking, s': Checking)
    requires ExprAdds(t, s, s') && ScopeGood(s)
    ensures Part(s, s', {})
  {
    ScopeKept(s, s');
  }

  /** Statements of a block, one after the other. */
  ghost predicate AllAdd(ts: seq<Tree>, s: Checking, s': Checking) {
    Part(s, s', {}) && s'.places == s.places + SlotsAll(ts) && s.stack <= s'.stack && s.scope.Scope? &&
    s'.scope.Scope? &&
    s'.scope.parent == s.scope.parent
  }

  lemma {:induction false} AllShape(ts: seq<Tree>, s: Checking, s': Checking)
    requires Running(s) && Good(s) && ScopeGood(s) && s.scope.Scope?
    requires (forall k :: 0 <= k < |ts| ==> IsStmt(ts[k])) && CheckAll(ts, s) == Some(s')
    ensures AllAdd(ts, s, s')
    decreases ts
  {
    hide Good, ScopeGood, Part, IsStmt;
    if |ts| == 0 {
      PartNone(s);
    } else {
      var s1 := Check(ts[0], s).value;
      StmtShape(ts[0], s, s1);
      PartGood(s, s1, {});
      AllShape(ts[1..], s1, s');
      PartThen(s, s1, s', {});
    }
  }

  lemma {:induction false} PartGood(s: Checking, s': Checking, open: set<C.BlockId>)
    requires Part(s, s', open)
    ensures Running(s) && Running(s') && Good(s') && ScopeGood(s') && |s.blocks| <= |s'.blocks|
  {}

  lemma {:induction false} StmtShape(t: Tree, s: Checking, s': Checking)
    requires Running(s) && Good(s) && ScopeGood(s) && IsStmt(t) && Check(t, s) == Some(s')
    ensures StmtAdds(t, s, s')
    decreases t
  {
    hide Good, ScopeGood, Part, ExprAdds;
    StmtCases(t);
    if t.kind == Block {
      BlockShape(t, s, s');
    } else if t.kind == Local {
      LocalAdds(t, s, s');
    } else if t.kind == If {
      IfShape(t, s, s');
    } else if t.kind == While {
      WhileShape(t, s, s');
    } else if t.kind == Return {
      ReturnShape(t, s, s');
    } else {
      ExprShape(t, s, s');
      ExprIsStmt(t, s, s');
    }
  }

  lemma {:induction false} BlockShape(t: Tree, s: Checking, s': Checking)
    requires Running(s) && Good(s) && ScopeGood(s) && IsBlock(t) && Check(t, s) == Some(s')
    ensures StmtAdds(t, s, s')
    decreases t, 0
  {
    var s0 := BlockBegin(s);
    var s1 := CheckAll(t.children, s0).value;
    InnerScope(s);
    hide Good, ScopeGood, Part, IsStmt;
    AllShape(t.children, s0, s1);
    assert s1.stack[..|s.stack|] == s.stack;
    BlockKeeps(s, s0, s1, s');
  }

  lemma {:induction false} InnerScope(s: Checking)
    requires Good(s) && ScopeGood(s)
    ensures Good(BlockBegin(s)) && ScopeGood(BlockBegin(s))
  {
    forall x
      ensures FindSymbol(BlockBegin(s).scope, x) == FindSymbol(s.scope, x)
    {}
  }

  lemma {:induction false} BlockKeeps(s: Checking, s0: Checking, s1: Checking, s': Checking)
    requires Good(s) && ScopeGood(s) && s0.blocks == s.blocks && Part(s0, s1, {}) && s'.blocks == s1.blocks
    requires s'.scope == s.scope
    requires s.places <= s1.places && s'.places == s1.places
    ensures Part(s, s', {})
  {}

  lemma {:induction false} ReturnIs(n: nat, s: Checking)
    requires Running(s) && n <= |s.stack|
    ensures var s' := MakeInstBase(NewBlock(s), Cur(s), C.NoPlace, C.Return, n);
      ReturnEnd(n, s) == Some(s'.(stack := s'.stack + [C.NoPlace]))
  {
    var i := C.Inst(C.Return, s.stack[|s.stack| - n..], C.NoPlace);
    assert AddInst(s.blocks, Cur(s), i) + [C.Block([], false)] == AddInst(s.blocks + [C.Block([], false)], Cur(s), i);
  }

  lemma {:induction false} ReturnUnfold(t: Tree, s: Checking)
    requires Running(s) && IsReturn(t) && Check(t, s).Some?
    ensures |t.children| == 0 ==> Check(t, s) == ReturnEnd(0, s)
    ensures |t.children| == 1 ==> Check(t.children[0], s).Some? && SlotsAll(t.children) == Slots(t.children[0])
    ensures |t.children| == 1 ==> Check(t, s) == ReturnEnd(1, Check(t.children[0], s).value)
  {
    if |t.children| == 1 {
      CheckOne(t.children, s);
    }
  }

  lemma {:induction false} ReturnShape(t: Tree, s: Checking, s': Checking)
    requires Running(s) && Good(s) && ScopeGood(s) && IsReturn(t) && Check(t, s) == Some(s')
    ensures StmtAdds(t, s, s')
  {
    ReturnUnfold(t, s);
    hide Good, ScopeGood, Part, ExprAdds, Check, ReturnEnd, StmtAdds;
    if |t.children| == 0 {
      PartNone(s);
      ReturnPart(t, s, s);
    } else {
      var s1 := Check(t.children[0], s).value;
      ExprShape(t.children[0], s, s1);
      ExprPart(t.children[0], s, s1);
      ExprFacts(t.children[0], s, s1);
      ReturnPart(t, s, s1);
    }
  }

  lemma {:induction false} CheckOne(ts: seq<Tree>, s: Checking)
    requires |ts| == 1 && Running(s)
    ensures CheckAll(ts, s) == Check(ts[0], s) && SlotsAll(ts) == Slots(ts[0])
  {
    assert ts[1..] == [];
    if Check(ts[0], s).Some? {
      assert CheckAll([], Check(ts[0], s).value) == Some(Check(ts[0], s).value);
    }
  }

  lemma {:induction false} ReturnPart(t: Tree, s: Checking, s1: Checking)
    requires IsReturn(t) && Running(s) && Part(s, s1, {}) && s1.scope == s.scope
    requires if |t.children| == 0 then s1 == s
      else ExprAdds(t.children[0], s, s1) && SlotsAll(t.children) == Slots(t.children[0])
    ensures Running(s1) && ReturnEnd(|t.children|, s1).Some? && StmtAdds(t, s, ReturnEnd(|t.children|, s1).value)
  {
    hide Part, Left, ExprAdds, Good, ReturnEnd;
    var n := |t.children|;
    PartGood(s, s1, {});
    if n == 1 {
      ExprFacts(t.children[0], s, s1);
    }
    ReturnIs(n, s1);
    ReturnGood(t, s, s1);
    var s3 := MakeInstBase(NewBlock(s1), Cur(s1), C.NoPlace, C.Return, n);
    ReturnJumps(s, s1, n);
    assert s3.stack == s.stack;
    StackPart(s, s3, s3.stack + [C.NoPlace]);
  }

  lemma {:induction false} ReturnGood(t: Tree, s: Checking, s1: Checking)
    requires |t.children| <= 1 && if |t.children| == 0 then s1 == s else ExprAdds(t.children[0], s, s1)
    ensures |t.children| <= |s1.stack|
    ensures C.GoodInst(C.Inst(C.Return, s1.stack[|s1.stack| - |t.children|..], C.NoPlace), s1.places)
  {
    if |t.children| == 1 {
      ExprFacts(t.children[0], s, s1);
      assert s1.stack[|s1.stack| - 1..] == [s1.stack[|s.stack|]];
    }
  }

  lemma {:induction false} ReturnJumps(s: Checking, s1: Checking, n: nat)
    requires Running(s1) && Part(s, s1, {}) && n <= |s1.stack|
    requires C.GoodInst(C.Inst(C.Return, s1.stack[|s1.stack| - n..], C.NoPlace), s1.places)
    ensures Part(s, MakeInstBase(NewBlock(s1), Cur(s1), C.NoPlace, C.Return, n), {})
  {
    hide Part, C.GoodInst;
    PartFresh(s, s1, {});
    PartGood(s, s1, {});
    assert {} + {Cur(s1)} == {Cur(s1)};
    PartJump(s, NewBlock(s1), {Cur(s1)}, Cur(s1), C.Return, n);
    assert {Cur(s1)} - {Cur(s1)} == {};
  }

  lemma {:induction false} StackPart(s: Checking, s': Checking, stack: seq<C.PlaceRef>)
    requires Part(s, s', {})
    ensures Part(s, s'.(stack := stack), {})
  {}

  // ----- `if` and `while` -----

  lemma {:induction false} IfUnfold(t: Tree, s: Checking)
    requires Running(s) && IsIf(t) && Check(t, s).Some?
    ensures Check(t.children[0], s).Some?
    ensures var s0 := Check(t.children[0], s).value; Check(t.children[1], IfThen(s0)).Some?
    ensures var s0 := Check(t.children[0], s).value;
      var s2 := Check(t.children[1], IfThen(s0)).value;
      IfElse(t, Cur(s0), |s0.blocks|, s2).Some? &&
      var s3 := IfElse(t, Cur(s0), |s0.blocks|, s2).value;
      if |t.children| == 2 then Check(t, s) == Some(s3)
      else Check(t.children[2], s3).Some? && Check(t, s) == IfEnd(Cur(s2), Check(t.children[2], s3).value)
  {
    var s0 := Check(t.children[0], s).value;
    assert CheckIf(t, s) == IfFromThen(t, s0);
    var s2 := Check(t.children[1], IfThen(s0)).value;
    assert IfFromThen(t, s0) == IfFromElse(t, Cur(s0), |s0.blocks|, s2);
  }

  lemma {:induction false} WhileUnfold(t: Tree, s: Checking)
    requires Running(s) && IsWhile(t) && Check(t, s).Some?
    ensures Check(t.children[0], WhileBegin(s)).Some?
    ensures var s2 := Check(t.children[0], WhileBegin(s)).value; Check(t.children[1], NewBlock(s2)).Some?
    ensures var s2 := Check(t.children[0], WhileBegin(s)).value;
      var s4 := Check(t.children[1], NewBlock(s2)).value;
      Check(t, s) == WhileEnd(|s.blocks|, Cur(s2), |s2.blocks|, s4)
  {
    var s2 := Check(t.children[0], WhileBegin(s)).value;
    assert CheckWhile(t, s) == WhileFromBody(t, |s.blocks|, s2);
  }

  lemma {:induction false} IfTrees(t: Tree)
    requires IsIf(t)
    ensures 2 <= |t.children| <= 3 && Obeys(t.children[0]) && IsStmt(t.children[1])
    ensures |t.children| == 3 ==> IsStmt(t.children[2])
  {}

  lemma {:induction false} IfShape(t: Tree, s: Checking, s': Checking)
    requires Running(s) && Good(s) && ScopeGood(s) && IsIf(t) && Check(t, s) == Some(s')
    ensures StmtAdds(t, s, s')
    decreases t, 0
  {
    hide *;
    IfUnfold(t, s);
    IfTrees(t);
    var s0 := Check(t.children[0], s).value;
    ExprShape(t.children[0], s, s0);
    AddsGood(t.children[0], s, s0);
    ExprPart(t.children[0], s, s0);
    var s1 := IfThen(s0);
    ThenIs(s0);
    PartFresh(s, s0, {});
    assert {} + {Cur(s0)} == {Cur(s0)};
    PartGood(s, s1, {Cur(s0)});
    var s2 := Check(t.children[1], s1).value;
    StmtShape(t.children[1], s1, s2);
    IfElseShape(t, s, s0, s2);
    var s3 := IfElse(t, Cur(s0), |s0.blocks|, s2).value;
    if |t.children| == 3 {
      PartGood(s, s3, {Cur(s2)});
      var s4 := Check(t.children[2], s3).value;
      StmtShape(t.children[2], s3, s4);
      IfEndShape(t, s, s2, s3, s4);
    }
  }

  lemma {:induction false} PartGoto(s: Checking, s': Checking, open: set<C.BlockId>, a: C.BlockId, to: C.BlockId)
    requires Part(s, s', open) && a in open && a < |s'.blocks| && Running(s) && Running(s') && Cur(s) < to <= Cur(s')
    ensures var s'' := MakeGoto(s', a, to);
      Running(s'') && Cur(s'') == Cur(s') && Part(s, s'', open - {a}) && s''.stack == s'.stack &&
      s''.scope == s'.scope &&
      s''.places == s'.places
  {
    hide Part;
    PartJump(s, s', open, a, C.Goto(to), 0);
  }

  lemma {:induction false} PartBranch(s: Checking, s': Checking, open: set<C.BlockId>, e: C.BlockId, h: C.BlockId,
                                      l: C.BlockId)
    requires Part(s, s', open) && e in open && e < |s'.blocks| && Running(s) && Running(s')
    requires Cur(s) < h <= Cur(s') && Cur(s) < l <= Cur(s') && TopGood(s')
    ensures var s'' := MakeBranch(s', e, h, l);
      Running(s'') && Cur(s'') == Cur(s') && Part(s, s'', open - {e}) && s''.stack == s'.stack[..|s'.stack| - 1] &&
      s''.scope == s'.scope && s''.places == s'.places
  {
    hide Part;
    assert s'.stack[|s'.stack| - 1..] == [s'.stack[|s'.stack| - 1]];
    PartJump(s, s', open, e, C.Branch(h, l), 1);
  }

  lemma {:induction false} QuietAdds(t: Tree, s: Checking, s': Checking)
    requires StmtAdds(t, s, s') && Quiet(t) && t.kind != Local
    ensures Part(s, s', {}) && s'.places == s.places + Slots(t) && s'.scope == s.scope && s'.stack == s.stack
  {
    hide Part;
  }

  lemma {:induction false} AddsQuietly(t: Tree, s: Checking, s': Checking)
    requires Part(s, s', {}) && s'.places == s.places + Slots(t) && s'.scope == s.scope && s'.stack == s.stack
    requires Quiet(t) && t.kind != Local
    ensures StmtAdds(t, s, s')
  {
    hide Part;
  }

  lemma {:induction false} BranchesQuiet(t: Tree)
    requires IsIf(t) || IsWhile(t)
    ensures |t.children| > 1 && Quiet(t.children[1]) && t.children[1].kind != Local && Quiet(t) && t.kind != Local
    ensures |t.children| <= 3 && (IsWhile(t) ==> |t.children| == 2) && Slots(t) == SlotsAll(t.children)
    ensures |t.children| == 3 ==> Quiet(t.children[2]) && t.children[2].kind != Local
  {
    assert IsBlock(t.children[1]);
    if |t.children| == 3 {
      assert IsBlock(t.children[2]) || IsIf(t.children[2]);
    }
  }

  lemma {:induction false} NewBlockIs(s: Checking)
    requires Running(s)
    ensures var s' := NewBlock(s);
      |s'.blocks| == |s.blocks| + 1 && s'.stack == s.stack && s'.scope == s.scope && s'.places == s.places
    ensures Cur(s) + 1 == |s.blocks|
  {}

  /** The value of the condition is on top of the stack, and below it is what was there before. */
  lemma {:induction false} ConditionTop(t: Tree, s: Checking, s': Checking, s'': Checking)
    requires ExprAdds(t, s, s') && s''.stack == s'.stack && s'.places <= s''.places
    ensures TopGood(s'') && s''.stack[..|s''.stack| - 1] == s.stack
  {}

  /** The branch at the end of the condition's block takes the value the condition left. */
  lemma {:induction false} ThenIs(s: Checking)
    requires Running(s)
    ensures IfThen(s) == NewBlock(s)
  {}

  lemma {:induction false} CurIs(s: Checking, s': Checking)
    requires Running(s) && Running(s')
    ensures Cur(s) + 1 == |s.blocks| && Cur(s') + 1 == |s'.blocks|
  {}

  lemma {:induction false} IfElseIs(t: Tree, e: C.BlockId, h: C.BlockId, s: Checking)
    requires Running(s) && |s.stack| > 0 && e < |s.blocks|
    ensures e < |NewBlock(s).blocks| && |NewBlock(s).stack| > 0 && Cur(s) < |NewBlock(s).blocks|
    ensures var s' := MakeBranch(NewBlock(s), e, h, |s.blocks|);
      IfElse(t, e, h, s) == Some(if |t.children| == 2 then MakeGoto(s', Cur(s), |s.blocks|) else s')
  {
    hide MakeBranch, MakeGoto;
  }

  lemma {:induction false} IfEndIs(a: C.BlockId, s: Checking)
    requires Running(s) && a < |s.blocks|
    ensures a < |NewBlock(s).blocks| && Cur(s) < |NewBlock(s).blocks|
    ensures IfEnd(a, s) == Some(MakeGoto(MakeGoto(NewBlock(s), a, |s.blocks|), Cur(s), |s.blocks|))
  {
    hide MakeGoto;
  }

  lemma {:induction false} WhileEndIs(h: C.BlockId, e: C.BlockId, b: C.BlockId, s: Checking)
    requires Running(s) && |s.stack| > 0 && e < |s.blocks|
    ensures e < |NewBlock(s).blocks| && |NewBlock(s).stack| > 0 && Cur(s) < |NewBlock(s).blocks|
    ensures WhileEnd(h, e, b, s) == Some(MakeGoto(MakeBranch(NewBlock(s), e, b, |s.blocks|), Cur(s), h))
  {
    hide MakeBranch, MakeGoto;
  }

  lemma {:induction false} IfElseShape(t: Tree, s: Checking, s0: Checking, s2: Checking)
    requires IsIf(t) && Running(s) && ExprAdds(t.children[0], s, s0) && Part(s, s0, {})
    requires Part(s, IfThen(s0), {Cur(s0)}) && StmtAdds(t.children[1], IfThen(s0), s2)
    ensures Cur(s0) < |s2.blocks| && |s2.stack| > 0 && IfElse(t, Cur(s0), |s0.blocks|, s2).Some?
    ensures var s3 := IfElse(t, Cur(s0), |s0.blocks|, s2).value;
      (if |t.children| == 2 then StmtAdds(t, s, s3) else Part(s, s3, {Cur(s2)})) &&
      s3.stack == s.stack && s3.scope == s.scope && s3.places == s.places + Slots(t.children[0]) + Slots(t.children[1])
  {
    hide *;
    BranchesQuiet(t);
    ExprFacts(t.children[0], s, s0);
    NewBlockIs(s0);
    QuietAdds(t.children[1], IfThen(s0), s2);
    ThenIs(s0);
    PartGood(IfThen(s0), s2, {});
    PartGood(s, s0, {});
    var e := Cur(s0);
    PartThen(s, IfThen(s0), s2, {e});
    PartFresh(s, s2, {e});
    var s3 := NewBlock(s2);
    NewBlockIs(s2);
    ConditionTop(t.children[0], s, s0, s3);
    PartBranch(s, s3, {e} + {Cur(s2)}, e, |s0.blocks|, |s2.blocks|);
    assert {e} + {Cur(s2)} - {e} == {Cur(s2)};
    IfElseIs(t, e, |s0.blocks|, s2);
    CurIs(s0, s2);
    if |t.children| == 2 {
      Pair(t);
      PartGoto(s, MakeBranch(s3, e, |s0.blocks|, |s2.blocks|), {Cur(s2)}, Cur(s2), |s2.blocks|);
      assert {Cur(s2)} - {Cur(s2)} == {};
      AddsQuietly(t, s, IfElse(t, e, |s0.blocks|, s2).value);
    }
  }

  lemma {:induction false} OpenWithin(s: Checking, s': Checking, open: set<C.BlockId>, b: C.BlockId)
    requires Part(s, s', open) && b in open
    ensures Running(s) && Running(s') && Cur(s) <= b < Cur(s')
  {
    hide Good, Extends, ScopeGood;
  }

  lemma {:induction false} IfEndShape(t: Tree, s: Checking, s2: Checking, s3: Checking, s4: Checking)
    requires IsIf(t) && |t.children| == 3 && Running(s2) && Part(s, s3, {Cur(s2)}) && StmtAdds(t.children[2], s3, s4)
    requires s3.stack == s.stack && s3.scope == s.scope
    requires s3.places == s.places + Slots(t.children[0]) + Slots(t.children[1])
    ensures Cur(s2) < |s4.blocks| && IfEnd(Cur(s2), s4).Some? && StmtAdds(t, s, IfEnd(Cur(s2), s4).value)
  {
    hide *;
    BranchesQuiet(t);
    Triple(t);
    QuietAdds(t.children[2], s3, s4);
    PartGood(s3, s4, {});
    PartGood(s, s3, {Cur(s2)});
    OpenWithin(s, s3, {Cur(s2)}, Cur(s2));
    var a, b := Cur(s2), Cur(s4);
    PartThen(s, s3, s4, {a});
    PartFresh(s, s4, {a});
    var s5 := NewBlock(s4);
    NewBlockIs(s4);
    CurIs(s, s4);
    IfEndIs(a, s4);
    CurIs(s3, s5);
    PartGoto(s, s5, {a} + {b}, a, |s4.blocks|);
    assert {a} + {b} - {a} == {b};
    PartGoto(s, MakeGoto(s5, a, |s4.blocks|), {b}, b, |s4.blocks|);
    assert {b} - {b} == {};
    AddsQuietly(t, s, IfEnd(a, s4).value);
  }

  lemma {:induction false} Triple(t: Tree)
    requires |t.children| == 3
    ensures SlotsAll(t.children) == Slots(t.children[0]) + Slots(t.children[1]) + Slots(t.children[2])
  {
    var rest := t.children[1..];
    assert SlotsAll(rest) == Slots(rest[0]) + SlotsAll(rest[1..]);
    assert SlotsAll(rest[1..]) == Slots(rest[1..][0]) + SlotsAll(rest[1..][1..]);
  }

  lemma {:induction false} WhileTrees(t: Tree)
    requires IsWhile(t)
    ensures |t.children| == 2 && Obeys(t.children[0]) && IsStmt(t.children[1])
  {}

  lemma {:induction false} WhileShape(t: Tree, s: Checking, s': Checking)
    requires Running(s) && Good(s) && ScopeGood(s) && IsWhile(t) && Check(t, s) == Some(s')
    ensures StmtAdds(t, s, s')
    decreases t, 0
  {
    hide *;
    WhileUnfold(t, s);
    WhileTrees(t);
    var s1 := WhileBegin(s);
    WhileBeginShape(s);
    PartGood(s, s1, {});
    var s2 := Check(t.children[0], s1).value;
    ExprShape(t.children[0], s1, s2);
    AddsGood(t.children[0], s1, s2);
    ExprPart(t.children[0], s1, s2);
    PartThen(s, s1, s2, {});
    PartFresh(s, s2, {});
    var s3 := NewBlock(s2);
    assert {} + {Cur(s2)} == {Cur(s2)};
    PartGood(s, s3, {Cur(s2)});
    var s4 := Check(t.children[1], s3).value;
    StmtShape(t.children[1], s3, s4);
    WhileEndShape(t, s, s1, s2, s4);
  }

  lemma {:induction false} WhileBeginShape(s: Checking)
    requires Good(s) && ScopeGood(s)
    ensures Part(s, WhileBegin(s), {})
    ensures WhileBegin(s).stack == s.stack
    ensures WhileBegin(s).scope == s.scope
    ensures WhileBegin(s).places == s.places
    ensures |WhileBegin(s).blocks| == |s.blocks| + 1
  {
    PartNone(s);
    PartFresh(s, s, {});
    PartJump(s, NewBlock(s), {} + {Cur(s)}, Cur(s), C.Goto(|s.blocks|), 0);
    assert {} + {Cur(s)} - {Cur(s)} == {};
  }

  lemma {:induction false} WhileEndShape(t: Tree, s: Checking, s1: Checking, s2: Checking, s4: Checking)
    requires IsWhile(t) && Running(s) && Running(s1) && ExprAdds(t.children[0], s1, s2)
    requires Part(s, NewBlock(s2), {Cur(s2)})
    requires StmtAdds(t.children[1], NewBlock(s2), s4) && |s1.blocks| == |s.blocks| + 1
    requires s1.stack == s.stack && s1.scope == s.scope && s1.places == s.places
    ensures Cur(s2) < |s4.blocks| && |s4.stack| > 0 && WhileEnd(|s.blocks|, Cur(s2), |s2.blocks|, s4).Some?
    ensures StmtAdds(t, s, WhileEnd(|s.blocks|, Cur(s2), |s2.blocks|, s4).value)
  {
    hide *;
    BranchesQuiet(t);
    Pair(t);
    ExprFacts(t.children[0], s1, s2);
    NewBlockIs(s2);
    QuietAdds(t.children[1], NewBlock(s2), s4);
    PartGood(NewBlock(s2), s4, {});
    var e, b := Cur(s2), Cur(s4);
    PartThen(s, NewBlock(s2), s4, {e});
    PartFresh(s, s4, {e});
    var s5 := NewBlock(s4);
    NewBlockIs(s4);
    CurIs(s, s2);
    CurIs(s5, s4);
    ConditionTop(t.children[0], s1, s2, s5);
    WhileEndIs(|s.blocks|, e, |s2.blocks|, s4);
    PartBranch(s, s5, {e} + {b}, e, |s2.blocks|, |s4.blocks|);
    assert {e} + {b} - {e} == {b};
    var s6 := MakeBranch(s5, e, |s2.blocks|, |s4.blocks|);
    CurIs(s6, s5);
    PartGoto(s, s6, {b}, b, |s.blocks|);
    assert {b} - {b} == {};
    AddsQuietly(t, s, WhileEnd(|s.blocks|, e, |s2.blocks|, s4).value);
  }
}
