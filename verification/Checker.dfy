/** The checker: an explicit stack of items, turning the tree into blocks. */
module Checker {
  import opened Options
  import M = Machines
  import C = Cfgs
  import opened Syntax
  import opened Grammar
  import opened CheckSpec
  import opened CheckCfg
  import opened CheckStack

  class Checker {
    const nodes: seq<ParseNode>
    var treeStack: seq<CheckItem>
    var placeStack: seq<C.PlaceRef>
    var places: nat
    var scope: Scope
    var blocks: seq<C.Block>
    var currentBlock: C.BlockId
    ghost var trees: seq<Tree>

    constructor (nodes: seq<ParseNode>)
      ensures this.nodes == nodes && treeStack == [] && trees == [] && Now() == Initial() && Valid()
    {
      this.nodes := nodes;
      treeStack, placeStack, places, scope := [], [], 0, NoScope;
      blocks, currentBlock, trees := [C.Block([], false)], 0, [];
    }

    ghost function Now(): Checking
      reads this`blocks, this`places, this`placeStack, this`scope
    {
      Checking(blocks, places, placeStack, scope)
    }

    /** The block being filled is the last one. */
    ghost predicate InBlocks()
      reads this`blocks, this`currentBlock
    {
      |blocks| > 0 && currentBlock == |blocks| - 1
    }

    /** Each item is the root of its tree. */
    ghost predicate Rooted()
      reads this`treeStack, this`trees
    {
      |trees| == |treeStack| && forall k :: 0 <= k < |trees| ==> RootAt(nodes, treeStack[k].node, trees[k])
    }

    ghost predicate Valid()
      reads this
    {
      InBlocks() && Rooted()
    }

    // ----- places, names, blocks -----

    method PopPlace() returns (place: C.PlaceRef)
      requires |placeStack| > 0
      modifies this`placeStack
      ensures placeStack == old(placeStack)[..|old(placeStack)| - 1] && place == old(placeStack)[|old(placeStack)| - 1]
    {
      place := placeStack[|placeStack| - 1];
      placeStack := placeStack[..|placeStack| - 1];
    }

    method PushPlace(place: C.PlaceRef)
      modifies this`placeStack
      ensures placeStack == old(placeStack) + [place]
    {
      placeStack := placeStack + [place];
    }

    method NewPlace() returns (place: C.Place)
      modifies this`places
      ensures place == old(places) && places == old(places) + 1
    {
      place := places;
      places := places + 1;
    }

    static method SearchLocals(locals: seq<(string, C.Place)>, name: string) returns (place: C.PlaceRef)
      ensures place == FindLocal(locals, name)
    {
      var i := 0;
      while i < |locals|
        invariant i <= |locals| && FindLocal(locals[i..], name) == FindLocal(locals, name)
      {
        assert locals[i..][1..] == locals[i + 1..];
        if locals[i].0 == name {
          return C.Slot(locals[i].1);
        }
        i := i + 1;
      }
      return C.NoPlace;
    }

    static method Search(scope: Scope, name: string) returns (place: C.PlaceRef)
      ensures place == FindSymbol(scope, name)
      decreases scope
    {
      match scope
      case NoScope => place := C.NoPlace;
      case Scope(parent, locals) =>
        place := SearchLocals(locals, name);
        if place == C.NoPlace {
          place := Search(parent, name);
        }
    }

    method BeginBlock() returns (before: C.BlockId)
      requires InBlocks()
      modifies this`blocks, this`currentBlock
      ensures InBlocks() && before == old(currentBlock) && Now() == NewBlock(old(Now()))
    {
      before := currentBlock;
      blocks := blocks + [C.Block([], false)];
      currentBlock := |blocks| - 1;
    }

    /** Appends an instruction that reads the top `numReads` places, the last one popped first. */
    method EmitBase(block: C.BlockId, write: C.PlaceRef, op: C.Op, numReads: nat)
      requires InBlocks() && block < |blocks| && numReads <= |placeStack|
      modifies this`blocks, this`placeStack
      ensures InBlocks() && Now() == MakeInstBase(old(Now()), block, write, op, numReads)
    {
      var reads_: seq<C.PlaceRef> := [];
      var i := numReads;
      ghost var was := placeStack;
      while i > 0
        invariant 0 <= i <= numReads && blocks == old(blocks) && currentBlock == old(currentBlock)
        invariant placeStack == was[..|was| - numReads + i] && reads_ == was[|was| - numReads + i..]
      {
        var place := PopPlace();
        reads_ := [place] + reads_;
        i := i - 1;
      }
      var code := blocks[block].code + [C.Inst(op, reads_, write)];
      blocks := blocks[block := C.Block(code, blocks[block].usercode || UserInst(op))];
    }

    method Emit(writes: bool, op: C.Op, numReads: nat)
      requires InBlocks() && numReads <= |placeStack|
      modifies this`blocks, this`placeStack, this`places
      ensures InBlocks() && Now() == MakeInst(old(Now()), writes, op, numReads)
    {
      hide MakeInstBase;
      var write := C.NoPlace;
      if writes {
        var place := NewPlace();
        write := C.Slot(place);
      }
      EmitBase(currentBlock, write, op, numReads);
      PushPlace(write);
    }

    // ----- children -----

    /** Pushes the children, last first, so that the first is checked first. */
    method PushChildren(node: nat, ghost t: Tree)
      requires Rooted() && RootAt(nodes, node, t)
      modifies this`treeStack, this`trees
      ensures Rooted() && trees == old(trees) + From(t.children, 0)
      ensures treeStack == old(treeStack) + ChildItems(node, t, 0)
    {
      hide RootAt, ChildAt, Size, SizeAll;
      RootIs(nodes, node, t);
      ChildrenBeginAt(nodes, node, t);
      var it := ChildrenBegin(nodes, node);
      assert old(trees) + From(t.children, |t.children|) == old(trees);
      assert old(treeStack) + ChildItems(node, t, |t.children|) == old(treeStack);
      while ChildrenContinue(it)
        invariant Rooted() && -1 <= it.index < |t.children| && it == ChildIterator(it.index, ChildAt(node, t, it.index))
        invariant trees == old(trees) + From(t.children, it.index + 1)
        invariant treeStack == old(treeStack) + ChildItems(node, t, it.index + 1)
        decreases it.index
      {
        ghost var k := it.index;
        ChildDecodes(nodes, node, t, k);
        treeStack := treeStack + [Item(it.child)];
        trees := trees + [t.children[k]];
        it := ChildrenNext(nodes, it);
      }
    }

    /** The node of child number `k`. */
    method GetChild(node: nat, k: nat, ghost t: Tree) returns (child: nat)
      requires RootAt(nodes, node, t) && k < |t.children|
      ensures RootAt(nodes, child, t.children[k])
    {
      hide RootAt, ChildAt, Size, SizeAll;
      RootIs(nodes, node, t);
      ChildrenBeginAt(nodes, node, t);
      var it := ChildrenBegin(nodes, node);
      while ChildrenContinue(it) && it.index > k
        invariant k <= it.index < |t.children| && it == ChildIterator(it.index, ChildAt(node, t, it.index))
        decreases it.index
      {
        ChildDecodes(nodes, node, t, it.index);
        it := ChildrenNext(nodes, it);
      }
      ChildDecodes(nodes, node, t, k);
      child := it.child;
    }

    // ----- items -----

    /** `x` has been popped; `t` is its tree. */
    ghost predicate Given(x: CheckItem, t: Tree)
      reads this
    {
      Valid() && RootAt(nodes, x.node, t) && Ready(trees + [t], treeStack + [x], Now())
    }

    /** The step taken comes to the same in the end as the work before it; failing, it comes to nothing. */
    ghost predicate Handled(trees': seq<Tree>, items': seq<CheckItem>, was: Checking, ok: bool)
      reads this
    {
      |trees'| == |items'| && Running(was) &&
      if ok then Advances(trees', items', was, trees, treeStack, Now()) else Finish(trees', items', was) == None
    }

    method Push(x: CheckItem, ghost t: Tree)
      requires Rooted() && RootAt(nodes, x.node, t)
      modifies this`treeStack, this`trees
      ensures Rooted() && trees == old(trees) + [t] && treeStack == old(treeStack) + [x]
    {
      treeStack, trees := treeStack + [x], trees + [t];
    }

    method CheckInteger(x: CheckItem, ghost t: Tree) returns (ok: bool)
      requires Given(x, t) && x.stage == 0 && t.kind == Integer
      modifies this
      ensures Valid() && Handled(old(trees) + [t], old(treeStack) + [x], old(Now()), ok)
    {
      hide Ready, Fit, Advances, Finish, RootAt;
      ghost var was := Now();
      RootIs(nodes, x.node, t);
      var text, value, i := Text(nodes[x.node].token), 0, 0;
      while i < |text|
        invariant 0 <= i <= |text| && value == Literal(text[..i]) && Now() == was && Given(x, t)
      {
        assert text[..i + 1][..i] == text[..i];
        value := (value * 10 + (text[i] as int - '0' as int)) % WORD;
        i := i + 1;
      }
      assert text[..i] == text;
      LeafStep(trees, treeStack, t, x, was);
      Emit(true, C.IntegerConst(value), 0);
      return true;
    }

    method CheckSymbolNode(x: CheckItem, ghost t: Tree) returns (ok: bool)
      requires Given(x, t) && x.stage == 0 && t.kind == Symbol
      modifies this
      ensures Valid() && Handled(old(trees) + [t], old(treeStack) + [x], old(Now()), ok)
    {
      hide Ready, Fit, Advances, Finish, RootAt;
      LeafStep(trees, treeStack, t, x, Now());
      RootIs(nodes, x.node, t);
      var place := Search(scope, Text(nodes[x.node].token));
      if place == C.NoPlace {
        return false;
      }
      PushPlace(place);
      return true;
    }

    method CheckBinary(x: CheckItem, op: C.Op, ghost t: Tree) returns (ok: bool)
      requires Given(x, t) && Arithmetic(t.kind) && op == C.Arithmetic(OpOf(t.kind))
      modifies this
      ensures Valid() && Handled(old(trees) + [t], old(treeStack) + [x], old(Now()), ok)
    {
      hide Ready, Fit, Advances, Finish, RootAt;
      if x.stage == 0 {
        OperatorStarts(trees, treeStack, t, x, Now());
        Push(x.(stage := 1), t);
        PushChildren(x.node, t);
      } else {
        OperatorEnds(trees, treeStack, t, x, Now());
        Emit(true, op, 2);
      }
      return true;
    }

    method CheckAssign(x: CheckItem, ghost t: Tree) returns (ok: bool)
      requires Given(x, t) && t.kind == Assign
      modifies this
      ensures Valid() && Handled(old(trees) + [t], old(treeStack) + [x], old(Now()), ok)
    {
      hide Ready, Fit, Advances, Finish;
      if x.stage == 0 {
        AssignTarget(trees, treeStack, t, x, Now());
        var target := GetChild(x.node, 0, t);
        RootIs(nodes, target, t.children[0]);
        hide RootAt;
        if nodes[target].kind != Symbol {
          return false;
        }
        OperatorStarts(trees, treeStack, t, x, Now());
        Push(x.(stage := 1), t);
        PushChildren(x.node, t);
      } else {
        AssignSecond(x, t);
      }
      return true;
    }

    /** The value stays on the stack, in the place it was in. */
    method AssignSecond(x: CheckItem, ghost t: Tree)
      requires Given(x, t) && t.kind == Assign && x.stage != 0
      modifies this`blocks, this`placeStack
      ensures Valid() && Handled(old(trees) + [t], old(treeStack) + [x], old(Now()), true)
    {
      hide Ready, Fit, Advances, Finish, RootAt, Resume;
      OperatorEnds(trees, treeStack, t, x, Now());
      ghost var was := placeStack;
      var value := PopPlace();
      var dest := PopPlace();
      PushPlace(value);
      assert placeStack == was[..|was| - 2] + [value];
      EmitBase(currentBlock, dest, C.Copy, 1);
      PushPlace(value);
    }

    method CheckBlock(x: CheckItem, ghost t: Tree) returns (ok: bool)
      requires Given(x, t) && t.kind == Block
      modifies this
      ensures Valid() && Handled(old(trees) + [t], old(treeStack) + [x], old(Now()), ok)
    {
      hide Ready, Fit, Advances, Finish, RootAt;
      if x.stage == 0 {
        BlockStarts(trees, treeStack, t, x, Now());
        scope := Scope(scope, []);
        Push(CheckItem(1, x.node, InBlock(|placeStack|)), t);
        PushChildren(x.node, t);
      } else {
        BlockEnds(trees, treeStack, t, x, Now());
        ghost var was := placeStack;
        while |placeStack| > x.saved.initialStack
          invariant x.saved.initialStack <= |placeStack| <= |was| && placeStack == was[..|placeStack|]
          invariant Valid() && blocks == old(blocks) && places == old(places) && scope == old(scope)
          invariant trees == old(trees) && treeStack == old(treeStack)
        {
          var _ := PopPlace();
        }
        scope := scope.parent;
      }
      return true;
    }

    method CheckLocalNode(x: CheckItem, ghost t: Tree) returns (ok: bool)
      requires Given(x, t) && x.stage == 0 && t.kind == Local
      modifies this
      ensures Valid() && Handled(old(trees) + [t], old(treeStack) + [x], old(Now()), ok)
    {
      hide Ready, Fit, Advances, Finish;
      LocalStep(trees, treeStack, t, x, Now());
      RootIs(nodes, x.node, t);
      if nodes[x.node].numChildren != 2 {
        return false;
      }
      var child := GetChild(x.node, 0, t);
      RootIs(nodes, child, t.children[0]);
      var name := Text(nodes[child].token);
      var clash := Search(scope, name);
      if clash != C.NoPlace {
        return false;
      }
      var place := NewPlace();
      scope := scope.(locals := [(name, place)] + scope.locals);
      return true;
    }

    method CheckIfNode(x: CheckItem, ghost t: Tree) returns (ok: bool)
      requires Given(x, t) && t.kind == If
      modifies this
      ensures Valid() && Handled(old(trees) + [t], old(treeStack) + [x], old(Now()), ok)
    {
      hide Ready, Fit, Advances, Finish, RootAt, NewBlock, IfElse, IfEnd;
      IfShapes(trees, treeStack, t, x, Now());
      if x.stage == 0 {
        var child := GetChild(x.node, 0, t);
        IfStarts(trees, treeStack, t, x, Now(), child);
        Push(x.(stage := 1), t);
        PushNode(child, t.children[0]);
      } else if x.stage == 1 {
        var child := GetChild(x.node, 1, t);
        IfThens(trees, treeStack, t, x, Now(), child);
        var entryTail := BeginBlock();
        Push(CheckItem(2, x.node, InIf(entryTail, currentBlock, 0)), t);
        PushNode(child, t.children[1]);
      } else if x.stage == 2 {
        IfSecond(x, t);
      } else {
        IfThird(trees, treeStack, t, x, Now());
        EndElse(x.saved.thenTail);
      }
      return true;
    }

    method PushNode(child: nat, ghost t: Tree)
      requires Rooted() && RootAt(nodes, child, t)
      modifies this`treeStack, this`trees
      ensures Rooted() && trees == old(trees) + [t] && treeStack == old(treeStack) + [Item(child)]
    {
      Push(Item(child), t);
    }

    /** The first branch is done: the condition's block gets its jump, and, without an `else`, so does the branch. */
    method IfSecond(x: CheckItem, ghost t: Tree)
      requires Given(x, t) && t.kind == If && x.stage == 2
      modifies this
      ensures Valid() && Handled(old(trees) + [t], old(treeStack) + [x], old(Now()), true)
    {
      hide Ready, Fit, Advances, Finish, RootAt, ItemFits, IfElse;
      IfShapes(trees, treeStack, t, x, Now());
      RootIs(nodes, x.node, t);
      ghost var was := Now();
      var thenTail := EndBranch(x.saved.entryTail, x.saved.thenHead, nodes[x.node].numChildren == 2, t);
      if nodes[x.node].numChildren == 2 {
        IfEnds(trees, treeStack, t, x, was, Now());
      } else {
        var child := GetChild(x.node, 2, t);
        IfElses(trees, treeStack, t, x, was, child, Now());
        Push(x.(stage := 3, saved := x.saved.(thenTail := thenTail)), t);
        PushNode(child, t.children[2]);
      }
    }

    method EndBranch(entryTail: C.BlockId, thenHead: C.BlockId, alone: bool, ghost t: Tree)
      returns (thenTail: C.BlockId)
      requires InBlocks() && entryTail < |blocks| && |placeStack| > 0 && (alone <==> |t.children| == 2)
      modifies this`blocks, this`currentBlock, this`placeStack
      ensures InBlocks() && thenTail == old(currentBlock)
      ensures IfElse(t, entryTail, thenHead, old(Now())) == Some(Now())
    {
      thenTail := BeginBlock();
      EmitBase(entryTail, C.NoPlace, C.Branch(thenHead, currentBlock), 1);
      if alone {
        EmitBase(thenTail, C.NoPlace, C.Goto(currentBlock), 0);
      }
    }

    method EndElse(thenTail: C.BlockId)
      requires InBlocks() && thenTail < |blocks|
      modifies this`blocks, this`currentBlock, this`placeStack
      ensures InBlocks() && IfEnd(thenTail, old(Now())) == Some(Now())
    {
      var elseTail := BeginBlock();
      EmitBase(thenTail, C.NoPlace, C.Goto(currentBlock), 0);
      EmitBase(elseTail, C.NoPlace, C.Goto(currentBlock), 0);
    }

    method EnterLoop()
      requires InBlocks()
      modifies this`blocks, this`currentBlock, this`placeStack
      ensures InBlocks() && currentBlock == |old(blocks)| && Now() == WhileBegin(old(Now()))
    {
      var before := BeginBlock();
      EmitBase(before, C.NoPlace, C.Goto(currentBlock), 0);
    }

    method LeaveLoop(entryHead: C.BlockId, entryTail: C.BlockId, bodyHead: C.BlockId)
      requires InBlocks() && entryTail < |blocks| && |placeStack| > 0
      modifies this`blocks, this`currentBlock, this`placeStack
      ensures InBlocks() && WhileEnd(entryHead, entryTail, bodyHead, old(Now())) == Some(Now())
    {
      var bodyTail := BeginBlock();
      EmitBase(entryTail, C.NoPlace, C.Branch(bodyHead, currentBlock), 1);
      EmitBase(bodyTail, C.NoPlace, C.Goto(entryHead), 0);
    }

    method CheckWhileNode(x: CheckItem, ghost t: Tree) returns (ok: bool)
      requires Given(x, t) && t.kind == While
      modifies this
      ensures Valid() && Handled(old(trees) + [t], old(treeStack) + [x], old(Now()), ok)
    {
      hide Ready, Fit, Advances, Finish, RootAt, ItemFits, NewBlock, WhileBegin, WhileEnd;
      WhileShapes(trees, treeStack, t, x, Now());
      if x.stage == 0 {
        var child := GetChild(x.node, 0, t);
        WhileStarts(trees, treeStack, t, x, Now(), child);
        EnterLoop();
        Push(CheckItem(1, x.node, InWhile(currentBlock, 0, 0)), t);
        PushNode(child, t.children[0]);
      } else if x.stage == 1 {
        var child := GetChild(x.node, 1, t);
        WhileBodies(trees, treeStack, t, x, Now(), child);
        var entryTail := BeginBlock();
        Push(x.(stage := 2, saved := x.saved.(entryTail := entryTail, bodyHead := currentBlock)), t);
        PushNode(child, t.children[1]);
      } else {
        WhileEnds(trees, treeStack, t, x, Now());
        LeaveLoop(x.saved.entryHead, x.saved.entryTail, x.saved.bodyHead);
      }
      return true;
    }

    method CheckReturnNode(x: CheckItem, ghost t: Tree) returns (ok: bool)
      requires Given(x, t) && t.kind == Return
      modifies this
      ensures Valid() && Handled(old(trees) + [t], old(treeStack) + [x], old(Now()), ok)
    {
      hide Ready, Fit, Advances, Finish, RootAt, ItemFits;
      ReturnShapes(trees, treeStack, t, x, Now());
      RootIs(nodes, x.node, t);
      if x.stage == 0 && nodes[x.node].numChildren != 0 {
        ReturnStarts(trees, treeStack, t, x, Now());
        Push(x.(stage := 1), t);
        PushChildren(x.node, t);
      } else {
        Emit(false, C.Return, if x.stage == 0 then 0 else 1);
        var _ := BeginBlock();
      }
      return true;
    }

    method CheckItemNode(x: CheckItem, ghost t: Tree) returns (ok: bool)
      requires Given(x, t)
      modifies this
      ensures Valid() && Handled(old(trees) + [t], old(treeStack) + [x], old(Now()), ok)
    {
      hide Ready, Fit, Advances, Finish;
      RootIs(nodes, x.node, t);
      KindOk(trees, treeStack, t, x, Now());
      hide ItemFits;
      match nodes[x.node].kind
      case Integer => ok := CheckInteger(x, t);
      case Add => ok := CheckBinary(x, C.Arithmetic(M.Add), t);
      case Sub => ok := CheckBinary(x, C.Arithmetic(M.Sub), t);
      case Mul => ok := CheckBinary(x, C.Arithmetic(M.Mul), t);
      case Div => ok := CheckBinary(x, C.Arithmetic(M.Div), t);
      case Assign => ok := CheckAssign(x, t);
      case Block => ok := CheckBlock(x, t);
      case Local => ok := CheckLocalNode(x, t);
      case Symbol => ok := CheckSymbolNode(x, t);
      case If => ok := CheckIfNode(x, t);
      case While => ok := CheckWhileNode(x, t);
      case Return => ok := CheckReturnNode(x, t);
    }

    /** Takes the top item off the stack and checks it. */
    method CheckTop() returns (ok: bool)
      requires Valid() && |treeStack| > 0 && Ready(trees, treeStack, Now())
      modifies this
      ensures !ok ==> Finish(old(trees), old(treeStack), old(Now())) == None
      ensures ok ==> Valid() && Ready(trees, treeStack, Now())
      ensures ok ==> Finish(trees, treeStack, Now()) == Finish(old(trees), old(treeStack), old(Now()))
      ensures ok ==> WorkAll(trees, treeStack) < WorkAll(old(trees), old(treeStack))
    {
      hide Ready, Fit, Advances, Finish, RootAt, WorkAll;
      var n := |treeStack| - 1;
      ghost var was, items, s := trees, treeStack, Now();
      var x := treeStack[n];
      ghost var t := trees[n];
      treeStack, trees := treeStack[..n], trees[..n];
      assert trees + [t] == was && treeStack + [x] == items;
      ok := CheckItemNode(x, t);
      if ok {
        StepKept(was, items, s, trees, treeStack, Now());
      }
    }
  }

  /** Turns the tree in the array into blocks, or fails as the recursion over the tree does. */
  method CheckTree(nodes: seq<ParseNode>, ghost t: Tree) returns (result: Option<C.Cfg>)
    requires IsBlock(t) && nodes == Post(t)
    ensures result == match Check(t, Initial()) case None => None case Some(s) => Some(CfgOf(s))
  {
    hide Ready, Fit, Advances, Finish, Check, IsBlock, RootAt, WorkAll, Post;
    assert [] + [t] == [t] && [] + [Item(|nodes| - 1)] == [Item(|nodes| - 1)];
    WholeArray(nodes, t);
    var c := new Checker(nodes);
    c.Push(Item(|nodes| - 1), t);
    FirstItem(|nodes| - 1, t);
    while |c.treeStack| > 0
      invariant c.Valid() && c.nodes == nodes && Ready(c.trees, c.treeStack, c.Now())
      invariant Finish(c.trees, c.treeStack, c.Now()) == Check(t, Initial())
      decreases WorkAll(c.trees, c.treeStack)
    {
      var ok := c.CheckTop();
      if !ok {
        return None;
      }
    }
    assert c.trees == [] && c.treeStack == [];
    NothingLeft(c.Now());
    return Some(C.Cfg(c.blocks, InOrder(|c.blocks|), c.places));
  }
}
