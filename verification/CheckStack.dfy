/** The work the checker still has to do, as a stack of items. */
module CheckStack {
  import opened Options
  import C = Cfgs
  import opened Syntax
  import opened Grammar
  import opened CheckSpec
  import opened CheckShape

  datatype Saved =
    | Nothing
    | InBlock(initialStack: nat)
    | InWhile(entryHead: C.BlockId, entryTail: C.BlockId, bodyHead: C.BlockId)
    | InIf(entryTail: C.BlockId, thenHead: C.BlockId, thenTail: C.BlockId)

  /** A node to be checked, how far it has been, and what it keeps between its stages. */
  datatype CheckItem = CheckItem(stage: nat, node: nat, saved: Saved)

  function Item(node: nat): CheckItem {
    CheckItem(0, node, Nothing)
  }

  /** What is left of an item, to its end. */
  function Resume(x: CheckItem, t: Tree, s: Checking): (r: Option<Checking>)
    requires Running(s)
    ensures r.Some? ==> Running(r.value)
  {
    if x.stage == 0 then Check(t, s)
    else
      match t.kind
      case Block => if x.saved.InBlock? then BlockEnd(x.saved.initialStack, s) else None
      case Assign => AssignEnd(s)
      case Return => ReturnEnd(1, s)
      case If =>
        if !(2 <= |t.children| <= 3) then None
        else if x.stage == 1 then IfFromThen(t, s)
        else if !x.saved.InIf? then None
        else if x.stage == 2 then IfFromElse(t, x.saved.entryTail, x.saved.thenHead, s)
        else IfEnd(x.saved.thenTail, s)
      case While =>
        if |t.children| != 2 || !x.saved.InWhile? then None
        else if x.stage == 1 then WhileFromBody(t, x.saved.entryHead, s)
        else WhileEnd(x.saved.entryHead, x.saved.entryTail, x.saved.bodyHead, s)
      case _ => if Arithmetic(t.kind) then BinaryEnd(t, s) else None
  }

  /** All that is left, from the top of the stack down. */
  function Finish(trees: seq<Tree>, items: seq<CheckItem>, s: Checking): Option<Checking>
    requires |trees| == |items| && Running(s)
    decreases |items|
  {
    var n := |items|;
    if n == 0 then Some(s)
    else
      match Resume(items[n - 1], trees[n - 1], s)
      case None => None
      case Some(s') => Finish(trees[..n - 1], items[..n - 1], s')
  }

  lemma {:induction false} FinishTop(trees: seq<Tree>, items: seq<CheckItem>, t: Tree, x: CheckItem, s: Checking)
    requires |trees| == |items| && Running(s)
    ensures Finish(trees + [t], items + [x], s) == match Resume(x, t, s) case None => None
      case Some(s') => Finish(trees, items, s')
  {
    assert (trees + [t])[..|trees|] == trees && (items + [x])[..|items|] == items;
  }

  // ----- children, pushed last first -----

  function From(ts: seq<Tree>, k: nat): (r: seq<Tree>)
    requires k <= |ts|
    ensures |r| == |ts| - k
    decreases |ts| - k
  {
    if k == |ts| then [] else From(ts, k + 1) + [ts[k]]
  }

  function ChildNode(i: nat, t: Tree, k: nat): nat
    requires k < |t.children|
  {
    if ChildAt(i, t, k) >= 0 then ChildAt(i, t, k) else 0
  }

  /** The items of the children of the tree at `i`, from number `k` on. */
  function ChildItems(i: nat, t: Tree, k: nat): (r: seq<CheckItem>)
    requires k <= |t.children|
    ensures |r| == |t.children| - k
    decreases |t.children| - k
  {
    if k == |t.children| then []
    else ChildItems(i, t, k + 1) + [Item(ChildNode(i, t, k))]
  }

  lemma {:induction false} FinishChildren(trees: seq<Tree>, items: seq<CheckItem>, i: nat, t: Tree, k: nat, s: Checking)
    requires |trees| == |items| && Running(s) && k <= |t.children|
    ensures Finish(trees + From(t.children, k), items + ChildItems(i, t, k), s) ==
      match CheckAll(t.children[k..], s) case None => None case Some(s') => Finish(trees, items, s')
    decreases |t.children| - k
  {
    var cs := t.children;
    if k == |cs| {
      assert trees + [] == trees && items + [] == items;
    } else {
      var x := Item(ChildNode(i, t, k));
      assert trees + From(cs, k) == (trees + From(cs, k + 1)) + [cs[k]];
      assert items + ChildItems(i, t, k) == (items + ChildItems(i, t, k + 1)) + [x];
      FinishTop(trees + From(cs, k + 1), items + ChildItems(i, t, k + 1), cs[k], x, s);
      assert cs[k..][0] == cs[k] && cs[k..][1..] == cs[k + 1..];
      if Check(cs[k], s).Some? {
        FinishChildren(trees, items, i, t, k + 1, Check(cs[k], s).value);
      }
    }
  }

  // ----- the places and scopes suffice -----

  function Depth(scope: Scope): nat {
    if scope.NoScope? then 0 else 1 + Depth(scope.parent)
  }

  function Net(t: Tree): nat {
    if Quiet(t) then 0 else 1
  }

  /** An item finds the places it pops, a scope to look in and the blocks it has saved. */
  predicate ItemFits(x: CheckItem, t: Tree, h: nat, depth: nat, blocks: nat) {
    if x.stage == 0 then IsStmt(t) && (IsBlock(t) || depth > 0)
    else
      match t.kind
      case Block => x.stage == 1 && x.saved.InBlock? && x.saved.initialStack <= h && depth > 0
      case Assign => x.stage == 1 && h >= 2
      case Return => x.stage == 1 && h >= 1 && IsReturn(t)
      case If =>
        IsIf(t) && depth > 0 && x.stage <= 3 && (x.stage < 3 ==> h >= 1) && (x.stage > 1 ==> x.saved.InIf?) &&
        (x.stage == 2 ==> x.saved.entryTail < blocks) &&
        (x.stage == 3 ==> x.saved.thenTail < blocks && |t.children| == 3)
      case While =>
        IsWhile(t) && depth > 0 && x.stage <= 2 && h >= 1 && x.saved.InWhile? &&
        (x.stage == 2 ==> x.saved.entryTail < blocks)
      case _ => Arithmetic(t.kind) && x.stage == 1 && h >= 2
  }

  function HeightAfter(x: CheckItem, t: Tree, h: nat): int {
    if x.stage == 0 then h + Net(t)
    else if t.kind == Block && x.saved.InBlock? then x.saved.initialStack
    else if t.kind == Return || (t.kind == If && x.stage == 3) then h
    else h - 1
  }

  function DepthAfter(x: CheckItem, t: Tree, depth: nat): int {
    if x.stage > 0 && t.kind == Block then depth - 1 else depth
  }

  predicate Fit(trees: seq<Tree>, items: seq<CheckItem>, h: nat, depth: nat, blocks: nat)
    requires |trees| == |items|
    decreases |items|
  {
    var n := |items|;
    n > 0 ==>
      ItemFits(items[n - 1], trees[n - 1], h, depth, blocks) && HeightAfter(items[n - 1], trees[n - 1], h) >= 0 &&
      DepthAfter(items[n - 1], trees[n - 1], depth) >= 0 &&
      Fit(trees[..n - 1], items[..n - 1], HeightAfter(items[n - 1], trees[n - 1], h),
        DepthAfter(items[n - 1], trees[n - 1], depth), blocks)
  }

  lemma {:induction false} FitTop(trees: seq<Tree>, items: seq<CheckItem>, t: Tree, x: CheckItem, h: nat, depth: nat,
                                  blocks: nat)
    requires |trees| == |items|
    ensures Fit(trees + [t], items + [x], h, depth, blocks) <==>
      ItemFits(x, t, h, depth, blocks) && HeightAfter(x, t, h) >= 0 && DepthAfter(x, t, depth) >= 0 &&
      Fit(trees, items, HeightAfter(x, t, h), DepthAfter(x, t, depth), blocks)
  {
    assert (trees + [t])[..|trees|] == trees && (items + [x])[..|items|] == items;
  }

  lemma {:induction false} FitMore(trees: seq<Tree>, items: seq<CheckItem>, h: nat, depth: nat, blocks: nat,
                                   blocks': nat)
    requires |trees| == |items| && Fit(trees, items, h, depth, blocks) && blocks <= blocks'
    ensures Fit(trees, items, h, depth, blocks')
    decreases |items|
  {
    var n := |items|;
    if n > 0 {
      var x, t := items[n - 1], trees[n - 1];
      FitMore(trees[..n - 1], items[..n - 1], HeightAfter(x, t, h), DepthAfter(x, t, depth), blocks, blocks');
    }
  }

  function NetAll(ts: seq<Tree>, k: nat): nat
    requires k <= |ts|
    decreases |ts| - k
  {
    if k == |ts| then 0 else Net(ts[k]) + NetAll(ts, k + 1)
  }

  lemma {:induction false} FitChild(trees: seq<Tree>, items: seq<CheckItem>, t: Tree, node: nat, h: nat, depth: nat,
                                    blocks: nat)
    requires |trees| == |items| && depth > 0 && IsStmt(t) && Fit(trees, items, h + Net(t), depth, blocks)
    ensures Fit(trees + [t], items + [Item(node)], h, depth, blocks)
  {
    FitTop(trees, items, t, Item(node), h, depth, blocks);
  }

  lemma {:induction false} FitChildren(trees: seq<Tree>, items: seq<CheckItem>, i: nat, t: Tree, k: nat, h: nat,
                                       depth: nat, blocks: nat)
    requires |trees| == |items| && k <= |t.children| && depth > 0
    requires forall j :: k <= j < |t.children| ==> IsStmt(t.children[j])
    requires Fit(trees, items, h + NetAll(t.children, k), depth, blocks)
    ensures Fit(trees + From(t.children, k), items + ChildItems(i, t, k), h, depth, blocks)
    decreases |t.children| - k
  {
    hide IsStmt, Fit, Net;
    var cs := t.children;
    if k == |cs| {
      assert trees + [] == trees && items + [] == items;
    } else {
      var x := Item(ChildNode(i, t, k));
      assert trees + From(cs, k) == (trees + From(cs, k + 1)) + [cs[k]];
      assert items + ChildItems(i, t, k) == (items + ChildItems(i, t, k + 1)) + [x];
      FitChildren(trees, items, i, t, k + 1, h + Net(cs[k]), depth, blocks);
      FitChild(trees + From(cs, k + 1), items + ChildItems(i, t, k + 1), cs[k], x.node, h, depth, blocks);
    }
  }

  // ----- the work left -----

  function Sizes(ts: seq<Tree>, k: nat): nat
    decreases |ts| - k
  {
    if k >= |ts| then 0 else Size(ts[k]) + Sizes(ts, k + 1)
  }

  lemma {:induction false} SizesAll(ts: seq<Tree>, k: nat)
    requires k <= |ts|
    ensures Sizes(ts, k) == SizeAll(ts[k..])
    decreases |ts| - k
  {
    if k < |ts| {
      SizesAll(ts, k + 1);
      assert ts[k..] == [ts[k]] + ts[k + 1..];
      PostAppend([ts[k]], ts[k + 1..]);
      PostOne(ts[k]);
    }
  }

  function Work(x: CheckItem, t: Tree): nat {
    if x.stage == 0 then 4 * Size(t)
    else (if x.stage < 4 then 4 - x.stage else 0) + if t.kind == If || t.kind == While
      then 4 * Sizes(t.children, x.stage) else 0
  }

  function WorkAll(trees: seq<Tree>, items: seq<CheckItem>): nat
    requires |trees| == |items|
    decreases |items|
  {
    var n := |items|;
    if n == 0 then 0 else Work(items[n - 1], trees[n - 1]) + WorkAll(trees[..n - 1], items[..n - 1])
  }

  lemma {:induction false} WorkTop(trees: seq<Tree>, items: seq<CheckItem>, t: Tree, x: CheckItem)
    requires |trees| == |items|
    ensures WorkAll(trees + [t], items + [x]) == WorkAll(trees, items) + Work(x, t)
  {
    assert (trees + [t])[..|trees|] == trees && (items + [x])[..|items|] == items;
  }

  lemma {:induction false} WorkChildren(trees: seq<Tree>, items: seq<CheckItem>, i: nat, t: Tree, k: nat)
    requires |trees| == |items| && k <= |t.children|
    ensures WorkAll(trees + From(t.children, k), items + ChildItems(i, t, k)) ==
      WorkAll(trees, items) + 4 * Sizes(t.children, k)
    decreases |t.children| - k
  {
    var cs := t.children;
    if k == |cs| {
      assert trees + [] == trees && items + [] == items;
    } else {
      var x := Item(ChildNode(i, t, k));
      assert trees + From(cs, k) == (trees + From(cs, k + 1)) + [cs[k]];
      assert items + ChildItems(i, t, k) == (items + ChildItems(i, t, k + 1)) + [x];
      WorkChildren(trees, items, i, t, k + 1);
      WorkTop(trees + From(cs, k + 1), items + ChildItems(i, t, k + 1), cs[k], x);
    }
  }

  lemma {:induction false} SizeIs(t: Tree)
    ensures Size(t) == 1 + Sizes(t.children, 0)
  {
    SizesAll(t.children, 0);
    assert t.children[0..] == t.children;
  }

  // ----- steps -----

  predicate Ready(trees: seq<Tree>, items: seq<CheckItem>, s: Checking) {
    |trees| == |items| && Running(s) && Fit(trees, items, |s.stack|, Depth(s.scope), |s.blocks|)
  }

  /** One step: what it comes to in the end is the same, and there is less to do. */
  predicate Advances(trees: seq<Tree>, items: seq<CheckItem>, s: Checking, trees': seq<Tree>, items': seq<CheckItem>,
                     s': Checking) {
    |trees| == |items| && Running(s) && Ready(trees', items', s') &&
    Finish(trees, items, s) == Finish(trees', items', s') &&
    WorkAll(trees', items') < WorkAll(trees, items)
  }

  lemma {:induction false} StepFails(trees: seq<Tree>, items: seq<CheckItem>, t: Tree, x: CheckItem, s: Checking)
    requires |trees| == |items| && Running(s) && Resume(x, t, s) == None
    ensures Finish(trees + [t], items + [x], s) == None
  {
    FinishTop(trees, items, t, x, s);
  }

  /** The last stage of an item. */
  lemma {:induction false} StepEnds(trees: seq<Tree>, items: seq<CheckItem>, t: Tree, x: CheckItem, s: Checking,
                                    s': Checking)
    requires |trees| == |items| && Ready(trees + [t], items + [x], s) && Resume(x, t, s) == Some(s')
    requires |s'.stack| == HeightAfter(x, t, |s.stack|)
    requires Depth(s'.scope) == DepthAfter(x, t, Depth(s.scope)) && |s.blocks| <= |s'.blocks|
    requires Work(x, t) > 0
    ensures Advances(trees + [t], items + [x], s, trees, items, s')
  {
    hide Resume, Fit, Work, HeightAfter, DepthAfter;
    FinishTop(trees, items, t, x, s);
    WorkTop(trees, items, t, x);
    FitTop(trees, items, t, x, |s.stack|, Depth(s.scope), |s.blocks|);
    FitMore(trees, items, |s'.stack|, Depth(s'.scope), |s.blocks|, |s'.blocks|);
  }

  /** A stage that has one child checked before the next one. */
  lemma {:induction false} StepOne(trees: seq<Tree>, items: seq<CheckItem>, t: Tree, x: CheckItem, s: Checking,
                                   x': CheckItem, node: nat, c: Tree, s': Checking)
    requires |trees| == |items| && Ready(trees + [t], items + [x], s) && Running(s') && Depth(s'.scope) > 0 && IsStmt(c)
    requires Resume(x, t, s) == match Check(c, s') case None => None case Some(s1) => Resume(x', t, s1)
    requires Fit(trees + [t], items + [x'], |s'.stack| + Net(c), Depth(s'.scope), |s'.blocks|)
    requires Work(x', t) + 4 * Size(c) < Work(x, t)
    ensures Advances(trees + [t], items + [x], s, trees + [t] + [c], items + [x'] + [Item(node)], s')
  {
    hide Resume, Fit, Work, Check, IsStmt;
    FinishTop(trees, items, t, x, s);
    FinishTop(trees + [t], items + [x'], c, Item(node), s');
    ResumeStart(Item(node), c, s');
    if Check(c, s').Some? {
      FinishTop(trees, items, t, x', Check(c, s').value);
    }
    FitChild(trees + [t], items + [x'], c, node, |s'.stack|, Depth(s'.scope), |s'.blocks|);
    WorkTop(trees, items, t, x);
    WorkTop(trees, items, t, x');
    WorkTop(trees + [t], items + [x'], c, Item(node));
    WorkStart(node, c);
  }

  lemma {:induction false} ResumeStart(x: CheckItem, t: Tree, s: Checking)
    requires Running(s) && x.stage == 0
    ensures Resume(x, t, s) == Check(t, s)
  {}

  lemma {:induction false} WorkStart(node: nat, t: Tree)
    ensures Work(Item(node), t) == 4 * Size(t)
  {}

  /** A stage that has all children checked before the next one. */
  lemma {:induction false} StepAll(trees: seq<Tree>, items: seq<CheckItem>, t: Tree, x: CheckItem, s: Checking,
                                   x': CheckItem, i: nat, s': Checking)
    requires |trees| == |items| && Ready(trees + [t], items + [x], s) && Running(s') && Depth(s'.scope) > 0
    requires forall k :: 0 <= k < |t.children| ==> IsStmt(t.children[k])
    requires Resume(x, t, s) == match CheckAll(t.children, s') case None => None case Some(s1) => Resume(x', t, s1)
    requires Fit(trees + [t], items + [x'], |s'.stack| + NetAll(t.children, 0), Depth(s'.scope), |s'.blocks|)
    requires Work(x', t) <= 3 && x.stage == 0
    ensures Advances(trees + [t], items + [x], s, trees + [t] + From(t.children, 0),
      items + [x'] + ChildItems(i, t, 0), s')
  {
    hide Resume, Fit, Check, CheckAll, IsStmt, From, ChildItems, Sizes, NetAll;
    FinishTop(trees, items, t, x, s);
    FinishChildren(trees + [t], items + [x'], i, t, 0, s');
    assert t.children[0..] == t.children;
    if CheckAll(t.children, s').Some? {
      FinishTop(trees, items, t, x', CheckAll(t.children, s').value);
    }
    FitChildren(trees + [t], items + [x'], i, t, 0, |s'.stack|, Depth(s'.scope), |s'.blocks|);
    WorkTop(trees, items, t, x);
    WorkTop(trees, items, t, x');
    WorkChildren(trees + [t], items + [x'], i, t, 0);
    SizeIs(t);
  }

  // ----- what each kind of node does, stage by stage -----

  /** The item with its later stage fits where it fit before. */
  lemma {:induction false} FitLater(trees: seq<Tree>, items: seq<CheckItem>, t: Tree, x: CheckItem, s: Checking,
                                    x': CheckItem, h': nat, depth': nat, blocks': nat)
    requires |trees| == |items| && Ready(trees + [t], items + [x], s)
    requires ItemFits(x', t, h', depth', blocks') && |s.blocks| <= blocks'
    requires HeightAfter(x', t, h') == HeightAfter(x, t, |s.stack|)
    requires DepthAfter(x', t, depth') == DepthAfter(x, t, Depth(s.scope))
    ensures Fit(trees + [t], items + [x'], h', depth', blocks')
  {
    hide ItemFits, HeightAfter, DepthAfter, Fit;
    FitTop(trees, items, t, x, |s.stack|, Depth(s.scope), |s.blocks|);
    FitMore(trees, items, HeightAfter(x, t, |s.stack|), DepthAfter(x, t, Depth(s.scope)), |s.blocks|, blocks');
    FitTop(trees, items, t, x', h', depth', blocks');
  }

  lemma {:induction false} TopFits(trees: seq<Tree>, items: seq<CheckItem>, t: Tree, x: CheckItem, s: Checking)
    requires |trees| == |items| && Ready(trees + [t], items + [x], s)
    ensures ItemFits(x, t, |s.stack|, Depth(s.scope), |s.blocks|)
  {
    FitTop(trees, items, t, x, |s.stack|, Depth(s.scope), |s.blocks|);
  }

  lemma {:induction false} NetTwo(ts: seq<Tree>)
    requires |ts| == 2
    ensures NetAll(ts, 0) == Net(ts[0]) + Net(ts[1])
  {
    assert NetAll(ts, 1) == Net(ts[1]) + NetAll(ts, 2);
  }

  lemma {:induction false} ObeysNet(t: Tree)
    requires Obeys(t)
    ensures IsStmt(t) && Net(t) == 1
    ensures Operator(t.kind) ==> |t.children| == 2 && Obeys(t.children[0]) && Obeys(t.children[1])
  {}

  /** The operands of an operator are checked before it. */
  lemma {:induction false} OperatorStarts(trees: seq<Tree>, items: seq<CheckItem>, t: Tree, x: CheckItem, s: Checking)
    requires |trees| == |items| && Ready(trees + [t], items + [x], s) && x.stage == 0 && Operator(t.kind)
    requires t.kind == Assign ==> |t.children| > 0 && t.children[0].kind == Symbol
    ensures Advances(trees + [t], items + [x], s, trees + [t] + From(t.children, 0),
      items + [x.(stage := 1)] + ChildItems(x.node, t, 0), s)
  {
    TopFits(trees, items, t, x, s);
    OperatorObeys(t);
    ObeysNet(t);
    ObeysNet(t.children[0]);
    ObeysNet(t.children[1]);
    NetTwo(t.children);
    hide Obeys, IsStmt, Fit, CheckAll, From, ChildItems;
    FitLater(trees, items, t, x, s, x.(stage := 1), |s.stack| + 2, Depth(s.scope), |s.blocks|);
    StepAll(trees, items, t, x, s, x.(stage := 1), x.node, s);
  }

  lemma {:induction false} OperatorObeys(t: Tree)
    requires IsStmt(t) && Operator(t.kind)
    ensures Obeys(t)
  {
    StmtCases(t);
  }

  lemma {:induction false} BlockResumes(t: Tree, s: Checking, node: nat)
    requires Running(s) && t.kind == Block
    ensures Check(t, s) == match CheckAll(t.children, BlockBegin(s)) case None => None
      case Some(s1) => Resume(CheckItem(1, node, InBlock(|s.stack|)), t, s1)
  {}

  lemma {:induction false} IfResumes(t: Tree, s: Checking, x: CheckItem)
    requires Running(s) && IsIf(t)
    ensures Check(t, s) == match Check(t.children[0], s) case None => None
      case Some(s1) => Resume(x.(stage := 1), t, s1)
  {
    assert Check(t, s) == CheckIf(t, s);
  }

  lemma {:induction false} WhileResumes(t: Tree, s: Checking, node: nat)
    requires Running(s) && IsWhile(t)
    ensures Check(t, s) ==
      match Check(t.children[0], WhileBegin(s)) case None => None
        case Some(s1) => Resume(CheckItem(1, node, InWhile(|s.blocks|, 0, 0)), t, s1)
  {
    assert Check(t, s) == CheckWhile(t, s);
  }

  /** What is known when a block is first looked at, and its next stage. */
  lemma {:induction false} BlockReady(trees: seq<Tree>, items: seq<CheckItem>, t: Tree, x: CheckItem, s: Checking)
    requires |trees| == |items| && Ready(trees + [t], items + [x], s) && x.stage == 0 && t.kind == Block
    ensures Running(s) && forall k :: 0 <= k < |t.children| ==> IsStmt(t.children[k])
    ensures var x', h := CheckItem(1, x.node, InBlock(|s.stack|)), |s.stack| + NetAll(t.children, 0);
      ItemFits(x', t, h, Depth(s.scope) + 1, |s.blocks|) && HeightAfter(x', t, h) == HeightAfter(x, t, |s.stack|) &&
      DepthAfter(x', t, Depth(s.scope) + 1) == DepthAfter(x, t, Depth(s.scope)) && Work(x', t) <= 3
    ensures var s' := BlockBegin(s);
      Running(s') && s'.stack == s.stack && Depth(s'.scope) == Depth(s.scope) + 1 && s'.blocks == s.blocks
  {
    TopFits(trees, items, t, x, s);
    StmtCases(t);
    hide Obeys, IsStmt, Fit, NetAll;
  }

  lemma {:induction false} BlockStarts(trees: seq<Tree>, items: seq<CheckItem>, t: Tree, x: CheckItem, s: Checking)
    requires |trees| == |items| && Ready(trees + [t], items + [x], s) && x.stage == 0 && t.kind == Block
    ensures Advances(trees + [t], items + [x], s,
                     trees + [t] + From(t.children, 0),
                     items + [CheckItem(1, x.node, InBlock(|s.stack|))] + ChildItems(x.node, t, 0), BlockBegin(s))
  {
    hide *;
    BlockReady(trees, items, t, x, s);
    ResumeStart(x, t, s);
    BlockResumes(t, s, x.node);
    var x' := CheckItem(1, x.node, InBlock(|s.stack|));
    FitLater(trees, items, t, x, s, x', |s.stack| + NetAll(t.children, 0), Depth(s.scope) + 1, |s.blocks|);
    StepAll(trees, items, t, x, s, x', x.node, BlockBegin(s));
  }

  lemma {:induction false} ReturnStarts(trees: seq<Tree>, items: seq<CheckItem>, t: Tree, x: CheckItem, s: Checking)
    requires |trees| == |items| && Ready(trees + [t], items + [x], s) && x.stage == 0 && t.kind == Return
    requires |t.children| == 1
    ensures Advances(trees + [t], items + [x], s, trees + [t] + From(t.children, 0),
      items + [x.(stage := 1)] + ChildItems(x.node, t, 0), s)
  {
    TopFits(trees, items, t, x, s);
    StmtCases(t);
    ObeysNet(t.children[0]);
    hide Obeys, IsStmt, Fit, CheckAll, From, ChildItems;
    assert NetAll(t.children, 0) == 1 + NetAll(t.children, 1);
    FitLater(trees, items, t, x, s, x.(stage := 1), |s.stack| + 1, Depth(s.scope), |s.blocks|);
    StepAll(trees, items, t, x, s, x.(stage := 1), x.node, s);
  }

  lemma {:induction false} IfStarts(trees: seq<Tree>, items: seq<CheckItem>, t: Tree, x: CheckItem, s: Checking,
                                    node: nat)
    requires |trees| == |items| && Ready(trees + [t], items + [x], s) && x.stage == 0 && t.kind == If
    requires |t.children| > 0
    ensures Advances(trees + [t], items + [x], s, trees + [t] + [t.children[0]],
      items + [x.(stage := 1)] + [Item(node)], s)
  {
    TopFits(trees, items, t, x, s);
    StmtCases(t);
    ObeysNet(t.children[0]);
    SizeIs(t);
    IfResumes(t, s, x);
    hide Obeys, IsStmt, IsIf, Fit, IfFromThen, Check, Resume, Size;
    ResumeStart(x, t, s);
    FitLater(trees, items, t, x, s, x.(stage := 1), |s.stack| + 1, Depth(s.scope), |s.blocks|);
    StepOne(trees, items, t, x, s, x.(stage := 1), node, t.children[0], s);
  }

  lemma {:induction false} IfBranches(t: Tree)
    requires IsIf(t)
    ensures IsStmt(t.children[1]) && Net(t.children[1]) == 0
    ensures |t.children| == 3 ==> IsStmt(t.children[2]) && Net(t.children[2]) == 0
  {
    assert IsBlock(t.children[1]);
    assert |t.children| == 3 ==> IsBlock(t.children[2]) || IsIf(t.children[2]);
  }

  lemma {:induction false} IfThens(trees: seq<Tree>, items: seq<CheckItem>, t: Tree, x: CheckItem, s: Checking,
                                   node: nat)
    requires |trees| == |items| && Ready(trees + [t], items + [x], s) && x.stage == 1 && t.kind == If
    requires |t.children| > 1
    ensures Advances(trees + [t], items + [x], s,
                     trees + [t] + [t.children[1]],
                     items + [CheckItem(2, x.node, InIf(Cur(s), |s.blocks|, 0))] + [Item(node)], IfThen(s))
  {
    TopFits(trees, items, t, x, s);
    IfBranches(t);
    hide Obeys, IsStmt, Fit, IfFromElse, IsIf;
    var x' := CheckItem(2, x.node, InIf(Cur(s), |s.blocks|, 0));
    FitLater(trees, items, t, x, s, x', |s.stack|, Depth(s.scope), |s.blocks| + 1);
    StepOne(trees, items, t, x, s, x', node, t.children[1], IfThen(s));
  }

  lemma {:induction false} IfElses(trees: seq<Tree>, items: seq<CheckItem>, t: Tree, x: CheckItem, s: Checking,
                                   node: nat, s': Checking)
    requires |trees| == |items| && Ready(trees + [t], items + [x], s) && x.stage == 2 && t.kind == If
    requires |t.children| == 3 && x.saved.InIf?
    requires IfElse(t, x.saved.entryTail, x.saved.thenHead, s) == Some(s')
    ensures Advances(trees + [t], items + [x], s,
                     trees + [t] + [t.children[2]],
                     items + [x.(stage := 3, saved := x.saved.(thenTail := Cur(s)))] + [Item(node)], s')
  {
    hide *;
    IfElseReady(trees, items, t, x, s, s');
    var x' := x.(stage := 3, saved := x.saved.(thenTail := Cur(s)));
    FitLater(trees, items, t, x, s, x', |s.stack| - 1, Depth(s.scope), |s'.blocks|);
    StepOne(trees, items, t, x, s, x', node, t.children[2], s');
  }

  /** What is known after the first branch of an `if`, and its last stage. */
  lemma {:induction false} IfElseReady(trees: seq<Tree>, items: seq<CheckItem>, t: Tree, x: CheckItem, s: Checking,
                                       s': Checking)
    requires |trees| == |items| && Ready(trees + [t], items + [x], s) && x.stage == 2 && t.kind == If
    requires |t.children| == 3 && x.saved.InIf?
    requires IfElse(t, x.saved.entryTail, x.saved.thenHead, s) == Some(s')
    ensures Running(s)
    ensures var x' := x.(stage := 3, saved := x.saved.(thenTail := Cur(s)));
      |s.stack| > 0 && Running(s') && ItemFits(x', t, |s.stack| - 1, Depth(s.scope), |s'.blocks|) &&
      HeightAfter(x', t, |s.stack| - 1) == HeightAfter(x, t, |s.stack|) &&
      DepthAfter(x', t, Depth(s.scope)) == DepthAfter(x, t, Depth(s.scope)) &&
      Work(x', t) + 4 * Size(t.children[2]) < Work(x, t)
    ensures Resume(x, t, s) == match Check(t.children[2], s') case None => None
      case Some(s1) => Resume(x.(stage := 3, saved := x.saved.(thenTail := Cur(s))), t, s1)
    ensures |s'.stack| == |s.stack| - 1 && s'.scope == s.scope && |s.blocks| < |s'.blocks| && Depth(s.scope) > 0
    ensures IsStmt(t.children[2]) && Net(t.children[2]) == 0
  {
    TopFits(trees, items, t, x, s);
    IfBranches(t);
    hide Obeys, IsStmt, Fit, IsIf, Check, Size, Net;
    assert Sizes(t.children, 2) == Size(t.children[2]) + Sizes(t.children, 3);
  }

  /** What is known when a `while` is first looked at, and its next stage. */
  lemma {:induction false} WhileReady(trees: seq<Tree>, items: seq<CheckItem>, t: Tree, x: CheckItem, s: Checking)
    requires |trees| == |items| && Ready(trees + [t], items + [x], s) && x.stage == 0 && t.kind == While
    ensures Running(s) && IsWhile(t) && |t.children| == 2 && IsStmt(t.children[0]) && Net(t.children[0]) == 1
    ensures var x' := CheckItem(1, x.node, InWhile(|s.blocks|, 0, 0));
      ItemFits(x', t, |s.stack| + 1, Depth(s.scope), |s.blocks| + 1) &&
      HeightAfter(x', t, |s.stack| + 1) == HeightAfter(x, t, |s.stack|) &&
      DepthAfter(x', t, Depth(s.scope)) == DepthAfter(x, t, Depth(s.scope)) &&
      Work(x', t) + 4 * Size(t.children[0]) < Work(x, t)
    ensures var s' := WhileBegin(s);
      Running(s') && |s'.stack| == |s.stack| && s'.scope == s.scope && |s'.blocks| == |s.blocks| + 1 &&
      Depth(s.scope) > 0
  {
    TopFits(trees, items, t, x, s);
    StmtCases(t);
    ObeysNet(t.children[0]);
    SizeIs(t);
    hide Obeys, IsStmt, Fit, Size;
  }

  lemma {:induction false} WhileStarts(trees: seq<Tree>, items: seq<CheckItem>, t: Tree, x: CheckItem, s: Checking,
                                       node: nat)
    requires |trees| == |items| && Ready(trees + [t], items + [x], s) && x.stage == 0 && t.kind == While
    requires |t.children| > 0
    ensures Advances(trees + [t], items + [x], s,
                     trees + [t] + [t.children[0]],
                     items + [CheckItem(1, x.node, InWhile(|s.blocks|, 0, 0))] + [Item(node)], WhileBegin(s))
  {
    hide *;
    WhileReady(trees, items, t, x, s);
    ResumeStart(x, t, s);
    WhileResumes(t, s, x.node);
    var x' := CheckItem(1, x.node, InWhile(|s.blocks|, 0, 0));
    FitLater(trees, items, t, x, s, x', |s.stack| + 1, Depth(s.scope), |s.blocks| + 1);
    StepOne(trees, items, t, x, s, x', node, t.children[0], WhileBegin(s));
  }

  lemma {:induction false} WhileBodies(trees: seq<Tree>, items: seq<CheckItem>, t: Tree, x: CheckItem, s: Checking,
                                       node: nat)
    requires |trees| == |items| && Ready(trees + [t], items + [x], s) && x.stage == 1 && t.kind == While
    requires |t.children| > 1 && x.saved.InWhile?
    ensures Advances(trees + [t], items + [x], s, trees + [t] + [t.children[1]],
                     items + [x.(stage := 2, saved := x.saved.(entryTail := Cur(s), bodyHead := |s.blocks|))] +
                     [Item(node)], NewBlock(s))
  {
    TopFits(trees, items, t, x, s);
    assert IsBlock(t.children[1]);
    hide Obeys, IsStmt, Fit, IsWhile, IsBlock;
    var x' := x.(stage := 2, saved := x.saved.(entryTail := Cur(s), bodyHead := |s.blocks|));
    FitLater(trees, items, t, x, s, x', |s.stack|, Depth(s.scope), |s.blocks| + 1);
    StepOne(trees, items, t, x, s, x', node, t.children[1], NewBlock(s));
  }

  // ----- last stages -----

  /** A leaf is done at once. */
  lemma {:induction false} LeafStep(trees: seq<Tree>, items: seq<CheckItem>, t: Tree, x: CheckItem, s: Checking)
    requires |trees| == |items| && Ready(trees + [t], items + [x], s) && x.stage == 0
    requires t.kind == Integer || t.kind == Symbol
    ensures Check(t, s) == None ==> Finish(trees + [t], items + [x], s) == None
    ensures Check(t, s).Some? ==> Advances(trees + [t], items + [x], s, trees, items, Check(t, s).value)
  {
    if Check(t, s).Some? {
      StepEnds(trees, items, t, x, s, Check(t, s).value);
    } else {
      StepFails(trees, items, t, x, s);
    }
  }

  lemma {:induction false} LocalStep(trees: seq<Tree>, items: seq<CheckItem>, t: Tree, x: CheckItem, s: Checking)
    requires |trees| == |items| && Ready(trees + [t], items + [x], s) && x.stage == 0 && t.kind == Local
    ensures s.scope.Scope? && IsLocal(t)
    ensures Check(t, s) == None ==> Finish(trees + [t], items + [x], s) == None
    ensures Check(t, s).Some? ==> Advances(trees + [t], items + [x], s, trees, items, Check(t, s).value)
  {
    TopFits(trees, items, t, x, s);
    StmtCases(t);
    if Check(t, s).Some? {
      StepEnds(trees, items, t, x, s, Check(t, s).value);
    } else {
      StepFails(trees, items, t, x, s);
    }
  }

  lemma {:induction false} BinaryResult(t: Tree, s: Checking)
    requires Running(s) && Arithmetic(t.kind) && |s.stack| >= 2
    ensures BinaryEnd(t, s).Some?
    ensures var s' := BinaryEnd(t, s).value;
      |s'.stack| == |s.stack| - 1 && s'.scope == s.scope && |s'.blocks| == |s.blocks|
  {}

  lemma {:induction false} AssignResult(s: Checking)
    requires Running(s) && |s.stack| >= 2
    ensures AssignEnd(s).Some?
    ensures var s' := AssignEnd(s).value;
      |s'.stack| == |s.stack| - 1 && s'.scope == s.scope && |s'.blocks| == |s.blocks|
  {}

  lemma {:induction false} OperatorResumes(x: CheckItem, t: Tree, s: Checking, h: nat, depth: nat, blocks: nat)
    requires Running(s) && x.stage != 0 && Operator(t.kind) && ItemFits(x, t, h, depth, blocks)
    ensures Resume(x, t, s) == (if t.kind == Assign then AssignEnd(s) else BinaryEnd(t, s)) && h >= 2 && Work(x, t) > 0
    ensures HeightAfter(x, t, h) == h - 1 && DepthAfter(x, t, depth) == depth
  {}

  lemma {:induction false} OperatorEnds(trees: seq<Tree>, items: seq<CheckItem>, t: Tree, x: CheckItem, s: Checking)
    requires |trees| == |items| && Ready(trees + [t], items + [x], s) && x.stage != 0 && Operator(t.kind)
    ensures |s.stack| >= 2 && Resume(x, t, s).Some?
    ensures Advances(trees + [t], items + [x], s, trees, items, Resume(x, t, s).value)
    ensures Resume(x, t, s) == if t.kind == Assign then AssignEnd(s) else BinaryEnd(t, s)
  {
    hide Ready, Fit, ItemFits, Resume, Advances, AssignEnd, BinaryEnd, Work, HeightAfter, DepthAfter;
    ReadyRuns(trees + [t], items + [x], s);
    TopFits(trees, items, t, x, s);
    OperatorResumes(x, t, s, |s.stack|, Depth(s.scope), |s.blocks|);
    if t.kind == Assign {
      AssignResult(s);
    } else {
      BinaryResult(t, s);
    }
    StepEnds(trees, items, t, x, s, Resume(x, t, s).value);
  }

  lemma {:induction false} ReadyRuns(trees: seq<Tree>, items: seq<CheckItem>, s: Checking)
    requires Ready(trees, items, s)
    ensures Running(s)
  {}

  lemma {:induction false} AssignTarget(trees: seq<Tree>, items: seq<CheckItem>, t: Tree, x: CheckItem, s: Checking)
    requires |trees| == |items| && Ready(trees + [t], items + [x], s) && x.stage == 0 && t.kind == Assign
    ensures |t.children| == 2 && (t.children[0].kind != Symbol ==> Finish(trees + [t], items + [x], s) == None)
  {
    TopFits(trees, items, t, x, s);
    OperatorObeys(t);
    if t.children[0].kind != Symbol {
      StepFails(trees, items, t, x, s);
    }
  }

  lemma {:induction false} BlockEnds(trees: seq<Tree>, items: seq<CheckItem>, t: Tree, x: CheckItem, s: Checking)
    requires |trees| == |items| && Ready(trees + [t], items + [x], s) && x.stage != 0 && t.kind == Block
    ensures x.saved.InBlock? && x.saved.initialStack <= |s.stack| && s.scope.Scope?
    ensures Advances(trees + [t], items + [x], s, trees, items,
      s.(scope := s.scope.parent, stack := s.stack[..x.saved.initialStack]))
  {
    TopFits(trees, items, t, x, s);
    assert s.stack[..|s.stack|] == s.stack;
    StepEnds(trees, items, t, x, s, BlockEnd(x.saved.initialStack, s).value);
  }

  lemma {:induction false} IfShapes(trees: seq<Tree>, items: seq<CheckItem>, t: Tree, x: CheckItem, s: Checking)
    requires |trees| == |items| && Ready(trees + [t], items + [x], s) && t.kind == If
    ensures 2 <= |t.children| <= 3 && x.stage <= 3
    ensures 0 < x.stage < 3 ==> |s.stack| > 0
    ensures x.stage > 1 ==> x.saved.InIf?
    ensures (x.stage == 2 ==> x.saved.entryTail < |s.blocks|) && (x.stage == 3 ==> x.saved.thenTail < |s.blocks|)
  {
    TopFits(trees, items, t, x, s);
    StmtCases(t);
  }

  lemma {:induction false} IfThird(trees: seq<Tree>, items: seq<CheckItem>, t: Tree, x: CheckItem, s: Checking)
    requires |trees| == |items| && Ready(trees + [t], items + [x], s) && t.kind == If && x.stage == 3
    ensures x.saved.InIf? && IfEnd(x.saved.thenTail, s).Some?
    ensures Advances(trees + [t], items + [x], s, trees, items, IfEnd(x.saved.thenTail, s).value)
  {
    TopFits(trees, items, t, x, s);
    StepEnds(trees, items, t, x, s, IfEnd(x.saved.thenTail, s).value);
  }

  lemma {:induction false} IfEnds(trees: seq<Tree>, items: seq<CheckItem>, t: Tree, x: CheckItem, s: Checking,
                                  s': Checking)
    requires |trees| == |items| && Ready(trees + [t], items + [x], s) && t.kind == If && x.stage == 2
    requires x.saved.InIf? && |t.children| == 2
    requires IfElse(t, x.saved.entryTail, x.saved.thenHead, s) == Some(s')
    ensures Advances(trees + [t], items + [x], s, trees, items, s')
  {
    TopFits(trees, items, t, x, s);
    StepEnds(trees, items, t, x, s, s');
  }

  lemma {:induction false} WhileShapes(trees: seq<Tree>, items: seq<CheckItem>, t: Tree, x: CheckItem, s: Checking)
    requires |trees| == |items| && Ready(trees + [t], items + [x], s) && t.kind == While
    ensures |t.children| == 2 && x.stage <= 2 && (x.stage > 0 ==> x.saved.InWhile? && |s.stack| > 0)
    ensures x.stage == 2 ==> x.saved.entryTail < |s.blocks|
  {
    TopFits(trees, items, t, x, s);
    StmtCases(t);
  }

  lemma {:induction false} WhileEnds(trees: seq<Tree>, items: seq<CheckItem>, t: Tree, x: CheckItem, s: Checking)
    requires |trees| == |items| && Ready(trees + [t], items + [x], s) && t.kind == While && x.stage == 2
    ensures x.saved.InWhile? && WhileEnd(x.saved.entryHead, x.saved.entryTail, x.saved.bodyHead, s).Some?
    ensures Advances(trees + [t], items + [x], s, trees, items,
      WhileEnd(x.saved.entryHead, x.saved.entryTail, x.saved.bodyHead, s).value)
  {
    TopFits(trees, items, t, x, s);
    StepEnds(trees, items, t, x, s, WhileEnd(x.saved.entryHead, x.saved.entryTail, x.saved.bodyHead, s).value);
  }

  lemma {:induction false} ReturnShapes(trees: seq<Tree>, items: seq<CheckItem>, t: Tree, x: CheckItem, s: Checking)
    requires |trees| == |items| && Ready(trees + [t], items + [x], s) && t.kind == Return
    ensures |t.children| <= 1 && (x.stage != 0 ==> |s.stack| > 0)
    ensures var n := if x.stage == 0 then 0 else 1;
      (x.stage == 0 ==> |t.children| == 0) ==>
        ReturnEnd(n, s).Some? && Advances(trees + [t], items + [x], s, trees, items, ReturnEnd(n, s).value)
  {
    hide *;
    var n := if x.stage == 0 then 0 else 1;
    ReturnReady(trees, items, t, x, s);
    if x.stage == 0 ==> |t.children| == 0 {
      StepEnds(trees, items, t, x, s, ReturnEnd(n, s).value);
    }
  }

  /** What is known when a `return` has nothing left to wait for. */
  lemma {:induction false} ReturnReady(trees: seq<Tree>, items: seq<CheckItem>, t: Tree, x: CheckItem, s: Checking)
    requires |trees| == |items| && Ready(trees + [t], items + [x], s) && t.kind == Return
    ensures Running(s) && |t.children| <= 1 && (x.stage != 0 ==> |s.stack| > 0) && Work(x, t) > 0
    ensures var n := if x.stage == 0 then 0 else 1;
      (x.stage == 0 ==> |t.children| == 0) ==>
        ReturnEnd(n, s).Some? && Resume(x, t, s) == ReturnEnd(n, s) &&
        var s' := ReturnEnd(n, s).value;
        |s'.stack| == HeightAfter(x, t, |s.stack|) && Depth(s'.scope) == DepthAfter(x, t, Depth(s.scope)) &&
        |s.blocks| <= |s'.blocks|
  {
    TopFits(trees, items, t, x, s);
    hide *;
    SizeIs(t);
    ReturnFits(t, x, s);
    ReturnEnds(if x.stage == 0 then 0 else 1, s);
    if x.stage == 0 && |t.children| == 0 {
      ReturnAlone(t, s);
      ResumeStart(x, t, s);
    } else if x.stage != 0 {
      ReturnResumes(x, t, s);
    }
  }

  lemma {:induction false} ReturnFits(t: Tree, x: CheckItem, s: Checking)
    requires t.kind == Return && Size(t) > 0 && ItemFits(x, t, |s.stack|, Depth(s.scope), |s.blocks|)
    ensures |t.children| <= 1 && (x.stage != 0 ==> |s.stack| > 0) && Work(x, t) > 0
    ensures Depth(s.scope) == DepthAfter(x, t, Depth(s.scope))
    ensures HeightAfter(x, t, |s.stack|) == |s.stack| + if x.stage == 0 then 1 else 0
  {
    if x.stage == 0 {
      StmtCases(t);
    }
    hide Obeys, IsStmt, Size, Check, IsBlock, IsIf, IsWhile, IsLocal;
  }

  lemma {:induction false} ReturnEnds(n: nat, s: Checking)
    requires Running(s) && n <= |s.stack|
    ensures ReturnEnd(n, s).Some? && |ReturnEnd(n, s).value.stack| == |s.stack| - n + 1
    ensures ReturnEnd(n, s).value.scope == s.scope && |s.blocks| <= |ReturnEnd(n, s).value.blocks|
  {}

  lemma {:induction false} ReturnAlone(t: Tree, s: Checking)
    requires Running(s) && t.kind == Return && |t.children| == 0
    ensures Check(t, s) == ReturnEnd(0, s)
  {}

  lemma {:induction false} ReturnResumes(x: CheckItem, t: Tree, s: Checking)
    requires Running(s) && t.kind == Return && x.stage != 0
    ensures Resume(x, t, s) == ReturnEnd(1, s)
  {
    hide ReturnEnd;
  }

  lemma {:induction false} KindOk(trees: seq<Tree>, items: seq<CheckItem>, t: Tree, x: CheckItem, s: Checking)
    requires |trees| == |items| && Ready(trees + [t], items + [x], s)
    ensures t.kind != Identifier && t.kind != Typename
    ensures t.kind == Integer || t.kind == Symbol || t.kind == Local ==> x.stage == 0
  {
    TopFits(trees, items, t, x, s);
    if x.stage == 0 {
      StmtCases(t);
      assert Obeys(t) ==> t.kind != Identifier && t.kind != Typename;
    }
  }

  // ----- the first item, and none -----

  lemma {:induction false} WholeArray(nodes: seq<ParseNode>, t: Tree)
    requires nodes == Post(t)
    ensures |nodes| > 0 && RootAt(nodes, |nodes| - 1, t)
  {
    assert nodes[0..] == nodes;
  }

  lemma {:induction false} FirstItem(node: nat, t: Tree)
    requires IsBlock(t)
    ensures Ready([t], [Item(node)], Initial()) && Finish([t], [Item(node)], Initial()) == Check(t, Initial())
  {
    assert [] + [t] == [t] && [] + [Item(node)] == [Item(node)];
    FinishTop([], [], t, Item(node), Initial());
    FitTop([], [], t, Item(node), 0, 0, 1);
  }

  lemma {:induction false} StepKept(trees: seq<Tree>, items: seq<CheckItem>, s: Checking, trees': seq<Tree>,
                                    items': seq<CheckItem>, s': Checking)
    requires Advances(trees, items, s, trees', items', s')
    ensures |trees| == |items| && |trees'| == |items'| && Running(s) && Running(s') && Ready(trees', items', s')
    ensures Finish(trees, items, s) == Finish(trees', items', s') && WorkAll(trees', items') < WorkAll(trees, items)
  {}

  lemma {:induction false} NothingLeft(s: Checking)
    requires Running(s)
    ensures Finish([], [], s) == Some(s)
  {}
}
