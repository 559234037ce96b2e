/** Dropping the blocks that are never reached, and complaining about those that hold user code. */
module Analysis {
  import opened Cfgs

  function Successors(code: seq<Inst>): (r: seq<BlockId>)
    ensures forall t :: t in r <==> Succ(code, t)
  {
    if |code| == 0 then []
    else
      match code[|code| - 1].op
      case Goto(t) => [t]
      case Branch(t, e) => [t, e]
      case _ => []
  }

  /** The blocks of `order` in `kept`, in the same order. */
  function Kept(order: seq<BlockId>, kept: set<BlockId>): seq<BlockId> {
    if |order| == 0 then []
    else Kept(order[..|order| - 1], kept) + if order[|order| - 1] in kept then [order[|order| - 1]] else []
  }

  lemma {:induction false} KeptStep(order: seq<BlockId>, kept: set<BlockId>)
    requires |order| > 0
    ensures var rest, b := order[..|order| - 1], order[|order| - 1];
      Kept(order, kept) == Kept(rest, kept) + (if b in kept then [b] else []) && order == rest + [b]
  {}

  lemma {:induction false} KeptHas(order: seq<BlockId>, kept: set<BlockId>)
    ensures forall b :: b in Kept(order, kept) <==> b in order && b in kept
    decreases |order|
  {
    if |order| > 0 {
      KeptHas(order[..|order| - 1], kept);
      KeptStep(order, kept);
      hide Kept;
    }
  }

  lemma {:induction false} KeptOnce(order: seq<BlockId>, kept: set<BlockId>)
    requires forall i, j :: 0 <= i < j < |order| ==> order[i] != order[j]
    ensures forall i, j :: 0 <= i < j < |Kept(order, kept)| ==> Kept(order, kept)[i] != Kept(order, kept)[j]
    decreases |order|
  {
    if |order| > 0 {
      KeptOnce(order[..|order| - 1], kept);
      KeptHas(order[..|order| - 1], kept);
      KeptStep(order, kept);
      hide Kept;
    }
  }

  lemma {:induction false} KeptFirst(order: seq<BlockId>, kept: set<BlockId>)
    requires |order| > 0 && order[0] in kept
    ensures |Kept(order, kept)| > 0 && Kept(order, kept)[0] == order[0]
    decreases |order|
  {
    KeptStep(order, kept);
    if |order| > 1 {
      KeptFirst(order[..|order| - 1], kept);
    } else {
      KeptHas(order, kept);
    }
    hide Kept;
  }

  lemma {:induction false} KeptIs(order: seq<BlockId>, kept: set<BlockId>)
    ensures forall b :: b in Kept(order, kept) <==> b in order && b in kept
    ensures (forall i, j :: 0 <= i < j < |order| ==> order[i] != order[j]) ==>
      forall i, j :: 0 <= i < j < |Kept(order, kept)| ==> Kept(order, kept)[i] != Kept(order, kept)[j]
    ensures |order| > 0 && order[0] in kept ==> |Kept(order, kept)| > 0 && Kept(order, kept)[0] == order[0]
  {
    KeptHas(order, kept);
    if forall i, j :: 0 <= i < j < |order| ==> order[i] != order[j] {
      KeptOnce(order, kept);
    }
    if |order| > 0 && order[0] in kept {
      KeptFirst(order, kept);
    }
    hide Kept;
  }

  /** `found` is exactly what the entry leads to. */
  ghost predicate Reachable(c: Cfg, found: set<BlockId>) {
    ForwardClosed(c, found) && forall K :: ForwardClosed(c, K) ==> found <= K
  }

  /** The blocks the entry leads to. */
  ghost function Entered(c: Cfg): set<BlockId> {
    set b | b in c.order && forall K :: ForwardClosed(c, K) ==> b in K
  }

  lemma {:induction false} EnteredIs(c: Cfg, found: set<BlockId>)
    requires Listed(c) && Reachable(c, found)
    ensures found == Entered(c)
  {
    assert ForwardClosed(c, set b | b in c.order);
  }

  ghost predicate Searching(c: Cfg, found: set<BlockId>, stack: seq<BlockId>) {
    (forall b :: b in found || b in stack ==> b in c.order) && |c.order| > 0 &&
    (c.order[0] in found || c.order[0] in stack) &&
    (forall b, t :: b in found && b < |c.blocks| && Succ(c.blocks[b].code, t) ==> t in found || t in stack) &&
    forall K :: ForwardClosed(c, K) ==> found <= K && forall b :: b in stack ==> b in K
  }

  method FindReachable(c: Cfg) returns (found: set<BlockId>)
    requires Listed(c)
    ensures Reachable(c, found) && forall b :: b in found ==> b in c.order
  {
    found := {};
    var stack := [c.order[0]];
    assert Searching(c, found, stack) by {
      assert c.order[0] in c.order;
    }
    while |stack| > 0
      invariant Listed(c) && Searching(c, found, stack)
      decreases (set b | b in c.order) - found, |stack|
    {
      var b, rest := stack[|stack| - 1], stack[..|stack| - 1];
      assert stack == rest + [b];
      if b in found {
        SkipBlock(c, found, rest, b);
        stack := rest;
      } else {
        var next := Successors(c.blocks[b].code);
        VisitBlock(c, found, rest, b);
        assert b in (set b | b in c.order) - found;
        found := found + {b};
        stack := rest + next;
      }
    }
    assert forall b :: b in found ==> b in c.order;
  }

  lemma {:induction false} SkipBlock(c: Cfg, found: set<BlockId>, rest: seq<BlockId>, b: BlockId)
    requires Listed(c) && Searching(c, found, rest + [b]) && b in found
    ensures Searching(c, found, rest)
  {
    assert forall x :: x in rest ==> x in rest + [b];
    assert forall x :: x in rest + [b] ==> x in rest || x == b;
  }

  lemma {:induction false} VisitBlock(c: Cfg, found: set<BlockId>, rest: seq<BlockId>, b: BlockId)
    requires Listed(c) && Searching(c, found, rest + [b])
    ensures b in c.order && b < |c.blocks| && Searching(c, found + {b}, rest + Successors(c.blocks[b].code))
  {
    var next := Successors(c.blocks[b].code);
    assert b in rest + [b];
    assert forall x :: x in rest ==> x in rest + [b];
    assert forall x :: x in rest + [b] ==> x in rest || x == b;
    assert forall x :: x in rest + next <==> x in rest || x in next;
    forall K | ForwardClosed(c, K)
      ensures found + {b} <= K && forall x :: x in rest + next ==> x in K
    {
      assert b in K;
    }
  }

  /** Keeps the blocks that are reached. Succeeds if no block that is dropped holds user code. */
  method AnalyzeFunc(c: Cfg) returns (success: bool, pruned: Cfg)
    requires Listed(c)
    ensures pruned == c.(order := Kept(c.order, Entered(c))) && Reachable(c, Entered(c))
    ensures success <==> forall b :: b in c.order && b !in Entered(c) ==> !c.blocks[b].usercode
    ensures (forall b :: b in c.order ==> Flagged(c.blocks[b])) ==> (success <==> OnlyJumpsLeft(c))
  {
    hide Listed, Reachable, Kept, Entered, OnlyJumpsLeft, Flagged;
    var reachable := FindReachable(c);
    ghost var found := reachable;
    EnteredIs(c, found);
    success := true;
    var order, i := c.order, 0;
    ghost var head: seq<BlockId>, tail := [], c.order;
    NoneKept(c, found);
    while i < |order|
      invariant 0 <= i <= |order| && order == head + tail && i == |head| && Pruning(c, found, head, tail, success)
      decreases |tail|
    {
      var b := order[i];
      PruneStep(c, found, head, tail, success);
      Middle(head, tail);
      if b in reachable {
        i := i + 1;
        head := head + [b];
      } else {
        if c.blocks[b].usercode {
          success := false;
        }
        order := order[..i] + order[i + 1..];
      }
      tail := tail[1..];
    }
    assert tail == [] && order == head;
    AllPruned(c, found, head, success);
    pruned := c.(order := order);
    FlagsTell(c);
  }

  /** Every block that is not entered holds nothing but the jumps that come with `if` and `while`. */
  ghost predicate OnlyJumpsLeft(c: Cfg) {
    forall b, k :: b in c.order && b < |c.blocks| && b !in Entered(c) && 0 <= k < |c.blocks[b].code| ==>
      c.blocks[b].code[k].op.Goto? || c.blocks[b].code[k].op.Branch?
  }

  lemma {:induction false} FlagsTell(c: Cfg)
    requires Listed(c)
    ensures (forall b :: b in c.order ==> Flagged(c.blocks[b])) ==>
      (OnlyJumpsLeft(c) <==> forall b :: b in c.order && b !in Entered(c) ==> !c.blocks[b].usercode)
  {
    hide Entered;
    if !OnlyJumpsLeft(c) {
      var b, k :| b in c.order && b < |c.blocks| && b !in Entered(c) && 0 <= k < |c.blocks[b].code| &&
        !c.blocks[b].code[k].op.Goto? && !c.blocks[b].code[k].op.Branch?;
      assert Flagged(c.blocks[b]) ==> c.blocks[b].usercode;
    }
  }

  predicate NoneUser(c: Cfg, found: set<BlockId>, order: seq<BlockId>) {
    forall b :: b in order && b !in found && b < |c.blocks| ==> !c.blocks[b].usercode
  }

  /** The blocks before `tail` have been gone through: those kept are `head`. */
  ghost predicate Pruning(c: Cfg, found: set<BlockId>, head: seq<BlockId>, tail: seq<BlockId>, success: bool) {
    |tail| <= |c.order| && c.order[|c.order| - |tail|..] == tail &&
    Kept(c.order[..|c.order| - |tail|], found) == head &&
    (success <==> NoneUser(c, found, c.order[..|c.order| - |tail|]))
  }

  lemma {:induction false} NoneKept(c: Cfg, found: set<BlockId>)
    ensures Pruning(c, found, [], c.order, true)
  {
    assert c.order[0..] == c.order && c.order[..0] == [];
  }

  lemma {:induction false} AllPruned(c: Cfg, found: set<BlockId>, head: seq<BlockId>, success: bool)
    requires Listed(c) && Pruning(c, found, head, [], success)
    ensures head == Kept(c.order, found)
    ensures success <==> forall b :: b in c.order && b !in found ==> !c.blocks[b].usercode
  {
    assert c.order[..|c.order|] == c.order;
  }

  lemma {:induction false} NextOf(order: seq<BlockId>, tail: seq<BlockId>)
    requires 0 < |tail| <= |order| && order[|order| - |tail|..] == tail
    ensures var k := |order| - |tail|;
      tail[0] == order[k] && order[k + 1..] == tail[1..] && order[..k + 1] == order[..k] + [tail[0]]
  {}

  lemma {:induction false} NoneUserStep(c: Cfg, found: set<BlockId>, order: seq<BlockId>, b: BlockId)
    requires b < |c.blocks|
    ensures NoneUser(c, found, order + [b]) <==> NoneUser(c, found, order) && (b in found || !c.blocks[b].usercode)
  {
    assert b in order + [b];
  }

  lemma {:induction false} PruneStep(c: Cfg, found: set<BlockId>, head: seq<BlockId>, tail: seq<BlockId>, success: bool)
    requires Listed(c) && Pruning(c, found, head, tail, success) && |tail| > 0
    ensures tail[0] < |c.blocks|
    ensures var b := tail[0];
      Pruning(c, found, if b in found then head + [b] else head, tail[1..],
              success && (b in found || !c.blocks[b].usercode))
  {
    NextOf(c.order, tail);
    var k := |c.order| - |tail|;
    KeptStep(c.order[..k + 1], found);
    ListedAt(c, k);
    NoneUserStep(c, found, c.order[..k], tail[0]);
    hide Kept, Listed, NoneUser;
    assert c.order[..k + 1][..k] == c.order[..k];
  }

  lemma ListedAt(c: Cfg, k: nat)
    requires Listed(c) && k < |c.order|
    ensures c.order[k] < |c.blocks|
  {}

  lemma {:induction false} Middle(head: seq<BlockId>, tail: seq<BlockId>)
    requires |tail| > 0
    ensures (head + tail)[|head|] == tail[0]
    ensures (head + tail)[..|head|] + (head + tail)[|head| + 1..] == head + tail[1..]
    ensures head + tail == (head + [tail[0]]) + tail[1..]
  {}

  // ----- what is left can be lowered -----

  lemma {:induction false} PrunedForward(c: Cfg, found: set<BlockId>, K: set<BlockId>)
    requires Listed(c) && Reachable(c, found) && ForwardClosed(c.(order := Kept(c.order, found)), K)
    ensures found <= K
  {
    KeptIs(c.order, found);
    var inner := K * found;
    forall b, t | b in inner && b in c.order && Succ(c.blocks[b].code, t)
      ensures t in inner
    {
      assert b in Kept(c.order, found);
    }
    assert ForwardClosed(c, inner);
  }

  lemma {:induction false} PrunedBackward(c: Cfg, found: set<BlockId>, K: set<BlockId>)
    requires Listed(c) && Reachable(c, found) && BackwardClosed(c.(order := Kept(c.order, found)), K)
    requires forall K :: BackwardClosed(c, K) ==> forall b :: b in c.order ==> b in K
    ensures forall b :: b in Kept(c.order, found) ==> b in K
  {
    KeptIs(c.order, found);
    var outer := K + set b | b in c.order && b !in found;
    forall b | b in c.order && Exits(c.blocks[b].code)
      ensures b in outer
    {
      assert b in found ==> b in Kept(c.order, found);
    }
    forall b, t | b in c.order && t in outer && Succ(c.blocks[b].code, t)
      ensures b in outer
    {
      if b in found {
        assert b in Kept(c.order, found) && t in found;
      }
    }
    assert BackwardClosed(c, outer);
  }

  /** If all blocks have good code and a way out, the blocks that are reached make a graph that can be lowered. */
  lemma {:induction false} PrunedGood(c: Cfg, found: set<BlockId>)
    requires Listed(c) && Reachable(c, found) && forall b :: b in c.order ==> GoodCode(c.blocks[b].code, c.places)
    requires forall K :: BackwardClosed(c, K) ==> forall b :: b in c.order ==> b in K
    ensures GoodCfg(c.(order := Kept(c.order, found))) && Kept(c.order, found)[0] == c.order[0]
  {
    KeptIs(c.order, found);
    var d := c.(order := Kept(c.order, found));
    assert c.order[0] in found;
    forall i | 0 <= i < |d.order|
      ensures d.order[i] < |d.blocks|
    {
      assert d.order[i] in c.order;
    }
    forall b, t | b in d.order && Succ(d.blocks[b].code, t)
      ensures t in d.order
    {
      assert t in found;
    }
    forall K | ForwardClosed(d, K)
      ensures forall b :: b in d.order ==> b in K
    {
      PrunedForward(c, found, K);
    }
    forall K | BackwardClosed(d, K)
      ensures forall b :: b in d.order ==> b in K
    {
      PrunedBackward(c, found, K);
    }
  }
}
