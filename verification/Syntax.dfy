/** Tokens, syntax trees, and the array the parser writes trees into: children before their parent. */
module Syntax {
  datatype Token =
    | Eof
    | IntegerLit(text: string)
    | Name(text: string)
    | KeywordIf | KeywordElse | KeywordWhile | KeywordReturn
    | Mark(c: char)

  datatype Kind =
    | Integer | Add | Sub | Mul | Div | Assign | Block | Identifier | Typename | Local | Symbol | If | While | Return

  datatype ParseNode = ParseNode(kind: Kind, token: Token, numChildren: nat, subtreeSize: nat)

  datatype Tree = Tree(kind: Kind, token: Token, children: seq<Tree>)

  function Size(t: Tree): (n: nat)
    ensures n > 0
  {
    1 + SizeAll(t.children)
  }

  function SizeAll(ts: seq<Tree>): nat {
    if |ts| == 0 then 0 else SizeAll(ts[..|ts| - 1]) + Size(ts[|ts| - 1])
  }

  /** The array form of a tree. */
  function Post(t: Tree): (nodes: seq<ParseNode>)
    ensures |nodes| == Size(t)
  {
    PostAll(t.children) + [ParseNode(t.kind, t.token, |t.children|, Size(t))]
  }

  function PostAll(ts: seq<Tree>): (nodes: seq<ParseNode>)
    ensures |nodes| == SizeAll(ts)
  {
    if |ts| == 0 then [] else PostAll(ts[..|ts| - 1]) + Post(ts[|ts| - 1])
  }

  lemma {:induction false} PostAppend(a: seq<Tree>, b: seq<Tree>)
    ensures PostAll(a + b) == PostAll(a) + PostAll(b) && SizeAll(a + b) == SizeAll(a) + SizeAll(b)
  {
    hide Post, PostAll, Size, SizeAll;
    if |b| == 0 {
      PostNone();
      assert a + b == a && b == [];
    } else {
      var init, last := b[..|b| - 1], b[|b| - 1];
      PostAppend(a, init);
      PostLast(a + init, last);
      PostLast(init, last);
      assert a + b == (a + init) + [last] && b == init + [last];
      assert PostAll(a) + PostAll(init) + Post(last) == PostAll(a) + (PostAll(init) + Post(last));
    }
  }

  lemma {:induction false} PostNone()
    ensures PostAll([]) == [] && SizeAll([]) == 0
  {}

  lemma {:induction false} PostLast(ts: seq<Tree>, t: Tree)
    ensures PostAll(ts + [t]) == PostAll(ts) + Post(t) && SizeAll(ts + [t]) == SizeAll(ts) + Size(t)
  {
    assert (ts + [t])[..|ts|] == ts;
  }

  lemma {:induction false} PostOne(t: Tree)
    ensures PostAll([t]) == Post(t) && SizeAll([t]) == Size(t)
  {
    assert [t][..0] == [];
  }

  /** The node at index `i` is the root of `t`, and the nodes of `t` lie just before it. */
  predicate RootAt(nodes: seq<ParseNode>, i: nat, t: Tree) {
    Size(t) <= i + 1 <= |nodes| && nodes[i + 1 - Size(t)..i + 1] == Post(t)
  }

  lemma {:induction false} RootIs(nodes: seq<ParseNode>, i: nat, t: Tree)
    requires RootAt(nodes, i, t)
    ensures i < |nodes| && nodes[i] == ParseNode(t.kind, t.token, |t.children|, Size(t))
  {
    assert nodes[i] == nodes[i + 1 - Size(t)..i + 1][Size(t) - 1];
  }

  // ----- child iteration, last child first -----

  datatype ChildIterator = ChildIterator(index: int, child: int)

  function ChildrenBegin(nodes: seq<ParseNode>, node: nat): ChildIterator
    requires node < |nodes|
  {
    ChildIterator(nodes[node].numChildren - 1, node - 1)
  }

  predicate ChildrenContinue(it: ChildIterator) {
    it.index >= 0
  }

  function ChildrenNext(nodes: seq<ParseNode>, it: ChildIterator): ChildIterator
    requires 0 <= it.child < |nodes|
  {
    ChildIterator(it.index - 1, it.child - nodes[it.child].subtreeSize)
  }

  /** Where child number `k` of the tree at `i` has its root; one before the tree if `k` is -1. */
  function ChildAt(i: nat, t: Tree, k: int): int
    requires -1 <= k < |t.children|
  {
    i - Size(t) + SizeAll(t.children[..k + 1])
  }

  lemma {:induction false} PrefixAt(ts: seq<Tree>, k: nat)
    requires k < |ts|
    ensures SizeAll(ts[..k + 1]) == SizeAll(ts[..k]) + Size(ts[k]) <= SizeAll(ts)
    ensures PostAll(ts)[SizeAll(ts[..k])..SizeAll(ts[..k + 1])] == Post(ts[k])
  {
    var a, b := ts[..k + 1], ts[k + 1..];
    assert a + b == ts && a[..|a| - 1] == ts[..k];
    PostAppend(a, b);
  }

  lemma {:induction false} Slices<T>(s: seq<T>, a: nat, b: nat, c: nat, d: nat)
    requires a <= b <= |s| && c <= d <= b - a
    ensures s[a..b][c..d] == s[a + c..a + d]
  {
    var x, y := s[a..b][c..d], s[a + c..a + d];
    assert |x| == |y| == d - c;
    assert forall k :: 0 <= k < |x| ==> x[k] == s[a + c + k] == y[k];
  }

  lemma {:induction false} Inner(t: Tree, lo: nat, hi: nat)
    requires lo <= hi <= SizeAll(t.children)
    ensures Post(t)[lo..hi] == PostAll(t.children)[lo..hi]
  {}

  /** The iterator finds every child: the root of child `k`, and from it the root of the one before. */
  lemma {:induction false} ChildDecodes(nodes: seq<ParseNode>, i: nat, t: Tree, k: nat)
    requires RootAt(nodes, i, t) && k < |t.children|
    ensures 0 <= ChildAt(i, t, k) < i && RootAt(nodes, ChildAt(i, t, k), t.children[k])
    ensures ChildrenNext(nodes, ChildIterator(k, ChildAt(i, t, k))) == ChildIterator(k - 1, ChildAt(i, t, k - 1))
  {
    PrefixAt(t.children, k);
    var lo, hi, base := SizeAll(t.children[..k]), SizeAll(t.children[..k + 1]), i + 1 - Size(t);
    Slices(nodes, base, i + 1, lo, hi);
    Inner(t, lo, hi);
    assert hi < Size(t) && nodes[base + lo..base + hi] == Post(t.children[k]);
    RootIs(nodes, ChildAt(i, t, k), t.children[k]);
  }

  lemma {:induction false} ChildrenBeginAt(nodes: seq<ParseNode>, i: nat, t: Tree)
    requires RootAt(nodes, i, t)
    ensures ChildrenBegin(nodes, i) == ChildIterator(|t.children| - 1, ChildAt(i, t, |t.children| - 1))
  {
    RootIs(nodes, i, t);
    assert t.children[..|t.children|] == t.children;
  }

  // ----- forests -----

  /** The last `n` trees become the children of a new one. */
  function Reduce(forest: seq<Tree>, kind: Kind, token: Token, n: nat): (f: seq<Tree>)
    requires n <= |forest|
    ensures |f| == |forest| - n + 1
  {
    forest[..|forest| - n] + [Tree(kind, token, forest[|forest| - n..])]
  }

  lemma {:induction false} ReducePost(forest: seq<Tree>, kind: Kind, token: Token, n: nat)
    requires n <= |forest|
    ensures var t := Tree(kind, token, forest[|forest| - n..]);
      PostAll(Reduce(forest, kind, token, n)) == PostAll(forest) + [ParseNode(kind, token, n, Size(t))]
  {
    var m := |forest| - n;
    var t := Tree(kind, token, forest[m..]);
    assert forest == forest[..m] + forest[m..];
    PostAppend(forest[..m], forest[m..]);
    PostAppend(forest[..m], [t]);
    PostOne(t);
    LastNode(t, PostAll(forest[..m]), n);
  }

  lemma {:induction false} LastNode(t: Tree, before: seq<ParseNode>, n: nat)
    requires n == |t.children|
    ensures before + Post(t) == before + PostAll(t.children) + [ParseNode(t.kind, t.token, n, Size(t))]
  {}

  lemma {:induction false} SameLast(x: seq<ParseNode>, s: Tree, y: seq<ParseNode>, t: Tree)
    requires x + Post(s) == y + Post(t)
    ensures x == y && PostAll(s.children) == PostAll(t.children) && s.kind == t.kind && s.token == t.token
  {
    var nodes := x + Post(s);
    var u, v := ParseNode(s.kind, s.token, |s.children|, Size(s)), ParseNode(t.kind, t.token, |t.children|, Size(t));
    assert nodes == (x + PostAll(s.children)) + [u];
    assert nodes == (y + PostAll(t.children)) + [v];
    assert nodes[|nodes| - 1] == u == v;
    assert x == nodes[..|x|] == y;
    assert PostAll(s.children) == nodes[|x|..|nodes| - 1] == PostAll(t.children);
  }

  /** The array form determines the forest. */
  lemma {:induction false} PostInjective(a: seq<Tree>, b: seq<Tree>)
    requires PostAll(a) == PostAll(b)
    ensures a == b
    decreases SizeAll(a)
  {
    if |a| == 0 || |b| == 0 {
      assert |PostAll(a)| == 0;
    } else {
      var s, t := a[|a| - 1], b[|b| - 1];
      SameLast(PostAll(a[..|a| - 1]), s, PostAll(b[..|b| - 1]), t);
      PostInjective(a[..|a| - 1], b[..|b| - 1]);
      PostInjective(s.children, t.children);
      assert a == a[..|a| - 1] + [s] && b == b[..|b| - 1] + [t];
    }
  }
}
