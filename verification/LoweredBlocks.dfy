/** In a lowered graph every load and store hangs on the region of its own block, although no run looks at that edge. */
module LoweredBlocks {
  import C = Cfgs
  import opened Graphs
  import opened Rewrites
  import opened Roles
  import opened LoweredGraph

  /** From the memory `m` back over `k` stores. */
  function Back(g: Graph, m: Id, k: nat): Id
    decreases k
  {
    if k == 0 then m else Back(g, Arg(g, m, 1), k - 1)
  }

  /** Going back from `m` there are `k` stores, and then a phi. */
  predicate ComesFrom(g: Graph, m: Id, k: nat) {
    (forall j :: 0 <= j < k ==> Is(g, Back(g, m, j), Store)) && Is(g, Back(g, m, k), Phi)
  }

  /** `n` hangs on the region whose phi its memory comes from, over stores only. */
  ghost predicate InItsBlock(g: Graph, n: Id) {
    exists k: nat ::
      ComesFrom(g, Arg(g, n, 1), k) && Arg(g, n, 0) == Arg(g, Back(g, Arg(g, n, 1), k), 0) &&
      Is(g, Arg(g, n, 0), Region)
  }

  ghost predicate AllInBlocks(g: Graph) {
    forall n :: Is(g, n, Load) || Is(g, n, Store) ==> InItsBlock(g, n)
  }

  lemma {:induction false} BackOver(c: C.Cfg, num: Numbering, g: Graph, b: C.BlockId, k: nat, j: nat)
    requires Setting(c, num, g) && b in c.order && j <= k <= Plain(Code(c, b))
    ensures Back(g, Num(num, MemAt(b, k)), j) == Num(num, MemAt(b, k - j))
    decreases j
  {
    hide Setting;
    if j > 0 {
      Node(c, num, g, RStore(b, k - 1));
      assert Inputs(c, RStore(b, k - 1))[1] == MemAt(b, k - 1);
      BackOver(c, num, g, b, k - 1, j - 1);
    }
  }

  lemma {:induction false} BlockMemory(c: C.Cfg, num: Numbering, g: Graph, b: C.BlockId, k: nat)
    requires Setting(c, num, g) && b in c.order && k <= Plain(Code(c, b))
    ensures ComesFrom(g, Num(num, MemAt(b, k)), k)
    ensures Back(g, Num(num, MemAt(b, k)), k) == Num(num, RPhi(b))
    ensures Arg(g, Num(num, RPhi(b)), 0) == Num(num, RRegion(b)) && Is(g, Num(num, RRegion(b)), Region)
  {
    hide Setting, Back;
    forall j | 0 <= j < k
      ensures Is(g, Back(g, Num(num, MemAt(b, k)), j), Store)
    {
      BackOver(c, num, g, b, k, j);
      Node(c, num, g, RStore(b, k - j - 1));
    }
    BackOver(c, num, g, b, k, k);
    Node(c, num, g, RPhi(b));
    Node(c, num, g, RRegion(b));
  }

  lemma LoweredInBlocks(c: C.Cfg, num: Numbering, g: Graph)
    requires C.GoodCfg(c) && IsLowering(c, num, g)
    ensures AllInBlocks(g)
  {
    hide C.GoodCfg, IsLowering, ComesFrom;
    forall n | Is(g, n, Load) || Is(g, n, Store)
      ensures InItsBlock(g, n)
    {
      var r := RoleOf(c, num, g, n);
      Node(c, num, g, r);
      assert r.RLoad? || r.RStore?;
      assert Inputs(c, r)[0] == RRegion(r.b) && Inputs(c, r)[1] == MemAt(r.b, r.k);
      BlockMemory(c, num, g, r.b, r.k);
    }
  }

  // ----- cutting down -----

  lemma {:induction false} BackKept(g: Graph, K: set<Id>, m: Id, k: nat, j: nat)
    requires Shape(g) && InputClosed(g, K) && ComesFrom(g, m, k) && m in K && j <= k
    ensures Back(Keep(g, K), m, j) == Back(g, m, j) && Back(g, m, j) in K
    decreases j
  {
    if j > 0 {
      var h := Keep(g, K);
      assert Is(g, Back(g, m, 0), Store) && SlotOk(g, m, 1);
      assert Arg(h, m, 1) == Arg(g, m, 1);
      BackLess(g, m, k);
      BackKept(g, K, Arg(g, m, 1), k - 1, j - 1);
    }
  }

  lemma {:induction false} BackLess(g: Graph, m: Id, k: nat)
    requires k > 0 && ComesFrom(g, m, k)
    ensures ComesFrom(g, Arg(g, m, 1), k - 1)
  {
    forall j | 0 <= j < k - 1
      ensures Is(g, Back(g, Arg(g, m, 1), j), Store)
    {
      assert Back(g, m, j + 1) == Back(g, Arg(g, m, 1), j);
    }
  }

  lemma KeepInBlocks(g: Graph, K: set<Id>)
    requires Shape(g) && InputClosed(g, K) && AllInBlocks(g)
    ensures AllInBlocks(Keep(g, K))
  {
    var h := Keep(g, K);
    forall n | Is(h, n, Load) || Is(h, n, Store)
      ensures InItsBlock(h, n)
    {
      assert InItsBlock(g, n) && SlotOk(g, n, 0) && SlotOk(g, n, 1);
      var m := Arg(g, n, 1);
      var k: nat :| ComesFrom(g, m, k) && Arg(g, n, 0) == Arg(g, Back(g, m, k), 0) && Is(g, Arg(g, n, 0), Region);
      forall j: nat | j <= k
        ensures Back(h, m, j) == Back(g, m, j) && Back(g, m, j) in K
      {
        BackKept(g, K, m, k, j);
      }
      assert Arg(h, n, 1) == m && ComesFrom(h, m, k);
      assert Back(h, m, k) in K && Arg(h, Back(h, m, k), 0) == Arg(g, n, 0) == Arg(h, n, 0);
      assert Arg(g, n, 0) in K;
    }
  }
}
