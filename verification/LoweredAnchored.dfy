/** In a lowered graph all memory flows to END's escape, all addresses are allocas, and the only data phi is the
    returned value. */
module LoweredAnchored {
  import C = Cfgs
  import opened Graphs
  import opened Roles
  import opened LoweredShape
  import opened LoweredGraph
  import opened Fixpoint

  lemma MemBack(c: C.Cfg, num: Numbering, g: Graph, K: set<Id>, r: Role, i: nat)
    requires Setting(c, num, g) && MemClosed(g, MemIds(c, num), K) && ValidRole(c, r)
    requires (r == REnd || MemRole(r)) && Num(num, r) in K
    requires i < |Inputs(c, r)| && ValidRole(c, Inputs(c, r)[i]) && MemRole(Inputs(c, r)[i])
    ensures Num(num, Inputs(c, r)[i]) in K
  {
    hide Setting, IsLowering, GoodNumbering, C.GoodCfg;
    Lists(c, num, g);
    Node(c, num, g, r);
    Node(c, num, g, Inputs(c, r)[i]);
    InMem(c, num, r);
    InMem(c, num, Inputs(c, r)[i]);
    assert MemEdge(g, MemIds(c, num), Num(num, r), i);
  }

  /** Down the stores of a block to its phi. */
  lemma {:induction false} BlockMem(c: C.Cfg, num: Numbering, g: Graph, K: set<Id>, b: C.BlockId, k: nat)
    requires Setting(c, num, g) && MemClosed(g, MemIds(c, num), K) && b in c.order && k <= Plain(Code(c, b))
    requires Num(num, MemAt(b, k)) in K
    ensures forall l: nat :: l <= k ==> Num(num, MemAt(b, l)) in K
  {
    hide Setting, MemClosed, C.GoodCfg;
    if k > 0 {
      MemAtValid(c, b, k);
      MemAtValid(c, b, k - 1);
      MemBack(c, num, g, K, RStore(b, k - 1), 1);
      BlockMem(c, num, g, K, b, k - 1);
    }
  }

  lemma PredMem(c: C.Cfg, num: Numbering, g: Graph, K: set<Id>, b: C.BlockId, t: C.BlockId)
    requires Setting(c, num, g) && MemClosed(g, MemIds(c, num), K) && b in c.order && t in c.order
    requires C.Succ(Code(c, b), t)
    requires Num(num, RPhi(t)) in K
    ensures Num(num, LastMem(c, b)) in K
  {
    hide Setting, MemClosed, Entries, FromBlock, FromStart, C.Succ;
    WayIsEntry(c, b, t);
    var j := EntryExists(c, b, t, Entry(WayTo(c, b, t), LastMem(c, b)));
    MemAtValid(c, b, Plain(Code(c, b)));
    assert Inputs(c, RPhi(t))[j + 1] == LastMem(c, b);
    MemBack(c, num, g, K, RPhi(t), j + 1);
  }

  lemma AllBlocks(c: C.Cfg, num: Numbering, g: Graph, K: set<Id>)
    requires Setting(c, num, g) && MemClosed(g, MemIds(c, num), K) && Num(num, REnd) in K
    ensures Num(num, REscape) in K && Num(num, REndMem) in K
    ensures forall b :: b in c.order ==> Num(num, LastMem(c, b)) in K
  {
    hide Setting, MemClosed, IsLowering, GoodNumbering, C.GoodCfg, C.Exits, C.Succ, Exits;
    Lists(c, num, g);
    MemBack(c, num, g, K, REnd, 1);
    MemBack(c, num, g, K, REscape, 1);
    var B := set b | b in c.order && Num(num, LastMem(c, b)) in K;
    forall b | b in c.order && b < |c.blocks| && C.Exits(c.blocks[b].code)
      ensures b in B
    {
      var j := ExitExists(c, b);
      MemAtValid(c, b, Plain(Code(c, b)));
      assert Inputs(c, REndMem)[j + 1] == LastMem(c, b);
      MemBack(c, num, g, K, REndMem, j + 1);
    }
    forall b, t | b in c.order && b < |c.blocks| && t in B && C.Succ(c.blocks[b].code, t)
      ensures b in B
    {
      BlockMem(c, num, g, K, t, Plain(Code(c, t)));
      assert Num(num, MemAt(t, 0)) in K;
      PredMem(c, num, g, K, b, t);
    }
    assert C.BackwardClosed(c, B);
  }

  lemma MemRoleIn(c: C.Cfg, num: Numbering, g: Graph, K: set<Id>, r: Role)
    requires Setting(c, num, g) && MemClosed(g, MemIds(c, num), K) && Num(num, REnd) in K && ValidRole(c, r)
    requires MemRole(r)
    ensures Num(num, r) in K
  {
    hide Setting, MemClosed, IsLowering, GoodNumbering, C.GoodCfg, Entries;
    Lists(c, num, g);
    AllBlocks(c, num, g, K);
    if r.RPhi? || r.RStore? {
      BlockMem(c, num, g, K, r.b, Plain(Code(c, r.b)));
      assert r == MemAt(r.b, if r.RPhi? then 0 else r.k + 1);
    } else if r.RStartMem? {
      var t := c.order[0];
      BlockMem(c, num, g, K, t, Plain(Code(c, t)));
      assert Num(num, MemAt(t, 0)) in K;
      var j := EntryExists(c, t, t, Entry(RStartCtrl, RStartMem));
      assert Inputs(c, RPhi(t))[j + 1] == RStartMem;
      MemBack(c, num, g, K, RPhi(t), j + 1);
    }
  }

  lemma AddressIsAlloca(c: C.Cfg, num: Numbering, g: Graph, n: Id)
    requires Setting(c, num, g) && (Is(g, n, Store) || Is(g, n, Load))
    ensures Is(g, Arg(g, n, 2), Alloca)
  {
    hide Setting, IsLowering, GoodNumbering, C.GoodCfg;
    Lists(c, num, g);
    var r := RoleOf(c, num, g, n);
    Node(c, num, g, r);
    InputFits(c, r, 2);
    Node(c, num, g, Inputs(c, r)[2]);
  }

  lemma DataPhi(c: C.Cfg, num: Numbering, g: Graph, n: Id)
    requires Setting(c, num, g) && Is(g, n, Phi)
    ensures n in MemIds(c, num) || n == Arg(g, g.end, 2)
  {
    hide Setting, IsLowering, GoodNumbering, C.GoodCfg;
    Lists(c, num, g);
    var r := RoleOf(c, num, g, n);
    Node(c, num, g, r);
    Node(c, num, g, REnd);
    InMem(c, num, r);
  }

  lemma LoweredIsAnchored(c: C.Cfg, num: Numbering, g: Graph)
    requires C.GoodCfg(c) && IsLowering(c, num, g)
    ensures Anchored(g, MemIds(c, num))
  {
    hide IsLowering, GoodNumbering, C.GoodCfg, MemClosed;
    Lists(c, num, g);
    Node(c, num, g, REnd);
    Node(c, num, g, REscape);
    forall n | Is(g, n, Store) || Is(g, n, Load)
      ensures Is(g, Arg(g, n, 2), Alloca)
    {
      AddressIsAlloca(c, num, g, n);
    }
    forall q | Is(g, q, Phi)
      ensures q in MemIds(c, num) || q == Arg(g, g.end, 2)
    {
      DataPhi(c, num, g, q);
    }
    forall K | MemClosed(g, MemIds(c, num), K)
      ensures forall n :: n in g.nodes && n in MemIds(c, num) ==> n in K
    {
      EndInMemClosed(g, MemIds(c, num), K);
      forall n | n in MemIds(c, num)
        ensures n in K
      {
        var r :| r in num && MemRole(r) && num[r] == n;
        RolesAreValid(c, num, r);
        MemRoleIn(c, num, g, K, r);
      }
    }
  }

  lemma EndInMemClosed(g: Graph, mem: set<Id>, K: set<Id>)
    requires MemClosed(g, mem, K)
    ensures g.end in K
  {}

  lemma RolesAreValid(c: C.Cfg, num: Numbering, r: Role)
    requires GoodNumbering(c, num) && r in num
    ensures ValidRole(c, r) && Num(num, r) == num[r]
  {}
}
