/** A lowered graph while it is being built. */
module Drafts {
  import C = Cfgs
  import opened Graphs
  import opened Roles

  /** All inputs of role `r` are made. */
  ghost predicate Known(c: C.Cfg, num: Numbering, r: Role) {
    forall i :: 0 <= i < |Inputs(c, r)| ==> Inputs(c, r)[i] == RNone || Inputs(c, r)[i] in num
  }

  /** What the node in role `r` looks like: a region or phi in `open` has no slots yet. */
  ghost predicate Drawn(c: C.Cfg, num: Numbering, nodes: map<Id, Vertex>, open: set<Role>, r: Role)
    requires r in num
  {
    ValidRole(c, r) && num[r] != 0 && num[r] in nodes &&
    if r in open then nodes[num[r]] == Vertex(KindOf(c, r), [], 0)
    else
      Known(c, num, r) && nodes[num[r]] == VertexOf(c, num, r) &&
      forall i :: 0 <= i < |Inputs(c, r)| && Operand(KindOf(c, r), i) ==> Num(num, Inputs(c, r)[i]) < num[r]
  }

  predicate Join(c: C.Cfg, r: Role) {
    KindOf(c, r) in {Region, Phi}
  }

  /** The roles in `num` have their nodes, those in `open` without slots yet. */
  ghost predicate Draft(c: C.Cfg, num: Numbering, nodes: map<Id, Vertex>, open: set<Role>) {
    (forall r :: r in open ==> r in num && Join(c, r)) &&
    (forall r :: r in num ==> Drawn(c, num, nodes, open, r)) &&
    (forall q, r {:trigger SameNum(num, q, r)} :: q in num && r in num && SameNum(num, q, r) ==> q == r) &&
    forall n :: n in nodes ==> exists r :: r in num && num[r] == n
  }

  /** `num'` has all the roles of `num`, and their numbers. */
  ghost predicate Grows(num: Numbering, num': Numbering) {
    forall r :: r in num ==> r in num' && num'[r] == num[r]
  }

  lemma KnownGrows(c: C.Cfg, num: Numbering, num': Numbering, r: Role)
    requires Grows(num, num') && Known(c, num, r) && RNone !in num'
    ensures Known(c, num', r) && VertexOf(c, num', r) == VertexOf(c, num, r)
    ensures forall i :: 0 <= i < |Inputs(c, r)| ==> Num(num', Inputs(c, r)[i]) == Num(num, Inputs(c, r)[i])
  {
    forall i | 0 <= i < |Inputs(c, r)|
      ensures Num(num', Inputs(c, r)[i]) == Num(num, Inputs(c, r)[i])
    {}
  }

  lemma NewNumber(c: C.Cfg, num: Numbering, nodes: map<Id, Vertex>, open: set<Role>, r: Role, n: Id)
    requires Draft(c, num, nodes, open) && r !in num && n !in nodes
    ensures Grows(num, num[r := n])
    ensures var num' := num[r := n];
      forall p, q {:trigger SameNum(num', p, q)} :: p in num' && q in num' && SameNum(num', p, q) ==> p == q
  {
    var num' := num[r := n];
    forall p, q | p in num' && q in num' && SameNum(num', p, q)
      ensures p == q
    {
      assert p in num ==> Drawn(c, num, nodes, open, p);
      assert q in num ==> Drawn(c, num, nodes, open, q);
      assert p != r && q != r ==> SameNum(num, p, q);
    }
  }

  /** Making a node in a new role; `slots` tells whether it has its slots, or gets them later. */
  lemma DrawnAt(c: C.Cfg, num: Numbering, nodes: map<Id, Vertex>, open: set<Role>, r: Role)
    requires Draft(c, num, nodes, open) && r in num
    ensures Drawn(c, num, nodes, open, r) && ValidRole(c, r) && num[r] in nodes && r != RNone
  {
    assert Drawn(c, num, nodes, open, r);
  }

  /** The role just given a node is drawn. */
  lemma DrawnNew(c: C.Cfg, num: Numbering, nodes: map<Id, Vertex>, open: set<Role>, r: Role, n: Id, v: Vertex,
                 slots: bool)
    requires Draft(c, num, nodes, open) && r !in num && ValidRole(c, r) && n !in nodes && n > 0
    requires forall m :: m in nodes ==> m < n
    requires if slots then Known(c, num, r) && v == VertexOf(c, num, r)
      else Join(c, r) && v == Vertex(KindOf(c, r), [], 0)
    requires Grows(num, num[r := n]) && RNone !in num[r := n]
    ensures Drawn(c, num[r := n], nodes[n := v], if slots then open else open + {r}, r)
  {
    if slots {
      assert r !in open;
      KnownGrows(c, num, num[r := n], r);
      forall i | 0 <= i < |Inputs(c, r)| && Operand(KindOf(c, r), i)
        ensures Num(num[r := n], Inputs(c, r)[i]) < n
      {
        if Inputs(c, r)[i] in num {
          DrawnAt(c, num, nodes, open, Inputs(c, r)[i]);
        }
      }
    }
  }

  /** The roles that had nodes are still drawn. */
  lemma DrawnOld(c: C.Cfg, num: Numbering, nodes: map<Id, Vertex>, open: set<Role>, r: Role, n: Id, v: Vertex,
                 open': set<Role>, q: Role)
    requires Draft(c, num, nodes, open) && r !in num && n !in nodes && q in num && open <= open' <= open + {r}
    requires Grows(num, num[r := n]) && RNone !in num[r := n]
    ensures Drawn(c, num[r := n], nodes[n := v], open', q)
  {
    DrawnAt(c, num, nodes, open, q);
    hide Draft, VertexOf, ValidRole;
    if q !in open {
      KnownGrows(c, num, num[r := n], q);
    }
  }

  lemma NodesNamed(c: C.Cfg, num: Numbering, nodes: map<Id, Vertex>, open: set<Role>, r: Role, n: Id, v: Vertex,
                   num': Numbering, nodes': map<Id, Vertex>)
    requires Draft(c, num, nodes, open) && r !in num && num' == num[r := n] && nodes' == nodes[n := v]
    ensures forall m :: m in nodes' ==> exists q :: q in num' && num'[q] == m
  {
    hide Drawn, Join;
    forall m | m in nodes'
      ensures exists q :: q in num' && num'[q] == m
    {
      if m != n {
        var q :| q in num && num[q] == m;
        assert num'[q] == m;
      } else {
        assert num'[r] == m;
      }
    }
  }

  lemma Draw(c: C.Cfg, num: Numbering, nodes: map<Id, Vertex>, open: set<Role>, r: Role, n: Id, v: Vertex, slots: bool)
    requires Draft(c, num, nodes, open) && r !in num && ValidRole(c, r) && n !in nodes && n > 0
    requires forall m :: m in nodes ==> m < n
    requires if slots then Known(c, num, r) && v == VertexOf(c, num, r)
      else Join(c, r) && v == Vertex(KindOf(c, r), [], 0)
    ensures Draft(c, num[r := n], nodes[n := v], if slots then open else open + {r})
    ensures Grows(num, num[r := n])
  {
    var num', nodes', open' := num[r := n], nodes[n := v], if slots then open else open + {r};
    NewNumber(c, num, nodes, open, r, n);
    assert RNone !in num' by {
      if RNone in num {
        DrawnAt(c, num, nodes, open, RNone);
      }
    }
    forall q | q in num'
      ensures Drawn(c, num', nodes', open', q)
    {
      if q == r {
        DrawnNew(c, num, nodes, open, r, n, v, slots);
      } else {
        DrawnOld(c, num, nodes, open, r, n, v, open', q);
      }
    }
    NodesNamed(c, num, nodes, open, r, n, v, num', nodes');
    hide Drawn, Known, ValidRole;
  }

  /** Giving a region or phi its inputs. */
  lemma DrawnClosed(c: C.Cfg, num: Numbering, nodes: map<Id, Vertex>, open: set<Role>, r: Role, v: Vertex, q: Role)
    requires Draft(c, num, nodes, open) && r in open && r in num && q in num && q != r
    ensures Drawn(c, num, nodes[num[r] := v], open - {r}, q)
  {
    DrawnAt(c, num, nodes, open, q);
    Apart(c, num, nodes, open, q, r);
    hide Draft, VertexOf, ValidRole, Known, KindOf, Inputs;
  }

  lemma Close(c: C.Cfg, num: Numbering, nodes: map<Id, Vertex>, open: set<Role>, r: Role, ins: seq<Id>)
    requires Draft(c, num, nodes, open) && r in open && Known(c, num, r) && ins == NumAll(num, Inputs(c, r))
    ensures r in num && num[r] in nodes && nodes[num[r]] == Vertex(KindOf(c, r), [], 0)
    ensures Draft(c, num, nodes[num[r] := nodes[num[r]].(ins := ins)], open - {r})
  {
    DrawnAt(c, num, nodes, open, r);
    assert Drawn(c, num, nodes, open, r);
    var nodes' := nodes[num[r] := nodes[num[r]].(ins := ins)];
    JoinSlots(c, num, nodes', r);
    forall q | q in num
      ensures Drawn(c, num, nodes', open - {r}, q)
    {
      if q != r {
        DrawnClosed(c, num, nodes, open, r, nodes[num[r]].(ins := ins), q);
      }
    }
    assert nodes'.Keys == nodes.Keys;
    hide Drawn, Known, ValidRole;
  }

  lemma JoinSlots(c: C.Cfg, num: Numbering, nodes: map<Id, Vertex>, r: Role)
    requires r in num && ValidRole(c, r) && num[r] != 0 && num[r] in nodes && Join(c, r) && Known(c, num, r)
    requires nodes[num[r]] == Vertex(KindOf(c, r), NumAll(num, Inputs(c, r)), 0)
    ensures Drawn(c, num, nodes, {}, r)
  {}

  lemma Apart(c: C.Cfg, num: Numbering, nodes: map<Id, Vertex>, open: set<Role>, q: Role, r: Role)
    requires Draft(c, num, nodes, open) && q in num && r in num && q != r
    ensures num[q] != num[r]
  {
    assert !SameNum(num, q, r);
  }

  /** Nothing left to make or fill in. */
  lemma Complete(c: C.Cfg, num: Numbering, nodes: map<Id, Vertex>)
    requires Draft(c, num, nodes, {}) && forall r :: ValidRole(c, r) ==> r in num
    ensures IsLowering(c, num, Graph(nodes, Num(num, RStart), Num(num, REnd)))
  {
    forall r | r in num
      ensures Drawn(c, num, nodes, {}, r)
    {}
  }

  // ----- which roles are made when -----

  /** A role that an instruction of the block brings in, or the end of the block. */
  predicate InCode(r: Role) {
    r.RLoad? || r.RValue? || r.RStore? || r.RBranch? || r.RTrue? || r.RFalse? || r.RNull?
  }

  predicate OfBlock(r: Role) {
    InCode(r) || r.RRegion? || r.RPhi?
  }

  /** The instruction that brings in role `r`; one past the last if it is the end of the block. */
  function StepOf(c: C.Cfg, r: Role): nat
    requires InCode(r)
  {
    match r
    case RLoad(_, k, _) => k
    case RValue(_, k) => k
    case RStore(_, k) => k
    case RNull(b) => Plain(Code(c, b))
    case RBranch(b) => Plain(Code(c, b))
    case RTrue(b) => Plain(Code(c, b))
    case RFalse(b) => Plain(Code(c, b))
  }

  predicate Early(r: Role) {
    r.RStart? || r.RStartCtrl? || r.RStartMem? || r.RAlloca?
  }

  /** The roles made once the first `i` blocks are lowered. */
  ghost predicate Before(c: C.Cfg, i: nat, r: Role)
    requires i <= |c.order|
  {
    ValidRole(c, r) && (Early(r) || (OfBlock(r) && r.b in c.order[..i]))
  }

  /** The roles made once `k` instructions of block number `i` are lowered too. */
  ghost predicate Within(c: C.Cfg, i: nat, k: nat, r: Role)
    requires i < |c.order|
  {
    Before(c, i, r) || (ValidRole(c, r) && OfBlock(r) && r.b == c.order[i] && (InCode(r) ==> StepOf(c, r) < k))
  }
}
