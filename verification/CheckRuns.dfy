/** Running the blocks of an accepted program does what its tree says: statements and whole programs. */
module CheckRuns {
  import opened Options
  import M = Machines
  import C = Cfgs
  import opened Syntax
  import opened Grammar
  import opened CheckSpec
  import T = TreeSemantics
  import opened CheckShape
  import opened CheckBlocks
  import opened CheckCfg
  import opened CheckMeaning

  function AsResult(r: T.Result): C.Result {
    match r
    case Nothing => C.Nothing
    case Just(v) => C.Just(v)
  }

  /** The run from `c` comes to `d` and tests `w` on the way, as the tree tells: to the place where the
      checker stood after the statement, or to the end of the function. If the fuel was not enough for the
      tree, that many steps are not enough for the run. */
  ghost predicate Follows(m: M.Machine, fb: seq<C.Block>, V: set<nat>, c: C.Config, o: T.Outcome, w: seq<int>,
                          s': Checking, d: C.Config, fuel: nat)
    requires Running(s')
  {
    ReachesWith(m, fb, c, d, w) &&
    match o
    case Normal(a) => d.At? && d == Here(s', d.store) && Agree(m, V, a, d.store)
    case Returned(v, a) => d == C.Done(AsResult(v), d.store) && Agree(m, V, a, d.store)
    case OutOfFuel => Unfinished(m, fb, c, fuel)
  }

  lemma {:induction false} FollowsAfter(m: M.Machine, fb: seq<C.Block>, V: set<nat>, c: C.Config, u: seq<int>,
                                        c': C.Config, o: T.Outcome, w: seq<int>, s': Checking, d: C.Config, fuel: nat)
    requires Running(s') && ReachesWith(m, fb, c, c', u) && Follows(m, fb, V, c', o, w, s', d, fuel)
    ensures Follows(m, fb, V, c, o, u + w, s', d, fuel)
  {
    hide ReachesWith, Unfinished;
    ReachesWithTrans(m, fb, c, c', d, u, w);
    if o.OutOfFuel? {
      UnfinishedBefore(m, fb, c, c', u, fuel);
    }
  }

  lemma {:induction false} FollowsSilently(m: M.Machine, fb: seq<C.Block>, V: set<nat>, c: C.Config, c': C.Config,
                                           o: T.Outcome, w: seq<int>, s': Checking, d: C.Config, fuel: nat)
    requires Running(s') && Reaches(m, fb, c, c') && Follows(m, fb, V, c', o, w, s', d, fuel)
    ensures Follows(m, fb, V, c, o, w, s', d, fuel)
  {
    hide ReachesWith, Follows;
    FollowsAfter(m, fb, V, c, [], c', o, w, s', d, fuel);
    assert [] + w == w;
  }

  /** What a statement needs to be followed: the names and the slots are the checker's. */
  ghost predicate Set(t: Tree, s: Checking, env: T.Env, V: set<nat>) {
    EnvIs(s.scope, env, V) && T.Temps(t, s.places) !! V && T.Decls(t, s.places) <= V
  }

  /** A jump at the end of the code made so far. */
  lemma {:induction false} JumpStep(m: M.Machine, fb: seq<C.Block>, s: Checking, jump: C.Inst, r: C.Store)
    requires Running(s) && Waits(fb, s, Cur(s), jump) && C.Jump(jump.op)
    ensures var d := match jump.op
                     case Goto(t) => C.At(t, 0, r)
                     case Branch(t, e) => C.At(if m.truthy(C.Operand(m, r, jump, 0)) then t else e, 0, r)
                     case _ => C.Done(if |jump.args| == 0 then C.Nothing else C.Just(C.Operand(m, r, jump, 0)), r);
      C.Step(m, fb, Here(s, r)) == d &&
      ReachesWith(m, fb, Here(s, r), d, if jump.op.Branch? then [C.Operand(m, r, jump, 0)] else [])
  {
    assert fb[Cur(s)].code[|CodeOf(s, Cur(s))|] == jump;
    StepReaches(m, fb, Here(s, r));
  }

  // ----- simple statements -----

  lemma {:induction false} ExprFollows(m: M.Machine, t: Tree, s: Checking, s': Checking, fb: seq<C.Block>, env: T.Env,
                                       V: set<nat>, a: T.Store, r: C.Store, fuel: nat)
    returns (d: C.Config)
    requires Running(s) && Good(s) && ScopeGood(s) && Obeys(t) && Check(t, s) == Some(s')
    requires Holds(fb, s, s') && Set(t, s, env, V) && Agree(m, V, a, r)
    ensures Follows(m, fb, V, Here(s, r), T.Exec(m, t, env, s.places, a, fuel),
      T.Tests(m, t, env, s.places, a, fuel), s', d, fuel)
  {
    hide Good, ScopeGood, EnvIs, Agree, Holds, Check;
    var r' := ExprSim(m, t, s, s', fb, env, V, a, r);
    d := Here(s', r');
    ExprExec(m, t, env, s.places, a, fuel);
  }

  lemma {:induction false} ExprExec(m: M.Machine, t: Tree, env: T.Env, n: nat, a: T.Store, fuel: nat)
    requires Obeys(t)
    ensures T.Exec(m, t, env, n, a, fuel) == T.Normal(T.Eval(m, t, env, a).store)
    ensures T.Tests(m, t, env, n, a, fuel) == []
  {}

  lemma {:induction false} LocalFollows(m: M.Machine, t: Tree, s: Checking, s': Checking, fb: seq<C.Block>,
                                        env: T.Env, V: set<nat>, a: T.Store, r: C.Store, fuel: nat)
    returns (d: C.Config)
    requires Running(s) && IsLocal(t) && Check(t, s) == Some(s') && Agree(m, V, a, r)
    ensures Follows(m, fb, V, Here(s, r), T.Exec(m, t, env, s.places, a, fuel),
      T.Tests(m, t, env, s.places, a, fuel), s', d, fuel)
  {
    d := Here(s, r);
    ReachesSelf(m, fb, d);
  }

  lemma {:induction false} ReturnFollows(m: M.Machine, t: Tree, s: Checking, s': Checking, fb: seq<C.Block>,
                                         env: T.Env, V: set<nat>, a: T.Store, r: C.Store, fuel: nat)
    returns (d: C.Config)
    requires Running(s) && Good(s) && ScopeGood(s) && IsReturn(t) && Check(t, s) == Some(s')
    requires Holds(fb, s, s') && Set(t, s, env, V) && Agree(m, V, a, r)
    ensures Follows(m, fb, V, Here(s, r), T.Exec(m, t, env, s.places, a, fuel),
      T.Tests(m, t, env, s.places, a, fuel), s', d, fuel)
  {
    hide Good, ScopeGood, EnvIs, Agree, Holds, Check, ExprAdds, Obeys, T.Exec, T.Tests, Extends, Waits, Follows;
    var s1 := ReturnIsAt(t, s, s');
    ReturnHolds(|t.children|, s, s1, s', fb);
    if |t.children| == 0 {
      d := NothingReturned(m, t, s, s', fb, env, V, a, r, fuel);
    } else {
      d := ValueReturned(m, t, s, s1, fb, env, V, a, r);
      ReturnedFollows(m, t, s, s', fb, env, V, a, r, d, fuel);
    }
  }

  lemma {:induction false} NothingReturned(m: M.Machine, t: Tree, s: Checking, s': Checking, fb: seq<C.Block>,
                                           env: T.Env, V: set<nat>, a: T.Store, r: C.Store, fuel: nat)
    returns (d: C.Config)
    requires Running(s) && Running(s') && IsReturn(t) && |t.children| == 0 && Agree(m, V, a, r)
    requires Waits(fb, s, Cur(s), C.Inst(C.Return, s.stack[|s.stack|..], C.NoPlace))
    ensures Follows(m, fb, V, Here(s, r), T.Exec(m, t, env, s.places, a, fuel),
      T.Tests(m, t, env, s.places, a, fuel), s', d, fuel)
  {
    JumpStep(m, fb, s, C.Inst(C.Return, s.stack[|s.stack|..], C.NoPlace), r);
    d := C.Done(C.Nothing, r);
  }

  lemma {:induction false} ReturnedFollows(m: M.Machine, t: Tree, s: Checking, s': Checking, fb: seq<C.Block>,
                                           env: T.Env, V: set<nat>, a: T.Store, r: C.Store, d: C.Config, fuel: nat)
    requires Running(s) && Running(s') && IsReturn(t) && |t.children| == 1
    requires var v := T.Eval(m, t.children[0], env, a);
      d == C.Done(C.Just(v.value), d.store) && Reaches(m, fb, Here(s, r), d) && Agree(m, V, v.store, d.store)
    ensures Follows(m, fb, V, Here(s, r), T.Exec(m, t, env, s.places, a, fuel),
      T.Tests(m, t, env, s.places, a, fuel), s', d, fuel)
  {
    ReturnExec(m, t, env, s.places, a, fuel);
  }

  lemma {:induction false} ReturnExec(m: M.Machine, t: Tree, env: T.Env, n: nat, a: T.Store, fuel: nat)
    requires IsReturn(t)
    ensures T.Exec(m, t, env, n, a, fuel) ==
            if |t.children| == 0 then T.Returned(T.Nothing, a)
            else var v := T.Eval(m, t.children[0], env, a); T.Returned(T.Just(v.value), v.store)
    ensures T.Tests(m, t, env, n, a, fuel) == []
  {}

  lemma {:induction false} ValueReturned(m: M.Machine, t: Tree, s: Checking, s1: Checking, fb: seq<C.Block>,
                                         env: T.Env, V: set<nat>, a: T.Store, r: C.Store)
    returns (d: C.Config)
    requires Running(s) && Good(s) && ScopeGood(s) && IsReturn(t) && |t.children| == 1
    requires Check(t.children[0], s) == Some(s1) && Holds(fb, s, s1)
    requires Running(s1) && |s1.stack| > 0
    requires Waits(fb, s1, Cur(s1), C.Inst(C.Return, s1.stack[|s1.stack| - 1..], C.NoPlace))
    requires Set(t, s, env, V) && Agree(m, V, a, r)
    ensures var v := T.Eval(m, t.children[0], env, a);
      d == C.Done(C.Just(v.value), d.store) && Reaches(m, fb, Here(s, r), d) && Agree(m, V, v.store, d.store)
  {
    hide Good, ScopeGood, EnvIs, Agree, Holds, Check, ExprAdds, Obeys, T.Eval, T.Temps, T.Decls, ReachesWith, Waits;
    TempsOne(t, s.places);
    var e, jump := t.children[0], C.Inst(C.Return, s1.stack[|s1.stack| - 1..], C.NoPlace);
    var r' := ExprSim(m, e, s, s1, fb, env, V, a, r);
    assert jump.args == [Top(s1)];
    JumpStep(m, fb, s1, jump, r');
    d := C.Done(C.Just(C.ReadRef(m, r', Top(s1))), r');
    ReachesTrans(m, fb, Here(s, r), Here(s1, r'), d);
  }

  lemma {:induction false} TempsOne(t: Tree, n: nat)
    requires |t.children| > 0
    ensures T.Temps(t.children[0], n) <= T.Temps(t, n) && T.Decls(t.children[0], n) <= T.Decls(t, n)
  {}

  // ----- names after a statement -----

  lemma {:induction false} SetAfter(ts: seq<Tree>, s: Checking, s1: Checking, env: T.Env, V: set<nat>)
    requires |ts| > 0 && IsStmt(ts[0]) && Running(s) && s.scope.Scope? && StmtAdds(ts[0], s, s1)
    requires Check(ts[0], s) == Some(s1)
    requires EnvIs(s.scope, env, V) && T.TempsAll(ts, s.places) !! V && T.DeclsAll(ts, s.places) <= V
    ensures Set(ts[0], s, env, V) && EnvIs(s1.scope, T.EnvAfter(ts[0], env, s.places), V)
    ensures s1.places == s.places + T.Slots(ts[0])
    ensures T.TempsAll(ts[1..], s1.places) !! V
    ensures T.DeclsAll(ts[1..], s1.places) <= V
  {
    hide EnvIs, Part, Check, T.Temps, T.Decls, T.EnvAfter, IsStmt;
    NamesAfter(ts[0], s, s1, env, V);
  }

  lemma {:induction false} NamesAfter(t: Tree, s: Checking, s1: Checking, env: T.Env, V: set<nat>)
    requires IsStmt(t) && Running(s) && s.scope.Scope? && StmtAdds(t, s, s1) && Check(t, s) == Some(s1)
    requires EnvIs(s.scope, env, V) && T.Decls(t, s.places) <= V
    ensures EnvIs(s1.scope, T.EnvAfter(t, env, s.places), V)
  {
    StmtCases(t);
    if t.kind == Local {
      LocalIs(t, s, s1);
      LocalSlot(t, s.places);
      hide T.Temps, T.Decls, Part, Check, IsStmt, Obeys;
      var name, locals := Text(t.children[0].token), s.scope.locals;
      forall x
        ensures FindSymbol(s1.scope, x) == if x == name then C.Slot(s.places) else FindSymbol(s.scope, x)
      {
        assert FindLocal(s1.scope.locals, x) == if x == name then C.Slot(s.places) else FindLocal(locals, x);
      }
    }
  }

  lemma {:induction false} LocalIs(t: Tree, s: Checking, s1: Checking)
    requires IsLocal(t) && Running(s) && s.scope.Scope? && Check(t, s) == Some(s1)
    ensures |t.children| == 2
    ensures s1.scope == s.scope.(locals := [(Text(t.children[0].token), s.places)] + s.scope.locals)
  {}

  lemma {:induction false} LocalSlot(t: Tree, n: nat)
    requires IsLocal(t) && |t.children| == 2
    ensures n in T.Decls(t, n)
  {
    Pair(t);
    assert T.Slots(t.children[0]) == 0 && T.Slots(t.children[1]) == 0;
  }

  // ----- all statements -----

  lemma {:induction false} StmtFollows(m: M.Machine, t: Tree, s: Checking, s': Checking, fb: seq<C.Block>, env: T.Env,
                                       V: set<nat>, a: T.Store, r: C.Store, fuel: nat)
    returns (d: C.Config)
    requires Running(s) && Good(s) && ScopeGood(s) && IsStmt(t) && Check(t, s) == Some(s')
    requires Holds(fb, s, s') && Set(t, s, env, V) && Agree(m, V, a, r)
    ensures Follows(m, fb, V, Here(s, r), T.Exec(m, t, env, s.places, a, fuel),
      T.Tests(m, t, env, s.places, a, fuel), s', d, fuel)
    decreases fuel, t, 2
  {
    hide Good, ScopeGood, Set, Agree, Holds, Check, Obeys, T.Exec, T.Tests, Follows, IsStmt, Here;
    StmtCases(t);
    if t.kind == Block {
      d := BlockFollows(m, t, s, s', fb, env, V, a, r, fuel);
    } else if t.kind == Local {
      d := LocalFollows(m, t, s, s', fb, env, V, a, r, fuel);
    } else if t.kind == If {
      d := IfFollows(m, t, s, s', fb, env, V, a, r, fuel);
    } else if t.kind == While {
      d := WhileFollows(m, t, s, s', fb, env, V, a, r, fuel);
    } else if t.kind == Return {
      d := ReturnFollows(m, t, s, s', fb, env, V, a, r, fuel);
    } else {
      d := ExprFollows(m, t, s, s', fb, env, V, a, r, fuel);
    }
  }

  lemma {:induction false} BlockStates(t: Tree, s: Checking, s': Checking)
    requires Running(s) && IsBlock(t) && Check(t, s) == Some(s')
    ensures t.kind == Block && forall k :: 0 <= k < |t.children| ==> IsStmt(t.children[k])
    ensures Running(BlockBegin(s)) && BlockBegin(s).blocks == s.blocks && BlockBegin(s).places == s.places
    ensures CheckAll(t.children, BlockBegin(s)).Some?
  {
    hide IsStmt;
  }

  lemma {:induction false} BlockExec(m: M.Machine, t: Tree, env: T.Env, n: nat, a: T.Store, fuel: nat)
    requires t.kind == Block
    ensures T.Exec(m, t, env, n, a, fuel) == T.ExecAll(m, t.children, env, n, a, fuel)
    ensures T.Tests(m, t, env, n, a, fuel) == T.TestsAll(m, t.children, env, n, a, fuel)
  {}

  lemma {:induction false} SameBlocks(s: Checking, s': Checking, r: C.Store)
    requires Running(s) && s'.blocks == s.blocks
    ensures Running(s') && Here(s', r) == Here(s, r)
  {}

  lemma {:induction false} FollowsSame(m: M.Machine, fb: seq<C.Block>, V: set<nat>, c: C.Config, o: T.Outcome,
                                       w: seq<int>, s: Checking, s': Checking, d: C.Config, fuel: nat)
    requires Running(s) && s'.blocks == s.blocks && Follows(m, fb, V, c, o, w, s, d, fuel)
    ensures Running(s') && Follows(m, fb, V, c, o, w, s', d, fuel)
  {
    hide Agree, ReachesWith, Unfinished;
  }

  lemma {:induction false} BlockFollows(m: M.Machine, t: Tree, s: Checking, s': Checking, fb: seq<C.Block>,
                                        env: T.Env, V: set<nat>, a: T.Store, r: C.Store, fuel: nat)
    returns (d: C.Config)
    requires Running(s) && Good(s) && ScopeGood(s) && IsBlock(t) && Check(t, s) == Some(s')
    requires Holds(fb, s, s') && Set(t, s, env, V) && Agree(m, V, a, r)
    ensures Follows(m, fb, V, Here(s, r), T.Exec(m, t, env, s.places, a, fuel),
      T.Tests(m, t, env, s.places, a, fuel), s', d, fuel)
    decreases fuel, t, 1
  {
    hide *;
    BlockHolds(t, s, s', fb);
    BlockStates(t, s, s');
    BlockSet(t, s, env, V);
    var s0 := BlockBegin(s);
    var s1 := CheckAll(t.children, s0).value;
    d := AllFollow(m, t.children, s0, s1, fb, env, V, a, r, fuel);
    BlockExec(m, t, env, s.places, a, fuel);
    SameBlocks(s, s0, r);
    FollowsSame(m, fb, V, Here(s, r), T.Exec(m, t, env, s.places, a, fuel), T.Tests(m, t, env, s.places, a, fuel),
                s1, s', d, fuel);
  }

  lemma {:induction false} BlockSet(t: Tree, s: Checking, env: T.Env, V: set<nat>)
    requires t.kind == Block && Set(t, s, env, V)
    ensures EnvIs(BlockBegin(s).scope, env, V)
    ensures T.TempsAll(t.children, s.places) !! V
    ensures T.DeclsAll(t.children, s.places) <= V
  {
    assert T.Temps(t, s.places) == T.TempsAll(t.children, s.places);
    assert T.Decls(t, s.places) == T.DeclsAll(t.children, s.places);
    forall x
      ensures FindSymbol(BlockBegin(s).scope, x) == FindSymbol(s.scope, x)
    {}
  }

  lemma {:induction false} AllFollow(m: M.Machine, ts: seq<Tree>, s: Checking, s': Checking, fb: seq<C.Block>,
                                     env: T.Env, V: set<nat>, a: T.Store, r: C.Store, fuel: nat)
    returns (d: C.Config)
    requires Running(s) && Good(s) && ScopeGood(s) && s.scope.Scope?
    requires (forall k :: 0 <= k < |ts| ==> IsStmt(ts[k])) && CheckAll(ts, s) == Some(s')
    requires Holds(fb, s, s') && EnvIs(s.scope, env, V) && T.TempsAll(ts, s.places) !! V
    requires T.DeclsAll(ts, s.places) <= V && Agree(m, V, a, r)
    ensures Follows(m, fb, V, Here(s, r), T.ExecAll(m, ts, env, s.places, a, fuel),
      T.TestsAll(m, ts, env, s.places, a, fuel), s', d, fuel)
    decreases fuel, ts, 3
  {
    hide Good, ScopeGood, EnvIs, Agree, Holds, Check, IsStmt, Set, T.Exec, T.Tests, T.Temps, T.Decls, StmtAdds,
         Reaches, Here;
    if |ts| == 0 {
      d := Here(s, r);
      HereIs(s, r);
      ReachesSelf(m, fb, d);
    } else {
      AllHolds(ts, s, s', fb);
      var s1 := Check(ts[0], s).value;
      SetAfter(ts, s, s1, env, V);
      d := StmtFollows(m, ts[0], s, s1, fb, env, V, a, r, fuel);
      var o := T.Exec(m, ts[0], env, s.places, a, fuel);
      if o.Normal? {
        var c := d;
        d := AllFollow(m, ts[1..], s1, s', fb, T.EnvAfter(ts[0], env, s.places), V, o.store, c.store, fuel);
        var env', n' := T.EnvAfter(ts[0], env, s.places), s.places + T.Slots(ts[0]);
        FollowsAfter(m, fb, V, Here(s, r), T.Tests(m, ts[0], env, s.places, a, fuel), c,
                     T.ExecAll(m, ts[1..], env', n', o.store, fuel), T.TestsAll(m, ts[1..], env', n', o.store, fuel),
                     s', d, fuel);
      }
    }
  }

  lemma {:induction false} HereIs(s: Checking, r: C.Store)
    requires Running(s)
    ensures Here(s, r).At? && Here(s, r).store == r
    ensures Here(s, r).block == Cur(s)
    ensures Here(s, r).index == |CodeOf(s, Cur(s))|
  {}

  // ----- `if` -----

  lemma {:induction false} ThreeParts(t: Tree, n: nat)
    requires 2 <= |t.children| <= 3
    ensures T.Temps(t.children[0], n) <= T.Temps(t, n)
    ensures var n1 := n + T.Slots(t.children[0]);
      T.Temps(t.children[1], n1) <= T.Temps(t, n) && T.Decls(t.children[1], n1) <= T.Decls(t, n) &&
      (|t.children| == 3 ==> var n2 := n1 + T.Slots(t.children[1]);
         T.Temps(t.children[2], n2) <= T.Temps(t, n) && T.Decls(t.children[2], n2) <= T.Decls(t, n))
  {
    if |t.children| == 2 {
      TempsPair(t, n);
    } else {
      var cs := t.children;
      var rest, n1 := cs[1..], n + T.Slots(cs[0]);
      var n2 := n1 + T.Slots(cs[1]);
      assert rest[0] == cs[1] && rest[1..][0] == cs[2];
      assert T.TempsAll(cs, n) == T.Temps(cs[0], n) + T.TempsAll(rest, n1);
      assert T.TempsAll(rest, n1) == T.Temps(cs[1], n1) + T.TempsAll(rest[1..], n2);
      assert T.TempsAll(rest[1..], n2) == T.Temps(cs[2], n2) + T.TempsAll(rest[1..][1..], n2 + T.Slots(cs[2]));
      assert T.DeclsAll(cs, n) == T.Decls(cs[0], n) + T.DeclsAll(rest, n1);
      assert T.DeclsAll(rest, n1) == T.Decls(cs[1], n1) + T.DeclsAll(rest[1..], n2);
      assert T.DeclsAll(rest[1..], n2) == T.Decls(cs[2], n2) + T.DeclsAll(rest[1..][1..], n2 + T.Slots(cs[2]));
    }
  }

  /** The condition is run, and its branch taken. */
  lemma {:induction false} BranchTaken(m: M.Machine, t: Tree, s: Checking, s': Checking, fb: seq<C.Block>, env: T.Env,
                                       V: set<nat>, a: T.Store, r: C.Store, thenTo: C.BlockId, elseTo: C.BlockId)
    returns (r': C.Store)
    requires Running(s) && Good(s) && ScopeGood(s) && Obeys(t) && Check(t, s) == Some(s') && Holds(fb, s, s')
    requires EnvIs(s.scope, env, V) && T.Temps(t, s.places) !! V && Agree(m, V, a, r)
    requires |s'.stack| > 0 && Waits(fb, s', Cur(s'), BranchInst(s', thenTo, elseTo))
    ensures var v := T.Eval(m, t, env, a);
      Agree(m, V, v.store, r') && Reaches(m, fb, Here(s, r), Here(s', r')) &&
      C.Step(m, fb, Here(s', r')) == C.At(if m.truthy(v.value) then thenTo else elseTo, 0, r') &&
      ReachesWith(m, fb, Here(s, r), C.Step(m, fb, Here(s', r')), [v.value])
  {
    hide Good, ScopeGood, EnvIs, Agree, Holds, Check, Obeys, T.Eval, T.Temps, Reaches, ReachesWith, Waits;
    r' := ExprSim(m, t, s, s', fb, env, V, a, r);
    JumpStep(m, fb, s', BranchInst(s', thenTo, elseTo), r');
    SilentlyThen(m, fb, Here(s, r), Here(s', r'), C.Step(m, fb, Here(s', r')), [T.Eval(m, t, env, a).value]);
  }

  lemma {:induction false} SilentlyThen(m: M.Machine, fb: seq<C.Block>, c: C.Config, d: C.Config, e: C.Config,
                                        w: seq<int>)
    requires Reaches(m, fb, c, d) && ReachesWith(m, fb, d, e, w)
    ensures ReachesWith(m, fb, c, e, w)
  {
    hide ReachesWith;
    ReachesWithTrans(m, fb, c, d, e, [], w);
    assert [] + w == w;
  }

  lemma {:induction false} ThenSilently(m: M.Machine, fb: seq<C.Block>, c: C.Config, d: C.Config, e: C.Config,
                                        w: seq<int>)
    requires ReachesWith(m, fb, c, d, w) && Reaches(m, fb, d, e)
    ensures ReachesWith(m, fb, c, e, w)
  {
    hide ReachesWith;
    ReachesWithTrans(m, fb, c, d, e, w, []);
    assert w + [] == w;
  }

  /** A part that ends in a jump to where the checker stands after the whole. */
  lemma {:induction false} FollowsGoto(m: M.Machine, fb: seq<C.Block>, V: set<nat>, c: C.Config, o: T.Outcome,
                                       w: seq<int>, s: Checking, s': Checking, d: C.Config, fuel: nat)
    returns (d': C.Config)
    requires Running(s) && Running(s') && Follows(m, fb, V, c, o, w, s, d, fuel)
    requires Waits(fb, s, Cur(s), GotoInst(Cur(s'))) && CodeOf(s', Cur(s')) == []
    ensures Follows(m, fb, V, c, o, w, s', d', fuel)
  {
    d' := d;
    if o.Normal? {
      JumpStep(m, fb, s, GotoInst(Cur(s')), d.store);
      d' := C.At(Cur(s'), 0, d.store);
      ThenSilently(m, fb, c, d, d', w);
    }
  }

  lemma {:induction false} IfExec(m: M.Machine, t: Tree, env: T.Env, n: nat, a: T.Store, fuel: nat)
    requires t.kind == If && 2 <= |t.children| <= 3
    ensures var v := T.Eval(m, t.children[0], env, a);
      var n1 := n + T.Slots(t.children[0]);
      T.Exec(m, t, env, n, a, fuel) ==
      if m.truthy(v.value) then T.Exec(m, t.children[1], env, n1, v.store, fuel)
      else if |t.children| == 3 then T.Exec(m, t.children[2], env, n1 + T.Slots(t.children[1]), v.store, fuel)
      else T.Normal(v.store)
    ensures var v := T.Eval(m, t.children[0], env, a);
      var n1 := n + T.Slots(t.children[0]);
      T.Tests(m, t, env, n, a, fuel) == [v.value] +
      if m.truthy(v.value) then T.Tests(m, t.children[1], env, n1, v.store, fuel)
      else if |t.children| == 3 then T.Tests(m, t.children[2], env, n1 + T.Slots(t.children[1]), v.store, fuel)
      else []
  {
    hide T.Eval, T.Slots;
  }

  lemma {:induction false} ElsePlaces(t: Tree, s: Checking, s': Checking, at: IfStates)
    requires IfSteps(t, s, s', at) && |t.children| == 3 && Running(s)
    ensures at.s3.places == s.places + T.Slots(t.children[0]) + T.Slots(t.children[1]) && at.s3.scope == s.scope
  {
    hide Good, ScopeGood, Check, Part;
    ExprFacts(t.children[0], s, at.s0);
    assert IsBlock(t.children[1]);
  }

  /** What is known at the pieces of an `if`. */
  lemma {:induction false} IfParts(t: Tree, s: Checking, s': Checking, at: IfStates, fb: seq<C.Block>)
    requires Running(s) && IfSteps(t, s, s', at) && IfLaid(t, s, s', at, fb)
    ensures Obeys(t.children[0]) && Check(t.children[0], s) == Some(at.s0) && Holds(fb, s, at.s0)
    ensures Running(at.s0) && |at.s0.stack| > 0 && ScopeGood(s)
    ensures Waits(fb, at.s0, Cur(at.s0), BranchInst(at.s0, |at.s0.blocks|, |at.s2.blocks|))
    ensures var s1 := NewBlock(at.s0);
      IsStmt(t.children[1]) && Good(s1) && ScopeGood(s1) && Check(t.children[1], s1) == Some(at.s2) &&
      Holds(fb, s1, at.s2) && s1.places == s.places + T.Slots(t.children[0]) && s1.scope == s.scope
    ensures forall r :: Here(NewBlock(at.s0), r) == C.At(|at.s0.blocks|, 0, r)
    ensures Running(at.s2) && Running(s')
    ensures Waits(fb, at.s2, Cur(at.s2), GotoInst(Cur(s')))
    ensures CodeOf(s', Cur(s')) == []
  {
    hide Good, ScopeGood, Check, Obeys, Holds, Waits, Extends, Left, IfElse, IfEnd, ExprAdds;
    ExprFacts(t.children[0], s, at.s0);
  }

  lemma {:induction false} ElseParts(t: Tree, s: Checking, s': Checking, at: IfStates, fb: seq<C.Block>)
    requires Running(s) && IfSteps(t, s, s', at) && IfLaid(t, s, s', at, fb) && |t.children| == 3
    ensures IsStmt(t.children[2]) && Running(at.s3) && Good(at.s3) && ScopeGood(at.s3) && Running(at.s4)
    ensures Check(t.children[2], at.s3) == Some(at.s4) && Holds(fb, at.s3, at.s4)
    ensures at.s3.places == s.places + T.Slots(t.children[0]) + T.Slots(t.children[1]) && at.s3.scope == s.scope
    ensures forall r :: Here(at.s3, r) == C.At(|at.s2.blocks|, 0, r)
    ensures Running(s') && Waits(fb, at.s4, Cur(at.s4), GotoInst(Cur(s'))) && CodeOf(s', Cur(s')) == []
  {
    hide Good, ScopeGood, Check, Obeys, Holds, Waits, Extends, Left, IfElse, IfEnd, ExprAdds;
    ElsePlaces(t, s, s', at);
  }

  lemma {:induction false} IfCount(t: Tree)
    requires IsIf(t)
    ensures t.kind == If && 2 <= |t.children| <= 3
  {}

  lemma {:induction false} IsIfAt(t: Tree, s: Checking, s': Checking, at: IfStates)
    requires Running(s) && IfSteps(t, s, s', at)
    ensures IsIf(t)
  {}

  lemma {:induction false} PartSet(t: Tree, s: Checking, env: T.Env, V: set<nat>, part: Tree, s1: Checking)
    requires Set(t, s, env, V) && s1.scope == s.scope
    requires T.Temps(part, s1.places) <= T.Temps(t, s.places) && T.Decls(part, s1.places) <= T.Decls(t, s.places)
    ensures Set(part, s1, env, V)
  {}

  lemma {:induction false} CondSet(t: Tree, s: Checking, env: T.Env, V: set<nat>, cond: Tree)
    requires Set(t, s, env, V) && T.Temps(cond, s.places) <= T.Temps(t, s.places)
    ensures EnvIs(s.scope, env, V) && T.Temps(cond, s.places) !! V
  {}

  lemma {:induction false} IfFollows(m: M.Machine, t: Tree, s: Checking, s': Checking, fb: seq<C.Block>, env: T.Env,
                                     V: set<nat>, a: T.Store, r: C.Store, fuel: nat)
    returns (d: C.Config)
    requires Running(s) && Good(s) && ScopeGood(s) && IsIf(t) && Check(t, s) == Some(s') && Holds(fb, s, s')
    requires Set(t, s, env, V) && Agree(m, V, a, r)
    ensures Follows(m, fb, V, Here(s, r), T.Exec(m, t, env, s.places, a, fuel),
      T.Tests(m, t, env, s.places, a, fuel), s', d, fuel)
    decreases fuel, t, 1
  {
    hide *;
    var at := IfIs(t, s, s');
    IfCount(t);
    IfHolds(t, s, s', at, fb);
    IfParts(t, s, s', at, fb);
    IfExec(m, t, env, s.places, a, fuel);
    ThreeParts(t, s.places);
    CondSet(t, s, env, V, t.children[0]);
    var v := T.Eval(m, t.children[0], env, a);
    var r' := BranchTaken(m, t.children[0], s, at.s0, fb, env, V, a, r, |at.s0.blocks|, |at.s2.blocks|);
    var c, n1 := C.Step(m, fb, Here(at.s0, r')), s.places + T.Slots(t.children[0]);
    var w;
    if m.truthy(v.value) {
      d := ThenFollows(m, t, s, s', at, fb, env, V, v.store, r', fuel);
      w := T.Tests(m, t.children[1], env, n1, v.store, fuel);
    } else {
      d := ElseFollows(m, t, s, s', at, fb, env, V, v.store, r', fuel);
      w := if |t.children| == 3 then T.Tests(m, t.children[2], env, n1 + T.Slots(t.children[1]), v.store, fuel) else [];
    }
    FollowsAfter(m, fb, V, Here(s, r), [v.value], c, T.Exec(m, t, env, s.places, a, fuel), w, s', d, fuel);
  }

  lemma {:induction false} ThenFollows(m: M.Machine, t: Tree, s: Checking, s': Checking, at: IfStates,
                                       fb: seq<C.Block>, env: T.Env, V: set<nat>, a: T.Store, r: C.Store, fuel: nat)
    returns (d: C.Config)
    requires Running(s) && IfSteps(t, s, s', at) && IfLaid(t, s, s', at, fb) && Set(t, s, env, V) && Agree(m, V, a, r)
    ensures Running(s')
    ensures Follows(m, fb, V, C.At(|at.s0.blocks|, 0, r),
      T.Exec(m, t.children[1], env, s.places + T.Slots(t.children[0]), a, fuel),
      T.Tests(m, t.children[1], env, s.places + T.Slots(t.children[0]), a, fuel), s', d, fuel)
    decreases fuel, t.children[1], 4
  {
    hide *;
    var s1 := NewBlock(at.s0);
    IsIfAt(t, s, s', at);
    IfCount(t);
    IfParts(t, s, s', at, fb);
    ThreeParts(t, s.places);
    PartSet(t, s, env, V, t.children[1], s1);
    d := StmtFollows(m, t.children[1], s1, at.s2, fb, env, V, a, r, fuel);
    d := FollowsGoto(m, fb, V, Here(s1, r), T.Exec(m, t.children[1], env, s1.places, a, fuel),
                     T.Tests(m, t.children[1], env, s1.places, a, fuel), at.s2, s', d, fuel);
  }

  lemma {:induction false} NoElse(m: M.Machine, t: Tree, s: Checking, s': Checking, at: IfStates, fb: seq<C.Block>,
                                  V: set<nat>, a: T.Store, r: C.Store, fuel: nat) returns (d: C.Config)
    requires Running(s) && IfSteps(t, s, s', at) && IfLaid(t, s, s', at, fb) && |t.children| == 2 && Agree(m, V, a, r)
    ensures Running(s') && Follows(m, fb, V, C.At(|at.s2.blocks|, 0, r), T.Normal(a), [], s', d, fuel)
  {
    hide Good, ScopeGood, EnvIs, Agree, Holds, Check, Obeys, Reaches, Waits, ExprAdds, IfElse, IfEnd;
    d := C.At(|at.s2.blocks|, 0, r);
    ReachesSelf(m, fb, d);
    SilentReaches(m, fb, d, d);
  }

  lemma {:induction false} SilentReaches(m: M.Machine, fb: seq<C.Block>, c: C.Config, d: C.Config)
    requires Reaches(m, fb, c, d)
    ensures ReachesWith(m, fb, c, d, [])
  {}

  lemma {:induction false} ElseFollows(m: M.Machine, t: Tree, s: Checking, s': Checking, at: IfStates,
                                       fb: seq<C.Block>, env: T.Env, V: set<nat>, a: T.Store, r: C.Store, fuel: nat)
    returns (d: C.Config)
    requires Running(s) && IfSteps(t, s, s', at) && IfLaid(t, s, s', at, fb) && Set(t, s, env, V) && Agree(m, V, a, r)
    ensures Running(s')
    ensures var o := if |t.children| == 3
      then T.Exec(m, t.children[2], env, s.places + T.Slots(t.children[0]) + T.Slots(t.children[1]), a, fuel)
      else T.Normal(a);
      var w := if |t.children| == 3 then T.Tests(m, t.children[2], env,
        s.places + T.Slots(t.children[0]) + T.Slots(t.children[1]), a, fuel) else [];
      Follows(m, fb, V, C.At(|at.s2.blocks|, 0, r), o, w, s', d, fuel)
    decreases fuel, t, 0
  {
    hide *;
    IsIfAt(t, s, s', at);
    IfCount(t);
    if |t.children| == 2 {
      d := NoElse(m, t, s, s', at, fb, V, a, r, fuel);
    } else {
      ElseParts(t, s, s', at, fb);
      ThreeParts(t, s.places);
      PartSet(t, s, env, V, t.children[2], at.s3);
      d := StmtFollows(m, t.children[2], at.s3, at.s4, fb, env, V, a, r, fuel);
      d := FollowsGoto(m, fb, V, Here(at.s3, r), T.Exec(m, t.children[2], env, at.s3.places, a, fuel),
                       T.Tests(m, t.children[2], env, at.s3.places, a, fuel), at.s4, s', d, fuel);
    }
  }

  // ----- `while` -----

  lemma {:induction false} WhileExec(m: M.Machine, t: Tree, env: T.Env, n: nat, a: T.Store, fuel: nat)
    requires t.kind == While && |t.children| == 2
    ensures var v := T.Eval(m, t.children[0], env, a);
      T.Exec(m, t, env, n, a, fuel) ==
      if !m.truthy(v.value) then T.Normal(v.store)
      else
        var o := T.Exec(m, t.children[1], env, n + T.Slots(t.children[0]), v.store, fuel);
        if !o.Normal? then o else if fuel == 0 then T.OutOfFuel else T.Exec(m, t, env, n, o.store, fuel - 1)
    ensures var v := T.Eval(m, t.children[0], env, a);
      T.Tests(m, t, env, n, a, fuel) ==
      if !m.truthy(v.value) then [v.value]
      else
        var n1 := n + T.Slots(t.children[0]);
        var o := T.Exec(m, t.children[1], env, n1, v.store, fuel);
        [v.value] + T.Tests(m, t.children[1], env, n1, v.store, fuel) +
        if o.Normal? && fuel > 0 then T.Tests(m, t, env, n, o.store, fuel - 1) else []
  {
    hide T.Eval, T.Slots;
  }

  /** What is known at the pieces of a `while`. */
  lemma {:induction false} WhileParts(t: Tree, s: Checking, s': Checking, at: WhileStates, fb: seq<C.Block>)
    requires WhileSteps(t, s, s', at) && WhileLaid(s, s', at, fb)
    ensures t.kind == While && |t.children| == 2 && Obeys(t.children[0]) && IsStmt(t.children[1])
    ensures Running(s) && Waits(fb, s, Cur(s), GotoInst(|s.blocks|))
    ensures Running(at.s1) && Good(at.s1) && ScopeGood(at.s1) && at.s1.places == s.places && at.s1.scope == s.scope
    ensures Cur(at.s1) == |s.blocks| && CodeOf(at.s1, Cur(at.s1)) == []
    ensures forall r :: Here(at.s1, r) == C.At(|s.blocks|, 0, r)
    ensures Check(t.children[0], at.s1) == Some(at.s2) && Holds(fb, at.s1, at.s2) && Running(at.s2) && |at.s2.stack| > 0
    ensures Waits(fb, at.s2, Cur(at.s2), BranchInst(at.s2, |at.s2.blocks|, |at.s4.blocks|))
    ensures var s3 := NewBlock(at.s2);
      Good(s3) && ScopeGood(s3) && Check(t.children[1], s3) == Some(at.s4) && Holds(fb, s3, at.s4) &&
      s3.places == s.places + T.Slots(t.children[0]) && s3.scope == s.scope
    ensures forall r :: Here(NewBlock(at.s2), r) == C.At(|at.s2.blocks|, 0, r)
    ensures Running(at.s4) && Waits(fb, at.s4, Cur(at.s4), GotoInst(|s.blocks|))
    ensures Running(s') && Cur(s') == |at.s4.blocks| && CodeOf(s', Cur(s')) == []
  {
    hide Good, ScopeGood, Check, Obeys, Holds, Waits, Extends, Left, WhileEnd, ExprAdds;
    ExprFacts(t.children[0], at.s1, at.s2);
  }

  lemma {:induction false} GotoStep(m: M.Machine, fb: seq<C.Block>, s: Checking, to: C.BlockId, r: C.Store)
    requires Running(s) && Waits(fb, s, Cur(s), GotoInst(to))
    ensures Reaches(m, fb, Here(s, r), C.At(to, 0, r))
  {
    hide Waits, ReachesWith, Here;
    JumpStep(m, fb, s, GotoInst(to), r);
  }

  lemma {:induction false} WhileFollows(m: M.Machine, t: Tree, s: Checking, s': Checking, fb: seq<C.Block>,
                                        env: T.Env, V: set<nat>, a: T.Store, r: C.Store, fuel: nat)
    returns (d: C.Config)
    requires Running(s) && Good(s) && ScopeGood(s) && IsWhile(t) && Check(t, s) == Some(s')
    requires Holds(fb, s, s') && Set(t, s, env, V) && Agree(m, V, a, r)
    ensures Follows(m, fb, V, Here(s, r), T.Exec(m, t, env, s.places, a, fuel),
      T.Tests(m, t, env, s.places, a, fuel), s', d, fuel)
    decreases fuel, t, 1
  {
    hide *;
    var at := WhileIs(t, s, s');
    WhileHolds(t, s, s', at, fb);
    WhileParts(t, s, s', at, fb);
    GotoStep(m, fb, s, |s.blocks|, r);
    d := LoopFollows(m, t, s, s', at, fb, env, V, a, r, fuel);
    FollowsSilently(m, fb, V, Here(s, r), Here(at.s1, r), T.Exec(m, t, env, s.places, a, fuel),
                    T.Tests(m, t, env, s.places, a, fuel), s', d, fuel);
  }

  /** A loop, from its head. */
  lemma {:induction false} LoopFollows(m: M.Machine, t: Tree, s: Checking, s': Checking, at: WhileStates,
                                       fb: seq<C.Block>, env: T.Env, V: set<nat>, a: T.Store, r: C.Store, fuel: nat)
    returns (d: C.Config)
    requires WhileSteps(t, s, s', at) && WhileLaid(s, s', at, fb) && Set(t, s, env, V) && Agree(m, V, a, r)
    ensures Running(s') && Running(at.s1)
    ensures Follows(m, fb, V, Here(at.s1, r), T.Exec(m, t, env, s.places, a, fuel),
      T.Tests(m, t, env, s.places, a, fuel), s', d, fuel)
    decreases fuel, t, 0
  {
    hide *;
    WhileParts(t, s, s', at, fb);
    WhileExec(m, t, env, s.places, a, fuel);
    ThreeParts(t, s.places);
    CondSet(t, s, env, V, t.children[0]);
    var v := T.Eval(m, t.children[0], env, a);
    var r' := BranchTaken(m, t.children[0], at.s1, at.s2, fb, env, V, a, r, |at.s2.blocks|, |at.s4.blocks|);
    var c, e, n1 := Here(at.s1, r), Here(at.s2, r'), s.places + T.Slots(t.children[0]);
    if !m.truthy(v.value) {
      d := LoopLeft(m, fb, V, c, v, s', r', fuel);
    } else {
      var o, w := T.Exec(m, t.children[1], env, n1, v.store, fuel), T.Tests(m, t.children[1], env, n1, v.store, fuel);
      var b := BodyFollows(m, t, s, s', at, fb, env, V, v.store, r', fuel);
      if o.Normal? && fuel > 0 {
        NextRound(m, fb, V, C.Step(m, fb, e), o, w, at.s4, at.s1, b, fuel);
        d := LoopFollows(m, t, s, s', at, fb, env, V, o.store, b.store, fuel - 1);
        RoundDone(m, fb, V, c, e, v.value, Here(at.s1, b.store), w, T.Exec(m, t, env, s.places, o.store, fuel - 1),
                  T.Tests(m, t, env, s.places, o.store, fuel - 1), s', d, fuel);
      } else {
        d := b;
        LoopBroken(m, fb, V, c, v.value, C.Step(m, fb, e), o, w, at.s4, s', d, fuel);
      }
    }
  }

  lemma {:induction false} LoopLeft(m: M.Machine, fb: seq<C.Block>, V: set<nat>, c: C.Config, v: T.Valued,
                                    s': Checking, r: C.Store, fuel: nat) returns (d: C.Config)
    requires Running(s') && CodeOf(s', Cur(s')) == [] && Agree(m, V, v.store, r)
    requires ReachesWith(m, fb, c, C.At(Cur(s'), 0, r), [v.value])
    ensures Follows(m, fb, V, c, T.Normal(v.store), [v.value], s', d, fuel)
  {
    d := C.At(Cur(s'), 0, r);
  }

  lemma {:induction false} BodyFollows(m: M.Machine, t: Tree, s: Checking, s': Checking, at: WhileStates,
                                       fb: seq<C.Block>, env: T.Env, V: set<nat>, a: T.Store, r: C.Store, fuel: nat)
    returns (d: C.Config)
    requires WhileSteps(t, s, s', at) && WhileLaid(s, s', at, fb) && Set(t, s, env, V) && Agree(m, V, a, r)
    ensures Running(at.s4) &&
      Follows(m, fb, V, C.At(|at.s2.blocks|, 0, r),
        T.Exec(m, t.children[1], env, s.places + T.Slots(t.children[0]), a, fuel),
        T.Tests(m, t.children[1], env, s.places + T.Slots(t.children[0]), a, fuel), at.s4, d, fuel)
    decreases fuel, t.children[1], 4
  {
    hide *;
    var s3 := NewBlock(at.s2);
    WhileParts(t, s, s', at, fb);
    ThreeParts(t, s.places);
    PartSet(t, s, env, V, t.children[1], s3);
    d := StmtFollows(m, t.children[1], s3, at.s4, fb, env, V, a, r, fuel);
  }

  /** After the body, control is back at the head of the loop. */
  lemma {:induction false} NextRound(m: M.Machine, fb: seq<C.Block>, V: set<nat>, c: C.Config, o: T.Outcome,
                                     w: seq<int>, s4: Checking, s1: Checking, b: C.Config, fuel: nat)
    requires Running(s4) && Running(s1) && Follows(m, fb, V, c, o, w, s4, b, fuel) && o.Normal?
    requires Waits(fb, s4, Cur(s4), GotoInst(Cur(s1))) && CodeOf(s1, Cur(s1)) == []
    ensures b.At? && ReachesWith(m, fb, c, Here(s1, b.store), w) && Agree(m, V, o.store, b.store)
  {
    JumpStep(m, fb, s4, GotoInst(Cur(s1)), b.store);
    ThenSilently(m, fb, c, b, Here(s1, b.store), w);
  }

  lemma {:induction false} RoundDone(m: M.Machine, fb: seq<C.Block>, V: set<nat>, c: C.Config, e: C.Config, v: int,
                                     c': C.Config, w: seq<int>, o: T.Outcome, u: seq<int>, s': Checking, d: C.Config,
                                     fuel: nat)
    requires Running(s') && fuel > 0 && Reaches(m, fb, c, e) && ReachesWith(m, fb, c, C.Step(m, fb, e), [v])
    requires ReachesWith(m, fb, C.Step(m, fb, e), c', w) && Follows(m, fb, V, c', o, u, s', d, fuel - 1)
    ensures Follows(m, fb, V, c, o, [v] + w + u, s', d, fuel)
  {
    hide ReachesWith, Unfinished, C.Step;
    ReachesWithTrans(m, fb, c, C.Step(m, fb, e), c', [v], w);
    ReachesWithTrans(m, fb, c, c', d, [v] + w, u);
    if o.OutOfFuel? {
      UnfinishedStep(m, fb, e, c', w, fuel - 1);
      UnfinishedBefore(m, fb, c, e, [], fuel);
    }
  }

  lemma {:induction false} LoopBroken(m: M.Machine, fb: seq<C.Block>, V: set<nat>, c: C.Config, v: int, c': C.Config,
                                      o: T.Outcome, w: seq<int>, s4: Checking, s': Checking, d: C.Config, fuel: nat)
    requires Running(s4) && Running(s') && ReachesWith(m, fb, c, c', [v]) && Follows(m, fb, V, c', o, w, s4, d, fuel)
    requires (!o.Normal? || fuel == 0) && c.At?
    ensures Follows(m, fb, V, c, if o.Normal? then T.OutOfFuel else o, [v] + w + [], s', d, fuel)
  {
    hide ReachesWith;
    assert [v] + w + [] == [v] + w;
    ReachesWithTrans(m, fb, c, c', d, [v], w);
    if o.OutOfFuel? {
      hide Unfinished;
      UnfinishedBefore(m, fb, c, c', [v], fuel);
    }
  }

  // ----- whole programs -----

  ghost predicate SameVariables(m: M.Machine, t: Tree, a: T.Store, r: C.Store) {
    Agree(m, T.Decls(t, 0), a, r)
  }

  lemma {:induction false} ProgramFollows(m: M.Machine, t: Tree, s: Checking, fuel: nat) returns (d: C.Config)
    requires IsBlock(t) && Check(t, Initial()) == Some(s)
    ensures Follows(m, s.blocks, T.Decls(t, 0), C.At(0, 0, map[]), T.Exec(m, t, map[], 0, map[], fuel),
                    T.Tests(m, t, map[], 0, map[], fuel), s, d, fuel)
  {
    hide Check, Good, ScopeGood, StmtAdds, Follows;
    EmptyGood();
    ProgramChecked(t, s);
    SlotsApart(t);
    assert Holds(s.blocks, Initial(), s);
    assert Here(Initial(), map[]) == C.At(0, 0, map[]);
    d := StmtFollows(m, t, Initial(), s, s.blocks, map[], T.Decls(t, 0), map[], map[], fuel);
  }

  lemma {:induction false} SlotsApart(t: Tree)
    ensures Set(t, Initial(), map[], T.Decls(t, 0))
  {
    T.SlotsWithin(t, 0);
  }

  /** At the end of the last block, control leaves the function. */
  lemma {:induction false} LastBlock(m: M.Machine, s: Checking, r: C.Store)
    requires Running(s)
    ensures Reaches(m, s.blocks, Here(s, r), C.Done(C.Nothing, r))
  {
    StepReaches(m, s.blocks, Here(s, r));
  }

  /** The run of the blocks, `n` steps from the entry. */
  function RunOf(m: M.Machine, s: Checking, n: nat): C.Config {
    C.Run(m, s.blocks, C.At(0, 0, map[]), n)
  }

  function TraceOf(m: M.Machine, s: Checking, n: nat): seq<int> {
    C.Trace(m, s.blocks, C.At(0, 0, map[]), n)
  }

  function TestsOf(m: M.Machine, t: Tree, fuel: nat): seq<int> {
    T.Tests(m, t, map[], 0, map[], fuel)
  }

  /** The run of the blocks, followed to the end of the program or of the fuel. */
  lemma {:induction false} ProgramRuns(m: M.Machine, t: Tree, s: Checking, fuel: nat) returns (n: nat, r: C.Store)
    requires IsBlock(t) && Check(t, Initial()) == Some(s)
    ensures TraceOf(m, s, n) == TestsOf(m, t, fuel)
    ensures match T.Exec(m, t, map[], 0, map[], fuel)
            case Normal(a) => RunOf(m, s, n) == C.Done(C.Nothing, r) && SameVariables(m, t, a, r)
            case Returned(v, a) => RunOf(m, s, n) == C.Done(AsResult(v), r) && SameVariables(m, t, a, r)
            case OutOfFuel => Unfinished(m, s.blocks, C.At(0, 0, map[]), fuel)
  {
    hide Check, Agree, T.Exec, T.Tests;
    var d := ProgramFollows(m, t, s, fuel);
    var c, w, o := C.At(0, 0, map[]), TestsOf(m, t, fuel), T.Exec(m, t, map[], 0, map[], fuel);
    if o.Normal? {
      LastBlock(m, s, d.store);
      var e := C.Done(C.Nothing, d.store);
      ThenSilently(m, s.blocks, c, d, e, w);
      d := e;
    }
    r := d.store;
    n :| C.Run(m, s.blocks, c, n) == d && C.Trace(m, s.blocks, c, n) == w;
  }

  /** If the program ends, so does the run of its blocks, with the same result and the same variables, and
      having tested the same values. */
  lemma {:induction false} EndsHalts(m: M.Machine, t: Tree, s: Checking, fuel: nat, result: T.Result, a: T.Store)
    returns (n: nat, r: C.Store)
    requires IsBlock(t) && Check(t, Initial()) == Some(s) && T.EndsWithin(m, t, fuel, result, a)
    ensures RunOf(m, s, n) == C.Done(AsResult(result), r)
    ensures TraceOf(m, s, n) == TestsOf(m, t, fuel)
    ensures SameVariables(m, t, a, r)
  {
    hide Check, Agree, T.Exec, T.Tests;
    n, r := ProgramRuns(m, t, s, fuel);
  }

  /** If the run of the blocks has ended after `n` steps, the program ends within that much fuel. */
  lemma {:induction false} HaltsEnds(m: M.Machine, t: Tree, s: Checking, n: nat) returns (v: T.Result, a: T.Store)
    requires IsBlock(t) && Check(t, Initial()) == Some(s) && RunOf(m, s, n).Done?
    ensures T.EndsWithin(m, t, n, v, a)
    ensures RunOf(m, s, n).result == AsResult(v)
    ensures SameVariables(m, t, a, RunOf(m, s, n).store)
    ensures TraceOf(m, s, n) == TestsOf(m, t, n)
  {
    hide Check, Agree, T.Exec, T.Tests;
    var k, r := ProgramRuns(m, t, s, n);
    var o := T.Exec(m, t, map[], 0, map[], n);
    OneEnd(m, s.blocks, C.At(0, 0, map[]), k, n);
    v, a := if o.Normal? then T.Nothing else o.result, o.store;
  }

  /** What the run of the blocks tests in `n` steps, the program tests within that much fuel. */
  lemma {:induction false} TraceTests(m: M.Machine, t: Tree, s: Checking, n: nat)
    requires IsBlock(t) && Check(t, Initial()) == Some(s)
    ensures TraceOf(m, s, n) <= TestsOf(m, t, n)
  {
    hide Check, Agree, T.Exec, T.Tests;
    var k, r := ProgramRuns(m, t, s, n);
    var c := C.At(0, 0, map[]);
    if n <= k {
      C.TraceAdd(m, s.blocks, c, n, k - n);
    } else {
      C.TraceAdd(m, s.blocks, c, k, n - k);
      if T.Exec(m, t, map[], 0, map[], n).OutOfFuel? {
        T.RunningTests(m, t, map[], 0, map[], n);
      } else {
        C.TraceDone(m, s.blocks, RunOf(m, s, k), n - k);
      }
    }
  }

  /** A run ends once. */
  lemma {:induction false} OneEnd(m: M.Machine, fb: seq<C.Block>, c: C.Config, j: nat, k: nat)
    requires C.Run(m, fb, c, j).Done? && C.Run(m, fb, c, k).Done?
    ensures C.Run(m, fb, c, j) == C.Run(m, fb, c, k) && C.Trace(m, fb, c, j) == C.Trace(m, fb, c, k)
  {
    if j <= k {
      EndStays(m, fb, c, j, k);
    } else {
      EndStays(m, fb, c, k, j);
    }
  }

  lemma {:induction false} EndStays(m: M.Machine, fb: seq<C.Block>, c: C.Config, j: nat, k: nat)
    requires j <= k && C.Run(m, fb, c, j).Done?
    ensures C.Run(m, fb, c, j) == C.Run(m, fb, c, k) && C.Trace(m, fb, c, j) == C.Trace(m, fb, c, k)
  {
    var d := C.Run(m, fb, c, j);
    C.RunAdd(m, fb, c, j, k - j);
    C.TraceAdd(m, fb, c, j, k - j);
    C.RunDone(m, fb, d, k - j);
    C.TraceDone(m, fb, d, k - j);
  }
}
