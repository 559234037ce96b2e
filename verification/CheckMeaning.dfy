/** Running the blocks of an accepted program does what its tree says. */
module CheckMeaning {
  import opened Options
  import M = Machines
  import C = Cfgs
  import opened Syntax
  import opened Grammar
  import opened CheckSpec
  import T = TreeSemantics
  import opened CheckShape
  import opened CheckBlocks

  // ----- runs -----

  /** The run from `c` comes to `d`, and tests the values `w` on the way. */
  ghost predicate ReachesWith(m: M.Machine, fb: seq<C.Block>, c: C.Config, d: C.Config, w: seq<int>) {
    exists n: nat :: C.Run(m, fb, c, n) == d && C.Trace(m, fb, c, n) == w
  }

  /** ... and tests nothing. */
  ghost predicate Reaches(m: M.Machine, fb: seq<C.Block>, c: C.Config, d: C.Config) {
    ReachesWith(m, fb, c, d, [])
  }

  /** The run from `c` is still going after `n` steps. */
  predicate Unfinished(m: M.Machine, fb: seq<C.Block>, c: C.Config, n: nat) {
    !C.Run(m, fb, c, n).Done?
  }

  lemma {:induction false} ReachesSelf(m: M.Machine, fb: seq<C.Block>, c: C.Config)
    ensures Reaches(m, fb, c, c)
  {
    assert C.Run(m, fb, c, 0) == c && C.Trace(m, fb, c, 0) == [];
  }

  lemma {:induction false} ReachesWithTrans(m: M.Machine, fb: seq<C.Block>, c: C.Config, d: C.Config, e: C.Config,
                                            w: seq<int>, u: seq<int>)
    requires ReachesWith(m, fb, c, d, w) && ReachesWith(m, fb, d, e, u)
    ensures ReachesWith(m, fb, c, e, w + u)
  {
    var j: nat :| C.Run(m, fb, c, j) == d && C.Trace(m, fb, c, j) == w;
    var k: nat :| C.Run(m, fb, d, k) == e && C.Trace(m, fb, d, k) == u;
    C.RunAdd(m, fb, c, j, k);
    C.TraceAdd(m, fb, c, j, k);
  }

  lemma {:induction false} ReachesTrans(m: M.Machine, fb: seq<C.Block>, c: C.Config, d: C.Config, e: C.Config)
    requires Reaches(m, fb, c, d) && Reaches(m, fb, d, e)
    ensures Reaches(m, fb, c, e)
  {
    hide ReachesWith;
    var none: seq<int> := [];
    ReachesWithTrans(m, fb, c, d, e, none, none);
    assert none + none == none;
  }

  lemma {:induction false} StepReaches(m: M.Machine, fb: seq<C.Block>, c: C.Config)
    ensures ReachesWith(m, fb, c, C.Step(m, fb, c), C.Tested(m, fb, c))
  {
    var d := C.Step(m, fb, c);
    assert C.Run(m, fb, d, 0) == d && C.Trace(m, fb, d, 0) == [];
    assert C.Run(m, fb, c, 1) == d && C.Trace(m, fb, c, 1) == C.Tested(m, fb, c) + [];
  }

  lemma {:induction false} UnfinishedBefore(m: M.Machine, fb: seq<C.Block>, c: C.Config, d: C.Config, w: seq<int>,
                                            n: nat)
    requires ReachesWith(m, fb, c, d, w) && Unfinished(m, fb, d, n)
    ensures Unfinished(m, fb, c, n)
  {
    var j: nat :| C.Run(m, fb, c, j) == d && C.Trace(m, fb, c, j) == w;
    C.RunAdd(m, fb, c, j, n);
    C.RunAdd(m, fb, c, n, j);
    if C.Run(m, fb, c, n).Done? {
      C.RunDone(m, fb, C.Run(m, fb, c, n), j);
    }
  }

  lemma {:induction false} UnfinishedStep(m: M.Machine, fb: seq<C.Block>, c: C.Config, d: C.Config, w: seq<int>, n: nat)
    requires ReachesWith(m, fb, C.Step(m, fb, c), d, w) && Unfinished(m, fb, d, n)
    ensures Unfinished(m, fb, c, n + 1)
  {
    UnfinishedBefore(m, fb, C.Step(m, fb, c), d, w, n);
  }

  // ----- variables -----

  /** The variables `V` have the same values in both stores. */
  ghost predicate Agree(m: M.Machine, V: set<nat>, s: T.Store, r: C.Store) {
    forall p :: p in V ==> T.Read(m, s, p) == C.Read(m, r, p)
  }

  /** Names mean the same variables to the checker and in the tree's semantics. */
  ghost predicate EnvIs(scope: Scope, env: T.Env, V: set<nat>) {
    forall x :: FindSymbol(scope, x) == (if x in env then C.Slot(env[x]) else C.NoPlace) && (x in env ==> env[x] in V)
  }

  // ----- expressions -----

  /** Where control stands when the checker is at `s`. */
  function Here(s: Checking, r: C.Store): C.Config
    requires Running(s)
  {
    C.At(Cur(s), |CodeOf(s, Cur(s))|, r)
  }

  function Top(s: Checking): C.PlaceRef
    requires |s.stack| > 0
  {
    s.stack[|s.stack| - 1]
  }

  lemma {:induction false} PlainStep(m: M.Machine, fb: seq<C.Block>, s: Checking, s': Checking, i: C.Inst, r: C.Store)
    requires Running(s) && Running(s') && Cur(s') == Cur(s) && CodeOf(s', Cur(s)) == CodeOf(s, Cur(s)) + [i]
    requires !C.Jump(i.op)
    requires Cur(s) < |fb| && CodeOf(s', Cur(s)) <= fb[Cur(s)].code
    ensures Reaches(m, fb, Here(s, r), Here(s', C.Write(r, i.write, C.Value(m, r, i))))
  {
    assert fb[Cur(s)].code[|CodeOf(s, Cur(s))|] == i;
    StepReaches(m, fb, Here(s, r));
  }

  /** Expressions whose root is not an assignment contain none. */
  predicate NoAssign(t: Tree) {
    t.kind != Assign && forall k :: 0 <= k < |t.children| ==> NoAssign(t.children[k])
  }

  /** No assignment below an arithmetic operator. */
  predicate AssignsOnTop(t: Tree) {
    if t.kind == Assign then |t.children| == 2 && AssignsOnTop(t.children[1]) else NoAssign(t)
  }

  /** The precedences keep assignments out of the operands of arithmetic. */
  lemma {:induction false} ObeysAssignsOnTop(t: Tree)
    requires Obeys(t)
    ensures AssignsOnTop(t) && (t.kind != Assign ==> NoAssign(t))
    decreases t
  {
    if !IsPrimary(t) {
      ObeysAssignsOnTop(t.children[0]);
      ObeysAssignsOnTop(t.children[1]);
    }
  }

  /** Running the code of an expression leaves its value in the place on top of the stack. If nothing is
      assigned, no place in use before changes; so a value may be read later than the tree says. */
  ghost predicate ExprRuns(m: M.Machine, t: Tree, s: Checking, s': Checking, fb: seq<C.Block>, env: T.Env,
                           V: set<nat>, a: T.Store, r: C.Store, r': C.Store)
    requires Running(s) && Running(s') && |s'.stack| > 0
  {
    var v := T.Eval(m, t, env, a);
    Reaches(m, fb, Here(s, r), Here(s', r')) && Agree(m, V, v.store, r') && C.ReadRef(m, r', Top(s')) == v.value &&
    (NoAssign(t) ==> v.store == a && forall q :: 0 <= q < s.places ==> C.Read(m, r', q) == C.Read(m, r, q))
  }

  lemma {:induction false} DecimalLast(digits: string, c: char)
    ensures T.Decimal(digits + [c]) == T.Decimal(digits) * 10 + (c as int - '0' as int)
  {
    if |digits| == 0 {
      assert digits + [c] == [c] && T.Power(0) == 1;
    } else {
      assert (digits + [c])[1..] == digits[1..] + [c];
      DecimalLast(digits[1..], c);
      assert T.Power(|digits|) == 10 * T.Power(|digits| - 1);
    }
  }

  /** Digit by digit, the checker comes to the number that is written, in 64 bits. */
  lemma {:induction false} LiteralIs(text: string)
    ensures Literal(text) == T.Decimal(text) % WORD
  {
    if |text| > 0 {
      var init, c := text[..|text| - 1], text[|text| - 1];
      assert text == init + [c];
      LiteralIs(init);
      DecimalLast(init, c);
    }
  }

  lemma {:induction false} SymbolRuns(m: M.Machine, t: Tree, s: Checking, s': Checking, fb: seq<C.Block>, env: T.Env,
                                      V: set<nat>, a: T.Store, r: C.Store)
    requires Running(s) && IsPrimary(t) && t.kind == Symbol && Check(t, s) == Some(s') && EnvIs(s.scope, env, V)
    requires Agree(m, V, a, r)
    ensures Running(s') && |s'.stack| > 0 && ExprRuns(m, t, s, s', fb, env, V, a, r, r)
  {
    ReachesSelf(m, fb, Here(s, r));
    hide Reaches;
    assert FindSymbol(s.scope, Text(t.token)) != C.NoPlace;
  }

  lemma {:induction false} IntegerRuns(m: M.Machine, t: Tree, s: Checking, s': Checking, fb: seq<C.Block>, env: T.Env,
                                       V: set<nat>, a: T.Store, r: C.Store) returns (r': C.Store)
    requires Running(s) && IsPrimary(t) && t.kind == Integer && Check(t, s) == Some(s') && Holds(fb, s, s')
    requires T.Temps(t, s.places) !! V && Agree(m, V, a, r)
    ensures Running(s') && |s'.stack| > 0 && ExprRuns(m, t, s, s', fb, env, V, a, r, r')
  {
    LiteralIs(t.token.text);
    hide Literal, T.Decimal;
    var i := C.Inst(C.IntegerConst(Literal(Text(t.token))), [], C.Slot(s.places));
    assert s.stack[|s.stack|..] == [];
    assert CodeOf(s', Cur(s)) == CodeOf(s, Cur(s)) + [i];
    PlainStep(m, fb, s, s', i, r);
    r' := r[s.places := Literal(Text(t.token))];
    assert s.places in T.Temps(t, s.places);
    hide Reaches, Holds;
  }

  lemma {:induction false} LeafRuns(m: M.Machine, t: Tree, s: Checking, s': Checking, fb: seq<C.Block>, env: T.Env,
                                    V: set<nat>, a: T.Store, r: C.Store) returns (r': C.Store)
    requires Running(s) && IsPrimary(t) && Check(t, s) == Some(s') && Holds(fb, s, s')
    requires EnvIs(s.scope, env, V) && T.Temps(t, s.places) !! V && Agree(m, V, a, r)
    ensures |s'.stack| > 0 && ExprRuns(m, t, s, s', fb, env, V, a, r, r')
  {
    hide EnvIs, Agree, Holds, ExprRuns, Check, T.Temps;
    if t.kind == Symbol {
      r' := r;
      SymbolRuns(m, t, s, s', fb, env, V, a, r);
    } else {
      r' := IntegerRuns(m, t, s, s', fb, env, V, a, r);
    }
  }

  lemma {:induction false} TempsPair(t: Tree, n: nat)
    requires |t.children| == 2
    ensures T.Temps(t.children[0], n) <= T.Temps(t, n)
    ensures T.Temps(t.children[1], n + T.Slots(t.children[0])) <= T.Temps(t, n)
    ensures T.Decls(t.children[0], n) <= T.Decls(t, n)
    ensures T.Decls(t.children[1], n + T.Slots(t.children[0])) <= T.Decls(t, n)
    ensures Arithmetic(t.kind) ==> n + T.Slots(t.children[0]) + T.Slots(t.children[1]) in T.Temps(t, n)
  {
    var cs, k := t.children, n + T.Slots(t.children[0]);
    Pair(t);
    assert T.TempsAll(cs, n) == T.Temps(cs[0], n) + T.TempsAll(cs[1..], k);
    assert T.TempsAll(cs[1..], k) == T.Temps(cs[1..][0], k) + T.TempsAll(cs[1..][1..], k + T.Slots(cs[1..][0]));
    assert T.DeclsAll(cs, n) == T.Decls(cs[0], n) + T.DeclsAll(cs[1..], k);
    assert T.DeclsAll(cs[1..], k) == T.Decls(cs[1..][0], k) + T.DeclsAll(cs[1..][1..], k + T.Slots(cs[1..][0]));
  }

  /** The operation, once both operands are on the stack. */
  lemma {:induction false} OperationRuns(m: M.Machine, t: Tree, s: Checking, s1: Checking, s2: Checking,
                                         fb: seq<C.Block>, r2: C.Store)
    returns (r': C.Store)
    requires Arithmetic(t.kind) && |t.children| == 2
    requires ExprAdds(t.children[0], s, s1) && ExprAdds(t.children[1], s1, s2)
    requires BinaryEnd(t, s2).Some? && Holds(fb, s, BinaryEnd(t, s2).value)
    ensures |s2.stack| == |s.stack| + 2 && s2.stack[|s.stack|] == s1.stack[|s.stack|]
    ensures var v := T.Applied(m, t.kind, C.ReadRef(m, r2, s2.stack[|s.stack|]), C.ReadRef(m, r2, Top(s2)));
      r' == r2[s2.places := v]
    ensures var s' := BinaryEnd(t, s2).value;
      Running(s') && |s'.stack| > 0 && Top(s') == C.Slot(s2.places) && Reaches(m, fb, Here(s2, r2), Here(s', r'))
  {
    var n := |s.stack|;
    TwoAdded(t.children[0], t.children[1], s, s1, s2);
    hide ExprAdds, Good, Extends, Check;
    var i := C.Inst(C.Arithmetic(OpOf(t.kind)), [s2.stack[n], s2.stack[n + 1]], C.Slot(s2.places));
    var s' := BinaryEnd(t, s2).value;
    assert s2.stack[|s2.stack| - 2..] == i.args;
    assert CodeOf(s', Cur(s)) == CodeOf(s2, Cur(s)) + [i];
    PlainStep(m, fb, s2, s', i, r2);
    r' := r2[s2.places := C.Value(m, r2, i)];
  }

  lemma {:induction false} ExprGives(m: M.Machine, t: Tree, s: Checking, s': Checking, fb: seq<C.Block>, env: T.Env,
                                     V: set<nat>, a: T.Store, r: C.Store, r': C.Store)
    requires Running(s) && Running(s') && |s'.stack| > 0 && ExprRuns(m, t, s, s', fb, env, V, a, r, r')
    ensures Reaches(m, fb, Here(s, r), Here(s', r'))
    ensures Agree(m, V, T.Eval(m, t, env, a).store, r')
    ensures C.ReadRef(m, r', Top(s')) == T.Eval(m, t, env, a).value
    ensures NoAssign(t) ==>
      T.Eval(m, t, env, a).store == a && forall q :: 0 <= q < s.places ==> C.Read(m, r', q) == C.Read(m, r, q)
  {}

  lemma {:induction false} BinaryRuns(m: M.Machine, t: Tree, s: Checking, s1: Checking, s2: Checking,
                                      fb: seq<C.Block>, env: T.Env, V: set<nat>, a: T.Store, r: C.Store, r1: C.Store,
                                      r2: C.Store) returns (r': C.Store)
    requires Obeys(t) && Arithmetic(t.kind) && |t.children| == 2 && NoAssign(t)
    requires ExprAdds(t.children[0], s, s1) && ExprAdds(t.children[1], s1, s2) && Holds(fb, s, BinaryEnd(t, s2).value)
    requires ExprRuns(m, t.children[0], s, s1, fb, env, V, a, r, r1)
    requires ExprRuns(m, t.children[1], s1, s2, fb, env, V, T.Eval(m, t.children[0], env, a).store, r1, r2)
    requires s2.places !in V
    ensures var s' := BinaryEnd(t, s2).value;
      Running(s') && |s'.stack| > 0 && ExprRuns(m, t, s, s', fb, env, V, a, r, r')
  {
    r' := OperationRuns(m, t, s, s1, s2, fb, r2);
    hide *;
    ExprFacts(t.children[0], s, s1);
    ExprFacts(t.children[1], s1, s2);
    ExprGives(m, t.children[0], s, s1, fb, env, V, a, r, r1);
    ExprGives(m, t.children[1], s1, s2, fb, env, V, T.Eval(m, t.children[0], env, a).store, r1, r2);
    ReachesTrans(m, fb, Here(s, r), Here(s1, r1), Here(s2, r2));
    ReachesTrans(m, fb, Here(s, r), Here(s2, r2), Here(BinaryEnd(t, s2).value, r'));
    OperandsQuiet(t);
    BinaryGives(m, t, s, s1, s2, BinaryEnd(t, s2).value, fb, env, V, a, r, r1, r2, r');
  }

  lemma {:induction false} OperandsQuiet(t: Tree)
    requires NoAssign(t) && |t.children| == 2
    ensures NoAssign(t.children[0]) && NoAssign(t.children[1])
  {}

  lemma {:induction false} BinaryGives(m: M.Machine, t: Tree, s: Checking, s1: Checking, s2: Checking, s': Checking,
                                       fb: seq<C.Block>, env: T.Env, V: set<nat>, a: T.Store, r: C.Store, r1: C.Store,
                                       r2: C.Store, r': C.Store)
    requires Arithmetic(t.kind) && |t.children| == 2 && Running(s) && Running(s1) && Running(s2) && Running(s')
    requires |s'.stack| > 0 && Top(s') == C.Slot(s2.places) && Reaches(m, fb, Here(s, r), Here(s', r'))
    requires |s1.stack| == |s.stack| + 1 && |s2.stack| == |s.stack| + 2 && s2.stack[|s.stack|] == s1.stack[|s.stack|]
    requires C.GoodRef(s1.stack[|s.stack|], s1.places) && s.places <= s1.places <= s2.places && s2.places !in V
    requires var v := T.Applied(m, t.kind, C.ReadRef(m, r2, s2.stack[|s.stack|]), C.ReadRef(m, r2, Top(s2)));
      r' == r2[s2.places := v]
    requires var v1 := T.Eval(m, t.children[0], env, a);
      var v2 := T.Eval(m, t.children[1], env, v1.store);
      v1.store == a == v2.store && C.ReadRef(m, r1, Top(s1)) == v1.value && C.ReadRef(m, r2, Top(s2)) == v2.value &&
      Agree(m, V, v2.store, r2)
    requires forall q :: 0 <= q < s.places ==> C.Read(m, r1, q) == C.Read(m, r, q)
    requires forall q :: 0 <= q < s1.places ==> C.Read(m, r2, q) == C.Read(m, r1, q)
    ensures ExprRuns(m, t, s, s', fb, env, V, a, r, r')
  {
    hide Reaches, NoAssign, Obeys;
    assert C.ReadRef(m, r2, s2.stack[|s.stack|]) == C.ReadRef(m, r1, Top(s1));
  }

  lemma {:induction false} SymbolOnly(x: Tree, s: Checking, s1: Checking, env: T.Env, V: set<nat>)
    requires IsPrimary(x) && x.kind == Symbol && Running(s) && Check(x, s) == Some(s1) && EnvIs(s.scope, env, V)
    ensures s1.blocks == s.blocks && s1.scope == s.scope
    ensures x.token.Name? && x.token.text in env
    ensures env[x.token.text] in V
    ensures s1.stack == s.stack + [C.Slot(env[x.token.text])]
  {
    assert FindSymbol(s.scope, Text(x.token)) != C.NoPlace;
  }

  /** The copy, once the destination and the value are on the stack. */
  lemma {:induction false} AssignRuns(m: M.Machine, t: Tree, s: Checking, s1: Checking, s2: Checking,
                                      fb: seq<C.Block>, env: T.Env, V: set<nat>, a: T.Store, r: C.Store, r2: C.Store)
    returns (r': C.Store)
    requires t.kind == Assign && |t.children| == 2 && IsPrimary(t.children[0]) && t.children[0].kind == Symbol
    requires Running(s)
    requires ExprAdds(t.children[0], s, s1) && ExprAdds(t.children[1], s1, s2) && Holds(fb, s, AssignEnd(s2).value)
    requires Check(t.children[0], s) == Some(s1) && EnvIs(s.scope, env, V)
    requires ExprRuns(m, t.children[1], s1, s2, fb, env, V, a, r, r2)
    ensures var s' := AssignEnd(s2).value; Running(s') && |s'.stack| > 0 && ExprRuns(m, t, s, s', fb, env, V, a, r, r')
  {
    hide *;
    TwoAdded(t.children[0], t.children[1], s, s1, s2);
    AssignEndIs(s2);
    SymbolOnly(t.children[0], s, s1, env, V);
    ExprFacts(t.children[1], s1, s2);
    ExprGives(m, t.children[1], s1, s2, fb, env, V, a, r, r2);
    CopyRuns(m, s, s1, s2, fb, env[t.children[0].token.text], r, r2);
    r' := r2[env[t.children[0].token.text] := C.ReadRef(m, r2, Top(s2))];
    ReachesTrans(m, fb, Here(s, r), Here(s2, r2), Here(AssignEnd(s2).value, r'));
    AssignGives(m, t, s, AssignEnd(s2).value, fb, env, V, a, r, C.ReadRef(m, r2, Top(s2)), r2, r');
  }

  lemma {:induction false} CopyRuns(m: M.Machine, s: Checking, s1: Checking, s2: Checking, fb: seq<C.Block>, x: nat,
                                    r: C.Store, r2: C.Store)
    requires Running(s) && Running(s1) && Running(s2) && |s2.blocks| == |s.blocks| && s1.blocks == s.blocks
    requires s1.stack == s.stack + [C.Slot(x)] && |s2.stack| == |s.stack| + 2 && s2.stack[|s.stack|] == C.Slot(x)
    requires AssignEnd(s2).Some? && Holds(fb, s, AssignEnd(s2).value) && Reaches(m, fb, Here(s1, r), Here(s2, r2))
    ensures var s', v := AssignEnd(s2).value, C.ReadRef(m, r2, Top(s2));
      Running(s') && |s'.stack| > 0 && Reaches(m, fb, Here(s, r), Here(s2, r2)) &&
      Reaches(m, fb, Here(s2, r2), Here(s', r2[x := v])) && C.ReadRef(m, r2[x := v], Top(s')) == v
  {
    hide Reaches, Good;
    var n, y := |s.stack|, Top(s2);
    var i := C.Inst(C.Copy, [y], C.Slot(x));
    var s' := AssignEnd(s2).value;
    var s3 := s2.(stack := s2.stack[..n] + [y]);
    assert s3.stack[|s3.stack| - 1..] == [y];
    assert CodeOf(s', Cur(s)) == CodeOf(s2, Cur(s)) + [i];
    PlainStep(m, fb, s2, s', i, r2);
  }

  lemma {:induction false} AssignGives(m: M.Machine, t: Tree, s: Checking, s': Checking, fb: seq<C.Block>, env: T.Env,
                                       V: set<nat>, a: T.Store, r: C.Store, v: int, r2: C.Store, r': C.Store)
    requires t.kind == Assign && |t.children| == 2 && Running(s) && Running(s') && |s'.stack| > 0
    requires t.children[0].token.Name? && t.children[0].token.text in env
    requires r' == r2[env[t.children[0].token.text] := v]
    requires Reaches(m, fb, Here(s, r), Here(s', r')) && C.ReadRef(m, r', Top(s')) == v
    requires v == T.Eval(m, t.children[1], env, a).value && Agree(m, V, T.Eval(m, t.children[1], env, a).store, r2)
    ensures ExprRuns(m, t, s, s', fb, env, V, a, r, r')
  {
    hide Reaches;
  }

  /** The states between and after the operands. */
  lemma {:induction false} Operands(t: Tree, s: Checking, s': Checking, fb: seq<C.Block>)
    returns (s1: Checking, s2: Checking)
    requires Running(s) && Good(s) && ScopeGood(s) && Obeys(t) && !IsPrimary(t) && Check(t, s) == Some(s')
    requires Holds(fb, s, s')
    ensures Running(s1) && Check(t.children[0], s) == Some(s1) && Check(t.children[1], s1) == Some(s2)
    ensures ExprAdds(t.children[0], s, s1) && ExprAdds(t.children[1], s1, s2) && Good(s1) && ScopeGood(s1)
    ensures Holds(fb, s, s1) && Holds(fb, s1, s2) && (t.kind == Assign || Arithmetic(t.kind))
    ensures if t.kind == Assign then AssignEnd(s2) == Some(s') && t.children[0].kind == Symbol
      else BinaryEnd(t, s2) == Some(s')
    ensures s1.places == s.places + T.Slots(t.children[0])
    ensures s2.places == s1.places + T.Slots(t.children[1])
    ensures s1.scope == s.scope
  {
    hide Good, ScopeGood, ExprAdds, Holds;
    CheckPair(t.children, s);
    s1 := Check(t.children[0], s).value;
    s2 := Check(t.children[1], s1).value;
    ExprShape(t.children[0], s, s1);
    AddsGood(t.children[0], s, s1);
    ExprShape(t.children[1], s1, s2);
    ExprFacts(t.children[0], s, s1);
    ExprFacts(t.children[1], s1, s2);
    PairHolds(t, s, s1, s2, fb);
  }

  lemma {:induction false} ExprSim(m: M.Machine, t: Tree, s: Checking, s': Checking, fb: seq<C.Block>, env: T.Env,
                                   V: set<nat>, a: T.Store, r: C.Store)
    returns (r': C.Store)
    requires Running(s) && Good(s) && ScopeGood(s) && Obeys(t) && Check(t, s) == Some(s') && Holds(fb, s, s')
    requires EnvIs(s.scope, env, V) && T.Temps(t, s.places) !! V && Agree(m, V, a, r)
    ensures |s'.stack| > 0 && ExprRuns(m, t, s, s', fb, env, V, a, r, r')
    decreases t, 1
  {
    hide Good, ScopeGood, EnvIs, Agree, Holds, ExprRuns, ExprAdds, Check, Obeys, T.Eval, T.Temps;
    if IsPrimary(t) {
      r' := LeafRuns(m, t, s, s', fb, env, V, a, r);
    } else if t.kind == Assign {
      r' := AssignSim(m, t, s, s', fb, env, V, a, r);
    } else {
      r' := BinarySim(m, t, s, s', fb, env, V, a, r);
    }
  }

  lemma {:induction false} AssignSim(m: M.Machine, t: Tree, s: Checking, s': Checking, fb: seq<C.Block>, env: T.Env,
                                     V: set<nat>, a: T.Store, r: C.Store)
    returns (r': C.Store)
    requires Running(s) && Good(s) && ScopeGood(s) && Obeys(t) && !IsPrimary(t) && t.kind == Assign
    requires Check(t, s) == Some(s') && Holds(fb, s, s')
    requires EnvIs(s.scope, env, V) && T.Temps(t, s.places) !! V && Agree(m, V, a, r)
    ensures |s'.stack| > 0 && ExprRuns(m, t, s, s', fb, env, V, a, r, r')
    decreases t, 0
  {
    hide Good, ScopeGood, EnvIs, Agree, Holds, ExprRuns, ExprAdds, Check, Obeys, T.Eval;
    var s1, s2 := Operands(t, s, s', fb);
    PairObeys(t);
    TempsPair(t, s.places);
    var r2 := ExprSim(m, t.children[1], s1, s2, fb, env, V, a, r);
    r' := AssignRuns(m, t, s, s1, s2, fb, env, V, a, r, r2);
  }

  lemma {:induction false} BinaryAfter(t: Tree, s: Checking, s': Checking)
    requires Arithmetic(t.kind) && Running(s) && BinaryEnd(t, s) == Some(s')
    ensures Running(s') && |s'.stack| > 0 && s'.places == s.places + 1
  {}

  lemma {:induction false} BinarySim(m: M.Machine, t: Tree, s: Checking, s': Checking, fb: seq<C.Block>, env: T.Env,
                                     V: set<nat>, a: T.Store, r: C.Store)
    returns (r': C.Store)
    requires Running(s) && Good(s) && ScopeGood(s) && Obeys(t) && !IsPrimary(t) && t.kind != Assign
    requires Check(t, s) == Some(s') && Holds(fb, s, s')
    requires EnvIs(s.scope, env, V) && T.Temps(t, s.places) !! V && Agree(m, V, a, r)
    ensures |s'.stack| > 0 && ExprRuns(m, t, s, s', fb, env, V, a, r, r')
    decreases t, 0
  {
    hide *;
    var s1, s2 := Operands(t, s, s', fb);
    PairObeys(t);
    TempsPair(t, s.places);
    ExprFacts(t.children[0], s, s1);
    ExprFacts(t.children[1], s1, s2);
    BinaryAfter(t, s2, s');
    var r1 := ExprSim(m, t.children[0], s, s1, fb, env, V, a, r);
    AgreeAfter(m, t.children[0], s, s1, fb, env, V, a, r, r1);
    var r2 := ExprSim(m, t.children[1], s1, s2, fb, env, V, T.Eval(m, t.children[0], env, a).store, r1);
    r' := BinaryRuns(m, t, s, s1, s2, fb, env, V, a, r, r1, r2);
  }

  lemma {:induction false} AgreeAfter(m: M.Machine, t: Tree, s: Checking, s': Checking, fb: seq<C.Block>, env: T.Env,
                                      V: set<nat>, a: T.Store, r: C.Store, r': C.Store)
    requires Running(s) && Running(s') && |s'.stack| > 0 && ExprRuns(m, t, s, s', fb, env, V, a, r, r')
    ensures Agree(m, V, T.Eval(m, t, env, a).store, r')
  {}

  lemma {:induction false} PairObeys(t: Tree)
    requires Obeys(t) && !IsPrimary(t)
    ensures |t.children| == 2 && Obeys(t.children[0]) && Obeys(t.children[1]) && (Arithmetic(t.kind) ==> NoAssign(t))
  {
    ObeysAssignsOnTop(t);
  }

  /** The code the end of an operator adds comes after the code of its operands. */
  lemma {:induction false} EndExtends(t: Tree, s: Checking, s': Checking)
    requires Running(s) && |s.stack| >= 2
    requires AssignEnd(s) == Some(s') || (Arithmetic(t.kind) && BinaryEnd(t, s) == Some(s'))
    ensures Running(s') && |s'.blocks| == |s.blocks| && CodeOf(s, Cur(s)) <= CodeOf(s', Cur(s))
  {
    AssignEndIs(s);
  }

  lemma {:induction false} NotArithmetic(k: Kind)
    ensures Arithmetic(k) ==> k != Assign
  {}

  lemma {:induction false} HoldsBefore(fb: seq<C.Block>, s: Checking, a: Checking, b: Checking, s': Checking)
    requires Holds(fb, s, s') && Running(s) && Running(a) && Running(b) && |a.blocks| == |b.blocks| == |s.blocks|
    requires |s'.blocks| == |s.blocks| && CodeOf(b, Cur(s)) <= CodeOf(s', Cur(s))
    ensures Holds(fb, a, b)
  {}

  lemma {:induction false} PairHolds(t: Tree, s: Checking, s1: Checking, s2: Checking, fb: seq<C.Block>)
    requires |t.children| == 2 && ExprAdds(t.children[0], s, s1) && ExprAdds(t.children[1], s1, s2)
    requires (t.kind == Assign && Holds(fb, s, AssignEnd(s2).value)) ||
      (Arithmetic(t.kind) && BinaryEnd(t, s2).Some? && Holds(fb, s, BinaryEnd(t, s2).value))
    ensures Holds(fb, s, s1) && Holds(fb, s1, s2)
  {
    hide *;
    var a, b := t.children[0], t.children[1];
    TwoAdded(a, b, s, s1, s2);
    AssignEndIs(s2);
    NotArithmetic(t.kind);
    var s' := if t.kind == Assign then AssignEnd(s2).value else BinaryEnd(t, s2).value;
    EndExtends(t, s2, s');
    OneBlock(a, s, s1);
    OneBlock(b, s1, s2);
    CurIs(s, s1);
    CurIs(s, s2);
    HoldsBefore(fb, s, s1, s2, s');
    HoldsBefore(fb, s, s, s1, s');
  }

  /** The code of an operand continues the code before it. */
  lemma {:induction false} OneBlock(t: Tree, s: Checking, s': Checking)
    requires ExprAdds(t, s, s')
    ensures Running(s) && |s'.blocks| == |s.blocks| && CodeOf(s, Cur(s)) <= CodeOf(s', Cur(s))
  {}

  // ----- operators as they are written -----

  /** What an operator means, by the character it is written with. */
  lemma {:induction false} WrittenMeans(m: M.Machine, t: Tree, env: T.Env, a: T.Store)
    requires Obeys(t) && |t.children| == 2
    ensures var l := T.Eval(m, t.children[0], env, a);
      var r := T.Eval(m, t.children[1], env, l.store);
      var v := T.Eval(m, t, env, a);
      (t.token == Mark('+') ==> v == T.Valued(m.apply(M.Add, l.value, r.value), r.store)) &&
      (t.token == Mark('-') ==> v == T.Valued(m.apply(M.Sub, l.value, r.value), r.store)) &&
      (t.token == Mark('*') ==> v == T.Valued(m.apply(M.Mul, l.value, r.value), r.store)) &&
      (t.token == Mark('/') ==> v == T.Valued(m.apply(M.Div, l.value, r.value), r.store)) &&
      t.token in {Mark('+'), Mark('-'), Mark('*'), Mark('/'), Mark('=')}
  {
    hide T.Applied;
    WrittenKind(t);
    if t.kind != Assign {
      var l := T.Eval(m, t.children[0], env, a);
      AppliedIs(m, t.kind, l.value, T.Eval(m, t.children[1], env, l.store).value);
    }
  }

  lemma {:induction false} WrittenKind(t: Tree)
    requires Obeys(t) && |t.children| == 2
    ensures (t.token == Mark('+') <==> t.kind == Add) && (t.token == Mark('-') <==> t.kind == Sub)
    ensures (t.token == Mark('*') <==> t.kind == Mul) && (t.token == Mark('/') <==> t.kind == Div)
    ensures (t.token == Mark('=') <==> t.kind == Assign) && Operator(t.kind)
    ensures Obeys(t.children[0]) && Obeys(t.children[1])
  {}

  lemma {:induction false} AppliedIs(m: M.Machine, k: Kind, l: int, r: int)
    requires Arithmetic(k)
    ensures k == Add ==> T.Applied(m, k, l, r) == m.apply(M.Add, l, r)
    ensures k == Sub ==> T.Applied(m, k, l, r) == m.apply(M.Sub, l, r)
    ensures k == Mul ==> T.Applied(m, k, l, r) == m.apply(M.Mul, l, r)
    ensures k == Div ==> T.Applied(m, k, l, r) == m.apply(M.Div, l, r)
  {}

  /** The last instruction of the block being filled is `op` on the places on top after the first operand and after
      the second, into the next place. */
  predicate Emits(s1: Checking, s2: Checking, s': Checking, op: M.BinOp)
    requires Running(s2) && Running(s') && |s1.stack| > 0 && |s2.stack| > 0
  {
    var i := C.Inst(C.Arithmetic(op), [Top(s1), Top(s2)], C.Slot(s2.places));
    Cur(s') == Cur(s2) && CodeOf(s', Cur(s')) == CodeOf(s2, Cur(s2)) + [i] && s'.places == s2.places + 1
  }

  /** Which instruction an operator becomes, by the character it is written with. */
  lemma {:induction false} WrittenEmits(t: Tree, s: Checking, s': Checking) returns (s1: Checking, s2: Checking)
    requires Running(s) && Good(s) && ScopeGood(s) && Obeys(t) && |t.children| == 2 && t.token != Mark('=')
    requires Check(t, s) == Some(s')
    ensures Running(s1) && Check(t.children[0], s) == Some(s1) && Check(t.children[1], s1) == Some(s2)
    ensures Running(s2) && Running(s') && |s1.stack| == |s.stack| + 1 && |s2.stack| == |s.stack| + 2
    ensures t.token == Mark('+') ==> Emits(s1, s2, s', M.Add)
    ensures t.token == Mark('-') ==> Emits(s1, s2, s', M.Sub)
    ensures t.token == Mark('*') ==> Emits(s1, s2, s', M.Mul)
    ensures t.token == Mark('/') ==> Emits(s1, s2, s', M.Div)
    ensures s'.stack == s.stack + [C.Slot(s2.places)]
  {
    hide Good, ScopeGood, ExprAdds, T.Eval, IsPrimary, MakeInst;
    WrittenKind(t);
    CheckPair(t.children, s);
    s1 := Check(t.children[0], s).value;
    s2 := Check(t.children[1], s1).value;
    ExprShape(t.children[0], s, s1);
    AddsGood(t.children[0], s, s1);
    ExprShape(t.children[1], s1, s2);
    TwoAdded(t.children[0], t.children[1], s, s1, s2);
    ExprFacts(t.children[0], s, s1);
    ExprFacts(t.children[1], s1, s2);
    EndEmits(t, s, s1, s2, s');
  }

  lemma {:induction false} EndEmits(t: Tree, s: Checking, s1: Checking, s2: Checking, s': Checking)
    requires Arithmetic(t.kind) && Running(s2) && BinaryEnd(t, s2) == Some(s')
    requires |s1.stack| == |s.stack| + 1 && |s2.stack| == |s.stack| + 2 && s2.stack[|s.stack|] == Top(s1)
    requires s2.stack[..|s.stack|] == s.stack
    ensures Running(s') && s'.stack == s.stack + [C.Slot(s2.places)]
    ensures t.kind == Add ==> Emits(s1, s2, s', M.Add)
    ensures t.kind == Sub ==> Emits(s1, s2, s', M.Sub)
    ensures t.kind == Mul ==> Emits(s1, s2, s', M.Mul)
    ensures t.kind == Div ==> Emits(s1, s2, s', M.Div)
  {
    assert s2.stack[|s2.stack| - 2..] == [Top(s1), Top(s2)];
  }

  // ----- why precedence matters -----

  /** `x op (x = e)`, which the parser cannot produce. */
  function Late(kind: Kind, op: Token, x: Tree, e: Tree): Tree {
    Tree(kind, op, [x, Tree(Assign, Mark('='), [x, e])])
  }

  /** The code reads `x` after the assignment, so it computes with the new value twice. Hence it differs from
      the tree exactly where the old value of `x` makes a difference. */
  lemma {:induction false} LateRead(m: M.Machine, kind: Kind, op: Token, x: Tree, e: Tree, s: Checking, s': Checking,
                                    fb: seq<C.Block>, env: T.Env, V: set<nat>, a: T.Store, r: C.Store)
    returns (r': C.Store)
    requires Arithmetic(kind) && IsPrimary(x) && x.kind == Symbol && Obeys(e) && Running(s) && Good(s) && ScopeGood(s)
    requires Check(Late(kind, op, x, e), s) == Some(s') && Holds(fb, s, s')
    requires EnvIs(s.scope, env, V) && T.Temps(Late(kind, op, x, e), s.places) !! V && Agree(m, V, a, r)
    ensures |s'.stack| > 0 && Reaches(m, fb, Here(s, r), Here(s', r'))
    ensures var v := T.Eval(m, e, env, a).value;
      C.ReadRef(m, r', Top(s')) == T.Applied(m, kind, v, v) &&
      T.Eval(m, Late(kind, op, x, e), env, a).value ==
        T.Applied(m, kind, T.Read(m, a, T.Variable(env, x.token.text)), v)
  {
    hide Good, ScopeGood, Holds, Agree, ExprAdds, ExprRuns, EnvIs, Check, Reaches, T.Temps, T.Eval, BinaryEnd;
    var t, b := Late(kind, op, x, e), Tree(Assign, Mark('='), [x, e]);
    assert t.children == [x, b] && b.children == [x, e];
    assert Obeys(b);
    var s1, s2 := LateStates(t, b, x, s, s', fb);
    TempsPair(t, s.places);
    SymbolOnly(x, s, s1, env, V);
    var r2 := ExprSim(m, b, s1, s2, fb, env, V, a, r);
    ExprGives(m, b, s1, s2, fb, env, V, a, r, r2);
    r' := OperationRuns(m, t, s, s1, s2, fb, r2);
    LateValues(m, kind, op, x, e, env, V, a, r2);
    ReachesTrans(m, fb, Here(s, r), Here(s2, r2), Here(s', r'));
  }

  /** The states after the name and after the assignment. */
  lemma {:induction false} LateStates(t: Tree, b: Tree, x: Tree, s: Checking, s': Checking, fb: seq<C.Block>)
    returns (s1: Checking, s2: Checking)
    requires t.children == [x, b] && Arithmetic(t.kind) && IsPrimary(x) && Obeys(b) && Running(s) && Good(s)
    requires ScopeGood(s)
    requires Check(t, s) == Some(s') && Holds(fb, s, s')
    ensures Check(x, s) == Some(s1) && ExprAdds(x, s, s1) && Running(s1) && Good(s1) && ScopeGood(s1)
    ensures Check(b, s1) == Some(s2) && ExprAdds(b, s1, s2) && Holds(fb, s1, s2) && BinaryEnd(t, s2) == Some(s')
    ensures s1.places == s.places + T.Slots(x) && s2.places == s1.places + T.Slots(b) && |s1.stack| == |s.stack| + 1
  {
    hide Good, ScopeGood, ExprAdds, Holds;
    assert t.children[0] == x && t.children[1] == b;
    CheckPair(t.children, s);
    s1 := Check(x, s).value;
    s2 := Check(b, s1).value;
    ExprShape(x, s, s1);
    AddsGood(x, s, s1);
    ExprShape(b, s1, s2);
    ExprFacts(x, s, s1);
    ExprFacts(b, s1, s2);
    PairHolds(t, s, s1, s2, fb);
  }

  lemma {:induction false} LateValues(m: M.Machine, kind: Kind, op: Token, x: Tree, e: Tree, env: T.Env, V: set<nat>,
                                      a: T.Store, r: C.Store)
    requires Arithmetic(kind) && IsPrimary(x) && x.kind == Symbol && x.token.text in env && env[x.token.text] in V
    requires Agree(m, V, T.Eval(m, Tree(Assign, Mark('='), [x, e]), env, a).store, r)
    ensures var v := T.Eval(m, e, env, a).value;
      T.Eval(m, Tree(Assign, Mark('='), [x, e]), env, a).value == v && C.Read(m, r, env[x.token.text]) == v &&
      T.Eval(m, Late(kind, op, x, e), env, a).value ==
        T.Applied(m, kind, T.Read(m, a, T.Variable(env, x.token.text)), v)
  {
    var b := Tree(Assign, Mark('='), [x, e]);
    assert T.Eval(m, x, env, a) == T.Valued(T.Read(m, a, T.Variable(env, x.token.text)), a);
    assert T.Eval(m, b, env, a).store[env[x.token.text]] == T.Eval(m, e, env, a).value;
  }
}
