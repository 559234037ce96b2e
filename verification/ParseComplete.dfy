/** The machine accepts every program, and finds its tree. */
module ParseComplete {
  import opened Options
  import opened Syntax
  import opened Grammar
  import opened ParseMachine

  /** `x` is what stands in `ts` from `i` on. */
  predicate Reads(ts: seq<Token>, i: nat, x: seq<Token>) {
    i + |x| <= |ts| && ts[i..i + |x|] == x
  }

  lemma {:induction false} ReadsSplit(ts: seq<Token>, i: nat, a: seq<Token>, b: seq<Token>)
    ensures Reads(ts, i, a + b) <==> Reads(ts, i, a) && Reads(ts, i + |a|, b)
  {
    if Reads(ts, i, a + b) {
      Slices(ts, i, i + |a| + |b|, 0, |a|);
      Slices(ts, i, i + |a| + |b|, |a|, |a| + |b|);
      assert (a + b)[..|a|] == a && (a + b)[|a|..] == b;
    }
    if Reads(ts, i, a) && Reads(ts, i + |a|, b) {
      assert ts[i..i + |a| + |b|] == ts[i..i + |a|] + ts[i + |a|..i + |a| + |b|];
    }
  }

  lemma {:induction false} ReadsFirst(ts: seq<Token>, i: nat, x: seq<Token>)
    requires Reads(ts, i, x) && |x| > 0
    ensures ts[i] == x[0]
  {
    assert ts[i] == ts[i..i + |x|][0];
  }

  lemma {:induction false} ReadsAt(ts: seq<Token>, i: nat, x: seq<Token>, k: nat)
    requires Reads(ts, i, x) && k < |x|
    ensures ts[i + k] == x[k]
  {
    assert ts[i + k] == ts[i..i + |x|][k];
  }

  lemma {:induction false} ReadsOne(ts: seq<Token>, i: nat, t: Token)
    ensures Reads(ts, i, [t]) <==> i < |ts| && ts[i] == t
  {}

  function Go(ts: seq<Token>, K: seq<State>, f: seq<Tree>, i: nat): Option<Parsing>
    requires GoodTokens(ts) && i < |ts|
  {
    Run(ts, Parsing(K, f, i))
  }

  lemma {:induction false} Unfold(ts: seq<Token>, K: seq<State>, s: State, f: seq<Tree>, i: nat)
    requires GoodTokens(ts) && i < |ts|
    ensures (K + [s])[..|K|] == K && (K + [s])[|K|] == s
    ensures var p := Parsing(K + [s], f, i);
      if Step(ts, p).None? then Go(ts, K + [s], f, i) == None
      else Step(ts, p).value.pos < |ts| && Go(ts, K + [s], f, i) == Run(ts, Step(ts, p).value)
  {
    if Step(ts, Parsing(K + [s], f, i)).Some? {
      StepProgress(ts, Parsing(K + [s], f, i));
    }
  }

  lemma {:induction false} Stacked(K: seq<State>, s: State, t: State)
    ensures K + [s, t] == K + [s] + [t]
  {}

  lemma {:induction false} Stacked3(K: seq<State>, s: State, t: State, u: State)
    ensures K + [s, t, u] == K + [s] + [t] + [u]
  {}

  lemma {:induction false} Leaved(f: seq<Tree>, kind: Kind, token: Token)
    ensures Reduce(f, kind, token, 0) == f + [Tree(kind, token, [])]
  {
    assert f[..|f|] == f && f[|f|..] == [];
  }

  lemma {:induction false} Joined(f: seq<Tree>, kind: Kind, token: Token, cs: seq<Tree>)
    ensures |cs| <= |f + cs| && Reduce(f + cs, kind, token, |cs|) == f + [Tree(kind, token, cs)]
  {}

  // ----- single states -----

  lemma {:induction false} GoPrimary(ts: seq<Token>, K: seq<State>, f: seq<Tree>, i: nat)
    requires GoodTokens(ts) && i < |ts|
    ensures ts[i].Name? ==> i + 1 < |ts| && Go(ts, K + [Primary], f, i) == Go(ts, K, f + [Leaf(Symbol, ts[i])], i + 1)
    ensures ts[i].IntegerLit? ==>
      i + 1 < |ts| && Go(ts, K + [Primary], f, i) == Go(ts, K, f + [Leaf(Integer, ts[i])], i + 1)
    ensures !ts[i].Name? && !ts[i].IntegerLit? ==> Go(ts, K + [Primary], f, i) == None
  {
    Unfold(ts, K, Primary, f, i);
    Leaved(f, Symbol, ts[i]);
    Leaved(f, Integer, ts[i]);
  }

  lemma {:induction false} GoBinary(ts: seq<Token>, K: seq<State>, f: seq<Tree>, i: nat, q: int)
    requires GoodTokens(ts) && i < |ts|
    ensures Go(ts, K + [Binary(q)], f, i) == Go(ts, K + [BinaryInfix(q)] + [Primary], f, i)
  {
    Unfold(ts, K, Binary(q), f, i);
    Stacked(K, BinaryInfix(q), Primary);
  }

  lemma {:induction false} GoInfix(ts: seq<Token>, K: seq<State>, f: seq<Tree>, i: nat, q: int)
    requires GoodTokens(ts) && i < |ts| && q >= 0
    ensures BinaryPrec(ts[i], false) <= q ==> Go(ts, K + [BinaryInfix(q)], f, i) == Go(ts, K, f, i)
    ensures BinaryPrec(ts[i], false) > q ==> i + 1 < |ts|
    ensures BinaryPrec(ts[i], false) > q ==> var op := ts[i];
      Go(ts, K + [BinaryInfix(q)], f, i) ==
        Go(ts, K + [BinaryInfix(q)] + [Complete(BinaryKind(op), op, 2)] + [Binary(BinaryPrec(op, true))], f, i + 1)
  {
    Unfold(ts, K, BinaryInfix(q), f, i);
    if BinaryPrec(ts[i], false) > q {
      Stacked3(K, BinaryInfix(q), Complete(BinaryKind(ts[i]), ts[i], 2), Binary(BinaryPrec(ts[i], true)));
    }
  }

  lemma {:induction false} GoComplete(ts: seq<Token>, K: seq<State>, f: seq<Tree>, cs: seq<Tree>, kind: Kind,
                                      token: Token, i: nat)
    requires GoodTokens(ts) && i < |ts|
    ensures Go(ts, K + [Complete(kind, token, |cs|)], f + cs, i) == Go(ts, K, f + [Tree(kind, token, cs)], i)
  {
    Unfold(ts, K, Complete(kind, token, |cs|), f + cs, i);
    Joined(f, kind, token, cs);
  }

  lemma {:induction false} GoExpr(ts: seq<Token>, K: seq<State>, f: seq<Tree>, i: nat)
    requires GoodTokens(ts) && i < |ts|
    ensures Go(ts, K + [Expr], f, i) == Go(ts, K + [Binary(0)], f, i)
  {
    Unfold(ts, K, Expr, f, i);
  }

  lemma {:induction false} GoSemicolon(ts: seq<Token>, K: seq<State>, f: seq<Tree>, i: nat)
    requires GoodTokens(ts) && i < |ts|
    ensures ts[i] == Mark(';') ==> i + 1 < |ts| && Go(ts, K + [Semicolon], f, i) == Go(ts, K, f, i + 1)
    ensures ts[i] != Mark(';') ==> Go(ts, K + [Semicolon], f, i) == None
  {
    Unfold(ts, K, Semicolon, f, i);
  }

  // ----- expressions -----

  /** How tightly the root of an expression binds. */
  function Level(t: Tree): int {
    if Operator(t.kind) then BinaryPrec(t.token, false) else 30
  }

  /** What the precedences of the machine make of expressions: operands of `*` and `/` bind tighter than operands of
      `+` and `-`, and those tighter than operands of `=`; where an operand's root binds as tightly as its parent's,
      it is the left operand of `+ - * /` or the right operand of `=`. */
  lemma {:induction false} PrecedenceIff(t: Tree)
    ensures Obeys(t) <==>
      IsPrimary(t) ||
      (|t.children| == 2 && BinaryPrec(t.token, false) > 0 && t.kind == BinaryKind(t.token) &&
       Obeys(t.children[0]) && Obeys(t.children[1]) &&
       if t.kind == Assign then Level(t.children[0]) > Level(t) && Level(t.children[1]) >= Level(t)
       else Level(t.children[0]) >= Level(t) && Level(t.children[1]) > Level(t))
  {
    if !IsPrimary(t) && |t.children| == 2 && Obeys(t.children[0]) && Obeys(t.children[1]) {
      RootLevel(t.children[0]);
      RootLevel(t.children[1]);
    }
  }

  lemma {:induction false} RootLevel(t: Tree)
    requires Obeys(t)
    ensures if t.kind in {Mul, Div} then Level(t) == 20
      else if t.kind in {Add, Sub} then Level(t) == 10
      else if t.kind == Assign then Level(t) == 5
      else IsPrimary(t) && Level(t) == 30
  {}

  /** The operators that would be taken into the right end of `t` bind tighter than this. */
  function Tail(t: Tree): int {
    if Operator(t.kind) then BinaryPrec(t.token, true) else 30
  }

  lemma {:induction false} TailLevel(t: Tree)
    requires Obeys(t)
    ensures IsPrimary(t) ==> Level(t) == Tail(t) == 30
    ensures !IsPrimary(t) ==>
      Operator(t.kind) && (t.kind == Assign <==> Level(t) == 5) &&
      Tail(t) == (if t.kind == Assign then 4 else Level(t)) && 5 <= Level(t) <= 20
    ensures !IsPrimary(t) && t.kind != Assign ==> Level(t) >= 10
  {}

  /** With the machine about to parse an expression at level `q`, the expression `t` ends up on the forest. */
  lemma {:induction false} ExprParses(ts: seq<Token>, K: seq<State>, f: seq<Tree>, i: nat, q: int, t: Tree)
    requires GoodTokens(ts) && Obeys(t) && Level(t) > q >= 0 && Reads(ts, i, Print(t)) && i + |Print(t)| < |ts|
    requires BinaryPrec(ts[i + |Print(t)|], false) <= Tail(t)
    ensures Go(ts, K + [Binary(q)], f, i) == Go(ts, K + [BinaryInfix(q)], f + [t], i + |Print(t)|)
    decreases t
  {
    hide Go, Run, Reads;
    var j := i + |Print(t)|;
    if IsPrimary(t) {
      GoBinary(ts, K, f, i, q);
      GoPrimary(ts, K + [BinaryInfix(q)], f, i);
      ReadsFirst(ts, i, Print(t));
      assert t == Leaf(t.kind, t.token);
    } else {
      var l, r := t.children[0], t.children[1];
      TailLevel(t);
      TailLevel(l);
      TailLevel(r);
      assert Print(t) == Print(l) + ([t.token] + Print(r));
      ReadsSplit(ts, i, Print(l), [t.token] + Print(r));
      var m := i + |Print(l)|;
      ReadsSplit(ts, m, [t.token], Print(r));
      ReadsOne(ts, m, t.token);
      ExprParses(ts, K, f, i, q, l);
      GoInfix(ts, K, f + [l], m, q);
      var c := BinaryPrec(t.token, true);
      var K' := K + [BinaryInfix(q)] + [Complete(t.kind, t.token, 2)];
      ExprParses(ts, K', f + [l], m + 1, c, r);
      GoInfix(ts, K', f + [l] + [r], j, c);
      assert f + [l] + [r] == f + [l, r] && [l, r] == t.children;
      GoComplete(ts, K + [BinaryInfix(q)], f, [l, r], t.kind, t.token, j);
    }
  }

  lemma {:induction false} ExprDone(ts: seq<Token>, K: seq<State>, f: seq<Tree>, i: nat, t: Tree)
    requires GoodTokens(ts) && Obeys(t) && Reads(ts, i, Print(t)) && i + |Print(t)| < |ts|
    requires BinaryPrec(ts[i + |Print(t)|], false) <= 0
    ensures Go(ts, K + [Expr], f, i) == Go(ts, K, f + [t], i + |Print(t)|)
  {
    hide Go, Run, Reads;
    TailLevel(t);
    GoExpr(ts, K, f, i);
    ExprParses(ts, K, f, i, 0, t);
    GoInfix(ts, K, f + [t], i + |Print(t)|, 0);
  }

  // ----- first tokens -----

  lemma {:induction false} ExprFirst(t: Tree)
    requires Obeys(t)
    ensures |Print(t)| > 0 && (Print(t)[0].Name? || Print(t)[0].IntegerLit?)
    ensures |Print(t)| > 1 ==> BinaryPrec(Print(t)[1], false) > 0
    decreases t
  {
    if !IsPrimary(t) {
      ExprFirst(t.children[0]);
      assert Print(t) == Print(t.children[0]) + ([t.token] + Print(t.children[1]));
    }
  }

  lemma {:induction false} LocalPrint(t: Tree)
    requires IsLocal(t)
    ensures Print(t) == [t.children[0].token, t.token, t.children[1].token] + if |t.children| == 3
      then [Mark('=')] + Print(t.children[2]) else []
  {
    assert Print(t.children[0]) == [t.children[0].token] && Print(t.children[1]) == [t.children[1].token];
  }

  predicate Starts(x: Token) {
    x != Mark('}') && x != Eof && x != KeywordElse && x != Mark(';')
  }

  lemma {:induction false} StmtFirst(t: Tree)
    requires IsStmt(t)
    ensures |Print(t)| > 0 && Starts(Print(t)[0])
  {
    StmtCases(t);
    if Obeys(t) {
      ExprFirst(t);
    } else if IsLocal(t) {
      LocalPrint(t);
    }
  }

  /** What a statement is parsed as. */
  function StatesOf(t: Tree): seq<State> {
    match t.kind
    case Block => [BlockHead]
    case If => [IfHead]
    case While => [WhileHead]
    case Return => [Semicolon, ReturnHead]
    case Local => [Semicolon, LocalDecl]
    case _ => [Semicolon, Expr]
  }

  lemma {:induction false} ReadsIn(ts: seq<Token>, i: nat, x: seq<Token>)
    requires Reads(ts, i, x) && |x| > 0
    ensures i < |ts| && ts[i] == x[0] && (|x| > 1 ==> i + 1 < |ts| && ts[i + 1] == x[1])
  {
    assert |x| > 1 ==> ts[i + 1] == ts[i..i + |x|][1];
  }

  lemma {:induction false} DispatchExpr(ts: seq<Token>, i: nat, t: Tree)
    requires GoodTokens(ts) && Obeys(t) && Reads(ts, i, Print(t) + [Mark(';')])
    ensures i < |ts| && Dispatch(ts, i) == [Semicolon, Expr]
  {
    var x := Print(t) + [Mark(';')];
    ExprFirst(t);
    ReadsIn(ts, i, x);
    hide Reads, GoodTokens, Obeys, Print;
    assert x[0] == Print(t)[0];
    assert x[1] == if |Print(t)| > 1 then Print(t)[1] else Mark(';');
  }

  lemma {:induction false} DispatchLocal(ts: seq<Token>, i: nat, t: Tree)
    requires GoodTokens(ts) && IsLocal(t) && Reads(ts, i, Print(t) + [Mark(';')])
    ensures i < |ts| && Dispatch(ts, i) == [Semicolon, LocalDecl]
  {
    var x := Print(t) + [Mark(';')];
    LocalPrint(t);
    assert x[0] == t.children[0].token && x[1] == t.token;
    ReadsIn(ts, i, x);
    hide Reads, GoodTokens, Obeys, Print;
  }

  lemma {:induction false} DispatchIs(ts: seq<Token>, i: nat, t: Tree)
    requires GoodTokens(ts) && IsStmt(t) && Reads(ts, i, Print(t) + Ending(t))
    ensures i < |ts| && Dispatch(ts, i) == StatesOf(t)
  {
    var x := Print(t) + Ending(t);
    StmtCases(t);
    StmtFirst(t);
    assert |x| > 0 && x[0] == Print(t)[0];
    ReadsFirst(ts, i, x);
    if Obeys(t) {
      DispatchExpr(ts, i, t);
    } else if t.kind == Local {
      DispatchLocal(ts, i, t);
    } else {
      hide Reads, GoodTokens, Obeys;
      ReadsIn(ts, i, x);
    }
  }

  // ----- statements -----

  lemma {:induction false} ReadsMore(ts: seq<Token>, i: nat, x: seq<Token>)
    requires GoodTokens(ts) && Reads(ts, i, x) && |x| > 0 && x[|x| - 1] != Eof
    ensures i + |x| < |ts|
  {
    assert ts[i + |x| - 1] == ts[i..i + |x|][|x| - 1];
  }

  lemma {:induction false} GoBlockHead(ts: seq<Token>, K: seq<State>, f: seq<Tree>, i: nat)
    requires GoodTokens(ts) && i < |ts|
    ensures ts[i] == Mark('{') ==>
      i + 1 < |ts| && Go(ts, K + [BlockHead], f, i) == Go(ts, K + [BlockStmt(ts[i], 0)], f, i + 1)
    ensures ts[i] != Mark('{') ==> Go(ts, K + [BlockHead], f, i) == None
  {
    Unfold(ts, K, BlockHead, f, i);
  }

  lemma {:induction false} GoBlockStmt(ts: seq<Token>, K: seq<State>, f: seq<Tree>, cs: seq<Tree>, lbrace: Token,
                                       i: nat)
    requires GoodTokens(ts) && i < |ts|
    ensures ts[i] == Mark('}') ==>
      i + 1 < |ts| && Go(ts, K + [BlockStmt(lbrace, |cs|)], f + cs, i) ==
      Go(ts, K, f + [Tree(Block, lbrace, cs)], i + 1)
    ensures ts[i] == Eof ==> Go(ts, K + [BlockStmt(lbrace, |cs|)], f + cs, i) == None
    ensures ts[i] != Mark('}') && ts[i] != Eof ==>
      Go(ts, K + [BlockStmt(lbrace, |cs|)], f + cs, i) ==
        Go(ts, K + [BlockStmt(lbrace, |cs| + 1)] + Dispatch(ts, i), f + cs, i)
  {
    Unfold(ts, K, BlockStmt(lbrace, |cs|), f + cs, i);
    Joined(f, Block, lbrace, cs);
  }

  lemma {:induction false} GoIfHead(ts: seq<Token>, K: seq<State>, f: seq<Tree>, i: nat)
    requires GoodTokens(ts) && i < |ts|
    ensures ts[i] == KeywordIf ==>
      i + 1 < |ts| && Go(ts, K + [IfHead], f, i) == Go(ts, K + [ElsePart(ts[i])] + [BlockHead] + [Expr], f, i + 1)
    ensures ts[i] != KeywordIf ==> Go(ts, K + [IfHead], f, i) == None
  {
    Unfold(ts, K, IfHead, f, i);
    Stacked3(K, ElsePart(ts[i]), BlockHead, Expr);
  }

  lemma {:induction false} GoElse(ts: seq<Token>, K: seq<State>, f: seq<Tree>, c: Tree, b: Tree, x: Token, i: nat)
    requires GoodTokens(ts) && i < |ts|
    ensures ts[i] != KeywordElse ==> Go(ts, K + [ElsePart(x)], f + [c, b], i) == Go(ts, K, f + [Tree(If, x, [c, b])], i)
    ensures ts[i] == KeywordElse ==> i + 1 < |ts|
    ensures ts[i] == KeywordElse && ts[i + 1] == KeywordIf ==>
      Go(ts, K + [ElsePart(x)], f + [c, b], i) == Go(ts, K + [Complete(If, x, 3)] + [IfHead], f + [c, b], i + 1)
    ensures ts[i] == KeywordElse && ts[i + 1] == Mark('{') ==>
      Go(ts, K + [ElsePart(x)], f + [c, b], i) == Go(ts, K + [Complete(If, x, 3)] + [BlockHead], f + [c, b], i + 1)
    ensures ts[i] == KeywordElse && ts[i + 1] != KeywordIf && ts[i + 1] != Mark('{') ==>
      Go(ts, K + [ElsePart(x)], f + [c, b], i) == None
  {
    Unfold(ts, K, ElsePart(x), f + [c, b], i);
    Stacked(K, Complete(If, x, 3), IfHead);
    Stacked(K, Complete(If, x, 3), BlockHead);
    Joined(f, If, x, [c, b]);
  }

  lemma {:induction false} GoWhileHead(ts: seq<Token>, K: seq<State>, f: seq<Tree>, i: nat)
    requires GoodTokens(ts) && i < |ts|
    ensures ts[i] == KeywordWhile ==>
      i + 1 < |ts| && Go(ts, K + [WhileHead], f, i) ==
      Go(ts, K + [Complete(While, ts[i], 2)] + [BlockHead] + [Expr], f, i + 1)
    ensures ts[i] != KeywordWhile ==> Go(ts, K + [WhileHead], f, i) == None
  {
    Unfold(ts, K, WhileHead, f, i);
    Stacked3(K, Complete(While, ts[i], 2), BlockHead, Expr);
  }

  lemma {:induction false} GoReturnHead(ts: seq<Token>, K: seq<State>, f: seq<Tree>, i: nat)
    requires GoodTokens(ts) && i < |ts|
    ensures ts[i] == KeywordReturn ==> i + 1 < |ts|
    ensures ts[i] == KeywordReturn && ts[i + 1] != Mark(';') ==>
      Go(ts, K + [ReturnHead], f, i) == Go(ts, K + [Complete(Return, ts[i], 1)] + [Expr], f, i + 1)
    ensures ts[i] == KeywordReturn && ts[i + 1] == Mark(';') ==>
      Go(ts, K + [ReturnHead], f, i) == Go(ts, K, f + [Leaf(Return, ts[i])], i + 1)
    ensures ts[i] != KeywordReturn ==> Go(ts, K + [ReturnHead], f, i) == None
  {
    Unfold(ts, K, ReturnHead, f, i);
    Stacked(K, Complete(Return, ts[i], 1), Expr);
    Leaved(f, Return, ts[i]);
  }

  /** The next three tokens are a name, `:` and a name. */
  predicate AtLocal(ts: seq<Token>, i: nat) {
    i + 3 < |ts| && ts[i].Name? && ts[i + 1] == Mark(':') && ts[i + 2].Name?
  }

  lemma {:induction false} GoLocal(ts: seq<Token>, K: seq<State>, f: seq<Tree>, i: nat)
    requires GoodTokens(ts) && i < |ts|
    ensures !AtLocal(ts, i) ==> Go(ts, K + [LocalDecl], f, i) == None
    ensures AtLocal(ts, i) && ts[i + 3] == Mark('=') ==> i + 4 < |ts|
    ensures AtLocal(ts, i) && ts[i + 3] == Mark('=') ==>
      Go(ts, K + [LocalDecl], f, i) ==
        Go(ts, K + [Complete(Local, ts[i + 1], 3)] + [Expr],
        f + [Leaf(Identifier, ts[i]), Leaf(Typename, ts[i + 2])], i + 4)
    ensures AtLocal(ts, i) && ts[i + 3] != Mark('=') ==>
      Go(ts, K + [LocalDecl], f, i) ==
        Go(ts, K, f + [Tree(Local, ts[i + 1], [Leaf(Identifier, ts[i]), Leaf(Typename, ts[i + 2])])], i + 3)
  {
    Unfold(ts, K, LocalDecl, f, i);
    if AtLocal(ts, i) {
      Stacked(K, Complete(Local, ts[i + 1], 3), Expr);
      Joined(f, Local, ts[i + 1], [Leaf(Identifier, ts[i]), Leaf(Typename, ts[i + 2])]);
    }
  }

  // ----- statements and blocks -----

  lemma {:induction false} BlockPrint(t: Tree)
    requires IsBlock(t)
    ensures t.token == Mark('{') && forall k :: 0 <= k < |t.children| ==> IsStmt(t.children[k])
    ensures Print(t) == [t.token] + (PrintAll(t.children) + [Mark('}')])
  {
    hide IsStmt;
  }

  lemma {:induction false} BlockTree(t: Tree)
    requires IsBlock(t)
    ensures t == Tree(Block, t.token, t.children)
  {
    hide IsStmt;
  }

  lemma {:induction false} BlockParses(ts: seq<Token>, K: seq<State>, f: seq<Tree>, i: nat, t: Tree)
    requires GoodTokens(ts) && IsBlock(t) && Reads(ts, i, Print(t))
    ensures i + |Print(t)| < |ts| && Go(ts, K + [BlockHead], f, i) == Go(ts, K, f + [t], i + |Print(t)|)
    decreases t, 0
  {
    hide *;
    var body := PrintAll(t.children) + [Mark('}')];
    BlockPrint(t);
    ReadsSplit(ts, i, [t.token], body);
    ReadsOne(ts, i, t.token);
    ReadsMore(ts, i, Print(t));
    GoBlockHead(ts, K, f, i);
    assert f + [] == f && [] + t.children == t.children;
    StmtsParse(ts, K, f, i + 1, [], t.children);
    BlockTree(t);
  }

  lemma {:induction false} StmtsParse(ts: seq<Token>, K: seq<State>, f: seq<Tree>, i: nat, done: seq<Tree>,
                                      todo: seq<Tree>)
    requires GoodTokens(ts) && (forall k :: 0 <= k < |todo| ==> IsStmt(todo[k]))
    requires Reads(ts, i, PrintAll(todo) + [Mark('}')])
    ensures i + |PrintAll(todo)| + 1 < |ts|
    ensures Go(ts, K + [BlockStmt(Mark('{'), |done|)], f + done, i) ==
      Go(ts, K, f + [Tree(Block, Mark('{'), done + todo)], i + |PrintAll(todo)| + 1)
    decreases todo, 2
  {
    hide Go, Run, Reads, GoodTokens, IsStmt, Ending, Print, Dispatch;
    var close := [Mark('}')];
    if |todo| == 0 {
      assert PrintAll(todo) + close == close && done + todo == done;
      ReadsMore(ts, i, close);
      ReadsOne(ts, i, Mark('}'));
      GoBlockStmt(ts, K, f, done, Mark('{'), i);
    } else {
      var t, rest := todo[0], todo[1..];
      var x := Print(t) + Ending(t);
      assert PrintAll(todo) + close == x + (PrintAll(rest) + close);
      ReadsSplit(ts, i, x, PrintAll(rest) + close);
      NextStarts(ts, i + |x|, rest);
      FirstOf(ts, i, t);
      GoBlockStmt(ts, K, f, done, Mark('{'), i);
      StmtParses(ts, K + [BlockStmt(Mark('{'), |done| + 1)], f + done, i, t);
      assert f + done + [t] == f + (done + [t]) && done + todo == done + [t] + rest;
      StmtsParse(ts, K, f, i + |x|, done + [t], rest);
    }
  }

  lemma {:induction false} FirstOf(ts: seq<Token>, i: nat, t: Tree)
    requires IsStmt(t) && Reads(ts, i, Print(t) + Ending(t))
    ensures i < |ts| && Starts(ts[i])
  {
    StmtFirst(t);
    ReadsFirst(ts, i, Print(t) + Ending(t));
  }

  lemma {:induction false} NextStarts(ts: seq<Token>, i: nat, rest: seq<Tree>)
    requires GoodTokens(ts) && (forall k :: 0 <= k < |rest| ==> IsStmt(rest[k]))
    requires Reads(ts, i, PrintAll(rest) + [Mark('}')])
    ensures i < |ts| && ts[i] != KeywordElse
  {
    ReadsFirst(ts, i, PrintAll(rest) + [Mark('}')]);
    if |rest| > 0 {
      StmtFirst(rest[0]);
    }
  }

  lemma {:induction false} StmtParses(ts: seq<Token>, K: seq<State>, f: seq<Tree>, i: nat, t: Tree)
    requires GoodTokens(ts) && IsStmt(t) && Reads(ts, i, Print(t) + Ending(t))
    requires i + |Print(t) + Ending(t)| < |ts| && ts[i + |Print(t) + Ending(t)|] != KeywordElse
    ensures i < |ts| && Go(ts, K + Dispatch(ts, i), f, i) == Go(ts, K, f + [t], i + |Print(t) + Ending(t)|)
    decreases t, 1
  {
    hide Go, Run, Reads, Dispatch;
    StmtCases(t);
    DispatchIs(ts, i, t);
    assert Print(t) + [] == Print(t);
    if t.kind == Block {
      BlockParses(ts, K, f, i, t);
    } else if t.kind == If {
      IfParses(ts, K, f, i, t);
    } else if t.kind == While {
      WhileParses(ts, K, f, i, t);
    } else {
      var j := i + |Print(t)|;
      ReadsSplit(ts, i, Print(t), [Mark(';')]);
      ReadsOne(ts, j, Mark(';'));
      Stacked(K, Semicolon, StatesOf(t)[1]);
      if t.kind == Return {
        ReturnParses(ts, K + [Semicolon], f, i, t);
      } else if t.kind == Local {
        LocalParses(ts, K + [Semicolon], f, i, t);
      } else {
        ExprDone(ts, K + [Semicolon], f, i, t);
      }
      GoSemicolon(ts, K, f + [t], j);
    }
  }

  /** An expression and a block, as after `if` and `while`. */
  lemma {:induction false} HeadParses(ts: seq<Token>, K: seq<State>, f: seq<Tree>, i: nat, c: Tree, b: Tree)
    requires GoodTokens(ts) && Obeys(c) && IsBlock(b) && Reads(ts, i, Print(c) + Print(b))
    ensures i < |ts| && i + |Print(c)| + |Print(b)| < |ts|
    ensures Go(ts, K + [BlockHead] + [Expr], f, i) == Go(ts, K, f + [c, b], i + |Print(c)| + |Print(b)|)
    decreases b, 1
  {
    hide Go, Run, Reads;
    var m := i + |Print(c)|;
    ReadsSplit(ts, i, Print(c), Print(b));
    ReadsFirst(ts, m, Print(b));
    BlockParses(ts, K, f + [c], m, b);
    ExprDone(ts, K + [BlockHead], f, i, c);
    assert f + [c] + [b] == f + [c, b];
  }

  lemma {:induction false} IfTokens(t: Tree)
    requires t.kind == If && 2 <= |t.children| <= 3
    ensures Print(t) == [t.token] + Print(t.children[0]) + Print(t.children[1]) +
      if |t.children| == 3 then [KeywordElse] + Print(t.children[2]) else []
  {}

  lemma {:induction false} IfTree(t: Tree)
    requires IsIf(t)
    ensures 2 <= |t.children| <= 3 && t.kind == If && t.token == KeywordIf
    ensures Obeys(t.children[0]) && IsBlock(t.children[1])
    ensures |t.children| == 2 ==> t == Tree(If, t.token, [t.children[0], t.children[1]])
    ensures |t.children| == 3 ==> t.children == [t.children[0], t.children[1], t.children[2]]
  {
    hide Obeys, IsBlock;
  }

  lemma {:induction false} IfPrint(t: Tree)
    requires IsIf(t)
    ensures 2 <= |t.children| <= 3 && t.token == KeywordIf && Obeys(t.children[0]) && IsBlock(t.children[1])
    ensures Print(t) == [t.token] + ((Print(t.children[0]) + Print(t.children[1])) +
      if |t.children| == 3 then [KeywordElse] + Print(t.children[2]) else [])
    ensures |t.children| == 2 ==> t == Tree(If, t.token, [t.children[0], t.children[1]])
    ensures |t.children| == 3 ==> t.children == [t.children[0], t.children[1], t.children[2]]
  {
    hide *;
    IfTree(t);
    IfTokens(t);
    var c, b := Print(t.children[0]), Print(t.children[1]);
    var e := if |t.children| == 3 then [KeywordElse] + Print(t.children[2]) else [];
    assert [t.token] + c + b + e == [t.token] + ((c + b) + e);
  }

  lemma {:induction false} IfParses(ts: seq<Token>, K: seq<State>, f: seq<Tree>, i: nat, t: Tree)
    requires GoodTokens(ts) && IsIf(t) && Reads(ts, i, Print(t)) && i + |Print(t)| < |ts|
    requires ts[i + |Print(t)|] != KeywordElse
    ensures Go(ts, K + [IfHead], f, i) == Go(ts, K, f + [t], i + |Print(t)|)
    decreases t, 0
  {
    hide *;
    var tail := if |t.children| == 3 then [KeywordElse] + Print(t.children[2]) else [];
    IfPrint(t);
    var c, b := t.children[0], t.children[1];
    ReadsSplit(ts, i, [t.token], (Print(c) + Print(b)) + tail);
    ReadsSplit(ts, i + 1, Print(c) + Print(b), tail);
    ReadsOne(ts, i, t.token);
    GoIfHead(ts, K, f, i);
    var K' := K + [ElsePart(t.token)];
    HeadParses(ts, K', f, i + 1, c, b);
    var m := i + 1 + |Print(c)| + |Print(b)|;
    GoElse(ts, K, f, c, b, t.token, m);
    if |t.children| == 3 {
      ElseParses(ts, K, f, m, c, b, t);
    }
  }

  lemma {:induction false} ElseParses(ts: seq<Token>, K: seq<State>, f: seq<Tree>, m: nat, c: Tree, b: Tree, t: Tree)
    requires GoodTokens(ts) && IsIf(t) && |t.children| == 3 && t.children == [c, b, t.children[2]]
    requires Reads(ts, m, [KeywordElse] + Print(t.children[2]))
    requires var j := m + 1 + |Print(t.children[2])|; j < |ts| && ts[j] != KeywordElse
    ensures Go(ts, K + [ElsePart(t.token)], f + [c, b], m) == Go(ts, K, f + [t], m + 1 + |Print(t.children[2])|)
    decreases t.children[2], 1
  {
    hide Go, Run, Reads;
    var e := t.children[2];
    ReadsSplit(ts, m, [KeywordElse], Print(e));
    ReadsOne(ts, m, KeywordElse);
    ReadsFirst(ts, m + 1, Print(e));
    GoElse(ts, K, f, c, b, t.token, m);
    var K' := K + [Complete(If, t.token, 3)];
    if IsBlock(e) {
      BlockParses(ts, K', f + [c, b], m + 1, e);
    } else {
      IfParses(ts, K', f + [c, b], m + 1, e);
    }
    assert f + [c, b] + [e] == f + [c, b, e];
    GoComplete(ts, K, f, [c, b, e], If, t.token, m + 1 + |Print(e)|);
  }

  lemma {:induction false} WhileParses(ts: seq<Token>, K: seq<State>, f: seq<Tree>, i: nat, t: Tree)
    requires GoodTokens(ts) && IsWhile(t) && Reads(ts, i, Print(t)) && i + |Print(t)| < |ts|
    ensures Go(ts, K + [WhileHead], f, i) == Go(ts, K, f + [t], i + |Print(t)|)
    decreases t, 0
  {
    hide Go, Run, Reads;
    var c, b := t.children[0], t.children[1];
    assert Print(t) == [t.token] + (Print(c) + Print(b));
    ReadsSplit(ts, i, [t.token], Print(c) + Print(b));
    ReadsOne(ts, i, t.token);
    GoWhileHead(ts, K, f, i);
    HeadParses(ts, K + [Complete(While, t.token, 2)], f, i + 1, c, b);
    assert t.children == [c, b];
    GoComplete(ts, K, f, [c, b], While, t.token, i + |Print(t)|);
  }

  lemma {:induction false} ReturnPrint(t: Tree)
    requires IsReturn(t)
    ensures t.token == KeywordReturn && |t.children| <= 1
    ensures |t.children| == 0 ==> Print(t) == [t.token] && t == Leaf(Return, t.token)
    ensures |t.children| == 1 ==> Print(t) == [t.token] + Print(t.children[0]) && Obeys(t.children[0])
    ensures |t.children| == 1 ==> t == Tree(Return, t.token, [t.children[0]])
  {
    hide Obeys;
  }

  lemma {:induction false} SemicolonEnds(x: Token)
    requires x == Mark(';')
    ensures BinaryPrec(x, false) <= 0
  {}

  lemma {:induction false} ReturnParses(ts: seq<Token>, K: seq<State>, f: seq<Tree>, i: nat, t: Tree)
    requires GoodTokens(ts) && IsReturn(t) && Reads(ts, i, Print(t)) && i + |Print(t)| < |ts|
    requires ts[i + |Print(t)|] == Mark(';')
    ensures Go(ts, K + [ReturnHead], f, i) == Go(ts, K, f + [t], i + |Print(t)|)
  {
    hide *;
    ReturnPrint(t);
    ReadsFirst(ts, i, Print(t));
    GoReturnHead(ts, K, f, i);
    if |t.children| == 1 {
      var e := t.children[0];
      ReadsSplit(ts, i, [t.token], Print(e));
      ExprFirst(e);
      ReadsFirst(ts, i + 1, Print(e));
      SemicolonEnds(ts[i + |Print(t)|]);
      var K' := K + [Complete(Return, t.token, 1)];
      ExprDone(ts, K', f, i + 1, e);
      GoComplete(ts, K, f, [e], Return, t.token, i + |Print(t)|);
    }
  }

  lemma {:induction false} LocalParses(ts: seq<Token>, K: seq<State>, f: seq<Tree>, i: nat, t: Tree)
    requires GoodTokens(ts) && IsLocal(t) && Reads(ts, i, Print(t)) && i + |Print(t)| < |ts|
    requires ts[i + |Print(t)|] == Mark(';')
    ensures Go(ts, K + [LocalDecl], f, i) == Go(ts, K, f + [t], i + |Print(t)|)
  {
    hide Go, Run;
    LocalPrint(t);
    var name, type_ := t.children[0], t.children[1];
    var x := Print(t);
    ReadsAt(ts, i, x, 0);
    ReadsAt(ts, i, x, 1);
    ReadsAt(ts, i, x, 2);
    assert name == Leaf(Identifier, ts[i]) && type_ == Leaf(Typename, ts[i + 2]);
    GoLocal(ts, K, f, i);
    if |t.children| == 3 {
      ReadsAt(ts, i, x, 3);
      LocalInitParses(ts, K, f, i, t);
    } else {
      assert t.children == [name, type_];
    }
  }

  lemma {:induction false} LocalInitParses(ts: seq<Token>, K: seq<State>, f: seq<Tree>, i: nat, t: Tree)
    requires GoodTokens(ts) && IsLocal(t) && |t.children| == 3 && Reads(ts, i, Print(t))
    requires i + |Print(t)| < |ts| && ts[i + |Print(t)|] == Mark(';')
    requires |Print(t)| == 4 + |Print(t.children[2])|
    ensures i + 4 < |ts|
    ensures Go(ts, K + [Complete(Local, t.token, 3)] + [Expr], f + [t.children[0], t.children[1]], i + 4) ==
      Go(ts, K, f + [t], i + |Print(t)|)
  {
    hide Go, Run, Reads;
    LocalPrint(t);
    var name, type_, e := t.children[0], t.children[1], t.children[2];
    assert Print(t) == [name.token, t.token, type_.token, Mark('=')] + Print(e);
    ReadsSplit(ts, i, [name.token, t.token, type_.token, Mark('=')], Print(e));
    ExprDone(ts, K + [Complete(Local, t.token, 3)], f + [name, type_], i + 4, e);
    assert f + [name, type_] + [e] == f + [name, type_, e] && t.children == [name, type_, e];
    GoComplete(ts, K, f, [name, type_, e], Local, t.token, i + |Print(t)|);
  }
}
