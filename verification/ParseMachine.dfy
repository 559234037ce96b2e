/** The parser as a pushdown machine on values. */
module ParseMachine {
  import opened Options
  import opened Syntax

  datatype State =
    | Primary
    | Binary(prec: int)
    | BinaryInfix(prec: int)
    | Semicolon
    | Expr
    | BlockHead
    | BlockStmt(lbrace: Token, count: nat)
    | LocalDecl
    | IfHead
    | ElsePart(ifToken: Token)
    | WhileHead
    | ReturnHead
    | Complete(kind: Kind, token: Token, numChildren: nat)

  datatype Parsing = Parsing(stack: seq<State>, forest: seq<Tree>, pos: nat)

  // ----- operators -----

  function BinaryPrec(op: Token, calling: bool): int {
    match op
    case Mark(c) =>
      if c == '*' || c == '/' then 20
      else if c == '+' || c == '-' then 10
      else if c == '=' then if calling then 4 else 5
      else 0
    case _ => 0
  }

  function BinaryKind(op: Token): Kind
    requires BinaryPrec(op, false) > 0
  {
    if op.c == '*' then Mul
    else if op.c == '/' then Div
    else if op.c == '+' then Add
    else if op.c == '-' then Sub
    else Assign
  }

  // ----- states -----

  /** The lexer's output: the end marker comes last, and nowhere else. */
  predicate GoodTokens(ts: seq<Token>) {
    |ts| > 0 && forall i :: 0 <= i < |ts| ==> (ts[i] == Eof <==> i == |ts| - 1)
  }

  function Next(ts: seq<Token>, i: nat): nat {
    if i < |ts| - 1 then i + 1 else i
  }

  function PeekN(ts: seq<Token>, i: nat, offset: nat): Token
    requires |ts| > 0
  {
    if i + offset >= |ts| then ts[|ts| - 1] else ts[i + offset]
  }

  /** What a statement is parsed as, by its first tokens. */
  function Dispatch(ts: seq<Token>, i: nat): seq<State>
    requires i < |ts|
  {
    match ts[i]
    case Mark(c) => if c == '{' then [BlockHead] else [Semicolon, Expr]
    case Name(_) => if PeekN(ts, i, 1) == Mark(':') then [Semicolon, LocalDecl] else [Semicolon, Expr]
    case KeywordIf => [IfHead]
    case KeywordWhile => [WhileHead]
    case KeywordReturn => [Semicolon, ReturnHead]
    case _ => [Semicolon, Expr]
  }

  function Made(rest: seq<State>, forest: seq<Tree>, kind: Kind, token: Token, n: nat, pos: nat): Option<Parsing> {
    if n <= |forest| then Some(Parsing(rest, Reduce(forest, kind, token, n), pos)) else None
  }

  function Leaf(kind: Kind, token: Token): Tree {
    Tree(kind, token, [])
  }

  /** One step: what the state on top of the stack does. */
  function Step(ts: seq<Token>, p: Parsing): Option<Parsing>
    requires |p.stack| > 0 && p.pos < |ts|
  {
    var state, rest := p.stack[|p.stack| - 1], p.stack[..|p.stack| - 1];
    var token, next := ts[p.pos], Next(ts, p.pos);
    match state
    case Primary =>
      (match token
       case Name(_) => Made(rest, p.forest, Symbol, token, 0, next)
       case IntegerLit(_) => Made(rest, p.forest, Integer, token, 0, next)
       case _ => None)
    case Binary(prec) => Some(Parsing(rest + [BinaryInfix(prec), Primary], p.forest, p.pos))
    case BinaryInfix(prec) =>
      if BinaryPrec(token, false) > prec then
        if BinaryPrec(token, false) > 0 then
          Some(Parsing(rest + [BinaryInfix(prec), Complete(BinaryKind(token), token, 2),
            Binary(BinaryPrec(token, true))], p.forest, next))
        else None
      else Some(Parsing(rest, p.forest, p.pos))
    case Complete(kind, tok, n) => Made(rest, p.forest, kind, tok, n, p.pos)
    case Semicolon => if token == Mark(';') then Some(Parsing(rest, p.forest, next)) else None
    case Expr => Some(Parsing(rest + [Binary(0)], p.forest, p.pos))
    case BlockHead => if token == Mark('{') then Some(Parsing(rest + [BlockStmt(token, 0)], p.forest, next)) else None
    case BlockStmt(lbrace, count) =>
      if token == Mark('}') then Made(rest, p.forest, Block, lbrace, count, next)
      else if token == Eof then None
      else Some(Parsing(rest + [BlockStmt(lbrace, count + 1)] + Dispatch(ts, p.pos), p.forest, p.pos))
    case LocalDecl =>
      var colonAt := Next(ts, p.pos);
      var typeAt := Next(ts, colonAt);
      var after := Next(ts, typeAt);
      if token.Name? && ts[colonAt] == Mark(':') && ts[typeAt].Name? then
        var forest := p.forest + [Leaf(Identifier, token), Leaf(Typename, ts[typeAt])];
        if ts[after] == Mark('=') then
          Some(Parsing(rest + [Complete(Local, ts[colonAt], 3), Expr], forest, Next(ts, after)))
        else Made(rest, forest, Local, ts[colonAt], 2, after)
      else None
    case IfHead =>
      if token == KeywordIf then Some(Parsing(rest + [ElsePart(token), BlockHead, Expr], p.forest, next)) else None
    case ElsePart(ifToken) =>
      if token == KeywordElse then
        (match ts[next]
         case KeywordIf => Some(Parsing(rest + [Complete(If, ifToken, 3), IfHead], p.forest, next))
         case Mark(c) =>
           if c == '{' then Some(Parsing(rest + [Complete(If, ifToken, 3), BlockHead], p.forest, next)) else None
         case _ => None)
      else Made(rest, p.forest, If, ifToken, 2, p.pos)
    case WhileHead =>
      if token == KeywordWhile then
        Some(Parsing(rest + [Complete(While, token, 2), BlockHead, Expr], p.forest, next))
      else None
    case ReturnHead =>
      if token == KeywordReturn then
        if ts[next] != Mark(';') then Some(Parsing(rest + [Complete(Return, token, 1), Expr], p.forest, next))
        else Made(rest, p.forest, Return, token, 0, next)
      else None
  }

  // ----- termination -----

  /** How many steps the machine can take before it must take a token, fail or be done. */
  function Gap(stack: seq<State>): nat {
    if |stack| == 0 then 0
    else
      match stack[|stack| - 1]
      case Binary(_) => 2
      case Expr => 3
      case BlockStmt(_, _) => 4
      case BinaryInfix(_) => 1 + Gap(stack[..|stack| - 1])
      case Complete(_, _, _) => 1 + Gap(stack[..|stack| - 1])
      case ElsePart(_) => 1 + Gap(stack[..|stack| - 1])
      case _ => 1
  }

  /** A step takes tokens, or shortens the way to the next token taken. */
  lemma {:induction false} StepProgress(ts: seq<Token>, p: Parsing)
    requires GoodTokens(ts) && |p.stack| > 0 && p.pos < |ts| && Step(ts, p).Some?
    ensures var q := Step(ts, p).value;
      p.pos <= q.pos < |ts| && (p.pos < q.pos || Gap(q.stack) < Gap(p.stack))
  {
    var rest := p.stack[..|p.stack| - 1];
    match p.stack[|p.stack| - 1] {
      case Binary(prec) =>
        assert (rest + [BinaryInfix(prec), Primary])[|rest| + 1] == Primary;
      case Expr =>
        assert (rest + [Binary(0)])[|rest|] == Binary(0);
      case BlockStmt(lbrace, count) =>
        if ts[p.pos] != Mark('}') {
          var d := Dispatch(ts, p.pos);
          var stack := rest + [BlockStmt(lbrace, count + 1)] + d;
          assert stack[|stack| - 1] == d[|d| - 1];
        }
      case _ =>
    }
  }

  /** The machine run to its end: the forest and the position it stops with, if it does not fail. */
  function Run(ts: seq<Token>, p: Parsing): Option<Parsing>
    requires GoodTokens(ts) && p.pos < |ts|
    decreases |ts| - p.pos, Gap(p.stack)
  {
    if |p.stack| == 0 then Some(p)
    else
      match Step(ts, p)
      case None => None
      case Some(q) => StepProgress(ts, p); Run(ts, q)
  }

  // ----- the forest always suffices -----

  /** How many trees a state takes off the forest; each leaves one, but for `;`, which leaves none. */
  function Takes(s: State): nat {
    match s
    case BinaryInfix(_) => 1
    case BlockStmt(_, count) => count
    case ElsePart(_) => 2
    case Complete(_, _, n) => n
    case _ => 0
  }

  function Gives(s: State): nat {
    if s == Semicolon then 0 else 1
  }

  /** Every state finds the trees it takes, and one tree is left in the end. */
  predicate Fits(stack: seq<State>, trees: nat) {
    if |stack| == 0 then trees == 1
    else
      var s := stack[|stack| - 1];
      Takes(s) <= trees && Fits(stack[..|stack| - 1], trees - Takes(s) + Gives(s))
  }

  lemma {:induction false} FitsPop(stack: seq<State>, trees: nat)
    requires |stack| > 0 && Fits(stack, trees)
    ensures var s := stack[|stack| - 1];
      Takes(s) <= trees && Fits(stack[..|stack| - 1], trees - Takes(s) + Gives(s))
  {}

  /** The trees a state takes and gives. */
  lemma {:induction false} Counts(s: State)
    ensures Gives(s) == if s == Semicolon then 0 else 1
    ensures Takes(s) == match s
                        case BinaryInfix(_) => 1
                        case Complete(_, _, n) => n
                        case BlockStmt(_, n) => n
                        case ElsePart(_) => 2
                        case _ => 0
  {}

  lemma {:induction false} FitsPush(stack: seq<State>, s: State, trees: nat)
    ensures Fits(stack + [s], trees) <==> Takes(s) <= trees && Fits(stack, trees - Takes(s) + Gives(s))
  {
    assert (stack + [s])[..|stack|] == stack;
  }

  lemma {:induction false} FitsPush2(stack: seq<State>, s: State, t: State, trees: nat)
    ensures Fits(stack + [s, t], trees) <==> Takes(t) <= trees && Fits(stack + [s], trees - Takes(t) + Gives(t))
  {
    assert (stack + [s]) + [t] == stack + [s, t];
    FitsPush(stack + [s], t, trees);
  }

  lemma {:induction false} FitsPush3(stack: seq<State>, s: State, t: State, u: State, trees: nat)
    ensures Fits(stack + [s, t, u], trees) <==> Takes(u) <= trees && Fits(stack + [s, t], trees - Takes(u) + Gives(u))
  {
    assert (stack + [s, t]) + [u] == stack + [s, t, u];
    FitsPush(stack + [s, t], u, trees);
  }

  predicate InExpr(s: State) {
    s.Binary? || s.BinaryInfix? || s.Expr?
  }

  predicate InStmt(s: State) {
    s.BlockHead? || s.BlockStmt?
  }

  predicate InIf(s: State) {
    s.IfHead? || s.ElsePart?
  }

  predicate InJump(s: State) {
    s.WhileHead? || s.ReturnHead?
  }

  lemma {:induction false} ExprFits(ts: seq<Token>, p: Parsing)
    requires GoodTokens(ts) && |p.stack| > 0 && p.pos < |ts| && Fits(p.stack, |p.forest|)
    requires Step(ts, p).Some? && InExpr(p.stack[|p.stack| - 1])
    ensures Fits(Step(ts, p).value.stack, |Step(ts, p).value.forest|)
  {
    var n := |p.forest|;
    var rest := p.stack[..|p.stack| - 1];
    match p.stack[|p.stack| - 1] {
      case Binary(prec) =>
        FitsPush2(rest, BinaryInfix(prec), Primary, n);
        FitsPush(rest, BinaryInfix(prec), n + 1);
      case BinaryInfix(prec) =>
        var token := ts[p.pos];
        if BinaryPrec(token, false) > prec {
          var c := Complete(BinaryKind(token), token, 2);
          FitsPush3(rest, BinaryInfix(prec), c, Binary(BinaryPrec(token, true)), n);
          FitsPush2(rest, BinaryInfix(prec), c, n + 1);
          FitsPush(rest, BinaryInfix(prec), n);
        }
      case Expr =>
        FitsPush(rest, Binary(0), n);
      case _ =>
    }
  }

  lemma {:induction false} StepBlock(ts: seq<Token>, p: Parsing)
    requires |p.stack| > 0 && p.pos < |ts| && Step(ts, p).Some? && p.stack[|p.stack| - 1] == BlockHead
    ensures var q := Step(ts, p).value;
      q.stack == p.stack[..|p.stack| - 1] + [BlockStmt(ts[p.pos], 0)] && q.forest == p.forest
  {}

  lemma {:induction false} StepStmt(ts: seq<Token>, p: Parsing)
    requires |p.stack| > 0 && p.pos < |ts| && Step(ts, p).Some? && p.stack[|p.stack| - 1].BlockStmt?
    ensures var q, rest, x := Step(ts, p).value, p.stack[..|p.stack| - 1], p.stack[|p.stack| - 1];
      if ts[p.pos] == Mark('}') then q.stack == rest && x.count <= |p.forest| && |q.forest| == |p.forest| - x.count + 1
      else q.stack == rest + [BlockStmt(x.lbrace, x.count + 1)] + Dispatch(ts, p.pos) && q.forest == p.forest
  {
    hide Dispatch;
  }

  lemma {:induction false} StmtFits(ts: seq<Token>, p: Parsing)
    requires GoodTokens(ts) && |p.stack| > 0 && p.pos < |ts| && Fits(p.stack, |p.forest|)
    requires Step(ts, p).Some? && InStmt(p.stack[|p.stack| - 1])
    ensures Fits(Step(ts, p).value.stack, |Step(ts, p).value.forest|)
  {
    hide *;
    var n, top := |p.forest|, p.stack[|p.stack| - 1];
    var rest := p.stack[..|p.stack| - 1];
    FitsPop(p.stack, n);
    StateCases(top);
    Counts(top);
    if top == BlockHead {
      StepBlock(ts, p);
      Counts(BlockStmt(ts[p.pos], 0));
      FitsPush(rest, BlockStmt(ts[p.pos], 0), n);
    } else {
      StepStmt(ts, p);
      if ts[p.pos] != Mark('}') {
        var next := BlockStmt(top.lbrace, top.count + 1);
        Counts(next);
        DispatchFits(ts, p.pos, rest + [next], n);
        FitsPush(rest, next, n + 1);
      }
    }
  }

  lemma {:induction false} LocalFits(ts: seq<Token>, p: Parsing)
    requires GoodTokens(ts) && |p.stack| > 0 && p.pos < |ts| && Fits(p.stack, |p.forest|)
    requires Step(ts, p).Some? && p.stack[|p.stack| - 1] == LocalDecl
    ensures Fits(Step(ts, p).value.stack, |Step(ts, p).value.forest|)
  {
    var n := |p.forest|;
    var rest, c := p.stack[..|p.stack| - 1], Complete(Local, ts[Next(ts, p.pos)], 3);
    FitsPush2(rest, c, Expr, n + 2);
    FitsPush(rest, c, n + 3);
  }

  lemma {:induction false} StepIf(ts: seq<Token>, p: Parsing)
    requires |p.stack| > 0 && p.pos < |ts| && Step(ts, p).Some? && p.stack[|p.stack| - 1] == IfHead
    ensures var q := Step(ts, p).value;
      q.stack == p.stack[..|p.stack| - 1] + [ElsePart(ts[p.pos]), BlockHead, Expr] && q.forest == p.forest
  {}

  lemma {:induction false} StepElse(ts: seq<Token>, p: Parsing)
    requires |p.stack| > 0 && p.pos < |ts| && Step(ts, p).Some? && p.stack[|p.stack| - 1].ElsePart?
    ensures var q, rest, c := Step(ts, p).value, p.stack[..|p.stack| - 1],
      Complete(If, p.stack[|p.stack| - 1].ifToken, 3);
      (q.stack == rest && 2 <= |p.forest| && |q.forest| == |p.forest| - 1) ||
      (q.stack == rest + [c, IfHead] && q.forest == p.forest) ||
        (q.stack == rest + [c, BlockHead] && q.forest == p.forest)
  {}

  lemma {:induction false} StateCases(s: State)
    ensures InIf(s) <==> s.IfHead? || s.ElsePart?
    ensures InJump(s) <==> s.WhileHead? || s.ReturnHead?
    ensures InStmt(s) <==> s.BlockHead? || s.BlockStmt?
  {}

  lemma {:induction false} IfFits(ts: seq<Token>, p: Parsing)
    requires GoodTokens(ts) && |p.stack| > 0 && p.pos < |ts| && Fits(p.stack, |p.forest|)
    requires Step(ts, p).Some? && InIf(p.stack[|p.stack| - 1])
    ensures Fits(Step(ts, p).value.stack, |Step(ts, p).value.forest|)
  {
    hide *;
    var n, top := |p.forest|, p.stack[|p.stack| - 1];
    var rest := p.stack[..|p.stack| - 1];
    FitsPop(p.stack, n);
    StateCases(top);
    Counts(top);
    Counts(BlockHead);
    if top == IfHead {
      StepIf(ts, p);
      var e := ElsePart(ts[p.pos]);
      Counts(Expr);
      Counts(e);
      FitsPush3(rest, e, BlockHead, Expr, n);
      FitsPush2(rest, e, BlockHead, n + 1);
      FitsPush(rest, e, n + 2);
    } else {
      StepElse(ts, p);
      var c := Complete(If, top.ifToken, 3);
      Counts(IfHead);
      Counts(c);
      FitsPush2(rest, c, IfHead, n);
      FitsPush2(rest, c, BlockHead, n);
      FitsPush(rest, c, n + 1);
    }
  }

  lemma {:induction false} StepWhile(ts: seq<Token>, p: Parsing)
    requires |p.stack| > 0 && p.pos < |ts| && Step(ts, p).Some? && p.stack[|p.stack| - 1] == WhileHead
    ensures var q := Step(ts, p).value;
      q.stack == p.stack[..|p.stack| - 1] + [Complete(While, ts[p.pos], 2), BlockHead, Expr] && q.forest == p.forest
  {}

  lemma {:induction false} StepReturn(ts: seq<Token>, p: Parsing)
    requires |p.stack| > 0 && p.pos < |ts| && Step(ts, p).Some? && p.stack[|p.stack| - 1] == ReturnHead
    ensures var q, rest := Step(ts, p).value, p.stack[..|p.stack| - 1];
      (q.stack == rest && |q.forest| == |p.forest| + 1) ||
      (q.stack == rest + [Complete(Return, ts[p.pos], 1), Expr] && q.forest == p.forest)
  {}

  lemma {:induction false} JumpFits(ts: seq<Token>, p: Parsing)
    requires GoodTokens(ts) && |p.stack| > 0 && p.pos < |ts| && Fits(p.stack, |p.forest|)
    requires Step(ts, p).Some? && InJump(p.stack[|p.stack| - 1])
    ensures Fits(Step(ts, p).value.stack, |Step(ts, p).value.forest|)
  {
    hide *;
    var n, top := |p.forest|, p.stack[|p.stack| - 1];
    var rest := p.stack[..|p.stack| - 1];
    FitsPop(p.stack, n);
    StateCases(top);
    Counts(top);
    Counts(Expr);
    if top == WhileHead {
      StepWhile(ts, p);
      var c := Complete(While, ts[p.pos], 2);
      Counts(BlockHead);
      Counts(c);
      FitsPush3(rest, c, BlockHead, Expr, n);
      FitsPush2(rest, c, BlockHead, n + 1);
      FitsPush(rest, c, n + 2);
    } else {
      StepReturn(ts, p);
      var c := Complete(Return, ts[p.pos], 1);
      Counts(c);
      FitsPush2(rest, c, Expr, n);
      FitsPush(rest, c, n + 1);
    }
  }

  lemma {:induction false} StepFits(ts: seq<Token>, p: Parsing)
    requires GoodTokens(ts) && |p.stack| > 0 && p.pos < |ts| && Fits(p.stack, |p.forest|) && Step(ts, p).Some?
    ensures Fits(Step(ts, p).value.stack, |Step(ts, p).value.forest|)
  {
    var s := p.stack[|p.stack| - 1];
    if InExpr(s) {
      ExprFits(ts, p);
    } else if InStmt(s) {
      StmtFits(ts, p);
    } else if s == LocalDecl {
      LocalFits(ts, p);
    } else if InIf(s) {
      IfFits(ts, p);
    } else if InJump(s) {
      JumpFits(ts, p);
    }
  }

  /** A statement leaves one tree. */
  lemma {:induction false} DispatchFits(ts: seq<Token>, i: nat, stack: seq<State>, n: nat)
    requires i < |ts|
    ensures Fits(stack + Dispatch(ts, i), n) <==> Fits(stack, n + 1)
  {
    var d := Dispatch(ts, i);
    if |d| == 1 {
      FitsPush(stack, d[0], n);
    } else {
      assert d == [Semicolon, d[1]];
      FitsPush2(stack, Semicolon, d[1], n);
      FitsPush(stack, Semicolon, n + 1);
    }
  }

  /** A run that starts with a forest that suffices ends with one tree. */
  lemma {:induction false} RunFits(ts: seq<Token>, p: Parsing)
    requires GoodTokens(ts) && p.pos < |ts| && Fits(p.stack, |p.forest|) && Run(ts, p).Some?
    ensures var q := Run(ts, p).value; q.stack == [] && |q.forest| == 1 && p.pos <= q.pos < |ts|
    decreases |ts| - p.pos, Gap(p.stack)
  {
    if |p.stack| > 0 {
      StepFits(ts, p);
      StepProgress(ts, p);
      RunFits(ts, Step(ts, p).value);
    }
  }
}
