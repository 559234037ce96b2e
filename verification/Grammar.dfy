/** The language: which trees are programs, and how a tree is written down. */
module Grammar {
  import opened Syntax

  // ----- operators -----

  predicate Operator(k: Kind) {
    k in {Add, Sub, Mul, Div, Assign}
  }

  predicate Arithmetic(k: Kind) {
    k == Add || k == Sub || k == Mul || k == Div
  }

  // ----- expressions -----

  predicate IsPrimary(t: Tree) {
    |t.children| == 0 && ((t.kind == Symbol && t.token.Name?) || (t.kind == Integer && t.token.IntegerLit?))
  }

  /** An expression that can be written without parentheses. `*` and `/` have no operator below them on the right,
      and only `*` and `/` on the left; `+` and `-` have only `*` and `/` on the right, and no `=` on the left;
      `=` has no `=` on the left. */
  predicate Obeys(t: Tree) {
    IsPrimary(t) ||
    (|t.children| == 2 && Obeys(t.children[0]) && Obeys(t.children[1]) &&
     var l, r := t.children[0].kind, t.children[1].kind;
     match t.kind
     case Mul => t.token == Mark('*') && l !in {Add, Sub, Assign} && r !in {Mul, Div, Add, Sub, Assign}
     case Div => t.token == Mark('/') && l !in {Add, Sub, Assign} && r !in {Mul, Div, Add, Sub, Assign}
     case Add => t.token == Mark('+') && l != Assign && r !in {Add, Sub, Assign}
     case Sub => t.token == Mark('-') && l != Assign && r !in {Add, Sub, Assign}
     case Assign => t.token == Mark('=') && l != Assign
     case _ => false)
  }

  // ----- statements -----

  predicate IsBlock(t: Tree)
    decreases t, 0
  {
    t.kind == Block && t.token == Mark('{') && forall i :: 0 <= i < |t.children| ==> IsStmt(t.children[i])
  }

  predicate IsLeaf(t: Tree, k: Kind) {
    t.kind == k && t.token.Name? && |t.children| == 0
  }

  predicate IsLocal(t: Tree)
    decreases t, 0
  {
    t.kind == Local && t.token == Mark(':') && 2 <= |t.children| <= 3 &&
    IsLeaf(t.children[0], Identifier) && IsLeaf(t.children[1], Typename) && (|t.children| == 3 ==> Obeys(t.children[2]))
  }

  predicate IsIf(t: Tree)
    decreases t, 0
  {
    t.kind == If && t.token == KeywordIf && 2 <= |t.children| <= 3 && Obeys(t.children[0]) && IsBlock(t.children[1]) &&
    (|t.children| == 3 ==> IsBlock(t.children[2]) || IsIf(t.children[2]))
  }

  predicate IsWhile(t: Tree)
    decreases t, 0
  {
    t.kind == While && t.token == KeywordWhile && |t.children| == 2 && Obeys(t.children[0]) && IsBlock(t.children[1])
  }

  predicate IsReturn(t: Tree)
    decreases t, 0
  {
    t.kind == Return && t.token == KeywordReturn && |t.children| <= 1 && (|t.children| == 1 ==> Obeys(t.children[0]))
  }

  predicate IsStmt(t: Tree)
    decreases t, 1
  {
    IsBlock(t) || IsLocal(t) || IsIf(t) || IsWhile(t) || IsReturn(t) || Obeys(t)
  }

  lemma {:induction false} StmtCases(t: Tree)
    requires IsStmt(t)
    ensures match t.kind
            case Block => IsBlock(t)
            case Local => IsLocal(t)
            case If => IsIf(t)
            case While => IsWhile(t)
            case Return => IsReturn(t)
            case _ => Obeys(t)
  {
    assert IsBlock(t) ==> t.kind == Block;
    assert IsIf(t) ==> t.kind == If;
    assert IsWhile(t) ==> t.kind == While;
    assert Obeys(t) ==> t.kind in {Symbol, Integer, Add, Sub, Mul, Div, Assign};
  }

  // ----- writing down -----

  function Print(t: Tree): seq<Token>
    decreases t, 0
  {
    match t.kind
    case Block => [t.token] + PrintAll(t.children) + [Mark('}')]
    case Local =>
      if |t.children| < 2 then []
      else
        Print(t.children[0]) + [t.token] + Print(t.children[1]) +
        if |t.children| == 3 then [Mark('=')] + Print(t.children[2]) else []
    case If =>
      if |t.children| < 2 then []
      else
        [t.token] + Print(t.children[0]) + Print(t.children[1]) +
        if |t.children| == 3 then [KeywordElse] + Print(t.children[2]) else []
    case While => if |t.children| == 2 then [t.token] + Print(t.children[0]) + Print(t.children[1]) else []
    case Return => [t.token] + if |t.children| == 1 then Print(t.children[0]) else []
    case _ => if |t.children| == 2 then Print(t.children[0]) + [t.token] + Print(t.children[1]) else [t.token]
  }

  function Ending(t: Tree): seq<Token> {
    if t.kind == Block || t.kind == If || t.kind == While then [] else [Mark(';')]
  }

  function PrintAll(ts: seq<Tree>): seq<Token>
    decreases ts, 1
  {
    if |ts| == 0 then [] else Print(ts[0]) + Ending(ts[0]) + PrintAll(ts[1..])
  }
}
