/** The machine accepts nothing but programs: what it takes is the written form of the tree it builds. */
module ParseSound {
  import opened Options
  import opened Syntax
  import opened Grammar
  import opened ParseMachine
  import opened ParseComplete

  /** The tree `t` is written from `i` to just before `j`. */
  predicate Written(ts: seq<Token>, i: nat, x: seq<Token>, j: nat) {
    Reads(ts, i, x) && j == i + |x| < |ts|
  }

  lemma {:induction false} WrittenThen(ts: seq<Token>, i: nat, a: seq<Token>, m: nat, b: seq<Token>, j: nat)
    requires Written(ts, i, a, m) && Written(ts, m, b, j)
    ensures Written(ts, i, a + b, j)
  {
    ReadsSplit(ts, i, a, b);
  }

  lemma {:induction false} WrittenOne(ts: seq<Token>, i: nat, x: Token)
    requires i + 1 < |ts| && ts[i] == x
    ensures Written(ts, i, [x], i + 1)
  {
    ReadsOne(ts, i, x);
  }

  // ----- expressions -----

  /** The loop over infix operators, with the left operand `l` parsed. */
  lemma {:induction false} InfixSound(ts: seq<Token>, K: seq<State>, f: seq<Tree>, l: Tree, start: nat, i: nat,
                                      q: int) returns (t: Tree, j: nat)
    requires GoodTokens(ts) && i < |ts| && q >= 0 && Obeys(l) && Level(l) > q
    requires Written(ts, start, Print(l), i) && BinaryPrec(ts[i], false) <= Tail(l)
    requires Go(ts, K + [BinaryInfix(q)], f + [l], i).Some?
    ensures Obeys(t) && Level(t) > q && Written(ts, start, Print(t), j) && BinaryPrec(ts[j], false) <= q
    ensures i <= j < |ts| && Go(ts, K + [BinaryInfix(q)], f + [l], i) == Go(ts, K, f + [t], j)
    decreases |ts| - i, 0
  {
    hide Go, Run, Written;
    GoInfix(ts, K, f + [l], i, q);
    var op := ts[i];
    if BinaryPrec(op, false) <= q {
      t, j := l, i;
    } else {
      var c := BinaryPrec(op, true);
      var K' := K + [BinaryInfix(q)] + [Complete(BinaryKind(op), op, 2)];
      var r, m := ExprSound(ts, K', f + [l], i + 1, c);
      var joined := Tree(BinaryKind(op), op, [l, r]);
      assert f + [l] + [r] == f + [l, r];
      GoComplete(ts, K + [BinaryInfix(q)], f, [l, r], BinaryKind(op), op, m);
      TailLevel(l);
      TailLevel(r);
      JoinedObeys(op, l, r);
      WrittenOne(ts, i, op);
      WrittenThen(ts, start, Print(l), i, [op], i + 1);
      WrittenThen(ts, start, Print(l) + [op], i + 1, Print(r), m);
      t, j := InfixSound(ts, K, f, joined, start, m, q);
    }
  }

  lemma {:induction false} JoinedObeys(op: Token, l: Tree, r: Tree)
    requires Obeys(l) && Obeys(r) && BinaryPrec(op, false) > 0 && BinaryPrec(op, false) <= Tail(l)
    requires Level(r) > BinaryPrec(op, true)
    ensures var t := Tree(BinaryKind(op), op, [l, r]);
      Obeys(t) && Level(t) == BinaryPrec(op, false) && Tail(t) == BinaryPrec(op, true) &&
      Print(t) == Print(l) + [op] + Print(r)
  {
    TailLevel(l);
    TailLevel(r);
    var t := Tree(BinaryKind(op), op, [l, r]);
    assert t.children[0] == l && t.children[1] == r;
  }

  lemma {:induction false} ExprSound(ts: seq<Token>, K: seq<State>, f: seq<Tree>, i: nat, q: int)
    returns (t: Tree, j: nat)
    requires GoodTokens(ts) && i < |ts| && 0 <= q <= 20 && Go(ts, K + [Binary(q)], f, i).Some?
    ensures Obeys(t) && Level(t) > q && Written(ts, i, Print(t), j) && BinaryPrec(ts[j], false) <= q
    ensures i < j < |ts| && Go(ts, K + [Binary(q)], f, i) == Go(ts, K, f + [t], j)
    decreases |ts| - i, 1
  {
    hide Go, Run;
    GoBinary(ts, K, f, i, q);
    GoPrimary(ts, K + [BinaryInfix(q)], f, i);
    var l := if ts[i].Name? then Leaf(Symbol, ts[i]) else Leaf(Integer, ts[i]);
    assert Print(l) == [ts[i]];
    WrittenOne(ts, i, ts[i]);
    t, j := InfixSound(ts, K, f, l, i, i + 1, q);
  }

  lemma {:induction false} ExprStateSound(ts: seq<Token>, K: seq<State>, f: seq<Tree>, i: nat) returns (t: Tree, j: nat)
    requires GoodTokens(ts) && i < |ts| && Go(ts, K + [Expr], f, i).Some?
    ensures Obeys(t) && Written(ts, i, Print(t), j) && i < j < |ts| && Go(ts, K + [Expr], f, i) == Go(ts, K, f + [t], j)
  {
    hide Go, Run;
    GoExpr(ts, K, f, i);
    t, j := ExprSound(ts, K, f, i, 0);
  }

  // ----- statements and blocks -----

  lemma {:induction false} BlockSound(ts: seq<Token>, K: seq<State>, f: seq<Tree>, i: nat) returns (t: Tree, j: nat)
    requires GoodTokens(ts) && i < |ts| && Go(ts, K + [BlockHead], f, i).Some?
    ensures IsBlock(t) && Written(ts, i, Print(t), j) && i < j < |ts|
    ensures Go(ts, K + [BlockHead], f, i) == Go(ts, K, f + [t], j)
    decreases |ts| - i, 0
  {
    hide Go, Run, Written;
    GoBlockHead(ts, K, f, i);
    assert f + [] == f;
    var todo;
    todo, j := StmtsSound(ts, K, f, [], i + 1);
    assert [] + todo == todo;
    t := Tree(Block, Mark('{'), todo);
    assert Print(t) == [Mark('{')] + (PrintAll(todo) + [Mark('}')]);
    WrittenOne(ts, i, Mark('{'));
    WrittenThen(ts, i, [Mark('{')], i + 1, PrintAll(todo) + [Mark('}')], j);
  }

  lemma {:induction false} StmtsSound(ts: seq<Token>, K: seq<State>, f: seq<Tree>, done: seq<Tree>, i: nat)
    returns (todo: seq<Tree>, j: nat)
    requires GoodTokens(ts) && i < |ts| && Go(ts, K + [BlockStmt(Mark('{'), |done|)], f + done, i).Some?
    ensures forall k :: 0 <= k < |todo| ==> IsStmt(todo[k])
    ensures Written(ts, i, PrintAll(todo) + [Mark('}')], j)
    ensures i < j < |ts|
    ensures Go(ts, K + [BlockStmt(Mark('{'), |done|)], f + done, i) ==
      Go(ts, K, f + [Tree(Block, Mark('{'), done + todo)], j)
    decreases |ts| - i, 2
  {
    hide Go, Run, Written, Print, Dispatch, GoodTokens, IsStmt;
    GoBlockStmt(ts, K, f, done, Mark('{'), i);
    if ts[i] == Mark('}') {
      todo, j := [], i + 1;
      assert done + [] == done && PrintAll([]) + [Mark('}')] == [Mark('}')];
      WrittenOne(ts, i, Mark('}'));
    } else {
      var t, m := StmtSound(ts, K + [BlockStmt(Mark('{'), |done| + 1)], f + done, i);
      assert f + done + [t] == f + (done + [t]);
      var rest;
      rest, j := StmtsSound(ts, K, f, done + [t], m);
      todo := [t] + rest;
      assert done + todo == done + [t] + rest;
      WrittenThen(ts, i, Print(t) + Ending(t), m, PrintAll(rest) + [Mark('}')], j);
      assert todo[0] == t && todo[1..] == rest;
      assert PrintAll(todo) + [Mark('}')] == Print(t) + Ending(t) + (PrintAll(rest) + [Mark('}')]);
    }
  }

  lemma {:induction false} StmtSound(ts: seq<Token>, K: seq<State>, f: seq<Tree>, i: nat) returns (t: Tree, j: nat)
    requires GoodTokens(ts) && i < |ts| && Go(ts, K + Dispatch(ts, i), f, i).Some?
    ensures IsStmt(t) && Written(ts, i, Print(t) + Ending(t), j)
    ensures i < j < |ts|
    ensures Go(ts, K + Dispatch(ts, i), f, i) == Go(ts, K, f + [t], j)
    decreases |ts| - i, 1
  {
    hide Go, Run, Written, GoodTokens;
    var d := Dispatch(ts, i);
    if d == [BlockHead] {
      t, j := BlockSound(ts, K, f, i);
      assert Print(t) + Ending(t) == Print(t);
    } else if d == [IfHead] {
      t, j := IfSound(ts, K, f, i);
      assert Print(t) + Ending(t) == Print(t);
    } else if d == [WhileHead] {
      t, j := WhileSound(ts, K, f, i);
      assert Print(t) + Ending(t) == Print(t);
    } else {
      Stacked(K, Semicolon, d[1]);
      var m;
      if d[1] == ReturnHead {
        t, m := ReturnSound(ts, K + [Semicolon], f, i);
      } else if d[1] == LocalDecl {
        t, m := LocalSound(ts, K + [Semicolon], f, i);
      } else {
        t, m := ExprStateSound(ts, K + [Semicolon], f, i);
        EndingOfExpr(t);
      }
      GoSemicolon(ts, K, f + [t], m);
      WrittenOne(ts, m, Mark(';'));
      WrittenThen(ts, i, Print(t), m, [Mark(';')], m + 1);
      j := m + 1;
    }
  }

  lemma {:induction false} EndingOfExpr(t: Tree)
    requires Obeys(t)
    ensures Ending(t) == [Mark(';')]
  {}

  lemma {:induction false} HeadSound(ts: seq<Token>, K: seq<State>, f: seq<Tree>, i: nat)
    returns (c: Tree, b: Tree, j: nat)
    requires GoodTokens(ts) && i < |ts| && Go(ts, K + [BlockHead] + [Expr], f, i).Some?
    ensures Obeys(c) && IsBlock(b) && Written(ts, i, Print(c) + Print(b), j) && i < j < |ts|
    ensures Go(ts, K + [BlockHead] + [Expr], f, i) == Go(ts, K, f + [c, b], j)
    decreases |ts| - i, 1
  {
    hide Go, Run, Written, GoodTokens, Obeys, IsBlock, Print;
    var m;
    c, m := ExprStateSound(ts, K + [BlockHead], f, i);
    b, j := BlockSound(ts, K, f + [c], m);
    assert f + [c] + [b] == f + [c, b];
    WrittenThen(ts, i, Print(c), m, Print(b), j);
  }

  /** The tree of an `if` with a second branch. */
  lemma {:induction false} ElseSound(ts: seq<Token>, K: seq<State>, f: seq<Tree>, i: nat, c: Tree, b: Tree, e: Tree,
                                     m: nat, j: nat) returns (t: Tree)
    requires GoodTokens(ts) && i < m < j < |ts| && ts[m] == KeywordElse
    requires Written(ts, i, [KeywordIf] + (Print(c) + Print(b)), m) && Written(ts, m + 1, Print(e), j)
    requires Obeys(c) && IsBlock(b) && (IsBlock(e) || IsIf(e))
    ensures t == Tree(If, KeywordIf, [c, b, e]) && IsIf(t) && Written(ts, i, Print(t), j)
    ensures Go(ts, K + [Complete(If, KeywordIf, 3)], f + [c, b] + [e], j) == Go(ts, K, f + [t], j)
  {
    hide Go, Run, Written, GoodTokens, Obeys, IsBlock, Step;
    var head := [KeywordIf] + (Print(c) + Print(b));
    WrittenOne(ts, m, KeywordElse);
    WrittenThen(ts, i, head, m, [KeywordElse], m + 1);
    WrittenThen(ts, i, head + [KeywordElse], m + 1, Print(e), j);
    assert f + [c, b] + [e] == f + [c, b, e];
    GoComplete(ts, K, f, [c, b, e], If, KeywordIf, j);
    t := Tree(If, KeywordIf, [c, b, e]);
    assert t.children[0] == c && t.children[1] == b && t.children[2] == e;
    assert Print(t) == head + [KeywordElse] + Print(e);
  }

  lemma {:induction false} IfSound(ts: seq<Token>, K: seq<State>, f: seq<Tree>, i: nat) returns (t: Tree, j: nat)
    requires GoodTokens(ts) && i < |ts| && Go(ts, K + [IfHead], f, i).Some?
    ensures IsIf(t) && Written(ts, i, Print(t), j) && i < j < |ts|
    ensures Go(ts, K + [IfHead], f, i) == Go(ts, K, f + [t], j)
    decreases |ts| - i, 0
  {
    hide Go, Run, Written, GoodTokens, Obeys, IsBlock, Step;
    GoIfHead(ts, K, f, i);
    WrittenOne(ts, i, KeywordIf);
    var c, b, m := HeadSound(ts, K + [ElsePart(KeywordIf)], f, i + 1);
    WrittenThen(ts, i, [KeywordIf], i + 1, Print(c) + Print(b), m);
    var head := [KeywordIf] + (Print(c) + Print(b));
    GoElse(ts, K, f, c, b, KeywordIf, m);
    if ts[m] != KeywordElse {
      t, j := Tree(If, KeywordIf, [c, b]), m;
      assert t.children[0] == c && t.children[1] == b;
      assert Print(t) == head;
    } else {
      var e;
      var K' := K + [Complete(If, KeywordIf, 3)];
      if ts[m + 1] == KeywordIf {
        e, j := IfSound(ts, K', f + [c, b], m + 1);
      } else {
        e, j := BlockSound(ts, K', f + [c, b], m + 1);
      }
      t := ElseSound(ts, K, f, i, c, b, e, m, j);
    }
  }

  lemma {:induction false} WhileSound(ts: seq<Token>, K: seq<State>, f: seq<Tree>, i: nat) returns (t: Tree, j: nat)
    requires GoodTokens(ts) && i < |ts| && Go(ts, K + [WhileHead], f, i).Some?
    ensures IsWhile(t) && Written(ts, i, Print(t), j) && i < j < |ts|
    ensures Go(ts, K + [WhileHead], f, i) == Go(ts, K, f + [t], j)
    decreases |ts| - i, 0
  {
    hide Go, Run, Written, GoodTokens, Obeys, IsBlock;
    GoWhileHead(ts, K, f, i);
    WrittenOne(ts, i, KeywordWhile);
    var c, b;
    c, b, j := HeadSound(ts, K + [Complete(While, KeywordWhile, 2)], f, i + 1);
    WrittenThen(ts, i, [KeywordWhile], i + 1, Print(c) + Print(b), j);
    GoComplete(ts, K, f, [c, b], While, KeywordWhile, j);
    t := Tree(While, KeywordWhile, [c, b]);
    assert t.children[0] == c && t.children[1] == b;
    assert Print(t) == [KeywordWhile] + (Print(c) + Print(b));
  }

  lemma {:induction false} ReturnSound(ts: seq<Token>, K: seq<State>, f: seq<Tree>, i: nat) returns (t: Tree, j: nat)
    requires GoodTokens(ts) && i < |ts| && Go(ts, K + [ReturnHead], f, i).Some?
    ensures IsReturn(t) && Written(ts, i, Print(t), j) && i < j < |ts|
    ensures Go(ts, K + [ReturnHead], f, i) == Go(ts, K, f + [t], j)
  {
    hide Go, Run, Written;
    GoReturnHead(ts, K, f, i);
    WrittenOne(ts, i, KeywordReturn);
    if ts[i + 1] == Mark(';') {
      t, j := Leaf(Return, KeywordReturn), i + 1;
      assert Print(t) == [KeywordReturn];
    } else {
      var e;
      e, j := ExprStateSound(ts, K + [Complete(Return, KeywordReturn, 1)], f, i + 1);
      WrittenThen(ts, i, [KeywordReturn], i + 1, Print(e), j);
      GoComplete(ts, K, f, [e], Return, KeywordReturn, j);
      t := Tree(Return, KeywordReturn, [e]);
      assert t.children[0] == e && Print(t) == [KeywordReturn] + Print(e);
    }
  }

  lemma {:induction false} LocalSound(ts: seq<Token>, K: seq<State>, f: seq<Tree>, i: nat) returns (t: Tree, j: nat)
    requires GoodTokens(ts) && i < |ts| && Go(ts, K + [LocalDecl], f, i).Some?
    ensures IsLocal(t) && Written(ts, i, Print(t), j) && i < j < |ts|
    ensures Go(ts, K + [LocalDecl], f, i) == Go(ts, K, f + [t], j)
  {
    hide Go, Run, Obeys;
    GoLocal(ts, K, f, i);
    var name, type_ := Leaf(Identifier, ts[i]), Leaf(Typename, ts[i + 2]);
    var head := [ts[i], ts[i + 1], ts[i + 2]];
    assert ts[i..i + 3] == head;
    assert Written(ts, i, head, i + 3);
    if ts[i + 3] == Mark('=') {
      var e;
      e, j := ExprStateSound(ts, K + [Complete(Local, ts[i + 1], 3)], f + [name, type_], i + 4);
      WrittenOne(ts, i + 3, Mark('='));
      WrittenThen(ts, i, head, i + 3, [Mark('=')], i + 4);
      WrittenThen(ts, i, head + [Mark('=')], i + 4, Print(e), j);
      assert f + [name, type_] + [e] == f + [name, type_, e];
      GoComplete(ts, K, f, [name, type_, e], Local, ts[i + 1], j);
      t := Tree(Local, ts[i + 1], [name, type_, e]);
      assert t.children[0] == name && t.children[1] == type_ && t.children[2] == e;
      LocalPrint(t);
      assert Print(t) == head + [Mark('=')] + Print(e);
    } else {
      t, j := Tree(Local, ts[i + 1], [name, type_]), i + 3;
      assert t.children[0] == name && t.children[1] == type_;
      LocalPrint(t);
      assert Print(t) == head;
    }
  }

  // ----- the whole program -----

  /** What the parser makes of the tokens: a tree, and where its text ends. */
  function Parse(ts: seq<Token>): Option<Parsing>
    requires GoodTokens(ts)
  {
    Run(ts, Parsing([BlockHead], [], 0))
  }

  /** The parser answers exactly the tree whose text begins the input, if there is one. */
  lemma {:induction false} ParseIff(ts: seq<Token>, t: Tree, j: nat)
    requires GoodTokens(ts)
    ensures Parse(ts) == Some(Parsing([], [t], j)) <==> IsBlock(t) && Reads(ts, 0, Print(t)) && j == |Print(t)|
  {
    var K: seq<State>, f: seq<Tree> := [], [];
    assert K + [BlockHead] == [BlockHead] && f + [t] == [t];
    if IsBlock(t) && Reads(ts, 0, Print(t)) {
      BlockParses(ts, K, f, 0, t);
    }
    if Parse(ts) == Some(Parsing([], [t], j)) {
      var u, m := BlockSound(ts, K, f, 0);
      assert f + [u] == [u];
    }
  }

  /** The parser fails exactly if no program's text begins the input. */
  lemma {:induction false} ParseFailsIff(ts: seq<Token>)
    requires GoodTokens(ts)
    ensures Parse(ts) == None <==> forall t :: IsBlock(t) ==> !Reads(ts, 0, Print(t))
  {
    if Parse(ts) == None {
      forall t | IsBlock(t)
        ensures !Reads(ts, 0, Print(t))
      {
        if Reads(ts, 0, Print(t)) {
          ParseIff(ts, t, |Print(t)|);
        }
      }
    } else {
      var K: seq<State> := [];
      assert K + [BlockHead] == [BlockHead];
      var t, j := BlockSound(ts, K, [], 0);
    }
  }

  /** No text is the beginning of the input as the text of two programs. */
  lemma {:induction false} ProgramUnique(ts: seq<Token>, t: Tree, u: Tree)
    requires GoodTokens(ts) && IsBlock(t) && IsBlock(u) && Reads(ts, 0, Print(t)) && Reads(ts, 0, Print(u))
    ensures t == u
  {
    ParseIff(ts, t, |Print(t)|);
    ParseIff(ts, u, |Print(u)|);
  }
}
