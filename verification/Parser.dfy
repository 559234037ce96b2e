/** The parser: an explicit stack of states, writing the tree as an array. */
module Parser {
  import opened Options
  import opened Syntax
  import opened ParseMachine
  import opened ParseComplete
  import opened ParseSound

  class Parser {
    const tokens: seq<Token>
    var curToken: nat
    var nodes: seq<ParseNode>
    var stack: seq<State>
    ghost var forest: seq<Tree>

    constructor (tokens: seq<Token>)
      requires GoodTokens(tokens)
      ensures Valid() && this.tokens == tokens && Now() == Parsing([], [], 0)
    {
      this.tokens := tokens;
      curToken, nodes, stack, forest := 0, [], [], [];
    }

    /** The node array is the array form of a forest. */
    ghost predicate Valid()
      reads this
    {
      GoodTokens(tokens) && curToken < |tokens| && nodes == PostAll(forest)
    }

    ghost function Now(): Parsing
      reads this
    {
      Parsing(stack, forest, curToken)
    }

    function Peek(): Token
      requires curToken < |tokens|
      reads this
    {
      tokens[curToken]
    }

    method Lex() returns (token: Token)
      requires Valid()
      modifies this`curToken
      ensures Valid() && token == tokens[old(curToken)] && curToken == Next(tokens, old(curToken))
    {
      token := Peek();
      if curToken < |tokens| - 1 {
        curToken := curToken + 1;
      }
    }

    method Match(kind: Token) returns (ok: bool)
      requires Valid()
      modifies this`curToken
      ensures Valid() && ok == (tokens[old(curToken)] == kind)
      ensures curToken == if ok then Next(tokens, old(curToken)) else old(curToken)
    {
      if Peek() == kind {
        var _ := Lex();
        return true;
      }
      return false;
    }

    method MatchName() returns (ok: bool)
      requires Valid()
      modifies this`curToken
      ensures Valid() && ok == tokens[old(curToken)].Name?
      ensures curToken == if ok then Next(tokens, old(curToken)) else old(curToken)
    {
      if Peek().Name? {
        var _ := Lex();
        return true;
      }
      return false;
    }

    /** Makes the last `numChildren` trees the children of a new node, finding them by their sizes. */
    method MakeNode(kind: Kind, token: Token, numChildren: nat)
      requires Valid() && numChildren <= |forest|
      modifies this`nodes, this`forest
      ensures Valid() && forest == Reduce(old(forest), kind, token, numChildren)
    {
      hide PostAll, SizeAll;
      var subtreeSize := 1;
      var child := |nodes| - 1;
      var i := 0;
      ghost var trees, m := forest, |forest|;
      assert trees[..m] == trees;
      while i < numChildren
        invariant i <= numChildren && nodes == PostAll(trees) && child == SizeAll(trees[..m - i]) - 1
        invariant subtreeSize == 1 + SizeAll(trees) - SizeAll(trees[..m - i])
      {
        ForestRoot(trees, m - i - 1, nodes);
        var size := nodes[child].subtreeSize;
        subtreeSize := subtreeSize + size;
        child := child - size;
        i := i + 1;
      }
      ReducePost(trees, kind, token, numChildren);
      assert trees == trees[..m - numChildren] + trees[m - numChildren..];
      PostAppend(trees[..m - numChildren], trees[m - numChildren..]);
      nodes := nodes + [ParseNode(kind, token, numChildren, subtreeSize)];
      forest := Reduce(trees, kind, token, numChildren);
    }

    /** What the machine should do with `state` on top of the stack. */
    ghost predicate Follows(state: State, was: Parsing, ok: bool)
      requires Valid() && was.pos < |tokens|
      reads this
    {
      Step(tokens, Parsing(was.stack + [state], was.forest, was.pos)) == if ok then Some(Now()) else None
    }

    method HandleBlockStmt(lbrace: Token, count: nat) returns (ok: bool)
      requires Valid() && count <= |forest|
      modifies this
      ensures Valid() && Follows(BlockStmt(lbrace, count), old(Now()), ok)
    {
      TopOf(stack, BlockStmt(lbrace, count));
      if Peek() == Mark('}') {
        var _ := Lex();
        MakeNode(Block, lbrace, count);
        return true;
      }
      if Peek() == Eof {
        return false;
      }
      stack := stack + [BlockStmt(lbrace, count + 1)];
      ghost var rest := stack;
      match Peek() {
        case Mark(c) =>
          if c == '{' {
            stack := stack + [BlockHead];
          } else {
            stack := stack + [Semicolon] + [Expr];
          }
        case Name(_) =>
          stack := stack + [Semicolon];
          if PeekN(tokens, curToken, 1) == Mark(':') {
            stack := stack + [LocalDecl];
          } else {
            stack := stack + [Expr];
          }
        case KeywordIf => stack := stack + [IfHead];
        case KeywordWhile => stack := stack + [WhileHead];
        case KeywordReturn => stack := stack + [Semicolon] + [ReturnHead];
        case IntegerLit(_) => stack := stack + [Semicolon] + [Expr];
        case KeywordElse => stack := stack + [Semicolon] + [Expr];
      }
      assert stack == rest + Dispatch(tokens, curToken);
      return true;
    }

    /** Takes a name, `:` and a type name. */
    method MatchLocal() returns (ok: bool, name: Token, colon: Token, type_: Token)
      requires Valid()
      modifies this`curToken
      ensures Valid()
      ensures var i := old(curToken); var j := Next(tokens, i); var k := Next(tokens, j);
        ok == (tokens[i].Name? && tokens[j] == Mark(':') && tokens[k].Name?) &&
        (ok ==> name == tokens[i] && colon == tokens[j] && type_ == tokens[k] && curToken == Next(tokens, k))
    {
      hide PostAll;
      name := Peek();
      colon, type_ := name, name;
      ok := MatchName();
      if ok {
        colon := Peek();
        ok := Match(Mark(':'));
        if ok {
          type_ := Peek();
          ok := MatchName();
        }
      }
    }

    method MakeLeaf(kind: Kind, token: Token)
      requires Valid()
      modifies this`nodes, this`forest
      ensures Valid() && forest == old(forest) + [Leaf(kind, token)]
    {
      Leaved(forest, kind, token);
      MakeNode(kind, token, 0);
    }

    /** The name and the type are nodes; an initializer may follow. */
    method FinishLocal(colon: Token)
      requires Valid() && 2 <= |forest|
      modifies this
      ensures Valid()
      ensures Now() == if tokens[old(curToken)] == Mark('=')
                       then Parsing(old(stack) + [Complete(Local, colon, 3), Expr], old(forest),
                         Next(tokens, old(curToken)))
                       else Parsing(old(stack), Reduce(old(forest), Local, colon, 2), old(curToken))
    {
      hide PostAll, Reduce, Step, Next;
      if Peek() == Mark('=') {
        var _ := Lex();
        stack := stack + [Complete(Local, colon, 3), Expr];
      } else {
        MakeNode(Local, colon, 2);
      }
    }

    method HandleLocal() returns (ok: bool)
      requires Valid()
      modifies this
      ensures Valid() && Follows(LocalDecl, old(Now()), ok)
    {
      hide PostAll, Reduce, Step, Next;
      ghost var rest, was, at := stack, forest, curToken;
      var name, colon, type_;
      ok, name, colon, type_ := MatchLocal();
      if !ok {
        LocalFails(tokens, rest, was, at);
        return;
      }
      MakeLeaf(Identifier, name);
      MakeLeaf(Typename, type_);
      FinishLocal(colon);
      LocalDone(tokens, rest, was, at, Now());
    }

    method HandleIf() returns (ok: bool)
      requires Valid()
      modifies this
      ensures Valid() && Follows(IfHead, old(Now()), ok)
    {
      TopOf(stack, IfHead);
      var ifToken := Peek();
      ok := Match(KeywordIf);
      if ok {
        stack := stack + [ElsePart(ifToken), BlockHead, Expr];
      }
    }

    method HandleElse(ifToken: Token) returns (ok: bool)
      requires Valid() && 2 <= |forest|
      modifies this
      ensures Valid() && Follows(ElsePart(ifToken), old(Now()), ok)
    {
      TopOf(stack, ElsePart(ifToken));
      if Peek() == KeywordElse {
        var _ := Lex();
        if Peek() == KeywordIf {
          stack := stack + [Complete(If, ifToken, 3), IfHead];
        } else if Peek() == Mark('{') {
          stack := stack + [Complete(If, ifToken, 3), BlockHead];
        } else {
          return false;
        }
      } else {
        MakeNode(If, ifToken, 2);
      }
      return true;
    }

    method HandleWhile() returns (ok: bool)
      requires Valid()
      modifies this
      ensures Valid() && Follows(WhileHead, old(Now()), ok)
    {
      TopOf(stack, WhileHead);
      var whileToken := Peek();
      ok := Match(KeywordWhile);
      if ok {
        stack := stack + [Complete(While, whileToken, 2), BlockHead, Expr];
      }
    }

    method HandleReturn() returns (ok: bool)
      requires Valid()
      modifies this
      ensures Valid() && Follows(ReturnHead, old(Now()), ok)
    {
      TopOf(stack, ReturnHead);
      var returnToken := Peek();
      ok := Match(KeywordReturn);
      if ok {
        if Peek() != Mark(';') {
          stack := stack + [Complete(Return, returnToken, 1), Expr];
        } else {
          MakeNode(Return, returnToken, 0);
        }
      }
    }

    method HandlePrimary() returns (ok: bool)
      requires Valid()
      modifies this
      ensures Valid() && Follows(Primary, old(Now()), ok)
    {
      TopOf(stack, Primary);
      match Peek() {
        case Name(_) =>
          var token := Lex();
          MakeNode(Symbol, token, 0);
          return true;
        case IntegerLit(_) =>
          var token := Lex();
          MakeNode(Integer, token, 0);
          return true;
        case _ => return false;
      }
    }

    method HandleInfix(prec: int) returns (ok: bool)
      requires Valid() && prec >= 0
      modifies this
      ensures Valid() && Follows(BinaryInfix(prec), old(Now()), ok)
    {
      TopOf(stack, BinaryInfix(prec));
      if BinaryPrec(Peek(), false) > prec {
        var op := Lex();
        stack := stack + [BinaryInfix(prec), Complete(BinaryKind(op), op, 2), Binary(BinaryPrec(op, true))];
      }
      return true;
    }

    method HandleState(state: State) returns (ok: bool)
      requires Valid() && Fits(stack + [state], |forest|) && NoNegative(stack + [state])
      modifies this
      ensures Valid() && Follows(state, old(Now()), ok)
    {
      FitsPush(stack, state, |forest|);
      TopOf(stack, state);
      match state
      case Primary => ok := HandlePrimary();
      case Binary(prec) =>
        stack := stack + [BinaryInfix(prec), Primary];
        ok := true;
      case BinaryInfix(prec) => ok := HandleInfix(prec);
      case Complete(kind, token, numChildren) =>
        MakeNode(kind, token, numChildren);
        ok := true;
      case Semicolon => ok := Match(Mark(';'));
      case Expr =>
        stack := stack + [Binary(0)];
        ok := true;
      case BlockHead =>
        var lbrace := Peek();
        ok := Match(Mark('{'));
        if ok {
          stack := stack + [BlockStmt(lbrace, 0)];
        }
      case BlockStmt(lbrace, count) => ok := HandleBlockStmt(lbrace, count);
      case LocalDecl => ok := HandleLocal();
      case IfHead => ok := HandleIf();
      case ElsePart(ifToken) => ok := HandleElse(ifToken);
      case WhileHead => ok := HandleWhile();
      case ReturnHead => ok := HandleReturn();
    }
  }

  lemma {:induction false} TopOf(stack: seq<State>, s: State)
    ensures (stack + [s])[..|stack|] == stack && (stack + [s])[|stack|] == s
  {}

  lemma {:induction false} LocalFails(ts: seq<Token>, stack: seq<State>, f: seq<Tree>, i: nat)
    requires GoodTokens(ts) && i < |ts|
    requires var j := Next(ts, i); !(ts[i].Name? && ts[j] == Mark(':') && ts[Next(ts, j)].Name?)
    ensures Step(ts, Parsing(stack + [LocalDecl], f, i)) == None
  {
    TopOf(stack, LocalDecl);
  }

  /** What a local declaration leaves. */
  lemma {:induction false} LocalDone(ts: seq<Token>, stack: seq<State>, f: seq<Tree>, i: nat, p: Parsing)
    requires GoodTokens(ts) && i < |ts|
    requires var j := Next(ts, i); ts[i].Name? && ts[j] == Mark(':') && ts[Next(ts, j)].Name?
    requires var j := Next(ts, i); var k := Next(ts, j); var after := Next(ts, k);
      var leaves := f + [Leaf(Identifier, ts[i])] + [Leaf(Typename, ts[k])];
      p == if ts[after] == Mark('=') then Parsing(stack + [Complete(Local, ts[j], 3), Expr], leaves, Next(ts, after))
           else Parsing(stack, Reduce(leaves, Local, ts[j], 2), after)
    ensures Step(ts, Parsing(stack + [LocalDecl], f, i)) == Some(p)
  {
    TopOf(stack, LocalDecl);
    var k := Next(ts, Next(ts, i));
    assert f + [Leaf(Identifier, ts[i])] + [Leaf(Typename, ts[k])] ==
      f + [Leaf(Identifier, ts[i]), Leaf(Typename, ts[k])];
  }

  /** Precedences on the stack come from `Expr` or from an operator. */
  predicate NoNegative(stack: seq<State>) {
    forall i :: 0 <= i < |stack| ==> (stack[i].Binary? || stack[i].BinaryInfix? ==> stack[i].prec >= 0)
  }

  lemma {:induction false} ForestRoot(forest: seq<Tree>, k: nat, nodes: seq<ParseNode>)
    requires k < |forest| && nodes == PostAll(forest)
    ensures SizeAll(forest[..k + 1]) == SizeAll(forest[..k]) + Size(forest[k]) <= |nodes|
    ensures nodes[SizeAll(forest[..k + 1]) - 1].subtreeSize == Size(forest[k])
  {
    hide *;
    PrefixAt(forest, k);
    LastIsRoot(forest[k]);
    var lo, hi := SizeAll(forest[..k]), SizeAll(forest[..k + 1]);
    assert nodes[hi - 1] == nodes[lo..hi][Size(forest[k]) - 1];
  }

  lemma {:induction false} LastIsRoot(t: Tree)
    ensures Post(t)[Size(t) - 1].subtreeSize == Size(t)
  {}

  lemma {:induction false} StepNoNegative(ts: seq<Token>, p: Parsing)
    requires GoodTokens(ts) && |p.stack| > 0 && p.pos < |ts| && Step(ts, p).Some? && NoNegative(p.stack)
    ensures NoNegative(Step(ts, p).value.stack)
  {
    hide Reduce, Next, PeekN;
  }

  /** Parses a program: the array answered is the array form of the tree found. */
  method ParseTokens(tokens: seq<Token>) returns (tree: Option<seq<ParseNode>>)
    requires GoodTokens(tokens)
    ensures tree == match Parse(tokens)
                    case None => None
                    case Some(p) => Some(PostAll(p.forest))
  {
    var p := new Parser(tokens);
    p.stack := p.stack + [BlockHead];
    FitsPush([], BlockHead, 0);
    while |p.stack| > 0
      invariant p.Valid() && p.tokens == tokens && Fits(p.stack, |p.forest|) && NoNegative(p.stack)
      invariant Run(tokens, p.Now()) == Parse(tokens)
      decreases |tokens| - p.curToken, Gap(p.stack)
    {
      ghost var was := p.Now();
      var state := p.stack[|p.stack| - 1];
      p.stack := p.stack[..|p.stack| - 1];
      assert p.stack + [state] == was.stack;
      var ok := p.HandleState(state);
      if !ok {
        return None;
      }
      StepProgress(tokens, was);
      StepFits(tokens, was);
      StepNoNegative(tokens, was);
    }
    return Some(p.nodes);
  }
}
