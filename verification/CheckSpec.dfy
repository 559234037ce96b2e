/** What the checker makes of a tree, by recursion over the tree. */
module CheckSpec {
  import M = Machines
  import C = Cfgs
  import opened Options
  import opened Syntax
  import opened Grammar

  // ----- what the checker makes of tokens and operators -----

  function Text(token: Token): string {
    if token.Name? || token.IntegerLit? then token.text else ""
  }

  const WORD: int := 0x1_0000_0000_0000_0000

  /** The value of a string of digits, in 64 bits. */
  function Literal(text: string): int {
    if |text| == 0 then 0 else (Literal(text[..|text| - 1]) * 10 + (text[|text| - 1] as int - '0' as int)) % WORD
  }

  function OpOf(k: Kind): M.BinOp
    requires Arithmetic(k)
  {
    if k == Add then M.Add else if k == Sub then M.Sub else if k == Mul then M.Mul else M.Div
  }

  // ----- names -----

  datatype Scope = NoScope | Scope(parent: Scope, locals: seq<(string, C.Place)>)

  function FindLocal(locals: seq<(string, C.Place)>, name: string): C.PlaceRef {
    if |locals| == 0 then C.NoPlace
    else if locals[0].0 == name then C.Slot(locals[0].1)
    else FindLocal(locals[1..], name)
  }

  function FindSymbol(scope: Scope, name: string): C.PlaceRef {
    match scope
    case NoScope => C.NoPlace
    case Scope(parent, locals) =>
      if FindLocal(locals, name) != C.NoPlace then FindLocal(locals, name) else FindSymbol(parent, name)
  }

  // ----- the state -----

  /** Blocks are known by number; the last one made is the current one. */
  datatype Checking = Checking(blocks: seq<C.Block>, places: nat, stack: seq<C.PlaceRef>, scope: Scope)

  predicate Running(s: Checking) {
    |s.blocks| > 0
  }

  function Cur(s: Checking): (b: C.BlockId)
    requires Running(s)
    ensures b < |s.blocks|
  {
    |s.blocks| - 1
  }

  function CodeOf(s: Checking, b: C.BlockId): seq<C.Inst>
    requires b < |s.blocks|
  {
    s.blocks[b].code
  }

  function NewBlock(s: Checking): (s': Checking)
    ensures Running(s') && Cur(s') == |s.blocks|
  {
    s.(blocks := s.blocks + [C.Block([], false)])
  }

  predicate UserInst(op: C.Op) {
    !op.Goto? && !op.Branch?
  }

  function AddInst(blocks: seq<C.Block>, b: C.BlockId, i: C.Inst): (blocks': seq<C.Block>)
    requires b < |blocks|
    ensures |blocks'| == |blocks|
  {
    blocks[b := C.Block(blocks[b].code + [i], blocks[b].usercode || UserInst(i.op))]
  }

  /** An instruction at the end of block `b` that reads the top `n` places of the stack. */
  function MakeInstBase(s: Checking, b: C.BlockId, write: C.PlaceRef, op: C.Op, n: nat): (s': Checking)
    requires b < |s.blocks| && n <= |s.stack|
    ensures |s'.blocks| == |s.blocks|
  {
    var m := |s.stack| - n;
    s.(blocks := AddInst(s.blocks, b, C.Inst(op, s.stack[m..], write)), stack := s.stack[..m])
  }

  function MakeInst(s: Checking, writes: bool, op: C.Op, n: nat): (s': Checking)
    requires Running(s) && n <= |s.stack|
    ensures |s'.blocks| == |s.blocks|
  {
    var write := if writes then C.Slot(s.places) else C.NoPlace;
    var s' := MakeInstBase(if writes then s.(places := s.places + 1) else s, Cur(s), write, op, n);
    s'.(stack := s'.stack + [write])
  }

  function MakeGoto(s: Checking, from: C.BlockId, to: C.BlockId): (s': Checking)
    requires from < |s.blocks|
    ensures |s'.blocks| == |s.blocks|
  {
    MakeInstBase(s, from, C.NoPlace, C.Goto(to), 0)
  }

  function MakeBranch(s: Checking, from: C.BlockId, thenTo: C.BlockId, elseTo: C.BlockId): (s': Checking)
    requires from < |s.blocks| && |s.stack| > 0
    ensures |s'.blocks| == |s.blocks|
  {
    MakeInstBase(s, from, C.NoPlace, C.Branch(thenTo, elseTo), 1)
  }

  // ----- stages -----

  /** Both operands are on the stack: the operation takes them, and leaves its result. */
  function BinaryEnd(t: Tree, s: Checking): Option<Checking>
    requires Running(s) && Arithmetic(t.kind)
  {
    if |s.stack| >= 2 then Some(MakeInst(s, true, C.Arithmetic(OpOf(t.kind)), 2)) else None
  }

  /** The value assigned stays on the stack, in the place it was in. */
  function AssignEnd(s: Checking): Option<Checking>
    requires Running(s)
  {
    var n := |s.stack|;
    if n < 2 then None
    else
      var value, dest := s.stack[n - 1], s.stack[n - 2];
      var s' := MakeInstBase(s.(stack := s.stack[..n - 2] + [value]), Cur(s), dest, C.Copy, 1);
      Some(s'.(stack := s'.stack + [value]))
  }

  function BlockBegin(s: Checking): Checking {
    s.(scope := Scope(s.scope, []))
  }

  function BlockEnd(initial: nat, s: Checking): Option<Checking> {
    if s.scope.NoScope? then None
    else Some(s.(scope := s.scope.parent, stack := if |s.stack| > initial then s.stack[..initial] else s.stack))
  }

  function CheckLocal(t: Tree, s: Checking): Option<Checking> {
    if |t.children| != 2 || s.scope.NoScope? then None
    else
      var name := Text(t.children[0].token);
      if FindSymbol(s.scope, name) != C.NoPlace then None
      else Some(s.(scope := s.scope.(locals := [(name, s.places)] + s.scope.locals), places := s.places + 1))
  }

  function CheckSymbol(t: Tree, s: Checking): Option<Checking> {
    var place := FindSymbol(s.scope, Text(t.token));
    if place == C.NoPlace then None else Some(s.(stack := s.stack + [place]))
  }

  function ReturnEnd(n: nat, s: Checking): (s': Option<Checking>)
    requires Running(s)
    ensures s'.Some? ==> Running(s'.value)
  {
    if n <= |s.stack| then Some(NewBlock(MakeInst(s, false, C.Return, n))) else None
  }

  /** After the condition of an `if`. */
  function IfThen(s: Checking): (s': Checking)
    ensures Running(s')
  {
    NewBlock(s)
  }

  /** After the first branch: the condition's block gets its jump. */
  function IfElse(t: Tree, entryTail: C.BlockId, thenHead: C.BlockId, s: Checking): (s': Option<Checking>)
    requires Running(s)
    ensures s'.Some? ==> Running(s'.value)
  {
    if |s.stack| == 0 || entryTail >= |s.blocks| then None
    else
      var s' := MakeBranch(NewBlock(s), entryTail, thenHead, |s.blocks|);
      Some(if |t.children| == 2 then MakeGoto(s', Cur(s), |s.blocks|) else s')
  }

  function IfEnd(thenTail: C.BlockId, s: Checking): (s': Option<Checking>)
    requires Running(s)
    ensures s'.Some? ==> Running(s'.value)
  {
    if thenTail >= |s.blocks| then None
    else Some(MakeGoto(MakeGoto(NewBlock(s), thenTail, |s.blocks|), Cur(s), |s.blocks|))
  }

  function WhileBegin(s: Checking): (s': Checking)
    requires Running(s)
    ensures Running(s')
  {
    MakeGoto(NewBlock(s), Cur(s), |s.blocks|)
  }

  function WhileEnd(entryHead: C.BlockId, entryTail: C.BlockId, bodyHead: C.BlockId,
                    s: Checking): (s': Option<Checking>)
    requires Running(s)
    ensures s'.Some? ==> Running(s'.value)
  {
    if |s.stack| == 0 || entryTail >= |s.blocks| then None
    else Some(MakeGoto(MakeBranch(NewBlock(s), entryTail, bodyHead, |s.blocks|), Cur(s), entryHead))
  }

  // ----- trees -----

  function Check(t: Tree, s: Checking): (r: Option<Checking>)
    requires Running(s)
    ensures r.Some? ==> Running(r.value)
    decreases t
  {
    match t.kind
    case Integer => Some(MakeInst(s, true, C.IntegerConst(Literal(Text(t.token))), 0))
    case Symbol => CheckSymbol(t, s)
    case Local => CheckLocal(t, s)
    case Block =>
      (match CheckAll(t.children, BlockBegin(s))
       case None => None
       case Some(s') => BlockEnd(|s.stack|, s'))
    case Assign =>
      if |t.children| != 2 || t.children[0].kind != Symbol then None
      else
        (match CheckAll(t.children, s)
         case None => None
         case Some(s') => AssignEnd(s'))
    case Return =>
      if |t.children| > 1 then None
      else
        (match CheckAll(t.children, s)
         case None => None
         case Some(s') => ReturnEnd(|t.children|, s'))
    case If => if 2 <= |t.children| <= 3 then CheckIf(t, s) else None
    case While => if |t.children| == 2 then CheckWhile(t, s) else None
    case Identifier => None
    case Typename => None
    case _ =>
      if |t.children| != 2 then None
      else
        (match CheckAll(t.children, s)
         case None => None
         case Some(s') => BinaryEnd(t, s'))
  }

  function CheckAll(ts: seq<Tree>, s: Checking): (r: Option<Checking>)
    requires Running(s)
    ensures r.Some? ==> Running(r.value)
    decreases ts
  {
    if |ts| == 0 then Some(s)
    else
      match Check(ts[0], s)
      case None => None
      case Some(s') => CheckAll(ts[1..], s')
  }

  function CheckIf(t: Tree, s: Checking): (r: Option<Checking>)
    requires Running(s) && t.kind == If && 2 <= |t.children| <= 3
    ensures r.Some? ==> Running(r.value)
    decreases t, 2
  {
    match Check(t.children[0], s)
    case None => None
    case Some(s0) => IfFromThen(t, s0)
  }

  /** Stage 1 of an `if`, to the end. */
  function IfFromThen(t: Tree, s: Checking): (r: Option<Checking>)
    requires Running(s) && t.kind == If && 2 <= |t.children| <= 3
    ensures r.Some? ==> Running(r.value)
    decreases t, 1
  {
    match Check(t.children[1], IfThen(s))
    case None => None
    case Some(s1) => IfFromElse(t, Cur(s), |s.blocks|, s1)
  }

  /** Stage 2 of an `if`, to the end. */
  function IfFromElse(t: Tree, entryTail: C.BlockId, thenHead: C.BlockId, s: Checking): (r: Option<Checking>)
    requires Running(s) && t.kind == If && 2 <= |t.children| <= 3
    ensures r.Some? ==> Running(r.value)
    decreases t, 0
  {
    match IfElse(t, entryTail, thenHead, s)
    case None => None
    case Some(s') =>
      if |t.children| == 2 then Some(s')
      else
        match Check(t.children[2], s')
        case None => None
        case Some(s2) => IfEnd(Cur(s), s2)
  }

  function CheckWhile(t: Tree, s: Checking): (r: Option<Checking>)
    requires Running(s) && t.kind == While && |t.children| == 2
    ensures r.Some? ==> Running(r.value)
    decreases t, 1
  {
    match Check(t.children[0], WhileBegin(s))
    case None => None
    case Some(s0) => WhileFromBody(t, |s.blocks|, s0)
  }

  /** Stage 1 of a `while`, to the end. */
  function WhileFromBody(t: Tree, entryHead: C.BlockId, s: Checking): (r: Option<Checking>)
    requires Running(s) && t.kind == While && |t.children| == 2
    ensures r.Some? ==> Running(r.value)
    decreases t, 0
  {
    match Check(t.children[1], NewBlock(s))
    case None => None
    case Some(s1) => WhileEnd(entryHead, Cur(s), |s.blocks|, s1)
  }

  function Initial(): (s: Checking)
    ensures Running(s)
  {
    Checking([C.Block([], false)], 0, [], NoScope)
  }
}
