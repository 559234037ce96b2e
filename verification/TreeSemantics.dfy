/** What a program means, read off its tree. */
module TreeSemantics {
  import M = Machines
  import opened Syntax
  import opened Grammar

  /** Constants, operations and declarations are numbered in source order; a variable is known by the
      number of its declaration. Two declarations of a name are two variables. */
  function Slots(t: Tree): nat {
    SlotsAll(t.children) + if Numbered(t.kind) then 1 else 0
  }

  function SlotsAll(ts: seq<Tree>): nat {
    if |ts| == 0 then 0 else Slots(ts[0]) + SlotsAll(ts[1..])
  }

  predicate Numbered(k: Kind) {
    k == Integer || k == Local || Arithmetic(k)
  }

  type Store = map<nat, int>

  type Env = map<string, nat>

  function Read(m: M.Machine, s: Store, x: nat): int {
    if x in s then s[x] else m.init(x)
  }

  function Variable(env: Env, name: string): nat {
    if name in env then env[name] else 0
  }

  // ----- expressions -----

  function Power(n: nat): nat {
    if n == 0 then 1 else 10 * Power(n - 1)
  }

  /** The number a string of decimal digits is written for. */
  function Decimal(digits: string): int {
    if |digits| == 0 then 0 else (digits[0] as int - '0' as int) * Power(|digits| - 1) + Decimal(digits[1..])
  }

  /** What an operator makes of two words. */
  function Applied(m: M.Machine, k: Kind, l: int, r: int): int {
    if k == Add then m.apply(M.Add, l, r)
    else if k == Sub then m.apply(M.Sub, l, r)
    else if k == Mul then m.apply(M.Mul, l, r)
    else m.apply(M.Div, l, r)
  }

  datatype Valued = Valued(value: int, store: Store)

  /** Numbers are taken to 64 bits. Operands are evaluated left to right, and a variable is read when it is reached. */
  function Eval(m: M.Machine, t: Tree, env: Env, s: Store): Valued {
    if t.kind == Integer && t.token.IntegerLit? then Valued(Decimal(t.token.text) % 0x1_0000_0000_0000_0000, s)
    else if t.kind == Symbol && t.token.Name? then Valued(Read(m, s, Variable(env, t.token.text)), s)
    else if t.kind == Assign && |t.children| == 2 && t.children[0].token.Name? then
      var r := Eval(m, t.children[1], env, s);
      Valued(r.value, r.store[Variable(env, t.children[0].token.text) := r.value])
    else if Arithmetic(t.kind) && |t.children| == 2 then
      var l := Eval(m, t.children[0], env, s);
      var r := Eval(m, t.children[1], env, l.store);
      Valued(Applied(m, t.kind, l.value, r.value), r.store)
    else Valued(0, s)
  }

  // ----- statements -----

  datatype Result = Nothing | Just(value: int)

  datatype Outcome = Normal(store: Store) | Returned(result: Result, store: Store) | OutOfFuel

  /** The names visible after a statement: a declaration adds its own. */
  function EnvAfter(t: Tree, env: Env, n: nat): Env {
    if t.kind == Local && |t.children| >= 1 && t.children[0].token.Name? then env[t.children[0].token.text := n]
    else env
  }

  /** Executes a statement whose first slot is number `n`. A declaration does nothing: a variable
      declared in a loop keeps its value from one iteration to the next. Fuel bounds the iterations
      of each loop. */
  function Exec(m: M.Machine, t: Tree, env: Env, n: nat, s: Store, fuel: nat): Outcome
    decreases fuel, t
  {
    match t.kind
    case Block => ExecAll(m, t.children, env, n, s, fuel)
    case Local => Normal(s)
    case Return =>
      if |t.children| == 0 then Returned(Nothing, s)
      else
        var v := Eval(m, t.children[0], env, s);
        Returned(Just(v.value), v.store)
    case If =>
      if |t.children| < 2 then Normal(s)
      else
        var v := Eval(m, t.children[0], env, s);
        var n1 := n + Slots(t.children[0]);
        if m.truthy(v.value) then Exec(m, t.children[1], env, n1, v.store, fuel)
        else if |t.children| > 2 then Exec(m, t.children[2], env, n1 + Slots(t.children[1]), v.store, fuel)
        else Normal(v.store)
    case While =>
      if |t.children| < 2 then Normal(s)
      else
        var v := Eval(m, t.children[0], env, s);
        if !m.truthy(v.value) then Normal(v.store)
        else
          (match Exec(m, t.children[1], env, n + Slots(t.children[0]), v.store, fuel)
           case Normal(s') => if fuel == 0 then OutOfFuel else Exec(m, t, env, n, s', fuel - 1)
           case other => other)
    case _ => Normal(Eval(m, t, env, s).store)
  }

  function ExecAll(m: M.Machine, ts: seq<Tree>, env: Env, n: nat, s: Store, fuel: nat): Outcome
    decreases fuel, ts
  {
    if |ts| == 0 then Normal(s)
    else
      match Exec(m, ts[0], env, n, s, fuel)
      case Normal(s') => ExecAll(m, ts[1..], EnvAfter(ts[0], env, n), n + Slots(ts[0]), s', fuel)
      case other => other
  }

  /** The values of the conditions tested on the way, in order. */
  function Tests(m: M.Machine, t: Tree, env: Env, n: nat, s: Store, fuel: nat): seq<int>
    decreases fuel, t
  {
    match t.kind
    case Block => TestsAll(m, t.children, env, n, s, fuel)
    case If =>
      if |t.children| < 2 then []
      else
        var v := Eval(m, t.children[0], env, s);
        var n1 := n + Slots(t.children[0]);
        [v.value] +
        if m.truthy(v.value) then Tests(m, t.children[1], env, n1, v.store, fuel)
        else if |t.children| > 2 then Tests(m, t.children[2], env, n1 + Slots(t.children[1]), v.store, fuel)
        else []
    case While =>
      if |t.children| < 2 then []
      else
        var v := Eval(m, t.children[0], env, s);
        if !m.truthy(v.value) then [v.value]
        else
          var n1 := n + Slots(t.children[0]);
          var o := Exec(m, t.children[1], env, n1, v.store, fuel);
          [v.value] + Tests(m, t.children[1], env, n1, v.store, fuel) +
          if o.Normal? && fuel > 0 then Tests(m, t, env, n, o.store, fuel - 1) else []
    case _ => []
  }

  function TestsAll(m: M.Machine, ts: seq<Tree>, env: Env, n: nat, s: Store, fuel: nat): seq<int>
    decreases fuel, ts
  {
    if |ts| == 0 then []
    else
      var o := Exec(m, ts[0], env, n, s, fuel);
      Tests(m, ts[0], env, n, s, fuel) +
      if o.Normal? then TestsAll(m, ts[1..], EnvAfter(ts[0], env, n), n + Slots(ts[0]), o.store, fuel) else []
  }

  /** A program that is still running has tested more and more. */
  lemma {:induction false} RunningTests(m: M.Machine, t: Tree, env: Env, n: nat, s: Store, fuel: nat)
    requires Exec(m, t, env, n, s, fuel) == OutOfFuel
    ensures |Tests(m, t, env, n, s, fuel)| > fuel
    decreases fuel, t
  {
    if t.kind == Block {
      RunningTestsAll(m, t.children, env, n, s, fuel);
    } else {
      var v, n1 := Eval(m, t.children[0], env, s), n + Slots(t.children[0]);
      if t.kind == If {
        if m.truthy(v.value) {
          RunningTests(m, t.children[1], env, n1, v.store, fuel);
        } else {
          RunningTests(m, t.children[2], env, n1 + Slots(t.children[1]), v.store, fuel);
        }
      } else {
        var o := Exec(m, t.children[1], env, n1, v.store, fuel);
        if o.OutOfFuel? {
          RunningTests(m, t.children[1], env, n1, v.store, fuel);
        } else if fuel > 0 {
          RunningTests(m, t, env, n, o.store, fuel - 1);
        }
      }
    }
  }

  lemma {:induction false} RunningTestsAll(m: M.Machine, ts: seq<Tree>, env: Env, n: nat, s: Store, fuel: nat)
    requires ExecAll(m, ts, env, n, s, fuel) == OutOfFuel
    ensures |TestsAll(m, ts, env, n, s, fuel)| > fuel
    decreases fuel, ts
  {
    var o := Exec(m, ts[0], env, n, s, fuel);
    if o.Normal? {
      RunningTestsAll(m, ts[1..], EnvAfter(ts[0], env, n), n + Slots(ts[0]), o.store, fuel);
    } else {
      RunningTests(m, ts[0], env, n, s, fuel);
    }
  }

  /** Within this much fuel the program comes to an end, with `result` and the variables as in `store`. */
  predicate EndsWithin(m: M.Machine, t: Tree, fuel: nat, result: Result, store: Store) {
    var o := Exec(m, t, map[], 0, map[], fuel);
    o == Returned(result, store) || (o == Normal(store) && result == Nothing)
  }

  // ----- slots -----

  /** The numbers of the variables declared in a tree whose first slot is `n`. */
  function Decls(t: Tree, n: nat): set<nat> {
    DeclsAll(t.children, n) + if t.kind == Local then {n + SlotsAll(t.children)} else {}
  }

  function DeclsAll(ts: seq<Tree>, n: nat): set<nat> {
    if |ts| == 0 then {} else Decls(ts[0], n) + DeclsAll(ts[1..], n + Slots(ts[0]))
  }

  /** The numbers of its constants and operations. */
  function Temps(t: Tree, n: nat): set<nat> {
    TempsAll(t.children, n) + if Numbered(t.kind) && t.kind != Local then {n + SlotsAll(t.children)} else {}
  }

  function TempsAll(ts: seq<Tree>, n: nat): set<nat> {
    if |ts| == 0 then {} else Temps(ts[0], n) + TempsAll(ts[1..], n + Slots(ts[0]))
  }

  lemma {:induction false} SlotsWithin(t: Tree, n: nat)
    ensures forall x :: x in Decls(t, n) || x in Temps(t, n) ==> n <= x < n + Slots(t)
    ensures Decls(t, n) !! Temps(t, n)
    decreases t
  {
    SlotsWithinAll(t.children, n);
  }

  lemma {:induction false} SlotsWithinAll(ts: seq<Tree>, n: nat)
    ensures forall x :: x in DeclsAll(ts, n) || x in TempsAll(ts, n) ==> n <= x < n + SlotsAll(ts)
    ensures DeclsAll(ts, n) !! TempsAll(ts, n)
    decreases ts
  {
    if |ts| > 0 {
      SlotsWithin(ts[0], n);
      SlotsWithinAll(ts[1..], n + Slots(ts[0]));
    }
  }
}
