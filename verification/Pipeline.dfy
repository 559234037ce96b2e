/** From tokens to the optimized graph. */
module Pipeline {
  import opened Machines
  import opened Options
  import C = Cfgs
  import opened Graphs
  import opened Rewrites
  import opened DeadStores
  import opened Fixpoint
  import opened Funcs
  import opened Core
  import Optimizer
  import opened Roles
  import opened LoweredGraph
  import opened LoweredStrict
  import opened LoweredAnchored
  import opened LoweredMeaning
  import opened LoweredRuns
  import opened LoweredTheorem
  import Lowering
  import Syntax
  import Grammar
  import ParseMachine
  import ParseComplete
  import ParseSound
  import Parser
  import K = CheckSpec
  import T = TreeSemantics
  import CheckCfg
  import CheckRuns
  import Scoping
  import Checker
  import Analysis

  // ----- which programs are compiled -----

  /** No block that is never entered holds code of the program: there are only the jumps of `if` and `while`. */
  ghost predicate NoDeadCode(t: Syntax.Tree) {
    var r := K.Check(t, K.Initial());
    r.Some? &&
    forall b, k ::
      0 <= b < |r.value.blocks| && b !in Analysis.Entered(CheckCfg.CfgOf(r.value)) &&
      0 <= k < |r.value.blocks[b].code| ==>
        r.value.blocks[b].code[k].op.Goto? || r.value.blocks[b].code[k].op.Branch?
  }

  /** The input begins with the text of a program that respects the scopes and has no dead code. */
  ghost predicate Compilable(ts: seq<Syntax.Token>, t: Syntax.Tree) {
    Grammar.IsBlock(t) && ParseComplete.Reads(ts, 0, Grammar.Print(t)) && Scoping.StmtOk(t, {}) && NoDeadCode(t)
  }

  // ----- what the compiled graph means -----

  /** In memory, variables are found at the addresses of their allocas. */
  ghost predicate InMemory(M: Machine, t: Syntax.Tree, num: Numbering, a: T.Store, m: Memory) {
    forall p :: p in T.Decls(t, 0) ==>
      Lookup(M, m, AddrV(Num(num, RAlloca(p)))) == WordV(T.Read(PlaceMachine(M, num), a, p))
  }

  /** What the program shows within `fuel`: the branches it takes... */
  function Branches(M: Machine, t: Syntax.Tree, num: Numbering, fuel: nat): seq<Event> {
    Tooks(M, CheckRuns.TestsOf(PlaceMachine(M, num), t, fuel))
  }

  /** ... and, when it ends, its result and a memory that holds its variables. */
  ghost predicate ShowsEnd(M: Machine, t: Syntax.Tree, num: Numbering, fuel: nat, events: seq<Event>) {
    exists m, result, a ::
      T.EndsWithin(PlaceMachine(M, num), t, fuel, result, a) && InMemory(M, t, num, a, m) &&
      events == Branches(M, t, num, fuel) + [Finished(MemV(m), ResultVal(CheckRuns.AsResult(result)))]
  }

  predicate HasEnded(M: Machine, t: Syntax.Tree, num: Numbering, fuel: nat) {
    !T.Exec(PlaceMachine(M, num), t, map[], 0, map[], fuel).OutOfFuel?
  }

  /** On every machine and for every fuel, the graph takes the branches the program takes; and if the program
      has ended, so does the graph, with the same result and the same variables. */
  ghost predicate Simulates(t: Syntax.Tree, num: Numbering, g: Graph)
    requires Acyclic(g)
  {
    forall M, fuel ::
      Behaves(g, M, Branches(M, t, num, fuel)) &&
      (HasEnded(M, t, num, fuel) ==> exists events :: ShowsEnd(M, t, num, fuel, events) && Behaves(g, M, events))
  }

  /** A run of the graph that takes every branch the way its predicate tells, finished or not, shows only what
      the program shows. */
  ghost predicate SimulatedBy(t: Syntax.Tree, num: Numbering, g: Graph)
    requires Acyclic(g)
  {
    forall M, events :: Behaves(g, M, events) && AllFollow(M, events) ==>
      exists fuel :: events <= Branches(M, t, num, fuel) || ShowsEnd(M, t, num, fuel, events)
  }

  /** On every machine there is at most one way for such a run to end. */
  ghost predicate EndsOneWay(g: Graph)
    requires Acyclic(g)
  {
    forall M, d, e ::
      Behaves(g, M, d) && AllFollow(M, d) && Ended(d) && Behaves(g, M, e) && AllFollow(M, e) && Ended(e) ==> d == e
  }

  // ----- the stages composed -----

  lemma {:induction false} SameTrans(g: Graph, h: Graph, k: Graph)
    requires SameBehaviour(g, h) && SameBehaviour(h, k)
    ensures SameBehaviour(g, k)
  {}

  /** A program, its blocks that are reached, and the graph they are lowered to. */
  ghost predicate Chain(t: Syntax.Tree, s: K.Checking, c: C.Cfg, num: Numbering, whole: Graph) {
    Grammar.IsBlock(t) && K.Check(t, K.Initial()) == Some(s) && c.blocks == s.blocks && c.places == s.places &&
    C.GoodCfg(c) && c.order[0] == 0 && IsLowering(c, num, whole)
  }

  lemma {:induction false} ChainSetting(t: Syntax.Tree, s: K.Checking, c: C.Cfg, num: Numbering, whole: Graph)
    requires Chain(t, s, c, num, whole)
    ensures FullSetting(c, num, whole)
    ensures WellFormed(whole, MemIds(c, num))
    ensures Anchored(whole, MemIds(c, num)) && Initially(c).block == 0
  {
    hide C.GoodCfg, IsLowering, K.Check, Anchored;
    LoweredWellFormed(c, num, whole);
    LoweredIsAnchored(c, num, whole);
    assert |c.order| > 0 by {
      Lists(c, num, whole);
    }
  }

  lemma {:induction false} VariablesInMemory(M: Machine, t: Syntax.Tree, s: K.Checking, c: C.Cfg, num: Numbering,
                                             whole: Graph, a: T.Store, r: C.Store, m: Memory)
    requires Chain(t, s, c, num, whole) && CheckRuns.SameVariables(PlaceMachine(M, num), t, a, r)
    requires Agrees(M, c, num, m, r)
    ensures InMemory(M, t, num, a, m)
  {
    CheckCfg.ProgramChecked(t, s);
    T.SlotsWithin(t, 0);
  }

  lemma {:induction false} ChainParts(t: Syntax.Tree, s: K.Checking, c: C.Cfg, num: Numbering, whole: Graph)
    requires Chain(t, s, c, num, whole)
    ensures Grammar.IsBlock(t) && K.Check(t, K.Initial()) == Some(s) && c.blocks == s.blocks
  {}

  /** The blocks kept run as the blocks made by the checker. */
  lemma {:induction false} SameRuns(t: Syntax.Tree, s: K.Checking, c: C.Cfg, num: Numbering, whole: Graph, M: Machine,
                                    n: nat)
    requires Chain(t, s, c, num, whole)
    ensures ReachedConfig(c, M, num, n) == CheckRuns.RunOf(PlaceMachine(M, num), s, n)
    ensures ReachedTrace(c, M, num, n) == CheckRuns.TraceOf(PlaceMachine(M, num), s, n)
  {
    hide C.GoodCfg, IsLowering, K.Check, C.Run, C.Trace;
    ChainSetting(t, s, c, num, whole);
  }

  /** What the block graph shows, the optimized graph shows, and nothing else. */
  lemma {:induction false} SameShown(c: C.Cfg, num: Numbering, whole: Graph, g: Graph, M: Machine, events: seq<Event>)
    requires FullSetting(c, num, whole) && SameBehaviour(whole, g) && Acyclic(g)
    ensures Behaves(g, M, events) && AllFollow(M, events) <==> Shows(c, M, num, events)
  {
    hide FullSetting, Behaves, AllFollow, Shows;
    LoweredMeans(c, num, whole, M, events);
  }

  lemma {:induction false} BranchesShown(t: Syntax.Tree, s: K.Checking, c: C.Cfg, num: Numbering, whole: Graph,
                                         g: Graph, M: Machine, fuel: nat)
    requires Chain(t, s, c, num, whole) && SameBehaviour(whole, g) && Acyclic(g)
    ensures Behaves(g, M, Branches(M, t, num, fuel))
  {
    hide Chain, SameBehaviour, FullSetting, Behaves, WellFormed, Anchored, T.Exec, CheckRuns.TestsOf, ReachedTrace;
    ChainSetting(t, s, c, num, whole);
    ChainParts(t, s, c, num, whole);
    var n, r := CheckRuns.ProgramRuns(PlaceMachine(M, num), t, s, fuel);
    SameRuns(t, s, c, num, whole, M, n);
    assert ShowsAfter(c, M, num, Branches(M, t, num, fuel), n);
    SameShown(c, num, whole, g, M, Branches(M, t, num, fuel));
  }

  lemma {:induction false} EndShown(t: Syntax.Tree, s: K.Checking, c: C.Cfg, num: Numbering, whole: Graph, g: Graph,
                                    M: Machine, fuel: nat)
    returns (events: seq<Event>)
    requires Chain(t, s, c, num, whole) && SameBehaviour(whole, g) && Acyclic(g) && HasEnded(M, t, num, fuel)
    ensures ShowsEnd(M, t, num, fuel, events) && Behaves(g, M, events)
  {
    hide Chain, SameBehaviour, FullSetting, Behaves, WellFormed, Anchored, T.Exec, CheckRuns.TestsOf,
         ReachedTrace, ReachedConfig, InMemory;
    ChainSetting(t, s, c, num, whole);
    ChainParts(t, s, c, num, whole);
    var M', o := PlaceMachine(M, num), T.Exec(PlaceMachine(M, num), t, map[], 0, map[], fuel);
    var result := if o.Normal? then T.Nothing else o.result;
    var n, r := CheckRuns.EndsHalts(M', t, s, fuel, result, o.store);
    SameRuns(t, s, c, num, whole, M, n);
    var m := ReachedMemory(c, M, num, n);
    EndAgrees(c, num, whole, M, n);
    VariablesInMemory(M, t, s, c, num, whole, o.store, r, m);
    events := Branches(M, t, num, fuel) + [Finished(MemV(m), ResultVal(CheckRuns.AsResult(result)))];
    assert ShowsAfter(c, M, num, events, n);
    SameShown(c, num, whole, g, M, events);
  }

  lemma {:induction false} ChainSimulates(t: Syntax.Tree, s: K.Checking, c: C.Cfg, num: Numbering, whole: Graph,
                                          g: Graph)
    requires Chain(t, s, c, num, whole) && SameBehaviour(whole, g) && Acyclic(g)
    ensures Simulates(t, num, g)
  {
    hide Chain, SameBehaviour, ShowsEnd, Branches, Behaves, HasEnded;
    forall M, fuel
      ensures Behaves(g, M, Branches(M, t, num, fuel))
      ensures HasEnded(M, t, num, fuel) ==> exists events :: ShowsEnd(M, t, num, fuel, events) && Behaves(g, M, events)
    {
      BranchesShown(t, s, c, num, whole, g, M, fuel);
      if HasEnded(M, t, num, fuel) {
        var events := EndShown(t, s, c, num, whole, g, M, fuel);
      }
    }
  }

  /** What the block graph shows, the program shows. */
  lemma {:induction false} ProgramShows(t: Syntax.Tree, s: K.Checking, c: C.Cfg, num: Numbering, whole: Graph,
                                        M: Machine, events: seq<Event>, n: nat)
    requires Chain(t, s, c, num, whole) && ShowsAfter(c, M, num, events, n)
    ensures events <= Branches(M, t, num, n) || ShowsEnd(M, t, num, n, events)
  {
    hide Chain, FullSetting, WellFormed, Anchored, T.Exec, CheckRuns.TestsOf, ReachedTrace, ReachedConfig,
         InMemory, CheckRuns.RunOf, CheckRuns.TraceOf;
    ChainSetting(t, s, c, num, whole);
    ChainParts(t, s, c, num, whole);
    SameRuns(t, s, c, num, whole, M, n);
    var w := Tooks(M, ReachedTrace(c, M, num, n));
    if events == w || !ReachedConfig(c, M, num, n).Done? {
      CheckRuns.TraceTests(PlaceMachine(M, num), t, s, n);
      assert w + [] == w;
    } else {
      var result, a := CheckRuns.HaltsEnds(PlaceMachine(M, num), t, s, n);
      EndAgrees(c, num, whole, M, n);
      VariablesInMemory(M, t, s, c, num, whole, a, ReachedConfig(c, M, num, n).store, ReachedMemory(c, M, num, n));
    }
  }

  lemma {:induction false} ChainSimulatedBy(t: Syntax.Tree, s: K.Checking, c: C.Cfg, num: Numbering, whole: Graph,
                                            g: Graph)
    requires Chain(t, s, c, num, whole) && SameBehaviour(whole, g) && Acyclic(g)
    ensures SimulatedBy(t, num, g)
  {
    hide Chain, SameBehaviour, FullSetting, ShowsEnd, Branches, Behaves, AllFollow, ShowsAfter, WellFormed, Anchored;
    ChainSetting(t, s, c, num, whole);
    forall M, events | Behaves(g, M, events) && AllFollow(M, events)
      ensures exists fuel :: events <= Branches(M, t, num, fuel) || ShowsEnd(M, t, num, fuel, events)
    {
      SameShown(c, num, whole, g, M, events);
      var n: nat :| ShowsAfter(c, M, num, events, n);
      ProgramShows(t, s, c, num, whole, M, events, n);
    }
  }

  lemma {:induction false} ChainEnds(t: Syntax.Tree, s: K.Checking, c: C.Cfg, num: Numbering, whole: Graph, g: Graph)
    requires Chain(t, s, c, num, whole) && SameBehaviour(whole, g) && Acyclic(g)
    ensures EndsOneWay(g)
  {
    hide Chain, SameBehaviour, FullSetting, Behaves, AllFollow, Shows, WellFormed, Anchored, Ended;
    ChainSetting(t, s, c, num, whole);
    forall M, d, e | Behaves(g, M, d) && AllFollow(M, d) && Ended(d) && Behaves(g, M, e) && AllFollow(M, e) && Ended(e)
      ensures d == e
    {
      SameShown(c, num, whole, g, M, d);
      SameShown(c, num, whole, g, M, e);
      OneEnd(c, M, num, d, e);
    }
  }

  lemma {:induction false} CutDown(c: C.Cfg, num: Numbering, whole: Graph, kept: set<Id>)
    requires FullSetting(c, num, whole) && WellFormed(whole, MemIds(c, num))
    requires Anchored(whole, MemIds(c, num)) && InputClosed(whole, kept)
    ensures WellFormed(Keep(whole, kept), MemIds(c, num))
    ensures Anchored(Keep(whole, kept), MemIds(c, num))
    ensures SameBehaviour(whole, Keep(whole, kept))
  {
    hide Anchored;
    KeepSound(whole, MemIds(c, num), kept);
    AnchoredKeep(whole, MemIds(c, num), kept);
  }

  /** The tree the parser found is a program. */
  lemma {:induction false} Parsed(ts: seq<Syntax.Token>) returns (t: Syntax.Tree)
    requires ParseMachine.GoodTokens(ts) && ParseSound.Parse(ts).Some?
    ensures ParseSound.Parse(ts).value.forest == [t] && Syntax.PostAll([t]) == Syntax.Post(t)
    ensures Grammar.IsBlock(t) && ParseComplete.Reads(ts, 0, Grammar.Print(t))
  {
    var p := ParseMachine.Parsing([ParseMachine.BlockHead], [], 0);
    assert [] + [ParseMachine.BlockHead] == [ParseMachine.BlockHead];
    ParseMachine.FitsPush([], ParseMachine.BlockHead, 0);
    ParseMachine.RunFits(ts, p);
    var q := ParseSound.Parse(ts).value;
    t := q.forest[0];
    assert q.forest == [t];
    Syntax.PostOne(t);
    ParseSound.ParseIff(ts, t, q.pos);
  }

  lemma {:induction false} NotParsed(ts: seq<Syntax.Token>)
    requires ParseMachine.GoodTokens(ts) && ParseSound.Parse(ts) == None
    ensures forall t :: !Compilable(ts, t)
  {
    ParseSound.ParseFailsIff(ts);
    forall t | Compilable(ts, t)
      ensures false
    {
      assert Grammar.IsBlock(t);
    }
  }

  /** If the program found cannot be compiled, no program whose text begins the input can. */
  lemma {:induction false} NoOther(ts: seq<Syntax.Token>, t: Syntax.Tree)
    requires ParseMachine.GoodTokens(ts) && Grammar.IsBlock(t)
    requires ParseComplete.Reads(ts, 0, Grammar.Print(t)) && !Compilable(ts, t)
    ensures forall u :: !Compilable(ts, u)
  {
    forall u | Compilable(ts, u)
      ensures false
    {
      ParseSound.ProgramUnique(ts, t, u);
    }
  }

  /** The analysis of an accepted program goes by the flags, and they tell whether there is dead code. */
  lemma {:induction false} DeadCode(t: Syntax.Tree, s: K.Checking)
    requires Grammar.IsBlock(t) && K.Check(t, K.Initial()) == Some(s)
    ensures forall b :: b in CheckCfg.CfgOf(s).order ==> b < |s.blocks| && C.Flagged(s.blocks[b])
    ensures Analysis.OnlyJumpsLeft(CheckCfg.CfgOf(s)) <==> NoDeadCode(t)
  {
    hide Analysis.Entered, K.Check, Grammar.IsBlock;
    CheckCfg.OrderHas(s);
    CheckCfg.ProgramChecked(t, s);
  }

  lemma {:induction false} PrunedChain(t: Syntax.Tree, s: K.Checking, found: set<C.BlockId>)
    requires Grammar.IsBlock(t) && K.Check(t, K.Initial()) == Some(s) && Analysis.Reachable(CheckCfg.CfgOf(s), found)
    ensures C.Listed(CheckCfg.CfgOf(s))
    ensures var c := CheckCfg.CfgOf(s).(order := Analysis.Kept(CheckCfg.CfgOf(s).order, found));
      C.GoodCfg(c) && c.order[0] == 0
  {
    CheckCfg.ProgramChecked(t, s);
    Analysis.PrunedGood(CheckCfg.CfgOf(s), found);
  }

  /** Compiles the program the input begins with. There is no result exactly if no program that can be
      compiled begins the input; otherwise the optimized graph branches as the program does and ends exactly when
      the program does, with the same result and the same variables, and nothing is left to simplify at any of its
      nodes. */
  method Compile(tokens: seq<Syntax.Token>) returns (f: Func?, ghost t: Syntax.Tree, ghost num: Numbering)
    requires ParseMachine.GoodTokens(tokens)
    ensures f == null ==> forall u :: !Compilable(tokens, u)
    ensures f != null ==> f.Valid() && Compilable(tokens, t) && Acyclic(f.Graph())
    ensures f != null ==> Simulates(t, num, f.Graph()) && SimulatedBy(t, num, f.Graph()) && EndsOneWay(f.Graph())
    ensures f != null ==> forall n :: n in f.Graph().nodes ==> Settled(f.Graph(), n)
    ensures f != null ==> OnlyRead(f.Graph(), f.Graph())
  {
    hide OnlyRead, Compilable, Simulates, SimulatedBy, EndsOneWay, Func.Valid, Func.Graph, WellFormed, Anchored,
         NoDeadCode, Analysis.OnlyJumpsLeft, Analysis.Entered, C.Flagged, Analysis.Reachable, C.GoodCfg, C.Listed,
         Grammar.IsBlock, K.Check;
    t, num := Syntax.Tree(Syntax.Block, Syntax.Eof, []), map[];
    var nodes := Parser.ParseTokens(tokens);
    if nodes.None? {
      NotParsed(tokens);
      return null, t, num;
    }
    t := Parsed(tokens);
    var cfg := Checker.CheckTree(nodes.value, t);
    Scoping.AcceptedIff(t);
    if cfg.None? {
      NotAccepted(tokens, t);
      return null, t, num;
    }
    ghost var s := K.Check(t, K.Initial()).value;
    BlocksListed(t, s);
    var success, pruned := Analysis.AnalyzeFunc(cfg.value);
    ghost var found := Analysis.Entered(cfg.value);
    DeadCode(t, s);
    if !success {
      HasDeadCode(tokens, t);
      return null, t, num;
    }
    PrunedChain(t, s, found);
    ghost var whole, kept;
    f, num, whole, kept := Lowering.LowerFunc(pruned);
    ghost var mem := LoweredFacts(t, s, pruned, num, whole, kept);
    ghost var g := f.Graph();
    Optimizer.Opt(f, mem);
    Composed(tokens, t, s, pruned, num, whole, kept, mem, g, f.Graph());
  }

  lemma {:induction false} NotAccepted(ts: seq<Syntax.Token>, t: Syntax.Tree)
    requires ParseMachine.GoodTokens(ts) && Grammar.IsBlock(t)
    requires ParseComplete.Reads(ts, 0, Grammar.Print(t)) && !Scoping.StmtOk(t, {})
    ensures forall u :: !Compilable(ts, u)
  {
    NoOther(ts, t);
  }

  lemma {:induction false} HasDeadCode(ts: seq<Syntax.Token>, t: Syntax.Tree)
    requires ParseMachine.GoodTokens(ts) && Grammar.IsBlock(t)
    requires ParseComplete.Reads(ts, 0, Grammar.Print(t)) && !NoDeadCode(t)
    ensures forall u :: !Compilable(ts, u)
  {
    NoOther(ts, t);
  }

  lemma {:induction false} BlocksListed(t: Syntax.Tree, s: K.Checking)
    requires Grammar.IsBlock(t) && K.Check(t, K.Initial()) == Some(s)
    ensures C.Listed(CheckCfg.CfgOf(s)) && CheckCfg.CfgOf(s).blocks == s.blocks
  {
    CheckCfg.ProgramChecked(t, s);
  }

  lemma {:induction false} LoweredFacts(t: Syntax.Tree, s: K.Checking, c: C.Cfg, num: Numbering, whole: Graph,
                                        kept: set<Id>) returns (mem: set<Id>)
    requires Chain(t, s, c, num, whole) && InputClosed(whole, kept)
    ensures mem == MemIds(c, num)
    ensures WellFormed(Keep(whole, kept), mem)
    ensures Anchored(Keep(whole, kept), mem)
    ensures SameBehaviour(whole, Keep(whole, kept))
  {
    hide Chain, WellFormed, Anchored, SameBehaviour, FullSetting;
    mem := MemIds(c, num);
    ChainSetting(t, s, c, num, whole);
    CutDown(c, num, whole, kept);
  }

  lemma {:induction false} Composed(ts: seq<Syntax.Token>, t: Syntax.Tree, s: K.Checking, c: C.Cfg, num: Numbering,
                                    whole: Graph, kept: set<Id>, mem: set<Id>, g: Graph, h: Graph)
    requires Chain(t, s, c, num, whole) && g == Keep(whole, kept) && SameBehaviour(whole, g)
    requires Anchored(g, mem) && AllUsed(g)
    requires Optimizer.Optimized(g, h, mem)
    requires ParseComplete.Reads(ts, 0, Grammar.Print(t)) && NoDeadCode(t) && Scoping.StmtOk(t, {})
    ensures Compilable(ts, t) && Acyclic(h) && Simulates(t, num, h) && SimulatedBy(t, num, h) && EndsOneWay(h)
    ensures forall n :: n in h.nodes ==> Settled(h, n)
  {
    hide WellFormed, Anchored, NoDeadCode, Simulates, SimulatedBy, EndsOneWay, Settled, C.GoodCfg, IsLowering, K.Check;
    SameTrans(whole, g, h);
    ChainSimulates(t, s, c, num, whole, h);
    ChainSimulatedBy(t, s, c, num, whole, h);
    ChainEnds(t, s, c, num, whole, h);
  }
}
