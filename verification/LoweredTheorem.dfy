/** Lowering preserves meaning: the runs of the graph that take every branch the way its predicate tells show
    exactly what the block graph tests, and at the end the memory it wrote and its result. */
module LoweredTheorem {
  import opened Machines
  import C = Cfgs
  import opened Graphs
  import opened Roles
  import opened LoweredShape
  import opened LoweredGraph
  import opened LoweredStrict
  import opened LoweredMeaning
  import opened LoweredRuns

  // ----- the block graph after `n` steps -----

  function ReachedConfig(c: C.Cfg, M: Machine, num: Numbering, n: nat): C.Config {
    C.Run(PlaceMachine(M, num), c.blocks, Initially(c), n)
  }

  function ReachedMemory(c: C.Cfg, M: Machine, num: Numbering, n: nat): Memory {
    Recorded(M, num, c.blocks, Initially(c), Initial, n)
  }

  function ReachedTrace(c: C.Cfg, M: Machine, num: Numbering, n: nat): seq<int> {
    C.Trace(PlaceMachine(M, num), c.blocks, Initially(c), n)
  }

  /** What is shown of its end, if it has ended. */
  function EndShows(c: C.Cfg, M: Machine, num: Numbering, n: nat): seq<Event> {
    var cf := ReachedConfig(c, M, num, n);
    if cf.Done? then [Finished(MemV(ReachedMemory(c, M, num, n)), ResultVal(cf.result))] else []
  }

  /** A whole block of steps. */
  lemma Onwards(c: C.Cfg, M: Machine, num: Numbering, n: nat, b: C.BlockId, s: C.Store)
    requires C.GoodCfg(c) && b in c.order && ReachedConfig(c, M, num, n) == C.At(b, 0, s)
    ensures var M', n' := PlaceMachine(M, num), n + Plain(Code(c, b)) + 1;
      ReachedConfig(c, M, num, n') == Next(c, M', b, s) &&
      ReachedMemory(c, M, num, n') == After(c, num, M, b, s, ReachedMemory(c, M, num, n)) &&
      ReachedTrace(c, M, num, n') == ReachedTrace(c, M, num, n) + Asked(c, M', b, s)
  {
    hide C.GoodCfg;
    var k := Plain(Code(c, b)) + 1;
    Leave(c, num, M, b, s, ReachedMemory(c, M, num, n));
    C.RunAdd(PlaceMachine(M, num), c.blocks, Initially(c), n, k);
    C.TraceAdd(PlaceMachine(M, num), c.blocks, Initially(c), n, k);
    RecordedAdd(M, num, c.blocks, Initially(c), Initial, n, k);
  }

  /** Inside a block nothing is tested. */
  lemma StillInside(c: C.Cfg, M: Machine, num: Numbering, n: nat, b: C.BlockId, s: C.Store, k: nat)
    requires C.GoodCfg(c) && b in c.order && ReachedConfig(c, M, num, n) == C.At(b, 0, s) && k <= Plain(Code(c, b))
    ensures ReachedConfig(c, M, num, n + k).At? && ReachedTrace(c, M, num, n + k) == ReachedTrace(c, M, num, n)
  {
    hide C.GoodCfg;
    ToJump(c, num, M, b, s, Initial, k);
    C.RunAdd(PlaceMachine(M, num), c.blocks, Initially(c), n, k);
    C.TraceAdd(PlaceMachine(M, num), c.blocks, Initially(c), n, k);
  }

  /** After the end nothing changes. */
  lemma StillDone(c: C.Cfg, M: Machine, num: Numbering, n: nat, k: nat)
    requires ReachedConfig(c, M, num, n).Done?
    ensures ReachedConfig(c, M, num, n + k) == ReachedConfig(c, M, num, n)
    ensures ReachedMemory(c, M, num, n + k) == ReachedMemory(c, M, num, n)
    ensures ReachedTrace(c, M, num, n + k) == ReachedTrace(c, M, num, n)
  {
    var M', cf := PlaceMachine(M, num), ReachedConfig(c, M, num, n);
    C.RunAdd(M', c.blocks, Initially(c), n, k);
    C.TraceAdd(M', c.blocks, Initially(c), n, k);
    RecordedAdd(M, num, c.blocks, Initially(c), Initial, n, k);
    C.RunDone(M', c.blocks, cf, k);
    C.TraceDone(M', c.blocks, cf, k);
    RecordedDone(M, num, c.blocks, cf, ReachedMemory(c, M, num, n), k);
  }

  // ----- the nodes and the block graph, step by step -----

  /** What a run of the nodes that has come to role `r` adds to what the block graph tested. */
  function Adds(c: C.Cfg, M: Machine, num: Numbering, r: Role, n: nat): seq<Event> {
    match r
    case RTrue(b) => [Took(WordV(Predicate(PlaceMachine(M, num), c, b, ReachedConfig(c, M, num, n).store)), true)]
    case RFalse(b) => [Took(WordV(Predicate(PlaceMachine(M, num), c, b, ReachedConfig(c, M, num, n).store)), false)]
    case REnd => EndShows(c, M, num, n)
    case _ => []
  }

  /** The run `p` of the nodes is at role `r`, and the block graph has come as far in `n` steps. */
  ghost predicate Tracks(c: C.Cfg, num: Numbering, g: Graph, M: Machine, p: Path, r: Role, n: nat)
    requires Acyclic(g)
  {
    Walk(g, p) && At(g, p) == Num(num, r) && (r == RStart || r == RStartCtrl ==> n == 0) &&
    Matches(c, num, M, EnvAt(g, M, p), r, ReachedConfig(c, M, num, n), ReachedMemory(c, M, num, n)) &&
    Events(g, M, p) == Tooks(M, ReachedTrace(c, M, num, n)) + Adds(c, M, num, r, n)
  }

  /** How many steps of the block graph go with a step of the nodes from role `q` to role `r`. */
  function Ticks(c: C.Cfg, q: Role, r: Role): nat {
    if !r.RRegion? && !r.REndRegion? then 0
    else
      match q
      case RRegion(b) => Plain(Code(c, b)) + 1
      case RTrue(b) => Plain(Code(c, b)) + 1
      case RFalse(b) => Plain(Code(c, b)) + 1
      case _ => 0
  }

  lemma NothingShown(c: C.Cfg, num: Numbering, g: Graph, M: Machine, env: Env, r: Role)
    requires FullSetting(c, num, g) && ValidRole(c, r) && !r.RTrue? && !r.RFalse? && !r.REnd?
    ensures Shown(g, M, env, Num(num, r)) == []
  {
    hide Setting, IsLowering, GoodNumbering, C.GoodCfg, Shape;
    Node(c, num, g, r);
  }

  /** The branch a run took is the one the block graph takes at the end of the block. */
  lemma BranchTested(c: C.Cfg, num: Numbering, M: Machine, env: Env, b: C.BlockId, t: C.BlockId, way: Role, n: nat,
                     m: Memory)
    requires C.GoodCfg(c) && b in c.order && Matches(c, num, M, env, way, ReachedConfig(c, M, num, n), m)
    requires FromBlock(c, b, t, Entry(way, LastMem(c, b)))
    ensures Tooks(M, ReachedTrace(c, M, num, n + Plain(Code(c, b)) + 1)) ==
      Tooks(M, ReachedTrace(c, M, num, n)) + Adds(c, M, num, way, n)
  {
    hide C.GoodCfg, Entered, Predicate, C.Trace, C.Run;
    var cf, w := ReachedConfig(c, M, num, n), ReachedTrace(c, M, num, n);
    assert Inside(c, num, M, env, b, cf, m);
    Onwards(c, M, num, n, b, cf.store);
    assert w + [] == w;
  }

  lemma ToRegion(c: C.Cfg, num: Numbering, g: Graph, M: Machine, p: Path, t: C.BlockId, j: nat, n: nat)
    requires FullSetting(c, num, g) && t in c.order && j < |Entries(c, t)| && Walk(g, Go(p, Num(num, RRegion(t)), j))
    requires Tracks(c, num, g, M, p, Entries(c, t)[j].ctrl, n)
    ensures Tracks(c, num, g, M, Go(p, Num(num, RRegion(t)), j), RRegion(t),
      n + Ticks(c, Entries(c, t)[j].ctrl, RRegion(t)))
  {
    hide *;
    var b := EntryCases(c, t, j);
    if FromStart(c, t, Entries(c, t)[j]) {
      RegionFromStart(c, num, g, M, p, t, j, n);
    } else {
      RegionFromBlock(c, num, g, M, p, b, t, j, n);
    }
  }

  lemma RegionFromStart(c: C.Cfg, num: Numbering, g: Graph, M: Machine, p: Path, t: C.BlockId, j: nat, n: nat)
    requires FullSetting(c, num, g) && t in c.order && j < |Entries(c, t)| && Walk(g, Go(p, Num(num, RRegion(t)), j))
    requires FromStart(c, t, Entries(c, t)[j]) && Tracks(c, num, g, M, p, Entries(c, t)[j].ctrl, n)
    ensures Tracks(c, num, g, M, Go(p, Num(num, RRegion(t)), j), RRegion(t),
      n + Ticks(c, Entries(c, t)[j].ctrl, RRegion(t)))
  {
    hide Setting, C.GoodCfg, Shape, Entries, FromStart, Matches, Walk, Shown, EnvAt, C.Trace, C.Run, Recorded;
    var q := Go(p, Num(num, RRegion(t)), j);
    NothingShown(c, num, g, M, EnvAt(g, M, p), RRegion(t));
    EnterFromStart(c, num, g, M, q, t);
    StartEntry(c, num, M, EnvAt(g, M, q), t, Entries(c, t)[j]);
  }

  lemma RegionFromBlock(c: C.Cfg, num: Numbering, g: Graph, M: Machine, p: Path, b: C.BlockId, t: C.BlockId, j: nat,
                        n: nat)
    requires FullSetting(c, num, g) && t in c.order && j < |Entries(c, t)| && Walk(g, Go(p, Num(num, RRegion(t)), j))
    requires b in c.order && FromBlock(c, b, t, Entries(c, t)[j]) && Tracks(c, num, g, M, p, Entries(c, t)[j].ctrl, n)
    ensures Tracks(c, num, g, M, Go(p, Num(num, RRegion(t)), j), RRegion(t),
      n + Ticks(c, Entries(c, t)[j].ctrl, RRegion(t)))
  {
    hide *;
    SettingAcyclic(c, num, g);
    var q, way := Go(p, Num(num, RRegion(t)), j), Entries(c, t)[j].ctrl;
    var cf, m := ReachedConfig(c, M, num, n), ReachedMemory(c, M, num, n);
    EntryIs(c, b, t, Entries(c, t)[j]);
    TracksIs(c, num, g, M, p, way, n);
    EnterFromBlock(c, num, g, M, q, b, t, way, cf, m);
    BranchTested(c, num, M, EnvAt(g, M, p), b, t, way, n, m);
    Onwards(c, M, num, n, b, cf.store);
    InsideMatches(c, num, M, EnvAt(g, M, q), RRegion(t), ReachedConfig(c, M, num, n + Plain(Code(c, b)) + 1),
                  ReachedMemory(c, M, num, n + Plain(Code(c, b)) + 1));
    RegionIsValid(c, t);
    NothingShown(c, num, g, M, EnvAt(g, M, p), RRegion(t));
    NothingAdded(c, M, num, RRegion(t), n + Plain(Code(c, b)) + 1);
    TracksMade(c, num, g, M, p, way, RRegion(t), j, n, n + Plain(Code(c, b)) + 1);
  }

  lemma EntryIs(c: C.Cfg, b: C.BlockId, t: C.BlockId, e: Entry)
    requires FromBlock(c, b, t, e)
    ensures e == Entry(e.ctrl, LastMem(c, b)) && Ticks(c, e.ctrl, RRegion(t)) == Plain(Code(c, b)) + 1
  {}

  lemma RegionIsValid(c: C.Cfg, t: C.BlockId)
    requires t in c.order
    ensures ValidRole(c, RRegion(t)) && ValidRole(c, REndRegion)
  {}

  lemma TracksIs(c: C.Cfg, num: Numbering, g: Graph, M: Machine, p: Path, r: Role, n: nat)
    requires Acyclic(g) && Tracks(c, num, g, M, p, r, n)
    ensures Walk(g, p) && At(g, p) == Num(num, r)
    ensures Matches(c, num, M, EnvAt(g, M, p), r, ReachedConfig(c, M, num, n), ReachedMemory(c, M, num, n))
    ensures Events(g, M, p) == Tooks(M, ReachedTrace(c, M, num, n)) + Adds(c, M, num, r, n)
  {}

  lemma NothingAdded(c: C.Cfg, M: Machine, num: Numbering, r: Role, n: nat)
    requires r.RRegion? || r.REndRegion?
    ensures Tooks(M, ReachedTrace(c, M, num, n)) + Adds(c, M, num, r, n) == Tooks(M, ReachedTrace(c, M, num, n))
  {}

  /** A step to role `r`, at which nothing is shown. */
  lemma TracksMade(c: C.Cfg, num: Numbering, g: Graph, M: Machine, p: Path, q: Role, r: Role, j: nat, n: nat, n': nat)
    requires Acyclic(g) && Walk(g, Go(p, Num(num, r), j)) && (r.RRegion? || r.REndRegion?)
    requires Tracks(c, num, g, M, p, q, n) && Shown(g, M, EnvAt(g, M, p), Num(num, r)) == []
    requires Matches(c, num, M, EnvAt(g, M, Go(p, Num(num, r), j)), r, ReachedConfig(c, M, num, n'),
                     ReachedMemory(c, M, num, n'))
    requires Tooks(M, ReachedTrace(c, M, num, n)) + Adds(c, M, num, q, n) ==
      Tooks(M, ReachedTrace(c, M, num, n')) + Adds(c, M, num, r, n')
    ensures Tracks(c, num, g, M, Go(p, Num(num, r), j), r, n')
  {
    hide Matches, Shown, EnvAt, Adds, ReachedTrace, ReachedConfig, ReachedMemory, Walk;
    var w := Events(g, M, p);
    assert w + [] == w;
  }

  lemma StartEntry(c: C.Cfg, num: Numbering, M: Machine, env: Env, t: C.BlockId, e: Entry)
    requires FromStart(c, t, e) && Inside(c, num, M, env, t, Initially(c), Initial)
    ensures e.ctrl == RStartCtrl
    ensures Matches(c, num, M, env, RRegion(t), ReachedConfig(c, M, num, 0), ReachedMemory(c, M, num, 0))
  {}

  lemma InsideMatches(c: C.Cfg, num: Numbering, M: Machine, env: Env, r: Role, cf: C.Config, m: Memory)
    requires r.RRegion?
    ensures Matches(c, num, M, env, r, cf, m) <==> Inside(c, num, M, env, r.b, cf, m)
  {}

  lemma ToEndRegion(c: C.Cfg, num: Numbering, g: Graph, M: Machine, p: Path, j: nat, n: nat)
    requires FullSetting(c, num, g) && j < |Exits(c)| && Walk(g, Go(p, Num(num, REndRegion), j))
    requires Tracks(c, num, g, M, p, Exits(c)[j].ctrl, n)
    ensures Tracks(c, num, g, M, Go(p, Num(num, REndRegion), j), REndRegion, n + Ticks(c, Exits(c)[j].ctrl, REndRegion))
  {
    hide *;
    SettingAcyclic(c, num, g);
    var q := Go(p, Num(num, REndRegion), j);
    var cf, m := ReachedConfig(c, M, num, n), ReachedMemory(c, M, num, n);
    var b := ExitCases(c, j);
    ExitIs(c, PlaceMachine(M, num), b, cf.store);
    TracksIs(c, num, g, M, p, RRegion(b), n);
    InsideMatches(c, num, M, EnvAt(g, M, p), RRegion(b), cf, m);
    InsideIs(c, num, M, EnvAt(g, M, p), b, cf, m);
    LeaveFromBlock(c, num, g, M, q, b, cf, m);
    Onwards(c, M, num, n, b, cf.store);
    RegionIsValid(c, b);
    NothingShown(c, num, g, M, EnvAt(g, M, p), REndRegion);
    NothingAdded(c, M, num, RRegion(b), n);
    NothingAdded(c, M, num, REndRegion, n + Plain(Code(c, b)) + 1);
    assert ReachedTrace(c, M, num, n) + [] == ReachedTrace(c, M, num, n);
    TracksMade(c, num, g, M, p, RRegion(b), REndRegion, j, n, n + Plain(Code(c, b)) + 1);
  }

  lemma ExitIs(c: C.Cfg, M: Machine, b: C.BlockId, s: C.Store)
    requires C.Exits(Code(c, b))
    ensures ExitOf(c, b).ctrl == RRegion(b) && Ticks(c, RRegion(b), REndRegion) == Plain(Code(c, b)) + 1
    ensures Asked(c, M, b, s) == []
  {}

  lemma InsideIs(c: C.Cfg, num: Numbering, M: Machine, env: Env, b: C.BlockId, cf: C.Config, m: Memory)
    requires Inside(c, num, M, env, b, cf, m)
    ensures cf == C.At(b, 0, cf.store)
  {}

  lemma ToWay(c: C.Cfg, num: Numbering, g: Graph, M: Machine, p: Path, r: Role, n: nat)
    requires FullSetting(c, num, g) && ValidRole(c, r) && (r.RTrue? || r.RFalse?) && Walk(g, Go(p, Num(num, r), 0))
    requires Tracks(c, num, g, M, p, RBranch(r.b), n) && AllFollow(M, Shown(g, M, EnvAt(g, M, p), Num(num, r)))
    ensures Tracks(c, num, g, M, Go(p, Num(num, r), 0), r, n)
  {
    hide Setting, IsLowering, GoodNumbering, C.GoodCfg, Shape, Inside, Predicate, Shown, Walk;
    var q, cf := Go(p, Num(num, r), 0), ReachedConfig(c, M, num, n);
    BranchShown(c, num, g, M, EnvAt(g, M, p), r.b, cf, ReachedMemory(c, M, num, n), r);
    var e := Took(WordV(Predicate(PlaceMachine(M, num), c, r.b, cf.store)), r == RTrue(r.b));
    assert e in Shown(g, M, EnvAt(g, M, p), Num(num, r));
    EnvKept(c, num, g, M, q, r);
  }

  lemma ToOther(c: C.Cfg, num: Numbering, g: Graph, M: Machine, p: Path, r: Role, n: nat)
    requires FullSetting(c, num, g) && ValidRole(c, r) && (r.RStartCtrl? || r.RBranch? || r.REnd?)
    requires Walk(g, Go(p, Num(num, r), 0)) && Tracks(c, num, g, M, p, Inputs(c, r)[0], n)
    ensures Tracks(c, num, g, M, Go(p, Num(num, r), 0), r, n)
  {
    hide Setting, IsLowering, GoodNumbering, C.GoodCfg, Shape, Inside, Left, Shown, Walk;
    EnvKept(c, num, g, M, Go(p, Num(num, r), 0), r);
    if r.REnd? {
      EndShown(c, num, g, M, EnvAt(g, M, p), ReachedConfig(c, M, num, n), ReachedMemory(c, M, num, n));
    } else {
      NothingShown(c, num, g, M, EnvAt(g, M, p), r);
    }
  }

  /** A step of the nodes, and the steps of the block graph that go with it. */
  lemma StepTracks(c: C.Cfg, num: Numbering, g: Graph, M: Machine, p: Path, r: Role, j: nat, n: nat)
    requires FullSetting(c, num, g) && ValidRole(c, r) && j < |Inputs(c, r)|
    requires ControlKind(KindOf(c, r)) && ControlSlot(KindOf(c, r), j)
    requires Tracks(c, num, g, M, p, Inputs(c, r)[j], n) && AllFollow(M, Shown(g, M, EnvAt(g, M, p), Num(num, r)))
    ensures Tracks(c, num, g, M, Go(p, Num(num, r), j), r, n + Ticks(c, Inputs(c, r)[j], r))
  {
    hide *;
    StepWalks(c, num, g, M, p, r, j, n);
    ControlRoles(c, r, j);
    if r.RRegion? {
      ToRegion(c, num, g, M, p, r.b, j, n);
    } else if r.REndRegion? {
      ToEndRegion(c, num, g, M, p, j, n);
    } else if r.RTrue? || r.RFalse? {
      ToWay(c, num, g, M, p, r, n);
    } else {
      ToOther(c, num, g, M, p, r, n);
    }
  }

  lemma StepWalks(c: C.Cfg, num: Numbering, g: Graph, M: Machine, p: Path, r: Role, j: nat, n: nat)
    requires FullSetting(c, num, g) && ValidRole(c, r) && j < |Inputs(c, r)|
    requires ControlKind(KindOf(c, r)) && ControlSlot(KindOf(c, r), j) && Tracks(c, num, g, M, p, Inputs(c, r)[j], n)
    ensures Walk(g, Go(p, Num(num, r), j))
  {
    hide Setting, Shape, Inputs, Matches, EnvAt, Events, Edge, KindOf;
    RoleEdge(c, num, g, r, j);
  }

  lemma ControlRoles(c: C.Cfg, r: Role, j: nat)
    requires ValidRole(c, r) && j < |Inputs(c, r)| && ControlKind(KindOf(c, r)) && ControlSlot(KindOf(c, r), j)
    ensures r.RRegion? ==> r.b in c.order && j < |Entries(c, r.b)| && Inputs(c, r)[j] == Entries(c, r.b)[j].ctrl
    ensures r.REndRegion? ==> j < |Exits(c)| && Inputs(c, r)[j] == Exits(c)[j].ctrl
    ensures r.RTrue? || r.RFalse? ==> j == 0 && Inputs(c, r)[j] == RBranch(r.b)
    ensures !r.RRegion? && !r.REndRegion? && !r.RTrue? && !r.RFalse? ==>
      j == 0 && (r.RStartCtrl? || r.RBranch? || r.REnd?) && Ticks(c, Inputs(c, r)[j], r) == 0
    ensures r.RTrue? || r.RFalse? ==> Ticks(c, Inputs(c, r)[j], r) == 0
  {
    hide Entries, Exits;
  }

  // ----- the block graph follows the nodes -----

  lemma AtStart(c: C.Cfg, num: Numbering, g: Graph, M: Machine, p: Path)
    requires FullSetting(c, num, g) && Walk(g, p) && At(g, p) == Num(num, RStart)
    ensures Tracks(c, num, g, M, p, RStart, 0)
  {
    hide Setting, IsLowering, GoodNumbering, C.GoodCfg;
    Node(c, num, g, RStart);
  }

  /** The step by which a run came to role `r`. */
  lemma LastStepOf(c: C.Cfg, num: Numbering, g: Graph, M: Machine, p: Path, r: Role)
    requires FullSetting(c, num, g) && Walk(g, p) && AllFollow(M, Events(g, M, p)) && ValidRole(c, r)
    requires At(g, p) == Num(num, r)
    requires r != RStart
    ensures p.Go? && p == Go(p.prev, Num(num, r), p.slot) && Walk(g, p.prev) && p.slot < |Inputs(c, r)|
    ensures ControlKind(KindOf(c, r)) && ControlSlot(KindOf(c, r), p.slot)
    ensures ValidRole(c, Inputs(c, r)[p.slot]) && At(g, p.prev) == Num(num, Inputs(c, r)[p.slot])
    ensures AllFollow(M, Events(g, M, p.prev)) && AllFollow(M, Shown(g, M, EnvAt(g, M, p.prev), Num(num, r)))
  {
    hide IsLowering, GoodNumbering, C.GoodCfg, Shape, AllFollow, Shown, EnvAt, Entries, Exits;
    Lists(c, num, g);
    Node(c, num, g, r);
    Came(c, num, g, p, r);
    FollowPrefix(M, Events(g, M, p.prev), Shown(g, M, EnvAt(g, M, p.prev), p.node));
    InputFits(c, r, p.slot);
  }

  /** Wherever a run of the nodes is, the block graph gets to. */
  lemma {:induction false} Follow(c: C.Cfg, num: Numbering, g: Graph, M: Machine, p: Path, r: Role) returns (n: nat)
    requires FullSetting(c, num, g) && Walk(g, p) && AllFollow(M, Events(g, M, p)) && ValidRole(c, r)
    requires At(g, p) == Num(num, r)
    ensures Tracks(c, num, g, M, p, r, n)
    decreases p
  {
    hide *;
    if r == RStart {
      n := 0;
      AtStart(c, num, g, M, p);
    } else {
      LastStepOf(c, num, g, M, p, r);
      var q := Inputs(c, r)[p.slot];
      n := Follow(c, num, g, M, p.prev, q);
      StepTracks(c, num, g, M, p.prev, r, p.slot, n);
      n := n + Ticks(c, q, r);
    }
  }

  // ----- the nodes follow the block graph -----

  lemma NoneFollows(M: Machine)
    ensures AllFollow(M, [])
  {}

  /** From the start of block `b` to the way out that the branch (if any) picks. */
  lemma WayOut(c: C.Cfg, num: Numbering, g: Graph, M: Machine, p: Path, b: C.BlockId, n: nat)
    returns (q: Path, way: Role, t: C.BlockId)
    requires FullSetting(c, num, g) && b in c.order && !C.Exits(Code(c, b)) && Tracks(c, num, g, M, p, RRegion(b), n)
    ensures Tracks(c, num, g, M, q, way, n) && Ticks(c, way, RRegion(t)) == Plain(Code(c, b)) + 1
    ensures C.Succ(Code(c, b), t) && FromBlock(c, b, t, Entry(way, LastMem(c, b)))
  {
    hide Setting, IsLowering, GoodNumbering, C.GoodCfg, Shape, Tracks, AllFollow;
    way, q := RRegion(b), p;
    if LastOp(c, b).Branch? {
      NoneFollows(M);
      NothingShown(c, num, g, M, EnvAt(g, M, p), RBranch(b));
      StepTracks(c, num, g, M, p, RBranch(b), 0, n);
      q, way := TakeBranch(c, num, g, M, Go(p, Num(num, RBranch(b)), 0), b, n);
      t := if way.RTrue? then LastOp(c, b).thenTo else LastOp(c, b).elseTo;
    } else {
      t := LastOp(c, b).target;
    }
  }

  lemma TakeBranch(c: C.Cfg, num: Numbering, g: Graph, M: Machine, p: Path, b: C.BlockId, n: nat)
    returns (q: Path, way: Role)
    requires FullSetting(c, num, g) && b in c.order && LastOp(c, b).Branch? && Tracks(c, num, g, M, p, RBranch(b), n)
    ensures way == RTrue(b) || way == RFalse(b)
    ensures Tracks(c, num, g, M, q, way, n)
  {
    hide Setting, IsLowering, GoodNumbering, C.GoodCfg, Shape, Inside, Shown, Walk, EnvAt, Events, Predicate;
    var cf := ReachedConfig(c, M, num, n);
    var v := Predicate(PlaceMachine(M, num), c, b, cf.store);
    way := if M.truthy(v) then RTrue(b) else RFalse(b);
    BranchShown(c, num, g, M, EnvAt(g, M, p), b, cf, ReachedMemory(c, M, num, n), way);
    hide Tracks;
    assert AllFollow(M, [Took(WordV(v), M.truthy(v))]);
    StepTracks(c, num, g, M, p, way, 0, n);
    q := Go(p, Num(num, way), 0);
  }

  lemma NextBlock(c: C.Cfg, num: Numbering, g: Graph, M: Machine, p: Path, b: C.BlockId, n: nat)
    returns (q: Path, t: C.BlockId)
    requires FullSetting(c, num, g) && b in c.order && !C.Exits(Code(c, b)) && Tracks(c, num, g, M, p, RRegion(b), n)
    ensures t in c.order && Tracks(c, num, g, M, q, RRegion(t), n + Plain(Code(c, b)) + 1)
  {
    hide Setting, IsLowering, GoodNumbering, C.GoodCfg, Shape, Entries, FromBlock, C.Exits, C.Succ, AllFollow,
         Tracks, Ticks;
    Lists(c, num, g);
    var p', way;
    p', way, t := WayOut(c, num, g, M, p, b, n);
    var j := EntryExists(c, b, t, Entry(way, LastMem(c, b)));
    NoneFollows(M);
    NothingShown(c, num, g, M, EnvAt(g, M, p'), RRegion(t));
    StepTracks(c, num, g, M, p', RRegion(t), j, n);
    q := Go(p', Num(num, RRegion(t)), j);
  }

  lemma ToEnd(c: C.Cfg, num: Numbering, g: Graph, M: Machine, p: Path, b: C.BlockId, n: nat) returns (q: Path)
    requires FullSetting(c, num, g) && b in c.order && C.Exits(Code(c, b)) && Tracks(c, num, g, M, p, RRegion(b), n)
    ensures Tracks(c, num, g, M, q, REndRegion, n + Plain(Code(c, b)) + 1)
  {
    hide Setting, IsLowering, GoodNumbering, C.GoodCfg, Shape, Exits, AllFollow, Tracks;
    var j := ExitExists(c, b);
    NoneFollows(M);
    NothingShown(c, num, g, M, EnvAt(g, M, p), REndRegion);
    StepTracks(c, num, g, M, p, REndRegion, j, n);
    q := Go(p, Num(num, REndRegion), j);
  }

  /** The graph shows what the block graph tests in `n` steps, and its end. */
  ghost predicate ShownBy(c: C.Cfg, num: Numbering, g: Graph, M: Machine, n: nat)
    requires Acyclic(g)
  {
    Behaves(g, M, Tooks(M, ReachedTrace(c, M, num, n))) &&
    Behaves(g, M, Tooks(M, ReachedTrace(c, M, num, n)) + EndShows(c, M, num, n)) &&
    (ReachedConfig(c, M, num, n).Done? ==>
      Agrees(M, c, num, ReachedMemory(c, M, num, n), ReachedConfig(c, M, num, n).store))
  }

  lemma WholeRunShown(c: C.Cfg, num: Numbering, g: Graph, M: Machine, p: Path, n: nat, k: nat)
    requires FullSetting(c, num, g) && Tracks(c, num, g, M, p, REndRegion, n)
    ensures ShownBy(c, num, g, M, n + k)
  {
    hide Setting, Shape, Agrees, AllFollow, Shown, Walk, EnvAt, Events;
    var w := Tooks(M, ReachedTrace(c, M, num, n));
    assert w + [] == w;
    assert Walk(g, p) && Events(g, M, p) == w;
    EndShown(c, num, g, M, EnvAt(g, M, p), ReachedConfig(c, M, num, n), ReachedMemory(c, M, num, n));
    assert AllFollow(M, EndShows(c, M, num, n)) by {
      EndFollows(c, M, num, n);
    }
    StepTracks(c, num, g, M, p, REnd, 0, n);
    var q := Go(p, Num(num, REnd), 0);
    assert Walk(g, q) && Events(g, M, q) == w + EndShows(c, M, num, n);
    StillDone(c, M, num, n, k);
  }

  lemma EndFollows(c: C.Cfg, M: Machine, num: Numbering, n: nat)
    ensures AllFollow(M, EndShows(c, M, num, n))
  {}

  /** Wherever the block graph gets to, a run of the nodes gets. */
  lemma {:induction false} Lead(c: C.Cfg, num: Numbering, g: Graph, M: Machine, p: Path, b: C.BlockId, n: nat,
                                last: nat)
    requires FullSetting(c, num, g) && b in c.order && Tracks(c, num, g, M, p, RRegion(b), n) && n <= last
    ensures ShownBy(c, num, g, M, last)
    decreases last - n
  {
    hide Setting, IsLowering, GoodNumbering, C.GoodCfg, Shape, Matches, C.Exits, ShownBy, Tracks;
    Lists(c, num, g);
    TracksBlock(c, num, g, M, p, b, n);
    var k, s := Plain(Code(c, b)) + 1, ReachedConfig(c, M, num, n).store;
    if last < n + k {
      StillInside(c, M, num, n, b, s, last - n);
      InsideShown(c, num, g, M, p, b, n, last);
    } else if C.Exits(Code(c, b)) {
      var q := ToEnd(c, num, g, M, p, b, n);
      WholeRunShown(c, num, g, M, q, n + k, last - n - k);
    } else {
      var q, t := NextBlock(c, num, g, M, p, b, n);
      Lead(c, num, g, M, q, t, n + k, last);
    }
  }

  lemma TracksBlock(c: C.Cfg, num: Numbering, g: Graph, M: Machine, p: Path, b: C.BlockId, n: nat)
    requires Acyclic(g) && Tracks(c, num, g, M, p, RRegion(b), n)
    ensures ReachedConfig(c, M, num, n) == C.At(b, 0, ReachedConfig(c, M, num, n).store)
  {}

  lemma InsideShown(c: C.Cfg, num: Numbering, g: Graph, M: Machine, p: Path, b: C.BlockId, n: nat, last: nat)
    requires Acyclic(g) && Tracks(c, num, g, M, p, RRegion(b), n) && ReachedConfig(c, M, num, last).At?
    requires ReachedTrace(c, M, num, last) == ReachedTrace(c, M, num, n)
    ensures ShownBy(c, num, g, M, last)
  {
    var w := Tooks(M, ReachedTrace(c, M, num, n));
    assert w + [] == w;
    assert Walk(g, p) && Events(g, M, p) == w;
  }

  lemma FirstBlock(c: C.Cfg, num: Numbering, g: Graph, M: Machine) returns (p: Path)
    requires FullSetting(c, num, g)
    ensures c.order[0] in c.order && Tracks(c, num, g, M, p, RRegion(c.order[0]), 0)
  {
    hide Setting, IsLowering, GoodNumbering, C.GoodCfg, Entries, AllFollow, Tracks, Shown;
    Lists(c, num, g);
    var t := c.order[0];
    var j := EntryExists(c, t, t, Entry(RStartCtrl, RStartMem));
    AtStart(c, num, g, M, Origin);
    NoneFollows(M);
    NothingShown(c, num, g, M, EnvAt(g, M, Origin), RStartCtrl);
    StepTracks(c, num, g, M, Origin, RStartCtrl, 0, 0);
    var q := Go(Origin, Num(num, RStartCtrl), 0);
    NothingShown(c, num, g, M, EnvAt(g, M, q), RRegion(t));
    StepTracks(c, num, g, M, q, RRegion(t), j, 0);
    p := Go(q, Num(num, RRegion(t)), j);
  }

  // ----- the theorem -----

  /** What the block graph shows: the values tested so far, and its end. */
  ghost predicate Shows(c: C.Cfg, M: Machine, num: Numbering, events: seq<Event>) {
    exists n: nat :: ShowsAfter(c, M, num, events, n)
  }

  predicate ShowsAfter(c: C.Cfg, M: Machine, num: Numbering, events: seq<Event>, n: nat) {
    var w := Tooks(M, ReachedTrace(c, M, num, n));
    events == w || events == w + EndShows(c, M, num, n)
  }

  lemma FromStartShown(c: C.Cfg, num: Numbering, g: Graph, M: Machine, n: nat)
    requires FullSetting(c, num, g)
    ensures ShownBy(c, num, g, M, n)
  {
    hide FullSetting, ShownBy, Tracks;
    var p := FirstBlock(c, num, g, M);
    Lead(c, num, g, M, p, c.order[0], 0, n);
  }

  lemma ShowsFollow(c: C.Cfg, M: Machine, num: Numbering, events: seq<Event>, n: nat)
    requires ShowsAfter(c, M, num, events, n)
    ensures AllFollow(M, events)
  {
    EndFollows(c, M, num, n);
    FollowPrefix(M, Tooks(M, ReachedTrace(c, M, num, n)), EndShows(c, M, num, n));
  }

  lemma ShowsThen(c: C.Cfg, M: Machine, num: Numbering, events: seq<Event>, n: nat)
    requires ShowsAfter(c, M, num, events, n)
    ensures Shows(c, M, num, events)
  {}

  /** What a run of the nodes has shown, the block graph shows. */
  lemma TracksShows(c: C.Cfg, num: Numbering, g: Graph, M: Machine, p: Path, r: Role, n: nat)
    requires FullSetting(c, num, g) && ValidRole(c, r) && Tracks(c, num, g, M, p, r, n)
    ensures Shows(c, M, num, Events(g, M, p))
  {
    hide *;
    SettingAcyclic(c, num, g);
    TracksIs(c, num, g, M, p, r, n);
    if r.RTrue? || r.RFalse? {
      var t := WayTarget(c, r);
      BranchTested(c, num, M, EnvAt(g, M, p), r.b, t, r, n, ReachedMemory(c, M, num, n));
      TestedShows(c, M, num, Events(g, M, p), n + Plain(Code(c, r.b)) + 1);
      ShowsThen(c, M, num, Events(g, M, p), n + Plain(Code(c, r.b)) + 1);
    } else {
      AddedShows(c, M, num, r, Events(g, M, p), n);
      ShowsThen(c, M, num, Events(g, M, p), n);
    }
  }

  lemma WayTarget(c: C.Cfg, r: Role) returns (t: C.BlockId)
    requires ValidRole(c, r) && (r.RTrue? || r.RFalse?)
    ensures r.b in c.order && FromBlock(c, r.b, t, Entry(r, LastMem(c, r.b)))
  {
    t := if r.RTrue? then LastOp(c, r.b).thenTo else LastOp(c, r.b).elseTo;
  }

  lemma TestedShows(c: C.Cfg, M: Machine, num: Numbering, events: seq<Event>, n: nat)
    requires events == Tooks(M, ReachedTrace(c, M, num, n))
    ensures ShowsAfter(c, M, num, events, n)
  {}

  lemma AddedShows(c: C.Cfg, M: Machine, num: Numbering, r: Role, events: seq<Event>, n: nat)
    requires !r.RTrue? && !r.RFalse? && events == Tooks(M, ReachedTrace(c, M, num, n)) + Adds(c, M, num, r, n)
    ensures ShowsAfter(c, M, num, events, n)
  {
    hide EndShows, ReachedTrace;
    var w := Tooks(M, ReachedTrace(c, M, num, n));
    assert w + [] == w;
  }

  lemma PathRole(c: C.Cfg, num: Numbering, g: Graph, p: Path) returns (r: Role)
    requires FullSetting(c, num, g) && Walk(g, p)
    ensures ValidRole(c, r) && At(g, p) == Num(num, r)
  {
    hide Setting, C.GoodCfg;
    r := RoleOf(c, num, g, At(g, p));
  }

  /** The runs of the graph that take every branch the way its predicate tells show what the block graph shows,
      and nothing else. */
  lemma LoweredMeans(c: C.Cfg, num: Numbering, g: Graph, M: Machine, events: seq<Event>)
    requires FullSetting(c, num, g)
    ensures Behaves(g, M, events) && AllFollow(M, events) <==> Shows(c, M, num, events)
  {
    hide Setting, Shape, AllFollow, Walk, Events, Tracks, ShowsAfter;
    if Behaves(g, M, events) && AllFollow(M, events) {
      var p :| Walk(g, p) && Events(g, M, p) == events;
      var r := PathRole(c, num, g, p);
      var n := Follow(c, num, g, M, p, r);
      TracksShows(c, num, g, M, p, r, n);
    }
    if Shows(c, M, num, events) {
      var n: nat :| ShowsAfter(c, M, num, events, n);
      ShowsFollow(c, M, num, events, n);
      FromStartShown(c, num, g, M, n);
      ShownShows(c, num, g, M, events, n);
    }
  }

  lemma ShownShows(c: C.Cfg, num: Numbering, g: Graph, M: Machine, events: seq<Event>, n: nat)
    requires Acyclic(g) && ShownBy(c, num, g, M, n) && ShowsAfter(c, M, num, events, n)
    ensures Behaves(g, M, events)
  {}

  /** The memory shown at the end holds the variables. */
  lemma EndAgrees(c: C.Cfg, num: Numbering, g: Graph, M: Machine, n: nat)
    requires FullSetting(c, num, g) && ReachedConfig(c, M, num, n).Done?
    ensures Agrees(M, c, num, ReachedMemory(c, M, num, n), ReachedConfig(c, M, num, n).store)
  {
    hide FullSetting, Agrees;
    FromStartShown(c, num, g, M, n);
  }

  // ----- one end -----

  predicate Ended(events: seq<Event>) {
    |events| > 0 && events[|events| - 1].Finished?
  }

  lemma EndedIs(c: C.Cfg, M: Machine, num: Numbering, events: seq<Event>, n: nat)
    requires ShowsAfter(c, M, num, events, n) && Ended(events)
    ensures ReachedConfig(c, M, num, n).Done? && events == Tooks(M, ReachedTrace(c, M, num, n)) + EndShows(c, M, num, n)
  {
    var w := Tooks(M, ReachedTrace(c, M, num, n));
    assert w + [] == w;
  }

  /** The block graph ends in one way. */
  lemma OneEnd(c: C.Cfg, M: Machine, num: Numbering, d: seq<Event>, e: seq<Event>)
    requires Shows(c, M, num, d) && Shows(c, M, num, e) && Ended(d) && Ended(e)
    ensures d == e
  {
    hide ShowsAfter, Ended, ReachedConfig, ReachedTrace, ReachedMemory;
    var j: nat :| ShowsAfter(c, M, num, d, j);
    var k: nat :| ShowsAfter(c, M, num, e, k);
    EndedIs(c, M, num, d, j);
    EndedIs(c, M, num, e, k);
    if j <= k {
      StillDone(c, M, num, j, k - j);
    } else {
      StillDone(c, M, num, k, j - k);
    }
  }
}
