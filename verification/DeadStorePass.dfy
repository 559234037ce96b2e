/** The dead-store pass over the nodes: marking what is read, then dropping the stores nothing reads. */
module DeadStorePass {
  import opened Graphs
  import opened Rewrites
  import opened DeadStores
  import opened Fixpoint
  import opened Nodes
  import opened Worklists
  import opened Funcs
  import opened Removal
  import opened Walks

  // ----- marking -----

  /** Readers and what marked nodes take memory from are marked, or wait on the stack. */
  ghost predicate MarkSeen(g: Graph, R: set<Id>, S: set<Id>, waiting: set<Id>) {
    (forall n :: n in R && n in g.nodes && ReadsMemory(g.nodes[n].kind) ==> n in S || n in waiting) &&
    forall n, i ::
      n in R && n in S && n in g.nodes &&
      0 <= i < |g.nodes[n].ins| && MarkSlot(g.nodes[n].kind, i) && g.nodes[n].ins[i] != 0 ==>
      g.nodes[n].ins[i] in S || g.nodes[n].ins[i] in waiting
  }

  ghost predicate MarkLeast(g: Graph, R: set<Id>, S: set<Id>) {
    S <= R && MarkClosed(g, R, S) && forall X :: MarkClosed(g, R, X) ==> S <= X
  }

  ghost function StackIds(ns: seq<Node>): set<Id> {
    set n | n in ns :: n.id
  }

  ghost predicate MarkState(g: Graph, R: set<Id>, live: set<Node>, S: set<Id>, stack: seq<Node>) {
    S <= R && StackIds(stack) <= R && (forall n :: n in stack ==> n in live) && MarkSeen(g, R, S, StackIds(stack)) &&
    forall X :: MarkClosed(g, R, X) ==> S <= X && StackIds(stack) <= X
  }

  /** Pushes the nodes that the newly marked `node` takes its memory from. */
  method PushSources(wl: Worklist, node: Node, ghost live: set<Node>, ghost g: Graph)
    requires node in live && InputsLive(live) && Shows(g, live) && Shape(g)
    modifies wl`stack
    ensures forall n :: n in old(wl.stack) ==> n in wl.stack
    ensures forall i :: 0 <= i < |node.ins| && MarkSlot(node.kind, i) && node.ins[i] != null ==> node.ins[i] in wl.stack
    ensures forall n :: n in wl.stack ==>
      n in old(wl.stack) || exists i :: 0 <= i < |node.ins| && MarkSlot(node.kind, i) && node.ins[i] == n
  {
    assert g.nodes[node.id] == View(node) && Arity(node.kind, |node.ins|);
    if node.kind == Phi {
      var i := 1;
      while i < |node.ins|
        invariant 1 <= i <= |node.ins|
        invariant forall n :: n in old(wl.stack) ==> n in wl.stack
        invariant forall k :: 1 <= k < i && node.ins[k] != null ==> node.ins[k] in wl.stack
        invariant forall n :: n in wl.stack ==> n in old(wl.stack) || exists k :: 1 <= k < i && node.ins[k] == n
      {
        if node.ins[i] != null {
          wl.stack := wl.stack + [node.ins[i]];
        }
        i := i + 1;
      }
    } else if HasMemDep(node.kind) {
      assert SlotOk(g, node.id, 1);
      assert node.ins[1] != null;
      wl.stack := wl.stack + [node.ins[1]];
    }
  }

  lemma MarkStep(g: Graph, R: set<Id>, live: set<Node>, S: set<Id>, rest: seq<Node>, node: Node, pushed: seq<Node>)
    requires Distinct(live) && InputsLive(live) && Shows(g, live) && g.nodes.Keys == Ids(live)
    requires InputClosed(g, R) && node in live
    requires MarkState(g, R, live, S, rest + [node])
    requires forall n :: n in rest ==> n in pushed
    requires forall i :: 0 <= i < |node.ins| && MarkSlot(node.kind, i) && node.ins[i] != null ==> node.ins[i] in pushed
    requires forall n :: n in pushed ==>
      n in rest || exists i :: 0 <= i < |node.ins| && MarkSlot(node.kind, i) && node.ins[i] == n
    ensures MarkState(g, R, live, S + {node.id}, pushed)
  {
    var stack := rest + [node];
    assert node in stack && node.id in StackIds(stack);
    assert g.nodes[node.id] == View(node);
    forall n | n in pushed
      ensures n in live && n.id in R
      ensures n in rest ||
        exists i :: 0 <= i < |g.nodes[node.id].ins| && MarkSlot(g.nodes[node.id].kind, i) &&
          g.nodes[node.id].ins[i] == n.id
    {
      if n in rest {
        assert n in stack;
      } else {
        var i :| 0 <= i < |node.ins| && MarkSlot(node.kind, i) && node.ins[i] == n;
        assert g.nodes[node.id].ins[i] == n.id != 0;
      }
    }
    assert forall n :: n in rest ==> n.id in StackIds(stack);
    assert forall i :: i in StackIds(stack) ==> i in StackIds(pushed) || i == node.id;
    forall i | 0 <= i < |g.nodes[node.id].ins| && MarkSlot(g.nodes[node.id].kind, i) && g.nodes[node.id].ins[i] != 0
      ensures g.nodes[node.id].ins[i] in StackIds(pushed)
    {
      assert node.ins[i] in pushed;
    }
  }

  lemma MarkSkip(g: Graph, R: set<Id>, live: set<Node>, S: set<Id>, rest: seq<Node>, node: Node)
    requires MarkState(g, R, live, S, rest + [node]) && node.id in S
    ensures MarkState(g, R, live, S, rest)
  {
    var stack := rest + [node];
    assert forall n :: n in rest ==> n in stack;
    assert forall i :: i in StackIds(stack) ==> i in StackIds(rest) || i == node.id;
  }

  /** Marks the least set that holds the readers and all they transitively take memory from. */
  method MarkReads(wl: Worklist, ghost R: set<Id>, ghost live: set<Node>, ghost g: Graph) returns (S: set<Id>)
    requires Distinct(live) && InputsLive(live) && Shows(g, live) && g.nodes.Keys == Ids(live) && Shape(g)
    requires InputClosed(g, R)
    requires MarkState(g, R, live, {}, wl.stack)
    modifies wl`stack
    ensures MarkLeast(g, R, S)
  {
    hide *;
    S := {};
    MarkDone(g, R, live, S, wl.stack);
    while |wl.stack| > 0
      invariant MarkState(g, R, live, S, wl.stack) && (wl.stack == [] ==> MarkLeast(g, R, S))
      decreases R - S, |wl.stack|
    {
      var node := wl.stack[|wl.stack| - 1];
      ghost var rest := wl.stack[..|wl.stack| - 1];
      assert wl.stack == rest + [node];
      MarkTop(g, R, live, S, rest, node);
      wl.stack := wl.stack[..|wl.stack| - 1];
      if node.id in S {
        MarkSkip(g, R, live, S, rest, node);
      } else {
        PushSources(wl, node, live, g);
        MarkStep(g, R, live, S, rest, node, wl.stack);
        S := S + {node.id};
      }
      MarkDone(g, R, live, S, wl.stack);
    }
  }

  lemma MarkTop(g: Graph, R: set<Id>, live: set<Node>, S: set<Id>, rest: seq<Node>, node: Node)
    requires MarkState(g, R, live, S, rest + [node])
    ensures node in live && node.id in R
  {
    assert node in rest + [node];
    assert node.id in StackIds(rest + [node]);
  }

  lemma MarkDone(g: Graph, R: set<Id>, live: set<Node>, S: set<Id>, stack: seq<Node>)
    requires MarkState(g, R, live, S, stack)
    ensures stack == [] ==> MarkLeast(g, R, S)
  {}

  /** Splits the walk: the readers go on the stack, the stores into a list. */
  method Collect(wl: Worklist, nodes: seq<Node>, ghost R: set<Id>, ghost live: set<Node>, ghost g: Graph)
    returns (stores: seq<Node>)
    requires Distinct(live) && Shows(g, live) && g.nodes.Keys == Ids(live)
    requires NoDuplicates(nodes) && (forall n :: n in nodes ==> n in live) && R <= Ids(live)
    requires forall n :: n in live ==> (n in nodes <==> n.id in R)
    modifies wl`stack
    ensures MarkState(g, R, live, {}, wl.stack)
    ensures NoDuplicates(stores) && forall n :: n in stores <==> n in nodes && n.kind == Store
  {
    wl.stack, stores := [], [];
    var i := 0;
    while i < |nodes|
      invariant i <= |nodes| && NoDuplicates(stores)
      invariant forall n :: n in wl.stack <==> n in nodes[..i] && ReadsMemory(n.kind)
      invariant forall n :: n in stores <==> n in nodes[..i] && n.kind == Store
    {
      var node := nodes[i];
      assert nodes[..i + 1] == nodes[..i] + [node];
      assert node !in nodes[..i];
      if ReadsMemory(node.kind) {
        wl.stack := wl.stack + [node];
      }
      if node.kind == Store {
        stores := stores + [node];
      }
      i := i + 1;
    }
    assert nodes[..i] == nodes;
    CollectState(g, R, live, nodes, wl.stack);
  }

  lemma CollectState(g: Graph, R: set<Id>, live: set<Node>, nodes: seq<Node>, stack: seq<Node>)
    requires Distinct(live) && Shows(g, live) && g.nodes.Keys == Ids(live) && R <= Ids(live)
    requires (forall n :: n in nodes ==> n in live) && forall n :: n in live ==> (n in nodes <==> n.id in R)
    requires forall n :: n in stack <==> n in nodes && ReadsMemory(n.kind)
    ensures MarkState(g, R, live, {}, stack)
  {
    forall n | n in R && n in g.nodes && ReadsMemory(g.nodes[n].kind)
      ensures n in StackIds(stack)
    {
      var o :| o in live && o.id == n;
      assert g.nodes[n] == View(o);
    }
    forall n | n in stack
      ensures n.id in R && n.id in g.nodes && ReadsMemory(g.nodes[n.id].kind)
    {
      assert g.nodes[n.id] == View(n);
    }
  }

  // ----- dropping -----

  /** What holds between two drops: `S` still marks what is read, and the stores left to drop
      hang on END by unread memory nodes. */
  ghost predicate DropState(g0: Graph, g: Graph, mem: set<Id>, R: set<Id>, S: set<Id>) {
    WellFormed(g, mem) && SameBehaviour(g0, g) && InputClosed(g, R) && MarkClosed(g, R, S) && Spine(g, mem, R, S)
  }

  lemma BehaviourTrans(g: Graph, h: Graph, k: Graph)
    requires SameBehaviour(g, h) && SameBehaviour(h, k)
    ensures SameBehaviour(g, k)
  {}

  lemma DropStateStep(g0: Graph, g: Graph, mem: set<Id>, R: set<Id>, S: set<Id>, t: Id, K: set<Id>)
    requires DropState(g0, g, mem, R, S) && Is(g, t, Store) && t in R && t !in S
    requires InputClosed(Replace(g, t, Arg(g, t, 1)), K)
    ensures DropState(g0, Keep(Replace(g, t, Arg(g, t, 1)), K), mem, (R - {t}) * K, S)
    ensures forall n :: Is(g, n, Store) && n in R && n !in S && n != t ==> n in K
    ensures exists u :: u in K && u in g.nodes && u != t && t in g.nodes[u].ins
  {
    hide *;
    var h := Replace(g, t, Arg(g, t, 1));
    DropStateParts(g0, g, mem, R, S);
    var u := UnreadUser(g, mem, R, S, t);
    OtherStays(g, t, Arg(g, t, 1), K, u);
    StoresStay(g, mem, t, Arg(g, t, 1));
    DropUnread(g, mem, R, S, t);
    KeepSound(h, mem, K);
    SpineReplace(g, mem, R, S, t);
    ShapeOf(h, mem);
    SpineKeep(h, mem, R - {t}, S, K);
    KeepClosed(h, R - {t}, S, K);
    BehaviourTrans(g0, g, h);
    BehaviourTrans(g0, h, Keep(h, K));
    MakeDropState(g0, Keep(h, K), mem, (R - {t}) * K, S);
  }

  lemma DropStateParts(g0: Graph, g: Graph, mem: set<Id>, R: set<Id>, S: set<Id>)
    requires DropState(g0, g, mem, R, S)
    ensures WellFormed(g, mem) && Shape(g) && MemTyped(g, mem)
    ensures SameBehaviour(g0, g) && InputClosed(g, R) && MarkClosed(g, R, S) && Spine(g, mem, R, S)
  {}

  lemma MakeDropState(g0: Graph, g: Graph, mem: set<Id>, R: set<Id>, S: set<Id>)
    requires WellFormed(g, mem) && SameBehaviour(g0, g) && InputClosed(g, R) && MarkClosed(g, R, S)
    requires Spine(g, mem, R, S)
    ensures DropState(g0, g, mem, R, S)
  {}

  lemma StoresStay(g: Graph, mem: set<Id>, t: Id, s: Id)
    requires MemTyped(g, mem)
    ensures forall n :: Is(g, n, Store) && n != t ==> n in Replace(g, t, s).nodes && n in mem
  {}

  lemma OtherStays(g: Graph, t: Id, s: Id, K: set<Id>, u: Id)
    requires InputClosed(Replace(g, t, s), K) && u in g.nodes && u != t
    ensures u in Replace(g, t, s).nodes && g.end in K
  {}

  lemma KeepClosed(g: Graph, R: set<Id>, S: set<Id>, K: set<Id>)
    requires InputClosed(g, K) && InputClosed(g, R) && MarkClosed(g, R, S)
    ensures InputClosed(Keep(g, K), R * K) && MarkClosed(Keep(g, K), R * K, S)
  {}

  lemma StoreSource(f: Func, g: Graph, store: Node)
    requires f.Valid() && g == f.Graph() && Shape(g) && store in f.live && store.kind == Store
    ensures |store.ins| == 4 && store.ins[1] != null
    ensures store.ins[1] in f.live && store.ins[1] != f.end
    ensures store != f.end
    ensures Is(g, store.id, Store) && Arg(g, store.id, 1) == store.ins[1].id
  {
    assert g.nodes[store.id] == View(store) && Arity(Store, |g.nodes[store.id].ins|);
    assert SlotOk(g, store.id, 1);
  }

  lemma SourceDiffers(g: Graph, mem: set<Id>, t: Id)
    requires WellFormed(g, mem) && Is(g, t, Store)
    ensures Arg(g, t, 1) != t && StartPinned(Replace(g, t, Arg(g, t, 1)))
  {
    StoreReady(g, mem, t);
    DropStoreWellFormed(g, mem, t);
    var h := Replace(g, t, Arg(g, t, 1));
    forall K | InputClosed(h, K)
      ensures h.start in K
    {
      KeepControl(h, mem, K);
    }
  }

  /** Replaces one unread store by the memory it wrote to. */
  method DropOne(wl: Worklist, f: Func, store: Node, ghost mem: set<Id>, ghost g0: Graph, ghost g: Graph,
                 ghost R: set<Id>, ghost S: set<Id>)
    returns (ghost g': Graph, ghost R': set<Id>)
    requires f.Valid() && wl.Valid() && wl.contents <= f.live && g == f.Graph() && DropState(g0, g, mem, R, S)
    requires store in f.live && store.kind == Store && store.id in R && store.id !in S
    modifies wl, f`live, f.live`ins, f.live`uses
    ensures f.Valid() && wl.Valid()
    ensures wl.contents <= f.live < old(f.live) && g' == f.Graph()
    ensures DropState(g0, g', mem, R', S)
    ensures forall n :: Is(g, n, Store) && n in R && n !in S && n != store.id ==> n in Ids(f.live) && n in R'
    ensures R' <= R - {store.id} && (forall n :: Is(g', n, Store) && n in R' ==> Is(g, n, Store))
    ensures wl.contents != {}
  {
    hide *;
    DropStateParts(g0, g, mem, R, S);
    StoreSource(f, g, store);
    UsersLive(store, f.live);
    SourceDiffers(g, mem, store.id);
    UsersById(f, g, store);
    ghost var all, queued, users := f.live, wl.contents, UsersOf(store, f.live);
    ReplaceNode(wl, f, store, store.ins[1]);
    DropStateStep(g0, g, mem, R, S, store.id, Ids(f.live));
    SomeQueued(g, all, users, store, f.live, queued);
    g' := Keep(Replace(g, store.id, Arg(g, store.id, 1)), Ids(f.live));
    R' := (R - {store.id}) * Ids(f.live);
    KeptStores(g, store.id, Arg(g, store.id, 1), Ids(f.live));
  }

  lemma KeptStores(g: Graph, t: Id, s: Id, K: set<Id>)
    ensures forall n :: Is(Keep(Replace(g, t, s), K), n, Store) ==> Is(g, n, Store)
  {}

  lemma SomeQueued(g: Graph, all: set<Node>, users: set<Node>, store: Node, live: set<Node>, queued: set<Node>)
    requires UsersMatch(g, all, users, store) && live <= all
    requires exists u :: u in Ids(live) && u in g.nodes && u != store.id && store.id in g.nodes[u].ins
    ensures (queued + users) * live != {}
  {
    var u :| u in Ids(live) && u in g.nodes && u != store.id && store.id in g.nodes[u].ins;
    var m :| m in live && m.id == u;
    assert m in users;
    assert m in (queued + users) * live;
  }

  /** The unread stores of the graph are among those of the list from `i` on. */
  ghost predicate NoneMissed(g: Graph, stores: seq<Node>, i: nat, R: set<Id>, S: set<Id>) {
    forall n :: Is(g, n, Store) && n in R && n !in S ==> exists k :: i <= k < |stores| && stores[k].id == n
  }

  lemma NoneMissedNext(g: Graph, g': Graph, stores: seq<Node>, i: nat, R: set<Id>, R': set<Id>, S: set<Id>)
    requires NoneMissed(g, stores, i, R, S) && i < |stores|
    requires stores[i].id in S || stores[i].id !in R'
    requires R' <= R && forall n :: Is(g', n, Store) && n in R' ==> Is(g, n, Store)
    ensures NoneMissed(g', stores, i + 1, R', S)
  {
    forall n | Is(g', n, Store) && n in R' && n !in S
      ensures exists k :: i + 1 <= k < |stores| && stores[k].id == n
    {
      var k :| i <= k < |stores| && stores[k].id == n;
      assert k != i;
    }
  }

  lemma NoneMissedEnd(g0: Graph, g: Graph, stores: seq<Node>, R0: set<Id>, R: set<Id>, S: set<Id>)
    requires NoneMissed(g, stores, |stores|, R, S) && InputClosed(g, R)
    requires Shape(g0) && EndNeeds(g0, R0) && MarkLeast(g0, R0, S)
    ensures OnlyRead(g0, g)
  {
    forall Q, X, n | EndNeeds(g0, Q) && ReadClosed(g0, Q, X) && Needed(g, n) && Is(g, n, Store)
      ensures n in X
    {
      assert Q == R0;
      ReadIff(g0, Q, X);
      assert n in R;
    }
  }

  /** The stores of the list from `i` on that are still to be dropped are where they should be. */
  ghost predicate ToDrop(stores: seq<Node>, i: nat, live: set<Node>, R: set<Id>, S: set<Id>) {
    forall k :: i <= k < |stores| && stores[k].id !in S ==>
      stores[k] in live && stores[k].id in R && stores[k].kind == Store
  }

  lemma ToDropNext(g: Graph, stores: seq<Node>, i: nat, all: set<Node>, live: set<Node>, R: set<Id>, R': set<Id>,
                   S: set<Id>)
    requires Distinct(all) && live <= all && NoDuplicates(stores) && i < |stores| && ToDrop(stores, i, all, R, S)
    requires stores[i].id !in S && forall k :: i <= k < |stores| && stores[k].id !in S ==> Is(g, stores[k].id, Store)
    requires forall n :: Is(g, n, Store) && n in R && n !in S && n != stores[i].id ==> n in Ids(live) && n in R'
    ensures ToDrop(stores, i + 1, live, R', S)
  {
    forall k | i + 1 <= k < |stores| && stores[k].id !in S
      ensures stores[k] in live && stores[k].id in R'
    {
      assert !SameId(stores[k], stores[i]);
      var m :| m in live && m.id == stores[k].id;
      assert SameId(m, stores[k]);
    }
  }

  lemma StoresShown(f: Func, g: Graph, stores: seq<Node>, i: nat, R: set<Id>, S: set<Id>)
    requires f.Valid() && g == f.Graph() && ToDrop(stores, i, f.live, R, S)
    ensures Distinct(f.live) && forall k :: i <= k < |stores| && stores[k].id !in S ==> Is(g, stores[k].id, Store)
  {
    forall k | i <= k < |stores| && stores[k].id !in S
      ensures Is(g, stores[k].id, Store)
    {
      assert g.nodes[stores[k].id] == View(stores[k]);
    }
  }

  ghost predicate AllIn(stores: seq<Node>, i: nat, S: set<Id>) {
    forall k :: 0 <= k < i && k < |stores| ==> stores[k].id in S
  }

  lemma NoneTested(stores: seq<Node>, S: set<Id>)
    ensures AllIn(stores, 0, S)
  {}

  lemma OneMore(stores: seq<Node>, i: nat, live: set<Node>, R: set<Id>, S: set<Id>)
    requires i < |stores| && ToDrop(stores, i, live, R, S)
    ensures stores[i].id in S ==> ToDrop(stores, i + 1, live, R, S)
    ensures stores[i].id !in S ==> stores[i] in live && stores[i].id in R && stores[i].kind == Store
    ensures AllIn(stores, i + 1, S) <==> AllIn(stores, i, S) && stores[i].id in S
  {}

  method DropStores(wl: Worklist, f: Func, stores: seq<Node>, S: set<Id>, ghost mem: set<Id>, ghost R0: set<Id>,
                    ghost g0: Graph)
    returns (ghost g: Graph)
    requires f.Valid() && wl.Valid() && wl.contents <= f.live && g0 == f.Graph() && DropState(g0, g0, mem, R0, S)
    requires NoDuplicates(stores) && ToDrop(stores, 0, f.live, R0, S) && NoneMissed(g0, stores, 0, R0, S)
    requires EndNeeds(g0, R0) && MarkLeast(g0, R0, S)
    modifies wl, f`live, f.live`ins, f.live`uses
    ensures f.Valid() && wl.Valid() && wl.contents <= f.live
    ensures g == f.Graph() && WellFormed(g, mem)
    ensures SameBehaviour(g0, g) && OnlyRead(g0, g)
    ensures AllIn(stores, |stores|, S) ==> g == g0 && f.live == old(f.live) && wl.contents == old(wl.contents)
    ensures !AllIn(stores, |stores|, S) ==> f.live < old(f.live) && wl.contents != {}
  {
    hide *;
    g := g0;
    ghost var R := R0;
    NoneTested(stores, S);
    var i := 0;
    while i < |stores|
      invariant f.Valid() && wl.Valid() && wl.contents <= f.live <= old(f.live) && g == f.Graph()
      invariant DropState(g0, g, mem, R, S)
      invariant i <= |stores| && ToDrop(stores, i, f.live, R, S)
      invariant AllIn(stores, i, S) ==> g == g0 && f.live == old(f.live) && wl.contents == old(wl.contents)
      invariant !AllIn(stores, i, S) ==> f.live < old(f.live) && wl.contents != {}
      invariant NoneMissed(g, stores, i, R, S)
    {
      var store := stores[i];
      OneMore(stores, i, f.live, R, S);
      if store.id !in S {
        StoresShown(f, g, stores, i, R, S);
        ghost var all, was, inR := f.live, g, R;
        g, R := DropOne(wl, f, store, mem, g0, g, R, S);
        ToDropNext(was, stores, i, all, f.live, inR, R, S);
        NoneMissedNext(was, g, stores, i, inR, R, S);
      } else {
        NoneMissedNext(g, g, stores, i, R, R, S);
      }
      i := i + 1;
    }
    DropStateEnd(g0, g0, mem, R0, S);
    DropStateEnd(g0, g, mem, R, S);
    NoneMissedEnd(g0, g, stores, R0, R, S);
  }

  lemma DropStateEnd(g0: Graph, g: Graph, mem: set<Id>, R: set<Id>, S: set<Id>)
    requires DropState(g0, g, mem, R, S)
    ensures WellFormed(g, mem) && Shape(g) && SameBehaviour(g0, g) && InputClosed(g, R)
  {}

  lemma FuncFacts(f: Func, g: Graph)
    requires f.Valid() && g == f.Graph()
    ensures Distinct(f.live) && Shows(g, f.live) && g.nodes.Keys == Ids(f.live) && InputsLive(f.live)
    ensures f.end != null && f.end in f.live && f.end.id == g.end
  {}

  lemma DropStart(g: Graph, mem: set<Id>, R: set<Id>, S: set<Id>)
    requires WellFormed(g, mem) && EndNeeds(g, R) && MarkClosed(g, R, S)
    ensures DropState(g, g, mem, R, S)
    ensures Anchored(g, mem) ==> forall n :: Is(g, n, Store) ==> n in S
  {
    SpineInitially(g, mem, R, S);
    if Anchored(g, mem) {
      AllMarked(g, mem, R, S);
    }
  }

  /** Finds the stores that END reaches, and marks what is read. */
  method MarkAll(wl: Worklist, f: Func, ghost g: Graph) returns (stores: seq<Node>, visited: set<Id>, S: set<Id>)
    requires f.Valid() && g == f.Graph() && Shape(g)
    modifies wl`stack
    ensures EndNeeds(g, visited) && MarkLeast(g, visited, S)
    ensures NoDuplicates(stores) && ToDrop(stores, 0, f.live, visited, S) && NoneMissed(g, stores, 0, visited, S)
    ensures (forall n :: Is(g, n, Store) ==> n in S) ==> AllIn(stores, |stores|, S)
  {
    FuncFacts(f, g);
    hide Func.Valid, Distinct;
    var nodes;
    nodes, visited := PostOrderWalk(f.end, f.live, g);
    stores := Collect(wl, nodes, visited, f.live, g);
    S := MarkReads(wl, visited, f.live, g);
    StoresToDrop(g, nodes, stores, f.live, visited, S);
  }

  /** Drops every store that END depends on but nothing reads. The behaviour stays, and something is left to look at
      if anything was dropped. On a graph as the front end produces it, the pass has nothing to do. */
  method DeadStoreElim(wl: Worklist, f: Func, ghost mem: set<Id>) returns (ghost g: Graph)
    requires f.Valid() && wl.Valid() && wl.contents <= f.live && WellFormed(f.Graph(), mem)
    modifies wl, f`live, f.live`ins, f.live`uses
    ensures f.Valid() && wl.Valid() && wl.contents <= f.live && g == f.Graph()
    ensures WellFormed(g, mem) && SameBehaviour(old(f.Graph()), g) && OnlyRead(old(f.Graph()), g)
    ensures (g == old(f.Graph()) && f.live == old(f.live) && wl.contents == old(wl.contents)) ||
      (f.live < old(f.live) && wl.contents != {})
    ensures Anchored(old(f.Graph()), mem) ==>
      g == old(f.Graph()) && f.live == old(f.live) && wl.contents == old(wl.contents)
  {
    hide Func.Valid, Worklist.Valid, WellFormed, DropState, Anchored, Distinct;
    ghost var g0 := f.Graph();
    ShapeOf(g0, mem);
    var stores, visited, S := MarkAll(wl, f, g0);
    DropStart(g0, mem, visited, S);
    g := DropStores(wl, f, stores, S, mem, visited, g0);
  }

  lemma ShapeOf(g: Graph, mem: set<Id>)
    requires WellFormed(g, mem)
    ensures Shape(g)
  {}

  lemma StoresToDrop(g: Graph, nodes: seq<Node>, stores: seq<Node>, live: set<Node>, R: set<Id>, S: set<Id>)
    requires Shows(g, live) && (forall n :: n in nodes ==> n in live)
    requires forall n :: n in live ==> (n in nodes <==> n.id in R)
    requires forall n :: n in stores <==> n in nodes && n.kind == Store
    requires g.nodes.Keys == Ids(live)
    ensures ToDrop(stores, 0, live, R, S) && NoneMissed(g, stores, 0, R, S)
    ensures (forall n :: Is(g, n, Store) ==> n in S) ==> AllIn(stores, |stores|, S)
  {
    forall n | n in stores
      ensures Is(g, n.id, Store)
    {
      assert g.nodes[n.id] == View(n);
    }
    forall n | Is(g, n, Store) && n in R
      ensures exists k :: 0 <= k < |stores| && stores[k].id == n
    {
      var m :| m in live && m.id == n;
      assert g.nodes[n] == View(m) && m in stores;
    }
  }
}
