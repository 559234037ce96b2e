/** The optimizer's worklist: a sparse set of nodes, and a stack for scratch use. */
module Worklists {
  import opened Nodes

  class Worklist {
    var packed: seq<Node>
    var sparse: seq<int>
    var stack: seq<Node>
    ghost var contents: set<Node>

    /** `packed` lists the nodes of `contents`, each once, and `sparse` maps the id of each to its position. */
    ghost predicate Valid()
      reads this`packed, this`sparse, this`contents
    {
      (forall m :: m in packed ==> m in contents) && (forall m :: m in contents ==> m in packed) &&
      (forall i :: 0 <= i < |packed| ==> packed[i].id < |sparse| && sparse[packed[i].id] == i) &&
      (forall k :: 0 <= k < |sparse| && sparse[k] != -1 ==> 0 <= sparse[k] < |packed| && packed[sparse[k]].id == k)
    }

    constructor ()
      ensures Valid() && contents == {} && packed == []
    {
      packed, sparse, stack, contents := [], [], [], {};
    }

    method Add(node: Node)
      requires Valid() && forall m {:trigger SameId(m, node)} :: m in contents && SameId(m, node) ==> m == node
      modifies this`packed, this`sparse, this`contents
      ensures Valid() && contents == old(contents) + {node}
      ensures packed == old(packed) || packed == old(packed) + [node]
    {
      while node.id >= |sparse|
        invariant Valid() && packed == old(packed)
      {
        sparse := sparse + [-1];
      }
      if sparse[node.id] == -1 {
        sparse := sparse[node.id := |packed|];
        packed, contents := packed + [node], contents + {node};
      } else {
        assert SameId(packed[sparse[node.id]], node);
      }
    }

    method Remove(node: Node)
      requires Valid() && forall m {:trigger SameId(m, node)} :: m in contents && SameId(m, node) ==> m == node
      modifies this`packed, this`sparse, this`contents
      ensures Valid() && contents == old(contents) - {node}
    {
      if node.id >= |sparse| {
        return;
      }
      var index := sparse[node.id];
      if index == -1 {
        return;
      }
      var last := packed[|packed| - 1];
      ghost var was := packed;
      packed := packed[..|packed| - 1];
      if index < |packed| {
        packed := packed[index := last];
      }
      sparse := sparse[last.id := index];
      sparse := sparse[node.id := -1];
      contents := contents - {node};
      assert SameId(was[index], node) && was[index] in old(contents);
      forall m | m in was && m != node
        ensures m in packed
      {
        var i :| 0 <= i < |was| && was[i] == m;
        assert packed[if i == |was| - 1 then index else i] == m;
      }
    }

    method Pop() returns (node: Node)
      requires Valid() && packed != []
      modifies this`packed, this`sparse, this`contents
      ensures Valid() && node in old(contents) && contents == old(contents) - {node}
      ensures old(packed) == packed + [node]
    {
      node := packed[|packed| - 1];
      packed := packed[..|packed| - 1];
      sparse := sparse[node.id := -1];
      contents := contents - {node};
    }

    method Empty() returns (b: bool)
      requires Valid()
      ensures b <==> contents == {}
    {
      b := |packed| == 0;
      if !b {
        assert packed[0] in contents;
      }
    }
  }
}
