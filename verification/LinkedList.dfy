/** The hand-written doubly linked list under all queues (src/core/kext/Classes/List.cpp, List.hpp) refines a sequence:
    both walks, both ends and the size agree with it after every operation.
 */
module LinkedList {
  class Node {
    var prev: Node?
    var next: Node?
    /** What the item holds. */
    const key: int

    constructor (key: int)
      ensures this.key == key && prev == null && next == null
    {
      this.key := key;
      prev, next := null, null;
    }
  }

  // ---------------------------------------------------------------------------------------------
  // Links as maps

  type Links = map<Node, Node?>

  ghost function NodeAt(nodes: seq<Node>, i: int): Node? {
    if 0 <= i < |nodes| then nodes[i] else null
  }

  ghost predicate Distinct(nodes: seq<Node>) {
    forall i, j :: 0 <= i < j < |nodes| ==> nodes[i] != nodes[j]
  }

  /** The links of the nodes follow their order, both ways. */
  ghost predicate Chain(nodes: seq<Node>, prevs: Links, nexts: Links) {
    (forall n :: n in nodes ==> n in prevs && n in nexts) &&
    (forall i {:trigger prevs[nodes[i]]} :: 0 <= i < |nodes| ==> prevs[nodes[i]] == NodeAt(nodes, i - 1)) &&
    (forall i {:trigger nexts[nodes[i]]} :: 0 <= i < |nodes| ==> nexts[nodes[i]] == NodeAt(nodes, i + 1))
  }

  ghost function Erased(nodes: seq<Node>, k: nat): seq<Node>
    requires k < |nodes|
  {
    nodes[..k] + nodes[k + 1..]
  }

  ghost function Inserted(nodes: seq<Node>, k: nat, node: Node): seq<Node>
    requires k <= |nodes|
  {
    nodes[..k] + [node] + nodes[k..]
  }

  ghost function Linked(m: Links, k: Node?, v: Node?): Links { if k == null then m else m[k := v] }

  lemma ErasedAt(nodes: seq<Node>, k: nat)
    requires k < |nodes| && Distinct(nodes)
    ensures Distinct(Erased(nodes, k)) && |Erased(nodes, k)| == |nodes| - 1
    ensures forall i :: 0 <= i < |nodes| - 1 ==> Erased(nodes, k)[i] == nodes[if i < k then i else i + 1]
  {
  }

  /** Linking the neighbours of node `k` to each other takes it out. */
  lemma EraseLinks(nodes: seq<Node>, k: nat, prevs: Links, nexts: Links)
    requires Distinct(nodes) && Chain(nodes, prevs, nexts) && k < |nodes|
    ensures var prev, next := NodeAt(nodes, k - 1), NodeAt(nodes, k + 1);
            Distinct(Erased(nodes, k)) && Chain(Erased(nodes, k), Linked(prevs, next, prev), Linked(nexts, prev, next))
  {
    var prev, next := NodeAt(nodes, k - 1), NodeAt(nodes, k + 1);
    var prevs', nexts', r := Linked(prevs, next, prev), Linked(nexts, prev, next), Erased(nodes, k);
    ErasedAt(nodes, k);
    forall i | 0 <= i < |r|
      ensures r[i] in nodes && prevs'[r[i]] == NodeAt(r, i - 1) && nexts'[r[i]] == NodeAt(r, i + 1)
    {
      var j := if i < k then i else i + 1;
      assert r[i] == nodes[j];
      assert prevs[nodes[j]] == NodeAt(nodes, j - 1) && nexts[nodes[j]] == NodeAt(nodes, j + 1);
    }
  }

  lemma ErasedEnds(nodes: seq<Node>, k: nat)
    requires k < |nodes| && Distinct(nodes)
    ensures NodeAt(Erased(nodes, k), 0) == if nodes[0] == nodes[k] then NodeAt(nodes, k + 1) else nodes[0]
    ensures NodeAt(Erased(nodes, k), |nodes| - 2) ==
            if nodes[|nodes| - 1] == nodes[k] then NodeAt(nodes, k - 1) else nodes[|nodes| - 1]
    ensures NodeAt(Erased(nodes, k), k) == NodeAt(nodes, k + 1) && |Erased(nodes, k)| == |nodes| - 1
  {
    ErasedAt(nodes, k);
  }

  lemma InsertedAt(nodes: seq<Node>, k: nat, node: Node)
    requires k <= |nodes| && Distinct(nodes) && node !in nodes
    ensures Distinct(Inserted(nodes, k, node)) && |Inserted(nodes, k, node)| == |nodes| + 1
  {
  }

  lemma InsertedNodeAt(nodes: seq<Node>, k: nat, node: Node, m: int)
    requires k <= |nodes|
    ensures NodeAt(Inserted(nodes, k, node), m) ==
            if m < k then NodeAt(nodes, m) else if m == k then node else NodeAt(nodes, m - 1)
  {
  }

  /** The new links of the node that was number `j`. */
  lemma InsertedLink(nodes: seq<Node>, k: nat, node: Node, prevs: Links, nexts: Links, j: nat)
    requires Distinct(nodes) && Chain(nodes, prevs, nexts) && node !in nodes && k <= |nodes| && j < |nodes|
    ensures var prev, next, n := NodeAt(nodes, k - 1), NodeAt(nodes, k), nodes[j];
            n in prevs && n in nexts && n != node &&
            Linked(prevs, next, node)[node := prev][n] == (if j == k then node else NodeAt(nodes, j - 1)) &&
            Linked(nexts, prev, node)[node := next][n] == (if j == k - 1 then node else NodeAt(nodes, j + 1))
  {
    assert nodes[j] in nodes;
    assert prevs[nodes[j]] == NodeAt(nodes, j - 1) && nexts[nodes[j]] == NodeAt(nodes, j + 1);
    assert nodes[j] == NodeAt(nodes, k) <==> j == k;
    assert nodes[j] == NodeAt(nodes, k - 1) <==> j == k - 1;
  }

  lemma InsertedStep(nodes: seq<Node>, k: nat, node: Node, prevs: Links, nexts: Links, i: nat)
    requires Distinct(nodes) && Chain(nodes, prevs, nexts) && node !in nodes && k <= |nodes| && i <= |nodes|
    ensures var prev, next, r := NodeAt(nodes, k - 1), NodeAt(nodes, k), Inserted(nodes, k, node);
            var prevs', nexts' := Linked(prevs, next, node)[node := prev], Linked(nexts, prev, node)[node := next];
            |r| == |nodes| + 1 && r[i] in prevs' && r[i] in nexts' &&
            prevs'[r[i]] == NodeAt(r, i - 1) && nexts'[r[i]] == NodeAt(r, i + 1)
  {
    InsertedNodeAt(nodes, k, node, i - 1);
    InsertedNodeAt(nodes, k, node, i);
    InsertedNodeAt(nodes, k, node, i + 1);
    if i < k {
      InsertedLink(nodes, k, node, prevs, nexts, i);
    } else if i > k {
      InsertedLink(nodes, k, node, prevs, nexts, i - 1);
    }
  }

  /** Putting a node in at `k` links it with the nodes before and behind. */
  lemma ChainInsert(nodes: seq<Node>, k: nat, node: Node, prevs: Links, nexts: Links)
    requires Distinct(nodes) && Chain(nodes, prevs, nexts) && k <= |nodes| && node !in nodes
    ensures var prev, next := NodeAt(nodes, k - 1), NodeAt(nodes, k);
            Distinct(Inserted(nodes, k, node)) &&
            Chain(Inserted(nodes, k, node), Linked(prevs, next, node)[node := prev], Linked(nexts, prev, node)[node := next])
  {
    var prev, next := NodeAt(nodes, k - 1), NodeAt(nodes, k);
    var prevs', nexts', r := Linked(prevs, next, node)[node := prev], Linked(nexts, prev, node)[node := next], Inserted(nodes, k, node);
    InsertedAt(nodes, k, node);
    forall i | 0 <= i < |r|
      ensures r[i] in prevs' && r[i] in nexts' && prevs'[r[i]] == NodeAt(r, i - 1) && nexts'[r[i]] == NodeAt(r, i + 1)
    {
      InsertedStep(nodes, k, node, prevs, nexts, i);
    }
  }

  lemma InsertedEnds(nodes: seq<Node>, k: nat, node: Node)
    requires k <= |nodes|
    ensures NodeAt(Inserted(nodes, k, node), 0) == if k == 0 then node else nodes[0]
    ensures NodeAt(Inserted(nodes, k, node), |nodes|) == if k == |nodes| then node else nodes[|nodes| - 1]
    ensures |Inserted(nodes, k, node)| == |nodes| + 1
    ensures Inserted(nodes, |nodes|, node) == nodes + [node] && Inserted(nodes, 0, node) == [node] + nodes
  {
  }

  // ---------------------------------------------------------------------------------------------
  // The list

  ghost function Prevs(repr: set<Node>): Links
    reads repr
  {
    map n | n in repr :: n.prev
  }

  ghost function Nexts(repr: set<Node>): Links
    reads repr
  {
    map n | n in repr :: n.next
  }

  function Keys(nodes: seq<Node>): (r: seq<int>)
    ensures |r| == |nodes| && forall i :: 0 <= i < |r| ==> r[i] == nodes[i].key
  {
    seq(|nodes|, i requires 0 <= i < |nodes| => nodes[i].key)
  }

  function WithoutKey(nodes: seq<Node>, key: int): seq<Node> {
    if nodes == [] then []
    else if nodes[0].key == key then WithoutKey(nodes[1..], key)
    else [nodes[0]] + WithoutKey(nodes[1..], key)
  }

  lemma RestErased(nodes: seq<Node>, i: nat)
    requires i < |nodes|
    ensures Erased(nodes, i)[..i] == nodes[..i] && Erased(nodes, i)[i..] == nodes[i + 1..]
  {
  }

  lemma RestKept(nodes: seq<Node>, i: nat)
    requires i < |nodes|
    ensures nodes[..i] + [nodes[i]] == nodes[..i + 1]
  {
  }

  class List {
    var front: Node?
    var back: Node?
    var size: nat
    ghost var nodes: seq<Node>
    /** All nodes that have ever been in the list. */
    ghost var repr: set<Node>

    ghost predicate Valid()
      reads this, repr
    {
      size == |nodes| && front == NodeAt(nodes, 0) && back == NodeAt(nodes, |nodes| - 1) &&
      Distinct(nodes) && (forall n :: n in nodes ==> n in repr) && Chain(nodes, Prevs(repr), Nexts(repr))
    }

    constructor ()
      ensures Valid() && nodes == [] && repr == {}
    {
      front, back, size, nodes, repr := null, null, 0, [], {};
    }

    /** Takes the node out and gives the one behind it. */
    method Erase(p: Node, ghost k: nat) returns (next: Node?)
      requires Valid() && k < |nodes| && nodes[k] == p
      modifies this, repr
      ensures Valid() && nodes == Erased(old(nodes), k) && repr == old(repr) && next == NodeAt(nodes, k)
    {
      ErasedEnds(nodes, k);
      Unlink(p, k);
      next := p.next;
      if front == p {
        front := p.next;
      }
      if back == p {
        back := p.prev;
      }
      size := size - 1;
      nodes := Erased(nodes, k);
    }

    /** The neighbours of a node are linked to each other. */
    method Unlink(p: Node, ghost k: nat)
      requires Valid() && k < |nodes| && nodes[k] == p
      modifies repr
      ensures Distinct(Erased(nodes, k)) && Chain(Erased(nodes, k), Prevs(repr), Nexts(repr))
      ensures p.next == NodeAt(nodes, k + 1) && p.prev == NodeAt(nodes, k - 1)
    {
      EraseLinks(nodes, k, Prevs(repr), Nexts(repr));
      assert Prevs(repr)[nodes[k]] == NodeAt(nodes, k - 1) && Nexts(repr)[nodes[k]] == NodeAt(nodes, k + 1);
      ghost var prevs, nexts := Linked(Prevs(repr), p.next, p.prev), Linked(Nexts(repr), p.prev, p.next);
      if p.prev != null {
        p.prev.next := p.next;
      }
      if p.next != null {
        p.next.prev := p.prev;
      }
      assert Prevs(repr) == prevs && Nexts(repr) == nexts;
    }

    /** Puts a new node before `p`, or in front if `p` is null.  Before the front node the new node's own `prev` is left
        alone, so that must be null already, as it is in a new node. */
    method Insert(p: Node?, node: Node, ghost k: nat)
      requires Valid() && node !in repr
      requires p == null ==> k == 0
      requires p != null ==> k < |nodes| && nodes[k] == p && (k == 0 ==> node.prev == null)
      modifies this, repr, node
      ensures Valid() && nodes == Inserted(old(nodes), k, node) && repr == old(repr) + {node}
    {
      InsertedEnds(nodes, k, node);
      if p == null {
        LinkFront(node);
      } else {
        LinkBefore(p, node, k);
      }
      size := size + 1;
      nodes := Inserted(nodes, k, node);
      repr := repr + {node};
    }

    method LinkFront(node: Node)
      requires Valid() && node !in repr
      modifies this`front, this`back, repr, node
      ensures front == node && back == if old(back) == null then node else old(back)
      ensures Distinct(Inserted(nodes, 0, node)) &&
              Chain(Inserted(nodes, 0, node), Prevs(repr + {node}), Nexts(repr + {node}))
    {
      ChainInsert(nodes, 0, node, Prevs(repr), Nexts(repr));
      ghost var prevs, nexts := Linked(Prevs(repr), front, node)[node := null], Nexts(repr)[node := front];
      if front != null {
        front.prev := node;
      }
      node.prev := null;
      node.next := front;
      front := node;
      if back == null {
        back := front;
      }
      assert Prevs(repr + {node}) == prevs && Nexts(repr + {node}) == nexts;
    }

    method LinkBefore(p: Node, node: Node, ghost k: nat)
      requires Valid() && node !in repr && k < |nodes| && nodes[k] == p && (k == 0 ==> node.prev == null)
      modifies this`front, repr, node
      ensures front == if k == 0 then node else old(front)
      ensures Distinct(Inserted(nodes, k, node)) &&
              Chain(Inserted(nodes, k, node), Prevs(repr + {node}), Nexts(repr + {node}))
    {
      ChainInsert(nodes, k, node, Prevs(repr), Nexts(repr));
      assert Prevs(repr)[nodes[k]] == NodeAt(nodes, k - 1);
      ghost var prevs, nexts := Linked(Prevs(repr), p, node)[node := p.prev], Linked(Nexts(repr), p.prev, node)[node := p];
      node.next := p;
      if p.prev != null {
        node.prev := p.prev;
        p.prev.next := node;
      } else {
        front := node;
      }
      p.prev := node;
      assert Prevs(repr + {node}) == prevs && Nexts(repr + {node}) == nexts;
    }

    method PushBack(node: Node)
      requires Valid() && node !in repr
      modifies this, repr, node
      ensures Valid() && nodes == old(nodes) + [node] && repr == old(repr) + {node}
    {
      InsertedEnds(nodes, |nodes|, node);
      LinkBack(node);
      back := node;
      if front == null {
        front := back;
      }
      size := size + 1;
      nodes := Inserted(nodes, |nodes|, node);
      repr := repr + {node};
    }

    method LinkBack(node: Node)
      requires Valid() && node !in repr
      modifies repr, node
      ensures Distinct(Inserted(nodes, |nodes|, node)) &&
              Chain(Inserted(nodes, |nodes|, node), Prevs(repr + {node}), Nexts(repr + {node}))
    {
      ghost var prevs, nexts := Prevs(repr)[node := back], Linked(Nexts(repr), back, node)[node := null];
      ChainInsert(nodes, |nodes|, node, Prevs(repr), Nexts(repr));
      assert Linked(Prevs(repr), null, node) == Prevs(repr);
      assert Chain(Inserted(nodes, |nodes|, node), prevs, nexts);
      if back != null {
        back.next := node;
      }
      node.prev := back;
      node.next := null;
      assert Prevs(repr + {node}) == prevs && Nexts(repr + {node}) == nexts;
    }

    method PushFront(node: Node)
      requires Valid() && node !in repr
      modifies this, repr, node
      ensures Valid() && nodes == [node] + old(nodes) && repr == old(repr) + {node}
    {
      Insert(null, node, 0);
    }

    method Clear()
      requires Valid()
      modifies this, repr
      ensures Valid() && nodes == [] && repr == old(repr)
    {
      while front != null
        invariant Valid() && repr == old(repr)
        decreases |nodes|
      {
        var next := Erase(front, 0);
      }
    }

    /** The walk from the front. */
    method Forward() returns (keys: seq<int>)
      requires Valid()
      ensures keys == Keys(nodes)
    {
      keys := [];
      var p, i := front, 0;
      while p != null
        invariant 0 <= i <= |nodes| && p == NodeAt(nodes, i) && keys == Keys(nodes)[..i]
        decreases |nodes| - i
      {
        assert Nexts(repr)[nodes[i]] == NodeAt(nodes, i + 1);
        keys := keys + [p.key];
        p := p.next;
        i := i + 1;
      }
    }

    /** The walk from the back. */
    method Backward() returns (keys: seq<int>)
      requires Valid()
      ensures keys == Keys(nodes)
    {
      keys := [];
      var p, i := back, size;
      while p != null
        invariant 0 <= i <= |nodes| && p == NodeAt(nodes, i - 1) && keys == Keys(nodes)[i..]
        decreases i
      {
        assert Prevs(repr)[nodes[i - 1]] == NodeAt(nodes, i - 2);
        keys := [p.key] + keys;
        p := p.prev;
        i := i - 1;
      }
    }

    /** Erasing while walking, as PressDownKeys::remove does: exactly the nodes with this key go. */
    method RemoveAll(key: int)
      requires Valid()
      modifies this, repr
      ensures Valid() && nodes == WithoutKey(old(nodes), key) && repr == old(repr)
    {
      var p := front;
      ghost var i, rest := 0, nodes;
      while p != null
        invariant Valid() && repr == old(repr)
        invariant 0 <= i <= |nodes| && rest == nodes[i..] && p == NodeAt(nodes, i)
        invariant WithoutKey(old(nodes), key) == nodes[..i] + WithoutKey(rest, key)
        decreases |rest|
      {
        assert Nexts(repr)[nodes[i]] == NodeAt(nodes, i + 1);
        assert rest[0] == p && rest[1..] == nodes[i + 1..];
        if p.key == key {
          RestErased(nodes, i);
          p := Erase(p, i);
        } else {
          RestKept(nodes, i);
          p := p.next;
          i := i + 1;
        }
        rest := rest[1..];
      }
      assert nodes[..i] == nodes;
    }
  }
}
