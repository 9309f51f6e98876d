/** The intrusive doubly linked list of src/list.c.

    Nodes are real heap objects. The ghost field `nodes` of a list is the sequence of its
    nodes in order; `Valid` ties `first`, `last` and every `prev`/`next` to it. Each operation
    is specified by what it does to that sequence. The calls to `abort` in the source are the
    `assert false` statements below: they are unreachable for nodes that belong to the list. */
module Lists {

  class Node<T> {
    var prev: Node?<T>
    var next: Node?<T>
    const data: T
    ghost var list: List?<T> // the list this node is on

    constructor (data: T)
      ensures this.data == data && prev == null && next == null && list == null
    {
      this.data := data;
      prev, next := null, null;
      list := null;
    }
  }

  ghost predicate Distinct<X>(s: seq<X>) {
    forall i, j :: 0 <= i < j < |s| ==> s[i] != s[j]
  }

  lemma Apart<X>(s: seq<X>, k: nat)
    requires Distinct(s) && k < |s|
    ensures forall i :: 0 <= i < |s| && i != k ==> s[i] != s[k]
  {
  }

  /** `s` with one more element at position `k`. */
  function With<X>(s: seq<X>, k: nat, x: X): (r: seq<X>)
    requires k <= |s|
    ensures |r| == |s| + 1 && r[k] == x
    ensures forall i :: 0 <= i < k ==> r[i] == s[i]
    ensures forall i :: k < i < |r| ==> r[i] == s[i - 1]
  {
    s[..k] + [x] + s[k..]
  }

  lemma DistinctWith<X>(s: seq<X>, k: nat, x: X)
    requires Distinct(s) && k <= |s| && forall i :: 0 <= i < |s| ==> s[i] != x
    ensures Distinct(With(s, k, x))
  {
    hide With;
  }

  /** `s` without the element at position `k`. */
  function Except<X>(s: seq<X>, k: nat): (r: seq<X>)
    requires k < |s|
    ensures |r| == |s| - 1
    ensures forall i :: 0 <= i < k ==> r[i] == s[i]
    ensures forall i :: k <= i < |r| ==> r[i] == s[i + 1]
  {
    s[..k] + s[k + 1..]
  }

  lemma DistinctExcept<X>(s: seq<X>, k: nat)
    requires Distinct(s) && k < |s|
    ensures Distinct(Except(s, k))
  {
    hide Except;
  }

  class List<T> {
    var first: Node?<T>
    var last: Node?<T>
    ghost var nodes: seq<Node<T>>

    ghost predicate Valid()
      reads this, nodes
    {
      && Distinct(nodes)
      && (forall i {:trigger nodes[i].list} :: 0 <= i < |nodes| ==> nodes[i].list == this)
      && (nodes == [] ==> first == null && last == null)
      && (nodes != [] ==>
            && first == nodes[0] && last == nodes[|nodes| - 1]
            && nodes[0].prev == null && nodes[|nodes| - 1].next == null)
      && (forall i {:trigger nodes[i].prev} :: 1 <= i < |nodes| ==> nodes[i].prev == nodes[i - 1])
      && (forall i {:trigger nodes[i].next} :: 0 <= i < |nodes| - 1 ==> nodes[i].next == nodes[i + 1])
    }

    /** AIO4C_LIST_INITIALIZER. */
    constructor ()
      ensures Valid() && nodes == []
    {
      first, last := null, null;
      nodes := [];
    }

    method AddAfter(node: Node<T>, newNode: Node<T>, ghost k: nat)
      requires Valid()
      requires k < |nodes| && nodes[k] == node && newNode.list == null
      modifies this, nodes, newNode
      ensures Valid()
      ensures nodes == With(old(nodes), k + 1, newNode)
    {
      hide Distinct, With;
      Apart(nodes, k);
      if k + 1 < |nodes| {
        Apart(nodes, k + 1);
      }
      DistinctWith(nodes, k + 1, newNode);
      newNode.prev := node;
      newNode.next := node.next;
      if node.next == null {
        last := newNode;
      } else {
        node.next.prev := newNode;
      }
      node.next := newNode;
      newNode.list := this;
      nodes := With(nodes, k + 1, newNode);
    }

    method AddBefore(node: Node<T>, newNode: Node<T>, ghost k: nat)
      requires Valid()
      requires k < |nodes| && nodes[k] == node && newNode.list == null
      modifies this, nodes, newNode
      ensures Valid()
      ensures nodes == With(old(nodes), k, newNode)
    {
      hide Distinct, With;
      Apart(nodes, k);
      if k > 0 {
        Apart(nodes, k - 1);
      }
      DistinctWith(nodes, k, newNode);
      newNode.prev := node.prev;
      newNode.next := node;
      if node.prev == null {
        first := newNode;
      } else {
        node.prev.next := newNode;
      }
      node.prev := newNode;
      newNode.list := this;
      nodes := With(nodes, k, newNode);
    }

    method AddFirst(newNode: Node<T>)
      requires Valid() && newNode.list == null
      modifies this, nodes, newNode
      ensures Valid()
      ensures nodes == [newNode] + old(nodes)
    {
      if first == null {
        first := newNode;
        last := newNode;
        newNode.prev := null;
        newNode.next := null;
        newNode.list := this;
        nodes := [newNode];
      } else {
        AddBefore(first, newNode, 0);
      }
      if first != newNode || newNode.prev != null {
        assert false;
      }
    }

    method AddLast(newNode: Node<T>)
      requires Valid() && newNode.list == null
      modifies this, nodes, newNode
      ensures Valid()
      ensures nodes == old(nodes) + [newNode]
    {
      if last == null {
        AddFirst(newNode);
      } else {
        AddAfter(last, newNode, |nodes| - 1);
      }
      if last != newNode || newNode.next != null {
        assert false;
      }
    }

    predicate Empty()
      requires Valid()
      reads this, nodes
      ensures Empty() <==> |nodes| == 0
    {
      first == null
    }

    method Remove(node: Node<T>, ghost k: nat)
      requires Valid()
      requires k < |nodes| && nodes[k] == node
      modifies this, nodes
      ensures Valid()
      ensures nodes == Except(old(nodes), k)
      ensures node.prev == null && node.next == null && node.list == null
    {
      hide Distinct, Except;
      Apart(nodes, k);
      if k > 0 {
        Apart(nodes, k - 1);
      }
      if k + 1 < |nodes| {
        Apart(nodes, k + 1);
      }
      DistinctExcept(nodes, k);
      if node.prev == null {
        if first != node {
          assert false;
        }
        first := node.next;
      } else {
        node.prev.next := node.next;
      }
      if node.next == null {
        if last != node {
          assert false;
        }
        last := node.prev;
      } else {
        node.next.prev := node.prev;
      }
      node.prev := null;
      node.next := null;
      node.list := null;
      nodes := Except(nodes, k);
    }

    method Pop() returns (node: Node?<T>)
      requires Valid()
      modifies this, nodes
      ensures Valid()
      ensures |old(nodes)| == 0 ==> node == null && nodes == []
      ensures |old(nodes)| > 0 ==> node == old(nodes)[0] && nodes == old(nodes)[1..] && node.list == null
    {
      node := first;
      if node == null {
        return;
      }
      if node.prev != null {
        assert false;
      }
      Remove(node, 0);
      if first == node || node.prev != null || node.next != null || last == node {
        assert false;
      }
    }
  }

  /** Two different lists never share a node, so changing one leaves the other alone. */
  lemma ListsApart<T>(a: List<T>, b: List<T>)
    requires a.Valid() && b.Valid() && a != b
    ensures forall i, j :: 0 <= i < |a.nodes| && 0 <= j < |b.nodes| ==> a.nodes[i] != b.nodes[j]
  {
    forall i, j | 0 <= i < |a.nodes| && 0 <= j < |b.nodes|
      ensures a.nodes[i] != b.nodes[j]
    {
      assert a.nodes[i].list == a && b.nodes[j].list == b;
    }
  }

  lemma Unlisted<T>(l: List<T>, node: Node<T>)
    requires l.Valid() && node.list == null
    ensures node !in l.nodes
  {
  }

  /** ListPop from one list and ListAddLast to another. */
  method PopTo<T>(from: List<T>, to: List<T>) returns (node: Node<T>)
    requires from.Valid() && to.Valid() && from != to && from.nodes != []
    modifies from, from.nodes, to, to.nodes
    ensures from.Valid() && to.Valid()
    ensures node == old(from.nodes)[0]
    ensures from.nodes == old(from.nodes)[1..] && to.nodes == old(to.nodes) + [node]
  {
    hide List.Valid;
    ListsApart(to, from);
    node := from.Pop();
    assert to.Valid();
    ListsApart(from, to);
    to.AddLast(node);
    assert from.Valid();
  }

  /** ListRemove from one list and ListAddLast to another. */
  method RemoveTo<T>(from: List<T>, node: Node<T>, ghost k: nat, to: List<T>)
    requires from.Valid() && to.Valid() && from != to && k < |from.nodes| && from.nodes[k] == node
    modifies from, from.nodes, to, to.nodes
    ensures from.Valid() && to.Valid()
    ensures from.nodes == old(from.nodes)[..k] + old(from.nodes)[k + 1..] && to.nodes == old(to.nodes) + [node]
  {
    hide List.Valid;
    ListsApart(to, from);
    from.Remove(node, k);
    assert to.Valid();
    ListsApart(from, to);
    Unlisted(from, node);
    to.AddLast(node);
    assert from.Valid();
  }

  /** Where a walk starts, and where it goes from the node at position `k`. */
  lemma Walk<T>(l: List<T>, k: nat)
    requires l.Valid()
    ensures l.first == if l.nodes == [] then null else l.nodes[0]
    ensures k < |l.nodes| ==> l.nodes[k].next == if k + 1 < |l.nodes| then l.nodes[k + 1] else null
  {
  }

  /** A walk over `a + b` that stands between the two passes the first element of `b`, keeping it
      or dropping it. */
  lemma Shift<X>(a: seq<X>, b: seq<X>)
    requires b != []
    ensures a + b == (a + [b[0]]) + b[1..]
    ensures (a + b)[|a|] == b[0] && (a + b)[..|a|] + (a + b)[|a| + 1..] == a + b[1..]
  {
  }
}
