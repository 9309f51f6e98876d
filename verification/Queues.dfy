/** The recycling queue of src/queue.c on heap nodes: a busy and a free list, and one item cell
    per node that is overwritten in place. Every method is proved against QueueModel. */
module Queues {
  import opened Lists
  import opened QueueModel

  /** The heap block a node's `data` points to. */
  class Cell<T> {
    var item: QueueItem<T>
    ghost var node: Node?<Cell<T>> // the only node that points here

    constructor ()
      ensures item == Undefined
    {
      item := Undefined;
    }
  }

  class Queue<T> {
    const busy: List<Cell<T>>
    const free: List<Cell<T>>
    var emptied: bool
    var exit: bool
    ghost var items: seq<QueueItem<T>>
    ghost var Repr: set<object>

    ghost predicate Owns(nodes: seq<Node<Cell<T>>>)
      reads this, Repr
    {
      forall i :: 0 <= i < |nodes| ==> nodes[i] in Repr && nodes[i].data in Repr && nodes[i].data.node == nodes[i]
    }

    /** Both lists are well formed, they share no node, every node has its own cell, and the
        cells of the busy list hold the items in order. */
    ghost predicate Valid()
      reads this, Repr
      ensures Valid() ==> this in Repr
    {
      && this in Repr && busy in Repr && free in Repr && busy != free
      && Owns(busy.nodes) && Owns(free.nodes)
      && busy.Valid() && free.Valid()
      && |items| == |busy.nodes|
      && forall i :: 0 <= i < |items| ==> busy.nodes[i].data.item == items[i]
    }

    /** The abstract value of the queue. */
    ghost function View(): QState<T>
      reads this, free
    {
      QState(items, emptied, exit, |free.nodes|)
    }

    constructor ()
      ensures Valid() && fresh(Repr)
      ensures View() == NewQState()
    {
      busy := new List();
      free := new List();
      emptied := false;
      exit := false;
      items := [];
      new;
      Repr := {this, busy, free};
    }

    method Dequeue() returns (dequeued: bool, item: QueueItem<T>)
      requires Valid()
      modifies Repr
      ensures Valid() && Repr == old(Repr)
      ensures var (q, r) := QueueModel.Dequeue(old(View()));
        View() == q && dequeued == r.Some? && (r.Some? ==> item == r.value)
      ensures dequeued <==> !old(emptied) && old(items) != []
      ensures if dequeued then [item] + items == old(items) && (emptied <==> items == [])
              else items == old(items) && !emptied
      ensures exit == old(exit)
    {
      hide List.Valid;
      if emptied {
        emptied := false;
        return false, Undefined;
      }
      if !busy.Empty() {
        var node := PopTo(busy, free);
        item := node.data.item;
        emptied := busy.Empty();
        items := items[1..];
        dequeued := true;
      } else {
        dequeued, item := false, Undefined;
      }
    }

    /** Puts a fresh node with its own cell on the free list. */
    method AddSpare()
      requires Valid()
      modifies this, free, free.nodes
      ensures Valid() && fresh(Repr - old(Repr)) && old(Repr) <= Repr
      ensures View() == old(View()).(free := old(|free.nodes|) + 1)
    {
      hide List.Valid;
      var cell := new Cell();
      var spare := new Node(cell);
      cell.node := spare;
      ListsApart(busy, free);
      free.AddLast(spare);
      assert busy.Valid();
      Repr := Repr + {cell, spare};
    }

    /** Fills the first free node with `item` and moves it to the end of the busy list. */
    method Reuse(item: QueueItem<T>)
      requires Valid() && free.nodes != []
      modifies Repr
      ensures Valid() && Repr == old(Repr)
      ensures View() == old(View()).(items := old(items) + [item], free := old(|free.nodes|) - 1)
    {
      hide List.Valid;
      ListsApart(busy, free);
      var node := PopTo(free, busy);
      node.data.item := item;
      items := items + [item];
    }

    method Enqueue(item: QueueItem<T>) returns (accepted: bool)
      requires Valid()
      modifies Repr
      ensures Valid() && fresh(Repr - old(Repr)) && old(Repr) <= Repr
      ensures (View(), accepted) == QueueModel.Enqueue(old(View()), item)
      ensures accepted <==> !old(exit)
      ensures items == (if accepted then old(items) + [item] else old(items)) && emptied == old(emptied)
      ensures exit <==> old(exit) || item.ExitItem?
    {
      hide List.Valid;
      if exit {
        return false;
      }
      if free.Empty() {
        AddSpare();
      }
      Reuse(item);
      if item.ExitItem? {
        exit := true;
      }
      return true;
    }

    /** The busy node at position `k`, or null past the end. */
    ghost function Busy(k: int): (n: Node?<Cell<T>>)
      requires Valid()
      reads this, Repr
      ensures n != null <==> 0 <= k < |items|
    {
      if 0 <= k < |busy.nodes| then busy.nodes[k] else null
    }

    /** The body of RemoveAll's walk: ask the callback about one busy node, and if it says so move
        that node from the busy list to the end of the free list. */
    method Visit(i: Node<Cell<T>>, ghost k: nat, callback: QueueItem<T> -> bool)
        returns (next: Node?<Cell<T>>, removed: bool)
      requires Valid() && i == Busy(k)
      modifies Repr
      ensures Valid() && Repr == old(Repr)
      ensures (View(), removed) == Asked(old(View()), k, callback)
      ensures next == Busy(if removed then k else k + 1)
    {
      hide List.Valid;
      Walk(busy, k);
      next := i.next;
      removed := callback(i.data.item);
      if removed {
        RemoveTo(busy, i, k, free);
        items := items[..k] + items[k + 1..];
      }
    }

    lemma FirstBusy()
      requires Valid()
      ensures busy in Repr && busy.first == Busy(0)
    {
      Walk(busy, 0);
    }

    method RemoveAll(callback: QueueItem<T> -> bool) returns (removed: bool)
      requires Valid()
      modifies Repr
      ensures Valid() && Repr == old(Repr)
      ensures (View(), removed) == QueueModel.RemoveAll(old(View()), callback)
      ensures removed <==> exists i :: 0 <= i < |old(items)| && callback(old(items)[i])
      ensures forall x :: multiset(items)[x] == if callback(x) then 0 else multiset(old(items))[x]
    {
      hide Without, Valid, Busy, Walking, Asked, QueueModel.RemoveAll;
      FirstBusy();
      removed := false;
      var i := busy.first;
      ghost var start := View();
      ghost var done: seq<QueueItem<T>>, rest := [], items; // looked at, and still ahead
      WalkingStarts(start, callback);
      while i != null
        invariant Valid() && Repr == old(Repr)
        invariant Walking(start, View(), removed, done, rest, callback)
        invariant i == Busy(|items| - |rest|)
        decreases |rest|
      {
        WalkingStep(start, View(), removed, done, rest, callback);
        var drop;
        i, drop := Visit(i, |items| - |rest|, callback);
        removed := removed || drop;
        done, rest := done + [rest[0]], rest[1..];
      }
      WalkingEnds(start, View(), removed, done, rest, callback);
      RemoveAllAnswers(start, callback);
      assert items == QueueModel.RemoveAll(start, callback).0.items;
    }
  }
}
