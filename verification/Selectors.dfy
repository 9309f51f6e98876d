/** The selector of src/selector.c on the heap: two linked lists of keys, a dense array of poll
    slots kept in step with the busy list, and the cursor of the sweep. Every method is proved
    against SelectorModel. */
module Selectors {
  import opened Lists
  import opened QueueModel
  import opened Model = SelectorModel

  /** struct pollfd. */
  datatype Poll = Poll(fd: int, events: bv16, revents: bv16)

  const NO_POLL := Poll(0, 0, 0)

  /** struct s_SelectionKey; the void pointer `attachment` may be null. */
  class SelectionKey<P> {
    var operation: bv16
    var node: Node?<SelectionKey<P>>
    var fd: int
    var attachment: Option<P>
    var poll: int
    var count: int
    var curCount: int
    var result: bv16
    ghost var home: Node?<SelectionKey<P>> // the only node that points here

    constructor ()
      ensures node == null && home == null && result == 0
    {
      operation, node, fd, attachment := 0, null, 0, None;
      poll, count, curCount, result := -1, 0, 0, 0;
      home := null;
    }

    ghost predicate Cleared()
      reads this
    {
      && operation == 0 && node == null && fd == 0 && attachment == None
      && poll == 0 && count == 0 && curCount == 0 && result == 0
    }

    /** memset(key, 0, sizeof(SelectionKey)). */
    method Clear()
      modifies this
      ensures Cleared() && home == old(home)
    {
      operation, node, fd, attachment := 0, null, 0, None;
      poll, count, curCount, result := 0, 0, 0, 0;
    }

    /** The fields Register gives a new key; `result` is left as it was. */
    method Set(poll: int, node: Node<SelectionKey<P>>, operation: bv16, fd: int, attachment: Option<P>)
      modifies this
      ensures home == old(home) && result == old(result)
      ensures Shows(Key(fd, operation, attachment, 0, 0, result, 0), node, poll)
    {
      this.poll := poll;
      this.node := node;
      this.operation := operation;
      this.fd := fd;
      this.attachment := attachment;
      count := 0;
      curCount := 0;
    }

    /** This key is a busy one, on `node` and with slot `poll`, with the fields `view` says. */
    ghost predicate Shows(view: Key<Option<P>>, node: Node<SelectionKey<P>>, poll: int)
      reads this
    {
      && this.node == node && this.poll == poll
      && fd == view.fd && operation == view.operation && attachment == view.attachment
      && count == view.count && curCount == view.curCount && result == view.result
    }
  }

  /** NewNode(_NewSelectionKey()). */
  method NewKeyNode<P>() returns (node: Node<SelectionKey<P>>)
    ensures fresh(node) && fresh(node.data) && node.list == null
    ensures node.data.home == node && node.data.result == 0
  {
    var key := new SelectionKey();
    node := new Node(key);
    key.home := node;
  }

  class Selector<P> {
    const pipe: int
    const busyKeys: List<SelectionKey<P>>
    const freeKeys: List<SelectionKey<P>>
    var curKey: SelectionKey?<P>
    var polls: array<Poll>
    var numPolls: int
    var maxPolls: int
    ghost var keys: seq<Key<Option<P>>>
    ghost var cursor: Cursor
    ghost var Repr: set<object>

    ghost predicate Owns(nodes: seq<Node<SelectionKey<P>>>)
      reads this, Repr
    {
      forall i :: 0 <= i < |nodes| ==> nodes[i] in Repr && nodes[i].data in Repr && nodes[i].data.home == nodes[i]
    }

    /** The k-th busy key shows `keys[k]`. */
    ghost predicate KeysShow()
      reads `keys, busyKeys, set n | n in busyKeys.nodes :: n.data
    {
      && |keys| <= |busyKeys.nodes|
      && forall k :: 0 <= k < |keys| ==> busyKeys.nodes[k].data.Shows(keys[k], busyKeys.nodes[k], k + 1)
    }

    /** Poll slot k + 1 mirrors the k-th key, slot 0 is the pipe, slots past the last key are zero. */
    ghost predicate PollsMirror()
      reads `keys, `numPolls, `maxPolls, `polls, polls
    {
      && numPolls == 1 + |keys| <= polls.Length == maxPolls
      && (forall k :: 0 <= k < |keys| ==> polls[k + 1] == Poll(keys[k].fd, keys[k].operation, keys[k].revents))
      && polls[0].fd == pipe && polls[0].events == OP_READ
      && (forall j :: numPolls <= j < polls.Length ==> polls[j] == NO_POLL)
    }

    ghost predicate FreeCleared()
      reads freeKeys, set n | n in freeKeys.nodes :: n.data
    {
      forall k :: 0 <= k < |freeKeys.nodes| ==> freeKeys.nodes[k].data.Cleared()
    }

    /** The lists and who owns what. */
    ghost predicate Shape()
      reads this, Repr
      ensures Shape() ==> this in Repr
    {
      && this in Repr && busyKeys in Repr && freeKeys in Repr && polls in Repr && busyKeys != freeKeys
      && Owns(busyKeys.nodes) && Owns(freeKeys.nodes)
      && busyKeys.Valid() && freeKeys.Valid()
    }

    /** The structure, with possibly a busy node more than there are registered keys. */
    ghost predicate Core()
      reads this, Repr
      ensures Core() ==> this in Repr
    {
      Shape() && KeysShow() && PollsMirror() && FreeCleared() && DistinctFds(keys) && CursorShows()
    }

    ghost predicate Full()
      reads this, Repr
      ensures Full() ==> this in Repr
    {
      Core() && |busyKeys.nodes| == |keys| && maxPolls == numPolls + |freeKeys.nodes|
    }

    ghost predicate Valid()
      reads this, Repr
      ensures Valid() ==> this in Repr
    {
      Full() && Counted(keys)
    }

    ghost predicate CursorShows()
      reads `cursor, `curKey, busyKeys, freeKeys
    {
      match cursor
      case Nowhere => curKey == null
      case Stale => exists k :: 0 <= k < |freeKeys.nodes| && freeKeys.nodes[k].data == curKey
      case At(k) => k < |busyKeys.nodes| && busyKeys.nodes[k].data == curKey
    }

    /** Different nodes have different keys. */
    lemma KeysApart()
      requires Shape()
      ensures forall i, j :: 0 <= i < j < |busyKeys.nodes| ==> busyKeys.nodes[i].data != busyKeys.nodes[j].data
      ensures forall i, j :: 0 <= i < |busyKeys.nodes| && 0 <= j < |freeKeys.nodes| ==>
        busyKeys.nodes[i].data != freeKeys.nodes[j].data
    {
      ListsApart(busyKeys, freeKeys);
      forall i, j | 0 <= i < j < |busyKeys.nodes|
        ensures busyKeys.nodes[i].data != busyKeys.nodes[j].data
      {
        assert busyKeys.nodes[i] != busyKeys.nodes[j];
      }
    }

    /** The key at position `k` is on no other node. */
    lemma KeyApart(k: nat)
      requires Shape() && k < |busyKeys.nodes|
      ensures forall j :: 0 <= j < |busyKeys.nodes| && j != k ==> busyKeys.nodes[j].data != busyKeys.nodes[k].data
      ensures forall j :: 0 <= j < |freeKeys.nodes| ==> freeKeys.nodes[j].data != busyKeys.nodes[k].data
    {
      KeysApart();
    }

    /** NewSelector, with the pipe already open. */
    constructor (pipe: int)
      ensures Valid() && fresh(Repr)
      ensures keys == [] && cursor == Nowhere && this.pipe == pipe
    {
      hide List.Valid;
      this.pipe := pipe;
      busyKeys := new List();
      freeKeys := new List();
      curKey := null;
      numPolls, maxPolls := 1, 1;
      keys, cursor := [], Nowhere;
      var slots := new Poll[1][Poll(pipe, OP_READ, 0)];
      polls := slots;
      new;
      Repr := {this, busyKeys, freeKeys, polls};
    }

    /** The search loop of Register. */
    method FindKey(fd: int) returns (present: Node?<SelectionKey<P>>)
      requires Valid()
      ensures var k := Find(keys, fd);
        present == if k < |keys| then busyKeys.nodes[k] else null
    {
      present := busyKeys.first;
      ghost var k := 0;
      while present != null
        invariant 0 <= k <= |keys|
        invariant present == if k < |keys| then busyKeys.nodes[k] else null
        invariant forall i :: 0 <= i < k ==> keys[i].fd != fd
        decreases |keys| - k
      {
        Walk(busyKeys, k);
        if present.data.fd == fd {
          break;
        }
        present := present.next;
        k := k + 1;
      }
      FindLast(k, fd);
    }

    lemma FindLast(k: nat, fd: int)
      requires k <= |keys| && (forall i :: 0 <= i < k ==> keys[i].fd != fd) && (k < |keys| ==> keys[k].fd == fd)
      ensures Find(keys, fd) == k
    {
    }

    /** A fresh key on a fresh node at the end of the busy list. */
    method AddFresh() returns (node: Node<SelectionKey<P>>)
      requires Full() && freeKeys.nodes == []
      modifies this, busyKeys, busyKeys.nodes
      ensures Core() && fresh(Repr - old(Repr)) && old(Repr) <= Repr
      ensures |busyKeys.nodes| == |keys| + 1 && node == busyKeys.nodes[|keys|] && node.data.result == 0
      ensures freeKeys.nodes == []
      ensures keys == old(keys) && numPolls == old(numPolls) && maxPolls == old(maxPolls)
      ensures cursor == old(cursor) && polls == old(polls)
    {
      hide List.Valid, SelectionKey.Shows, DistinctFds, PollsMirror, SelectionKey.Cleared;
      node := NewKeyNode();
      ListsApart(freeKeys, busyKeys);
      busyKeys.AddLast(node);
      assert freeKeys.Valid();
      Repr := Repr + {node.data, node};
      assert Shape() && KeysShow();
    }

    /** A recycled key, moved from the free list to the end of the busy list. */
    method Recycle() returns (node: Node<SelectionKey<P>>)
      requires Full() && freeKeys.nodes != []
      modifies this, busyKeys, busyKeys.nodes, freeKeys, freeKeys.nodes
      ensures Core() && Repr == old(Repr)
      ensures |busyKeys.nodes| == |keys| + 1 && node == busyKeys.nodes[|keys|] && node.data.result == 0
      ensures |freeKeys.nodes| == old(|freeKeys.nodes|) - 1
      ensures keys == old(keys) && numPolls == old(numPolls) && maxPolls == old(maxPolls) && polls == old(polls)
      ensures cursor == old(cursor) || (old(cursor).Stale? && cursor == At(|keys|))
    {
      hide List.Valid, SelectionKey.Shows, DistinctFds;
      node := PopTo(freeKeys, busyKeys);
      if cursor.Stale? && curKey == node.data {
        cursor := At(|keys|);
      }
      assert Shape() && PollsMirror() && FreeCleared();
      assert KeysShow();
      assert CursorShows();
    }

    /** The realloc of Register: one more slot, zeroed. */
    method GrowPolls()
      requires Core()
      modifies this
      ensures Core() && fresh(Repr - old(Repr)) && old(Repr) <= Repr
      ensures maxPolls == old(maxPolls) + 1 && keys == old(keys) && numPolls == old(numPolls)
      ensures cursor == old(cursor) && fresh(polls)
    {
      hide List.Valid, SelectionKey.Shows, DistinctFds;
      var slots := new Poll[maxPolls + 1](i requires 0 <= i reads this, polls =>
        if i < polls.Length then polls[i] else NO_POLL);
      polls := slots;
      Repr := Repr + {slots};
      maxPolls := maxPolls + 1;
      assert Shape() && PollsMirror() && FreeCleared() && CursorShows();
      assert KeysShow();
    }

    /** Fills in the key on the node that TakeNode provided, and its poll slot. */
    method Fill(node: Node<SelectionKey<P>>, operation: bv16, fd: int, attachment: Option<P>)
      requires Core() && |busyKeys.nodes| == |keys| + 1 && node == busyKeys.nodes[|keys|]
      requires maxPolls == numPolls + 1 + |freeKeys.nodes|
      requires forall i :: 0 <= i < |keys| ==> keys[i].fd != fd
      modifies this, node.data, polls
      ensures Full() && Repr == old(Repr)
      ensures keys == old(keys) + [Key(fd, operation, attachment, 0, 0, old(node.data.result), 0)]
      ensures cursor == old(cursor) && maxPolls == old(maxPolls) && busyKeys.nodes == old(busyKeys.nodes)
    {
      hide List.Valid, SelectionKey.Shows;
      KeysApart();
      node.data.Set(numPolls, node, operation, fd, attachment);
      polls[numPolls] := Poll(fd, operation, 0);
      numPolls := numPolls + 1;
      keys := keys + [Key(fd, operation, attachment, 0, 0, node.data.result, 0)];
      assert Shape() && KeysShow();
      assert PollsMirror() && FreeCleared();
    }

    /** The busy keys show `ks`. */
    ghost predicate KeysShowAs(ks: seq<Key<Option<P>>>)
      reads busyKeys, set n | n in busyKeys.nodes :: n.data
    {
      && |ks| <= |busyKeys.nodes|
      && forall k :: 0 <= k < |ks| ==> busyKeys.nodes[k].data.Shows(ks[k], busyKeys.nodes[k], k + 1)
    }

    /** What the poll slots depend on is the same. */
    static ghost predicate SameSlots(a: seq<Key<Option<P>>>, b: seq<Key<Option<P>>>) {
      && |a| == |b|
      && forall i :: 0 <= i < |a| ==> a[i].fd == b[i].fd && a[i].operation == b[i].operation && a[i].revents == b[i].revents
    }

    static lemma SameFds(a: seq<Key<Option<P>>>, b: seq<Key<Option<P>>>)
      requires DistinctFds(a) && |a| == |b| && forall i :: 0 <= i < |a| ==> a[i].fd == b[i].fd
      ensures DistinctFds(b)
    {
    }

    /** The ghost copy follows a change of one key's own fields. */
    method Follow(ghost ks: seq<Key<Option<P>>>)
      requires Shape() && PollsMirror() && FreeCleared() && DistinctFds(keys) && CursorShows() && KeysShowAs(ks)
      requires SameSlots(keys, ks) && |busyKeys.nodes| == |keys| && maxPolls == numPolls + |freeKeys.nodes|
      modifies `keys
      ensures Full() && keys == ks
    {
      hide List.Valid, SelectionKey.Shows, SelectionKey.Cleared;
      keys := ks;
    }

    /** The key at position `k` gets another count. */
    method SetCount(key: SelectionKey<P>, ghost k: nat, count: int)
      requires Full() && k < |keys| && busyKeys.nodes[k].data == key
      modifies key`count
      ensures Shape() && FreeCleared() && key.count == count
      ensures KeysShowAs(keys[k := keys[k].(count := count)])
    {
      hide List.Valid, SelectionKey.Cleared, PollsMirror, DistinctFds, CursorShows;
      KeyApart(k);
      key.count := count;
    }

    /** And another result and current count. */
    method SetResult(key: SelectionKey<P>, ghost k: nat, result: bv16, curCount: int)
      requires Full() && k < |keys| && busyKeys.nodes[k].data == key
      modifies key`result, key`curCount
      ensures Shape() && FreeCleared()
      ensures KeysShowAs(keys[k := keys[k].(result := result, curCount := curCount)])
    {
      hide List.Valid, SelectionKey.Cleared, PollsMirror, DistinctFds, CursorShows;
      KeyApart(k);
      key.result := result;
      key.curCount := curCount;
    }

    /** `key->count++`. */
    method Raise(key: SelectionKey<P>, ghost k: nat)
      requires Full() && k < |keys| && busyKeys.nodes[k].data == key
      modifies `keys, key`count
      ensures Full()
      ensures keys == old(keys)[k := old(keys)[k].(count := old(keys)[k].count + 1)]
    {
      hide Shape, KeysShow, PollsMirror, FreeCleared, DistinctFds, KeysShowAs;
      KeyFields(k);
      SetCount(key, k, key.count + 1);
      Follow(keys[k := keys[k].(count := keys[k].count + 1)]);
    }

    /** The part of Register for a descriptor that has no key yet. */
    method AddKey(operation: bv16, fd: int, attachment: Option<P>) returns (node: Node<SelectionKey<P>>)
      requires Full() && forall i :: 0 <= i < |keys| ==> keys[i].fd != fd
      modifies Repr
      ensures Full() && fresh(Repr - old(Repr)) && old(Repr) <= Repr
      ensures keys == old(keys) + [Key(fd, operation, attachment, 0, 0, 0, 0)]
      ensures node == busyKeys.nodes[|old(keys)|]
      ensures maxPolls == Model.Max(old(maxPolls), numPolls)
      ensures cursor == old(cursor) || (old(cursor).Stale? && cursor == At(|old(keys)|))
    {
      hide List.Valid, KeysShow, PollsMirror, FreeCleared, CursorShows, DistinctFds;
      assert numPolls <= maxPolls;
      if freeKeys.Empty() {
        node := AddFresh();
      } else {
        node := Recycle();
      }
      if numPolls == maxPolls {
        GrowPolls();
      }
      Fill(node, operation, fd, attachment);
    }

    method Register(operation: bv16, fd: int, attachment: Option<P>) returns (key: SelectionKey<P>)
      requires Valid()
      modifies Repr
      ensures Valid() && fresh(Repr - old(Repr)) && old(Repr) <= Repr
      ensures keys == Model.Register(old(keys), operation, fd, attachment)
      ensures RegisteredOnceMore(old(keys), keys, operation, fd, attachment)
      ensures var k := Find(keys, fd); k < |busyKeys.nodes| && key == busyKeys.nodes[k].data
      ensures cursor == old(cursor) || (old(cursor).Stale? && cursor == At(|keys| - 1))
    {
      hide List.Valid, KeysShow, PollsMirror, FreeCleared, CursorShows, DistinctFds, RegisteredOnceMore, Model.Register,
        Counted;
      var present := FindKey(fd);
      ghost var was := keys;
      ghost var k := Find(keys, fd);
      RegisterIs(keys, operation, fd, attachment);
      if present == null {
        present := AddKey(operation, fd, attachment);
      }
      RegisterSteps(was, keys, operation, fd, attachment);
      key := present.data;
      Raise(key, k);
    }

    /** The slot of the k-th key while the slots from `i` on still have to move down by one. */
    static function SlotOf(k: nat, i: int): int {
      if k < i - 1 then k + 1 else k + 2
    }

    ghost predicate KeysShowGap(i: int)
      reads `keys, busyKeys, set n | n in busyKeys.nodes :: n.data
    {
      && |keys| == |busyKeys.nodes|
      && forall k :: 0 <= k < |keys| ==> busyKeys.nodes[k].data.Shows(keys[k], busyKeys.nodes[k], SlotOf(k, i))
    }

    /** Like PollsMirror, with a hole at slot `i` and the later slots one too high. */
    ghost predicate PollsGap(ks: seq<Key<Option<P>>>, i: int)
      reads `numPolls, `maxPolls, `polls, polls
    {
      && numPolls == 2 + |ks| <= polls.Length == maxPolls && 1 <= i < numPolls
      && (forall k :: 0 <= k < |ks| ==> polls[SlotOf(k, i)] == Poll(ks[k].fd, ks[k].operation, ks[k].revents))
      && polls[0].fd == pipe && polls[0].events == OP_READ
      && (forall j :: numPolls <= j < polls.Length ==> polls[j] == NO_POLL)
    }

    lemma WillGap(k: nat)
      requires PollsMirror() && k < |keys|
      ensures PollsGap(keys[..k] + keys[k + 1..], k + 1)
    {
    }

    /** The first `k` keys are renumbered for the hole at slot i + 1, the others still for slot i. */
    ghost predicate KeysShowHalf(i: int, k: nat)
      reads `keys, busyKeys, set n | n in busyKeys.nodes :: n.data
    {
      && |keys| == |busyKeys.nodes|
      && forall j :: 0 <= j < |keys| ==>
           busyKeys.nodes[j].data.Shows(keys[j], busyKeys.nodes[j], SlotOf(j, if j < k then i + 1 else i))
    }

    /** One round of that loop. */
    method RenumberKey(curKey: SelectionKey<P>, i: int, ghost k: nat)
      requires Shape() && KeysShowHalf(i, k) && FreeCleared() && k < |keys| && busyKeys.nodes[k].data == curKey
      modifies curKey`poll
      ensures Shape() && KeysShowHalf(i, k + 1) && FreeCleared()
    {
      hide List.Valid, SelectionKey.Cleared;
      KeyApart(k);
      if curKey.poll == i + 1 {
        curKey.poll := curKey.poll - 1;
      }
    }

    /** The inner loop of Unregister: the key with slot i + 1, if any, gets slot i. */
    method Renumber(i: int)
      requires Shape() && KeysShowGap(i) && FreeCleared()
      modifies (set n | n in busyKeys.nodes :: n.data)`poll
      ensures Shape() && KeysShowGap(i + 1) && FreeCleared()
    {
      hide List.Valid, SelectionKey.Cleared, SelectionKey.Shows, Shape, FreeCleared;
      FirstOf();
      var node := busyKeys.first;
      ghost var k := 0;
      while node != null
        invariant Shape() && FreeCleared() && KeysShowHalf(i, k)
        invariant 0 <= k <= |keys| && node == if k < |keys| then busyKeys.nodes[k] else null
        decreases |keys| - k
      {
        NextOfNode(k);
        RenumberKey(node.data, i, k);
        node := node.next;
        k := k + 1;
      }
    }

    lemma FirstOf()
      requires Shape()
      ensures busyKeys.first == if busyKeys.nodes == [] then null else busyKeys.nodes[0]
    {
    }

    lemma NextOfNode(k: nat)
      requires Shape() && k < |busyKeys.nodes|
      ensures busyKeys.nodes[k].next == if k + 1 < |busyKeys.nodes| then busyKeys.nodes[k + 1] else null
    {
      Walk(busyKeys, k);
    }

    /** `polls[i] = polls[i + 1]`: the hole moves up by one. */
    method MovePoll(i: int)
      requires PollsGap(keys, i) && i < numPolls - 1
      modifies polls
      ensures PollsGap(keys, i + 1)
    {
      polls[i] := polls[i + 1];
    }

    /** The body of Unregister's outer loop. */
    method MoveSlot(i: int)
      requires Shape() && KeysShowGap(i) && PollsGap(keys, i) && FreeCleared() && i < numPolls - 1
      modifies polls, (set n | n in busyKeys.nodes :: n.data)`poll
      ensures Shape() && KeysShowGap(i + 1) && PollsGap(keys, i + 1) && FreeCleared()
    {
      hide List.Valid, SelectionKey.Shows, FreeCleared, PollsGap;
      Renumber(i);
      MovePoll(i);
    }

    /** With the hole at the last slot, that slot is dropped. */
    method DropSlot()
      requires Shape() && KeysShowGap(numPolls - 1) && PollsGap(keys, numPolls - 1)
      modifies `numPolls, polls
      ensures Shape() && KeysShow() && PollsMirror() && numPolls == old(numPolls) - 1
    {
      hide List.Valid, SelectionKey.Shows;
      polls[numPolls - 1] := NO_POLL;
      numPolls := numPolls - 1;
    }

    /** The loops of Unregister: every later slot moves down by one and its key follows. */
    method CloseGap(pollIndex: int)
      requires Shape() && KeysShowGap(pollIndex) && PollsGap(keys, pollIndex) && FreeCleared()
      modifies `numPolls, polls, (set n | n in busyKeys.nodes :: n.data)`poll
      ensures Shape() && KeysShow() && PollsMirror() && FreeCleared() && numPolls == old(numPolls) - 1
    {
      hide List.Valid, Shape, KeysShow, KeysShowGap, PollsMirror, FreeCleared;
      var i := pollIndex;
      while i < numPolls - 1
        invariant pollIndex <= i < numPolls && numPolls == old(numPolls)
        invariant Shape() && KeysShowGap(i) && PollsGap(keys, i) && FreeCleared()
      {
        MoveSlot(i);
        i := i + 1;
      }
      DropSlot();
    }

    lemma BusyKeyAt(k: nat)
      requires Shape() && KeysShow() && k < |keys|
      ensures var n := busyKeys.nodes[k]; n.data.node == n && n.data.poll == k + 1
    {
    }

    /** Where the cursor is after the k-th key was removed. */
    static function CursorWithout(c: Cursor, k: nat): Cursor {
      match c
      case Nowhere => Nowhere
      case Stale => Stale
      case At(j) => if j < k then At(j) else if j == k then Stale else At(j - 1)
    }

    lemma DistinctWithout(s: seq<Key<Option<P>>>, k: nat)
      requires k < |s| && DistinctFds(s)
      ensures DistinctFds(s[..k] + s[k + 1..])
    {
    }

    ghost function StaleAt(): (k: nat)
      requires CursorShows() && cursor.Stale?
      reads `cursor, `curKey, busyKeys, freeKeys
      ensures k < |freeKeys.nodes| && freeKeys.nodes[k].data == curKey
    {
      var k :| 0 <= k < |freeKeys.nodes| && freeKeys.nodes[k].data == curKey;
      k
    }

    /** The node of the k-th key goes from the busy list to the free list. */
    method Unlink(node: Node<SelectionKey<P>>, ghost k: nat)
      requires Shape() && KeysShow() && FreeCleared() && |busyKeys.nodes| == |keys|
      requires k < |keys| && busyKeys.nodes[k] == node
      modifies `keys, busyKeys, busyKeys.nodes, freeKeys, freeKeys.nodes
      ensures Shape() && KeysShowGap(k + 1)
      ensures keys == old(keys)[..k] + old(keys)[k + 1..]
      ensures busyKeys.nodes == old(busyKeys.nodes)[..k] + old(busyKeys.nodes)[k + 1..]
      ensures freeKeys.nodes == old(freeKeys.nodes) + [node]
      ensures forall j :: 0 <= j < |busyKeys.nodes| ==> busyKeys.nodes[j].data != node.data
      ensures forall j :: 0 <= j < |freeKeys.nodes| - 1 ==> freeKeys.nodes[j].data != node.data
      ensures forall j :: 0 <= j < |freeKeys.nodes| - 1 ==> freeKeys.nodes[j].data.Cleared()
    {
      hide List.Valid, SelectionKey.Shows, SelectionKey.Cleared;
      KeyApart(k);
      RemoveTo(busyKeys, node, k, freeKeys);
      keys := keys[..k] + keys[k + 1..];
    }

    /** ListRemove, memset and ListAddLast of Unregister. */
    method Detach(key: SelectionKey<P>, node: Node<SelectionKey<P>>, ghost k: nat)
      requires Shape() && KeysShow() && FreeCleared() && |busyKeys.nodes| == |keys|
      requires k < |keys| && busyKeys.nodes[k] == node && node.data == key
      modifies `keys, key, busyKeys, busyKeys.nodes, freeKeys, freeKeys.nodes
      ensures Shape() && KeysShowGap(k + 1) && FreeCleared()
      ensures keys == old(keys)[..k] + old(keys)[k + 1..]
      ensures busyKeys.nodes == old(busyKeys.nodes)[..k] + old(busyKeys.nodes)[k + 1..]
      ensures freeKeys.nodes == old(freeKeys.nodes) + [node]
    {
      hide List.Valid, SelectionKey.Shows, SelectionKey.Cleared, KeysShow;
      Unlink(node, k);
      key.Clear();
    }

    /** The cursor goes with the keys that are left. */
    method DetachKey(key: SelectionKey<P>, ghost k: nat)
      requires Full() && k < |keys| && busyKeys.nodes[k].data == key && key.node == busyKeys.nodes[k]
      modifies `keys, `cursor, key, busyKeys, busyKeys.nodes, freeKeys, freeKeys.nodes
      ensures Shape() && KeysShowGap(k + 1) && PollsGap(keys, k + 1) && FreeCleared() && DistinctFds(keys)
      ensures CursorShows() && cursor == CursorWithout(old(cursor), k)
      ensures keys == old(keys)[..k] + old(keys)[k + 1..] && |freeKeys.nodes| == |old(freeKeys.nodes)| + 1
    {
      hide List.Valid, KeysShow, KeysShowGap, PollsMirror, FreeCleared, DistinctFds, PollsGap;
      DistinctData(k);
      DistinctWithout(keys, k);
      WillGap(k);
      ghost var stale := if cursor.Stale? then StaleAt() else |freeKeys.nodes|;
      Detach(key, key.node, k);
      cursor := CursorWithout(cursor, k);
      assert cursor.Stale? ==> freeKeys.nodes[stale].data == curKey;
    }

    /** The part of Unregister that removes a key: off the busy list, cleared, onto the free list,
        and its poll slot closed up. */
    method RemoveKey(key: SelectionKey<P>, ghost k: nat)
      requires Full() && k < |keys| && busyKeys.nodes[k].data == key
      modifies Repr
      ensures Full() && Repr == old(Repr) && maxPolls == old(maxPolls)
      ensures keys == old(keys)[..k] + old(keys)[k + 1..] && cursor == CursorWithout(old(cursor), k) && curKey == old(curKey)
    {
      hide List.Valid, KeysShow, PollsMirror, FreeCleared, DistinctFds, CursorShows;
      BusyKeyAt(k);
      var pollIndex := key.poll;
      DetachKey(key, k);
      CloseGap(pollIndex);
    }

    lemma DistinctData(k: nat)
      requires Shape() && k < |busyKeys.nodes|
      ensures forall j :: 0 <= j < |busyKeys.nodes| && busyKeys.nodes[j].data == busyKeys.nodes[k].data ==> j == k
    {
      KeysApart();
    }

    /** Unregister: drops one registration, or the key with its last one or with all of them.
        A key that is not registered is left alone. */
    method Unregister(key: SelectionKey<P>, unregisterAll: bool) returns (isLastRegistration: bool)
      requires Valid() && key in Repr
      requires key.node != null ==> 1 <= key.poll <= |keys| && busyKeys.nodes[key.poll - 1].data == key
      modifies Repr
      ensures Valid() && Repr == old(Repr) && curKey == old(curKey)
      ensures old(key.node) == null ==> isLastRegistration && keys == old(keys) && cursor == old(cursor)
      ensures old(key.node) != null ==>
        var k := old(key.poll) - 1;
        && (keys, isLastRegistration) == Model.Unregister(old(keys), k, unregisterAll)
        && cursor == if isLastRegistration then CursorWithout(old(cursor), k) else old(cursor)
      ensures old(key.node) != null ==>
        var k := old(key.poll) - 1; var was := old(keys);
        && (isLastRegistration <==> unregisterAll || was[k].count == 1)
        && if isLastRegistration then |keys| == |was| - 1 && forall i :: 0 <= i < |keys| ==> keys[i] == was[if i < k then i else i + 1]
           else |keys| == |was|
                && forall i :: 0 <= i < |keys| ==> keys[i] == was[i].(count := was[i].count - if i == k then 1 else 0)
    {
      hide List.Valid, KeysShow, PollsMirror, FreeCleared, DistinctFds, CursorShows;
      isLastRegistration := true;
      if key.node == null {
        return;
      }
      ghost var k := key.poll - 1;
      if !unregisterAll {
        Lower(key, k);
        if key.count > 0 {
          isLastRegistration := false;
          return;
        }
      }
      RemoveKey(key, k);
    }

    /** `key->count--`. */
    method Lower(key: SelectionKey<P>, ghost k: nat)
      requires Full() && k < |keys| && busyKeys.nodes[k].data == key
      modifies `keys, key`count
      ensures Full() && key.count == old(key.count) - 1 && busyKeys.nodes == old(busyKeys.nodes)
      ensures old(keys)[k].count == old(key.count)
      ensures keys == old(keys)[k := old(keys)[k].(count := old(keys)[k].count - 1)]
    {
      hide Shape, KeysShow, PollsMirror, FreeCleared, DistinctFds, KeysShowAs;
      KeyFields(k);
      SetCount(key, k, key.count - 1);
      Follow(keys[k := keys[k].(count := keys[k].count - 1)]);
    }

    /** Sets the two fields of a busy key that a sweep changes. */
    method Touch(key: SelectionKey<P>, ghost k: nat, result: bv16, curCount: int)
      requires Full() && k < |keys| && busyKeys.nodes[k].data == key
      modifies `keys, key`result, key`curCount
      ensures Full() && busyKeys.nodes == old(busyKeys.nodes) && |keys| == |old(keys)|
      ensures keys == old(keys)[k := old(keys)[k].(result := result, curCount := curCount)]
    {
      hide Shape, KeysShow, PollsMirror, FreeCleared, DistinctFds, KeysShowAs;
      SetResult(key, k, result, curCount);
      Follow(keys[k := keys[k].(result := result, curCount := curCount)]);
    }

    /** The busy key at position `k` holds what `keys[k]` says. */
    lemma KeyFields(k: nat)
      requires Full() && k < |keys|
      ensures var key := busyKeys.nodes[k].data;
        && key.node == busyKeys.nodes[k] && key.poll == k + 1 && key.operation == keys[k].operation
        && key.count == keys[k].count && key.curCount == keys[k].curCount && key.result == keys[k].result
        && {this, key, polls} <= Repr
      ensures polls.Length > k + 1 && polls[k + 1].revents == keys[k].revents
    {
    }

    lemma StaleFields()
      requires Full() && cursor.Stale?
      ensures curKey != null && curKey.node == null && curKey.curCount == 0
    {
      assert freeKeys.nodes[StaleAt()].data.Cleared();
    }

    lemma CursorInRange()
      requires Full()
      ensures InRange(keys, cursor) && (cursor.Nowhere? <==> curKey == null)
      ensures |busyKeys.nodes| == |keys| && this in Repr
      ensures cursor.At? ==> busyKeys.nodes[cursor.k].data == curKey
    {
    }

    /** Moves the cursor to the key after the one at position `k`. */
    method Advance(ghost k: nat)
      requires Full() && k < |keys| && cursor == At(k)
      modifies `curKey, `cursor
      ensures Full() && cursor == NextOf(keys, k)
    {
      hide List.Valid, KeysShow, PollsMirror, FreeCleared, DistinctFds;
      KeyFields(k);
      Walk(busyKeys, k);
      if curKey.node.next != null {
        curKey := curKey.node.next.data;
      } else {
        curKey := null;
      }
      cursor := NextOf(keys, k);
    }

    /** The first half of SelectionKeyReady. */
    method ResumeKey(repoll: Option<bv16>) returns (again: bool)
      requires Full()
      modifies Repr
      ensures Full() && Repr == old(Repr) && busyKeys.nodes == old(busyKeys.nodes)
      ensures InRange(old(keys), old(cursor))
      ensures var (ks, c, b) := Model.Resume(old(keys), old(cursor), repoll); keys == ks && cursor == c && again == b
    {
      hide Full;
      CursorInRange();
      again := false;
      if cursor.Stale? {
        StaleFields();
      } else if cursor.At? {
        KeyFields(cursor.k);
      }
      if curKey != null && curKey.curCount >= 1 {
        again := ResumeAt(cursor.k, repoll);
      }
    }

    /** The same for a key that has been returned in this sweep. */
    method ResumeAt(ghost k: nat, repoll: Option<bv16>) returns (again: bool)
      requires Full() && k < |keys| && cursor == At(k) && keys[k].curCount >= 1
      modifies Repr
      ensures Full() && Repr == old(Repr) && busyKeys.nodes == old(busyKeys.nodes)
      ensures var (ks, c, b) := Model.Resume(old(keys), At(k), repoll); keys == ks && cursor == c && again == b
    {
      hide Full, Answers;
      CursorInRange();
      KeyFields(k);
      again := false;
      if curKey.count > curKey.curCount {
        match repoll
        case None =>
        case Some(revents) =>
          if Answers(revents, curKey.operation) {
            Touch(curKey, k, revents, curKey.curCount + 1);
            again := true;
          } else {
            Advance(k);
          }
      } else {
        Touch(curKey, k, curKey.result, 0);
        Advance(k);
      }
    }

    lemma FirstReadyIs(start: nat, j: nat)
      requires start <= j <= |keys| && (forall k :: start <= k < j ==> !Ready(keys[k])) && (j < |keys| ==> Ready(keys[j]))
      ensures FirstReady(keys, start) == j
    {
    }

    /** The busy node at position `k` and the one after it. */
    lemma BusyNext(k: nat)
      requires Full() && k < |keys|
      ensures busyKeys.first == busyKeys.nodes[0]
      ensures busyKeys.nodes[k].next == if k + 1 < |keys| then busyKeys.nodes[k + 1] else null
    {
      Walk(busyKeys, k);
    }

    /** Clears the `revents` of the key at position `j` and leaves the cursor there. */
    method ClearEvents(key: SelectionKey<P>, ghost j: nat)
      requires Full() && j < |keys| && busyKeys.nodes[j].data == key && key.poll == j + 1
      modifies `keys, `curKey, `cursor, polls
      ensures Full() && cursor == At(j)
      ensures keys == old(keys)[j := old(keys)[j].(revents := 0)]
    {
      hide List.Valid, SelectionKey.Cleared, FreeCleared, DistinctFds;
      SameFds(keys, keys[j := keys[j].(revents := 0)]);
      curKey := key;
      polls[key.poll] := polls[key.poll].(revents := 0);
      cursor := At(j);
      keys := keys[j := keys[j].(revents := 0)];
      assert KeysShow();
    }

    /** Returns the key at position `j`: its `revents` become the result and are cleared. */
    method Consume(key: SelectionKey<P>, ghost j: nat)
      requires Full() && j < |keys| && busyKeys.nodes[j].data == key
      modifies `keys, `curKey, `cursor, key, polls
      ensures Full() && busyKeys.nodes == old(busyKeys.nodes) && cursor == At(j)
      ensures keys == old(keys)[j := old(keys)[j].(
        result := old(keys)[j].revents, curCount := old(keys)[j].curCount + 1, revents := 0)]
    {
      hide Full;
      KeyFields(j);
      Touch(key, j, polls[key.poll].revents, key.curCount + 1);
      KeyFields(j);
      ClearEvents(key, j);
    }

    /** Ends the sweep. */
    method StopSweep()
      requires Full()
      modifies `curKey, `cursor
      ensures Full() && cursor == Nowhere
    {
      hide List.Valid, DistinctFds, KeysShow, PollsMirror, FreeCleared;
      curKey := null;
      cursor := Nowhere;
    }

    /** Where the walk of SelectionKeyReady starts: at the cursor, or at the first key. */
    ghost function WalkStart(): nat
      reads this
    {
      match cursor case Nowhere => 0 case Stale => |keys| case At(k) => k
    }

    lemma FirstBusy()
      requires Full()
      ensures busyKeys.first == if keys == [] then null else busyKeys.nodes[0]
    {
    }

    method StartWalk() returns (i: Node?<SelectionKey<P>>)
      requires Full() && (keys != [] || cursor.Stale?)
      ensures WalkStart() <= |keys| == |busyKeys.nodes|
      ensures i == if WalkStart() < |keys| then busyKeys.nodes[WalkStart()] else null
    {
      hide Full;
      CursorInRange();
      if cursor.Stale? {
        StaleFields();
      } else {
        FirstBusy();
        KeyFields(WalkStart());
      }
      var from := if curKey == null then busyKeys.first.data else curKey;
      i := from.node;
    }

    /** The walk to the first ready key. */
    method WalkToReady(from: Node?<SelectionKey<P>>, ghost start: nat) returns (i: Node?<SelectionKey<P>>, ghost j: nat)
      requires Full() && start <= |keys| == |busyKeys.nodes|
      requires from == if start < |keys| then busyKeys.nodes[start] else null
      ensures j <= |keys| && j == FirstReady(keys, start) && i == if j < |keys| then busyKeys.nodes[j] else null
    {
      hide Full;
      i, j := from, start;
      while i != null
        invariant start <= j <= |keys|
        invariant i == if j < |keys| then busyKeys.nodes[j] else null
        invariant forall k :: start <= k < j ==> !Ready(keys[k])
        decreases |keys| - j
      {
        KeyFields(j);
        BusyNext(j);
        if 0 < polls[i.data.poll].revents < 0x8000 {
          break;
        }
        i := i.next;
        j := j + 1;
      }
      FirstReadyIs(start, j);
    }

    /** The second half of SelectionKeyReady. */
    method SeekKey() returns (ready: bool, key: SelectionKey?<P>)
      requires Full() && (keys != [] || cursor.Stale?)
      modifies Repr
      ensures Full() && Repr == old(Repr) && busyKeys.nodes == old(busyKeys.nodes)
      ensures InRange(old(keys), old(cursor))
      ensures var (ks, c, hit) := Model.Seek(old(keys), old(cursor));
        && keys == ks && cursor == c && ready == hit.Some?
        && key == if hit.Some? then busyKeys.nodes[hit.value].data else null
    {
      hide Full, FirstReady;
      CursorInRange();
      var i := StartWalk();
      ghost var j: nat;
      i, j := WalkToReady(i, WalkStart());
      if i == null {
        StopSweep();
        ready, key := false, null;
      } else {
        ready, key := true, i.data;
        KeyFields(j);
        Consume(key, j);
      }
    }

    /** SelectionKeyReady; `repoll` is the answer of its single-descriptor poll. With no busy key to
        start from it returns false without releasing its lock. */
    method SelectionKeyReady(repoll: Option<bv16>) returns (ready: bool, key: SelectionKey?<P>, released: bool)
      requires Valid()
      modifies Repr
      ensures Valid() && Repr == old(Repr) && busyKeys.nodes == old(busyKeys.nodes)
      ensures InRange(old(keys), old(cursor))
      ensures var (ks, c, hit) := Model.KeyReady(old(keys), old(cursor), repoll);
        && keys == ks && cursor == c && ready == hit.Some?
        && key == if hit.Some? then busyKeys.nodes[hit.value].data else null
      ensures released <==> old(keys) != [] || old(cursor) != Nowhere
      ensures old(cursor) == Nowhere ==> FirstPositive(old(keys), 0, keys, cursor) && (ready <==> cursor.At?)
      ensures ready ==> cursor.At? && cursor.k < |busyKeys.nodes| && key == busyKeys.nodes[cursor.k].data
      ensures old(cursor) == Stale ==> !ready && keys == old(keys)
    {
      hide Full, Resume, Seek, FirstPositive;
      KeyReadyAfresh(keys, repoll);
      StaysCounted(repoll);
      var again := ResumeKey(repoll);
      ResumeNone(old(keys), old(cursor), repoll);
      CursorInRange();
      FirstBusy();
      released := true;
      if again {
        ready, key := true, curKey;
      } else if curKey == null && busyKeys.first == null {
        SeekNone();
        ready, key, released := false, null, false;
      } else {
        ready, key := SeekKey();
      }
    }

    static lemma ResumeNone(keys: seq<Key<Option<P>>>, cur: Cursor, repoll: Option<bv16>)
      requires InRange(keys, cur)
      ensures keys == [] ==> Model.Resume(keys, cur, repoll) == (keys, cur, false)
    {
    }

    static lemma SeekNone()
      ensures Model.Seek<Option<P>>([], Nowhere) == ([], Nowhere, None)
    {
    }

    lemma InStep()
      requires Valid()
      ensures InRange(keys, cursor) && |busyKeys.nodes| == |keys|
    {
      CursorInRange();
    }

    lemma StaysCounted(repoll: Option<bv16>)
      requires Valid()
      ensures this in Repr && InRange(keys, cursor)
      ensures Counted(KeyReady(keys, cursor, repoll).0)
    {
      hide Core;
      CursorInRange();
      KeyReadyCounts(keys, cursor, repoll);
    }

    static lemma KeyReadyCounts(keys: seq<Key<Option<P>>>, cur: Cursor, repoll: Option<bv16>)
      requires InRange(keys, cur) && Counted(keys)
      ensures Counted(KeyReady(keys, cur, repoll).0)
    {
      hide Answers, FirstReady;
    }

    /** The whole sweep from no current key, and whose keys it gives. */
    lemma SweepIs(answers: nat -> Option<bv16>)
      requires Valid()
      ensures InRange(keys, cursor) && |busyKeys.nodes| == |keys|
      ensures forall i, j :: 0 <= i < |busyKeys.nodes| && 0 <= j < |busyKeys.nodes| && i != j ==>
        busyKeys.nodes[i].data != busyKeys.nodes[j].data
      ensures cursor == Nowhere ==>
        var (end, trace) := Sweep(keys, Nowhere, answers, 0);
        && (forall k: nat :: k in trace <==> k < |keys| && 1 <= keys[k].revents as int <= 0x7fff)
        && |end| == |keys| && forall k :: 0 <= k < |keys| ==> !(1 <= end[k].revents as int <= 0x7fff)
    {
      hide Sweep, DistinctFds, KeysShow, PollsMirror, FreeCleared;
      CursorInRange();
      SweepReturnsReadyKeys(keys, answers);
      KeysApart();
    }

    /** Which keys a list of positions stands for. */
    lemma GivenIs(handled: seq<SelectionKey<P>>, trace: seq<nat>, k: nat)
      requires |handled| == |trace| && k < |busyKeys.nodes|
      requires forall i :: 0 <= i < |trace| ==> trace[i] < |busyKeys.nodes| && handled[i] == busyKeys.nodes[trace[i]].data
      requires forall i, j :: 0 <= i < |busyKeys.nodes| && 0 <= j < |busyKeys.nodes| && i != j ==>
        busyKeys.nodes[i].data != busyKeys.nodes[j].data
      ensures busyKeys.nodes[k].data in handled <==> k in trace
    {
      if k in trace {
        var i :| 0 <= i < |trace| && trace[i] == k;
        assert handled[i] == busyKeys.nodes[k].data;
      }
    }

    /** The reader's loop over the ready keys. `answers` are the answers of the re-polls; each key
        returned goes to its connection's read, which does not touch the selector. `released` says that
        the last call released its lock. */
    method HandleReady(answers: nat -> Option<bv16>) returns (handled: seq<SelectionKey<P>>, released: bool)
      requires Valid()
      modifies Repr
      ensures Valid() && Repr == old(Repr) && busyKeys.nodes == old(busyKeys.nodes)
      ensures InRange(old(keys), old(cursor)) && cursor == Nowhere && (released <==> old(keys) != [] || old(cursor) != Nowhere)
      ensures var (ks, trace) := Sweep(old(keys), old(cursor), answers, 0);
        && keys == ks && |handled| == |trace|
        && forall i :: 0 <= i < |trace| ==> trace[i] < |busyKeys.nodes| && handled[i] == busyKeys.nodes[trace[i]].data
      ensures old(cursor) == Nowhere ==> forall k :: 0 <= k < |busyKeys.nodes| == |old(keys)| ==>
        (busyKeys.nodes[k].data in handled <==> 1 <= old(keys)[k].revents as int <= 0x7fff)
      ensures old(cursor) == Nowhere ==> forall k :: 0 <= k < |keys| ==> !(1 <= keys[k].revents as int <= 0x7fff)
    {
      hide Valid, KeyReady, Sweep, FirstPositive;
      InStep();
      SweepIs(answers);
      ghost var goal := Sweep(keys, cursor, answers, 0);
      ghost var trace: seq<nat> := [];
      SweepSoFar(keys, cursor, trace, answers, 0);
      ghost var r: (seq<Key<Option<P>>>, Cursor, Option<nat>) := KeyReady(keys, cursor, answers(0));
      handled := [];
      var n := 1;
      var ready, key;
      ready, key, released := SelectionKeyReady(answers(0));
      while ready
        invariant Valid() && Repr == old(Repr) && busyKeys.nodes == old(busyKeys.nodes) && |busyKeys.nodes| == |r.0|
        invariant InRange(r.0, r.1) && r.0 == keys && r.1 == cursor && ready == r.2.Some? && goal == SoFar(r, trace, answers, n)
        invariant ready ==> r.2.value < |busyKeys.nodes| && key == busyKeys.nodes[r.2.value].data && keys != []
        invariant !ready ==> cursor == Nowhere
        invariant released <==> old(keys) != [] || old(cursor) != Nowhere
        invariant |handled| == |trace|
        invariant forall i :: 0 <= i < |trace| ==> trace[i] < |busyKeys.nodes| && handled[i] == busyKeys.nodes[trace[i]].data
        decreases if r.2.None? then 0 else 1 + |Sweep(r.0, r.1, answers, n).1|
      {
        handled := handled + [key];
        trace := trace + [r.2.value];
        SweepSoFar(r.0, r.1, trace, answers, n);
        r := KeyReady(r.0, r.1, answers(n));
        ready, key, released := SelectionKeyReady(answers(n));
        InStep();
        n := n + 1;
      }
      forall k | 0 <= k < |busyKeys.nodes|
        ensures busyKeys.nodes[k].data in handled <==> k in trace
      {
        GivenIs(handled, trace, k);
      }
    }
  }
}
