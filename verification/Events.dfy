/** The event queue of src/event.c: one linked list of handlers per event. Handlers are called in
    list order and once-only ones are unlinked as the walk passes them; callbacks do not re-enter
    the list being walked. */
module Events {
  import opened EventModel
  import opened Lists

  /** The handlers on a list of nodes, in order. */
  function Payloads<H>(nodes: seq<Node<H>>): (s: seq<H>)
    ensures |s| == |nodes|
  {
    seq(|nodes|, i requires 0 <= i < |nodes| => nodes[i].data)
  }

  lemma DatasAppend<H>(nodes: seq<Node<H>>, n: Node<H>)
    ensures Payloads(nodes + [n]) == Payloads(nodes) + [n.data]
  {
  }

  lemma {:induction false} LastingAppend<C, D>(done: seq<Handler<C, D>>, h: Handler<C, D>)
    ensures Lasting(done + [h]) == Lasting(done) + (if h.once then [] else [h])
  {
    if done == [] {
      assert done + [h] == [h];
    } else {
      LastingAppend(done[1..], h);
      assert (done + [h])[1..] == done[1..] + [h];
    }
  }

  lemma {:induction false} WithoutCallbackAppend<C, D>(done: seq<Handler<C, D>>, h: Handler<C, D>, callback: C)
    ensures WithoutCallback(done + [h], callback)
         == WithoutCallback(done, callback) + (if h.callback == callback then [] else [h])
  {
    if done == [] {
      assert done + [h] == [h];
    } else {
      WithoutCallbackAppend(done[1..], h, callback);
      assert (done + [h])[1..] == done[1..] + [h];
    }
  }

  /** A walk that has passed `done`, of which `kept` is still listed, and has `rest` before it. */
  ghost predicate Passed<H>(all: seq<Node<H>>, now: seq<Node<H>>,
                            done: seq<Node<H>>, kept: seq<Node<H>>, rest: seq<Node<H>>)
  {
    && all == done + rest && now == kept + rest
    && forall n <- kept :: n in done
  }

  lemma PassedMembers<H>(all: seq<Node<H>>, now: seq<Node<H>>,
                         done: seq<Node<H>>, kept: seq<Node<H>>, rest: seq<Node<H>>)
    requires Passed(all, now, done, kept, rest)
    ensures |now| == |kept| + |rest| && forall q :: 0 <= q < |rest| ==> now[|kept| + q] == rest[q]
    ensures forall q :: 0 <= q < |now| ==> now[q] in all
    ensures rest == [] ==> now == kept && all == done
  {
    forall q | 0 <= q < |now|
      ensures now[q] in all
    {
      if q < |kept| {
        assert kept[q] in done;
      }
    }
  }

  lemma PassedStep<H>(all: seq<Node<H>>, now: seq<Node<H>>,
                      done: seq<Node<H>>, kept: seq<Node<H>>, rest: seq<Node<H>>, drop: bool)
    requires Passed(all, now, done, kept, rest) && rest != []
    ensures |now| > |kept|
    ensures Passed(all, if drop then now[..|kept|] + now[|kept| + 1..] else now,
                   done + [rest[0]], if drop then kept else kept + [rest[0]], rest[1..])
  {
    Shift(done, rest);
    Shift(kept, rest);
  }

  class HandlerList<C(==), D> {
    const list: List<Handler<C, D>>

    ghost predicate Valid()
      reads list, list.nodes
    {
      list.Valid()
    }

    ghost function View(): seq<Handler<C, D>>
      reads list
    {
      Payloads(list.nodes)
    }

    constructor ()
      ensures Valid() && View() == [] && fresh(list)
    {
      list := new List();
    }

    /** EventHandlerAdd. */
    method Add(handler: Handler<C, D>)
      requires Valid()
      modifies list, list.nodes
      ensures Valid() && View() == old(View()) + [handler]
      ensures fresh(set n | n in list.nodes && n !in old(list.nodes))
    {
      var node := new Node(handler);
      list.AddLast(node);
    }

    /** Where a walk starts. */
    lemma WalkStarts()
      requires Valid()
      ensures list.first == if list.nodes == [] then null else list.nodes[0]
      ensures Passed(list.nodes, list.nodes, [], [], list.nodes)
      ensures Payloads<Handler<C, D>>([]) == [] && Lasting<C, D>([]) == []
      ensures forall callback: C {:trigger WithoutCallback<C, D>([], callback)} :: WithoutCallback<C, D>([], callback) == []
    {
      Walk(list, 0);
    }

    /** Moves the walk past the node at position `k`, unlinking it when `drop` says so. */
    method Pass(i: Node<Handler<C, D>>, ghost k: nat, drop: bool) returns (next: Node?<Handler<C, D>>)
      requires Valid() && k < |list.nodes| && list.nodes[k] == i
      modifies list, list.nodes
      ensures Valid()
      ensures list.nodes == if drop then old(list.nodes)[..k] + old(list.nodes)[k + 1..] else old(list.nodes)
      ensures next == if k + 1 < |old(list.nodes)| then old(list.nodes)[k + 1] else null
    {
      hide List.Valid;
      Walk(list, k);
      next := i.next;
      if drop {
        list.Remove(i, k);
      }
    }

    /** EventHandle; `calls` are the handlers whose callback was called, in order. */
    method Handle() returns (calls: seq<Handler<C, D>>)
      requires Valid()
      modifies list, list.nodes
      ensures Valid()
      ensures calls == old(View()) && View() == Lasting(old(View()))
      ensures forall q :: 0 <= q < |list.nodes| ==> list.nodes[q] in old(list.nodes)
    {
      hide List.Valid, Payloads, Lasting, Passed;
      calls := [];
      var i := list.first;
      ghost var all := list.nodes;
      ghost var done: seq<Node<Handler<C, D>>>, kept: seq<Node<Handler<C, D>>>, rest := [], [], all;
      WalkStarts();
      while i != null
        invariant Valid() && Passed(all, list.nodes, done, kept, rest)
        invariant i == if rest == [] then null else rest[0]
        invariant calls == Payloads(done) && Payloads(kept) == Lasting(Payloads(done))
        decreases |rest|
      {
        PassedMembers(all, list.nodes, done, kept, rest);
        PassedStep(all, list.nodes, done, kept, rest, i.data.once);
        DatasAppend(done, i);
        DatasAppend(kept, i);
        LastingAppend(Payloads(done), i.data);
        var handler := i.data;
        calls := calls + [handler];
        i := Pass(i, |kept|, handler.once);
        kept := if handler.once then kept else kept + [rest[0]];
        done, rest := done + [rest[0]], rest[1..];
      }
      PassedMembers(all, list.nodes, done, kept, rest);
    }

    /** EventHandlerRemove. */
    method RemoveCallback(callback: C)
      requires Valid()
      modifies list, list.nodes
      ensures Valid()
      ensures View() == WithoutCallback(old(View()), callback)
      ensures forall q :: 0 <= q < |list.nodes| ==> list.nodes[q] in old(list.nodes)
    {
      hide List.Valid, Payloads, WithoutCallback, Passed;
      WalkStarts();
      var i := list.first;
      ghost var all := list.nodes;
      ghost var done: seq<Node<Handler<C, D>>>, kept: seq<Node<Handler<C, D>>>, rest := [], [], all;
      while i != null
        invariant Valid() && Passed(all, list.nodes, done, kept, rest)
        invariant i == if rest == [] then null else rest[0]
        invariant Payloads(kept) == WithoutCallback(Payloads(done), callback)
        decreases |rest|
      {
        PassedMembers(all, list.nodes, done, kept, rest);
        PassedStep(all, list.nodes, done, kept, rest, i.data.callback == callback);
        DatasAppend(done, i);
        DatasAppend(kept, i);
        WithoutCallbackAppend(Payloads(done), i.data, callback);
        var handler := i.data;
        i := Pass(i, |kept|, handler.callback == callback);
        kept := if handler.callback == callback then kept else kept + [rest[0]];
        done, rest := done + [rest[0]], rest[1..];
      }
      PassedMembers(all, list.nodes, done, kept, rest);
    }

    /** The inner loop of CopyEventQueue, for one event. */
    method AppendCopies(src: HandlerList<C, D>, data: D, replace: bool)
      requires Valid() && src.Valid() && src.list != list
      modifies list, list.nodes
      ensures Valid() && src.Valid() && src.list.nodes == old(src.list.nodes)
      ensures View() == old(View()) + Copied(src.View(), data, replace)
      ensures fresh(set n | n in list.nodes && n !in old(list.nodes))
    {
      hide List.Valid;
      Walk(src.list, 0);
      var j := src.list.first;
      ghost var k := 0;
      ghost var source := src.View();
      while j != null
        invariant Valid() && src.Valid() && src.list.nodes == old(src.list.nodes)
        invariant k <= |source| && j == if k < |source| then src.list.nodes[k] else null
        invariant View() == old(View()) + Copied(source, data, replace)[..k]
        invariant forall q :: 0 <= q < |list.nodes| ==> list.nodes[q] in old(list.nodes) || fresh(list.nodes[q])
        decreases |source| - k
      {
        Walk(src.list, k);
        ListsApart(src.list, list);
        var handler := j.data;
        Add(if replace then handler.(data := data) else handler);
        assert src.Valid();
        j := j.next;
        k := k + 1;
      }
    }
  }

  /** s_EventQueue: the handler lists, indexed by event. `installed` are all handlers that are there, in
      the order in which they were added. */
  class EventQueue<C(==), D> {
    const handlers: seq<HandlerList<C, D>>
    ghost var installed: seq<Handler<C, D>>

    ghost function Lists(): (s: set<object>)
      ensures forall i :: 0 <= i < |handlers| ==> handlers[i].list in s
    {
      set i | 0 <= i < |handlers| :: handlers[i].list
    }

    ghost function Nodes(): (s: set<object>)
      reads Lists()
      ensures forall i :: 0 <= i < |handlers| ==> forall n <- handlers[i].list.nodes :: n in s
    {
      var s := set i, n | 0 <= i < |handlers| && n in handlers[i].list.nodes :: n as object;
      assert forall i, n: object :: 0 <= i < |handlers| && n in handlers[i].list.nodes ==> n in s;
      s
    }

    ghost predicate Sound()
      reads Lists(), Nodes()
    {
      && |handlers| == EVENTS_COUNT
      && (forall i :: 0 <= i < EVENTS_COUNT ==> handlers[i].Valid())
      && forall i, j :: 0 <= i < j < EVENTS_COUNT ==> handlers[i].list != handlers[j].list
    }

    /** Each event's list holds the handlers of that event, in order. */
    ghost predicate Sorted()
      requires |handlers| == EVENTS_COUNT
      reads this, Lists()
    {
      forall e: Event :: handlers[Code(e)].View() == OfEvent(installed, e)
    }

    ghost predicate Valid()
      reads this, Lists(), Nodes()
    {
      Sound() && Sorted()
    }

    /** NewEventQueue. */
    constructor ()
      ensures Valid() && installed == [] && fresh(Lists())
    {
      var lists: seq<HandlerList<C, D>> := [];
      while |lists| < EVENTS_COUNT
        invariant |lists| <= EVENTS_COUNT
        invariant forall i :: 0 <= i < |lists| ==> lists[i].Valid() && lists[i].View() == [] && fresh(lists[i].list)
        invariant forall i, j :: 0 <= i < j < |lists| ==> lists[i].list != lists[j].list
        decreases EVENTS_COUNT - |lists|
      {
        var next := new HandlerList();
        lists := lists + [next];
      }
      handlers := lists;
      installed := [];
    }

    /** EventHandlerAdd: the handler goes behind those that are there for its event. */
    method Add(handler: Handler<C, D>)
      requires Valid()
      modifies this, Lists(), Nodes()
      ensures Valid() && installed == old(installed) + [handler]
    {
      hide List.Valid, Payloads, OfEvent;
      OthersApart(Code(handler.event));
      handlers[Code(handler.event)].Add(handler);
      forall e: Event
        ensures OfEvent(installed + [handler], e) == OfEvent(installed, e) + (if e == handler.event then [handler] else [])
        ensures e != handler.event ==> Code(e) != Code(handler.event)
      {
        OfEventAppend(installed, [handler], e);
        OfEventOne(handler, e);
        CodesDiffer(e, handler.event);
      }
      installed := installed + [handler];
      assert forall i :: 0 <= i < EVENTS_COUNT ==> handlers[i].Valid();
    }

    /** EventHandle: exactly the handlers that were added for this event are called, in order, and of
        them the once-only ones go; those of every other event stay. */
    method Handle(event: Event) returns (calls: seq<Handler<C, D>>)
      requires Valid()
      modifies this`installed, Lists(), Nodes()
      ensures Valid()
      ensures calls == OfEvent(old(installed), event) && installed == Unspent(old(installed), event)
    {
      hide List.Valid, Payloads, Lasting, OfEvent, Unspent;
      OthersApart(Code(event));
      calls := handlers[Code(event)].Handle();
      forall e: Event
        ensures OfEvent(Unspent(installed, event), e)
             == if e == event then Lasting(OfEvent(installed, e)) else OfEvent(installed, e)
        ensures e != event ==> Code(e) != Code(event)
      {
        UnspentOf(installed, event, e);
        CodesDiffer(e, event);
      }
      installed := Unspent(installed, event);
      assert forall i :: 0 <= i < EVENTS_COUNT ==> handlers[i].Valid();
    }

    /** EventHandlerRemove: exactly the handlers of this event with this callback go. */
    method Remove(event: Event, callback: C)
      requires Valid()
      modifies this`installed, Lists(), Nodes()
      ensures Valid() && installed == Unhooked(old(installed), event, callback)
    {
      hide List.Valid, Payloads, WithoutCallback, OfEvent, Unhooked;
      OthersApart(Code(event));
      handlers[Code(event)].RemoveCallback(callback);
      forall e: Event
        ensures OfEvent(Unhooked(installed, event, callback), e)
             == if e == event then WithoutCallback(OfEvent(installed, e), callback) else OfEvent(installed, e)
        ensures e != event ==> Code(e) != Code(event)
      {
        UnhookedOf(installed, event, callback, e);
        CodesDiffer(e, event);
      }
      installed := Unhooked(installed, event, callback);
      assert forall i :: 0 <= i < EVENTS_COUNT ==> handlers[i].Valid();
    }

    /** Lists of different events share no node. */
    lemma OthersApart(i: nat)
      requires Sound() && i < EVENTS_COUNT
      ensures forall j, p, q :: (0 <= j < EVENTS_COUNT && j != i && 0 <= p < |handlers[i].list.nodes|
                && 0 <= q < |handlers[j].list.nodes|) ==> handlers[i].list.nodes[p] != handlers[j].list.nodes[q]
    {
      hide List.Valid;
      forall j | 0 <= j < EVENTS_COUNT && j != i
        ensures forall p, q :: (0 <= p < |handlers[i].list.nodes| && 0 <= q < |handlers[j].list.nodes|) ==>
                  handlers[i].list.nodes[p] != handlers[j].list.nodes[q]
      {
        ListsApart(handlers[i].list, handlers[j].list);
      }
    }

    ghost predicate Separate(src: EventQueue<C, D>)
      requires |handlers| == |src.handlers| == EVENTS_COUNT
    {
      this != src && forall i, j :: 0 <= i < EVENTS_COUNT && 0 <= j < EVENTS_COUNT ==> handlers[i].list != src.handlers[j].list
    }

    /** The body of CopyEventQueue's outer loop. */
    method CopyOne(src: EventQueue<C, D>, i: nat, data: D, replace: bool)
      requires Sound() && src.Sound() && Separate(src) && i < EVENTS_COUNT
      modifies handlers[i].list, handlers[i].list.nodes
      ensures Sound() && src.Sound()
      ensures forall k :: 0 <= k < EVENTS_COUNT ==> src.handlers[k].View() == old(src.handlers[k].View())
      ensures handlers[i].View() == old(handlers[i].View()) + Copied(src.handlers[i].View(), data, replace)
      ensures forall k :: 0 <= k < EVENTS_COUNT && k != i ==> handlers[k].list.nodes == old(handlers[k].list.nodes)
    {
      hide List.Valid, Payloads, Copied;
      OthersApart(i);
      SourceApart(src, i);
      handlers[i].AppendCopies(src.handlers[i], data, replace);
      assert forall k :: 0 <= k < EVENTS_COUNT ==> handlers[k].Valid();
      assert forall k :: 0 <= k < EVENTS_COUNT ==> src.handlers[k].Valid();
    }

    /** The loops of CopyEventQueue: every list of `src` is copied to the end of the same event's list. */
    method CopyLists(src: EventQueue<C, D>, data: D, replace: bool)
      requires Sound() && src.Sound() && Separate(src)
      modifies Lists(), Nodes()
      ensures Sound() && src.Sound()
      ensures forall i :: 0 <= i < EVENTS_COUNT ==> src.handlers[i].View() == old(src.handlers[i].View())
      ensures forall i :: 0 <= i < EVENTS_COUNT ==>
                handlers[i].View() == old(handlers[i].View()) + Copied(old(src.handlers[i].View()), data, replace)
    {
      hide List.Valid, Payloads, Copied, HandlerList.Valid, Nodes, Lists;
      var i := 0;
      while i < EVENTS_COUNT
        invariant i <= EVENTS_COUNT && Sound() && src.Sound()
        invariant forall k :: 0 <= k < EVENTS_COUNT ==> src.handlers[k].View() == old(src.handlers[k].View())
        invariant forall k :: 0 <= k < i ==>
                    handlers[k].View() == old(handlers[k].View()) + Copied(old(src.handlers[k].View()), data, replace)
        invariant forall k :: i <= k < EVENTS_COUNT ==> handlers[k].list.nodes == old(handlers[k].list.nodes)
      {
        CopyOne(src, i, data, replace);
        i := i + 1;
      }
    }

    /** CopyEventQueue: behind the handlers that are there come those of `src`, one by one, each with the
        event, the callback and the `once` of its original; with `data` if that is given, and else with the
        original's own data. */
    method Copy(src: EventQueue<C, D>, data: D, replace: bool)
      requires Valid() && src.Valid() && Separate(src)
      modifies this`installed, Lists(), Nodes()
      ensures Valid() && src.Valid() && src.installed == old(src.installed)
      ensures var n := |old(installed)|; |installed| == n + |src.installed| && installed[..n] == old(installed)
      ensures forall i :: 0 <= i < |src.installed| ==>
                var h := src.installed[i];
                installed[|old(installed)| + i] == Handler(h.event, h.once, h.callback, if replace then data else h.data)
    {
      hide List.Valid, Payloads, OfEvent, HandlerList.Valid, HandlerList.View, Copied;
      CopyLists(src, data, replace);
      CopiesAre(src.installed, data, replace);
      forall e: Event
        ensures OfEvent(installed + Copied(src.installed, data, replace), e)
             == OfEvent(installed, e) + Copied(OfEvent(src.installed, e), data, replace)
      {
        OfEventAppend(installed, Copied(src.installed, data, replace), e);
        CopiedOf(src.installed, data, replace, e);
      }
      Extend(Copied(src.installed, data, replace));
    }

    /** The handlers that were copied are now installed. */
    method Extend(ghost copies: seq<Handler<C, D>>)
      requires Sound() && forall e: Event :: handlers[Code(e)].View() == OfEvent(installed + copies, e)
      modifies this`installed
      ensures Valid() && installed == old(installed) + copies
    {
      hide List.Valid, Payloads, OfEvent, HandlerList.Valid, HandlerList.View;
      installed := installed + copies;
    }

    static lemma CopiesAre(handlers: seq<Handler<C, D>>, data: D, replace: bool)
      ensures var copies := Copied(handlers, data, replace);
        forall i :: 0 <= i < |handlers| ==>
          var h := handlers[i]; copies[i] == Handler(h.event, h.once, h.callback, if replace then data else h.data)
    {
    }

    lemma SourceApart(src: EventQueue<C, D>, i: nat)
      requires Sound() && src.Sound() && Separate(src) && i < EVENTS_COUNT
      ensures forall j, p, q :: (0 <= j < EVENTS_COUNT && 0 <= p < |handlers[i].list.nodes|
                && 0 <= q < |src.handlers[j].list.nodes|) ==> handlers[i].list.nodes[p] != src.handlers[j].list.nodes[q]
    {
      hide List.Valid;
      forall j | 0 <= j < EVENTS_COUNT
        ensures forall p, q :: (0 <= p < |handlers[i].list.nodes| && 0 <= q < |src.handlers[j].list.nodes|) ==>
                  handlers[i].list.nodes[p] != src.handlers[j].list.nodes[q]
      {
        ListsApart(handlers[i].list, src.handlers[j].list);
      }
    }
  }
}
