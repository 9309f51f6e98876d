/** What the handler lists of src/event.c mean: for each event a sequence of handlers in
    registration order, and what dispatching does to it over whole runs. */
module EventModel {
  datatype Event =
    | Init | Connecting | Connected | Read | InboundData
    | Write | OutboundData | PendingClose | Close | Free

  const EVENTS_COUNT: nat := 10

  /** The value of the enumeration constant. */
  function Code(event: Event): (n: nat)
    ensures n < EVENTS_COUNT
  {
    match event
    case Init => 0 case Connecting => 1 case Connected => 2 case Read => 3 case InboundData => 4
    case Write => 5 case OutboundData => 6 case PendingClose => 7 case Close => 8 case Free => 9
  }

  /** Every event has a handler list of its own. */
  lemma CodesDiffer(a: Event, b: Event)
    ensures a != b ==> Code(a) != Code(b)
  {
  }

  /** s_EventHandler; C stands for the callback and D for the data handed to it. */
  datatype Handler<C, D> = Handler(event: Event, once: bool, callback: C, data: D)

  /** What EventHandle leaves: the handlers that are not once-only, in order. */
  function Lasting<C, D>(handlers: seq<Handler<C, D>>): seq<Handler<C, D>> {
    if handlers == [] then []
    else (if handlers[0].once then [] else [handlers[0]]) + Lasting(handlers[1..])
  }

  /** What EventHandlerRemove leaves. */
  function WithoutCallback<C(==), D>(handlers: seq<Handler<C, D>>, callback: C): seq<Handler<C, D>> {
    if handlers == [] then []
    else (if handlers[0].callback == callback then [] else [handlers[0]]) + WithoutCallback(handlers[1..], callback)
  }

  /** What CopyEventQueue appends: the same handlers, with `data` in place of theirs if given. */
  function Copied<C, D>(handlers: seq<Handler<C, D>>, data: D, replace: bool): (r: seq<Handler<C, D>>)
    ensures |r| == |handlers|
  {
    seq(|handlers|, i requires 0 <= i < |handlers| =>
      if replace then handlers[i].(data := data) else handlers[i])
  }

  /** A copy has the event, the callback and the `once` of its original, and `data` exactly if that is
      to replace the original's own. */
  lemma CopiedIs<C, D>(handlers: seq<Handler<C, D>>, data: D, replace: bool, i: nat)
    requires i < |handlers|
    ensures var h, copy := handlers[i], Copied(handlers, data, replace)[i];
      && copy.event == h.event && copy.once == h.once && copy.callback == h.callback
      && copy.data == if replace then data else h.data
  {
  }

  // ---------------------------------------------------------------- the handlers of several events

  /** The handlers that were added for `event`, in order. */
  function OfEvent<C, D>(handlers: seq<Handler<C, D>>, event: Event): seq<Handler<C, D>> {
    if handlers == [] then []
    else (if handlers[0].event == event then [handlers[0]] else []) + OfEvent(handlers[1..], event)
  }

  /** What a dispatch of `event` leaves: all handlers but the once-only ones of that event. */
  function Unspent<C, D>(handlers: seq<Handler<C, D>>, event: Event): seq<Handler<C, D>> {
    if handlers == [] then []
    else (if handlers[0].event == event && handlers[0].once then [] else [handlers[0]]) + Unspent(handlers[1..], event)
  }

  /** What removing a callback from `event` leaves. */
  function Unhooked<C(==), D>(handlers: seq<Handler<C, D>>, event: Event, callback: C): seq<Handler<C, D>> {
    if handlers == [] then []
    else (if handlers[0].event == event && handlers[0].callback == callback then [] else [handlers[0]])
         + Unhooked(handlers[1..], event, callback)
  }

  lemma {:induction false} OfEventAppend<C, D>(a: seq<Handler<C, D>>, b: seq<Handler<C, D>>, event: Event)
    ensures OfEvent(a + b, event) == OfEvent(a, event) + OfEvent(b, event)
  {
    if a == [] {
      assert a + b == b;
    } else {
      OfEventAppend(a[1..], b, event);
      assert (a + b)[1..] == a[1..] + b;
    }
  }

  lemma OfEventOne<C, D>(h: Handler<C, D>, event: Event)
    ensures OfEvent([h], event) == if h.event == event then [h] else []
  {
    assert [h][1..] == [];
  }

  /** A handler is among those of an event if and only if it was added for that event. */
  lemma {:induction false} OfEventIs<C, D>(handlers: seq<Handler<C, D>>, event: Event, h: Handler<C, D>)
    ensures h in OfEvent(handlers, event) <==> h in handlers && h.event == event
  {
    if handlers != [] {
      OfEventIs(handlers[1..], event, h);
      assert handlers == [handlers[0]] + handlers[1..];
    }
  }

  /** Dispatching an event touches the handlers of that event only. */
  lemma {:induction false} UnspentOf<C, D>(handlers: seq<Handler<C, D>>, event: Event, e: Event)
    ensures OfEvent(Unspent(handlers, event), e)
         == if e == event then Lasting(OfEvent(handlers, e)) else OfEvent(handlers, e)
  {
    if handlers != [] {
      var h, rest := handlers[0], handlers[1..];
      UnspentOf(rest, event, e);
      var head := if h.event == event && h.once then [] else [h];
      OfEventAppend(head, Unspent(rest, event), e);
      OfEventOne(h, e);
      assert [h] + OfEvent(rest, e) == OfEvent(handlers, e) || OfEvent(rest, e) == OfEvent(handlers, e);
      assert h.event == e ==> OfEvent(handlers, e)[1..] == OfEvent(rest, e);
      assert h.event != e ==> OfEvent(head, e) == [];
    }
  }

  lemma {:induction false} UnhookedOf<C, D>(handlers: seq<Handler<C, D>>, event: Event, callback: C, e: Event)
    ensures OfEvent(Unhooked(handlers, event, callback), e)
         == if e == event then WithoutCallback(OfEvent(handlers, e), callback) else OfEvent(handlers, e)
  {
    if handlers != [] {
      var h, rest := handlers[0], handlers[1..];
      UnhookedOf(rest, event, callback, e);
      var head := if h.event == event && h.callback == callback then [] else [h];
      OfEventAppend(head, Unhooked(rest, event, callback), e);
      OfEventOne(h, e);
      assert [h] + OfEvent(rest, e) == OfEvent(handlers, e) || OfEvent(rest, e) == OfEvent(handlers, e);
      assert h.event == e ==> OfEvent(handlers, e)[1..] == OfEvent(rest, e);
      assert h.event != e ==> OfEvent(head, e) == [];
    }
  }

  lemma {:induction false} CopiedOf<C, D>(handlers: seq<Handler<C, D>>, data: D, replace: bool, event: Event)
    ensures OfEvent(Copied(handlers, data, replace), event) == Copied(OfEvent(handlers, event), data, replace)
  {
    if handlers != [] {
      var h, rest := handlers[0], handlers[1..];
      CopiedOf(rest, data, replace, event);
      assert Copied(handlers, data, replace) == Copied([h], data, replace) + Copied(rest, data, replace);
      assert Copied(handlers, data, replace)[1..] == Copied(rest, data, replace);
      var head := if h.event == event then [h] else [];
      assert OfEvent(handlers, event) == head + OfEvent(rest, event);
      assert Copied(head + OfEvent(rest, event), data, replace)
          == Copied(head, data, replace) + Copied(OfEvent(rest, event), data, replace);
    }
  }

  /** A dispatch leaves a handler exactly if it is for another event or not once-only. */
  lemma {:induction false} UnspentIs<C, D>(handlers: seq<Handler<C, D>>, event: Event, h: Handler<C, D>)
    ensures h in Unspent(handlers, event) <==> h in handlers && !(h.event == event && h.once)
  {
    if handlers != [] {
      UnspentIs(handlers[1..], event, h);
      assert handlers == [handlers[0]] + handlers[1..];
    }
  }

  // ---------------------------------------------------------------- runs of one event's handlers

  datatype Request<C, D> =
    | Install(handler: Handler<C, D>)
    | Dispatch
    | Uninstall(callback: C)

  /** A handler with the position of the request that installed it. */
  datatype Installed<C, D> = Installed(tag: nat, handler: Handler<C, D>)

  function KeepLasting<C, D>(list: seq<Installed<C, D>>): seq<Installed<C, D>> {
    if list == [] then [] else (if list[0].handler.once then [] else [list[0]]) + KeepLasting(list[1..])
  }

  function KeepOthers<C(==), D>(list: seq<Installed<C, D>>, callback: C): seq<Installed<C, D>> {
    if list == [] then []
    else (if list[0].handler.callback == callback then [] else [list[0]]) + KeepOthers(list[1..], callback)
  }

  function Handlers<C, D>(list: seq<Installed<C, D>>): (r: seq<Handler<C, D>>)
    ensures |r| == |list|
  {
    seq(|list|, i requires 0 <= i < |list| => list[i].handler)
  }

  lemma HandlersAppend<C, D>(a: seq<Installed<C, D>>, b: seq<Installed<C, D>>)
    ensures Handlers(a + b) == Handlers(a) + Handlers(b)
    ensures forall x: Installed<C, D> :: Handlers([x]) == [x.handler]
  {
  }

  /** Tags do not change what a dispatch or a removal leaves. */
  lemma {:induction false} TagsChangeNothing<C, D>(list: seq<Installed<C, D>>, callback: C)
    ensures Handlers(KeepLasting(list)) == Lasting(Handlers(list))
    ensures Handlers(KeepOthers(list, callback)) == WithoutCallback(Handlers(list), callback)
  {
    if list != [] {
      TagsChangeNothing(list[1..], callback);
      var x := list[0];
      assert list == [x] + list[1..];
      HandlersAppend([x], list[1..]);
      HandlersAppend(if x.handler.once then [] else [x], KeepLasting(list[1..]));
      HandlersAppend(if x.handler.callback == callback then [] else [x], KeepOthers(list[1..], callback));
      hide Handlers;
      assert Handlers(list)[1..] == Handlers(list[1..]);
    }
  }

  function Tags<C, D>(list: seq<Installed<C, D>>): seq<nat> {
    seq(|list|, i requires 0 <= i < |list| => list[i].tag)
  }

  /** The tags called by each dispatch of a run, from the n-th request on. */
  function Calls<C(==), D>(list: seq<Installed<C, D>>, requests: seq<Request<C, D>>, n: nat): seq<seq<nat>>
    decreases |requests|
  {
    if requests == [] then []
    else match requests[0]
      case Install(h) => Calls(list + [Installed(n, h)], requests[1..], n + 1)
      case Dispatch => [Tags(list)] + Calls(KeepLasting(list), requests[1..], n + 1)
      case Uninstall(c) => Calls(KeepOthers(list, c), requests[1..], n + 1)
  }

  /** How often a handler that is installed before `requests` is to be called: on every dispatch
      until its callback is uninstalled, but a once-only handler on the first one at most. */
  function Due<C(==), D>(h: Handler<C, D>, requests: seq<Request<C, D>>): nat
    decreases |requests|
  {
    if requests == [] then 0
    else match requests[0]
      case Install(_) => Due(h, requests[1..])
      case Dispatch => 1 + if h.once then 0 else Due(h, requests[1..])
      case Uninstall(c) => if c == h.callback then 0 else Due(h, requests[1..])
  }

  function Occurrences(calls: seq<seq<nat>>, tag: nat): nat {
    if calls == [] then 0 else (if tag in calls[0] then 1 else 0) + Occurrences(calls[1..], tag)
  }

  ghost predicate Rising(s: seq<nat>) {
    forall i, j :: 0 <= i < j < |s| ==> s[i] < s[j]
  }

  /** Tags rise along the list and are older than the next request. */
  ghost predicate Ordered<C, D>(list: seq<Installed<C, D>>, n: nat) {
    && (forall i :: 0 <= i < |list| ==> list[i].tag < n)
    && (forall i, j :: 0 <= i < j < |list| ==> list[i].tag < list[j].tag)
  }

  lemma {:induction false} KeepLastingMembers<C, D>(list: seq<Installed<C, D>>)
    ensures forall x <- KeepLasting(list) :: x in list && !x.handler.once
    ensures forall x <- list :: !x.handler.once ==> x in KeepLasting(list)
  {
    if list != [] {
      KeepLastingMembers(list[1..]);
      assert list == [list[0]] + list[1..];
    }
  }

  lemma OrderedBefore<C, D>(x: Installed<C, D>, rest: seq<Installed<C, D>>, n: nat)
    requires Ordered(rest, n) && x.tag < n && forall y <- rest :: x.tag < y.tag
    ensures Ordered([x] + rest, n)
  {
  }

  lemma {:induction false} KeepLastingOrdered<C, D>(list: seq<Installed<C, D>>, n: nat)
    requires Ordered(list, n)
    ensures Ordered(KeepLasting(list), n)
  {
    if list != [] {
      KeepLastingOrdered(list[1..], n);
      KeepLastingMembers(list[1..]);
      var rest := KeepLasting(list[1..]);
      OrderedBefore(list[0], rest, n);
      assert [] + rest == rest;
    }
  }

  lemma {:induction false} KeepOthersMembers<C, D>(list: seq<Installed<C, D>>, callback: C)
    ensures forall x <- KeepOthers(list, callback) :: x in list && x.handler.callback != callback
    ensures forall x <- list :: x.handler.callback != callback ==> x in KeepOthers(list, callback)
  {
    if list != [] {
      KeepOthersMembers(list[1..], callback);
      assert list == [list[0]] + list[1..];
    }
  }

  lemma {:induction false} KeepOthersOrdered<C, D>(list: seq<Installed<C, D>>, callback: C, n: nat)
    requires Ordered(list, n)
    ensures Ordered(KeepOthers(list, callback), n)
  {
    if list != [] {
      KeepOthersOrdered(list[1..], callback, n);
      KeepOthersMembers(list[1..], callback);
      var rest := KeepOthers(list[1..], callback);
      OrderedBefore(list[0], rest, n);
      assert [] + rest == rest;
    }
  }

  lemma TagsAre<C, D>(list: seq<Installed<C, D>>, n: nat, x: Installed<C, D>)
    requires Ordered(list, n)
    ensures Rising(Tags(list))
    ensures x in list ==> x.tag in Tags(list)
    ensures x !in list && (forall y <- list :: y.tag == x.tag ==> y == x) ==> x.tag !in Tags(list)
  {
    if x in list {
      var i :| 0 <= i < |list| && list[i] == x;
      assert Tags(list)[i] == x.tag;
    }
  }

  /** Over every run each installed handler is called exactly as often as it is due (a once-only
      handler never twice), and every dispatch calls in registration order. */
  lemma {:induction false} CalledWhenDue<C, D>(list: seq<Installed<C, D>>, requests: seq<Request<C, D>>,
                                               n: nat, x: Installed<C, D>)
    requires Ordered(list, n) && x.tag < n && (forall y <- list :: y.tag == x.tag ==> y == x)
    ensures Occurrences(Calls(list, requests, n), x.tag) == if x in list then Due(x.handler, requests) else 0
    ensures forall s <- Calls(list, requests, n) :: Rising(s)
    decreases |requests|
  {
    if requests != [] {
      match requests[0]
      case Install(h) =>
        CalledWhenDue(list + [Installed(n, h)], requests[1..], n + 1, x);
      case Dispatch =>
        KeepLastingMembers(list);
        KeepLastingOrdered(list, n);
        TagsAre(list, n, x);
        CalledWhenDue(KeepLasting(list), requests[1..], n + 1, x);
      case Uninstall(c) =>
        KeepOthersMembers(list, c);
        KeepOthersOrdered(list, c, n);
        CalledWhenDue(KeepOthers(list, c), requests[1..], n + 1, x);
    }
  }

  /** A handler installed by request k of a run that starts without handlers. */
  lemma {:induction false} InstalledIsCalledWhenDue<C, D>(list: seq<Installed<C, D>>, requests: seq<Request<C, D>>,
                                                          n: nat, k: nat)
    requires Ordered(list, n) && k < |requests| && requests[k].Install?
    ensures Occurrences(Calls(list, requests, n), n + k) == Due(requests[k].handler, requests[k + 1..])
    decreases |requests|
  {
    var r := requests[1..];
    if k == 0 {
      CalledWhenDue(list + [Installed(n, requests[0].handler)], r, n + 1, Installed(n, requests[0].handler));
    } else {
      assert requests[k] == r[k - 1] && requests[k + 1..] == r[k..];
      match requests[0]
      case Install(h) =>
        InstalledIsCalledWhenDue(list + [Installed(n, h)], r, n + 1, k - 1);
      case Dispatch =>
        KeepLastingMembers(list);
        KeepLastingOrdered(list, n);
        assert n + k !in Tags(list);
        InstalledIsCalledWhenDue(KeepLasting(list), r, n + 1, k - 1);
      case Uninstall(c) =>
        KeepOthersMembers(list, c);
        KeepOthersOrdered(list, c, n);
        InstalledIsCalledWhenDue(KeepOthers(list, c), r, n + 1, k - 1);
    }
  }

  lemma {:induction false} OnceIsDueOnce<C, D>(h: Handler<C, D>, requests: seq<Request<C, D>>)
    requires h.once
    ensures Due(h, requests) <= 1
    decreases |requests|
  {
    if requests != [] {
      OnceIsDueOnce(h, requests[1..]);
    }
  }

  /** Over every run a once-only handler is called at most once, however often its event occurs. */
  lemma OnceFiresAtMostOnce<C, D>(requests: seq<Request<C, D>>, k: nat)
    requires k < |requests| && requests[k].Install? && requests[k].handler.once
    ensures Occurrences(Calls([], requests, 0), k) <= 1
  {
    InstalledIsCalledWhenDue([], requests, 0, k);
    OnceIsDueOnce(requests[k].handler, requests[k + 1..]);
  }
}
