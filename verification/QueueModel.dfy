/** What the queue of src/queue.c means: its state as a value and each operation as a function
    on that value, with theorems about every run of operations. The class in Queues.dfy, which
    moves nodes between two linked lists, is proved against these functions, and the pipe
    protocol is built from them. */
module QueueModel {
  import opened EventModel
  import opened Lists

  datatype Option<+T> = None | Some(value: T)

  /** The tagged union s_QueueItem; T stands for the pointers it carries. */
  datatype QueueItem<T> =
    | Undefined
    | EventItem(event: Event, source: T)
    | DataItem(data: T)
    | TaskItem(taskEvent: Event, connection: T, buffer: T)
    | ExitItem

  /** `items` is the busy list in order, `free` the number of recycled nodes. */
  datatype QState<T> = QState(items: seq<QueueItem<T>>, emptied: bool, exit: bool, free: nat)

  function NewQState<T>(): QState<T> {
    QState([], false, false, 0)
  }

  function Enqueue<T>(q: QState<T>, item: QueueItem<T>): (QState<T>, bool) {
    if q.exit then (q, false)
    else (QState(q.items + [item], q.emptied, item.ExitItem?, if q.free == 0 then 0 else q.free - 1), true)
  }

  /** Dequeue without blocking; None is the result false. */
  function Dequeue<T>(q: QState<T>): (QState<T>, Option<QueueItem<T>>) {
    if q.emptied then (q.(emptied := false), None)
    else if q.items == [] then (q, None)
    else (QState(q.items[1..], |q.items| == 1, q.exit, q.free + 1), Some(q.items[0]))
  }

  /** The elements that `p` does not hold of, in order. */
  function Without<X>(s: seq<X>, p: X -> bool): (r: seq<X>)
    ensures |r| <= |s|
  {
    if s == [] then [] else (if p(s[0]) then [] else [s[0]]) + Without(s[1..], p)
  }

  function RemoveAll<T>(q: QState<T>, p: QueueItem<T> -> bool): (QState<T>, bool) {
    var kept := Without(q.items, p);
    (q.(items := kept, free := q.free + |q.items| - |kept|), |kept| < |q.items|)
  }

  /** RemoveAll answers whether it removed something, and touches neither flag and no node. */
  lemma RemoveAllAnswers<T>(q: QState<T>, p: QueueItem<T> -> bool)
    ensures var (q', removed) := RemoveAll(q, p);
      && (removed <==> exists i :: 0 <= i < |q.items| && p(q.items[i]))
      && (forall x :: multiset(q'.items)[x] == if p(x) then 0 else multiset(q.items)[x])
      && q'.emptied == q.emptied && q'.exit == q.exit && |q'.items| + q'.free == |q.items| + q.free
  {
    forall x
      ensures multiset(Without(q.items, p))[x] == if p(x) then 0 else multiset(q.items)[x]
    {
      WithoutIs(q.items, p, x);
    }
    WithoutShrinks(q.items, p);
  }

  /** Exactly the elements that `p` does not hold of stay, each as often as before. */
  lemma {:induction false} WithoutIs<X>(s: seq<X>, p: X -> bool, x: X)
    ensures multiset(Without(s, p))[x] == if p(x) then 0 else multiset(s)[x]
  {
    if s != [] {
      WithoutIs(s[1..], p, x);
      assert s == [s[0]] + s[1..];
    }
  }

  lemma {:induction false} WithoutShrinks<X>(s: seq<X>, p: X -> bool)
    ensures |Without(s, p)| < |s| <==> exists i :: 0 <= i < |s| && p(s[i])
  {
    if s != [] {
      WithoutShrinks(s[1..], p);
      assert forall i :: 0 < i < |s| ==> s[i] == s[1..][i - 1];
    }
  }

  lemma WithoutFirst<X>(s: seq<X>, p: X -> bool)
    ensures s != [] ==> Without(s, p) == (if p(s[0]) then [] else [s[0]]) + Without(s[1..], p)
    ensures s == [] ==> Without(s, p) == []
  {
  }

  lemma Regroup<X>(a: seq<X>, b: seq<X>, c: seq<X>)
    ensures (a + b) + c == a + (b + c)
  {
  }

  lemma {:induction false} WithoutAppend<X>(a: seq<X>, b: seq<X>, p: X -> bool)
    ensures Without(a + b, p) == Without(a, p) + Without(b, p)
  {
    hide Without;
    WithoutFirst(a, p);
    if a == [] {
      assert a + b == b && [] + Without(b, p) == Without(b, p);
    } else {
      WithoutAppend(a[1..], b, p);
      WithoutFirst(a + b, p);
      assert (a + b)[1..] == a[1..] + b;
      Regroup(if p(a[0]) then [] else [a[0]], Without(a[1..], p), Without(b, p));
    }
  }

  /** A walk of RemoveAll that has looked at `done` and has `rest` before it: where it started,
      what the queue is now, and whether something was removed. */
  ghost predicate Walking<T>(start: QState<T>, now: QState<T>, removed: bool,
                             done: seq<QueueItem<T>>, rest: seq<QueueItem<T>>, p: QueueItem<T> -> bool)
  {
    var kept := Without(done, p);
    && start.items == done + rest && |now.items| >= |rest|
    && now == start.(items := kept + rest, free := start.free + |done| - |kept|)
    && (removed <==> |kept| < |done|)
  }

  /** What the queue is after the callback was asked about the item at position `k`. */
  function Asked<T>(q: QState<T>, k: nat, p: QueueItem<T> -> bool): (QState<T>, bool)
    requires k < |q.items|
  {
    if p(q.items[k]) then (q.(items := q.items[..k] + q.items[k + 1..], free := q.free + 1), true)
    else (q, false)
  }

  lemma WalkingStep<T>(start: QState<T>, now: QState<T>, removed: bool,
                       done: seq<QueueItem<T>>, rest: seq<QueueItem<T>>, p: QueueItem<T> -> bool)
    requires Walking(start, now, removed, done, rest, p) && rest != []
    ensures |now.items| >= |rest|
    ensures var (q, gone) := Asked(now, |now.items| - |rest|, p);
      && Walking(start, q, removed || gone, done + [rest[0]], rest[1..], p)
      && |q.items| == if gone then |now.items| - 1 else |now.items|
  {
    WithoutAppend(done, [rest[0]], p);
    assert Without([rest[0]], p) == if p(rest[0]) then [] else [rest[0]];
    hide Without;
    Shift(done, rest);
    Shift(Without(done, p), rest);
  }

  lemma WalkingStarts<T>(q: QState<T>, p: QueueItem<T> -> bool)
    ensures Walking(q, q, false, [], q.items, p)
  {
    assert [] + q.items == q.items;
  }

  lemma WalkingEnds<T>(start: QState<T>, now: QState<T>, removed: bool,
                       done: seq<QueueItem<T>>, rest: seq<QueueItem<T>>, p: QueueItem<T> -> bool)
    requires Walking(start, now, removed, done, rest, p)
    ensures |now.items| >= |rest|
    ensures rest == [] ==> (now, removed) == RemoveAll(start, p)
  {
    if rest == [] {
      assert done + [] == done && Without(done, p) + [] == Without(done, p);
    }
  }

  // ---------------------------------------------------------------- runs of one queue

  datatype Op<!T> =
    | Put(item: QueueItem<T>)
    | Take
    | Discard(matching: QueueItem<T> -> bool)

  /** What became of an accepted item. */
  datatype Fate = Pending | Delivered | Removed

  /** A queue together with everything that was observed of it. `fates` runs the plain
      reference queue (no `emptied`, no recycling): accepting marks a new item pending, a true
      Dequeue marks the oldest pending item, RemoveAll marks every pending item it matches. */
  datatype History<T> = History(
    queue: QState<T>,
    accepted: seq<QueueItem<T>>,
    fates: seq<Fate>,
    delivered: seq<QueueItem<T>>,
    spent: bool,      // the last Dequeue was true and took the last item
    missed: nat,      // false Dequeues while items were present
    idle: nat,        // false Dequeues right after one that took the last item, with nothing present
    emptyings: nat,   // true Dequeues that took the last item
    peak: nat)        // highest number of items ever present

  function Start<T>(): History<T> {
    History(NewQState(), [], [], [], false, 0, 0, 0, 0)
  }

  /** Position of the oldest pending item, or |fates| when there is none. */
  function Oldest(fates: seq<Fate>): (k: nat)
    ensures k <= |fates|
    ensures k < |fates| ==> fates[k] == Pending
    ensures forall i :: 0 <= i < k ==> fates[i] != Pending
  {
    if fates == [] || fates[0] == Pending then 0 else 1 + Oldest(fates[1..])
  }

  function MarkOldest(fates: seq<Fate>): seq<Fate> {
    var k := Oldest(fates);
    if k < |fates| then fates[k := Delivered] else fates
  }

  function MarkRemoved<T>(accepted: seq<QueueItem<T>>, fates: seq<Fate>, p: QueueItem<T> -> bool): (r: seq<Fate>)
    requires |fates| == |accepted|
    ensures |r| == |fates|
  {
    seq(|fates|, i requires 0 <= i < |fates| =>
      if fates[i] == Pending && p(accepted[i]) then Removed else fates[i])
  }

  /** The accepted items with the given fate, in the order in which they were accepted. */
  function Select<X>(accepted: seq<X>, fates: seq<Fate>, fate: Fate): seq<X>
    requires |fates| == |accepted|
  {
    if accepted == [] then []
    else (if fates[0] == fate then [accepted[0]] else []) + Select(accepted[1..], fates[1..], fate)
  }

  function Advance<T>(h: History<T>, op: Op<T>): History<T>
    requires |h.fates| == |h.accepted|
  {
    match op
    case Put(item) =>
      var (q, ok) := Enqueue(h.queue, item);
      if !ok then h.(queue := q)
      else h.(queue := q, accepted := h.accepted + [item], fates := h.fates + [Pending],
              peak := if h.peak < |q.items| then |q.items| else h.peak)
    case Take =>
      var (q, r) := Dequeue(h.queue);
      (match r
       case None =>
         h.(queue := q, spent := false, missed := h.missed + (if h.queue.items == [] then 0 else 1),
            idle := h.idle + if h.spent && h.queue.items == [] then 1 else 0)
       case Some(item) =>
         h.(queue := q, delivered := h.delivered + [item], fates := MarkOldest(h.fates), spent := |h.queue.items| == 1,
            emptyings := h.emptyings + if q.items == [] then 1 else 0))
    case Discard(p) =>
      h.(queue := RemoveAll(h.queue, p).0, fates := MarkRemoved(h.accepted, h.fates, p))
  }

  /** FIFO delivery, as seen from the history alone. */
  ghost predicate Fifo<T>(h: History<T>) {
    && |h.fates| == |h.accepted|
    && h.delivered == Select(h.accepted, h.fates, Delivered)
    && h.queue.items == Select(h.accepted, h.fates, Pending)
    && (forall i, j :: 0 <= i < j < |h.fates| && h.fates[i] == Pending ==> h.fates[j] != Delivered)
  }

  /** At most one EXIT is ever accepted and nothing is accepted after it. */
  ghost predicate ExitLast<T>(h: History<T>) {
    && (forall i :: 0 <= i < |h.accepted| - 1 ==> !h.accepted[i].ExitItem?)
    && (h.queue.exit <==> h.accepted != [] && h.accepted[|h.accepted| - 1].ExitItem?)
  }

  /** No node is ever lost or made needlessly. A Dequeue is false exactly when nothing is present or the
      Dequeue before it took the last item; so each emptying costs one false Dequeue, and those that
      found items are the emptyings whose report is neither pending nor came with nothing present. */
  ghost predicate Accounts<T>(h: History<T>) {
    && |h.queue.items| + h.queue.free == h.peak
    && (h.queue.emptied <==> h.spent)
    && h.missed + h.idle + (if h.spent then 1 else 0) == h.emptyings
  }

  function Run<T>(h: History<T>, ops: seq<Op<T>>): History<T>
    requires |h.fates| == |h.accepted|
    decreases |ops|
  {
    if ops == [] then h
    else
      var h' := Advance(h, ops[0]);
      AdvanceLength(h, ops[0]);
      Run(h', ops[1..])
  }

  lemma AdvanceLength<T>(h: History<T>, op: Op<T>)
    requires |h.fates| == |h.accepted|
    ensures |Advance(h, op).fates| == |Advance(h, op).accepted|
  {
  }

  lemma {:induction false} SelectAppend<X>(a: seq<X>, f: seq<Fate>, x: X, y: Fate, fate: Fate)
    requires |a| == |f|
    ensures Select(a + [x], f + [y], fate) == Select(a, f, fate) + (if y == fate then [x] else [])
  {
    if a == [] {
      assert a + [x] == [x] && f + [y] == [y];
    } else {
      SelectAppend(a[1..], f[1..], x, y, fate);
      assert (a + [x])[1..] == a[1..] + [x] && (f + [y])[1..] == f[1..] + [y];
    }
  }

  /** Marking the oldest pending item moves it from the head of the pending ones to the end of
      the delivered ones, because nothing delivered comes after something pending. */
  lemma {:induction false} SelectMarkOldest<X>(a: seq<X>, f: seq<Fate>)
    requires |a| == |f|
    requires forall i, j :: 0 <= i < j < |f| && f[i] == Pending ==> f[j] != Delivered
    requires Select(a, f, Pending) != []
    ensures var g := MarkOldest(f);
      && Select(a, g, Pending) == Select(a, f, Pending)[1..]
      && Select(a, g, Delivered) == Select(a, f, Delivered) + [Select(a, f, Pending)[0]]
      && (forall i, j :: 0 <= i < j < |g| && g[i] == Pending ==> g[j] != Delivered)
  {
    var g := MarkOldest(f);
    if f[0] == Pending {
      assert g == [Delivered] + f[1..];
      NoneDelivered(a[1..], f[1..]);
    } else {
      SelectMarkOldest(a[1..], f[1..]);
      assert g == [f[0]] + MarkOldest(f[1..]);
      forall i, j | 0 <= i < j < |g| && g[i] == Pending
        ensures g[j] != Delivered
      {
        assert g[i] == MarkOldest(f[1..])[i - 1] && g[j] == MarkOldest(f[1..])[j - 1];
      }
    }
  }

  lemma {:induction false} NoneDelivered<X>(a: seq<X>, f: seq<Fate>)
    requires |a| == |f| && forall i :: 0 <= i < |f| ==> f[i] != Delivered
    ensures Select(a, f, Delivered) == []
  {
    if a != [] {
      NoneDelivered(a[1..], f[1..]);
    }
  }

  lemma {:induction false} SelectMarkRemoved<T>(a: seq<QueueItem<T>>, f: seq<Fate>, p: QueueItem<T> -> bool)
    requires |a| == |f|
    ensures var g := MarkRemoved(a, f, p);
      && Select(a, g, Pending) == Without(Select(a, f, Pending), p)
      && Select(a, g, Delivered) == Select(a, f, Delivered)
  {
    if a != [] {
      SelectMarkRemoved(a[1..], f[1..], p);
      assert MarkRemoved(a, f, p)[1..] == MarkRemoved(a[1..], f[1..], p);
      var head := if f[0] == Pending then [a[0]] else [];
      WithoutAppend(head, Select(a[1..], f[1..], Pending), p);
    }
  }

  lemma PutKeeps<T>(h: History<T>, item: QueueItem<T>)
    requires Fifo(h) && ExitLast(h) && Accounts(h)
    ensures var e := Advance(h, Put(item)); Fifo(e) && ExitLast(e) && Accounts(e)
  {
    SelectAppend(h.accepted, h.fates, item, Pending, Pending);
    SelectAppend(h.accepted, h.fates, item, Pending, Delivered);
  }

  lemma TakeKeeps<T>(h: History<T>)
    requires Fifo(h) && ExitLast(h) && Accounts(h)
    ensures var e := Advance(h, Take); Fifo(e) && ExitLast(e) && Accounts(e)
  {
    if Dequeue(h.queue).1.Some? {
      SelectMarkOldest(h.accepted, h.fates);
    }
  }

  lemma DiscardKeeps<T>(h: History<T>, p: QueueItem<T> -> bool)
    requires Fifo(h) && ExitLast(h) && Accounts(h)
    ensures var e := Advance(h, Discard(p)); Fifo(e) && ExitLast(e) && Accounts(e)
  {
    SelectMarkRemoved(h.accepted, h.fates, p);
  }

  lemma AdvanceKeeps<T>(h: History<T>, op: Op<T>)
    requires Fifo(h) && ExitLast(h) && Accounts(h)
    ensures Fifo(Advance(h, op)) && ExitLast(Advance(h, op)) && Accounts(Advance(h, op))
  {
    match op
    case Put(item) => PutKeeps(h, item);
    case Take => TakeKeeps(h);
    case Discard(p) => DiscardKeeps(h, p);
  }

  /** Over every run: true Dequeues deliver exactly the accepted, unremoved items in the order
      they were accepted, a false one loses nothing, EXIT comes last, and nodes are conserved. */
  lemma {:induction false} RunKeeps<T>(h: History<T>, ops: seq<Op<T>>)
    requires Fifo(h) && ExitLast(h) && Accounts(h)
    ensures var e := Run(h, ops); Fifo(e) && ExitLast(e) && Accounts(e)
    decreases |ops|
  {
    if ops != [] {
      AdvanceKeeps(h, ops[0]);
      RunKeeps(Advance(h, ops[0]), ops[1..]);
    }
  }

  lemma QueueRefinesFifo<T>(ops: seq<Op<T>>)
    ensures var e := Run(Start<T>(), ops); Fifo(e) && ExitLast(e) && Accounts(e)
  {
    RunKeeps(Start<T>(), ops);
  }

  /** The last Dequeue among `ops`, if there was one, delivered the only item that was present. */
  ghost predicate TookTheLast<T>(ops: seq<Op<T>>) {
    exists i :: 0 <= i < |ops| && IsLastTake(ops, i) && Empties(ops, i)
  }

  ghost predicate IsLastTake<T>(ops: seq<Op<T>>, i: nat) {
    i < |ops| && ops[i].Take? && forall j :: i < j < |ops| ==> !ops[j].Take?
  }

  /** The i-th operation delivers the only item that is present. */
  ghost predicate Empties<T>(ops: seq<Op<T>>, i: nat)
    requires i < |ops|
  {
    var before, after := Run(Start<T>(), ops[..i]), Run(Start<T>(), ops[..i + 1]);
    |before.queue.items| == 1 && after.delivered == before.delivered + before.queue.items
  }

  /** In every run: a Dequeue is false if and only if nothing is present, or the last Dequeue took the
      last item; whatever was put since then. A false one leaves the flag clear. */
  lemma TakeFailsExactlyWhen<T>(ops: seq<Op<T>>)
    ensures var q := Run(Start<T>(), ops).queue;
      && (Dequeue(q).1.None? <==> q.items == [] || TookTheLast(ops))
      && (Dequeue(q).1.None? ==> Dequeue(q).0 == q.(emptied := false))
  {
    QueueRefinesFifo(ops);
    SpentIs(ops);
  }

  lemma {:induction false} SpentIs<T>(ops: seq<Op<T>>)
    ensures Run(Start<T>(), ops).spent <==> TookTheLast(ops)
    decreases |ops|
  {
    if ops != [] {
      var n := |ops| - 1;
      var rest := ops[..n];
      SpentIs(rest);
      QueueRefinesFifo(rest);
      RunJoins(Start<T>(), rest, ops[n]);
      assert rest + [ops[n]] == ops && ops[..n + 1] == ops;
      if ops[n].Take? {
        assert IsLastTake(ops, n);
        TakeEmpties(Run(Start<T>(), rest));
        assert Run(Start<T>(), ops).spent <==> Empties(ops, n);
      } else {
        LastTakeEarlier(rest, ops[n]);
      }
    }
  }

  lemma TakeEmpties<T>(h: History<T>)
    requires Fifo(h) && ExitLast(h) && Accounts(h)
    ensures var e := Advance(h, Take);
      e.spent <==> |h.queue.items| == 1 && e.delivered == h.delivered + h.queue.items
  {
    assert |h.queue.items| == 1 ==> h.queue.items == [h.queue.items[0]];
  }

  lemma LastTakeEarlier<T>(ops: seq<Op<T>>, op: Op<T>)
    requires !op.Take?
    ensures TookTheLast(ops + [op]) <==> TookTheLast(ops)
  {
    var all := ops + [op];
    forall i | 0 <= i < |ops|
      ensures IsLastTake(all, i) <==> IsLastTake(ops, i)
      ensures Empties(all, i) <==> Empties(ops, i)
    {
      assert all[..i] == ops[..i] && all[..i + 1] == ops[..i + 1];
      assert forall j :: i < j < |ops| ==> all[j] == ops[j];
    }
  }

  lemma {:induction false} RunJoins<T>(h: History<T>, ops: seq<Op<T>>, op: Op<T>)
    requires |h.fates| == |h.accepted|
    ensures |Run(h, ops).fates| == |Run(h, ops).accepted|
    ensures Run(h, ops + [op]) == Advance(Run(h, ops), op)
    decreases |ops|
  {
    if ops == [] {
      assert ops + [op] == [op] && [op][1..] == [];
    } else {
      AdvanceLength(h, ops[0]);
      RunJoins(Advance(h, ops[0]), ops[1..], op);
      assert (ops + [op])[1..] == ops[1..] + [op];
    }
  }

  /** When EXIT has been delivered, everything accepted before it was delivered or removed. */
  lemma ExitIsDeliveredLast<T>(ops: seq<Op<T>>, k: nat)
    requires var e := Run(Start<T>(), ops);
      k < |e.accepted| == |e.fates| && e.accepted[k].ExitItem? && e.fates[k] == Delivered
    ensures var e := Run(Start<T>(), ops);
      k == |e.accepted| - 1 && e.queue.items == [] && forall i :: 0 <= i < k ==> e.fates[i] != Pending
  {
    QueueRefinesFifo(ops);
    var e := Run(Start<T>(), ops);
    NonePending(e.accepted, e.fates);
  }

  lemma {:induction false} NonePending<X>(a: seq<X>, f: seq<Fate>)
    requires |a| == |f| && forall i :: 0 <= i < |f| ==> f[i] != Pending
    ensures Select(a, f, Pending) == []
  {
    if a != [] {
      NonePending(a[1..], f[1..]);
    }
  }

  // ---------------------------------------------------------------- draining

  /** The loop `while (Dequeue(queue, item, false))` of the consumers. */
  function Drain<T>(q: QState<T>): (QState<T>, seq<QueueItem<T>>)
    decreases |q.items|
  {
    var (q', r) := Dequeue(q);
    if r.None? then (q', [])
    else
      var (end, rest) := Drain(q');
      (end, [r.value] + rest)
  }

  /** One such loop delivers everything unless the last emptying is still unreported and items
      have arrived since; then it delivers nothing, and the next loop delivers everything. */
  lemma {:induction false} DrainDeliversAll<T>(q: QState<T>)
    ensures Drain(q).1 == q.items <==> !q.emptied || q.items == []
    ensures Drain(q).1 == if q.emptied then [] else q.items
    ensures !Drain(q).0.emptied
    ensures Drain(Drain(q).0).1 == Drain(q).0.items
    ensures Drain(q).1 + Drain(Drain(q).0).1 == q.items
    decreases |q.items|
  {
    if !q.emptied && q.items != [] {
      DrainDeliversAll(Dequeue(q).0);
    } else {
      var c := q.(emptied := false);
      if c.items != [] && q.emptied {
        DrainRest(c);
      }
    }
  }

  lemma {:induction false} DrainRest<T>(q: QState<T>)
    requires !q.emptied
    ensures Drain(q).1 == q.items && Drain(q).0.items == [] && !Drain(q).0.emptied
    decreases |q.items|
  {
    if |q.items| > 1 {
      DrainRest(Dequeue(q).0);
    } else if |q.items| == 1 {
      assert Dequeue(Dequeue(q).0).1 == None;
    }
  }
}
