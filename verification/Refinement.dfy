/** Every step of a pipe is one step of one connection's life, or of none. */
module Refinement {
  import opened EventModel
  import opened QueueModel
  import opened Connections
  import opened Lives
  import opened Reactions
  import opened Invariants
  import opened Streams
  import opened Pipes
  import opened Projection
  import opened SelectorModel
  import B = BufferModel

  ghost predicate Quiet(s: Pipe, d: nat) {
    Lines(s, d) == ([], [], [], [], false, false)
  }

  /** Every connection's life is in order, and nothing is queued about any other descriptor. */
  ghost predicate AllGood(s: Pipe) {
    && PoolOk(s) && !s.acceptor.exit
    && (forall c :: c in s.members ==> Good(View(s, c)))
    && (forall d :: d !in s.members ==> Quiet(s, d))
  }

  /** What the worker holds is a task of a connection, with a buffer of its pool. */
  ghost predicate Held(s: Pipe) {
    s.serving.Some? ==>
      && s.serving.value.TaskItem? && s.serving.value.buffer.Slab?
      && s.serving.value.connection.Link? && s.serving.value.connection.conn in s.members
  }

  /** The reader's selector holds the connections whose read key is set. */
  ghost predicate Keyed(s: Pipe) {
    forall c :: c in s.registry <==> c in s.members && s.members[c].conn.readKey
  }

  /** What `c` does in a step that changes nothing elsewhere. */
  ghost predicate Lived(s: Pipe, t: Pipe, c: nat, a: Act) {
    && c in s.members && PoolOk(t) && !t.acceptor.exit && Elsewhere(s, t, c)
    && Enabled(View(s, c), a) && View(t, c) == Next(View(s, c), a)
  }

  lemma PartsOfGood(l: Life)
    requires Good(l)
    ensures Base(l) && Forms(l)
  {
  }

  lemma SizeOf(l: Life)
    requires Good(l)
    ensures l.conn.readBuffer.size == l.size
  {
    hide Base, ReaderForm, WorkerForm, WriterForm, AcceptorForm, Inbound, Interests;
  }

  lemma WantWriteLived(s: Pipe, c: nat)
    requires AllGood(s) && c in s.members
    ensures Lived(s, Spread(s, c, Interest(s.members[c].conn, Open(s))), c, WantWrite)
  {
    hide Good, Quiet, PoolOk, Interest, Carry, Elsewhere, Spread, View;
    ViewIs(s, c);
    SizeOf(View(s, c));
    var conn := s.members[c].conn;
    InterestTame(conn, Open(s));
    SpreadIs(s, c, conn, Interest(conn, Open(s)));
    SpreadAcceptor(s, c, Interest(conn, Open(s)));
  }

  /** What a view shows of the connection itself. */
  lemma ViewIs(s: Pipe, c: nat)
    requires c in s.members
    ensures var l := View(s, c); var m := s.members[c];
      && l.self == c && l.size == s.size && l.conn == m.conn && l.progress == m.progress && l.accepts == Open(s)
      && l == l.(load := if m.conn.readKey then 1 else 0)
  {
  }

  lemma SpreadAcceptor(s: Pipe, c: nat, r: (Conn, Effect))
    requires c in s.members
    ensures Spread(s, c, r).acceptor.exit == s.acceptor.exit
  {
    hide Handed, Post, Without;
  }

  lemma WantCloseLived(s: Pipe, c: nat, force: bool)
    requires AllGood(s) && c in s.members
    ensures Lived(s, Spread(s, c, CloseConnection(s.members[c].conn, force, Open(s))), c, WantClose(force))
  {
    hide Good, Quiet, PoolOk, EnterState, Carry, Elsewhere, Spread, View;
    ViewIs(s, c);
    SizeOf(View(s, c));
    var conn := s.members[c].conn;
    var r := CloseConnection(conn, force, Open(s));
    EnterTame(conn, if force then StateClosed else StatePendingClose, Open(s));
    SpreadIs(s, c, conn, r);
    SpreadAcceptor(s, c, r);
  }

  lemma ArriveLived(s: Pipe, c: nat, input: Input)
    requires AllGood(s) && Keyed(s) && c in s.registry && c in s.members && MayReceive(s.members[c].conn, input)
    ensures var id := HandedId(s, ReadInput(s.members[c].conn, input, Open(s)).1.copy);
      Lived(s, Spread(s, c, ReadInput(s.members[c].conn, input, Open(s))), c, Arrive(input, id))
  {
    hide Good, Quiet, PoolOk, ReadInput, Carry, Elsewhere, Spread, View, HandedId;
    ViewIs(s, c);
    SizeOf(View(s, c));
    var conn := s.members[c].conn;
    var r := ReadInput(conn, input, Open(s));
    ReadTame(conn, input, Open(s));
    SpreadIs(s, c, conn, r);
    SpreadAcceptor(s, c, r);
  }

  lemma ManageLived(s: Pipe, c: nat)
    requires AllGood(s) && c in s.members && s.members[c].progress < 10
    ensures Lived(s, Manages(s, c), c, Manage)
  {
    hide Good, Quiet, PoolOk, HandOver, Carry, Elsewhere, Spread, View, About;
    if s.members[c].progress < 2 {
      QueueLived(s, c);
    } else {
      HandOverLived(s, c);
    }
  }

  /** A step of the hand-over before its effects. */
  lemma ProgressIs(s: Pipe, c: nat, progress: nat)
    requires c in s.members && PoolOk(s)
    ensures var t := WithProgress(s, c, progress);
      && PoolOk(t) && Elsewhere(s, t, c) && t.acceptor == s.acceptor && t.reader == s.reader
      && Open(t) == Open(s) && t.size == s.size
      && c in t.members && t.members[c] == s.members[c].(progress := progress)
      && View(t, c) == View(s, c).(progress := progress)
  {
    hide About;
  }

  lemma ElsewhereTwice(s: Pipe, t: Pipe, u: Pipe, c: nat)
    requires Elsewhere(s, t, c) && Elsewhere(t, u, c)
    ensures Elsewhere(s, u, c)
  {
    hide Lines;
  }

  lemma HandOverLived(s: Pipe, c: nat)
    requires AllGood(s) && c in s.members && 2 <= s.members[c].progress < 10
    ensures Lived(s, Manages(s, c), c, Manage)
  {
    hide Good, Quiet, PoolOk, HandOver, Carry, Spread, View, Elsewhere, WithProgress;
    ViewIs(s, c);
    SizeOf(View(s, c));
    var m := s.members[c];
    var next := WithProgress(s, c, m.progress + 1);
    ProgressIs(s, c, m.progress + 1);
    var r := HandOver(m.conn, m.progress, Open(s));
    HandOverTame(m.conn, m.progress, Open(s));
    SpreadIs(next, c, m.conn, r);
    SpreadAcceptor(next, c, r);
    ElsewhereTwice(s, next, Spread(next, c, r), c);
  }

  lemma AcceptorPush(s: Pipe, c: nat)
    requires c in s.members && PoolOk(s) && !s.acceptor.exit
    ensures var t := s.(acceptor := Enqueue(s.acceptor, DataOf(c)).0);
      && PoolOk(t) && !t.acceptor.exit && Elsewhere(s, t, c)
      && View(t, c) == View(s, c).(acceptor := View(s, c).acceptor + [DataOf(c)])
  {
    hide About;
    forall d
      ensures About(s.acceptor.items + [DataOf(c)], d)
           == if d == c then About(s.acceptor.items, d) + [DataOf(c)] else About(s.acceptor.items, d)
    {
      PushIs(s.acceptor.items, DataOf(c), d);
    }
  }

  lemma ReaderPush(s: Pipe, c: nat)
    requires c in s.members && PoolOk(s) && !s.reader.exit
    ensures var t := s.(reader := Enqueue(s.reader, DataOf(c)).0);
      && PoolOk(t) && t.acceptor == s.acceptor && Elsewhere(s, t, c)
      && View(t, c) == View(s, c).(reader := View(s, c).reader + [DataOf(c)])
  {
    hide About;
    forall d
      ensures About(s.reader.items + [DataOf(c)], d)
           == if d == c then About(s.reader.items, d) + [DataOf(c)] else About(s.reader.items, d)
    {
      PushIs(s.reader.items, DataOf(c), d);
    }
  }

  lemma QueueLived(s: Pipe, c: nat)
    requires AllGood(s) && c in s.members && s.members[c].progress < 2
    ensures Lived(s, Manages(s, c), c, Manage)
  {
    hide Good, Quiet, PoolOk, View, Elsewhere, WithProgress, Enqueue;
    ViewIs(s, c);
    var m := s.members[c];
    ProgressIs(s, c, m.progress + 1);
    ProgressIs(s, c, 11);
    var next := WithProgress(s, c, m.progress + 1);
    QueuedIs(View(s, c));
    assert Enqueue(s.reader, DataOf(c)).1 == !s.reader.exit by {
      EnqueueIs(s.reader, DataOf(c));
    }
    if m.progress == 0 {
      AcceptorPush(next, c);
      ElsewhereTwice(s, next, Manages(s, c), c);
    } else if !s.reader.exit {
      ReaderPush(next, c);
      ElsewhereTwice(s, next, Manages(s, c), c);
    }
  }

  lemma EnqueueIs(q: QState<Ptr>, x: Item)
    ensures Enqueue(q, x).1 == !q.exit
  {
  }

  lemma PushIs(items: seq<Item>, x: Item, d: nat)
    ensures About(items + [x], d) == if Names(x, d) then About(items, d) + [x] else About(items, d)
  {
    AboutAppend(items, [x], d);
    AboutUniform([x], d);
  }

  // ---------------------------------------------------------------- dequeued items

  /** The connection an item is about. */
  function Whom(x: Item): Option<nat> {
    match x
    case EventItem(_, p) => if p.Link? then Some(p.conn) else None
    case DataItem(p) => if p.Link? then Some(p.conn) else None
    case TaskItem(_, p, _) => if p.Link? then Some(p.conn) else None
    case _ => None
  }

  /** Nobody's life changed. */
  ghost predicate Unmoved(s: Pipe, t: Pipe) {
    && PoolOk(t) && t.acceptor == s.acceptor && t.size == s.size && Open(t) == Open(s) && t.members == s.members
    && forall d :: Lines(t, d) == Lines(s, d)
  }

  lemma HeadIsKnown(s: Pipe, q: QState<Ptr>, x: Item)
    requires AllGood(s) && (q == s.reader || q == s.worker || q == s.writer)
    requires Dequeue(q).1 == Some(x) && Whom(x).Some?
    ensures Whom(x).value in s.members
  {
    hide Good, PoolOk;
    AboutFront(q.items, Whom(x).value);
    StrangerIs(s, Whom(x).value);
  }

  lemma StrangerIs(s: Pipe, d: nat)
    requires AllGood(s)
    ensures d !in s.members ==> About(s.reader.items, d) == [] && About(s.worker.items, d) == [] && About(s.writer.items, d) == []
  {
    hide Good, PoolOk, About;
    assert Quiet(s, d) || d in s.members;
  }

  lemma DequeueIs(q: QState<Ptr>, d: nat)
    ensures var (q', r) := Dequeue(q);
      && q'.exit == q.exit
      && (r.None? ==> About(q'.items, d) == About(q.items, d))
      && (r.Some? ==> q.items != [] && q.items[0] == r.value && q'.items == q.items[1..])
      && (r.Some? && Whom(r.value) != Some(d) ==> About(q'.items, d) == About(q.items, d))
      && (r.Some? && Whom(r.value) == Some(d) ==>
          About(q.items, d) != [] && About(q.items, d)[0] == r.value && About(q'.items, d) == About(q.items, d)[1..])
  {
  }

  lemma ReaderPopped(s: Pipe, c: nat)
    requires c in s.members && PoolOk(s) && Dequeue(s.reader).1.Some? && Whom(Dequeue(s.reader).1.value) == Some(c)
    ensures var (q, x) := Dequeue(s.reader); var t := s.(reader := q); var l := View(s, c);
      && PoolOk(t) && Elsewhere(s, t, c) && Open(t) == Open(s) && l.reader != [] && l.reader[0] == x.value
      && View(t, c) == l.(reader := l.reader[1..])
  {
    hide About, Dequeue;
    forall d
      ensures d != c ==> About(Dequeue(s.reader).0.items, d) == About(s.reader.items, d)
    {
      DequeueIs(s.reader, d);
    }
    DequeueIs(s.reader, c);
  }

  lemma ReaderUnmoved(s: Pipe)
    requires PoolOk(s) && (Dequeue(s.reader).1.Some? ==> Whom(Dequeue(s.reader).1.value).None?)
    ensures Unmoved(s, s.(reader := Dequeue(s.reader).0))
  {
    hide About, Dequeue;
    forall d
      ensures About(Dequeue(s.reader).0.items, d) == About(s.reader.items, d)
    {
      DequeueIs(s.reader, d);
    }
    DequeueIs(s.reader, 0);
  }

  lemma ReaderTookData(s: Pipe, c: nat)
    requires AllGood(s) && c in s.members && Dequeue(s.reader).1 == Some(DataOf(c))
    ensures Lived(s, ReaderTurn(s), c, TakeReader)
  {
    hide Good, Quiet, PoolOk, View, Elsewhere, Spread, Carry, ManagedBy, Dequeue, Base, Forms;
    ViewIs(s, c);
    SizeOf(View(s, c));
    PartsOfGood(View(s, c));
    ReaderPopped(s, c);
    TookData(View(s, c));
    var popped := s.(reader := Dequeue(s.reader).0);
    var t := popped.(registry := MapRegister(s.registry, OP_READ, c, c), load := s.load + 1);
    SameParts(popped, t);
    var b := s.members[c].conn.(readKey := true);
    var r := ManagedBy(b, Reader, Open(s));
    ManagedTame(b, Reader, Open(s));
    SpreadIs(t, c, b, r);
    SpreadAcceptor(t, c, r);
    ElsewhereTwice(s, popped, t, c);
    ElsewhereTwice(s, t, Spread(t, c, r), c);
  }

  /** The registry and the load are no part of a view. */
  lemma SameParts(s: Pipe, t: Pipe)
    requires t == s.(registry := t.registry, load := t.load)
    ensures PoolOk(s) ==> PoolOk(t)
    ensures forall c :: Elsewhere(s, t, c)
    ensures forall c :: c in s.members ==> View(t, c) == View(s, c)
    ensures Open(t) == Open(s)
  {
    hide About;
  }

  /** Another connection in place of an old one. */
  lemma ConnIs(s: Pipe, c: nat, conn: Conn)
    requires c in s.members
    ensures var t := WithConn(s, c, conn);
      && (PoolOk(s) ==> PoolOk(t)) && Elsewhere(s, t, c) && t.acceptor == s.acceptor
      && View(t, c) == View(s, c).(conn := conn, load := if conn.readKey then 1 else 0)
  {
    hide About;
  }

  lemma ReaderTookClose(s: Pipe, c: nat)
    requires AllGood(s) && c in s.members && Dequeue(s.reader).1 == Some(EventOf(c, Close))
    ensures Lived(s, ReaderTurn(s), c, TakeReader)
  {
    hide Good, Quiet, PoolOk, View, Elsewhere, Dequeue, Base, Forms, WithConn, Vote, MapUnregister;
    ViewIs(s, c);
    PartsOfGood(View(s, c));
    ReaderPopped(s, c);
    TookEvent(View(s, c));
    var popped := s.(reader := Dequeue(s.reader).0);
    var t := popped.(registry := ReaderRegistry(s, c), load := s.load - 1);
    SameParts(popped, t);
    ElsewhereTwice(s, popped, t, c);
    var voted := Vote(s.members[c].conn.(readKey := false), Reader);
    ConnIs(t, c, voted);
    ElsewhereTwice(s, t, WithConn(t, c, voted), c);
  }

  lemma ReaderTookOther(s: Pipe, c: nat)
    requires AllGood(s) && c in s.members && Dequeue(s.reader).1.Some? && Whom(Dequeue(s.reader).1.value) == Some(c)
    requires Dequeue(s.reader).1.value != DataOf(c) && Dequeue(s.reader).1.value != EventOf(c, Close)
    ensures Lived(s, ReaderTurn(s), c, TakeReader)
  {
    hide Good, Quiet, PoolOk, View, Elsewhere, Dequeue, Base, Forms;
    ViewIs(s, c);
    PartsOfGood(View(s, c));
    ReaderPopped(s, c);
    TookEvent(View(s, c));
  }

  /** Who takes part in the reader's next round. */
  lemma ReaderLived(s: Pipe)
    requires AllGood(s)
    ensures var r := Dequeue(s.reader).1;
      if r.Some? && Whom(r.value).Some? then Lived(s, ReaderTurn(s), Whom(r.value).value, TakeReader)
      else Unmoved(s, ReaderTurn(s))
  {
    hide Good, Quiet, PoolOk, View, Elsewhere, Dequeue, Spread, Lived, Unmoved;
    var r := Dequeue(s.reader).1;
    if r.Some? && Whom(r.value).Some? {
      HeadIsKnown(s, s.reader, r.value);
      if r.value == DataOf(Whom(r.value).value) {
        ReaderTookData(s, Whom(r.value).value);
      } else if r.value == EventOf(Whom(r.value).value, Close) {
        ReaderTookClose(s, Whom(r.value).value);
      } else {
        ReaderTookOther(s, Whom(r.value).value);
      }
    } else {
      ReaderUnmoved(s);
    }
  }

  // ---------------------------------------------------------------- the worker

  lemma WorkerPopped(s: Pipe, c: nat)
    requires c in s.members && PoolOk(s) && Dequeue(s.worker).1.Some? && Whom(Dequeue(s.worker).1.value) == Some(c)
    ensures var (q, x) := Dequeue(s.worker); var t := s.(worker := q); var l := View(s, c);
      && PoolOk(t) && Elsewhere(s, t, c) && Open(t) == Open(s) && l.worker != [] && l.worker[0] == x.value
      && View(t, c) == l.(worker := l.worker[1..])
  {
    hide About, Dequeue;
    forall d
      ensures d != c ==> About(Dequeue(s.worker).0.items, d) == About(s.worker.items, d)
    {
      DequeueIs(s.worker, d);
    }
    DequeueIs(s.worker, c);
  }

  lemma WorkerUnmoved(s: Pipe)
    requires PoolOk(s) && (Dequeue(s.worker).1.Some? ==> Whom(Dequeue(s.worker).1.value).None?)
    ensures Unmoved(s, s.(worker := Dequeue(s.worker).0))
  {
    hide About, Dequeue;
    forall d
      ensures About(Dequeue(s.worker).0.items, d) == About(s.worker.items, d)
    {
      DequeueIs(s.worker, d);
    }
    DequeueIs(s.worker, 0);
  }

  /** The worker starts on a task. */
  lemma ServingIs(s: Pipe, c: nat, x: Item)
    requires c in s.members && s.serving.None? && Whom(x) == Some(c)
    ensures var t := s.(serving := Some(x));
      && (PoolOk(s) ==> PoolOk(t)) && Elsewhere(s, t, c) && View(t, c) == View(s, c).(serving := true)
  {
    hide About;
  }

  lemma WorkerTookTask(s: Pipe, c: nat)
    requires AllGood(s) && c in s.members && s.serving.None?
    requires Dequeue(s.worker).1.Some? && Dequeue(s.worker).1.value.TaskItem? && Whom(Dequeue(s.worker).1.value) == Some(c)
    ensures Lived(s, WorkerTurn(s), c, TakeWorker)
  {
    hide Good, Quiet, PoolOk, View, Elsewhere, Dequeue, Base, WithConn, B.Content;
    ViewIs(s, c);
    NotServing(s, c);
    PartsOfGood(View(s, c));
    WorkerPopped(s, c);
    TookTask(View(s, c));
    var x := Dequeue(s.worker).1.value;
    var popped := s.(worker := Dequeue(s.worker).0);
    var t := popped.(serving := Some(x));
    ServingIs(popped, c, x);
    ElsewhereTwice(s, popped, t, c);
    var conn := s.members[c].conn;
    var heard := conn.(log := conn.log.(delivered := conn.log.delivered + B.Content(x.buffer.mem)));
    ConnIs(t, c, heard);
    ElsewhereTwice(s, t, WithConn(t, c, heard), c);
  }

  lemma NotServing(s: Pipe, c: nat)
    requires c in s.members && s.serving.None?
    ensures !View(s, c).serving
  {
  }

  lemma {:induction false} WithoutMembers(s: seq<Item>, p: Item -> bool)
    ensures forall x <- Without(s, p) :: x in s && !p(x)
  {
    if s != [] {
      WithoutMembers(s[1..], p);
      assert s == [s[0]] + s[1..];
    }
  }

  lemma {:induction false} AboutHas(items: seq<Item>, c: nat, x: Item)
    requires x in items && Names(x, c)
    ensures x in About(items, c)
  {
    hide Names;
    if x != items[0] {
      AboutHas(items[1..], c, x);
    }
  }

  /** Something is removed exactly if something is removed of what is about `c`. */
  lemma {:induction false} RemovedSame(items: seq<Item>, p: Item -> bool, c: nat)
    requires forall x: Item :: p(x) ==> Names(x, c)
    ensures |items| - |Without(items, p)| == |About(items, c)| - |Without(About(items, c), p)|
  {
    hide Names;
    if items != [] {
      RemovedSame(items[1..], p, c);
      var own := if Names(items[0], c) then [items[0]] else [];
      WithoutAppend(own, About(items[1..], c), p);
      assert own != [] ==> own[1..] == [];
    }
  }

  lemma {:induction false} ReleasedAllOk(pool: QState<Ptr>, tasks: seq<Item>, size: nat)
    requires !pool.exit && forall x <- pool.items :: Fresh(x, size)
    requires forall x <- tasks :: x.TaskItem? && x.buffer.Slab? && x.buffer.mem.size == size
    ensures var q := ReleasedAll(pool, tasks); !q.exit && forall x <- q.items :: Fresh(x, size)
    decreases |tasks|
  {
    hide Released, Fresh;
    if tasks != [] {
      var q := Released(pool, tasks[0].buffer);
      ReleasedIs(pool, tasks[0].buffer, size);
      IsFresh(tasks[0].buffer.id, size);
      ReleasedAllOk(q, tasks[1..], size);
    }
  }

  lemma IsFresh(id: nat, size: nat)
    ensures Fresh(DataItem(Slab(id, NewMem(size))), size)
  {
  }

  /** The buffers of the tasks that the worker drops go back to the pool. */
  lemma DroppedPool(s: Pipe, items: seq<Item>, c: nat)
    requires PoolOk(s) && forall x <- About(items, c) :: x.TaskItem? ==> x.buffer.Slab? && x.buffer.mem.size == s.size
    ensures PoolOk(s.(pool := ReleasedAll(s.pool, Without(items, NoTask(c)))))
  {
    hide Fresh, ReleasedAll;
    var tasks := Without(items, NoTask(c));
    WithoutMembers(items, NoTask(c));
    forall x | x in tasks
      ensures x.TaskItem? && x.buffer.Slab? && x.buffer.mem.size == s.size
    {
      assert !NoTask(c)(x);
      assert IsTask(c)(x);
      AboutHas(items, c, x);
    }
    ReleasedAllOk(s.pool, tasks, s.size);
  }

  /** RemoveAll on the worker's queue. */
  lemma PurgedWorker(s: Pipe, c: nat, pool: QState<Ptr>)
    requires c in s.members
    ensures var t := s.(worker := RemoveAll(s.worker, IsTask(c)).0, pool := pool); var l := View(s, c);
      && Elsewhere(s, t, c) && View(t, c) == l.(worker := Without(l.worker, IsTask(c)))
      && (RemoveAll(s.worker, IsTask(c)).1 <==> |Without(l.worker, IsTask(c))| < |l.worker|)
  {
    hide About, Without;
    var q := RemoveAll(s.worker, IsTask(c)).0;
    forall d | d != c
      ensures About(q.items, d) == About(s.worker.items, d)
    {
      AboutOther(s.worker.items, IsTask(c), c, d);
    }
    AboutWithout(s.worker.items, IsTask(c), c);
    RemovedSame(s.worker.items, IsTask(c), c);
  }

  /** The worker's CLOSE up to the vote: the connection's tasks are gone, their buffers released. */
  lemma TasksDropped(s: Pipe, c: nat)
    requires AllGood(s) && c in s.members
    requires Dequeue(s.worker).1.Some? && Whom(Dequeue(s.worker).1.value) == Some(c)
    ensures var q := Dequeue(s.worker).0; var t := s.(worker := RemoveAll(q, IsTask(c)).0,
                                                    pool := ReleasedAll(s.pool, Without(q.items, NoTask(c))));
      var l := View(s, c);
      && PoolOk(t) && Elsewhere(s, t, c) && Open(t) == Open(s) && l.worker != [] && l.worker[0] == Dequeue(s.worker).1.value
      && View(t, c) == l.(worker := Without(l.worker[1..], IsTask(c)))
      && (RemoveAll(q, IsTask(c)).1 <==> |Without(l.worker[1..], IsTask(c))| < |l.worker[1..]|)
  {
    hide Good, Quiet, PoolOk, View, Elsewhere, Dequeue, Base, Without, RemoveAll, ReleasedAll;
    var l := View(s, c);
    PartsOfGood(l);
    ViewIs(s, c);
    WorkerPopped(s, c);
    var popped := s.(worker := Dequeue(s.worker).0);
    var pool := ReleasedAll(s.pool, Without(popped.worker.items, NoTask(c)));
    AboutIs(popped, c);
    assert forall x <- l.worker[1..] :: x in l.worker;
    DroppedPool(s, popped.worker.items, c);
    PurgedWorker(popped, c, pool);
    var t := popped.(worker := RemoveAll(popped.worker, IsTask(c)).0, pool := pool);
    SamePool(s.(pool := pool), t);
    ElsewhereTwice(s, popped, t, c);
    OpenElsewhere(s, t, c);
  }

  lemma OpenElsewhere(s: Pipe, t: Pipe, c: nat)
    requires Elsewhere(s, t, c)
    ensures Open(t) == Open(s)
  {
  }

  lemma WorkerTookClose(s: Pipe, c: nat)
    requires AllGood(s) && c in s.members && s.serving.None?
    requires Dequeue(s.worker).1.Some? && !Dequeue(s.worker).1.value.TaskItem? && Whom(Dequeue(s.worker).1.value) == Some(c)
    ensures Lived(s, WorkerTurn(s), c, TakeWorker)
  {
    hide Good, Quiet, PoolOk, View, Elsewhere, Dequeue, Base, Forms, WithConn, Vote, Without, RemoveAll, ReleasedAll;
    var l := View(s, c);
    ViewIs(s, c);
    NotServing(s, c);
    PartsOfGood(l);
    TasksDropped(s, c);
    WorkerCloseIs(l);
    var q := Dequeue(s.worker).0;
    var (kept, removed) := RemoveAll(q, IsTask(c));
    var t := s.(worker := kept, pool := ReleasedAll(s.pool, Without(q.items, NoTask(c))));
    var conn := s.members[c].conn;
    var told := conn.(log := conn.log.(dropped := conn.log.dropped || removed));
    VoteTame(told, Worker);
    ConnIs(t, c, Vote(told, Worker));
    ElsewhereTwice(s, t, WithConn(t, c, Vote(told, Worker)), c);
  }

  /** What is not a task is the CLOSE. */
  lemma WorkerCloseIs(l: Life)
    requires Forms(l) && l.worker != [] && !l.worker[0].TaskItem?
    ensures l.worker[0] == EventOf(l.self, Close)
    ensures WorkerTook(l) == var kept := Without(l.worker[1..], IsTask(l.self));
      l.(worker := kept,
         conn := Vote(l.conn.(log := l.conn.log.(dropped := l.conn.log.dropped || |kept| < |l.worker[1..]|)), Worker))
  {
    hide Vote, Without, ReaderForm, WriterForm, AcceptorForm, Buffers, B.Content;
  }

  lemma AboutIs(s: Pipe, c: nat)
    requires c in s.members
    ensures About(s.worker.items, c) == View(s, c).worker
  {
  }

  lemma SamePool(s: Pipe, t: Pipe)
    requires PoolOk(s) && t.pool == s.pool && t.size == s.size
    ensures PoolOk(t)
  {
  }

  /** Who takes part in the worker's next round. */
  lemma WorkerLived(s: Pipe)
    requires AllGood(s) && s.serving.None?
    ensures var r := Dequeue(s.worker).1;
      if r.Some? && Whom(r.value).Some? then Lived(s, WorkerTurn(s), Whom(r.value).value, TakeWorker)
      else Unmoved(s, WorkerTurn(s))
  {
    hide Good, Quiet, PoolOk, View, Elsewhere, Dequeue, Lived, Unmoved, WithConn;
    var r := Dequeue(s.worker).1;
    if r.Some? && Whom(r.value).Some? {
      HeadIsKnown(s, s.worker, r.value);
      if r.value.TaskItem? {
        WorkerTookTask(s, Whom(r.value).value);
      } else {
        WorkerTookClose(s, Whom(r.value).value);
      }
    } else {
      WorkerUnmoved(s);
    }
  }

  // ---------------------------------------------------------------- the writer

  lemma WriterPopped(s: Pipe, c: nat)
    requires c in s.members && PoolOk(s) && Dequeue(s.writer).1.Some? && Whom(Dequeue(s.writer).1.value) == Some(c)
    ensures var (q, x) := Dequeue(s.writer); var t := s.(writer := q); var l := View(s, c);
      && PoolOk(t) && Elsewhere(s, t, c) && Open(t) == Open(s) && l.writer != [] && l.writer[0] == x.value
      && View(t, c) == l.(writer := l.writer[1..])
  {
    hide About, Dequeue;
    forall d
      ensures d != c ==> About(Dequeue(s.writer).0.items, d) == About(s.writer.items, d)
    {
      DequeueIs(s.writer, d);
    }
    DequeueIs(s.writer, c);
  }

  lemma WriterUnmoved(s: Pipe)
    requires PoolOk(s) && (Dequeue(s.writer).1.Some? ==> Whom(Dequeue(s.writer).1.value).None?)
    ensures Unmoved(s, s.(writer := Dequeue(s.writer).0))
  {
    hide About, Dequeue;
    forall d
      ensures About(Dequeue(s.writer).0.items, d) == About(s.writer.items, d)
    {
      DequeueIs(s.writer, d);
    }
    DequeueIs(s.writer, 0);
  }

  /** The writer holds back an event, or does not. */
  lemma ResendIs(s: Pipe, c: nat, again: bool)
    requires c in s.members && s.resend.None?
    ensures var t := s.(resend := if again then Some(c) else None);
      && (PoolOk(s) ==> PoolOk(t)) && Elsewhere(s, t, c) && View(t, c) == View(s, c).(resend := again)
      && !View(s, c).resend
  {
    hide About;
  }

  lemma WriterTookOut(s: Pipe, c: nat, chunk: seq<byte>, took: Option<nat>)
    requires AllGood(s) && c in s.members && s.resend.None? && WriterMay(s, chunk, took)
    requires Dequeue(s.writer).1 == Some(EventOf(c, OutboundData))
    ensures Lived(s, WriterTurn(s, chunk, took), c, TakeWriter(chunk, took))
  {
    hide Good, Quiet, PoolOk, View, Elsewhere, Dequeue, Spread, Carry, WriteOutput, MaySend;
    var l := View(s, c);
    ViewIs(s, c);
    SizeOf(l);
    WriterPopped(s, c);
    var popped := s.(writer := Dequeue(s.writer).0);
    var (conn, e, again) := WriteOutput(s.members[c].conn, chunk, took, Open(s));
    ResendIs(s, c, again);
    ResendIs(popped, c, again);
    var t := popped.(resend := if again then Some(c) else None);
    WriteTame(s.members[c].conn, chunk, took, Open(s));
    SpreadIs(t, c, s.members[c].conn, (conn, e));
    SpreadAcceptor(t, c, (conn, e));
    ElsewhereTwice(s, popped, t, c);
    ElsewhereTwice(s, t, Spread(t, c, (conn, e)), c);
  }

  lemma WriterTookClose(s: Pipe, c: nat, chunk: seq<byte>, took: Option<nat>)
    requires AllGood(s) && c in s.members && s.resend.None? && WriterMay(s, chunk, took)
    requires Dequeue(s.writer).1.Some? && Whom(Dequeue(s.writer).1.value) == Some(c)
    requires Dequeue(s.writer).1.value != EventOf(c, OutboundData)
    ensures Lived(s, WriterTurn(s, chunk, took), c, TakeWriter(chunk, took))
  {
    hide Good, Quiet, PoolOk, View, Elsewhere, Dequeue, WithConn, Vote, Without, RemoveAll;
    var l := View(s, c);
    ViewIs(s, c);
    ResendIs(s, c, false);
    PartsOfGood(l);
    WriterPopped(s, c);
    assert l.writer[0] == EventOf(c, Close);
    var popped := s.(writer := Dequeue(s.writer).0);
    PurgedWriter(popped, c);
    var t := popped.(writer := RemoveAll(popped.writer, IsEvent(c)).0);
    ElsewhereTwice(s, popped, t, c);
    var voted := Vote(s.members[c].conn, Writer);
    VoteTame(s.members[c].conn, Writer);
    ConnIs(t, c, voted);
    ElsewhereTwice(s, t, WithConn(t, c, voted), c);
  }

  lemma PurgedWriter(s: Pipe, c: nat)
    requires c in s.members
    ensures var t := s.(writer := RemoveAll(s.writer, IsEvent(c)).0); var l := View(s, c);
      && (PoolOk(s) ==> PoolOk(t)) && Elsewhere(s, t, c) && View(t, c) == l.(writer := Without(l.writer, IsEvent(c)))
  {
    hide About, Without;
    var q := RemoveAll(s.writer, IsEvent(c)).0;
    forall d | d != c
      ensures About(q.items, d) == About(s.writer.items, d)
    {
      AboutOther(s.writer.items, IsEvent(c), c, d);
    }
    AboutWithout(s.writer.items, IsEvent(c), c);
  }

  /** Who takes part in the writer's next round. */
  lemma WriterLived(s: Pipe, chunk: seq<byte>, took: Option<nat>)
    requires AllGood(s) && s.resend.None? && WriterMay(s, chunk, took)
    ensures var r := Dequeue(s.writer).1;
      if r.Some? && Whom(r.value).Some?
      then Lived(s, WriterTurn(s, chunk, took), Whom(r.value).value, TakeWriter(chunk, took))
      else Unmoved(s, WriterTurn(s, chunk, took))
  {
    hide Good, Quiet, PoolOk, View, Elsewhere, Dequeue, Lived, Unmoved, WithConn, Spread, WriteOutput, MaySend;
    var r := Dequeue(s.writer).1;
    if r.Some? && Whom(r.value).Some? {
      HeadIsKnown(s, s.writer, r.value);
      if r.value == EventOf(Whom(r.value).value, OutboundData) {
        WriterTookOut(s, Whom(r.value).value, chunk, took);
      } else {
        WriterTookClose(s, Whom(r.value).value, chunk, took);
      }
    } else {
      WriterUnmoved(s);
    }
  }

  // ---------------------------------------------------------------- the other moves

  lemma WorkerEndsLived(s: Pipe, left: Mem)
    requires AllGood(s) && Held(s) && s.serving.Some? && left.size == s.size
    ensures Lived(s, WorkerDone(s, left), s.serving.value.connection.conn, Finish)
  {
    hide Good, About;
    var id := s.serving.value.buffer.id;
    ReleasedIs(s.pool, Slab(id, left), s.size);
    IsFresh(id, s.size);
  }

  lemma WriterBackLived(s: Pipe)
    requires AllGood(s) && s.resend.Some?
    ensures Lived(s, BackPut(s), s.resend.value, PutBack)
  {
    hide Good, About, PoolOk;
    var c := s.resend.value;
    assert c in s.members by {
      assert Quiet(s, c) || c in s.members;
    }
    forall d
      ensures About(s.writer.items + [EventOf(c, OutboundData)], d)
           == if d == c then About(s.writer.items, d) + [EventOf(c, OutboundData)] else About(s.writer.items, d)
    {
      PushIs(s.writer.items, EventOf(c, OutboundData), d);
    }
    assert View(s, c).writer + [] == View(s, c).writer;
    SamePool(s, BackPut(s));
  }

  /** An EXIT on a queue is the same for every connection. */
  lemma ExitLived(s: Pipe, which: Which)
    requires AllGood(s)
    ensures var t := Exiting(s, which);
      && PoolOk(t) && t.acceptor == s.acceptor && t.members == s.members && t.size == s.size
      && Open(t) == Shut(Open(s), which)
      && (forall d :: Lines(t, d) == Lines(s, d))
  {
    hide Good, About, PoolOk;
    forall d
      ensures About(s.reader.items + [ExitItem], d) == About(s.reader.items, d)
      ensures About(s.worker.items + [ExitItem], d) == About(s.worker.items, d)
      ensures About(s.writer.items + [ExitItem], d) == About(s.writer.items, d)
    {
      PushIs(s.reader.items, ExitItem, d);
      PushIs(s.worker.items, ExitItem, d);
      PushIs(s.writer.items, ExitItem, d);
    }
    SamePool(s, Exiting(s, which));
  }

  lemma ExitView(s: Pipe, which: Which, c: nat)
    requires AllGood(s) && c in s.members
    ensures c in Exiting(s, which).members && View(Exiting(s, which), c) == View(s, c).(accepts := Shut(Open(s), which))
  {
    hide Good, About, PoolOk, Exiting;
    ExitLived(s, which);
    assert Lines(Exiting(s, which), c) == Lines(s, c);
  }

  lemma AcceptBorn(s: Pipe, c: nat)
    requires AllGood(s) && c !in s.members
    ensures var t := Accepting(s, c);
      && PoolOk(t) && t.acceptor == s.acceptor && c in t.members && View(t, c) == Born(c, s.size, Open(s))
      && (forall d :: Lines(t, d) == Lines(s, d))
      && (forall d :: d in s.members ==> d in t.members && View(t, d) == View(s, d))
  {
    hide Good, About, PoolOk, NewConnection;
    assert Quiet(s, c);
    SamePool(s, Accepting(s, c));
    assert !NewConnection(s.size).readKey by {
      NewbornIs(s.size);
    }
  }

  // ---------------------------------------------------------------- every step keeps every life in order

  lemma SameView(s: Pipe, t: Pipe, c: nat)
    requires c in s.members && c in t.members && t.members[c] == s.members[c]
    requires t.size == s.size && Open(t) == Open(s) && Lines(t, c) == Lines(s, c)
    ensures View(t, c) == View(s, c)
  {
    hide About;
  }

  lemma LivedKeeps(s: Pipe, t: Pipe, c: nat, a: Act)
    requires AllGood(s) && Lived(s, t, c, a)
    ensures AllGood(t)
  {
    hide Good, PoolOk, Lines, View, Next, Enabled;
    GoodKeeps(View(s, c), a);
    forall d | d in t.members
      ensures Good(View(t, d))
    {
      if d != c {
        SameView(s, t, d);
      }
    }
  }

  lemma UnmovedKeeps(s: Pipe, t: Pipe)
    requires AllGood(s) && Unmoved(s, t)
    ensures AllGood(t)
  {
    hide Good, PoolOk, Lines, View;
    forall d | d in t.members
      ensures Good(View(t, d))
    {
      SameView(s, t, d);
    }
  }

  lemma ExitKeeps(s: Pipe, which: Which)
    requires AllGood(s)
    ensures AllGood(Exiting(s, which))
  {
    hide Good, PoolOk, Lines, View, Exiting;
    ExitLived(s, which);
    forall c | c in s.members
      ensures Good(View(Exiting(s, which), c))
    {
      ViewIs(s, c);
      ExitView(s, which, c);
      GoodKeeps(View(s, c), Exit(which));
    }
  }

  lemma AcceptKeeps(s: Pipe, c: nat)
    requires AllGood(s) && c !in s.members
    ensures AllGood(Accepting(s, c))
  {
    hide Good, PoolOk, Lines, View;
    AcceptBorn(s, c);
    GoodBorn(c, s.size, Open(s));
  }
}
