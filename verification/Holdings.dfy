/** What a pipe holds: the keys in the reader's selector, which its load counts, and the buffers of
    the worker's pool, which are in exactly one place each. */
module Holdings {
  import opened EventModel
  import opened QueueModel
  import opened Connections
  import opened Lives
  import opened Reactions
  import opened Invariants
  import opened Streams
  import opened Pipes
  import opened Projection
  import opened Refinement
  import opened SelectorModel
  import PoolModel
  import B = BufferModel

  // ---------------------------------------------------------------- the reader's load

  /** The selector holds one registration for each connection whose read key is set, and the load
      is their number. */
  ghost predicate Loaded(s: Pipe) {
    && Keyed(s) && s.load == |s.registry|
    && (forall c :: c in s.registry ==> s.registry[c] == Registration(OP_READ, c, 1))
  }

  ghost predicate KeysAlike(s: Pipe, t: Pipe) {
    && t.registry == s.registry && t.load == s.load
    && (forall c :: c in s.members <==> c in t.members)
    && (forall c :: c in s.members ==> t.members[c].conn.readKey == s.members[c].conn.readKey)
  }

  lemma LoadedKept(s: Pipe, t: Pipe)
    requires Loaded(s) && KeysAlike(s, t)
    ensures Loaded(t)
  {
  }

  lemma SpreadKeys(s: Pipe, c: nat, b: Conn, r: (Conn, Effect))
    requires c in s.members && Tame(b, r, Open(s)) && b.readKey == s.members[c].conn.readKey
    ensures KeysAlike(s, Spread(s, c, r))
  {
    hide Handed, Post, Without, RemoveAll;
    HandedKeys(s, c, r.1.copy);
  }

  lemma HandedKeys(s: Pipe, c: nat, copy: Option<Mem>)
    ensures var t := Handed(s, c, copy); t.registry == s.registry && t.load == s.load
  {
    hide Released, PoolModel.Allocate;
  }

  /** Another connection with the same read key. */
  lemma ConnKeys(s: Pipe, c: nat, conn: Conn)
    requires c in s.members && conn.readKey == s.members[c].conn.readKey
    ensures KeysAlike(s, WithConn(s, c, conn))
  {
  }

  lemma ProgressKeys(s: Pipe, c: nat, progress: nat)
    requires c in s.members
    ensures KeysAlike(s, WithProgress(s, c, progress))
  {
  }

  lemma LoadedManages(s: Pipe, c: nat)
    requires Loaded(s) && c in s.members && s.members[c].progress < 10
    ensures Loaded(Manages(s, c))
  {
    hide Loaded, Manages;
    if s.members[c].progress < 2 {
      LoadedQueued(s, c);
    } else {
      LoadedHandOver(s, c);
    }
  }

  lemma LoadedQueued(s: Pipe, c: nat)
    requires Loaded(s) && c in s.members && s.members[c].progress < 2
    ensures Loaded(Manages(s, c))
  {
    hide Spread, HandOver, Loaded, WithProgress, KeysAlike, Enqueue;
    var next := WithProgress(s, c, s.members[c].progress + 1);
    ProgressKeys(s, c, s.members[c].progress + 1);
    ProgressKeys(s, c, 11);
    LoadedKept(s, next);
    LoadedKept(s, WithProgress(s, c, 11));
    assert Manages(s, c).members == next.members ==> KeysAlike(next, Manages(s, c)) by {
      if Manages(s, c).members == next.members {
        SameRest(next, Manages(s, c));
      }
    }
    if Manages(s, c) != WithProgress(s, c, 11) {
      LoadedKept(next, Manages(s, c));
    }
  }

  lemma LoadedHandOver(s: Pipe, c: nat)
    requires Loaded(s) && c in s.members && 2 <= s.members[c].progress < 10
    ensures Loaded(Manages(s, c))
  {
    hide Spread, HandOver, Loaded, KeysAlike;
    var m := s.members[c];
    var next := WithProgress(s, c, m.progress + 1);
    ProgressKeys(s, c, m.progress + 1);
    LoadedKept(s, next);
    HandOverTame(m.conn, m.progress, Open(s));
    SpreadKeys(next, c, m.conn, HandOver(m.conn, m.progress, Open(s)));
    LoadedKept(next, Manages(s, c));
  }

  lemma LoadedOf(s: Pipe, m: Move)
    requires Loaded(s) && m.Of? && Possible(s, m)
    ensures Loaded(Taken(s, m))
  {
    hide Spread, EnterState, Interest, ReadInput, Loaded, Manages;
    var c := m.c;
    match m.act
    case Manage => LoadedManages(s, c);
    case Arrive(input, _) =>
      ReadTame(s.members[c].conn, input, Open(s));
      SpreadKeys(s, c, s.members[c].conn, ReadInput(s.members[c].conn, input, Open(s)));
      LoadedKept(s, Taken(s, m));
    case WantWrite =>
      InterestTame(s.members[c].conn, Open(s));
      SpreadKeys(s, c, s.members[c].conn, Interest(s.members[c].conn, Open(s)));
      LoadedKept(s, Taken(s, m));
    case WantClose(force) =>
      EnterTame(s.members[c].conn, if force then StateClosed else StatePendingClose, Open(s));
      SpreadKeys(s, c, s.members[c].conn, CloseConnection(s.members[c].conn, force, Open(s)));
      LoadedKept(s, Taken(s, m));
  }

  /** Taking on a connection registers a new key; CLOSE unregisters it. */
  lemma LoadedReader(s: Pipe)
    requires AllGood(s) && Loaded(s)
    ensures Loaded(ReaderTurn(s))
  {
    hide AllGood, Loaded, Dequeue, Spread, ManagedBy, Vote;
    var r := Dequeue(s.reader).1;
    if r.Some? && Whom(r.value).Some? {
      HeadIsKnown(s, s.reader, r.value);
      var c := Whom(r.value).value;
      if r.value == DataOf(c) {
        LoadedTookData(s, c);
      } else if r.value == EventOf(c, Close) {
        LoadedTookClose(s, c);
      } else {
        ReaderKnows(s, c);
        LoadedKept(s, ReaderTurn(s));
      }
    } else {
      LoadedKept(s, ReaderTurn(s));
    }
  }

  /** The items that the reader can find. */
  lemma ReaderKnows(s: Pipe, c: nat)
    requires AllGood(s) && c in s.members && Dequeue(s.reader).1.Some? && Whom(Dequeue(s.reader).1.value) == Some(c)
    ensures var x := Dequeue(s.reader).1.value; var key := s.members[c].conn.readKey;
      && (x == DataOf(c) || x == EventOf(c, Close) || x == EventOf(c, PendingClose))
      && (x == DataOf(c) ==> !key) && (x == EventOf(c, Close) ==> key)
  {
    hide Good, PoolOk, Quiet, View, Dequeue, Elsewhere;
    ViewIs(s, c);
    PartsOfGood(View(s, c));
    ReaderPopped(s, c);
    if View(s, c).reader[0] == DataOf(c) {
      TookData(View(s, c));
    } else {
      TookEvent(View(s, c));
    }
  }

  lemma LoadedTookData(s: Pipe, c: nat)
    requires AllGood(s) && Loaded(s) && c in s.members && Dequeue(s.reader).1 == Some(DataOf(c))
    ensures Loaded(ReaderTurn(s))
  {
    hide AllGood, Dequeue, Spread, ManagedBy, Loaded, MapRegister;
    ReaderKnows(s, c);
    var b := s.members[c].conn.(readKey := true);
    var t := s.(reader := Dequeue(s.reader).0, registry := MapRegister(s.registry, OP_READ, c, c), load := s.load + 1);
    var r := ManagedBy(b, Reader, Open(s));
    ManagedTame(b, Reader, Open(s));
    SpreadChanges(t, c, r);
    KeyAdded(s, ReaderTurn(s), c);
  }

  /** Only `c` has got a key, or lost it. */
  ghost predicate KeyChanges(s: Pipe, t: Pipe, c: nat) {
    && c in s.members && c in t.members && t.members[c].conn.readKey == !s.members[c].conn.readKey
    && (forall d :: d != c ==> (d in t.members <==> d in s.members))
    && (forall d :: d != c && d in s.members ==> t.members[d].conn.readKey == s.members[d].conn.readKey)
  }

  ghost predicate OnlyAt(m: Registry<nat>, r: Registry<nat>, c: nat) {
    && (forall d: int :: d != c ==> (d in r <==> d in m))
    && (forall d: int :: d != c && d in m ==> r[d] == m[d])
  }

  lemma KeyedChanges(s: Pipe, t: Pipe, c: nat)
    requires Keyed(s) && KeyChanges(s, t, c) && OnlyAt(s.registry, t.registry, c)
    requires c in t.registry <==> t.members[c].conn.readKey
    ensures Keyed(t)
  {
  }

  lemma KeyAdded(s: Pipe, t: Pipe, c: nat)
    requires Loaded(s) && KeyChanges(s, t, c) && t.members[c].conn.readKey
    requires t.registry == MapRegister(s.registry, OP_READ, c, c) && t.load == s.load + 1
    ensures Loaded(t)
  {
    hide MapRegister, Keyed, KeyChanges;
    assert c !in s.registry by {
      KeyedIs(s, c);
      ChangesIs(s, t, c);
    }
    RegisterCounts(s.registry, c);
    KeyedChanges(s, t, c);
  }

  lemma KeyedIs(s: Pipe, c: nat)
    requires Keyed(s)
    ensures c in s.registry <==> c in s.members && s.members[c].conn.readKey
  {
  }

  lemma ChangesIs(s: Pipe, t: Pipe, c: nat)
    requires KeyChanges(s, t, c)
    ensures c in s.members && c in t.members && t.members[c].conn.readKey == !s.members[c].conn.readKey
  {
  }

  lemma RegisterCounts(m: Registry<nat>, c: nat)
    requires c !in m
    ensures var r := MapRegister(m, OP_READ, c, c);
      && |r| == |m| + 1 && c in r && r[c] == Registration(OP_READ, c, 1) && OnlyAt(m, r, c)
  {
    assert MapRegister(m, OP_READ, c, c).Keys == m.Keys + {c};
  }

  lemma UnregisterCounts(m: Registry<nat>, c: nat)
    requires c in m
    ensures var r := MapUnregister(m, c, true).0;
      && |r| == |m| - 1 && c !in r && OnlyAt(m, r, c)
  {
    assert MapUnregister(m, c, true).0.Keys == m.Keys - {c};
  }

  lemma SpreadChanges(s: Pipe, c: nat, r: (Conn, Effect))
    requires c in s.members
    ensures var t := Spread(s, c, r);
      t.registry == s.registry && t.load == s.load && t.members == s.members[c := s.members[c].(conn := r.0)]
  {
    hide Handed, Post, Without, RemoveAll;
    HandedKeys(s, c, r.1.copy);
  }

  lemma LoadedTookClose(s: Pipe, c: nat)
    requires AllGood(s) && Loaded(s) && c in s.members && Dequeue(s.reader).1 == Some(EventOf(c, Close))
    ensures Loaded(ReaderTurn(s))
  {
    hide AllGood, Dequeue, Vote, MapUnregister, Loaded;
    ReaderKnows(s, c);
    VoteTame(s.members[c].conn.(readKey := false), Reader);
    KeyRemoved(s, ReaderTurn(s), c);
  }

  lemma KeyRemoved(s: Pipe, t: Pipe, c: nat)
    requires Loaded(s) && KeyChanges(s, t, c) && s.members[c].conn.readKey
    requires t.registry == ReaderRegistry(s, c) && t.load == s.load - 1
    ensures Loaded(t)
  {
    hide MapUnregister, Keyed, KeyChanges;
    assert c in s.registry by {
      KeyedIs(s, c);
      ChangesIs(s, t, c);
    }
    UnregisterCounts(s.registry, c);
    assert !t.members[c].conn.readKey by {
      ChangesIs(s, t, c);
    }
    KeyedChanges(s, t, c);
  }

  lemma LoadedWorker(s: Pipe)
    requires Loaded(s)
    ensures Loaded(WorkerTurn(s))
  {
    hide Loaded, Vote, Dequeue, RemoveAll, ReleasedAll, B.Content, WithConn, KeysAlike;
    var (q, r) := Dequeue(s.worker);
    var t := s.(worker := q);
    SameRest(s, t);
    if r.Some? && Whom(r.value).Some? && Whom(r.value).value in s.members {
      var c := Whom(r.value).value;
      var conn := s.members[c].conn;
      if r.value.TaskItem? && r.value.buffer.Slab? {
        var u := s.(worker := q, serving := r);
        SameRest(s, u);
        LoadedKept(s, u);
        ConnKeys(u, c, conn.(log := conn.log.(delivered := conn.log.delivered + B.Content(r.value.buffer.mem))));
        LoadedKept(u, WorkerTurn(s));
      } else if r.value.EventItem? {
        var (kept, removed) := RemoveAll(q, IsTask(c));
        var u := s.(worker := kept, pool := ReleasedAll(s.pool, Without(q.items, NoTask(c))));
        SameRest(s, u);
        LoadedKept(s, u);
        var told := conn.(log := conn.log.(dropped := conn.log.dropped || removed));
        VoteTame(told, Worker);
        ConnKeys(u, c, Vote(told, Worker));
        LoadedKept(u, WorkerTurn(s));
      } else {
        LoadedKept(s, t);
      }
    } else {
      LoadedKept(s, t);
    }
  }

  lemma SameRest(s: Pipe, t: Pipe)
    requires t.registry == s.registry && t.load == s.load && t.members == s.members
    ensures KeysAlike(s, t)
  {
  }

  lemma LoadedWriter(s: Pipe, chunk: seq<byte>, took: Option<nat>)
    requires Loaded(s) && WriterMay(s, chunk, took)
    ensures Loaded(WriterTurn(s, chunk, took))
  {
    hide Loaded, Vote, Dequeue, RemoveAll, Spread, WriteOutput, MaySend;
    var r := Dequeue(s.writer).1;
    if r.Some? && Whom(r.value).Some? && Whom(r.value).value in s.members {
      var c := Whom(r.value).value;
      VoteTame(s.members[c].conn, Writer);
      if r.value == EventOf(c, OutboundData) {
        var (conn, e, again) := WriteOutput(s.members[c].conn, chunk, took, Open(s));
        WriteTame(s.members[c].conn, chunk, took, Open(s));
        var t := s.(writer := Dequeue(s.writer).0, resend := if again then Some(c) else None);
        SpreadChanges(t, c, (conn, e));
      }
    }
    LoadedKept(s, WriterTurn(s, chunk, took));
  }

  lemma LoadedAccept(s: Pipe, c: nat)
    requires Loaded(s) && c !in s.members
    ensures Loaded(Accepting(s, c))
  {
    hide NewConnection;
    NewbornIs(s.size);
  }

  /** In every step the load stays the number of registered keys. */
  lemma LoadedKeeps(s: Pipe, m: Move)
    requires AllGood(s) && Loaded(s) && Possible(s, m)
    ensures Loaded(Taken(s, m))
  {
    hide AllGood, Loaded, Spread, Manages, ReaderTurn, WorkerTurn, WriterTurn, Accepting, EnterState, Interest, ReadInput;
    match m
    case Accept(c) => LoadedAccept(s, c);
    case Of(_, _) => LoadedOf(s, m);
    case ReaderMove => LoadedReader(s);
    case WorkerMove => LoadedWorker(s);
    case WriterMove(chunk, took) => LoadedWriter(s, chunk, took);
    case _ => LoadedKept(s, Taken(s, m));
  }

  // ---------------------------------------------------------------- the worker's buffers

  /** The pool buffers that items hold, with multiplicity. */
  function SlabOf(x: Item): multiset<nat> {
    match x
    case DataItem(p) => if p.Slab? then multiset{p.id} else multiset{}
    case TaskItem(_, _, p) => if p.Slab? then multiset{p.id} else multiset{}
    case _ => multiset{}
  }

  function SlabsOf(items: seq<Item>): multiset<nat> {
    if items == [] then multiset{} else SlabOf(items[0]) + SlabsOf(items[1..])
  }

  /** The numbers below n, once each. */
  function UpTo(n: nat): multiset<nat> {
    if n == 0 then multiset{} else UpTo(n - 1) + multiset{n - 1}
  }

  /** Every buffer that was made is in the pool, in one queued task, or in the task being processed,
      once, and whole batches were made. */
  ghost predicate Owned(s: Pipe) {
    && SlabsOf(s.pool.items) + SlabsOf(s.worker.items) + (if s.serving.Some? then SlabOf(s.serving.value) else multiset{})
       == UpTo(s.made)
    && s.made % PoolModel.BATCH_SIZE == 0
    && (forall x <- s.worker.items :: Whom(x).Some? || x.ExitItem?)
  }

  lemma {:induction false} SlabsAppend(a: seq<Item>, b: seq<Item>)
    ensures SlabsOf(a + b) == SlabsOf(a) + SlabsOf(b)
  {
    hide SlabOf;
    if a == [] {
      assert a + b == b;
    } else {
      SlabsAppend(a[1..], b);
      assert (a + b)[1..] == a[1..] + b;
    }
  }

  lemma SlabsOne(x: Item)
    ensures SlabsOf([x]) == SlabOf(x)
  {
    hide SlabOf;
    assert [x][1..] == [];
  }

  lemma SlabsPush(items: seq<Item>, x: Item)
    ensures SlabsOf(items + [x]) == SlabsOf(items) + SlabOf(x)
  {
    hide SlabOf, SlabsOf;
    SlabsAppend(items, [x]);
    SlabsOne(x);
  }

  lemma BatchGrows(from: nat, count: nat, size: nat)
    requires count > 0
    ensures PoolModel.Datas(Slabs(from, count, size))
         == PoolModel.Datas(Slabs(from, count - 1, size)) + [DataItem(Slab(from + count - 1, NewMem(size)))]
  {
    hide NewMem;
  }

  lemma UpToNext(n: nat)
    ensures UpTo(n + 1) == UpTo(n) + multiset{n}
  {
  }

  /** A batch brings the next numbers. */
  lemma {:induction false} SlabsBatch(from: nat, count: nat, size: nat)
    ensures SlabsOf(PoolModel.Datas(Slabs(from, count, size))) + UpTo(from) == UpTo(from + count)
    decreases count
  {
    hide Slabs, PoolModel.Datas, NewMem, UpTo, SlabOf;
    if count == 0 {
      assert SlabsOf(PoolModel.Datas(Slabs(from, 0, size))) == multiset{};
    } else {
      SlabsBatch(from, count - 1, size);
      SlabsBatchNext(from, count, size);
      UpToNext(from + count - 1);
      Swap(SlabsOf(PoolModel.Datas(Slabs(from, count - 1, size))), multiset{from + count - 1}, UpTo(from));
    }
  }

  lemma SlabsBatchNext(from: nat, count: nat, size: nat)
    requires count > 0
    ensures SlabsOf(PoolModel.Datas(Slabs(from, count, size)))
         == SlabsOf(PoolModel.Datas(Slabs(from, count - 1, size))) + multiset{from + count - 1}
  {
    hide Slabs, PoolModel.Datas, NewMem, SlabsOf;
    BatchGrows(from, count, size);
    SlabsPush(PoolModel.Datas(Slabs(from, count - 1, size)), DataItem(Slab(from + count - 1, NewMem(size))));
  }

  lemma Swap(a: multiset<nat>, b: multiset<nat>, c: multiset<nat>)
    ensures (a + b) + c == (a + c) + b
  {
  }

  /** Allocation takes one buffer out of the pool, which may have grown by a batch. */
  lemma AllocatedTakes(s: Pipe)
    requires PoolOk(s)
    ensures var (t, id) := Allocated(s);
      && id.Some? && (s.made % PoolModel.BATCH_SIZE == 0 ==> t.made % PoolModel.BATCH_SIZE == 0)
      && SlabsOf(t.pool.items) + multiset{id.value} + UpTo(s.made) == SlabsOf(s.pool.items) + UpTo(t.made)
  {
    hide Allocated, UpTo, Slabs, PoolModel.Datas, PoolModel.Refills, SlabsOf, NewMem;
    AllocatedIs(s);
    var (t, id) := Allocated(s);
    var taken := DataItem(Slab(id.value, NewMem(s.size)));
    SlabsAppend([taken], t.pool.items);
    SlabsOne(taken);
    assert SlabOf(taken) == multiset{id.value};
    if PoolModel.Refills(s.pool) {
      var made := SlabsOf(PoolModel.Datas(Batch(s)));
      SlabsAppend(s.pool.items, PoolModel.Datas(Batch(s)));
      SlabsBatch(s.made, PoolModel.BATCH_SIZE, s.size);
      assert multiset{id.value} + SlabsOf(t.pool.items) == SlabsOf(s.pool.items) + made;
      Regrouped(SlabsOf(t.pool.items), multiset{id.value}, UpTo(s.made), SlabsOf(s.pool.items), made, UpTo(t.made));
    } else {
      assert s.pool.items + [] == s.pool.items;
      assert multiset{id.value} + SlabsOf(t.pool.items) == SlabsOf(s.pool.items);
      Regrouped(SlabsOf(t.pool.items), multiset{id.value}, UpTo(s.made), SlabsOf(s.pool.items), multiset{}, UpTo(t.made));
    }
  }

  lemma Regrouped(left: multiset<nat>, one: multiset<nat>, upTo: multiset<nat>, pool: multiset<nat>, made: multiset<nat>,
                  upTo': multiset<nat>)
    requires one + left == pool + made && made + upTo == upTo'
    ensures left + one + upTo == pool + upTo'
  {
    forall y: nat
      ensures (left + one + upTo)[y] == (pool + upTo')[y]
    {
      assert (one + left)[y] == (pool + made)[y];
      assert (made + upTo)[y] == upTo'[y];
    }
  }

  /** The buffer just allocated goes into a task or back into the pool. */
  lemma OwnedPlaced(s: Pipe, t: Pipe, x: Item, id: nat)
    requires Owned(s) && t.serving == s.serving && SlabOf(x) == multiset{id}
    requires t.made % PoolModel.BATCH_SIZE == 0
    requires SlabsOf(t.pool.items) + multiset{id} + UpTo(s.made) == SlabsOf(s.pool.items) + UpTo(t.made)
    requires t.worker.items == s.worker.items
    ensures forall q: QState<Ptr> :: q.items == t.worker.items + [x] && Whom(x).Some? ==> Owned(t.(worker := q))
    ensures forall q: QState<Ptr> :: q.items == t.pool.items + [x] ==> Owned(t.(pool := q))
  {
    hide UpTo, SlabsOf, SlabOf;
    SlabsPush(t.worker.items, x);
    SlabsPush(t.pool.items, x);
    var held := if s.serving.Some? then SlabOf(s.serving.value) else multiset{};
    Trade(SlabsOf(t.pool.items), multiset{id}, UpTo(s.made), SlabsOf(s.pool.items), UpTo(t.made), SlabsOf(s.worker.items), held);
  }

  lemma Trade(pool': multiset<nat>, one: multiset<nat>, made: multiset<nat>, pool: multiset<nat>, made': multiset<nat>,
              queued: multiset<nat>, held: multiset<nat>)
    requires pool + queued + held == made && pool' + one + made == pool + made'
    ensures pool' + (queued + one) + held == made' && (pool' + one) + queued + held == made'
  {
    forall x: nat
      ensures (pool' + (queued + one) + held)[x] == made'[x] == ((pool' + one) + queued + held)[x]
    {
      assert (pool + queued + held)[x] == made[x];
      assert (pool' + one + made)[x] == (pool + made')[x];
    }
  }

  /** A task made, or refused, leaves every buffer in one place. */
  lemma OwnedHanded(s: Pipe, c: nat, copy: Option<Mem>)
    requires PoolOk(s) && Owned(s) && (copy.Some? ==> copy.value.size == s.size)
    ensures Owned(Handed(s, c, copy))
  {
    hide Allocated, UpTo, SlabsOf, Released, Owned, NewMem;
    if copy.Some? {
      AllocatedIs(s);
      AllocatedTakes(s);
      OwnedWhole(s);
      var (t, id) := Allocated(s);
      var buffer := Slab(id.value, copy.value);
      ReleasedIs(t.pool, buffer, s.size);
      OwnedPlaced(s, t, TaskItem(Read, Link(c), buffer), id.value);
      OwnedPlaced(s, t, DataItem(Slab(id.value, NewMem(s.size))), id.value);
    }
  }

  lemma OwnedWhole(s: Pipe)
    requires Owned(s)
    ensures s.made % PoolModel.BATCH_SIZE == 0
  {
  }

  /** Events hold no buffer. */
  lemma {:induction false} SlabsEvents(items: seq<Item>)
    requires forall x <- items :: !x.DataItem? && !x.TaskItem?
    ensures SlabsOf(items) == multiset{}
  {
    if items != [] {
      SlabsEvents(items[1..]);
    }
  }

  lemma OwnedSpread(s: Pipe, c: nat, b: Conn, r: (Conn, Effect))
    requires c in s.members && PoolOk(s) && Owned(s) && Tame(b, r, Open(s)) && b.readBuffer.size == s.size
    ensures Owned(Spread(s, c, r))
  {
    hide Handed, Post, UpTo, SlabsOf;
    OwnedHanded(s, c, r.1.copy);
    HandedIs(s, c, r.1.copy, c);
    var t := Handed(s, c, r.1.copy);
    var events := EventsOf(c, r.1.worker);
    PostAppends(t.worker, events);
    SlabsAppend(t.worker.items, events);
    SlabsEvents(events);
  }

  lemma OwnedSame(s: Pipe, t: Pipe)
    requires Owned(s) && t.made == s.made && t.serving == s.serving
    requires t.pool.items == s.pool.items && t.worker.items == s.worker.items
    ensures Owned(t)
  {
    hide UpTo, SlabsOf, SlabOf;
  }

  lemma OwnedManages(s: Pipe, c: nat)
    requires AllGood(s) && Owned(s) && c in s.members && s.members[c].progress < 10
    ensures Owned(Manages(s, c))
  {
    hide Spread, HandOver, Owned, Good, PoolOk, View, Enqueue, Quiet;
    var m := s.members[c];
    ViewIs(s, c);
    SizeOf(View(s, c));
    var next := WithProgress(s, c, m.progress + 1);
    if m.progress < 2 {
      OwnedSame(s, Manages(s, c));
    } else {
      OwnedSame(s, next);
      SamePool(s, next);
      HandOverTame(m.conn, m.progress, Open(s));
      OwnedSpread(next, c, m.conn, HandOver(m.conn, m.progress, Open(s)));
    }
  }

  lemma OwnedOf(s: Pipe, m: Move)
    requires AllGood(s) && Owned(s) && m.Of? && Possible(s, m)
    ensures Owned(Taken(s, m))
  {
    hide Spread, EnterState, Interest, ReadInput, Owned, Manages, Good, PoolOk, View, Quiet;
    var c := m.c;
    var conn := s.members[c].conn;
    ViewIs(s, c);
    SizeOf(View(s, c));
    match m.act
    case Manage => OwnedManages(s, c);
    case Arrive(input, _) =>
      ReadTame(conn, input, Open(s));
      OwnedSpread(s, c, conn, ReadInput(conn, input, Open(s)));
    case WantWrite =>
      InterestTame(conn, Open(s));
      OwnedSpread(s, c, conn, Interest(conn, Open(s)));
    case WantClose(force) =>
      EnterTame(conn, if force then StateClosed else StatePendingClose, Open(s));
      OwnedSpread(s, c, conn, CloseConnection(conn, force, Open(s)));
  }

  lemma OwnedReader(s: Pipe)
    requires AllGood(s) && Owned(s)
    ensures Owned(ReaderTurn(s))
  {
    hide Spread, ManagedBy, Owned, Good, PoolOk, View, Quiet, Dequeue, Vote, MapRegister, MapUnregister;
    var r := Dequeue(s.reader).1;
    if r.Some? && r.value.DataItem? && Known(s, r.value.data) {
      var c := r.value.data.conn;
      ViewIs(s, c);
      SizeOf(View(s, c));
      ReaderPopped(s, c);
      var b := s.members[c].conn.(readKey := true);
      var t := s.(reader := Dequeue(s.reader).0, registry := MapRegister(s.registry, OP_READ, c, c), load := s.load + 1);
      OwnedSame(s, t);
      SamePool(s, t);
      ManagedTame(b, Reader, Open(s));
      OwnedSpread(t, c, b, ManagedBy(b, Reader, Open(s)));
    } else {
      OwnedSame(s, ReaderTurn(s));
    }
  }

  lemma OwnedWriter(s: Pipe, chunk: seq<byte>, took: Option<nat>)
    requires AllGood(s) && Owned(s) && WriterMay(s, chunk, took)
    ensures Owned(WriterTurn(s, chunk, took))
  {
    hide Spread, WriteOutput, MaySend, Owned, Good, PoolOk, View, Quiet, Dequeue, Vote, RemoveAll;
    var r := Dequeue(s.writer).1;
    if r.Some? && r.value.EventItem? && r.value.event == OutboundData && Known(s, r.value.source) {
      var c := r.value.source.conn;
      ViewIs(s, c);
      SizeOf(View(s, c));
      WriterPopped(s, c);
      var (conn, e, again) := WriteOutput(s.members[c].conn, chunk, took, Open(s));
      var t := s.(writer := Dequeue(s.writer).0, resend := if again then Some(c) else None);
      OwnedSame(s, t);
      SamePool(s, t);
      WriteTame(s.members[c].conn, chunk, took, Open(s));
      OwnedSpread(t, c, s.members[c].conn, (conn, e));
    } else {
      OwnedSame(s, WriterTurn(s, chunk, took));
    }
  }

  // ---------------------------------------------------------------- the worker's own steps

  lemma {:induction false} SlabsSplit(items: seq<Item>, c: nat)
    ensures SlabsOf(Without(items, IsTask(c))) + SlabsOf(Without(items, NoTask(c))) == SlabsOf(items)
  {
    hide SlabOf;
    if items != [] {
      SlabsSplit(items[1..], c);
      var kept, gone := Without(items[1..], IsTask(c)), Without(items[1..], NoTask(c));
      SlabsAppend([items[0]], kept);
      SlabsAppend([items[0]], gone);
      SlabsOne(items[0]);
      assert [] + kept == kept && [] + gone == gone;
      assert IsTask(c)(items[0]) != NoTask(c)(items[0]);
    }
  }

  lemma {:induction false} SlabsReleased(pool: QState<Ptr>, tasks: seq<Item>)
    requires !pool.exit && forall x <- tasks :: x.TaskItem? && x.buffer.Slab?
    ensures SlabsOf(ReleasedAll(pool, tasks).items) == SlabsOf(pool.items) + SlabsOf(tasks)
    decreases |tasks|
  {
    hide Released;
    if tasks != [] {
      var buffer := tasks[0].buffer;
      ReleasedIs(pool, buffer, buffer.mem.size);
      SlabsPush(pool.items, DataItem(Slab(buffer.id, NewMem(buffer.mem.size))));
      SlabsReleased(Released(pool, buffer), tasks[1..]);
    }
  }

  /** The worker's next item, and what is left. */
  lemma OwnedHead(s: Pipe)
    requires Owned(s) && Dequeue(s.worker).1.Some?
    ensures var (q, r) := Dequeue(s.worker);
      && SlabsOf(s.worker.items) == SlabOf(r.value) + SlabsOf(q.items)
      && (Whom(r.value).Some? || r.value.ExitItem?)
      && (forall x <- q.items :: Whom(x).Some? || x.ExitItem?)
  {
    hide UpTo, SlabOf;
  }

  lemma OwnedTask(s: Pipe, c: nat)
    requires AllGood(s) && Owned(s) && s.serving.None? && c in s.members
    requires Dequeue(s.worker).1.Some? && Dequeue(s.worker).1.value.TaskItem? && Whom(Dequeue(s.worker).1.value) == Some(c)
    ensures Owned(WorkerTurn(s)) && Held(WorkerTurn(s))
  {
    hide Good, PoolOk, View, Quiet, Dequeue, UpTo, SlabsOf, SlabOf, WithConn;
    OwnedHead(s);
    PartsOfGood(View(s, c));
    WorkerPopped(s, c);
    ViewIs(s, c);
    TookTask(View(s, c));
    var (q, r) := Dequeue(s.worker);
    var conn := s.members[c].conn;
    var heard := conn.(log := conn.log.(delivered := conn.log.delivered + B.Content(r.value.buffer.mem)));
    var t := s.(worker := q, serving := r);
    ConnKeepsRest(t, c, heard);
  }

  lemma ConnKeepsRest(s: Pipe, c: nat, conn: Conn)
    requires c in s.members
    ensures var t := WithConn(s, c, conn);
      && t.pool == s.pool && t.worker == s.worker && t.serving == s.serving && t.made == s.made && c in t.members
  {
  }

  /** The tasks that are dropped with a connection are tasks of the worker's pool. */
  lemma DroppedTasks(s: Pipe, items: seq<Item>, c: nat)
    requires forall x <- About(items, c) :: x.TaskItem? ==> x.buffer.Slab? && x.buffer.mem.size == s.size
    ensures forall x <- Without(items, NoTask(c)) :: x.TaskItem? && x.buffer.Slab?
  {
    WithoutMembers(items, NoTask(c));
    forall x | x in Without(items, NoTask(c))
      ensures x.TaskItem? && x.buffer.Slab?
    {
      assert !NoTask(c)(x);
      assert IsTask(c)(x);
      AboutHas(items, c, x);
    }
  }

  lemma OwnedDropped(s: Pipe, t: Pipe, q: seq<Item>, c: nat)
    requires PoolOk(s) && Owned(s) && t.made == s.made && t.serving == s.serving
    requires SlabsOf(s.worker.items) == SlabsOf(q)
    requires forall x <- q :: Whom(x).Some? || x.ExitItem?
    requires forall x <- About(q, c) :: x.TaskItem? ==> x.buffer.Slab? && x.buffer.mem.size == s.size
    requires t.pool == ReleasedAll(s.pool, Without(q, NoTask(c))) && t.worker.items == Without(q, IsTask(c))
    ensures Owned(t)
  {
    hide UpTo, SlabsOf, SlabOf, About, Without, ReleasedAll;
    DroppedTasks(s, q, c);
    SlabsSplit(q, c);
    SlabsReleased(s.pool, Without(q, NoTask(c)));
    WithoutMembers(q, IsTask(c));
  }

  lemma OwnedClose(s: Pipe, c: nat)
    requires AllGood(s) && Owned(s) && s.serving.None? && c in s.members
    requires Dequeue(s.worker).1.Some? && !Dequeue(s.worker).1.value.TaskItem? && Whom(Dequeue(s.worker).1.value) == Some(c)
    ensures Owned(WorkerTurn(s)) && Held(WorkerTurn(s))
  {
    hide Good, PoolOk, View, Quiet, Dequeue, UpTo, SlabsOf, WithConn, Vote, ReleasedAll, Without, About, Owned, Base,
      ReaderForm,
      WriterForm, AcceptorForm, Buffers;
    OwnedHead(s);
    PartsOfGood(View(s, c));
    WorkerPopped(s, c);
    ViewIs(s, c);
    var l := View(s, c);
    assert l.worker[0] == EventOf(c, Close);
    var (q, r) := Dequeue(s.worker);
    var popped := s.(worker := q);
    AboutIs(popped, c);
    assert forall x <- l.worker[1..] :: x in l.worker;
    var conn := s.members[c].conn;
    var (kept, removed) := RemoveAll(q, IsTask(c));
    var t := popped.(worker := kept, pool := ReleasedAll(s.pool, Without(q.items, NoTask(c))));
    OwnedDropped(s, t, q.items, c);
    var voted := Vote(conn.(log := conn.log.(dropped := conn.log.dropped || removed)), Worker);
    ConnKeepsRest(t, c, voted);
    OwnedSame(t, WithConn(t, c, voted));
  }

  lemma OwnedNothing(s: Pipe)
    requires Owned(s) && s.serving.None?
    requires Dequeue(s.worker).1.Some? ==> Whom(Dequeue(s.worker).1.value).None?
    ensures Owned(s.(worker := Dequeue(s.worker).0))
  {
    hide UpTo;
    if Dequeue(s.worker).1.Some? {
      OwnedHead(s);
    }
  }

  lemma OwnedWorker(s: Pipe)
    requires AllGood(s) && Owned(s) && s.serving.None?
    ensures Owned(WorkerTurn(s)) && Held(WorkerTurn(s))
  {
    hide AllGood, Dequeue, Owned, WithConn, RemoveAll, ReleasedAll, Vote;
    var r := Dequeue(s.worker).1;
    if r.Some? && Whom(r.value).Some? {
      HeadIsKnown(s, s.worker, r.value);
      if r.value.TaskItem? {
        OwnedTask(s, Whom(r.value).value);
      } else {
        OwnedClose(s, Whom(r.value).value);
      }
    } else {
      OwnedNothing(s);
    }
  }

  lemma OwnedDone(s: Pipe, left: Mem)
    requires AllGood(s) && Owned(s) && Held(s) && s.serving.Some? && left.size == s.size
    ensures Owned(WorkerDone(s, left))
  {
    hide Good, View, Quiet, UpTo, SlabsOf, Released;
    var id := s.serving.value.buffer.id;
    ReleasedIs(s.pool, Slab(id, left), s.size);
    SlabsPush(s.pool.items, DataItem(Slab(id, NewMem(s.size))));
  }

  lemma OwnedExit(s: Pipe, which: Which)
    requires Owned(s)
    ensures Owned(Exiting(s, which))
  {
    hide UpTo, SlabsOf;
    SlabsPush(s.worker.items, ExitItem);
  }

  lemma HeldKept(s: Pipe, t: Pipe)
    requires Held(s) && t.serving == s.serving && forall c :: c in s.members ==> c in t.members
    ensures Held(t)
  {
  }

  lemma HeldSpread(s: Pipe, c: nat, r: (Conn, Effect))
    requires c in s.members
    ensures Spread(s, c, r).serving == s.serving
  {
    hide PoolModel.Allocate, Post, Without, Released;
  }

  lemma HeldOf(s: Pipe, m: Move)
    requires Held(s) && m.Of? && Possible(s, m)
    ensures Held(Taken(s, m))
  {
    hide Spread, EnterState, Interest, ReadInput, HandOver, Held, Enqueue;
    var c := m.c;
    match m.act
    case Manage =>
      var next := WithProgress(s, c, s.members[c].progress + 1);
      var r := HandOver(s.members[c].conn, s.members[c].progress, Open(s));
      HeldSpread(next, c, r);
      SpreadChanges(next, c, r);
      HeldKept(s, Taken(s, m));
    case Arrive(input, _) =>
      var r := ReadInput(s.members[c].conn, input, Open(s));
      HeldSpread(s, c, r);
      SpreadChanges(s, c, r);
      HeldKept(s, Taken(s, m));
    case WantWrite =>
      var r := Interest(s.members[c].conn, Open(s));
      HeldSpread(s, c, r);
      SpreadChanges(s, c, r);
      HeldKept(s, Taken(s, m));
    case WantClose(force) =>
      var r := CloseConnection(s.members[c].conn, force, Open(s));
      HeldSpread(s, c, r);
      SpreadChanges(s, c, r);
      HeldKept(s, Taken(s, m));
  }

  lemma HeldReader(s: Pipe)
    requires Held(s)
    ensures Held(ReaderTurn(s))
  {
    hide Spread, ManagedBy, Held, Dequeue, Vote, MapRegister, MapUnregister;
    var r := Dequeue(s.reader).1;
    if r.Some? && r.value.DataItem? && Known(s, r.value.data) {
      var c := r.value.data.conn;
      var t := s.(reader := Dequeue(s.reader).0, registry := MapRegister(s.registry, OP_READ, c, c), load := s.load + 1);
      var e := ManagedBy(s.members[c].conn.(readKey := true), Reader, Open(s));
      HeldSpread(t, c, e);
      SpreadChanges(t, c, e);
    }
    HeldKept(s, ReaderTurn(s));
  }

  lemma HeldWriter(s: Pipe, chunk: seq<byte>, took: Option<nat>)
    requires Held(s) && WriterMay(s, chunk, took)
    ensures Held(WriterTurn(s, chunk, took))
  {
    hide Spread, WriteOutput, MaySend, Held, Dequeue, Vote, RemoveAll;
    var r := Dequeue(s.writer).1;
    if r.Some? && r.value.EventItem? && r.value.event == OutboundData && Known(s, r.value.source) {
      var c := r.value.source.conn;
      var (conn, e, again) := WriteOutput(s.members[c].conn, chunk, took, Open(s));
      var t := s.(writer := Dequeue(s.writer).0, resend := if again then Some(c) else None);
      HeldSpread(t, c, (conn, e));
      SpreadChanges(t, c, (conn, e));
    }
    HeldKept(s, WriterTurn(s, chunk, took));
  }

  /** In every step each buffer stays in exactly one place. */
  lemma OwnedKeeps(s: Pipe, m: Move)
    requires AllGood(s) && Owned(s) && Held(s) && Possible(s, m)
    ensures Owned(Taken(s, m)) && Held(Taken(s, m))
  {
    hide AllGood, Owned, Held, Spread, Manages, ReaderTurn, WorkerTurn, WriterTurn, WorkerDone, Exiting, EnterState,
      Interest,
      ReadInput, NewConnection;
    match m
    case Accept(c) =>
      OwnedSame(s, Taken(s, m));
      HeldKept(s, Taken(s, m));
    case Of(_, _) =>
      OwnedOf(s, m);
      HeldOf(s, m);
    case ReaderMove =>
      OwnedReader(s);
      HeldReader(s);
    case WorkerMove => OwnedWorker(s);
    case WorkerEnds(left) =>
      OwnedDone(s, left);
      Idle(s, left);
    case WriterMove(chunk, took) =>
      OwnedWriter(s, chunk, took);
      HeldWriter(s, chunk, took);
    case WriterBack =>
      OwnedSame(s, Taken(s, m));
      HeldKept(s, Taken(s, m));
    case ExitOf(which) =>
      OwnedExit(s, which);
      HeldExit(s, which);
  }

  lemma Idle(s: Pipe, left: Mem)
    ensures Held(WorkerDone(s, left))
  {
  }

  lemma HeldExit(s: Pipe, which: Which)
    requires Held(s)
    ensures Held(Exiting(s, which))
  {
  }
}
