/** When the input of a connection reaches its READ handler in order. Input is given up when the worker
    handles a CLOSE; the bytes that were delivered and those still queued are no longer the beginning of
    what was received only if more comes in after that. */
module Arrivals {
  import opened EventModel
  import opened QueueModel
  import opened Connections
  import opened Lives
  import opened Reactions
  import opened Invariants
  import opened Closing
  import opened Streams
  import opened Pipes
  import opened Projection
  import opened Refinement
  import opened Holdings
  import opened Runs
  import opened Realization
  import opened Theorems
  import B = BufferModel

  // ---------------------------------------------------------------- one life

  /** Input can become a task: reading is allowed, the key is registered, the worker's queue is open. */
  predicate Flowing(l: Life) {
    l.conn.canRead && l.conn.readKey && l.accepts.worker
  }

  /** What reached the READ handler or is on its way to it. */
  function Kept(l: Life): seq<byte> {
    l.conn.log.delivered + Contents(l.worker)
  }

  /** Nothing is missing but at the end, and there only when nothing more can be queued. */
  ghost predicate InOrder(l: Life) {
    && Kept(l) <= l.conn.log.received
    && (Flowing(l) ==> Kept(l) == l.conn.log.received)
    && (l.conn.log.connects == 0 ==> l.conn.log.received == [])
  }

  /** A step that gives up and receives nothing, and lets no input flow that did not before. */
  ghost predicate SameOrder(l: Life, m: Life) {
    && Kept(m) == Kept(l) && m.conn.log.received == l.conn.log.received
    && l.conn.log.connects <= m.conn.log.connects
    && (l.conn.log.connects > 0 && Flowing(m) ==> Flowing(l))
  }

  ghost predicate Orderly(l: Life, m: Life) {
    && (InOrder(l) ==> InOrder(m))
    && (Worker in l.conn.log.votes ==> Worker in m.conn.log.votes)
  }

  lemma OrderKept(l: Life, m: Life)
    requires SameOrder(l, m) && (Worker in l.conn.log.votes ==> Worker in m.conn.log.votes)
    ensures Orderly(l, m)
  {
    if InOrder(l) && l.conn.log.connects == 0 {
      assert Kept(l) == [];
    }
  }

  lemma SameWorker(l: Life, m: Life)
    requires m.worker == l.worker && m.conn.log.delivered == l.conn.log.delivered
    ensures Kept(m) == Kept(l)
  {
  }

  lemma OrderManage(l: Life)
    requires Base(l) && l.progress < 10
    ensures Orderly(l, Managed(l))
  {
    hide Base, Managed, Kept, Orderly;
    if InstallStep(l.progress) {
      InstallIs(l);
    } else if l.progress < 2 {
      QueuedIs(l);
    } else {
      ManagedIs(l);
    }
    SameWorker(l, Managed(l));
    OrderKept(l, Managed(l));
  }

  lemma OrderTakeReader(l: Life)
    requires Base(l) && Forms(l) && l.reader != []
    ensures Orderly(l, ReaderTook(l))
  {
    hide ReaderTook, Base, Forms, Kept, Orderly;
    if l.reader[0] == DataOf(l.self) {
      TookData(l);
    } else {
      TookEvent(l);
    }
    SameWorker(l, ReaderTook(l));
    OrderKept(l, ReaderTook(l));
  }

  lemma OrderCloses(l: Life, force: bool, id: nat)
    requires Base(l)
    ensures Orderly(l, Carry(l, CloseConnection(l.conn, force, l.accepts), id))
  {
    hide Shape, VotesOk, EnterState, Carry, Voters, Contents, Content, Orderly;
    var m := Carry(l, CloseConnection(l.conn, force, l.accepts), id);
    if l.conn.state == (if force then StateClosed else StatePendingClose) {
      AlreadyClosing(l, force, id);
    } else if force {
      ClosedReaction(l, id);
      CloseHoldsNothing(l.self, l.worker, m.worker);
    } else {
      PendingReaction(l, id);
    }
    OrderKept(l, m);
  }

  lemma CloseHoldsNothing(self: nat, items: seq<Item>, more: seq<Item>)
    requires more == items || more == items + [EventOf(self, Close)]
    ensures Contents(more) == Contents(items)
  {
    ContentsAppend(items, [EventOf(self, Close)]);
    ContentsOne(EventOf(self, Close));
    EventHoldsNothing(self, Close);
  }

  lemma OrderArrives(l: Life, bytes: seq<byte>, id: nat)
    requires Base(l) && Buffers(l) && l.conn.canRead && l.conn.readKey && 0 < |bytes| <= Room(l.conn.readBuffer)
    ensures Orderly(l, Carry(l, ReadInput(l.conn, Bytes(bytes), l.accepts), id))
  {
    hide Shape, VotesOk, Timely, Managers, Carry, ReadInput, Emit, Received, Cleared, CopyOf, Flipped, B.Sound, B.Content,
      Contents, Room, Buffers;
    InputReaction(l, bytes, id);
    var m := Carry(l, ReadInput(l.conn, Bytes(bytes), l.accepts), id);
    if l.accepts.worker {
      var item := m.worker[|l.worker|];
      assert m.worker == l.worker + [item];
      ContentsAppend(l.worker, [item]);
      ContentsOne(item);
      assert Kept(l) + bytes == Kept(m);
    } else {
      SameWorker(l, m);
    }
  }

  lemma OrderArrive(l: Life, input: Input, id: nat)
    requires Base(l) && Forms(l) && Enabled(l, Arrive(input, id))
    ensures Orderly(l, Next(l, Arrive(input, id)))
  {
    hide Base, Forms, Orderly, Kept, Carry, ReadInput, CloseConnection, B.Sound, B.Content;
    BuffersOf(l);
    if !B.HasRemaining(l.conn.readBuffer) || !input.Bytes? {
      NoInputCloses(l.conn, input, l.accepts);
      OrderCloses(l, true, id);
    } else if l.conn.canRead {
      OrderArrives(l, input.bytes, id);
    } else {
      IgnoredReaction(l, input.bytes, id);
      SameWorker(l, Next(l, Arrive(input, id)));
      OrderKept(l, Next(l, Arrive(input, id)));
    }
  }

  lemma OrderTookTask(l: Life)
    requires Forms(l) && l.worker != [] && l.worker[0] != EventOf(l.self, Close)
    ensures Orderly(l, WorkerTook(l))
  {
    hide WorkerTook, ReaderForm, WriterForm, AcceptorForm, Buffers, Contents, B.Content, B.Sound, Orderly;
    TookTask(l);
    ContentsFirst(l.worker);
    Associates(l.conn.log.delivered, Content(l.worker[0]), Contents(l.worker[1..]));
    OrderKept(l, WorkerTook(l));
  }

  lemma OrderTakeWriter(l: Life, chunk: seq<byte>, took: Option<nat>)
    requires Base(l) && Forms(l) && Enabled(l, TakeWriter(chunk, took))
    ensures Orderly(l, WriterTook(l, chunk, took))
  {
    hide Base, Forms, WriterTook, Refill, CloseConnection, Carry, GivingUp, Orderly, Kept, B.Content, B.Sound;
    BuffersOf(l);
    if l.writer[0] != EventOf(l.self, OutboundData) {
      TookWriterClose(l, chunk, took);
      SameWorker(l, WriterTook(l, chunk, took));
      OrderKept(l, WriterTook(l, chunk, took));
    } else if l.conn.canWrite && took.Some? {
      WriterSent(l, chunk, took.value);
      SameWorker(l, WriterTook(l, chunk, took));
      OrderKept(l, WriterTook(l, chunk, took));
    } else {
      OrderGivesUp(l, chunk, took);
    }
  }

  lemma OrderGivesUp(l: Life, chunk: seq<byte>, took: Option<nat>)
    requires Base(l) && Forms(l) && Enabled(l, TakeWriter(chunk, took))
    requires !(l.conn.canWrite && took.Some?) && l.writer[0] == EventOf(l.self, OutboundData)
    ensures Orderly(l, WriterTook(l, chunk, took))
  {
    hide Base, Forms, WriterTook, Refill, CloseConnection, Carry, GivingUp, Kept, InOrder, B.Content, B.Sound;
    BuffersOf(l);
    TookOutbound(l, chunk, took);
    BaseGivingUp(l, chunk);
    GivingUpIs(l, chunk);
    var k := GivingUp(l, chunk);
    SameWorker(l, k);
    OrderKept(l, k);
    OrderCloses(k, true, 0);
  }

  lemma OrderInterest(l: Life)
    requires Base(l)
    ensures Orderly(l, Carry(l, Interest(l.conn, l.accepts), 0))
  {
    hide Base, Carry, Interest, Orderly, Kept;
    BaseIs(l);
    if l.conn.canWrite {
      InterestReaction(l, 0);
    } else {
      InterestLost(l, 0);
    }
    SameWorker(l, Carry(l, Interest(l.conn, l.accepts), 0));
    OrderKept(l, Carry(l, Interest(l.conn, l.accepts), 0));
  }

  lemma OrderRest(l: Life, m: Life)
    requires m.conn == l.conn && m.worker == l.worker && (m.accepts.worker ==> l.accepts.worker)
    ensures Orderly(l, m)
  {
    SameWorker(l, m);
    OrderKept(l, m);
  }

  /** Every step but the worker's CLOSE keeps the input in order. */
  lemma OrderKeeps(l: Life, a: Act)
    requires Good(l) && Enabled(l, a) && !(a.TakeWorker? && l.worker[0] == EventOf(l.self, Close))
    ensures Orderly(l, Next(l, a))
  {
    hide Base, Forms, Course, Tokens, Inbound, Interests, Orderly, Carry, Managed, ReaderTook, WorkerTook, WriterTook,
      ReadInput, CloseConnection, Interest;
    match a
    case Manage => OrderManage(l);
    case TakeReader => OrderTakeReader(l);
    case Arrive(input, id) => OrderArrive(l, input, id);
    case TakeWorker => OrderTookTask(l);
    case TakeWriter(chunk, took) => OrderTakeWriter(l, chunk, took);
    case WantWrite => OrderInterest(l);
    case WantClose(force) => OrderCloses(l, force, 0);
    case _ => OrderRest(l, Next(l, a));
  }

  /** The worker's CLOSE keeps it too if nothing is queued or nothing can come after it. */
  lemma OrderTookClose(l: Life)
    requires Good(l) && l.worker != [] && l.worker[0] == EventOf(l.self, Close)
    ensures var m := WorkerTook(l);
      && m == l.(worker := [], conn := m.conn) && m.conn.canRead == l.conn.canRead && m.conn.readKey == l.conn.readKey
      && m.conn.log.received == l.conn.log.received && Worker in m.conn.log.votes
      && Kept(m) == l.conn.log.delivered == m.conn.log.delivered && m.conn.readBuffer == l.conn.readBuffer
      && (InOrder(l) && (Contents(l.worker) == [] || !Flowing(l)) ==> InOrder(m))
  {
    hide WorkerTook, Base, Forms, Course, Tokens, Inbound, Interests, B.Content, B.Sound;
    GoodIs(l);
    PartsOf(l);
    TookWorkerClose(l);
    assert l.conn.log.delivered + [] == l.conn.log.delivered;
  }

  // ---------------------------------------------------------------- every run

  predicate Voted(l: Life) {
    Worker in l.conn.log.votes
  }

  lemma OrderStep(l: Life, a: Act)
    requires Good(l) && Enabled(l, a)
    ensures Voted(l) ==> Voted(Next(l, a))
    ensures InOrder(l) && (Voted(l) || !Voted(Next(l, a))) ==> InOrder(Next(l, a))
  {
    hide Good, InOrder, WorkerTook, Managed, ReaderTook, WriterTook, ReadInput, CloseConnection, Interest, Carry;
    if a.TakeWorker? && l.worker[0] == EventOf(l.self, Close) {
      OrderTookClose(l);
      NotVoted(l);
    } else {
      OrderKeeps(l, a);
    }
  }

  lemma NotVoted(l: Life)
    requires Good(l) && EventOf(l.self, Close) in l.worker
    ensures !Voted(l)
  {
    hide Base, Forms, Course, Inbound, Interests;
  }

  /** As long as the worker has not voted, the input is in order. */
  ghost predicate InOrderYet(s: Pipe, c: nat) {
    c in s.members && !Voted(View(s, c)) ==> InOrder(View(s, c))
  }

  /** The worker has voted, and left the input in order. */
  ghost predicate InOrderFrom(s: Pipe, c: nat) {
    c in s.members && Voted(View(s, c)) && InOrder(View(s, c))
  }

  lemma OrderMove(s: Pipe, m: Move, c: nat)
    requires Safe(s) && Possible(s, m)
    ensures InOrderYet(s, c) ==> InOrderYet(Taken(s, m), c)
    ensures InOrderFrom(s, c) ==> InOrderFrom(Taken(s, m), c)
  {
    hide Safe, AllGood, Held, Loaded, Owned, Good, Possible, Taken, View, InOrder, Voted, Enabled, Next;
    SafeIs(s);
    var t := Taken(s, m);
    if c in s.members {
      GoodAt(s, c);
      MoveFollows(s, m, c);
      var l, k := View(s, c), View(t, c);
      if k != l {
        var a :| Enabled(l, a) && k == Next(l, a) && (a.WantClose? ==> m == Of(l.self, a));
        OrderStep(l, a);
      }
    } else if c in t.members {
      NewcomerIs(s, m, c);
      SafeKeeps(s, m);
      GoodAt(t, c);
      ViewIs(t, c);
      NewInOrder(View(t, c), s.size);
    }
  }

  lemma NewInOrder(l: Life, size: nat)
    requires Good(l) && l.conn == NewConnection(size)
    ensures InOrder(l)
  {
    hide Base, Forms, Course, Tokens, Interests, Contents, NewConnection;
    NewbornIs(size);
  }

  lemma {:induction false} OrderRuns(s: Pipe, moves: seq<Move>, c: nat)
    requires Safe(s) && Legal(s, moves)
    ensures InOrderYet(s, c) ==> InOrderYet(After(s, moves), c)
    ensures InOrderFrom(s, c) ==> InOrderFrom(After(s, moves), c)
    decreases |moves|
  {
    hide Safe, Possible, Taken, InOrderYet, InOrderFrom;
    if moves != [] {
      OrderMove(s, moves[0], c);
      SafeKeeps(s, moves[0]);
      OrderRuns(Taken(s, moves[0]), moves[1..], c);
    }
  }

  lemma OrderReached(size: nat, moves: seq<Move>, c: nat)
    requires Legal(NewPipe(size), moves)
    ensures InOrderYet(After(NewPipe(size), moves), c)
  {
    hide Safe, NewPipe, Legal, After, View;
    SafeStart(size);
    NewIsEmpty(size);
    OrderRuns(NewPipe(size), moves, c);
  }

  // ---------------------------------------------------------------- results

  /** The bytes delivered and those queued are the beginning of the bytes received. */
  predicate InputInOrder(s: Pipe, c: nat) {
    c in s.members && var log := s.members[c].conn.log;
    log.delivered + Contents(About(s.worker.items, c)) <= log.received
  }

  /** Input can still become a task. */
  predicate InputFlows(s: Pipe, c: nat) {
    c in s.members && s.members[c].conn.canRead && c in s.registry && !s.worker.exit
  }

  ghost predicate StaysInOrder(s: Pipe, c: nat) {
    forall more :: Legal(s, more) ==> InputInOrder(After(s, more), c)
  }

  /** In every run, also after an early close: as long as the worker has not voted, what was delivered and
      what is queued is the beginning of what was received, and all of it while input still flows. */
  lemma InputIsInOrder(size: nat, moves: seq<Move>, c: nat)
    requires Legal(NewPipe(size), moves)
    requires var s := After(NewPipe(size), moves); c in s.members && Worker !in s.members[c].conn.log.votes
    ensures var s := After(NewPipe(size), moves); var log := s.members[c].conn.log;
      InputInOrder(s, c) && (InputFlows(s, c) ==> log.delivered + Contents(About(s.worker.items, c)) == log.received)
  {
    hide Safe, NewPipe, Legal, After, View, InOrder, Contents, About;
    Reached(size, moves);
    OrderReached(size, moves, c);
    OrderAt(After(NewPipe(size), moves), c);
    ViewIs(After(NewPipe(size), moves), c);
  }

  lemma OrderAt(s: Pipe, c: nat)
    requires Safe(s) && c in s.members
    ensures var l := View(s, c);
      && (InputFlows(s, c) <==> Flowing(l)) && (InputInOrder(s, c) <==> Kept(l) <= l.conn.log.received)
      && Kept(l) == s.members[c].conn.log.delivered + Contents(About(s.worker.items, c))
      && (InOrder(l) ==> InputInOrder(s, c) && (Flowing(l) ==> Kept(l) == l.conn.log.received))
  {
    hide Safe, Contents;
    KeyedAt(s, c);
  }

  /** The worker finds the CLOSE of the connection next. */
  predicate CloseComes(s: Pipe, c: nat) {
    c in s.members && s.serving.None? && Dequeue(s.worker).1 == Some(EventOf(c, Close))
  }

  /** When the worker handles the CLOSE of a connection, its input stays in order, whatever happens later,
      if and only if no input is queued or no more can come: reading is not allowed, the key is gone, or
      the worker's queue has seen an EXIT. */
  lemma CloseKeepsOrderExactlyWhen(size: nat, moves: seq<Move>, c: nat)
    requires Legal(NewPipe(size), moves)
    requires CloseComes(After(NewPipe(size), moves), c)
    ensures var s := After(NewPipe(size), moves);
      StaysInOrder(Taken(s, WorkerMove), c) <==> Contents(About(s.worker.items, c)) == [] || !InputFlows(s, c)
  {
    hide Safe, NewPipe, Legal, After, Contents, About, InputInOrder, InputFlows, Dequeue, InOrderFrom, InOrderYet,
      CloseHandled, WorkerTurn;
    var s := After(NewPipe(size), moves);
    var t := Taken(s, WorkerMove);
    Reached(size, moves);
    SafeKeeps(s, WorkerMove);
    OrderReached(size, moves, c);
    CloseTurn(s, c);
    if Contents(About(s.worker.items, c)) == [] || !InputFlows(s, c) {
      KeepsOrder(s, t, c);
      forall more | Legal(t, more)
        ensures InputInOrder(After(t, more), c)
      {
        OrderRuns(t, more, c);
        SafeRuns(t, more);
        FromInOrder(After(t, more), c);
      }
    } else {
      var more := OneMore(s, t, c);
      assert Legal(t, more) && !InputInOrder(After(t, more), c);
    }
  }

  lemma FromInOrder(s: Pipe, c: nat)
    requires Safe(s) && InOrderFrom(s, c)
    ensures InputInOrder(s, c)
  {
    hide Safe, InputInOrder, InputFlows, View, InOrder;
    OrderAt(s, c);
  }

  /** The worker handles it, with the input in order so far. */
  ghost predicate CloseHandled(s: Pipe, t: Pipe, c: nat) {
    && c in s.members && c in t.members
    && var l := View(s, c);
    && Good(l) && InOrder(l) && l.worker != [] && l.worker[0] == EventOf(l.self, Close) && View(t, c) == WorkerTook(l)
  }

  lemma CloseTurn(s: Pipe, c: nat)
    requires CloseComes(s, c) && InOrderYet(s, c) && Safe(s)
    ensures CloseHandled(s, WorkerTurn(s), c)
  {
    hide Safe, Held, Loaded, Owned, Good, Quiet, View, InOrder, WorkerTook, About, Dequeue, WorkerTurn, Voted;
    SafeIs(s);
    GoodAt(s, c);
    ViewIs(s, c);
    WorkerPopped(s, c);
    WorkerTookClose(s, c);
    assert EventOf(c, Close) in View(s, c).worker;
    NotVoted(View(s, c));
  }

  lemma KeepsOrder(s: Pipe, t: Pipe, c: nat)
    requires CloseHandled(s, t, c) && (Contents(About(s.worker.items, c)) == [] || !InputFlows(s, c)) && Safe(s)
    ensures InOrderFrom(t, c)
  {
    hide Safe, Good, View, InOrder, WorkerTook, Contents, About, InputFlows, InputInOrder, Voted, Flowing;
    OrderTookClose(View(s, c));
    OrderAt(s, c);
    AboutIs(s, c);
    VotedIs(View(t, c));
  }

  lemma VotedIs(l: Life)
    ensures Voted(l) <==> Worker in l.conn.log.votes
  {
  }

  /** One byte more that differs from the first one lost. */
  lemma OneMore(s: Pipe, t: Pipe, c: nat) returns (more: seq<Move>)
    requires CloseHandled(s, t, c) && Contents(About(s.worker.items, c)) != [] && InputFlows(s, c) && Safe(s) && Safe(t)
    ensures Legal(t, more) && !InputInOrder(After(t, more), c)
  {
    hide Safe, Good, View, InOrder, WorkerTook, Contents, About, InputFlows, InputInOrder, Enabled, Next, Flowing, Kept;
    GoodAt(t, c);
    OrderAt(s, c);
    AboutIs(s, c);
    var l, k := View(s, c), View(t, c);
    var b := Lost(l, k);
    var id := RealizeArrive(t, c, Bytes([b]));
    more := [Of(c, Arrive(Bytes([b]), 0))];
    Breaks(l, k, b, id);
    OrderAt(After(t, more), c);
  }

  /** A byte that is not the next one received. */
  lemma Lost(l: Life, k: Life) returns (b: byte)
    requires l.worker != [] && l.worker[0] == EventOf(l.self, Close) && k == WorkerTook(l)
    requires Good(l) && Good(k) && InOrder(l) && Flowing(l) && Contents(l.worker) != []
    ensures Enabled(k, Arrive(Bytes([b]), 0))
    ensures |k.conn.log.received| > |k.conn.log.delivered| && k.conn.log.received[|k.conn.log.delivered|] != b
  {
    hide Base, Forms, Course, Tokens, Inbound, Interests, WorkerTook, Contents;
    OrderTookClose(l);
    GoodIs(k);
    BuffersOf(k);
    GoodIs(l);
    PartsOf(l);
    Fits(l, l.worker);
    b := if l.conn.log.received[|l.conn.log.delivered|] == 0 then 1 else 0;
  }

  /** Tasks hold something only if the buffers do. */
  lemma {:induction false} Fits(l: Life, items: seq<Item>)
    requires forall i :: 0 <= i < |items| ==> items[i] == EventOf(l.self, Close) || IsTaskFor(l, items[i])
    ensures l.size == 0 ==> Contents(items) == []
  {
    if items != [] {
      Fits(l, items[1..]);
    }
  }

  /** It is delivered in the place of the lost ones. */
  lemma Breaks(l: Life, k: Life, b: byte, id: nat)
    requires l.worker != [] && l.worker[0] == EventOf(l.self, Close) && k == WorkerTook(l) && Flowing(l)
    requires Enabled(k, Arrive(Bytes([b]), id)) && Good(l) && Good(k)
    requires |k.conn.log.received| > |k.conn.log.delivered| && k.conn.log.received[|k.conn.log.delivered|] != b
    ensures var m := Next(k, Arrive(Bytes([b]), id)); !(Kept(m) <= m.conn.log.received)
  {
    hide Base, Forms, Course, Tokens, Inbound, Interests, WorkerTook, Carry, ReadInput, Contents, B.Content, CopyOf, Received;
    OrderTookClose(l);
    GoodIs(k);
    BuffersOf(k);
    InputReaction(k, [b], id);
    var m := Next(k, Arrive(Bytes([b]), id));
    var copy := CopyOf(Flipped(Received(k.conn.readBuffer, [b])));
    var task := TaskItem(Read, Link(k.self), Slab(id, copy));
    assert m.worker == [task];
    ContentsOne(task);
    assert Kept(m) == k.conn.log.delivered + [b];
    assert Kept(m)[|k.conn.log.delivered|] == b;
  }
}
