/** A pipe with its acceptor: any number of connections that share four queues, a buffer pool and a
    selector. A step is one queue operation, one dispatch, or the handling of one dequeued item, by
    any of the threads or the user. */
module Pipes {
  import opened EventModel
  import opened QueueModel
  import opened Connections
  import opened Lives
  import opened SelectorModel
  import PoolModel
  import B = BufferModel

  datatype Member = Member(conn: Conn, progress: nat)

  datatype Pipe = Pipe(
    size: nat,                    // the capacity of every buffer
    members: map<nat, Member>,    // the connections that were accepted, by descriptor
    acceptor: QState<Ptr>,
    reader: QState<Ptr>,
    worker: QState<Ptr>,
    writer: QState<Ptr>,
    pool: QState<Ptr>,            // the worker's buffer pool
    made: nat,                    // how many buffers were made for it
    serving: Option<Item>,        // the task that the worker holds
    resend: Option<nat>,          // the connection whose OUTBOUND event the writer is about to put back
    registry: Registry<nat>,      // the reader's selector
    load: int)

  function Open(s: Pipe): Accepts {
    Accepts(!s.reader.exit, !s.worker.exit, !s.writer.exit)
  }

  function Post(q: QState<Ptr>, items: seq<Item>): QState<Ptr>
    decreases |items|
  {
    if items == [] then q else Post(Enqueue(q, items[0]).0, items[1..])
  }

  // ---------------------------------------------------------------- the buffer pool

  /** The buffers that a refill makes. */
  function Slabs(from: nat, count: nat, size: nat): (r: seq<Ptr>)
    ensures |r| == count
  {
    seq(count, i requires 0 <= i < count => Slab(from + i, NewMem(size)))
  }

  function Batch(s: Pipe): seq<Ptr> {
    Slabs(s.made, PoolModel.BATCH_SIZE, s.size)
  }

  /** AllocateBuffer: the pool afterwards, and the number of the buffer handed out. */
  function Allocated(s: Pipe): (Pipe, Option<nat>) {
    var (pool, r) := PoolModel.Allocate(s.pool, Batch(s));
    (s.(pool := pool, made := s.made + if PoolModel.Refills(s.pool) then PoolModel.BATCH_SIZE else 0),
     if r.Some? && r.value.DataItem? && r.value.data.Slab? then Some(r.value.data.id) else None)
  }

  /** ReleaseBuffer. */
  function Released(pool: QState<Ptr>, buffer: Ptr): QState<Ptr> {
    if buffer.Slab? then Enqueue(pool, DataItem(Slab(buffer.id, Cleared(buffer.mem)))).0 else pool
  }

  /** The releases of _removeCallback, in the order in which RemoveAll finds the tasks. */
  function ReleasedAll(pool: QState<Ptr>, tasks: seq<Item>): QState<Ptr>
    decreases |tasks|
  {
    if tasks == [] then pool
    else ReleasedAll(if tasks[0].TaskItem? then Released(pool, tasks[0].buffer) else pool, tasks[1..])
  }

  // ---------------------------------------------------------------- steps

  /** The task of _WorkerReadHandler: a buffer is allocated for the copy in any case, and released
      again if the worker's queue refuses the task. */
  function Handed(s: Pipe, c: nat, copy: Option<Mem>): Pipe {
    if copy.None? then s
    else
      var (t, id) := Allocated(s);
      if id.None? then t
      else
        var buffer := Slab(id.value, copy.value);
        var (q, ok) := Enqueue(t.worker, TaskItem(Read, Link(c), buffer));
        if ok then t.(worker := q) else t.(pool := Released(t.pool, buffer))
  }

  /** A reaction of connection `c`, with all that its handlers do. */
  function Spread(s: Pipe, c: nat, r: (Conn, Effect)): Pipe
    requires c in s.members
  {
    var t := Handed(s, c, r.1.copy);
    t.(members := s.members[c := s.members[c].(conn := r.0)],
       acceptor := if r.1.purged then RemoveAll(s.acceptor, IsData(c)).0 else s.acceptor,
       reader := Post(s.reader, EventsOf(c, r.1.reader)),
       worker := Post(t.worker, EventsOf(c, r.1.worker)),
       writer := Post(s.writer, EventsOf(c, r.1.writer)))
  }

  predicate Known(s: Pipe, p: Ptr) {
    p.Link? && p.conn in s.members
  }

  function WithConn(s: Pipe, c: nat, conn: Conn): Pipe
    requires c in s.members
  {
    s.(members := s.members[c := s.members[c].(conn := conn)])
  }

  function WithProgress(s: Pipe, c: nat, progress: nat): Pipe
    requires c in s.members
  {
    s.(members := s.members[c := s.members[c].(progress := progress)])
  }

  /** _AcceptorRun, ReaderManageConnection and so on, one step at a time. */
  function Manages(s: Pipe, c: nat): Pipe
    requires c in s.members
  {
    var m := s.members[c];
    var next := WithProgress(s, c, m.progress + 1);
    if m.progress == 0 then next.(acceptor := Enqueue(s.acceptor, DataOf(c)).0)
    else if m.progress == 1 then
      var (q, ok) := Enqueue(s.reader, DataOf(c));
      if ok then next.(reader := q) else WithProgress(s, c, 11)
    else Spread(next, c, HandOver(m.conn, m.progress, Open(s)))
  }

  /** The reader's selector once it has unregistered the connection's key, if it has one. */
  function ReaderRegistry(s: Pipe, c: nat): Registry<nat>
    requires c in s.members
  {
    if s.members[c].conn.readKey && c in s.registry then MapUnregister(s.registry, c, true).0 else s.registry
  }

  /** One round of the loop in _ReaderRun. */
  function ReaderTurn(s: Pipe): Pipe {
    var (q, r) := Dequeue(s.reader);
    var t := s.(reader := q);
    match r
    case Some(DataItem(p)) =>
      if !Known(s, p) then t
      else
        var c := p.conn;
        Spread(t.(registry := MapRegister(s.registry, OP_READ, c, c), load := s.load + 1), c,
               ManagedBy(s.members[c].conn.(readKey := true), Reader, Open(s)))
    case Some(EventItem(Close, p)) =>
      if !Known(s, p) then t
      else
        var c := p.conn;
        var conn := s.members[c].conn;
        WithConn(t.(registry := ReaderRegistry(s, c), load := s.load - 1), c, Vote(conn.(readKey := false), Reader))
    case _ => t
  }

  /** One round of the loop in _WorkerRun, up to the end of the READ dispatch. */
  function WorkerTurn(s: Pipe): Pipe {
    var (q, r) := Dequeue(s.worker);
    var t := s.(worker := q);
    match r
    case Some(TaskItem(_, p, buffer)) =>
      if !Known(s, p) || !buffer.Slab? then t
      else
        var conn := s.members[p.conn].conn;
        WithConn(t.(serving := r), p.conn,
                 conn.(log := conn.log.(delivered := conn.log.delivered + B.Content(buffer.mem))))
    case Some(EventItem(_, p)) =>
      if !Known(s, p) then t
      else
        var c := p.conn;
        var conn := s.members[c].conn;
        var (kept, removed) := RemoveAll(q, IsTask(c));
        WithConn(t.(worker := kept, pool := ReleasedAll(s.pool, Without(q.items, NoTask(c)))),
                 c, Vote(conn.(log := conn.log.(dropped := conn.log.dropped || removed)), Worker))
    case _ => t
  }

  function NoTask(c: nat): Item -> bool {
    (item: Item) => !IsTask(c)(item)
  }

  /** The end of a task: its buffer, as the READ handler left it, goes back to the pool. */
  function WorkerDone(s: Pipe, left: Mem): Pipe {
    var t := s.(serving := None);
    if s.serving.Some? && s.serving.value.TaskItem? && s.serving.value.buffer.Slab?
    then t.(pool := Released(s.pool, Slab(s.serving.value.buffer.id, left)))
    else t
  }

  /** The item a Dequeue of the writer's queue gives. */
  function WriterHead(s: Pipe): Option<Item> {
    Dequeue(s.writer).1
  }

  predicate WriterMay(s: Pipe, chunk: seq<byte>, took: Option<nat>) {
    match WriterHead(s)
    case Some(EventItem(OutboundData, p)) => Known(s, p) ==> MaySend(s.members[p.conn].conn, chunk, took)
    case _ => true
  }

  /** One round of the loop in _WriterRun, but for the event that is put back. */
  function WriterTurn(s: Pipe, chunk: seq<byte>, took: Option<nat>): Pipe
    requires WriterMay(s, chunk, took)
  {
    var (q, r) := Dequeue(s.writer);
    var t := s.(writer := q);
    match r
    case Some(EventItem(OutboundData, p)) =>
      if !Known(s, p) then t
      else
        var c := p.conn;
        var (conn, e, again) := WriteOutput(s.members[c].conn, chunk, took, Open(s));
        Spread(t.(resend := if again then Some(c) else None), c, (conn, e))
    case Some(EventItem(Close, p)) =>
      if !Known(s, p) then t
      else WithConn(t.(writer := RemoveAll(q, IsEvent(p.conn)).0), p.conn, Vote(s.members[p.conn].conn, Writer))
    case _ => t
  }

  /** The rest of a writer's round that did not send everything. */
  function BackPut(s: Pipe): Pipe
    requires s.resend.Some?
  {
    s.(resend := None, writer := Enqueue(s.writer, EventOf(s.resend.value, OutboundData)).0)
  }

  /** ConnectionFactoryCreate for a new descriptor. */
  function Accepting(s: Pipe, c: nat): Pipe {
    s.(members := s.members[c := Member(NewConnection(s.size), 0)])
  }

  /** ReaderEnd, WorkerEnd or WriterEnd: EnqueueExitItem. */
  function Exiting(s: Pipe, which: Which): Pipe {
    match which
    case ReaderQueue => s.(reader := Enqueue(s.reader, ExitItem).0)
    case WorkerQueue => s.(worker := Enqueue(s.worker, ExitItem).0)
    case WriterQueue => s.(writer := Enqueue(s.writer, ExitItem).0)
  }

  datatype Move =
    | Accept(c: nat)                               // a connection with a new descriptor
    | Of(c: nat, act: Act)                         // Manage, Arrive, WantWrite or WantClose
    | ReaderMove
    | WorkerMove
    | WorkerEnds(left: Mem)
    | WriterMove(chunk: seq<byte>, took: Option<nat>)
    | WriterBack
    | ExitOf(which: Which)

  predicate Possible(s: Pipe, m: Move) {
    match m
    case Accept(c) => c !in s.members
    case Of(c, Manage) => c in s.members && s.members[c].progress < 10
    case Of(c, Arrive(input, _)) => c in s.members && c in s.registry && MayReceive(s.members[c].conn, input)
    case Of(c, WantWrite) => c in s.members
    case Of(c, WantClose(_)) => c in s.members
    case Of(_, _) => false
    case WorkerMove => s.serving.None?
    case WorkerEnds(left) => s.serving.Some? && left.size == s.size
    case WriterMove(chunk, took) => s.resend.None? && WriterMay(s, chunk, took)
    case WriterBack => s.resend.Some?
    case _ => true
  }

  function Taken(s: Pipe, m: Move): Pipe
    requires Possible(s, m)
  {
    match m
    case Accept(c) => Accepting(s, c)
    case Of(c, Manage) => Manages(s, c)
    case Of(c, Arrive(input, _)) => Spread(s, c, ReadInput(s.members[c].conn, input, Open(s)))
    case Of(c, WantWrite) => Spread(s, c, Interest(s.members[c].conn, Open(s)))
    case Of(c, WantClose(force)) => Spread(s, c, CloseConnection(s.members[c].conn, force, Open(s)))
    case Of(_, _) => s
    case ReaderMove => ReaderTurn(s)
    case WorkerMove => WorkerTurn(s)
    case WorkerEnds(left) => WorkerDone(s, left)
    case WriterMove(chunk, took) => WriterTurn(s, chunk, took)
    case WriterBack => BackPut(s)
    case ExitOf(which) => Exiting(s, which)
  }

  /** A new pipe; its pool holds the first batch. */
  function NewPipe(size: nat): Pipe {
    Pipe(size, map[], NewQState(), NewQState(), NewQState(), NewQState(),
         PoolModel.AddBatch(NewQState(), Slabs(0, PoolModel.BATCH_SIZE, size)), PoolModel.BATCH_SIZE,
         None, None, map[], 0)
  }

  predicate Legal(s: Pipe, moves: seq<Move>)
    decreases |moves|
  {
    moves == [] || (Possible(s, moves[0]) && Legal(Taken(s, moves[0]), moves[1..]))
  }

  function After(s: Pipe, moves: seq<Move>): Pipe
    requires Legal(s, moves)
    decreases |moves|
  {
    if moves == [] then s else After(Taken(s, moves[0]), moves[1..])
  }

  // ---------------------------------------------------------------- one connection's part

  predicate Names(item: Item, c: nat) {
    match item
    case EventItem(_, p) => p == Link(c)
    case DataItem(p) => p == Link(c)
    case TaskItem(_, p, _) => p == Link(c)
    case _ => false
  }

  /** The items about a connection, in order. */
  function About(items: seq<Item>, c: nat): seq<Item> {
    if items == [] then [] else (if Names(items[0], c) then [items[0]] else []) + About(items[1..], c)
  }

  function View(s: Pipe, c: nat): Life
    requires c in s.members
  {
    var m := s.members[c];
    Life(c, s.size, m.conn, m.progress, About(s.acceptor.items, c), About(s.reader.items, c),
         About(s.worker.items, c), About(s.writer.items, c),
         s.serving.Some? && Names(s.serving.value, c), s.resend == Some(c), if m.conn.readKey then 1 else 0, Open(s))
  }
}
