/** One connection in its pipe: the connection, how far its hand-over got, and the items about it
    on the four queues. The steps are those of the managing thread, the reader, the worker, the
    writer and the user, in any order; Refinement.dfy proves that each connection of a pipe with many
    connections takes exactly these steps. */
module Lives {
  import opened EventModel
  import opened QueueModel
  import opened Connections
  import B = BufferModel

  /** What the pointers of a queue item point to. */
  datatype Ptr = Link(conn: nat) | Slab(id: nat, mem: Mem)

  type Item = QueueItem<Ptr>

  datatype Life = Life(
    self: nat,
    size: nat,          // the capacity of every buffer
    conn: Conn,
    progress: nat,      // how far the hand-over got
    acceptor: seq<Item>,
    reader: seq<Item>,
    worker: seq<Item>,
    writer: seq<Item>,
    serving: bool,      // the worker holds a task of this connection
    resend: bool,       // the writer is about to put the connection's OUTBOUND event back
    load: int,          // what this connection adds to the reader's load
    accepts: Accepts)

  function DataOf(self: nat): Item {
    DataItem(Link(self))
  }

  function EventOf(self: nat, event: Event): Item {
    EventItem(event, Link(self))
  }

  function EventsOf(self: nat, events: seq<Event>): (r: seq<Item>)
    ensures |r| == |events|
    ensures |events| == 0 ==> r == []
    ensures |events| == 1 ==> r == [EventOf(self, events[0])]
  {
    seq(|events|, i requires 0 <= i < |events| => EventOf(self, events[i]))
  }

  /** _AcceptorRemoveCallback. */
  function IsData(self: nat): Item -> bool {
    (item: Item) => item.DataItem? && item.data == Link(self)
  }

  /** _removeCallback of the worker. */
  function IsTask(self: nat): Item -> bool {
    (item: Item) => item.TaskItem? && item.connection == Link(self)
  }

  /** _WriterRemove. */
  function IsEvent(self: nat): Item -> bool {
    (item: Item) => item.EventItem? && item.source == Link(self)
  }

  /** The task of _WorkerReadHandler, if there is one and the worker's queue takes it. */
  function Tasks(self: nat, copy: Option<Mem>, id: nat, accepts: Accepts): seq<Item> {
    if copy.Some? && accepts.worker then [TaskItem(Read, Link(self), Slab(id, copy.value))] else []
  }

  /** A reaction of the connection and what its handlers do to the queues; `id` is the pool buffer
      that a task would get. */
  function Carry(l: Life, r: (Conn, Effect), id: nat): Life {
    l.(conn := r.0,
       acceptor := if r.1.purged then Without(l.acceptor, IsData(l.self)) else l.acceptor,
       reader := l.reader + EventsOf(l.self, r.1.reader),
       worker := l.worker + Tasks(l.self, r.1.copy, id, l.accepts) + EventsOf(l.self, r.1.worker),
       writer := l.writer + EventsOf(l.self, r.1.writer))
  }

  datatype Which = ReaderQueue | WorkerQueue | WriterQueue

  /** What a queue accepts after an EXIT: nothing. */
  function Shut(accepts: Accepts, which: Which): Accepts {
    match which
    case ReaderQueue => accepts.(reader := false)
    case WorkerQueue => accepts.(worker := false)
    case WriterQueue => accepts.(writer := false)
  }

  datatype Act =
    | Manage                                     // the next step of the hand-over
    | TakeReader                                 // the reader handles the next item
    | Arrive(input: Input, id: nat)              // the reader reads from the socket
    | TakeWorker                                 // the worker takes the next item
    | Finish                                     // the worker is done with its task
    | TakeWriter(chunk: seq<byte>, took: Option<nat>) // the writer handles the next item
    | PutBack                                    // the writer puts the event back
    | WantWrite                                  // EnableWriteInterest
    | WantClose(force: bool)                     // ConnectionClose
    | Exit(which: Which)                         // an EXIT is put on a queue

  predicate Enabled(l: Life, a: Act) {
    match a
    case Manage => l.progress < 10
    case TakeReader => l.reader != []
    case Arrive(input, _) => l.conn.readKey && MayReceive(l.conn, input)
    case TakeWorker => l.worker != [] && !l.serving
    case Finish => l.serving
    case TakeWriter(chunk, took) =>
      l.writer != [] && !l.resend && (l.writer[0] == EventOf(l.self, OutboundData) ==> MaySend(l.conn, chunk, took))
    case PutBack => l.resend
    case _ => true
  }

  /** What the managing thread does to the connection after both of its DATA items are queued: the
      rest of ReaderManageConnection, then WorkerManageConnection and WriterManageConnection. */
  function HandOver(c: Conn, progress: nat, accepts: Accepts): (Conn, Effect) {
    match progress
    case 2 => (AddHandler(c, Once(PendingClose, ReaderEvent)), NOTHING)
    case 3 => (AddHandler(c, Once(Close, ReaderEvent)), NOTHING)
    case 4 => (AddHandler(c, Always(InboundData, WorkerRead)), NOTHING)
    case 5 => (AddHandler(c, Once(Close, WorkerClose)), NOTHING)
    case 6 => ManagedBy(c, Worker, accepts)
    case 7 => (AddHandler(c, Always(OutboundData, WriterEvent)), NOTHING)
    case 8 => (AddHandler(c, Once(Close, WriterEvent)), NOTHING)
    case 9 => ManagedBy(c, Writer, accepts)
    case _ => (c, NOTHING)
  }

  /** One step of the hand-over, from EnqueueDataItem(acceptor->queue) on. */
  function Managed(l: Life): Life
    requires l.progress < 10
  {
    var next := l.(progress := l.progress + 1);
    if l.progress == 0 then next.(acceptor := l.acceptor + [DataOf(l.self)])
    else if l.progress == 1 then
      if l.accepts.reader then next.(reader := l.reader + [DataOf(l.self)]) else l.(progress := 11)
    else Carry(next, HandOver(l.conn, l.progress, l.accepts), 0)
  }

  /** One round of the loop in _ReaderRun. */
  function ReaderTook(l: Life): Life
    requires l.reader != []
  {
    var item, rest := l.reader[0], l.(reader := l.reader[1..]);
    match item
    case DataItem(_) =>
      Carry(rest.(load := l.load + 1), ManagedBy(l.conn.(readKey := true), Reader, l.accepts), 0)
    case EventItem(Close, _) =>
      rest.(load := l.load - 1, conn := Vote(l.conn.(readKey := false), Reader))
    case _ => rest
  }

  /** One round of the loop in _WorkerRun, up to the end of the READ dispatch. */
  function WorkerTook(l: Life): Life
    requires l.worker != []
  {
    var item, rest := l.worker[0], l.worker[1..];
    match item
    case TaskItem(_, _, buffer) =>
      l.(worker := rest, serving := true,
         conn := if buffer.Slab?
           then l.conn.(log := l.conn.log.(delivered := l.conn.log.delivered + B.Content(buffer.mem))) else l.conn)
    case EventItem(_, _) =>
      var kept := Without(rest, IsTask(l.self));
      l.(worker := kept,
         conn := Vote(l.conn.(log := l.conn.log.(dropped := l.conn.log.dropped || |kept| < |rest|)), Worker))
    case _ => l.(worker := rest)
  }

  /** One round of the loop in _WriterRun, but for the event that is put back. */
  function WriterTook(l: Life, chunk: seq<byte>, took: Option<nat>): Life
    requires Enabled(l, TakeWriter(chunk, took))
  {
    var item, rest := l.writer[0], l.writer[1..];
    match item
    case EventItem(OutboundData, _) =>
      if item != EventOf(l.self, OutboundData) then l.(writer := rest)
      else
        var (c, e, again) := WriteOutput(l.conn, chunk, took, l.accepts);
        Carry(l.(writer := rest, resend := again), (c, e), 0)
    case EventItem(Close, _) =>
      l.(writer := Without(rest, IsEvent(l.self)), conn := Vote(l.conn, Writer))
    case _ => l.(writer := rest)
  }

  function Next(l: Life, a: Act): Life
    requires Enabled(l, a)
  {
    match a
    case Manage => Managed(l)
    case TakeReader => ReaderTook(l)
    case Arrive(input, id) => Carry(l, ReadInput(l.conn, input, l.accepts), id)
    case TakeWorker => WorkerTook(l)
    case Finish => l.(serving := false)
    case TakeWriter(chunk, took) => WriterTook(l, chunk, took)
    case PutBack =>
      l.(resend := false, writer := l.writer + if l.accepts.writer then [EventOf(l.self, OutboundData)] else [])
    case WantWrite => Carry(l, Interest(l.conn, l.accepts), 0)
    case WantClose(force) => Carry(l, CloseConnection(l.conn, force, l.accepts), 0)
    case Exit(which) => l.(accepts := Shut(l.accepts, which))
  }

  /** A connection just accepted. */
  function Born(self: nat, size: nat, accepts: Accepts): Life {
    Life(self, size, NewConnection(size), 0, [], [], [], [], false, false, 0, accepts)
  }
}
