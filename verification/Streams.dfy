/** What flows through a connection: the bytes it received, and its write interests. */
module Streams {
  import opened EventModel
  import opened QueueModel
  import opened Connections
  import opened Lives
  import opened Reactions
  import opened Invariants
  import opened Closing
  import B = BufferModel

  // ---------------------------------------------------------------- inbound

  function Content(item: Item): seq<byte> {
    if item.TaskItem? && item.buffer.Slab? then B.Content(item.buffer.mem) else []
  }

  /** The bytes in the tasks, in order. */
  function Contents(items: seq<Item>): seq<byte> {
    if items == [] then [] else Content(items[0]) + Contents(items[1..])
  }

  /** What the READ handler was given, followed by what the queued tasks hold, is what was received.
      Tasks are given up only when the worker's queue refuses them or the connection is closed; then
      what is left is the beginning. */
  ghost predicate Inbound(l: Life) {
    var log := l.conn.log;
    && (!log.dropped ==> log.delivered + Contents(l.worker) == log.received)
    && (!log.rash ==> log.delivered + Contents(l.worker) <= log.received)
    && (!log.rash && log.dropped ==> !l.accepts.worker || log.closed)
  }

  ghost predicate SameInbound(l: Life, m: Life) {
    var c, d := l.conn.log, m.conn.log;
    && d.received == c.received && d.delivered == c.delivered && d.dropped == c.dropped
    && (c.rash ==> d.rash) && (c.closed ==> d.closed) && (m.accepts.worker ==> l.accepts.worker)
    && Contents(m.worker) == Contents(l.worker)
  }

  lemma InboundKept(l: Life, m: Life)
    requires Inbound(l) && SameInbound(l, m)
    ensures Inbound(m)
  {
  }

  lemma Associates(a: seq<byte>, b: seq<byte>, c: seq<byte>)
    ensures (a + b) + c == a + (b + c)
    ensures a + [] == a <= a + b
  {
  }

  lemma {:induction false} ContentsAppend(a: seq<Item>, b: seq<Item>)
    ensures Contents(a + b) == Contents(a) + Contents(b)
  {
    hide Content;
    if a == [] {
      assert a + b == b;
    } else {
      ContentsAppend(a[1..], b);
      assert (a + b)[1..] == a[1..] + b;
      Associates(Content(a[0]), Contents(a[1..]), Contents(b));
    }
  }

  lemma ContentsOne(item: Item)
    ensures Contents([item]) == Content(item)
  {
    hide Content;
    assert [item][1..] == [];
    assert Content(item) + [] == Content(item);
  }

  lemma InboundCloses(l: Life, force: bool, id: nat)
    requires Base(l) && Inbound(l)
    ensures Inbound(Carry(l, CloseConnection(l.conn, force, l.accepts), id))
  {
    hide Shape, VotesOk, EnterState, Carry, Voters, Contents, Content, Inbound;
    ContentsAppend(l.worker, [EventOf(l.self, Close)]);
    ContentsOne(EventOf(l.self, Close));
    assert Content(EventOf(l.self, Close)) == [] by {
      EventHoldsNothing(l.self, Close);
    }
    if l.conn.state == (if force then StateClosed else StatePendingClose) {
      AlreadyClosing(l, force, id);
    } else if force {
      ClosedReaction(l, id);
      assert l.worker + [] == l.worker && Contents(l.worker) + [] == Contents(l.worker);
      InboundKept(l, Carry(l, CloseConnection(l.conn, force, l.accepts), id));
    } else {
      PendingReaction(l, id);
      InboundKept(l, Carry(l, CloseConnection(l.conn, force, l.accepts), id));
    }
  }

  lemma EventHoldsNothing(self: nat, event: Event)
    ensures Content(EventOf(self, event)) == []
  {
  }

  lemma InboundArrives(l: Life, bytes: seq<byte>, id: nat)
    requires Base(l) && Buffers(l) && Course(l) && Inbound(l) && l.conn.canRead && 0 < |bytes| <= Room(l.conn.readBuffer)
    ensures Inbound(Carry(l, ReadInput(l.conn, Bytes(bytes), l.accepts), id))
  {
    hide Shape, VotesOk, Carry, ReadInput, Emit, Received, Cleared, CopyOf, Flipped, B.Sound, B.Content, Contents,
      Room, Buffers;
    InputReaction(l, bytes, id);
    var m := Carry(l, ReadInput(l.conn, Bytes(bytes), l.accepts), id);
    if l.accepts.worker {
      var item := m.worker[|l.worker|];
      assert m.worker == l.worker + [item];
      ContentsAppend(l.worker, [item]);
      ContentsOne(item);
      assert Content(item) == bytes;
      assert (l.conn.log.delivered + Contents(l.worker)) + bytes == l.conn.log.delivered + Contents(m.worker);
    } else {
      assert m.worker == l.worker;
    }
  }

  lemma ContentsFirst(items: seq<Item>)
    requires items != []
    ensures Contents(items) == Content(items[0]) + Contents(items[1..])
  {
  }

  lemma InboundTookTask(l: Life)
    requires Forms(l) && Inbound(l) && l.worker != [] && l.worker[0] != EventOf(l.self, Close)
    ensures Inbound(WorkerTook(l))
  {
    hide WorkerTook, ReaderForm, WriterForm, AcceptorForm, Buffers, Contents, B.Content, B.Sound;
    ContentsFirst(l.worker);
    Associates(l.conn.log.delivered, Content(l.worker[0]), Contents(l.worker[1..]));
    TookTask(l);
  }

  lemma InboundTookClose(l: Life)
    requires Base(l) && Forms(l) && Course(l) && Inbound(l) && l.worker != [] && l.worker[0] == EventOf(l.self, Close)
    ensures Inbound(WorkerTook(l))
  {
    hide WorkerTook, Base, Forms, Course, Content, B.Content, B.Sound;
    PartsOf(l);
    TookWorkerClose(l);
    ClosedBefore(l);
    ContentsFirst(l.worker);
    EventHoldsNothing(l.self, Close);
    Associates(l.conn.log.delivered, Contents(l.worker), []);
    AloneInQueue(l.worker);
  }

  lemma AloneInQueue(items: seq<Item>)
    ensures |items| == 1 ==> items[1..] == []
  {
  }

  lemma InboundTakeWorker(l: Life)
    requires Base(l) && Forms(l) && Course(l) && Inbound(l) && l.worker != []
    ensures Inbound(WorkerTook(l))
  {
    hide WorkerTook, Base, Forms, Course, Inbound;
    if l.worker[0] == EventOf(l.self, Close) {
      InboundTookClose(l);
    } else {
      InboundTookTask(l);
    }
  }

  lemma ClosedBefore(l: Life)
    requires Base(l) && Course(l)
    ensures (Close, WorkerClose) in l.conn.log.called ==> l.conn.log.closed
  {
    hide Shape;
  }

  // ---------------------------------------------------------------- write interests

  function Waiting(l: Life): nat {
    multiset(l.writer)[EventOf(l.self, OutboundData)] + if l.resend then 1 else 0
  }

  /** Until CLOSED or an EXIT on the writer's queue, each accepted interest is either waiting or was
      answered by one dispatch of WRITE; the one being sent is both. */
  ghost predicate Interests(l: Life) {
    var left := B.HasRemaining(l.conn.writeBuffer);
    !l.conn.log.closed && l.accepts.writer ==>
      && l.conn.log.interests + (if left then 1 else 0) == Waiting(l) + l.conn.log.writes
      && (left ==> Waiting(l) > 0)
      && (l.resend ==> left)
  }

  ghost predicate SameInterests(l: Life, m: Life) {
    && (l.conn.log.closed ==> m.conn.log.closed) && (m.accepts.writer ==> l.accepts.writer)
    && m.conn.log.interests == l.conn.log.interests && m.conn.log.writes == l.conn.log.writes
    && m.conn.writeBuffer == l.conn.writeBuffer && Waiting(m) == Waiting(l) && (m.resend ==> l.resend)
  }

  lemma InterestsKept(l: Life, m: Life)
    requires Interests(l) && SameInterests(l, m)
    ensures Interests(m)
  {
  }

  lemma InterestsCloses(l: Life, force: bool, id: nat)
    requires Base(l) && (force || Interests(l))
    ensures Interests(Carry(l, CloseConnection(l.conn, force, l.accepts), id))
  {
    hide Shape, VotesOk, EnterState, Carry, Voters, B.Sound;
    if l.conn.state == (if force then StateClosed else StatePendingClose) {
      AlreadyClosing(l, force, id);
    } else if force {
      ClosedReaction(l, id);
    } else {
      PendingReaction(l, id);
    }
  }

  lemma InterestsWanted(l: Life)
    requires Base(l) && Interests(l)
    ensures Interests(Carry(l, Interest(l.conn, l.accepts), 0))
  {
    hide Base, Carry, Interest, B.Sound;
    BaseIs(l);
    if l.conn.canWrite {
      InterestReaction(l, 0);
    } else {
      InterestLost(l, 0);
    }
  }

  lemma BaseIs(l: Life)
    requires Base(l)
    ensures Shape(l.conn, l.progress)
  {
  }

  lemma InterestsTakeWriter(l: Life, chunk: seq<byte>, took: Option<nat>)
    requires Base(l) && Forms(l) && Course(l) && Interests(l) && Enabled(l, TakeWriter(chunk, took))
    ensures Interests(WriterTook(l, chunk, took))
  {
    hide Base, Forms, WriterTook, MaySend, Interests, Course;
    if l.writer[0] != EventOf(l.self, OutboundData) {
      InterestsWriterClose(l, chunk, took);
    } else if l.conn.canWrite && took.Some? {
      InterestsSent(l, chunk, took.value);
    } else {
      InterestsGivesUp(l, chunk, took);
    }
  }

  lemma InterestsSent(l: Life, chunk: seq<byte>, sent: nat)
    requires Forms(l) && Interests(l) && Enabled(l, TakeWriter(chunk, Some(sent)))
    requires l.conn.canWrite && l.writer[0] == EventOf(l.self, OutboundData)
    ensures Interests(WriterTook(l, chunk, Some(sent)))
  {
    hide Forms, WriterTook, Refill, B.Content, B.Sound;
    BuffersOf(l);
    Popped(l.writer, EventOf(l.self, OutboundData));
    WriterSent(l, chunk, sent);
  }

  lemma InterestsGivesUp(l: Life, chunk: seq<byte>, took: Option<nat>)
    requires Base(l) && Forms(l) && Enabled(l, TakeWriter(chunk, took))
    requires !(l.conn.canWrite && took.Some?) && l.writer[0] == EventOf(l.self, OutboundData)
    ensures Interests(WriterTook(l, chunk, took))
  {
    hide Base, Forms, WriterTook, Refill, CloseConnection, Carry, GivingUp, Interests, B.Content, B.Sound;
    BuffersOf(l);
    TookOutbound(l, chunk, took);
    BaseGivingUp(l, chunk);
    GivingUpIs(l, chunk);
    InterestsCloses(GivingUp(l, chunk), true, 0);
  }

  lemma InterestsWriterClose(l: Life, chunk: seq<byte>, took: Option<nat>)
    requires Base(l) && Forms(l) && Course(l) && Enabled(l, TakeWriter(chunk, took))
    requires l.writer[0] != EventOf(l.self, OutboundData)
    ensures Interests(WriterTook(l, chunk, took))
  {
    hide Shape, Flags, Managers, Timely, WriterTook, ReaderForm, WorkerForm, AcceptorForm, Buffers, B.Sound;
    TookWriterClose(l, chunk, took);
  }

  // ---------------------------------------------------------------- both, over every step

  lemma StreamsManage(l: Life)
    requires Base(l) && Inbound(l) && Interests(l) && l.progress < 10
    ensures Inbound(Managed(l)) && Interests(Managed(l))
  {
    hide Base, Managed, Inbound, Interests, Contents, B.Sound;
    if InstallStep(l.progress) {
      InstallIs(l);
    } else if l.progress < 2 {
      QueuedIs(l);
    } else {
      ManagedIs(l);
    }
    InboundKept(l, Managed(l));
    InterestsKept(l, Managed(l));
  }

  lemma StreamsTakeReader(l: Life)
    requires Base(l) && Forms(l) && Inbound(l) && Interests(l) && l.reader != []
    ensures Inbound(ReaderTook(l)) && Interests(ReaderTook(l))
  {
    hide ReaderTook, Base, Forms, Inbound, Interests, Contents, B.Sound;
    if l.reader[0] == DataOf(l.self) {
      TookData(l);
    } else {
      TookEvent(l);
    }
    InboundKept(l, ReaderTook(l));
    InterestsKept(l, ReaderTook(l));
  }

  lemma StreamsArrive(l: Life, input: Input, id: nat)
    requires Base(l) && Forms(l) && Course(l) && Inbound(l) && Interests(l) && Enabled(l, Arrive(input, id))
    ensures Inbound(Next(l, Arrive(input, id))) && Interests(Next(l, Arrive(input, id)))
  {
    hide Base, Forms, Course, Inbound, Interests, Carry, ReadInput, CloseConnection, Contents, B.Sound, B.Content;
    BuffersOf(l);
    if !B.HasRemaining(l.conn.readBuffer) || !input.Bytes? {
      assert ReadInput(l.conn, input, l.accepts) == CloseConnection(l.conn, true, l.accepts) by {
        NoInputCloses(l.conn, input, l.accepts);
      }
      InboundCloses(l, true, id);
      InterestsCloses(l, true, id);
    } else if l.conn.canRead {
      InputReaction(l, input.bytes, id);
      InboundArrives(l, input.bytes, id);
      InterestsKept(l, Next(l, Arrive(input, id)));
    } else {
      IgnoredReaction(l, input.bytes, id);
      InboundKept(l, Next(l, Arrive(input, id)));
      InterestsKept(l, Next(l, Arrive(input, id)));
    }
  }

  lemma NoInputCloses(c: Conn, input: Input, accepts: Accepts)
    requires MayReceive(c, input) && (!B.HasRemaining(c.readBuffer) || !input.Bytes?)
    ensures ReadInput(c, input, accepts) == CloseConnection(c, true, accepts)
  {
  }

  lemma InterestsTakeWorker(l: Life)
    requires Base(l) && Forms(l) && Interests(l) && l.worker != []
    ensures Interests(WorkerTook(l))
  {
    hide WorkerTook, Base, Forms, Interests, B.Sound, B.Content;
    PartsOf(l);
    if l.worker[0] == EventOf(l.self, Close) {
      TookWorkerClose(l);
    } else {
      TookTask(l);
    }
    InterestsKept(l, WorkerTook(l));
  }

  lemma StreamsTakeWorker(l: Life)
    requires Base(l) && Forms(l) && Course(l) && Inbound(l) && Interests(l) && l.worker != []
    ensures Inbound(WorkerTook(l)) && Interests(WorkerTook(l))
  {
    hide WorkerTook, Base, Forms, Course, Inbound, Interests;
    InboundTakeWorker(l);
    InterestsTakeWorker(l);
  }

  lemma InboundTakeWriter(l: Life, chunk: seq<byte>, took: Option<nat>)
    requires Base(l) && Forms(l) && Inbound(l) && Enabled(l, TakeWriter(chunk, took))
    ensures Inbound(WriterTook(l, chunk, took))
  {
    hide Base, Forms, WriterTook, Refill, CloseConnection, Carry, GivingUp, Inbound, Contents, B.Content, B.Sound;
    BuffersOf(l);
    if l.writer[0] != EventOf(l.self, OutboundData) {
      TookWriterClose(l, chunk, took);
      InboundKept(l, WriterTook(l, chunk, took));
    } else if l.conn.canWrite && took.Some? {
      WriterSent(l, chunk, took.value);
      InboundKept(l, WriterTook(l, chunk, took));
    } else {
      InboundGivesUp(l, chunk, took);
    }
  }

  lemma InboundGivesUp(l: Life, chunk: seq<byte>, took: Option<nat>)
    requires Base(l) && Forms(l) && Inbound(l) && Enabled(l, TakeWriter(chunk, took))
    requires !(l.conn.canWrite && took.Some?) && l.writer[0] == EventOf(l.self, OutboundData)
    ensures Inbound(WriterTook(l, chunk, took))
  {
    hide Base, Forms, WriterTook, Refill, CloseConnection, Carry, GivingUp, Inbound, Contents, B.Content, B.Sound;
    BuffersOf(l);
    TookOutbound(l, chunk, took);
    BaseGivingUp(l, chunk);
    GivingUpIs(l, chunk);
    InboundKept(l, GivingUp(l, chunk));
    InboundCloses(GivingUp(l, chunk), true, 0);
  }

  lemma StreamsInterest(l: Life)
    requires Base(l) && Inbound(l) && Interests(l)
    ensures Inbound(Carry(l, Interest(l.conn, l.accepts), 0)) && Interests(Carry(l, Interest(l.conn, l.accepts), 0))
  {
    hide Base, Carry, Interest, Inbound, Interests, Contents, B.Sound;
    InterestsWanted(l);
    BaseIs(l);
    if l.conn.canWrite {
      InterestReaction(l, 0);
      InboundKept(l, Carry(l, Interest(l.conn, l.accepts), 0));
    } else {
      InterestLost(l, 0);
    }
  }

  lemma StreamsRest(l: Life, m: Life)
    requires Inbound(l) && Interests(l) && m.conn == l.conn && m.self == l.self && m.worker == l.worker
    requires (m.accepts.worker ==> l.accepts.worker) && (m.accepts.writer ==> l.accepts.writer)
    requires m.accepts.writer ==> Waiting(m) == Waiting(l) && (m.resend ==> l.resend)
    ensures Inbound(m) && Interests(m)
  {
  }

  /** Every step keeps the account of the bytes received and of the write interests. */
  lemma StreamsKeeps(l: Life, a: Act)
    requires Base(l) && Forms(l) && Course(l) && Inbound(l) && Interests(l) && Enabled(l, a)
    ensures Inbound(Next(l, a)) && Interests(Next(l, a))
  {
    hide Base, Forms, Course, Inbound, Interests, Carry, Managed, ReaderTook, WorkerTook, WriterTook, ReadInput,
      CloseConnection, Interest;
    match a
    case Manage => StreamsManage(l);
    case TakeReader => StreamsTakeReader(l);
    case Arrive(input, id) => StreamsArrive(l, input, id);
    case TakeWorker => StreamsTakeWorker(l);
    case TakeWriter(chunk, took) =>
      InboundTakeWriter(l, chunk, took);
      InterestsTakeWriter(l, chunk, took);
    case WantWrite => StreamsInterest(l);
    case WantClose(force) =>
      InboundCloses(l, force, 0);
      InterestsCloses(l, force, 0);
    case _ => StreamsRest(l, Next(l, a));
  }

  // ---------------------------------------------------------------- everything together

  ghost predicate Good(l: Life) {
    Base(l) && Forms(l) && Course(l) && Tokens(l) && Inbound(l) && Interests(l)
  }

  lemma GoodBorn(self: nat, size: nat, accepts: Accepts)
    ensures Good(Born(self, size, accepts))
  {
    hide NewConnection, Base, B.Sound;
    BaseBorn(self, size, accepts);
    NewbornIs(size);
    var c := NewConnection(size);
    assert [] + B.Content(c.writeBuffer) == [];
  }

  lemma GoodKeeps(l: Life, a: Act)
    requires Good(l) && Enabled(l, a)
    ensures Good(Next(l, a))
  {
    hide Base, Forms, Course, Tokens, Inbound, Interests, Next;
    BaseKeeps(l, a);
    CourseKeeps(l, a);
    TokensKeeps(l, a);
    StreamsKeeps(l, a);
  }
}
