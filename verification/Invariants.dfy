/** What every step of a connection's life keeps. */
module Invariants {
  import opened EventModel
  import opened QueueModel
  import opened Connections
  import opened Lives
  import opened Reactions
  import B = BufferModel

  // ---------------------------------------------------------------- state, handlers, votes

  ghost predicate Flags(c: Conn) {
    && (c.state.StateInitialized? || c.state.StateConnected? || c.state.StatePendingClose? || c.state.StateClosed?)
    && (c.canRead <==> c.state == StateConnected)
    && (c.canWrite <==> c.state == StateConnected || c.state == StatePendingClose)
    && (c.state == StateConnected ==> c.log.connects == 1)
    && (c.state == StateClosed ==> c.log.closed)
  }

  /** Who manages the connection follows the hand-over; CONNECTED was entered, once, exactly if
      everyone does. */
  ghost predicate Managers(l: Life) {
    var m := l.conn.managedBy;
    && Acceptor in m && Client in m
    && (Worker in m <==> Between(l.progress, 7)) && (Writer in m <==> l.progress == 10)
    && (Reader in m ==> Between(l.progress, 2))
    && l.conn.log.connects == (if m == EVERYONE then 1 else 0)
  }

  /** A handler that was called had been installed. */
  ghost predicate Timely(l: Life) {
    var called, p := l.conn.log.called, l.progress;
    && ((PendingClose, ReaderEvent) in called ==> Between(p, 3))
    && ((Close, ReaderEvent) in called ==> Between(p, 4))
    && ((Close, WorkerClose) in called ==> Between(p, 6))
    && ((Close, WriterEvent) in called ==> Between(p, 9))
  }

  ghost predicate Base(l: Life) {
    && l.progress <= 11 && Shape(l.conn, l.progress) && VotesOk(l.conn)
    && Flags(l.conn) && Managers(l) && Timely(l)
  }

  predicate InstallStep(progress: nat) {
    2 <= progress <= 5 || progress == 7 || progress == 8
  }

  /** The handler that a step of the hand-over installs. */
  function NextHook(progress: nat): Hook
    requires InstallStep(progress)
  {
    match progress
    case 2 => Once(PendingClose, ReaderEvent)
    case 3 => Once(Close, ReaderEvent)
    case 4 => Always(InboundData, WorkerRead)
    case 5 => Once(Close, WorkerClose)
    case 7 => Always(OutboundData, WriterEvent)
    case _ => Once(Close, WriterEvent)
  }

  lemma ExpectedGrows(progress: nat, called: set<(Event, Callback)>, event: Event)
    requires InstallStep(progress)
    requires (Close, WriterEvent) in called ==> Between(progress, 9)
    requires (Close, WorkerClose) in called ==> Between(progress, 6)
    requires (Close, ReaderEvent) in called ==> Between(progress, 4)
    requires (PendingClose, ReaderEvent) in called ==> Between(progress, 3)
    ensures var h := NextHook(progress);
      Expected(progress + 1, called, event) == Expected(progress, called, event) + if event == h.event then [h] else []
  {
    var before := Expected(progress, called, event);
    assert before + [] == before;
  }

  /** The next handler of the hand-over goes to the end of its event's list. */
  lemma HookAdded(l: Life)
    requires Shape(l.conn, l.progress) && Timely(l) && InstallStep(l.progress)
    ensures Shape(AddHandler(l.conn, NextHook(l.progress)), l.progress + 1)
  {
    hide Expected, NextHook;
    var c, hook := l.conn, NextHook(l.progress);
    var d := AddHandler(c, hook);
    forall e: Event
      ensures HandlersOf(d, e) == Expected(l.progress + 1, d.log.called, e)
    {
      ShapeAt(c, l.progress, e);
      ExpectedGrows(l.progress, c.log.called, e);
      assert e != hook.event ==> HandlersOf(d, e) == HandlersOf(c, e);
    }
  }

  lemma NewbornIs(size: nat)
    ensures var c := NewConnection(size);
      && Shape(c, 0)
      && c == Conn(StateInitialized, false, false, {Client}, {Acceptor, Client}, c.handlers,
                   B.NewBuf(size), B.SetLimit(B.NewBuf(size), 0).0, false,
                   Log(0, false, false, false, {}, [], [], 0, 0, [], [], 0, [], [], false))
  {
  }

  lemma BaseBorn(self: nat, size: nat, accepts: Accepts)
    ensures Base(Born(self, size, accepts))
  {
    hide NewConnection, Shape, B.Sound;
    NewbornIs(size);
    EveryoneIs(NewConnection(size).managedBy);
  }

  lemma InstallIs(l: Life)
    requires InstallStep(l.progress)
    ensures Managed(l) == l.(progress := l.progress + 1, conn := AddHandler(l.conn, NextHook(l.progress)))
  {
    hide Carry, AddHandler, ManagedBy;
    QuietReaction(l.(progress := l.progress + 1, conn := AddHandler(l.conn, NextHook(l.progress))), 0);
    CarryConn(l.(progress := l.progress + 1), HandOver(l.conn, l.progress, l.accepts));
  }

  /** A reaction replaces the connection, whatever it was. */
  lemma CarryConn(l: Life, r: (Conn, Effect))
    ensures Carry(l, r, 0) == Carry(l.(conn := r.0), r, 0)
  {
  }

  lemma BaseInstall(l: Life)
    requires Base(l) && InstallStep(l.progress)
    ensures Base(Managed(l))
  {
    hide Shape, VotesOk, Managed;
    InstallIs(l);
    HookAdded(l);
    SameVotes(l.conn, Managed(l).conn);
  }

  function NextManager(progress: nat): Owner {
    if progress == 6 then Worker else Writer
  }

  /** The two votes of the hand-over. */
  lemma ManagedIs(l: Life)
    requires Base(l) && (l.progress == 6 || l.progress == 9)
    ensures var m := Managed(l); var c, d := l.conn, m.conn;
      && m == l.(progress := l.progress + 1, conn := d) && Shape(d, m.progress)
      && c.log.connects == 0 && d.managedBy == c.managedBy + {NextManager(l.progress)}
      && d == if d.managedBy == EVERYONE
              then c.(managedBy := d.managedBy, state := StateConnected, canRead := true, canWrite := true,
                      handlers := d.handlers, log := c.log.(connects := c.log.connects + 1))
              else c.(managedBy := d.managedBy)
  {
    hide Shape, VotesOk, Carry, ManagedBy;
    EveryoneIs(l.conn.managedBy);
    ShapeMoves(l.conn, l.progress);
    ManagedReaction(l.(progress := l.progress + 1), NextManager(l.progress), 0);
  }

  lemma BaseManagedBy(l: Life)
    requires Base(l) && (l.progress == 6 || l.progress == 9)
    ensures Base(Managed(l))
  {
    hide Shape, VotesOk, Managed;
    ManagedIs(l);
    var m := Managed(l);
    EveryoneIs(l.conn.managedBy);
    EveryoneIs(m.conn.managedBy);
    SameVotes(l.conn, m.conn);
    assert Timely(m);
    assert Flags(m.conn);
    assert Managers(m);
  }

  lemma BaseManage(l: Life)
    requires Base(l) && l.progress < 10
    ensures Base(Managed(l))
  {
    hide Shape, VotesOk;
    EveryoneIs(l.conn.managedBy);
    if InstallStep(l.progress) {
      BaseInstall(l);
    } else if l.progress < 2 {
      ShapeMoves(l.conn, l.progress);
    } else {
      BaseManagedBy(l);
    }
  }

  /** The steps that install nothing. */
  lemma ShapeMoves(c: Conn, progress: nat)
    requires Shape(c, progress) && (progress == 0 || progress == 1 || progress == 6 || progress == 9)
    ensures Shape(c, progress + 1)
    ensures progress == 1 ==> Shape(c, 11)
  {
    forall e: Event
      ensures HandlersOf(c, e) == Expected(progress + 1, c.log.called, e)
      ensures progress == 1 ==> HandlersOf(c, e) == Expected(11, c.log.called, e)
    {
      ShapeAt(c, progress, e);
    }
  }

  // ---------------------------------------------------------------- the queues and the buffers

  /** The reader's queue: first the hand-over, if still there; then each close event once at most;
      CLOSE finds the read key registered. What the connection adds to the load is its key. */
  ghost predicate ReaderForm(l: Life) {
    var s, data, pending, close := l.reader, DataOf(l.self), EventOf(l.self, PendingClose), EventOf(l.self, Close);
    && (forall i :: 0 <= i < |s| ==> s[i] == data || s[i] == pending || s[i] == close)
    && (forall i :: 0 < i < |s| ==> s[i] != data)
    && (forall i, j :: 0 <= i < j < |s| ==> s[i] != s[j])
    && (data in s <==> Between(l.progress, 2) && Reader !in l.conn.managedBy)
    && (pending in s ==> (PendingClose, ReaderEvent) in l.conn.log.called)
    && (close in s ==> (Close, ReaderEvent) in l.conn.log.called && (data in s || l.conn.readKey))
    && (l.conn.readKey ==> Reader in l.conn.managedBy)
    && (Reader in l.conn.managedBy ==> l.conn.readKey || (Close, ReaderEvent) in l.conn.log.called)
    && l.load == (if l.conn.readKey then 1 else 0)
  }

  ghost predicate IsTaskFor(l: Life, item: Item) {
    item.TaskItem? && item.taskEvent == Read && item.connection == Link(l.self)
    && item.buffer.Slab? && item.buffer.mem.size == l.size
  }

  /** The worker's queue: tasks, and CLOSE once at most. */
  ghost predicate WorkerForm(l: Life) {
    var s, close := l.worker, EventOf(l.self, Close);
    && (forall i :: 0 <= i < |s| ==> s[i] == close || IsTaskFor(l, s[i]))
    && (forall i, j :: 0 <= i < j < |s| ==> s[i] != close || s[j] != close)
    && (close in s ==> (Close, WorkerClose) in l.conn.log.called)
  }

  /** The writer's queue: OUTBOUND events, and CLOSE once at most. */
  ghost predicate WriterForm(l: Life) {
    var s, close := l.writer, EventOf(l.self, Close);
    && (forall i :: 0 <= i < |s| ==> s[i] == close || s[i] == EventOf(l.self, OutboundData))
    && (forall i, j :: 0 <= i < j < |s| ==> s[i] != close || s[j] != close)
    && (close in s ==> (Close, WriterEvent) in l.conn.log.called)
  }

  /** The acceptor's queue: the connection's DATA item from the first step of the hand-over on, until the
      acceptor hears of CLOSE. */
  ghost predicate AcceptorForm(l: Life) {
    && (forall i :: 0 <= i < |l.acceptor| ==> l.acceptor[i] == DataOf(l.self))
    && (l.progress == 0 ==> l.acceptor == [])
    && (l.progress > 0 && (Close, AcceptorClose) !in l.conn.log.called ==> l.acceptor == [DataOf(l.self)])
  }

  /** The read buffer is empty with its full capacity between reads; what was sent and what is left
      to send is what the WRITE handler put. */
  ghost predicate Buffers(l: Life) {
    var r, w, log := l.conn.readBuffer, l.conn.writeBuffer, l.conn.log;
    && r.size == l.size && r.position == 0 && r.limit == l.size
    && w.size == l.size && w.position <= w.limit
    && log.sent + B.Content(w) == log.put
  }

  ghost predicate Forms(l: Life) {
    ReaderForm(l) && WorkerForm(l) && WriterForm(l) && AcceptorForm(l) && Buffers(l)
  }

  lemma Popped(s: seq<Item>, x: Item)
    requires s != []
    ensures x in s <==> x == s[0] || x in s[1..]
    ensures multiset(s)[x] == multiset(s[1..])[x] + if x == s[0] then 1 else 0
  {
    assert s == [s[0]] + s[1..];
  }

  lemma FirstIn(s: seq<Item>)
    ensures s != [] ==> s[0] in s
  {
  }

  lemma {:induction false} AllGone(s: seq<Item>, p: Item -> bool)
    requires forall i :: 0 <= i < |s| ==> p(s[i])
    ensures Without(s, p) == []
  {
    if s != [] {
      AllGone(s[1..], p);
    }
  }

  /** Entering CLOSED, whatever was done just before. */
  lemma BaseClosed(l: Life, id: nat)
    requires Base(l) && l.conn.state != StateClosed
    ensures Base(Carry(l, EnterState(l.conn, StateClosed, l.accepts), id))
  {
    hide Shape, VotesOk, EnterState, Carry, Voters, Without;
    ClosedReaction(l, id);
  }

  lemma FormsClosed(l: Life, id: nat)
    requires Base(l) && Forms(l) && l.conn.state != StateClosed
    ensures Forms(Carry(l, EnterState(l.conn, StateClosed, l.accepts), id))
  {
    hide Shape, VotesOk, EnterState, Carry, Voters, Flags, Without;
    AllGone(l.acceptor, IsData(l.self));
    ClosedReaction(l, id);
  }

  lemma BasePending(l: Life, id: nat)
    requires Base(l) && l.conn.state != StatePendingClose
    ensures Base(Carry(l, EnterState(l.conn, StatePendingClose, l.accepts), id))
  {
    hide Shape, VotesOk, EnterState, Carry, Voters, Without;
    PendingReaction(l, id);
  }

  lemma FormsPending(l: Life, id: nat)
    requires Base(l) && Forms(l) && l.conn.state != StatePendingClose
    ensures Forms(Carry(l, EnterState(l.conn, StatePendingClose, l.accepts), id))
  {
    hide Shape, VotesOk, EnterState, Carry, Voters, Flags, Without;
    PendingReaction(l, id);
  }

  /** ConnectionClose and _ConnectionHandleError. */
  lemma BaseCloses(l: Life, force: bool, id: nat)
    requires Base(l) && Forms(l)
    ensures var m := Carry(l, CloseConnection(l.conn, force, l.accepts), id); Base(m) && Forms(m)
  {
    hide Shape, VotesOk, Carry, Flags, Managers, Timely, ReaderForm, WorkerForm, WriterForm, AcceptorForm, Buffers;
    if l.conn.state == (if force then StateClosed else StatePendingClose) {
      QuietReaction(l, id);
    } else if force {
      BaseClosed(l, id);
      FormsClosed(l, id);
    } else {
      BasePending(l, id);
      FormsPending(l, id);
    }
  }

  /** What does not touch the writer's side. */
  lemma FrontKept(l: Life, m: Life)
    requires ReaderForm(l) && WorkerForm(l) && AcceptorForm(l)
    requires m.self == l.self && m.size == l.size && m.progress == l.progress && m.load == l.load
    requires m.acceptor == l.acceptor && m.reader == l.reader && m.worker == l.worker
    requires m.conn.managedBy == l.conn.managedBy && m.conn.readKey == l.conn.readKey
    requires forall x :: (x == (Close, AcceptorClose) || x == (Close, ReaderEvent)
                          || x == (PendingClose, ReaderEvent) || x == (Close, WorkerClose)) ==>
      (x in m.conn.log.called <==> x in l.conn.log.called)
    ensures ReaderForm(m) && WorkerForm(m) && AcceptorForm(m)
  {
  }

  lemma BaseInterest(l: Life)
    requires Base(l) && Forms(l)
    ensures Base(Next(l, WantWrite)) && Forms(Next(l, WantWrite))
  {
    hide Shape, VotesOk, Interest, Carry, ReaderForm, WorkerForm, AcceptorForm;
    if l.conn.canWrite {
      InterestReaction(l, 0);
      FrontKept(l, Next(l, WantWrite));
      VotesOther(l.conn, Next(l, WantWrite).conn, OutboundData, WriterEvent);
    } else {
      InterestLost(l, 0);
    }
  }

  lemma VotesOther(c: Conn, d: Conn, event: Event, callback: Callback)
    requires VotesOk(c) && event != Close && d.closedBy == c.closedBy
    requires d.log.votes == c.log.votes && d.log.frees == c.log.frees
    requires d.log.called == c.log.called || d.log.called == c.log.called + {(event, callback)}
    ensures VotesOk(d)
  {
  }

  /** Reading is allowed only once the hand-over is complete. */
  lemma ReadsLate(l: Life)
    requires Base(l) && l.conn.canRead
    ensures l.progress == 10 && l.conn.state == StateConnected && Shape(l.conn, l.progress)
  {
    hide Shape, VotesOk, Timely;
    EveryoneIs(l.conn.managedBy);
  }

  /** Input while reading is allowed becomes a task that holds just that. */
  lemma InputReaction(l: Life, bytes: seq<byte>, id: nat)
    requires Base(l) && Buffers(l) && l.conn.canRead && 0 < |bytes| <= Room(l.conn.readBuffer)
    ensures var m := Carry(l, ReadInput(l.conn, Bytes(bytes), l.accepts), id); var c, d := l.conn, m.conn;
      var copy := CopyOf(Flipped(Received(c.readBuffer, bytes)));
      && l.progress == 10 && Shape(d, l.progress)
      && d == c.(readBuffer := d.readBuffer, handlers := d.handlers,
                 log := c.log.(called := c.log.called + {(InboundData, WorkerRead)},
                               received := c.log.received + bytes, dropped := c.log.dropped || !l.accepts.worker))
      && d.readBuffer.size == c.readBuffer.size && d.readBuffer.position == 0 && d.readBuffer.limit == d.readBuffer.size
      && m == l.(conn := d, worker := l.worker + Tasks(l.self, Some(copy), id, l.accepts))
      && copy.size == l.size && B.Content(copy) == bytes
  {
    hide Base, Buffers, Shape, Carry, Emit, ReadInput, Tasks, Received, Cleared, CopyOf, Flipped, B.Sound, B.Content;
    ReadsLate(l);
    var b := AfterRecv(l.conn, bytes);
    RecvEmits(l, bytes, id);
    SameShape(l.conn, b, l.progress);
    RecvHolds(l, bytes);
    InboundReaction(l.(conn := b), id);
  }

  /** The connection when INBOUND_DATA is about to be dispatched. */
  function AfterRecv(c: Conn, bytes: seq<byte>): Conn
    requires |bytes| <= Room(c.readBuffer)
  {
    c.(readBuffer := Received(c.readBuffer, bytes), log := c.log.(received := c.log.received + bytes))
  }

  lemma RecvEmits(l: Life, bytes: seq<byte>, id: nat)
    requires l.conn.canRead && 0 < |bytes| <= Room(l.conn.readBuffer)
    ensures var b := AfterRecv(l.conn, bytes);
      Carry(l, ReadInput(l.conn, Bytes(bytes), l.accepts), id) == Carry(l.(conn := b), Emit(b, InboundData, l.accepts), id)
  {
    hide Emit, Received, Without, Tasks;
  }

  /** The copy holds what was received, and the cleared buffer is as before. */
  lemma RecvHolds(l: Life, bytes: seq<byte>)
    requires Buffers(l) && 0 < |bytes| <= Room(l.conn.readBuffer)
    ensures var f := Flipped(AfterRecv(l.conn, bytes).readBuffer); var r := Cleared(f);
      && r.size == l.conn.readBuffer.size && r.position == 0 && r.limit == r.size
      && CopyOf(f).size == l.size && B.Content(CopyOf(f)) == bytes
  {
    hide Received, Cleared, CopyOf, B.Sound, B.Content;
    CopyHoldsInput(l.conn.readBuffer, bytes);
    ClearedIs(Flipped(Received(l.conn.readBuffer, bytes)));
  }

  lemma BaseArrive(l: Life, input: Input, id: nat)
    requires Base(l) && Forms(l) && Enabled(l, Arrive(input, id))
    ensures Base(Next(l, Arrive(input, id))) && Forms(Next(l, Arrive(input, id)))
  {
    hide Shape, VotesOk, Carry, Emit, Received, Cleared, CopyOf, B.Sound, B.Content;
    if !B.HasRemaining(l.conn.readBuffer) || !input.Bytes? {
      BaseCloses(l, true, id);
    } else if l.conn.canRead {
      InputReaction(l, input.bytes, id);
      VotesOther(l.conn, Next(l, Arrive(input, id)).conn, InboundData, WorkerRead);
    } else {
      BaseIgnored(l, input.bytes, id);
    }
  }

  /** Input while reading is not allowed is thrown away. */
  lemma IgnoredReaction(l: Life, bytes: seq<byte>, id: nat)
    requires Buffers(l) && !l.conn.canRead && 0 < |bytes| <= Room(l.conn.readBuffer)
    ensures var m := Carry(l, ReadInput(l.conn, Bytes(bytes), l.accepts), id);
      && m == l.(conn := l.conn.(readBuffer := m.conn.readBuffer))
      && m.conn.readBuffer.size == l.size && m.conn.readBuffer.position == 0 && m.conn.readBuffer.limit == l.size
      && forall i :: 0 <= i < l.size ==> m.conn.readBuffer.data[i] == 0
  {
    hide Shape, Received, Cleared, B.Content;
    var b := Received(l.conn.readBuffer, bytes);
    CopyHoldsInput(l.conn.readBuffer, bytes);
    ClearedIs(b);
    QuietReaction(l.(conn := l.conn.(readBuffer := Cleared(b))), id);
  }

  lemma BaseIgnored(l: Life, bytes: seq<byte>, id: nat)
    requires Base(l) && Forms(l) && !l.conn.canRead && 0 < |bytes| <= Room(l.conn.readBuffer)
    ensures var m := Carry(l, ReadInput(l.conn, Bytes(bytes), l.accepts), id); Base(m) && Forms(m)
  {
    hide Shape, VotesOk, Carry, Received, Cleared, ReadInput, B.Sound, B.Content;
    IgnoredReaction(l, bytes, id);
    var d := Carry(l, ReadInput(l.conn, Bytes(bytes), l.accepts), id).conn;
    SameVotes(l.conn, d);
    SameShape(l.conn, d, l.progress);
  }

  lemma FormsManage(l: Life)
    requires Base(l) && Forms(l) && l.progress < 10
    ensures Forms(Managed(l))
  {
    hide Base, Forms, Managed;
    if InstallStep(l.progress) {
      FormsInstall(l);
    } else if l.progress < 2 {
      FormsQueued(l);
    } else {
      FormsManagedBy(l);
    }
  }

  /** The two DATA items of the hand-over; the reader's queue may refuse its own. */
  lemma QueuedIs(l: Life)
    requires l.progress < 2
    ensures var m := Managed(l); var data := DataOf(l.self);
      m == if l.progress == 0 then l.(progress := 1, acceptor := l.acceptor + [data])
           else if l.accepts.reader then l.(progress := 2, reader := l.reader + [data]) else l.(progress := 11)
  {
  }

  lemma QueuedKeeps(l: Life, m: Life)
    requires WorkerForm(l) && WriterForm(l) && Buffers(l)
    requires m.self == l.self && m.size == l.size && m.conn == l.conn && m.worker == l.worker && m.writer == l.writer
    ensures WorkerForm(m) && WriterForm(m) && Buffers(m)
  {
  }

  lemma FormsQueued(l: Life)
    requires Base(l) && Forms(l) && l.progress < 2
    ensures Forms(Managed(l))
  {
    hide Shape, VotesOk, Flags, Managed, WorkerForm, WriterForm, Buffers, B.Sound;
    QueuedIs(l);
    FirstIn(l.reader);
    QueuedKeeps(l, Managed(l));
  }

  lemma FormsInstall(l: Life)
    requires Base(l) && Forms(l) && InstallStep(l.progress)
    ensures Forms(Managed(l))
  {
    hide Shape, VotesOk, Flags, Managed;
    InstallIs(l);
  }

  lemma FormsManagedBy(l: Life)
    requires Base(l) && Forms(l) && (l.progress == 6 || l.progress == 9)
    ensures Forms(Managed(l))
  {
    hide Shape, VotesOk, Flags, Managed, B.Sound;
    ManagedIs(l);
  }

  /** The reader's three kinds of items. */
  lemma TookData(l: Life)
    requires Base(l) && Forms(l) && l.reader != [] && l.reader[0] == DataOf(l.self)
    ensures var m := ReaderTook(l); var c, d := l.conn, m.conn;
      && c.log.connects == 0 && Reader !in c.managedBy && !c.readKey && Between(l.progress, 2)
      && Shape(d, l.progress) && d.managedBy == c.managedBy + {Reader}
      && m == l.(conn := d, reader := l.reader[1..], load := l.load + 1)
      && d == if d.managedBy == EVERYONE
              then c.(managedBy := d.managedBy, readKey := true, state := StateConnected, canRead := true, canWrite := true,
                      handlers := d.handlers, log := c.log.(connects := c.log.connects + 1))
              else c.(managedBy := d.managedBy, readKey := true)
  {
    hide Shape, VotesOk, EnterState, Without;
    assert l.reader[0] in l.reader;
    EveryoneIs(l.conn.managedBy);
    var b := l.conn.(readKey := true);
    SameShape(l.conn, b, l.progress);
    ManagedReaction(l.(reader := l.reader[1..], load := l.load + 1, conn := b), Reader, 0);
  }

  lemma TookEvent(l: Life)
    requires Base(l) && Forms(l) && l.reader != [] && l.reader[0] != DataOf(l.self)
    ensures var m := ReaderTook(l); var c, d := l.conn, m.conn;
      && (l.reader[0] == EventOf(l.self, PendingClose) || l.reader[0] == EventOf(l.self, Close))
      && VotesOk(d)
      && if l.reader[0] == EventOf(l.self, PendingClose) then m == l.(reader := l.reader[1..])
         else
           && c.readKey && (Close, ReaderEvent) in c.log.called
           && m == l.(conn := d, reader := l.reader[1..], load := l.load - 1)
           && d == c.(readKey := false, closedBy := d.closedBy,
                      log := c.log.(votes := c.log.votes + [Reader], frees := d.log.frees))
           && (d.log.frees == c.log.frees || (c.log.frees == [] && d.log.frees == [Reader]))
  {
    hide Shape, VotesOk, Vote;
    assert l.reader[0] in l.reader;
    if l.reader[0] == EventOf(l.self, Close) {
      var b := l.conn.(readKey := false);
      SameVotes(l.conn, b);
      VoteCounts(b, Reader);
    }
  }

  lemma BaseTookData(l: Life)
    requires Base(l) && Forms(l) && l.reader != [] && l.reader[0] == DataOf(l.self)
    ensures Base(ReaderTook(l))
  {
    hide Shape, VotesOk, ReaderTook, Forms;
    TookData(l);
    EveryoneIs(ReaderTook(l).conn.managedBy);
    SameVotes(l.conn, ReaderTook(l).conn);
  }

  lemma BaseTookEvent(l: Life)
    requires Base(l) && Forms(l) && l.reader != [] && l.reader[0] != DataOf(l.self)
    ensures Base(ReaderTook(l))
  {
    hide Shape, VotesOk, ReaderTook, Forms;
    TookEvent(l);
    SameShape(l.conn, ReaderTook(l).conn, l.progress);
  }

  lemma BaseTakeReader(l: Life)
    requires Base(l) && Forms(l) && l.reader != []
    ensures Base(ReaderTook(l))
  {
    hide Base, Forms, ReaderTook;
    if l.reader[0] == DataOf(l.self) {
      BaseTookData(l);
    } else {
      BaseTookEvent(l);
    }
  }

  /** What does not touch the reader's side. */
  lemma OthersKept(l: Life, m: Life)
    requires WorkerForm(l) && WriterForm(l) && AcceptorForm(l) && Buffers(l)
    requires m.self == l.self && m.size == l.size && m.progress == l.progress
    requires m.acceptor == l.acceptor && m.worker == l.worker && m.writer == l.writer
    requires m.conn.readBuffer == l.conn.readBuffer && m.conn.writeBuffer == l.conn.writeBuffer
    requires m.conn.log.sent == l.conn.log.sent && m.conn.log.put == l.conn.log.put
    requires m.conn.log.called == l.conn.log.called
    ensures WorkerForm(m) && WriterForm(m) && AcceptorForm(m) && Buffers(m)
  {
  }

  lemma FormsTookData(l: Life)
    requires Base(l) && Forms(l) && l.reader != [] && l.reader[0] == DataOf(l.self)
    ensures ReaderForm(ReaderTook(l))
  {
    hide Shape, VotesOk, ReaderTook, Flags, Timely, WorkerForm, WriterForm, AcceptorForm, Buffers;
    Popped(l.reader, DataOf(l.self));
    Popped(l.reader, EventOf(l.self, PendingClose));
    Popped(l.reader, EventOf(l.self, Close));
    TookData(l);
  }

  lemma FormsTookEvent(l: Life)
    requires Base(l) && Forms(l) && l.reader != [] && l.reader[0] != DataOf(l.self)
    ensures ReaderForm(ReaderTook(l))
  {
    hide Shape, VotesOk, ReaderTook, Flags, Timely, WorkerForm, WriterForm, AcceptorForm, Buffers;
    Popped(l.reader, DataOf(l.self));
    Popped(l.reader, EventOf(l.self, PendingClose));
    Popped(l.reader, EventOf(l.self, Close));
    TookEvent(l);
  }

  lemma RestTookData(l: Life)
    requires Base(l) && Forms(l) && l.reader != [] && l.reader[0] == DataOf(l.self)
    ensures Forms(ReaderTook(l))
  {
    hide Base, ReaderTook, ReaderForm, WorkerForm, WriterForm, AcceptorForm, Buffers;
    TookData(l);
    FormsTookData(l);
    OthersKept(l, ReaderTook(l));
  }

  lemma RestTookEvent(l: Life)
    requires Base(l) && Forms(l) && l.reader != [] && l.reader[0] != DataOf(l.self)
    ensures Forms(ReaderTook(l))
  {
    hide Base, ReaderTook, ReaderForm, WorkerForm, WriterForm, AcceptorForm, Buffers;
    TookEvent(l);
    FormsTookEvent(l);
    OthersKept(l, ReaderTook(l));
  }

  lemma FormsTakeReader(l: Life)
    requires Base(l) && Forms(l) && l.reader != []
    ensures Forms(ReaderTook(l))
  {
    hide Base, Forms, ReaderTook;
    if l.reader[0] == DataOf(l.self) {
      RestTookData(l);
    } else {
      RestTookEvent(l);
    }
  }

  /** The worker takes a task. */
  lemma TookTask(l: Life)
    requires WorkerForm(l) && l.worker != [] && l.worker[0] != EventOf(l.self, Close)
    ensures var m := WorkerTook(l); var c, d := l.conn, m.conn;
      && IsTaskFor(l, l.worker[0])
      && m == l.(worker := l.worker[1..], serving := true, conn := d)
      && d == c.(log := c.log.(delivered := c.log.delivered + B.Content(l.worker[0].buffer.mem)))
  {
    hide Vote, B.Sound, B.Content, Without;
  }

  /** A CLOSE at the head leaves nothing but the vote, since all that follows are tasks. */
  lemma WorkerClears(l: Life)
    requires WorkerForm(l) && l.worker != [] && l.worker[0] == EventOf(l.self, Close)
    ensures EventOf(l.self, Close) !in l.worker[1..] && (Close, WorkerClose) in l.conn.log.called
    ensures var c := l.conn;
      WorkerTook(l) ==
      l.(worker := [], conn := Vote(c.(log := c.log.(dropped := c.log.dropped || |l.worker| > 1)), Worker))
  {
    hide Vote, B.Sound, B.Content, Without;
    FirstIn(l.worker);
    AllGone(l.worker[1..], IsTask(l.self));
  }

  /** The worker hears that the connection closed and drops its tasks. */
  lemma TookWorkerClose(l: Life)
    requires VotesOk(l.conn) && WorkerForm(l) && l.worker != [] && l.worker[0] == EventOf(l.self, Close)
    ensures var m := WorkerTook(l); var c, d, close := l.conn, m.conn, EventOf(l.self, Close);
      && VotesOk(d) && close !in l.worker[1..] && (Close, WorkerClose) in c.log.called
      && m == l.(worker := [], conn := d)
      && d == c.(closedBy := d.closedBy, log := c.log.(dropped := c.log.dropped || |l.worker| > 1,
                 votes := c.log.votes + [Worker], frees := d.log.frees))
      && (d.log.frees == c.log.frees || (c.log.frees == [] && d.log.frees == [Worker]))
  {
    hide VotesOk, Vote, WorkerForm, WorkerTook;
    WorkerClears(l);
    var b := l.conn.(log := l.conn.log.(dropped := l.conn.log.dropped || |l.worker| > 1));
    SameVotes(l.conn, b);
    VoteCounts(b, Worker);
  }

  /** The writer hears that the connection closed and drops its events. */
  lemma TookWriterClose(l: Life, chunk: seq<byte>, took: Option<nat>)
    requires Base(l) && WriterForm(l) && Enabled(l, TakeWriter(chunk, took)) && l.writer[0] != EventOf(l.self, OutboundData)
    ensures var m := WriterTook(l, chunk, took); var c, d := l.conn, m.conn;
      && (Close, WriterEvent) in c.log.called && l.writer[0] == EventOf(l.self, Close)
      && VotesOk(d) && m == l.(writer := [], conn := d)
      && d == c.(closedBy := d.closedBy, log := c.log.(votes := c.log.votes + [Writer], frees := d.log.frees))
      && (d.log.frees == c.log.frees || (c.log.frees == [] && d.log.frees == [Writer]))
  {
    hide Shape, VotesOk, Vote, B.Sound, B.Content, Without, WriteOutput;
    FirstIn(l.writer);
    AllGone(l.writer[1..], IsEvent(l.self));
    VoteCounts(l.conn, Writer);
  }

  lemma BaseTookTask(l: Life)
    requires Base(l) && Forms(l) && l.worker != [] && l.worker[0] != EventOf(l.self, Close)
    ensures Base(WorkerTook(l)) && Forms(WorkerTook(l))
  {
    hide Shape, VotesOk, WorkerTook, ReaderForm, WriterForm, AcceptorForm, Buffers, B.Content, B.Sound;
    Popped(l.worker, EventOf(l.self, Close));
    TookTask(l);
    var m := WorkerTook(l);
    SameVotes(l.conn, m.conn);
    SameShape(l.conn, m.conn, l.progress);
    SidesKept(l, m);
  }

  lemma BaseTookWorkerClose(l: Life)
    requires Base(l) && Forms(l) && l.worker != [] && l.worker[0] == EventOf(l.self, Close)
    ensures Base(WorkerTook(l)) && Forms(WorkerTook(l))
  {
    hide Shape, VotesOk, WorkerTook, ReaderForm, WriterForm, AcceptorForm, Buffers, B.Content, B.Sound;
    TookWorkerClose(l);
    SameShape(l.conn, WorkerTook(l).conn, l.progress);
    SidesKept(l, WorkerTook(l));
  }

  /** What does not touch the worker's queue. */
  lemma SidesKept(l: Life, m: Life)
    requires ReaderForm(l) && WriterForm(l) && AcceptorForm(l) && Buffers(l)
    requires m.self == l.self && m.size == l.size && m.progress == l.progress && m.load == l.load
    requires m.acceptor == l.acceptor && m.reader == l.reader && m.writer == l.writer
    requires m.conn.managedBy == l.conn.managedBy && m.conn.readKey == l.conn.readKey
    requires m.conn.readBuffer == l.conn.readBuffer && m.conn.writeBuffer == l.conn.writeBuffer
    requires m.conn.log.sent == l.conn.log.sent && m.conn.log.put == l.conn.log.put && m.conn.log.called == l.conn.log.called
    ensures ReaderForm(m) && WriterForm(m) && AcceptorForm(m) && Buffers(m)
  {
  }

  lemma BaseTakeWorker(l: Life)
    requires Base(l) && Forms(l) && l.worker != []
    ensures Base(WorkerTook(l)) && Forms(WorkerTook(l))
  {
    hide Base, Forms, WorkerTook;
    if l.worker[0] == EventOf(l.self, Close) {
      BaseTookWorkerClose(l);
    } else {
      BaseTookTask(l);
    }
  }

  /** Asking for output keeps what was sent, and what is left of what was put, in balance. */
  lemma RefillBalances(l: Life, chunk: seq<byte>)
    requires Buffers(l)
    ensures var d := Refill(l.conn, chunk); var c, w := l.conn, d.writeBuffer; var asked := !B.HasRemaining(c.writeBuffer);
      && w.size == l.size && w.position <= w.limit && c.log.sent + B.Content(w) == d.log.put
      && d == c.(writeBuffer := w, log := c.log.(put := d.log.put, writes := c.log.writes + if asked then 1 else 0))
      && (!asked ==> d.log.put == c.log.put)
  {
    hide Refill, B.Content, B.Sound;
    RefillPuts(l.conn, chunk);
    NothingLeft(l.conn.writeBuffer);
    if !B.HasRemaining(l.conn.writeBuffer) {
      assert l.conn.log.sent + [] == l.conn.log.sent;
    }
  }

  /** What ConnectionWrite does while it is allowed to and `send` works. */
  lemma SentReaction(l: Life, chunk: seq<byte>, sent: nat)
    requires Buffers(l) && l.conn.canWrite && MaySend(l.conn, chunk, Some(sent))
    ensures var (d, e, again) := WriteOutput(l.conn, chunk, Some(sent), l.accepts); var c, w := l.conn, d.writeBuffer;
      var asked := !B.HasRemaining(c.writeBuffer);
      && e == NOTHING && again == B.HasRemaining(w)
      && w.size == l.size && w.position <= w.limit
      && d.log.sent + B.Content(w) == d.log.put
      && d == c.(writeBuffer := w, log := c.log.(sent := d.log.sent, put := d.log.put,
                 writes := c.log.writes + (if asked then 1 else 0),
                 shutdowns := c.log.shutdowns + if !B.HasRemaining(w) && c.state == StatePendingClose then 1 else 0))
      && (!asked ==> d.log.put == c.log.put)
  {
    hide Refill, Advanced, B.Content, B.Sound, Buffers;
    RefillBalances(l, chunk);
    var b := Refill(l.conn, chunk);
    AdvancedSends(b.writeBuffer, sent);
    var a := Advanced(b.writeBuffer, sent);
    PartSent(b.log.sent, b.writeBuffer.data[b.writeBuffer.position..a.position], B.Content(a));
  }

  lemma PartSent(sent: seq<byte>, part: seq<byte>, left: seq<byte>)
    ensures (sent + part) + left == sent + (part + left)
  {
  }

  lemma NothingLeft(b: Mem)
    ensures B.HasRemaining(b) <==> B.Content(b) != []
  {
  }

  /** The connection before ConnectionWrite gives up. */
  function GivingUp(l: Life, chunk: seq<byte>): Life
    requires l.writer != []
  {
    l.(writer := l.writer[1..], resend := false, conn := if l.conn.canWrite then Refill(l.conn, chunk) else l.conn)
  }

  /** The writer handles an OUTBOUND event: without permission, or when `send` fails, the
      connection is closed; the underflow branch of ConnectionWrite is never taken. */
  lemma TookOutbound(l: Life, chunk: seq<byte>, took: Option<nat>)
    requires Buffers(l) && Enabled(l, TakeWriter(chunk, took)) && l.writer[0] == EventOf(l.self, OutboundData)
    ensures var m := WriterTook(l, chunk, took); var k := GivingUp(l, chunk);
      if !l.conn.canWrite || took.None? then m == Carry(k, CloseConnection(k.conn, true, l.accepts), 0)
      else
        var (d, _, again) := WriteOutput(l.conn, chunk, took, l.accepts);
        m == l.(writer := l.writer[1..], resend := again, conn := d)
  {
    hide CloseConnection, Refill, B.Content;
    RefillPuts(l.conn, chunk);
    if l.conn.canWrite && took.Some? {
      SentReaction(l, chunk, took.value);
      var (d, _, again) := WriteOutput(l.conn, chunk, took, l.accepts);
      QuietReaction(l.(writer := l.writer[1..], resend := again, conn := d), 0);
    }
  }

  /** Giving up changes no more than the event taken and, perhaps, a chunk put. */
  lemma GivingUpIs(l: Life, chunk: seq<byte>)
    requires Buffers(l) && l.writer != []
    ensures var k := GivingUp(l, chunk); var c, d := l.conn, k.conn;
      && k == l.(writer := l.writer[1..], resend := false, conn := d)
      && d == c.(writeBuffer := d.writeBuffer, log := c.log.(writes := d.log.writes, put := d.log.put))
  {
    hide Refill;
    RefillPuts(l.conn, chunk);
  }

  lemma BaseGivingUp(l: Life, chunk: seq<byte>)
    requires Base(l) && Forms(l) && l.writer != []
    ensures Base(GivingUp(l, chunk)) && Forms(GivingUp(l, chunk))
  {
    hide Shape, VotesOk, Refill, B.Content, ReaderForm, WorkerForm, AcceptorForm;
    Popped(l.writer, EventOf(l.self, Close));
    var k := GivingUp(l, chunk);
    RefillBalances(l, chunk);
    FrontKept(l, k);
    SameVotes(l.conn, k.conn);
    SameShape(l.conn, k.conn, l.progress);
  }

  /** The writer handles an OUTBOUND event and `send` takes something. */
  lemma WriterSent(l: Life, chunk: seq<byte>, sent: nat)
    requires Buffers(l) && Enabled(l, TakeWriter(chunk, Some(sent))) && l.writer[0] == EventOf(l.self, OutboundData)
    requires l.conn.canWrite
    ensures var m := WriterTook(l, chunk, Some(sent)); var c, d, w := l.conn, m.conn, m.conn.writeBuffer;
      var asked := !B.HasRemaining(c.writeBuffer);
      && m == l.(writer := l.writer[1..], resend := B.HasRemaining(w), conn := d)
      && d == c.(writeBuffer := w, log := c.log.(sent := d.log.sent, put := d.log.put,
                 writes := c.log.writes + (if asked then 1 else 0),
                 shutdowns := c.log.shutdowns + if !B.HasRemaining(w) && c.state == StatePendingClose then 1 else 0))
      && w.size == l.size && w.position <= w.limit && d.log.sent + B.Content(w) == d.log.put
      && (!asked ==> d.log.put == c.log.put)
  {
    hide WriterTook, WriteOutput, B.Content, B.Sound, Refill;
    SentReaction(l, chunk, sent);
    TookOutbound(l, chunk, Some(sent));
  }

  lemma BaseSent(l: Life, chunk: seq<byte>, sent: nat)
    requires Base(l) && Forms(l) && Enabled(l, TakeWriter(chunk, Some(sent))) && l.writer[0] == EventOf(l.self, OutboundData)
    requires l.conn.canWrite
    ensures Base(WriterTook(l, chunk, Some(sent))) && Forms(WriterTook(l, chunk, Some(sent)))
  {
    hide Shape, VotesOk, WriterTook, Refill, B.Content, B.Sound, ReaderForm, WorkerForm, AcceptorForm;
    Popped(l.writer, EventOf(l.self, Close));
    WriterSent(l, chunk, sent);
    var m := WriterTook(l, chunk, Some(sent));
    FrontKept(l, m);
    SameVotes(l.conn, m.conn);
    SameShape(l.conn, m.conn, l.progress);
  }

  lemma BaseTakeWriter(l: Life, chunk: seq<byte>, took: Option<nat>)
    requires Base(l) && Forms(l) && Enabled(l, TakeWriter(chunk, took))
    ensures Base(WriterTook(l, chunk, took)) && Forms(WriterTook(l, chunk, took))
  {
    hide Base, Forms, WriterTook, CloseConnection, Carry, GivingUp, MaySend;
    if l.writer[0] != EventOf(l.self, OutboundData) {
      BaseWriterClose(l, chunk, took);
    } else if l.conn.canWrite && took.Some? {
      BaseSent(l, chunk, took.value);
    } else {
      BaseGivesUp(l, chunk, took);
    }
  }

  lemma BaseGivesUp(l: Life, chunk: seq<byte>, took: Option<nat>)
    requires Base(l) && Forms(l) && Enabled(l, TakeWriter(chunk, took)) && l.writer[0] == EventOf(l.self, OutboundData)
    requires !(l.conn.canWrite && took.Some?)
    ensures Base(WriterTook(l, chunk, took)) && Forms(WriterTook(l, chunk, took))
  {
    hide Base, WriterTook, CloseConnection, Carry, GivingUp, ReaderForm, WorkerForm, WriterForm, AcceptorForm,
      Buffers, MaySend;
    TookOutbound(l, chunk, took);
    BaseGivingUp(l, chunk);
    BaseCloses(GivingUp(l, chunk), true, 0);
    KeepsAccepts(l, chunk);
  }

  lemma BaseWriterClose(l: Life, chunk: seq<byte>, took: Option<nat>)
    requires Base(l) && Forms(l) && Enabled(l, TakeWriter(chunk, took)) && l.writer[0] != EventOf(l.self, OutboundData)
    ensures Base(WriterTook(l, chunk, took)) && Forms(WriterTook(l, chunk, took))
  {
    hide Shape, VotesOk, WriterTook, ReaderForm, WorkerForm, AcceptorForm, MaySend;
    TookWriterClose(l, chunk, took);
    var m := WriterTook(l, chunk, took);
    SameShape(l.conn, m.conn, l.progress);
    FrontKept(l, m);
  }

  lemma KeepsAccepts(l: Life, chunk: seq<byte>)
    requires l.writer != []
    ensures GivingUp(l, chunk).accepts == l.accepts
  {
  }

  lemma BasePutBack(l: Life)
    requires Base(l) && Forms(l) && l.resend
    ensures Base(Next(l, PutBack)) && Forms(Next(l, PutBack))
  {
    hide Shape, VotesOk, ReaderForm, WorkerForm, AcceptorForm, Buffers, Managed, Carry, ReaderTook, WorkerTook,
      WriterTook;
    FrontKept(l, Next(l, PutBack));
    assert Buffers(Next(l, PutBack)) by {
      SameBuffers(l, Next(l, PutBack));
    }
  }

  lemma SameBuffers(l: Life, m: Life)
    requires Buffers(l) && m.size == l.size && m.conn == l.conn
    ensures Buffers(m)
  {
  }

  lemma SameSides(l: Life, m: Life)
    requires Base(l) && Forms(l)
    requires m == l.(serving := m.serving, accepts := m.accepts)
    ensures Base(m) && Forms(m)
  {
  }

  /** Every step keeps the handlers, the votes, the flags and the forms of the queues right. */
  lemma BaseKeeps(l: Life, a: Act)
    requires Base(l) && Forms(l) && Enabled(l, a)
    ensures Base(Next(l, a)) && Forms(Next(l, a))
  {
    hide Base, Forms, Carry, Managed, ReaderTook, WorkerTook, WriterTook, ReadInput, CloseConnection, Interest;
    match a
    case Manage => BaseManage(l); FormsManage(l);
    case TakeReader => BaseTakeReader(l); FormsTakeReader(l);
    case Arrive(input, id) => BaseArrive(l, input, id);
    case TakeWorker => BaseTakeWorker(l);
    case TakeWriter(chunk, took) => BaseTakeWriter(l, chunk, took);
    case WantWrite => BaseInterest(l);
    case WantClose(force) => BaseCloses(l, force, 0);
    case PutBack => BasePutBack(l);
    case Finish => SameSides(l, Next(l, a));
    case Exit(_) => SameSides(l, Next(l, a));
  }
}
