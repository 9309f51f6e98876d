/** How a connection closes: the course of its states, and what becomes of each owner's CLOSE. */
module Closing {
  import opened EventModel
  import opened QueueModel
  import opened Connections
  import opened Lives
  import opened Reactions
  import opened Invariants
  import B = BufferModel

  /** The course of the states. CONNECTED comes before CLOSED unless CLOSED came rashly; CLOSED is
      final but for a rash close and for a graceful close after it. */
  ghost predicate Course(l: Life) {
    var c, log := l.conn, l.conn.log;
    && ((Close, AcceptorClose) in log.called ==> log.closed)
    && ((Close, WriterEvent) in log.called ==> AllCalled(log.called))
    && (log.reopened ==> log.closed) && (log.rash ==> log.closed)
    && (c.state == StateInitialized ==> Untold(log.called) && !log.closed)
    && (log.connects == 0 ==> !log.closed || log.rash)
    && (!log.rash && log.closed ==> c.state != StateConnected && AllCalled(log.called))
    && (!log.rash && !log.reopened && log.closed ==> c.state == StateClosed)
  }

  /** None of the close handlers of the pipe's threads was called. */
  predicate Untold(called: set<(Event, Callback)>) {
    && (PendingClose, ReaderEvent) !in called && (Close, ReaderEvent) !in called
    && (Close, WorkerClose) !in called && (Close, WriterEvent) !in called
  }

  predicate AllCalled(called: set<(Event, Callback)>) {
    && (Close, AcceptorClose) in called && (Close, ReaderEvent) in called
    && (Close, WorkerClose) in called && (Close, WriterEvent) in called
  }

  /** Nothing changed that the course depends on. */
  ghost predicate SameCourse(l: Life, m: Life) {
    var c, d := l.conn, m.conn;
    && d.state == c.state && d.log.rash == c.log.rash && d.log.closed == c.log.closed && d.log.reopened == c.log.reopened
    && d.log.connects == c.log.connects
    && (forall x :: (Close, x) in d.log.called <==> (Close, x) in c.log.called)
    && ((PendingClose, ReaderEvent) in d.log.called ==> (PendingClose, ReaderEvent) in c.log.called)
  }

  lemma CourseKept(l: Life, m: Life)
    requires Course(l) && SameCourse(l, m)
    ensures Course(m)
  {
  }

  lemma CourseCloses(l: Life, force: bool, id: nat)
    requires Base(l) && Course(l)
    ensures Course(Carry(l, CloseConnection(l.conn, force, l.accepts), id))
  {
    hide Shape, VotesOk, EnterState, Carry, Voters;
    if l.conn.state == (if force then StateClosed else StatePendingClose) {
      AlreadyClosing(l, force, id);
    } else if force {
      EveryoneIs(l.conn.managedBy);
      ClosedReaction(l, id);
    } else {
      PendingReaction(l, id);
    }
  }

  lemma CourseKeeps(l: Life, a: Act)
    requires Base(l) && Forms(l) && Course(l) && Enabled(l, a)
    ensures Course(Next(l, a))
  {
    hide Base, Forms, Course, Carry, Managed, ReaderTook, WorkerTook, WriterTook, ReadInput, CloseConnection,
      Interest, SameCourse;
    match a
    case Manage => CourseManage(l);
    case TakeReader => CourseTakeReader(l);
    case Arrive(input, id) => CourseArrive(l, input, id);
    case TakeWorker => CourseTakeWorker(l);
    case TakeWriter(chunk, took) => CourseTakeWriter(l, chunk, took);
    case WantWrite => CourseInterest(l);
    case WantClose(force) => CourseCloses(l, force, 0);
    case _ => CourseRest(l, Next(l, a));
  }

  lemma CourseRest(l: Life, m: Life)
    requires Course(l) && m.conn == l.conn
    ensures Course(m)
  {
  }

  lemma CourseInterest(l: Life)
    requires Base(l) && Course(l)
    ensures Course(Carry(l, Interest(l.conn, l.accepts), 0))
  {
    hide Shape, VotesOk, Carry, Interest;
    if l.conn.canWrite {
      InterestReaction(l, 0);
    } else {
      InterestLost(l, 0);
    }
  }

  lemma CourseManage(l: Life)
    requires Base(l) && Course(l) && l.progress < 10
    ensures Course(Managed(l))
  {
    hide Base, Course, Managed;
    if InstallStep(l.progress) {
      CourseInstall(l);
    } else if l.progress < 2 {
      QueuedIs(l);
      CourseRest(l, Managed(l));
    } else {
      CourseManagedBy(l);
    }
  }

  lemma CourseManagedBy(l: Life)
    requires Base(l) && Course(l) && (l.progress == 6 || l.progress == 9)
    ensures Course(Managed(l))
  {
    hide Shape, VotesOk, Managed;
    ManagedIs(l);
  }

  lemma CourseInstall(l: Life)
    requires Course(l) && InstallStep(l.progress)
    ensures Course(Managed(l))
  {
    hide Managed;
    InstallIs(l);
  }

  lemma CourseTookData(l: Life)
    requires Base(l) && Forms(l) && Course(l) && l.reader != [] && l.reader[0] == DataOf(l.self)
    ensures Course(ReaderTook(l))
  {
    hide ReaderTook, Base, Forms;
    TookData(l);
  }

  lemma CourseTookEvent(l: Life)
    requires Base(l) && Forms(l) && Course(l) && l.reader != [] && l.reader[0] != DataOf(l.self)
    ensures Course(ReaderTook(l))
  {
    hide ReaderTook, Base, Forms, Course;
    TookEvent(l);
    CourseKept(l, ReaderTook(l));
  }

  lemma CourseTakeReader(l: Life)
    requires Base(l) && Forms(l) && Course(l) && l.reader != []
    ensures Course(ReaderTook(l))
  {
    hide Base, Forms, Course, ReaderTook;
    if l.reader[0] == DataOf(l.self) {
      CourseTookData(l);
    } else {
      CourseTookEvent(l);
    }
  }

  lemma CourseTakeWorker(l: Life)
    requires Base(l) && Forms(l) && Course(l) && l.worker != []
    ensures Course(WorkerTook(l))
  {
    hide WorkerTook, Shape, VotesOk;
    if l.worker[0] == EventOf(l.self, Close) {
      TookWorkerClose(l);
    } else {
      TookTask(l);
    }
  }

  lemma CourseArrive(l: Life, input: Input, id: nat)
    requires Base(l) && Forms(l) && Course(l) && Enabled(l, Arrive(input, id))
    ensures Course(Next(l, Arrive(input, id)))
  {
    hide Shape, VotesOk, Carry, Emit, Received, Cleared, CopyOf, B.Sound, B.Content, Course;
    if !B.HasRemaining(l.conn.readBuffer) || !input.Bytes? {
      CourseCloses(l, true, id);
    } else if l.conn.canRead {
      InputReaction(l, input.bytes, id);
      CourseKept(l, Next(l, Arrive(input, id)));
    } else {
      IgnoredReaction(l, input.bytes, id);
      CourseKept(l, Next(l, Arrive(input, id)));
    }
  }

  lemma BuffersOf(l: Life)
    requires Forms(l)
    ensures Buffers(l) && WriterForm(l)
  {
  }

  lemma PartsOf(l: Life)
    requires Base(l) && Forms(l)
    ensures VotesOk(l.conn) && WorkerForm(l)
  {
  }

  lemma CourseWriterClose(l: Life, chunk: seq<byte>, took: Option<nat>)
    requires Base(l) && Forms(l) && Course(l) && Enabled(l, TakeWriter(chunk, took))
    requires l.writer[0] != EventOf(l.self, OutboundData)
    ensures Course(WriterTook(l, chunk, took))
  {
    hide Shape, VotesOk, Flags, Managers, Timely, WriterTook, ReaderForm, WorkerForm, AcceptorForm, Buffers, Course;
    TookWriterClose(l, chunk, took);
    CourseKept(l, WriterTook(l, chunk, took));
  }

  lemma CourseSent(l: Life, chunk: seq<byte>, sent: nat)
    requires Base(l) && Forms(l) && Course(l) && Enabled(l, TakeWriter(chunk, Some(sent)))
    requires l.conn.canWrite && l.writer[0] == EventOf(l.self, OutboundData)
    ensures Course(WriterTook(l, chunk, Some(sent)))
  {
    hide Base, Forms, WriterTook, Refill, Course, B.Content, B.Sound;
    BuffersOf(l);
    Popped(l.writer, EventOf(l.self, Close));
    WriterSent(l, chunk, sent);
    CourseKept(l, WriterTook(l, chunk, Some(sent)));
  }

  lemma CourseGivesUp(l: Life, chunk: seq<byte>, took: Option<nat>)
    requires Base(l) && Forms(l) && Course(l) && Enabled(l, TakeWriter(chunk, took))
    requires !(l.conn.canWrite && took.Some?) && l.writer[0] == EventOf(l.self, OutboundData)
    ensures Course(WriterTook(l, chunk, took))
  {
    hide Base, Forms, WriterTook, Refill, CloseConnection, Carry, GivingUp, Course, B.Content, B.Sound;
    BuffersOf(l);
    Popped(l.writer, EventOf(l.self, Close));
    TookOutbound(l, chunk, took);
    BaseGivingUp(l, chunk);
    GivingUpIs(l, chunk);
    CourseKept(l, GivingUp(l, chunk));
    CourseCloses(GivingUp(l, chunk), true, 0);
  }

  lemma CourseTakeWriter(l: Life, chunk: seq<byte>, took: Option<nat>)
    requires Base(l) && Forms(l) && Course(l) && Enabled(l, TakeWriter(chunk, took))
    ensures Course(WriterTook(l, chunk, took))
  {
    hide Base, Forms, WriterTook, MaySend, Course;
    if l.writer[0] != EventOf(l.self, OutboundData) {
      CourseWriterClose(l, chunk, took);
    } else if l.conn.canWrite && took.Some? {
      CourseSent(l, chunk, took.value);
    } else {
      CourseGivesUp(l, chunk, took);
    }
  }

  // ---------------------------------------------------------------- every owner hears of CLOSE once

  /** No queue that was closed is open. */
  predicate Opener(before: Accepts, after: Accepts) {
    (after.reader ==> before.reader) && (after.worker ==> before.worker) && (after.writer ==> before.writer)
  }

  /** An owner's CLOSE handler that was called has become either a pending event or a vote. */
  ghost predicate Told(called: set<(Event, Callback)>, callback: Callback, pending: bool, voted: bool) {
    if (Close, callback) in called then pending != voted else !pending && !voted
  }

  /** A CLOSE handler of the reader or the worker that was called is a pending event or a vote, also
      when its queue refused; the writer's, and each exactly one of the two, as long as the queue has
      not seen an EXIT. Then the reader's vote also means that its key is gone for good, and the one
      that frees the connection is the last to vote. */
  ghost predicate Tokens(l: Life) {
    var v, called, close := l.conn.log.votes, l.conn.log.called, EventOf(l.self, Close);
    && ((Close, ReaderEvent) in called ==> close in l.reader || Reader in v)
    && ((Close, WorkerClose) in called ==> close in l.worker || Worker in v)
    && (close in l.worker ==> (Close, WorkerClose) in called && Worker !in v)
    && (close in l.writer ==> (Close, WriterEvent) in called && Writer !in v)
    && (Writer in v ==> (Close, WriterEvent) in called)
    && (l.accepts.reader ==> Told(called, ReaderEvent, close in l.reader, Reader in v))
    && (l.accepts.worker ==> Told(called, WorkerClose, close in l.worker, Worker in v))
    && (l.accepts.writer ==> Told(called, WriterEvent, close in l.writer, Writer in v))
    && (l.accepts.reader && Reader in v ==> !l.conn.readKey && Reader in l.conn.managedBy)
    && (l.accepts.reader && l.conn.log.frees != [] ==> v != [] && l.conn.log.frees == [v[|v| - 1]])
  }

  ghost predicate SameTokens(l: Life, m: Life) {
    var close := EventOf(l.self, Close);
    && m.self == l.self && Opener(l.accepts, m.accepts)
    && (close in m.reader <==> close in l.reader) && (close in m.worker <==> close in l.worker)
    && (close in m.writer <==> close in l.writer)
    && m.conn.log.votes == l.conn.log.votes && m.conn.log.frees == l.conn.log.frees
    && (m.conn.readKey ==> l.conn.readKey || Reader !in l.conn.log.votes || !l.accepts.reader)
    && l.conn.managedBy <= m.conn.managedBy
    && (forall x :: (Close, x) in m.conn.log.called <==> (Close, x) in l.conn.log.called)
  }

  lemma TokensKept(l: Life, m: Life)
    requires Tokens(l) && SameTokens(l, m)
    ensures Tokens(m)
  {
  }

  /** CLOSED: every installed handler leaves one event, or none where its queue refuses. */
  lemma ClosedTells(l: Life, id: nat)
    requires Base(l) && l.conn.state != StateClosed
    ensures var m := Carry(l, EnterState(l.conn, StateClosed, l.accepts), id); var s := l.accepts;
      var (a, r, w, t) := Armed(l.conn, l.progress); var close := EventOf(l.self, Close);
      && m.self == l.self && m.accepts == s && VotesOk(m.conn) && NoFree(l.conn, m.conn) && Alike(l.conn, m.conn)
      && m.conn.log.votes == l.conn.log.votes + Voters(AcceptorClose, a, s) + Voters(ReaderEvent, r, s) + Voters(WorkerClose, w, s)
      && (close in m.reader <==> close in l.reader || (r && s.reader))
      && (close in m.worker <==> close in l.worker || (w && s.worker))
      && (close in m.writer <==> close in l.writer || (t && s.writer))
      && m.conn.log.called ==
         Mark(Mark(Mark(Mark(l.conn.log.called, AcceptorClose, a), ReaderEvent, r), WorkerClose, w), WriterEvent, t)
  {
    hide Shape, EnterState, Carry, Mark, Armed, VotesOk, Without, Voters;
    ClosedReaction(l, id);
  }

  /** The same, owner by owner. */
  lemma ClosedSpells(l: Life, id: nat)
    requires Base(l) && l.conn.state != StateClosed
    ensures var m := Carry(l, EnterState(l.conn, StateClosed, l.accepts), id); var s, v, called := l.accepts, l.conn.log.votes, l.conn.log.called;
      var (a, r, w, t) := Armed(l.conn, l.progress);
      && (Reader in m.conn.log.votes <==> Reader in v || (r && !s.reader))
      && (Worker in m.conn.log.votes <==> Worker in v || (w && !s.worker))
      && (Writer in m.conn.log.votes <==> Writer in v)
      && (!a && (r ==> s.reader) && (w ==> s.worker) ==> m.conn.log.votes == v && m.conn.log.frees == l.conn.log.frees)
      && ((Close, ReaderEvent) in m.conn.log.called <==> (Close, ReaderEvent) in called || r)
      && ((Close, WorkerClose) in m.conn.log.called <==> (Close, WorkerClose) in called || w)
      && ((Close, WriterEvent) in m.conn.log.called <==> (Close, WriterEvent) in called || t)
  {
    hide Shape, EnterState, Carry, Armed, VotesOk;
    ClosedTells(l, id);
  }

  lemma TokensClosed(l: Life, id: nat)
    requires Base(l) && Course(l) && Tokens(l) && l.conn.state != StateClosed
    ensures Tokens(Carry(l, EnterState(l.conn, StateClosed, l.accepts), id))
  {
    hide Shape, EnterState, Carry, Mark, Voters, Flags, Managers;
    ClosedTells(l, id);
    ClosedSpells(l, id);
  }

  lemma TokensPending(l: Life, id: nat)
    requires Base(l) && Tokens(l) && l.conn.state != StatePendingClose
    ensures Tokens(Carry(l, EnterState(l.conn, StatePendingClose, l.accepts), id))
  {
    hide Shape, EnterState, Carry;
    PendingReaction(l, id);
  }

  lemma TokensCloses(l: Life, force: bool, id: nat)
    requires Base(l) && Course(l) && Tokens(l)
    ensures Tokens(Carry(l, CloseConnection(l.conn, force, l.accepts), id))
  {
    hide Base, Course, Tokens, Carry;
    if l.conn.state == (if force then StateClosed else StatePendingClose) {
      AlreadyClosing(l, force, id);
    } else if force {
      TokensClosed(l, id);
    } else {
      TokensPending(l, id);
    }
  }

  lemma TokensKeeps(l: Life, a: Act)
    requires Base(l) && Forms(l) && Course(l) && Tokens(l) && Enabled(l, a)
    ensures Tokens(Next(l, a))
  {
    hide Base, Forms, Course, Tokens, Carry, Managed, ReaderTook, WorkerTook, WriterTook, ReadInput, CloseConnection,
      Interest, SameTokens;
    match a
    case Manage => TokensManage(l);
    case TakeReader => TokensTakeReader(l);
    case Arrive(input, id) => TokensArrive(l, input, id);
    case TakeWorker => TokensTakeWorker(l);
    case TakeWriter(chunk, took) => TokensTakeWriter(l, chunk, took);
    case WantWrite => TokensInterest(l);
    case WantClose(force) => TokensCloses(l, force, 0);
    case Finish => TokensRest(l, Next(l, a));
    case PutBack => TokensRest(l, Next(l, a));
    case Exit(_) => TokensRest(l, Next(l, a));
  }

  lemma TokensRest(l: Life, m: Life)
    requires Tokens(l) && m.conn == l.conn && Opener(l.accepts, m.accepts)
    requires m.self == l.self && m.reader == l.reader && m.worker == l.worker
    requires m.writer == l.writer || m.writer == l.writer + [EventOf(l.self, OutboundData)]
    ensures Tokens(m)
  {
  }

  lemma TokensInterest(l: Life)
    requires Base(l) && Tokens(l)
    ensures Tokens(Carry(l, Interest(l.conn, l.accepts), 0))
  {
    hide Shape, VotesOk, Carry, Interest, Tokens;
    if l.conn.canWrite {
      InterestReaction(l, 0);
      TokensKept(l, Carry(l, Interest(l.conn, l.accepts), 0));
    } else {
      InterestLost(l, 0);
    }
  }

  lemma TokensManage(l: Life)
    requires Base(l) && Tokens(l) && l.progress < 10
    ensures Tokens(Managed(l))
  {
    hide Base, Tokens, Managed;
    if InstallStep(l.progress) {
      TokensInstall(l);
    } else if l.progress < 2 {
      QueuedIs(l);
      TokensKept(l, Managed(l));
    } else {
      ManagedIs(l);
      TokensKept(l, Managed(l));
    }
  }

  lemma TokensInstall(l: Life)
    requires Tokens(l) && InstallStep(l.progress)
    ensures Tokens(Managed(l))
  {
    hide Managed, Tokens;
    InstallIs(l);
    TokensKept(l, Managed(l));
  }

  lemma TokensTookData(l: Life)
    requires Base(l) && Forms(l) && Tokens(l) && l.reader != [] && l.reader[0] == DataOf(l.self)
    ensures Tokens(ReaderTook(l))
  {
    hide ReaderTook, Base, Forms;
    Popped(l.reader, EventOf(l.self, Close));
    TookData(l);
  }

  lemma TokensTookPending(l: Life)
    requires Base(l) && Forms(l) && Tokens(l) && l.reader != [] && l.reader[0] == EventOf(l.self, PendingClose)
    ensures Tokens(ReaderTook(l))
  {
    hide ReaderTook, Base, Forms, Tokens;
    Popped(l.reader, EventOf(l.self, Close));
    TookEvent(l);
    TokensKept(l, ReaderTook(l));
  }

  lemma OnlyClose(l: Life)
    requires ReaderForm(l) && l.reader != [] && l.reader[0] == EventOf(l.self, Close)
    ensures EventOf(l.self, Close) !in l.reader[1..] && (l.conn.readKey ==> Reader in l.conn.managedBy)
  {
  }

  lemma TokensTookClose(l: Life)
    requires Base(l) && Forms(l) && Tokens(l) && l.reader != [] && l.reader[0] == EventOf(l.self, Close)
    ensures Tokens(ReaderTook(l))
  {
    hide ReaderTook, Base, Forms;
    ReaderFormOf(l);
    OnlyClose(l);
    Popped(l.reader, EventOf(l.self, Close));
    TookEvent(l);
    if l.accepts.reader {
      ReaderFrees(l);
    }
  }

  lemma ReaderFormOf(l: Life)
    requires Base(l) && Forms(l)
    ensures ReaderForm(l) && VotesOk(l.conn)
  {
  }

  /** A vote after the connection was freed would be the reader's second. */
  lemma ReaderFrees(l: Life)
    requires Base(l) && Tokens(l) && l.accepts.reader && EventOf(l.self, Close) in l.reader
    ensures l.conn.log.frees == []
  {
    hide Shape, Flags, Managers, Timely;
  }

  lemma TokensTookEvent(l: Life)
    requires Base(l) && Forms(l) && Tokens(l) && l.reader != [] && l.reader[0] != DataOf(l.self)
    ensures Tokens(ReaderTook(l))
  {
    hide ReaderTook, Base, Tokens, WorkerForm, WriterForm, AcceptorForm, Buffers;
    if l.reader[0] == EventOf(l.self, PendingClose) {
      TokensTookPending(l);
    } else {
      TokensTookClose(l);
    }
  }

  lemma TokensTakeReader(l: Life)
    requires Base(l) && Forms(l) && Tokens(l) && l.reader != []
    ensures Tokens(ReaderTook(l))
  {
    hide Base, Forms, Tokens, ReaderTook;
    if l.reader[0] == DataOf(l.self) {
      TokensTookData(l);
    } else {
      TokensTookEvent(l);
    }
  }

  lemma TokensWorkerClose(l: Life)
    requires Base(l) && Forms(l) && Tokens(l) && l.worker != [] && l.worker[0] == EventOf(l.self, Close)
    ensures Tokens(WorkerTook(l))
  {
    hide WorkerTook, Base, Forms;
    PartsOf(l);
    TookWorkerClose(l);
  }

  lemma TokensTakeWorker(l: Life)
    requires Base(l) && Forms(l) && Tokens(l) && l.worker != []
    ensures Tokens(WorkerTook(l))
  {
    hide WorkerTook, Base, Forms, Tokens;
    if l.worker[0] == EventOf(l.self, Close) {
      TokensWorkerClose(l);
    } else {
      Popped(l.worker, EventOf(l.self, Close));
      PartsOf(l);
      TookTask(l);
      TokensKept(l, WorkerTook(l));
    }
  }

  lemma TokensArrive(l: Life, input: Input, id: nat)
    requires Base(l) && Forms(l) && Course(l) && Tokens(l) && Enabled(l, Arrive(input, id))
    ensures Tokens(Next(l, Arrive(input, id)))
  {
    hide Shape, VotesOk, Carry, Emit, Received, Cleared, CopyOf, B.Sound, B.Content, Course, Tokens;
    if !B.HasRemaining(l.conn.readBuffer) || !input.Bytes? {
      TokensCloses(l, true, id);
    } else if l.conn.canRead {
      InputReaction(l, input.bytes, id);
      TokensKept(l, Next(l, Arrive(input, id)));
    } else {
      IgnoredReaction(l, input.bytes, id);
      TokensKept(l, Next(l, Arrive(input, id)));
    }
  }

  lemma TokensSent(l: Life, chunk: seq<byte>, sent: nat)
    requires Base(l) && Forms(l) && Tokens(l) && Enabled(l, TakeWriter(chunk, Some(sent)))
    requires l.conn.canWrite && l.writer[0] == EventOf(l.self, OutboundData)
    ensures Tokens(WriterTook(l, chunk, Some(sent)))
  {
    hide Base, Forms, WriterTook, Refill, Tokens, B.Content, B.Sound;
    BuffersOf(l);
    Popped(l.writer, EventOf(l.self, Close));
    WriterSent(l, chunk, sent);
    TokensKept(l, WriterTook(l, chunk, Some(sent)));
  }

  lemma TokensGivesUp(l: Life, chunk: seq<byte>, took: Option<nat>)
    requires Base(l) && Forms(l) && Course(l) && Tokens(l) && Enabled(l, TakeWriter(chunk, took))
    requires !(l.conn.canWrite && took.Some?) && l.writer[0] == EventOf(l.self, OutboundData)
    ensures Tokens(WriterTook(l, chunk, took))
  {
    hide Base, Forms, WriterTook, Refill, CloseConnection, Carry, GivingUp, Course, Tokens, B.Content, B.Sound;
    BuffersOf(l);
    Popped(l.writer, EventOf(l.self, Close));
    TookOutbound(l, chunk, took);
    BaseGivingUp(l, chunk);
    GivingUpIs(l, chunk);
    CourseKept(l, GivingUp(l, chunk));
    TokensKept(l, GivingUp(l, chunk));
    TokensCloses(GivingUp(l, chunk), true, 0);
  }

  lemma TokensTakeWriter(l: Life, chunk: seq<byte>, took: Option<nat>)
    requires Base(l) && Forms(l) && Course(l) && Tokens(l) && Enabled(l, TakeWriter(chunk, took))
    ensures Tokens(WriterTook(l, chunk, took))
  {
    hide Base, Forms, WriterTook, MaySend, Course, Tokens;
    if l.writer[0] != EventOf(l.self, OutboundData) {
      TokensWriterClose(l, chunk, took);
    } else if l.conn.canWrite && took.Some? {
      TokensSent(l, chunk, took.value);
    } else {
      TokensGivesUp(l, chunk, took);
    }
  }

  lemma TokensWriterClose(l: Life, chunk: seq<byte>, took: Option<nat>)
    requires Base(l) && Forms(l) && Tokens(l) && Enabled(l, TakeWriter(chunk, took))
    requires l.writer[0] != EventOf(l.self, OutboundData)
    ensures Tokens(WriterTook(l, chunk, took))
  {
    hide Shape, Flags, Managers, Timely, WriterTook, ReaderForm, WorkerForm, AcceptorForm, Buffers;
    Popped(l.writer, EventOf(l.self, Close));
    TookWriterClose(l, chunk, took);
  }
}
