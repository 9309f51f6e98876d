/** How a life goes on after CLOSED and PENDING_CLOSE: what stays as it is at the close, and when the
    close leaves nothing behind. */
module Endings {
  import opened EventModel
  import opened QueueModel
  import opened Connections
  import opened Lives
  import opened Reactions
  import opened Invariants
  import opened Closing
  import opened Streams
  import B = BufferModel

  /** The writer got, or handled, the connection's CLOSE. */
  predicate Heard(l: Life) {
    EventOf(l.self, Close) in l.writer || Writer in l.conn.log.votes
  }

  /** Closing gracefully, after CONNECTED. */
  predicate Draining(l: Life) {
    l.conn.state == StatePendingClose && l.conn.log.connects == 1
  }

  /** While draining, each event handled completely is one that waits less and one shutdown more. */
  function Balance(l: Life): int {
    Waiting(l) + l.conn.log.shutdowns - l.conn.log.interests
  }

  /** What a step cannot take back. */
  ghost predicate Onward(l: Life, m: Life) {
    var c, d := l.conn.log, m.conn.log;
    && m.self == l.self && Opener(l.accepts, m.accepts) && c.connects <= d.connects && (c.closed ==> d.closed)
    && (c.connects > 0 ==> d.rash == c.rash) && c.shutdowns <= d.shutdowns && c.interests <= d.interests
    && ((Close, WriterEvent) in c.called ==> (Close, WriterEvent) in d.called && (Heard(m) <==> Heard(l)))
    && (Draining(l) && !d.closed && m.accepts.writer ==> Draining(m) && Balance(m) == Balance(l))
  }

  /** Nothing changed that this depends on. */
  ghost predicate SameEnding(l: Life, m: Life) {
    var c, d, close := l.conn.log, m.conn.log, EventOf(l.self, Close);
    && m.self == l.self && Opener(l.accepts, m.accepts) && d.connects == c.connects && d.closed == c.closed
    && d.rash == c.rash
    && m.conn.state == l.conn.state && d.shutdowns == c.shutdowns && d.interests == c.interests
    && ((Close, WriterEvent) in d.called <==> (Close, WriterEvent) in c.called)
    && (close in m.writer <==> close in l.writer) && (Writer in d.votes <==> Writer in c.votes)
    && (m.accepts.writer ==> Waiting(m) == Waiting(l))
  }

  lemma OnwardSame(l: Life, m: Life)
    requires SameEnding(l, m)
    ensures Onward(l, m)
  {
    hide Waiting;
  }

  lemma OnwardTwice(l: Life, k: Life, m: Life)
    requires Onward(l, k) && Onward(k, m)
    ensures Onward(l, m)
  {
    hide Waiting, Heard;
  }

  lemma OnwardCloses(l: Life, force: bool, id: nat)
    requires Base(l) && Course(l) && Tokens(l)
    ensures Onward(l, Carry(l, CloseConnection(l.conn, force, l.accepts), id))
  {
    hide Base, Shape, VotesOk, EnterState, Carry, Without, Waiting;
    BaseVotes(l);
    if l.conn.state == (if force then StateClosed else StatePendingClose) {
      AlreadyClosing(l, force, id);
      OnwardSame(l, l);
    } else if force {
      ClosedReaction(l, id);
    } else {
      PendingReaction(l, id);
      var m := Carry(l, CloseConnection(l.conn, force, l.accepts), id);
      assert Waiting(m) == Waiting(l) by {
        SameWaiting(l, m);
      }
    }
  }

  lemma SameWaiting(l: Life, m: Life)
    requires m.self == l.self && m.writer == l.writer && m.resend == l.resend
    ensures Waiting(m) == Waiting(l)
  {
  }

  lemma SameHeard(l: Life, m: Life)
    requires m.self == l.self && m.writer == l.writer && (Writer in m.conn.log.votes <==> Writer in l.conn.log.votes)
    ensures Heard(m) <==> Heard(l)
  {
  }

  lemma BaseVotes(l: Life)
    requires Base(l)
    ensures VotesOk(l.conn) && Shape(l.conn, l.progress)
  {
  }

  lemma OnwardInterest(l: Life)
    requires Base(l)
    ensures Onward(l, Carry(l, Interest(l.conn, l.accepts), 0))
  {
    hide Base, Carry, Interest;
    BaseIs(l);
    if l.conn.canWrite {
      InterestReaction(l, 0);
    } else {
      InterestLost(l, 0);
    }
  }

  lemma OnwardInstall(l: Life)
    requires InstallStep(l.progress)
    ensures SameEnding(l, Managed(l))
  {
    hide Managed, Waiting;
    InstallIs(l);
    SameWaiting(l, Managed(l));
  }

  lemma OnwardQueued(l: Life)
    requires l.progress < 2
    ensures SameEnding(l, Managed(l))
  {
    hide Managed, Waiting;
    QueuedIs(l);
    SameWaiting(l, Managed(l));
  }

  lemma OnwardManagedBy(l: Life)
    requires Base(l) && (l.progress == 6 || l.progress == 9)
    ensures Onward(l, Managed(l))
  {
    hide Base, Managed, Waiting, Heard;
    ManagedIs(l);
    SameWaiting(l, Managed(l));
    SameHeard(l, Managed(l));
  }

  lemma OnwardManage(l: Life)
    requires Base(l) && l.progress < 10
    ensures Onward(l, Managed(l))
  {
    hide Base, Managed, SameEnding, Onward;
    if InstallStep(l.progress) {
      OnwardInstall(l);
      OnwardSame(l, Managed(l));
    } else if l.progress < 2 {
      OnwardQueued(l);
      OnwardSame(l, Managed(l));
    } else {
      OnwardManagedBy(l);
    }
  }

  lemma OnwardTookData(l: Life)
    requires Base(l) && Forms(l) && l.reader != [] && l.reader[0] == DataOf(l.self)
    ensures Onward(l, ReaderTook(l))
  {
    hide Base, Forms, ReaderTook, Waiting, Heard;
    TookData(l);
    SameWaiting(l, ReaderTook(l));
    SameHeard(l, ReaderTook(l));
  }

  lemma OnwardTookEvent(l: Life)
    requires Base(l) && Forms(l) && l.reader != [] && l.reader[0] != DataOf(l.self)
    ensures SameEnding(l, ReaderTook(l))
  {
    hide Base, Forms, ReaderTook, Waiting;
    TookEvent(l);
    SameWaiting(l, ReaderTook(l));
  }

  lemma OnwardTakeReader(l: Life)
    requires Base(l) && Forms(l) && l.reader != []
    ensures Onward(l, ReaderTook(l))
  {
    hide Base, Forms, ReaderTook, SameEnding, Onward;
    if l.reader[0] == DataOf(l.self) {
      OnwardTookData(l);
    } else {
      OnwardTookEvent(l);
      OnwardSame(l, ReaderTook(l));
    }
  }

  lemma OnwardTakeWorker(l: Life)
    requires Base(l) && Forms(l) && l.worker != []
    ensures Onward(l, WorkerTook(l))
  {
    hide Base, Forms, WorkerTook, Waiting;
    PartsOf(l);
    if l.worker[0] == EventOf(l.self, Close) {
      TookWorkerClose(l);
    } else {
      TookTask(l);
    }
    SameWaiting(l, WorkerTook(l));
  }

  lemma OnwardReads(l: Life, input: Input, id: nat)
    requires Base(l) && Buffers(l) && Enabled(l, Arrive(input, id))
    requires B.HasRemaining(l.conn.readBuffer) && input.Bytes?
    ensures SameEnding(l, Carry(l, ReadInput(l.conn, input, l.accepts), id))
  {
    hide Base, Buffers, Carry, ReadInput, Waiting, CopyOf, Flipped, Received, B.Content, B.Sound;
    if l.conn.canRead {
      InputReaction(l, input.bytes, id);
    } else {
      IgnoredReaction(l, input.bytes, id);
    }
    SameWaiting(l, Carry(l, ReadInput(l.conn, input, l.accepts), id));
  }

  lemma OnwardArrive(l: Life, input: Input, id: nat)
    requires Good(l) && Enabled(l, Arrive(input, id))
    ensures Onward(l, Next(l, Arrive(input, id)))
  {
    hide Base, Forms, Course, Tokens, Inbound, Interests, Carry, ReadInput, CloseConnection, SameEnding, Onward, B.Sound;
    BuffersOf(l);
    if !B.HasRemaining(l.conn.readBuffer) || !input.Bytes? {
      NoInputCloses(l.conn, input, l.accepts);
      OnwardCloses(l, true, id);
    } else {
      OnwardReads(l, input, id);
      OnwardSame(l, Next(l, Arrive(input, id)));
    }
  }

  lemma OnwardSent(l: Life, chunk: seq<byte>, sent: nat)
    requires Forms(l) && Enabled(l, TakeWriter(chunk, Some(sent)))
    requires l.conn.canWrite && l.writer[0] == EventOf(l.self, OutboundData)
    ensures Onward(l, WriterTook(l, chunk, Some(sent)))
  {
    hide Forms, WriterTook, Refill, B.Content, B.Sound;
    BuffersOf(l);
    Popped(l.writer, EventOf(l.self, OutboundData));
    Popped(l.writer, EventOf(l.self, Close));
    NotResending(l, chunk, Some(sent));
    WriterSent(l, chunk, sent);
  }

  lemma NotResending(l: Life, chunk: seq<byte>, took: Option<nat>)
    requires Enabled(l, TakeWriter(chunk, took))
    ensures !l.resend
  {
  }

  lemma OnwardGivesUp(l: Life, chunk: seq<byte>, took: Option<nat>)
    requires Good(l) && Enabled(l, TakeWriter(chunk, took))
    requires !(l.conn.canWrite && took.Some?) && l.writer[0] == EventOf(l.self, OutboundData)
    ensures Onward(l, WriterTook(l, chunk, took))
  {
    hide Base, Forms, Course, Tokens, WriterTook, CloseConnection, Carry, GivingUp, Waiting;
    BuffersOf(l);
    TookOutbound(l, chunk, took);
    GivingUpKeeps(l, chunk);
    var k := GivingUp(l, chunk);
    OnwardCloses(k, true, 0);
    ForcedCloses(k);
    GivingUpIs(l, chunk);
    Popped(l.writer, EventOf(l.self, Close));
  }

  /** A forced close ends in CLOSED. */
  lemma ForcedCloses(l: Life)
    requires Base(l)
    ensures Carry(l, CloseConnection(l.conn, true, l.accepts), 0).conn.log.closed
  {
    hide Shape, VotesOk, Carry, EnterState, Managers, Timely;
    if l.conn.state == StateClosed {
      AlreadyClosing(l, true, 0);
    } else {
      ClosedReaction(l, 0);
    }
  }

  /** Giving up keeps all that is known of a life but the accounts. */
  lemma GivingUpKeeps(l: Life, chunk: seq<byte>)
    requires Good(l) && l.writer != [] && l.writer[0] == EventOf(l.self, OutboundData)
    ensures var k := GivingUp(l, chunk); Base(k) && Forms(k) && Course(k) && Tokens(k)
  {
    hide Base, Forms, Course, Tokens, GivingUp;
    BaseGivingUp(l, chunk);
    BuffersOf(l);
    GivingUpIs(l, chunk);
    Popped(l.writer, EventOf(l.self, Close));
    CourseKept(l, GivingUp(l, chunk));
    TokensKept(l, GivingUp(l, chunk));
  }

  lemma OnwardWriterClose(l: Life, chunk: seq<byte>, took: Option<nat>)
    requires Good(l) && Enabled(l, TakeWriter(chunk, took)) && l.writer[0] != EventOf(l.self, OutboundData)
    ensures Onward(l, WriterTook(l, chunk, took))
  {
    hide Shape, VotesOk, Managers, WriterTook, ReaderForm, WorkerForm, AcceptorForm, Buffers, Waiting, Tokens;
    FirstIn(l.writer);
    TookWriterClose(l, chunk, took);
    CalledClosed(l);
  }

  /** A CLOSE handler was called only after CLOSED. */
  lemma CalledClosed(l: Life)
    requires Base(l) && Course(l)
    ensures forall x :: (Close, x) in l.conn.log.called ==> l.conn.log.closed
  {
    hide Shape, Flags, Managers, Timely;
  }

  lemma OnwardPutBack(l: Life)
    requires l.resend
    ensures Onward(l, Next(l, PutBack))
  {
  }

  lemma OnwardTakeWriter(l: Life, chunk: seq<byte>, took: Option<nat>)
    requires Good(l) && Enabled(l, TakeWriter(chunk, took))
    ensures Onward(l, WriterTook(l, chunk, took))
  {
    hide Base, Forms, WriterTook, MaySend, Onward;
    if l.writer[0] != EventOf(l.self, OutboundData) {
      OnwardWriterClose(l, chunk, took);
    } else if l.conn.canWrite && took.Some? {
      OnwardSent(l, chunk, took.value);
    } else {
      OnwardGivesUp(l, chunk, took);
    }
  }

  /** No step takes back what was reached: whether the writer hears of the close is settled by the
      dispatch of CLOSE, and a graceful close turns what waits into shutdowns one by one. */
  lemma OnwardKeeps(l: Life, a: Act)
    requires Good(l) && Enabled(l, a)
    ensures Onward(l, Next(l, a))
  {
    hide Base, Forms, Course, Tokens, Onward, Carry, Managed, ReaderTook, WorkerTook, WriterTook, ReadInput,
      CloseConnection, Interest, Waiting;
    match a
    case Manage => OnwardManage(l);
    case TakeReader => OnwardTakeReader(l);
    case Arrive(input, id) => OnwardArrive(l, input, id);
    case TakeWorker => OnwardTakeWorker(l);
    case TakeWriter(chunk, took) => OnwardTakeWriter(l, chunk, took);
    case WantWrite => OnwardInterest(l);
    case WantClose(force) => OnwardCloses(l, force, 0);
    case PutBack => OnwardPutBack(l);
    case _ =>
      SameWaiting(l, Next(l, a));
      OnwardSame(l, Next(l, a));
  }

  // ---------------------------------------------------------------- a close that leaves nothing behind

  predicate NoCloseLeft(l: Life) {
    var close := EventOf(l.self, Close);
    close !in l.reader && close !in l.worker && close !in l.writer
  }

  /** Nothing about the connection is queued or in a thread's hands, its key is gone, and its
      hand-over is over. */
  predicate Vanished(l: Life) {
    && l.acceptor == [] && l.reader == [] && l.worker == [] && l.writer == [] && !l.serving && !l.resend
    && !l.conn.readKey && l.progress == 10 && l.conn.state == StateClosed
  }

  /** A closed connection stays closed, is freed once its CLOSE events are handled, and when it is
      freed nothing of it is left. */
  predicate Clean(l: Life) {
    && l.conn.state != StateConnected
    && (NoCloseLeft(l) ==> l.conn.log.frees != []) && (l.conn.log.frees != [] ==> Vanished(l))
  }

  /** Whoever has voted keeps nothing about the connection, and the reader will hear of nothing after
      the CLOSE. */
  ghost predicate Swept(l: Life) {
    var v, close := l.conn.log.votes, EventOf(l.self, Close);
    && (Acceptor in v ==> l.acceptor == [])
    && (Reader in v ==> l.reader == [] && !l.conn.readKey)
    && (Worker in v ==> l.worker == [] && !l.serving)
    && (Writer in v ==> l.writer == [] && !l.resend)
    && (forall i :: 0 <= i < |l.reader| - 1 ==> l.reader[i] != close)
  }

  /** Closed after CONNECTED, with all four owners bound to let go in the right way. */
  ghost predicate Fit(l: Life) {
    l.conn.log.closed && !l.conn.log.rash && !l.conn.log.reopened && Swept(l) && Heard(l)
  }

  lemma FitIs(l: Life)
    requires Base(l) && Course(l) && Fit(l)
    ensures l.conn.state == StateClosed && l.progress == 10 && !l.conn.canRead && !l.conn.canWrite
    ensures AllCalled(l.conn.log.called) && Reader in l.conn.managedBy
  {
    hide Shape, VotesOk, Swept, Heard, Timely;
    EveryoneIs(l.conn.managedBy);
  }

  lemma FitIsClean(l: Life)
    requires Good(l) && Fit(l)
    ensures Clean(l)
  {
    hide Shape, Forms, Flags, Managers, Timely, Inbound, Interests, Course;
    FitIs(l);
  }

  /** Nothing that was swept came back. */
  ghost predicate SameFit(l: Life, m: Life) {
    var c, d := l.conn.log, m.conn.log;
    && m.self == l.self && m.acceptor == l.acceptor && m.reader == l.reader && m.worker == l.worker
    && m.conn.readKey == l.conn.readKey && (m.serving ==> l.serving)
    && d.votes == c.votes && d.closed == c.closed && d.rash == c.rash && d.reopened == c.reopened
    && m.writer == l.writer && m.resend == l.resend
  }

  lemma FitKept(l: Life, m: Life)
    requires Fit(l) && SameFit(l, m)
    ensures Fit(m)
  {
  }

  lemma FitTakeReader(l: Life)
    requires Base(l) && Forms(l) && Course(l) && Tokens(l) && Fit(l) && l.reader != []
    ensures Fit(ReaderTook(l))
  {
    hide Base, Tokens, Course, WorkerForm, WriterForm, AcceptorForm, Buffers, ReaderTook;
    FitIs(l);
    FirstIn(l.reader);
    TookEvent(l);
  }

  lemma FitTakeWorker(l: Life)
    requires Base(l) && Forms(l) && Course(l) && Tokens(l) && Fit(l) && l.worker != [] && !l.serving
    ensures Fit(WorkerTook(l))
  {
    hide Base, Tokens, Course, Forms, WorkerTook;
    PartsOf(l);
    if l.worker[0] == EventOf(l.self, Close) {
      TookWorkerClose(l);
    } else {
      TookTask(l);
    }
  }

  lemma FitArrive(l: Life, input: Input, id: nat)
    requires Base(l) && Forms(l) && Course(l) && Fit(l) && Enabled(l, Arrive(input, id))
    ensures Fit(Next(l, Arrive(input, id)))
  {
    hide Base, Forms, Course, Fit, Carry, ReadInput, CloseConnection, B.Sound;
    FitIs(l);
    BuffersOf(l);
    if !B.HasRemaining(l.conn.readBuffer) || !input.Bytes? {
      NoInputCloses(l.conn, input, l.accepts);
      AlreadyClosing(l, true, id);
    } else {
      IgnoredReaction(l, input.bytes, id);
      FitKept(l, Next(l, Arrive(input, id)));
    }
  }

  lemma FitTakeWriter(l: Life, chunk: seq<byte>, took: Option<nat>)
    requires Base(l) && Forms(l) && Course(l) && Tokens(l) && Fit(l) && Enabled(l, TakeWriter(chunk, took))
    ensures Fit(WriterTook(l, chunk, took))
  {
    hide Base, Forms, Tokens, Course, WriterTook, CloseConnection, Carry, MaySend;
    FitIs(l);
    BuffersOf(l);
    Popped(l.writer, EventOf(l.self, Close));
    if l.writer[0] == EventOf(l.self, OutboundData) {
      TookOutbound(l, chunk, took);
      AlreadyClosing(GivingUp(l, chunk), true, 0);
    } else {
      TookWriterClose(l, chunk, took);
    }
  }

  lemma FitRest(l: Life, m: Life)
    requires Fit(l) && m.conn == l.conn && m.self == l.self && m.acceptor == l.acceptor && m.reader == l.reader
    requires m.worker == l.worker && (m.serving ==> l.serving)
    requires (m.writer == l.writer && m.resend == l.resend)
      || (l.resend && !m.resend && (m.writer == l.writer || m.writer == l.writer + [EventOf(l.self, OutboundData)]))
    ensures Fit(m)
  {
  }

  /** No step but a graceful close undoes it; an EXIT after the close does no harm. */
  lemma FitKeeps(l: Life, a: Act)
    requires Good(l) && Fit(l) && Enabled(l, a) && a != WantClose(false)
    ensures Fit(Next(l, a))
  {
    hide Base, Forms, Course, Tokens, Inbound, Interests, Fit, Carry, Managed, ReaderTook, WorkerTook, WriterTook,
      ReadInput, CloseConnection, Interest;
    FitIs(l);
    match a
    case TakeReader => FitTakeReader(l);
    case Arrive(input, id) => FitArrive(l, input, id);
    case TakeWorker => FitTakeWorker(l);
    case TakeWriter(chunk, took) => FitTakeWriter(l, chunk, took);
    case WantWrite => InterestLost(l, 0);
    case WantClose(force) => AlreadyClosing(l, true, 0);
    case Finish => FitRest(l, Next(l, a));
    case PutBack => FitRest(l, Next(l, a));
    case Exit(_) => FitRest(l, Next(l, a));
  }
}
