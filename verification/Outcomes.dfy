/** When a close leaves nothing behind: exactly when it comes after CONNECTED, while the queues take
    what the handlers report. Shown for one connection; Freeing.dfy carries it over to a pipe. */
module Outcomes {
  import opened EventModel
  import opened QueueModel
  import opened Connections
  import opened Lives
  import opened Reactions
  import opened Invariants
  import opened Closing
  import opened Streams
  import opened Endings
  import B = BufferModel

  /** The close comes after CONNECTED, the reader's and the writer's queues take events, and so does
      the worker's, or the worker has nothing to do for the connection. */
  predicate WellTimed(l: Life) {
    && l.conn.managedBy == EVERYONE && l.accepts.reader && l.accepts.writer
    && (l.accepts.worker || (l.worker == [] && !l.serving))
  }

  // ---------------------------------------------------------------- the steps that close

  /** A step that closes nothing; it may enter CONNECTED. */
  ghost predicate Plain(l: Life, m: Life) {
    var c, d := l.conn, m.conn;
    && (d.state == c.state || d.state == StateConnected) && d.log.closed == c.log.closed
    && (forall x :: (Close, x) in d.log.called <==> (Close, x) in c.log.called)
    && ((PendingClose, ReaderEvent) in d.log.called <==> (PendingClose, ReaderEvent) in c.log.called)
  }

  lemma PlainManage(l: Life)
    requires Base(l) && l.progress < 10
    ensures Plain(l, Managed(l))
  {
    hide Base, Managed;
    if InstallStep(l.progress) {
      InstallIs(l);
    } else if l.progress < 2 {
      QueuedIs(l);
    } else {
      ManagedIs(l);
    }
  }

  lemma PlainReader(l: Life)
    requires Base(l) && Forms(l) && l.reader != []
    ensures Plain(l, ReaderTook(l))
  {
    hide Base, Forms, ReaderTook;
    if l.reader[0] == DataOf(l.self) {
      TookData(l);
    } else {
      TookEvent(l);
    }
  }

  lemma PlainWorker(l: Life)
    requires Base(l) && Forms(l) && l.worker != []
    ensures Plain(l, WorkerTook(l))
  {
    hide Base, Forms, WorkerTook;
    PartsOf(l);
    if l.worker[0] == EventOf(l.self, Close) {
      TookWorkerClose(l);
    } else {
      TookTask(l);
    }
  }

  lemma PlainInterest(l: Life)
    requires Base(l)
    ensures Plain(l, Carry(l, Interest(l.conn, l.accepts), 0))
  {
    hide Base, Carry, Interest;
    BaseIs(l);
    if l.conn.canWrite {
      InterestReaction(l, 0);
    } else {
      InterestLost(l, 0);
    }
  }

  lemma PlainRead(l: Life, input: Input, id: nat)
    requires Base(l) && Buffers(l) && Enabled(l, Arrive(input, id))
    requires B.HasRemaining(l.conn.readBuffer) && input.Bytes?
    ensures Plain(l, Carry(l, ReadInput(l.conn, input, l.accepts), id))
  {
    hide Base, Buffers, Carry, ReadInput, CopyOf, Flipped, Received, B.Content, B.Sound;
    if l.conn.canRead {
      InputReaction(l, input.bytes, id);
    } else {
      IgnoredReaction(l, input.bytes, id);
    }
  }

  lemma PlainWriter(l: Life, chunk: seq<byte>, took: Option<nat>)
    requires Base(l) && Forms(l) && Enabled(l, TakeWriter(chunk, took))
    requires l.writer[0] == EventOf(l.self, OutboundData) ==> l.conn.canWrite && took.Some?
    ensures Plain(l, WriterTook(l, chunk, took))
  {
    hide Base, Forms, WriterTook, MaySend;
    BuffersOf(l);
    if l.writer[0] == EventOf(l.self, OutboundData) {
      WriterSent(l, chunk, took.value);
    } else {
      TookWriterClose(l, chunk, took);
    }
  }

  /** About to close: nothing has changed that closing depends on. */
  ghost predicate Nears(l: Life, k: Life) {
    && Base(k) && Forms(k) && Course(k) && Tokens(k)
    && k.self == l.self && k.accepts == l.accepts && k.progress == l.progress && k.worker == l.worker && k.serving == l.serving
    && k.conn.state == l.conn.state && k.conn.managedBy == l.conn.managedBy && k.conn.handlers == l.conn.handlers
    && k.conn.log.called == l.conn.log.called && k.conn.log.closed == l.conn.log.closed
  }

  lemma NearsItself(l: Life)
    requires Good(l)
    ensures Nears(l, l)
  {
    hide Base, Forms, Course, Tokens, Inbound, Interests;
  }

  lemma WriterNears(l: Life, chunk: seq<byte>, took: Option<nat>)
    requires Good(l) && Enabled(l, TakeWriter(chunk, took)) && l.writer[0] == EventOf(l.self, OutboundData)
    requires !(l.conn.canWrite && took.Some?)
    ensures var k := GivingUp(l, chunk);
      Nears(l, k) && WriterTook(l, chunk, took) == Carry(k, CloseConnection(k.conn, true, k.accepts), 0)
  {
    hide Base, Forms, Course, Tokens, Inbound, Interests, Carry, WriterTook, CloseConnection, GivingUp, MaySend;
    BuffersOf(l);
    TookOutbound(l, chunk, took);
    GivingUpKeeps(l, chunk);
    GivingUpIs(l, chunk);
  }

  /** How a step closes, if it does. */
  datatype Way = NoClosing | ClosingBy(force: bool, k: Life, id: nat)

  ghost predicate ClosesAs(l: Life, m: Life, w: Way) {
    match w
    case NoClosing => Plain(l, m)
    case ClosingBy(force, k, id) => Nears(l, k) && m == Carry(k, CloseConnection(k.conn, force, k.accepts), id)
  }

  /** Each step is a close by the user, the reader or the writer, or closes nothing. */
  lemma StepCloses(l: Life, a: Act) returns (w: Way)
    requires Good(l) && Enabled(l, a)
    ensures ClosesAs(l, Next(l, a), w)
  {
    hide Base, Forms, Course, Tokens, Inbound, Interests, Carry, Managed, ReaderTook, WorkerTook, WriterTook, ReadInput,
      Interest, CloseConnection, GivingUp, Plain, Nears, MaySend, MayReceive;
    NearsItself(l);
    BuffersOf(l);
    w := NoClosing;
    match a
    case Manage => PlainManage(l);
    case TakeReader => PlainReader(l);
    case TakeWorker => PlainWorker(l);
    case WantWrite => PlainInterest(l);
    case WantClose(force) => w := ClosingBy(force, l, 0);
    case Arrive(input, id) =>
      if B.HasRemaining(l.conn.readBuffer) && input.Bytes? {
        PlainRead(l, input, id);
      } else {
        NoInputCloses(l.conn, input, l.accepts);
        w := ClosingBy(true, l, id);
      }
    case TakeWriter(chunk, took) =>
      if l.writer[0] == EventOf(l.self, OutboundData) && !(l.conn.canWrite && took.Some?) {
        WriterNears(l, chunk, took);
        w := ClosingBy(true, GivingUp(l, chunk), 0);
      } else {
        PlainWriter(l, chunk, took);
      }
    case _ => PlainRest(l, Next(l, a));
  }

  lemma PlainRest(l: Life, m: Life)
    requires m.conn == l.conn
    ensures Plain(l, m)
  {
  }

  lemma GracefulUnclosed(l: Life, id: nat)
    requires Base(l)
    ensures Carry(l, CloseConnection(l.conn, false, l.accepts), id).conn.log.closed == l.conn.log.closed
  {
    hide Base, Carry, EnterState;
    BaseVotes(l);
    if l.conn.state == StatePendingClose {
      AlreadyClosing(l, false, id);
    } else {
      PendingReaction(l, id);
    }
  }

  /** The life when CLOSED is about to be entered for the first time. */
  ghost predicate Dooms(l: Life, k: Life) {
    Nears(l, k) && k.conn.state != StateClosed && !k.conn.log.closed
  }

  /** CLOSED is entered for the first time by a forced close, by the reader or by the writer. */
  lemma FirstClose(l: Life, a: Act) returns (k: Life, id: nat)
    requires Good(l) && Enabled(l, a) && !l.conn.log.closed && Next(l, a).conn.log.closed
    ensures Dooms(l, k) && Next(l, a) == Carry(k, EnterState(k.conn, StateClosed, k.accepts), id)
  {
    hide Base, Forms, Course, Tokens, Inbound, Interests, Carry, EnterState, Next, Enabled;
    var w := StepCloses(l, a);
    k, id := w.k, w.id;
    if !w.force {
      GracefulUnclosed(k, id);
    }
    NotClosedState(k);
  }

  lemma NotClosedState(l: Life)
    requires Base(l) && !l.conn.log.closed
    ensures l.conn.state != StateClosed
  {
    hide Shape, VotesOk, Managers, Timely;
  }

  // ---------------------------------------------------------------- who hears of a close

  /** Some handler of the reader, the worker or the writer is there for the closing state. */
  predicate Hears(c: Conn, closing: State) {
    if closing == StateClosed
    then Once(Close, ReaderEvent) in HandlersOf(c, Close) || Once(Close, WorkerClose) in HandlersOf(c, Close)
         || Once(Close, WriterEvent) in HandlersOf(c, Close)
    else closing == StatePendingClose && HandlersOf(c, PendingClose) != []
  }

  /** A step that enters a closing state while a thread's handler for it is there. */
  predicate Harms(c: Conn, d: Conn) {
    d.state != c.state && Hears(c, d.state)
  }

  lemma HearsWhen(l: Life)
    requires Base(l)
    ensures var called := l.conn.log.called; var (_, r, w, t) := Armed(l.conn, l.progress);
      && (Hears(l.conn, StateClosed) <==> r || w || t)
      && (Hears(l.conn, StatePendingClose) <==> Between(l.progress, 3) && (PendingClose, ReaderEvent) !in called)
  {
    hide Shape, VotesOk, Flags, Managers, Timely;
    ShapeAt(l.conn, l.progress, Close);
    ShapeAt(l.conn, l.progress, PendingClose);
  }

  lemma CloseTells(l: Life, force: bool, id: nat)
    requires Base(l)
    ensures var m := Carry(l, CloseConnection(l.conn, force, l.accepts), id);
      Untold(m.conn.log.called) <==> Untold(l.conn.log.called) && !Harms(l.conn, m.conn)
  {
    hide Base, Shape, VotesOk, Carry, EnterState, Hears, NoFree;
    BaseVotes(l);
    HearsWhen(l);
    if l.conn.state == (if force then StateClosed else StatePendingClose) {
      AlreadyClosing(l, force, id);
    } else if force {
      ClosedReaction(l, id);
    } else {
      PendingReaction(l, id);
    }
  }

  /** The close handlers of the threads stay uncalled until a close finds one of them. */
  lemma StepTells(l: Life, a: Act)
    requires Good(l) && Enabled(l, a)
    ensures Untold(Next(l, a).conn.log.called) <==> Untold(l.conn.log.called) && !Harms(l.conn, Next(l, a).conn)
  {
    hide Base, Forms, Course, Tokens, Inbound, Interests, Carry, CloseConnection, Next, Enabled;
    var w := StepCloses(l, a);
    if w.ClosingBy? {
      CloseTells(w.k, w.force, w.id);
      SameHears(l.conn, w.k.conn, Next(l, a).conn.state);
    }
  }

  lemma SameHears(c: Conn, d: Conn, closing: State)
    requires d.handlers == c.handlers
    ensures Hears(d, closing) <==> Hears(c, closing)
  {
  }

  /** A step from CLOSED calls no CLOSE handler. */
  lemma ClosedCallsNone(l: Life, a: Act)
    requires Good(l) && Enabled(l, a) && l.conn.state == StateClosed
    ensures forall x :: (Close, x) in Next(l, a).conn.log.called <==> (Close, x) in l.conn.log.called
  {
    hide Base, Forms, Course, Tokens, Inbound, Interests, Carry, EnterState, Next, Enabled;
    var w := StepCloses(l, a);
    if w.ClosingBy? && w.force {
      AlreadyClosing(w.k, true, w.id);
    } else if w.ClosingBy? {
      BaseVotes(w.k);
      PendingReaction(w.k, w.id);
    }
  }

  // ---------------------------------------------------------------- well timed

  lemma CloseFits(l: Life, k: Life, id: nat)
    requires Dooms(l, k) && WellTimed(l)
    ensures Fit(Carry(k, EnterState(k.conn, StateClosed, k.accepts), id))
  {
    hide Shape, VotesOk, EnterState, Carry, Buffers, WriterForm, Tokens, Flags, Timely, Voters, Mark;
    BaseVotes(k);
    EveryoneIs(k.conn.managedBy);
    NoneCalled(k);
    NoneVoted(k);
    AllGone(k.acceptor, IsData(k.self));
    ClosedReaction(k, id);
    VotersWell(k.conn, k.progress, k.accepts);
    var m, close := Carry(k, EnterState(k.conn, StateClosed, k.accepts), id), EventOf(k.self, Close);
    assert Armed(k.conn, k.progress) == (true, true, true, true);
    assert m.writer[|k.writer|] == close;
    assert m.reader == k.reader + [close] && close !in k.reader;
    assert Swept(m);
  }

  lemma VotersWell(c: Conn, progress: nat, s: Accepts)
    requires s.reader
    ensures var (a, r, w, t) := Armed(c, progress);
      forall o :: o in c.log.votes + Voters(AcceptorClose, a, s) + Voters(ReaderEvent, r, s) + Voters(WorkerClose, w, s) ==>
        o in c.log.votes || o == Acceptor || (o == Worker && !s.worker)
  {
  }

  /** Before CLOSED no CLOSE handler was called. */
  lemma NoneCalled(l: Life)
    requires Base(l) && Course(l) && !l.conn.log.closed
    ensures forall x :: (Close, x) !in l.conn.log.called
  {
    CalledClosed(l);
  }

  lemma NoneVoted(l: Life)
    requires Base(l) && Course(l) && Tokens(l) && !l.conn.log.closed
    ensures Acceptor !in l.conn.log.votes && Worker !in l.conn.log.votes && Writer !in l.conn.log.votes
    ensures l.accepts.reader ==> Reader !in l.conn.log.votes
  {
    hide Shape, Flags, Managers, Timely, Course;
    NoneCalled(l);
  }

  // ---------------------------------------------------------------- ill timed

  /** What closing does in any case. */
  ghost predicate Doomed(l: Life, m: Life) {
    var close := EventOf(l.self, Close);
    && Good(m) && m.self == l.self && m.accepts == l.accepts && m.conn.managedBy == l.conn.managedBy
    && m.conn.state == StateClosed && m.conn.log.closed
    && (!l.accepts.writer ==> !Heard(m))
    && (!l.accepts.reader ==> close !in m.reader) && (Reader in l.conn.managedBy ==> m.conn.readKey)
    && (!l.accepts.worker ==> close !in m.worker && m.worker == l.worker) && m.serving == l.serving
  }

  lemma CloseDooms(l: Life, k: Life, id: nat)
    requires Dooms(l, k) && Good(Carry(k, EnterState(k.conn, StateClosed, k.accepts), id))
    ensures Doomed(l, Carry(k, EnterState(k.conn, StateClosed, k.accepts), id))
  {
    hide Good, Shape, VotesOk, EnterState, Carry, Buffers, Tokens, Flags, Timely, Mark, Course, AcceptorForm;
    BaseVotes(k);
    NoneCalled(k);
    NoneVoted(k);
    ClosedReaction(k, id);
    WriterSilent(k.conn, k.progress, k.accepts);
  }

  lemma WriterSilent(c: Conn, progress: nat, s: Accepts)
    ensures var (a, r, w, t) := Armed(c, progress);
      Writer in c.log.votes + Voters(AcceptorClose, a, s) + Voters(ReaderEvent, r, s) + Voters(WorkerClose, w, s)
      ==> Writer in c.log.votes
  {
  }

  /** A step of the reader, the worker or the writer. */
  predicate OfThread(a: Act) {
    a.TakeReader? || a.TakeWorker? || a.Finish? || a.TakeWriter? || a.PutBack?
  }

  /** Steps of the three threads and of the hand-over alone. */
  predicate Own(acts: seq<Act>) {
    forall a <- acts :: a.Manage? || OfThread(a)
  }

  predicate LifeLegal(l: Life, acts: seq<Act>)
    decreases |acts|
  {
    acts == [] || (Enabled(l, acts[0]) && LifeLegal(Next(l, acts[0]), acts[1..]))
  }

  function LifeAfter(l: Life, acts: seq<Act>): Life
    requires LifeLegal(l, acts)
    decreases |acts|
  {
    if acts == [] then l else LifeAfter(Next(l, acts[0]), acts[1..])
  }

  lemma {:induction false} LifeJoins(l: Life, first: seq<Act>, second: seq<Act>)
    requires LifeLegal(l, first) && LifeLegal(LifeAfter(l, first), second)
    ensures LifeLegal(l, first + second) && LifeAfter(l, first + second) == LifeAfter(LifeAfter(l, first), second)
    decreases |first|
  {
    hide Enabled, Next;
    if first == [] {
      assert first + second == second;
    } else {
      LifeJoins(Next(l, first[0]), first[1..], second);
      assert (first + second)[1..] == first[1..] + second;
    }
  }

  lemma LifeFirst(l: Life, a: Act, rest: seq<Act>)
    requires Enabled(l, a) && LifeLegal(Next(l, a), rest)
    ensures LifeLegal(l, [a] + rest) && LifeAfter(l, [a] + rest) == LifeAfter(Next(l, a), rest)
  {
    hide Enabled, Next;
    assert ([a] + rest)[1..] == rest;
  }

  /** Emptying the reader's queue of a closed and connected connection. */
  ghost predicate ReaderDrained(l: Life, m: Life) {
    && Good(m) && m.reader == [] && m.conn.state == l.conn.state && m.conn.managedBy == l.conn.managedBy
    && m.self == l.self && m.worker == l.worker && m.writer == l.writer && m.serving == l.serving && m.resend == l.resend
    && (Writer in m.conn.log.votes <==> Writer in l.conn.log.votes)
    && (EventOf(l.self, Close) !in l.reader ==> m.conn.readKey == l.conn.readKey)
  }

  lemma {:induction false} DrainReader(l: Life) returns (acts: seq<Act>)
    requires Good(l) && l.conn.managedBy == EVERYONE
    ensures (forall a <- acts :: OfThread(a)) && LifeLegal(l, acts) && ReaderDrained(l, LifeAfter(l, acts))
    decreases |l.reader|
  {
    hide Good, Next;
    acts := [];
    if l.reader != [] {
      var m := ReaderDrains(l);
      var rest := DrainReader(m);
      LifeFirst(l, TakeReader, rest);
      acts := [TakeReader] + rest;
    }
  }

  lemma ReaderDrains(l: Life) returns (m: Life)
    requires Good(l) && l.conn.managedBy == EVERYONE && l.reader != []
    ensures Enabled(l, TakeReader) && m == Next(l, TakeReader) && Good(m) && m.conn.managedBy == EVERYONE
    ensures m == l.(reader := l.reader[1..], conn := m.conn, load := m.load) && m.conn.state == l.conn.state
    ensures Writer in m.conn.log.votes <==> Writer in l.conn.log.votes
    ensures EventOf(l.self, Close) !in l.reader ==> m.conn.readKey == l.conn.readKey && EventOf(l.self, Close) !in m.reader
  {
    hide Base, WorkerForm, WriterForm, AcceptorForm, Buffers, Course, Tokens, Inbound, Interests, ReaderTook;
    m := ReaderTook(l);
    GoodKeeps(l, TakeReader);
    EveryoneIs(l.conn.managedBy);
    FirstIn(l.reader);
    TookEvent(l);
  }

  ghost predicate WorkerDrained(l: Life, m: Life) {
    && Good(m) && m.worker == [] && !m.serving && m.conn.state == l.conn.state && m.conn.managedBy == l.conn.managedBy
    && m.self == l.self && m.reader == l.reader && m.writer == l.writer && m.resend == l.resend
    && (Writer in m.conn.log.votes <==> Writer in l.conn.log.votes) && m.conn.readKey == l.conn.readKey
  }

  lemma {:induction false} DrainWorker(l: Life) returns (acts: seq<Act>)
    requires Good(l)
    ensures (forall a <- acts :: OfThread(a)) && LifeLegal(l, acts) && WorkerDrained(l, LifeAfter(l, acts))
    decreases |l.worker|, l.serving
  {
    hide Good, Next;
    acts := [];
    if l.serving || l.worker != [] {
      var a, m := WorkerDrains(l);
      var rest := DrainWorker(m);
      LifeFirst(l, a, rest);
      acts := [a] + rest;
    }
  }

  lemma WorkerDrains(l: Life) returns (a: Act, m: Life)
    requires Good(l) && (l.serving || l.worker != [])
    ensures (a == Finish || a == TakeWorker) && Enabled(l, a) && m == Next(l, a) && Good(m)
    ensures m == l.(worker := m.worker, serving := m.serving, conn := m.conn)
    ensures m.conn.state == l.conn.state && m.conn.managedBy == l.conn.managedBy && m.conn.readKey == l.conn.readKey
    ensures Writer in m.conn.log.votes <==> Writer in l.conn.log.votes
    ensures |m.worker| < |l.worker| || (m.worker == l.worker && l.serving && !m.serving)
  {
    hide Base, Forms, Course, Tokens, Inbound, Interests, WorkerTook;
    a := if l.serving then Finish else TakeWorker;
    m := Next(l, a);
    GoodKeeps(l, a);
    if !l.serving {
      PartsOf(l);
      if l.worker[0] == EventOf(l.self, Close) {
        TookWorkerClose(l);
      } else {
        TookTask(l);
      }
    }
  }

  ghost predicate WriterDrained(l: Life, m: Life) {
    && Good(m) && m.writer == [] && !m.resend && m.self == l.self && m.reader == l.reader && m.worker == l.worker
    && m.serving == l.serving && m.conn.readKey == l.conn.readKey
  }

  lemma {:induction false} DrainWriter(l: Life) returns (acts: seq<Act>)
    requires Good(l) && l.conn.state == StateClosed
    ensures (forall a <- acts :: OfThread(a)) && LifeLegal(l, acts) && WriterDrained(l, LifeAfter(l, acts))
    decreases |l.writer| + if l.resend then 2 else 0
  {
    hide Good, Next;
    acts := [];
    if l.resend || l.writer != [] {
      var a, m := WriterDrains(l);
      var rest := DrainWriter(m);
      LifeFirst(l, a, rest);
      acts := [a] + rest;
    }
  }

  lemma WriterDrains(l: Life) returns (a: Act, m: Life)
    requires Good(l) && l.conn.state == StateClosed && (l.resend || l.writer != [])
    ensures (a == PutBack || a == TakeWriter([], None)) && Enabled(l, a) && m == Next(l, a) && Good(m)
    ensures m == l.(writer := m.writer, resend := false, conn := m.conn)
    ensures m.conn.state == StateClosed && m.conn.readKey == l.conn.readKey
    ensures if l.resend then |m.writer| <= |l.writer| + 1 else |m.writer| < |l.writer|
  {
    hide Base, Forms, Course, Tokens, Inbound, Interests, WriterTook, CloseConnection, Carry;
    a := if l.resend then PutBack else TakeWriter([], None);
    m := Next(l, a);
    GoodKeeps(l, a);
    if !l.resend {
      BuffersOf(l);
      ClosedFlags(l);
      if l.writer[0] == EventOf(l.self, OutboundData) {
        TookOutbound(l, [], None);
        AlreadyClosing(GivingUp(l, []), true, 0);
      } else {
        TookWriterClose(l, [], None);
      }
    }
  }

  lemma ClosedFlags(l: Life)
    requires Base(l) && l.conn.state == StateClosed
    ensures !l.conn.canRead && !l.conn.canWrite
  {
    hide Shape, VotesOk, Managers, Timely;
  }

  lemma CloseGone(l: Life)
    ensures l.reader == [] ==> EventOf(l.self, Close) !in l.reader
    ensures l.worker == [] ==> EventOf(l.self, Close) !in l.worker
    ensures l.writer == [] ==> EventOf(l.self, Close) !in l.writer
  {
  }

  lemma Unfreed(l: Life)
    requires Good(l) && Writer !in l.conn.log.votes
    ensures l.conn.log.frees == []
  {
    hide Forms, Course, Tokens, Inbound, Interests, Shape, Flags, Managers, Timely;
  }

  /** The writer never hears of the close: it never votes. */
  lemma SpoilsWriter(l: Life, m: Life) returns (acts: seq<Act>)
    requires Doomed(l, m) && l.conn.managedBy == EVERYONE && !l.accepts.writer
    ensures Own(acts) && LifeLegal(m, acts) && !Clean(LifeAfter(m, acts))
  {
    hide Good, LifeAfter, LifeLegal;
    var first := DrainReader(m);
    var second := DrainWorker(LifeAfter(m, first));
    LifeJoins(m, first, second);
    acts := first + second;
    var u := LifeAfter(m, acts);
    CloseGone(u);
    Unfreed(u);
  }

  /** The reader's handler has voted at once: its key stays behind. */
  lemma SpoilsReader(l: Life, m: Life) returns (acts: seq<Act>)
    requires Doomed(l, m) && l.conn.managedBy == EVERYONE && !l.accepts.reader
    ensures Own(acts) && LifeLegal(m, acts) && !Clean(LifeAfter(m, acts))
  {
    hide Good, LifeAfter, LifeLegal;
    EveryoneIs(l.conn.managedBy);
    var first := DrainReader(m);
    var second := DrainWorker(LifeAfter(m, first));
    LifeJoins(m, first, second);
    var third := DrainWriter(LifeAfter(m, first + second));
    LifeJoins(m, first + second, third);
    acts := first + second + third;
    CloseGone(LifeAfter(m, acts));
  }

  /** The worker's handler has voted at once: what the worker has to do for it stays behind. */
  lemma SpoilsWorker(l: Life, m: Life) returns (acts: seq<Act>)
    requires Doomed(l, m) && l.conn.managedBy == EVERYONE && !l.accepts.worker && (l.worker != [] || l.serving)
    ensures Own(acts) && LifeLegal(m, acts) && !Clean(LifeAfter(m, acts))
  {
    hide Good, LifeAfter, LifeLegal;
    var first := DrainReader(m);
    var second := DrainWriter(LifeAfter(m, first));
    LifeJoins(m, first, second);
    acts := first + second;
    CloseGone(LifeAfter(m, acts));
  }

  /** The hand-over of a connection that was closed before CONNECTED goes on: it becomes CONNECTED
      after all, unless the reader's queue refused it; then it is never freed. */
  lemma {:induction false} SpoilsRash(l: Life) returns (acts: seq<Act>)
    requires Good(l) && l.conn.log.closed && l.conn.managedBy != EVERYONE
    ensures Own(acts) && LifeLegal(l, acts) && !Clean(LifeAfter(l, acts))
    decreases if l.progress < 10 then 10 - l.progress else 0
  {
    hide Good, Next;
    acts := [];
    if l.progress < 10 {
      var m := ManageStep(l);
      if m.conn.managedBy == EVERYONE {
        LifeFirst(l, Manage, []);
        acts := [Manage];
      } else {
        var rest := SpoilsRash(m);
        LifeFirst(l, Manage, rest);
        acts := [Manage] + rest;
      }
    } else if l.progress == 10 {
      var m := TakenOn(l);
      LifeFirst(l, TakeReader, []);
      acts := [TakeReader];
    } else {
      Abandoned(l);
    }
  }

  lemma ManageStep(l: Life) returns (m: Life)
    requires Good(l) && l.conn.managedBy != EVERYONE && l.progress < 10
    ensures Enabled(l, Manage) && m == Next(l, Manage) && Good(m) && m.conn.log.closed == l.conn.log.closed
    ensures m.progress == l.progress + 1 || m.progress == 11
    ensures m.conn.managedBy == EVERYONE ==> m.conn.state == StateConnected
  {
    hide Base, Forms, Course, Tokens, Inbound, Interests, Managed;
    m := Managed(l);
    GoodKeeps(l, Manage);
    PlainManage(l);
    if InstallStep(l.progress) {
      InstallIs(l);
    } else if l.progress < 2 {
      QueuedIs(l);
    } else {
      ManagedIs(l);
    }
  }

  lemma TakenOn(l: Life) returns (m: Life)
    requires Good(l) && l.conn.managedBy != EVERYONE && l.progress == 10
    ensures Enabled(l, TakeReader) && m == Next(l, TakeReader) && m.conn.state == StateConnected
  {
    hide WorkerForm, WriterForm, AcceptorForm, Buffers, Course, Tokens, Inbound, Interests, ReaderTook, Shape, VotesOk,
      Flags, Timely;
    EveryoneIs(l.conn.managedBy);
    FirstIn(l.reader);
    m := ReaderTook(l);
    TookData(l);
    EveryoneIs(m.conn.managedBy);
  }

  lemma Abandoned(l: Life)
    requires Good(l) && l.progress > 10
    ensures !Clean(l)
  {
    hide Course, Inbound, Interests, Shape, Flags, Managers, Buffers, AcceptorForm;
  }

  /** Whatever made it ill timed, the threads alone bring about a state that is not clean. */
  lemma Spoils(l: Life, m: Life) returns (acts: seq<Act>)
    requires Doomed(l, m) && !WellTimed(l)
    ensures Own(acts) && LifeLegal(m, acts) && !Clean(LifeAfter(m, acts))
  {
    hide Good, LifeAfter, LifeLegal, Clean, Heard;
    if l.conn.managedBy != EVERYONE {
      acts := SpoilsRash(m);
    } else if !l.accepts.writer {
      acts := SpoilsWriter(l, m);
    } else if !l.accepts.reader {
      acts := SpoilsReader(l, m);
    } else {
      acts := SpoilsWorker(l, m);
    }
  }
}
