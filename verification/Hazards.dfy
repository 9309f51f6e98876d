/** Where the protocol does not keep its promises: for each condition of the theorems a run of a new
    pipe that breaks it, and what comes of it. */
module Hazards {
  import opened EventModel
  import opened QueueModel
  import opened Connections
  import opened Lives
  import opened Reactions
  import opened Invariants
  import opened Closing
  import opened Streams
  import opened Endings
  import opened Outcomes
  import opened Pipes
  import opened Projection
  import opened Refinement
  import opened Holdings
  import opened Runs
  import opened Realization
  import opened Theorems
  import opened Freeing
  import B = BufferModel

  const RUNNING := Accepts(true, true, true)

  /** A life from the birth on, without reads. */
  ghost predicate Led(c: nat, size: nat, acts: seq<Act>, l: Life) {
    && LifeLegal(Born(c, size, RUNNING), acts) && l == LifeAfter(Born(c, size, RUNNING), acts) && Good(l)
    && (forall a <- acts :: !a.Arrive?)
  }

  lemma IsBorn(c: nat, size: nat)
    ensures Led(c, size, [], Born(c, size, RUNNING))
  {
    hide Good, Born;
    GoodBorn(c, size, RUNNING);
  }

  lemma GoesOn(c: nat, size: nat, acts: seq<Act>, l: Life, a: Act)
    requires Led(c, size, acts, l) && Enabled(l, a) && !a.Arrive?
    ensures Led(c, size, acts + [a], Next(l, a))
  {
    hide Good, Born, Enabled, Next;
    assert [a][1..] == [];
    LifeJoins(Born(c, size, RUNNING), acts, [a]);
    GoodKeeps(l, a);
  }

  /** The run of a pipe that leads to `l`. */
  ghost predicate ComesTo(size: nat, moves: seq<Move>, c: nat, l: Life) {
    && Legal(NewPipe(size), moves) && c in After(NewPipe(size), moves).members
    && View(After(NewPipe(size), moves), c) == l
  }

  lemma RunOf(c: nat, size: nat, acts: seq<Act>, l: Life) returns (moves: seq<Move>)
    requires Led(c, size, acts, l)
    ensures ComesTo(size, moves, c, l)
  {
    hide Good, Born, View, NewPipe, LifeLegal, LifeAfter, Legal, After;
    moves := LivesAreReached(size, c, acts);
  }

  // ---------------------------------------------------------------- the hand-over, and CONNECTED

  /** Being handed over, and otherwise as it was at first. */
  ghost predicate Handing(first: Life, l: Life, n: nat) {
    && l.self == first.self && l.accepts == RUNNING && l.progress == n
    && l.conn.state == first.conn.state && l.conn.log == first.conn.log && Reader !in l.conn.managedBy
    && l.reader == (if n >= 2 then [DataOf(l.self)] else []) && l.worker == [] && l.writer == [] && !l.serving && !l.resend
  }

  /** Just accepted, and nothing done yet. */
  ghost predicate New(l: Life) {
    && Handing(l, l, 0) && l.conn.state == StateInitialized
    && !l.conn.log.closed && l.conn.log.votes == [] && l.conn.log.called == {}
    && l.conn.log.interests == 0 && l.conn.log.shutdowns == 0 && l.conn.log.received == [] && l.conn.log.delivered == []
  }

  lemma BornNew(c: nat, size: nat)
    ensures New(Born(c, size, RUNNING)) && Born(c, size, RUNNING).self == c
  {
    hide NewConnection;
    NewbornIs(size);
  }

  lemma StaysHanding(first: Life, l: Life, n: nat)
    requires Good(l) && Handing(first, l, n) && n < 10
    ensures Enabled(l, Manage) && Next(l, Manage) == Managed(l) && Handing(first, Managed(l), n + 1)
  {
    hide Good, Managed;
    GoodIs(l);
    if InstallStep(n) {
      InstallIs(l);
    } else if n < 2 {
      QueuedIs(l);
    } else {
      NotYet(l);
      ManagedIs(l);
    }
  }

  lemma NotYet(l: Life)
    requires Reader !in l.conn.managedBy
    ensures forall o :: o != Reader ==> l.conn.managedBy + {o} != EVERYONE
  {
  }

  lemma {:induction false} HandedTo(c: nat, size: nat, begun: seq<Act>, first: Life, n: nat) returns (acts: seq<Act>, l: Life)
    requires Led(c, size, begun, first) && Handing(first, first, 0) && n <= 10
    ensures Led(c, size, acts, l) && Handing(first, l, n)
  {
    hide Led, Managed, Handing;
    if n == 0 {
      acts, l := begun, first;
    } else {
      acts, l := HandedTo(c, size, begun, first, n - 1);
      LedIsGood(c, size, acts, l);
      StaysHanding(first, l, n - 1);
      GoesOn(c, size, acts, l, Manage);
      acts, l := acts + [Manage], Managed(l);
    }
  }

  lemma LedIsGood(c: nat, size: nat, acts: seq<Act>, l: Life)
    requires Led(c, size, acts, l)
    ensures Good(l)
  {
  }

  /** CONNECTED, after having been handed over. */
  ghost predicate Calm(first: Life, l: Life) {
    && l.self == first.self && l.accepts == RUNNING && l.progress == 10
    && l.conn.state == StateConnected && l.conn.managedBy == EVERYONE && l.conn.readKey && l.conn.canRead && l.conn.canWrite
    && l.conn.log == first.conn.log.(connects := 1)
    && l.reader == [] && l.worker == [] && l.writer == [] && !l.serving && !l.resend
  }

  /** Whatever happened to it before: taken on by the reader, it is CONNECTED. */
  lemma IsTakenOn(first: Life, l: Life)
    requires Good(l) && Handing(first, l, 10)
    ensures Enabled(l, TakeReader) && Next(l, TakeReader) == ReaderTook(l) && Calm(first, ReaderTook(l))
  {
    hide Good, ReaderTook, Base, Forms;
    GoodIs(l);
    AllButReader(l);
    EveryoneIs(l.conn.managedBy + {Reader});
    TookData(l);
  }

  lemma AllButReader(l: Life)
    requires Base(l) && l.progress == 10
    ensures Worker in l.conn.managedBy && Writer in l.conn.managedBy && Acceptor in l.conn.managedBy && Client in l.conn.managedBy
  {
    hide Shape, VotesOk, Flags, Timely;
  }

  lemma TakenOnBy(c: nat, size: nat, begun: seq<Act>, first: Life) returns (acts: seq<Act>, l: Life)
    requires Led(c, size, begun, first) && Handing(first, first, 0)
    ensures Led(c, size, acts, l) && Calm(first, l)
  {
    hide Led, ReaderTook, Handing, Calm;
    acts, l := HandedTo(c, size, begun, first, 10);
    LedIsGood(c, size, acts, l);
    IsTakenOn(first, l);
    GoesOn(c, size, acts, l, TakeReader);
    acts, l := acts + [TakeReader], ReaderTook(l);
  }

  lemma ConnectedLife(c: nat, size: nat) returns (acts: seq<Act>, first: Life, l: Life)
    ensures Led(c, size, acts, l) && New(first) && first.self == c && Calm(first, l)
  {
    hide Led, Born, Calm;
    first := Born(c, size, RUNNING);
    IsBorn(c, size);
    BornNew(c, size);
    acts, l := TakenOnBy(c, size, [], first);
  }

  // ---------------------------------------------------------------- closing

  /** What a forced close does while all four CLOSE handlers are there. */
  ghost predicate ClosedAll(l: Life, m: Life) {
    var s := l.accepts;
    && m == l.(conn := m.conn, acceptor := m.acceptor, reader := l.reader + One(l.self, Close, s.reader),
               worker := l.worker + One(l.self, Close, s.worker), writer := l.writer + One(l.self, Close, s.writer))
    && m.conn.log.votes == [Acceptor] + (if s.reader then [] else [Reader]) + (if s.worker then [] else [Worker])
    && (PendingClose, ReaderEvent) !in m.conn.log.called
    && m.conn.state == StateClosed && m.conn.readKey == l.conn.readKey && m.conn.managedBy == l.conn.managedBy
    && m.conn.log.connects == l.conn.log.connects && !m.conn.log.reopened
  }

  lemma ClosesAll(l: Life)
    requires Good(l) && Between(l.progress, 9) && !l.conn.log.closed && l.conn.log.called == {} && l.conn.log.votes == []
    ensures ClosedAll(l, Next(l, WantClose(true)))
  {
    hide Good, ClosedAll, Carry, EnterState, Shape, VotesOk;
    GoodIs(l);
    BaseVotes(l);
    NotClosedState(l);
    NotReopened(l);
    AllReact(l);
  }

  lemma AllReact(l: Life)
    requires Shape(l.conn, l.progress) && VotesOk(l.conn) && l.conn.state != StateClosed && !l.conn.log.reopened
    requires Between(l.progress, 9) && l.conn.log.called == {} && l.conn.log.votes == []
    ensures ClosedAll(l, Carry(l, EnterState(l.conn, StateClosed, l.accepts), 0))
  {
    hide Carry, EnterState, Shape, VotesOk, Mark, Armed, Voters, NoFree, Without;
    ClosedReaction(l, 0);
    AllArmed(l.conn, l.progress, l.accepts);
  }

  lemma AllArmed(c: Conn, progress: nat, s: Accepts)
    requires Between(progress, 9) && c.log.called == {}
    ensures Armed(c, progress) == (true, true, true, true)
    ensures Voters(AcceptorClose, true, s) == [Acceptor]
    ensures Voters(ReaderEvent, true, s) == if s.reader then [] else [Reader]
    ensures Voters(WorkerClose, true, s) == if s.worker then [] else [Worker]
    ensures (PendingClose, ReaderEvent) !in
      Mark(Mark(Mark(Mark(c.log.called, AcceptorClose, true), ReaderEvent, true), WorkerClose, true), WriterEvent, true)
  {
  }

  lemma NotReopened(l: Life)
    requires Course(l) && !l.conn.log.closed
    ensures !l.conn.log.reopened
  {
  }

  /** A thread's vote, and what does not change with it. */
  ghost predicate Voted(l: Life, m: Life, o: Owner) {
    var c, d := l.conn, m.conn;
    && d == c.(closedBy := d.closedBy, readKey := c.readKey && o != Reader,
               log := c.log.(votes := c.log.votes + [o], frees := d.log.frees, dropped := d.log.dropped))
    && (Fit(l) ==> Fit(m))
  }

  /** The reader handles its CLOSE, the only item it has. */
  lemma ReaderHears(c: nat, size: nat, begun: seq<Act>, l: Life) returns (acts: seq<Act>, m: Life)
    requires Led(c, size, begun, l) && l.reader == [EventOf(l.self, Close)]
    ensures Led(c, size, acts, m) && m == l.(reader := [], conn := m.conn, load := m.load) && Voted(l, m, Reader)
  {
    hide Led, Good, ReaderTook, Base, Forms, Fit;
    LedIsGood(c, size, begun, l);
    GoodIs(l);
    TookEvent(l);
    acts, m := begun + [TakeReader], ReaderTook(l);
    GoesOn(c, size, begun, l, TakeReader);
    if Fit(l) {
      FitKeeps(l, TakeReader);
    }
  }

  lemma WorkerHears(c: nat, size: nat, begun: seq<Act>, l: Life) returns (acts: seq<Act>, m: Life)
    requires Led(c, size, begun, l) && l.worker == [EventOf(l.self, Close)] && !l.serving
    ensures Led(c, size, acts, m) && m == l.(worker := [], conn := m.conn) && Voted(l, m, Worker)
  {
    hide Led, Good, WorkerTook, Base, Forms, Fit;
    LedIsGood(c, size, begun, l);
    GoodIs(l);
    PartsOf(l);
    TookWorkerClose(l);
    acts, m := begun + [TakeWorker], WorkerTook(l);
    GoesOn(c, size, begun, l, TakeWorker);
    if Fit(l) {
      FitKeeps(l, TakeWorker);
    }
  }

  lemma WriterHears(c: nat, size: nat, begun: seq<Act>, l: Life) returns (acts: seq<Act>, m: Life)
    requires Led(c, size, begun, l) && l.writer == [EventOf(l.self, Close)] && !l.resend
    ensures Led(c, size, acts, m) && m == l.(writer := [], conn := m.conn) && Voted(l, m, Writer)
  {
    hide Led, Good, WriterTook, Base, Forms, Fit;
    LedIsGood(c, size, begun, l);
    GoodIs(l);
    BuffersOf(l);
    TookWriterClose(l, [], None);
    acts, m := begun + [TakeWriter([], None)], WriterTook(l, [], None);
    GoesOn(c, size, begun, l, TakeWriter([], None));
    if Fit(l) {
      FitKeeps(l, TakeWriter([], None));
    }
  }

  lemma WriterFreesLast(l: Life)
    requires Good(l) && l.conn.log.votes == [Acceptor, Reader, Worker, Writer]
    ensures l.conn.log.frees != []
    ensures l.accepts.reader ==> l.conn.log.frees == [Writer]
  {
    hide Good, Course, Inbound, Interests, Forms, Shape, Flags, Managers, Timely;
    GoodIs(l);
    assert Acceptor in l.conn.log.votes && Reader in l.conn.log.votes;
    assert Worker in l.conn.log.votes && Writer in l.conn.log.votes;
  }

  // ---------------------------------------------------------------- runs

  /** Closed right after it was accepted: it is handed over all the same; when the reader takes it on,
      it becomes CONNECTED after it was CLOSED, may be read and written, and was not freed although
      no CLOSE is left to be handled. */
  lemma EarlyCloseIsUndone(c: nat, size: nat) returns (moves: seq<Move>, l: Life)
    ensures ComesTo(size, moves, c, l)
    ensures l.conn.state == StateConnected && l.conn.log.closed && l.conn.canRead && l.conn.canWrite
    ensures l.reader == [] && l.worker == [] && l.writer == [] && l.conn.log.frees == [] && l.accepts == RUNNING
  {
    hide Led, Born, ComesTo, Next;
    var born := Born(c, size, RUNNING);
    IsBorn(c, size);
    BornNew(c, size);
    LedIsGood(c, size, [], born);
    ClosedAtOnce(born);
    GoesOn(c, size, [], born, WantClose(true));
    var acts: seq<Act>;
    acts, l := TakenOnBy(c, size, [] + [WantClose(true)], Next(born, WantClose(true)));
    LedIsGood(c, size, acts, l);
    Unfreed(l);
    moves := RunOf(c, size, acts, l);
  }

  lemma ClosedAtOnce(l: Life)
    requires Good(l) && New(l)
    ensures Enabled(l, WantClose(true))
    ensures var m := Next(l, WantClose(true)); Handing(m, m, 0) && m.conn.log.closed && Writer !in m.conn.log.votes
  {
    hide Good, Carry, EnterState, Shape, VotesOk, Mark, Armed, Voters, NoFree, Without;
    GoodIs(l);
    BaseVotes(l);
    OnlyAcceptor(l.conn, l.accepts);
    ClosedReaction(l, 0);
  }

  lemma OnlyAcceptor(c: Conn, s: Accepts)
    requires c.log.called == {}
    ensures Armed(c, 0) == (true, false, false, false) && Voters(AcceptorClose, true, s) == [Acceptor]
    ensures Voters(ReaderEvent, false, s) == [] && Voters(WorkerClose, false, s) == []
  {
  }

  /** Closed after nine of the ten steps of the hand-over, and heard of by all three threads. */
  lemma FreedLife(c: nat, size: nat) returns (acts: seq<Act>, l: Life)
    ensures Led(c, size, acts, l) && l.conn.log.frees == [Writer] && l.progress == 9 && l.accepts == RUNNING
    ensures !l.conn.log.reopened && l.reader == [] && Reader in l.conn.log.votes
  {
    hide Led, Born, Next, New;
    var born := Born(c, size, RUNNING);
    IsBorn(c, size);
    BornNew(c, size);
    NewIs(born);
    acts, l := HandedTo(c, size, [], born, 9);
    acts, l := CloseInHandOver(c, size, acts, born, l);
    acts, l := AllHear(c, size, acts, l);
    LedIsGood(c, size, acts, l);
    WriterFreesLast(l);
  }

  /** Closed after nine of the ten steps of the hand-over: the three threads handle their CLOSE and the
      last of them frees the connection, while the managing thread still has its last step to do. */
  lemma FreedDuringHandOver(c: nat, size: nat) returns (moves: seq<Move>, l: Life)
    ensures ComesTo(size, moves, c, l)
    ensures l.conn.log.frees == [Writer] && l.progress == 9 && Possible(After(NewPipe(size), moves), Of(c, Manage))
    ensures l.accepts == RUNNING && !l.conn.log.reopened && !Clean(l)
  {
    hide Led, ComesTo;
    var acts: seq<Act>;
    acts, l := FreedLife(c, size);
    moves := RunOf(c, size, acts, l);
    StillManaging(size, moves, c, l);
  }

  /** With that last step the freed connection becomes CONNECTED, its key gone and its handlers on the
      closing events used up. */
  lemma ConnectedAfterFree(c: nat, size: nat) returns (moves: seq<Move>, l: Life)
    ensures ComesTo(size, moves, c, l)
    ensures l.conn.state == StateConnected && l.conn.log.frees == [Writer] && l.accepts == RUNNING
    ensures c !in After(NewPipe(size), moves).registry && !AllInstalled(l.conn)
  {
    hide Led, ComesTo, Managed, AllInstalled;
    var acts, k := FreedLife(c, size);
    LedIsGood(c, size, acts, k);
    LastManages(k);
    GoesOn(c, size, acts, k, Manage);
    l := Managed(k);
    moves := RunOf(c, size, acts + [Manage], l);
    KeyIsGone(size, moves, c, l);
  }

  lemma LastManages(l: Life)
    requires Good(l) && l.progress == 9 && l.reader == [] && l.accepts.reader && Reader in l.conn.log.votes
    ensures Enabled(l, Manage) && Next(l, Manage) == Managed(l)
    ensures var m := Managed(l);
      m.conn.state == StateConnected && m.conn.log.frees == l.conn.log.frees && !m.conn.readKey && m.accepts == l.accepts
  {
    hide Good, Managed;
    GoodIs(l);
    AllButWriter(l);
    EveryoneIs(l.conn.managedBy + {Writer});
    ManagedIs(l);
  }

  lemma AllButWriter(l: Life)
    requires Good(l) && l.progress == 9 && l.reader == [] && l.accepts.reader && Reader in l.conn.log.votes
    ensures forall o :: o != Writer ==> o in l.conn.managedBy
    ensures !l.conn.readKey
  {
    hide Shape, VotesOk, Flags, Timely, WorkerForm, WriterForm, AcceptorForm, Buffers, Course, Inbound, Interests;
    EveryoneIs(l.conn.managedBy + {Writer});
  }

  lemma KeyIsGone(size: nat, moves: seq<Move>, c: nat, l: Life)
    requires ComesTo(size, moves, c, l) && !l.conn.readKey && l.conn.state == StateConnected
    ensures c !in After(NewPipe(size), moves).registry && !AllInstalled(l.conn)
  {
    hide Safe, NewPipe, Legal, After, About, AllInstalled;
    Reached(size, moves);
    KeyedAt(After(NewPipe(size), moves), c);
    ConnectedIsHandedOver(size, moves, c);
  }

  lemma NewIs(l: Life)
    requires New(l)
    ensures Handing(l, l, 0) && !l.conn.log.closed && l.conn.log.votes == [] && l.conn.log.called == {}
    ensures l.conn.log.received == [] && l.conn.log.delivered == []
  {
  }

  lemma StillManaging(size: nat, moves: seq<Move>, c: nat, l: Life)
    requires ComesTo(size, moves, c, l) && l.progress < 10
    ensures Possible(After(NewPipe(size), moves), Of(c, Manage))
  {
    hide NewPipe, Legal, After, About;
  }

  /** Each of the three threads has its CLOSE to handle, and nothing else. */
  ghost predicate Informed(l: Life) {
    var close := EventOf(l.self, Close);
    && l.reader == [close] && l.worker == [close] && l.writer == [close] && !l.serving && !l.resend
    && l.conn.log.votes == [Acceptor] && l.accepts == RUNNING && !l.conn.log.reopened && l.conn.state == StateClosed
    && (PendingClose, ReaderEvent) !in l.conn.log.called
  }

  /** The forced close, and the reader's round that takes the connection on. */
  lemma CloseInHandOver(c: nat, size: nat, begun: seq<Act>, first: Life, l: Life) returns (acts: seq<Act>, m: Life)
    requires Led(c, size, begun, l) && Handing(first, l, 9)
    requires !first.conn.log.closed && first.conn.log.votes == [] && first.conn.log.called == {}
    ensures Led(c, size, acts, m) && Informed(m) && m.progress == 9
  {
    hide Led, Next, Handing, Informed;
    LedIsGood(c, size, begun, l);
    HandingCloses(first, l);
    GoesOn(c, size, begun, l, WantClose(true));
    var k := Next(l, WantClose(true));
    LedIsGood(c, size, begun + [WantClose(true)], k);
    TakenOnClosed(k);
    AllInformed(k, Next(k, TakeReader));
    GoesOn(c, size, begun + [WantClose(true)], k, TakeReader);
    acts, m := begun + [WantClose(true)] + [TakeReader], Next(k, TakeReader);
  }

  /** Closed with the DATA item still to be taken by the reader. */
  ghost predicate ClosedEarly(l: Life) {
    var close := EventOf(l.self, Close);
    && l.reader == [DataOf(l.self), close] && l.worker == [close] && l.writer == [close] && !l.serving && !l.resend
    && l.conn.log.votes == [Acceptor] && l.accepts == RUNNING && !l.conn.log.reopened && l.conn.state == StateClosed
    && (PendingClose, ReaderEvent) !in l.conn.log.called && l.progress == 9
  }

  lemma HandingCloses(first: Life, l: Life)
    requires Good(l) && Handing(first, l, 9)
    requires !first.conn.log.closed && first.conn.log.votes == [] && first.conn.log.called == {}
    ensures Enabled(l, WantClose(true)) && ClosedEarly(Next(l, WantClose(true)))
  {
    hide Good, Next;
    ClosesAll(l);
  }

  lemma AllInformed(l: Life, m: Life)
    requires ClosedEarly(l) && m == l.(reader := [EventOf(l.self, Close)], conn := m.conn, load := m.load)
    requires m.conn.state == l.conn.state && m.conn.log == l.conn.log
    ensures Informed(m)
  {
  }

  lemma TakenOnClosed(l: Life)
    requires Good(l) && l.progress == 9 && l.reader == [DataOf(l.self), EventOf(l.self, Close)]
    ensures Enabled(l, TakeReader)
    ensures var m := Next(l, TakeReader);
      m == l.(reader := [EventOf(l.self, Close)], conn := m.conn, load := m.load)
      && m.conn.state == l.conn.state && m.conn.log == l.conn.log
  {
    hide Good, ReaderTook, Base, Forms;
    GoodIs(l);
    WriterMissing(l);
    TookData(l);
  }

  lemma WriterMissing(l: Life)
    requires Base(l) && l.progress == 9
    ensures l.conn.managedBy + {Reader} != EVERYONE
  {
    hide Shape, VotesOk, Flags, Timely;
    assert Writer !in l.conn.managedBy + {Reader};
  }

  lemma AllHear(c: nat, size: nat, begun: seq<Act>, l: Life) returns (acts: seq<Act>, m: Life)
    requires Led(c, size, begun, l) && Informed(l)
    ensures Led(c, size, acts, m) && m.conn.log.votes == [Acceptor, Reader, Worker, Writer] && m.progress == l.progress
    ensures m.accepts == RUNNING && !m.conn.log.reopened && (PendingClose, ReaderEvent) !in m.conn.log.called
    ensures m.reader == [] && (Fit(l) ==> Fit(m))
  {
    hide Led, Fit;
    acts, m := ReaderHears(c, size, begun, l);
    acts, m := WorkerHears(c, size, acts, m);
    acts, m := WriterHears(c, size, acts, m);
  }

  /** Closed while CONNECTED, after the reader's queue has seen an EXIT: the reader's handler votes at
      once, and the connection is freed with its key still registered. */
  lemma ExitKeepsKey(c: nat, size: nat) returns (moves: seq<Move>, l: Life)
    ensures ComesTo(size, moves, c, l)
    ensures l.conn.log.frees != [] && c in After(NewPipe(size), moves).registry
    ensures l.accepts == Accepts(false, true, true) && l.conn.log.connects == 1 && !l.conn.log.rash && !l.conn.log.reopened
  {
    hide Led, ComesTo, Calm, New, Fit;
    var acts, first, k := ConnectedLife(c, size);
    acts, k := CloseAfterExit(c, size, acts, first, k, ReaderQueue);
    acts, k := WorkerHears(c, size, acts, k);
    acts, l := WriterHears(c, size, acts, k);
    LedIsGood(c, size, acts, l);
    WriterFreesLast(l);
    ConnectedInTime(l);
    moves := RunOf(c, size, acts, l);
    KeyIsThere(size, moves, c, l);
  }

  lemma ConnectedInTime(l: Life)
    requires Good(l) && l.conn.managedBy == EVERYONE
    ensures l.conn.log.connects == 1
  {
    hide Forms, Course, Tokens, Inbound, Interests, Shape, VotesOk, Flags, Timely;
  }

  lemma KeyIsThere(size: nat, moves: seq<Move>, c: nat, l: Life)
    requires ComesTo(size, moves, c, l) && l.conn.readKey
    ensures c in After(NewPipe(size), moves).registry
  {
    hide Safe, NewPipe, Legal, After, About;
    Reached(size, moves);
    KeyedAt(After(NewPipe(size), moves), c);
  }

  /** Closed when CONNECTED, each thread having its CLOSE, or having voted, or neither. */
  ghost predicate ClosedCalmly(self: nat, s: Accepts, m: Life) {
    && m.self == self && m.accepts == s && m.conn.managedBy == EVERYONE
    && m.reader == One(self, Close, s.reader) && m.worker == One(self, Close, s.worker)
    && m.writer == One(self, Close, s.writer) && !m.serving && !m.resend && m.conn.readKey
    && m.conn.log.votes == [Acceptor] + (if s.reader then [] else [Reader]) + (if s.worker then [] else [Worker])
    && m.conn.log.closed && !m.conn.log.rash && !m.conn.log.reopened
  }

  /** An EXIT on one queue of a CONNECTED connection, then a forced close. */
  lemma CloseAfterExit(c: nat, size: nat, begun: seq<Act>, first: Life, l: Life, which: Which)
    returns (acts: seq<Act>, m: Life)
    requires Led(c, size, begun, l) && New(first) && Calm(first, l)
    ensures Led(c, size, acts, m) && ClosedCalmly(l.self, Shut(RUNNING, which), m)
  {
    hide Led, Next, New, Calm, ClosedCalmly;
    LedIsGood(c, size, begun, l);
    var k := l.(accepts := Shut(l.accepts, which));
    ExitNext(l, which);
    GoesOn(c, size, begun, l, Exit(which));
    acts := begun + [Exit(which)];
    LedIsGood(c, size, acts, k);
    CalmCloses(first, l, k, which);
    GoesOn(c, size, acts, k, WantClose(true));
    acts, m := acts + [WantClose(true)], Next(k, WantClose(true));
  }

  lemma CalmCloses(first: Life, l: Life, k: Life, which: Which)
    requires New(first) && Calm(first, l) && k == l.(accepts := Shut(l.accepts, which)) && Good(k)
    ensures Enabled(k, WantClose(true)) && ClosedCalmly(l.self, Shut(RUNNING, which), Next(k, WantClose(true)))
  {
    hide Good, Next;
    ClosesAll(k);
    NotRash(k, Next(k, WantClose(true)));
    SameSelf(k);
  }

  lemma SameSelf(l: Life)
    ensures Enabled(l, WantClose(true)) && Next(l, WantClose(true)).self == l.self
  {
    hide EnterState, Without;
  }

  lemma ExitNext(l: Life, which: Which)
    ensures Enabled(l, Exit(which)) && Next(l, Exit(which)) == l.(accepts := Shut(l.accepts, which))
  {
  }

  lemma NotRash(l: Life, m: Life)
    requires Good(l) && l.conn.log.connects == 1 && !l.conn.log.closed && m == Next(l, WantClose(true))
    ensures m.conn.log.closed && !m.conn.log.rash
  {
    hide Good, Carry, EnterState, Shape, VotesOk, Mark, NoFree, Course, Forms, Tokens, Inbound, Interests, Armed, Voters, Without;
    GoodIs(l);
    BaseVotes(l);
    NotClosedState(l);
    NotRashYet(l);
    ClosedReaction(l, 0);
  }

  lemma NotRashYet(l: Life)
    requires Course(l) && !l.conn.log.closed
    ensures !l.conn.log.rash
  {
  }

  /** Closed while CONNECTED, after the writer's queue has seen an EXIT: the writer's event is lost, and
      the connection is not freed although all CLOSE events are handled. */
  lemma ExitLosesClose(c: nat, size: nat) returns (moves: seq<Move>, l: Life)
    ensures ComesTo(size, moves, c, l)
    ensures l.conn.log.closed && NoCloseLeft(l) && l.conn.log.frees == [] && HandlersOf(l.conn, Close) == []
    ensures l.accepts == Accepts(true, true, false) && l.conn.log.connects == 1 && !l.conn.log.rash && !l.conn.log.reopened
  {
    hide Led, ComesTo, Calm, New, Fit;
    var acts, first, k := ConnectedLife(c, size);
    acts, k := CloseAfterExit(c, size, acts, first, k, WriterQueue);
    acts, k := ReaderHears(c, size, acts, k);
    acts, l := WorkerHears(c, size, acts, k);
    LedIsGood(c, size, acts, l);
    Unfreed(l);
    NoHandlers(l);
    ConnectedInTime(l);
    moves := RunOf(c, size, acts, l);
  }

  lemma NoHandlers(l: Life)
    requires Good(l) && l.conn.log.closed && !l.conn.log.rash
    ensures HandlersOf(l.conn, Close) == []
  {
    hide Good, Forms, Tokens, Inbound, Interests, Shape, VotesOk, Flags, Managers, Timely;
    GoodIs(l);
    BaseVotes(l);
    ShapeAt(l.conn, l.progress, Close);
  }

  /** A whole life: handed over, connected, closed, freed, with nothing left; but the reader's handler
      on PENDING_CLOSE is still there, so that a graceful close puts an event about the freed
      connection on the reader's queue and lets it be written again. */
  lemma GracefulCloseAfterFree(c: nat, size: nat) returns (moves: seq<Move>)
    ensures Legal(NewPipe(size), moves) && CleanIn(After(NewPipe(size), moves), c)
    ensures After(NewPipe(size), moves).members[c].conn.log.frees == [Writer]
    ensures var t := AfterClose(After(NewPipe(size), moves), c);
      c in t.members && t.members[c].conn.canWrite && About(t.reader.items, c) != [] && !CleanIn(t, c)
  {
    hide Led, Next, Calm, New, AfterClose, Clean, Legal, After, View, About, NewPipe;
    var acts, first, k := ConnectedLife(c, size);
    acts, k := CloseWhenConnected(c, size, acts, first, k);
    var l: Life;
    acts, l := AllHear(c, size, acts, k);
    LedIsGood(c, size, acts, l);
    WriterFreesLast(l);
    FitIsClean(l);
    PendingIsThere(l);
    moves := RunOf(c, size, acts, l);
    ViewIs(After(NewPipe(size), moves), c);
    GracefulCloseRevives(size, moves, c);
  }

  lemma PendingIsThere(l: Life)
    requires Good(l) && l.progress == 10 && (PendingClose, ReaderEvent) !in l.conn.log.called
    ensures HandlersOf(l.conn, PendingClose) != []
  {
    hide Good, Shape;
    GoodIs(l);
    BaseVotes(l);
    ShapeAt(l.conn, l.progress, PendingClose);
  }

  lemma CloseWhenConnected(c: nat, size: nat, begun: seq<Act>, first: Life, l: Life) returns (acts: seq<Act>, m: Life)
    requires Led(c, size, begun, l) && New(first) && Calm(first, l)
    ensures Led(c, size, acts, m) && Informed(m) && m.progress == 10 && m.self == l.self && Fit(m)
  {
    hide Led, Next, New, Calm, Fit, Informed;
    LedIsGood(c, size, begun, l);
    CalmInforms(first, l);
    CalmFits(first, l);
    GoesOn(c, size, begun, l, WantClose(true));
    acts, m := begun + [WantClose(true)], Next(l, WantClose(true));
  }

  lemma CalmInforms(first: Life, l: Life)
    requires Good(l) && New(first) && Calm(first, l)
    ensures Enabled(l, WantClose(true))
    ensures var m := Next(l, WantClose(true)); Informed(m) && m.progress == 10 && m.self == l.self
  {
    hide Good, Next;
    ClosesAll(l);
  }

  lemma CalmFits(first: Life, l: Life)
    requires Good(l) && New(first) && Calm(first, l)
    ensures Enabled(l, WantClose(true)) && Fit(Next(l, WantClose(true)))
  {
    hide Good, Next, Dooms, Fit, Carry, EnterState;
    var k, id := FirstCloseOf(l);
    CloseFits(l, k, id);
  }

  lemma FirstCloseOf(l: Life) returns (k: Life, id: nat)
    requires Good(l) && !l.conn.log.closed
    ensures Enabled(l, WantClose(true)) && Dooms(l, k)
    ensures Next(l, WantClose(true)) == Carry(k, EnterState(k.conn, StateClosed, k.accepts), id)
  {
    hide Good, Carry, EnterState, Dooms;
    GoodIs(l);
    ForcedCloses(l);
    k, id := FirstClose(l, WantClose(true));
  }

  /** Two write interests, then a graceful close: the first event that is sent completely shuts the
      sending end down, with the other one still waiting, whatever the WRITE handler puts. */
  lemma ShutdownTooSoon(c: nat, size: nat, chunk: seq<byte>) returns (moves: seq<Move>, l: Life)
    ensures ComesTo(size, moves, c, l)
    ensures l.conn.state == StatePendingClose && l.conn.log.interests == 2 && l.conn.log.shutdowns == 1
    ensures Unanswered(After(NewPipe(size), moves), c) == 1 && l.accepts == RUNNING
  {
    hide Led, ComesTo, Unanswered, NewPipe, Waiting;
    var acts, k := DrainingLife(c, size);
    acts, l := FirstSent(c, size, acts, k, chunk);
    moves := RunOf(c, size, acts, l);
    WaitsStill(size, moves, c, l);
  }

  /** Closing gracefully with two interests waiting. */
  lemma DrainingLife(c: nat, size: nat) returns (acts: seq<Act>, l: Life)
    ensures Led(c, size, acts, l) && l.conn.state == StatePendingClose && !l.resend && l.accepts == RUNNING
    ensures l.writer == [EventOf(l.self, OutboundData), EventOf(l.self, OutboundData)]
    ensures l.conn.log.interests == 2 && l.conn.log.shutdowns == 0
  {
    hide Led, Calm, New;
    var first: Life;
    acts, first, l := ConnectedLife(c, size);
    CalmWaits(c, size, acts, first, l);
    acts, l := Wanting(c, size, acts, l, 0);
    acts, l := Wanting(c, size, acts, l, 1);
    acts, l := ClosesGracefully(c, size, acts, l);
  }

  lemma FirstSent(c: nat, size: nat, begun: seq<Act>, l: Life, chunk: seq<byte>) returns (acts: seq<Act>, m: Life)
    requires Led(c, size, begun, l) && l.conn.state == StatePendingClose && !l.resend
    requires l.writer == [EventOf(l.self, OutboundData), EventOf(l.self, OutboundData)]
    ensures Led(c, size, acts, m) && m.conn.state == StatePendingClose && m.accepts == l.accepts
    ensures m.conn.log.interests == l.conn.log.interests && m.conn.log.shutdowns == l.conn.log.shutdowns + 1
    ensures Waiting(m) == 1
  {
    hide Led, Good, Refill, WriterTook, Enabled, Next;
    LedIsGood(c, size, begun, l);
    var took := Room(Refill(l.conn, chunk).writeBuffer);
    OutEnabled(l, chunk, took);
    ShutsWhenDone(l, chunk, took);
    KeepsInterests(l, chunk, took);
    GoesOn(c, size, begun, l, TakeWriter(chunk, Some(took)));
    acts, m := begun + [TakeWriter(chunk, Some(took))], WriterTook(l, chunk, Some(took));
  }

  /** CONNECTED with `n` interests waiting. */
  ghost predicate Waits(l: Life, n: nat) {
    && l.accepts == RUNNING && l.progress == 10 && l.conn.state == StateConnected && l.conn.canWrite && !l.resend
    && l.conn.log.interests == n && l.conn.log.shutdowns == 0
    && l.writer == seq(n, i => EventOf(l.self, OutboundData))
  }

  lemma CalmWaits(c: nat, size: nat, acts: seq<Act>, first: Life, l: Life)
    requires Led(c, size, acts, l) && New(first) && Calm(first, l)
    ensures Waits(l, 0)
  {
    hide Led;
  }

  lemma Wanting(c: nat, size: nat, begun: seq<Act>, l: Life, n: nat) returns (acts: seq<Act>, m: Life)
    requires Led(c, size, begun, l) && Waits(l, n)
    ensures Led(c, size, acts, m) && Waits(m, n + 1) && m.self == l.self
  {
    hide Led, Interest, Carry, Good;
    LedIsGood(c, size, begun, l);
    GoodIs(l);
    BaseVotes(l);
    InterestReaction(l, 0);
    GoesOn(c, size, begun, l, WantWrite);
    acts, m := begun + [WantWrite], Next(l, WantWrite);
    assert m.writer == l.writer + [EventOf(l.self, OutboundData)];
  }

  /** The graceful close. */
  lemma ClosesGracefully(c: nat, size: nat, begun: seq<Act>, l: Life) returns (acts: seq<Act>, m: Life)
    requires Led(c, size, begun, l) && Waits(l, 2)
    ensures Led(c, size, acts, m) && m.conn.state == StatePendingClose && m.writer == l.writer && m.self == l.self && !m.resend
    ensures m.conn.log.interests == 2 && m.conn.log.shutdowns == 0 && m.accepts == RUNNING
  {
    hide Led, EnterState, Carry, Good;
    LedIsGood(c, size, begun, l);
    GoodIs(l);
    BaseVotes(l);
    PendingReaction(l, 0);
    GoesOn(c, size, begun, l, WantClose(false));
    acts, m := begun + [WantClose(false)], Next(l, WantClose(false));
  }

  lemma OutEnabled(l: Life, chunk: seq<byte>, took: nat)
    requires l.writer != [] && !l.resend && took == Room(Refill(l.conn, chunk).writeBuffer)
    ensures Enabled(l, TakeWriter(chunk, Some(took)))
    ensures Next(l, TakeWriter(chunk, Some(took))) == WriterTook(l, chunk, Some(took))
  {
    hide Refill, WriterTook;
  }

  lemma KeepsInterests(l: Life, chunk: seq<byte>, took: nat)
    requires Good(l) && Enabled(l, TakeWriter(chunk, Some(took))) && l.conn.state == StatePendingClose
    requires l.writer[0] == EventOf(l.self, OutboundData)
    ensures var m := WriterTook(l, chunk, Some(took)); m.conn.log.interests == l.conn.log.interests && m.accepts == l.accepts
  {
    hide Good, WriterTook, Refill, Base, Forms, B.Content, B.Sound;
    GoodIs(l);
    BuffersOf(l);
    MayWrite(l);
    WriterSent(l, chunk, took);
  }

  lemma WaitsStill(size: nat, moves: seq<Move>, c: nat, l: Life)
    requires ComesTo(size, moves, c, l)
    ensures Unanswered(After(NewPipe(size), moves), c) == Waiting(l)
  {
    hide NewPipe, Legal, After, Unanswered, Waiting, View;
    PendingIs(After(NewPipe(size), moves), c);
  }

  // ---------------------------------------------------------------- runs with reads

  lemma RunIs(size: nat, moves: seq<Move>, c: nat, l: Life)
    requires ComesTo(size, moves, c, l)
    ensures Safe(After(NewPipe(size), moves)) && Good(l) && l.size == size
  {
    hide Safe, Good, NewPipe, Legal, About;
    Reached(size, moves);
    SizeKept(NewPipe(size), moves);
    NewSize(size);
    GoodAt(After(NewPipe(size), moves), c);
  }

  lemma RunOn(size: nat, begun: seq<Move>, c: nat, l: Life, a: Act) returns (moves: seq<Move>)
    requires ComesTo(size, begun, c, l) && Enabled(l, a) && !a.Arrive?
    ensures ComesTo(size, moves, c, Next(l, a))
  {
    hide Safe, NewPipe, View, Enabled, Next, Possible, Taken;
    RunIs(size, begun, c, l);
    var more := Realize(After(NewPipe(size), begun), c, a);
    LegalJoins(NewPipe(size), begun, more);
    moves := begun + more;
  }

  lemma RunReads(size: nat, begun: seq<Move>, c: nat, l: Life, bytes: seq<byte>) returns (moves: seq<Move>, id: nat)
    requires ComesTo(size, begun, c, l) && Enabled(l, Arrive(Bytes(bytes), 0))
    ensures ComesTo(size, moves, c, Carry(l, ReadInput(l.conn, Bytes(bytes), l.accepts), id))
  {
    hide Safe, NewPipe, View, Possible, Taken, Carry, ReadInput, MayReceive;
    RunIs(size, begun, c, l);
    id := RealizeArrive(After(NewPipe(size), begun), c, Bytes(bytes));
    LegalJoins(NewPipe(size), begun, [Of(c, Arrive(Bytes(bytes), 0))]);
    moves := begun + [Of(c, Arrive(Bytes(bytes), 0))];
  }

  /** CONNECTED and reading, with that much received and delivered. */
  ghost predicate Reading(l: Life, received: seq<byte>, delivered: seq<byte>) {
    && l.conn.state == StateConnected && l.conn.canRead && l.conn.readKey && !l.serving && l.accepts == RUNNING
    && l.conn.log.received == received && l.conn.log.delivered == delivered
  }

  /** A close in the hand-over, after which it ends: CONNECTED with each CLOSE still to be handled. */
  lemma ReopenedLife(c: nat, size: nat) returns (acts: seq<Act>, l: Life)
    ensures Led(c, size, acts, l) && Reading(l, [], []) && l.worker == [EventOf(l.self, Close)]
  {
    hide Led, Born, Next, New, Handing, Managed, Reading;
    var born := Born(c, size, RUNNING);
    IsBorn(c, size);
    BornNew(c, size);
    NewIs(born);
    var k: Life;
    acts, k := HandedTo(c, size, [], born, 9);
    LedIsGood(c, size, acts, k);
    HandingCloses(born, k);
    HandingLog(born, k);
    GoesOn(c, size, acts, k, WantClose(true));
    NothingRead(k);
    acts, k := acts + [WantClose(true)], Next(k, WantClose(true));
    LedIsGood(c, size, acts, k);
    ManagesClosed(k);
    GoesOn(c, size, acts, k, Manage);
    acts, k := acts + [Manage], Managed(k);
    LedIsGood(c, size, acts, k);
    TakenOnLast(k);
    GoesOn(c, size, acts, k, TakeReader);
    acts, l := acts + [TakeReader], Next(k, TakeReader);
  }

  lemma HandingLog(first: Life, l: Life)
    requires Handing(first, l, 9)
    ensures l.conn.log == first.conn.log
  {
  }

  /** Closing receives and delivers nothing. */
  lemma NothingRead(l: Life)
    requires Good(l) && !l.conn.log.closed
    ensures Enabled(l, WantClose(true))
    ensures var log := Next(l, WantClose(true)).conn.log;
      log.received == l.conn.log.received && log.delivered == l.conn.log.delivered
  {
    hide Good, Carry, EnterState, Shape, VotesOk, Mark, NoFree, Without, Armed, Voters;
    GoodIs(l);
    BaseVotes(l);
    NotClosedState(l);
    ClosedReaction(l, 0);
  }

  /** The last step of the hand-over, when the reader still has its DATA item. */
  lemma ManagesClosed(l: Life)
    requires Good(l) && ClosedEarly(l)
    ensures Enabled(l, Manage) && Next(l, Manage) == Managed(l)
    ensures var m := Managed(l); m == l.(progress := 10, conn := m.conn) && m.conn.log == l.conn.log
  {
    hide Good, Managed;
    GoodIs(l);
    ReaderMissing(l);
    ManagedIs(l);
  }

  lemma ReaderMissing(l: Life)
    requires Good(l) && DataOf(l.self) in l.reader
    ensures l.conn.managedBy + {Writer} != EVERYONE
  {
    hide Base, WorkerForm, WriterForm, AcceptorForm, Buffers, Course, Tokens, Inbound, Interests;
    assert Reader !in l.conn.managedBy + {Writer};
  }

  lemma TakenOnLast(l: Life)
    requires Good(l) && l.progress == 10 && l.reader == [DataOf(l.self), EventOf(l.self, Close)]
    requires l.conn.log.received == [] && l.conn.log.delivered == [] && !l.serving && l.accepts == RUNNING
    ensures Enabled(l, TakeReader)
    ensures var m := Next(l, TakeReader); Reading(m, [], []) && m.self == l.self && m.worker == l.worker
  {
    hide Good, ReaderTook, Base, Forms;
    GoodIs(l);
    AllButReader(l);
    EveryoneIs(l.conn.managedBy + {Reader});
    TookData(l);
  }

  /** A read that fills one more task. */
  lemma ReadsOne(l: Life, bytes: seq<byte>, received: seq<byte>, delivered: seq<byte>, id: nat)
    requires Good(l) && Reading(l, received, delivered) && 0 < |bytes| <= l.size
    ensures Enabled(l, Arrive(Bytes(bytes), 0))
    ensures var m := Carry(l, ReadInput(l.conn, Bytes(bytes), l.accepts), id);
      && Reading(m, received + bytes, delivered) && m.self == l.self && |m.worker| == |l.worker| + 1
      && m.worker[..|l.worker|] == l.worker
      && var x := m.worker[|l.worker|]; x.TaskItem? && x.buffer.Slab? && B.Content(x.buffer.mem) == bytes
  {
    hide Good, Base, Forms, Carry, ReadInput, Received, CopyOf, Flipped, B.Sound, B.Content;
    GoodIs(l);
    BuffersOf(l);
    InputReaction(l, bytes, id);
  }

  /** The worker's CLOSE drops the task behind it. */
  lemma DropsOne(l: Life, received: seq<byte>, delivered: seq<byte>)
    requires Good(l) && Reading(l, received, delivered) && l.worker != [] && l.worker[0] == EventOf(l.self, Close)
    ensures Enabled(l, TakeWorker)
    ensures var m := Next(l, TakeWorker); Reading(m, received, delivered) && m.self == l.self && m.worker == []
  {
    hide Good, Base, Forms, WorkerTook;
    GoodIs(l);
    PartsOf(l);
    TookWorkerClose(l);
  }

  lemma DeliversOne(l: Life, received: seq<byte>)
    requires Good(l) && Reading(l, received, []) && |l.worker| == 1 && l.worker[0].TaskItem? && l.worker[0].buffer.Slab?
    ensures Enabled(l, TakeWorker)
    ensures var m := Next(l, TakeWorker);
      && m.conn.log.received == received && m.conn.log.delivered == B.Content(l.worker[0].buffer.mem) && m.worker == []
      && m.conn.state == StateConnected && m.accepts == RUNNING
  {
    hide Good, Base, Forms, WorkerTook, B.Content;
    GoodIs(l);
    PartsOf(l);
    TookTask(l);
  }

  /** A run that reads once more. */
  lemma RunReadsOne(size: nat, begun: seq<Move>, c: nat, l: Life, bytes: seq<byte>, received: seq<byte>)
    returns (moves: seq<Move>, m: Life)
    requires ComesTo(size, begun, c, l) && Reading(l, received, []) && 0 < |bytes| <= size
    ensures ComesTo(size, moves, c, m) && Reading(m, received + bytes, []) && m.self == l.self
    ensures |m.worker| == |l.worker| + 1 && m.worker[..|l.worker|] == l.worker
    ensures var x := m.worker[|l.worker|]; x.TaskItem? && x.buffer.Slab? && B.Content(x.buffer.mem) == bytes
  {
    hide ComesTo, Carry, ReadInput, Enabled, Reading, Good, MayReceive, B.Content;
    RunIs(size, begun, c, l);
    ReadsOne(l, bytes, received, [], 0);
    var id: nat;
    moves, id := RunReads(size, begun, c, l, bytes);
    ReadsOne(l, bytes, received, [], id);
    MayRead(l, bytes);
    m := Carry(l, ReadInput(l.conn, Bytes(bytes), l.accepts), id);
  }

  lemma MayRead(l: Life, bytes: seq<byte>)
    requires Enabled(l, Arrive(Bytes(bytes), 0))
    ensures MayReceive(l.conn, Bytes(bytes))
  {
  }

  /** The first bytes are dropped. */
  lemma DroppedLife(c: nat, size: nat, first: seq<byte>) returns (moves: seq<Move>, l: Life)
    requires 0 < |first| <= size
    ensures ComesTo(size, moves, c, l) && Reading(l, first, []) && l.worker == []
  {
    hide Led, ComesTo, Next, Enabled, Reading, Good;
    var acts, k := ReopenedLife(c, size);
    moves := RunOf(c, size, acts, k);
    moves, k := RunReadsOne(size, moves, c, k, first, []);
    FrontIs(k.worker, [EventOf(k.self, Close)]);
    assert [] + first == first;
    RunIs(size, moves, c, k);
    DropsOne(k, first, []);
    moves := RunOn(size, moves, c, k, TakeWorker);
    l := Next(k, TakeWorker);
  }

  /** Closed when the worker's CLOSE handler was there, and CONNECTED after that: the first bytes read
      are dropped by the late CLOSE, and those read after it are delivered in their place. */
  lemma FirstInputIsLost(c: nat, size: nat, first: seq<byte>, second: seq<byte>) returns (moves: seq<Move>, l: Life)
    requires 0 < |first| <= size && 0 < |second| <= size
    ensures ComesTo(size, moves, c, l)
    ensures l.conn.state == StateConnected && l.worker == [] && l.accepts == RUNNING
    ensures l.conn.log.received == first + second && l.conn.log.delivered == second
  {
    hide ComesTo, Next, Enabled, Reading, Good;
    var k: Life;
    moves, k := DroppedLife(c, size, first);
    moves, k := RunReadsOne(size, moves, c, k, second, first);
    RunIs(size, moves, c, k);
    DeliversOne(k, first + second);
    moves := RunOn(size, moves, c, k, TakeWorker);
    l := Next(k, TakeWorker);
  }

  lemma FrontIs(items: seq<Item>, front: seq<Item>)
    requires front != [] && |items| >= |front| && items[..|front|] == front
    ensures items != [] && items[0] == front[0]
  {
    assert items[0] == items[..|front|][0];
  }
}
