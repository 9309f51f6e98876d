/** What holds in every state that a pipe can reach, for every connection, whatever the threads, the
    users and the network do. */
module Theorems {
  import opened EventModel
  import opened QueueModel
  import opened Connections
  import opened Lives
  import opened Reactions
  import opened Invariants
  import opened Closing
  import opened Streams
  import opened Pipes
  import opened Projection
  import opened Refinement
  import opened Endings
  import opened Outcomes
  import opened Holdings
  import opened Runs
  import opened Realization
  import opened SelectorModel
  import PoolModel
  import B = BufferModel

  // ---------------------------------------------------------------- connecting

  /** The six handlers that the reader, the worker and the writer install. */
  predicate AllInstalled(c: Conn) {
    && HandlersOf(c, PendingClose) == [Once(PendingClose, ReaderEvent)]
    && HandlersOf(c, InboundData) == [Always(InboundData, WorkerRead)]
    && HandlersOf(c, OutboundData) == [Always(OutboundData, WriterEvent)]
    && Once(Close, ReaderEvent) in HandlersOf(c, Close) && Once(Close, WorkerClose) in HandlersOf(c, Close)
    && Once(Close, WriterEvent) in HandlersOf(c, Close)
  }

  /** CONNECTED is entered at most once in every run, and was entered if and only if every owner
      manages the connection. */
  lemma ConnectedOnce(size: nat, moves: seq<Move>, c: nat)
    requires Legal(NewPipe(size), moves) && c in After(NewPipe(size), moves).members
    ensures var conn := After(NewPipe(size), moves).members[c].conn;
      && conn.log.connects <= 1 && (conn.log.connects == 1 <==> conn.managedBy == EVERYONE)
      && (conn.state == StateConnected ==> conn.log.connects == 1)
  {
    hide Safe, Good, NewPipe, Forms, Shape, VotesOk, View;
    Reached(size, moves);
    var s := After(NewPipe(size), moves);
    GoodAt(s, c);
    PartsOfGood(View(s, c));
    ViewIs(s, c);
  }

  /** A CONNECTED connection has its read key registered and all six handlers installed if and only if
      none of its close handlers was called on the way; all six handlers are there under the same
      condition. Unless the reader's queue has seen an EXIT, the key is there exactly until the reader
      has handled the CLOSE. */
  lemma ConnectedIsHandedOver(size: nat, moves: seq<Move>, c: nat)
    requires Legal(NewPipe(size), moves) && c in After(NewPipe(size), moves).members
    requires After(NewPipe(size), moves).members[c].conn.state == StateConnected
    ensures var s := After(NewPipe(size), moves); var conn := s.members[c].conn;
      && s.members[c].progress == 10 && conn.canRead && conn.canWrite
      && (AllInstalled(conn) <==> Untold(conn.log.called))
      && (c in s.registry && AllInstalled(conn) <==> Untold(conn.log.called))
      && (!s.reader.exit ==> (c in s.registry <==> Reader !in conn.log.votes))
  {
    hide Safe, Good, NewPipe, View, AllInstalled, Untold;
    Reached(size, moves);
    var s := After(NewPipe(size), moves);
    GoodAt(s, c);
    ViewIs(s, c);
    KeyedAt(s, c);
    Connected(View(s, c));
    InstalledWhen(View(s, c));
    Keeping(View(s, c));
  }

  lemma Connected(l: Life)
    requires Good(l) && l.conn.state == StateConnected
    ensures l.progress == 10 && l.conn.canRead && l.conn.canWrite && Reader in l.conn.managedBy
  {
    hide Forms, Tokens, Course, Inbound, Interests, Shape, VotesOk, Timely;
    EveryoneIs(l.conn.managedBy);
  }

  lemma InstalledWhen(l: Life)
    requires Good(l) && l.conn.state == StateConnected
    ensures AllInstalled(l.conn) <==> Untold(l.conn.log.called)
  {
    hide Good, Tokens, Course, Inbound, Interests, Shape;
    GoodIs(l);
    EveryoneIs(l.conn.managedBy);
    ShapeAt(l.conn, l.progress, PendingClose);
    ShapeAt(l.conn, l.progress, InboundData);
    ShapeAt(l.conn, l.progress, OutboundData);
    ShapeAt(l.conn, l.progress, Close);
  }

  lemma Keeping(l: Life)
    requires Good(l) && Reader in l.conn.managedBy
    ensures Untold(l.conn.log.called) ==> l.conn.readKey
    ensures l.accepts.reader ==> (l.conn.readKey <==> Reader !in l.conn.log.votes)
  {
    hide Base, WorkerForm, WriterForm, AcceptorForm, Buffers, Course, Inbound, Interests;
  }

  /** The move that makes an INITIALIZED connection CONNECTED finds everything in place. */
  lemma ConnectingIsComplete(size: nat, moves: seq<Move>, m: Move, c: nat)
    requires Legal(NewPipe(size), moves) && Possible(After(NewPipe(size), moves), m)
    requires c in After(NewPipe(size), moves).members
    requires After(NewPipe(size), moves).members[c].conn.state == StateInitialized
    ensures var t := Taken(After(NewPipe(size), moves), m);
      && c in t.members
      && (t.members[c].conn.state == StateConnected ==> c in t.registry && AllInstalled(t.members[c].conn))
  {
    hide Safe, AllGood, Held, Loaded, Owned, Good, NewPipe, View, AllInstalled, Untold, Possible, Taken, Enabled, Next;
    Reached(size, moves);
    var s := After(NewPipe(size), moves);
    SafeIs(s);
    SafeKeeps(s, m);
    MoveFollows(s, m, c);
    var t := Taken(s, m);
    GoodAt(s, c);
    GoodAt(t, c);
    ViewIs(s, c);
    ViewIs(t, c);
    KeyedAt(t, c);
    if t.members[c].conn.state == StateConnected {
      var a :| Enabled(View(s, c), a) && View(t, c) == Next(View(s, c), a) && (a.WantClose? ==> m == Of(View(s, c).self, a));
      Connects(View(s, c), a);
      Connected(View(t, c));
      InstalledWhen(View(t, c));
      Keeping(View(t, c));
    }
  }

  lemma Connects(l: Life, a: Act)
    requires Good(l) && Enabled(l, a) && l.conn.state == StateInitialized && Next(l, a).conn.state == StateConnected
    ensures Untold(Next(l, a).conn.log.called)
  {
    hide Base, Forms, Course, Tokens, Inbound, Interests, Enabled, Next;
    UntoldYet(l);
    StepTells(l, a);
  }

  lemma UntoldYet(l: Life)
    requires Good(l) && l.conn.state == StateInitialized
    ensures Untold(l.conn.log.called)
  {
    hide Forms, Tokens, Inbound, Interests, Shape, VotesOk, Managers, Timely;
  }

  /** No move of the run brings the connection into PENDING_CLOSE or CLOSED while a handler of the
      reader, the worker or the writer for it is there. */
  ghost predicate Harmless(s: Pipe, moves: seq<Move>, c: nat)
    requires Legal(s, moves)
    decreases |moves|
  {
    moves == [] || (!HarmsIn(s, Taken(s, moves[0]), c) && Harmless(Taken(s, moves[0]), moves[1..], c))
  }

  predicate HarmsIn(s: Pipe, t: Pipe, c: nat) {
    c in s.members && c in t.members && Harms(s.members[c].conn, t.members[c].conn)
  }

  predicate UntoldIn(s: Pipe, c: nat) {
    c in s.members ==> Untold(s.members[c].conn.log.called)
  }

  /** A CONNECTED connection has its read key registered and all six handlers installed if and only if
      each close that came before, graceful or not, found none of the handlers of the reader, the worker
      and the writer for it. */
  lemma CompleteExactlyWhen(size: nat, moves: seq<Move>, c: nat)
    requires Legal(NewPipe(size), moves) && c in After(NewPipe(size), moves).members
    requires After(NewPipe(size), moves).members[c].conn.state == StateConnected
    ensures var s := After(NewPipe(size), moves);
      c in s.registry && AllInstalled(s.members[c].conn) <==> Harmless(NewPipe(size), moves, c)
  {
    hide Safe, NewPipe, AllInstalled, Untold, Harmless, Legal, After;
    ConnectedIsHandedOver(size, moves, c);
    SafeStart(size);
    NewIsEmpty(size);
    HarmlessRuns(NewPipe(size), moves, c);
  }

  lemma {:induction false} HarmlessRuns(s: Pipe, moves: seq<Move>, c: nat)
    requires Safe(s) && Legal(s, moves) && c in After(s, moves).members
    ensures Untold(After(s, moves).members[c].conn.log.called) <==> UntoldIn(s, c) && Harmless(s, moves, c)
    decreases |moves|
  {
    hide Safe, Possible, Taken, Untold, HarmsIn;
    if moves != [] {
      SafeKeeps(s, moves[0]);
      HarmlessMove(s, moves[0], c);
      HarmlessRuns(Taken(s, moves[0]), moves[1..], c);
    }
  }

  lemma HarmlessMove(s: Pipe, m: Move, c: nat)
    requires Safe(s) && Possible(s, m)
    ensures UntoldIn(Taken(s, m), c) <==> UntoldIn(s, c) && !HarmsIn(s, Taken(s, m), c)
  {
    hide Safe, AllGood, Held, Loaded, Owned, Good, Possible, Taken, View, Untold, Harms, Enabled, Next;
    SafeIs(s);
    var t := Taken(s, m);
    if c !in s.members {
      NewcomerIs(s, m, c);
      NewUntold(s.size);
    } else {
      MoveFollows(s, m, c);
      GoodAt(s, c);
      ViewIs(s, c);
      ViewIs(t, c);
      if View(t, c) == View(s, c) {
        SameHarmsNot(s.members[c].conn);
      } else {
        var a :| Enabled(View(s, c), a) && View(t, c) == Next(View(s, c), a) && (a.WantClose? ==> m == Of(View(s, c).self, a));
        StepTells(View(s, c), a);
      }
    }
  }

  lemma SameHarmsNot(c: Conn)
    ensures !Harms(c, c)
  {
  }

  /** Only an accept brings a connection into the pipe. */
  lemma NewcomerIs(s: Pipe, m: Move, c: nat)
    requires Safe(s) && Possible(s, m) && c !in s.members
    ensures c in Taken(s, m).members ==> Taken(s, m).members[c].conn == NewConnection(s.size)
  {
    hide Safe, AllGood, Held, Loaded, Spread, Manages, ReaderTurn, WorkerTurn, WriterTurn, WorkerDone, Exiting, BackPut,
      Interest, ReadInput, CloseConnection, Unmoved, Dequeue, View, NewConnection, Next, Enabled;
    SafeIs(s);
    match m
    case Accept(d) =>
    case Of(d, act) => OfMembers(s, m);
    case ReaderMove =>
      ReaderLived(s);
      TurnMembers(s, Taken(s, m), Dequeue(s.reader).1, TakeReader);
    case WorkerMove =>
      WorkerLived(s);
      TurnMembers(s, Taken(s, m), Dequeue(s.worker).1, TakeWorker);
    case WriterMove(chunk, took) =>
      WriterLived(s, chunk, took);
      TurnMembers(s, Taken(s, m), Dequeue(s.writer).1, TakeWriter(chunk, took));
    case WorkerEnds(left) => WorkerEndsLived(s, left);
    case WriterBack => WriterBackLived(s);
    case ExitOf(which) => ExitLived(s, which);
  }

  lemma NewUntold(size: nat)
    ensures Untold(NewConnection(size).log.called)
  {
    hide NewConnection;
    NewbornIs(size);
  }

  lemma TurnMembers(s: Pipe, t: Pipe, r: Option<Item>, a: Act)
    requires if r.Some? && Whom(r.value).Some? then Lived(s, t, Whom(r.value).value, a) else Unmoved(s, t)
    ensures t.members.Keys == s.members.Keys
  {
    hide View, Next, Enabled, PoolOk, Lines;
  }

  lemma OfMembers(s: Pipe, m: Move)
    requires AllGood(s) && Loaded(s) && m.Of? && Possible(s, m)
    ensures Taken(s, m).members.Keys == s.members.Keys
  {
    hide AllGood, Spread, Manages, Interest, ReadInput, CloseConnection, View, Next, Enabled, PoolOk, Lines;
    match m.act
    case Manage => ManageLived(s, m.c);
    case Arrive(input, _) => ArriveLived(s, m.c, input);
    case WantWrite => WantWriteLived(s, m.c);
    case WantClose(force) => WantCloseLived(s, m.c, force);
  }

  // ---------------------------------------------------------------- write interests and output

  /** In every run, until the connection is closed or the writer's queue sees an EXIT: the accepted
      write interests are the events that wait and the WRITE dispatches, less one while bytes are
      left; bytes left mean that an event waits. So once no event waits, WRITE was dispatched exactly
      once for each interest, and everything put has been sent. */
  lemma InterestsAreAnswered(size: nat, moves: seq<Move>, c: nat)
    requires Legal(NewPipe(size), moves) && c in After(NewPipe(size), moves).members
    requires var s := After(NewPipe(size), moves); !s.members[c].conn.log.closed && !s.writer.exit
    ensures var s := After(NewPipe(size), moves); var conn := s.members[c].conn; var left := B.HasRemaining(conn.writeBuffer);
      && conn.log.interests == Unanswered(s, c) + conn.log.writes - (if left then 1 else 0)
      && (left ==> Unanswered(s, c) > 0)
      && (Unanswered(s, c) == 0 ==> conn.log.writes == conn.log.interests && conn.log.sent == conn.log.put)
  {
    hide Safe, Good, NewPipe;
    Reached(size, moves);
    var s := After(NewPipe(size), moves);
    GoodAt(s, c);
    Answered(View(s, c));
  }

  lemma Answered(l: Life)
    requires Good(l) && !l.conn.log.closed && l.accepts.writer
    ensures var conn := l.conn; var left := B.HasRemaining(conn.writeBuffer);
      && conn.log.interests == Waiting(l) + conn.log.writes - (if left then 1 else 0)
      && (left ==> Waiting(l) > 0)
      && (Waiting(l) == 0 ==> conn.log.writes == conn.log.interests && conn.log.sent == conn.log.put)
  {
    hide Good, Base, Tokens, Course, Inbound, ReaderForm, WorkerForm, WriterForm, AcceptorForm, B.Content, B.Sound;
    GoodIs(l);
    NothingLeft(l.conn.writeBuffer);
    assert l.conn.log.sent + [] == l.conn.log.sent;
  }

  /** A write interest in a CONNECTED connection is accepted, and adds one event that waits. */
  lemma InterestIsAccepted(size: nat, moves: seq<Move>, c: nat)
    requires Legal(NewPipe(size), moves) && c in After(NewPipe(size), moves).members
    requires var s := After(NewPipe(size), moves); s.members[c].conn.state == StateConnected && !s.writer.exit
    ensures var s := After(NewPipe(size), moves); var t := Taken(s, Of(c, WantWrite));
      && c in t.members && t.members[c].conn.log.interests == s.members[c].conn.log.interests + 1
      && Unanswered(t, c) == Unanswered(s, c) + 1
  {
    hide Safe, AllGood, Good, NewPipe, Spread, Interest, Lived, View, Unanswered;
    Reached(size, moves);
    var s := After(NewPipe(size), moves);
    GoodAt(s, c);
    SafeIs(s);
    WantWriteLived(s, c);
    ViewIs(s, c);
    Wanted(View(s, c));
    LivedView(s, Taken(s, Of(c, WantWrite)), c, WantWrite);
    PendingIs(s, c);
    PendingIs(Taken(s, Of(c, WantWrite)), c);
  }

  lemma Wanted(l: Life)
    requires Good(l) && l.conn.state == StateConnected && l.accepts.writer
    ensures var m := Next(l, WantWrite); m.conn.log.interests == l.conn.log.interests + 1 && Waiting(m) == Waiting(l) + 1
  {
    hide Good, Tokens, Course, Inbound, Forms, Shape, Interest, Carry;
    GoodIs(l);
    EveryoneIs(l.conn.managedBy);
    InterestReaction(l, 0);
  }

  /** In every run, errors and closes included: the bytes sent so far followed by those left in the
      write buffer are the chunks that the WRITE handler put; and it is asked for a new chunk only
      when everything before was sent. */
  lemma OutputIsWhatWasPut(size: nat, moves: seq<Move>, c: nat, chunk: seq<byte>)
    requires Legal(NewPipe(size), moves) && c in After(NewPipe(size), moves).members
    ensures var conn := After(NewPipe(size), moves).members[c].conn;
      && conn.log.sent + B.Content(conn.writeBuffer) == conn.log.put
      && (Refill(conn, chunk).log.writes != conn.log.writes ==> conn.log.sent == conn.log.put)
  {
    hide Safe, Good, NewPipe, View, Base, Forms, B.Content, Cleared, Filled, Flipped;
    Reached(size, moves);
    var s := After(NewPipe(size), moves);
    GoodAt(s, c);
    PartsOfGood(View(s, c));
    ViewIs(s, c);
    BuffersOf(View(s, c));
    NothingLeft(s.members[c].conn.writeBuffer);
    assert s.members[c].conn.log.sent + [] == s.members[c].conn.log.sent;
  }

  /** A round of the writer about a connection that is closing gracefully shuts its sending end down
      if and only if `send` takes all there is. Then everything put has been sent and one event less
      waits; so the shutdown comes too soon, with events still waiting, exactly if more than one
      waited. Otherwise as many wait as before. */
  lemma ShutdownExactlyWhen(size: nat, moves: seq<Move>, c: nat, chunk: seq<byte>, took: nat)
    requires Legal(NewPipe(size), moves) && Possible(After(NewPipe(size), moves), WriterMove(chunk, Some(took)))
    requires WriterHead(After(NewPipe(size), moves)) == Some(EventOf(c, OutboundData))
    requires c in After(NewPipe(size), moves).members
    requires After(NewPipe(size), moves).members[c].conn.state == StatePendingClose
    ensures var s := After(NewPipe(size), moves); var t := Taken(s, WriterMove(chunk, Some(took)));
      c in t.members &&
      var conn, later := s.members[c].conn, t.members[c].conn; var whole := took == Room(Refill(conn, chunk).writeBuffer);
      && later.state == StatePendingClose
      && later.log.shutdowns == conn.log.shutdowns + (if whole then 1 else 0)
      && Unanswered(t, c) == Unanswered(s, c) - (if whole then 1 else 0)
      && (whole ==> later.log.sent == later.log.put)
  {
    hide Safe, Good, NewPipe, View, Possible, Taken, WriterTurn, WriterMay, WriterTook, Enabled, Unanswered, Waiting, Refill;
    Reached(size, moves);
    var s := After(NewPipe(size), moves);
    var t := Taken(s, WriterMove(chunk, Some(took)));
    MayWriter(s, chunk, Some(took));
    WriterTakes(s, c, chunk, Some(took));
    GoodAt(s, c);
    ViewIs(s, c);
    ShutsWhenDone(View(s, c), chunk, took);
    PendingIs(s, c);
    PendingIs(t, c);
  }

  /** The writer handles an event of `c`. */
  ghost predicate Handles(s: Pipe, t: Pipe, c: nat, chunk: seq<byte>, took: Option<nat>) {
    && c in s.members && c in t.members && View(t, c).conn == t.members[c].conn
    && Enabled(View(s, c), TakeWriter(chunk, took)) && View(s, c).writer[0] == EventOf(c, OutboundData)
    && View(t, c) == WriterTook(View(s, c), chunk, took)
  }

  lemma WriterTakes(s: Pipe, c: nat, chunk: seq<byte>, took: Option<nat>)
    requires Safe(s) && c in s.members && s.resend.None? && WriterMay(s, chunk, took)
    requires WriterHead(s) == Some(EventOf(c, OutboundData))
    ensures Handles(s, WriterTurn(s, chunk, took), c, chunk, took)
  {
    hide Safe, AllGood, Held, Loaded, Owned, View, WriterTurn, Lived, WriterTook, MaySend, About;
    SafeIs(s);
    WriterLived(s, chunk, took);
    LivedView(s, WriterTurn(s, chunk, took), c, TakeWriter(chunk, took));
    DequeueIs(s.writer, c);
    LinesAre(s, c);
  }

  lemma MayWriter(s: Pipe, chunk: seq<byte>, took: Option<nat>)
    requires Possible(s, WriterMove(chunk, took))
    ensures s.resend.None? && WriterMay(s, chunk, took) && Taken(s, WriterMove(chunk, took)) == WriterTurn(s, chunk, took)
  {
    hide WriterMay, WriterTurn;
  }

  lemma ShutsWhenDone(l: Life, chunk: seq<byte>, took: nat)
    requires Good(l) && Enabled(l, TakeWriter(chunk, Some(took))) && l.writer[0] == EventOf(l.self, OutboundData)
    requires l.conn.state == StatePendingClose
    ensures var m := WriterTook(l, chunk, Some(took)); var c, d := l.conn, m.conn;
      var whole := took == Room(Refill(c, chunk).writeBuffer);
      && d.state == StatePendingClose && d.log.shutdowns == c.log.shutdowns + (if whole then 1 else 0)
      && Waiting(m) == Waiting(l) - (if whole then 1 else 0) && (whole ==> d.log.sent == d.log.put)
  {
    hide Good, Base, Forms, WriterTook, Refill, B.Content, B.Sound;
    GoodIs(l);
    BuffersOf(l);
    MayWrite(l);
    WriterSent(l, chunk, took);
    AllSent(l, chunk, took);
    NotResending(l, chunk, Some(took));
    Popped(l.writer, EventOf(l.self, OutboundData));
    var m := WriterTook(l, chunk, Some(took));
    NothingLeft(m.conn.writeBuffer);
    assert m.conn.log.sent + [] == m.conn.log.sent;
  }

  lemma MayWrite(l: Life)
    requires Base(l) && l.conn.state == StatePendingClose
    ensures l.conn.canWrite
  {
    hide Shape, VotesOk, Managers, Timely;
  }

  lemma AllSent(l: Life, chunk: seq<byte>, took: nat)
    requires Buffers(l) && l.conn.canWrite && Enabled(l, TakeWriter(chunk, Some(took)))
    requires l.writer[0] == EventOf(l.self, OutboundData)
    ensures B.HasRemaining(WriterTook(l, chunk, Some(took)).conn.writeBuffer) <==> took < Room(Refill(l.conn, chunk).writeBuffer)
  {
    hide Refill, B.Content;
    RefillPuts(l.conn, chunk);
  }

  /** From a graceful close after CONNECTED on, until CLOSED or an EXIT on the writer's queue: each
      event that waited, or was accepted since, is one that waits or one shutdown. So once no event
      waits, the sending end was shut down if and only if one waited at first or was accepted since;
      without a write interest it never is. */
  lemma GracefulCloseShutsDown(size: nat, moves: seq<Move>, c: nat, more: seq<Move>)
    requires Legal(NewPipe(size), moves) && c in After(NewPipe(size), moves).members
    requires var conn := After(NewPipe(size), moves).members[c].conn; conn.state == StatePendingClose && conn.managedBy == EVERYONE
    requires Legal(After(NewPipe(size), moves), more)
    requires var u := After(After(NewPipe(size), moves), more); c in u.members ==> !u.members[c].conn.log.closed && !u.writer.exit
    ensures var s := After(NewPipe(size), moves); var u := After(s, more);
      c in u.members &&
      var first, last := s.members[c].conn.log, u.members[c].conn.log;
      && u.members[c].conn.state == StatePendingClose
      && last.shutdowns - first.shutdowns + Unanswered(u, c) == Unanswered(s, c) + last.interests - first.interests
      && last.shutdowns >= first.shutdowns && last.interests >= first.interests
      && (Unanswered(u, c) == 0 ==> (last.shutdowns > first.shutdowns <==> Unanswered(s, c) > 0 || last.interests > first.interests))
  {
    hide Safe, Good, NewPipe, View, Legal, After, Unanswered;
    Reached(size, moves);
    var s := After(NewPipe(size), moves);
    var u := After(s, more);
    GoodAt(s, c);
    ViewIs(s, c);
    IsDraining(View(s, c));
    OnwardRuns(s, more, c);
    ViewIs(u, c);
    PendingIs(s, c);
    PendingIs(u, c);
  }

  lemma IsDraining(l: Life)
    requires Good(l) && l.conn.state == StatePendingClose && l.conn.managedBy == EVERYONE
    ensures Draining(l)
  {
    hide Forms, Course, Tokens, Inbound, Interests, Shape, VotesOk, Timely;
  }

  // ---------------------------------------------------------------- the acceptor's queue

  /** In every run: from the first step of its hand-over on, and until the acceptor hears of its CLOSE, a
      connection is on the acceptor's queue exactly once, and before that step it is not. */
  lemma AcceptorHolds(size: nat, moves: seq<Move>, c: nat)
    requires Legal(NewPipe(size), moves) && c in After(NewPipe(size), moves).members
    ensures var s := After(NewPipe(size), moves); var m := s.members[c];
      && (m.progress == 0 ==> About(s.acceptor.items, c) == [])
      && (m.progress > 0 && (Close, AcceptorClose) !in m.conn.log.called ==> About(s.acceptor.items, c) == [DataOf(c)])
  {
    hide Safe, Good, NewPipe, Base, ReaderForm, WorkerForm, WriterForm, Buffers, About;
    Reached(size, moves);
    GoodAt(After(NewPipe(size), moves), c);
    GoodIs(View(After(NewPipe(size), moves), c));
  }

  // ---------------------------------------------------------------- input

  /** In every run the bytes given to the READ handler followed by those in the queued tasks are the
      bytes received, until tasks were given up; and still the beginning of them afterwards, if CLOSED
      was not entered before CONNECTED. The read buffer is empty before every read, with its full
      capacity, so that the overflow branch is taken only for the capacity 0. */
  lemma InputIsDelivered(size: nat, moves: seq<Move>, c: nat)
    requires Legal(NewPipe(size), moves) && c in After(NewPipe(size), moves).members
    ensures var s := After(NewPipe(size), moves); var conn := s.members[c].conn; var log := conn.log;
      var queued := Contents(About(s.worker.items, c));
      && (!log.dropped ==> log.delivered + queued == log.received)
      && (!log.rash ==> log.delivered + queued <= log.received)
      && (log.dropped ==> log.rash || log.closed || s.worker.exit)
      && conn.readBuffer.position == 0 && conn.readBuffer.limit == size
      && (B.HasRemaining(conn.readBuffer) <==> size > 0)
  {
    hide Safe, Good, NewPipe, Contents, Base, Forms;
    Reached(size, moves);
    SizeKept(NewPipe(size), moves);
    var s := After(NewPipe(size), moves);
    GoodAt(s, c);
    GoodIs(View(s, c));
    BuffersOf(View(s, c));
    assert NewPipe(size).size == size by {
      NewSize(size);
    }
  }

  // ---------------------------------------------------------------- what the pipe holds

  lemma {:induction false} UpToCounts(n: nat, x: nat)
    ensures UpTo(n)[x] == if x < n then 1 else 0
  {
    if n > 0 {
      UpToCounts(n - 1, x);
    }
  }

  /** In every run each of the worker's buffers is in exactly one place: in the pool, in one queued
      task, or in the task being processed. Whole batches were made, and every buffer in the pool is
      as good as new, so that every buffer handed out is. */
  lemma BuffersAreOwnedOnce(size: nat, moves: seq<Move>, id: nat)
    requires Legal(NewPipe(size), moves)
    ensures var s := After(NewPipe(size), moves);
      && SlabsOf(s.pool.items)[id] + SlabsOf(s.worker.items)[id]
         + (if s.serving.Some? then SlabOf(s.serving.value)[id] else 0) == (if id < s.made then 1 else 0)
      && s.made % PoolModel.BATCH_SIZE == 0
      && (forall i :: 0 <= i < |s.pool.items| ==> Fresh(s.pool.items[i], size))
  {
    hide Safe, AllGood, Held, Loaded, NewPipe, SlabsOf, SlabOf, UpTo, Fresh;
    Reached(size, moves);
    SizeKept(NewPipe(size), moves);
    NewSize(size);
    var s := After(NewPipe(size), moves);
    SafeIs(s);
    UpToCounts(s.made, id);
    AllFresh(s);
    var held := if s.serving.Some? then SlabOf(s.serving.value) else multiset{};
    assert (SlabsOf(s.pool.items) + SlabsOf(s.worker.items) + held)[id] == UpTo(s.made)[id];
  }

  lemma AllFresh(s: Pipe)
    requires AllGood(s)
    ensures forall i :: 0 <= i < |s.pool.items| ==> Fresh(s.pool.items[i], s.size)
  {
    hide Good, Fresh, Quiet, View;
  }

  /** In every run the reader's load is the number of keys in its selector, which are those of the
      connections that it has taken on and not yet heard the CLOSE of. */
  lemma LoadCountsKeys(size: nat, moves: seq<Move>)
    requires Legal(NewPipe(size), moves)
    ensures var s := After(NewPipe(size), moves);
      && s.load == |s.registry| >= 0
      && (forall c :: c in s.registry <==> c in s.members && s.members[c].conn.readKey)
      && (forall c :: c in s.registry ==> s.registry[c].count == 1 && s.registry[c].attachment == c)
  {
    hide Safe, AllGood, Held, Owned, NewPipe;
    Reached(size, moves);
    SafeIs(After(NewPipe(size), moves));
  }

  // ---------------------------------------------------------------- refinement, both ways

  /** Whatever step the pipe takes, each of its connections takes one step of its own life, or none:
      connections do not disturb each other. */
  lemma StepsAreLives(size: nat, moves: seq<Move>, move: Move, c: nat)
    requires Legal(NewPipe(size), moves) && Possible(After(NewPipe(size), moves), move)
    requires c in After(NewPipe(size), moves).members
    ensures var s := After(NewPipe(size), moves); var t := Taken(s, move);
      c in t.members && Follows(move, View(s, c), View(t, c))
  {
    hide Safe, NewPipe, AllGood, Possible, Taken, View, Follows;
    Reached(size, moves);
    var s := After(NewPipe(size), moves);
    SafeIs(s);
    MoveFollows(s, move, c);
  }

  /** A step of the same kind; a read leaves the choice of the pool buffer to the pipe. */
  predicate SameStep(a: Act, b: Act) {
    b == a || (a.Arrive? && b.Arrive? && a.input == b.input)
  }

  /** And whatever step a connection's life allows, some moves of the pipe bring it about, whatever
      its other connections are at: no connection can keep another from going on. */
  lemma LivesAreSteps(size: nat, moves: seq<Move>, c: nat, a: Act) returns (more: seq<Move>, b: Act)
    requires Legal(NewPipe(size), moves) && c in After(NewPipe(size), moves).members
    requires Enabled(View(After(NewPipe(size), moves), c), a)
    ensures Legal(NewPipe(size), moves + more) && SameStep(a, b)
    ensures var s := After(NewPipe(size), moves); var t := After(NewPipe(size), moves + more);
      c in t.members && Enabled(View(s, c), b) && View(t, c) == Next(View(s, c), b)
    ensures forall x <- more :: x.Of? ==> x.c == c && SameStep(x.act, a)
  {
    hide Safe, NewPipe, Possible, Taken, View, Enabled, Next;
    Reached(size, moves);
    var s := After(NewPipe(size), moves);
    if a.Arrive? {
      ArriveAny(View(s, c), a.input, a.id);
      var id := RealizeArrive(s, c, a.input);
      b := Arrive(a.input, id);
      more := [Of(c, Arrive(a.input, 0))];
    } else {
      b := a;
      more := Realize(s, c, a);
    }
    LegalJoins(NewPipe(size), moves, more);
  }

  lemma ArriveAny(l: Life, input: Input, id: nat)
    requires Enabled(l, Arrive(input, id))
    ensures Enabled(l, Arrive(input, 0))
  {
  }
}
