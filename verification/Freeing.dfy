/** When a connection is freed, and when a close leaves nothing behind: in every run of a pipe, for
    every connection, whatever the threads, the users and the network do. */
module Freeing {
  import opened EventModel
  import opened QueueModel
  import opened Connections
  import opened Lives
  import opened Reactions
  import opened Invariants
  import opened Closing
  import opened Streams
  import opened Endings
  import opened Outcomes
  import opened Pipes
  import opened Projection
  import opened Refinement
  import opened Holdings
  import opened Runs
  import opened Realization
  import B = BufferModel

  predicate EveryOwner(votes: seq<Owner>) {
    Reader in votes && Worker in votes && Writer in votes && Acceptor in votes
  }

  /** In every run a connection is freed at most once, exactly when its four owners have voted, and
      the owner that frees it is not the acceptor. */
  lemma FreedAtMostOnce(size: nat, moves: seq<Move>, c: nat)
    requires Legal(NewPipe(size), moves) && c in After(NewPipe(size), moves).members
    ensures var log := After(NewPipe(size), moves).members[c].conn.log;
      && |log.frees| <= 1 && Acceptor !in log.frees && Client !in log.votes
      && (log.frees != [] <==> EveryOwner(log.votes))
  {
    hide Safe, Good, NewPipe, Base, Forms;
    Reached(size, moves);
    var s := After(NewPipe(size), moves);
    GoodAt(s, c);
    PartsOfGood(View(s, c));
    ViewIs(s, c);
    PartsOf(View(s, c));
  }

  /** In every run a connection that has been freed had its last CLOSE handler installed, and none is
      left to be called. Unless the writer's queue has seen an EXIT the converse holds too, once no
      CLOSE event is queued. Unless the reader's queue has, the last owner to vote frees it. */
  lemma FreedExactlyWhen(size: nat, moves: seq<Move>, c: nat)
    requires Legal(NewPipe(size), moves) && c in After(NewPipe(size), moves).members
    ensures var s := After(NewPipe(size), moves); var m := s.members[c]; var log := m.conn.log;
      var all := Between(m.progress, 9) && HandlersOf(m.conn, Close) == [];
      && (log.frees != [] ==> all)
      && (!s.writer.exit && NoCloseLeft(View(s, c)) ==> (log.frees != [] <==> all))
      && (!s.reader.exit && log.frees != [] ==> log.votes != [] && log.frees == [log.votes[|log.votes| - 1]])
  {
    hide Safe, Good, NewPipe, View, NoCloseLeft;
    Reached(size, moves);
    var s := After(NewPipe(size), moves);
    GoodAt(s, c);
    ViewIs(s, c);
    FreedWhen(View(s, c));
  }

  lemma FreedWhen(l: Life)
    requires Good(l)
    ensures var log := l.conn.log; var all := Between(l.progress, 9) && HandlersOf(l.conn, Close) == [];
      && (log.frees != [] ==> all) && (l.accepts.writer && NoCloseLeft(l) && all ==> log.frees != [])
      && (l.accepts.reader && log.frees != [] ==> log.votes != [] && log.frees == [log.votes[|log.votes| - 1]])
  {
    hide Good, Forms, Inbound, Interests, Flags, Managers, Shape;
    GoodIs(l);
    ShapeAt(l.conn, l.progress, Close);
  }

  /** In every run a connection closed after CONNECTED has been freed as soon as its CLOSE events are
      handled, unless the writer's queue has seen an EXIT. */
  lemma ClosedIsFreed(size: nat, moves: seq<Move>, c: nat)
    requires Legal(NewPipe(size), moves) && c in After(NewPipe(size), moves).members
    requires var s := After(NewPipe(size), moves); var log := s.members[c].conn.log;
      log.closed && !log.rash && !s.writer.exit && NoCloseLeft(View(s, c))
    ensures |After(NewPipe(size), moves).members[c].conn.log.frees| == 1
  {
    hide Safe, Good, NewPipe, View, NoCloseLeft;
    Reached(size, moves);
    FreedAtMostOnce(size, moves, c);
    var s := After(NewPipe(size), moves);
    GoodAt(s, c);
    ViewIs(s, c);
    EveryoneTold(View(s, c));
    WriterHeard(View(s, c));
    FreedIfHeard(View(s, c));
  }

  lemma WriterHeard(l: Life)
    requires Good(l) && (Close, WriterEvent) in l.conn.log.called && l.accepts.writer
    ensures Heard(l)
  {
    hide Base, Forms, Course, Inbound, Interests;
  }

  lemma EveryoneTold(l: Life)
    requires Good(l) && l.conn.log.closed && !l.conn.log.rash
    ensures AllCalled(l.conn.log.called)
  {
    hide Base, Forms, Tokens, Inbound, Interests;
  }

  /** Once the CLOSE events are handled, what decides is whether the writer got its own. */
  lemma FreedIfHeard(l: Life)
    requires Good(l) && NoCloseLeft(l) && (Close, WriterEvent) in l.conn.log.called
    ensures l.conn.log.frees != [] <==> Heard(l)
  {
    hide Good, Forms, Inbound, Interests, Flags, Managers, Shape;
    GoodIs(l);
  }

  // ---------------------------------------------------------------- from the close on

  /** A move closes the connection for the first time. */
  ghost predicate Closes(size: nat, moves: seq<Move>, m: Move, c: nat) {
    && Legal(NewPipe(size), moves) && Possible(After(NewPipe(size), moves), m)
    && c in After(NewPipe(size), moves).members && !After(NewPipe(size), moves).members[c].conn.log.closed
    && c in Taken(After(NewPipe(size), moves), m).members
    && Taken(After(NewPipe(size), moves), m).members[c].conn.log.closed
  }

  /** The step of the connection's own life that closes it, on the way to CLOSED. */
  lemma ClosingStep(size: nat, moves: seq<Move>, m: Move, c: nat) returns (k: Life, id: nat)
    requires Closes(size, moves, m, c)
    ensures var s := After(NewPipe(size), moves); var t := Taken(s, m);
      && Safe(s) && Safe(t) && Good(View(s, c)) && Good(View(t, c))
      && Dooms(View(s, c), k) && View(t, c) == Carry(k, EnterState(k.conn, StateClosed, k.accepts), id)
  {
    hide Safe, AllGood, Held, Loaded, Owned, Good, NewPipe, View, Possible, Taken, Enabled, Next, Dooms, Carry, EnterState;
    Reached(size, moves);
    var s := After(NewPipe(size), moves);
    var t := Taken(s, m);
    SafeIs(s);
    SafeKeeps(s, m);
    GoodAt(s, c);
    GoodAt(t, c);
    ViewIs(s, c);
    ViewIs(t, c);
    MoveFollows(s, m, c);
    var a :| Enabled(View(s, c), a) && View(t, c) == Next(View(s, c), a) && (a.WantClose? ==> m == Of(View(s, c).self, a));
    k, id := FirstClose(View(s, c), a);
  }

  /** A connection closed when all four CLOSE handlers are there is freed, exactly once, if and only if
      the writer's queue was open when CLOSE was dispatched: whatever happens from then on, as soon as
      its CLOSE events are handled. */
  lemma FreedIfWriterOpen(size: nat, moves: seq<Move>, m: Move, c: nat, more: seq<Move>)
    requires Closes(size, moves, m, c) && Between(After(NewPipe(size), moves).members[c].progress, 9)
    requires Legal(Taken(After(NewPipe(size), moves), m), more)
    requires var u := After(Taken(After(NewPipe(size), moves), m), more); c in u.members ==> NoCloseLeft(View(u, c))
    ensures var s := After(NewPipe(size), moves); var u := After(Taken(s, m), more);
      c in u.members && |u.members[c].conn.log.frees| == if s.writer.exit then 0 else 1
  {
    hide Safe, Good, NewPipe, View, Possible, Taken, NoCloseLeft, Carry, EnterState, Onward, Heard, Dooms;
    var s := After(NewPipe(size), moves);
    var t := Taken(s, m);
    var k, id := ClosingStep(size, moves, m, c);
    ViewIs(s, c);
    HeardAtClose(View(s, c), k, id);
    OnwardRuns(t, more, c);
    var u := After(t, more);
    SafeRuns(t, more);
    GoodAt(u, c);
    ViewIs(u, c);
    StaysHeard(View(t, c), View(u, c));
    FreedIfHeard(View(u, c));
    FreedOnce(View(u, c));
  }

  lemma FreedOnce(l: Life)
    requires Good(l)
    ensures |l.conn.log.frees| <= 1
  {
    hide Forms, Course, Tokens, Inbound, Interests, Shape, Flags, Managers, Timely;
  }

  lemma HeardAtClose(l: Life, k: Life, id: nat)
    requires Dooms(l, k) && Good(Carry(k, EnterState(k.conn, StateClosed, k.accepts), id))
    ensures var m := Carry(k, EnterState(k.conn, StateClosed, k.accepts), id);
      && ((Close, WriterEvent) in m.conn.log.called <==> Between(l.progress, 9)) && m.conn.state == StateClosed
      && (Between(l.progress, 9) ==> (Heard(m) <==> l.accepts.writer))
  {
    hide Shape, VotesOk, EnterState, Carry, Tokens, Forms, Buffers, Flags, Timely, Managers, Mark, Voters, Inbound, Interests;
    BaseVotes(k);
    NoneCalled(k);
    NoneVoted(k);
    ClosedReaction(k, id);
    WriterSilent(k.conn, k.progress, k.accepts);
    WriterMarked(k.conn, k.progress);
    var m := Carry(k, EnterState(k.conn, StateClosed, k.accepts), id);
    if Between(l.progress, 9) && l.accepts.writer {
      WriterHeard(m);
    } else {
      NoClose(k);
    }
  }

  lemma WriterMarked(c: Conn, progress: nat)
    ensures var (a, r, w, t) := Armed(c, progress);
      (Close, WriterEvent) in
        Mark(Mark(Mark(Mark(c.log.called, AcceptorClose, a), ReaderEvent, r), WorkerClose, w), WriterEvent, t)
      <==> (Close, WriterEvent) in c.log.called || t
  {
  }

  lemma NoClose(l: Life)
    requires Base(l) && Forms(l) && Course(l) && Tokens(l) && !l.conn.log.closed
    ensures EventOf(l.self, Close) !in l.writer
  {
    hide Base, Course, ReaderForm, WorkerForm, AcceptorForm, Buffers;
    NoneCalled(l);
  }

  lemma StaysHeard(l: Life, m: Life)
    requires Onward(l, m) && (Close, WriterEvent) in l.conn.log.called
    ensures (Close, WriterEvent) in m.conn.log.called && (Heard(m) <==> Heard(l))
  {
    hide Heard, Waiting;
  }

  /** The connection is CLOSED all along the run. */
  ghost predicate StaysClosed(s: Pipe, moves: seq<Move>, c: nat)
    requires Legal(s, moves)
    decreases |moves|
  {
    && c in s.members && s.members[c].conn.state == StateClosed
    && (moves == [] || StaysClosed(Taken(s, moves[0]), moves[1..], c))
  }

  /** A close that comes earlier, before the writer's CLOSE handler is there, frees nothing: not before
      the connection leaves CLOSED again, by becoming CONNECTED or by a graceful close. */
  lemma EarlyCloseFreesNothing(size: nat, moves: seq<Move>, m: Move, c: nat, more: seq<Move>)
    requires Closes(size, moves, m, c) && !Between(After(NewPipe(size), moves).members[c].progress, 9)
    requires Legal(Taken(After(NewPipe(size), moves), m), more)
    requires StaysClosed(Taken(After(NewPipe(size), moves), m), more, c)
    ensures var u := After(Taken(After(NewPipe(size), moves), m), more);
      c in u.members && u.members[c].conn.log.frees == []
  {
    hide Safe, Good, NewPipe, View, Possible, Taken, Carry, EnterState, Heard, Dooms, StaysClosed;
    var s := After(NewPipe(size), moves);
    var t := Taken(s, m);
    var k, id := ClosingStep(size, moves, m, c);
    ViewIs(s, c);
    HeardAtClose(View(s, c), k, id);
    ViewIs(t, c);
    UntoldWhileClosed(t, more, c);
  }

  lemma {:induction false} UntoldWhileClosed(s: Pipe, moves: seq<Move>, c: nat)
    requires Safe(s) && Legal(s, moves) && StaysClosed(s, moves, c) && (Close, WriterEvent) !in s.members[c].conn.log.called
    ensures var u := After(s, moves); c in u.members && u.members[c].conn.log.frees == []
    decreases |moves|
  {
    hide Safe, Good, View, Possible, Taken;
    GoodAt(s, c);
    ViewIs(s, c);
    if moves == [] {
      UntoldUnfreed(View(s, c));
    } else {
      WhileClosed(s, moves[0], c);
      SafeKeeps(s, moves[0]);
      UntoldWhileClosed(Taken(s, moves[0]), moves[1..], c);
    }
  }

  lemma UntoldUnfreed(l: Life)
    requires Good(l) && (Close, WriterEvent) !in l.conn.log.called
    ensures l.conn.log.frees == []
  {
    hide Forms, Course, Inbound, Interests, Shape, Flags, Managers, Timely;
  }

  lemma WhileClosed(s: Pipe, m: Move, c: nat)
    requires Safe(s) && Possible(s, m) && c in s.members && s.members[c].conn.state == StateClosed
    requires (Close, WriterEvent) !in s.members[c].conn.log.called
    ensures c in Taken(s, m).members && (Close, WriterEvent) !in Taken(s, m).members[c].conn.log.called
  {
    hide Safe, AllGood, Held, Loaded, Owned, Good, Possible, Taken, View, Enabled, Next;
    SafeIs(s);
    GoodAt(s, c);
    ViewIs(s, c);
    MoveFollows(s, m, c);
    var t := Taken(s, m);
    ViewIs(t, c);
    if View(t, c) != View(s, c) {
      var a :| Enabled(View(s, c), a) && View(t, c) == Next(View(s, c), a) && (a.WantClose? ==> m == Of(View(s, c).self, a));
      ClosedCallsNone(View(s, c), a);
    }
  }

  predicate CleanIn(s: Pipe, c: nat) {
    c in s.members && Clean(View(s, c))
  }

  /** Clean whatever happens, as long as the user does not close gracefully what is closed. */
  ghost predicate StaysClean(s: Pipe, c: nat) {
    forall more :: Legal(s, more) && Of(c, WantClose(false)) !in more ==> CleanIn(After(s, more), c)
  }

  /** If the close is well timed, then whatever happens later, EXITs included: the connection stays
      closed; as soon as its CLOSE events are handled it is freed; and when it is freed nothing about
      it is left on any queue or in the hands of the worker or the writer, its key is unregistered,
      and its hand-over is complete. */
  lemma NothingLeftBehind(size: nat, moves: seq<Move>, m: Move, c: nat, more: seq<Move>)
    requires Closes(size, moves, m, c) && WellTimed(View(After(NewPipe(size), moves), c))
    requires Legal(Taken(After(NewPipe(size), moves), m), more) && Of(c, WantClose(false)) !in more
    ensures var u := After(Taken(After(NewPipe(size), moves), m), more);
      && c in u.members && u.members[c].conn.state == StateClosed
      && (u.members[c].conn.log.frees != [] <==> NoCloseLeft(View(u, c)))
      && (u.members[c].conn.log.frees != [] ==>
          Lines(u, c) == ([], [], [], [], false, false) && c !in u.registry && u.members[c].progress == 10)
    ensures CleanIn(After(Taken(After(NewPipe(size), moves), m), more), c)
  {
    hide Safe, Good, NewPipe, View, Possible, Taken, Dooms, Carry, EnterState, Fit, WellTimed, Lines;
    var k, id := ClosingStep(size, moves, m, c);
    var t := Taken(After(NewPipe(size), moves), m);
    CloseFits(View(After(NewPipe(size), moves), c), k, id);
    FitRuns(t, more, c);
    var u := After(t, more);
    SafeRuns(t, more);
    GoodAt(u, c);
    FitIsClean(View(u, c));
    FitIsClosed(View(u, c));
    ViewIs(u, c);
    LinesAre(u, c);
    KeyedAt(u, c);
  }

  lemma FitIsClosed(l: Life)
    requires Good(l) && Fit(l)
    ensures l.conn.state == StateClosed
  {
    hide Base, Forms, Tokens, Inbound, Interests, Swept, Heard;
  }

  /** A close leaves nothing behind, whatever happens later, if and only if it is well timed: it comes
      after CONNECTED, the queues of the reader and the writer have not seen an EXIT, nor has the
      worker's or the worker has nothing to do for the connection. */
  lemma CloseIsCleanExactlyWhen(size: nat, moves: seq<Move>, m: Move, c: nat)
    requires Closes(size, moves, m, c)
    ensures StaysClean(Taken(After(NewPipe(size), moves), m), c) <==> WellTimed(View(After(NewPipe(size), moves), c))
  {
    hide Safe, Good, NewPipe, View, Possible, Taken, WellTimed, CleanIn, Legal, After;
    var s := After(NewPipe(size), moves);
    var t := Taken(s, m);
    if WellTimed(View(s, c)) {
      forall more | Legal(t, more) && Of(c, WantClose(false)) !in more
        ensures CleanIn(After(t, more), c)
      {
        NothingLeftBehind(size, moves, m, c, more);
      }
    } else {
      var more := IllTimed(size, moves, m, c);
    }
  }

  /** Otherwise the threads alone bring about a state that is not clean. */
  lemma IllTimed(size: nat, moves: seq<Move>, m: Move, c: nat) returns (more: seq<Move>)
    requires Closes(size, moves, m, c) && !WellTimed(View(After(NewPipe(size), moves), c))
    ensures Legal(Taken(After(NewPipe(size), moves), m), more) && Of(c, WantClose(false)) !in more
    ensures !CleanIn(After(Taken(After(NewPipe(size), moves), m), more), c)
  {
    hide Safe, Good, NewPipe, View, Possible, Taken, Dooms, Doomed, Carry, EnterState, Clean, WellTimed, LifeLegal, LifeAfter;
    var s := After(NewPipe(size), moves);
    var k, id := ClosingStep(size, moves, m, c);
    CloseDooms(View(s, c), k, id);
    var acts := Spoils(View(s, c), View(Taken(s, m), c));
    more := RealizeAll(Taken(s, m), c, acts);
  }

  /** After a well-timed close the free stays within reach: from every continuation without a graceful
      close, EXITs included, moves of the three threads alone free the connection and leave nothing. */
  lemma FreeIsReachable(size: nat, moves: seq<Move>, m: Move, c: nat, more: seq<Move>) returns (last: seq<Move>)
    requires Closes(size, moves, m, c) && WellTimed(View(After(NewPipe(size), moves), c))
    requires Legal(Taken(After(NewPipe(size), moves), m), more) && Of(c, WantClose(false)) !in more
    ensures var u := After(Taken(After(NewPipe(size), moves), m), more);
      && OfThreads(last) && Legal(u, last)
      && var v := After(u, last); c in v.members && |v.members[c].conn.log.frees| == 1 && Vanished(View(v, c))
  {
    hide Safe, Good, NewPipe, View, Possible, Taken, Dooms, Carry, EnterState, Fit, WellTimed, LifeLegal, LifeAfter,
      OfThreads, Vanished;
    var k, id := ClosingStep(size, moves, m, c);
    var t := Taken(After(NewPipe(size), moves), m);
    CloseFits(View(After(NewPipe(size), moves), c), k, id);
    FitRuns(t, more, c);
    var u := After(t, more);
    SafeRuns(t, more);
    GoodAt(u, c);
    var acts := DrainsToFree(View(u, c));
    last := RealizeThreads(u, c, acts);
    ViewIs(After(u, last), c);
  }

  /** The life of a fit close once the three queues are empty. */
  lemma DrainsToFree(l: Life) returns (acts: seq<Act>)
    requires Good(l) && Fit(l)
    ensures LifeLegal(l, acts) && forall a <- acts :: OfThread(a)
    ensures var m := LifeAfter(l, acts); |m.conn.log.frees| == 1 && Vanished(m)
  {
    hide Good, Fit, LifeAfter, LifeLegal, Vanished;
    FitClosed(l);
    var first := DrainReader(l);
    FitLives(l, first);
    var k := LifeAfter(l, first);
    var second := DrainWorker(k);
    FitLives(k, second);
    LifeJoins(l, first, second);
    var n := LifeAfter(k, second);
    var third := DrainWriter(n);
    FitLives(n, third);
    LifeJoins(l, first + second, third);
    acts := first + second + third;
    var m := LifeAfter(l, acts);
    CloseGone(m);
    FitIsClean(m);
    FreedOnce(m);
  }

  lemma FitClosed(l: Life)
    requires Good(l) && Fit(l)
    ensures l.conn.managedBy == EVERYONE && l.conn.state == StateClosed
  {
    hide Forms, Tokens, Inbound, Interests, Swept, Heard, Shape, VotesOk, Timely;
  }

  lemma {:induction false} FitLives(l: Life, acts: seq<Act>)
    requires Good(l) && Fit(l) && LifeLegal(l, acts) && forall a <- acts :: OfThread(a)
    ensures Good(LifeAfter(l, acts)) && Fit(LifeAfter(l, acts))
    decreases |acts|
  {
    hide Good, Fit, Enabled, Next;
    if acts != [] {
      assert OfThread(acts[0]);
      GoodKeeps(l, acts[0]);
      FitKeeps(l, acts[0]);
      FitLives(Next(l, acts[0]), acts[1..]);
    }
  }

  function AfterClose(s: Pipe, c: nat): Pipe
    requires c in s.members
  {
    Taken(s, Of(c, WantClose(false)))
  }

  function AfterInterest(s: Pipe, c: nat): Pipe
    requires c in s.members
  {
    Taken(s, Of(c, WantWrite))
  }

  function Reclosed(l: Life): Life {
    Carry(l, CloseConnection(l.conn, false, l.accepts), 0)
  }

  function Interested(l: Life): Life {
    Carry(l, Interest(l.conn, l.accepts), 0)
  }

  /** What is closed and freed must not be closed gracefully: it may be written again; the reader gets
      an event about it if its handler on PENDING_CLOSE is still there, and a write interest puts one
      on the writer's queue, unless these queues have seen an EXIT. */
  lemma GracefulCloseRevives(size: nat, moves: seq<Move>, c: nat)
    requires Legal(NewPipe(size), moves) && CleanIn(After(NewPipe(size), moves), c)
    requires After(NewPipe(size), moves).members[c].conn.log.frees != []
    ensures var s := After(NewPipe(size), moves); var t := AfterClose(s, c);
      && c in t.members && !CleanIn(t, c) && t.members[c].conn.canWrite
      && (About(t.reader.items, c) != [] <==> !s.reader.exit && HandlersOf(s.members[c].conn, PendingClose) != [])
      && (About(AfterInterest(t, c).writer.items, c) != [] <==> !s.writer.exit)
  {
    hide Safe, AllGood, Held, Loaded, Owned, Good, NewPipe, View, AfterClose, AfterInterest, Reclosed, Interested;
    Reached(size, moves);
    var s := After(NewPipe(size), moves);
    GoodAt(s, c);
    ViewIs(s, c);
    SafeClose(s, c);
    var t := AfterClose(s, c);
    SafeInterest(t, c);
    Revived(View(s, c));
    LinesAre(t, c);
    LinesAre(AfterInterest(t, c), c);
  }

  lemma SafeClose(s: Pipe, c: nat)
    requires Safe(s) && c in s.members
    ensures var t := AfterClose(s, c);
      Safe(t) && c in t.members && View(t, c) == Reclosed(View(s, c)) && View(t, c).conn == t.members[c].conn
  {
    hide Safe, AllGood, Held, Loaded, Owned, View, Spread, CloseConnection, Lived, Carry;
    SafeIs(s);
    WantCloseLived(s, c, false);
    SafeKeeps(s, Of(c, WantClose(false)));
    LivedView(s, AfterClose(s, c), c, WantClose(false));
  }

  lemma SafeInterest(s: Pipe, c: nat)
    requires Safe(s) && c in s.members
    ensures var t := AfterInterest(s, c); c in t.members && View(t, c) == Interested(View(s, c))
  {
    hide Safe, AllGood, Held, Loaded, Owned, View, Spread, Interest, Lived, Carry;
    SafeIs(s);
    WantWriteLived(s, c);
    LivedView(s, AfterInterest(s, c), c, WantWrite);
  }

  lemma Revived(l: Life)
    requires Good(l) && Vanished(l) && l.conn.log.frees != []
    ensures var m := Reclosed(l);
      && m.conn.canWrite && m.conn.log.frees != [] && !Clean(m)
      && (m.reader != [] <==> l.accepts.reader && HandlersOf(l.conn, PendingClose) != [])
      && (Interested(m).writer != [] <==> l.accepts.writer)
  {
    hide Good, Carry, EnterState, Interest, Shape, VotesOk, NoFree;
    GoodIs(l);
    BaseVotes(l);
    ShapeAt(l.conn, l.progress, PendingClose);
    PendingReaction(l, 0);
    WriterWanted(Reclosed(l));
    StillFreed(l);
  }

  lemma WriterWanted(l: Life)
    requires Shape(l.conn, l.progress) && l.conn.canWrite && l.progress == 10 && l.writer == []
    ensures Interested(l).writer != [] <==> l.accepts.writer
  {
    hide Interest, Shape, Carry;
    InterestReaction(l, 0);
  }

  lemma StillFreed(l: Life)
    requires Good(l) && l.conn.log.frees != [] && l.conn.state == StateClosed
    ensures Reclosed(l).conn.log.frees != []
  {
    hide Carry, EnterState, Shape, Forms, Course, Tokens, Inbound, Interests;
    BaseVotes(l);
    PendingReaction(l, 0);
    var m := Reclosed(l);
    assert forall o :: o in l.conn.log.votes ==> o in m.conn.log.votes;
  }
}
