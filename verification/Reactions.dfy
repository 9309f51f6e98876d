/** What the reactions of a connection come to, given which handlers are installed. */
module Reactions {
  import opened EventModel
  import opened QueueModel
  import opened Connections
  import opened Lives
  import B = BufferModel

  /** Nothing that CLOSE and PENDING_CLOSE leave alone differs. */
  ghost predicate Alike(c: Conn, d: Conn) {
    && d.managedBy == c.managedBy && d.readBuffer == c.readBuffer && d.writeBuffer == c.writeBuffer
    && d.readKey == c.readKey
    && d.log == c.log.(closed := d.log.closed, rash := d.log.rash, reopened := d.log.reopened,
                       called := d.log.called, votes := d.log.votes, frees := d.log.frees)
  }

  function One(self: nat, event: Event, there: bool): seq<Item> {
    if there then [EventOf(self, event)] else []
  }

  /** ConnectionNoMoreUsed counted right: the connection is freed at most once, exactly when the
      four owners of a server connection have voted, and never by the acceptor. */
  ghost predicate VotesOk(c: Conn) {
    var v, called := c.log.votes, c.log.called;
    && Client !in v
    && (Acceptor in v <==> (Close, AcceptorClose) in called)
    && (Worker in v ==> (Close, WorkerClose) in called)
    && (forall x :: (Close, x) in called ==> (Close, AcceptorClose) in called)
    && (c.log.frees == [] ==> forall o :: o in c.closedBy <==> o == Client || o in v)
    && (c.log.frees != [] ==> Client !in c.closedBy && |c.log.frees| == 1 && c.log.frees[0] != Acceptor)
    && (c.log.frees != [] <==> Reader in v && Worker in v && Writer in v && Acceptor in v)
  }

  lemma EveryoneIs(s: set<Owner>)
    ensures s == EVERYONE <==> Reader in s && Worker in s && Writer in s && Acceptor in s && Client in s
  {
    if Reader in s && Worker in s && Writer in s && Acceptor in s && Client in s {
      forall o: Owner
        ensures o in s && o in EVERYONE
      {
        match o
        case Reader => case Worker => case Writer => case Acceptor => case Client =>
      }
    }
  }

  lemma VoteCounts(c: Conn, o: Owner)
    requires VotesOk(c) && o != Client
    requires o == Worker ==> (Close, WorkerClose) in c.log.called
    requires o != Acceptor
    ensures VotesOk(Vote(c, o))
    ensures var d := Vote(c, o);
      d == c.(closedBy := d.closedBy, log := c.log.(votes := c.log.votes + [o], frees := d.log.frees))
    ensures Vote(c, o).log.frees == c.log.frees || (c.log.frees == [] && Vote(c, o).log.frees == [o])
  {
    EveryoneIs(c.closedBy + {o});
  }

  /** Without a vote nothing is freed. */
  ghost predicate NoFree(c: Conn, d: Conn) {
    |d.log.votes| == |c.log.votes| ==> d.log.frees == c.log.frees
  }

  /** The acceptor votes first, so that it frees nothing. */
  lemma AcceptorCounts(c: Conn)
    requires VotesOk(c) && (Close, AcceptorClose) !in c.log.called
    ensures var d := Vote(Called(c, Close, AcceptorClose), Acceptor);
      && VotesOk(d) && d.log.frees == []
      && d == c.(closedBy := d.closedBy,
                 log := c.log.(called := c.log.called + {(Close, AcceptorClose)}, votes := c.log.votes + [Acceptor]))
  {
    EveryoneIs(c.closedBy + {Acceptor});
  }

  /** The owners that vote inside the dispatch of CLOSE. */
  function Voters(callback: Callback, installed: bool, accepts: Accepts): seq<Owner> {
    match callback
    case AcceptorClose => if installed then [Acceptor] else []
    case ReaderEvent => if installed && !accepts.reader then [Reader] else []
    case WorkerClose => if installed && !accepts.worker then [Worker] else []
    case _ => []
  }

  /** What calling one CLOSE handler may change, and how the votes count on. */
  ghost predicate Fired(c: Conn, d: Conn, callback: Callback, installed: bool, accepts: Accepts) {
    && VotesOk(d) && (Close, AcceptorClose) in d.log.called
    && d == c.(closedBy := d.closedBy, log := c.log.(called := d.log.called, votes := d.log.votes, frees := d.log.frees))
    && d.log.called == Mark(c.log.called, callback, installed)
    && d.log.votes == c.log.votes + Voters(callback, installed, accepts)
    && NoFree(c, d)
  }

  lemma NotFired(c: Conn, callback: Callback, accepts: Accepts)
    requires VotesOk(c) && (Close, AcceptorClose) in c.log.called
    ensures Fired(c, c, callback, false, accepts)
  {
    hide VotesOk;
  }

  lemma AcceptorFires(c: Conn, accepts: Accepts)
    requires VotesOk(c) && (Close, AcceptorClose) !in c.log.called
    ensures Fired(c, FireIf(c, AcceptorClose, true, accepts), AcceptorClose, true, accepts)
  {
    hide Vote, VotesOk;
    AcceptorCounts(c);
  }

  /** The call itself keeps the votes right, once the acceptor has voted. */
  lemma CalledCounts(c: Conn, callback: Callback)
    requires VotesOk(c) && (Close, AcceptorClose) in c.log.called && callback != AcceptorClose
    ensures VotesOk(Called(c, Close, callback))
  {
  }

  lemma OtherFires(c: Conn, callback: Callback, accepts: Accepts)
    requires VotesOk(c) && (Close, AcceptorClose) in c.log.called
    requires callback == ReaderEvent || callback == WorkerClose || callback == WriterEvent
    ensures Fired(c, FireIf(c, callback, true, accepts), callback, true, accepts)
  {
    hide Vote, VotesOk;
    CalledCounts(c, callback);
    var b := Called(c, Close, callback);
    if callback == ReaderEvent {
      VoteCounts(b, Reader);
    } else if callback == WorkerClose {
      VoteCounts(b, Worker);
    }
  }

  /** One CLOSE handler keeps the votes right. */
  lemma FireIfCounts(c: Conn, callback: Callback, installed: bool, accepts: Accepts)
    requires VotesOk(c) && callback != WorkerRead
    requires callback == AcceptorClose ==> installed == ((Close, AcceptorClose) !in c.log.called)
    requires callback != AcceptorClose ==> (Close, AcceptorClose) in c.log.called
    ensures Fired(c, FireIf(c, callback, installed, accepts), callback, installed, accepts)
  {
    hide VotesOk, CallOne, Fired;
    if !installed {
      NotFired(c, callback, accepts);
    } else if callback == AcceptorClose {
      AcceptorFires(c, accepts);
    } else {
      OtherFires(c, callback, accepts);
    }
  }

  lemma FireRowCounts(c: Conn, r: bool, w: bool, t: bool, accepts: Accepts)
    requires VotesOk(c)
    ensures var a := (Close, AcceptorClose) !in c.log.called; var d := FireRow(c, a, r, w, t, accepts);
      && VotesOk(d)
      && d == c.(closedBy := d.closedBy, log := c.log.(called := d.log.called, votes := d.log.votes, frees := d.log.frees))
      && d.log.called == Mark(Mark(Mark(Mark(c.log.called, AcceptorClose, a), ReaderEvent, r), WorkerClose, w), WriterEvent, t)
      && d.log.votes == c.log.votes + Voters(AcceptorClose, a, accepts) + Voters(ReaderEvent, r, accepts) + Voters(WorkerClose, w, accepts)
      && NoFree(c, d)
  {
    hide FireIf, VotesOk, Mark, Voters;
    var a := (Close, AcceptorClose) !in c.log.called;
    FireIfCounts(c, AcceptorClose, a, accepts);
    var c1 := FireIf(c, AcceptorClose, a, accepts);
    FireIfCounts(c1, ReaderEvent, r, accepts);
    var c2 := FireIf(c1, ReaderEvent, r, accepts);
    FireIfCounts(c2, WorkerClose, w, accepts);
    var c3 := FireIf(c2, WorkerClose, w, accepts);
    FireIfCounts(c3, WriterEvent, t, accepts);
    assert Voters(WriterEvent, t, accepts) == [] by {
      WriterNeverVotes(t, accepts);
    }
  }

  lemma WriterNeverVotes(t: bool, accepts: Accepts)
    ensures Voters(WriterEvent, t, accepts) == []
  {
  }

  /** What entering CLOSED does to the connection. */
  ghost predicate ClosedInto(c: Conn, d: Conn, progress: nat, s: Accepts) {
    var (a, r, w, t) := Armed(c, progress);
    && Shape(d, progress) && VotesOk(d) && Alike(c, d)
    && d.state == StateClosed && !d.canRead && !d.canWrite
    && d.log.rash == (c.log.rash || c.log.connects == 0) && d.log.closed && d.log.reopened == c.log.reopened
    && d.log.called == Mark(Mark(Mark(Mark(c.log.called, AcceptorClose, a), ReaderEvent, r), WorkerClose, w), WriterEvent, t)
    && d.log.votes == c.log.votes + Voters(AcceptorClose, a, s) + Voters(ReaderEvent, r, s) + Voters(WorkerClose, w, s)
    && NoFree(c, d)
  }

  /** The dispatch of CLOSE changes the votes and the handlers and nothing else. */
  ghost predicate Reported(c: Conn, d: Conn, progress: nat, s: Accepts) {
    var (a, r, w, t) := Armed(c, progress);
    && Shape(d, progress) && VotesOk(d)
    && d == c.(handlers := d.handlers, closedBy := d.closedBy,
               log := c.log.(called := d.log.called, votes := d.log.votes, frees := d.log.frees))
    && d.log.called == Mark(Mark(Mark(Mark(c.log.called, AcceptorClose, a), ReaderEvent, r), WorkerClose, w), WriterEvent, t)
    && d.log.votes == c.log.votes + Voters(AcceptorClose, a, s) + Voters(ReaderEvent, r, s) + Voters(WorkerClose, w, s)
    && NoFree(c, d)
  }

  lemma ArmedAcceptor(c: Conn, progress: nat)
    ensures Armed(c, progress).0 == ((Close, AcceptorClose) !in c.log.called)
  {
  }

  lemma EmitClose(c: Conn, progress: nat, s: Accepts)
    requires Shape(c, progress) && VotesOk(c)
    ensures var (d, e) := Emit(c, Close, s); var (a, r, w, t) := Armed(c, progress);
      Reported(c, d, progress, s) && e == RowEffect(a, r, w, t, s)
  {
    hide FireRow, VotesOk, Mark, Voters, Emit, Shape, RowEffect, Armed;
    var (a, r, w, t) := Armed(c, progress);
    ArmedAcceptor(c, progress);
    DispatchClose(c, progress, s);
    FireRowCounts(c, r, w, t, s);
    SameVotes(FireRow(c, a, r, w, t, s), Emit(c, Close, s).0);
  }

  lemma EnterClosed(c: Conn, progress: nat, s: Accepts)
    requires Shape(c, progress) && VotesOk(c) && c.state != StateClosed
    ensures var (d, e) := EnterState(c, StateClosed, s); var (a, r, w, t) := Armed(c, progress);
      ClosedInto(c, d, progress, s) && e == RowEffect(a, r, w, t, s)
  {
    hide VotesOk, Mark, Voters, Emit, Shape, RowEffect;
    var b := c.(state := StateClosed, log := Entered(c.log, c.state, StateClosed), canRead := false, canWrite := false);
    SameVotes(c, b);
    SameShape(c, b, progress);
    EmitClose(b, progress, s);
  }

  /** Every installed CLOSE handler reports once, in its own way: the acceptor's empties its queue,
      the others put one event on theirs. */
  lemma ClosedReaction(l: Life, id: nat)
    requires Shape(l.conn, l.progress) && VotesOk(l.conn) && l.conn.state != StateClosed
    ensures var m := Carry(l, EnterState(l.conn, StateClosed, l.accepts), id);
      var (a, r, w, t) := Armed(l.conn, l.progress);
      && ClosedInto(l.conn, m.conn, l.progress, l.accepts)
      && m == l.(conn := m.conn, acceptor := if a then Without(l.acceptor, IsData(l.self)) else l.acceptor,
                 reader := l.reader + One(l.self, Close, r && l.accepts.reader),
                 worker := l.worker + One(l.self, Close, w && l.accepts.worker),
                 writer := l.writer + One(l.self, Close, t && l.accepts.writer))
  {
    hide ClosedInto, EnterState, Shape, VotesOk, Without;
    EnterClosed(l.conn, l.progress, l.accepts);
    assert l.worker + [] == l.worker;
  }

  lemma SameVotes(c: Conn, d: Conn)
    requires VotesOk(c) && d.closedBy == c.closedBy
    requires d.log.votes == c.log.votes && d.log.called == c.log.called && d.log.frees == c.log.frees
    ensures VotesOk(d)
  {
  }

  lemma SameShape(c: Conn, d: Conn, progress: nat)
    requires Shape(c, progress) && d.handlers == c.handlers && d.log.called == c.log.called
    ensures Shape(d, progress)
  {
    forall e: Event
      ensures HandlersOf(d, e) == Expected(progress, d.log.called, e)
    {
      assert HandlersOf(d, e) == HandlersOf(c, e);
    }
  }

  /** Entering PENDING_CLOSE reaches the reader's handler, once. */
  ghost predicate PendingInto(c: Conn, d: Conn, progress: nat, s: Accepts) {
    var p := Between(progress, 3) && (PendingClose, ReaderEvent) !in c.log.called;
    && Shape(d, progress) && VotesOk(d) && Alike(c, d)
    && d.state == StatePendingClose && !d.canRead && d.canWrite
    && d.log.rash == c.log.rash && d.log.closed == c.log.closed
    && d.log.reopened == (c.log.reopened || c.state == StateClosed)
    && d.log.called == (if p then c.log.called + {(PendingClose, ReaderEvent)} else c.log.called)
    && d.log.votes == c.log.votes + (if p && !s.reader then [Reader] else [])
    && NoFree(c, d)
  }

  lemma ReaderEventIs(c: Conn, event: Event, s: Accepts)
    ensures CallOne(c, event, ReaderEvent, s)
         == if s.reader then (c, NOTHING.(reader := [event])) else (Vote(c, Reader), NOTHING)
  {
  }

  /** The connection after the reader's handler was called on PENDING_CLOSE, or not. */
  function PendingHeard(c: Conn, there: bool, s: Accepts): Conn {
    var b := Called(c, PendingClose, ReaderEvent);
    if !there then c else if s.reader then b else Vote(b, Reader)
  }

  lemma PendingEmits(c: Conn, progress: nat, s: Accepts)
    requires Shape(c, progress)
    ensures var (d, e) := Emit(c, PendingClose, s);
      var p := Between(progress, 3) && (PendingClose, ReaderEvent) !in c.log.called;
      && Shape(d, progress) && d == PendingHeard(c, p, s).(handlers := d.handlers)
      && e == NOTHING.(reader := if p && s.reader then [PendingClose] else [])
  {
    hide Emit, Shape, Vote, CallOne;
    DispatchOther(c, progress, PendingClose, s);
    ReaderEventIs(Called(c, PendingClose, ReaderEvent), PendingClose, s);
  }

  lemma PendingCounts(c: Conn, p: bool, s: Accepts)
    requires VotesOk(c)
    ensures var d := PendingHeard(c, p, s);
      && VotesOk(d) && NoFree(c, d)
      && d == c.(closedBy := d.closedBy, log := c.log.(called := d.log.called, votes := d.log.votes, frees := d.log.frees))
      && d.log.called == (if p then c.log.called + {(PendingClose, ReaderEvent)} else c.log.called)
      && d.log.votes == c.log.votes + (if p && !s.reader then [Reader] else [])
  {
    hide VotesOk, Vote;
    CalledOther(c, PendingClose, ReaderEvent);
    if p && !s.reader {
      VoteCounts(Called(c, PendingClose, ReaderEvent), Reader);
    }
  }

  lemma EmitPending(c: Conn, progress: nat, s: Accepts)
    requires Shape(c, progress) && VotesOk(c)
    ensures var (d, e) := Emit(c, PendingClose, s);
      var p := Between(progress, 3) && (PendingClose, ReaderEvent) !in c.log.called;
      && Shape(d, progress) && VotesOk(d)
      && d == c.(handlers := d.handlers, closedBy := d.closedBy,
                 log := c.log.(called := d.log.called, votes := d.log.votes, frees := d.log.frees))
      && d.log.called == (if p then c.log.called + {(PendingClose, ReaderEvent)} else c.log.called)
      && d.log.votes == c.log.votes + (if p && !s.reader then [Reader] else [])
      && NoFree(c, d)
      && e == NOTHING.(reader := if p && s.reader then [PendingClose] else [])
  {
    hide Emit, Shape, VotesOk, PendingHeard;
    var p := Between(progress, 3) && (PendingClose, ReaderEvent) !in c.log.called;
    PendingEmits(c, progress, s);
    PendingCounts(c, p, s);
    SameVotes(PendingHeard(c, p, s), Emit(c, PendingClose, s).0);
  }

  lemma CalledOther(c: Conn, event: Event, callback: Callback)
    requires VotesOk(c) && event != Close
    ensures VotesOk(Called(c, event, callback))
  {
  }

  lemma PendingReaction(l: Life, id: nat)
    requires Shape(l.conn, l.progress) && VotesOk(l.conn) && l.conn.state != StatePendingClose
    ensures var m := Carry(l, EnterState(l.conn, StatePendingClose, l.accepts), id);
      var p := Between(l.progress, 3) && (PendingClose, ReaderEvent) !in l.conn.log.called;
      && PendingInto(l.conn, m.conn, l.progress, l.accepts)
      && m == l.(conn := m.conn, reader := l.reader + One(l.self, PendingClose, p && l.accepts.reader))
  {
    hide Emit, Shape, VotesOk, Without;
    var c := l.conn;
    var b := c.(state := StatePendingClose, log := Entered(c.log, c.state, StatePendingClose),
                canRead := false, canWrite := true);
    SameVotes(c, b);
    SameShape(c, b, l.progress);
    EmitPending(b, l.progress, l.accepts);
    assert l.worker + [] + [] == l.worker && l.writer + [] == l.writer;
  }

  /** Entering CONNECTED reaches no system handler. */
  lemma ConnectedReaction(l: Life, id: nat)
    requires Shape(l.conn, l.progress) && l.conn.state != StateConnected
    ensures var m := Carry(l, EnterState(l.conn, StateConnected, l.accepts), id); var c, d := l.conn, m.conn;
      && Shape(d, l.progress) && m == l.(conn := d)
      && d == c.(state := StateConnected, canRead := true, canWrite := true, handlers := d.handlers,
                 log := c.log.(connects := c.log.connects + 1))
  {
    hide Emit, Shape, Without;
    var c := l.conn;
    var b := c.(state := StateConnected, log := Entered(c.log, c.state, StateConnected), canRead := true, canWrite := true);
    SameShape(c, b, l.progress);
    DispatchOther(b, l.progress, Connected, l.accepts);
    assert l.worker + [] + [] == l.worker && l.writer + [] == l.writer && l.reader + [] == l.reader;
  }

  /** ConnectionManagedBy: the last manager's call enters CONNECTED. */
  lemma ManagedReaction(l: Life, owner: Owner, id: nat)
    requires Shape(l.conn, l.progress) && l.conn.state != StateConnected
    ensures var m := Carry(l, ManagedBy(l.conn, owner, l.accepts), id); var c, d := l.conn, m.conn;
      && Shape(d, l.progress) && m == l.(conn := d) && d.managedBy == c.managedBy + {owner}
      && d == if d.managedBy == EVERYONE
              then c.(managedBy := d.managedBy, state := StateConnected, canRead := true, canWrite := true,
                      handlers := d.handlers, log := c.log.(connects := c.log.connects + 1))
              else c.(managedBy := d.managedBy)
  {
    hide EnterState, Shape, Without;
    var b := l.conn.(managedBy := l.conn.managedBy + {owner});
    SameShape(l.conn, b, l.progress);
    if b.managedBy == EVERYONE {
      ConnectedReaction(l.(conn := b), id);
    } else {
      QuietReaction(l.(conn := b), id);
    }
  }

  /** INBOUND_DATA moves what was read into one task and empties the read buffer. */
  lemma InboundReaction(l: Life, id: nat)
    requires Shape(l.conn, l.progress) && Between(l.progress, 5) && l.conn.state != StateClosed
    ensures var m := Carry(l, Emit(l.conn, InboundData, l.accepts), id); var c, d := l.conn, m.conn;
      var input := Flipped(c.readBuffer);
      && Shape(d, l.progress)
      && d == c.(readBuffer := Cleared(input), handlers := d.handlers,
                 log := c.log.(called := c.log.called + {(InboundData, WorkerRead)},
                               dropped := c.log.dropped || !l.accepts.worker))
      && m == l.(conn := d, worker := l.worker + Tasks(l.self, Some(CopyOf(input)), id, l.accepts))
  {
    hide Emit, Shape, Without, Cleared, CopyOf;
    DispatchOther(l.conn, l.progress, InboundData, l.accepts);
    var task := Tasks(l.self, Some(CopyOf(Flipped(l.conn.readBuffer))), id, l.accepts);
    assert l.worker + task + [] == l.worker + task && l.writer + [] == l.writer && l.reader + [] == l.reader;
  }

  lemma WriterEventIs(c: Conn, event: Event, s: Accepts)
    ensures CallOne(c, event, WriterEvent, s) == (c, NOTHING.(writer := if s.writer then [event] else []))
  {
  }

  lemma EmitOutbound(c: Conn, progress: nat, s: Accepts)
    requires Shape(c, progress)
    ensures var (d, e) := Emit(c, OutboundData, s); var there := Between(progress, 8);
      && Shape(d, progress)
      && d == c.(handlers := d.handlers, log := c.log.(called := d.log.called))
      && d.log.called == (if there then c.log.called + {(OutboundData, WriterEvent)} else c.log.called)
      && e == NOTHING.(writer := if there && s.writer then [OutboundData] else [])
  {
    hide Emit, Shape, CallOne;
    DispatchOther(c, progress, OutboundData, s);
    WriterEventIs(Called(c, OutboundData, WriterEvent), OutboundData, s);
  }

  /** A write interest puts one OUTBOUND event on the writer's queue once the handler is there. */
  lemma InterestReaction(l: Life, id: nat)
    requires Shape(l.conn, l.progress) && l.conn.canWrite
    ensures var m := Carry(l, Interest(l.conn, l.accepts), id); var c, d := l.conn, m.conn;
      var there := Between(l.progress, 8); var taken := there && l.accepts.writer;
      && Shape(d, l.progress)
      && d == c.(handlers := d.handlers,
                 log := c.log.(called := d.log.called, interests := c.log.interests + if taken then 1 else 0))
      && d.log.called == (if there then c.log.called + {(OutboundData, WriterEvent)} else c.log.called)
      && m == l.(conn := d, writer := l.writer + One(l.self, OutboundData, taken))
  {
    hide Emit, Shape, Without;
    EmitOutbound(l.conn, l.progress, l.accepts);
    SameShape(Emit(l.conn, OutboundData, l.accepts).0, Interest(l.conn, l.accepts).0, l.progress);
    assert l.worker + [] + [] == l.worker && l.reader + [] == l.reader;
  }

  /** A reaction that comes to nothing. */
  lemma QuietReaction(l: Life, id: nat)
    ensures Carry(l, (l.conn, NOTHING), id) == l
  {
    assert l.worker + [] + [] == l.worker && l.writer + [] == l.writer && l.reader + [] == l.reader;
  }

  /** Closing what is in that state already. */
  lemma AlreadyClosing(l: Life, force: bool, id: nat)
    requires l.conn.state == if force then StateClosed else StatePendingClose
    ensures Carry(l, CloseConnection(l.conn, force, l.accepts), id) == l
  {
    QuietReaction(l, id);
  }

  /** A write interest that is lost. */
  lemma InterestLost(l: Life, id: nat)
    requires !l.conn.canWrite
    ensures Carry(l, Interest(l.conn, l.accepts), id) == l
  {
    QuietReaction(l, id);
  }

  lemma ClearedIs(b: Mem)
    ensures var r := Cleared(b);
      r.size == b.size && r.position == 0 && r.limit == b.size && forall i :: 0 <= i < b.size ==> r.data[i] == 0
  {
  }

  /** The task holds exactly the bytes that were read, if the read buffer was empty. */
  lemma CopyHoldsInput(b: Mem, bytes: seq<byte>)
    requires b.position == 0 && b.limit == b.size && |bytes| <= Room(b)
    ensures var r := Received(b, bytes); var copy := CopyOf(Flipped(r));
      && r.size == b.size && copy.size == b.size && B.Content(copy) == bytes
  {
    var r := Received(b, bytes);
    B.CopyTakesContent(B.NewBuf(b.size), Flipped(r));
    assert r.data[0..|bytes|] == bytes;
  }

  /** A chunk put into the cleared buffer, and flipped; nothing if it does not fit. */
  lemma ChunkPut(b: Mem, chunk: seq<byte>)
    requires b.position == 0 && b.limit == b.size
    ensures var w := Flipped(Filled(b, chunk));
      && w.size == b.size && w.position <= w.limit
      && B.Content(w) == if |chunk| <= b.limit then chunk else []
  {
    var f := Filled(b, chunk);
    if |chunk| <= b.limit {
      assert f.data[0..|chunk|] == chunk;
    }
  }

  /** What a chunk put by the WRITE handler leaves to send. */
  lemma RefillPuts(c: Conn, chunk: seq<byte>)
    requires c.writeBuffer.position <= c.writeBuffer.limit
    ensures var d := Refill(c, chunk); var w := d.writeBuffer;
      && w.size == c.writeBuffer.size && w.position <= w.limit
      && (B.HasRemaining(c.writeBuffer) ==> d == c)
      && (!B.HasRemaining(c.writeBuffer) ==>
         && d == c.(writeBuffer := w, log := c.log.(writes := c.log.writes + 1, put := d.log.put))
         && d.log.put == c.log.put + B.Content(w))
  {
    hide Cleared, Filled, Flipped, B.Content, B.Sound;
    ClearedIs(c.writeBuffer);
    ChunkPut(Cleared(c.writeBuffer), chunk);
  }

  /** A `send` moves bytes from the buffer to what was sent. */
  lemma AdvancedSends(b: Mem, n: nat)
    requires b.position <= b.limit && n <= Room(b)
    ensures var a := Advanced(b, n);
      && a == b.(position := b.position + n) && 0 <= b.position <= a.position <= a.limit && a.limit <= |b.data|
      && b.data[b.position..a.position] + B.Content(a) == B.Content(b)
  {
  }
}
