/** The runs of a pipe: what every step keeps holds in every state that can be reached, and each
    step of the pipe is one step of each connection's life, or none. */
module Runs {
  import opened EventModel
  import opened QueueModel
  import opened Connections
  import opened Lives
  import opened Reactions
  import opened Invariants
  import opened Closing
  import opened Streams
  import opened Endings
  import opened Pipes
  import opened Projection
  import opened Refinement
  import opened Holdings
  import opened SelectorModel
  import PoolModel
  import B = BufferModel

  ghost predicate Safe(s: Pipe) {
    AllGood(s) && Held(s) && Loaded(s) && Owned(s)
  }

  lemma SafeIs(s: Pipe)
    requires Safe(s)
    ensures AllGood(s) && Held(s) && Loaded(s) && Owned(s)
  {
    hide AllGood, Held, Loaded, Owned;
  }

  lemma AllGoodOf(s: Pipe, m: Move)
    requires AllGood(s) && Loaded(s) && m.Of? && Possible(s, m)
    ensures AllGood(Taken(s, m))
  {
    hide AllGood, Spread, Manages, Interest, ReadInput, CloseConnection, Lived;
    match m.act
    case Manage =>
      ManageLived(s, m.c);
      LivedKeeps(s, Taken(s, m), m.c, Manage);
    case Arrive(input, _) =>
      ArriveLived(s, m.c, input);
      LivedKeeps(s, Taken(s, m), m.c, Arrive(input, HandedId(s, ReadInput(s.members[m.c].conn, input, Open(s)).1.copy)));
    case WantWrite =>
      WantWriteLived(s, m.c);
      LivedKeeps(s, Taken(s, m), m.c, WantWrite);
    case WantClose(force) =>
      WantCloseLived(s, m.c, force);
      LivedKeeps(s, Taken(s, m), m.c, WantClose(force));
  }

  /** Every step of the pipe keeps every connection's life in order. */
  lemma AllGoodKeeps(s: Pipe, m: Move)
    requires AllGood(s) && Held(s) && Loaded(s) && Possible(s, m)
    ensures AllGood(Taken(s, m))
  {
    hide AllGood, Loaded, Spread, Manages, ReaderTurn, WorkerTurn, WriterTurn, WorkerDone, Exiting, BackPut, Accepting,
      Interest, ReadInput, CloseConnection, Lived, Unmoved, Dequeue;
    match m
    case Accept(c) => AcceptKeeps(s, c);
    case Of(_, _) => AllGoodOf(s, m);
    case ReaderMove =>
      ReaderLived(s);
      TurnKeeps(s, Taken(s, m), Dequeue(s.reader).1, TakeReader);
    case WorkerMove =>
      WorkerLived(s);
      TurnKeeps(s, Taken(s, m), Dequeue(s.worker).1, TakeWorker);
    case WriterMove(chunk, took) =>
      WriterLived(s, chunk, took);
      TurnKeeps(s, Taken(s, m), Dequeue(s.writer).1, TakeWriter(chunk, took));
    case WorkerEnds(left) =>
      WorkerEndsLived(s, left);
      LivedKeeps(s, Taken(s, m), s.serving.value.connection.conn, Finish);
    case WriterBack =>
      WriterBackLived(s);
      LivedKeeps(s, Taken(s, m), s.resend.value, PutBack);
    case ExitOf(which) => ExitKeeps(s, which);
  }

  lemma TurnKeeps(s: Pipe, t: Pipe, r: Option<Item>, a: Act)
    requires AllGood(s)
    requires if r.Some? && Whom(r.value).Some? then Lived(s, t, Whom(r.value).value, a) else Unmoved(s, t)
    ensures AllGood(t)
  {
    hide AllGood, Lived, Unmoved;
    if r.Some? && Whom(r.value).Some? {
      LivedKeeps(s, t, Whom(r.value).value, a);
    } else {
      UnmovedKeeps(s, t);
    }
  }

  lemma SafeKeeps(s: Pipe, m: Move)
    requires Safe(s) && Possible(s, m)
    ensures Safe(Taken(s, m))
  {
    hide AllGood, Held, Loaded, Owned, Taken;
    AllGoodKeeps(s, m);
    LoadedKeeps(s, m);
    OwnedKeeps(s, m);
  }

  lemma SafeStart(size: nat)
    ensures Safe(NewPipe(size))
  {
    hide Slabs, UpTo, SlabsOf, NewMem;
    var s := NewPipe(size);
    var batch := Slabs(0, PoolModel.BATCH_SIZE, size);
    PoolModel.AddBatchAppends(NewQState<Ptr>(), batch);
    assert s.pool.items == PoolModel.Datas(batch);
    SlabsBatch(0, PoolModel.BATCH_SIZE, size);
    assert PoolOk(s) by {
      BatchIsFresh(size);
    }
    assert UpTo(0) == multiset{} && SlabsOf([]) == multiset{} by {
      NothingYet();
    }
    forall d
      ensures Quiet(s, d)
    {
    }
  }

  lemma NothingYet()
    ensures UpTo(0) == multiset{} && SlabsOf([]) == multiset{}
  {
  }

  lemma BatchIsFresh(size: nat)
    ensures forall i :: 0 <= i < PoolModel.BATCH_SIZE ==> Fresh(PoolModel.Datas(Slabs(0, PoolModel.BATCH_SIZE, size))[i], size)
  {
    hide NewMem;
  }

  lemma {:induction false} SafeRuns(s: Pipe, moves: seq<Move>)
    requires Safe(s) && Legal(s, moves)
    ensures Safe(After(s, moves))
    decreases |moves|
  {
    hide Safe, Possible, Taken;
    if moves != [] {
      SafeKeeps(s, moves[0]);
      SafeRuns(Taken(s, moves[0]), moves[1..]);
    }
  }

  /** Everything that was shown of single steps holds after every run. */
  lemma Reached(size: nat, moves: seq<Move>)
    requires Legal(NewPipe(size), moves)
    ensures Safe(After(NewPipe(size), moves))
  {
    hide Safe, NewPipe;
    SafeStart(size);
    SafeRuns(NewPipe(size), moves);
  }

  // ---------------------------------------------------------------- one connection in a safe pipe

  lemma GoodAt(s: Pipe, c: nat)
    requires Safe(s) && c in s.members
    ensures Good(View(s, c))
  {
    hide Good, View, PoolOk, Quiet, Held, Loaded, Owned;
  }

  lemma GoodIs(l: Life)
    requires Good(l)
    ensures Base(l) && Forms(l) && Course(l) && Tokens(l) && Inbound(l) && Interests(l)
  {
    hide Base, Forms, Course, Tokens, Inbound, Interests;
  }

  lemma LinesAre(s: Pipe, c: nat)
    requires c in s.members
    ensures var l := View(s, c); Lines(s, c) == (l.acceptor, l.reader, l.worker, l.writer, l.serving, l.resend)
  {
  }

  lemma KeyedAt(s: Pipe, c: nat)
    requires Safe(s) && c in s.members
    ensures c in s.registry <==> s.members[c].conn.readKey
  {
    hide AllGood, Held, Owned;
  }

  /** How many OUTBOUND events about a connection wait, on the queue or in the writer's hands. */
  function Unanswered(s: Pipe, c: nat): nat {
    multiset(About(s.writer.items, c))[EventOf(c, OutboundData)] + if s.resend == Some(c) then 1 else 0
  }

  lemma PendingIs(s: Pipe, c: nat)
    requires c in s.members
    ensures Unanswered(s, c) == Waiting(View(s, c))
  {
    hide About;
  }

  lemma LivedView(s: Pipe, t: Pipe, c: nat, a: Act)
    requires Lived(s, t, c, a)
    ensures c in s.members && c in t.members && Enabled(View(s, c), a) && View(t, c) == Next(View(s, c), a)
    ensures View(t, c).conn == t.members[c].conn
  {
    hide Next, Enabled, About, Lines;
  }

  // ---------------------------------------------------------------- the capacity of the buffers

  lemma NewSize(size: nat)
    ensures NewPipe(size).size == size
  {
  }

  lemma {:induction false} SizeKept(s: Pipe, moves: seq<Move>)
    requires Legal(s, moves)
    ensures After(s, moves).size == s.size
    decreases |moves|
  {
    hide Possible, Taken;
    if moves != [] {
      SizeStays(s, moves[0]);
      SizeKept(Taken(s, moves[0]), moves[1..]);
    }
  }

  lemma SizeReader(s: Pipe)
    ensures ReaderTurn(s).size == s.size
  {
    hide Spread, ManagedBy, Dequeue, Vote, MapRegister, MapUnregister;
    var r := Dequeue(s.reader).1;
    if r.Some? && r.value.DataItem? && Known(s, r.value.data) {
      var c := r.value.data.conn;
      var t := s.(reader := Dequeue(s.reader).0, registry := MapRegister(s.registry, OP_READ, c, c), load := s.load + 1);
      SpreadSize(t, c, ManagedBy(s.members[c].conn.(readKey := true), Reader, Open(s)));
    }
  }

  lemma SizeWriter(s: Pipe, chunk: seq<byte>, took: Option<nat>)
    requires WriterMay(s, chunk, took)
    ensures WriterTurn(s, chunk, took).size == s.size
  {
    hide Spread, WriteOutput, MaySend, Dequeue, Vote, RemoveAll;
    var r := Dequeue(s.writer).1;
    if r.Some? && r.value.EventItem? && r.value.event == OutboundData && Known(s, r.value.source) {
      var c := r.value.source.conn;
      var (conn, e, again) := WriteOutput(s.members[c].conn, chunk, took, Open(s));
      SpreadSize(s.(writer := Dequeue(s.writer).0, resend := if again then Some(c) else None), c, (conn, e));
    }
  }

  lemma SizeStays(s: Pipe, m: Move)
    requires Possible(s, m)
    ensures Taken(s, m).size == s.size
  {
    hide Spread, RemoveAll, ReleasedAll, ReaderTurn, WriterTurn, Released, Enqueue, EnterState, Interest, ReadInput,
      HandOver, Vote,
      NewConnection, MaySend;
    match m
    case Of(c, act) =>
      var next := WithProgress(s, c, s.members[c].progress + 1);
      SpreadSize(next, c, HandOver(s.members[c].conn, s.members[c].progress, Open(s)));
      if act.Arrive? {
        SpreadSize(s, c, ReadInput(s.members[c].conn, act.input, Open(s)));
      }
      if act.WantClose? {
        SpreadSize(s, c, CloseConnection(s.members[c].conn, act.force, Open(s)));
      }
      SpreadSize(s, c, Interest(s.members[c].conn, Open(s)));
    case ReaderMove => SizeReader(s);
    case WriterMove(chunk, took) => SizeWriter(s, chunk, took);
    case _ =>
  }

  lemma SpreadSize(s: Pipe, c: nat, r: (Conn, Effect))
    requires c in s.members
    ensures Spread(s, c, r).size == s.size
  {
    hide Allocated, Post, Without, RemoveAll, Released, Enqueue;
    AllocatedSize(s);
  }

  lemma AllocatedSize(s: Pipe)
    ensures Allocated(s).0.size == s.size
  {
  }

  // ---------------------------------------------------------------- each step follows a life

  /** One step of a connection's life, or none; a close only by a close of that connection. */
  ghost predicate Follows(move: Move, l: Life, m: Life) {
    m == l || exists a :: Enabled(l, a) && m == Next(l, a) && (a.WantClose? ==> move == Of(l.self, a))
  }

  lemma SameFollows(m: Move, l: Life)
    ensures Follows(m, l, l)
  {
  }

  lemma ExitFollows(m: Move, l: Life, which: Which)
    ensures Follows(m, l, l.(accepts := Shut(l.accepts, which)))
  {
    assert Enabled(l, Exit(which)) && Next(l, Exit(which)) == l.(accepts := Shut(l.accepts, which));
  }

  lemma LivedFollows(m: Move, s: Pipe, t: Pipe, d: nat, a: Act, c: nat)
    requires Lived(s, t, d, a) && c in s.members && (a.WantClose? ==> m == Of(d, a))
    ensures c in t.members && Follows(m, View(s, c), View(t, c))
  {
    hide PoolOk, View, Next, Enabled, Lines;
    ViewIs(s, c);
    if c != d {
      SameView(s, t, c);
    }
  }

  lemma UnmovedFollows(m: Move, s: Pipe, t: Pipe, c: nat)
    requires Unmoved(s, t) && c in s.members
    ensures c in t.members && Follows(m, View(s, c), View(t, c))
  {
    hide PoolOk, View, Next, Enabled, Lines;
    SameView(s, t, c);
  }

  lemma TurnFollows(m: Move, s: Pipe, t: Pipe, r: Option<Item>, a: Act, c: nat)
    requires if r.Some? && Whom(r.value).Some? then Lived(s, t, Whom(r.value).value, a) else Unmoved(s, t)
    requires c in s.members && !a.WantClose?
    ensures c in t.members && Follows(m, View(s, c), View(t, c))
  {
    hide Lived, Unmoved, View, Follows;
    if r.Some? && Whom(r.value).Some? {
      LivedFollows(m, s, t, Whom(r.value).value, a, c);
    } else {
      UnmovedFollows(m, s, t, c);
    }
  }

  lemma OfFollows(s: Pipe, m: Move, c: nat)
    requires AllGood(s) && Loaded(s) && m.Of? && Possible(s, m) && c in s.members
    ensures c in Taken(s, m).members && Follows(m, View(s, c), View(Taken(s, m), c))
  {
    hide AllGood, Spread, Manages, Interest, ReadInput, CloseConnection, Lived, View, Follows;
    match m.act
    case Manage =>
      ManageLived(s, m.c);
      LivedFollows(m, s, Taken(s, m), m.c, Manage, c);
    case Arrive(input, _) =>
      ArriveLived(s, m.c, input);
      LivedFollows(m, s, Taken(s, m), m.c, Arrive(input, HandedId(s, ReadInput(s.members[m.c].conn, input, Open(s)).1.copy)), c);
    case WantWrite =>
      WantWriteLived(s, m.c);
      LivedFollows(m, s, Taken(s, m), m.c, WantWrite, c);
    case WantClose(force) =>
      WantCloseLived(s, m.c, force);
      LivedFollows(m, s, Taken(s, m), m.c, WantClose(force), c);
  }

  lemma MoveFollows(s: Pipe, m: Move, c: nat)
    requires AllGood(s) && Held(s) && Loaded(s) && Possible(s, m) && c in s.members
    ensures c in Taken(s, m).members && Follows(m, View(s, c), View(Taken(s, m), c))
  {
    hide AllGood, Loaded, Spread, Manages, ReaderTurn, WorkerTurn, WriterTurn, WorkerDone, Exiting, BackPut, Accepting,
      Interest, ReadInput, CloseConnection, Lived, Unmoved, Dequeue, View, Follows, Lines;
    match m
    case Accept(d) =>
      AcceptBorn(s, d);
      SameFollows(m, View(s, c));
    case Of(_, _) => OfFollows(s, m, c);
    case ReaderMove =>
      ReaderLived(s);
      TurnFollows(m, s, Taken(s, m), Dequeue(s.reader).1, TakeReader, c);
    case WorkerMove =>
      WorkerLived(s);
      TurnFollows(m, s, Taken(s, m), Dequeue(s.worker).1, TakeWorker, c);
    case WriterMove(chunk, took) =>
      WriterLived(s, chunk, took);
      TurnFollows(m, s, Taken(s, m), Dequeue(s.writer).1, TakeWriter(chunk, took), c);
    case WorkerEnds(left) =>
      WorkerEndsLived(s, left);
      LivedFollows(m, s, Taken(s, m), s.serving.value.connection.conn, Finish, c);
    case WriterBack =>
      WriterBackLived(s);
      LivedFollows(m, s, Taken(s, m), s.resend.value, PutBack, c);
    case ExitOf(which) =>
      ExitView(s, which, c);
      ViewIs(s, c);
      ExitFollows(m, View(s, c), which);
  }

  // ---------------------------------------------------------------- runs

  lemma {:induction false} LegalJoins(s: Pipe, first: seq<Move>, second: seq<Move>)
    requires Legal(s, first) && Legal(After(s, first), second)
    ensures Legal(s, first + second) && After(s, first + second) == After(After(s, first), second)
    decreases |first|
  {
    hide Possible, Taken;
    if first == [] {
      assert first + second == second;
    } else {
      LegalJoins(Taken(s, first[0]), first[1..], second);
      assert (first + second)[1..] == first[1..] + second;
    }
  }

  lemma LegalOne(s: Pipe, m: Move)
    requires Possible(s, m)
    ensures Legal(s, [m]) && After(s, [m]) == Taken(s, m)
  {
    hide Possible, Taken;
    assert [m][1..] == [];
  }

  lemma LegalMore(s: Pipe, moves: seq<Move>, m: Move)
    requires Legal(s, moves) && Possible(After(s, moves), m)
    ensures Legal(s, moves + [m]) && After(s, moves + [m]) == Taken(After(s, moves), m)
  {
    hide Legal, After, Possible, Taken;
    LegalOne(After(s, moves), m);
    LegalJoins(s, moves, [m]);
  }

  /** In every run of the pipe, what a connection has reached is not taken back. */
  lemma {:induction false} OnwardRuns(s: Pipe, moves: seq<Move>, c: nat)
    requires Safe(s) && Legal(s, moves) && c in s.members
    ensures c in After(s, moves).members && Onward(View(s, c), View(After(s, moves), c))
    decreases |moves|
  {
    hide Safe, Possible, Taken, View, Onward;
    if moves == [] {
      OnwardSelf(View(s, c));
    } else {
      OnwardMove(s, moves[0], c);
      SafeKeeps(s, moves[0]);
      OnwardRuns(Taken(s, moves[0]), moves[1..], c);
      OnwardTwice(View(s, c), View(Taken(s, moves[0]), c), View(After(s, moves), c));
    }
  }

  lemma OnwardSelf(l: Life)
    ensures Onward(l, l)
  {
    hide Waiting;
  }

  lemma OnwardMove(s: Pipe, m: Move, c: nat)
    requires Safe(s) && Possible(s, m) && c in s.members
    ensures c in Taken(s, m).members && Onward(View(s, c), View(Taken(s, m), c))
  {
    hide Safe, AllGood, Held, Loaded, Good, Possible, Taken, View, Onward, Enabled, Next;
    SafeIs(s);
    GoodAt(s, c);
    MoveFollows(s, m, c);
    var l, k := View(s, c), View(Taken(s, m), c);
    if k == l {
      OnwardSelf(l);
    } else {
      var a :| Enabled(l, a) && k == Next(l, a) && (a.WantClose? ==> m == Of(l.self, a));
      OnwardKeeps(l, a);
    }
  }

  /** A close that was fit stays so in every run without a graceful close of the connection. */
  lemma {:induction false} FitRuns(s: Pipe, moves: seq<Move>, c: nat)
    requires Safe(s) && Legal(s, moves) && c in s.members && Fit(View(s, c)) && Of(c, WantClose(false)) !in moves
    ensures c in After(s, moves).members && Fit(View(After(s, moves), c))
    decreases |moves|
  {
    hide Safe, Possible, Taken, View, Fit;
    if moves != [] {
      FitMove(s, moves[0], c);
      SafeKeeps(s, moves[0]);
      FitRuns(Taken(s, moves[0]), moves[1..], c);
    }
  }

  lemma FitMove(s: Pipe, m: Move, c: nat)
    requires Safe(s) && Possible(s, m) && c in s.members && Fit(View(s, c)) && m != Of(c, WantClose(false))
    ensures c in Taken(s, m).members && Fit(View(Taken(s, m), c))
  {
    hide Safe, AllGood, Held, Loaded, Good, Possible, Taken, View, Fit, Enabled, Next;
    SafeIs(s);
    GoodAt(s, c);
    ViewIs(s, c);
    MoveFollows(s, m, c);
    var l, k := View(s, c), View(Taken(s, m), c);
    if k != l {
      var a :| Enabled(l, a) && k == Next(l, a) && (a.WantClose? ==> m == Of(l.self, a));
      FitKeeps(l, a);
    }
  }
}
