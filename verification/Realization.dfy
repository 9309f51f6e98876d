/** The converse of Runs.dfy: each step that a connection's life allows is brought about by moves of
    the pipe, from every safe state. What stands in its way is the other connections' business,
    which the threads can always do first. */
module Realization {
  import opened EventModel
  import opened QueueModel
  import opened Connections
  import opened Lives
  import opened Reactions
  import opened Invariants
  import opened Closing
  import opened Streams
  import opened Endings
  import opened Outcomes
  import opened Pipes
  import opened Projection
  import opened Refinement
  import opened Holdings
  import opened SelectorModel
  import opened Runs
  import B = BufferModel

  /** Moves of the threads on their own, and no others but `m`. */
  predicate ThreadsOr(moves: seq<Move>, m: Move) {
    forall x <- moves :: x.ReaderMove? || x.WorkerMove? || x.WorkerEnds? || x.WriterMove? || x.WriterBack? || x == m
  }

  predicate OfThreads(moves: seq<Move>) {
    forall x <- moves :: x.ReaderMove? || x.WorkerMove? || x.WorkerEnds? || x.WriterMove? || x.WriterBack?
  }

  /** The pipe did something that left the connection alone. */
  ghost predicate Undisturbed(s: Pipe, t: Pipe, c: nat) {
    Safe(t) && c in s.members && c in t.members && View(t, c) == View(s, c)
  }

  lemma UndisturbedBy(s: Pipe, m: Move, c: nat, d: nat, a: Act)
    requires Safe(s) && Possible(s, m) && c in s.members && d != c && Lived(s, Taken(s, m), d, a)
    ensures Undisturbed(s, Taken(s, m), c)
  {
    hide Safe, Possible, Taken, View, Next, Enabled, PoolOk, Lines;
    SafeKeeps(s, m);
    SameView(s, Taken(s, m), c);
  }

  lemma UndisturbedByNone(s: Pipe, m: Move, c: nat)
    requires Safe(s) && Possible(s, m) && c in s.members && Unmoved(s, Taken(s, m))
    ensures Undisturbed(s, Taken(s, m), c)
  {
    hide Safe, Possible, Taken, View, PoolOk, Lines;
    SafeKeeps(s, m);
    SameView(s, Taken(s, m), c);
  }

  /** What a Dequeue does to the items. */
  lemma DequeueLeaves(q: QState<Ptr>)
    ensures var (q', r) := Dequeue(q);
      && (r.None? ==> q'.items == q.items && q' == q.(emptied := false) && (q.emptied || q.items == []))
      && (r.Some? ==>
          && !q.emptied && q.items != [] && r.value == q.items[0] && q'.items == q.items[1..]
          && (q'.items != [] ==> !q'.emptied) && q'.exit == q.exit
          && (ExitItem in q.items <==> r.value == ExitItem || ExitItem in q'.items))
  {
    if q.items != [] {
      assert q.items == [q.items[0]] + q.items[1..];
    }
  }

  lemma NoneAbout(c: nat)
    ensures About([], c) == []
  {
  }

  // ---------------------------------------------------------------- the reader

  /** Handling an item puts nothing on the reader's own queue. */
  lemma ReaderPutsNothing(s: Pipe)
    requires AllGood(s)
    ensures ReaderTurn(s).reader == Dequeue(s.reader).0
  {
    hide Good, Quiet, PoolOk, View, Dequeue, Vote, MapRegister, MapUnregister, Spread;
    var r := Dequeue(s.reader).1;
    if r.Some? && r.value.DataItem? && Known(s, r.value.data) {
      var c := r.value.data.conn;
      ViewIs(s, c);
      PartsOfGood(View(s, c));
      var b := s.members[c].conn.(readKey := true);
      SameShapeOf(View(s, c), b);
      ManagedQuiet(b, s.members[c].progress, Open(s));
      var t := s.(reader := Dequeue(s.reader).0, registry := MapRegister(s.registry, OP_READ, c, c), load := s.load + 1);
      SpreadReader(t, c, ManagedBy(b, Reader, Open(s)));
    }
  }

  lemma SameShapeOf(l: Life, b: Conn)
    requires Base(l) && b == l.conn.(readKey := true)
    ensures Shape(b, l.progress)
  {
    hide VotesOk, Flags, Managers, Timely, Shape;
    SameShape(l.conn, b, l.progress);
  }

  lemma ManagedQuiet(b: Conn, progress: nat, s: Accepts)
    requires Shape(b, progress)
    ensures ManagedBy(b, Reader, s).1 == NOTHING
  {
    hide Shape, Emit;
    var d := b.(managedBy := b.managedBy + {Reader});
    var e := d.(state := StateConnected, log := Entered(d.log, d.state, StateConnected), canRead := true, canWrite := true);
    SameShape(b, e, progress);
    DispatchOther(e, progress, Connected, s);
  }

  lemma SpreadReader(s: Pipe, c: nat, r: (Conn, Effect))
    requires c in s.members && r.1.reader == []
    ensures Spread(s, c, r).reader == s.reader
  {
    hide Handed, RemoveAll;
  }

  /** The next item is about `c`. */
  predicate NextAbout(q: QState<Ptr>, c: nat) {
    var r := Dequeue(q).1; r.Some? && Whom(r.value) == Some(c)
  }

  lemma ReaderPasses(s: Pipe, c: nat)
    requires Safe(s) && c in s.members && !NextAbout(s.reader, c) && About(s.reader.items, c) != []
    ensures var t := ReaderTurn(s);
      && Undisturbed(s, t, c)
      && (|t.reader.items| < |s.reader.items| || (t.reader.items == s.reader.items && s.reader.emptied && !t.reader.emptied))
  {
    hide Safe, AllGood, Held, Loaded, Undisturbed, Lived, Unmoved, ReaderTurn, View, Dequeue, About, Whom;
    SafeIs(s);
    ReaderPutsNothing(s);
    DequeueLeaves(s.reader);
    NoneAbout(c);
    ReaderLived(s);
    var r := Dequeue(s.reader).1;
    if r.Some? && Whom(r.value).Some? {
      UndisturbedBy(s, ReaderMove, c, Whom(r.value).value, TakeReader);
    } else {
      UndisturbedByNone(s, ReaderMove, c);
    }
  }

  lemma {:induction false} BringReader(s: Pipe, c: nat) returns (moves: seq<Move>)
    requires Safe(s) && c in s.members && About(s.reader.items, c) != []
    ensures Legal(s, moves) && ThreadsOr(moves, ReaderMove)
    ensures Undisturbed(s, After(s, moves), c) && NextAbout(After(s, moves).reader, c)
    decreases |s.reader.items|, s.reader.emptied
  {
    hide Safe, ReaderTurn, View, NextAbout, About;
    moves := [];
    if !NextAbout(s.reader, c) {
      ReaderPasses(s, c);
      var t := ReaderTurn(s);
      SameReader(s, t, c);
      var rest := BringReader(t, c);
      LegalOne(s, ReaderMove);
      LegalJoins(s, [ReaderMove], rest);
      moves := [ReaderMove] + rest;
    }
  }

  lemma SameReader(s: Pipe, t: Pipe, c: nat)
    requires c in s.members && c in t.members && View(t, c) == View(s, c)
    ensures About(t.reader.items, c) == About(s.reader.items, c)
    ensures About(t.worker.items, c) == About(s.worker.items, c)
    ensures About(t.writer.items, c) == About(s.writer.items, c)
    ensures (t.serving.Some? && Names(t.serving.value, c)) == (s.serving.Some? && Names(s.serving.value, c))
    ensures t.resend == Some(c) <==> s.resend == Some(c)
  {
    hide About, Names;
  }

  // ---------------------------------------------------------------- the worker

  /** A round takes the front item, and with a CLOSE the connection's tasks. */
  lemma WorkerShrinks(s: Pipe)
    ensures var q, w := Dequeue(s.worker).0, WorkerTurn(s).worker;
      |w.items| <= |q.items| && w.emptied == q.emptied && (ExitItem in w.items ==> ExitItem in q.items)
    ensures WorkerTurn(s).worker.exit == s.worker.exit
  {
    hide Vote, ReleasedAll, Without;
    var r := Dequeue(s.worker).1;
    if r.Some? && r.value.EventItem? && Known(s, r.value.source) {
      WithoutMembers(Dequeue(s.worker).0.items, IsTask(r.value.source.conn));
    }
  }

  lemma WorkerPasses(s: Pipe, c: nat)
    requires Safe(s) && c in s.members && !NextAbout(s.worker, c) && About(s.worker.items, c) != [] && s.serving.None?
    ensures var t := WorkerTurn(s);
      && Undisturbed(s, t, c)
      && (|t.worker.items| < |s.worker.items|
          || (|t.worker.items| <= |s.worker.items| && s.worker.emptied && !t.worker.emptied))
  {
    hide Safe, AllGood, Held, Loaded, Undisturbed, Lived, Unmoved, WorkerTurn, View, Dequeue, About, Whom;
    SafeIs(s);
    WorkerShrinks(s);
    DequeueLeaves(s.worker);
    NoneAbout(c);
    WorkerLived(s);
    var r := Dequeue(s.worker).1;
    if r.Some? && Whom(r.value).Some? {
      UndisturbedBy(s, WorkerMove, c, Whom(r.value).value, TakeWorker);
    } else {
      UndisturbedByNone(s, WorkerMove, c);
    }
  }

  /** The task of another connection ends. */
  lemma TaskPasses(s: Pipe, c: nat)
    requires Safe(s) && c in s.members && s.serving.Some? && !Names(s.serving.value, c)
    ensures Possible(s, WorkerEnds(NewMem(s.size)))
    ensures var t := WorkerDone(s, NewMem(s.size)); Undisturbed(s, t, c) && t.worker == s.worker && t.serving.None?
  {
    hide Safe, AllGood, Loaded, Undisturbed, Lived, View, Released;
    SafeIs(s);
    WorkerEndsLived(s, NewMem(s.size));
    UndisturbedBy(s, WorkerEnds(NewMem(s.size)), c, s.serving.value.connection.conn, Finish);
  }

  lemma {:induction false} BringWorker(s: Pipe, c: nat) returns (moves: seq<Move>)
    requires Safe(s) && c in s.members && About(s.worker.items, c) != []
    requires !(s.serving.Some? && Names(s.serving.value, c))
    ensures Legal(s, moves) && ThreadsOr(moves, WorkerMove)
    ensures var t := After(s, moves); Undisturbed(s, t, c) && NextAbout(t.worker, c) && t.serving.None?
    decreases |s.worker.items|, s.worker.emptied, s.serving.Some?
  {
    hide Safe, WorkerTurn, WorkerDone, View, NextAbout, About, Names;
    moves := [];
    if s.serving.Some? || !NextAbout(s.worker, c) {
      var move: Move;
      if s.serving.Some? {
        move := WorkerEnds(NewMem(s.size));
        TaskPasses(s, c);
      } else {
        move := WorkerMove;
        WorkerPasses(s, c);
      }
      SameReader(s, Taken(s, move), c);
      var rest := BringWorker(Taken(s, move), c);
      LegalOne(s, move);
      LegalJoins(s, [move], rest);
      moves := [move] + rest;
    }
  }

  // ---------------------------------------------------------------- the writer

  /** How many items come before the first about `c`. */
  function Ahead(items: seq<Item>, c: nat): nat {
    if items == [] || Names(items[0], c) then 0 else 1 + Ahead(items[1..], c)
  }

  lemma {:induction false} AheadPrefix(items: seq<Item>, more: seq<Item>, c: nat)
    requires About(items, c) != []
    ensures Ahead(items + more, c) == Ahead(items, c)
  {
    hide Names;
    if !Names(items[0], c) {
      assert (items + more)[1..] == items[1..] + more;
      AheadPrefix(items[1..], more, c);
    }
  }

  lemma {:induction false} AheadWithout(items: seq<Item>, p: Item -> bool, c: nat)
    requires forall x: Item :: p(x) ==> !Names(x, c)
    ensures Ahead(Without(items, p), c) <= Ahead(items, c)
  {
    hide Names;
    if items != [] {
      AheadWithout(items[1..], p, c);
      assert !p(items[0]) ==> Without(items, p)[0] == items[0] && Without(items, p)[1..] == Without(items[1..], p);
      assert p(items[0]) ==> Without(items, p) == Without(items[1..], p);
    }
  }

  lemma {:induction false} PostExtends(q: QState<Ptr>, items: seq<Item>)
    ensures var r := Post(q, items); q.items <= r.items && r.emptied == q.emptied
    decreases |items|
  {
    if items != [] {
      PostExtends(Enqueue(q, items[0]).0, items[1..]);
    }
  }

  /** A round about another connection brings `c` no further away. */
  lemma WriterForwards(s: Pipe, c: nat)
    requires WriterMay(s, [], Some(0)) && About(Dequeue(s.writer).0.items, c) != [] && !NextAbout(s.writer, c)
    ensures var q, w := Dequeue(s.writer).0, WriterTurn(s, [], Some(0)).writer;
      Ahead(w.items, c) <= Ahead(q.items, c) && w.emptied == q.emptied
  {
    hide Vote, Without, MaySend, WriteOutput, Spread, Dequeue, About, Ahead;
    var (q, r) := Dequeue(s.writer);
    if r.Some? && r.value.EventItem? && Known(s, r.value.source) {
      var d := r.value.source.conn;
      if r.value.event == OutboundData {
        var (conn, e, again) := WriteOutput(s.members[d].conn, [], Some(0), Open(s));
        var t := s.(writer := q, resend := if again then Some(d) else None);
        SpreadWriter(t, d, (conn, e));
        PostExtends(q, EventsOf(d, e.writer));
        var w := Spread(t, d, (conn, e)).writer.items;
        assert w == q.items + w[|q.items|..];
        AheadPrefix(q.items, w[|q.items|..], c);
      } else if r.value.event == Close {
        assert forall x: Item :: IsEvent(d)(x) ==> !Names(x, c);
        AheadWithout(q.items, IsEvent(d), c);
      }
    }
  }

  lemma SpreadWriter(s: Pipe, c: nat, r: (Conn, Effect))
    requires c in s.members
    ensures Spread(s, c, r).writer == Post(s.writer, EventsOf(c, r.1.writer))
  {
    hide Handed, RemoveAll, Post;
  }

  lemma WriterPasses(s: Pipe, c: nat)
    requires Safe(s) && c in s.members && !NextAbout(s.writer, c) && About(s.writer.items, c) != [] && s.resend.None?
    ensures WriterMay(s, [], Some(0))
    ensures var t := WriterTurn(s, [], Some(0));
      && Undisturbed(s, t, c)
      && (Ahead(t.writer.items, c) < Ahead(s.writer.items, c)
          || (Ahead(t.writer.items, c) <= Ahead(s.writer.items, c) && s.writer.emptied && !t.writer.emptied))
  {
    hide Safe, AllGood, Held, Loaded, Undisturbed, Lived, Unmoved, WriterTurn, View, Refill, Names;
    SafeIs(s);
    NoneAbout(c);
    WriterLived(s, [], Some(0));
    var r := Dequeue(s.writer).1;
    NotNamed(s.writer, c);
    WriterForwards(s, c);
    if r.Some? && Whom(r.value).Some? {
      UndisturbedBy(s, WriterMove([], Some(0)), c, Whom(r.value).value, TakeWriter([], Some(0)));
    } else {
      UndisturbedByNone(s, WriterMove([], Some(0)), c);
    }
  }

  lemma NotNamed(q: QState<Ptr>, c: nat)
    requires !NextAbout(q, c)
    ensures Dequeue(q).1.Some? ==> !Names(Dequeue(q).1.value, c)
  {
  }

  /** The event of another connection is put back. */
  lemma BackPasses(s: Pipe, c: nat)
    requires Safe(s) && c in s.members && s.resend.Some? && s.resend != Some(c) && About(s.writer.items, c) != []
    ensures var t := BackPut(s);
      && Undisturbed(s, t, c) && t.resend.None?
      && Ahead(t.writer.items, c) == Ahead(s.writer.items, c) && t.writer.emptied == s.writer.emptied
  {
    hide Safe, AllGood, Held, Loaded, Undisturbed, Lived, View, About, Ahead;
    SafeIs(s);
    WriterBackLived(s);
    UndisturbedBy(s, WriterBack, c, s.resend.value, PutBack);
    AheadPrefix(s.writer.items, [EventOf(s.resend.value, OutboundData)], c);
  }

  lemma {:induction false} BringWriter(s: Pipe, c: nat) returns (moves: seq<Move>)
    requires Safe(s) && c in s.members && About(s.writer.items, c) != [] && s.resend != Some(c)
    ensures Legal(s, moves) && ThreadsOr(moves, WriterBack)
    ensures var t := After(s, moves); Undisturbed(s, t, c) && NextAbout(t.writer, c) && t.resend.None?
    decreases Ahead(s.writer.items, c), s.writer.emptied, s.resend.Some?
  {
    hide Safe, WriterTurn, BackPut, View, NextAbout, About, Ahead, WriterMay;
    moves := [];
    if s.resend.Some? || !NextAbout(s.writer, c) {
      var move: Move;
      if s.resend.Some? {
        move := WriterBack;
        BackPasses(s, c);
      } else {
        move := WriterMove([], Some(0));
        WriterPasses(s, c);
      }
      SameReader(s, Taken(s, move), c);
      var rest := BringWriter(Taken(s, move), c);
      LegalOne(s, move);
      LegalJoins(s, [move], rest);
      moves := [move] + rest;
    }
  }

  // ---------------------------------------------------------------- every step of a life

  /** The moves bring about one step of `c`. */
  ghost predicate Realizes(s: Pipe, moves: seq<Move>, c: nat, a: Act) {
    && Safe(s) && c in s.members && Legal(s, moves) && Enabled(View(s, c), a)
    && var t := After(s, moves); Safe(t) && c in t.members && View(t, c) == Next(View(s, c), a)
  }

  /** What a connection does by itself: the hand-over, a read, an interest, a close. */
  predicate OwnMove(a: Act) {
    a.Manage? || a.Arrive? || a.WantWrite? || a.WantClose?
  }

  lemma RealizedBy(s: Pipe, before: seq<Move>, m: Move, c: nat, a: Act)
    requires Safe(s) && c in s.members && Legal(s, before) && Undisturbed(s, After(s, before), c)
    requires Possible(After(s, before), m) && Lived(After(s, before), Taken(After(s, before), m), c, a)
    ensures Realizes(s, before + [m], c, a)
  {
    hide Safe, Possible, Taken, View, Next, Enabled, Legal, After, PoolOk, Elsewhere;
    var t := After(s, before);
    LegalMore(s, before, m);
    SafeKeeps(t, m);
    LivedView(t, Taken(t, m), c, a);
  }

  lemma Alone(s: Pipe, m: Move, c: nat, a: Act)
    requires Safe(s) && c in s.members && Possible(s, m) && Lived(s, Taken(s, m), c, a)
    ensures Realizes(s, [m], c, a)
  {
    hide Safe, Possible, Taken, View, Next, Enabled, Lived;
    RealizedBy(s, [], m, c, a);
    assert [] + [m] == [m];
  }

  lemma RealizeOwn(s: Pipe, c: nat, a: Act) returns (moves: seq<Move>)
    requires Safe(s) && c in s.members && Enabled(View(s, c), a) && OwnMove(a) && !a.Arrive?
    ensures Realizes(s, moves, c, a) && moves == [Of(c, a)]
  {
    hide Safe, AllGood, Held, Loaded, Owned, Lived, Spread, Interest, CloseConnection, Manages, Realizes, View, Enabled;
    SafeIs(s);
    moves := [Of(c, a)];
    match a
    case Manage =>
      ManageEnabled(s, c);
      ManageLived(s, c);
      Alone(s, Of(c, a), c, a);
    case WantWrite =>
      WantWriteLived(s, c);
      Alone(s, Of(c, a), c, a);
    case WantClose(force) =>
      WantCloseLived(s, c, force);
      Alone(s, Of(c, a), c, a);
  }

  lemma ManageEnabled(s: Pipe, c: nat)
    requires c in s.members && Enabled(View(s, c), Manage)
    ensures s.members[c].progress < 10
  {
    hide About;
  }

  lemma TurnEnabled(s: Pipe, c: nat)
    requires c in s.members
    ensures Enabled(View(s, c), TakeReader) ==> About(s.reader.items, c) != []
    ensures Enabled(View(s, c), TakeWorker) ==>
      About(s.worker.items, c) != [] && !(s.serving.Some? && Names(s.serving.value, c))
    ensures Enabled(View(s, c), Finish) ==> s.serving.Some? && Names(s.serving.value, c)
    ensures Enabled(View(s, c), PutBack) ==> s.resend == Some(c)
    ensures forall chunk, took :: Enabled(View(s, c), TakeWriter(chunk, took)) ==>
      About(s.writer.items, c) != [] && s.resend != Some(c)
  {
    hide About, Names, MaySend;
  }

  lemma RealizeReader(s: Pipe, c: nat) returns (moves: seq<Move>)
    requires Safe(s) && c in s.members && Enabled(View(s, c), TakeReader)
    ensures Realizes(s, moves, c, TakeReader) && ThreadsOr(moves, ReaderMove)
  {
    hide Safe, AllGood, Held, Loaded, Owned, Lived, ReaderTurn, View, Enabled, Legal, After, Realizes;
    TurnEnabled(s, c);
    moves := BringReader(s, c);
    var t := After(s, moves);
    SafeIs(t);
    ReaderLived(t);
    RealizedBy(s, moves, ReaderMove, c, TakeReader);
    moves := moves + [ReaderMove];
  }

  lemma RealizeWorker(s: Pipe, c: nat) returns (moves: seq<Move>)
    requires Safe(s) && c in s.members && Enabled(View(s, c), TakeWorker)
    ensures Realizes(s, moves, c, TakeWorker) && ThreadsOr(moves, WorkerMove)
  {
    hide Safe, AllGood, Held, Loaded, Owned, Lived, WorkerTurn, View, Enabled, Legal, After, Realizes;
    TurnEnabled(s, c);
    moves := BringWorker(s, c);
    var t := After(s, moves);
    SafeIs(t);
    WorkerLived(t);
    RealizedBy(s, moves, WorkerMove, c, TakeWorker);
    moves := moves + [WorkerMove];
  }

  lemma RealizeWriter(s: Pipe, c: nat, chunk: seq<byte>, took: Option<nat>) returns (moves: seq<Move>)
    requires Safe(s) && c in s.members && Enabled(View(s, c), TakeWriter(chunk, took))
    ensures Realizes(s, moves, c, TakeWriter(chunk, took)) && ThreadsOr(moves, WriterBack)
  {
    hide Safe, AllGood, Held, Loaded, Owned, Lived, WriterTurn, WriterMay, View, Enabled, Legal, After, Realizes;
    TurnEnabled(s, c);
    moves := BringWriter(s, c);
    var t := After(s, moves);
    SafeIs(t);
    WriterMayAt(t, c, chunk, took);
    WriterLived(t, chunk, took);
    RealizedBy(s, moves, WriterMove(chunk, took), c, TakeWriter(chunk, took));
    moves := moves + [WriterMove(chunk, took)];
  }

  lemma WriterMayAt(s: Pipe, c: nat, chunk: seq<byte>, took: Option<nat>)
    requires c in s.members && NextAbout(s.writer, c) && Enabled(View(s, c), TakeWriter(chunk, took))
    ensures WriterMay(s, chunk, took)
  {
    hide MaySend, About;
    DequeueIs(s.writer, c);
  }

  lemma RealizeRest(s: Pipe, c: nat, a: Act) returns (moves: seq<Move>)
    requires Safe(s) && c in s.members && Enabled(View(s, c), a) && (a.Finish? || a.PutBack? || a.Exit?)
    ensures Realizes(s, moves, c, a) && (forall x <- moves :: !x.Of?) && (!a.Exit? ==> OfThreads(moves))
  {
    hide Safe, AllGood, Loaded, Owned, Lived, WorkerDone, BackPut, Exiting, View, Realizes, Enabled, Next;
    SafeIs(s);
    TurnEnabled(s, c);
    match a
    case Finish =>
      var move := WorkerEnds(NewMem(s.size));
      moves := [move];
      WorkerEndsLived(s, NewMem(s.size));
      Alone(s, move, c, a);
    case PutBack =>
      moves := [WriterBack];
      WriterBackLived(s);
      Alone(s, WriterBack, c, a);
    case Exit(which) =>
      moves := [ExitOf(which)];
      RealizeExit(s, c, which);
  }

  lemma RealizeExit(s: Pipe, c: nat, which: Which)
    requires Safe(s) && c in s.members
    ensures Realizes(s, [ExitOf(which)], c, Exit(which))
  {
    hide Safe, AllGood, Held, Loaded, Owned, Exiting, View;
    SafeIs(s);
    LegalOne(s, ExitOf(which));
    SafeKeeps(s, ExitOf(which));
    ExitView(s, which, c);
    ViewIs(s, c);
  }

  /** Whatever a connection may do next, there are moves of the pipe that make it do so. */
  lemma Realize(s: Pipe, c: nat, a: Act) returns (moves: seq<Move>)
    requires Safe(s) && c in s.members && Enabled(View(s, c), a) && !a.Arrive?
    ensures Realizes(s, moves, c, a) && (forall x <- moves :: x.Of? ==> x == Of(c, a)) && (OfThread(a) ==> OfThreads(moves))
  {
    hide Safe, View, Enabled, Realizes;
    match a
    case TakeReader => moves := RealizeReader(s, c);
    case TakeWorker => moves := RealizeWorker(s, c);
    case TakeWriter(chunk, took) => moves := RealizeWriter(s, c, chunk, took);
    case Finish => moves := RealizeRest(s, c, a);
    case PutBack => moves := RealizeRest(s, c, a);
    case Exit(_) => moves := RealizeRest(s, c, a);
    case _ => moves := RealizeOwn(s, c, a);
  }

  /** A read is one move; the buffer of the task is the one that the pool gives. */
  lemma RealizeArrive(s: Pipe, c: nat, input: Input) returns (id: nat)
    requires Safe(s) && c in s.members && Enabled(View(s, c), Arrive(input, 0))
    ensures Realizes(s, [Of(c, Arrive(input, 0))], c, Arrive(input, id))
  {
    hide Safe, AllGood, Held, Loaded, Owned, Lived, Spread, ReadInput, View, Realizes, HandedId, MayReceive;
    SafeIs(s);
    ViewIs(s, c);
    KeyedAt(s, c);
    AllKeyed(s);
    id := HandedId(s, ReadInput(s.members[c].conn, input, Open(s)).1.copy);
    ArriveLived(s, c, input);
    Alone(s, Of(c, Arrive(input, 0)), c, Arrive(input, id));
  }

  lemma AllKeyed(s: Pipe)
    requires Safe(s)
    ensures Keyed(s)
  {
    hide AllGood, Held, Owned;
  }

  // ---------------------------------------------------------------- whole lives

  lemma {:induction false} RealizeAll(s: Pipe, c: nat, acts: seq<Act>) returns (moves: seq<Move>)
    requires Safe(s) && c in s.members && LifeLegal(View(s, c), acts) && forall a <- acts :: !a.Arrive?
    ensures Legal(s, moves) && (forall x <- moves :: x.Of? ==> x.c == c && x.act in acts)
    ensures var t := After(s, moves); Safe(t) && c in t.members && View(t, c) == LifeAfter(View(s, c), acts)
    decreases |acts|
  {
    hide Safe, View, Enabled, Next, Possible, Taken;
    moves := [];
    if acts != [] {
      var first := Realize(s, c, acts[0]);
      var t := After(s, first);
      var rest := RealizeAll(t, c, acts[1..]);
      LegalJoins(s, first, rest);
      moves := first + rest;
    }
  }

  /** What the threads do about one connection they can do whatever else is queued. */
  lemma {:induction false} RealizeThreads(s: Pipe, c: nat, acts: seq<Act>) returns (moves: seq<Move>)
    requires Safe(s) && c in s.members && LifeLegal(View(s, c), acts) && forall a <- acts :: OfThread(a)
    ensures Legal(s, moves) && OfThreads(moves)
    ensures var t := After(s, moves); Safe(t) && c in t.members && View(t, c) == LifeAfter(View(s, c), acts)
    decreases |acts|
  {
    hide Safe, View, Enabled, Next, Possible, Taken;
    moves := [];
    if acts != [] {
      assert OfThread(acts[0]);
      var first := Realize(s, c, acts[0]);
      var t := After(s, first);
      var rest := RealizeThreads(t, c, acts[1..]);
      LegalJoins(s, first, rest);
      moves := first + rest;
    }
  }

  /** Every life without reads, from the birth on, is the life of a connection in some run of a new
      pipe. */
  lemma LivesAreReached(size: nat, c: nat, acts: seq<Act>) returns (moves: seq<Move>)
    requires LifeLegal(Born(c, size, Accepts(true, true, true)), acts) && forall a <- acts :: !a.Arrive?
    ensures Legal(NewPipe(size), moves) && c in After(NewPipe(size), moves).members
    ensures View(After(NewPipe(size), moves), c) == LifeAfter(Born(c, size, Accepts(true, true, true)), acts)
  {
    hide Safe, AllGood, Held, Loaded, Owned, View, Born, Accepting, LifeLegal, LifeAfter, Possible, Taken;
    var s := NewPipe(size);
    SafeStart(size);
    var t := Accepting(s, c);
    NewIsEmpty(size);
    SafeIs(s);
    AcceptBorn(s, c);
    AcceptPossible(s, c);
    LegalOne(s, Accept(c));
    SafeKeeps(s, Accept(c));
    var rest := RealizeAll(t, c, acts);
    LegalJoins(s, [Accept(c)], rest);
    moves := [Accept(c)] + rest;
  }

  lemma AcceptPossible(s: Pipe, c: nat)
    requires c !in s.members
    ensures Possible(s, Accept(c)) && Taken(s, Accept(c)) == Accepting(s, c)
  {
  }

  lemma NewIsEmpty(size: nat)
    ensures var s := NewPipe(size); s.members == map[] && s.size == size && Open(s) == Accepts(true, true, true)
  {
  }
}
