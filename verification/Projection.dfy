/** Each connection of a pipe lives the life of Lives.dfy: what a step of the pipe does to the items
    about one connection is one step of that connection, or nothing. */
module Projection {
  import opened EventModel
  import opened QueueModel
  import opened Connections
  import opened Lives
  import opened Reactions
  import opened Invariants
  import opened Streams
  import opened Pipes
  import PoolModel
  import B = BufferModel

  // ---------------------------------------------------------------- items about a connection

  lemma {:induction false} AboutAppend(a: seq<Item>, b: seq<Item>, c: nat)
    ensures About(a + b, c) == About(a, c) + About(b, c)
  {
    hide Names;
    if a == [] {
      assert a + b == b;
    } else {
      AboutAppend(a[1..], b, c);
      assert (a + b)[1..] == a[1..] + b && (a + b)[0] == a[0];
      Regroup(if Names(a[0], c) then [a[0]] else [], About(a[1..], c), About(b, c));
    }
  }

  lemma Regroup(x: seq<Item>, y: seq<Item>, z: seq<Item>)
    ensures x + (y + z) == (x + y) + z
  {
  }

  lemma {:induction false} AboutWithout(items: seq<Item>, p: Item -> bool, c: nat)
    ensures About(Without(items, p), c) == Without(About(items, c), p)
  {
    hide Names;
    if items != [] {
      AboutWithout(items[1..], p, c);
      var kept := if p(items[0]) then [] else [items[0]];
      AboutAppend(kept, Without(items[1..], p), c);
      var own := if Names(items[0], c) then [items[0]] else [];
      WithoutAppend(own, About(items[1..], c), p);
      assert own != [] ==> own[1..] == [];
      assert kept != [] ==> kept[1..] == [];
    }
  }

  lemma {:induction false} AboutNames(items: seq<Item>, c: nat)
    ensures forall x <- About(items, c) :: Names(x, c)
  {
    hide Names;
    if items != [] {
      AboutNames(items[1..], c);
    }
  }

  lemma {:induction false} AboutUniform(items: seq<Item>, c: nat)
    requires (forall x <- items :: Names(x, c)) || (forall x <- items :: !Names(x, c))
    ensures About(items, c) == if items != [] && Names(items[0], c) then items else []
  {
    hide Names;
    if items != [] {
      AboutUniform(items[1..], c);
      assert items == [items[0]] + items[1..];
    }
  }

  lemma {:induction false} WithoutNothing(s: seq<Item>, p: Item -> bool)
    requires forall x <- s :: !p(x)
    ensures Without(s, p) == s
  {
    if s != [] {
      WithoutNothing(s[1..], p);
      assert s == [s[0]] + s[1..];
    }
  }

  /** RemoveAll of what concerns `c` leaves the items about another connection alone. */
  lemma AboutOther(items: seq<Item>, p: Item -> bool, c: nat, d: nat)
    requires d != c && forall x: Item :: p(x) ==> Names(x, c)
    ensures About(Without(items, p), d) == About(items, d)
  {
    AboutWithout(items, p, d);
    AboutNames(items, d);
    WithoutNothing(About(items, d), p);
  }

  /** The front item. */
  lemma AboutFront(items: seq<Item>, c: nat)
    requires items != []
    ensures About(items, c) == (if Names(items[0], c) then [items[0]] else []) + About(items[1..], c)
    ensures Names(items[0], c) ==>
      About(items, c) != [] && About(items, c)[0] == items[0] && About(items, c)[1..] == About(items[1..], c)
  {
  }

  lemma {:induction false} PostAppends(q: QState<Ptr>, items: seq<Item>)
    requires items != [] ==> !q.exit
    requires forall x <- items :: !x.ExitItem?
    ensures Post(q, items).items == q.items + items && Post(q, items).exit == q.exit
    decreases |items|
  {
    if items == [] {
      assert q.items + [] == q.items;
    } else {
      PostAppends(Enqueue(q, items[0]).0, items[1..]);
      assert q.items + [items[0]] + items[1..] == q.items + items;
    }
  }

  lemma PostEvents(q: QState<Ptr>, c: nat, events: seq<Event>, d: nat)
    requires events != [] ==> !q.exit
    ensures Post(q, EventsOf(c, events)).exit == q.exit
    ensures About(Post(q, EventsOf(c, events)).items, d)
         == if d == c then About(q.items, d) + EventsOf(c, events) else About(q.items, d)
  {
    var items := EventsOf(c, events);
    PostAppends(q, items);
    AboutAppend(q.items, items, d);
    AboutUniform(items, d);
  }

  // ---------------------------------------------------------------- effects

  /** Handlers put nothing on a queue that has seen an EXIT, and leave the read key alone; what
      they copy is the read buffer. */
  predicate Tame(c: Conn, r: (Conn, Effect), s: Accepts) {
    && Accepted(r.1, s)
    && r.0.readKey == c.readKey && r.0.readBuffer.size == c.readBuffer.size
    && (r.1.copy.Some? ==> r.1.copy.value.size == c.readBuffer.size)
  }

  predicate Accepted(e: Effect, s: Accepts) {
    (e.reader != [] ==> s.reader) && (e.worker != [] ==> s.worker) && (e.writer != [] ==> s.writer)
  }

  lemma CopySize(b: Mem)
    requires b.position <= b.limit
    ensures CopyOf(b).size == b.size
  {
    B.CopyTakesContent(B.NewBuf(b.size), b);
  }

  lemma CallOneTame(c: Conn, event: Event, callback: Callback, s: Accepts)
    ensures Tame(c, CallOne(Called(c, event, callback), event, callback, s), s)
    ensures event != InboundData ==> CallOne(Called(c, event, callback), event, callback, s).1.copy.None?
  {
    hide Vote, Cleared, CopyOf;
    var b := Called(c, event, callback);
    ClearedIs(Flipped(c.readBuffer));
    CopySize(Flipped(c.readBuffer));
    VoteTame(b, Acceptor);
    VoteTame(b, Reader);
    VoteTame(b, Worker);
  }

  lemma VoteTame(c: Conn, o: Owner)
    ensures Vote(c, o).readKey == c.readKey && Vote(c, o).readBuffer == c.readBuffer
  {
  }

  lemma {:induction false} CallAllTame(c: Conn, event: Event, hooks: seq<Hook>, s: Accepts)
    ensures Tame(c, CallAll(c, event, hooks, s), s)
    ensures event != InboundData ==> CallAll(c, event, hooks, s).1.copy.None?
    decreases |hooks|
  {
    hide CallOne;
    if hooks != [] {
      CallOneTame(c, event, hooks[0].callback, s);
      CallAllTame(CallOne(Called(c, event, hooks[0].callback), event, hooks[0].callback, s).0, event, hooks[1..], s);
    }
  }

  lemma EmitTame(c: Conn, event: Event, s: Accepts)
    ensures Tame(c, Emit(c, event, s), s)
    ensures event != InboundData ==> Emit(c, event, s).1.copy.None?
  {
    hide CallAll;
    CallAllTame(c, event, HandlersOf(c, event), s);
  }

  lemma EnterTame(c: Conn, state: State, s: Accepts)
    ensures Tame(c, EnterState(c, state, s), s)
    ensures EnterState(c, state, s).1.copy.None?
  {
    hide Emit;
    forall d: Conn, e: Event
      ensures Tame(d, Emit(d, e, s), s) && (e != InboundData ==> Emit(d, e, s).1.copy.None?)
    {
      EmitTame(d, e, s);
    }
  }

  lemma ManagedTame(c: Conn, o: Owner, s: Accepts)
    ensures Tame(c, ManagedBy(c, o, s), s)
    ensures ManagedBy(c, o, s).1.copy.None?
  {
    hide EnterState;
    EnterTame(c.(managedBy := c.managedBy + {o}), StateConnected, s);
  }

  lemma HandOverTame(c: Conn, progress: nat, s: Accepts)
    ensures Tame(c, HandOver(c, progress, s), s)
    ensures HandOver(c, progress, s).1.copy.None?
  {
    hide ManagedBy;
    ManagedTame(c, Worker, s);
    ManagedTame(c, Writer, s);
  }

  lemma ReadTame(c: Conn, input: Input, s: Accepts)
    requires MayReceive(c, input)
    ensures Tame(c, ReadInput(c, input, s), s)
  {
    hide EnterState, Emit, Received, Cleared;
    EnterTame(c, StateClosed, s);
    if input.Bytes? {
      var b := Received(c.readBuffer, input.bytes);
      ReceivedIs(c.readBuffer, input.bytes);
      ClearedIs(b);
      EmitTame(c.(readBuffer := b, log := c.log.(received := c.log.received + input.bytes)), InboundData, s);
    }
  }

  lemma ReceivedIs(b: Mem, bytes: seq<byte>)
    requires |bytes| <= Room(b)
    ensures Received(b, bytes).size == b.size
  {
  }

  lemma WriteTame(c: Conn, chunk: seq<byte>, took: Option<nat>, s: Accepts)
    requires MaySend(c, chunk, took)
    ensures var (d, e, _) := WriteOutput(c, chunk, took, s); Tame(c, (d, e), s)
    ensures WriteOutput(c, chunk, took, s).1.copy.None?
  {
    hide EnterState, Advanced;
    EnterTame(c, StateClosed, s);
    EnterTame(Refill(c, chunk), StateClosed, s);
  }

  lemma InterestTame(c: Conn, s: Accepts)
    ensures Tame(c, Interest(c, s), s)
    ensures Interest(c, s).1.copy.None?
  {
    hide Emit;
    EmitTame(c, OutboundData, s);
  }

  // ---------------------------------------------------------------- the pool

  ghost predicate Fresh(item: Item, size: nat) {
    item.DataItem? && item.data.Slab? && item.data.mem == NewMem(size)
  }

  /** Every pooled buffer is as good as new. */
  ghost predicate PoolOk(s: Pipe) {
    !s.pool.exit && forall i :: 0 <= i < |s.pool.items| ==> Fresh(s.pool.items[i], s.size)
  }

  lemma AllocatedIs(s: Pipe)
    requires PoolOk(s)
    ensures var (t, id) := Allocated(s);
      && id.Some? && PoolOk(t) && t == s.(pool := t.pool, made := t.made)
      && t.made == s.made + (if PoolModel.Refills(s.pool) then PoolModel.BATCH_SIZE else 0)
      && [DataItem(Slab(id.value, NewMem(s.size)))] + t.pool.items
           == s.pool.items + if PoolModel.Refills(s.pool) then PoolModel.Datas(Batch(s)) else []
  {
    hide PoolModel.Allocate, PoolModel.Refills, NewMem;
    PoolModel.AllocateSucceeds(s.pool, Batch(s));
    var (q, r) := PoolModel.Allocate(s.pool, Batch(s));
    var all := s.pool.items + if PoolModel.Refills(s.pool) then PoolModel.Datas(Batch(s)) else [];
    assert forall i :: 0 <= i < |all| ==> Fresh(all[i], s.size);
    assert [r.value] + q.items == all;
    assert r.value == all[0];
    assert forall i :: 0 <= i < |q.items| ==> q.items[i] == all[i + 1];
  }

  lemma ReleasedIs(q: QState<Ptr>, buffer: Ptr, size: nat)
    requires !q.exit && buffer.Slab? && buffer.mem.size == size
    ensures Released(q, buffer).items == q.items + [DataItem(Slab(buffer.id, NewMem(size)))]
    ensures !Released(q, buffer).exit
  {
    var r := Cleared(buffer.mem);
    assert r.data == B.Zeros(size + 2);
  }

  // ---------------------------------------------------------------- reactions

  /** All that a pipe holds about a descriptor, besides the connection itself. */
  function Lines(s: Pipe, d: nat): (seq<Item>, seq<Item>, seq<Item>, seq<Item>, bool, bool) {
    (About(s.acceptor.items, d), About(s.reader.items, d), About(s.worker.items, d), About(s.writer.items, d),
     s.serving.Some? && Names(s.serving.value, d), s.resend == Some(d))
  }

  /** Nothing changes for any connection but `c`. */
  ghost predicate Elsewhere(s: Pipe, t: Pipe, c: nat) {
    && t.size == s.size && Open(t) == Open(s) && t.members.Keys == s.members.Keys
    && (forall d :: d != c ==> Lines(t, d) == Lines(s, d))
    && (forall d :: d != c && d in s.members ==> t.members[d] == s.members[d])
  }

  function HandedId(s: Pipe, copy: Option<Mem>): nat {
    var (t, id) := Allocated(s);
    if copy.Some? && id.Some? then id.value else 0
  }

  lemma HandedIs(s: Pipe, c: nat, copy: Option<Mem>, d: nat)
    requires PoolOk(s) && (copy.Some? ==> copy.value.size == s.size)
    ensures var t := Handed(s, c, copy);
      && PoolOk(t) && t == s.(pool := t.pool, made := t.made, worker := t.worker) && t.worker.exit == s.worker.exit
      && About(t.worker.items, d) ==
         if d == c then About(s.worker.items, d) + Tasks(c, copy, HandedId(s, copy), Open(s)) else About(s.worker.items, d)
  {
    hide Allocated, Released;
    if copy.Some? {
      AllocatedIs(s);
      var (t, id) := Allocated(s);
      var task := TaskItem(Read, Link(c), Slab(id.value, copy.value));
      AboutAppend(s.worker.items, [task], d);
      AboutUniform([task], d);
      ReleasedIs(t.pool, Slab(id.value, copy.value), s.size);
    }
  }

  lemma SpreadElsewhere(s: Pipe, c: nat, r: (Conn, Effect), d: nat)
    requires c in s.members && PoolOk(s) && Accepted(r.1, Open(s)) && d != c
    requires r.1.copy.Some? ==> r.1.copy.value.size == s.size
    ensures Lines(Spread(s, c, r), d) == Lines(s, d)
  {
    hide Handed, Post, About, Without, HandedId, Tasks;
    HandedIs(s, c, r.1.copy, d);
    PostEvents(s.reader, c, r.1.reader, d);
    PostEvents(Handed(s, c, r.1.copy).worker, c, r.1.worker, d);
    PostEvents(s.writer, c, r.1.writer, d);
    AboutOther(s.acceptor.items, IsData(c), c, d);
  }

  /** A reaction of a connection like `b` is carried out for its own connection and for no other. */
  lemma SpreadIs(s: Pipe, c: nat, b: Conn, r: (Conn, Effect))
    requires c in s.members && PoolOk(s) && Tame(b, r, Open(s)) && b.readBuffer.size == s.size
    ensures var t := Spread(s, c, r);
      && PoolOk(t) && Elsewhere(s, t, c)
      && View(t, c) == Carry(View(s, c).(load := if b.readKey then 1 else 0), r, HandedId(s, r.1.copy))
  {
    hide Handed, Post, About, Without, HandedId, Tasks, Lines;
    forall d | d != c
      ensures Lines(Spread(s, c, r), d) == Lines(s, d)
    {
      SpreadElsewhere(s, c, r, d);
    }
    HandedIs(s, c, r.1.copy, c);
    PostEvents(s.reader, c, r.1.reader, c);
    PostEvents(Handed(s, c, r.1.copy).worker, c, r.1.worker, c);
    PostEvents(s.writer, c, r.1.writer, c);
    AboutWithout(s.acceptor.items, IsData(c), c);
  }
}
