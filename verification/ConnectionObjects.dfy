/** The connection of src/connection.c as an object: the flag arrays and the fields that its
    functions change in place, each proved against the value functions of Connections.dfy. */
module ConnectionObjects {
  import opened EventModel
  import opened QueueModel
  import opened Connections
  import B = BufferModel

  const OWNER_MAX: nat := 5

  /** The value of the enumeration constant. */
  function Index(o: Owner): (i: nat)
    ensures i < OWNER_MAX
  {
    match o
    case Reader => 0 case Worker => 1 case Writer => 2 case Acceptor => 3 case Client => 4
  }

  function OwnerAt(i: nat): (o: Owner)
    requires i < OWNER_MAX
    ensures Index(o) == i
  {
    match i
    case 0 => Reader case 1 => Worker case 2 => Writer case 3 => Acceptor case _ => Client
  }

  /** The owners whose flag is set. */
  ghost function Owners(flags: seq<bool>): set<Owner>
    requires |flags| == OWNER_MAX
  {
    set o: Owner | flags[Index(o)]
  }

  lemma OwnersSet(flags: seq<bool>, o: Owner)
    requires |flags| == OWNER_MAX
    ensures Owners(flags[Index(o) := true]) == Owners(flags) + {o}
  {
    forall x: Owner
      ensures x in Owners(flags[Index(o) := true]) <==> x in Owners(flags) + {o}
    {
      assert OwnerAt(Index(x)) == x && OwnerAt(Index(o)) == o;
    }
  }

  lemma OwnersAll(flags: seq<bool>)
    requires |flags| == OWNER_MAX
    ensures Owners(flags) == EVERYONE <==> forall i :: 0 <= i < OWNER_MAX ==> flags[i]
    ensures (forall i :: 0 <= i < OWNER_MAX ==> !flags[i]) ==> Owners(flags) == {}
  {
    if Owners(flags) == EVERYONE {
      forall i | 0 <= i < OWNER_MAX
        ensures flags[i]
      {
        var o := OwnerAt(i);
        assert o in EVERYONE by {
          match o case Reader => case Worker => case Writer => case Acceptor => case Client =>
        }
        assert flags[Index(o)];
      }
    }
  }

  class Connection {
    var state: State
    var canRead: bool
    var canWrite: bool
    const closedBy: array<bool>
    const managedBy: array<bool>
    var handlers: map<Event, seq<Hook>>
    var readBuffer: Mem
    var writeBuffer: Mem
    var readKey: bool
    ghost var log: Log

    ghost predicate Valid()
      reads this
    {
      closedBy.Length == OWNER_MAX && managedBy.Length == OWNER_MAX && closedBy != managedBy
    }

    ghost function View(): Conn
      requires Valid()
      reads this, closedBy, managedBy
    {
      Conn(state, canRead, canWrite, Owners(closedBy[..]), Owners(managedBy[..]), handlers, readBuffer, writeBuffer, readKey, log)
    }

    /** ConnectionNoMoreUsed: true for the owner whose vote completes the set, which then starts
        over. */
    method NoMoreUsed(owner: Owner) returns (result: bool)
      requires Valid()
      modifies this`log, closedBy
      ensures Valid() && View() == Vote(old(View()), owner)
      ensures result <==> |log.frees| > |old(log.frees)|
    {
      hide Owners;
      closedBy[Index(owner)] := true;
      assert closedBy[..] == old(closedBy[..])[Index(owner) := true];
      OwnersSet(old(closedBy[..]), owner);
      OwnersAll(closedBy[..]);
      result := true;
      var i := 0;
      while i < OWNER_MAX && result
        invariant 0 <= i <= OWNER_MAX
        invariant result <==> forall j :: 0 <= j < i ==> closedBy[j]
      {
        result := result && closedBy[i];
        i := i + 1;
      }
      assert result <==> forall j :: 0 <= j < OWNER_MAX ==> closedBy[..][j];
      if result {
        forall j | 0 <= j < OWNER_MAX {
          closedBy[j] := false;
        }
        assert forall j :: 0 <= j < OWNER_MAX ==> !closedBy[..][j];
        OwnersAll(closedBy[..]);
      }
      assert managedBy[..] == old(managedBy[..]);
      log := Vote(old(View()), owner).log;
    }

    /** A handler is called. */
    method Call(event: Event, callback: Callback, accepts: Accepts) returns (e: Effect)
      requires Valid()
      modifies this`log, this`readBuffer, closedBy
      ensures Valid() && (View(), e) == CallOne(old(View()), event, callback, accepts)
    {
      e := NOTHING;
      match callback
      case AcceptorClose =>
        if event == Close {
          e := NOTHING.(purged := true);
          var free := NoMoreUsed(Acceptor);
        }
      case ReaderEvent =>
        if accepts.reader {
          e := NOTHING.(reader := [event]);
        } else {
          var free := NoMoreUsed(Reader);
        }
      case WorkerRead =>
        if event == InboundData && state != StateClosed {
          var input := Flipped(readBuffer);
          e := NOTHING.(copy := Some(CopyOf(input)));
          readBuffer := Cleared(input);
          log := log.(dropped := log.dropped || !accepts.worker);
        }
      case WorkerClose =>
        if accepts.worker {
          e := NOTHING.(worker := [event]);
        } else {
          var free := NoMoreUsed(Worker);
        }
      case WriterEvent =>
        if accepts.writer {
          e := NOTHING.(writer := [event]);
        }
    }

    /** One round of EventHandle's loop. */
    method CallNext(event: Event, callback: Callback, accepts: Accepts) returns (e: Effect)
      requires Valid()
      modifies this`log, this`readBuffer, closedBy
      ensures Valid() && (View(), e) == CallOne(Called(old(View()), event, callback), event, callback, accepts)
    {
      hide CallOne, Owners;
      log := Called(View(), event, callback).log;
      e := Call(event, callback, accepts);
    }

    /** EventHandle on the system handlers: each is called once, in order, and the once-only ones
        are gone afterwards. */
    method Dispatch(event: Event, accepts: Accepts) returns (e: Effect)
      requires Valid()
      modifies this`log, this`readBuffer, this`handlers, closedBy
      ensures Valid() && (View(), e) == Emit(old(View()), event, accepts)
    {
      hide CallOne, CallAll, Owners, Calling;
      ghost var start := View();
      var hooks := if event in handlers then handlers[event] else [];
      e := NOTHING;
      var i := 0;
      CallingStarts(start, event, hooks, accepts);
      while i < |hooks|
        invariant 0 <= i <= |hooks| && Valid() && handlers == old(handlers)
        invariant Calling(start, View(), e, event, hooks[i..], hooks, accepts)
      {
        CallingStep(start, View(), e, event, hooks[i..], hooks, accepts);
        assert hooks[i..][1..] == hooks[i + 1..];
        var e1 := CallNext(event, hooks[i].callback, accepts);
        e := Both(e, e1);
        i := i + 1;
      }
      CallingEnds(start, View(), e, event, hooks[i..], hooks, accepts);
      handlers := handlers[event := Lasting(hooks)];
    }

    /** _ConnectionState. */
    method SetState(to: State, accepts: Accepts) returns (e: Effect)
      requires Valid()
      modifies this, closedBy
      ensures Valid() && (View(), e) == EnterState(old(View()), to, accepts)
      ensures unchanged(managedBy)
      ensures old(state) == to ==> unchanged(this) && unchanged(closedBy)
    {
      hide Owners, Emit;
      if state == to {
        return NOTHING;
      }
      log := Entered(log, state, to);
      state := to;
      match to
      case StateNone => e := NOTHING;
      case StateInitialized => e := Dispatch(Init, accepts);
      case StateConnecting =>
        canRead, canWrite := false, false;
        e := Dispatch(Connecting, accepts);
      case StateConnected =>
        canRead, canWrite := true, true;
        e := Dispatch(Connected, accepts);
      case StatePendingClose =>
        canRead, canWrite := false, true;
        e := Dispatch(PendingClose, accepts);
      case StateClosed =>
        canRead, canWrite := false, false;
        e := Dispatch(Close, accepts);
    }

    /** ConnectionClose. */
    method CloseBy(force: bool, accepts: Accepts) returns (e: Effect)
      requires Valid()
      modifies this, closedBy
      ensures Valid() && (View(), e) == CloseConnection(old(View()), force, accepts)
    {
      hide Owners, EnterState;
      e := SetState(if force then StateClosed else StatePendingClose, accepts);
    }

    /** ConnectionManagedBy. */
    method SetManagedBy(owner: Owner, accepts: Accepts) returns (e: Effect)
      requires Valid()
      modifies this, closedBy, managedBy
      ensures Valid() && (View(), e) == ManagedBy(old(View()), owner, accepts)
    {
      hide Owners, EnterState;
      managedBy[Index(owner)] := true;
      assert managedBy[..] == old(managedBy[..])[Index(owner) := true];
      OwnersSet(old(managedBy[..]), owner);
      OwnersAll(managedBy[..]);
      var managedByAll := true;
      var i := 0;
      while i < OWNER_MAX
        invariant 0 <= i <= OWNER_MAX
        invariant managedByAll <==> forall j :: 0 <= j < i ==> managedBy[j]
      {
        managedByAll := managedByAll && managedBy[i];
        i := i + 1;
      }
      e := NOTHING;
      if managedByAll {
        e := SetState(StateConnected, accepts);
      }
    }

    /** ConnectionRead, with the result of `recv`. */
    method ReadFrom(input: Input, accepts: Accepts) returns (e: Effect)
      requires Valid() && (B.HasRemaining(readBuffer) ==> MayReceive(View(), input))
      modifies this, closedBy
      ensures Valid() && (View(), e) == ReadInput(old(View()), input, accepts)
    {
      hide Owners, EnterState, Emit;
      if !B.HasRemaining(readBuffer) {
        e := CloseBy(true, accepts);
        return;
      }
      match input
      case ReadError => e := CloseBy(true, accepts);
      case EndOfStream =>
        if state == StatePendingClose {
          e := SetState(StateClosed, accepts);
        } else {
          e := CloseBy(true, accepts);
        }
      case Bytes(bytes) =>
        var buffer := Received(readBuffer, bytes);
        if !canRead {
          readBuffer := Cleared(buffer);
          e := NOTHING;
        } else {
          readBuffer := buffer;
          log := log.(received := log.received + bytes);
          e := Dispatch(InboundData, accepts);
        }
    }

    /** The dispatch of WRITE, where the user's handler puts `chunk`. */
    method AskForOutput(chunk: seq<byte>)
      requires Valid()
      modifies this`writeBuffer, this`log
      ensures Valid() && View() == Refill(old(View()), chunk)
    {
      hide Owners;
      if !B.HasRemaining(writeBuffer) {
        var cleared := Cleared(writeBuffer);
        log := log.(writes := log.writes + 1, put := log.put + if |chunk| <= cleared.limit then chunk else []);
        writeBuffer := Flipped(Filled(cleared, chunk));
      }
    }

    /** ConnectionWrite, with the result of `send`. */
    method WriteTo(chunk: seq<byte>, took: Option<nat>, accepts: Accepts) returns (e: Effect, again: bool)
      requires Valid() && MaySend(View(), chunk, took)
      modifies this, closedBy
      ensures Valid() && (View(), e, again) == WriteOutput(old(View()), chunk, took, accepts)
    {
      hide Owners, EnterState, Refill;
      again := false;
      if !canWrite {
        e := CloseBy(true, accepts);
        return;
      }
      var pendingCloseMemorized := state == StatePendingClose;
      AskForOutput(chunk);
      if writeBuffer.limit - writeBuffer.position < 0 || took.None? {
        e := CloseBy(true, accepts);
        return;
      }
      var before := writeBuffer;
      writeBuffer := Advanced(writeBuffer, took.value);
      log := log.(sent := log.sent + before.data[before.position..writeBuffer.position]);
      e := NOTHING;
      again := B.HasRemaining(writeBuffer);
      if !again && pendingCloseMemorized {
        log := log.(shutdowns := log.shutdowns + 1);
      }
    }

    /** EnableWriteInterest. */
    method WantToWrite(accepts: Accepts) returns (e: Effect)
      requires Valid()
      modifies this, closedBy
      ensures Valid() && (View(), e) == Interest(old(View()), accepts)
    {
      hide Owners, Emit;
      if !canWrite {
        return NOTHING;
      }
      e := Dispatch(OutboundData, accepts);
      log := log.(interests := log.interests + |e.writer|);
    }
  }

  lemma BothTwice(a: Effect, b: Effect, c: Effect)
    ensures Both(Both(a, b), c) == Both(a, Both(b, c))
  {
    assert (a.reader + b.reader) + c.reader == a.reader + (b.reader + c.reader);
    assert (a.worker + b.worker) + c.worker == a.worker + (b.worker + c.worker);
    assert (a.writer + b.writer) + c.writer == a.writer + (b.writer + c.writer);
  }

  /** A dispatch that has come to `now` with effect `e`, and has `rest` before it. */
  ghost predicate Calling(start: Conn, now: Conn, e: Effect, event: Event, rest: seq<Hook>, hooks: seq<Hook>, accepts: Accepts) {
    var (c, later) := CallAll(now, event, rest, accepts);
    CallAll(start, event, hooks, accepts) == (c, Both(e, later))
  }

  lemma CallingStarts(start: Conn, event: Event, hooks: seq<Hook>, accepts: Accepts)
    ensures Calling(start, start, NOTHING, event, hooks[0..], hooks, accepts)
  {
    hide CallAll;
    assert hooks[0..] == hooks;
    BothNothing(CallAll(start, event, hooks, accepts).1);
  }

  lemma CallingStep(start: Conn, now: Conn, e: Effect, event: Event, rest: seq<Hook>, hooks: seq<Hook>, accepts: Accepts)
    requires Calling(start, now, e, event, rest, hooks, accepts) && rest != []
    ensures var (c1, e1) := CallOne(Called(now, event, rest[0].callback), event, rest[0].callback, accepts);
      Calling(start, c1, Both(e, e1), event, rest[1..], hooks, accepts)
  {
    hide CallOne, Both;
    var (c1, e1) := CallOne(Called(now, event, rest[0].callback), event, rest[0].callback, accepts);
    BothTwice(e, e1, CallAll(c1, event, rest[1..], accepts).1);
  }

  lemma CallingEnds(start: Conn, now: Conn, e: Effect, event: Event, rest: seq<Hook>, hooks: seq<Hook>, accepts: Accepts)
    requires Calling(start, now, e, event, rest, hooks, accepts)
    ensures rest == [] ==> CallAll(start, event, hooks, accepts) == (now, e)
  {
    BothNothing(e);
  }
}
