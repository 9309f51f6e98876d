/** The connection of src/connection.c as a value, with the handlers that the acceptor, the reader,
    the worker and the writer install on it. Each function is one atomic step of the source: it
    gives the new connection and what the handlers it called put on the queues of the pipe. */
module Connections {
  import opened EventModel
  import opened QueueModel
  import B = BufferModel

  type byte = B.byte

  /** A buffer that can occur: both marks within the capacity, zeros past it. */
  type Mem = b: B.Buf | B.Sound(b) witness B.Buf(0, [0, 0], 0, 0)

  /** ConnectionOwner. */
  datatype Owner = Reader | Worker | Writer | Acceptor | Client

  const EVERYONE: set<Owner> := {Reader, Worker, Writer, Acceptor, Client}

  datatype State =
    StateNone | StateInitialized | StateConnecting | StateConnected | StatePendingClose | StateClosed

  /** The system handlers: _AcceptorCloseHandler, _ReaderEventHandler, _WorkerReadHandler,
      _WorkerCloseHandler and _WriterEventHandler. */
  datatype Callback = AcceptorClose | ReaderEvent | WorkerRead | WorkerClose | WriterEvent

  type Hook = Handler<Callback, ()>

  function Once(event: Event, callback: Callback): Hook {
    Handler(event, true, callback, ())
  }

  function Always(event: Event, callback: Callback): Hook {
    Handler(event, false, callback, ())
  }

  /** What was observed of a connection; no field of the source. */
  datatype Log = Log(
    connects: nat,                  // how often CONNECTED was entered
    closed: bool,                   // CLOSED was entered
    rash: bool,                     // CLOSED was entered before CONNECTED
    reopened: bool,                 // PENDING_CLOSE was entered after CLOSED
    called: set<(Event, Callback)>, // the handlers that were called
    votes: seq<Owner>,              // the calls of ConnectionNoMoreUsed
    frees: seq<Owner>,              // those that returned true
    interests: nat,                 // write interests that reached the writer's queue
    writes: nat,                    // dispatches of WRITE
    put: seq<byte>,                 // what the WRITE handler put
    sent: seq<byte>,                // what `send` took
    shutdowns: nat,                 // the calls of ConnectionShutdown
    received: seq<byte>,            // what `recv` gave while reading was allowed
    delivered: seq<byte>,           // what the READ handler was given
    dropped: bool)                  // received data was given up before delivery

  datatype Conn = Conn(
    state: State,
    canRead: bool,
    canWrite: bool,
    closedBy: set<Owner>,
    managedBy: set<Owner>,
    handlers: map<Event, seq<Hook>>,
    readBuffer: Mem,
    writeBuffer: Mem,
    readKey: bool,
    log: Log)

  /** Which queues have not seen an EXIT. */
  datatype Accepts = Accepts(reader: bool, worker: bool, writer: bool)

  /** What handlers do outside the connection: whether the acceptor's queue is purged, the events
      that go to each queue, and the copied input that goes into a task. */
  datatype Effect = Effect(purged: bool, reader: seq<Event>, worker: seq<Event>, copy: Option<Mem>, writer: seq<Event>)

  const NOTHING := Effect(false, [], [], None, [])

  function Both(a: Effect, b: Effect): Effect {
    Effect(a.purged || b.purged, a.reader + b.reader, a.worker + b.worker,
           if b.copy.Some? then b.copy else a.copy, a.writer + b.writer)
  }

  // ---------------------------------------------------------------- buffers

  function NewMem(size: nat): Mem {
    B.NewBuf(size)
  }

  function Flipped(b: Mem): Mem {
    B.Flip(b)
  }

  function Cleared(b: Mem): Mem {
    B.OpsKeepSound(b, B.DoReset);
    B.Reset(b)
  }

  /** BufferPut of what a WRITE handler has to say. */
  function Filled(b: Mem, chunk: seq<byte>): Mem {
    B.OpsKeepSound(b, B.DoPut(chunk));
    B.Put(b, chunk).0
  }

  /** The copy that _WorkerReadHandler makes of the flipped read buffer, in a pool buffer of the
      same size. */
  function CopyOf(b: Mem): Mem
    requires b.position <= b.limit
  {
    B.CopyTakesContent(B.NewBuf(b.size), b);
    B.OpsKeepSound(B.NewBuf(b.size), B.DoCopy(b));
    B.Copy(B.NewBuf(b.size), b)
  }

  function Room(b: Mem): nat {
    if B.HasRemaining(b) then b.limit - b.position else 0
  }

  /** `recv` into the buffer, then BufferPosition. */
  function Received(b: Mem, bytes: seq<byte>): Mem
    requires |bytes| <= Room(b)
  {
    B.OpsKeepSound(b, B.DoPut(bytes));
    B.Put(b, bytes).0
  }

  /** BufferPosition after a `send` of `n` bytes. */
  function Advanced(b: Mem, n: nat): Mem
    requires n <= Room(b)
  {
    B.SetPosition(b, b.position + n).0
  }

  // ---------------------------------------------------------------- handlers

  /** ConnectionNoMoreUsed; a result true is recorded in `frees`. */
  function Vote(c: Conn, owner: Owner): Conn {
    var marks := c.closedBy + {owner};
    var all := marks == EVERYONE;
    c.(closedBy := if all then {} else marks,
       log := c.log.(votes := c.log.votes + [owner], frees := c.log.frees + if all then [owner] else []))
  }

  function HandlersOf(c: Conn, event: Event): seq<Hook> {
    if event in c.handlers then c.handlers[event] else []
  }

  /** ConnectionAddSystemHandler. */
  function AddHandler(c: Conn, h: Hook): Conn {
    c.(handlers := c.handlers[h.event := HandlersOf(c, h.event) + [h]])
  }

  function Called(c: Conn, event: Event, callback: Callback): Conn {
    c.(log := c.log.(called := c.log.called + {(event, callback)}))
  }

  /** The bodies of the five handlers. A queue that refuses makes the reader's and the worker's
      handler vote at once; the writer's loses the event. */
  function CallOne(c: Conn, event: Event, callback: Callback, accepts: Accepts): (Conn, Effect) {
    match callback
    case AcceptorClose =>
      if event != Close then (c, NOTHING) else (Vote(c, Acceptor), NOTHING.(purged := true))
    case ReaderEvent =>
      if accepts.reader then (c, NOTHING.(reader := [event])) else (Vote(c, Reader), NOTHING)
    case WorkerRead =>
      if event != InboundData || c.state == StateClosed then (c, NOTHING)
      else
        var input := Flipped(c.readBuffer);
        (c.(readBuffer := Cleared(input), log := c.log.(dropped := c.log.dropped || !accepts.worker)),
         NOTHING.(copy := Some(CopyOf(input))))
    case WorkerClose =>
      if accepts.worker then (c, NOTHING.(worker := [event])) else (Vote(c, Worker), NOTHING)
    case WriterEvent =>
      (c, if accepts.writer then NOTHING.(writer := [event]) else NOTHING)
  }

  function CallAll(c: Conn, event: Event, hooks: seq<Hook>, accepts: Accepts): (Conn, Effect)
    decreases |hooks|
  {
    if hooks == [] then (c, NOTHING)
    else
      var (c1, e1) := CallOne(Called(c, event, hooks[0].callback), event, hooks[0].callback, accepts);
      var (c2, e2) := CallAll(c1, event, hooks[1..], accepts);
      (c2, Both(e1, e2))
  }

  /** EventHandle on the system handlers; the user's handlers are steps of their own. */
  function Emit(c: Conn, event: Event, accepts: Accepts): (Conn, Effect) {
    var hooks := HandlersOf(c, event);
    var (d, e) := CallAll(c, event, hooks, accepts);
    (d.(handlers := d.handlers[event := Lasting(hooks)]), e)
  }

  // ---------------------------------------------------------------- operations

  function Entered(l: Log, from: State, to: State): Log {
    match to
    case StateConnected => l.(connects := l.connects + 1)
    case StatePendingClose => l.(reopened := l.reopened || from == StateClosed)
    case StateClosed => l.(closed := true, rash := l.rash || l.connects == 0)
    case _ => l
  }

  /** _ConnectionState. */
  function EnterState(c: Conn, state: State, accepts: Accepts): (Conn, Effect) {
    if c.state == state then (c, NOTHING)
    else
      var d := c.(state := state, log := Entered(c.log, c.state, state));
      match state
      case StateNone => (d, NOTHING)
      case StateInitialized => Emit(d, Init, accepts)
      case StateConnecting => Emit(d.(canRead := false, canWrite := false), Connecting, accepts)
      case StateConnected => Emit(d.(canRead := true, canWrite := true), Connected, accepts)
      case StatePendingClose => Emit(d.(canRead := false, canWrite := true), PendingClose, accepts)
      case StateClosed => Emit(d.(canRead := false, canWrite := false), Close, accepts)
  }

  /** ConnectionClose, also what _ConnectionHandleError comes down to. */
  function CloseConnection(c: Conn, force: bool, accepts: Accepts): (Conn, Effect) {
    EnterState(c, if force then StateClosed else StatePendingClose, accepts)
  }

  /** ConnectionManagedBy. */
  function ManagedBy(c: Conn, owner: Owner, accepts: Accepts): (Conn, Effect) {
    var d := c.(managedBy := c.managedBy + {owner});
    if d.managedBy == EVERYONE then EnterState(d, StateConnected, accepts) else (d, NOTHING)
  }

  /** The result of `recv`. */
  datatype Input = ReadError | EndOfStream | Bytes(bytes: seq<byte>)

  /** What `recv` may return for a buffer with that much room. */
  predicate MayReceive(c: Conn, input: Input) {
    input.Bytes? ==> 0 < |input.bytes| <= Room(c.readBuffer)
  }

  /** ConnectionRead. */
  function ReadInput(c: Conn, input: Input, accepts: Accepts): (Conn, Effect)
    requires B.HasRemaining(c.readBuffer) ==> MayReceive(c, input)
  {
    if !B.HasRemaining(c.readBuffer) then CloseConnection(c, true, accepts)
    else
      match input
      case ReadError => CloseConnection(c, true, accepts)
      case EndOfStream =>
        if c.state == StatePendingClose then EnterState(c, StateClosed, accepts)
        else CloseConnection(c, true, accepts)
      case Bytes(bytes) =>
        var buffer := Received(c.readBuffer, bytes);
        if !c.canRead then (c.(readBuffer := Cleared(buffer)), NOTHING)
        else
          Emit(c.(readBuffer := buffer, log := c.log.(received := c.log.received + bytes)), InboundData, accepts)
  }

  /** The dispatch of WRITE inside ConnectionWrite, when nothing is left to send; `chunk` is what
      the user's handler puts. No system handler is ever installed on WRITE or READ. */
  function Refill(c: Conn, chunk: seq<byte>): Conn {
    if B.HasRemaining(c.writeBuffer) then c
    else
      var cleared := Cleared(c.writeBuffer);
      c.(writeBuffer := Flipped(Filled(cleared, chunk)),
         log := c.log.(writes := c.log.writes + 1,
                       put := c.log.put + if |chunk| <= cleared.limit then chunk else []))
  }

  /** What `send` may return for what is to be sent then; None is an error. */
  predicate MaySend(c: Conn, chunk: seq<byte>, sent: Option<nat>) {
    sent.Some? ==> sent.value <= Room(Refill(c, chunk).writeBuffer)
  }

  /** ConnectionWrite; the Boolean is its result. */
  function WriteOutput(c: Conn, chunk: seq<byte>, sent: Option<nat>, accepts: Accepts): (Conn, Effect, bool)
    requires MaySend(c, chunk, sent)
  {
    if !c.canWrite then
      var (d, e) := CloseConnection(c, true, accepts);
      (d, e, false)
    else
      var c1 := Refill(c, chunk);
      var buffer := c1.writeBuffer;
      if buffer.limit - buffer.position < 0 || sent.None? then
        var (d, e) := CloseConnection(c1, true, accepts);
        (d, e, false)
      else
        var buffer' := Advanced(buffer, sent.value);
        var again := B.HasRemaining(buffer');
        (c1.(writeBuffer := buffer',
             log := c1.log.(sent := c1.log.sent + buffer.data[buffer.position..buffer'.position],
                            shutdowns := c1.log.shutdowns + if !again && c.state == StatePendingClose then 1 else 0)),
         NOTHING, again)
  }

  /** EnableWriteInterest. */
  function Interest(c: Conn, accepts: Accepts): (Conn, Effect) {
    if !c.canWrite then (c, NOTHING)
    else
      var (d, e) := Emit(c, OutboundData, accepts);
      (d.(log := d.log.(interests := d.log.interests + |e.writer|)), e)
  }

  /** ConnectionFactoryCreate, and the transition to INITIALIZED that follows it in the acceptor.
      The factory carries the acceptor's CLOSE handler. */
  function NewConnection(size: nat): Conn {
    var b := NewMem(size);
    var c := Conn(StateNone, false, false, {Client}, {Acceptor, Client}, map[Close := [Once(Close, AcceptorClose)]],
                  b, B.SetLimit(b, 0).0, false,
                  Log(0, false, false, false, {}, [], [], 0, 0, [], [], 0, [], [], false));
    EnterState(c, StateInitialized, Accepts(true, true, true)).0
  }

  // ---------------------------------------------------------------- what the handlers do

  /** Who votes when a handler is called: the acceptor on CLOSE, the reader and the worker if their queue
      refuses the event, the writer never. */
  function AtOnce(event: Event, callback: Callback, accepts: Accepts): seq<Owner> {
    if callback == AcceptorClose && event == Close then [Acceptor]
    else if callback == ReaderEvent && !accepts.reader then [Reader]
    else if callback == WorkerClose && !accepts.worker then [Worker] else []
  }

  /** What a call of a handler comes to: the queues get exactly the event that was dispatched, each from its
      own handler and only if it accepts it; only CLOSE purges the acceptor's queue; input is copied, up to
      the read position, only on INBOUND_DATA and not from a CLOSED connection, and the read buffer is
      empty again then; and nothing else of the connection changes but for the votes. */
  ghost predicate Acts(c: Conn, event: Event, callback: Callback, accepts: Accepts, d: Conn, e: Effect) {
    var read := c.readBuffer;
    && e.reader == (if callback == ReaderEvent && accepts.reader then [event] else [])
    && e.worker == (if callback == WorkerClose && accepts.worker then [event] else [])
    && e.writer == (if callback == WriterEvent && accepts.writer then [event] else [])
    && (e.purged <==> callback == AcceptorClose && event == Close)
    && (e.copy.Some? <==> callback == WorkerRead && event == InboundData && c.state != StateClosed)
    && (e.copy.Some? ==> B.Content(e.copy.value) == read.data[..read.position]
                         && d.readBuffer.position == 0 && d.readBuffer.limit == read.size == d.readBuffer.size)
    && (e.copy.None? ==> d.readBuffer == read && d.log.dropped == c.log.dropped)
    && d.log.votes == c.log.votes + AtOnce(event, callback, accepts)
    && (AtOnce(event, callback, accepts) == [] ==> d.closedBy == c.closedBy && d.log.frees == c.log.frees)
    && d == c.(readBuffer := d.readBuffer, closedBy := d.closedBy,
               log := c.log.(votes := d.log.votes, frees := d.log.frees, dropped := d.log.dropped))
  }

  /** Whatever the state, the event and the queues. */
  lemma HandlersAct(c: Conn, event: Event, callback: Callback, accepts: Accepts)
    ensures var (d, e) := CallOne(c, event, callback, accepts); Acts(c, event, callback, accepts, d, e)
  {
    hide CallOne, Acts;
    match callback
    case AcceptorClose => PurgeActs(c, event, accepts);
    case ReaderEvent => ReaderActs(c, event, accepts);
    case WorkerRead => ReadActs(c, event, accepts);
    case WorkerClose => WorkerActs(c, event, accepts);
    case WriterEvent => WriterActs(c, event, accepts);
  }

  lemma ReadActs(c: Conn, event: Event, accepts: Accepts)
    ensures var (d, e) := CallOne(c, event, WorkerRead, accepts); Acts(c, event, WorkerRead, accepts, d, e)
  {
    hide B.Content, CopyOf, Cleared, Flipped, B.Sound;
    InputIsCopied(c.readBuffer);
    assert c.log.votes + [] == c.log.votes;
  }

  lemma PurgeActs(c: Conn, event: Event, accepts: Accepts)
    ensures var (d, e) := CallOne(c, event, AcceptorClose, accepts); Acts(c, event, AcceptorClose, accepts, d, e)
  {
    hide B.Content, B.Sound, Vote;
    VotesOnly(c, Acceptor);
    assert c.log.votes + [] == c.log.votes;
  }

  lemma ReaderActs(c: Conn, event: Event, accepts: Accepts)
    ensures var (d, e) := CallOne(c, event, ReaderEvent, accepts); Acts(c, event, ReaderEvent, accepts, d, e)
  {
    hide B.Content, B.Sound, Vote;
    VotesOnly(c, Reader);
    assert c.log.votes + [] == c.log.votes;
  }

  lemma WorkerActs(c: Conn, event: Event, accepts: Accepts)
    ensures var (d, e) := CallOne(c, event, WorkerClose, accepts); Acts(c, event, WorkerClose, accepts, d, e)
  {
    hide B.Content, B.Sound, Vote;
    VotesOnly(c, Worker);
    assert c.log.votes + [] == c.log.votes;
  }

  lemma WriterActs(c: Conn, event: Event, accepts: Accepts)
    ensures var (d, e) := CallOne(c, event, WriterEvent, accepts); Acts(c, event, WriterEvent, accepts, d, e)
  {
    hide B.Content, B.Sound, Vote;
    assert c.log.votes + [] == c.log.votes;
  }

  lemma VotesOnly(c: Conn, owner: Owner)
    ensures var d := Vote(c, owner);
      && d.log.votes == c.log.votes + [owner]
      && d == c.(closedBy := d.closedBy, log := c.log.(votes := d.log.votes, frees := d.log.frees))
  {
  }

  lemma InputIsCopied(b: Mem)
    ensures B.Content(CopyOf(Flipped(b))) == b.data[..b.position]
    ensures var r := Cleared(Flipped(b)); r.position == 0 && r.limit == b.size == r.size
  {
    B.CopyTakesContent(B.NewBuf(b.size), Flipped(b));
  }

  // ---------------------------------------------------------------- what entering a state does

  /** The event that tells of a state. */
  predicate TellsOf(event: Event, state: State) {
    || (event == Init && state == StateInitialized) || (event == Connecting && state == StateConnecting)
    || (event == Connected && state == StateConnected) || (event == PendingClose && state == StatePendingClose)
    || (event == Close && state == StateClosed)
  }

  predicate HasCallback(hooks: seq<Hook>, callback: Callback) {
    exists i :: 0 <= i < |hooks| && hooks[i].callback == callback
  }

  lemma HasCallbackMore(hooks: seq<Hook>, callback: Callback)
    requires hooks != []
    ensures HasCallback(hooks, callback) <==> hooks[0].callback == callback || HasCallback(hooks[1..], callback)
  {
    assert forall i :: 0 < i < |hooks| ==> hooks[i] == hooks[1..][i - 1];
  }

  lemma NoCallback()
    ensures forall f :: !HasCallback([], f)
  {
  }

  lemma {:induction false} CallAllCalls(c: Conn, event: Event, hooks: seq<Hook>, accepts: Accepts)
    ensures var d := CallAll(c, event, hooks, accepts).0;
      && (forall e, f :: (e, f) in d.log.called <==>
            (e, f) in c.log.called || (e == event && HasCallback(hooks, f)))
      && d.handlers == c.handlers && d.state == c.state && d.canRead == c.canRead && d.canWrite == c.canWrite
    decreases |hooks|
  {
    hide CallOne, HasCallback;
    NoCallback();
    if hooks != [] {
      var d := CallOne(Called(c, event, hooks[0].callback), event, hooks[0].callback, accepts).0;
      CallOneKeeps(c, event, hooks[0].callback, accepts);
      CallOneStands(Called(c, event, hooks[0].callback), event, hooks[0].callback, accepts);
      CallAllCalls(d, event, hooks[1..], accepts);
      forall f
        ensures HasCallback(hooks, f) <==> hooks[0].callback == f || HasCallback(hooks[1..], f)
      {
        HasCallbackMore(hooks, f);
      }
    }
  }

  lemma CallOneStands(c: Conn, event: Event, callback: Callback, accepts: Accepts)
    ensures var d := CallOne(c, event, callback, accepts).0;
      d.state == c.state && d.canRead == c.canRead && d.canWrite == c.canWrite
  {
    hide Cleared, Flipped, CopyOf;
  }

  lemma EmitTells(c: Conn, event: Event, accepts: Accepts)
    ensures var d := Emit(c, event, accepts).0;
      && d.state == c.state && d.canRead == c.canRead && d.canWrite == c.canWrite
      && (forall e, f :: (e, f) in d.log.called <==>
            (e, f) in c.log.called || (e == event && HasCallback(HandlersOf(c, e), f)))
      && (forall e :: HandlersOf(d, e) == if e == event then Lasting(HandlersOf(c, e)) else HandlersOf(c, e))
  {
    hide CallAll, Lasting, HasCallback;
    CallAllCalls(c, event, HandlersOf(c, event), accepts);
  }

  /** Exactly the handlers on the state's own event were called, and of them the once-only ones went. */
  ghost predicate ToldOf(c: Conn, d: Conn, state: State) {
    && (forall e, f :: (e, f) in d.log.called <==>
          (e, f) in c.log.called || (TellsOf(e, state) && HasCallback(HandlersOf(c, e), f)))
    && (forall e :: HandlersOf(d, e) == if TellsOf(e, state) then Lasting(HandlersOf(c, e)) else HandlersOf(c, e))
  }

  lemma EmitToldOf(c: Conn, b: Conn, state: State, event: Event, accepts: Accepts)
    requires b.handlers == c.handlers && b.log.called == c.log.called && forall e :: TellsOf(e, state) <==> e == event
    ensures ToldOf(c, Emit(b, event, accepts).0, state)
  {
    hide Emit, Lasting, HasCallback, TellsOf;
    EmitTells(b, event, accepts);
    assert forall e :: HandlersOf(b, e) == HandlersOf(c, e);
  }

  /** Entering a state sets the permissions to read and to write as that state allows, calls exactly the
      handlers that are installed on the state's own event, and keeps all handlers but the once-only ones
      of that event. */
  lemma EnteringTells(c: Conn, state: State, accepts: Accepts)
    requires c.state != state
    ensures var d := EnterState(c, state, accepts).0;
      && d.state == state
      && (state == StateConnected ==> d.canRead && d.canWrite)
      && (state == StatePendingClose ==> !d.canRead && d.canWrite)
      && (state == StateConnecting || state == StateClosed ==> !d.canRead && !d.canWrite)
      && (state == StateNone || state == StateInitialized ==> d.canRead == c.canRead && d.canWrite == c.canWrite)
      && ToldOf(c, d, state)
  {
    hide Emit, ToldOf, HandlersOf;
    var b := c.(state := state, log := Entered(c.log, c.state, state));
    match state
    case StateNone => NothingTold(c, b);
    case StateInitialized =>
      EmitTells(b, Init, accepts);
      EmitToldOf(c, b, state, Init, accepts);
    case StateConnecting =>
      EmitTells(b.(canRead := false, canWrite := false), Connecting, accepts);
      EmitToldOf(c, b.(canRead := false, canWrite := false), state, Connecting, accepts);
    case StateConnected =>
      EmitTells(b.(canRead := true, canWrite := true), Connected, accepts);
      EmitToldOf(c, b.(canRead := true, canWrite := true), state, Connected, accepts);
    case StatePendingClose =>
      EmitTells(b.(canRead := false, canWrite := true), PendingClose, accepts);
      EmitToldOf(c, b.(canRead := false, canWrite := true), state, PendingClose, accepts);
    case StateClosed =>
      EmitTells(b.(canRead := false, canWrite := false), Close, accepts);
      EmitToldOf(c, b.(canRead := false, canWrite := false), state, Close, accepts);
  }

  lemma NothingTold(c: Conn, d: Conn)
    requires d.handlers == c.handlers && d.log.called == c.log.called
    ensures ToldOf(c, d, StateNone)
  {
    assert forall e :: HandlersOf(d, e) == HandlersOf(c, e);
  }

  // ---------------------------------------------------------------- which handlers there are

  /** How many of the ten steps that hand a connection over are done: 1 the acceptor's DATA item,
      2 the reader's DATA item, 3 and 4 the reader's handlers, 5 and 6 the worker's, 7 the worker's
      vote, 8 and 9 the writer's handlers, 10 the writer's vote. 11 means that the reader's queue
      refused. */
  predicate Between(progress: nat, from: nat) {
    from <= progress <= 10
  }

  /** The CLOSE handlers, in the order in which they are installed. */
  function Row(acceptor: bool, reader: bool, worker: bool, writer: bool): seq<Hook> {
    (if acceptor then [Once(Close, AcceptorClose)] else []) + (if reader then [Once(Close, ReaderEvent)] else [])
    + (if worker then [Once(Close, WorkerClose)] else []) + (if writer then [Once(Close, WriterEvent)] else [])
  }

  /** The handlers on an event, given the hand-over's progress and what was called already. */
  function Expected(progress: nat, called: set<(Event, Callback)>, event: Event): seq<Hook> {
    match event
    case InboundData => if Between(progress, 5) then [Always(InboundData, WorkerRead)] else []
    case OutboundData => if Between(progress, 8) then [Always(OutboundData, WriterEvent)] else []
    case PendingClose =>
      if Between(progress, 3) && (PendingClose, ReaderEvent) !in called then [Once(PendingClose, ReaderEvent)] else []
    case Close =>
      Row((Close, AcceptorClose) !in called, Between(progress, 4) && (Close, ReaderEvent) !in called,
          Between(progress, 6) && (Close, WorkerClose) !in called, Between(progress, 9) && (Close, WriterEvent) !in called)
    case _ => []
  }

  ghost predicate Shape(c: Conn, progress: nat) {
    forall e: Event :: HandlersOf(c, e) == Expected(progress, c.log.called, e)
  }

  /** What a CLOSE handler does to the connection, if it is installed. */
  function FireIf(c: Conn, callback: Callback, installed: bool, accepts: Accepts): Conn {
    if installed then CallOne(Called(c, Close, callback), Close, callback, accepts).0 else c
  }

  /** What calling a row of CLOSE handlers does to the connection. */
  function FireRow(c: Conn, acceptor: bool, reader: bool, worker: bool, writer: bool, accepts: Accepts): Conn {
    FireIf(FireIf(FireIf(FireIf(c, AcceptorClose, acceptor, accepts), ReaderEvent, reader, accepts),
              WorkerClose, worker, accepts), WriterEvent, writer, accepts)
  }

  function RowEffect(acceptor: bool, reader: bool, worker: bool, writer: bool, accepts: Accepts): Effect {
    Effect(acceptor, if reader && accepts.reader then [Close] else [],
           if worker && accepts.worker then [Close] else [], None, if writer && accepts.writer then [Close] else [])
  }

  lemma BothNothing(e: Effect)
    ensures Both(e, NOTHING) == e == Both(NOTHING, e)
  {
    assert e.reader + [] == e.reader && e.worker + [] == e.worker && e.writer + [] == e.writer;
  }

  /** What one handler leaves when it is the only one. */
  lemma CallSingle(c: Conn, event: Event, hook: Hook, accepts: Accepts)
    ensures CallAll(c, event, [hook], accepts) == CallOne(Called(c, event, hook.callback), event, hook.callback, accepts)
  {
    hide CallOne;
    var (d, e) := CallOne(Called(c, event, hook.callback), event, hook.callback, accepts);
    assert CallAll(d, event, [][..], accepts) == (d, NOTHING);
    BothNothing(e);
  }

  /** The effect of one CLOSE handler. */
  lemma CallOneEffect(c: Conn, callback: Callback, accepts: Accepts)
    requires callback != WorkerRead
    ensures CallOne(Called(c, Close, callback), Close, callback, accepts).1
         == RowEffect(callback == AcceptorClose, callback == ReaderEvent, callback == WorkerClose, callback == WriterEvent,
                      accepts)
  {
  }

  lemma NoEffect(accepts: Accepts)
    ensures RowEffect(false, false, false, false, accepts) == NOTHING
  {
  }

  lemma EffectsAdd(reader: bool, worker: bool, writer: bool, accepts: Accepts)
    ensures Both(RowEffect(true, false, false, false, accepts), RowEffect(false, reader, worker, writer, accepts))
         == RowEffect(true, reader, worker, writer, accepts)
    ensures Both(RowEffect(false, true, false, false, accepts), RowEffect(false, false, worker, writer, accepts))
         == RowEffect(false, true, worker, writer, accepts)
    ensures Both(RowEffect(false, false, true, false, accepts), RowEffect(false, false, false, writer, accepts))
         == RowEffect(false, false, true, writer, accepts)
  {
    forall es: seq<Event>
      ensures es + [] == es && [] + es == es
    {
    }
  }

  lemma RowTail(acceptor: bool, reader: bool, worker: bool, writer: bool)
    ensures acceptor ==>
      Row(true, reader, worker, writer) == [Once(Close, AcceptorClose)] + Row(false, reader, worker, writer)
    ensures reader ==> Row(false, true, worker, writer) == [Once(Close, ReaderEvent)] + Row(false, false, worker, writer)
    ensures worker ==> Row(false, false, true, writer) == [Once(Close, WorkerClose)] + Row(false, false, false, writer)
    ensures writer ==> Row(false, false, false, true) == [Once(Close, WriterEvent)]
  {
  }

  lemma {:induction false} CallRow(c: Conn, acceptor: bool, reader: bool, worker: bool, writer: bool, accepts: Accepts)
    ensures CallAll(c, Close, Row(acceptor, reader, worker, writer), accepts)
         == (FireRow(c, acceptor, reader, worker, writer, accepts), RowEffect(acceptor, reader, worker, writer, accepts))
    decreases acceptor, reader, worker, writer
  {
    hide CallOne, RowEffect;
    RowTail(acceptor, reader, worker, writer);
    NoEffect(accepts);
    EffectsAdd(reader, worker, writer, accepts);
    var row := Row(acceptor, reader, worker, writer);
    if acceptor {
      assert row[0] == Once(Close, AcceptorClose) && row[1..] == Row(false, reader, worker, writer);
      CallOneEffect(c, AcceptorClose, accepts);
      CallRow(FireIf(c, AcceptorClose, true, accepts), false, reader, worker, writer, accepts);
    } else if reader {
      assert row[0] == Once(Close, ReaderEvent) && row[1..] == Row(false, false, worker, writer);
      CallOneEffect(c, ReaderEvent, accepts);
      CallRow(FireIf(c, ReaderEvent, true, accepts), false, false, worker, writer, accepts);
    } else if worker {
      assert row[0] == Once(Close, WorkerClose) && row[1..] == Row(false, false, false, writer);
      CallOneEffect(c, WorkerClose, accepts);
      CallRow(FireIf(c, WorkerClose, true, accepts), false, false, false, writer, accepts);
    } else if writer {
      assert row == [Once(Close, WriterEvent)];
      CallSingle(c, Close, Once(Close, WriterEvent), accepts);
      CallOneEffect(c, WriterEvent, accepts);
    }
  }

  lemma {:induction false} OnceOnly(hooks: seq<Hook>)
    requires forall i :: 0 <= i < |hooks| ==> hooks[i].once
    ensures Lasting(hooks) == []
  {
    if hooks != [] {
      OnceOnly(hooks[1..]);
    }
  }

  /** The CLOSE handlers that are installed. */
  function Armed(c: Conn, progress: nat): (bool, bool, bool, bool) {
    ((Close, AcceptorClose) !in c.log.called, Between(progress, 4) && (Close, ReaderEvent) !in c.log.called,
     Between(progress, 6) && (Close, WorkerClose) !in c.log.called, Between(progress, 9) && (Close, WriterEvent) !in c.log.called)
  }

  function Mark(called: set<(Event, Callback)>, callback: Callback, fired: bool): set<(Event, Callback)> {
    if fired then called + {(Close, callback)} else called
  }

  lemma VoteKeeps(c: Conn, owner: Owner)
    ensures var d := Vote(c, owner); d.handlers == c.handlers && d.log.called == c.log.called
  {
  }

  lemma CallOneKeeps(c: Conn, event: Event, callback: Callback, accepts: Accepts)
    ensures var d := CallOne(Called(c, event, callback), event, callback, accepts).0;
      d.handlers == c.handlers && d.log.called == c.log.called + {(event, callback)}
  {
    hide Vote, Cleared, Flipped, CopyOf;
    VoteKeeps(Called(c, event, callback), Acceptor);
    VoteKeeps(Called(c, event, callback), Reader);
    VoteKeeps(Called(c, event, callback), Worker);
  }

  lemma FireRowKeeps(c: Conn, acceptor: bool, reader: bool, worker: bool, writer: bool, accepts: Accepts)
    ensures var d := FireRow(c, acceptor, reader, worker, writer, accepts);
      && d.handlers == c.handlers
      && d.log.called ==
         Mark(Mark(Mark(Mark(c.log.called, AcceptorClose, acceptor), ReaderEvent, reader), WorkerClose, worker), WriterEvent, writer)
  {
    hide CallOne;
    CallOneKeeps(c, Close, AcceptorClose, accepts);
    var c1 := FireIf(c, AcceptorClose, acceptor, accepts);
    CallOneKeeps(c1, Close, ReaderEvent, accepts);
    var c2 := FireIf(c1, ReaderEvent, reader, accepts);
    CallOneKeeps(c2, Close, WorkerClose, accepts);
    CallOneKeeps(FireIf(c2, WorkerClose, worker, accepts), Close, WriterEvent, accepts);
  }

  lemma ShapeStays(c: Conn, d: Conn, progress: nat, event: Event)
    requires Shape(c, progress)
    requires d.handlers == c.handlers[event := Expected(progress, d.log.called, event)]
    requires forall x: Event :: x != event ==> Expected(progress, d.log.called, x) == Expected(progress, c.log.called, x)
    ensures Shape(d, progress)
  {
    hide Expected;
    forall x: Event
      ensures HandlersOf(d, x) == Expected(progress, d.log.called, x)
    {
      assert x != event ==> HandlersOf(d, x) == HandlersOf(c, x);
    }
  }

  /** CLOSE calls every installed handler once and leaves none. */
  lemma DispatchClose(c: Conn, progress: nat, accepts: Accepts)
    requires Shape(c, progress)
    ensures var (d, e) := Emit(c, Close, accepts); var (a, r, w, t) := Armed(c, progress);
      && d == FireRow(c, a, r, w, t, accepts).(handlers := d.handlers)
      && e == RowEffect(a, r, w, t, accepts) && Shape(d, progress)
  {
    hide FireRow, RowEffect, CallAll, Lasting, Shape;
    var (a, r, w, t) := Armed(c, progress);
    assert HandlersOf(c, Close) == Row(a, r, w, t) by {
      ShapeAt(c, progress, Close);
    }
    CallRow(c, a, r, w, t, accepts);
    OnceOnly(Row(a, r, w, t));
    FireRowKeeps(c, a, r, w, t, accepts);
    var d := Emit(c, Close, accepts).0;
    assert Expected(progress, d.log.called, Close) == [];
    ShapeStays(c, d, progress, Close);
  }

  lemma ShapeAt(c: Conn, progress: nat, event: Event)
    requires Shape(c, progress)
    ensures HandlersOf(c, event) == Expected(progress, c.log.called, event)
  {
  }

  /** Any other event reaches one handler at most. */
  lemma DispatchOther(c: Conn, progress: nat, event: Event, accepts: Accepts)
    requires Shape(c, progress) && event != Close
    ensures var (d, e) := Emit(c, event, accepts); var hooks := Expected(progress, c.log.called, event);
      && Shape(d, progress)
      && (hooks == [] ==> d == c.(handlers := d.handlers) && e == NOTHING)
      && (hooks != [] ==>
         var (d1, e1) := CallOne(Called(c, event, hooks[0].callback), event, hooks[0].callback, accepts);
         d == d1.(handlers := d.handlers) && e == e1)
  {
    hide Shape, CallOne;
    var hooks := Expected(progress, c.log.called, event);
    var (d, e) := Emit(c, event, accepts);
    ShapeAt(c, progress, event);
    if hooks != [] {
      assert hooks == [hooks[0]];
      CallSingle(c, event, hooks[0], accepts);
      CallOneKeeps(c, event, hooks[0].callback, accepts);
      assert Lasting(hooks) == if hooks[0].once then [] else hooks;
    }
    assert Expected(progress, d.log.called, event) == Lasting(hooks);
    ShapeStays(c, d, progress, event);
  }
}
