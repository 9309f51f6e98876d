/** The loops of the three threads of a pipe. Each is a path of moves of Pipes.dfy, so that every
    theorem about runs speaks about these loops in any interleaving. */
module Threads {
  import opened EventModel
  import opened QueueModel
  import opened Connections
  import opened Lives
  import opened Reactions
  import opened Invariants
  import opened Closing
  import opened Streams
  import opened Pipes
  import opened Projection
  import opened Refinement
  import opened Holdings
  import opened SelectorModel
  import opened Runs
  import opened Realization
  import B = BufferModel

  /** The states between the moves. */
  ghost predicate Path(path: seq<Pipe>, moves: seq<Move>) {
    && |path| == |moves| + 1
    && forall i :: 0 <= i < |moves| ==> Possible(path[i], moves[i]) && path[i + 1] == Taken(path[i], moves[i])
  }

  /** A path is a run. */
  lemma {:induction false} PathIsRun(path: seq<Pipe>, moves: seq<Move>)
    requires Path(path, moves)
    ensures Legal(path[0], moves) && After(path[0], moves) == path[|moves|]
    decreases |moves|
  {
    hide Possible, Taken;
    if moves != [] {
      assert path[1] == Taken(path[0], moves[0]) && Possible(path[0], moves[0]);
      assert Path(path[1..], moves[1..]) by {
        forall i | 0 <= i < |moves[1..]|
          ensures Possible(path[1..][i], moves[1..][i]) && path[1..][i + 1] == Taken(path[1..][i], moves[1..][i])
        {
          assert Possible(path[i + 1], moves[i + 1]);
        }
      }
      PathIsRun(path[1..], moves[1..]);
    }
  }

  /** A path from one safe state to another. */
  ghost predicate Ran(s: Pipe, t: Pipe, path: seq<Pipe>, moves: seq<Move>) {
    Path(path, moves) && path[0] == s && path[|moves|] == t && Safe(t)
  }

  lemma RanStarts(s: Pipe)
    requires Safe(s)
    ensures Ran(s, s, [s], [])
  {
    hide Safe;
  }

  lemma RanMore(s: Pipe, t: Pipe, path: seq<Pipe>, moves: seq<Move>, m: Move)
    requires Ran(s, t, path, moves) && Possible(t, m)
    ensures Ran(s, Taken(t, m), path + [Taken(t, m)], moves + [m])
  {
    hide Safe, Possible, Taken;
    SafeKeeps(t, m);
    var path', moves' := path + [Taken(t, m)], moves + [m];
    forall i | 0 <= i < |moves'|
      ensures Possible(path'[i], moves'[i]) && path'[i + 1] == Taken(path'[i], moves'[i])
    {
      assert i < |moves| ==> Possible(path[i], moves[i]);
    }
  }

  lemma RanJoins(s: Pipe, t: Pipe, u: Pipe, path: seq<Pipe>, moves: seq<Move>, path': seq<Pipe>, moves': seq<Move>)
    requires Ran(s, t, path, moves) && Ran(t, u, path', moves')
    ensures Ran(s, u, path + path'[1..], moves + moves')
  {
    hide Safe, Possible, Taken;
    var p, m := path + path'[1..], moves + moves';
    forall i | 0 <= i < |m|
      ensures Possible(p[i], m[i]) && p[i + 1] == Taken(p[i], m[i])
    {
      if i < |moves| {
        assert Possible(path[i], moves[i]) && p[i] == path[i] && p[i + 1] == path[i + 1];
      } else {
        var j := i - |moves|;
        assert Possible(path'[j], moves'[j]) && p[i] == path'[j] && p[i + 1] == path'[j + 1];
      }
    }
  }

  predicate Goes(r: Option<Item>) {
    r.Some? && r != Some(ExitItem)
  }

  /** How a loop over Dequeue ends: with nothing dequeued, or with EXIT. */
  function Stops(running: bool): Option<Item> {
    if running then None else Some(ExitItem)
  }

  // ---------------------------------------------------------------- the reader: its queue

  /** The reader's keys after a round, given the keys before. */
  function KeysAfterTurn(s: Pipe, keys: seq<Key<nat>>): seq<Key<nat>> {
    match Dequeue(s.reader).1
    case Some(DataItem(p)) => if Known(s, p) then Register(keys, OP_READ, p.conn, p.conn) else keys
    case Some(EventItem(Close, p)) =>
      if Known(s, p) && s.members[p.conn].conn.readKey && Find(keys, p.conn) < |keys|
      then Unregister(keys, Find(keys, p.conn), true).0 else keys
    case _ => keys
  }

  lemma TurnRegistry(s: Pipe)
    ensures var m := ReaderTurn(s).registry;
      match Dequeue(s.reader).1
      case Some(DataItem(p)) => m == if Known(s, p) then MapRegister(s.registry, OP_READ, p.conn, p.conn) else s.registry
      case Some(EventItem(Close, p)) => m == if Known(s, p) then ReaderRegistry(s, p.conn) else s.registry
      case _ => m == s.registry
  {
    hide Dequeue, ManagedBy, Vote, MapRegister, MapUnregister, Spread;
    match Dequeue(s.reader).1
    case Some(DataItem(p)) =>
      if Known(s, p) {
        var c := p.conn;
        var t := s.(reader := Dequeue(s.reader).0, registry := MapRegister(s.registry, OP_READ, c, c), load := s.load + 1);
        SpreadRegistry(t, c, ManagedBy(s.members[c].conn.(readKey := true), Reader, Open(s)));
      }
    case _ =>
  }

  lemma SpreadRegistry(s: Pipe, c: nat, r: (Conn, Effect))
    requires c in s.members
    ensures Spread(s, c, r).registry == s.registry
  {
    hide Post, RemoveAll, Enqueue, Released;
  }

  /** The list of keys stays the map of the pipe's selector. */
  lemma KeysFollow(s: Pipe, keys: seq<Key<nat>>)
    requires Represents(keys, s.registry)
    ensures Represents(KeysAfterTurn(s, keys), ReaderTurn(s).registry)
  {
    hide ReaderTurn, Represents, Dequeue, Register, MapRegister, MapUnregister;
    TurnRegistry(s);
    match Dequeue(s.reader).1
    case Some(DataItem(p)) =>
      if Known(s, p) {
        RegisterRefinesMap(keys, s.registry, OP_READ, p.conn, p.conn);
      }
    case Some(EventItem(Close, p)) =>
      if Known(s, p) && s.members[p.conn].conn.readKey {
        SameDomain(keys, s.registry, p.conn);
        if Find(keys, p.conn) < |keys| {
          UnregisterRefinesMap(keys, s.registry, Find(keys, p.conn), true);
        }
      }
    case _ =>
  }

  lemma ReaderStep(s: Pipe, t: Pipe, path: seq<Pipe>, moves: seq<Move>)
    requires Ran(s, t, path, moves)
    ensures Ran(s, ReaderTurn(t), path + [ReaderTurn(t)], moves + [ReaderMove])
    ensures ReaderTurn(t).reader == Dequeue(t.reader).0
  {
    hide Safe, ReaderTurn, AllGood, Held, Loaded, Owned, Path;
    RanMore(s, t, path, moves, ReaderMove);
    SafeIs(t);
    ReaderPutsNothing(t);
  }

  /** The rounds of a reader that drains its queue. */
  ghost predicate ReaderRounds(path: seq<Pipe>, moves: seq<Move>, running: bool) {
    && |path| == |moves| + 1 && moves != [] && (forall m <- moves :: m == ReaderMove)
    && (forall i :: 0 <= i < |moves| - 1 ==> Goes(Dequeue(path[i].reader).1))
    && Dequeue(path[|moves| - 1].reader).1 == Stops(running)
  }

  /** The first loop of _ReaderRun: it handles one item after the other until a Dequeue gives nothing,
      or EXIT, and then it returns false. It empties the queue, unless the queue had been emptied
      before without a Dequeue to report it; then it handles nothing. */
  method DrainReaderQueue(s: Pipe, keys: seq<Key<nat>>)
    returns (t: Pipe, left: seq<Key<nat>>, running: bool, ghost path: seq<Pipe>, ghost moves: seq<Move>)
    requires Safe(s) && Represents(keys, s.registry)
    ensures Ran(s, t, path, moves) && ReaderRounds(path, moves, running) && Represents(left, t.registry)
    ensures running <==> s.reader.emptied || ExitItem !in s.reader.items
    ensures if s.reader.emptied then |moves| == 1 && t.reader == s.reader.(emptied := false)
            else running ==> t.reader.items == []
  {
    hide Safe, ReaderTurn, Ran, Represents, KeysAfterTurn, Dequeue;
    t, left, running, path, moves := s, keys, true, [s], [];
    RanStarts(s);
    RanEnds(s, s, path, moves);
    var going := true;
    while going && running
      invariant Ran(s, t, path, moves) && Represents(left, t.registry) && |path| == |moves| + 1 && path[|moves|] == t
      invariant forall m <- moves :: m == ReaderMove
      invariant forall i :: 0 <= i < |moves| - 1 ==> Goes(Dequeue(path[i].reader).1)
      invariant if going && running then moves != [] ==> Goes(Dequeue(path[|moves| - 1].reader).1)
                else moves != [] && Dequeue(path[|moves| - 1].reader).1 == Stops(running)
      invariant going || running
      invariant going && moves != [] ==> !s.reader.emptied && (t.reader.items != [] ==> !t.reader.emptied)
      invariant moves == [] ==> t == s
      invariant s.reader.emptied && moves != [] ==> !going && |moves| == 1 && t.reader == s.reader.(emptied := false)
      invariant going && running && !s.reader.emptied ==> (ExitItem in s.reader.items <==> ExitItem in t.reader.items)
      invariant !going && !s.reader.emptied ==> ExitItem !in s.reader.items && t.reader.items == []
      invariant !running ==> !s.reader.emptied && ExitItem in s.reader.items
      decreases running, going, |t.reader.items|
    {
      var r := Dequeue(t.reader).1;
      ReaderStep(s, t, path, moves);
      DequeueLeaves(t.reader);
      KeysFollow(t, left);
      left := KeysAfterTurn(t, left);
      t := ReaderTurn(t);
      path, moves := path + [t], moves + [ReaderMove];
      if r.None? {
        going := false;
      } else if r == Some(ExitItem) {
        running := false;
      }
    }
  }

  lemma RanEnds(s: Pipe, t: Pipe, path: seq<Pipe>, moves: seq<Move>)
    requires Ran(s, t, path, moves)
    ensures |path| == |moves| + 1 && path[0] == s && path[|moves|] == t && Safe(t)
  {
    hide Safe, Possible, Taken;
  }

  // ---------------------------------------------------------------- the reader: the ready keys

  /** SelectionKeyIsOperationSuccessful, of a result and an operation. */
  predicate Successful(result: bv16, operation: bv16) {
    result & operation == operation
  }

  /** What `poll` answers: the keys with their `revents`, and how many are not zero; None is an error. */
  function Selected(keys: seq<Key<nat>>, polled: Option<int -> bv16>): (seq<Key<nat>>, nat) {
    if polled.None? then (keys, 0)
    else
      var polls := seq(|keys|, i requires 0 <= i < |keys| => keys[i].(revents := polled.value(keys[i].fd)));
      (polls, Answering(polls))
  }

  function Answering(keys: seq<Key<nat>>): nat {
    if keys == [] then 0 else (if keys[0].revents != 0 then 1 else 0) + Answering(keys[1..])
  }

  predicate Within(trace: seq<nat>, n: nat) {
    forall i :: 0 <= i < |trace| ==> trace[i] < n
  }

  /** The connection of the key at position `k`, if its operation was successful. */
  function OneRead(keys: seq<Key<nat>>, k: nat): seq<nat>
    requires k < |keys|
  {
    if Successful(keys[k].revents, keys[k].operation) then [keys[k].attachment] else []
  }

  /** The connections to be read, given the positions that the sweep returned. */
  function ToRead(keys: seq<Key<nat>>, trace: seq<nat>): seq<nat>
    requires Within(trace, |keys|)
  {
    if trace == [] then [] else OneRead(keys, trace[0]) + ToRead(keys, trace[1..])
  }

  lemma {:induction false} ToReadMore(keys: seq<Key<nat>>, trace: seq<nat>, k: nat)
    requires k < |keys| && Within(trace, |keys|)
    ensures ToRead(keys, trace + [k]) == ToRead(keys, trace) + OneRead(keys, k)
  {
    hide OneRead;
    if trace == [] {
      assert [k][1..] == [] && [] + [k] == [k];
    } else {
      assert (trace + [k])[1..] == trace[1..] + [k];
      ToReadMore(keys, trace[1..], k);
      assert (OneRead(keys, trace[0]) + ToRead(keys, trace[1..])) + OneRead(keys, k)
          == OneRead(keys, trace[0]) + (ToRead(keys, trace[1..]) + OneRead(keys, k));
    }
  }

  /** A result of `recv` for a buffer with that much room; no byte is the end of the stream. */
  function Fitting(c: Conn, input: Input): (r: Input)
    ensures MayReceive(c, r) && (MayReceive(c, input) ==> r == input)
  {
    match input
    case Bytes(bytes) =>
      var room := Room(c.readBuffer);
      if bytes == [] || room == 0 then EndOfStream else Bytes(if |bytes| <= room then bytes else bytes[..room])
    case _ => input
  }

  /** Each move reads the next connection; `inputs(i)` is what the i-th `recv` would give. */
  ghost predicate Reads(path: seq<Pipe>, moves: seq<Move>, conns: seq<nat>, inputs: nat -> Input) {
    && |path| == |moves| + 1 && |moves| == |conns|
    && forall i :: 0 <= i < |moves| ==>
         && conns[i] in path[i].members
         && moves[i] == Of(conns[i], Arrive(Fitting(path[i].members[conns[i]].conn, inputs(i)), 0))
  }

  /** Every key is registered once, for its own connection. */
  ghost predicate Single(keys: seq<Key<nat>>, m: Registry<nat>) {
    Represents(keys, m) && forall i :: 0 <= i < |keys| ==> keys[i].count == 1 && keys[i].fd == keys[i].attachment
  }

  lemma SingleIn(s: Pipe, keys: seq<Key<nat>>)
    requires Safe(s) && Represents(keys, s.registry)
    ensures Single(keys, s.registry) && forall i :: 0 <= i < |keys| ==> keys[i].attachment in s.registry
  {
    hide AllGood, Held, Owned, Find;
    forall i | 0 <= i < |keys|
      ensures keys[i].count == 1 && keys[i].fd == keys[i].attachment && keys[i].attachment in s.registry
    {
      RegistrationAt(keys, s.registry, i);
    }
  }

  lemma SelectedSame(keys: seq<Key<nat>>, polled: Option<int -> bv16>, m: Registry<nat>)
    requires Represents(keys, m)
    ensures Represents(Selected(keys, polled).0, m)
  {
    hide Find;
    RepresentsSame(keys, Selected(keys, polled).0, m);
  }

  lemma RepresentsSame(keys: seq<Key<nat>>, keys': seq<Key<nat>>, m: Registry<nat>)
    requires Represents(keys, m) && SameKeys(keys, keys') && Counted(keys')
    ensures Represents(keys', m)
  {
    forall fd | fd in m
      ensures Find(keys', fd) < |keys'|
    {
      FoundAt(keys', fd, Find(keys, fd));
    }
  }

  /** The sweep so far: nothing but `curCount` and `result` changed, and a ready key is as polled. */
  ghost predicate Sweeping(polls: seq<Key<nat>>, now: seq<Key<nat>>, cur: Cursor) {
    && InRange(now, cur) && Counted(now) && SameKeys(polls, now)
    && (forall i :: 0 <= i < |now| ==> now[i].count == 1 && (Ready(now[i]) ==> now[i].revents == polls[i].revents))
  }

  ghost predicate Returned(polls: seq<Key<nat>>, now: seq<Key<nat>>, k: nat) {
    k < |polls| == |now| && now[k].result == polls[k].revents
    && now[k].operation == polls[k].operation && now[k].attachment == polls[k].attachment
  }

  /** With one registration each, a key that is returned carries what was polled. */
  lemma SweepStep(polls: seq<Key<nat>>, now: seq<Key<nat>>, cur: Cursor, repoll: Option<bv16>)
    requires Sweeping(polls, now, cur)
    ensures InRange(now, cur)
    ensures var (now', cur', hit) := KeyReady(now, cur, repoll);
      && Sweeping(polls, now', cur')
      && (hit.Some? ==> Returned(polls, now', hit.value))
  {
  }

  /** One read. */
  lemma ReadStep(s: Pipe, t: Pipe, path: seq<Pipe>, moves: seq<Move>, c: nat, input: Input)
    requires Ran(s, t, path, moves) && c in t.registry
    ensures c in t.members && Possible(t, Of(c, Arrive(Fitting(t.members[c].conn, input), 0)))
    ensures var m := Of(c, Arrive(Fitting(t.members[c].conn, input), 0)); var u := Taken(t, m);
      Ran(s, u, path + [u], moves + [m]) && u.registry == t.registry
  {
    hide Safe, AllGood, Held, Owned, Path, Spread, ReadInput, Fitting, MayReceive;
    RanEnds(s, t, path, moves);
    AllKeyed(t);
    var m := Of(c, Arrive(Fitting(t.members[c].conn, input), 0));
    RanMore(s, t, path, moves, m);
    SpreadRegistry(t, c, ReadInput(t.members[c].conn, Fitting(t.members[c].conn, input), Open(t)));
  }

  /** The second loop of _ReaderRun, over SelectionKeyReady: the connections read, in order, are those
      that the sweep of the selector returns and whose operation was successful. */
  method ReadReadyKeys(s: Pipe, polls: seq<Key<nat>>, answers: nat -> Option<bv16>, inputs: nat -> Input)
    returns (t: Pipe, left: seq<Key<nat>>, ghost path: seq<Pipe>, ghost moves: seq<Move>)
    requires Safe(s) && Represents(polls, s.registry)
    ensures Ran(s, t, path, moves) && t.registry == s.registry && Represents(left, t.registry)
    ensures left == Sweep(polls, Nowhere, answers, 0).0
    ensures var trace := Sweep(polls, Nowhere, answers, 0).1;
      Within(trace, |polls|) && Reads(path, moves, ToRead(polls, trace), inputs)
  {
    hide Safe, Ran, Represents, Possible, Taken, Sweep, KeyReady, Successful, Fitting, ToRead, Sweeping;
    t, path, moves := s, [s], [];
    RanStarts(s);
    SingleIn(s, polls);
    StartsSweeping(polls, s.registry);
    ghost var done: seq<nat> := [];
    ghost var whole := Sweep(polls, Nowhere, answers, 0);
    NoReads(polls, s, inputs);
    var r := KeyReady(polls, Nowhere, answers(0));
    SweepSoFar(polls, Nowhere, [], answers, 0);
    SweepStep(polls, polls, Nowhere, answers(0));
    var n, taken := 1, 0;
    while r.2.Some?
      invariant Ran(s, t, path, moves) && t.registry == s.registry && |path| == |moves| + 1 && path[|moves|] == t && taken == |moves|
      invariant InRange(r.0, r.1) && Sweeping(polls, r.0, r.1)
      invariant r.2.Some? ==> Returned(polls, r.0, r.2.value)
      invariant Within(done, |polls|)
      invariant whole == SoFar(r, done, answers, n)
      invariant Reads(path, moves, ToRead(polls, done), inputs)
      decreases if r.2.None? then 0 else 1 + |Sweep(r.0, r.1, answers, n).1|
    {
      var k := r.2.value;
      ToReadMore(polls, done, k);
      if Successful(r.0[k].result, r.0[k].operation) {
        var c := r.0[k].attachment;
        ReadStep(s, t, path, moves, c, inputs(taken));
        var move := Of(c, Arrive(Fitting(t.members[c].conn, inputs(taken)), 0));
        t := Taken(t, move);
        path, moves := path + [t], moves + [move];
        taken := taken + 1;
      }
      done := done + [k];
      SweepSoFar(r.0, r.1, done, answers, n);
      SweepStep(polls, r.0, r.1, answers(n));
      r := KeyReady(r.0, r.1, answers(n));
      n := n + 1;
    }
    left := r.0;
    StillRepresents(polls, left, r.1, t.registry);
  }

  lemma StartsSweeping(polls: seq<Key<nat>>, m: Registry<nat>)
    requires Single(polls, m)
    ensures Sweeping(polls, polls, Nowhere)
  {
  }

  lemma StillRepresents(polls: seq<Key<nat>>, now: seq<Key<nat>>, cur: Cursor, m: Registry<nat>)
    requires Represents(polls, m) && Sweeping(polls, now, cur)
    ensures Represents(now, m)
  {
    hide Represents;
    RepresentsSame(polls, now, m);
  }

  lemma NoReads(polls: seq<Key<nat>>, s: Pipe, inputs: nat -> Input)
    ensures Reads([s], [], ToRead(polls, []), inputs)
  {
  }

  /** Nothing ready, or a failed `poll`; else the second loop, from `known` on. */
  ghost predicate ReaderReads(path: seq<Pipe>, moves: seq<Move>, known: seq<Key<nat>>, left: seq<Key<nat>>,
                              polled: Option<int -> bv16>, answers: nat -> Option<bv16>, inputs: nat -> Input)
  {
    var (polls, ready) := Selected(known, polled);
    if ready == 0 then moves == [] && left == polls
    else
      var (end, trace) := Sweep(polls, Nowhere, answers, 0);
      left == end && Within(trace, |polls|) && Reads(path, moves, ToRead(polls, trace), inputs)
  }

  /** The reads of a round: exactly the registered connections for which `poll` answered, as a signed short,
      a positive value with the bit of OP_READ; each once, in the order of the key list, with the given
      result of `recv` wherever `recv` may give it. */
  ghost predicate ReadsReadable(registry: Registry<nat>, known: seq<Key<nat>>, path: seq<Pipe>, taken: seq<Move>,
                                polled: Option<int -> bv16>, inputs: nat -> Input)
  {
    && |path| == |taken| + 1
    && (forall i :: 0 <= i < |taken| ==>
          && taken[i].Of? && taken[i].act.Arrive? && taken[i].c in path[i].members
          && (MayReceive(path[i].members[taken[i].c].conn, inputs(i)) ==> taken[i].act.input == inputs(i)))
    && (forall i, j :: 0 <= i < j < |taken| ==> Find(known, taken[i].c) < Find(known, taken[j].c))
    && (forall c: nat :: (exists i :: 0 <= i < |taken| && taken[i].c == c) <==>
          polled.Some? && c in registry && 1 <= polled.value(c) as int <= 0x7fff && polled.value(c) & 1 == 1)
  }

  lemma FindAt<A>(keys: seq<Key<A>>, k: nat)
    requires DistinctFds(keys) && k < |keys|
    ensures Find(keys, keys[k].fd) == k
  {
  }

  /** The connections of `conns` come in the order of the key list, without repetition. */
  ghost predicate Rises(keys: seq<Key<nat>>, conns: seq<nat>) {
    forall i, j :: 0 <= i < j < |conns| ==> Find(keys, conns[i]) < Find(keys, conns[j])
  }

  lemma RisesBefore(keys: seq<Key<nat>>, head: seq<nat>, rest: seq<nat>)
    requires Rises(keys, rest) && |head| <= 1
    requires forall c <- rest :: head != [] ==> Find(keys, head[0]) < Find(keys, c)
    ensures Rises(keys, head + rest)
  {
    hide Find;
    var r := head + rest;
    forall i, j | 0 <= i < j < |r|
      ensures Find(keys, r[i]) < Find(keys, r[j])
    {
      assert r[j] == rest[j - |head|] && rest[j - |head|] in rest;
      assert i >= |head| ==> r[i] == rest[i - |head|];
    }
  }

  /** The key of a connection was returned and its operation was successful. */
  predicate Answered(keys: seq<Key<nat>>, trace: seq<nat>, c: nat)
    requires Within(trace, |keys|)
  {
    var k := Find(keys, c);
    k in trace && k < |keys| && keys[k].revents & keys[k].operation == keys[k].operation
  }

  lemma {:induction false} ToReadHas(keys: seq<Key<nat>>, trace: seq<nat>, c: nat)
    requires Within(trace, |keys|) && DistinctFds(keys) && forall i :: 0 <= i < |keys| ==> keys[i].fd == keys[i].attachment
    ensures c in ToRead(keys, trace) <==> Answered(keys, trace, c)
  {
    hide Find;
    if trace != [] {
      ToReadHas(keys, trace[1..], c);
      FindAt(keys, trace[0]);
      FoundFd(keys, c);
      assert Find(keys, c) in trace <==> Find(keys, c) == trace[0] || Find(keys, c) in trace[1..];
    }
  }

  /** The connections to be read, without repetition. */
  lemma {:induction false} ToReadRises(keys: seq<Key<nat>>, trace: seq<nat>)
    requires Within(trace, |keys|) && DistinctFds(keys) && forall i :: 0 <= i < |keys| ==> keys[i].fd == keys[i].attachment
    requires forall i, j :: 0 <= i < j < |trace| ==> trace[i] < trace[j]
    ensures Rises(keys, ToRead(keys, trace))
  {
    hide Find, Rises;
    if trace == [] {
      NoneRises(keys);
    } else {
      var rest := ToRead(keys, trace[1..]);
      ToReadRises(keys, trace[1..]);
      FindAt(keys, trace[0]);
      forall c: nat | c in rest
        ensures trace[0] < Find(keys, c)
      {
        ToReadHas(keys, trace[1..], c);
      }
      RisesBefore(keys, OneRead(keys, trace[0]), rest);
    }
  }

  lemma NoneRises(keys: seq<Key<nat>>)
    ensures Rises(keys, [])
  {
  }

  lemma FoundFd(keys: seq<Key<nat>>, c: nat)
    ensures Find(keys, c) < |keys| ==> keys[Find(keys, c)].fd == c
  {
  }

  lemma {:induction false} AnsweringNone(keys: seq<Key<nat>>)
    ensures Answering(keys) == 0 <==> forall i :: 0 <= i < |keys| ==> keys[i].revents == 0
  {
    if keys != [] {
      AnsweringNone(keys[1..]);
      assert forall i :: 0 < i < |keys| ==> keys[i] == keys[1..][i - 1];
    }
  }

  lemma {:induction false} OnceEach(trace: seq<nat>)
    requires forall i, j :: 0 <= i < j < |trace| ==> trace[i] <= trace[j]
    requires forall k :: k in trace ==> Times(trace, k) == 1
    ensures forall i, j :: 0 <= i < j < |trace| ==> trace[i] < trace[j]
  {
    if trace != [] {
      var rest := trace[1..];
      forall k | k in rest
        ensures Times(rest, k) == 1 && k != trace[0]
      {
        TimesMember(rest, k);
        assert k in trace;
      }
      OnceEach(rest);
      forall i, j | 0 <= i < j < |trace|
        ensures trace[i] < trace[j]
      {
        assert trace[j] == rest[j - 1] && rest[j - 1] in rest && (i > 0 ==> trace[i] == rest[i - 1]);
      }
    }
  }

  /** What the sweep over polled keys returns. */
  lemma PolledSweep(s: Pipe, known: seq<Key<nat>>, polled: int -> bv16, answers: nat -> Option<bv16>)
    requires Safe(s) && Represents(known, s.registry)
    ensures var polls := Selected(known, Some(polled)).0; var trace := Sweep(polls, Nowhere, answers, 0).1;
      && PollsAre(polls, known, polled) && Within(trace, |polls|) && DistinctFds(polls)
      && (forall i, j :: 0 <= i < j < |trace| ==> trace[i] < trace[j])
      && (forall k: nat :: k in trace <==> k < |polls| && 1 <= polls[k].revents as int <= 0x7fff)
  {
    hide Sweep, Find, AllGood, Held, Owned, Answering;
    SafeIs(s);
    SelectedSame(known, Some(polled), s.registry);
    var polls := Selected(known, Some(polled)).0;
    SingleIn(s, polls);
    SweepReturnsReadyKeys(polls, answers);
    var trace := Sweep(polls, Nowhere, answers, 0).1;
    OnceEach(trace);
    forall i | 0 <= i < |polls|
      ensures polls[i].operation == 1 && polls[i].fd == polls[i].attachment
    {
      RegistrationAt(polls, s.registry, i);
    }
    forall i | 0 <= i < |trace|
      ensures trace[i] < |polls|
    {
      assert trace[i] in trace;
    }
  }

  /** The polled keys are those known, registered for OP_READ, with the answers of `poll`. */
  ghost predicate PollsAre(polls: seq<Key<nat>>, known: seq<Key<nat>>, polled: int -> bv16) {
    |polls| == |known| && forall i :: 0 <= i < |polls| ==>
      && polls[i].fd == known[i].fd == polls[i].attachment && polls[i].operation == 1
      && polls[i].revents == polled(known[i].fd)
  }

  lemma SameFind(a: seq<Key<nat>>, b: seq<Key<nat>>, fd: int)
    requires |a| == |b| && forall i :: 0 <= i < |a| ==> a[i].fd == b[i].fd
    ensures Find(a, fd) == Find(b, fd)
  {
  }

  lemma AnsweredIs(known: seq<Key<nat>>, polls: seq<Key<nat>>, m: Registry<nat>, polled: int -> bv16, trace: seq<nat>, c: nat)
    requires Represents(known, m) && PollsAre(polls, known, polled) && Within(trace, |polls|)
    requires forall k: nat :: k in trace <==> k < |polls| && 1 <= polls[k].revents as int <= 0x7fff
    ensures Find(known, c) == Find(polls, c)
    ensures Answered(polls, trace, c) <==> c in m && 1 <= polled(c) as int <= 0x7fff && polled(c) & 1 == 1
  {
    hide Find, Represents;
    SameFind(known, polls, c);
    FindsKey(known, m, c);
  }

  /** The connections that a round reads. */
  lemma ConnsAre(s: Pipe, known: seq<Key<nat>>, polled: int -> bv16, answers: nat -> Option<bv16>) returns (conns: seq<nat>)
    requires Safe(s) && Represents(known, s.registry)
    ensures var (polls, ready) := Selected(known, Some(polled)); var trace := Sweep(polls, Nowhere, answers, 0).1;
      Within(trace, |polls|) && conns == if ready == 0 then [] else ToRead(polls, trace)
    ensures Rises(known, conns)
    ensures forall c: nat :: c in conns <==> c in s.registry && 1 <= polled(c) as int <= 0x7fff && polled(c) & 1 == 1
  {
    hide Safe, Sweep, Find, ToRead, Represents, Answering, Selected, Answered;
    PolledSweep(s, known, polled, answers);
    var (polls, ready) := Selected(known, Some(polled));
    var trace := Sweep(polls, Nowhere, answers, 0).1;
    ToReadRises(polls, trace);
    conns := if ready == 0 then [] else ToRead(polls, trace);
    forall c: nat
      ensures Find(known, c) == Find(polls, c)
      ensures c in ToRead(polls, trace) <==> Answered(polls, trace, c)
      ensures Answered(polls, trace, c) <==> c in s.registry && 1 <= polled(c) as int <= 0x7fff && polled(c) & 1 == 1
    {
      ToReadHas(polls, trace, c);
      AnsweredIs(known, polls, s.registry, polled, trace, c);
    }
    if ready == 0 {
      SelectsNone(known, polled);
      forall c: nat
        ensures !(c in s.registry && 1 <= polled(c) as int <= 0x7fff && polled(c) & 1 == 1)
      {
        FindsKey(known, s.registry, c);
        FoundFd(known, c);
      }
    }
  }

  lemma SelectsNone(known: seq<Key<nat>>, polled: int -> bv16)
    ensures Selected(known, Some(polled)).1 == 0 ==> forall i :: 0 <= i < |known| ==> polled(known[i].fd) == 0
  {
    var polls := Selected(known, Some(polled)).0;
    AnsweringNone(polls);
    assert forall i :: 0 <= i < |known| ==> polls[i].revents == polled(known[i].fd);
  }

  lemma ReadsAreReadable(s: Pipe, path: seq<Pipe>, taken: seq<Move>, known: seq<Key<nat>>, left: seq<Key<nat>>,
                         polled: Option<int -> bv16>, answers: nat -> Option<bv16>, inputs: nat -> Input)
    requires Safe(s) && Represents(known, s.registry) && |path| == |taken| + 1
    requires ReaderReads(path, taken, known, left, polled, answers, inputs)
    ensures ReadsReadable(s.registry, known, path, taken, polled, inputs)
  {
    hide Safe, Sweep, Find, ToRead, Fitting, MayReceive, Represents, Answering;
    if polled.Some? {
      var conns := ConnsAre(s, known, polled.value, answers);
      assert |taken| == |conns| && forall i :: 0 <= i < |taken| ==> taken[i].Of? && taken[i].c == conns[i];
      forall c: nat
        ensures (exists i :: 0 <= i < |taken| && taken[i].c == c) <==> c in conns
      {
        if c in conns {
          var i :| 0 <= i < |conns| && conns[i] == c;
          assert taken[i].c == c;
        }
      }
    }
  }

  lemma NoneReadable(s: Pipe, known: seq<Key<nat>>, inputs: nat -> Input)
    ensures ReadsReadable(s.registry, known, [s], [], None, inputs)
  {
  }

  lemma FindsKey(keys: seq<Key<nat>>, m: Registry<nat>, c: nat)
    requires Represents(keys, m)
    ensures var k := Find(keys, c); k <= |keys| && (c in m <==> k < |keys|) && (k < |keys| ==> keys[k].fd == c)
  {
    SameDomain(keys, m, c);
  }

  /** The second half of a round: what is ready is read. */
  method ReadSelected(s: Pipe, known: seq<Key<nat>>, polled: Option<int -> bv16>, answers: nat -> Option<bv16>, inputs: nat -> Input)
    returns (t: Pipe, left: seq<Key<nat>>, ghost path: seq<Pipe>, ghost moves: seq<Move>)
    requires Safe(s) && Represents(known, s.registry)
    ensures Ran(s, t, path, moves) && Represents(left, t.registry) && |path| == |moves| + 1
    ensures ReaderReads(path, moves, known, left, polled, answers, inputs)
    ensures ReadsReadable(s.registry, known, path, moves, polled, inputs)
  {
    hide Safe, Ran, Represents, Reads, Selected, Sweep, ToRead, ReadsReadable;
    var polls := Selected(known, polled);
    SelectedSame(known, polled, s.registry);
    if polls.1 > 0 {
      t, left, path, moves := ReadReadyKeys(s, polls.0, answers, inputs);
    } else {
      t, left, path, moves := s, polls.0, [s], [];
      RanStarts(s);
    }
    RanEnds(s, t, path, moves);
    ReadsAreReadable(s, path, moves, known, left, polled, answers, inputs);
  }

  /** One round of _ReaderRun, with the reader's own list of keys: first its queue, `turns` times; then,
      unless EXIT came, the connections whose keys are ready. `known` are the keys in between. */
  method ReaderRun(s: Pipe, keys: seq<Key<nat>>, polled: Option<int -> bv16>, answers: nat -> Option<bv16>, inputs: nat -> Input)
    returns (t: Pipe, left: seq<Key<nat>>, running: bool,
             ghost path: seq<Pipe>, ghost moves: seq<Move>, ghost turns: nat, ghost known: seq<Key<nat>>)
    requires Safe(s) && Represents(keys, s.registry)
    ensures Ran(s, t, path, moves) && Represents(left, t.registry)
    ensures turns <= |moves| && |path| == |moves| + 1 && ReaderRounds(path[..turns + 1], moves[..turns], running)
    ensures running <==> s.reader.emptied || ExitItem !in s.reader.items
    ensures if s.reader.emptied then turns == 1 else running ==> path[turns].reader.items == []
    ensures Represents(known, path[turns].registry)
    ensures if running then ReaderReads(path[turns..], moves[turns..], known, left, polled, answers, inputs)
            else moves[turns..] == [] && left == known
    ensures ReadsReadable(path[turns].registry, known, path[turns..], moves[turns..], if running then polled else None, inputs)
  {
    hide Safe, Ran, Represents, ReaderRounds, ReaderReads, ReadsReadable;
    t, left, running, path, moves := DrainReaderQueue(s, keys);
    RanEnds(s, t, path, moves);
    turns, known := |moves|, left;
    ghost var way: seq<Pipe>, more: seq<Move> := [t], [];
    if running {
      ghost var mid := t;
      t, left, way, more := ReadSelected(t, left, polled, answers, inputs);
      RanJoins(s, mid, t, path, moves, way, more);
      RanEnds(mid, t, way, more);
    } else {
      NoneReadable(t, known, inputs);
    }
    PathsMeet(path, way);
    MovesMeet(moves, more);
    assert path + [t][1..] == path && moves + [] == moves;
    path, moves := path + way[1..], moves + more;
  }

  lemma MovesMeet(moves: seq<Move>, more: seq<Move>)
    ensures (moves + more)[..|moves|] == moves && (moves + more)[|moves|..] == more
  {
  }

  lemma PathsMeet(path: seq<Pipe>, way: seq<Pipe>)
    requires path != [] && way != [] && path[|path| - 1] == way[0]
    ensures var p := path + way[1..]; p[..|path|] == path && p[|path| - 1..] == way
  {
  }

  // ---------------------------------------------------------------- the worker

  lemma WorkerStep(s: Pipe, t: Pipe, path: seq<Pipe>, moves: seq<Move>)
    requires Ran(s, t, path, moves) && t.serving.None?
    ensures Ran(s, WorkerTurn(t), path + [WorkerTurn(t)], moves + [WorkerMove])
    ensures Dequeue(t.worker).1 == Some(ExitItem) || Dequeue(t.worker).1.None? ==> WorkerTurn(t).serving.None?
    ensures Dequeue(t.worker).1.None? ==> WorkerTurn(t).worker == Dequeue(t.worker).0
    ensures WorkerTurn(t).size == t.size
  {
    hide Safe, Ran;
    RanEnds(s, t, path, moves);
    RanMore(s, t, path, moves, WorkerMove);
  }

  /** The worker keeps an EXIT in its queue until it takes it. */
  lemma ExitStays(s: Pipe)
    ensures ExitItem in WorkerTurn(s).worker.items <==> ExitItem in Dequeue(s.worker).0.items
  {
    hide Vote, ReleasedAll, Without;
    var r := Dequeue(s.worker).1;
    if r.Some? && r.value.EventItem? && Known(s, r.value.source) {
      KeepsExit(Dequeue(s.worker).0.items, IsTask(r.value.source.conn));
    }
  }

  lemma {:induction false} KeepsExit(items: seq<Item>, p: Item -> bool)
    requires !p(ExitItem)
    ensures ExitItem in Without(items, p) <==> ExitItem in items
  {
    if items != [] {
      KeepsExit(items[1..], p);
      assert items == [items[0]] + items[1..];
    }
  }

  /** The buffer of a task, as the READ handler leaves it. */
  function LeftBy(handled: Mem, size: nat): (m: Mem)
    ensures m.size == size && (handled.size == size ==> m == handled)
  {
    if handled.size == size then handled else NewMem(size)
  }

  lemma EndStep(s: Pipe, t: Pipe, path: seq<Pipe>, moves: seq<Move>, left: Mem)
    requires Ran(s, t, path, moves) && t.serving.Some? && left.size == t.size
    ensures Ran(s, WorkerDone(t, left), path + [WorkerDone(t, left)], moves + [WorkerEnds(left)])
    ensures WorkerDone(t, left).worker == t.worker && WorkerDone(t, left).serving.None? && WorkerDone(t, left).size == t.size
  {
    hide Safe, Ran, Released;
    RanMore(s, t, path, moves, WorkerEnds(left));
  }

  /** The rounds of a worker: it takes one item after the other, and ends each task that it takes,
      until a Dequeue gives nothing, or EXIT. */
  ghost predicate WorkerRounds(path: seq<Pipe>, moves: seq<Move>, running: bool) {
    && |path| == |moves| + 1 && moves != [] && moves[|moves| - 1] == WorkerMove
    && (forall i :: 0 <= i < |moves| - 1 ==>
        moves[i].WorkerEnds? || (moves[i].WorkerMove? && Goes(Dequeue(path[i].worker).1)))
    && Dequeue(path[|moves| - 1].worker).1 == Stops(running)
  }

  /** How many tasks were ended. */
  function Ends(moves: seq<Move>): nat {
    if moves == [] then 0 else Ends(moves[..|moves| - 1]) + if moves[|moves| - 1].WorkerEnds? then 1 else 0
  }

  lemma EndsMore(moves: seq<Move>, m: Move)
    ensures Ends(moves + [m]) == Ends(moves) + if m.WorkerEnds? then 1 else 0
  {
    assert (moves + [m])[..|moves|] == moves;
  }

  /** The k-th task's buffer is left as `handled(k)` says. */
  ghost predicate Leaves(moves: seq<Move>, handled: nat -> Mem, size: nat) {
    forall i :: 0 <= i < |moves| && moves[i].WorkerEnds? ==> moves[i].left == LeftBy(handled(Ends(moves[..i])), size)
  }

  lemma LeavesMore(moves: seq<Move>, handled: nat -> Mem, size: nat, m: Move)
    requires Leaves(moves, handled, size) && (m.WorkerEnds? ==> m.left == LeftBy(handled(Ends(moves)), size))
    ensures Leaves(moves + [m], handled, size)
  {
    hide LeftBy, Ends, B.Sound;
    var moves' := moves + [m];
    forall i | 0 <= i < |moves'| && moves'[i].WorkerEnds?
      ensures moves'[i].left == LeftBy(handled(Ends(moves'[..i])), size)
    {
      assert moves'[..i] == moves[..i];
      assert moves[..|moves|] == moves;
    }
  }

  /** The rounds so far: tasks ended, and items taken. */
  ghost predicate WorkerSoFar(path: seq<Pipe>, moves: seq<Move>) {
    && |path| == |moves| + 1
    && forall i :: 0 <= i < |moves| ==> moves[i].WorkerEnds? || (moves[i].WorkerMove? && Goes(Dequeue(path[i].worker).1))
  }

  lemma WorkerGoes(path: seq<Pipe>, moves: seq<Move>, m: Move, u: Pipe)
    requires WorkerSoFar(path, moves)
    requires m.WorkerEnds? || (m.WorkerMove? && Goes(Dequeue(path[|moves|].worker).1))
    ensures WorkerSoFar(path + [u], moves + [m])
  {
    hide Dequeue, Goes;
  }

  lemma WorkerStops(path: seq<Pipe>, moves: seq<Move>, running: bool, u: Pipe)
    requires WorkerSoFar(path, moves) && Dequeue(path[|moves|].worker).1 == Stops(running)
    ensures WorkerRounds(path + [u], moves + [WorkerMove], running)
  {
    hide Dequeue, Goes, Stops;
  }

  /** One item that is neither nothing nor EXIT; a task is ended at once. */
  method WorkerHandles(s: Pipe, from: Pipe, handled: nat -> Mem, n: nat, ghost past: seq<Pipe>, ghost made: seq<Move>)
    returns (t: Pipe, n': nat, ghost path: seq<Pipe>, ghost moves: seq<Move>)
    requires Ran(s, from, past, made) && from.serving.None? && from.size == s.size && Goes(Dequeue(from.worker).1)
    requires WorkerSoFar(past, made) && Leaves(made, handled, s.size) && Ends(made) == n
    ensures Ran(s, t, path, moves) && t.serving.None? && t.size == s.size && |moves| > |made|
    ensures WorkerSoFar(path, moves) && Leaves(moves, handled, s.size) && Ends(moves) == n'
    ensures t.worker == WorkerTurn(from).worker
  {
    hide Safe, WorkerTurn, WorkerDone, Ran, Dequeue, LeftBy, Leaves, Goes, WorkerSoFar, Ends;
    RanEnds(s, from, past, made);
    WorkerStep(s, from, past, made);
    EndsMore(made, WorkerMove);
    LeavesMore(made, handled, s.size, WorkerMove);
    t, n' := WorkerTurn(from), n;
    WorkerGoes(past, made, WorkerMove, t);
    path, moves := past + [t], made + [WorkerMove];
    if t.serving.Some? {
      var left := LeftBy(handled(n), t.size);
      EndStep(s, t, path, moves, left);
      EndsMore(moves, WorkerEnds(left));
      LeavesMore(moves, handled, s.size, WorkerEnds(left));
      t, n' := WorkerDone(t, left), n + 1;
      WorkerGoes(path, moves, WorkerEnds(left), t);
      path, moves := path + [t], moves + [WorkerEnds(left)];
    }
  }

  /** One round of _WorkerRun. It handles everything up to an EXIT, and is false exactly when there was
      one; unless the queue had been emptied before without a Dequeue to report it: then it handles
      nothing. The k-th task's buffer is left as `handled(k)` says. */
  method WorkerRun(s: Pipe, handled: nat -> Mem)
    returns (t: Pipe, running: bool, ghost path: seq<Pipe>, ghost moves: seq<Move>)
    requires Safe(s) && s.serving.None?
    ensures Ran(s, t, path, moves) && WorkerRounds(path, moves, running) && t.serving.None?
    ensures Leaves(moves, handled, s.size)
    ensures running <==> s.worker.emptied || ExitItem !in s.worker.items
    ensures if s.worker.emptied then |moves| == 1 && t.worker == s.worker.(emptied := false)
            else running ==> t.worker.items == []
  {
    hide Safe, WorkerTurn, WorkerDone, Ran, Dequeue, Leaves, WorkerSoFar, WorkerRounds, Ends;
    t, running, path, moves := s, true, [s], [];
    RanStarts(s);
    RanEnds(s, s, path, moves);
    WorkerStarts(s, handled);
    var n := 0;
    var r := Dequeue(t.worker).1;
    DequeueLeaves(t.worker);
    while Goes(r)
      invariant Ran(s, t, path, moves) && path != [] && |path| == |moves| + 1 && path[|moves|] == t
      invariant t.serving.None? && t.size == s.size
      invariant WorkerSoFar(path, moves) && Leaves(moves, handled, s.size) && Ends(moves) == n && r == Dequeue(t.worker).1
      invariant moves == [] ==> t == s
      invariant moves != [] ==> !s.worker.emptied && (t.worker.items != [] ==> !t.worker.emptied)
      invariant !s.worker.emptied ==> (ExitItem in s.worker.items <==> ExitItem in t.worker.items)
      invariant r.Some? ==> !t.worker.emptied && t.worker.items != []
      invariant r.None? ==> t.worker.emptied || t.worker.items == []
      decreases |t.worker.items|
    {
      DequeueLeaves(t.worker);
      WorkerShrinks(t);
      ExitStays(t);
      t, n, path, moves := WorkerHandles(s, t, handled, n, path, moves);
      RanEnds(s, t, path, moves);
      r := Dequeue(t.worker).1;
      DequeueLeaves(t.worker);
    }
    running := r.None?;
    DequeueLeaves(t.worker);
    WorkerStep(s, t, path, moves);
    WorkerStops(path, moves, running, WorkerTurn(t));
    LeavesMore(moves, handled, s.size, WorkerMove);
    ExitIsThere(t.worker);
    t := WorkerTurn(t);
    path, moves := path + [t], moves + [WorkerMove];
  }

  lemma WorkerStarts(s: Pipe, handled: nat -> Mem)
    ensures WorkerSoFar([s], []) && Leaves([], handled, s.size) && Ends([]) == 0
  {
  }

  lemma ExitIsThere(q: QState<Ptr>)
    ensures Dequeue(q).1 == Some(ExitItem) ==> !q.emptied && ExitItem in q.items
  {
  }

  // ---------------------------------------------------------------- the writer

  /** The writer's next round is about output. */
  predicate SendsOutput(t: Pipe) {
    match WriterHead(t)
    case Some(EventItem(OutboundData, p)) => Known(t, p)
    case _ => false
  }

  /** What `send` takes of what there is: `most` bytes at most, or an error. */
  function SendTakes(t: Pipe, chunk: seq<byte>, most: Option<nat>): (took: Option<nat>)
    ensures WriterMay(t, chunk, took)
    ensures took.None? <==> most.None?
    ensures most.Some? ==> took.value <= most.value
    ensures SendsOutput(t) && WriterMay(t, chunk, most) ==> took == most
  {
    if most.None? then None
    else
      match WriterHead(t)
      case Some(EventItem(OutboundData, p)) =>
        if !Known(t, p) then Some(0)
        else
          var room := Room(Refill(t.members[p.conn].conn, chunk).writeBuffer);
          Some(if most.value < room then most.value else room)
      case _ => Some(0)
  }

  lemma WriterStep(s: Pipe, t: Pipe, path: seq<Pipe>, moves: seq<Move>, chunk: seq<byte>, took: Option<nat>)
    requires Ran(s, t, path, moves) && t.resend.None? && WriterMay(t, chunk, took)
    ensures Ran(s, WriterTurn(t, chunk, took), path + [WriterTurn(t, chunk, took)], moves + [WriterMove(chunk, took)])
    ensures !Goes(Dequeue(t.writer).1) ==> WriterTurn(t, chunk, took).resend.None?
  {
    hide Safe, Ran, WriterMay;
    RanMore(s, t, path, moves, WriterMove(chunk, took));
  }

  lemma {:induction false} PostsNoExit(q: QState<Ptr>, items: seq<Item>)
    requires forall x <- items :: !x.ExitItem?
    ensures ExitItem in Post(q, items).items <==> ExitItem in q.items
    decreases |items|
  {
    if items != [] {
      PostsNoExit(Enqueue(q, items[0]).0, items[1..]);
    }
  }

  /** Handling an item puts no EXIT on the writer's queue, and takes none off. */
  lemma WriterPutsNoExit(s: Pipe, chunk: seq<byte>, took: Option<nat>)
    requires WriterMay(s, chunk, took)
    ensures ExitItem in WriterTurn(s, chunk, took).writer.items <==> ExitItem in Dequeue(s.writer).0.items
  {
    hide Vote, Without, MaySend, WriteOutput, Spread, Dequeue, Post;
    var (q, r) := Dequeue(s.writer);
    if r.Some? && r.value.EventItem? && Known(s, r.value.source) {
      var d := r.value.source.conn;
      KeepsExit(q.items, IsEvent(d));
      if r.value.event == OutboundData {
        var (conn, e, again) := WriteOutput(s.members[d].conn, chunk, took, Open(s));
        SpreadWriter(s.(writer := q, resend := if again then Some(d) else None), d, (conn, e));
        PostsNoExit(q, EventsOf(d, e.writer));
      }
    }
  }

  lemma BackStep(s: Pipe, t: Pipe, path: seq<Pipe>, moves: seq<Move>)
    requires Ran(s, t, path, moves) && t.resend.Some?
    ensures Ran(s, BackPut(t), path + [BackPut(t)], moves + [WriterBack]) && BackPut(t).resend.None?
    ensures ExitItem in BackPut(t).writer.items <==> ExitItem in t.writer.items
  {
    hide Safe, Ran;
    RanMore(s, t, path, moves, WriterBack);
  }

  /** How a round of the writer ended. */
  datatype End = Drained | Exited | Unfinished

  /** How many times the writer has dequeued. */
  function Turns(moves: seq<Move>): nat {
    if moves == [] then 0 else Turns(moves[..|moves| - 1]) + if moves[|moves| - 1].WriterMove? then 1 else 0
  }

  lemma TurnsMore(moves: seq<Move>, m: Move)
    ensures Turns(moves + [m]) == Turns(moves) + if m.WriterMove? then 1 else 0
  {
    assert (moves + [m])[..|moves|] == moves;
  }

  /** The rounds of a writer: it takes one item after the other, puts each event back that it did not
      finish, and has not dequeued nothing, or EXIT, before the end. */
  ghost predicate WriterRounds(path: seq<Pipe>, moves: seq<Move>, end: End) {
    && |path| == |moves| + 1
    && (forall i :: 0 <= i < |moves| ==> if path[i].resend.Some? then moves[i] == WriterBack else moves[i].WriterMove?)
    && (forall i :: 0 <= i < |moves| && moves[i].WriterMove? && (end.Unfinished? || i < |moves| - 1) ==>
        Goes(Dequeue(path[i].writer).1))
    && (!end.Unfinished? ==>
        moves != [] && moves[|moves| - 1].WriterMove? && Dequeue(path[|moves| - 1].writer).1 == Stops(end.Drained?))
  }

  /** The k-th round goes by `answers(k)`. */
  ghost predicate WriterAnswers(path: seq<Pipe>, moves: seq<Move>, answers: nat -> (seq<byte>, Option<nat>)) {
    |path| == |moves| + 1 && forall i :: 0 <= i < |moves| && moves[i].WriterMove? ==>
      var (chunk, most) := answers(Turns(moves[..i]));
      moves[i] == WriterMove(chunk, SendTakes(path[i], chunk, most))
  }

  lemma WriterAnswersMore(path: seq<Pipe>, moves: seq<Move>, answers: nat -> (seq<byte>, Option<nat>), m: Move, u: Pipe)
    requires WriterAnswers(path, moves, answers)
    requires m.WriterMove? ==>
      var (chunk, most) := answers(Turns(moves)); m == WriterMove(chunk, SendTakes(path[|moves|], chunk, most))
    ensures WriterAnswers(path + [u], moves + [m], answers)
  {
    hide SendTakes, Turns;
    var path', moves' := path + [u], moves + [m];
    forall i | 0 <= i < |moves'| && moves'[i].WriterMove?
      ensures var (chunk, most) := answers(Turns(moves'[..i])); moves'[i] == WriterMove(chunk, SendTakes(path'[i], chunk, most))
    {
      assert moves'[..i] == moves[..i];
      assert moves[..|moves|] == moves;
    }
  }

  lemma WriterRoundsTurn(path: seq<Pipe>, moves: seq<Move>, m: Move, u: Pipe)
    requires WriterRounds(path, moves, Unfinished) && path[|moves|].resend.None? && m.WriterMove?
    ensures WriterRounds(path + [u], moves + [m], EndOf(Dequeue(path[|moves|].writer).1))
  {
    hide Dequeue;
  }

  lemma WriterRoundsBack(path: seq<Pipe>, moves: seq<Move>, u: Pipe)
    requires WriterRounds(path, moves, Unfinished) && path[|moves|].resend.Some?
    ensures WriterRounds(path + [u], moves + [WriterBack], Unfinished)
  {
    hide Dequeue;
  }

  function EndOf(r: Option<Item>): End {
    if r.None? then Drained else if r == Some(ExitItem) then Exited else Unfinished
  }

  /** One item of the writer, and the event that is put back. */
  method WriterHandles(s: Pipe, from: Pipe, answers: nat -> (seq<byte>, Option<nat>), n: nat,
                       ghost past: seq<Pipe>, ghost made: seq<Move>)
    returns (t: Pipe, end: End, ghost path: seq<Pipe>, ghost moves: seq<Move>)
    requires Ran(s, from, past, made) && from.resend.None? && Turns(made) == n
    requires WriterRounds(past, made, Unfinished) && WriterAnswers(past, made, answers)
    ensures Ran(s, t, path, moves) && t.resend.None? && Turns(moves) == n + 1 && end == EndOf(Dequeue(from.writer).1)
    ensures WriterRounds(path, moves, end) && WriterAnswers(path, moves, answers) && |moves| > |made|
    ensures end.Drained? ==>
      |moves| == |made| + 1 && path[|moves| - 1] == from && t.writer == Dequeue(from.writer).0
    ensures !end.Exited? && ExitItem in t.writer.items ==> ExitItem in from.writer.items
    ensures end.Exited? ==> ExitItem in from.writer.items
  {
    hide Safe, WriterTurn, BackPut, Ran, Dequeue, SendTakes, WriterMay, WriterAnswers, WriterRounds, Turns;
    RanEnds(s, from, past, made);
    var (chunk, most) := answers(n);
    var took := SendTakes(from, chunk, most);
    var r := Dequeue(from.writer).1;
    WriterStep(s, from, past, made, chunk, took);
    WriterPutsNoExit(from, chunk, took);
    DequeueLeaves(from.writer);
    TurnsMore(made, WriterMove(chunk, took));
    end := EndOf(r);
    if r.None? {
      WriterIdle(from, chunk, took);
    }
    t := WriterTurn(from, chunk, took);
    WriterRoundsTurn(past, made, WriterMove(chunk, took), t);
    WriterAnswersMore(past, made, answers, WriterMove(chunk, took), t);
    path, moves := past + [t], made + [WriterMove(chunk, took)];
    if t.resend.Some? {
      BackStep(s, t, path, moves);
      TurnsMore(moves, WriterBack);
      WriterRoundsBack(path, moves, BackPut(t));
      WriterAnswersMore(path, moves, answers, WriterBack, BackPut(t));
      t := BackPut(t);
      path, moves := path + [t], moves + [WriterBack];
    }
  }

  /** One round of _WriterRun. The k-th item is handled with what the WRITE handler puts and `send`
      takes according to `answers(k)`, for `limit` items at most: with an event put back after each
      partial `send` the loop need not end by itself. It ends when a Dequeue gives nothing, or with
      EXIT, and then it returns false; and when the queue had been emptied before without a Dequeue to
      report it, at once. */
  method WriterRun(s: Pipe, answers: nat -> (seq<byte>, Option<nat>), limit: nat)
    returns (t: Pipe, end: End, ghost path: seq<Pipe>, ghost moves: seq<Move>)
    requires Safe(s) && s.resend.None?
    ensures Ran(s, t, path, moves) && WriterRounds(path, moves, end) && WriterAnswers(path, moves, answers) && t.resend.None?
    ensures end.Unfinished? ==> Turns(moves) == limit
    ensures end.Exited? ==> ExitItem in s.writer.items
    ensures end.Drained? ==> !t.writer.emptied && t.writer.items == path[|moves| - 1].writer.items
    ensures s.writer.emptied && limit > 0 ==> end.Drained? && |moves| == 1
  {
    hide Safe, Ran, Dequeue, WriterRounds, WriterAnswers;
    t, end, path, moves := s, Unfinished, [s], [];
    RanStarts(s);
    WriterStarts(s, answers);
    var n := 0;
    while n < limit && end.Unfinished?
      invariant n <= limit && Turns(moves) == n && |path| == |moves| + 1
      invariant Ran(s, t, path, moves) && WriterRounds(path, moves, end) && WriterAnswers(path, moves, answers) && t.resend.None?
      invariant n > 0 <==> moves != []
      invariant !end.Unfinished? ==> moves != []
      invariant moves == [] ==> t == s
      invariant if end.Exited? then ExitItem in s.writer.items
                else ExitItem in t.writer.items ==> ExitItem in s.writer.items
      invariant end.Drained? ==> moves != [] && !t.writer.emptied && t.writer.items == path[|moves| - 1].writer.items
      invariant s.writer.emptied && moves != [] ==> end.Drained? && |moves| == 1
    {
      DequeueLeaves(t.writer);
      t, end, path, moves := WriterHandles(s, t, answers, n, path, moves);
      RanEnds(s, t, path, moves);
      n := n + 1;
    }
  }

  lemma WriterStarts(s: Pipe, answers: nat -> (seq<byte>, Option<nat>))
    ensures WriterRounds([s], [], Unfinished) && WriterAnswers([s], [], answers)
  {
  }

  lemma WriterIdle(t: Pipe, chunk: seq<byte>, took: Option<nat>)
    requires Dequeue(t.writer).1.None? && WriterMay(t, chunk, took)
    ensures WriterTurn(t, chunk, took) == t.(writer := Dequeue(t.writer).0)
  {
  }
}
