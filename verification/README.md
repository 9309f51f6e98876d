# A model of the aio4c pipe

aio4c is an asynchronous network I/O library in C. An acceptor hands each connection to a pipe: a
reader, a worker and a writer thread joined by FIFO queues. This project models the library from its
containers to that protocol and proves what holds of it in every run.

| files | what they are |
|---|---|
| `Lists.dfy` | the intrusive doubly linked list, on the heap |
| `QueueModel.dfy`, `Queues.dfy` | the recycling queue: as a value with theorems about every run, and as a class over two lists proved against it |
| `EventModel.dfy`, `Events.dfy` | the handlers and their lists, one for each event, likewise |
| `SelectorModel.dfy`, `Selectors.dfy` | the selector: reference-counted map, resumable sweep; and the class with its `polls` array and key lists |
| `BufferModel.dfy`, `PoolModel.dfy`, `Buffers.dfy` | byte buffers and their pool, likewise |
| `Connections.dfy`, `ConnectionObjects.dfy` | the connection with its ownership flags, states and system handlers: as a value, and as a class |
| `Lives.dfy` | one connection in its pipe as a transition system |
| `Reactions.dfy`, `Invariants.dfy`, `Closing.dfy`, `Streams.dfy` | what its steps do and keep |
| `Endings.dfy`, `Outcomes.dfy` | how a life goes on after a close, and when the close leaves nothing behind |
| `Pipes.dfy` | a pipe with any number of connections, its four queues, buffer pool and selector |
| `Projection.dfy`, `Refinement.dfy`, `Holdings.dfy` | each step of the pipe is a step of one connection or of none; what the pipe holds |
| `Runs.dfy`, `Realization.dfy` | every run of the pipe keeps all this and follows the connections' lives; and every step of a life is brought about by moves of the pipe |
| `Theorems.dfy`, `Freeing.dfy`, `Arrivals.dfy` | what holds in every reachable state, for every connection; when a connection is freed and what is left of it; when its input stays in order |
| `Hazards.dfy` | runs of a new pipe in which the code does not keep its promises |
| `Threads.dfy` | the loops of the three threads, as runs of the pipe |

One queue operation, one dispatch of an event, and the handling of one dequeued item are atomic steps,
taken by the managing thread, the reader, the worker, the writer and the users in any order. The results
of `recv`, `send` and `poll` and what the users' handlers do are arbitrary inputs within their contracts.

The class methods are proved against functions on values (`View()` is the abstraction), and the theorems
about runs are proved of these functions. Fields of `Log` record what was observed (votes, bytes sent and
received, interests) and are no fields of the source.

Promises that the code keeps only under a condition, with the exact condition and runs that break it:

- A close leaves nothing behind: `Freeing.CloseIsCleanExactlyWhen`. A close before CONNECTED is undone by the
  hand-over (`Hazards.EarlyCloseIsUndone`) or frees the connection under it (`Hazards.FreedDuringHandOver`); an
  EXIT on the reader's queue leaves the key (`Hazards.ExitKeepsKey`). A graceful close after CLOSED always
  revives the connection: `Freeing.GracefulCloseRevives`, `Hazards.GracefulCloseAfterFree`.
- A closed connection is freed: with all four CLOSE handlers installed, `Freeing.FreedIfWriterOpen`,
  `Hazards.ExitLosesClose`; before that, as long as it stays CLOSED, never: `Freeing.EarlyCloseFreesNothing`. After a
  well-timed close the free stays within reach of the threads alone: `Freeing.FreeIsReachable`.
- A graceful close sends the output first: `Theorems.ShutdownExactlyWhen`, `Theorems.GracefulCloseShutsDown`,
  `Hazards.ShutdownTooSoon`. Without a write interest the sending end is never shut down.
- At CONNECTED everything is in place: `Theorems.CompleteExactlyWhen`, a condition on the closes before it; what it looks
  like in the state itself is `Theorems.ConnectedIsHandedOver`. `Hazards.ConnectedAfterFree` enters CONNECTED with the
  connection freed and its key gone.
- The READ handler gets the input in order: `Arrivals.InputIsInOrder`, `Arrivals.CloseKeepsOrderExactlyWhen`,
  `Hazards.FirstInputIsLost`.
- `BufferGetString` with nothing remaining gives the empty string: `BufferModel.GetStringEmptyExactlyWhen`.

Where the code and its documentation disagree (the graceful close, and `BufferGetString`) the model follows
the code.

## Model

| member | source | states |
|---|---|---|
| `Lists.List.AddAfter` | src/list.c:69-80 | inserts the new node right behind the given one: the node sequence is the old one with it at that position, and every first/last/prev/next agrees with the sequence |
| `Lists.List.AddBefore` | src/list.c:82-93 | the same for the position before the given node |
| `Lists.List.AddFirst` | src/list.c:95-112 | the new node becomes the head of the sequence; both `abort()`s are unreachable |
| `Lists.List.AddLast` | src/list.c:114-128 | the new node becomes the end of the sequence; both `abort()`s are unreachable |
| `Lists.List.Remove` | src/list.c:154-177 | the sequence loses exactly that node, which ends up unlinked; both `abort()`s are unreachable for a node of this list |
| `Lists.List.Pop` | src/list.c:130-148 | takes the head, or gives NULL for the empty list; both `abort()`s are unreachable |
| `Lists.PopTo` | src/list.c:130-148 | popping one list onto the end of another moves one node and touches nothing else, when the two share no node |
| `Lists.RemoveTo` | src/list.c:154-177 | the same for removing a node in the middle |
| `Queues.Queue.Dequeue` | src/queue.c:126-162 | true exactly if `emptied` is clear and something is present: then it gives the oldest item, recycles its node, and sets `emptied` exactly if nothing is left; a false one changes no item and leaves `emptied` clear |
| `Queues.Queue.Enqueue` | src/queue.c:185-220 | refuses after EXIT, else appends the item in a recycled node if there is one; EXIT sets the latch |
| `Queues.Queue.RemoveAll` | src/queue.c:292-316 | the walk-and-remove loop leaves exactly the order-preserving filter of the items, each as often as before, moves the other nodes to the free list, and reports whether there were any |
| `QueueModel.QueueRefinesFifo` | src/queue.c:126-220 | over every run: true Dequeues deliver exactly the accepted, unremoved items in FIFO order and false ones lose nothing; at most one EXIT is accepted and nothing after it; the number of busy and free nodes is the highest number ever busy; `emptied` is set exactly if the last Dequeue took the last item, and the false Dequeues that found items are exactly the emptyings whose report is neither pending nor came with nothing present |
| `QueueModel.TakeFailsExactlyWhen` | src/queue.c:131-153 | in every run: a Dequeue is false if and only if nothing is present or the Dequeue before it delivered the only item there was, whatever was put since |
| `QueueModel.RemoveAllAnswers` | src/queue.c:292-316 | the answer is true if and only if some item matched; exactly the matching items go, and neither flag and no node is touched |
| `QueueModel.ExitIsDeliveredLast` | src/queue.c:185-220 | when EXIT is delivered, everything accepted before it was delivered or removed and nothing is left |
| `QueueModel.DrainDeliversAll` | src/buffer.c:181-184 | the loop of FreeBufferPool delivers every queued buffer if and only if `emptied` is clear or the queue is empty; with the flag set it delivers nothing and the next such loop delivers everything |
| `QueueModel.SelectMarkOldest` | src/queue.c:148-154 | delivering the oldest pending item moves it from the head of the pending ones to the end of the delivered ones |
| `QueueModel.WithoutAppend` | src/queue.c:301-311 | filtering is done piecewise, which is what makes the walk equal to the filter |
| `Events.HandlerList.Add` | src/list.c:114-128 | a handler goes to the end of its list |
| `Events.HandlerList.Handle` | src/event.c:97-115 | each handler is called exactly once, in registration order, and precisely the handlers that are not once-only stay |
| `Events.HandlerList.RemoveCallback` | src/event.c:117-134 | precisely the handlers with another callback stay |
| `Events.EventQueue.Add` | src/event.c:92-95 | a handler goes to the list of its own event, behind those that were added for it; no other list changes |
| `EventModel.CodesDiffer` | include/aio4c/event.h:42-51 | different events have different lists |
| `Events.EventQueue.Remove` | src/event.c:117-134 | precisely the handlers of that event with that callback go |
| `Events.EventQueue.Handle` | src/event.c:97-115 | exactly the handlers that were added for this event are called, in the order in which they were added, and of them the once-only ones go; the handlers of every other event stay |
| `Events.EventQueue.Copy` | src/event.c:136-151 | behind the handlers that are there come those of the source, one by one and in order, each with the event, the callback and the `once` of its original; with the given data if there is one, and else with the original's own; the source queue does not change |
| `EventModel.UnspentOf` | src/event.c:97-115 | seen event by event, a dispatch drops the once-only handlers of its own event and leaves every other list as it was |
| `EventModel.InstalledIsCalledWhenDue` | src/event.c:92-134 | over every run of installing, dispatching and removing: each installed handler is called exactly as often as it is due |
| `EventModel.CalledWhenDue` | src/event.c:97-115 | the same from any state, and every dispatch calls in the order of registration |
| `EventModel.OnceFiresAtMostOnce` | src/event.c:105-110 | over every run a once-only handler is called at most once, however often its event occurs |
| `Selectors.Selector.Register` | src/selector.c:345-433 | a known fd gets one registration more and keeps its operation and attachment, a new one gets the last key, recycled or new, with count 1 and nothing ready; no other key changes; the poll mirror is kept (the k-th busy key has `poll == k + 1`, its slot carries its fd and operation, slot 0 stays the wake-up pipe, `numPolls` and `maxPolls` count busy and all keys) |
| `Selectors.Selector.Unregister` | src/selector.c:435-492 | the key goes exactly if everything is unregistered or this was its last registration, and `isLastRegistration` says so; else its count is one less; the survivors keep their order, their unconsumed `revents` and the poll mirror, and `curKey` stays |
| `Selectors.Selector.CloseGap` | src/selector.c:468-481 | the in-place shift with its nested renumbering loop moves every later slot and key down by one |
| `Selectors.Selector.SelectionKeyReady` | src/selector.c:696-814 | from no current key: true exactly if some key's `revents`, a signed short, are positive; then it gives the first such key, whose `result` they become, and clears them; from a key that is gone it answers false; in every case one step of the resumable sweep; the lock is released except on the path with no busy key |
| `Selectors.Selector.HandleReady` | src/reader.c:110-116 | the loop over SelectionKeyReady terminates and ends without a current key; from no current key it gives exactly the keys whose `revents` are positive, and leaves no positive `revents`, for any list of keys, also the empty one |
| `SelectorModel.RegisterRefinesMap` | src/selector.c:355-432 | Register refines the reference-counted map from fd to operation, attachment and count |
| `SelectorModel.UnregisterRefinesMap` | src/selector.c:441-466 | Unregister refines removal or decrement in that map, with the same answer |
| `SelectorModel.RunRefinesMap` | src/selector.c:345-492 | over every run of requests the key list stays the map, and both give the same answers |
| `SelectorModel.RegisteredAsRequested` | src/selector.c:345-492 | over every run of requests: a descriptor is registered exactly as often as the requests leave it, for the operation and with the attachment of the request that found it unregistered; and a drop answers true exactly if nothing is left |
| `SelectorModel.SweepReturnsReadyKeys` | src/selector.c:696-814 | from no current key, calling until false returns exactly the keys whose `revents` are in 1..0x7fff, in list order, none more often than it is registered, a once-registered one once; it clears the `revents` of those keys and touches no others, so that none is positive in the end |
| `SelectorModel.SweepProceeds` | src/selector.c:714-775 | at each key the sweep stays exactly while the key has registrations left and the next re-poll answers its operation; a key that is left holds as its result its `revents` or the last re-poll's, and its count starts over exactly if all registrations were used; no other key changes |
| `SelectorModel.KeyReadyAfresh` | src/selector.c:777-807 | one call without a current key returns the first key with positive `revents` and consumes them, or answers false if there is none |
| `SelectorModel.KeyReadyResumes` | src/selector.c:714-775 | one call at a key returned before, in any state: that key again, or the first with positive `revents` from the next key on; from the key itself after a failed re-poll, from the first key behind the last |
| `SelectorModel.SweepIsBounded` | src/selector.c:714-775 | the true results are at most the sum of the registration counts, whatever the re-polls answer |
| `SelectorModel.TrueMakesProgress` | src/selector.c:714-803 | every true result uses up a ready key or one of the current key's registrations |
| `Buffers.Buffer.Flip` | src/buffer.c:196-201 | limit becomes the position, position becomes 0 |
| `Buffers.Buffer.SetPosition` | src/buffer.c:203-212 | accepted exactly up to the limit, any negative position included; the marks stay in range if and only if it was refused or not negative |
| `Buffers.Buffer.SetLimit` | src/buffer.c:214-223 | accepted exactly up to the capacity, any negative limit included; the marks stay in range if and only if it was refused or not negative |
| `Buffers.Buffer.Reset` | src/buffer.c:225-231 | the bytes within the capacity are zeroed in place, the marks reset |
| `Buffers.Buffer.CopyFrom` | src/buffer.c:233-239 | the copy holds the remaining bytes of the source |
| `Buffers.Buffer.Get` | src/buffer.c:245-259 | the next bytes, or false and no change on underflow |
| `Buffers.Buffer.Put` | src/buffer.c:276-290 | the bytes go to the position, or false and no change on overflow |
| `Buffers.Buffer.GetString` | src/buffer.c:261-274 | the scan stops inside the array; what the returned pointer shows, the new marks and the terminators written are those of the value model |
| `Buffers.Buffer.PutString` | src/buffer.c:292-309 | the string and its terminator are written if they fit, else nothing is |
| `BufferModel.GetTakes` | src/buffer.c:245-259 | a BufferGet succeeds if and only if that much is left before the limit, gives exactly those bytes and moves past them; refused, it changes nothing |
| `BufferModel.PutPlaces` | src/buffer.c:276-290 | a BufferPut succeeds if and only if the bytes fit before the limit, puts them at the position and nowhere else; refused, it changes nothing |
| `BufferModel.GetStringExactly` | src/buffer.c:261-274 | for every position and limit: the string ends before the first zero from the position on; if that comes before the limit it is consumed and nothing is written, else two zeros are written at the limit and the position goes there |
| `BufferModel.RunsKeepSound` | src/buffer.c:196-309 | whatever is done to a new buffer with positions and limits that are not negative, and PutString only where the position is within the limit: both marks stay within the capacity and the two bytes past it stay zero, so that no string read scans or writes outside the array |
| `BufferModel.CopyTakesContent` | src/buffer.c:233-239 | a copy has position 0 and exactly the source's remaining bytes before its limit |
| `BufferModel.GetStringReadsRemaining` | src/buffer.c:261-274 | while position <= limit: the bytes up to the first zero, which is consumed, or all that remain, and then the position is the limit |
| `BufferModel.GetStringEmptyExactlyWhen` | include/aio4c/buffer.h:536-537 | with nothing remaining the documentation promises an empty string; that holds if and only if the position is at most one past the limit or the byte there is zero |
| `BufferModel.GetStringCanBeStale` | src/buffer.c:261-274 | a run of three calls after which the string read is a stale byte |
| `BufferModel.PutAllAppends` | src/buffer.c:276-309 | a list of blocks and strings is written if and only if its encoding fits, right behind one another |
| `BufferModel.GetAllReads` | src/buffer.c:245-274 | reading at the start of such an encoding gives the values back |
| `BufferModel.SerialisationRoundTrip` | src/buffer.c:196-309 | what fits is written, and after BufferFlip the matching gets return the same values and end at position == limit |
| `Buffers.BufferPool.Allocate` | src/buffer.c:115-149 | never NULL; the buffer is zeroed with position 0 and limit = size, comes off the front of the pool, and is handed out to nobody else |
| `Buffers.BufferPool.Release` | src/buffer.c:151-173 | the buffer is reset and goes to the end of the pool; the buffers ever made stay a whole number of batches |
| `PoolModel.AllocateSucceeds` | src/buffer.c:115-149 | for every state of the pool: after a false Dequeue the refill makes the second one succeed, and nothing but the buffer handed out leaves the pool |
| `ConnectionObjects.Connection.NoMoreUsed` | src/connection.c:549-573 | the flag loop: true exactly for the vote that completes the set, which is then cleared |
| `ConnectionObjects.Connection.SetManagedBy` | src/connection.c:575-598 | the flag loop: the call that completes the set enters CONNECTED |
| `ConnectionObjects.Connection.SetState` | src/connection.c:187-260 | nothing in the same state; else the permissions of the new state and the dispatch of its event |
| `ConnectionObjects.Connection.Dispatch` | src/event.c:97-115 | the loop over the handlers composes their effects in order and drops the once-only ones |
| `ConnectionObjects.Connection.Call` | src/worker.c:195-223 | the bodies of the five system handlers, with what each does when its queue refuses |
| `ConnectionObjects.Connection.ReadFrom` | src/connection.c:412-457 | every outcome of `recv`: overflow, error, end of stream, input that is not allowed, input |
| `ConnectionObjects.Connection.WriteTo` | src/connection.c:474-525 | every outcome of `send`, the request for a new chunk, the shutdown after a graceful close |
| `ConnectionObjects.Connection.CloseBy` | src/connection.c:537-547 | a forced close enters CLOSED, a graceful one PENDING_CLOSE |
| `ConnectionObjects.Connection.WantToWrite` | src/connection.c:527-535 | dispatches OUTBOUND_DATA if writing is allowed, else the interest is lost |
| `Connections.DispatchClose` | src/connection.c:250-254 | CLOSE calls every installed handler once, acceptor first, and leaves none installed |
| `Connections.DispatchOther` | src/connection.c:181-185 | any other event reaches one system handler at most |
| `Connections.EnteringTells` | src/connection.c:187-260 | entering a state gives exactly that state's permissions to read and to write, calls exactly the handlers installed on that state's own event, and drops no others than the once-only ones of that event |
| `Connections.HandlersAct` | src/worker.c:195-223 | what each of the five handlers does on any event in any state: which queue gets the event, who votes instead if it is refused, that only CLOSE purges the acceptor's queue, and that input is copied up to the read position on INBOUND_DATA only and not from a CLOSED connection |
| `Reactions.ClosedReaction` | src/connection.c:250-254 | entering CLOSED: the acceptor's handler purges its queue and votes, each other handler puts one event on its queue or, refused, votes (reader, worker) or loses it (writer) |
| `Reactions.PendingReaction` | src/connection.c:245-249 | entering PENDING_CLOSE reaches the reader's handler once |
| `Reactions.ManagedReaction` | src/connection.c:575-598 | only the vote that completes the set changes the state |
| `Reactions.InboundReaction` | src/worker.c:195-223 | INBOUND_DATA moves what was read into one task and empties the read buffer; a refused task is dropped |
| `Reactions.InterestReaction` | src/writer.c:190-196 | a write interest puts one event on the writer's queue once its handler is installed |
| `Reactions.VoteCounts` | src/connection.c:549-573 | a vote of the reader, the worker or the writer keeps the count of votes right, and frees only when it is the last |
| `Reactions.AcceptorCounts` | src/acceptor.c:274-288 | the acceptor votes before the worker can, and so frees nothing |
| `Reactions.CopyHoldsInput` | src/worker.c:205-214 | flip, copy and reset hand over exactly the bytes read |
| `Invariants.SentReaction` | src/connection.c:491-524 | one ConnectionWrite keeps `sent` followed by what is left equal to what was put |
| `Invariants.TookOutbound` | src/writer.c:85-91 | an OUTBOUND event either closes the connection or is handled completely, or is put back; the underflow branch of ConnectionWrite is never taken |
| `Invariants.TookData` | src/reader.c:75-81 | the reader takes a connection on that it did not manage yet: key, vote and load |
| `Invariants.TookEvent` | src/reader.c:82-97 | CLOSE always finds the read key registered |
| `Invariants.TookWorkerClose` | src/worker.c:98-106 | CLOSE drops the connection's tasks and votes |
| `Invariants.TookWriterClose` | src/writer.c:92-99 | CLOSE drops the connection's events and votes |
| `Invariants.HookAdded` | src/reader.c:220-221 | each step of the hand-over installs its handler at the end of its event's list |
| `Invariants.NewbornIs` | src/connection.c:141-179 | a new server connection: client already counted as closed, acceptor and client as managers, only the acceptor's CLOSE handler, an empty write buffer |
| `Invariants.BaseKeeps` | src/connection.c:187-598 | every step of every thread keeps flags, managers, handlers, votes and the forms of the queues right |
| `Closing.CourseKeeps` | src/connection.c:187-260 | every step keeps the course of the states: unless CLOSED came first, CONNECTED precedes CLOSED, which is final but for a graceful close after it |
| `Closing.TokensKeeps` | src/reader.c:203-212 | every step keeps, EXITs included: a CLOSE handler of the reader or the worker that was called is a pending event or a vote; the writer's too, and each exactly one of the two, while its queue is open; the reader's vote then means that its key is gone |
| `Streams.StreamsKeeps` | src/worker.c:86-97 | every step keeps the accounts of the bytes received and of the write interests |
| `Streams.GoodKeeps` | src/connection.c:187-598 | all of these together |
| `Endings.OnwardKeeps` | src/writer.c:75-108 | every step: whether the writer hears of the close is settled when CLOSE is dispatched, and while closing gracefully an event is handled completely exactly when there is one shutdown more |
| `Endings.FitKeeps` | src/acceptor.c:259-288 | every step but a graceful close, EXITs included, keeps a well-timed close in order: whoever has voted has nothing about the connection left |
| `Outcomes.FirstClose` | src/connection.c:412-547 | CLOSED is first entered by a forced close, a read that fails or ends, or a write that fails or is not allowed, and by no other step; what it then does is one dispatch of CLOSE |
| `Outcomes.StepTells` | src/connection.c:181-185 | every step: the closing handlers of the reader, the worker and the writer stay uncalled exactly until a step enters a closing state with one of them installed for it |
| `Outcomes.CloseFits` | src/connection.c:250-254 | a well-timed close puts every owner in a position to let go completely |
| `Outcomes.Spoils` | src/reader.c:203-226 | after an ill-timed close the steps of the threads alone lead to a state with something left, a CONNECTED one, or one never freed |
| `Projection.SpreadIs` | src/queue.c:292-316 | a dispatch changes the queues for its own connection only, also through RemoveAll and refused items |
| `Projection.AllocatedIs` | src/buffer.c:115-149 | the shared pool hands out a buffer that is as good as new |
| `Refinement.ReaderLived` | src/reader.c:70-102 | a round of the reader's loop is one step of the connection it concerns, or of none |
| `Refinement.WorkerLived` | src/worker.c:81-110 | the same for the worker's loop |
| `Refinement.WriterLived` | src/writer.c:75-108 | the same for the writer's loop |
| `Refinement.ManageLived` | src/acceptor.c:244-250 | the same for each step of the hand-over |
| `Holdings.LoadedKeeps` | src/reader.c:75-90 | every step keeps the load equal to the number of registered keys |
| `Holdings.OwnedKeeps` | src/worker.c:62-106 | every step, RemoveAll and refused tasks included, keeps each buffer in one place |
| `Realization.Realize` | src/queue.c:126-162 | from every safe state, each step that a connection's life allows is brought about by moves of the threads, whatever is queued about other connections |
| `Realization.LivesAreReached` | src/acceptor.c:240-250 | every life without reads, from the accept on, is lived in some run of a new pipe |
| `Theorems.StepsAreLives` | src/reader.c:63-123 | in every reachable state, whatever step the pipe takes, each of its connections takes one step of its own life or none |
| `Theorems.LivesAreSteps` | src/reader.c:63-123 | and conversely: in every reachable state, each step that a connection's life allows is brought about by some moves of the pipe, none of them a close or an interest of another connection |
| `Freeing.FreedAtMostOnce` | src/connection.c:549-573 | in every run a connection is freed at most once, exactly when its four owners have voted, and not by the acceptor |
| `Freeing.FreedExactlyWhen` | src/connection.c:549-573 | in every run: freed only when the last CLOSE handler had been installed and none is left; the converse too, once no CLOSE event is queued, unless the writer's queue has seen an EXIT; the last to vote frees, unless the reader's has |
| `Freeing.ClosedIsFreed` | src/connection.c:549-573 | in every run a connection closed after CONNECTED has been freed exactly once as soon as its CLOSE events are handled, unless the writer's queue has seen an EXIT |
| `Freeing.FreedIfWriterOpen` | src/writer.c:190-196 | closed with all four CLOSE handlers installed, that is from the ninth step of the hand-over on, whatever happens later: once the CLOSE events are handled it has been freed, once, if and only if the writer's queue was open when CLOSE was dispatched |
| `Freeing.EarlyCloseFreesNothing` | src/writer.c:198-202 | closed before the writer's CLOSE handler is installed: as long as it stays CLOSED it is not freed, whatever happens |
| `Freeing.FreeIsReachable` | src/connection.c:549-573 | after a well-timed close, from every continuation without a graceful close, EXITs included: there are moves of the three threads alone after which it has been freed exactly once and nothing names it |
| `Freeing.NothingLeftBehind` | src/acceptor.c:259-288 | after a well-timed close, in every continuation without a graceful close, EXITs included: freed exactly when no CLOSE is queued, and then no queue, neither thread and no selector key names the connection, and its hand-over is complete |
| `Freeing.CloseIsCleanExactlyWhen` | src/reader.c:203-226 | a close leaves nothing behind in every such continuation if and only if every owner managed the connection, the reader's and the writer's queues were open, and so was the worker's or it had nothing to do for the connection |
| `Freeing.GracefulCloseRevives` | src/connection.c:245-249 | in every run a graceful close of what is closed and freed allows writing again, queues an event for the reader if and only if its queue is open and its handler uncalled, and lets an interest queue one for the writer if and only if its queue is open |
| `Theorems.ConnectedOnce` | src/connection.c:575-598 | in every interleaving CONNECTED is entered at most once, and was entered if and only if every owner manages the connection |
| `Theorems.ConnectedIsHandedOver` | src/reader.c:214-226 | in every run a CONNECTED connection has its read key and all six system handlers if and only if none of its close handlers was called; with the reader's queue open the key is there if and only if the reader has not handled its CLOSE |
| `Theorems.CompleteExactlyWhen` | src/connection.c:245-254 | in every run: a CONNECTED connection has its read key and all six system handlers if and only if each close before, forced or graceful, found none of the handlers of the reader, the worker and the writer for it installed |
| `Theorems.ConnectingIsComplete` | src/writer.c:198-202 | the step that makes an INITIALIZED connection CONNECTED, whichever thread takes it, finds the read key and all six handlers there |
| `Theorems.InterestsAreAnswered` | java/com/aio4c/Connection.java:119-122 | until CLOSED or EXIT: accepted interests == waiting events + WRITE dispatches - (1 if bytes are left), and bytes left mean a waiting event; with none waiting, WRITE ran exactly once per interest and everything put was sent |
| `Theorems.InterestIsAccepted` | src/connection.c:527-535 | in a CONNECTED connection a write interest is accepted and adds one waiting event |
| `Theorems.OutputIsWhatWasPut` | src/connection.c:487-525 | in every run, errors and closes included: the bytes sent followed by those left are the chunks put, and a new chunk is asked for only when all were sent |
| `Theorems.ShutdownExactlyWhen` | src/connection.c:518-522 | in every run a round of the writer about a connection in PENDING_CLOSE shuts the sending end down if and only if `send` takes all there is; then one event less waits, so it comes too soon exactly if more than one waited |
| `Theorems.GracefulCloseShutsDown` | src/connection.c:474-535 | in every run from PENDING_CLOSE after CONNECTED until CLOSED or EXIT: shutdowns + waiting events == events waiting at first + interests accepted since; so with none waiting, a shutdown happened if and only if one waited at first or was accepted since |
| `Theorems.InputIsDelivered` | src/connection.c:412-457 | in every run: the bytes given to the READ handler followed by the queued tasks are the bytes received, until tasks are given up, and their beginning after that unless CLOSED was entered before CONNECTED (`Hazards.FirstInputIsLost`); the read buffer is empty with full capacity at every read, so that overflow needs capacity 0 |
| `Theorems.AcceptorHolds` | src/acceptor.c:244-288 | in every run: from the first step of its hand-over until the acceptor hears of its CLOSE a connection is on the acceptor's queue exactly once, and before that step not at all |
| `Arrivals.InputIsInOrder` | src/worker.c:86-97 | in every run, early closes included: as long as the worker has not voted, what was delivered and what is queued is the beginning of what was received, and all of it while reading is allowed, the key is there and the worker's queue is open |
| `Arrivals.CloseKeepsOrderExactlyWhen` | src/worker.c:98-106 | when the worker handles the CLOSE of a connection: its input stays in order in every continuation if and only if no input is queued, or reading is not allowed, or the key is gone, or the worker's queue has seen an EXIT |
| `Arrivals.OrderKeeps` | src/connection.c:412-457 | every step but the worker's CLOSE keeps what was delivered and queued the beginning of what was received, with nothing missing while more can be queued |
| `Theorems.BuffersAreOwnedOnce` | src/worker.c:62-106 | in every run each pool buffer is in the pool, in one task, or being processed, exactly once; the total is a multiple of the batch size; pooled buffers are zeroed with full limits |
| `Theorems.LoadCountsKeys` | src/reader.c:70-98 | in every run the load is non-negative and equals the number of keys in the selector |
| `Hazards.EarlyCloseIsUndone` | src/connection.c:187-249 | a run of a new pipe in which a connection closed before its hand-over becomes CONNECTED afterwards and is not freed |
| `Hazards.FreedDuringHandOver` | src/writer.c:198-202 | a run without EXIT in which a connection is freed while the managing thread still has its last step about it to do |
| `Hazards.ConnectedAfterFree` | src/writer.c:198-202 | that run with its last step taken: without EXIT, a freed connection becomes CONNECTED with its key gone and not all six handlers there |
| `Hazards.ExitKeepsKey` | src/reader.c:203-212 | a run in which, after an EXIT on the reader's queue, a connection is freed with its key still in the selector |
| `Hazards.GracefulCloseAfterFree` | src/connection.c:245-249 | a run in which a connection is freed with nothing left, and a graceful close then queues an event about it and lets it be written |
| `Hazards.ExitLosesClose` | src/writer.c:190-196 | a run in which an EXIT on the writer's queue makes the close of a CONNECTED connection leave no CLOSE event, no CLOSE handler and no free |
| `Hazards.ShutdownTooSoon` | java/com/aio4c/Connection.java:126-131 | a run, for every chunk, in which a graceful close shuts the sending end down with one of two accepted interests still waiting, against the documentation |
| `Hazards.FirstInputIsLost` | src/worker.c:98-106 | a run without EXIT, for any two inputs that fit: a connection closed in its hand-over becomes CONNECTED, its first input is dropped by the late CLOSE and the second is delivered |
| `Threads.ReaderRun` | src/reader.c:63-123 | the first loop takes one item after the other until nothing or EXIT and empties the queue, unless `emptied` was set; false if and only if EXIT was there, and then nothing is read; else exactly the registered connections for which `poll` answered a positive value with the bit of OP_READ are read, each once, in the order of the key list, with the given results of `recv`; the key list stays the pipe's registry |
| `Threads.ReadsAreReadable` | src/selector.c:104-106 | the second loop reads a connection if and only if it is registered and `poll` answered a positive value with the bit of OP_READ; none if every answer is 0 or `poll` failed |
| `Threads.WorkerRun` | src/worker.c:75-115 | takes one item after the other, ends each task at once, stops with nothing or EXIT, empties the queue unless `emptied` was set, and is false if and only if EXIT was there; no other moves |
| `Threads.WriterRun` | src/writer.c:69-113 | takes one item after the other, as the answers say, puts back each event that is not finished and no other, stops with nothing or EXIT or after the given number of items; no other moves |

## Left out

- Blocking waits, condition variables and locks: each queue operation and each dispatch is one step; races finer than that are not excluded by the code.
- Threads.WorkerRun: a Dequeue that would block counts as failed, so the loop ends where the source sleeps inside it.
- Threads.WriterRun: termination is bounded by the given answers, because a `send` that never takes everything makes the source's loop endless.
- Threads.ReaderRun: the reader's keys are a list of values here, kept equal to the pipe's registry; the selector on the heap is `Selectors.Selector`, whose loop `HandleReady` returns the keys of the same sweep.
- Queues.Queue.Dequeue: without the argument `wait`: a call that would block until an item comes is one that gives nothing, and its second look at the queue after the wait is a later call.
- Buffers.Buffer.PutString: requires a position within the limit, because with one past it the source hands `memchr` a negative size.
- Lists.List.AddAfter: requires a node of this list and a new node of no list, as every caller in the source provides.
- Freeing.NothingLeftBehind: not claimed for ill-timed closes, where `Freeing.CloseIsCleanExactlyWhen` shows it false, nor past a graceful close of the closed connection, which `Freeing.GracefulCloseRevives` shows to undo it.
- Theorems.InterestsAreAnswered: an interest that is not accepted (writing not allowed, handler not installed, EXIT) is lost in the source too and is not counted.
- Theorems.InputIsDelivered: input that arrives while reading is not allowed is thrown away by the source and is not counted as received.
- Pipes: the state of a pipe is a value that the loops of `Threads.dfy` replace; the containers, buffers and connections that it is made of are objects in their own files, proved against the same functions, but a heap in which they all point to one another is not modelled.
- Pipes: descriptors are not reused; a connection and its descriptor have the same number.
- Pipes: one pipe and the acceptor; choosing the least loaded reader (`src/acceptor.c:176-187`) would only add an easy member.
- Connections: the users' handlers are steps of their own, and callbacks do not re-enter the list that is being walked; the names, error records and `closedForError` of a connection are not modelled.
- Connections: a dispatch makes at most one task, because a connection has one such handler; with two the model would keep the later copy.
- Failing allocations and the half-built states they leave.
- The body of `_Select`, sockets, wake-up pipes, address resolution, the `select` fallback and the Windows variants: only their contracts appear.
- The client's connect, retry and free path (`src/client.c`).
- `_AcceptorExit`, `FreeConnection`, `FreeQueue`, `FreeSelector` and the order in which threads are joined.
- Widths of `int`: positions, limits and counts stay below the capacity or the number of keys, so they are unbounded integers here.
- Logging, statistics, JNI and the Java wrappers.
