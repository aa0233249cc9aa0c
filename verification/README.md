# Bench4Cpp: the reactor, verified

Bench4Cpp benchmarks a web server with many concurrent connections. It is a muduo-style
reactor: a base loop makes connections and keeps the connection map, a pool of I/O loops
reads and writes them, and the loops talk by queueing functors. Every loop waits in
`epoll_wait` and is woken through an eventfd. This project models that reactor, its buffer
and its command-line parser in Dafny, and proves what each step keeps and what holds in
every run.

## How the model is built

- `Kernel.dfy`: descriptors, the epoll interest set and `epoll_ctl`'s success rules, the
  outcomes of `read` and `write`, the functors, and the list of *faults*: every failed
  assertion of the source, refused `epoll_ctl`, zero-length write, overwritten or missing
  map entry, and use of a connection nobody owns.
- `Poller.dfy`, `Connection.dfy`: `Channel`, `EPoller` and `TcpConnection` as functions on
  values. A handler turns one `World` (connection, its loop's poller, what it queued, the
  counters, the faults so far) into another, callbacks included.
- `ConnectionProofs.dfy`: what every handler keeps. `ConnectionEffects.dfy`: what every
  handler does, against a reference of the output stream that knows no poller, mask or
  state.
- `Reactor.dfy`: the whole client as a transition system. A run is any sequence of actions of
  any thread; each action is one step of the base loop, of an I/O loop, of the application,
  or the release of a last reference.
- `ReactorInvariant.dfy`, `ReactorSteps.dfy`: one inductive invariant and its preservation.
- `ReactorTheorems.dfy`, `ReactorAccounting.dfy`, `ReactorEffects.dfy`: the results over all
  runs, and what each step brings about in every reachable state.
  `ReactorExample.dfy`: one complete life of a connection as a run.
- `Wakeup.dfy`: the wakeup protocol of one loop under all interleavings with other threads.
- `Buffer.dfy`, `EPoller.dfy`, `TcpConnection.dfy`, `EventLoop.dfy`, `ThreadPool.dfy`,
  `Client.dfy`, and the parser class in `CommandLine.dfy`: the source's classes as Dafny
  classes that change their fields in place. Each method's contract ties the new state to the
  value function of the same name, or, for `EventLoop`, to a run of the wakeup protocol.

## Assumptions

- There is at least one pool thread, so I/O loops differ from the base loop.
- `send` and `forceClose` are called in the connection's own loop, at any time while that
  loop handles events or runs functors. The application may otherwise do anything in its
  message callback; its connection callback sends at least one non-empty message on
  establishment, as `src/main.cpp` does. `EstablishOpens` shows that this is exactly what is
  needed, `EmptyRequestLooksLikeClose` what happens otherwise.
- The kernel never hands out a descriptor that is open, reports only subscribed events plus
  ERR and HUP, and reports a HUP without IN alone (no PRI, no RDHUP).
  `DoubleCloseExactly` shows what the handlers do without the last promise, and that the
  close callback then fires twice exactly in the family of events it describes.
- A handler runs as one step with respect to other threads. Apart from what is private to
  its loop it only appends functors to queues behind a mutex, and counts.
- Atomic steps are sequentially consistent; counters do not overflow.
- A loop's own thread queues functors only while it handles events or runs functors.
  `callingPendingFunctors_`, which the constructor leaves unset, may start with either value.

## What the proofs found

- `handleRead` sets kDisconnecting without looking at the state. Without the kernel's promise
  about HUP, one event can close a connection twice, and the second `disableAll` puts the
  closed descriptor back into the interest set (`DoubleCloseExactly`).
- `loop()` resets `quit_`: a `quit` that comes first is forgotten, and the loop can end up
  waiting (`EarlyQuitIsLost`). From the start of `loop()` on, the flag says exactly whether
  `quit` was called (`QuitCountsFromStart`).
- In the command-line parser, a short option without a value leaves `is_sname` set, and the
  next long option's detached value goes to the short option. `ParsesAsIntendedExactly` gives
  the exact condition, `LeakExample` the shortest case.
- `Connector::connect(1)`, the reconnect, overwrites the configured number of sockets
  (`Connector.Connect`). The number of attempts and connections still never grows.

## Model

| member | source | states |
|---|---|---|
| Polling.SetEventsKeepsRegistration | src/EPoller.cpp:87-127 | any mask change on a consistent channel keeps kNew/kAdded/kDeleted in step with both maps, fails no assertion and no epoll_ctl; the channel leaves the interest set exactly when an empty mask meets kAdded |
| Polling.RemoveUnregisters | src/EPoller.cpp:129-147 | removing a silent mapped channel takes it out of both maps without a fault and touches no other descriptor |
| EPollers.EPoller.UpdateChannel | src/EPoller.cpp:87-127 | the object's maps and the channel's index become what the value machine says; all three asserts hold |
| EPollers.EPoller.RemoveChannel | src/EPoller.cpp:129-147 | the same for removal, with its four asserts |
| EPollers.EPoller.Control | src/EPoller.cpp:149-164 | ADD, MOD and DEL on the interest set |
| EPollers.Channel.SetEvents | src/Channel.cpp:44-48 | a mask change keeps channel and poller consistent and never faults |
| EPollers.Channel.DisableAll | src/Channel.h:73-77 | after disableAll the descriptor is in the interest set exactly if the channel was not kAdded |
| EPollers.Channel.Remove | src/Channel.cpp:50-55 | a silent channel ends unregistered |
| ConnectionProofs.SendKeepsOpen | src/TcpConnection.cpp:51-120 | send on an open connection extends the accepted stream by the whole message or not at all, keeps taken + waiting = accepted, and keeps the mask reading, and writing exactly while bytes wait |
| ConnectionProofs.SendShape | src/TcpConnection.cpp:72-120 | the effect of an accepted send field by field: the direct write's prefix to the kernel, the rest behind what waits, the mask extended accordingly |
| ConnectionProofs.ReactKeepsOpen | src/TcpConnection.cpp:122-130 | any mix of sends and a forceClose in a callback leaves an open connection open |
| ConnectionProofs.CloseHandsOver | src/TcpConnection.cpp:223-235 | handleClose takes the DEL branch, leaves the interest set, fires the close callback once and queues exactly one removal |
| ConnectionProofs.ReadTurns | src/TcpConnection.cpp:166-187 | a read event keeps the connection open if data came and closes it exactly once otherwise |
| ConnectionProofs.WriteTurns | src/TcpConnection.cpp:189-221 | a write event leaves an open connection open, with writing on exactly while bytes wait, or closes it once; it never writes an empty buffer |
| ConnectionProofs.EventTurns | src/Channel.cpp:74-100 | one event, with any combination of bits and any results, leaves an open connection open or closes it exactly once |
| ConnectionProofs.ForceCloseTurns | src/TcpConnection.cpp:132-140 | a queued force close closes an open connection and ignores a closed one |
| ConnectionProofs.EstablishOpens | src/TcpConnection.cpp:142-151 | establishing opens the connection, with its layering of buffer and mask, if and only if the connection callback sends a non-empty message |
| ConnectionProofs.EmptyRequestLooksLikeClose | src/TcpConnection.cpp:208-212 | after an empty request the first write event writes zero bytes and mistakes the result for the server's close |
| ConnectionProofs.DestroyUnregisters | src/TcpConnection.cpp:153-164 | connectDestroyed of a closed connection only unregisters it and meets every assert |
| ConnectionProofs.DoubleCloseExactly | src/Channel.cpp:78-93 | without the kernel's promise the close callback fires twice if and only if the event has HUP, no IN, PRI or RDHUP, and the read brings no data; then the descriptor is back in the interest set |
| ConnectionEffects.PipeAcceptsInOrder | src/TcpConnection.cpp:72-120 | the reference stream loses and reorders nothing, and accepts every message unless the peer reset an idle connection |
| ConnectionEffects.SendOffers | src/TcpConnection.cpp:72-120 | a send on an open connection is exactly one offer to that stream: the kernel's share at once, the rest waiting, all or nothing accepted |
| ConnectionEffects.ReactOffers | src/main.cpp:44-67 | a callback's sends are offered in order, each counted with its length; a forceClose in it moves the state on and queues one functor |
| ConnectionEffects.RequestReacts | src/TcpConnection.cpp:122-130 | forceClose in any state: an up connection becomes kDisconnecting with one functor queued, any other is left alone |
| ConnectionEffects.MessageIsTold | src/main.cpp:59-67 | the message callback counts one message and all readable bytes, drops them, and then answers |
| ConnectionEffects.ReadAnswers | src/TcpConnection.cpp:166-187 | a read with data keeps the connection open and answers exactly that message; one without closes it and does nothing else |
| ConnectionEffects.WriteFlushes | src/TcpConnection.cpp:189-221 | a write event hands the kernel's share of what waits over and keeps the rest; it stays open in the same state with the writing bit dropped exactly when nothing is left, closes if that was the last of a kDisconnecting connection or the write took nothing, and does nothing when nothing waits |
| ConnectionEffects.EventIsServed | src/Channel.cpp:74-100 | a whole event: a hang-up or an empty read only closes; otherwise the read is answered first and what waits is flushed second |
| ConnectionEffects.EstablishQueues | src/TcpConnection.cpp:142-151 | establishing counts the connection and leaves everything the callback sent waiting, nothing written directly |
| ConnectionEffects.ForceCloseShuts | src/TcpConnection.cpp:132-140 | a queued force close closes an open connection, keeping its streams, and ignores a closed one |
| TcpConnections.TcpConnection.constructor | src/TcpConnection.cpp:21-42 | a new object is an embryo: kConnecting, silent, unregistered, empty buffers |
| TcpConnections.TcpConnection.SendInLoop | src/TcpConnection.cpp:72-120 | the object, its buffers, channel and poller change exactly as the value function says |
| TcpConnections.TcpConnection.Send | src/TcpConnection.cpp:51-65 | the same for send in the owning loop |
| TcpConnections.TcpConnection.ForceClose | src/TcpConnection.cpp:122-130 | the same for forceClose, with its queued functor |
| TcpConnections.TcpConnection.OnConnection | src/main.cpp:44-57 | the connection callback with its counters, including the re-entrant forceClose |
| TcpConnections.TcpConnection.OnMessage | src/main.cpp:59-67 | the message callback counts and drops what is readable, then replies |
| TcpConnections.TcpConnection.HandleClose | src/TcpConnection.cpp:223-235 | the same for handleClose; its assert is the precondition every caller meets |
| TcpConnections.TcpConnection.HandleRead | src/TcpConnection.cpp:166-187 | the same for handleRead, through the scatter read |
| TcpConnections.TcpConnection.HandleWrite | src/TcpConnection.cpp:189-221 | the same for handleWrite |
| TcpConnections.TcpConnection.HandleEvent | src/Channel.cpp:57-100 | a whole event on the object; it stays open or closes once |
| TcpConnections.TcpConnection.ConnectEstablished | src/TcpConnection.cpp:142-151 | the same for connectEstablished, open exactly if the callback said something |
| TcpConnections.TcpConnection.ConnectDestroyed | src/TcpConnection.cpp:153-164 | the same for connectDestroyed of a closed connection |
| ReactorInvariant.CommitKeepsInv | src/Clinet.cpp:51-90 | any handler that respects its own connection's stage and touches no other descriptor keeps the invariant of the whole client |
| ReactorSteps.EventKeepsInv | src/EventLoop.cpp:64-68 | handling the next active channel keeps the invariant |
| ReactorSteps.RunKeepsInv | src/EventLoop.cpp:132-135 | running the next functor (establish, force close, destroy) keeps the invariant |
| ReactorSteps.NextIsUsable | src/TcpConnection.cpp:127-128 | the functor next in line finds its connection owned, also when it captured a raw pointer |
| ReactorSteps.AttemptIsNew | src/EPoller.cpp:95-99 | the descriptor of a finished attempt is in no map entry and in no I/O poller, over all reuse of descriptors |
| ReactorSteps.NewKeepsInv | src/Clinet.cpp:51-69 | newConnection overwrites nothing and keeps the invariant |
| ReactorSteps.RemovalIsClosed | src/Clinet.cpp:78-90 | a removal that reaches the base loop finds its connection closed and under its own map entry, so erase removes exactly that one |
| ReactorSteps.BaseRunKeepsInv | src/Clinet.cpp:78-90 | erasing, handing back and reconnecting keep the invariant |
| ReactorSteps.UnheldIsGone | src/TcpConnection.cpp:44-49 | a connection without references is kDisconnected, unregistered, and mentioned by no functor still to run |
| ReactorSteps.FreeKeepsInv | src/TcpConnection.cpp:44-49 | the destructor's asserts hold and closing the descriptor keeps the invariant |
| ReactorTheorems.RunsKeepInv | src/Clinet.cpp:51-90 | the invariant holds after every run, in every interleaving of the loops |
| ReactorTheorems.NoFaultInAnyRun | src/EPoller.cpp:87-164 | no run fails an assertion or an epoll_ctl, writes an empty buffer, overwrites an entry, misses an erase or uses an unowned connection |
| ReactorTheorems.RawPointersAreOwned | src/Channel.cpp:57-72 | active channels, the kernel's data pointers and queued force closes all lead to owned connections; active ones are open; a force close always precedes the destruction of its connection |
| ReactorTheorems.InterestSetIsExact | src/EPoller.cpp:87-164 | an I/O loop's interest set is exactly its kAdded channels with current masks, and those are exactly its open connections; kDeleted is mapped but silent, kNew unmapped |
| ReactorTheorems.StatesOnlyMoveForward | src/TcpConnection.h:55-61 | no step moves a connection's state back, changes its loop or descriptor, or takes back accepted or written bytes |
| ReactorTheorems.EveryConnectionIsLayered | src/TcpConnection.cpp:84-119 | in every run, for every connection: close callback fired once exactly if down, stream intact, open means reading and writing exactly while bytes wait, nothing read left over |
| ReactorTheorems.HandOffsAreExact | src/Clinet.cpp:71-90 | a closed connection has exactly one removal on its way, then exactly one destruction, then nothing |
| ReactorTheorems.QuietMeansNoLeak | src/TcpConnection.cpp:44-49 | with empty queues and nothing left to free, the connections in memory are exactly those in the map, all open, and the open sockets are theirs and the connector's |
| ReactorTheorems.NeverMoreThanConfigured | src/Connector.cpp:25-66 | attempts in flight plus map entries never exceed the configured number of clients in any run |
| ReactorTheorems.ConnectionsGoRound | src/EventLoopThreadPool.cpp:57-74 | in every run the k-th connection lives on loop k mod n |
| ReactorAccounting.BooksBalance | src/main.cpp:44-67 | in every run bytes written plus bytes waiting are at most send_len_, and recv_len_ is exactly what the kernel delivered |
| ReactorAccounting.CountersAgree | src/main.cpp:44-67 | in every run of the benchmark send_num_ = numConnSocket_ + recv_num_ and send_len_ = send_num_ times the request's size |
| ReactorAccounting.ServerSeesWholeRequests | src/TcpConnection.cpp:72-120 | in every run of the benchmark what a server was sent plus what waits is the request repeated a whole number of times |
| ReactorEffects.EventLands | src/EventLoop.cpp:64-68 | in every reachable state, handling the next active channel serves its event on an open connection and changes nothing else but what it queued |
| ReactorEffects.ActLands | src/TcpConnection.cpp:51-65 | in every reachable state an application's sends and forceClose have their effect on that connection only |
| ReactorEffects.RunLands | src/EventLoop.cpp:132-135 | in every reachable state the next functor establishes, closes or destroys its connection, while no channel is active |
| ReactorEffects.AttemptLands | src/Clinet.cpp:51-69 | a finished attempt becomes one map entry and one embryo whose establishment is queued last on the next loop; the population stays |
| ReactorEffects.RemovalLands | src/Clinet.cpp:78-90 | a removal erases its entry, queues the destruction last on the connection's loop, and its retry is in the attempts and open; the population stays, or drops by one if connect failed at once |
| ReactorEffects.PopulationIsExact | src/Connector.cpp:25-66 | in every run attempts plus entries are exactly the configured number less the steps that lost a client |
| ReactorEffects.CountersAreHistory | src/main.cpp:44-67 | in every run of every application the counters are the run's history: establishments, reads with data and their bytes, sends and their bytes, each once |
| ReactorEffects.ReportsAreHandled | src/EventLoop.cpp:57-72 | between two polls of a loop the reported channels are handled once each, in order, and all before the functors |
| ReactorEffects.CloseIsNeverForgotten | src/TcpConnection.cpp:122-140 | in every run a kDisconnecting connection has its force close still queued on its loop |
| ReactorExample.OneWholeLife | src/Clinet.cpp:51-90 | a connection opened, established, closed by its peer, erased, destroyed and freed, as one run |
| Wakeup.NoLostWakeup | src/EventLoop.cpp:51-120 | under every interleaving, a loop at poll with functors queued or quit set has a positive counter or another thread on its way to wakeup; the wakeup read never finds zero |
| Wakeup.WaitingLoopServes | src/EventLoop.cpp:112-130 | such a loop can be woken, and its next batch is what was queued |
| Wakeup.FunctorsRunOnceInOrder | src/EventLoop.cpp:89-137 | what ran, the rest of the batch and the queue are together everything ever queued, in order |
| Wakeup.DoPendingRunsTheBatch | src/EventLoop.cpp:122-137 | one doPendingFunctors runs exactly the functors pending at its swap, whatever is queued meanwhile |
| Wakeup.QueuedByPollIsServed | src/EventLoop.cpp:57-72 | everything queued before poll returned has run when quit_ is tested next |
| Wakeup.QuitIsFinal | src/EventLoop.cpp:57-75 | once quit_ is set on a running loop it stays set and the loop never polls again |
| Wakeup.StoppedHasServed | src/EventLoop.cpp:71-75 | a stopped loop has run everything that was pending at its last swap |
| Wakeup.QuitCountsFromStart | src/EventLoop.cpp:55-57 | from the start of loop() on, quit_ is set if and only if quit was called since |
| Wakeup.EarlyQuitIsLost | src/EventLoop.cpp:56 | a run in which quit comes before loop() and the loop then waits with nothing to wake it |
| EventLoops.EventLoop.QueueInLoop | src/EventLoop.cpp:89-100 | in the loop's thread the call is a run of the protocol and wakes only while functors run |
| EventLoops.EventLoop.QueueFrom | src/EventLoop.cpp:89-110 | from another thread it is a push followed by a wakeup |
| EventLoops.EventLoop.QuitFrom | src/EventLoop.cpp:170-177 | quit from another thread sets the flag, then wakes |
| EventLoops.EventLoop.HandleRead | src/EventLoop.cpp:112-120 | reading the eventfd resets a positive counter |
| EventLoops.EventLoop.RunInLoop | src/EventLoop.cpp:77-87 | in the loop's thread the functor runs at once and is not queued itself |
| EventLoops.EventLoop.HandleEvents | src/EventLoop.cpp:63-71 | every active channel's callback runs, in order: the queue grows by exactly what they queue, and quit is set exactly if it was or one of them quits |
| EventLoops.EventLoop.DoPendingFunctors | src/EventLoop.cpp:122-137 | the loop over the swapped batch executes it in order, leaves exactly what it queued, and is a run of the protocol |
| EventLoops.EventLoop.Iterate | src/EventLoop.cpp:57-73 | one iteration runs what was queued before and what its callbacks queue, and leaves exactly what that batch queued |
| EventLoops.EventLoop.Loop | src/EventLoop.cpp:51-75 | over all iterations done: exactly what was executed and what is left queued, in order; it stops if and only if somebody quit in the last one, and waits only without a quit; the whole is a run of the protocol |
| Buffers.RoomIsMade | src/Buffer.h:170-177 | ensureWritableBytes makes room without changing the readable bytes; compaction only happens with the reader beyond the prepend area |
| Buffers.AppendQueues | src/Buffer.h:158-163 | append extends the readable bytes, through growth or compaction |
| Buffers.ReadFdQueues | src/Buffer.cpp:13-41 | readFd appends exactly the delivered bytes whatever the split, at most 131071 when both segments are used |
| Buffers.RefinesQueue | src/Buffer.h:92-208 | any sequence of operations acts on the readable bytes as on a plain byte queue and keeps the indices in order |
| Buffers.AppendSize | src/Buffer.h:233-252 | an append grows the storage if and only if neither the tail nor compaction has room, and then to at most readable + 2 len + 7 |
| Buffers.RetrieveRecycles | src/Buffer.h:92-103 | retrieving everything resets both indices, so the whole storage takes new bytes without growing; retrieving less drops the prefix |
| Buffers.InputNeverExceeds | src/Buffer.cpp:18-39 | an input buffer drained after every delivery never exceeds 131079 bytes in any run |
| Buffers.InputReachesBound | src/Buffer.cpp:18-39 | two deliveries reach that bound from the initial size |
| BufferObjects.Buffer.CopyDown | src/Buffer.h:245-247 | the overlapping copy moves the readable bytes down intact |
| BufferObjects.Buffer.MakeSpace | src/Buffer.h:233-252 | grows or compacts in place exactly as specified; its assert holds |
| BufferObjects.Buffer.Append | src/Buffer.h:158-163 | the array holds the old readable bytes followed by the new ones |
| BufferObjects.Buffer.Retrieve | src/Buffer.h:92-103 | drops a prefix, resetting the indices when nothing is left |
| BufferObjects.Buffer.RetrieveAsString | src/Buffer.h:143-149 | returns the prefix it drops |
| BufferObjects.Buffer.Prepend | src/Buffer.h:202-208 | puts bytes in front, using the prepend area |
| BufferObjects.Buffer.ReadFd | src/Buffer.cpp:13-41 | the scatter read on the object |
| ThreadPool.CursorIsModulo | src/EventLoopThreadPool.cpp:57-74 | the k-th call starts from index k mod n |
| ThreadPool.PicksAreFair | src/EventLoopThreadPool.cpp:57-74 | after k calls each loop was picked k/n times, or once more if early in the round |
| ThreadPool.EventLoopThreadPool.GetNextLoop | src/EventLoopThreadPool.cpp:57-74 | returns the base loop without threads, else loop (number of calls) mod n |
| ThreadPool.EventLoopThreadPool.Start | src/EventLoopThreadPool.cpp:38-55 | collects the threads' loops in order |
| Clients.Connector.Connect | src/Connector.cpp:25-66 | starts the given number of attempts, keeps exactly the sockets under way, remembers the number |
| Clients.Client.NewConnection | src/Clinet.cpp:51-69 | turns an attempt into a map entry on the next loop; the load stays unless the entry was there |
| Clients.Client.RemoveConnectionInLoop | src/Clinet.cpp:78-90 | erases one entry, queues its destruction, starts one attempt; the load stays, or drops by one if that attempt failed at once |
| CommandLine.AddIsSound | src/cmdline.h:260-295 | registering options, refused or not, keeps every short name leading to an option and every default within its limiter |
| CommandLine.AddRegisters | src/cmdline.h:260-295 | after add a new option gives its default, old options and other short names are untouched, and the short name leads to it or is reported taken |
| CommandLine.ParseIsSound | src/cmdline.h:337-356 | parsing any arguments, even up to an exception, keeps that, never follows a missing entry, and whatever get returns meets its limiter |
| CommandLine.ParseInvertsPrint | src/cmdline.h:364-428 | parsing the printed form of any list of printable assignments folds exactly those assignments over the table in order and returns true unless one throws |
| CommandLine.ParseStoresTheLast | src/cmdline.h:225-240 | after parsing any printed list, get of every typed option is the last value assigned to it as its type reads it, or what it was; the parse returns true if all assignments work and otherwise reports the first that does not, which stores nothing |
| CommandLine.PrintableExactly | src/cmdline.h:374-403 | an assignment is read back as itself if and only if it is printable |
| CommandLine.ParsesAsIntendedExactly | src/cmdline.h:389-422 | the parser gives every value to the option before it if and only if no short option without a value is followed by a long option with a detached value before a short one with a detached value |
| CommandLine.ReadsAsCarried | src/cmdline.h:374-426 | on every argument vector, leaking or not, the four variables amount to one carried short name: where each value goes |
| CommandLine.ValuedShortsAreSafe | src/cmdline.h:401-421 | giving every short option a value is enough |
| CommandLine.LeakExample | src/cmdline.h:405-417 | `-a --name v` assigns v to a |
| CommandLineParsers.Parser.Parse | src/cmdline.h:364-428 | the parser object's loop leaves the tables and the result that the scan and the fold give |
| CommandLineParsers.Parser.GetValue | src/cmdline.h:298-309 | get on the object, with its default and its two errors |
| CommandLineParsers.Parser.AddOption | src/cmdline.h:281-295 | add on the object, including the option that stays registered when its short name is refused |

## Left out

- `Client::~Client` and process shutdown: `connectDestroyed` does not handle a kDisconnecting connection, so the claims are about running loops.
- `Connector`'s private `poller_`: one channel registered in two pollers contradicts `EPoller`'s own asserts; only the attempts are modelled.
- `Client`'s map of shared pointers: `Reactor` and `Clients` keep connection identities and model ownership as map entries and queued functors.
- Finer interleaving inside one handler: a handler is one step; its pushes to other loops' queues are its only shared effects.
- `EPoller::poll`'s growth of its event array, timeouts and EINTR: the kernel's choice of what to report is arbitrary within its rules.
- Loop pointers inside `TcpConnection`: the object records the functors it queues on its own loop and on the base loop; `Reactor` puts them into the queues.
- `handleError`, POLLNVAL, `reading_`, `disableReading`, `swap`, `internalCapacity`, the find and `retrieveIntN` helpers: they would only add easy members.
- `EventLoopThread` start-up: running loops are taken as given.
- `Buffer`'s vector capacity: growth is a new array with the old contents and zeros.
- `Request`, result printing and timing: string building and output.
- `lexical_cast`: an arbitrary partial function per option. `get` with a type other than the option's own is not modelled.
- Option objects behind shared pointers: they never leave the parser, so the table holds them by value.
- Zero pool threads, where `newConnection` would establish the connection at once on the base loop.
- Clients.Client.NewConnection: requires a started pool with at least one loop, which is the assumption above.
