# Verified model of the jetblack-io servers

This Dafny project models the network core of the repository, and proves what the code is there to keep true.
Every part has two layers. Pure functions say what one step does to the whole state, and lemmas prove
properties of all steps and all runs. Classes with mutable fields, maps and queues follow the C++ classes, and
their methods are proved to compute those functions, so that what holds of a run of functions holds of the
objects.

* **Shared.** `Basics` (optional values, regrouping, searching a string), `Wire` (byte strings, queues of partly written
  buffers, sorted keys).
* **Poll loop.** `TcpStreams` (the TLS state machine), `Handlers` (read and write queues), `Pollers` (the map
  of handlers, one pass, a run), `Apps`, `Callbacks`, `Connections`, `PollRuns`, `Ownership` and `EchoScans` (the invariants),
  `ServerTheorems` (the results for the echo and the chat server), `LowDescriptor` (a counterexample); `HandlerProgress`,
  `Kinds`, `PollProgress`, `ServerProgress` (what reads, writes, accepts and handshakes get done); as objects
  `Files`, `StreamObjects`, `HandlerObjects`, `PollerObjects`, `FileHandlerObjects`; and `FileTheorems`.
* **Event loop.** `EventLoops` (one-shot callbacks), `EventMasks` (epoll masks), `EventRuns`, `EventFailures`,
  `EventProgress` (what is called, and when), `EventLoopObjects`.
* **Command line.** `Options`, `OptionTheorems`, `OptionClusters`, `OptionRemainders`, `OptionFailures`,
  `OptionObjects`.
* **Log formats.** `Formats`, `FormatTheorems`, `FormatErrors`, `FormatMeaning`, `LogRecords`.
* **Edge-triggered server.** `EpollServer`, `EpollServerTheorems`, `EpollClients`, `EpollServerFailures`,
  `EpollServerObjects`.

The kernel and OpenSSL are an environment that may answer anything the code tells apart: a read gives some
bytes, none, "would block" or a fault; a write takes any number of bytes, "would block" or fails; a handshake
or shutdown step is done, unfinished or throws; poll reports any subset of what was asked for; accept gives a
descriptor that is not open, or fails. A run takes its answers from finite scripts of any length; a call for
which a script has no answer left would block. `kernel` stands for the descriptors the process has open.

A stream records the bytes it has received and sent, a handler the spans it has offered, and a poller its
callbacks. The code keeps no such records; the properties are about them.

## What the proofs say about the code

* Descriptors stay owned exactly while the listener does not accept, in any pass, a descriptor below its own that had
  a handler at the head of that pass (`ServerTheorems.OwnershipExact`); `LowDescriptor.RunLoses` is a run in which it
  does. This cannot happen when accepted descriptors are above the listener's, or were free at the head of the pass.
  The reason is the destructor of `File`, which closes a file that is *not* open (project/io/file.hpp:46-58), so that a
  closed descriptor is closed twice.
* A failed peer verification leaves a `TcpStream` in DATA with its socket open (project/io/tcp_stream.hpp:107-140).
  This is the one case in which a stream does not keep the gate by itself (`TcpStreams.GateExact`); it holds because
  the handler closes the socket before anyone can call again (`Handlers.TlsGate`).
* Arguments after `--` are documented as positional (external/popl.hpp:360-364), but the loop goes on to parse
  them (external/popl.hpp:1001-1006). The model follows the code; `OptionRemainders.AfterDashDash` says for which arguments
  the documentation is right.
* An argument `--=value` is looked up under the empty name, which every option without a long name has
  (external/popl.hpp:900-906, 1010-1019): the first of them gets the value (`OptionFailures.EmptyName`).
* `prune_events` deletes a descriptor from epoll but not from `event_state_` (project/io/event_loop.hpp:174-191).
  A descriptor that was pruned, or that a callback has closed, is never watched again, and what is registered for it is
  never called (`EventRuns.NeverAgain`). If it is registered again for what it was registered for before, the loop waits
  without it; if for something else, prepare_events asks for a change that epoll refuses, and throws; and if it is not
  registered again, the next prune throws (`EventFailures.SecondPruneThrows`, `EventFailures.ClosingThrows`). When a turn
  gets through is said exactly by `EventRuns.NextTurnExact`. A second `start` has the same effect on every
  descriptor of the first (`EventRuns.SecondStart`).
* The main loop of server.cpp keeps the answer of the last event only (project/server.cpp:537-540), so that a
  SIGQUIT is lost unless the signal's event, or a failing accept, comes last (`EpollServerTheorems.QuitLost`,
  `EpollServerFailures.QuitOutlived`). A client may then be accepted on the descriptor that the signals had, and is never
  served (`EpollServerTheorems.SignalReused`, `EpollServerFailures.ClientOnSignal`).

## Model

| member | source | states |
|---|---|---|
| `ServerTheorems.EchoConservation` | project/echo-server.cpp:98-116 | At every loop head of every run, for every connection: bytes accepted by its stream, then bytes still queued, are the chunks delivered from it, in order, and none of them is "KILLME" |
| `ServerTheorems.EchoKilled` | project/echo-server.cpp:98-116 | After the scan of any pass of any run, when closed connections are still there: bytes accepted and queued are every delivered chunk but "KILLME"; what was accepted is a prefix of what came before the first "KILLME"; and a connection that said it is closed, has sent nothing since the head of the pass, and is gone with its descriptor when the pass ends |
| `EchoScans.ScanSilent` | project/io/poller.hpp:97-108 | In a whole scan, accepts and the events of others included, a connection that says "KILLME" sends nothing, not even what was queued before |
| `EchoScans.OwnEvent` | project/io/poller.hpp:116-137 | In the event that delivers "KILLME" the write that follows the read sends nothing |
| `ServerTheorems.ChatBroadcast` | project/chat-server.cpp:75-107 | After every run the set of clients is exactly the set of connections in the map, and what each client was sent or has queued is every chunk delivered from the others since its own on_open, in order of delivery, and never one of its own |
| `ServerTheorems.Connections` | project/io/poller.hpp:87-182 | At every loop head of either server: everything a stream returned has been delivered; delivered chunks and sent bytes imply a finished handshake and any check passed; a blocked span is offered again unchanged; and the next span of a queue that holds something is not empty |
| `ServerTheorems.ConnectionsScanned` | project/io/poller.hpp:139-182 | The same after the scan of any pass, for closed connections too: chunks delivered, then those in the read queue, are the chunks the stream returned, and the queue of an open connection is empty |
| `ServerTheorems.OwnershipExact` | project/io/poller.hpp:87-112 | At every loop head of a run everything is in order if and only if no pass that led to a loop head had the listener accept a descriptor below its own that had a handler at the head of that pass |
| `ServerTheorems.DescriptorOwnership` | project/io/poller.hpp:87-112 | At every loop head every handler is open, and the descriptors open in the kernel are exactly the keys of the map and the descriptors the poller knows nothing of, with no overlap |
| `ServerTheorems.AboveSpares` | project/io/tcp_listener_poll_handler.hpp:55-72 | No such pass occurs when accept gives descriptors above that of the listener |
| `ServerTheorems.FreeSpares` | project/io/tcp_listener_poll_handler.hpp:55-72 | Nor does it when accept gives descriptors that had no handler at the head of the pass |
| `ServerTheorems.FreshSpares` | project/io/tcp_listener_poll_handler.hpp:55-72 | Nor does it when accept gives descriptors that were not open in the kernel at the head of the pass |
| `ServerTheorems.ListenerGoesFirst` | project/io/poller.hpp:184-206 | When accept gives descriptors above that of the listener, the listener is the first entry polled in every pass of every run |
| `ServerTheorems.Asked` | project/io/poller.hpp:184-206 | At every loop head every handler is polled for reading, and for writing iff something is queued for it or its BIO wants to write |
| `ServerTheorems.Bracketing` | project/io/poller.hpp:62-69 | In every log on_open and on_close alternate per descriptor, on_read and on_error fall in between, and a descriptor is between the two iff it has a connection in the map |
| `ServerTheorems.BeforeRemoval` | project/io/poller.hpp:97-110 | The invariants of descriptors, connections and callbacks also hold between the scan of any pass and the removal of what it closed |
| `ServerProgress.Departs` | project/io/poller.hpp:97-137 | Over every run of either server, for the pass after it: when a connection is polled writable and its stream takes something of each call, with as many calls as bytes, all that it had sent or queued at the loop head has been sent after the scan, whatever it read before, and it stays connected and no error is reported |
| `ServerProgress.Echoes` | project/io/poller.hpp:97-137 | For the echo server, what it has just read is sent too: the queue is empty after the pass, and everything that has ever been delivered from the connection has been sent back |
| `ServerProgress.Arrives` | project/io/poller.hpp:139-167 | All chunks that arrive at a connection that is polled readable are delivered in that pass, also when its socket then fails |
| `ServerProgress.Admits` | project/io/tcp_listener_poll_handler.hpp:55-72 | An accepted client is connected after the pass, open, with the stream of the listener, and with nothing read, sent or delivered |
| `ServerProgress.Secured` | project/io/tcp_listener_poll_handler.hpp:55-72 | Over every run, and after every scan: a connection is TLS iff the listener is, checks no peer, reads and writes 8096 bytes at a time; a plain one stays in START; and nothing is delivered from or sent to a TLS one before its handshake is over |
| `ServerProgress.Shakes` | project/io/tcp_stream.hpp:107-140 | A connection whose peer completes the handshake is in DATA after the pass |
| `ServerProgress.Stops` | project/io/poller.hpp:87-112 | At every loop head: the loop goes on after the next pass iff poll does not fail and, if the listener is polled readable, accept gives a descriptor that is not open |
| `ServerProgress.Breaks` | project/io/poller.hpp:169-182 | A write that fails sends nothing, is reported by on_error once, and the connection is gone with its descriptor at the end of the pass |
| `ServerProgress.Rejects` | project/io/poller.hpp:139-167 | So is a handshake that fails: on_error once, nothing delivered, connection and descriptor gone |
| `Kinds.RunKinds` | project/io/tcp_listener_poll_handler.hpp:55-72 | Every run keeps the kind, the check of the peer and the buffer sizes of every connection those of the listener |
| `PollProgress.PassRuns` | project/io/poller.hpp:87-112 | A settled poller goes on after a pass iff poll and accept allow it |
| `PollProgress.PassDispatch` | project/io/poller.hpp:97-108 | Every connection that poll reports is dispatched in the pass, once, in the state it had at the loop head but for what others wrote to it, and what follows leaves it alone |
| `PollProgress.PassLeaves` | project/io/poller.hpp:97-110 | What the scan leaves open is there unchanged after the pass, with its descriptor |
| `PollProgress.EventServes` | project/io/poller.hpp:116-137 | The whole of an event at a connection: chunks read, their answer queued behind the rest, and at least so many bytes sent, all in order |
| `PollProgress.EventDelivers` | project/io/poller.hpp:139-167 | Everything read in an event is delivered by one call of on_read |
| `PollProgress.IdlePass` | project/io/poller.hpp:87-112 | A pass in which poll reports nothing changes nothing |
| `Ownership.PassExact` | project/io/poller.hpp:97-110 | A pass that the loop survives leaves everything in order if and only if the listener did not accept a key below its own |
| `Ownership.PassLoses` | project/io/file.hpp:46-58 | A pass in which it does stops, or ends with an open handler whose descriptor is closed: the destructor of the handler it replaces closes the descriptor a second time |
| `Ownership.AcceptExact` | project/io/file.hpp:46-58 | One accept: the descriptor is open for its new handler afterwards iff no handler had that key |
| `LowDescriptor.RunLoses` | project/io/poller.hpp:97-110 | From its start the echo server loses a descriptor in two passes: a client is accepted below the listener, then it sends "KILLME" while another is waiting |
| `LowDescriptor.DescriptorLost` | project/io/poller.hpp:97-110 | The second of these passes ends with an open handler whose descriptor is closed |
| `Ownership.LoopKeeps` | project/io/poller.hpp:87-112 | Every run without such a pass keeps: one open listener among connections, open handlers hold their descriptors, nothing else is open, every connection is sound, the log is bracketed; and every handler is open at each loop head |
| `Ownership.PassKeeps` | project/io/poller.hpp:97-110 | One pass re-establishes the loop invariant, whatever poll reports and whatever the callbacks close |
| `Ownership.ScanPass` | project/io/poller.hpp:97-108 | A scan accepts only onto keys that are free, and keeps every connection sound: handlers from the key of the listener on are still open when it accepts |
| `Ownership.ListenerFirst` | project/io/poller.hpp:184-206 | When no key is below that of the listener it is polled first, and all others are connections |
| `Ownership.FreshKey` | project/io/poller.hpp:62-69 | At a loop head a descriptor that is not open in the kernel has no handler, so add_handler overwrites nothing |
| `Ownership.RemoveExact` | project/io/poller.hpp:208-236 | At the end of a pass exactly the closed handlers go, each with its descriptor, and the others stay as they were |
| `Ownership.EventFrame` | project/io/poller.hpp:116-137 | An event leaves the open flag of every other handler alone, and opens no descriptor but by accepting it |
| `Ownership.RemoveOne` | project/io/poller.hpp:227-236 | Removing a closed connection frees its own key and descriptor and no other, and keeps all invariants |
| `Ownership.RemoveMany` | project/io/poller.hpp:227-236 | Removing all that is closed leaves exactly the other handlers, unchanged |
| `Ownership.EarlyExit` | project/io/poller.hpp:93-108 | Stopping after as many dispatches as poll counted equals dispatching every active descriptor; each lookup finds its handler although accepts insert into the map |
| `Ownership.ActiveInOrder` | project/io/poller.hpp:97-108 | The descriptors dispatched are exactly those with something to report, each once and in ascending order |
| `Ownership.ConnEvent` | project/io/poller.hpp:116-137 | An event at a connection opens no descriptor, closes only descriptors of handlers that end up closed, and keeps every connection (not only its own) sound |
| `PollRuns.HandleReadFd` | project/io/poller.hpp:139-167 | Reading from one descriptor keeps the agreement of log, map and clients, and the stream contents, of every other |
| `PollRuns.HandleWriteFd` | project/io/poller.hpp:169-182 | Writing to one descriptor keeps the same of every other |
| `PollRuns.AddFd` | project/io/poller.hpp:62-69 | A handler added under a free key starts with nothing delivered, heard or sent, and disturbs no other descriptor |
| `Callbacks.EchoEachEffect` | project/echo-server.cpp:98-116 | One on_read of the echo server changes its own handler only, and closes its descriptor iff one of the chunks is "KILLME" and it was open |
| `Callbacks.ChatEachEffect` | project/chat-server.cpp:91-107 | One on_read of the chat server appends all the chunks, in order, to every client but the sender, and changes nothing else |
| `Apps.EchoDeliver` | project/echo-server.cpp:98-116 | One on_read keeps the echo equation of its connection |
| `Apps.EchoWrite` | project/io/tcp_socket_poll_handler.hpp:115-169 | A write never sends a byte that was delivered after a "KILLME" |
| `Pollers.ClosedFdsExact` | project/io/poller.hpp:214-225 | The descriptors found closed are exactly the keys of handlers that are not open, ascending |
| `Pollers.PassFds` | project/io/poller.hpp:184-206 | What is polled has a handler each, in strictly ascending order |
| `PollerObjects.Serve` | project/echo-server.cpp:83-126 | The poller object made as main makes it, run over any answers, ends in exactly the state that the theorems about runs speak of |
| `PollerObjects.Poller.EventLoop` | project/io/poller.hpp:87-112 | The loop over objects that share files and a kernel ends in the state of the specification run, and keeps every handler under its own descriptor |
| `PollerObjects.Poller.HandleEvent` | project/io/poller.hpp:116-137 | Dispatch of one descriptor: its whole effect on the map, the kernel, the clients and the log |
| `PollerObjects.Poller.HandleRead` | project/io/poller.hpp:139-167 | Read, dequeue everything, call on_read; on_error when the read throws; and whether to go on |
| `PollerObjects.Poller.HandleWrite` | project/io/poller.hpp:169-182 | Write, with on_error when it throws |
| `PollerObjects.Poller.AddHandler` | project/io/poller.hpp:62-69 | Replaces the handler under the key, runs the destructor of a closed one, calls on_open unless it is a listener |
| `PollerObjects.Poller.Write` | project/io/poller.hpp:71-77 | Appends to the write queue of the connection with that key, and changes no other object |
| `PollerObjects.Poller.Close` | project/io/poller.hpp:79-85 | Closes the handler with that key, if it is open, and its descriptor |
| `PollerObjects.Poller.MakePollFds` | project/io/poller.hpp:184-206 | One entry for each key in order, with what its handler wants |
| `PollerObjects.Poller.Scan` | project/io/poller.hpp:97-108 | The loop with the decremented counter equals the recursive scan |
| `PollerObjects.Poller.FindClosedHandlerFds` | project/io/poller.hpp:214-225 | The keys of closed handlers, in order |
| `PollerObjects.Poller.RemoveClosedHandlers` | project/io/poller.hpp:227-236 | Erases, calls on_close, then destroys, one handler after the other |
| `PollerObjects.Poller.ListenerRead` | project/io/tcp_listener_poll_handler.hpp:55-72 | Accepts, makes a plain or TLS connection with its own file, and adds it during the pass |
| `PollerObjects.Poller.EchoOnRead` | project/echo-server.cpp:98-116 | The loop over the chunks: write back, or close on "KILLME" |
| `PollerObjects.Poller.ChatOnRead` | project/chat-server.cpp:91-107 | The nested loops over chunks and clients |
| `PollerObjects.TcpListenerPollHandler.Close` | project/io/tcp_listener_poll_handler.hpp:76-82 | Closes an open listener; a failing ::close throws and changes nothing |
| `Files.File.Close` | project/io/file.hpp:67-74 | The flag is cleared iff ::close succeeds |
| `Files.File.Destroy` | project/io/file.hpp:46-58 | The destructor calls ::close again on a file that is already closed, whoever owns that descriptor by then |
| `Handlers.RetryStability` | project/io/tcp_socket_poll_handler.hpp:120-154 | In every run of a new handler a span refused because the stream blocked is the next one offered, the same bytes at the same place of the output, whatever is enqueued in between; and no span is longer than write_bufsiz |
| `Handlers.TlsGate` | project/io/tcp_socket_poll_handler.hpp:77-169 | In every run of a handler that must verify its peer, a chunk read, queued or sent implies that the handshake and the verification are over; when the handshake is over without the verification, the socket is closed, and whatever is done later it stays so and nothing is read, queued or sent |
| `Handlers.RejectedForever` | project/io/tcp_socket_poll_handler.hpp:77-169 | After a failed verification no run of operations ever reads, sends, verifies or reopens, although the state is DATA |
| `Handlers.RunConserves` | project/io/tcp_socket_poll_handler.hpp:115-194 | In every run of operations, bytes accepted followed by bytes queued are the bytes enqueued, in order |
| `Handlers.RunDelivers` | project/io/tcp_socket_poll_handler.hpp:77-189 | In every run, chunks dequeued followed by chunks queued are the chunks the stream returned |
| `Handlers.RunKeeps` | project/io/tcp_socket_poll_handler.hpp:77-194 | Every run keeps the handler invariant, and its stream only moves HANDSHAKE, DATA, SHUTDOWN, STOP |
| `Handlers.RunNoEmptyEntry` | project/io/tcp_socket_poll_handler.hpp:115-194 | When no empty buffer is enqueued, every queue entry keeps an offset below its size |
| `Handlers.WriteLoopKeeps` | project/io/tcp_socket_poll_handler.hpp:115-154 | Partial writes at any point lose, repeat and reorder nothing |
| `Handlers.WriteLoopStops` | project/io/tcp_socket_poll_handler.hpp:120-154 | The loop ends normally only with an empty queue, a closed socket, or after a call of its own that blocked |
| `Handlers.WriteLoopBound` | project/io/tcp_socket_poll_handler.hpp:120-154 | The loop makes at most one call per unsent byte, and one more: each successful call takes at least one byte |
| `Handlers.ReadLoopDelivers` | project/io/tcp_socket_poll_handler.hpp:77-113 | A read queues exactly the chunks the stream returned in it |
| `Handlers.ReadLoopTakes` | project/io/tcp_socket_poll_handler.hpp:77-113 | While chunks arrive the read loop goes on, and queues every one of them |
| `Handlers.WriteLoopDrains` | project/io/tcp_socket_poll_handler.hpp:120-154 | While the stream accepts, however little at a time, everything queued is sent |
| `Handlers.OfferTaken` | project/io/tcp_socket_poll_handler.hpp:122-153 | A successful call moves bytes from the front of the queue to those sent, at least one, so that what is unsent strictly shrinks |
| `Handlers.FlushKeeps` | project/io/tcp_socket_poll_handler.hpp:156-160 | The write of an empty span at the end moves no application byte, though it may close the socket |
| `Handlers.ClosedIsFrozen` | project/io/tcp_socket_poll_handler.hpp:77-194 | No operation changes the stream of a closed handler |
| `HandlerProgress.ReadsChunks` | project/io/tcp_socket_poll_handler.hpp:77-113 | Chunks that arrive, and then nothing, are queued in order; the socket stays open and nothing else changes |
| `HandlerProgress.ReadsToTheEnd` | project/io/tcp_socket_poll_handler.hpp:77-113 | Chunks that arrive before a fault or the end are queued, and the socket is closed without a throw |
| `HandlerProgress.ReadsShutdown` | project/io/tcp_socket_poll_handler.hpp:77-113 | When the peer ends a TLS session the handler goes on with the shutdown: done and closed, unfinished and open, or thrown |
| `HandlerProgress.WritePauses` | project/io/tcp_socket_poll_handler.hpp:120-154 | A write loop stopped by a call that would block leaves the handler as it was, open and with its queue, and notes the offer |
| `HandlerProgress.WriteFails` | project/io/tcp_socket_poll_handler.hpp:120-154 | A write that fails closes the socket and throws, and keeps the queue |
| `HandlerProgress.WriteStaysOpen` | project/io/tcp_socket_poll_handler.hpp:120-154 | Answers that take bytes or would block never close a socket |
| `HandlerProgress.WriteSends` | project/io/tcp_socket_poll_handler.hpp:120-154 | Each answer that takes anything moves the output on by at least a byte while there is something left |
| `HandlerProgress.WritesAll` | project/io/tcp_socket_poll_handler.hpp:115-169 | With an accepting stream and as many calls as bytes the queue is empty, all of it sent, and the socket open |
| `HandlerProgress.FlushExact` | project/io/tcp_socket_poll_handler.hpp:156-160 | After the loop a BIO that wants to write gets one call with an empty span, and only then: a pending shutdown or handshake moves on, and what it makes of the socket is reported |
| `HandlerProgress.SpanExact` | project/io/tcp_socket_poll_handler.hpp:122-126 | The span offered is the beginning of what is unsent, as long as the front buffer and write_bufsiz allow |
| `HandlerObjects.TcpSocketPollHandler.Read` | project/io/tcp_socket_poll_handler.hpp:77-113 | The read loop over the object: its new state and result are those of the specification |
| `HandlerObjects.TcpSocketPollHandler.Write` | project/io/tcp_socket_poll_handler.hpp:115-169 | The write loop, with offsets changed in place, and the flush |
| `HandlerObjects.TcpSocketPollHandler.WriteFront` | project/io/tcp_socket_poll_handler.hpp:122-153 | One turn of the write loop: the span offered, and the offset, queue and open flag after each of the four outcomes |
| `HandlerObjects.TcpSocketPollHandler.Close` | project/io/tcp_socket_poll_handler.hpp:171-177 | Closes an open socket only |
| `HandlerObjects.TcpSocketPollHandler.Dequeue` | project/io/tcp_socket_poll_handler.hpp:181-189 | The first chunk, removed from the queue, or none |
| `HandlerObjects.TcpSocketPollHandler.Enqueue` | project/io/tcp_socket_poll_handler.hpp:191-194 | The buffer at the back of the queue, at offset zero |
| `TcpStreams.ReadKeepsOk` | project/io/tcp_stream.hpp:184-235 | A read keeps: START iff plain, STOP implies closed, state forward only; data comes back only in START or DATA, past the TLS gate, 1 to len bytes of it, and is recorded once |
| `TcpStreams.WriteKeepsOk` | project/io/tcp_stream.hpp:237-277 | The same for a write: exactly the prefix of the span that is reported is sent |
| `TcpStreams.EofMeansClosed` | project/io/tcp_stream.hpp:184-277 | A read or write that reports end of file has closed the socket; one that gives data or blocks has not |
| `TcpStreams.HandshakeKeepsOk` | project/io/tcp_stream.hpp:107-140 | A handshake that ends well has cleared the gate; one that throws leaves a stream that must be closed |
| `TcpStreams.ShutdownKeepsOk` | project/io/tcp_stream.hpp:289-321 | STOP is reached only together with closing the socket |
| `TcpStreams.DoShutdownKeepsOk` | project/io/tcp_stream.hpp:152-182 | do_shutdown throws in START and HANDSHAKE and changes nothing then; done means STOP and closed |
| `TcpStreams.ReadExact` | project/io/tcp_stream.hpp:184-235 | A read of an open stream throws iff the handshake or the check or the shutdown fails; blocks iff handshake or shutdown go on or the socket would block; gives data iff some arrived; closes the socket iff the shutdown is done, or the end or a fault came; and the stream is then known |
| `TcpStreams.WriteExact` | project/io/tcp_stream.hpp:237-277 | The same for a write; only a fault of the write throws besides |
| `TcpStreams.WouldBlock` | project/io/tcp_stream.hpp:184-277 | In data transfer a call that would block returns that and leaves the stream unchanged |
| `TcpStreams.DoShutdownExact` | project/io/tcp_stream.hpp:152-182 | do_shutdown by state and answer: when it throws, is done, or goes on, and what it leaves |
| `TcpStreams.GateExact` | project/io/tcp_stream.hpp:107-140 | A read or write of a sound open stream leaves it sound if and only if the peer does not fail the check in that call; if it does, the call throws and leaves an open unverified stream past its handshake |
| `TcpStreams.GateNeedsHandler` | project/io/tcp_stream.hpp:107-140 | An instance in which the next read would return data |
| `StreamObjects.TcpStream.Read` | project/io/tcp_stream.hpp:184-235 | The method over the fields agrees with the specification on every answer of the BIO |
| `StreamObjects.TcpStream.Write` | project/io/tcp_stream.hpp:237-277 | The same for write |
| `StreamObjects.TcpStream.DoHandshake` | project/io/tcp_stream.hpp:107-140 | The same for do_handshake |
| `StreamObjects.TcpStream.DoShutdown` | project/io/tcp_stream.hpp:152-182 | The same for do_shutdown |
| `StreamObjects.TcpStream.HandleShutdown` | project/io/tcp_stream.hpp:289-321 | The same for handle_shutdown |
| `FileHandlerObjects.FileStream.Read` | project/io/file_stream.hpp:41-67 | A file read behaves as a plain TCP stream does, but throws on a fault where the stream reports its end |
| `FileHandlerObjects.FileStream.Write` | project/io/file_stream.hpp:69-96 | A file write behaves exactly as that of a plain TCP stream |
| `FileHandlerObjects.FilePollHandler.Read` | project/io/file_poll_handler.hpp:56-92 | The read loop refines that of the socket handler over a plain stream; it throws exactly when a fault comes before an end |
| `FileHandlerObjects.FilePollHandler.Write` | project/io/file_poll_handler.hpp:94-142 | The write loop refines that of the socket handler without its flush |
| `FileTheorems.FaultCloses` | project/io/file_poll_handler.hpp:84-91 | Where the file handler throws, the socket handler would have reported a closed socket: the descriptor is given up in both |
| `FileTheorems.FileRefines` | project/io/file_poll_handler.hpp:56-167 | A run of operations of a file handler, with the answers of ::read and ::write, does what the socket handler does over a plain stream |
| `FileTheorems.FileRun` | project/io/file_poll_handler.hpp:56-167 | Every run of a file handler conserves what is enqueued, delivers what is read, and repeats refused spans |
| `FileTheorems.FileThrown` | project/io/file_poll_handler.hpp:84-139 | When a read or write of a run throws, the file is closed, and nothing is read or written in the rest of the run |
| `FileTheorems.WantsWriteExact` | project/io/file_poll_handler.hpp:54-54 | want_write of a writable file is true exactly when a write would send something: if true, a call that takes any number of bytes sends exactly so much of the next span, which is not empty; if false, no write does anything |
| `FileTheorems.WantsReadExact` | project/io/file_poll_handler.hpp:53-53 | want_read of a readable file is true exactly when a read would give something: if true, all chunks that arrive and fit are queued in order; if false, no read does anything |
| `FileHandlerObjects.FilePollHandler.WantRead` | project/io/file_poll_handler.hpp:53-53 | The method over the fields agrees with that |
| `FileHandlerObjects.FilePollHandler.WantWrite` | project/io/file_poll_handler.hpp:54-54 | The method over the fields agrees with that |
| `EventRuns.CallbackConservation` | project/io/event_loop.hpp:46-109 | After any registrations and any run, with callbacks registering more while they are called: per descriptor and type the callbacks registered are, in order, those called exactly once and those still pending; and so for timeouts |
| `EventRuns.EndsWhenDone` | project/io/event_loop.hpp:71-109 | Unless an exception leaves it, the loop has ended iff no callback is pending for any descriptor and type |
| `EventRuns.MonitorExact` | project/io/event_loop.hpp:112-172 | prepare_events gets through if and only if the pending descriptors that were never seen are open and not in epoll, and epoll has those whose mask must change |
| `EventRuns.CleanExact` | project/io/event_loop.hpp:174-191 | prune_events gets through if and only if epoll still has every remembered descriptor that nothing is pending for |
| `EventRuns.NextTurnExact` | project/io/event_loop.hpp:71-108 | Over every run, with callbacks that register, close and open: what epoll watches at a loop head is pending and has the remembered mask; and the next turn gets through if and only if what is pending and new is open, each unwatched descriptor that is pending has the mask it had, epoll_wait does not fail, and, when events are reported, each unwatched descriptor and each known one that a callback closes is pending after the callbacks |
| `EventFailures.SecondPruneThrows` | project/io/event_loop.hpp:174-191 | Two descriptors that drain one after the other: the second prune_events throws |
| `EventFailures.ClosingThrows` | project/io/event_loop.hpp:174-191 | A callback that closes its descriptor and registers nothing: prune_events throws |
| `EventRuns.NeverAgain` | project/io/event_loop.hpp:174-191 | A descriptor that has drained when prune_events runs, or that a callback has closed, is never watched again, however the run goes on, and nothing registered for it, before or after, is called any more |
| `EventRuns.RunSilent` | project/io/event_loop.hpp:71-109 | While a descriptor is remembered but not in epoll nothing registered for it is called |
| `EventRuns.SecondStart` | project/io/event_loop.hpp:62-71 | A second start makes a new epoll but keeps event_state_: in it no descriptor of an earlier run is watched, and nothing is called for one, from start to end |
| `EventRuns.WatchedExact` | project/io/event_loop.hpp:112-172 | After prepare_events a pending descriptor is watched iff it was before or had never been seen; for one that was pruned and needs another mask the call throws |
| `EventRuns.MasksAtEveryWait` | project/io/event_loop.hpp:71-79 | At every epoll_wait of every run each pending descriptor has IN iff a read is pending, OUT iff a write is pending, and PRI, ERR, HUP and ET; and epoll has that mask where it watches it |
| `EventLoops.CallAllCalls` | project/io/event_loop.hpp:97-105 | What was taken is called, all of it in that order, whatever is registered meanwhile |
| `EventLoops.TakenExact` | project/io/event_loop.hpp:193-220 | One event takes exactly what is pending for its descriptor and its types |
| `EventLoops.LeftExact` | project/io/event_loop.hpp:193-220 | What one event leaves pending is everything that was not for it, unchanged |
| `EventLoops.LeftNoEmpty` | project/io/event_loop.hpp:205-208 | Taking leaves no descriptor with an empty entry, even one the map did not have |
| `EventProgress.CallOrder` | project/io/event_loop.hpp:193-220 | One event calls what is pending to read, in order of registration, then what is pending to write, and nothing else |
| `EventProgress.ReportedCalled` | project/io/event_loop.hpp:97-105 | Everything pending for a reported descriptor and type is called in that wait, in order, whatever other events register |
| `EventProgress.DueCalled` | project/io/event_loop.hpp:71-109 | Over every run: what is pending for a descriptor that epoll has and that becomes ready is called, all of it and in order, in the turn in which it does |
| `EventProgress.TimeoutsCalled` | project/io/event_loop.hpp:87-95 | When the time runs out every timeout callback is called once, in order, and no other |
| `EventProgress.ThrownExact` | project/io/event_loop.hpp:71-109 | A run is left by an exception iff one of its turns could not get through |
| `EventProgress.PrepareIntoStops` | project/io/event_loop.hpp:112-172 | prepare_events stops at the first descriptor that epoll refuses: those before it are seen to, that one is remembered with its new mask, those behind it are untouched |
| `EventMasks.MaskDerivation` | project/io/event_loop.hpp:112-172 | After prepare_events every pending descriptor has PRI, ERR, HUP and ET, IN iff a read is pending, OUT iff a write is pending; no other mask has changed |
| `EventMasks.OperationsReplay` | project/io/event_loop.hpp:112-172 | Replaying the emitted ADD and MOD operations on the old state is accepted by epoll and gives the new state |
| `EventMasks.PrepareTwice` | project/io/event_loop.hpp:112-172 | A second call changes nothing and emits nothing |
| `EventMasks.PrepareIntoExact` | project/io/event_loop.hpp:112-172 | prepare_events over ordered keys gets through iff epoll accepts what is asked for each of them, whatever was asked for the others |
| `EventMasks.PruneExact` | project/io/event_loop.hpp:174-191 | prune_events gets through iff epoll still has everything that has drained, and deletes just that; when the remembered state agreed with epoll before, it does afterwards iff nothing had drained |
| `EventMasks.SecondPruneExact` | project/io/event_loop.hpp:174-191 | After one prune that got through, the next gets through iff everything that had drained then is pending now |
| `EventLoopObjects.EventLoop.AddFdCallback` | project/io/event_loop.hpp:46-55 | Appends under the descriptor and type, making entries as needed |
| `EventLoopObjects.EventLoop.AddTimeoutCallback` | project/io/event_loop.hpp:57-60 | Appends to the timeouts |
| `EventLoopObjects.EventLoop.TakeFdEventCallbacks` | project/io/event_loop.hpp:213-220 | Appends what is pending to the destination and erases the type |
| `EventLoopObjects.EventLoop.TakeFdCallbacks` | project/io/event_loop.hpp:193-211 | Reads before writes; the entry is erased when it is empty |
| `EventLoopObjects.EventLoop.PrepareEvents` | project/io/event_loop.hpp:112-172 | The masks and the calls of epoll_ctl, descriptor by descriptor; with an exception, what had been done before it |
| `EventLoopObjects.EventLoop.PruneEvents` | project/io/event_loop.hpp:174-191 | Finds what has drained, then deletes it from epoll; with an exception, what had been deleted before it |
| `EventLoopObjects.EventLoop.Start` | project/io/event_loop.hpp:62-109 | The loop over the changing maps, with a new epoll, ends as the specification run does, also when an exception leaves it |
| `OptionTheorems.RoundTrip` | external/popl.hpp:996-1095 | Any list of switches, values, implicit values and positionals, written in any mix of the four forms, parses to exactly those values per option in order, those positionals, nothing unknown; the parse fails only when a required option is missing from the list |
| `OptionTheorems.ItemReadsBack` | external/popl.hpp:996-1085 | Each rendered item is consumed completely and nothing after it is touched, whatever follows |
| `OptionClusters.ClusterEquivalent` | external/popl.hpp:1041-1080 | A cluster of known switches, possibly ended by an option with a value, parses like its options one by one |
| `OptionClusters.ClusterInContext` | external/popl.hpp:1041-1080 | and that at every option position of any argument list: same values, positionals, unknown options and failure |
| `OptionClusters.ClusterInCommandLine` | external/popl.hpp:996-1095 | The same for whole command lines, with the check of required options |
| `OptionRemainders.AfterDashDash` | external/popl.hpp:1001-1006 | The documented meaning of "--" (all that follows is positional) holds iff what follows is only "-" arguments, the last of which may be "--" |
| `OptionRemainders.DashDashTwice` | external/popl.hpp:360-364 | The documented example records its two arguments twice |
| `OptionRemainders.NothingRecorded` | external/popl.hpp:996-1085 | A list of arguments leaves no trace iff it consists of "-" and at most a last "--" |
| `OptionRemainders.PositionalArgument` | external/popl.hpp:1081-1084 | An argument that does not start with a dash becomes positional, and the rest is parsed as if it were not there |
| `OptionFailures.FailsAt` | external/popl.hpp:711-718 | At every option position: an argument whose active option needs a value, with none attached and an empty argument or none behind it, ends the parse with missing_argument for that option, and leaves what was recorded before it |
| `OptionFailures.ArgumentsFail` | external/popl.hpp:996-1085 | Arguments are parsed to the end iff no option among them finds no value, and the first that does is the one reported |
| `OptionFailures.ParseFails` | external/popl.hpp:996-1095 | A whole parse fails for the first missing value, else for the first required option that was given none, and for nothing else |
| `OptionFailures.ArgumentFails` | external/popl.hpp:1007-1080 | One argument fails iff its option finds no value, and only the switches before it in a cluster are recorded then |
| `OptionFailures.ArgumentUnknown` | external/popl.hpp:1018-1080 | An argument is reported unknown, as it stands, iff it names no active option, attaches a value to a switch, or has a character that means nothing; a long one then does nothing else |
| `OptionFailures.InactiveUnknown` | external/popl.hpp:1018-1080 | An inactive option of a table that add has built is unknown under both its names |
| `OptionFailures.KnownExact` | external/popl.hpp:900-915 | A name means the first option that has it, if that is active |
| `OptionFailures.EmptyName` | external/popl.hpp:1010-1019 | "--=value" gives the value to the first option that has no long name |
| `OptionObjects.OptionParser.Add` | external/popl.hpp:857-873 | Accepts an option iff it is proper and shares no name with another; the table stays one with unique names |
| `OptionObjects.OptionParser.Parse` | external/popl.hpp:996-1095 | The loop with its bumped index ends in the state of the specification, with every assigned variable holding the current value |
| `OptionObjects.OptionParser.ReadCluster` | external/popl.hpp:1044-1079 | The loop over the characters, which may consume the next argument |
| `OptionObjects.OptionParser.LongArgument` | external/popl.hpp:1007-1040 | The long form, attached and following values |
| `OptionObjects.OptionParser.FindLong` | external/popl.hpp:900-906 | The first option with that long name |
| `OptionObjects.OptionParser.FindShort` | external/popl.hpp:909-915 | The first option with that character |
| `OptionObjects.Option.Parse` | external/popl.hpp:711-718 | Adds the value that its kind makes of the argument, and the assigned variable follows it; or throws and changes nothing |
| `OptionObjects.Option.UpdateReference` | external/popl.hpp:765-775 | The assigned variable is the last value, else the default, else untouched |
| `FormatTheorems.ScanExact` | project/logging/log.hpp:119-179 | The scan succeeds with a text iff the string tokenises as literals, "{{" and known fields, and the text is the token by token renaming of it |
| `FormatTheorems.Accepts` | project/logging/log.hpp:126-174 | A string of tokens is rewritten token by token, whatever stands behind it |
| `FormatTheorems.ScanConcat` | project/logging/log.hpp:126-174 | On accepted strings the scan is a homomorphism for concatenation |
| `FormatTheorems.ScanBack` | project/logging/log.hpp:126-174 | The same scan with an inverse name map recovers the input |
| `FormatTheorems.MakeFormatBack` | project/logging/log.hpp:119-179 | For any position map without repeated positions, renaming the positions of the result back gives the format string and the newline |
| `FormatTheorems.LoggerPositions` | project/logging/log.hpp:32-40 | The position map of the logger repeats no position |
| `FormatTheorems.DecimalInjective` | project/logging/log.hpp:164-164 | Different positions are written differently |
| `FormatErrors.ErrorExact` | project/logging/log.hpp:126-179 | The scan refuses a string with an error iff it is a string of the grammar followed by a bad start of just that kind: a bracket not closed, one with nothing in it, or a field whose name has no position |
| `LogRecords.EmitShows` | project/logging/log.hpp:205-233 | With the arguments that emit passes, each name of the position map shows its own field of the record, and the text is followed by a newline |
| `FormatMeaning.MakeFormatMeaning` | project/logging/log.hpp:119-179 | Formatting the result with positional arguments, as [format.string] has it, shows what formatting the input with named arguments would have shown, for all arguments and any way to show them, with both brackets escaped and stray closing brackets an error |
| `FormatMeaning.ScanMeaning` | project/logging/log.hpp:126-174 | The same for any renaming of fields and arguments alike |
| `Formats.MakeFormat` | project/logging/log.hpp:119-179 | The loop over the index computes the specified rewriting, with the same error for every string it refuses |
| `Formats.LookAt` | project/logging/log.hpp:126-174 | One turn of the loop: literal to the end, escape, field, or the right error, and where the next turn starts |
| `Formats.LookExact` | project/logging/log.hpp:126-174 | What a turn finds can be put together again to the string, and every field it finds is well formed |
| `EpollServerTheorems.EpollEcho` | project/server.cpp:512-541 | After every run, for every client: bytes written, then its buffers from back to front, are the bytes read; and the clients are exactly what epoll watches besides listener and signal descriptor, before SIGQUIT and after |
| `EpollServerTheorems.ReadWriteKeeps` | project/server.cpp:350-377 | A client that survives an event it can write in has an empty queue, or its last write blocked |
| `EpollServerTheorems.RunKeeps` | project/server.cpp:512-541 | Every run keeps all clients byte streams, no buffer used up or over its size, and what is watched in step with the map |
| `EpollServerTheorems.ReadKeeps` | project/server.cpp:212-242 | Pushing at the front keeps the byte stream |
| `EpollServerTheorems.WriteKeeps` | project/server.cpp:281-316 | Partial writes from the back keep it |
| `EpollServerTheorems.LookupFinds` | project/server.cpp:350-352 | The lookup by the descriptor of an event never makes an entry |
| `EpollServerTheorems.LastEventDecides` | project/server.cpp:537-540 | Whether the loop goes on is what the last event of the batch says, whatever the others said |
| `EpollServerTheorems.QuitLost` | project/server.cpp:537-540 | In any batch with a SIGQUIT, wherever it stands, the loop goes on if and only if the last event is of a client, or is of the listener and none of its accepts fails |
| `EpollServerFailures.QuitOutlived` | project/server.cpp:537-540 | From its start the server reads SIGQUIT, has nothing to accept next, and goes on |
| `EpollServerFailures.ClientOnSignal` | project/server.cpp:379-391 | Then it makes a client on the descriptor that the signals had |
| `EpollServerTheorems.AcceptsExact` | project/server.cpp:99-123 | accept_clients reports failure iff some accept fails before one would block, or what it gives cannot be made a client |
| `EpollClients.ReadsExact` | project/server.cpp:244-271 | client_reads fails iff the end of the file or an error comes before reading would block; read has grown by exactly the chunks got before that, queued behind the rest |
| `EpollClients.WritesExact` | project/server.cpp:318-348 | client_writes fails iff a write fails while something is queued, before one would block |
| `EpollClients.WritesDrain` | project/server.cpp:318-348 | While writes take something, with as many calls as bytes, everything read is written and the queue is empty |
| `EpollClients.ServeEchoes` | project/server.cpp:350-377 | An event that can read and write, in which nothing fails and writes take something, echoes everything |
| `EpollClients.LeavesExact` | project/server.cpp:350-377 | A client leaves map, epoll and process in its event iff its reads end or its writes fail; else it has all that was sent; and no other client is touched |
| `EpollClients.BatchExact` | project/server.cpp:379-399 | The same over a whole batch, whatever the other events do: the client is kept, or its descriptor has at most a new client |
| `EpollClients.Kept` | project/server.cpp:512-541 | In every run, from one turn to the next: a client is kept iff its event does not end it, and one without an event is unchanged |
| `EpollClients.AcceptedExact` | project/server.cpp:99-123 | The clients after accepting are those before and one new client for each descriptor accepted before one would block or fail |
| `EpollClients.SignalsExact` | project/server.cpp:171-202 | Reading signals goes on iff there is no SIGQUIT and no error before there are none; SIGQUIT closes the descriptor, and nothing else changes |
| `EpollServerTheorems.SignalReused` | project/server.cpp:379-391 | Over every run the clients stay in step with what is watched if and only if no accept has made a client on the closed signal descriptor; such a client is never served |
| `EpollServerObjects.EpollEchoServer.Loop` | project/server.cpp:512-541 | The loop over the map of client objects ends in the state of the specification run |
| `EpollServerObjects.EpollEchoServer.HandleEvent` | project/server.cpp:379-399 | Dispatch to listener, signal descriptor or client |
| `EpollServerObjects.EpollEchoServer.AcceptClients` | project/server.cpp:99-123 | Accepts until it would block or fails |
| `EpollServerObjects.EpollEchoServer.ReadWriteClient` | project/server.cpp:350-377 | Reads, writes, and drops a client that fails |
| `EpollServerObjects.ClientState.Read` | project/server.cpp:212-242 | One buffer at the front |
| `EpollServerObjects.ClientState.Write` | project/server.cpp:281-316 | The back buffer moves on, and goes when it is used up |

## Left out

- ServerTheorems.DescriptorOwnership: holds of runs in which the listener never accepts a key below its own; without that it is false (`ServerTheorems.OwnershipExact`).
- OptionTheorems.RoundTrip: names with '=' in them, a short option named '-', and empty values for options that need one are excluded, because none of the four forms can say them.
- Files.File: move construction and assignment, and the fcntl flags.
- A read loop whose stream returns data for ever: scripts are finite, so that every call of read comes to an end.
- Liveness and fairness: nothing is said about when poll or epoll_wait reports a descriptor, only about what is done when it does (`ServerProgress`, `EventProgress`, `EpollClients`).
- A ::close that fails on a descriptor that is open, and accept or poll failing: a run ends there.
- OpenSSL, certificates, addresses and socket options: only the outcomes that the code tells apart.
- A failing blocking(false) after accept in the listener, which would end the run before the handler is added.
- The listener's own read queue and enqueue, which do nothing in the code; the poller model has no case for them.
- Numeric and boolean `Value<T>` conversions, option groups, ini files, and the help, groff and bash printers of popl: values are strings.
- `Implicit<T>` keeps its implied value as the default of `Value<T>`; the option object has the two as separate constants.
- FormatMeaning.MakeFormatMeaning: a replacement field inside a specification is recognised but not followed, since `make_format` does not rename it; names of fields have no '{'.
- A bad name in `make_format` is thrown as a pointer; the model has one error for it, as for the others.
- Epoll masks as integers: the six flags that the loop uses are a record.
- epoll_ctl failing for want of memory or of watches, epoll_create1 failing, and descriptors that share an open file, which epoll keeps when one of them is closed.
- What a callback of the event loop does but register callbacks and close and open descriptors.
- `Client::can_write` in server.cpp, which nothing ever sets.
- The port of the handlers to the event loop, server2.cpp, server3.cpp and client.cpp: unfinished, or the same code again.
- Logging, apart from `make_format`.
