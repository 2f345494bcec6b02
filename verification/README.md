# Device tester: the connection core, modelled and proved

This project models the parts of the device tester that move data, and proves what they
guarantee on every run:

- the outbound pipeline shared by the TCP client, the TCP server's clients, the UDP
  connection and the serial port: a bounded queue, a current buffer, an in-progress flag, a
  lock around part of `startWrite`, and a completion handler that does not take that lock;
- the ring buffer behind the queue, as a data structure and as a monitor with two condition
  variables;
- connecting and reading in the TCP client;
- the CoAP client's tracking of requests and its table of large request bodies;
- the life of the TCP server's clients;
- the two plot buffers.

`dafny verify dfyconfig.toml` checks everything.

## How it is modelled

Concurrent code is a step machine: every access to shared state (a flag, the lock, the
current buffer, a check of the queue, a pop) is one atomic step, any number of agents
interleave freely, and a theorem quantifies over every finite legal run. Data races in the
sense of the C++ memory model are not considered. In the pipeline, agent 0 is the strand, on
which completion handlers run one at a time. Of asio only the visible contract is used: a
send that succeeds reports at most the length it was given, and each operation completes
once. Server handlers and API calls are one atomic step each.

Objects that the code updates in place are classes with the same fields. Their methods are
proved against functions on a value (`Model()`), and the theorems are about those functions
and their runs. `Connections.Connection` is the pipeline as an object; any sequence of its
calls is shown to be one run of the step machine from the initial state, so the run theorems
apply to it (`CallsAreARun`, `CallsConserve`).

Where a property depends on what is written, the theorem is an equivalence over sets of runs:
it holds on all runs that write only allowed messages if and only if a condition on the kind
of connection and on the set of allowed messages is met. The failing runs are proved to exist
step by step (`Trace` in PumpRuns.dfy).

| file | what it holds |
|---|---|
| Streams.dfy | messages, byte streams |
| RingBuffer.dfy, Monitor.dfy | `ring_buffer.hpp` as a structure and as a monitor |
| PumpCore.dfy, Pump.dfy | the pipeline: shared state and its two program sections; the agents around them; invariants |
| PumpStrand.dfy | the pipeline as one stream of instructions: the serial port, any messages |
| PumpTheorems.dfy | what holds on every run |
| PumpRuns.dfy | stretches of runs, and runs put together from them |
| PumpExclusion.dfy, PumpConservation.dfy, PumpWakeup.dfy, PumpBoundaries.dfy, PumpFlag.dfy | exactly when sends exclude each other; when pops never block and the bytes add up; when no wakeup is lost; when boundaries are kept and the trap closes; when the flag covers every send |
| Connection.dfy | the pipeline as an object |
| IntendedPump.dfy | the pipeline with one branch of `startWrite` changed; not the code as written |
| TcpClient.dfy, TcpServer.dfy | connecting, reading, client lifecycle |
| TokenTable.dfy, CoapClient.dfy | CoAP tokens, responses, large bodies |
| PlotBuffers.dfy | scrolling and rolling plot buffers |

## What the proofs bring out

- Sends exclude each other because `tx_current_` is non-empty while one is in flight. The
  flag does not do it: it is read without the lock. So on TCP, UDP and the server exclusion
  holds if and only if nobody writes an empty message. On the serial port it always holds,
  because everything after the enqueue runs on the strand.
- The flag can be off during a send. It covers every send if and only if the port is serial,
  only the strand writes, or there is one caller besides the strand and no empty message.
- Under the condition for exclusion no pop blocks, no byte is lost, repeated or reordered,
  and the output is a prefix of the input. Off the serial port an empty message breaks each
  of these: a handler and a caller can both take `tx_current_` for free, one pops the queue
  empty under the other, and a message can be cleared while it is in flight. More bytes than
  were accepted never go out, whatever is written.
- On every kind of connection an empty message that is queued behind another one is never
  sent as a datagram of its own; with non-empty messages boundaries are kept.
- No wakeup is lost as long as no send fails or no message is empty, and the last write found
  the run flag on. The failed send of an empty message leaves the flag on for good. What is
  written while a serial port is closed stays queued when the port is opened.
- The code as written stops sending for good after the first completion that fails, is
  partial, or finds another message already queued: the handler leaves `tx_current_`
  non-empty with nothing in flight, and `startWrite` then always gives up. At rest, with the
  last write kicked and no empty messages, everything accepted has been delivered if and only
  if no completion was of that kind.
- A serial pipeline that also sends what `tx_current_` holds drains as long as no send fails
  (`IntendedPump`). On the other kinds the same change would send a message twice.
- After a disconnect the TCP client's run flag stays off. Later writes are queued and never
  sent, and each connection, under way or made later, delivers at most one more chunk of
  received data.
- With equal tokens the CoAP table is one queue per token; no theorem about it needs tokens
  to be distinct, except those that say it is a map.
- The rolling plot's wrap check misses a step of a whole span or more when the places of the
  earlier time and of the step within the span do not add up to a span. The data is the
  current period exactly when the step into that period was not of that kind.

`write_in_progress_` has no initializer in the server's client and in the serial port. Under
C++20, which the build asks for, a default-constructed atomic is false; the model takes it so.

## Model

| member | source | states |
|---|---|---|
| RingBuffers.PushAppends | libs/libcon/src/ring_buffer.hpp:22-31 | pushing appends to the unread items whatever the fill level, moves every other item one place, and on a full container gives up the slot of the oldest item, which is not unread |
| RingBuffers.PopTakesOldest | libs/libcon/src/ring_buffer.hpp:33-43 | lowering the count hands out exactly the oldest unread item and leaves the container's contents alone |
| RingBuffers.DoKeeps | libs/libcon/src/ring_buffer.hpp:22-51 | every operation keeps: pushed = popped followed by unread, and the container holds the most recent pushes newest first |
| RingBuffers.RunRefinesFifo | libs/libcon/src/ring_buffer.hpp:22-51 | over any sequence of operations from any consistent state the ring behaves as the plain bounded queue |
| RingBuffers.RingIsBoundedFifo | libs/libcon/src/ring_buffer.hpp:15-51 | from a new buffer of any capacity and any initial slots: same pushes accepted and same items popped as the bounded queue, pops are a prefix of pushes, unread <= size <= capacity |
| RingBuffers.OverwritesOnlyPopped | libs/libcon/src/ring_buffer.hpp:27 | in every reachable state the slot the next push overwrites on a full container holds a particular item that was already popped |
| RingBuffers.RingBuffer.constructor | libs/libcon/src/ring_buffer.hpp:15-18 | a new buffer is empty and has the given capacity |
| RingBuffers.RingBuffer.PushFront | libs/libcon/src/ring_buffer.hpp:22-31 | waits exactly when as many items are unread as the capacity, otherwise appends, updating its slots in place |
| RingBuffers.RingBuffer.PopBack | libs/libcon/src/ring_buffer.hpp:33-43 | waits exactly when nothing is unread, otherwise returns the oldest item and removes it from the contents |
| Monitor.StepKeepsInv | libs/libcon/src/ring_buffer.hpp:22-43 | every step of any thread keeps: the mutex is exclusive; while a consumer waits, unread items are at most the woken consumers plus the notifies owed, and the dual for producers; items come out in order |
| Monitor.NoLostWakeup | libs/libcon/src/ring_buffer.hpp:22-43 | any capacity, any threads, any interleaving, spurious wakeups included: if a waiting thread's predicate is true, some thread is awake inside the monitor |
| Monitor.AwakeThreadsCanMove | libs/libcon/src/ring_buffer.hpp:22-43 | whenever a thread is awake inside the monitor, some awake thread has an enabled step |
| Monitor.RestMeansEmptyOrFull | libs/libcon/src/ring_buffer.hpp:22-43 | at rest a consumer waits only if everything pushed has been popped, a producer only if the buffer is full |
| Monitor.BufferGetsTheCalls | libs/libcon/src/ring_buffer.hpp:22-43 | on every run, from the calls alone: what has been pushed are exactly the items of the push calls past their update, each once and each thread's in its order, and as many items have been popped as pop calls are past theirs |
| Monitor.BusyWithLatestCall | libs/libcon/src/ring_buffer.hpp:22-43 | a thread inside the monitor is busy with the operation it called last |
| PumpCore.KeepsOwnership | libs/libcon/src/tcp_client.cpp:116-139 | for any messages: the send in flight, the handler that has not dealt with tx_current_, the lock holder that is filling it and the one that has filled it exclude each other through every instruction, as long as an empty tx_current_ does not mislead the lock holder |
| PumpCore.KeepsGuard | libs/libcon/src/tcp_client.cpp:118-136 | which it never does with non-empty messages: a tx_current_ that is in use is never empty |
| PumpCore.KeepsInOrder | libs/libcon/src/tcp_client.cpp:121-136 | accepted = taken, then the message in hand, then the queue, through every instruction |
| PumpCore.KeepsAccount | libs/libcon/src/tcp_client.cpp:126-136 | the same for the bytes: written, the rest of tx_current_, the message in hand and the queue, in this order, are what was accepted |
| PumpCore.KeepsPieces | libs/libcon/src/tcp_client.cpp:126-136 | with non-empty messages every completion but the last wrote one whole message, and tx_current_ holds what is left of the last |
| PumpCore.KeepsFlag | libs/libcon/src/tcp_client.cpp:125-135 | the flag is set only over a non-empty tx_current_, a send on its way, or while a handler runs, unless the send of an empty message fails |
| PumpCore.KeepsTrap | libs/libcon/src/tcp_client.cpp:127-137 | stalled, or in a branch about to stall, exactly when some outcome is fatal; only the last outcome can be |
| Pump.KeepsAwake | libs/libcon/src/tcp_client.cpp:109-139 | every step keeps, for any messages, but for the failed send of an empty one: with messages queued, tx_current_ empty and the last write kicked, some agent is still going to look at the queue |
| Pump.ReachableInv | libs/libcon/src/tcp_client.cpp:109-139 | all of the above hold after every legal run of non-empty writes on every kind of connection |
| PumpStrand.SerialStreamInv | libs/libcon/src/serial.cpp:109-139 | after every run of a serial port, whatever is written: at most one send in flight and only under the flag, nobody past the flag while it is, ownership, order and account |
| PumpTheorems.PushAccepts | libs/libcon/src/writer.cpp:10-20 | only the execution of a push adds to the accepted messages, and it adds the message pushed |
| PumpTheorems.WritesAreAccepted | libs/libcon/src/writer.cpp:10-20 | on every run the accepted messages are an interleaving of what the callers have entered write with, each caller's in its order, all but a message still in its hands |
| PumpTheorems.OnlyCompletionsWrite | libs/libcon/src/tcp_client.cpp:126-130 | only a successful completion adds to the output, by what its send was given cut to the reported length |
| PumpTheorems.StalledForEver | libs/libcon/src/tcp_client.cpp:121-124 | once tx_current_ is non-empty with nothing in flight and nobody about to send it, no run, whatever it writes, ever sends another byte or touches it |
| PumpTheorems.OutcomesAreWhatTheHandlerFound | libs/libcon/src/tcp_client.cpp:127-134 | what the recorded outcomes say about the completion they stand for |
| PumpTheorems.NothingSentOnceStopped | libs/libcon/src/tcp_client.cpp:109-114 | a TCP client, UDP connection or serial port at rest with the run flag off takes nothing from its queue and sends nothing until it is switched on, whatever is written |
| PumpTheorems.RunFlagIsLastSwitch | libs/libcon/src/tcp_client.cpp:61-63 | on every run the run flag is what the last disconnect, open or close has made it |
| PumpTheorems.RunFlagStays | libs/libcon/src/tcp_client.cpp:17-24 | and without one it is as it was |
| PumpTheorems.DisconnectedForGood | libs/libcon/src/tcp_client.cpp:61-63 | after any run of a TCP client or UDP connection with a disconnect in it that has come to rest, no continuation puts a send in flight or takes a message from the queue |
| PumpTheorems.ClosedUntilOpened | libs/libcon/src/serial.cpp:98-113 | the same for a serial port that has been closed, until it is opened |
| PumpExclusion.ExclusiveIffNoEmptyMessage | libs/libcon/src/tcp_client.cpp:116-126 | on all runs over the allowed messages at most one send is in flight, and it was given what tx_current_ holds, iff the connection is a serial port or the empty message is not allowed |
| PumpExclusion.UntouchedIffNoEmptyMessage | libs/libcon/src/tcp_client.cpp:126 | no step changes tx_current_ or issues another send while a send is in flight, under exactly the same condition |
| PumpExclusion.TwoEmptiesBothSend | libs/libcon/src/tcp_client.cpp:118-126 | the failing run: two callers, two empty messages, two sends in flight |
| PumpConservation.NeverStuckIffNoEmptyMessage | libs/libcon/src/tcp_server.cpp:298-310 | every pop made by startWrite or by the handler finds an unread item, and neither section ever gets stuck, iff the connection is a serial port or the empty message is not allowed |
| PumpConservation.TwoEmptiesBlockAPop | libs/libcon/src/tcp_server.cpp:298-310 | the failing run: the handler pops the message that a caller holding the lock has just found queued |
| PumpConservation.BytesAddUpIffNoEmptyMessage | libs/libcon/src/tcp_client.cpp:126-138 | bytes reported written, the rest of tx_current_, the message in hand and the queue are exactly the bytes accepted, iff the connection is a serial port, or the empty message is not allowed, or no other is |
| PumpConservation.MessageClearedInFlight | libs/libcon/src/tcp_client.cpp:121-134 | the failing run: the handler of an empty message's send clears another message that is in flight |
| PumpConservation.OutputIsPrefixIffNoEmptyMessage | libs/libcon/src/tcp_client.cpp:126-138 | the output is a prefix of the input, iff the connection is a serial port, or the empty message is not allowed, or all bytes that may be written are alike |
| PumpConservation.RestIsSkipped | libs/libcon/src/tcp_client.cpp:121-136 | the failing run: after the clearing a partial write loses the rest of its message and the next one goes out |
| PumpConservation.NeverMoreOutThanIn | libs/libcon/src/tcp_client.cpp:116-138 | on every run of every kind, whatever is written, no more bytes are reported written than were accepted |
| PumpWakeup.DrainedIfKickedExactly | libs/libcon/src/tcp_client.cpp:109-139 | at rest with tx_current_ empty and the last write kicked the queue is empty, iff sends do not fail or the empty message is not allowed; on every kind |
| PumpWakeup.DrainedIfRunningExactly | libs/libcon/src/tcp_client.cpp:109-139 | at rest with tx_current_ empty and the run flag on the queue is empty, iff the connection is not a serial port and sends do not fail or the empty message is not allowed |
| PumpWakeup.WrittenWhileClosed | libs/libcon/src/serial.cpp:109-114 | the failing run on a serial port: a message written while it is closed stays queued when it is opened |
| PumpWakeup.FailedEmptySendLosesWakeup | libs/libcon/src/tcp_client.cpp:118-127 | the failing run on every kind: after the failed send of an empty message the flag turns every later write away |
| PumpBoundaries.BoundariesIffNoEmptyMessage | libs/libcon/src/udp_connection.cpp:85-109 | the i-th successful send carried a prefix of the i-th message written, and all of it unless it is the last send, iff the empty message is not allowed or no other is |
| PumpBoundaries.WholeDatagramsIffNoEmptyMessage | libs/libcon/src/udp_connection.cpp:85-109 | whenever every successful send reports the full size, the datagrams sent are a prefix of the sequence of messages written, under exactly the same condition |
| PumpBoundaries.EmptyIsSkipped | libs/libcon/src/udp_connection.cpp:99-106 | the failing run on every kind: an empty message queued behind another is never sent |
| PumpBoundaries.StallsIffFatalExactly | libs/libcon/src/tcp_client.cpp:127-137 | outside the handler the pipeline is stalled iff some completion failed, was partial or found the queue non-empty, and only the last completion can be such: this holds on all runs iff the empty message is not allowed |
| PumpBoundaries.DeliversIffNoneFatalExactly | libs/libcon/src/tcp_client.cpp:109-139 | at rest and kicked, every accepted byte has been delivered iff no completion was fatal: this holds on all runs iff the empty message is not allowed |
| PumpBoundaries.PartialWriteStalls | libs/libcon/src/tcp_client.cpp:126-136 | on every kind of connection any partial write of any message leaves the rest of it stuck |
| PumpFlag.FlagCoversExactly | libs/libcon/src/tcp_client.cpp:116-136 | on all runs of these callers and allowed messages the flag is on during every send, iff the connection is a serial port, or only the strand writes, or nothing is written, or there is one caller besides the strand and the empty message is not allowed |
| PumpFlag.TwoCallersUncover | libs/libcon/src/tcp_client.cpp:116-136 | the failing run of two callers and any message: one is overtaken between the flag and the lock and sends while the handler resets the flag |
| PumpFlag.EmptiesUncover | libs/libcon/src/tcp_client.cpp:118-136 | the failing run of one caller and empty messages |
| Connections.StartedIsARun | libs/libcon/src/tcp_client.cpp:116-139 | startWrite run without interference does what `Started` says |
| Connections.WriteIsARun | libs/libcon/src/writer.cpp:10-20 | a whole write on an idle connection is a run of the step machine with the stated result |
| Connections.PostedIsARun | libs/libcon/src/serial.cpp:109-114 | so is a posted startWrite |
| Connections.SentDoneIsARun | libs/libcon/src/serial.cpp:126-138 | so is the completion handler with the startWrite that follows it or is posted |
| Connections.CallsAreARun | libs/libcon/src/tcp_client.cpp:109-139 | any sequence of writes, posted startWrites, completions, errors and switches of the run flag is one run of the step machine that writes the same messages |
| Connections.CallsConserve | libs/libcon/src/tcp_client.cpp:109-139 | so after any calls to the object at most one send is in flight, the bytes add up and the output is a prefix of the input, on a serial port or with non-empty messages |
| Connections.CallsKeepInv | libs/libcon/src/tcp_client.cpp:109-139 | and with non-empty messages every invariant of the pipeline holds |
| Connections.SwitchedOffSendsNothing | libs/libcon/src/tcp_client.cpp:109-114 | in any state of the object, what is written after the switch is turned off is queued, and neither sent nor posted |
| Connections.Connection.constructor | libs/libcon/src/tcp_client.cpp:17-24 | the initial state of each kind of connection |
| Connections.Connection.Write | libs/libcon/src/writer.cpp:10-20 | enqueue then kick; waits exactly when the queue of 100 is full |
| Connections.Connection.DoWrite | libs/libcon/src/serial.cpp:109-114 | the kick of each kind: run flag, flag, post or direct call |
| Connections.Connection.StartWrite | libs/libcon/src/tcp_client.cpp:116-126 | sends the oldest queued message if idle and empty, otherwise nothing |
| Connections.Connection.RunPosted | libs/libcon/src/serial.cpp:113-116 | a posted startWrite |
| Connections.Connection.OnSent | libs/libcon/src/tcp_client.cpp:126-137 | the handler of a successful send with any written length up to the size |
| Connections.Connection.SetRun | libs/libcon/src/serial.cpp:92-112 | disconnect, and opening and closing a serial port, make the run flag what they say and change nothing else |
| Connections.Connection.OnSendFailed | libs/libcon/src/tcp_client.cpp:127 | the handler of a failed send changes nothing |
| IntendedPump.IntendedPumpDrains | libs/libcon/src/serial.cpp:116-138 | the changed pipeline, not the code as written, on a serial port, instruction by instruction: on every run the bytes add up and the output is a prefix of the input; the strand and the completions alone stop after a bounded number of steps; and when they have, nobody is in a write and no send has failed, every accepted byte has been delivered |
| IntendedPump.DiffersOnlyWhenStalled | libs/libcon/src/serial.cpp:121-124 | in every state of a serial port a step differs from the code's iff the lock holder finds tx_current_ non-empty, and then the pipeline is stalled |
| IntendedPump.ChangeSendsTwice | libs/libcon/src/tcp_client.cpp:116-126 | on every other kind the change makes two callers send the same message twice |
| TcpClients.OneDeliveryPerConnectOnceStopped | libs/libcon/src/tcp_client.cpp:61-107 | after a disconnect the run flag stays off, and each connection, under way or made later, delivers at most one more chunk, and none if it was over |
| TcpClients.ReadsGoOnWhileRunning | libs/libcon/src/tcp_client.cpp:89-107 | the flag is on exactly until the first disconnect or error, and until then every call to connect is still resolving, connecting or reading |
| TcpClients.ReadsAreReceived | libs/libcon/src/tcp_client.cpp:94-99 | on every run what is received is the data of the successful reads, in order |
| TcpClients.StageIsLastAnswer | libs/libcon/src/tcp_client.cpp:35-107 | on every run an attempt is where the last answer to it leads: resolved to connecting, connected to reading, read to reading while nothing has failed and nobody has disconnected, otherwise over |
| TcpClients.UnansweredIsResolving | libs/libcon/src/tcp_client.cpp:35-60 | every call to connect makes an attempt, which resolves until it is answered |
| TcpClients.TcpClient.HandleRead | libs/libcon/src/tcp_client.cpp:94-107 | deliver and read again if running; disconnect on an error |
| TcpClients.TcpClient.HandleConnect | libs/libcon/src/tcp_client.cpp:75-88 | start a read without looking at the run flag; disconnect on an error |
| TokenTables.LookupFindsOldest | libs/libcon/src/coap_client.cpp:325-335 | search returns the oldest request of the token, or nothing |
| TokenTables.FirstEntryDecides | libs/libcon/src/coap_client.cpp:325-358 | search and flush go to the first entry of the token; flush removes it unless it belongs to an observation that has started, and does nothing without one |
| TokenTables.FlushTakesOldest | libs/libcon/src/coap_client.cpp:337-358 | flush takes the oldest request of its token and leaves every other token's requests and their order |
| TokenTables.TrackAddsYoungest | libs/libcon/src/coap_client.cpp:306-323 | a tracked request joins its token's queue at the end |
| TokenTables.FlushesServeInOrder | libs/libcon/src/coap_client.cpp:325-358 | repeated flushes of one token serve its requests in insertion order |
| TokenTables.TableIsMap | libs/libcon/src/coap_client.cpp:325-358 | with distinct tokens, search is map lookup and flush is map removal, and tokens stay distinct |
| TokenTables.TrackingIsInsertion | libs/libcon/src/coap_client.cpp:306-323 | and tracking a fresh token is map insertion |
| TokenTables.TokenTable.TrackNew | libs/libcon/src/coap_client.cpp:306-323 | appends the entry unless one of the two allocations fails |
| TokenTables.TokenTable.Check | libs/libcon/src/coap_client.cpp:325-335 | the linear search computes the lookup |
| TokenTables.TokenTable.Flush | libs/libcon/src/coap_client.cpp:337-358 | removes the first match in place, unless it belongs to a started observation |
| TokenTables.TokenTable.ShiftDown | libs/libcon/src/coap_client.cpp:347-353 | the shift removes one entry and moves nothing else out of order |
| CoapClients.TableHoldsWaiting | libs/libcon/src/coap_client.cpp:194-358 | after every run, duplicates and multicast included, the table holds for each token exactly the requests still waiting, in order |
| CoapClients.MessageEffect | libs/libcon/src/coap_client.cpp:206-250 | a message is signalled, to the oldest waiting request of its token and with its payload, iff there is one, it is not a reset and its code is of class 2, whatever its options; it is rejected iff there is no such request and it is an unsolicited CON or NON |
| CoapClients.SignalledUntilTerminal | libs/libcon/src/coap_client.cpp:194-303 | a request with a fresh token is signalled once per success response up to and including the first terminal response and never after |
| CoapClients.WaitsUntilTerminal | libs/libcon/src/coap_client.cpp:252-300 | such a request waits exactly until the first terminal response |
| CoapClients.WhatEndsAnExchange | libs/libcon/src/coap_client.cpp:219-300 | on a run, whether the request goes on waiting after one more message: it does after a reset or a block with more to come, it does not after a last block, and after anything else iff it was multicast |
| CoapClients.BlockwiseTransferIsHeard | libs/libcon/src/coap_client.cpp:233-280 | a block-wise transfer, unicast or multicast, is signalled block by block, in order and once, and whatever arrives later is not |
| CoapClients.SingleAnswerIsHeard | libs/libcon/src/coap_client.cpp:219-300 | a unicast request answered by one message without a Block2 option: a success is signalled once with its payload, an error is not, the exchange is over, and nothing that arrives later is signalled |
| CoapClients.BodiesStayUntilFreed | libs/libcon/src/coap_client.cpp:129-147 | while at most 2^64 bodies have been stored, the k-th request has id k and its body is in the table unchanged from its store to its own free, and no other is |
| CoapClients.SentWithOwnBody | libs/libcon/src/coap_client.cpp:136-145 | the next request is sent with its own body iff the counter has not wrapped or request 0 is freed or has an equal body |
| CoapClients.CoapClient.SendRequest | libs/libcon/src/coap_client.cpp:117-147 | tracks the token, and stores a non-empty body under the next id |
| CoapClients.CoapClient.MessageCallback | libs/libcon/src/coap_client.cpp:194-303 | the callback signals the payload of a success response to the oldest request of its token, rejects an unsolicited message of an unknown token, and changes the table as stated |
| CoapClients.CoapClient.FreeLargeData | libs/libcon/src/coap_client.cpp:360-362 | removes that body and no other |
| CoapClients.CoapClient.SessionTo | libs/libcon/src/coap_client.cpp:180 | a new session decides about multicast and keeps the table |
| TcpServers.StepKeepsInv | libs/libcon/src/tcp_server.cpp:59-76 | every accept, read completion, start and stop keeps the lifecycle invariant |
| TcpServers.ClientLifecycle | libs/libcon/src/tcp_server.cpp:251-284 | on every run a client is in the set iff it runs, has at most one read outstanding, was signalled connected once, and disconnected once iff it went without being swept by stopAll |
| TcpServers.NoClientWhileClosed | libs/libcon/src/tcp_server.cpp:110-166 | a closed acceptor means an empty client set after every step, late accepts included |
| TcpServers.GoneForEver | libs/libcon/src/tcp_server.cpp:65-76 | a client that has left never returns, reads more, or is signalled again |
| TcpServers.OpenIsLastCommand | libs/libcon/src/tcp_server.cpp:110-141 | on every run the acceptor is open iff the last start or stop was a start with a protocol |
| TcpServers.MembersAreTheAccepted | libs/libcon/src/tcp_server.cpp:59-76 | on every run a client is in the set iff it was accepted while the server was open and since then there was no start, no stop and no read error of it but an abort |
| TcpServers.GoesOnAccepting | libs/libcon/src/tcp_server.cpp:123-165 | from a start with a successful bind until a stop, another start or a failed accept, the server is open with an accept outstanding |
| TcpServers.NextClientIsTaken | libs/libcon/src/tcp_server.cpp:152-166 | and the next connection is then taken: in the set, running, one read outstanding, signalled as connected, the next accept under way |
| TcpServers.GoesOnReading | libs/libcon/src/tcp_server.cpp:267-284 | a client in the set has exactly one read outstanding iff none of its reads was aborted |
| TcpServers.ReadErrorIsTold | libs/libcon/src/tcp_server.cpp:276-281 | a read error of a client in the set takes it out and signals it as disconnected |
| TcpServers.ReadsAreReceived | libs/libcon/src/tcp_server.cpp:270-274 | on every run what clients signal as received is what their reads brought, in order |
| TcpServers.TcpServer.StopAll | libs/libcon/src/tcp_server.cpp:71-76 | the loop stops every client in the set and empties it |
| TcpServers.TcpServer.Stop | libs/libcon/src/tcp_server.cpp:133-141 | closes the acceptor and sweeps the clients |
| TcpServers.TcpServer.Start | libs/libcon/src/tcp_server.cpp:110-132 | stops first; opens unless the protocol is none; accepts if the bind succeeds |
| TcpServers.TcpServer.SetOptions | libs/libcon/src/tcp_server.cpp:142-149 | restarts an open server and leaves a closed one alone |
| TcpServers.TcpServer.OnAccept | libs/libcon/src/tcp_server.cpp:152-166 | nothing once closed; otherwise a new client, started, and the next accept |
| TcpServers.TcpServer.OnRead | libs/libcon/src/tcp_server.cpp:267-284 | data reads on if running, an abort does nothing, another error stops a running client |
| PlotBuffers.ScrollingViewIsRecentHistory | plugins/lua_base/src/lua_gui_bindings.cpp:18-27 | any capacity above 0, any history: reading from Offset with wrap-around gives exactly the most recent points in order |
| PlotBuffers.OverwriteRotates | plugins/lua_base/src/lua_gui_bindings.cpp:24-25 | overwriting at Offset drops the oldest point of the view and appends the new one |
| PlotBuffers.ScrollingBuffer.AddPoint | plugins/lua_base/src/lua_gui_bindings.cpp:18-27 | keeps the view equal to the recent history |
| PlotBuffers.ScrollingBuffer.Erase | plugins/lua_base/src/lua_gui_bindings.cpp:28-35 | restarts the history |
| PlotBuffers.ScrollingBuffer.PlotLine | plugins/lua_base/src/lua_gui_bindings.cpp:37-40 | draws exactly the most recent points since the last erase, oldest first, as many as fit |
| PlotBuffers.PeriodIsFloor | plugins/lua_base/src/lua_gui_bindings.cpp:55 | the period is the floor of x/Span and fmod is the rest |
| PlotBuffers.FmodIsRemainder | plugins/lua_base/src/lua_gui_bindings.cpp:55 | fmod of any time, negative ones included, is shorter than Span, has the sign of the time, and differs from it by whole spans |
| PlotBuffers.PlacesAdd | plugins/lua_base/src/lua_gui_bindings.cpp:55 | places in the period add up, less one span when they reach it, and the periods with a carry |
| PlotBuffers.WrapTestIsExact | plugins/lua_base/src/lua_gui_bindings.cpp:55-57 | between non-decreasing times the wrap check tells exactly whether a new period began, iff the step is below Span or the places of the earlier time and of the step add up to Span |
| PlotBuffers.WholeSpanGoesUnnoticed | plugins/lua_base/src/lua_gui_bindings.cpp:56 | a step of exactly one span that it misses |
| PlotBuffers.DataIsSinceLastWrap | plugins/lua_base/src/lua_gui_bindings.cpp:53-59 | for any history the data is what came since the check last fired |
| PlotBuffers.DataStandsForHistory | plugins/lua_base/src/lua_gui_bindings.cpp:53-59 | for any history every point kept stands for the point of the history in the same place from the end: the same y, and an x that differs by whole spans |
| PlotBuffers.RollingDataIsWindowExactly | plugins/lua_base/src/lua_gui_bindings.cpp:53-59 | for every non-negative, non-decreasing history the data is the current period's part of it, iff the step into that period was one that the check notices |
| PlotBuffers.SteadyDataIsWindow | plugins/lua_base/src/lua_gui_bindings.cpp:53-59 | so it always is when every step is below Span |
| PlotBuffers.WindowIsCurrentPeriod | plugins/lua_base/src/lua_gui_bindings.cpp:53-59 | that part is the longest suffix in one period |
| PlotBuffers.WindowIsSorted | plugins/lua_base/src/lua_gui_bindings.cpp:55-58 | with x-values in [0, Span) that never go back |
| PlotBuffers.RollingBuffer.AddPoint | plugins/lua_base/src/lua_gui_bindings.cpp:53-59 | any time is taken; every point kept has the y of the point it stands for and its x less whole spans; for non-decreasing times the data is the current period under the exact condition above |

## Left out

- PlotBuffers.ScrollingBuffer.AddPoint: requires a MaxSize above 0, because the code writes outside the buffer otherwise.
- PlotBuffers.ScrollingBuffer.PlotLine: requires a point to draw, because the code takes the address of the first element.
- PlotBuffers.RollingBuffer.AddPoint: float rounding is not modelled; coordinates are reals, and fmod takes off whole spans exactly.
- Connections.Connection.Write: one call at a time; concurrent calls are the step machine of module Pump, where the queue is the bounded sequence that the ring buffer is proved to implement.
- IntendedPump.IntendedPumpDrains: claims delivery only on runs without a failed send, because a failed send leaves the flag on for good, as in the code; the other kinds are covered by ChangeSendsTwice alone.
- TcpServers.TcpServer.OnRead: user callbacks that call back into the server from within a handler are not modelled.
- At most one accept outstanding: a successful accept delivered after a restart starts a second accept loop, and the model allows that.
- Reopening a serial port while its old read is still being aborted, and the reading side of the serial port and of UDP.
- C++ memory-model races: every shared access is one atomic step.
- CoAP path splitting, option encoding, sessions, token generation and retransmission are the library's; tokens and response contents are parameters.
- A CoAP observation that has been started: the client never starts one. `TokenTable.Flush` covers it, the run theorems do not need it.
- The serial option mapping, endpoints and address resolution, logging, the thread pool.
- All windows, Vulkan and SDL, fonts, icons, the Lua bindings themselves and plugin loading.
