# A verified model of the adbd port, its kernel schedulers and CRC code

This project models, in Dafny, the parts of the repository where something can go wrong
between functions rather than inside one: the ADB stream multiplexer and its transport,
the select event loop, the two O(1) scheduler classes, the base64 and CRC32 code, packet
framing and the file-sync session.  It then proves what those parts promise, over every
run, every interleaving or every input.

| files | what they hold |
|---|---|
| `StreamSocket`, `Stream`, `Mux`, `Endpoint` | one end of a stream, the two-ended protocol with its invariant, any number of streams over one transport, and the daemon's own methods and loops |
| `SocketGraph` | sockets, peers, lists and disconnect hooks; the mutually recursive close; detaching a transport |
| `SyncGate`, `Teardown` | the pump threads as interleaving systems |
| `FdEvent` | fd table, select sets, high-water mark, pending list, dispatch |
| `Fifo`, `Rotation`, `FairSched`, `RtSched` | the tiny fair and real-time classes |
| `Base64`, `Iteration`, `Crc32`, `Framing` | codecs, checksums, packets on the wire |
| `SyncWire`, `FileSync`, `SyncService` | file-sync messages, the session as functions and the service as loops |

Code that changes state is a class or a method with loops (`Endpoint.Daemon`,
`SocketGraph.SocketTable`, `FdEvent.EventLoop`, `FairSched.TinyRq`, `RtSched.RtRq`,
`SyncService.Service`, and the array methods of `Base64`); each method is proved equal to a
function of the old state, and the theorems are about runs of those functions.

## How the model reads the source

- **Environment.** Results of system calls, timing of reads and writes, and the interleaving
  of threads are parameters.  `adb_read` and `adb_write` retry on EINTR, so EINTR never
  surfaces.  Packets travel on FIFO links; each locked section is one step.
- **Events.** A socket gets a read event only while armed, and a write event only while it has
  a backlog, with one exception that the code really has.  The comment at
  `adbd/src/fdevent.c:663-666` says unwanted pending events are dropped; line 667 drops the
  *wanted* ones (`FdEvent.SetDropsWantedEvents`, `FdEvent.DisarmedEventIsCalled`).  A disarmed READ can therefore still reach a
  socket that has just moved to the closing list.  It is the event `StaleRead`: its end of
  file destroys the socket together with its backlog (cause `Broken`).
- **Delivery.** Delivery to open and closing receivers is exact.  A socket can also be destroyed
  while bytes for it are under way: by end of file on its own fd, by a stale read event, or by
  a failing write.  `Stream.ExactDelivery` and, over runs, `Mux.ExactDelivery` say for every
  event, from the state before it, when the socket is destroyed and when nothing is lost;
  `Stream.EofLossIsReachable` and `Stream.StaleEofLossIsReachable` are runs that lose a byte.
  A write error in the enqueue path destroys the socket with an empty backlog, one in the
  write event moves it to the closing list, as in the code.
- **History.** Stream keys, the record of ids, delivered packets, bytes read and written, and the
  reason a socket went are history variables; no decision looks at them.
- **Schedulers.** `core.c` is outside the patches; its protocol (dequeue, modify, enqueue around a
  priority change; wakeup_preempt after an enqueue; set_next_task on a switch) is `Step`.
  HZ is a parameter.  `Rotation.Times(m, S)` is `m * S` (`Rotation.TimesIsProduct`).
- **Words.** CRC words are lists of 32 bits, least significant first.  Base64 works on real
  8-bit vectors.  Header words are 32-bit numbers stored in either byte order; `magic` is the
  complement `0xffffffff - command`.
- **File sync.** The reply pipe works; every unlink, open, read, write, lstat and readdir on files
  succeeds or fails as the environment says, request by request.  A failed unlink is followed
  by an open without truncation, so a longer old file keeps its tail: OKAY means the exact
  bytes if and only if no longer file was left in place (`FileSync.OkayMeansExactFile`,
  `FileSync.StaleTailIsReachable`).

## Model

| member | source | states |
|---|---|---|
| `StreamSocket.DropBytesLeaves` | adbd/src/sockets.c:275-300 | After k bytes of a packet queue were written, the queue holds exactly the remaining bytes, and is empty exactly when all were written. |
| `StreamSocket.EnqueueConserves` | adbd/src/sockets.c:127-178 | Whatever its queue and whatever the fd takes, a socket that stays open has written or queued every byte in order; OKAY is sent exactly when nothing is left; it stays open unless the fd fails with bytes left. |
| `Stream.StepKeepsInv` | adbd/src/sockets.c:127-381 | Every packet and fd event at either end keeps the stream invariant: handshake phase, token count, delivery equation and close handshake in both directions. |
| `Stream.DeliveryRunsDry` | adbd/src/adb.c:576-625 | Each delivered packet strictly lowers the total weight in flight, so without new fd events the exchange always comes to rest. |
| `Stream.DryMeansClosed` | adbd/src/sockets.c:227-261 | With both links empty, one closed end means both ends are closed. |
| `Stream.ClosedIsSilent` | adbd/src/sockets.c:62-77 | Once both ends are closed no event sends a packet; a late CLSE matches no listed id. |
| `Stream.ExactDelivery` | adbd/src/sockets.c:127-381 | For every event at either end: the end is destroyed exactly when `Destroys` holds of the state before, and then everything its peer had read is written exactly when `LosesNothing` holds of the state before (own end of file: no payload in flight; stale end of file: nothing left to write; failing write: everything taken; CLSE: always). |
| `Stream.DestroyedWhen` | adbd/src/sockets.c:246-260 | The exact condition, per event, under which a socket is destroyed rather than kept or moved to the closing list. |
| `Stream.ClosedWhen` | adbd/src/sockets.c:127-381 | The exact condition, per event, under which a listed socket closes (CLSE, own end of file, failing write), and that a CLSE is then the last packet it sends. |
| `Stream.HistoriesGrow` | adbd/src/sockets.c:275-344 | An event adds to the input history exactly the bytes the fd gave and to the output history exactly the bytes the fd accepted. |
| `Stream.ReadIsSent` | adbd/src/sockets.c:347-380 | A read event sends all it read, up to 4096 bytes, in one WRTE, and then at most a CLSE. |
| `Stream.EofLossIsReachable` | adbd/src/sockets.c:376-380 | A concrete run in which a byte in flight is lost because the receiver's own fd ended. |
| `Stream.StaleEofLossIsReachable` | adbd/src/sockets.c:376-380 | A concrete run in which the sender ended in good order and the receiver, on the closing list with one byte to write, is destroyed by a read event pending from before. |
| `Mux.Lift` | adbd/src/sockets.c:62-107 | Every step of two endpoints with any number of streams is, seen from each stream, one step of that stream or none: id lookup never crosses streams. |
| `Mux.StepKeepsInv` | adbd/src/adb.c:516-632 | One step of either endpoint keeps ids, peers and addresses right and every stream's invariant. |
| `Mux.RunInv` | adbd/src/adb.c:516-632 | The multiplexer invariant holds after every run. |
| `Mux.TokenConservation` | adbd/src/sockets.c:487-508 | In every run, each direction of each stream has at most one of: sender armed, WRTE in flight, receiver backlog, OKAY in flight; exactly one while both ends are open. |
| `Mux.LosslessDelivery` | adbd/src/sockets.c:272-381 | In every run, what the fd of one end gave to its read events (`ReadLog`, told from the moves) is what the other end's fd accepted (`WriteLog`), then its backlog, then the payload in flight, in order; for destroyed receivers `Mux.ExactDelivery` is the full statement. |
| `Mux.HistoriesAreLogs` | adbd/src/sockets.c:275-352 | In every run the histories kept with a socket are those logs: nothing read is dropped and nothing is recorded that the fd did not give or accept. |
| `Mux.ExactDelivery` | adbd/src/sockets.c:227-381 | In every run and for every stream: if a move destroys an end, what its fd accepted in the whole run is all its peer's fd had given exactly when `LosesNothing` holds before the move; if the peer had closed before, it is all the peer's fd ever gave. |
| `Mux.OnlyDestroyed` | adbd/src/sockets.c:196-225 | In every run an end goes only by a move for which `Destroys` holds before it. |
| `Mux.ClosedForGood` | adbd/src/sockets.c:227-261 | In every run a destroyed end never changes again and a closed end reads nothing more. |
| `Mux.Quiesces` | adbd/src/adb.c:576-625 | From every run, deliveries alone end within the load (packets weighted, plus listed sockets), and once nothing is in flight every stream with a closed end is closed at both. |
| `Mux.CloseHandshake` | adbd/src/sockets.c:227-261 | In every run CLSE is the last packet a side sends on a stream, a listed end has sent and received none, and with links empty both ends are closed together. |
| `Mux.BacklogHasPeer` | adbd/src/sockets.c:311-317 | In every run a listed socket without peer has no backlog and is not armed, so `s->peer->ready` never meets a null peer. |
| `Mux.NoCrossTalk` | adbd/src/adb.c:592-625 | In every run a packet in flight names the socket of its own stream at the receiver. |
| `Endpoint.WriteOut` | adbd/src/sockets.c:144-158 | The write loop takes exactly the bytes the fd accepts and reports why it stopped. |
| `Endpoint.AcceptIsExact` | adbd/src/sockets.c:144-158 | Writing one packet takes all the fd has room for and counts as failed only if the fd fails with bytes left. |
| `Endpoint.AcceptAllIsExact` | adbd/src/sockets.c:275-300 | Writing the queue stops short only when the working writes are used up, and fails exactly when the next one does. |
| `Endpoint.GatherIsExact` | adbd/src/sockets.c:327-344 | A read event gets all the fd gives, up to its buffer, however it is split, and sees the end exactly if there was room for more. |
| `Endpoint.ReadIn` | adbd/src/sockets.c:327-344 | The read loop gathers at most MAX_PAYLOAD bytes up to EAGAIN or end of file. |
| `Endpoint.Flush` | adbd/src/sockets.c:275-300 | The nested write loops write a prefix of the queued bytes and leave exactly the rest, split packet included. |
| `Endpoint.Daemon.constructor` | adbd/src/sockets.c:46-60 | An endpoint starts with id 1 and no sockets. |
| `Endpoint.Daemon.Connect` | adbd/src/sockets.c:563-581 | Opening a stream is the Connect step of the multiplexer. |
| `Endpoint.Daemon.CloseSocket` | adbd/src/sockets.c:227-261 | Closing sends CLSE to the peer, then destroys or moves to the closing list, as `StreamSocket.Close`. |
| `Endpoint.Daemon.EnqueueData` | adbd/src/sockets.c:127-178 | Receiving data writes, queues or closes, with OKAY only when all was written. |
| `Endpoint.Daemon.HandlePacket` | adbd/src/adb.c:516-632 | Handling OPEN, OKAY, CLSE and WRTE is the multiplexer's Handle, for every script of writes. |
| `Endpoint.Daemon.ReadEvent` | adbd/src/sockets.c:320-381 | A read event is `StreamSocket.OnRead` on what the read loop gathered. |
| `Endpoint.Daemon.StaleReadEvent` | adbd/src/sockets.c:320-381 | A read event on a closing socket discards what it reads; end of file destroys the socket with its backlog, as `StreamSocket.OnStaleRead`. |
| `Endpoint.Daemon.WriteEvent` | adbd/src/sockets.c:272-318 | A write event is `StreamSocket.OnWrite` on what the fd accepted. |
| `SocketGraph.ClosedInv` | adbd/src/sockets.c:188-261 | Closing any socket keeps the graph invariant: symmetric peers, nonzero distinct ids, write interest iff backlog, closing iff on the closing list without peer. |
| `SocketGraph.DisconnectedInv` | adbd/src/sockets.c:530-542 | The disconnect callback keeps the graph invariant. |
| `SocketGraph.StepInv` | adbd/src/sockets.c:79-261 | Creating, linking, pairing, arming, queueing (with or without a peer), draining, closing and losing sockets each keep the graph invariant. |
| `SocketGraph.StepPeered` | adbd/src/sockets.c:127-178 | "A listed socket with a backlog has a peer" is kept by every operation except exactly a queueing on a listed socket that has none. |
| `SocketGraph.RunPeered` | adbd/src/sockets.c:311-317 | That property holds throughout a run if and only if the run never queues on a listed socket without a peer. |
| `SocketGraph.RunInv` | adbd/src/sockets.c:79-261 | The graph invariant holds after every sequence of operations. |
| `SocketGraph.ClosedSpares` | adbd/src/sockets.c:118-123 | Closing a socket of a transport leaves every socket unrelated to it unchanged. |
| `SocketGraph.ClosedShrinks` | adbd/src/sockets.c:117-123 | Closing a listed socket strictly shrinks the open list. |
| `SocketGraph.SocketTable.FindLocal` | adbd/src/sockets.c:62-77 | Lookup finds the one listed socket with the id, or none if there is none. |
| `SocketGraph.SocketTable.Close` | adbd/src/sockets.c:227-261 | The mutually recursive close ends and leaves exactly peer-retired-then-self-retired. |
| `SocketGraph.CloseFates` | adbd/src/sockets.c:227-261 | Closing x: x and its peer each stay on the closing list with their backlog if they have one and are gone otherwise, each remote one sends one CLSE, the peer's first, and no other socket changes. |
| `SocketGraph.DisconnectFates` | adbd/src/sockets.c:530-542 | Losing its transport, a remote socket goes without a CLSE and its peer is closed as always. |
| `SocketGraph.SetupTakesEffect` | adbd/src/sockets.c:79-95 | A created socket is listed under the next id; linking and pairing make peers of each other, on the right transport, armed. |
| `SocketGraph.EventsTakeEffect` | adbd/src/sockets.c:160-186 | Arming arms, queueing adds to the backlog and arms for writing, draining empties it and disarms. |
| `SocketGraph.SocketTable.CloseAll` | adbd/src/sockets.c:109-125 | The restart loop ends with no listed socket, nor listed socket's peer, on the transport; all other sockets are untouched. |
| `SocketGraph.SocketTable.Disconnect` | adbd/src/sockets.c:530-542 | The callback closes the peer and frees the remote socket without a CLSE. |
| `SocketGraph.SocketTable.RunDisconnects` | adbd/src/transport.c:78-88 | Every callback of the disconnect list is called exactly once, in order, and the list ends empty. |
| `SyncGate.StepInv` | adbd/src/transport.c:247-350 | Every step of output thread, main loop and input thread keeps the gate invariant. |
| `SyncGate.GateTheorem` | adbd/src/transport.c:301-350 | In every interleaving, what reached write_to_remote is exactly the non-SYNC packets queued between the echoed matching SYNC and the echoed SYNC(0), in order; no SYNC does. |
| `SyncGate.GateOpens` | adbd/src/transport.c:247-299 | In every run the pipe to the main loop carries what the output thread wrote, in order, first of all SYNC(1, the current token), and the SYNCs queued for the input thread are those the main loop has handled, in order. |
| `SyncGate.OpenGatePasses` | adbd/src/transport.c:316-337 | In every run a packet read after the matching SYNC and before any SYNC(0) is on the wire. |
| `SyncGate.MainAnswers` | adbd/src/adb.c:525-535 | The main loop takes packets in order, echoes a SYNC as it is and queues its other packets unchanged. |
| `SyncGate.FirstPacketPasses` | adbd/src/transport.c:322-333 | A concrete run: start, echo, one packet, and it is on the wire. |
| `Teardown.StepInv` | adbd/src/transport.c:689-712 | Every thread step keeps reference count, kicked flag and call record in agreement. |
| `Teardown.TeardownOrder` | adbd/src/transport.c:64-76 | In every interleaving the calls made are none, kick, or kick then close then removal; all three exactly when every thread is done. |
| `Teardown.TeardownCompletes` | adbd/src/transport.c:294-349 | Once every thread has had five turns, in any interleaving, kick, close and removal have each happened. |
| `FdEvent.InstallOk` | adbd/src/fdevent.c:452-478 | Installing an unregistered fd keeps table, select sets and pending list in agreement, or aborts exactly for an fd above 32000 beyond the table. |
| `FdEvent.InstallIsExact` | adbd/src/fdevent.c:615-631 | Installing registers the fde at its fd with no interest and nothing pending, and changes no other fde or table entry. |
| `FdEvent.RemoveIsExact` | adbd/src/fdevent.c:633-647 | Removing takes the fde out of table, select sets and pending list, and changes no other. |
| `FdEvent.SetIsExact` | adbd/src/fdevent.c:649-683 | Afterwards exactly the given events are wanted; add and del join and take away; no other fde changes. |
| `FdEvent.SetArms` | adbd/src/fdevent.c:287-306 | An active fde is in each select set exactly if its event was asked for. |
| `FdEvent.AbortsWhenOutOfStep` | adbd/src/fdevent.c:435-488 | Where the code aborts: a reported fd without fde, an fd out of range or out of sync, an fd too large. |
| `FdEvent.SubprocForcesRead` | adbd/src/fdevent.c:587-591 | A finished subprocess adds READ to its pending fde and nothing else. |
| `FdEvent.CallsTakeEffect` | adbd/src/fdevent.c:615-683 | Every call the rules of use allow is carried out in a run. |
| `FdEvent.RemoveOk` | adbd/src/fdevent.c:480-496 | Removing keeps them in agreement and never reaches the out-of-range or out-of-sync abort. |
| `FdEvent.SetOk` | adbd/src/fdevent.c:649-673 | Changing the wanted events keeps them in agreement. |
| `FdEvent.SetDropsWantedEvents` | adbd/src/fdevent.c:663-672 | The pending events after fdevent_set are the old ones without the newly wanted; the fde stays pending iff some unwanted event was. |
| `FdEvent.DisarmedEventIsCalled` | adbd/src/fdevent.c:662-683 | Whatever is pending, an event taken out of the wanted ones stays pending, and a drain whose callbacks leave the fde alone calls it with that event. |
| `FdEvent.PendingArmedReadIsReachable` | adbd/src/fdevent.c:420-447 | A concrete state, from the empty loop, with an armed READ pending, to which that applies. |
| `FdEvent.RunOk` | adbd/src/fdevent.c:699-713 | After every number of rounds of the loop from the start, with any calls, select results and callbacks, everything agrees and no abort was reached. |
| `FdEvent.RoundLeavesNothing` | adbd/src/fdevent.c:707-711 | After a round nothing is pending. |
| `FdEvent.ReportsAll` | adbd/src/fdevent.c:420-447 | Reporting appends the newly pending fdes in ascending fd order, each once, and never meets a missing fde. |
| `FdEvent.ReportedAs` | adbd/src/fdevent.c:414-447 | An fde with nothing reported before is reported READ iff its fd is in the read set, WRITE iff in the write set, ERROR iff in the error set; after EBADF or an empty result, READ iff its fd is bad. |
| `FdEvent.CalledAsWanted` | adbd/src/fdevent.c:420-447 | Such an fde, if no callback touches it, is called only with events it wants, or with READ because its fd is bad. |
| `FdEvent.ApplyOk` | adbd/src/fdevent.c:615-683 | No call made from a callback adds to the pending list or breaks the agreement. |
| `FdEvent.ApplyAllOk` | adbd/src/fdevent.c:531-539 | A whole callback only shrinks the pending list and removes what it removes from it. |
| `FdEvent.DrainCallsEach` | adbd/src/fdevent.c:699-713 | A pending fde that no callback touches is called, with all its events. |
| `FdEvent.DrainCallsOnce` | adbd/src/fdevent.c:516-539 | Only fdes pending at the start are called, each at most once, each with some event. |
| `FdEvent.DrainInOrder` | adbd/src/fdevent.c:498-529 | With callbacks that make no calls, the pending fdes are called one after the other, in order. |
| `FdEvent.DrainHonoursRemoval` | adbd/src/fdevent.c:480-496 | No fde is called after a callback has removed it. |
| `FdEvent.EventLoop.constructor` | adbd/src/fdevent.c:259-264 | The empty loop is consistent. |
| `FdEvent.EventLoop.InstallFd` | adbd/src/fdevent.c:452-478 | Registration, with the doubling loop, is `Install`; the table never exceeds 32768 entries. |
| `FdEvent.EventLoop.Unregister` | adbd/src/fdevent.c:273-285 | The scan leaves the high-water mark one above the last entry and clears the fd everywhere. |
| `FdEvent.EventLoop.RemoveFd` | adbd/src/fdevent.c:633-647 | Removal is `Remove` and keeps the loop consistent. |
| `FdEvent.SetSets` | adbd/src/fdevent.c:287-306 | After any change of wanted events every select set holds exactly the fds of the table whose fde wants that event. |
| `FdEvent.EventLoop.SetEvents` | adbd/src/fdevent.c:649-673 | fdevent_set is `Set` and keeps the loop consistent. |
| `FdEvent.EventLoop.AddEvents` | adbd/src/fdevent.c:675-678 | fdevent_add is `Add` and keeps the loop consistent. |
| `FdEvent.EventLoop.DelEvents` | adbd/src/fdevent.c:680-683 | fdevent_del is `Del` and keeps the loop consistent. |
| `FdEvent.EventLoop.FdCheck` | adbd/src/fdevent.c:311-326 | The scan after EBADF returns exactly the registered fds that fail, and their number. |
| `FdEvent.EventLoop.Process` | adbd/src/fdevent.c:380-447 | The processing after select is `Processed`: a full report of what select found, of the bad fds when it found nothing or failed with EBADF, nothing on EINTR. |
| `FdEvent.ProcessedOk` | adbd/src/fdevent.c:380-447 | Processing keeps table, sets and pending list in agreement and reaches no abort. |
| `FdEvent.EventLoop.CountDown` | adbd/src/fdevent.c:420-447 | The count-down with its early exit reports exactly what a full scan would. |
| `FdEvent.EventLoop.Dequeue` | adbd/src/fdevent.c:516-529 | Dequeuing takes the head, with its events, and clears its flags. |
| `FdEvent.EventLoop.Callback` | adbd/src/fdevent.c:615-683 | A callback of any calls into the loop is `ApplyAll`. |
| `FdEvent.EventLoop.Drain` | adbd/src/fdevent.c:699-713 | The dispatch loop ends, leaves nothing pending and makes exactly the calls of `Drained`. |
| `FdEvent.EventLoop.RunLoop` | adbd/src/fdevent.c:699-713 | Any number of rounds of the loop is `Run`. |
| `Fifo.FindFirstBit` | patches/linux/0014-Add-sched-fair-tiny.patch:237-239 | The bit scan returns the least set bit, or the size. |
| `Rotation.ShareAfter` | patches/linux/0014-Add-sched-fair-tiny.patch:272-291 | In any rotation of slices of S, after m whole slices and u ticks each position has had S, u or no ticks according to its place. |
| `FairSched.OutranksIsBucket` | patches/linux/0014-Add-sched-fair-tiny.patch:134-144 | Being in a better bucket is outranking: negative nice before all others, nice 0 before positive nice and SCHED_IDLE. |
| `FairSched.PickIsBest` | patches/linux/0014-Add-sched-fair-tiny.patch:231-242 | Pick returns the head of its bucket, and no queued task outranks it by policy and nice level; NULL iff nothing is queued. |
| `FairSched.ScheduleRunsBest` | patches/linux/0014-Add-sched-fair-tiny.patch:244-265 | Scheduling runs such a task, with a full slice of HZ/50 + 1 when switched to, clears the pending reschedule and changes nothing else. |
| `FairSched.TickIsExact` | patches/linux/0014-Add-sched-fair-tiny.patch:272-291 | A tick asks for a reschedule exactly when it uses up the slice of a task that shares its bucket; alone, nothing changes. |
| `FairSched.HigherPrioIsExact` | patches/linux/0014-Add-sched-fair-tiny.patch:309-315 | The bitmap test is true iff some queued task outranks p. |
| `FairSched.EnqueueConsistent` | patches/linux/0014-Add-sched-fair-tiny.patch:176-190 | Enqueue keeps bitmap, buckets and counters in agreement and links exactly p. |
| `FairSched.DequeueConsistent` | patches/linux/0014-Add-sched-fair-tiny.patch:192-208 | Dequeue keeps them in agreement and unlinks exactly p. |
| `FairSched.StepInv` | patches/linux/0014-Add-sched-fair-tiny.patch:176-355 | Fork, wakeup, bracketed priority change, yield, tick, schedule, sleep and removal keep index consistency and "an outranking queued task implies a pending reschedule". |
| `FairSched.RunInv` | patches/linux/0014-Add-sched-fair-tiny.patch:87-101 | Both hold after every sequence of operations, for every HZ. |
| `FairSched.WakeTakesEffect` | patches/linux/0014-Add-sched-fair-tiny.patch:176-229 | A woken task is queued last in its bucket and announced exactly if it outranks the running one. |
| `FairSched.LeavingTakesEffect` | patches/linux/0014-Add-sched-fair-tiny.patch:192-208 | A removed or sleeping task is queued no more; a sleeping one is replaced by the best left. |
| `FairSched.ReprioTakesEffect` | patches/linux/0014-Add-sched-fair-tiny.patch:96-100 | A bracketed change sets policy, priority and slice and leaves the task queued as it was. |
| `FairSched.ScheduleStartsRound` | patches/linux/0014-Add-sched-fair-tiny.patch:244-265 | Switching to the head of the best bucket starts it with a full slice. |
| `FairSched.ExactRoundRobin` | patches/linux/0014-Add-sched-fair-tiny.patch:272-291 | With k >= 2 tasks in the best bucket, the task at position i first runs after exactly i*S ticks; after k*S ticks each has run exactly S and the order is restored, with S = HZ/50 + 1. |
| `FairSched.TickingExists` | patches/linux/0014-Add-sched-fair-tiny.patch:272-291 | Every shaped run queue has an execution of ticks with every reschedule honoured. |
| `FairSched.YieldGivesWay` | patches/linux/0014-Add-sched-fair-tiny.patch:210-222 | After a yield in a bucket of two or more the next pick is another task. |
| `FairSched.AheadStays` | patches/linux/0014-Add-sched-fair-tiny.patch:176-222 | No operation on another task lets it pass a queued task of the same bucket. |
| `FairSched.NoOvertaking` | patches/linux/0014-Add-sched-fair-tiny.patch:176-291 | The same over every run in which the task itself does not move. |
| `FairSched.TinyRq.constructor` | patches/linux/0014-Add-sched-fair-tiny.patch:116-119 | The initial run queue is empty with a clear bitmap. |
| `FairSched.TinyRq.EnqueueTask` | patches/linux/0014-Add-sched-fair-tiny.patch:176-190 | The in-place enqueue is `Enqueue` and keeps the index consistent. |
| `FairSched.TinyRq.DequeueTask` | patches/linux/0014-Add-sched-fair-tiny.patch:192-208 | The in-place dequeue is `Dequeue` and keeps the index consistent. |
| `FairSched.TinyRq.YieldTask` | patches/linux/0014-Add-sched-fair-tiny.patch:210-222 | The in-place yield is `Yield` and keeps the invariant. |
| `FairSched.TinyRq.PickTask` | patches/linux/0014-Add-sched-fair-tiny.patch:231-242 | The returned task is queued and no queued task outranks it by policy and nice level; NULL iff the count is zero. |
| `FairSched.TinyRq.TaskTick` | patches/linux/0014-Add-sched-fair-tiny.patch:272-291 | The in-place tick is `Tick` and keeps the invariant. |
| `FairSched.TinyRq.PickNext` | patches/linux/0014-Add-sched-fair-tiny.patch:244-265 | Picking and setting the next task is `Schedule` and establishes the invariant. |
| `FairSched.TinyRq.WakeupPreemptTask` | patches/linux/0014-Add-sched-fair-tiny.patch:224-229 | A reschedule is requested iff the woken task outranks the running one. |
| `FairSched.TinyRq.PrioChange` | patches/linux/0014-Add-sched-fair-tiny.patch:317-337 | A reschedule is requested iff a queued task now outranks the running p, or a queued p the running task. |
| `RtSched.HighestIsExact` | patches/linux/0019-Add-sched-rt-tiny.patch:240-250 | The cached highest priority is below prio iff some queued task is. |
| `RtSched.PickIsBest` | patches/linux/0019-Add-sched-rt-tiny.patch:188-204 | Pick returns the head of the least occupied priority, which is the cached one; NULL iff nothing is queued. |
| `RtSched.ScheduleRunsBest` | patches/linux/0019-Add-sched-rt-tiny.patch:188-204 | Scheduling runs the first of the tasks nobody outranks and clears the pending reschedule; the cached priority is 99 when nothing is queued. |
| `RtSched.YieldGivesWay` | patches/linux/0019-Add-sched-rt-tiny.patch:169-180 | After a yield at a priority with two or more tasks the yielding task is last and another is first, and picked if that priority is the best. |
| `RtSched.PrioChangedIsExact` | patches/linux/0019-Add-sched-rt-tiny.patch:240-250 | A reschedule is requested exactly if some queued task is now above the running p, or a queued p above the running task. |
| `RtSched.WakeTakesEffect` | patches/linux/0019-Add-sched-rt-tiny.patch:122-186 | A woken task is queued last at its priority and announced exactly if it outranks the running one. |
| `RtSched.LeavingTakesEffect` | patches/linux/0019-Add-sched-rt-tiny.patch:141-167 | A removed or sleeping task is queued no more; a sleeping one is replaced by the best left. |
| `RtSched.ReprioTakesEffect` | patches/linux/0019-Add-sched-rt-tiny.patch:240-250 | A bracketed change sets the priority and leaves the task queued as it was. |
| `RtSched.EnqueueConsistent` | patches/linux/0019-Add-sched-rt-tiny.patch:122-139 | Enqueue keeps bitmap with delimiter, queues, counters and cached priority in agreement. |
| `RtSched.DequeueConsistent` | patches/linux/0019-Add-sched-rt-tiny.patch:141-167 | Dequeue keeps them in agreement; the cache is 99 when nothing is queued. |
| `RtSched.StepInv` | patches/linux/0019-Add-sched-rt-tiny.patch:122-256 | Every operation keeps index consistency and announces every inversion. |
| `RtSched.RunInv` | patches/linux/0019-Add-sched-rt-tiny.patch:96-256 | Both hold after every sequence of operations from init_rt_rq. |
| `RtSched.NoOvertaking` | patches/linux/0019-Add-sched-rt-tiny.patch:122-180 | Within a priority nobody passes a task that does not itself move, over every run. |
| `RtSched.RtRq.constructor` | patches/linux/0019-Add-sched-rt-tiny.patch:96-115 | The initialisation loop turns arbitrary memory into the empty queue with the delimiter bit set. |
| `RtSched.RtRq.EnqueueTask` | patches/linux/0019-Add-sched-rt-tiny.patch:122-139 | The in-place enqueue is `Enqueue` and keeps a consistent index consistent. |
| `RtSched.RtRq.DequeueTask` | patches/linux/0019-Add-sched-rt-tiny.patch:141-167 | The in-place dequeue is `Dequeue` and keeps a consistent index consistent; the result says whether the task was queued. |
| `RtSched.RtRq.YieldTask` | patches/linux/0019-Add-sched-rt-tiny.patch:169-180 | The in-place yield is `Yield` and keeps a consistent index consistent. |
| `RtSched.RtRq.WakeupPreemptTask` | patches/linux/0019-Add-sched-rt-tiny.patch:182-186 | A reschedule is requested iff the woken task outranks the running one. |
| `RtSched.RtRq.PickNext` | patches/linux/0019-Add-sched-rt-tiny.patch:188-216 | Picking and switching to the next task is `Schedule` and establishes the invariant. |
| `RtSched.RtRq.PrioChange` | patches/linux/0019-Add-sched-rt-tiny.patch:240-250 | The in-place priority-change hook is `PrioChanged`. |
| `RtSched.RtRq.PickTask` | patches/linux/0019-Add-sched-rt-tiny.patch:188-204 | The returned task is queued at the cached priority and outranked by none; NULL iff the count is zero. |
| `Base64.DecodeEncode` | adbd/src/base64.c:136-201 | Decoding undoes encoding for every byte string. |
| `Base64.EncodeDecode` | adbd/src/base64.c:209-320 | Whatever decodes is the encoding of what it decodes to: every other padding and nonzero slack bit is rejected. |
| `Base64.DecodeExact` | adbd/src/base64.c:209-320 | A text decodes to x if and only if it is the encoding of x. |
| `Base64.CapitalLetters` | adbd/src/base64.c:69-72 | The digits 0 to 25 are A to Z. |
| `Base64.SmallLetters` | adbd/src/base64.c:69-72 | The digits 26 to 51 are a to z. |
| `Base64.DigitsAndSigns` | adbd/src/base64.c:69-72 | The digits 52 to 63 are 0 to 9, + and /. |
| `Base64.PadAndSpaces` | adbd/src/base64.c:224-228 | The pad is '=' and white space is that of the C locale. |
| `Base64.SameNumber` | adbd/src/base64.c:155-160 | Three bytes and their four digits are the same 24-bit number. |
| `Base64.Ntop` | adbd/src/base64.c:136-201 | The encoder fills the target with the encoding and a NUL, and fails iff targsize <= 4*ceil(n/3). |
| `Base64.TakeDigit` | adbd/src/base64.c:234-270 | One digit of the four-state switch leaves the target holding one digit more, or was refused for lack of room. |
| `Base64.SkipSpaces` | adbd/src/base64.c:286-301 | Skipping white space loses nothing else and reaches the end iff nothing else is left. |
| `Base64.Padding` | adbd/src/base64.c:278-310 | The part after '=' accepts exactly canonical endings with zero slack bits. |
| `Base64.Pton` | adbd/src/base64.c:209-320 | For any text and target the decoder returns x with its length iff the text without white space is the encoding of x and the target has the room; otherwise -1. |
| `Crc32.CrcBase` | patches/linux/0008-Add-tiny-CRC32-table.patch:59-93 | The little-endian loops (CRC32 and CRC32C) compute `Crc` for any polynomial. |
| `Crc32.CrcBaseBe` | patches/linux/0008-Add-tiny-CRC32-table.patch:71-81 | The big-endian loop computes `CrcBe`. |
| `Crc32.PolynomialOfCrc32` | patches/linux/0008-Add-tiny-CRC32-table.patch:66-66 | The constant of crc32_le holds the exponents of the CRC32 polynomial, reflected. |
| `Crc32.PolynomialOfCrc32Be` | patches/linux/0008-Add-tiny-CRC32-table.patch:78-78 | The constant of crc32_be holds the same exponents, unreflected. |
| `Crc32.PolynomialOfCrc32c` | patches/linux/0008-Add-tiny-CRC32-table.patch:90-90 | The constant of crc32c holds the exponents of the Castagnoli polynomial, reflected. |
| `Crc32.CrcIsDivision` | patches/linux/0008-Add-tiny-CRC32-table.patch:59-93 | For every polynomial, seed and buffer the checksum is the remainder of dividing the message bit by bit, low bit of each byte first. |
| `Crc32.TableEquivalence` | patches/linux/0008-Add-tiny-CRC32-table.patch:94-101 | For every seed and buffer the byte-table form, with entry i eight bit-steps of i, equals the bitwise loop. |
| `Crc32.CrcConcat` | patches/linux/0008-Add-tiny-CRC32-table.patch:59-69 | The checksum of a concatenation is the checksum of the second part seeded with that of the first. |
| `Crc32.CrcLinear` | patches/linux/0008-Add-tiny-CRC32-table.patch:59-69 | The checksum is XOR-linear in seed and buffer together. |
| `Crc32.BeMirrorsLe` | patches/linux/0008-Add-tiny-CRC32-table.patch:59-81 | crc32_be on bit-reversed seed and bytes is the bit reversal of crc32_le. |
| `Crc32.CrcMirror` | patches/linux/0008-Add-tiny-CRC32-table.patch:71-81 | The same for every polynomial and its reversal. |
| `Crc32.DetectsBurst` | patches/linux/0008-Add-tiny-CRC32-table.patch:59-93 | For every polynomial with its top bit set, two buffers that differ only within four consecutive bytes have different checksums. |
| `Crc32.SourceDetectsBurst` | patches/linux/0008-Add-tiny-CRC32-table.patch:59-93 | The same for the two little-endian polynomials of the source. |
| `Framing.StoreFixed` | adbd/src/transport_usb.c:30-49 | A word fixed up and stored by a host of either byte order is little-endian on the wire. |
| `Framing.LoadFixed` | adbd/src/transport_usb.c:30-49 | Loaded and fixed up by a host of either byte order, four bytes give their little-endian value. |
| `Framing.LeWeights` | adbd/src/transport_usb.c:30-49 | Four wire bytes weigh 1, 256, 65536 and 16777216. |
| `Framing.SumBound` | adbd/src/transport.c:1141-1158 | The byte sum of n bytes is at most 255*n. |
| `Framing.SumOfParts` | adbd/src/transport.c:1141-1158 | The checksum is the plain sum: zero for nothing, each byte for itself, additive over concatenation. |
| `Framing.Checksum` | adbd/src/transport.c:1141-1158 | The checksum loop computes the byte sum within 32 bits for every payload of at most 4096 bytes. |
| `Framing.SendPacket` | adbd/src/transport.c:204-218 | A packet finalised by send_packet has right length, checksum and magic. |
| `Framing.Readx` | adbd/src/transport.c:1068-1097 | However the bytes arrive, readx returns the first len of them, or fails iff there are fewer. |
| `Framing.Writex` | adbd/src/transport.c:1099-1124 | writex sends everything, or a proper prefix when the fd fails. |
| `Framing.RemoteRead` | adbd/src/transport_local.c:59-88 | Under any split of the stream, remote_read is `ReadPacket`. |
| `Framing.RemoteWrite` | adbd/src/transport_local.c:90-106 | remote_write sends the wire form, whatever the host's byte order, or fails having sent a proper prefix when the fd fails. |
| `Framing.FramingExact` | adbd/src/transport.c:1126-1158 | A stream parses to a packet and a rest if and only if it is the wire form of a well-formed packet followed by the rest. |
| `Framing.FramingRoundTrip` | adbd/src/transport_local.c:59-106 | Any sequence of well-formed packets is read back identically, on either byte order. |
| `Framing.UsbTransfers` | adbd/src/transport_usb.c:80-97 | A packet goes out as a header transfer in wire order and, if there is one, a payload transfer. |
| `Framing.UsbRoundTrip` | adbd/src/transport_usb.c:51-97 | One packet over USB transfers is read back with the rest, for any pair of byte orders. |
| `Framing.UsbRoundTripAll` | adbd/src/transport_usb.c:51-97 | Any sequence of well-formed packets over USB transfers is read back identically, for any pair of byte orders. |
| `SyncWire.AnswerParses` | adbd/src/file_sync_service.c:56-148 | Every answer is read back by a client whatever follows it. |
| `SyncWire.AnswersParse` | adbd/src/file_sync_service.c:348-399 | A stream of answers is read back one per request. |
| `SyncWire.IdsAreText` | adbd/include/file_sync_service.h:36-46 | The message identifiers are the four letters of their names. |
| `SyncWire.MessageLayout` | adbd/include/file_sync_service.h:65-72 | Where identifier, number and bytes of the transfer and status messages stand. |
| `SyncWire.ListEndLayout` | adbd/src/file_sync_service.c:126-131 | The record that ends a listing is DONE and sixteen zero bytes. |
| `SyncWire.RecordLayout` | adbd/include/file_sync_service.h:54-64 | Where the numbers of status and directory records stand. |
| `FileSync.TargetsIsExact` | adbd/src/file_sync_service.c:273-275 | The file a SEND stores to is p exactly if the name is "p,mode" with no comma in the mode, or p with no comma at all, up to the first NUL. |
| `FileSync.NamesFileIsExact` | adbd/src/file_sync_service.c:371-375 | The file a name names is the name up to its first NUL. |
| `FileSync.SendStaysInFrame` | adbd/src/file_sync_service.c:152-219 | A SEND consumes its input exactly through DONE and yields exactly one OKAY or FAIL, whichever opens and writes fail. |
| `FileSync.SkipsToDone` | adbd/src/file_sync_service.c:189-191 | After a failure the rest of a transfer is read and dropped with no further reply. |
| `FileSync.RecvLoopServes` | adbd/src/file_sync_service.c:320-346 | RECV sends the chunks read, then DONE, or FAIL where reading fails. |
| `FileSync.ListLoopServes` | adbd/src/file_sync_service.c:76-132 | LIST sends one entry per readable short name and the closing record. |
| `FileSync.SessionServes` | adbd/src/file_sync_service.c:348-399 | On any sequence of well-formed requests, whatever file operations fail, the byte-level session sends exactly the abstract server's answers and goes on at the first byte after the last request. |
| `FileSync.SessionEnds` | adbd/src/file_sync_service.c:359-399 | With QUIT after the requests, the session ends having read nothing further, with the abstract server's answers and files. |
| `FileSync.RepliesParse` | adbd/src/file_sync_service.c:348-399 | From those replies a client that knows only its requests reads one answer per request and nothing else. |
| `FileSync.OkayIffAllStored` | adbd/src/file_sync_service.c:192-213 | OKAY is answered iff the open and every nonempty write worked. |
| `FileSync.OkayMeansExactFile` | adbd/src/file_sync_service.c:158-165 | After OKAY the file that the name targets holds exactly the bytes sent iff the unlink worked, there was no file, or the old one was no longer. |
| `FileSync.RecvIsExact` | adbd/src/file_sync_service.c:309-346 | RECV succeeds exactly if the named file is there, opens and every read works, and then delivers it; otherwise a prefix and FAIL. |
| `FileSync.ListedIsExact` | adbd/src/file_sync_service.c:97-119 | LIST names exactly the entries with a name under 256 bytes and a working lstat, in order. |
| `FileSync.StatIsExact` | adbd/src/file_sync_service.c:56-74 | STAT answers what lstat found, or zeros. |
| `FileSync.BadRequests` | adbd/src/file_sync_service.c:362-398 | Short headers, long and truncated names and unknown commands end the session with the FAIL text of the source. |
| `FileSync.BadTransfers` | adbd/src/file_sync_service.c:174-189 | Messages that are neither data nor done, too long or cut off end a transfer with the FAIL text of the source, or none, and the file is removed. |
| `FileSync.StaleTailIsReachable` | adbd/src/file_sync_service.c:163-165 | A concrete transfer answered with OKAY whose file keeps an old tail. |
| `FileSync.OnlyTheTargetChanges` | adbd/src/file_sync_service.c:290-303 | No request changes any file but the target of a SEND. |
| `FileSync.FailureCleansUp` | adbd/src/file_sync_service.c:192-199 | A failed SEND whose unlinks work leaves no file at the target. |
| `FileSync.PullThenPush` | adbd/src/file_sync_service.c:309-346 | The output of a successful RECV is the body of a SEND; sending it is answered OKAY iff the open and every write work, and then reproduces the file iff no longer file was left in place. |
| `FileSync.PushThenPull` | adbd/src/file_sync_service.c:267-346 | What was sent is what a later RECV returns iff no longer file was left in place; a failing RECV returns a prefix of the file. |
| `SyncService.Service.constructor` | adbd/src/file_sync_service.c:348-357 | A session starts with nothing sent. |
| `SyncService.Service.Store` | adbd/src/file_sync_service.c:192-199 | Storing a chunk, or failing, removing the file and answering FAIL, is `StoreChunk`. |
| `SyncService.Service.Message` | adbd/src/file_sync_service.c:171-200 | One message of a transfer is `SendRound`, malformed and truncated ones included. |
| `SyncService.Service.Transfer` | adbd/src/file_sync_service.c:171-219 | The transfer loop is `SendLoop`. |
| `SyncService.Service.SendFile` | adbd/src/file_sync_service.c:152-219 | Unlink, open and transfer are `DoSend`. |
| `SyncService.Service.RecvFile` | adbd/src/file_sync_service.c:309-346 | The read loop is `DoRecv`. |
| `SyncService.Service.ListDir` | adbd/src/file_sync_service.c:76-132 | The directory loop is `DoList`. |
| `SyncService.Service.Request` | adbd/src/file_sync_service.c:362-398 | One round of the session loop is `Round`, with every error reply. |
| `SyncService.Service.Serve` | adbd/src/file_sync_service.c:348-407 | The service loop is `Session`, on any input whatsoever. |

## Left out

- Wrap-around of stream ids at 2^32; ids are unbounded.
- CNXN and AUTH handling, the online flag, banners: the transport stays online in the stream model.
- exit_on_close, forced end of file, closing of fds and packet memory; the double close of an fd at transport removal.
- Aliasing through freed sockets: addresses are never reused; locks appear only as step boundaries.
- Draining a listed socket that has no peer, which would follow a null pointer: the socket graph leaves that step out; `SocketGraph.RunPeered` says when it cannot arise and `Mux.BacklogHasPeer` that it does not between two endpoints running this code.
- FdEvent.RunOk: installing an fd above 32000 beyond the table aborts in the code (`FdEvent.InstallOk`); runs leave such a call out.
- FD_SETSIZE, and the table memset whose element size is that of int: equal to pointer size on the 32-bit target.
- Contents of callbacks and of the subprocess handler beyond their calls into the event loop.
- Base64.Pton: the text is the part before the terminating NUL, and for a padded text the room needed is one byte more than the result, as in the code.
- Scheduler accounting (update_curr, exec_start), cross-class switching, affinity and load balancing.
- Teardown.TeardownOrder: stated for any number n >= 1 of threads where the source has two, and for the device build.
- File sync: symbolic-link SEND, mode parsing, mkdirs, utime, and clients other than the parser of answers; the files are regular files by path, unchanged by others during a request.
- The table generator of the CRC code; entry i is defined as eight bit-steps of i.
- Process spawning, mounts, reboot, framebuffer, log, backup, pty, USB gadget setup, JDWP, auth, listeners, smart sockets, host-only code, zip reading and the epoll variant of the event loop: they would add only easy members or rest on foreign code.
- The other kernel, buildroot, QEMU and uClibc patches, configurations and scripts.
