# Verification of the reactor library

A Dafny model of a multi-reactor TCP library: a base loop accepts connections and hands them in
turn to sub-loops, each of which polls its descriptors, runs the handlers of the connections it owns
and then the functors other threads have queued on it. The model follows the C++ sources statement
by statement where state changes, and the theorems are about whole runs of each part and about the
parts together.

## How it is built

The source changes objects in place, so the model has the source's classes, with methods that change
fields, proved against pure functions; theorems over all runs are then proved about those functions.

| file | contents |
|---|---|
| `Registration.dfy` | one Filed's registration as an automaton: mask, three-valued index, map slot, kernel slot |
| `Reactor.dfy` | classes `Filed`, `Epoller` (with the kernel's interest table) and `EventLoop` |
| `Buffer.dfy`, `BufferRuns.dfy` | class `Buffer` over an array; the byte queue it refines; whole runs |
| `ConnectionModel.dfy` | one connection as a state machine |
| `Connection.dfy`, `EchoServer.dfy` | class `Connection` on its `Filed`, `Buffer`s and `EventLoop`, each method proved to do what the state machine does; the echo callback |
| `ConnectionRuns.dfy`, `ConnectionEndings.dfy`, `ConnectionLaws.dfy` | what every run of a connection keeps, how it ends, and what it reads, hands over and queues, seen from outside |
| `Wakeup.dfy` | functor queue, flag and eventfd as a machine in which every access to shared state by any thread is a step |
| `Ownership*.dfy` | the whole server: any number of loops, queues, batches, tables and connections, all threads interleaved; shared pointers as sets of holders |
| `ConnectionInServer.dfy` | whole runs of the detailed model of one connection, among everything else that happens, are runs of the server machine |
| `ConnectionNames.dfy`, `ManagerPool.dfy`, `Server.dfy`, `ServerMirror.dfy` | connection names, round robin, class `Server` with its map, and its methods as steps of the server machine |

The kernel is an environment. `epoll_ctl` rejects an ADD of a present descriptor and a MOD or DEL of
an absent one. A write fails or takes any number of bytes up to its length; a read fails, or delivers
any bytes that fit what was offered; these answers are parameters (`Reply`, `ReadResult`) and the
theorems hold for all of them. `errno` after a write is also a parameter, because a successful write
leaves an older value there. What user callbacks do with a connection is a parameter too (`Action`).

## Where the code departs from its stated intent

The code is modelled as it stands; each departure has a lemma.

- `src/Connection.cpp:68-86`. The `else` that inspects `errno` is nested inside `if (nwrote > 0)`,
  while the comment at lines 88-94 wants exactly the unsent bytes queued. Both readings are modelled
  (`Branch`: `AsWritten` follows the braces, `Intended` the comment), and every theorem that does not
  need the intended reading covers both. `AsWrittenDeliversIff` says exactly when the code as written
  delivers: the direct write is not attempted, or is empty, or takes everything or nothing, and does
  not fail. Otherwise some data is lost, repeated or preceded by a foreign byte.
- `src/EventLoop.cpp:134-143`. The wakeup descriptor's read handler writes it instead of reading it.
  The handler is a parameter (`Drain` or `AddOne`); wakeups are never lost with either, but with the
  code's handler the loop never sleeps again, exactly from the first wakeup on (`AddOneNeverQuiet`).
- `src/EventLoop.cpp:115`. A functor that a loop's own thread queues before `loop()` starts gets no
  wakeup (`QueuedBeforeStartIsStuck`). `LosesWakeupIff` says exactly which runs lose a wakeup: those
  that start `loop()` after its own thread, and no other, has queued something. A lost wakeup means
  waiting until something else is reported or the poll's ten seconds are over (`src/EventLoop.cpp:7`).
- `src/Filed.cpp:41-60`. A report of a hang-up with urgent but without ordinary input runs
  `handleClose` twice if the read then finds end of file, and no other report does
  (`ClosesTwiceIff`; `MayCloseTwiceIff` judges the report alone). Exactly such reports break the order
  of the callbacks: `RunInOrderIff` for one connection, `LifecycleInOrderIff` for the whole server.
- `src/Filed.cpp:174-178` with `src/Epoller.cpp:80-97`. A second `disableAll` puts the descriptor
  back into the kernel's table with an empty mask: `RepeatedDisableAll`.
- `src/Connection.cpp:245-254`. A connection destroyed while it is shutting down gets no down
  callback and stays in its state: `DestroyedDownIff`.
- `src/Connection.cpp:44-46`. A send queued by another thread checks the state when it is queued, not
  when it runs. On a connection not destroyed it does harm exactly when it leaves bytes waiting after
  the half-close (`SendGracefulIff`), and then there is a second half-close
  (`LateSendHalfClosesTwice`). After `connectDestroyed` it registers the Filed again exactly under the
  condition of `SendAfterDestroyedIff`. In the whole server such a late send always leaves a
  registration without an owner, and nothing else does: `NoDanglingIff`. `LateSendLosesDescriptor` is
  a run in which the connection then dies registered and its descriptor is free for the next one.
  The conditions are also given without the kernel's answer (`SendAlwaysGracefulIff`,
  `SendNeverRevivesIff`), and the states are reached (`LateSendIsReached`, `RevivalIsReached`).
- `src/Connection.cpp:119-121` with `src/Connection.cpp:176-180`. A shutdown from another thread sets
  the state at once and queues `shutdownInLoop`. If `handleWrite` drains the output in between, it
  half-closes and the queued functor half-closes again (`OvertakenByDraining`); if the peer closes in
  between with bytes waiting, the functor half-closes although they never left (`OvertakenByClose`).
  `RunGracefulIff` says that these two and the late sends are the only ways to break the promise, and
  `OtherShutdownSafeIff` that such a shutdown is safe exactly if it is called with no output waiting.

## Model

| member | source | states |
|---|---|---|
| `Registration.UpdateAgrees` | src/Epoller.cpp:71-113 | an update with any mask brings index, map slot, kernel slot and kernel mask back into agreement without a rejected epoll_ctl |
| `Registration.ApplyAgrees` | src/Filed.cpp:150-178 | each enable, disable or remove call keeps that agreement and changes the mask as its name says |
| `Registration.MaskLaw` | src/Filed.cpp:3-5 | what each call does to the mask, bit by bit: reading is EPOLLIN with EPOLLPRI, writing is EPOLLOUT |
| `Registration.CtlLaw` | src/Epoller.cpp:175-186 | the kernel rejects adding a present descriptor and changing or deleting an absent one; a rejected call is counted and changes nothing |
| `Registration.UpdateLaw` | src/Epoller.cpp:71-113 | the whole outcome of update: mapped, and registered with the mask unless it was Added and the mask is empty |
| `Registration.RemoveLaw` | src/Epoller.cpp:116-131 | the whole outcome of remove: New, in neither table, the mask kept |
| `Registration.RunAgrees` | src/Epoller.cpp:71-131 | over every sequence of calls no epoll_ctl is rejected, a Deleted Filed is still mapped, and unless the index is New the kernel's interest equals the mask |
| `Registration.RepeatedDisableAll` | src/Filed.cpp:174-178 | after n calls of disableAll on a registered Filed the kernel holds the descriptor exactly if n is even |
| `Reactor.Filed.EnableReading` | src/Filed.cpp:150-154 | EPOLLIN and EPOLLPRI are added to the mask; the registration takes the ReadOn step; the loop's tables stay valid and change at no other descriptor |
| `Reactor.Filed.DisableReading` | src/Filed.cpp:156-160 | the same for ReadOff, which takes both bits away |
| `Reactor.Filed.EnableWriting` | src/Filed.cpp:162-166 | the same for WriteOn, which adds EPOLLOUT |
| `Reactor.Filed.DisableWriting` | src/Filed.cpp:168-172 | the same for WriteOff, which takes it away |
| `Reactor.Filed.DisableAll` | src/Filed.cpp:174-178 | the same for AllOff, which leaves no bit |
| `Reactor.Filed.Remove` | src/Filed.cpp:255-258 | the same for Removal: the index is New and neither table has the descriptor |
| `Reactor.Epoller.Update` | src/Epoller.cpp:71-113 | from tables valid but for one changed mask to valid tables, by the automaton's update step, and no other descriptor's rows change; the asserts on a Deleted Filed hold |
| `Reactor.Epoller.Remove` | src/Epoller.cpp:116-131 | the Filed leaves both tables, its index is New, all other rows stay |
| `Reactor.Epoller.UpdateHelper` | src/Epoller.cpp:144-187 | a legal epoll_ctl stores or deletes the Filed's row and mask; a rejected one is counted and changes nothing |
| `Reactor.Epoller.FillActiveFileds` | src/Epoller.cpp:133-142 | every reported row yields its live, added, mapped Filed with the reported events, in the kernel's order |
| `Reactor.Epoller.OtherEntryKept` | src/Epoller.cpp:71-131 | a call on one Filed leaves the registration of every other as it was |
| `Reactor.Epoller.Adopt` | src/Filed.cpp:7-12 | a Filed with an unused descriptor may join a loop, in the fresh registration state |
| `Reactor.Epoller.Retire` | src/Connection.cpp:245-254 | a Filed that is New is in neither table, so its descriptor may be closed and used again |
| `Reactor.EventLoop.Wakeup` | src/EventLoop.cpp:122-131 | the eventfd is readable afterwards; its counter grows by one unless it is full |
| `Reactor.EventLoop.QueueInLoop` | src/EventLoop.cpp:108-119 | the functor joins the end of the queue; the eventfd is written for another thread and during doPendFunc, and left alone otherwise |
| `Reactor.EventLoop.HandleWakeupRead` | src/EventLoop.cpp:134-143 | the draining handler empties the counter, the one in the code adds one to it |
| `Reactor.QueueOneLaw` | src/EventLoop.cpp:108-119 | the same of the function that the class and the interleaved machine share |
| `Reactor.EventLoop.DoPendFunc` | src/EventLoop.cpp:152-168 | runs exactly the functors present at the swap, once and in order; what they queue waits, in order, with a wakeup pending; queue, log and counter are as DoPend says |
| `Reactor.DoPendRuns` | src/EventLoop.cpp:152-168 | the same of the function DoPend, which the class and the interleaved machine share |
| `Buffers.Buffer.constructor` | src/Buffer.cpp:6-13 | an empty queue behind the reserved prefix, with the given room |
| `Buffers.Buffer.Retrieve` | src/Buffer.cpp:36-45 | drops the first len readable bytes; at their number or more, both indices return to 8 |
| `Buffers.Buffer.RetrieveAll` | src/Buffer.cpp:48-52 | nothing readable, both indices at the prefix, array untouched |
| `Buffers.Buffer.RetrieveAsString` | src/Buffer.cpp:60-66 | returns the first len readable bytes and drops them; for a larger len it returns whatever follows in the array |
| `Buffers.Buffer.RetrieveAllAsString` | src/Buffer.cpp:55-58 | returns everything readable and leaves nothing |
| `Buffers.Buffer.Resize` | src/Buffer.cpp:172-175 | a larger array whose first bytes are the old ones; readable bytes unchanged |
| `Buffers.Buffer.CopyToFront` | src/Buffer.cpp:194-199 | the overlapping in-place copy leaves the readable bytes intact at the front |
| `Buffers.Buffer.MakeSpace` | src/Buffer.cpp:165-203 | grows or compacts by the rule on free space; readable bytes unchanged and room for len more |
| `Buffers.Buffer.EnsureWritableBytes` | src/Buffer.cpp:68-75 | room for len more bytes, readable bytes unchanged |
| `Buffers.Buffer.Append` | src/Buffer.cpp:78-83 | readable bytes followed by the new ones |
| `Buffers.Buffer.ReadFd` | src/Buffer.cpp:96-136 | an error changes nothing; otherwise what arrived fills the free space first and the rest is appended |
| `Buffers.ReceivedBytes` | src/Buffer.cpp:124-134 | split between free space and spare array, the arrived bytes still follow the readable ones in order |
| `Buffers.OfferedLaw` | src/Buffer.cpp:99-115 | readFd offers its writable space, with 64 KB behind it unless the space is as large itself |
| `Buffers.EnsuredLaw` | src/Buffer.cpp:165-203 | making room: nothing moves while there is room, else the bytes move to the front if that suffices, else the array grows to the last byte needed |
| `BufferRuns.RunConserves` | src/Buffer.cpp:36-136 | over any run of operations, bytes taken out then bytes readable are the bytes put in |
| `BufferRuns.GrowsOnlyWhenFull` | src/Buffer.cpp:165-203 | the array grows exactly when readable and new bytes would not fit behind the prefix even after compaction |
| `BufferRuns.StepSize` | src/Buffer.cpp:172-175 | one operation leaves the array at most its old size or twice the readable length plus seven |
| `BufferRuns.RunSize` | src/Buffer.cpp:68-203 | over any run the array never exceeds its first size or twice the largest readable length plus seven |
| `BufferRuns.FreshBufferRun` | src/Buffer.cpp:6-83 | both facts for a buffer as constructed, whatever its size |
| `ConnectionRuns.StepCoherent` | src/Connection.cpp:34-254 | of all events exactly a send that revives a destroyed connection breaks the coherence of output buffer, mask, index, map and kernel table |
| `ConnectionRuns.ThreeLayersAgree` | src/Connection.cpp:50-254 | in every reachable state of a live connection: output waits iff the Filed asks for EPOLLOUT iff the kernel holds EPOLLOUT, and the kernel holds EPOLLIN and EPOLLPRI; in every reachable state at all: no registration call was rejected and the kernel's mask is the Filed's |
| `ConnectionRuns.RunGoneIff` | src/Connection.cpp:245-254 | over every run, a destroyed connection stays out of both tables exactly if no queued send revives it |
| `ConnectionRuns.RunConserves` | src/Connection.cpp:50-192 | over any run with clean sends, under either reading, wire then output is exactly what was accepted |
| `ConnectionRuns.IntendedRunConserves` | src/Connection.cpp:88-111 | with the branch as its comment reads, the same over every run without condition |
| `ConnectionRuns.AsWrittenDeliversIff` | src/Connection.cpp:65-111 | as written, a send delivers whatever data it is given exactly when the send is clean |
| `ConnectionRuns.AsWrittenAlwaysDeliversIff` | src/Connection.cpp:65-87 | as written, a send is safe whatever the kernel answers exactly when output is already queued or awaited, or there is nothing to send |
| `ConnectionRuns.IntendedDeliversIff` | src/Connection.cpp:50-112 | as intended, a send delivers whatever data it is given unless the direct write takes nothing for another reason than EWOULDBLOCK |
| `ConnectionRuns.UncleanSendFails` | src/Connection.cpp:68-105 | an unclean send, whatever its length, does not deliver data that ends in a byte of its own |
| `ConnectionRuns.RunSignals` | src/Connection.cpp:95-105 | the queued high-water callbacks are exactly the upward crossings of the mark, in order, with the level reached, for either reading |
| `ConnectionLaws.EventsPossible` | src/Connection.cpp:34-254 | when each event can happen: user code and other threads at any time, reports exactly while the kernel's table has the descriptor, queued work once queued |
| `ConnectionLaws.EventLaw` | src/Filed.cpp:40-66 | what a report does, by its bits: input or urgent data is read in full; a hang-up without ordinary input closes, and so does end of file; nothing else does either |
| `ConnectionLaws.WritableLaw` | src/Filed.cpp:62-66 | EPOLLOUT, reported and asked for, moves from the front of the output to the wire what the kernel has room for |
| `ConnectionLaws.OnlyLoggedLaw` | src/Filed.cpp:50-54 | an error report alone changes nothing |
| `ConnectionLaws.ReadErrorLaw` | src/Connection.cpp:148-153 | a failed read leaves the connection, its unread input included, as it was |
| `ConnectionLaws.WroteLaw` | src/Buffer.cpp:142-151 | a write fails, or takes as much as there is and as there is room for |
| `ConnectionLaws.SendWire` | src/Connection.cpp:57-68 | a send writes directly, as much as the kernel has room for, exactly if EPOLLOUT is not awaited and no output waits; nothing at all on a Disconnected connection |
| `ConnectionLaws.ShutdownLaw` | src/Connection.cpp:115-132 | the whole outcome of shutdown on the loop's thread |
| `ConnectionLaws.EstablishedLaw` | src/Connection.cpp:235-242 | the whole outcome of being established: up, registered for EPOLLIN and EPOLLPRI, one callback |
| `ConnectionLaws.RunInput` | src/Connection.cpp:135-154 | over every run, for any callbacks and across closes and errors: bytes taken out of the input then bytes left in it are the bytes that arrived, in order |
| `ConnectionLaws.RunReceives` | src/Connection.cpp:135-154 | and those are the bytes logged as received |
| `ConnectionLaws.SendQueues` | src/Connection.cpp:68-105 | a send queues exactly: write-complete if it takes everything at once and the callback is set, high-water with the level if it crosses the mark, each for this descriptor; for either reading |
| `ConnectionLaws.WriteQueues` | src/Connection.cpp:156-192 | a writable event queues exactly write-complete, if it drains the output and the callback is set |
| `ConnectionLaws.RunQueues` | src/Connection.cpp:34-192 | over every run the functors queued are exactly those, in order, and the sends and shutdowns of other threads |
| `ConnectionLaws.RunCompletes` | src/Connection.cpp:71-76 | over every run: as many write-complete functors as direct writes that took everything and writable events that drained |
| `ConnectionEndings.SendGracefulIff` | src/Connection.cpp:50-112 | for every answer and either reading, a send keeps the half-close promise exactly unless it leaves bytes waiting on a half-closed connection |
| `ConnectionEndings.SendAlwaysGracefulIff` | src/Connection.cpp:50-112 | the same as a condition to check before the call: not yet half-closed (shutting down with no output waiting, if no shutdown is still queued), or nothing to send |
| `ConnectionEndings.StepGracefulIff` | src/Connection.cpp:34-254 | of all events exactly harmful late sends and overtaken queued shutdowns break the promise or coherence |
| `ConnectionEndings.RunGracefulIff` | src/Connection.cpp:34-254 | a run keeps the promise throughout (at most one shutdownWrite, only after shutdown, with nothing waiting, and as soon as that is so) exactly if all its events are harmless |
| `ConnectionEndings.LoopThreadIsHarmless` | src/Connection.cpp:39-42 | runs in which other threads neither send nor shut down are harmless |
| `ConnectionEndings.OtherShutdownSafeIff` | src/Connection.cpp:115-123 | a shutdown from another thread keeps the promise, whatever follows short of a queued send, exactly if no output waits when it is called |
| `ConnectionEndings.OvertakenByDraining` | src/Connection.cpp:165-181 | with output waiting, draining it before the queued shutdownInLoop half-closes twice |
| `ConnectionEndings.OvertakenByClose` | src/Connection.cpp:125-132 | with output waiting, the peer's close before it makes the functor half-close with the bytes unsent |
| `ConnectionEndings.UnsafeShutdownIsReached` | src/Connection.cpp:115-123 | the state both start from is reached from a new connection |
| `ConnectionEndings.LateSendIsReached` | src/Connection.cpp:34-48 | a send called in time whose turn comes after the loop's own shutdown is harmful, in a run from a new connection |
| `ConnectionEndings.HalfCloseAfterLastByte` | src/Connection.cpp:115-181 | in every harmless run with clean sends, at the half-close every accepted byte is on the wire, and it happens as soon as that is so and no shutdown is still queued |
| `ConnectionEndings.LateSendHalfClosesTwice` | src/Connection.cpp:34-48 | every harmful late send, whatever the kernel answered, ends in a second shutdownWrite once its bytes are taken |
| `ConnectionEndings.Drains` | src/Connection.cpp:156-192 | writable events shorten the output strictly, in order, in at most as many events as bytes; at empty, and only then: EPOLLOUT off, one write-complete functor, half-close if shutting down |
| `ConnectionEndings.DrainCanProceed` | src/Connection.cpp:158-165 | while output waits a shortening writable event is possible |
| `ConnectionEndings.ClosesTwiceIff` | src/Filed.cpp:41-60 | one dispatch runs handleClose twice for exactly one kind of report and read, whatever user code does between |
| `ConnectionEndings.MayCloseTwiceIff` | src/Filed.cpp:41-60 | the report alone decides whether that can happen: hang-up with urgent and without ordinary input |
| `ConnectionEndings.StepInOrderIff` | src/Connection.cpp:194-254 | of all events, also of a revived connection, exactly the double-close report breaks the order of the callbacks |
| `ConnectionEndings.RunInOrderIff` | src/Connection.cpp:194-254 | throughout a run, up once and first, down at most once, close at most once, no kernel entry after: exactly if no report closes twice |
| `ConnectionEndings.RunForward` | src/Connection.cpp:115-254 | and then the state only moves forward |
| `ConnectionEndings.DestroyedDownIff` | src/Connection.cpp:245-254 | connectDestroyed leaves the connection reported down and Disconnected exactly unless it was shutting down; either way it is in neither table |
| `ConnectionEndings.SendAfterDestroyedIff` | src/Connection.cpp:44-111 | for every answer and either reading, a send after connectDestroyed puts the Filed back into the tables exactly when the connection was removed while shutting down with no output awaited and bytes are kept |
| `ConnectionEndings.SendNeverRevivesIff` | src/Connection.cpp:44-111 | the same as a condition to check before the call |
| `ConnectionEndings.RevivalIsReached` | src/Connection.cpp:34-48 | a run from a new connection in which a send called in time runs after connectDestroyed and revives it |
| `ConnectionEndings.EchoEndToEnd` | testcode/test.cpp:42-48 | for either reading: after every event on an open echoing connection whose echoed sends are clean and not given up, no input is kept and wire then output is everything received |
| `Connections.Connection.constructor` | src/Connection.cpp:12-27 | a fresh connection in its start state, with its own Filed added to those of its loop |
| `Connections.Connection.Send` | src/Connection.cpp:34-48 | nothing unless Connected; on the loop's thread a send action of the state machine, from another the sendInLoop functor queued with a wakeup |
| `Connections.Connection.DirectWrite` | src/Connection.cpp:65-87 | the locals and the wire after the direct attempt, for either reading of the braces |
| `Connections.Connection.QueueOutput` | src/Connection.cpp:95-111 | the rest joins the output, EPOLLOUT is on, and a crossing of the mark queues one callback |
| `Connections.Connection.SendInLoop` | src/Connection.cpp:50-112 | the state machine's sendInLoop, on the real buffer, tables and functor queue; nothing else of the loop changes |
| `Connections.Connection.Shutdown` | src/Connection.cpp:115-123 | nothing unless Connected; Disconnecting at once, and shutdownInLoop run on the loop's thread or queued, with a wakeup, from another |
| `Connections.Connection.RunLateShutdown` | src/Connection.cpp:120-132 | the queued shutdownInLoop half-closes exactly when no output is awaited then |
| `Connections.Connection.ShutdownInLoop` | src/Connection.cpp:125-132 | half-closes exactly when no output is awaited |
| `Connections.Connection.HandleRead` | src/Connection.cpp:135-154 | input grows by what arrived and the callback runs; end of file closes; an error changes nothing |
| `Connections.Connection.HandleWrite` | src/Connection.cpp:156-192 | what the kernel took moves from the output to the wire, with the consequences of draining |
| `Connections.Connection.HandleClose` | src/Connection.cpp:194-205 | Disconnected, out of the kernel's table, both callbacks counted |
| `Connections.Connection.ConnectEstablished` | src/Connection.cpp:235-242 | Connected, tied, reading, then the callback |
| `Connections.Connection.ConnectDestroyed` | src/Connection.cpp:245-254 | down if still up, then out of both tables |
| `Connections.Connection.HandleEvent` | src/Filed.cpp:25-69 | hang-up, input and output branches in this order, on the connection's real state |
| `EchoServers.OnMessage` | testcode/test.cpp:42-48 | the whole input is taken and sent back; the input buffer is empty afterwards |
| `Wakeup.StepKeepsWakeInv` | src/EventLoop.cpp:108-168 | once started, every step of any thread keeps: a waiting functor has a wakeup delivered or on its way, or the loop will still swap |
| `Wakeup.LostAtStartIff` | src/EventLoop.cpp:57-78 | starting loop() loses a wakeup exactly if functors were queued before by its own thread and none by another, for every run before the start and both handlers |
| `Wakeup.NoLostWakeup` | src/EventLoop.cpp:57-143 | with any number of producers, any interleaving and both handlers: no state of a run that starts well is stuck in epoll_wait with functors waiting |
| `Wakeup.LosesWakeupIff` | src/EventLoop.cpp:57-143 | a run loses a wakeup at some point exactly if it does not start well |
| `Wakeup.QueuedBeforeStartIsStuck` | src/EventLoop.cpp:115-118 | an instance: any functor queued on its own loop before the start |
| `Wakeup.AddOneNeverQuiet` | src/EventLoop.cpp:134-143 | with the handler as written the eventfd is readable after a run exactly if it was before or a wakeup was written in it |
| `Wakeup.ExactlyOnceInOrder` | src/EventLoop.cpp:108-168 | in every reachable state, run then rest of batch then waiting is everything pushed in order; a batch is what waited at its swap |
| `Wakeup.OtherThreadQueues` | src/EventLoop.cpp:108-131 | push and wakeup of another thread, back to back, do to the machine what QueueInLoop does to the class |
| `Wakeup.OwnQueuesQuietly` | src/EventLoop.cpp:108-119 | the loop's own thread queueing outside doPendFunc does what QueueInLoop does, and writes no wakeup |
| `Wakeup.AnyThreadMayQueue` | src/EventLoop.cpp:108-113 | a thread not in the middle of queueing may queue in every state |
| `Wakeup.OwnThreadMayQueue` | src/EventLoop.cpp:108-119 | so may the loop's own thread before loop(), in a handler and in a functor |
| `Wakeup.LoopNeverStuck` | src/EventLoop.cpp:61-82 | the loop's thread can always take its next step |
| `Wakeup.PollMayReturn` | src/Epoller.cpp:26-47 | epoll_wait may return without the eventfd at any time, and with it exactly if it is readable |
| `Wakeup.HandlerReads` | src/EventLoop.cpp:134-143 | the draining handler makes the eventfd unreadable, the one in the code adds one |
| `Wakeup.DrainStepsRun` | src/EventLoop.cpp:152-168 | the machine's doPendFunc steps, uninterrupted, do to it exactly what DoPendFunc does to the class |
| `Wakeup.WaitingFunctorsRun` | src/EventLoop.cpp:61-82 | functors waiting at epoll_wait can be run by one iteration of the loop alone, which runs just those and ends woken for what they queued |
| `OwnershipSteps.StepInv` | src/Server.cpp:27-115 | every step of every loop but a late send keeps the ownership invariant: tables exact, one owner per descriptor, connectEstablished before connectDestroyed, registered means owned |
| `OwnershipSteps.RunInv` | src/Server.cpp:27-115 | so does every run without late sends |
| `OwnershipTheorems.NoDanglingEver` | src/EventLoop.cpp:65-77 | for any number of loops, any interleaving and any run without late sends: every map entry, kernel entry and Filed still to be dispatched belongs to a held connection of that loop that is in the server's map or has its connectDestroyed queued there |
| `OwnershipLateSends.LateSendIff` | src/Connection.cpp:44-46 | a late send leaves every registration owned, and the invariant standing, exactly if the connection is in the map or due another connectDestroyed |
| `OwnershipLateSends.StepDues` | src/Server.cpp:27-115 | each step keeps the account: a connection never closed is due its connectEstablished and one connectDestroyed, each until it has run |
| `OwnershipLateSends.EveryLateSendDangles` | src/Connection.cpp:44-46 | so in a server without late sends before it, a late send always leaves a registration without an owner |
| `OwnershipLateSends.NoDanglingIff` | src/Server.cpp:27-115 | over every run of the server: every registration is owned in every state exactly if no send comes late |
| `OwnershipLateSends.SoundIff` | src/Server.cpp:27-115 | over every run: registrations are owned and callbacks in order throughout exactly if no send comes late and no handleEvent closes twice |
| `OwnershipLateSends.RegisteredFdsAreTaken` | src/Socket.cpp:8-11 | in every state of a run without late sends, no descriptor in any table is one that accept can return |
| `OwnershipLateSends.LateSendLosesDescriptor` | src/Server.cpp:27-38 | a run from the start to a late send after which the connection is dead, still in both tables, and its descriptor free |
| `OwnershipTheorems.RegisteredFdIsTaken` | src/Socket.cpp:8-11 | under the invariant, a descriptor in any Epoller's map or kernel table is not one that accept can return |
| `OwnershipTheorems.NoRevival` | src/Server.cpp:84-115 | a connection nobody holds is never held again |
| `OwnershipTheorems.DiesUnregistered` | src/Connection.cpp:245-254 | under the invariant, a connection loses its last holder only once its Filed has been removed |
| `OwnershipRemovals.CloseSends` | src/Server.cpp:101-105 | a close on a sub-loop queues the removal on the base loop; on the base loop the connection leaves the map and its connectDestroyed is queued |
| `OwnershipRemovals.RemoveSends` | src/Server.cpp:107-115 | removeConnectionInLoop takes the connection out of the map and queues connectDestroyed on its own loop |
| `OwnershipRemovals.ClosedIsSentOn` | src/Server.cpp:101-115 | in every state of every run, a closed connection still in the map has its removal queued on the base loop |
| `OwnershipRemovals.ClosedIsDestroyed` | src/Server.cpp:107-115 | without late sends, a closed connection not in the map any more has its connectDestroyed queued on its own loop, or run |
| `OwnershipProgress.ReportedAreHandled` | src/EventLoop.cpp:65-73 | any registered connections can be reported; each gets its turn, once and in the report's order, and then the loop comes to its functors |
| `OwnershipProgress.LoopNeverStuck` | src/EventLoop.cpp:61-82 | in every state that keeps the invariant every loop's thread can take its next step |
| `OwnershipProgress.MayAccept` | src/Server.cpp:60-98 | between handlers of the base loop a connection can be accepted exactly on a descriptor no connection alive has |
| `OwnershipProgress.UsersMay` | src/Connection.cpp:115-123 | user code may take pointers to connections alive, let go of them, and shut down those that are up |
| `OwnershipProgress.HandlersMay` | src/Connection.cpp:194-205 | a handler may close its connection |
| `OwnershipProgress.ServerMay` | src/Server.cpp:27-38 | the base loop may stop, and then every connection in the map can be destroyed |
| `OwnershipProgress.FunctorsInOrder` | src/EventLoop.cpp:152-168 | doPendFunc takes the whole queue and runs it from the front |
| `OwnershipProgress.FunctorsFollow` | src/EventLoop.cpp:163-166 | after one functor comes the next of the vector, and what it queued waits behind what waited |
| `OwnershipProgress.PinnedStaysHeld` | src/Server.cpp:84-86 | a connection that user code holds stays alive over every run until user code lets go |
| `OwnershipProgress.PinLaw` | src/Server.cpp:84-86 | taking a pointer makes user code a holder |
| `OwnershipProgress.UnpinLaw` | src/Server.cpp:84-86 | after letting go, alive means held by the map or some loop |
| `OwnershipProgress.DrainLetsGo` | src/EventLoop.cpp:152-168 | when doPendFunc returns, its vector holds no connection any more |
| `OwnershipLifecycle.MapSizeFromStart` | src/Server.cpp:60-115 | in every run, also with late sends, the map's size plus the removals is the number accepted: no insertion overwrites, no removal hits another entry |
| `OwnershipLifecycle.LifecycleInOrderIff` | src/Server.cpp:27-115 | over every run of the server without late sends, all connections' callbacks keep their order throughout exactly if no handleEvent closes twice |
| `OwnershipLifecycle.LifecycleInOrder` | src/Server.cpp:27-38 | and then, however connections end, states only move forward between any two points of a run |
| `ConnectionInServer.EventSimulated` | src/Connection.cpp:34-254 | whatever an event makes one connection do in detail, the server machine has steps that do the same to its record and both tables |
| `ConnectionInServer.OthersKeepPicture` | src/Server.cpp:27-115 | no step about another connection, and no progress of a loop, disturbs that correspondence |
| `ConnectionInServer.RunSimulated` | src/Connection.cpp:34-254 | over any run, up to and including the first late send: the connection's events interleaved with anything else are a run of the server machine that ends in the state the events alone give |
| `ConnectionInServer.AcceptedPictures` | src/Server.cpp:60-98 | accepting starts that correspondence, already established if the connection stays on the base loop |
| `ConnectionInServer.AcceptedRunSimulated` | src/Server.cpp:60-98 | so whole runs correspond from the accept on, on whichever loop |
| `ConnectionNames.ParseDecimal` | src/Server.cpp:64-65 | reading back the decimal form of an id gives the id |
| `ConnectionNames.IpPortLength` | src/Address.cpp:37-45 | an IPv4 address and port take at most 21 characters |
| `ConnectionNames.IpPortReadsBack` | src/Address.cpp:37-45 | the text of an address reads back as its four numbers and its port |
| `ConnectionNames.PrintedLaw` | src/Server.cpp:64-65 | the 64-byte buffer keeps the first 63 characters |
| `ConnectionNames.NameNotTruncated` | src/Server.cpp:64-69 | the 64-byte buffer cuts off no name up to the int limit |
| `ConnectionNames.NamesDistinct` | src/Server.cpp:64-69 | two connections of one server never share a name |
| `ManagerPools.FairShares` | src/ManagerPool.cpp:36-54 | after m calls on k loops each loop has been chosen m/k times, and the next m%k in turn once more |
| `ManagerPools.SharesDifferByOne` | src/ManagerPool.cpp:36-54 | any two loops' shares differ by at most one |
| `ManagerPools.ManagerPool.Start` | src/ManagerPool.cpp:12-26 | the loops of the new threads join the pool in order; the position stays in range |
| `ManagerPools.ManagerPool.GetNextLoop` | src/ManagerPool.cpp:36-54 | the loop at the position, which advances and wraps; the base loop if there is no other |
| `Servers.Server.SameName` | src/Server.cpp:64-69 | in this server a name stands for one id |
| `Servers.Server.NewConnection` | src/Server.cpp:60-98 | a fresh id, a name not in the map, the next loop in turn, one more entry, connectEstablished sent to that loop |
| `Servers.Server.RemoveConnectionInLoop` | src/Server.cpp:107-115 | this connection leaves the map and no other does; connectDestroyed is queued on its own loop |
| `Servers.Server.DestroyAll` | src/Server.cpp:27-38 | each connection in the map is let go and its own loop is sent its connectDestroyed, once |
| `ServerMirrors.NewConnectionMirrors` | src/Server.cpp:60-98 | the class's new entry and sent functor are the machine's accept step |
| `ServerMirrors.RemoveConnectionMirrors` | src/Server.cpp:107-115 | the class's erasure and queued functor are the machine's removal |
| `ServerMirrors.DestroyItemMirrors` | src/Server.cpp:27-38 | one round of the destructor's loop is the machine's step |

## Left out

- Thread start and quit: every loop exists and keeps looping; `src/Thread.cpp` and `src/Manager.cpp` are not part of this model, nor is `quit`, which `loop()` cancels at its start (`src/EventLoop.cpp:53`).
- Logging, clock and thread ids (`src/LuckyLog.cpp`, `src/TimeStamp.cpp`, `src/ThreadID.cpp`) are not part of this model; a fatal log at a rejected epoll_ctl is the counter `ctlErrors`, proved to stay zero.
- Socket, acceptor and address wrappers: kept are that a dying connection closes its descriptor, that accept returns a descriptor nobody has open, and the text form of an address.
- The poll's error branch and the growth of its event array (`src/Epoller.cpp:26-52`): a poll reports any list of registered Fileds.
- Real system calls: their answers are parameters; data races on memory below the level of single statements are not modelled.
- `Connection::shutdown` called by two threads at once: its test and its change of the state are one step, so only one of them passes the test, and `handleClose` cannot come between them (in the code it can, and then a Disconnected connection is set back to Disconnecting).
- Raw pointers captured by queued functors (`src/Connection.cpp:45`): a queued send owns its bytes, may run at any time and in any order with other functors, and finds its connection alive; what it does to one already destructed is not modelled.
- `Connection::send(Buffer *)`, which is declared but has no definition.
- The error callback of a Filed, which only logs, and the branch of handleEvent for an untied Filed, which is the same code again.
- What callbacks do to other connections, and to a connection from its down callback, where sends and shutdowns have no effect.
- Overflow of `size_t` and of the connection counter beyond the int limit.
- `Servers.Server.NewConnection`: leaves out the last id below the int limit, after which the counter could not be increased.
- `OwnershipSteps.StepInv`: does not cover late sends, of which `LateSendIff` and `NoDanglingIff` say everything up to the first; after one the machine goes on, but only `MapSizeFromStart` is promised.
- The server machine is on values, one step for each stretch of a thread between accesses to shared state; a handler's work on its own connection is any number of such steps, and `RunSimulated` ties it to the classes' model of one connection.
- `Server::start` and its guard against a second start, which only calls the pool's start and the acceptor's listen once.
