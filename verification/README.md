# Verified models of the IPC runtime

This Dafny project models the parts of the inter-processor communication runtime whose correctness depends on several
functions or several threads at once, and proves what they keep.

| files | component |
|---|---|
| `JobStreams`, `JobSteps`, `JobInvariant`, `JobPlaces`, `JobTokens`, `JobSafety` | RcmServer's job streams and worker pools: order, one at a time, conservation |
| `JobProgress`, `JobNumbers`, `JobReuse`, `JobRetired`, `JobInBand`, `JobBanded` | their progress, the id tracker, and the two cases in which a job's messages can run together |
| `SymbolTable`, `SymbolRuns` | RcmServer's keyed symbol table |
| `FdTables` | the socket tables of the rpmsg transport |
| `PauseHandshake`, `PauseSafety`, `PauseRuns` | the handshake between bind/unbind and the transport's dispatch thread |
| `StringHash`, `NameTable`, `NameRefinement` | the NameServer daemon: its hash, its table, the map it implements |
| `NameRemote`, `NameRemoteRuns` | the NameServer's lookups on other processors |
| `QueueTable`, `QueueRuns`, `QueueServer` | the daemon's table of message queues and their names |
| `MessageQueue` | put, get and unblock of one message queue in a client process |
| `Options` | a value that may be missing |

Check everything with `dafny verify dfyconfig.toml`.

## How the code is modelled

Code that changes an object in place is a class with that object's fields: `NameTable.NameServer`, `SymbolTable.SymbolServer`,
`JobStreams.JobServer`, `FdTables.Transport`, `QueueServer.MessageQ`, `MessageQueue.Queue`. Each method has the loops of the
function it models and is proved equal to a function of the old state; what the component promises is then proved about those
functions. `StringHash.StringHash` is the loop over one accumulator.

Threads are step systems. A state holds the shared data and the control state of every thread, an action is one thing another
thread can see, `Enabled` says when it can happen and `Next` what it does. The number of threads, pools, clients and messages is
arbitrary. An invariant is proved for the initial state and for every step, hence for every state of every run, and the promises
follow from it. The steps are these.

- `JobSteps`: the server thread (`packages/ti/grcm/RcmServer.c:2136-2305`), dispatch (1419-1510), processing of a message as far as
  its reply or free (1774-2045), the gated sections of job acquisition and release (1310-1391, 2049-2128), and the worker loop with
  its re-queue step (2326-2494). Gate, semaphores and lists are atomic. `hist` and `loc` are history. `JobNumbers` adds the tracker
  from which acquisition takes its ids.
- `PauseHandshake`: the dispatch thread (`linux/src/transport/TransportRpmsg.c:550-706`), bind (289-399), unbind (404-492) and the
  SHUTDOWN write of `TransportRpmsg_Factory_delete` (963-975). The unblock event is a counter that a read empties, the wait event a
  semaphore. The four writes to the tables between ACK and CONTINUE are four steps.
- `NameRemote`: `NameServer_getRemote` (`linux/src/daemon/NameServer_daemon.c:1053-1196`) with the reply half of
  `NameServerRemote_processMessage` (337-410). A reply once sent may be delivered at any later time, any number of times, or never.
  Checking the cache and copying from it is one step.
- `MessageQueue`: local delivery in `MessageQ_put` (`linux/src/api/MessageQ.c:896-911`), `MessageQ_get` (993-1060), `MessageQ_unblock`
  and `MessageQ_shutdown` (1215-1230). The list's mutex is taken and released in steps of its own. A wait with a timeout may time out,
  and any wait may be ended by a signal.

Addresses are natural numbers that are not reused, sizes of C integers are written out where they matter (16-bit queue ids, job ids
and table sizes, 32-bit sequence numbers and hashes), failing allocations are parameters, and so are system calls that fail where the
code looks at the result; `sem_wait`, whose result it ignores, fails in a step of its own.

## Hypotheses

- Pool ids have bit 15 set; for others `RcmServer_getPool_P` leaves its result unset.
- The steps of `JobSteps` take packets with a job only out of band. `JobBanded` adds those that the server thread processes itself:
  the invariant still holds, and order is kept in exactly the runs in which each of them comes when nothing of its job is under way
  (`EveryRunInOrderIff`). `InBandPacketOvertakes` is a run in which one does not.
- In `JobSteps` a job id is not acquired while a message that carries it is in flight. `ReuseSafeIff` shows that the
  messages of the job run one at a time if and only if this holds, or the server is just about to release the id again, and
  `JobNumbers` derives it from the tracker: it is enough that the messages of a released job are out of flight, answered and their
  workers back from queueing up the next, before the tracker has made 65535 steps since the id was issued, at most one more than there
  are jobs for each acquisition.
- Progress: messages are ready only in pools that have a worker.
- Reads and writes of event descriptors succeed; a new socket is a descriptor not in use, below 1024.
- A queue index past an instance's table counts as unbound, as the lookups presume.
- A reply is not 2^32 requests late.
- The number of reserved queues is below the size of the queue table.

## Where the code does less than it seems to promise

Each of these is proved, with the exact condition under which the code does what is expected.

- The messages of a job run together when its id was handed out while a message still carried it (`ReuseSafeIff`), and when
  one of them is sent to the default pool while that has no threads (`InBandInTurnIff`, `EveryRunInOrderIff`,
  `InBandPacketOvertakes`).
- A name that collides with a listed one is counted but never found, and operations on it act on the other name
  (`AddThenGetReadsTheNewEntry`, `CollidingNamesAreConfused`): `NameServer_add` marks the new node as colliding, not the listed one.
  The table is a map of stacks of values in exactly the runs in which this does not happen (`TableRefinesMapIff`), for instance on
  names the hash tells apart (`NamesToldApartNeverConfuse`, `FourFreePositionsInjective`).
- The first symbol of every dynamic table resolves to a null create function instead of its address (`LiveIndexResolves`,
  `FirstSymbolIsUnusable`). A null address is stored in a slot that stays free, which breaks the keying of empty slots
  (`SymbolTable.AddKeepsValid`) but not what indices promise (`LiveIndexSurvives`, `StaleIndexRejected`).
- A value of at most four bytes, looked up on another processor with room for more, arrives as zeros (`RemoteReturnsWhatLocalDoes`,
  `ShortValueIsLost`).
- A late reply can hide the reply that a caller waits for. It does in some continuation if and only if an earlier request that was
  sent, and can be answered, has another number (`ReplyReachesCallerIff`); `AnswerIsHidden` is a run from the start.
- Growing the daemon's queue table loses slots once its size in bytes no longer fits 16 bits (`GrowKeepsSlotsIff`,
  `AllSlotsLostAt8192`), and announcing a name that collides with a listed one gives its queue a key that leads nowhere
  (`ChainedNameIsLost`, `AnnouncedIsFoundIff`). Every other operation keeps the table and the names consistent
  (`EveryRunKeepsValidIff`).
- `MessageQ_announce` answers success for a name that was refused (`AnnounceHidesRefusal`).
- The message about a reserved index names a smaller maximum than the check allows (`ReservedRequestTakesDynamicSlot`).
- The documentation of `MessageQ_unblock` lets every later get return at once; only as many do as the semaphore has units
  (`UnblockedGetReturnsIff`, `SecondGetAfterUnblockWaits`).
- `MessageQ_get` without a timeout ignores that a signal ended its wait and goes on to the list. One such signal, and nothing else
  unusual, lets some get come to an empty list unless the queue is unblocked by then (`FedIff`, `InterruptionIsHarmlessIff`,
  `InterruptedGetFindsNothing`).
- An unbind of a queue that is unbound already leaves the dispatch thread parked (`ParkedThreadResumesIff`,
  `UnbindingTwiceLeavesThreadParked`); it takes one unbind of a queue that was never bound (`UnboundUnbindParksThread`).

## Model

| member | source | states |
|---|---|---|
| StringHash.StringHash | linux/src/daemon/NameServer_daemon.c:234-244 | the loop over one accumulator computes the fold of one table step per character |
| StringHash.TableIsGenerated | linux/src/daemon/NameServer_daemon.c:188-232 | every one of the 256 table entries is eight rounds of the reflected CRC-32 polynomial, as in section 8 of RFC 1952 |
| StringHash.TopBytesDistinct | linux/src/daemon/NameServer_daemon.c:188-232 | no two table entries share their top byte |
| StringHash.StepInjective | linux/src/daemon/NameServer_daemon.c:234-244 | for a fixed character one step of the hash is injective in the accumulator |
| StringHash.FoldInjective | linux/src/daemon/NameServer_daemon.c:234-244 | so is hashing any string |
| StringHash.Window | linux/src/daemon/NameServer_daemon.c:234-244 | four characters that start from the same accumulator and end in the same one are the same four characters |
| StringHash.NoCollisionWithinFour | linux/src/daemon/NameServer_daemon.c:234-244 | two names of equal length, of bytes below 128, that agree outside some four consecutive positions have the same hash if and only if they are equal |
| StringHash.FourFreePositionsInjective | linux/src/daemon/NameServer_daemon.c:234-244 | the hash is injective on any set of names that differ only inside the same four positions |
| StringHash.FiveCharactersCanCollide | linux/src/daemon/NameServer_daemon.c:234-244 | five positions are too many: dvdba and x98cu have the same hash |
| NameTable.NameServer.constructor | linux/src/daemon/NameServer_daemon.c:695-775 | a new instance has an empty list, a zero count and room for at least a word |
| NameTable.NameServer.Add | linux/src/daemon/NameServer_daemon.c:830-926 | the traversal and the insertion leave the table AddTo says and answer the key or nothing; the table stays well formed |
| NameTable.NameServer.Remove | linux/src/daemon/NameServer_daemon.c:944-1013 | takes the first entry found by hash off the list, or reports that there is none |
| NameTable.NameServer.RemoveByPosition | linux/src/daemon/NameServer_daemon.c:996-1001 | unlinks the node the traversal stopped at |
| NameTable.NameServer.RemoveEntry | linux/src/daemon/NameServer_daemon.c:1016-1038 | unlinks exactly the node whose address was handed in and lowers the count |
| NameTable.NameServer.GetLocal | linux/src/daemon/NameServer_daemon.c:1294-1370 | answers the first min(len, stored length) bytes of the entry found by hash |
| NameTable.AddKeepsWellFormed | linux/src/daemon/NameServer_daemon.c:830-926 | after any add every listed entry has the hash of its name, an address of its own and an unset collide flag, whatever names collide |
| NameTable.UnlinkKeepsWellFormed | linux/src/daemon/NameServer_daemon.c:1016-1038 | and so after any removal |
| NameTable.AddKeepsApart | linux/src/daemon/NameServer_daemon.c:863-904 | two different names with the same hash are never listed together: add hangs the later one off the earlier one |
| NameTable.Clip | linux/src/daemon/NameServer_daemon.c:1342-1349 | the bytes copied out are a prefix of the stored ones, as long as asked for or as stored |
| NameRefinement.FoundIsTop | linux/src/daemon/NameServer_daemon.c:1319-1353 | the entry found by hash is the top of the stack of its name, unless a different name with the same hash is listed |
| NameRefinement.UnlinkDrops | linux/src/daemon/NameServer_daemon.c:1016-1038 | unlinking a node takes its item, and no other, off the stack of its name |
| NameRefinement.AddStopsOnlyAtDuplicates | linux/src/daemon/NameServer_daemon.c:863-880 | without such a name, the traversal of add stops only at an entry of the same name, and only with checkExisting |
| NameRefinement.AddSimulates | linux/src/daemon/NameServer_daemon.c:830-926 | one add on the table is one push on the map, whatever is refused for length, memory or checkExisting |
| NameRefinement.RemoveSimulates | linux/src/daemon/NameServer_daemon.c:944-1013 | one remove is one pop |
| NameRefinement.RemoveEntrySimulates | linux/src/daemon/NameServer_daemon.c:1016-1038 | one removeEntry of a listed entry drops that item from its stack |
| NameRefinement.GetSimulates | linux/src/daemon/NameServer_daemon.c:1294-1370 | one lookup reads the top of the stack of its name |
| NameRefinement.ClashingNameHasNothing | linux/src/daemon/NameServer_daemon.c:863-880 | a name that clashes with a listed one has no value, yet its hash leads to an entry |
| NameRefinement.StepSimulatesIff | linux/src/daemon/NameServer_daemon.c:830-1038 | an operation answers and changes the table as it does the map if and only if it is not asked for a name while a different one with the same hash is listed; a refused add is harmless |
| NameRefinement.TableRefinesMapIff | linux/src/daemon/NameServer_daemon.c:830-1038 | a run of add, remove, removeEntry and get, over any names, does on the table step by step what it does on the map of stacks if and only if no operation in it is so confused |
| NameRefinement.TableRefinesMap | linux/src/daemon/NameServer_daemon.c:830-1038 | then all answers of a run are those of the map, the table represents the map at its end, and count is the number of entries |
| NameRefinement.NamesToldApartNeverConfuse | linux/src/daemon/NameServer_daemon.c:234-244 | no operation on names that the hash tells apart is confused |
| NameRefinement.EveryRunKeepsApart | linux/src/daemon/NameServer_daemon.c:830-1038 | through every run, confused or not, no two different names with the same hash are listed |
| NameRefinement.EmptyTableRepresentsEmptyMap | linux/src/daemon/NameServer_daemon.c:751-752 | a new instance represents the empty map |
| NameRefinement.CheckExistingKeepsPartialMap | linux/src/daemon/NameServer_daemon.c:868-873 | with checkExisting no name ever has more than one value |
| NameRefinement.AddThenGetReadsTheNewEntry | linux/src/daemon/NameServer_daemon.c:896-915 | after a successful add, a lookup reads the new entry if and only if no other name on the list shares its hash |
| NameRefinement.CollidingNamesAreConfused | linux/src/daemon/NameServer_daemon.c:896-915 | with dvdba listed, x98cu is counted but never found, reads the value of dvdba, and removing it removes dvdba |
| NameRemote.RepliesKept | linux/src/daemon/NameServer_daemon.c:337-410 | every reply on its way, and the one in the cache, answers a request that was sent |
| NameRemote.TokensKept | linux/src/daemon/NameServer_daemon.c:400-407 | a token is never there before the first reply, and the current reply in the cache comes with a token |
| NameRemote.InvKept | linux/src/daemon/NameServer_daemon.c:1053-1196 | the invariant of caller, listener and network is inductive |
| NameRemote.EveryRunKeepsInv | linux/src/daemon/NameServer_daemon.c:1053-1196 | it holds in every state of every run, with replies delayed, lost, doubled or late |
| NameRemote.CacheAnswersSomeRequest | linux/src/daemon/NameServer_daemon.c:400-401 | the cache answers some request numbered at most like the current one |
| NameRemote.EndsOnlyWithOwnNumber | linux/src/daemon/NameServer_daemon.c:1150-1156 | a woken caller ends its call if and only if the cached number is its own in 32 bits |
| NameRemote.SuccessIsFresh | linux/src/daemon/NameServer_daemon.c:1158-1183 | on success the current request was answered, with a value the name was bound to at some moment since it was sent |
| NameRemote.NotFoundIsFresh | linux/src/daemon/NameServer_daemon.c:1184-1191 | on not-found the name was unbound at some moment since the request was sent |
| NameRemote.EarlyRequestsAreInReach | linux/src/daemon/NameServer_daemon.c:1105 | for the first 2^32 requests the two results above need no hypothesis about late replies |
| NameRemote.StaleTokenIsIgnored | linux/src/daemon/NameServer_daemon.c:1153-1156 | a token left by an earlier reply costs a round, and changes nothing else |
| NameRemote.OwnReplyWakesCaller | linux/src/daemon/NameServer_daemon.c:400-407 | while the current reply is cached, its caller can be woken, and then ends its call |
| NameRemote.LateReplyHidesAnswer | linux/src/daemon/NameServer_daemon.c:400-401 | from a state with a late reply still to be posted, the caller uses up both tokens and goes on waiting |
| NameRemote.ReplyReachesCallerIff | linux/src/daemon/NameServer_daemon.c:400-401 | whatever happens until the next call, a caller whose reply was received is never left waiting, and ends its call when it looks, if and only if no earlier request that was sent and is short enough to be answered has another number: the reply to such a request can hide it |
| NameRemoteRuns.LateReplyCanHide | linux/src/daemon/NameServer_daemon.c:400-401 | a run from the start that reaches such a state: a first lookup times out, a second is answered in time, the reply to the first comes late |
| NameRemoteRuns.AnswerIsHidden | linux/src/daemon/NameServer_daemon.c:400-401 | and goes on until the reply to the current request is lost and its caller waits without a token |
| NameRemote.RemoteReturnsWhatLocalDoes | linux/src/daemon/NameServer_daemon.c:355-366 | a remote lookup gives what the local one would if and only if the lengths fit: a value of a word or less asked for with more room is lost unless it is zeros |
| NameRemote.ShortValueIsLost | linux/src/daemon/NameServer_daemon.c:1162-1175 | the bytes 1 2 3 4 asked for with room for eight come back as four zeros |
| QueueTable.IndexOfInvertsIdOf | linux/src/daemon/MessageQ_daemon.c:352-355 | MessageQ_getQueueIndex inverts the id built at create if and only if index and offset fit 16 bits |
| QueueTable.WordInjective | linux/src/daemon/NameServer_daemon.c:930-941 | different 32-bit values are stored as different bytes |
| QueueTable.LiveIdsDistinct | linux/src/daemon/MessageQ_daemon.c:275-363 | live queues have different ids |
| QueueTable.KeysDistinct | linux/src/daemon/MessageQ_daemon.c:375-377 | live queues hold different names |
| QueueTable.CreateKeepsValid | linux/src/daemon/MessageQ_daemon.c:275-363 | create keeps table and names consistent if and only if memory is short, no growth is needed, or the old size in bytes fits 16 bits |
| QueueTable.SafeCreateKeepsValid | linux/src/daemon/MessageQ_daemon.c:455-491 | create keeps them so when growth is safe |
| QueueTable.UnsafeGrowLosesQueue | linux/src/daemon/MessageQ_daemon.c:461-468 | when the size wraps, the queue in the last slot is live but no longer in its slot |
| QueueTable.CreateIsFresh | linux/src/daemon/MessageQ_daemon.c:301-343 | a queue is created unless memory is short, the index is taken or too large; it gets an empty slot and an id no other queue has |
| QueueTable.AnnounceKeepsValid | linux/src/daemon/MessageQ_daemon.c:368-384 | announce keeps them so if and only if no name is given, the queue has one, the name or the id is too long, memory is short, or the name goes on the list and not into the chain of a different one |
| QueueTable.ChainedNameIsLost | linux/src/daemon/MessageQ_daemon.c:375-377 | a name that goes into a chain gives its queue a key that leads to no listed name |
| QueueTable.DeleteKeepsValid | linux/src/daemon/MessageQ_daemon.c:389-434 | delete keeps table and names consistent |
| QueueTable.DeleteTakesItsName | linux/src/daemon/MessageQ_daemon.c:406-417 | delete takes the name the queue holds, and no other, off the list |
| QueueTable.DeleteFreesItsSlot | linux/src/daemon/MessageQ_daemon.c:400-427 | the slot a queue id names holds that queue, and delete empties this slot only |
| QueueTable.SetOwnerKeepsValid | linux/src/daemon/MessageQ_daemon.c:515-520 | setting the owner keeps table and names consistent and changes neither ids, keys nor names |
| QueueRuns.CleanupRemovesExactlyTheOwned | linux/src/daemon/MessageQ_daemon.c:522-532 | after cleaning up a process none of its queues or names is left, and all others are unchanged and in their slots |
| QueueRuns.ApplyKeepsValid | linux/src/daemon/MessageQ_daemon.c:275-532 | an operation keeps table and names consistent if and only if it is harmless: it neither grows past 16 bits nor enters a name into a chain |
| QueueRuns.EveryRunKeepsValidIff | linux/src/daemon/MessageQ_daemon.c:275-532 | every state of a run of create, announce, setQueueOwner, delete and cleanupOwner is consistent if and only if every operation in it is harmless where it happens |
| QueueRuns.ApplyKeepsApart | linux/src/daemon/MessageQ_daemon.c:275-532 | no operation, harmless or not, lists two different names with the same hash |
| QueueRuns.SetupIsValid | linux/src/daemon/MessageQ_daemon.c:202-216 | the table that setup allocates is consistent |
| QueueRuns.FoundNameGivesLiveQueueIff | linux/src/daemon/MessageQ_daemon.c:368-434 | a name that is found gives the id of a live queue that holds this name if and only if no different name with the same hash is listed |
| QueueRuns.AnnouncedIsFoundIff | linux/src/daemon/MessageQ_daemon.c:375-377 | a queue whose name was entered is found under it if and only if the name did not go into the chain of a different one |
| QueueRuns.AnnounceHidesRefusal | linux/src/daemon/MessageQ_daemon.c:375-380 | announce answers success even when the name is refused; it is entered if and only if it is short enough, not listed, and memory suffices |
| QueueRuns.DeleteUndoesCreate | linux/src/daemon/MessageQ_daemon.c:275-434 | deleting a queue just created restores slots, queues and names |
| QueueRuns.GrowKeepsSlotsIff | linux/src/daemon/MessageQ_daemon.c:455-491 | when create grows the table, every old slot survives if and only if the old size in bytes fits the 16-bit oldSize |
| QueueRuns.AllSlotsLostAt8192 | linux/src/daemon/MessageQ_daemon.c:461-468 | with 8-byte handles the 8193rd queue makes the table forget all others |
| QueueRuns.ReservedRequestTakesDynamicSlot | linux/src/daemon/MessageQ_daemon.c:302-309 | a request for a reserved index takes a dynamic slot if and only if it is for the first one and that slot is empty: the bound on reserved indices is inclusive |
| QueueServer.MessageQ.constructor | linux/src/daemon/MessageQ_daemon.c:202-216 | setup leaves an empty table and an empty name server |
| QueueServer.MessageQ.Grow | linux/src/daemon/MessageQ_daemon.c:455-491 | allocating, copying oldSize bytes and hooking up the new table gives the grown table, lost slots included |
| QueueServer.MessageQ.Pick | linux/src/daemon/MessageQ_daemon.c:301-338 | the two searches choose the slot that the specification chooses |
| QueueServer.MessageQ.Occupy | linux/src/daemon/MessageQ_daemon.c:323-343 | the handle goes into that slot and nothing else moves |
| QueueServer.MessageQ.Install | linux/src/daemon/MessageQ_daemon.c:278-345 | a new object with the id of its slot, or the table as before if no slot was picked |
| QueueServer.MessageQ.Create | linux/src/daemon/MessageQ_daemon.c:275-363 | the whole new state and the handle; consistent if and only if memory is short or growth is safe |
| QueueServer.MessageQ.Announce | linux/src/daemon/MessageQ_daemon.c:368-384 | the whole new state and the status; consistent if and only if no name goes into the chain of a different one |
| QueueServer.MessageQ.Enter | linux/src/daemon/MessageQ_daemon.c:375-377 | the name goes to the name server with the id as its value, and the key that comes back into the object |
| QueueServer.MessageQ.Withdraw | linux/src/daemon/MessageQ_daemon.c:406-417 | the entry with this key, and no other, leaves the name server |
| QueueServer.MessageQ.Delete | linux/src/daemon/MessageQ_daemon.c:389-434 | the whole new state, and consistency |
| QueueServer.MessageQ.CleanupOwner | linux/src/daemon/MessageQ_daemon.c:522-532 | the scan deletes what the specification deletes, and keeps the table consistent at every slot |
| MessageQueue.InvKept | linux/src/api/MessageQ.c:993-1060 | the invariant over list, semaphore, flag and threads is inductive for any number of threads |
| MessageQueue.EveryRunKeepsInv | linux/src/api/MessageQ.c:993-1060 | it holds in every interleaving of put, get, unblock and shutdown, with waits that a signal interrupts |
| MessageQueue.BalanceKept | linux/src/api/MessageQ.c:904-908 | every unit of the semaphore stands for a message or an unblock call, counting threads in between and interrupted waits |
| MessageQueue.EnoughKept | linux/src/api/MessageQ.c:1048-1057 | the gets past the flag never outnumber the messages on the list and the interrupted waits |
| MessageQueue.OrderKept | linux/src/api/MessageQ.c:1052-1057 | what went in is what came out followed by what is there, in order |
| MessageQueue.DeliveryKept | linux/src/api/MessageQ.c:1052-1060 | what came out is what was handed out plus what gets hold in hand |
| MessageQueue.SemaphoreTracksList | linux/src/api/MessageQ.c:904-908 | with the flag clear, list length plus interrupted waits is the semaphore plus the gets past the wait plus the puts between insert and post |
| MessageQueue.GetNeverFindsListEmpty | linux/src/api/MessageQ.c:1052-1057 | a get that comes to the list finds a message, even when the queue is unblocked meanwhile, as long as no wait without a timeout was interrupted |
| MessageQueue.EveryRunHasMessages | linux/src/api/MessageQ.c:1052-1057 | so in no run without an interrupted wait does a get remove from an empty list |
| MessageQueue.FedIff | linux/src/api/MessageQ.c:1018-1020 | as long as nothing more is interrupted every get to come finds a message, if and only if no wait without a timeout was interrupted so far or the queue is unblocked |
| MessageQueue.InterruptionIsHarmlessIff | linux/src/api/MessageQ.c:1018-1020 | one interruption of a wait without a timeout is harmless, whatever uninterrupted steps follow, if and only if the queue is unblocked by then; without it nothing goes wrong if none went before |
| MessageQueue.InterruptedGetFindsNothing | linux/src/api/MessageQ.c:1018-1020 | a run from the start in which a get comes to an empty list after a signal |
| MessageQueue.FirstInFirstOut | linux/src/api/MessageQ.c:904-908 | messages leave in insertion order, none lost, invented or doubled on the way to the caller |
| MessageQueue.RemovesTheOldest | linux/src/api/MessageQ.c:1054-1055 | every removal takes the oldest message there is |
| MessageQueue.WaitingGetMissesNothing | linux/src/api/MessageQ.c:1018-1020 | with the semaphore at zero and nobody in between, the list is empty |
| MessageQueue.UnblockedGetIsTurnedAway | linux/src/api/MessageQ.c:1048-1050 | after unblock or shutdown a get past the semaphore returns that code and leaves the list alone |
| MessageQueue.UnblockedGetReturnsIff | linux/src/api/MessageQ.c:1215-1230 | after an unblock, a get does not wait if and only if the gets turned away or past their wait and the threads that owe a post are fewer than messages, unblock calls and interrupted waits together |
| MessageQueue.SecondGetAfterUnblockWaits | linux/src/api/MessageQ.c:1215-1221 | on an empty queue one unblock lets one get return and the next one waits |
| MessageQueue.Queue.constructor | linux/src/api/MessageQ.c:588-596 | a new queue is empty, in use, and its semaphore is zero |
| MessageQueue.Queue.Put | linux/src/api/MessageQ.c:896-911 | an uninterrupted put appends the message and posts |
| MessageQueue.Queue.Get | linux/src/api/MessageQ.c:993-1060 | an uninterrupted get times out, is turned away, or takes the head, and nothing else |
| MessageQueue.Queue.Unblock | linux/src/api/MessageQ.c:1215-1221 | raises the flag and posts |
| MessageQueue.Queue.Shutdown | linux/src/api/MessageQ.c:1224-1230 | raises the other flag value and posts |
| FdTables.RoomForOneMore | linux/src/transport/TransportRpmsg.c:374-379 | with descriptors below 1024 at most 1023 slots are in use, and a new socket always finds one |
| FdTables.MaxFdOfIsMax | linux/src/transport/TransportRpmsg.c:468-473 | the loop over the array computes the greatest of its descriptors and unblockEvent |
| FdTables.BindMapsOneEntry | linux/src/transport/TransportRpmsg.c:787-827 | binding, growth included, changes what one queue index of one instance maps to |
| FdTables.UnbindMapsOneEntry | linux/src/transport/TransportRpmsg.c:832-843 | and so does unbinding |
| FdTables.BindKeepsValid | linux/src/transport/TransportRpmsg.c:374-379 | after bind the sockets are distinct, in bijection with the entries of all instances, and maxFd is their maximum |
| FdTables.UnbindKeepsValid | linux/src/transport/TransportRpmsg.c:446-474 | and after unbind |
| FdTables.DeafenKeepsValid | linux/src/transport/TransportRpmsg.c:618-628 | clearing a dead socket's bit keeps them so and leaves maxFd unchanged, since the socket stays in the array |
| FdTables.UnbindUndoesBind | linux/src/transport/TransportRpmsg.c:374-475 | unbinding what was just bound restores the array, the set, its bound and every mapping |
| FdTables.EveryRunKeepsValid | linux/src/transport/TransportRpmsg.c:289-486 | through every run of bind, unbind and shutdown the tables stay consistent and the 1024 slots never overflow |
| FdTables.Transport.constructor | linux/src/transport/TransportRpmsg.c:934-938 | the set starts with the unblock event only, and every entry unbound |
| FdTables.Transport.QueueIndexToFd | linux/src/transport/TransportRpmsg.c:848-857 | the entry of the queue index, unbound past the table |
| FdTables.Transport.BindFdToQueueIndex | linux/src/transport/TransportRpmsg.c:787-827 | grows the table with unbound entries as far as needed and sets one entry |
| FdTables.Transport.BindQueue | linux/src/transport/TransportRpmsg.c:309-398 | an existing binding or a failed socket changes nothing; otherwise the tables are those of Bind, and consistent |
| FdTables.Transport.RecomputeMaxFd | linux/src/transport/TransportRpmsg.c:466-474 | the loop finds the new maximum |
| FdTables.Transport.ShiftDown | linux/src/transport/TransportRpmsg.c:452-460 | the inner loop closes the gap |
| FdTables.Transport.RemoveInFd | linux/src/transport/TransportRpmsg.c:449-463 | the search and the shift take the socket out of the array, in order |
| FdTables.Transport.Forget | linux/src/transport/TransportRpmsg.c:444-475 | entry, array, set and bound together are those of Unbind |
| FdTables.Transport.UnbindQueue | linux/src/transport/TransportRpmsg.c:438-475 | an unbound queue changes nothing; otherwise the tables are those of Unbind, and consistent |
| FdTables.Transport.ShutdownInFd | linux/src/transport/TransportRpmsg.c:616-638 | the dispatch thread's own change to the set keeps the tables consistent |
| PauseSafety.InvKept | linux/src/transport/TransportRpmsg.c:289-702 | the invariant over counters, gate, thread, clients and tables is inductive for any number of clients |
| PauseSafety.InitInv | linux/src/transport/TransportRpmsg.c:932-948 | it holds when the module is created |
| PauseSafety.EveryRunKeepsInv | linux/src/transport/TransportRpmsg.c:289-702 | so it holds in every reachable state |
| PauseSafety.GateKept | linux/src/transport/TransportRpmsg.c:309-398 | the gate has one owner, and only its owner is past it |
| PauseSafety.CodesKept | linux/src/transport/TransportRpmsg.c:654-702 | the states of thread, client and counters stay in the table of combinations that fit together |
| PauseSafety.UpdatesKept | linux/src/transport/TransportRpmsg.c:374-475 | the tables are consistent, or a prefix of one client's writes away from a consistent state |
| PauseSafety.CurrentKept | linux/src/transport/TransportRpmsg.c:568-572 | what the thread copied stays what the tables hold |
| PauseSafety.DecodeCases | linux/src/transport/TransportRpmsg.c:666-702 | what one round of the decoding loop makes of each event that occurs |
| PauseSafety.WritesAreTheOperation | linux/src/transport/TransportRpmsg.c:374-475 | the four writes between ACK and CONTINUE amount to the bind or unbind of FdTables |
| PauseSafety.UpdateKeepsConsistent | linux/src/transport/TransportRpmsg.c:374-475 | and take consistent tables to consistent tables, with every listed socket open |
| PauseSafety.HolderExcludesThread | linux/src/transport/TransportRpmsg.c:345-393 | a client between reading ACK and writing CONTINUE has the thread between its ACK write and its release read, or stopped |
| PauseSafety.WhoChangesTheTables | linux/src/transport/TransportRpmsg.c:374-379 | the tables change only while the thread is parked or stopped, except that the thread, holding the gate, clears a bit |
| PauseSafety.ThreadSeesConsistentTables | linux/src/transport/TransportRpmsg.c:568-652 | from its snapshot to the end of its scan the thread works on consistent tables that are just as it copied them |
| PauseSafety.ScannedSocketIsOpen | linux/src/transport/TransportRpmsg.c:585-595 | every socket the thread receives from is open and bound |
| PauseSafety.TablesConsistentBetweenUpdates | linux/src/transport/TransportRpmsg.c:309-316 | whenever no client is writing them the tables are consistent |
| PauseSafety.CodesNeverAddUp | linux/src/transport/TransportRpmsg.c:654-702 | the counter only ever holds PAUSE and CONTINUE, each at most once, plus SHUTDOWN at most once after it is written; the thread ends only after SHUTDOWN |
| PauseSafety.EveryCodeHandledOnce | linux/src/transport/TransportRpmsg.c:666-702 | every PAUSE is acknowledged once before another is written, every CONTINUE releases once |
| PauseSafety.ThreadCanMove | linux/src/transport/TransportRpmsg.c:568-702 | the thread waits only in select, or parked with an empty counter |
| PauseSafety.AckComesCloser | linux/src/transport/TransportRpmsg.c:568-702 | every step of the thread brings the ACK that a client waits for nearer, and it can always make one |
| PauseSafety.OthersDoNotDelay | linux/src/transport/TransportRpmsg.c:309-313 | meanwhile no other client gets a step in |
| PauseSafety.ParkedThreadResumesIff | linux/src/transport/TransportRpmsg.c:690-697 | once the client that holds the gate has done its own steps, the thread can go on if and only if the client bound a queue, found the queue to unbind bound, or SHUTDOWN is written |
| PauseSafety.UnbindingTwiceLeavesThreadParked | linux/src/transport/TransportRpmsg.c:441-443 | an unbind of an unbound queue leaves the thread parked with an empty counter |
| PauseRuns.UnboundUnbindParksThread | linux/src/transport/TransportRpmsg.c:441-443 | a run from the start: one unbind of a queue that was never bound ends with every client idle and the thread parked, unable to step until another PAUSE comes |
| SymbolTable.FieldsDoNotOverlap | packages/ti/grcm/RcmServer.c:1196 | key, table and offset occupy different bits of an index |
| SymbolTable.IndexFields | packages/ti/grcm/RcmServer.c:1612-1618 | each field of a dynamic index is read back as it was put in |
| SymbolTable.StaticIndexFields | packages/ti/grcm/RcmServer.c:1590-1592 | and so the offset of a static one, which is never the not-found value |
| SymbolTable.AddKeepsValid | packages/ti/grcm/RcmServer.c:1138-1203 | allocated tables stay a prefix of 1..8 with their sizes, and empty slots keep key 0, whichever allocation fails, if and only if the address is not null, all slots are taken, or the table or the name cannot be allocated |
| SymbolTable.RemoveKeepsValid | packages/ti/grcm/RcmServer.c:1224-1274 | and so after every removal |
| SymbolTable.SymbolServer.constructor | packages/ti/grcm/RcmServer.c:486-500 | the static table is in place, no dynamic one is allocated, the key is 0 |
| SymbolTable.SymbolServer.GetNextKey | packages/ti/grcm/RcmServer.c:1712-1733 | the key cycles 0x7FF down to 1 |
| SymbolTable.SymbolServer.AddSymbol | packages/ti/grcm/RcmServer.c:1113-1220 | the search over tables, the allocation and the write leave the tables and the answer of AddTo |
| SymbolTable.SymbolServer.FirstEmpty | packages/ti/grcm/RcmServer.c:1141-1147 | the inner loop finds the first empty slot |
| SymbolTable.SymbolServer.Fill | packages/ti/grcm/RcmServer.c:1180-1197 | the slot gets address, name and next key, or the address alone if the name cannot be allocated |
| SymbolTable.SymbolServer.GetSymIdx | packages/ti/grcm/RcmServer.c:1655-1705 | the first slot with this name, as an index, or not found |
| SymbolTable.SymbolServer.RemoveSymbol | packages/ti/grcm/RcmServer.c:1224-1274 | clears the slot of the name; a static or missing name changes nothing |
| SymbolTable.SymbolServer.GetFxnAddr | packages/ti/grcm/RcmServer.c:1579-1646 | the answer of the specification, key check and offset-zero split included |
| SymbolRuns.AddFillsOneEmptySlot | packages/ti/grcm/RcmServer.c:1138-1203 | an addition writes one slot, an empty one, under the next key, and issues the index of both |
| SymbolRuns.RemoveClearsOneSlot | packages/ti/grcm/RcmServer.c:1256-1268 | a removal clears one slot, that of the name |
| SymbolRuns.RunKeepsValidIff | packages/ti/grcm/RcmServer.c:1113-1274 | a run of additions and removals keeps shape, prefix and keying at every step if and only if no null address is added where there is room for it |
| SymbolRuns.LiveIndicesDistinct | packages/ti/grcm/RcmServer.c:1196 | live symbols have different indices |
| SymbolRuns.LiveIndexResolves | packages/ti/grcm/RcmServer.c:1610-1644 | a live index resolves to the address it was issued for if and only if its offset is not zero |
| SymbolRuns.FirstSymbolIsUnusable | packages/ti/grcm/RcmServer.c:1637-1644 | the first symbol added to a new server has offset zero and cannot be called |
| SymbolRuns.LiveIndexSurvives | packages/ti/grcm/RcmServer.c:1579-1646 | an index resolves to the same address through every run, additions of null addresses included, until its own symbol is removed |
| SymbolRuns.KeyCycle | packages/ti/grcm/RcmServer.c:1712-1733 | where the key stands after any number of additions |
| SymbolRuns.KeyReturnsAfter2047 | packages/ti/grcm/RcmServer.c:1712-1733 | the key comes back after 2047 additions and not before |
| SymbolRuns.StaleIndexRejected | packages/ti/grcm/RcmServer.c:1611-1627 | a removed index is rejected through the 2046 successful additions after the one that issued it, whatever slots are reused and whatever addresses are added |
| SymbolRuns.StaleIndexReissued | packages/ti/grcm/RcmServer.c:1712-1733 | the 2047th addition after it, in the same slot, issues a stale index again |
| SymbolRuns.StaleBoundIsSharp | packages/ti/grcm/RcmServer.c:1712-1733 | from any table with room there are 2046 additions, each into the slot the removed symbol left and removed again, after which the index is rejected and the next addition, of any symbol, issues it again |
| SymbolRuns.TableFullIffAllLive | packages/ti/grcm/RcmServer.c:1138-1203 | with no slot leaked, SYMBOLTABLEFULL is answered exactly when all 8160 dynamic slots are live |
| SymbolRuns.NoLeakWithoutFailures | packages/ti/grcm/RcmServer.c:1180-1197 | no slot leaks in a run without allocation failures |
| SymbolRuns.AddFindRemove | packages/ti/grcm/RcmServer.c:1113-1274 | an added name is found under the index issued, and not found after its removal |
| JobStreams.TrackerVisitsEveryId | packages/ti/grcm/RcmServer.c:1332-1335 | 65535 steps of the tracker visit each id from 1 to 65535 exactly once |
| JobStreams.IdReturnsAfter65535 | packages/ti/grcm/RcmServer.c:1335 | an id comes round again only after all others |
| JobStreams.RequeueKeepsJobs | packages/ti/grcm/RcmServer.c:2425-2487 | job ids stay distinct, idle jobs empty, and the worker's pool lookup succeeds |
| JobStreams.AcceptKeepsJobs | packages/ti/grcm/RcmServer.c:1464-1504 | accepting a message keeps the job list valid |
| JobStreams.ReleaseKeepsJobs | packages/ti/grcm/RcmServer.c:2072-2084 | a released id is not in the list any more, and the list stays valid |
| JobStreams.JobServer.constructor | packages/ti/grcm/RcmServer.c:486-535 | the job list is empty and every pool's semaphore is zero |
| JobStreams.JobServer.Search | packages/ti/grcm/RcmServer.c:1337-1345 | the shared search loop finds the first job with this id |
| JobStreams.JobServer.AcqJobId | packages/ti/grcm/RcmServer.c:1310-1391 | never issues 0 or an id in use, issues the first free one after the tracker, and gives up for want of ids only when all 65535 are in use |
| JobStreams.JobServer.RelJobId | packages/ti/grcm/RcmServer.c:2049-2128 | takes the job off the list and hands back everything waiting in it, in order |
| JobStreams.JobServer.Dispatch | packages/ti/grcm/RcmServer.c:1419-1510 | which queue the packet goes to, whether the semaphore is posted, and the two error codes |
| JobStreams.JobServer.RequeueNext | packages/ti/grcm/RcmServer.c:2401-2490 | the next message of the job goes to its own pool, or the job becomes idle |
| JobInvariant.SizedKept | packages/ti/grcm/RcmServer.c:1419-1510 | every step keeps the job list valid |
| JobInvariant.ControlKept | packages/ti/grcm/RcmServer.c:1464-1504 | the gate has one owner and threads keep to their parts |
| JobInvariant.SemaphoresKept | packages/ti/grcm/RcmServer.c:2356-2382 | per pool, ready length is the semaphore plus workers between pend and get plus putters between put and post |
| JobPlaces.PlacedKept | packages/ti/grcm/RcmServer.c:2092-2116 | every step keeps every message in exactly one place |
| JobTokens.TrackedKept | packages/ti/grcm/RcmServer.c:2401-2490 | every step keeps the order and the one-token property of every live job |
| JobSafety.InvKept | packages/ti/grcm/RcmServer.c:2326-2494 | the whole invariant is inductive for any number of workers and pools |
| JobSafety.InitInv | packages/ti/grcm/RcmServer.c:486-535 | it holds at the start |
| JobSafety.EveryRunKeepsInv | packages/ti/grcm/RcmServer.c:2326-2494 | so it holds in every reachable state |
| JobSafety.OneAtATime | packages/ti/grcm/RcmServer.c:1464-1504 | at most one message of a live job is ready or executing, or one worker owes it the next |
| JobSafety.AcceptedInOrder | packages/ti/grcm/RcmServer.c:1464-1504 | accepted messages are the finished ones, then the one ready or executing, then those waiting, in order |
| JobSafety.ExecutesInOrder | packages/ti/grcm/RcmClient.h:559-561 | the message of a live job that executes is always the next in order of arrival, even across pools |
| JobSafety.HistoryGrows | packages/ti/grcm/RcmServer.c:1464-1504 | what is accepted and what is finished of a live job only grow at the end |
| JobSafety.IdleExactlyWhenNothingInFlight | packages/ti/grcm/RcmServer.c:2401-2490 | a job is idle exactly when nothing of it is in flight, and a waiting message always has something in flight that will fetch it |
| JobSafety.ReadyMessagesAreSignalled | packages/ti/grcm/RcmServer.c:2356-2382 | a ready message has a unit of the semaphore, or a thread about to take or post |
| JobSafety.GateOwnerCanMove | packages/ti/grcm/RcmServer.c:1456-1504 | the thread in the gate can always take its next step |
| JobSafety.ReadyQueueNeverEmpty | packages/ti/grcm/RcmServer.c:2373-2382 | a worker past its semaphore never finds the ready queue empty |
| JobSafety.WorkerLookupNeverFails | packages/ti/grcm/RcmServer.c:2434-2470 | the second pool lookup never fails |
| JobSafety.InExactlyOnePlace | packages/ti/grcm/RcmServer.c:2092-2116 | every message taken from the server queue is in exactly one place |
| JobSafety.AnsweredAtMostOnce | packages/ti/grcm/RcmServer.c:2092-2116 | no message is returned or freed twice |
| JobSafety.EveryRunKeepsDispositions | packages/ti/grcm/RcmServer.c:1774-2045 | only one-way commands are freed and only unknown types dropped; all others are returned |
| JobReuse.InvStaysInSequence | packages/ti/grcm/RcmServer.c:1464-1504 | from a state of the invariant no run brings two messages of a live job under way together |
| JobReuse.LeftoverBreaks | packages/ti/grcm/RcmServer.c:2401-2490 | a new job with the id of a message still in flight can be sent messages until two of them are ready or executing together |
| JobReuse.PressedBreaks | packages/ti/grcm/RcmServer.c:2136-2305 | so it can when the server first has a packet to finish, whatever that is but the release of this job |
| JobReuse.ReuseSafeIffNotInFlight | packages/ti/grcm/RcmServer.c:1332-1359 | handing out a free id keeps the messages of its job one at a time, whatever happens next, if no message in flight still carries the id, and only then unless the server is just about to release the id again; otherwise a run ends with two of them ready or executing |
| JobRetired.StepCommutes | packages/ti/grcm/RcmServer.c:2326-2494 | until the server releases the job again, every step of server and workers does the same as if the job were not there |
| JobRetired.ReleaseCleansUp | packages/ti/grcm/RcmServer.c:2049-2128 | the release of such a job leaves a state that satisfies the whole invariant |
| JobRetired.ReuseSafeIff | packages/ti/grcm/RcmServer.c:1332-1359 | so, with no case left out: one at a time, whatever happens next, if and only if no message in flight carries the id, or the server has just taken the packet that releases it and at most one message that carries it is ready or executing |
| JobInBand.InBandInTurnIff | packages/ti/grcm/RcmServer.c:2237-2242 | a packet of a live job that the server thread processes in band runs after all earlier ones of its job and together with none, if and only if nothing of the job is ready, executing or waiting when it comes |
| JobInBand.InBandPacketOvertakes | packages/ti/grcm/RcmServer.c:2237-2242 | a run from the start after which two packets of one job are executed together |
| JobBanded.EveryRunKeepsInv | packages/ti/grcm/RcmServer.c:2237-2242 | with packets of jobs processed in band among the steps, every state satisfies the invariant of JobSafety |
| JobBanded.ActIsOrderedIff | packages/ti/grcm/RcmServer.c:2237-2242 | a step, in band or not, keeps the packets of every live job in order of arrival and one at a time if and only if a packet taken in band finds nothing of its job under way |
| JobBanded.EveryRunInOrderIff | packages/ti/grcm/RcmServer.c:2136-2305 | so does every run of server and workers, if and only if each packet of a live job taken in band comes when nothing of its job is ready, executing or waiting |
| JobBanded.ProcessesTheNext | packages/ti/grcm/RcmClient.h:559-561 | what any thread is processing of a live job is then the next packet in the order of arrival, in band or not, and all earlier ones are done |
| JobBanded.ServedAlone | packages/ti/grcm/RcmServer.c:2237-2242 | and while the server thread processes one in band, no other of its job is ready or executing |
| JobNumbers.ReissueTakesFullTurn | packages/ti/grcm/RcmServer.c:1332-1335 | an id is issued again only after 65535 steps of the tracker |
| JobNumbers.AcquisitionIsStep | packages/ti/grcm/RcmServer.c:1332-1379 | as long as the messages of a released job are out of flight before that, the first free id after the tracker is not in flight |
| JobNumbers.NumberedInvKept | packages/ti/grcm/RcmServer.c:1310-1391 | server, workers and tracker together keep the invariant |
| JobNumbers.EveryRunKeepsInv | packages/ti/grcm/RcmServer.c:1310-1391 | so every state of every such run satisfies the invariant behind order, conservation and progress |
| JobNumbers.StepsPerAcquisition | packages/ti/grcm/RcmServer.c:1332-1350 | an acquisition moves the tracker at most one step more than there are jobs |
| JobProgress.EveryStepWorks | packages/ti/grcm/RcmServer.c:2326-2494 | every step but the receipt of a message leaves less to do |
| JobProgress.StuckPoolIsEmpty | packages/ti/grcm/RcmServer.c:2356-2382 | if only the server can step, a pool that has a worker has no ready message |
| JobProgress.StuckJobIsEmpty | packages/ti/grcm/RcmServer.c:2401-2490 | and no live job has a message waiting |
| JobProgress.UnansweredMessageMovesOn | packages/ti/grcm/RcmServer.c:2326-2494 | as long as a received message is not answered, some thread can take a step that leaves less to do |
| JobProgress.QuietRunsEnd | packages/ti/grcm/RcmServer.c:2326-2494 | a run without new messages is no longer than the work at its start |

## Left out

- Sockets, select, shared memory, `/proc`, daemon start-up and option parsing: input and output.
- `linux/src/api/NameServer.c`, `LAD_client.c` and the command switch of `lad.c`: marshalling around the functions modelled here.
- The internals of eventfd, pthread mutexes, semaphores, gates and lists: taken as atomic primitives.
- The bodies of remote functions, the DPC and SYM_ADD cases of `RcmServer_process_P`, instance creation and deletion, and the
  termination of worker threads.
- The build of RcmServer in which packets share one receive buffer (`USE_RPMESSAGE` set): packets are distinct objects here.
- What a worker does after its pool lookup failed: the state is modelled, and proved unreachable.
- Lookup and removal inside the collision chains of the NameServer: no listed node ever has the flag that leads there.
- The REFRESH acknowledgement of NameServer attach and detach, which shares the wait event with replies.
- The reply of `NameServerRemote_processMessage` is modelled for a processor that runs the same code; requests longer than the
  asserted maximum are not answered.
- The four bytes `NameServer_getRemote` writes when asked for fewer: only the bytes within the length are modelled.
- Routing of a message to a transport in `MessageQ_put`, and several queues at once: queues share nothing.
- A symbol index whose offset lies outside the table it names, which the code would read past the end: `InTable` excludes it.
- Addresses that are freed and handed out again: handles and keys are not reused.
- Removing an entry that hangs off a listed one: `RemoveEntry` is modelled for entries on the list.
- What happens after a get has found the list empty: the code takes the list head itself for a message and unlinks it; the state is
  not followed further.
- JobSafety.InvKept: packets of a job that are processed in band and ids still in flight are not among its steps; JobBanded, JobReuse
  and JobNumbers say what follows from them and when.
- JobRetired.ReuseSafeIff: after the acquisition further ids are handed out only when they are free and not in flight.
- JobInBand.InBandInTurnIff: says nothing about the time after the server thread is done with the packet; JobBanded does.
- JobProgress.UnansweredMessageMovesOn: says nothing about messages ready in a pool without workers, which nobody takes.
- PauseSafety.EveryRunKeepsInv: that the thread resumes after every unbind is not claimed, because it does not.
- Watchdogs, error handling of slave cores, stack dumps, power management, hardware spinlocks, heaps and processor tables: hardware,
  platform code or short counters.
