# A verified model of HVAC_ARC

HVAC intercepts the file calls of client processes and serves reads of tracked files from server
processes, which copy the files they serve to node-local storage and redirect later opens to the
copies. This project models three parts of it in Dafny and proves what they promise.

**The distributed read cache.** `Protocol.dfy` is a labelled transition system with any number of
servers and clients and a multiset of messages in flight, delivered in any order. An RPC handler is
one step, because one progress thread runs them; only the close handler, which can be interleaved
with the mover at its mutex, has five. The mover has a step for each lock, wait, wake-up, queue
move, directory, chunk copied, exception, publication and pop. A client's thread sends, may sleep,
is woken and returns. The central result: whatever the interleaving, the calls a client completes
are a legal history of a process with private, uncached POSIX files (`Guarantees.Transparency`).

* `Posix.dfy`: descriptors, `read`, `pread`, `lseek`; one definition used for the client's kernel,
  the server's kernel and the ideal machine an application expects; legal histories.
* `CachingServer.dfy`: the steps of one server, its invariant, and the proof that every step refines
  a server with neither cache nor mover (`Plain`).
* `ClientSide.dfy`: the steps of one client.
* `Protocol.dfy`, `ProtocolInvariant.dfy`, `ProtocolSteps.dfy`, `ProtocolDelivery.dfy`,
  `ProtocolReplies.dfy`, `ProtocolSafety.dfy`: the system, its inductive invariant, and the proof
  that every step of every run keeps it.
* `Guarantees.dfy`, `CacheGuarantees.dfy`: what follows for clients, descriptors, the rendezvous and
  the cache, in every reachable state and along every run; exactly which reads and seeks a server
  answers as POSIX demands.
* `Calls.dfy`: what each intercepted call sends and changes, how its messages travel and what it
  returns, one lemma for each kind of step. `Progress.dfy`: every call can always complete, and
  tracked opens and reads do happen.
* `Interleaving.dfy`: whole wake cycles and whole closes, with any steps of all the others in between.
* `ServerProcess.dfy`, `ClientProcess.dfy`: the processes as classes whose methods change their
  tables in place, proved against the step functions above.

**The tiered cache policy.** `CachePolicy.dfy` has the metadata map, the two byte counters in
explicit 64-bit arithmetic and victim selection; `exit(-1)` and a mutex locked twice by one thread
are outcomes. `CacheEntries.dfy` follows the entry of one file over whole runs. `Eviction.dfy` is the repeated selection and removal that the code's own comment
describes.

**The server address book.** `PortsFile.dfy` prints and scans the ports file with `"%d %s\n"`
(sections 7.21.6.1 and 7.21.6.2 of ISO C11); `AddressBook.dfy` is the lookup memoised in
`address_cache`.

## Assumptions

* Source files do not change during a run, and no application path lies under BBPATH.
* Each client process has one application thread.
* There is at least one server; server opens of existing files succeed; a read of a regular file
  returns all the bytes there are up to its count.
* Read counts fit `int32`, seek offsets fit `int32`, pread offsets are at least 0
  (`Protocol.Fits`). What a server does outside these bounds, and exactly when it is still right, is
  stated by `CacheGuarantees.PreadServedIff` and `CacheGuarantees.ReadServedIff` for every count and
  offset, and by `CacheGuarantees.SeekServedIff` for every offset.
* Accesses to the maps are atomic: the code reads `path_cache_map` in a handler while the mover
  writes it without a common lock.
* Addresses are shorter than PATH_MAX and the ports file grows by whole records.

History variables (completed calls, enqueued paths, owners of descriptors) are fields named `hist`;
no step is enabled or steered by them.

## Where the code differs from what it says

* A pread at offset -1 is taken for a sequential read and moves the server's offset, where POSIX
  refuses it; other negative offsets end the server (`PreadServedIff`, `PreadAtMinusOne`).
* A count has 32 bits on the wire: 2^31 turns negative and ends the server, 2^32 reads nothing
  (`PreadServedIff`, `ReadServedIff`, `PreadTwoGiB`).
* A seek reply has 32 bits, so a result of 2^31 or more comes back wrong (`SeekServedIff`,
  `SeekPastTwoGiB`).
* The capacity tests of the policy add in 64 bits: a sum that wraps always passes (`AddSoundIff`,
  `MoveSoundIff`), and then `cache_policy_evict_if_needed` can lock its own mutex twice
  (`WrapHangs`). Otherwise it never evicts (`FromEmpty`).
* `src/hvac_cache_policy.h:126` speaks of moving a victim to SSD; the code removes its entry, and so
  does the model.

## Model

| member | source | states |
|---|---|---|
| Guarantees.Transparency | src/wrappers.c:104-395 | in every reachable state, each client's completed opens, closes, reads and preads carry the results a process with private uncached files gets, and its seeks those results cut to the reply's 32 bits |
| Guarantees.OpenIsExact | src/wrappers.c:104-150 | a completed open returned its descriptor, which was free, on an existing file at offset 0 |
| Guarantees.CloseIsExact | src/wrappers.c:248-272 | a completed close returned 0 and closed exactly its descriptor, or -1 if it was not open |
| Guarantees.ReadIsExact | src/wrappers.c:290-312 | a completed read returned exactly the bytes the original holds from the private offset on, as many as asked for or up to the end, and moved the offset behind them |
| Guarantees.PreadIsExact | src/wrappers.c:331-352 | a completed pread returned exactly the bytes, and the count, the original holds at its offset, remote or local, original or copy, and moved no offset |
| Guarantees.SeekIsExact | src/hvac_comm.cpp:453-465 | a completed seek went to its offset counted from start, current offset or end, and returned that place exactly if it is below 2^31, otherwise the place cut to 32 bits; a negative or too large place was refused with -1 |
| Guarantees.ReadsStream | src/hvac_client.cpp:151-168 | successive reads of a descriptor return, joined, the contiguous part of the file from the offset on, as many bytes as they asked for together or up to the end, and the offset ends behind it, preads and other descriptors notwithstanding |
| Guarantees.OneHolder | src/hvac_comm_client.cpp:94-117 | a server descriptor is open exactly if it is in an open reply in flight, an fd_redir_map entry or a close in flight, and in only one of them, once |
| Guarantees.LateClose | src/hvac_comm_client.cpp:203-227 | a close, however late, finds its descriptor open and in no one else's hands, and closes nothing else |
| Guarantees.NoServerHalts | src/hvac_comm.cpp:426-433 | in no run does a close fail its assert or a read get a negative count or result: every request names an open descriptor |
| Guarantees.Routing | src/hvac_client.cpp:127-216 | a tracked descriptor's entry is open, on its path, at server hash(path) mod the server count, and read and seek requests go there and name it |
| Guarantees.CloseRouting | src/hvac_client.cpp:211-216 | a close of a tracked descriptor sends one request, to server hash(path) mod the server count, which has the client's descriptor open on that path, and names it |
| Guarantees.Rendezvous | src/hvac_comm_client.cpp:167-200 | done is 0 or 1; a waiting client has exactly one message in flight and cannot sleep through its callback; a client that may return has its own call's POSIX result in place |
| Calls.OpenStarts | src/hvac_client.cpp:79-141 | any open of an existing file may happen; an accepted one tracks the descriptor, sends one open request to server hash(path) mod the server count and waits; a refused one is done at once, sends nothing and tracks nothing |
| Calls.TransferStarts | src/hvac_client.cpp:151-190 | a read of a tracked descriptor and a pread of one whose server descriptor is not 0 send one read request, to the right server with the right descriptor, count and offset, and wait; all others send nothing and are done at once |
| Calls.SeekStarts | src/hvac_client.cpp:192-209 | a remote seek of a tracked descriptor sends one seek request to its server and waits |
| Calls.CloseStarts | src/wrappers.c:248-272 | a close never waits, forgets the descriptor in all tables, and sends one close request exactly if it was tracked |
| Calls.InFlight | src/hvac_comm_client.cpp:229-354 | every message in flight for a client belongs to the call it is waiting in and goes to or comes from the server of that call's path |
| Calls.OpenDelivered | src/hvac_comm.cpp:394-422 | an open request can be delivered with any free descriptor and is answered with it, open on the original at offset 0 |
| Calls.ReadDelivered | src/hvac_comm.cpp:332-380 | a read request makes the server push exactly the original's bytes at the descriptor's or the request's own offset, and moves only the former |
| Calls.SeekDelivered | src/hvac_comm.cpp:453-465 | a seek request moves the descriptor to the place asked for, and is answered with it below 2^31 or -1 if refused |
| Calls.TransferDelivered | src/hvac_comm.cpp:305-318 | the transfer fills the start of the client's buffer and the response carries its size |
| Calls.ReplyDelivered | src/hvac_comm_client.cpp:60-151 | a response can always be delivered; it records the server's descriptor or the result, sets done to 1 and wakes the client |
| Calls.CallReturns | src/wrappers.c:290-352 | an answered call can return, with its descriptor, or the result and that many bytes of the buffer, and is logged |
| Progress.CallCanComplete | src/hvac_comm_client.cpp:167-200 | no reachable state is a dead end: from each in which a client is inside a call there is a run in which that call returns |
| Progress.TrackedReadHappens | src/hvac_client.cpp:127-168 | in every configuration, states are reachable in which a tracked open has completed and its remote read request is in flight to the right server, and in which both have completed |
| Progress.Sample | src/hvac_client.cpp:127-168 | one such state, with two servers of which the second serves the file |
| Progress.ServerMay | src/hvac_data_mover.cpp:35-80 | spurious wake-ups, exceptions, chunks of any size and directories of any name are possible whenever the code leaves them so; the mutex is the only thing handler and mover wait for |
| Progress.ClientMay | src/hvac_comm_client.cpp:167-200 | a client may sleep exactly while done is 0 and return exactly when it is 1 |
| ProtocolSafety.StepKeeps | src/hvac_comm.cpp:144-159 | every step of a client, server, mover or the network keeps the system invariant |
| ProtocolSafety.RunKeeps | src/hvac_comm.cpp:144-159 | so does every run |
| CachingServer.OpenKeeps | src/hvac_comm.cpp:394-422 | an open, redirected or not, gives a descriptor on the original at offset 0 and keeps the server invariant |
| CachingServer.ReadKeeps | src/hvac_comm.cpp:332-380 | a read or pread request returns what the original would give and moves only that offset as POSIX says |
| CachingServer.SeekKeeps | src/hvac_comm.cpp:453-465 | a seek request moves the offset as on the original; the reply is the result cut to 32 bits |
| CachingServer.CloseKeeps | src/hvac_comm.cpp:426-441 | a close removes exactly that descriptor |
| CachingServer.HandlerKeeps | src/hvac_comm.cpp:439-449 | lock, signal, push, unlock and erase keep the invariant and are invisible to open descriptors |
| CachingServer.MoverKeeps | src/hvac_data_mover.cpp:35-81 | no mover step, half-finished copies and exceptions included, changes what any open descriptor reads |
| CacheGuarantees.PublishedIsComplete | src/hvac_data_mover.cpp:48-80 | every published copy equals its original and is not being written |
| CacheGuarantees.SingleHop | src/hvac_comm.cpp:401-417 | keys and values of path_cache_map are disjoint, no copy is ever queued, fd_to_path lists exactly the open descriptors with their original paths |
| CacheGuarantees.OneFifo | src/hvac_data_mover.cpp:39-80 | processed, then local_list, then data_queue is the sequence enqueued, which is every close that missed the cache, in order |
| CacheGuarantees.WokenFindsWork | src/hvac_comm.cpp:439-446 | though the handler signals before pushing, a mover woken by it finds the queue non-empty; the mutex excludes the two threads |
| CacheGuarantees.RunLater | src/hvac_comm.cpp:439-446 | along every run path_cache_map only grows and no close handled after its path was published misses the cache |
| CacheGuarantees.BoundedCopies | src/hvac_data_mover.cpp:64-71 | copies ever begun of a path are at most the closes of it handled before its first publication |
| Interleaving.LaterOpens | src/hvac_comm.cpp:401-417 | every open of a path delivered any time after it was published, in any run, opens a finished copy of it at offset 0 |
| Interleaving.LaterCloses | src/hvac_comm.cpp:439-449 | every close of a published path delivered any time later is done at once and enqueues nothing |
| Interleaving.WholeClose | src/hvac_comm.cpp:426-450 | from its delivery to its end, with any steps of the mover and everybody else in between, a close forgets exactly its descriptor and enqueues its path exactly if the path was not published when it looked |
| Interleaving.EveryWakeCycle | src/hvac_data_mover.cpp:35-80 | in every run, when a mover that was draining is at rest again, every path enqueued when it was draining has been processed in order, and if no copy threw, each that was not processed yet has a finished copy published |
| Interleaving.CycleEnds | src/hvac_data_mover.cpp:40-80 | however a run interleaves, the mover takes no more steps in a wake cycle than a number fixed by the queued paths and their bytes |
| Interleaving.NeverStuck | src/hvac_data_mover.cpp:40-80 | a mover at work always has a next step, and one that is no exception unless the target of its copy exists already |
| CacheGuarantees.PreadServedIff | src/hvac_comm.cpp:345-365 | a pread of any count and offset, the count cut to its 32-bit field, is answered with exactly the file's bytes if and only if the offset is not negative and the cut count is not negative and either is the count or reaches the end of the file |
| CacheGuarantees.ReadServedIff | src/hvac_comm.cpp:345-361 | so for a sequential read, from the offset its descriptor has |
| CacheGuarantees.PreadTwoGiB | src/hvac_comm.h:33-34 | a concrete pread of 2^31 bytes that ends the server, and one of 2^32 that returns nothing, where POSIX delivers a byte |
| CacheGuarantees.PreadAtMinusOne | src/hvac_comm.cpp:358-365 | a concrete pread at -1 that returns data |
| CacheGuarantees.SeekServedIff | src/hvac_comm.cpp:460-462 | a seek goes to its offset counted from start, current offset or end, if that is a legal place, and the reply is right if and only if the place is below 2^31 or so large that the seek is refused |
| CacheGuarantees.SeekPastTwoGiB | src/hvac_comm.h:37-43 | a concrete seek whose reply is negative |
| ServerProcess.WakeCycle | src/hvac_data_mover.cpp:36-80 | an uninterrupted wake cycle processes everything queued, leftovers included, in order, and leaves nothing; without faults all of it is published |
| ServerProcess.MoveAllIs | src/hvac_data_mover.cpp:48-80 | the copy loop empties local_list in order, unpublishes nothing, publishes only its paths, and all of them if directories are fresh and no copy throws |
| ServerProcess.MoveOneIs | src/hvac_data_mover.cpp:50-79 | one turn publishes the front path exactly if fs::copy succeeds, never overwrites a file, and pops the path either way |
| ServerProcess.TargetIs | src/hvac_data_mover.cpp:57-58 | the copy lies in the new directory under the part of the path after its last slash, or all of it |
| ServerProcess.TakeAllIs | src/hvac_data_mover.cpp:40-43 | the drain loop appends the whole of data_queue to local_list in order |
| ServerProcess.CloseWholeIs | src/hvac_comm.cpp:426-450 | an uninterrupted close of an open descriptor enqueues its path exactly if uncached, wakes a waiting mover, and forgets the descriptor |
| ServerProcess.Process.OpenHandler | src/hvac_comm.cpp:394-422 | the handler's code is the open step |
| ServerProcess.Process.ReadHandler | src/hvac_comm.cpp:332-380 | the handler's code is the read step, negative counts included |
| ServerProcess.Process.SeekHandler | src/hvac_comm.cpp:453-465 | the handler's code is the seek step |
| ServerProcess.Process.CloseHandler | src/hvac_comm.cpp:426-450 | the handler's code is the close steps in a row, or those up to the lock when the mover has the mutex |
| ServerProcess.Process.CloseLocked | src/hvac_comm.cpp:441-449 | once it has the mutex, the rest of the handler is the last four close steps |
| ServerProcess.Process.DrainQueue | src/hvac_data_mover.cpp:40-45 | the loop empties data_queue into local_list and releases the mutex |
| ServerProcess.Process.FsCopy | src/hvac_data_mover.cpp:64-64 | a copy refuses an existing target, otherwise writes the whole file, or throws with nothing or a prefix written |
| ServerProcess.Process.MoveLocalList | src/hvac_data_mover.cpp:48-80 | the copy loop's code is the mover steps turn by turn, and it ends |
| ClientProcess.Process.OpenWrapper | src/hvac_client.cpp:126-141 | open and track: tables and request of the open step |
| ClientProcess.Process.OpenCallback | src/hvac_comm_client.cpp:94-117 | records the server's descriptor and signals |
| ClientProcess.Process.GenReadRpc | src/hvac_comm_client.cpp:271-322 | resets the rendezvous and sends the translated descriptor |
| ClientProcess.Process.ReadWrapper | src/wrappers.c:290-312 | a tracked read is remote, any other local |
| ClientProcess.Process.PreadWrapper | src/wrappers.c:331-352 | a tracked pread is remote unless the server's descriptor is 0 |
| ClientProcess.Process.GenSeekRpc | src/hvac_comm_client.cpp:324-354 | resets the rendezvous and sends the seek |
| ClientProcess.Process.ResultCallback | src/hvac_comm_client.cpp:60-79 | stores the result and signals |
| ClientProcess.Process.AfterBlock | src/wrappers.c:302-312 | the wrapper's result once woken, with the local fallback on -1 |
| ClientProcess.Process.CloseWrapper | src/wrappers.c:248-272 | sends the close of a tracked descriptor, erases both entries and closes locally |
| Posix.ToInt32 | src/hvac_comm.h:33-43 | a value survives a 32-bit wire field exactly if it fits |
| Posix.OpenIs | src/hvac_comm.cpp:416-416 | open gives its descriptor, at offset 0 |
| Posix.CloseIs | src/hvac_comm.cpp:432-433 | close closes exactly its descriptor, or fails if it is not open |
| Posix.ReadIs | src/hvac_comm.cpp:358-361 | read gives the bytes from the offset to the end, at most count, and moves the offset behind them |
| Posix.PreadIs | src/hvac_comm.cpp:362-365 | pread gives the bytes from its own offset and moves nothing |
| Posix.SeekIs | src/hvac_comm.cpp:460-460 | lseek goes to the place counted from start, current offset or end unless it is negative or too large |
| Posix.ReadsAreContiguous | src/hvac_comm.cpp:358-365 | in a legal history reads join to the part of the file from the offset on, of the length asked for or up to the end; preads and other descriptors do not move the offset |
| CachePolicy.RunCongruent | src/hvac_cache_policy.cpp:48-260 | after any operations whatever the counters equal the true sums of sizes modulo 2^64 |
| CachePolicy.RunSound | src/hvac_cache_policy.cpp:48-260 | if sizes leave room under 2^64 the counters are the true sums and within capacity, in every run, and no file is larger than its tier's counter, so no subtraction goes below zero |
| CachePolicy.FromEmpty | src/hvac_cache_policy.cpp:268-291 | then eviction returns at once, changes nothing, and never locks its mutex twice |
| CachePolicy.WrapHangs | src/hvac_cache_policy.cpp:66-69 | a concrete run where a wrapped sum passes the capacity test and eviction hangs |
| CachePolicy.AddSoundIff | src/hvac_cache_policy.cpp:48-84 | adding keeps the accounts right if and only if the compared sums do not wrap |
| CachePolicy.MoveSoundIff | src/hvac_cache_policy.cpp:108-158 | so for moving between tiers |
| CachePolicy.MoveConserves | src/hvac_cache_policy.cpp:108-158 | a move keeps the files, their sizes and the bytes of both tiers together |
| CachePolicy.OneVictim | src/hvac_cache_policy.cpp:213-234 | the selection is determined: fewest accesses, then smallest path |
| CachePolicy.Cache.SelectVictim | src/hvac_cache_policy.cpp:213-234 | the scan returns the closed PM file with fewest accesses and then smallest path, or the empty string exactly if there is none but perhaps one of that name, and writes nothing |
| CachePolicy.Cache.AddFile | src/hvac_cache_policy.cpp:48-84 | the whole new state |
| CachePolicy.Cache.UpdateAccess | src/hvac_cache_policy.cpp:88-99 | the whole new state |
| CachePolicy.Cache.UpdateTier | src/hvac_cache_policy.cpp:108-158 | the whole new state, or the exit when SSD has no room |
| CachePolicy.Cache.SetOpen | src/hvac_cache_policy.cpp:164-182 | the whole new state, or the exit for an unknown file |
| CachePolicy.Cache.GetTier | src/hvac_cache_policy.cpp:187-198 | the file's tier, or unknown |
| CachePolicy.Cache.RemoveFile | src/hvac_cache_policy.cpp:241-260 | the whole new state, or the exit for an unknown file |
| CachePolicy.Cache.EvictIfNeeded | src/hvac_cache_policy.cpp:268-291 | returns 0 unchanged while PM is within capacity, otherwise hangs |
| CacheEntries.AddedFile | src/hvac_cache_policy.cpp:48-84 | a new file goes to PM if it fits, else to SSD if it fits, else nowhere; it is entered open, with its size and no accesses; all other entries stay and a known file changes nothing |
| CacheEntries.MovedFile | src/hvac_cache_policy.cpp:108-158 | a move changes at most the tier of its file, exactly when the other tier has room |
| CacheEntries.ExitsExactly | src/hvac_cache_policy.cpp:108-291 | which operations end the process, and which hangs, in exactly which states |
| CacheEntries.OthersStay | src/hvac_cache_policy.cpp:48-260 | no operation touches the entry of a file it does not name |
| CacheEntries.EntryHistory | src/hvac_cache_policy.cpp:88-182 | over any run, an entry keeps its size, its count is the number of its accesses modulo 2^64, it is open as the last change of its flag says, and only its own moves change its tier |
| CacheEntries.OpenIsSafe | src/hvac_cache_policy.cpp:56-234 | a file is never selected in any run from its admission until it is closed |
| CacheEntries.LessIff | src/hvac_cache_policy.cpp:213-234 | the scan order of paths is the lexicographic one |
| Eviction.EvictionEnds | src/hvac_cache_policy.cpp:211-234 | repeated selection and removal ends from any state |
| Eviction.OneEviction | src/hvac_cache_policy.cpp:211-234 | and can go only one way |
| Eviction.EvictionIs | src/hvac_cache_policy.cpp:213-260 | it evicts exactly the closed PM files, once each, by access count and path, and leaves all others as they were |
| Eviction.EvictionFrees | src/hvac_cache_policy.cpp:241-260 | it frees exactly their sizes in PM and nothing on SSD |
| PortsFile.ScanPrintedInt | src/hvac_comm.cpp:234-234 | a printed rank, negative included, scans back |
| PortsFile.RoundTrip | src/hvac_comm_client.cpp:382-389 | the scan loop over printed records yields exactly those records |
| PortsFile.DecimalIs | src/hvac_comm.cpp:234-234 | what is printed for a rank is its decimal numeral without leading zeros |
| PortsFile.RecordIs | src/hvac_comm.cpp:234-234 | a printed record is sign and numeral, a space, the address and a line end |
| PortsFile.ScanIs | src/hvac_comm_client.cpp:382-382 | any line of the format is scanned to its rank and word, however it is spaced, signed or padded with zeros |
| AddressBook.MemoIsInvisible | src/hvac_comm_client.cpp:360-398 | after any appends and lookups a lookup answers what a fresh scan finds, and a miss is not remembered |
| AddressBook.FirstPostWins | src/hvac_comm.cpp:219-241 | the first record of a rank is its answer for good |
| AddressBook.FirstIs | src/hvac_comm_client.cpp:382-389 | the answer is the address of the earliest record of the rank, and there is none exactly if no record has the rank |
| AddressBook.HitIsMemoised | src/hvac_comm_client.cpp:363-393 | a successful lookup is remembered for good and answers without the file; the file and the other entries are untouched |
| AddressBook.AddressCache.LookupAddr | src/hvac_comm_client.cpp:360-398 | the loop returns the first record of the rank and memoises it |

## Left out

- Mercury itself: handles, bulk registration, addresses as objects, initialisation and RDMA; only
  send, deliver and respond are modelled.
- Failing server opens and reads: they abort the server or leave the protocol.
- Guarantees.NoServerHalts: models as a halt a failed close, a negative read result and a negative
  count; the asserts on decoding, allocating, creating the bulk handle and starting the transfer
  depend on Mercury and on memory and are not modelled.
- Draining of data_queue in the long run: the mover waits without a predicate
  (src/hvac_data_mover.cpp:37), so a signal sent while it copies is lost; the claims are per wake-up.
- Several application threads sharing one client's rendezvous variables; the code serves one caller.
- Guarantees.Rendezvous: the wait loops of the block functions are the Sleep, Wake and Return steps
  of the transition system, not a loop in a method, because other threads act between iterations.
- Application lseek: the wrappers are commented out (src/wrappers.c:429-450), so an lseek on a
  tracked descriptor moves only the local offset; seeks are modelled through hvac_remote_lseek.
- The path test of hvac_track_file (src/hvac_client.cpp:79-123): its outcome is a label of the open
  step, and paths are canonical.
- Whence values other than SEEK_SET, SEEK_CUR and SEEK_END.
- The printing in the mover's catch block (src/hvac_data_mover.cpp:75-76).
- Eviction.EvictionEnds: the loop exists only as a comment (src/hvac_cache_policy.cpp:211), so it is
  stated as a relation on states and not as a method.
- cache_policy_init and cache_policy_get_usage_bytes: environment parsing and two assignments.
- src/hvac_multi_source_read.cpp: not built.
- Logging, timing statistics, server start-up and everything under tests/.
