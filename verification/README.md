# A model of p2pcp's transfer protocol

p2pcp copies a set of files to many nodes. It cuts the files into chunks, lets several downloaders on a
node race for the chunks, and lets every node serve the chunks that it has finished. This project models
that in Dafny, from the chunk planner up to a swarm of nodes, and proves that a node which says
"completed" holds the source's bytes, that it says so neither early nor never, and how exactly the
weaker parts of the code (file callbacks, delta polling) behave.

`dafny verify dfyconfig.toml` checks everything.

## How the model is laid out

| files | what they model |
|---|---|
| `Names`, `Planning`, `Plans`, `PlanBounds` | the in-place sort and `BuildChunks`, over an array, against a declarative greedy plan; that plan is unique, splits the files, and has a known size |
| `Manifests` | building, sending and checking a manifest |
| `Storing`, `ChunkReading`, `ChunkWriting`, `Reassembly` | the stores, the chunk reader, `WriteChunk`, the checksum cache, and chunks written in any order |
| `Options`, `Queues`, `LocalDownloads`, `PeerLists`, `PeerControl` | the work queue, the two kinds of downloader, and the controller that starts and stops them |
| `Nodes`, `NodeInvariants`, `NodeSteps`, `Transfers` | one node as a small-step machine: each step is one atomic operation of one goroutine; the steps of a transfer, among those of everybody else, refine `WriteChunk` |
| `Swarms`, `SwarmSafety`, `SwarmResults` | many nodes that fetch from sources and from each other, and what holds in every state of every run |
| `Caching`, `Delivery` | what the checksum cache holds; that a finished chunk is listed, sent and can be had by any other node; what else the world may do |
| `Callbacks`, `CallbackResults` | the per-file counters and callbacks over every run |
| `Scenarios` | two concrete runs: a callback that is too early, and a chunk that is claimed without a free worker |
| `Delta` | polling by timestamp, over every run |
| `Weights`, `Liveness`, `LiveCompletion`, `LiveTermination`, `LiveFairness` | the work that is left, why it can always be done, and why a fair scheduler gets it done |
| `Turns`, `Leaving`, `Returning` | when a goroutine can act; why a cancelled or invalid downloader comes to its end; the order of its queue |

The planner, the reader, the writer, the queues and the controller change things in place and are classes
and methods here. The download protocol is concurrent, so `Nodes` is a transition system: pop, read the
status, compare-and-swap, hand over to a worker, stop counting as ready, receive some bytes, end a range,
compare the checksum, fail, store Done or Pending, push back, add to the counter, load and compare it,
cancel and complete are separate steps, and any goroutine of any downloader of any node may take the next
one. Fields called history variables record what happened; no step depends on them.

A run (`Swarms.Run`) starts from fresh nodes with any old bytes in their destinations and makes any
number of moves. Downloads may stop after any byte, peers may disappear, anybody may cancel at any time.
The main results are about every state of every run.

Assumptions, stated once in `Swarms.Trusted`: the plan splits the files (a plan made by `BuildChunks`
does), all sources of a run hold the same bytes and do not change, and bytes can arrive corrupted only
when transfers are verified; then the hash has no collisions and no chunk has the digest 0. File names
of a manifest are distinct. The last condition on digests is needed: `ChunkWriting.VerificationIsSoundIff`
shows that verification is sound exactly when the digest is not 0.

## Where the code is weaker than one might think

* A file's callback can run before the file is complete. `Scenarios.CallbackCanBeEarly` is a run of
  one node with one worker on a plan of two chunks: an attempt that breaks off after finishing a range is
  counted again when it is repeated. `CallbackResults.CallbackIsInTimeIff` gives the exact condition, and
  in runs in which no attempt fails after finishing a range the callback is right.
* Delta polling can skip a chunk until the peer is completed, because the stamp is taken before status
  and stamp are stored. `Delta.DeltaCanMissAChunk` is such a run, `Delta.MarkedIff` says exactly which
  chunks are skipped, and `Delta.AtomicDeltaIsFull` shows that nothing is skipped if stamp and status
  were stored in one step.
* A digest that happens to be 0 switches the checksum test off.
* The dispatcher reads the ready counter between a worker's receive and its subtraction, so it can claim a
  chunk for which no worker is free and keep it from the other downloaders:
  `Scenarios.ClaimCanWaitForAWorker`.
* The planner's 64-bit sum and 32-bit counter can wrap around. For files of any size `BuildChunks` covers
  every byte once, and a counter is the number of ranges modulo 2^32; the byte cap is kept if no file is
  larger than 2^63 less the chunk size. `PlanBounds` shows that this is exactly the size up to which the
  sum is right for every fill of the open chunk, and up to which size the counter is.

## Model

| member | source | states |
|---|---|---|
| Names.LessIff | src/types/chunk.go:41-43 | One name is less than another if and only if it is a proper prefix of it, or smaller at the first byte at which they differ. |
| Names.LessIsTotal | src/types/chunk.go:41-43 | Of two names exactly one is less, unless they are equal. |
| Names.LessIsTransitive | src/types/chunk.go:41-43 | The order of names is transitive, so it sorts. |
| Names.SortByName | src/types/chunk.go:41-43 | Sorts the file array in place by name and loses no entry. |
| Names.SortedIsUnique | src/types/chunk.go:41-43 | With distinct names there is one sorted order, whatever order the files came in. |
| Planning.IncrementRemainingChunkCount | src/types/entry.go:62-64 | Counts one range of one file, in a 32-bit counter that may wrap around. |
| Planning.Int64Iff | src/types/chunk.go:66 | The wrapped 64-bit sum is the one number in range that differs from the sum by a multiple of 2^64. |
| Planning.Int32Iff | src/types/entry.go:62-64 | The same for the 32-bit counter. |
| Planning.AddFile | src/types/chunk.go:61-86 | The inner loop, for all int64 sizes: appends all bytes of one file to the chunks and counts the file's ranges in 32 bits; if no sum wraps around, a chunk is closed exactly when one of the two caps is reached. |
| Planning.BuildChunks | src/types/chunk.go:35-94 | Sorts the files in place; for all int64 sizes the chunks hold every byte of every file once, in file order, in non-empty ranges, at most one of a file in a chunk, within the range cap, and each counter is its file's number of ranges in 32 bits. If no size exceeds 2^63 - chunkSize it is the greedy plan: within the byte cap too, and every chunk but the last full or at the range cap. |
| Plans.GreedyPlanIsUnique | src/types/chunk.go:58-91 | There is one greedy plan of given sizes and caps. |
| Plans.FileAddrsInOrder | src/types/chunk.go:58-91 | The byte order that a plan follows: every byte of the files, by file, and within a file from its start to its end. |
| Plans.TilingIsPartition | src/types/chunk.go:58-91 | Chunks are disjoint, hold no byte twice, and together hold exactly the bytes of the files. |
| PlanBounds.ChunkCountBound | src/types/chunk.go:58-91 | There are at most total/chunkSize + files/maxFiles + 1 chunks. |
| PlanBounds.RangesOfFile | src/types/chunk.go:61-86 | A file of size s that starts at fill c of the open chunk gets exactly ceil((c + s) / chunkSize) ranges. |
| PlanBounds.SumIsExactIff | src/types/chunk.go:66 | The int64 sum is exact for every fill if and only if the size is at most 2^63 - chunkSize. |
| PlanBounds.CounterIsExactIff | src/types/entry.go:62-64 | The int32 counter holds the range count for every fill if and only if the size is at most (2^31 - 2) * chunkSize + 1. |
| Manifests.Manifest.GetManifestFromStorage | src/transfer/manifest.go:122-152 | For a directory walk with any int64 sizes: the directories, symlinks and empty files are exactly the walked ones in walk order, every walked file is listed as often as it was met, and file list, plan, counters, checksum and chunk count belong together. |
| Manifests.CollectKeeps | src/transfer/manifest.go:122-140 | Sorting the walk into lists loses, doubles and moves nothing. |
| Manifests.Manifest.Rebuild | src/transfer/manifest.go:142 | Sorts and cuts the manifest's own files. |
| Manifests.Manifest.GetManifestFromPeer | src/transfer/manifest.go:74-120 | Accepts a received manifest if and only if version, chunk size, checksum and chunk count agree, the last two with the rebuilt plan, and otherwise reports the first of them that differs; a rejected manifest changes nothing. |
| Manifests.PlanAgreement | src/transfer/manifest.go:142-149 | For distinct names every permutation of the files leads to the same order, and, if no sum wraps around, to the same plan. |
| Manifests.Handshake | src/transfer/manifest.go:74-152 | From one node's directory walk over the wire to another node with the same version, chunk size and files per chunk: the manifest is accepted, both nodes have the same lists, file order, chunks and counters, and the receiver's lists are exactly what the sender's walk has met. |
| Manifests.HandshakeIsSound | src/transfer/manifest.go:89-110 | Without hash collisions a sent manifest is accepted if and only if version and chunk size agree and the node's own plan is the sender's. |
| Storing.Storage.Write | src/storage/local_storage.go:165-185 | Stores the next bytes of the stream at the range's addresses; a stream that ends early leaves what arrived, and an error. |
| Storing.ReadBack | src/storage/local_storage.go:165-208 | What is written at distinct addresses can be read back, and nothing else changes. |
| ChunkReading.RangeReader.Read | src/storage/local_storage.go:187-208 | A range reader returns any non-empty prefix of what is left, and its end after the last byte. |
| ChunkReading.ChunkReadCloser.Read | src/transfer/chunk_reader.go:31-58 | Hands over the chunk's next bytes and loses none; EOF exactly when nothing is left; no empty read without error right after opening, so never two in a row; at most one range reader open. |
| ChunkReading.ChunkReadCloser.OpenRange | src/transfer/chunk_reader.go:32-45 | Opening the next range neither skips nor repeats bytes. |
| ChunkReading.ChunkReadCloser.ReadRange | src/transfer/chunk_reader.go:47-58 | Reading from the open range closes it at its end and moves on to the next. |
| ChunkReading.ChunkReadCloser.Close | src/transfer/chunk_reader.go:60-69 | No range reader is open afterwards. |
| ChunkReading.Size | src/types/chunk.go:100-106 | The Content-Length (section 8.6 of RFC 9110) is the number of bytes of the chunk. |
| ChunkReading.Copy | src/http_server.go:278-281 | Any buffer sizes and any short reads: reading ends, without an error with exactly the chunk's bytes, with one with a prefix. |
| ChunkWriting.ChunkManager.WriteChunk | src/transfer/chunk_manager.go:58-87 | The arrived bytes lie at the chunk's addresses in order and nothing else changes; every filled range is counted; success if and only if all bytes arrived and the checksum is right or not asked for. |
| ChunkWriting.VerificationIsSoundIff | src/transfer/chunk_manager.go:62-84 | The checksum test lets only the source's bytes through if and only if their digest is not 0. |
| Reassembly.ChunkSurvives | src/transfer/chunk_manager.go:58-87 | Whatever is written into other chunks later, a chunk keeps the bytes of its last attempt. |
| Reassembly.AnyOrderReassembles | src/transfer/chunk_manager.go:58-87 | Chunks in any order, failed attempts leaving any prefix of any bytes: once each chunk's last attempt was complete, every file equals its source. |
| Reassembly.ChecksumCache.ComputeChunkChecksum | src/transfer/chunk_manager.go:93-128 | Returns the hash of the chunk's bytes, cached or not, and keeps every cache entry empty or right. |
| Reassembly.ChecksumCache.SetChunkChecksum | src/transfer/chunk_manager.go:134-136 | Stores one entry and leaves the others. |
| Reassembly.TransferChunk | src/downloader.go:236-253 | A local transfer writes a prefix of the source's bytes of the chunk, and all of them when it succeeds; the ranges that these bytes fill are counted, the digest is cached when it was asked for; it succeeds when the file system does. |
| Queues.ChunkQueue.PushBack | src/transfer/chunk_queue.go:25-30 | Appends one index. |
| Queues.ChunkQueue.PushShuffledList | src/transfer/chunk_queue.go:32-41 | Shuffles the list in place and appends it: no index lost or doubled. |
| Queues.ChunkQueue.PushShuffle | src/transfer/chunk_queue.go:43-52 | Adds one index at a random place: no index lost or doubled. |
| Queues.ChunkQueue.Pop | src/transfer/chunk_queue.go:54-65 | Takes the first index, or reports an empty queue. |
| Queues.Shuffle | src/transfer/chunk_queue.go:36-38 | Every random source gives a permutation. |
| LocalDownloads.NewLocalDownloader | src/local_downloader.go:20-34 | The local downloader's queue starts with every chunk exactly once. |
| PeerLists.PeerDownloader.MarkChunkAsReady | src/peer_downloader.go:237-244 | Reports a chunk as new exactly the first time, and the count equals the number of marks. |
| PeerLists.PeerDownloader.MarkAll | src/peer_downloader.go:219-224 | A complete answer marks every chunk and lists exactly the new ones. |
| PeerLists.PeerDownloader.MarkListed | src/peer_downloader.go:225-231 | A partial answer marks the listed chunks and lists exactly the new ones. |
| PeerLists.PeerDownloader.UpdatePeerAvailableList | src/peer_downloader.go:199-235 | A delivered answer of a completed peer enqueues every chunk, another one those it lists, each unless it was enqueued before; a lost one changes nothing. |
| PeerLists.PeerDownloader.CompleteIff | src/peer_downloader.go:108-112 | The count reaches the chunk count if and only if every chunk has been enqueued. |
| PeerLists.PeerDownloader.Tick | src/peer_downloader.go:67-113 | One tick, exactly: when the peer is found to be this node, to be another one, to have the same or another checksum; when it is polled and what is enqueued then; and when polling stops: on finding oneself, on a different checksum, or with every chunk known. |
| PeerLists.PeerDownloader.PollAll | src/peer_downloader.go:199-235 | Over any sequence of polls, some of them lost, each index enters the queue from polling at most once, none that was polled before, and exactly those that a delivered answer listed, or all if it was a completed peer's. |
| PeerControl.PeerDownloaders.Add | src/downloader.go:56-78 | Adds a host, or complains and changes nothing. |
| PeerControl.PeerDownloaders.Remove | src/downloader.go:80-95 | Removes a host, or complains and changes nothing. |
| PeerControl.Controller.RunCallbacks | src/peers/controller.go:81-109 | The callbacks of one reconciliation, in whatever order they run, add and remove exactly the hosts meant, and none complains. |
| PeerControl.Controller.StartMissing | src/peers/controller.go:77-90 | Starts the wanted hosts that do not run. |
| PeerControl.Controller.StopUndesired | src/peers/controller.go:92-107 | Stops the running hosts that are not wanted. |
| PeerControl.Controller.Reconcile | src/peers/controller.go:68-110 | Afterwards the controller's set, the downloader table and the desired hosts are equal; adds and removes of each host alternate and the complaints never occur. |
| PeerControl.Controller.StopAll | src/peers/controller.go:112-114 | Both sets are empty afterwards. |
| PeerControl.Controller.Run | src/peers/controller.go:39-59 | Over any sequence of lists and failed lookups: after each list exactly its hosts have been added and not removed again, a failed lookup adds and removes nothing, and at the end both sets are empty. |
| Caching.DoneIsCached | src/downloader.go:249-251 | With verification, the digest of every Done chunk of every node is in its cache. |
| Delivery.DoneAreListed | src/http_server.go:204-217 | In every state of every run, a peer's downloader can learn by its next poll of any chunks that are Done at the peer and unknown to it, whether or not the peer has completed. |
| Delivery.DoneIsSent | src/http_server.go:250-281 | A worker that requests a chunk which is Done at its peer can be answered, with the chunk's digest. |
| Delivery.ChunkCanBeFetched | src/downloader.go:56-78 | In every reachable state, any uncancelled node can get any chunk that is Done at any other node, by a bounded number of steps and without a source: start a downloader for that peer, poll it, download. |
| Delivery.FetchesByPeer | src/downloader.go:281-321 | The same with a downloader for that peer that is already running. |
| Delivery.AnyPieceArrives | src/transfer/chunk_manager.go:67-74 | The bytes of a chunk may arrive in pieces of any size, and with verification they may be any bytes. |
| Delivery.AnyAttemptCanFail | src/downloader.go:237-247 | A request, and a transfer before the end of any range, can fail at any time. |
| Delivery.DigestsCanBeCached | src/transfer/chunk_manager.go:93-128 | A node may compute and cache the digest of any chunk of its own source at any time. |
| NodeInvariants.NextKeepsInv | src/downloader.go:190-321 | Every atomic step of every goroutine, also with the dispatcher holding a claim while all workers are busy, keeps the node invariant: shape, one place for each queue entry, one owner for each Downloading chunk, and the completion counts. |
| NodeInvariants.ClaimKeeps | src/downloader.go:299-303 | A successful compare-and-swap makes the thread the chunk's only owner. |
| NodeInvariants.HandOverKeeps | src/downloader.go:229-231 | The channel moves the claim from the dispatcher to one worker. |
| NodeInvariants.ReleaseKeeps | src/downloader.go:256-274 | The unconditional stores of Done and Pending are safe, because only the owner makes them. |
| NodeInvariants.CountKeeps | src/downloader.go:201-203 | Counting an entry keeps the counter equal to the number of counted indices, all of them Done. |
| NodeInvariants.FullCountMeansAllDone | src/downloader.go:206-210 | A counter at the chunk count means that every chunk is Done. |
| Transfers.TransferIsWriteChunk | src/transfer/chunk_manager.go:67-80 | In every run and among any steps of others: the bytes at the chunk's addresses, the ranges that the attempt has logged and the counters are at each moment what the contract of `WriteChunk` says for the bytes arrived so far. |
| SwarmSafety.MoveKeepsSwarmInv | src/downloader.go:225-276 | Every move of any node keeps the invariant of the whole swarm: Done chunks, transfers under way and cached digests agree with the source, and peers serve what others know of them. |
| SwarmSafety.ReceiveHolds | src/transfer/chunk_manager.go:67-74 | Storing bytes for one transfer damages no Done chunk and no other transfer. |
| SwarmSafety.AcceptedHolds | src/transfer/chunk_manager.go:82-84 | What passes the checksum test, or needs none, is the source's chunk. |
| SwarmSafety.RunHolds | src/downloader.go:190-324 | The swarm invariant holds in every state of every run. |
| SwarmResults.PlansAreTrusted | src/types/chunk.go:35-94 | A plan made by `BuildChunks` meets the assumptions of the swarm results. |
| SwarmResults.ServedIsSource | src/http_server.go:219-281 | Whatever any node serves in any state of any run is the source's chunk, and the digest sent with it is the hash of those bytes. |
| SwarmResults.CompletedCopyIsExact | src/downloader.go:196-210 | In every state of every run, a completed node holds the source's byte at every position of every file. |
| SwarmResults.EnqueuedChunksAreServed | src/peer_downloader.go:218-232 | Every chunk that polling has ever enqueued is served by its peer, now and later. |
| SwarmResults.PeersAreAskedForServedChunks | src/http_server.go:251-256 | The answer "chunk not ready" is never given to a downloader. |
| SwarmResults.CacheIsOfSource | src/transfer/chunk_manager.go:93-136 | Every cache entry of every node is 0 or the hash of the chunk's source bytes. |
| SwarmResults.CompletionIsExact | src/downloader.go:201-211 | Completed only if cancelled and all chunks are Done; the counter never exceeds the chunk count and reaches it only when all are Done; at the full count with no `CompleteOne` under way the node is completed. |
| SwarmResults.EachIndexIsInOnePlace | src/downloader.go:296-316 | Every index a downloader knows is once in its queue, or in one goroutine's hand, or counted, and never in two of these. |
| SwarmResults.DownloadingMeansOneOwner | src/types/chunk.go:112-118 | A chunk is Downloading if and only if a goroutine has claimed it, and then only one of all downloaders has. |
| SwarmResults.DoneOnceAndForEver | src/downloader.go:256-257 | Done is never left, and a Done chunk has been completed exactly once. |
| SwarmResults.NothingIsLeftClaimed | src/downloader.go:213-218 | When a dispatcher has returned, its workers have too, and none of its claims is left. |
| Callbacks.AllFinishedIff | src/transfer/chunk_manager.go:76-79 | When as many range writes of a file have finished as it has ranges, all its ranges are written if and only if none was counted twice. |
| Callbacks.NextKeepsTally | src/transfer/chunk_manager.go:76-79 | Every step keeps each counter equal to ranges minus finished range writes. |
| Callbacks.NextKeepsCleanLog | src/transfer/chunk_manager.go:67-84 | If no attempt fails after finishing a range, the finished ranges are those of Done chunks and of attempts under way, each once. |
| CallbackResults.CounterIsExact | src/types/entry.go:66-68 | In every run, failed attempts included, each counter is ranges minus finished range writes, and the callback has run once if that many have finished, else never. |
| CallbackResults.CallbackIsInTimeIff | src/transfer/chunk_manager.go:76-79 | The step that runs a file's callback finds all its ranges written if and only if none of them was finished twice. |
| CallbackResults.CleanCallbackIsInTime | src/transfer/chunk_manager.go:67-84 | In a clean run every callback that has run came after all ranges of its file. |
| CallbackResults.CleanRunCallsBackOnce | src/transfer/chunk_manager.go:67-84 | In a clean run with all chunks Done, the callback of every non-empty file has run exactly once. |
| CallbackResults.CleanCallbackSeesTheFile | src/transfer/chunk_manager.go:67-84 | In a clean run without verification, a file whose callback has run equals its source. |
| Scenarios.ClaimCanWaitForAWorker | src/downloader.go:228-231 | A run in which the dispatcher, blocked in its send, holds a chunk while its only worker is busy with another. |
| Scenarios.CallbackCanBeEarly | src/transfer/chunk_manager.go:76-82 | A run on the greedy plan of two files in two chunks, one attempt broken off and repeated: the callback of a file has run while its other chunk is Pending. |
| Delta.GetStatusDoneChunks | src/transfer/chunk_manager.go:146-157 | An uninterrupted scan lists exactly the Done chunks stamped later than the request says, in order. |
| Delta.NextKeepsInv | src/http_server.go:201-217 | The polling invariant is kept by every step, with chunks finishing during a scan and answers lost. |
| Delta.MarkedIff | src/peer_downloader.go:216-232 | Only Done chunks are marked; a chunk stamped no later than the last delivered answer is marked if and only if no delivered scan passed it between its stamp and the store of the stamp. |
| Delta.LateStaysUnmarked | src/transfer/chunk_manager.go:167-170 | A chunk passed too early is never reported by a later delta answer. |
| Delta.OneCompleteAnswerSuffices | src/http_server.go:204-205 | One delivered answer of a completed peer marks every chunk, whatever was missed. |
| Delta.AtomicDeltaIsFull | src/transfer/chunk_manager.go:146-170 | With stamp and publication as one step, delta polling marks exactly what full polling would, and every chunk stamped no later than the last delivered answer. |
| Delta.DeltaCanMissAChunk | src/downloader.go:254-257 | A run in which a delivered poll misses a chunk whose stamp is older than the poll. |
| Weights.StepLowersRest | src/downloader.go:225-316 | Without a conflict, each step of a goroutine at work leaves less to do, queue entries included. |
| Liveness.WorkIsAllowed | src/downloader.go:236-253 | Whatever a goroutine has to do next, its peer or source lets it do. |
| Liveness.Drain | src/downloader.go:225-321 | From every reachable state, cancelled ones included, a bounded number of steps brings all goroutines of a node to rest. |
| Liveness.UnverifiedIsUntainted | src/transfer/chunk_manager.go:82-84 | Without verification no transfer under way holds wrong bytes, so that the continuation of `LiveCompletion.NoDeadState` has no failure at all. |
| LiveCompletion.QueueIsNotEmpty | src/downloader.go:291-320 | All goroutines at rest and the node not completed: a downloader that knows all chunks still has one queued. |
| LiveCompletion.Finish | src/downloader.go:281-321 | A downloader that works alone completes the node within a number of steps given by the work left. |
| LiveCompletion.NoDeadState | src/downloader.go:225-321 | From every reachable state in which a running, valid, uncancelled downloader knows all chunks, a continuation of bounded length completes the node, in which nothing fails but transfers that had received wrong bytes before. |
| LiveCompletion.GoalIsInReach | src/downloader.go:225-321 | The same for a downloader that knows one chunk and is to finish that one. |
| LiveCompletion.FreshNodeCompletes | src/downloader.go:125-135 | Every fresh node with a source has a run that completes it: start the local downloader, then continue as above. |
| LiveCompletion.NewcomerCompletes | src/downloader.go:56-78 | In every reachable state, an uncancelled node without any source can be completed if some other node is: start a downloader for that peer, poll it, continue as above. |
| LiveTermination.SpawnIsSole | src/local_downloader.go:20-34 | The local downloader starts knowing all chunks, with all its workers waiting, and with work bounded by the plan. |
| LiveTermination.NextCounts | src/downloader.go:225-321 | With a single local downloader, each step fails and puts one chunk back, or spins and changes nothing, or leaves less to do. |
| LiveTermination.WorkIsBounded | src/downloader.go:225-321 | Between two states of a run, the steps that do work are bounded by the work left and the number of failures. |
| LiveTermination.NothingLeftMeansCompleted | src/downloader.go:201-211 | When nothing is left to do, the node is completed. |
| LiveFairness.SpawnIsSteady | src/downloader.go:125-135 | Starting the local downloader of an uncancelled node meets what `FairRunsComplete` asks of its first state. |
| Turns.CanActIff | src/downloader.go:225-321 | A goroutine counts as able to act if and only if some step of it is possible in the swarm: only a send without a receiver, a receive without a sender and the wait for the workers block. |
| LiveFairness.NextIsSteady | src/downloader.go:190-321 | Unless somebody cancels or invalidates it or starts another, a single local downloader stays in its loop until the node is completed or about to be. |
| LiveFairness.TurnBringsOn | src/downloader.go:225-321 | A turn of a goroutine that can go on works, or fails an attempt, or brings the dispatcher nearer to its queue, which is then not empty. |
| LiveFairness.FairRunsComplete | src/downloader.go:225-321 | If every goroutine of a single local downloader that is able to act gets a turn in every window of moves, nobody interferes from outside and at most a given number of attempts fail, then the node is completed by a stated move. |
| Leaving.NextIsNearer | src/downloader.go:281-324 | Once a node is cancelled or a downloader invalid, every step of its goroutines, failing or not, brings it nearer to its end, and no step of others takes it away from there. |
| Returning.CanBeTold | src/downloader.go:283-289 | A node can be cancelled and a downloader invalidated in every state, and neither is ever taken back. |
| Returning.LeavingDownloaderReturns | src/downloader.go:281-324 | From every reachable state with the node cancelled or the downloader invalid, a number of its own steps, bounded by plan and workers, makes its dispatcher and workers return. |
| Returning.CancelledDownloadReturns | src/downloader.go:162 | From every reachable state of a cancelled node, a bounded number of steps makes all its downloaders return, so that the wait for them ends. |
| Returning.StepsAreNumbered | src/downloader.go:281-324 | In every run, fair or not, a leaving downloader takes at most so many more steps. |
| Returning.FairRunsReturn | src/downloader.go:281-324 | In every fair run a downloader whose node is cancelled, or that is invalid, has returned after a stated number of moves, whatever fails and whatever the others do. |
| Returning.CompletedIsLeaving | src/downloader.go:206-211 | Completion is one of the reasons to leave. |
| Returning.OnePopAtMost | src/downloader.go:283-297 | After its node was cancelled, or it became invalid, a dispatcher takes at most one more entry from its queue, and none if it had not yet passed its last look at the flag. |
| Returning.PoppedInTurn | src/transfer/chunk_queue.go:54-65 | The queue is first in, first out, over every run: an entry is taken when as many pops have gone before as there were entries before it. |

## Left out

- HTTP transport, discovery of peers by DNS, SRV record or URL, address normalisation and the registry: a request delivers, is lost, or stops after a prefix.
- Compression and the xxh3 algorithm: compression is the identity, the hash an abstract function.
- JSON: a manifest and an available list arrive as they were sent; range counters and statuses are not sent.
- The file system: a store is a map from file index and offset to a byte; names, permissions, symlinks, directories, errors of the directory walk, and `SetupTransfer`, `CompleteTransfer` and `VerifyTransfer` are not part of this model.
- Timeouts, idle shutdown, sleeps and tickers: cancelling is a step that may happen at any time.
- Statistics, logging, flags, command execution and `main`. Statistics are read before the last worker has added to them, so no equality about them is claimed.
- `singleflight` and the Go memory model: atomics and operations under a mutex are single steps. `ComputeChunkChecksum` is a sequential method; concurrent cache fills are the step `FillCache` of the node machine.
- The library sort is an insertion sort here; only that it sorts and permutes is used.
- Planning.BuildChunks: for files larger than 2^63 less the chunk size, whose sums wrap around, only the tiling is stated, not where the cuts are. The chunk size is at least 1, as `src/main.go:162` demands.
- Manifests.PlanAgreement: for such files only the file order is shown to agree, not the chunks.
- Counters per file wrap around in `Planning`; the node machine counts ranges in unbounded integers, which is the same for files up to the size in `PlanBounds.CounterIsExactIff`.
- Planning.AddFile: the inner loop of `BuildChunks` is a method of its own here, so that each loop is proved by itself.
- A files-per-chunk cap of 0 or less never closes a chunk, as in the code; the bound on the number of chunks is stated for caps of at least 1.
- The ready counter is the number of workers that count themselves as ready: receiving from the channel and subtracting from the counter are separate steps, adding to it is one step with the start of the worker or the end of its previous transfer.
- The swarm's polls deliver any set of served, unknown chunks at once; which chunks a delta answer lists is the subject of `Delta`, a model of its own.
- All nodes of a run use the same plan and the same verification flag; a node with another plan is refused by `Manifests` and the checksum comparison in `PeerLists.PeerDownloader.Tick`.
- A digest header is assumed to arrive as sent; only bodies can be corrupted.
- Callbacks of one reconciliation concern different hosts, so each is one step of `PeerControl.Controller.RunCallbacks`; starting and stopping a downloader's goroutines is not part of it.
- LiveFairness.FairRunsComplete: that the scheduler is fair is a hypothesis about turns; peers do not take part, since a single local downloader does not need them.
- Returning.FairRunsReturn: fairness is the same hypothesis; a goroutine whose file or network operation never ends is not fair, and is not part of this model.
