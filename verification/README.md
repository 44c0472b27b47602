# NetOS verification

A NetOS node is a pull-based cache synchroniser. It finds a key by ttl-limited flooding of requests (REQ), by
summaries of what its neighbours hold (CBF), and by aggregated Bloom queries (QBF); holders answer with DATA, which
only the requesting node stores. This project models the nodes, their tables and the network between them, and proves
what the design promises about every run.

## How the model is built

- **Data encodings.** `Text` (decimal text and what strtol and strtoull read back), `Wire` (the `|`-separated format),
  `Hashing` (FNV-1a and the mixer over 64 bits), `Bloom` (the byte array as a set of bit positions, its hex form).
- **Tables.** `QueryTables`, `QueryLimiter`, `SyncTables`, `ContentTables`, `FallbackTables`, `Aggregator` and
  `ForwardQueues`. Each holds a class written in the source's own steps, proved against functions on values, and
  lemmas about those functions over any sequence of calls. Clock readings and hash-map bucket orders are parameters,
  so nothing depends on them beyond what is stated.
- **Nodes.** `NodeModel` gives the message handlers as functions on the state a node's threads share; `Nodes` is the
  node object with its pipelines, tables and queue, each of whose methods takes the state exactly where the step
  system says.
- **The network.** `Systems` interleaves the main, scheduler, fallback, flush, content-exchange, worker and receiver
  threads of all nodes, one table call at a time (the receiver one message at a time), over a bag of packets that may
  be lost, duplicated and reordered. `Run` is the state after any sequence of events; the theorems quantify over all
  of them.
- **Proofs about runs.** `Arrivals` (what a datagram cut to the receive buffer still says), `Steps` (what a step cannot
  change), `Unrolled` (a handler's replies and sends taken one at a time), `NodeInvariants` (what each node keeps),
  `Histories` (what is true of every message in terms of the past), `Reachability` (replica agreement, hop chains),
  `Coherence` (local keys, Redis, filters and summaries), `Fitting` (when every datagram fits, from the configurations
  alone), `Cuts` (runs in which one does not), `Guided` (a run along the summary-guided path, through queues and
  workers), `Queries` (Query-BF completeness), `NoLoss` (requested keys), `Receiver` (the receiver split into its own
  table calls: what is kept, and no key lost, between them), `Floods` (duplicate suppression and rate limit over runs),
  `Holdings` (what a node's keys and tables are in any run, from its own steps), `Potential` and `Termination` (every
  flood quiesces).

Each table's answers are also described without its functions, from the times and arguments of the calls alone: when an
id is a duplicate (`QueryTables.DuplicateExactly`), a query is denied (`QueryLimiter.DeniedExactly`), a summary is chosen
(`ContentTables.SelectsExactly`), a fallback is handed out (`FallbackTables.HandedOutExactly`), a buffer splits, expires
or leaves (`Aggregator.SplitsAndDiscardsExactly`, `LeavesExactly`), what a SyncTable lists (`SyncTables.OrderIsRecency`,
`DestinationsSinceInsertion`).

Two kinds of condition recur, and each result asks only for what it uses.

- **The wire separator.** `CleanNames`: no node name holds it; `CleanSeedKeys`, `CleanSeedValues` and `CleanRequests`
  say the same of seeded keys, seeded values and requested keys. Summaries and Query-BFs need clean names, provenance
  clean names and seeded keys, agreement also clean values (`Arrivals.SeparatorMisfiles` shows how a key with the
  separator is stored under another key; in a value it only ends the value, `Arrivals.ValueEndsAtBar`).
- **The receive buffer of 2047 bytes.** `AllKeysFit`: no DATA of the run is cut within its key, whatever becomes of its
  value; provenance asks that. `AllFit` for a set of message kinds: no datagram of those kinds is cut; agreement asks
  that of DATA, Query-BF completeness of Query-BFs. Summaries ask nothing, and agreement up to a cut
  (`Reachability.AgreeUpToCut`) asks nothing either. `Fitting` derives both from the lengths in the configurations.

`Cuts` has the runs in which they fail: two nodes with one seed, any seed with a clean key, and the default settings but
for a ttl of one, sends made at once and no limit on a batch's fill. There agreement and the arrival of the key hold
exactly under those conditions (`Cuts.AgreesExactly`), and a key that is cut is left without any chain to a seeder
(`Cuts.OrphanedKey`). The single-node invariants, the accounting of requested keys, the flood and rate bounds and
termination (`Termination.EveryRunRests`) need neither condition.

Where the code and its documentation differ the model follows the code: `docs/CONTRACTS.md` says a broadcast leaves
out the immediate sender, but the code compares with a neighbour's address only once that has been resolved, so the
model lets a broadcast reach any of the neighbours.

## Model

| member | source | states |
|---|---|---|
| Text.IntRoundTrip | src/netos/core/message.cpp:26-36 | any int that is printed is read back, through strtol's 64-bit saturation and the cast to int |
| Text.Uint64RoundTrip | src/netos/node/node.cpp:504 | a creation time printed with to_string is what the receiver's strtoull reads, for every 64-bit value |
| Text.DecimalText | src/netos/core/message.cpp:63 | instances that fix the printed form: a minus sign, then decimal digits, most significant first |
| Text.NothingAfterDigits | src/netos/core/message.cpp:26-36 | no number followed by anything but a digit is read: the fallback is taken, and a creation time is refused |
| Text.ReadsInt | src/netos/core/message.cpp:26-36 | after any white space and a sign or none, a number is read as the int congruent to it modulo 2^32, and as -1 or 0 beyond strtol's 64-bit limits |
| Text.ReadsUint64 | src/netos/node/node.cpp:34-45 | and as 64 unsigned bits it saturates, and after a minus sign is negated modulo 2^64 |
| Wire.Split | src/netos/core/string_utils.cpp:7-24 | the splitting loop returns the delimiter-separated fields, without the empty ones if asked |
| Wire.SplitThenJoin | src/netos/core/string_utils.cpp:7-24 | for every string, joining the split fields gives it back, and no field holds the delimiter |
| Wire.JoinThenSplit | src/netos/core/string_utils.cpp:7-24 | splitting undoes joining for delimiter-free fields |
| Wire.FieldsOfPrefix | src/netos/core/string_utils.cpp:7-24 | cutting a string short changes no field but the last one read |
| Wire.Serialize | src/netos/core/message.cpp:55-70 | the appending printer produces the six fields joined by the separator |
| Wire.WireText | src/netos/core/message.cpp:40-70 | the wire text of every message, label by label and field by field |
| Wire.Parse | src/netos/core/message.cpp:72-87 | the field-by-field parser computes FromWire, rejecting fewer than five fields |
| Wire.WireRoundTrip | src/netos/core/message.cpp:55-87 | parsing the printed message returns it, for any ttl, if and only if no text field holds the separator |
| Wire.ParsedIsStable | src/netos/core/message.cpp:72-87 | whatever parses is in normal form: printing and parsing it again changes nothing |
| Wire.SeparatorInKey | src/netos/core/message.cpp:55-87 | a concrete message whose key holds the separator comes back with another key and value |
| Hashing.OneCharacterApart | src/netos/tables/bloom_filter.cpp:10-17 | two keys of bytes that differ in exactly one place never have the same FNV-1a hash |
| Hashing.Mix64Injective | src/netos/tables/bloom_filter.cpp:18-23 | the mixer never maps two hashes to one: each shift-and-xor and each multiplication modulo 2^64 can be undone |
| Hashing.PositionsProgress | src/netos/tables/bloom_filter.cpp:68-79 | a key's first position is its hash, and in a filter whose size divides 2^64 each next one is the mixed hash further on |
| Bloom.DigestsApart | src/netos/tables/bloom_filter.cpp:138-145 | two filters that differ in exactly one byte never have the same digest, so never share a limiter entry |
| Bloom.AddBits | src/netos/tables/bloom_filter.cpp:68-79 | adding a key unions its bit positions into the encoded set, and the filter then tests positive for it |
| Bloom.MergeBits | src/netos/tables/bloom_filter.cpp:97-107 | merging compatible filters encodes the union of their sets; an incompatible one changes nothing |
| Bloom.Extensional | src/netos/tables/bloom_filter.cpp:50-66 | filters of the same shape that encode the same set have the same bytes |
| Bloom.Layout | src/netos/tables/bloom_filter.cpp:50-66 | instances that fix the layout: bit i is bit i mod 8 of byte i / 8, and a byte's high hex digit is printed first |
| Bloom.AddAllOrderIndependent | src/netos/tables/bloom_filter.cpp:68-79 | the bytes after any additions depend only on the set of keys, not on order or repetition |
| Bloom.MergeIsUnionOfKeys | src/netos/tables/bloom_filter.cpp:97-107 | merging two filled filters is filling one with both key lists |
| Bloom.AddAllContains | src/netos/tables/bloom_filter.cpp:81-95 | no false negatives: after any additions the filter tests positive for each added key |
| Bloom.AddGrowth | src/netos/tables/bloom_filter.cpp:68-79 | one key sets at most hash_count new bits |
| Bloom.BitsSetIsCardinality | src/netos/tables/bloom_filter.cpp:147-156 | the popcount loop counts the encoded set |
| Bloom.BuiltBits | src/netos/tables/bloom_filter.cpp:68-107 | after any sequence of additions and merges, nested in any way and compatible or not, the bytes encode exactly the union of the position sets of the keys that went in |
| Bloom.BuiltSound | src/netos/tables/bloom_filter.cpp:81-156 | every such filter tests positive for each of its keys, keeps its padding bits clear and has a fill ratio between 0 and 1 |
| Bloom.BuildsAgree | src/netos/tables/bloom_filter.cpp:68-107 | two filters of one shape that took in the same keys, however they were added and merged, have the same bytes |
| Bloom.DecodedPaddingExactly | src/netos/tables/bloom_filter.cpp:120-156 | every text a reader accepts gives a filter with clear padding, and one with a ratio of at most 1, if and only if the bit count is a multiple of eight |
| Bloom.DecodedPaddingCounts | src/netos/tables/bloom_filter.cpp:120-156 | an instance: one declared bit read from a full byte has the ratio 8 |
| Bloom.AddAllFill | src/netos/tables/bloom_filter.cpp:147-156 | padding bits stay clear under additions, so the fill ratio is between 0 and 1 |
| Bloom.HexRoundTrip | src/netos/tables/bloom_filter.cpp:109-136 | every filter is recovered from its hex text by a reader with the same parameters |
| Bloom.HexAcceptedPrintsLower | src/netos/tables/bloom_filter.cpp:109-136 | accepted text prints back as itself in lower case |
| Bloom.BloomFilter.constructor | src/netos/tables/bloom_filter.cpp:40-44 | a new filter encodes the empty set |
| Bloom.BloomFilter.PutBit | src/netos/tables/bloom_filter.cpp:50-57 | sets one bit of the byte array in place and nothing else |
| Bloom.BloomFilter.GetBit | src/netos/tables/bloom_filter.cpp:59-66 | answers exactly membership in the encoded set |
| Bloom.BloomFilter.AddKey | src/netos/tables/bloom_filter.cpp:68-79 | the probing loop over the array computes Add |
| Bloom.BloomFilter.MaybeContains | src/netos/tables/bloom_filter.cpp:81-95 | the early-exit loop answers positive exactly if all the key's positions are set |
| Bloom.BloomFilter.MergeFrom | src/netos/tables/bloom_filter.cpp:97-107 | the byte loop computes Merge, also when the filter is merged with itself |
| Bloom.BloomFilter.Hex | src/netos/tables/bloom_filter.cpp:109-118 | the printing loop computes the hex text |
| Bloom.BloomFilter.ReadHex | src/netos/tables/bloom_filter.cpp:120-136 | the reading loop accepts exactly what FromHex accepts and builds the filter it names |
| Bloom.BloomFilter.DigestValue | src/netos/tables/bloom_filter.cpp:138-145 | the loop computes FNV-1a over the bytes |
| Bloom.BloomFilter.Fill | src/netos/tables/bloom_filter.cpp:147-156 | the loop computes the fill ratio |
| QueryTables.QueryTable.RecordIfNew | src/netos/tables/query_table.cpp:7-17 | prunes, counts and records as the specification says and answers whether the id was new |
| QueryTables.QueryTable.Prune | src/netos/tables/query_table.cpp:28-40 | the erasing loop keeps exactly the unexpired entries and returns how many it removed |
| QueryTables.DuplicateExactly | src/netos/tables/query_table.cpp:7-40 | pruning is unobservable: over any calls with a monotone clock, an id is a duplicate exactly when an acceptance of it at most ttl old is on record |
| QueryTables.AcceptancesApart | src/netos/tables/query_table.cpp:7-40 | two acceptances of one id are always more than ttl apart |
| QueryTables.AttemptsConserved | src/netos/tables/query_table.cpp:7-26 | attempts = duplicates + pruned + size after any calls |
| QueryLimiter.MakeKeyInjective | src/netos/tables/query_bf_limiter.cpp:8-10 | limiter keys never mix two (origin, digest) pairs |
| QueryLimiter.QueryBloomLimiter.Allow | src/netos/tables/query_bf_limiter.cpp:12-33 | allows with either limit off; otherwise the answer and the new windows are those of the specification, whose answers over any calls DeniedExactly gives in terms of the calls' times |
| QueryLimiter.QueryBloomLimiter.Prune | src/netos/tables/query_bf_limiter.cpp:40-50 | the erasing loop keeps exactly the entries whose window opened at most two windows ago |
| QueryLimiter.PruningUnobservable | src/netos/tables/query_bf_limiter.cpp:12-50 | over any calls with a monotone positive clock, each answer is the one an unpruned window of that key alone gives |
| QueryLimiter.DeniedExactly | src/netos/tables/query_bf_limiter.cpp:12-33 | over any calls with a monotone clock, a call is denied if and only if a window of its key was started at most the window length ago and as many calls as the limit were allowed since |
| QueryLimiter.AllowedBelowLimit | src/netos/tables/query_bf_limiter.cpp:12-33 | the lower side: a call with fewer allowed calls than the limit in the window length before it is allowed |
| QueryLimiter.RateBound | src/netos/tables/query_bf_limiter.cpp:12-33 | in any closed interval of length L > 0 at most limit * (ceil(L / window) + 1) calls for one key are allowed |
| QueryLimiter.TwiceTheLimitPerWindow | src/netos/tables/query_bf_limiter.cpp:12-33 | hence at most twice the limit in any one window length |
| SyncTables.SyncTable.RecordDestination | src/netos/tables/sync_table.cpp:9-45 | list, iterators, index, counters and the returned update are those of the specification |
| SyncTables.SyncTable.Touch | src/netos/tables/sync_table.cpp:65-73 | erasing at the stored iterator and pushing to the front moves exactly that key |
| SyncTables.SyncTable.EvictIfNeeded | src/netos/tables/sync_table.cpp:75-93 | the eviction loop drops the oldest keys until the capacity is met, and counts them |
| SyncTables.RecordConsistent | src/netos/tables/sync_table.cpp:9-45 | a call keeps list and index in agreement, the total equal to the sum of the destination lists, and the size within capacity |
| SyncTables.DropOldestConsistent | src/netos/tables/sync_table.cpp:77-91 | evicting never needs the clamp of the destination total at zero |
| SyncTables.EvictsAtMostOne | src/netos/tables/sync_table.cpp:75-93 | with capacity at least 1 a call evicts at most one key |
| SyncTables.OrderIsRecency | src/netos/tables/sync_table.cpp:9-93 | after any calls the list is the `capacity` most recently used distinct keys of the history, most recent first |
| SyncTables.MostRecent | src/netos/tables/sync_table.cpp:9-73 | a call puts its key at the front of the list, with its destination among the key's own |
| SyncTables.DestinationsSinceInsertion | src/netos/tables/sync_table.cpp:9-45 | a present key's destinations are the distinct ones since its latest insertion, in first-seen order |
| SyncTables.UpdateExactly | src/netos/tables/sync_table.cpp:9-45 | what a call reports (key new, destination new or duplicate, counts, evictions) and whether it counts as a duplicate hit, from the history of calls alone |
| SyncTables.KeysConserved | src/netos/tables/sync_table.cpp:9-93 | keys inserted = keys present + keys evicted after any calls |
| ContentTables.ContentBloomTable.SelectNeighbor | src/netos/tables/content_bf_table.cpp:28-38 | erases the summaries older than the ttl and no others, and returns the first one in bucket order that is then left and positive |
| ContentTables.ContentBloomTable.Prune | src/netos/tables/content_bf_table.cpp:45-56 | with a positive ttl the erasing loop keeps exactly the summaries at most that old; otherwise it keeps all |
| ContentTables.ContentBloomTable.UpdateNeighbor | src/netos/tables/content_bf_table.cpp:19-26 | replaces the sender's summary and no other |
| ContentTables.SelectExact | src/netos/tables/content_bf_table.cpp:28-38 | whatever the bucket order, the choice is a positive summary within the ttl, and there is none only if no summary within the ttl is positive |
| ContentTables.SelectsExactly | src/netos/tables/content_bf_table.cpp:19-56 | over any calls of update and select with a monotone clock: a selection returns a neighbour whose latest summary is positive and came within the ttl, and none exactly if there is no such neighbour, so pruning is unobservable |
| FallbackTables.MakeKeyInjective | src/netos/tables/content_bf_fallback.cpp:7-10 | table keys are unambiguous for one origin, or for origins without the separator |
| FallbackTables.MakeKeyCollides | src/netos/tables/content_bf_fallback.cpp:7-10 | two different origins can share a table key if and only if one continues the other after a separator; a node files only its own origin, so its table never holds such a pair |
| FallbackTables.MakeKeyAmbiguous | src/netos/tables/content_bf_fallback.cpp:7-10 | an instance of such a collision |
| FallbackTables.ContentBfFallbackTable.ScheduleKey | src/netos/tables/content_bf_fallback.cpp:12-23 | files the entry as the specification says, unless the window is off; when it is handed out HandedOutExactly says |
| FallbackTables.ContentBfFallbackTable.CancelKey | src/netos/tables/content_bf_fallback.cpp:25-28 | removes exactly the entry's table key and says whether it was there |
| FallbackTables.ContentBfFallbackTable.TakeDue | src/netos/tables/content_bf_fallback.cpp:30-46 | the draining loop returns the due entries in bucket order and leaves exactly the others |
| FallbackTables.TakeKeeps | src/netos/tables/content_bf_fallback.cpp:30-46 | no entry is lost by taking: it is handed out or still filed |
| FallbackTables.TakeOnlyDue | src/netos/tables/content_bf_fallback.cpp:30-46 | only entries past their deadline are handed out, and they are gone from the table |
| FallbackTables.TakeConserves | src/netos/tables/content_bf_fallback.cpp:30-46 | as many entries are handed out as leave the table |
| FallbackTables.FiledExactly | src/netos/tables/content_bf_fallback.cpp:12-46 | over any schedule, cancel and take calls, a key is filed exactly if some scheduling of it still counts, with the deadline a window after the latest one |
| FallbackTables.HandedOutExactly | src/netos/tables/content_bf_fallback.cpp:30-46 | over any calls, taking hands a key out if and only if its latest scheduling was neither cancelled nor taken and is at least the window ago; with the window off, never |
| FallbackTables.TakenOnTime | src/netos/tables/content_bf_fallback.cpp:12-46 | a key scheduled at t and neither rescheduled nor cancelled is out of the table exactly once a take came at t + window or later |
| Aggregator.QueryBloomAggregator.Add | src/netos/tables/query_bf_aggregator.cpp:50-95 | buffers, pending batches and the returned result are those of the specification on key lists, with the stored filter that of the keys |
| Aggregator.QueryBloomAggregator.FlushDue | src/netos/tables/query_bf_aggregator.cpp:97-126 | returns the pending batches and then the due buffers, and resets exactly those buffers |
| Aggregator.LeavesExactly | src/netos/tables/query_bf_aggregator.cpp:97-126 | over any run: the batch of an origin that leaves unsplit holds exactly the keys added since the event that last created or reset its buffer, with that event's wall clock, and leaves if and only if that event is at least the window ago; then nothing of the origin waits |
| Aggregator.SplitsAndDiscardsExactly | src/netos/tables/query_bf_aggregator.cpp:50-95 | over any run: an added key discards what the buffer holds if and only if that event is more than the ttl ago, and splits the buffer if and only if with this key it reaches the key count or the share of set bits |
| Aggregator.KeysConserved | src/netos/tables/query_bf_aggregator.cpp:50-126 | over any run every key added for an origin is, with multiplicity, in that origin's flushed batches, pending batches or live buffer, or was discarded |
| Aggregator.OnlyStaleDiscards | src/netos/tables/query_bf_aggregator.cpp:57-62 | with a positive wall clock only the ttl reset discards anything, and it discards that buffer's keys |
| Aggregator.HeldKeysTestPositive | src/netos/tables/query_bf_aggregator.cpp:63-92 | whatever keys a buffer or batch holds, its filter tests positive for each |
| Aggregator.RunBounded | src/netos/tables/query_bf_aggregator.cpp:73-92 | over any run every batch is non-empty, has at most max_keys keys and fewer than max_fill * bit_count + hash_count set bits, where the limits are on |
| ForwardQueues.EveryInterleavingSound | src/netos/node/forward_queue.cpp:75-137 | under every interleaving the depth stays within max_depth, accepted items leave once and in order, and a direct item has exactly one outcome once settled and none before |
| ForwardQueues.OverflowRejectsOnlyTheArrival | src/netos/node/forward_queue.cpp:79-96 | on overflow only the arriving item is affected, and a direct one is told so at once |
| ForwardQueues.AcceptedExactly | src/netos/node/forward_queue.cpp:75-101 | in any interleaving an item is accepted if and only if fewer items than the depth were accepted and not yet taken |
| ForwardQueues.OutcomesAreTrue | src/netos/node/forward_queue.cpp:79-136 | in any interleaving an item's outcome is a failure if it was rejected, and otherwise what the send of the worker that held it came to |
| ForwardQueues.DrainedAtExit | src/netos/node/forward_queue.cpp:103-136 | in every interleaving, once a worker has left its loop and nothing more is offered, all accepted items have been taken, and when no worker holds one every direct item ever offered has had exactly one callback and no broadcast any |
| ForwardQueues.ForwardQueue.Enqueue | src/netos/node/forward_queue.cpp:75-101 | pushes the item, or drops it with its failure callback, and keeps every promise about the queue |
| ForwardQueues.ForwardQueue.WorkerTurn | src/netos/node/forward_queue.cpp:103-119 | the locked part of the worker loop pops the front item, exits or keeps waiting |
| ForwardQueues.ForwardQueue.WorkerFinish | src/netos/node/forward_queue.cpp:121-136 | a direct item's one callback runs; a broadcast has none |
| NodeModel.RequestIdsUnique | src/netos/node/node.cpp:560-565 | request ids of distinct nodes, or with distinct counters on one node, never collide |
| NodeModel.RequestIdText | src/netos/node/node.cpp:560-565 | an instance that fixes the form of an id: name, milliseconds, counter |
| NodeModel.AcceptedExactly | src/netos/node/node.cpp:291-334 | a Query-BF passes every check exactly if it has an origin, ttl, key and value, its creation time can be read, it was created at most the ttl ago or in the future, and its filter decodes |
| NodeModel.ExpiredIsDropped | src/netos/node/node.cpp:319-326 | a Query-BF created more than the ttl ago changes nothing and makes the node send nothing |
| NodeModel.UnexpiredIsAnswered | src/netos/node/node.cpp:319-351 | a well-formed one created at most the ttl ago, or in the future, is answered for every key of the snapshot that tests positive and can be read |
| Nodes.Node.RunRequestPipeline | src/netos/node/request_pipeline.cpp:63-117 | the four stages decide in order fields, ttl, duplicate, cache, forward, and change only the QueryTable |
| Nodes.Node.RunDataPipeline | src/netos/node/data_pipeline.cpp:45-73 | a DATA is stored exactly if id, origin and key are not empty, its ttl is positive and it names this node, and is reported as bad exactly if a field is missing or the ttl is not positive |
| Nodes.Node.OnRequest | src/netos/node/node.cpp:142-229 | the handler's sends and new state are those of the step system's HandleRequest |
| Nodes.Node.OnData | src/netos/node/node.cpp:231-262 | stores, cancels the fallback and records the key in the source's order, stopping where the source stops |
| Nodes.Node.OnContentBloom | src/netos/node/node.cpp:264-289 | a summary that decodes replaces the sender's, with the time it came, and nothing else; Coherence.SummaryReceived states that without naming the handler |
| Nodes.Node.AcceptQuery | src/netos/node/node.cpp:291-334 | a Query-BF is looked at exactly if it has an origin, ttl, key and value, its creation time can be read and is at most the ttl before the clock, and its filter decodes |
| Nodes.Node.AnswerKeys | src/netos/node/node.cpp:337-403 | the loop over the snapshot, with each id drawn and each DATA sent before the next key, does what sending all replies at the end does |
| Nodes.Node.OnQueryBloom | src/netos/node/node.cpp:291-427 | answers, then the ttl check, then the limiter, then the broadcast: the state and packets of HandleQueryBloom |
| Nodes.Node.OnWire | src/netos/node/node.cpp:116-140 | a datagram that parses makes the receiver take exactly the step system's Receive step; one that does not changes nothing |
| Nodes.Node.Transmit | src/netos/network/udp_network.cpp:23-53 | one datagram to the address, or to each neighbour in order that can be sent to |
| Nodes.Node.Send | src/netos/node/forward_queue.cpp:28-73 | a send is queued, dropped on overflow, or transmitted at once with its callback when the queue is off or not started |
| Nodes.Node.SeedNext | src/netos/node/node.cpp:571-579 | one turn of the seeding loop is the step system's Seed step |
| Nodes.Node.LookUpNext | src/netos/node/node.cpp:588-607 | the local lookup, on a hit recording the key and on a miss making the request, is the LookUp step |
| Nodes.Node.NoteOwnRequest | src/netos/node/node.cpp:608 | recording the own request id is the NoteOwn step |
| Nodes.Node.ChooseNeighbor | src/netos/node/node.cpp:614 | choosing a neighbour by its summary is the Choose step |
| Nodes.Node.AskNeighbor | src/netos/node/node.cpp:615-627 | the direct request is the Ask step |
| Nodes.Node.ScheduleOwnFallback | src/netos/node/node.cpp:628 | scheduling the fallback after the direct request is the ScheduleFallback step |
| Nodes.Node.AggregateOwn | src/netos/node/node.cpp:629-643 | handing the key to the aggregator is the Aggregate step |
| Nodes.Node.TakeDueFallbacks | src/netos/node/node.cpp:465-466 | taking the due list into the thread's hands is the TakeDue step |
| Nodes.Node.AddNextDue | src/netos/node/node.cpp:467-481 | adding one due key is the AddDue step |
| Nodes.Node.FlushBatches | src/netos/node/node.cpp:494-496 | taking the flushed batches is the FlushDue step |
| Nodes.Node.SendNextBatch | src/netos/node/node.cpp:497-515 | making a Query-BF of one batch and broadcasting it is the SendBatch step |
| Nodes.Node.Snapshot | src/netos/node/node.cpp:440 | copying the local filter is the TakeSnapshot step |
| Nodes.Node.SendSummary | src/netos/node/node.cpp:441-452 | making a CBF of the copy and broadcasting it is the SendSnapshot step |
| Nodes.Node.WorkerTakes | src/netos/node/forward_queue.cpp:107-119 | a worker's pop is the WorkerTake step |
| Nodes.Node.WorkerFinishes | src/netos/node/forward_queue.cpp:121-133 | sending the popped item and running its callback is the WorkerFinish step |
| Steps.StepFrame | src/netos/node/forward_queue.cpp:75-133 | whatever a node sends or still has to send it had before or has just made, and sending changes no other table |
| Unrolled.SendExactly | src/netos/node/forward_queue.cpp:28-101 | a send waits at the end of the queue if the queue is on, started and not full, is dropped if it is full, and goes out at once if it is off |
| Unrolled.PacketsExactly | src/netos/network/udp_network.cpp:23-53 | the network is given a direct item once for its address, a broadcast once for each neighbour that was reached, and nothing else |
| Unrolled.CallbackExactly | src/netos/node/node.cpp:181-190 | a sent answer is noted in the SyncTable, its key most recent and its origin among the destinations; any other send leaves the shared state alone |
| NodeInvariants.ActOwn | src/netos/node/node.cpp:458-646 | each thread's step keeps scheduler, due list, batches, buffers and fallbacks about this node's own requests |
| NodeInvariants.ActCoherent | src/netos/node/node.cpp:552-558 | each thread's step keeps every local key in Redis and positive in the local filter |
| NodeInvariants.ActRedis | src/netos/node/node.cpp:231-258 | Redis changes only by one of the node's seeds or by DATA that names the node as its origin |
| NodeInvariants.ActLinked | src/netos/node/node.cpp:614-627 | direct requests go only to endpoints whose summary came over a topology link |
| Histories.RepliesAre | src/netos/node/node.cpp:343-402 | every reply to a Query-BF is a direct DATA to its sender for a snapshot key that tests positive and was read |
| Histories.ForwardVouched | src/netos/node/node.cpp:405-426 | forwarding a Query-BF keeps the batch and spends one ttl for one hop, and never happens with no ttl left |
| Histories.StepGood | src/netos/node/node.cpp:116-140 | any step of a node keeps it good and sends, over links only, messages that are true about the past |
| Arrivals.ArrivesExactly | src/netos/network/udp_transport.cpp:91-106 | a message arrives as it was sent if and only if no field holds the separator and the datagram fits the receive buffer |
| Arrivals.SeparatorMisfiles | src/netos/node/node.cpp:250 | any DATA for a key with a separator is stored under the key's head with its tail as the value |
| Arrivals.KindArrives | src/netos/network/udp_transport.cpp:91-106 | however a datagram is cut, what still parses has the kind that was sent |
| Arrivals.TtlArrives | src/netos/network/udp_transport.cpp:91-106 | and the ttl that was sent, if the request id and origin hold no separator |
| Arrivals.CutMessage | src/netos/network/udp_transport.cpp:91-106 | a message with clean names and key that still parses is the one sent but for its end: the value is cut, or the key is and the value is empty |
| Arrivals.ValueEndsAtBar | src/netos/core/message.cpp:72-87 | a separator in the value ends the value on arrival and changes nothing else |
| Arrivals.KeyArrivesExactly | src/netos/network/udp_transport.cpp:91-106 | with clean names and key, the key arrives as it was sent if and only if everything before the separator in front of the value fits the buffer |
| Arrivals.StoredExactly | src/netos/node/node.cpp:250 | a delivered DATA for a key that is new to its origin leaves that key with the value that was sent if and only if the datagram fits the receive buffer and the value holds no separator |
| Arrivals.KeyStoredExactly | src/netos/node/node.cpp:250 | it leaves that key there, with whatever value, if and only if the datagram is long enough for the key |
| Arrivals.CutKeyIsStored | src/netos/node/node.cpp:250 | any DATA whose datagram is too long by its key is stored at its origin under a proper prefix of the key, with an empty value |
| Arrivals.CutValueIsStored | src/netos/node/node.cpp:250 | any DATA whose datagram is too long by its value is stored at its origin with a proper prefix of the value |
| Reachability.ReachableGood | src/netos/node/node.cpp:100-140 | every state of every run is good: tables own, summaries true about the past, every DATA for a key its sender held, stored and sent data seeds perhaps cut, and for each message kind whose datagrams fit messages of that kind true and, for DATA, stored values seeded |
| Reachability.RequestInFlight | src/netos/node/request_pipeline.cpp:63-104 | every REQ in flight has its origin's request_ttl less the hops it has made as its ttl, in every run, whatever fits |
| Reachability.ReplicasAgree | src/netos/node/node.cpp:168-174 | if seeds agree and DATA fits, every stored value and the value of every DATA in flight is a seeded one, and any two holders of a key and any DATA in flight for it agree |
| Reachability.AgreeUpToCut | src/netos/node/node.cpp:168-174 | whatever datagrams are cut, everything stored or in flight is a seeded key with a prefix of its value or a proper prefix of a seeded key with no value, and if seeds agree then of any two values for one key one is a prefix of the other |
| Reachability.AcquiredBy | src/netos/node/data_pipeline.cpp:67-73 | where keys arrive whole, a node comes to hold a key only by its own seed or from a linked node that held it before |
| Reachability.HopChain | src/netos/node/node.cpp:166-262 | where keys arrive whole, whatever becomes of their values, every holder is joined to a seeder by a path of holders over links, each acquiring the key strictly later than the one before |
| Coherence.ReachableSane | src/netos/node/node.cpp:552-558 | in every state of every run, whatever the network carries, every local key is in Redis and positive in the local filter |
| Coherence.ActTracked | src/netos/cache/redis_client.cpp:55-70 | a step ends the agreement of Redis and local keys if and only if it stores a new key and loses the reply |
| Coherence.TrackedExactly | src/netos/node/node.cpp:250-258 | Redis and local keys hold the same keys at all nodes throughout a run if and only if no event stores a new key while losing Redis's reply |
| Coherence.LostReplyRun | src/netos/cache/redis_client.cpp:55-70 | the run that breaks the agreement: any node whose first seed's SET takes effect but loses its reply ends with the key in Redis and not in its local keys |
| Coherence.RunGrows | src/netos/node/node.cpp:552-558 | a node's filter, local keys and Redis only grow along a run |
| Coherence.StoredSummary | src/netos/node/node.cpp:264-281 | with equal filter parameters, and whatever fits, a stored summary is the neighbour's filter as it once was: part of its filter now and positive for all it held then |
| Coherence.SummaryReceived | src/netos/node/node.cpp:264-281 | receiving a CBF with an origin that decodes to a filter sets the sender's summary to that filter and the time, changes nothing else and sends nothing |
| Coherence.SummaryStored | src/netos/node/node.cpp:264-281 | in any run, delivering a CBF that fits to a node with the sender's filter parameters stores the sender's filter as it once was, as of the delivery, and leaves every other summary |
| Coherence.ChoiceFinds | src/netos/node/node.cpp:614 | a choice succeeds if any neighbour's summary is positive and within the ttl |
| Coherence.SummaryIsUsed | src/netos/node/node.cpp:614 | so in any run, a choice within the content ttl of such a delivery, for a key its sender held when the summary was taken, finds a neighbour |
| Coherence.SummaryInFlight | src/netos/node/node.cpp:440-452 | every CBF in flight is its sender's filter as it once was: whatever part of it arrives, a node with the sender's parameters reads that filter or rejects the message |
| Coherence.SelectionIsSound | src/netos/node/node.cpp:614 | over any reachable state no neighbour is chosen only if none with a summary within the ttl held the key when it was taken, and a chosen neighbour's own filter still tests positive |
| Fitting.AlwaysFits | src/netos/network/udp_transport.cpp:91-106 | short enough names, requested keys, seeds and filters in the configurations make every datagram of the kinds asked for (REQ, DATA, CBF, QBF) fit in every state of every run, for any 64-bit clock and counter |
| Fitting.AgreementByConfig | src/netos/node/node.cpp:168-174 | replica agreement, of holders and of DATA in flight, under that condition on the configurations alone |
| Fitting.ChainByConfig | src/netos/node/node.cpp:166-262 | hop chains under a bound on the lengths of names and seeded keys alone |
| Fitting.KeysAlwaysFit | src/netos/network/udp_transport.cpp:91-106 | under that bound no DATA of any run is cut within its key |
| Cuts.AnswerInFlight | src/netos/node/node.cpp:458-646 | the run of two nodes in which a requested key is batched, queried for, answered, and the answer is on its way |
| Cuts.AgreesExactly | src/netos/node/node.cpp:250 | after its delivery the two nodes agree if and only if the datagram fits and the value is clean, and both have the key if and only if the datagram is long enough for it; the second value is a prefix of the first |
| Cuts.Disagreement | src/netos/node/node.cpp:250 | so with a value too long two nodes of a network whose seeds agree hold different values for one key |
| Cuts.OrphanedKey | src/netos/node/node.cpp:250 | with a key too long a node ends up holding a key that no chain of holders joins to a seeder |
| Guided.GuidedRun | src/netos/node/node.cpp:142-646 | the run of two nodes along the summary-guided path, through queues and workers: summary taken, sent and stored; neighbour chosen and asked; fallback scheduled; request served and noted in the SyncTable; answer stored and the fallback cancelled |
| Queries.QueryInFlight | src/netos/node/node.cpp:497-514 | every Query-BF in flight carries filter and creation time of a batch its origin flushed, with ttl + hops = request_ttl |
| Queries.AnsweredExactly | src/netos/node/node.cpp:343-351 | a query is answered for a key if and only if it is a local key that tests positive and is read from Redis |
| Queries.ReplyIdsDistinct | src/netos/node/node.cpp:357 | no two answers to one query fewer than 2^64 apart share a request id |
| Queries.QueryAnswered | src/netos/node/node.cpp:327-402 | a node with the origin's filter parameters that receives a Query-BF unexpired issues, to its sender, DATA for every batched key it has in its local keys and can read |
| Queries.AnswerIsStored | src/netos/node/node.cpp:249-258 | such a DATA that reaches the batch's origin is stored unless Redis refuses it, and on success its fallback is gone |
| NoLoss.AddKeyKeeps | src/netos/tables/query_bf_aggregator.cpp:56-92 | add_key keeps every aggregated key positive in a buffer or batch, but for those of a buffer older than the ttl |
| NoLoss.CancelOnlyStored | src/netos/node/node.cpp:250-257 | a fallback is cancelled only once its key is stored |
| NoLoss.StepCares | src/netos/node/node.cpp:458-646 | one step of any thread keeps a key in care unless it hands it over in a positive Query-BF or discards it for age |
| NoLoss.NeverLost | src/netos/node/node.cpp:582-646 | from a missed lookup on, in every interleaving, the key is stored, in a thread's or table's care or positive in a buffer or batch, was handed to the forward queue in a positive Query-BF, or was discarded by the buffer's age limit |
| Receiver.Uninterrupted | src/netos/node/node.cpp:116-427 | the receiver's table calls, sends, id draws and Redis calls for one message, with nothing between them, make exactly the node's Receive step |
| Receiver.StepFineOwn | src/netos/node/node.cpp:142-427 | wherever the other threads overtake the receiver, threads and tables stay about the node's own requests, and a DATA past its SET is stored |
| Receiver.StepFineCares | src/netos/node/node.cpp:250-257 | no call of the receiver, and no thread's step between two of them, takes a key out of care unless it is stored, handed over or expired |
| Receiver.NeverLostFine | src/netos/node/node.cpp:142-646 | NoLoss.NeverLost for one node with the receiver interleaved call by call, whatever messages arrive |
| Receiver.FineRunCoherent | src/netos/node/node.cpp:250-258 | in every such state every local key is in Redis, and positive in the filter but for the one key the receiver has listed and not yet added |
| Receiver.StepFineRedis | src/netos/node/node.cpp:250 | call by call, Redis changes only by one of the node's seeds or at the SET of DATA that names the node as its origin |
| Floods.TablesAreRuns | src/netos/node/node.cpp:142-144 | in any run a node's QueryTable and limiter are what its own calls make of fresh ones |
| Floods.FloodSuppressedExactly | src/netos/node/request_pipeline.cpp:98-104 | in any run a valid request makes a node send if and only if it has not accepted that id, from anyone or as its own, within the query ttl |
| Floods.BroadcastIsForward | src/netos/node/node.cpp:405-426 | a received Query-BF is broadcast on if and only if it has ttl left and the limiter allows it |
| Floods.ForwardedExactly | src/netos/node/node.cpp:405-426 | in any run a Query-BF accepted with ttl left is broadcast on if and only if no window of its origin and filter, started at most the window length ago, has had as many forwards as the limit |
| Floods.ForwardRate | src/netos/node/node.cpp:412-417 | in any run a node broadcasts one query on at most limit * (ceil(L / window) + 1) times in any interval of length L > 0 |
| Holdings.HoldsExactly | src/netos/node/node.cpp:231-646 | in any run a node's Redis holds the last value of each SET that took effect, its local keys and filter are exactly those of the keys its steps recorded (seeded, read for itself, served, or delivered), and its tables of summaries, fallbacks and batches are what its own calls make of empty ones |
| Holdings.UnlistedExactly | src/netos/node/node.cpp:250-258 | in any run a node has a key in Redis that it does not list if and only if the key was once written, and never with its reply seen, read for the node itself or served |
| Holdings.ChoosesExactly | src/netos/node/node.cpp:614 | in any run with a monotone clock the scheduler chooses a neighbour whose latest summary is positive and arrived within the content ttl, and none exactly if there is no such neighbour |
| Holdings.TakesExactly | src/netos/node/node.cpp:465-466 | in any run the fallback thread takes a key if and only if the latest direct request for it was at least the window ago and since then its DATA was not stored and it was not taken |
| Holdings.FlushesExactly | src/netos/node/node.cpp:494-496 | in any run a flush takes, of each origin, exactly the keys added since its buffer was last created or reset, if and only if that was at least the window ago |
| Termination.RequestItems | src/netos/node/node.cpp:166-227 | a request is answered once, forwarded once with one ttl less, or dropped, and only with ttl left |
| Termination.HandleSpends | src/netos/node/node.cpp:142-427 | what a message makes its receiver send weighs less than the message |
| Termination.SendAllSpends | src/netos/network/udp_network.cpp:27-35 | queueing, dropping or broadcasting items never adds weight |
| Termination.FlushSpends | src/netos/tables/query_bf_aggregator.cpp:97-126 | a flush changes nothing or turns buffered keys and pending batches into lighter batches |
| Termination.StepSpends | src/netos/node/node.cpp:458-646 | every step of a node but taking a snapshot spends potential or changes nothing at all |
| Termination.ApplySpends | src/netos/node/node.cpp:166-227 | every event but a fresh summary and a duplication that changes the network's state lowers the potential by at least one, or, where it only moves an answer, by the weight given to answers; local keys need a bound only where answers have weight |
| Termination.ChangesBounded | src/netos/node/node.cpp:343-517 | as many events can still change the state as the potential says, for any bounds that cover the configurations and, if answers are counted, the local keys |
| Termination.FloodsQuiesce | src/netos/node/node.cpp:343-517 | in any run of any configurations, from any point on at which nothing is renewed, no more events than the potential at that point do anything but move an answer |
| Termination.EveryChangeLightens | src/netos/node/node.cpp:343-517 | in any run of any configurations, an event that changes anything lowers the pair (potential without answers, potential with them) lexicographically |
| Termination.EveryRunRests | src/netos/node/node.cpp:343-517 | in any infinite run of any configurations in which summaries and duplications eventually stop, the state of the whole network is eventually constant |
| Termination.CleanFloodsQuiesce | src/netos/node/node.cpp:343-517 | with clean names and keys that arrive whole, a number computed from the configurations and the state bounds all further changes, answers included |

## Left out

- Reachability.ReplicasAgree: for whole networks one direction only; the exact condition is proved for one delivery (Arrivals.StoredExactly) and for a run of two nodes (Cuts.AgreesExactly), and without it Reachability.AgreeUpToCut holds.
- Reachability.HopChain: for whole networks one direction only; when a key survives a delivery is exact (Arrivals.KeyStoredExactly), and Cuts.OrphanedKey is the run in which one does not.
- Coherence.StoredSummary: clean names and equal filter parameters; other parameters decode to another filter or none.
- Queries.QueryAnswered: clean names, Query-BFs that fit and equal filter parameters; a DATA that is issued may still be lost on its way.
- Floods.FloodSuppressedExactly: assumes the steady clock's readings do not go back between calls of one node's table; so do Floods.ForwardedExactly and Holdings.ChoosesExactly.
- NoLoss.NeverLost: takes a received message as one step of the network; Receiver.NeverLostFine takes it call by call, for one node and any arrivals. Receiver.FineRunCoherent and Receiver.StepFineRedis do the same for the local invariants; the run theorems about several nodes keep the single step.
- record_local_key in the seeding and scheduler threads: its two locked insertions are one step there; the receiver's are two.
- Topology reload: the neighbour list is fixed; a link counts in either direction.
- Redis: a map whose calls may fail, SET before or after taking effect; it starts empty, and the RESP encoding and left-over replies are not modelled.
- Sockets, name resolution and addresses: endpoints are node numbers, and each send may fail.
- Sender exclusion in broadcasts: not relied on; any of the neighbours may be reached.
- Fill ratios are exact reals, not doubles, so a ratio within rounding of the limit may split at another key.
- Characters are treated as bytes for hashing and for the datagram limit; keys outside that range are not given a meaning.
- Clocks, bucket orders of hash maps and Redis failures are parameters; the wall clock is positive and below 2^64 milliseconds.
- Shutdown: the step system never stops a node; the forward queue's own model covers workers exiting.
- Liveness: nothing says a request is eventually answered; delivery is best effort.
- Hash quality and false-positive rates: beyond `Hashing.OneCharacterApart` and `Hashing.Mix64Injective` nothing is said about collisions.
- Memory-level races: each table call is one step, including the QueryTable, which the code shares between threads without a lock.
- Configuration loading, validation and the topology exporter: validated ranges are taken as given.
- Logging and log-only statistics strings, trim, and the demo scripts.
