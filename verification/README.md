# Verified model of rocketmq-exporter-go

A Dafny model of the parts of the RocketMQ exporter whose correctness is not
visible from any single function: the cluster health prober and the store
behind `/healthz`, the fastjson key normaliser, the binary wire codec, the
connection pool, the worker pool, the collection fan-out and its aggregation,
the metrics cache, and request signing.

## How the model is laid out

| files | component |
|---|---|
| `FastJson`, `FastJsonLaws`, `FastJsonTree` | the byte loop that quotes bare object keys; its laws on all bytes; its meaning on documents |
| `Codec`, `CodecLaws` | the binary header, the 4-byte framing; round trips |
| `HealthStore` | the six health maps and the `/healthz` snapshot |
| `HealthProber` | the prober as a transition system |
| `HealthInvariants`, `HealthHistory`, `HealthSamples`, `HealthGauges`, `HealthOrigin`, `HealthReconcile` | its inductive invariant, by concern |
| `HealthTheorems`, `HealthOverlap` | what holds in every run; a run that shows what does not |
| `ConnPool` | connections, callers and servers as a transition system |
| `WorkerPool`, `WorkerRuns` | the slice-backed queue as an object; the pool as a transition system |
| `Sums`, `FanOut`, `Aggregation` | the bounded parallel loop and its two passes; sums, maxima and latency |
| `TtlCache`, `Acl` | the metrics cache as an object and as a history; signing |

Loops and in-place updates are methods with invariants, each proved equal to a
function of its input; the laws are lemmas about that function. Protocols are
transition systems: a step is one locked region, one call into the store, or
one return from a client library, and a theorem about `run` and `i` speaks of
every state of every interleaving.

Assumptions of the prober: the clock never goes back; `Shutdown` of a consumer
returns only when none of its callbacks runs and none starts afterwards;
`Start`, the refresh loop and `Shutdown` follow one another on one thread at a
time. A callback may overlap other callbacks, and a consumer may start just as
its probe is cancelled. Assumption of the connection pool: a server answers each
complete request frame once and in order; bytes may arrive in any pieces, and
any read or write may fail.

Parameters that stand for code outside the model: the JSON header encoder and
decoder (`marshal` in `Codec.Encode`, `json` in `Codec.Decode`), the keyed digest (`mac` in `Acl.Signed`), clock
readings, and the answers of brokers to pulls.

## Where the code and its comments disagree

The model follows the code.

- Bare `true`, `false` and `null` keys stay unquoted
  (`internal/rmqremote/fastjson.go:170-176`), although the comment promises that
  bare keys are quoted. `FastJsonTree.AllKeysQuotedIff` gives the exact condition.
- The comment on the pool size says callers wait for a free connection
  (`internal/rmqremote/remote_client.go:28-34`). The code dials instead:
  `ConnPool.TakeDialsIff`, `ConnPool.InFlightUnbounded`.
- The cache comment speaks of live values as of the scrape
  (`internal/collector/store.go:37-40`). A snapshot reads the clock before it
  locks, so a sweep in between can hide a value that its clock finds live:
  `TtlCache.SnapshotCanMiss`, `TtlCache.ReadKeepsPromiseIff`.
- The latency comment says that every broker with a queue gets a sample
  (`internal/task/collect.go:354-358`). A broker without an address does not:
  `Aggregation.AllSampledIff`, `Aggregation.UnknownBrokerSkipped`.
- The signing comment says that every existing field enters the signature
  (`internal/rmqremote/acl.go:40-43`). Three do not: an earlier signature, an empty
  token, and an access key other than the caller's. `Acl.AllFieldsSignedIff` gives
  the exact condition and `Acl.FieldsNotSigned` the three cases;
  `Acl.SignatureCoversSent` shows that what is sent is covered all the same.
- Draining on shutdown needs a worker: if `Start` was never called, queued tasks
  stay (`WorkerRuns.ShutdownDrainsIff`, `WorkerRuns.UnstartedPoolKeepsTask`).

## Model

| member | source | states |
|---|---|---|
| `FastJson.NormalizeKeys` | internal/rmqremote/fastjson.go:56-196 | the loop terminates on every byte sequence and returns `Normalize(b)`, the function the laws are about |
| `FastJson.OneTurn` | internal/rmqremote/fastjson.go:74-195 | one iteration emits and advances as one turn of the specification machine does |
| `FastJson.CopyByte` | internal/rmqremote/fastjson.go:76-169 | string flags, container stack and expectation after a byte that is copied |
| `FastJson.TakeToken` | internal/rmqremote/fastjson.go:112-189 | a captured key, a keyword or a number: what is emitted, where reading goes on, what is expected next |
| `FastJson.CaptureValue` | internal/rmqremote/fastjson.go:202-242 | succeeds exactly when the brackets close, with the shortest such token |
| `FastJson.CaptureByte` | internal/rmqremote/fastjson.go:213-239 | string, escape and depth tracking for one byte |
| `FastJson.ScanRun` | internal/rmqremote/fastjson.go:256-263 | the scan stops where the run of the character class ends |
| `FastJson.ScanNumber` | internal/rmqremote/fastjson.go:244-254 | the separate minus check changes nothing: the token is the whole run of number bytes |
| `FastJson.RunLenIsMaximal` | internal/rmqremote/fastjson.go:244-263 | a scanned run is the longest prefix inside its character class |
| `FastJson.EscapeIsTwoReplacements` | internal/rmqremote/fastjson.go:268-273 | escaping byte by byte equals replacing all backslashes and then all quotes |
| `FastJson.EscapeForString` | internal/rmqremote/fastjson.go:268-273 | the two replacements give the escaped text |
| `FastJsonLaws.UnescapeEscape` | internal/rmqremote/fastjson.go:268-273 | reading an escaped token as a string literal gives back its exact bytes |
| `FastJsonLaws.EscapeUnescape` | internal/rmqremote/fastjson.go:268-273 | and only the escaping of a token reads as that token |
| `FastJsonLaws.SecondRunSimulates` | internal/rmqremote/fastjson.go:74-195 | from any mode, a second run over the output of a first copies it and ends in the same mode, malformed input included |
| `FastJsonLaws.NormalizeIdempotent` | internal/rmqremote/fastjson.go:56-196 | normalising twice is normalising once, for every byte sequence |
| `FastJsonLaws.LengthBounds` | internal/rmqremote/fastjson.go:56-196 | from any mode the output is at least as long as the input and at most three times as long |
| `FastJsonTree.NodeCaptured` | internal/rmqremote/fastjson.go:202-242 | capturing at a composite key takes exactly the text of that key, whatever follows |
| `FastJsonTree.NormalizeIsTreeNorm` | internal/rmqremote/fastjson.go:56-196 | on the text of any document the byte loop is the tree transformation that quotes number, array and object keys |
| `FastJsonTree.NormIsWellFormed` | internal/rmqremote/fastjson.go:51-55 | the result is a well-formed document, and all its keys are strings if and only if no bare key was a keyword |
| `FastJsonTree.StandardUnchanged` | internal/rmqremote/fastjson.go:51-56 | text that is already standard JSON is returned unchanged |
| `FastJsonTree.MissingQuotes` | internal/rmqremote/fastjson.go:170-176 | against full quoting, exactly two bytes are missing per keyword key |
| `FastJsonTree.AllKeysQuotedIff` | internal/rmqremote/fastjson.go:170-176 | every bare key gets its quotes if and only if none of them is a keyword |
| `FastJsonTree.KeywordKeyStaysBare` | internal/rmqremote/fastjson.go:170-176 | the concrete document with key `true` that stays as it is |
| `FastJsonTree.CompositeKeysStayDistinct` | internal/rmqremote/fastjson.go:112-126 | composite keys that become the same string key had the same text |
| `FastJsonTree.KeyTextIs` | internal/rmqremote/fastjson.go:112-189 | what is written for a key is its text and, behind any space, the colon |
| `FastJsonTree.KeysCoincideIff` | internal/rmqremote/fastjson.go:112-189 | two keys of an object get the same text exactly when they are of one sort with one spelling, or one is the string that spells the other's number or composite text; number and composite keys never coincide |
| `Codec.EncodeMaps` | internal/rmqremote/codec.go:387-413 | each field of the map is written once, in some enumeration of its keys |
| `Codec.EncodeHeader` | internal/rmqremote/codec.go:319-385 | the header of the command for that enumeration |
| `Codec.WriteHeader` | internal/rmqremote/codec.go:319-385 | the fixed fields, the remark and the ext fields in their order, language fixed to Go |
| `Codec.Encode` | internal/rmqremote/codec.go:173-215 | for any codec byte: fails exactly when JSON marshalling does, else one frame around the header of the chosen codec and the body; an unknown codec leaves the header empty |
| `Codec.WriteFrame` | internal/rmqremote/codec.go:190-214 | length word truncated to int32, codec byte, 24-bit header length, header and body |
| `Codec.FrameBytes` | internal/rmqremote/codec.go:173-263 | the four writes make up one framed payload |
| `Codec.DecodePairs` | internal/rmqremote/codec.go:415-512 | the ext-field loop is the recursive reader, its short reads and its panic on a negative length included |
| `Codec.ReadBlob` | internal/rmqremote/codec.go:514-521 | a length word and that many bytes; nothing read for a length that is not positive |
| `Codec.DecodeHeader` | internal/rmqremote/codec.go:415-512 | field by field, the reader equals `GetHeader` on every input |
| `Codec.DecodeFrame` | internal/rmqremote/codec.go:217-254 | the frame reader equals `Decode` on every input, errors included |
| `CodecLaws.PairsRoundTrip` | internal/rmqremote/codec.go:387-413 | the ext-field map survives, whatever order it was visited in |
| `CodecLaws.DecodedKeysAreShort` | internal/rmqremote/codec.go:415-512 | no input decodes to a key of 2^15 bytes or more |
| `CodecLaws.LongKeyPanics` | internal/rmqremote/codec.go:387-413 | a key between 2^15 and 2^16 bytes writes a negative length word and the reader panics |
| `CodecLaws.GetPutHeader` | internal/rmqremote/codec.go:319-385 | reading a written header gives its fields and passes the ext bytes on |
| `CodecLaws.DecodePayload` | internal/rmqremote/codec.go:217-254 | with either codec, a header under 2^24 bytes comes back whole with the body behind it |
| `CodecLaws.OversizedHeaderSpills` | internal/rmqremote/codec.go:256-263 | a header of 2^24 bytes or more loses its high length bits and part of it turns up in the body |
| `CodecLaws.RoundTripIff` | internal/rmqremote/codec.go:173-263 | for frames under 2^31 bytes, decoding gives the command back, language Go, if and only if the header is under 2^24 bytes and every key under 2^15 |
| `CodecLaws.ReadFrame` | internal/rmqremote/remote_client.go:152-179 | reading a length word and that many bytes takes one frame off the front |
| `CodecLaws.SplitConcat` | internal/rmqremote/codec.go:173-254 | any concatenation of frames splits back into its payloads |
| `CodecLaws.ConcatInjective` | internal/rmqremote/codec.go:173-254 | one byte stream is the concatenation of at most one list of frames |
| `HealthStore.Collector.AddHealthProduce` | internal/collector/health.go:63-67 | counts one outcome of one cluster and touches nothing else |
| `HealthStore.Collector.AddHealthConsume` | internal/collector/health.go:70-74 | counts one message of one cluster and touches nothing else |
| `HealthStore.Collector.SetHealthStatus` | internal/collector/health.go:77-81 | one gauge is set, all else kept |
| `HealthStore.Collector.SetHealthLatency` | internal/collector/health.go:84-88 | one latency is set, all else kept |
| `HealthStore.Collector.SetHealthLastSuccess` | internal/collector/health.go:91-95 | one time is set, all else kept |
| `HealthStore.Collector.SetHealthLastError` | internal/collector/health.go:99-103 | one error text is set, all else kept |
| `HealthStore.Collector.ClearHealthCluster` | internal/collector/health.go:107-137 | the loops over all six maps leave exactly the entries of other clusters |
| `HealthStore.ClearForgets` | internal/collector/health.go:107-137 | clearing removes that cluster, and no other, from every map |
| `HealthStore.Collector.HealthDetail` | internal/collector/health.go:245-294 | every visible cluster is reported with its checks; overall is ok exactly when there is a cluster and all are ok; the probe time is the latest success |
| `HealthInvariants.StepControl` | internal/health/probe.go:224-437 | every step of every actor keeps the ownership of probes, loops, consumers, callbacks and the evaluation lock |
| `HealthHistory.LastDecides` | internal/health/probe.go:187-196 | if the last recorded time is the largest, it alone decides whether any recorded time is recent |
| `HealthHistory.LastWitnesses` | internal/health/probe.go:187-196 | a recent last time always witnesses a recent recorded time |
| `HealthHistory.StepHistories` | internal/health/probe.go:136-174 | every step keeps each recency field equal to the last of its history, and send times nondecreasing |
| `HealthSamples.NoGhostStep` | internal/health/probe.go:409-437 | no step of any actor leaves a sample of a cluster that is neither probed nor being cleaned up |
| `HealthSamples.CoveredStep` | internal/collector/health.go:245-294 | no step leaves a cluster with only latencies, times or errors |
| `HealthGauges.GaugesStep` | internal/health/probe.go:187-221 | every step keeps the gauges in agreement, partial writes of a running evaluation included |
| `HealthGauges.EvalUninterrupted` | internal/health/probe.go:346-364 | no other actor changes an evaluation under way |
| `HealthTheorems.RunInv` | internal/health/probe.go:136-437 | the joint invariant holds in every state of every run |
| `HealthTheorems.NoGhostSamples` | internal/health/probe.go:409-437 | a cluster with an entry in any of the six maps has a probe or is between delete and clear |
| `HealthTheorems.NothingReappears` | internal/health/probe.go:346-437 | after a removal has returned, nothing of the cluster reappears until it is added again |
| `HealthTheorems.GaugesAgree` | internal/health/probe.go:187-221 | while the evaluation lock is free each cluster has none or all three gauges, overall is produce AND consume, and the consume error is empty exactly when consume is 1 |
| `HealthTheorems.EvaluationRefinesHistory` | internal/health/probe.go:187-196 | produce is written as 1 if and only if some recorded send is in the window; consume as 1 only if some handled callback is, and exactly then when callbacks finish in order; the times counted are on the record of the probe written for |
| `HealthTheorems.EvaluationReadsHistory` | internal/health/probe.go:187-196 | for every evaluation of every run there is an earlier state in which what it judges was the complete history of its probe |
| `HealthOrigin.HistoryGrows` | internal/health/probe.go:136-174 | no step of any actor takes a recorded time back or moves a probe to another cluster |
| `HealthOrigin.RootedStep` | internal/health/probe.go:187-221 | every step keeps the displayed overall gauge tied to the record of the probe in charge of the cluster |
| `HealthSamples.InChargeKept` | internal/health/probe.go:373-437 | the probe in charge of a cluster stays so until the cluster's samples are cleared |
| `HealthTheorems.TimestampSufficesIff` | internal/health/probe.go:136-196 | one timestamp answers for a history at every instant and window if and only if the last time is the largest |
| `HealthOverlap.OverlapHidesMessage` | internal/health/probe.go:161-174 | for every window, a run from the initial state in which consume 0 has been written although a message handled at that instant is on the probe's record |
| `HealthTheorems.OneConsumer` | internal/health/probe.go:250-301 | a probe never has two consumers that are not shut down |
| `HealthTheorems.RemovedProbeIsDead` | internal/health/probe.go:409-437 | after a removal both loops have exited, every consumer is down and no callback runs, even if the cancel landed in the middle of a start |
| `HealthTheorems.ProducerOutlivesLoops` | internal/health/lifecycle.go:138-157 | the shared producer stops only when every produce loop has exited, every consumer is down and no sample is left |
| `HealthTheorems.HealthzComplete` | internal/collector/health.go:245-294 | every cluster with any sample is reported |
| `HealthTheorems.HealthzHonest` | internal/collector/health.go:245-305 | a cluster is ok only if both checks were in the window at the evaluation that last wrote its overall gauge, by times on the record of the probe in charge of that very cluster |
| `HealthTheorems.ReconcileConverges` | internal/health/lifecycle.go:34-77 | between reconciles the probe keys are the last nonempty discovery |
| `HealthTheorems.SurvivorKept` | internal/health/lifecycle.go:34-77 | a cluster that stays keeps its probe object and its counters never decrease |
| `HealthTheorems.DiscoveredSurvives` | internal/health/lifecycle.go:34-77 | a cluster in every discovery is never removed, at no point of any reconcile |
| `HealthTheorems.OnlyDiscoveryEndsIdle` | internal/health/lifecycle.go:117-134 | only a nonempty discovery or the end of the refresh loop leaves the idle state |
| `HealthTheorems.FailedDiscoveriesHarmless` | internal/health/lifecycle.go:34-46 | over any stretch of failed or empty discoveries no probe goes and no counter is reset |
| `ConnPool.StepInv` | internal/rmqremote/remote_client.go:67-199 | every step of callers, servers and the network keeps ownership, clean pooled streams and pool bounds |
| `ConnPool.RunInv` | internal/rmqremote/remote_client.go:67-199 | so do all runs |
| `ConnPool.LengthRead` | internal/rmqremote/remote_client.go:152-179 | a length word that can be read is that of the answer to the outstanding request |
| `ConnPool.BodyRead` | internal/rmqremote/remote_client.go:152-179 | the body read is that answer, and the stream is clean behind it |
| `ConnPool.StepOwned` | internal/rmqremote/remote_client.go:105-179 | every step keeps each request on record with the call that wrote it, and each returned answer with its own call |
| `ConnPool.ResponseIsOwn` | internal/rmqremote/remote_client.go:105-179 | every successful call returns the answer to the request that this very call wrote, without any look at opaque ids |
| `ConnPool.AnswersNotShared` | internal/rmqremote/remote_client.go:105-179 | no two successful calls share an answer, even with equal request bytes |
| `ConnPool.ExclusiveConnection` | internal/rmqremote/remote_client.go:79-96 | a connection has one user at a time and is in no channel meanwhile |
| `ConnPool.PooledConnectionsIdle` | internal/rmqremote/remote_client.go:90-96 | a cached connection is open, cached once, of its address, with nothing unread or unanswered; at most 32 are cached |
| `ConnPool.ClosedForGood` | internal/rmqremote/remote_client.go:105-134 | a closed connection is closed in every later state |
| `ConnPool.FailedNeverPooled` | internal/rmqremote/remote_client.go:105-134 | from the failure of a call on, its connection is in no pool and is closed or about to be closed by that call |
| `ConnPool.ShutdownInv` | internal/rmqremote/remote_client.go:183-199 | a shutdown at any moment, calls in flight or not, keeps ownership, clean pooled streams and pool bounds |
| `ConnPool.ShutdownClosesIff` | internal/rmqremote/remote_client.go:183-199 | afterwards every connection is closed if and only if before none was held by a call and none was in a channel that an earlier shutdown had abandoned |
| `ConnPool.FirstShutdownClosesIff` | internal/rmqremote/remote_client.go:181-199 | for the first shutdown: if and only if no call held a connection |
| `ConnPool.ShutdownLeavesHeldOpen` | internal/rmqremote/remote_client.go:181-199 | a run in which a shutdown leaves the connection of a call in flight open |
| `ConnPool.TakeDialsIff` | internal/rmqremote/remote_client.go:79-86 | a caller never waits: it dials exactly when the channel it looked up for its address holds nothing |
| `ConnPool.InFlightUnbounded` | internal/rmqremote/remote_client.go:28-34 | for every n there is a run with n calls in flight to one address |
| `WorkerPool.SliceQueue.constructor` | internal/task/workerpool.go:45-55 | an empty queue whose capacity is at least 1 |
| `WorkerPool.SliceQueue.ShiftOut` | internal/task/workerpool.go:86-99 | the in-place shift drops the head and keeps the order of the rest |
| `WorkerPool.SliceQueue.Append` | internal/task/workerpool.go:86-99 | appending in place or into a grown array adds one task at the tail |
| `WorkerPool.SliceQueue.Submit` | internal/task/workerpool.go:86-99 | on the backing array, submitting is discard-oldest on the contents |
| `WorkerPool.SliceQueue.Take` | internal/task/workerpool.go:65-82 | takes the head and keeps the rest |
| `WorkerRuns.StepInv` | internal/task/workerpool.go:58-109 | every step keeps the accounting of tasks, the queue's shape and the wakeup bound |
| `WorkerRuns.QueueLaw` | internal/task/workerpool.go:65-99 | the buffer is the newest accepted tasks in submission order, at most the capacity; accepted is the disjoint union of queued, started and dropped; starts and drops follow submission order |
| `WorkerRuns.DropOnlyWhenFull` | internal/task/workerpool.go:86-99 | a drop happens only at a full queue, takes its oldest task and queues the new one last |
| `WorkerRuns.NoLostWakeup` | internal/task/workerpool.go:65-99 | at least min(queued, workers) workers are not waiting, in every state |
| `WorkerRuns.ShutdownDrainsIff` | internal/task/workerpool.go:103-109 | when all workers have exited, every accepted and not dropped task has finished exactly once, if and only if a worker was ever started or nothing submitted |
| `WorkerRuns.UnstartedPoolKeepsTask` | internal/task/workerpool.go:103-109 | the run submit, shut down, without a start, that leaves a task queued |
| `WorkerRuns.StoppedStepsDecrease` | internal/task/workerpool.go:103-109 | after the stop each worker step decreases a measure |
| `WorkerRuns.StoppedNeverStuck` | internal/task/workerpool.go:103-109 | and until all have exited some worker can step |
| `FanOut.ParallelRunsEachOnce` | internal/task/collect.go:60-73 | at most 30 at a time, and on return the function has run exactly once per item |
| `FanOut.ParallelNeverStuck` | internal/task/collect.go:60-73 | until it returns the loop can always go on |
| `FanOut.PassOneComplete` | internal/task/collect.go:264-283 | under every interleaving pass 1 yields each pair of a non-DLQ topic and its group as often as the topics list it |
| `FanOut.PassOneLists` | internal/task/collect.go:264-283 | pass 1 yields a pair exactly when some non-DLQ topic lists it |
| `FanOut.PassTwoSubmitsOnce` | internal/task/collect.go:291-326 | under every interleaving each group seen online is submitted exactly once, and no other |
| `FanOut.OneCycle` | internal/task/collect.go:264-326 | over both passes, whatever their interleavings and the lookups' answers: no group is submitted twice, and a group is submitted if and only if some non-DLQ topic lists it and one of the lookups made for it found it online |
| `Aggregation.TotalDiff` | internal/service/broker_rpc.go:216-226 | the wrapped 64-bit sum of how far the consumer is behind |
| `Aggregation.ConsumerOffsets` | internal/task/collect.go:345-351 | exactly the brokers of the stats, each with the wrapped sum over its queues |
| `Aggregation.PullLag` | internal/task/collect.go:366-387 | the lag of one queue over one or two pulls, or none when the deciding pull failed |
| `Aggregation.Latency` | internal/task/collect.go:359-408 | nothing is published if and only if a deciding pull of a reachable broker failed; otherwise each reachable broker gets max(0, largest lag) |
| `Aggregation.CollectGroup` | internal/task/collect.go:333-408 | unparsable or empty stats publish nothing; otherwise lag, offsets and latency, with lag plus offsets equal to all that is stored |
| `Aggregation.TopicOffsets` | internal/task/collect.go:182-193 | per broker the wrapped sum of maximal offsets and the newest update, never below 0 |
| `Sums.SumPermuted` | internal/service/broker_rpc.go:198-212 | a sum over the entries does not depend on map order |
| `Aggregation.OffsetsConserve` | internal/task/collect.go:345-351 | the per-broker offsets add up to the sum over all queues, modulo 2^64 |
| `Aggregation.DiffBalances` | internal/task/collect.go:337-351 | the published lag and per-broker offsets together equal the broker offsets, though computed from two enumerations |
| `Aggregation.OffsetsIgnoreOrder` | internal/task/collect.go:345-351 | the offsets do not depend on entry order |
| `Aggregation.LatencyIgnoresOrder` | internal/task/collect.go:359-408 | neither whether latency is published nor its values depend on entry order |
| `Aggregation.TopicIgnoresOrder` | internal/task/collect.go:182-193 | topic offsets and times do not depend on entry order |
| `Aggregation.AllSampledIff` | internal/task/collect.go:353-365 | every broker of the stats gets a sample if and only if each has an address and no deciding pull failed |
| `Aggregation.UnknownBrokerSkipped` | internal/task/collect.go:362-365 | the concrete case of a broker that gets none |
| `TtlCache.Cache.Put` | internal/collector/store.go:52-56 | the key's entry is replaced, with its time |
| `TtlCache.Cache.Get` | internal/collector/store.go:58-67 | the value, unless missing or older than the ttl |
| `TtlCache.Cache.Snapshot` | internal/collector/store.go:69-81 | exactly the pairs a read at that clock shows, each key once |
| `TtlCache.Cache.Sweep` | internal/collector/store.go:84-93 | deletes in place exactly the expired entries |
| `TtlCache.AfterHolds` | internal/collector/store.go:52-93 | after any history the cache holds the last write of exactly the keys not swept out |
| `TtlCache.ReadKeepsPromiseIff` | internal/collector/store.go:52-93 | a read shows the last write no older than the ttl if and only if that write was not swept out while live on the reader's clock |
| `TtlCache.GetKeepsPromise` | internal/collector/store.go:58-67 | a get always does, because it reads the clock after the map |
| `TtlCache.SweepsInvisible` | internal/collector/store.go:84-93 | deleting all sweeps from a history changes no get |
| `TtlCache.SnapshotBetween` | internal/collector/store.go:69-81 | a snapshot shows each key as promised at its clock or at its lock |
| `TtlCache.SnapshotCanMiss` | internal/collector/store.go:69-81 | for every ttl, a history in which a snapshot misses a value live at its clock |
| `Acl.Gather` | internal/rmqremote/acl.go:48-63 | for any map order: the fields that enter the signature, and each of their keys once |
| `Acl.SortKeys` | internal/rmqremote/acl.go:64-64 | the keys in strictly ascending order |
| `Acl.OneListing` | internal/rmqremote/acl.go:57-64 | distinct keys have only one ascending order |
| `Acl.Concatenate` | internal/rmqremote/acl.go:66-69 | the text is the values in key order, a function of the contents alone |
| `Acl.Command.Sign` | internal/rmqremote/acl.go:44-76 | the fields afterwards are a function of the fields before, with absent fields taken as empty |
| `Acl.AllFieldsSignedIff` | internal/rmqremote/acl.go:51-63 | every existing field enters the signature with its value if and only if there is no earlier signature, no empty token and no other access key |
| `Acl.FieldsNotSigned` | internal/rmqremote/acl.go:51-63 | the three concrete fields that do not enter |
| `Acl.OldCredentialsIgnored` | internal/rmqremote/acl.go:57-63 | requests that differ only in old signature or access key are signed alike |
| `Acl.SignTwice` | internal/rmqremote/acl.go:44-76 | signing again with the same key pair changes nothing |
| `Acl.SignatureCoversSent` | internal/rmqremote/acl.go:40-76 | joining all sent fields but the signature gives the signed text, even when an empty token was skipped |

## Left out

- The prober, the connection pool and the worker pool's threads are transition systems over values; objects shared between goroutines are not class instances.
- Real time: how long a probe, a drain or a collection cycle takes.
- Liveness of the prober under a fair scheduler; only the worker pool and the parallel loop have progress results.
- A removal waits for a client library's shutdown; a library call that never returns blocks it, and nothing is claimed then.
- Go durations saturate at about 292 years; the cache model subtracts without bound.
- Aggregation.Latency: the answers of brokers are fixed per queue, so the effect of visiting order on what a broker answers is not modelled.
- Acl.SortKeys: an insertion loop stands for the library sort; only its result matters because the keys are distinct.
- CodecLaws.RoundTripIff: frames of 2^31 bytes or more are not covered, because their length word no longer states the length.
- The codec switch `codecType` is a parameter of encoding; nothing in the repository sets it, so the running exporter writes JSON headers and the binary header only serves frames that carry its codec byte.
- Whether two keys of different spelling (such as a `\u` escape) are equal after a JSON decoder has read them.
- HMAC-SHA1, base64, the JSON header codec and JSON decoding of bodies: library code.
- RPC request construction, topic routing, DLQ and broker-runtime collection, YAML, flags, cron, logging, HTTP handlers: input and output.
- Metric name tables and one-line setters over the cache, size parsing and formatting, address deduplication: would only add easy members.
