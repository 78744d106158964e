# Peer response sender of a graph-synchronization exchange

This project models, in Dafny, the per-peer response sender of a peer-to-peer
graph-synchronization protocol (the `peerResponseSender` of the Go package
`peerresponsemanager`). For each remote peer the sender decides three things
about outgoing responses:

- **deduplication**: a block's bytes are attached only when no unfinished
  request to that peer has already traversed that link with its block present,
  as reported by the link tracker's reference count. A traversal whose bytes
  were themselves left out still counts, because the traversal is recorded with
  `hasBlock` (peerresponsesender.go:130), not with `sendBlock`;
- **batching**: records go into a list of response builders, and a new builder
  is opened only when the list is empty or a block of positive size would push
  the last builder past 512 KiB;
- **terminal status**: a request finishes as completed-full,
  completed-partial, with a caller-supplied error status, or paused.

It also drains the builder list, in order, to the transport.

Layout:

- `graphsync.dfy` (module `GraphSync`) holds the shared vocabulary: request
  ids, links, status codes and extensions.
- `linktracker.dfy` (module `LinkTracker`) is an abstract model of the link
  tracker. It is a ledger of the traversals recorded by requests that have not
  finished yet. `BlockRefCount` counts the traversals of a link made with its block
  present. `FinishRequest` drops a request's traversals and reports whether all of
  them had their block.
- `responsebuilder.dfy` (module `ResponseBuilder`) is an abstract model of one
  response builder. It holds append-only records and blocks plus a running block
  total. A builder is empty when it holds no record. Blocks are opaque
  (link, size) pairs.
- `peerresponsesender.dfy` (module `PeerResponseManager`) holds the sender
  itself:
  - the `BlockData` value type;
  - the pure decision `ShouldBeginNewResponse`;
  - the specification function `Batched`, one `buildResponse` step on the
    builder list;
  - the class `PeerResponseSender`, one method per operation;
  - client scenarios that use the class as callers would.

The class keeps these fields:

- the builder list (`builders`);
- the tracker (`tracker`);
- `workPending`, which stands for the one-slot `outgoingWork` channel;
- `sent`, a log of the messages handed to the transport.

Two ghost fields record every record and block queued so far, in order. The
object invariant `Valid` (through `Consistent`) states four things:

- every queued builder keeps the size total consistent;
- no builder has blocks without records (every block is queued together with
  its link record);
- every builder and every sent message respects the batching bound: it may
  exceed 512 KiB only if it holds at most one block of positive size;
- the sent log followed by the queue replays exactly what was enqueued, in
  order.

The closure that `buildResponse` receives is modelled as an `Edit`: an optional
block followed by exactly one record. That is what each of the three callers
passes: `SendExtensionData` (one extension record), `SendResponse` (the block
when it is sent, then the link record) and `finish` (one status record). `Charges` states that the block carried is the one whose size was
charged.

## Model

| member | source | states |
|---|---|---|
| PeerResponseManager.BlockData.Link | responsemanager/peerresponsemanager/peerresponsesender.go:101-103 | the link the response was sent for |
| PeerResponseManager.BlockData.BlockSize | responsemanager/peerresponsemanager/peerresponsesender.go:105-107 | the size of the block's data, whether or not it went on the wire |
| PeerResponseManager.BlockData.BlockSizeOnWire | responsemanager/peerresponsemanager/peerresponsesender.go:109-114 | a deduplicated or absent block costs 0 wire bytes; a sent block costs its full size; never more than BlockSize |
| PeerResponseManager.ShouldBeginNewResponse | responsemanager/peerresponsemanager/peerresponsesender.go:195-203 | an empty list always needs a builder; beside an existing builder, a new one is opened only for a positive-size block that would push the last builder past MaxBlockSize; otherwise the record joins the last builder within the cap |
| PeerResponseManager.ApplyEdit | responsemanager/peerresponsemanager/peerresponsesender.go:133-143 | the edit appends its optional block and then its one record to the builder, and adds exactly the block's size to the running total |
| PeerResponseManager.Batched | responsemanager/peerresponsemanager/peerresponsesender.go:184-193 | at most one fresh builder is appended, exactly when ShouldBeginNewResponse holds; every builder except the last is unchanged; the edit goes to the last builder; that builder is non-empty, so the step always reports work |
| PeerResponseManager.BatchedOpens | responsemanager/peerresponsemanager/peerresponsesender.go:187-191 | when a new builder is opened, the result is the old list followed by the edited fresh builder |
| PeerResponseManager.BatchedJoins | responsemanager/peerresponsemanager/peerresponsesender.go:187-191 | when no builder is opened, the list is non-empty and only its last builder is replaced by its edited version |
| PeerResponseManager.BatchedKeepsBuildersOk | responsemanager/peerresponsemanager/peerresponsesender.go:184-203 | a correctly charged edit keeps every builder consistent, keeps blocks paired with records, and keeps the batching bound |
| PeerResponseManager.BatchedAppends | responsemanager/peerresponsemanager/peerresponsesender.go:184-193 | after one step, the records and blocks of the whole list are the old ones followed by the edit's record and block |
| PeerResponseManager.BatchedKeepsOrder | responsemanager/peerresponsemanager/peerresponsesender.go:184-193 | the wire log followed by the queue still replays everything enqueued, now ending with the edit |
| PeerResponseManager.BatchedKeepsConsistent | responsemanager/peerresponsemanager/peerresponsesender.go:184-203 | one buildResponse step preserves the sender's invariant |
| PeerResponseManager.Messages | responsemanager/peerresponsemanager/peerresponsesender.go:229-245 | the drain produces at most one message per builder, and every message carries at least one record |
| PeerResponseManager.SentAppend | responsemanager/peerresponsemanager/peerresponsesender.go:238 | the wire content of two message sequences sent one after the other is their concatenation |
| PeerResponseManager.MessagesCarryPending | responsemanager/peerresponsemanager/peerresponsesender.go:229-245 | when no builder has blocks without records, the drain's messages carry exactly the queued records and blocks, in list order; the skipped empty builders hold neither |
| PeerResponseManager.MessagesWithinCap | responsemanager/peerresponsemanager/peerresponsesender.go:229-245 | every message built from a queue that respects the batching bound respects it too |
| PeerResponseManager.DrainKeepsConsistent | responsemanager/peerresponsemanager/peerresponsesender.go:223-247 | appending the drain's messages to the wire and emptying the list preserves the sender's invariant |
| PeerResponseManager.PeerResponseSender.constructor | responsemanager/peerresponsemanager/peerresponsesender.go:65-75 | a new sender has no builders, nothing sent, no pending work and an empty tracker |
| PeerResponseManager.PeerResponseSender.SignalWork | responsemanager/peerresponsemanager/peerresponsesender.go:205-210 | after any number of signals, exactly one wake-up is pending |
| PeerResponseManager.PeerResponseSender.BuildResponse | responsemanager/peerresponsemanager/peerresponsesender.go:184-193 | the builder list and the result are those of Batched; the edit is enqueued last; tracker, pending flag and wire are untouched; the invariant is kept |
| PeerResponseManager.PeerResponseSender.SendResponse | responsemanager/peerresponsemanager/peerresponsesender.go:120-147 | sendBlock holds exactly when data is present and the tracker's count for the link was 0 before the call; BlockSize is len(data); BlockSizeOnWire is BlockSize when sent and 0 otherwise; the traversal is recorded with hasBlock = data present; the block, when sent, is queued in the same builder as the link record; work is signalled |
| PeerResponseManager.PeerResponseSender.SendExtensionData | responsemanager/peerresponsemanager/peerresponsesender.go:87-93 | one extension record is queued on the last builder, and no builder is opened while one exists; tracker untouched; work is signalled |
| PeerResponseManager.PeerResponseSender.FinishRequest | responsemanager/peerresponsemanager/peerresponsesender.go:150-162 | returns RequestCompletedFull exactly when every traversal recorded for the request had its block, RequestCompletedPartial otherwise; the request's traversals are dropped; the same code is queued |
| PeerResponseManager.PeerResponseSender.FinishWithError | responsemanager/peerresponsemanager/peerresponsesender.go:165-171 | the request's traversals are dropped and exactly the supplied status is queued |
| PeerResponseManager.PeerResponseSender.PauseRequest | responsemanager/peerresponsemanager/peerresponsesender.go:173-175 | RequestPaused is queued and the tracker is untouched |
| PeerResponseManager.PeerResponseSender.Finish | responsemanager/peerresponsemanager/peerresponsesender.go:177-183 | queues one status record without opening a builder while one exists, and signals work |
| PeerResponseManager.PeerResponseSender.SendResponseMessages | responsemanager/peerresponsemanager/peerresponsesender.go:223-247 | the builder list is left empty, and the wire log grows by one message per non-empty builder, in list order; tracker and pending flag untouched; the invariant is kept |
| PeerResponseManager.PeerResponseSender.ProcessOutgoingWork | responsemanager/peerresponsemanager/peerresponsesender.go:212-221 | a pending wake-up is consumed and drains the builders; without one nothing changes |
| PeerResponseManager.DeduplicatesAcrossRequests | responsemanager/peerresponsemanager/peerresponsesender.go:125-130 | when two requests traverse the same link, only the first carries the block on the wire; the second reports the block's size with 0 wire bytes |
| PeerResponseManager.ResendsAfterFinish | responsemanager/peerresponsemanager/peerresponsesender.go:150-162 | once the only request that traversed a link with its block present has finished (full), the same block is sent again to a later request |
| PeerResponseManager.MissingBlockIsPartial | responsemanager/peerresponsemanager/peerresponsesender.go:150-162 | a request that traversed a link without its block finishes as RequestCompletedPartial |
| PeerResponseManager.MissingBlockMakesPartial | responsemanager/peerresponsemanager/peerresponsesender.go:120-162 | from any valid sender state, SendResponse without data followed by FinishRequest for the same request returns RequestCompletedPartial, and the invariant is kept |
| PeerResponseManager.DedupedTraversalStillHolds | responsemanager/peerresponsemanager/peerresponsesender.go:125-162 | request A sends a link's block, request B is deduplicated, A finishes; a request C is still deduplicated because B's traversal with the block present remains open, and C still reports the block's size |
| PeerResponseManager.TwoBlocksOverflow | responsemanager/peerresponsemanager/peerresponsesender.go:195-203 | two blocks whose sizes together exceed the cap, the second positive, are drained as two messages, one block each |
| PeerResponseManager.TwoBlocksShare | responsemanager/peerresponsemanager/peerresponsesender.go:195-203 | two blocks whose sizes together fit the cap are drained as one message holding both, in order |
| PeerResponseManager.OverflowOpensNewMessage | responsemanager/peerresponsemanager/peerresponsesender.go:184-203 | through the class: two overflowing blocks reach the wire in two messages |
| PeerResponseManager.SmallBlocksShareMessage | responsemanager/peerresponsemanager/peerresponsesender.go:184-203 | through the class: two blocks within the cap reach the wire in one message |
| LinkTracker.Tracker.BlockRefCount | responsemanager/peerresponsemanager/peerresponsesender.go:127 | the count is 0 exactly when no unfinished traversal of the link was made with its block present |
| LinkTracker.Tracker.RecordLinkTraversal | responsemanager/peerresponsemanager/peerresponsesender.go:130 | the new traversal, with its hasBlock flag, is recorded and nothing else is added; recording with a block makes the link's count positive; counts of other links never change; recording without a block changes no count; earlier traversals are kept |
| LinkTracker.Tracker.FinishRequest | responsemanager/peerresponsemanager/peerresponsesender.go:152 | the answer is true exactly when every traversal of the request had its block; afterwards exactly the other requests' traversals remain |
| LinkTracker.FinishReleasesBlock | responsemanager/peerresponsemanager/peerresponsesender.go:166-167 | when only the finishing request traversed a link with its block present, the link's count drops to 0 |
| LinkTracker.FinishKeepsOthers | responsemanager/peerresponsemanager/peerresponsesender.go:166-167 | finishing one request leaves a link's count positive while another request's traversal of it with the block present is still open |
| LinkTracker.MissingTraversalIsPartial | responsemanager/peerresponsemanager/peerresponsesender.go:130-158 | from any tracker, a request that records a traversal without its block and then finishes gets the answer "not complete" |
| LinkTracker.New | responsemanager/peerresponsemanager/peerresponsesender.go:73 | a fresh tracker reports 0 for every link |
| ResponseBuilder.New | responsemanager/peerresponsemanager/peerresponsesender.go:188 | a fresh builder is empty, holds no blocks and has block size 0 |
| ResponseBuilder.Builder.Empty | responsemanager/peerresponsemanager/peerresponsesender.go:192 | a builder is empty exactly when it holds no record |
| ResponseBuilder.Builder.BlockSize | responsemanager/peerresponsemanager/peerresponsesender.go:202 | the running total of the attached blocks' sizes that the batching decision compares against the cap |
| ResponseBuilder.Builder.AddBlock | responsemanager/peerresponsemanager/peerresponsesender.go:140 | the block is appended, the records are unchanged, the block size grows by the block's size, and size consistency is kept |
| ResponseBuilder.Builder.AddLink | responsemanager/peerresponsemanager/peerresponsesender.go:142 | one link-presence record carrying the hasBlock flag is appended; the blocks and size are unchanged |
| ResponseBuilder.Builder.AddResponseCode | responsemanager/peerresponsemanager/peerresponsesender.go:179 | one status record is appended; the blocks and size are unchanged |
| ResponseBuilder.Builder.AddExtensionData | responsemanager/peerresponsemanager/peerresponsesender.go:89 | one extension record is appended; the blocks and size are unchanged |

Two behaviours of the code shape the model:

- The traversal is recorded with `hasBlock`
  (responsemanager/peerresponsemanager/peerresponsesender.go:130), so a
  traversal whose block was deduplicated still keeps the link's count positive.
  The model records `hasBlock`; `DedupedTraversalStillHolds` shows the effect.
- Work is signalled whenever the last builder is not empty after the edit
  (responsemanager/peerresponsemanager/peerresponsesender.go:88-92, :143-145,
  :180-182, :192). In the model's abstract builder every record, an extension
  included, makes a builder non-empty, and every edit adds one record, so in
  the model work is always signalled; `Batched` proves this.

## Left out

- The `run` goroutine's loop, its `select` on the context, and the wait on the transport's completion signal. These are concurrency and backpressure; the drain is modelled as one sequential method that appends to the `sent` log, and one turn of the loop as `ProcessOutgoingWork`.
- `Startup` and `Shutdown`: they only start and cancel the goroutine.
- The read-write mutexes: every method is treated as atomic.
- The block's bytes, `blocks.NewBlockWithCid`, the CID type assertion and the logging on a mismatch: a block is an opaque (link, size) pair.
- `ResponseBuilder.Builder.Build`: what the real builder's `Build` fails on, and its grouping of records into per-request wire responses, are not modelled. A message is the builder's records and blocks, in order, and building never fails. The invariant shows that the builders the sender queues never hold blocks without records.
- `ResponseBuilder.Builder.Empty`: whether the real builder counts a builder holding only extension data as non-empty is not modelled; the abstract builder counts every record, extensions included.
- The internals of the link tracker and of the response builder packages: LinkTracker and ResponseBuilder give only the abstract behaviour the sender relies on. The tracker counts open traversals made with the block present, not distinct requests. Only whether the count is zero is read, and that is the same under both.
- Sizes are unbounded naturals: the 64-bit unsigned wrap-around of `BlockSize() + blkSize` is not modelled, because it needs more than 2^64 bytes of queued blocks.
- The identity of the peer and the handler the messages are sent through: the model has one sender and one transport log.
- The numeric wire values of the status codes: they are defined outside the sender, and the sender only compares and forwards them.
- requestmanager/requestmanager_test.go: it tests a request engine whose implementation is not part of this model.
