/** The per-peer response sender: it leaves out a block's bytes when an
    unfinished request to the peer has already traversed that link with its
    block present, batches the records of many requests into size-bounded builders, picks
    each request's terminal status, and drains the builders, in order, to the
    transport. */
module PeerResponseManager {
  import opened GraphSync
  import LT = LinkTracker
  import opened ResponseBuilder

  /** Maximum total block bytes batched into one outgoing response (512 KiB). */
  const MaxBlockSize: nat := 512 * 1024

  /** What `SendResponse` reports about one traversed link. */
  datatype BlockData = BlockData(link: Link, blockSize: nat, sendBlock: bool) {

    function Link(): (l: GraphSync.Link)
      ensures l == link
    {
      link
    }

    /** Size of the block's data, whether or not it goes on the wire. */
    function BlockSize(): (n: nat)
      ensures n == blockSize
    {
      blockSize
    }

    /** Bytes this block adds to the wire: all of it, or nothing when it is
        deduplicated or absent. */
    function BlockSizeOnWire(): (n: nat)
      ensures n <= BlockSize()
      ensures n == 0 || n == BlockSize()
      ensures sendBlock ==> n == BlockSize()
      ensures !sendBlock ==> n == 0
    {
      if !sendBlock then 0 else blockSize
    }
  }

  /** Whether a record charged `blkSize` block bytes needs a fresh builder. */
  function ShouldBeginNewResponse(builders: seq<Builder>, blkSize: nat): (r: bool)
    // there must be a builder to write into
    ensures builders == [] ==> r
    // a new builder is opened beside an existing one only for a block that would overflow it
    ensures r && builders != [] ==> blkSize > 0 && builders[|builders| - 1].BlockSize() + blkSize > MaxBlockSize
    // joining the last builder keeps a positive-size block within the cap
    ensures !r ==> builders != [] && (blkSize == 0 || builders[|builders| - 1].BlockSize() + blkSize <= MaxBlockSize)
  {
    if |builders| == 0 then true
    else if blkSize == 0 then false
    else builders[|builders| - 1].BlockSize() + blkSize > MaxBlockSize
  }

  /** The change one caller makes to the chosen builder: an optional block
      followed by exactly one record. */
  datatype Edit = Edit(block: Option<Block>, record: Record)

  function EditBlocks(e: Edit): seq<Block> {
    if e.block.Some? then [e.block.value] else []
  }

  /** The block bytes an edit adds are the ones it was charged for. */
  predicate Charges(e: Edit, blkSize: nat) {
    if e.block.Some? then e.block.value.size == blkSize else blkSize == 0
  }

  function ApplyEdit(b: Builder, e: Edit): (r: Builder)
    ensures r.records == b.records + [e.record]
    ensures r.blocks == b.blocks + EditBlocks(e)
    ensures r.BlockSize() == b.BlockSize() + (if e.block.Some? then e.block.value.size else 0)
    ensures b.Valid() ==> r.Valid()
  {
    var withBlock := if e.block.Some? then b.AddBlock(e.block.value) else b;
    match e.record
    case ResponseCode(id, status) => withBlock.AddResponseCode(id, status)
    case LinkPresence(id, link, present) => withBlock.AddLink(id, link, present)
    case Extension(id, ext) => withBlock.AddExtensionData(id, ext)
  }

  /** The builder list after one `buildResponse` step, and what it returns. */
  function Batched(bs: seq<Builder>, blkSize: nat, e: Edit): (r: (seq<Builder>, bool))
    ensures |bs| <= |r.0| <= |bs| + 1 && |r.0| > 0
    ensures |r.0| == |bs| + 1 <==> ShouldBeginNewResponse(bs, blkSize)
    // every builder but the last is left as it was
    ensures forall i :: 0 <= i < |r.0| - 1 ==> r.0[i] == bs[i]
    // the edit goes to the last builder, freshly opened or existing
    ensures r.0[|r.0| - 1] == ApplyEdit(if |r.0| > |bs| then New() else bs[|bs| - 1], e)
    // that builder is never empty afterwards, so there is always work to signal
    ensures r.1 && !r.0[|r.0| - 1].Empty()
  {
    var grown := if ShouldBeginNewResponse(bs, blkSize) then bs + [New()] else bs;
    var last := ApplyEdit(grown[|grown| - 1], e);
    (grown[|grown| - 1 := last], !last.Empty())
  }

  /** When a new builder is opened, the edit lands in it, after all the others. */
  lemma BatchedOpens(bs: seq<Builder>, blkSize: nat, e: Edit)
    requires ShouldBeginNewResponse(bs, blkSize)
    ensures Batched(bs, blkSize, e).0 == bs + [ApplyEdit(New(), e)]
  {
    var r := Batched(bs, blkSize, e).0;
    assert |r| == |bs| + 1;
    assert forall i :: 0 <= i < |bs| ==> r[i] == bs[i];
  }

  /** Otherwise the edit replaces the last builder by its edited version. */
  lemma BatchedJoins(bs: seq<Builder>, blkSize: nat, e: Edit)
    requires !ShouldBeginNewResponse(bs, blkSize)
    ensures bs != [] && Batched(bs, blkSize, e).0 == bs[..|bs| - 1] + [ApplyEdit(bs[|bs| - 1], e)]
  {
    var r := Batched(bs, blkSize, e).0;
    assert |r| == |bs|;
    assert forall i :: 0 <= i < |bs| - 1 ==> r[i] == bs[i];
  }

  /** Records of the builders, in list order. */
  function PendingRecords(bs: seq<Builder>): seq<Record> {
    if bs == [] then [] else PendingRecords(bs[..|bs| - 1]) + bs[|bs| - 1].records
  }

  /** Blocks of the builders, in list order. */
  function PendingBlocks(bs: seq<Builder>): seq<Block> {
    if bs == [] then [] else PendingBlocks(bs[..|bs| - 1]) + bs[|bs| - 1].blocks
  }

  /** Records carried by the messages, in order. */
  function SentRecords(ms: seq<Message>): seq<Record> {
    if ms == [] then [] else SentRecords(ms[..|ms| - 1]) + ms[|ms| - 1].responses
  }

  /** Blocks carried by the messages, in order. */
  function SentBlocks(ms: seq<Message>): seq<Block> {
    if ms == [] then [] else SentBlocks(ms[..|ms| - 1]) + ms[|ms| - 1].blocks
  }

  /** The messages a drain of `bs` hands to the transport: one per non-empty
      builder, in list order. */
  function Messages(bs: seq<Builder>): (ms: seq<Message>)
    ensures |ms| <= |bs|
    ensures forall i :: 0 <= i < |ms| ==> ms[i].responses != []
  {
    if bs == [] then []
    else
      var rest := Messages(bs[..|bs| - 1]);
      var last := bs[|bs| - 1];
      if last.Empty() then rest else rest + [last.Build()]
  }

  /** Invariant of every builder the sender queues: a consistent size total,
      no blocks without records (every block is queued with its link record),
      and the batching bound, which only a builder with at most one
      positive-size block may exceed. */
  ghost predicate BuilderOk(b: Builder) {
    && b.Valid()
    && (b.blocks != [] ==> b.records != [])
    && (b.BlockSize() <= MaxBlockSize || PositiveBlocks(b.blocks) <= 1)
  }

  /** The batching bound on the wire. */
  ghost predicate MessageWithinCap(m: Message) {
    SumSizes(m.blocks) <= MaxBlockSize || PositiveBlocks(m.blocks) <= 1
  }

  lemma BatchedKeepsBuildersOk(bs: seq<Builder>, blkSize: nat, e: Edit)
    requires forall i :: 0 <= i < |bs| ==> BuilderOk(bs[i])
    requires Charges(e, blkSize)
    ensures forall i :: 0 <= i < |Batched(bs, blkSize, e).0| ==> BuilderOk(Batched(bs, blkSize, e).0[i])
  {
    var r := Batched(bs, blkSize, e).0;
    var base := if |r| > |bs| then New() else bs[|bs| - 1];
    if e.block.Some? {
      SumSizesAppend(base.blocks, e.block.value);
    }
    assert BuilderOk(r[|r| - 1]);
  }

  lemma BatchedAppends(bs: seq<Builder>, blkSize: nat, e: Edit)
    ensures PendingRecords(Batched(bs, blkSize, e).0) == PendingRecords(bs) + [e.record]
    ensures PendingBlocks(Batched(bs, blkSize, e).0) == PendingBlocks(bs) + EditBlocks(e)
  {
    var r := Batched(bs, blkSize, e).0;
    var n := |r| - 1;
    assert r == r[..n] + [r[n]];
    if |r| > |bs| {
      assert r[..n] == bs;
    } else {
      assert r[..n] == bs[..n];
    }
  }

  lemma {:induction false} SentAppend(a: seq<Message>, b: seq<Message>)
    ensures SentRecords(a + b) == SentRecords(a) + SentRecords(b)
    ensures SentBlocks(a + b) == SentBlocks(a) + SentBlocks(b)
  {
    if b != [] {
      var b' := b[..|b| - 1];
      assert (a + b)[..|a + b| - 1] == a + b';
      SentAppend(a, b');
    } else {
      assert a + b == a;
    }
  }

  /** Draining hands every queued record and block to the transport, in order:
      the builders it skips hold neither. */
  lemma {:induction false} MessagesCarryPending(bs: seq<Builder>)
    requires forall i :: 0 <= i < |bs| ==> (bs[i].blocks != [] ==> bs[i].records != [])
    ensures SentRecords(Messages(bs)) == PendingRecords(bs)
    ensures SentBlocks(Messages(bs)) == PendingBlocks(bs)
  {
    if bs != [] {
      var prefix := bs[..|bs| - 1];
      MessagesCarryPending(prefix);
      var rest := Messages(prefix);
      var last := bs[|bs| - 1];
      if !last.Empty() {
        assert (rest + [last.Build()])[..|rest|] == rest;
      }
    }
  }

  /** Every message a drain produces keeps to the batching bound. */
  lemma {:induction false} MessagesWithinCap(bs: seq<Builder>)
    requires forall i :: 0 <= i < |bs| ==> BuilderOk(bs[i])
    ensures forall i :: 0 <= i < |Messages(bs)| ==> MessageWithinCap(Messages(bs)[i])
  {
    if bs != [] {
      MessagesWithinCap(bs[..|bs| - 1]);
    }
  }

  /** The sender's invariant over the wire log, the builder list and
      everything queued so far. */
  ghost predicate Consistent(sent: seq<Message>, bs: seq<Builder>, enqueued: seq<Record>, enqueuedBlocks: seq<Block>) {
    && (forall i :: 0 <= i < |bs| ==> BuilderOk(bs[i]))
    && (forall i :: 0 <= i < |sent| ==> sent[i].responses != [] && MessageWithinCap(sent[i]))
    // order: the wire, then the queue, replays exactly what was enqueued
    && SentRecords(sent) + PendingRecords(bs) == enqueued
    && SentBlocks(sent) + PendingBlocks(bs) == enqueuedBlocks
  }

  /** Queueing an edit extends what was enqueued by the edit's record and block. */
  lemma BatchedKeepsOrder(sent: seq<Message>, bs: seq<Builder>, enqueued: seq<Record>,
                          enqueuedBlocks: seq<Block>, blkSize: nat, e: Edit)
    requires SentRecords(sent) + PendingRecords(bs) == enqueued
    requires SentBlocks(sent) + PendingBlocks(bs) == enqueuedBlocks
    ensures SentRecords(sent) + PendingRecords(Batched(bs, blkSize, e).0) == enqueued + [e.record]
    ensures SentBlocks(sent) + PendingBlocks(Batched(bs, blkSize, e).0) == enqueuedBlocks + EditBlocks(e)
  {
    BatchedAppends(bs, blkSize, e);
    var sr, pr := SentRecords(sent), PendingRecords(bs);
    assert sr + (pr + [e.record]) == (sr + pr) + [e.record];
    var sb, pb := SentBlocks(sent), PendingBlocks(bs);
    assert sb + (pb + EditBlocks(e)) == (sb + pb) + EditBlocks(e);
  }

  /** Applying a correctly charged edit keeps the sender's invariant, with the
      edit's record and block queued last. */
  lemma BatchedKeepsConsistent(sent: seq<Message>, bs: seq<Builder>, enqueued: seq<Record>,
                               enqueuedBlocks: seq<Block>, blkSize: nat, e: Edit)
    requires Consistent(sent, bs, enqueued, enqueuedBlocks)
    requires Charges(e, blkSize)
    ensures Consistent(sent, Batched(bs, blkSize, e).0, enqueued + [e.record], enqueuedBlocks + EditBlocks(e))
  {
    BatchedKeepsBuildersOk(bs, blkSize, e);
    BatchedKeepsOrder(sent, bs, enqueued, enqueuedBlocks, blkSize, e);
  }

  /** Draining the whole builder list keeps the sender's invariant. */
  lemma DrainKeepsConsistent(sent: seq<Message>, bs: seq<Builder>, enqueued: seq<Record>, enqueuedBlocks: seq<Block>)
    requires Consistent(sent, bs, enqueued, enqueuedBlocks)
    ensures Consistent(sent + Messages(bs), [], enqueued, enqueuedBlocks)
  {
    MessagesCarryPending(bs);
    MessagesWithinCap(bs);
    SentAppend(sent, Messages(bs));
    var all := sent + Messages(bs);
    forall i | 0 <= i < |all| ensures all[i].responses != [] && MessageWithinCap(all[i]) {
      if i >= |sent| {
        assert all[i] == Messages(bs)[i - |sent|];
      }
    }
  }

  class PeerResponseSender {
    var builders: seq<Builder>
    var tracker: LT.Tracker
    /** The one-slot wake-up of the send loop. */
    var workPending: bool
    /** The messages handed to the transport, oldest first. */
    var sent: seq<Message>
    /** Every record and block ever queued, in the order queued. */
    ghost var enqueued: seq<Record>
    ghost var enqueuedBlocks: seq<Block>

    ghost predicate Valid()
      reads this
    {
      Consistent(sent, builders, enqueued, enqueuedBlocks)
    }

    constructor ()
      ensures Valid()
      ensures builders == [] && sent == [] && !workPending && tracker == LT.New()
      ensures enqueued == [] && enqueuedBlocks == []
    {
      builders := [];
      tracker := LT.New();
      workPending := false;
      sent := [];
      enqueued := [];
      enqueuedBlocks := [];
    }

    /** Wakes the send loop; repeated signals leave one pending wake-up. */
    method SignalWork()
      modifies this`workPending
      ensures workPending
    {
      workPending := true;
    }

    /** Opens a new builder when needed and applies `e` to the last one. */
    method BuildResponse(blkSize: nat, e: Edit) returns (nonEmpty: bool)
      requires Valid()
      requires Charges(e, blkSize)
      modifies this
      ensures Valid()
      ensures (builders, nonEmpty) == Batched(old(builders), blkSize, e)
      ensures enqueued == old(enqueued) + [e.record]
      ensures enqueuedBlocks == old(enqueuedBlocks) + EditBlocks(e)
      ensures tracker == old(tracker) && workPending == old(workPending) && sent == old(sent)
    {
      ghost var before := builders;
      BatchedKeepsConsistent(sent, before, enqueued, enqueuedBlocks, blkSize, e);
      var grown := builders;
      if ShouldBeginNewResponse(builders, blkSize) {
        grown := grown + [New()];
      }
      var last := ApplyEdit(grown[|grown| - 1], e);
      nonEmpty := !last.Empty();
      assert (grown[|grown| - 1 := last], nonEmpty) == Batched(before, blkSize, e);
      builders := grown[|grown| - 1 := last];
      enqueued := enqueued + [e.record];
      enqueuedBlocks := enqueuedBlocks + EditBlocks(e);
    }

    /** Queues `link` for `requestID`, with its block when `data` is present
        and no unfinished request to this peer has traversed that link with its
        block present. */
    method SendResponse(requestID: RequestID, link: Link, data: Option<seq<byte>>) returns (bd: BlockData)
      requires Valid()
      modifies this
      ensures Valid()
      ensures bd.Link() == link
      ensures bd.BlockSize() == (if data.Some? then |data.value| else 0)
      ensures bd.sendBlock <==> data.Some? && old(tracker).BlockRefCount(link) == 0
      ensures bd.BlockSizeOnWire() == (if bd.sendBlock then bd.BlockSize() else 0)
      ensures tracker == old(tracker).RecordLinkTraversal(requestID, link, data.Some?)
      ensures builders == Batched(old(builders), bd.BlockSizeOnWire(),
        Edit(if bd.sendBlock then Some(Block(link, bd.BlockSize())) else None,
             LinkPresence(requestID, link, data.Some?))).0
      ensures enqueued == old(enqueued) + [LinkPresence(requestID, link, data.Some?)]
      ensures enqueuedBlocks == old(enqueuedBlocks) + (if bd.sendBlock then [Block(link, bd.BlockSize())] else [])
      ensures workPending && sent == old(sent)
    {
      var hasBlock := data.Some?;
      var sendBlock := hasBlock && tracker.BlockRefCount(link) == 0;
      var blkSize := if hasBlock then |data.value| else 0;
      bd := BlockData(link, blkSize, sendBlock);
      tracker := tracker.RecordLinkTraversal(requestID, link, hasBlock);
      var edit := Edit(if sendBlock then Some(Block(link, blkSize)) else None, LinkPresence(requestID, link, hasBlock));
      var nonEmpty := BuildResponse(bd.BlockSizeOnWire(), edit);
      if nonEmpty {
        SignalWork();
      }
    }

    /** Queues an extension record for `requestID`. */
    method SendExtensionData(requestID: RequestID, extension: ExtensionData)
      requires Valid()
      modifies this
      ensures Valid()
      ensures builders == Batched(old(builders), 0, Edit(None, Extension(requestID, extension))).0
      ensures |old(builders)| > 0 ==> |builders| == |old(builders)|
      ensures enqueued == old(enqueued) + [Extension(requestID, extension)]
      ensures enqueuedBlocks == old(enqueuedBlocks)
      ensures tracker == old(tracker) && workPending && sent == old(sent)
    {
      var nonEmpty := BuildResponse(0, Edit(None, Extension(requestID, extension)));
      if nonEmpty {
        SignalWork();
      }
    }

    /** Completes `requestID`: fully when every link it traversed had its
        block, partially otherwise. */
    method FinishRequest(requestID: RequestID) returns (status: ResponseStatusCode)
      requires Valid()
      modifies this
      ensures Valid()
      ensures status == RequestCompletedFull || status == RequestCompletedPartial
      ensures status == RequestCompletedFull <==>
        forall i :: 0 <= i < |old(tracker).open| && old(tracker).open[i].requestID == requestID ==> old(tracker).open[i].blockPresent
      ensures tracker == old(tracker).FinishRequest(requestID).0
      ensures builders == Batched(old(builders), 0, Edit(None, ResponseCode(requestID, status))).0
      ensures |old(builders)| > 0 ==> |builders| == |old(builders)|
      ensures enqueued == old(enqueued) + [ResponseCode(requestID, status)]
      ensures enqueuedBlocks == old(enqueuedBlocks)
      ensures workPending && sent == old(sent)
    {
      var result := tracker.FinishRequest(requestID);
      tracker := result.0;
      if result.1 {
        status := RequestCompletedFull;
      } else {
        status := RequestCompletedPartial;
      }
      Finish(requestID, status);
    }

    /** Terminates `requestID` with the caller's `status`, forgetting its
        traversals without consulting them. */
    method FinishWithError(requestID: RequestID, status: ResponseStatusCode)
      requires Valid()
      modifies this
      ensures Valid()
      ensures tracker == old(tracker).FinishRequest(requestID).0
      ensures builders == Batched(old(builders), 0, Edit(None, ResponseCode(requestID, status))).0
      ensures |old(builders)| > 0 ==> |builders| == |old(builders)|
      ensures enqueued == old(enqueued) + [ResponseCode(requestID, status)]
      ensures enqueuedBlocks == old(enqueuedBlocks)
      ensures workPending && sent == old(sent)
    {
      tracker := tracker.FinishRequest(requestID).0;
      Finish(requestID, status);
    }

    /** Reports `requestID` as paused; its traversals stay recorded. */
    method PauseRequest(requestID: RequestID)
      requires Valid()
      modifies this
      ensures Valid()
      ensures tracker == old(tracker)
      ensures builders == Batched(old(builders), 0, Edit(None, ResponseCode(requestID, RequestPaused))).0
      ensures |old(builders)| > 0 ==> |builders| == |old(builders)|
      ensures enqueued == old(enqueued) + [ResponseCode(requestID, RequestPaused)]
      ensures enqueuedBlocks == old(enqueuedBlocks)
      ensures workPending && sent == old(sent)
    {
      Finish(requestID, RequestPaused);
    }

    method Finish(requestID: RequestID, status: ResponseStatusCode)
      requires Valid()
      modifies this
      ensures Valid()
      ensures tracker == old(tracker)
      ensures builders == Batched(old(builders), 0, Edit(None, ResponseCode(requestID, status))).0
      ensures |old(builders)| > 0 ==> |builders| == |old(builders)|
      ensures enqueued == old(enqueued) + [ResponseCode(requestID, status)]
      ensures enqueuedBlocks == old(enqueuedBlocks)
      ensures workPending && sent == old(sent)
    {
      var nonEmpty := BuildResponse(0, Edit(None, ResponseCode(requestID, status)));
      if nonEmpty {
        SignalWork();
      }
    }

    /** Takes the whole builder list and sends one message per non-empty
        builder, in list order. */
    method SendResponseMessages()
      requires Valid()
      modifies this
      ensures Valid()
      ensures builders == [] && sent == old(sent) + Messages(old(builders))
      ensures tracker == old(tracker) && workPending == old(workPending)
      ensures enqueued == old(enqueued) && enqueuedBlocks == old(enqueuedBlocks)
    {
      var bs := builders;
      builders := [];
      var i := 0;
      while i < |bs|
        invariant 0 <= i <= |bs|
        invariant sent == old(sent) + Messages(bs[..i])
        invariant builders == [] && tracker == old(tracker) && workPending == old(workPending)
        invariant enqueued == old(enqueued) && enqueuedBlocks == old(enqueuedBlocks)
      {
        assert bs[..i + 1][..i] == bs[..i];
        if !bs[i].Empty() {
          sent := sent + [bs[i].Build()];
        }
        i := i + 1;
      }
      assert bs[..i] == bs;
      DrainKeepsConsistent(old(sent), bs, enqueued, enqueuedBlocks);
    }

    /** One turn of the send loop: a pending wake-up is consumed and the
        builders are drained. */
    method ProcessOutgoingWork()
      requires Valid()
      modifies this
      ensures Valid()
      ensures !workPending && tracker == old(tracker)
      ensures old(workPending) ==> builders == [] && sent == old(sent) + Messages(old(builders))
      ensures !old(workPending) ==> builders == old(builders) && sent == old(sent)
    {
      if workPending {
        workPending := false;
        SendResponseMessages();
      }
    }
  }

  /** Two requests traverse the same link: only the first carries the block. */
  method DeduplicatesAcrossRequests(r1: RequestID, r2: RequestID, link: Link, data: seq<byte>)
    returns (first: BlockData, second: BlockData)
    ensures first.BlockSizeOnWire() == |data| && first.BlockSize() == |data|
    ensures second.BlockSizeOnWire() == 0 && second.BlockSize() == |data|
  {
    var s := new PeerResponseSender();
    first := s.SendResponse(r1, link, Some(data));
    second := s.SendResponse(r2, link, Some(data));
  }

  /** Once the only request that traversed a link with its block present finishes, the block is sent again. */
  method ResendsAfterFinish(r1: RequestID, r2: RequestID, link: Link, data: seq<byte>)
    returns (status: ResponseStatusCode, again: BlockData)
    ensures status == RequestCompletedFull
    ensures again.sendBlock && again.BlockSizeOnWire() == |data|
  {
    var s := new PeerResponseSender();
    var first := s.SendResponse(r1, link, Some(data));
    ghost var held := s.tracker;
    assert held.open == [LT.Traversal(r1, link, true)];
    LT.FinishReleasesBlock(held, r1, link);
    status := s.FinishRequest(r1);
    again := s.SendResponse(r2, link, Some(data));
  }

  /** A link traversed without its block makes the request partial. */
  method MissingBlockIsPartial(r: RequestID, present: Link, missing: Link, data: seq<byte>)
    returns (status: ResponseStatusCode)
    ensures status == RequestCompletedPartial
  {
    var s := new PeerResponseSender();
    var a := s.SendResponse(r, present, Some(data));
    var b := s.SendResponse(r, missing, None);
    ghost var before := s.tracker;
    assert before.open[1].requestID == r && !before.open[1].blockPresent;
    status := s.FinishRequest(r);
  }

  /** The builder list after queueing block `l1` of size `n1` and then block
      `l2` of size `n2` for one request, starting from no builders. */
  function TwoBlocks(r: RequestID, l1: Link, n1: nat, l2: Link, n2: nat): seq<Builder> {
    var first := Batched([], n1, Edit(Some(Block(l1, n1)), LinkPresence(r, l1, true))).0;
    Batched(first, n2, Edit(Some(Block(l2, n2)), LinkPresence(r, l2, true))).0
  }

  /** Blocks that together overflow the cap end up in two messages. */
  lemma TwoBlocksOverflow(r: RequestID, l1: Link, n1: nat, l2: Link, n2: nat)
    requires n2 > 0 && n1 + n2 > MaxBlockSize
    ensures Messages(TwoBlocks(r, l1, n1, l2, n2)) ==
      [Message([LinkPresence(r, l1, true)], [Block(l1, n1)]), Message([LinkPresence(r, l2, true)], [Block(l2, n2)])]
  {
    var e1 := Edit(Some(Block(l1, n1)), LinkPresence(r, l1, true));
    var e2 := Edit(Some(Block(l2, n2)), LinkPresence(r, l2, true));
    var b1 := Builder([LinkPresence(r, l1, true)], [Block(l1, n1)], n1);
    var b2 := Builder([LinkPresence(r, l2, true)], [Block(l2, n2)], n2);
    BatchedOpens([], n1, e1);
    assert ApplyEdit(New(), e1) == b1;
    BatchedOpens([b1], n2, e2);
    assert ApplyEdit(New(), e2) == b2;
    assert TwoBlocks(r, l1, n1, l2, n2) == [b1, b2];
    assert [b1][..0] == [];
    assert Messages([b1]) == [b1.Build()];
    assert [b1, b2][..1] == [b1];
  }

  /** Blocks that fit under the cap together share one message. */
  lemma TwoBlocksShare(r: RequestID, l1: Link, n1: nat, l2: Link, n2: nat)
    requires n1 + n2 <= MaxBlockSize
    ensures Messages(TwoBlocks(r, l1, n1, l2, n2)) ==
      [Message([LinkPresence(r, l1, true), LinkPresence(r, l2, true)], [Block(l1, n1), Block(l2, n2)])]
  {
    var e1 := Edit(Some(Block(l1, n1)), LinkPresence(r, l1, true));
    var e2 := Edit(Some(Block(l2, n2)), LinkPresence(r, l2, true));
    var b1 := Builder([LinkPresence(r, l1, true)], [Block(l1, n1)], n1);
    BatchedOpens([], n1, e1);
    assert ApplyEdit(New(), e1) == b1;
    BatchedJoins([b1], n2, e2);
    var b12 := ApplyEdit(b1, e2);
    assert b12.records == [LinkPresence(r, l1, true), LinkPresence(r, l2, true)];
    assert b12.blocks == [Block(l1, n1), Block(l2, n2)];
    assert TwoBlocks(r, l1, n1, l2, n2) == [b12];
    assert [b12][..0] == [];
  }

  /** Two blocks that together overflow the cap travel in two messages. */
  method OverflowOpensNewMessage(r: RequestID, l1: Link, l2: Link, d1: seq<byte>, d2: seq<byte>)
    returns (messages: seq<Message>)
    requires l1 != l2
    requires |d2| > 0 && |d1| + |d2| > MaxBlockSize
    ensures |messages| == 2
    ensures messages[0].blocks == [Block(l1, |d1|)] && messages[1].blocks == [Block(l2, |d2|)]
  {
    var s := new PeerResponseSender();
    var a := s.SendResponse(r, l1, Some(d1));
    assert a.sendBlock && a.BlockSizeOnWire() == |d1|;
    ghost var first := s.builders;
    assert first == Batched([], |d1|, Edit(Some(Block(l1, |d1|)), LinkPresence(r, l1, true))).0;
    assert s.tracker.BlockRefCount(l2) == 0;
    var b := s.SendResponse(r, l2, Some(d2));
    assert b.sendBlock && b.BlockSizeOnWire() == |d2|;
    assert s.builders == Batched(first, |d2|, Edit(Some(Block(l2, |d2|)), LinkPresence(r, l2, true))).0;
    assert s.builders == TwoBlocks(r, l1, |d1|, l2, |d2|);
    assert s.sent == [];
    TwoBlocksOverflow(r, l1, |d1|, l2, |d2|);
    s.SendResponseMessages();
    messages := s.sent;
  }

  /** Two blocks that fit under the cap share one message. */
  method SmallBlocksShareMessage(r: RequestID, l1: Link, l2: Link, d1: seq<byte>, d2: seq<byte>)
    returns (messages: seq<Message>)
    requires l1 != l2
    requires |d1| + |d2| <= MaxBlockSize
    ensures |messages| == 1
    ensures messages[0].blocks == [Block(l1, |d1|), Block(l2, |d2|)]
  {
    var s := new PeerResponseSender();
    var a := s.SendResponse(r, l1, Some(d1));
    assert a.sendBlock && a.BlockSizeOnWire() == |d1|;
    ghost var first := s.builders;
    assert first == Batched([], |d1|, Edit(Some(Block(l1, |d1|)), LinkPresence(r, l1, true))).0;
    assert s.tracker.BlockRefCount(l2) == 0;
    var b := s.SendResponse(r, l2, Some(d2));
    assert b.sendBlock && b.BlockSizeOnWire() == |d2|;
    assert s.builders == Batched(first, |d2|, Edit(Some(Block(l2, |d2|)), LinkPresence(r, l2, true))).0;
    assert s.builders == TwoBlocks(r, l1, |d1|, l2, |d2|);
    assert s.sent == [];
    TwoBlocksShare(r, l1, |d1|, l2, |d2|);
    s.SendResponseMessages();
    messages := s.sent;
  }

  /** From any sender state: a link traversed without its block makes the
      request finish partial. */
  method MissingBlockMakesPartial(s: PeerResponseSender, r: RequestID, link: Link)
    returns (status: ResponseStatusCode)
    requires s.Valid()
    modifies s
    ensures s.Valid()
    ensures status == RequestCompletedPartial
  {
    ghost var before := s.tracker;
    var bd := s.SendResponse(r, link, None);
    LT.MissingTraversalIsPartial(before, r, link);
    status := s.FinishRequest(r);
  }

  /** A deduplicated traversal still counts against the link: after the
      request that put the block on the wire finishes, a later request is
      still deduplicated while the deduplicated one is open. */
  method DedupedTraversalStillHolds(a: RequestID, b: RequestID, c: RequestID, link: Link, data: seq<byte>)
    returns (second: BlockData, third: BlockData)
    requires a != b
    ensures !second.sendBlock && second.BlockSizeOnWire() == 0
    ensures !third.sendBlock && third.BlockSizeOnWire() == 0 && third.BlockSize() == |data|
  {
    var s := new PeerResponseSender();
    var first := s.SendResponse(a, link, Some(data));
    second := s.SendResponse(b, link, Some(data));
    ghost var held := s.tracker;
    assert LT.Traversal(b, link, true) in held.open;
    LT.FinishKeepsOthers(held, a, b, link);
    var status := s.FinishRequest(a);
    third := s.SendResponse(c, link, Some(data));
  }
}
