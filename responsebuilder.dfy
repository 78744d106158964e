/** An abstract model of one outgoing response being assembled: an
    append-only list of records, the blocks attached so far, and the running
    total of those blocks' sizes. A builder is empty when it holds no record. */
module ResponseBuilder {
  import opened GraphSync

  /** A block, kept opaque as the link it belongs to and its size in bytes. */
  datatype Block = Block(link: Link, size: nat)

  /** One response record, in the order it was added. */
  datatype Record =
    | ResponseCode(requestID: RequestID, status: ResponseStatusCode)
    | LinkPresence(requestID: RequestID, link: Link, blockPresent: bool)
    | Extension(requestID: RequestID, extension: ExtensionData)

  /** What one builder becomes on the wire: its records and its blocks. */
  datatype Message = Message(responses: seq<Record>, blocks: seq<Block>)

  /** Total size of `blocks`. */
  function SumSizes(blocks: seq<Block>): nat
  {
    if blocks == [] then 0 else SumSizes(blocks[..|blocks| - 1]) + blocks[|blocks| - 1].size
  }

  /** Number of blocks of positive size in `blocks`. */
  function PositiveBlocks(blocks: seq<Block>): nat
  {
    if blocks == [] then 0
    else PositiveBlocks(blocks[..|blocks| - 1]) + (if blocks[|blocks| - 1].size > 0 then 1 else 0)
  }

  lemma SumSizesAppend(blocks: seq<Block>, b: Block)
    ensures SumSizes(blocks + [b]) == SumSizes(blocks) + b.size
    ensures PositiveBlocks(blocks + [b]) == PositiveBlocks(blocks) + (if b.size > 0 then 1 else 0)
  {
    assert (blocks + [b])[..|blocks|] == blocks;
  }

  datatype Builder = Builder(records: seq<Record>, blocks: seq<Block>, blkSize: nat) {

    /** The running total agrees with the attached blocks. */
    ghost predicate Valid() {
      blkSize == SumSizes(blocks)
    }

    /** Total size of the attached blocks. */
    function BlockSize(): (n: nat)
      ensures n == blkSize
    {
      blkSize
    }

    /** A builder with no record has nothing to send. */
    predicate Empty(): (e: bool)
      ensures e <==> |records| == 0
    {
      records == []
    }

    function AddBlock(b: Block): (r: Builder)
      ensures r.records == records && r.blocks == blocks + [b]
      ensures r.BlockSize() == BlockSize() + b.size
      ensures Valid() ==> r.Valid()
    {
      SumSizesAppend(blocks, b);
      Builder(records, blocks + [b], blkSize + b.size)
    }

    function AddLink(requestID: RequestID, link: Link, blockPresent: bool): (r: Builder)
      ensures r.records == records + [LinkPresence(requestID, link, blockPresent)]
      ensures r.blocks == blocks && r.blkSize == blkSize
    {
      Builder(records + [LinkPresence(requestID, link, blockPresent)], blocks, blkSize)
    }

    function AddResponseCode(requestID: RequestID, status: ResponseStatusCode): (r: Builder)
      ensures r.records == records + [ResponseCode(requestID, status)]
      ensures r.blocks == blocks && r.blkSize == blkSize
    {
      Builder(records + [ResponseCode(requestID, status)], blocks, blkSize)
    }

    function AddExtensionData(requestID: RequestID, extension: ExtensionData): (r: Builder)
      ensures r.records == records + [Extension(requestID, extension)]
      ensures r.blocks == blocks && r.blkSize == blkSize
    {
      Builder(records + [Extension(requestID, extension)], blocks, blkSize)
    }

    /** The message this builder is sent as. */
    function Build(): Message {
      Message(records, blocks)
    }
  }

  /** A builder with nothing in it. */
  function New(): (b: Builder)
    ensures b.Valid() && b.Empty() && b.blocks == [] && b.BlockSize() == 0
  {
    Builder([], [], 0)
  }
}
