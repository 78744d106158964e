/** Protocol-level vocabulary shared by the response sender and its collaborators:
    request identifiers, content-addressed links, response status codes and
    extension payloads. */
module GraphSync {

  newtype byte = x: int | 0 <= x < 256

  /** Identifies one request between two peers; only compared for equality here. */
  type RequestID = int

  /** Content address of a DAG node, kept opaque: only its identity matters. */
  datatype Link = CidLink(cid: seq<byte>)

  /** The response status codes the sender emits or forwards. The numeric wire
      values belong to the protocol package and are not needed here. */
  datatype ResponseStatusCode =
    | RequestAcknowledged
    | PartialResponse
    | RequestPaused
    | RequestCompletedFull
    | RequestCompletedPartial
    | RequestRejected
    | RequestFailedBusy
    | RequestFailedUnknown
    | RequestFailedLegal
    | RequestFailedContentNotFound
    | RequestCancelled

  /** A named opaque payload attached to a response. */
  datatype ExtensionData = ExtensionData(name: string, data: seq<byte>)

  datatype Option<+T> = None | Some(value: T)
}
