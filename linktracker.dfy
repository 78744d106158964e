/** An abstract model of the per-peer link tracker the response sender consults.
    The tracker is a ledger of the link traversals recorded by requests that have
    not finished yet; the sender only reads how many of them traversed a link
    with its block present, and asks, when a request finishes, whether all of
    its traversals had their block present. */
module LinkTracker {
  import opened GraphSync

  datatype Traversal = Traversal(requestID: RequestID, link: Link, blockPresent: bool)

  /** A traversal of `link` with its block present. */
  predicate Holds(t: Traversal, link: Link) {
    t.link == link && t.blockPresent
  }

  /** Number of traversals in `open` of `link` with its block present. */
  function CountWithBlock(open: seq<Traversal>, link: Link): (n: nat)
    ensures n == 0 <==> forall i :: 0 <= i < |open| ==> !Holds(open[i], link)
    ensures n <= |open|
  {
    if open == [] then 0
    else CountWithBlock(open[..|open| - 1], link) + (if Holds(open[|open| - 1], link) then 1 else 0)
  }

  /** The traversals of `open` that belong to requests other than `requestID`, in order. */
  function Without(open: seq<Traversal>, requestID: RequestID): (rest: seq<Traversal>)
    ensures forall i :: 0 <= i < |rest| ==> rest[i].requestID != requestID
    ensures forall x :: x in rest <==> x in open && x.requestID != requestID
  {
    if open == [] then []
    else if open[0].requestID == requestID then Without(open[1..], requestID)
    else [open[0]] + Without(open[1..], requestID)
  }

  /** Whether every traversal recorded for `requestID` in `open` had its block present. */
  function AllPresent(open: seq<Traversal>, requestID: RequestID): (full: bool)
    ensures full <==> forall i :: 0 <= i < |open| && open[i].requestID == requestID ==> open[i].blockPresent
  {
    if open == [] then true
    else (open[0].requestID != requestID || open[0].blockPresent) && AllPresent(open[1..], requestID)
  }

  datatype Tracker = Tracker(open: seq<Traversal>) {

    /** How many open traversals of `link` had its block present; zero means
        no unfinished request has traversed the link with its block present,
        whether or not that block was actually put on the wire. */
    function BlockRefCount(link: Link): (n: nat)
      ensures n == 0 <==> forall i :: 0 <= i < |open| ==> !Holds(open[i], link)
    {
      CountWithBlock(open, link)
    }

    /** Records that `requestID` traversed `link`, with or without its block. */
    function RecordLinkTraversal(requestID: RequestID, link: Link, blockPresent: bool): (t: Tracker)
      ensures blockPresent ==> t.BlockRefCount(link) > 0
      ensures forall l :: t.BlockRefCount(l) >= BlockRefCount(l)
      ensures forall l :: l != link ==> t.BlockRefCount(l) == BlockRefCount(l)
      ensures !blockPresent ==> forall l :: t.BlockRefCount(l) == BlockRefCount(l)
      ensures forall x :: x in open ==> x in t.open
      ensures Traversal(requestID, link, blockPresent) in t.open
      ensures forall x :: x in t.open ==> x in open || x == Traversal(requestID, link, blockPresent)
    {
      var t := Tracker(open + [Traversal(requestID, link, blockPresent)]);
      assert t.open[..|t.open| - 1] == open;
      t
    }

    /** Forgets everything recorded for `requestID` and reports whether all of
        its traversals had their block present. */
    function FinishRequest(requestID: RequestID): (result: (Tracker, bool))
      ensures result.1 <==> forall i :: 0 <= i < |open| && open[i].requestID == requestID ==> open[i].blockPresent
      ensures forall x :: x in result.0.open <==> x in open && x.requestID != requestID
    {
      (Tracker(Without(open, requestID)), AllPresent(open, requestID))
    }
  }

  /** A tracker with nothing recorded. */
  function New(): (t: Tracker)
    ensures forall l :: t.BlockRefCount(l) == 0
  {
    Tracker([])
  }

  /** Once every request that traversed `link` with its block present has
      finished, the link's count is zero again. */
  lemma {:induction false} FinishReleasesBlock(t: Tracker, requestID: RequestID, link: Link)
    requires forall i :: 0 <= i < |t.open| && Holds(t.open[i], link) ==> t.open[i].requestID == requestID
    ensures t.FinishRequest(requestID).0.BlockRefCount(link) == 0
  {
    var rest := t.FinishRequest(requestID).0.open;
    forall i | 0 <= i < |rest| ensures !Holds(rest[i], link) {
      assert rest[i] in rest;
      var j :| 0 <= j < |t.open| && t.open[j] == rest[i];
    }
  }

  /** Finishing one request leaves a link's count positive while another
      request's traversal of it with the block present is still open. */
  lemma {:induction false} FinishKeepsOthers(t: Tracker, requestID: RequestID, other: RequestID, link: Link)
    requires other != requestID
    requires Traversal(other, link, true) in t.open
    ensures t.FinishRequest(requestID).0.BlockRefCount(link) > 0
  {
    var rest := t.FinishRequest(requestID).0.open;
    assert Traversal(other, link, true) in rest;
    var i :| 0 <= i < |rest| && rest[i] == Traversal(other, link, true);
    assert Holds(rest[i], link);
  }

  /** A traversal recorded without its block makes its request finish partial. */
  lemma {:induction false} MissingTraversalIsPartial(t: Tracker, requestID: RequestID, link: Link)
    ensures !t.RecordLinkTraversal(requestID, link, false).FinishRequest(requestID).1
  {
    var open := t.RecordLinkTraversal(requestID, link, false).open;
    assert open[|open| - 1] == Traversal(requestID, link, false);
  }
}
