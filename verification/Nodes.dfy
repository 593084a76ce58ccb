/** The node pool of an intent book: what a slot can hold, and the key orders of the three
    red-black trees that live in it. */
module Nodes {

  /** Which of the three trees of a book: bids, asks, or the registry of traders. */
  datatype Which = Long | Short | Seats

  datatype Color = Red | Black

  datatype Data =
    | Intent(side: Which, price: nat, id: nat, ownerSeat: nat, total: nat, remaining: nat,
             expiration: nat, postSeq: nat, reserved: nat, feeBuffer: nat, reentry: bool)
    | Seat(trader: nat, activeIntents: nat)

  /** A pool slot. The index 0 is the null sentinel and is never used. */
  datatype Node =
    | Free(nextFree: nat)
    | Used(left: nat, right: nat, parent: nat, color: Color, data: Data)

  type Pool = seq<Node>

  /** The typed accessors succeed on slot i: the slot carries the tag the tree w works on. */
  predicate Has(s: Pool, w: Which, i: nat) {
    i < |s| && s[i].Used? && Kind(w, s[i].data)
  }

  predicate Kind(w: Which, d: Data) {
    if w.Seats? then d.Seat? else d.Intent?
  }

  /** The side-aware key order: bids price-descending, asks price-ascending, then post_seq, then
      id; seats by trader key. */
  predicate Less(w: Which, a: Data, b: Data)
    requires Kind(w, a) && Kind(w, b)
  {
    match w
    case Long => a.price > b.price || (a.price == b.price && Earlier(a, b))
    case Short => a.price < b.price || (a.price == b.price && Earlier(a, b))
    case Seats => a.trader < b.trader
  }

  predicate Earlier(a: Data, b: Data)
    requires a.Intent? && b.Intent?
  {
    a.postSeq < b.postSeq || (a.postSeq == b.postSeq && a.id < b.id)
  }

  /** The slot without its links and colour: what the trees never change. */
  function Bare(n: Node): Node {
    if n.Used? then Used(0, 0, 0, Black, n.data) else n
  }

  /** s' agrees with s on every slot outside `changed`. */
  ghost predicate Except(s: Pool, s': Pool, changed: set<nat>) {
    |s| == |s'| && forall i :: 0 <= i < |s| && i !in changed ==> s'[i] == s[i]
  }

  /** Only links and colours differ, and only on slots in ids. */
  ghost predicate LinksOnly(s: Pool, s': Pool, ids: set<nat>) {
    Except(s, s', ids) && forall i :: 0 <= i < |s| ==> Bare(s'[i]) == Bare(s[i])
  }
}
