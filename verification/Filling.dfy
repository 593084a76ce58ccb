/** The book part of a match or a substitution: resolving the two intents and taking one contract
    from each. */
module Filling {
  import opened Nodes
  import opened IntentBook
  import opened Arena
  import opened Matcher
  import opened FixedPoint
  import opened Fees
  import opened Ledger
  import opened Desk
  import opened Posting

  /** An intent a contract can be taken from. */
  predicate Drawable(d: Data, bucket: nat) {
    d.Intent? && d.remaining > 0 && bucket <= d.reserved && ReleaseOfOne(d) <= d.feeBuffer
  }

  /** An intent with one contract, its collateral and its share of the fee buffer taken. */
  function Drawn(d: Data, bucket: nat): Data {
    if Drawable(d, bucket) then
      d.(remaining := d.remaining - 1, reserved := d.reserved - bucket, feeBuffer := d.feeBuffer - ReleaseOfOne(d))
    else d
  }

  /** The orders after one contract is taken from order i. */
  function DrawnFrom(r: map<nat, Order>, i: nat, bucket: nat): map<nat, Order> {
    if i !in r || !Drawable(r[i].data, bucket) then r
    else if r[i].data.remaining == 1 then r - {i}
    else r[i := r[i].(data := Drawn(r[i].data, bucket))]
  }

  /** The fee buffer one contract frees: all of it for the last contract, else a pro-rata share. */
  method ReleaseOne(d: Data) returns (r: Checked<nat>)
    requires d.Intent? && d.remaining > 0 && d.feeBuffer < U64
    ensures r == Ok(ReleaseOfOne(d)) && ReleaseOfOne(d) <= d.feeBuffer
  {
    QuotientAtMost(d.feeBuffer, d.remaining);
    if d.remaining == 1 {
      r := Ok(d.feeBuffer);
    } else {
      r := ReleaseForFill(d.feeBuffer, d.remaining, 1);
    }
  }

  /** The two intents a match or substitution names. */
  datatype Pair = Pair(long: nat, short: nat)

  /** i and j hold an unexpired bid and an unexpired ask, with contracts left, that cross. */
  predicate Fillable(s: Pool, i: nat, j: nat, now: nat) {
    && IntentAt(s, i) && IntentAt(s, j) && s[i].data.side == Long && s[j].data.side == Short
    && s[i].data.expiration > now && s[j].data.expiration > now && s[i].data.remaining > 0 && s[j].data.remaining > 0
    && s[i].data.price >= s[j].data.price
  }

  /** Resolves two ids to a crossing pair. */
  method Resolve(b: Book, longId: nat, shortId: nat, now: nat) returns (r: Checked<Pair>)
    requires Tidy(b)
    ensures r.Ok? ==>
      && Fillable(b.nodes[..], r.value.long, r.value.short, now) && b.nodes[r.value.long].data.id == longId
      && b.nodes[r.value.short].data.id == shortId
    ensures r.Err? ==>
      forall i: nat, j: nat ::
        Fillable(b.nodes[..], i, j, now) ==> b.nodes[i].data.id != longId || b.nodes[j].data.id != shortId
  {
    var long := FindIntentById(b, longId);
    if long.None? { return Err(IntentNotFound); }
    var short := FindIntentById(b, shortId);
    if short.None? { return Err(IntentNotFound); }
    var (l, s) := (b.nodes[long.value].data, b.nodes[short.value].data);
    if l.side != Long || s.side != Short { return Err(NotOppositeSides); }
    if l.expiration <= now || s.expiration <= now { return Err(IntentExpired); }
    if l.remaining == 0 || s.remaining == 0 { return Err(IntentNotFound); }
    if l.price < s.price { return Err(NoRangeOverlap); }
    r := Ok(Pair(long.value, short.value));
  }

  /** A crossing pair of live orders can be filled. */
  lemma CrossingIsFillable(b: Book, now: nat, i: nat, j: nat)
    requires Tidy(b) && CrossingPair(b, now, i, j)
    ensures Fillable(b.nodes[..], i, j, now)
  {
    assert TaggedAt(b.nodes[..][i], b.layout.roles[i]) && TaggedAt(b.nodes[..][j], b.layout.roles[j]);
  }

  lemma InOrders(b: Book, i: nat)
    requires Tidy(b) && IntentAt(b.nodes[..], i)
    ensures i in OrdersOf(b.nodes[..])
    ensures OrdersOf(b.nodes[..])[i] == Order(OwnerAt(b.nodes[..], b.nodes[i].data), b.nodes[i].data)
  {
    assert SeatAt(b.nodes[..], b.nodes[i].data.ownerSeat);
  }

  lemma Kept(s: Pool, s1: Pool, i: nat, j: nat)
    requires SameContents(s, s1, {i}) && i != j && IntentAt(s, j)
    ensures IntentAt(s1, j) && s1[j].data == s[j].data
  {
    SameAt(s, s1, {i}, j);
  }

  lemma SameOwner(s: Pool, d: Data, d': Data)
    requires d.Intent? && d'.Intent? && d.ownerSeat == d'.ownerSeat
    ensures OwnerAt(s, d) == OwnerAt(s, d')
  {
  }

  /** Both intents rewritten, and then those with nothing left removed. */
  lemma TwiceDrawn(was: map<nat, Order>, now: map<nat, Order>, i: nat, j: nat, bucket: nat)
    requires i != j && i in was && j in was && Drawable(was[i].data, bucket) && Drawable(was[j].data, bucket)
    requires var (o, p) := (was[i].(data := Drawn(was[i].data, bucket)), was[j].(data := Drawn(was[j].data, bucket)));
      now == was[i := o][j := p] - (if o.data.remaining == 0 then {i} else {})
        - (if p.data.remaining == 0 then {j} else {})
    ensures now == DrawnFrom(DrawnFrom(was, i, bucket), j, bucket)
  {
  }

  /** Rewrites one intent with a contract taken from it. */
  method DrawOne(b: Book, i: nat, bucket: nat)
    requires Tidy(b) && IntentAt(b.nodes[..], i) && Drawable(b.nodes[i].data, bucket) && b.nodes[i].data.feeBuffer < U64
    modifies b.nodes
    ensures Tidy(b) && IntentAt(b.nodes[..], i) && b.nodes[i].data == Drawn(old(b.nodes[i].data), bucket)
    ensures SameContents(old(b.nodes[..]), b.nodes[..], {i})
    ensures i in OrdersOf(old(b.nodes[..])) && OrdersOf(old(b.nodes[..]))[i].data == old(b.nodes[i].data)
    ensures var (was, d) := (OrdersOf(old(b.nodes[..])), Drawn(old(b.nodes[i].data), bucket));
      OrdersOf(b.nodes[..]) == was[i := was[i].(data := d)]
  {
    hide Tidy, OrdersOf, ReleaseOfOne, OwnerAt, SameContents;
    var d := b.nodes[i].data;
    var freed := ReleaseOne(d);
    InOrders(b, i);
    var d' := d.(remaining := d.remaining - 1, reserved := d.reserved - bucket, feeBuffer := d.feeBuffer - freed.value);
    SameOwner(b.nodes[..], d, d');
    Amend(b, i, d');
  }

  /** Takes an intent off the book, which leaves one more counted under its seat than rests there. */
  method TakeOffCovered(b: Book, idx: nat)
    requires Tidy(b) && IntentAt(b.nodes[..], idx)
    modifies b.nodes, b`longRoot, b`shortRoot, b`seatRoot, b`freelistHead, b`layout
    ensures Tidy(b) && OrdersOf(b.nodes[..]) == OrdersOf(old(b.nodes[..])) - {idx}
    ensures SameContents(old(b.nodes[..]), b.nodes[..], {idx}) && b.nodes[idx].Free?
    ensures old(Covered(b.nodes[..])) ==>
      Covered(b.nodes[..]) && CoveredBut(b.nodes[..], old(b.nodes[idx].data.ownerSeat), 1)
  {
    hide Tagged, OneSeatEach, TreeSound, FreeSound, OrdersOf, SameContents, Covered, CoveredBut;
    ghost var (s, seat) := (b.nodes[..], b.nodes[idx].data.ownerSeat);
    assert SeatAt(s, seat);
    TakeOff(b, idx);
    if Covered(s) {
      CoveredByFewer(s, b.nodes[..], seat, {idx});
      CoveredButIs(b.nodes[..], seat, 1);
    }
  }

  /** Takes one contract from each of two intents and removes an intent that has none left. It is
      refused only when an intent's reservation is short of a bucket. */
  method TakeContracts(b: Book, pair: Pair, bucket: nat) returns (r: Checked<(nat, nat)>)
    requires Tidy(b) && IntentAt(b.nodes[..], pair.long) && IntentAt(b.nodes[..], pair.short) && pair.long != pair.short
    requires b.nodes[pair.long].data.remaining > 0 && b.nodes[pair.short].data.remaining > 0
    requires b.nodes[pair.long].data.feeBuffer < U64 && b.nodes[pair.short].data.feeBuffer < U64
    modifies b.nodes, b`longRoot, b`shortRoot, b`seatRoot, b`freelistHead, b`layout
    ensures r.Ok? <==>
      old(b.nodes[pair.long].data.reserved) >= bucket && old(b.nodes[pair.short].data.reserved) >= bucket
    ensures r.Ok? ==>
      r.value == (ReleaseOfOne(old(b.nodes[pair.long].data)), ReleaseOfOne(old(b.nodes[pair.short].data))) && Tidy(b)
    ensures r.Ok? ==>
      OrdersOf(b.nodes[..]) == DrawnFrom(DrawnFrom(OrdersOf(old(b.nodes[..])), pair.long, bucket), pair.short, bucket)
    ensures r.Ok? && old(Covered(b.nodes[..])) ==> Covered(b.nodes[..])
  {
    hide Covered, Tidy, OrdersOf, ReleaseOfOne, SameContents, DrawnFrom;
    ghost var (was, s) := (OrdersOf(b.nodes[..]), b.nodes[..]);
    var (long, short) := (b.nodes[pair.long].data, b.nodes[pair.short].data);
    if long.reserved < bucket || short.reserved < bucket { return Err(InsufficientReserved); }
    var freedLong := ReleaseOne(long);
    var freedShort := ReleaseOne(short);
    DrawOne(b, pair.long, bucket);
    ghost var s1 := b.nodes[..];
    if Covered(s) { CoveredSame(s, s1, pair.long); }
    Kept(s, s1, pair.long, pair.short);
    DrawOne(b, pair.short, bucket);
    ghost var s2 := b.nodes[..];
    if Covered(s) { CoveredSame(s1, s2, pair.short); }
    Kept(s1, s2, pair.short, pair.long);
    if b.nodes[pair.long].data.remaining == 0 {
      TakeOffCovered(b, pair.long);
      Kept(s2, b.nodes[..], pair.long, pair.short);
    }
    if b.nodes[pair.short].data.remaining == 0 { TakeOffCovered(b, pair.short); }
    TwiceDrawn(was, OrdersOf(b.nodes[..]), pair.long, pair.short, bucket);
    r := Ok((freedLong.value, freedShort.value));
  }
}
