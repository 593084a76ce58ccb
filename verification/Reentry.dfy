/** Claiming re-entry: the owner of a closed side posts again with as many contracts as it can
    afford. */
module Reentry {
  import opened Nodes
  import opened Sums
  import opened FixedPoint
  import opened Fees
  import opened Ledger
  import opened Operations
  import opened Handovers

  const MAX_CONTRACTS: nat := 65_535

  /** The fee buffer of n contracts, before it is narrowed. */
  function Buffer(n: nat, bucket: nat, feeBps: nat): nat { n * bucket * feeBps / BPS_DENOM }

  function Cost(n: nat, bucket: nat, feeBps: nat): nat { n * bucket + Buffer(n, bucket, feeBps) }

  /** n is the largest contract count, up to the cap, whose collateral and fee buffer `free` covers. */
  ghost predicate IsLargestAffordable(n: nat, free: int, bucket: nat, feeBps: nat) {
    && n <= MAX_CONTRACTS && Cost(n, bucket, feeBps) <= free
    && forall k: nat :: n < k <= MAX_CONTRACTS ==> Cost(k, bucket, feeBps) > free
  }

  /** The most contracts the collateral alone would allow. */
  function Ceiling(free: nat, bucket: nat): nat
    requires bucket > 0
  {
    if free / bucket <= MAX_CONTRACTS then free / bucket else MAX_CONTRACTS
  }

  lemma CostGrows(m: nat, n: nat, bucket: nat, feeBps: nat)
    requires m <= n
    ensures Cost(m, bucket, feeBps) <= Cost(n, bucket, feeBps) && Buffer(m, bucket, feeBps) <= Buffer(n, bucket, feeBps)
  {
    MulMono(m, n, bucket);
    MulMono(m * bucket, n * bucket, feeBps);
    DivBounds(m * bucket * feeBps, BPS_DENOM);
    DivBounds(n * bucket * feeBps, BPS_DENOM);
  }

  lemma CeilingBounds(free: nat, bucket: nat, feeBps: nat)
    requires bucket > 0
    ensures Ceiling(free, bucket) * bucket <= free
    ensures forall k: nat :: Ceiling(free, bucket) < k <= MAX_CONTRACTS ==> Cost(k, bucket, feeBps) > free
  {
    DivBounds(free, bucket);
    MulMono(Ceiling(free, bucket), free / bucket, bucket);
    forall k: nat | Ceiling(free, bucket) < k <= MAX_CONTRACTS ensures Cost(k, bucket, feeBps) > free {
      MulMono(free / bucket + 1, k, bucket);
    }
  }

  lemma CostOfNothing(bucket: nat, feeBps: nat)
    ensures Cost(0, bucket, feeBps) == 0
  {
    assert 0 * bucket == 0 && 0 * bucket * feeBps == 0;
  }

  /** The affordability search. It is refused exactly when the reservation at the ceiling does not fit
      64 bits, and otherwise finds the largest affordable count. */
  method ContractsToRepost(free: nat, bucket: nat, feeBps: nat) returns (r: Checked<nat>)
    requires free < U64 && 0 < bucket < U64 && feeBps < 0x1_0000
    ensures r.Err? <==> Cost(Ceiling(free, bucket), bucket, feeBps) >= U64
    ensures r.Err? ==> r.error == ArithmeticOverflow
    ensures r.Ok? ==> IsLargestAffordable(r.value, free, bucket, feeBps)
  {
    CostOfNothing(bucket, feeBps);
    CeilingBounds(free, bucket, feeBps);
    var contracts := free / bucket;
    if contracts == 0 { return Ok(0); }
    contracts := if contracts <= MAX_CONTRACTS then contracts else MAX_CONTRACTS;
    Narrow(contracts, bucket, feeBps);
    var due := Reserve(contracts, bucket, feeBps);
    if due.Err? { return Err(due.error); }
    if free < due.value.0 + due.value.1 {
      var n := contracts;
      while n > 0
        invariant n <= contracts && forall k: nat :: n < k <= MAX_CONTRACTS ==> Cost(k, bucket, feeBps) > free
      {
        CostGrows(n, contracts, bucket, feeBps);
        MulMono(n, contracts, bucket);
        Narrow(n, bucket, feeBps);
        var buffer := FeeBufferFor(n, bucket, feeBps);
        if buffer.Err? || n * bucket + buffer.value >= U64 { return Err(ArithmeticOverflow); }
        if free >= n * bucket + buffer.value { break; }
        n := n - 1;
      }
      return Ok(n);
    }
    r := Ok(contracts);
  }

  /** A reservation is its cost, when that fits 64 bits. */
  lemma Narrow(n: nat, bucket: nat, feeBps: nat)
    requires n * bucket < U64 && feeBps < 0x1_0000
    ensures Reserve(n, bucket, feeBps).Ok? <==> Cost(n, bucket, feeBps) < U64
    ensures Reserve(n, bucket, feeBps).Ok? ==>
      Reserve(n, bucket, feeBps).value == (n * bucket, Buffer(n, bucket, feeBps))
    ensures Buffer(n, bucket, feeBps) < U64 <==> FeeBufferFor(n, bucket, feeBps) == Ok(Buffer(n, bucket, feeBps))
  {
    MulMono(n * bucket, U64, feeBps);
    assert U64 * feeBps < U128;
  }

  // ----- on the ledger ---------------------------------------------------------------------------------------

  predicate Flag(p: Position, long: bool) { if long then p.longReentry else p.shortReentry }

  function Unflagged(p: Position, long: bool): Position {
    if long then p.(longReentry := false) else p.(shortReentry := false)
  }

  function ReentryPrice(p: Position, long: bool): nat { if long then p.longPrice else p.shortPrice }

  /** A closed position's side still flagged for re-entry, with a price the instrument accepts. */
  predicate CanClaim(st: State, pk: Key, long: bool, expiration: nat, now: nat) {
    && pk in st.positions && st.positions[pk].status != LIVE && Flag(st.positions[pk], long)
    && OwnerOf(st.positions[pk], long) in st.accounts && pk.0 in st.markets
    && ValidatePriceTicked(ReentryPrice(st.positions[pk], long), st.markets[pk.0].tick).Ok? && expiration > now
  }

  /** The flag is consumed. */
  function Consumption(st: State, pk: Key, long: bool): State
    requires pk in st.positions
  {
    Placed(st, pk, Unflagged(st.positions[pk], long), 0)
  }

  lemma ConsumptionKeepsInv(st: State, pk: Key, long: bool)
    requires Inv(st) && pk in st.positions
    ensures Inv(Consumption(st, pk, long))
  {
    var st' := Consumption(st, pk, long);
    assert PositionOk(st, pk, st.positions[pk]);
    forall u | u in st.accounts ensures Level(st', u) && VaultGap(st') == 0 {
      assert Level(st, u);
      PlacedGaps(st, pk, Unflagged(st.positions[pk], long), 0, u);
    }
    assert st.positions[pk].longOwner in st.accounts;
  }

  /** The order a claim of n contracts posts. */
  function ReentryOrder(st: State, pk: Key, long: bool, n: nat, feeBps: nat, expiration: nat, id: nat, seat: nat,
                        postSeq: nat): Order
    requires pk in st.positions && pk.0 in st.markets
  {
    var (p, bucket) := (st.positions[pk], st.markets[pk.0].bucket);
    Order(OwnerOf(p, long),
          NewIntent(Terms(if long then Long else Short, ReentryPrice(p, long), n, expiration, true),
                    id, seat, postSeq, (n * bucket, Buffer(n, bucket, feeBps))))
  }

  /** An affordable repost goes through, and then the flag is consumed. */
  lemma ClaimKeepsInv(st: State, pk: Key, long: bool, n: nat, feeBps: nat, expiration: nat, k: Key, id: nat, seat: nat,
                      postSeq: nat, now: nat)
    requires Inv(st) && CanClaim(st, pk, long, expiration, now) && k.0 == pk.0 && k !in st.orders && HasId(st, pk.0)
    requires n > 0
    requires IsLargestAffordable(n, st.accounts[OwnerOf(st.positions[pk], long)].free, st.markets[pk.0].bucket, feeBps)
    ensures var o := ReentryOrder(st, pk, long, n, feeBps, expiration, id, seat, postSeq);
      && CanPlace(st, k, o) && PlacedOrder(st, k, o).positions == st.positions
      && Inv(Consumption(PlacedOrder(st, k, o), pk, long))
  {
    var o := ReentryOrder(st, pk, long, n, feeBps, expiration, id, seat, postSeq);
    assert CanPlace(st, k, o);
    hide Inv, OrderOk;
    PlaceKeepsInv(st, k, o);
    ConsumptionKeepsInv(PlacedOrder(st, k, o), pk, long);
  }

  // ----- removing a closed position ---------------------------------------------------------------------------

  predicate CanRemove(st: State, pk: Key) { pk in st.positions && st.positions[pk].status != LIVE }

  function Removed(st: State, pk: Key): State { st.(positions := st.positions - {pk}) }

  lemma RemoveKeepsInv(st: State, pk: Key)
    requires Inv(st) && CanRemove(st, pk)
    ensures Inv(Removed(st, pk))
  {
    forall u | u in st.accounts ensures Level(Removed(st, pk), u) {
      assert Level(st, u);
      SumDrop(st.positions, StakeOf(u), pk);
    }
  }
}
