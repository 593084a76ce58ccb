/** The operations on the ledger: when each goes through, what it moves, and that it keeps the
    equalities. Authorisation by signature is a precondition; the clock, prices and signed
    attestations are arguments. */
module Operations {
  import opened Nodes
  import opened Sums
  import opened FixedPoint
  import opened Fees
  import opened Ledger

  // ----- deposits, withdrawals, sweeps, accounts ---------------------------------------------------------

  predicate CanDeposit(st: State, t: nat, amount: nat) {
    t in st.accounts && amount > 0 && st.vault + amount < U64
  }

  function Deposited(st: State, t: nat, amount: nat): State
    requires t in st.accounts
  {
    Adjust(st, Delta(t, amount, 0, 0)).(vault := st.vault + amount)
  }

  predicate CanWithdraw(st: State, t: nat, amount: nat) {
    t in st.accounts && 0 < amount <= st.accounts[t].free && amount <= st.vault
  }

  function Withdrawn(st: State, t: nat, amount: nat): State
    requires t in st.accounts
  {
    Adjust(st, Delta(t, 0 - amount, 0, 0)).(vault := st.vault - amount)
  }

  predicate CanSweep(st: State, amount: nat) {
    0 < amount <= st.treasury && st.swept + amount < U64 && amount <= st.vault
  }

  function Swept(st: State, amount: nat): State {
    st.(treasury := st.treasury - amount, swept := st.swept + amount, vault := st.vault - amount)
  }

  function Opened(st: State, t: nat): State { st.(accounts := st.accounts[t := Balance(0, 0, 0)]) }

  function Listed(st: State, m: nat, market: Market): State {
    st.(markets := st.markets[m := market], nextIds := st.nextIds[m := 1],
        nonces := if market.marketId in st.nonces then st.nonces else st.nonces[market.marketId := 0])
  }

  const ALLOWED_LEVERAGE_BPS: set<nat> := {20_000, 50_000, 100_000, 200_000, 400_000, 1_000_000, 2_500_000, 10_000_000}

  /** What an instrument is checked for: a window, a bucket, a tick, and one of the leverages. The bounty
      rate is not among it. */
  predicate WellFormed(market: Market) {
    market.twapWindow > 0 && 0 < market.bucket < U64 && 0 < market.tick && market.leverageBps in ALLOWED_LEVERAGE_BPS
  }

  // ----- orders ----------------------------------------------------------------------------------------------

  datatype Terms = Terms(side: Which, price: nat, contracts: nat, expiration: nat, reentry: bool)

  /** The collateral and the fee buffer an intent reserves. */
  function Reserve(contracts: nat, bucket: nat, feeBps: nat): Checked<(nat, nat)> {
    if contracts * bucket >= U64 then Err(ArithmeticOverflow) else
      match FeeBufferFor(contracts, bucket, feeBps)
      case Err(e) => Err(e)
      case Ok(buffer) => if contracts * bucket + buffer >= U64 then Err(ArithmeticOverflow)
      else Ok((contracts * bucket, buffer))
  }

  /** What a post is charged, or why it is refused. */
  function Quote(market: Market, terms: Terms, feeBps: nat, now: nat): Checked<(nat, nat)> {
    if terms.side.Seats? then Err(InvalidSide) else
    if terms.contracts == 0 then Err(InvalidContractCount) else
      match ValidatePriceTicked(terms.price, market.tick)
      case Err(e) => Err(e)
      case Ok(_) => if terms.expiration <= now then Err(IntentExpired)
      else Reserve(terms.contracts, market.bucket, feeBps)
  }

  function NewIntent(terms: Terms, id: nat, seat: nat, postSeq: nat, due: (nat, nat)): Data {
    Intent(terms.side, terms.price, id, seat, terms.contracts, terms.contracts, terms.expiration, postSeq, due.0, due.1,
           terms.reentry)
  }

  predicate Expired(o: Order, now: nat) { o.data.Intent? && o.data.expiration <= now }

  /** Orders released one after another. */
  function ReleasedAll(st: State, ks: seq<Key>): State
    decreases |ks|
  {
    if ks == [] then st else
      var (before, k) := (ReleasedAll(st, ks[..|ks| - 1]), ks[|ks| - 1]);
      if k in before.orders && before.orders[k].data.Intent? && before.orders[k].owner in before.accounts
      then Released(before, k)
      else before
  }

  function Numbered(st: State, m: nat): State
    requires m in st.nextIds
  {
    st.(nextIds := st.nextIds[m := st.nextIds[m] + 1])
  }

  /** Another id, and room to count past it. */
  predicate HasId(st: State, m: nat) { m in st.nextIds && st.nextIds[m] + 1 < U64 }

  predicate CanPlace(st: State, k: Key, o: Order) {
    && HasId(st, k.0) && k !in st.orders && OrderOk(st, k, o)
    && o.data.reserved + o.data.feeBuffer <= st.accounts[o.owner].free
  }

  function PlacedOrder(st: State, k: Key, o: Order): State
    requires CanPlace(st, k, o)
  {
    Numbered(Posted(st, k, o), k.0)
  }

  // ----- matches ------------------------------------------------------------------------------------------------

  /** A bid and an ask of one book that have not expired and cross. */
  predicate Crossing(st: State, kl: Key, ks: Key, now: nat) {
    && kl.0 == ks.0 && kl in st.orders && ks in st.orders
    && OrderOk(st, kl, st.orders[kl]) && OrderOk(st, ks, st.orders[ks])
    && st.orders[kl].data.side == Long && st.orders[ks].data.side == Short
    && st.orders[kl].data.expiration > now && st.orders[ks].data.expiration > now
    && st.orders[kl].data.price >= st.orders[ks].data.price
  }

  function SizeOf(market: Market, entry: nat): Checked<nat> {
    match NotionalAtoms(market.bucket, market.leverageBps)
    case Err(e) => Err(e)
    case Ok(notional) => PositionSizeFp(notional, entry)
  }

  /** The position a match opens. */
  function Contract(st: State, kl: Key, ks: Key, size: nat): Position
    requires kl in st.orders && ks in st.orders && OrderOk(st, kl, st.orders[kl]) && OrderOk(st, ks, st.orders[ks])
  {
    var (l, s) := (st.orders[kl], st.orders[ks]);
    Position(LIVE, l.owner, s.owner, st.markets[kl.0].bucket, PriceMidpoint(l.data.price, s.data.price), size,
             l.data.reentry, s.data.reentry, l.data.price, s.data.price)
  }

  /** The later post takes. */
  predicate TakerIsLong(st: State, kl: Key, ks: Key)
    requires kl in st.orders && ks in st.orders && st.orders[kl].data.Intent? && st.orders[ks].data.Intent?
  {
    st.orders[kl].data.postSeq > st.orders[ks].data.postSeq
  }

  /** What the taker has free once the fee buffers of the fill are released. A long taker pays before
      the short side is released, even when both sides are the same trader. */
  function Purse(st: State, kl: Key, ks: Key): int
    requires kl in st.orders && ks in st.orders && OrderOk(st, kl, st.orders[kl]) && OrderOk(st, ks, st.orders[ks])
  {
    var (l, s) := (st.orders[kl], st.orders[ks]);
    if TakerIsLong(st, kl, ks) then st.accounts[l.owner].free + ReleaseOfOne(l.data)
    else st.accounts[s.owner].free + ReleaseOfOne(s.data) + if l.owner == s.owner then ReleaseOfOne(l.data) else 0
  }

  /** A match goes through when the orders cross, the position can be sized, and the taker can pay. */
  predicate CanMatch(st: State, kl: Key, ks: Key, fee: nat, now: nat) {
    && Crossing(st, kl, ks, now) && HasId(st, kl.0)
    && SizeOf(st.markets[kl.0], PriceMidpoint(st.orders[kl].data.price, st.orders[ks].data.price)).Ok?
    && fee <= Purse(st, kl, ks)
  }

  /** One contract of each order becomes a position; the taker pays the fee. */
  function Matched(st: State, kl: Key, ks: Key, pk: Key, p: Position, fee: nat): State
    requires kl != ks && kl in st.orders && ks in st.orders && OrderOk(st, kl, st.orders[kl])
    requires OrderOk(st, ks, st.orders[ks])
  {
    Exchanged(Consumed2(st, kl, ks), LongDelta(st, kl, ks, fee), ShortDelta(st, kl, ks, fee), pk, p, fee)
  }

  function LongDelta(st: State, kl: Key, ks: Key, fee: nat): Delta
    requires kl in st.orders && ks in st.orders && OrderOk(st, kl, st.orders[kl]) && OrderOk(st, ks, st.orders[ks])
  {
    Delta(st.orders[kl].owner, ReleaseOfOne(st.orders[kl].data) - (if TakerIsLong(st, kl, ks) then fee else 0),
          0 - Portion(st, kl), st.markets[kl.0].bucket)
  }

  function ShortDelta(st: State, kl: Key, ks: Key, fee: nat): Delta
    requires kl in st.orders && ks in st.orders && OrderOk(st, kl, st.orders[kl]) && OrderOk(st, ks, st.orders[ks])
  {
    Delta(st.orders[ks].owner, ReleaseOfOne(st.orders[ks].data) - (if TakerIsLong(st, kl, ks) then 0 else fee),
          0 - Portion(st, ks), st.markets[ks.0].bucket)
  }

  function MatchedPair(st: State, kl: Key, ks: Key, fee: nat, now: nat): State
    requires CanMatch(st, kl, ks, fee, now)
  {
    var m := kl.0;
    var size := SizeOf(st.markets[m], PriceMidpoint(st.orders[kl].data.price, st.orders[ks].data.price)).value;
    Numbered(Matched(st, kl, ks, (m, st.nextIds[m]), Contract(st, kl, ks, size), fee), m)
  }

  // ----- every operation keeps the equalities --------------------------------------------------------------

  lemma DepositKeepsInv(st: State, t: nat, amount: nat)
    requires Inv(st) && CanDeposit(st, t, amount)
    ensures Inv(Deposited(st, t, amount))
  {
    TransferKeepsInv(st, t, amount);
  }

  lemma WithdrawKeepsInv(st: State, t: nat, amount: nat)
    requires Inv(st) && CanWithdraw(st, t, amount)
    ensures Inv(Withdrawn(st, t, amount))
  {
    TransferKeepsInv(st, t, 0 - amount);
  }

  lemma TransferKeepsInv(st: State, t: nat, amount: int)
    requires Inv(st) && t in st.accounts && st.vault + amount < U64 && 0 <= st.accounts[t].free + amount
    ensures Inv(Adjust(st, Delta(t, amount, 0, 0)).(vault := st.vault + amount))
  {
    var d := Delta(t, amount, 0, 0);
    var st' := Adjust(st, d).(vault := st.vault + amount);
    forall u | u in st.accounts ensures Level(st', u) { AdjustGaps(st, d, u); }
    AdjustGaps(st, d, t);
  }

  lemma SweepKeepsInv(st: State, amount: nat)
    requires Inv(st) && CanSweep(st, amount)
    ensures Inv(Swept(st, amount))
  {
    forall u | u in st.accounts ensures Level(Swept(st, amount), u) { assert Level(st, u); }
  }

  lemma OpenKeepsInv(st: State, t: nat)
    requires Inv(st) && t !in st.accounts
    ensures Inv(Opened(st, t))
  {
    var st' := Opened(st, t);
    OpenFits(st, t);
    hide Fit, Level, Opened;
    forall u | u in st'.accounts ensures Level(st', u) { OpenLevel(st, t, u); }
  }

  lemma OpenFits(st: State, t: nat)
    requires Fit(st) && t !in st.accounts
    ensures Fit(Opened(st, t)) && VaultGap(Opened(st, t)) == VaultGap(st)
  {
    SumPut(st.accounts, Worth(), t, Balance(0, 0, 0));
  }

  lemma OpenLevel(st: State, t: nat, u: nat)
    requires Inv(st) && t !in st.accounts && u in Opened(st, t).accounts
    ensures Level(Opened(st, t), u)
  {
    if u != t {
      assert Level(st, u);
    } else {
      SumZero(st.orders, DueFrom(t));
      SumZero(st.positions, StakeOf(t));
    }
  }

  lemma ListKeepsInv(st: State, m: nat, market: Market)
    requires Inv(st) && m !in st.markets && WellFormed(market)
    ensures Inv(Listed(st, m, market))
  {
    forall u | u in st.accounts ensures Level(Listed(st, m, market), u) { assert Level(st, u); }
  }

  /** Counters that only grow disturb nothing. */
  lemma CountersKeepInv(st: State, nextIds: map<nat, nat>, nonces: map<nat, nat>)
    requires Inv(st) && nextIds.Keys == st.nextIds.Keys && forall m :: m in nextIds ==> st.nextIds[m] <= nextIds[m]
    requires forall q :: q in st.nonces ==> q in nonces
    ensures Inv(st.(nextIds := nextIds, nonces := nonces))
  {
    forall u | u in st.accounts ensures Level(st.(nextIds := nextIds, nonces := nonces), u) { assert Level(st, u); }
  }

  lemma PostLevel(st: State, k: Key, o: Order, u: nat)
    requires Inv(st) && k !in st.orders && OrderOk(st, k, o) && Due(o) <= st.accounts[o.owner].free && u in st.accounts
    ensures Level(Posted(st, k, o), u) && VaultGap(Posted(st, k, o)) == 0
  {
    var st1, d := st.(orders := st.orders[k := o]), Delta(o.owner, 0 - Due(o), Due(o), 0);
    assert Level(st, u);
    OrderPutGap(st, k, o, u);
    AdjustGaps(st1, d, u);
  }

  lemma PostKeepsInv(st: State, k: Key, o: Order)
    requires Inv(st) && k !in st.orders && OrderOk(st, k, o) && Due(o) <= st.accounts[o.owner].free
    ensures Inv(Posted(st, k, o))
  {
    var st' := Posted(st, k, o);
    PostLevel(st, k, o, o.owner);
    forall u | u in st.accounts ensures Level(st', u) { PostLevel(st, k, o, u); }
    hide Level, VaultGap;
  }

  lemma ReleaseLevel(st: State, k: Key, u: nat)
    requires Inv(st) && k in st.orders && u in st.accounts
    ensures Level(Released(st, k), u) && VaultGap(Released(st, k)) == 0
  {
    var o, st1 := st.orders[k], st.(orders := st.orders - {k});
    var d := Delta(o.owner, Due(o), 0 - Due(o), 0);
    assert Level(st, u) && OrderOk(st, k, o);
    hide Inv, OrdersOk, PositionsOk, MarketsOk, ReservedGap, LockedGap, VaultGap;
    OrderDropGap(st, k, u);
    AdjustGaps(st1, d, u);
  }

  lemma ReleaseKeepsInv(st: State, k: Key)
    requires Inv(st) && k in st.orders
    ensures Inv(Released(st, k))
  {
    var st' := Released(st, k);
    ReleaseLevel(st, k, st.orders[k].owner);
    forall u | u in st.accounts ensures Level(st', u) { ReleaseLevel(st, k, u); }
    hide Level, VaultGap;
  }

  lemma PlaceKeepsInv(st: State, k: Key, o: Order)
    requires Inv(st) && CanPlace(st, k, o)
    ensures Inv(PlacedOrder(st, k, o)) && PlacedOrder(st, k, o).positions == st.positions
  {
    hide Inv;
    DueIs(st, k, o);
    PostKeepsInv(st, k, o);
    CountersKeepInv(Posted(st, k, o), PlacedOrder(st, k, o).nextIds, st.nonces);
  }

  lemma DueIs(st: State, k: Key, o: Order)
    requires CanPlace(st, k, o)
    ensures Due(o) <= st.accounts[o.owner].free && Posted(st, k, o).nextIds == st.nextIds
    ensures Posted(st, k, o).nonces == st.nonces
    ensures Posted(st, k, o).positions == st.positions
  {
  }

  lemma ReleaseShape(st: State, k: Key)
    requires Inv(st) && k in st.orders
    ensures st.orders[k].data.Intent? && st.orders[k].owner in st.accounts && Inv(Released(st, k))
    ensures var st' := Released(st, k);
      st' == st.(accounts := st'.accounts, orders := st.orders - {k}) && st'.accounts.Keys == st.accounts.Keys
  {
    assert OrderOk(st, k, st.orders[k]);
    ReleaseKeepsInv(st, k);
  }

  ghost predicate NoRepeats(ks: seq<Key>) { forall i, j :: 0 <= i < j < |ks| ==> ks[i] != ks[j] }

  ghost function Elements(ks: seq<Key>): set<Key> { set k | k in ks }

  /** Releasing orders one after another frees each once. */
  lemma {:induction false} ReleaseAllKeepsInv(st: State, ks: seq<Key>)
    requires Inv(st) && Elements(ks) <= st.orders.Keys && NoRepeats(ks)
    ensures var st' := ReleasedAll(st, ks);
      && Inv(st') && st' == st.(accounts := st'.accounts, orders := st'.orders) && st'.accounts.Keys == st.accounts.Keys
      && st'.orders == st.orders - Elements(ks)
    decreases |ks|
  {
    hide Inv, Released;
    if ks == [] {
      assert st.orders - Elements(ks) == st.orders;
    } else {
      var (rest, k) := (ks[..|ks| - 1], ks[|ks| - 1]);
      assert ks == rest + [k] && k in Elements(ks) && Elements(rest) <= Elements(ks);
      ReleaseAllKeepsInv(st, rest);
      assert k !in Elements(rest);
      ReleaseShape(ReleasedAll(st, rest), k);
      assert Elements(ks) == Elements(rest) + {k};
      assert st.orders - Elements(ks) == st.orders - Elements(rest) - {k};
    }
  }
}
