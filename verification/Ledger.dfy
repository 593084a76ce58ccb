/** The collateral ledger of one mint, over any number of markets: what each operation moves, and
    the equalities that tie accounts to resting orders, live positions, and the vault. */
module Ledger {
  import opened Nodes
  import opened Sums
  import opened FixedPoint

  /** A margin account. */
  datatype Balance = Balance(free: int, reserved: int, locked: int)

  /** A resting intent with its owner resolved. */
  datatype Order = Order(owner: nat, data: Data)

  datatype Status = LIVE | CLOSED | LIQUIDATED | RESOLVED

  datatype Position = Position(status: Status, longOwner: nat, shortOwner: nat, collateral: nat,
                               entry: nat, size: nat, longReentry: bool, shortReentry: bool,
                               longPrice: nat, shortPrice: nat)

  datatype Market = Market(marketId: nat, bucket: nat, leverageBps: nat, tick: nat, liquidationBps: nat,
                           bountyBps: nat, twapWindow: nat, maxStaleness: nat)

  /** A slot of a market's book, or a position of a market. */
  type Key = (nat, nat)

  /** `nextIds` is each book's id counter, which numbers intents and positions alike; `nonces` is the
      last accepted attestation nonce of each attested market. */
  datatype State = State(markets: map<nat, Market>, accounts: map<nat, Balance>, orders: map<Key, Order>,
                         positions: map<Key, Position>, nextIds: map<nat, nat>, nonces: map<nat, nat>,
                         treasury: int, swept: nat, vault: int)

  // ----- the equalities --------------------------------------------------------------------------------

  /** What an order keeps reserved. */
  ghost function Due(o: Order): int {
    if o.data.Intent? then o.data.reserved + o.data.feeBuffer else 0
  }

  ghost function DueFrom(t: nat): Order -> int { (o: Order) => if o.owner == t then Due(o) else 0 }

  /** What a position keeps locked. */
  ghost function Stake(p: Position, t: nat): int {
    if p.status != LIVE then 0
    else (if p.longOwner == t then p.collateral else 0) + (if p.shortOwner == t then p.collateral else 0)
  }

  ghost function StakeOf(t: nat): Position -> int { (p: Position) => Stake(p, t) }

  ghost function Worth(): Balance -> int { (b: Balance) => b.free + b.reserved + b.locked }

  /** How far each equality is from holding. */
  ghost function ReservedGap(st: State, t: nat): int
    requires t in st.accounts
  {
    st.accounts[t].reserved - Sum(st.orders, DueFrom(t))
  }

  ghost function LockedGap(st: State, t: nat): int
    requires t in st.accounts
  {
    st.accounts[t].locked - Sum(st.positions, StakeOf(t))
  }

  ghost function VaultGap(st: State): int {
    st.vault - Sum(st.accounts, Worth()) - st.treasury
  }

  /** An order in a market m holds one bucket for each contract it still seeks. */
  predicate OrderOk(st: State, k: Key, o: Order) {
    && o.owner in st.accounts && o.data.Intent? && k.0 in st.markets
    && o.data.remaining > 0 && o.data.reserved == o.data.remaining * st.markets[k.0].bucket
  }

  ghost predicate OrdersOk(st: State) {
    forall k :: k in st.orders ==> OrderOk(st, k, st.orders[k])
  }

  /** A position has an id its book has given out, owners with accounts, and one bucket a side. */
  predicate PositionOk(st: State, k: Key, p: Position) {
    && k.0 in st.markets && k.0 in st.nextIds && k.1 < st.nextIds[k.0]
    && p.longOwner in st.accounts && p.shortOwner in st.accounts
    && p.collateral == st.markets[k.0].bucket && p.size < U128
  }

  ghost predicate PositionsOk(st: State) {
    forall k :: k in st.positions ==> PositionOk(st, k, st.positions[k])
  }

  /** Every instrument was created with a non-zero bucket and tick, and has counters. */
  ghost predicate MarketsOk(st: State) {
    && st.nextIds.Keys == st.markets.Keys
    && forall m :: m in st.markets ==>
      0 < st.markets[m].bucket < U64 && 0 < st.markets[m].tick && st.markets[m].marketId in st.nonces
  }

  ghost predicate Level(st: State, t: nat)
    requires t in st.accounts
  {
    st.accounts[t].free >= 0 && ReservedGap(st, t) == 0 && LockedGap(st, t) == 0
  }

  ghost predicate AllLevel(st: State) {
    forall t :: t in st.accounts ==> Level(st, t)
  }

  /** Every order, position and instrument is well formed. */
  ghost predicate Fit(st: State) {
    OrdersOk(st) && PositionsOk(st) && MarketsOk(st) && st.treasury >= 0 && st.vault < U64
  }

  /** What holds in every reachable state: accounts level with orders and positions, and the vault
      level with accounts and treasury. */
  ghost predicate Inv(st: State) {
    AllLevel(st) && Fit(st) && VaultGap(st) == 0
  }

  // ----- single movements ------------------------------------------------------------------------------

  /** A change to one account. */
  datatype Delta = Delta(owner: nat, free: int, reserved: int, locked: int)

  function Adjust(st: State, d: Delta): State
    requires d.owner in st.accounts
  {
    var b := st.accounts[d.owner];
    st.(accounts := st.accounts[d.owner := Balance(b.free + d.free, b.reserved + d.reserved, b.locked + d.locked)])
  }

  function Adjust2(st: State, d: Delta, e: Delta): State
    requires d.owner in st.accounts && e.owner in st.accounts
  {
    Adjust(Adjust(st, d), e)
  }

  /** An amount, if the delta is u's. */
  function For(d: Delta, u: nat, amount: int): int { if d.owner == u then amount else 0 }

  lemma AdjustGaps(st: State, d: Delta, u: nat)
    requires d.owner in st.accounts && u in st.accounts
    ensures var st' := Adjust(st, d);
      && ReservedGap(st', u) == ReservedGap(st, u) + For(d, u, d.reserved)
      && LockedGap(st', u) == LockedGap(st, u) + For(d, u, d.locked)
      && VaultGap(st') == VaultGap(st) - d.free - d.reserved - d.locked
      && st'.accounts[u].free == st.accounts[u].free + For(d, u, d.free)
  {
    SumPut(st.accounts, Worth(), d.owner, Adjust(st, d).accounts[d.owner]);
  }

  lemma Adjust2Gaps(st: State, d: Delta, e: Delta, u: nat)
    requires d.owner in st.accounts && e.owner in st.accounts && u in st.accounts
    ensures var st' := Adjust2(st, d, e);
      && ReservedGap(st', u) == ReservedGap(st, u) + For(d, u, d.reserved) + For(e, u, e.reserved)
      && LockedGap(st', u) == LockedGap(st, u) + For(d, u, d.locked) + For(e, u, e.locked)
      && VaultGap(st') == VaultGap(st) - d.free - d.reserved - d.locked - e.free - e.reserved - e.locked
      && st'.accounts[u].free == st.accounts[u].free + For(d, u, d.free) + For(e, u, e.free)
  {
    hide ReservedGap, LockedGap, VaultGap;
    AdjustGaps(st, d, u);
    AdjustGaps(Adjust(st, d), e, u);
  }

  lemma AdjustFrame(st: State, d: Delta)
    requires d.owner in st.accounts
    ensures var st' := Adjust(st, d);
      st' == st.(accounts := st'.accounts) && st'.accounts.Keys == st.accounts.Keys && (Fit(st) ==> Fit(st'))
  {
  }

  /** Accounts and balances aside, an adjustment changes nothing. */
  lemma Adjust2Frame(st: State, d: Delta, e: Delta)
    requires d.owner in st.accounts && e.owner in st.accounts
    ensures var st' := Adjust2(st, d, e); st' == st.(accounts := st'.accounts) && st'.accounts.Keys == st.accounts.Keys
  {
  }

  lemma OrderPutGap(st: State, k: Key, o: Order, u: nat)
    requires u in st.accounts
    ensures ReservedGap(st.(orders := st.orders[k := o]), u)
         == ReservedGap(st, u) + (if k in st.orders then DueFrom(u)(st.orders[k]) else 0) - DueFrom(u)(o)
  {
    SumPut(st.orders, DueFrom(u), k, o);
  }

  lemma OrderDropGap(st: State, k: Key, u: nat)
    requires u in st.accounts
    ensures ReservedGap(st.(orders := st.orders - {k}), u)
         == ReservedGap(st, u) + (if k in st.orders then DueFrom(u)(st.orders[k]) else 0)
  {
    SumDrop(st.orders, DueFrom(u), k);
  }

  /** A position written, and a fee accrued. */
  function Placed(st: State, pk: Key, p: Position, fee: nat): State {
    st.(positions := st.positions[pk := p], treasury := st.treasury + fee)
  }

  lemma PlacedGaps(st: State, pk: Key, p: Position, fee: nat, u: nat)
    requires u in st.accounts
    ensures var st' := Placed(st, pk, p, fee);
      && ReservedGap(st', u) == ReservedGap(st, u)
      && LockedGap(st', u)
         == LockedGap(st, u) + (if pk in st.positions then Stake(st.positions[pk], u) else 0) - Stake(p, u)
      && VaultGap(st') == VaultGap(st) - fee
  {
    SumPut(st.positions, StakeOf(u), pk, p);
  }

  // ----- orders -------------------------------------------------------------------------------------------

  /** Posting an order reserves what it owes. */
  function Posted(st: State, k: Key, o: Order): State
    requires o.owner in st.accounts && o.data.Intent?
  {
    var due := o.data.reserved + o.data.feeBuffer;
    Adjust(st.(orders := st.orders[k := o]), Delta(o.owner, 0 - due, due, 0))
  }

  /** Cancelling or pruning an order frees it. */
  function Released(st: State, k: Key): State
    requires k in st.orders && st.orders[k].owner in st.accounts && st.orders[k].data.Intent?
  {
    var o := st.orders[k];
    var due := o.data.reserved + o.data.feeBuffer;
    Adjust(st.(orders := st.orders - {k}), Delta(o.owner, due, 0 - due, 0))
  }

  /** The fee buffer the fill of one contract releases. */
  function ReleaseOfOne(d: Data): nat
    requires d.Intent? && d.remaining > 0
  {
    if d.remaining == 1 then d.feeBuffer else d.feeBuffer / d.remaining
  }

  lemma ShareFits(d: Data, bucket: nat)
    requires d.Intent? && d.remaining > 0 && d.reserved == d.remaining * bucket
    ensures ReleaseOfOne(d) <= d.feeBuffer
    ensures bucket <= d.reserved && d.reserved - bucket == (d.remaining - 1) * bucket
  {
    QuotientAtMost(d.feeBuffer, d.remaining);
    OneLess(d.remaining, bucket);
  }

  lemma OneLess(n: nat, c: nat)
    requires n > 0
    ensures c <= n * c && n * c - c == (n - 1) * c
  {
    MulMono(1, n, c);
  }

  /** What is left of an order when one contract, with its collateral and its share of the fee
      buffer, is taken from it. */
  function LessOne(d: Data, bucket: nat): Data
    requires d.Intent? && d.remaining > 0 && d.reserved == d.remaining * bucket
  {
    ShareFits(d, bucket);
    d.(remaining := d.remaining - 1, reserved := d.reserved - bucket, feeBuffer := d.feeBuffer - ReleaseOfOne(d))
  }

  /** One contract taken from order k; the last one takes the order off the book. */
  function Consumed(st: State, k: Key): State
    requires k in st.orders && OrderOk(st, k, st.orders[k])
  {
    var o := st.orders[k];
    if o.data.remaining == 1 then st.(orders := st.orders - {k})
    else st.(orders := st.orders[k := o.(data := LessOne(o.data, st.markets[k.0].bucket))])
  }

  /** The collateral and fee buffer one contract of order k brings. */
  function Portion(st: State, k: Key): (portion: int)
    requires k in st.orders && OrderOk(st, k, st.orders[k])
  {
    st.markets[k.0].bucket + ReleaseOfOne(st.orders[k].data)
  }

  lemma ConsumedGaps(st: State, k: Key, u: nat)
    requires k in st.orders && OrderOk(st, k, st.orders[k]) && u in st.accounts
    ensures var st' := Consumed(st, k);
      && ReservedGap(st', u) == ReservedGap(st, u) + (if u == st.orders[k].owner then Portion(st, k) else 0)
      && LockedGap(st', u) == LockedGap(st, u) && VaultGap(st') == VaultGap(st)
  {
    ShareFits(st.orders[k].data, st.markets[k.0].bucket);
    if st.orders[k].data.remaining == 1 {
      OrderDropGap(st, k, u);
    } else {
      OrderPutGap(st, k, Consumed(st, k).orders[k], u);
    }
  }

  lemma ConsumedFrame(st: State, k: Key)
    requires k in st.orders && OrderOk(st, k, st.orders[k])
    ensures var st' := Consumed(st, k);
      && st' == st.(orders := st'.orders) && (forall j :: j != k ==> (j in st'.orders <==> j in st.orders))
      && (forall j :: j != k && j in st.orders ==> st'.orders[j] == st.orders[j])
      && (OrdersOk(st) ==> OrdersOk(st'))
  {
    ShareFits(st.orders[k].data, st.markets[k.0].bucket);
  }

  function Consumed2(st: State, k: Key, j: Key): State
    requires k != j && k in st.orders && j in st.orders && OrderOk(st, k, st.orders[k]) && OrderOk(st, j, st.orders[j])
  {
    Consumed(Consumed(st, k), j)
  }

  lemma Consumed2Gaps(st: State, k: Key, j: Key, u: nat)
    requires k != j && k in st.orders && j in st.orders && OrderOk(st, k, st.orders[k]) && OrderOk(st, j, st.orders[j])
    requires u in st.accounts
    ensures var st' := Consumed2(st, k, j);
      && ReservedGap(st', u) == ReservedGap(st, u)
           + (if u == st.orders[k].owner then Portion(st, k) else 0)
           + (if u == st.orders[j].owner then Portion(st, j) else 0)
      && LockedGap(st', u) == LockedGap(st, u) && VaultGap(st') == VaultGap(st)
      && st' == st.(orders := st'.orders) && (OrdersOk(st) ==> OrdersOk(st'))
  {
    hide ReservedGap, LockedGap, VaultGap, ReleaseOfOne, OrdersOk;
    ConsumedGaps(st, k, u);
    ConsumedFrame(st, k);
    ConsumedGaps(Consumed(st, k), j, u);
    ConsumedFrame(Consumed(st, k), j);
  }

  /** Two account changes, a position written, and a fee accrued. */
  function Exchanged(st: State, d: Delta, e: Delta, pk: Key, p: Position, fee: nat): State
    requires d.owner in st.accounts && e.owner in st.accounts
  {
    Placed(Adjust2(st, d, e), pk, p, fee)
  }

  lemma ExchangedGaps(st: State, d: Delta, e: Delta, pk: Key, p: Position, fee: nat, u: nat)
    requires d.owner in st.accounts && e.owner in st.accounts && u in st.accounts
    ensures var st' := Exchanged(st, d, e, pk, p, fee);
      && u in st'.accounts
      && ReservedGap(st', u) == ReservedGap(st, u) + For(d, u, d.reserved) + For(e, u, e.reserved)
      && LockedGap(st', u) == LockedGap(st, u) + For(d, u, d.locked) + For(e, u, e.locked)
           + (if pk in st.positions then Stake(st.positions[pk], u) else 0) - Stake(p, u)
      && VaultGap(st') == VaultGap(st) - d.free - d.reserved - d.locked - e.free - e.reserved - e.locked - fee
      && st'.accounts[u].free == st.accounts[u].free + For(d, u, d.free) + For(e, u, e.free)
  {
    hide ReservedGap, LockedGap, VaultGap, Stake, For, Adjust2;
    Adjust2Gaps(st, d, e, u);
    Adjust2Frame(st, d, e);
    PlacedGaps(Adjust2(st, d, e), pk, p, fee, u);
  }

  lemma ExchangedFrame(st: State, d: Delta, e: Delta, pk: Key, p: Position, fee: nat)
    requires d.owner in st.accounts && e.owner in st.accounts
    ensures var st' := Exchanged(st, d, e, pk, p, fee);
      && st'.accounts.Keys == st.accounts.Keys && st'.vault == st.vault && st'.treasury == st.treasury + fee
      && (OrdersOk(st) ==> OrdersOk(st'))
      && (PositionsOk(st) && PositionOk(st, pk, p) ==> PositionsOk(st')) && (MarketsOk(st) ==> MarketsOk(st'))
  {
    Adjust2Frame(st, d, e);
    hide Adjust2;
  }

  lemma OthersUntouched(st: State, d: Delta, e: Delta, pk: Key, p: Position, fee: nat, u: nat)
    requires d.owner in st.accounts && e.owner in st.accounts && u in st.accounts && u != d.owner && u != e.owner
    ensures var st' := Exchanged(st, d, e, pk, p, fee); u in st'.accounts && st'.accounts[u] == st.accounts[u]
  {
  }

  /** Taking a contract from each of two orders and exchanging balances between their owners moves
      nothing when each owner's reservation falls by what its contract brought, and the stakes and the
      vault balance. */
  lemma ExchangeLevel(st: State, kl: Key, ks: Key, d: Delta, e: Delta, pk: Key, p: Position, fee: nat, u: nat)
    requires kl != ks && kl in st.orders && ks in st.orders && OrderOk(st, kl, st.orders[kl])
    requires OrderOk(st, ks, st.orders[ks])
    requires d.owner == st.orders[kl].owner && e.owner == st.orders[ks].owner && u in st.accounts
    requires d.reserved == 0 - Portion(st, kl) && e.reserved == 0 - Portion(st, ks)
    ensures var st' := Exchanged(Consumed2(st, kl, ks), d, e, pk, p, fee);
      && u in st'.accounts && ReservedGap(st', u) == ReservedGap(st, u)
      && LockedGap(st', u) == LockedGap(st, u) + For(d, u, d.locked) + For(e, u, e.locked)
           + (if pk in st.positions then Stake(st.positions[pk], u) else 0) - Stake(p, u)
      && VaultGap(st') == VaultGap(st) - d.free - d.reserved - d.locked - e.free - e.reserved - e.locked - fee
      && st'.accounts[u].free == st.accounts[u].free + For(d, u, d.free) + For(e, u, e.free)
  {
    assert d.owner in st.accounts && e.owner in st.accounts;
    hide ReservedGap, LockedGap, VaultGap, Stake, Portion, OrderOk, Consumed2, Exchanged, OrdersOk;
    Consumed2Gaps(st, kl, ks, u);
    ExchangedGaps(Consumed2(st, kl, ks), d, e, pk, p, fee, u);
  }
}
