/** Liquidation, resolution and mutual close: the pot of a live position is paid out exactly, nothing
    saturates or wraps, and the equalities are kept. */
module Settlements {
  import opened Sums
  import opened FixedPoint
  import opened Attestations
  import opened Ledger
  import opened Operations

  // ----- what the vault bounds ------------------------------------------------------------------------------

  lemma AccountNonNegative(st: State, t: nat)
    requires Inv(st) && t in st.accounts
    ensures st.accounts[t].free >= 0 && st.accounts[t].reserved >= 0 && st.accounts[t].locked >= 0
  {
    assert Level(st, t);
    SumNonNegative(st.orders, DueFrom(t));
    SumNonNegative(st.positions, StakeOf(t));
  }

  /** No account, nor two together, is worth more than the vault holds; so every balance is a 64-bit
      amount, and a credit that other accounts pay for cannot overflow. */
  lemma AccountsFit(st: State, t: nat, u: nat)
    requires Inv(st) && t in st.accounts && u in st.accounts
    ensures Worth()(st.accounts[t]) + (if t != u then Worth()(st.accounts[u]) else 0) <= st.vault - st.treasury < U64
  {
    forall v | v in st.accounts ensures Worth()(st.accounts[v]) >= 0 { AccountNonNegative(st, v); }
    SumTake(st.accounts, Worth(), t);
    var rest := st.accounts - {t};
    SumNonNegative(rest, Worth());
    if t != u { SumBounds(rest, Worth(), u); }
  }

  /** A live position's stake is locked in its owners' accounts. */
  lemma StakeLocked(st: State, pk: Key, t: nat)
    requires Inv(st) && pk in st.positions && t in st.accounts
    ensures Stake(st.positions[pk], t) <= st.accounts[t].locked
  {
    assert Level(st, t);
    SumBounds(st.positions, StakeOf(t), pk);
  }

  /** An order's reservation is within its owner's reserved balance. */
  lemma DueReserved(st: State, k: Key)
    requires Inv(st) && k in st.orders
    ensures Due(st.orders[k]) <= st.accounts[st.orders[k].owner].reserved
  {
    var t := st.orders[k].owner;
    assert OrderOk(st, k, st.orders[k]);
    assert Level(st, t);
    SumBounds(st.orders, DueFrom(t), k);
  }

  /** The pot of a live position fits 64 bits. */
  lemma PotFits(st: State, pk: Key)
    requires Inv(st) && pk in st.positions && st.positions[pk].status == LIVE
    ensures var p := st.positions[pk];
      && 2 * p.collateral <= st.vault < U64 && p.longOwner in st.accounts && p.shortOwner in st.accounts
      && p.collateral <= st.accounts[p.longOwner].locked && p.collateral <= st.accounts[p.shortOwner].locked
  {
    var p := st.positions[pk];
    assert PositionOk(st, pk, p);
    StakeLocked(st, pk, p.longOwner);
    StakeLocked(st, pk, p.shortOwner);
    AccountNonNegative(st, p.longOwner);
    AccountNonNegative(st, p.shortOwner);
    AccountsFit(st, p.longOwner, p.shortOwner);
  }

  // ----- equities ---------------------------------------------------------------------------------------------

  /** Twice the collateral, and what it leaves after a part, in saturating 64-bit arithmetic. */
  function Pot(c: nat): nat { if 2 * c < U64 then 2 * c else U64 - 1 }

  function Minus(a: nat, b: nat): nat { if a > b then a - b else 0 }

  function Split(c: nat, pnl: int): (nat, nat) {
    (BoundedEquity(c, pnl), Minus(Pot(c), BoundedEquity(c, pnl)))
  }

  /** The two sides' equities at a mark. */
  function Equities(p: Position, mark: nat): Checked<(nat, nat)>
    requires p.size < U128
  {
    match PnlLongAtoms(p.entry, mark, p.size)
    case Err(e) => Err(e)
    case Ok(pnl) => Ok(Split(p.collateral, pnl))
  }

  /** The two sides' equities at an outcome: all to the short, all to the long, or the mark one half. */
  function ResolvedEquities(p: Position, outcomeBps: nat): Checked<(nat, nat)>
    requires p.size < U128
  {
    if outcomeBps == 0 then Ok(Split(p.collateral, 0 - Saturated(2 * p.collateral)))
    else if outcomeBps == 10_000 then Ok(Split(p.collateral, Saturated(2 * p.collateral)))
    else if outcomeBps == 5_000 then Equities(p, PRICE_ONE / 2)
    else Err(InvalidOutcome)
  }

  lemma ProfitFits(p: Position, mark: nat)
    requires p.size < U128
    ensures PnlLongAtoms(p.entry, mark, p.size).Ok? ==> -I128 <= PnlLongAtoms(p.entry, mark, p.size).value < I128
  {
  }

  /** At a mark the two equities share a pot that fits 64 bits, the long's being the plain clamp of c + pnl. */
  lemma MarkedEquities(p: Position, mark: nat)
    requires p.size < U128 && 2 * p.collateral < U64
    ensures Equities(p, mark).Ok? ==>
      var (l, s) := Equities(p, mark).value;
      var (c, pnl) := (p.collateral as int, PnlLongAtoms(p.entry, mark, p.size).value);
      l + s == 2 * c && l == if c + pnl < 0 then 0 else if pnl > c then 2 * c else c + pnl
  {
    ProfitFits(p, mark);
    hide PnlLongAtoms;
    if Equities(p, mark).Ok? { EquityExact(p.collateral, PnlLongAtoms(p.entry, mark, p.size).value); }
  }

  /** So they do at an outcome. */
  lemma OutcomeEquities(p: Position, outcomeBps: nat)
    requires p.size < U128 && 2 * p.collateral < U64
    ensures ResolvedEquities(p, outcomeBps).Ok? ==>
      var (l, s) := ResolvedEquities(p, outcomeBps).value;
      l + s == 2 * p.collateral && (outcomeBps == 0 ==> l == 0) && (outcomeBps == 10_000 ==> s == 0)
  {
    MarkedEquities(p, PRICE_ONE / 2);
    hide Equities;
    EquityExact(p.collateral, 2 * p.collateral);
    EquityExact(p.collateral, 0 - 2 * p.collateral as int);
  }

  /** In a reachable state the two equities of a live position share its pot exactly. */
  lemma EquitiesShareThePot(st: State, pk: Key, mark: nat, outcomeBps: nat)
    requires Inv(st) && pk in st.positions && st.positions[pk].status == LIVE
    ensures var (p, c) := (st.positions[pk], st.positions[pk].collateral);
      && p.size < U128
      && (Equities(p, mark).Ok? ==>
            var (l, s) := Equities(p, mark).value;
            var pnl := PnlLongAtoms(p.entry, mark, p.size).value;
            && l + s == 2 * c && l == if c + pnl < 0 then 0 else if pnl > c then 2 * c else c + pnl)
      && (ResolvedEquities(p, outcomeBps).Ok? ==>
            var (l, s) := ResolvedEquities(p, outcomeBps).value;
            && l + s == 2 * c && (outcomeBps == 0 ==> l == 0) && (outcomeBps == 10_000 ==> s == 0))
  {
    assert PositionOk(st, pk, st.positions[pk]);
    hide AllLevel, Fit, VaultGap, Equities, ResolvedEquities, PnlLongAtoms;
    PotFits(st, pk);
    MarkedEquities(st.positions[pk], mark);
    OutcomeEquities(st.positions[pk], outcomeBps);
  }

  // ----- paying out ---------------------------------------------------------------------------------------------

  predicate LiveAt(st: State, pk: Key) {
    && pk in st.positions && st.positions[pk].status == LIVE
    && st.positions[pk].longOwner in st.accounts && st.positions[pk].shortOwner in st.accounts
  }

  /** A position closed: both stakes unlocked, and payments made to the owners. */
  function Settled(st: State, pk: Key, status: Status, payLong: int, payShort: int): State
    requires LiveAt(st, pk)
  {
    var p := st.positions[pk];
    Exchanged(st, Delta(p.longOwner, payLong, 0, 0 - p.collateral), Delta(p.shortOwner, payShort, 0, 0 - p.collateral),
              pk, p.(status := status), 0)
  }

  lemma SettleLevel(st: State, pk: Key, status: Status, payLong: nat, payShort: nat, u: nat)
    requires LiveAt(st, pk) && status != LIVE && u in st.accounts && Level(st, u) && VaultGap(st) == 0
    ensures var st' := Settled(st, pk, status, payLong, payShort);
      && u in st'.accounts && Level(st', u) && VaultGap(st') == 2 * st.positions[pk].collateral - payLong - payShort
  {
    var p := st.positions[pk];
    hide ReservedGap, LockedGap, VaultGap, Exchanged;
    ExchangedGaps(st, Delta(p.longOwner, payLong, 0, 0 - p.collateral),
                  Delta(p.shortOwner, payShort, 0, 0 - p.collateral),
                  pk, p.(status := status), 0, u);
  }

  lemma SettleFrame(st: State, pk: Key, status: Status, payLong: nat, payShort: nat)
    requires LiveAt(st, pk)
    ensures var (p, st') := (st.positions[pk], Settled(st, pk, status, payLong, payShort));
      && st'.accounts.Keys == st.accounts.Keys && st' == st.(accounts := st'.accounts, positions := st'.positions)
      && st'.positions == st.positions[pk := p.(status := status)]
      && (Fit(st) ==> Fit(st'))
  {
    var p := st.positions[pk];
    hide ReservedGap, LockedGap, VaultGap, Level;
    ExchangedFrame(st, Delta(p.longOwner, payLong, 0, 0 - p.collateral),
                   Delta(p.shortOwner, payShort, 0, 0 - p.collateral),
                   pk, p.(status := status), 0);
  }

  /** Two payments and a bounty. */
  function PaidOut(st: State, pk: Key, status: Status, payLong: nat, payShort: nat, keeper: nat, bounty: nat): State
    requires LiveAt(st, pk) && keeper in st.accounts
  {
    Adjust(Settled(st, pk, status, payLong, payShort), Delta(keeper, bounty, 0, 0))
  }

  lemma PaidOutLevel(st: State, pk: Key, status: Status, payLong: nat, payShort: nat, keeper: nat, bounty: nat, u: nat)
    requires LiveAt(st, pk) && status != LIVE && keeper in st.accounts && u in st.accounts && Level(st, u)
    requires VaultGap(st) == 0
    ensures var st' := PaidOut(st, pk, status, payLong, payShort, keeper, bounty);
      && u in st'.accounts && Level(st', u)
      && VaultGap(st') == 2 * st.positions[pk].collateral - payLong - payShort - bounty
  {
    hide ReservedGap, LockedGap, VaultGap, Settled;
    SettleLevel(st, pk, status, payLong, payShort, u);
    SettleFrame(st, pk, status, payLong, payShort);
    AdjustGaps(Settled(st, pk, status, payLong, payShort), Delta(keeper, bounty, 0, 0), u);
  }

  lemma PaidOutFrame(st: State, pk: Key, status: Status, payLong: nat, payShort: nat, keeper: nat, bounty: nat)
    requires LiveAt(st, pk) && keeper in st.accounts
    ensures var st' := PaidOut(st, pk, status, payLong, payShort, keeper, bounty);
      && st'.accounts.Keys == st.accounts.Keys && (Fit(st) ==> Fit(st'))
      && st' == st.(accounts := st'.accounts, positions := st.positions[pk := st.positions[pk].(status := status)])
  {
    hide Settled;
    SettleFrame(st, pk, status, payLong, payShort);
    AdjustFrame(Settled(st, pk, status, payLong, payShort), Delta(keeper, bounty, 0, 0));
  }

  lemma PaidOutLevels(st: State, pk: Key, status: Status, payLong: nat, payShort: nat, keeper: nat, bounty: nat)
    requires LiveAt(st, pk) && status != LIVE && keeper in st.accounts && AllLevel(st) && VaultGap(st) == 0
    ensures var st' := PaidOut(st, pk, status, payLong, payShort, keeper, bounty);
      && AllLevel(st') && VaultGap(st') == 2 * st.positions[pk].collateral - payLong - payShort - bounty
      && (Fit(st) ==> Fit(st'))
  {
    hide Fit, Level, VaultGap, PaidOut, LiveAt;
    var st' := PaidOut(st, pk, status, payLong, payShort, keeper, bounty);
    PaidOutFrame(st, pk, status, payLong, payShort, keeper, bounty);
    PaidOutLevel(st, pk, status, payLong, payShort, keeper, bounty, keeper);
    forall u | u in st.accounts ensures Level(st', u) {
      PaidOutLevel(st, pk, status, payLong, payShort, keeper, bounty, u);
    }
  }

  /** A settlement keeps the equalities exactly when it pays out the pot, no more and no less. */
  lemma SettlementConserves(st: State, pk: Key, status: Status, payLong: nat, payShort: nat, keeper: nat, bounty: nat)
    requires Inv(st) && LiveAt(st, pk) && status != LIVE && keeper in st.accounts
    ensures Inv(PaidOut(st, pk, status, payLong, payShort, keeper, bounty))
       <==> payLong + payShort + bounty == 2 * st.positions[pk].collateral
  {
    hide LiveAt, PaidOut, AllLevel, Fit, VaultGap;
    PaidOutLevels(st, pk, status, payLong, payShort, keeper, bounty);
  }

  lemma AdjustNothing(st: State, t: nat)
    requires t in st.accounts
    ensures Adjust(st, Delta(t, 0, 0, 0)) == st
  {
    assert Adjust(st, Delta(t, 0, 0, 0)).accounts == st.accounts;
  }

  // ----- the three settlements ------------------------------------------------------------------------------------

  /** The position is live, its owners differ (one transaction cannot hold one account twice), and
      the attestation is fresh, for its market, and newer than any accepted before. */
  predicate CanSettle(st: State, pk: Key, att: Attestation, now: nat) {
    && LiveAt(st, pk) && st.positions[pk].longOwner != st.positions[pk].shortOwner
    && pk.0 in st.markets && st.markets[pk.0].marketId in st.nonces && st.positions[pk].size < U128
    && var m := st.markets[pk.0];
       ValidateFreshnessAndNonce(att, m.marketId, st.nonces[m.marketId], now, m.maxStaleness) == Accepted
  }

  function Noted(st: State, pk: Key, att: Attestation): State
    requires pk.0 in st.markets
  {
    st.(nonces := st.nonces[st.markets[pk.0].marketId := att.nonce])
  }

  /** The share of c that bps is, narrowed to 64 bits. */
  function Share(c: nat, bps: nat): nat { (c * bps / BPS_DENOM) % U64 }

  function Min(a: nat, b: nat): nat { if a <= b then a else b }

  datatype Spoils = Spoils(long: nat, short: nat, bounty: nat)

  /** The side worth more takes the pot less the bounty; the keeper takes the bounty. */
  function SpoilsOf(p: Position, eq: (nat, nat), bountyBps: nat): Spoils {
    var bounty := Share(p.collateral, bountyBps);
    var prize := Minus(Pot(p.collateral), bounty);
    if eq.0 > eq.1 then Spoils(prize, 0, bounty) else Spoils(0, prize, bounty)
  }

  /** One equity is within the threshold, and the keeper's balance can take the bounty once the
      winner is paid. */
  predicate CanLiquidate(st: State, pk: Key, att: Attestation, keeper: nat, now: nat) {
    && CanSettle(st, pk, att, now) && keeper in st.accounts
    && att.HistoricalLiquidation? && att.pmlc == pk && 0 <= att.breachTs <= now
    && var (p, m) := (st.positions[pk], st.markets[pk.0]);
       var eq := Equities(p, att.mark);
       && eq.Ok? && Min(eq.value.0, eq.value.1) <= Share(p.collateral, m.liquidationBps)
       && KeeperFits(st, pk, SpoilsOf(p, eq.value, m.bountyBps), keeper)
  }

  predicate KeeperFits(st: State, pk: Key, spoils: Spoils, keeper: nat)
    requires LiveAt(st, pk)
  {
    var a := Settled(st, pk, LIQUIDATED, spoils.long, spoils.short).accounts;
    keeper in a && a[keeper].free + spoils.bounty < U64
  }

  function Liquidated(st: State, pk: Key, att: Attestation, keeper: nat, now: nat): State
    requires CanLiquidate(st, pk, att, keeper, now)
  {
    var p := st.positions[pk];
    var spoils := SpoilsOf(p, Equities(p, att.mark).value, st.markets[pk.0].bountyBps);
    Noted(PaidOut(st, pk, LIQUIDATED, spoils.long, spoils.short, keeper, spoils.bounty), pk, att)
  }

  predicate CanResolve(st: State, pk: Key, att: Attestation, now: nat) {
    CanSettle(st, pk, att, now) && att.Resolution? && ResolvedEquities(st.positions[pk], att.outcomeBps).Ok?
  }

  function Resolved(st: State, pk: Key, att: Attestation, now: nat): State
    requires CanResolve(st, pk, att, now)
  {
    var eq := ResolvedEquities(st.positions[pk], att.outcomeBps).value;
    Noted(Settled(st, pk, RESOLVED, eq.0, eq.1), pk, att)
  }

  predicate CanCloseMutual(st: State, pk: Key, att: Attestation, now: nat) {
    && CanSettle(st, pk, att, now) && att.PriceTwap? && att.window == st.markets[pk.0].twapWindow
    && Equities(st.positions[pk], att.price).Ok?
  }

  function ClosedMutually(st: State, pk: Key, att: Attestation, now: nat): State
    requires CanCloseMutual(st, pk, att, now)
  {
    var eq := Equities(st.positions[pk], att.price).value;
    Noted(Settled(st, pk, CLOSED, eq.0, eq.1), pk, att)
  }

  lemma NotedKeepsInv(st: State, pk: Key, att: Attestation)
    requires Inv(st) && pk.0 in st.markets
    ensures Inv(Noted(st, pk, att))
  {
    CountersKeepInv(st, st.nextIds, Noted(st, pk, att).nonces);
  }

  lemma {:induction false} BountyWithinPot(c: nat, bps: nat)
    requires bps <= 2 * BPS_DENOM && 2 * c < U64
    ensures Share(c, bps) == c * bps / BPS_DENOM <= 2 * c
  {
    MulMono(bps, 2 * BPS_DENOM, c);
    assert c * bps <= 2 * c * BPS_DENOM;
  }

  /** Short of narrowing, the bounty outgrows the pot exactly when c·bps reaches (2c + 1)·10000: so a rate
      above 20000 breaks conservation for every large enough bucket. */
  lemma BountyFitsIff(c: nat, bps: nat)
    requires c * bps / BPS_DENOM < U64
    ensures Share(c, bps) <= 2 * c <==> c * bps < (2 * c + 1) * BPS_DENOM
  {
    DivBounds(c * bps, BPS_DENOM);
  }

  /** Liquidation pays winner and keeper the pot between them exactly when the bounty fits in it. */
  lemma LiquidationConserves(st: State, pk: Key, att: Attestation, keeper: nat, now: nat)
    requires Inv(st) && CanLiquidate(st, pk, att, keeper, now)
    ensures Inv(Liquidated(st, pk, att, keeper, now)) <==>
            Share(st.positions[pk].collateral, st.markets[pk.0].bountyBps) <= 2 * st.positions[pk].collateral
  {
    var p := st.positions[pk];
    hide Inv, LiveAt, PaidOut, Equities, Share, SpoilsOf, ValidateFreshnessAndNonce;
    PotFits(st, pk);
    var spoils := SpoilsOf(p, Equities(p, att.mark).value, st.markets[pk.0].bountyBps);
    SpoilsShareThePot(p, Equities(p, att.mark).value, st.markets[pk.0].bountyBps);
    SettlementConserves(st, pk, LIQUIDATED, spoils.long, spoils.short, keeper, spoils.bounty);
    PaidOutFrame(st, pk, LIQUIDATED, spoils.long, spoils.short, keeper, spoils.bounty);
    NotedAside(PaidOut(st, pk, LIQUIDATED, spoils.long, spoils.short, keeper, spoils.bounty), pk, att);
  }

  lemma SpoilsShareThePot(p: Position, eq: (nat, nat), bountyBps: nat)
    requires 2 * p.collateral < U64
    ensures var spoils := SpoilsOf(p, eq, bountyBps);
      && spoils.bounty == Share(p.collateral, bountyBps) && spoils.long + spoils.short <= 2 * p.collateral
      && (spoils.long + spoils.short + spoils.bounty == 2 * p.collateral <==> spoils.bounty <= 2 * p.collateral)
  {
  }

  lemma NotedAside(st: State, pk: Key, att: Attestation)
    requires pk.0 in st.markets && st.markets[pk.0].marketId in st.nonces
    ensures Inv(st) <==> Inv(Noted(st, pk, att))
  {
    if Inv(st) {
      NotedKeepsInv(st, pk, att);
    }
    if Inv(Noted(st, pk, att)) {
      NotedBreaksNothing(st, pk, att);
    }
  }

  lemma NotedBreaksNothing(st: State, pk: Key, att: Attestation)
    requires pk.0 in st.markets && st.markets[pk.0].marketId in st.nonces && Inv(Noted(st, pk, att))
    ensures Inv(st)
  {
    forall u | u in st.accounts ensures Level(st, u) { assert Level(Noted(st, pk, att), u); }
  }

  lemma LiquidateKeepsInv(st: State, pk: Key, att: Attestation, keeper: nat, now: nat)
    requires Inv(st) && CanLiquidate(st, pk, att, keeper, now) && st.markets[pk.0].bountyBps <= 2 * BPS_DENOM
    ensures Inv(Liquidated(st, pk, att, keeper, now))
  {
    PotFits(st, pk);
    BountyWithinPot(st.positions[pk].collateral, st.markets[pk.0].bountyBps);
    hide Inv, Liquidated, KeeperFits;
    LiquidationConserves(st, pk, att, keeper, now);
  }

  /** Paying the two equities keeps the equalities. */
  lemma EquitiesKeepInv(st: State, pk: Key, status: Status, payLong: nat, payShort: nat, att: Attestation)
    requires Inv(st) && LiveAt(st, pk) && status != LIVE && pk.0 in st.markets
    requires payLong + payShort == 2 * st.positions[pk].collateral
    ensures Settled(st, pk, status, payLong, payShort).markets == st.markets
    ensures Inv(Noted(Settled(st, pk, status, payLong, payShort), pk, att))
  {
    var keeper := st.positions[pk].longOwner;
    hide Inv, Settled;
    SettlementConserves(st, pk, status, payLong, payShort, keeper, 0);
    SettleFrame(st, pk, status, payLong, payShort);
    AdjustNothing(Settled(st, pk, status, payLong, payShort), keeper);
    NotedKeepsInv(Settled(st, pk, status, payLong, payShort), pk, att);
  }

  lemma ResolveKeepsInv(st: State, pk: Key, att: Attestation, now: nat)
    requires Inv(st) && CanResolve(st, pk, att, now)
    ensures Inv(Resolved(st, pk, att, now))
  {
    hide Inv, Settled, ResolvedEquities;
    EquitiesShareThePot(st, pk, 0, att.outcomeBps);
    var eq := ResolvedEquities(st.positions[pk], att.outcomeBps).value;
    EquitiesKeepInv(st, pk, RESOLVED, eq.0, eq.1, att);
  }

  lemma CloseMutualKeepsInv(st: State, pk: Key, att: Attestation, now: nat)
    requires Inv(st) && CanCloseMutual(st, pk, att, now)
    ensures Inv(ClosedMutually(st, pk, att, now))
  {
    hide Inv, Settled, Equities;
    EquitiesShareThePot(st, pk, att.price, 0);
    var eq := Equities(st.positions[pk], att.price).value;
    EquitiesKeepInv(st, pk, CLOSED, eq.0, eq.1, att);
  }
}
