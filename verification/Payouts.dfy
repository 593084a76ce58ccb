/** The settlements in plain arithmetic: when each goes through and the whole state it leaves, said of positions,
    accounts and attestations alone. */
module Payouts {
  import opened FixedPoint
  import opened Attestations
  import opened Ledger
  import opened Operations
  import opened Settlements
  import opened Settling
  import opened Runs

  // ----- the arithmetic -------------------------------------------------------------------------------------

  /** The profit is the product of the move and the size as a signed 128-bit value, over 10^18 and rounded
      towards zero; it is refused exactly when the product leaves 128 bits. */
  lemma ProfitRule(entry: nat, mark: nat, size: nat)
    requires size < 0x1_0000_0000_0000_0000_0000_0000_0000_0000
    ensures var wide := 0x8000_0000_0000_0000_0000_0000_0000_0000;
      var product := (mark - entry) * (if size < wide then size else size - 2 * wide);
      && (PnlLongAtoms(entry, mark, size).Ok? <==> -wide <= product < wide)
      && (PnlLongAtoms(entry, mark, size).Ok? ==>
        var profit := PnlLongAtoms(entry, mark, size).value;
        && (product >= 0 ==>
          profit * 1_000_000_000_000_000_000 <= product < (profit + 1) * 1_000_000_000_000_000_000)
        && (product <= 0 ==>
          (profit - 1) * 1_000_000_000_000_000_000 < product <= profit * 1_000_000_000_000_000_000))
  {
  }

  /** A size is the bucket at its leverage over the entry, each division rounding down; it is refused exactly
      when a product leaves 128 bits. */
  lemma SizeRule(market: Market, entry: nat, notional: nat)
    requires entry > 0 && notional * 10_000 <= market.bucket * market.leverageBps < (notional + 1) * 10_000
    ensures var limit := 0x1_0000_0000_0000_0000_0000_0000_0000_0000;
      && (SizeOf(market, entry).Ok? <==>
        market.bucket * market.leverageBps < limit && notional * 1_000_000_000_000_000_000 < limit)
      && (SizeOf(market, entry).Ok? ==>
        SizeOf(market, entry).value * entry <= notional * 1_000_000_000_000_000_000
          < (SizeOf(market, entry).value + 1) * entry)
  {
    var product := market.bucket * market.leverageBps;
    assert product / 10_000 == notional;
    DivBounds(notional * PRICE_ONE, entry);
  }

  /** A share of up to ten thousand basis points, twice over, is c·bps/10000 rounded down. */
  lemma ShareRule(c: nat, bps: nat)
    requires bps <= 20_000 && 2 * c < 0x1_0000_0000_0000_0000
    ensures Share(c, bps) * 10_000 <= c * bps < (Share(c, bps) + 1) * 10_000
  {
    BountyWithinPot(c, bps);
    DivBounds(c * bps, 10_000);
  }

  // ----- what the guards ask ----------------------------------------------------------------------------------

  /** A live position between two traders, and an observation of its market, neither future nor stale, with a
      nonce above the last one accepted. */
  predicate Attested(st: State, pk: Key, att: Attestation, now: nat) {
    && pk in st.positions && st.positions[pk].status == LIVE
    && st.positions[pk].longOwner != st.positions[pk].shortOwner
    && pk.0 in st.markets
    && var m := st.markets[pk.0];
       && att.marketId == m.marketId && m.marketId in st.nonces && st.nonces[m.marketId] < att.nonce
       && att.timestamp <= now <= att.timestamp + m.maxStaleness
  }

  lemma AttestedIff(st: State, pk: Key, att: Attestation, now: nat)
    requires Fit(st)
    ensures CanSettle(st, pk, att, now) <==> Attested(st, pk, att, now)
  {
    assert pk in st.positions ==> PositionOk(st, pk, st.positions[pk]);
    hide Fit;
  }

  /** Both stakes gone and two payments made, the position closed as `status`, and the nonce noted. */
  function Paying(st: State, pk: Key, status: Status, long: int, short: int, att: Attestation): State
    requires pk in st.positions && st.positions[pk].longOwner in st.accounts
    requires st.positions[pk].shortOwner in st.accounts
  {
    var p := st.positions[pk];
    var (l, s) := (st.accounts[p.longOwner], st.accounts[p.shortOwner]);
    st.(accounts := st.accounts[p.longOwner := Balance(l.free + long, l.reserved, l.locked - p.collateral)]
                               [p.shortOwner := Balance(s.free + short, s.reserved, s.locked - p.collateral)],
        positions := st.positions[pk := p.(status := status)],
        nonces := st.nonces[att.marketId := att.nonce])
  }

  function Within(x: int, top: int): int { if x < 0 then 0 else if x > top then top else x }

  /** A well-formed state in which the pot of pk, while it is live, fits 64 bits. */
  ghost predicate Payable(st: State, pk: Key) {
    Fit(st) && (pk in st.positions && st.positions[pk].status == LIVE ==>
      2 * st.positions[pk].collateral < 0x1_0000_0000_0000_0000)
  }

  /** Every state that meets the equalities is one, for every position. */
  lemma LevelIsPayable(st: State, pk: Key)
    requires Inv(st)
    ensures Payable(st, pk)
  {
    if pk in st.positions && st.positions[pk].status == LIVE { PotFits(st, pk); }
  }

  lemma Owners(st: State, pk: Key)
    requires Payable(st, pk) && pk in st.positions
    ensures Fit(st) && st.positions[pk].longOwner in st.accounts && st.positions[pk].shortOwner in st.accounts
    ensures st.positions[pk].size < U128 && pk.0 in st.markets && st.positions[pk].collateral > 0
    ensures st.positions[pk].status == LIVE ==> 2 * st.positions[pk].collateral < U64
  {
    assert PositionOk(st, pk, st.positions[pk]);
  }

  lemma PayableFits(st: State, pk: Key)
    requires Payable(st, pk)
    ensures Fit(st)
  {
  }

  lemma PayingIs(st: State, pk: Key, status: Status, long: nat, short: nat, att: Attestation)
    requires LiveAt(st, pk) && st.positions[pk].longOwner != st.positions[pk].shortOwner
    requires pk.0 in st.markets && st.markets[pk.0].marketId == att.marketId
    ensures Settled(st, pk, status, long, short).markets == st.markets
    ensures Noted(Settled(st, pk, status, long, short), pk, att) == Paying(st, pk, status, long, short, att)
  {
    SettledFields(st, pk, status, long, short);
    hide Settled;
  }

  // ----- mutual close -----------------------------------------------------------------------------------------

  lemma EquitiesAt(p: Position, mark: nat)
    requires p.size < U128 && 2 * p.collateral < U64
    ensures Equities(p, mark).Ok? <==> PnlLongAtoms(p.entry, mark, p.size).Ok?
    ensures Equities(p, mark).Ok? ==>
      var (c, eq) := (p.collateral as int, Equities(p, mark).value);
      eq.0 == Within(c + PnlLongAtoms(p.entry, mark, p.size).value, 2 * c) && eq.1 == 2 * c - eq.0
  {
    MarkedEquities(p, mark);
    hide PnlLongAtoms;
  }

  /** A mutual close goes through exactly on a price over the instrument's own window at which the profit does
      not overflow; the long gets its collateral and the profit, within the pot, and the short the rest. */
  lemma CloseMutualRule(st: State, pk: Key, att: Attestation, now: nat)
    requires Payable(st, pk)
    ensures Enabled(st, CloseMutual(pk, att, now)) <==>
      && Attested(st, pk, att, now) && att.PriceTwap? && att.window == st.markets[pk.0].twapWindow
      && st.positions[pk].size < U128
      && PnlLongAtoms(st.positions[pk].entry, att.price, st.positions[pk].size).Ok?
    ensures Enabled(st, CloseMutual(pk, att, now)) ==>
      var (p, c) := (st.positions[pk], st.positions[pk].collateral);
      var long := Within(c + PnlLongAtoms(p.entry, att.price, p.size).value, 2 * c);
      && p.longOwner in st.accounts && p.shortOwner in st.accounts
      && Step(st, CloseMutual(pk, att, now)) == Paying(st, pk, CLOSED, long, 2 * c - long, att)
  {
    hide Payable, Fit, CanSettle, PnlLongAtoms, Equities, Settled;
    PayableFits(st, pk);
    AttestedIff(st, pk, att, now);
    if Attested(st, pk, att, now) {
      Owners(st, pk);
      if att.PriceTwap? {
        EquitiesAt(st.positions[pk], att.price);
        if Equities(st.positions[pk], att.price).Ok? {
          var eq := Equities(st.positions[pk], att.price).value;
          PayingIs(st, pk, CLOSED, eq.0, eq.1, att);
        }
      }
    }
  }

  // ----- resolution -------------------------------------------------------------------------------------------

  lemma OutcomeAt(p: Position, outcomeBps: nat)
    requires p.size < U128 && 2 * p.collateral < U64
    ensures ResolvedEquities(p, outcomeBps).Ok? <==>
      || outcomeBps == 0 || outcomeBps == 10_000
      || (outcomeBps == 5_000 && PnlLongAtoms(p.entry, 500_000_000_000_000_000, p.size).Ok?)
    ensures ResolvedEquities(p, outcomeBps).Ok? ==>
      var (c, eq) := (p.collateral as int, ResolvedEquities(p, outcomeBps).value);
      && eq.1 == 2 * c - eq.0 && (outcomeBps == 0 ==> eq.0 == 0) && (outcomeBps == 10_000 ==> eq.0 == 2 * c)
      && (outcomeBps == 5_000 ==>
        eq.0 == Within(c + PnlLongAtoms(p.entry, 500_000_000_000_000_000, p.size).value, 2 * c))
  {
    OutcomeEquities(p, outcomeBps);
    EquitiesAt(p, 500_000_000_000_000_000);
    hide Equities, PnlLongAtoms, Split;
  }

  /** What the long is paid at an outcome: nothing at 0, the pot at 10000, and at 5000 its collateral and the
      profit to a price of one half, within the pot. */
  function LongAtOutcome(p: Position, outcomeBps: nat): int
    requires p.size < U128
    requires outcomeBps == 5_000 ==> PnlLongAtoms(p.entry, 500_000_000_000_000_000, p.size).Ok?
  {
    if outcomeBps == 0 then 0
    else if outcomeBps == 10_000 then 2 * p.collateral
    else if outcomeBps == 5_000 then
      Within(p.collateral + PnlLongAtoms(p.entry, 500_000_000_000_000_000, p.size).value, 2 * p.collateral)
    else 0
  }

  /** A resolution goes through exactly at 0, at 10000, and at 5000 unless the profit to one half overflows; the
      short gets what the long does not. */
  lemma ResolveRule(st: State, pk: Key, att: Attestation, now: nat)
    requires Payable(st, pk)
    ensures Enabled(st, Resolve(pk, att, now)) <==>
      && Attested(st, pk, att, now) && att.Resolution? && att.outcomeBps in {0, 5_000, 10_000}
      && st.positions[pk].size < U128
      && (att.outcomeBps == 5_000 ==>
        PnlLongAtoms(st.positions[pk].entry, 500_000_000_000_000_000, st.positions[pk].size).Ok?)
    ensures Enabled(st, Resolve(pk, att, now)) ==>
      var (p, c) := (st.positions[pk], st.positions[pk].collateral);
      var long := LongAtOutcome(p, att.outcomeBps);
      && p.longOwner in st.accounts && p.shortOwner in st.accounts
      && Step(st, Resolve(pk, att, now)) == Paying(st, pk, RESOLVED, long, 2 * c - long, att)
  {
    hide Payable, Fit, CanSettle, PnlLongAtoms, ResolvedEquities, Settled;
    PayableFits(st, pk);
    AttestedIff(st, pk, att, now);
    if Attested(st, pk, att, now) {
      Owners(st, pk);
      if att.Resolution? {
        OutcomeAt(st.positions[pk], att.outcomeBps);
        if ResolvedEquities(st.positions[pk], att.outcomeBps).Ok? {
          var eq := ResolvedEquities(st.positions[pk], att.outcomeBps).value;
          PayingIs(st, pk, RESOLVED, eq.0, eq.1, att);
        }
      }
    }
  }

  /** Entered at one half, an even outcome pays each side its own stake back. */
  lemma EvenAtEntry(p: Position)
    requires p.size < U128 && p.entry == 500_000_000_000_000_000
    ensures PnlLongAtoms(p.entry, 500_000_000_000_000_000, p.size) == Ok(0)
    ensures LongAtOutcome(p, 5_000) == p.collateral
  {
  }

  // ----- liquidation ------------------------------------------------------------------------------------------

  /** A sum of c·bps/10000, which the source keeps to 64 bits. */
  function Cut(c: nat, bps: nat): nat { (c * bps / 10_000) % 0x1_0000_0000_0000_0000 }

  /** What a liquidation pays: the side the profit favours takes the pot less the bounty. */
  function LongSpoils(p: Position, profit: int, bountyBps: nat): int {
    var bounty := Cut(p.collateral, bountyBps);
    if profit > 0 && bounty < 2 * p.collateral then 2 * p.collateral - bounty else 0
  }

  function ShortSpoils(p: Position, profit: int, bountyBps: nat): int {
    var bounty := Cut(p.collateral, bountyBps);
    if profit <= 0 && bounty < 2 * p.collateral then 2 * p.collateral - bounty else 0
  }

  /** What the keeper has free once the owners are paid. */
  function KeeperFree(st: State, p: Position, profit: int, bountyBps: nat, keeper: nat): int
    requires keeper in st.accounts
  {
    st.accounts[keeper].free + (if keeper == p.longOwner then LongSpoils(p, profit, bountyBps) else 0)
      + (if keeper == p.shortOwner then ShortSpoils(p, profit, bountyBps) else 0)
  }

  function Keeping(st: State, keeper: nat, bounty: int): State
    requires keeper in st.accounts
  {
    var b := st.accounts[keeper];
    st.(accounts := st.accounts[keeper := Balance(b.free + bounty, b.reserved, b.locked)])
  }

  /** The smaller equity is within the threshold exactly when the profit, either way, and the threshold make up
      the collateral. */
  lemma ThresholdIff(p: Position, mark: nat, bps: nat)
    requires p.size < U128 && 2 * p.collateral < U64 && p.collateral > 0 && Equities(p, mark).Ok?
    ensures PnlLongAtoms(p.entry, mark, p.size).Ok?
    ensures var (profit, eq) := (PnlLongAtoms(p.entry, mark, p.size).value, Equities(p, mark).value);
      && (Min(eq.0, eq.1) <= Share(p.collateral, bps) <==> Abs(profit) + Cut(p.collateral, bps) >= p.collateral)
      && (eq.0 > eq.1 <==> profit > 0)
  {
    EquitiesAt(p, mark);
    hide Equities, PnlLongAtoms;
  }

  lemma SpoilsAt(p: Position, mark: nat, bountyBps: nat)
    requires p.size < U128 && 2 * p.collateral < U64 && p.collateral > 0 && Equities(p, mark).Ok?
    ensures PnlLongAtoms(p.entry, mark, p.size).Ok?
    ensures var profit := PnlLongAtoms(p.entry, mark, p.size).value;
      var spoils := SpoilsOf(p, Equities(p, mark).value, bountyBps);
      && spoils.long == LongSpoils(p, profit, bountyBps) && spoils.short == ShortSpoils(p, profit, bountyBps)
      && spoils.bounty == Cut(p.collateral, bountyBps)
  {
    ThresholdIff(p, mark, 0);
    hide Equities, PnlLongAtoms;
  }

  lemma KeeperRoomIff(st: State, pk: Key, spoils: Spoils, keeper: nat)
    requires LiveAt(st, pk) && keeper in st.accounts && st.positions[pk].longOwner != st.positions[pk].shortOwner
    ensures var p := st.positions[pk];
      KeeperFits(st, pk, spoils, keeper) <==>
        st.accounts[keeper].free + (if keeper == p.longOwner then spoils.long else 0)
          + (if keeper == p.shortOwner then spoils.short else 0) + spoils.bounty < U64
  {
    SettledFields(st, pk, LIQUIDATED, spoils.long, spoils.short);
    hide Settled;
  }

  lemma SpoilsPaid(st: State, pk: Key, spoils: Spoils, keeper: nat, att: Attestation)
    requires LiveAt(st, pk) && keeper in st.accounts && st.positions[pk].longOwner != st.positions[pk].shortOwner
    requires pk.0 in st.markets && st.markets[pk.0].marketId == att.marketId
    ensures PaidOut(st, pk, LIQUIDATED, spoils.long, spoils.short, keeper, spoils.bounty).markets == st.markets
    ensures Noted(PaidOut(st, pk, LIQUIDATED, spoils.long, spoils.short, keeper, spoils.bounty), pk, att)
         == Keeping(Paying(st, pk, LIQUIDATED, spoils.long, spoils.short, att), keeper, spoils.bounty)
  {
    PayingIs(st, pk, LIQUIDATED, spoils.long, spoils.short, att);
    SettledFields(st, pk, LIQUIDATED, spoils.long, spoils.short);
    hide Settled;
  }

  /** A liquidation goes through exactly on a breach recorded for this position, not later than now, at a mark
      where the profit, either way, and the threshold make up the collateral, when the keeper's balance takes
      the bounty. The side the profit favours is paid the pot less the bounty. */
  lemma LiquidateRule(st: State, pk: Key, att: Attestation, keeper: nat, now: nat)
    requires Payable(st, pk)
    ensures Enabled(st, Liquidate(pk, att, keeper, now)) <==>
      && Attested(st, pk, att, now) && att.HistoricalLiquidation? && att.pmlc == pk && 0 <= att.breachTs <= now
      && keeper in st.accounts && st.positions[pk].size < U128
      && var (p, m) := (st.positions[pk], st.markets[pk.0]);
         var profit := PnlLongAtoms(p.entry, att.mark, p.size);
         && profit.Ok? && Abs(profit.value) + Cut(p.collateral, m.liquidationBps) >= p.collateral
         && KeeperFree(st, p, profit.value, m.bountyBps, keeper) + Cut(p.collateral, m.bountyBps)
              < 0x1_0000_0000_0000_0000
    ensures Enabled(st, Liquidate(pk, att, keeper, now)) ==>
      var (p, bps) := (st.positions[pk], st.markets[pk.0].bountyBps);
      var profit := PnlLongAtoms(p.entry, att.mark, p.size).value;
      && p.longOwner in st.accounts && p.shortOwner in st.accounts
      && Step(st, Liquidate(pk, att, keeper, now))
         == Keeping(Paying(st, pk, LIQUIDATED, LongSpoils(p, profit, bps), ShortSpoils(p, profit, bps), att), keeper,
                    Cut(p.collateral, bps))
  {
    hide Payable, Fit, CanSettle, PnlLongAtoms, Equities, Settled, PaidOut, KeeperFits, SpoilsOf, Cut, Share, Min,
      LongSpoils, ShortSpoils;
    PayableFits(st, pk);
    AttestedIff(st, pk, att, now);
    if Attested(st, pk, att, now) && att.HistoricalLiquidation? && keeper in st.accounts {
      var (p, m) := (st.positions[pk], st.markets[pk.0]);
      Owners(st, pk);
      EquitiesAt(p, att.mark);
      if Equities(p, att.mark).Ok? {
        ThresholdIff(p, att.mark, m.liquidationBps);
        SpoilsAt(p, att.mark, m.bountyBps);
        var spoils := SpoilsOf(p, Equities(p, att.mark).value, m.bountyBps);
        KeeperRoomIff(st, pk, spoils, keeper);
        SpoilsPaid(st, pk, spoils, keeper, att);
      }
    }
  }

  lemma CutBelow(c: nat, bps: nat)
    requires 0 < c && 2 * c < U64 && bps < 10_000
    ensures Cut(c, bps) < c
  {
    MulMono(bps, 9_999, c);
    assert c * bps <= 9_999 * c;
  }

  /** Below a threshold of the whole collateral nothing is liquidated at its entry, */
  lemma NoneAtEntry(st: State, pk: Key, att: Attestation, keeper: nat, now: nat)
    requires Payable(st, pk) && pk in st.positions && pk.0 in st.markets && st.markets[pk.0].liquidationBps < 10_000
    requires att.HistoricalLiquidation? && att.mark == st.positions[pk].entry
    ensures !Enabled(st, Liquidate(pk, att, keeper, now))
  {
    var (p, bps) := (st.positions[pk], st.markets[pk.0].liquidationBps);
    Owners(st, pk);
    assert PnlLongAtoms(p.entry, p.entry, p.size) == Ok(0);
    hide Payable, Fit, Enabled, PnlLongAtoms, Cut, KeeperFree;
    LiquidateRule(st, pk, att, keeper, now);
    if p.status == LIVE { CutBelow(p.collateral, bps); }
  }

  /** and the side that is paid is one the mark has moved for. */
  lemma FavouredSide(entry: nat, mark: nat, size: nat)
    requires size < 0x8000_0000_0000_0000_0000_0000_0000_0000 && PnlLongAtoms(entry, mark, size).Ok?
    ensures PnlLongAtoms(entry, mark, size).value > 0 ==> mark > entry
    ensures PnlLongAtoms(entry, mark, size).value < 0 ==> mark < entry
  {
    if mark >= entry { assert (mark - entry) * size >= 0; }
    if mark <= entry { assert (mark - entry) * size <= 0; }
  }
}
