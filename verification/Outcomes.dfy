/** Who gains what: the effect of each trade and settlement on every account, in plain amounts. */
module Outcomes {
  import opened FixedPoint
  import opened Attestations
  import opened Ledger
  import opened Operations
  import opened Trades
  import opened Settlements
  import opened Handovers

  /** Account t gained these amounts. */
  predicate Gained(st: State, st': State, t: nat, free: int, reserved: int, locked: int) {
    t in st.accounts && t in st'.accounts
    && st'.accounts[t] == Balance(st.accounts[t].free + free, st.accounts[t].reserved + reserved,
                                  st.accounts[t].locked + locked)
  }

  /** Everyone outside s has exactly what they had. */
  ghost predicate OthersKeep(st: State, st': State, s: set<nat>) {
    && st'.accounts.Keys == st.accounts.Keys
    && forall t :: t in st.accounts && t !in s ==> st'.accounts[t] == st.accounts[t]
  }

  lemma ExchangedGains(st: State, d: Delta, e: Delta, pk: Key, p: Position, fee: nat, t: nat)
    requires d.owner in st.accounts && e.owner in st.accounts && t in st.accounts
    ensures var st' := Exchanged(st, d, e, pk, p, fee);
      && Gained(st, st', t, For(d, t, d.free) + For(e, t, e.free), For(d, t, d.reserved) + For(e, t, e.reserved),
                For(d, t, d.locked) + For(e, t, e.locked))
      && OthersKeep(st, st', {d.owner, e.owner})
  {
  }

  /** A mutual close at a mark: each owner's stake comes back as its equity, the long's being its
      collateral plus its profit within [0, 2c] and the short's the rest of the pot. */
  lemma CloseMutualPays(st: State, pk: Key, att: Attestation, now: nat)
    requires Inv(st) && CanCloseMutual(st, pk, att, now)
    ensures var (st', p, c) := (ClosedMutually(st, pk, att, now), st.positions[pk], st.positions[pk].collateral as int);
      var equity := c + PnlLongAtoms(p.entry, att.price, p.size).value;
      var long := if equity < 0 then 0 else if equity > 2 * c then 2 * c else equity;
      && Gained(st, st', p.longOwner, long, 0, 0 - c) && Gained(st, st', p.shortOwner, 2 * c - long, 0, 0 - c)
      && OthersKeep(st, st', {p.longOwner, p.shortOwner}) && st'.positions == st.positions[pk := p.(status := CLOSED)]
  {
    hide AllLevel, Fit, VaultGap, Equities, Settled, PnlLongAtoms;
    EquitiesShareThePot(st, pk, att.price, 0);
    EquitiesAre(st.positions[pk], att.price);
    var eq := Equities(st.positions[pk], att.price).value;
    SettledGains(st, pk, CLOSED, eq.0, eq.1);
  }

  lemma EquitiesAre(p: Position, mark: nat)
    requires p.size < U128
    ensures Equities(p, mark).Ok? ==> PnlLongAtoms(p.entry, mark, p.size).Ok?
  {
  }

  lemma SettledGains(st: State, pk: Key, status: Status, payLong: nat, payShort: nat)
    requires LiveAt(st, pk) && st.positions[pk].longOwner != st.positions[pk].shortOwner
    ensures var (st', p, c) := (Settled(st, pk, status, payLong, payShort), st.positions[pk],
                                st.positions[pk].collateral as int);
      && Gained(st, st', p.longOwner, payLong, 0, 0 - c) && Gained(st, st', p.shortOwner, payShort, 0, 0 - c)
      && OthersKeep(st, st', {p.longOwner, p.shortOwner}) && st'.positions == st.positions[pk := p.(status := status)]
  {
    var p := st.positions[pk];
    SettleFrame(st, pk, status, payLong, payShort);
    var (d, e) := (Delta(p.longOwner, payLong, 0, 0 - p.collateral),
                   Delta(p.shortOwner, payShort, 0, 0 - p.collateral));
    hide Exchanged;
    ExchangedGains(st, d, e, pk, p.(status := status), 0, p.longOwner);
    ExchangedGains(st, d, e, pk, p.(status := status), 0, p.shortOwner);
  }

  /** A resolution at 0 or 1 gives one side the whole pot and the other nothing. */
  lemma ResolvePaysTheWinner(st: State, pk: Key, att: Attestation, now: nat)
    requires Inv(st) && CanResolve(st, pk, att, now) && (att.outcomeBps == 0 || att.outcomeBps == 10_000)
    ensures var (st', p, c) := (Resolved(st, pk, att, now), st.positions[pk], st.positions[pk].collateral as int);
      && Gained(st, st', if att.outcomeBps == 0 then p.shortOwner else p.longOwner, 2 * c, 0, 0 - c)
      && Gained(st, st', if att.outcomeBps == 0 then p.longOwner else p.shortOwner, 0, 0, 0 - c)
      && OthersKeep(st, st', {p.longOwner, p.shortOwner}) && st'.positions == st.positions[pk := p.(status := RESOLVED)]
  {
    hide AllLevel, Fit, VaultGap, ResolvedEquities, Settled;
    EquitiesShareThePot(st, pk, 0, att.outcomeBps);
    var eq := ResolvedEquities(st.positions[pk], att.outcomeBps).value;
    SettledGains(st, pk, RESOLVED, eq.0, eq.1);
  }

  /** A liquidation gives the side worth more the pot less the bounty, or nothing when the bounty is
      more, the other side nothing, and the keeper the bounty, which up to a rate of 20000 is within the
      pot. */
  lemma LiquidationPays(st: State, pk: Key, att: Attestation, keeper: nat, now: nat)
    requires Inv(st) && CanLiquidate(st, pk, att, keeper, now)
    ensures var (st', p, c) := (Liquidated(st, pk, att, keeper, now), st.positions[pk],
                                st.positions[pk].collateral as int);
      var (bounty, eq) := (Share(p.collateral, st.markets[pk.0].bountyBps), Equities(p, att.mark).value);
      var (winner, loser) := if eq.0 > eq.1 then (p.longOwner, p.shortOwner) else (p.shortOwner, p.longOwner);
      var prize := if bounty <= 2 * c then 2 * c - bounty else 0;
      && Gained(st, st', winner, prize + (if keeper == winner then bounty else 0), 0, 0 - c)
      && Gained(st, st', loser, if keeper == loser then bounty else 0, 0, 0 - c)
      && (keeper != winner && keeper != loser ==> Gained(st, st', keeper, bounty, 0, 0))
      && OthersKeep(st, st', {winner, loser, keeper}) && st'.positions == st.positions[pk := p.(status := LIQUIDATED)]
    ensures var (c, bps) := (st.positions[pk].collateral, st.markets[pk.0].bountyBps);
      bps <= 2 * BPS_DENOM ==> Share(c, bps) == c * bps / BPS_DENOM <= 2 * c
  {
    hide AllLevel, VaultGap, Fit, Equities, Settled, Share, ValidateFreshnessAndNonce, KeeperFits;
    var p := st.positions[pk];
    PotFits(st, pk);
    if st.markets[pk.0].bountyBps <= 2 * BPS_DENOM { BountyWithinPot(p.collateral, st.markets[pk.0].bountyBps); }
    var spoils := SpoilsOf(p, Equities(p, att.mark).value, st.markets[pk.0].bountyBps);
    SettledGains(st, pk, LIQUIDATED, spoils.long, spoils.short);
    SettleFrame(st, pk, LIQUIDATED, spoils.long, spoils.short);
  }

  /** A novation moves one stake from one account to the other and nothing else. */
  lemma NovationMoves(st: State, pk: Key, long: bool, t: nat)
    requires CanNovate(st, pk, long, t) && OwnerOf(st.positions[pk], long) != t
    ensures var (st', p, c) := (Novated(st, pk, long, t), st.positions[pk], st.positions[pk].collateral as int);
      && Gained(st, st', OwnerOf(p, long), c, 0, 0 - c) && Gained(st, st', t, 0 - c, 0, c)
      && OthersKeep(st, st', {OwnerOf(p, long), t})
      && OwnerOf(st'.positions[pk], long) == t && OwnerOf(st'.positions[pk], !long) == OwnerOf(p, !long)
      && (st'.positions[pk].entry, st'.positions[pk].size, st'.positions[pk].collateral)
         == (p.entry, p.size, p.collateral)
  {
    var p := st.positions[pk];
    NovateFrame(st, pk, long, t);
    var (d, e) := (Delta(OwnerOf(p, long), p.collateral, 0, 0 - p.collateral),
                   Delta(t, 0 - p.collateral, 0, p.collateral));
    hide Exchanged;
    ExchangedGains(st, d, e, pk, WithOwner(p, long, t), 0, OwnerOf(p, long));
    ExchangedGains(st, d, e, pk, WithOwner(p, long, t), 0, t);
  }

  /** A match between two traders: each side's bucket moves from reserved to locked and its share of
      the fee buffer comes free; the later poster pays the fee; the position opens at the floor of the
      mean of the two limits, so within both. */
  lemma MatchMoves(st: State, kl: Key, ks: Key, fee: nat, now: nat)
    requires Inv(st) && CanMatch(st, kl, ks, fee, now) && st.orders[kl].owner != st.orders[ks].owner
    ensures var (st', l, s, c) := (MatchedPair(st, kl, ks, fee, now), st.orders[kl], st.orders[ks],
                                   st.markets[kl.0].bucket);
      var (feeLong, feeShort) := if l.data.postSeq > s.data.postSeq then (fee, 0) else (0, fee);
      && Gained(st, st', l.owner, ReleaseOfOne(l.data) - feeLong, 0 - (c + ReleaseOfOne(l.data)), c)
      && Gained(st, st', s.owner, ReleaseOfOne(s.data) - feeShort, 0 - (c + ReleaseOfOne(s.data)), c)
      && OthersKeep(st, st', {l.owner, s.owner}) && st'.treasury == st.treasury + fee
    ensures var (st', pk) := (MatchedPair(st, kl, ks, fee, now), (kl.0, st.nextIds[kl.0]));
      && pk !in st.positions && OpensBetween(st, st', pk, st.orders[kl], st.orders[ks], st.markets[kl.0].bucket)
  {
    hide Inv, Fit, ReleaseOfOne, SizeOf, Matched, Purse, OrderOk, PositionOk, PositionsOk, OrdersOk, MarketsOk,
      PriceMidpoint;
    InvFits(st);
    var pk, p := MatchOpens(st, kl, ks, fee, now);
    MatchEntry(st, kl, ks, fee, now);
    MatchFrame(st, kl, ks, pk, p, fee);
    MatchedGains(st, kl, ks, pk, p, fee);
  }

  /** The only new position is pk, between the two owners, entered within both limits. */
  predicate OpensBetween(st: State, st': State, pk: Key, l: Order, s: Order, c: nat) {
    && l.data.Intent? && s.data.Intent? && pk in st'.positions && st'.positions == st.positions[pk := st'.positions[pk]]
    && var p := st'.positions[pk];
       && p.longOwner == l.owner && p.shortOwner == s.owner && p.collateral == c && p.status == LIVE
       && p.entry == (l.data.price + s.data.price) / 2 && s.data.price <= p.entry <= l.data.price
  }

  lemma MatchEntry(st: State, kl: Key, ks: Key, fee: nat, now: nat)
    requires Inv(st) && CanMatch(st, kl, ks, fee, now)
    ensures var (st', pk) := (MatchedPair(st, kl, ks, fee, now), (kl.0, st.nextIds[kl.0]));
      OpensBetween(st, st', pk, st.orders[kl], st.orders[ks], st.markets[kl.0].bucket)
  {
    var (l, s) := (st.orders[kl], st.orders[ks]);
    MidpointIsFloorMean(l.data.price, s.data.price);
    MidpointIsFloorMean(s.data.price, l.data.price);
    var size := SizeOf(st.markets[kl.0], PriceMidpoint(l.data.price, s.data.price)).value;
    hide AllLevel, Fit, VaultGap, ReleaseOfOne, SizeOf, PriceMidpoint, Matched, Purse;
    assert kl != ks;
    MatchFrame(st, kl, ks, (kl.0, st.nextIds[kl.0]), Contract(st, kl, ks, size), fee);
  }

  lemma MatchedGains(st: State, kl: Key, ks: Key, pk: Key, p: Position, fee: nat)
    requires kl != ks && kl in st.orders && ks in st.orders && OrderOk(st, kl, st.orders[kl])
    requires OrderOk(st, ks, st.orders[ks])
    requires kl.0 == ks.0 && st.orders[kl].owner != st.orders[ks].owner
    ensures st.orders[kl].data.Intent? && st.orders[ks].data.Intent? && kl.0 in st.markets
    ensures var (st', l, s, c) := (Matched(st, kl, ks, pk, p, fee), st.orders[kl], st.orders[ks],
                                   st.markets[kl.0].bucket);
      var (feeLong, feeShort) := if l.data.postSeq > s.data.postSeq then (fee, 0) else (0, fee);
      && Gained(st, st', l.owner, ReleaseOfOne(l.data) - feeLong, 0 - (c + ReleaseOfOne(l.data)), c)
      && Gained(st, st', s.owner, ReleaseOfOne(s.data) - feeShort, 0 - (c + ReleaseOfOne(s.data)), c)
      && OthersKeep(st, st', {l.owner, s.owner})
  {
    hide ReleaseOfOne, Consumed2, Exchanged, ReservedGap, LockedGap, VaultGap, OrdersOk;
    var (l, s) := (st.orders[kl].owner, st.orders[ks].owner);
    Consumed2Gaps(st, kl, ks, l);
    ExchangedGains(Consumed2(st, kl, ks), LongDelta(st, kl, ks, fee), ShortDelta(st, kl, ks, fee), pk, p, fee, l);
    ExchangedGains(Consumed2(st, kl, ks), LongDelta(st, kl, ks, fee), ShortDelta(st, kl, ks, fee), pk, p, fee, s);
  }

  /** A substitution between two traders: the leaver gets its contract's reservation, its stake and the
      premium; the newcomer's bucket locks in its place, and the premium is the leaving side's profit at
      the orders' midpoint when settled, and nothing otherwise. */
  lemma SubstitutionMoves(st: State, kl: Key, ks: Key, pk: Key, t: nat, settle: bool, now: nat)
    requires CanSubstitute(st, kl, ks, pk, t, settle, now) && st.orders[kl].owner != st.orders[ks].owner
    ensures var (swap, premium) := (SwapOf(st, kl, ks, t), PremiumPaid(st, kl, ks, pk, t, settle, now));
      && Swappable(st, swap, pk) && pk.0 == swap.leaving.0 == swap.coming.0
      && var (p, x, n) := (st.positions[pk], st.orders[swap.leaving], st.orders[swap.coming]);
      && x.owner == t && n.owner != t && OwnerOf(p, swap.long) == t
      && var (st', c) := (Substituted(st, swap, pk, premium), p.collateral);
      && Gained(st, st', t, (c + ReleaseOfOne(x.data)) + c + premium, 0 - (c + ReleaseOfOne(x.data)), 0 - c)
      && Gained(st, st', n.owner, ReleaseOfOne(n.data) - premium, 0 - (c + ReleaseOfOne(n.data)), c)
      && OthersKeep(st, st', {t, n.owner})
    ensures var (p, premium) := (st.positions[pk], PremiumPaid(st, kl, ks, pk, t, settle, now));
      var profit := PnlLongAtoms(p.entry, PriceMidpoint(st.orders[kl].data.price, st.orders[ks].data.price), p.size);
      && (!settle ==> premium == 0)
      && (settle ==> profit.Ok? && premium == if SwapOf(st, kl, ks, t).long then profit.value else 0 - profit.value)
  {
    hide AllLevel, Fit, VaultGap, ReleaseOfOne, PriceMidpoint, Substituted, PnlLongAtoms, Affords, OrderOk;
    SubstitutedGains(st, SwapOf(st, kl, ks, t), pk, PremiumPaid(st, kl, ks, pk, t, settle, now));
  }

  lemma SubstitutedGains(st: State, swap: Swap, pk: Key, premium: int)
    requires Swappable(st, swap, pk) && pk.0 == swap.leaving.0 == swap.coming.0
    requires st.positions[pk].collateral == st.markets[pk.0].bucket
    requires st.orders[swap.leaving].owner != st.orders[swap.coming].owner
    ensures var (p, x, n) := (st.positions[pk], st.orders[swap.leaving], st.orders[swap.coming]);
      && x.data.Intent? && n.data.Intent? && x.data.remaining > 0 && n.data.remaining > 0
      && var (st', c) := (Substituted(st, swap, pk, premium), p.collateral);
      && Gained(st, st', x.owner, (c + ReleaseOfOne(x.data)) + c + premium, 0 - (c + ReleaseOfOne(x.data)), 0 - c)
      && Gained(st, st', n.owner, ReleaseOfOne(n.data) - premium, 0 - (c + ReleaseOfOne(n.data)), c)
      && OthersKeep(st, st', {x.owner, n.owner})
  {
    hide ReleaseOfOne, Consumed2, Exchanged, ReservedGap, LockedGap, VaultGap, OrdersOk;
    var (x, n) := (st.orders[swap.leaving].owner, st.orders[swap.coming].owner);
    var gone := Consumed2(st, swap.leaving, swap.coming);
    Consumed2Gaps(st, swap.leaving, swap.coming, x);
    var p' := WithOwner(st.positions[pk], swap.long, n);
    ExchangedGains(gone, LeaverDelta(st, swap, pk, premium), ComerDelta(st, swap, pk, premium), pk, p', 0, x);
    ExchangedGains(gone, LeaverDelta(st, swap, pk, premium), ComerDelta(st, swap, pk, premium), pk, p', 0, n);
  }
}
