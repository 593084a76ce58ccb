/** Prices and sizes over whole runs: what the checks at posting and matching guarantee ever after, and
    when arithmetic cannot stand in the way of a settlement. */
module Sizes {
  import opened FixedPoint
  import opened Attestations
  import opened Ledger
  import opened Operations
  import opened Settlements
  import opened Handovers
  import opened Reentry
  import opened Runs

  // ----- the invariant --------------------------------------------------------------------------------------

  /** A price strictly between nothing and 10^18, and a multiple of the tick. */
  predicate OnTick(price: nat, tick: nat) { tick > 0 && 0 < price < 1_000_000_000_000_000_000 && price % tick == 0 }

  /** That is what the source checks. */
  lemma OnTickIff(price: nat, tick: nat)
    requires tick > 0
    ensures ValidatePriceTicked(price, tick).Ok? <==> OnTick(price, tick)
  {
  }

  /** An order's limit is on its instrument's tick. */
  predicate Aligned(st: State, k: Key, o: Order) {
    k.0 in st.markets && o.data.Intent? && OnTick(o.data.price, st.markets[k.0].tick)
  }

  /** A position remembers two crossing limits on its instrument's tick, was entered at the floor of their mean,
      and has the size its instrument gives that entry. */
  predicate SizedFor(market: Market, p: Position) {
    && OnTick(p.longPrice, market.tick) && OnTick(p.shortPrice, market.tick)
    && p.shortPrice <= p.longPrice && p.entry == (p.longPrice + p.shortPrice) / 2
    && SizeOf(market, p.entry) == Ok(p.size)
  }

  ghost predicate OrdersAligned(st: State) {
    forall k :: k in st.orders ==> Aligned(st, k, st.orders[k])
  }

  ghost predicate PositionsSized(st: State) {
    forall pk :: pk in st.positions ==> pk.0 in st.markets && SizedFor(st.markets[pk.0], st.positions[pk])
  }

  // ----- what a step does to orders -------------------------------------------------------------------------

  /** Every order of the one state was in the other, at the same price. */
  ghost predicate Carried(orders: map<Key, Order>, orders': map<Key, Order>) {
    forall k :: k in orders' ==>
      && k in orders
      && (orders[k].data.Intent? ==> orders'[k].data.Intent? && orders'[k].data.price == orders[k].data.price)
  }

  lemma ConsumedCarries(st: State, k: Key, j: Key)
    requires k != j && k in st.orders && j in st.orders && OrderOk(st, k, st.orders[k]) && OrderOk(st, j, st.orders[j])
    ensures Carried(st.orders, Consumed2(st, k, j).orders)
  {
    ShareFits(st.orders[k].data, st.markets[k.0].bucket);
    ShareFits(st.orders[j].data, st.markets[j.0].bucket);
  }

  lemma {:induction false} ReleasesCarry(st: State, ks: seq<Key>)
    ensures Carried(st.orders, ReleasedAll(st, ks).orders) && ReleasedAll(st, ks).markets == st.markets
    decreases |ks|
  {
    if ks != [] { ReleasesCarry(st, ks[..|ks| - 1]); }
  }

  lemma ExchangeOrders(st: State, d: Delta, e: Delta, pk: Key, p: Position, fee: nat)
    requires d.owner in st.accounts && e.owner in st.accounts
    ensures var st' := Exchanged(st, d, e, pk, p, fee);
      && st'.orders == st.orders && st'.positions == st.positions[pk := p] && st'.markets == st.markets
  {
  }

  /** A match adds one position, of the size its instrument gives the midpoint. */
  lemma MatchWrites(st: State, kl: Key, ks: Key, fee: nat, now: nat)
    requires CanMatch(st, kl, ks, fee, now)
    ensures var (st', pk) := (MatchedPair(st, kl, ks, fee, now), (kl.0, st.nextIds[kl.0]));
      var entry := PriceMidpoint(st.orders[kl].data.price, st.orders[ks].data.price);
      && Carried(st.orders, st'.orders) && st'.markets == st.markets
      && st'.positions == st.positions[pk := Contract(st, kl, ks, SizeOf(st.markets[kl.0], entry).value)]
  {
    assert kl != ks && st.orders[kl].owner in st.accounts && st.orders[ks].owner in st.accounts;
    ConsumedCarries(st, kl, ks);
    assert Consumed2(st, kl, ks) == st.(orders := Consumed2(st, kl, ks).orders);
    var entry := PriceMidpoint(st.orders[kl].data.price, st.orders[ks].data.price);
    var size := SizeOf(st.markets[kl.0], entry).value;
    hide Consumed2, Exchanged, Carried, SizeOf, PriceMidpoint;
    ExchangeOrders(Consumed2(st, kl, ks), LongDelta(st, kl, ks, fee), ShortDelta(st, kl, ks, fee),
                   (kl.0, st.nextIds[kl.0]), Contract(st, kl, ks, size), fee);
  }

  lemma MatchOrders(st: State, op: Op)
    requires op.Match? && Enabled(st, op)
    ensures Carried(st.orders, Step(st, op).orders) && Step(st, op).markets == st.markets
  {
    hide CanMatch, MatchedPair, Carried;
    MatchWrites(st, op.kl, op.ks, op.fee, op.now);
  }

  lemma SwapCarries(st: State, swap: Swap, pk: Key, premium: int)
    requires Swappable(st, swap, pk)
    ensures Carried(st.orders, Substituted(st, swap, pk, premium).orders)
  {
    assert st.orders[swap.leaving].owner in st.accounts && st.orders[swap.coming].owner in st.accounts;
    ConsumedCarries(st, swap.leaving, swap.coming);
    assert Consumed2(st, swap.leaving, swap.coming) == st.(orders := Consumed2(st, swap.leaving, swap.coming).orders);
    var p := WithOwner(st.positions[pk], swap.long, st.orders[swap.coming].owner);
    var (d, e) := (LeaverDelta(st, swap, pk, premium), ComerDelta(st, swap, pk, premium));
    hide Consumed2, Exchanged, Carried, OrderOk, ReleaseOfOne;
    ExchangeOrders(Consumed2(st, swap.leaving, swap.coming), d, e, pk, p, 0);
  }

  lemma SubstituteOrders(st: State, op: Op)
    requires op.Substitute? && Enabled(st, op)
    ensures Carried(st.orders, Step(st, op).orders)
  {
    hide Substituted, PremiumPaid, Premium, Affords, PriceMidpoint, OrderOk, Carried, Crossing;
    SubstituteFair(st, op.kl, op.ks, op.pk, op.t, op.settle, op.now);
    SwapCarries(st, SwapOf(st, op.kl, op.ks, op.t), op.pk,
                PremiumPaid(st, op.kl, op.ks, op.pk, op.t, op.settle, op.now));
  }

  lemma SettleOrders(st: State, op: Op)
    requires (op.Liquidate? || op.Resolve? || op.CloseMutual? || op.Novate?) && Enabled(st, op)
    ensures Step(st, op).orders == st.orders
  {
    hide Equities, ResolvedEquities, SpoilsOf, Settled, PaidOut, KeeperFits, Novated;
    match op
    case Liquidate(pk, att, keeper, now) =>
      var spoils := SpoilsOf(st.positions[pk], Equities(st.positions[pk], att.mark).value, st.markets[pk.0].bountyBps);
      PaidOutFrame(st, pk, LIQUIDATED, spoils.long, spoils.short, keeper, spoils.bounty);
    case Resolve(pk, att, now) =>
      var eq := ResolvedEquities(st.positions[pk], att.outcomeBps).value;
      SettleFrame(st, pk, RESOLVED, eq.0, eq.1);
    case CloseMutual(pk, att, now) =>
      var eq := Equities(st.positions[pk], att.price).value;
      SettleFrame(st, pk, CLOSED, eq.0, eq.1);
    case Novate(pk, long, t) => NovateFrame(st, pk, long, t);
  }

  /** A post or a claim adds one order, at a price that has been checked. */
  lemma PlacedOrders(st: State, k: Key, o: Order)
    requires CanPlace(st, k, o)
    ensures PlacedOrder(st, k, o).orders == st.orders[k := o]
  {
  }

  lemma QuotedPrice(market: Market, terms: Terms, feeBps: nat, now: nat)
    requires Quote(market, terms, feeBps, now).Ok?
    ensures OnTick(terms.price, market.tick)
  {
  }

  lemma PostAligned(st: State, op: Op)
    requires OrdersAligned(st) && op.Post? && Enabled(st, op)
    ensures OrdersAligned(Step(st, op))
  {
    var (st1, k, o) := (ReleasedAll(st, op.pruned), (op.m, op.slot), PostOrder(st, op));
    QuotedPrice(st.markets[op.m], op.terms, op.feeBps, op.now);
    ReleasesCarry(st, op.pruned);
    assert o.data.Intent? && o.data.price == op.terms.price;
    hide ReleasedAll, Quote, CanPlace, OnTick, PostOrder, PlacedOrder;
    PlacedOrders(st1, k, o);
    PlacedVault(st1, k, o);
  }

  lemma ClaimAligned(st: State, op: Op)
    requires OrdersAligned(st) && op.Claim? && Enabled(st, op)
    ensures OrdersAligned(Step(st, op))
  {
    var (k, id) := ((op.pk.0, op.slot), NextId(st, op.pk.0));
    var o := ReentryOrder(st, op.pk, op.long, op.contracts, op.feeBps, op.expiration, id, op.seat, op.postSeq);
    assert o.data.Intent? && o.data.price == ReentryPrice(st.positions[op.pk], op.long);
    assert OnTick(o.data.price, st.markets[op.pk.0].tick);
    hide CanPlace, ValidatePriceTicked, OnTick, ReentryOrder, PlacedOrder, IsLargestAffordable;
    if CanPlace(st, k, o) {
      PlacedOrders(st, k, o);
      PlacedVault(st, k, o);
    }
  }

  lemma CarriedAligned(st: State, st': State)
    requires OrdersAligned(st) && Carried(st.orders, st'.orders)
    requires forall m :: m in st.markets ==> m in st'.markets && st'.markets[m] == st.markets[m]
    ensures OrdersAligned(st')
  {
  }

  /** Steps that write no order. */
  lemma OtherOrders(st: State, op: Op)
    requires !Enabled(st, op) || op.List? || op.Open? || op.Deposit? || op.Withdraw? || op.Sweep? || op.Remove?
    ensures Step(st, op).orders == st.orders
  {
  }

  lemma ReleaseOrders(st: State, op: Op)
    requires (op.Cancel? || op.Prune?) && Enabled(st, op)
    ensures Carried(st.orders, Step(st, op).orders)
  {
    if op.Prune? { ReleasesCarry(st, op.expired); }
    hide ReleasedAll;
  }

  lemma StepCarries(st: State, op: Op)
    requires Enabled(st, op) ==> !op.Post? && !op.Claim?
    ensures Carried(st.orders, Step(st, op).orders)
  {
    hide Enabled, Step;
    if !Enabled(st, op) {
      OtherOrders(st, op);
    } else {
      match op {
        case Cancel(_, _, _) => ReleaseOrders(st, op);
        case Prune(_, _) => ReleaseOrders(st, op);
        case Match(_, _, _, _) => MatchOrders(st, op);
        case Liquidate(_, _, _, _) => SettleOrders(st, op);
        case Resolve(_, _, _) => SettleOrders(st, op);
        case CloseMutual(_, _, _) => SettleOrders(st, op);
        case Novate(_, _, _) => SettleOrders(st, op);
        case Substitute(_, _, _, _, _, _) => SubstituteOrders(st, op);
        case _ => OtherOrders(st, op);
      }
    }
  }

  lemma StepAligned(st: State, op: Op)
    requires Fit(st) && OrdersAligned(st)
    ensures OrdersAligned(Step(st, op))
  {
    hide Fit, Enabled, Step, OrdersAligned, Onward, Carried;
    if Enabled(st, op) && op.Post? {
      PostAligned(st, op);
    } else if Enabled(st, op) && op.Claim? {
      ClaimAligned(st, op);
    } else {
      StepCarries(st, op);
      StepOnward(st, op);
      OnwardIs(st, op);
      CarriedAligned(st, Step(st, op));
    }
  }

  // ----- what a step does to positions -----------------------------------------------------------------------

  /** A position that stays keeps its terms, and a match opens one from two orders of the book. */
  lemma KeptSized(st: State, st': State)
    requires Fit(st) && PositionsSized(st) && Advances(st, st') && st'.positions.Keys <= st.positions.Keys
    ensures PositionsSized(st')
  {
    forall pk | pk in st'.positions ensures pk.0 in st'.markets && SizedFor(st'.markets[pk.0], st'.positions[pk]) {
      assert PositionOk(st, pk, st.positions[pk]);
      assert Issued(st, pk) && SameTerms(st.positions[pk], st'.positions[pk]);
    }
  }

  /** The position a match opens. */
  lemma ContractSizedFor(st: State, kl: Key, ks: Key, fee: nat, now: nat)
    requires OrdersAligned(st) && CanMatch(st, kl, ks, fee, now)
    ensures var entry := PriceMidpoint(st.orders[kl].data.price, st.orders[ks].data.price);
      SizedFor(st.markets[kl.0], Contract(st, kl, ks, SizeOf(st.markets[kl.0], entry).value))
  {
    assert Aligned(st, kl, st.orders[kl]) && Aligned(st, ks, st.orders[ks]);
    MidpointIsFloorMean(st.orders[kl].data.price, st.orders[ks].data.price);
    hide OnTick, PriceMidpoint, SizeOf;
  }

  lemma MatchSized(st: State, op: Op)
    requires Fit(st) && OrdersAligned(st) && PositionsSized(st) && op.Match? && Enabled(st, op)
    ensures PositionsSized(Step(st, op))
  {
    ContractSizedFor(st, op.kl, op.ks, op.fee, op.now);
    hide CanMatch, MatchedPair, SizedFor, Contract, PriceMidpoint, Carried, Fit, OrdersAligned;
    MatchWrites(st, op.kl, op.ks, op.fee, op.now);
    MarketOf(st, op.kl, op.ks, op.fee, op.now);
  }

  lemma MarketOf(st: State, kl: Key, ks: Key, fee: nat, now: nat)
    requires CanMatch(st, kl, ks, fee, now)
    ensures kl.0 in st.markets
  {
  }

  lemma StepSized(st: State, op: Op)
    requires Fit(st) && OrdersAligned(st) && PositionsSized(st)
    ensures PositionsSized(Step(st, op))
  {
    hide Fit, Enabled, Step, OrdersAligned, PositionsSized, Onward, Advances;
    if op.Match? && Enabled(st, op) {
      MatchSized(st, op);
    } else if Enabled(st, op) {
      StepOnward(st, op);
      OnwardIs(st, op);
      KeptSized(st, Step(st, op));
    } else {
      RolledBack(st, op);
    }
  }

  lemma RolledBack(st: State, op: Op)
    requires !Enabled(st, op)
    ensures Step(st, op) == st
  {
  }

  // ----- over runs ----------------------------------------------------------------------------------------------

  lemma EmptySized()
    ensures OrdersAligned(Empty()) && PositionsSized(Empty())
  {
  }

  /** In every state of every run, every resting order has a limit on its instrument's tick, and every position,
      live or closed, remembers two crossing such limits, was entered at the floor of their mean, and has the size
      its instrument gives that entry. */
  lemma {:induction false} EveryStateSized(ops: seq<Op>, i: nat)
    requires i <= |ops|
    ensures OrdersAligned(Before(ops, i)) && PositionsSized(Before(ops, i))
  {
    hide OrdersAligned, PositionsSized, Before, Step, Fit;
    if i == 0 {
      BeforeFirst(ops);
      EmptySized();
    } else {
      EveryStateSized(ops, i - 1);
      EveryStateFits(ops, i - 1);
      StepOf(ops, i - 1);
      StepAligned(Before(ops, i - 1), ops[i - 1]);
      StepSized(Before(ops, i - 1), ops[i - 1]);
    }
  }

  lemma LimitsPass(market: Market, p: Position)
    requires SizedFor(market, p)
    ensures market.tick > 0 && p.entry == PriceMidpoint(p.longPrice, p.shortPrice)
    ensures ValidatePriceTicked(p.longPrice, market.tick).Ok? && ValidatePriceTicked(p.shortPrice, market.tick).Ok?
  {
    OnTickIff(p.longPrice, market.tick);
    OnTickIff(p.shortPrice, market.tick);
    MidpointIsFloorMean(p.longPrice, p.shortPrice);
  }

  /** So every entry is a price, not below one tick, */
  lemma EntryIsPrice(ops: seq<Op>, i: nat, pk: Key)
    requires i <= |ops| && pk in Before(ops, i).positions
    ensures pk.0 in Before(ops, i).markets
    ensures Before(ops, i).markets[pk.0].tick <= Before(ops, i).positions[pk].entry < PRICE_ONE
  {
    EveryStateSized(ops, i);
    var p := Before(ops, i).positions[pk];
    assert SizedFor(Before(ops, i).markets[pk.0], p);
    hide Before, ValidatePriceTicked, PriceMidpoint, SizeOf;
    LimitsPass(Before(ops, i).markets[pk.0], p);
    EntryInRange(p.longPrice, p.shortPrice, Before(ops, i).markets[pk.0].tick);
  }

  /** and the price check of re-entry never refuses: a side can be claimed exactly when its position is closed,
      its flag is up, and the new expiration is ahead. */
  lemma ClaimableIff(ops: seq<Op>, i: nat, pk: Key, long: bool, expiration: nat, now: nat)
    requires i <= |ops| && pk in Before(ops, i).positions
    ensures var (st, p) := (Before(ops, i), Before(ops, i).positions[pk]);
      CanClaim(st, pk, long, expiration, now) <==> p.status != LIVE && Flag(p, long) && expiration > now
  {
    EveryStateSized(ops, i);
    EveryStateFits(ops, i);
    var st := Before(ops, i);
    assert PositionOk(st, pk, st.positions[pk]) && SizedFor(st.markets[pk.0], st.positions[pk]);
    LimitsPass(st.markets[pk.0], st.positions[pk]);
    hide Before, ValidatePriceTicked, PriceMidpoint, SizeOf, Fit;
  }

  // ----- settling at any mark -------------------------------------------------------------------------------------

  lemma Between(x: int, lo: nat, hi: nat, mark: nat, entry: nat)
    requires lo <= mark <= hi
    ensures (lo - entry) * x <= (mark - entry) * x <= (hi - entry) * x
         || (hi - entry) * x <= (mark - entry) * x <= (lo - entry) * x
  {
    if x >= 0 {
      MulMono(lo - entry, mark - entry, x);
      MulMono(mark - entry, hi - entry, x);
    } else {
      MulMono(lo - entry, mark - entry, 0 - x);
      MulMono(mark - entry, hi - entry, 0 - x);
      assert forall d: int :: d * (0 - x) == 0 - d * x;
    }
  }

  /** A position has equities at every mark up to `top` exactly when it has them at zero and at `top`. */
  lemma EquitiesOkIff(p: Position, top: nat)
    requires p.size < U128
    ensures (forall mark: nat :: mark <= top ==> Equities(p, mark).Ok?) <==>
      Equities(p, 0).Ok? && Equities(p, top).Ok?
  {
    if Equities(p, 0).Ok? && Equities(p, top).Ok? {
      forall mark: nat | mark <= top ensures Equities(p, mark).Ok? {
        Between(AsI128(p.size), 0, top, mark, p.entry);
      }
    }
  }

  /** An instrument whose tick is not too fine for its bucket, leverage, and marks up to `top`. */
  predicate Coarse(market: Market, top: nat) {
    && PRICE_ONE <= top && NotionalAtoms(market.bucket, market.leverageBps).Ok?
    && NotionalAtoms(market.bucket, market.leverageBps).value * PRICE_ONE * top < market.tick * I128
  }

  lemma CoarseSettles(market: Market, p: Position, mark: nat, top: nat)
    requires Coarse(market, top) && SizedFor(market, p) && mark <= top
    ensures p.size < I128 && PnlLongAtoms(p.entry, mark, p.size) == Ok(Pnl(p.entry, mark, p.size))
  {
    var notional := NotionalAtoms(market.bucket, market.leverageBps).value;
    LimitsPass(market, p);
    WellSized(notional, market.tick, p.longPrice, p.shortPrice, mark, top);
    hide PnlLongAtoms, ValidatePriceTicked, Pnl, PositionSizeFp, PriceMidpoint;
    SizeIs(market, p.entry);
  }

  lemma SizeIs(market: Market, entry: nat)
    requires NotionalAtoms(market.bucket, market.leverageBps).Ok?
    ensures SizeOf(market, entry) == PositionSizeFp(NotionalAtoms(market.bucket, market.leverageBps).value, entry)
  {
  }

  /** On such an instrument arithmetic never stands in the way: in every state of every run, a live position
      has equities at every mark up to `top` and every outcome, so it can be closed and resolved exactly when
      the guards on the attestation allow, and while no bounty has exceeded its pot the long's equity
      is its collateral and the exact profit, clamped to the pot. */
  lemma NeverBlocked(ops: seq<Op>, i: nat, pk: Key, att: Attestation, now: nat, mark: nat, top: nat)
    requires i <= |ops| && PRICE_ONE <= top && mark <= top
    requires var st := Before(ops, i); LiveAt(st, pk) && pk.0 in st.markets && Coarse(st.markets[pk.0], top)
    ensures var st := Before(ops, i);
      var (p, c) := (st.positions[pk], st.positions[pk].collateral);
      && p.size < I128 && Equities(p, mark).Ok?
      && (att.PriceTwap? && att.price <= top ==>
        (CanCloseMutual(st, pk, att, now) <==>
          CanSettle(st, pk, att, now) && att.window == st.markets[pk.0].twapWindow))
      && (att.Resolution? ==>
        (CanResolve(st, pk, att, now) <==> CanSettle(st, pk, att, now) && att.outcomeBps in {0, 5_000, 10_000}))
      && (WithinPots(ops, i) ==>
        var pnl := Pnl(p.entry, mark, p.size);
        && Equities(p, mark).value.0 + Equities(p, mark).value.1 == 2 * c
        && Equities(p, mark).value.0 == if c + pnl < 0 then 0 else if pnl > c then 2 * c else c + pnl)
  {
    EveryStateSized(ops, i);
    var st := Before(ops, i);
    var p := st.positions[pk];
    assert SizedFor(st.markets[pk.0], p);
    hide Before, SizedFor, Coarse, PositionsSized, OrdersAligned, Pnl, PnlLongAtoms, WithinPots, Inv;
    CoarseSettles(st.markets[pk.0], p, mark, top);
    CoarseSettles(st.markets[pk.0], p, PRICE_ONE / 2, top);
    if att.PriceTwap? && att.price <= top { CoarseSettles(st.markets[pk.0], p, att.price, top); }
    if WithinPots(ops, i) {
      EveryStateLevelIff(ops, i);
      EquitiesShareThePot(st, pk, mark, 0);
    }
  }
}
