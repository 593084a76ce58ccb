/** Runs of the whole ledger: any sequence of operations, each going through or leaving the state as
    it was. */
module Runs {
  import Sums
  import opened FixedPoint
  import opened Attestations
  import opened Ledger
  import opened Operations
  import opened Trades
  import opened Settlements
  import opened Handovers
  import opened Reentry

  /** One instruction, with the choices that the book makes for it (slot, seat, sequence number). */
  datatype Op =
    | List(m: nat, market: Market)
    | Open(t: nat)
    | Deposit(t: nat, amount: nat)
    | Withdraw(t: nat, amount: nat)
    | Sweep(amount: nat)
    | Post(m: nat, t: nat, terms: Terms, pruned: seq<Key>, feeBps: nat, slot: nat, seat: nat, postSeq: nat, now: nat)
    | Cancel(k: Key, caller: nat, now: nat)
    | Prune(expired: seq<Key>, now: nat)
    | Match(kl: Key, ks: Key, fee: nat, now: nat)
    | Liquidate(pk: Key, att: Attestation, keeper: nat, now: nat)
    | Resolve(pk: Key, att: Attestation, now: nat)
    | CloseMutual(pk: Key, att: Attestation, now: nat)
    | Novate(pk: Key, long: bool, t: nat)
    | Substitute(kl: Key, ks: Key, pk: Key, t: nat, settle: bool, now: nat)
    | Claim(pk: Key, long: bool, contracts: nat, feeBps: nat, slot: nat, seat: nat, postSeq: nat, expiration: nat,
            now: nat)
    | Remove(pk: Key)

  // ----- one step -----------------------------------------------------------------------------------------

  /** Expired orders on the book, each named once. */
  ghost predicate CanPrune(st: State, ks: seq<Key>, now: nat) {
    && NoRepeats(ks) && Elements(ks) <= st.orders.Keys
    && forall k :: k in ks ==> k in st.orders && Expired(st.orders[k], now)
  }

  /** The order a post makes, once the poster's expired orders are pruned. */
  function PostOrder(st: State, op: Op): Order
    requires op.Post? && op.m in st.markets && op.m in st.nextIds
    requires Quote(st.markets[op.m], op.terms, op.feeBps, op.now).Ok?
  {
    Order(op.t,
          NewIntent(op.terms, st.nextIds[op.m], op.seat, op.postSeq,
                    Quote(st.markets[op.m], op.terms, op.feeBps, op.now).value))
  }

  ghost predicate CanPost(st: State, op: Op)
    requires op.Post?
  {
    && op.m in st.markets && op.m in st.nextIds && op.t in st.accounts
    && CanPrune(st, op.pruned, op.now) && |op.pruned| <= 4
    && (forall k :: k in op.pruned ==> k in st.orders && k.0 == op.m && st.orders[k].owner == op.t)
    && Quote(st.markets[op.m], op.terms, op.feeBps, op.now).Ok?
    && CanPlace(ReleasedAll(st, op.pruned), (op.m, op.slot), PostOrder(st, op))
  }

  /** A claim posts the largest affordable number of contracts; for none, it only uses up the flag. */
  ghost predicate CanRepost(st: State, op: Op)
    requires op.Claim?
  {
    && CanClaim(st, op.pk, op.long, op.expiration, op.now)
    && IsLargestAffordable(op.contracts, st.accounts[OwnerOf(st.positions[op.pk], op.long)].free,
                           st.markets[op.pk.0].bucket, op.feeBps)
    && (op.contracts > 0 ==> (op.pk.0, op.slot) !in st.orders && HasId(st, op.pk.0))
  }

  /** What a claim leaves. */
  ghost function Reposted(st: State, op: Op): State
    requires op.Claim? && CanRepost(st, op)
  {
    if op.contracts == 0 then Consumption(st, op.pk, op.long) else
      var o := ReentryOrder(st, op.pk, op.long, op.contracts, op.feeBps, op.expiration, NextId(st, op.pk.0), op.seat,
                            op.postSeq);
      if CanPlace(st, (op.pk.0, op.slot), o) then Consumption(PlacedOrder(st, (op.pk.0, op.slot), o), op.pk, op.long)
      else st
  }

  function NextId(st: State, m: nat): nat { if m in st.nextIds then st.nextIds[m] else 0 }

  ghost predicate Enabled(st: State, op: Op) {
    match op
    case List(m, market) => m !in st.markets && WellFormed(market)
    case Open(t) => t !in st.accounts
    case Deposit(t, amount) => CanDeposit(st, t, amount)
    case Withdraw(t, amount) => CanWithdraw(st, t, amount)
    case Sweep(amount) => CanSweep(st, amount)
    case Post(_, _, _, _, _, _, _, _, _) => CanPost(st, op)
    case Cancel(k, caller, now) => k in st.orders && (st.orders[k].owner == caller || Expired(st.orders[k], now))
                                     && st.orders[k].data.Intent? && st.orders[k].owner in st.accounts
    case Prune(expired, now) => CanPrune(st, expired, now)
    case Match(kl, ks, fee, now) => CanMatch(st, kl, ks, fee, now)
    case Liquidate(pk, att, keeper, now) => CanLiquidate(st, pk, att, keeper, now)
    case Resolve(pk, att, now) => CanResolve(st, pk, att, now)
    case CloseMutual(pk, att, now) => CanCloseMutual(st, pk, att, now)
    case Novate(pk, long, t) => CanNovate(st, pk, long, t)
    case Substitute(kl, ks, pk, t, settle, now) => CanSubstitute(st, kl, ks, pk, t, settle, now)
    case Claim(_, _, _, _, _, _, _, _, _) => CanRepost(st, op)
    case Remove(pk) => CanRemove(st, pk)
  }

  /** An operation that cannot go through is rolled back. */
  ghost function Step(st: State, op: Op): State {
    if !Enabled(st, op) then st else
      match op
      case List(m, market) => Listed(st, m, market)
      case Open(t) => Opened(st, t)
      case Deposit(t, amount) => Deposited(st, t, amount)
      case Withdraw(t, amount) => Withdrawn(st, t, amount)
      case Sweep(amount) => Swept(st, amount)
      case Post(m, _, _, pruned, _, slot, _, _, _) => PlacedOrder(ReleasedAll(st, pruned), (m, slot), PostOrder(st, op))
      case Cancel(k, _, _) => Released(st, k)
      case Prune(expired, _) => ReleasedAll(st, expired)
      case Match(kl, ks, fee, now) => MatchedPair(st, kl, ks, fee, now)
      case Liquidate(pk, att, keeper, now) => Liquidated(st, pk, att, keeper, now)
      case Resolve(pk, att, now) => Resolved(st, pk, att, now)
      case CloseMutual(pk, att, now) => ClosedMutually(st, pk, att, now)
      case Novate(pk, long, t) => Novated(st, pk, long, t)
      case Substitute(kl, ks, pk, t, settle, now) =>
        Substituted(st, SwapOf(st, kl, ks, t), pk, PremiumPaid(st, kl, ks, pk, t, settle, now))
      case Claim(_, _, _, _, _, _, _, _, _) => Reposted(st, op)
      case Remove(pk) => Removed(st, pk)
  }

  // ----- what a step keeps ------------------------------------------------------------------------------------

  /** What a position is about never changes. */
  predicate SameTerms(p: Position, p': Position) {
    && p'.collateral == p.collateral && p'.entry == p.entry && p'.size == p.size
    && p'.longPrice == p.longPrice && p'.shortPrice == p.shortPrice
  }

  /** What may become of a position: a closed one stays as it was closed, and flags only fall. */
  predicate Evolves(p: Position, p': Position) {
    && SameTerms(p, p') && (p.status != LIVE ==> p'.status == p.status)
    && (p'.longReentry ==> p.longReentry) && (p'.shortReentry ==> p.shortReentry)
  }

  predicate Issued(st: State, pk: Key) { pk.0 in st.nextIds && pk.1 < st.nextIds[pk.0] }

  /** Positions evolve and do not come back, instruments stay as listed, ids and nonces do not fall. */
  ghost predicate Advances(st: State, st': State) {
    && (forall pk ::
      Issued(st, pk) && pk in st'.positions ==> pk in st.positions && Evolves(st.positions[pk], st'.positions[pk]))
    && (forall m :: m in st.markets ==> m in st'.markets && st'.markets[m] == st.markets[m])
    && (forall m :: m in st.nextIds ==> m in st'.nextIds && st.nextIds[m] <= st'.nextIds[m])
    && (forall q :: q in st.nonces ==> q in st'.nonces && st.nonces[q] <= st'.nonces[q])
  }

  /** What an operation brings into the vault. */
  ghost function Flow(st: State, op: Op): int {
    if !Enabled(st, op) then 0
    else if op.Deposit? then op.amount
    else if op.Withdraw? || op.Sweep? then 0 - op.amount
    else 0
  }

  /** Everything stays well formed, history only moves forward, only listing touches the instruments,
      only a match opens a position, and the vault changes by the flow. */
  ghost predicate Onward(st: State, op: Op) {
    var st' := Step(st, op);
    && Fit(st') && Advances(st, st') && (op.List? || st'.markets == st.markets) && st'.vault == st.vault + Flow(st, op)
    && (op.Match? || st'.positions.Keys <= st.positions.Keys)
  }

  /** Only positions, and at one key. */
  lemma OnePosition(st: State, st': State, pk: Key, p': Position)
    requires st'.positions == st.positions[pk := p'] && st'.nextIds == st.nextIds && st'.markets == st.markets
    requires forall q :: q in st.nonces ==> q in st'.nonces && st.nonces[q] <= st'.nonces[q]
    requires pk in st.positions && Evolves(st.positions[pk], p')
    ensures Advances(st, st')
  {
  }

  lemma SamePositions(st: State, st': State)
    requires st'.positions == st.positions && st'.nonces == st.nonces && st'.markets == st.markets
    requires forall m :: m in st.nextIds ==> m in st'.nextIds && st.nextIds[m] <= st'.nextIds[m]
    ensures Advances(st, st')
  {
  }

  lemma MoneyFits(st: State, accounts: map<nat, Balance>, treasury: int, swept: nat, vault: int)
    requires Fit(st) && st.accounts.Keys <= accounts.Keys && treasury >= 0 && vault < U64
    ensures Fit(st.(accounts := accounts, treasury := treasury, swept := swept, vault := vault))
  {
  }

  lemma MoneyOnward(st: State, op: Op)
    requires Fit(st) && Enabled(st, op) && (op.Deposit? || op.Withdraw? || op.Sweep? || op.Open?)
    ensures Onward(st, op)
  {
    VaultFits(st);
    hide Fit;
    var st' := Step(st, op);
    MoneyFits(st, st'.accounts, st'.treasury, st'.swept, st'.vault);
    SamePositions(st, st');
    hide Advances;
  }

  lemma VaultFits(st: State)
    requires Fit(st)
    ensures st.vault < U64 && st.treasury >= 0
  {
  }

  lemma ListedFits(st: State, m: nat, market: Market)
    requires Fit(st) && m !in st.markets && WellFormed(market)
    ensures Fit(Listed(st, m, market)) && m !in st.nextIds
  {
  }

  /** Listing an instrument starts its counters and, on a new market, its nonce. */
  lemma ListOnward(st: State, op: Op)
    requires Fit(st) && op.List? && Enabled(st, op)
    ensures Onward(st, op)
  {
    ListedFits(st, op.m, op.market);
    ListAdvances(st, op.m, op.market);
    hide Fit, Advances, WellFormed, Listed;
    ListVault(st, op.m, op.market);
  }

  lemma ListVault(st: State, m: nat, market: Market)
    ensures Listed(st, m, market).vault == st.vault
  {
  }

  lemma ListAdvances(st: State, m: nat, market: Market)
    requires m !in st.markets && m !in st.nextIds
    ensures Advances(st, Listed(st, m, market))
  {
  }

  lemma ReleasedFits(st: State, k: Key)
    requires Fit(st) && k in st.orders && st.orders[k].data.Intent? && st.orders[k].owner in st.accounts
    ensures var st' := Released(st, k);
      && Fit(st') && st' == st.(accounts := st'.accounts, orders := st'.orders) && st'.accounts.Keys == st.accounts.Keys
  {
    var due := st.orders[k].data.reserved + st.orders[k].data.feeBuffer;
    AdjustFrame(st.(orders := st.orders - {k}), Delta(st.orders[k].owner, due, 0 - due, 0));
  }

  lemma {:induction false} ReleasedAllFits(st: State, ks: seq<Key>)
    requires Fit(st)
    ensures var st' := ReleasedAll(st, ks);
      && Fit(st') && st' == st.(accounts := st'.accounts, orders := st'.orders) && st'.accounts.Keys == st.accounts.Keys
    decreases |ks|
  {
    hide Fit, Released;
    if ks != [] {
      ReleasedAllFits(st, ks[..|ks| - 1]);
      var (before, k) := (ReleasedAll(st, ks[..|ks| - 1]), ks[|ks| - 1]);
      if k in before.orders && before.orders[k].data.Intent? && before.orders[k].owner in before.accounts {
        ReleasedFits(before, k);
      }
    }
  }

  lemma PlacedFits(st: State, k: Key, o: Order)
    requires Fit(st) && CanPlace(st, k, o)
    ensures Fit(PlacedOrder(st, k, o))
  {
    var due := o.data.reserved + o.data.feeBuffer;
    AdjustFrame(st.(orders := st.orders[k := o]), Delta(o.owner, 0 - due, due, 0));
  }

  lemma PlacedVault(st: State, k: Key, o: Order)
    requires CanPlace(st, k, o)
    ensures var st' := PlacedOrder(st, k, o);
      && st'.vault == st.vault && st'.positions == st.positions && st'.nonces == st.nonces && st'.markets == st.markets
      && k.0 in st.nextIds && st'.nextIds == st.nextIds[k.0 := st.nextIds[k.0] + 1]
  {
  }

  lemma PostOnward(st: State, op: Op)
    requires Fit(st) && op.Post? && Enabled(st, op)
    ensures Onward(st, op)
  {
    var (st1, k, o) := (ReleasedAll(st, op.pruned), (op.m, op.slot), PostOrder(st, op));
    hide Fit, ReleasedAll, Quote, CanPlace, OrderOk;
    ReleasedAllFits(st, op.pruned);
    PlacedFits(st1, k, o);
    PlacedVault(st1, k, o);
    SamePositions(st, PlacedOrder(st1, k, o));
  }

  lemma ReleaseOnward(st: State, op: Op)
    requires Fit(st) && (op.Cancel? || op.Prune?) && Enabled(st, op)
    ensures Onward(st, op)
  {
    hide Fit, ReleasedAll, Released;
    if op.Cancel? {
      ReleasedFits(st, op.k);
    } else {
      ReleasedAllFits(st, op.expired);
    }
  }

  lemma MatchOnward(st: State, op: Op)
    requires Fit(st) && op.Match? && Enabled(st, op)
    ensures Onward(st, op)
  {
    hide OrderOk, Matched, MatchedPair, PositionOk, SizeOf, Purse, OrdersOk, PositionsOk, MarketsOk;
    var pk, p := MatchOpens(st, op.kl, op.ks, op.fee, op.now);
    MatchFrame(st, op.kl, op.ks, pk, p, op.fee);
    MatchPositionsOk(st, Step(st, op), pk, p, op.kl.0);
    NumberedMarkets(Matched(st, op.kl, op.ks, pk, p, op.fee), op.kl.0);
  }

  lemma NumberedMarkets(st: State, m: nat)
    requires MarketsOk(st) && OrdersOk(st) && m in st.nextIds
    ensures MarketsOk(Numbered(st, m)) && OrdersOk(Numbered(st, m))
  {
  }

  lemma NotedFits(st: State, pk: Key, att: Attestation)
    requires Fit(st) && pk.0 in st.markets
    ensures Fit(Noted(st, pk, att))
  {
  }

  lemma SettleOnward(st: State, op: Op)
    requires Fit(st) && (op.Liquidate? || op.Resolve? || op.CloseMutual?) && Enabled(st, op)
    ensures Onward(st, op)
  {
    hide Fit, Equities, ResolvedEquities, SpoilsOf, Settled, PaidOut, KeeperFits;
    match op
    case Liquidate(pk, att, keeper, now) =>
      var spoils := SpoilsOf(st.positions[pk], Equities(st.positions[pk], att.mark).value, st.markets[pk.0].bountyBps);
      PaidOutFrame(st, pk, LIQUIDATED, spoils.long, spoils.short, keeper, spoils.bounty);
      NotedFits(PaidOut(st, pk, LIQUIDATED, spoils.long, spoils.short, keeper, spoils.bounty), pk, att);
      OnePosition(st, Step(st, op), pk, st.positions[pk].(status := LIQUIDATED));
    case Resolve(pk, att, now) =>
      var eq := ResolvedEquities(st.positions[pk], att.outcomeBps).value;
      SettleFrame(st, pk, RESOLVED, eq.0, eq.1);
      NotedFits(Settled(st, pk, RESOLVED, eq.0, eq.1), pk, att);
      OnePosition(st, Step(st, op), pk, st.positions[pk].(status := RESOLVED));
    case CloseMutual(pk, att, now) =>
      var eq := Equities(st.positions[pk], att.price).value;
      SettleFrame(st, pk, CLOSED, eq.0, eq.1);
      NotedFits(Settled(st, pk, CLOSED, eq.0, eq.1), pk, att);
      OnePosition(st, Step(st, op), pk, st.positions[pk].(status := CLOSED));
  }

  lemma NovateOnward(st: State, op: Op)
    requires Fit(st) && op.Novate? && Enabled(st, op)
    ensures Onward(st, op)
  {
    hide Novated, Fit;
    NovateFrame(st, op.pk, op.long, op.t);
  }

  lemma SubstituteOnward(st: State, op: Op)
    requires Fit(st) && op.Substitute? && Enabled(st, op)
    ensures Onward(st, op)
  {
    hide Substituted, PremiumPaid, Premium, Fair, Fit, Affords, PriceMidpoint, OrderOk;
    SubstituteFair(st, op.kl, op.ks, op.pk, op.t, op.settle, op.now);
    SubstituteFrame(st, SwapOf(st, op.kl, op.ks, op.t), op.pk,
                    PremiumPaid(st, op.kl, op.ks, op.pk, op.t, op.settle, op.now));
  }

  lemma ConsumptionFits(st: State, pk: Key, long: bool)
    requires Fit(st) && pk in st.positions
    ensures Fit(Consumption(st, pk, long))
  {
    assert PositionOk(st, pk, st.positions[pk]);
  }

  lemma RemoveOnward(st: State, op: Op)
    requires Fit(st) && op.Remove? && Enabled(st, op)
    ensures Onward(st, op)
  {
    RemovedFits(st, op.pk);
    hide Fit;
  }

  lemma ClaimOnward(st: State, op: Op)
    requires Fit(st) && op.Claim? && Enabled(st, op)
    ensures Onward(st, op)
  {
    hide Fit, OrderOk, CanPlace, PlacedOrder, IsLargestAffordable;
    var (k, id) := ((op.pk.0, op.slot), NextId(st, op.pk.0));
    var o := ReentryOrder(st, op.pk, op.long, op.contracts, op.feeBps, op.expiration, id, op.seat, op.postSeq);
    ConsumptionFits(st, op.pk, op.long);
    if CanPlace(st, k, o) {
      PlacedFits(st, k, o);
      PlacedVault(st, k, o);
      ConsumptionFits(PlacedOrder(st, k, o), op.pk, op.long);
    }
  }

  lemma RemovedFits(st: State, pk: Key)
    requires Fit(st)
    ensures Fit(Removed(st, pk))
  {
  }

  /** Every instruction, gone through or rolled back, keeps everything well formed, never revives a
      position or a flag, opens a position only by a match, never lowers an id or a nonce, and changes the
      vault by its flow alone. */
  lemma StepOnward(st: State, op: Op)
    requires Fit(st)
    ensures Onward(st, op)
  {
    hide Onward, Enabled, Fit;
    if Enabled(st, op) {
      match op {
        case List(_, _) => ListOnward(st, op);
        case Open(_) => MoneyOnward(st, op);
        case Deposit(_, _) => MoneyOnward(st, op);
        case Withdraw(_, _) => MoneyOnward(st, op);
        case Sweep(_) => MoneyOnward(st, op);
        case Post(_, _, _, _, _, _, _, _, _) => PostOnward(st, op);
        case Cancel(_, _, _) => ReleaseOnward(st, op);
        case Prune(_, _) => ReleaseOnward(st, op);
        case Match(_, _, _, _) => MatchOnward(st, op);
        case Liquidate(_, _, _, _) => SettleOnward(st, op);
        case Resolve(_, _, _) => SettleOnward(st, op);
        case CloseMutual(_, _, _) => SettleOnward(st, op);
        case Novate(_, _, _) => NovateOnward(st, op);
        case Substitute(_, _, _, _, _, _) => SubstituteOnward(st, op);
        case Claim(_, _, _, _, _, _, _, _, _) => ClaimOnward(st, op);
        case Remove(_) => RemoveOnward(st, op);
      }
    } else {
      Nothing(st, op);
    }
  }

  lemma Nothing(st: State, op: Op)
    requires Fit(st) && !Enabled(st, op)
    ensures Onward(st, op)
  {
  }

  // ----- when a step keeps the equalities -----------------------------------------------------------------

  /** A liquidation that goes through with a bounty above the pot. */
  ghost predicate Oversized(st: State, op: Op) {
    && op.Liquidate? && Enabled(st, op)
    && Share(st.positions[op.pk].collateral, st.markets[op.pk.0].bountyBps) > 2 * st.positions[op.pk].collateral
  }

  lemma MoneyKeepsInv(st: State, op: Op)
    requires Inv(st) && Enabled(st, op) && (op.List? || op.Deposit? || op.Withdraw? || op.Sweep? || op.Open?)
    ensures Inv(Step(st, op))
  {
    hide AllLevel, Fit, VaultGap;
    match op
    case List(m, market) => ListKeepsInv(st, m, market);
    case Open(t) => OpenKeepsInv(st, t);
    case Deposit(t, amount) => DepositKeepsInv(st, t, amount);
    case Withdraw(t, amount) => WithdrawKeepsInv(st, t, amount);
    case Sweep(amount) => SweepKeepsInv(st, amount);
  }

  lemma OrderKeepsInv(st: State, op: Op)
    requires Inv(st) && Enabled(st, op) && (op.Post? || op.Cancel? || op.Prune?)
    ensures Inv(Step(st, op))
  {
    hide AllLevel, Fit, VaultGap, ReleasedAll, Released, Quote, CanPlace, OrderOk;
    match op
    case Post(m, _, _, pruned, _, slot, _, _, _) =>
      ReleaseAllKeepsInv(st, pruned);
      PlaceKeepsInv(ReleasedAll(st, pruned), (m, slot), PostOrder(st, op));
    case Cancel(k, _, _) => ReleaseShape(st, k);
    case Prune(expired, _) => ReleaseAllKeepsInv(st, expired);
  }

  lemma PositionKeepsInv(st: State, op: Op)
    requires Inv(st) && Enabled(st, op)
    requires (op.Match? || op.Resolve? || op.CloseMutual? || op.Novate? || op.Substitute? || op.Remove?)
    ensures Inv(Step(st, op))
  {
    hide Inv, CanMatch, CanResolve, CanCloseMutual, CanNovate, CanSubstitute, MatchedPair, Resolved, ClosedMutually,
      Novated, Substituted;
    match op
    case Match(kl, ks, fee, now) => MatchKeepsInv(st, kl, ks, fee, now);
    case Resolve(pk, att, now) => ResolveKeepsInv(st, pk, att, now);
    case CloseMutual(pk, att, now) => CloseMutualKeepsInv(st, pk, att, now);
    case Novate(pk, long, t) => NovateKeepsInv(st, pk, long, t);
    case Substitute(kl, ks, pk, t, settle, now) => SubstituteKeepsInv(st, kl, ks, pk, t, settle, now);
    case Remove(pk) => RemoveKeepsInv(st, pk);
  }

  lemma RepostKeepsInv(st: State, op: Op)
    requires Inv(st) && op.Claim? && Enabled(st, op)
    ensures Inv(Step(st, op))
  {
    hide AllLevel, VaultGap, Fit, OrderOk, CanPlace, IsLargestAffordable;
    ConsumptionKeepsInv(st, op.pk, op.long);
    if op.contracts > 0 {
      var (k, id) := ((op.pk.0, op.slot), NextId(st, op.pk.0));
      ClaimKeepsInv(st, op.pk, op.long, op.contracts, op.feeBps, op.expiration, k, id, op.seat, op.postSeq, op.now);
    }
  }

  lemma LiquidateKeepsInvIff(st: State, op: Op)
    requires Inv(st) && op.Liquidate? && Enabled(st, op)
    ensures Inv(Step(st, op)) <==> !Oversized(st, op)
  {
    hide Inv, Liquidated, KeeperFits, Equities;
    LiquidationConserves(st, op.pk, op.att, op.keeper, op.now);
  }

  /** Every instruction, gone through or rolled back, keeps the equalities, unless it is a liquidation
      that pays a bounty above the pot; that one breaks them. */
  lemma StepKeepsInvIff(st: State, op: Op)
    requires Inv(st)
    ensures Inv(Step(st, op)) <==> !Oversized(st, op)
  {
    hide Inv, Enabled;
    if Enabled(st, op) {
      match op {
        case List(_, _) => MoneyKeepsInv(st, op);
        case Open(_) => MoneyKeepsInv(st, op);
        case Deposit(_, _) => MoneyKeepsInv(st, op);
        case Withdraw(_, _) => MoneyKeepsInv(st, op);
        case Sweep(_) => MoneyKeepsInv(st, op);
        case Post(_, _, _, _, _, _, _, _, _) => OrderKeepsInv(st, op);
        case Cancel(_, _, _) => OrderKeepsInv(st, op);
        case Prune(_, _) => OrderKeepsInv(st, op);
        case Match(_, _, _, _) => PositionKeepsInv(st, op);
        case Liquidate(_, _, _, _) => LiquidateKeepsInvIff(st, op);
        case Resolve(_, _, _) => PositionKeepsInv(st, op);
        case CloseMutual(_, _, _) => PositionKeepsInv(st, op);
        case Novate(_, _, _) => PositionKeepsInv(st, op);
        case Substitute(_, _, _, _, _, _) => PositionKeepsInv(st, op);
        case Claim(_, _, _, _, _, _, _, _, _) => RepostKeepsInv(st, op);
        case Remove(_) => PositionKeepsInv(st, op);
      }
    }
  }

  // ----- runs --------------------------------------------------------------------------------------------------

  function Empty(): State { State(map[], map[], map[], map[], map[], map[], 0, 0, 0) }

  /** The state after a run. */
  ghost function After(ops: seq<Op>): State {
    if ops == [] then Empty() else Step(After(ops[..|ops| - 1]), ops[|ops| - 1])
  }

  /** The state before step i of a run. */
  ghost function Before(ops: seq<Op>, i: nat): State
    requires i <= |ops|
  {
    After(ops[..i])
  }

  lemma StepOf(ops: seq<Op>, i: nat)
    requires i < |ops|
    ensures Before(ops, i + 1) == Step(Before(ops, i), ops[i])
  {
    assert ops[..i + 1][..i] == ops[..i] && ops[..i + 1][i] == ops[i];
  }

  lemma EmptyInv()
    ensures Inv(Empty())
  {
  }

  lemma BeforeFirst(ops: seq<Op>)
    ensures Before(ops, 0) == Empty()
  {
    assert ops[..0] == [];
  }

  /** In every state of every run, orders, positions and instruments are well formed. */
  lemma {:induction false} EveryStateFits(ops: seq<Op>, i: nat)
    requires i <= |ops|
    ensures Fit(Before(ops, i))
  {
    if i == 0 {
      BeforeFirst(ops);
    } else {
      hide Fit, Step, Before, Advances, Onward;
      EveryStateFits(ops, i - 1);
      StepOf(ops, i - 1);
      StepOnward(Before(ops, i - 1), ops[i - 1]);
      OnwardIs(Before(ops, i - 1), ops[i - 1]);
    }
  }

  /** No step before i is a liquidation that pays a bounty above the pot. */
  ghost predicate WithinPots(ops: seq<Op>, i: nat)
    requires i <= |ops|
  {
    forall j :: 0 <= j < i ==> !Oversized(Before(ops, j), ops[j])
  }

  /** The equalities hold in every state up to i: accounts level with orders and live positions, and the
      vault covering every claim to the atom. */
  ghost predicate AlwaysLevel(ops: seq<Op>, i: nat)
    requires i <= |ops|
  {
    forall j :: 0 <= j <= i ==> Inv(Before(ops, j))
  }

  /** The equalities hold throughout a run exactly when no liquidation in it pays a bounty above the
      pot. */
  lemma {:induction false} EveryStateLevelIff(ops: seq<Op>, i: nat)
    requires i <= |ops|
    ensures AlwaysLevel(ops, i) <==> WithinPots(ops, i)
  {
    hide Inv, Step, Before, Oversized;
    if i == 0 {
      EmptyInv();
      BeforeFirst(ops);
    } else {
      EveryStateLevelIff(ops, i - 1);
      StepOf(ops, i - 1);
      if Inv(Before(ops, i - 1)) { StepKeepsInvIff(Before(ops, i - 1), ops[i - 1]); }
    }
  }

  /** An instrument pays a bounty of at most two buckets. */
  predicate Sane(op: Op) { op.List? ==> op.market.bountyBps <= 2 * BPS_DENOM }

  ghost predicate SaneRun(ops: seq<Op>) { forall i :: 0 <= i < |ops| ==> Sane(ops[i]) }

  ghost predicate SaneMarkets(st: State) { forall m :: m in st.markets ==> st.markets[m].bountyBps <= 2 * BPS_DENOM }

  lemma NotOversized(st: State, op: Op)
    requires Inv(st) && SaneMarkets(st)
    ensures !Oversized(st, op)
  {
    if Oversized(st, op) {
      PotFits(st, op.pk);
      BountyWithinPot(st.positions[op.pk].collateral, st.markets[op.pk.0].bountyBps);
    }
  }

  lemma MarketsStay(st: State, op: Op)
    requires Onward(st, op)
    ensures op.List? || Step(st, op).markets == st.markets
  {
  }

  lemma ListMarkets(st: State, op: Op)
    requires op.List?
    ensures Step(st, op).markets == st.markets || Step(st, op).markets == st.markets[op.m := op.market]
  {
  }

  /** Sane markets stay sane. */
  lemma SaneStep(st: State, op: Op)
    requires Fit(st) && SaneMarkets(st) && Sane(op)
    ensures SaneMarkets(Step(st, op))
  {
    hide Step, Fit, Onward;
    StepOnward(st, op);
    MarketsStay(st, op);
    if op.List? { ListMarkets(st, op); }
  }

  /** Where every instrument listed pays at most two buckets, the equalities hold throughout. */
  lemma {:induction false} SaneRunsLevel(ops: seq<Op>, i: nat)
    requires SaneRun(ops) && i <= |ops|
    ensures WithinPots(ops, i) && AlwaysLevel(ops, i) && SaneMarkets(Before(ops, i))
  {
    hide Inv, Step, Before, Oversized, SaneMarkets;
    EveryStateLevelIff(ops, i);
    if i == 0 {
      BeforeFirst(ops);
      NoMarkets();
    } else {
      SaneRunsLevel(ops, i - 1);
      StepOf(ops, i - 1);
      EveryStateFits(ops, i - 1);
      SaneStep(Before(ops, i - 1), ops[i - 1]);
      NotOversized(Before(ops, i - 1), ops[i - 1]);
    }
  }

  lemma NoMarkets()
    ensures SaneMarkets(Empty())
  {
  }

  /** The sum of what the steps of a run brought into the vault. */
  ghost function NetFlow(ops: seq<Op>, i: nat): int
    requires i <= |ops|
  {
    if i == 0 then 0 else NetFlow(ops, i - 1) + Flow(Before(ops, i - 1), ops[i - 1])
  }

  /** Over a whole run the vault changes only by deposits, withdrawals and sweeps, and while no bounty
      exceeds its pot it equals all account balances plus the treasury. */
  lemma {:induction false} VaultIsNetFlow(ops: seq<Op>, i: nat)
    requires i <= |ops|
    ensures Before(ops, i).vault == NetFlow(ops, i)
    ensures WithinPots(ops, i) ==>
      Before(ops, i).vault == Sums.Sum(Before(ops, i).accounts, Worth()) + Before(ops, i).treasury
  {
    hide Inv, Step, Flow, Onward, Before, WithinPots;
    EveryStateLevelIff(ops, i);
    if WithinPots(ops, i) { VaultCovers(Before(ops, i)); }
    if i == 0 {
      BeforeFirst(ops);
    } else {
      VaultIsNetFlow(ops, i - 1);
      EveryStateFits(ops, i - 1);
      StepOf(ops, i - 1);
      StepOnward(Before(ops, i - 1), ops[i - 1]);
      OnwardIs(Before(ops, i - 1), ops[i - 1]);
    }
  }

  lemma VaultCovers(st: State)
    requires Inv(st)
    ensures st.vault == Sums.Sum(st.accounts, Worth()) + st.treasury
  {
  }

  lemma OnwardIs(st: State, op: Op)
    requires Onward(st, op)
    ensures Fit(Step(st, op)) && Advances(st, Step(st, op)) && Step(st, op).vault == st.vault + Flow(st, op)
    ensures op.Match? || Step(st, op).positions.Keys <= st.positions.Keys
  {
  }

  /** History between two states of a run. */
  lemma {:induction false} RunAdvances(ops: seq<Op>, i: nat, j: nat)
    requires i <= j <= |ops|
    ensures Advances(Before(ops, i), Before(ops, j))
  {
    hide Step, Advances, After, Onward, Fit;
    if i == j {
      Reflexive(Before(ops, i));
    } else {
      RunAdvances(ops, i, j - 1);
      EveryStateFits(ops, j - 1);
      StepOf(ops, j - 1);
      StepOnward(Before(ops, j - 1), ops[j - 1]);
      OnwardIs(Before(ops, j - 1), ops[j - 1]);
      Transitive(Before(ops, i), Before(ops, j - 1), Before(ops, j));
    }
  }

  lemma Reflexive(st: State)
    ensures Advances(st, st)
  {
  }

  lemma Transitive(a: State, b: State, c: State)
    requires Advances(a, b) && Advances(b, c)
    ensures Advances(a, c)
  {
    forall pk | Issued(a, pk) && pk in c.positions
      ensures pk in a.positions && Evolves(a.positions[pk], c.positions[pk])
    {
      assert Issued(b, pk) && pk in b.positions;
    }
  }

  predicate LiveIn(st: State, pk: Key) { pk in st.positions && st.positions[pk].status == LIVE }

  /** Step i takes position pk out of LIVE. */
  ghost predicate Leaves(ops: seq<Op>, i: nat, pk: Key)
    requires i < |ops|
  {
    LiveIn(Before(ops, i), pk) && !LiveIn(Before(ops, i + 1), pk)
  }

  /** A position leaves LIVE at most once in a run. */
  lemma LeavesLiveOnce(ops: seq<Op>, i: nat, j: nat, pk: Key)
    requires i < j < |ops| && Leaves(ops, i, pk)
    ensures !Leaves(ops, j, pk)
  {
    EveryStateFits(ops, i);
    assert PositionOk(Before(ops, i), pk, Before(ops, i).positions[pk]);
    RunAdvances(ops, i, i + 1);
    RunAdvances(ops, i + 1, j);
    hide Step, Inv;
  }

  /** Step i goes through as a claim of one side of position pk. */
  ghost predicate Claims(ops: seq<Op>, i: nat, pk: Key, long: bool)
    requires i < |ops|
  {
    ops[i].Claim? && ops[i].pk == pk && ops[i].long == long && Enabled(Before(ops, i), ops[i])
  }

  /** A claim uses up the flag it needs, */
  lemma ClaimSpends(st: State, op: Op)
    requires Fit(st) && op.Claim? && Enabled(st, op)
    ensures op.pk in st.positions && Flag(st.positions[op.pk], op.long) && Issued(st, op.pk)
    ensures op.pk in Step(st, op).positions && !Flag(Step(st, op).positions[op.pk], op.long)
  {
    assert PositionOk(st, op.pk, st.positions[op.pk]);
    if op.contracts > 0 {
      var (k, id) := ((op.pk.0, op.slot), NextId(st, op.pk.0));
      var o := ReentryOrder(st, op.pk, op.long, op.contracts, op.feeBps, op.expiration, id, op.seat, op.postSeq);
      assert CanPlace(st, k, o);
      hide Fit, OrderOk, CanPlace, IsLargestAffordable;
      PlacedVault(st, k, o);
    }
  }

  /** so each side of a position is claimed at most once in a run. */
  lemma ClaimedOnce(ops: seq<Op>, i: nat, j: nat, pk: Key, long: bool)
    requires i < j < |ops| && Claims(ops, i, pk, long)
    ensures !Claims(ops, j, pk, long)
  {
    hide Step, Fit, CanRepost;
    if Claims(ops, j, pk, long) {
      EveryStateFits(ops, i);
      EveryStateFits(ops, j);
      ClaimSpends(Before(ops, i), ops[i]);
      ClaimSpends(Before(ops, j), ops[j]);
      StepOf(ops, i);
      RunAdvances(ops, i, i + 1);
      RunAdvances(ops, i + 1, j);
    }
  }

  /** Step i goes through as a settlement on an attestation for market q. */
  ghost predicate Accepts(ops: seq<Op>, i: nat, q: nat)
    requires i < |ops|
  {
    && (ops[i].Liquidate? || ops[i].Resolve? || ops[i].CloseMutual?)
    && Enabled(Before(ops, i), ops[i]) && ops[i].att.marketId == q
  }

  lemma AcceptNotes(st: State, op: Op)
    requires (op.Liquidate? || op.Resolve? || op.CloseMutual?) && Enabled(st, op)
    ensures var q := op.att.marketId;
      q in st.nonces && q in Step(st, op).nonces && st.nonces[q] < op.att.nonce == Step(st, op).nonces[q]
  {
    hide Equities, ResolvedEquities, SpoilsOf, Settled, PaidOut, KeeperFits;
    match op
    case Liquidate(pk, att, keeper, now) =>
      var spoils := SpoilsOf(st.positions[pk], Equities(st.positions[pk], att.mark).value, st.markets[pk.0].bountyBps);
      PaidOutFrame(st, pk, LIQUIDATED, spoils.long, spoils.short, keeper, spoils.bounty);
    case Resolve(pk, att, now) =>
      var eq := ResolvedEquities(st.positions[pk], att.outcomeBps).value;
      SettleFrame(st, pk, RESOLVED, eq.0, eq.1);
    case CloseMutual(pk, att, now) =>
      var eq := Equities(st.positions[pk], att.price).value;
      SettleFrame(st, pk, CLOSED, eq.0, eq.1);
  }

  /** The nonces accepted for a market strictly increase over a run. */
  lemma NoncesIncrease(ops: seq<Op>, i: nat, j: nat, q: nat)
    requires i < j < |ops| && Accepts(ops, i, q) && Accepts(ops, j, q)
    ensures ops[i].att.nonce < ops[j].att.nonce
  {
    hide Step, Enabled;
    AcceptNotes(Before(ops, i), ops[i]);
    AcceptNotes(Before(ops, j), ops[j]);
    StepOf(ops, i);
    RunAdvances(ops, i + 1, j);
  }
}
