/** Chains of settling substitutions: over any run, what the legs on one side of a position pay, what the
    successive holders net, and what the other side sees of it. */
module Chains {
  import opened FixedPoint
  import opened Ledger
  import opened Operations
  import opened Trades
  import opened Settlements
  import opened Handovers
  import opened Reentry
  import opened Outcomes
  import opened Runs

  // ----- one leg ----------------------------------------------------------------------------------------

  /** A long's profit as seen from one side. */
  function Signed(long: bool, profit: int): int { if long then profit else 0 - profit }

  /** Step i of a run goes through as a settling substitution of one side of position pk. */
  ghost predicate Settles(ops: seq<Op>, i: nat, pk: Key, long: bool) {
    && i < |ops| && ops[i].Substitute? && ops[i].pk == pk && ops[i].settle && Enabled(Before(ops, i), ops[i])
    && SwapOf(Before(ops, i), ops[i].kl, ops[i].ks, ops[i].t).long == long
  }

  /** The price a leg is settled at, */
  ghost function MarkAt(ops: seq<Op>, i: nat, pk: Key, long: bool): nat
    requires Settles(ops, i, pk, long)
  {
    var o := Before(ops, i).orders;
    PriceMidpoint(o[ops[i].kl].data.price, o[ops[i].ks].data.price)
  }

  /** and what its newcomer pays its leaver. */
  ghost function PremiumAt(ops: seq<Op>, i: nat, pk: Key, long: bool): int
    requires Settles(ops, i, pk, long)
  {
    var op := ops[i];
    PremiumPaid(Before(ops, i), op.kl, op.ks, op.pk, op.t, op.settle, op.now)
  }

  /** The position as a leg finds it. */
  ghost function At(ops: seq<Op>, i: nat, pk: Key, long: bool): Position
    requires Settles(ops, i, pk, long)
  {
    Before(ops, i).positions[pk]
  }

  ghost function ProfitAt(ops: seq<Op>, i: nat, pk: Key, long: bool): int
    requires Settles(ops, i, pk, long)
  {
    var p := At(ops, i, pk, long);
    if p.size < U128 then Signed(long, Pnl(p.entry, MarkAt(ops, i, pk, long), AsI128(p.size))) else 0
  }

  /** A leg's premium is the leaving side's profit since the position's entry, whatever was settled on
      that side before. */
  lemma PremiumIsProfit(ops: seq<Op>, i: nat, pk: Key, long: bool)
    requires Settles(ops, i, pk, long)
    ensures At(ops, i, pk, long).size < U128 && PremiumAt(ops, i, pk, long) == ProfitAt(ops, i, pk, long)
  {
    hide Before, PriceMidpoint, Affords, OrderOk;
  }

  /** Two legs find the same position. */
  lemma SamePosition(ops: seq<Op>, i: nat, j: nat, pk: Key, long: bool)
    requires i <= j && Settles(ops, i, pk, long) && Settles(ops, j, pk, long)
    ensures SameTerms(At(ops, i, pk, long), At(ops, j, pk, long))
  {
    EveryStateFits(ops, i);
    PositionIssued(Before(ops, i), pk);
    RunAdvances(ops, i, j);
    hide Before, Fit;
  }

  lemma PositionIssued(st: State, pk: Key)
    requires Fit(st) && pk in st.positions
    ensures Issued(st, pk)
  {
    assert PositionOk(st, pk, st.positions[pk]);
  }

  // ----- a chain of legs -----------------------------------------------------------------------------------

  /** Legs of a run, in order, with anything in between. */
  ghost predicate Chained(ops: seq<Op>, legs: seq<nat>, pk: Key, long: bool) {
    && (forall a :: 0 <= a < |legs| ==> Settles(ops, legs[a], pk, long))
    && (forall a, b :: 0 <= a < b < |legs| ==> legs[a] < legs[b])
  }

  /** By how much the premium of leg a exceeds that of the leg before it. The first leg's exceeds nothing. */
  ghost function Rise(ops: seq<Op>, legs: seq<nat>, a: nat, pk: Key, long: bool): int
    requires Chained(ops, legs, pk, long) && a < |legs|
  {
    PremiumAt(ops, legs[a], pk, long) - if a == 0 then 0 else PremiumAt(ops, legs[a - 1], pk, long)
  }

  ghost function PremiumSum(ops: seq<Op>, legs: seq<nat>, n: nat, pk: Key, long: bool): int
    requires Chained(ops, legs, pk, long) && n <= |legs|
  {
    if n == 0 then 0 else PremiumSum(ops, legs, n - 1, pk, long) + PremiumAt(ops, legs[n - 1], pk, long)
  }

  /** The profit from mark to mark. The first leg counts from the entry. */
  ghost function LegProfit(ops: seq<Op>, legs: seq<nat>, a: nat, pk: Key, long: bool): int
    requires Chained(ops, legs, pk, long) && a < |legs| && At(ops, legs[0], pk, long).size < U128
  {
    var p := At(ops, legs[0], pk, long);
    var from := if a == 0 then p.entry else MarkAt(ops, legs[a - 1], pk, long);
    Signed(long, Pnl(from, MarkAt(ops, legs[a], pk, long), AsI128(p.size)))
  }

  /** Whatever happened between two legs, the rise from one premium to the next is the profit between the
      two marks, to within one atom; the first premium is exactly the profit since the entry. */
  lemma RiseIsLegProfit(ops: seq<Op>, legs: seq<nat>, a: nat, pk: Key, long: bool)
    requires Chained(ops, legs, pk, long) && a < |legs|
    ensures At(ops, legs[0], pk, long).size < U128
    ensures Abs(Rise(ops, legs, a, pk, long) - LegProfit(ops, legs, a, pk, long)) <= if a == 0 then 0 else 1
  {
    hide Settles, At, MarkAt, PremiumAt, Pnl;
    var p := At(ops, legs[0], pk, long);
    PremiumIsProfit(ops, legs[0], pk, long);
    PremiumIsProfit(ops, legs[a], pk, long);
    SamePosition(ops, legs[0], legs[a], pk, long);
    if a > 0 {
      PremiumIsProfit(ops, legs[a - 1], pk, long);
      SamePosition(ops, legs[0], legs[a - 1], pk, long);
      PnlLeg(p.entry, MarkAt(ops, legs[a - 1], pk, long), MarkAt(ops, legs[a], pk, long), AsI128(p.size));
    }
  }

  /** The premiums themselves do not add up to the profit to the last mark: every one is counted from the
      entry, so their sum is within n - 1 atoms of it exactly when the premiums before the last sum to that
      little, which is known before the last leg is made. */
  lemma PremiumsTelescopeIff(ops: seq<Op>, legs: seq<nat>, n: nat, pk: Key, long: bool)
    requires Chained(ops, legs, pk, long) && 0 < n <= |legs|
    ensures Abs(PremiumSum(ops, legs, n, pk, long) - ProfitAt(ops, legs[n - 1], pk, long)) <= n - 1
       <==> Abs(PremiumSum(ops, legs, n - 1, pk, long)) <= n - 1
  {
    hide Settles, At, MarkAt, PremiumAt, ProfitAt;
    PremiumIsProfit(ops, legs[n - 1], pk, long);
  }

  // ----- who holds a side -----------------------------------------------------------------------------------

  /** The operation goes through and gives one side of position pk to someone. */
  ghost predicate HandsOver(st: State, op: Op, pk: Key, long: bool) {
    && Enabled(st, op)
    && ((op.Novate? && op.pk == pk && op.long == long)
        || (op.Substitute? && op.pk == pk && SwapOf(st, op.kl, op.ks, op.t).long == long))
  }

  /** Both sides of position pk have the owners they had. */
  predicate SameOwners(st: State, st': State, pk: Key)
    requires pk in st.positions && pk in st'.positions
  {
    && st'.positions[pk].longOwner == st.positions[pk].longOwner
    && st'.positions[pk].shortOwner == st.positions[pk].shortOwner
  }

  lemma OrdersOwners(st: State, op: Op)
    requires Fit(st) && (op.Post? || op.Prune? || op.Cancel?)
    ensures Step(st, op).positions == st.positions
  {
    hide Fit, ReleasedAll, Released, Quote, CanPlace, OrderOk;
    if Enabled(st, op) {
      match op
      case Post(m, _, _, pruned, _, slot, _, _, _) =>
        ReleasedAllFits(st, pruned);
        PlacedVault(ReleasedAll(st, pruned), (m, slot), PostOrder(st, op));
      case Cancel(k, _, _) => ReleasedFits(st, k);
      case Prune(expired, _) => ReleasedAllFits(st, expired);
    }
  }

  lemma MatchOwners(st: State, op: Op, pk: Key)
    requires Fit(st) && op.Match? && Enabled(st, op) && pk in st.positions
    ensures pk in Step(st, op).positions && SameOwners(st, Step(st, op), pk)
  {
    hide OrderOk, Matched, MatchedPair, PositionOk, SizeOf, Purse, OrdersOk, PositionsOk, MarketsOk;
    var pk', p := MatchOpens(st, op.kl, op.ks, op.fee, op.now);
    MatchFrame(st, op.kl, op.ks, pk', p, op.fee);
  }

  lemma SettleOwners(st: State, op: Op, pk: Key)
    requires (op.Liquidate? || op.Resolve? || op.CloseMutual?) && Enabled(st, op) && pk in st.positions
    ensures pk in Step(st, op).positions && SameOwners(st, Step(st, op), pk)
  {
    hide Equities, ResolvedEquities, SpoilsOf, Settled, PaidOut, KeeperFits;
    match op
    case Liquidate(pk', att, keeper, now) =>
      var spoils := SpoilsOf(st.positions[pk'], Equities(st.positions[pk'], att.mark).value,
                             st.markets[pk'.0].bountyBps);
      PaidOutFrame(st, pk', LIQUIDATED, spoils.long, spoils.short, keeper, spoils.bounty);
    case Resolve(pk', att, now) =>
      var eq := ResolvedEquities(st.positions[pk'], att.outcomeBps).value;
      SettleFrame(st, pk', RESOLVED, eq.0, eq.1);
    case CloseMutual(pk', att, now) =>
      var eq := Equities(st.positions[pk'], att.price).value;
      SettleFrame(st, pk', CLOSED, eq.0, eq.1);
  }

  lemma NovateOwners(st: State, op: Op, pk: Key, long: bool)
    requires op.Novate? && Enabled(st, op) && pk in st.positions && !HandsOver(st, op, pk, long)
    ensures pk in Step(st, op).positions && OwnerOf(Step(st, op).positions[pk], long) == OwnerOf(st.positions[pk], long)
  {
    hide Novated;
    NovateFrame(st, op.pk, op.long, op.t);
  }

  /** A substitution gives its side to the owner of the order that comes in, and the other side to nobody. */
  lemma SubstituteOwners(st: State, op: Op, pk: Key, long: bool)
    requires Fit(st) && op.Substitute? && Enabled(st, op) && pk in st.positions
    ensures op.kl in st.orders && op.ks in st.orders
    ensures pk in Step(st, op).positions
    ensures OwnerOf(Step(st, op).positions[pk], long) ==
      if HandsOver(st, op, pk, long) then st.orders[SwapOf(st, op.kl, op.ks, op.t).coming].owner
      else OwnerOf(st.positions[pk], long)
  {
    hide Substituted, PremiumPaid, Premium, Fair, Fit, Affords, PriceMidpoint, OrderOk;
    SubstituteFair(st, op.kl, op.ks, op.pk, op.t, op.settle, op.now);
    SubstituteFrame(st, SwapOf(st, op.kl, op.ks, op.t), op.pk,
                    PremiumPaid(st, op.kl, op.ks, op.pk, op.t, op.settle, op.now));
  }

  lemma ClaimOwners(st: State, op: Op, pk: Key)
    requires op.Claim? && Enabled(st, op) && pk in st.positions
    ensures pk in Step(st, op).positions && SameOwners(st, Step(st, op), pk)
  {
    hide OrderOk, CanPlace, PlacedOrder, IsLargestAffordable;
    var (k, id) := ((op.pk.0, op.slot), NextId(st, op.pk.0));
    var o := ReentryOrder(st, op.pk, op.long, op.contracts, op.feeBps, op.expiration, id, op.seat, op.postSeq);
    if CanPlace(st, k, o) { PlacedVault(st, k, o); }
  }

  lemma PlainOwners(st: State, op: Op)
    requires op.List? || op.Open? || op.Deposit? || op.Withdraw? || op.Sweep? || op.Remove? || !Enabled(st, op)
    ensures Step(st, op).positions == if op.Remove? && Enabled(st, op) then st.positions - {op.pk} else st.positions
  {
  }

  /** A side of a position keeps its owner through every operation that does not hand it over. */
  lemma OwnerStays(st: State, op: Op, pk: Key, long: bool)
    requires Fit(st) && pk in st.positions && pk in Step(st, op).positions && !HandsOver(st, op, pk, long)
    ensures OwnerOf(Step(st, op).positions[pk], long) == OwnerOf(st.positions[pk], long)
  {
    hide Fit, Enabled, Step;
    if !Enabled(st, op) {
      PlainOwners(st, op);
    } else {
      match op {
        case Post(_, _, _, _, _, _, _, _, _) => OrdersOwners(st, op);
        case Cancel(_, _, _) => OrdersOwners(st, op);
        case Prune(_, _) => OrdersOwners(st, op);
        case Match(_, _, _, _) => MatchOwners(st, op, pk);
        case Liquidate(_, _, _, _) => SettleOwners(st, op, pk);
        case Resolve(_, _, _) => SettleOwners(st, op, pk);
        case CloseMutual(_, _, _) => SettleOwners(st, op, pk);
        case Novate(_, _, _) => NovateOwners(st, op, pk, long);
        case Substitute(_, _, _, _, _, _) => SubstituteOwners(st, op, pk, long);
        case Claim(_, _, _, _, _, _, _, _, _) => ClaimOwners(st, op, pk);
        case _ => PlainOwners(st, op);
      }
    }
  }

  /** No step from i to j hands the side over. */
  ghost predicate Undisturbed(ops: seq<Op>, i: nat, j: nat, pk: Key, long: bool)
    requires i <= j <= |ops|
  {
    forall k :: i <= k < j ==> !HandsOver(Before(ops, k), ops[k], pk, long)
  }

  /** Over any part of a run that hands a side over to nobody, its owner stays. */
  lemma {:induction false} OwnerHolds(ops: seq<Op>, i: nat, j: nat, pk: Key, long: bool)
    requires i <= j <= |ops| && Undisturbed(ops, i, j, pk, long)
    requires pk in Before(ops, i).positions && pk in Before(ops, j).positions
    ensures OwnerOf(Before(ops, j).positions[pk], long) == OwnerOf(Before(ops, i).positions[pk], long)
  {
    hide Fit, Step, Before, HandsOver, Advances;
    if i < j {
      StillThere(ops, i, j - 1, j, pk);
      OwnerHolds(ops, i, j - 1, pk, long);
      EveryStateFits(ops, j - 1);
      StepOf(ops, j - 1);
      OwnerStays(Before(ops, j - 1), ops[j - 1], pk, long);
    }
  }

  /** A position that is there early and late was there in between. */
  lemma StillThere(ops: seq<Op>, i: nat, k: nat, j: nat, pk: Key)
    requires i <= k <= j <= |ops| && pk in Before(ops, i).positions && pk in Before(ops, j).positions
    ensures pk in Before(ops, k).positions
  {
    hide Fit, Before;
    EveryStateFits(ops, i);
    PositionIssued(Before(ops, i), pk);
    RunAdvances(ops, i, k);
    RunAdvances(ops, k, j);
  }

  // ----- what the traders see -------------------------------------------------------------------------------

  /** The owners of the two orders of a leg are different traders. */
  ghost predicate BetweenTwo(ops: seq<Op>, i: nat, pk: Key, long: bool)
    requires Settles(ops, i, pk, long)
  {
    Before(ops, i).orders[ops[i].kl].owner != Before(ops, i).orders[ops[i].ks].owner
  }

  /** The order whose owner leaves, and the one whose owner comes in. */
  ghost function LeavingAt(ops: seq<Op>, i: nat, pk: Key, long: bool): Order
    requires Settles(ops, i, pk, long)
  {
    var st := Before(ops, i);
    st.orders[SwapOf(st, ops[i].kl, ops[i].ks, ops[i].t).leaving]
  }

  ghost function ComingAt(ops: seq<Op>, i: nat, pk: Key, long: bool): Order
    requires Settles(ops, i, pk, long)
  {
    var st := Before(ops, i);
    st.orders[SwapOf(st, ops[i].kl, ops[i].ks, ops[i].t).coming]
  }

  lemma SwapMoves(st: State, op: Op)
    requires op.Substitute? && CanSubstitute(st, op.kl, op.ks, op.pk, op.t, op.settle, op.now)
    requires st.orders[op.kl].owner != st.orders[op.ks].owner
    ensures var (swap, premium) := (SwapOf(st, op.kl, op.ks, op.t),
                                    PremiumPaid(st, op.kl, op.ks, op.pk, op.t, op.settle, op.now));
      var (x, n, p) := (st.orders[swap.leaving], st.orders[swap.coming], st.positions[op.pk]);
      && x.data.Intent? && n.data.Intent? && x.data.remaining > 0 && n.data.remaining > 0
      && x.owner == OwnerOf(p, swap.long) && x.owner != n.owner
      && var (c, st') := (p.collateral, Step(st, op));
      && Gained(st, st', x.owner, ReleaseOfOne(x.data) + 2 * c + premium, 0 - (c + ReleaseOfOne(x.data)), 0 - c)
      && Gained(st, st', n.owner, ReleaseOfOne(n.data) - premium, 0 - (c + ReleaseOfOne(n.data)), c)
  {
    hide AllLevel, Fit, VaultGap, Substituted, ReleaseOfOne, PriceMidpoint, PnlLongAtoms, Affords, Premium, Crossing;
    SubstitutionMoves(st, op.kl, op.ks, op.pk, op.t, op.settle, op.now);
  }

  /** A leg in the two accounts: beside its stake and what its own order freed, the leaver gains the
      premium and the newcomer pays it. */
  lemma LegMoves(ops: seq<Op>, i: nat, pk: Key, long: bool)
    requires Settles(ops, i, pk, long) && BetweenTwo(ops, i, pk, long)
    ensures var (x, n, c) := (LeavingAt(ops, i, pk, long), ComingAt(ops, i, pk, long), At(ops, i, pk, long).collateral);
      && x.data.Intent? && n.data.Intent? && x.data.remaining > 0 && n.data.remaining > 0
      && x.owner == OwnerOf(At(ops, i, pk, long), long) && x.owner != n.owner
      && Gained(Before(ops, i), Before(ops, i + 1), x.owner, ReleaseOfOne(x.data) + 2 * c + PremiumAt(ops, i, pk, long),
                0 - (c + ReleaseOfOne(x.data)), 0 - c)
      && Gained(Before(ops, i), Before(ops, i + 1), n.owner, ReleaseOfOne(n.data) - PremiumAt(ops, i, pk, long),
                0 - (c + ReleaseOfOne(n.data)), c)
  {
    hide Before, Step, CanSubstitute, ReleaseOfOne, Gained, PremiumPaid;
    StepOf(ops, i);
    SwapMoves(Before(ops, i), ops[i]);
  }

  /** The trader who comes in on one leg is the one who leaves on the next, if nothing in between hands
      the side over. */
  lemma ComerLeavesNext(ops: seq<Op>, i: nat, j: nat, pk: Key, long: bool)
    requires Settles(ops, i, pk, long) && Settles(ops, j, pk, long) && i < j && Undisturbed(ops, i + 1, j, pk, long)
    ensures LeavingAt(ops, j, pk, long).owner == ComingAt(ops, i, pk, long).owner
  {
    EveryStateFits(ops, i);
    StepOf(ops, i);
    hide Fit, Before, Step, Undisturbed, Affords, PriceMidpoint, Premium, OrderOk;
    SubstituteOwners(Before(ops, i), ops[i], pk, long);
    OwnerHolds(ops, i + 1, j, pk, long);
  }

  // ----- what the holders net -------------------------------------------------------------------------------

  /** What a trader has, with or without an account. */
  function Had(st: State, u: nat): Balance { if u in st.accounts then st.accounts[u] else Balance(0, 0, 0) }

  function Plus(a: Balance, b: Balance): Balance {
    Balance(a.free + b.free, a.reserved + b.reserved, a.locked + b.locked)
  }

  function Minus(a: Balance, b: Balance): Balance {
    Balance(a.free - b.free, a.reserved - b.reserved, a.locked - b.locked)
  }

  /** What step i changes of what trader u has, */
  ghost function Change(ops: seq<Op>, i: nat, u: nat): Balance
    requires i < |ops|
  {
    Minus(Had(Before(ops, i + 1), u), Had(Before(ops, i), u))
  }

  /** and what it gains u in all. */
  ghost function Gain(ops: seq<Op>, i: nat, u: nat): int
    requires i < |ops|
  {
    var d := Change(ops, i, u); d.free + d.reserved + d.locked
  }

  /** A leg between two traders enriches the leaver by the premium, at the newcomer's cost. */
  lemma LegGains(ops: seq<Op>, i: nat, pk: Key, long: bool)
    requires Settles(ops, i, pk, long) && BetweenTwo(ops, i, pk, long)
    ensures Gain(ops, i, LeavingAt(ops, i, pk, long).owner) == PremiumAt(ops, i, pk, long)
    ensures Gain(ops, i, ComingAt(ops, i, pk, long).owner) == 0 - PremiumAt(ops, i, pk, long)
  {
    hide Settles, Before, BetweenTwo, LeavingAt, ComingAt, At, PremiumAt, ReleaseOfOne;
    LegMoves(ops, i, pk, long);
  }

  /** A chain in which the side passes from holder to holder: each leg between two traders, and nothing
      between one leg and the next hands the side over. */
  ghost predicate Relayed(ops: seq<Op>, legs: seq<nat>, pk: Key, long: bool) {
    && Chained(ops, legs, pk, long)
    && (forall a :: 0 <= a < |legs| ==> BetweenTwo(ops, legs[a], pk, long))
    && (forall a :: 0 < a < |legs| ==> Undisturbed(ops, legs[a - 1] + 1, legs[a], pk, long))
  }

  /** What the trader who leaves on leg a gains by that leg and by the one before, on which it came in. */
  ghost function Net(ops: seq<Op>, legs: seq<nat>, a: nat, pk: Key, long: bool): int
    requires Chained(ops, legs, pk, long) && a < |legs|
  {
    var u := LeavingAt(ops, legs[a], pk, long).owner;
    Gain(ops, legs[a], u) + if a == 0 then 0 else Gain(ops, legs[a - 1], u)
  }

  ghost function NetSum(ops: seq<Op>, legs: seq<nat>, n: nat, pk: Key, long: bool): int
    requires Chained(ops, legs, pk, long) && n <= |legs|
  {
    if n == 0 then 0 else NetSum(ops, legs, n - 1, pk, long) + Net(ops, legs, n - 1, pk, long)
  }

  lemma NetIsRise(ops: seq<Op>, legs: seq<nat>, a: nat, pk: Key, long: bool)
    requires Relayed(ops, legs, pk, long) && a < |legs|
    ensures Net(ops, legs, a, pk, long) == Rise(ops, legs, a, pk, long)
    ensures a > 0 ==> LeavingAt(ops, legs[a], pk, long).owner == ComingAt(ops, legs[a - 1], pk, long).owner
  {
    hide Settles, BetweenTwo, Undisturbed, Gain, PremiumAt, LeavingAt, ComingAt;
    LegGains(ops, legs[a], pk, long);
    if a > 0 {
      LegGains(ops, legs[a - 1], pk, long);
      ComerLeavesNext(ops, legs[a - 1], legs[a], pk, long);
    }
  }

  /** In a relay the first holder nets exactly the profit from the entry to its mark, and every later one,
      who is the newcomer of the leg before, the profit from the mark it came in at to the mark it left
      at, to within one atom. */
  lemma HoldersNetTheirLegs(ops: seq<Op>, legs: seq<nat>, a: nat, pk: Key, long: bool)
    requires Relayed(ops, legs, pk, long) && a < |legs|
    ensures At(ops, legs[0], pk, long).size < U128
    ensures Abs(Net(ops, legs, a, pk, long) - LegProfit(ops, legs, a, pk, long)) <= if a == 0 then 0 else 1
    ensures a > 0 ==> LeavingAt(ops, legs[a], pk, long).owner == ComingAt(ops, legs[a - 1], pk, long).owner
  {
    hide Chained, Net, Rise, LegProfit, At, LeavingAt, ComingAt, Abs;
    NetIsRise(ops, legs, a, pk, long);
    RiseIsLegProfit(ops, legs, a, pk, long);
  }

  /** However many holders a side had, their nets telescope: together they are exactly the profit from
      the entry to the last mark. */
  lemma {:induction false} NetsTelescope(ops: seq<Op>, legs: seq<nat>, n: nat, pk: Key, long: bool)
    requires Relayed(ops, legs, pk, long) && 0 < n <= |legs|
    ensures NetSum(ops, legs, n, pk, long) == ProfitAt(ops, legs[n - 1], pk, long)
    ensures At(ops, legs[n - 1], pk, long).entry == At(ops, legs[0], pk, long).entry
  {
    hide Settles, At, MarkAt, PremiumAt, ProfitAt, Net, BetweenTwo, Undisturbed;
    PremiumIsProfit(ops, legs[n - 1], pk, long);
    SamePosition(ops, legs[0], legs[n - 1], pk, long);
    NetIsRise(ops, legs, n - 1, pk, long);
    if n > 1 {
      PremiumIsProfit(ops, legs[n - 2], pk, long);
      NetsTelescope(ops, legs, n - 1, pk, long);
    }
  }

  // ----- what the other side sees -----------------------------------------------------------------------------

  /** A leg keeps the position live on its terms with its other owner, and touches no third trader. */
  lemma LegAside(ops: seq<Op>, i: nat, pk: Key, long: bool, u: nat)
    requires Settles(ops, i, pk, long)
    ensures var (st, st') := (Before(ops, i), Before(ops, i + 1));
      && LiveAt(st, pk) && LiveAt(st', pk) && SameTerms(st.positions[pk], st'.positions[pk])
      && OwnerOf(st'.positions[pk], !long) == OwnerOf(st.positions[pk], !long)
      && (LeavingAt(ops, i, pk, long).owner != u && ComingAt(ops, i, pk, long).owner != u ==> Had(st', u) == Had(st, u))
  {
    EveryStateFits(ops, i);
    StepOf(ops, i);
    var (st, op) := (Before(ops, i), ops[i]);
    hide Fit, Before, Substituted, Affords, PriceMidpoint, Premium, OrderOk, Fair;
    SubstituteFair(st, op.kl, op.ks, op.pk, op.t, op.settle, op.now);
    var (swap, premium) := (SwapOf(st, op.kl, op.ks, op.t),
                            PremiumPaid(st, op.kl, op.ks, op.pk, op.t, op.settle, op.now));
    SubstituteFrame(st, swap, pk, premium);
    SwapKeepsLive(st, swap, pk);
    if u in st.accounts && LeavingAt(ops, i, pk, long).owner != u && ComingAt(ops, i, pk, long).owner != u {
      BystandersUntouched(st, swap, pk, premium, u);
    }
  }

  lemma SwapKeepsLive(st: State, swap: Swap, pk: Key)
    requires Swappable(st, swap, pk)
    ensures st.orders[swap.coming].owner in st.accounts
  {
  }

  /** A position live late was live, on the same terms, at any time since it was there. */
  lemma LiveBetween(a: State, b: State, c: State, pk: Key)
    requires Advances(a, b) && Advances(b, c) && Fit(a) && Fit(b) && pk in a.positions && LiveAt(c, pk)
    ensures LiveAt(b, pk) && SameTerms(a.positions[pk], b.positions[pk])
  {
    PositionIssued(a, pk);
    assert Issued(b, pk);
    assert pk in b.positions;
    PositionOwners(b, pk);
    hide Fit;
  }

  /** From the first leg of a chain to the last, with anything in between, the position is live on the same
      terms. */
  lemma LiveThroughout(ops: seq<Op>, legs: seq<nat>, j: nat, pk: Key, long: bool)
    requires Chained(ops, legs, pk, long) && |legs| > 0 && legs[0] <= j <= legs[|legs| - 1] + 1
    ensures LiveAt(Before(ops, j), pk) && SameTerms(At(ops, legs[0], pk, long), Before(ops, j).positions[pk])
  {
    var (first, last) := (legs[0], legs[|legs| - 1]);
    assert first <= last;
    hide Settles, Before, Fit, Advances, LiveAt, SameTerms, LeavingAt, ComingAt, Had;
    LegAside(ops, first, pk, long, 0);
    LegAside(ops, last, pk, long, 0);
    if j <= last {
      EveryStateFits(ops, first);
      EveryStateFits(ops, j);
      RunAdvances(ops, first, j);
      RunAdvances(ops, j, last);
      LiveBetween(Before(ops, first), Before(ops, j), Before(ops, last), pk);
    } else {
      SamePosition(ops, first, last, pk, long);
      SameTermsOn(At(ops, first, pk, long), At(ops, last, pk, long), Before(ops, j).positions[pk]);
    }
  }

  lemma SameTermsOn(p: Position, q: Position, r: Position)
    requires SameTerms(p, q) && SameTerms(q, r)
    ensures SameTerms(p, r)
  {
  }

  lemma PositionOwners(st: State, pk: Key)
    requires Fit(st) && pk in st.positions
    ensures st.positions[pk].longOwner in st.accounts && st.positions[pk].shortOwner in st.accounts
  {
    assert PositionOk(st, pk, st.positions[pk]);
  }

  /** What the steps from i to j other than the legs change of what trader u has. */
  ghost function Elsewhere(ops: seq<Op>, legs: seq<nat>, i: nat, j: nat, u: nat): Balance
    requires i <= j <= |ops|
  {
    if i == j then Balance(0, 0, 0)
    else Plus(Elsewhere(ops, legs, i, j - 1, u), if j - 1 in legs then Balance(0, 0, 0) else Change(ops, j - 1, u))
  }

  /** No leg of the chain involves trader u. */
  ghost predicate Bystander(ops: seq<Op>, legs: seq<nat>, pk: Key, long: bool, u: nat)
    requires Chained(ops, legs, pk, long)
  {
    forall a :: 0 <= a < |legs| ==>
      LeavingAt(ops, legs[a], pk, long).owner != u && ComingAt(ops, legs[a], pk, long).owner != u
  }

  /** So what a bystander has changes by the other steps alone. */
  lemma {:induction false} OnlyElsewhere(ops: seq<Op>, legs: seq<nat>, i: nat, j: nat, pk: Key, long: bool, u: nat)
    requires Chained(ops, legs, pk, long) && i <= j <= |ops| && Bystander(ops, legs, pk, long, u)
    ensures Had(Before(ops, j), u) == Plus(Had(Before(ops, i), u), Elsewhere(ops, legs, i, j, u))
  {
    hide Settles, Before, LeavingAt, ComingAt, Had;
    if i < j {
      OnlyElsewhere(ops, legs, i, j - 1, pk, long, u);
      if j - 1 in legs {
        var a :| 0 <= a < |legs| && legs[a] == j - 1;
        LegAside(ops, legs[a], pk, long, u);
      }
    }
  }

  /** Through any chain of legs on one side, with anything in between, and in every state from its first leg
      to its last: the position is live on the same terms; while no bounty has exceeded its pot, both
      stakes are locked and the pot is in the vault; the other side's owner is the same unless another step
      handed that side over; and if no leg involves that owner, what it has changed by the other steps
      alone. */
  lemma OtherSideUntouched(ops: seq<Op>, legs: seq<nat>, j: nat, pk: Key, long: bool)
    requires Chained(ops, legs, pk, long) && |legs| > 0 && legs[0] <= j <= legs[|legs| - 1] + 1
    ensures var (st, st') := (Before(ops, legs[0]), Before(ops, j));
      && pk in st.positions && LiveAt(st', pk) && SameTerms(st.positions[pk], st'.positions[pk])
      && (WithinPots(ops, j) ==>
        var (p, a) := (st'.positions[pk], st'.accounts);
        && 2 * p.collateral <= st'.vault && p.collateral <= a[p.longOwner].locked
        && p.collateral <= a[p.shortOwner].locked)
      && var u := OwnerOf(st.positions[pk], !long);
      && (Undisturbed(ops, legs[0], j, pk, !long) ==> OwnerOf(st'.positions[pk], !long) == u)
      && (Bystander(ops, legs, pk, long, u) ==> Had(st', u) == Plus(Had(st, u), Elsewhere(ops, legs, legs[0], j, u)))
  {
    LiveThroughout(ops, legs, j, pk, long);
    LiveThroughout(ops, legs, legs[0], pk, long);
    hide Settles, Before, Undisturbed, Bystander, Inv, WithinPots, Elsewhere, Had;
    if WithinPots(ops, j) {
      EveryStateLevelIff(ops, j);
      PotFits(Before(ops, j), pk);
    }
    if Undisturbed(ops, legs[0], j, pk, !long) { OwnerHolds(ops, legs[0], j, pk, !long); }
    var u := OwnerOf(Before(ops, legs[0]).positions[pk], !long);
    if Bystander(ops, legs, pk, long, u) { OnlyElsewhere(ops, legs, legs[0], j, pk, long, u); }
  }

  /** A leg does not count as handing the other side over. */
  lemma LegsKeepOtherSide(ops: seq<Op>, i: nat, pk: Key, long: bool)
    requires Settles(ops, i, pk, long)
    ensures !HandsOver(Before(ops, i), ops[i], pk, !long)
  {
  }
}
