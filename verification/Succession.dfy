/** How a side of a position passes on, in plain arithmetic: substitution, re-entry, and where a position's terms
    come from. */
module Succession {
  import opened Nodes
  import opened FixedPoint
  import opened Ledger
  import opened Operations
  import opened Trades
  import opened Handovers
  import opened Reentry
  import opened Runs
  import opened Sizes
  import opened Rules
  import Chains
  import Substituting

  // ----- substitution -----------------------------------------------------------------------------------------

  /** A bid and an ask that meet around the entry of a live position, one of them posted by trader t, which owns
      the long side if it asks and the short side if it only bids. */
  predicate Exiting(st: State, kl: Key, ks: Key, pk: Key, t: nat, now: nat) {
    && Meeting(st, kl, ks, now) && pk.0 == kl.0 && pk in st.positions && st.positions[pk].status == LIVE
    && st.orders[ks].data.price <= st.positions[pk].entry <= st.orders[kl].data.price
    && (if st.orders[ks].owner == t then st.positions[pk].longOwner == t
        else st.orders[kl].owner == t && st.positions[pk].shortOwner == t)
  }

  /** What t is owed on leaving: nothing, or when settling its side's profit at the floor of the mean of the two
      limits. */
  function Owed(st: State, kl: Key, ks: Key, pk: Key, t: nat, settle: bool): Checked<int>
    requires kl in st.orders && ks in st.orders && st.orders[kl].data.Intent? && st.orders[ks].data.Intent?
    requires pk in st.positions && st.positions[pk].size < 0x1_0000_0000_0000_0000_0000_0000_0000_0000
  {
    var (p, mark) := (st.positions[pk], (st.orders[kl].data.price + st.orders[ks].data.price) / 2);
    if !settle then Ok(0)
    else if PnlLongAtoms(p.entry, mark, p.size).Err? then PnlLongAtoms(p.entry, mark, p.size)
    else if st.orders[ks].owner == t then Ok(PnlLongAtoms(p.entry, mark, p.size).value)
    else Ok(0 - PnlLongAtoms(p.entry, mark, p.size).value)
  }

  lemma OwedIs(st: State, kl: Key, ks: Key, pk: Key, t: nat, settle: bool)
    requires kl in st.orders && ks in st.orders && st.orders[kl].data.Intent? && st.orders[ks].data.Intent?
    requires pk in st.positions && st.positions[pk].size < U128
    requires st.orders[kl].owner == t || st.orders[ks].owner == t
    ensures Premium(st.positions[pk], PriceMidpoint(st.orders[kl].data.price, st.orders[ks].data.price),
                    SwapOf(st, kl, ks, t).long, settle)
         == Owed(st, kl, ks, pk, t, settle)
  {
    MidpointIsFloorMean(st.orders[kl].data.price, st.orders[ks].data.price);
    hide PriceMidpoint, PnlLongAtoms;
  }

  /** Who takes over: the poster of the bid takes the long side from the one who asks, and the poster of the ask
      the short side from the one who bids. */
  function Newcomer(st: State, kl: Key, ks: Key, t: nat): nat
    requires kl in st.orders && ks in st.orders
  {
    if st.orders[ks].owner == t then st.orders[kl].owner else st.orders[ks].owner
  }

  lemma ExitingIff(st: State, kl: Key, ks: Key, pk: Key, t: nat, settle: bool, now: nat)
    requires Fit(st)
    ensures CanSubstitute(st, kl, ks, pk, t, settle, now) ==> Exiting(st, kl, ks, pk, t, now)
    ensures Exiting(st, kl, ks, pk, t, now) ==>
      && kl != ks && OrderOk(st, kl, st.orders[kl]) && OrderOk(st, ks, st.orders[ks])
      && st.positions[pk].size < U128 && st.positions[pk].collateral == st.markets[kl.0].bucket
      && st.positions[pk].longOwner in st.accounts && st.positions[pk].shortOwner in st.accounts
      && var premium := Owed(st, kl, ks, pk, t, settle);
      (CanSubstitute(st, kl, ks, pk, t, settle, now) <==>
        && premium.Ok? && -(st.positions[pk].collateral as int) <= premium.value <= st.positions[pk].collateral
        && Affords(st, SwapOf(st, kl, ks, t), st.positions[pk].collateral, premium.value))
  {
    MeetingIff(st, kl, ks, now);
    assert pk in st.positions ==> PositionOk(st, pk, st.positions[pk]);
    hide Fit, Crossing, Meeting, Affords, OrderOk;
    if CanSubstitute(st, kl, ks, pk, t, settle, now) || Exiting(st, kl, ks, pk, t, now) {
      BothIntents(st, kl, ks);
      OwedIs(st, kl, ks, pk, t, settle);
      hide PriceMidpoint, Premium, Owed;
    }
  }

  lemma BothIntents(st: State, kl: Key, ks: Key)
    requires kl in st.orders && ks in st.orders && OrderOk(st, kl, st.orders[kl]) && OrderOk(st, ks, st.orders[ks])
    ensures st.orders[kl].data.Intent? && st.orders[ks].data.Intent?
    ensures st.orders[kl].owner in st.accounts && st.orders[ks].owner in st.accounts
  {
  }

  lemma AffordsIff(st: State, kl: Key, ks: Key, pk: Key, t: nat, now: nat, premium: int)
    requires Exiting(st, kl, ks, pk, t, now) && st.orders[kl].owner in st.accounts && st.orders[ks].owner in st.accounts
    requires OrderOk(st, kl, st.orders[kl]) && OrderOk(st, ks, st.orders[ks])
    requires st.accounts[t].free >= 0
    ensures Affords(st, SwapOf(st, kl, ks, t), st.positions[pk].collateral, premium) <==>
      var n := Newcomer(st, kl, ks, t);
      var coming := if st.orders[ks].owner == t then st.orders[kl] else st.orders[ks];
      n == t || premium <= st.accounts[n].free + Share1(coming)
  {
    ConsumedIs(st, kl);
    ConsumedIs(st, ks);
    hide Consumed, Less1, Meeting;
  }

  lemma FreeCounts(st: State, t: nat)
    requires Inv(st) && t in st.accounts
    ensures st.accounts[t].free >= 0 && Fit(st)
  {
    assert Level(st, t);
  }

  /** A substitution goes through exactly when t can exit, what it is owed is within one stake either way, and
      the newcomer has the means for it. */
  lemma SubstituteIff(st: State, kl: Key, ks: Key, pk: Key, t: nat, settle: bool, now: nat)
    requires Inv(st)
    ensures Enabled(st, Substitute(kl, ks, pk, t, settle, now)) <==>
      && Exiting(st, kl, ks, pk, t, now) && st.positions[pk].size < U128
      && var (premium, c, n) := (Owed(st, kl, ks, pk, t, settle), st.positions[pk].collateral, Newcomer(st, kl, ks, t));
      && premium.Ok? && -(c as int) <= premium.value <= c && n in st.accounts
      && (n == t || premium.value <=
            st.accounts[n].free + Share1(if st.orders[ks].owner == t then st.orders[kl] else st.orders[ks]))
  {
    InvFits(st);
    hide Inv, Fit, CanSubstitute, Owed, Share1, Affords, OrderOk;
    ExitingIff(st, kl, ks, pk, t, settle, now);
    if Exiting(st, kl, ks, pk, t, now) && Owed(st, kl, ks, pk, t, settle).Ok? {
      BothIntents(st, kl, ks);
      FreeCounts(st, t);
      AffordsIff(st, kl, ks, pk, t, now, Owed(st, kl, ks, pk, t, settle).value);
    }
  }

  /** What a substitution leaves: each order gives one contract; the leaver gets its contract's bucket back, its
      stake, and what it is owed; the newcomer's bucket locks in its place and it pays; and the side of the
      position that t owned is the newcomer's. */
  function Passed(st: State, kl: Key, ks: Key, pk: Key, t: nat, premium: int): State
    requires kl in st.orders && ks in st.orders && pk in st.positions
    requires t in st.accounts && Newcomer(st, kl, ks, t) in st.accounts
  {
    var (p, c, n) := (st.positions[pk], st.positions[pk].collateral as int, Newcomer(st, kl, ks, t));
    var long := st.orders[ks].owner == t;
    var (out, coming) := if long then (st.orders[ks], st.orders[kl]) else (st.orders[kl], st.orders[ks]);
    st.(accounts := Moved(Moved(st.accounts, t, Share1(out) + 2 * c + premium, 0 - c - Share1(out), 0 - c),
                          n, Share1(coming) - premium, 0 - c - Share1(coming), c),
        orders := Less1(Less1(st.orders, kl, c), ks, c),
        positions := st.positions[pk := if long then p.(longOwner := n) else p.(shortOwner := n)])
  }

  lemma SubstituteLeaves(st: State, kl: Key, ks: Key, pk: Key, t: nat, settle: bool, now: nat)
    requires Fit(st) && Enabled(st, Substitute(kl, ks, pk, t, settle, now))
    ensures Exiting(st, kl, ks, pk, t, now) && st.positions[pk].size < U128
    ensures Owed(st, kl, ks, pk, t, settle).Ok? && t in st.accounts && Newcomer(st, kl, ks, t) in st.accounts
    ensures Step(st, Substitute(kl, ks, pk, t, settle, now))
         == Passed(st, kl, ks, pk, t, Owed(st, kl, ks, pk, t, settle).value)
  {
    hide Fit, CanSubstitute, Owed, Substituted, PremiumPaid, Swappable, Passed, Newcomer, SwapOf;
    PaidIsOwed(st, kl, ks, pk, t, settle, now);
    SwapPasses(st, kl, ks, pk, t, Owed(st, kl, ks, pk, t, settle).value);
  }

  lemma PaidIsOwed(st: State, kl: Key, ks: Key, pk: Key, t: nat, settle: bool, now: nat)
    requires Fit(st) && CanSubstitute(st, kl, ks, pk, t, settle, now)
    ensures Exiting(st, kl, ks, pk, t, now) && st.positions[pk].size < U128
    ensures Owed(st, kl, ks, pk, t, settle) == Ok(PremiumPaid(st, kl, ks, pk, t, settle, now))
    ensures Swappable(st, SwapOf(st, kl, ks, t), pk) && kl.0 == ks.0 == pk.0
    ensures st.positions[pk].collateral == st.markets[pk.0].bucket
    ensures (st.orders[kl].owner == t || st.orders[ks].owner == t) && t in st.accounts
    ensures Newcomer(st, kl, ks, t) in st.accounts
  {
    ExitingIff(st, kl, ks, pk, t, settle, now);
    BothIntents(st, kl, ks);
    OwedIs(st, kl, ks, pk, t, settle);
    SubstituteFair(st, kl, ks, pk, t, settle, now);
    hide Fit, Owed, Affords, OrderOk, Premium, PriceMidpoint, Crossing, Meeting;
  }

  lemma SwapPasses(st: State, kl: Key, ks: Key, pk: Key, t: nat, premium: int)
    requires kl in st.orders && ks in st.orders && (st.orders[kl].owner == t || st.orders[ks].owner == t)
    requires Swappable(st, SwapOf(st, kl, ks, t), pk) && kl.0 == ks.0 == pk.0
    requires st.positions[pk].collateral == st.markets[pk.0].bucket
    ensures Newcomer(st, kl, ks, t) in st.accounts && t in st.accounts
    ensures Substituted(st, SwapOf(st, kl, ks, t), pk, premium) == Passed(st, kl, ks, pk, t, premium)
  {
    hide OrderOk, Consumed2, Less1, Share1, Substituted, Moved;
    BothIntents(st, kl, ks);
    Consumed2Is(st, kl, ks);
    Substituting.EitherOrder(st, kl, ks);
    var (bid, ask, c) := (st.orders[kl], st.orders[ks], st.positions[pk].collateral as int);
    var swap := SwapOf(st, kl, ks, t);
    SwapParts(st, swap, pk, premium);
    if bid.owner == ask.owner {
      EitherWay(st.accounts, t, c, Share1(bid), Share1(ask), premium);
    }
  }

  /** A trader on both sides ends with the same, whichever of its orders leaves. */
  lemma EitherWay(a: map<nat, Balance>, t: nat, c: int, one: int, two: int, premium: int)
    requires t in a
    ensures Moved(Moved(a, t, one + 2 * c + premium, 0 - c - one, 0 - c), t, two - premium, 0 - c - two, c)
         == Moved(Moved(a, t, two + 2 * c + premium, 0 - c - two, 0 - c), t, one - premium, 0 - c - one, c)
  {
  }

  lemma SwapParts(st: State, swap: Swap, pk: Key, premium: int)
    requires Swappable(st, swap, pk) && swap.leaving.0 == swap.coming.0 == pk.0
    requires st.positions[pk].collateral == st.markets[pk.0].bucket
    ensures var (x, n, c) := (st.orders[swap.leaving], st.orders[swap.coming], st.positions[pk].collateral as int);
      && x.owner in st.accounts && n.owner in st.accounts
      && Substituted(st, swap, pk, premium) == st.(
        accounts := Moved(Moved(st.accounts, x.owner, Share1(x) + 2 * c + premium, 0 - c - Share1(x), 0 - c),
                          n.owner, Share1(n) - premium, 0 - c - Share1(n), c),
        orders := Consumed2(st, swap.leaving, swap.coming).orders,
        positions := st.positions[pk := WithOwner(st.positions[pk], swap.long, n.owner)])
  {
    BothIntents(st, swap.leaving, swap.coming);
    ConsumedIs(st, swap.leaving);
    ConsumedIs(st, swap.coming);
    Consumed2Is(st, swap.leaving, swap.coming);
    hide OrderOk, Consumed, Consumed2, Less1, ReleaseOfOne, Share1, Exchanged;
    ExchangeIs(Consumed2(st, swap.leaving, swap.coming), LeaverDelta(st, swap, pk, premium),
               ComerDelta(st, swap, pk, premium), pk,
               WithOwner(st.positions[pk], swap.long, st.orders[swap.coming].owner), 0);
  }

  /** So between two traders the one who leaves asks for the long side, or bids for the short one, and the one who
      comes in does the opposite; and the entry lies between their limits. */
  lemma SidesOfSwap(st: State, kl: Key, ks: Key, pk: Key, t: nat, settle: bool, now: nat)
    requires Fit(st) && Enabled(st, Substitute(kl, ks, pk, t, settle, now))
    requires kl in st.orders && ks in st.orders && st.orders[kl].owner != st.orders[ks].owner
    ensures var (p, bid, ask) := (st.positions[pk], st.orders[kl], st.orders[ks]);
      && bid.data.Intent? && ask.data.Intent? && bid.data.side == Long && ask.data.side == Short
      && ask.data.price <= p.entry <= bid.data.price
      && pk in Step(st, Substitute(kl, ks, pk, t, settle, now)).positions
      && var p' := Step(st, Substitute(kl, ks, pk, t, settle, now)).positions[pk];
      && (p'.longOwner != p.longOwner || p'.shortOwner != p.shortOwner)
      && (p'.longOwner != p.longOwner ==>
        p.longOwner == t == ask.owner && p'.longOwner == bid.owner && p'.shortOwner == p.shortOwner)
      && (p'.shortOwner != p.shortOwner ==>
        p.shortOwner == t == bid.owner && p'.shortOwner == ask.owner && p'.longOwner == p.longOwner)
  {
    hide Fit, Enabled, Step, Owed, Share1, Less1, Moved;
    SubstituteLeaves(st, kl, ks, pk, t, settle, now);
  }

  // ----- where a position's terms come from ---------------------------------------------------------------------

  /** Step j of a run is the match that opens position pk. */
  ghost predicate OpenedAt(ops: seq<Op>, j: nat, pk: Key) {
    && j < |ops| && ops[j].Match? && Enabled(Before(ops, j), ops[j])
    && pk.0 == ops[j].kl.0 && pk.0 in Before(ops, j).nextIds && pk.1 == Before(ops, j).nextIds[pk.0]
    && ops[j].kl in Before(ops, j).orders && ops[j].ks in Before(ops, j).orders
    && Before(ops, j).orders[ops[j].kl].data.Intent? && Before(ops, j).orders[ops[j].ks].data.Intent?
  }

  /** A position remembers the limits of the two orders it was opened from, and has no wish for re-entry that they
      had not. */
  ghost predicate Recalls(p: Position, bid: Order, ask: Order)
    requires bid.data.Intent? && ask.data.Intent?
  {
    && p.longPrice == bid.data.price && p.shortPrice == ask.data.price
    && p.entry == (bid.data.price + ask.data.price) / 2
    && (p.longReentry ==> bid.data.reentry) && (p.shortReentry ==> ask.data.reentry)
  }

  /** Match j of a run opened the position that is there at i, which remembers it. */
  ghost predicate Tells(ops: seq<Op>, i: nat, j: nat, pk: Key) {
    && j < i <= |ops| && OpenedAt(ops, j, pk) && pk in Before(ops, i).positions
    && Recalls(Before(ops, i).positions[pk], Before(ops, j).orders[ops[j].kl], Before(ops, j).orders[ops[j].ks])
  }

  lemma OpensTraced(ops: seq<Op>, i: nat, pk: Key)
    requires i < |ops| && pk in Before(ops, i + 1).positions && pk !in Before(ops, i).positions
    ensures Tells(ops, i + 1, i, pk)
  {
    EveryStateFits(ops, i);
    StepOf(ops, i);
    var (st, op) := (Before(ops, i), ops[i]);
    hide Fit, Before, Step, Enabled, Onward, Recalls;
    StepOnward(st, op);
    OnwardIs(st, op);
    if Enabled(st, op) {
      OpensFromOrders(st, op, pk);
    } else {
      RolledBack(st, op);
    }
  }

  lemma OpensFromOrders(st: State, op: Op, pk: Key)
    requires Fit(st) && op.Match? && Enabled(st, op) && pk !in st.positions && pk in Step(st, op).positions
    ensures op.kl in st.orders && op.ks in st.orders && op.kl.0 in st.nextIds && pk == (op.kl.0, st.nextIds[op.kl.0])
    ensures st.orders[op.kl].data.Intent? && st.orders[op.ks].data.Intent?
    ensures Recalls(Step(st, op).positions[pk], st.orders[op.kl], st.orders[op.ks])
  {
    hide Fit, SizeOf, Step, Enabled, Less1, Moved, Share1, Means;
    MatchRule(st, op.kl, op.ks, op.fee, op.now);
  }

  /** Every position of every run goes back to one match, and remembers it. */
  lemma {:induction false} EveryPositionTraced(ops: seq<Op>, i: nat, pk: Key)
    requires i <= |ops| && pk in Before(ops, i).positions
    ensures exists j: nat :: Tells(ops, i, j, pk)
  {
    hide Before, Fit, Step, Tells;
    if i == 0 {
      BeforeFirst(ops);
      assert false;
    } else if pk !in Before(ops, i - 1).positions {
      OpensTraced(ops, i - 1, pk);
    } else {
      EveryPositionTraced(ops, i - 1, pk);
      var j: nat :| Tells(ops, i - 1, j, pk);
      StillTells(ops, i - 1, j, pk);
    }
  }

  lemma StillTells(ops: seq<Op>, i: nat, j: nat, pk: Key)
    requires Tells(ops, i, j, pk) && i < |ops| && pk in Before(ops, i + 1).positions
    ensures Tells(ops, i + 1, j, pk)
  {
    hide Before, Fit, OpenedAt, Recalls;
    EveryStateFits(ops, i);
    Chains.PositionIssued(Before(ops, i), pk);
    RunAdvances(ops, i, i + 1);
    KeptTells(ops, i, j, pk);
  }

  lemma KeptTells(ops: seq<Op>, i: nat, j: nat, pk: Key)
    requires Tells(ops, i, j, pk) && i < |ops| && pk in Before(ops, i + 1).positions
    requires Evolves(Before(ops, i).positions[pk], Before(ops, i + 1).positions[pk])
    ensures Tells(ops, i + 1, j, pk)
  {
    StillRecalls(Before(ops, i).positions[pk], Before(ops, i + 1).positions[pk], Before(ops, j).orders[ops[j].kl],
                 Before(ops, j).orders[ops[j].ks]);
    hide Before, Recalls;
  }

  lemma StillRecalls(p: Position, p': Position, bid: Order, ask: Order)
    requires bid.data.Intent? && ask.data.Intent? && Recalls(p, bid, ask) && Evolves(p, p')
    ensures Recalls(p', bid, ask)
  {
  }

  // ----- re-entry ---------------------------------------------------------------------------------------------

  /** What n contracts hold of collateral and of fee buffer. */
  function Holds(n: nat, bucket: nat, feeBps: nat): nat { n * bucket + n * bucket * feeBps / 10_000 }

  /** A claim goes through exactly for a closed position whose side still wishes it, at a remembered limit on the
      tick, with an expiration ahead, for the most contracts, up to 65535, that the owner's free balance covers;
      to post any it needs a slot and an id. */
  lemma ClaimIff(st: State, op: Op)
    requires Fit(st) && op.Claim?
    ensures Enabled(st, op) <==>
      && op.pk in st.positions && st.positions[op.pk].status != LIVE && op.expiration > op.now && op.pk.0 in st.markets
      && var (p, m) := (st.positions[op.pk], st.markets[op.pk.0]);
      var (owner, limit, wish) := if op.long then (p.longOwner, p.longPrice, p.longReentry)
                                  else (p.shortOwner, p.shortPrice, p.shortReentry);
      && wish && 0 < limit < 1_000_000_000_000_000_000 && limit % m.tick == 0 && owner in st.accounts
      && op.contracts <= 65_535 && Holds(op.contracts, m.bucket, op.feeBps) <= st.accounts[owner].free
      && (forall k: nat :: op.contracts < k <= 65_535 ==> Holds(k, m.bucket, op.feeBps) > st.accounts[owner].free)
      && (op.contracts > 0 ==>
        && (op.pk.0, op.slot) !in st.orders && op.pk.0 in st.nextIds && st.nextIds[op.pk.0] + 1 < TWO_64)
  {
    if op.pk.0 in st.markets { MarketHasTick(st, op.pk.0); }
    hide Fit;
    assert forall k: nat, bucket: nat, feeBps: nat {:trigger Holds(k, bucket, feeBps)} ::
      Holds(k, bucket, feeBps) == Cost(k, bucket, feeBps);
    assert forall k: nat, bucket: nat, feeBps: nat {:trigger Cost(k, bucket, feeBps)} ::
      Holds(k, bucket, feeBps) == Cost(k, bucket, feeBps);
    hide Holds, Cost;
  }

  lemma MarketHasTick(st: State, m: nat)
    requires Fit(st) && m in st.markets
    ensures st.markets[m].tick > 0
  {
  }

  /** A claim that posts adds exactly one order: the owner's, on the claimed side, at the remembered limit, for
      those contracts, all unfilled, with the expiration given and the wish kept up. It holds their collateral and
      fee buffer, and the position loses the one flag. */
  lemma ClaimLeaves(st: State, op: Op)
    requires Fit(st) && op.Claim? && Enabled(st, op)
    ensures op.pk in st.positions && op.pk.0 in st.markets && op.pk.0 in st.nextIds
    ensures var (p, m, n) := (st.positions[op.pk], st.markets[op.pk.0], op.contracts);
      var (owner, limit) := if op.long then (p.longOwner, p.longPrice) else (p.shortOwner, p.shortPrice);
      var (collateral, buffer) := (n * m.bucket, n * m.bucket * op.feeBps / 10_000);
      var order := Order(owner, Intent(if op.long then Long else Short, limit, st.nextIds[op.pk.0], op.seat, n, n,
                                       op.expiration, op.postSeq, collateral, buffer, true));
      && owner in st.accounts
      && Step(st, op) == st.(
        accounts := if n == 0 then st.accounts
                    else Moved(st.accounts, owner, 0 - collateral - buffer, collateral + buffer, 0),
        orders := if n == 0 then st.orders else st.orders[(op.pk.0, op.slot) := order],
        nextIds := if n == 0 then st.nextIds else st.nextIds[op.pk.0 := st.nextIds[op.pk.0] + 1],
        positions := st.positions[op.pk := if op.long then p.(longReentry := false) else p.(shortReentry := false)])
  {
    assert PositionOk(st, op.pk, st.positions[op.pk]);
    var id := NextId(st, op.pk.0);
    var o := ReentryOrder(st, op.pk, op.long, op.contracts, op.feeBps, op.expiration, id, op.seat, op.postSeq);
    hide Fit, CanPlace, PlacedOrder, IsLargestAffordable, ValidatePriceTicked;
    if op.contracts > 0 {
      ClaimMeans(st, op);
      PlacesIff(st, (op.pk.0, op.slot), o);
    }
  }

  lemma ClaimMeans(st: State, op: Op)
    requires op.Claim? && Enabled(st, op)
    ensures Cost(op.contracts, st.markets[op.pk.0].bucket, op.feeBps)
         <= st.accounts[OwnerOf(st.positions[op.pk], op.long)].free
  {
  }

  /** On the orders before and after. */
  lemma ClaimAdds(st: State, op: Op)
    requires Fit(st) && op.Claim? && op.contracts > 0 && Enabled(st, op)
    ensures op.pk in st.positions
    ensures var (p, slot, st') := (st.positions[op.pk], (op.pk.0, op.slot), Step(st, op));
      && slot !in st.orders && slot in st'.orders && st'.orders - {slot} == st.orders
      && var o := st'.orders[slot];
      && o.owner == (if op.long then p.longOwner else p.shortOwner) && o.data.Intent?
      && o.data.side == (if op.long then Long else Short)
      && o.data.price == (if op.long then p.longPrice else p.shortPrice)
      && o.data.total == o.data.remaining == op.contracts && o.data.expiration == op.expiration && o.data.reentry
      && (if op.long then p.longReentry else p.shortReentry)
  {
    hide Fit, Step, Enabled, Holds, Moved;
    ClaimIff(st, op);
    ClaimLeaves(st, op);
  }

  /** In any run, a claim that posts adds exactly one order, and its limit is the one that side's own order had
      when the position was opened, which wished for re-entry. */
  lemma ClaimRecallsMatch(ops: seq<Op>, i: nat)
    requires i < |ops| && ops[i].Claim? && ops[i].contracts > 0 && Enabled(Before(ops, i), ops[i])
    ensures var (st, st', op) := (Before(ops, i), Before(ops, i + 1), ops[i]);
      var slot := (op.pk.0, op.slot);
      && op.pk in st.positions && slot !in st.orders && slot in st'.orders && st'.orders - {slot} == st.orders
      && st'.orders[slot].owner == (if op.long then st.positions[op.pk].longOwner else st.positions[op.pk].shortOwner)
      && st'.orders[slot].data.Intent?
      && var d := st'.orders[slot].data;
      && d.side == (if op.long then Long else Short) && d.total == d.remaining == op.contracts
      && d.expiration == op.expiration && d.reentry
      && exists j: nat :: OpenedOn(ops, j, op.pk, op.long, d.price) && j < i
  {
    EveryStateFits(ops, i);
    StepOf(ops, i);
    hide Before, Fit, Step, Enabled, Tells, OpenedOn;
    ClaimAdds(Before(ops, i), ops[i]);
    EveryPositionTraced(ops, i, ops[i].pk);
    var j: nat :| Tells(ops, i, j, ops[i].pk);
    TellsSide(ops, i, j, ops[i].pk, ops[i].long);
  }

  /** Match j opened position pk with an order on the side asked for, at the limit, that wished for re-entry. */
  ghost predicate OpenedOn(ops: seq<Op>, j: nat, pk: Key, long: bool, limit: nat) {
    && OpenedAt(ops, j, pk)
    && var d := Before(ops, j).orders[if long then ops[j].kl else ops[j].ks].data;
       d.Intent? && d.side == (if long then Long else Short) && d.price == limit && d.reentry
  }

  lemma TellsSide(ops: seq<Op>, i: nat, j: nat, pk: Key, long: bool)
    requires Tells(ops, i, j, pk)
    requires var p := Before(ops, i).positions[pk]; if long then p.longReentry else p.shortReentry
    ensures j < i
    ensures var p := Before(ops, i).positions[pk];
      OpenedOn(ops, j, pk, long, if long then p.longPrice else p.shortPrice)
  {
    EveryStateFits(ops, j);
    hide Before, Fit, Enabled;
    MatchSides(Before(ops, j), ops[j]);
  }

  lemma MatchSides(st: State, op: Op)
    requires Fit(st) && op.Match? && Enabled(st, op)
    ensures op.kl in st.orders && op.ks in st.orders
    ensures st.orders[op.kl].data.Intent? && st.orders[op.ks].data.Intent?
    ensures st.orders[op.kl].data.side == Long && st.orders[op.ks].data.side == Short
  {
    hide Fit, SizeOf, Step, Less1, Moved, Share1, Means;
    MatchRule(st, op.kl, op.ks, op.fee, op.now);
  }
}
