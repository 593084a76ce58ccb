/** The other instructions in plain arithmetic: when each goes through and the whole state it leaves, said of
    orders, positions and accounts alone. */
module Rules {
  import opened Nodes
  import opened FixedPoint
  import opened Ledger
  import opened Operations
  import opened Trades
  import opened Settlements
  import opened Handovers
  import opened Reentry
  import opened Runs
  import Exchange

  const TWO_64: nat := 0x1_0000_0000_0000_0000

  /** An account's balances changed by these amounts. */
  function Moved(a: map<nat, Balance>, t: nat, free: int, reserved: int, locked: int): map<nat, Balance>
    requires t in a
  {
    a[t := Balance(a[t].free + free, a[t].reserved + reserved, a[t].locked + locked)]
  }

  // ----- money ----------------------------------------------------------------------------------------------

  /** Deposits are of something, and of no more than the vault can take; */
  lemma DepositRule(st: State, t: nat, amount: nat)
    ensures Enabled(st, Deposit(t, amount)) <==> t in st.accounts && amount > 0 && st.vault + amount < TWO_64
    ensures Enabled(st, Deposit(t, amount)) ==>
      Step(st, Deposit(t, amount)) == st.(accounts := Moved(st.accounts, t, amount, 0, 0), vault := st.vault + amount)
  {
  }

  /** withdrawals, of no more than is free; */
  lemma WithdrawRule(st: State, t: nat, amount: nat)
    requires Inv(st)
    ensures Enabled(st, Withdraw(t, amount)) <==> t in st.accounts && 0 < amount <= st.accounts[t].free
    ensures Enabled(st, Withdraw(t, amount)) ==>
      Step(st, Withdraw(t, amount))
      == st.(accounts := Moved(st.accounts, t, 0 - amount, 0, 0), vault := st.vault - amount)
  {
    Exchange.VaultCoversTreasury(st);
    TreasuryCounts(st);
    if t in st.accounts {
      AccountsFit(st, t, t);
      AccountNonNegative(st, t);
    }
    hide Inv;
  }

  lemma TreasuryCounts(st: State)
    requires Inv(st)
    ensures st.treasury >= 0
  {
  }

  /** and sweeps, of no more than the treasury. */
  lemma SweepRule(st: State, amount: nat)
    requires Inv(st)
    ensures Enabled(st, Sweep(amount)) <==> 0 < amount <= st.treasury && st.swept + amount < TWO_64
    ensures Enabled(st, Sweep(amount)) ==>
      Step(st, Sweep(amount))
      == st.(treasury := st.treasury - amount, swept := st.swept + amount, vault := st.vault - amount)
  {
    Exchange.VaultCoversTreasury(st);
    hide Inv;
  }

  /** An instrument is listed once, with a window, a bucket, a tick, and one of eight leverages. */
  lemma ListRule(st: State, m: nat, market: Market)
    ensures Enabled(st, List(m, market)) <==>
      && m !in st.markets && market.twapWindow >= 1 && 1 <= market.bucket < TWO_64 && market.tick >= 1
      && market.leverageBps in {2 * 10_000, 5 * 10_000, 10 * 10_000, 20 * 10_000, 40 * 10_000, 100 * 10_000,
                                250 * 10_000, 1_000 * 10_000}
    ensures Enabled(st, List(m, market)) ==>
      var st' := Step(st, List(m, market));
      && st' == st.(markets := st.markets[m := market], nextIds := st.nextIds[m := 1], nonces := st'.nonces)
      && st'.nonces.Keys == st.nonces.Keys + {market.marketId}
      && forall q :: q in st'.nonces ==> st'.nonces[q] == if q in st.nonces then st.nonces[q] else 0
  {
  }

  // ----- posts, cancels and prunes ----------------------------------------------------------------------------

  /** A price is refused exactly when it is outside (0, 10^18) or off the tick. */
  lemma PriceRule(market: Market, terms: Terms, feeBps: nat, now: nat)
    requires market.tick > 0 && !terms.side.Seats? && terms.contracts > 0
    ensures var quote := Quote(market, terms, feeBps, now);
      quote.Err? && (quote.error == InvalidPriceRange || quote.error == PriceNotTickAligned) <==>
        !(0 < terms.price < 1_000_000_000_000_000_000 && terms.price % market.tick == 0)
  {
  }

  /** A post is quoted exactly on a price on the tick, for some contracts on one side of the book, that has not
      expired, and whose collateral and fee buffer fit 64 bits; these are then what it is charged. */
  lemma QuoteRule(market: Market, terms: Terms, feeBps: nat, now: nat)
    requires market.tick > 0 && feeBps < 0x1_0000
    ensures var (collateral, buffer) := (terms.contracts * market.bucket,
                                         terms.contracts * market.bucket * feeBps / 10_000);
      && (Quote(market, terms, feeBps, now).Ok? <==>
        && (terms.side == Long || terms.side == Short) && terms.contracts > 0
        && 0 < terms.price < 1_000_000_000_000_000_000 && terms.price % market.tick == 0
        && terms.expiration > now && collateral + buffer < TWO_64)
      && (Quote(market, terms, feeBps, now).Ok? ==> Quote(market, terms, feeBps, now).value == (collateral, buffer))
  {
    if terms.contracts * market.bucket < U64 { Narrow(terms.contracts, market.bucket, feeBps); }
    hide Reserve;
    assert Reserve(terms.contracts, market.bucket, feeBps).Ok? ==> terms.contracts * market.bucket < U64 by {
      ReserveFits(terms.contracts, market.bucket, feeBps);
    }
  }

  lemma ReserveFits(contracts: nat, bucket: nat, feeBps: nat)
    ensures Reserve(contracts, bucket, feeBps).Ok? ==> contracts * bucket < U64
  {
  }

  /** What the listed orders of one trader hold. */
  function Freed(orders: map<Key, Order>, ks: seq<Key>, u: nat): int {
    if ks == [] then 0 else
      var k := ks[|ks| - 1];
      Freed(orders, ks[..|ks| - 1], u)
      + if k in orders && orders[k].owner == u && orders[k].data.Intent? then
          orders[k].data.reserved + orders[k].data.feeBuffer
        else 0
  }

  /** Each owner has free what its own of the listed orders held. */
  ghost predicate Refunded(st: State, st': State, ks: seq<Key>) {
    forall u :: u in st.accounts ==>
      var (b, freed) := (st.accounts[u], Freed(st.orders, ks, u));
      u in st'.accounts && st'.accounts[u] == Balance(b.free + freed, b.reserved - freed, b.locked)
  }

  /** Orders released together: each owner has free what its own held. */
  lemma {:induction false} ReleasesRule(st: State, ks: seq<Key>)
    requires Inv(st) && NoRepeats(ks) && Elements(ks) <= st.orders.Keys
    ensures var st' := ReleasedAll(st, ks);
      && st' == st.(accounts := st'.accounts, orders := st.orders - Elements(ks))
      && st'.accounts.Keys == st.accounts.Keys && Refunded(st, st', ks)
    decreases |ks|
  {
    hide Inv, Freed, Released, Refunded;
    ReleaseAllKeepsInv(st, ks);
    if ks == [] {
      NothingFreed(st);
    } else {
      var (rest, k) := (ks[..|ks| - 1], ks[|ks| - 1]);
      assert ks == rest + [k] && k in Elements(ks) && Elements(rest) <= Elements(ks);
      ReleasesRule(st, rest);
      OrderOf(st, k);
      OneMoreFreed(st, ks);
    }
  }

  lemma OrderOf(st: State, k: Key)
    requires Inv(st) && k in st.orders
    ensures OrderOk(st, k, st.orders[k])
  {
  }

  lemma NothingFreed(st: State)
    ensures Refunded(st, st, [])
  {
  }

  lemma OneMoreFreed(st: State, ks: seq<Key>)
    requires ks != [] && NoRepeats(ks) && Elements(ks) <= st.orders.Keys
    requires OrderOk(st, ks[|ks| - 1], st.orders[ks[|ks| - 1]])
    requires var st1 := ReleasedAll(st, ks[..|ks| - 1]);
      && st1.orders == st.orders - Elements(ks[..|ks| - 1]) && st1.accounts.Keys == st.accounts.Keys
      && Refunded(st, st1, ks[..|ks| - 1])
    ensures Refunded(st, ReleasedAll(st, ks), ks)
  {
    var (st1, k) := (ReleasedAll(st, ks[..|ks| - 1]), ks[|ks| - 1]);
    assert k in st1.orders && st1.orders[k] == st.orders[k];
    assert ReleasedAll(st, ks) == Released(st1, k);
    hide ReleasedAll;
  }

  /** A cancel goes through exactly for an order on the book, by its owner, or by anyone once it has expired; its
      owner gets back what it held. */
  lemma CancelRule(st: State, k: Key, caller: nat, now: nat)
    requires Inv(st)
    ensures Enabled(st, Cancel(k, caller, now)) <==>
      k in st.orders && st.orders[k].data.Intent?
      && (st.orders[k].owner == caller || st.orders[k].data.expiration <= now)
    ensures Enabled(st, Cancel(k, caller, now)) ==>
      var o := st.orders[k];
      var held := o.data.reserved + o.data.feeBuffer;
      && o.owner in st.accounts
      && Step(st, Cancel(k, caller, now))
         == st.(accounts := Moved(st.accounts, o.owner, held, 0 - held, 0), orders := st.orders - {k})
  {
    assert k in st.orders ==> OrderOk(st, k, st.orders[k]);
    hide Inv;
  }

  /** Anyone may prune exactly orders that have expired. */
  lemma PruneRule(st: State, ks: seq<Key>, now: nat)
    requires Inv(st)
    ensures Enabled(st, Prune(ks, now)) <==>
      && (forall i, j :: 0 <= i < j < |ks| ==> ks[i] != ks[j])
      && forall k :: k in ks ==> k in st.orders && st.orders[k].data.Intent? && st.orders[k].data.expiration <= now
    ensures Enabled(st, Prune(ks, now)) ==>
      var st' := Step(st, Prune(ks, now));
      && st' == st.(accounts := st'.accounts, orders := st.orders - Elements(ks))
      && st'.accounts.Keys == st.accounts.Keys && Refunded(st, st', ks)
  {
    assert forall k :: k in ks <==> k in Elements(ks);
    hide Inv, ReleasedAll, Refunded;
    if CanPrune(st, ks, now) { ReleasesRule(st, ks); }
  }

  lemma OthersFreeNothing(orders: map<Key, Order>, ks: seq<Key>, t: nat, u: nat)
    requires u != t && forall k :: k in ks ==> k in orders && orders[k].owner == t
    ensures Freed(orders, ks, u) == 0
  {
  }

  /** What a post asks of its poster: up to four of its own expired orders of the market given up, terms the
      instrument takes, and the means. */
  ghost predicate Postable(st: State, op: Op)
    requires op.Post?
  {
    && op.m in st.markets && op.m in st.nextIds && st.nextIds[op.m] + 1 < TWO_64 && op.t in st.accounts
    && |op.pruned| <= 4 && (forall i, j :: 0 <= i < j < |op.pruned| ==> op.pruned[i] != op.pruned[j])
    && (forall k :: k in op.pruned ==>
      && k in st.orders && k.0 == op.m && st.orders[k].owner == op.t
      && st.orders[k].data.Intent? && st.orders[k].data.expiration <= op.now)
    && ((op.m, op.slot) in st.orders ==> (op.m, op.slot) in op.pruned)
    && var (terms, market) := (op.terms, st.markets[op.m]);
       var (collateral, buffer) := (terms.contracts * market.bucket,
                                    terms.contracts * market.bucket * op.feeBps / 10_000);
       && (terms.side == Long || terms.side == Short) && terms.contracts > 0 && terms.expiration > op.now
       && market.tick > 0 && 0 < terms.price < 1_000_000_000_000_000_000 && terms.price % market.tick == 0
       && collateral + buffer < TWO_64
       && collateral + buffer <= st.accounts[op.t].free + Freed(st.orders, op.pruned, op.t)
  }

  lemma OneRefund(st: State, st': State, ks: seq<Key>, t: nat)
    requires Refunded(st, st', ks) && st'.accounts.Keys == st.accounts.Keys && t in st.accounts
    requires forall u :: u in st.accounts && u != t ==> Freed(st.orders, ks, u) == 0
    ensures st'.accounts == Moved(st.accounts, t, Freed(st.orders, ks, t), 0 - Freed(st.orders, ks, t), 0)
  {
    hide Freed;
  }

  lemma Pruning(st: State, ks: seq<Key>, t: nat)
    requires Inv(st) && t in st.accounts && NoRepeats(ks) && Elements(ks) <= st.orders.Keys
    requires forall k :: k in ks ==> k in st.orders && st.orders[k].owner == t
    ensures var freed := Freed(st.orders, ks, t);
      ReleasedAll(st, ks) == st.(accounts := Moved(st.accounts, t, freed, 0 - freed, 0),
                                 orders := st.orders - Elements(ks))
  {
    hide Inv, ReleasedAll, Freed, Refunded, Moved, NoRepeats, Elements;
    forall u | u in st.accounts && u != t
      ensures Freed(st.orders, ks, u) == 0
    {
      OthersFreeNothing(st.orders, ks, t, u);
    }
    ReleasesRule(st, ks);
    OneRefund(st, ReleasedAll(st, ks), ks, t);
  }

  /** The order it adds is the poster's, on its side, at its price, for its contracts, all of them unfilled, with
      the next id, its expiration and its wish for re-entry, and holds their collateral and fee buffer. */
  lemma PostRule(st: State, op: Op)
    requires Inv(st) && op.Post? && op.feeBps < 0x1_0000
    ensures Enabled(st, op) <==> Postable(st, op)
    ensures Enabled(st, op) ==>
      var (terms, market, freed) := (op.terms, st.markets[op.m], Freed(st.orders, op.pruned, op.t));
      var (collateral, buffer) := (terms.contracts * market.bucket,
                                   terms.contracts * market.bucket * op.feeBps / 10_000);
      var order := Order(op.t, Intent(terms.side, terms.price, st.nextIds[op.m], op.seat, terms.contracts,
                                      terms.contracts, terms.expiration, op.postSeq, collateral, buffer,
                                      terms.reentry));
      Step(st, op) == st.(
        accounts := Moved(st.accounts, op.t, freed - collateral - buffer, collateral + buffer - freed, 0),
        orders := (st.orders - Elements(op.pruned))[(op.m, op.slot) := order],
        nextIds := st.nextIds[op.m := st.nextIds[op.m] + 1])
  {
    hide Inv, ReleasedAll, Quote, Freed, CanPlace, PlacedOrder, Moved;
    PrunableIff(st, op.pruned, op.now);
    if op.m in st.markets && op.t in st.accounts && CanPrune(st, op.pruned, op.now)
       && forall k :: k in op.pruned ==> k in st.orders && k.0 == op.m && st.orders[k].owner == op.t {
      MarketTicks(st, op.m);
      Pruning(st, op.pruned, op.t);
      hide CanPrune, Elements;
      QuoteRule(st.markets[op.m], op.terms, op.feeBps, op.now);
      if Quote(st.markets[op.m], op.terms, op.feeBps, op.now).Ok? {
        PlacesPruned(st, ReleasedAll(st, op.pruned), op.pruned, Freed(st.orders, op.pruned, op.t), (op.m, op.slot),
                     PostOrder(st, op));
      }
    }
  }

  lemma PrunableIff(st: State, ks: seq<Key>, now: nat)
    ensures CanPrune(st, ks, now) <==>
      && (forall i, j :: 0 <= i < j < |ks| ==> ks[i] != ks[j])
      && forall k :: k in ks ==> k in st.orders && st.orders[k].data.Intent? && st.orders[k].data.expiration <= now
    ensures forall k :: k in Elements(ks) <==> k in ks
  {
  }

  lemma MarketTicks(st: State, m: nat)
    requires Inv(st) && m in st.markets
    ensures st.markets[m].tick > 0 && 0 < st.markets[m].bucket < U64 && m in st.nextIds
  {
  }

  /** An order of whole buckets can be placed exactly where there is none, with an id and the means. */
  lemma PlacesIff(st: State, k: Key, o: Order)
    requires o.owner in st.accounts && o.data.Intent? && k.0 in st.markets && o.data.remaining > 0
    requires o.data.reserved == o.data.remaining * st.markets[k.0].bucket
    ensures var held := o.data.reserved + o.data.feeBuffer;
      && (CanPlace(st, k, o) <==>
        && k.0 in st.nextIds && st.nextIds[k.0] + 1 < TWO_64 && k !in st.orders && held <= st.accounts[o.owner].free)
      && (CanPlace(st, k, o) ==>
        PlacedOrder(st, k, o) == st.(accounts := Moved(st.accounts, o.owner, 0 - held, held, 0),
                                     orders := st.orders[k := o], nextIds := st.nextIds[k.0 := st.nextIds[k.0] + 1]))
  {
  }

  /** The same once orders have been pruned that held `freed`. */
  lemma PlacesPruned(st: State, st1: State, ks: seq<Key>, freed: int, k: Key, o: Order)
    requires o.owner in st.accounts && o.data.Intent? && k.0 in st.markets && o.data.remaining > 0
    requires o.data.reserved == o.data.remaining * st.markets[k.0].bucket
    requires st1 == st.(accounts := Moved(st.accounts, o.owner, freed, 0 - freed, 0),
                        orders := st.orders - Elements(ks))
    ensures var held := o.data.reserved + o.data.feeBuffer;
      && (CanPlace(st1, k, o) <==>
        && k.0 in st.nextIds && st.nextIds[k.0] + 1 < TWO_64 && (k in st.orders ==> k in Elements(ks))
        && held <= st.accounts[o.owner].free + freed)
      && (CanPlace(st1, k, o) ==>
        PlacedOrder(st1, k, o) == st.(
          accounts := Moved(st.accounts, o.owner, freed - held, held - freed, 0),
          orders := (st.orders - Elements(ks))[k := o],
          nextIds := st.nextIds[k.0 := st.nextIds[k.0] + 1]))
  {
    hide CanPlace, PlacedOrder;
    PlacesIff(st1, k, o);
  }

  // ----- matches ----------------------------------------------------------------------------------------------

  /** One contract taken from order k. */
  function Less1(orders: map<Key, Order>, k: Key, bucket: nat): map<Key, Order> {
    if k !in orders || !orders[k].data.Intent? || orders[k].data.remaining <= 1 then orders - {k} else
      var d := orders[k].data;
      var share := d.feeBuffer / d.remaining;
      if d.reserved < bucket || share > d.feeBuffer then orders else
        orders[k := Order(orders[k].owner,
                          Intent(d.side, d.price, d.id, d.ownerSeat, d.total, d.remaining - 1, d.expiration, d.postSeq,
                                 d.reserved - bucket, d.feeBuffer - share, d.reentry))]
  }

  /** What one contract of an order frees of its fee buffer. */
  function Share1(o: Order): nat {
    if o.data.Intent? && o.data.remaining > 0 then o.data.feeBuffer / o.data.remaining else 0
  }

  lemma ConsumedIs(st: State, k: Key)
    requires k in st.orders && OrderOk(st, k, st.orders[k])
    ensures Consumed(st, k) == st.(orders := Less1(st.orders, k, st.markets[k.0].bucket))
    ensures ReleaseOfOne(st.orders[k].data) == Share1(st.orders[k])
  {
    ShareFits(st.orders[k].data, st.markets[k.0].bucket);
  }

  lemma Consumed2Is(st: State, k: Key, j: Key)
    requires k != j && k in st.orders && j in st.orders && OrderOk(st, k, st.orders[k]) && OrderOk(st, j, st.orders[j])
    requires k.0 == j.0
    ensures var c := st.markets[k.0].bucket;
      Consumed2(st, k, j) == st.(orders := Less1(Less1(st.orders, k, c), j, c))
  {
    ConsumedIs(st, k);
    ConsumedFrame(st, k);
    ConsumedIs(Consumed(st, k), j);
    hide Less1;
  }

  /** Two accounts moved and a position written. */
  lemma ExchangeIs(st: State, d: Delta, e: Delta, pk: Key, p: Position, fee: nat)
    requires d.owner in st.accounts && e.owner in st.accounts
    ensures Exchanged(st, d, e, pk, p, fee) == st.(
      accounts := Moved(Moved(st.accounts, d.owner, d.free, d.reserved, d.locked),
                        e.owner, e.free, e.reserved, e.locked),
      positions := st.positions[pk := p], treasury := st.treasury + fee)
  {
  }

  /** A bid and an ask of one book, neither expired, at prices that cross. */
  predicate Meeting(st: State, kl: Key, ks: Key, now: nat) {
    && kl.0 == ks.0 && kl in st.orders && ks in st.orders
    && st.orders[kl].data.Intent? && st.orders[ks].data.Intent?
    && st.orders[kl].data.side == Long && st.orders[ks].data.side == Short
    && st.orders[kl].data.expiration > now && st.orders[ks].data.expiration > now
    && st.orders[kl].data.price >= st.orders[ks].data.price
  }

  lemma MeetingIff(st: State, kl: Key, ks: Key, now: nat)
    requires Fit(st)
    ensures Crossing(st, kl, ks, now) <==> Meeting(st, kl, ks, now)
    ensures Crossing(st, kl, ks, now) ==>
      && kl != ks && OrderOk(st, kl, st.orders[kl]) && OrderOk(st, ks, st.orders[ks]) && kl.0 in st.nextIds
  {
    assert kl in st.orders ==> OrderOk(st, kl, st.orders[kl]);
    assert ks in st.orders ==> OrderOk(st, ks, st.orders[ks]);
    hide Fit;
  }

  /** What the taker, the one who posted later, can pay a fee from: its free balance and what the fill has freed
      of its fee buffers by then. */
  function Means(st: State, kl: Key, ks: Key): int
    requires kl in st.orders && ks in st.orders && st.orders[kl].data.Intent? && st.orders[ks].data.Intent?
    requires st.orders[kl].owner in st.accounts && st.orders[ks].owner in st.accounts
  {
    var (bid, ask) := (st.orders[kl], st.orders[ks]);
    if bid.data.postSeq > ask.data.postSeq then st.accounts[bid.owner].free + Share1(bid)
    else st.accounts[ask.owner].free + Share1(ask) + if bid.owner == ask.owner then Share1(bid) else 0
  }

  /** A match goes through exactly for a meeting bid and ask whose later poster has the means for the fee, while
      an id is left and the position can be sized. Each order gives one contract, its bucket goes from reserved
      to locked and its share of the fee buffer comes free; the later poster pays the fee; and the position
      opens between the two owners at the floor of the mean of the limits, remembering both limits and both
      wishes for re-entry. */
  lemma MatchRule(st: State, kl: Key, ks: Key, fee: nat, now: nat)
    requires Fit(st)
    ensures Enabled(st, Match(kl, ks, fee, now)) <==>
      && Meeting(st, kl, ks, now) && kl.0 in st.markets && kl.0 in st.nextIds && st.nextIds[kl.0] + 1 < TWO_64
      && SizeOf(st.markets[kl.0], (st.orders[kl].data.price + st.orders[ks].data.price) / 2).Ok?
      && st.orders[kl].owner in st.accounts && st.orders[ks].owner in st.accounts && fee <= Means(st, kl, ks)
    ensures Enabled(st, Match(kl, ks, fee, now)) ==>
      var (bid, ask, c, id) := (st.orders[kl], st.orders[ks], st.markets[kl.0].bucket, st.nextIds[kl.0]);
      var entry := (bid.data.price + ask.data.price) / 2;
      var bidPays := bid.data.postSeq > ask.data.postSeq;
      && Step(st, Match(kl, ks, fee, now)) == st.(
        accounts := Moved(Moved(st.accounts, bid.owner, Share1(bid) - (if bidPays then fee else 0),
                                0 - c - Share1(bid), c),
                          ask.owner, Share1(ask) - (if bidPays then 0 else fee), 0 - c - Share1(ask), c),
        orders := Less1(Less1(st.orders, kl, c), ks, c),
        positions := st.positions[(kl.0, id) :=
          Position(LIVE, bid.owner, ask.owner, c, entry, SizeOf(st.markets[kl.0], entry).value, bid.data.reentry,
                   ask.data.reentry, bid.data.price, ask.data.price)],
        nextIds := st.nextIds[kl.0 := id + 1], treasury := st.treasury + fee)
  {
    hide Fit, SizeOf, Crossing, Meeting, CanMatch, MatchedPair, Means, Less1, Share1, Moved;
    MatchIff(st, kl, ks, fee, now);
    if CanMatch(st, kl, ks, fee, now) { MatchLeaves(st, kl, ks, fee, now); }
  }

  lemma MatchIff(st: State, kl: Key, ks: Key, fee: nat, now: nat)
    requires Fit(st)
    ensures CanMatch(st, kl, ks, fee, now) <==>
      && Meeting(st, kl, ks, now) && kl.0 in st.markets && kl.0 in st.nextIds && st.nextIds[kl.0] + 1 < TWO_64
      && SizeOf(st.markets[kl.0], (st.orders[kl].data.price + st.orders[ks].data.price) / 2).Ok?
      && st.orders[kl].owner in st.accounts && st.orders[ks].owner in st.accounts && fee <= Means(st, kl, ks)
  {
    MeetingIff(st, kl, ks, now);
    if Meeting(st, kl, ks, now) {
      MidpointIsFloorMean(st.orders[kl].data.price, st.orders[ks].data.price);
      ConsumedIs(st, kl);
      ConsumedIs(st, ks);
    }
    hide Fit, SizeOf, PriceMidpoint, Consumed, ReleaseOfOne, Less1, Share1, Crossing, Meeting;
  }

  lemma MatchLeaves(st: State, kl: Key, ks: Key, fee: nat, now: nat)
    requires Fit(st) && CanMatch(st, kl, ks, fee, now)
    ensures var (bid, ask, c, id) := (st.orders[kl], st.orders[ks], st.markets[kl.0].bucket, st.nextIds[kl.0]);
      var entry := (bid.data.price + ask.data.price) / 2;
      var bidPays := bid.data.postSeq > ask.data.postSeq;
      && SizeOf(st.markets[kl.0], entry).Ok?
      && MatchedPair(st, kl, ks, fee, now) == st.(
        accounts := Moved(Moved(st.accounts, bid.owner, Share1(bid) - (if bidPays then fee else 0),
                                0 - c - Share1(bid), c),
                          ask.owner, Share1(ask) - (if bidPays then 0 else fee), 0 - c - Share1(ask), c),
        orders := Less1(Less1(st.orders, kl, c), ks, c),
        positions := st.positions[(kl.0, id) :=
          Position(LIVE, bid.owner, ask.owner, c, entry, SizeOf(st.markets[kl.0], entry).value, bid.data.reentry,
                   ask.data.reentry, bid.data.price, ask.data.price)],
        nextIds := st.nextIds[kl.0 := id + 1], treasury := st.treasury + fee)
  {
    MeetingIff(st, kl, ks, now);
    var entry := PriceMidpoint(st.orders[kl].data.price, st.orders[ks].data.price);
    MidpointIsFloorMean(st.orders[kl].data.price, st.orders[ks].data.price);
    ConsumedIs(st, kl);
    ConsumedIs(st, ks);
    Consumed2Is(st, kl, ks);
    hide Fit, SizeOf, PriceMidpoint, Consumed2, Consumed, ReleaseOfOne, Less1, Share1, Crossing, Meeting, Exchanged,
      Moved;
    ExchangeIs(Consumed2(st, kl, ks), LongDelta(st, kl, ks, fee), ShortDelta(st, kl, ks, fee),
               (kl.0, st.nextIds[kl.0]), Contract(st, kl, ks, SizeOf(st.markets[kl.0], entry).value), fee);
  }

  /** Both fills moved: the first, or both, of the accounts of a bid and an ask. */
  function Staking(st: State, kl: Key, ks: Key, both: bool, bidFee: nat, askFee: nat): map<nat, Balance>
    requires kl in st.orders && ks in st.orders && kl.0 in st.markets
    requires st.orders[kl].owner in st.accounts && st.orders[ks].owner in st.accounts
  {
    var (bid, ask, c) := (st.orders[kl], st.orders[ks], st.markets[kl.0].bucket);
    var one := Moved(st.accounts, bid.owner, Share1(bid) - bidFee, 0 - c - Share1(bid), c);
    if both then Moved(one, ask.owner, Share1(ask) - askFee, 0 - c - Share1(ask), c) else one
  }

  /** What a match of a meeting pair leaves when its failure is swallowed. The two contracts are gone in any case;
      without another id nothing else has happened; the id is used before anything else is checked; a fee beyond
      the taker's means is in the treasury, if it fits there, with the accounts moved that come before the
      taker's debit; and a position that cannot be sized leaves everything but itself. */
  lemma EndingRule(st: State, kl: Key, ks: Key, fee: nat, served: bool, now: nat)
    requires Fit(st) && Crossing(st, kl, ks, now)
    ensures Meeting(st, kl, ks, now) && kl.0 in st.markets && kl.0 in st.nextIds
    ensures st.orders[kl].owner in st.accounts && st.orders[ks].owner in st.accounts
    ensures var (bid, ask, c, id) := (st.orders[kl], st.orders[ks], st.markets[kl.0].bucket, st.nextIds[kl.0]);
      var drawn := st.(orders := Less1(Less1(st.orders, kl, c), ks, c));
      var named := drawn.(nextIds := st.nextIds[kl.0 := id + 1]);
      var bidPays := bid.data.postSeq > ask.data.postSeq;
      && (id + 1 >= TWO_64 ==> LeftAfter(st, kl, ks, fee, served, now) == drawn)
      && (id + 1 < TWO_64 && !served ==> LeftAfter(st, kl, ks, fee, served, now) == named)
      && (id + 1 < TWO_64 && served && fee > Means(st, kl, ks) ==>
        LeftAfter(st, kl, ks, fee, served, now) ==
          if st.treasury + fee >= TWO_64 then named
          else named.(accounts := Staking(st, kl, ks, !bidPays, 0, 0), treasury := st.treasury + fee))
  {
    MeetingIff(st, kl, ks, now);
    assert kl.0 in st.markets;
    EndingParts(st, kl, ks, fee);
    MatchMeans(st, kl, ks);
    hide Fit, SizeOf, Crossing, Meeting, MatchedPair, Means, Less1, Share1, Moved, Gone, Unpaid, Unopened, Purse,
      Consumed2;
  }

  lemma MatchMeans(st: State, kl: Key, ks: Key)
    requires kl in st.orders && ks in st.orders && OrderOk(st, kl, st.orders[kl]) && OrderOk(st, ks, st.orders[ks])
    ensures st.orders[kl].owner in st.accounts && st.orders[ks].owner in st.accounts
    ensures st.orders[kl].data.Intent? && st.orders[ks].data.Intent?
    ensures Purse(st, kl, ks) == Means(st, kl, ks)
  {
    ConsumedIs(st, kl);
    ConsumedIs(st, ks);
  }

  lemma EndingParts(st: State, kl: Key, ks: Key, fee: nat)
    requires kl != ks && kl.0 == ks.0 && kl in st.orders && ks in st.orders && kl.0 in st.nextIds
    requires OrderOk(st, kl, st.orders[kl]) && OrderOk(st, ks, st.orders[ks])
    ensures st.orders[kl].owner in st.accounts && st.orders[ks].owner in st.accounts
    ensures var (bid, ask, c, id) := (st.orders[kl], st.orders[ks], st.markets[kl.0].bucket, st.nextIds[kl.0]);
      var drawn := st.(orders := Less1(Less1(st.orders, kl, c), ks, c));
      var named := drawn.(nextIds := st.nextIds[kl.0 := id + 1]);
      && bid.data.Intent? && ask.data.Intent?
      && var bidPays := bid.data.postSeq > ask.data.postSeq;
      && Consumed2(st, kl, ks) == drawn && Gone(st, kl, ks) == named
      && Unpaid(st, kl, ks, fee)
         == (if st.treasury + fee >= TWO_64 then named
             else named.(accounts := Staking(st, kl, ks, !bidPays, 0, 0), treasury := st.treasury + fee))
      && Unopened(st, kl, ks, fee)
         == named.(accounts := Staking(st, kl, ks, true, if bidPays then fee else 0, if bidPays then 0 else fee),
                   treasury := st.treasury + fee)
  {
    hide Consumed2, Less1, Share1, Gone, Unpaid, Unopened, Staking, OrderOk;
    MatchMeans(st, kl, ks);
    GoneIs(st, kl, ks);
    UnpaidIs(st, kl, ks, fee);
    UnopenedIs(st, kl, ks, fee);
  }

  lemma GoneIs(st: State, kl: Key, ks: Key)
    requires kl != ks && kl.0 == ks.0 && kl in st.orders && ks in st.orders && kl.0 in st.nextIds
    requires OrderOk(st, kl, st.orders[kl]) && OrderOk(st, ks, st.orders[ks])
    ensures var c := st.markets[kl.0].bucket;
      && Consumed2(st, kl, ks) == st.(orders := Less1(Less1(st.orders, kl, c), ks, c))
      && Gone(st, kl, ks) == Consumed2(st, kl, ks).(nextIds := st.nextIds[kl.0 := st.nextIds[kl.0] + 1])
  {
    Consumed2Is(st, kl, ks);
    hide Consumed2, Less1, OrderOk;
  }

  /** A change to one account. */
  lemma AdjustIs(st: State, d: Delta)
    requires d.owner in st.accounts
    ensures Adjust(st, d) == st.(accounts := Moved(st.accounts, d.owner, d.free, d.reserved, d.locked))
  {
  }

  lemma StakedIs(st: State, k: Key)
    requires k in st.orders && OrderOk(st, k, st.orders[k])
    ensures var (o, c) := (st.orders[k], st.markets[k.0].bucket);
      Staked(st, k) == Delta(o.owner, Share1(o), 0 - c - Share1(o), c)
  {
    ConsumedIs(st, k);
    hide Consumed, Less1, Share1, ReleaseOfOne;
  }

  lemma UnpaidIs(st: State, kl: Key, ks: Key, fee: nat)
    requires kl != ks && kl.0 == ks.0 && kl in st.orders && ks in st.orders && kl.0 in st.nextIds
    requires OrderOk(st, kl, st.orders[kl]) && OrderOk(st, ks, st.orders[ks])
    ensures st.orders[kl].owner in st.accounts && st.orders[ks].owner in st.accounts
    ensures st.orders[kl].data.Intent? && st.orders[ks].data.Intent?
    ensures var bidPays := st.orders[kl].data.postSeq > st.orders[ks].data.postSeq;
      Unpaid(st, kl, ks, fee)
      == if st.treasury + fee >= TWO_64 then Gone(st, kl, ks)
         else Gone(st, kl, ks).(accounts := Staking(st, kl, ks, !bidPays, 0, 0), treasury := st.treasury + fee)
  {
    GoneIs(st, kl, ks);
    StakedIs(st, kl);
    StakedIs(st, ks);
    var gone := Gone(st, kl, ks);
    assert st.orders[kl].owner in st.accounts && st.orders[ks].owner in st.accounts;
    hide Consumed2, Less1, Share1, Gone, Staked, Adjust, Moved, OrderOk;
    AdjustIs(gone, Staked(st, kl));
    HasAccount(gone, Staked(st, kl), st.orders[ks].owner);
    AdjustIs(Adjust(gone, Staked(st, kl)), Staked(st, ks));
  }

  lemma HasAccount(st: State, d: Delta, t: nat)
    requires d.owner in st.accounts && t in st.accounts
    ensures t in Adjust(st, d).accounts
  {
  }

  lemma UnopenedIs(st: State, kl: Key, ks: Key, fee: nat)
    requires kl != ks && kl.0 == ks.0 && kl in st.orders && ks in st.orders && kl.0 in st.nextIds
    requires OrderOk(st, kl, st.orders[kl]) && OrderOk(st, ks, st.orders[ks])
    ensures st.orders[kl].owner in st.accounts && st.orders[ks].owner in st.accounts
    ensures st.orders[kl].data.Intent? && st.orders[ks].data.Intent?
    ensures var bidPays := st.orders[kl].data.postSeq > st.orders[ks].data.postSeq;
      Unopened(st, kl, ks, fee)
      == Gone(st, kl, ks).(
           accounts := Staking(st, kl, ks, true, if bidPays then fee else 0, if bidPays then 0 else fee),
           treasury := st.treasury + fee)
  {
    GoneIs(st, kl, ks);
    ConsumedIs(st, kl);
    ConsumedIs(st, ks);
    var (gone, d, e) := (Gone(st, kl, ks), LongDelta(st, kl, ks, fee), ShortDelta(st, kl, ks, fee));
    assert d.owner in st.accounts && e.owner in st.accounts;
    hide Consumed, Consumed2, Less1, Share1, ReleaseOfOne, Gone, Adjust, Moved;
    AdjustIs(gone, d);
    HasAccount(gone, d, e.owner);
    AdjustIs(Adjust(gone, d), e);
  }

  /** With the fee paid and no size to be had, both stakes are locked and the fee is in the treasury. */
  lemma UnsizedRule(st: State, kl: Key, ks: Key, fee: nat, now: nat)
    requires Fit(st) && Crossing(st, kl, ks, now)
    ensures Meeting(st, kl, ks, now) && kl.0 in st.markets && kl.0 in st.nextIds
    ensures st.orders[kl].owner in st.accounts && st.orders[ks].owner in st.accounts
    ensures var (bid, ask, c, id) := (st.orders[kl], st.orders[ks], st.markets[kl.0].bucket, st.nextIds[kl.0]);
      var bidPays := bid.data.postSeq > ask.data.postSeq;
      (id + 1 < TWO_64 && fee <= Means(st, kl, ks)
       && SizeOf(st.markets[kl.0], (bid.data.price + ask.data.price) / 2).Err?) ==>
      LeftAfter(st, kl, ks, fee, true, now) == st.(
        orders := Less1(Less1(st.orders, kl, c), ks, c), nextIds := st.nextIds[kl.0 := id + 1],
        accounts := Staking(st, kl, ks, true, if bidPays then fee else 0, if bidPays then 0 else fee),
        treasury := st.treasury + fee)
  {
    MeetingIff(st, kl, ks, now);
    assert kl.0 in st.markets;
    EndingParts(st, kl, ks, fee);
    MatchMeans(st, kl, ks);
    MidpointIsFloorMean(st.orders[kl].data.price, st.orders[ks].data.price);
    hide Fit, SizeOf, Crossing, Meeting, MatchedPair, Means, Less1, Share1, Moved, Gone, Unpaid, Unopened, Purse,
      Consumed2, PriceMidpoint;
  }

  // ----- novation and removal ---------------------------------------------------------------------------------

  /** A novation goes through exactly for a live position and an account that has the stake free, or is the
      owner's; the stake passes from one account to the other, and the side with it. */
  lemma NovateRule(st: State, pk: Key, long: bool, t: nat)
    requires Fit(st)
    ensures Enabled(st, Novate(pk, long, t)) <==>
      && pk in st.positions && st.positions[pk].status == LIVE && t in st.accounts
      && var p := st.positions[pk];
         (t == if long then p.longOwner else p.shortOwner) || p.collateral <= st.accounts[t].free
    ensures Enabled(st, Novate(pk, long, t)) ==>
      var (p, c) := (st.positions[pk], st.positions[pk].collateral as int);
      var owner := if long then p.longOwner else p.shortOwner;
      && owner in st.accounts
      && Step(st, Novate(pk, long, t)) == st.(
        accounts := Moved(Moved(st.accounts, owner, c, 0, 0 - c), t, 0 - c, 0, c),
        positions := st.positions[pk := if long then p.(longOwner := t) else p.(shortOwner := t)])
  {
    assert pk in st.positions ==> PositionOk(st, pk, st.positions[pk]);
    hide Fit;
    if CanNovate(st, pk, long, t) {
      var p := st.positions[pk];
      ExchangeIs(st, Delta(OwnerOf(p, long), p.collateral, 0, 0 - p.collateral),
                 Delta(t, 0 - p.collateral, 0, p.collateral), pk, WithOwner(p, long, t), 0);
      hide Exchanged;
    }
  }

  /** A position's account is removed exactly when it is no longer live. */
  lemma RemoveRule(st: State, pk: Key)
    ensures Enabled(st, Remove(pk)) <==>
      && pk in st.positions
      && (st.positions[pk].status == CLOSED || st.positions[pk].status == LIQUIDATED
          || st.positions[pk].status == RESOLVED)
    ensures Enabled(st, Remove(pk)) ==> Step(st, Remove(pk)) == st.(positions := st.positions - {pk})
  {
  }
}
