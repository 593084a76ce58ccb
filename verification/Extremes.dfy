/** Short runs on instruments that creation accepts and arithmetic does not cope with: one on which no match
    can size its position, and one on which a live position cannot be settled at most marks. */
module Extremes {
  import opened Nodes
  import opened FixedPoint
  import opened Fees
  import opened Attestations
  import opened Ledger
  import opened Operations
  import opened Trades
  import opened Settlements
  import opened Runs
  import opened Sizes
  import Chains
  import Sample

  // ----- a bid facing an ask --------------------------------------------------------------------------------

  /** An instrument and a limit for which two traders can each post one contract. */
  predicate Postable(market: Market, price: nat) {
    WellFormed(market) && 2 * market.bucket < U64 && ValidatePriceTicked(price, market.tick).Ok?
  }

  function Bid(price: nat): Op { Post(0, 1, Terms(Long, price, 1, 100, false), [], 0, 2, 1, 1, 0) }

  function Ask(price: nat): Op { Post(0, 2, Terms(Short, price, 1, 100, false), [], 0, 4, 3, 2, 0) }

  /** Two traders fund one bucket each and post at one price. */
  function ToFacing(market: Market, price: nat): seq<Op> {
    [List(0, market)] + [Open(1)] + [Open(2)] + [Deposit(1, market.bucket)] + [Deposit(2, market.bucket)]
    + [Bid(price)] + [Ask(price)]
  }

  function Funds(market: Market): State {
    var b := Balance(market.bucket, 0, 0);
    State(map[0 := market], map[1 := b, 2 := b], map[], map[], map[0 := 1], map[market.marketId := 0], 0, 0,
          2 * market.bucket)
  }

  function Quoted(market: Market, price: nat): State {
    Funds(market).(accounts := map[1 := Balance(0, market.bucket, 0), 2 := Balance(market.bucket, 0, 0)],
                   orders := map[(0, 2) := Order(1, Intent(Long, price, 1, 1, 1, 1, 100, 1, market.bucket, 0, false))],
                   nextIds := map[0 := 2])
  }

  function Facing(market: Market, price: nat): State {
    Funds(market).(accounts := map[1 := Balance(0, market.bucket, 0), 2 := Balance(0, market.bucket, 0)],
                   orders := map[(0, 2) := Order(1, Intent(Long, price, 1, 1, 1, 1, 100, 1, market.bucket, 0, false)),
                                 (0, 4) := Order(2, Intent(Short, price, 2, 3, 1, 1, 100, 2, market.bucket, 0, false))],
                   nextIds := map[0 := 3])
  }

  lemma FundsReached(market: Market)
    requires WellFormed(market) && 2 * market.bucket < U64
    ensures After([List(0, market)] + [Open(1)] + [Open(2)] + [Deposit(1, market.bucket)] + [Deposit(2, market.bucket)])
         == Funds(market)
  {
    var a: seq<Op> := [List(0, market)];
    Sample.Extend([], List(0, market));
    assert [] + [List(0, market)] == a;
    var st := Empty().(markets := map[0 := market], nextIds := map[0 := 1], nonces := map[market.marketId := 0]);
    assert After(a) == st;
    hide After;
    Sample.Extend(a, Open(1));
    Sample.Extend(a + [Open(1)], Open(2));
    var none := Balance(0, 0, 0);
    assert After(a + [Open(1)] + [Open(2)]) == st.(accounts := map[1 := none, 2 := none]);
    Sample.Extend(a + [Open(1)] + [Open(2)], Deposit(1, market.bucket));
    Sample.Extend(a + [Open(1)] + [Open(2)] + [Deposit(1, market.bucket)], Deposit(2, market.bucket));
  }

  lemma QuoteIs(market: Market, side: Which, price: nat)
    requires Postable(market, price) && !side.Seats?
    ensures Quote(market, Terms(side, price, 1, 100, false), 0, 0) == Ok((market.bucket, 0))
  {
    assert FeeBufferFor(1, market.bucket, 0) == Ok(0);
    hide FeeBufferFor, ValidatePriceTicked;
  }

  lemma BidRests(market: Market, price: nat)
    requires Postable(market, price)
    ensures Step(Funds(market), Bid(price)) == Quoted(market, price)
  {
    QuoteIs(market, Long, price);
    hide Step, Quote, CanPlace, ReleasedAll, ValidatePriceTicked;
    Sample.PostsPlainly(Funds(market), Bid(price), market.bucket);
  }

  lemma AskRests(market: Market, price: nat)
    requires Postable(market, price)
    ensures Step(Quoted(market, price), Ask(price)) == Facing(market, price)
  {
    QuoteIs(market, Short, price);
    hide Step, Quote, CanPlace, ReleasedAll, ValidatePriceTicked;
    Sample.PostsPlainly(Quoted(market, price), Ask(price), market.bucket);
  }

  lemma FacingReached(market: Market, price: nat)
    requires Postable(market, price)
    ensures After(ToFacing(market, price)) == Facing(market, price)
    ensures AlwaysLevel(ToFacing(market, price), |ToFacing(market, price)|) && Inv(Facing(market, price))
  {
    var a := [List(0, market)] + [Open(1)] + [Open(2)] + [Deposit(1, market.bucket)] + [Deposit(2, market.bucket)];
    var ops := ToFacing(market, price);
    assert forall j :: 0 <= j < |ops| ==> !ops[j].Liquidate?;
    hide After, Step, Inv, Before, Enabled, Facing, Quoted, Funds, Bid, Ask;
    FundsReached(market);
    Sample.Extend(a, Bid(price));
    Sample.Extend(a + [Bid(price)], Ask(price));
    BidRests(market, price);
    AskRests(market, price);
    EveryStateLevelIff(ops, |ops|);
    Sample.WholeRun(ops);
  }

  /** The two orders cross, with nothing but the size of the position left to decide how their match ends. */
  lemma FacingCrosses(market: Market, price: nat)
    requires Postable(market, price)
    ensures var st := Facing(market, price);
      && Crossing(st, (0, 2), (0, 4), 0) && HasId(st, 0) && Purse(st, (0, 2), (0, 4)) == 0
      && PriceMidpoint(price, price) == price
      && EndingOf(st, (0, 2), (0, 4), 0, true) == if SizeOf(market, price).Ok? then Done else Unsized
  {
    MidpointIsFloorMean(price, price);
    hide PriceMidpoint, SizeOf, ValidatePriceTicked;
  }

  // ----- a position that cannot be sized ------------------------------------------------------------------------

  /** A post whose own match cannot size its position, and is swallowed: in the state reached by the post the
      pair crosses, and what the match leaves has both stakes locked for a position that is not there. */
  lemma UnsizedEnding(market: Market, price: nat)
    requires Postable(market, price) && SizeOf(market, price).Err?
    ensures var (ops, kl, ks) := (ToFacing(market, price), (0, 2), (0, 4));
      && AlwaysLevel(ops, |ops|) && Crossing(After(ops), kl, ks, 0) && 0 in After(ops).nextIds
      && EndingOf(After(ops), kl, ks, 0, true) == Unsized
      && var st' := LeftAfter(After(ops), kl, ks, 0, true, 0);
      && !Inv(st') && st'.positions == map[] && st'.orders == map[]
      && st'.accounts == map[1 := Balance(0, 0, market.bucket), 2 := Balance(0, 0, market.bucket)]
  {
    hide After, Inv, SizeOf, AlwaysLevel, ToFacing, Facing, Postable, Crossing, EndingOf, LeftAfter;
    FacingReached(market, price);
    FacingUnsized(market, price);
  }

  lemma FacingUnsized(market: Market, price: nat)
    requires Postable(market, price) && SizeOf(market, price).Err? && Inv(Facing(market, price))
    ensures var (st, kl, ks) := (Facing(market, price), (0, 2), (0, 4));
      && Crossing(st, kl, ks, 0) && 0 in st.nextIds && EndingOf(st, kl, ks, 0, true) == Unsized
      && var st' := LeftAfter(st, kl, ks, 0, true, 0);
      && !Inv(st') && st'.positions == map[] && st'.orders == map[]
      && st'.accounts == map[1 := Balance(0, 0, market.bucket), 2 := Balance(0, 0, market.bucket)]
  {
    hide Inv, SizeOf, Postable, Crossing, EndingOf, Unopened, PriceMidpoint;
    FacingCrosses(market, price);
    UnopenedIs(market, price);
    UnopenedBreaks(Facing(market, price), (0, 2), (0, 4), 0);
  }

  lemma UnopenedIs(market: Market, price: nat)
    requires Postable(market, price)
    ensures var st := Facing(market, price);
      && OrderOk(st, (0, 2), st.orders[(0, 2)]) && OrderOk(st, (0, 4), st.orders[(0, 4)])
      && var st' := Unopened(st, (0, 2), (0, 4), 0);
      && st'.positions == map[] && st'.orders == map[]
      && st'.accounts == map[1 := Balance(0, 0, market.bucket), 2 := Balance(0, 0, market.bucket)]
  {
    Sample.Emptied(Facing(market, price), (0, 2), (0, 4));
    hide Consumed2;
  }

  /** A bucket of 9·10^18 at leverage 40, two of which fit 64 bits, with ticks of a hundredth. */
  function Huge(): Market { Market(7, 9_000_000_000_000_000_000, 400_000, Sample.TICK, 1_000, 100, 1, 10) }

  /** So an instrument that creation accepts is reached on which every match tried inside a post ends so. */
  lemma UnsizedReached(price: nat)
    requires ValidatePriceTicked(price, Sample.TICK).Ok?
    ensures var (ops, kl, ks) := (ToFacing(Huge(), price), (0, 2), (0, 4));
      && AlwaysLevel(ops, |ops|) && Crossing(After(ops), kl, ks, 0) && 0 in After(ops).nextIds
      && EndingOf(After(ops), kl, ks, 0, true) == Unsized && !Inv(LeftAfter(After(ops), kl, ks, 0, true, 0))
  {
    hide After, Inv, SizeOf, ValidatePriceTicked, AlwaysLevel, ToFacing, LeftAfter, EndingOf, Crossing;
    Sample.Unsizable(Huge(), price);
    UnsizedEnding(Huge(), price);
  }

  // ----- a position that cannot be settled ------------------------------------------------------------------------

  /** Buckets of 10000 at leverage 2, with ticks of 10^-18. */
  function Fine(): Market { Market(7, 10_000, 20_000, 1, 1_000, 100, 1, 10) }

  lemma FineSize()
    ensures SizeOf(Fine(), 1) == Ok(20_000 * PRICE_ONE) && Postable(Fine(), 1)
  {
    assert NotionalAtoms(10_000, 20_000) == Ok(20_000);
  }

  lemma FacingMatches(market: Market, price: nat, size: nat)
    requires Postable(market, price) && SizeOf(market, price) == Ok(size)
    ensures var st' := Step(Facing(market, price), Match((0, 2), (0, 4), 0, 0));
      && st'.markets == map[0 := market]
      && st'.positions
         == map[(0, 3) := Position(LIVE, 1, 2, market.bucket, price, size, false, false, price, price)]
  {
    FacingCrosses(market, price);
    hide SizeOf, PriceMidpoint, MatchedPair, Carried, Postable;
    assert CanMatch(Facing(market, price), (0, 2), (0, 4), 0, 0);
    MatchWrites(Facing(market, price), (0, 2), (0, 4), 0, 0);
  }

  function ToMatched(market: Market, price: nat): seq<Op> { ToFacing(market, price) + [Match((0, 2), (0, 4), 0, 0)] }

  /** Where it can be sized, the match opens a live position. */
  lemma MatchedReached(market: Market, price: nat, size: nat)
    requires Postable(market, price) && SizeOf(market, price) == Ok(size)
    ensures var st := After(ToMatched(market, price));
      && st.markets == map[0 := market] && LiveAt(st, (0, 3))
      && var p := st.positions[(0, 3)]; p.entry == price && p.size == size && p.collateral == market.bucket
  {
    var ops := ToMatched(market, price);
    hide After, Step, ToFacing, Facing, Inv, AlwaysLevel, Fit, Postable, SizeOf;
    FacingReached(market, price);
    FacingMatches(market, price, size);
    Sample.Extend(ToFacing(market, price), Match((0, 2), (0, 4), 0, 0));
    EveryStateFits(ops, |ops|);
    Sample.WholeRun(ops);
    Chains.PositionOwners(After(ops), (0, 3));
  }

  /** Entered at 10^-18 there, a live position has a profit that overflows at every mark from 0.01 up: it can be
      neither closed nor liquidated at any of them, nor resolved at an even outcome, by any attestation. */
  lemma SettlementBlocked(att: Attestation, keeper: nat, now: nat)
    ensures var (st, pk) := (After(ToMatched(Fine(), 1)), (0, 3));
      && LiveAt(st, pk)
      && (att.PriceTwap? && att.price >= Sample.TICK ==> !CanCloseMutual(st, pk, att, now))
      && (att.HistoricalLiquidation? && att.mark >= Sample.TICK ==> !CanLiquidate(st, pk, att, keeper, now))
      && (att.Resolution? && att.outcomeBps == 5_000 ==> !CanResolve(st, pk, att, now))
  {
    FineSize();
    MatchedReached(Fine(), 1, 20_000 * PRICE_ONE);
    var p := After(ToMatched(Fine(), 1)).positions[(0, 3)];
    hide After, ToMatched, SizeOf;
    forall mark: nat | mark >= Sample.TICK ensures Equities(p, mark).Err? { Overflows(p, mark); }
    hide PnlLongAtoms;
  }

  lemma Overflows(p: Position, mark: nat)
    requires p.entry == 1 && p.size == 20_000 * PRICE_ONE && mark >= Sample.TICK
    ensures Equities(p, mark).Err?
  {
    assert AsI128(p.size) == p.size;
    MulMono(Sample.TICK - 1, mark - 1, p.size);
  }

  // ----- a size that turns negative ---------------------------------------------------------------------------------

  /** Buckets of 2·10^18 at leverage 100, with ticks of 10^-18. */
  function Wide(): Market { Market(7, 2_000_000_000_000_000_000, 1_000_000, 1, 1_000, 100, 1, 10) }

  lemma WideSize()
    ensures Postable(Wide(), 1) && SizeOf(Wide(), 1) == Ok(200_000_000_000_000_000_000 * PRICE_ONE)
  {
    assert NotionalAtoms(2_000_000_000_000_000_000, 1_000_000) == Ok(200_000_000_000_000_000_000);
  }

  /** Entered at 10^-18 there, a live position has a size beyond a signed 128-bit value: as the mark rises by one
      step, the long loses all. */
  lemma SizeWraps()
    ensures var st := After(ToMatched(Wide(), 1));
      && LiveAt(st, (0, 3))
      && var p := st.positions[(0, 3)];
      && p.entry == 1 && I128 <= p.size < U128 && AsI128(p.size) < 0
      && Equities(p, 2).Ok? && Equities(p, 2).value.0 == 0 && Equities(p, 2).value.1 == 2 * p.collateral
  {
    WideSize();
    MatchedReached(Wide(), 1, 200_000_000_000_000_000_000 * PRICE_ONE);
    hide After, ToMatched, SizeOf;
    WrappedLoss();
  }

  lemma WrappedLoss()
    ensures PnlLongAtoms(1, 2, 200_000_000_000_000_000_000 * PRICE_ONE).Ok?
    ensures PnlLongAtoms(1, 2, 200_000_000_000_000_000_000 * PRICE_ONE).value < -100_000_000_000_000_000_000
  {
  }
}
