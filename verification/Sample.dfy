/** A short run in which every guarded operation is reached: the guards of the model can be met. */
module Sample {
  import opened Nodes
  import opened FixedPoint
  import opened Attestations
  import opened Ledger
  import opened Operations
  import opened Trades
  import opened Settlements
  import opened Handovers
  import opened Reentry
  import opened Settling
  import opened Runs
  import opened Chains

  const HALF: nat := 500_000_000_000_000_000
  const TICK: nat := 10_000_000_000_000_000

  /** Buckets of 10000 at leverage 2, at any bounty rate. */
  function Instrument(bounty: nat): Market { Market(7, 10_000, 20_000, TICK, 1_000, bounty, 1, 10) }

  /** Three traders with 100000 each, and nothing on the book. */
  function Funded(bounty: nat): State {
    State(map[0 := Instrument(bounty)],
          map[1 := Balance(100_000, 0, 0), 2 := Balance(100_000, 0, 0), 3 := Balance(100_000, 0, 0)],
          map[], map[], map[0 := 1], map[7 := 0], 0, 0, 300_000)
  }

  function Bid(): Op { Post(0, 1, Terms(Long, HALF, 1, 100, true), [], 0, 2, 1, 1, 0) }

  function Ask(): Op { Post(0, 2, Terms(Short, HALF, 1, 100, true), [], 0, 4, 3, 2, 0) }

  /** A bid of trader 1 and an ask of trader 2. */
  function Quoted(bounty: nat): State {
    Funded(bounty).(accounts := map[1 := Balance(90_000, 10_000, 0), 2 := Balance(90_000, 10_000, 0),
                                    3 := Balance(100_000, 0, 0)],
                    orders := map[(0, 2) := Order(1, Intent(Long, HALF, 1, 1, 1, 1, 100, 1, 10_000, 0, true)),
                                  (0, 4) := Order(2, Intent(Short, HALF, 2, 3, 1, 1, 100, 2, 10_000, 0, true))],
                    nextIds := map[0 := 3])
  }

  /** The position they open. */
  function Open3(): Position { Position(LIVE, 1, 2, 10_000, HALF, 40_000, true, true, HALF, HALF) }

  function Opened3(bounty: nat): State {
    Funded(bounty).(accounts := map[1 := Balance(90_000, 0, 10_000), 2 := Balance(90_000, 0, 10_000),
                                    3 := Balance(100_000, 0, 0)],
                    positions := map[(0, 3) := Open3()], nextIds := map[0 := 4])
  }

  lemma Extend(ops: seq<Op>, op: Op)
    ensures After(ops + [op]) == Step(After(ops), op)
  {
    assert (ops + [op])[..|ops|] == ops;
  }

  function Opening(bounty: nat): seq<Op> {
    [List(0, Instrument(bounty)), Open(1), Open(2), Open(3), Deposit(1, 100_000), Deposit(2, 100_000),
     Deposit(3, 100_000)]
  }

  lemma OpeningFunds(bounty: nat)
    ensures After(Opening(bounty)) == Funded(bounty)
  {
    var a: seq<Op> := [List(0, Instrument(bounty))];
    Extend([], List(0, Instrument(bounty)));
    assert [] + [List(0, Instrument(bounty))] == a;
    var st := Empty().(markets := map[0 := Instrument(bounty)], nextIds := map[0 := 1], nonces := map[7 := 0]);
    assert After(a) == st;
    var b := a + [Open(1)] + [Open(2)] + [Open(3)];
    Extend(a, Open(1));
    Extend(a + [Open(1)], Open(2));
    Extend(a + [Open(1)] + [Open(2)], Open(3));
    var none := Balance(0, 0, 0);
    assert After(b) == st.(accounts := map[1 := none, 2 := none, 3 := none]);
    hide After;
    Extend(b, Deposit(1, 100_000));
    Extend(b + [Deposit(1, 100_000)], Deposit(2, 100_000));
    Extend(b + [Deposit(1, 100_000)] + [Deposit(2, 100_000)], Deposit(3, 100_000));
    assert Opening(bounty) == b + [Deposit(1, 100_000)] + [Deposit(2, 100_000)] + [Deposit(3, 100_000)];
  }

  function BidOnly(bounty: nat): State {
    Funded(bounty).(accounts := map[1 := Balance(90_000, 10_000, 0), 2 := Balance(100_000, 0, 0),
                                    3 := Balance(100_000, 0, 0)],
                    orders := map[(0, 2) := Order(1, Intent(Long, HALF, 1, 1, 1, 1, 100, 1, 10_000, 0, true))],
                    nextIds := map[0 := 2])
  }

  /** A post that prunes nothing, on the fields. */
  lemma PostsPlainly(st: State, op: Op, due: nat)
    requires op.Post? && op.pruned == [] && op.m in st.markets && op.m in st.nextIds && op.t in st.accounts
    requires Quote(st.markets[op.m], op.terms, op.feeBps, op.now) == Ok((due, 0)) && HasId(st, op.m)
    requires (op.m, op.slot) !in st.orders
    requires op.terms.contracts > 0 && due == op.terms.contracts * st.markets[op.m].bucket
    requires due <= st.accounts[op.t].free
    ensures var b := st.accounts[op.t];
      Step(st, op) == st.(accounts := st.accounts[op.t := Balance(b.free - due, b.reserved + due, b.locked)],
                          orders := st.orders[(op.m, op.slot) := PostOrder(st, op)],
                          nextIds := st.nextIds[op.m := st.nextIds[op.m] + 1])
  {
    assert ReleasedAll(st, []) == st;
    hide Quote;
  }

  lemma QuoteIs(bounty: nat, side: Which, price: nat, reentry: bool)
    requires !side.Seats? && 0 < price < PRICE_ONE && price % TICK == 0
    ensures Quote(Instrument(bounty), Terms(side, price, 1, 100, reentry), 0, 0) == Ok((10_000, 0))
  {
  }

  lemma BidRests(bounty: nat)
    ensures Step(Funded(bounty), Bid()) == BidOnly(bounty)
  {
    hide Step, Quote, CanPlace, ReleasedAll;
    QuoteIs(bounty, Bid().terms.side, Bid().terms.price, Bid().terms.reentry);
    PostsPlainly(Funded(bounty), Bid(), 10_000);
  }

  lemma AskRests(bounty: nat)
    ensures Step(BidOnly(bounty), Ask()) == Quoted(bounty)
  {
    hide Step, Quote, CanPlace, ReleasedAll;
    QuoteIs(bounty, Ask().terms.side, Ask().terms.price, Ask().terms.reentry);
    PostsPlainly(BidOnly(bounty), Ask(), 10_000);
  }

  lemma QuotesCross(bounty: nat)
    ensures CanMatch(Quoted(bounty), (0, 2), (0, 4), 0, 0)
    ensures SizeOf(Instrument(bounty), PriceMidpoint(HALF, HALF)) == Ok(40_000)
  {
    hide PriceMidpoint, SizeOf;
    SizeIs(bounty);
  }

  lemma SizeIs(bounty: nat)
    ensures PriceMidpoint(HALF, HALF) == HALF && SizeOf(Instrument(bounty), HALF) == Ok(40_000)
  {
    MidpointIsFloorMean(HALF, HALF);
    hide PriceMidpoint;
    assert NotionalAtoms(10_000, 20_000) == Ok(20_000);
    assert PositionSizeFp(20_000, HALF) == Ok(40_000);
  }

  lemma BothFilled(bounty: nat)
    ensures OrderOk(Quoted(bounty), (0, 2), Quoted(bounty).orders[(0, 2)])
    ensures OrderOk(Quoted(bounty), (0, 4), Quoted(bounty).orders[(0, 4)])
    ensures Consumed2(Quoted(bounty), (0, 2), (0, 4)) == Quoted(bounty).(orders := map[])
  {
    assert Consumed2(Quoted(bounty), (0, 2), (0, 4)).orders == map[];
  }

  lemma MatchOpensIt(bounty: nat)
    ensures Step(Quoted(bounty), Match((0, 2), (0, 4), 0, 0)) == Opened3(bounty)
  {
    hide Consumed2, SizeOf, CanMatch;
    QuotesCross(bounty);
    BothFilled(bounty);
  }

  function ToPosition(bounty: nat): seq<Op> { Opening(bounty) + [Bid()] + [Ask()] + [Match((0, 2), (0, 4), 0, 0)] }

  /** A reachable state with a live position. */
  lemma PositionReached(bounty: nat)
    ensures After(ToPosition(bounty)) == Opened3(bounty)
  {
    hide After, Step, Opening;
    OpeningFunds(bounty);
    Extend(Opening(bounty), Bid());
    Extend(Opening(bounty) + [Bid()], Ask());
    Extend(Opening(bounty) + [Bid()] + [Ask()], Match((0, 2), (0, 4), 0, 0));
    BidRests(bounty);
    AskRests(bounty);
    MatchOpensIt(bounty);
  }

  lemma BountyIs(bounty: nat)
    requires bounty < 0x1_0000
    ensures Share(10_000, bounty) == bounty && Share(10_000, 1_000) == 1_000
  {
  }

  /** Trader 3 liquidates at a mark of 0.95. */
  function Breach(): Op { Liquidate((0, 3), HistoricalLiquidation(7, 0, 1, (0, 3), 95 * TICK, 0), 3, 0) }

  lemma EquitiesAt95()
    ensures Equities(Open3(), 95 * TICK) == Ok((20_000, 0))
  {
    assert PnlLongAtoms(HALF, 95 * TICK, 40_000) == Ok(18_000);
  }

  lemma KeeperPaid(bounty: nat, spoils: Spoils)
    requires spoils.bounty < 0x1_0000
    ensures LiveAt(Opened3(bounty), (0, 3)) && KeeperFits(Opened3(bounty), (0, 3), spoils, 3)
  {
    var (st, p) := (Opened3(bounty), Open3());
    OthersUntouched(st, Delta(1, spoils.long, 0, 0 - 10_000), Delta(2, spoils.short, 0, 0 - 10_000), (0, 3),
                    p.(status := LIQUIDATED), 0, 3);
    hide Exchanged;
  }

  /** From there a liquidation can go through, at every 16-bit bounty rate, */
  lemma LiquidationReached(bounty: nat)
    requires bounty < 0x1_0000
    ensures Enabled(After(ToPosition(bounty)), Breach())
  {
    hide After, ToPosition, Equities, Share, KeeperFits, Settled;
    PositionReached(bounty);
    BountyIs(bounty);
    EquitiesAt95();
    KeeperPaid(bounty, SpoilsOf(Open3(), (20_000, 0), bounty));
  }

  /** and at every rate above 20000 it breaks the equalities, which held in every state before. */
  lemma OversizedBountyBreaks(bounty: nat)
    requires 2 * BPS_DENOM < bounty < 0x1_0000
    ensures AlwaysLevel(ToPosition(bounty), |ToPosition(bounty)|)
    ensures Enabled(After(ToPosition(bounty)), Breach()) && !Inv(Step(After(ToPosition(bounty)), Breach()))
  {
    var ops := ToPosition(bounty);
    hide Inv, Step, After, Before, Enabled;
    LiquidationReached(bounty);
    assert forall j :: 0 <= j < |ops| ==> !ops[j].Liquidate?;
    EveryStateLevelIff(ops, |ops|);
    WholeRun(ops);
    PositionReached(bounty);
    BountyIs(bounty);
    StepKeepsInvIff(Opened3(bounty), Breach());
  }

  lemma WholeRun(ops: seq<Op>)
    ensures Before(ops, |ops|) == After(ops)
  {
    assert ops[..|ops|] == ops;
  }

  /** The other settlements, and a novation, can go through from there too. */
  lemma OthersReached(bounty: nat)
    ensures Enabled(After(ToPosition(bounty)), Resolve((0, 3), Resolution(7, 0, 1, 10_000), 0))
    ensures Enabled(After(ToPosition(bounty)), CloseMutual((0, 3), PriceTwap(7, 0, 1, 60 * TICK, 1), 0))
    ensures Enabled(After(ToPosition(bounty)), Novate((0, 3), true, 3))
  {
    PositionReached(bounty);
    hide After, ToPosition;
    assert PnlLongAtoms(HALF, 60 * TICK, 40_000) == Ok(4_000) && Equities(Open3(), 60 * TICK).Ok?;
    hide Equities;
    assert CanResolve(Opened3(bounty), (0, 3), Resolution(7, 0, 1, 10_000), 0);
    assert CanCloseMutual(Opened3(bounty), (0, 3), PriceTwap(7, 0, 1, 60 * TICK, 1), 0);
    assert CanNovate(Opened3(bounty), (0, 3), true, 3);
  }

  // ----- a substitution and a claim --------------------------------------------------------------------------------

  /** Trader 1 offers its side, and trader 3 bids for it. */
  function Offered(bounty: nat): State {
    Opened3(bounty).(accounts := map[1 := Balance(80_000, 10_000, 10_000), 2 := Balance(90_000, 0, 10_000),
                                     3 := Balance(90_000, 10_000, 0)],
                     orders := map[(0, 2) := Order(1, Intent(Short, HALF, 4, 1, 1, 1, 100, 3, 10_000, 0, false)),
                                   (0, 4) := Order(3, Intent(Long, 60 * TICK, 5, 5, 1, 1, 100, 4, 10_000, 0, false))],
                     nextIds := map[0 := 6])
  }

  function OfferOnly(bounty: nat): State {
    Opened3(bounty).(accounts := map[1 := Balance(80_000, 10_000, 10_000), 2 := Balance(90_000, 0, 10_000),
                                     3 := Balance(100_000, 0, 0)],
                     orders := map[(0, 2) := Order(1, Intent(Short, HALF, 4, 1, 1, 1, 100, 3, 10_000, 0, false))],
                     nextIds := map[0 := 5])
  }

  function Offer(): Op { Post(0, 1, Terms(Short, HALF, 1, 100, false), [], 0, 2, 1, 3, 0) }

  function Take(): Op { Post(0, 3, Terms(Long, 60 * TICK, 1, 100, false), [], 0, 4, 5, 4, 0) }

  lemma OfferRests(bounty: nat)
    ensures Step(Opened3(bounty), Offer()) == OfferOnly(bounty)
  {
    hide Step, Quote, CanPlace, ReleasedAll;
    QuoteIs(bounty, Offer().terms.side, Offer().terms.price, Offer().terms.reentry);
    PostsPlainly(Opened3(bounty), Offer(), 10_000);
  }

  lemma TakeRests(bounty: nat)
    ensures Step(OfferOnly(bounty), Take()) == Offered(bounty)
  {
    hide Step, Quote, CanPlace, ReleasedAll;
    QuoteIs(bounty, Take().terms.side, Take().terms.price, Take().terms.reentry);
    PostsPlainly(OfferOnly(bounty), Take(), 10_000);
  }

  /** A settling substitution, with a premium of 2000 from trader 3 to trader 1, can go through. */
  lemma SubstitutionReached(bounty: nat)
    ensures Enabled(After(ToPosition(bounty) + [Offer()] + [Take()]), Substitute((0, 4), (0, 2), (0, 3), 1, true, 0))
  {
    hide After, ToPosition, Step;
    PositionReached(bounty);
    Extend(ToPosition(bounty), Offer());
    Extend(ToPosition(bounty) + [Offer()], Take());
    OfferRests(bounty);
    TakeRests(bounty);
    CanSwap(bounty);
  }

  lemma CanSwap(bounty: nat)
    ensures CanSubstitute(Offered(bounty), (0, 4), (0, 2), (0, 3), 1, true, 0)
  {
    assert PriceMidpoint(60 * TICK, HALF) == 55 * TICK && PnlLongAtoms(HALF, 55 * TICK, 40_000) == Ok(2_000);
    hide PriceMidpoint, PnlLongAtoms;
  }

  function Leg(t: nat): Op { Substitute((0, 4), (0, 2), (0, 3), t, true, 0) }

  /** Trader 3 has taken the side over, */
  function Handed(bounty: nat): State {
    Opened3(bounty).(accounts := map[1 := Balance(102_000, 0, 0), 2 := Balance(90_000, 0, 10_000),
                                     3 := Balance(88_000, 0, 10_000)],
                     positions := map[(0, 3) := Open3().(longOwner := 3)], nextIds := map[0 := 6])
  }

  lemma HandedOver(bounty: nat)
    ensures Step(Offered(bounty), Leg(1)) == Handed(bounty)
  {
    CanSwap(bounty);
    FirstLeg(bounty);
    hide CanSubstitute, PremiumPaid;
    SwapLeaves(bounty);
    hide Substituted, Offered, Handed;
  }

  lemma SwapDeltas(bounty: nat)
    ensures var (st, swap) := (Offered(bounty), Swap((0, 2), (0, 4), true));
      && Swappable(st, swap, (0, 3)) && SwapOf(st, (0, 4), (0, 2), 1) == swap
      && LeaverDelta(st, swap, (0, 3), 2_000) == Delta(1, 22_000, 0 - 10_000, 0 - 10_000)
      && ComerDelta(st, swap, (0, 3), 2_000) == Delta(3, 0 - 2_000, 0 - 10_000, 10_000)
  {
  }

  lemma SwapLeaves(bounty: nat)
    ensures var (st, swap) := (Offered(bounty), Swap((0, 2), (0, 4), true));
      Swappable(st, swap, (0, 3)) && Substituted(st, swap, (0, 3), 2_000) == Handed(bounty)
      && SwapOf(st, (0, 4), (0, 2), 1) == swap
  {
    SwapDeltas(bounty);
    hide LeaverDelta, ComerDelta, Exchanged;
    Emptied(Offered(bounty), (0, 2), (0, 4));
    hide Consumed2;
    ExchangedFields(Offered(bounty).(orders := map[]), Delta(1, 22_000, 0 - 10_000, 0 - 10_000),
                    Delta(3, 0 - 2_000, 0 - 10_000, 10_000),
                    (0, 3), Open3().(longOwner := 3), 0);
  }

  lemma FirstLeg(bounty: nat)
    requires CanSubstitute(Offered(bounty), (0, 4), (0, 2), (0, 3), 1, true, 0)
    ensures PremiumPaid(Offered(bounty), (0, 4), (0, 2), (0, 3), 1, true, 0) == 2_000
  {
    assert PriceMidpoint(60 * TICK, HALF) == 55 * TICK && PnlLongAtoms(HALF, 55 * TICK, 40_000) == Ok(2_000);
    hide PriceMidpoint, PnlLongAtoms;
  }

  /** Two orders of one contract each leave nothing. */
  lemma Emptied(st: State, k: Key, j: Key)
    requires k != j && st.orders.Keys == {k, j} && OrderOk(st, k, st.orders[k]) && OrderOk(st, j, st.orders[j])
    requires st.orders[k].data.remaining == 1 && st.orders[j].data.remaining == 1
    ensures Consumed2(st, k, j) == st.(orders := map[])
  {
    assert Consumed2(st, k, j).orders == map[];
  }

  /** offers it in turn, and trader 1 bids for it. */
  function Reoffered(bounty: nat): State {
    Handed(bounty).(accounts := map[1 := Balance(102_000, 0, 0), 2 := Balance(90_000, 0, 10_000),
                                    3 := Balance(78_000, 10_000, 10_000)],
                    orders := map[(0, 2) := Order(3, Intent(Short, HALF, 6, 5, 1, 1, 100, 5, 10_000, 0, false))],
                    nextIds := map[0 := 7])
  }

  function Retaken(bounty: nat): State {
    Handed(bounty).(accounts := map[1 := Balance(92_000, 10_000, 0), 2 := Balance(90_000, 0, 10_000),
                                    3 := Balance(78_000, 10_000, 10_000)],
                    orders := map[(0, 2) := Order(3, Intent(Short, HALF, 6, 5, 1, 1, 100, 5, 10_000, 0, false)),
                                  (0, 4) := Order(1, Intent(Long, 70 * TICK, 7, 1, 1, 1, 100, 6, 10_000, 0, false))],
                    nextIds := map[0 := 8])
  }

  function Reoffer(): Op { Post(0, 3, Terms(Short, HALF, 1, 100, false), [], 0, 2, 5, 5, 0) }

  function Retake(): Op { Post(0, 1, Terms(Long, 70 * TICK, 1, 100, false), [], 0, 4, 1, 6, 0) }

  lemma ReofferRests(bounty: nat)
    ensures Step(Handed(bounty), Reoffer()) == Reoffered(bounty)
  {
    hide Step, Quote, CanPlace, ReleasedAll;
    QuoteIs(bounty, Reoffer().terms.side, Reoffer().terms.price, Reoffer().terms.reentry);
    PostsPlainly(Handed(bounty), Reoffer(), 10_000);
  }

  lemma RetakeRests(bounty: nat)
    ensures Step(Reoffered(bounty), Retake()) == Retaken(bounty)
  {
    hide Step, Quote, CanPlace, ReleasedAll;
    QuoteIs(bounty, Retake().terms.side, Retake().terms.price, Retake().terms.reentry);
    PostsPlainly(Reoffered(bounty), Retake(), 10_000);
  }

  lemma CanSwapBack(bounty: nat)
    ensures CanSubstitute(Retaken(bounty), (0, 4), (0, 2), (0, 3), 3, true, 0)
    ensures PremiumPaid(Retaken(bounty), (0, 4), (0, 2), (0, 3), 3, true, 0) == 4_000
  {
    assert PriceMidpoint(70 * TICK, HALF) == 60 * TICK && PnlLongAtoms(HALF, 60 * TICK, 40_000) == Ok(4_000);
    hide PriceMidpoint, PnlLongAtoms;
  }

  function Relay(bounty: nat): seq<Op> {
    ToPosition(bounty) + [Offer()] + [Take()] + [Leg(1)] + [Reoffer()] + [Retake()] + [Leg(3)]
  }

  lemma RelayStates(bounty: nat)
    ensures |Relay(bounty)| == 16 && Relay(bounty)[12] == Leg(1) && Relay(bounty)[15] == Leg(3)
    ensures Before(Relay(bounty), 12) == Offered(bounty) && Before(Relay(bounty), 15) == Retaken(bounty)
  {
    var a := ToPosition(bounty);
    assert |a| == 10;
    hide After, ToPosition, Step;
    PositionReached(bounty);
    Extend(a, Offer());
    Extend(a + [Offer()], Take());
    Extend(a + [Offer()] + [Take()], Leg(1));
    Extend(a + [Offer()] + [Take()] + [Leg(1)], Reoffer());
    Extend(a + [Offer()] + [Take()] + [Leg(1)] + [Reoffer()], Retake());
    OfferRests(bounty);
    TakeRests(bounty);
    HandedOver(bounty);
    ReofferRests(bounty);
    RetakeRests(bounty);
    assert Relay(bounty)[..12] == a + [Offer()] + [Take()];
    assert Relay(bounty)[..15] == a + [Offer()] + [Take()] + [Leg(1)] + [Reoffer()] + [Retake()];
  }

  lemma RelayLegs(bounty: nat)
    ensures Settles(Relay(bounty), 12, (0, 3), true) && PremiumAt(Relay(bounty), 12, (0, 3), true) == 2_000
    ensures Settles(Relay(bounty), 15, (0, 3), true) && PremiumAt(Relay(bounty), 15, (0, 3), true) == 4_000
  {
    hide Before, Relay, CanSubstitute, PremiumPaid;
    RelayStates(bounty);
    CanSwap(bounty);
    FirstLeg(bounty);
    CanSwapBack(bounty);
  }

  lemma RelayTraders(bounty: nat)
    requires Settles(Relay(bounty), 12, (0, 3), true) && Settles(Relay(bounty), 15, (0, 3), true)
    ensures LeavingAt(Relay(bounty), 12, (0, 3), true).owner == ComingAt(Relay(bounty), 15, (0, 3), true).owner == 1
    ensures ComingAt(Relay(bounty), 12, (0, 3), true).owner == LeavingAt(Relay(bounty), 15, (0, 3), true).owner == 3
    ensures BetweenTwo(Relay(bounty), 12, (0, 3), true) && BetweenTwo(Relay(bounty), 15, (0, 3), true)
    ensures OwnerOf(At(Relay(bounty), 12, (0, 3), true), false) == 2
  {
    RelayStates(bounty);
    hide Settles, Relay, Before;
  }

  lemma RelayOps(bounty: nat)
    ensures |Relay(bounty)| == 16
    ensures forall k :: 0 <= k < 16 ==> !Relay(bounty)[k].Liquidate? && !Relay(bounty)[k].Novate?
    ensures forall k :: 0 <= k < 16 && k != 12 && k != 15 ==> !Relay(bounty)[k].Substitute?
  {
  }

  lemma RelayGoesOn(bounty: nat)
    ensures |Relay(bounty)| == 16
    ensures Undisturbed(Relay(bounty), 13, 15, (0, 3), true) && Undisturbed(Relay(bounty), 12, 16, (0, 3), false)
    ensures WithinPots(Relay(bounty), 16)
  {
    var ops := Relay(bounty);
    hide Relay, Settles, Before, Enabled, PremiumAt;
    RelayOps(bounty);
    RelayLegs(bounty);
    LegsKeepOtherSide(ops, 12, (0, 3), true);
    LegsKeepOtherSide(ops, 15, (0, 3), true);
  }

  /** Two legs on one side, with posts in between: the premiums, 2000 and 4000, add up to more than the profit
      of 4000 from the entry to the last mark, while what the two holders net, 2000 each, adds up to exactly
      that. */
  lemma RelayReached(bounty: nat)
    ensures var (ops, pk) := (Relay(bounty), (0, 3));
      && Relayed(ops, [12, 15], pk, true) && Settles(ops, 15, pk, true) && ProfitAt(ops, 15, pk, true) == 4_000
      && PremiumSum(ops, [12, 15], 2, pk, true) == 6_000
      && Net(ops, [12, 15], 0, pk, true) == Net(ops, [12, 15], 1, pk, true) == 2_000
  {
    var (ops, pk, legs) := (Relay(bounty), (0, 3), [12, 15]);
    RelayLegs(bounty);
    RelayTraders(bounty);
    RelayGoesOn(bounty);
    hide Relay, Settles, PremiumAt, ProfitAt, BetweenTwo, Undisturbed, LeavingAt, ComingAt, At, Net;
    PremiumIsProfit(ops, 15, pk, true);
    assert PremiumSum(ops, legs, 1, pk, true) == 2_000;
    NetIsRise(ops, legs, 0, pk, true);
    NetIsRise(ops, legs, 1, pk, true);
  }

  lemma RelayPasses(bounty: nat)
    ensures Chained(Relay(bounty), [12, 15], (0, 3), true) && Bystander(Relay(bounty), [12, 15], (0, 3), true, 2)
    ensures (0, 3) in Before(Relay(bounty), 12).positions
    ensures OwnerOf(Before(Relay(bounty), 12).positions[(0, 3)], false) == 2
  {
    RelayLegs(bounty);
    RelayTraders(bounty);
    RelayStates(bounty);
    hide Relay, Settles, LeavingAt, ComingAt, Before, PremiumAt, BetweenTwo;
  }

  /** Through all of it trader 2, on the other side, keeps its side, what it has, and the pot behind it. */
  lemma RelayLeavesOtherSide(bounty: nat, j: nat)
    requires 12 <= j <= 16
    ensures |Relay(bounty)| == 16
    ensures var (st, st') := (Before(Relay(bounty), 12), Before(Relay(bounty), j));
      && LiveAt(st', (0, 3)) && st'.positions[(0, 3)].shortOwner == 2
      && 2 * st'.positions[(0, 3)].collateral <= st'.vault
      && Had(st', 2) == Plus(Had(st, 2), Elsewhere(Relay(bounty), [12, 15], 12, j, 2))
  {
    RelayGoesOn(bounty);
    RelayPasses(bounty);
    var (ops, legs) := (Relay(bounty), [12, 15]);
    assert WithinPots(ops, j) && Undisturbed(ops, 12, j, (0, 3), false);
    hide Relay, Chained, Undisturbed, WithinPots, Bystander, Before, Elsewhere, Had, Plus, LiveAt, SameTerms;
    OtherSideUntouched(ops, legs, j, (0, 3), true);
  }

  // ----- a side that changes hands between two legs ---------------------------------------------------------------

  /** After the first leg trader 3 novates its side to trader 1, who leaves on the second leg. */
  function Novated3(bounty: nat): State {
    Handed(bounty).(accounts := map[1 := Balance(92_000, 0, 10_000), 2 := Balance(90_000, 0, 10_000),
                                    3 := Balance(98_000, 0, 0)],
                    positions := map[(0, 3) := Open3()])
  }

  function Reoffered1(bounty: nat): State {
    Novated3(bounty).(accounts := map[1 := Balance(82_000, 10_000, 10_000), 2 := Balance(90_000, 0, 10_000),
                                      3 := Balance(98_000, 0, 0)],
                      orders := map[(0, 2) := Order(1, Intent(Short, HALF, 6, 1, 1, 1, 100, 5, 10_000, 0, false))],
                      nextIds := map[0 := 7])
  }

  function Retaken3(bounty: nat): State {
    Novated3(bounty).(accounts := map[1 := Balance(82_000, 10_000, 10_000), 2 := Balance(90_000, 0, 10_000),
                                      3 := Balance(88_000, 10_000, 0)],
                      orders := map[(0, 2) := Order(1, Intent(Short, HALF, 6, 1, 1, 1, 100, 5, 10_000, 0, false)),
                                    (0, 4) := Order(3, Intent(Long, 70 * TICK, 7, 5, 1, 1, 100, 6, 10_000, 0, false))],
                      nextIds := map[0 := 8])
  }

  function Back(): Op { Novate((0, 3), true, 1) }

  function Reoffer1(): Op { Post(0, 1, Terms(Short, HALF, 1, 100, false), [], 0, 2, 1, 5, 0) }

  function Retake3(): Op { Post(0, 3, Terms(Long, 70 * TICK, 1, 100, false), [], 0, 4, 5, 6, 0) }

  function Detour(bounty: nat): seq<Op> {
    ToPosition(bounty) + [Offer()] + [Take()] + [Leg(1)] + [Back()] + [Reoffer1()] + [Retake3()] + [Leg(1)]
  }

  lemma BackLeaves(bounty: nat)
    ensures Step(Handed(bounty), Back()) == Novated3(bounty)
  {
    assert CanNovate(Handed(bounty), (0, 3), true, 1);
    ExchangedFields(Handed(bounty), Delta(3, 10_000, 0, 0 - 10_000), Delta(1, 0 - 10_000, 0, 10_000), (0, 3), Open3(),
                    0);
    hide Exchanged;
  }

  lemma Reoffer1Rests(bounty: nat)
    ensures Step(Novated3(bounty), Reoffer1()) == Reoffered1(bounty)
  {
    hide Step, Quote, CanPlace, ReleasedAll;
    QuoteIs(bounty, Reoffer1().terms.side, Reoffer1().terms.price, Reoffer1().terms.reentry);
    PostsPlainly(Novated3(bounty), Reoffer1(), 10_000);
  }

  lemma Retake3Rests(bounty: nat)
    ensures Step(Reoffered1(bounty), Retake3()) == Retaken3(bounty)
  {
    hide Step, Quote, CanPlace, ReleasedAll;
    QuoteIs(bounty, Retake3().terms.side, Retake3().terms.price, Retake3().terms.reentry);
    PostsPlainly(Reoffered1(bounty), Retake3(), 10_000);
  }

  lemma CanSwapAgain(bounty: nat)
    ensures CanSubstitute(Retaken3(bounty), (0, 4), (0, 2), (0, 3), 1, true, 0)
    ensures PremiumPaid(Retaken3(bounty), (0, 4), (0, 2), (0, 3), 1, true, 0) == 4_000
  {
    assert PriceMidpoint(70 * TICK, HALF) == 60 * TICK && PnlLongAtoms(HALF, 60 * TICK, 40_000) == Ok(4_000);
    hide PriceMidpoint, PnlLongAtoms;
  }

  lemma DetourStates(bounty: nat)
    ensures |Detour(bounty)| == 17 && Detour(bounty)[12] == Leg(1) && Detour(bounty)[16] == Leg(1)
    ensures Before(Detour(bounty), 12) == Offered(bounty) && Before(Detour(bounty), 16) == Retaken3(bounty)
  {
    var a := ToPosition(bounty);
    assert |a| == 10;
    hide After, ToPosition, Step;
    PositionReached(bounty);
    Extend(a, Offer());
    Extend(a + [Offer()], Take());
    Extend(a + [Offer()] + [Take()], Leg(1));
    Extend(a + [Offer()] + [Take()] + [Leg(1)], Back());
    Extend(a + [Offer()] + [Take()] + [Leg(1)] + [Back()], Reoffer1());
    Extend(a + [Offer()] + [Take()] + [Leg(1)] + [Back()] + [Reoffer1()], Retake3());
    OfferRests(bounty);
    TakeRests(bounty);
    HandedOver(bounty);
    BackLeaves(bounty);
    Reoffer1Rests(bounty);
    Retake3Rests(bounty);
    assert Detour(bounty)[..12] == a + [Offer()] + [Take()];
    assert Detour(bounty)[..16] == a + [Offer()] + [Take()] + [Leg(1)] + [Back()] + [Reoffer1()] + [Retake3()];
  }

  /** Two legs with a novation in between are a chain but not a relay: the second leg is left by another
      trader than the one who came in on the first. */
  lemma DetourReached(bounty: nat)
    ensures var (ops, pk) := (Detour(bounty), (0, 3));
      && Chained(ops, [12, 16], pk, true) && Settles(ops, 12, pk, true) && Settles(ops, 16, pk, true)
      && PremiumAt(ops, 12, pk, true) == 2_000 && PremiumAt(ops, 16, pk, true) == 4_000
      && ComingAt(ops, 12, pk, true).owner == 3 && LeavingAt(ops, 16, pk, true).owner == 1
  {
    hide Before, Detour, CanSubstitute, PremiumPaid;
    DetourStates(bounty);
    CanSwap(bounty);
    FirstLeg(bounty);
    CanSwapAgain(bounty);
  }

  // ----- swallowed failures --------------------------------------------------------------------------------------

  /** Trader 2 has withdrawn all but one bucket before asking. */
  function Poorer(bounty: nat): State {
    BidOnly(bounty).(accounts := map[1 := Balance(90_000, 10_000, 0), 2 := Balance(10_000, 0, 0),
                                     3 := Balance(100_000, 0, 0)],
                     vault := 210_000)
  }

  function Penniless(bounty: nat): State {
    Quoted(bounty).(accounts := map[1 := Balance(90_000, 10_000, 0), 2 := Balance(0, 10_000, 0),
                                    3 := Balance(100_000, 0, 0)],
                    vault := 210_000)
  }

  function ToPenniless(bounty: nat): seq<Op> { Opening(bounty) + [Bid()] + [Withdraw(2, 90_000)] + [Ask()] }

  lemma PennilessReached(bounty: nat)
    ensures After(ToPenniless(bounty)) == Penniless(bounty)
  {
    hide After, Opening;
    OpeningFunds(bounty);
    Extend(Opening(bounty), Bid());
    Extend(Opening(bounty) + [Bid()], Withdraw(2, 90_000));
    Extend(Opening(bounty) + [Bid()] + [Withdraw(2, 90_000)], Ask());
    BidRests(bounty);
    QuoteIs(bounty, Short, HALF, true);
    PostsPlainly(Poorer(bounty), Ask(), 10_000);
    WithdrawLeaves(bounty);
    hide Step, Quote;
  }

  lemma WithdrawLeaves(bounty: nat)
    ensures Step(BidOnly(bounty), Withdraw(2, 90_000)) == Poorer(bounty)
  {
  }

  /** A post whose own match is tried, cannot pay a fee of 10, and is swallowed: in the state reached by the
      post the pair crosses, and what the match leaves has 10 in the treasury that is not in the vault. */
  lemma SwallowedFeeReached(bounty: nat)
    ensures var (ops, kl, ks) := (ToPenniless(bounty), (0, 2), (0, 4));
      && AlwaysLevel(ops, |ops|) && Crossing(After(ops), kl, ks, 0) && 0 in After(ops).nextIds
      && EndingOf(After(ops), kl, ks, 10, true) == FeeUnpaid
      && !Inv(LeftAfter(After(ops), kl, ks, 10, true, 0))
      && VaultGap(LeftAfter(After(ops), kl, ks, 10, true, 0)) == 0 - 10
  {
    var ops := ToPenniless(bounty);
    hide Inv, Step, After, Before, Enabled, VaultGap, SizeOf, Consumed2;
    PennilessReached(bounty);
    assert forall j :: 0 <= j < |ops| ==> !ops[j].Liquidate?;
    EveryStateLevelIff(ops, |ops|);
    WholeRun(ops);
    InlineMatchKeepsInvIff(Penniless(bounty), (0, 2), (0, 4), 10, true, 0);
    UnpaidGap(Penniless(bounty), (0, 2), (0, 4), 10);
    LevelVault(Penniless(bounty));
  }

  lemma LevelVault(st: State)
    requires Inv(st)
    ensures VaultGap(st) == 0
  {
  }

  /** A bucket of 9·10^18 at leverage 40, both of which an instrument may have, and two of which fit 64
      bits, cannot be sized at any entry. */
  lemma Unsizable(market: Market, entry: nat)
    requires market.bucket == 9_000_000_000_000_000_000 && market.leverageBps == 400_000
    ensures 2 * market.bucket < U64 && SizeOf(market, entry).Err?
  {
  }

  function Won(): Op { Resolve((0, 3), Resolution(7, 0, 1, 10_000), 0) }

  function Resolved3(bounty: nat): State {
    Opened3(bounty).(accounts := map[1 := Balance(110_000, 0, 0), 2 := Balance(90_000, 0, 0),
                                     3 := Balance(100_000, 0, 0)],
                     positions := map[(0, 3) := Open3().(status := RESOLVED)], nonces := map[7 := 1])
  }

  lemma WonResolves(bounty: nat)
    ensures Step(Opened3(bounty), Won()) == Resolved3(bounty)
  {
    assert CanResolve(Opened3(bounty), (0, 3), Resolution(7, 0, 1, 10_000), 0);
    assert ResolvedEquities(Open3(), 10_000) == Ok((20_000, 0));
    hide ResolvedEquities;
  }

  /** The winner can then claim re-entry with eleven contracts. */
  lemma ClaimReached(bounty: nat)
    ensures Enabled(After(ToPosition(bounty) + [Won()]), Claim((0, 3), true, 11, 0, 2, 1, 3, 100, 0))
  {
    hide After, ToPosition, Step;
    PositionReached(bounty);
    Extend(ToPosition(bounty), Won());
    WonResolves(bounty);
    assert CanClaim(Resolved3(bounty), (0, 3), true, 100, 0);
    forall k: nat ensures Cost(k, 10_000, 0) == k * 10_000 { assert k * 10_000 * 0 == 0; }
    assert IsLargestAffordable(11, 110_000, 10_000, 0);
  }
}
