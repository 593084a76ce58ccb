/** The book part of a best-pair match, repeated by its callers until nothing crosses. */
module Exhaustion {
  import opened Nodes
  import opened IntentBook
  import opened Sums
  import opened FixedPoint
  import opened Ledger
  import opened Desk
  import opened Posting
  import opened Filling
  import opened Matcher
  import opened Operations
  import opened Trades
  import opened Exchange
  import Schedule
  import Trading
  import Volume

  /** The unfilled contracts of an order, if it is live on side w. */
  ghost function LiveOn(w: Which, now: nat): Order -> int {
    (o: Order) => if o.data.Intent? && o.data.side == w && o.data.expiration > now then o.data.remaining else 0
  }

  /** All live contracts of a side. */
  ghost function LiveContracts(r: map<nat, Order>, w: Which, now: nat): int { Sum(r, LiveOn(w, now)) }

  /** Every order holds a bucket for each contract it seeks. */
  ghost predicate Funded(r: map<nat, Order>, bucket: nat) {
    forall i :: i in r ==> FundedOrder(r[i].data, bucket)
  }

  predicate FundedOrder(d: Data, bucket: nat) {
    d.Intent? && d.remaining > 0 && d.reserved == d.remaining * bucket && d.feeBuffer < U64
  }

  lemma FundedDrawable(d: Data, bucket: nat)
    requires FundedOrder(d, bucket)
    ensures Drawable(d, bucket) && (d.remaining > 1 ==> FundedOrder(Drawn(d, bucket), bucket))
    ensures Drawn(d, bucket).Intent? && Drawn(d, bucket).side == d.side && Drawn(d, bucket).expiration == d.expiration
    ensures Drawn(d, bucket).remaining == d.remaining - 1
  {
    ShareFits(d, bucket);
  }

  /** Taking a contract from a live order takes one from the total of its side and leaves the other. */
  lemma DrawCounts(r: map<nat, Order>, i: nat, bucket: nat, w: Which, now: nat)
    requires Funded(r, bucket) && i in r && r[i].data.expiration > now
    ensures Funded(DrawnFrom(r, i, bucket), bucket)
    ensures var gone := if r[i].data.side == w then 1 else 0;
      LiveContracts(DrawnFrom(r, i, bucket), w, now) == LiveContracts(r, w, now) - gone
  {
    FundedDrawable(r[i].data, bucket);
    if r[i].data.remaining == 1 {
      SumDrop(r, LiveOn(w, now), i);
    } else {
      SumPut(r, LiveOn(w, now), i, r[i].(data := Drawn(r[i].data, bucket)));
    }
  }

  /** After one contract is taken from a bid and one from an ask. */
  lemma PairCounts(r: map<nat, Order>, i: nat, j: nat, bucket: nat, now: nat)
    requires Funded(r, bucket) && i in r && j in r && i != j && r[i].data.expiration > now && r[j].data.expiration > now
    requires r[i].data.side == Long && r[j].data.side == Short
    ensures var r' := DrawnFrom(DrawnFrom(r, i, bucket), j, bucket);
      && Funded(r', bucket) && LiveContracts(r', Long, now) == LiveContracts(r, Long, now) - 1
      && LiveContracts(r', Short, now) == LiveContracts(r, Short, now) - 1
  {
    DrawCounts(r, i, bucket, Long, now);
    DrawCounts(r, i, bucket, Short, now);
    DrawCounts(DrawnFrom(r, i, bucket), j, bucket, Long, now);
    DrawCounts(DrawnFrom(r, i, bucket), j, bucket, Short, now);
  }

  lemma CountsNonNegative(r: map<nat, Order>, w: Which, now: nat)
    ensures LiveContracts(r, w, now) >= 0
  {
    SumNonNegative(r, LiveOn(w, now));
  }

  // ----- the best pair -------------------------------------------------------------------------------------

  /** Order i is live on side w of r, and no live order of that side comes before it. */
  ghost predicate BestIn(r: map<nat, Order>, w: Which, now: nat, i: nat)
    requires !w.Seats?
  {
    && i in r && LiveSide(r[i].data, w, now)
    && forall j :: j in r && LiveSide(r[j].data, w, now) ==> !Less(w, r[j].data, r[i].data)
  }

  predicate LiveSide(d: Data, w: Which, now: nat) { d.Intent? && d.side == w && d.remaining > 0 && d.expiration > now }

  /** The best live order of a tree is the best of the resting orders. */
  lemma BestOfBook(b: Book, w: Which, now: nat, i: nat)
    requires Tidy(b) && !w.Seats? && BestLive(b, w, now, i)
    ensures BestIn(OrdersOf(b.nodes[..]), w, now, i) && OrdersOf(b.nodes[..])[i].data == b.nodes[i].data
  {
    var r := OrdersOf(b.nodes[..]);
    assert TaggedAt(b.nodes[..][i], b.layout.roles[i]);
    InOrders(b, i);
    forall j | j in r && LiveSide(r[j].data, w, now) ensures !Less(w, r[j].data, r[i].data) {
      assert TaggedAt(b.nodes[..][j], b.layout.roles[j]);
      assert On(b, w, j);
    }
  }

  /** A fill: the position's entry, and the limits of the two traders. */
  datatype Fill = Fill(entry: nat, bid: nat, ask: nat)

  /** The fill is of the best bid i with the best ask j, which cross, at their midpoint. */
  ghost predicate FillsBest(r: map<nat, Order>, fill: Fill, i: nat, j: nat, now: nat) {
    && BestIn(r, Long, now, i) && BestIn(r, Short, now, j)
    && fill.bid == r[i].data.price && fill.ask == r[j].data.price && fill.ask <= fill.bid
    && fill.entry == PriceMidpoint(fill.bid, fill.ask)
  }

  /** One best pair, resolved and filled. */
  method FillBest(b: Book, bucket: nat, now: nat) returns (done: bool, fill: Fill, ghost i: nat, ghost j: nat)
    requires Tidy(b) && Funded(OrdersOf(b.nodes[..]), bucket)
    modifies b`longRoot, b`shortRoot, b`seatRoot, b`freelistHead, b`layout, b.nodes
    ensures Tidy(b) && Funded(OrdersOf(b.nodes[..]), bucket)
    ensures done ==> (forall i: nat, j: nat :: !CrossingPair(b, now, i, j)) && b.nodes[..] == old(b.nodes[..])
    ensures !done ==> FillsBest(OrdersOf(old(b.nodes[..])), fill, i, j, now)
    ensures !done ==> OrdersOf(b.nodes[..]) == DrawnFrom(DrawnFrom(OrdersOf(old(b.nodes[..])), i, bucket), j, bucket)
  {
    hide OrdersOf, Funded, LiveContracts, DrawnFrom, Drawable, ReleaseOfOne, PriceMidpoint, TreeSound, FreeSound,
      Tagged, Intents, OneSeatEach, BestIn, BestLive, CrossingPair;
    fill, i, j := Fill(0, 0, 0), 0, 0;
    var best := ScanForFirstValidPair(b, now);
    if best.None? { return true, fill, i, j; }
    ghost var r := OrdersOf(b.nodes[..]);
    var pair := ResolveBest(b, now, best.value);
    i, j := pair.long, pair.short;
    FundedPair(b, pair, bucket, now);
    BestOfBook(b, Long, now, i);
    BestOfBook(b, Short, now, j);
    var (long, short) := (b.nodes[pair.long].data, b.nodes[pair.short].data);
    fill := Fill(PriceMidpoint(long.price, short.price), long.price, short.price);
    PairCounts(r, i, j, bucket, now);
    var freed := TakeContracts(b, pair, bucket);
    assert freed.Ok?;
    done := false;
  }

  /** The pair the scan found resolves. */
  method ResolveBest(b: Book, now: nat, best: (nat, nat)) returns (pair: Pair)
    requires Tidy(b) && exists i: nat, j: nat ::
      (&& CrossingPair(b, now, i, j) && BestLive(b, Long, now, i) && BestLive(b, Short, now, j)
       && best == (b.nodes[i].data.id, b.nodes[j].data.id))
    ensures Fillable(b.nodes[..], pair.long, pair.short, now)
    ensures BestLive(b, Long, now, pair.long) && BestLive(b, Short, now, pair.short)
  {
    ghost var i: nat, j: nat :| CrossingPair(b, now, i, j) && BestLive(b, Long, now, i) && BestLive(b, Short, now, j)
      && best == (b.nodes[i].data.id, b.nodes[j].data.id);
    CrossingIsFillable(b, now, i, j);
    OneId(b, i, j);
    hide Tidy, CrossingPair, BestLive;
    var found := Filling.Resolve(b, best.0, best.1, now);
    assert found.Ok?;
    pair := found.value;
  }

  lemma FundedPair(b: Book, pair: Pair, bucket: nat, now: nat)
    requires Tidy(b) && Funded(OrdersOf(b.nodes[..]), bucket) && Fillable(b.nodes[..], pair.long, pair.short, now)
    ensures var (r, i, j) := (OrdersOf(b.nodes[..]), pair.long, pair.short);
      && i in r && j in r && i != j && r[i].data == b.nodes[i].data && r[j].data == b.nodes[j].data
      && b.nodes[i].data.feeBuffer < U64 && b.nodes[j].data.feeBuffer < U64
      && b.nodes[i].data.reserved >= bucket && b.nodes[j].data.reserved >= bucket
  {
    InOrders(b, pair.long);
    InOrders(b, pair.short);
    hide Tidy, OrdersOf;
    OneLess(b.nodes[pair.long].data.remaining, bucket);
    OneLess(b.nodes[pair.short].data.remaining, bucket);
  }

  lemma OneId(b: Book, i: nat, j: nat)
    requires Tidy(b)
    ensures forall k: nat ::
      IntentAt(b.nodes[..], k) && IntentAt(b.nodes[..], i) && b.nodes[k].data.id == b.nodes[i].data.id ==> k == i
    ensures forall k: nat ::
      IntentAt(b.nodes[..], k) && IntentAt(b.nodes[..], j) && b.nodes[k].data.id == b.nodes[j].data.id ==> k == j
  {
  }

  // ----- to exhaustion --------------------------------------------------------------------------------------

  /** The orders after one contract is taken from each bid and ask listed, in turn. */
  ghost function Drained(r: map<nat, Order>, pairs: seq<(nat, nat)>, bucket: nat): map<nat, Order> {
    if pairs == [] then r else
      var (before, pair) := (Drained(r, pairs[..|pairs| - 1], bucket), pairs[|pairs| - 1]);
      DrawnFrom(DrawnFrom(before, pair.0, bucket), pair.1, bucket)
  }

  /** Each fill is of the best pair of what the fills before it left. */
  ghost predicate AllBest(r: map<nat, Order>, fills: seq<Fill>, pairs: seq<(nat, nat)>, bucket: nat, now: nat) {
    && |fills| == |pairs|
    && forall k :: 0 <= k < |fills| ==> FillsBest(Drained(r, pairs[..k], bucket), fills[k], pairs[k].0, pairs[k].1, now)
  }

  lemma OneMoreFill(r: map<nat, Order>, fills: seq<Fill>, pairs: seq<(nat, nat)>, bucket: nat, now: nat, fill: Fill,
                    i: nat, j: nat)
    requires AllBest(r, fills, pairs, bucket, now) && FillsBest(Drained(r, pairs, bucket), fill, i, j, now)
    ensures AllBest(r, fills + [fill], pairs + [(i, j)], bucket, now)
    ensures var left := Drained(r, pairs, bucket);
      Drained(r, pairs + [(i, j)], bucket) == DrawnFrom(DrawnFrom(left, i, bucket), j, bucket)
  {
    var longer := pairs + [(i, j)];
    assert longer[..|pairs|] == pairs;
    forall k | 0 <= k < |fills| ensures longer[..k] == pairs[..k] {}
  }

  /** Taking a best pair takes a live contract from each side. */
  lemma BestCounts(r: map<nat, Order>, fill: Fill, i: nat, j: nat, bucket: nat, now: nat)
    requires Funded(r, bucket) && FillsBest(r, fill, i, j, now)
    ensures var r' := DrawnFrom(DrawnFrom(r, i, bucket), j, bucket);
      && Funded(r', bucket) && LiveContracts(r', Long, now) == LiveContracts(r, Long, now) - 1
      && LiveContracts(r', Short, now) == LiveContracts(r, Short, now) - 1
  {
    hide Funded, LiveContracts, DrawnFrom;
    PairCounts(r, i, j, bucket, now);
  }

  /** Repeated until nothing crosses: it stops, after no more fills than either side had live contracts,
      each of the best pair left, at the floor of the mean of the two limits and so within both. */
  method MatchToExhaustion(b: Book, bucket: nat, now: nat) returns (fills: seq<Fill>, ghost pairs: seq<(nat, nat)>)
    requires Tidy(b) && Funded(OrdersOf(b.nodes[..]), bucket)
    modifies b`longRoot, b`shortRoot, b`seatRoot, b`freelistHead, b`layout, b.nodes
    ensures Tidy(b) && forall i: nat, j: nat :: !CrossingPair(b, now, i, j)
    ensures AllBest(OrdersOf(old(b.nodes[..])), fills, pairs, bucket, now)
    ensures OrdersOf(b.nodes[..]) == Drained(OrdersOf(old(b.nodes[..])), pairs, bucket)
    ensures forall k :: 0 <= k < |fills| ==>
      fills[k].ask <= fills[k].entry == (fills[k].ask + fills[k].bid) / 2 <= fills[k].bid
    ensures |fills| <= LiveContracts(OrdersOf(old(b.nodes[..])), Long, now)
    ensures |fills| <= LiveContracts(OrdersOf(old(b.nodes[..])), Short, now)
  {
    hide OrdersOf, Funded, LiveContracts, CrossingPair, Tidy, AllBest, FillsBest, Drained, DrawnFrom;
    ghost var r := OrdersOf(b.nodes[..]);
    fills, pairs := [], [];
    NoFills(r, bucket, now);
    while true
      invariant Tidy(b) && Funded(OrdersOf(b.nodes[..]), bucket)
      invariant AllBest(r, fills, pairs, bucket, now) && OrdersOf(b.nodes[..]) == Drained(r, pairs, bucket)
      invariant LiveContracts(OrdersOf(b.nodes[..]), Long, now) == LiveContracts(r, Long, now) - |fills|
      invariant LiveContracts(OrdersOf(b.nodes[..]), Short, now) == LiveContracts(r, Short, now) - |fills|
      decreases LiveContracts(OrdersOf(b.nodes[..]), Long, now)
    {
      CountsNonNegative(OrdersOf(b.nodes[..]), Long, now);
      CountsNonNegative(OrdersOf(b.nodes[..]), Short, now);
      ghost var was := OrdersOf(b.nodes[..]);
      var done, fill;
      ghost var i, j;
      done, fill, i, j := FillBest(b, bucket, now);
      if done {
        EntriesBetween(r, fills, pairs, bucket, now);
        return;
      }
      BestCounts(was, fill, i, j, bucket, now);
      CountsNonNegative(OrdersOf(b.nodes[..]), Long, now);
      OneMoreFill(r, fills, pairs, bucket, now, fill, i, j);
      fills, pairs := fills + [fill], pairs + [(i, j)];
    }
  }

  lemma NoFills(r: map<nat, Order>, bucket: nat, now: nat)
    ensures AllBest(r, [], [], bucket, now) && Drained(r, [], bucket) == r
  {
  }

  lemma EntriesBetween(r: map<nat, Order>, fills: seq<Fill>, pairs: seq<(nat, nat)>, bucket: nat, now: nat)
    requires AllBest(r, fills, pairs, bucket, now)
    ensures forall k :: 0 <= k < |fills| ==>
      fills[k].ask <= fills[k].entry == (fills[k].ask + fills[k].bid) / 2 <= fills[k].bid
  {
    hide PriceMidpoint, BestIn, Drained;
    forall k | 0 <= k < |fills|
      ensures fills[k].ask <= fills[k].entry == (fills[k].ask + fills[k].bid) / 2 <= fills[k].bid
    {
      MidpointIsFloorMean(fills[k].ask, fills[k].bid);
    }
  }

  // ----- the whole instruction ---------------------------------------------------------------------------------

  /** On the ledger a match takes the same contracts off the book. */
  lemma MatchDrains(st: State, m: nat, kl: Key, ks: Key, fee: nat, now: nat, r: map<nat, Order>, r': map<nat, Order>)
    requires CanMatch(st, kl, ks, fee, now) && kl.0 == m && MapsTo(st.orders, m, r)
    requires MapsTo(MatchedPair(st, kl, ks, fee, now).orders, m, r')
    ensures r' == DrawnFrom(DrawnFrom(r, kl.1, st.markets[m].bucket), ks.1, st.markets[m].bucket)
  {
    assert kl == (m, kl.1) && ks == (m, ks.1) && kl != ks;
    Trading.DrawMirrors2(st, m, r, kl.1, ks.1);
    hide DrawnFrom, ReleaseOfOne, SizeOf, Purse, Consumed2;
  }

  /** A match on the book and the ledger takes a live contract from each side. */
  lemma MatchCounts(st: State, m: nat, kl: Key, ks: Key, fee: nat, now: nat, r: map<nat, Order>, r': map<nat, Order>)
    requires Inv(st) && CanMatch(st, kl, ks, fee, now) && kl.0 == m && Funded(r, st.markets[m].bucket)
    requires MapsTo(st.orders, m, r) && MapsTo(MatchedPair(st, kl, ks, fee, now).orders, m, r')
    ensures LiveContracts(r', Long, now) == LiveContracts(r, Long, now) - 1
    ensures LiveContracts(r', Short, now) == LiveContracts(r, Short, now) - 1
  {
    assert kl == (m, kl.1) && ks == (m, ks.1) && kl.1 in r && ks.1 in r;
    hide Inv, LiveContracts, Funded, MatchedPair, DrawnFrom, SizeOf, Purse;
    MatchDrains(st, m, kl, ks, fee, now, r, r');
    PairCounts(r, kl.1, ks.1, st.markets[m].bucket, now);
  }

  /** Whose volume accounts the next match needs: the traders of the best pair, if it crosses. */
  method NextTraders(x: Exchange, m: nat, b: Book, now: nat) returns (traders: Option<(nat, nat)>)
    requires Inv(x.View()) && Mirrors(x, m, b)
    ensures traders.Some? <==> exists i: nat, j: nat :: CrossingPair(b, now, i, j)
    ensures traders.Some? ==> traders.value.0 in x.accounts && traders.value.1 in x.accounts
  {
    hide Inv, OrdersOf, MapsTo, Covered, TreeSound, FreeSound, Tagged, Intents, OneSeatEach, CrossingPair, BestLive;
    var best := ScanForFirstValidPair(b, now);
    if best.None? { return None; }
    ghost var i: nat, j: nat :| CrossingPair(b, now, i, j);
    var pair := ResolveBest(b, now, best.value);
    assert CrossingPair(b, now, i, j);
    Trading.Known(x, m, b, pair.long);
    Trading.Known(x, m, b, pair.short);
    Trading.SeatOf(b, pair.long);
    Trading.SeatOf(b, pair.short);
    traders := Some((b.nodes[b.nodes[pair.long].data.ownerSeat].data.trader,
                     b.nodes[b.nodes[pair.short].data.ownerSeat].data.trader));
  }

  lemma MatchKeeps(st: State, kl: Key, ks: Key, fee: nat, now: nat)
    requires Inv(st) && CanMatch(st, kl, ks, fee, now)
    ensures var st' := MatchedPair(st, kl, ks, fee, now);
      Inv(st') && st'.accounts.Keys == st.accounts.Keys && st'.markets == st.markets
  {
    MatchKeepsInv(st, kl, ks, fee, now);
    InvFits(st);
    hide Inv, Fit, OrderOk, Matched, MatchedPair, PositionOk, PositionsOk, OrdersOk, MarketsOk, SizeOf, Purse;
    var pk, p := MatchOpens(st, kl, ks, fee, now);
    MatchFrame(st, kl, ks, pk, p, fee);
  }

  /** The best pair of `left`, the orders of market m in `last`, crosses and cannot be matched, for the reason
      `ending`. */
  ghost predicate Stuck(last: State, left: map<nat, Order>, m: nat, kl: Key, ks: Key, fee: nat, served: bool,
                        ending: Ending, now: nat) {
    && Crossing(last, kl, ks, now) && ending == EndingOf(last, kl, ks, fee, served) != Done
    && kl.0 == ks.0 == m && MapsTo(last.orders, m, left) && BestIn(left, Long, now, kl.1)
    && BestIn(left, Short, now, ks.1)
  }

  /** One MatchBestAvailable with the volume accounts of the best pair. */
  method MatchNext(x: Exchange, m: nat, b: Book, schedule: Schedule.FeeSchedule, volumes: map<nat, Volume.UserVolume>,
                   now: nat)
      returns (ok: bool, ghost kl: Key, ghost ks: Key, ghost fee: nat, ghost served: bool, ghost ending: Option<Ending>)
    requires Inv(x.View()) && Mirrors(x, m, b) && schedule.Valid() && now < U64
    requires x.accounts.Keys <= volumes.Keys && forall t :: t in volumes ==> volumes[t].Valid()
    modifies x, b, b.nodes, volumes.Values
    ensures Mirrors(x, m, b)
    ensures ok ==> Inv(x.View()) && x.accounts.Keys == old(x.accounts).Keys
    ensures ok ==> forall t :: t in volumes ==> volumes[t].Valid()
    ensures ok ==>
      LiveContracts(OrdersOf(b.nodes[..]), Long, now) == LiveContracts(OrdersOf(old(b.nodes[..])), Long, now) - 1
    ensures ok ==>
      LiveContracts(OrdersOf(b.nodes[..]), Short, now) == LiveContracts(OrdersOf(old(b.nodes[..])), Short, now) - 1
    ensures !ok && ending.None? ==> x.View() == old(x.View()) && forall i: nat, j: nat :: !CrossingPair(b, now, i, j)
    ensures !ok && ending.Some? ==>
      Stuck(old(x.View()), OrdersOf(old(b.nodes[..])), m, kl, ks, fee, served, ending.value, now)
  {
    hide Inv, Tidy, MapsTo, Covered, OrdersOf, OrderOk, MatchedPair, CanMatch, Crossing, LiveContracts, Funded, BestIn,
      BestLive, CrossingPair, EndingOf, Trading.Ends, Trading.Roomy;
    ghost var (was, r) := (x.View(), OrdersOf(b.nodes[..]));
    ok, kl, ks, fee, served, ending := false, (m, 0), (m, 0), 0, true, None;
    var traders := NextTraders(x, m, b, now);
    if traders.None? { return; }
    ghost var i: nat, j: nat :| CrossingPair(b, now, i, j);
    BookFunded(x, m, b);
    BestAreBest(b, now);
    var charged;
    var (long, short) := (volumes[traders.value.0], volumes[traders.value.1]);
    served := Trading.Roomy(long, short, x.markets[m].bucket, now);
    ok, charged, kl, ks, ending := Trading.MatchBestAvailable(x, m, b, true, schedule, long, short, now);
    fee := charged;
    if ending.Some? { EndsWhere(was, x.View(), m, kl, ks, fee, served, ending.value, now); }
    if ok {
      MatchKeeps(was, kl, ks, fee, now);
      MatchCounts(was, m, kl, ks, fee, now, r, OrdersOf(b.nodes[..]));
    }
  }

  lemma EndsWhere(was: State, now': State, m: nat, kl: Key, ks: Key, fee: nat, served: bool, ending: Ending, now: nat)
    requires Trading.Ends(was, now', m, kl, ks, fee, served, ending, now)
    ensures kl.0 == ks.0 == m && Crossing(was, kl, ks, now) && ending == EndingOf(was, kl, ks, fee, served)
  {
    hide Crossing, EndingOf;
  }

  /** MatchBestAvailable repeated by its caller, with every trader's volume account at hand: it stops after no
      more matches than either side had live contracts, because nothing crosses any more, or because the best
      pair left, in the state `last` with orders `left`, cannot be matched for the reason `ending`. */
  method MatchAll(x: Exchange, m: nat, b: Book, schedule: Schedule.FeeSchedule, volumes: map<nat, Volume.UserVolume>,
                  now: nat)
      returns (n: nat, ghost last: State, ghost left: map<nat, Order>, ghost kl: Key, ghost ks: Key, ghost fee: nat,
               ghost served: bool,
               ghost ending: Option<Ending>)
    requires Inv(x.View()) && Mirrors(x, m, b) && schedule.Valid() && now < U64
    requires x.accounts.Keys <= volumes.Keys && forall t :: t in volumes ==> volumes[t].Valid()
    modifies x, b, b.nodes, volumes.Values
    ensures n <= LiveContracts(OrdersOf(old(b.nodes[..])), Long, now)
    ensures n <= LiveContracts(OrdersOf(old(b.nodes[..])), Short, now)
    ensures Mirrors(x, m, b) && Inv(last)
    ensures ending.None? ==> x.View() == last && forall i: nat, j: nat :: !CrossingPair(b, now, i, j)
    ensures ending.Some? ==> Stuck(last, left, m, kl, ks, fee, served, ending.value, now)
  {
    hide Inv, Mirrors, OrdersOf, LiveContracts, CrossingPair, Stuck;
    ghost var r := OrdersOf(b.nodes[..]);
    n := 0;
    while true
      invariant Mirrors(x, m, b) && Inv(x.View()) && x.accounts.Keys == old(x.accounts).Keys
      invariant forall t :: t in volumes ==> volumes[t].Valid()
      invariant LiveContracts(OrdersOf(b.nodes[..]), Long, now) == LiveContracts(r, Long, now) - n
      invariant LiveContracts(OrdersOf(b.nodes[..]), Short, now) == LiveContracts(r, Short, now) - n
      decreases LiveContracts(OrdersOf(b.nodes[..]), Long, now)
    {
      CountsNonNegative(OrdersOf(b.nodes[..]), Long, now);
      CountsNonNegative(OrdersOf(b.nodes[..]), Short, now);
      last, left := x.View(), OrdersOf(b.nodes[..]);
      var ok;
      ok, kl, ks, fee, served, ending := MatchNext(x, m, b, schedule, volumes, now);
      if !ok { return; }
      CountsNonNegative(OrdersOf(b.nodes[..]), Long, now);
      n := n + 1;
    }
  }

  lemma BestAreBest(b: Book, now: nat)
    requires Tidy(b)
    ensures forall i: nat :: BestLive(b, Long, now, i) ==> BestIn(OrdersOf(b.nodes[..]), Long, now, i)
    ensures forall i: nat :: BestLive(b, Short, now, i) ==> BestIn(OrdersOf(b.nodes[..]), Short, now, i)
  {
    hide Tidy, BestLive, BestIn, OrdersOf;
    forall i: nat | BestLive(b, Long, now, i)
      ensures BestIn(OrdersOf(b.nodes[..]), Long, now, i)
    {
      BestOfBook(b, Long, now, i);
    }
    forall i: nat | BestLive(b, Short, now, i)
      ensures BestIn(OrdersOf(b.nodes[..]), Short, now, i)
    {
      BestOfBook(b, Short, now, i);
    }
  }

  /** With nothing crossing, every live bid is below every live ask, the best ones included. */
  lemma UncrossedMeansSpread(b: Book, now: nat, i: nat, j: nat)
    requires (forall i: nat, j: nat :: !CrossingPair(b, now, i, j)) && BestLive(b, Long, now, i)
    requires BestLive(b, Short, now, j)
    ensures b.nodes[i].data.price < b.nodes[j].data.price
  {
    assert !CrossingPair(b, now, i, j);
  }

  /** In every reachable state a book is funded, so the above applies to it. */
  lemma BookFunded(x: Exchange, m: nat, b: Book)
    requires Inv(x.View()) && Mirrors(x, m, b)
    ensures Funded(OrdersOf(b.nodes[..]), x.markets[m].bucket)
  {
    var r := OrdersOf(b.nodes[..]);
    forall i | i in r ensures FundedOrder(r[i].data, x.markets[m].bucket) {
      Trading.Known(x, m, b, i);
    }
  }
}
