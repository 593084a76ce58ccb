/** Who is refused and who is chosen, in plain terms: the refusals of a post and a claim, and the counterparty of an
    order just posted. */
module Limits {
  import opened Nodes
  import opened IntentBook
  import opened Matcher
  import opened Desk
  import opened Posting
  import opened FixedPoint
  import opened Ledger
  import opened Operations
  import opened Reentry
  import opened Exchange
  import opened Ordering
  import opened Inline
  import opened Trading
  import Filling
  import opened Rules
  import opened Sizes
  import Volume
  import Schedule

  // ----- refusals -------------------------------------------------------------------------------------------

  /** A post whose price is on the tick is never refused for its price; any other is, once it has a side and
      contracts. */
  lemma PriceRefused(x: Exchange, m: nat, b: Book, t: nat, terms: Terms, now: nat, found: seq<nat>)
    requires m in x.markets && t in x.accounts && x.markets[m].tick > 0
    ensures var refusal := Refusal(x, m, b, t, terms, now, found);
      refusal == Some(InvalidPriceRange) || refusal == Some(PriceNotTickAligned) <==>
        && !terms.side.Seats? && terms.contracts > 0
        && !(0 < terms.price < 1_000_000_000_000_000_000 && terms.price % x.markets[m].tick == 0)
  {
    if !terms.side.Seats? && terms.contracts > 0 { PriceRule(x.markets[m], terms, b.cachedMaxFeeBps, now); }
    NoPriceThere(x.markets[m], terms, b.cachedMaxFeeBps, now);
    hide Quote, Takes;
  }

  lemma NoPriceThere(market: Market, terms: Terms, feeBps: nat, now: nat)
    ensures terms.side.Seats? ==> Quote(market, terms, feeBps, now) == Err(InvalidSide)
    ensures !terms.side.Seats? && terms.contracts == 0 ==>
      Quote(market, terms, feeBps, now) == Err(InvalidContractCount)
    ensures var quote := Quote(market, terms, feeBps, now);
      quote.Err? ==> quote.error != InsufficientFree && quote.error != BookLimit
  {
  }

  /** The terms of a post, by themselves. */
  predicate Sound(market: Market, terms: Terms, feeBps: nat, now: nat) {
    && (terms.side == Long || terms.side == Short) && terms.contracts > 0 && terms.expiration > now
    && market.tick > 0 && 0 < terms.price < 1_000_000_000_000_000_000 && terms.price % market.tick == 0
    && terms.contracts * market.bucket + terms.contracts * market.bucket * feeBps / 10_000 < TWO_64
  }

  /** A post with sound terms is refused for want of free balance exactly when what it reserves is more than what
      is free and what its own expired orders hold; else for a limit of the book exactly when a slot (with those of
      the orders pruned, and one more for a new trader), the seat's count, an id, or a sequence number is
      wanting; and else it is not refused. */
  lemma RefusalRule(x: Exchange, m: nat, b: Book, t: nat, terms: Terms, now: nat, found: seq<nat>)
    requires m in x.markets && t in x.accounts && x.markets[m].tick > 0 && b.cachedMaxFeeBps < 0x1_0000
    ensures var (refusal, market) := (Refusal(x, m, b, t, terms, now, found), x.markets[m]);
      var needed := terms.contracts * market.bucket + terms.contracts * market.bucket * b.cachedMaxFeeBps / 10_000;
      var (sound, n) := (Sound(market, terms, b.cachedMaxFeeBps, now), |found|);
      var seated := exists i: nat :: i < b.nodes.Length && SeatAt(b.nodes[..], i) && b.nodes[i].data.trader == t;
      var room := && |b.layout.FreeSlots()| + n >= (if seated then 1 else 2)
        && (forall i: nat :: i < b.nodes.Length && SeatAt(b.nodes[..], i) && b.nodes[i].data.trader == t ==>
              (if b.nodes[i].data.activeIntents > n then b.nodes[i].data.activeIntents - n else 0) < 0xFFFF_FFFF)
        && b.nextIntentId + 1 < TWO_64 && b.nextSeq + 1 < TWO_64;
      && (refusal == Some(InsufficientFree) <==> sound && needed > x.accounts[t].free + Held(b.nodes[..], found))
      && (refusal == Some(BookLimit) <==>
        sound && needed <= x.accounts[t].free + Held(b.nodes[..], found) && !room)
      && (refusal.None? <==> sound && needed <= x.accounts[t].free + Held(b.nodes[..], found) && room)
  {
    QuoteRule(x.markets[m], terms, b.cachedMaxFeeBps, now);
    NoPriceThere(x.markets[m], terms, b.cachedMaxFeeBps, now);
    hide Quote;
    assert Seated(b.nodes[..], t) <==>
      exists i: nat :: i < b.nodes.Length && SeatAt(b.nodes[..], i) && b.nodes[i].data.trader == t;
  }

  /** The most contracts a claim looks at: what the free balance would buy without fees, up to 65535. */
  lemma CeilingRule(free: nat, bucket: nat, n: nat)
    requires bucket > 0
    ensures n <= Ceiling(free, bucket) <==> n <= 65_535 && n * bucket <= free
  {
    DivBounds(free, bucket);
    if n <= free / bucket { MulMono(n, free / bucket, bucket); } else { MulMono(free / bucket + 1, n, bucket); }
  }

  /** What a claim may ask for. */
  lemma ClaimableRule(st: State, pk: Key, long: bool, expiration: nat, now: nat)
    requires Fit(st)
    ensures CanClaim(st, pk, long, expiration, now) <==>
      && pk in st.positions && st.positions[pk].status != LIVE && pk.0 in st.markets && expiration > now
      && (if long then st.positions[pk].longReentry && OnTick(st.positions[pk].longPrice, st.markets[pk.0].tick)
          else st.positions[pk].shortReentry && OnTick(st.positions[pk].shortPrice, st.markets[pk.0].tick))
  {
    if pk in st.positions {
      assert PositionOk(st, pk, st.positions[pk]);
      OnTickIff(st.positions[pk].longPrice, st.markets[pk.0].tick);
      OnTickIff(st.positions[pk].shortPrice, st.markets[pk.0].tick);
      hide Fit, ValidatePriceTicked, OnTick;
    }
  }

  // ----- counterparties ---------------------------------------------------------------------------------------

  /** The counterparties of an order that has not expired are exactly those it makes a meeting pair with. */
  lemma CounterpartyIff(st: State, own: Key, k: Key, now: nat)
    requires own in st.orders && st.orders[own].data.Intent? && !st.orders[own].data.side.Seats?
    requires st.orders[own].data.expiration > now
    ensures var d := st.orders[own].data;
      Counterparty(st, own.0, Other(d.side), k, d.price, now) <==>
        if d.side == Long then Meeting(st, own, k, now) else Meeting(st, k, own, now)
  {
  }

  /** The best of them has the best price of all, and the earliest post at that price. */
  lemma BestIsPriceTime(st: State, m: nat, w: Which, k: Key, j: Key, price: nat, now: nat)
    requires !w.Seats? && BestCounterparty(st, m, w, k, price, now) && Counterparty(st, m, w, j, price, now)
    ensures var (d, e) := (st.orders[k].data, st.orders[j].data);
      && (w == Short ==> d.price <= e.price) && (w == Long ==> d.price >= e.price)
      && (d.price == e.price ==> d.postSeq <= e.postSeq)
  {
  }

  /** An order of the ledger is the one in its slot, and its owner the trader of its seat. A slot of the book is
      live on a side exactly when the order there is on that side, not expired, with contracts left; so two slots
      cross exactly when their orders meet. */
  lemma BookMeets(x: Exchange, m: nat, b: Book, i: nat, j: nat, now: nat)
    requires Inv(x.View()) && Mirrors(x, m, b)
    ensures forall w: Which :: w != Seats ==> (On(b, w, i) && Live(b.nodes[i].data, now) <==>
      && (m, i) in x.orders && x.orders[(m, i)].data.Intent? && x.orders[(m, i)].data.side == w
      && x.orders[(m, i)].data.expiration > now && x.orders[(m, i)].data.remaining > 0)
    ensures (m, i) in x.orders ==>
      && i < b.nodes.Length && b.nodes[i].Used? && b.nodes[i].data.Intent?
      && var seat := b.nodes[i].data.ownerSeat;
      && seat < b.nodes.Length && b.nodes[seat].Used? && b.nodes[seat].data.Seat?
      && x.orders[(m, i)] == Order(b.nodes[seat].data.trader, b.nodes[i].data)
    ensures CrossingPair(b, now, i, j) <==> Meeting(x.View(), (m, i), (m, j), now)
  {
    hide OrdersOf, TreeSound, FreeSound, Tagged, Intents, OneSeatEach, AllLevel, VaultGap;
    SlotIs(x, m, b, i);
    SlotIs(x, m, b, j);
  }

  /** What an order of the ledger is on the book. */
  lemma SlotIs(x: Exchange, m: nat, b: Book, i: nat)
    requires Inv(x.View()) && Mirrors(x, m, b)
    ensures (m, i) in x.orders <==> IntentAt(b.nodes[..], i)
    ensures IntentAt(b.nodes[..], i) ==> x.orders[(m, i)].data == b.nodes[i].data && b.nodes[i].data.remaining > 0
    ensures IntentAt(b.nodes[..], i) ==>
      && SeatAt(b.nodes[..], b.nodes[i].data.ownerSeat)
      && x.orders[(m, i)].owner == b.nodes[b.nodes[i].data.ownerSeat].data.trader
    ensures forall w: Which :: w != Seats ==> (On(b, w, i) <==> IntentAt(b.nodes[..], i) && b.nodes[i].data.side == w)
  {
    if IntentAt(b.nodes[..], i) {
      Filling.InOrders(b, i);
      OrderOf(x.View(), (m, i));
    }
    if i < b.nodes.Length { assert TaggedAt(b.nodes[..][i], b.layout.roles[i]); }
    hide Inv, TreeSound, FreeSound;
  }

  // ----- what is pruned ---------------------------------------------------------------------------------------

  /** A post prunes at most four orders, all of them the poster's and expired, and fewer only when there are no
      more; those it leaves come later on the book. */
  lemma PrunedRule(r: map<nat, Order>, t: nat, now: nat, found: seq<nat>, i: nat)
    requires FirstExpiredOf(r, t, now, found)
    ensures |found| <= 4
    ensures i in found ==>
      i in r && r[i].owner == t && r[i].data.Intent? && r[i].data.expiration <= now && r[i].data.remaining > 0
    ensures (i in r && r[i].owner == t && r[i].data.Intent? && r[i].data.expiration <= now && r[i].data.remaining > 0
             && i !in found) ==>
      |found| == 4 && forall k :: k in found ==> k < i
  {
  }

  /** Anyone prunes the first expired orders of a book, as many as there are accounts for. */
  lemma WorkRule(r: map<nat, Order>, now: nat, work: seq<nat>, cap: nat, bound: nat, i: nat)
    requires FirstExpired(r, now, work, cap, bound)
    ensures |work| <= cap
    ensures i in work ==> i in r && r[i].data.Intent? && r[i].data.expiration <= now && r[i].data.remaining > 0
    ensures (i < bound && i in r && r[i].data.Intent? && r[i].data.expiration <= now && r[i].data.remaining > 0
             && i !in work) ==>
      |work| == cap && forall k :: k in work ==> k < i
  {
  }

  /** Places in the list of accounts, in order, that hold the owners. */
  ghost predicate Places(margins: seq<nat>, owners: seq<nat>, at: seq<nat>) {
    && |at| == |owners| && (forall k :: 0 <= k < |at| ==> at[k] < |margins| && margins[at[k]] == owners[k])
    && forall j, k :: 0 <= j < k < |at| ==> at[j] < at[k]
  }

  /** The accounts given serve the owners exactly when the owners are among them in that order. */
  lemma ServesIff(margins: seq<nat>, owners: seq<nat>)
    ensures Serves(margins, owners) <==> exists at: seq<nat> :: Places(margins, owners, at)
  {
    hide Places;
    if Serves(margins, owners) { var _ := ServedAt(margins, owners); }
    forall at: seq<nat> | Places(margins, owners, at) ensures Serves(margins, owners) {
      ServesPlaced(margins, owners, at);
    }
  }

  lemma {:induction false} ServedAt(margins: seq<nat>, owners: seq<nat>) returns (at: seq<nat>)
    requires Serves(margins, owners)
    ensures Places(margins, owners, at)
  {
    if owners == [] {
      at := [];
    } else {
      var first := margins[0] == owners[0];
      var rest := ServedAt(margins[1..], if first then owners[1..] else owners);
      var later := seq(|rest|, k requires 0 <= k < |rest| => rest[k] + 1);
      at := if first then [0] + later else later;
    }
  }

  lemma {:induction false} ServesPlaced(margins: seq<nat>, owners: seq<nat>, at: seq<nat>)
    requires Places(margins, owners, at)
    ensures Serves(margins, owners)
  {
    if owners != [] {
      assert at[0] < |margins|;
      var first := margins[0] == owners[0];
      if !first {
        assert forall k :: 0 <= k < |at| ==> at[k] > 0;
        ServesPlaced(margins[1..], owners, seq(|at|, k requires 0 <= k < |at| => at[k] - 1));
      } else {
        assert forall k :: 1 <= k < |at| ==> at[k] > at[0];
        ServesPlaced(margins[1..], owners[1..], seq(|at| - 1, k requires 0 <= k < |at| - 1 => at[k + 1] - 1));
      }
    }
  }

  // ----- volumes and fees -------------------------------------------------------------------------------------

  /** Epochs are of 6480000 slots, counted from the first. */
  lemma EpochRule(origin: nat, slot: nat, e: nat)
    requires slot >= origin
    ensures Volume.EpochOf(origin, slot) == e <==> origin + e * 6_480_000 <= slot < origin + (e + 1) * 6_480_000
  {
  }

  /** The rate is that of the larger of two epochs' volumes: the one of now, and the one before. */
  lemma RateRule(schedule: Schedule.FeeSchedule, v: Volume.UserVolume, now: nat, bps: nat, volume: nat)
    requires var e := Volume.EpochOf(v.origin, if now < v.epochStart then v.epochStart else now);
      var (current, last) := (Volume.EpochSum(v.origin, v.history, e), Volume.EpochSum(v.origin, v.history, e - 1));
      (volume == current && current >= last) || (volume == last && last >= current)
    ensures RateFor(schedule, v, now, bps) <==>
      schedule.tiers != [] && Schedule.IsFeeFor(schedule.tiers, volume, bps)
  {
    hide Volume.EpochOf, Volume.EpochSum, Schedule.IsFeeFor;
  }

  /** Volume below every threshold pays the first tier's fee, and fees are never above a tenth. */
  lemma FeeRule(tiers: seq<Schedule.Tier>, volume: nat, fee: nat)
    requires tiers != [] && Schedule.IsFeeFor(tiers, volume, fee)
    ensures (forall k :: 0 <= k < |tiers| ==> tiers[k].threshold > volume) ==> fee == tiers[0].feeBps
    ensures Schedule.Capped(tiers) ==> fee <= 1_000
  {
  }
}
