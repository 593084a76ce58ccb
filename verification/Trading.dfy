/** The matching instructions on the exchange's own fields and the book. */
module Trading {
  import Sums
  import opened Nodes
  import opened IntentBook
  import opened Desk
  import opened Posting
  import opened Filling
  import opened Matcher
  import opened FixedPoint
  import opened Fees
  import opened Ledger
  import opened Operations
  import opened Trades
  import opened Settlements
  import opened Margin
  import opened Exchange
  import opened Settling
  import Schedule
  import Volume

  // ----- the book and the ledger's view of it ----------------------------------------------------------------

  /** What the exchange knows of an intent on the book. */
  lemma Known(x: Exchange, m: nat, b: Book, i: nat)
    requires Inv(x.View()) && Mirrors(x, m, b) && IntentAt(b.nodes[..], i)
    ensures (m, i) in x.orders && x.orders[(m, i)] == Order(OwnerAt(b.nodes[..], b.nodes[i].data), b.nodes[i].data)
    ensures OrderOk(x.View(), (m, i), x.orders[(m, i)])
    ensures var d := b.nodes[i].data; d.reserved + d.feeBuffer < U64 && x.markets[m].bucket <= d.reserved
  {
    var k := (m, i);
    InOrders(b, i);
    assert OrderOk(x.View(), k, x.orders[k]);
    DueReserved(x.View(), k);
    RichAccount(x.View(), x.orders[k].owner);
    hide Inv, Tidy;
    OneLess(b.nodes[i].data.remaining, x.markets[m].bucket);
  }

  /** Taking a contract means the same on the ledger and on the book. */
  lemma DrawMirrors(st: State, m: nat, r: map<nat, Order>, i: nat)
    requires MapsTo(st.orders, m, r) && (m, i) in st.orders && OrderOk(st, (m, i), st.orders[(m, i)])
    ensures MapsTo(Consumed(st, (m, i)).orders, m, DrawnFrom(r, i, st.markets[m].bucket))
  {
    ShareFits(st.orders[(m, i)].data, st.markets[m].bucket);
    hide ReleaseOfOne;
  }

  lemma DrawMirrors2(st: State, m: nat, r: map<nat, Order>, i: nat, j: nat)
    requires MapsTo(st.orders, m, r) && i != j && (m, i) in st.orders && (m, j) in st.orders
    requires OrderOk(st, (m, i), st.orders[(m, i)]) && OrderOk(st, (m, j), st.orders[(m, j)])
    ensures MapsTo(Consumed2(st, (m, i), (m, j)).orders, m,
                   DrawnFrom(DrawnFrom(r, i, st.markets[m].bucket), j, st.markets[m].bucket))
  {
    hide MapsTo, Covered, ReleaseOfOne, DrawnFrom;
    DrawMirrors(st, m, r, i);
    ConsumedFrame(st, (m, i));
    var next := Consumed(st, (m, i));
    DrawMirrors(next, m, DrawnFrom(r, i, st.markets[m].bucket), j);
  }

  // ----- margins ------------------------------------------------------------------------------------------------

  /** Two orders' reservations are within their owners' reserved balances, together if one owns both. */
  lemma PortionsReserved(st: State, k: Key, j: Key)
    requires Inv(st) && k != j && k in st.orders && j in st.orders
    ensures OrderOk(st, k, st.orders[k]) && OrderOk(st, j, st.orders[j])
    ensures var (o, p) := (st.orders[k].owner, st.orders[j].owner);
      && Rich(st.accounts[o], Portion(st, k), 0) && Rich(st.accounts[p], Portion(st, j), 0)
      && (o == p ==> Rich(st.accounts[o], Portion(st, k) + Portion(st, j), 0))
  {
    hide AllLevel, Fit, VaultGap, OrderOk, Portion, Due, DueFrom, Level;
    var (o, p) := (st.orders[k].owner, st.orders[j].owner);
    OrdersFine(st, k);
    OrdersFine(st, j);
    PortionWithinDue(st, k);
    PortionWithinDue(st, j);
    DueReserved(st, k);
    DueReserved(st, j);
    RichAccount(st, o);
    RichAccount(st, p);
    if o == p { TwoDues(st, k, j); }
  }

  lemma TwoDues(st: State, k: Key, j: Key)
    requires Inv(st) && k != j && k in st.orders && j in st.orders && st.orders[k].owner == st.orders[j].owner
    ensures st.orders[k].owner in st.accounts
    ensures Due(st.orders[k]) + Due(st.orders[j]) <= st.accounts[st.orders[k].owner].reserved
  {
    var o := st.orders[k].owner;
    OrdersFine(st, k);
    Sums.SumTake(st.orders, DueFrom(o), k);
    Sums.SumBounds(st.orders - {k}, DueFrom(o), j);
  }

  lemma OrdersFine(st: State, k: Key)
    requires Inv(st) && k in st.orders
    ensures OrderOk(st, k, st.orders[k]) && st.orders[k].owner in st.accounts && Level(st, st.orders[k].owner)
  {
  }

  lemma PortionWithinDue(st: State, k: Key)
    requires k in st.orders && OrderOk(st, k, st.orders[k])
    ensures 0 <= Portion(st, k) <= Due(st.orders[k])
  {
    ShareFits(st.orders[k].data, st.markets[k.0].bucket);
  }

  /** One side of a match: a contract's collateral locks, its fee buffer is freed, and the taker's fee
      is paid. Only the fee can be too much, and it comes last. */
  method Stake(b: Balance, c: nat, freed: nat, fee: nat) returns (ok: bool, b': Balance)
    requires Rich(b, c + freed, 0)
    ensures ok <==> fee <= b.free + freed
    ensures b' == Balance(b.free + freed - (if ok then fee else 0), b.reserved - c - freed, b.locked + c)
  {
    var account := new MarginAccount(b);
    ok := account.MoveReservedToLocked(c);
    assert ok;
    if freed > 0 {
      ok := account.MoveReservedToFree(freed);
      assert ok;
    }
    if fee > 0 { ok := account.DebitFree(fee); }
    b' := account.Data();
  }

  /** The margin part of a match, one account after the other. A failure leaves what was moved before
      it. */
  method StakeBoth(x: Exchange, long: nat, short: nat, c: nat, freedLong: nat, freedShort: nat, takerIsLong: bool,
                   fee: nat)
      returns (ok: bool)
    requires long in x.accounts && short in x.accounts
    requires Rich(x.accounts[long], c + freedLong, 0) && Rich(x.accounts[short], c + freedShort, 0)
    requires long == short ==> Rich(x.accounts[long], 2 * c + freedLong + freedShort, 0)
    modifies x`accounts
    ensures ok <==> fee <= if takerIsLong then old(x.accounts)[long].free + freedLong
                           else old(x.accounts)[short].free + freedShort + if long == short then freedLong else 0
    ensures ok ==> x.accounts == Credited(Credited(old(x.accounts),
        Delta(long, freedLong - (if takerIsLong then fee else 0), 0 - (c + freedLong), c)),
        Delta(short, freedShort - (if takerIsLong then 0 else fee), 0 - (c + freedShort), c))
    ensures var one := Credited(old(x.accounts), Delta(long, freedLong, 0 - (c + freedLong), c));
      !ok ==>
        x.accounts == if takerIsLong then one else Credited(one, Delta(short, freedShort, 0 - (c + freedShort), c))
  {
    var balance;
    ok, balance := Stake(x.accounts[long], c, freedLong, if takerIsLong then fee else 0);
    x.accounts := x.accounts[long := balance];
    if !ok { return; }
    ok, balance := Stake(x.accounts[short], c, freedShort, if takerIsLong then 0 else fee);
    x.accounts := x.accounts[short := balance];
  }

  /** Accrues the fee and moves both margins. Only the fee can be too much. */
  method ChargeBoth(x: Exchange, long: nat, short: nat, c: nat, freedLong: nat, freedShort: nat, takerIsLong: bool,
                    fee: nat,
                    ghost purse: int)
      returns (ok: bool)
    requires long in x.accounts && short in x.accounts
    requires Rich(x.accounts[long], c + freedLong, 0) && Rich(x.accounts[short], c + freedShort, 0)
    requires long == short ==> Rich(x.accounts[long], 2 * c + freedLong + freedShort, 0)
    requires purse == if takerIsLong then x.accounts[long].free + freedLong
                      else x.accounts[short].free + freedShort + if long == short then freedLong else 0
    requires 0 <= purse && x.treasury + purse < U64
    modifies x`accounts, x`treasury
    ensures ok <==> fee <= purse
    ensures ok ==> x.treasury == old(x.treasury) + fee && x.accounts == Credited(Credited(old(x.accounts),
        Delta(long, freedLong - (if takerIsLong then fee else 0), 0 - (c + freedLong), c)),
        Delta(short, freedShort - (if takerIsLong then 0 else fee), 0 - (c + freedShort), c))
    ensures !ok && old(x.treasury) + fee >= U64 ==> x.treasury == old(x.treasury) && x.accounts == old(x.accounts)
    ensures var one := Credited(old(x.accounts), Delta(long, freedLong, 0 - (c + freedLong), c));
      !ok && old(x.treasury) + fee < U64 ==>
        && x.treasury == old(x.treasury) + fee
        && x.accounts == if takerIsLong then one else Credited(one, Delta(short, freedShort, 0 - (c + freedShort), c))
  {
    if fee > 0 {
      if x.treasury + fee >= U64 { return false; }
      x.treasury := x.treasury + fee;
    }
    ok := StakeBoth(x, long, short, c, freedLong, freedShort, takerIsLong, fee);
  }

  // ----- fees ---------------------------------------------------------------------------------------------------

  /** The two volume counters can take c each, or 2c when they are one trader's. */
  ghost predicate Roomy(one: Volume.UserVolume, two: Volume.UserVolume, c: nat, now: nat)
    reads one, two
  {
    if one == two then one.HasRoom(2 * c, now) else one.HasRoom(c, now) && two.HasRoom(c, now)
  }

  /** The fee rate of a trader with this much volume. */
  ghost predicate RateFor(schedule: Schedule.FeeSchedule, v: Volume.UserVolume, now: nat, bps: nat)
    reads schedule, v
  {
    var e := Volume.EpochOf(v.origin, v.Counted(now));
    schedule.tiers != []
    && Schedule.IsFeeFor(schedule.tiers,
                         Volume.Max(Volume.EpochSum(v.origin, v.history, e),
                                    Volume.EpochSum(v.origin, v.history, e - 1)), bps)
  }

  /** Looks up the taker's fee. */
  method LookUpFee(schedule: Schedule.FeeSchedule, taker: Volume.UserVolume, c: nat, now: nat)
      returns (fee: nat, bps: nat)
    requires schedule.Valid() && taker.Valid() && now < U64
    ensures RateFor(schedule, taker, now, bps) && bps <= HARD_CAP_BPS && fee == Share(c, bps)
  {
    hide Share, Volume.EpochOf, Volume.EpochSum, Volume.UserVolume.Valid, Volume.Max, Schedule.IsFeeFor;
    var volume := taker.Effective30dVolume(now);
    FeesCapped(schedule.tiers, volume);
    bps := schedule.FeeForVolume(volume);
    fee := Share(c, bps);
  }

  lemma FeesCapped(tiers: seq<Schedule.Tier>, volume: nat)
    requires tiers != [] && Schedule.Capped(tiers)
    ensures forall fee: nat :: Schedule.IsFeeFor(tiers, volume, fee) ==> fee <= HARD_CAP_BPS
  {
  }

  /** Credits both volumes, one after the other; it fails exactly for want of room. */
  method CreditVolumes(taker: Volume.UserVolume, maker: Volume.UserVolume, c: nat, now: nat) returns (ok: bool)
    requires taker.Valid() && maker.Valid() && now < U64
    modifies taker, maker
    ensures ok <==> old(Roomy(taker, maker, c, now))
    ensures ok ==> taker.Valid() && maker.Valid()
    ensures ok && taker != maker ==>
      && taker.history == old(taker.history) + [Volume.Entry(old(taker.Counted(now)), c)]
      && maker.history == old(maker.history) + [Volume.Entry(old(maker.Counted(now)), c)]
    ensures ok && taker == maker ==>
      taker.history == old(taker.history) + [Volume.Entry(old(taker.Counted(now)), c)]
         + [Volume.Entry(old(taker.Counted(now)), c)]
  {
    hide Volume.EpochOf, Volume.EpochSum, Volume.UserVolume.Valid, Volume.UserVolume.Counted;
    ghost var (h, at) := (taker.history, taker.Counted(now));
    ghost var e := Volume.EpochOf(taker.origin, at);
    SumMore(taker.origin, h, Volume.Entry(at, c), e, c);
    ok := taker.AddVolume(c, now);
    if !ok { return; }
    ok := maker.AddVolume(c, now);
  }

  lemma SumMore(origin: nat, h: seq<Volume.Entry>, last: Volume.Entry, e: int, c: nat)
    requires last.amount == c && Volume.EpochOf(origin, last.slot) == e
    ensures Volume.EpochSum(origin, h + [last], e) == Volume.EpochSum(origin, h, e) + c
  {
    assert (h + [last])[..|h|] == h;
  }

  // ----- the book part of a match -----------------------------------------------------------------------------------

  /** Slots i and j of market m hold the orders with these ids. */
  predicate Named(st: State, m: nat, i: nat, j: nat, longId: nat, shortId: nat) {
    && (m, i) in st.orders && (m, j) in st.orders && st.orders[(m, i)].data.Intent? && st.orders[(m, j)].data.Intent?
    && st.orders[(m, i)].data.id == longId && st.orders[(m, j)].data.id == shortId
  }

  /** The book and the ledger agree on which pairs can be filled. */
  lemma SamePairs(x: Exchange, m: nat, b: Book, i: nat, j: nat, longId: nat, shortId: nat, now: nat)
    requires Inv(x.View()) && Mirrors(x, m, b)
    ensures Fillable(b.nodes[..], i, j, now) && b.nodes[i].data.id == longId && b.nodes[j].data.id == shortId
       <==> Named(x.View(), m, i, j, longId, shortId) && Crossing(x.View(), (m, i), (m, j), now)
  {
    if Fillable(b.nodes[..], i, j, now) {
      Known(x, m, b, i);
      Known(x, m, b, j);
    }
    if (m, i) in x.orders && (m, j) in x.orders {
      assert i in OrdersOf(b.nodes[..]) && j in OrdersOf(b.nodes[..]);
    }
  }

  /** No two orders of a book share an id. */
  lemma NamedOnce(x: Exchange, m: nat, b: Book, pair: Pair, longId: nat, shortId: nat)
    requires Mirrors(x, m, b) && Named(x.View(), m, pair.long, pair.short, longId, shortId)
    ensures forall i: nat, j: nat :: Named(x.View(), m, i, j, longId, shortId) ==> i == pair.long && j == pair.short
  {
    forall i: nat, j: nat | Named(x.View(), m, i, j, longId, shortId) ensures i == pair.long && j == pair.short {
      assert i in OrdersOf(b.nodes[..]) && j in OrdersOf(b.nodes[..]) && pair.long in OrdersOf(b.nodes[..])
        && pair.short in OrdersOf(b.nodes[..]);
    }
  }

  /** What the book part hands on: the two intents as they were, whose they are, what they freed, and
      the number of the position. */
  datatype Taken = Taken(pair: Pair, long: Data, short: Data, longTrader: nat, shortTrader: nat, freedLong: nat,
                         freedShort: nat, id: nat)

  /** t describes the pair of orders in st. */
  predicate Describes(t: Taken, st: State, m: nat) {
    var (kl, ks) := ((m, t.pair.long), (m, t.pair.short));
    && kl in st.orders && ks in st.orders && m in st.nextIds && t.id == st.nextIds[m]
    && OrderOk(st, kl, st.orders[kl]) && OrderOk(st, ks, st.orders[ks])
    && st.orders[kl] == Order(t.longTrader, t.long) && st.orders[ks] == Order(t.shortTrader, t.short)
    && t.freedLong == ReleaseOfOne(t.long) && t.freedShort == ReleaseOfOne(t.short)
  }

  /** Contracts of two different orders that a market could give. */
  predicate Givable(st: State, m: nat, pair: Pair) {
    && pair.long != pair.short && (m, pair.long) in st.orders && (m, pair.short) in st.orders
    && OrderOk(st, (m, pair.long), st.orders[(m, pair.long)])
    && OrderOk(st, (m, pair.short), st.orders[(m, pair.short)])
  }

  /** The state once the contracts are off the book. */
  function Given(st: State, m: nat, pair: Pair): State
    requires Givable(st, m, pair)
  {
    Consumed2(st, (m, pair.long), (m, pair.short))
  }

  /** t is the crossing pair with these ids. */
  ghost predicate Picked(t: Taken, st: State, m: nat, longId: nat, shortId: nat, now: nat) {
    && Describes(t, st, m) && Givable(st, m, t.pair) && Named(st, m, t.pair.long, t.pair.short, longId, shortId)
    && Crossing(st, (m, t.pair.long), (m, t.pair.short), now)
    && forall i: nat, j: nat :: Named(st, m, i, j, longId, shortId) ==> i == t.pair.long && j == t.pair.short
  }

  /** Resolves the ids, checks the pair, and takes one contract from each. */
  method DrawPair(x: Exchange, m: nat, b: Book, longId: nat, shortId: nat, now: nat) returns (r: Checked<Taken>)
    requires Inv(x.View()) && Mirrors(x, m, b)
    modifies b`longRoot, b`shortRoot, b`seatRoot, b`freelistHead, b`layout, b.nodes, x`orders
    ensures r.Ok? ==> Picked(r.value, old(x.View()), m, longId, shortId, now)
    ensures r.Ok? ==> x.View() == Given(old(x.View()), m, r.value.pair)
    ensures Mirrors(x, m, b) && (r.Err? ==> x.View() == old(x.View()))
    ensures r.Err? ==> forall i: nat, j: nat ::
      Named(old(x.View()), m, i, j, longId, shortId) ==> !Crossing(old(x.View()), (m, i), (m, j), now)
  {
    hide Inv, Tidy, MapsTo, Covered, DrawnFrom, ReleaseOfOne, OrdersOf, OrderOk, Consumed2;
    ghost var was := x.View();
    var found := Filling.Resolve(b, longId, shortId, now);
    if found.Err? {
      forall i: nat, j: nat ensures Named(was, m, i, j, longId, shortId) ==> !Crossing(was, (m, i), (m, j), now) {
        SamePairs(x, m, b, i, j, longId, shortId, now);
      }
      return Err(found.error);
    }
    var pair := found.value;
    SamePairs(x, m, b, pair.long, pair.short, longId, shortId, now);
    Known(x, m, b, pair.long);
    Known(x, m, b, pair.short);
    NamedOnce(x, m, b, pair, longId, shortId);
    var (long, short) := (b.nodes[pair.long].data, b.nodes[pair.short].data);
    SeatOf(b, pair.long);
    SeatOf(b, pair.short);
    var (longTrader, shortTrader) := (b.nodes[long.ownerSeat].data.trader, b.nodes[short.ownerSeat].data.trader);
    DrawMirrors2(was, m, OrdersOf(b.nodes[..]), pair.long, pair.short);
    var freed := TakeContracts(b, pair, x.markets[m].bucket);
    assert freed.Ok?;
    x.orders := Consumed2(was, (m, pair.long), (m, pair.short)).orders;
    Consumed2Frame(was, (m, pair.long), (m, pair.short));
    r := Ok(Taken(pair, long, short, longTrader, shortTrader, freed.value.0, freed.value.1, b.nextIntentId));
  }

  /** The state once the contracts are off the book and the id is used. */
  function BookDone(st: State, m: nat, pair: Pair): State
    requires m in st.nextIds && Givable(st, m, pair)
  {
    Gone(st, (m, pair.long), (m, pair.short))
  }

  /** Takes the next id of the book, refused only when the counter cannot advance. */
  method TakeId(x: Exchange, m: nat, b: Book) returns (ok: bool)
    requires Mirrors(x, m, b)
    modifies b`nextIntentId, x`nextIds
    ensures ok <==> HasId(old(x.View()), m)
    ensures Mirrors(x, m, b) && x.View() == if ok then Numbered(old(x.View()), m) else old(x.View())
  {
    hide Tidy, MapsTo, Covered, OrdersOf;
    var id := NextIntentId(b);
    ok := id.Some?;
    if ok { x.nextIds := x.nextIds[m := id.value + 1]; }
  }

  lemma SeatOf(b: Book, i: nat)
    requires Tidy(b) && IntentAt(b.nodes[..], i)
    ensures SeatAt(b.nodes[..], b.nodes[i].data.ownerSeat)
    ensures OwnerAt(b.nodes[..], b.nodes[i].data) == b.nodes[b.nodes[i].data.ownerSeat].data.trader
  {
  }

  lemma Consumed2Frame(st: State, k: Key, j: Key)
    requires k != j && k in st.orders && j in st.orders && OrderOk(st, k, st.orders[k]) && OrderOk(st, j, st.orders[j])
    ensures Consumed2(st, k, j) == st.(orders := Consumed2(st, k, j).orders)
  {
  }

  // ----- the whole match --------------------------------------------------------------------------------------------

  /** A match on the fields. */
  lemma MatchedFields(st: State, m: nat, t: Taken, size: nat, fee: nat)
    requires Describes(t, st, m) && Givable(st, m, t.pair)
    ensures var (kl, ks, st1) := ((m, t.pair.long), (m, t.pair.short), BookDone(st, m, t.pair));
      Numbered(Matched(st, kl, ks, (m, t.id), Contract(st, kl, ks, size), fee), m) == st1.(
        accounts := Credited(Credited(st.accounts, LongDelta(st, kl, ks, fee)), ShortDelta(st, kl, ks, fee)),
        positions := st.positions[(m, t.id) := Contract(st, kl, ks, size)],
        treasury := st.treasury + fee)
  {
    var (kl, ks) := ((m, t.pair.long), (m, t.pair.short));
    var gone := Consumed2(st, kl, ks);
    assert st.orders[kl].owner in st.accounts && st.orders[ks].owner in st.accounts;
    hide ReleaseOfOne, OrderOk, Consumed2, Portion;
    Consumed2Frame(st, kl, ks);
    ExchangedFields(gone, LongDelta(st, kl, ks, fee), ShortDelta(st, kl, ks, fee), (m, t.id),
                    Contract(st, kl, ks, size), fee);
  }

  /** A fee within the purse leaves the treasury room for it. */
  lemma TreasuryRoom(st: State, kl: Key, ks: Key)
    requires Inv(st) && kl != ks && kl.0 == ks.0 && kl in st.orders && ks in st.orders
    requires OrderOk(st, kl, st.orders[kl]) && OrderOk(st, ks, st.orders[ks])
    ensures st.treasury + Purse(st, kl, ks) < U64 && st.treasury >= 0
  {
    PortionsReserved(st, kl, ks);
    AccountsFit(st, st.orders[kl].owner, st.orders[ks].owner);
    AccountsFit(st, st.orders[ks].owner, st.orders[ks].owner);
    AccountsFit(st, st.orders[kl].owner, st.orders[kl].owner);
    assert st.treasury >= 0;
    hide Inv, OrderOk, ReleaseOfOne;
  }

  /** What the margin part of a match finds. */
  lemma StakesReady(st: State, m: nat, t: Taken)
    requires Inv(st) && Describes(t, st, m) && Givable(st, m, t.pair)
    ensures var (a, c) := (st.accounts, st.markets[m].bucket);
      && t.longTrader in a && t.shortTrader in a
      && Rich(a[t.longTrader], c + t.freedLong, 0) && Rich(a[t.shortTrader], c + t.freedShort, 0)
      && (t.longTrader == t.shortTrader ==> Rich(a[t.longTrader], 2 * c + t.freedLong + t.freedShort, 0))
  {
    var (kl, ks) := ((m, t.pair.long), (m, t.pair.short));
    PortionsReserved(st, kl, ks);
    hide Inv, ReleaseOfOne;
  }

  lemma DeltasAre(st: State, m: nat, t: Taken, fee: nat)
    requires Describes(t, st, m)
    ensures t.long.Intent? && t.short.Intent? && m in st.markets
    ensures var (kl, ks, c) := ((m, t.pair.long), (m, t.pair.short), st.markets[m].bucket);
      && TakerIsLong(st, kl, ks) == (t.long.postSeq > t.short.postSeq)
      && LongDelta(st, kl, ks, fee) == Delta(t.longTrader, t.freedLong - (if TakerIsLong(st, kl, ks) then fee else 0),
                                             0 - (c + t.freedLong), c)
      && ShortDelta(st, kl, ks, fee) == Delta(t.shortTrader,
                                              t.freedShort - (if TakerIsLong(st, kl, ks) then 0 else fee),
                                              0 - (c + t.freedShort), c)
      && Purse(st, kl, ks)
         == (if TakerIsLong(st, kl, ks) then st.accounts[t.longTrader].free + t.freedLong
             else if t.longTrader == t.shortTrader then st.accounts[t.shortTrader].free + t.freedShort + t.freedLong
             else st.accounts[t.shortTrader].free + t.freedShort)
  {
    hide ReleaseOfOne;
  }

  /** The match completed from where the book part left it. */
  function Completed(st: State, m: nat, t: Taken, size: nat, fee: nat): State
    requires Describes(t, st, m) && Givable(st, m, t.pair)
  {
    var (kl, ks) := ((m, t.pair.long), (m, t.pair.short));
    Numbered(Matched(st, kl, ks, (m, t.id), Contract(st, kl, ks, size), fee), m)
  }

  function EntryOf(t: Taken): nat {
    if t.long.Intent? && t.short.Intent? then PriceMidpoint(t.long.price, t.short.price) else 0
  }

  predicate TakesLong(t: Taken) { t.long.Intent? && t.short.Intent? && t.long.postSeq > t.short.postSeq }

  lemma CompletedFields(st: State, m: nat, t: Taken, size: nat, fee: nat)
    requires Describes(t, st, m) && Givable(st, m, t.pair)
    ensures t.long.Intent? && t.short.Intent? && m in st.markets && t.longTrader in st.accounts
    ensures t.shortTrader in st.accounts
    ensures var (c, st1) := (st.markets[m].bucket, BookDone(st, m, t.pair));
      && st1 == st.(orders := st1.orders, nextIds := st1.nextIds)
      && Completed(st, m, t, size, fee) == st1.(
        accounts := Credited(Credited(st.accounts,
          Delta(t.longTrader, t.freedLong - (if TakesLong(t) then fee else 0), 0 - (c + t.freedLong), c)),
          Delta(t.shortTrader, t.freedShort - (if TakesLong(t) then 0 else fee), 0 - (c + t.freedShort), c)),
        positions := st.positions[(m, t.id) := Position(LIVE, t.longTrader, t.shortTrader, c, EntryOf(t), size,
                                                        t.long.reentry, t.short.reentry, t.long.price, t.short.price)],
        treasury := st.treasury + fee)
  {
    DeltasAre(st, m, t, fee);
    BookDoneFields(st, m, t.pair);
    MatchedFields(st, m, t, size, fee);
    StakersHaveAccounts(st, m, t);
    hide ReleaseOfOne, OrderOk, Consumed2, Matched, Credited, PriceMidpoint;
  }

  lemma StakersHaveAccounts(st: State, m: nat, t: Taken)
    requires Describes(t, st, m)
    ensures t.longTrader in st.accounts && t.shortTrader in st.accounts
  {
  }

  /** What an unpaid fee leaves, on the fields. */
  lemma UnpaidFields(st: State, m: nat, t: Taken, fee: nat)
    requires Describes(t, st, m) && Givable(st, m, t.pair)
    ensures m in st.markets && t.longTrader in st.accounts && t.shortTrader in st.accounts
    ensures var (c, st1) := (st.markets[m].bucket, BookDone(st, m, t.pair));
      var one := Credited(st.accounts, Delta(t.longTrader, t.freedLong, 0 - (c + t.freedLong), c));
      Unpaid(st, (m, t.pair.long), (m, t.pair.short), fee) ==
        if st.treasury + fee >= U64 then st1 else st1.(
          accounts :=
            if TakesLong(t) then one
            else Credited(one, Delta(t.shortTrader, t.freedShort, 0 - (c + t.freedShort), c)),
          treasury := st.treasury + fee)
  {
    StakersHaveAccounts(st, m, t);
    BookDoneFields(st, m, t.pair);
    hide ReleaseOfOne, Consumed2;
  }

  /** What an unsizable pair leaves, on the fields. */
  lemma UnopenedFields(st: State, m: nat, t: Taken, fee: nat)
    requires Describes(t, st, m) && Givable(st, m, t.pair)
    ensures m in st.markets && t.longTrader in st.accounts && t.shortTrader in st.accounts
    ensures var (c, st1) := (st.markets[m].bucket, BookDone(st, m, t.pair));
      Unopened(st, (m, t.pair.long), (m, t.pair.short), fee) == st1.(
        accounts := Credited(Credited(st.accounts,
          Delta(t.longTrader, t.freedLong - (if TakesLong(t) then fee else 0), 0 - (c + t.freedLong), c)),
          Delta(t.shortTrader, t.freedShort - (if TakesLong(t) then 0 else fee), 0 - (c + t.freedShort), c)),
        treasury := st.treasury + fee)
  {
    StakersHaveAccounts(st, m, t);
    DeltasAre(st, m, t, fee);
    BookDoneFields(st, m, t.pair);
    hide ReleaseOfOne, Consumed2, Gone, LongDelta, ShortDelta, OrderOk;
  }

  /** Where the ledger part of a match ends: the fee unpaid, no position opened, or complete. */
  function Finished(st: State, m: nat, t: Taken, fee: nat): State
    requires Describes(t, st, m) && Givable(st, m, t.pair)
  {
    var (kl, ks) := ((m, t.pair.long), (m, t.pair.short));
    if fee > Purse(st, kl, ks) then Unpaid(st, kl, ks, fee) else
      match SizeOf(st.markets[m], EntryOf(t))
      case Err(_) => Unopened(st, kl, ks, fee)
      case Ok(size) => Completed(st, m, t, size, fee)
  }

  /** The ledger part of a match: the fee is accrued, both sides' margins move, and the position opens.
      A failure leaves what was done before it. */
  method FinishMatch(x: Exchange, m: nat, t: Taken, fee: nat, ghost was: State) returns (ok: bool)
    requires Inv(was) && Describes(t, was, m) && Givable(was, m, t.pair) && x.View() == BookDone(was, m, t.pair)
    requires m in was.markets
    modifies x`accounts, x`positions, x`treasury
    ensures ok <==> fee <= Purse(was, (m, t.pair.long), (m, t.pair.short)) && SizeOf(was.markets[m], EntryOf(t)).Ok?
    ensures x.View() == Finished(was, m, t, fee)
  {
    hide Inv, ReleaseOfOne, OrderOk, Consumed2, SizeOf, PriceMidpoint, Credited, Purse, Rich, Completed, BookDone,
      LongDelta, ShortDelta, Unpaid, Unopened;
    ghost var (kl, ks) := ((m, t.pair.long), (m, t.pair.short));
    CompletedFields(was, m, t, 0, fee);
    UnpaidFields(was, m, t, fee);
    UnopenedFields(was, m, t, fee);
    StakesReady(was, m, t);
    DeltasAre(was, m, t, fee);
    TreasuryRoom(was, kl, ks);
    PurseNonNegative(was, kl, ks);
    hide Describes;
    var market := x.markets[m];
    ok := ChargeBoth(x, t.longTrader, t.shortTrader, market.bucket, t.freedLong, t.freedShort,
                     t.long.postSeq > t.short.postSeq,
                     fee, Purse(was, kl, ks));
    if !ok { return; }
    var entry := EntryOf(t);
    var size := SizeOf(market, entry);
    if size.Err? { return false; }
    CompletedFields(was, m, t, size.value, fee);
    x.positions := x.positions[(m, t.id) := Position(LIVE, t.longTrader, t.shortTrader, market.bucket, entry,
                                                     size.value,
                                                     t.long.reentry, t.short.reentry, t.long.price, t.short.price)];
  }

  lemma BookDoneFields(st: State, m: nat, pair: Pair)
    requires m in st.nextIds && Givable(st, m, pair)
    ensures var st1 := BookDone(st, m, pair); st1 == st.(orders := st1.orders, nextIds := st1.nextIds)
  {
    hide OrderOk, Consumed2;
    Consumed2Frame(st, (m, pair.long), (m, pair.short));
  }

  /** The volumes are credited with a trade of c on each side. */
  twostate predicate VolumesCredited(one: Volume.UserVolume, two: Volume.UserVolume, c: nat, now: nat)
    reads one, two
  {
    if one != two then
      && one.history == old(one.history) + [Volume.Entry(old(one.Counted(now)), c)]
      && two.history == old(two.history) + [Volume.Entry(old(two.Counted(now)), c)]
    else
      one.history == old(one.history) + [Volume.Entry(old(one.Counted(now)), c)]
         + [Volume.Entry(old(one.Counted(now)), c)]
  }

  /** The part of a match after its book part. `served` is whether the accounts and volumes serve. */
  method MatchTaken(x: Exchange, m: nat, b: Book, t: Taken, accounts: bool, schedule: Schedule.FeeSchedule,
                    longVolume: Volume.UserVolume, shortVolume: Volume.UserVolume, now: nat, ghost was: State)
      returns (ok: bool, fee: nat, ghost bps: nat, ghost served: bool)
    requires Inv(was) && Describes(t, was, m) && Givable(was, m, t.pair) && x.View() == BookDone(was, m, t.pair)
    requires m in was.markets
    requires Mirrors(x, m, b) && schedule.Valid() && longVolume.Valid() && shortVolume.Valid() && now < U64
    modifies x`accounts, x`positions, x`treasury, longVolume, shortVolume
    ensures Mirrors(x, m, b)
    ensures served == (accounts && old(Roomy(longVolume, shortVolume, x.markets[m].bucket, now)))
    ensures ok <==>
      served && fee <= Purse(was, (m, t.pair.long), (m, t.pair.short)) && SizeOf(was.markets[m], EntryOf(t)).Ok?
    ensures x.View() == if served then Finished(was, m, t, fee) else old(x.View())
    ensures accounts ==>
      && fee == Share(was.markets[m].bucket, bps)
      && old(RateFor(schedule, if TakesLong(t) then longVolume else shortVolume, now, bps))
    ensures served ==> longVolume.Valid() && shortVolume.Valid()
    ensures served ==> VolumesCredited(longVolume, shortVolume, was.markets[m].bucket, now)
  {
    hide Inv, Tidy, MapsTo, Covered, OrdersOf, Describes, OrderOk, Consumed2, SizeOf, PriceMidpoint, Purse, RateFor,
      Share, Finished, Volume.UserVolume.Counted, Volume.UserVolume.HasRoom;
    ok, fee, bps, served := false, 0, 0, false;
    IntentsTaken(was, m, t);
    if !accounts { return; }
    var c := x.markets[m].bucket;
    var longTakes := t.long.postSeq > t.short.postSeq;
    var (taker, maker) := if longTakes then (longVolume, shortVolume) else (shortVolume, longVolume);
    var rate;
    fee, rate := LookUpFee(schedule, taker, c, now);
    bps := rate;
    ok := CreditVolumes(taker, maker, c, now);
    if !ok { return; }
    served := true;
    ok := FinishMatch(x, m, t, fee, was);
  }

  lemma IntentsTaken(st: State, m: nat, t: Taken)
    requires Describes(t, st, m) && Givable(st, m, t.pair)
    ensures t.long.Intent? && t.short.Intent? && BookDone(st, m, t.pair).markets == st.markets
  {
    BookDoneFields(st, m, t.pair);
  }

  /** Orders kl and ks of market m cross, their match ends with `ending`, and the fields are left as `LeftAfter` says,
      whether it succeeds or fails. */
  ghost predicate Ends(was: State, now': State, m: nat, kl: Key, ks: Key, fee: nat, served: bool, ending: Ending,
                       now: nat) {
    && kl.0 == ks.0 == m && m in was.nextIds && Crossing(was, kl, ks, now)
    && ending == EndingOf(was, kl, ks, fee, served) && now' == LeftAfter(was, kl, ks, fee, served, now)
  }

  /** How a match of the intents with these ids ends. With `ending` none, no crossing pair has these ids and
      nothing is changed; else kl and ks are the orders with these ids. */
  ghost predicate MatchEnded(was: State, now': State, m: nat, longId: nat, shortId: nat, kl: Key, ks: Key, fee: nat,
                             served: bool,
                             ending: Option<Ending>, now: nat)
  {
    match ending
    case None =>
      && now' == was
      && forall i: nat, j: nat :: Named(was, m, i, j, longId, shortId) ==> !Crossing(was, (m, i), (m, j), now)
    case Some(e) => Ends(was, now', m, kl, ks, fee, served, e, now) && Named(was, m, kl.1, ks.1, longId, shortId)
  }

  lemma EndsEarly(was: State, m: nat, longId: nat, shortId: nat, kl: Key, ks: Key, served: bool, now: nat)
    requires forall i: nat, j: nat :: Named(was, m, i, j, longId, shortId) ==> !Crossing(was, (m, i), (m, j), now)
    ensures MatchEnded(was, was, m, longId, shortId, kl, ks, 0, served, None, now)
  {
    hide Named, Crossing;
  }

  lemma EndsWithoutId(was: State, m: nat, t: Taken, longId: nat, shortId: nat, served: bool, now: nat)
    requires Picked(t, was, m, longId, shortId, now) && !HasId(was, m)
    ensures MatchEnded(was, Given(was, m, t.pair), m, longId, shortId, (m, t.pair.long), (m, t.pair.short), 0, served,
                       Some(NoId), now)
  {
    hide Consumed2, ReleaseOfOne;
  }

  lemma EndsAtLast(was: State, m: nat, t: Taken, longId: nat, shortId: nat, fee: nat, served: bool, now: nat)
    requires Picked(t, was, m, longId, shortId, now) && HasId(was, m)
    ensures var (kl, ks) := ((m, t.pair.long), (m, t.pair.short));
      && kl in was.orders && ks in was.orders && OrderOk(was, kl, was.orders[kl]) && OrderOk(was, ks, was.orders[ks])
      && var ending := EndingOf(was, kl, ks, fee, served);
      && MatchEnded(was, if served then Finished(was, m, t, fee) else BookDone(was, m, t.pair),
                    m, longId, shortId, kl, ks, fee, served, Some(ending), now)
      && (ending == Done <==> served && fee <= Purse(was, kl, ks) && SizeOf(was.markets[m], EntryOf(t)).Ok?)
  {
    hide ReleaseOfOne, Consumed2, Matched, Unpaid, Unopened, SizeOf, PriceMidpoint, Purse, OrderOk;
  }

  /** A match that is done is a match on the ledger. */
  lemma DoneMeans(was: State, now': State, m: nat, kl: Key, ks: Key, fee: nat, served: bool, now: nat)
    requires Ends(was, now', m, kl, ks, fee, served, Done, now)
    ensures CanMatch(was, kl, ks, fee, now) && now' == MatchedPair(was, kl, ks, fee, now)
  {
    hide MatchedPair, SizeOf, PriceMidpoint, Purse, Consumed2, ReleaseOfOne;
  }

  /** The book part of a match: the pair is drawn and its position numbered. */
  method TakePair(x: Exchange, m: nat, b: Book, longId: nat, shortId: nat, now: nat)
      returns (taken: Option<Taken>, id: bool)
    requires Inv(x.View()) && Mirrors(x, m, b)
    modifies b, b.nodes, x`orders, x`nextIds
    ensures Mirrors(x, m, b)
    ensures taken.None? ==> x.View() == old(x.View()) && forall i: nat, j: nat ::
      Named(old(x.View()), m, i, j, longId, shortId) ==> !Crossing(old(x.View()), (m, i), (m, j), now)
    ensures taken.Some? ==> Picked(taken.value, old(x.View()), m, longId, shortId, now)
    ensures taken.Some? ==>
      (id <==> HasId(old(x.View()), m)) && m in old(x.nextIds) && Givable(old(x.View()), m, taken.value.pair)
    ensures taken.Some? && id ==> x.View() == BookDone(old(x.View()), m, taken.value.pair)
    ensures taken.Some? && !id ==> x.View() == Given(old(x.View()), m, taken.value.pair)
  {
    hide Inv, Tidy, MapsTo, Covered, OrdersOf, Picked, Givable, Describes, Given, BookDone, Named, Crossing;
    id := false;
    var drawn := DrawPair(x, m, b, longId, shortId, now);
    if drawn.Err? { return None, false; }
    taken := Some(drawn.value);
    PickedIs(drawn.value, old(x.View()), m, longId, shortId, now);
    id := TakeId(x, m, b);
  }

  /** MatchPair. `accounts` says that the accounts given are those of the pair, and `bps` is the taker's
      rate. */
  method MatchPair(x: Exchange, m: nat, b: Book, longId: nat, shortId: nat, accounts: bool,
                   schedule: Schedule.FeeSchedule,
                   longVolume: Volume.UserVolume, shortVolume: Volume.UserVolume, now: nat)
      returns (ok: bool, fee: nat, ghost kl: Key, ghost ks: Key, ghost bps: nat, ghost ending: Option<Ending>)
    requires Inv(x.View()) && Mirrors(x, m, b) && schedule.Valid() && longVolume.Valid() && shortVolume.Valid()
    requires now < U64
    modifies x, b, b.nodes, longVolume, shortVolume
    ensures Mirrors(x, m, b) && (ok <==> ending == Some(Done))
    ensures MatchEnded(old(x.View()), x.View(), m, longId, shortId, kl, ks, fee,
                       accounts && old(Roomy(longVolume, shortVolume, x.markets[m].bucket, now)), ending, now)
    ensures ending.Some? && ending != Some(NoId) && accounts ==>
      && kl in old(x.orders) && ks in old(x.orders) && old(x.orders)[kl].data.Intent? && old(x.orders)[ks].data.Intent?
      && fee == Share(old(x.markets)[m].bucket, bps)
      && old(RateFor(schedule, if TakerIsLong(x.View(), kl, ks) then longVolume else shortVolume, now, bps))
    ensures ok ==> longVolume.Valid() && shortVolume.Valid()
    ensures ok ==> VolumesCredited(longVolume, shortVolume, old(x.markets)[m].bucket, now)
  {
    hide Inv, Mirrors, SizeOf, Purse, RateFor, Roomy, Share, Finished, EndingOf, MatchEnded, HasId, OrderOk, Picked,
      Describes, Givable, Given, BookDone, TakerIsLong, Volume.UserVolume.Valid, Volume.UserVolume.Counted;
    MarketHere(x, m, b);
    ghost var was := x.View();
    ok, fee, kl, ks, bps, ending := false, 0, (m, 0), (m, 0), 0, None;
    ghost var served := accounts && Roomy(longVolume, shortVolume, x.markets[m].bucket, now);
    var taken, id := TakePair(x, m, b, longId, shortId, now);
    if taken.None? {
      EndsEarly(was, m, longId, shortId, kl, ks, served, now);
      return;
    }
    var t := taken.value;
    kl, ks := (m, t.pair.long), (m, t.pair.short);
    if !id {
      ending := Some(NoId);
      EndsWithoutId(was, m, t, longId, shortId, served, now);
      return;
    }
    PickedIs(t, was, m, longId, shortId, now);
    var charged;
    ghost var both;
    ok, charged, bps, both := MatchTaken(x, m, b, t, accounts, schedule, longVolume, shortVolume, now, was);
    fee := charged;
    EndsAtLast(was, m, t, longId, shortId, fee, served, now);
    ending := Some(EndingOf(was, kl, ks, fee, served));
  }

  lemma MarketHere(x: Exchange, m: nat, b: Book)
    requires Mirrors(x, m, b)
    ensures m in x.markets
  {
  }

  /** What it is to be picked. */
  lemma PickedIs(t: Taken, st: State, m: nat, longId: nat, shortId: nat, now: nat)
    requires Picked(t, st, m, longId, shortId, now)
    ensures var (kl, ks) := ((m, t.pair.long), (m, t.pair.short));
      && Describes(t, st, m) && Givable(st, m, t.pair) && m in st.markets && m in st.nextIds
      && Named(st, m, kl.1, ks.1, longId, shortId) && Crossing(st, kl, ks, now)
      && kl in st.orders && ks in st.orders && OrderOk(st, kl, st.orders[kl]) && OrderOk(st, ks, st.orders[ks])
      && st.orders[kl].data.Intent? && st.orders[ks].data.Intent?
      && TakesLong(t) == TakerIsLong(st, kl, ks)
    ensures var given := Given(st, m, t.pair);
      m in given.nextIds && HasId(given, m) == HasId(st, m) && given.markets == st.markets
    ensures BookDone(st, m, t.pair) == Numbered(Given(st, m, t.pair), m)
    ensures BookDone(st, m, t.pair).markets == st.markets
  {
    hide ReleaseOfOne, Consumed2;
    Consumed2Frame(st, (m, t.pair.long), (m, t.pair.short));
  }

  /** The scan, in the ledger's terms. */
  method BestPair(x: Exchange, m: nat, b: Book, now: nat) returns (pair: Option<(nat, nat)>, ghost i: nat, ghost j: nat)
    requires Inv(x.View()) && Mirrors(x, m, b)
    ensures pair.Some? ==> BestLive(b, Long, now, i) && BestLive(b, Short, now, j)
    ensures pair.Some? ==>
      Named(x.View(), m, i, j, pair.value.0, pair.value.1) && Crossing(x.View(), (m, i), (m, j), now)
    ensures pair.None? ==> forall i: nat, j: nat :: !CrossingPair(b, now, i, j)
  {
    hide Inv, MapsTo, Covered, OrdersOf, OrderOk, TreeSound, FreeSound, Tagged, Intents, OneSeatEach, BestLive, Named,
      Crossing;
    pair := ScanForFirstValidPair(b, now);
    i, j := 0, 0;
    if pair.Some? {
      i, j :| CrossingPair(b, now, i, j) && BestLive(b, Long, now, i) && BestLive(b, Short, now, j)
              && pair.value == (b.nodes[i].data.id, b.nodes[j].data.id);
      CrossingIsFillable(b, now, i, j);
      SamePairs(x, m, b, i, j, pair.value.0, pair.value.1, now);
    }
  }

  /** MatchBestAvailable: the best live bid with the best live ask, if they cross, with the same endings
      as MatchPair. */
  method MatchBestAvailable(x: Exchange, m: nat, b: Book, accounts: bool, schedule: Schedule.FeeSchedule,
                            longVolume: Volume.UserVolume, shortVolume: Volume.UserVolume, now: nat)
      returns (ok: bool, fee: nat, ghost kl: Key, ghost ks: Key, ghost ending: Option<Ending>)
    requires Inv(x.View()) && Mirrors(x, m, b) && schedule.Valid() && longVolume.Valid() && shortVolume.Valid()
    requires now < U64
    modifies x, b, b.nodes, longVolume, shortVolume
    ensures Mirrors(x, m, b) && (ok <==> ending == Some(Done))
    ensures ending.None? <==> forall i: nat, j: nat :: !old(CrossingPair(b, now, i, j))
    ensures ending.None? ==> x.View() == old(x.View())
    ensures ending.Some? ==> old(BestLive(b, Long, now, kl.1)) && old(BestLive(b, Short, now, ks.1))
    ensures ending.Some? ==>
      Ends(old(x.View()), x.View(), m, kl, ks, fee,
           accounts && old(Roomy(longVolume, shortVolume, x.markets[m].bucket, now)), ending.value, now)
    ensures ok ==> CanMatch(old(x.View()), kl, ks, fee, now) && x.View() == MatchedPair(old(x.View()), kl, ks, fee, now)
    ensures ok ==> longVolume.Valid() && shortVolume.Valid()
  {
    hide Inv, Tidy, MapsTo, Covered, OrdersOf, MatchedPair, CanMatch, RateFor, Roomy, Share, BestLive, CrossingPair,
      Ends, Crossing, Named;
    ok, fee, kl, ks, ending := false, 0, (m, 0), (m, 0), None;
    ghost var was := x.View();
    var pair;
    ghost var i, j, bps;
    pair, i, j := BestPair(x, m, b, now);
    if pair.None? {
      forall i: nat, j: nat ensures !old(CrossingPair(b, now, i, j)) { assert !CrossingPair(b, now, i, j); }
      return;
    }
    NamedOnce(x, m, b, Pair(i, j), pair.value.0, pair.value.1);
    BestCrosses(x, m, b, now, i, j);
    ok, fee, kl, ks, bps, ending :=
      MatchPair(x, m, b, pair.value.0, pair.value.1, accounts, schedule, longVolume, shortVolume, now);
    ghost var served := accounts && old(Roomy(longVolume, shortVolume, x.markets[m].bucket, now));
    if ok { DoneMeans(was, x.View(), m, kl, ks, fee, served, now); }
    if ending.Some? { EndsAtKeys(was, x.View(), m, kl, ks, fee, served, ending.value, now); }
  }

  lemma EndsAtKeys(was: State, now': State, m: nat, kl: Key, ks: Key, fee: nat, served: bool, ending: Ending, now: nat)
    requires Ends(was, now', m, kl, ks, fee, served, ending, now)
    ensures kl == (m, kl.1) && ks == (m, ks.1)
  {
  }

  lemma BestCrosses(x: Exchange, m: nat, b: Book, now: nat, i: nat, j: nat)
    requires Mirrors(x, m, b) && BestLive(b, Long, now, i) && BestLive(b, Short, now, j)
    requires Crossing(x.View(), (m, i), (m, j), now)
    ensures CrossingPair(b, now, i, j)
  {
    assert i in OrdersOf(b.nodes[..]) && j in OrdersOf(b.nodes[..]);
  }
}
