/** Posting with the match tried in the same instruction. */
module Inline {
  import opened Nodes
  import opened IntentBook
  import opened Matcher
  import opened FixedPoint
  import opened Ledger
  import opened Operations
  import opened Trades
  import opened Settlements
  import opened Exchange
  import opened Trading
  import opened Ordering
  import opened Posting
  import Desk
  import Filling
  import Runs
  import Schedule
  import Volume

  /** What became of the match. A failed one is swallowed, with whatever it had already written. */
  datatype Outcome = NoCounterparty | Filled | Swallowed

  function Other(w: Which): Which { if w.Long? then Short else Long }

  /** Order k rests on side w of market m, unexpired, and crosses a taker at `price`. */
  predicate Counterparty(st: State, m: nat, w: Which, k: Key, price: nat, now: nat) {
    && k in st.orders && k.0 == m && st.orders[k].data.Intent? && st.orders[k].data.side == w
    && st.orders[k].data.expiration > now && CrossesTaker(w, st.orders[k].data.price, price)
  }

  /** Order k is a counterparty, and none comes before it in price and time. */
  ghost predicate BestCounterparty(st: State, m: nat, w: Which, k: Key, price: nat, now: nat)
    requires !w.Seats?
  {
    && Counterparty(st, m, w, k, price, now)
    && forall j :: Counterparty(st, m, w, j, price, now) ==> !Less(w, st.orders[j].data, st.orders[k].data)
  }

  /** The posted order and its counterparty, as bid and ask. */
  function PairOf(side: Which, own: Key, other: Key): (Key, Key) { if side.Long? then (own, other) else (other, own) }

  lemma PostKeeps(st: State, op: Runs.Op)
    requires Inv(st) && op.Post? && Runs.Enabled(st, op)
    ensures Inv(Runs.Step(st, op)) && Runs.Step(st, op).markets == st.markets
  {
    hide Inv, Fit, Runs.Step, Runs.Enabled, Runs.Onward;
    Runs.OrderKeepsInv(st, op);
    InvFits(st);
    Runs.StepOnward(st, op);
    Runs.MarketsStay(st, op);
  }

  /** The order just posted. */
  lemma OwnOrder(st: State, op: Runs.Op)
    requires op.Post? && Runs.Enabled(st, op)
    ensures var (k, st') := ((op.m, op.slot), Runs.Step(st, op));
      && !op.terms.side.Seats? && op.m in st.nextIds && k in st'.orders && st'.orders[k].data.Intent?
      && st'.orders[k].data.side == op.terms.side && st'.orders[k].data.price == op.terms.price
      && st'.orders[k].data.id == st.nextIds[op.m] && st'.orders[k].data.expiration > op.now
      && st'.orders[k].data.postSeq == op.postSeq
  {
    hide ReleasedAll, OrderOk;
  }

  /** The order to skip is not on side w. */
  ghost predicate Skippable(x: Exchange, m: nat, w: Which, skipId: nat)
    reads x
  {
    forall k ::
      k in x.orders && k.0 == m && x.orders[k].data.Intent? && x.orders[k].data.id == skipId ==>
        x.orders[k].data.side != w
  }

  /** The book's candidates are the ledger's counterparties. */
  lemma SameCandidates(x: Exchange, m: nat, b: Book, w: Which, skipId: nat, price: nat, now: nat, i: nat)
    requires Inv(x.View()) && Mirrors(x, m, b) && !w.Seats?
    requires Skippable(x, m, w, skipId)
    ensures Candidate(b, w, now, skipId, i) && CrossesTaker(w, b.nodes[i].data.price, price)
       <==> Counterparty(x.View(), m, w, (m, i), price, now)
    ensures Candidate(b, w, now, skipId, i) ==> (m, i) in x.orders && x.orders[(m, i)].data == b.nodes[i].data
  {
    if On(b, w, i) {
      assert Desk.TaggedAt(b.nodes[..][i], b.layout.roles[i]);
      Known(x, m, b, i);
    }
    if (m, i) in x.orders {
      assert i in Desk.OrdersOf(b.nodes[..]);
      assert Desk.TaggedAt(b.nodes[..][i], b.layout.roles[i]);
      OrdersFine(x.View(), (m, i));
    }
  }

  /** The candidate the search picks is the best counterparty. */
  lemma BestIs(x: Exchange, m: nat, b: Book, w: Which, skipId: nat, price: nat, now: nat, i: nat)
    requires Inv(x.View()) && Mirrors(x, m, b) && !w.Seats? && Skippable(x, m, w, skipId)
    requires Candidate(b, w, now, skipId, i) && CrossesTaker(w, b.nodes[i].data.price, price)
    requires forall j: nat :: Candidate(b, w, now, skipId, j) ==> !Less(w, b.nodes[j].data, b.nodes[i].data)
    ensures BestCounterparty(x.View(), m, w, (m, i), price, now) && x.orders[(m, i)].data == b.nodes[i].data
  {
    hide Inv, Mirrors, Skippable, CrossesTaker, Less;
    SameCandidates(x, m, b, w, skipId, price, now, i);
    forall k | Counterparty(x.View(), m, w, k, price, now) ensures !Less(w, x.orders[k].data, x.orders[(m, i)].data) {
      SameCandidates(x, m, b, w, skipId, price, now, k.1);
    }
  }

  lemma NoneCross(x: Exchange, m: nat, b: Book, w: Which, skipId: nat, price: nat, now: nat)
    requires Inv(x.View()) && Mirrors(x, m, b) && !w.Seats? && Skippable(x, m, w, skipId)
    requires forall i: nat :: Candidate(b, w, now, skipId, i) ==> !CrossesTaker(w, b.nodes[i].data.price, price)
    ensures forall k :: !Counterparty(x.View(), m, w, k, price, now)
  {
    hide Inv, Mirrors, Skippable, CrossesTaker;
    forall k | Counterparty(x.View(), m, w, k, price, now) ensures false {
      SameCandidates(x, m, b, w, skipId, price, now, k.1);
    }
  }

  /** The search on the other side, in the ledger's terms. */
  method FindCounterparty(x: Exchange, m: nat, b: Book, w: Which, price: nat, now: nat, skipId: nat)
      returns (found: Option<nat>, ghost k: Key)
    requires Inv(x.View()) && Mirrors(x, m, b) && !w.Seats? && Skippable(x, m, w, skipId)
    ensures found.None? ==> forall k :: !Counterparty(x.View(), m, w, k, price, now)
    ensures found.Some? ==> BestCounterparty(x.View(), m, w, k, price, now) && x.orders[k].data.id == found.value
  {
    hide Inv, Desk.Tidy, CrossesTaker, Less, BestCounterparty, Skippable, MapsTo, Covered;
    k := (m, 0);
    TidyIsValid(b);
    found := FindOverlapOnSide(b, w, price, now, skipId);
    if found.None? {
      NoneCross(x, m, b, w, skipId, price, now);
    } else {
      ghost var i: nat :| Candidate(b, w, now, skipId, i) && b.nodes[i].data.id == found.value
        && CrossesTaker(w, b.nodes[i].data.price, price)
        && forall j: nat :: Candidate(b, w, now, skipId, j) ==> !Less(w, b.nodes[j].data, b.nodes[i].data);
      BestIs(x, m, b, w, skipId, price, now, i);
      k := (m, i);
    }
  }

  lemma PairCrosses(st: State, m: nat, side: Which, own: Key, other: Key, now: nat)
    requires Inv(st) && !side.Seats? && own in st.orders && own.0 == m && st.orders[own].data.Intent?
    requires st.orders[own].data.side == side && st.orders[own].data.expiration > now
    requires Counterparty(st, m, Other(side), other, st.orders[own].data.price, now)
    ensures var (kl, ks) := PairOf(side, own, other);
      && m in st.nextIds && Crossing(st, kl, ks, now)
      && Named(st, m, kl.1, ks.1, st.orders[kl].data.id, st.orders[ks].data.id)
  {
    OrdersFine(st, own);
    OrdersFine(st, other);
  }

  /** Only the order just posted has its id. */
  lemma OwnIdSkips(x: Exchange, m: nat, b: Book, own: Key)
    requires Mirrors(x, m, b) && own in x.orders && own.0 == m && x.orders[own].data.Intent?
    requires !x.orders[own].data.side.Seats?
    ensures Skippable(x, m, Other(x.orders[own].data.side), x.orders[own].data.id)
  {
    forall k | k in x.orders && k.0 == m && x.orders[k].data.Intent? && x.orders[k].data.id == x.orders[own].data.id
      ensures k == own
    {
      assert k.1 in Desk.OrdersOf(b.nodes[..]) && own.1 in Desk.OrdersOf(b.nodes[..]);
    }
  }

  /** A post adds its order and no other. */
  lemma OlderOrders(st: State, op: Runs.Op, k: Key)
    requires Inv(st) && op.Post? && Runs.Enabled(st, op) && k in Runs.Step(st, op).orders && k != (op.m, op.slot)
    ensures k in st.orders && Runs.Step(st, op).orders[k] == st.orders[k]
  {
    hide AllLevel, Fit, VaultGap, ReleasedAll, OrderOk, Quote;
    ReleaseAllKeepsInv(st, op.pruned);
  }

  /** Every order of market m was posted before sequence number n. */
  ghost predicate AllBefore(st: State, m: nat, n: nat) {
    forall k :: k in st.orders && k.0 == m && st.orders[k].data.Intent? ==> st.orders[k].data.postSeq < n
  }

  lemma BookBefore(x: Exchange, m: nat, b: Book)
    requires Mirrors(x, m, b)
    ensures AllBefore(x.View(), m, b.nextSeq)
  {
    forall k | k in x.orders && k.0 == m && x.orders[k].data.Intent? ensures x.orders[k].data.postSeq < b.nextSeq {
      assert k.1 in Desk.OrdersOf(b.nodes[..]);
    }
  }

  /** Order own was posted last. */
  ghost predicate Latest(st: State, own: Key) {
    && own in st.orders && st.orders[own].data.Intent? && !st.orders[own].data.side.Seats?
    && forall k :: k in st.orders && k.0 == own.0 && k != own && st.orders[k].data.Intent? ==>
      st.orders[k].data.postSeq < st.orders[own].data.postSeq
  }

  lemma PosterIsLatest(st: State, op: Runs.Op)
    requires Inv(st) && op.Post? && Runs.Enabled(st, op) && AllBefore(st, op.m, op.postSeq)
    ensures Latest(Runs.Step(st, op), (op.m, op.slot))
  {
    OwnOrder(st, op);
    hide Inv, Runs.Step, Runs.Enabled;
    var (st', own) := (Runs.Step(st, op), (op.m, op.slot));
    forall k | k in st'.orders && k.0 == own.0 && k != own && st'.orders[k].data.Intent?
      ensures st'.orders[k].data.postSeq < st'.orders[own].data.postSeq
    {
      OlderOrders(st, op, k);
    }
  }

  /** The poster is the taker. */
  lemma PosterTakes(st: State, own: Key, other: Key, now: nat)
    requires Latest(st, own)
    requires Crossing(st, PairOf(st.orders[own].data.side, own, other).0,
                      PairOf(st.orders[own].data.side, own, other).1, now)
    ensures var pair := PairOf(st.orders[own].data.side, own, other);
      && pair.0 in st.orders && pair.1 in st.orders && st.orders[pair.0].data.Intent? && st.orders[pair.1].data.Intent?
      && TakerIsLong(st, pair.0, pair.1) == st.orders[own].data.side.Long?
  {
  }

  /** What the ledger says of a tried match of the order `own`: with whom, and how it ends. */
  ghost predicate Tried(was: State, now': State, m: nat, side: Which, own: Key, kl: Key, ks: Key, fee: nat,
                        served: bool,
                        ending: Ending, now: nat)
  {
    && Ends(was, now', m, kl, ks, fee, served, ending, now)
    && !side.Seats? && (if side.Long? then kl else ks) == own && own in was.orders && was.orders[own].data.Intent?
    && BestCounterparty(was, m, Other(side), if side.Long? then ks else kl, was.orders[own].data.price, now)
  }

  lemma TriedInvIff(was: State, now': State, m: nat, side: Which, own: Key, kl: Key, ks: Key, fee: nat, served: bool,
                    ending: Ending, now: nat)
    requires Inv(was) && Tried(was, now', m, side, own, kl, ks, fee, served, ending, now)
    ensures Inv(now') <==> ending == Done
  {
    hide Inv, LeftAfter, BestCounterparty, Crossing, Purse, SizeOf, PriceMidpoint;
    CrossingOk(was, kl, ks, now);
    InlineMatchKeepsInvIff(was, kl, ks, fee, served, now);
  }

  lemma CrossingOk(st: State, kl: Key, ks: Key, now: nat)
    requires Crossing(st, kl, ks, now)
    ensures kl in st.orders && ks in st.orders && OrderOk(st, kl, st.orders[kl]) && OrderOk(st, ks, st.orders[ks])
  {
  }

  /** The match tried is of the posted order with its counterparty. */
  lemma MatchIsTried(was: State, now': State, m: nat, longId: nat, shortId: nat, kl: Key, ks: Key, fee: nat,
                     served: bool,
                     ending: Option<Ending>, now: nat, side: Which, own: Key, other: Key)
    requires MatchEnded(was, now', m, longId, shortId, kl, ks, fee, served, ending, now)
    requires !side.Seats? && own in was.orders && was.orders[own].data.Intent? && own.0 == m && other.0 == m
    requires BestCounterparty(was, m, Other(side), other, was.orders[own].data.price, now)
    requires var (k, j) := PairOf(side, own, other);
      && Crossing(was, k, j, now) && Named(was, m, k.1, j.1, longId, shortId)
      && forall a: nat, b: nat :: Named(was, m, a, b, longId, shortId) ==> a == k.1 && b == j.1
    ensures ending.Some? && Tried(was, now', m, side, own, kl, ks, fee, served, ending.value, now)
    ensures (kl, ks) == PairOf(side, own, other)
  {
    hide Crossing, LeftAfter, EndingOf, BestCounterparty, Named;
    var (k, j) := PairOf(side, own, other);
    assert k == (m, k.1) && j == (m, j.1);
  }

  /** The match tried for the order just posted, against the best crossing order of the other side, if there
      is one. The poster pays the fee. */
  method TryMatch(x: Exchange, m: nat, b: Book, side: Which, price: nat, id: nat, accounts: bool,
                  schedule: Schedule.FeeSchedule,
                  longVolume: Volume.UserVolume, shortVolume: Volume.UserVolume, now: nat, ghost own: Key)
      returns (r: Outcome, ghost kl: Key, ghost ks: Key, ghost fee: nat, ghost bps: nat, ghost ending: Ending)
    requires Inv(x.View()) && Mirrors(x, m, b) && own.0 == m && Latest(x.View(), own)
    requires var d := x.orders[own].data; d.side == side && d.price == price && d.id == id && d.expiration > now
    requires schedule.Valid() && longVolume.Valid() && shortVolume.Valid() && now < U64
    modifies x, b, b.nodes, longVolume, shortVolume
    ensures Mirrors(x, m, b)
    ensures r == NoCounterparty ==>
      x.View() == old(x.View()) && forall k :: !Counterparty(x.View(), m, Other(side), k, price, now)
    ensures r != NoCounterparty ==>
      && Tried(old(x.View()), x.View(), m, side, own, kl, ks, fee,
               accounts && old(Roomy(longVolume, shortVolume, x.markets[m].bucket, now)), ending, now)
      && (r == Filled <==> ending == Done)
    ensures r != NoCounterparty && ending != NoId && accounts ==>
      && fee == Share(old(x.markets)[m].bucket, bps)
      && old(RateFor(schedule, if side.Long? then longVolume else shortVolume, now, bps))
    ensures Inv(x.View()) <==> r != Swallowed
  {
    hide Inv, Mirrors, RateFor, Roomy, Crossing, Counterparty, BestCounterparty, Skippable, Tried, Named, Share,
      MatchEnded, VolumesCredited, TakerIsLong, OrderOk, Volume.UserVolume.Counted;
    kl, ks, fee, bps, ending := (m, 0), (m, 0), 0, 0, Done;
    MarketHere(x, m, b);
    ghost var st := x.View();
    OwnIdSkips(x, m, b, own);
    var counterparty;
    ghost var other;
    counterparty, other := FindCounterparty(x, m, b, Other(side), price, now, id);
    if counterparty.None? { return NoCounterparty, kl, ks, fee, bps, ending; }
    BestIsOne(st, m, Other(side), other, price, now);
    PairCrosses(st, m, side, own, other, now);
    PosterTakes(st, own, other, now);
    var (longId, shortId) := if side.Long? then (id, counterparty.value) else (counterparty.value, id);
    ghost var pair := PairOf(side, own, other);
    NamedOnce(x, m, b, Filling.Pair(pair.0.1, pair.1.1), longId, shortId);
    var ok, charged;
    ghost var end;
    ok, charged, kl, ks, bps, end := MatchPair(x, m, b, longId, shortId, accounts, schedule, longVolume, shortVolume,
                                               now);
    fee := charged;
    r := if ok then Filled else Swallowed;
    ghost var served := accounts && old(Roomy(longVolume, shortVolume, x.markets[m].bucket, now));
    MatchIsTried(st, x.View(), m, longId, shortId, kl, ks, fee, served, end, now, side, own, other);
    ending := end.value;
    TriedInvIff(st, x.View(), m, side, own, kl, ks, fee, served, ending, now);
  }

  /** PostIntent with an inline match. `accounts` says that the accounts given are those of the pair. A failed
      post is rolled back; a failed match is not, and what it leaves breaks the equalities. */
  method PostIntentAndMatch(x: Exchange, m: nat, b: Book, t: nat, terms: Terms, accounts: bool,
                            schedule: Schedule.FeeSchedule,
                            longVolume: Volume.UserVolume, shortVolume: Volume.UserVolume, now: nat)
      returns (r: Checked<Outcome>, ghost op: Runs.Op, ghost found: seq<nat>, ghost kl: Key, ghost ks: Key,
               ghost fee: nat,
               ghost bps: nat, ghost ending: Ending)
    requires Inv(x.View()) && Mirrors(x, m, b) && t in x.accounts
    requires schedule.Valid() && longVolume.Valid() && shortVolume.Valid() && now < U64
    modifies x, b, b.nodes, longVolume, shortVolume
    ensures r.Ok? <==> old(Refusal(x, m, b, t, terms, now, found)).None?
    ensures r.Err? ==> r.error == old(Refusal(x, m, b, t, terms, now, found)).value
    ensures r.Ok? ==>
      IsPost(op, m, t, terms, old(b.cachedMaxFeeBps), now) && Runs.Enabled(old(x.View()), op) && Mirrors(x, m, b)
    ensures r == Ok(NoCounterparty) ==>
      && x.View() == Runs.Step(old(x.View()), op)
      && forall k :: !Counterparty(x.View(), m, Other(terms.side), k, terms.price, now)
    ensures r.Ok? && r.value != NoCounterparty ==>
      && Tried(Runs.Step(old(x.View()), op), x.View(), m, terms.side, (m, op.slot), kl, ks, fee,
               accounts && old(Roomy(longVolume, shortVolume, x.markets[m].bucket, now)), ending, now)
      && (r.value == Filled <==> ending == Done)
    ensures r.Ok? && r.value != NoCounterparty && ending != NoId && accounts ==>
      && fee == Share(old(x.markets)[m].bucket, bps)
      && old(RateFor(schedule, if terms.side.Long? then longVolume else shortVolume, now, bps))
    ensures r.Ok? ==> (Inv(x.View()) <==> r.value != Swallowed)
  {
    hide Inv, Mirrors, RateFor, Roomy, Runs.Step, Runs.Enabled, FirstExpiredOf, Refusal, AllBefore, Counterparty, Tried,
      Share, Latest;
    MarketHere(x, m, b);
    kl, ks, fee, bps, ending := (m, 0), (m, 0), 0, 0, Done;
    ghost var was := x.View();
    var id := b.nextIntentId;
    BookBefore(x, m, b);
    NextIdIs(x, m, b);
    var posted;
    posted, op, found := PostIntent(x, m, b, t, terms, now);
    if posted.Err? { return Err(posted.error), op, found, kl, ks, fee, bps, ending; }
    PostKeeps(was, op);
    OwnOrder(was, op);
    PosterIsLatest(was, op);
    var outcome;
    outcome, kl, ks, fee, bps, ending :=
      TryMatch(x, m, b, terms.side, terms.price, id, accounts, schedule, longVolume, shortVolume, now, (m, op.slot));
    r := Ok(outcome);
  }

  lemma NextIdIs(x: Exchange, m: nat, b: Book)
    requires Mirrors(x, m, b)
    ensures m in x.nextIds && x.nextIds[m] == b.nextIntentId
  {
  }

  lemma BestIsOne(st: State, m: nat, w: Which, k: Key, price: nat, now: nat)
    requires !w.Seats? && BestCounterparty(st, m, w, k, price, now)
    ensures Counterparty(st, m, w, k, price, now)
  {
  }
}
