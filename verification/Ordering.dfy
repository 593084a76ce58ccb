/** Posting, cancelling, pruning and re-entry on the exchange's own fields and the book. */
module Ordering {
  import opened Nodes
  import opened IntentBook
  import opened Arena
  import opened Desk
  import opened Posting
  import opened Filling
  import opened Matcher
  import opened FixedPoint
  import opened Ledger
  import opened Operations
  import opened Settlements
  import opened Handovers
  import opened Reentry
  import opened Margin
  import opened Exchange
  import opened Settling
  import opened Trading
  import Runs

  // ----- orders taken off -------------------------------------------------------------------------------------

  /** The ledger keys of slots of market m. */
  function KeysOf(m: nat, slots: seq<nat>): seq<Key> { seq(|slots|, i requires 0 <= i < |slots| => (m, slots[i])) }

  lemma KeysOfPrefix(m: nat, slots: seq<nat>, k: nat)
    requires k <= |slots|
    ensures KeysOf(m, slots)[..k] == KeysOf(m, slots[..k])
  {
  }

  /** st' is st with the listed orders of trader t gone and what they reserved, `sum`, freed in one go. */
  ghost predicate FreedTogether(st: State, st': State, m: nat, r: map<nat, Order>, found: seq<nat>, t: nat, sum: nat) {
    && t in st.accounts
    && st' == st.(accounts := Credited(st.accounts, Delta(t, sum, 0 - sum, 0)), orders := st'.orders)
    && MapsTo(st'.orders, m, r - Slots(found))
  }

  /** The listed slots hold orders of trader t. */
  ghost predicate AllOf(s: Pool, found: seq<nat>, t: nat) {
    && Ascends(found)
    && forall k :: 0 <= k < |found| ==>
      IntentAt(s, found[k]) && found[k] in OrdersOf(s) && OrdersOf(s)[found[k]].owner == t
  }

  /** Orders of one trader released together are one movement of what they reserve. */
  lemma {:induction false} ReleasedTogether(st: State, m: nat, s: Pool, found: seq<nat>, t: nat)
    requires MapsTo(st.orders, m, OrdersOf(s)) && AllOf(s, found, t) && t in st.accounts
    ensures FreedTogether(st, ReleasedAll(st, KeysOf(m, found)), m, OrdersOf(s), found, t, Held(s, found))
    decreases |found|
  {
    hide FreedTogether, OrdersOf, MapsTo, Covered, ReleasedAll, AllOf, Held;
    if found == [] {
      NoneReleased(st, m, s, t);
    } else {
      var rest := found[..|found| - 1];
      LastOne(s, found, t);
      ReleasedTogether(st, m, s, rest, t);
      KeysOfPrefix(m, found, |rest|);
      LastReleased(st, KeysOf(m, found));
      OneMoreReleased(st, ReleasedAll(st, KeysOf(m, rest)), m, s, found, t);
    }
  }

  lemma NoneReleased(st: State, m: nat, s: Pool, t: nat)
    requires MapsTo(st.orders, m, OrdersOf(s)) && t in st.accounts
    ensures FreedTogether(st, ReleasedAll(st, KeysOf(m, [])), m, OrdersOf(s), [], t, Held(s, []))
  {
    assert Credited(st.accounts, Delta(t, 0, 0, 0)) == st.accounts;
    assert OrdersOf(s) - Slots([]) == OrdersOf(s);
  }

  lemma LastOne(s: Pool, found: seq<nat>, t: nat)
    requires found != [] && AllOf(s, found, t)
    ensures var (rest, i) := (found[..|found| - 1], found[|found| - 1]);
      && AllOf(s, rest, t) && i !in Slots(rest) && Slots(found) == Slots(rest) + {i}
      && IntentAt(s, i) && i in OrdersOf(s) && OrdersOf(s)[i].owner == t && OrdersOf(s)[i].data == s[i].data
      && Held(s, found) == Held(s, rest) + s[i].data.reserved + s[i].data.feeBuffer
  {
    var (rest, i) := (found[..|found| - 1], found[|found| - 1]);
    assert found == rest + [i];
    forall k | 0 <= k < |rest| ensures rest[k] != i { assert found[k] < i; }
  }

  lemma LastReleased(st: State, ks: seq<Key>)
    requires ks != []
    ensures var (before, k) := (ReleasedAll(st, ks[..|ks| - 1]), ks[|ks| - 1]);
      k in before.orders && before.orders[k].data.Intent? && before.orders[k].owner in before.accounts ==>
        ReleasedAll(st, ks) == Released(before, k)
  {
  }

  lemma OneMoreReleased(st: State, st1: State, m: nat, s: Pool, found: seq<nat>, t: nat)
    requires found != [] && AllOf(s, found, t)
    requires FreedTogether(st, st1, m, OrdersOf(s), found[..|found| - 1], t, Held(s, found[..|found| - 1]))
    ensures var k := (m, found[|found| - 1]);
      && k in st1.orders && st1.orders[k].data.Intent? && st1.orders[k].owner in st1.accounts
      && FreedTogether(st, Released(st1, k), m, OrdersOf(s), found, t, Held(s, found))
  {
    hide Held, AllOf, OrdersOf;
    var (rest, i, r) := (found[..|found| - 1], found[|found| - 1], OrdersOf(s));
    LastOne(s, found, t);
    assert i in r - Slots(rest) && r - Slots(rest) - {i} == r - Slots(found);
    DropMirrors(st1.orders, m, r - Slots(rest), i);
    CreditedTwice(st.accounts, t, Held(s, rest), r[i].data.reserved + r[i].data.feeBuffer);
    hide Slots, MapsTo, Covered, Credited;
    assert st1.orders[(m, i)] == r[i];
  }

  lemma CreditedTwice(a: map<nat, Balance>, t: nat, one: int, two: int)
    requires t in a
    ensures Credited(Credited(a, Delta(t, one, 0 - one, 0)), Delta(t, two, 0 - two, 0))
         == Credited(a, Delta(t, one + two, 0 - (one + two), 0))
  {
  }

  /** Takes one intent off the book and out of the exchange's view, and off its seat's count. */
  method DropIntent(x: Exchange, m: nat, b: Book, idx: nat)
    requires Mirrors(x, m, b) && IntentAt(b.nodes[..], idx)
    modifies x`orders, b`longRoot, b`shortRoot, b`seatRoot, b`freelistHead, b`layout, b.nodes
    ensures Mirrors(x, m, b) && x.orders == old(x.orders) - {(m, idx)}
    ensures var seat := old(b.nodes[idx].data.ownerSeat);
      && SeatAt(b.nodes[..], seat)
      && b.nodes[seat].data.activeIntents + 1 == old(b.nodes[b.nodes[idx].data.ownerSeat].data.activeIntents)
  {
    hide Tidy, MapsTo, Covered, OrdersOf;
    SeatOf(b, idx);
    var seat := b.nodes[idx].data.ownerSeat;
    ghost var s := b.nodes[..];
    DropMirrors(x.orders, m, OrdersOf(s), idx);
    TakeOffCovered(b, idx);
    SeatStays(s, b.nodes[..], idx, seat);
    ghost var s1 := b.nodes[..];
    CountDown(b, seat, 1);
    CountedDown(s1, b.nodes[..], seat, 1);
    x.orders := x.orders - {(m, idx)};
  }

  /** A count that covers n more than rest can go down by n, and covers what rests. */
  lemma CountedDown(s1: Pool, s2: Pool, seat: nat, n: nat)
    requires CoveredBut(s1, seat, n) && SameContents(s1, s2, {seat}) && SeatAt(s2, seat)
    requires s2[seat].data.activeIntents == Fewer(s1[seat].data.activeIntents, n)
    ensures Covered(s2) && s2[seat].data.activeIntents + n == s1[seat].data.activeIntents
  {
    Recounted(s1, s2, seat, 0);
  }

  /** Frees part of an account's reserved balance. */
  method Refund(x: Exchange, t: nat, amount: nat) returns (ok: bool)
    requires t in x.accounts && Rich(x.accounts[t], 0, 0)
    modifies x`accounts
    ensures ok <==> amount <= old(x.accounts)[t].reserved
    ensures x.accounts == if ok then Credited(old(x.accounts), Delta(t, amount, 0 - amount, 0)) else old(x.accounts)
  {
    var account := new MarginAccount(x.accounts[t]);
    ok := account.MoveReservedToFree(amount);
    if ok { x.accounts := x.accounts[t := account.Data()]; }
  }

  /** Releases the order in one slot, on the book and on the ledger. It cannot fail. */
  method ReleaseSlot(x: Exchange, m: nat, b: Book, idx: nat)
    requires Inv(x.View()) && Mirrors(x, m, b) && IntentAt(b.nodes[..], idx)
    modifies x`accounts, x`orders, b`longRoot, b`shortRoot, b`seatRoot, b`freelistHead, b`layout, b.nodes
    ensures (m, idx) in old(x.orders) && old(x.orders)[(m, idx)].data == old(b.nodes[idx].data)
    ensures old(x.orders)[(m, idx)].owner in old(x.accounts) && x.View() == Released(old(x.View()), (m, idx))
    ensures Mirrors(x, m, b)
  {
    hide Inv, Tidy, MapsTo, Covered, OrdersOf, OrderOk;
    ghost var k := (m, idx);
    Known(x, m, b, idx);
    SeatOf(b, idx);
    OrderOwner(x.View(), k);
    DueReserved(x.View(), k);
    RichAccount(x.View(), x.orders[k].owner);
    var d := b.nodes[idx].data;
    var owner := b.nodes[d.ownerSeat].data.trader;
    DropIntent(x, m, b, idx);
    var ok := Refund(x, owner, d.reserved + d.feeBuffer);
    assert ok;
  }

  /** CancelIntent: by its owner, or by anyone once it has expired. */
  method CancelIntent(x: Exchange, m: nat, b: Book, id: nat, caller: nat, now: nat) returns (ok: bool, ghost k: Key)
    requires Inv(x.View()) && Mirrors(x, m, b)
    modifies x`accounts, x`orders, b`longRoot, b`shortRoot, b`seatRoot, b`freelistHead, b`layout, b.nodes
    ensures ok ==> k.0 == m && k in old(x.orders) && old(x.orders)[k].data.Intent? && old(x.orders)[k].data.id == id
    ensures ok ==>
      && Runs.Enabled(old(x.View()), Runs.Cancel(k, caller, now)) && x.View() == Released(old(x.View()), k)
      && Mirrors(x, m, b)
    ensures !ok ==>
      forall j: nat ::
        (m, j) in old(x.orders) && old(x.orders)[(m, j)].data.Intent? && old(x.orders)[(m, j)].data.id == id ==>
      old(x.orders)[(m, j)].owner != caller && !Expired(old(x.orders)[(m, j)], now)
  {
    hide Inv, Tidy, MapsTo, Covered, OrdersOf, OrderOk, Released;
    k := (m, 0);
    var found := FindIntentById(b, id);
    if found.None? {
      NobodyNamed(x, m, b, id);
      return false, k;
    }
    var idx := found.value;
    k := (m, idx);
    Known(x, m, b, idx);
    OnlyNamed(x, m, b, idx);
    SeatOf(b, idx);
    var d := b.nodes[idx].data;
    if caller != b.nodes[d.ownerSeat].data.trader && d.expiration > now { return false, k; }
    ReleaseSlot(x, m, b, idx);
    ok := true;
  }

  lemma NobodyNamed(x: Exchange, m: nat, b: Book, id: nat)
    requires Mirrors(x, m, b) && forall i: nat :: IntentAt(b.nodes[..], i) ==> b.nodes[i].data.id != id
    ensures forall j: nat :: (m, j) in x.orders && x.orders[(m, j)].data.Intent? ==> x.orders[(m, j)].data.id != id
  {
    forall j: nat | (m, j) in x.orders && x.orders[(m, j)].data.Intent? ensures x.orders[(m, j)].data.id != id {
      assert j in OrdersOf(b.nodes[..]);
    }
  }

  lemma OnlyNamed(x: Exchange, m: nat, b: Book, idx: nat)
    requires Mirrors(x, m, b) && IntentAt(b.nodes[..], idx)
    ensures forall j: nat ::
      (m, j) in x.orders && x.orders[(m, j)].data.Intent? && x.orders[(m, j)].data.id == b.nodes[idx].data.id ==>
        j == idx
  {
    forall j: nat | (m, j) in x.orders && x.orders[(m, j)].data.Intent?
      && x.orders[(m, j)].data.id == b.nodes[idx].data.id
      ensures j == idx
    {
      assert j in OrdersOf(b.nodes[..]);
    }
  }

  lemma SeatStays(s: Pool, s': Pool, idx: nat, seat: nat)
    requires SameContents(s, s', {idx}) && SeatAt(s, seat) && IntentAt(s, idx)
    ensures SeatAt(s', seat) && s'[seat].data == s[seat].data
  {
    SameAt(s, s', {idx}, seat);
  }

  lemma DropMirrors(o: map<Key, Order>, m: nat, r: map<nat, Order>, i: nat)
    requires MapsTo(o, m, r)
    ensures MapsTo(o - {(m, i)}, m, r - {i})
  {
  }

  lemma PutMirrors(o: map<Key, Order>, m: nat, r: map<nat, Order>, i: nat, order: Order)
    requires MapsTo(o, m, r)
    ensures MapsTo(o[(m, i) := order], m, r[i := order])
  {
  }

  // ----- posting ------------------------------------------------------------------------------------------------

  /** An order of trader t that a post by t may prune. */
  predicate ExpiredOf(r: map<nat, Order>, t: nat, now: nat, i: nat) {
    i in r && r[i].owner == t && r[i].data.Intent? && r[i].data.expiration <= now && r[i].data.remaining != 0
  }

  /** The first expired orders of trader t by slot, at most four. */
  ghost predicate FirstExpiredOf(r: map<nat, Order>, t: nat, now: nat, found: seq<nat>) {
    && |found| <= MAX_PRUNES_PER_POST && Ascends(found)
    && (forall k :: 0 <= k < |found| ==> ExpiredOf(r, t, now, found[k]))
    && (forall i ::
      ExpiredOf(r, t, now, i) ==>
        i in found || (|found| == MAX_PRUNES_PER_POST && forall k :: 0 <= k < |found| ==> found[k] < i))
  }

  /** A trader's orders are those that stand under its seat. */
  lemma SeatMeansOwner(b: Book, seat: nat, t: nat, i: nat, now: nat)
    requires Tidy(b) && SeatAt(b.nodes[..], seat) && b.nodes[seat].data.trader == t
    ensures Stale(b.nodes[..], seat, now, i) <==> ExpiredOf(OrdersOf(b.nodes[..]), t, now, i)
  {
    if IntentAt(b.nodes[..], i) { InOrders(b, i); SeatOf(b, i); }
  }

  lemma UnseatedOwnsNothing(b: Book, t: nat, now: nat)
    requires Tidy(b) && forall i: nat :: On(b, Seats, i) ==> b.nodes[i].data.trader != t
    ensures forall i :: !ExpiredOf(OrdersOf(b.nodes[..]), t, now, i)
  {
    NobodySeated(b, t);
  }

  lemma StaleAreExpired(b: Book, seat: nat, t: nat, now: nat, found: seq<nat>)
    requires Tidy(b) && SeatAt(b.nodes[..], seat) && b.nodes[seat].data.trader == t
    requires FirstStale(b.nodes[..], seat, now, found, b.nodes.Length)
    ensures FirstExpiredOf(OrdersOf(b.nodes[..]), t, now, found) && AllOf(b.nodes[..], found, t)
  {
    hide Tidy, Stale, OrdersOf;
    forall i: nat ensures Stale(b.nodes[..], seat, now, i) <==> ExpiredOf(OrdersOf(b.nodes[..]), t, now, i) {
      SeatMeansOwner(b, seat, t, i, now);
    }
    forall k | 0 <= k < |found| ensures IntentAt(b.nodes[..], found[k]) {
      StaleIntent(b.nodes[..], seat, now, found[k]);
    }
    forall i: nat | ExpiredOf(OrdersOf(b.nodes[..]), t, now, i)
      ensures i < b.nodes.Length
    {
      StaleIntent(b.nodes[..], seat, now, i);
    }
  }

  lemma StaleIntent(s: Pool, seat: nat, now: nat, i: nat)
    requires Stale(s, seat, now, i)
    ensures IntentAt(s, i) && i < |s|
  {
  }

  /** Expired orders of one trader are pruned at once: the book part, and what they reserved. */
  method PruneOwn(x: Exchange, m: nat, b: Book, t: nat, now: nat) returns (refund: Option<nat>, ghost found: seq<nat>)
    requires Inv(x.View()) && Mirrors(x, m, b) && t in x.accounts
    modifies x`orders, b`longRoot, b`shortRoot, b`seatRoot, b`freelistHead, b`layout, b.nodes
    ensures FirstExpiredOf(OrdersOf(old(b.nodes[..])), t, now, found) && AllOf(old(b.nodes[..]), found, t)
    ensures refund == Some(Held(old(b.nodes[..]), found)) && Mirrors(x, m, b)
    ensures x.orders == ReleasedAll(old(x.View()), KeysOf(m, found)).orders
    ensures Takes(b.nodes[..], b.layout, b.nextIntentId, b.nextSeq, t, 0)
       <==> old(Takes(b.nodes[..], b.layout, b.nextIntentId, b.nextSeq, t, |found|))
  {
    hide Inv, Tidy, OrdersOf, MapsTo, Covered, FirstExpiredOf, AllOf, FirstStale, OffBook, ReleasedAll, FreedTogether,
      SameContents, Held, Takes, Layout.FreeSlots, Ascends, OneSeatEach;
    ghost var (s, was) := (b.nodes[..], x.View());
    TidyIsValid(b);
    var seat := FindSeat(b, t);
    if seat == 0 {
      UnseatedOwnsNothing(b, t, now);
      NoneExpired(x, m, b, t, now);
      return Some(0), [];
    }
    var slots := CollectStale(b, seat, now);
    found := slots;
    StaleAreExpired(b, seat, t, now, slots);
    ReleasedTogether(was, m, s, slots, t);
    HeldFits(was, m, s, slots, t);
    AllOfIs(s, slots, t);
    refund := TakeOffAll(b, slots);
    ghost var s1 := b.nodes[..];
    AllCovered(s, s1, slots, t, seat);
    GoneFromBook(s, b.nodes[..], was, ReleasedAll(was, KeysOf(m, slots)), m, slots, t, seat);
    x.orders := ReleasedAll(was, KeysOf(m, slots)).orders;
    if |slots| > 0 {
      CountDown(b, seat, |slots|);
      CountedDown(s1, b.nodes[..], seat, |slots|);
    }
    RoomAfter(s, old(b.layout), b, t, seat, |slots|);
  }

  /** Once a trader's listed intents are off the book, its seat counts as many more than rest under it. */
  lemma AllCovered(s: Pool, s1: Pool, found: seq<nat>, t: nat, seat: nat)
    requires Covered(s) && OneSeatEach(s) && SeatAt(s, seat) && s[seat].data.trader == t && AllOf(s, found, t)
    requires OffBook(s, s1, found)
    ensures CoveredBut(s1, seat, |found|) && Covered(s1)
  {
    forall i | i in Slots(found)
      ensures IntentAt(s, i) && s[i].data.ownerSeat == seat && !IntentAt(s1, i) && !SeatAt(s1, i)
    {
      assert i in OrdersOf(s) && OrdersOf(s)[i].owner == t;
      assert SeatAt(s, s[i].data.ownerSeat) && s[s[i].data.ownerSeat].data.trader == t;
    }
    HowManySlots(found);
    hide Covered, CoveredBut;
    CoveredByFewer(s, s1, seat, Slots(found));
    CoveredButIs(s1, seat, |found|);
  }

  lemma {:induction false} HowManySlots(found: seq<nat>)
    requires Ascends(found)
    ensures |Slots(found)| == |found|
    decreases |found|
  {
    if found != [] {
      var rest := found[..|found| - 1];
      HowManySlots(rest);
      assert found == rest + [found[|found| - 1]];
      assert found[|found| - 1] !in Slots(rest) && Slots(found) == Slots(rest) + {found[|found| - 1]};
    }
  }

  /** Pruned intents make room for as many. */
  lemma RoomAfter(s: Pool, g: Layout, b: Book, t: nat, seat: nat, n: nat)
    requires OneSeatEach(s) && SeatAt(s, seat) && s[seat].data.trader == t
    requires Tidy(b) && SeatAt(b.nodes[..], seat) && b.nodes[seat].data.trader == t
    requires b.nodes[seat].data.activeIntents == Fewer(s[seat].data.activeIntents, n)
    requires |b.layout.FreeSlots()| == |g.FreeSlots()| + n
    ensures Takes(b.nodes[..], b.layout, b.nextIntentId, b.nextSeq, t, 0)
       <==> Takes(s, g, b.nextIntentId, b.nextSeq, t, n)
  {
    hide Takes, Layout.FreeSlots, OneSeatEach;
    SeatDecides(s, g, b.nextIntentId, b.nextSeq, t, seat, n);
    SeatDecides(b.nodes[..], b.layout, b.nextIntentId, b.nextSeq, t, seat, 0);
  }

  lemma TidyIsValid(b: Book)
    requires Tidy(b)
    ensures b.Valid() && OneSeatEach(b.nodes[..])
  {
  }

  lemma NoneExpired(x: Exchange, m: nat, b: Book, t: nat, now: nat)
    requires forall i :: !ExpiredOf(OrdersOf(b.nodes[..]), t, now, i)
    ensures FirstExpiredOf(OrdersOf(b.nodes[..]), t, now, []) && AllOf(b.nodes[..], [], t) && Held(b.nodes[..], []) == 0
    ensures ReleasedAll(x.View(), KeysOf(m, [])) == x.View()
  {
  }

  /** What a trader's orders reserve together fits 64 bits. */
  lemma HeldFits(st: State, m: nat, s: Pool, found: seq<nat>, t: nat)
    requires Inv(st) && MapsTo(st.orders, m, OrdersOf(s)) && AllOf(s, found, t) && t in st.accounts
    ensures Inv(ReleasedAll(st, KeysOf(m, found))) && Held(s, found) < U64
    ensures Rich(Credited(st.accounts, Delta(t, Held(s, found), 0 - Held(s, found), 0))[t], 0, 0)
  {
    hide AllLevel, Fit, VaultGap, OrdersOf, MapsTo, Covered, ReleasedAll, Held;
    KeysFit(st, m, s, found, t);
    ReleaseAllKeepsInv(st, KeysOf(m, found));
    ReleasedTogether(st, m, s, found, t);
    RichAccount(ReleasedAll(st, KeysOf(m, found)), t);
    RichAccount(st, t);
  }

  lemma KeysFit(st: State, m: nat, s: Pool, found: seq<nat>, t: nat)
    requires MapsTo(st.orders, m, OrdersOf(s)) && AllOf(s, found, t)
    ensures Elements(KeysOf(m, found)) <= st.orders.Keys && NoRepeats(KeysOf(m, found))
  {
    forall k | k in KeysOf(m, found) ensures k in st.orders {
      var i :| 0 <= i < |found| && KeysOf(m, found)[i] == k;
      assert found[i] in OrdersOf(s);
    }
    forall i, j | 0 <= i < j < |found|
      ensures KeysOf(m, found)[i] != KeysOf(m, found)[j]
    {
      assert found[i] < found[j];
    }
  }

  lemma AllOfIs(s: Pool, found: seq<nat>, t: nat)
    requires AllOf(s, found, t)
    ensures Ascends(found) && forall k :: 0 <= k < |found| ==> IntentAt(s, found[k])
  {
  }

  lemma GoneFromBook(s: Pool, s': Pool, st: State, st': State, m: nat, found: seq<nat>, t: nat, seat: nat)
    requires OffBook(s, s', found) && FreedTogether(st, st', m, OrdersOf(s), found, t, Held(s, found))
    requires AllOf(s, found, t) && SeatAt(s, seat)
    ensures MapsTo(st'.orders, m, OrdersOf(s')) && SeatAt(s', seat) && s'[seat].data == s[seat].data
  {
    assert seat !in Slots(found) by {
      forall k | 0 <= k < |found| ensures found[k] != seat { assert IntentAt(s, found[k]); }
    }
    SameAt(s, s', Slots(found), seat);
    hide OrdersOf, Held;
  }

  /** The margin part of a post: what was pruned comes free, then the new reservation is made. Only
      the reservation can be too much. */
  method Recycle(b: Balance, refund: nat, due: nat) returns (ok: bool, b': Balance)
    requires Rich(b, 0, 0) && refund <= b.reserved
    ensures ok <==> due <= b.free + refund
    ensures ok ==> b' == Balance(b.free + refund - due, b.reserved - refund + due, b.locked)
  {
    var account := new MarginAccount(b);
    ok := true;
    if refund > 0 {
      ok := account.MoveReservedToFree(refund);
      assert ok;
    }
    ok := account.MoveFreeToReserved(due);
    b' := account.Data();
  }

  /** Rests a new intent and shows it to the ledger, whose reservation has been made. */
  method RestIntent(x: Exchange, m: nat, b: Book, t: nat, terms: Terms, due: (nat, nat))
      returns (ok: bool, ghost slot: nat, ghost data: Data)
    requires Mirrors(x, m, b) && !terms.side.Seats?
    modifies x`orders, x`nextIds, b, b.nodes
    ensures ok <==> old(Takes(b.nodes[..], b.layout, b.nextIntentId, b.nextSeq, t, 0))
    ensures ok ==> Mirrors(x, m, b) && HasId(old(x.View()), m) && (m, slot) !in old(x.orders)
    ensures ok ==> data.Intent? && data == NewIntent(terms, old(x.nextIds)[m], data.ownerSeat, old(b.nextSeq), due)
    ensures ok ==>
      x.orders == old(x.orders)[(m, slot) := Order(t, data)] && x.nextIds == old(x.nextIds)[m := old(x.nextIds)[m] + 1]
  {
    hide Tidy, OrdersOf, Takes;
    ghost var r := OrdersOf(b.nodes[..]);
    var idx;
    ok, idx, data := PlaceIntent(b, t, terms, due);
    slot := idx;
    if !ok { return; }
    PutMirrors(x.orders, m, r, idx, Order(t, data));
    x.orders := x.orders[(m, slot) := Order(t, data)];
    x.nextIds := x.nextIds[m := b.nextIntentId];
  }

  /** A reservation made and an order shown are a post on the ledger. */
  lemma PlacedFields(st: State, k: Key, o: Order)
    requires o.owner in st.accounts && o.data.Intent? && k.0 in st.nextIds
    ensures var due := o.data.reserved + o.data.feeBuffer;
      Numbered(Posted(st, k, o), k.0) == st.(accounts := Credited(st.accounts, Delta(o.owner, 0 - due, due, 0)),
        orders := st.orders[k := o], nextIds := st.nextIds[k.0 := st.nextIds[k.0] + 1])
  {
  }

  lemma QuoteMeans(market: Market, terms: Terms, feeBps: nat, now: nat)
    requires Quote(market, terms, feeBps, now).Ok?
    ensures !terms.side.Seats? && terms.contracts > 0
    ensures Quote(market, terms, feeBps, now).value.0 == terms.contracts * market.bucket
  {
  }

  /** A post by trader t, as an operation on the ledger. */
  ghost predicate IsPost(op: Runs.Op, m: nat, t: nat, terms: Terms, feeBps: nat, now: nat) {
    op.Post? && op.m == m && op.t == t && op.terms == terms && op.feeBps == feeBps && op.now == now
  }

  /** What the ledger state is after pruning, and what it asks of a post. */
  lemma PostReady(st: State, m: nat, s: Pool, found: seq<nat>, t: nat, now: nat)
    requires Inv(st) && MapsTo(st.orders, m, OrdersOf(s)) && AllOf(s, found, t)
    requires FirstExpiredOf(OrdersOf(s), t, now, found) && t in st.accounts
    ensures var (ks, st1) := (KeysOf(m, found), ReleasedAll(st, KeysOf(m, found)));
      && Runs.CanPrune(st, ks, now) && |ks| <= 4
      && (forall k :: k in ks ==> k in st.orders && k.0 == m && st.orders[k].owner == t)
      && st1 == st.(accounts := Credited(st.accounts, Delta(t, Held(s, found), 0 - Held(s, found), 0)),
                    orders := st1.orders)
  {
    ReleasedTogether(st, m, s, found, t);
    KeysFit(st, m, s, found, t);
    var ks := KeysOf(m, found);
    hide Inv, ReleasedAll, Held, OrdersOf, AllOf;
    forall k | k in ks ensures k in st.orders && k.0 == m && st.orders[k].owner == t && Expired(st.orders[k], now) {
      var i :| 0 <= i < |found| && ks[i] == k;
      assert ExpiredOf(OrdersOf(s), t, now, found[i]);
    }
  }

  lemma MarketInv(st: State, m: nat, t: nat)
    requires Inv(st) && m in st.markets && t in st.accounts
    ensures m in st.nextIds && Rich(st.accounts[t], 0, 0)
  {
    RichAccount(st, t);
  }

  /** The ledger part of a post, once the pruned orders are gone. */
  lemma PlaceAddsUp(st: State, st1: State, st': State, k: Key, o: Order, freed: nat)
    requires o.owner in st.accounts && k.0 in st.markets && HasId(st, k.0) && k !in st1.orders
    requires st1 == st.(accounts := Credited(st.accounts, Delta(o.owner, freed, 0 - freed, 0)), orders := st1.orders)
    requires o.data.Intent? && o.data.remaining > 0 && o.data.reserved == o.data.remaining * st.markets[k.0].bucket
    requires var (due, b) := (o.data.reserved + o.data.feeBuffer, st.accounts[o.owner]);
      && due <= b.free + freed
      && var after := Balance(b.free + freed - due, b.reserved - freed + due, b.locked);
      && st' == st.(accounts := st.accounts[o.owner := after],
                    orders := st1.orders[k := o], nextIds := st.nextIds[k.0 := st.nextIds[k.0] + 1])
    ensures CanPlace(st1, k, o) && st' == PlacedOrder(st1, k, o)
  {
    assert OrderOk(st1, k, o);
    PlacedFields(st1, k, o);
  }

  /** The pieces of a post add up to the operation. */
  lemma PostAddsUp(st: State, st': State, m: nat, s: Pool, found: seq<nat>, terms: Terms, feeBps: nat, now: nat,
                   slot: nat, o: Order)
    requires Inv(st) && m in st.markets && o.owner in st.accounts && MapsTo(st.orders, m, OrdersOf(s))
    requires AllOf(s, found, o.owner)
    requires FirstExpiredOf(OrdersOf(s), o.owner, now, found) && Quote(st.markets[m], terms, feeBps, now).Ok?
    requires m in st.nextIds
    requires o.data.Intent?
    requires o.data == NewIntent(terms, st.nextIds[m], o.data.ownerSeat, o.data.postSeq,
                                 Quote(st.markets[m], terms, feeBps, now).value)
    requires var st1 := ReleasedAll(st, KeysOf(m, found));
      CanPlace(st1, (m, slot), o) && st' == PlacedOrder(st1, (m, slot), o)
    ensures var op := Runs.Post(m, o.owner, terms, KeysOf(m, found), feeBps, slot, o.data.ownerSeat, o.data.postSeq,
                                now);
      Runs.Enabled(st, op) && st' == Runs.Step(st, op)
  {
    hide Inv, OrdersOf, MapsTo, Covered, AllOf, FirstExpiredOf, ReleasedAll, KeysOf, Quote, Runs.CanPrune, CanPlace,
      PlacedOrder;
    PostReady(st, m, s, found, o.owner, now);
  }

  /** Why a post is refused, `found` being what it prunes: the quote's error, else want of free balance,
      else one of the book's limits. */
  ghost function Refusal(x: Exchange, m: nat, b: Book, t: nat, terms: Terms, now: nat, found: seq<nat>): Option<Error>
    requires m in x.markets && t in x.accounts
    reads x, b, b.nodes
  {
    match Quote(x.markets[m], terms, b.cachedMaxFeeBps, now)
    case Err(error) => Some(error)
    case Ok(due) =>
      if due.0 + due.1 > x.accounts[t].free + Held(b.nodes[..], found) then Some(InsufficientFree)
      else if !Takes(b.nodes[..], b.layout, b.nextIntentId, b.nextSeq, t, |found|) then Some(BookLimit)
      else None
  }

  /** PostIntent without an inline match. `found` are the slots pruned. It is refused exactly for
      the reason `Refusal` gives. */
  method PostIntent(x: Exchange, m: nat, b: Book, t: nat, terms: Terms, now: nat)
      returns (r: Checked<()>, ghost op: Runs.Op, ghost found: seq<nat>)
    requires Inv(x.View()) && Mirrors(x, m, b) && t in x.accounts
    modifies x`accounts, x`orders, x`nextIds, b, b.nodes
    ensures r.Ok? ==>
      && IsPost(op, m, t, terms, old(b.cachedMaxFeeBps), now) && op.pruned == KeysOf(m, found)
      && op.postSeq == old(b.nextSeq)
    ensures r.Ok? ==> Runs.Enabled(old(x.View()), op) && x.View() == Runs.Step(old(x.View()), op) && Mirrors(x, m, b)
    ensures Quote(old(x.markets)[m], terms, old(b.cachedMaxFeeBps), now).Ok? ==>
      FirstExpiredOf(OrdersOf(old(b.nodes[..])), t, now, found)
    ensures r == match old(Refusal(x, m, b, t, terms, now, found)) case None => Ok(()) case Some(error) => Err(error)
  {
    hide Takes, Inv, Tidy, OrdersOf, MapsTo, Covered, AllOf, FirstExpiredOf, ReleasedAll, Held, Quote, Runs.Step,
      Runs.Enabled, Runs.CanPrune, CanPlace, PlacedOrder;
    ghost var (was, s) := (x.View(), b.nodes[..]);
    op, found := Runs.Open(0), [];
    var feeBps := b.cachedMaxFeeBps;
    var quote := Quote(x.markets[m], terms, feeBps, now);
    if quote.Err? { return Err(quote.error), op, found; }
    QuoteMeans(x.markets[m], terms, feeBps, now);
    MarketInv(was, m, t);
    var refund;
    refund, found := PruneOwn(x, m, b, t, now);
    HeldFits(was, m, s, found, t);
    var ok, balance := Recycle(x.accounts[t], refund.value, quote.value.0 + quote.value.1);
    if !ok { return Err(InsufficientFree), op, found; }
    x.accounts := x.accounts[t := balance];
    ghost var slot, data;
    ok, slot, data := RestIntent(x, m, b, t, terms, quote.value);
    if !ok { return Err(BookLimit), op, found; }
    PostReady(was, m, s, found, t, now);
    PlaceAddsUp(was, ReleasedAll(was, KeysOf(m, found)), x.View(), (m, slot), Order(t, data), Held(s, found));
    PostAddsUp(was, x.View(), m, s, found, terms, feeBps, now, slot, Order(t, data));
    op := Runs.Post(m, t, terms, KeysOf(m, found), feeBps, slot, data.ownerSeat, data.postSeq, now);
    r := Ok(());
  }

  // ----- re-entry -----------------------------------------------------------------------------------------------

  /** Clears one side's re-entry flag. */
  method ClearFlag(x: Exchange, pk: Key, long: bool)
    requires pk in x.positions
    modifies x`positions
    ensures x.View() == Consumption(old(x.View()), pk, long)
  {
    x.positions := x.positions[pk := Unflagged(x.positions[pk], long)];
  }

  /** A claim by trader t, as an operation on the ledger. */
  ghost predicate IsClaim(op: Runs.Op, pk: Key, long: bool, feeBps: nat, expiration: nat, now: nat) {
    op.Claim? && op.pk == pk && op.long == long && op.feeBps == feeBps && op.expiration == expiration && op.now == now
  }

  /** What a claim of n contracts reserves is within the owner's means. */
  lemma ClaimReady(st: State, pk: Key, long: bool, n: nat, feeBps: nat, expiration: nat, now: nat)
    requires Inv(st) && CanClaim(st, pk, long, expiration, now)
    ensures var t := OwnerOf(st.positions[pk], long);
      && Rich(st.accounts[t], 0, 0) && pk.0 in st.nextIds && 0 < st.markets[pk.0].bucket < U64
      && (IsLargestAffordable(n, st.accounts[t].free, st.markets[pk.0].bucket, feeBps) ==>
        Cost(n, st.markets[pk.0].bucket, feeBps) <= st.accounts[t].free)
  {
    RichAccount(st, OwnerOf(st.positions[pk], long));
    MarketKnown(st, pk.0);
  }

  /** The same with nothing pruned. */
  lemma PlaceAddsUpAlone(st: State, st': State, k: Key, o: Order)
    requires o.owner in st.accounts && k.0 in st.markets && HasId(st, k.0) && k !in st.orders
    requires o.data.Intent? && o.data.remaining > 0 && o.data.reserved == o.data.remaining * st.markets[k.0].bucket
    requires var (due, b) := (o.data.reserved + o.data.feeBuffer, st.accounts[o.owner]);
      && due <= b.free
      && st' == st.(accounts := st.accounts[o.owner := Balance(b.free - due, b.reserved + due, b.locked)],
                    orders := st.orders[k := o], nextIds := st.nextIds[k.0 := st.nextIds[k.0] + 1])
    ensures CanPlace(st, k, o) && st' == PlacedOrder(st, k, o)
  {
    assert Credited(st.accounts, Delta(o.owner, 0, 0, 0)) == st.accounts;
    hide Credited, CanPlace, PlacedOrder;
    PlaceAddsUp(st, st, st', k, o, 0);
  }

  /** The pieces of a claim add up to the operation. */
  lemma ClaimAddsUp(st: State, st1: State, op: Runs.Op, o: Order)
    requires Inv(st) && op.Claim? && CanClaim(st, op.pk, op.long, op.expiration, op.now) && op.contracts > 0
    requires HasId(st, op.pk.0)
    requires IsLargestAffordable(op.contracts, st.accounts[OwnerOf(st.positions[op.pk], op.long)].free,
                                 st.markets[op.pk.0].bucket, op.feeBps)
    requires o == ReentryOrder(st, op.pk, op.long, op.contracts, op.feeBps, op.expiration, Runs.NextId(st, op.pk.0),
                               op.seat, op.postSeq)
    requires (op.pk.0, op.slot) !in st.orders && CanPlace(st, (op.pk.0, op.slot), o)
    requires st1 == PlacedOrder(st, (op.pk.0, op.slot), o)
    ensures op.pk in st1.positions && Runs.Enabled(st, op) && Consumption(st1, op.pk, op.long) == Runs.Step(st, op)
  {
    hide Inv, IsLargestAffordable, CanPlace, PlacedOrder, HasId, ReentryOrder, Consumption;
    PlaceKeepsInv(st, (op.pk.0, op.slot), o);
  }

  /** Reserves for n contracts, rests them, and uses up the flag. Only the book's limits refuse it. */
  method Repost(x: Exchange, b: Book, pk: Key, long: bool, n: nat, expiration: nat, now: nat)
      returns (ok: bool, ghost op: Runs.Op)
    requires Inv(x.View()) && Mirrors(x, pk.0, b) && CanClaim(x.View(), pk, long, expiration, now) && n > 0
    requires IsLargestAffordable(n, x.accounts[OwnerOf(x.positions[pk], long)].free, x.markets[pk.0].bucket,
                                 b.cachedMaxFeeBps)
    modifies x`accounts, x`positions, x`orders, x`nextIds, b, b.nodes
    ensures ok <==> old(Takes(b.nodes[..], b.layout, b.nextIntentId, b.nextSeq, OwnerOf(x.positions[pk], long), 0))
    ensures ok ==> IsClaim(op, pk, long, old(b.cachedMaxFeeBps), expiration, now)
    ensures ok ==> Runs.Enabled(old(x.View()), op) && x.View() == Runs.Step(old(x.View()), op) && Mirrors(x, pk.0, b)
  {
    hide Takes, Inv, Tidy, OrdersOf, MapsTo, Covered, IsLargestAffordable, Cost, Runs.Step, Runs.Enabled, CanPlace,
      PlacedOrder, Consumption, Buffer, ValidatePriceTicked;
    ghost var was := x.View();
    op := Runs.Open(0);
    var (p, market, feeBps) := (x.positions[pk], x.markets[pk.0], b.cachedMaxFeeBps);
    var t := OwnerOf(p, long);
    ClaimReady(was, pk, long, n, feeBps, expiration, now);
    var due := (n * market.bucket, Buffer(n, market.bucket, feeBps));
    CostIs(n, market.bucket, feeBps);
    var balance;
    ok, balance := Recycle(x.accounts[t], 0, due.0 + due.1);
    assert ok;
    x.accounts := x.accounts[t := balance];
    var terms := Terms(if long then Long else Short, ReentryPrice(p, long), n, expiration, true);
    ghost var slot, data;
    ok, slot, data := RestIntent(x, pk.0, b, t, terms, due);
    if !ok { return; }
    op := Runs.Claim(pk, long, n, feeBps, slot, data.ownerSeat, data.postSeq, expiration, now);
    PlaceAddsUpAlone(was, x.View(), (pk.0, slot), Order(t, data));
    ClaimAddsUp(was, x.View(), op, Order(t, data));
    ClearFlag(x, pk, long);
  }

  lemma PriceErrors(price: nat, tick: nat)
    ensures ValidatePriceTicked(price, tick).Err? ==> ValidatePriceTicked(price, tick).error != BookLimit
  {
  }

  /** ClaimReentry, signed by trader t. With something to post, a book at one of its limits refuses it. */
  method ClaimReentry(x: Exchange, b: Book, pk: Key, long: bool, t: nat, expiration: nat, now: nat)
      returns (r: Checked<()>, ghost op: Runs.Op)
    requires Inv(x.View()) && Mirrors(x, pk.0, b) && b.cachedMaxFeeBps < 0x1_0000
    modifies x`accounts, x`positions, x`orders, x`nextIds, b, b.nodes
    ensures r.Ok? ==>
      && IsClaim(op, pk, long, old(b.cachedMaxFeeBps), expiration, now) && pk in old(x.positions)
      && OwnerOf(old(x.positions)[pk], long) == t
    ensures r.Ok? ==> Runs.Enabled(old(x.View()), op) && x.View() == Runs.Step(old(x.View()), op) && Mirrors(x, pk.0, b)
    ensures r.Err? && r.error != BookLimit ==>
      || !CanClaim(old(x.View()), pk, long, expiration, now) || OwnerOf(old(x.positions)[pk], long) != t
      || (var (free, bucket) := (old(x.accounts)[t].free, old(x.markets)[pk.0].bucket);
          free >= 0 && bucket > 0 && Cost(Ceiling(free, bucket), bucket, old(b.cachedMaxFeeBps)) >= U64)
    ensures r == Err(BookLimit) ==> !old(Takes(b.nodes[..], b.layout, b.nextIntentId, b.nextSeq, t, 0))
  {
    hide Takes, Inv, Tidy, OrdersOf, MapsTo, Covered, IsLargestAffordable, Cost, Ceiling, Runs.Step, Runs.Enabled,
      CanPlace, PlacedOrder, Consumption, Buffer, ValidatePriceTicked;
    ghost var was := x.View();
    op := Runs.Open(0);
    var feeBps := b.cachedMaxFeeBps;
    if pk !in x.positions || x.positions[pk].status == LIVE || !Flag(x.positions[pk], long) {
      return Err(InvalidSide), op;
    }
    var p := x.positions[pk];
    if OwnerOf(p, long) != t || t !in x.accounts { return Err(InvalidSide), op; }
    var market := x.markets[pk.0];
    var price := ValidatePriceTicked(ReentryPrice(p, long), market.tick);
    PriceErrors(ReentryPrice(p, long), market.tick);
    if price.Err? { return Err(price.error), op; }
    if expiration <= now { return Err(IntentExpired), op; }
    ClaimReady(was, pk, long, 0, feeBps, expiration, now);
    var count := ContractsToRepost(x.accounts[t].free, market.bucket, feeBps);
    if count.Err? { return Err(count.error), op; }
    var n := count.value;
    if n == 0 {
      ClearFlag(x, pk, long);
      op := Runs.Claim(pk, long, 0, feeBps, 0, 0, 0, expiration, now);
      EmptyClaim(was, pk, long, feeBps, expiration, now);
      return Ok(()), op;
    }
    var ok;
    ok, op := Repost(x, b, pk, long, n, expiration, now);
    r := if ok then Ok(()) else Err(BookLimit);
  }

  lemma CostIs(n: nat, bucket: nat, feeBps: nat)
    ensures Cost(n, bucket, feeBps) == n * bucket + Buffer(n, bucket, feeBps)
  {
  }

  lemma EmptyClaim(st: State, pk: Key, long: bool, feeBps: nat, expiration: nat, now: nat)
    requires CanClaim(st, pk, long, expiration, now)
    requires IsLargestAffordable(0, st.accounts[OwnerOf(st.positions[pk], long)].free, st.markets[pk.0].bucket, feeBps)
    ensures var op := Runs.Claim(pk, long, 0, feeBps, 0, 0, 0, expiration, now);
      Runs.Enabled(st, op) && Consumption(st, pk, long) == Runs.Step(st, op)
  {
  }

  // ----- pruning for anyone ------------------------------------------------------------------------------------------

  predicate Prunable(r: map<nat, Order>, now: nat, i: nat) {
    i in r && r[i].data.Intent? && r[i].data.expiration <= now && r[i].data.remaining != 0
  }

  /** The first expired orders below `bound` by slot, at most `cap`. */
  ghost predicate FirstExpired(r: map<nat, Order>, now: nat, work: seq<nat>, cap: nat, bound: nat) {
    && |work| <= cap && Ascends(work) && (forall k :: 0 <= k < |work| ==> work[k] < bound && Prunable(r, now, work[k]))
    && (forall i: nat ::
      i < bound && Prunable(r, now, i) ==> i in work || (|work| == cap && forall k :: 0 <= k < |work| ==> work[k] < i))
  }

  lemma OneMoreWork(r: map<nat, Order>, now: nat, work: seq<nat>, cap: nat, i: nat)
    requires FirstExpired(r, now, work, cap, i) && |work| < cap && Prunable(r, now, i)
    ensures FirstExpired(r, now, work + [i], cap, i + 1)
  {
    assert forall k :: k in work ==> k in work + [i];
  }

  lemma WorkDone(r: map<nat, Order>, now: nat, work: seq<nat>, cap: nat, i: nat, bound: nat)
    requires FirstExpired(r, now, work, cap, i) && |work| >= cap && i <= bound
    ensures FirstExpired(r, now, work, cap, bound)
  {
  }

  /** Lists the expired orders to prune, one for each margin account given, with their owners. */
  method CollectExpired(b: Book, cap: nat, now: nat) returns (work: seq<nat>, owners: seq<nat>)
    requires Tidy(b)
    ensures FirstExpired(OrdersOf(b.nodes[..]), now, work, cap, b.nodes.Length)
    ensures |owners| == |work|
    ensures forall k ::
      0 <= k < |work| ==> work[k] in OrdersOf(b.nodes[..]) && owners[k] == OrdersOf(b.nodes[..])[work[k]].owner
  {
    hide Tidy, OrdersOf;
    work, owners := [], [];
    for i := 0 to b.nodes.Length
      invariant FirstExpired(OrdersOf(b.nodes[..]), now, work, cap, i)
      invariant |owners| == |work|
      invariant forall k ::
        0 <= k < |work| ==> work[k] in OrdersOf(b.nodes[..]) && owners[k] == OrdersOf(b.nodes[..])[work[k]].owner
    {
      if |work| >= cap { WorkDone(OrdersOf(b.nodes[..]), now, work, cap, i, b.nodes.Length); return; }
      var n := b.nodes[i];
      AtSlot(b, i);
      if n.Used? && n.data.Intent? && n.data.remaining != 0 && n.data.expiration <= now {
        SeatOf(b, i);
        OneMoreWork(OrdersOf(b.nodes[..]), now, work, cap, i);
        work, owners := work + [i], owners + [b.nodes[n.data.ownerSeat].data.trader];
      }
    }
  }

  lemma AtSlot(b: Book, i: nat)
    requires Tidy(b) && i < b.nodes.Length
    ensures i in OrdersOf(b.nodes[..]) <==> IntentAt(b.nodes[..], i)
    ensures i in OrdersOf(b.nodes[..]) ==>
      OrdersOf(b.nodes[..])[i] == Order(OwnerAt(b.nodes[..], b.nodes[i].data), b.nodes[i].data)
  {
    if IntentAt(b.nodes[..], i) { InOrders(b, i); }
  }

  /** The margin accounts given serve the owners in order, skipping those not needed. */
  predicate Serves(margins: seq<nat>, owners: seq<nat>) {
    if owners == [] then true
    else if margins == [] then false
    else if margins[0] == owners[0] then Serves(margins[1..], owners[1..])
    else Serves(margins[1..], owners)
  }

  /** The owners of the orders in the listed slots. */
  ghost function OwnersOf(o: map<Key, Order>, m: nat, work: seq<nat>): seq<nat> {
    seq(|work|, k requires 0 <= k < |work| => if (m, work[k]) in o then o[(m, work[k])].owner else 0)
  }

  /** The next margin account, from the cursor on, of the first owner still to serve. */
  method NextAccount(margins: seq<nat>, cursor: nat, owners: seq<nat>) returns (j: nat)
    requires cursor <= |margins| && owners != []
    ensures cursor <= j <= |margins|
    ensures j == |margins| ==> !Serves(margins[cursor..], owners)
    ensures j < |margins| ==> Serves(margins[cursor..], owners) == Serves(margins[j + 1..], owners[1..])
  {
    j := cursor;
    while j < |margins| && margins[j] != owners[0]
      invariant cursor <= j <= |margins| && Serves(margins[j..], owners) == Serves(margins[cursor..], owners)
    {
      assert margins[j..][1..] == margins[j + 1..];
      j := j + 1;
    }
    if j < |margins| { assert margins[j..][1..] == margins[j + 1..]; }
  }

  /** The first k orders of the work list have been released. */
  ghost predicate PrunedTo(x: Exchange, m: nat, b: Book, work: seq<nat>, k: nat, was: State)
    requires k <= |work|
    reads x, b, b.nodes
  {
    Inv(x.View()) && Mirrors(x, m, b) && x.View() == ReleasedAll(was, KeysOf(m, work[..k]))
  }

  /** Releases the next order of the work list. */
  method PruneOne(x: Exchange, m: nat, b: Book, work: seq<nat>, k: nat, ghost was: State, ghost r: map<nat, Order>,
                  ghost cap: nat, now: nat)
    requires k < |work| && PrunedTo(x, m, b, work, k, was) && Inv(was)
    requires MapsTo(was.orders, m, r) && FirstExpired(r, now, work, cap, b.nodes.Length)
    modifies x`accounts, x`orders, b`longRoot, b`shortRoot, b`seatRoot, b`freelistHead, b`layout, b.nodes
    ensures PrunedTo(x, m, b, work, k + 1, was)
  {
    hide Inv, Tidy, OrdersOf, MapsTo, Covered, FirstExpired, Released, ReleasedAll, Runs.CanPrune;
    WorkFits(was, m, r, work, cap, b.nodes.Length, now);
    WorkKeys(was, m, work, now);
    StillThere(x, was, m, b, r, work, k, cap, b.nodes.Length, now);
    ReleaseSlot(x, m, b, work[k]);
    NextReleased(was, m, work, k);
    PrefixKeepsInv(was, m, work, k + 1);
  }

  lemma WorkKeys(st: State, m: nat, work: seq<nat>, now: nat)
    requires Runs.CanPrune(st, KeysOf(m, work), now)
    ensures Elements(KeysOf(m, work)) <= st.orders.Keys && NoRepeats(KeysOf(m, work))
  {
  }

  /** PruneExpired: expired orders are released, each to the next margin account of its owner. It fails
      exactly when the accounts given do not serve the owners in order. */
  method PruneExpired(x: Exchange, m: nat, b: Book, margins: seq<nat>, now: nat)
      returns (ok: bool, ghost work: seq<nat>)
    requires Inv(x.View()) && Mirrors(x, m, b)
    modifies x`accounts, x`orders, b`longRoot, b`shortRoot, b`seatRoot, b`freelistHead, b`layout, b.nodes
    ensures FirstExpired(OrdersOf(old(b.nodes[..])), now, work, |margins|, b.nodes.Length)
    ensures ok ==> Runs.Enabled(old(x.View()), Runs.Prune(KeysOf(m, work), now))
    ensures ok ==> x.View() == Runs.Step(old(x.View()), Runs.Prune(KeysOf(m, work), now)) && Mirrors(x, m, b)
    ensures ok <==> Serves(margins, OwnersOf(old(x.orders), m, work))
  {
    hide Inv, Mirrors, OrdersOf, MapsTo, FirstExpired, Released, ReleasedAll, Ascends, PrunedTo, Runs.Enabled,
      Runs.Step, Serves;
    ghost var (was, r) := (x.View(), OrdersOf(b.nodes[..]));
    BookTidy(x, m, b);
    var slots, owners := CollectExpired(b, |margins|, now);
    work := slots;
    OwnersAre(was, m, r, slots, owners);
    WorkFits(was, m, r, slots, |margins|, b.nodes.Length, now);
    NothingPruned(x, m, b, slots, was);
    var cursor := 0;
    for k := 0 to |slots|
      invariant cursor <= |margins| && Serves(margins[cursor..], owners[k..]) == Serves(margins, owners)
      invariant PrunedTo(x, m, b, slots, k, was)
    {
      var j := NextAccount(margins, cursor, owners[k..]);
      if j == |margins| { return false, work; }
      assert owners[k..][1..] == owners[k + 1..];
      cursor := j + 1;
      PruneOne(x, m, b, slots, k, was, r, |margins|, now);
    }
    AllPruned(x, m, b, slots, was, now);
    NobodyToServe(margins[cursor..]);
    assert owners[|slots|..] == [];
    ok := true;
  }

  lemma BookTidy(x: Exchange, m: nat, b: Book)
    requires Mirrors(x, m, b)
    ensures Tidy(b) && MapsTo(x.orders, m, OrdersOf(b.nodes[..]))
  {
  }

  lemma NobodyToServe(margins: seq<nat>)
    ensures Serves(margins, [])
  {
  }

  lemma NothingPruned(x: Exchange, m: nat, b: Book, work: seq<nat>, was: State)
    requires Inv(was) && Mirrors(x, m, b) && x.View() == was
    ensures PrunedTo(x, m, b, work, 0, was)
  {
    assert KeysOf(m, work[..0]) == [];
  }

  lemma AllPruned(x: Exchange, m: nat, b: Book, work: seq<nat>, was: State, now: nat)
    requires PrunedTo(x, m, b, work, |work|, was) && Runs.CanPrune(was, KeysOf(m, work), now)
    ensures Mirrors(x, m, b) && Runs.Enabled(was, Runs.Prune(KeysOf(m, work), now))
    ensures x.View() == Runs.Step(was, Runs.Prune(KeysOf(m, work), now))
  {
    hide Inv, Mirrors, Runs.CanPrune;
    assert work[..|work|] == work;
  }

  lemma OwnersAre(st: State, m: nat, r: map<nat, Order>, work: seq<nat>, owners: seq<nat>)
    requires MapsTo(st.orders, m, r) && |owners| == |work|
    requires forall k :: 0 <= k < |work| ==> work[k] in r && owners[k] == r[work[k]].owner
    ensures owners == OwnersOf(st.orders, m, work)
  {
  }

  /** The work list names each order once, and may be pruned. */
  lemma WorkFits(st: State, m: nat, r: map<nat, Order>, work: seq<nat>, cap: nat, bound: nat, now: nat)
    requires MapsTo(st.orders, m, r) && FirstExpired(r, now, work, cap, bound)
    ensures Runs.CanPrune(st, KeysOf(m, work), now)
    ensures ReleasedAll(st, KeysOf(m, work[..0])) == st
  {
    var ks := KeysOf(m, work);
    forall k | k in ks ensures k in st.orders && Expired(st.orders[k], now) {
      var i :| 0 <= i < |work| && ks[i] == k;
      assert Prunable(r, now, work[i]);
    }
    forall i, j | 0 <= i < j < |work| ensures ks[i] != ks[j] { assert work[i] < work[j]; }
  }

  lemma PrefixKeepsInv(st: State, m: nat, work: seq<nat>, k: nat)
    requires Inv(st) && k <= |work| && Elements(KeysOf(m, work)) <= st.orders.Keys && NoRepeats(KeysOf(m, work))
    ensures Inv(ReleasedAll(st, KeysOf(m, work[..k])))
    ensures ReleasedAll(st, KeysOf(m, work[..k])).orders == st.orders - Elements(KeysOf(m, work[..k]))
    ensures ReleasedAll(st, KeysOf(m, work[..k])).accounts.Keys == st.accounts.Keys
  {
    hide Inv, ReleasedAll;
    KeysOfPrefix(m, work, k);
    var ks := KeysOf(m, work);
    assert Elements(ks[..k]) <= Elements(ks);
    assert NoRepeats(ks[..k]);
    ReleaseAllKeepsInv(st, ks[..k]);
  }

  lemma StillThere(x: Exchange, st: State, m: nat, b: Book, r: map<nat, Order>, work: seq<nat>, k: nat, cap: nat,
                   bound: nat, now: nat)
    requires Inv(st) && MapsTo(st.orders, m, r) && FirstExpired(r, now, work, cap, bound) && k < |work|
    requires Mirrors(x, m, b)
    requires x.View() == ReleasedAll(st, KeysOf(m, work[..k]))
    ensures IntentAt(b.nodes[..], work[k]) && (m, work[k]) in x.orders && x.orders[(m, work[k])].data.Intent?
  {
    hide Inv, Tidy, ReleasedAll, FirstExpired;
    WorkFits(st, m, r, work, cap, bound, now);
    PrefixKeepsInv(st, m, work, k);
    WorkApart(r, now, work, cap, bound, m, k);
    assert (m, work[k]) in x.orders;
    assert work[k] in OrdersOf(b.nodes[..]);
  }

  lemma WorkApart(r: map<nat, Order>, now: nat, work: seq<nat>, cap: nat, bound: nat, m: nat, k: nat)
    requires FirstExpired(r, now, work, cap, bound) && k < |work|
    ensures (m, work[k]) !in Elements(KeysOf(m, work[..k])) && Prunable(r, now, work[k])
  {
    forall j | 0 <= j < k ensures KeysOf(m, work[..k])[j] != (m, work[k]) { assert work[j] < work[k]; }
  }

  lemma NextReleased(st: State, m: nat, work: seq<nat>, k: nat)
    requires k < |work|
    ensures var (before, key) := (ReleasedAll(st, KeysOf(m, work[..k])), (m, work[k]));
      key in before.orders && before.orders[key].data.Intent? && before.orders[key].owner in before.accounts ==>
        ReleasedAll(st, KeysOf(m, work[..k + 1])) == Released(before, key)
  {
    var ks := KeysOf(m, work[..k + 1]);
    KeysOfPrefix(m, work[..k + 1], k);
    assert work[..k + 1][..k] == work[..k];
    LastReleased(st, ks);
  }

  // ----- a new instrument -----------------------------------------------------------------------------------------

  /** CreateInstrument, after the admin and registry checks: a market and its empty book. */
  method CreateInstrument(x: Exchange, m: nat, market: Market, size: nat) returns (ok: bool, b: Book)
    requires size < 0x1_0000_0000 && m !in x.nextIds && forall k :: k in x.orders ==> k.0 != m
    modifies x`markets, x`nonces, x`nextIds
    ensures ok <==> size >= 16 && Runs.Enabled(old(x.View()), Runs.List(m, market))
    ensures ok ==> x.View() == Listed(old(x.View()), m, market) && Mirrors(x, m, b) && fresh(b) && fresh(b.nodes)
  {
    hide Tidy, Covered, OrdersOf, TreeSound, FreeSound;
    b := new Book(size, 0);
    ok := size >= 16 && m !in x.markets && WellFormed(market);
    if !ok { return; }
    x.markets := x.markets[m := market];
    x.nextIds := x.nextIds[m := 1];
    if market.marketId !in x.nonces { x.nonces := x.nonces[market.marketId := 0]; }
    FreshBookTidy(b);
    assert MapsTo(x.orders, m, map[]);
  }

  lemma FreshBookTidy(b: Book)
    requires b.Valid() && b.layout.tail == b.capacity
    requires b.layout.roles == seq(b.nodes.Length, i => if i == 0 then Sentinel else Untouched)
    requires forall i :: 0 <= i < b.nodes.Length ==> b.nodes[i] == Free(0)
    ensures Tidy(b) && OrdersOf(b.nodes[..]) == map[] && Covered(b.nodes[..])
  {
    forall i: nat ensures !IntentAt(b.nodes[..], i) && !SeatAt(b.nodes[..], i) {
      if i < b.nodes.Length { assert b.nodes[..][i] == Free(0); }
    }
  }
}
