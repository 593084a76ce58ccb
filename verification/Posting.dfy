/** The book part of posting, cancelling and pruning. */
module Posting {
  import opened Nodes
  import opened IntentBook
  import opened Arena
  import opened Matcher
  import opened FixedPoint
  import opened Ledger
  import opened Operations
  import opened Desk

  const U32: nat := 0x1_0000_0000

  // ----- changing a slot in place --------------------------------------------------------------------------

  /** data' keeps what places data in its tree and says whose it is. */
  predicate Amends(data: Data, data': Data) {
    match data
    case Intent(_, _, _, _, _, _, _, _, _, _, _) =>
      && data'.Intent?
      && data' == data.(remaining := data'.remaining, reserved := data'.reserved, feeBuffer := data'.feeBuffer)
    case Seat(_, _) => data'.Seat? && data'.trader == data.trader
  }

  lemma Amended(s: Pool, s': Pool, roles: seq<Role>, idx: nat, data: Data, nextId: nat, nextSeq: nat)
    requires Tagged(s, roles) && Intents(s, nextId, nextSeq) && OneSeatEach(s)
    requires SameContents(s, s', {idx}) && idx < |s| && s[idx].Used? && s'[idx].Used? && s'[idx].data == data
    requires Amends(s[idx].data, data)
    ensures Tagged(s', roles) && Intents(s', nextId, nextSeq) && OneSeatEach(s')
    ensures data.Intent? ==> OrdersOf(s') == OrdersOf(s)[idx := Order(OwnerAt(s, data), data)]
    ensures data.Seat? ==> OrdersOf(s') == OrdersOf(s)
  {
    assert TaggedAt(s[idx], roles[idx]);
    Retagged(s, s', roles, idx, roles[idx]);
    assert roles[idx := roles[idx]] == roles;
    ButOne(s, s', idx);
    assert IntentAt(s', idx) == data.Intent? == IntentAt(s, idx) && SeatAt(s', idx) == data.Seat? == SeatAt(s, idx);
    hide SameContents, Tagged, TaggedAt;
    AmendedOrders(s, s', idx, data, nextId, nextSeq);
    hide OrdersOf;
  }

  lemma AmendedOrders(s: Pool, s': Pool, idx: nat, data: Data, nextId: nat, nextSeq: nat)
    requires Intents(s, nextId, nextSeq) && SameBut(s, s', idx)
    requires idx < |s| && s[idx].Used? && s'[idx].Used? && s'[idx].data == data && Amends(s[idx].data, data)
    ensures data.Intent? ==> OrdersOf(s') == OrdersOf(s)[idx := Order(OwnerAt(s, data), data)]
    ensures data.Seat? ==> OrdersOf(s') == OrdersOf(s)
  {
    assert IntentAt(s', idx) == data.Intent? == IntentAt(s, idx) && SeatAt(s', idx) == data.Seat? == SeatAt(s, idx);
    forall i: nat | i != idx
      ensures (i in OrdersOf(s') <==> i in OrdersOf(s)) && (i in OrdersOf(s) ==> OrdersOf(s')[i] == OrdersOf(s)[i])
    {
      if IntentAt(s, i) { assert SeatAt(s, s[i].data.ownerSeat) && SeatAt(s', s[i].data.ownerSeat); }
    }
    if data.Intent? {
      assert SeatAt(s, data.ownerSeat) && data.ownerSeat != idx && SeatAt(s', data.ownerSeat);
    }
  }

  /** Rewrites the contents of a slot in place. */
  method Amend(b: Book, idx: nat, data: Data)
    requires Tidy(b) && idx < b.nodes.Length && b.nodes[idx].Used? && Amends(b.nodes[idx].data, data)
    modifies b.nodes
    ensures Tidy(b) && SameContents(old(b.nodes[..]), b.nodes[..], {idx}) && b.nodes[idx].Used?
    ensures b.nodes[idx].data == data
    ensures data.Intent? ==>
      OrdersOf(b.nodes[..]) == OrdersOf(old(b.nodes[..]))[idx := Order(OwnerAt(old(b.nodes[..]), data), data)]
    ensures data.Seat? ==> OrdersOf(b.nodes[..]) == OrdersOf(old(b.nodes[..]))
  {
    ghost var (s, roles) := (b.nodes[..], b.layout.roles);
    assert TaggedAt(s[idx], roles[idx]);
    hide Tagged, Intents, OneSeatEach, SameContents, OrdersOf, TreeSound, FreeSound;
    Update(b, if b.nodes[idx].data.Seat? then Seats else b.nodes[idx].data.side, idx, data);
    Amended(s, b.nodes[..], roles, idx, data, b.nextIntentId, b.nextSeq);
  }

  // ----- what the seats' counts cover ------------------------------------------------------------------------

  /** The slots of the intents standing under seat j. */
  ghost function RestingAt(s: Pool, j: nat): set<nat> {
    set i: nat | i < |s| && IntentAt(s, i) && s[i].data.ownerSeat == j
  }

  /** Seat j counts at least n intents more than rest under it. */
  ghost predicate Slack(s: Pool, j: nat, n: nat) { SeatAt(s, j) && |RestingAt(s, j)| + n <= s[j].data.activeIntents }

  /** Every seat's count covers the intents that rest under it. A fill does not lower it, so it may be more. */
  ghost predicate Covered(s: Pool) { forall j: nat :: SeatAt(s, j) ==> Slack(s, j, 0) }

  /** Covered, with room for n more under seat k. */
  ghost predicate CoveredBut(s: Pool, k: nat, n: nat) { Covered(s) && Slack(s, k, n) }

  /** Where contents change at one slot that holds no intent before or after, the intents stay. */
  lemma SameResting(s: Pool, s': Pool, idx: nat, j: nat)
    requires SameContents(s, s', {idx}) && !IntentAt(s, idx) && !IntentAt(s', idx)
    ensures RestingAt(s', j) == RestingAt(s, j)
  {
    forall i: nat ensures i in RestingAt(s', j) <==> i in RestingAt(s, j) {
      if i != idx { SameAt(s, s', {idx}, i); }
    }
  }

  /** A seat's count changed, or a new seat with none. */
  lemma Recounted(s: Pool, s': Pool, seat: nat, n: nat)
    requires Covered(s) && SameContents(s, s', {seat}) && !IntentAt(s, seat) && SeatAt(s', seat)
    requires |RestingAt(s, seat)| + n <= s'[seat].data.activeIntents
    ensures CoveredBut(s', seat, n)
  {
    SameResting(s, s', seat, seat);
    forall j: nat | SeatAt(s', j) ensures Slack(s', j, 0) {
      if j != seat {
        SameAt(s, s', {seat}, j);
        SameResting(s, s', seat, j);
        assert Slack(s, j, 0);
      }
    }
  }

  /** No intent stands under a slot that is not a seat. */
  lemma NobodyAt(s: Pool, nextId: nat, nextSeq: nat, j: nat)
    requires Intents(s, nextId, nextSeq) && !SeatAt(s, j)
    ensures RestingAt(s, j) == {}
  {
    forall i: nat ensures i !in RestingAt(s, j) {}
  }

  /** An intent added under a seat with slack. */
  lemma CoveredByOne(s: Pool, s': Pool, idx: nat, n: nat)
    requires SameContents(s, s', {idx}) && idx < |s| && s[idx].Free? && IntentAt(s', idx)
    requires CoveredBut(s, s'[idx].data.ownerSeat, n + 1)
    ensures CoveredBut(s', s'[idx].data.ownerSeat, n)
  {
    var seat := s'[idx].data.ownerSeat;
    forall j: nat ensures RestingAt(s', j) == if j == seat then RestingAt(s, j) + {idx} else RestingAt(s, j) {
      forall i: nat
        ensures i in RestingAt(s', j) <==> i in if j == seat then RestingAt(s, j) + {idx} else RestingAt(s, j)
      {
        if i != idx { SameAt(s, s', {idx}, i); }
      }
    }
    forall j: nat | SeatAt(s', j) ensures Slack(s', j, if j == seat then n else 0) {
      SameAt(s, s', {idx}, j);
      assert Slack(s, j, 0);
    }
    SameAt(s, s', {idx}, seat);
  }

  /** Intents of one seat taken off, which leaves as much more room under it. */
  lemma CoveredByFewer(s: Pool, s': Pool, seat: nat, found: set<nat>)
    requires Covered(s) && SeatAt(s, seat) && SameContents(s, s', found)
    requires forall i ::
      i in found ==> IntentAt(s, i) && s[i].data.ownerSeat == seat && !IntentAt(s', i) && !SeatAt(s', i)
    ensures CoveredBut(s', seat, |found|)
  {
    forall j: nat ensures RestingAt(s', j) == RestingAt(s, j) - found {
      forall i: nat ensures i in RestingAt(s', j) <==> i in RestingAt(s, j) - found {
        if i !in found { SameAt(s, s', found, i); }
      }
    }
    assert found <= RestingAt(s, seat);
    forall j: nat | SeatAt(s', j) ensures Slack(s', j, 0) {
      SameAt(s, s', found, j);
      assert Slack(s, j, 0);
    }
    SameAt(s, s', found, seat);
    assert Slack(s, seat, 0);
  }

  /** An intent rewritten under the same seat. */
  lemma CoveredSame(s: Pool, s': Pool, idx: nat)
    requires Covered(s) && SameContents(s, s', {idx}) && IntentAt(s, idx) && IntentAt(s', idx)
    requires s'[idx].data.ownerSeat == s[idx].data.ownerSeat
    ensures Covered(s')
  {
    forall j: nat ensures RestingAt(s', j) == RestingAt(s, j) {
      forall i: nat ensures i in RestingAt(s', j) <==> i in RestingAt(s, j) {
        if i != idx { SameAt(s, s', {idx}, i); }
      }
    }
    forall j: nat | SeatAt(s', j) ensures Slack(s', j, 0) {
      SameAt(s, s', {idx}, j);
      assert Slack(s, j, 0);
    }
  }

  // ----- seats -------------------------------------------------------------------------------------------------

  lemma NobodySeated(b: Book, trader: nat)
    requires Tidy(b) && forall i: nat :: On(b, Seats, i) ==> b.nodes[i].data.trader != trader
    ensures forall i: nat :: SeatAt(b.nodes[..], i) ==> b.nodes[i].data.trader != trader
  {
    forall i: nat | SeatAt(b.nodes[..], i) ensures b.nodes[i].data.trader != trader {
      assert TaggedAt(b.nodes[..][i], b.layout.roles[i]);
      assert On(b, Seats, i);
    }
  }

  /** The trader has a seat. */
  ghost predicate Seated(s: Pool, trader: nat) { exists i: nat :: SeatAt(s, i) && s[i].data.trader == trader }

  /** find_or_create: the trader's seat, new if it had none. It fails exactly for a new trader on a full
      book. */
  method FindOrCreate(b: Book, trader: nat) returns (ok: bool, seat: nat)
    requires Tidy(b)
    modifies b.nodes, b`longRoot, b`shortRoot, b`seatRoot, b`freelistHead, b`nodeCount, b`layout
    ensures Tidy(b) && (ok <==> old(Seated(b.nodes[..], trader) || b.layout.FreeSlots() != {}))
    ensures ok ==> SeatAt(b.nodes[..], seat) && b.nodes[seat].data.trader == trader
    ensures ok && old(Seated(b.nodes[..], trader)) ==> b.nodes[..] == old(b.nodes[..]) && b.layout == old(b.layout)
    ensures ok && !old(Seated(b.nodes[..], trader)) ==>
      && b.nodes[seat].data.activeIntents == 0 && seat in old(b.layout.FreeSlots())
      && b.layout.FreeSlots() == old(b.layout.FreeSlots()) - {seat}
    ensures ok ==> OrdersOf(b.nodes[..]) == OrdersOf(old(b.nodes[..]))
    ensures ok ==>
      && SameContents(old(b.nodes[..]), b.nodes[..], {seat})
      && (old(b.nodes[seat]).Free? || b.nodes[..] == old(b.nodes[..]))
  {
    hide Tagged, Intents, OneSeatEach, SameContents, OrdersOf, TreeSound, FreeSound, Layout.FreeSlots;
    seat := FindSeat(b, trader);
    if seat != 0 {
      StillSame(b.nodes[..], {seat});
      assert SeatAt(b.nodes[..], seat);
      return true, seat;
    }
    NobodySeated(b, trader);
    ok, seat := Rest(b, Seats, Seat(trader, 0));
  }

  lemma StillSame(s: Pool, ids: set<nat>)
    ensures SameContents(s, s, ids)
  {
  }

  /** One more active intent on a seat; the 32-bit count may not wrap. */
  method CountUp(b: Book, seat: nat) returns (ok: bool)
    requires Tidy(b) && SeatAt(b.nodes[..], seat)
    modifies b.nodes
    ensures Tidy(b) && OrdersOf(b.nodes[..]) == OrdersOf(old(b.nodes[..])) && SeatAt(b.nodes[..], seat)
    ensures ok <==> old(b.nodes[seat].data.activeIntents) + 1 < U32
    ensures var was := old(b.nodes[seat].data);
      b.nodes[seat].data == if ok then Seat(was.trader, was.activeIntents + 1) else was
    ensures SameContents(old(b.nodes[..]), b.nodes[..], {seat})
  {
    var data := b.nodes[seat].data;
    ok := data.activeIntents + 1 < U32;
    if ok { Amend(b, seat, data.(activeIntents := data.activeIntents + 1)); }
  }

  /** n fewer active intents on a seat, down to none. */
  method CountDown(b: Book, seat: nat, n: nat)
    requires Tidy(b) && SeatAt(b.nodes[..], seat)
    modifies b.nodes
    ensures Tidy(b) && OrdersOf(b.nodes[..]) == OrdersOf(old(b.nodes[..])) && SeatAt(b.nodes[..], seat)
    ensures SameContents(old(b.nodes[..]), b.nodes[..], {seat})
    ensures b.nodes[seat].data.trader == old(b.nodes[seat].data.trader)
    ensures var was := old(b.nodes[seat].data.activeIntents);
      b.nodes[seat].data.activeIntents == if was >= n then was - n else 0
  {
    var data := b.nodes[seat].data;
    Amend(b, seat, data.(activeIntents := if data.activeIntents >= n then data.activeIntents - n else 0));
  }

  // ----- the counters --------------------------------------------------------------------------------------------

  lemma CountersGrow(s: Pool, nextId: nat, nextSeq: nat, nextId': nat, nextSeq': nat)
    requires Intents(s, nextId, nextSeq) && nextId <= nextId' && nextSeq <= nextSeq'
    ensures Intents(s, nextId', nextSeq')
  {
  }

  method NextIntentId(b: Book) returns (r: Option<nat>)
    requires Tidy(b)
    modifies b`nextIntentId
    ensures Tidy(b) && (r.Some? <==> old(b.nextIntentId) + 1 < U64)
    ensures r.Some? ==> r.value == old(b.nextIntentId) && b.nextIntentId == r.value + 1
    ensures r.None? ==> b.nextIntentId == old(b.nextIntentId)
  {
    if b.nextIntentId + 1 >= U64 { return None; }
    r := Some(b.nextIntentId);
    CountersGrow(b.nodes[..], b.nextIntentId, b.nextSeq, b.nextIntentId + 1, b.nextSeq);
    hide Intents, TreeSound, FreeSound;
    b.nextIntentId := b.nextIntentId + 1;
  }

  method NextSeq(b: Book) returns (r: Option<nat>)
    requires Tidy(b)
    modifies b`nextSeq
    ensures Tidy(b) && (r.Some? <==> old(b.nextSeq) + 1 < U64)
    ensures r.Some? ==> r.value == old(b.nextSeq) && b.nextSeq == r.value + 1
    ensures r.None? ==> b.nextSeq == old(b.nextSeq)
  {
    if b.nextSeq + 1 >= U64 { return None; }
    r := Some(b.nextSeq);
    CountersGrow(b.nodes[..], b.nextIntentId, b.nextSeq, b.nextIntentId, b.nextSeq + 1);
    hide Intents, TreeSound, FreeSound;
    b.nextSeq := b.nextSeq + 1;
  }

  // ----- resting a new intent -------------------------------------------------------------------------------------

  lemma FreshIntent(s: Pool, data: Data, nextId: nat, nextSeq: nat)
    requires Intents(s, nextId, nextSeq) && data.Intent? && !data.side.Seats? && data.id >= nextId
    requires SeatAt(s, data.ownerSeat)
    ensures Restable(s, data.side, data, data.id + 1, data.postSeq + 1)
  {
  }

  lemma NotThere(s: Pool, i: nat)
    requires i < |s| && s[i].Free?
    ensures i !in OrdersOf(s)
  {
  }

  /** What of a seat's count is left once n intents are gone. */
  function Fewer(count: nat, n: nat): nat { if count >= n then count - n else 0 }

  /** A book can take one more intent of the trader, once n of the trader's intents are gone: a slot for
      it, and one for a new trader's seat; room in the seat's count; and an id and a sequence number. */
  ghost predicate Takes(s: Pool, g: Layout, nextId: nat, nextSeq: nat, trader: nat, n: nat) {
    && |g.FreeSlots()| + n >= (if Seated(s, trader) then 1 else 2)
    && (forall i: nat :: SeatAt(s, i) && s[i].data.trader == trader ==> Fewer(s[i].data.activeIntents, n) + 1 < U32)
    && nextId + 1 < U64 && nextSeq + 1 < U64
  }

  /** The one seat of a trader decides for it. */
  lemma SeatDecides(s: Pool, g: Layout, nextId: nat, nextSeq: nat, trader: nat, seat: nat, n: nat)
    requires OneSeatEach(s) && SeatAt(s, seat) && s[seat].data.trader == trader
    ensures Takes(s, g, nextId, nextSeq, trader, n) <==>
      && |g.FreeSlots()| + n >= 1 && Fewer(s[seat].data.activeIntents, n) + 1 < U32 && nextId + 1 < U64
      && nextSeq + 1 < U64
  {
    assert Seated(s, trader);
    hide Fewer;
    forall i: nat | SeatAt(s, i) && s[i].data.trader == trader ensures i == seat { assert SeatAt(s, seat); }
  }

  lemma NoSeatDecides(s: Pool, g: Layout, nextId: nat, nextSeq: nat, trader: nat)
    requires !Seated(s, trader)
    ensures Takes(s, g, nextId, nextSeq, trader, 0) <==> |g.FreeSlots()| >= 2 && nextId + 1 < U64 && nextSeq + 1 < U64
  {
    hide Fewer;
  }

  lemma HowMany(a: set<nat>, i: nat)
    ensures a != {} <==> |a| >= 1
    ensures i in a ==> |a - {i}| == |a| - 1
  {
  }

  /** Seats the trader and counts one more intent. It fails exactly for a new trader on a full book, or on a
      full count; then the book can take no intent of the trader. */
  method SeatUp(b: Book, trader: nat) returns (ok: bool, seat: nat)
    requires Tidy(b)
    modifies b.nodes, b`longRoot, b`shortRoot, b`seatRoot, b`freelistHead, b`nodeCount, b`layout
    ensures Tidy(b) && (ok ==> OrdersOf(b.nodes[..]) == OrdersOf(old(b.nodes[..])))
    ensures ok ==> SeatAt(b.nodes[..], seat) && b.nodes[seat].data.trader == trader
    ensures old(Takes(b.nodes[..], b.layout, b.nextIntentId, b.nextSeq, trader, 0)) <==>
      ok && b.layout.FreeSlots() != {} && b.nextIntentId + 1 < U64 && b.nextSeq + 1 < U64
    ensures ok && old(Covered(b.nodes[..])) ==> CoveredBut(b.nodes[..], seat, 1)
  {
    hide Tagged, Intents, OneSeatEach, SameContents, OrdersOf, TreeSound, FreeSound, Layout.FreeSlots, Takes, Seated,
      Covered, CoveredBut;
    ghost var (s, g, isSeated) := (b.nodes[..], b.layout, Seated(b.nodes[..], trader));
    ok, seat := FindOrCreate(b, trader);
    if isSeated {
      SeatDecides(s, g, b.nextIntentId, b.nextSeq, trader, seat, 0);
    } else {
      NoSeatDecides(s, g, b.nextIntentId, b.nextSeq, trader);
    }
    HowMany(g.FreeSlots(), seat);
    if !ok { return; }
    HowMany(b.layout.FreeSlots(), seat);
    ghost var s1 := b.nodes[..];
    if Covered(s) { SeatCovered(s, s1, seat, b.nextIntentId, b.nextSeq); }
    ok := CountUp(b, seat);
    if ok && Covered(s) { OneMoreCounted(s1, b.nodes[..], seat); }
  }

  lemma SeatCovered(s: Pool, s1: Pool, seat: nat, nextId: nat, nextSeq: nat)
    requires Covered(s) && Intents(s, nextId, nextSeq) && SameContents(s, s1, {seat}) && SeatAt(s1, seat)
    requires seat < |s| && (s1 == s || s[seat].Free?)
    ensures CoveredBut(s1, seat, 0)
  {
    if s[seat].Free? {
      NobodyAt(s, nextId, nextSeq, seat);
      Recounted(s, s1, seat, 0);
    }
  }

  lemma OneMoreCounted(s1: Pool, s2: Pool, seat: nat)
    requires CoveredBut(s1, seat, 0) && SameContents(s1, s2, {seat}) && SeatAt(s2, seat)
    requires s2[seat].data.activeIntents == s1[seat].data.activeIntents + 1
    ensures CoveredBut(s2, seat, 1)
  {
    Recounted(s1, s2, seat, 1);
  }

  /** Seats the trader, counts the intent, numbers it, and rests it on its side of the book. It fails
      exactly when one of the book's limits is reached. */
  method PlaceIntent(b: Book, trader: nat, terms: Terms, due: (nat, nat)) returns (ok: bool, idx: nat, ghost data: Data)
    requires Tidy(b) && !terms.side.Seats?
    modifies b.nodes, b`longRoot, b`shortRoot, b`seatRoot, b`freelistHead, b`nodeCount, b`layout
    modifies b`nextIntentId, b`nextSeq
    ensures ok <==> old(Takes(b.nodes[..], b.layout, b.nextIntentId, b.nextSeq, trader, 0))
    ensures ok ==> Tidy(b) && old(b.nextIntentId) + 1 == b.nextIntentId < U64
    ensures ok ==> idx !in OrdersOf(old(b.nodes[..]))
    ensures ok ==> OrdersOf(b.nodes[..]) == OrdersOf(old(b.nodes[..]))[idx := Order(trader, data)]
    ensures ok ==> data.Intent? && data == NewIntent(terms, old(b.nextIntentId), data.ownerSeat, old(b.nextSeq), due)
    ensures ok && old(Covered(b.nodes[..])) ==> Covered(b.nodes[..])
  {
    hide Covered, CoveredBut, Tagged, Intents, OneSeatEach, SameContents, OrdersOf, TreeSound, FreeSound, Restable,
      Layout.FreeSlots, Takes;
    data := NewIntent(terms, b.nextIntentId, 0, b.nextSeq, due);
    idx := 0;
    var seat;
    ok, seat := SeatUp(b, trader);
    if !ok { return; }
    FreshIntent(b.nodes[..], NewIntent(terms, b.nextIntentId, seat, b.nextSeq, due), b.nextIntentId, b.nextSeq);
    var id := NextIntentId(b);
    if id.None? { return false, 0, data; }
    var postSeq := NextSeq(b);
    if postSeq.None? { return false, 0, data; }
    var intent := NewIntent(terms, id.value, seat, postSeq.value, due);
    data := intent;
    ghost var s := b.nodes[..];
    ok, idx := Rest(b, terms.side, intent);
    if !ok { return; }
    NotThere(s, idx);
    if old(Covered(b.nodes[..])) {
      CoveredByOne(s, b.nodes[..], idx, 0);
      CoveredButIs(b.nodes[..], seat, 0);
    }
  }

  lemma CoveredButIs(s: Pool, k: nat, n: nat)
    requires CoveredBut(s, k, n)
    ensures Covered(s)
  {
  }

  // ----- pruning a trader's own expired intents -------------------------------------------------------------------

  const MAX_PRUNES_PER_POST: nat := 4

  predicate Stale(s: Pool, seat: nat, now: nat, i: nat) {
    IntentAt(s, i) && s[i].data.ownerSeat == seat && s[i].data.expiration <= now && s[i].data.remaining != 0
  }

  /** The first stale slots of a seat below `bound`, in order, at most four. */
  ghost predicate FirstStale(s: Pool, seat: nat, now: nat, found: seq<nat>, bound: nat) {
    && |found| <= MAX_PRUNES_PER_POST
    && (forall k :: 0 <= k < |found| ==> found[k] < bound && Stale(s, seat, now, found[k]))
    && (forall j, k :: 0 <= j < k < |found| ==> found[j] < found[k])
    && (forall i: nat ::
      i < bound && Stale(s, seat, now, i) ==>
        i in found || (|found| == MAX_PRUNES_PER_POST && forall k :: 0 <= k < |found| ==> found[k] < i))
  }

  method CollectStale(b: Book, seat: nat, now: nat) returns (found: seq<nat>)
    requires Tidy(b)
    ensures FirstStale(b.nodes[..], seat, now, found, b.nodes.Length)
  {
    found := [];
    for i := 0 to b.nodes.Length
      invariant FirstStale(b.nodes[..], seat, now, found, i)
    {
      if |found| >= MAX_PRUNES_PER_POST { Capped(b.nodes[..], seat, now, found, i, b.nodes.Length); return; }
      var n := b.nodes[i];
      if n.Used? && n.data.Intent? && n.data.ownerSeat == seat && n.data.expiration <= now && n.data.remaining != 0 {
        Longer(b.nodes[..], seat, now, found, i);
        found := found + [i];
      }
    }
  }

  lemma Capped(s: Pool, seat: nat, now: nat, found: seq<nat>, i: nat, bound: nat)
    requires FirstStale(s, seat, now, found, i) && |found| >= MAX_PRUNES_PER_POST && i <= bound
    ensures FirstStale(s, seat, now, found, bound)
  {
  }

  lemma Longer(s: Pool, seat: nat, now: nat, found: seq<nat>, i: nat)
    requires FirstStale(s, seat, now, found, i) && |found| < MAX_PRUNES_PER_POST && Stale(s, seat, now, i)
    ensures FirstStale(s, seat, now, found + [i], i + 1)
  {
    assert forall k :: k in found ==> k in found + [i];
  }

  /** What the listed slots reserve together. */
  ghost function Held(s: Pool, found: seq<nat>): nat {
    if found == [] then 0
    else
      var i := found[|found| - 1];
      Held(s, found[..|found| - 1]) + if IntentAt(s, i) then s[i].data.reserved + s[i].data.feeBuffer else 0
  }

  ghost predicate Ascends(found: seq<nat>) { forall j, k :: 0 <= j < k < |found| ==> found[j] < found[k] }

  ghost function Slots(found: seq<nat>): set<nat> { set i | i in found }

  lemma {:induction false} HeldGrows(s: Pool, found: seq<nat>, k: nat)
    requires k <= |found|
    ensures Held(s, found[..k]) <= Held(s, found)
  {
    if k < |found| {
      HeldGrows(s, found[..|found| - 1], k);
      assert found[..|found| - 1][..k] == found[..k];
    } else {
      assert found[..k] == found;
    }
  }

  /** The listed intents are gone, and nothing else is. */
  ghost predicate OffBook(s: Pool, s': Pool, found: seq<nat>) {
    && OrdersOf(s') == OrdersOf(s) - Slots(found) && SameContents(s, s', Slots(found))
    && forall i :: i in Slots(found) ==> i < |s'| && s'[i].Free?
  }

  lemma OneMoreOff(s: Pool, s1: Pool, s2: Pool, found: seq<nat>, k: nat)
    requires k < |found| && OffBook(s, s1, found[..k])
    requires OrdersOf(s2) == OrdersOf(s1) - {found[k]} && SameContents(s1, s2, {found[k]})
    requires found[k] < |s2| && s2[found[k]].Free?
    ensures OffBook(s, s2, found[..k + 1])
  {
    assert Slots(found[..k + 1]) == Slots(found[..k]) + {found[k]} by {
      assert found[..k + 1] == found[..k] + [found[k]];
    }
    Composed(s, s1, s2, Slots(found[..k]), {found[k]});
    forall i | i in Slots(found[..k + 1]) ensures i < |s2| && s2[i].Free? {
      if i != found[k] { assert Bare(s2[i]) == Bare(s1[i]); }
    }
    assert OrdersOf(s) - Slots(found[..k]) - {found[k]} == OrdersOf(s) - Slots(found[..k + 1]);
  }

  /** Takes the listed intents off the book and adds up what they reserved; it fails only when that
      does not fit 64 bits. */
  method TakeOffAll(b: Book, found: seq<nat>) returns (refund: Option<nat>)
    requires Tidy(b) && Ascends(found) && forall k :: 0 <= k < |found| ==> IntentAt(b.nodes[..], found[k])
    modifies b.nodes, b`longRoot, b`shortRoot, b`seatRoot, b`freelistHead, b`layout
    ensures refund.Some? <==> Held(old(b.nodes[..]), found) < U64
    ensures refund.Some? ==> refund.value == Held(old(b.nodes[..]), found)
    ensures refund.Some? ==> Tidy(b) && OffBook(old(b.nodes[..]), b.nodes[..], found)
    ensures refund.Some? ==> |b.layout.FreeSlots()| == |old(b.layout.FreeSlots())| + |found|
  {
    hide OrdersOf, OffBook, Tidy, SameContents, Held, Ascends, Slots, Layout.FreeSlots;
    ghost var s := b.nodes[..];
    var sum := 0;
    NothingOff(s);
    for k := 0 to |found|
      invariant Tidy(b) && sum == Held(s, found[..k]) < U64 && OffBook(s, b.nodes[..], found[..k])
      invariant |b.layout.FreeSlots()| == |old(b.layout.FreeSlots())| + k
    {
      NextUp(s, b.nodes[..], found, k);
      HeldNext(s, found, k);
      HeldGrows(s, found, k + 1);
      ghost var s1 := b.nodes[..];
      var total := b.nodes[found[k]].data.reserved + b.nodes[found[k]].data.feeBuffer;
      if sum + total >= U64 { return None; }
      sum := sum + total;
      TakeOff(b, found[k]);
      OneMoreOff(s, s1, b.nodes[..], found, k);
    }
    assert found[..|found|] == found;
    refund := Some(sum);
  }

  lemma NothingOff(s: Pool)
    ensures OffBook(s, s, []) && Held(s, []) == 0
  {
    assert OrdersOf(s) - {} == OrdersOf(s);
  }

  lemma HeldNext(s: Pool, found: seq<nat>, k: nat)
    requires k < |found| && IntentAt(s, found[k])
    ensures Held(s, found[..k + 1]) == Held(s, found[..k]) + s[found[k]].data.reserved + s[found[k]].data.feeBuffer
  {
    assert found[..k + 1][..k] == found[..k];
  }

  /** The next listed intent is still there. */
  lemma NextUp(s: Pool, s1: Pool, found: seq<nat>, k: nat)
    requires k < |found| && OffBook(s, s1, found[..k]) && Ascends(found) && IntentAt(s, found[k])
    ensures IntentAt(s1, found[k]) && s1[found[k]].data == s[found[k]].data
  {
    forall j | 0 <= j < k ensures found[j] != found[k] { assert found[j] < found[k]; }
    assert found[k] !in found[..k];
    SameAt(s, s1, Slots(found[..k]), found[k]);
  }
}
