/** What a book holds between instructions, and the operations instructions are made of: finding
    intents and seats, resting an intent, taking one off, changing one in place. */
module Desk {
  import opened Nodes
  import opened Trees
  import opened IntentBook
  import opened Insertion
  import opened Arena
  import opened Matcher
  import opened Ledger

  // ----- a book at rest -----------------------------------------------------------------------------------

  /** Every slot is tagged as its role says: nothing is loose, and an intent is in the tree of its
      side. */
  ghost predicate Tagged(s: Pool, roles: seq<Role>) {
    |s| == |roles| && forall i :: 0 <= i < |s| ==> TaggedAt(s[i], roles[i])
  }

  predicate TaggedAt(n: Node, r: Role) {
    match r
    case Member(w) => n.Used? && Kind(w, n.data) && (n.data.Intent? ==> n.data.side == w)
    case Loose => false
    case _ => n.Free?
  }

  predicate IntentAt(s: Pool, i: nat) { i < |s| && s[i].Used? && s[i].data.Intent? }

  predicate SeatAt(s: Pool, i: nat) { i < |s| && s[i].Used? && s[i].data.Seat? }

  /** Intents have distinct ids, all given out by the counters, and seats to stand for. */
  ghost predicate Intents(s: Pool, nextId: nat, nextSeq: nat) {
    && (forall i: nat ::
      IntentAt(s, i) ==> s[i].data.id < nextId && s[i].data.postSeq < nextSeq && SeatAt(s, s[i].data.ownerSeat))
    && (forall i: nat, j: nat :: IntentAt(s, i) && IntentAt(s, j) && i != j ==> s[i].data.id != s[j].data.id)
  }

  /** A trader has at most one seat. */
  ghost predicate OneSeatEach(s: Pool) {
    forall i: nat, j: nat :: SeatAt(s, i) && SeatAt(s, j) && i != j ==> s[i].data.trader != s[j].data.trader
  }

  ghost predicate Tidy(b: Book)
    reads b, b.nodes
  {
    && b.Valid() && b.layout.tail == b.capacity && Tagged(b.nodes[..], b.layout.roles)
    && Intents(b.nodes[..], b.nextIntentId, b.nextSeq) && OneSeatEach(b.nodes[..])
  }

  /** The resting orders, by slot. */
  ghost function OrdersOf(s: Pool): map<nat, Order> {
    map i: nat | i < |s| && IntentAt(s, i) && SeatAt(s, s[i].data.ownerSeat) ::
      Order(s[s[i].data.ownerSeat].data.trader, s[i].data)
  }

  // ----- changes of contents ----------------------------------------------------------------------------------

  lemma SameAt(s: Pool, s': Pool, ids: set<nat>, i: nat)
    requires SameContents(s, s', ids) && i !in ids
    ensures IntentAt(s', i) == IntentAt(s, i) && SeatAt(s', i) == SeatAt(s, i)
    ensures IntentAt(s, i) || SeatAt(s, i) ==> s'[i].data == s[i].data
  {
    if i < |s| { assert Bare(s'[i]) == Bare(s[i]); }
  }

  /** Moving links about changes nothing here. */
  lemma Relinked(s: Pool, s': Pool, roles: seq<Role>, nextId: nat, nextSeq: nat)
    requires SameContents(s, s', {})
    ensures Tagged(s, roles) ==> Tagged(s', roles)
    ensures Intents(s, nextId, nextSeq) ==> Intents(s', nextId, nextSeq)
    ensures OneSeatEach(s) ==> OneSeatEach(s')
    ensures OrdersOf(s') == OrdersOf(s)
  {
    forall i: nat
      ensures IntentAt(s', i) == IntentAt(s, i) && SeatAt(s', i) == SeatAt(s, i)
      ensures (IntentAt(s, i) || SeatAt(s, i) ==> s'[i].data == s[i].data)
    {
      SameAt(s, s', {}, i);
    }
    if Tagged(s, roles) {
      forall i | 0 <= i < |s|
        ensures TaggedAt(s'[i], roles[i])
      {
        assert Bare(s'[i]) == Bare(s[i]) && TaggedAt(s[i], roles[i]);
      }
    }
  }

  // ----- finding -----------------------------------------------------------------------------------------------

  /** find_intent_by_id: the linear scan over the pool. */
  method FindIntentById(b: Book, id: nat) returns (found: Option<nat>)
    requires Tidy(b)
    ensures found.Some? ==>
      && IntentAt(b.nodes[..], found.value) && b.nodes[found.value].data.id == id
      && On(b, b.nodes[found.value].data.side, found.value)
    ensures found.None? ==> forall i: nat :: IntentAt(b.nodes[..], i) ==> b.nodes[i].data.id != id
    ensures found.Some? ==> forall i: nat :: IntentAt(b.nodes[..], i) && b.nodes[i].data.id == id ==> i == found.value
  {
    for i := 0 to b.nodes.Length
      invariant forall j: nat :: j < i && IntentAt(b.nodes[..], j) ==> b.nodes[j].data.id != id
    {
      if b.nodes[i].Used? && b.nodes[i].data.Intent? && b.nodes[i].data.id == id {
        assert IntentAt(b.nodes[..], i) && TaggedAt(b.nodes[..][i], b.layout.roles[i]);
        return Some(i);
      }
    }
    found := None;
  }

  /** find: the seat of a trader, or the null index when it has none. */
  method FindSeat(b: Book, trader: nat) returns (idx: nat)
    requires b.Valid()
    ensures idx != 0 ==> On(b, Seats, idx) && b.nodes[idx].data.trader == trader
    ensures idx == 0 ==> forall i: nat :: On(b, Seats, i) ==> b.nodes[i].data.trader != trader
  {
    ghost var s, root, t := b.nodes[..], b.RootOf(Seats), b.layout.TreeOf(Seats);
    ghost var (own, line, zz, data) := (Ids(t), InOrder(t), Zipper(Top, t), Seat(trader, 0));
    assert TreeSound(s, b.layout, Seats, root);
    InOrderIds(t);
    ghost var h :| RB(t, h);
    assert Searching(s, Seats, root, zz, own, line, data, h);
    assert (forall i :: i in line <==> b.layout.Is(i, Member(Seats))) && Ordered(s, Seats, line);
    hide Searching, Held, Zip, Ordered, RB, PRB, Bounded, Ids, PIds, Before, After, TreeSound, FreeSound;
    var cur := b.seatRoot;
    AtRoot(s, root, zz, own, line, data, h);
    while cur != 0
      invariant Searching(s, Seats, root, zz, own, line, data, h) && cur == Root(zz.tree)
      decreases zz.tree
    {
      AtNode(s, root, zz, own, line, data, h);
      SearchDown(s, Seats, root, zz, own, line, data, h);
      var here := b.nodes[cur].data;
      ghost var h' := Below(zz.tree, h);
      if trader < here.trader {
        zz, h := DownLeft(zz), h';
        cur := b.Left(Seats, cur);
      } else if trader > here.trader {
        zz, h := DownRight(zz), h';
        cur := b.Right(Seats, cur);
      } else {
        return cur;
      }
    }
    NotSeated(s, root, zz, own, line, data, h);
    idx := 0;
  }

  lemma AtRoot(s: Pool, root: nat, zz: Zipper, own: set<nat>, line: seq<nat>, data: Data, h: int)
    requires Searching(s, Seats, root, zz, own, line, data, h) && zz.path.Top?
    ensures root == Root(zz.tree)
  {
  }

  lemma AtNode(s: Pool, root: nat, zz: Zipper, own: set<nat>, line: seq<nat>, data: Data, h: int)
    requires Searching(s, Seats, root, zz, own, line, data, h) && Root(zz.tree) != 0
    ensures zz.tree.Fork? && NodeShape(s, Seats, zz.tree)
  {
    SearchShape(s, Seats, root, zz, own, line, data, h);
  }

  lemma NotSeated(s: Pool, root: nat, zz: Zipper, own: set<nat>, line: seq<nat>, data: Data, h: int)
    requires Searching(s, Seats, root, zz, own, line, data, h) && Root(zz.tree) == 0
    ensures forall j :: 0 <= j < |line| ==> Has(s, Seats, line[j]) && s[line[j]].data.trader != data.trader
  {
    assert zz == Zipper(zz.path, Leaf);
    SearchEnd(s, Seats, root, zz.path, own, line, data, h);
  }

  // ----- resting and taking off --------------------------------------------------------------------------------

  lemma Composed(s: Pool, s1: Pool, s2: Pool, a: set<nat>, b: set<nat>)
    requires SameContents(s, s1, a) && SameContents(s1, s2, b)
    ensures SameContents(s, s2, a + b)
  {
  }

  /** Every slot but idx holds what it held. */
  ghost predicate SameBut(s: Pool, s': Pool, idx: nat) {
    |s| == |s'| && forall i: nat :: i != idx ==>
      && IntentAt(s', i) == IntentAt(s, i) && SeatAt(s', i) == SeatAt(s, i)
      && (IntentAt(s, i) || SeatAt(s, i) ==> s'[i].data == s[i].data)
  }

  lemma ButOne(s: Pool, s': Pool, idx: nat)
    requires SameContents(s, s', {idx})
    ensures SameBut(s, s', idx)
  {
    forall i: nat | i != idx
      ensures IntentAt(s', i) == IntentAt(s, i) && SeatAt(s', i) == SeatAt(s, i)
      ensures (IntentAt(s, i) || SeatAt(s, i) ==> s'[i].data == s[i].data)
    {
      SameAt(s, s', {idx}, i);
    }
  }

  lemma Retagged(s: Pool, s': Pool, roles: seq<Role>, idx: nat, r: Role)
    requires Tagged(s, roles) && SameContents(s, s', {idx}) && idx < |s| && TaggedAt(s'[idx], r)
    ensures Tagged(s', roles[idx := r])
  {
    forall i | 0 <= i < |s| ensures TaggedAt(s'[i], roles[idx := r][i]) {
      if i != idx { assert Bare(s'[i]) == Bare(s[i]) && TaggedAt(s[i], roles[i]); }
    }
  }

  lemma TookOff(s: Pool, s': Pool, roles: seq<Role>, idx: nat, nextId: nat, nextSeq: nat)
    requires Tagged(s, roles) && Intents(s, nextId, nextSeq) && OneSeatEach(s)
    requires SameContents(s, s', {idx}) && IntentAt(s, idx) && s'[idx].Free?
    ensures Tagged(s', roles[idx := Spare]) && Intents(s', nextId, nextSeq) && OneSeatEach(s')
    ensures OrdersOf(s') == OrdersOf(s) - {idx}
  {
    Retagged(s, s', roles, idx, Spare);
    ButOne(s, s', idx);
    hide SameContents, Tagged, TaggedAt;
    TookOffOrders(s, s', idx, nextId, nextSeq);
  }

  lemma TookOffOrders(s: Pool, s': Pool, idx: nat, nextId: nat, nextSeq: nat)
    requires Intents(s, nextId, nextSeq) && SameBut(s, s', idx) && IntentAt(s, idx) && s'[idx].Free?
    ensures OrdersOf(s') == OrdersOf(s) - {idx}
  {
    assert !IntentAt(s', idx) && !SeatAt(s', idx);
    forall i: nat | i != idx
      ensures (i in OrdersOf(s') <==> i in OrdersOf(s)) && (i in OrdersOf(s) ==> OrdersOf(s')[i] == OrdersOf(s)[i])
    {
      if IntentAt(s, i) { assert SeatAt(s, s[i].data.ownerSeat) && s[i].data.ownerSeat != idx; }
    }
  }

  /** Takes a resting intent off the book: unlinks its slot and frees it. */
  method TakeOff(b: Book, idx: nat)
    requires Tidy(b) && IntentAt(b.nodes[..], idx)
    modifies b.nodes, b`longRoot, b`shortRoot, b`seatRoot, b`freelistHead, b`layout
    ensures Tidy(b) && OrdersOf(b.nodes[..]) == OrdersOf(old(b.nodes[..])) - {idx}
    ensures SameContents(old(b.nodes[..]), b.nodes[..], {idx}) && b.nodes[idx].Free?
    ensures idx !in old(b.layout.FreeSlots()) && b.layout.FreeSlots() == old(b.layout.FreeSlots()) + {idx}
  {
    ghost var (s, g) := (b.nodes[..], b.layout);
    assert TaggedAt(s[idx], g.roles[idx]) && TaggedAt(s[0], g.roles[0]) && b.layout.Is(0, Sentinel);
    hide Tagged, Intents, OneSeatEach, SameContents, TakenOut, OrdersOf, TreeSound, FreeSound, Layout.FreeSlots;
    RemoveNode(b, b.nodes[idx].data.side, idx);
    ghost var s1 := b.nodes[..];
    var ok := FreeNode(b, idx);
    assert ok;
    Composed(s, s1, b.nodes[..], {}, {idx});
    assert b.layout.roles == g.roles[idx := Spare] && {} + {idx} == {idx};
    FreeSlotsAfter(g, b.layout, idx, Spare);
    TookOff(s, b.nodes[..], g.roles, idx, b.nextIntentId, b.nextSeq);
  }

  /** Data fit to rest on the book: an intent under a fresh id, or a seat for an unseated trader. */
  ghost predicate Restable(s: Pool, w: Which, data: Data, nextId: nat, nextSeq: nat) {
    && Kind(w, data)
    && (data.Intent? ==>
          && data.side == w && data.id < nextId && data.postSeq < nextSeq && SeatAt(s, data.ownerSeat)
          && forall i: nat :: IntentAt(s, i) ==> s[i].data.id != data.id)
    && (data.Seat? ==> forall i: nat :: SeatAt(s, i) ==> s[i].data.trader != data.trader)
  }

  lemma Added(s: Pool, s': Pool, roles: seq<Role>, w: Which, data: Data, idx: nat, nextId: nat, nextSeq: nat)
    requires Tagged(s, roles) && Intents(s, nextId, nextSeq) && OneSeatEach(s) && Restable(s, w, data, nextId, nextSeq)
    requires SameContents(s, s', {idx}) && idx < |s| && s[idx].Free? && s'[idx].Used? && s'[idx].data == data
    ensures Tagged(s', roles[idx := Member(w)]) && Intents(s', nextId, nextSeq) && OneSeatEach(s')
    ensures data.Intent? ==> OrdersOf(s') == OrdersOf(s)[idx := Order(s[data.ownerSeat].data.trader, data)]
    ensures data.Seat? ==> OrdersOf(s') == OrdersOf(s)
  {
    Retagged(s, s', roles, idx, Member(w));
    ButOne(s, s', idx);
    hide SameContents, Tagged, TaggedAt;
    AddedOrders(s, s', w, data, idx, nextId, nextSeq);
    hide OrdersOf;
    assert IntentAt(s', idx) == data.Intent? && SeatAt(s', idx) == data.Seat? && !IntentAt(s, idx) && !SeatAt(s, idx);
  }

  lemma AddedOrders(s: Pool, s': Pool, w: Which, data: Data, idx: nat, nextId: nat, nextSeq: nat)
    requires Intents(s, nextId, nextSeq) && Restable(s, w, data, nextId, nextSeq)
    requires SameBut(s, s', idx) && idx < |s| && s[idx].Free? && s'[idx].Used? && s'[idx].data == data
    ensures data.Intent? ==> OrdersOf(s') == OrdersOf(s)[idx := Order(s[data.ownerSeat].data.trader, data)]
    ensures data.Seat? ==> OrdersOf(s') == OrdersOf(s)
  {
    assert IntentAt(s', idx) == data.Intent? && SeatAt(s', idx) == data.Seat? && !IntentAt(s, idx) && !SeatAt(s, idx);
    forall i: nat | i != idx
      ensures (i in OrdersOf(s') <==> i in OrdersOf(s)) && (i in OrdersOf(s) ==> OrdersOf(s')[i] == OrdersOf(s)[i])
    {
      if IntentAt(s, i) { assert SeatAt(s, s[i].data.ownerSeat) && s[i].data.ownerSeat != idx; }
    }
  }

  lemma UsedIsMember(s: Pool, roles: seq<Role>, idx: nat)
    requires Tagged(s, roles) && idx < |s| && roles[idx] in {Spare, Untouched}
    ensures s[idx].Free?
  {
    assert TaggedAt(s[idx], roles[idx]);
  }

  lemma SeatNotTaken(s: Pool, s1: Pool, w: Which, line: seq<nat>, data: Data, idx: nat, nextId: nat, nextSeq: nat)
    requires Restable(s, w, data, nextId, nextSeq) && SameContents(s, s1, {idx}) && idx !in line
    requires Has(s1, w, idx) && s1[idx].data == data
    ensures !SeatTaken(s1, w, line, idx)
  {
    if w.Seats? {
      forall j | 0 <= j < |line| && Has(s1, w, line[j]) ensures s1[line[j]].data.trader != data.trader {
        SameAt(s, s1, {idx}, line[j]);
        assert SeatAt(s1, line[j]);
      }
    }
  }

  lemma LooseNotInTree(b: Book, w: Which, idx: nat)
    requires b.Valid() && b.layout.Is(idx, Loose)
    ensures idx !in InOrder(b.layout.TreeOf(w))
  {
    assert TreeSound(b.nodes[..], b.layout, w, b.RootOf(w));
    InOrderIds(b.layout.TreeOf(w));
  }

  lemma SomeFree(g: Layout)
    ensures (exists i :: g.Is(i, Spare) || g.Is(i, Untouched)) <==> g.FreeSlots() != {}
  {
    if i :| g.Is(i, Spare) || g.Is(i, Untouched) { assert i in g.FreeSlots(); }
    if g.FreeSlots() != {} {
      var i :| i in g.FreeSlots();
      assert g.Is(i, Spare) || g.Is(i, Untouched);
    }
  }

  /** What a slot's new role does to the slots to hand out. */
  lemma FreeSlotsAfter(g: Layout, g': Layout, idx: nat, r: Role)
    requires idx < |g.roles| && g'.roles == g.roles[idx := r]
    ensures g'.FreeSlots() == if r in {Spare, Untouched} then g.FreeSlots() + {idx} else g.FreeSlots() - {idx}
    ensures idx in g.FreeSlots() <==> g.roles[idx] in {Spare, Untouched}
  {
  }

  /** Allocates a slot and fills it. */
  method Fill(b: Book, data: Data) returns (ok: bool, idx: nat)
    requires Tidy(b)
    modifies b.nodes, b`freelistHead, b`nodeCount, b`layout
    ensures b.Valid() && (ok <==> old(b.layout.FreeSlots()) != {}) && (ok ==> idx in old(b.layout.FreeSlots()))
    ensures !ok ==> b.nodes[..] == old(b.nodes[..]) && b.layout == old(b.layout)
    ensures ok ==>
      0 < idx < b.nodes.Length && old(b.nodes[idx]).Free? && b.nodes[idx].Used? && b.nodes[idx].data == data
    ensures ok ==>
      SameContents(old(b.nodes[..]), b.nodes[..], {idx}) && b.layout.roles == old(b.layout.roles)[idx := Loose]
    ensures b.layout.tail == old(b.layout.tail)
  {
    ghost var (s, g, roles) := (b.nodes[..], b.layout, b.layout.roles);
    hide Tagged, Intents, OneSeatEach, TreeSound, FreeSound, Layout.FreeSlots;
    SomeFree(b.layout);
    ok, idx := AllocNode(b);
    if !ok { return; }
    assert b.nodes[..] == s;
    UsedIsMember(s, roles, idx);
    FreeSlotsAfter(g, b.layout, idx, Loose);
    Write(b, idx, data);
  }

  /** Allocates a slot, fills it, and links it into tree w. Only a full book refuses. */
  method Rest(b: Book, w: Which, data: Data) returns (ok: bool, idx: nat)
    requires Tidy(b) && Restable(b.nodes[..], w, data, b.nextIntentId, b.nextSeq)
    modifies b.nodes, b`longRoot, b`shortRoot, b`seatRoot, b`freelistHead, b`nodeCount, b`layout
    ensures Tidy(b) && (ok <==> old(b.layout.FreeSlots()) != {})
    ensures ok ==> idx in old(b.layout.FreeSlots()) && b.layout.FreeSlots() == old(b.layout.FreeSlots()) - {idx}
    ensures !ok ==> b.nodes[..] == old(b.nodes[..]) && b.layout == old(b.layout)
    ensures ok ==> 0 < idx < b.nodes.Length && old(b.nodes[idx]).Free? && On(b, w, idx) && b.nodes[idx].data == data
    ensures ok ==> SameContents(old(b.nodes[..]), b.nodes[..], {idx})
    ensures ok && data.Intent? ==>
      OrdersOf(b.nodes[..]) == OrdersOf(old(b.nodes[..]))[idx := Order(OwnerAt(old(b.nodes[..]), data), data)]
    ensures ok && data.Seat? ==> OrdersOf(b.nodes[..]) == OrdersOf(old(b.nodes[..]))
  {
    ghost var (s, g) := (b.nodes[..], b.layout);
    hide Tagged, Intents, OneSeatEach, SameContents, Slotted, OrdersOf, TreeSound, FreeSound, Restable, SeatTaken,
      Layout.FreeSlots;
    ok, idx := Fill(b, data);
    if !ok { return; }
    ghost var s1 := b.nodes[..];
    RestKind(s, w, data, b.nextIntentId, b.nextSeq);
    LooseNotInTree(b, w, idx);
    SeatNotTaken(s, s1, w, InOrder(b.layout.TreeOf(w)), data, idx, b.nextIntentId, b.nextSeq);
    ok := InsertNode(b, w, idx);
    assert ok;
    Composed(s, s1, b.nodes[..], {idx}, {});
    assert b.layout.roles == g.roles[idx := Member(w)] && {idx} + {} == {idx};
    FreeSlotsAfter(g, b.layout, idx, Member(w));
    LinkedData(s1, b.nodes[..], idx);
    Added(s, b.nodes[..], g.roles, w, data, idx, b.nextIntentId, b.nextSeq);
  }

  /** The trader an intent's seat stands for. */
  function OwnerAt(s: Pool, data: Data): nat {
    if data.Intent? && SeatAt(s, data.ownerSeat) then s[data.ownerSeat].data.trader else 0
  }

  lemma RestKind(s: Pool, w: Which, data: Data, nextId: nat, nextSeq: nat)
    requires Restable(s, w, data, nextId, nextSeq)
    ensures Kind(w, data) && (data.Intent? ==> SeatAt(s, data.ownerSeat))
  {
  }

  lemma LinkedData(s: Pool, s': Pool, idx: nat)
    requires SameContents(s, s', {}) && idx < |s| && s[idx].Used?
    ensures |s| == |s'| && s'[idx].Used? && s'[idx].data == s[idx].data
  {
    assert Bare(s'[idx]) == Bare(s[idx]);
  }
}
