/** Expanding a book: the new slots go onto the freelist, and the bump counter can reach them too. */
module Expansion {
  import opened Nodes
  import opened Trees
  import opened IntentBook
  import opened Arena
  import Desk

  /** The new slots, last first: the order in which they come off the freelist. */
  ghost function NewSlots(lo: nat, hi: nat): seq<nat>
    decreases hi
  {
    if hi <= lo then [] else [hi - 1] + NewSlots(lo, hi - 1)
  }

  lemma {:induction false} NewSlotsAre(lo: nat, hi: nat)
    ensures forall i :: i in NewSlots(lo, hi) <==> lo <= i < hi
    decreases hi
  {
    if lo < hi {
      NewSlotsAre(lo, hi - 1);
    }
  }

  // ----- linking the new slots --------------------------------------------------------------------------------

  /** The freelist runs through the new slots below hi and then through `free`. */
  ghost predicate Linked(s: Pool, head: nat, lo: nat, hi: nat, free: seq<nat>) {
    Chain(s, head, NewSlots(lo, hi) + free)
  }

  /** The slots below lo are as they were. */
  predicate SameBelow(s: Pool, s': Pool, lo: nat) { lo <= |s| == |s'| && forall i :: 0 <= i < lo ==> s'[i] == s[i] }

  lemma NoneLinked(s: Pool, head: nat, lo: nat, free: seq<nat>)
    requires Chain(s, head, free)
    ensures Linked(s, head, lo, lo, free)
  {
    assert NewSlots(lo, lo) + free == free;
  }

  lemma OneMoreLinked(s: Pool, s': Pool, head: nat, lo: nat, idx: nat, free: seq<nat>)
    requires Linked(s, head, lo, idx, free) && 0 < lo <= idx < |s| && s' == s[idx := Free(head)]
    requires forall i :: i in free ==> i < lo
    ensures Linked(s', idx, lo, idx + 1, free)
  {
    var list := NewSlots(lo, idx) + free;
    NewSlotsAre(lo, idx);
    ChainFrame(s, s', head, list, {idx});
    assert NewSlots(lo, idx + 1) + free == [idx] + list && ([idx] + list)[1..] == list;
  }

  /** Links every slot of the grown pool from `lo` on into the freelist. */
  method LinkNewSlots(nodes: array<Node>, lo: nat, head0: nat, ghost free: seq<nat>) returns (head: nat)
    requires 0 < lo <= nodes.Length && Chain(nodes[..], head0, free) && forall i :: i in free ==> i < lo
    modifies nodes
    ensures Linked(nodes[..], head, lo, nodes.Length, free)
    ensures SameBelow(old(nodes[..]), nodes[..], lo)
  {
    hide Linked, Chain;
    head := head0;
    NoneLinked(nodes[..], head, lo, free);
    for idx := lo to nodes.Length
      invariant Linked(nodes[..], head, lo, idx, free)
      invariant forall i :: 0 <= i < lo ==> nodes[i] == old(nodes[i])
    {
      ghost var s := nodes[..];
      nodes[idx] := Free(head);
      OneMoreLinked(s, nodes[..], head, lo, idx, free);
      head := idx;
    }
  }

  // ----- growing the pool -------------------------------------------------------------------------------------

  lemma {:induction false} RepGrown(s: Pool, s': Pool, w: Which, t: Tree, p: nat)
    requires Rep(s, w, t, p) && s <= s'
    ensures Rep(s', w, t, p)
  {
    if t.Fork? {
      RepGrown(s, s', w, t.left, t.idx);
      RepGrown(s, s', w, t.right, t.idx);
    }
  }

  lemma {:induction false} ChainGrown(s: Pool, s': Pool, head: nat, free: seq<nat>)
    requires Chain(s, head, free) && s <= s'
    ensures Chain(s', head, free) && forall i :: i in free ==> i < |s|
    decreases free
  {
    if free != [] {
      ChainGrown(s, s', s[head].nextFree, free[1..]);
      assert free == [free[0]] + free[1..];
    }
  }

  /** The layout once the new slots are on the freelist: the tail has not moved. */
  ghost function Grown(g: Layout, size: nat): Layout
    requires |g.roles| <= size
  {
    g.(roles := g.roles + seq(size - |g.roles|, _ => Spare), free := NewSlots(|g.roles|, size) + g.free)
  }

  lemma TreeGrown(s: Pool, s': Pool, g: Layout, w: Which, root: nat)
    requires |g.roles| == |s| <= |s'| && TreeSound(s, g, w, root) && s <= s'
    ensures TreeSound(s', Grown(g, |s'|), w, root)
  {
    RepGrown(s, s', w, g.TreeOf(w), 0);
    forall i | g.Is(i, Member(w)) ensures Grown(g, |s'|).Is(i, Member(w)) {}
  }

  lemma FreeGrown(s: Pool, g: Layout, head: nat, nodeCount: nat, s1: Pool, s': Pool, head': nat)
    requires |g.roles| == |s| <= |s'| == |s1| && 0 < |s| && FreeSound(s, g, head, nodeCount) && s <= s1
    requires SameBelow(s1, s', |s|) && Linked(s', head', |s|, |s'|, g.free)
    ensures FreeSound(s', Grown(g, |s'|), head', nodeCount)
  {
    NewSlotsAre(|s|, |s'|);
    var g' := Grown(g, |s'|);
    forall i ensures i in g'.free <==> g'.Is(i, Spare) {
      assert i in g'.free <==> i in NewSlots(|s|, |s'|) || i in g.free;
    }
    forall i | 0 < i < |s'| && nodeCount <= i < g.tail ensures s'[i].Free? { assert s'[i] == s1[i] == s[i]; }
  }

  /** The same book in a larger account: its slots, links and counters copied, the rest of the pool free. */
  method Reallocate(b: Book, size: nat) returns (grown: Book)
    requires b.nodes.Length <= size < 0x1_0000_0000
    ensures fresh(grown) && fresh(grown.nodes) && grown.nodes.Length == grown.capacity == size
    ensures b.nodes[..] <= grown.nodes[..]
    ensures (forall w: Which :: grown.RootOf(w) == b.RootOf(w)) && grown.freelistHead == b.freelistHead
    ensures grown.nodeCount == b.nodeCount
    ensures (grown.nextIntentId, grown.nextSeq, grown.cachedMaxFeeBps) == (b.nextIntentId, b.nextSeq, b.cachedMaxFeeBps)
  {
    hide TreeSound, FreeSound, Book.Valid;
    grown := new Book(size, b.cachedMaxFeeBps);
    for i := 0 to b.nodes.Length
      invariant forall j :: 0 <= j < i ==> grown.nodes[j] == b.nodes[j]
      modifies grown.nodes
    {
      grown.nodes[i] := b.nodes[i];
    }
    grown.longRoot, grown.shortRoot, grown.seatRoot := b.longRoot, b.shortRoot, b.seatRoot;
    grown.freelistHead, grown.nodeCount := b.freelistHead, b.nodeCount;
    grown.nextIntentId, grown.nextSeq := b.nextIntentId, b.nextSeq;
  }

  /** ExpandIntentBook: the account grows, which the model shows as a new and larger book, and every new
      slot is pushed onto the freelist; the bump counter and the tail stay where they were. */
  method ExpandIntentBook(b: Book, additional: nat) returns (ok: bool, grown: Book)
    requires b.Valid() && b.capacity > 0
    ensures ok <==> additional > 0 && b.capacity + additional < 0x1_0000_0000
    ensures ok ==> fresh(grown) && fresh(grown.nodes) && grown.Valid() && grown.capacity == b.capacity + additional
    ensures ok ==>
      grown.layout == Grown(b.layout, grown.capacity) && grown.nodeCount == b.nodeCount && grown.freelistHead != 0
    ensures ok ==> forall i :: 0 <= i < b.nodes.Length ==> grown.nodes[i] == b.nodes[i]
    ensures ok ==>
      (grown.nextIntentId, grown.nextSeq, grown.cachedMaxFeeBps) == (b.nextIntentId, b.nextSeq, b.cachedMaxFeeBps)
    ensures !ok ==> grown == b
  {
    hide TreeSound, FreeSound, Chain, Linked, Grown;
    ok := additional > 0 && b.capacity + additional < 0x1_0000_0000;
    if !ok { return false, b; }
    ghost var (s, g) := (b.nodes[..], b.layout);
    grown := Reallocate(b, b.capacity + additional);
    ghost var s1 := grown.nodes[..];
    FreelistGrown(s, s1, g, b.freelistHead, b.nodeCount);
    grown.freelistHead := LinkNewSlots(grown.nodes, b.capacity, b.freelistHead, g.free);
    grown.layout := Grown(g, grown.capacity);
    GrownFree(s, g, b.freelistHead, b.nodeCount, s1, grown.nodes[..], grown.freelistHead);
    forall w: Which ensures TreeSound(grown.nodes[..], grown.layout, w, grown.RootOf(w)) {
      TreeGrown(s, s1, g, w, b.RootOf(w));
      GrownTree(s1, grown.nodes[..], g, w, b.RootOf(w), |s|);
    }
  }

  lemma FreelistGrown(s: Pool, s1: Pool, g: Layout, head: nat, nodeCount: nat)
    requires FreeSound(s, g, head, nodeCount) && s <= s1
    ensures Chain(s1, head, g.free) && forall i :: i in g.free ==> i < |s|
  {
    ChainGrown(s, s1, head, g.free);
  }

  lemma GrownTree(s1: Pool, s': Pool, g: Layout, w: Which, root: nat, lo: nat)
    requires |g.roles| == lo <= |s1| == |s'| && TreeSound(s1, Grown(g, |s1|), w, root) && SameBelow(s1, s', lo)
    ensures TreeSound(s', Grown(g, |s'|), w, root)
  {
    NewSlotsAre(lo, |s1|);
    TreeKept(s1, s', Grown(g, |s1|), Grown(g, |s1|), w, root, set i | i in NewSlots(lo, |s1|));
  }

  lemma GrownFree(s: Pool, g: Layout, head: nat, nodeCount: nat, s1: Pool, s': Pool, head': nat)
    requires |g.roles| == |s| < |s1| == |s'| && 0 < |s| && FreeSound(s, g, head, nodeCount) && s <= s1
    requires SameBelow(s1, s', |s|) && Linked(s', head', |s|, |s1|, g.free)
    ensures FreeSound(s', Grown(g, |s1|), head', nodeCount) && |Grown(g, |s1|).roles| == |s1|
    ensures Grown(g, |s1|).tail == g.tail
    ensures head' != 0
  {
    FreeGrown(s, g, head, nodeCount, s1, s', head');
  }

  // ----- what allocation comes to ------------------------------------------------------------------------------

  lemma FreeLeft(b: Book)
    requires b.Valid()
    ensures b.layout.FreeSlots() != {} <==> b.freelistHead != 0 || 1 <= b.nodeCount < b.layout.tail
  {
    if b.freelistHead != 0 { assert b.layout.Is(b.layout.free[0], Spare) && b.freelistHead in b.layout.FreeSlots(); }
    if b.nodeCount < b.layout.tail { assert b.nodeCount in b.layout.FreeSlots(); }
    if i :| i in b.layout.FreeSlots() { FreeSlotLeft(b, i); }
  }

  lemma FreeSlotLeft(b: Book, i: nat)
    requires b.Valid() && i in b.layout.FreeSlots()
    ensures b.freelistHead != 0 || 1 <= b.nodeCount < b.layout.tail
  {
    hide TreeSound;
    assert i != 0 ==> b.layout.roles[i] != Sentinel;
    if b.layout.roles[i] == Spare {
      assert b.layout.Is(i, Spare) && i in b.layout.free;
    }
  }

  lemma OneLess(free: set<nat>, left: set<nat>, taken: seq<nat>, idx: nat)
    requires (set i | i in taken) + left == free && (forall i :: i in taken ==> i !in left)
    requires |taken| + |left| == |free| && idx in left
    ensures (set i | i in taken + [idx]) + (left - {idx}) == free && |taken + [idx]| + |left - {idx}| == |free|
    ensures forall i :: i in taken + [idx] ==> i !in left - {idx}
  {
  }

  /** On any expanded book, allocating without freeing hands out every free slot once, and then goes on to
      hand out a slot again. */
  method AllocateUntilReuse(b: Book, tail: nat) returns (taken: seq<nat>, again: nat)
    requires b.Valid() && tail == b.layout.tail < b.capacity && b.nodeCount < b.capacity
    modifies b`freelistHead, b`nodeCount, b`layout
    ensures (set i | i in taken) == old(b.layout.FreeSlots()) && |taken| == |old(b.layout.FreeSlots())|
    ensures 0 < again < b.nodes.Length && again >= tail && again == b.nodeCount - 1
  {
    hide TreeSound, FreeSound, Layout.FreeSlots;
    ghost var free := b.layout.FreeSlots();
    taken := [];
    FreeLeft(b);
    while b.freelistHead != 0 || b.nodeCount < tail
      invariant b.Valid() && b.layout.tail == tail && b.nodeCount < b.capacity && b.nodes.Length == |b.layout.roles|
      invariant (set i | i in taken) + b.layout.FreeSlots() == free && |taken| + |b.layout.FreeSlots()| == |free|
      invariant forall i :: i in taken ==> i !in b.layout.FreeSlots()
      decreases |b.layout.FreeSlots()|
    {
      FreeLeft(b);
      ghost var g := b.layout;
      var ok, idx := AllocNode(b);
      Desk.SomeFree(g);
      assert ok;
      Desk.FreeSlotsAfter(g, b.layout, idx, Loose);
      OneLess(free, g.FreeSlots(), taken, idx);
      taken := taken + [idx];
    }
    FreeLeft(b);
    var ok;
    ok, again := AllocNode(b);
  }

  /** A book of 16 slots grown by one: the new slot is handed out twice. */
  method HandedOutTwice() returns (taken: seq<nat>, again: nat)
    ensures again in taken
  {
    var b := new Book(16, 0);
    var ok, grown := ExpandIntentBook(b, 1);
    ghost var g := grown.layout;
    assert forall i: nat :: 0 < i < 17 ==> i in g.FreeSlots();
    taken, again := AllocateUntilReuse(grown, 16);
    assert again in g.FreeSlots();
  }
}
