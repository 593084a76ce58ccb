/** Allocation, release and linking of pool slots: each operation gives one slot a new role and
    leaves the role and the contents of every other slot alone. */
module Arena {
  import opened Nodes
  import opened Trees
  import opened IntentBook
  import Insertion
  import Removal

  /** Every slot but those in ids keeps its contents, links and colours aside. */
  ghost predicate SameContents(s: Pool, s': Pool, ids: set<nat>) {
    |s| == |s'| && forall i :: 0 <= i < |s| && i !in ids ==> Bare(s'[i]) == Bare(s[i])
  }

  lemma {:induction false} ChainFrame(s: Pool, s': Pool, head: nat, free: seq<nat>, changed: set<nat>)
    requires Chain(s, head, free) && Except(s, s', changed) && forall i :: i in changed ==> i !in free
    ensures Chain(s', head, free)
    decreases free
  {
    if free != [] { ChainFrame(s, s', s[head].nextFree, free[1..], changed); }
  }

  /** A change outside tree v leaves tree v sound. */
  lemma TreeKept(s: Pool, s': Pool, g: Layout, g': Layout, v: Which, root: nat, changed: set<nat>)
    requires TreeSound(s, g, v, root) && Except(s, s', changed) && g'.TreeOf(v) == g.TreeOf(v)
    requires forall i :: i in changed ==> !g.Is(i, Member(v))
    requires forall i: nat :: g'.Is(i, Member(v)) <==> g.Is(i, Member(v))
    ensures TreeSound(s', g', v, root)
  {
    var t := g.TreeOf(v);
    HeldFrame(s, s', v, root, Zipper(Top, t), Ids(t), InOrder(t), changed);
    InOrderIds(t);
  }

  lemma Popped(s: Pool, g: Layout, head: nat, nodeCount: nat)
    requires FreeSound(s, g, head, nodeCount) && head != 0 && |s| == |g.roles|
    ensures g.free != [] && head == g.free[0] && s[head].Free?
    ensures FreeSound(s, g.(roles := g.roles[head := Loose], free := g.free[1..]), s[head].nextFree, nodeCount)
  {
    var g' := g.(roles := g.roles[head := Loose], free := g.free[1..]);
    assert g.free == [head] + g.free[1..];
    forall i ensures i in g'.free <==> g'.Is(i, Spare) {
      assert i in g.free <==> i == head || i in g.free[1..];
    }
    assert g.Is(head, Spare);
    assert Chain(s, s[head].nextFree, g'.free);
  }

  /** alloc_node: the freelist first, then the bump counter. While the freelist or the untouched tail lasts
      it hands out a slot, never the sentinel, that no structure was using. With both used up it refuses
      when the counter is at the capacity; below it, on an expanded book, it hands out a slot in use. */
  method AllocNode(b: Book) returns (ok: bool, idx: nat)
    requires b.Valid()
    modifies b`freelistHead, b`nodeCount, b`layout
    ensures ok ==> 0 < idx < b.nodes.Length
    ensures ok ==> (old(b.Allocatable()) <==> old(b.layout.Is(idx, Spare) || b.layout.Is(idx, Untouched)))
    ensures old(b.Allocatable()) ==>
      && b.Valid() && (ok <==> exists i :: old(b.layout.Is(i, Spare) || b.layout.Is(i, Untouched)))
      && (ok ==> b.layout.roles == old(b.layout.roles)[idx := Loose] && b.nodes[idx].Free?)
    ensures !old(b.Allocatable()) ==> ok && idx == old(b.nodeCount) && b.nodeCount == idx + 1
    ensures !ok || !old(b.Allocatable()) ==> b.layout == old(b.layout)
    ensures b.layout.tail == old(b.layout.tail) && forall w: Which :: b.layout.TreeOf(w) == old(b.layout.TreeOf(w))
  {
    hide TreeSound, FreeSound, Chain;
    ghost var s, g := b.nodes[..], b.layout;
    FreeOrNot(s, g, b.freelistHead, b.nodeCount);
    if b.freelistHead != 0 {
      idx := b.freelistHead;
      Popped(s, g, idx, b.nodeCount);
      b.freelistHead := b.nodes[idx].nextFree;
      b.layout := g.(roles := g.roles[idx := Loose], free := g.free[1..]);
      ok := true;
    } else if b.nodeCount >= b.capacity {
      ok, idx := false, 0;
      return;
    } else {
      idx := b.nodeCount;
      b.nodeCount := b.nodeCount + 1;
      ok := true;
      if idx < g.tail {
        assert g.Is(idx, Untouched);
        Bumped(s, g, idx);
        b.layout := g.(roles := g.roles[idx := Loose]);
      }
    }
    forall w: Which ensures TreeSound(b.nodes[..], b.layout, w, b.RootOf(w)) {
      TreeKept(s, b.nodes[..], g, b.layout, w, b.RootOf(w), {});
    }
  }

  /** Which slots the allocator can still hand out. */
  lemma FreeOrNot(s: Pool, g: Layout, head: nat, nodeCount: nat)
    requires FreeSound(s, g, head, nodeCount) && |s| == |g.roles| && 1 <= nodeCount
    ensures g.tail <= |s| && (head != 0 ==> 0 < head < |s| && g.Is(head, Spare))
    ensures head == 0 ==> forall i: nat :: !g.Is(i, Spare)
    ensures forall i: nat :: g.Is(i, Untouched) <==> nodeCount <= i < g.tail
  {
    if head != 0 {
      assert g.free == [head] + g.free[1..];
    }
    forall i: nat ensures g.Is(i, Untouched) <==> nodeCount <= i < g.tail {
      if i < |g.roles| { assert g.roles[i] == Sentinel <==> i == 0; }
    }
  }

  lemma Bumped(s: Pool, g: Layout, nodeCount: nat)
    requires FreeSound(s, g, 0, nodeCount) && |s| == |g.roles| && 1 <= nodeCount < g.tail
    ensures FreeSound(s, g.(roles := g.roles[nodeCount := Loose]), 0, nodeCount + 1) && s[nodeCount].Free?
  {
  }

  /** free_node: pushes a loose slot onto the freelist. */
  method FreeNode(b: Book, idx: nat) returns (ok: bool)
    requires b.Valid() && (idx == 0 || idx >= b.nodes.Length || b.layout.Is(idx, Loose))
    modifies b.nodes, b`freelistHead, b`layout
    ensures b.Valid() && (ok <==> 0 < idx < b.nodes.Length)
    ensures ok ==>
      && b.layout.roles == old(b.layout.roles)[idx := Spare] && SameContents(old(b.nodes[..]), b.nodes[..], {idx})
      && b.nodes[idx].Free?
    ensures !ok ==> b.layout == old(b.layout) && b.nodes[..] == old(b.nodes[..])
    ensures b.layout.tail == old(b.layout.tail)
    ensures forall w: Which :: b.layout.TreeOf(w) == old(b.layout.TreeOf(w))
  {
    if idx == 0 || idx >= b.nodes.Length { return false; }
    ghost var s, g := b.nodes[..], b.layout;
    b.nodes[idx] := Free(b.freelistHead);
    b.freelistHead := idx;
    b.layout := g.(roles := g.roles[idx := Spare], free := [idx] + g.free);
    ChainFrame(s, b.nodes[..], old(b.freelistHead), g.free, {idx});
    assert b.layout.free[1..] == g.free;
    forall w: Which ensures TreeSound(b.nodes[..], b.layout, w, b.RootOf(w)) {
      TreeKept(s, b.nodes[..], g, b.layout, w, b.RootOf(w), {idx});
    }
    ok := true;
  }

  /** write_intent and write_seat: fills a loose slot. */
  method Write(b: Book, idx: nat, data: Data)
    requires b.Valid() && b.layout.Is(idx, Loose)
    modifies b.nodes
    ensures b.Valid() && SameContents(old(b.nodes[..]), b.nodes[..], {idx})
    ensures b.nodes[idx] == Used(0, 0, 0, Red, data)
  {
    ghost var s, g := b.nodes[..], b.layout;
    b.nodes[idx] := Used(0, 0, 0, Red, data);
    ChainFrame(s, b.nodes[..], b.freelistHead, g.free, {idx});
    forall w: Which ensures TreeSound(b.nodes[..], g, w, b.RootOf(w)) {
      TreeKept(s, b.nodes[..], g, g, w, b.RootOf(w), {idx});
    }
  }

  /** Rewriting the contents of a member in place keeps its tree when it does not move its key. */
  method Update(b: Book, w: Which, idx: nat, data: Data)
    requires b.Valid() && b.layout.Is(idx, Member(w)) && b.Typed(w, idx) && Kind(w, data)
    requires SameKey(w, b.nodes[idx].data, data)
    modifies b.nodes
    ensures b.Valid() && SameContents(old(b.nodes[..]), b.nodes[..], {idx})
    ensures b.Typed(w, idx) && b.nodes[idx].data == data
  {
    ghost var s, g := b.nodes[..], b.layout;
    b.nodes[idx] := b.nodes[idx].(data := data);
    Rewritten(s, b.nodes[..], g, w, b.RootOf(w), idx);
    ChainFrame(s, b.nodes[..], b.freelistHead, g.free, {idx});
    forall v: Which | v != w ensures TreeSound(b.nodes[..], g, v, b.RootOf(v)) {
      TreeKept(s, b.nodes[..], g, g, v, b.RootOf(v), {idx});
    }
  }

  predicate SameKey(w: Which, d: Data, d': Data)
    requires Kind(w, d) && Kind(w, d')
  {
    if w.Seats? then d.trader == d'.trader else d.price == d'.price && d.postSeq == d'.postSeq && d.id == d'.id
  }

  lemma {:induction false} RewrittenRep(s: Pool, s': Pool, w: Which, t: Tree, p: nat, idx: nat)
    requires Rep(s, w, t, p) && Except(s, s', {idx}) && idx < |s|
    requires s[idx].Used? && s'[idx].Used? && s'[idx] == s[idx].(data := s'[idx].data) && Kind(w, s'[idx].data)
    ensures Rep(s', w, t, p)
  {
    if t.Fork? {
      RewrittenRep(s, s', w, t.left, t.idx, idx);
      RewrittenRep(s, s', w, t.right, t.idx, idx);
    }
  }

  lemma Rewritten(s: Pool, s': Pool, g: Layout, w: Which, root: nat, idx: nat)
    requires TreeSound(s, g, w, root) && Except(s, s', {idx}) && Has(s, w, idx)
    requires s'[idx].Used? && s'[idx] == s[idx].(data := s'[idx].data) && Kind(w, s'[idx].data)
    requires SameKey(w, s[idx].data, s'[idx].data)
    ensures TreeSound(s', g, w, root)
  {
    RewrittenRep(s, s', w, g.TreeOf(w), 0, idx);
  }

  /** Links a written loose slot into tree w. */
  method InsertNode(b: Book, w: Which, idx: nat) returns (ok: bool)
    requires b.Valid() && b.layout.Is(idx, Loose) && idx != 0 && b.Typed(w, idx)
    modifies b.nodes, b`longRoot, b`shortRoot, b`seatRoot, b`layout
    ensures b.Valid() && SameContents(old(b.nodes[..]), b.nodes[..], {})
    ensures ok <==> !Insertion.SeatTaken(old(b.nodes[..]), w, InOrder(old(b.layout).TreeOf(w)), idx)
    ensures !ok ==> b.layout == old(b.layout)
    ensures ok ==> b.layout.roles == old(b.layout.roles)[idx := Member(w)]
    ensures b.layout.tail == old(b.layout.tail)
    ensures ok ==> Insertion.Slotted(InOrder(old(b.layout).TreeOf(w)), InOrder(b.layout.TreeOf(w)), idx)
    ensures forall v: Which :: v != w ==> b.layout.TreeOf(v) == old(b.layout.TreeOf(v))
  {
    hide SearchTree, FreeSound, LinksOnly, Insertion.Slotted, Insertion.SeatTaken, SameContents, InOrder, Ids;
    ghost var s, g := b.nodes[..], b.layout;
    ghost var t;
    assert TreeSound(s, g, w, b.RootOf(w)) && idx !in Ids(g.TreeOf(w));
    ok, t := Insertion.Insert(b, w, idx, g.TreeOf(w));
    if ok { b.layout := g.(roles := g.roles[idx := Member(w)]).WithTree(w, t); }
    Relinked(s, b.nodes[..], g, b.layout, w, b.freelistHead, b.nodeCount, Ids(g.TreeOf(w)) + {idx}, idx);
    forall v: Which | v != w ensures TreeSound(b.nodes[..], b.layout, v, b.RootOf(v)) {
      RelinkedTree(s, b.nodes[..], g, b.layout, w, v, b.RootOf(v), Ids(g.TreeOf(w)) + {idx}, idx);
    }
  }

  /** Link changes confined to tree w and to slot idx, whose role moves between loose and member of
      w, do not reach the freelist or the tail, */
  lemma Relinked(s: Pool, s': Pool, g: Layout, g': Layout, w: Which, head: nat, nodeCount: nat, own: set<nat>, idx: nat)
    requires LinksOnly(s, s', own) && FreeSound(s, g, head, nodeCount) && |s| == |g.roles|
    requires forall i :: i in own ==> g.Is(i, Member(w)) || (i == idx && g.Is(i, Loose))
    requires Rerole(g, g', w, idx)
    ensures FreeSound(s', g', head, nodeCount) && SameContents(s, s', {})
  {
    ChainFrame(s, s', head, g.free, own);
    assert forall i :: 0 < i < |s| && nodeCount <= i < g.tail ==> g.roles[i] == Untouched && s'[i] == s[i];
  }

  /** or the other trees. */
  lemma RelinkedTree(s: Pool, s': Pool, g: Layout, g': Layout, w: Which, v: Which, root: nat, own: set<nat>, idx: nat)
    requires LinksOnly(s, s', own) && TreeSound(s, g, v, root) && v != w
    requires forall i :: i in own ==> g.Is(i, Member(w)) || (i == idx && g.Is(i, Loose))
    requires Rerole(g, g', w, idx)
    ensures TreeSound(s', g', v, root)
  {
    TreeKept(s, s', g, g', v, root, own);
  }

  ghost predicate Rerole(g: Layout, g': Layout, w: Which, idx: nat) {
    && |g'.roles| == |g.roles|
    && (g'.roles == g.roles
        || (idx < |g.roles| && g.roles[idx] in {Loose, Member(w)} && g'.roles == g.roles[idx := g'.roles[idx]]
            && g'.roles[idx] in {Loose, Member(w)}))
    && g'.free == g.free && g'.tail == g.tail && forall v: Which :: v != w ==> g'.TreeOf(v) == g.TreeOf(v)
  }

  /** Tree w over its slots less z is sound once z is loose. */
  lemma UnlinkedTree(s: Pool, g: Layout, w: Which, root': nat, root: nat, s': Pool, t: Tree, z: nat)
    requires TreeSound(s, g, w, root) && g.Is(z, Member(w)) && SearchTree(s', w, root', t)
    requires Ids(t) == Ids(g.TreeOf(w)) - {z}
    ensures TreeSound(s', g.(roles := g.roles[z := Loose]).WithTree(w, t), w, root')
  {
    hide SearchTree, Ids;
  }

  /** Unlinks slot z from tree w; the slot becomes loose and keeps its contents. */
  method RemoveNode(b: Book, w: Which, z: nat)
    requires b.Valid() && b.layout.Is(z, Member(w))
    modifies b.nodes, b`longRoot, b`shortRoot, b`seatRoot, b`layout
    ensures b.Valid() && SameContents(old(b.nodes[..]), b.nodes[..], {})
    ensures b.layout.roles == old(b.layout.roles)[z := Loose]
    ensures b.layout.tail == old(b.layout.tail)
    ensures TakenOut(InOrder(old(b.layout).TreeOf(w)), InOrder(b.layout.TreeOf(w)), z)
    ensures forall v: Which :: v != w ==> b.layout.TreeOf(v) == old(b.layout.TreeOf(v))
  {
    hide SearchTree, FreeSound, LinksOnly, Removal.Without, SameContents, InOrder, Ids, TreeSound;
    ghost var s, g := b.nodes[..], b.layout;
    Members(b, w, z);
    var ok;
    ghost var t;
    ok, t := Removal.Remove(b, w, z, g.TreeOf(w));
    assert ok;
    b.layout := g.(roles := g.roles[z := Loose]).WithTree(w, t);
    UnlinkedTree(s, g, w, b.RootOf(w), old(b.RootOf(w)), b.nodes[..], t, z);
    Relinked(s, b.nodes[..], g, b.layout, w, b.freelistHead, b.nodeCount, Ids(g.TreeOf(w)), z);
    forall v: Which | v != w ensures TreeSound(b.nodes[..], b.layout, v, b.RootOf(v)) {
      RelinkedTree(s, b.nodes[..], g, b.layout, w, v, b.RootOf(v), Ids(g.TreeOf(w)), z);
    }
  }

  lemma Members(b: Book, w: Which, z: nat)
    requires b.Valid() && b.layout.Is(z, Member(w))
    ensures TreeSound(b.nodes[..], b.layout, w, b.RootOf(w))
    ensures SearchTree(b.nodes[..], w, b.RootOf(w), b.layout.TreeOf(w))
    ensures z in Ids(b.layout.TreeOf(w)) && z != 0
    ensures forall i :: i in Ids(b.layout.TreeOf(w)) ==> b.layout.Is(i, Member(w))
  {
    assert TreeSound(b.nodes[..], b.layout, w, b.RootOf(w));
  }

  /** line' is line without its element z. */
  ghost predicate TakenOut(line: seq<nat>, line': seq<nat>, z: nat) {
    exists k :: 0 <= k < |line| && line[k] == z && line' == Removal.Without(line, k)
  }
}
