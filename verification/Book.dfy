/** The intent-book account: header counters, tree roots, freelist head, and the node pool. */
module IntentBook {
  import opened Nodes
  import opened Trees

  /** What a pool slot is used for. `Loose` is a slot handed out and not yet linked, or unlinked and
      not yet freed. */
  datatype Role = Sentinel | Untouched | Spare | Loose | Member(tree: Which)

  /** The abstract state of a book: one role for every slot, the three trees, the freelist, and where the
      tail that the bump counter eats into ends. The tail ends with the pool until the book is expanded. */
  datatype Layout = Layout(roles: seq<Role>, long: Tree, short: Tree, seats: Tree, free: seq<nat>, tail: nat) {
    ghost function TreeOf(w: Which): Tree {
      match w case Long => long case Short => short case Seats => seats
    }

    ghost function WithTree(w: Which, t: Tree): Layout {
      match w case Long => this.(long := t) case Short => this.(short := t) case Seats => this.(seats := t)
    }

    ghost predicate Is(i: nat, r: Role) { i < |roles| && roles[i] == r }

    /** The slots the allocator can still hand out. */
    ghost function FreeSlots(): set<nat> { set i: nat | i < |roles| && roles[i] in {Spare, Untouched} }
  }

  /** Tree w is a valid search tree over exactly the slots with its role. */
  ghost predicate TreeSound(s: Pool, g: Layout, w: Which, root: nat) {
    SearchTree(s, w, root, g.TreeOf(w)) && forall i :: i in Ids(g.TreeOf(w)) <==> g.Is(i, Member(w))
  }

  /** The freelist from head runs through `free`, without repetition. */
  ghost predicate Chain(s: Pool, head: nat, free: seq<nat>)
    decreases free
  {
    if free == [] then head == 0 else
      head == free[0] && 0 < head < |s| && s[head].Free? && head !in free[1..] && Chain(s, s[head].nextFree, free[1..])
  }

  /** The freelist holds exactly the spare slots; slots of the tail from nodeCount on are untouched. */
  ghost predicate FreeSound(s: Pool, g: Layout, head: nat, nodeCount: nat) {
    && Chain(s, head, g.free)
    && (forall i :: i in g.free <==> g.Is(i, Spare))
    && g.tail <= |g.roles|
    && (forall i :: 0 < i < |g.roles| ==> (g.roles[i] == Untouched <==> nodeCount <= i < g.tail))
    && (forall i :: 0 <= i < |g.roles| ==> (g.roles[i] == Sentinel <==> i == 0))
    && (forall i :: 0 < i < |s| && nodeCount <= i < g.tail ==> s[i].Free?)
  }

  class Book {
    const nodes: array<Node>
    var longRoot: nat
    var shortRoot: nat
    var seatRoot: nat
    var freelistHead: nat
    var nodeCount: nat
    var capacity: nat
    var nextIntentId: nat
    var nextSeq: nat
    var cachedMaxFeeBps: nat

    ghost var layout: Layout

    /** Sentinel, freelist, untouched tail, loose slots and the three trees share out the pool. */
    ghost predicate Valid()
      reads this, nodes
    {
      && nodes.Length == |layout.roles| == capacity < 0x1_0000_0000
      && 1 <= nodeCount && (nodeCount == 1 || nodeCount <= layout.tail)
      && (forall w: Which :: TreeSound(nodes[..], layout, w, RootOf(w)))
      && FreeSound(nodes[..], layout, freelistHead, nodeCount)
    }

    /** The allocator can tell the slots in use from the others: it has a freelist or a tail left, or it
        refuses. On a book that was never expanded this always holds. */
    ghost predicate Allocatable()
      reads this
    {
      freelistHead != 0 || nodeCount < layout.tail || nodeCount >= capacity
    }

    /** A fresh book: only the sentinel is taken. */
    constructor (size: nat, maxFeeBps: nat)
      requires size < 0x1_0000_0000
      ensures Valid() && fresh(nodes) && capacity == size
      ensures layout == Layout(seq(size, i => if i == 0 then Sentinel else Untouched), Leaf, Leaf, Leaf, [], size)
      ensures nextIntentId == 1 && nextSeq == 1 && cachedMaxFeeBps == maxFeeBps
      ensures forall i :: 0 <= i < nodes.Length ==> nodes[i] == Free(0)
    {
      nodes := new Node[size](_ => Free(0));
      longRoot, shortRoot, seatRoot, freelistHead := 0, 0, 0, 0;
      nodeCount, capacity, nextIntentId, nextSeq, cachedMaxFeeBps := 1, size, 1, 1, maxFeeBps;
      layout := Layout(seq(size, i => if i == 0 then Sentinel else Untouched), Leaf, Leaf, Leaf, [], size);
      new;
      forall w: Which ensures TreeSound(nodes[..], layout, w, RootOf(w)) {
        assert RB(Leaf, 0);
      }
    }

    function RootOf(w: Which): nat
      reads this`longRoot, this`shortRoot, this`seatRoot
    {
      match w case Long => longRoot case Short => shortRoot case Seats => seatRoot
    }

    method SetRoot(w: Which, root: nat)
      modifies this`longRoot, this`shortRoot, this`seatRoot
      ensures RootOf(w) == root && OtherRoots(w)
    {
      match w
      case Long => longRoot := root;
      case Short => shortRoot := root;
      case Seats => seatRoot := root;
    }

    /** The header roots of the other two trees have not moved. */
    twostate predicate OtherRoots(w: Which)
      reads this`longRoot, this`shortRoot, this`seatRoot
    {
      forall v: Which :: v != w ==> RootOf(v) == old(RootOf(v))
    }

    // ----- typed field access; the null index reads as an absent black node ------------------

    /** Slot i carries the tag that tree w works on, so the typed accessors succeed. */
    predicate Typed(w: Which, i: nat)
      reads nodes
    {
      i < nodes.Length && nodes[i].Used? && Kind(w, nodes[i].data)
    }

    function Left(w: Which, i: nat): nat
      requires i == 0 || Typed(w, i)
      reads nodes
    {
      if i == 0 then 0 else nodes[i].left
    }

    function Right(w: Which, i: nat): nat
      requires i == 0 || Typed(w, i)
      reads nodes
    {
      if i == 0 then 0 else nodes[i].right
    }

    function Parent(w: Which, i: nat): nat
      requires i == 0 || Typed(w, i)
      reads nodes
    {
      if i == 0 then 0 else nodes[i].parent
    }

    function ColorOf(w: Which, i: nat): Color
      requires i == 0 || Typed(w, i)
      reads nodes
    {
      if i == 0 then Black else nodes[i].color
    }

    /** Only slot i may differ, and the null slot does not. */
    twostate predicate OnlySlot(i: nat)
      reads nodes
    {
      forall j :: 0 <= j < nodes.Length && (j != i || i == 0) ==> nodes[j] == old(nodes[j])
    }

    method SetLeft(w: Which, i: nat, v: nat)
      requires i == 0 || Typed(w, i)
      modifies nodes
      ensures OnlySlot(i) && (i != 0 ==> nodes[i] == old(nodes[i]).(left := v))
    {
      if i != 0 { nodes[i] := nodes[i].(left := v); }
    }

    method SetRight(w: Which, i: nat, v: nat)
      requires i == 0 || Typed(w, i)
      modifies nodes
      ensures OnlySlot(i) && (i != 0 ==> nodes[i] == old(nodes[i]).(right := v))
    {
      if i != 0 { nodes[i] := nodes[i].(right := v); }
    }

    method SetParent(w: Which, i: nat, v: nat)
      requires i == 0 || Typed(w, i)
      modifies nodes
      ensures OnlySlot(i) && (i != 0 ==> nodes[i] == old(nodes[i]).(parent := v))
    {
      if i != 0 { nodes[i] := nodes[i].(parent := v); }
    }

    method SetColor(w: Which, i: nat, col: Color)
      requires i == 0 || Typed(w, i)
      modifies nodes
      ensures OnlySlot(i) && (i != 0 ==> nodes[i] == old(nodes[i]).(color := col))
    {
      if i != 0 { nodes[i] := nodes[i].(color := col); }
    }
  }
}
