/** Ghost red-black trees over pool indices, the zipper that focuses on one of their nodes, and
    what it means for the links of a pool to represent them. */
module Trees {
  import opened Nodes

  datatype Tree = Leaf | Fork(left: Tree, idx: nat, color: Color, right: Tree)

  /** The way from a subtree up to the root: at each step the parent, its colour, and the
      sibling subtree. */
  datatype Path =
    | Top
    | Lefts(idx: nat, color: Color, right: Tree, up: Path)
    | Rights(left: Tree, idx: nat, color: Color, up: Path)

  ghost function Root(t: Tree): nat { if t.Leaf? then 0 else t.idx }

  ghost function Hue(t: Tree): Color { if t.Leaf? then Black else t.color }

  ghost function Ids(t: Tree): set<nat> {
    if t.Leaf? then {} else Ids(t.left) + {t.idx} + Ids(t.right)
  }

  ghost function InOrder(t: Tree): seq<nat> {
    if t.Leaf? then [] else InOrder(t.left) + [t.idx] + InOrder(t.right)
  }

  ghost function TopIdx(c: Path): nat { if c.Top? then 0 else c.idx }

  ghost function Sibling(c: Path): Tree
    requires !c.Top?
  {
    if c.Lefts? then c.right else c.left
  }

  ghost function PIds(c: Path): set<nat> {
    if c.Top? then {} else {c.idx} + Ids(Sibling(c)) + PIds(c.up)
  }

  /** The whole tree with t put back at the end of path c. */
  ghost function Plug(c: Path, t: Tree): Tree {
    match c
    case Top => t
    case Lefts(i, col, r, up) => Plug(up, Fork(t, i, col, r))
    case Rights(l, i, col, up) => Plug(up, Fork(l, i, col, t))
  }

  /** The in-order indices before, and after, the hole of c. */
  ghost function Before(c: Path): seq<nat> {
    match c
    case Top => []
    case Lefts(_, _, _, up) => Before(up)
    case Rights(l, i, _, up) => Before(up) + InOrder(l) + [i]
  }

  ghost function After(c: Path): seq<nat> {
    match c
    case Top => []
    case Lefts(i, _, r, up) => [i] + InOrder(r) + After(up)
    case Rights(_, _, _, up) => After(up)
  }

  /** A tree seen from one of its subtrees. */
  datatype Zipper = Zipper(path: Path, tree: Tree)

  ghost function Whole(z: Zipper): Tree { Plug(z.path, z.tree) }

  ghost function Span(z: Zipper): set<nat> { PIds(z.path) + Ids(z.tree) }

  ghost function Up(z: Zipper): Zipper
    requires !z.path.Top?
  {
    match z.path
    case Lefts(i, col, r, up) => Zipper(up, Fork(z.tree, i, col, r))
    case Rights(l, i, col, up) => Zipper(up, Fork(l, i, col, z.tree))
  }

  ghost function DownLeft(z: Zipper): Zipper
    requires z.tree.Fork?
  {
    Zipper(Lefts(z.tree.idx, z.tree.color, z.tree.right, z.path), z.tree.left)
  }

  ghost function DownRight(z: Zipper): Zipper
    requires z.tree.Fork?
  {
    Zipper(Rights(z.tree.left, z.tree.idx, z.tree.color, z.path), z.tree.right)
  }

  ghost function Steps(c: Path): nat { if c.Top? then 0 else 1 + Steps(c.up) }

  // ----- representation --------------------------------------------------------------------

  ghost predicate Distinct(t: Tree) {
    t.Fork? ==>
      && t.idx !in Ids(t.left) && t.idx !in Ids(t.right) && Ids(t.left) !! Ids(t.right)
      && Distinct(t.left) && Distinct(t.right)
  }

  ghost predicate PDistinct(c: Path) {
    !c.Top? ==>
      && c.idx !in Ids(Sibling(c)) && c.idx !in PIds(c.up) && Ids(Sibling(c)) !! PIds(c.up)
      && Distinct(Sibling(c)) && PDistinct(c.up)
  }

  /** The links of s represent the subtree t, hanging below index p. */
  ghost predicate Rep(s: Pool, w: Which, t: Tree, p: nat) {
    t.Fork? ==>
      && 0 < t.idx && Has(s, w, t.idx)
      && s[t.idx].left == Root(t.left) && s[t.idx].right == Root(t.right)
      && s[t.idx].parent == p && s[t.idx].color == t.color
      && Rep(s, w, t.left, t.idx) && Rep(s, w, t.right, t.idx)
  }

  /** The links of s represent the path c whose hole holds index h, up to the tree root. */
  ghost predicate PRep(s: Pool, w: Which, root: nat, c: Path, h: nat) {
    match c
    case Top => root == h
    case Lefts(i, col, r, up) =>
      && 0 < i && Has(s, w, i)
      && s[i].left == h && s[i].right == Root(r) && s[i].parent == TopIdx(up) && s[i].color == col
      && Rep(s, w, r, i) && PRep(s, w, root, up, i)
    case Rights(l, i, col, up) =>
      && 0 < i && Has(s, w, i)
      && s[i].left == Root(l) && s[i].right == h && s[i].parent == TopIdx(up) && s[i].color == col
      && Rep(s, w, l, i) && PRep(s, w, root, up, i)
  }

  /** Pool s with header root `root` holds the tree Plug(c, t), seen from t. */
  ghost predicate Zip(s: Pool, w: Which, root: nat, c: Path, t: Tree) {
    && Rep(s, w, t, TopIdx(c)) && PRep(s, w, root, c, Root(t))
    && Distinct(t) && PDistinct(c) && PIds(c) !! Ids(t) && 0 !in Ids(t) && 0 !in PIds(c)
  }

  // ----- moving the focus --------------------------------------------------------------------

  lemma Frame(s: Pool, s': Pool, w: Which, t: Tree, p: nat, changed: set<nat>)
    requires Rep(s, w, t, p) && Except(s, s', changed) && Ids(t) !! changed
    ensures Rep(s', w, t, p)
  {
    if t.Fork? {
      Frame(s, s', w, t.left, t.idx, changed);
      Frame(s, s', w, t.right, t.idx, changed);
    }
  }

  lemma PFrame(s: Pool, s': Pool, w: Which, root: nat, c: Path, h: nat, changed: set<nat>)
    requires PRep(s, w, root, c, h) && Except(s, s', changed) && PIds(c) !! changed
    ensures PRep(s', w, root, c, h)
  {
    if !c.Top? {
      Frame(s, s', w, Sibling(c), c.idx, changed);
      PFrame(s, s', w, root, c.up, c.idx, changed);
    }
  }

  /** A subtree keeps its shape when only its root's parent link is rewritten. */
  lemma Reparent(s: Pool, s': Pool, w: Which, t: Tree, p: nat, q: nat, changed: set<nat>)
    requires Rep(s, w, t, p) && Distinct(t)
    requires Except(s, s', changed) && Ids(t) !! changed - {Root(t)}
    requires t.Fork? ==> s'[t.idx] == s[t.idx].(parent := q)
    ensures Rep(s', w, t, q)
  {
    if t.Fork? {
      Frame(s, s', w, t.left, t.idx, changed);
      Frame(s, s', w, t.right, t.idx, changed);
    }
  }

  /** The link to the hole of c has been rewritten to h. */
  ghost predicate Rehung(s: Pool, s': Pool, root: nat, root': nat, c: Path, h: nat) {
    if c.Top? then root' == h else
      && root' == root && c.idx < |s| == |s'| && s[c.idx].Used?
      && s'[c.idx] == if c.Lefts? then s[c.idx].(left := h) else s[c.idx].(right := h)
  }

  /** A path keeps its shape when the link to its hole is rewritten. */
  lemma Rehole(s: Pool, s': Pool, w: Which, root: nat, root': nat, c: Path, h: nat, h': nat, changed: set<nat>)
    requires PRep(s, w, root, c, h) && PDistinct(c) && Rehung(s, s', root, root', c, h')
    requires Except(s, s', changed) && PIds(c) !! changed - {TopIdx(c)}
    ensures PRep(s', w, root', c, h')
  {
    if !c.Top? {
      Frame(s, s', w, Sibling(c), c.idx, changed);
      PFrame(s, s', w, root, c.up, c.idx, changed);
    }
  }

  /** What a focused node's slot, and the slots beside it, look like. */
  lemma Shape(s: Pool, w: Which, root: nat, z: Zipper)
    requires Zip(s, w, root, z.path, z.tree) && z.tree.Fork?
    ensures NodeShape(s, w, z.tree) && s[z.tree.idx].parent == TopIdx(z.path)
    ensures PathShape(s, w, root, z.path, z.tree.idx) && TopIdx(z.path) !in Ids(z.tree)
    ensures Ids(z.tree) <= Span(z) && 0 !in Span(z)
  {
    assert Rep(s, w, z.tree.left, z.tree.idx) && Rep(s, w, z.tree.right, z.tree.idx);
    assert Distinct(z.tree.left) && Distinct(z.tree.right);
  }

  ghost predicate NodeShape(s: Pool, w: Which, t: Tree)
    requires t.Fork?
  {
    && t.idx in Ids(t) && ChildShape(s, w, t, t.left) && ChildShape(s, w, t, t.right)
    && 0 < t.idx && Has(s, w, t.idx) && s[t.idx].color == t.color
    && s[t.idx].left == Root(t.left) && s[t.idx].right == Root(t.right)
    && (t.left.Fork? ==> t.left.idx != Root(t.right))
  }

  ghost predicate ChildShape(s: Pool, w: Which, t: Tree, u: Tree)
    requires t.Fork?
  {
    && Ids(u) <= Ids(t)
    && (u.Fork? ==> 0 < u.idx && u.idx in Ids(u) && Has(s, w, u.idx) && u.idx != t.idx && s[u.idx].color == u.color)
  }

  /** The slot above a focused node. */
  ghost predicate PathShape(s: Pool, w: Which, root: nat, c: Path, h: nat) {
    if c.Top? then root == h else
      && 0 < c.idx && Has(s, w, c.idx) && c.idx in PIds(c) && s[c.idx].color == c.color
      && s[c.idx].parent == TopIdx(c.up)
      && if c.Lefts? then s[c.idx].left == h && s[c.idx].right == Root(c.right) && (h == 0 || Root(c.right) != h)
         else s[c.idx].right == h && s[c.idx].left == Root(c.left) && (h == 0 || Root(c.left) != h)
  }

  /** Moving the focus to the root of the whole tree. */
  lemma {:induction false} ZipTop(s: Pool, w: Which, root: nat, c: Path, t: Tree)
    requires Zip(s, w, root, c, t)
    ensures Zip(s, w, root, Top, Plug(c, t))
  {
    match c
    case Top =>
    case Lefts(i, col, r, up) => ZipTop(s, w, root, up, Fork(t, i, col, r));
    case Rights(l, i, col, up) => ZipTop(s, w, root, up, Fork(l, i, col, t));
  }

  lemma {:induction false} PlugFork(c: Path, t: Tree)
    ensures t.Fork? || !c.Top? ==> Plug(c, t).Fork?
  {
    match c
    case Top =>
    case Lefts(i, col, r, up) => PlugFork(up, Fork(t, i, col, r));
    case Rights(l, i, col, up) => PlugFork(up, Fork(l, i, col, t));
  }

  lemma {:induction false} PlugIds(c: Path, t: Tree)
    ensures Ids(Plug(c, t)) == PIds(c) + Ids(t)
  {
    match c
    case Top =>
    case Lefts(i, col, r, up) => PlugIds(up, Fork(t, i, col, r));
    case Rights(l, i, col, up) => PlugIds(up, Fork(l, i, col, t));
  }

  lemma Regroup<T>(a: seq<T>, b: seq<T>, c: seq<T>, d: seq<T>, e: seq<T>)
    ensures a + (b + c + d) + e == a + b + (c + d + e)
    ensures a + (b + c + d) + e == a + b + c + d + e
  {
  }

  lemma {:induction false} PlugInOrder(c: Path, t: Tree)
    ensures InOrder(Plug(c, t)) == Before(c) + InOrder(t) + After(c)
  {
    match c
    case Top =>
    case Lefts(i, col, r, up) =>
      PlugInOrder(up, Fork(t, i, col, r));
      Regroup(Before(up), InOrder(t), [i], InOrder(r), After(up));
    case Rights(l, i, col, up) =>
      PlugInOrder(up, Fork(l, i, col, t));
      Regroup(Before(up), InOrder(l), [i], InOrder(t), After(up));
  }

  /** Recolouring the focused node. */
  lemma Recolored(s: Pool, s': Pool, w: Which, root: nat, c: Path, t: Tree, col: Color)
    requires Zip(s, w, root, c, t) && t.Fork?
    requires s' == s[t.idx := s[t.idx].(color := col)]
    ensures Zip(s', w, root, c, t.(color := col))
  {
    Frame(s, s', w, t.left, t.idx, {t.idx});
    Frame(s, s', w, t.right, t.idx, {t.idx});
    PFrame(s, s', w, root, c, t.idx, {t.idx});
  }

  /** Pool s holds, seen from z, a tree over exactly the slots `own` with in-order sequence `line`. */
  ghost predicate Held(s: Pool, w: Which, root: nat, z: Zipper, own: set<nat>, line: seq<nat>) {
    Zip(s, w, root, z.path, z.tree) && Span(z) == own && InOrder(Whole(z)) == line
  }

  /** The pieces around a focused node: two subtrees, a path, and slots all apart from each other. */
  lemma Parts(s: Pool, w: Which, root: nat, zz: Zipper, own: set<nat>, line: seq<nat>)
    requires Held(s, w, root, zz, own, line) && zz.tree.Fork?
    ensures var f, c := zz.tree, zz.path;
      && Rep(s, w, f.left, f.idx) && Rep(s, w, f.right, f.idx) && PRep(s, w, root, c, f.idx)
      && Distinct(f.left) && Distinct(f.right) && PDistinct(c)
      && Ids(f.left) !! Ids(f.right) && Ids(f.left) !! PIds(c) && Ids(f.right) !! PIds(c)
      && f.idx !in Ids(f.left) && f.idx !in Ids(f.right) && f.idx !in PIds(c)
      && 0 !in own && own == Ids(f.left) + Ids(f.right) + {f.idx} + PIds(c)
      && (c.Top? || c.idx in PIds(c)) && (f.left.Fork? ==> f.left.idx in Ids(f.left))
      && (f.right.Fork? ==> f.right.idx in Ids(f.right))
  {
  }

  /** The same of a node held. */
  lemma ShapeHeld(s: Pool, w: Which, root: nat, z: Zipper, own: set<nat>, line: seq<nat>)
    requires Held(s, w, root, z, own, line) && z.tree.Fork?
    ensures NodeShape(s, w, z.tree) && s[z.tree.idx].parent == TopIdx(z.path)
    ensures PathShape(s, w, root, z.path, z.tree.idx)
  {
    Shape(s, w, root, z);
  }

  lemma ZipOf(s: Pool, w: Which, root: nat, c: Path, t: Tree, own: set<nat>)
    requires Rep(s, w, t, TopIdx(c)) && PRep(s, w, root, c, Root(t)) && Distinct(t) && PDistinct(c)
    requires Ids(t) !! PIds(c) && Ids(t) + PIds(c) == own && 0 !in own
    ensures Held(s, w, root, Zipper(c, t), own, Before(c) + InOrder(t) + After(c))
  {
    PlugInOrder(c, t);
  }

  lemma ForkOf(s: Pool, w: Which, t: Tree, p: nat)
    requires t.Fork? && 0 < t.idx && Has(s, w, t.idx) && Rep(s, w, t.left, t.idx) && Rep(s, w, t.right, t.idx)
    requires s[t.idx] == Used(Root(t.left), Root(t.right), p, t.color, s[t.idx].data)
    requires Distinct(t.left) && Distinct(t.right) && Ids(t.left) !! Ids(t.right)
    requires t.idx !in Ids(t.left) && t.idx !in Ids(t.right)
    ensures Rep(s, w, t, p) && Distinct(t) && Ids(t) == Ids(t.left) + {t.idx} + Ids(t.right)
  {
  }

  lemma HeldUp(s: Pool, w: Which, root: nat, z: Zipper, own: set<nat>, line: seq<nat>)
    requires Held(s, w, root, z, own, line) && !z.path.Top?
    ensures Held(s, w, root, Up(z), own, line)
  {
  }

  lemma HeldDown(s: Pool, w: Which, root: nat, z: Zipper, own: set<nat>, line: seq<nat>)
    requires Held(s, w, root, z, own, line) && z.tree.Fork?
    ensures Held(s, w, root, DownLeft(z), own, line)
    ensures Held(s, w, root, DownRight(z), own, line)
  {
  }

  /** The in-order sequence follows the key order of w. */
  ghost predicate Ordered(s: Pool, w: Which, line: seq<nat>) {
    && (forall j :: 0 <= j < |line| ==> Has(s, w, line[j]))
    && forall j, k :: 0 <= j < k < |line| ==> !Less(w, s[line[k]].data, s[line[j]].data)
  }

  /** Where the focused node stands in the in-order sequence. */
  ghost function Place(z: Zipper): nat
    requires z.tree.Fork?
  {
    |Before(z.path)| + |InOrder(z.tree.left)|
  }

  lemma Placed(z: Zipper)
    requires z.tree.Fork?
    ensures var line := InOrder(Whole(z));
            && Place(z) < |line| && line[Place(z)] == z.tree.idx
            && |Before(DownLeft(z).path)| == |Before(z.path)| && |After(DownLeft(z).path)| == |line| - Place(z)
            && |Before(DownRight(z).path)| == Place(z) + 1 && |After(DownRight(z).path)| == |After(z.path)|
  {
    PlugInOrder(z.path, z.tree);
  }

  // ----- the red-black rules -------------------------------------------------------------------

  /** t obeys the colour rules and every way down from it meets h black nodes. */
  ghost predicate RB(t: Tree, h: int) {
    match t
    case Leaf => h == 0
    case Fork(l, _, Black, r) => RB(l, h - 1) && RB(r, h - 1)
    case Fork(l, _, Red, r) => Hue(l) == Black && Hue(r) == Black && RB(l, h) && RB(r, h)
  }

  /** c obeys the colour rules, its tree root is black, and its hole is to be filled with a
      subtree of black height h. */
  ghost predicate PRB(c: Path, h: int) {
    !c.Top? ==>
      && RB(Sibling(c), h)
      && (c.color == Red ==> Hue(Sibling(c)) == Black && !c.up.Top? && c.up.color == Black)
      && PRB(c.up, if c.color == Red then h else h + 1)
  }

  ghost predicate TopRed(c: Path) { !c.Top? && c.color == Red }

  /** The subtree in focus, of black height h, breaks no rule where it hangs. */
  ghost predicate Fits(z: Zipper, h: int) {
    RB(z.tree, h) && PRB(z.path, h) && (Hue(z.tree) == Red ==> !z.path.Top? && z.path.color == Black)
  }

  ghost function Below(t: Tree, h: int): int {
    if Hue(t) == Red then h else h - 1
  }

  lemma FitsDown(z: Zipper, h: int)
    requires Fits(z, h) && z.tree.Fork?
    ensures Fits(DownLeft(z), Below(z.tree, h)) && Fits(DownRight(z), Below(z.tree, h))
  {
  }

  /** A whole tree as the header root sees it. */
  ghost predicate Balanced(t: Tree) {
    Hue(t) == Black && exists h :: RB(t, h)
  }

  lemma {:induction false} PlugBalanced(c: Path, t: Tree, h: int)
    requires RB(t, h) && PRB(c, h)
    requires Hue(t) == Red ==> !TopRed(c) && !c.Top?
    ensures Balanced(Plug(c, t))
  {
    match c
    case Top =>
    case Lefts(i, col, r, up) => PlugBalanced(up, Fork(t, i, col, r), if col == Red then h else h + 1);
    case Rights(l, i, col, up) => PlugBalanced(up, Fork(l, i, col, t), if col == Red then h else h + 1);
  }

  /** The header root of w holds t: a valid red-black search tree with consistent parent links. */
  ghost predicate SearchTree(s: Pool, w: Which, root: nat, t: Tree) {
    Held(s, w, root, Zipper(Top, t), Ids(t), InOrder(t)) && Balanced(t) && Ordered(s, w, InOrder(t))
  }

  lemma HeldFrame(s: Pool, s': Pool, w: Which, root: nat, z: Zipper, own: set<nat>, line: seq<nat>, changed: set<nat>)
    requires Held(s, w, root, z, own, line) && Except(s, s', changed) && own !! changed
    ensures Held(s', w, root, z, own, line)
  {
    Frame(s, s', w, z.tree, TopIdx(z.path), changed);
    PFrame(s, s', w, root, z.path, Root(z.tree), changed);
  }

  lemma {:induction false} InOrderIds(t: Tree)
    ensures forall i :: i in InOrder(t) <==> i in Ids(t)
  {
    if t.Fork? {
      InOrderIds(t.left);
      InOrderIds(t.right);
    }
  }
}
