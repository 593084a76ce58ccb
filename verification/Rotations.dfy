/** Rotations and the other single steps on the links of a book's node pool, each tied to what it
    does to the ghost tree seen through a zipper. */
module Rotations {
  import opened Nodes
  import opened Trees
  import opened IntentBook

  /** f with its right child rotated up. */
  ghost function TurnLeft(f: Tree): Tree
    requires f.Fork? && f.right.Fork?
  {
    var y := f.right;
    Fork(Fork(f.left, f.idx, f.color, y.left), y.idx, y.color, y.right)
  }

  /** f with its left child rotated up. */
  ghost function TurnRight(f: Tree): Tree
    requires f.Fork? && f.left.Fork?
  {
    var y := f.left;
    Fork(y.left, y.idx, y.color, Fork(y.right, f.idx, f.color, f.right))
  }

  /** x can be rotated with its child y: they, y's inner child and x's parent are distinct slots of
      the tree's kind. */
  predicate Turnable(b: Book, w: Which, x: nat, y: nat, inner: nat)
    requires b.Typed(w, x) && (y == 0 || b.Typed(w, y))
    reads b.nodes
  {
    var up := b.nodes[x].parent;
    && x != 0 && y != x
    && (up == 0 || (b.Typed(w, up) && up != x && up != y && up != inner
      && (b.nodes[up].left == x <==> b.nodes[up].right != x)))
    && (inner == 0 || (b.Typed(w, inner) && inner != x && inner != y))
  }

  /** The exact link surgery that takes pool s to s' when y is rotated up into the place of x. */
  ghost predicate Turned(s: Pool, s': Pool, root: nat, root': nat, x: nat, y: nat, inner: nat, x': Node, y': Node) {
    && |s| == |s'| && x < |s| && s[x].Used? && y < |s| && s[y].Used?
    && var up := s[x].parent;
    && s'[x] == x' && s'[y] == y'
    && (inner != 0 ==> inner < |s| && s[inner].Used? && s'[inner] == s[inner].(parent := x))
    && (up != 0 ==>
      && up < |s| && s[up].Used?
      && s'[up] == if s[up].left == x then s[up].(left := y) else s[up].(right := y))
    && root' == (if up == 0 then y else root)
    && forall j :: 0 <= j < |s| && j != x && j != y && (j != inner || j == 0) && (j != up || j == 0) ==> s'[j] == s[j]
  }

  // ----- left rotation ---------------------------------------------------------------------------

  method RotateLeft(b: Book, w: Which, x: nat) returns (ok: bool)
    requires b.Typed(w, x)
    requires var y := b.nodes[x].right;
             (y == 0 || b.Typed(w, y)) && Turnable(b, w, x, y, b.Left(w, y))
    modifies b.nodes, b`longRoot, b`shortRoot, b`seatRoot
    ensures ok == (old(b.nodes[x].right) != 0)
    ensures !ok ==> b.nodes[..] == old(b.nodes[..]) && b.RootOf(w) == old(b.RootOf(w))
    ensures ok ==>
      var y, up := old(b.nodes[x].right), old(b.nodes[x].parent);
      var inner := old(b.nodes[y].left);
      && b.nodes[x] == old(b.nodes[x]).(right := inner, parent := y)
      && b.nodes[y] == old(b.nodes[y]).(left := x, parent := up)
      && (inner != 0 ==> b.nodes[inner] == old(b.nodes[inner]).(parent := x))
      && (up != 0 ==> b.nodes[up] == if old(b.nodes[up].left) == x then old(b.nodes[up]).(left := y)
                                     else old(b.nodes[up]).(right := y))
      && b.RootOf(w) == (if up == 0 then y else old(b.RootOf(w)))
      && forall j :: 0 <= j < b.nodes.Length && j != x && j != y && (j != inner || j == 0) && (j != up || j == 0)
           ==> b.nodes[j] == old(b.nodes[j])
    ensures b.OtherRoots(w)
  {
    var y := b.Right(w, x);
    if y == 0 { return false; }
    var yLeft := b.Left(w, y);
    b.nodes[x] := b.nodes[x].(right := yLeft);
    if yLeft != 0 { b.nodes[yLeft] := b.nodes[yLeft].(parent := x); }
    var xParent := b.Parent(w, x);
    b.nodes[y] := b.nodes[y].(parent := xParent);
    if xParent == 0 {
      b.SetRoot(w, y);
    } else if b.Left(w, xParent) == x {
      b.nodes[xParent] := b.nodes[xParent].(left := y);
    } else {
      b.nodes[xParent] := b.nodes[xParent].(right := y);
    }
    b.nodes[y] := b.nodes[y].(left := x);
    b.nodes[x] := b.nodes[x].(parent := y);
    ok := true;
  }

  /** The left rotation at the focus of z: its error branch is not taken, and the tree turns. */
  method TurnLeftAt(b: Book, w: Which, x: nat, ghost z: Zipper, ghost own: set<nat>, ghost line: seq<nat>)
    requires Held(b.nodes[..], w, b.RootOf(w), z, own, line)
    requires z.tree.Fork? && z.tree.right.Fork? && x == z.tree.idx
    modifies b.nodes, b`longRoot, b`shortRoot, b`seatRoot
    ensures Held(b.nodes[..], w, b.RootOf(w), z.(tree := TurnLeft(z.tree)), own, line)
    ensures LinksOnly(old(b.nodes[..]), b.nodes[..], own) && b.OtherRoots(w)
  {
    ghost var s, root := b.nodes[..], b.RootOf(w);
    HeldDown(s, w, root, z, own, line);
    Shape(s, w, root, z);
    Shape(s, w, root, DownRight(z));
    hide Held, Zip, Rep, PRep, Distinct, PDistinct, Ids, PIds;
    var ok := RotateLeft(b, w, x);
    assert ok;
    TurnedLeft(s, b.nodes[..], w, root, b.RootOf(w), z, own, line);
  }

  lemma TurnedLeft(s: Pool, s': Pool, w: Which, root: nat, root': nat, z: Zipper, own: set<nat>, line: seq<nat>)
    requires Held(s, w, root, z, own, line) && z.tree.Fork? && z.tree.right.Fork?
    requires var x, y := z.tree.idx, z.tree.right.idx;
             && x < |s| && s[x].Used? && y < |s| && s[y].Used?
             && Turned(s, s', root, root', x, y, Root(z.tree.right.left), s[x].(right := s[y].left, parent := y),
                       s[y].(left := x, parent := s[x].parent))
    ensures Held(s', w, root', z.(tree := TurnLeft(z.tree)), own, line) && LinksOnly(s, s', own)
  {
    var f, x, y := z.tree, z.tree.idx, z.tree.right.idx;
    var changed := {x, y, Root(f.right.left), TopIdx(z.path)};
    TurnedLeftSlots(s, s', w, root, root', z, changed);
    assert Rep(s, w, f.right, x) && Distinct(f.right);
    Frame(s, s', w, f.left, x, changed);
    Frame(s, s', w, f.right.right, y, changed);
    Reparent(s, s', w, f.right.left, y, x, changed);
    Rehole(s, s', w, root, root', z.path, x, y, changed);
    TurnLeftLine(z);
  }

  lemma TurnedLeftSlots(s: Pool, s': Pool, w: Which, root: nat, root': nat, z: Zipper, changed: set<nat>)
    requires Zip(s, w, root, z.path, z.tree) && z.tree.Fork? && z.tree.right.Fork?
    requires var x, y := z.tree.idx, z.tree.right.idx;
             && x < |s| && s[x].Used? && y < |s| && s[y].Used?
             && Turned(s, s', root, root', x, y, Root(z.tree.right.left), s[x].(right := s[y].left, parent := y),
                       s[y].(left := x, parent := s[x].parent))
    requires changed == {z.tree.idx, z.tree.right.idx, Root(z.tree.right.left), TopIdx(z.path)}
    ensures Except(s, s', changed) && Rehung(s, s', root, root', z.path, z.tree.right.idx)
    ensures LinksOnly(s, s', Span(z))
  {
    HeldDown(s, w, root, z, Span(z), InOrder(Whole(z)));
    Shape(s, w, root, z);
    Shape(s, w, root, DownRight(z));
    hide Held, Zip, Rep, PRep, Distinct, PDistinct, Ids, PIds;
  }

  lemma TurnLeftLine(z: Zipper)
    requires z.tree.Fork? && z.tree.right.Fork?
    ensures InOrder(Whole(z.(tree := TurnLeft(z.tree)))) == InOrder(Whole(z))
    ensures Ids(TurnLeft(z.tree)) == Ids(z.tree)
  {
    var f := z.tree;
    PlugInOrder(z.path, f);
    PlugInOrder(z.path, TurnLeft(f));
    Regroup(InOrder(f.left), [f.idx], InOrder(f.right.left), [f.right.idx], InOrder(f.right.right));
  }

  // ----- right rotation ---------------------------------------------------------------------------

  method RotateRight(b: Book, w: Which, x: nat) returns (ok: bool)
    requires b.Typed(w, x)
    requires var y := b.nodes[x].left;
             (y == 0 || b.Typed(w, y)) && Turnable(b, w, x, y, b.Right(w, y))
    modifies b.nodes, b`longRoot, b`shortRoot, b`seatRoot
    ensures ok == (old(b.nodes[x].left) != 0)
    ensures !ok ==> b.nodes[..] == old(b.nodes[..]) && b.RootOf(w) == old(b.RootOf(w))
    ensures ok ==>
      var y, up := old(b.nodes[x].left), old(b.nodes[x].parent);
      var inner := old(b.nodes[y].right);
      && b.nodes[x] == old(b.nodes[x]).(left := inner, parent := y)
      && b.nodes[y] == old(b.nodes[y]).(right := x, parent := up)
      && (inner != 0 ==> b.nodes[inner] == old(b.nodes[inner]).(parent := x))
      && (up != 0 ==> b.nodes[up] == if old(b.nodes[up].left) == x then old(b.nodes[up]).(left := y)
                                     else old(b.nodes[up]).(right := y))
      && b.RootOf(w) == (if up == 0 then y else old(b.RootOf(w)))
      && forall j :: 0 <= j < b.nodes.Length && j != x && j != y && (j != inner || j == 0) && (j != up || j == 0)
           ==> b.nodes[j] == old(b.nodes[j])
    ensures b.OtherRoots(w)
  {
    var y := b.Left(w, x);
    if y == 0 { return false; }
    var yRight := b.Right(w, y);
    b.nodes[x] := b.nodes[x].(left := yRight);
    if yRight != 0 { b.nodes[yRight] := b.nodes[yRight].(parent := x); }
    var xParent := b.Parent(w, x);
    b.nodes[y] := b.nodes[y].(parent := xParent);
    if xParent == 0 {
      b.SetRoot(w, y);
    } else if b.Right(w, xParent) == x {
      b.nodes[xParent] := b.nodes[xParent].(right := y);
    } else {
      b.nodes[xParent] := b.nodes[xParent].(left := y);
    }
    b.nodes[y] := b.nodes[y].(right := x);
    b.nodes[x] := b.nodes[x].(parent := y);
    ok := true;
  }

  /** The right rotation at the focus of z: its error branch is not taken, and the tree turns. */
  method TurnRightAt(b: Book, w: Which, x: nat, ghost z: Zipper, ghost own: set<nat>, ghost line: seq<nat>)
    requires Held(b.nodes[..], w, b.RootOf(w), z, own, line)
    requires z.tree.Fork? && z.tree.left.Fork? && x == z.tree.idx
    modifies b.nodes, b`longRoot, b`shortRoot, b`seatRoot
    ensures Held(b.nodes[..], w, b.RootOf(w), z.(tree := TurnRight(z.tree)), own, line)
    ensures LinksOnly(old(b.nodes[..]), b.nodes[..], own) && b.OtherRoots(w)
  {
    ghost var s, root := b.nodes[..], b.RootOf(w);
    HeldDown(s, w, root, z, own, line);
    Shape(s, w, root, z);
    Shape(s, w, root, DownLeft(z));
    hide Held, Zip, Rep, PRep, Distinct, PDistinct, Ids, PIds;
    var ok := RotateRight(b, w, x);
    assert ok;
    TurnedRight(s, b.nodes[..], w, root, b.RootOf(w), z, own, line);
  }

  lemma TurnedRight(s: Pool, s': Pool, w: Which, root: nat, root': nat, z: Zipper, own: set<nat>, line: seq<nat>)
    requires Held(s, w, root, z, own, line) && z.tree.Fork? && z.tree.left.Fork?
    requires var x, y := z.tree.idx, z.tree.left.idx;
             && x < |s| && s[x].Used? && y < |s| && s[y].Used?
             && Turned(s, s', root, root', x, y, Root(z.tree.left.right), s[x].(left := s[y].right, parent := y),
                       s[y].(right := x, parent := s[x].parent))
    ensures Held(s', w, root', z.(tree := TurnRight(z.tree)), own, line) && LinksOnly(s, s', own)
  {
    var f, x, y := z.tree, z.tree.idx, z.tree.left.idx;
    var changed := {x, y, Root(f.left.right), TopIdx(z.path)};
    TurnedRightSlots(s, s', w, root, root', z, changed);
    assert Rep(s, w, f.left, x) && Distinct(f.left);
    Frame(s, s', w, f.right, x, changed);
    Frame(s, s', w, f.left.left, y, changed);
    Reparent(s, s', w, f.left.right, y, x, changed);
    Rehole(s, s', w, root, root', z.path, x, y, changed);
    TurnRightLine(z);
  }

  lemma TurnedRightSlots(s: Pool, s': Pool, w: Which, root: nat, root': nat, z: Zipper, changed: set<nat>)
    requires Zip(s, w, root, z.path, z.tree) && z.tree.Fork? && z.tree.left.Fork?
    requires var x, y := z.tree.idx, z.tree.left.idx;
             && x < |s| && s[x].Used? && y < |s| && s[y].Used?
             && Turned(s, s', root, root', x, y, Root(z.tree.left.right), s[x].(left := s[y].right, parent := y),
                       s[y].(right := x, parent := s[x].parent))
    requires changed == {z.tree.idx, z.tree.left.idx, Root(z.tree.left.right), TopIdx(z.path)}
    ensures Except(s, s', changed) && Rehung(s, s', root, root', z.path, z.tree.left.idx)
    ensures LinksOnly(s, s', Span(z))
  {
    HeldDown(s, w, root, z, Span(z), InOrder(Whole(z)));
    Shape(s, w, root, z);
    Shape(s, w, root, DownLeft(z));
    hide Held, Zip, Rep, PRep, Distinct, PDistinct, Ids, PIds;
  }

  lemma TurnRightLine(z: Zipper)
    requires z.tree.Fork? && z.tree.left.Fork?
    ensures InOrder(Whole(z.(tree := TurnRight(z.tree)))) == InOrder(Whole(z))
    ensures Ids(TurnRight(z.tree)) == Ids(z.tree)
  {
    var f := z.tree;
    PlugInOrder(z.path, f);
    PlugInOrder(z.path, TurnRight(f));
    Regroup(InOrder(f.left.left), [f.left.idx], InOrder(f.left.right), [f.idx], InOrder(f.right));
  }

  // ----- recolouring -------------------------------------------------------------------------------

  /** SetColor on the focused node. */
  method PaintAt(b: Book, w: Which, x: nat, col: Color, ghost z: Zipper, ghost own: set<nat>, ghost line: seq<nat>)
    requires Held(b.nodes[..], w, b.RootOf(w), z, own, line) && z.tree.Fork? && x == z.tree.idx
    modifies b.nodes
    ensures Held(b.nodes[..], w, b.RootOf(w), z.(tree := z.tree.(color := col)), own, line)
    ensures LinksOnly(old(b.nodes[..]), b.nodes[..], own)
  {
    ghost var s, root := b.nodes[..], b.RootOf(w);
    Shape(s, w, root, z);
    hide Zip, Rep, PRep, Distinct, PDistinct, Ids, PIds;
    b.SetColor(w, x, col);
    assert b.nodes[..] == s[x := s[x].(color := col)];
    Recolored(s, b.nodes[..], w, root, z.path, z.tree, col);
    PaintedLine(z, col);
  }

  lemma PaintedLine(z: Zipper, col: Color)
    requires z.tree.Fork?
    ensures var z' := z.(tree := z.tree.(color := col));
            InOrder(Whole(z')) == InOrder(Whole(z)) && Span(z') == Span(z)
  {
    PlugInOrder(z.path, z.tree);
    PlugInOrder(z.path, z.tree.(color := col));
  }

  lemma LinksSame(s: Pool, own: set<nat>)
    ensures LinksOnly(s, s, own)
  {
  }

  lemma LinksTrans(s: Pool, s': Pool, s'': Pool, own: set<nat>)
    requires LinksOnly(s, s', own) && LinksOnly(s', s'', own)
    ensures LinksOnly(s, s'', own)
  {
  }
}
