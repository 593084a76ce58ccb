/** The rebalancing that follows the removal of a black node: the subtree in focus is one black
    level short, and the shortage climbs until it can be made good. */
module Rebalancing {
  import opened Nodes
  import opened Trees
  import opened IntentBook
  import opened Rotations

  ghost function Blackened(t: Tree): Tree {
    if t.Fork? then t.(color := Black) else t
  }

  /** The subtree in focus is one black level short of what its path asks for. If its root is red,
      painting that root black makes it good. */
  ghost predicate Deficient(zz: Zipper, h: int) {
    && PRB(zz.path, h + 1)
    && if Hue(zz.tree) == Red then RB(Blackened(zz.tree), h + 1) else RB(zz.tree, h)
  }

  /** What each round of the loop lowers. */
  ghost function Measure(zz: Zipper): nat {
    Steps(zz.path) + if Hue(zz.tree) == Black then 1 else 0
  }

  /** Index x is the focus, perhaps null, and p is above it. */
  ghost predicate Sees(b: Book, w: Which, x: nat, p: nat, zz: Zipper)
    reads b, b.nodes
  {
    && x == Root(zz.tree) && p == TopIdx(zz.path) && (x == 0 <==> zz.tree.Leaf?)
    && (x != 0 ==> b.Typed(w, x) && b.nodes[x].color == zz.tree.color)
    && (p != 0 ==> b.Typed(w, p))
    && (zz.path.Top? <==> b.RootOf(w) == x) && (p == 0 <==> zz.path.Top?)
  }

  lemma {:induction false} RootAbove(s: Pool, w: Which, root: nat, c: Path, h: nat)
    requires PRep(s, w, root, c, h) && !c.Top?
    ensures root != 0 && root in PIds(c)
  {
    if !c.up.Top? { RootAbove(s, w, root, c.up, c.idx); }
  }

  lemma LookAt(b: Book, w: Which, zz: Zipper, own: set<nat>, line: seq<nat>)
    requires Held(b.nodes[..], w, b.RootOf(w), zz, own, line)
    ensures Sees(b, w, Root(zz.tree), TopIdx(zz.path), zz)
  {
    if !zz.path.Top? { RootAbove(b.nodes[..], w, b.RootOf(w), zz.path, Root(zz.tree)); }
    if zz.tree.Fork? { Shape(b.nodes[..], w, b.RootOf(w), zz); }
  }

  lemma {:induction false} RBNat(t: Tree, h: int)
    requires RB(t, h)
    ensures h >= 0 && (h > 0 ==> t.Fork?)
  {
    if t.Fork? { RBNat(t.left, Below(t, h)); }
  }

  // ----- the focus is a left child -----------------------------------------------------------------

  /** The focus is black, and hangs on the left of its parent. */
  ghost predicate DeficientLeft(zz: Zipper, h: int) {
    Deficient(zz, h) && Hue(zz.tree) == Black && zz.path.Lefts?
  }

  lemma SiblingRight(zz: Zipper, h: int)
    requires DeficientLeft(zz, h)
    ensures zz.path.right.Fork? && RB(zz.path.right, h + 1)
  {
    RBNat(zz.tree, h);
    RBNat(zz.path.right, h + 1);
  }

  ghost function ToSiblingLeft(zz: Zipper): Zipper
    requires zz.path.Lefts?
  {
    DownRight(Up(zz))
  }

  lemma HeldAroundLeft(s: Pool, w: Which, root: nat, zz: Zipper, own: set<nat>, line: seq<nat>)
    requires Held(s, w, root, zz, own, line) && zz.path.Lefts?
    ensures Held(s, w, root, Up(zz), own, line) && Held(s, w, root, ToSiblingLeft(zz), own, line)
  {
    HeldUp(s, w, root, zz, own, line);
    HeldDown(s, w, root, Up(zz), own, line);
  }

  /** Case 1: a red sibling is rotated above the parent. */
  ghost function SwungLeft(zz: Zipper): Zipper
    requires zz.path.Lefts? && zz.path.right.Fork?
  {
    var c := zz.path;
    Zipper(Lefts(c.idx, Red, c.right.left, Lefts(c.right.idx, Black, c.right.right, c.up)), zz.tree)
  }

  lemma SwungLeftDeficient(zz: Zipper, h: int)
    requires DeficientLeft(zz, h) && Hue(zz.path.right) == Red
    ensures DeficientLeft(SwungLeft(zz), h) && Hue(SwungLeft(zz).path.right) == Black
  {
    assert PRB(zz.path.up, h + 2) && RB(zz.path.right, h + 1);
    assert PRB(SwungLeft(zz).path.up, h + 1);
  }

  method SwingLeft(b: Book, w: Which, s0: nat, p: nat, ghost zz: Zipper, ghost own: set<nat>, ghost line: seq<nat>)
    requires Held(b.nodes[..], w, b.RootOf(w), zz, own, line) && zz.path.Lefts? && zz.path.right.Fork?
    requires s0 == zz.path.right.idx && p == zz.path.idx
    modifies b.nodes, b`longRoot, b`shortRoot, b`seatRoot
    ensures Held(b.nodes[..], w, b.RootOf(w), SwungLeft(zz), own, line)
    ensures LinksOnly(old(b.nodes[..]), b.nodes[..], own) && b.OtherRoots(w)
  {
    hide Held, LinksOnly, Zip, InOrder, Ids, PIds;
    ghost var s, root, c := b.nodes[..], b.RootOf(w), zz.path;
    HeldAroundLeft(s, w, root, zz, own, line);
    PaintAt(b, w, s0, Black, ToSiblingLeft(zz), own, line);
    ghost var s1, z1 := b.nodes[..], Zipper(c.up, Fork(zz.tree, c.idx, c.color, c.right.(color := Black)));
    HeldUp(s1, w, root, DownRight(z1), own, line);
    PaintAt(b, w, p, Red, z1, own, line);
    ghost var s2, z2 := b.nodes[..], z1.(tree := z1.tree.(color := Red));
    TurnLeftAt(b, w, p, z2, own, line);
    ghost var z3 := z2.(tree := TurnLeft(z2.tree));
    HeldDown(b.nodes[..], w, b.RootOf(w), z3, own, line);
    HeldDown(b.nodes[..], w, b.RootOf(w), DownLeft(z3), own, line);
    LinksTrans(s, s1, s2, own);
    LinksTrans(s, s2, b.nodes[..], own);
  }

  /** Case 2: the sibling turns red, and the shortage moves up to the parent. */
  ghost function PaledLeft(zz: Zipper): Zipper
    requires zz.path.Lefts? && zz.path.right.Fork?
  {
    var c := zz.path;
    Zipper(c.up, Fork(zz.tree, c.idx, c.color, c.right.(color := Red)))
  }

  lemma PaledLeftDeficient(zz: Zipper, h: int)
    requires DeficientLeft(zz, h) && zz.path.right.Fork? && zz.path.right.color == Black
    requires Hue(zz.path.right.left) == Black && Hue(zz.path.right.right) == Black
    ensures Deficient(PaledLeft(zz), if zz.path.color == Red then h else h + 1)
    ensures Steps(PaledLeft(zz).path) < Steps(zz.path)
  {
    var c := zz.path;
    assert RB(c.right, h + 1);
    assert RB(c.right.(color := Red), h);
    if c.color == Red {
      assert RB(Fork(zz.tree, c.idx, Black, c.right.(color := Red)), h + 1);
    }
  }

  /** Case 3: the sibling's inner red child is rotated above it. */
  ghost function NudgedLeft(zz: Zipper): Zipper
    requires zz.path.Lefts? && zz.path.right.Fork? && zz.path.right.left.Fork?
  {
    var sib := zz.path.right;
    var inner := sib.left;
    zz.(path := zz.path.(right := Fork(inner.left, inner.idx, Black, Fork(inner.right, sib.idx, Red, sib.right))))
  }

  lemma NudgedLeftDeficient(zz: Zipper, h: int)
    requires DeficientLeft(zz, h) && zz.path.right.Fork? && zz.path.right.color == Black
    requires Hue(zz.path.right.left) == Red && Hue(zz.path.right.right) == Black
    ensures DeficientLeft(NudgedLeft(zz), h) && NudgedLeft(zz).path.right.Fork?
    ensures NudgedLeft(zz).path.right.color == Black
    ensures Hue(NudgedLeft(zz).path.right.right) == Red
  {
    var sib := zz.path.right;
    assert RB(sib, h + 1) && RB(sib.left, h);
    assert RB(Fork(sib.left.right, sib.idx, Red, sib.right), h);
  }

  method NudgeLeft(b: Book, w: Which, s0: nat, inner: nat, ghost zz: Zipper, ghost own: set<nat>, ghost line: seq<nat>)
    requires Held(b.nodes[..], w, b.RootOf(w), zz, own, line) && zz.path.Lefts? && zz.path.right.Fork?
    requires zz.path.right.left.Fork?
    requires s0 == zz.path.right.idx && inner == zz.path.right.left.idx
    modifies b.nodes, b`longRoot, b`shortRoot, b`seatRoot
    ensures Held(b.nodes[..], w, b.RootOf(w), NudgedLeft(zz), own, line)
    ensures LinksOnly(old(b.nodes[..]), b.nodes[..], own) && b.OtherRoots(w)
  {
    hide Held, LinksOnly, Zip, InOrder, Ids, PIds;
    ghost var s, root, zs := b.nodes[..], b.RootOf(w), ToSiblingLeft(zz);
    HeldAroundLeft(s, w, root, zz, own, line);
    HeldDown(s, w, root, zs, own, line);
    PaintAt(b, w, inner, Black, DownLeft(zs), own, line);
    ghost var s1, z1 := b.nodes[..], zs.(tree := zs.tree.(left := zs.tree.left.(color := Black)));
    HeldUp(s1, w, root, DownLeft(z1), own, line);
    PaintAt(b, w, s0, Red, z1, own, line);
    ghost var s2, z2 := b.nodes[..], z1.(tree := z1.tree.(color := Red));
    TurnRightAt(b, w, s0, z2, own, line);
    ghost var z3 := z2.(tree := TurnRight(z2.tree));
    HeldUp(b.nodes[..], w, b.RootOf(w), z3, own, line);
    HeldDown(b.nodes[..], w, b.RootOf(w), Up(z3), own, line);
    LinksTrans(s, s1, s2, own);
    LinksTrans(s, s2, b.nodes[..], own);
  }

  /** Case 4: the sibling takes the parent's place and colour, and the shortage is made good. */
  ghost function ClosedLeft(zz: Zipper): Zipper
    requires zz.path.Lefts? && zz.path.right.Fork? && zz.path.right.right.Fork?
  {
    var c := zz.path;
    Zipper(c.up, Fork(Fork(zz.tree, c.idx, Black, c.right.left), c.right.idx, c.color, c.right.right.(color := Black)))
  }

  lemma ClosedLeftBalanced(zz: Zipper, h: int)
    requires DeficientLeft(zz, h) && zz.path.right.Fork? && zz.path.right.color == Black
    requires Hue(zz.path.right.right) == Red
    ensures Balanced(Whole(ClosedLeft(zz)))
  {
    var c, z' := zz.path, ClosedLeft(zz);
    assert RB(c.right, h + 1) && RB(c.right.right, h) && RB(c.right.left, h);
    assert RB(z'.tree.left, h + 1) && RB(z'.tree.right, h + 1);
    PlugBalanced(z'.path, z'.tree, if c.color == Red then h + 1 else h + 2);
  }

  method CloseLeft(b: Book, w: Which, s0: nat, p: nat, ghost zz: Zipper, ghost own: set<nat>, ghost line: seq<nat>)
    requires Held(b.nodes[..], w, b.RootOf(w), zz, own, line) && zz.path.Lefts? && zz.path.right.Fork?
    requires zz.path.right.right.Fork?
    requires s0 == zz.path.right.idx && p == zz.path.idx
    modifies b.nodes, b`longRoot, b`shortRoot, b`seatRoot
    ensures Held(b.nodes[..], w, b.RootOf(w), ClosedLeft(zz), own, line)
    ensures LinksOnly(old(b.nodes[..]), b.nodes[..], own) && b.OtherRoots(w)
  {
    hide Held, LinksOnly, Zip, InOrder, Ids, PIds, RB, PRB, Plug, Rep, PRep, Distinct, PDistinct, Before, After;
    ghost var s, root, c, zs := b.nodes[..], b.RootOf(w), zz.path, ToSiblingLeft(zz);
    HeldAroundLeft(s, w, root, zz, own, line);
    ShapeHeld(s, w, root, Up(zz), own, line);
    var pColor := b.ColorOf(w, p);
    PaintAt(b, w, s0, pColor, zs, own, line);
    ghost var s1, z1 := b.nodes[..], zs.(tree := zs.tree.(color := c.color));
    HeldUp(s1, w, root, z1, own, line);
    PaintAt(b, w, p, Black, Up(z1), own, line);
    ghost var s2, z2 := b.nodes[..], Zipper(c.up, Fork(zz.tree, c.idx, Black, z1.tree));
    HeldDown(s2, w, root, z2, own, line);
    HeldDown(s2, w, root, DownRight(z2), own, line);
    ShapeHeld(s2, w, root, DownRight(z2), own, line);
    var outer := b.Right(w, s0);
    PaintAt(b, w, outer, Black, DownRight(DownRight(z2)), own, line);
    ghost var s3, z3 := b.nodes[..], z2.(tree := z2.tree.(right := z1.tree.(right := z1.tree.right.(color := Black))));
    HeldUp(s3, w, root, DownRight(DownRight(z3)), own, line);
    HeldUp(s3, w, root, DownRight(z3), own, line);
    TurnLeftAt(b, w, p, z3, own, line);
    LinksTrans(s, s1, s2, own);
    LinksTrans(s, s2, s3, own);
    LinksTrans(s, s3, b.nodes[..], own);
  }

  /** The parent p and the sibling it points to are readable. */
  lemma SiblingLeftShape(s: Pool, w: Which, root: nat, zz: Zipper, own: set<nat>, line: seq<nat>)
    requires Held(s, w, root, zz, own, line) && zz.path.Lefts? && zz.path.right.Fork?
    ensures Has(s, w, zz.path.idx) && zz.path.idx != 0 && s[zz.path.idx].right == zz.path.right.idx
    ensures NodeShape(s, w, zz.path.right)
  {
    HeldAroundLeft(s, w, root, zz, own, line);
    Shape(s, w, root, Up(zz));
    Shape(s, w, root, ToSiblingLeft(zz));
  }

  /** Case 2 at a black sibling. */
  method PaleLeft(b: Book, w: Which, s0: nat, ghost zz: Zipper, ghost own: set<nat>, ghost line: seq<nat>, ghost h: int)
    requires Held(b.nodes[..], w, b.RootOf(w), zz, own, line) && DeficientLeft(zz, h)
    requires zz.path.right.Fork? && zz.path.right.color == Black && s0 == zz.path.right.idx
    modifies b.nodes
    ensures Held(b.nodes[..], w, b.RootOf(w), PaledLeft(zz), own, line)
    ensures LinksOnly(old(b.nodes[..]), b.nodes[..], own)
  {
    hide Held, LinksOnly, Zip, InOrder, Ids, PIds, RB, PRB;
    HeldAroundLeft(b.nodes[..], w, b.RootOf(w), zz, own, line);
    PaintAt(b, w, s0, Red, ToSiblingLeft(zz), own, line);
    HeldUp(b.nodes[..], w, b.RootOf(w), DownRight(PaledLeft(zz)), own, line);
  }

  /** Cases 3 and 4 at a black sibling with a red child. */
  method MakeGoodLeft(b: Book, w: Which, s1: nat, p: nat, ghost start: Zipper, ghost own: set<nat>,
                      ghost line: seq<nat>, ghost h: int)
      returns (ghost t: Tree)
    requires Held(b.nodes[..], w, b.RootOf(w), start, own, line) && DeficientLeft(start, h) && p == start.path.idx
    requires start.path.right.Fork? && start.path.right.color == Black && s1 == start.path.right.idx
    requires Hue(start.path.right.left) == Red || Hue(start.path.right.right) == Red
    modifies b.nodes, b`longRoot, b`shortRoot, b`seatRoot
    ensures Held(b.nodes[..], w, b.RootOf(w), Zipper(Top, t), own, line) && Balanced(t)
    ensures LinksOnly(old(b.nodes[..]), b.nodes[..], own) && b.OtherRoots(w)
  {
    ghost var s, zz := b.nodes[..], start;
    var s0 := s1;
    SiblingLeftShape(s, w, b.RootOf(w), zz, own, line);
    hide Held, LinksOnly, Zip, InOrder, Ids, PIds, RB, PRB, DeficientLeft;
    LinksSame(s, own);
    if b.ColorOf(w, b.Right(w, s0)) == Black {
      var inner := b.Left(w, s0);
      NudgedLeftDeficient(zz, h);
      NudgeLeft(b, w, s0, inner, zz, own, line);
      zz := NudgedLeft(zz);
      SiblingLeftShape(b.nodes[..], w, b.RootOf(w), zz, own, line);
      s0 := b.Right(w, p);
    }
    ghost var s2 := b.nodes[..];
    ClosedLeftBalanced(zz, h);
    CloseLeft(b, w, s0, p, zz, own, line);
    LinksTrans(s, s2, b.nodes[..], own);
    t := Whole(ClosedLeft(zz));
    HeldTop(b.nodes[..], w, b.RootOf(w), ClosedLeft(zz), own, line);
  }

  /** A round, once the sibling s0 is black. `done` stands for the break. */
  method MendBlackLeft(b: Book, w: Which, x0: nat, p0: nat, s0: nat, ghost start: Zipper, ghost own: set<nat>,
                       ghost line: seq<nat>, ghost h0: int)
      returns (x: nat, p: nat, done: bool, ghost zz: Zipper, ghost h: int)
    requires Held(b.nodes[..], w, b.RootOf(w), start, own, line) && DeficientLeft(start, h0) && p0 == start.path.idx
    requires start.path.right.Fork? && start.path.right.color == Black && s0 == start.path.right.idx
    modifies b.nodes, b`longRoot, b`shortRoot, b`seatRoot
    ensures Held(b.nodes[..], w, b.RootOf(w), zz, own, line) && Deficient(zz, h)
    ensures x == Root(zz.tree) && (!done ==> p == TopIdx(zz.path))
    ensures done ==> zz.path.Top? && Hue(zz.tree) == Black
    ensures !done ==> zz == PaledLeft(start)
    ensures LinksOnly(old(b.nodes[..]), b.nodes[..], own) && b.OtherRoots(w)
  {
    SiblingLeftShape(b.nodes[..], w, b.RootOf(w), start, own, line);
    x, p, done := x0, p0, false;
    hide Held, LinksOnly, Zip, InOrder, Ids, PIds, RB, PRB;
    if b.ColorOf(w, b.Left(w, s0)) == Black && b.ColorOf(w, b.Right(w, s0)) == Black {
      PaledLeftDeficient(start, h0);
      PaleLeft(b, w, s0, start, own, line, h0);
      zz, h := PaledLeft(start), if start.path.color == Red then h0 else h0 + 1;
      Shape(b.nodes[..], w, b.RootOf(w), zz);
      x := p;
      p := b.Parent(w, x);
    } else {
      ghost var t := MakeGoodLeft(b, w, s0, p, start, own, line, h0);
      zz := Zipper(Top, t);
      h := BalancedDeficient(t);
      x := b.RootOf(w);
      done := true;
    }
  }

  /** One round of the loop. */
  method MendLeft(b: Book, w: Which, x0: nat, p0: nat, ghost start: Zipper, ghost own: set<nat>, ghost line: seq<nat>,
                  ghost h0: int)
      returns (x: nat, p: nat, done: bool, ghost zz: Zipper, ghost h: int)
    requires Held(b.nodes[..], w, b.RootOf(w), start, own, line) && DeficientLeft(start, h0)
    requires x0 == Root(start.tree) && p0 == start.path.idx
    modifies b.nodes, b`longRoot, b`shortRoot, b`seatRoot
    ensures Held(b.nodes[..], w, b.RootOf(w), zz, own, line) && Deficient(zz, h)
    ensures x == Root(zz.tree) && (!done ==> p == TopIdx(zz.path))
    ensures if done then zz.path.Top? && Hue(zz.tree) == Black else Measure(zz) < Measure(start)
    ensures LinksOnly(old(b.nodes[..]), b.nodes[..], own) && b.OtherRoots(w)
  {
    ghost var s := b.nodes[..];
    zz, h := start, h0;
    SiblingRight(zz, h);
    SiblingLeftShape(s, w, b.RootOf(w), zz, own, line);
    hide Held, LinksOnly, Zip, InOrder, Ids, PIds, RB, PRB;
    LinksSame(s, own);
    var s0 := b.Right(w, p0);
    if b.ColorOf(w, s0) == Red {
      SwungLeftDeficient(zz, h);
      SwingLeft(b, w, s0, p0, zz, own, line);
      zz := SwungLeft(zz);
      SiblingRight(zz, h);
      SiblingLeftShape(b.nodes[..], w, b.RootOf(w), zz, own, line);
      s0 := b.Right(w, p0);
    }
    ghost var s1 := b.nodes[..];
    x, p, done, zz, h := MendBlackLeft(b, w, x0, p0, s0, zz, own, line, h);
    LinksTrans(s, s1, b.nodes[..], own);
  }

  // ----- the focus is a right child -----------------------------------------------------------------

  /** The focus is black, and hangs on the right of its parent. */
  ghost predicate DeficientRight(zz: Zipper, h: int) {
    Deficient(zz, h) && Hue(zz.tree) == Black && zz.path.Rights?
  }

  lemma SiblingLeft(zz: Zipper, h: int)
    requires DeficientRight(zz, h)
    ensures zz.path.left.Fork? && RB(zz.path.left, h + 1)
  {
    RBNat(zz.tree, h);
    RBNat(zz.path.left, h + 1);
  }

  ghost function ToSiblingRight(zz: Zipper): Zipper
    requires zz.path.Rights?
  {
    DownLeft(Up(zz))
  }

  lemma HeldAroundRight(s: Pool, w: Which, root: nat, zz: Zipper, own: set<nat>, line: seq<nat>)
    requires Held(s, w, root, zz, own, line) && zz.path.Rights?
    ensures Held(s, w, root, Up(zz), own, line) && Held(s, w, root, ToSiblingRight(zz), own, line)
  {
    HeldUp(s, w, root, zz, own, line);
    HeldDown(s, w, root, Up(zz), own, line);
  }

  /** Case 1: a red sibling is rotated above the parent. */
  ghost function SwungRight(zz: Zipper): Zipper
    requires zz.path.Rights? && zz.path.left.Fork?
  {
    var c := zz.path;
    Zipper(Rights(c.left.right, c.idx, Red, Rights(c.left.left, c.left.idx, Black, c.up)), zz.tree)
  }

  lemma SwungRightDeficient(zz: Zipper, h: int)
    requires DeficientRight(zz, h) && Hue(zz.path.left) == Red
    ensures DeficientRight(SwungRight(zz), h) && Hue(SwungRight(zz).path.left) == Black
  {
    assert PRB(zz.path.up, h + 2) && RB(zz.path.left, h + 1);
    assert PRB(SwungRight(zz).path.up, h + 1);
  }

  method SwingRight(b: Book, w: Which, s0: nat, p: nat, ghost zz: Zipper, ghost own: set<nat>, ghost line: seq<nat>)
    requires Held(b.nodes[..], w, b.RootOf(w), zz, own, line) && zz.path.Rights? && zz.path.left.Fork?
    requires s0 == zz.path.left.idx && p == zz.path.idx
    modifies b.nodes, b`longRoot, b`shortRoot, b`seatRoot
    ensures Held(b.nodes[..], w, b.RootOf(w), SwungRight(zz), own, line)
    ensures LinksOnly(old(b.nodes[..]), b.nodes[..], own) && b.OtherRoots(w)
  {
    hide Held, LinksOnly, Zip, InOrder, Ids, PIds;
    ghost var s, root, c := b.nodes[..], b.RootOf(w), zz.path;
    HeldAroundRight(s, w, root, zz, own, line);
    PaintAt(b, w, s0, Black, ToSiblingRight(zz), own, line);
    ghost var s1, z1 := b.nodes[..], Zipper(c.up, Fork(c.left.(color := Black), c.idx, c.color, zz.tree));
    HeldUp(s1, w, root, DownLeft(z1), own, line);
    PaintAt(b, w, p, Red, z1, own, line);
    ghost var s2, z2 := b.nodes[..], z1.(tree := z1.tree.(color := Red));
    TurnRightAt(b, w, p, z2, own, line);
    ghost var z3 := z2.(tree := TurnRight(z2.tree));
    HeldDown(b.nodes[..], w, b.RootOf(w), z3, own, line);
    HeldDown(b.nodes[..], w, b.RootOf(w), DownRight(z3), own, line);
    LinksTrans(s, s1, s2, own);
    LinksTrans(s, s2, b.nodes[..], own);
  }

  /** Case 2: the sibling turns red, and the shortage moves up to the parent. */
  ghost function PaledRight(zz: Zipper): Zipper
    requires zz.path.Rights? && zz.path.left.Fork?
  {
    var c := zz.path;
    Zipper(c.up, Fork(c.left.(color := Red), c.idx, c.color, zz.tree))
  }

  lemma PaledRightDeficient(zz: Zipper, h: int)
    requires DeficientRight(zz, h) && zz.path.left.Fork? && zz.path.left.color == Black
    requires Hue(zz.path.left.right) == Black && Hue(zz.path.left.left) == Black
    ensures Deficient(PaledRight(zz), if zz.path.color == Red then h else h + 1)
    ensures Steps(PaledRight(zz).path) < Steps(zz.path)
  {
    var c := zz.path;
    assert RB(c.left, h + 1);
    assert RB(c.left.(color := Red), h);
    if c.color == Red {
      assert RB(Fork(c.left.(color := Red), c.idx, Black, zz.tree), h + 1);
    }
  }

  /** Case 3: the sibling's inner red child is rotated above it. */
  ghost function NudgedRight(zz: Zipper): Zipper
    requires zz.path.Rights? && zz.path.left.Fork? && zz.path.left.right.Fork?
  {
    var sib := zz.path.left;
    var inner := sib.right;
    zz.(path := zz.path.(left := Fork(Fork(sib.left, sib.idx, Red, inner.left), inner.idx, Black, inner.right)))
  }

  lemma NudgedRightDeficient(zz: Zipper, h: int)
    requires DeficientRight(zz, h) && zz.path.left.Fork? && zz.path.left.color == Black
    requires Hue(zz.path.left.right) == Red && Hue(zz.path.left.left) == Black
    ensures DeficientRight(NudgedRight(zz), h) && NudgedRight(zz).path.left.Fork?
    ensures NudgedRight(zz).path.left.color == Black
    ensures Hue(NudgedRight(zz).path.left.left) == Red
  {
    var sib := zz.path.left;
    assert RB(sib, h + 1) && RB(sib.right, h);
    assert RB(Fork(sib.left, sib.idx, Red, sib.right.left), h);
  }

  method NudgeRight(b: Book, w: Which, s0: nat, inner: nat, ghost zz: Zipper, ghost own: set<nat>, ghost line: seq<nat>)
    requires Held(b.nodes[..], w, b.RootOf(w), zz, own, line) && zz.path.Rights? && zz.path.left.Fork?
    requires zz.path.left.right.Fork?
    requires s0 == zz.path.left.idx && inner == zz.path.left.right.idx
    modifies b.nodes, b`longRoot, b`shortRoot, b`seatRoot
    ensures Held(b.nodes[..], w, b.RootOf(w), NudgedRight(zz), own, line)
    ensures LinksOnly(old(b.nodes[..]), b.nodes[..], own) && b.OtherRoots(w)
  {
    hide Held, LinksOnly, Zip, InOrder, Ids, PIds;
    ghost var s, root, zs := b.nodes[..], b.RootOf(w), ToSiblingRight(zz);
    HeldAroundRight(s, w, root, zz, own, line);
    HeldDown(s, w, root, zs, own, line);
    PaintAt(b, w, inner, Black, DownRight(zs), own, line);
    ghost var s1, z1 := b.nodes[..], zs.(tree := zs.tree.(right := zs.tree.right.(color := Black)));
    HeldUp(s1, w, root, DownRight(z1), own, line);
    PaintAt(b, w, s0, Red, z1, own, line);
    ghost var s2, z2 := b.nodes[..], z1.(tree := z1.tree.(color := Red));
    TurnLeftAt(b, w, s0, z2, own, line);
    ghost var z3 := z2.(tree := TurnLeft(z2.tree));
    HeldUp(b.nodes[..], w, b.RootOf(w), z3, own, line);
    HeldDown(b.nodes[..], w, b.RootOf(w), Up(z3), own, line);
    LinksTrans(s, s1, s2, own);
    LinksTrans(s, s2, b.nodes[..], own);
  }

  /** Case 4: the sibling takes the parent's place and colour, and the shortage is made good. */
  ghost function ClosedRight(zz: Zipper): Zipper
    requires zz.path.Rights? && zz.path.left.Fork? && zz.path.left.left.Fork?
  {
    var c := zz.path;
    Zipper(c.up, Fork(c.left.left.(color := Black), c.left.idx, c.color, Fork(c.left.right, c.idx, Black, zz.tree)))
  }

  lemma ClosedRightBalanced(zz: Zipper, h: int)
    requires DeficientRight(zz, h) && zz.path.left.Fork? && zz.path.left.color == Black && Hue(zz.path.left.left) == Red
    ensures Balanced(Whole(ClosedRight(zz)))
  {
    var c, z' := zz.path, ClosedRight(zz);
    assert RB(c.left, h + 1) && RB(c.left.left, h) && RB(c.left.right, h);
    assert RB(z'.tree.right, h + 1) && RB(z'.tree.left, h + 1);
    PlugBalanced(z'.path, z'.tree, if c.color == Red then h + 1 else h + 2);
  }

  method CloseRight(b: Book, w: Which, s0: nat, p: nat, ghost zz: Zipper, ghost own: set<nat>, ghost line: seq<nat>)
    requires Held(b.nodes[..], w, b.RootOf(w), zz, own, line) && zz.path.Rights? && zz.path.left.Fork?
    requires zz.path.left.left.Fork?
    requires s0 == zz.path.left.idx && p == zz.path.idx
    modifies b.nodes, b`longRoot, b`shortRoot, b`seatRoot
    ensures Held(b.nodes[..], w, b.RootOf(w), ClosedRight(zz), own, line)
    ensures LinksOnly(old(b.nodes[..]), b.nodes[..], own) && b.OtherRoots(w)
  {
    hide Held, LinksOnly, Zip, InOrder, Ids, PIds, RB, PRB, Plug, Rep, PRep, Distinct, PDistinct, Before, After;
    ghost var s, root, c, zs := b.nodes[..], b.RootOf(w), zz.path, ToSiblingRight(zz);
    HeldAroundRight(s, w, root, zz, own, line);
    ShapeHeld(s, w, root, Up(zz), own, line);
    var pColor := b.ColorOf(w, p);
    PaintAt(b, w, s0, pColor, zs, own, line);
    ghost var s1, z1 := b.nodes[..], zs.(tree := zs.tree.(color := c.color));
    HeldUp(s1, w, root, z1, own, line);
    PaintAt(b, w, p, Black, Up(z1), own, line);
    ghost var s2, z2 := b.nodes[..], Zipper(c.up, Fork(z1.tree, c.idx, Black, zz.tree));
    HeldDown(s2, w, root, z2, own, line);
    HeldDown(s2, w, root, DownLeft(z2), own, line);
    ShapeHeld(s2, w, root, DownLeft(z2), own, line);
    var outer := b.Left(w, s0);
    PaintAt(b, w, outer, Black, DownLeft(DownLeft(z2)), own, line);
    ghost var s3, z3 := b.nodes[..], z2.(tree := z2.tree.(left := z1.tree.(left := z1.tree.left.(color := Black))));
    HeldUp(s3, w, root, DownLeft(DownLeft(z3)), own, line);
    HeldUp(s3, w, root, DownLeft(z3), own, line);
    TurnRightAt(b, w, p, z3, own, line);
    LinksTrans(s, s1, s2, own);
    LinksTrans(s, s2, s3, own);
    LinksTrans(s, s3, b.nodes[..], own);
  }

  /** The parent p and the sibling it points to are readable. */
  lemma SiblingRightShape(s: Pool, w: Which, root: nat, zz: Zipper, own: set<nat>, line: seq<nat>)
    requires Held(s, w, root, zz, own, line) && zz.path.Rights? && zz.path.left.Fork?
    ensures Has(s, w, zz.path.idx) && zz.path.idx != 0 && s[zz.path.idx].left == zz.path.left.idx
    ensures NodeShape(s, w, zz.path.left)
  {
    HeldAroundRight(s, w, root, zz, own, line);
    Shape(s, w, root, Up(zz));
    Shape(s, w, root, ToSiblingRight(zz));
  }

  /** Case 2 at a black sibling. */
  method PaleRight(b: Book, w: Which, s0: nat, ghost zz: Zipper, ghost own: set<nat>, ghost line: seq<nat>,
                   ghost h: int)
    requires Held(b.nodes[..], w, b.RootOf(w), zz, own, line) && DeficientRight(zz, h)
    requires zz.path.left.Fork? && zz.path.left.color == Black && s0 == zz.path.left.idx
    modifies b.nodes
    ensures Held(b.nodes[..], w, b.RootOf(w), PaledRight(zz), own, line)
    ensures LinksOnly(old(b.nodes[..]), b.nodes[..], own)
  {
    hide Held, LinksOnly, Zip, InOrder, Ids, PIds, RB, PRB;
    HeldAroundRight(b.nodes[..], w, b.RootOf(w), zz, own, line);
    PaintAt(b, w, s0, Red, ToSiblingRight(zz), own, line);
    HeldUp(b.nodes[..], w, b.RootOf(w), DownLeft(PaledRight(zz)), own, line);
  }

  /** Cases 3 and 4 at a black sibling with a red child. */
  method MakeGoodRight(b: Book, w: Which, s1: nat, p: nat, ghost start: Zipper, ghost own: set<nat>,
                       ghost line: seq<nat>, ghost h: int)
      returns (ghost t: Tree)
    requires Held(b.nodes[..], w, b.RootOf(w), start, own, line) && DeficientRight(start, h) && p == start.path.idx
    requires start.path.left.Fork? && start.path.left.color == Black && s1 == start.path.left.idx
    requires Hue(start.path.left.right) == Red || Hue(start.path.left.left) == Red
    modifies b.nodes, b`longRoot, b`shortRoot, b`seatRoot
    ensures Held(b.nodes[..], w, b.RootOf(w), Zipper(Top, t), own, line) && Balanced(t)
    ensures LinksOnly(old(b.nodes[..]), b.nodes[..], own) && b.OtherRoots(w)
  {
    ghost var s, zz := b.nodes[..], start;
    var s0 := s1;
    SiblingRightShape(s, w, b.RootOf(w), zz, own, line);
    hide Held, LinksOnly, Zip, InOrder, Ids, PIds, RB, PRB, DeficientRight;
    LinksSame(s, own);
    if b.ColorOf(w, b.Left(w, s0)) == Black {
      var inner := b.Right(w, s0);
      NudgedRightDeficient(zz, h);
      NudgeRight(b, w, s0, inner, zz, own, line);
      zz := NudgedRight(zz);
      SiblingRightShape(b.nodes[..], w, b.RootOf(w), zz, own, line);
      s0 := b.Left(w, p);
    }
    ghost var s2 := b.nodes[..];
    ClosedRightBalanced(zz, h);
    CloseRight(b, w, s0, p, zz, own, line);
    LinksTrans(s, s2, b.nodes[..], own);
    t := Whole(ClosedRight(zz));
    HeldTop(b.nodes[..], w, b.RootOf(w), ClosedRight(zz), own, line);
  }

  /** A round, once the sibling s0 is black. `done` stands for the break. */
  method MendBlackRight(b: Book, w: Which, x0: nat, p0: nat, s0: nat, ghost start: Zipper, ghost own: set<nat>,
                        ghost line: seq<nat>, ghost h0: int)
      returns (x: nat, p: nat, done: bool, ghost zz: Zipper, ghost h: int)
    requires Held(b.nodes[..], w, b.RootOf(w), start, own, line) && DeficientRight(start, h0) && p0 == start.path.idx
    requires start.path.left.Fork? && start.path.left.color == Black && s0 == start.path.left.idx
    modifies b.nodes, b`longRoot, b`shortRoot, b`seatRoot
    ensures Held(b.nodes[..], w, b.RootOf(w), zz, own, line) && Deficient(zz, h)
    ensures x == Root(zz.tree) && (!done ==> p == TopIdx(zz.path))
    ensures done ==> zz.path.Top? && Hue(zz.tree) == Black
    ensures !done ==> zz == PaledRight(start)
    ensures LinksOnly(old(b.nodes[..]), b.nodes[..], own) && b.OtherRoots(w)
  {
    SiblingRightShape(b.nodes[..], w, b.RootOf(w), start, own, line);
    x, p, done := x0, p0, false;
    hide Held, LinksOnly, Zip, InOrder, Ids, PIds, RB, PRB;
    if b.ColorOf(w, b.Right(w, s0)) == Black && b.ColorOf(w, b.Left(w, s0)) == Black {
      PaledRightDeficient(start, h0);
      PaleRight(b, w, s0, start, own, line, h0);
      zz, h := PaledRight(start), if start.path.color == Red then h0 else h0 + 1;
      Shape(b.nodes[..], w, b.RootOf(w), zz);
      x := p;
      p := b.Parent(w, x);
    } else {
      ghost var t := MakeGoodRight(b, w, s0, p, start, own, line, h0);
      zz := Zipper(Top, t);
      h := BalancedDeficient(t);
      x := b.RootOf(w);
      done := true;
    }
  }

  /** One round of the loop. */
  method MendRight(b: Book, w: Which, x0: nat, p0: nat, ghost start: Zipper, ghost own: set<nat>, ghost line: seq<nat>,
                   ghost h0: int)
      returns (x: nat, p: nat, done: bool, ghost zz: Zipper, ghost h: int)
    requires Held(b.nodes[..], w, b.RootOf(w), start, own, line) && DeficientRight(start, h0)
    requires x0 == Root(start.tree) && p0 == start.path.idx
    modifies b.nodes, b`longRoot, b`shortRoot, b`seatRoot
    ensures Held(b.nodes[..], w, b.RootOf(w), zz, own, line) && Deficient(zz, h)
    ensures x == Root(zz.tree) && (!done ==> p == TopIdx(zz.path))
    ensures if done then zz.path.Top? && Hue(zz.tree) == Black else Measure(zz) < Measure(start)
    ensures LinksOnly(old(b.nodes[..]), b.nodes[..], own) && b.OtherRoots(w)
  {
    ghost var s := b.nodes[..];
    zz, h := start, h0;
    SiblingLeft(zz, h);
    SiblingRightShape(s, w, b.RootOf(w), zz, own, line);
    hide Held, LinksOnly, Zip, InOrder, Ids, PIds, RB, PRB;
    LinksSame(s, own);
    var s0 := b.Left(w, p0);
    if b.ColorOf(w, s0) == Red {
      SwungRightDeficient(zz, h);
      SwingRight(b, w, s0, p0, zz, own, line);
      zz := SwungRight(zz);
      SiblingLeft(zz, h);
      SiblingRightShape(b.nodes[..], w, b.RootOf(w), zz, own, line);
      s0 := b.Left(w, p0);
    }
    ghost var s1 := b.nodes[..];
    x, p, done, zz, h := MendBlackRight(b, w, x0, p0, s0, zz, own, line, h);
    LinksTrans(s, s1, b.nodes[..], own);
  }

  lemma BalancedDeficient(t: Tree) returns (h: int)
    requires Balanced(t)
    ensures Deficient(Zipper(Top, t), h)
  {
    h :| RB(t, h);
  }

  lemma HeldTop(s: Pool, w: Which, root: nat, zz: Zipper, own: set<nat>, line: seq<nat>)
    requires Held(s, w, root, zz, own, line)
    ensures Held(s, w, root, Zipper(Top, Whole(zz)), own, line) && root == Root(Whole(zz))
  {
    ZipTop(s, w, root, zz.path, zz.tree);
    PlugIds(zz.path, zz.tree);
  }

  /** The body of the loop. */
  method Mend(b: Book, w: Which, x0: nat, p0: nat, ghost start: Zipper, ghost own: set<nat>, ghost line: seq<nat>,
              ghost h0: int)
      returns (x: nat, p: nat, done: bool, ghost zz: Zipper, ghost h: int)
    requires Held(b.nodes[..], w, b.RootOf(w), start, own, line) && Deficient(start, h0)
    requires Hue(start.tree) == Black && !start.path.Top? && x0 == Root(start.tree) && p0 == start.path.idx
    modifies b.nodes, b`longRoot, b`shortRoot, b`seatRoot
    ensures Held(b.nodes[..], w, b.RootOf(w), zz, own, line) && Deficient(zz, h)
    ensures if done then zz.path.Top? && x == Root(zz.tree) && b.RootOf(w) == x && (x != 0 ==> b.Typed(w, x))
      && (x == 0 <==> zz.tree.Leaf?)
            else Measure(zz) < Measure(start) && Sees(b, w, x, p, zz)
    ensures LinksOnly(old(b.nodes[..]), b.nodes[..], own) && b.OtherRoots(w)
  {
    ghost var s, root := b.nodes[..], b.RootOf(w);
    HeldUp(s, w, root, start, own, line);
    Shape(s, w, root, Up(start));
    OtherSibling(start, h0);
    hide Held, LinksOnly, Zip, InOrder, Ids, PIds, RB, PRB, Deficient;
    if x0 == b.Left(w, p0) {
      x, p, done, zz, h := MendLeft(b, w, x0, p0, start, own, line, h0);
    } else {
      x, p, done, zz, h := MendRight(b, w, x0, p0, start, own, line, h0);
    }
    LookAt(b, w, zz, own, line);
  }

  /** A black focus short of a level has a sibling, so it is the left child just when the parent's
      left link says so, even when it is null. */
  lemma OtherSibling(zz: Zipper, h: int)
    requires Deficient(zz, h) && Hue(zz.tree) == Black && !zz.path.Top?
    ensures zz.path.Lefts? ==> DeficientLeft(zz, h)
    ensures zz.path.Rights? ==> DeficientRight(zz, h) && zz.path.left.Fork?
  {
    if zz.path.Rights? { SiblingLeft(zz, h); }
  }

  lemma MadeGood(zz: Zipper, h: int)
    requires Deficient(zz, h) && (zz.path.Top? || Hue(zz.tree) == Red)
    ensures Balanced(Whole(zz.(tree := Blackened(zz.tree))))
  {
    if Hue(zz.tree) == Red {
      PlugBalanced(zz.path, Blackened(zz.tree), h + 1);
    } else {
      PlugBalanced(zz.path, zz.tree, h);
    }
  }

  /** Makes good the missing black level at x. */
  method RemoveFixup(b: Book, w: Which, x0: nat, p0: nat, ghost start: Zipper, ghost own: set<nat>,
                     ghost line: seq<nat>, ghost h0: int)
      returns (ghost t: Tree)
    requires Held(b.nodes[..], w, b.RootOf(w), start, own, line) && Deficient(start, h0)
    requires x0 == Root(start.tree) && p0 == TopIdx(start.path)
    modifies b.nodes, b`longRoot, b`shortRoot, b`seatRoot
    ensures Held(b.nodes[..], w, b.RootOf(w), Zipper(Top, t), own, line) && Balanced(t)
    ensures LinksOnly(old(b.nodes[..]), b.nodes[..], own) && b.OtherRoots(w)
  {
    hide Held, LinksOnly, Zip, InOrder, Ids, PIds, RB, PRB, Deficient;
    ghost var s := b.nodes[..];
    var x, p := x0, p0;
    ghost var zz, h := start, h0;
    LookAt(b, w, zz, own, line);
    LinksSame(s, own);
    while x != b.RootOf(w) && b.ColorOf(w, x) == Black
      invariant Held(b.nodes[..], w, b.RootOf(w), zz, own, line) && Deficient(zz, h) && Sees(b, w, x, p, zz)
      invariant LinksOnly(s, b.nodes[..], own) && b.OtherRoots(w)
      decreases Measure(zz)
    {
      ghost var s1 := b.nodes[..];
      var done;
      x, p, done, zz, h := Mend(b, w, x, p, zz, own, line, h);
      LinksTrans(s, s1, b.nodes[..], own);
      if done { break; }
    }
    ghost var s2 := b.nodes[..];
    assert zz.path.Top? || Hue(zz.tree) == Red;
    ghost var t0 := zz.tree;
    if x != 0 {
      PaintAt(b, w, x, Black, zz, own, line);
      zz := zz.(tree := zz.tree.(color := Black));
    }
    LinksTrans(s, s2, b.nodes[..], own);
    MadeGood(zz.(tree := t0), h);
    HeldTop(b.nodes[..], w, b.RootOf(w), zz, own, line);
    t := Whole(zz);
  }
}
