/** Insertion into a tree of the pool, with the rebalancing that climbs from the new node. */
module Insertion {
  import opened Nodes
  import opened Trees
  import opened IntentBook
  import opened Rotations

  /** Index z is the focus of zz, and the slot above it is readable. */
  ghost predicate Seen(b: Book, w: Which, z: nat, zz: Zipper)
    reads b.nodes
  {
    && zz.tree.Fork? && z == zz.tree.idx && b.Typed(w, z) && b.nodes[z].parent == TopIdx(zz.path)
    && (!zz.path.Top? ==> 0 < zz.path.idx && b.Typed(w, zz.path.idx) && b.nodes[zz.path.idx].color == zz.path.color)
  }

  lemma Look(b: Book, w: Which, zz: Zipper, own: set<nat>, line: seq<nat>)
    requires Held(b.nodes[..], w, b.RootOf(w), zz, own, line) && zz.tree.Fork?
    ensures Seen(b, w, zz.tree.idx, zz)
  {
    Shape(b.nodes[..], w, b.RootOf(w), zz);
  }

  /** The focus is red, and the only breach of the rules there may be is that its parent is red too. */
  ghost predicate RedAt(zz: Zipper, h: int) {
    zz.tree.Fork? && zz.tree.color == Red && RB(zz.tree, h) && PRB(zz.path, h)
  }

  /** z's parent is red and a left child; then so coloured, the grandparent is black. */
  ghost predicate UnderLeft(zz: Zipper) { TopRed(zz.path) && zz.path.up.Lefts? }

  ghost predicate UnderRight(zz: Zipper) { TopRed(zz.path) && zz.path.up.Rights? }

  ghost function Painted(z: Zipper, col: Color): Zipper
    requires z.tree.Fork?
  {
    z.(tree := z.tree.(color := col))
  }

  // ----- z's parent is a left child ------------------------------------------------------------------

  /** Parent and uncle turned black, grandparent red: the breach has moved two levels up. */
  ghost function LiftedLeft(zz: Zipper): Zipper
    requires UnderLeft(zz) && zz.path.up.right.Fork?
  {
    var pz := Painted(Up(zz), Black);
    Painted(Up(Painted(DownRight(Up(pz)), Black)), Red)
  }

  lemma LiftedLeftRed(zz: Zipper, h: int)
    requires RedAt(zz, h) && UnderLeft(zz) && Hue(zz.path.up.right) == Red
    ensures RedAt(LiftedLeft(zz), h + 1) && Steps(LiftedLeft(zz).path) < Steps(zz.path)
  {
    assert Up(zz).tree.Fork?;
    var u, p := zz.path.up.right, Up(zz).tree.(color := Black);
    assert PRB(zz.path.up, h) && RB(u, h) && PRB(zz.path.up.up, h + 1);
    assert RB(u.(color := Black), h + 1) && RB(p, h + 1);
    assert LiftedLeft(zz) == Zipper(zz.path.up.up, Fork(p, zz.path.up.idx, Red, u.(color := Black)));
  }

  method LiftLeft(b: Book, w: Which, p: nat, y: nat, gp: nat, ghost zz: Zipper, ghost own: set<nat>,
                  ghost line: seq<nat>)
    requires Held(b.nodes[..], w, b.RootOf(w), zz, own, line) && UnderLeft(zz) && zz.path.up.right.Fork?
    requires p == zz.path.idx && gp == zz.path.up.idx && y == zz.path.up.right.idx
    modifies b.nodes
    ensures Held(b.nodes[..], w, b.RootOf(w), LiftedLeft(zz), own, line)
    ensures LinksOnly(old(b.nodes[..]), b.nodes[..], own)
  {
    hide Held, Zip, RB, PRB, LinksOnly;
    ghost var s, root := b.nodes[..], b.RootOf(w);
    HeldUp(s, w, root, zz, own, line);
    PaintAt(b, w, p, Black, Up(zz), own, line);
    ghost var s1, pz := b.nodes[..], Painted(Up(zz), Black);
    HeldUp(s1, w, root, pz, own, line);
    HeldDown(s1, w, root, Up(pz), own, line);
    PaintAt(b, w, y, Black, DownRight(Up(pz)), own, line);
    ghost var s2, yz := b.nodes[..], Painted(DownRight(Up(pz)), Black);
    HeldUp(s2, w, root, yz, own, line);
    PaintAt(b, w, gp, Red, Up(yz), own, line);
    LinksTrans(s, s1, s2, own);
    LinksTrans(s, s2, b.nodes[..], own);
  }

  /** z, a right child, rotated above its red parent, which becomes the focus. */
  ghost function BentLeft(zz: Zipper): Zipper
    requires UnderLeft(zz) && zz.path.Rights? && zz.tree.Fork?
  {
    DownLeft(Up(zz).(tree := TurnLeft(Up(zz).tree)))
  }

  /** Parent black and rotated above the red grandparent: the breach is gone. */
  ghost function SettledLeft(zz: Zipper): Zipper
    requires UnderLeft(zz) && zz.path.Lefts? && zz.tree.Fork?
  {
    var gz := Painted(Up(Painted(Up(zz), Black)), Red);
    DownLeft(gz.(tree := TurnRight(gz.tree)))
  }

  lemma BentLeftRed(zz: Zipper, h: int)
    requires RedAt(zz, h) && UnderLeft(zz) && zz.path.Rights?
    ensures RedAt(BentLeft(zz), h) && UnderLeft(BentLeft(zz)) && BentLeft(zz).path.Lefts?
    ensures BentLeft(zz).path.up == zz.path.up && Steps(BentLeft(zz).path) == Steps(zz.path)
  {
  }

  lemma SettledLeftRed(zz: Zipper, h: int)
    requires RedAt(zz, h) && UnderLeft(zz) && zz.path.Lefts? && Hue(zz.path.up.right) == Black
    ensures RedAt(SettledLeft(zz), h) && Steps(SettledLeft(zz).path) < Steps(zz.path)
    ensures SettledLeft(zz).tree == zz.tree
  {
    var p, g := zz.path, zz.path.up;
    assert PRB(g, h) && RB(g.right, h) && PRB(g.up, h + 1);
    var lower := Fork(p.right, g.idx, Red, g.right);
    assert RB(lower, h);
    assert SettledLeft(zz).path == Lefts(p.idx, Black, lower, g.up);
  }

  method BendLeft(b: Book, w: Which, p: nat, ghost zz: Zipper, ghost own: set<nat>, ghost line: seq<nat>)
    requires Held(b.nodes[..], w, b.RootOf(w), zz, own, line) && UnderLeft(zz) && zz.path.Rights? && zz.tree.Fork?
    requires p == zz.path.idx
    modifies b.nodes, b`longRoot, b`shortRoot, b`seatRoot
    ensures Held(b.nodes[..], w, b.RootOf(w), BentLeft(zz), own, line)
    ensures LinksOnly(old(b.nodes[..]), b.nodes[..], own) && b.OtherRoots(w)
  {
    HeldUp(b.nodes[..], w, b.RootOf(w), zz, own, line);
    hide Held, Zip, LinksOnly;
    TurnLeftAt(b, w, p, Up(zz), own, line);
    HeldDown(b.nodes[..], w, b.RootOf(w), Up(zz).(tree := TurnLeft(Up(zz).tree)), own, line);
  }

  method SettleLeft(b: Book, w: Which, z: nat, ghost zz: Zipper, ghost own: set<nat>, ghost line: seq<nat>)
    requires Held(b.nodes[..], w, b.RootOf(w), zz, own, line) && UnderLeft(zz) && zz.path.Lefts?
    requires zz.tree.Fork? && z == zz.tree.idx
    modifies b.nodes, b`longRoot, b`shortRoot, b`seatRoot
    ensures Held(b.nodes[..], w, b.RootOf(w), SettledLeft(zz), own, line)
    ensures LinksOnly(old(b.nodes[..]), b.nodes[..], own) && b.OtherRoots(w)
  {
    ghost var s, root := b.nodes[..], b.RootOf(w);
    Look(b, w, zz, own, line);
    HeldUp(s, w, root, zz, own, line);
    Look(b, w, Up(zz), own, line);
    hide Held, Zip, RB, PRB, LinksOnly;
    var p := b.Parent(w, z);
    var gp := b.Parent(w, p);
    PaintAt(b, w, p, Black, Up(zz), own, line);
    ghost var s1, pz := b.nodes[..], Painted(Up(zz), Black);
    HeldUp(s1, w, root, pz, own, line);
    PaintAt(b, w, gp, Red, Up(pz), own, line);
    ghost var s2, gz := b.nodes[..], Painted(Up(pz), Red);
    TurnRightAt(b, w, gp, gz, own, line);
    HeldDown(b.nodes[..], w, b.RootOf(w), gz.(tree := TurnRight(gz.tree)), own, line);
    LinksTrans(s, s1, s2, own);
    LinksTrans(s, s2, b.nodes[..], own);
  }

  /** One round of the loop. */
  method FixLeft(b: Book, w: Which, z0: nat, p: nat, gp: nat, ghost start: Zipper, ghost own: set<nat>,
                 ghost line: seq<nat>, ghost h0: int)
      returns (z: nat, ghost zz: Zipper, ghost h: int)
    requires Held(b.nodes[..], w, b.RootOf(w), start, own, line) && RedAt(start, h0) && UnderLeft(start)
    requires z0 == start.tree.idx && p == start.path.idx && gp == start.path.up.idx
    modifies b.nodes, b`longRoot, b`shortRoot, b`seatRoot
    ensures Held(b.nodes[..], w, b.RootOf(w), zz, own, line) && RedAt(zz, h) && z == zz.tree.idx
    ensures Steps(zz.path) < Steps(start.path)
    ensures LinksOnly(old(b.nodes[..]), b.nodes[..], own) && b.OtherRoots(w)
  {
    hide Held, Zip, RB, PRB, LinksOnly, Ids, PIds, InOrder, Plug, Rep, PRep, Before, After;
    ghost var s, root := b.nodes[..], b.RootOf(w);
    z, zz, h := z0, start, h0;
    HeldUp(s, w, root, zz, own, line);
    HeldUp(s, w, root, Up(zz), own, line);
    ShapeHeld(s, w, root, Up(zz), own, line);
    ShapeHeld(s, w, root, Up(Up(zz)), own, line);
    var y := b.Right(w, gp);
    if y != 0 && b.ColorOf(w, y) == Red {
      LiftLeft(b, w, p, y, gp, zz, own, line);
      LiftedLeftRed(zz, h);
      z, zz, h := gp, LiftedLeft(zz), h + 1;
    } else {
      if z == b.Right(w, p) {
        BentLeftRed(zz, h);
        z := p;
        BendLeft(b, w, z, zz, own, line);
        zz := BentLeft(zz);
      }
      ghost var s1 := b.nodes[..];
      SettledLeftRed(zz, h);
      SettleLeft(b, w, z, zz, own, line);
      LinksSame(s, own);
      LinksTrans(s, s1, b.nodes[..], own);
      zz := SettledLeft(zz);
    }
  }

  // ----- z's parent is a right child ------------------------------------------------------------------

  /** Parent and uncle turned black, grandparent red: the breach has moved two levels up. */
  ghost function LiftedRight(zz: Zipper): Zipper
    requires UnderRight(zz) && zz.path.up.left.Fork?
  {
    var pz := Painted(Up(zz), Black);
    Painted(Up(Painted(DownLeft(Up(pz)), Black)), Red)
  }

  lemma LiftedRightRed(zz: Zipper, h: int)
    requires RedAt(zz, h) && UnderRight(zz) && Hue(zz.path.up.left) == Red
    ensures RedAt(LiftedRight(zz), h + 1) && Steps(LiftedRight(zz).path) < Steps(zz.path)
  {
    assert Up(zz).tree.Fork?;
    var u, p := zz.path.up.left, Up(zz).tree.(color := Black);
    assert PRB(zz.path.up, h) && RB(u, h) && PRB(zz.path.up.up, h + 1);
    assert RB(u.(color := Black), h + 1) && RB(p, h + 1);
    assert LiftedRight(zz) == Zipper(zz.path.up.up, Fork(u.(color := Black), zz.path.up.idx, Red, p));
  }

  method LiftRight(b: Book, w: Which, p: nat, y: nat, gp: nat, ghost zz: Zipper, ghost own: set<nat>,
                   ghost line: seq<nat>)
    requires Held(b.nodes[..], w, b.RootOf(w), zz, own, line) && UnderRight(zz) && zz.path.up.left.Fork?
    requires p == zz.path.idx && gp == zz.path.up.idx && y == zz.path.up.left.idx
    modifies b.nodes
    ensures Held(b.nodes[..], w, b.RootOf(w), LiftedRight(zz), own, line)
    ensures LinksOnly(old(b.nodes[..]), b.nodes[..], own)
  {
    hide Held, Zip, RB, PRB, LinksOnly;
    ghost var s, root := b.nodes[..], b.RootOf(w);
    HeldUp(s, w, root, zz, own, line);
    PaintAt(b, w, p, Black, Up(zz), own, line);
    ghost var s1, pz := b.nodes[..], Painted(Up(zz), Black);
    HeldUp(s1, w, root, pz, own, line);
    HeldDown(s1, w, root, Up(pz), own, line);
    PaintAt(b, w, y, Black, DownLeft(Up(pz)), own, line);
    ghost var s2, yz := b.nodes[..], Painted(DownLeft(Up(pz)), Black);
    HeldUp(s2, w, root, yz, own, line);
    PaintAt(b, w, gp, Red, Up(yz), own, line);
    LinksTrans(s, s1, s2, own);
    LinksTrans(s, s2, b.nodes[..], own);
  }

  /** z, a left child, rotated above its red parent, which becomes the focus. */
  ghost function BentRight(zz: Zipper): Zipper
    requires UnderRight(zz) && zz.path.Lefts? && zz.tree.Fork?
  {
    DownRight(Up(zz).(tree := TurnRight(Up(zz).tree)))
  }

  /** Parent black and rotated above the red grandparent: the breach is gone. */
  ghost function SettledRight(zz: Zipper): Zipper
    requires UnderRight(zz) && zz.path.Rights? && zz.tree.Fork?
  {
    var gz := Painted(Up(Painted(Up(zz), Black)), Red);
    DownRight(gz.(tree := TurnLeft(gz.tree)))
  }

  lemma BentRightRed(zz: Zipper, h: int)
    requires RedAt(zz, h) && UnderRight(zz) && zz.path.Lefts?
    ensures RedAt(BentRight(zz), h) && UnderRight(BentRight(zz)) && BentRight(zz).path.Rights?
    ensures BentRight(zz).path.up == zz.path.up && Steps(BentRight(zz).path) == Steps(zz.path)
  {
  }

  lemma SettledRightRed(zz: Zipper, h: int)
    requires RedAt(zz, h) && UnderRight(zz) && zz.path.Rights? && Hue(zz.path.up.left) == Black
    ensures RedAt(SettledRight(zz), h) && Steps(SettledRight(zz).path) < Steps(zz.path)
    ensures SettledRight(zz).tree == zz.tree
  {
    var p, g := zz.path, zz.path.up;
    assert PRB(g, h) && RB(g.left, h) && PRB(g.up, h + 1);
    var lower := Fork(g.left, g.idx, Red, p.left);
    assert RB(lower, h);
    assert SettledRight(zz).path == Rights(lower, p.idx, Black, g.up);
  }

  method BendRight(b: Book, w: Which, p: nat, ghost zz: Zipper, ghost own: set<nat>, ghost line: seq<nat>)
    requires Held(b.nodes[..], w, b.RootOf(w), zz, own, line) && UnderRight(zz) && zz.path.Lefts? && zz.tree.Fork?
    requires p == zz.path.idx
    modifies b.nodes, b`longRoot, b`shortRoot, b`seatRoot
    ensures Held(b.nodes[..], w, b.RootOf(w), BentRight(zz), own, line)
    ensures LinksOnly(old(b.nodes[..]), b.nodes[..], own) && b.OtherRoots(w)
  {
    HeldUp(b.nodes[..], w, b.RootOf(w), zz, own, line);
    hide Held, Zip, LinksOnly;
    TurnRightAt(b, w, p, Up(zz), own, line);
    HeldDown(b.nodes[..], w, b.RootOf(w), Up(zz).(tree := TurnRight(Up(zz).tree)), own, line);
  }

  method SettleRight(b: Book, w: Which, z: nat, ghost zz: Zipper, ghost own: set<nat>, ghost line: seq<nat>)
    requires Held(b.nodes[..], w, b.RootOf(w), zz, own, line) && UnderRight(zz) && zz.path.Rights?
    requires zz.tree.Fork? && z == zz.tree.idx
    modifies b.nodes, b`longRoot, b`shortRoot, b`seatRoot
    ensures Held(b.nodes[..], w, b.RootOf(w), SettledRight(zz), own, line)
    ensures LinksOnly(old(b.nodes[..]), b.nodes[..], own) && b.OtherRoots(w)
  {
    ghost var s, root := b.nodes[..], b.RootOf(w);
    Look(b, w, zz, own, line);
    HeldUp(s, w, root, zz, own, line);
    Look(b, w, Up(zz), own, line);
    hide Held, Zip, RB, PRB, LinksOnly;
    var p := b.Parent(w, z);
    var gp := b.Parent(w, p);
    PaintAt(b, w, p, Black, Up(zz), own, line);
    ghost var s1, pz := b.nodes[..], Painted(Up(zz), Black);
    HeldUp(s1, w, root, pz, own, line);
    PaintAt(b, w, gp, Red, Up(pz), own, line);
    ghost var s2, gz := b.nodes[..], Painted(Up(pz), Red);
    TurnLeftAt(b, w, gp, gz, own, line);
    HeldDown(b.nodes[..], w, b.RootOf(w), gz.(tree := TurnLeft(gz.tree)), own, line);
    LinksTrans(s, s1, s2, own);
    LinksTrans(s, s2, b.nodes[..], own);
  }

  /** One round of the loop. */
  method FixRight(b: Book, w: Which, z0: nat, p: nat, gp: nat, ghost start: Zipper, ghost own: set<nat>,
                  ghost line: seq<nat>, ghost h0: int)
      returns (z: nat, ghost zz: Zipper, ghost h: int)
    requires Held(b.nodes[..], w, b.RootOf(w), start, own, line) && RedAt(start, h0) && UnderRight(start)
    requires z0 == start.tree.idx && p == start.path.idx && gp == start.path.up.idx
    modifies b.nodes, b`longRoot, b`shortRoot, b`seatRoot
    ensures Held(b.nodes[..], w, b.RootOf(w), zz, own, line) && RedAt(zz, h) && z == zz.tree.idx
    ensures Steps(zz.path) < Steps(start.path)
    ensures LinksOnly(old(b.nodes[..]), b.nodes[..], own) && b.OtherRoots(w)
  {
    hide Held, Zip, RB, PRB, LinksOnly, Ids, PIds, InOrder, Plug, Rep, PRep, Before, After;
    ghost var s, root := b.nodes[..], b.RootOf(w);
    z, zz, h := z0, start, h0;
    HeldUp(s, w, root, zz, own, line);
    HeldUp(s, w, root, Up(zz), own, line);
    ShapeHeld(s, w, root, Up(zz), own, line);
    ShapeHeld(s, w, root, Up(Up(zz)), own, line);
    var y := b.Left(w, gp);
    if y != 0 && b.ColorOf(w, y) == Red {
      LiftRight(b, w, p, y, gp, zz, own, line);
      LiftedRightRed(zz, h);
      z, zz, h := gp, LiftedRight(zz), h + 1;
    } else {
      if z == b.Left(w, p) {
        BentRightRed(zz, h);
        z := p;
        BendRight(b, w, z, zz, own, line);
        zz := BentRight(zz);
      }
      ghost var s1 := b.nodes[..];
      SettledRightRed(zz, h);
      SettleRight(b, w, z, zz, own, line);
      LinksSame(s, own);
      LinksTrans(s, s1, b.nodes[..], own);
      zz := SettledRight(zz);
    }
  }


  // ----- the loop, and the descent to the new leaf -----------------------------------------------------

  lemma RedParent(zz: Zipper, h: int)
    requires RedAt(zz, h) && TopRed(zz.path)
    ensures !zz.path.up.Top? && (UnderLeft(zz) || UnderRight(zz))
  {
  }

  lemma Blackened(s: Pool, w: Which, root: nat, zz: Zipper, own: set<nat>, line: seq<nat>, h: int)
    requires Held(s, w, root, zz, own, line) && RedAt(zz, h) && !TopRed(zz.path)
    ensures var t := Whole(zz);
            && t.Fork? && Held(s, w, root, Zipper(Top, t), own, line)
            && root == t.idx != 0 && Has(s, w, root) && Balanced(t.(color := Black))
  {
    var t := Whole(zz);
    ZipTop(s, w, root, zz.path, zz.tree);
    PlugIds(zz.path, zz.tree);
    if zz.path.Top? {
      assert RB(t.(color := Black), h + 1);
    } else {
      PlugFork(zz.path, zz.tree);
      PlugBalanced(zz.path, zz.tree, h);
      assert t.(color := Black) == t;
    }
  }

  /** The body of the loop. */
  method FixRound(b: Book, w: Which, z0: nat, ghost start: Zipper, ghost own: set<nat>, ghost line: seq<nat>,
                  ghost h0: int)
      returns (z: nat, ghost zz: Zipper, ghost h: int)
    requires Held(b.nodes[..], w, b.RootOf(w), start, own, line) && RedAt(start, h0) && z0 == start.tree.idx
    requires TopRed(start.path)
    modifies b.nodes, b`longRoot, b`shortRoot, b`seatRoot
    ensures Held(b.nodes[..], w, b.RootOf(w), zz, own, line) && RedAt(zz, h) && Seen(b, w, z, zz)
    ensures Steps(zz.path) < Steps(start.path)
    ensures LinksOnly(old(b.nodes[..]), b.nodes[..], own) && b.OtherRoots(w)
  {
    ghost var s, root := b.nodes[..], b.RootOf(w);
    Look(b, w, start, own, line);
    RedParent(start, h0);
    HeldUp(s, w, root, start, own, line);
    Look(b, w, Up(start), own, line);
    HeldUp(s, w, root, Up(start), own, line);
    Shape(s, w, root, Up(Up(start)));
    hide Held, RB, PRB, LinksOnly, Ids, PIds, InOrder, Plug;
    var p := b.Parent(w, z0);
    var gp := b.Parent(w, p);
    if p == b.Left(w, gp) {
      z, zz, h := FixLeft(b, w, z0, p, gp, start, own, line, h0);
    } else {
      z, zz, h := FixRight(b, w, z0, p, gp, start, own, line, h0);
    }
    Look(b, w, zz, own, line);
  }

  /** Climbs from the red node z0 until no red node has a red parent, then blackens the root. The
      tree ends balanced, over the same slots in the same order. */
  method InsertFixup(b: Book, w: Which, z0: nat, ghost start: Zipper, ghost own: set<nat>, ghost line: seq<nat>,
                     ghost h0: int)
      returns (ghost t: Tree)
    requires Held(b.nodes[..], w, b.RootOf(w), start, own, line) && RedAt(start, h0) && z0 == start.tree.idx
    modifies b.nodes, b`longRoot, b`shortRoot, b`seatRoot
    ensures Held(b.nodes[..], w, b.RootOf(w), Zipper(Top, t), own, line) && Balanced(t)
    ensures LinksOnly(old(b.nodes[..]), b.nodes[..], own) && b.OtherRoots(w)
  {
    ghost var s := b.nodes[..];
    var z := z0;
    ghost var zz, h := start, h0;
    Look(b, w, zz, own, line);
    hide Held, RB, PRB, LinksOnly, Ids, PIds, InOrder, Plug;
    LinksSame(s, own);
    while b.Parent(w, z) != 0 && b.ColorOf(w, b.Parent(w, z)) == Red
      invariant Held(b.nodes[..], w, b.RootOf(w), zz, own, line) && RedAt(zz, h) && Seen(b, w, z, zz)
      invariant LinksOnly(s, b.nodes[..], own) && b.OtherRoots(w)
      decreases Steps(zz.path)
    {
      ghost var s1 := b.nodes[..];
      z, zz, h := FixRound(b, w, z, zz, own, line, h);
      LinksTrans(s, s1, b.nodes[..], own);
    }
    ghost var s2 := b.nodes[..];
    var root := b.RootOf(w);
    Blackened(s2, w, root, zz, own, line, h);
    if root != 0 {
      PaintAt(b, w, root, Black, Zipper(Top, Whole(zz)), own, line);
    }
    t := Whole(zz).(color := Black);
    LinksTrans(s, s2, b.nodes[..], own);
  }

  /** data's key is not before the keys of line[..lo], and is before the keys of line[hi..]. */
  ghost predicate Bounded(s: Pool, w: Which, line: seq<nat>, data: Data, lo: nat, hi: nat)
    requires Kind(w, data) && Ordered(s, w, line)
  {
    && lo <= hi <= |line|
    && (forall j :: 0 <= j < lo ==> !Less(w, data, s[line[j]].data))
    && (forall j :: hi <= j < |line| ==> Less(w, data, s[line[j]].data))
  }

  /** Comparing with the key at place m settles one side of m. */
  lemma Narrow(s: Pool, w: Which, line: seq<nat>, data: Data, lo: nat, hi: nat, m: nat)
    requires Kind(w, data) && Ordered(s, w, line) && Bounded(s, w, line, data, lo, hi) && lo <= m < hi
    ensures Less(w, data, s[line[m]].data) ==> Bounded(s, w, line, data, lo, m)
    ensures !Less(w, data, s[line[m]].data) ==> Bounded(s, w, line, data, m + 1, hi)
  {
  }

  /** The new index goes between the two sides. */
  lemma SlottedIn(s: Pool, s': Pool, w: Which, line: seq<nat>, idx: nat, k: nat)
    requires Has(s, w, idx) && Ordered(s, w, line) && k <= |line| && Bounded(s, w, line, s[idx].data, k, k)
    requires |s| == |s'| && forall i :: 0 <= i < |s| ==> Bare(s'[i]) == Bare(s[i])
    ensures Ordered(s', w, line[..k] + [idx] + line[k..])
  {
    var line' := line[..k] + [idx] + line[k..];
    forall j | 0 <= j < |line'| ensures Has(s', w, line'[j]) && s'[line'[j]].data == s[line'[j]].data {
      assert line'[j] == if j < k then line[j] else if j == k then idx else line[j - 1];
      assert Bare(s'[line'[j]]) == Bare(s[line'[j]]);
    }
    forall i, j | 0 <= i < j < |line'| ensures !Less(w, s[line'[j]].data, s[line'[i]].data) {
      assert line'[i] == if i < k then line[i] else if i == k then idx else line[i - 1];
      assert line'[j] == if j < k then line[j] else if j == k then idx else line[j - 1];
    }
  }

  /** A red leaf hung into the empty hole of c. */
  lemma Hung(s: Pool, s': Pool, w: Which, root: nat, c: Path, idx: nat, own: set<nat>, line: seq<nat>)
    requires Held(s, w, root, Zipper(c, Leaf), own, line) && !c.Top? && 0 < idx && idx !in own && Has(s, w, idx)
    requires s[idx].left == 0 == s[idx].right && s[idx].color == Red
    requires 0 < c.idx < |s| && s[c.idx].Used? && c.idx != idx && Except(s, s', {idx, c.idx})
    requires s'[idx] == s[idx].(parent := c.idx)
    requires s'[c.idx] == if c.Lefts? then s[c.idx].(left := idx) else s[c.idx].(right := idx)
    ensures Held(s', w, root, Zipper(c, Fork(Leaf, idx, Red, Leaf)), own + {idx}, Before(c) + [idx] + After(c))
    ensures line == Before(c) + After(c)
  {
    var leaf := Fork(Leaf, idx, Red, Leaf);
    Rehole(s, s', w, root, root, c, 0, idx, {idx, c.idx});
    assert Ids(leaf) == {idx} && InOrder(leaf) == [idx];
    PlugInOrder(c, Leaf);
    PlugInOrder(c, leaf);
    assert Before(c) + InOrder(Leaf) + After(c) == Before(c) + After(c);
  }

  /** The search for data's place has narrowed to the subtree in focus. */
  ghost predicate Searching(s: Pool, w: Which, root: nat, zz: Zipper, own: set<nat>, line: seq<nat>, data: Data,
                            h: int) {
    && Kind(w, data) && Ordered(s, w, line) && Held(s, w, root, zz, own, line)
    && Fits(zz, h)
    && |Before(zz.path)| + |After(zz.path)| <= |line|
    && Bounded(s, w, line, data, |Before(zz.path)|, |line| - |After(zz.path)|)
    && (w.Seats? ==> forall j :: 0 <= j < |Before(zz.path)| ==> s[line[j]].data.trader != data.trader)
  }

  lemma SearchDown(s: Pool, w: Which, root: nat, zz: Zipper, own: set<nat>, line: seq<nat>, data: Data, h: int)
    requires Searching(s, w, root, zz, own, line, data, h) && zz.tree.Fork? && Has(s, w, zz.tree.idx)
    ensures var at, h' := s[zz.tree.idx].data, Below(zz.tree, h);
            && (exists j :: 0 <= j < |line| && line[j] == zz.tree.idx)
            && (Less(w, data, at) ==> Searching(s, w, root, DownLeft(zz), own, line, data, h'))
            && (!Less(w, data, at) && (w.Seats? ==> at.trader != data.trader)
                ==> Searching(s, w, root, DownRight(zz), own, line, data, h'))
  {
    hide Held, Less, Fits, Whole, InOrder, Before, After, Place, Zip, Bounded;
    HeldDown(s, w, root, zz, own, line);
    SearchPlace(s, w, root, zz, own, line);
    FitsDown(zz, h);
    SeatsBefore(s, w, line, data, Place(zz));
    Narrow(s, w, line, data, |Before(zz.path)|, |line| - |After(zz.path)|, Place(zz));
  }

  lemma SeatsBefore(s: Pool, w: Which, line: seq<nat>, data: Data, m: nat)
    requires Kind(w, data) && Ordered(s, w, line) && m < |line|
    ensures w.Seats? && !Less(w, data, s[line[m]].data) && s[line[m]].data.trader != data.trader ==>
      forall j :: 0 <= j <= m ==> s[line[j]].data.trader != data.trader
  {
  }

  lemma SearchPlace(s: Pool, w: Which, root: nat, zz: Zipper, own: set<nat>, line: seq<nat>)
    requires Held(s, w, root, zz, own, line) && zz.tree.Fork?
    ensures |Before(zz.path)| <= Place(zz) < |line| - |After(zz.path)| && line[Place(zz)] == zz.tree.idx
    ensures |Before(DownLeft(zz).path)| == |Before(zz.path)| && |After(DownLeft(zz).path)| == |line| - Place(zz)
    ensures |Before(DownRight(zz).path)| == Place(zz) + 1 && |After(DownRight(zz).path)| == |After(zz.path)|
  {
    Placed(zz);
    PlugInOrder(zz.path, zz.tree);
  }

  lemma SearchShape(s: Pool, w: Which, root: nat, zz: Zipper, own: set<nat>, line: seq<nat>, data: Data, h: int)
    requires Searching(s, w, root, zz, own, line, data, h) && zz.tree.Fork?
    ensures NodeShape(s, w, zz.tree)
  {
    Shape(s, w, root, zz);
  }

  lemma SearchEnd(s: Pool, w: Which, root: nat, c: Path, own: set<nat>, line: seq<nat>, data: Data, h: int)
    requires Searching(s, w, root, Zipper(c, Leaf), own, line, data, h)
    ensures h == 0 && |Before(c)| <= |line| && |After(c)| == |line| - |Before(c)|
    ensures w.Seats? ==> forall j :: 0 <= j < |line| ==> s[line[j]].data.trader != data.trader
  {
    PlugInOrder(c, Leaf);
  }

  /** The search for the new node's parent, from the root down. An intent with an equal key goes to
      the right; a seat with an equal key stops the search. */
  method Descend(b: Book, w: Which, idx: nat, ghost t: Tree, ghost own: set<nat>, ghost line: seq<nat>, ghost h0: int)
      returns (found: bool, parent: nat, goLeft: bool, ghost c: Path, ghost h: int)
    requires Held(b.nodes[..], w, b.RootOf(w), Zipper(Top, t), own, line) && t.Fork? && RB(t, h0) && Hue(t) == Black
    requires b.Typed(w, idx) && Ordered(b.nodes[..], w, line)
    ensures found ==>
      && w.Seats?
      && exists j :: 0 <= j < |line| && b.Typed(w, line[j]) && b.nodes[line[j]].data.trader == b.nodes[idx].data.trader
    ensures !found ==>
      && Searching(b.nodes[..], w, b.RootOf(w), Zipper(c, Leaf), own, line, b.nodes[idx].data, h)
      && !c.Top? && parent == c.idx && goLeft == c.Lefts?
  {
    ghost var s, root := b.nodes[..], b.RootOf(w);
    var data := b.nodes[idx].data;
    var cur := b.RootOf(w);
    found, parent, goLeft, h := false, 0, false, h0;
    ghost var zz := Zipper(Top, t);
    c := Top;
    assert Searching(s, w, root, zz, own, line, data, h);
    Shape(s, w, root, zz);
    hide Searching, Held, Zip, Ordered, RB, PRB, Bounded, Ids, PIds, Before, After;
    while true
      invariant Searching(s, w, root, zz, own, line, data, h)
      invariant zz.tree.Fork? && cur == zz.tree.idx && NodeShape(s, w, zz.tree)
      decreases zz.tree
    {
      parent := cur;
      SearchDown(s, w, root, zz, own, line, data, h);
      ghost var h' := Below(zz.tree, h);
      if Less(w, data, b.nodes[cur].data) {
        goLeft := true;
        zz, h := DownLeft(zz), h';
        var l := b.Left(w, cur);
        if l == 0 { break; }
        cur := l;
      } else if w.Seats? && data.trader == b.nodes[cur].data.trader {
        found := true;
        return;
      } else {
        goLeft := false;
        zz, h := DownRight(zz), h';
        var r := b.Right(w, cur);
        if r == 0 { break; }
        cur := r;
      }
      SearchShape(s, w, root, zz, own, line, data, h);
    }
    c := zz.path;
  }

  /** line with idx put in at some place. */
  ghost predicate Slotted(line: seq<nat>, line': seq<nat>, idx: nat) {
    exists k :: 0 <= k <= |line| && line' == line[..k] + [idx] + line[k..]
  }

  /** The key of slot idx is already taken by a seat of the tree. */
  ghost predicate SeatTaken(s: Pool, w: Which, line: seq<nat>, idx: nat) {
    w.Seats? && Has(s, w, idx)
    && exists j :: 0 <= j < |line| && Has(s, w, line[j]) && s[line[j]].data.trader == s[idx].data.trader
  }

  /** The only node of a tree that was empty. */
  lemma Planted(s: Pool, s': Pool, w: Which, root: nat, t: Tree, idx: nat)
    requires SearchTree(s, w, root, t) && root == 0 && 0 < idx && Has(s, w, idx)
    requires s' == s[idx := Used(0, 0, 0, Black, s[idx].data)]
    ensures t == Leaf && SearchTree(s', w, idx, Fork(Leaf, idx, Black, Leaf)) && LinksOnly(s, s', {idx})
    ensures Slotted([], [idx], idx)
  {
    var t' := Fork(Leaf, idx, Black, Leaf);
    assert InOrder(t') == [idx] && Ids(t') == {idx};
    assert RB(t', 1);
    var line: seq<nat> := [];
    assert line[..0] + [idx] + line[0..] == [idx];
  }

  /** Resetting the links of the slot to insert does not touch the tree. */
  lemma Readied(s: Pool, s1: Pool, w: Which, root: nat, t: Tree, idx: nat)
    requires SearchTree(s, w, root, t) && 0 < idx && Has(s, w, idx) && idx !in Ids(t)
    requires s1 == s[idx := Used(0, 0, 0, Red, s[idx].data)]
    ensures SearchTree(s1, w, root, t) && LinksOnly(s, s1, Ids(t) + {idx})
    ensures root != 0 <==> t.Fork?
  {
    HeldFrame(s, s1, w, root, Zipper(Top, t), Ids(t), InOrder(t), {idx});
  }

  lemma InsertDone(s: Pool, s1: Pool, s2: Pool, s3: Pool, w: Which, line: seq<nat>, c: Path, idx: nat, own: set<nat>)
    requires Has(s1, w, idx) && Ordered(s1, w, line) && line == Before(c) + After(c)
    requires Bounded(s1, w, line, s1[idx].data, |Before(c)|, |Before(c)|)
    requires LinksOnly(s, s1, own + {idx}) && LinksOnly(s1, s2, own + {idx}) && LinksOnly(s2, s3, own + {idx})
    ensures LinksOnly(s, s3, own + {idx})
    ensures Ordered(s3, w, Before(c) + [idx] + After(c)) && Slotted(line, Before(c) + [idx] + After(c), idx)
  {
    LinksTrans(s1, s2, s3, own + {idx});
    LinksTrans(s, s1, s3, own + {idx});
    SlottedIn(s1, s3, w, line, idx, |Before(c)|);
    var k := |Before(c)|;
    assert line[..k] == Before(c) && line[k..] == After(c);
    assert line[..k] + [idx] + line[k..] == Before(c) + [idx] + After(c);
  }

  /** Links slot idx, prepared as a red leaf, under the parent the search found. */
  method HangLeaf(b: Book, w: Which, idx: nat, parent: nat, goLeft: bool, ghost c: Path, ghost own: set<nat>,
                  ghost line: seq<nat>)
    requires Held(b.nodes[..], w, b.RootOf(w), Zipper(c, Leaf), own, line)
    requires !c.Top? && parent == c.idx && goLeft == c.Lefts?
    requires idx != 0 && idx !in own && b.Typed(w, idx)
    requires b.nodes[idx].left == 0 == b.nodes[idx].right && b.nodes[idx].color == Red
    modifies b.nodes
    ensures Held(b.nodes[..], w, b.RootOf(w), Zipper(c, Fork(Leaf, idx, Red, Leaf)), own + {idx},
                 Before(c) + [idx] + After(c))
    ensures line == Before(c) + After(c) && LinksOnly(old(b.nodes[..]), b.nodes[..], own + {idx})
  {
    ghost var s, root := b.nodes[..], b.RootOf(w);
    assert PIds(c) <= own && c.idx in PIds(c) && Has(s, w, c.idx) && 0 < c.idx;
    hide Held, Zip, PRep, Rep, PIds, Ids, Before, After;
    b.SetParent(w, idx, parent);
    if goLeft {
      b.SetLeft(w, parent, idx);
    } else {
      b.SetRight(w, parent, idx);
    }
    Hung(s, b.nodes[..], w, root, c, idx, own, line);
  }

  /** The slot to insert has been readied, and the tree is not empty. */
  method InsertBelow(b: Book, w: Which, idx: nat, ghost t: Tree, ghost s: Pool) returns (ok: bool, ghost t': Tree)
    requires SearchTree(b.nodes[..], w, b.RootOf(w), t) && t.Fork? && 0 < idx && b.Typed(w, idx) && idx !in Ids(t)
    requires b.nodes[idx] == Used(0, 0, 0, Red, b.nodes[idx].data) && LinksOnly(s, b.nodes[..], Ids(t) + {idx})
    modifies b.nodes, b`longRoot, b`shortRoot, b`seatRoot
    ensures ok <==> !SeatTaken(old(b.nodes[..]), w, InOrder(t), idx)
    ensures SearchTree(b.nodes[..], w, b.RootOf(w), t') && (!ok ==> t' == t)
    ensures ok ==> Ids(t') == Ids(t) + {idx} && Slotted(InOrder(t), InOrder(t'), idx)
    ensures LinksOnly(s, b.nodes[..], Ids(t) + {idx}) && b.OtherRoots(w)
  {
    hide Held, Less, Ids, InOrder, Before, After, Slotted, LinksOnly;
    ghost var (own, line, root, s1) := (Ids(t), InOrder(t), b.RootOf(w), b.nodes[..]);
    ghost var h0 :| RB(t, h0);
    ok, t' := false, t;
    var found, parent, goLeft, c, h := Descend(b, w, idx, t, own, line, h0);
    if found { return; }
    SearchEnd(s1, w, root, c, own, line, b.nodes[idx].data, h);
    HangLeaf(b, w, idx, parent, goLeft, c, own, line);
    ghost var s2 := b.nodes[..];
    t' := InsertFixup(b, w, idx, Zipper(c, Fork(Leaf, idx, Red, Leaf)), own + {idx}, Before(c) + [idx] + After(c), 0);
    InsertDone(s, s1, s2, b.nodes[..], w, line, c, idx, own);
    WholeIds(b.nodes[..], w, b.RootOf(w), t', own + {idx}, Before(c) + [idx] + After(c));
    ok := true;
  }

  lemma WholeIds(s: Pool, w: Which, root: nat, t: Tree, own: set<nat>, line: seq<nat>)
    requires Held(s, w, root, Zipper(Top, t), own, line)
    ensures Ids(t) == own && InOrder(t) == line && Held(s, w, root, Zipper(Top, t), Ids(t), InOrder(t))
  {
  }

  /** Inserts slot idx into tree w. Only a null index, or a second seat for one trader, is refused;
      then the tree is as it was. */
  method Insert(b: Book, w: Which, idx: nat, ghost t: Tree) returns (ok: bool, ghost t': Tree)
    requires SearchTree(b.nodes[..], w, b.RootOf(w), t)
    requires idx == 0 || (b.Typed(w, idx) && idx !in Ids(t))
    modifies b.nodes, b`longRoot, b`shortRoot, b`seatRoot
    ensures ok <==> idx != 0 && !SeatTaken(old(b.nodes[..]), w, InOrder(t), idx)
    ensures SearchTree(b.nodes[..], w, b.RootOf(w), t')
    ensures !ok ==> t' == t
    ensures ok ==> Ids(t') == Ids(t) + {idx} && Slotted(InOrder(t), InOrder(t'), idx)
    ensures LinksOnly(old(b.nodes[..]), b.nodes[..], Ids(t) + {idx}) && b.OtherRoots(w)
  {
    ok, t' := false, t;
    if idx == 0 { LinksSame(b.nodes[..], Ids(t) + {idx}); return; }
    ghost var s, root := b.nodes[..], b.RootOf(w);
    b.nodes[idx] := b.nodes[idx].(left := 0, right := 0, parent := 0, color := Red);
    Readied(s, b.nodes[..], w, root, t, idx);
    if b.RootOf(w) == 0 {
      b.SetColor(w, idx, Black);
      b.SetRoot(w, idx);
      Planted(s, b.nodes[..], w, root, t, idx);
      t' := Fork(Leaf, idx, Black, Leaf);
      ok := true;
      return;
    }
    hide SearchTree, Ids, InOrder, Slotted, LinksOnly;
    ok, t' := InsertBelow(b, w, idx, t, s);
  }
}
