/** Removal from a tree of the pool. */
module Removal {
  import opened Nodes
  import opened Trees
  import opened IntentBook
  import opened Rotations
  import opened Rebalancing

  // ----- paths inside paths ------------------------------------------------------------------------

  /** Path p continued upwards by q. */
  ghost function Join(p: Path, q: Path): Path {
    match p
    case Top => q
    case Lefts(i, col, r, up) => Lefts(i, col, r, Join(up, q))
    case Rights(l, i, col, up) => Rights(l, i, col, Join(up, q))
  }

  lemma {:induction false} JoinUp(s: Pool, w: Which, root: nat, p: Path, q: Path, t: Tree, own: set<nat>,
                                  line: seq<nat>)
    requires Held(s, w, root, Zipper(Join(p, q), t), own, line)
    ensures Held(s, w, root, Zipper(q, Plug(p, t)), own, line)
  {
    if !p.Top? {
      HeldUp(s, w, root, Zipper(Join(p, q), t), own, line);
      JoinUp(s, w, root, p.up, q, Up(Zipper(p, t)).tree, own, line);
    }
  }

  lemma {:induction false} JoinDown(s: Pool, w: Which, root: nat, p: Path, q: Path, t: Tree, own: set<nat>,
                                    line: seq<nat>)
    requires Held(s, w, root, Zipper(q, Plug(p, t)), own, line)
    ensures Held(s, w, root, Zipper(Join(p, q), t), own, line)
  {
    if !p.Top? {
      var z := Up(Zipper(p, t));
      JoinDown(s, w, root, p.up, q, z.tree, own, line);
      HeldDown(s, w, root, Zipper(Join(p.up, q), z.tree), own, line);
    }
  }

  /** The colour rules do not see which index a path goes through. */
  lemma {:induction false} SameRules(p: Path, l: Tree, z: nat, y: nat, col: Color, c: Path, h: int)
    requires PRB(Join(p, Rights(l, z, col, c)), h)
    ensures PRB(Join(p, Rights(l, y, col, c)), h)
  {
    if !p.Top? {
      SameRules(p.up, l, z, y, col, c, if p.color == Red then h else h + 1);
    }
  }

  lemma {:induction false} JoinIdx(p: Path, q: Path)
    requires PDistinct(Join(p, q)) && !q.Top?
    ensures TopIdx(Join(p, q)) == q.idx <==> p.Top?
  {
    if !p.Top? { JoinIds(p.up, q); }
  }

  lemma {:induction false} JoinIds(p: Path, q: Path)
    ensures PIds(Join(p, q)) >= PIds(q)
  {
    if !p.Top? { JoinIds(p.up, q); }
  }

  // ----- finding the node ----------------------------------------------------------------------------

  lemma {:induction false} Locate(s: Pool, w: Which, root: nat, zz: Zipper, own: set<nat>, line: seq<nat>, h: int,
                                  z: nat)
      returns (at: Zipper, h': int)
    requires Held(s, w, root, zz, own, line) && Fits(zz, h) && z in Ids(zz.tree)
    ensures Held(s, w, root, at, own, line) && Fits(at, h') && at.tree.Fork? && at.tree.idx == z
    decreases zz.tree
  {
    if z == zz.tree.idx {
      return zz, h;
    }
    HeldDown(s, w, root, zz, own, line);
    FitsDown(zz, h);
    if z in Ids(zz.tree.left) {
      at, h' := Locate(s, w, root, DownLeft(zz), own, line, Below(zz.tree, h), z);
    } else {
      at, h' := Locate(s, w, root, DownRight(zz), own, line, Below(zz.tree, h), z);
    }
  }

  /** The leftmost node under i. */
  method TreeMinimum(b: Book, w: Which, i: nat, ghost start: Zipper, ghost own: set<nat>, ghost line: seq<nat>,
                     ghost h0: int)
      returns (y: nat, ghost p: Path, ghost t: Tree, ghost h: int)
    requires Held(b.nodes[..], w, b.RootOf(w), start, own, line) && Fits(start, h0)
    requires start.tree.Fork? && i == start.tree.idx
    ensures b.Typed(w, y) && b.nodes[y].left == 0
    ensures t.Fork? && t.left == Leaf && y == t.idx && Plug(p, t) == start.tree && Before(p) == []
    ensures var at := Zipper(Join(p, start.path), t);
            Held(b.nodes[..], w, b.RootOf(w), at, own, line) && Fits(at, h)
  {
    ghost var s, root := b.nodes[..], b.RootOf(w);
    y, p, t, h := i, Top, start.tree, h0;
    ghost var zz := start;
    Shape(s, w, root, zz);
    hide Held, Fits, Zip, Ids, PIds, RB, PRB;
    while y != 0
      invariant zz == Zipper(Join(p, start.path), t) && Held(s, w, root, zz, own, line) && Fits(zz, h)
      invariant t.Fork? && y == t.idx && Plug(p, t) == start.tree && Before(p) == []
      invariant NodeShape(s, w, t)
      decreases t
    {
      var l := b.Left(w, y);
      if l == 0 { return; }
      HeldDown(s, w, root, zz, own, line);
      FitsDown(zz, h);
      p, h := Lefts(t.idx, t.color, t.right, p), Below(t, h);
      t := t.left;
      zz := Zipper(Join(p, start.path), t);
      Shape(s, w, root, zz);
      y := l;
    }
  }

  // ----- link surgery ----------------------------------------------------------------------------------

  /** Hangs v where u hangs. */
  method Transplant(b: Book, w: Which, u: nat, v: nat)
    requires u != 0 && b.Typed(w, u) && (v == 0 || b.Typed(w, v))
    requires var up := b.nodes[u].parent;
             up != 0 ==> b.Typed(w, up) && up != v && (b.nodes[up].left == u <==> b.nodes[up].right != u)
    modifies b.nodes, b`longRoot, b`shortRoot, b`seatRoot
    ensures var up := old(b.nodes[u].parent);
      && (b.RootOf(w) == if up == 0 then v else old(b.RootOf(w)))
      && (up != 0 ==> b.nodes[up] == if old(b.nodes[up].left) == u then old(b.nodes[up]).(left := v)
                                     else old(b.nodes[up]).(right := v))
      && (v != 0 ==> b.nodes[v] == old(b.nodes[v]).(parent := up))
      && forall j :: 0 <= j < b.nodes.Length && (j != up || j == 0) && (j != v || j == 0) ==>
        b.nodes[j] == old(b.nodes[j])
    ensures b.OtherRoots(w)
  {
    var up := b.Parent(w, u);
    if up == 0 {
      b.SetRoot(w, v);
    } else if u == b.Left(w, up) {
      b.nodes[up] := b.nodes[up].(left := v);
    } else {
      b.nodes[up] := b.nodes[up].(right := v);
    }
    if v != 0 { b.nodes[v] := b.nodes[v].(parent := up); }
  }

  /** A node with at most one child gives way to that child. */
  lemma Spliced(s: Pool, s': Pool, w: Which, root: nat, root': nat, zz: Zipper, v: Tree, own: set<nat>, line: seq<nat>)
    requires Held(s, w, root, zz, own, line) && zz.tree.Fork?
    requires (zz.tree.left == Leaf && v == zz.tree.right) || (zz.tree.right == Leaf && v == zz.tree.left)
    requires Rehung(s, s', root, root', zz.path, Root(v)) && Except(s, s', {zz.tree.idx, Root(v), TopIdx(zz.path)})
    requires v.Fork? && v.idx < |s| && s[v.idx].Used? ==> s'[v.idx] == s[v.idx].(parent := TopIdx(zz.path))
    ensures Held(s', w, root', Zipper(zz.path, v), own - {zz.tree.idx}, Before(zz.path) + InOrder(v) + After(zz.path))
  {
    var u, c := zz.tree.idx, zz.path;
    var changed := {u, Root(v), TopIdx(c)};
    Parts(s, w, root, zz, own, line);
    assert v.Fork? ==> Has(s, w, v.idx);
    assert Ids(Leaf) == {};
    hide Held, Rep, PRep, Ids, PIds, Distinct, PDistinct, InOrder, Before, After;
    Reparent(s, s', w, v, u, TopIdx(c), changed);
    Rehole(s, s', w, root, root', c, u, Root(v), changed);
    ZipOf(s', w, root', c, v, own - {u});
  }

  /** Slot y, from outside the tree, takes the place, links and colour of the focused slot. */
  lemma Replaced(s: Pool, s': Pool, w: Which, root: nat, root': nat, zz: Zipper, y: nat, own: set<nat>, line: seq<nat>)
    requires Held(s, w, root, zz, own, line) && zz.tree.Fork? && y !in own && 0 < y && Has(s, w, y)
    requires var f := zz.tree;
      && Rehung(s, s', root, root', zz.path, y)
      && Except(s, s', {f.idx, y, Root(f.left), Root(f.right), TopIdx(zz.path)})
      && s'[y] == Used(Root(f.left), Root(f.right), TopIdx(zz.path), f.color, s[y].data)
      && (f.left.Fork? && f.left.idx < |s| && s[f.left.idx].Used? ==> s'[f.left.idx] == s[f.left.idx].(parent := y))
      && (f.right.Fork? && f.right.idx < |s| && s[f.right.idx].Used? ==>
        s'[f.right.idx] == s[f.right.idx].(parent := y))
    ensures var f' := zz.tree.(idx := y);
      Held(s', w, root', zz.(tree := f'), own - {zz.tree.idx} + {y}, Before(zz.path) + InOrder(f') + After(zz.path))
  {
    var f, c := zz.tree, zz.path;
    var f' := f.(idx := y);
    var changed := {f.idx, y, Root(f.left), Root(f.right), TopIdx(c)};
    Parts(s, w, root, zz, own, line);
    ReplacedParts(s, s', w, root, root', zz, y, own, line);
    hide Held, Rep, PRep, Ids, PIds, Distinct, PDistinct, InOrder, Before, After;
    ForkOf(s', w, f', TopIdx(c));
    ZipOf(s', w, root', c, f', own - {f.idx} + {y});
  }

  lemma ReplacedParts(s: Pool, s': Pool, w: Which, root: nat, root': nat, zz: Zipper, y: nat, own: set<nat>,
                      line: seq<nat>)
    requires Held(s, w, root, zz, own, line) && zz.tree.Fork? && y !in own && 0 < y && Has(s, w, y)
    requires var f := zz.tree;
      && Rehung(s, s', root, root', zz.path, y)
      && Except(s, s', {f.idx, y, Root(f.left), Root(f.right), TopIdx(zz.path)})
      && (f.left.Fork? && f.left.idx < |s| && s[f.left.idx].Used? ==> s'[f.left.idx] == s[f.left.idx].(parent := y))
      && (f.right.Fork? && f.right.idx < |s| && s[f.right.idx].Used? ==>
        s'[f.right.idx] == s[f.right.idx].(parent := y))
    ensures Rep(s', w, zz.tree.left, y) && Rep(s', w, zz.tree.right, y) && PRep(s', w, root', zz.path, y)
  {
    var f, c := zz.tree, zz.path;
    var changed := {f.idx, y, Root(f.left), Root(f.right), TopIdx(c)};
    Parts(s, w, root, zz, own, line);
    assert f.left.Fork? ==> Has(s, w, f.left.idx);
    assert f.right.Fork? ==> Has(s, w, f.right.idx);
    hide Held, Rep, PRep, Ids, PIds, Distinct, PDistinct, InOrder, Before, After;
    Reparent(s, s', w, f.left, f.idx, y, changed);
    Reparent(s, s', w, f.right, f.idx, y, changed);
    Rehole(s, s', w, root, root', c, f.idx, y, changed);
  }

  /** Takes a node with at most one child v out. */
  method SpliceOut(b: Book, w: Which, u: nat, v: nat, ghost zz: Zipper, ghost vt: Tree, ghost own: set<nat>,
                   ghost line: seq<nat>)
    requires Held(b.nodes[..], w, b.RootOf(w), zz, own, line) && zz.tree.Fork? && u == zz.tree.idx && v == Root(vt)
    requires (zz.tree.left == Leaf && vt == zz.tree.right) || (zz.tree.right == Leaf && vt == zz.tree.left)
    modifies b.nodes, b`longRoot, b`shortRoot, b`seatRoot
    ensures Held(b.nodes[..], w, b.RootOf(w), Zipper(zz.path, vt), own - {u},
                 Before(zz.path) + InOrder(vt) + After(zz.path))
    ensures LinksOnly(old(b.nodes[..]), b.nodes[..], own) && b.OtherRoots(w) && b.nodes[u] == old(b.nodes[u])
    ensures v != 0 ==> v in own - {u} && b.Typed(w, v) && b.nodes[v].parent == TopIdx(zz.path)
  {
    ghost var s, root := b.nodes[..], b.RootOf(w);
    Shape(s, w, root, zz);
    assert !zz.path.Top? ==> TopIdx(zz.path) in own;
    hide Held, Zip, Ids, PIds, Rep, PRep;
    Transplant(b, w, u, v);
    Spliced(s, b.nodes[..], w, root, b.RootOf(w), zz, vt, own, line);
  }

  /** y, outside the tree and already linked to the right subtree, takes over the rest of z's place. */
  method TakeOver(b: Book, w: Which, z: nat, y: nat, zLeft: nat)
    requires z != 0 && b.Typed(w, z) && y != 0 && b.Typed(w, y) && zLeft != 0 && b.Typed(w, zLeft)
    requires z != y && z != zLeft && y != zLeft
    requires var up := b.nodes[z].parent;
             up != 0 ==>
               && b.Typed(w, up) && up != y && up != z && up != zLeft
               && (b.nodes[up].left == z <==> b.nodes[up].right != z)
    modifies b.nodes, b`longRoot, b`shortRoot, b`seatRoot
    ensures var up := old(b.nodes[z].parent);
      && b.nodes[y] == old(b.nodes[y]).(left := zLeft, parent := up, color := old(b.nodes[z].color))
      && b.nodes[zLeft] == old(b.nodes[zLeft]).(parent := y)
      && (b.RootOf(w) == if up == 0 then y else old(b.RootOf(w)))
      && (up != 0 ==> b.nodes[up] == if old(b.nodes[up].left) == z then old(b.nodes[up]).(left := y)
                                     else old(b.nodes[up]).(right := y))
      && forall j :: 0 <= j < b.nodes.Length && (j != up || j == 0) && j != y && j != zLeft ==>
        b.nodes[j] == old(b.nodes[j])
    ensures b.OtherRoots(w)
  {
    Transplant(b, w, z, y);
    b.SetLeft(w, y, zLeft);
    b.SetParent(w, zLeft, y);
    var zColor := b.ColorOf(w, z);
    b.SetColor(w, y, zColor);
  }

  // ----- a node with two children --------------------------------------------------------------------

  /** z, in focus, has two children, and its successor y is the root of yt, down the left of p. */
  ghost predicate Successor(zz: Zipper, p: Path, yt: Tree) {
    && zz.tree.Fork? && zz.tree.left.Fork? && zz.tree.right.Fork?
    && yt.Fork? && yt.left == Leaf && Before(p) == [] && Plug(p, yt) == zz.tree.right
  }

  /** The tree, seen from z's place, once y has left its own place and taken z's. */
  ghost function Promoted(zz: Zipper, p: Path, yt: Tree): Zipper
    requires Successor(zz, p, yt)
  {
    zz.(tree := Fork(zz.tree.left, yt.idx, zz.tree.color, Plug(p, yt.right)))
  }

  /** The same tree, seen from the subtree that y left behind. */
  ghost function LeftBehind(zz: Zipper, p: Path, yt: Tree): Zipper
    requires Successor(zz, p, yt)
  {
    Zipper(Join(p, Rights(zz.tree.left, yt.idx, zz.tree.color, zz.path)), yt.right)
  }

  /** line without the element at place k. */
  ghost function Without(line: seq<nat>, k: nat): seq<nat>
    requires k < |line|
  {
    line[..k] + line[k + 1..]
  }

  lemma PromotedLine(zz: Zipper, p: Path, yt: Tree, line: seq<nat>)
    requires Successor(zz, p, yt) && line == InOrder(Whole(zz))
    ensures Place(zz) < |line|
    ensures Before(zz.path) + InOrder(Promoted(zz, p, yt).tree) + After(zz.path) == Without(line, Place(zz))
  {
    hide InOrder, Before, After, Plug, Without;
    var (f, c, rest) := (zz.tree, zz.path, InOrder(Plug(p, yt.right)));
    PlugInOrder(c, f);
    SuccessorFirst(p, yt);
    ForkInOrder(f);
    ForkInOrder(Promoted(zz, p, yt).tree);
    Group(InOrder(f.left), [yt.idx], rest);
    Cut(Before(c), InOrder(f.left), f.idx, [yt.idx] + rest, After(c));
  }

  lemma ForkInOrder(t: Tree)
    requires t.Fork?
    ensures InOrder(t) == InOrder(t.left) + [t.idx] + InOrder(t.right)
  {
  }

  lemma Group<T>(a: seq<T>, b: seq<T>, c: seq<T>)
    ensures a + b + c == a + (b + c)
  {
  }

  lemma SuccessorFirst(p: Path, yt: Tree)
    requires Before(p) == [] && yt.Fork? && yt.left == Leaf
    ensures InOrder(Plug(p, yt)) == [yt.idx] + InOrder(Plug(p, yt.right))
  {
    hide InOrder, Before, After, Plug;
    PlugInOrder(p, yt);
    PlugInOrder(p, yt.right);
    LeftmostInOrder(yt);
    Shift(yt.idx, InOrder(yt.right), After(p));
  }

  lemma LeftmostInOrder(t: Tree)
    requires t.Fork? && t.left == Leaf
    ensures InOrder(t) == [t.idx] + InOrder(t.right)
  {
    assert [] + [t.idx] + InOrder(t.right) == [t.idx] + InOrder(t.right);
  }

  lemma Shift(y: nat, r: seq<nat>, e: seq<nat>)
    ensures [] + ([y] + r) + e == [y] + ([] + r + e)
  {
  }

  lemma Cut(a: seq<nat>, b: seq<nat>, z: nat, d: seq<nat>, e: seq<nat>)
    ensures Without(a + (b + [z] + d) + e, |a| + |b|) == a + (b + d) + e
  {
    var line := a + (b + [z] + d) + e;
    assert line == (a + b) + [z] + (d + e);
    assert line[..|a| + |b|] == a + b && line[|a| + |b| + 1..] == d + e;
  }

  lemma PromotedRules(zz: Zipper, p: Path, yt: Tree, h: int)
    requires Successor(zz, p, yt)
    requires Fits(Zipper(Join(p, DownRight(zz).path), yt), h)
    ensures if yt.color == Black then Deficient(LeftBehind(zz, p, yt), h - 1)
            else Fits(LeftBehind(zz, p, yt), h) && Hue(yt.right) == Black
  {
    SameRules(p, zz.tree.left, zz.tree.idx, yt.idx, zz.tree.color, zz.path, h);
    if yt.color == Black { assert RB(yt.right, h - 1); }
  }

  lemma PromotedHeld(s: Pool, w: Which, root: nat, zz: Zipper, p: Path, yt: Tree, own: set<nat>, line: seq<nat>)
    requires Successor(zz, p, yt) && Held(s, w, root, Promoted(zz, p, yt), own, line)
    ensures Held(s, w, root, LeftBehind(zz, p, yt), own, line)
  {
    HeldDown(s, w, root, Promoted(zz, p, yt), own, line);
    JoinDown(s, w, root, p, DownRight(Promoted(zz, p, yt)).path, yt.right, own, line);
  }

  /** y is z's right child. */
  method PromoteChild(b: Book, w: Which, z: nat, y: nat, zLeft: nat, ghost zz: Zipper, ghost yt: Tree,
                      ghost own: set<nat>, ghost line: seq<nat>)
    requires Held(b.nodes[..], w, b.RootOf(w), zz, own, line) && Successor(zz, Top, yt)
    requires z == zz.tree.idx && y == yt.idx && zLeft == zz.tree.left.idx
    modifies b.nodes, b`longRoot, b`shortRoot, b`seatRoot
    ensures Held(b.nodes[..], w, b.RootOf(w), Promoted(zz, Top, yt), own - {z},
                 Before(zz.path) + InOrder(Promoted(zz, Top, yt).tree) + After(zz.path))
    ensures LinksOnly(old(b.nodes[..]), b.nodes[..], own) && b.OtherRoots(w)
  {
    hide Held, Zip, Ids, PIds, Rep, PRep, Distinct, PDistinct, InOrder, Before, After, Plug;
    ghost var s, root := b.nodes[..], b.RootOf(w);
    ShapeHeld(s, w, root, zz, own, line);
    ChildApart(s, w, root, zz, yt, own, line);
    var x := b.Right(w, y);
    if x != 0 { b.SetParent(w, x, y); }
    assert b.nodes[..] == s;
    TakeOver(b, w, z, y, zLeft);
    PromotedChild(s, b.nodes[..], w, root, b.RootOf(w), zz, yt, own, line);
  }

  /** The pool in which y has left z's right but z still stands: the source never builds it. */
  ghost function WithoutChild(s: Pool, zz: Zipper, yt: Tree): Pool
    requires zz.tree.Fork? && yt.Fork? && zz.tree.idx < |s| && s[zz.tree.idx].Used?
    requires yt.right.Fork? ==> yt.right.idx < |s| && s[yt.right.idx].Used?
  {
    var s1 := s[zz.tree.idx := s[zz.tree.idx].(right := Root(yt.right))];
    if yt.right.Leaf? then s1 else s1[yt.right.idx := s[yt.right.idx].(parent := zz.tree.idx)]
  }

  lemma ChildGone(s: Pool, w: Which, root: nat, zz: Zipper, yt: Tree, own: set<nat>, line: seq<nat>)
    requires Held(s, w, root, zz, own, line) && Successor(zz, Top, yt)
    requires Apart(s, w, zz, yt)
    ensures var line2 := Before(DownRight(zz).path) + InOrder(yt.right) + After(DownRight(zz).path);
      Held(WithoutChild(s, zz, yt), w, root, zz.(tree := Fork(zz.tree.left, zz.tree.idx, zz.tree.color, yt.right)),
           own - {yt.idx}, line2)
  {
    var z := zz.tree.idx;
    HeldDown(s, w, root, zz, own, line);
    Shape(s, w, root, zz);
    Shape(s, w, root, DownRight(zz));
    hide Held, Zip, Ids, PIds, Rep, PRep, InOrder, Before, After;
    var s2 := WithoutChild(s, zz, yt);
    var line2 := Before(DownRight(zz).path) + InOrder(yt.right) + After(DownRight(zz).path);
    Spliced(s, s2, w, root, root, DownRight(zz), yt.right, own, line);
    HeldUp(s2, w, root, Zipper(DownRight(zz).path, yt.right), own - {yt.idx}, line2);
  }

  lemma PromotedChild(s: Pool, s': Pool, w: Which, root: nat, root': nat, zz: Zipper, yt: Tree, own: set<nat>,
                      line: seq<nat>)
    requires Held(s, w, root, zz, own, line) && Successor(zz, Top, yt)
    requires var f := zz.tree;
      && Rehung(s, s', root, root', zz.path, yt.idx)
      && Except(s, s', {yt.idx, f.left.idx, TopIdx(zz.path)})
      && Has(s, w, yt.idx) && Has(s, w, f.left.idx)
      && s'[yt.idx] == Used(f.left.idx, Root(yt.right), TopIdx(zz.path), f.color, s[yt.idx].data)
      && s'[f.left.idx] == s[f.left.idx].(parent := yt.idx)
    ensures Held(s', w, root', Promoted(zz, Top, yt), own - {zz.tree.idx},
                 Before(zz.path) + InOrder(Promoted(zz, Top, yt).tree) + After(zz.path))
  {
    var f, z, y, x := zz.tree, zz.tree.idx, yt.idx, yt.right;
    ChildApart(s, w, root, zz, yt, own, line);
    ChildGone(s, w, root, zz, yt, own, line);
    ChildPool(s, s', w, root, root', zz, yt);
    var s2, line2 := WithoutChild(s, zz, yt), Before(DownRight(zz).path) + InOrder(x) + After(DownRight(zz).path);
    hide Held, Zip, Ids, PIds, Rep, PRep, InOrder, Before, After, Rehung, WithoutChild, Except;
    Replaced(s2, s', w, root, root', zz.(tree := Fork(f.left, z, f.color, x)), y, own - {y}, line2);
    assert own - {y} - {z} + {y} == own - {z};
  }

  lemma ChildPool(s: Pool, s': Pool, w: Which, root: nat, root': nat, zz: Zipper, yt: Tree)
    requires zz.tree.Fork? && zz.tree.left.Fork? && yt.Fork? && Apart(s, w, zz, yt)
    requires var f := zz.tree;
      && Rehung(s, s', root, root', zz.path, yt.idx)
      && Except(s, s', {yt.idx, f.left.idx, TopIdx(zz.path)})
      && s'[yt.idx] == Used(f.left.idx, Root(yt.right), TopIdx(zz.path), f.color, s[yt.idx].data)
      && s'[f.left.idx] == s[f.left.idx].(parent := yt.idx)
    ensures var f, s2 := zz.tree, WithoutChild(s, zz, yt);
      && Rehung(s2, s', root, root', zz.path, yt.idx)
      && Except(s2, s', {f.idx, yt.idx, f.left.idx, Root(yt.right), TopIdx(zz.path)})
      && Has(s2, w, yt.idx) && s2[yt.idx].data == s[yt.idx].data
      && s'[f.left.idx] == s2[f.left.idx].(parent := yt.idx)
      && (yt.right.Fork? ==> s'[yt.right.idx] == s2[yt.right.idx].(parent := yt.idx))
  {
  }

  /** The slots a promotion writes are distinct. */
  ghost predicate Apart(s: Pool, w: Which, zz: Zipper, yt: Tree)
    requires zz.tree.Fork? && zz.tree.left.Fork? && yt.Fork?
  {
    var z, y, l, up := zz.tree.idx, yt.idx, zz.tree.left.idx, TopIdx(zz.path);
    && 0 < y && up != z && up != y && up != l && l != z && l != y && y != z
    && Has(s, w, z) && Has(s, w, y) && Has(s, w, l)
    && (yt.right.Fork? ==>
          var x := yt.right.idx;
          x != z && x != y && x != l && x != up && x != 0 && Has(s, w, x) && s[x].parent == y)
  }

  lemma ChildApart(s: Pool, w: Which, root: nat, zz: Zipper, yt: Tree, own: set<nat>, line: seq<nat>)
    requires Held(s, w, root, zz, own, line) && Successor(zz, Top, yt)
    ensures Apart(s, w, zz, yt) && s[yt.idx].right == Root(yt.right)
    ensures yt.idx in own && zz.tree.idx in own && zz.tree.left.idx in own
    ensures (TopIdx(zz.path) == 0 || TopIdx(zz.path) in own)
  {
    HeldDown(s, w, root, zz, own, line);
    Shape(s, w, root, zz);
    Shape(s, w, root, DownRight(zz));
    HeldDown(s, w, root, DownRight(zz), own, line);
    if yt.right.Fork? { Shape(s, w, root, DownRight(DownRight(zz))); }
    Parts(s, w, root, zz, own, line);
    Parts(s, w, root, DownRight(zz), own, line);
    hide Held, Zip, Rep, PRep, InOrder, Before, After;
  }

  lemma {:induction false} PlugRoot(p: Path, t: Tree, t': Tree)
    requires !p.Top?
    ensures Plug(p, t).Fork? && Root(Plug(p, t)) == Root(Plug(p, t'))
  {
    match p
    case Lefts(i, col, r, up) => if !up.Top? { PlugRoot(up, Fork(t, i, col, r), Fork(t', i, col, r)); }
    case Rights(l, i, col, up) => if !up.Top? { PlugRoot(up, Fork(l, i, col, t), Fork(l, i, col, t')); }
  }

  /** z's place once its successor, deeper down, has left its own. */
  ghost function Bereft(zz: Zipper, p: Path, yt: Tree): Zipper
    requires Successor(zz, p, yt)
  {
    zz.(tree := Fork(zz.tree.left, zz.tree.idx, zz.tree.color, Plug(p, yt.right)))
  }

  lemma BereftHeld(s: Pool, w: Which, root: nat, zz: Zipper, p: Path, yt: Tree, own: set<nat>, line: seq<nat>)
    requires Successor(zz, p, yt) && !p.Top?
    requires Held(s, w, root, Zipper(Join(p, DownRight(zz).path), yt.right), own, line)
    ensures var at := Bereft(zz, p, yt);
      Held(s, w, root, at, own, line) && at.tree.right.Fork? && at.tree.right.idx == zz.tree.right.idx
  {
    JoinUp(s, w, root, p, DownRight(zz).path, yt.right, own, line);
    HeldUp(s, w, root, Zipper(DownRight(zz).path, Plug(p, yt.right)), own, line);
    PlugRoot(p, yt.right, yt);
  }

  /** Links y, out of the tree, in z's stead. */
  method Adopt(b: Book, w: Which, z: nat, y: nat, zLeft: nat, zRight: nat, ghost at: Zipper, ghost own: set<nat>,
               ghost line: seq<nat>)
    requires Held(b.nodes[..], w, b.RootOf(w), at, own, line) && at.tree.Fork? && at.tree.left.Fork?
    requires at.tree.right.Fork?
    requires z == at.tree.idx && zLeft == at.tree.left.idx && zRight == at.tree.right.idx
    requires y != 0 && y !in own && b.Typed(w, y)
    modifies b.nodes, b`longRoot, b`shortRoot, b`seatRoot
    ensures var f := at.tree.(idx := y);
      Held(b.nodes[..], w, b.RootOf(w), at.(tree := f), own - {z} + {y}, Before(at.path) + InOrder(f) + After(at.path))
    ensures LinksOnly(old(b.nodes[..]), b.nodes[..], own + {y}) && b.OtherRoots(w)
  {
    hide Held, Zip, Ids, PIds, Rep, PRep, Distinct, PDistinct, InOrder, Before, After, Plug;
    ghost var s, root := b.nodes[..], b.RootOf(w);
    ShapeHeld(s, w, root, at, own, line);
    NeighboursOwned(s, w, root, at, own, line);
    b.SetRight(w, y, zRight);
    b.SetParent(w, zRight, y);
    TakeOver(b, w, z, y, zLeft);
    Replaced(s, b.nodes[..], w, root, b.RootOf(w), at, y, own, line);
  }

  lemma NeighboursOwned(s: Pool, w: Which, root: nat, at: Zipper, own: set<nat>, line: seq<nat>)
    requires Held(s, w, root, at, own, line) && at.tree.Fork?
    ensures at.tree.idx in own && (at.path.Top? || at.path.idx in own)
    ensures (at.tree.left.Fork? ==> at.tree.left.idx in own) && (at.tree.right.Fork? ==> at.tree.right.idx in own)
    ensures at.path.Top? || (at.path.idx != at.tree.idx && at.path.idx != Root(at.tree.left)
      && at.path.idx != Root(at.tree.right))
  {
  }

  /** y lies deeper than z's right child. */
  method PromoteDeep(b: Book, w: Which, z: nat, y: nat, zLeft: nat, zRight: nat, ghost zz: Zipper, ghost p: Path,
                     ghost yt: Tree, ghost own: set<nat>, ghost line: seq<nat>)
    requires Held(b.nodes[..], w, b.RootOf(w), zz, own, line) && Successor(zz, p, yt) && !p.Top?
    requires Held(b.nodes[..], w, b.RootOf(w), Zipper(Join(p, DownRight(zz).path), yt), own, line)
    requires z == zz.tree.idx && y == yt.idx && zLeft == zz.tree.left.idx && zRight == zz.tree.right.idx
    modifies b.nodes, b`longRoot, b`shortRoot, b`seatRoot
    ensures Held(b.nodes[..], w, b.RootOf(w), Promoted(zz, p, yt), own - {z},
                 Before(zz.path) + InOrder(Promoted(zz, p, yt).tree) + After(zz.path))
    ensures LinksOnly(old(b.nodes[..]), b.nodes[..], own) && b.OtherRoots(w)
  {
    ghost var s, at := b.nodes[..], Zipper(Join(p, DownRight(zz).path), yt);
    Shape(s, w, b.RootOf(w), at);
    InOwn(s, w, b.RootOf(w), zz, p, yt, own, line);
    hide Held, Zip, Ids, PIds, Rep, PRep, Distinct, PDistinct, InOrder, Before, After, Plug;
    var yRight := b.Right(w, y);
    SpliceOut(b, w, y, yRight, at, yt.right, own, line);
    ghost var s1 := b.nodes[..];
    ghost var line1 := Before(at.path) + InOrder(yt.right) + After(at.path);
    BereftHeld(s1, w, b.RootOf(w), zz, p, yt, own - {y}, line1);
    Adopt(b, w, z, y, zLeft, zRight, Bereft(zz, p, yt), own - {y}, line1);
    LinksTrans(s, s1, b.nodes[..], own);
  }

  lemma InOwn(s: Pool, w: Which, root: nat, zz: Zipper, p: Path, yt: Tree, own: set<nat>, line: seq<nat>)
    requires Held(s, w, root, zz, own, line) && Successor(zz, p, yt)
    ensures var y, z := yt.idx, zz.tree.idx;
      0 < y && y in own && own - {y} + {y} == own && own - {y} - {z} + {y} == own - {z}
  {
    PlugIds(p, yt);
    assert yt.idx in Ids(zz.tree.right) && zz.tree.idx !in Ids(zz.tree.right);
  }

  /** Both cases: y, the successor of z, is put in z's place. Returns y's old colour, and the child
      x that y left behind, with its new parent. */
  method Promote(b: Book, w: Which, z: nat, zLeft: nat, zRight: nat, ghost zz: Zipper, ghost own: set<nat>,
                 ghost line: seq<nat>, ghost h0: int)
      returns (yColor: Color, x: nat, xParent: nat, ghost at: Zipper, ghost h: int)
    requires Held(b.nodes[..], w, b.RootOf(w), zz, own, line) && Fits(zz, h0) && zz.tree.Fork?
    requires zz.tree.left.Fork? && zz.tree.right.Fork?
    requires z == zz.tree.idx && zLeft == zz.tree.left.idx && zRight == zz.tree.right.idx
    modifies b.nodes, b`longRoot, b`shortRoot, b`seatRoot
    ensures Place(zz) < |line| && Held(b.nodes[..], w, b.RootOf(w), at, own - {z}, Without(line, Place(zz)))
    ensures x == Root(at.tree) && xParent == TopIdx(at.path)
    ensures if yColor == Black then Deficient(at, h) else Fits(at, h) && Hue(at.tree) == Black
    ensures LinksOnly(old(b.nodes[..]), b.nodes[..], own) && b.OtherRoots(w)
  {
    hide Held, Fits, InOrder, Before, After, Plug, Whole, Place, Zip, Rep, PRep, Ids, PIds, RB, PRB;
    ghost var s, root := b.nodes[..], b.RootOf(w);
    HeldDown(s, w, root, zz, own, line);
    FitsDown(zz, h0);
    LineOf(s, w, root, zz, own, line);
    var y, p, yt, hy := TreeMinimum(b, w, zRight, DownRight(zz), own, line, Below(zz.tree, h0));
    ghost var yz := Zipper(Join(p, DownRight(zz).path), yt);
    assert Successor(zz, p, yt);
    ShapeHeld(s, w, root, yz, own, line);
    ParentIsZ(s, w, root, zz, p, yt, own, line);
    yColor := b.ColorOf(w, y);
    x := b.Right(w, y);
    xParent := b.Parent(w, y);
    if xParent == z {
      PlugTop(p, yt);
      xParent := y;
      PromoteChild(b, w, z, y, zLeft, zz, yt, own, line);
    } else {
      PromoteDeep(b, w, z, y, zLeft, zRight, zz, p, yt, own, line);
    }
    PromotedLine(zz, p, yt, line);
    PromotedRules(zz, p, yt, hy);
    at, h := LeftBehind(zz, p, yt), if yColor == Black then hy - 1 else hy;
    PromotedHeld(b.nodes[..], w, b.RootOf(w), zz, p, yt, own - {z}, Without(line, Place(zz)));
  }

  lemma LineOf(s: Pool, w: Which, root: nat, zz: Zipper, own: set<nat>, line: seq<nat>)
    requires Held(s, w, root, zz, own, line)
    ensures InOrder(Whole(zz)) == line
  {
  }

  lemma PlugTop(p: Path, t: Tree)
    requires p == Top
    ensures Plug(p, t) == t
  {
  }

  lemma ParentIsZ(s: Pool, w: Which, root: nat, zz: Zipper, p: Path, yt: Tree, own: set<nat>, line: seq<nat>)
    requires Successor(zz, p, yt) && Held(s, w, root, Zipper(Join(p, DownRight(zz).path), yt), own, line)
    ensures TopIdx(Join(p, DownRight(zz).path)) == zz.tree.idx <==> p == Top
    ensures TopIdx(LeftBehind(zz, p, yt).path) == if p == Top then yt.idx else TopIdx(Join(p, DownRight(zz).path))
  {
    JoinIdx(p, DownRight(zz).path);
  }

  /** Removes slot z from tree w: the tree stays a valid red-black search tree over the other slots,
      in the same order, and z's own slot keeps its contents. Only the null index is refused. */
  method Remove(b: Book, w: Which, z: nat, ghost t: Tree) returns (ok: bool, ghost t': Tree)
    requires SearchTree(b.nodes[..], w, b.RootOf(w), t) && (z == 0 || z in Ids(t))
    modifies b.nodes, b`longRoot, b`shortRoot, b`seatRoot
    ensures ok <==> z != 0
    ensures !ok ==> t' == t && b.nodes[..] == old(b.nodes[..]) && b.RootOf(w) == old(b.RootOf(w))
    ensures SearchTree(b.nodes[..], w, b.RootOf(w), t')
    ensures ok ==>
      && Ids(t') == Ids(t) - {z}
      && exists k :: 0 <= k < |InOrder(t)| && InOrder(t)[k] == z && InOrder(t') == Without(InOrder(t), k)
    ensures LinksOnly(old(b.nodes[..]), b.nodes[..], Ids(t)) && b.OtherRoots(w)
  {
    ghost var s, own, line := b.nodes[..], Ids(t), InOrder(t);
    ok, t' := false, t;
    LinksSame(s, own);
    if z == 0 { return; }
    var zz, h := LocateRoot(s, w, b.RootOf(w), t, z);
    t' := RemoveAt(b, w, z, zz, own, line, h);
    ok := true;
    Placed(zz);
    RemovedOrder(s, b.nodes[..], w, line, Place(zz));
    HeldNow(b.nodes[..], w, b.RootOf(w), t', own - {z}, Without(line, Place(zz)));
  }

  lemma LocateRoot(s: Pool, w: Which, root: nat, t: Tree, z: nat) returns (zz: Zipper, h: int)
    requires SearchTree(s, w, root, t) && z in Ids(t)
    ensures Held(s, w, root, zz, Ids(t), InOrder(t)) && Fits(zz, h) && zz.tree.Fork? && zz.tree.idx == z
  {
    var h0 :| RB(t, h0);
    zz, h := Locate(s, w, root, Zipper(Top, t), Ids(t), InOrder(t), h0, z);
  }

  lemma HeldNow(s: Pool, w: Which, root: nat, t: Tree, own: set<nat>, line: seq<nat>)
    requires Held(s, w, root, Zipper(Top, t), own, line)
    ensures Ids(t) == own && InOrder(t) == line
  {
  }

  lemma RemovedOrder(s: Pool, s': Pool, w: Which, line: seq<nat>, k: nat)
    requires Ordered(s, w, line) && k < |line|
    requires |s| == |s'| && forall i :: 0 <= i < |s| ==> Bare(s'[i]) == Bare(s[i])
    ensures Ordered(s', w, Without(line, k))
  {
    var line' := Without(line, k);
    forall j | 0 <= j < |line'|
      ensures line'[j] == line[if j < k then j else j + 1] && Has(s', w, line'[j])
      ensures s'[line'[j]].data == s[line'[j]].data
    {
      assert Bare(s'[line'[j]]) == Bare(s[line'[j]]);
    }
  }

  method RemoveAt(b: Book, w: Which, z: nat, ghost zz: Zipper, ghost own: set<nat>, ghost line: seq<nat>, ghost h0: int)
      returns (ghost t: Tree)
    requires Held(b.nodes[..], w, b.RootOf(w), zz, own, line) && Fits(zz, h0) && zz.tree.Fork? && z == zz.tree.idx
    modifies b.nodes, b`longRoot, b`shortRoot, b`seatRoot
    ensures Place(zz) < |line| && Held(b.nodes[..], w, b.RootOf(w), Zipper(Top, t), own - {z}, Without(line, Place(zz)))
    ensures Balanced(t)
    ensures LinksOnly(old(b.nodes[..]), b.nodes[..], own) && b.OtherRoots(w)
  {
    ghost var s := b.nodes[..];
    Shape(s, w, b.RootOf(w), zz);
    Placed(zz);
    hide Held, Fits, Deficient, InOrder, Before, After, Plug, Whole, Place, LinksOnly, Zip, Ids, PIds;
    var yColor := b.ColorOf(w, z);
    var x, xParent;
    ghost var at, h;
    var zLeft := b.Left(w, z);
    var zRight := b.Right(w, z);
    if zLeft == 0 {
      x := zRight;
      xParent, at, h := Shortcut(b, w, z, zRight, zz, zz.tree.right, own, line, h0);
    } else if zRight == 0 {
      x := zLeft;
      xParent, at, h := Shortcut(b, w, z, zLeft, zz, zz.tree.left, own, line, h0);
    } else {
      yColor, x, xParent, at, h := Promote(b, w, z, zLeft, zRight, zz, own, line, h0);
    }
    ghost var s1 := b.nodes[..];
    if yColor == Black {
      t := RemoveFixup(b, w, x, xParent, at, own - {z}, Without(line, Place(zz)), h);
    } else {
      FitsWhole(b.nodes[..], w, b.RootOf(w), at, own - {z}, Without(line, Place(zz)), h);
      LinksSame(s1, own - {z});
      t := Whole(at);
    }
    LinksWiden(s, s1, b.nodes[..], own - {z}, own);
  }

  lemma FitsWhole(s: Pool, w: Which, root: nat, at: Zipper, own: set<nat>, line: seq<nat>, h: int)
    requires Held(s, w, root, at, own, line) && Fits(at, h) && Hue(at.tree) == Black
    ensures Held(s, w, root, Zipper(Top, Whole(at)), own, line) && Balanced(Whole(at))
  {
    HeldTop(s, w, root, at, own, line);
    PlugBalanced(at.path, at.tree, h);
  }

  lemma LinksWiden(s: Pool, s': Pool, s'': Pool, small: set<nat>, own: set<nat>)
    requires LinksOnly(s, s', own) && LinksOnly(s', s'', small) && small <= own
    ensures LinksOnly(s, s'', own)
  {
  }

  /** A node with at most one child v: transplants v into its place. */
  method Shortcut(b: Book, w: Which, z: nat, v: nat, ghost zz: Zipper, ghost vt: Tree, ghost own: set<nat>,
                  ghost line: seq<nat>, ghost h0: int)
      returns (xParent: nat, ghost at: Zipper, ghost h: int)
    requires Held(b.nodes[..], w, b.RootOf(w), zz, own, line) && Fits(zz, h0) && zz.tree.Fork? && z == zz.tree.idx
    requires v == Root(vt)
    requires (zz.tree.left == Leaf && vt == zz.tree.right) || (zz.tree.right == Leaf && vt == zz.tree.left)
    modifies b.nodes, b`longRoot, b`shortRoot, b`seatRoot
    ensures Place(zz) < |line| && Held(b.nodes[..], w, b.RootOf(w), at, own - {z}, Without(line, Place(zz)))
    ensures v == Root(at.tree) && xParent == TopIdx(at.path)
    ensures if zz.tree.color == Black then Deficient(at, h) else Fits(at, h) && Hue(at.tree) == Black
    ensures LinksOnly(old(b.nodes[..]), b.nodes[..], own) && b.OtherRoots(w)
  {
    Shape(b.nodes[..], w, b.RootOf(w), zz);
    SplicedLine(zz, vt, line);
    hide Held, InOrder, Before, After, Plug, Whole, Place, LinksOnly, Zip, Ids, PIds;
    var zp := b.Parent(w, z);
    SpliceOut(b, w, z, v, zz, vt, own, line);
    xParent := if v == 0 then zp else b.Parent(w, v);
    at, h := Zipper(zz.path, vt), Below(zz.tree, h0);
    if zz.tree.color == Black && vt.Fork? { assert RB(vt, h); }
  }

  lemma SplicedLine(zz: Zipper, v: Tree, line: seq<nat>)
    requires zz.tree.Fork? && line == InOrder(Whole(zz))
    requires (zz.tree.left == Leaf && v == zz.tree.right) || (zz.tree.right == Leaf && v == zz.tree.left)
    ensures Place(zz) < |line|
    ensures Before(zz.path) + InOrder(v) + After(zz.path) == Without(line, Place(zz))
  {
    hide Without, Before, After, Plug;
    PlugInOrder(zz.path, zz.tree);
    Cut(Before(zz.path), InOrder(zz.tree.left), zz.tree.idx, InOrder(zz.tree.right), After(zz.path));
    assert InOrder(v) == InOrder(zz.tree.left) + InOrder(zz.tree.right);
  }
}
