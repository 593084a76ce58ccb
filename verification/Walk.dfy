/** The in-order walk over a tree with a fixed stack, and why the stack is large enough. */
module Walk {
  import opened Nodes
  import opened Trees
  import opened IntentBook

  const STACK_CAP: nat := 64

  ghost function Height(t: Tree): nat {
    if t.Leaf? then 0 else 1 + if Height(t.left) > Height(t.right) then Height(t.left) else Height(t.right)
  }

  ghost function Pow2(n: nat): nat { if n == 0 then 1 else 2 * Pow2(n - 1) }

  lemma {:induction false} Pow2Grows(m: nat, n: nat)
    requires m <= n
    ensures Pow2(m) <= Pow2(n)
  {
    if m < n { Pow2Grows(m, n - 1); }
  }

  /** At most two levels for each black one, and at least a full black tree of slots. */
  lemma {:induction false} HeightBound(t: Tree, h: int)
    requires RB(t, h) && Distinct(t)
    ensures h >= 0 && Height(t) <= 2 * h + (if Hue(t) == Red then 1 else 0)
    ensures |Ids(t)| + 1 >= Pow2(h)
  {
    if t.Fork? {
      HeightBound(t.left, Below(t, h));
      HeightBound(t.right, Below(t, h));
      assert |Ids(t.left) + {t.idx} + Ids(t.right)| == |Ids(t.left)| + 1 + |Ids(t.right)|;
    }
  }

  lemma {:induction false} InRange(ids: set<nat>, n: nat)
    requires forall i :: i in ids ==> 0 < i < n
    ensures n > 0 ==> |ids| <= n - 1
    ensures n == 0 ==> |ids| == 0
  {
    if n <= 1 {
      assert ids == {};
    } else {
      InRange(ids - {n - 1}, n - 1);
      assert ids <= (ids - {n - 1}) + {n - 1};
      assert |ids| <= |(ids - {n - 1}) + {n - 1}| <= |ids - {n - 1}| + 1;
    }
  }

  lemma {:induction false} IdsInPool(s: Pool, w: Which, t: Tree, p: nat)
    requires Rep(s, w, t, p)
    ensures forall i :: i in Ids(t) ==> 0 < i < |s| && Has(s, w, i)
  {
    if t.Fork? {
      IdsInPool(s, w, t.left, t.idx);
      IdsInPool(s, w, t.right, t.idx);
    }
  }

  /** A tree in a pool of fewer than 2^32 slots is at most 62 high. */
  lemma SearchTreeHeight(s: Pool, w: Which, root: nat, t: Tree)
    requires SearchTree(s, w, root, t) && |s| < 0x1_0000_0000
    ensures Height(t) <= 62
  {
    var h :| RB(t, h);
    HeightBound(t, h);
    IdsInPool(s, w, t, 0);
    InRange(Ids(t), |s|);
    if h >= 32 { FourBillion(h); }
  }

  lemma FourBillion(h: nat)
    requires h >= 32
    ensures Pow2(h) >= 0x1_0000_0000
  {
    assert Pow2(8) == 256 && Pow2(16) == 65536 && Pow2(24) == 16777216 && Pow2(32) == 0x1_0000_0000;
    Pow2Grows(32, h);
  }

  // ----- the walk ------------------------------------------------------------------------------------

  /** t stands in pool s, wherever it hangs. */
  ghost predicate Stands(s: Pool, w: Which, t: Tree) {
    t.Fork? ==> Has(s, w, t.idx) && Rep(s, w, t, s[t.idx].parent)
  }

  /** What the stacked nodes still have to yield: each one, then its right subtree, top first. */
  ghost function Pending(ts: seq<Tree>): seq<nat> {
    if ts == [] then [] else
      var top := ts[|ts| - 1];
      if top.Leaf? then Pending(ts[..|ts| - 1]) else [top.idx] + InOrder(top.right) + Pending(ts[..|ts| - 1])
  }

  /** The array stack[..|ts|] holds the roots of ts, each shallow enough for where it lies. */
  ghost predicate Stacked(s: Pool, w: Which, stack: seq<nat>, ts: seq<Tree>) {
    && |ts| <= |stack|
    && forall k :: 0 <= k < |ts| ==>
      ts[k].Fork? && stack[k] == ts[k].idx && Stands(s, w, ts[k]) && k + Height(ts[k]) <= 62
  }

  /** Mid-walk: ct is to be entered, ts are stacked, and what is still to come follows what was seen. */
  ghost predicate Walking(s: Pool, w: Which, line: seq<nat>, seen: seq<nat>, ts: seq<Tree>, ct: Tree) {
    && Stands(s, w, ct) && |ts| + Height(ct) <= 62
    && seen + (InOrder(ct) + Pending(ts)) == line
  }

  lemma Push(s: Pool, w: Which, line: seq<nat>, seen: seq<nat>, ts: seq<Tree>, ct: Tree)
    requires Walking(s, w, line, seen, ts, ct) && ct.Fork?
    ensures Has(s, w, ct.idx) && ct.idx != 0 && s[ct.idx].left == Root(ct.left) && |ts| < 62
    ensures Walking(s, w, line, seen, ts + [ct], ct.left)
  {
    assert Rep(s, w, ct.left, ct.idx);
    assert (ts + [ct])[..|ts|] == ts;
    assert InOrder(ct) + Pending(ts) == InOrder(ct.left) + ([ct.idx] + InOrder(ct.right) + Pending(ts));
  }

  lemma Pop(s: Pool, w: Which, line: seq<nat>, seen: seq<nat>, stack: seq<nat>, ts: seq<Tree>)
    requires Walking(s, w, line, seen, ts, Leaf) && ts != [] && Stacked(s, w, stack, ts)
    ensures var top := ts[|ts| - 1];
      && top.Fork? && stack[|ts| - 1] == top.idx && Stacked(s, w, stack, ts[..|ts| - 1])
      && Has(s, w, top.idx) && top.idx != 0 && s[top.idx].right == Root(top.right)
      && Walking(s, w, line, seen + [top.idx], ts[..|ts| - 1], top.right)
      && seen + [top.idx] <= line
  {
    var top, rest := ts[|ts| - 1], Pending(ts[..|ts| - 1]);
    assert Rep(s, w, top.right, top.idx);
    assert seen + (InOrder(Leaf) + Pending(ts)) == seen + ([top.idx] + InOrder(top.right) + rest);
    assert seen + ([top.idx] + InOrder(top.right) + rest) == seen + [top.idx] + (InOrder(top.right) + rest);
  }

  lemma WalkStart(s: Pool, w: Which, root: nat, t: Tree)
    requires SearchTree(s, w, root, t)
    ensures root == Root(t) && (root == 0 ==> InOrder(t) == []) && forall stack: seq<nat> :: Stacked(s, w, stack, [])
    ensures |s| < 0x1_0000_0000 ==> Walking(s, w, InOrder(t), [], [], t)
  {
    if |s| < 0x1_0000_0000 { SearchTreeHeight(s, w, root, t); }
  }

  /** Visits tree w in order until the visitor declines to go on. `seen` lists the indices visited.
      The walk does not run out of stack. */
  method ForEachBestFirst(b: Book, w: Which, goOn: Data -> bool, ghost t: Tree) returns (seen: seq<nat>)
    requires SearchTree(b.nodes[..], w, b.RootOf(w), t) && b.nodes.Length < 0x1_0000_0000
    ensures forall k :: 0 <= k < |seen| ==> b.Typed(w, seen[k])
    ensures seen <= InOrder(t)
    ensures forall k :: 0 <= k < |seen| - 1 ==> goOn(b.nodes[seen[k]].data)
    ensures seen != InOrder(t) ==> seen != [] && !goOn(b.nodes[seen[|seen| - 1]].data)
  {
    hide Stacked, InOrder, Pending, Height, Rep, PRep, Distinct, PDistinct, Balanced, Ordered;
    ghost var s, line := b.nodes[..], InOrder(t);
    seen := [];
    var root := b.RootOf(w);
    WalkStart(s, w, root, t);
    hide Walking, Stands, SearchTree, Held, Zip, Ids, PIds;
    if root == 0 { return; }
    SearchTreeHeight(s, w, root, t);
    var stack := new nat[STACK_CAP](_ => 0);
    var sp := 0;
    var cur := root;
    ghost var ts: seq<Tree>, ct := [], t;
    while true
      invariant sp == |ts| <= STACK_CAP && Stacked(s, w, stack[..], ts)
      invariant Walking(s, w, line, seen, ts, ct) && cur == Root(ct)
      invariant seen <= line && forall k :: 0 <= k < |seen| ==> b.Typed(w, seen[k]) && goOn(b.nodes[seen[k]].data)
      decreases |line| - |seen|
    {
      sp, ts := PushLefts(b, w, stack, sp, cur, line, seen, ts, ct);
      if sp == 0 {
        WalkOver(s, w, line, seen);
        return;
      }
      sp := sp - 1;
      var top := stack[sp];
      Pop(s, w, line, seen, stack[..], ts);
      seen := seen + [top];
      if !goOn(b.nodes[top].data) { return; }
      ts, ct := ts[..sp], ts[sp].right;
      cur := b.Right(w, top);
    }
  }

  /** The inner loop: stacks the nodes down the left of cur. */
  method PushLefts(b: Book, w: Which, stack: array<nat>, sp0: nat, cur0: nat, ghost line: seq<nat>,
                   ghost seen: seq<nat>, ghost ts0: seq<Tree>, ghost ct0: Tree)
      returns (sp: nat, ghost ts: seq<Tree>)
    requires sp0 == |ts0| && stack.Length == STACK_CAP && Stacked(b.nodes[..], w, stack[..], ts0)
    requires Walking(b.nodes[..], w, line, seen, ts0, ct0) && cur0 == Root(ct0)
    modifies stack
    ensures sp == |ts| <= STACK_CAP && Stacked(b.nodes[..], w, stack[..], ts)
    ensures Walking(b.nodes[..], w, line, seen, ts, Leaf)
  {
    ghost var s, ct := b.nodes[..], ct0;
    var cur := cur0;
    sp, ts := sp0, ts0;
    hide Walking, Stands, InOrder, Pending, Height, Stacked;
    StackFits(s, w, stack[..], ts);
    while cur != 0
      invariant sp == |ts| <= STACK_CAP && Stacked(s, w, stack[..], ts)
      invariant Walking(s, w, line, seen, ts, ct) && cur == Root(ct)
      decreases ct
    {
      Push(s, w, line, seen, ts, ct);
      assert sp < STACK_CAP; // so the overflow branch is never taken
      StackGrows(s, w, line, seen, stack[..], ts, ct);
      stack[sp] := cur;
      sp := sp + 1;
      ts, ct := ts + [ct], ct.left;
      cur := b.Left(w, cur);
    }
    RootIsFork(s, w, line, seen, ts, ct);
  }

  lemma RootIsFork(s: Pool, w: Which, line: seq<nat>, seen: seq<nat>, ts: seq<Tree>, ct: Tree)
    requires Walking(s, w, line, seen, ts, ct) && Root(ct) == 0
    ensures ct == Leaf
  {
  }

  lemma WalkOver(s: Pool, w: Which, line: seq<nat>, seen: seq<nat>)
    requires Walking(s, w, line, seen, [], Leaf)
    ensures seen == line
  {
    assert seen + ([] + []) == seen;
  }

  lemma StackFits(s: Pool, w: Which, stack: seq<nat>, ts: seq<Tree>)
    requires Stacked(s, w, stack, ts)
    ensures |ts| <= |stack|
  {
  }

  lemma StackGrows(s: Pool, w: Which, line: seq<nat>, seen: seq<nat>, stack: seq<nat>, ts: seq<Tree>, ct: Tree)
    requires Walking(s, w, line, seen, ts, ct) && ct.Fork? && Stacked(s, w, stack, ts) && |ts| < |stack|
    ensures Stacked(s, w, stack[|ts| := ct.idx], ts + [ct])
  {
  }
}
