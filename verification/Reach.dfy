/** How far a lookup reaches in a tree where siblings may begin with the same block. */
module Reach {
  import opened KvTree
  import opened KvHolds

  // ---- which segment covers a depth ----

  /** The segment on the path to i that holds the block at depth q. */
  ghost function Cover(c: Tree, plays: seq<Play>, i: int, q: nat): (x: int)
    requires Inv(c, plays) && i in c && q < End(c[i])
    ensures x in c && c[x].start <= q < End(c[x]) && c[x].play == c[i].play && c[x].parent != -1 && c[x].nblocks > 0
    ensures PathBlock(c, plays, i, q) == BlockAt(c[x], plays, q)
    decreases Height(c[i])
  {
    if q >= c[i].start then i
    else
      ParentAt(c, i);
      Cover(c, plays, c[i].parent, q)
  }

  ghost function BlockAt(n: Seg, plays: seq<Play>, q: nat): nat {
    if SliceOk(n, plays) && n.nblocks > 0 && n.start <= q < End(n) then BlockOf(plays[n.play], n.src, q) else 0
  }

  lemma {:induction false} CoverStep(c: Tree, plays: seq<Play>, i: int, q: nat)
    requires Inv(c, plays) && i in c && 0 < q < End(c[i])
    ensures var x, y := Cover(c, plays, i, q), Cover(c, plays, i, q - 1);
      if c[x].start < q then y == x else y == c[x].parent
    decreases Height(c[i])
  {
    if q < c[i].start {
      ParentAt(c, i);
      CoverStep(c, plays, c[i].parent, q);
    } else if q == c[i].start {
      ParentAt(c, i);
    }
  }

  /** A play has one root. */
  ghost predicate SingleRoots(c: Tree) {
    forall i, j {:trigger c[i].parent, c[j].parent} :: i in c && j in c && c[i].parent == -1 && c[j].parent == -1 ==>
      c[i].play != c[j].play || i == j
  }

  /** No two children of one segment begin with the same block, and a play has one root. */
  ghost predicate Radix(c: Tree, plays: seq<Play>) {
    && (forall i, j {:trigger c[i].parent, c[j].parent} :: i in c && j in c && i != j ==> !Twins(c, plays, i, j))
    && SingleRoots(c)
  }

  ghost predicate Twins(c: Tree, plays: seq<Play>, i: int, j: int)
    requires i in c && j in c
  {
    c[i].parent == c[j].parent != -1 && c[i].nblocks > 0 && c[j].nblocks > 0 &&
    FirstBlock(c[i], plays) == FirstBlock(c[j], plays)
  }

  ghost function FirstBlock(n: Seg, plays: seq<Play>): nat {
    BlockAt(n, plays, n.start)
  }

  ghost predicate SamePrefix(c: Tree, plays: seq<Play>, i: int, j: int, n: nat)
    requires Inv(c, plays) && i in c && j in c && n <= End(c[i]) && n <= End(c[j])
  {
    forall q {:trigger PathBlock(c, plays, i, q)} :: 0 <= q < n ==>
      PathBlock(c, plays, i, q) == PathBlock(c, plays, j, q)
  }

  lemma UpperEnd(c: Tree, plays: seq<Play>, x: int)
    requires Inv(c, plays) && x in c && c[x].parent != -1
    ensures c[x].parent in c && End(c[c[x].parent]) == c[x].start
  {
  }

  lemma TopParent(c: Tree, plays: seq<Play>, x: int)
    requires Inv(c, plays) && x in c && c[x].start == 0 && c[x].parent != -1
    ensures c[x].parent in c && c[c[x].parent].parent == -1 && c[c[x].parent].play == c[x].play
  {
  }

  /** A covering segment is a child of its parent and holds a block of its source. */
  lemma Holds(c: Tree, plays: seq<Play>, y: int, q: nat)
    requires Inv(c, plays) && y in c && c[y].parent != -1 && c[y].start <= q < End(c[y])
    ensures SliceOk(c[y], plays) && c[y].parent in c && y in c[c[y].parent].kids && End(c[c[y].parent]) == c[y].start
    ensures BlockAt(c[y], plays, q) == BlockOf(plays[c[y].play], c[y].src, q)
  {
  }

  lemma CoverSelf(c: Tree, plays: seq<Play>, i: int, q: nat)
    requires Inv(c, plays) && i in c && c[i].start <= q < End(c[i])
    ensures Cover(c, plays, i, q) == i
  {
  }

  /** The tree goes on with block `want` where the match h ended. */
  ghost predicate Continues(c: Tree, plays: seq<Play>, h: Hit, want: nat)
    requires h.node in c
  {
    var n := c[h.node];
    if n.parent != -1 && h.off < n.nblocks
    then SliceOk(n, plays) && n.nblocks > 0 && n.start <= h.blocks < End(n) &&
      BlockOf(plays[n.play], n.src, h.blocks) == want
    else exists k :: k in n.kids && k in c && StartsWith(c[k], plays, want)
  }

  lemma HitBound(c: Tree, plays: seq<Play>, h: Hit, play: nat, r: nat)
    requires Inv(c, plays) && GoodReq(plays, play, r) && Found(c, plays, h, play, r)
    ensures h.blocks <= plays[play].reqs[r].count && h.blocks <= End(c[h.node])
  {
  }

  lemma DeepestStops(c: Tree, plays: seq<Play>, h: Hit, play: nat, r: nat)
    requires Inv(c, plays) && GoodReq(plays, play, r) && Found(c, plays, h, play, r) &&
      h.blocks < plays[play].reqs[r].count
    ensures !Continues(c, plays, h, BlockOf(plays[play], r, h.blocks))
  {
  }

  // ---- how far a lookup reaches ----

  lemma {:induction false} CoverFirst(c: Tree, plays: seq<Play>, i: int, q: nat)
    requires Inv(c, plays) && i in c && q < End(c[i]) && FirstPath(c, plays, i)
    ensures FirstPath(c, plays, Cover(c, plays, i, q))
    decreases Height(c[i])
  {
    hide FirstHere, PathBlock, BlockAt;
    if q < c[i].start {
      ParentAt(c, i);
      CoverFirst(c, plays, c[i].parent, q);
    }
  }

  /** Two children of one segment that are both the first to begin with a block are one. */
  lemma OneFirst(c: Tree, plays: seq<Play>, x: int, y: int, q: nat)
    requires Inv(c, plays) && SingleRoots(c) && x in c && y in c && c[x].nblocks > 0 && c[y].nblocks > 0 &&
      c[x].parent != -1
    requires c[x].start == c[y].start == q && BlockAt(c[x], plays, q) == BlockAt(c[y], plays, q)
    requires FirstHere(c, plays, x) && FirstHere(c, plays, y)
    requires c[x].parent == c[y].parent || (c[x].parent in c && c[y].parent in c && c[c[x].parent].parent == -1 &&
      c[c[y].parent].parent == -1 && c[c[x].parent].play == c[c[y].parent].play)
    ensures x == y
  {
    hide Tiers, Pinning;
    SliceAt(c, plays, x);
    SliceAt(c, plays, y);
    var p, want := c[x].parent, BlockAt(c[x], plays, q);
    assert c[y].parent == p;
    var m :| 0 <= m < |c[p].kids| && c[p].kids[m] == x && NoneBefore(c, plays, p, want, m);
    var n :| 0 <= n < |c[p].kids| && c[p].kids[n] == y && NoneBefore(c, plays, p, want, n);
    assert StartsWith(c[x], plays, want) && StartsWith(c[y], plays, want);
    assert c[p].kids[m] == x && c[p].kids[n] == y;
  }

  /** Paths along first children that agree down to depth q run through the same segment there. */
  lemma {:induction false} FirstCover(c: Tree, plays: seq<Play>, i: int, j: int, q: nat)
    requires Inv(c, plays) && SingleRoots(c) && i in c && j in c && c[i].play == c[j].play
    requires FirstPath(c, plays, i) && FirstPath(c, plays, j)
    requires q < End(c[i]) && q < End(c[j]) && SamePrefix(c, plays, i, j, q + 1)
    ensures Cover(c, plays, i, q) == Cover(c, plays, j, q)
    decreases q
  {
    hide Inv, Cover, PathBlock, BlockAt, SingleRoots, FirstHere;
    var x, y := Cover(c, plays, i, q), Cover(c, plays, j, q);
    CoverFirst(c, plays, i, q);
    CoverFirst(c, plays, j, q);
    assert FirstHere(c, plays, x) && FirstHere(c, plays, y);
    assert PathBlock(c, plays, i, q) == PathBlock(c, plays, j, q);
    if q == 0 {
      TopParent(c, plays, x);
      TopParent(c, plays, y);
      OneFirst(c, plays, x, y, q);
    } else {
      FirstCover(c, plays, i, j, q - 1);
      CoverStep(c, plays, i, q);
      CoverStep(c, plays, j, q);
      if c[x].start == q && c[y].start == q { OneFirst(c, plays, x, y, q); }
      if c[x].start == q { UpperEnd(c, plays, x); }
      if c[y].start == q { UpperEnd(c, plays, y); }
    }
  }

  /** A path along first children that agrees with the prompt further than a match continues the match. */
  lemma FirstContinues(c: Tree, plays: seq<Play>, h: Hit, play: nat, r: nat, n: int)
    requires Inv(c, plays) && SingleRoots(c) && h.node in c && c[h.node].play == play && HitAt(c[h.node], h)
    requires GoodReq(plays, play, r) && PathIs(c, plays, h.node, r, h.blocks) && h.blocks < plays[play].reqs[r].count
    requires n in c && c[n].play == play && PathIs(c, plays, n, r, h.blocks + 1)
    requires FirstPath(c, plays, h.node) && FirstPath(c, plays, n)
    ensures Continues(c, plays, h, BlockOf(plays[play], r, h.blocks))
  {
    hide Inv, SingleRoots, Cover, PathBlock, Chained, BlockAt, FirstPath;
    var q := h.blocks;
    var y := Cover(c, plays, n, q);
    assert PathBlock(c, plays, n, q) == BlockOf(plays[play], r, q);
    forall k: nat | k < q
      ensures PathBlock(c, plays, h.node, k) == PathBlock(c, plays, n, k)
    {
      assert PathBlock(c, plays, h.node, k) == BlockOf(plays[play], r, k);
      assert PathBlock(c, plays, n, k) == BlockOf(plays[play], r, k);
    }
    Holds(c, plays, y, q);
    if q > 0 {
      FirstCover(c, plays, h.node, n, q - 1);
      CoverSelf(c, plays, h.node, q - 1);
      CoverStep(c, plays, n, q);
    } else {
      TopParent(c, plays, y);
      OnlyRoot(c, c[y].parent, h.node);
    }
  }

  lemma OnlyRoot(c: Tree, i: int, j: int)
    requires SingleRoots(c) && i in c && j in c && c[i].parent == -1 && c[j].parent == -1 && c[i].play == c[j].play
    ensures i == j
  {
  }

  /** A lookup reaches as far as any resident path along first children: a longer resident prefix lies behind a child
      that an earlier sibling shadows. */
  lemma ReachesFirst(c: Tree, plays: seq<Play>, h: Hit, play: nat, r: nat, n: int, k: nat)
    requires Inv(c, plays) && SingleRoots(c) && GoodReq(plays, play, r) && Found(c, plays, h, play, r)
    requires n in c && c[n].play == play && PathIs(c, plays, n, r, k) && FirstPath(c, plays, n)
    ensures k <= h.blocks
  {
    hide Inv, SingleRoots, PathBlock, Chained, Continues, FirstPath, Deepest;
    if k > h.blocks {
      ShorterPathIs(c, plays, n, r, k, h.blocks + 1);
      FirstContinues(c, plays, h, play, r, n);
      DeepestStops(c, plays, h, play, r);
    }
  }

  lemma {:induction false} RadixFirst(c: Tree, plays: seq<Play>, n: int)
    requires Inv(c, plays) && Radix(c, plays) && n in c
    ensures FirstPath(c, plays, n)
    decreases Height(c[n])
  {
    hide Radix, FirstHere, Tiers, Pinning;
    RadixHere(c, plays, n);
    if c[n].parent != -1 {
      ParentAt(c, n);
      RadixFirst(c, plays, c[n].parent);
    }
  }

  lemma RadixHere(c: Tree, plays: seq<Play>, n: int)
    requires Inv(c, plays) && Radix(c, plays) && n in c
    ensures FirstHere(c, plays, n)
  {
    hide Tiers, Pinning;
    if c[n].parent != -1 && c[n].nblocks > 0 {
      var p, want := c[n].parent, BlockOf(plays[c[n].play], c[n].src, c[n].start);
      SliceAt(c, plays, n);
      ParentAt(c, n);
      var m :| 0 <= m < |c[p].kids| && c[p].kids[m] == n;
      forall k | 0 <= k < m && c[p].kids[k] in c
        ensures !StartsWith(c[c[p].kids[k]], plays, want)
      {
        var x := c[p].kids[k];
        KidsNoDup(c, p);
        assert x in c[p].kids && x != n && c[x].parent == p;
        assert !Twins(c, plays, x, n);
      }
      assert NoneBefore(c, plays, p, want, m);
    }
  }

  lemma RadixSingle(c: Tree, plays: seq<Play>)
    requires Radix(c, plays)
    ensures SingleRoots(c)
  {
  }

  /** In a tree with one way to every block a lookup finds the deepest resident prefix. */
  lemma RadixDeepest(c: Tree, plays: seq<Play>, h: Hit, play: nat, r: nat, n: int, k: nat)
    requires Inv(c, plays) && Radix(c, plays) && GoodReq(plays, play, r) && Found(c, plays, h, play, r)
    requires n in c && c[n].play == play && PathIs(c, plays, n, r, k)
    ensures k <= h.blocks
  {
    RadixFirst(c, plays, n);
    ReachesFirst(c, plays, h, play, r, n, k);
  }

  /** A lookup misses a longer resident prefix exactly when one lies behind a shadowed child. */
  lemma MissesExactly(c: Tree, plays: seq<Play>, h: Hit, play: nat, r: nat)
    requires Inv(c, plays) && SingleRoots(c) && GoodReq(plays, play, r) && Found(c, plays, h, play, r)
    ensures (exists n: int :: Longer(c, plays, h, play, r, n)) <==>
            (exists n: int :: Longer(c, plays, h, play, r, n) && !FirstPath(c, plays, n))
  {
    hide PathIs, Found;
    if n: int :| Longer(c, plays, h, play, r, n) {
      if FirstPath(c, plays, n) { ReachesFirst(c, plays, h, play, r, n, h.blocks + 1); }
    }
  }

  /** Segment n's path agrees with the prompt further than the match. */
  ghost predicate Longer(c: Tree, plays: seq<Play>, h: Hit, play: nat, r: nat, n: int)
    requires Inv(c, plays)
  {
    n in c && c[n].play == play && PathIs(c, plays, n, r, h.blocks + 1)
  }

  /** The answer of a lookup is determined by the tree. */
  lemma FoundUnique(c: Tree, plays: seq<Play>, h: Hit, g: Hit, play: nat, r: nat)
    requires Inv(c, plays) && SingleRoots(c) && GoodReq(plays, play, r) && Found(c, plays, h, play, r) &&
      Found(c, plays, g, play, r)
    ensures h == g
  {
    hide Inv, SingleRoots, PathBlock, Chained, FirstPath, Deepest, Cover, BlockAt;
    ReachesFirst(c, plays, h, play, r, g.node, g.blocks);
    ReachesFirst(c, plays, g, play, r, h.node, h.blocks);
    var q := h.blocks;
    if q == 0 {
      OnlyRoot(c, h.node, g.node);
    } else {
      forall k: nat | k < q
        ensures PathBlock(c, plays, h.node, k) == PathBlock(c, plays, g.node, k)
      {
        assert PathBlock(c, plays, h.node, k) == BlockOf(plays[play], r, k);
        assert PathBlock(c, plays, g.node, k) == BlockOf(plays[play], r, k);
      }
      HitBound(c, plays, h, play, r);
      HitBound(c, plays, g, play, r);
      FirstCover(c, plays, h.node, g.node, q - 1);
      CoverSelf(c, plays, h.node, q - 1);
      CoverSelf(c, plays, g.node, q - 1);
    }
  }
}
