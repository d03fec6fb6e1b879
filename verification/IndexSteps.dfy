/** How the radix index changes as prompts enter it one at a time: what it holds, and what of it a lookup can find. */
module IndexSteps {
  import opened KvTree
  import opened KvHolds
  import opened Reach
  import opened SeenSets

  // ---- the blocks a lookup can find ----

  /** Segment n holds block `id` at depth q, and lookups of it come along n's path. */
  ghost predicate ShownBy(c: Tree, plays: seq<Play>, n: int, q: nat, id: nat)
    requires Shape(c) && n in c
  {
    c[n].start <= q < End(c[n]) && BlockAt(c[n], plays, q) == id && FirstPath(c, plays, n)
  }

  ghost predicate Shown(c: Tree, plays: seq<Play>, play: nat, id: nat)
    requires Shape(c)
  {
    exists n: int, q: nat :: n in c && c[n].play == play && ShownBy(c, plays, n, q, id)
  }

  /** v is the set of blocks of the play that a lookup can find. */
  ghost predicate Shows(c: Tree, plays: seq<Play>, play: nat, v: set<nat>)
    requires Shape(c)
  {
    forall id: nat :: id in v <==> Shown(c, plays, play, id)
  }

  lemma ShowsIs(c: Tree, plays: seq<Play>, play: nat, v: set<nat>, n: int, q: nat, id: nat)
    requires Shape(c) && Shows(c, plays, play, v) && n in c && c[n].play == play && ShownBy(c, plays, n, q, id)
    ensures id in v
  {
    hide ShownBy;
    assert Shown(c, plays, play, id);
  }

  /** Every segment of the play has its blocks from a request that begins like the whole path to it. */
  ghost predicate Sourced(c: Tree, plays: seq<Play>, n: int)
    requires Inv(c, plays) && n in c
  {
    c[n].nblocks > 0 ==> PathIs(c, plays, n, c[n].src, End(c[n]))
  }

  ghost predicate AllSourced(c: Tree, plays: seq<Play>, play: nat)
    requires Inv(c, plays)
  {
    forall n :: n in c && c[n].play == play ==> Sourced(c, plays, n)
  }

  /** The block at a depth of a segment, as the path, the source and the segment itself give it. */
  lemma BlocksOf(c: Tree, plays: seq<Play>, n: int, q: nat)
    requires Inv(c, plays) && n in c && c[n].start <= q < End(c[n])
    ensures c[n].nblocks > 0 && SliceOk(c[n], plays) &&
      BlockAt(c[n], plays, q) == BlockOf(plays[c[n].play], c[n].src, q)
    ensures PathBlock(c, plays, n, q) == BlockAt(c[n], plays, q)
  {
  }

  lemma SourceBlock(c: Tree, plays: seq<Play>, n: int, q: nat)
    requires Inv(c, plays) && n in c && Sourced(c, plays, n) && c[n].nblocks > 0 && q < End(c[n])
    ensures SliceOk(c[n], plays) && q < plays[c[n].play].reqs[c[n].src].count
    ensures PathBlock(c, plays, n, q) == BlockOf(plays[c[n].play], c[n].src, q)
  {
    SliceAt(c, plays, n);
  }

  /** What lies on a path along first children can be found. */
  lemma PathShown(c: Tree, plays: seq<Play>, play: nat, n: int, q: nat)
    requires Inv(c, plays) && n in c && c[n].play == play && q < End(c[n]) && FirstPath(c, plays, n)
    ensures ShownBy(c, plays, Cover(c, plays, n, q), q, PathBlock(c, plays, n, q))
    ensures Shown(c, plays, play, PathBlock(c, plays, n, q))
  {
    hide Inv, FirstPath, BlockAt, PathBlock;
    CoverFirst(c, plays, n, q);
  }

  /** A lookup finds exactly the leading blocks that can be found. */
  lemma LookupShown(c: Tree, plays: seq<Play>, play: nat, h: Hit, r: nat, v: set<nat>)
    requires Inv(c, plays) && SingleRoots(c) && GoodReq(plays, play, r) && SeenSets.Whole(plays[play])
    requires AllSourced(c, plays, play) && Shows(c, plays, play, v) && Found(c, plays, h, play, r)
    ensures h.blocks == HitsFrom(plays[play], v, r, 0)
  {
    hide Inv, SingleRoots, Deepest, Chained, FirstPath, PathBlock, Sourced, Shows, SeenSets.Whole, Shown;
    var p := plays[play];
    InvShape(c, plays);
    HitBound(c, plays, h, play, r);
    forall q | 0 <= q < h.blocks
      ensures BlockOf(p, r, q) in v
    {
      assert PathBlock(c, plays, h.node, q) == BlockOf(p, r, q);
      PathShown(c, plays, play, h.node, q);
      ShowsIs(c, plays, play, v, Cover(c, plays, h.node, q), q, BlockOf(p, r, q));
    }
    if h.blocks < p.reqs[r].count { NextHidden(c, plays, play, h, r, v); }
    HitsAre(p, v, r, 0, h.blocks);
  }

  lemma NextHidden(c: Tree, plays: seq<Play>, play: nat, h: Hit, r: nat, v: set<nat>)
    requires Inv(c, plays) && SingleRoots(c) && GoodReq(plays, play, r) && SeenSets.Whole(plays[play])
    requires AllSourced(c, plays, play) && Shows(c, plays, play, v) && Found(c, plays, h, play, r)
    requires h.blocks < plays[play].reqs[r].count
    ensures BlockOf(plays[play], r, h.blocks) !in v
  {
    hide Inv, SingleRoots, PathBlock, SeenSets.Whole, PathIs, FirstPath, BlockAt, Deepest;
    var p, want := plays[play], BlockOf(plays[play], r, h.blocks);
    InvShape(c, plays);
    if want in v {
      assert Shown(c, plays, play, want);
      var n: int, q: nat :| n in c && c[n].play == play && ShownBy(c, plays, n, q, want);
      AgreesTo(c, plays, play, n, q, r, h.blocks);
      ReachesFirst(c, plays, h, play, r, n, q + 1);
    }
  }

  /** A segment that holds r's block k holds it at depth k, on a path that begins like r's prompt. */
  lemma AgreesTo(c: Tree, plays: seq<Play>, play: nat, n: int, q: nat, r: nat, k: nat)
    requires Inv(c, plays) && GoodReq(plays, play, r) && SeenSets.Whole(plays[play]) && k < plays[play].reqs[r].count
    requires n in c && c[n].play == play && Sourced(c, plays, n) && c[n].start <= q < End(c[n])
    requires BlockAt(c[n], plays, q) == BlockOf(plays[play], r, k)
    ensures q == k && PathIs(c, plays, n, r, k + 1)
  {
    hide Inv, PathBlock, Chained, SameBlocks, BlockAt;
    var p, s := plays[play], c[n].src;
    BlocksOf(c, plays, n, q);
    SourceBlock(c, plays, n, q);
    OneDepth(p, s, q, r, k);
    forall j: nat | j < k + 1
      ensures PathBlock(c, plays, n, j) == BlockOf(p, r, j)
    {
      SourceBlock(c, plays, n, j);
      SameBlock(p, s, r, k + 1, j);
    }
  }

  // ---- steps that keep what can be found ----

  /** d is c but for tiers, pins, access times and partial tails. */
  ghost predicate SameLinks(c: Tree, d: Tree) {
    && d.Keys == c.Keys
    && (forall i {:trigger d[i]} :: i in c ==>
          d[i] == c[i].(tier := d[i].tier, pins := d[i].pins, lastAccess := d[i].lastAccess, tail := d[i].tail))
  }

  lemma LinksBefore(c: Tree, d: Tree, plays: seq<Play>, p: int, want: nat, m: nat)
    requires SameLinks(c, d) && p in c
    ensures NoneBefore(d, plays, p, want, m) <==> NoneBefore(c, plays, p, want, m)
  {
    assert d[p].kids == c[p].kids;
    forall k | 0 <= k < |c[p].kids| && c[p].kids[k] in c
      ensures StartsWith(d[c[p].kids[k]], plays, want) <==> StartsWith(c[c[p].kids[k]], plays, want)
    {
      var i := c[p].kids[k];
      assert d[i] == c[i].(tier := d[i].tier, pins := d[i].pins, lastAccess := d[i].lastAccess, tail := d[i].tail);
    }
  }

  lemma LinksHere(c: Tree, d: Tree, plays: seq<Play>, i: int)
    requires SameLinks(c, d) && i in c
    ensures FirstHere(d, plays, i) <==> FirstHere(c, plays, i)
  {
    hide NoneBefore;
    var p := c[i].parent;
    assert d[i] == c[i].(tier := d[i].tier, pins := d[i].pins, lastAccess := d[i].lastAccess, tail := d[i].tail);
    if p in c {
      assert d[p].kids == c[p].kids;
      forall want: nat, m: nat
        ensures NoneBefore(d, plays, p, want, m) <==> NoneBefore(c, plays, p, want, m)
      {
        LinksBefore(c, d, plays, p, want, m);
      }
    }
  }

  lemma {:induction false} LinksFirst(c: Tree, d: Tree, plays: seq<Play>, i: int)
    requires Shape(c) && Shape(d) && SameLinks(c, d) && i in c
    ensures FirstPath(d, plays, i) <==> FirstPath(c, plays, i)
    decreases Height(c[i])
  {
    hide FirstHere;
    LinksHere(c, d, plays, i);
    assert d[i].parent == c[i].parent;
    if c[i].parent != -1 {
      ParentAt(c, i);
      LinksFirst(c, d, plays, c[i].parent);
    }
  }

  lemma LinksShow(c: Tree, d: Tree, plays: seq<Play>, play: nat, v: set<nat>)
    requires Shape(c) && Shape(d) && SameLinks(c, d) && Shows(c, plays, play, v)
    ensures Shows(d, plays, play, v)
  {
    hide Shape, FirstPath;
    forall n, q: nat, id: nat | n in c
      ensures d[n].play == c[n].play && (ShownBy(d, plays, n, q, id) <==> ShownBy(c, plays, n, q, id))
    {
      LinksFirst(c, d, plays, n);
      assert d[n].nblocks == c[n].nblocks && d[n].start == c[n].start && d[n].src == c[n].src && d[n].play == c[n].play;
    }
  }

  ghost predicate KidStarts(c: Tree, plays: seq<Play>, p: int, k: nat, want: nat)
    requires p in c && k < |c[p].kids|
  {
    c[p].kids[k] in c && StartsWith(c[c[p].kids[k]], plays, want)
  }

  /** Being the first to begin with a block depends on the places in the list only. */
  lemma SameFirst(c: Tree, d: Tree, plays: seq<Play>, p: int, x: int, y: int, want: nat)
    requires p in c && p in d && |c[p].kids| == |d[p].kids|
    requires forall k: nat :: k < |c[p].kids| ==> (KidStarts(c, plays, p, k, want) <==> KidStarts(d, plays, p, k, want))
    requires forall k: nat :: k < |c[p].kids| ==> (c[p].kids[k] == x <==> d[p].kids[k] == y)
    ensures FirstKid(c, plays, p, want, x) <==> FirstKid(d, plays, p, want, y)
  {
    hide StartsWith;
    forall k | 0 <= k < |c[p].kids|
      ensures c[p].kids[k] in c && StartsWith(c[c[p].kids[k]], plays, want) <==>
              d[p].kids[k] in d && StartsWith(d[d[p].kids[k]], plays, want)
    {
      assert KidStarts(c, plays, p, k, want) <==> KidStarts(d, plays, p, k, want);
    }
    if m: nat :| m < |c[p].kids| && c[p].kids[m] == x && NoneBefore(c, plays, p, want, m) {
      assert d[p].kids[m] == y && NoneBefore(d, plays, p, want, m);
    }
    if m: nat :| m < |d[p].kids| && d[p].kids[m] == y && NoneBefore(d, plays, p, want, m) {
      assert c[p].kids[m] == x && NoneBefore(c, plays, p, want, m);
    }
  }

  /** A new root beside the others. */
  lemma {:induction false} RootFirst(c: Tree, plays: seq<Play>, r: int, n: Seg, i: int)
    requires Shape(c) && r !in c && Shape(c[r := n]) && i in c
    ensures FirstPath(c[r := n], plays, i) <==> FirstPath(c, plays, i)
    decreases Height(c[i])
  {
    hide FirstHere;
    RootHere(c, plays, r, n, i);
    if c[i].parent != -1 {
      ParentAt(c, i);
      RootFirst(c, plays, r, n, c[i].parent);
    }
  }

  lemma RootHere(c: Tree, plays: seq<Play>, r: int, n: Seg, i: int)
    requires Shape(c) && r !in c && i in c
    ensures FirstHere(c[r := n], plays, i) <==> FirstHere(c, plays, i)
  {
    hide FirstKid, StartsWith;
    var d, p := c[r := n], c[i].parent;
    if p != -1 {
      ParentAt(c, i);
      KidsLive(c, p);
      forall want: nat
        ensures FirstKid(c, plays, p, want, i) <==> FirstKid(d, plays, p, want, i)
      {
        SameFirst(c, d, plays, p, i, i, want);
      }
    }
  }

  lemma RootShow(c: Tree, plays: seq<Play>, r: int, n: Seg, play: nat, v: set<nat>)
    requires Shape(c) && r !in c && Shape(c[r := n]) && n.nblocks == 0 && n.parent == -1 && Shows(c, plays, play, v)
    ensures Shows(c[r := n], plays, play, v) && FirstPath(c[r := n], plays, r)
  {
    hide Shape, FirstPath;
    var d := c[r := n];
    forall i, q: nat, id: nat | i in c
      ensures d[i] == c[i] && (ShownBy(d, plays, i, q, id) <==> ShownBy(c, plays, i, q, id))
    {
      RootFirst(c, plays, r, n, i);
    }
    assert forall q: nat, id: nat :: !ShownBy(d, plays, r, q, id);
    RootIsFirst(d, plays, r);
  }

  lemma RootIsFirst(c: Tree, plays: seq<Play>, r: int)
    requires Shape(c) && r in c && c[r].parent == -1
    ensures FirstPath(c, plays, r)
  {
  }

  // ---- splitting a segment ----

  ghost predicate Splits(c: Tree, plays: seq<Play>, id: int, up: int, off: nat) {
    && Inv(c, plays) && id in c && c[id].parent in c && id in c[c[id].parent].kids && 0 < off < c[id].nblocks
    && c[id].parent != id
    && up !in c && up >= 0 && Inv(Split(c, id, up, off), plays)
  }

  lemma SplitStarts(c: Tree, plays: seq<Play>, id: int, up: int, off: nat, i: int, want: nat)
    requires Splits(c, plays, id, up, off) && i in c && i != id
    ensures StartsWith(Split(c, id, up, off)[up], plays, want) <==> StartsWith(c[id], plays, want)
    ensures StartsWith(Split(c, id, up, off)[i], plays, want) <==> StartsWith(c[i], plays, want)
  {
    hide Shape, Tiers, Pinning;
    SliceAt(c, plays, id);
  }

  lemma SplitKid(c: Tree, plays: seq<Play>, id: int, up: int, off: nat, p: int, k: nat, want: nat)
    requires Splits(c, plays, id, up, off) && p in c && k < |c[p].kids|
    ensures var d := Split(c, id, up, off); (
      |d[p].kids| == |c[p].kids| && d[p].kids[k] == (if c[p].kids[k] == id then up else c[p].kids[k]) &&
      (KidStarts(c, plays, p, k, want) <==> KidStarts(d, plays, p, k, want)))
  {
    hide Tiers, Pinning, StartsWith;
    var x := c[p].kids[k];
    KidsLive(c, p);
    assert x in c[p].kids;
    if x != id {
      SplitStarts(c, plays, id, up, off, x, want);
    } else if p in c {
      SplitStarts(c, plays, id, up, off, p, want);
    }
  }

  lemma SplitHere(c: Tree, plays: seq<Play>, id: int, up: int, off: nat, i: int)
    requires Splits(c, plays, id, up, off) && i in c
    ensures FirstHere(Split(c, id, up, off), plays, if i == id then up else i) <==> FirstHere(c, plays, i)
  {
    hide Tiers, Pinning, FirstKid, KidStarts, Split;
    var d, p, x := Split(c, id, up, off), c[i].parent, if i == id then up else i;
    SplitSegs(c, plays, id, up, off, i);
    if p != -1 {
      ParentAt(c, i);
      KidsLive(c, p);
      forall want: nat
        ensures FirstKid(c, plays, p, want, i) <==> FirstKid(d, plays, p, want, x)
      {
        forall k: nat | k < |c[p].kids|
          ensures |d[p].kids| == |c[p].kids| && (KidStarts(c, plays, p, k, want) <==> KidStarts(d, plays, p, k, want))
          ensures c[p].kids[k] == i <==> d[p].kids[k] == x
        {
          SplitKid(c, plays, id, up, off, p, k, want);
          assert c[p].kids[k] in c[p].kids;
        }
        SplitKid(c, plays, id, up, off, p, 0, want);
        SameFirst(c, d, plays, p, i, x, want);
      }
      SliceAt(c, plays, i);
    }
  }

  /** The upper part takes the segment's place; other segments keep theirs. */
  lemma SplitSegs(c: Tree, plays: seq<Play>, id: int, up: int, off: nat, i: int)
    requires Splits(c, plays, id, up, off) && i in c
    ensures var d, x := Split(c, id, up, off), if i == id then up else i;
      d.Keys == c.Keys + {up} && d[x].parent == c[i].parent && d[x].play == c[i].play && d[x].src == c[i].src &&
      d[x].start == c[i].start && (d[x].nblocks > 0 <==> c[i].nblocks > 0) && (i != id ==> d[x].nblocks == c[i].nblocks)
    ensures var d := Split(c, id, up, off);
      d[id] == c[id].(parent := up, start := c[id].start + off, nblocks := c[id].nblocks - off)
    ensures var d := Split(c, id, up, off); d[up].nblocks == off && d[up].kids == [id] && c[i].parent != up
  {
    hide Tiers, Pinning, Slices, Renamed;
    ParentAt(c, i);
  }

  lemma {:induction false} SplitFirst(c: Tree, plays: seq<Play>, id: int, up: int, off: nat, i: int)
    requires Splits(c, plays, id, up, off) && i in c
    ensures FirstPath(Split(c, id, up, off), plays, if i == id then up else i) <==> FirstPath(c, plays, i)
    ensures FirstPath(Split(c, id, up, off), plays, i) <==> FirstPath(c, plays, i)
    decreases Height(c[i])
  {
    hide Tiers, Pinning, Slices, FirstHere, Split;
    var d := Split(c, id, up, off);
    SplitSegs(c, plays, id, up, off, i);
    SplitHere(c, plays, id, up, off, i);
    if c[i].parent != -1 {
      ParentAt(c, i);
      SplitFirst(c, plays, id, up, off, c[i].parent);
    }
    if i == id { OnlyKid(d, plays, up, id); }
  }

  lemma OnlyKid(c: Tree, plays: seq<Play>, p: int, i: int)
    requires Inv(c, plays) && p in c && c[p].kids == [i] && i in c && c[i].parent == p
    ensures FirstHere(c, plays, i)
  {
    hide Shape, Tiers, Pinning;
    SliceAt(c, plays, i);
    assert c[p].kids[0] == i;
  }

  lemma SplitShow(c: Tree, plays: seq<Play>, id: int, up: int, off: nat, play: nat, v: set<nat>)
    requires Splits(c, plays, id, up, off) && Shows(c, plays, play, v)
    ensures Shows(Split(c, id, up, off), plays, play, v)
    ensures FirstPath(c, plays, id) ==> FirstPath(Split(c, id, up, off), plays, up)
  {
    hide Tiers, Pinning, Slices, FirstPath, Split, BlockAt;
    var d := Split(c, id, up, off);
    SplitSegs(c, plays, id, up, off, id);
    SplitFirst(c, plays, id, up, off, id);
    forall w: nat
      ensures Shown(c, plays, play, w) <==> Shown(d, plays, play, w)
    {
      if Shown(c, plays, play, w) {
        var i: int, q: nat :| i in c && c[i].play == play && ShownBy(c, plays, i, q, w);
        SplitSegs(c, plays, id, up, off, i);
        SplitFirst(c, plays, id, up, off, i);
        var x := if i == id && q < c[id].start + off then up else i;
        SplitBlock(c, plays, id, up, off, x, q);
        assert ShownBy(d, plays, x, q, w);
      }
      if Shown(d, plays, play, w) {
        var x: int, q: nat :| x in d && d[x].play == play && ShownBy(d, plays, x, q, w);
        var i := if x == up then id else x;
        SplitSegs(c, plays, id, up, off, i);
        SplitFirst(c, plays, id, up, off, i);
        SplitBlock(c, plays, id, up, off, x, q);
        assert ShownBy(c, plays, i, q, w);
      }
    }
  }

  lemma SplitBlock(c: Tree, plays: seq<Play>, id: int, up: int, off: nat, x: int, q: nat)
    requires Splits(c, plays, id, up, off) && (x == up || x in c)
    ensures var d := Split(c, id, up, off); x in d && (d[x].start <= q < End(d[x]) ==>
      var i := if x == up then id else x;
      c[i].start <= q < End(c[i]) && BlockAt(d[x], plays, q) == BlockAt(c[i], plays, q))
  {
    hide Shape, Tiers, Pinning, Renamed;
    SliceAt(c, plays, if x == up then id else x);
  }

  // ---- a new child in front of the others ----

  /** Segment x, or one above it, begins like n and would be n's sibling below p. */
  ghost predicate Hidden(c: Tree, plays: seq<Play>, p: int, n: Seg, x: int)
    requires Shape(c) && x in c
    decreases Height(c[x])
  {
    HiddenHere(c, plays, p, n, x) || (c[x].parent != -1 && Hidden(c, plays, p, n, c[x].parent))
  }

  ghost predicate HiddenHere(c: Tree, plays: seq<Play>, p: int, n: Seg, x: int)
    requires x in c
  {
    c[x].parent == p && c[x].nblocks > 0 && StartsWith(n, plays, FirstBlock(c[x], plays))
  }

  ghost predicate Links(c: Tree, plays: seq<Play>, p: int, k: int, n: Seg) {
    Inv(c, plays) && p in c && k !in c && n.parent == p && p != -1 && n.play == c[p].play &&
      Inv(LinkFront(c, p, k, n), plays)
  }

  lemma LinkBefore(c: Tree, plays: seq<Play>, p: int, k: int, n: Seg, want: nat, m: nat)
    requires Shape(c) && p in c && k !in c
    ensures NoneBefore(LinkFront(c, p, k, n), plays, p, want, m + 1) <==>
      NoneBefore(c, plays, p, want, m) && !StartsWith(n, plays, want)
  {
    var d := LinkFront(c, p, k, n);
    KidsLive(c, p);
    assert d[p].kids[0] == k && d[k] == n;
    assert forall j :: 0 <= j < |c[p].kids| ==> d[p].kids[j + 1] == c[p].kids[j];
    forall j | 0 <= j < |c[p].kids|
      ensures StartsWith(d[c[p].kids[j]], plays, want) <==> StartsWith(c[c[p].kids[j]], plays, want)
    {
      var x := c[p].kids[j];
      assert x in c && d[x] == c[x].(kids := d[x].kids);
    }
    if NoneBefore(d, plays, p, want, m + 1) {
      assert !StartsWith(d[d[p].kids[0]], plays, want);
      forall j | 0 <= j < m && j < |c[p].kids|
        ensures !StartsWith(c[c[p].kids[j]], plays, want)
      {
        assert d[p].kids[j + 1] in d && !StartsWith(d[d[p].kids[j + 1]], plays, want);
      }
    }
  }

  lemma LinkKid(c: Tree, plays: seq<Play>, p: int, k: int, n: Seg, x: int, want: nat)
    requires Shape(c) && p in c && k !in c && x in c
    ensures FirstKid(LinkFront(c, p, k, n), plays, p, want, x) <==>
      FirstKid(c, plays, p, want, x) && !StartsWith(n, plays, want)
  {
    hide NoneBefore, StartsWith, Shape;
    var d := LinkFront(c, p, k, n);
    assert d[p].kids == [k] + c[p].kids;
    if m :| 0 <= m < |d[p].kids| && d[p].kids[m] == x && NoneBefore(d, plays, p, want, m) {
      LinkBefore(c, plays, p, k, n, want, m - 1);
      assert c[p].kids[m - 1] == x;
    }
    if m :| 0 <= m < |c[p].kids| && c[p].kids[m] == x && NoneBefore(c, plays, p, want, m) {
      LinkBefore(c, plays, p, k, n, want, m);
      assert d[p].kids[m + 1] == x;
    }
  }

  lemma LinkHere(c: Tree, plays: seq<Play>, p: int, k: int, n: Seg, x: int)
    requires Links(c, plays, p, k, n) && x in c
    ensures FirstHere(LinkFront(c, p, k, n), plays, x) <==> FirstHere(c, plays, x) && !HiddenHere(c, plays, p, n, x)
  {
    hide Tiers, Pinning, FirstKid, StartsWith;
    var d, a := LinkFront(c, p, k, n), c[x].parent;
    assert d[x] == c[x].(kids := d[x].kids);
    SliceAt(c, plays, x);
    if a == -1 {
    } else if a == p {
      LinkKid(c, plays, p, k, n, x, FirstBlock(c[x], plays));
    } else {
      ParentAt(c, x);
      KidsLive(c, a);
      forall want: nat
        ensures FirstKid(c, plays, a, want, x) <==> FirstKid(d, plays, a, want, x)
      {
        LinkAside(c, plays, p, k, n, a, x, want);
      }
    }
  }

  lemma LinkAside(c: Tree, plays: seq<Play>, p: int, k: int, n: Seg, a: int, x: int, want: nat)
    requires Shape(c) && p in c && k !in c && a in c && a != p
    ensures FirstKid(c, plays, a, want, x) <==> FirstKid(LinkFront(c, p, k, n), plays, a, want, x)
  {
    hide FirstKid;
    var d := LinkFront(c, p, k, n);
    KidsLive(c, a);
    forall j: nat | j < |c[a].kids|
      ensures KidStarts(c, plays, a, j, want) <==> KidStarts(d, plays, a, j, want)
    {
      var y := c[a].kids[j];
      assert y in c[a].kids && d[y] == c[y].(kids := d[y].kids);
    }
    SameFirst(c, d, plays, a, x, x, want);
  }

  /** Linking a child in front takes from view exactly what it hides. */
  lemma {:induction false} LinkFirst(c: Tree, plays: seq<Play>, p: int, k: int, n: Seg, x: int)
    requires Links(c, plays, p, k, n) && x in c
    ensures FirstPath(LinkFront(c, p, k, n), plays, x) <==> FirstPath(c, plays, x) && !Hidden(c, plays, p, n, x)
    decreases Height(c[x])
  {
    hide Tiers, Pinning, Slices, FirstHere, HiddenHere;
    LinkHere(c, plays, p, k, n, x);
    if c[x].parent != -1 {
      ParentAt(c, x);
      ParentAt(LinkFront(c, p, k, n), x);
      LinkFirst(c, plays, p, k, n, c[x].parent);
    }
  }

  /** The segment that is hidden, at or above x. */
  lemma {:induction false} HiddenAt(c: Tree, plays: seq<Play>, p: int, n: Seg, x: int) returns (y: int)
    requires Inv(c, plays) && p in c && x in c && Hidden(c, plays, p, n, x)
    ensures y in c && HiddenHere(c, plays, p, n, y) && c[y].play == c[x].play && Height(c[p]) < Height(c[x])
    ensures c[y].start == End(c[p]) < End(c[x]) && Cover(c, plays, x, c[y].start) == y && c[y].start <= c[x].start
    ensures FirstPath(c, plays, x) ==> FirstPath(c, plays, y)
    decreases Height(c[x])
  {
    hide Tiers, Pinning, Slices, HiddenHere, FirstHere;
    ParentAt(c, x);
    if HiddenHere(c, plays, p, n, x) {
      y := x;
      HiddenEnds(c, plays, p, n, x);
    } else {
      y := HiddenAt(c, plays, p, n, c[x].parent);
      ChildStart(c, x);
    }
  }

  lemma HiddenEnds(c: Tree, plays: seq<Play>, p: int, n: Seg, x: int)
    requires Inv(c, plays) && p in c && x in c && HiddenHere(c, plays, p, n, x)
    ensures c[x].start == End(c[p]) < End(c[x]) && Height(c[p]) < Height(c[x])
  {
    hide Tiers, Pinning, Slices;
    ParentAt(c, x);
    ChildStart(c, x);
  }

  lemma {:induction false} HiddenBelow(c: Tree, plays: seq<Play>, p: int, n: Seg, x: int, q: nat)
    requires Inv(c, plays) && p in c && x in c && q < End(c[x]) && HiddenHere(c, plays, p, n, Cover(c, plays, x, q))
    ensures Hidden(c, plays, p, n, x)
    decreases Height(c[x])
  {
    hide Tiers, Pinning, Slices, HiddenHere;
    if q < c[x].start {
      ParentAt(c, x);
      HiddenBelow(c, plays, p, n, c[x].parent, q);
    }
  }

  /** A child without blocks hides nothing. */
  lemma {:induction false} TailHides(c: Tree, plays: seq<Play>, p: int, n: Seg, x: int)
    requires Shape(c) && x in c && n.nblocks == 0
    ensures !Hidden(c, plays, p, n, x)
    decreases Height(c[x])
  {
    if c[x].parent != -1 {
      ParentAt(c, x);
      TailHides(c, plays, p, n, c[x].parent);
    }
  }

  lemma LinkBlock(c: Tree, plays: seq<Play>, p: int, k: int, n: Seg, x: int, q: nat, id: nat)
    requires Links(c, plays, p, k, n) && x in c
    ensures LinkFront(c, p, k, n)[x].play == c[x].play
    ensures ShownBy(LinkFront(c, p, k, n), plays, x, q, id) <==>
      ShownBy(c, plays, x, q, id) && !Hidden(c, plays, p, n, x)
  {
    hide Tiers, Pinning, Slices, FirstPath, Hidden;
    LinkFirst(c, plays, p, k, n, x);
    var d := LinkFront(c, p, k, n);
    assert d[x] == c[x].(kids := d[x].kids);
  }

  lemma TailShow(c: Tree, plays: seq<Play>, p: int, k: int, n: Seg, play: nat, v: set<nat>)
    requires Links(c, plays, p, k, n) && n.nblocks == 0 && Shows(c, plays, play, v)
    ensures Shows(LinkFront(c, p, k, n), plays, play, v)
    ensures FirstPath(c, plays, p) ==> FirstPath(LinkFront(c, p, k, n), plays, p)
  {
    hide Tiers, Pinning, Slices, FirstPath, Hidden, Shape;
    var d := LinkFront(c, p, k, n);
    forall x, q: nat, id: nat | x in c
      ensures d[x].play == c[x].play && (ShownBy(d, plays, x, q, id) <==> ShownBy(c, plays, x, q, id))
    {
      LinkBlock(c, plays, p, k, n, x, q, id);
      TailHides(c, plays, p, n, x);
    }
    LinkFirst(c, plays, p, k, n, p);
    TailHides(c, plays, p, n, p);
    assert forall q: nat, id: nat :: !ShownBy(d, plays, k, q, id);
  }

  // ---- the new part of a prompt ----

  /** The rest of r's prompt, from block `from` on, goes in as child k of p. */
  ghost predicate Enters(c: Tree, plays: seq<Play>, play: nat, p: int, k: int, n: Seg, r: nat, from: nat) {
    && Links(c, plays, p, k, n) && SingleRoots(c) && GoodReq(plays, play, r) && SeenSets.Whole(plays[play])
    && from < plays[play].reqs[r].count && Grounded(c, plays, p, play, r, from) && FirstPath(c, plays, p)
    && n.start == from && n.nblocks == plays[play].reqs[r].count - from && n.src == r
  }

  /** Every block of the prompt can be found afterwards. */
  lemma PromptShown(c: Tree, plays: seq<Play>, play: nat, p: int, k: int, n: Seg, r: nat, from: nat, q: nat)
    requires Enters(c, plays, play, p, k, n, r, from) && q < plays[play].reqs[r].count
    ensures Shown(LinkFront(c, p, k, n), plays, play, BlockOf(plays[play], r, q))
  {
    hide Tiers, Pinning, Slices, FirstPath, Hidden, Shape, Chained, BlockAt, PathBlock;
    var d, id := LinkFront(c, p, k, n), BlockOf(plays[play], r, q);
    InvShape(c, plays);
    if q < from {
      assert PathBlock(c, plays, p, q) == id;
      PathShown(c, plays, play, p, q);
      var y := Cover(c, plays, p, q);
      AboveSeen(c, plays, p, n, p, q);
      LinkBlock(c, plays, p, k, n, y, q, id);
    } else {
      NewShown(c, plays, play, p, k, n, r, from, q);
    }
  }

  /** What covers a depth of p is at most as deep as p, so it is not hidden. */
  lemma AboveSeen(c: Tree, plays: seq<Play>, p: int, n: Seg, x: int, q: nat)
    requires Inv(c, plays) && p in c && x == p && q < End(c[p])
    ensures !Hidden(c, plays, p, n, Cover(c, plays, p, q))
  {
    hide Tiers, Pinning, Slices, Hidden;
    var y := Cover(c, plays, p, q);
    if Hidden(c, plays, p, n, y) {
      var z := HiddenAt(c, plays, p, n, y);
    }
  }

  lemma NewShown(c: Tree, plays: seq<Play>, play: nat, p: int, k: int, n: Seg, r: nat, from: nat, q: nat)
    requires Enters(c, plays, play, p, k, n, r, from) && from <= q < plays[play].reqs[r].count
    ensures var d := LinkFront(c, p, k, n);
      k in d && d[k] == n && n.play == play && ShownBy(d, plays, k, q, BlockOf(plays[play], r, q))
  {
    hide Tiers, Pinning, Slices, FirstPath, Hidden, Chained, PathIs;
    var d := LinkFront(c, p, k, n);
    LinkFirst(c, plays, p, k, n, p);
    if Hidden(c, plays, p, n, p) { var z := HiddenAt(c, plays, p, n, p); }
    NewFirst(c, plays, p, k, n);
    FirstDown(d, plays, k);
  }

  lemma NewFirst(c: Tree, plays: seq<Play>, p: int, k: int, n: Seg)
    requires Links(c, plays, p, k, n)
    ensures FirstHere(LinkFront(c, p, k, n), plays, k)
  {
    var d := LinkFront(c, p, k, n);
    SliceAt(d, plays, k);
    assert d[p].kids[0] == k;
  }

  lemma FirstDown(c: Tree, plays: seq<Play>, k: int)
    requires Shape(c) && k in c && FirstHere(c, plays, k) &&
      (c[k].parent != -1 ==> c[k].parent in c && FirstPath(c, plays, c[k].parent))
    ensures FirstPath(c, plays, k)
  {
  }

  /** A segment that is hidden holds blocks from the first new one on. */
  lemma HiddenHolds(c: Tree, plays: seq<Play>, play: nat, p: int, k: int, n: Seg, r: nat, from: nat, x: int, q: nat,
                    id: nat, v: set<nat>)
    requires Enters(c, plays, play, p, k, n, r, from) && Shows(c, plays, play, v) && AllSourced(c, plays, play)
    requires x in c && c[x].play == play && ShownBy(c, plays, x, q, id) && Hidden(c, plays, p, n, x)
    ensures BlockOf(plays[play], r, from) in v && from <= q
    ensures q == from ==> id == BlockOf(plays[play], r, from)
    ensures SliceOk(c[x], plays) && c[x].nblocks > 0 && q < plays[play].reqs[c[x].src].count
    ensures id == BlockOf(plays[play], c[x].src, q) &&
      BlockOf(plays[play], c[x].src, from) == BlockOf(plays[play], r, from)
  {
    hide Tiers, Pinning, Slices, FirstPath, Hidden, Shape, Chained, BlockAt, PathBlock, SingleRoots, Sourced, Shows;
    var y := HiddenAt(c, plays, p, n, x);
    var want := BlockOf(plays[play], r, from);
    BlocksOf(c, plays, y, from);
    assert ShownBy(c, plays, y, from, want);
    ShowsIs(c, plays, play, v, y, from, want);
    BlocksOf(c, plays, x, q);
    assert Sourced(c, plays, x);
    SourceBlock(c, plays, x, q);
    SourceBlock(c, plays, x, from);
    CoverSelf(c, plays, x, q);
  }

  /** Where p ends, a path along first children that agrees with the prompt one block further goes on below p. */
  lemma NextUnder(c: Tree, plays: seq<Play>, play: nat, p: int, x: int, r: nat, from: nat)
    requires Inv(c, plays) && SingleRoots(c) && GoodReq(plays, play, r) && Grounded(c, plays, p, play, r, from) &&
      FirstPath(c, plays, p)
    requires x in c && c[x].play == play && FirstPath(c, plays, x) && PathIs(c, plays, x, r, from + 1)
    ensures var y := Cover(c, plays, x, from); c[y].parent == p && c[y].start == from
  {
    hide Inv, SingleRoots, Cover, PathBlock, Chained, BlockAt, FirstPath;
    var y := Cover(c, plays, x, from);
    Holds(c, plays, y, from);
    if from > 0 {
      forall k: nat | k < from
        ensures PathBlock(c, plays, x, k) == PathBlock(c, plays, p, k)
      {
        assert PathBlock(c, plays, x, k) == BlockOf(plays[play], r, k);
        assert PathBlock(c, plays, p, k) == BlockOf(plays[play], r, k);
      }
      EndsSelf(c, plays, p);
      FirstCover(c, plays, x, p, from - 1);
      CoverSelf(c, plays, p, from - 1);
      CoverStep(c, plays, x, from);
    } else {
      EndsSelf(c, plays, p);
      TopParent(c, plays, y);
      OnlyRoot(c, c[y].parent, p);
    }
  }

  lemma EndsSelf(c: Tree, plays: seq<Play>, p: int)
    requires Inv(c, plays) && p in c && (c[p].parent != -1 ==> c[p].nblocks > 0)
    ensures c[p].parent == -1 <==> End(c[p]) == 0
    ensures End(c[p]) > 0 ==> c[p].start < End(c[p])
  {
  }

  /** What comes behind a prompt that goes in again is hidden by its last block. */
  lemma PastHidden(c: Tree, plays: seq<Play>, play: nat, p: int, k: int, n: Seg, r: nat, from: nat, x: int, q: nat,
                   id: nat)
    requires Enters(c, plays, play, p, k, n, r, from) && AllSourced(c, plays, play) &&
      from + 1 == plays[play].reqs[r].count
    requires x in c && c[x].play == play && ShownBy(c, plays, x, q, id) && id in Past(plays[play], r)
    ensures Hidden(c, plays, p, n, x)
  {
    hide Tiers, Pinning, Slices, Shape, FirstPath, Hidden, Chained, BlockAt, PathBlock, SingleRoots, Sourced,
         SameBlocks;
    var g := plays[play];
    var s: nat, z: nat :| s < |g.reqs| && z < g.reqs[s].count && Behind(g, r, s, z) && BlockOf(g, s, z) == id;
    assert Sourced(c, plays, x);
    BlocksOf(c, plays, x, q);
    SourceBlock(c, plays, x, q);
    OneDepth(g, c[x].src, q, s, z);
    SameBlock(g, c[x].src, s, q + 1, from);
    SourceBlock(c, plays, x, from);
    var y := Cover(c, plays, x, from);
    SourceAgrees(c, plays, play, x, from, r);
    NextUnder(c, plays, play, p, x, r, from);
    BeginsLike(c, plays, play, p, k, n, r, from, y);
    HiddenBelow(c, plays, p, n, x, from);
  }

  lemma SourceAgrees(c: Tree, plays: seq<Play>, play: nat, x: int, k: nat, r: nat)
    requires Inv(c, plays) && GoodReq(plays, play, r) && SeenSets.Whole(plays[play]) && k < plays[play].reqs[r].count
    requires x in c && c[x].play == play && Sourced(c, plays, x) && c[x].nblocks > 0 && k < End(c[x])
    requires PathBlock(c, plays, x, k) == BlockOf(plays[play], r, k)
    ensures PathIs(c, plays, x, r, k + 1)
  {
    hide Inv, PathBlock, Chained, SameBlocks, BlockAt;
    var p, s := plays[play], c[x].src;
    SourceBlock(c, plays, x, k);
    OneDepth(p, s, k, r, k);
    forall j: nat | j < k + 1
      ensures PathBlock(c, plays, x, j) == BlockOf(p, r, j)
    {
      SourceBlock(c, plays, x, j);
      SameBlock(p, s, r, k + 1, j);
    }
  }

  lemma BeginsLike(c: Tree, plays: seq<Play>, play: nat, p: int, k: int, n: Seg, r: nat, from: nat, y: int)
    requires Enters(c, plays, play, p, k, n, r, from) && y in c && c[y].parent == p && c[y].start == from < End(c[y])
    requires BlockAt(c[y], plays, from) == BlockOf(plays[play], r, from)
    ensures HiddenHere(c, plays, p, n, y)
  {
    hide Shape, Tiers, Pinning, PathIs, Chained, FirstPath, SingleRoots;
    assert LinkFront(c, p, k, n)[k] == n;
    SliceAt(LinkFront(c, p, k, n), plays, k);
  }

  /** How the hits of r end: with its last block, or before one that cannot be found. */
  ghost predicate EndsAt(p: Play, v: set<nat>, r: nat, from: nat)
    requires SeenSets.Whole(p) && r < |p.reqs|
  {
    var n := p.reqs[r].count;
    from < n && if HitsFrom(p, v, r, 0) == n then from + 1 == n && BlockOf(p, r, from) in v
      else BlockOf(p, r, from) !in v
  }

  lemma EndsThere(p: Play, v: set<nat>, r: nat, from: nat)
    requires SeenSets.Whole(p) && r < |p.reqs| && p.reqs[r].count > 0 && from == Used(p, v, r)
    ensures EndsAt(p, v, r, from)
  {
    hide HitsFrom;
    HitsStop(p, v, r, 0);
  }

  /** All of the prompt can be found, and what could be before, unless it is behind a prompt that went in again. */
  lemma NextShown(c: Tree, plays: seq<Play>, play: nat, p: int, k: int, n: Seg, r: nat, from: nat, v: set<nat>, id: nat)
    requires Enters(c, plays, play, p, k, n, r, from) && AllSourced(c, plays, play) && Shows(c, plays, play, v)
    requires EndsAt(plays[play], v, r, from) && id in Next(plays[play], v, r)
    ensures Shown(LinkFront(c, p, k, n), plays, play, id)
  {
    hide Shape, Tiers, Pinning, Slices, FirstPath, Hidden, Chained, Sourced, SameBlocks, HitsFrom, Past, ShownBy,
         AllSourced, SingleRoots, SeenSets.Whole, Grounded, BlockOf, BlockSet;
    var g, d := plays[play], LinkFront(c, p, k, n);
    if q: nat :| q < g.reqs[r].count && BlockOf(g, r, q) == id {
      PromptShown(c, plays, play, p, k, n, r, from, q);
    } else {
      assert id in v by { NotOwn(g, v, r, id); }
      assert Shown(c, plays, play, id);
      var x: int, q: nat :| x in c && c[x].play == play && ShownBy(c, plays, x, q, id);
      LinkBlock(c, plays, p, k, n, x, q, id);
      if Hidden(c, plays, p, n, x) {
        HiddenHolds(c, plays, play, p, k, n, r, from, x, q, id, v);
        BehindPast(g, r, c[x].src, q);
        assert false;
      }
    }
  }

  /** What can be found afterwards could be before, or is of the prompt, and is not behind a prompt that went in
      again. */
  lemma ShownNext(c: Tree, plays: seq<Play>, play: nat, p: int, k: int, n: Seg, r: nat, from: nat, v: set<nat>, id: nat)
    requires Enters(c, plays, play, p, k, n, r, from) && AllSourced(c, plays, play) && Shows(c, plays, play, v)
    requires EndsAt(plays[play], v, r, from) && Shown(LinkFront(c, p, k, n), plays, play, id)
    ensures id in Next(plays[play], v, r)
  {
    hide Shape, Tiers, Pinning, Slices, FirstPath, Hidden, Chained, Sourced, SameBlocks, HitsFrom, Past, ShownBy,
         AllSourced, SingleRoots, SeenSets.Whole, Grounded, BlockOf, BlockSet;
    var g, d := plays[play], LinkFront(c, p, k, n);
    var x: int, q: nat :| x in d && d[x].play == play && ShownBy(d, plays, x, q, id);
    if x == k {
      NewHolds(c, plays, play, p, k, n, r, from, q, id);
      assert id in BlockSet(g, r, g.reqs[r].count);
      OwnNotPast(g, r, id);
    } else {
      LinkBlock(c, plays, p, k, n, x, q, id);
      ShowsIs(c, plays, play, v, x, q, id);
      if from + 1 == g.reqs[r].count && id in Past(g, r) {
        PastHidden(c, plays, play, p, k, n, r, from, x, q, id);
      }
    }
  }

  lemma NewHolds(c: Tree, plays: seq<Play>, play: nat, p: int, k: int, n: Seg, r: nat, from: nat, q: nat, id: nat)
    requires Enters(c, plays, play, p, k, n, r, from) && k in LinkFront(c, p, k, n) &&
      ShownBy(LinkFront(c, p, k, n), plays, k, q, id)
    ensures from <= q < plays[play].reqs[r].count && id == BlockOf(plays[play], r, q)
  {
    hide Shape, Tiers, Pinning, FirstPath, Chained, SingleRoots, PathIs;
    assert LinkFront(c, p, k, n)[k] == n;
    SliceAt(LinkFront(c, p, k, n), plays, k);
  }

  /** What can be found once the rest of r's prompt is in: all of the prompt as well; and if its last block was there
      already, nothing behind it any more. */
  lemma PromptShows(c: Tree, plays: seq<Play>, play: nat, p: int, k: int, n: Seg, r: nat, from: nat, v: set<nat>)
    requires Enters(c, plays, play, p, k, n, r, from) && AllSourced(c, plays, play) && Shows(c, plays, play, v)
    requires from == Used(plays[play], v, r)
    ensures Shows(LinkFront(c, p, k, n), plays, play, Next(plays[play], v, r))
  {
    hide Inv, FirstPath, Hidden, HitsFrom, Past, ShownBy, AllSourced, Next, Shown, Grounded, Chained;
    var d, g := LinkFront(c, p, k, n), plays[play];
    EndsThere(g, v, r, from);
    InvShape(d, plays);
    forall id: nat
      ensures id in Next(g, v, r) <==> Shown(d, plays, play, id)
    {
      if id in Next(g, v, r) { NextShown(c, plays, play, p, k, n, r, from, v, id); }
      if Shown(d, plays, play, id) { ShownNext(c, plays, play, p, k, n, r, from, v, id); }
    }
  }

  // ---- what the index holds ----

  /** The tree holds the prompts of the requests done, and nothing else of this play. */
  ghost predicate Holding(c: Tree, plays: seq<Play>, play: nat, done: seq<nat>)
    requires Inv(c, plays) && play < |plays|
  {
    && (forall s :: s in done ==> s < |plays[play].reqs| && Stored(c, plays, play, s))
    && (forall n {:trigger c[n].src} :: n in c ==> FromDone(c, plays, play, done, n))
  }

  ghost predicate Stored(c: Tree, plays: seq<Play>, play: nat, s: nat)
    requires Inv(c, plays) && play < |plays| && s < |plays[play].reqs|
  {
    plays[play].reqs[s].count > 0 ==>
      exists n ::
        n in c && c[n].play == play && End(c[n]) == plays[play].reqs[s].count && PathIs(c, plays, n, s, End(c[n]))
  }

  ghost predicate FromDone(c: Tree, plays: seq<Play>, play: nat, done: seq<nat>, n: int)
    requires Inv(c, plays) && n in c
  {
    c[n].play == play && c[n].nblocks > 0 ==> c[n].src in done && PathIs(c, plays, n, c[n].src, End(c[n]))
  }

  ghost predicate AllTop(c: Tree) {
    forall i :: i in c ==> c[i].tier == 0
  }

  /** The requests done are of this play and have blocks. */
  ghost predicate Order(p: Play, done: seq<nat>) {
    SeenSets.Whole(p) && Chained(p) && Chosen(p, done) && NoneEmpty(p, done)
  }

  /** The index while requests are served one at a time and nothing is ever evicted: what it holds, and what of it can
      be found. */
  ghost predicate Stores(c: Tree, plays: seq<Play>, play: nat, done: seq<nat>)
    requires Inv(c, plays) && play < |plays|
  {
    Order(plays[play], done) && Holding(c, plays, play, done) && AllTop(c) &&
      Shows(c, plays, play, Findable(plays[play], done))
  }

  lemma StoresSourced(c: Tree, plays: seq<Play>, play: nat, done: seq<nat>)
    requires Inv(c, plays) && play < |plays| && Holding(c, plays, play, done)
    ensures AllSourced(c, plays, play)
  {
    hide Inv, PathIs;
    forall n | n in c && c[n].play == play
      ensures Sourced(c, plays, n)
    {
      assert c[n].src == c[n].src && FromDone(c, plays, play, done, n);
    }
  }

  /** Every segment of c is still there, with the same path of blocks. */
  ghost predicate Keeps(c: Tree, d: Tree, plays: seq<Play>)
    requires Inv(c, plays) && Inv(d, plays)
  {
    forall i {:trigger d[i]} {:trigger KeptAt(c, d, plays, i)} :: i in c ==> KeptAt(c, d, plays, i)
  }

  ghost predicate KeptAt(c: Tree, d: Tree, plays: seq<Play>, i: int)
    requires Inv(c, plays) && Inv(d, plays) && i in c
  {
    && i in d && d[i].play == c[i].play && End(d[i]) == End(c[i]) && d[i].src == c[i].src
    && (d[i].nblocks > 0 <==> c[i].nblocks > 0)
    && forall q {:trigger PathBlock(d, plays, i, q)} :: 0 <= q < End(c[i]) ==>
      PathBlock(d, plays, i, q) == PathBlock(c, plays, i, q)
  }

  lemma KeptPath(c: Tree, d: Tree, plays: seq<Play>, i: int, r: nat, n: nat)
    requires Inv(c, plays) && Inv(d, plays) && i in c && KeptAt(c, d, plays, i) && PathIs(c, plays, i, r, n)
    ensures i in d && PathIs(d, plays, i, r, n)
  {
  }

  lemma HoldingKept(c: Tree, d: Tree, plays: seq<Play>, play: nat, done: seq<nat>)
    requires Inv(c, plays) && Inv(d, plays) && play < |plays| && Holding(c, plays, play, done) && Keeps(c, d, plays)
    requires forall n :: n in d && n !in c ==> FromDone(d, plays, play, done, n)
    ensures Holding(d, plays, play, done)
  {
    hide Inv, PathIs, PathBlock;
    forall s | s in done
      ensures s < |plays[play].reqs| && Stored(d, plays, play, s)
    {
      StoredKept(c, d, plays, play, s);
    }
    forall n | n in d
      ensures FromDone(d, plays, play, done, n)
    {
      if n in c { DoneKept(c, d, plays, play, done, n); }
    }
  }

  lemma DoneKept(c: Tree, d: Tree, plays: seq<Play>, play: nat, done: seq<nat>, n: int)
    requires Inv(c, plays) && Inv(d, plays) && play < |plays| && Holding(c, plays, play, done) && Keeps(c, d, plays) &&
      n in c
    ensures n in d && FromDone(d, plays, play, done, n)
  {
    hide Inv, PathIs, PathBlock;
    assert KeptAt(c, d, plays, n);
    assert c[n].src == c[n].src && FromDone(c, plays, play, done, n);
    if c[n].play == play && c[n].nblocks > 0 { KeptPath(c, d, plays, n, c[n].src, End(c[n])); }
  }

  lemma StoredKept(c: Tree, d: Tree, plays: seq<Play>, play: nat, s: nat)
    requires Inv(c, plays) && Inv(d, plays) && play < |plays| && s < |plays[play].reqs| && Keeps(c, d, plays)
    requires Stored(c, plays, play, s)
    ensures Stored(d, plays, play, s)
  {
    hide Inv, PathIs, PathBlock;
    if plays[play].reqs[s].count > 0 {
      var n :| n in c && c[n].play == play && End(c[n]) == plays[play].reqs[s].count &&
        PathIs(c, plays, n, s, End(c[n]));
      assert KeptAt(c, d, plays, n);
      KeptPath(c, d, plays, n, s, End(c[n]));
    }
  }

  lemma KeepsTrans(c: Tree, d: Tree, e: Tree, plays: seq<Play>)
    requires Inv(c, plays) && Inv(d, plays) && Inv(e, plays) && Keeps(c, d, plays) && Keeps(d, e, plays)
    ensures Keeps(c, e, plays)
  {
    hide Inv, PathBlock;
    forall i | i in c
      ensures KeptAt(c, e, plays, i)
    {
      assert KeptAt(c, d, plays, i) && KeptAt(d, e, plays, i);
      forall q: nat | q < End(c[i])
        ensures PathBlock(e, plays, i, q) == PathBlock(c, plays, i, q)
      {
        assert PathBlock(e, plays, i, q) == PathBlock(d, plays, i, q);
      }
    }
  }

  lemma KeepsSelf(c: Tree, plays: seq<Play>)
    requires Inv(c, plays)
    ensures Keeps(c, c, plays)
  {
  }

  lemma SameShapeKeeps(c: Tree, d: Tree, plays: seq<Play>)
    requires Inv(c, plays) && Inv(d, plays) && SameShape(c, d)
    ensures Keeps(c, d, plays) && SameLinks(c, d)
  {
    hide Inv, PathBlock;
    forall i | i in c
      ensures KeptAt(c, d, plays, i)
    {
      assert d[i] == c[i].(tier := d[i].tier, pins := d[i].pins, lastAccess := d[i].lastAccess);
      forall q: nat | q < End(c[i])
        ensures End(d[i]) == End(c[i]) && PathBlock(d, plays, i, q) == PathBlock(c, plays, i, q)
      {
        SameShapeBlocks(c, d, plays, i, q);
      }
    }
  }

  lemma TailKeeps(c: Tree, plays: seq<Play>, x: int, tail: nat)
    requires Inv(c, plays) && x in c && Inv(SetTail(c, x, tail), plays)
    ensures Keeps(c, SetTail(c, x, tail), plays) && SameLinks(c, SetTail(c, x, tail))
  {
    hide Inv, PathBlock;
    var d := SetTail(c, x, tail);
    forall i | i in c
      ensures KeptAt(c, d, plays, i)
    {
      forall q: nat | q < End(c[i])
        ensures PathBlock(d, plays, i, q) == PathBlock(c, plays, i, q)
      {
        TailBlocks(c, plays, x, tail, i, q);
      }
    }
  }

  lemma LinkKeeps(c: Tree, plays: seq<Play>, p: int, k: int, n: Seg)
    requires Inv(c, plays) && p in c && k !in c && Inv(LinkFront(c, p, k, n), plays) && n.parent == p && p != -1
    ensures var d := LinkFront(c, p, k, n); Keeps(c, d, plays) && d.Keys == c.Keys + {k} && d[k] == n
  {
    hide Inv, PathBlock;
    var d := LinkFront(c, p, k, n);
    forall i | i in c
      ensures KeptAt(c, d, plays, i)
    {
      assert d[i] == c[i].(kids := d[i].kids);
      forall q: nat | q < End(c[i])
        ensures PathBlock(d, plays, i, q) == PathBlock(c, plays, i, q)
      {
        LinkBlocks(c, plays, p, k, n, i, q);
      }
    }
  }

  lemma SplitKeeps(c: Tree, plays: seq<Play>, id: int, up: int, off: nat)
    requires Splits(c, plays, id, up, off)
    ensures Keeps(c, Split(c, id, up, off), plays)
  {
    hide Inv, PathBlock, Renamed;
    var d := Split(c, id, up, off);
    forall i | i in c
      ensures KeptAt(c, d, plays, i)
    {
      forall q: nat | q < End(c[i])
        ensures End(d[i]) == End(c[i]) && PathBlock(d, plays, i, q) == PathBlock(c, plays, i, q)
      {
        SplitBlocks(c, plays, id, up, off, i, q);
      }
    }
  }

  lemma SplitUpper(c: Tree, plays: seq<Play>, play: nat, done: seq<nat>, id: int, up: int, off: nat)
    requires Splits(c, plays, id, up, off) && play < |plays| && Holding(c, plays, play, done)
    ensures FromDone(Split(c, id, up, off), plays, play, done, up)
  {
    hide Shape, Tiers, Pinning, PathBlock, Renamed;
    var d := Split(c, id, up, off);
    assert c[id].src == c[id].src && FromDone(c, plays, play, done, id);
    if c[id].play == play {
      forall q: nat | q < End(d[up])
        ensures PathBlock(d, plays, up, q) == BlockOf(plays[play], d[up].src, q)
      {
        SplitUpBlocks(c, plays, id, up, off, q);
        assert PathBlock(c, plays, id, q) == BlockOf(plays[play], c[id].src, q);
      }
    }
  }

  lemma RootKeeps(c: Tree, plays: seq<Play>, p: int, n: Seg)
    requires Inv(c, plays) && p !in c && Inv(c[p := n], plays)
    ensures Keeps(c, c[p := n], plays)
  {
    hide Inv, PathBlock;
    forall i | i in c
      ensures KeptAt(c, c[p := n], plays, i)
    {
      forall q: nat | q < End(c[i])
        ensures PathBlock(c[p := n], plays, i, q) == PathBlock(c, plays, i, q)
      {
        RootBlocks(c, plays, p, n, i, q);
      }
    }
  }

  lemma ParentLive(c: Tree, plays: seq<Play>, p: int)
    requires Inv(c, plays) && p in c
    ensures p != -1 && p >= 0
  {
  }

  // ---- the steps of serving a request ----

  lemma SameShapeStores(c: Tree, d: Tree, plays: seq<Play>, play: nat, done: seq<nat>)
    requires Inv(c, plays) && Inv(d, plays) && play < |plays| && SameShape(c, d) && Stores(c, plays, play, done)
    requires forall i :: i in c ==> d[i].tier == c[i].tier
    ensures Stores(d, plays, play, done)
    ensures forall i :: i in c && FirstPath(c, plays, i) ==> FirstPath(d, plays, i)
  {
    hide Inv, Holding, Keeps, Shows, FirstPath, Findable, SameLinks;
    SameShapeKeeps(c, d, plays);
    HoldingKept(c, d, plays, play, done);
    InvShape(c, plays);
    InvShape(d, plays);
    LinksShow(c, d, plays, play, Findable(plays[play], done));
    forall i | i in c
      ensures FirstPath(d, plays, i) <==> FirstPath(c, plays, i)
    {
      LinksFirst(c, d, plays, i);
    }
  }

  lemma TailStores(c: Tree, plays: seq<Play>, play: nat, done: seq<nat>, x: int, tail: nat)
    requires Inv(c, plays) && play < |plays| && Stores(c, plays, play, done) && x in c &&
      Inv(SetTail(c, x, tail), plays)
    ensures Stores(SetTail(c, x, tail), plays, play, done)
  {
    hide Inv, Holding, Keeps, Shows, FirstPath, Findable, SameLinks;
    var d := SetTail(c, x, tail);
    TailKeeps(c, plays, x, tail);
    HoldingKept(c, d, plays, play, done);
    InvShape(c, plays);
    InvShape(d, plays);
    LinksShow(c, d, plays, play, Findable(plays[play], done));
    TailTop(c, x, tail);
  }

  lemma TailTop(c: Tree, x: int, tail: nat)
    requires x in c && AllTop(c)
    ensures AllTop(SetTail(c, x, tail))
  {
  }

  /** Preparing the segment a hit pins: a new root, the segment itself, or its split-off upper part. */
  lemma PreparedStores(c: Tree, m: Tree, plays: seq<Play>, play: nat, done: seq<nat>, h: Hit, p: int, now: real)
    requires Inv(c, plays) && Inv(m, plays) && play < |plays| && Stores(c, plays, play, done) &&
      Prepared(c, m, h, p, play, now)
    requires h.node != -1 ==> h.node in c && FirstPath(c, plays, h.node)
    ensures Stores(m, plays, play, done) && p in m && FirstPath(m, plays, p)
  {
    hide Inv, Holding, Keeps, Split, Shows, Findable, FirstPath;
    InvShape(c, plays);
    InvShape(m, plays);
    if h.node == -1 {
      RootKeeps(c, plays, p, NewRoot(play, now));
      HoldingKept(c, m, plays, play, done);
      RootShow(c, plays, p, NewRoot(play, now), play, Findable(plays[play], done));
    } else if p != h.node {
      ParentDiffers(c, plays, h.node);
      SplitKeeps(c, plays, h.node, p, h.off);
      SplitUpper(c, plays, play, done, h.node, p, h.off);
      SplitSegs(c, plays, h.node, p, h.off, h.node);
      HoldingKept(c, m, plays, play, done);
      SplitShow(c, plays, h.node, p, h.off, play, Findable(plays[play], done));
      SplitTop(c, h.node, p, h.off);
    }
  }

  lemma ParentDiffers(c: Tree, plays: seq<Play>, i: int)
    requires Inv(c, plays) && i in c
    ensures c[i].parent != i
  {
  }

  lemma SplitTop(c: Tree, id: int, up: int, off: nat)
    requires id in c && c[id].parent in c && id in c[c[id].parent].kids && 0 < off < c[id].nblocks && AllTop(c)
    ensures AllTop(Split(c, id, up, off))
  {
  }

  lemma TailChildStores(c: Tree, plays: seq<Play>, play: nat, p: int, t: int, v: set<nat>)
    requires Inv(c, plays) && p in c && t != p && t !in c && (c[p].tail > 0 ==> t >= 0) &&
      (c[p].parent != -1 ==> c[p].nblocks > 0)
    requires Shows(c, plays, play, v) && FirstPath(c, plays, p)
    ensures var w := WithTailChild(c, p, t); (
      Inv(w, plays) && Keeps(c, w, plays) && w.Keys == c.Keys + (if c[p].tail > 0 then {t} else {}) &&
      Shows(w, plays, play, v) && FirstPath(w, plays, p))
  {
    hide Shape, Tiers, Pinning, Slices, Keeps, PathBlock, Shows, FirstPath, SameLinks;
    if c[p].tail > 0 {
      var e, k := SetTail(c, p, 0), TailSeg(c[p], p);
      RootHasNoTail(c, p);
      ParentLive(c, plays, p);
      SetTailInv(c, plays, p, 0);
      SliceAt(c, plays, p);
      TailSlice(c[p], p, plays);
      LinkFrontInv(e, plays, p, t, k);
      TailKeeps(c, plays, p, 0);
      LinkKeeps(e, plays, p, t, k);
      KeepsTrans(c, e, LinkFront(e, p, t, k), plays);
      LinksShow(c, e, plays, play, v);
      LinksFirst(c, e, plays, p);
      TailShow(e, plays, p, t, k, play, v);
    } else {
      KeepsSelf(c, plays);
    }
  }

  lemma TailChildRoots(c: Tree, p: int, t: int)
    requires p in c && t != p && t !in c && p != -1 && SingleRoots(c)
    ensures SingleRoots(WithTailChild(c, p, t))
  {
    var w := WithTailChild(c, p, t);
    assert forall i :: i in w ==>
      if i == t && t !in c then w[i].parent == p else i in c && w[i].parent == c[i].parent && w[i].play == c[i].play;
    assert forall i :: i in w && w[i].parent == -1 ==> i in c && c[i].parent == -1 && c[i].play == w[i].play;
  }

  /** Inserting the rest of the prompt: the request is stored, and what can be found is what the sets say. */
  lemma InsertStores(c: Tree, d: Tree, plays: seq<Play>, play: nat, done: seq<nat>, p: int, t: int, id: int, r: nat,
                     now: real)
    requires Inv(c, plays) && Inv(d, plays) && SingleRoots(c) && play < |plays| && Stores(c, plays, play, done)
    requires r < |plays[play].reqs| && plays[play].reqs[r].count > 0
    requires var from := Used(plays[play], Findable(plays[play], done), r); (
      Grounded(c, plays, p, play, r, from) && FirstPath(c, plays, p) &&
      t != p && t != id && t !in c && id !in c && d == Insert(c, p, t, id, r, plays[play].reqs[r].count - from, now))
    requires Grounded(d, plays, id, play, r, plays[play].reqs[r].count)
    ensures Stores(d, plays, play, done + [r])
  {
    hide Inv, Holding, Keeps, PathIs, FromDone, Shows, FirstPath, Findable, Used, Chained, SingleRoots, WithTailChild,
         BlockSeg;
    var v := Findable(plays[play], done);
    var from := Used(plays[play], v, r);
    var n := plays[play].reqs[r].count - from;
    var w, k := WithTailChild(c, p, t), BlockSeg(c[p], p, r, n, now);
    InsertTop(c, p, t, id, r, n, now);
    if c[p].tail > 0 { ParentLive(d, plays, t); }
    TailChildStores(c, plays, play, p, t, v);
    ParentLive(c, plays, p);
    TailChildRoots(c, p, t);
    BlockSegIs(c, p, r, n, now);
    LinkKeeps(w, plays, p, id, k);
    KeepsTrans(c, w, d, plays);
    HoldingGrows(c, d, plays, play, done, id, t, r);
    StoresSourced(c, plays, play, done);
    SourcedKept(c, w, plays, play, t);
    GroundedKept(c, w, plays, p, t, play, r, from);
    assert Enters(w, plays, play, p, id, k, r, from);
    PromptShows(w, plays, play, p, id, k, r, from, v);
    FindableNext(plays[play], done, r);
  }

  lemma BlockSegIs(c: Tree, p: int, r: nat, n: nat, now: real)
    requires p in c
    ensures var k := BlockSeg(c[p], p, r, n, now);
      k.parent == p && k.play == c[p].play && k.start == End(c[p]) && k.nblocks == n && k.src == r
  {
  }

  lemma SourcedKept(c: Tree, w: Tree, plays: seq<Play>, play: nat, t: int)
    requires Inv(c, plays) && Inv(w, plays) && Keeps(c, w, plays) && AllSourced(c, plays, play)
    requires forall n :: n in w && n !in c ==> w[n].nblocks == 0
    ensures AllSourced(w, plays, play)
  {
    hide Inv, PathIs, PathBlock;
    forall n | n in w && w[n].play == play
      ensures Sourced(w, plays, n)
    {
      if n in c {
        assert KeptAt(c, w, plays, n) && Sourced(c, plays, n);
        if c[n].nblocks > 0 { KeptPath(c, w, plays, n, c[n].src, End(c[n])); }
      }
    }
  }

  lemma GroundedKept(c: Tree, w: Tree, plays: seq<Play>, p: int, t: int, play: nat, r: nat, from: nat)
    requires Inv(c, plays) && Inv(w, plays) && Keeps(c, w, plays) && Grounded(c, plays, p, play, r, from)
    requires t != p && t !in c && w == WithTailChild(c, p, t)
    ensures Grounded(w, plays, p, play, r, from)
  {
    hide Inv, PathIs, PathBlock;
    assert KeptAt(c, w, plays, p);
    KeptPath(c, w, plays, p, r, from);
  }

  lemma FindableNext(p: Play, done: seq<nat>, r: nat)
    requires Order(p, done) && r < |p.reqs| && p.reqs[r].count > 0
    ensures Order(p, done + [r]) && Findable(p, done + [r]) == Next(p, Findable(p, done), r)
  {
    hide Chained, Next, SeenSets.Whole;
    var d := done + [r];
    assert d[..|d| - 1] == done && d[|d| - 1] == r;
  }

  lemma InsertTop(c: Tree, p: int, t: int, id: int, r: nat, n: nat, now: real)
    requires p in c && t != p && t != id && t !in c && id !in c && AllTop(c)
    ensures AllTop(Insert(c, p, t, id, r, n, now))
    ensures var d := Insert(c, p, t, id, r, n, now);
      id in d && d[id].src == r && d.Keys == c.Keys + {id} + (if c[p].tail > 0 then {t} else {}) &&
        (t in d ==> d[t].nblocks == 0)
  {
  }

  lemma HoldingGrows(c: Tree, d: Tree, plays: seq<Play>, play: nat, done: seq<nat>, id: int, t: int, r: nat)
    requires Inv(c, plays) && Inv(d, plays) && play < |plays| && Holding(c, plays, play, done) && Keeps(c, d, plays)
    requires r < |plays[play].reqs| && Grounded(d, plays, id, play, r, plays[play].reqs[r].count) && id in d &&
      d[id].src == r
    requires forall n :: n in d ==> n in c || n == id || (n == t && d[n].nblocks == 0)
    ensures Holding(d, plays, play, done + [r])
  {
    hide Inv, PathIs, PathBlock;
    forall s | s in done + [r]
      ensures s < |plays[play].reqs| && Stored(d, plays, play, s)
    {
      if s in done {
        StoredKept(c, d, plays, play, s);
      }
    }
    forall n | n in d
      ensures FromDone(d, plays, play, done + [r], n)
    {
      if n in c { DoneKept(c, d, plays, play, done, n); }
    }
  }
}
