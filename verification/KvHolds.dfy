/** What the holders of pins rely on: a pinned segment keeps its place, its depth and the blocks above it. */
module KvHolds {
  import opened KvTree

  /** Segment i keeps its place, its depth and every block above it. */
  ghost predicate Fixed(c: Tree, d: Tree, plays: seq<Play>, i: int)
    requires Inv(c, plays) && Inv(d, plays) && i in c
  {
    && i in d && d[i].play == c[i].play && End(d[i]) == End(c[i]) && d[i].start >= c[i].start
    && (d[i].parent == -1 <==> c[i].parent == -1)
    && (c[i].nblocks > 0 ==> d[i].nblocks > 0)
    && d[i].tier <= c[i].tier
    && (forall q {:trigger PathBlock(d, plays, i, q)} :: 0 <= q < End(c[i]) ==>
      PathBlock(d, plays, i, q) == PathBlock(c, plays, i, q))
  }

  /** Every pinned segment keeps its place. */
  ghost predicate Firm(c: Tree, d: Tree, plays: seq<Play>)
    requires Inv(c, plays) && Inv(d, plays)
  {
    forall i :: i in c && c[i].pins > 0 ==> Fixed(c, d, plays, i)
  }

  /** Pins beyond the one a root holds on itself. */
  function Held(c: Tree, i: int): int {
    if i in c then c[i].pins - (if c[i].parent == -1 then 1 else 0) else 0
  }

  lemma ShedsFirm(c: Tree, d: Tree, plays: seq<Play>)
    requires Inv(c, plays) && Inv(d, plays) && Sheds(c, d, 0)
    ensures Firm(c, d, plays)
    ensures forall i :: Held(d, i) == Held(c, i)
  {
    forall i | i in c && c[i].pins > 0
      ensures Fixed(c, d, plays, i)
    {
      assert Kept(c[i], d[i]);
      forall q: nat | q < End(c[i])
        ensures PathBlock(d, plays, i, q) == PathBlock(c, plays, i, q)
      {
        ShedsPath(c, d, plays, 0, i, q);
      }
    }
    forall i
      ensures Held(d, i) == Held(c, i)
    {
      if i in d { assert Kept(c[i], d[i]); }
      if i in c && c[i].parent == -1 { RootTierOr(c, i); }
      if i in c && i !in d { NoPins(c, i); }
    }
  }

  lemma RootTierOr(c: Tree, i: int)
    requires Pinning(c) && i in c && c[i].parent == -1
    ensures c[i].pins > 0
  {
  }

  lemma NoPins(c: Tree, i: int)
    requires Pinning(c) && i in c
    ensures c[i].pins >= 0 && (c[i].parent == -1 ==> c[i].pins > 0)
  {
  }

  lemma {:induction false} SameShapeBlocks(c: Tree, e: Tree, plays: seq<Play>, i: int, q: nat)
    requires Inv(c, plays) && Inv(e, plays) && SameShape(c, e) && i in c && q < End(c[i])
    ensures End(e[i]) == End(c[i]) && PathBlock(e, plays, i, q) == PathBlock(c, plays, i, q)
    decreases Height(c[i])
  {
    assert e[i] == c[i].(tier := e[i].tier, pins := e[i].pins, lastAccess := e[i].lastAccess);
    if q < c[i].start {
      SameShapeBlocks(c, e, plays, c[i].parent, q);
    }
  }

  lemma SameShapeFirm(c: Tree, e: Tree, plays: seq<Play>)
    requires Inv(c, plays) && Inv(e, plays) && SameShape(c, e)
    requires forall i {:trigger e[i].tier} :: i in c ==> e[i].tier <= c[i].tier
    ensures Firm(c, e, plays)
  {
    forall i | i in c && c[i].pins > 0
      ensures Fixed(c, e, plays, i)
    {
      assert e[i] == c[i].(tier := e[i].tier, pins := e[i].pins, lastAccess := e[i].lastAccess);
      forall q: nat | q < End(c[i])
        ensures PathBlock(e, plays, i, q) == PathBlock(c, plays, i, q)
      {
        SameShapeBlocks(c, e, plays, i, q);
      }
    }
  }

  lemma {:induction false} SplitBlocks(c: Tree, plays: seq<Play>, id: int, up: int, off: nat, i: int, q: nat)
    requires Inv(c, plays) && id in c && c[id].parent in c && id in c[c[id].parent].kids && 0 < off < c[id].nblocks &&
      up !in c
    requires Inv(Split(c, id, up, off), plays) && i in c && q < End(c[i])
    ensures var d := Split(c, id, up, off);
      i in d && End(d[i]) == End(c[i]) && PathBlock(d, plays, i, q) == PathBlock(c, plays, i, q)
    decreases Height(c[i])
  {
    var d := Split(c, id, up, off);
    if q < c[i].start {
      ParentAt(c, i);
      SplitBlocks(c, plays, id, up, off, c[i].parent, q);
      if i == id {
        assert PathBlock(d, plays, id, q) == PathBlock(d, plays, up, q);
      }
    } else if i == id && q < d[id].start {
      assert PathBlock(d, plays, id, q) == PathBlock(d, plays, up, q);
    }
  }

  lemma SplitUpBlocks(c: Tree, plays: seq<Play>, id: int, up: int, off: nat, q: nat)
    requires Inv(c, plays) && id in c && c[id].parent in c && id in c[c[id].parent].kids && 0 < off < c[id].nblocks &&
      up !in c
    requires Inv(Split(c, id, up, off), plays) && q < c[id].start + off
    ensures PathBlock(Split(c, id, up, off), plays, up, q) == PathBlock(c, plays, id, q)
  {
    var d := Split(c, id, up, off);
    SplitBlocks(c, plays, id, up, off, id, q);
    assert q < d[id].start;
    assert PathBlock(d, plays, id, q) == PathBlock(d, plays, up, q);
  }

  lemma SplitFirm(c: Tree, plays: seq<Play>, id: int, up: int, off: nat)
    requires Inv(c, plays) && id in c && c[id].parent in c && id in c[c[id].parent].kids && 0 < off < c[id].nblocks
    requires up !in c && up >= 0 && c[id].parent != id && Inv(Split(c, id, up, off), plays)
    ensures Firm(c, Split(c, id, up, off), plays)
    ensures forall i :: Held(Split(c, id, up, off), i) == Held(c, i)
  {
    hide Shape, Tiers, Pinning, Slices, Renamed, PathBlock;
    var d := Split(c, id, up, off);
    ParentAt(c, id);
    ParentAt(c, c[id].parent);
    forall i | i in c && c[i].pins > 0
      ensures Fixed(c, d, plays, i)
    {
      forall q: nat | q < End(c[i])
        ensures PathBlock(d, plays, i, q) == PathBlock(c, plays, i, q)
      {
        SplitBlocks(c, plays, id, up, off, i, q);
      }
    }
  }

  lemma {:induction false} LinkBlocks(c: Tree, plays: seq<Play>, p: int, k: int, n: Seg, i: int, q: nat)
    requires Inv(c, plays) && p in c && k !in c && Inv(LinkFront(c, p, k, n), plays) && i in c && q < End(c[i])
    ensures var d := LinkFront(c, p, k, n);
      End(d[i]) == End(c[i]) && PathBlock(d, plays, i, q) == PathBlock(c, plays, i, q)
    decreases Height(c[i])
  {
    if q < c[i].start {
      LinkBlocks(c, plays, p, k, n, c[i].parent, q);
    }
  }

  lemma LinkFixed(c: Tree, plays: seq<Play>, p: int, k: int, n: Seg, i: int)
    requires Inv(c, plays) && p in c && k !in c && Inv(LinkFront(c, p, k, n), plays) && i in c
    ensures Fixed(c, LinkFront(c, p, k, n), plays, i)
  {
    hide Inv, PathBlock;
    var d := LinkFront(c, p, k, n);
    assert d[i] == c[i].(kids := d[i].kids);
    forall q: nat | q < End(c[i])
      ensures PathBlock(d, plays, i, q) == PathBlock(c, plays, i, q)
    {
      LinkBlocks(c, plays, p, k, n, i, q);
    }
  }

  lemma LinkHeld(c: Tree, p: int, k: int, n: Seg)
    requires p in c && k !in c && n.parent != -1
    ensures forall i :: Held(LinkFront(c, p, k, n), i) == Held(c, i) + (if i == k then n.pins else 0)
  {
  }

  lemma LinkFirm(c: Tree, plays: seq<Play>, p: int, k: int, n: Seg)
    requires Inv(c, plays) && p in c && k !in c && Inv(LinkFront(c, p, k, n), plays) && n.parent != -1
    ensures Firm(c, LinkFront(c, p, k, n), plays)
    ensures forall i :: Held(LinkFront(c, p, k, n), i) == Held(c, i) + (if i == k then n.pins else 0)
  {
    hide Inv, Fixed;
    LinkHeld(c, p, k, n);
    forall i | i in c && c[i].pins > 0
      ensures Fixed(c, LinkFront(c, p, k, n), plays, i)
    {
      LinkFixed(c, plays, p, k, n, i);
    }
  }

  lemma {:induction false} TailBlocks(c: Tree, plays: seq<Play>, x: int, tail: nat, i: int, q: nat)
    requires Inv(c, plays) && x in c && Inv(SetTail(c, x, tail), plays) && i in c && q < End(c[i])
    ensures var d := SetTail(c, x, tail);
      End(d[i]) == End(c[i]) && PathBlock(d, plays, i, q) == PathBlock(c, plays, i, q)
    decreases Height(c[i])
  {
    if q < c[i].start {
      TailBlocks(c, plays, x, tail, c[i].parent, q);
    }
  }

  lemma TailFirm(c: Tree, plays: seq<Play>, x: int, tail: nat)
    requires Inv(c, plays) && x in c && Inv(SetTail(c, x, tail), plays)
    ensures Firm(c, SetTail(c, x, tail), plays)
    ensures forall i :: Held(SetTail(c, x, tail), i) == Held(c, i)
  {
    var d := SetTail(c, x, tail);
    forall i | i in c && c[i].pins > 0
      ensures Fixed(c, d, plays, i)
    {
      forall q: nat | q < End(c[i])
        ensures PathBlock(d, plays, i, q) == PathBlock(c, plays, i, q)
      {
        TailBlocks(c, plays, x, tail, i, q);
      }
    }
  }

  lemma {:induction false} RootBlocks(c: Tree, plays: seq<Play>, x: int, n: Seg, i: int, q: nat)
    requires Inv(c, plays) && x !in c && Inv(c[x := n], plays) && i in c && q < End(c[i])
    ensures PathBlock(c[x := n], plays, i, q) == PathBlock(c, plays, i, q)
    decreases Height(c[i])
  {
    if q < c[i].start {
      RootBlocks(c, plays, x, n, c[i].parent, q);
    }
  }

  lemma AddRootFirm(c: Tree, plays: seq<Play>, x: int, n: Seg)
    requires Inv(c, plays) && x !in c && Inv(c[x := n], plays)
    ensures Firm(c, c[x := n], plays)
    ensures forall i :: Held(c[x := n], i) == Held(c, i) + (if i == x then Held(c[x := n], x) else 0)
  {
    var d := c[x := n];
    forall i | i in c && c[i].pins > 0
      ensures Fixed(c, d, plays, i)
    {
      forall q: nat | q < End(c[i])
        ensures PathBlock(d, plays, i, q) == PathBlock(c, plays, i, q)
      {
        RootBlocks(c, plays, x, n, i, q);
      }
    }
  }

  /** A request's prompt lies on the path to segment i, exactly to depth len, on the device tier. */
  ghost predicate Grounded(c: Tree, plays: seq<Play>, i: int, play: nat, r: nat, len: nat)
    requires Inv(c, plays)
  {
    && i in c && c[i].play == play && End(c[i]) == len && c[i].tier == 0
    && (c[i].parent != -1 ==> c[i].nblocks > 0)
    && PathIs(c, plays, i, r, len)
  }

  lemma FirmGrounded(c: Tree, d: Tree, plays: seq<Play>, i: int, play: nat, r: nat, len: nat)
    requires Inv(c, plays) && Inv(d, plays) && i in c && Fixed(c, d, plays, i) && Grounded(c, plays, i, play, r, len)
    ensures Grounded(d, plays, i, play, r, len)
  {
  }

  // ---- tails ----

  /** No surviving segment gained generated tokens. */
  ghost predicate TailsKept(c: Tree, d: Tree) {
    forall i {:trigger d[i].tail} :: i in c && i in d && c[i].tail == 0 ==> d[i].tail == 0
  }

  lemma ShedsTails(c: Tree, d: Tree, t: nat)
    requires Sheds(c, d, t)
    ensures TailsKept(c, d)
  {
  }

  lemma SameShapeTails(c: Tree, d: Tree)
    requires SameShape(c, d)
    ensures TailsKept(c, d)
  {
  }

  // ---- hits an admission may use ----

  /** A resident proper prefix of request r, or nothing at all. */
  ghost predicate Usable(c: Tree, plays: seq<Play>, h: Hit, play: nat, r: nat)
    requires Inv(c, plays) && GoodReq(plays, play, r)
  {
    if h.node == -1 then h == Hit(-1, 0, 0, false)
    else
      && h.node in c && c[h.node].play == play && HitAt(c[h.node], h)
      && PathIs(c, plays, h.node, r, h.blocks) && h.blocks < plays[play].reqs[r].count
      && (h.lower <==> c[h.node].tier > 0)
  }

  lemma StampPathIs(c: Tree, plays: seq<Play>, s: set<int>, now: real, i: int, r: nat, n: nat)
    requires Inv(c, plays) && Inv(Stamp(c, s, now), plays) && i in c && PathIs(c, plays, i, r, n)
    ensures PathIs(Stamp(c, s, now), plays, i, r, n)
  {
    var d := Stamp(c, s, now);
    assert SameShape(c, d);
    forall q: nat | q < n
      ensures PathBlock(d, plays, i, q) == BlockOf(plays[d[i].play], r, q)
    {
      SameShapeBlocks(c, d, plays, i, q);
    }
  }

  /** A match that ends inside, or exactly at the top of, a segment restricts to its parent. */
  lemma ParentPathIs(c: Tree, plays: seq<Play>, i: int, r: nat, n: nat)
    requires Inv(c, plays) && i in c && c[i].parent != -1 && PathIs(c, plays, i, r, n) && n >= c[i].start
    ensures c[i].parent in c && End(c[c[i].parent]) == c[i].start && PathIs(c, plays, c[i].parent, r, c[i].start)
    ensures c[c[i].parent].play == c[i].play
  {
    ParentAt(c, i);
    ChildStart(c, i);
    var p := c[i].parent;
    forall q: nat | q < c[i].start
      ensures PathBlock(c, plays, p, q) == BlockOf(plays[c[p].play], r, q)
    {
      assert PathBlock(c, plays, i, q) == BlockOf(plays[c[i].play], r, q);
    }
  }

  lemma ShorterPathIs(c: Tree, plays: seq<Play>, i: int, r: nat, n: nat, m: nat)
    requires Inv(c, plays) && i in c && PathIs(c, plays, i, r, n) && m <= n
    ensures PathIs(c, plays, i, r, m)
  {
  }

  /** An inner segment has blocks; a root has none. */
  lemma InnerBlocks(c: Tree, plays: seq<Play>, i: int)
    requires Inv(c, plays) && i in c
    ensures c[i].parent == -1 ==> End(c[i]) == 0 && c[i].nblocks == 0 && c[i].tier == 0
    ensures c[i].parent != -1 && c[i].kids != [] ==> c[i].nblocks > 0
  {
  }

  lemma LapsedSheds(c: Tree, d: Tree, now: real, limit: real)
    requires Shape(c) && Lapsed(c, d, now, limit)
    ensures Sheds(c, d, 0)
  {
  }

  lemma FixedSelf(c: Tree, d: Tree, plays: seq<Play>, i: int)
    requires Inv(c, plays) && Inv(d, plays) && SameShape(c, d) && i in c && d[i].tier <= c[i].tier
    ensures Fixed(c, d, plays, i)
  {
    assert d[i] == c[i].(tier := d[i].tier, pins := d[i].pins, lastAccess := d[i].lastAccess);
    forall q: nat | q < End(c[i])
      ensures PathBlock(d, plays, i, q) == PathBlock(c, plays, i, q)
    {
      SameShapeBlocks(c, d, plays, i, q);
    }
  }

  lemma FixedChain(c: Tree, d: Tree, e: Tree, plays: seq<Play>, i: int)
    requires Inv(c, plays) && Inv(d, plays) && Inv(e, plays) && i in c && Fixed(c, d, plays, i) && Fixed(d, e, plays, i)
    ensures Fixed(c, e, plays, i)
  {
  }

  /** The pins of d above those of c sit on p alone. */
  ghost predicate OnePinMore(c: Tree, d: Tree, plays: seq<Play>, p: int)
    requires Inv(c, plays) && Inv(d, plays)
  {
    Firm(c, d, plays) && TailsKept(c, d) && PinnedTop(d) &&
      forall n :: Held(d, n) == Held(c, n) + (if n == p then 1 else 0)
  }

  lemma AddPinMore(c: Tree, plays: seq<Play>, p: int)
    requires Inv(c, plays) && p in c && c[p].tier == 0 && PinnedTop(c) && Inv(AddPins(c, p, 1), plays)
    ensures OnePinMore(c, AddPins(c, p, 1), plays, p)
  {
    var d := AddPins(c, p, 1);
    AddPinsShape(c, p, 1);
    SameShapeFirm(c, d, plays);
    SameShapeTails(c, d);
  }

  /** Pinning a hit grounds the request on exactly the matched prefix. */
  lemma HitPinnedStep(c: Tree, m: Tree, d: Tree, plays: seq<Play>, h: Hit, p: int, play: nat, r: nat, now: real)
    requires Inv(c, plays) && Inv(d, plays) && Inv(m, plays) && GoodReq(plays, play, r) && PinnedTop(c)
    requires Usable(c, plays, h, play, r) && !h.lower && Prepared(c, m, h, p, play, now)
    requires p in m && d == AddPins(m, p, 1)
    ensures OnePinMore(c, d, plays, p) && Grounded(d, plays, p, play, r, h.blocks)
  {
    hide Inv, Fixed, PathBlock, Grounded;
    HitMid(c, m, plays, h, p, play, r, now);
    AddPinMore(m, plays, p);
    AddPinsShape(m, p, 1);
    FixedSelf(m, d, plays, p);
    FirmGrounded(m, d, plays, p, play, r, h.blocks);
    forall i | i in c && c[i].pins > 0
      ensures Fixed(c, d, plays, i)
    {
      assert i in m && Fixed(c, m, plays, i);
      FixedLive(c, m, plays, i);
      SameFixed(m, d, plays, i, p);
      FixedChain(c, m, d, plays, i);
    }
  }

  lemma FixedLive(c: Tree, d: Tree, plays: seq<Play>, i: int)
    requires Inv(c, plays) && Inv(d, plays) && i in c && Fixed(c, d, plays, i)
    ensures i in d
  {
  }

  lemma SameFixed(m: Tree, d: Tree, plays: seq<Play>, i: int, p: int)
    requires Inv(m, plays) && Inv(d, plays) && p in m && d == AddPins(m, p, 1) && i in m
    ensures Fixed(m, d, plays, i)
  {
    AddPinsShape(m, p, 1);
    FixedSelf(m, d, plays, i);
  }

  /** Before the pin is taken: a new root, the segment itself, or its split-off upper part. */
  lemma HitMid(c: Tree, m: Tree, plays: seq<Play>, h: Hit, p: int, play: nat, r: nat, now: real)
    requires Inv(c, plays) && Inv(m, plays) && GoodReq(plays, play, r) && PinnedTop(c)
    requires Usable(c, plays, h, play, r) && !h.lower && p in m && Prepared(c, m, h, p, play, now)
    ensures Firm(c, m, plays) && TailsKept(c, m) && PinnedTop(m) && Grounded(m, plays, p, play, r, h.blocks)
    ensures forall n :: Held(m, n) == Held(c, n)
  {
    if h.node == -1 {
      hide Shape, Tiers, Pinning, Slices;
      AddRootFirm(c, plays, p, NewRoot(play, now));
    } else if p == h.node {
      hide Shape, Tiers, Pinning, Slices, PathBlock;
      InnerBlocks(c, plays, p);
    } else {
      hide Shape, Tiers, Pinning, Slices, PathBlock, Renamed;
      ParentAt(c, h.node);
      ParentAt(c, c[h.node].parent);
      SplitFirm(c, plays, h.node, p, h.off);
      forall q: nat | q < h.blocks
        ensures PathBlock(m, plays, p, q) == BlockOf(plays[play], r, q)
      {
        SplitUpBlocks(c, plays, h.node, p, h.off, q);
        assert PathBlock(c, plays, h.node, q) == BlockOf(plays[play], r, q);
      }
    }
  }

  /** A completed load: one more pin on the node, its whole path on the device tier. */
  lemma LoadedStep(c: Tree, e: Tree, c1: Tree, f: Tree, d: Tree, plays: seq<Play>, node: int)
    requires Inv(c, plays) && node in c && PinnedTop(c) && e == PinAll(c, Path(c, node), 1) && Inv(e, plays)
    requires Sheds(e, c1, 0) && Inv(c1, plays) && f == LiftAll(c1, Path(c, node)) && Inv(f, plays)
    requires d == PinAll(f, Path(c, node) - {node}, -1) && Inv(d, plays)
    ensures OnePinMore(c, d, plays, node) && node in d && d[node].tier == 0 && d[node].play == c[node].play
  {
    LoadFixed(c, e, c1, plays, node);
    LoadHeld(c, e, c1, f, d, plays, node);
    LiftShape(c1, f, d, Path(c, node), node);
    hide Fixed, Inv, Path, PinAll, LiftAll, TailsKept, PinnedTop, Held, SameShape;
    forall i | i in c && c[i].pins > 0
      ensures Fixed(c, d, plays, i)
    {
      LiftFixed(c, c1, f, d, plays, i);
    }
  }

  lemma LiftShape(c1: Tree, f: Tree, d: Tree, p: set<int>, node: int)
    requires f == LiftAll(c1, p) && d == PinAll(f, p - {node}, -1)
    ensures SameShape(c1, f) && SameShape(f, d)
    ensures forall i :: i in c1 ==> i in f && i in d && f[i].tier <= c1[i].tier && d[i].tier <= f[i].tier
  {
  }

  lemma LiftFixed(c: Tree, c1: Tree, f: Tree, d: Tree, plays: seq<Play>, i: int)
    requires Inv(c, plays) && Inv(c1, plays) && Inv(f, plays) && Inv(d, plays) && SameShape(c1, f) && SameShape(f, d)
    requires i in c && Fixed(c, c1, plays, i)
    requires i in c1 ==> i in f && i in d && f[i].tier <= c1[i].tier && d[i].tier <= f[i].tier
    ensures Fixed(c, d, plays, i)
  {
    hide Inv;
    FixedLive(c, c1, plays, i);
    hide Fixed;
    FixedSelf(c1, f, plays, i);
    FixedSelf(f, d, plays, i);
    FixedChain(c1, f, d, plays, i);
    FixedChain(c, c1, d, plays, i);
  }

  lemma LoadFixed(c: Tree, e: Tree, c1: Tree, plays: seq<Play>, node: int)
    requires Inv(c, plays) && node in c && e == PinAll(c, Path(c, node), 1) && Inv(e, plays)
    requires Sheds(e, c1, 0) && Inv(c1, plays)
    ensures Firm(c, c1, plays)
  {
    hide Fixed, PathBlock, Path;
    var p := Path(c, node);
    PinAllShape(c, p, 1);
    PinAllMore(c, p);
    ShedsFirm(e, c1, plays);
    hide Inv, Sheds;
    forall i | i in c && c[i].pins > 0
      ensures Fixed(c, c1, plays, i)
    {
      FixedSelf(c, e, plays, i);
      FixedChain(c, e, c1, plays, i);
    }
  }

  lemma PinAllMore(c: Tree, s: set<int>)
    ensures forall i :: i in c ==> i in PinAll(c, s, 1) && PinAll(c, s, 1)[i].pins >= c[i].pins
  {
  }

  /** Segment by segment: what a load changes. */
  lemma LoadSeg(c: Tree, e: Tree, c1: Tree, f: Tree, d: Tree, p: set<int>, node: int, n: int)
    requires e == PinAll(c, p, 1) && Sheds(e, c1, 0) && f == LiftAll(c1, p) && d == PinAll(f, p - {node}, -1) &&
      node in p
    requires n in d
    ensures n in c && d[n].pins == c[n].pins + (if n == node then 1 else 0)
    ensures d[n].tail == c[n].tail && d[n].play == c[n].play && d[n].parent == c[n].parent
    ensures if n in p then d[n].tier == 0 else d[n].tier >= c[n].tier && (c[n].pins > 0 ==> d[n].tier == c[n].tier)
  {
  }

  lemma LoadGone(c: Tree, e: Tree, c1: Tree, f: Tree, d: Tree, plays: seq<Play>, p: set<int>, node: int, n: int)
    requires e == PinAll(c, p, 1) && Sheds(e, c1, 0) && f == LiftAll(c1, p) && d == PinAll(f, p - {node}, -1)
    requires n in c && n !in d && Pinning(c)
    ensures c[n].pins == 0 && c[n].parent != -1
  {
  }

  lemma LoadHeld(c: Tree, e: Tree, c1: Tree, f: Tree, d: Tree, plays: seq<Play>, node: int)
    requires Inv(c, plays) && node in c && PinnedTop(c) && e == PinAll(c, Path(c, node), 1) && Inv(e, plays)
    requires Sheds(e, c1, 0) && Inv(c1, plays) && f == LiftAll(c1, Path(c, node)) && Inv(f, plays)
    requires d == PinAll(f, Path(c, node) - {node}, -1) && Inv(d, plays)
    ensures TailsKept(c, d) && PinnedTop(d) && (forall n :: Held(d, n) == Held(c, n) + (if n == node then 1 else 0))
    ensures node in d && d[node].tier == 0 && d[node].play == c[node].play
  {
    var p := Path(c, node);
    PathUp(c, node);
    PathPinned(c, e, node);
    hide Shape, Tiers, Slices, Path, PinAll, LiftAll, Sheds;
    if node !in d {
      LoadNode(c, e, c1, f, d, p, node);
    }
    forall n
      ensures Held(d, n) == Held(c, n) + (if n == node then 1 else 0)
    {
      if n in d {
        LoadSeg(c, e, c1, f, d, p, node, n);
      } else if n in c {
        LoadGone(c, e, c1, f, d, plays, p, node, n);
        LoadNode(c, e, c1, f, d, p, node);
      }
    }
    forall k | k in d
      ensures d[k].pins > 0 ==> d[k].tier == 0
      ensures k in c && (c[k].tail == 0 ==> d[k].tail == 0)
    {
      LoadSeg(c, e, c1, f, d, p, node, k);
    }
    LoadNode(c, e, c1, f, d, p, node);
    LoadSeg(c, e, c1, f, d, p, node, node);
  }

  lemma LoadNode(c: Tree, e: Tree, c1: Tree, f: Tree, d: Tree, p: set<int>, node: int)
    requires e == PinAll(c, p, 1) && Sheds(e, c1, 0) && f == LiftAll(c1, p) && d == PinAll(f, p - {node}, -1)
    requires node in p && node in e && e[node].pins > 0
    ensures node in d
  {
  }

  lemma BlockedSheds(c: Tree, e: Tree, c1: Tree, d: Tree, p: set<int>)
    requires Pinning(c) && e == PinAll(c, p, 1) && Sheds(e, c1, 0) && d == PinAll(c1, p, -1)
    ensures Sheds(c, d, 0)
  {
  }

  /** A blocked load gives every pin back. */
  lemma BlockedStep(c: Tree, e: Tree, c1: Tree, d: Tree, plays: seq<Play>, node: int)
    requires Inv(c, plays) && node in c && PinnedTop(c) && e == PinAll(c, Path(c, node), 1) && Inv(e, plays)
    requires Sheds(e, c1, 0) && Inv(c1, plays) && d == PinAll(c1, Path(c, node), -1) && Inv(d, plays)
    ensures Sheds(c, d, 0)
  {
    BlockedSheds(c, e, c1, d, Path(c, node));
  }

  lemma PathBound(c: Tree, plays: seq<Play>, i: int, r: nat, n: nat)
    requires Inv(c, plays) && i in c && PathIs(c, plays, i, r, n)
    ensures n <= plays[c[i].play].reqs[r].count
  {
  }

  // ---- insertion ----

  lemma LinkTops(c: Tree, p: int, k: int, n: Seg)
    requires p in c && k !in c && PinnedTop(c) && (n.pins > 0 ==> n.tier == 0)
    ensures PinnedTop(LinkFront(c, p, k, n)) && TailsKept(c, LinkFront(c, p, k, n))
  {
  }

  /** Generated tokens that move from a segment into a child disturb nobody. */
  lemma TailChildFirm(c: Tree, plays: seq<Play>, p: int, t: int)
    requires Inv(c, plays) && PinnedTop(c) && p in c && p != t && (c[p].parent != -1 ==> c[p].nblocks > 0)
    requires c[p].tail > 0 ==> t !in c && t >= 0
    ensures Inv(WithTailChild(c, p, t), plays) && Firm(c, WithTailChild(c, p, t), plays) &&
      PinnedTop(WithTailChild(c, p, t))
    ensures TailsKept(c, WithTailChild(c, p, t)) && forall n :: Held(WithTailChild(c, p, t), n) == Held(c, n)
    ensures WithTailChild(c, p, t)[p].(kids := []) == c[p].(kids := [], tail := 0)
    ensures WithTailChild(c, p, t).Keys == c.Keys + (if c[p].tail > 0 then {t} else {})
  {
    hide Shape, Tiers, Pinning, Slices, Fixed;
    if c[p].tail > 0 {
      var d := KvTree.SetTail(c, p, 0);
      var k := TailSeg(c[p], p);
      RootHasNoTail(c, p);
      NeverLive(c);
      SetTailInv(c, plays, p, 0);
      SliceAt(c, plays, p);
      TailSlice(c[p], p, plays);
      LinkFrontInv(d, plays, p, t, k);
      TailFirm(c, plays, p, 0);
      LinkFirm(d, plays, p, t, k);
      LinkTops(d, p, t, k);
      InsertFixed(c, d, LinkFront(d, p, t, k), plays);
    } else {
      FirmSelf(c, plays);
    }
  }

  lemma FirmSelf(c: Tree, plays: seq<Play>)
    requires Inv(c, plays)
    ensures Firm(c, c, plays)
  {
  }

  /** Inserting the blocks of request r below its pinned prefix grounds the request at their end. */
  lemma InsertFirm(c: Tree, d: Tree, plays: seq<Play>, p: int, t: int, id: int, play: nat, r: nat, from: nat, n: nat,
                   now: real)
    requires Inv(c, plays) && Inv(d, plays) && PinnedTop(c) && Grounded(c, plays, p, play, r, from) && c[p].pins > 0
    requires n > 0 && t != p && t != id && t !in c && id !in c && d == Insert(c, p, t, id, r, n, now)
    requires r < |plays[play].reqs| && from + n <= plays[play].reqs[r].count
    ensures OnePinMore(c, d, plays, id) && Grounded(d, plays, id, play, r, from + n)
    ensures id in d && d[id].parent == p && d[id].start == from && d[id].tail == 0 && d[id].tier == 0 && p != -1 &&
      id != -1
  {
    hide PathBlock, Shape, Tiers, Pinning, Slices;
    ParentAt(c, p);
    NeverLive(c);
    NeverLive(d);
    assert c[p].tail > 0 ==> t in d;
    InLive(d, t);
    TailChildFirm(c, plays, p, t);
    var w := WithTailChild(c, p, t);
    var k := BlockSeg(c[p], p, r, n, now);
    assert d == LinkFront(w, p, id, k) && id !in w;
    LinkFirm(w, plays, p, id, k);
    LinkTops(w, p, id, k);
    LinkParents(w, p, id, k);
    InsertFixed(c, w, d, plays);
    assert Fixed(c, d, plays, p);
    InsertedPath(c, d, plays, p, id, r, from, n);
  }

  lemma InLive(c: Tree, i: int)
    requires Shape(c)
    ensures i in c ==> i >= 0
  {
  }

  lemma LinkParents(c: Tree, p: int, i: int, n: Seg)
    requires p in c && i !in c && n.parent == p
    ensures LinkFront(c, p, i, n)[i] == n && i != p && i in LinkFront(c, p, i, n)
  {
  }

  lemma InsertFixed(c: Tree, w: Tree, d: Tree, plays: seq<Play>)
    requires Inv(c, plays) && Inv(w, plays) && Inv(d, plays) && Firm(c, w, plays) && Firm(w, d, plays)
    requires (forall n :: Held(w, n) == Held(c, n)) && TailsKept(c, w) && TailsKept(w, d) && c.Keys <= w.Keys
    ensures Firm(c, d, plays) && TailsKept(c, d)
  {
    forall i | i in c && c[i].pins > 0
      ensures Fixed(c, d, plays, i)
    {
      assert Fixed(c, w, plays, i) && Held(w, i) == Held(c, i);
      hide Fixed;
      FixedChain(c, w, d, plays, i);
    }
    forall i | i in c && i in d && c[i].tail == 0
      ensures d[i].tail == 0
    {
      assert w[i].tail == 0;
    }
  }

  lemma InsertedPath(c: Tree, d: Tree, plays: seq<Play>, p: int, id: int, r: nat, from: nat, n: nat)
    requires Inv(c, plays) && Inv(d, plays) && p in c && Fixed(c, d, plays, p) && End(c[p]) == from &&
      PathIs(c, plays, p, r, from)
    requires id in d && d[id].parent == p && d[id].start == from && d[id].nblocks == n > 0 && d[id].src == r &&
      d[id].play == c[p].play
    requires from + n <= plays[c[p].play].reqs[r].count
    ensures PathIs(d, plays, id, r, from + n)
  {
  }
}
