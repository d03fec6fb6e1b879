/** The radix index against the sets: requests served one at a time, each hit count as the sets give it. */
module PrefixHits {
  import opened KvTree
  import opened KvHolds
  import opened KvCache
  import opened Reach
  import opened SeenSets
  import opened IndexSteps
  import Hits

  lemma {:induction false} RootAbove(c: Tree, plays: seq<Play>, n: int) returns (i: int)
    requires Inv(c, plays) && n in c
    ensures i in c && c[i].parent == -1 && c[i].play == c[n].play
    decreases Height(c[n])
  {
    if c[n].parent == -1 {
      i := n;
    } else {
      ParentAt(c, n);
      i := RootAbove(c, plays, c[n].parent);
    }
  }

  lemma RootsHave(roots: map<nat, int>, c: Tree, play: nat)
    requires Roots(roots, c) && play !in roots
    ensures forall i :: i in c && c[i].parent == -1 ==> c[i].play != play
  {
    forall i | i in c && c[i].parent == -1
      ensures c[i].play != play
    {
      assert IsRoot(c, i);
    }
  }

  lemma RootsSingle(roots: map<nat, int>, c: Tree)
    requires Roots(roots, c)
    ensures SingleRoots(c)
  {
    forall i, j | i in c && j in c && c[i].parent == -1 && c[j].parent == -1
      ensures c[i].play != c[j].play || i == j
    {
      assert IsRoot(c, i) && IsRoot(c, j);
    }
  }

  /** A play without a root has no block that can be found. */
  lemma NothingShown(roots: map<nat, int>, c: Tree, plays: seq<Play>, play: nat, done: seq<nat>, r: nat)
    requires Roots(roots, c) && Inv(c, plays) && play < |plays| && Stores(c, plays, play, done) && play !in roots
    requires r < |plays[play].reqs| && plays[play].reqs[r].count > 0
    ensures Used(plays[play], Findable(plays[play], done), r) == 0
  {
    hide Inv, Holding, Findable, FirstPath, Chained, Roots;
    var v := Findable(plays[play], done);
    InvShape(c, plays);
    if id :| id in v {
      var n: int, q: nat :| n in c && c[n].play == play && ShownBy(c, plays, n, q, id);
      var i := RootAbove(c, plays, n);
      RootsHave(roots, c, play);
    }
    assert v == {};
    NoHits(plays[play], r);
  }

  lemma UsableFrom(c: Tree, s: set<int>, now: real, plays: seq<Play>, h: Hit, play: nat, r: nat)
    requires Inv(c, plays) && Inv(Stamp(c, s, now), plays) && GoodReq(plays, play, r) && Found(c, plays, h, play, r) &&
      AllTop(c)
    requires h.blocks < plays[play].reqs[r].count
    ensures Usable(Stamp(c, s, now), plays, h, play, r) && !h.lower && HitAt(Stamp(c, s, now)[h.node], h)
  {
    hide Inv, PathIs, Chained, Deepest;
    ParentLive(c, plays, h.node);
    StampPathIs(c, plays, s, now, h.node, r, h.blocks);
  }

  lemma TopsPinned(c: Tree)
    requires AllTop(c)
    ensures PinnedTop(c)
  {
  }

  /** On the device tier that many more tokens are counted beside the tree than before, and on no other tier. */
  ghost predicate OffMoves(used0: seq<int>, c: Tree, used: seq<int>, d: Tree, plays: seq<Play>, more: int) {
    |used| == |used0| && forall t :: 0 <= t < |used| ==>
      used[t] - TierTok(d, plays, t) == used0[t] - TierTok(c, plays, t) + (if t == 0 then more else 0)
  }

  lemma OffTrans(used0: seq<int>, c: Tree, used1: seq<int>, d: Tree, used: seq<int>, e: Tree, plays: seq<Play>, m: int,
                 n: int)
    requires OffMoves(used0, c, used1, d, plays, m) && OffMoves(used1, d, used, e, plays, n)
    ensures OffMoves(used0, c, used, e, plays, m + n)
  {
    hide TierTok;
  }

  lemma OffSame(used0: seq<int>, c: Tree, used: seq<int>, d: Tree, plays: seq<Play>)
    requires |used| == |used0|
    requires forall t :: 0 <= t < |used| ==>
      used[t] - TierTok(d, plays, t) == used0[t] - TierTok(c, plays, t)
    ensures OffMoves(used0, c, used, d, plays, 0)
  {
  }

  lemma TailOff(used: seq<int>, c: Tree, plays: seq<Play>, own: int, out: nat)
    requires Inv(c, plays) && own in c && c[own].parent != -1 && c[own].tail == 0 && c[own].tier == 0
    ensures OffMoves(used, c, used, SetTail(c, own, out), plays, -(out as int))
  {
    hide Inv, TierTok;
    SetTailInv(c, plays, own, out);
  }

  lemma ChargeOff(used: seq<int>, c: Tree, plays: seq<Play>, tok: int)
    requires used != []
    ensures OffMoves(used, c, used[0 := used[0] + tok], c, plays, tok)
  {
    hide TierTok;
  }

  lemma GrowthOff(used: seq<int>, c: Tree, d: Tree, plays: seq<Play>, n: Seg, tok: nat)
    requires forall k: nat :: TierTok(d, plays, k) == TierTok(c, plays, k) + (if k == 0 then Tok(n, plays) else 0)
    requires Tok(n, plays) == tok
    ensures OffMoves(used, c, used, d, plays, -(tok as int))
  {
    hide TierTok, Tok;
  }

  lemma OwnFresh(c: Tree, d: Tree, plays: seq<Play>, p: int, t: int, own: int, r: nat, left: nat, now: real)
    requires p in c && t !in c && t != own && own !in c && d == Insert(c, p, t, own, r, left, now)
    requires c[p].play < |plays|
    ensures own in d && d[own].tail == 0 && d[own].tier == 0
    ensures Tok(BlockSeg(c[p], p, r, left, now), plays) == left * plays[c[p].play].blockSize
  {
  }

  /** The lookup of a request served alone; a prompt found whole gives one block back. */
  method LookUp(cache: Cache, play: nat, r: nat, now: real, ghost done: seq<nat>) returns (h: Hit)
    requires cache.Valid() && cache.residencyLimit <= 0.0 && GoodReq(cache.plays, play, r) &&
      cache.plays[play].reqs[r].count > 0
    requires Stores(cache.tree, cache.plays, play, done)
    modifies cache
    ensures cache.Valid() && cache.used == old(cache.used) && Stores(cache.tree, cache.plays, play, done)
    ensures cache.roots == old(cache.roots) && (h.node == -1 <==> play !in cache.roots)
    ensures OffMoves(old(cache.used), old(cache.tree), cache.used, cache.tree, cache.plays, 0)
    ensures Usable(cache.tree, cache.plays, h, play, r) && !h.lower
    ensures h.blocks == Used(cache.plays[play], Findable(cache.plays[play], done), r)
    ensures h.node != -1 ==>
      h.node in cache.tree && HitAt(cache.tree[h.node], h) && FirstPath(cache.tree, cache.plays, h.node)
    ensures forall n :: Held(cache.tree, n) == old(Held(cache.tree, n))
  {
    hide Inv, Stands, Slots, Roots, TierTok, Holding, HitsFrom, Findable, Chained, Deepest, PathIs, FirstPath, Shows,
         SingleRoots;
    ghost var c0, used0, plays := cache.tree, cache.used, cache.plays;
    ghost var mid: Tree;
    RootsSingle(cache.roots, c0);
    h, mid := cache.Lookup(play, r, now);
    LookupSame(c0, plays, h, play, r, now, used0, cache.used, cache.tree, play in cache.roots);
    if play !in cache.roots {
      NothingShown(cache.roots, c0, plays, play, done, r);
      return;
    }
    StoresSourced(c0, plays, play, done);
    LookupShown(c0, plays, play, h, r, Findable(plays[play], done));
    ghost var s := TouchSet(c0, h.node, now);
    SameShapeStores(c0, cache.tree, plays, play, done);
    if h.blocks > 0 && h.blocks == cache.plays[play].reqs[r].count {
      FoundStays(c0, s, now, plays, h, play, r);
      h := Hits.GiveLastBack(cache, play, r, h);
      TopUsable(cache.tree, plays, h, play, r);
    } else {
      HitBound(c0, plays, h, play, r);
      UsableFrom(c0, s, now, plays, h, play, r);
    }
  }

  lemma FoundStays(c: Tree, s: set<int>, now: real, plays: seq<Play>, h: Hit, play: nat, r: nat)
    requires Inv(c, plays) && Inv(Stamp(c, s, now), plays) && GoodReq(plays, play, r) && Found(c, plays, h, play, r)
    ensures var d := Stamp(c, s, now); (
      h.node in d && d[h.node].play == play && HitAt(d[h.node], h) && PathIs(d, plays, h.node, r, h.blocks) &&
      (h.lower <==> d[h.node].tier > 0))
  {
    hide Inv, PathIs, Chained, Deepest;
    StampPathIs(c, plays, s, now, h.node, r, h.blocks);
  }

  lemma TopUsable(c: Tree, plays: seq<Play>, h: Hit, play: nat, r: nat)
    requires Inv(c, plays) && GoodReq(plays, play, r) && Usable(c, plays, h, play, r) && AllTop(c) && h.node != -1
    ensures !h.lower && h.blocks < plays[play].reqs[r].count && h.node in c && HitAt(c[h.node], h)
  {
    hide Inv, PathIs, Chained;
  }

  /** The hit of a request served alone, pinned for it. */
  method Admit(cache: Cache, play: nat, r: nat, now: real, ghost done: seq<nat>) returns (h: Hit, p: int)
    requires cache.Valid() && cache.residencyLimit <= 0.0 && GoodReq(cache.plays, play, r) &&
      cache.plays[play].reqs[r].count > 0
    requires Stores(cache.tree, cache.plays, play, done)
    modifies cache
    ensures cache.Valid() && cache.used == old(cache.used) && Stores(cache.tree, cache.plays, play, done)
    ensures OffMoves(old(cache.used), old(cache.tree), cache.used, cache.tree, cache.plays, 0)
    ensures h.blocks == Used(cache.plays[play], Findable(cache.plays[play], done), r)
    ensures Grounded(cache.tree, cache.plays, p, play, r, h.blocks) && FirstPath(cache.tree, cache.plays, p)
    ensures p in cache.tree && Held(cache.tree, p) > 0 && p != -1
    ensures forall n :: Held(cache.tree, n) == old(Held(cache.tree, n)) + (if n == p then 1 else 0)
  {
    hide Inv, Stands, Slots, Roots, TierTok, Holding, HitsFrom, Findable, Chained, PathIs, Usable, FirstPath, Shows,
         Used;
    h := LookUp(cache, play, r, now, done);
    ghost var c1, plays := cache.tree, cache.plays;
    RootsHaveIf(cache.roots, c1, play);
    ghost var m: Tree;
    p, m := cache.PinHit(play, h, now);
    PreparedStores(c1, m, plays, play, done, h, p, now);
    TopsPinned(c1);
    HitPinnedStep(c1, m, cache.tree, plays, h, p, play, r, now);
    AddPinsShape(m, p, 1);
    SameShapeStores(m, cache.tree, plays, play, done);
    PinnedNow(c1, cache.tree, plays, p);
  }

  lemma RootsHaveIf(roots: map<nat, int>, c: Tree, play: nat)
    requires Roots(roots, c)
    ensures play !in roots ==> forall i :: i in c && c[i].parent == -1 ==> c[i].play != play
  {
    if play !in roots { RootsHave(roots, c, play); }
  }

  lemma LookupSame(c: Tree, plays: seq<Play>, h: Hit, play: nat, r: nat, now: real, used0: seq<int>, used: seq<int>,
                   d: Tree, known: bool)
    requires Inv(c, plays) && GoodReq(plays, play, r) && |used| == |used0|
    requires if known then Found(c, plays, h, play, r) && d == KvTree.Touch(c, h.node, now) else d == c
    requires forall t :: 0 <= t < |used| ==> used[t] - TierTok(d, plays, t) == used0[t] - TierTok(c, plays, t)
    ensures used == used0 && Shape(c)
    ensures known ==> h.node != -1 && SameShape(c, d) && forall i :: i in c ==> d[i].tier == c[i].tier
    ensures forall n :: Held(d, n) == Held(c, n)
  {
    hide PathIs, Chained, TierTok, Tiers, Pinning, Slices, Deepest;
    if known {
      ParentLive(c, plays, h.node);
      StampTok(c, plays, TouchSet(c, h.node, now), now);
    }
  }

  lemma PinnedNow(c: Tree, d: Tree, plays: seq<Play>, p: int)
    requires Inv(c, plays) && Inv(d, plays) && OnePinMore(c, d, plays, p) && p in d
    ensures Held(d, p) > 0 && p != -1
  {
  }

  lemma SegReady(c: Tree, plays: seq<Play>, play: nat, p: int, r: nat, from: nat, now: real)
    requires Inv(c, plays) && GoodReq(plays, play, r) && Grounded(c, plays, p, play, r, from)
    requires from < plays[play].reqs[r].count && Held(c, p) > 0
    ensures var k := BlockSeg(c[p], p, r, plays[play].reqs[r].count - from, now); (
      SliceOk(k, plays) && HashBegin(k, plays) == plays[play].reqs[r].begin + from)
    ensures c[p].pins > 0 && c[p].tier == 0 && (c[p].parent != -1 ==> c[p].nblocks > 0) && c[p].play == play
  {
  }

  lemma CanLetGo(c: Tree, x: int)
    requires AllTop(c) && x in c && Held(c, x) > 0
    ensures CanPin(c, x, -1)
  {
  }

  /** Completion: the output goes on the inserted segment and both pins are returned. */
  method Complete(cache: Cache, play: nat, own: int, p: int, out: nat, ghost done: seq<nat>)
    requires cache.Valid() && play < |cache.plays| && Stores(cache.tree, cache.plays, play, done)
    requires own in cache.tree && p in cache.tree && own != p && cache.tree[own].parent != -1 && own != -1 && p != -1
    requires Held(cache.tree, own) > 0 && Held(cache.tree, p) > 0
    requires cache.tree[own].tail == 0 && cache.tree[own].tier == 0
    modifies cache
    ensures cache.Valid() && cache.used == old(cache.used) && Stores(cache.tree, cache.plays, play, done)
    ensures own in cache.tree && cache.tree[own].tail == out
    ensures OffMoves(old(cache.used), old(cache.tree), cache.used, cache.tree, cache.plays, -(out as int))
    ensures forall n :: Held(cache.tree, n) == old(Held(cache.tree, n)) - (if n == own || n == p then 1 else 0)
  {
    hide Inv, Stands, Slots, Roots, TierTok, Holding, SameShape, Shows, FirstPath, Findable, Order, OffMoves;
    ghost var c, plays := cache.tree, cache.plays;
    TailOff(cache.used, c, plays, own, out);
    cache.SetTail(own, out, {});
    TailFirm(c, plays, own, out);
    TailStores(c, plays, play, done, own, out);
    ghost var d := cache.tree;
    CanLetGo(d, own);
    cache.Unpin(own);
    AddPinsShape(d, own, -1);
    ghost var e := cache.tree;
    OffSame(cache.used, d, cache.used, e, plays);
    OffTrans(cache.used, c, cache.used, d, cache.used, e, plays, -(out as int), 0);
    SameShapeStores(d, e, plays, play, done);
    CanLetGo(e, p);
    cache.Unpin(p);
    AddPinsShape(e, p, -1);
    OffSame(cache.used, e, cache.used, cache.tree, plays);
    OffTrans(cache.used, c, cache.used, e, cache.used, cache.tree, plays, -(out as int), 0);
    SameShapeStores(e, cache.tree, plays, play, done);
  }

  /** Tokens a request can charge in all. */
  function Cost(p: Play, r: nat, out: nat): nat
    requires r < |p.reqs|
  {
    p.reqs[r].count * p.blockSize + out
  }

  lemma CostBound(count: nat, from: nat, size: nat)
    requires from <= count
    ensures (count - from) * size <= count * size
  {
  }

  /** One request, admitted, prefilled, decoded and completed with nobody else around: its hit is what the sets say, and
      so is what can be found after it. */
  method Serve(cache: Cache, play: nat, r: nat, out: nat, now: real, ghost done: seq<nat>) returns (hits: nat)
    requires cache.Valid() && cache.residencyLimit <= 0.0 && GoodReq(cache.plays, play, r) &&
      cache.plays[play].reqs[r].count > 0
    requires Stores(cache.tree, cache.plays, play, done)
    requires cache.used[0] + Cost(cache.plays[play], r, out) <= cache.cap[0]
    modifies cache
    ensures cache.Valid() && Stores(cache.tree, cache.plays, play, done + [r])
    ensures hits == Used(cache.plays[play], Findable(cache.plays[play], done), r)
    ensures cache.used[0] <= old(cache.used[0]) + Cost(cache.plays[play], r, out)
    ensures OffMoves(old(cache.used), old(cache.tree), cache.used, cache.tree, cache.plays, 0)
    ensures forall n :: Held(cache.tree, n) == old(Held(cache.tree, n))
  {
    hide Inv, Stands, Slots, Roots, TierTok, Stores, HitsFrom, Chained, PathIs, Insert, BlockSeg, Grounded, FirstPath,
         Findable, Used, SingleRoots, OffMoves;
    ghost var c0, used0, plays := cache.tree, cache.used, cache.plays;
    var h, p := Admit(cache, play, r, now, done);
    hits := h.blocks;
    var slice := cache.plays[play].reqs[r];
    var left := slice.count - hits;
    CostBound(slice.count, hits, cache.plays[play].blockSize);
    ghost var c, tok := cache.tree, left * cache.plays[play].blockSize;
    ChargeOff(cache.used, c, plays, tok);
    cache.Charge(left * cache.plays[play].blockSize);
    OffTrans(used0, c0, used0, c, cache.used, c, plays, 0, tok);
    RootsSingle(cache.roots, c);
    SegReady(c, plays, play, p, r, hits, now);
    var own;
    ghost var t;
    own, t := cache.InsertChild(p, slice.begin + hits, left, r, now);
    ghost var d := cache.tree;
    OwnFresh(c, d, plays, p, t, own, r, left, now);
    GrowthOff(cache.used, c, d, plays, BlockSeg(c[p], p, r, left, now), tok);
    OffTrans(used0, c0, cache.used, c, cache.used, d, plays, tok, -(tok as int));
    StoresTop(c, plays, play, done);
    InsertFirm(c, cache.tree, plays, p, t, own, play, r, hits, left, now);
    InsertStores(c, cache.tree, plays, play, done, p, t, own, r, now);
    PinnedBoth(c, cache.tree, plays, p, own);
    ChargeOff(cache.used, d, plays, out);
    OffTrans(used0, c0, cache.used, d, cache.used[0 := cache.used[0] + out], d, plays, 0, out);
    cache.Charge(out);
    ghost var used1 := cache.used;
    Complete(cache, play, own, p, out, done + [r]);
    OffTrans(used0, c0, used1, d, cache.used, cache.tree, plays, out, -(out as int));
  }

  lemma StoresTop(c: Tree, plays: seq<Play>, play: nat, done: seq<nat>)
    requires Inv(c, plays) && play < |plays| && Stores(c, plays, play, done)
    ensures PinnedTop(c)
  {
  }

  lemma PinnedBoth(c: Tree, d: Tree, plays: seq<Play>, p: int, own: int)
    requires Inv(c, plays) && Inv(d, plays) && OnePinMore(c, d, plays, own) && own in d && own !in c && p in c &&
      Held(c, p) > 0
    ensures Held(d, own) > 0 && Held(d, p) > 0 && p in d && p != own
  {
  }

  /** What is left of the capacity covers every request still to come. */
  ghost predicate Roomy(cache: Cache, play: nat, order: seq<nat>, outs: seq<nat>, k: nat)
    reads cache
  {
    play < |cache.plays| && |cache.used| > 0 && |cache.cap| > 0 && k <= |order| == |outs| &&
      Chosen(cache.plays[play], order) &&
    cache.used[0] + Costs(cache.plays[play], order, outs, k) <= cache.cap[0]
  }

  function Costs(p: Play, order: seq<nat>, outs: seq<nat>, k: nat): nat
    requires k <= |order| == |outs| && Chosen(p, order)
    decreases |order| - k
  {
    if k == |order| then 0 else Cost(p, order[k], outs[k]) + Costs(p, order, outs, k + 1)
  }

  /** Served one at a time with room for all, the radix index reports what the sets give, whatever the order; it agrees
      with the seen-set walk on the whole list if and only if every request brings an unseen block. */
  method Replay(play: nat, plays: seq<Play>, order: seq<nat>, outs: seq<nat>, times: seq<real>, capacity: nat)
    returns (hits: seq<nat>, cache: Cache)
    requires play < |plays| && |order| == |outs| == |times| && Order(plays[play], order)
    requires Costs(plays[play], order, outs, 0) <= capacity
    ensures hits == Reports(plays[play], order)
    ensures hits == Walk(plays[play], order) <==> AllNew(plays[play], order)
    ensures fresh(cache) && cache.Valid() && cache.plays == plays && cache.residencyLimit == 0.0
    ensures Stores(cache.tree, plays, play, order)
  {
    hide Inv, Stands, Slots, Roots, TierTok, Stores, HitsFrom, Chained, Used, Findable;
    cache := new Cache([capacity], plays, 0.0);
    EmptyStores(cache.tree, plays, play);
    hits := [];
    for k := 0 to |order|
      invariant cache.Valid() && cache.residencyLimit == 0.0 && cache.plays == plays && cache.cap == [capacity] &&
        fresh(cache)
      invariant Order(plays[play], order[..k]) && Stores(cache.tree, plays, play, order[..k]) &&
        Roomy(cache, play, order, outs, k)
      invariant hits == Reports(plays[play], order[..k])
    {
      var r := order[k];
      assert order[..k + 1] == order[..k] + [r];
      GoodNow(plays, play, r);
      var n := Serve(cache, play, r, outs[k], times[k], order[..k]);
      assert order[..k + 1][..k] == order[..k];
      OrderSnoc(plays[play], order[..k], r);
      hits := hits + [n];
    }
    assert order[..|order|] == order;
    AgreeExactly(plays[play], order);
  }

  lemma OrderSnoc(p: Play, done: seq<nat>, r: nat)
    requires Order(p, done) && r < |p.reqs| && p.reqs[r].count > 0
    ensures Order(p, done + [r])
  {
    FindableNext(p, done, r);
  }

  /** The same prompt served twice: the walk counts all its blocks the second time, the index one less. */
  method ReplayTwice(play: nat, plays: seq<Play>, r: nat, out: nat, capacity: nat) returns (hits: seq<nat>)
    requires play < |plays| && r < |plays[play].reqs| && Order(plays[play], [r, r])
    requires 2 * Cost(plays[play], r, out) <= capacity
    ensures Walk(plays[play], [r, r]) == [0, plays[play].reqs[r].count] && hits == [0, plays[play].reqs[r].count - 1]
  {
    hide HitsFrom, Chained, Seen, Cost, Findable, Used, Stores;
    CostTwice(plays[play], r, out);
    TwiceCounts(plays[play], r);
    var cache;
    hits, cache := Replay(play, plays, [r, r], [out, out], [0.0, 1.0], capacity);
  }

  lemma CostTwice(p: Play, r: nat, out: nat)
    requires r < |p.reqs|
    ensures Costs(p, [r, r], [out, out], 0) == 2 * Cost(p, r, out)
  {
    hide Cost;
    assert Costs(p, [r, r], [out, out], 2) == 0;
    assert Costs(p, [r, r], [out, out], 1) == Cost(p, r, out);
  }

  /** A prompt and then a proper prefix of it are served: a lookup of the prompt then ends at that prefix, although all
      of the prompt is in the tree c that it ran on. */
  method ShortCovers(play: nat, plays: seq<Play>, r: nat, s: nat, now: real, capacity: nat)
    returns (h: Hit, cache: Cache, ghost c: Tree)
    requires play < |plays| && r < |plays[play].reqs| && s < |plays[play].reqs| && Order(plays[play], [r, s])
    requires plays[play].reqs[s].count < plays[play].reqs[r].count &&
      SameBlocks(plays[play], s, r, plays[play].reqs[s].count)
    requires Cost(plays[play], r, 0) + Cost(plays[play], s, 0) <= capacity
    ensures fresh(cache) && cache.Valid() && cache.plays == plays && Inv(c, plays) && GoodReq(plays, play, r)
    ensures Found(c, plays, h, play, r) && cache.tree == KvTree.Touch(c, h.node, now)
    ensures h.blocks == plays[play].reqs[s].count < plays[play].reqs[r].count && Stored(c, plays, play, r)
    ensures exists n: int :: Longer(c, plays, h, play, r, n) && !FirstPath(c, plays, n)
  {
    hide Inv, Stands, Slots, Roots, TierTok, HitsFrom, Chained, Seen, Cost, Findable, Used, FirstPath, Shows, PathIs,
         SingleRoots, Deepest, Reports, Walk;
    GoodNow(plays, play, r);
    CostBoth(plays[play], r, s);
    ShortHides(plays[play], r, s);
    var hits;
    hits, cache := Replay(play, plays, [r, s], [0, 0], [0.0, 1.0], capacity);
    c := cache.tree;
    RootsSingle(cache.roots, c);
    ghost var n := StoredAt(cache.roots, c, plays, play, [r, s], r);
    ghost var mid;
    h, mid := cache.Lookup(play, r, now);
    StoresSourced(c, plays, play, [r, s]);
    LookupShown(c, plays, play, h, r, Findable(plays[play], [r, s]));
    StaysHidden(c, plays, h, play, r, n);
  }

  lemma StoredAt(roots: map<nat, int>, c: Tree, plays: seq<Play>, play: nat, done: seq<nat>, r: nat) returns (n: int)
    requires Roots(roots, c) && Inv(c, plays) && play < |plays| && Stores(c, plays, play, done)
    requires r in done && r < |plays[play].reqs| && plays[play].reqs[r].count > 0
    ensures n in c && c[n].play == play && PathIs(c, plays, n, r, plays[play].reqs[r].count) &&
      Stored(c, plays, play, r)
    ensures play in roots
  {
    hide Inv, PathIs, Roots, Shows, Findable, Chained;
    assert Stored(c, plays, play, r);
    n :| n in c && c[n].play == play && End(c[n]) == plays[play].reqs[r].count && PathIs(c, plays, n, r, End(c[n]));
    var i := RootAbove(c, plays, n);
    RootsHaveIf(roots, c, play);
  }

  /** The end of a stored prompt that a lookup does not reach is not on a path along first children. */
  lemma StaysHidden(c: Tree, plays: seq<Play>, h: Hit, play: nat, r: nat, n: int)
    requires Inv(c, plays) && SingleRoots(c) && GoodReq(plays, play, r) && Found(c, plays, h, play, r)
    requires h.blocks < plays[play].reqs[r].count
    requires n in c && c[n].play == play && PathIs(c, plays, n, r, plays[play].reqs[r].count)
    ensures Longer(c, plays, h, play, r, n) && !FirstPath(c, plays, n)
  {
    hide Inv, Found, SingleRoots, FirstPath, PathIs, Chained;
    InvShape(c, plays);
    ShorterPathIs(c, plays, n, r, plays[play].reqs[r].count, h.blocks + 1);
    if FirstPath(c, plays, n) { ReachesFirst(c, plays, h, play, r, n, plays[play].reqs[r].count); }
  }

  lemma CostBoth(p: Play, r: nat, s: nat)
    requires r < |p.reqs| && s < |p.reqs|
    ensures Costs(p, [r, s], [0, 0], 0) == Cost(p, r, 0) + Cost(p, s, 0)
  {
    hide Cost;
    assert Costs(p, [r, s], [0, 0], 2) == 0;
    assert Costs(p, [r, s], [0, 0], 1) == Cost(p, s, 0);
  }

  lemma EmptyStores(c: Tree, plays: seq<Play>, play: nat)
    requires c == map[] && Inv(c, plays) && play < |plays| && Order(plays[play], [])
    ensures Stores(c, plays, play, [])
  {
  }

  lemma GoodNow(plays: seq<Play>, play: nat, r: nat)
    requires play < |plays| && Whole(plays[play]) && r < |plays[play].reqs| && Chained(plays[play])
    ensures GoodReq(plays, play, r)
  {
  }
}
