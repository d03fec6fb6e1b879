/** The blocks of a play as sets: what the requests so far brought, and what the radix index can still find of it. */
module SeenSets {
  import opened KvTree

  // ---- the seen-set walk ----

  predicate Whole(p: Play) {
    forall r :: 0 <= r < |p.reqs| ==> p.reqs[r].begin + p.reqs[r].count <= |p.hashes|
  }

  predicate Chosen(p: Play, done: seq<nat>) {
    forall k :: 0 <= k < |done| ==> done[k] < |p.reqs|
  }

  function BlockSet(p: Play, r: nat, n: nat): (s: set<nat>)
    requires Whole(p) && r < |p.reqs| && n <= p.reqs[r].count
    ensures forall q :: 0 <= q < n ==> BlockOf(p, r, q) in s
    ensures forall id :: id in s ==> exists q :: 0 <= q < n && BlockOf(p, r, q) == id
  {
    if n == 0 then {} else BlockSet(p, r, n - 1) + {BlockOf(p, r, n - 1)}
  }

  /** Ids of all blocks of the requests done so far. */
  function Seen(p: Play, done: seq<nat>): set<nat>
    requires Whole(p) && Chosen(p, done)
  {
    if done == [] then {}
    else Seen(p, done[..|done| - 1]) + BlockSet(p, done[|done| - 1], p.reqs[done[|done| - 1]].count)
  }

  /** How many blocks of r, from k on, are seen without a gap. */
  function HitsFrom(p: Play, seen: set<nat>, r: nat, k: nat): (n: nat)
    requires Whole(p) && r < |p.reqs| && k <= p.reqs[r].count
    ensures n <= p.reqs[r].count - k
    decreases p.reqs[r].count - k
  {
    if k < p.reqs[r].count && BlockOf(p, r, k) in seen then 1 + HitsFrom(p, seen, r, k + 1) else 0
  }

  lemma {:induction false} SeenHas(p: Play, done: seq<nat>, id: nat) returns (s: nat, q: nat)
    requires Whole(p) && Chosen(p, done) && id in Seen(p, done)
    ensures s in done && q < p.reqs[s].count && BlockOf(p, s, q) == id
    decreases |done|
  {
    var n := |done| - 1;
    if id in BlockSet(p, done[n], p.reqs[done[n]].count) {
      s := done[n];
      q :| 0 <= q < p.reqs[s].count && BlockOf(p, s, q) == id;
    } else {
      s, q := SeenHas(p, done[..n], id);
    }
  }

  lemma {:induction false} SeenOf(p: Play, done: seq<nat>, s: nat, q: nat)
    requires Whole(p) && Chosen(p, done) && s in done && q < p.reqs[s].count
    ensures BlockOf(p, s, q) in Seen(p, done)
    decreases |done|
  {
    var n := |done| - 1;
    if s != done[n] {
      assert s in done[..n];
      SeenOf(p, done[..n], s, q);
    }
  }

  lemma {:induction false} HitsAre(p: Play, seen: set<nat>, r: nat, k: nat, n: nat)
    requires Whole(p) && r < |p.reqs| && k <= n <= p.reqs[r].count
    requires forall q :: k <= q < n ==> BlockOf(p, r, q) in seen
    requires n < p.reqs[r].count ==> BlockOf(p, r, n) !in seen
    ensures HitsFrom(p, seen, r, k) == n - k
    decreases n - k
  {
    if k < n { HitsAre(p, seen, r, k + 1, n); }
  }

  /** The hits of r end before a block that is not in v. */
  lemma {:induction false} HitsStop(p: Play, v: set<nat>, r: nat, k: nat)
    requires Whole(p) && r < |p.reqs| && k <= p.reqs[r].count
    ensures var n := k + HitsFrom(p, v, r, k); n < p.reqs[r].count ==> BlockOf(p, r, n) !in v
    ensures forall q :: k <= q < k + HitsFrom(p, v, r, k) ==> BlockOf(p, r, q) in v
    decreases p.reqs[r].count - k
  {
    if k < p.reqs[r].count && BlockOf(p, r, k) in v { HitsStop(p, v, r, k + 1); }
  }

  /** The hit counts of the requests in `order`, by the seen-set walk. */
  function Walk(p: Play, order: seq<nat>): (hits: seq<nat>)
    requires Whole(p) && Chosen(p, order)
    ensures |hits| == |order|
  {
    if order == [] then []
    else
      var n := |order| - 1;
      Walk(p, order[..n]) + [HitsFrom(p, Seen(p, order[..n]), order[n], 0)]
  }

  function Counts(p: Play, order: seq<nat>): seq<nat>
    requires Chosen(p, order)
  {
    if order == [] then []
    else
      var n := |order| - 1;
      Counts(p, order[..n]) + [p.reqs[order[n]].count]
  }

  function Sum(s: seq<nat>): nat {
    if s == [] then 0 else Sum(s[..|s| - 1]) + s[|s| - 1]
  }

  method LeadingSeen(p: Play, seen: set<nat>, r: nat) returns (n: nat)
    requires Whole(p) && r < |p.reqs|
    ensures n == HitsFrom(p, seen, r, 0)
  {
    n := 0;
    while n < p.reqs[r].count && BlockOf(p, r, n) in seen
      invariant n <= p.reqs[r].count && HitsFrom(p, seen, r, 0) == n + HitsFrom(p, seen, r, n)
    {
      n := n + 1;
    }
  }

  /** `count_prefix_hits` over requests already in order. */
  method CountPrefixHits(p: Play, order: seq<nat>) returns (hits: nat, total: nat)
    requires Whole(p) && Chosen(p, order)
    ensures hits == Sum(Walk(p, order)) && total == Sum(Counts(p, order)) && hits <= total
  {
    hide HitsFrom, BlockSet, Sum, BlockOf;
    hits, total := 0, 0;
    SumNone();
    var seen: set<nat> := {};
    for k := 0 to |order|
      invariant seen == Seen(p, order[..k]) && hits == Sum(Walk(p, order[..k])) && hits <= total
      invariant total == Sum(Counts(p, order[..k]))
    {
      var r := order[k];
      assert r in order && order[..k + 1][..k] == order[..k];
      var n := LeadingSeen(p, seen, r);
      SumSnoc(Walk(p, order[..k]), n);
      SumSnoc(Counts(p, order[..k]), p.reqs[r].count);
      hits := hits + n;
      total := total + p.reqs[r].count;
      seen := seen + BlockSet(p, r, p.reqs[r].count);
    }
    assert order[..|order|] == order;
  }

  lemma SumNone()
    ensures Sum([]) == 0
  {
  }

  lemma SumSnoc(s: seq<nat>, n: nat)
    ensures Sum(s + [n]) == Sum(s) + n
  {
  }

  // ---- what the index can still find ----

  predicate NoneEmpty(p: Play, order: seq<nat>)
    requires Chosen(p, order)
  {
    forall k :: 0 <= k < |order| ==> p.reqs[order[k]].count > 0
  }

  /** Block q of s comes behind the last block of r's prompt. */
  predicate Behind(p: Play, r: nat, s: nat, q: nat)
    requires Whole(p) && r < |p.reqs| && p.reqs[r].count > 0 && s < |p.reqs| && q < p.reqs[s].count
  {
    q >= p.reqs[r].count && BlockOf(p, s, p.reqs[r].count - 1) == BlockOf(p, r, p.reqs[r].count - 1)
  }

  function Past(p: Play, r: nat): set<nat>
    requires Whole(p) && r < |p.reqs| && p.reqs[r].count > 0
  {
    set s: nat, q: nat | s < |p.reqs| && q < p.reqs[s].count && Behind(p, r, s, q) :: BlockOf(p, s, q)
  }

  /** Blocks that can be found once request r is served: its own as well; but a prompt found whole recomputes its last
      block in a segment of its own, in front of the one that goes on, and hides what comes behind. */
  function Next(p: Play, v: set<nat>, r: nat): set<nat>
    requires Whole(p) && r < |p.reqs| && p.reqs[r].count > 0
  {
    if HitsFrom(p, v, r, 0) == p.reqs[r].count then v - Past(p, r) else v + BlockSet(p, r, p.reqs[r].count)
  }

  function Findable(p: Play, order: seq<nat>): set<nat>
    requires Whole(p) && Chosen(p, order) && NoneEmpty(p, order)
  {
    if order == [] then {}
    else Next(p, Findable(p, order[..|order| - 1]), order[|order| - 1])
  }

  /** The hit of a request: of a prompt found whole the last block is not used. */
  function Used(p: Play, v: set<nat>, r: nat): (n: nat)
    requires Whole(p) && r < |p.reqs| && p.reqs[r].count > 0
    ensures n < p.reqs[r].count
  {
    var n := HitsFrom(p, v, r, 0);
    if n == p.reqs[r].count then n - 1 else n
  }

  /** The hit counts of the requests in `order`, by the index. */
  function Reports(p: Play, order: seq<nat>): (hits: seq<nat>)
    requires Whole(p) && Chosen(p, order) && NoneEmpty(p, order)
    ensures |hits| == |order|
  {
    if order == [] then []
    else
      var n := |order| - 1;
      Reports(p, order[..n]) + [Used(p, Findable(p, order[..n]), order[n])]
  }

  lemma {:induction false} HitsGrow(p: Play, v: set<nat>, w: set<nat>, r: nat, k: nat)
    requires Whole(p) && r < |p.reqs| && k <= p.reqs[r].count && v <= w
    ensures HitsFrom(p, v, r, k) <= HitsFrom(p, w, r, k)
    decreases p.reqs[r].count - k
  {
    if k < p.reqs[r].count { HitsGrow(p, v, w, r, k + 1); }
  }

  lemma {:induction false} FindableSeen(p: Play, order: seq<nat>)
    requires Whole(p) && Chosen(p, order) && NoneEmpty(p, order)
    ensures Findable(p, order) <= Seen(p, order)
    decreases |order|
  {
    hide HitsFrom, Past;
    if order != [] { FindableSeen(p, order[..|order| - 1]); }
  }

  lemma {:induction false} ReportsAt(p: Play, order: seq<nat>, k: nat)
    requires Whole(p) && Chosen(p, order) && NoneEmpty(p, order) && k < |order|
    ensures Reports(p, order)[k] == Used(p, Findable(p, order[..k]), order[k])
    ensures Walk(p, order)[k] == HitsFrom(p, Seen(p, order[..k]), order[k], 0)
    decreases |order|
  {
    hide HitsFrom, Past, Seen, Findable, Used;
    var n := |order| - 1;
    if k < n {
      ReportsAt(p, order[..n], k);
      assert order[..n][..k] == order[..k];
    }
  }

  /** Whatever the order, the index never counts a block that was not seen, and never a whole prompt. */
  lemma ReportsBelow(p: Play, order: seq<nat>, k: nat)
    requires Whole(p) && Chosen(p, order) && NoneEmpty(p, order) && k < |order|
    ensures Reports(p, order)[k] <= Walk(p, order)[k] && Reports(p, order)[k] < p.reqs[order[k]].count
  {
    hide HitsFrom, Past, Seen, Findable;
    ReportsAt(p, order, k);
    FindableSeen(p, order[..k]);
    HitsGrow(p, Findable(p, order[..k]), Seen(p, order[..k]), order[k], 0);
  }

  /** Each request brings at least one block that none before it had. */
  ghost predicate AllNew(p: Play, order: seq<nat>)
    requires Whole(p) && Chosen(p, order)
  {
    forall k :: 0 <= k < |order| ==> Walk(p, order)[k] < p.reqs[order[k]].count
  }

  lemma AllNewPrefix(p: Play, order: seq<nat>)
    requires Whole(p) && Chosen(p, order) && NoneEmpty(p, order) && order != [] && AllNew(p, order)
    ensures AllNew(p, order[..|order| - 1])
    ensures HitsFrom(p, Seen(p, order[..|order| - 1]), order[|order| - 1], 0) < p.reqs[order[|order| - 1]].count
  {
    hide HitsFrom, Seen;
    var n := |order| - 1;
    forall k | 0 <= k < n
      ensures Walk(p, order[..n])[k] == Walk(p, order)[k] && order[..n][k] == order[k]
    {
    }
    assert Walk(p, order)[n] < p.reqs[order[n]].count;
  }

  lemma {:induction false} AllNewFindable(p: Play, order: seq<nat>)
    requires Whole(p) && Chosen(p, order) && NoneEmpty(p, order) && AllNew(p, order)
    ensures Findable(p, order) == Seen(p, order)
    decreases |order|
  {
    hide HitsFrom, Past;
    if order != [] {
      AllNewPrefix(p, order);
      AllNewFindable(p, order[..|order| - 1]);
    }
  }

  lemma {:induction false} AllNewSame(p: Play, order: seq<nat>)
    requires Whole(p) && Chosen(p, order) && NoneEmpty(p, order) && AllNew(p, order)
    ensures Reports(p, order) == Walk(p, order)
    decreases |order|
  {
    hide HitsFrom, Past, Seen, Findable;
    if order != [] {
      AllNewPrefix(p, order);
      AllNewFindable(p, order[..|order| - 1]);
      AllNewSame(p, order[..|order| - 1]);
    }
  }

  /** The two agree on a whole list if and only if every request in it brings an unseen block. */
  lemma AgreeExactly(p: Play, order: seq<nat>)
    requires Whole(p) && Chosen(p, order) && NoneEmpty(p, order)
    ensures Reports(p, order) == Walk(p, order) <==> AllNew(p, order)
  {
    hide HitsFrom, Past, Seen, Findable, Reports, Walk;
    if AllNew(p, order) { AllNewSame(p, order); }
    if Reports(p, order) == Walk(p, order) {
      forall k | 0 <= k < |order|
        ensures Walk(p, order)[k] < p.reqs[order[k]].count
      {
        ReportsBelow(p, order, k);
      }
    }
  }

  /** The request at position j brought block id, and no prompt found whole since hid it. */
  ghost predicate Survives(p: Play, order: seq<nat>, j: nat, id: nat)
    requires Whole(p) && Chosen(p, order) && NoneEmpty(p, order)
  {
    && j < |order| && id in BlockSet(p, order[j], p.reqs[order[j]].count)
    && forall k :: j < k < |order| ==> !Hides(p, order, k, id)
  }

  ghost predicate Hides(p: Play, order: seq<nat>, k: nat, id: nat)
    requires Whole(p) && Chosen(p, order) && NoneEmpty(p, order) && k < |order|
  {
    HitsFrom(p, Findable(p, order[..k]), order[k], 0) == p.reqs[order[k]].count && id in Past(p, order[k])
  }

  lemma OwnNotPast(p: Play, r: nat, id: nat)
    requires Whole(p) && Chained(p) && r < |p.reqs| && p.reqs[r].count > 0 && id in BlockSet(p, r, p.reqs[r].count)
    ensures id !in Past(p, r)
  {
    hide SameBlocks;
    var k :| 0 <= k < p.reqs[r].count && BlockOf(p, r, k) == id;
    forall s: nat, q: nat | s < |p.reqs| && q < p.reqs[s].count && Behind(p, r, s, q)
      ensures BlockOf(p, s, q) != id
    {
      if BlockOf(p, s, q) == id { OneDepth(p, r, k, s, q); }
    }
  }

  /** A block id stands for its whole prefix, and so for its depth. */
  lemma OneDepth(p: Play, r: nat, k: nat, s: nat, q: nat)
    requires Whole(p) && Chained(p) && r < |p.reqs| && s < |p.reqs| && k < p.reqs[r].count && q < p.reqs[s].count
    requires BlockOf(p, r, k) == BlockOf(p, s, q)
    ensures k == q && SameBlocks(p, r, s, k + 1)
  {
    hide SameBlocks;
    assert Covers(p, r, k) && Covers(p, s, q);
  }

  lemma NotOwn(p: Play, v: set<nat>, r: nat, id: nat)
    requires Whole(p) && r < |p.reqs| && p.reqs[r].count > 0 && id in Next(p, v, r)
    requires forall q: nat :: q < p.reqs[r].count ==> BlockOf(p, r, q) != id
    ensures id in v && (HitsFrom(p, v, r, 0) == p.reqs[r].count ==> id !in Past(p, r))
  {
    hide HitsFrom, Past;
  }

  lemma BehindPast(p: Play, r: nat, s: nat, q: nat)
    requires Whole(p) && r < |p.reqs| && p.reqs[r].count > 0 && s < |p.reqs| && q < p.reqs[s].count &&
      Behind(p, r, s, q)
    ensures BlockOf(p, s, q) in Past(p, r)
  {
  }

  /** A block can be found exactly if the last request that brought it came after every prompt found whole that ends
      before it. */
  lemma {:induction false} FindableIff(p: Play, order: seq<nat>, id: nat)
    requires Whole(p) && Chained(p) && Chosen(p, order) && NoneEmpty(p, order)
    ensures id in Findable(p, order) <==> exists j: nat :: Survives(p, order, j, id)
    decreases |order|
  {
    hide HitsFrom, Past, Chained, BlockOf;
    if order != [] {
      var n := |order| - 1;
      var front, r := order[..n], order[n];
      FindableIff(p, front, id);
      forall k: nat | k < n
        ensures Hides(p, order, k, id) <==> Hides(p, front, k, id)
      {
        assert front[..k] == order[..k];
      }
      if id in BlockSet(p, r, p.reqs[r].count) {
        assert Survives(p, order, n, id);
        OwnNotPast(p, r, id);
        HitsStop(p, Findable(p, front), r, 0);
      } else {
        if j: nat :| Survives(p, front, j, id) {
          if !Hides(p, order, n, id) { assert Survives(p, order, j, id); }
        }
        if j: nat :| Survives(p, order, j, id) {
          assert Survives(p, front, j, id) && !Hides(p, order, n, id);
        }
      }
    }
  }

  lemma {:induction false} HitsAll(p: Play, v: set<nat>, r: nat, s: nat, k: nat)
    requires Whole(p) && r < |p.reqs| && s < |p.reqs| && k <= p.reqs[s].count <= p.reqs[r].count
    requires SameBlocks(p, s, r, p.reqs[s].count) && BlockSet(p, r, p.reqs[s].count) <= v
    ensures HitsFrom(p, v, s, k) == p.reqs[s].count - k
    decreases p.reqs[s].count - k
  {
    if k < p.reqs[s].count {
      SameBlock(p, s, r, p.reqs[s].count, k);
      HitsAll(p, v, r, s, k + 1);
    }
  }

  lemma SameBlock(p: Play, r: nat, s: nat, n: nat, k: nat)
    requires r < |p.reqs| && s < |p.reqs| && k < n && SameBlocks(p, r, s, n) && k < p.reqs[r].count &&
      k < p.reqs[s].count
    requires p.reqs[r].begin + p.reqs[r].count <= |p.hashes| && p.reqs[s].begin + p.reqs[s].count <= |p.hashes|
    ensures BlockOf(p, r, k) == BlockOf(p, s, k)
  {
    assert Covers(p, r, k) && Covers(p, s, k);
  }

  lemma {:induction false} BlockSets(p: Play, r: nat, m: nat, n: nat)
    requires Whole(p) && r < |p.reqs| && m <= n <= p.reqs[r].count
    ensures BlockSet(p, r, m) <= BlockSet(p, r, n)
    decreases n
  {
    if m < n { BlockSets(p, r, m, n - 1); }
  }

  lemma OneServed(p: Play, r: nat)
    requires Whole(p) && r < |p.reqs| && p.reqs[r].count > 0
    ensures Seen(p, [r]) == Findable(p, [r]) == BlockSet(p, r, p.reqs[r].count)
    ensures Walk(p, [r]) == [0] && Reports(p, [r]) == [0]
  {
    hide HitsFrom, Past, BlockSet;
    assert [r][..0] == [] && Findable(p, []) == {} && Seen(p, []) == {};
    NoHits(p, r);
  }

  /** A prompt, a proper prefix of it, and the prompt again: the walk counts it whole, the index only that prefix. */
  lemma ShortHides(p: Play, r: nat, s: nat)
    requires Whole(p) && Chained(p) && r < |p.reqs| && s < |p.reqs| && 0 < p.reqs[s].count < p.reqs[r].count
    requires SameBlocks(p, s, r, p.reqs[s].count)
    ensures Walk(p, [r, s, r]) == [0, p.reqs[s].count, p.reqs[r].count]
    ensures Reports(p, [r, s, r]) == [0, p.reqs[s].count - 1, p.reqs[s].count]
    ensures HitsFrom(p, Findable(p, [r, s]), r, 0) == p.reqs[s].count
  {
    hide HitsFrom, Past, Chained, SameBlocks, BlockOf, BlockSet;
    var all, n := BlockSet(p, r, p.reqs[r].count), p.reqs[s].count;
    assert [r, s, r][..2] == [r, s] && [r, s][..1] == [r];
    OneServed(p, r);
    BlockSets(p, r, n, p.reqs[r].count);
    HitsAll(p, all, r, s, 0);
    assert Walk(p, [r, s]) == [0, n] && Reports(p, [r, s]) == [0, n - 1];
    assert SameBlocks(p, r, r, p.reqs[r].count) by { SameSelf(p, r); }
    HitsAll(p, Seen(p, [r, s]), r, r, 0);
    HitsShort(p, r, s);
  }

  lemma SameSelf(p: Play, r: nat)
    requires r < |p.reqs|
    ensures SameBlocks(p, r, r, p.reqs[r].count)
  {
  }

  lemma NoHits(p: Play, r: nat)
    requires Whole(p) && r < |p.reqs|
    ensures HitsFrom(p, {}, r, 0) == 0
  {
  }

  /** Behind the prefix nothing of the longer prompt is left to find. */
  lemma HitsShort(p: Play, r: nat, s: nat)
    requires Whole(p) && Chained(p) && r < |p.reqs| && s < |p.reqs| && 0 < p.reqs[s].count < p.reqs[r].count
    requires SameBlocks(p, s, r, p.reqs[s].count)
    ensures HitsFrom(p, BlockSet(p, r, p.reqs[r].count) - Past(p, s), r, 0) == p.reqs[s].count
  {
    hide SameBlocks, Chained;
    var n := p.reqs[s].count;
    var v := BlockSet(p, r, p.reqs[r].count) - Past(p, s);
    SameBlock(p, s, r, n, n - 1);
    assert Behind(p, s, r, n);
    forall q | 0 <= q < n
      ensures BlockOf(p, r, q) in v
    {
      SameBlock(p, s, r, n, q);
      assert BlockOf(p, s, q) in BlockSet(p, s, n);
      OwnNotPast(p, s, BlockOf(p, r, q));
    }
    HitsAre(p, v, r, 0, n);
  }

  /** The same prompt twice: the walk counts all its blocks the second time, the index one less. */
  lemma TwiceCounts(p: Play, r: nat)
    requires Whole(p) && r < |p.reqs| && p.reqs[r].count > 0
    ensures Walk(p, [r, r]) == [0, p.reqs[r].count] && Reports(p, [r, r]) == [0, p.reqs[r].count - 1]
  {
    hide HitsFrom, Past, SameBlocks, BlockOf, BlockSet;
    assert [r, r][..1] == [r];
    OneServed(p, r);
    SameSelf(p, r);
    HitsAll(p, BlockSet(p, r, p.reqs[r].count), r, r, 0);
  }
}
