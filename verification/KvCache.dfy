/** The KV prefix cache of one rank: an arena of nodes with a free list, sibling lists,
    per-tier LRU sets and per-tier token counters, kept in step with the tree it stands for. */
module KvCache {
  import opened KvTree
  import opened Expiry

  datatype Node = Node(
    play: nat,
    parent: int,
    firstChild: int,
    nextSibling: int,
    prevSibling: int,
    hashBegin: nat,
    nblocks: nat,
    tail: nat,
    tier: nat,
    pins: int,
    inLru: bool,
    lastAccess: real)

  const BLANK := Node(0, -1, -1, -1, -1, 0, 0, 0, 0, 0, false, 0.0)

  function At(s: seq<int>, j: int): int {
    if 0 <= j < |s| then s[j] else -1
  }

  // ---- how the arena represents a tree ----

  ghost predicate NodeIs(n: Node, k: Seg, plays: seq<Play>) {
    && n.play == k.play && n.parent == k.parent
    && n.firstChild == At(k.kids, 0)
    && n.hashBegin == HashBegin(k, plays) && n.nblocks == k.nblocks && n.tail == k.tail
    && n.tier == k.tier && n.pins == k.pins && n.lastAccess == k.lastAccess
  }

  ghost predicate Rep(nodes: seq<Node>, c: Tree, plays: seq<Play>) {
    forall i {:trigger nodes[i]} {:trigger i in c} :: i in c ==> 0 <= i < |nodes| && NodeIs(nodes[i], c[i], plays)
  }

  /** The sibling list of a child sequence. */
  ghost predicate Chain(nodes: seq<Node>, s: seq<int>) {
    && (forall j :: 0 <= j < |s| ==> 0 <= s[j] < |nodes|)
    && (forall j {:trigger nodes[s[j]]} :: 0 <= j < |s| ==>
          nodes[s[j]].nextSibling == At(s, j + 1) && nodes[s[j]].prevSibling == At(s, j - 1))
  }

  ghost predicate Links(nodes: seq<Node>, c: Tree) {
    && (forall i :: i in c ==> Chain(nodes, c[i].kids))
    && (forall i :: i in c && c[i].parent == -1 ==>
          0 <= i < |nodes| && nodes[i].nextSibling == -1 && nodes[i].prevSibling == -1)
  }

  /** Every arena slot is live, free, or (briefly) being filled in. */
  ghost predicate Slots(nodes: seq<Node>, free: seq<int>, c: Tree, filling: set<int>) {
    && NoDup(free)
    && (forall i :: 0 <= i < |nodes| <==> i in c || i in free || i in filling)
    && (forall i :: i in free ==> i !in c && i !in filling)
    && (forall i :: i in filling ==> i !in c)
  }

  /** The LRU set of each tier holds exactly its flagged live nodes, under their current keys. */
  ghost predicate LruSets(nodes: seq<Node>, lru: seq<set<(real, int)>>, c: Tree) {
    && (forall i :: i in c ==> 0 <= i < |nodes| && c[i].tier < |lru|)
    && (forall t, e {:trigger e in lru[t]} :: 0 <= t < |lru| ==>
          (e in lru[t] <==> InLru(nodes, c, t, e)))
  }

  ghost predicate InLru(nodes: seq<Node>, c: Tree, t: nat, e: (real, int)) {
    && e.1 in c && 0 <= e.1 < |nodes|
    && c[e.1].tier == t && c[e.1].lastAccess == e.0 && nodes[e.1].inLru
  }

  /** A node is flagged exactly when it may be evicted. */
  ghost predicate Flags(nodes: seq<Node>, c: Tree, except: set<int>) {
    forall i :: i in c && i !in except ==> 0 <= i < |nodes| && (nodes[i].inLru <==> Evictable(c, i))
  }

  ghost predicate Roots(roots: map<nat, int>, c: Tree) {
    && (forall p :: p in roots ==> roots[p] in c && c[roots[p]].parent == -1 && c[roots[p]].play == p)
    && (forall i {:trigger IsRoot(c, i)} :: IsRoot(c, i) ==> c[i].play in roots && roots[c[i].play] == i)
  }

  ghost predicate IsRoot(c: Tree, i: int) {
    i in c && c[i].parent == -1
  }

  /** The arena n stands for tree c, its LRU flags being exact outside `stale`. */
  ghost predicate Stands(n: seq<Node>, lru: seq<set<(real, int)>>, c: Tree, plays: seq<Play>, stale: set<int>) {
    Rep(n, c, plays) && Links(n, c) && LruSets(n, lru, c) && Flags(n, c, stale)
  }

  /** Only the live nodes matter. */
  lemma StandsAgree(n: seq<Node>, m: seq<Node>, lru: seq<set<(real, int)>>, c: Tree, plays: seq<Play>, stale: set<int>)
    requires Stands(n, lru, c, plays, stale)
    requires Shape(c) && |n| <= |m| && forall i :: i in c && 0 <= i < |n| ==> m[i] == n[i]
    ensures Stands(m, lru, c, plays, stale)
  {
    forall i | i in c
      ensures Chain(m, c[i].kids)
    {
      ChainSame(n, m, c[i].kids);
    }
  }

  lemma SlotsPop(n: seq<Node>, free: seq<int>, c: Tree)
    requires Slots(n, free, c, {}) && free != []
    ensures free[|free| - 1] in free
    ensures Slots(n, free[..|free| - 1], c, {free[|free| - 1]})
  {
  }

  lemma RepAt(n: seq<Node>, lru: seq<set<(real, int)>>, c: Tree, plays: seq<Play>, stale: set<int>, id: int)
    requires Stands(n, lru, c, plays, stale) && id in c
    ensures 0 <= id < |n| && NodeIs(n[id], c[id], plays) && c[id].tier < |lru|
    ensures id !in stale ==> (n[id].inLru <==> Evictable(c, id))
  {
  }

  lemma KidAt(n: seq<Node>, lru: seq<set<(real, int)>>, c: Tree, plays: seq<Play>, stale: set<int>, p: int, j: int)
    requires Shape(c) && Stands(n, lru, c, plays, stale) && p in c && 0 <= j < |c[p].kids|
    ensures var k := c[p].kids[j];
      k in c && c[k].parent == p && 0 <= k < |n| && NodeIs(n[k], c[k], plays) &&
      n[k].nextSibling == At(c[p].kids, j + 1) && n[k].prevSibling == At(c[p].kids, j - 1)
  {
    var k := c[p].kids[j];
    assert k in c[p].kids && Chain(n, c[p].kids);
    assert n[k].nextSibling == At(c[p].kids, j + 1);
  }

  /** A node whose flag is right is no longer stale. */
  lemma Settle(n: seq<Node>, lru: seq<set<(real, int)>>, c: Tree, plays: seq<Play>, stale: set<int>, id: int)
    requires Stands(n, lru, c, plays, stale) && id in c && 0 <= id < |n|
    requires n[id].inLru <==> Evictable(c, id)
    ensures Stands(n, lru, c, plays, stale - {id})
  {
  }

  lemma Loosen(n: seq<Node>, lru: seq<set<(real, int)>>, c: Tree, plays: seq<Play>, stale: set<int>, more: set<int>)
    requires Stands(n, lru, c, plays, stale) && stale <= more
    ensures Stands(n, lru, c, plays, more)
  {
  }

  ghost predicate SameButFlags(n: seq<Node>, m: seq<Node>) {
    |n| == |m| && forall i {:trigger m[i]} :: 0 <= i < |n| ==> m[i] == n[i].(inLru := m[i].inLru)
  }

  lemma FlagsKeepLinks(n: seq<Node>, m: seq<Node>, c: Tree, plays: seq<Play>)
    requires Shape(c) && Rep(n, c, plays) && Links(n, c) && SameButFlags(n, m)
    ensures Rep(m, c, plays) && Links(m, c)
  {
    forall i | i in c
      ensures Chain(m, c[i].kids)
    {
      ChainSame(n, m, c[i].kids);
    }
  }

  function WithFlag(n: seq<Node>, id: int, f: bool): seq<Node>
    requires 0 <= id < |n|
  {
    n[id := n[id].(inLru := f)]
  }

  /** The LRU sets after taking out, or putting in, the entry of node id. */
  function WithoutEntry(n: seq<Node>, lru: seq<set<(real, int)>>, id: int): seq<set<(real, int)>>
    requires 0 <= id < |n| && n[id].tier < |lru|
  {
    if n[id].inLru then lru[n[id].tier := lru[n[id].tier] - {(n[id].lastAccess, id)}] else lru
  }

  function WithEntry(n: seq<Node>, lru: seq<set<(real, int)>>, id: int): seq<set<(real, int)>>
    requires 0 <= id < |n| && n[id].tier < |lru|
  {
    lru[n[id].tier := lru[n[id].tier] + {(n[id].lastAccess, id)}]
  }

  lemma EraseSets(n: seq<Node>, lru: seq<set<(real, int)>>, c: Tree, id: int)
    requires LruSets(n, lru, c) && id in c && n[id].tier == c[id].tier && n[id].lastAccess == c[id].lastAccess
    ensures LruSets(WithFlag(n, id, false), WithoutEntry(n, lru, id), c)
  {
  }

  /** Taking a flag down together with its LRU entry, or putting both up, leaves the rest standing. */
  lemma EraseStands(n: seq<Node>, lru: seq<set<(real, int)>>, c: Tree, plays: seq<Play>, stale: set<int>, id: int)
    requires Shape(c) && Stands(n, lru, c, plays, stale) && id in c && id in stale
    ensures 0 <= id < |n| && n[id].tier < |lru|
    ensures Stands(WithFlag(n, id, false), WithoutEntry(n, lru, id), c, plays, stale)
  {
    EraseSets(n, lru, c, id);
    FlagsKeepLinks(n, WithFlag(n, id, false), c, plays);
  }

  lemma InsertSets(n: seq<Node>, lru: seq<set<(real, int)>>, c: Tree, id: int)
    requires LruSets(n, lru, c) && id in c && n[id].tier == c[id].tier && n[id].lastAccess == c[id].lastAccess
    requires !n[id].inLru
    ensures LruSets(WithFlag(n, id, true), WithEntry(n, lru, id), c)
  {
  }

  lemma InsertStands(n: seq<Node>, lru: seq<set<(real, int)>>, c: Tree, plays: seq<Play>, stale: set<int>, id: int)
    requires Shape(c) && Stands(n, lru, c, plays, stale) && id in c && id in stale && !n[id].inLru
    ensures 0 <= id < |n| && n[id].tier < |lru|
    ensures Stands(WithFlag(n, id, true), WithEntry(n, lru, id), c, plays, stale)
  {
    InsertSets(n, lru, c, id);
    FlagsKeepLinks(n, WithFlag(n, id, true), c, plays);
  }

  lemma ChangeLinks(n: seq<Node>, lru: seq<set<(real, int)>>, c: Tree, plays: seq<Play>, stale: set<int>,
                    id: int, m: Node, k: Seg)
    requires Shape(c) && Stands(n, lru, c, plays, stale) && id in c && id in stale
    requires m.nextSibling == n[id].nextSibling && m.prevSibling == n[id].prevSibling && m.inLru == n[id].inLru
    requires NodeIs(m, k, plays) && k.kids == c[id].kids && k.parent == c[id].parent && k.tier < |lru|
    requires m.inLru ==> k.tier == c[id].tier && k.lastAccess == c[id].lastAccess
    ensures Rep(n[id := m], c[id := k], plays) && Links(n[id := m], c[id := k])
  {
    var d := c[id := k];
    forall i | i in d
      ensures Chain(n[id := m], d[i].kids)
    {
      ChainSame(n, n[id := m], c[i].kids);
    }
  }

  lemma ChangeLru(n: seq<Node>, lru: seq<set<(real, int)>>, c: Tree, plays: seq<Play>, stale: set<int>,
                  id: int, m: Node, k: Seg)
    requires Shape(c) && Stands(n, lru, c, plays, stale) && id in c && id in stale
    requires m.nextSibling == n[id].nextSibling && m.prevSibling == n[id].prevSibling && m.inLru == n[id].inLru
    requires NodeIs(m, k, plays) && k.kids == c[id].kids && k.parent == c[id].parent && k.tier < |lru|
    requires m.inLru ==> k.tier == c[id].tier && k.lastAccess == c[id].lastAccess
    ensures LruSets(n[id := m], lru, c[id := k])
  {
    hide Links, Shape, Flags;
  }

  lemma ChangeFlags(n: seq<Node>, lru: seq<set<(real, int)>>, c: Tree, plays: seq<Play>, stale: set<int>,
                    id: int, m: Node, k: Seg)
    requires Shape(c) && Stands(n, lru, c, plays, stale) && id in c && id in stale
    requires m.nextSibling == n[id].nextSibling && m.prevSibling == n[id].prevSibling && m.inLru == n[id].inLru
    requires NodeIs(m, k, plays) && k.kids == c[id].kids && k.parent == c[id].parent && k.tier < |lru|
    requires m.inLru ==> k.tier == c[id].tier && k.lastAccess == c[id].lastAccess
    requires k.tier != c[id].tier ==> k.parent in stale
    ensures Flags(n[id := m], c[id := k], stale)
  {
    hide Links, LruSets;
    var d := c[id := k];
    forall i | i in d && i !in stale
      ensures 0 <= i < |n| && (n[i].inLru <==> Evictable(d, i))
    {
      assert Evictable(d, i) <==> Evictable(c, i);
    }
  }

  /** One node changes in step with its segment; links stay, and a flagged node keeps its LRU key. */
  lemma ChangeStands(n: seq<Node>, lru: seq<set<(real, int)>>, c: Tree, plays: seq<Play>, stale: set<int>,
                     id: int, m: Node, k: Seg)
    requires Shape(c) && Stands(n, lru, c, plays, stale) && id in c && id in stale
    requires m.nextSibling == n[id].nextSibling && m.prevSibling == n[id].prevSibling && m.inLru == n[id].inLru
    requires NodeIs(m, k, plays) && k.kids == c[id].kids && k.parent == c[id].parent && k.tier < |lru|
    requires m.inLru ==> k.tier == c[id].tier && k.lastAccess == c[id].lastAccess
    requires k.tier != c[id].tier ==> k.parent in stale
    ensures Stands(n[id := m], lru, c[id := k], plays, stale)
  {
    ChangeLinks(n, lru, c, plays, stale, id, m, k);
    ChangeLru(n, lru, c, plays, stale, id, m, k);
    ChangeFlags(n, lru, c, plays, stale, id, m, k);
  }

  lemma ChainSame(n: seq<Node>, m: seq<Node>, s: seq<int>)
    requires Chain(n, s) && |n| <= |m|
    requires forall i :: i in s && 0 <= i < |n| ==>
      m[i].nextSibling == n[i].nextSibling && m[i].prevSibling == n[i].prevSibling
    ensures Chain(m, s)
  {
    forall j | 0 <= j < |s|
      ensures 0 <= s[j] < |m| && m[s[j]].nextSibling == At(s, j + 1) && m[s[j]].prevSibling == At(s, j - 1)
    {
      assert s[j] in s && n[s[j]].nextSibling == At(s, j + 1);
    }
  }

  lemma SlotsSame(n: seq<Node>, m: seq<Node>, free: seq<int>, c: Tree, filling: set<int>)
    requires Slots(n, free, c, filling) && |m| == |n|
    ensures Slots(m, free, c, filling)
  {
  }

  lemma SlotsTree(n: seq<Node>, free: seq<int>, c: Tree, d: Tree, filling: set<int>)
    requires Slots(n, free, c, filling) && c.Keys == d.Keys
    ensures Slots(n, free, d, filling)
  {
  }

  lemma RootsSame(roots: map<nat, int>, c: Tree, d: Tree)
    requires Roots(roots, c) && SameShape(c, d)
    ensures Roots(roots, d)
  {
    forall p | p in roots
      ensures roots[p] in d && d[roots[p]].parent == -1 && d[roots[p]].play == p
    {
      var i := roots[p];
      assert i in c;
      assert d[i] == c[i].(tier := d[i].tier, pins := d[i].pins, lastAccess := d[i].lastAccess);
    }
    forall i | IsRoot(d, i)
      ensures d[i].play in roots && roots[d[i].play] == i
    {
      assert IsRoot(c, i);
    }
  }

  // ---- removal ----

  /** The arena after `unlink`: neighbours and parent bypass node id. */
  function Unlinked(n: seq<Node>, id: int): (m: seq<Node>)
    requires 0 <= id < |n|
    requires n[id].prevSibling == -1 || 0 <= n[id].prevSibling < |n|
    requires n[id].nextSibling == -1 || 0 <= n[id].nextSibling < |n|
    requires n[id].parent == -1 || 0 <= n[id].parent < |n|
    ensures |m| == |n|
  {
    var x := n[id];
    var a := if x.prevSibling != -1 then n[x.prevSibling := n[x.prevSibling].(nextSibling := x.nextSibling)]
             else if x.parent != -1 then n[x.parent := n[x.parent].(firstChild := x.nextSibling)]
             else n;
    var b := if x.nextSibling != -1 then a[x.nextSibling := a[x.nextSibling].(prevSibling := x.prevSibling)] else a;
    b[id := b[id].(prevSibling := -1, nextSibling := -1)]
  }

  ghost predicate SlotOf(c: Tree, id: int, j: int)
    requires id in c
  {
    c[id].parent in c && 0 <= j < |c[c[id].parent].kids| && c[c[id].parent].kids[j] == id
  }

  /** The neighbours of a child, as the arena records them. */
  lemma SlotAt(n: seq<Node>, lru: seq<set<(real, int)>>, c: Tree, plays: seq<Play>, stale: set<int>, id: int)
    returns (j: nat)
    requires Shape(c) && Stands(n, lru, c, plays, stale) && id in c && c[id].parent != -1
    ensures SlotOf(c, id, j)
    ensures var s := c[c[id].parent].kids;
      0 <= id < |n| && n[id].parent == c[id].parent && 0 <= c[id].parent < |n| &&
      n[id].prevSibling == At(s, j - 1) && n[id].nextSibling == At(s, j + 1) &&
      (forall k :: 0 <= k < |s| ==> 0 <= s[k] < |n|)
  {
    var s := c[c[id].parent].kids;
    j :| 0 <= j < |s| && s[j] == id;
    KidAt(n, lru, c, plays, stale, c[id].parent, j);
    forall k | 0 <= k < |s|
      ensures 0 <= s[k] < |n|
    {
      assert s[k] in s;
    }
  }

  /** Without one member, a sibling list is again a sibling list. */
  /** What the links of a sibling other than s[j] are once s[j] is unlinked. */
  lemma UnlinkedAt(n: seq<Node>, s: seq<int>, j: nat, p: int, q: nat)
    requires Chain(n, s) && NoDup(s) && j < |s| && p !in s && 0 <= p < |n| && q < |s| && q != j
    requires forall k :: 0 <= k < |s| ==> 0 <= s[k] < |n|
    requires n[s[j]].parent == p && n[s[j]].prevSibling == At(s, j - 1) && n[s[j]].nextSibling == At(s, j + 1)
    ensures var m := Unlinked(n, s[j]); (
      m[s[q]].nextSibling == (if q + 1 == j then At(s, j + 1) else At(s, q + 1)) &&
      m[s[q]].prevSibling == (if q == j + 1 then At(s, j - 1) else At(s, q - 1)))
  {
    assert n[s[q]].nextSibling == At(s, q + 1) && n[s[q]].prevSibling == At(s, q - 1);
  }

  lemma FirstUnlinked(n: seq<Node>, s: seq<int>, j: nat, p: int)
    requires NoDup(s) && j < |s| && p !in s && 0 <= p < |n| && forall k :: 0 <= k < |s| ==> 0 <= s[k] < |n|
    requires n[s[j]].parent == p && n[s[j]].prevSibling == At(s, j - 1) && n[s[j]].nextSibling == At(s, j + 1)
    ensures Unlinked(n, s[j])[p].firstChild == if j == 0 then At(s, 1) else n[p].firstChild
  {
  }

  lemma AtWithout(s: seq<int>, j: nat, k: int)
    requires j < |s|
    ensures At(s[..j] + s[j + 1..], k) == (if k < j then At(s, k) else At(s, k + 1))
  {
  }

  lemma ChainWithout(n: seq<Node>, s: seq<int>, j: nat, p: int)
    requires Chain(n, s) && NoDup(s) && j < |s| && p !in s && 0 <= p < |n|
    requires forall k :: 0 <= k < |s| ==> 0 <= s[k] < |n|
    requires n[s[j]].parent == p
    requires n[s[j]].prevSibling == At(s, j - 1) && n[s[j]].nextSibling == At(s, j + 1)
    requires n[p].firstChild == At(s, 0)
    ensures Chain(Unlinked(n, s[j]), s[..j] + s[j + 1..])
    ensures Unlinked(n, s[j])[p].firstChild == At(s[..j] + s[j + 1..], 0)
  {
    hide Unlinked;
    var m := Unlinked(n, s[j]);
    var r := s[..j] + s[j + 1..];
    forall k: nat | k < |r|
      ensures 0 <= r[k] < |m| && m[r[k]].nextSibling == At(r, k + 1) && m[r[k]].prevSibling == At(r, k - 1)
    {
      UnlinkedAt(n, s, j, p, if k < j then k else k + 1);
      AtWithout(s, j, k + 1);
      AtWithout(s, j, k - 1);
    }
    AtWithout(s, j, 0);
    FirstUnlinked(n, s, j, p);
  }

  /** `unlink` touches only siblings' links and the parent's first child. */
  lemma UnlinkedFrame(n: seq<Node>, c: Tree, id: int, j: nat, i: int)
    requires Shape(c) && id in c && c[id].parent != -1 && SlotOf(c, id, j)
    requires 0 <= id < |n| && n[id].parent == c[id].parent && 0 <= c[id].parent < |n|
    requires var s := c[c[id].parent].kids;
      n[id].prevSibling == At(s, j - 1) && n[id].nextSibling == At(s, j + 1) && forall k :: 0 <= k < |s| ==>
        0 <= s[k] < |n|
    requires 0 <= i < |n|
    ensures var m := Unlinked(n, id)[i];
      m == n[i].(firstChild := m.firstChild, nextSibling := m.nextSibling, prevSibling := m.prevSibling) &&
      (i != c[id].parent ==> m.firstChild == n[i].firstChild) &&
      (i !in c[c[id].parent].kids ==> m.nextSibling == n[i].nextSibling && m.prevSibling == n[i].prevSibling)
  {
    var s := c[c[id].parent].kids;
    assert s[j] in s;
    if j > 0 { assert s[j - 1] in s; }
    if j + 1 < |s| { assert s[j + 1] in s; }
  }

  /** m is the arena n after `unlink` of id and the freeing of everything below it. */
  ghost predicate Pruned(n: seq<Node>, m: seq<Node>, c: Tree, id: int, j: nat)
    requires Shape(c)
  {
    && id in c && c[id].parent != -1 && SlotOf(c, id, j)
    && 0 <= id < |n| && n[id].parent == c[id].parent && 0 <= c[id].parent < |n|
    && (var s := c[c[id].parent].kids;
        n[id].prevSibling == At(s, j - 1) && n[id].nextSibling == At(s, j + 1) && forall k :: 0 <= k < |s| ==>
          0 <= s[k] < |n|)
    && |m| == |n|
    && (forall i :: 0 <= i < |n| && i !in Desc(c, id) ==> m[i] == Unlinked(n, id)[i])
  }

  lemma ChainAt(n: seq<Node>, lru: seq<set<(real, int)>>, c: Tree, plays: seq<Play>, stale: set<int>, p: int)
    requires Stands(n, lru, c, plays, stale) && p in c
    ensures Chain(n, c[p].kids)
    ensures c[p].parent == -1 ==> 0 <= p < |n| && n[p].nextSibling == -1 && n[p].prevSibling == -1
  {
  }

  lemma PrunedParent(n: seq<Node>, m: seq<Node>, lru: seq<set<(real, int)>>, c: Tree, plays: seq<Play>, id: int, j: nat)
    requires Shape(c) && Stands(n, lru, c, plays, {}) && Pruned(n, m, c, id, j)
    ensures var p := c[id].parent; (
      p in c && p !in Desc(c, id) && NoDup(c[p].kids) && id in c[p].kids &&
      Chain(m, Without(c[p].kids, id)) && m[p].firstChild == At(Without(c[p].kids, id), 0))
  {
    hide Stands, Unlinked, Shape, Anc, Chain;
    var p := c[id].parent;
    ParentAt(c, id);
    if p in Desc(c, id) { AncIn(c, id, p); }
    var s := c[p].kids;
    KidsLive(c, p);
    if p in s { ParentAt(c, p); }
    RepAt(n, lru, c, plays, {}, p);
    ChainAt(n, lru, c, plays, {}, p);
    KidsNoDup(c, p);
    ChainWithout(n, s, j, p);
    WithoutAt(s, id, j);
    WithoutNoDup(s, id);
    KidsOutside(c, id, p);
    ChainSame(Unlinked(n, id), m, Without(s, id));
  }

  lemma PrunedOther(n: seq<Node>, m: seq<Node>, lru: seq<set<(real, int)>>, c: Tree, plays: seq<Play>, id: int, j: nat,
                    i: int)
    requires Shape(c) && Stands(n, lru, c, plays, {}) && Pruned(n, m, c, id, j)
    requires i in c && i !in Desc(c, id) && i != c[id].parent
    ensures Chain(m, c[i].kids) && id !in c[i].kids
    ensures 0 <= i < |m| && m[i].firstChild == n[i].firstChild
  {
    hide Stands, Unlinked, Shape, Anc, Chain;
    KidsOutside(c, id, i);
    KidsLive(c, i);
    KidsLive(c, c[id].parent);
    RepAt(n, lru, c, plays, {}, i);
    UnlinkedFrame(n, c, id, j, i);
    forall k | k in c[i].kids && 0 <= k < |n|
      ensures m[k].nextSibling == n[k].nextSibling && m[k].prevSibling == n[k].prevSibling
    {
      assert k !in c[c[id].parent].kids;
      UnlinkedFrame(n, c, id, j, k);
    }
    ChainAt(n, lru, c, plays, {}, i);
    ChainSame(n, m, c[i].kids);
  }

  lemma PrunedAt(n: seq<Node>, m: seq<Node>, lru: seq<set<(real, int)>>, c: Tree, plays: seq<Play>, id: int, j: nat,
                 i: int)
    requires Shape(c) && Stands(n, lru, c, plays, {}) && Pruned(n, m, c, id, j)
    requires i in Remove(c, id)
    ensures 0 <= i < |m| && NodeIs(m[i], Remove(c, id)[i], plays) && Chain(m, Remove(c, id)[i].kids)
    ensures c[i].parent == -1 ==> m[i].nextSibling == -1 && m[i].prevSibling == -1
  {
    hide Stands, Unlinked, Shape, Anc, Chain;
    RepAt(n, lru, c, plays, {}, i);
    ChainAt(n, lru, c, plays, {}, i);
    UnlinkedFrame(n, c, id, j, i);
    PrunedParent(n, m, lru, c, plays, id, j);
    KidsLive(c, c[id].parent);
    ParentAt(c, id);
    if i != c[id].parent {
      PrunedOther(n, m, lru, c, plays, id, j, i);
    }
  }

  lemma PrunedFlag(n: seq<Node>, m: seq<Node>, lru: seq<set<(real, int)>>, c: Tree, plays: seq<Play>, id: int, j: nat,
                   i: int)
    requires Shape(c) && Stands(n, lru, c, plays, {}) && Pruned(n, m, c, id, j)
    requires i in Remove(c, id) && i != c[id].parent
    ensures 0 <= i < |m| && (m[i].inLru <==> Evictable(Remove(c, id), i))
  {
    hide Stands, Unlinked, Shape, Anc, Chain;
    RepAt(n, lru, c, plays, {}, i);
    UnlinkedFrame(n, c, id, j, i);
    PrunedOther(n, m, lru, c, plays, id, j, i);
    KidsOutside(c, id, i);
    KidsLive(c, i);
  }

  lemma PrunedStands(n: seq<Node>, m: seq<Node>, lru: seq<set<(real, int)>>, lru1: seq<set<(real, int)>>, c: Tree,
                     plays: seq<Play>, id: int, j: nat)
    requires Shape(c) && Stands(n, lru, c, plays, {}) && Pruned(n, m, c, id, j)
    requires LruSets(m, lru1, c - Desc(c, id))
    ensures Stands(m, lru1, Remove(c, id), plays, {c[id].parent})
  {
    var d := Remove(c, id);
    assert LruSets(m, lru1, d) by {
      hide Stands, Shape, Anc, Pruned;
      LruSetsKeys(m, lru1, c - Desc(c, id), d);
    }
    hide Stands, Unlinked, Shape, Anc, Chain, NodeIs, Evictable, LruSets;
    forall i | i in d
      ensures 0 <= i < |m| && NodeIs(m[i], d[i], plays)
      ensures Chain(m, d[i].kids)
      ensures c[i].parent == -1 ==> m[i].nextSibling == -1 && m[i].prevSibling == -1
      ensures i != c[id].parent ==> (m[i].inLru <==> Evictable(d, i))
    {
      PrunedAt(n, m, lru, c, plays, id, j, i);
      if i != c[id].parent {
        PrunedFlag(n, m, lru, c, plays, id, j, i);
      }
    }
    StandsFrom(m, lru1, d, plays, {c[id].parent});
  }

  lemma LruSetsKeys(m: seq<Node>, lru: seq<set<(real, int)>>, c: Tree, d: Tree)
    requires LruSets(m, lru, c) && d.Keys == c.Keys
    requires forall i :: i in d ==> d[i].tier == c[i].tier && d[i].lastAccess == c[i].lastAccess
    ensures LruSets(m, lru, d)
  {
  }

  lemma StandsFrom(m: seq<Node>, lru: seq<set<(real, int)>>, d: Tree, plays: seq<Play>, stale: set<int>)
    requires forall i :: i in d ==> 0 <= i < |m| && NodeIs(m[i], d[i], plays) && Chain(m, d[i].kids)
    requires forall i :: i in d && d[i].parent == -1 ==>
      0 <= i < |m| && m[i].nextSibling == -1 && m[i].prevSibling == -1
    requires forall i :: i in d && i !in stale ==> 0 <= i < |m| && (m[i].inLru <==> Evictable(d, i))
    requires LruSets(m, lru, d)
    ensures Stands(m, lru, d, plays, stale)
  {
  }

  /** An erased node leaves the live tree. */
  lemma EraseGone(n: seq<Node>, lru: seq<set<(real, int)>>, c: Tree, id: int)
    requires LruSets(n, lru, c) && id in c && n[id].tier == c[id].tier && n[id].lastAccess == c[id].lastAccess
    ensures 0 <= id < |n| && n[id].tier < |lru|
    ensures LruSets(WithFlag(n, id, false), WithoutEntry(n, lru, id), c - {id})
  {
  }

  lemma SlotsFree(n: seq<Node>, free: seq<int>, c: Tree, id: int)
    requires Slots(n, free, c, {}) && id in c
    ensures Slots(n, free + [id], c - {id}, {})
  {
  }

  lemma ChainNext(n: seq<Node>, s: seq<int>, j: nat)
    requires Chain(n, s) && j < |s|
    ensures 0 <= s[j] < |n| && n[s[j]].nextSibling == At(s, j + 1)
  {
    assert n[s[j]].nextSibling == At(s, j + 1);
  }

  lemma AtEnd(c: Tree, id: int, m: nat)
    requires Shape(c) && id in c && m <= |c[id].kids| && At(c[id].kids, m) == -1
    ensures m == |c[id].kids|
  {
    forall k | 0 <= k < |c[id].kids|
      ensures c[id].kids[k] >= 0
    {
      assert c[id].kids[k] in c[id].kids;
    }
  }

  /** The subtree of id in c is intact in the arena. */
  ghost predicate SubtreeStands(n: seq<Node>, c: Tree, plays: seq<Play>, id: int)
    requires Shape(c)
  {
    forall i :: i in Desc(c, id) ==>
      0 <= i < |n| && NodeIs(n[i], c[i], plays) && Chain(n, c[i].kids)
  }

  lemma IntactBelow(n: seq<Node>, m: seq<Node>, c: Tree, plays: seq<Play>, id: int, ch: int)
    requires Shape(c) && id in c && SubtreeStands(n, c, plays, id) && ch in Desc(c, id)
    requires SameButFlags(n, m) && forall i :: i in Desc(c, ch) && 0 <= i < |n| ==> m[i] == n[i]
    ensures SubtreeStands(m, c, plays, ch)
  {
    DescSub(c, id, ch);
    forall i | i in Desc(c, ch)
      ensures 0 <= i < |m| && NodeIs(m[i], c[i], plays) && Chain(m, c[i].kids)
    {
      assert i in Desc(c, id);
      ChainSame(n, m, c[i].kids);
    }
  }

  /** After `unlink` the subtree below is untouched, ready to be freed. */
  lemma UnlinkedSubtree(n: seq<Node>, m: seq<Node>, lru: seq<set<(real, int)>>, c: Tree, plays: seq<Play>,
                        id: int, j: nat)
    requires Shape(c) && Stands(n, lru, c, plays, {}) && Pruned(n, m, c, id, j)
    requires m == Unlinked(n, id)
    ensures SubtreeStands(m, c, plays, id)
    ensures LruSets(m, lru, c)
    ensures forall i :: 0 <= i < |n| ==> m[i].inLru == n[i].inLru
  {
    assert forall i :: 0 <= i < |n| ==> m[i].inLru == n[i].inLru by {
      hide Stands, Shape;
      forall i | 0 <= i < |n| ensures m[i].inLru == n[i].inLru { UnlinkedFrame(n, c, id, j, i); }
    }
    assert LruSets(m, lru, c) by {
      hide Rep, Links, Flags, Unlinked, Shape, Pruned;
      LruSetsNodes(n, m, lru, c);
    }
    hide Stands, Unlinked, Shape, LruSets;
    forall i | i in Desc(c, id)
      ensures 0 <= i < |m| && NodeIs(m[i], c[i], plays) && Chain(m, c[i].kids)
    {
      RepAt(n, lru, c, plays, {}, i);
      ChainAt(n, lru, c, plays, {}, i);
      UnlinkedFrame(n, c, id, j, i);
      KidsLive(c, i);
      ParentAt(c, id);
      KidsLive(c, c[id].parent);
      AncIn(c, id, i);
      assert i != c[id].parent;
      forall k | k in c[i].kids && 0 <= k < |n|
        ensures m[k].nextSibling == n[k].nextSibling && m[k].prevSibling == n[k].prevSibling
      {
        UnlinkedFrame(n, c, id, j, k);
      }
      ChainSame(n, m, c[i].kids);
    }
  }

  lemma LruSetsNodes(n: seq<Node>, m: seq<Node>, lru: seq<set<(real, int)>>, c: Tree)
    requires LruSets(n, lru, c) && |m| == |n| && forall i :: 0 <= i < |n| ==> m[i].inLru == n[i].inLru
    ensures LruSets(m, lru, c)
  {
  }

  lemma SlotsFill(n: seq<Node>, free: seq<int>, c: Tree, id: int, k: Seg)
    requires Slots(n, free, c, {id}) && id !in c
    ensures Slots(n, free, c[id := k], {})
  {
  }

  lemma RootsAdd(roots: map<nat, int>, c: Tree, id: int, play: nat, now: real)
    requires Roots(roots, c) && id !in c && play !in roots
    ensures Roots(roots[play := id], c[id := NewRoot(play, now)])
  {
    var d := c[id := NewRoot(play, now)];
    forall i | IsRoot(d, i)
      ensures d[i].play in roots[play := id] && roots[play := id][d[i].play] == i
    {
      if i != id { assert IsRoot(c, i); }
    }
  }

  lemma RootsLink(roots: map<nat, int>, c: Tree, p: int, id: int, k: Seg)
    requires Roots(roots, c) && p in c && id !in c && k.parent != -1
    ensures Roots(roots, LinkFront(c, p, id, k))
  {
    var d := LinkFront(c, p, id, k);
    forall i | IsRoot(d, i)
      ensures d[i].play in roots && roots[d[i].play] == i
    {
      assert IsRoot(c, i);
    }
  }

  lemma RootsTail(roots: map<nat, int>, c: Tree, id: int, tail: nat)
    requires Roots(roots, c) && id in c
    ensures Roots(roots, KvTree.SetTail(c, id, tail))
  {
    var d := KvTree.SetTail(c, id, tail);
    forall i | IsRoot(d, i)
      ensures d[i].play in roots && roots[d[i].play] == i
    {
      assert IsRoot(c, i);
    }
  }

  lemma RootsRemove(roots: map<nat, int>, c: Tree, i: int)
    requires Shape(c) && Roots(roots, c) && i in c && c[i].parent != -1
    ensures Roots(roots, Remove(c, i))
  {
    var d := Remove(c, i);
    forall p | p in roots
      ensures roots[p] in d && d[roots[p]].parent == -1 && d[roots[p]].play == p
    {
      var r := roots[p];
      assert r in c;
      if r in Desc(c, i) { AncIn(c, i, r); }
    }
    forall r | IsRoot(d, r)
      ensures d[r].play in roots && roots[d[r].play] == r
    {
      assert IsRoot(c, r);
    }
  }

  /** Comparing the first id of a node's slice compares the first block of its segment. */
  lemma StartsHere(k: Seg, n: Node, plays: seq<Play>, want: nat)
    requires NodeIs(n, k, plays) && SliceOk(k, plays) && k.nblocks > 0
    ensures n.play < |plays| && n.hashBegin < |plays[n.play].hashes|
    ensures StartsWith(k, plays, want) <==> plays[n.play].hashes[n.hashBegin] == want
  {
  }

  lemma StartsAt(k: Seg, n: Node, plays: seq<Play>, want: nat)
    requires NodeIs(n, k, plays) && StartsWith(k, plays, want)
    ensures n.play < |plays| && k.src < |plays[n.play].reqs| && k.nblocks > 0
    ensures n.hashBegin == plays[n.play].reqs[k.src].begin + k.start && n.hashBegin < |plays[n.play].hashes|
    ensures plays[n.play].hashes[n.hashBegin] == want
  {
  }

  lemma RootsAt(roots: map<nat, int>, c: Tree, play: nat)
    requires Roots(roots, c) && play in roots
    ensures roots[play] in c && c[roots[play]].parent == -1 && c[roots[play]].play == play
  {
  }

  lemma NoLruNoEvictable(n: seq<Node>, lru: seq<set<(real, int)>>, c: Tree, plays: seq<Play>, t: nat)
    requires Stands(n, lru, c, plays, {}) && t < |lru| && lru[t] == {}
    ensures forall x :: x in c && c[x].tier == t ==> !Evictable(c, x)
  {
    forall x | x in c && c[x].tier == t
      ensures !Evictable(c, x)
    {
      assert InLru(n, c, t, (c[x].lastAccess, x)) <==> (c[x].lastAccess, x) in lru[t];
    }
  }

  lemma AllLruEvictable(n: seq<Node>, lru: seq<set<(real, int)>>, c: Tree, plays: seq<Play>, t: nat)
    requires Stands(n, lru, c, plays, {}) && t < |lru|
    ensures forall w :: w in c && c[w].tier == t && Evictable(c, w) ==> Key(c, w) in lru[t]
  {
  }

  lemma LruIsEvictable(n: seq<Node>, lru: seq<set<(real, int)>>, c: Tree, plays: seq<Play>, t: nat, e: (real, int))
    requires Stands(n, lru, c, plays, {}) && t < |lru|
    ensures e in lru[t] <==> e.1 in c && c[e.1].tier == t && Evictable(c, e.1) && e.0 == c[e.1].lastAccess
  {
  }

  // ---- linking ----

  /** The arena after `link_child`. */
  function Linked(n: seq<Node>, p: int, id: int): (m: seq<Node>)
    requires 0 <= p < |n| && 0 <= id < |n| && (n[p].firstChild == -1 || 0 <= n[p].firstChild < |n|)
    ensures |m| == |n|
  {
    var first := n[p].firstChild;
    var a := n[id := n[id].(parent := p, prevSibling := -1, nextSibling := first)];
    var b := if first != -1 then a[first := a[first].(prevSibling := id)] else a;
    b[p := b[p].(firstChild := id)]
  }

  /** Node id holds the contents of segment k, not yet linked anywhere. */
  ghost predicate Loose(n: Node, k: Seg, plays: seq<Play>) {
    && n.play == k.play && n.firstChild == -1 && k.kids == []
    && n.hashBegin == HashBegin(k, plays) && n.nblocks == k.nblocks && n.tail == k.tail
    && n.tier == k.tier && n.pins == k.pins && n.lastAccess == k.lastAccess && !n.inLru
  }

  ghost predicate CanLink(n: seq<Node>, c: Tree, plays: seq<Play>, p: int, id: int, k: Seg) {
    && p in c && id !in c && p != id && 0 <= p < |n| && 0 <= id < |n|
    && n[p].firstChild == At(c[p].kids, 0)
    && (forall x :: x in c[p].kids ==> x in c && 0 <= x < |n| && x != p && x != id)
    && Loose(n[id], k, plays) && k.parent == p
  }

  lemma LinkedFrame(n: seq<Node>, c: Tree, plays: seq<Play>, p: int, id: int, k: Seg, i: int)
    requires CanLink(n, c, plays, p, id, k) && 0 <= i < |n|
    ensures n[p].firstChild == -1 || 0 <= n[p].firstChild < |n|
    ensures var x := Linked(n, p, id)[i]; (
      x == n[i].(firstChild := x.firstChild, nextSibling := x.nextSibling, prevSibling := x.prevSibling,
        parent := x.parent) &&
      (i != id ==> x.parent == n[i].parent && x.nextSibling == n[i].nextSibling) && (i == id ==> x.parent == p) &&
      (i == p ==> x.firstChild == id) && (i != p ==> x.firstChild == n[i].firstChild) &&
      (i !in c[p].kids && i != id ==> x.prevSibling == n[i].prevSibling))
  {
    if c[p].kids != [] { assert c[p].kids[0] in c[p].kids; }
  }

  lemma LinkedChain(n: seq<Node>, c: Tree, plays: seq<Play>, p: int, id: int, k: Seg)
    requires CanLink(n, c, plays, p, id, k) && Chain(n, c[p].kids) && NoDup(c[p].kids)
    ensures n[p].firstChild == -1 || 0 <= n[p].firstChild < |n|
    ensures Chain(Linked(n, p, id), [id] + c[p].kids)
  {
    var s, r := c[p].kids, [id] + c[p].kids;
    if s != [] { assert s[0] in s; }
    var m := Linked(n, p, id);
    forall j | 0 <= j < |r|
      ensures 0 <= r[j] < |m| && m[r[j]].nextSibling == At(r, j + 1) && m[r[j]].prevSibling == At(r, j - 1)
    {
      if j > 0 {
        assert r[j] == s[j - 1] && s[j - 1] in s && n[s[j - 1]].nextSibling == At(s, j);
      }
    }
  }

  lemma ChainNil(n: seq<Node>)
    ensures Chain(n, [])
  {
  }

  lemma LinkedAt(n: seq<Node>, lru: seq<set<(real, int)>>, c: Tree, plays: seq<Play>, stale: set<int>,
                 p: int, id: int, k: Seg, i: int)
    requires Shape(c) && Stands(n, lru, c, plays, stale) && CanLink(n, c, plays, p, id, k)
    requires i in LinkFront(c, p, id, k)
    ensures n[p].firstChild == -1 || 0 <= n[p].firstChild < |n|
    ensures var (m, d) := (Linked(n, p, id), LinkFront(c, p, id, k)); (
      0 <= i < |m| && NodeIs(m[i], d[i], plays) && Chain(m, d[i].kids) &&
      (d[i].parent == -1 ==> m[i].nextSibling == -1 && m[i].prevSibling == -1) &&
      (i !in stale && i != p && i != id ==> (m[i].inLru <==> Evictable(d, i))))
  {
    hide Stands, Shape, Linked, Chain;
    if i != id {
      RepAt(n, lru, c, plays, stale, i);
    }
    KidsLive(c, p);
    LinkedFrame(n, c, plays, p, id, k, i);
    var m, d := Linked(n, p, id), LinkFront(c, p, id, k);
    if i == id {
      assert d[id].kids == [];
      ChainNil(m);
    } else {
      ChainAt(n, lru, c, plays, stale, i);
      KidsLive(c, i);
      KidsNoDup(c, i);
      if i == p {
        LinkedChain(n, c, plays, p, id, k);
      } else {
        forall x | x in c[i].kids && 0 <= x < |n|
          ensures m[x].nextSibling == n[x].nextSibling && m[x].prevSibling == n[x].prevSibling
        {
          LinkedFrame(n, c, plays, p, id, k, x);
        }
        ChainSame(n, m, c[i].kids);
      }
    }
  }

  lemma LinkReady(n: seq<Node>, lru: seq<set<(real, int)>>, c: Tree, plays: seq<Play>, p: int, id: int, k: Seg)
    requires Shape(c) && Stands(n, lru, c, plays, {}) && p in c && id !in c && 0 <= id < |n|
    requires Loose(n[id], k, plays) && k.parent == p
    ensures CanLink(n, c, plays, p, id, k)
  {
  }

  lemma LinkedStands(n: seq<Node>, lru: seq<set<(real, int)>>, c: Tree, plays: seq<Play>, stale: set<int>,
                     p: int, id: int, k: Seg)
    requires Shape(c) && Stands(n, lru, c, plays, stale) && CanLink(n, c, plays, p, id, k) && k.tier < |lru|
    ensures n[p].firstChild == -1 || 0 <= n[p].firstChild < |n|
    ensures Stands(Linked(n, p, id), lru, LinkFront(c, p, id, k), plays, stale + {p, id})
  {
    if c[p].kids != [] { assert c[p].kids[0] in c[p].kids; }
    var m, d := Linked(n, p, id), LinkFront(c, p, id, k);
    assert LruSets(m, lru, d) by {
      LinkedLru(n, m, lru, c, plays, p, id, k);
    }
    hide Stands, Shape, Linked, Chain, NodeIs, Evictable, LruSets, CanLink;
    forall i | i in d
      ensures 0 <= i < |m| && NodeIs(m[i], d[i], plays)
      ensures Chain(m, d[i].kids)
      ensures d[i].parent == -1 ==> m[i].nextSibling == -1 && m[i].prevSibling == -1
      ensures i !in stale + {p, id} ==> (m[i].inLru <==> Evictable(d, i))
    {
      LinkedAt(n, lru, c, plays, stale, p, id, k, i);
    }
    StandsFrom(m, lru, d, plays, stale + {p, id});
  }

  lemma LinkedLru(n: seq<Node>, m: seq<Node>, lru: seq<set<(real, int)>>, c: Tree, plays: seq<Play>, p: int, id: int,
                  k: Seg)
    requires LruSets(n, lru, c) && CanLink(n, c, plays, p, id, k) && k.tier < |lru|
    requires (n[p].firstChild == -1 || 0 <= n[p].firstChild < |n|) && m == Linked(n, p, id)
    ensures LruSets(m, lru, LinkFront(c, p, id, k))
  {
    var d := LinkFront(c, p, id, k);
    forall i | 0 <= i < |n|
      ensures m[i].inLru == n[i].inLru
    {
      LinkedFrame(n, c, plays, p, id, k, i);
    }
    LruSetsNodes(n, m, lru, c);
    hide Linked;
    forall t, x {:trigger x in lru[t]} | 0 <= t < |lru|
      ensures x in lru[t] <==> InLru(m, d, t, x)
    {
      assert x in lru[t] <==> InLru(m, c, t, x);
    }
  }

  // ---- splitting ----

  /** The arena after `split`: node up takes over id's place among its siblings. */
  function SplitNodes(n: seq<Node>, id: int, up: int, off: nat): (m: seq<Node>)
    requires 0 <= id < |n| && 0 <= up < |n| && off <= n[id].nblocks
    requires n[id].prevSibling == -1 || 0 <= n[id].prevSibling < |n|
    requires n[id].nextSibling == -1 || 0 <= n[id].nextSibling < |n|
    requires n[id].parent == -1 || 0 <= n[id].parent < |n|
    ensures |m| == |n|
  {
    var lo := n[id];
    var a := n[up := n[up].(play := lo.play, hashBegin := lo.hashBegin, nblocks := off, tier := lo.tier,
                            lastAccess := lo.lastAccess, parent := lo.parent,
                            prevSibling := lo.prevSibling, nextSibling := lo.nextSibling)];
    var b := if lo.prevSibling != -1 then a[lo.prevSibling := a[lo.prevSibling].(nextSibling := up)]
             else if lo.parent != -1 then a[lo.parent := a[lo.parent].(firstChild := up)]
             else a;
    var d := if lo.nextSibling != -1 then b[lo.nextSibling := b[lo.nextSibling].(prevSibling := up)] else b;
    var e := d[id := d[id].(hashBegin := lo.hashBegin + off, nblocks := lo.nblocks - off, parent := up,
                            prevSibling := -1, nextSibling := -1)];
    e[up := e[up].(firstChild := id)]
  }

  ghost predicate CanSplit(n: seq<Node>, c: Tree, plays: seq<Play>, id: int, up: int, off: nat, j: nat) {
    && id in c && c[id].parent != -1 && SlotOf(c, id, j) && 0 < off < c[id].nblocks && SliceOk(c[id], plays)
    && 0 <= id < |n| && NodeIs(n[id], c[id], plays) && 0 <= c[id].parent < |n| && c[id].parent != id
    && 0 <= up < |n| && up !in c && n[up] == BLANK
    && (var s := c[c[id].parent].kids;
        n[id].prevSibling == At(s, j - 1) && n[id].nextSibling == At(s, j + 1) && id !in c[id].kids &&
        forall x :: x in s ==> x in c && 0 <= x < |n| && x != c[id].parent)
  }

  lemma SplitFrame(n: seq<Node>, c: Tree, plays: seq<Play>, id: int, up: int, off: nat, j: nat, i: int)
    requires CanSplit(n, c, plays, id, up, off, j) && 0 <= i < |n|
    ensures n[id].prevSibling == -1 || 0 <= n[id].prevSibling < |n|
    ensures n[id].nextSibling == -1 || 0 <= n[id].nextSibling < |n|
    ensures var x := SplitNodes(n, id, up, off)[i]; (
      (i != id && i != up ==>
        x == n[i].(firstChild := x.firstChild, nextSibling := x.nextSibling, prevSibling := x.prevSibling) &&
        (i != c[id].parent ==> x.firstChild == n[i].firstChild) &&
        (i !in c[c[id].parent].kids ==> x.nextSibling == n[i].nextSibling && x.prevSibling == n[i].prevSibling)) &&
      (i == id ==> x == n[id].(hashBegin := n[id].hashBegin + off, nblocks := n[id].nblocks - off, parent := up,
                               prevSibling := -1, nextSibling := -1)) &&
      (i == up ==> x == BLANK.(play := n[id].play, hashBegin := n[id].hashBegin, nblocks := off, tier := n[id].tier,
                               lastAccess := n[id].lastAccess, parent := n[id].parent, firstChild := id,
                               prevSibling := n[id].prevSibling, nextSibling := n[id].nextSibling)))
  {
    var s := c[c[id].parent].kids;
    assert s[j] in s;
    if j > 0 { assert s[j - 1] in s; }
    if j + 1 < |s| { assert s[j + 1] in s; }
  }

  /** The sibling links after `split`. */
  lemma SplitLinks(n: seq<Node>, id: int, up: int, off: nat, i: int)
    requires 0 <= id < |n| && 0 <= up < |n| && off <= n[id].nblocks && 0 <= i < |n| && id != up
    requires n[id].prevSibling == -1 || 0 <= n[id].prevSibling < |n|
    requires n[id].nextSibling == -1 || 0 <= n[id].nextSibling < |n|
    requires n[id].parent == -1 || 0 <= n[id].parent < |n|
    requires n[id].prevSibling != id && n[id].prevSibling != up && n[id].nextSibling != id && n[id].nextSibling != up
    requires n[id].parent != id && n[id].parent != up
    ensures var x := SplitNodes(n, id, up, off)[i]; (
      x.nextSibling == (if i == up then n[id].nextSibling else if i == id then -1
                        else if i == n[id].prevSibling then up else n[i].nextSibling) &&
      x.prevSibling == (if i == up then n[id].prevSibling else if i == id then -1
                        else if i == n[id].nextSibling then up else n[i].prevSibling) &&
      (i == n[id].parent ==> x.firstChild == if n[id].prevSibling == -1 then up else n[i].firstChild))
  {
  }

  lemma SplitChain(n: seq<Node>, c: Tree, plays: seq<Play>, id: int, up: int, off: nat, j: nat)
    requires CanSplit(n, c, plays, id, up, off, j)
    requires var s := c[c[id].parent].kids;
      Chain(n, s) && NoDup(s) && n[c[id].parent].firstChild == At(s, 0)
    ensures n[id].prevSibling == -1 || 0 <= n[id].prevSibling < |n|
    ensures n[id].nextSibling == -1 || 0 <= n[id].nextSibling < |n|
    ensures var (m, r) := (SplitNodes(n, id, up, off), Renamed(c[c[id].parent].kids, id, up)); (
      Chain(m, r) && m[c[id].parent].firstChild == At(r, 0))
  {
    hide SplitNodes;
    var p := c[id].parent;
    var s := c[p].kids;
    if j > 0 { assert s[j - 1] in s; }
    if j + 1 < |s| { assert s[j + 1] in s; }
    var m, r := SplitNodes(n, id, up, off), Renamed(s, id, up);
    forall k | 0 <= k < |r|
      ensures 0 <= r[k] < |m| && m[r[k]].nextSibling == At(r, k + 1) && m[r[k]].prevSibling == At(r, k - 1)
    {
      assert s[k] in s && n[s[k]].nextSibling == At(s, k + 1);
      SplitLinks(n, id, up, off, r[k]);
    }
    SplitLinks(n, id, up, off, p);
  }

  lemma SplitAt(n: seq<Node>, lru: seq<set<(real, int)>>, c: Tree, plays: seq<Play>,
                id: int, up: int, off: nat, j: nat, i: int)
    requires Shape(c) && Stands(n, lru, c, plays, {}) && CanSplit(n, c, plays, id, up, off, j)
    requires i in Split(c, id, up, off)
    ensures n[id].prevSibling == -1 || 0 <= n[id].prevSibling < |n|
    ensures n[id].nextSibling == -1 || 0 <= n[id].nextSibling < |n|
    ensures var (m, d) := (SplitNodes(n, id, up, off), Split(c, id, up, off)); (
      0 <= i < |m| && NodeIs(m[i], d[i], plays) && Chain(m, d[i].kids) &&
      (d[i].parent == -1 ==> m[i].nextSibling == -1 && m[i].prevSibling == -1))
  {
    hide Stands, Shape, SplitNodes, Chain;
    if i != up {
      RepAt(n, lru, c, plays, {}, i);
      ChainAt(n, lru, c, plays, {}, i);
      KidsLive(c, i);
      KidsNoDup(c, i);
    }
    var p := c[id].parent;
    KidsLive(c, p);
    SplitFrame(n, c, plays, id, up, off, j, i);
    var m, d := SplitNodes(n, id, up, off), Split(c, id, up, off);
    if i == up {
      SplitFrame(n, c, plays, id, up, off, j, id);
      ChainOne(m, id);
    } else if i == p {
      SplitChain(n, c, plays, id, up, off, j);
    } else {
      forall x | x in c[i].kids && 0 <= x < |n|
        ensures m[x].nextSibling == n[x].nextSibling && m[x].prevSibling == n[x].prevSibling
      {
        SplitFrame(n, c, plays, id, up, off, j, x);
      }
      ChainSame(n, m, c[i].kids);
    }
  }

  lemma ChainOne(n: seq<Node>, x: int)
    requires 0 <= x < |n| && n[x].nextSibling == -1 && n[x].prevSibling == -1
    ensures Chain(n, [x])
  {
  }

  lemma SplitFlag(n: seq<Node>, lru: seq<set<(real, int)>>, c: Tree, plays: seq<Play>,
                  id: int, up: int, off: nat, j: nat, i: int)
    requires Shape(c) && Stands(n, lru, c, plays, {}) && CanSplit(n, c, plays, id, up, off, j)
    requires i in Split(c, id, up, off)
    ensures n[id].prevSibling == -1 || 0 <= n[id].prevSibling < |n|
    ensures n[id].nextSibling == -1 || 0 <= n[id].nextSibling < |n|
    ensures 0 <= i < |n| && (SplitNodes(n, id, up, off)[i].inLru <==> Evictable(Split(c, id, up, off), i))
  {
    hide Stands, Shape, SplitNodes, Chain;
    if i != up {
      RepAt(n, lru, c, plays, {}, i);
      KidsLive(c, i);
    }
    KidsNoDup(c, c[id].parent);
    RenamedNoDup(c[c[id].parent].kids, id, up);
    SplitFrame(n, c, plays, id, up, off, j, i);
    var d := Split(c, id, up, off);
    if i == c[id].parent {
      assert c[i].kids[j] in c[i].kids;
      SplitParentEvictable(c, id, up, off);
    } else if i == up {
      assert id in d[up].kids && d[id].tier == d[up].tier;
    } else {
      assert Evictable(d, i) <==> Evictable(c, i);
    }
  }

  lemma SplitReady(n: seq<Node>, lru: seq<set<(real, int)>>, c: Tree, plays: seq<Play>, id: int, up: int, off: nat,
                   j: nat)
    requires Inv(c, plays) && Stands(n, lru, c, plays, {}) && id in c && c[id].parent != -1 && SlotOf(c, id, j)
    requires 0 < off < c[id].nblocks && up !in c && 0 <= up < |n| && n[up] == BLANK
    requires var s := c[c[id].parent].kids;
      0 <= id < |n| && n[id].prevSibling == At(s, j - 1) && n[id].nextSibling == At(s, j + 1)
    ensures CanSplit(n, c, plays, id, up, off, j)
  {
  }

  lemma RootsSplit(roots: map<nat, int>, c: Tree, id: int, up: int, off: nat)
    requires Roots(roots, c) && id in c && 0 < off < c[id].nblocks && up !in c && up >= 0
    requires c[id].parent in c && id in c[c[id].parent].kids && c[id].parent != -1
    ensures Roots(roots, Split(c, id, up, off))
  {
    var d := Split(c, id, up, off);
    forall i | IsRoot(d, i)
      ensures d[i].play in roots && roots[d[i].play] == i
    {
      assert IsRoot(c, i);
    }
  }

  lemma SplitStands(n: seq<Node>, lru: seq<set<(real, int)>>, c: Tree, plays: seq<Play>,
                    id: int, up: int, off: nat, j: nat)
    requires Shape(c) && Stands(n, lru, c, plays, {}) && CanSplit(n, c, plays, id, up, off, j)
    ensures n[id].prevSibling == -1 || 0 <= n[id].prevSibling < |n|
    ensures n[id].nextSibling == -1 || 0 <= n[id].nextSibling < |n|
    ensures Stands(SplitNodes(n, id, up, off), lru, Split(c, id, up, off), plays, {})
  {
    assert (n[id].prevSibling == -1 || 0 <= n[id].prevSibling < |n|) &&
      (n[id].nextSibling == -1 || 0 <= n[id].nextSibling < |n|) by {
      SplitFrame(n, c, plays, id, up, off, j, id);
    }
    var m, d := SplitNodes(n, id, up, off), Split(c, id, up, off);
    SplitLru(n, m, lru, c, plays, id, up, off, j);
    hide Stands, Shape, SplitNodes, Chain, NodeIs, Evictable, LruSets, CanSplit;
    forall i | i in d
      ensures 0 <= i < |m| && NodeIs(m[i], d[i], plays)
      ensures Chain(m, d[i].kids)
      ensures d[i].parent == -1 ==> m[i].nextSibling == -1 && m[i].prevSibling == -1
      ensures m[i].inLru <==> Evictable(d, i)
    {
      SplitAt(n, lru, c, plays, id, up, off, j, i);
      SplitFlag(n, lru, c, plays, id, up, off, j, i);
    }
    StandsFrom(m, lru, d, plays, {});
  }

  lemma SplitLru(n: seq<Node>, m: seq<Node>, lru: seq<set<(real, int)>>, c: Tree, plays: seq<Play>,
                 id: int, up: int, off: nat, j: nat)
    requires LruSets(n, lru, c) && CanSplit(n, c, plays, id, up, off, j)
    requires (n[id].prevSibling == -1 || 0 <= n[id].prevSibling < |n|) &&
      (n[id].nextSibling == -1 || 0 <= n[id].nextSibling < |n|)
    requires m == SplitNodes(n, id, up, off)
    ensures LruSets(m, lru, Split(c, id, up, off))
  {
    var d := Split(c, id, up, off);
    forall i | 0 <= i < |n|
      ensures m[i].inLru == n[i].inLru
    {
      SplitFrame(n, c, plays, id, up, off, j, i);
    }
    LruSetsNodes(n, m, lru, c);
    hide SplitNodes;
    forall t, x {:trigger x in lru[t]} | 0 <= t < |lru|
      ensures x in lru[t] <==> InLru(m, d, t, x)
    {
      assert x in lru[t] <==> InLru(m, c, t, x);
    }
  }

  lemma RootStands(n: seq<Node>, lru: seq<set<(real, int)>>, c: Tree, plays: seq<Play>, id: int, play: nat, now: real)
    requires Shape(c) && Stands(n, lru, c, plays, {}) && id !in c && 0 <= id < |n| && n[id] == BLANK && |lru| > 0
    ensures Stands(n[id := BLANK.(play := play, pins := 1, lastAccess := now)], lru, c[id := NewRoot(play, now)],
      plays, {})
  {
    var m := n[id := BLANK.(play := play, pins := 1, lastAccess := now)];
    var d := c[id := NewRoot(play, now)];
    StandsAgree(n, m, lru, c, plays, {});
    assert LruSets(m, lru, d) by {
      hide Rep, Links, Flags, Shape;
      forall t, x {:trigger x in lru[t]} | 0 <= t < |lru|
        ensures x in lru[t] <==> InLru(m, d, t, x)
      {
        assert x in lru[t] <==> InLru(m, c, t, x);
      }
    }
    hide Stands, Shape, Chain, NodeIs, LruSets;
    forall i | i in d
      ensures 0 <= i < |m| && NodeIs(m[i], d[i], plays)
      ensures Chain(m, d[i].kids)
      ensures d[i].parent == -1 ==> m[i].nextSibling == -1 && m[i].prevSibling == -1
      ensures m[i].inLru <==> Evictable(d, i)
    {
      if i == id {
        ChainNil(m);
        assert NodeIs(m[i], d[i], plays) by { BlankRoot(play, now, plays); }
      } else {
        RepAt(m, lru, c, plays, {}, i);
        ChainAt(m, lru, c, plays, {}, i);
        KidsLive(c, i);
        assert Evictable(d, i) <==> Evictable(c, i);
      }
    }
    StandsFrom(m, lru, d, plays, {});
  }

  lemma BlankRoot(play: nat, now: real, plays: seq<Play>)
    ensures NodeIs(BLANK.(play := play, pins := 1, lastAccess := now), NewRoot(play, now), plays)
  {
  }

  lemma PinnedSelf(c: Tree, id: int)
    requires Shape(c) && id in c && c[id].pins > 0
    ensures PinnedBelow(c, id)
  {
  }

  lemma PinnedUp(c: Tree, id: int, k: int)
    requires Shape(c) && id in c && k in c[id].kids
    ensures k in c && Desc(c, k) < Desc(c, id) && (PinnedBelow(c, k) ==> PinnedBelow(c, id))
  {
    DescSplit(c, id);
    hide Shape, Anc, Desc;
  }

  /** Nothing pinned at id or below any child: nothing pinned in the subtree. */
  lemma NoneBelow(c: Tree, id: int)
    requires Shape(c) && id in c && c[id].pins <= 0
    requires forall q :: 0 <= q < |c[id].kids| ==> !PinnedBelow(c, c[id].kids[q])
    ensures !PinnedBelow(c, id)
  {
    DescSplit(c, id);
    hide Shape, Anc;
    forall j | j in Desc(c, id)
      ensures c[j].pins <= 0
    {
      if j != id {
        var k :| k in c[id].kids && k in c && j in Desc(c, k);
        var q :| 0 <= q < |c[id].kids| && c[id].kids[q] == k;
        assert !PinnedBelow(c, c[id].kids[q]);
      }
    }
  }

  class Cache {
    var nodes: seq<Node>
    var freeNodes: seq<int>
    var roots: map<nat, int>
    var used: seq<int>
    var lru: seq<set<(real, int)>>
    const cap: seq<nat>
    const plays: seq<Play>
    const residencyLimit: real
    ghost var tree: Tree

    ghost predicate Partial(filling: set<int>, stale: set<int>)
      reads this
    {
      && |used| == |lru| == |cap| && |cap| > 0
      && Inv(tree, plays)
      && Stands(nodes, lru, tree, plays, stale)
      && Slots(nodes, freeNodes, tree, filling)
      && Roots(roots, tree)
      && (forall t :: 0 <= t < |used| ==> used[t] <= cap[t])
    }

    ghost predicate Valid()
      reads this
    {
      Partial({}, {})
    }

    /** Every tier counts as many tokens outside the tree as it did for (used0, c). */
    ghost predicate OffKept(used0: seq<int>, c: Tree)
      reads this
    {
      |used0| == |used| && forall t :: 0 <= t < |used| ==>
        used[t] - TierTok(tree, plays, t) == used0[t] - TierTok(c, plays, t)
    }

    /** Tokens counted in tier t that no live node accounts for. */
    ghost function Off(t: nat): int
      requires t < |used|
      reads this
    {
      used[t] - TierTok(tree, plays, t)
    }

    constructor (cap: seq<nat>, plays: seq<Play>, residencyLimit: real)
      requires |cap| > 0
      ensures Valid() && tree == map[] && used == seq(|cap|, _ => 0)
      ensures this.cap == cap && this.plays == plays && this.residencyLimit == residencyLimit
    {
      nodes, freeNodes, roots := [], [], map[];
      used := seq(|cap|, _ => 0);
      lru := seq(|cap|, _ => {});
      this.cap, this.plays, this.residencyLimit := cap, plays, residencyLimit;
      tree := map[];
    }

    method NewNode() returns (id: int)
      requires Valid()
      modifies this`nodes, this`freeNodes
      ensures Partial({id}, {}) && id !in tree && 0 <= id < |nodes| && nodes[id] == BLANK
      ensures if old(freeNodes) == [] then id == |old(nodes)| && |nodes| == id + 1
        else |nodes| == |old(nodes)| && freeNodes + [id] == old(freeNodes)
    {
      hide Tiers, Pinning, Slices, Stands, Roots, TierTok;
      ghost var was := nodes;
      if freeNodes != [] {
        SlotsPop(nodes, freeNodes, tree);
        id := freeNodes[|freeNodes| - 1];
        freeNodes := freeNodes[..|freeNodes| - 1];
        nodes := nodes[id := BLANK];
      } else {
        nodes := nodes + [BLANK];
        id := |nodes| - 1;
      }
      StandsAgree(was, nodes, lru, tree, plays, {});
    }

    method LruErase(id: int)
      requires 0 <= id < |nodes| && nodes[id].tier < |lru|
      modifies this`nodes, this`lru
      ensures nodes == WithFlag(old(nodes), id, false) && lru == WithoutEntry(old(nodes), old(lru), id)
    {
      if !nodes[id].inLru { return; }
      var n := nodes[id];
      lru := lru[n.tier := lru[n.tier] - {(n.lastAccess, id)}];
      nodes := nodes[id := n.(inLru := false)];
    }

    method LruInsert(id: int)
      requires 0 <= id < |nodes| && nodes[id].tier < |lru|
      modifies this`nodes, this`lru
      ensures nodes == WithFlag(old(nodes), id, true) && lru == WithEntry(old(nodes), old(lru), id)
    {
      var n := nodes[id];
      lru := lru[n.tier := lru[n.tier] + {(n.lastAccess, id)}];
      nodes := nodes[id := n.(inLru := true)];
    }

    method IsEvictable(id: int, ghost stale: set<int>) returns (ev: bool)
      requires Partial({}, stale) && id in tree
      ensures ev == Evictable(tree, id)
    {
      hide Shape, Tiers, Pinning, Slices, Stands, Slots, Roots;
      RepAt(nodes, lru, tree, plays, stale, id);
      var n := nodes[id];
      if n.pins > 0 || n.parent == -1 { return false; }
      var c := n.firstChild;
      ghost var kids, j := tree[id].kids, 0;
      KidsLive(tree, id);
      while c != -1
        invariant 0 <= j <= |kids| && c == At(kids, j)
        invariant forall k :: 0 <= k < j ==> kids[k] in tree && tree[kids[k]].tier > n.tier
        decreases |kids| - j
      {
        KidAt(nodes, lru, tree, plays, stale, id, j);
        assert kids[j] in kids;
        if nodes[c].tier <= n.tier { return false; }
        c := nodes[c].nextSibling;
        j := j + 1;
      }
      AtEnd(tree, id, j);
      forall k | k in kids
        ensures k in tree && tree[k].tier > n.tier
      {
        var q :| 0 <= q < |kids| && kids[q] == k;
      }
      return true;
    }

    method LruUpdate(id: int, ghost stale: set<int>)
      requires Partial({}, stale) && id in tree && id in stale
      modifies this`nodes, this`lru
      ensures Partial({}, stale - {id}) && 0 <= id < |old(nodes)|
      ensures nodes == WithFlag(old(nodes), id, Evictable(tree, id))
    {
      hide Shape, Tiers, Pinning, Slices, Stands, Slots, Roots, Evictable;
      RepAt(nodes, lru, tree, plays, stale, id);
      var ev := IsEvictable(id, stale);
      var n := nodes[id];
      if n.inLru && !ev {
        EraseStands(nodes, lru, tree, plays, stale, id);
        LruErase(id);
      } else if !n.inLru && ev {
        InsertStands(nodes, lru, tree, plays, stale, id);
        LruInsert(id);
      }
      SlotsSame(old(nodes), nodes, freeNodes, tree, {});
      Settle(nodes, lru, tree, plays, stale, id);
    }

    method Touch(id: int, now: real)
      requires Valid() && id in tree
      modifies this`nodes, this`lru, this`tree
      ensures Valid() && tree == KvTree.Touch(old(tree), id, now)
    {
      hide Shape, Tiers, Pinning, Slices, Stands, Slots, Roots, Anc;
      ghost var t0 := tree;
      ghost var done: set<int> := {};
      var n := id;
      ParentAt(t0, id);
      assert done + TouchSet(t0, id, now) == TouchSet(t0, id, now);
      while n != -1
        invariant Valid() && (n != -1 ==> n in t0 && n !in done)
        invariant tree == Stamp(t0, done, now)
        invariant TouchSet(t0, id, now) == done + (if n == -1 then {} else TouchSet(t0, n, now))
        invariant n != -1 ==> forall i :: i in done ==> i in t0 && Height(t0[n]) < Height(t0[i])
        decreases if n == -1 then 0 else Height(t0[n]) + 1
      {
        RepAt(nodes, lru, tree, plays, {}, n);
        ParentAt(t0, n);
        if nodes[n].lastAccess >= now { break; }
        Restamp(n, now);
        done := done + {n};
        n := nodes[n].parent;
      }
    }

    method Restamp(id: int, now: real)
      requires Valid() && id in tree
      modifies this`nodes, this`lru, this`tree
      ensures Valid() && tree == Stamp(old(tree), {id}, now)
      ensures 0 <= id < |nodes| && nodes[id].parent == tree[id].parent
    {
      hide Shape, Tiers, Pinning, Slices, Stands, Slots, Roots, Evictable;
      RepAt(nodes, lru, tree, plays, {}, id);
      Loosen(nodes, lru, tree, plays, {}, {id});
      var was := nodes[id].inLru;
      EraseStands(nodes, lru, tree, plays, {id}, id);
      if was {
        LruErase(id);
      }
      var m := nodes[id].(lastAccess := now);
      StampOne(tree, id, now);
      ChangeStands(nodes, lru, tree, plays, {id}, id, m, tree[id].(lastAccess := now));
      StampInv(tree, plays, {id}, now);
      RootsSame(roots, tree, Stamp(tree, {id}, now));
      SlotsTree(old(nodes), freeNodes, tree, Stamp(tree, {id}, now), {});
      EvictableStamp(tree, {id}, now, id);
      nodes := nodes[id := m];
      tree := Stamp(tree, {id}, now);
      if was {
        InsertStands(nodes, lru, tree, plays, {id}, id);
        LruInsert(id);
      }
      SlotsSame(old(nodes), nodes, freeNodes, tree, {});
      Settle(nodes, lru, tree, plays, {id}, id);
      assert {id} - {id} == {};
    }

    ghost predicate CanUnlink(id: int)
      reads this
    {
      && 0 <= id < |nodes|
      && (nodes[id].prevSibling == -1 || 0 <= nodes[id].prevSibling < |nodes|)
      && (nodes[id].nextSibling == -1 || 0 <= nodes[id].nextSibling < |nodes|)
      && (nodes[id].parent == -1 || 0 <= nodes[id].parent < |nodes|)
    }

    method Unlink(id: int)
      requires CanUnlink(id)
      modifies this`nodes
      ensures nodes == Unlinked(old(nodes), id)
    {
      var n := nodes[id];
      if n.prevSibling != -1 {
        nodes := nodes[n.prevSibling := nodes[n.prevSibling].(nextSibling := n.nextSibling)];
      } else if n.parent != -1 {
        nodes := nodes[n.parent := nodes[n.parent].(firstChild := n.nextSibling)];
      }
      if n.nextSibling != -1 {
        nodes := nodes[n.nextSibling := nodes[n.nextSibling].(prevSibling := n.prevSibling)];
      }
      nodes := nodes[id := nodes[id].(prevSibling := -1, nextSibling := -1)];
    }

    method SubtreePinned(id: int) returns (pinned: bool)
      requires Valid() && id in tree
      ensures pinned <==> PinnedBelow(tree, id)
      decreases Desc(tree, id)
    {
      hide Tiers, Pinning, Slices, Stands, Slots, Roots, Shape, Anc, PinnedBelow;
      RepAt(nodes, lru, tree, plays, {}, id);
      if nodes[id].pins > 0 {
        PinnedSelf(tree, id);
        return true;
      }
      KidsLive(tree, id);
      var c := nodes[id].firstChild;
      ghost var kids, m := tree[id].kids, 0;
      while c != -1
        invariant 0 <= m <= |kids| && c == At(kids, m)
        invariant forall k :: 0 <= k < m ==> !PinnedBelow(tree, kids[k])
        decreases |kids| - m
      {
        KidAt(nodes, lru, tree, plays, {}, id, m);
        assert kids[m] in kids;
        PinnedUp(tree, id, c);
        var p := SubtreePinned(c);
        if p { return true; }
        c := nodes[c].nextSibling;
        m := m + 1;
      }
      AtEnd(tree, id, m);
      NoneBelow(tree, id);
      return false;
    }

    function NodeTokens(n: Node): nat {
      (if n.play < |plays| then n.nblocks * plays[n.play].blockSize else 0) + n.tail
    }

    /** What holds while the nodes `gone` of tree c have been freed. */
    ghost predicate Freed(c: Tree, gone: set<int>)
      reads this
    {
      |used| == |lru| && LruSets(nodes, lru, c - gone) && Slots(nodes, freeNodes, c - gone, {})
    }

    ghost predicate Intact(c: Tree, id: int)
      requires Shape(c)
      reads this
    {
      SubtreeStands(nodes, c, plays, id)
    }

    /** A segment without children left is freed: its slot, its place in the set, and its tokens. */
    method FreeOne(id: int, ghost rest: Tree)
      requires id in rest && |used| == |lru| && LruSets(nodes, lru, rest) && Slots(nodes, freeNodes, rest, {})
      requires 0 <= id < |nodes| && NodeIs(nodes[id], rest[id], plays)
      modifies this`nodes, this`freeNodes, this`used, this`lru
      ensures Freed(rest, {id}) && |used| == old(|used|) && nodes == WithFlag(old(nodes), id, false)
      ensures forall t :: 0 <= t < |used| ==>
        used[t] - TierTok(rest - {id}, plays, t) == old(used)[t] - TierTok(rest, plays, t)
    {
      hide LruSets, Slots, TierTok;
      EraseGone(nodes, lru, rest, id);
      SlotsFree(nodes, freeNodes, rest, id);
      DropTok(rest, plays, id);
      ghost var was := nodes;
      var n := nodes[id];
      LruErase(id);
      used := used[n.tier := used[n.tier] - NodeTokens(n)];
      freeNodes := freeNodes + [id];
      SlotsSame(was, nodes, freeNodes, rest - {id}, {});
    }

    /** Frees a detached subtree of c bottom-up; `gone` is what was freed before. */
    method FreeSubtree(id: int, ghost c: Tree, ghost gone: set<int>)
      requires Shape(c) && id in c && gone <= c.Keys && Desc(c, id) !! gone
      requires Freed(c, gone) && Intact(c, id)
      modifies this`nodes, this`freeNodes, this`used, this`lru
      ensures Freed(c, gone + Desc(c, id)) && |used| == old(|used|) && SameButFlags(old(nodes), nodes)
      ensures forall i :: 0 <= i < |nodes| && i !in Desc(c, id) ==> nodes[i] == old(nodes)[i]
      ensures forall t :: 0 <= t < |used| ==>
        used[t] - TierTok(c - (gone + Desc(c, id)), plays, t) == old(used)[t] - TierTok(c - gone, plays, t)
      decreases Desc(c, id), 1
    {
      hide Shape, Anc, LruSets, Slots, TierTok, Chain;
      FreeChildren(id, c, gone);
      ghost var done := Below(c, id, |c[id].kids|);
      BelowAll(c, id);
      ghost var rest := c - (gone + done);
      MinusMinus(c, gone + done, {id});
      assert gone + done + {id} == gone + (done + {id});
      FreeOne(id, rest);
    }

    method FreeChildren(id: int, ghost c: Tree, ghost gone: set<int>)
      requires Shape(c) && id in c && gone <= c.Keys && Desc(c, id) !! gone
      requires Freed(c, gone) && Intact(c, id)
      modifies this`nodes, this`freeNodes, this`used, this`lru
      ensures var done := Below(c, id, |c[id].kids|);
        (Freed(c, gone + done) && |used| == old(|used|) && SameButFlags(old(nodes), nodes) &&
        (forall i :: 0 <= i < |nodes| && i !in done ==> nodes[i] == old(nodes)[i]) &&
        (forall t :: 0 <= t < |used| ==>
          used[t] - TierTok(c - (gone + done), plays, t) == old(used)[t] - TierTok(c - gone, plays, t)))
      decreases Desc(c, id), 0
    {
      hide Shape, Anc, LruSets, Slots, TierTok, Chain, BelowOne;
      DescSplit(c, id);
      KidsLive(c, id);
      ghost var kids, m := c[id].kids, 0;
      var ch := nodes[id].firstChild;
      BelowNone(c, id);
      assert c - (gone + Below(c, id, 0)) == c - gone;
      while ch != -1
        invariant 0 <= m <= |kids| && ch == At(kids, m)
        invariant Freed(c, gone + Below(c, id, m)) && |used| == old(|used|) && SameButFlags(old(nodes), nodes)
        invariant forall i :: 0 <= i < |nodes| && i !in Below(c, id, m) ==> nodes[i] == old(nodes)[i]
        invariant forall t :: 0 <= t < |used| ==>
          used[t] - TierTok(c - (gone + Below(c, id, m)), plays, t) == old(used)[t] - TierTok(c - gone, plays, t)
        decreases |kids| - m
      {
        assert kids[m] in kids;
        ghost var done := Below(c, id, m);
        BelowStep(c, id, m);
        assert id in Desc(c, id) && Chain(old(nodes), kids);
        ChainNext(old(nodes), kids, m);
        var nx := nodes[ch].nextSibling;
        IntactBelow(old(nodes), nodes, c, plays, id, ch);
        assert gone + done + Desc(c, ch) == gone + (done + Desc(c, ch));
        FreeSubtree(ch, c, gone + done);
        ch := nx;
        m := m + 1;
      }
      AtEnd(c, id, m);
    }

    method RemoveSubtree(id: int)
      requires Valid() && id in tree && tree[id].parent != -1
      modifies this`nodes, this`freeNodes, this`used, this`lru, this`tree
      ensures Valid() && tree == Remove(old(tree), id)
      ensures |used| == old(|used|)
      ensures forall t :: 0 <= t < |used| ==>
        used[t] - TierTok(tree, plays, t) == old(used[t] - TierTok(tree, plays, t))
    {
      hide Shape, Tiers, Pinning, Slices, Stands, Slots, Roots, Anc, TierTok, Unlinked, LruSets;
      RepAt(nodes, lru, tree, plays, {}, id);
      ParentAt(tree, id);
      ParentOutside(tree, id);
      ghost var j := SlotAt(nodes, lru, tree, plays, {}, id);
      var parent := nodes[id].parent;
      Unlink(id);
      UnlinkedSubtree(old(nodes), nodes, lru, tree, plays, id, j);
      SlotsSame(old(nodes), nodes, freeNodes, tree, {});
      assert tree - {} == tree;
      FreeSubtree(id, tree, {});
      ghost var gone := Desc(tree, id);
      assert {} + gone == gone;
      PrunedStands(old(nodes), nodes, old(lru), lru, tree, plays, id, j);
      SlotsTree(nodes, freeNodes, tree - gone, Remove(tree, id), {});
      RootsRemove(roots, tree, id);
      RemoveInv(tree, plays, id);
      RemoveTok(tree, plays, id);
      tree := Remove(tree, id);
      if parent != -1 {
        LruUpdate(parent, {parent});
        assert {parent} - {parent} == {};
      }
    }

    // ---- eviction ----

    /** Makes room for `need` tokens in tier `tier`, least recently used segments first. */
    method EnsureFree(tier: nat, need: int) returns (ok: bool)
      requires Valid() && tier < |cap|
      modifies this`nodes, this`freeNodes, this`used, this`lru, this`tree
      ensures Valid() && Sheds(old(tree), tree, tier) && OffKept(old(used), old(tree))
      ensures ok <==> CanFree(old(tree), plays, tier, old(Off(tier)), need, cap[tier])
      ensures ok <==> used[tier] + need <= cap[tier]
      ensures old(used[tier]) + need <= cap[tier] ==> ok && tree == old(tree) && used == old(used)
      ensures OldestFirst(old(tree), tree, tier)
      decreases |cap| - tier, 1
    {
      hide Shape, Tiers, Pinning, Slices, Stands, Slots, Roots, TierTok, Locked, Kept;
      ghost var c0 := tree;
      ShedsRefl(tree, tier);
      while used[tier] + need > cap[tier]
        invariant Valid() && Sheds(c0, tree, tier) && OffKept(old(used), c0)
        invariant old(used[tier]) + need <= cap[tier] ==> tree == c0 && used == old(used)
        invariant OldestFirst(c0, tree, tier)
        decreases AtTier(tree, tier)
      {
        if lru[tier] == {} {
          NoLruNoEvictable(nodes, lru, tree, plays, tier);
          StuckMeansCannotFree(tree, plays, tier, Off(tier), need, cap[tier]);
          ShedsLocked(c0, tree, plays, tier);
          return false;
        }
        LeastExists(lru[tier]);
        var victim :| victim in lru[tier] && forall x :: x in lru[tier] ==> KeyLe(victim, x);
        LruIsEvictable(nodes, lru, tree, plays, tier, victim);
        ghost var c1 := tree;
        AllLruEvictable(nodes, lru, tree, plays, tier);
        Evict(victim.1);
        ShedsTrans(c0, c1, tree, tier, tier);
        OldestStep(c0, c1, tree, tier, victim);
        TierShrinks(c1, tree, tier, victim.1);
      }
      FreeMeansCanFree(tree, plays, tier, Off(tier), need, cap[tier]);
      ShedsLocked(c0, tree, plays, tier);
      return true;
    }

    /** The next tier exists and can make room for the segment. */
    ghost predicate CanDemote(c: Tree, id: int, used: seq<int>)
      requires Shape(c) && id in c && |used| == |cap|
    {
      var t := c[id].tier + 1;
      t < |cap| && CanFree(c, plays, t, used[t] - TierTok(c, plays, t), Tok(c[id], plays), cap[t])
    }

    /** Moves an evictable segment one tier down, or frees it with everything below it. */
    method Evict(id: int)
      requires Valid() && id in tree && Evictable(tree, id)
      modifies this`nodes, this`freeNodes, this`used, this`lru, this`tree
      ensures Valid() && Sheds(old(tree), tree, old(tree[id].tier)) && OffKept(old(used), old(tree))
      ensures id in tree <==> CanDemote(old(tree), id, old(used))
      ensures id in tree ==> tree[id].tier == old(tree[id].tier) + 1
      ensures forall i :: i in old(tree) && i != id && old(tree)[i].tier == old(tree[id].tier) ==>
        i in tree && tree[i].tier == old(tree[id].tier)
      decreases |cap| - tree[id].tier, 0
    {
      hide Shape, Tiers, Pinning, Slices, Stands, Slots, Roots, TierTok, Locked, Sheds, Evictable, OldestFirst, CanFree,
           SetTier, Remove;
      ghost var c0 := tree;
      RepAt(nodes, lru, tree, plays, {}, id);
      EvictableKids(tree, id);
      var tier := nodes[id].tier;
      var tok := NodeTokens(nodes[id]);
      var demote := false;
      if tier + 1 < |cap| {
        demote := EnsureFree(tier + 1, tok);
        ShedsKeepsSeg(c0, tree, tier + 1, tier, id);
        ShedsEvictable(c0, tree, tier + 1, id);
        TokKids(c0[id], tree[id].kids, plays);
      } else {
        ShedsRefl(c0, tier);
      }
      ghost var c1 := tree;
      if demote {
        Demote(id);
        DemoteSheds(c1, id);
      } else {
        RemoveSheds(c1, plays, id);
        RemoveSubtree(id);
      }
      ShedsTrans(c0, c1, tree, tier, tier);
    }

    /** The successful half of `evict`: the segment's tokens move to the next tier. */
    method Demote(id: int)
      requires Valid() && id in tree && Evictable(tree, id) && tree[id].tier + 1 < |cap|
      requires used[tree[id].tier + 1] + Tok(tree[id], plays) <= cap[tree[id].tier + 1]
      modifies this`nodes, this`used, this`lru, this`tree
      ensures Valid() && tree == SetTier(old(tree), id, old(tree[id].tier) + 1) && OffKept(old(used), old(tree))
    {
      hide Shape, Tiers, Pinning, Slices, Stands, Slots, Roots, TierTok, Evictable;
      RepAt(nodes, lru, tree, plays, {}, id);
      EvictableKids(tree, id);
      ParentAt(tree, id);
      var tier, parent, tok := nodes[id].tier, nodes[id].parent, NodeTokens(nodes[id]);
      Loosen(nodes, lru, tree, plays, {}, {id, parent});
      EraseStands(nodes, lru, tree, plays, {id, parent}, id);
      LruErase(id);
      used := used[tier := used[tier] - tok];
      used := used[tier + 1 := used[tier + 1] + tok];
      var m := nodes[id].(tier := tier + 1);
      ghost var k := tree[id].(tier := tier + 1);
      ChangeStands(nodes, lru, tree, plays, {id, parent}, id, m, k);
      SetTierInv(tree, plays, id, tier + 1);
      RootsSame(roots, tree, SetTier(tree, id, tier + 1));
      SlotsTree(old(nodes), freeNodes, tree, SetTier(tree, id, tier + 1), {});
      forall t: nat ensures TierTok(SetTier(tree, id, tier + 1), plays, t) == TierTok(tree, plays, t)
        + (if t == tier + 1 then tok else 0) - (if t == tier then tok else 0) {
        SetTierTok(tree, plays, id, tier + 1, t);
      }
      nodes := nodes[id := m];
      tree := SetTier(tree, id, tier + 1);
      SlotsSame(old(nodes), nodes, freeNodes, tree, {});
      LruUpdate(id, {id, parent});
      assert {id, parent} - {id} == {parent};
      LruUpdate(parent, {parent});
      assert {parent} - {parent} == {};
    }

    // ---- pins ----

    /** `nodes_[id].pins += d` followed by `lru_update(id)`. */
    method AddPin(id: int, d: int)
      requires Valid() && id in tree && CanPin(tree, id, d)
      modifies this`nodes, this`lru, this`tree
      ensures Valid() && tree == AddPins(old(tree), id, d) && OffKept(used, old(tree))
    {
      hide Shape, Tiers, Pinning, Slices, Stands, Slots, Roots, TierTok, Evictable;
      RepAt(nodes, lru, tree, plays, {}, id);
      AddPinsSteps(tree, plays, id, d);
      var m := nodes[id].(pins := nodes[id].pins + d);
      Loosen(nodes, lru, tree, plays, {}, {id});
      ChangeStands(nodes, lru, tree, plays, {id}, id, m, tree[id].(pins := m.pins));
      RootsSame(roots, tree, AddPins(tree, id, d));
      SlotsTree(nodes, freeNodes, tree, AddPins(tree, id, d), {});
      nodes := nodes[id := m];
      tree := AddPins(tree, id, d);
      SlotsSame(old(nodes), nodes, freeNodes, tree, {});
      LruUpdate(id, {id});
      assert {id} - {id} == {};
    }

    method Unpin(id: int)
      requires Valid() && (id != -1 ==> id in tree && CanPin(tree, id, -1))
      modifies this`nodes, this`lru, this`tree
      ensures Valid() && tree == (if id == -1 then old(tree) else AddPins(old(tree), id, -1)) &&
        OffKept(used, old(tree))
    {
      if id == -1 { return; }
      AddPin(id, -1);
    }

    /** Frees a pinned leaf whose tokens its owner has already given back: no tier counter changes. */
    method DropNodeUnaccounted(id: int)
      requires Valid() && id in tree && tree[id].parent != -1 && tree[id].kids == [] && tree[id].pins > 0
      modifies this`nodes, this`freeNodes, this`lru, this`tree
      ensures Valid() && tree == Remove(old(tree), id) && Desc(old(tree), id) == {id}
      ensures forall t: nat ::
        TierTok(tree, plays, t) ==
        TierTok(old(tree), plays, t) - (if t == old(tree[id].tier) then Tok(old(tree[id]), plays) else 0)
    {
      hide Shape, Tiers, Pinning, Slices, Stands, Slots, Roots, Anc, TierTok, Unlinked, LruSets;
      RepAt(nodes, lru, tree, plays, {}, id);
      ParentAt(tree, id);
      ParentOutside(tree, id);
      LeafDesc(tree, id);
      ghost var j := SlotAt(nodes, lru, tree, plays, {}, id);
      var parent := nodes[id].parent;
      LruErase(id);
      assert nodes == old(nodes) && lru == old(lru);
      Unlink(id);
      UnlinkedSubtree(old(nodes), nodes, lru, tree, plays, id, j);
      EraseGone(nodes, lru, tree, id);
      assert WithFlag(nodes, id, false) == nodes;
      SlotsSame(old(nodes), nodes, freeNodes, tree, {});
      SlotsFree(nodes, freeNodes, tree, id);
      freeNodes := freeNodes + [id];
      PrunedStands(old(nodes), nodes, old(lru), lru, tree, plays, id, j);
      SlotsTree(nodes, freeNodes, tree - {id}, Remove(tree, id), {});
      RootsRemove(roots, tree, id);
      RemoveInv(tree, plays, id);
      RemoveTok(tree, plays, id);
      DropTok(tree, plays, id);
      tree := Remove(tree, id);
      if parent != -1 {
        LruUpdate(parent, {parent});
        assert {parent} - {parent} == {};
      }
    }

    // ---- growing the tree ----

    method RootOf(play: nat, create: bool, now: real) returns (id: int)
      requires Valid() && play < |plays|
      modifies this`nodes, this`freeNodes, this`roots, this`tree
      ensures Valid() && OffKept(used, old(tree))
      ensures old(play in roots) ==> roots == old(roots) && id == roots[play] && tree == old(tree)
      ensures old(play !in roots) && !create ==> id == -1 && tree == old(tree) && roots == old(roots)
      ensures old(play !in roots) && create ==>
        id !in old(tree) && tree == old(tree)[id := NewRoot(play, now)] && roots == old(roots)[play := id]
      ensures old(play !in roots) && create ==> tree[id].lastAccess == now
    {
      hide Shape, Tiers, Pinning, Slices, Stands, Slots, Roots, TierTok;
      if play in roots { return roots[play]; }
      if !create { return -1; }
      id := NewNode();
      ghost var c := tree;
      RootStands(nodes, lru, tree, plays, id, play, now);
      AddRootInv(tree, plays, id, play, now);
      SlotsFill(nodes, freeNodes, tree, id, NewRoot(play, now));
      RootsAdd(roots, tree, id, play, now);
      ghost var n1 := nodes;
      var n := nodes[id];
      nodes := nodes[id := n.(play := play, pins := 1, lastAccess := now)];
      tree := tree[id := NewRoot(play, now)];
      roots := roots[play := id];
      SlotsSame(n1, nodes, freeNodes, tree, {});
    }

    method LinkChild(parent: int, child: int, ghost k: Seg)
      requires Partial({child}, {}) && CanLink(nodes, tree, plays, parent, child, k) && k.tier < |cap|
      requires Inv(LinkFront(tree, parent, child, k), plays)
      modifies this`nodes, this`lru, this`tree
      ensures Partial({}, {child}) && tree == LinkFront(old(tree), parent, child, k)
      ensures forall t: nat ::
        TierTok(tree, plays, t) == TierTok(old(tree), plays, t) + (if t == k.tier then Tok(k, plays) else 0)
      ensures 0 <= child < |nodes| && nodes[child].inLru == old(nodes[child].inLru)
    {
      hide Shape, Tiers, Pinning, Slices, Stands, Slots, Roots, TierTok, Linked;
      LinkedStands(nodes, lru, tree, plays, {}, parent, child, k);
      LinkedFrame(nodes, tree, plays, parent, child, k, child);
      forall t: nat ensures TierTok(LinkFront(tree, parent, child, k), plays, t) ==
        TierTok(tree, plays, t) + (if t == k.tier then Tok(k, plays) else 0) {
        LinkFrontTok(tree, plays, parent, child, k, t);
      }
      ghost var n0 := nodes;
      LinkFields(parent, child);
      SlotsSame(n0, nodes, freeNodes, tree, {child});
      SlotsFill(nodes, freeNodes, tree, child, k);
      SlotsTree(nodes, freeNodes, tree[child := k], LinkFront(tree, parent, child, k), {});
      RootsLink(roots, tree, parent, child, k);
      tree := LinkFront(tree, parent, child, k);
      assert {} + {parent, child} == {parent, child};
      LruUpdate(parent, {parent, child});
      assert {parent, child} - {parent} == {child};
    }

    method LinkFields(parent: int, child: int)
      requires 0 <= parent < |nodes| && 0 <= child < |nodes|
      requires nodes[parent].firstChild == -1 || 0 <= nodes[parent].firstChild < |nodes|
      modifies this`nodes
      ensures nodes == Linked(old(nodes), parent, child)
    {
      var first := nodes[parent].firstChild;
      nodes := nodes[child := nodes[child].(parent := parent, prevSibling := -1, nextSibling := first)];
      if first != -1 {
        nodes := nodes[first := nodes[first].(prevSibling := child)];
      }
      nodes := nodes[parent := nodes[parent].(firstChild := child)];
    }

    method SetTail(id: int, tail: nat, ghost filling: set<int>)
      requires Partial(filling, {}) && id in tree && tree[id].parent != -1 && id !in filling
      modifies this`nodes, this`tree
      ensures Partial(filling, {}) && tree == KvTree.SetTail(old(tree), id, tail)
      ensures 0 <= id < |old(nodes)| && nodes == old(nodes)[id := old(nodes)[id].(tail := tail)]
    {
      hide Shape, Tiers, Pinning, Slices, Stands, Slots, Roots, TierTok, Evictable;
      RepAt(nodes, lru, tree, plays, {}, id);
      Loosen(nodes, lru, tree, plays, {}, {id});
      ghost var k := tree[id].(tail := tail);
      var m := nodes[id].(tail := tail);
      ChangeStands(nodes, lru, tree, plays, {id}, id, m, k);
      SetTailInv(tree, plays, id, tail);
      SlotsTree(nodes, freeNodes, tree, tree[id := k], filling);
      RootsTail(roots, tree, id, tail);
      SetTailEvictable(tree, id, tail);
      nodes := nodes[id := m];
      tree := tree[id := k];
      SlotsSame(old(nodes), nodes, freeNodes, tree, filling);
      Settle(nodes, lru, tree, plays, {id}, id);
      assert {id} - {id} == {};
    }

    /** Hangs `nblocks` blocks of request `src` under a pinned device-tier segment. */
    method InsertChild(parent: int, hb: nat, nblocks: nat, ghost src: nat, now: real) returns (id: int, ghost t: int)
      requires Valid() && parent in tree && tree[parent].pins > 0 && tree[parent].tier == 0
      requires tree[parent].parent != -1 ==> tree[parent].nblocks > 0
      requires nblocks > 0 && SliceOk(BlockSeg(tree[parent], parent, src, nblocks, now), plays)
      requires hb == HashBegin(BlockSeg(tree[parent], parent, src, nblocks, now), plays)
      modifies this`nodes, this`freeNodes, this`lru, this`tree
      ensures Valid() && id !in old(tree) && t !in old(tree) && t != id
      ensures tree == Insert(old(tree), parent, t, id, src, nblocks, now)
      ensures tree[id].lastAccess == now
      ensures t in tree ==> tree[t].lastAccess == old(tree[parent].lastAccess) && tree[t].tail == old(tree[parent].tail)
      ensures forall k: nat ::
        TierTok(tree, plays, k) ==
        TierTok(old(tree), plays, k)
          + (if k == 0 then Tok(BlockSeg(old(tree)[parent], parent, src, nblocks, now), plays) else 0)
    {
      hide Shape, Tiers, Pinning, Slices, Stands, Slots, Roots, TierTok, Evictable;
      ghost var c := tree;
      RepAt(nodes, lru, tree, plays, {}, parent);
      t := -1;
      if nodes[parent].tail > 0 {
        t := SplitOffTail(parent);
      } else {
        NeverLive(tree);
        ParentAt(tree, parent);
      }
      RepAt(nodes, lru, tree, plays, {}, parent);
      var play := nodes[parent].play;
      id := NewNode();
      var n := nodes[id];
      ghost var k := BlockSeg(c[parent], parent, src, nblocks, now);
      ghost var n1 := nodes;
      nodes := nodes[id := n.(play := play, hashBegin := hb, nblocks := nblocks, tier := 0, pins := 1,
        lastAccess := now)];
      StandsAgree(n1, nodes, lru, tree, plays, {});
      SlotsSame(n1, nodes, freeNodes, tree, {id});
      LinkReady(nodes, lru, tree, plays, parent, id, k);
      LinkFrontInv(tree, plays, parent, id, k);
      LinkChild(parent, id, k);
      PinnedStays(tree, id);
      Settle(nodes, lru, tree, plays, {id}, id);
      assert {id} - {id} == {};
    }

    /** The first half of `insert_child`: generated tokens move from the parent into a child of their own. */
    method SplitOffTail(parent: int) returns (t: int)
      requires Valid() && parent in tree && tree[parent].pins > 0 && tree[parent].tail > 0
      requires tree[parent].parent != -1 ==> tree[parent].nblocks > 0
      modifies this`nodes, this`freeNodes, this`lru, this`tree
      ensures Valid() && t !in old(tree) && t != parent && tree == WithTailChild(old(tree), parent, t)
      ensures tree[parent].(kids := []) == old(tree)[parent].(kids := [], tail := 0)
      ensures forall k: nat :: TierTok(tree, plays, k) == TierTok(old(tree), plays, k)
    {
      hide Shape, Tiers, Pinning, Slices, Stands, Slots, Roots, TierTok, Evictable;
      ghost var c := tree;
      RepAt(nodes, lru, tree, plays, {}, parent);
      RootHasNoTail(tree, parent);
      SliceAt(tree, plays, parent);
      t := NewNode();
      RepAt(nodes, lru, tree, plays, {}, parent);
      var p := nodes[parent];
      SetTailInv(tree, plays, parent, 0);
      SetTail(parent, 0, {t});
      ghost var n1 := nodes;
      nodes := nodes[t := nodes[t].(play := p.play, tail := p.tail, tier := p.tier, lastAccess := p.lastAccess)];
      StandsAgree(n1, nodes, lru, tree, plays, {});
      SlotsSame(n1, nodes, freeNodes, tree, {t});
      ghost var k := TailSeg(c[parent], parent);
      LinkReady(nodes, lru, tree, plays, parent, t, k);
      TailSlice(c[parent], parent, plays);
      LinkFrontInv(tree, plays, parent, t, k);
      LinkChild(parent, t, k);
      LruUpdate(t, {t});
      assert {t} - {t} == {};
    }

    // ---- lookup ----

    /** The first child of `node` whose first block is `want`; children idle for too long expire on the way. */
    method FindChild(node: int, want: nat, now: real) returns (found: int, ghost n: nat)
      requires Valid() && node in tree
      modifies this`nodes, this`freeNodes, this`used, this`lru, this`tree
      ensures Valid() && OffKept(old(used), old(tree)) && Lapsed(old(tree), tree, now, residencyLimit)
      ensures node in tree && tree[node].(kids := []) == old(tree)[node].(kids := [])
      ensures residencyLimit <= 0.0 ==> tree == old(tree)
      ensures SameElsewhere(old(tree), tree, node)
      ensures found != -1 ==> found in tree && tree[found].parent == node && StartsWith(tree[found], plays, want)
      ensures found != -1 ==> FirstKid(tree, plays, node, want, found)
      ensures found == -1 ==> forall k :: k in tree[node].kids && k in tree ==> !StartsWith(tree[k], plays, want)
      ensures Swept(old(tree), tree, node, n, now, residencyLimit)
      ensures if found == -1 then n == |old(tree)[node].kids|
        else n < |old(tree)[node].kids| && found == old(tree)[node].kids[n]
      ensures if found == -1 then NoneExpires(tree, node, |tree[node].kids|, now, residencyLimit)
        else FreshHere(tree, found, now, residencyLimit)
    {
      hide Shape, Tiers, Pinning, Slices, Stands, Slots, Roots, TierTok, Lapsed, Remove, Desc, SameElsewhere, Swept,
           NoneExpires, PinnedBelow, FreshHere, FirstKid, Scanned;
      ghost var c0 := tree;
      RepAt(nodes, lru, tree, plays, {}, node);
      KidsLive(tree, node);
      ScanStart(tree, plays, node, want, now, residencyLimit);
      ghost var m := 0;
      n := 0;
      var c := nodes[node].firstChild;
      while c != -1
        invariant Valid() && OffKept(old(used), c0)
        invariant Scanned(c0, tree, plays, node, want, m, n, now, residencyLimit)
        invariant node in tree && 0 <= m <= |tree[node].kids| && c == At(tree[node].kids, m)
        decreases |tree[node].kids| - m
      {
        KidAt(nodes, lru, tree, plays, {}, node, m);
        SliceAt(tree, plays, c);
        var nx := nodes[c].nextSibling;
        var x := nodes[c];
        if x.nblocks > 0 {
          var expired := false;
          if residencyLimit > 0.0 && now - x.lastAccess > residencyLimit {
            var pinned := SubtreePinned(c);
            expired := !pinned;
          }
          if expired {
            ghost var c1 := tree;
            RemoveKid(tree, node, m);
            NonePinned(tree, c);
            RemoveSubtree(c);
            ScanDrop(c0, c1, plays, node, want, m, n, now, residencyLimit);
            n := n + 1;
            c := nx;
            continue;
          }
          StartsHere(tree[c], x, plays, want);
          if plays[x.play].hashes[x.hashBegin] == want {
            ScanFound(c0, tree, plays, node, want, m, n, now, residencyLimit);
            ScanFacts(c0, tree, plays, node, want, m, n, now, residencyLimit);
            return c, n;
          }
        }
        ScanPast(c0, tree, plays, node, want, m, n, now, residencyLimit);
        c := nx;
        m, n := m + 1, n + 1;
      }
      AtEnd(tree, node, m);
      ScanDone(c0, tree, plays, node, want, m, n, now, residencyLimit);
      ScanFacts(c0, tree, plays, node, want, m, n, now, residencyLimit);
      return -1, n;
    }

    /** Some segment from `node` up to its root lies below the device tier. */
    method AnyLower(node: int) returns (lower: bool)
      requires Valid() && node in tree
      ensures lower <==> tree[node].tier > 0
    {
      hide Tiers, Pinning, Slices, Stands, Slots, Roots, Shape, Anc;
      SameTiersPath(tree, node);
      lower := false;
      var n := node;
      AncSelf(tree, node);
      ParentAt(tree, node);
      while n != -1
        invariant n != -1 ==> n in tree && Anc(tree, n, node)
        invariant lower ==> tree[node].tier > 0
        invariant n != node && tree[node].tier > 0 ==> lower
        decreases if n == -1 then 0 else Height(tree[n]) + 1
      {
        RepAt(nodes, lru, tree, plays, {}, n);
        if nodes[n].tier > 0 { lower := true; }
        ParentAt(tree, n);
        AncUp(tree, n, node);
        n := nodes[n].parent;
      }
    }

    /** One round of the lookup loop: the child to descend into (or -1) and how many of its blocks match. */
    method StepDown(node: int, play: nat, r: nat, pos: nat, now: real) returns (found: int, lo: nat)
      requires Valid() && GoodReq(plays, play, r) && node in tree && tree[node].play == play
      requires pos == End(tree[node]) < plays[play].reqs[r].count && PathIs(tree, plays, node, r, pos)
      modifies this`nodes, this`freeNodes, this`used, this`lru, this`tree
      ensures Valid() && OffKept(old(used), old(tree)) && Lapsed(old(tree), tree, now, residencyLimit)
      ensures residencyLimit <= 0.0 ==> tree == old(tree)
      ensures node in tree && tree[node].(kids := []) == old(tree)[node].(kids := []) &&
        PathIs(tree, plays, node, r, pos)
      ensures found == -1 ==> forall k :: k in tree[node].kids && k in tree ==>
        !StartsWith(tree[k], plays, BlockOf(plays[play], r, pos))
      ensures found != -1 ==> Stepped(tree, plays, found, play, r, pos, lo) && tree[found].start == pos
      ensures old(FirstPath(tree, plays, node)) ==>
        FirstPath(tree, plays, node) && (found != -1 ==> FirstPath(tree, plays, found))
      ensures old(FreshPath(tree, node, now, residencyLimit)) ==>
        FreshPath(tree, node, now, residencyLimit) && (found != -1 ==> FreshPath(tree, found, now, residencyLimit))
      ensures found == -1 ==> NoneExpires(tree, node, |tree[node].kids|, now, residencyLimit)
    {
      hide FirstPath, FirstKid, SameElsewhere, FreshPath, FreshHere, NoneExpires, Swept, Sheds, Shape, Tiers, Pinning,
           Slices, Stands, Slots, TierTok, Lapsed, Remove, Desc, PathIs, Chained, Roots, StartsWith;
      var hb, cnt := plays[play].reqs[r].begin, plays[play].reqs[r].count;
      ghost var c1 := tree;
      ParentAt(tree, node);
      ghost var n0;
      found, n0 := FindChild(node, plays[play].hashes[hb + pos], now);
      PathsOn(c1, tree, plays, node, found, plays[play].hashes[hb + pos], r, pos, now, residencyLimit);
      lo := 0;
      if found == -1 { return; }
      RepAt(nodes, lru, tree, plays, {}, found);
      StartsAt(tree[found], nodes[found], plays, plays[play].hashes[hb + pos]);
      var n := nodes[found];
      var m := if n.nblocks < cnt - pos then n.nblocks else cnt - pos;
      StepFound(tree, plays, node, found, play, r, m);
      lo := MatchLength(plays[play], n.hashBegin, hb + pos, m, tree[found].src, r, pos);
    }

    /** Walks down from the play's root as far as the prompt is continued; expired subtrees on the way are dropped. */
    method Descend(root: int, play: nat, r: nat, now: real) returns (node: int, pos: nat, off: nat)
      requires Valid() && GoodReq(plays, play, r) && root in tree && tree[root].play == play && tree[root].parent == -1
      requires End(tree[root]) == 0 && PathIs(tree, plays, root, r, 0)
      modifies this`nodes, this`freeNodes, this`used, this`lru, this`tree
      ensures Valid() && OffKept(old(used), old(tree)) && Lapsed(old(tree), tree, now, residencyLimit)
      ensures residencyLimit <= 0.0 ==> tree == old(tree)
      ensures node in tree && tree[node].play == play && HitAt(tree[node], Hit(node, pos, off, false))
      ensures PathIs(tree, plays, node, r, pos) && Deepest(tree, plays, Hit(node, pos, off, false), r)
      ensures FirstPath(tree, plays, node)
      ensures Fresh(tree, Hit(node, pos, off, false), plays[play].reqs[r].count, now, residencyLimit)
    {
      hide FreshPath, NoneExpires, Shape, Tiers, Pinning, Slices, Stands, Slots, TierTok, Lapsed, PathIs, Chained,
           Roots, StartsWith;
      ghost var c0 := tree;
      LapsedRefl(tree, now, residencyLimit);
      FreshRoot(tree, root, now, residencyLimit);
      node, pos, off := root, 0, 0;
      while pos < plays[play].reqs[r].count
        invariant Valid() && OffKept(old(used), c0) && Lapsed(c0, tree, now, residencyLimit)
        invariant residencyLimit <= 0.0 ==> tree == c0
        invariant node in tree && tree[node].play == play && pos == End(tree[node]) <= plays[play].reqs[r].count
        invariant HitAt(tree[node], Hit(node, pos, off, false)) &&
          (tree[node].parent != -1 ==> off == tree[node].nblocks)
        invariant PathIs(tree, plays, node, r, pos) && FirstPath(tree, plays, node)
        invariant FreshPath(tree, node, now, residencyLimit)
        decreases plays[play].reqs[r].count - pos
      {
        ghost var c1 := tree;
        var found, lo := StepDown(node, play, r, pos, now);
        LapsedTrans(c0, c1, tree, now, residencyLimit);
        if found == -1 { break; }
        RepAt(nodes, lru, tree, plays, {}, found);
        pos := pos + lo;
        node := found;
        off := lo;
        if lo < nodes[found].nblocks { break; }
      }
    }

    /** The match of a request's prompt: at every step the first child that begins with the next block. */
    method Lookup(play: nat, r: nat, now: real) returns (h: Hit, ghost mid: Tree)
      requires Valid() && GoodReq(plays, play, r)
      modifies this`nodes, this`freeNodes, this`used, this`lru, this`tree
      ensures Valid() && OffKept(old(used), old(tree)) && Inv(mid, plays)
      ensures Lapsed(old(tree), mid, now, residencyLimit) && (residencyLimit <= 0.0 ==> mid == old(tree))
      ensures play !in roots ==> h == Hit(-1, 0, 0, false) && tree == mid == old(tree)
      ensures play in roots ==> Found(mid, plays, h, play, r) && tree == KvTree.Touch(mid, h.node, now)
      ensures play in roots ==> Fresh(mid, h, plays[play].reqs[r].count, now, residencyLimit)
    {
      hide FreshPath, NoneExpires, Shape, Tiers, Pinning, Slices, Stands, Slots, TierTok, Lapsed, PathIs, Chained,
           Roots, StartsWith;
      LapsedRefl(tree, now, residencyLimit);
      mid := tree;
      if play !in roots { return Hit(-1, 0, 0, false), tree; }
      var node := roots[play];
      RootsAt(roots, tree, play);
      RootPath(tree, plays, node, r);
      RootHasNoTail(tree, node);
      var pos, off;
      node, pos, off := Descend(node, play, r, now);
      mid := tree;
      var lower := AnyLower(node);
      h := Hit(node, pos, off, lower);
      StampTok(tree, plays, TouchSet(tree, node, now), now);
      Touch(node, now);
    }

    // ---- splitting and pinning a hit ----

    method Split(id: int, off: nat) returns (up: int)
      requires Valid() && id in tree && tree[id].parent != -1 && 0 < off < tree[id].nblocks && tree[id].tier == 0
      modifies this`nodes, this`freeNodes, this`tree
      ensures Valid() && up !in old(tree) && up >= 0
      ensures old(tree[id].parent in tree && id in tree[tree[id].parent].kids)
      ensures tree == KvTree.Split(old(tree), id, up, off) && OffKept(used, old(tree))
      ensures tree[id].parent == up && tree[up].lastAccess == tree[id].lastAccess == old(tree[id].lastAccess)
    {
      hide Shape, Tiers, Pinning, Slices, Stands, Slots, Roots, TierTok, SplitNodes;
      ghost var c := tree;
      up := NewNode();
      ghost var n0 := nodes;
      RepAt(nodes, lru, tree, plays, {}, id);
      ParentAt(tree, id);
      ghost var j := SlotAt(nodes, lru, tree, plays, {}, id);
      SplitReady(nodes, lru, tree, plays, id, up, off, j);
      SplitStands(nodes, lru, tree, plays, id, up, off, j);
      SplitInv(tree, plays, id, up, off);
      forall t: nat ensures TierTok(KvTree.Split(c, id, up, off), plays, t) == TierTok(c, plays, t) {
        SplitTok(c, plays, id, up, off, t);
      }
      RootsSplit(roots, tree, id, up, off);
      SplitFields(id, up, off);
      tree := KvTree.Split(tree, id, up, off);
      SlotsSame(n0, nodes, freeNodes, c, {up});
      SlotsFill(nodes, freeNodes, c, up, tree[up]);
      SlotsTree(nodes, freeNodes, c[up := tree[up]], tree, {});
    }

    method SplitFields(id: int, up: int, off: nat)
      requires 0 <= id < |nodes| && 0 <= up < |nodes| && off <= nodes[id].nblocks && CanUnlink(id)
      modifies this`nodes
      ensures nodes == SplitNodes(old(nodes), id, up, off)
    {
      var lo := nodes[id];
      nodes := nodes[up := nodes[up].(play := lo.play, hashBegin := lo.hashBegin, nblocks := off, tier := lo.tier,
                                      lastAccess := lo.lastAccess, parent := lo.parent,
                                      prevSibling := lo.prevSibling, nextSibling := lo.nextSibling)];
      if lo.prevSibling != -1 {
        nodes := nodes[lo.prevSibling := nodes[lo.prevSibling].(nextSibling := up)];
      } else if lo.parent != -1 {
        nodes := nodes[lo.parent := nodes[lo.parent].(firstChild := up)];
      }
      if lo.nextSibling != -1 {
        nodes := nodes[lo.nextSibling := nodes[lo.nextSibling].(prevSibling := up)];
      }
      nodes := nodes[id := nodes[id].(hashBegin := lo.hashBegin + off, nblocks := lo.nblocks - off, parent := up,
                                      prevSibling := -1, nextSibling := -1)];
      nodes := nodes[up := nodes[up].(firstChild := id)];
    }

    /** Splits at a partial match and pins the fully matched node (a new root when the play had none). */
    method PinHit(play: nat, h: Hit, now: real) returns (p: int, ghost m: Tree)
      requires Valid() && play < |plays| && CanPinHit(play, h)
      modifies this`nodes, this`freeNodes, this`lru, this`roots, this`tree
      ensures Valid() && OffKept(used, old(tree))
      ensures Prepared(old(tree), m, h, p, play, now) && Inv(m, plays) && p in m && tree == AddPins(m, p, 1)
    {
      hide Shape, Tiers, Pinning, Slices, Stands, Slots, Roots, TierTok, SplitNodes, Renamed;
      p := h.node;
      if p == -1 {
        p := RootOf(play, true, now);
        ParentAt(tree, p);
      }
      RepAt(nodes, lru, tree, plays, {}, p);
      var n := nodes[p];
      if n.parent != -1 && h.off < n.nblocks {
        p := Split(p, h.off);
      }
      CanPinOne(tree, p);
      m := tree;
      AddPin(p, 1);
    }

    ghost predicate CanPinHit(play: nat, h: Hit)
      reads this
    {
      if h.node == -1 then play !in roots
      else h.node in tree && tree[h.node].tier == 0 && (tree[h.node].parent != -1 ==> 0 < h.off <= tree[h.node].nblocks)
    }

    // ---- tier loads ----

    /** Pins a segment and its ancestors, ancestors first. */
    method PinPath(id: int)
      requires Valid() && id in tree
      modifies this`nodes, this`lru, this`tree
      ensures Valid() && tree == PinAll(old(tree), Path(old(tree), id), 1) && OffKept(used, old(tree))
      decreases Height(tree[id])
    {
      hide Shape, Tiers, Pinning, Slices, Stands, Slots, Roots, TierTok, CanPin, Path;
      ghost var c := tree;
      RepAt(nodes, lru, tree, plays, {}, id);
      ParentAt(tree, id);
      PathUp(tree, id);
      var parent := nodes[id].parent;
      if parent != -1 {
        PinPath(parent);
        PinAllStep(c, Path(c, parent), 1, id);
        PathUp(c, parent);
        PinnedParent(c, parent, Path(c, parent));
        CanPinOne(tree, id);
      } else {
        RootTier(tree, id);
        CanPinOne(tree, id);
        PinAllStep(c, {}, 1, id);
        PinAllNone(c);
        assert {} + {id} == {id};
      }
      AddPin(id, 1);
    }

    /** Tokens of the path from id to its root that lie below the device tier. */
    method LowerTokens(id: int) returns (tok: nat)
      requires Valid() && id in tree
      ensures tok == SumTok(tree, plays, LowerPart(tree, Path(tree, id)))
    {
      hide Shape, Tiers, Pinning, Slices, Stands, Slots, Roots, TierTok, Path, SumTok;
      tok := 0;
      var n := id;
      ParentAt(tree, id);
      while n != -1
        invariant n != -1 ==> n in tree
        invariant tok + (if n == -1 then 0 else SumTok(tree, plays, LowerPart(tree, Path(tree, n)))) ==
                  SumTok(tree, plays, LowerPart(tree, Path(tree, id)))
        decreases if n == -1 then 0 else Height(tree[n]) + 1
      {
        RepAt(nodes, lru, tree, plays, {}, n);
        ParentAt(tree, n);
        PathUp(tree, n);
        PathTok(tree, plays, n);
        if nodes[n].tier > 0 {
          tok := tok + NodeTokens(nodes[n]);
        }
        n := nodes[n].parent;
      }
    }

    /** Moves a pinned path to the device tier, ancestors first. */
    method LiftPath(id: int)
      requires Valid() && id in tree && forall a :: a in Path(tree, id) ==> a in tree && tree[a].pins > 0
      requires used[0] + SumTok(tree, plays, LowerPart(tree, Path(tree, id))) <= cap[0]
      modifies this`nodes, this`used, this`lru, this`tree
      ensures Valid() && tree == LiftAll(old(tree), Path(old(tree), id)) && OffKept(old(used), old(tree))
      ensures used[0] == old(used[0]) + SumTok(old(tree), plays, LowerPart(old(tree), Path(old(tree), id)))
      decreases Height(tree[id])
    {
      hide Shape, Tiers, Pinning, Slices, Stands, Slots, Roots, TierTok, Path, SumTok, Evictable;
      ghost var c := tree;
      RepAt(nodes, lru, tree, plays, {}, id);
      ParentAt(tree, id);
      PathUp(tree, id);
      PathTok(tree, plays, id);
      var n := nodes[id];
      if n.parent != -1 {
        LiftPath(n.parent);
        LiftAllStep(c, Path(c, n.parent), id);
        PathUp(c, n.parent);
        RepAt(nodes, lru, tree, plays, {}, id);
        if n.tier == 0 { LiftAllZero(c, Path(c, n.parent), id); }
      } else {
        RootTier(c, id);
        LiftAllNone(c, {id});
      }
      if n.tier == 0 { return; }
      PinnedStays(tree, id);
      Lift(id);
    }

    /** `used` and the tier of one pinned segment change hands; it was in no LRU set. */
    method Lift(id: int)
      requires Valid() && id in tree && tree[id].pins > 0 && tree[id].tier > 0
      requires tree[id].parent in tree ==> tree[tree[id].parent].tier == 0 && tree[tree[id].parent].pins > 0
      requires tree[id].parent != -1 && used[0] + Tok(tree[id], plays) <= cap[0]
      modifies this`nodes, this`used, this`lru, this`tree
      ensures Valid() && tree == SetTier(old(tree), id, 0) && OffKept(old(used), old(tree))
      ensures used[0] == old(used[0]) + Tok(old(tree[id]), plays)
    {
      hide Shape, Tiers, Pinning, Slices, Stands, Slots, Roots, TierTok, Evictable;
      RepAt(nodes, lru, tree, plays, {}, id);
      ParentAt(tree, id);
      PinnedStays(tree, id);
      var tier, parent, tok := nodes[id].tier, nodes[id].parent, NodeTokens(nodes[id]);
      LruErase(id);
      assert nodes == old(nodes) && lru == old(lru);
      used := used[tier := used[tier] - tok];
      used := used[0 := used[0] + tok];
      var m := nodes[id].(tier := 0);
      ghost var k := tree[id].(tier := 0);
      Loosen(nodes, lru, tree, plays, {}, {id, parent});
      ChangeStands(nodes, lru, tree, plays, {id, parent}, id, m, k);
      LiftInv(tree, plays, id);
      RootsSame(roots, tree, SetTier(tree, id, 0));
      SlotsTree(nodes, freeNodes, tree, SetTier(tree, id, 0), {});
      forall t: nat ensures TierTok(SetTier(tree, id, 0), plays, t) == TierTok(tree, plays, t)
        + (if t == 0 then tok else 0) - (if t == tier then tok else 0) {
        SetTierTok(tree, plays, id, 0, t);
      }
      nodes := nodes[id := m];
      tree := SetTier(tree, id, 0);
      SlotsSame(old(nodes), nodes, freeNodes, tree, {});
      LruUpdate(id, {id, parent});
      assert {id, parent} - {id} == {parent};
      LruUpdate(parent, {parent});
      assert {parent} - {parent} == {};
    }

    /** Gives back the pins of a path, deepest segment first. */
    method ReleasePath(id: int)
      requires Valid() && id in tree && OnlyPath(tree, Path(tree, id))
      requires forall a :: a in Path(tree, id) ==> a in tree && tree[a].pins > (if tree[a].parent == -1 then 1 else 0)
      modifies this`nodes, this`lru, this`tree
      ensures Valid() && tree == PinAll(old(tree), Path(old(tree), id), -1) && OffKept(used, old(tree))
      decreases Height(tree[id])
    {
      hide Shape, Tiers, Pinning, Slices, Stands, Slots, Roots, TierTok, Path, Evictable;
      ghost var c := tree;
      RepAt(nodes, lru, tree, plays, {}, id);
      ParentAt(tree, id);
      PathUp(tree, id);
      var parent := nodes[id].parent;
      ReleaseOk(tree, plays, id);
      Unpin(id);
      if parent != -1 {
        AddPinsShape(c, id, -1);
        SameShapePath(c, tree, parent);
        ReleaseNext(c, id, Path(c, parent));
        ReleasePath(parent);
        PinAllFirst(c, Path(c, parent), id);
      } else {
        PinAllFirst(c, {}, id);
        PinAllEmpty(tree, {});
        assert {} + {id} == {id};
      }
    }

    /** The tier-load half of `admit_prefill`: protect the path, make room for its lower part, move it up.
        c1 is the tree after making room, with the whole path pinned. */
    method LoadHit(node: int) returns (ok: bool, lower: nat, ghost c1: Tree)
      requires Valid() && node in tree && PinnedTop(tree)
      modifies this`nodes, this`freeNodes, this`used, this`lru, this`tree
      ensures Valid() && OffKept(old(used), old(tree))
      ensures lower == SumTok(old(tree), plays, LowerPart(old(tree), Path(old(tree), node)))
      ensures Shape(PinAll(old(tree), Path(old(tree), node), 1)) &&
        Sheds(PinAll(old(tree), Path(old(tree), node), 1), c1, 0)
      ensures ok <==> CanFree(PinAll(old(tree), Path(old(tree), node), 1), plays, 0, old(Off(0)), lower, cap[0])
      ensures !ok ==> tree == PinAll(c1, Path(old(tree), node), -1)
      ensures !ok ==>
        Shape(tree) && node in tree && used[0] + SumTok(tree, plays, LowerPart(tree, Path(tree, node))) > cap[0]
      ensures ok ==> tree == Loaded(c1, Path(old(tree), node), node)
      ensures ok ==> SumTok(c1, plays, LowerPart(c1, Path(old(tree), node))) == lower
      ensures Inv(PinAll(old(tree), Path(old(tree), node), 1), plays) && Inv(c1, plays)
      ensures ok ==> Inv(LiftAll(c1, Path(old(tree), node)), plays)
    {
      hide Shape, Tiers, Pinning, Slices, Stands, Slots, Roots, TierTok, Path, LowerPart, CanFree, PinAll, LiftAll,
           Sheds, OldestFirst;
      ghost var c := tree;
      ghost var p := Path(c, node);
      PinPath(node);
      ghost var e := tree;
      PinAllSame(c, e, plays, node, 1);
      PathPinned(c, e, node);
      lower := LowerTokens(node);
      ok := EnsureFree(0, lower);
      c1 := tree;
      ShedsPathSet(e, c1, plays, node);
      PinnedPathOnly(c, e, c1, p);
      PathPins(c, e, node);
      if !ok {
        ReleasePath(node);
        PinAllShape(c1, p, -1);
        PinAllSame(c1, tree, plays, node, -1);
        return;
      }
      LiftPath(node);
      ghost var f := tree;
      LiftAllShape(c1, p);
      SameShapePath(c1, f, node);
      RepAt(nodes, lru, tree, plays, {}, node);
      ParentAt(tree, node);
      PathUp(c1, node);
      PathUp(f, node);
      LiftPins(c1, p);
      LiftedOnly(c1, p, p);
      var parent := nodes[node].parent;
      if parent != -1 {
        SameShapePath(c1, f, parent);
        LiftedOnly(c1, p, Path(f, parent));
        assert p - {node} == Path(f, parent);
        ReleasePath(parent);
      } else {
        PinAllEmpty(f, p - {node});
      }
    }

    // ---- charging requests ----

    /** Device-tier tokens charged to (or, negative, returned by) a request. */
    method Charge(tok: int)
      requires Valid() && used[0] + tok <= cap[0]
      modifies this`used
      ensures Valid() && used == old(used)[0 := old(used)[0] + tok]
    {
      used := used[0 := used[0] + tok];
    }
  }
}
