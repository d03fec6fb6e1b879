/** The radix tree of KV segments, as a value: node ids mapped to segments.

    A segment covers `nblocks` consecutive prompt blocks of one play (session-tree instance),
    then `tail` generated tokens. It starts `start` blocks below the root of its play. */
module KvTree {
  /** One request's slice of the block-id array. */
  datatype Slice = Slice(begin: nat, count: nat)

  /** The token blocks of one play: its block size, its flat array of block ids and its requests' slices. */
  datatype Play = Play(blockSize: nat, hashes: seq<nat>, reqs: seq<Slice>)

  /** `src` is the request whose slice the blocks were inserted from. */
  datatype Seg = Seg(
    play: nat,
    parent: int,
    kids: seq<int>,
    start: nat,
    src: nat,
    nblocks: nat,
    tail: nat,
    tier: nat,
    pins: int,
    lastAccess: real)

  type Tree = map<int, Seg>

  function Tok(n: Seg, plays: seq<Play>): nat {
    (if n.play < |plays| then n.nblocks * plays[n.play].blockSize else 0) + n.tail
  }

  ghost predicate NoDup(s: seq<int>) {
    forall j, k :: 0 <= j < k < |s| ==> s[j] != s[k]
  }

  // ---- invariants ----

  /** Parent pointers and child lists agree, and block positions grow downwards. */
  ghost predicate Shape(c: Tree) {
    && (forall i {:trigger i in c} :: i in c ==> i >= 0)
    && (forall i {:trigger c[i].kids} :: i in c ==> NoDup(c[i].kids))
    && (forall i {:trigger c[i].parent} :: i in c && c[i].parent == -1 ==>
      c[i].start == 0 && c[i].nblocks == 0 && c[i].tail == 0)
    && (forall i {:trigger c[i].parent} :: i in c && c[i].parent != -1 && c[i].nblocks == 0 ==> c[i].kids == [])
    && (forall i {:trigger c[i].parent} :: i in c && c[i].parent != -1 ==> ChildOk(c, i))
    && (forall i, k {:trigger k in c[i].kids} :: i in c && k in c[i].kids ==> k in c && c[k].parent == i)
  }

  ghost predicate ChildOk(c: Tree, i: int)
    requires i in c
  {
    var p := c[i].parent;
    && p in c
    && i in c[p].kids
    && c[i].play == c[p].play
    && c[i].start == c[p].start + c[p].nblocks
  }

  /** No segment lies in a faster tier than its parent; roots stay on the device tier. */
  ghost predicate Tiers(c: Tree) {
    && (forall i {:trigger c[i].parent} :: i in c && c[i].parent == -1 ==> c[i].tier == 0)
    && (forall i {:trigger c[i].parent} :: i in c ==> TierOk(c, i))
  }

  ghost predicate TierOk(c: Tree, i: int)
    requires i in c
  {
    c[i].parent in c ==> c[c[i].parent].tier <= c[i].tier
  }

  /** A pinned segment is on the device tier, or (during a load) its parent is pinned too. */
  ghost predicate Pinning(c: Tree) {
    && (forall i {:trigger c[i].pins} :: i in c ==> c[i].pins >= 0)
    && (forall i {:trigger c[i].parent} :: i in c && c[i].parent == -1 ==> c[i].pins > 0)
    && (forall i {:trigger c[i].parent} :: i in c ==> PinOk(c, i))
  }

  ghost predicate PinOk(c: Tree, i: int)
    requires i in c
  {
    c[i].pins > 0 && c[i].tier > 0 && c[i].parent in c ==> c[c[i].parent].pins > 0
  }

  /** Every segment is a slice of its play's block array, at its own depth of some request's prompt. */
  ghost predicate Slices(c: Tree, plays: seq<Play>) {
    forall i :: i in c ==> SliceOk(c[i], plays)
  }

  ghost predicate SliceOk(n: Seg, plays: seq<Play>) {
    && n.play < |plays|
    && (n.nblocks > 0 ==>
          && n.src < |plays[n.play].reqs|
          && n.start + n.nblocks <= plays[n.play].reqs[n.src].count
          && plays[n.play].reqs[n.src].begin + plays[n.play].reqs[n.src].count <= |plays[n.play].hashes|)
  }

  /** Where a segment's block ids begin in the flat array; tail segments carry 0. */
  function HashBegin(n: Seg, plays: seq<Play>): nat {
    if n.nblocks > 0 && n.play < |plays| && n.src < |plays[n.play].reqs|
    then plays[n.play].reqs[n.src].begin + n.start
    else 0
  }

  ghost predicate Inv(c: Tree, plays: seq<Play>) {
    Shape(c) && Tiers(c) && Pinning(c) && Slices(c, plays)
  }

  lemma InvShape(c: Tree, plays: seq<Play>)
    requires Inv(c, plays)
    ensures Shape(c)
  {
  }

  /** Strictly increasing from parent to child. */
  function Height(n: Seg): nat {
    if n.parent == -1 then 0 else n.start + (if n.nblocks == 0 then 1 else n.nblocks)
  }

  // ---- ancestors and subtrees ----

  /** i is j or lies on the path from j to its root. */
  ghost predicate Anc(c: Tree, i: int, j: int)
    requires Shape(c) && j in c
    decreases Height(c[j])
  {
    i == j || (c[j].parent != -1 && Anc(c, i, c[j].parent))
  }

  ghost function Desc(c: Tree, i: int): (d: set<int>)
    requires Shape(c)
  {
    set j | j in c && Anc(c, i, j)
  }

  lemma {:induction false} AncIn(c: Tree, i: int, j: int)
    requires Shape(c) && j in c && Anc(c, i, j)
    ensures i in c && Height(c[i]) <= Height(c[j])
    ensures c[i].play == c[j].play
    ensures i != j ==> Height(c[i]) < Height(c[j])
    decreases Height(c[j])
  {
    if i != j {
      AncIn(c, i, c[j].parent);
    }
  }

  lemma {:induction false} AncTrans(c: Tree, i: int, j: int, k: int)
    requires Shape(c) && j in c && k in c && Anc(c, i, j) && Anc(c, j, k)
    ensures Anc(c, i, k)
    decreases Height(c[k])
  {
    if j != k {
      AncTrans(c, i, j, c[k].parent);
    }
  }

  /** Two ancestors of one segment lie on one path. */
  lemma {:induction false} AncLinear(c: Tree, i: int, j: int, k: int)
    requires Shape(c) && k in c && Anc(c, i, k) && Anc(c, j, k)
    ensures i in c && j in c && (Anc(c, i, j) || Anc(c, j, i))
    decreases Height(c[k])
  {
    AncIn(c, i, k);
    AncIn(c, j, k);
    if i != k && j != k {
      AncLinear(c, i, j, c[k].parent);
    }
  }

  /** A proper descendant lies below exactly one child. */
  lemma {:induction false} AncThroughKid(c: Tree, i: int, j: int) returns (k: int)
    requires Shape(c) && j in c && Anc(c, i, j) && i != j
    ensures i in c && k in c[i].kids && k in c && Anc(c, k, j)
    decreases Height(c[j])
  {
    var p := c[j].parent;
    if p == i {
      k := j;
    } else {
      k := AncThroughKid(c, i, p);
    }
  }

  lemma SiblingsDisjoint(c: Tree, a: int, b: int)
    requires Shape(c) && a in c && b in c && a != b && c[a].parent == c[b].parent != -1
    ensures Desc(c, a) !! Desc(c, b)
  {
    forall x | x in Desc(c, a) && x in Desc(c, b)
      ensures false
    {
      AncLinear(c, a, b, x);
      if Anc(c, a, b) {
        AncIn(c, a, c[b].parent);
      } else {
        AncIn(c, b, c[a].parent);
      }
    }
  }

  /** The subtree of i is i and the subtrees of its children. */
  lemma DescSplit(c: Tree, i: int)
    requires Shape(c) && i in c
    ensures Desc(c, i) == {i} + set j, k | k in c[i].kids && k in c && j in Desc(c, k) :: j
    ensures forall k :: k in c[i].kids ==> k in c && Desc(c, k) < Desc(c, i) && i !in Desc(c, k)
  {
    forall j | j in Desc(c, i) && j != i
      ensures exists k :: k in c[i].kids && k in c && j in Desc(c, k)
    {
      var k := AncThroughKid(c, i, j);
      assert j in Desc(c, k);
    }
    forall k | k in c[i].kids
      ensures k in c && Desc(c, k) < Desc(c, i) && i !in Desc(c, k)
    {
      assert Anc(c, i, i) && Anc(c, i, k);
      forall j | j in Desc(c, k)
        ensures j in Desc(c, i)
      {
        AncTrans(c, i, k, j);
      }
      if i in Desc(c, k) {
        AncIn(c, k, i);
      }
      assert i in Desc(c, i);
    }
  }

  // ---- sums ----

  ghost function SumTok(c: Tree, plays: seq<Play>, a: set<int>): (s: nat) {
    if exists x :: x in a then
      var x :| x in a;
      (if x in c then Tok(c[x], plays) else 0) + SumTok(c, plays, a - {x})
    else
      0
  }

  lemma {:induction false} SumRemove(c: Tree, plays: seq<Play>, a: set<int>, x: int)
    requires x in a && x in c
    ensures SumTok(c, plays, a) == Tok(c[x], plays) + SumTok(c, plays, a - {x})
    decreases a
  {
    var y :| y in a && SumTok(c, plays, a) == (if y in c then Tok(c[y], plays) else 0) + SumTok(c, plays, a - {y});
    if y != x {
      SumRemove(c, plays, a - {y}, x);
      if y in c {
        SumRemove(c, plays, a - {x}, y);
      } else {
        SumSkip(c, plays, a - {x}, y);
      }
      assert a - {y} - {x} == a - {x} - {y};
    }
  }

  lemma {:induction false} SumSkip(c: Tree, plays: seq<Play>, a: set<int>, x: int)
    requires x in a && x !in c
    ensures SumTok(c, plays, a) == SumTok(c, plays, a - {x})
    decreases a
  {
    var y :| y in a && SumTok(c, plays, a) == (if y in c then Tok(c[y], plays) else 0) + SumTok(c, plays, a - {y});
    if y != x {
      SumSkip(c, plays, a - {y}, x);
      assert a - {y} - {x} == a - {x} - {y};
      if y in c {
        SumRemove(c, plays, a - {x}, y);
      } else {
        SumSkip(c, plays, a - {x}, y);
      }
    }
  }

  lemma {:induction false} SumUnion(c: Tree, plays: seq<Play>, a: set<int>, b: set<int>)
    requires a !! b && b <= c.Keys
    ensures SumTok(c, plays, a + b) == SumTok(c, plays, a) + SumTok(c, plays, b)
    decreases b
  {
    if x :| x in b {
      SumRemove(c, plays, a + b, x);
      SumRemove(c, plays, b, x);
      assert a + b - {x} == a + (b - {x});
      SumUnion(c, plays, a, b - {x});
    } else {
      assert forall x :: x in a + b <==> x in a;
      assert a + b == a;
    }
  }

  lemma {:induction false} SumSame(c: Tree, d: Tree, plays: seq<Play>, a: set<int>)
    requires a <= c.Keys && a <= d.Keys
    requires forall i :: i in a ==> Tok(c[i], plays) == Tok(d[i], plays)
    ensures SumTok(c, plays, a) == SumTok(d, plays, a)
    decreases a
  {
    if x :| x in a {
      SumRemove(c, plays, a, x);
      SumRemove(d, plays, a, x);
      SumSame(c, d, plays, a - {x});
    }
  }

  /** The live segments of tier t. */
  ghost function AtTier(c: Tree, t: nat): set<int> {
    set i | i in c && c[i].tier == t
  }

  ghost function TierTok(c: Tree, plays: seq<Play>, t: nat): nat {
    SumTok(c, plays, AtTier(c, t))
  }

  lemma {:induction false} SumMonotone(c: Tree, plays: seq<Play>, a: set<int>, b: set<int>)
    requires a <= b <= c.Keys
    ensures SumTok(c, plays, a) <= SumTok(c, plays, b)
  {
    SumUnion(c, plays, a, b - a);
    assert a + (b - a) == b;
  }

  // ---- eviction ----

  /** What the engine's `evictable` scan decides. */
  ghost predicate Evictable(c: Tree, i: int)
    requires i in c
  {
    && c[i].pins <= 0
    && c[i].parent != -1
    && (forall k :: k in c[i].kids && k in c ==> c[k].tier > c[i].tier)
  }

  /** The segments of tier t that no eviction may move: pinned, or above a pinned segment of the same tier. */
  ghost function Locked(c: Tree, t: nat): set<int>
    requires Shape(c)
  {
    set i | i in c && c[i].tier == t && LockedBy(c, t, i)
  }

  ghost predicate LockedBy(c: Tree, t: nat, i: int)
    requires Shape(c)
  {
    exists j :: j in c && c[j].tier == t && c[j].pins > 0 && Anc(c, i, j)
  }

  ghost function LockedTok(c: Tree, plays: seq<Play>, t: nat): nat
    requires Shape(c)
  {
    SumTok(c, plays, Locked(c, t))
  }

  lemma {:induction false} TierAlongPath(c: Tree, i: int, j: int)
    requires Shape(c) && Tiers(c) && j in c && Anc(c, i, j)
    ensures i in c && c[i].tier <= c[j].tier
    decreases Height(c[j])
  {
    if i != j {
      TierAlongPath(c, i, c[j].parent);
    }
  }

  /** Nothing below an evictable segment is pinned, and everything below it is in a slower tier. */
  lemma {:induction false} EvictableSubtree(c: Tree, i: int, j: int)
    requires Shape(c) && Tiers(c) && Pinning(c)
    requires i in c && Evictable(c, i) && j in c && Anc(c, i, j)
    ensures c[j].pins == 0
    ensures j != i ==> c[j].tier > c[i].tier
    decreases Height(c[j])
  {
    if j != i {
      var k := AncThroughKid(c, i, j);
      TierAlongPath(c, k, j);
      EvictableSubtree(c, i, c[j].parent);
    }
  }

  /** With nothing evictable in tier t, all of tier t is locked. */
  lemma {:induction false} StuckIsLocked(c: Tree, t: nat, i: int)
    requires Shape(c) && Tiers(c) && Pinning(c)
    requires forall x :: x in c && c[x].tier == t ==> !Evictable(c, x)
    requires i in c && c[i].tier == t
    ensures LockedBy(c, t, i)
    decreases Desc(c, i)
  {
    if c[i].pins > 0 {
      assert Anc(c, i, i);
    } else {
      var k :| k in c[i].kids && k in c && c[k].tier <= t;
      DescSplit(c, i);
      assert ChildOk(c, k);
      StuckIsLocked(c, t, k);
      var j :| j in c && c[j].tier == t && c[j].pins > 0 && Anc(c, k, j);
      assert Anc(c, i, i) && Anc(c, i, k);
      AncTrans(c, i, k, j);
    }
  }

  /** d is c after room was made in tier t: slower tiers lost segments or received demoted ones;
      pinned segments and faster tiers kept everything. */
  ghost predicate Sheds(c: Tree, d: Tree, t: nat) {
    && d.Keys <= c.Keys
    && (forall i :: i in d ==> Kept(c[i], d[i]))
    && (forall i :: i in c && (c[i].tier < t || c[i].pins > 0) ==> i in d && d[i].tier == c[i].tier)
  }

  ghost predicate Kept(m: Seg, n: Seg) {
    && n == m.(kids := n.kids, tier := n.tier)
    && n.tier >= m.tier
    && (forall k :: k in n.kids ==> k in m.kids)
  }

  lemma {:induction false} ShedsAnc(c: Tree, d: Tree, t: nat, i: int, j: int)
    requires Shape(c) && Shape(d) && Sheds(c, d, t) && j in d
    ensures Anc(c, i, j) <==> Anc(d, i, j)
    decreases Height(d[j])
  {
    if i != j && d[j].parent != -1 {
      assert ChildOk(d, j);
      ShedsAnc(c, d, t, i, d[j].parent);
    }
  }

  lemma ShedsSelf(c: Tree)
    ensures Sheds(c, c, 0)
  {
  }

  lemma ShedsLocked(c: Tree, d: Tree, plays: seq<Play>, t: nat)
    requires Shape(c) && Tiers(c) && Shape(d) && Tiers(d) && Sheds(c, d, t)
    ensures Locked(d, t) == Locked(c, t)
    ensures LockedTok(d, plays, t) == LockedTok(c, plays, t)
  {
    forall i | i in Locked(c, t)
      ensures i in Locked(d, t)
    {
      var j :| j in c && c[j].tier == t && c[j].pins > 0 && Anc(c, i, j);
      ShedsAnc(c, d, t, i, j);
      TierAlongPath(d, i, j);
    }
    forall i | i in Locked(d, t)
      ensures i in Locked(c, t)
    {
      var j :| j in d && d[j].tier == t && d[j].pins > 0 && Anc(d, i, j);
      ShedsAnc(c, d, t, i, j);
    }
    SumSame(c, d, plays, Locked(c, t));
  }

  lemma ShedsTrans(a: Tree, b: Tree, c: Tree, t: nat, u: nat)
    requires Sheds(a, b, t) && Sheds(b, c, u) && t <= u
    ensures Sheds(a, c, t)
  {
    forall i | i in c
      ensures Kept(a[i], c[i])
    {
      assert Kept(a[i], b[i]) && Kept(b[i], c[i]);
    }
  }

  /** `ensure_free` decided exactly: the room a tier can make is all that is not locked. */
  ghost predicate CanFree(c: Tree, plays: seq<Play>, t: nat, off: int, need: int, cap: int)
    requires Shape(c)
  {
    need + off + LockedTok(c, plays, t) <= cap
  }

  lemma FreeMeansCanFree(c: Tree, plays: seq<Play>, t: nat, off: int, need: int, cap: int)
    requires Inv(c, plays)
    requires off + TierTok(c, plays, t) + need <= cap
    ensures CanFree(c, plays, t, off, need, cap)
  {
    SumMonotone(c, plays, Locked(c, t), AtTier(c, t));
  }

  lemma StuckMeansCannotFree(c: Tree, plays: seq<Play>, t: nat, off: int, need: int, cap: int)
    requires Inv(c, plays)
    requires forall x :: x in c && c[x].tier == t ==> !Evictable(c, x)
    requires off + TierTok(c, plays, t) + need > cap
    ensures !CanFree(c, plays, t, off, need, cap)
  {
    forall i | i in AtTier(c, t)
      ensures i in Locked(c, t)
    {
      StuckIsLocked(c, t, i);
    }
    assert AtTier(c, t) == Locked(c, t);
  }

  // ---- updates ----

  ghost function Without(s: seq<int>, x: int): (r: seq<int>)
    ensures x !in s ==> r == s
    ensures forall y :: y in r ==> y in s
    ensures forall y :: y in s && y != x ==> y in r
    decreases |s|
  {
    if s == [] then []
    else if s[0] == x then s[1..]
    else
      assert s == [s[0]] + s[1..];
      [s[0]] + Without(s[1..], x)
  }

  /** A segment and everything below it leave the tree. */
  ghost function Remove(c: Tree, i: int): Tree
    requires Shape(c) && i in c
  {
    var gone := Desc(c, i);
    map j | j in c && j !in gone :: if j == c[i].parent then c[j].(kids := Without(c[j].kids, i)) else c[j]
  }

  ghost function AddPins(c: Tree, i: int, d: int): Tree
    requires i in c
  {
    c[i := c[i].(pins := c[i].pins + d)]
  }

  ghost function SetTier(c: Tree, i: int, t: nat): Tree
    requires i in c
  {
    c[i := c[i].(tier := t)]
  }

  /** A new segment enters at the front of its parent's child list. */
  ghost function LinkFront(c: Tree, p: int, i: int, n: Seg): Tree
    requires p in c
  {
    c[p := c[p].(kids := [i] + c[p].kids)][i := n]
  }

  /** Segments refreshed by an access to id: upwards until one that is already fresh. */
  ghost function TouchSet(c: Tree, id: int, now: real): (s: set<int>)
    requires Shape(c) && id in c
    ensures s <= c.Keys
    ensures forall i :: i in s ==> Anc(c, i, id) && c[i].lastAccess < now
    decreases Height(c[id])
  {
    if c[id].lastAccess >= now then {}
    else if c[id].parent == -1 then {id}
    else {id} + TouchSet(c, c[id].parent, now)
  }

  ghost function Touch(c: Tree, id: int, now: real): Tree
    requires Shape(c) && id in c
  {
    Stamp(c, TouchSet(c, id, now), now)
  }

  ghost function Stamp(c: Tree, s: set<int>, now: real): Tree {
    map i | i in c :: if i in s then c[i].(lastAccess := now) else c[i]
  }

  /** i is on the path to id, and everything on it from i down was used before now. */
  ghost predicate Stale(c: Tree, i: int, id: int, now: real)
    requires Shape(c) && id in c
  {
    Anc(c, i, id) && forall j :: j in c && Anc(c, i, j) && Anc(c, j, id) ==> c[j].lastAccess < now
  }

  lemma {:induction false} TouchedAt(c: Tree, id: int, now: real, i: int)
    requires Shape(c) && id in c
    ensures i in TouchSet(c, id, now) <==> Stale(c, i, id, now)
    decreases Height(c[id])
  {
    if c[id].lastAccess < now && c[id].parent != -1 {
      var p := c[id].parent;
      TouchedAt(c, p, now, i);
      forall j | j in c && Anc(c, j, id) && Anc(c, i, j) && i == id
        ensures j == id
      {
        AncIn(c, j, id);
        AncIn(c, i, j);
      }
      if i != id && Stale(c, i, p, now) {
        forall j | j in c && Anc(c, i, j) && Anc(c, j, id)
          ensures c[j].lastAccess < now
        {
          assert j == id || Anc(c, j, p);
        }
      } else if i != id && Stale(c, i, id, now) {
        forall j | j in c && Anc(c, i, j) && Anc(c, j, p)
          ensures c[j].lastAccess < now
        {
          assert Anc(c, j, id);
        }
      }
    } else if Anc(c, i, id) {
      assert Anc(c, id, id);
    }
  }

  /** An access sets the time of use of the stale end of the path and changes nothing else. */
  lemma TouchIs(c: Tree, id: int, now: real)
    requires Shape(c) && id in c
    ensures Touch(c, id, now).Keys == c.Keys
    ensures forall i :: i in c ==>
      Touch(c, id, now)[i] == c[i].(lastAccess := if Stale(c, i, id, now) then now else c[i].lastAccess)
  {
    hide Stale, TouchSet;
    forall i | i in c
      ensures i in TouchSet(c, id, now) <==> Stale(c, i, id, now)
    {
      TouchedAt(c, id, now, i);
    }
  }

  /** The first `off` blocks of a segment become its new parent. */
  ghost function Split(c: Tree, id: int, up: int, off: nat): Tree
    requires id in c && 0 < off < c[id].nblocks && c[id].parent in c && id in c[c[id].parent].kids
  {
    var lo := c[id];
    var p := lo.parent;
    c[p := c[p].(kids := Renamed(c[p].kids, id, up))]
     [up := lo.(kids := [id], nblocks := off, tail := 0, pins := 0)]
     [id := lo.(parent := up, start := lo.start + off, nblocks := lo.nblocks - off)]
  }

  ghost function Renamed(s: seq<int>, x: int, y: int): (r: seq<int>) {
    seq(|s|, j requires 0 <= j < |s| => if s[j] == x then y else s[j])
  }

  lemma {:induction false} WithoutNoDup(s: seq<int>, x: int)
    requires NoDup(s)
    ensures NoDup(Without(s, x)) && x !in Without(s, x)
    decreases |s|
  {
    if s != [] && s[0] != x {
      WithoutNoDup(s[1..], x);
      assert s[0] !in s[1..];
    }
  }

  // ---- updates keep the invariant ----

  /** e differs from c at most in tiers, pins and access times. */
  ghost predicate SameShape(c: Tree, e: Tree) {
    && e.Keys == c.Keys
    && (forall i {:trigger e[i]} :: i in c ==>
          e[i] == c[i].(tier := e[i].tier, pins := e[i].pins, lastAccess := e[i].lastAccess))
  }

  lemma SameShapeShape(c: Tree, e: Tree)
    requires Shape(c) && SameShape(c, e)
    ensures Shape(e)
  {
  }

  lemma SameShapeSlices(c: Tree, e: Tree, plays: seq<Play>)
    requires Slices(c, plays) && SameShape(c, e)
    ensures Slices(e, plays)
  {
  }

  lemma SameTiers(c: Tree, e: Tree)
    requires Tiers(c) && SameShape(c, e) && forall i {:trigger e[i].tier} :: i in c ==> e[i].tier == c[i].tier
    ensures Tiers(e)
  {
  }

  lemma SamePinning(c: Tree, e: Tree)
    requires Pinning(c) && SameShape(c, e) && forall i {:trigger e[i].pins} :: i in c ==> e[i].pins == c[i].pins
    requires forall i {:trigger e[i].tier} :: i in c && c[i].pins > 0 ==> e[i].tier == c[i].tier
    ensures Pinning(e)
  {
    forall i | i in e
      ensures PinOk(e, i)
    {
      assert PinOk(c, i) && e[i].pins == c[i].pins && e[i].parent == c[i].parent;
      if c[i].pins > 0 { assert e[i].tier == c[i].tier; }
      if c[i].parent in c { assert e[c[i].parent].pins == c[c[i].parent].pins; }
    }
  }

  lemma AddPinsPinning(c: Tree, i: int, d: int)
    requires Shape(c) && Pinning(c) && i in c
    requires c[i].pins + d >= (if c[i].parent == -1 then 1 else 0)
    requires c[i].pins + d == 0 ==> forall k :: k in c[i].kids ==> c[k].pins <= 0 || c[k].tier == 0
    requires d > 0 && c[i].tier > 0 && c[i].parent in c ==> c[c[i].parent].pins > 0
    ensures Pinning(AddPins(c, i, d))
  {
    var e := AddPins(c, i, d);
    forall j | j in e
      ensures PinOk(e, j)
    {
      assert PinOk(c, j) && e[j].tier == c[j].tier && e[j].parent == c[j].parent;
      if c[j].parent != -1 { assert ChildOk(c, j); }
    }
  }

  lemma AddPinsInv(c: Tree, plays: seq<Play>, i: int, d: int)
    requires Inv(c, plays) && i in c
    requires c[i].pins + d >= (if c[i].parent == -1 then 1 else 0)
    requires c[i].pins + d == 0 ==> forall k :: k in c[i].kids ==> c[k].pins <= 0 || c[k].tier == 0
    requires d > 0 && c[i].tier > 0 && c[i].parent in c ==> c[c[i].parent].pins > 0
    ensures Inv(AddPins(c, i, d), plays)
  {
    var e := AddPins(c, i, d);
    SameShapeShape(c, e);
    SameShapeSlices(c, e, plays);
    SameTiers(c, e);
    AddPinsPinning(c, i, d);
  }

  lemma SetTierTiers(c: Tree, i: int, t: nat)
    requires Shape(c) && Tiers(c) && i in c && c[i].parent != -1
    requires c[i].tier <= t && forall k :: k in c[i].kids ==> c[k].tier >= t
    ensures Tiers(SetTier(c, i, t))
  {
  }

  lemma SetTierInv(c: Tree, plays: seq<Play>, i: int, t: nat)
    requires Inv(c, plays) && i in c && c[i].parent != -1 && c[i].pins == 0
    requires c[i].tier <= t && forall k :: k in c[i].kids ==> c[k].tier >= t
    ensures Inv(SetTier(c, i, t), plays)
  {
    var e := SetTier(c, i, t);
    SameShapeShape(c, e);
    SameShapeSlices(c, e, plays);
    SetTierTiers(c, i, t);
    SamePinning(c, e);
  }

  lemma StampInv(c: Tree, plays: seq<Play>, s: set<int>, now: real)
    requires Inv(c, plays)
    ensures Inv(Stamp(c, s, now), plays)
  {
    var e := Stamp(c, s, now);
    SameShapeShape(c, e);
    SameShapeSlices(c, e, plays);
    SameTiers(c, e);
    SamePinning(c, e);
  }

  lemma {:induction false} RemoveAnc(c: Tree, i: int, k: int, j: int)
    requires Shape(c) && i in c && j in c && j !in Desc(c, i)
    requires Shape(Remove(c, i))
    ensures Anc(Remove(c, i), k, j) <==> Anc(c, k, j)
    decreases Height(c[j])
  {
    if k != j && c[j].parent != -1 {
      RemoveAnc(c, i, k, c[j].parent);
    }
  }

  lemma DescClosed(c: Tree, i: int, j: int)
    requires Shape(c) && j in c && c[j].parent in Desc(c, i)
    ensures j in Desc(c, i)
  {
  }

  lemma RemoveShape(c: Tree, i: int)
    requires Shape(c) && i in c && c[i].parent != -1
    ensures Shape(Remove(c, i))
  {
    var d := Remove(c, i);
    forall j {:trigger d[j].kids} | j in d
      ensures NoDup(d[j].kids)
    {
      WithoutNoDup(c[j].kids, i);
    }
    forall j {:trigger d[j].parent} | j in d && d[j].parent != -1
      ensures ChildOk(d, j)
    {
      assert ChildOk(c, j);
      if c[j].parent in Desc(c, i) {
        DescClosed(c, i, j);
      }
    }
    forall j, k {:trigger k in d[j].kids} | j in d && k in d[j].kids
      ensures k in d && d[k].parent == j
    {
      assert k in c[j].kids;
      WithoutNoDup(c[j].kids, i);
    }
  }

  lemma RemoveInv(c: Tree, plays: seq<Play>, i: int)
    requires Inv(c, plays) && i in c && c[i].parent != -1
    ensures Inv(Remove(c, i), plays)
  {
    RemoveShape(c, i);
    assert Slices(Remove(c, i), plays);
    RemoveTiers(c, i);
  }

  lemma RemoveTiers(c: Tree, i: int)
    requires Shape(c) && Tiers(c) && Pinning(c) && i in c && c[i].parent != -1
    ensures Tiers(Remove(c, i)) && Pinning(Remove(c, i))
  {
  }

  lemma LinkFrontShape(c: Tree, p: int, i: int, n: Seg)
    requires Shape(c) && p in c && i !in c && i >= 0
    requires c[p].parent != -1 ==> c[p].nblocks > 0
    requires n.parent == p && n.kids == [] && n.play == c[p].play && n.start == c[p].start + c[p].nblocks
    ensures Shape(LinkFront(c, p, i, n))
  {
    var e := LinkFront(c, p, i, n);
    assert i !in c[p].kids;
    assert NoDup(e[p].kids);
    forall j {:trigger e[j].parent} | j in e && e[j].parent != -1
      ensures ChildOk(e, j)
    {
      if j != i {
        assert ChildOk(c, j);
      }
    }
  }

  lemma LinkFrontTiers(c: Tree, p: int, i: int, n: Seg)
    requires Shape(c) && Tiers(c) && Pinning(c) && p in c && i !in c && i >= 0
    requires n.parent == p && n.tier == c[p].tier && n.pins >= 0 && (n.pins > 0 && n.tier > 0 ==> c[p].pins > 0)
    ensures Tiers(LinkFront(c, p, i, n)) && Pinning(LinkFront(c, p, i, n))
  {
    var e := LinkFront(c, p, i, n);
    forall j | j in e
      ensures TierOk(e, j)
      ensures PinOk(e, j)
    {
      if j != i {
        assert e[j].parent == c[j].parent && TierOk(c, j) && PinOk(c, j);
      }
    }
  }

  lemma LinkFrontInv(c: Tree, plays: seq<Play>, p: int, i: int, n: Seg)
    requires Inv(c, plays) && p in c && i !in c && i >= 0
    requires c[p].parent != -1 ==> c[p].nblocks > 0
    requires n.parent == p && n.kids == [] && n.play == c[p].play && n.start == c[p].start + c[p].nblocks
    requires n.tier == c[p].tier && n.pins >= 0 && (n.pins > 0 && n.tier > 0 ==> c[p].pins > 0) && SliceOk(n, plays)
    ensures Inv(LinkFront(c, p, i, n), plays)
  {
    LinkFrontShape(c, p, i, n);
    LinkFrontTiers(c, p, i, n);
    assert Slices(LinkFront(c, p, i, n), plays);
  }

  lemma RenamedNoDup(s: seq<int>, x: int, y: int)
    requires NoDup(s) && y !in s
    ensures NoDup(Renamed(s, x, y))
    ensures forall z :: z in Renamed(s, x, y) ==> z == y || (z in s && z != x)
    ensures forall z :: z in s && z != x ==> z in Renamed(s, x, y)
    ensures x in s ==> y in Renamed(s, x, y)
  {
    var r := Renamed(s, x, y);
    forall z | z in s
      ensures (if z == x then y else z) in r
    {
      var k :| 0 <= k < |s| && s[k] == z;
      assert r[k] == if z == x then y else z;
    }
  }

  lemma SplitNoDup(c: Tree, id: int, up: int, off: nat, j: int)
    requires Shape(c) && id in c && c[id].parent != -1 && 0 < off < c[id].nblocks && up !in c && up >= 0
    requires j in Split(c, id, up, off)
    ensures NoDup(Split(c, id, up, off)[j].kids)
  {
    var p := c[id].parent;
    assert up !in c[p].kids;
    RenamedNoDup(c[p].kids, id, up);
  }

  lemma SplitParents(c: Tree, id: int, up: int, off: nat, j: int)
    requires Shape(c) && id in c && c[id].parent != -1 && 0 < off < c[id].nblocks && up !in c && up >= 0
    requires j in Split(c, id, up, off) && Split(c, id, up, off)[j].parent != -1
    ensures ChildOk(Split(c, id, up, off), j)
  {
    var p := c[id].parent;
    assert up !in c[p].kids;
    RenamedNoDup(c[p].kids, id, up);
    assert ChildOk(c, id);
    if j != up && j != id {
      assert ChildOk(c, j);
    }
  }

  lemma SplitKids(c: Tree, id: int, up: int, off: nat, j: int, k: int)
    requires Shape(c) && id in c && c[id].parent != -1 && 0 < off < c[id].nblocks && up !in c && up >= 0
    requires j in Split(c, id, up, off) && k in Split(c, id, up, off)[j].kids
    ensures k in Split(c, id, up, off) && Split(c, id, up, off)[k].parent == j
  {
    var p := c[id].parent;
    assert up !in c[p].kids;
    RenamedNoDup(c[p].kids, id, up);
    if j != up && j != p {
      assert k in c[j].kids;
    }
  }

  lemma SplitShape(c: Tree, id: int, up: int, off: nat)
    requires Shape(c) && id in c && c[id].parent != -1 && 0 < off < c[id].nblocks && up !in c && up >= 0
    ensures Shape(Split(c, id, up, off))
  {
    hide NoDup, Renamed;
    var e := Split(c, id, up, off);
    forall j {:trigger e[j].kids} | j in e
      ensures NoDup(e[j].kids)
    {
      SplitNoDup(c, id, up, off, j);
    }
    forall j | j in e && e[j].parent != -1
      ensures ChildOk(e, j)
    {
      SplitParents(c, id, up, off, j);
    }
    forall j, k {:trigger k in e[j].kids} | j in e && k in e[j].kids
      ensures k in e && e[k].parent == j
    {
      SplitKids(c, id, up, off, j, k);
    }
  }

  lemma SplitTiers(c: Tree, id: int, up: int, off: nat)
    requires Shape(c) && Tiers(c) && Pinning(c)
    requires id in c && c[id].parent != -1 && 0 < off < c[id].nblocks && up !in c && up >= 0
    requires c[id].tier == 0
    ensures Tiers(Split(c, id, up, off)) && Pinning(Split(c, id, up, off))
  {
    var e := Split(c, id, up, off);
    forall j | j in e
      ensures TierOk(e, j)
      ensures PinOk(e, j)
    {
      if j != up && j != id {
        assert e[j].parent == c[j].parent && TierOk(c, j) && PinOk(c, j);
      }
    }
  }

  lemma SplitInv(c: Tree, plays: seq<Play>, id: int, up: int, off: nat)
    requires Inv(c, plays) && id in c && c[id].parent != -1 && 0 < off < c[id].nblocks && up !in c && up >= 0
    requires c[id].tier == 0
    ensures ChildOk(c, id)
    ensures Inv(Split(c, id, up, off), plays)
  {
    hide Split, Slices, Tiers, Pinning, NoDup;
    SplitShape(c, id, up, off);
    SplitTiers(c, id, up, off);
    SplitSlices(c, plays, id, up, off);
  }

  lemma SplitSlices(c: Tree, plays: seq<Play>, id: int, up: int, off: nat)
    requires Slices(c, plays) && id in c && 0 < off < c[id].nblocks && c[id].parent in c
    requires id in c[c[id].parent].kids
    ensures Slices(Split(c, id, up, off), plays)
  {
    var e := Split(c, id, up, off);
    forall j | j in e
      ensures SliceOk(e[j], plays)
    {
      assert SliceOk(if j == up then c[id] else c[j], plays);
    }
  }

  // ---- updates and token sums ----

  lemma SameTierTok(c: Tree, e: Tree, plays: seq<Play>, t: nat)
    requires SameShape(c, e) && forall i {:trigger e[i].tier} :: i in c ==> e[i].tier == c[i].tier
    ensures TierTok(e, plays, t) == TierTok(c, plays, t)
  {
    forall i | i in c
      ensures i in AtTier(e, t) <==> i in AtTier(c, t)
    {
      assert e[i].tier == c[i].tier;
    }
    assert AtTier(e, t) == AtTier(c, t);
    SumSame(c, e, plays, AtTier(c, t));
  }

  lemma SetTierTok(c: Tree, plays: seq<Play>, i: int, u: nat, t: nat)
    requires i in c && c[i].tier != u
    ensures TierTok(SetTier(c, i, u), plays, t) ==
            TierTok(c, plays, t) + (if t == u then Tok(c[i], plays) else 0)
                                 - (if t == c[i].tier then Tok(c[i], plays) else 0)
  {
    var e := SetTier(c, i, u);
    var rest := AtTier(c, t) - {i};
    SumSame(c, e, plays, rest);
    if t == c[i].tier {
      SumRemove(c, plays, AtTier(c, t), i);
      assert AtTier(e, t) == rest;
    } else if t == u {
      assert AtTier(e, t) - {i} == rest;
      SumRemove(e, plays, AtTier(e, t), i);
      assert AtTier(c, t) == rest;
    } else {
      assert AtTier(e, t) == rest == AtTier(c, t);
    }
  }

  lemma RemoveTok(c: Tree, plays: seq<Play>, i: int)
    requires Shape(c) && i in c
    ensures forall t: nat ::
      TierTok(Remove(c, i), plays, t) == TierTok(c - Desc(c, i), plays, t) <= TierTok(c, plays, t)
  {
    var d, e := Remove(c, i), c - Desc(c, i);
    forall t: nat
      ensures TierTok(d, plays, t) == TierTok(e, plays, t) <= TierTok(c, plays, t)
    {
      assert AtTier(d, t) == AtTier(e, t);
      SumSame(d, e, plays, AtTier(d, t));
      SumSame(e, c, plays, AtTier(e, t));
      SumMonotone(c, plays, AtTier(e, t), AtTier(c, t));
    }
  }

  lemma LinkFrontTok(c: Tree, plays: seq<Play>, p: int, i: int, n: Seg, t: nat)
    requires p in c && i !in c && p != i
    ensures TierTok(LinkFront(c, p, i, n), plays, t) ==
      TierTok(c, plays, t) + (if t == n.tier then Tok(n, plays) else 0)
  {
    var e := LinkFront(c, p, i, n);
    SumSame(c, e, plays, AtTier(c, t));
    if t == n.tier {
      assert AtTier(e, t) - {i} == AtTier(c, t);
      SumRemove(e, plays, AtTier(e, t), i);
    } else {
      assert AtTier(e, t) == AtTier(c, t);
    }
  }

  lemma SplitTok(c: Tree, plays: seq<Play>, id: int, up: int, off: nat, t: nat)
    requires id in c && 0 < off < c[id].nblocks && c[id].parent in c && id in c[c[id].parent].kids
    requires up !in c && c[id].parent != id
    ensures TierTok(Split(c, id, up, off), plays, t) == TierTok(c, plays, t)
  {
    hide SumTok, Renamed;
    var e := Split(c, id, up, off);
    var rest := AtTier(c, t) - {id};
    SumSame(c, e, plays, rest);
    if t == c[id].tier {
      SumRemove(c, plays, AtTier(c, t), id);
      SumRemove(e, plays, AtTier(e, t), id);
      SumRemove(e, plays, AtTier(e, t) - {id}, up);
      assert AtTier(e, t) - {id} - {up} == rest;
      SplitTokens(c[id], plays, off);
    } else {
      assert AtTier(e, t) == rest == AtTier(c, t);
    }
  }

  /** The two halves of a split hold the tokens of the whole. */
  lemma SplitTokens(n: Seg, plays: seq<Play>, off: nat)
    requires off <= n.nblocks
    ensures Tok(n.(nblocks := off, tail := 0), plays) + Tok(n.(nblocks := n.nblocks - off), plays) == Tok(n, plays)
  {
    if n.play < |plays| {
      var b := plays[n.play].blockSize;
      assert off * b + (n.nblocks - off) * b == n.nblocks * b;
    }
  }

  lemma StampOne(c: Tree, i: int, now: real)
    requires i in c
    ensures Stamp(c, {i}, now) == c[i := c[i].(lastAccess := now)]
    ensures SameShape(c, Stamp(c, {i}, now))
  {
  }

  lemma EvictableStamp(c: Tree, s: set<int>, now: real, i: int)
    requires i in c
    ensures Evictable(Stamp(c, s, now), i) <==> Evictable(c, i)
  {
  }

  lemma KidsLive(c: Tree, i: int)
    requires Shape(c) && i in c
    ensures forall k :: k in c[i].kids ==> k in c && c[k].parent == i && k >= 0
  {
  }

  lemma ParentAt(c: Tree, i: int)
    requires Shape(c) && i in c
    ensures i >= 0
    ensures c[i].parent != -1 ==>
      c[i].parent in c && i in c[c[i].parent].kids && Height(c[c[i].parent]) < Height(c[i]) &&
      c[c[i].parent].play == c[i].play
  {
  }

  lemma {:induction false} WithoutAt(s: seq<int>, x: int, j: int)
    requires NoDup(s) && 0 <= j < |s| && s[j] == x
    ensures Without(s, x) == s[..j] + s[j + 1..]
    decreases |s|
  {
    if j > 0 {
      assert s[0] != s[j];
      WithoutAt(s[1..], x, j - 1);
      assert s[1..][..j - 1] == s[1..j];
      assert s[..j] == [s[0]] + s[1..j];
    }
  }

  lemma KidsOutside(c: Tree, id: int, q: int)
    requires Shape(c) && id in c && q in c && q !in Desc(c, id)
    ensures forall k :: k in c[q].kids && k != id ==> k in c && k !in Desc(c, id)
  {
  }

  lemma KidsNoDup(c: Tree, i: int)
    requires Shape(c) && i in c
    ensures NoDup(c[i].kids)
  {
  }

  lemma SumNone(c: Tree, plays: seq<Play>, a: set<int>)
    requires forall j :: j !in a
    ensures SumTok(c, plays, a) == 0
  {
  }

  /** The descendants of id below its first m children. */
  ghost function Below(c: Tree, id: int, m: nat): set<int>
    requires Shape(c) && id in c && m <= |c[id].kids|
  {
    set j | j in Desc(c, id) && BelowOne(c, id, m, j)
  }

  ghost predicate BelowOne(c: Tree, id: int, m: nat, j: int)
    requires Shape(c) && id in c && m <= |c[id].kids|
  {
    exists k :: 0 <= k < m && j in Desc(c, c[id].kids[k])
  }

  lemma BelowStep(c: Tree, id: int, m: nat)
    requires Shape(c) && id in c && m < |c[id].kids|
    ensures Below(c, id, m + 1) == Below(c, id, m) + Desc(c, c[id].kids[m])
    ensures Below(c, id, m) !! Desc(c, c[id].kids[m])
    ensures id !in Below(c, id, m) && c[id].kids[m] in Desc(c, id) && Desc(c, c[id].kids[m]) < Desc(c, id)
  {
    var kids := c[id].kids;
    DescSplit(c, id);
    KidsNoDup(c, id);
    KidsLive(c, id);
    assert kids[m] in kids;
    forall j | j in Below(c, id, m)
      ensures j !in Desc(c, kids[m]) && j != id
    {
      var k :| 0 <= k < m && j in Desc(c, kids[k]);
      assert kids[k] in kids;
      SiblingsDisjoint(c, kids[k], kids[m]);
    }
    forall j | j in Below(c, id, m + 1)
      ensures j in Below(c, id, m) || j in Desc(c, kids[m])
    {
      var k :| 0 <= k < m + 1 && j in Desc(c, kids[k]);
    }
  }

  lemma BelowAll(c: Tree, id: int)
    requires Shape(c) && id in c
    ensures Below(c, id, |c[id].kids|) + {id} == Desc(c, id) && id !in Below(c, id, |c[id].kids|)
  {
    var kids := c[id].kids;
    forall j | j in Desc(c, id) && j != id
      ensures BelowOne(c, id, |kids|, j)
    {
      var k := AncThroughKid(c, id, j);
      var q :| 0 <= q < |kids| && kids[q] == k;
      assert j in Desc(c, kids[q]);
    }
    assert id in Desc(c, id);
    DescSplit(c, id);
  }

  /** Dropping one segment takes its tokens off its tier. */
  lemma DropTok(c: Tree, plays: seq<Play>, i: int)
    requires i in c
    ensures forall t: nat ::
      TierTok(c - {i}, plays, t) == TierTok(c, plays, t) - (if t == c[i].tier then Tok(c[i], plays) else 0)
  {
    var d := c - {i};
    forall t: nat
      ensures TierTok(d, plays, t) == TierTok(c, plays, t) - (if t == c[i].tier then Tok(c[i], plays) else 0)
    {
      if t == c[i].tier {
        SumRemove(c, plays, AtTier(c, t), i);
        assert AtTier(d, t) == AtTier(c, t) - {i};
      } else {
        assert AtTier(d, t) == AtTier(c, t);
      }
      SumSame(c, d, plays, AtTier(d, t));
    }
  }

  lemma MinusMinus(c: Tree, a: set<int>, b: set<int>)
    ensures c - a - b == c - (a + b)
  {
    var l, r := c - a - b, c - (a + b);
    assert forall i :: i in l <==> i in r;
    assert forall i :: i in l ==> l[i] == r[i];
  }

  lemma BelowNone(c: Tree, id: int)
    requires Shape(c) && id in c
    ensures Below(c, id, 0) == {}
  {
  }

  lemma DescSub(c: Tree, i: int, j: int)
    requires Shape(c) && i in c && j in Desc(c, i)
    ensures Desc(c, j) <= Desc(c, i)
  {
    forall k | k in Desc(c, j)
      ensures k in Desc(c, i)
    {
      AncTrans(c, i, j, k);
    }
  }

  lemma ParentOutside(c: Tree, i: int)
    requires Shape(c) && i in c && c[i].parent != -1
    ensures c[i].parent in c && c[i].parent !in Desc(c, i)
  {
    if c[i].parent in Desc(c, i) {
      AncIn(c, i, c[i].parent);
    }
  }

  // ---- making room keeps the rest ----

  lemma ShedsRefl(c: Tree, t: nat)
    ensures Sheds(c, c, t)
  {
  }

  lemma ShedsEvictable(c: Tree, d: Tree, t: nat, w: int)
    requires Shape(c) && Sheds(c, d, t) && w in d && d[w].tier == c[w].tier && Evictable(c, w)
    ensures Evictable(d, w)
  {
    assert Kept(c[w], d[w]);
    forall k | k in d[w].kids && k in d
      ensures d[k].tier > d[w].tier
    {
      assert k in c[w].kids && Kept(c[k], d[k]);
    }
  }

  lemma DemoteSheds(c: Tree, i: int)
    requires i in c && c[i].pins == 0
    ensures Sheds(c, SetTier(c, i, c[i].tier + 1), c[i].tier)
    ensures i in SetTier(c, i, c[i].tier + 1) && SetTier(c, i, c[i].tier + 1)[i].tier == c[i].tier + 1
    ensures forall j :: j in c && j != i && c[j].tier == c[i].tier ==>
      j in SetTier(c, i, c[i].tier + 1) && SetTier(c, i, c[i].tier + 1)[j].tier == c[i].tier
  {
  }

  lemma RemoveSheds(c: Tree, plays: seq<Play>, i: int)
    requires Inv(c, plays) && i in c && Evictable(c, i)
    ensures Sheds(c, Remove(c, i), c[i].tier) && i !in Remove(c, i)
    ensures forall j :: j in c && j != i && c[j].tier == c[i].tier ==>
      j in Remove(c, i) && Remove(c, i)[j].tier == c[i].tier
  {
    var d := Remove(c, i);
    forall j | j in c && j in Desc(c, i)
      ensures c[j].pins == 0 && c[j].tier >= c[i].tier && (j != i ==> c[j].tier > c[i].tier)
    {
      EvictableSubtree(c, i, j);
    }
    forall j | j in d
      ensures Kept(c[j], d[j])
    {
    }
    assert Anc(c, i, i);
  }

  lemma EvictableKids(c: Tree, i: int)
    requires Shape(c) && Pinning(c) && i in c && Evictable(c, i)
    ensures c[i].parent != -1 && c[i].pins == 0
    ensures forall k :: k in c[i].kids ==> k in c && c[k].tier >= c[i].tier + 1
  {
  }

  // ---- LRU keys ----

  predicate KeyLe(a: (real, int), b: (real, int)) {
    a.0 < b.0 || (a.0 == b.0 && a.1 <= b.1)
  }

  lemma Inhabited<T>(s: set<T>)
    requires s != {}
    ensures exists x :: x in s
  {
    if forall x :: x !in s {
      EmptyIfNone(s);
    }
  }

  lemma EmptyIfNone<T>(s: set<T>)
    requires forall x :: x !in s
    ensures s == {}
  {
    assert forall x :: x in s <==> x in {};
  }

  ghost predicate LeastIn(s: set<(real, int)>, e: (real, int)) {
    e in s && forall x :: x in s ==> KeyLe(e, x)
  }

  lemma LeastWith(s: set<(real, int)>, y: (real, int), e: (real, int))
    requires y in s && LeastIn(s - {y}, e)
    ensures LeastIn(s, if KeyLe(e, y) then e else y)
  {
    forall x | x in s
      ensures KeyLe(if KeyLe(e, y) then e else y, x)
    {
      assert x == y || x in s - {y};
    }
  }

  lemma LeastAlone(s: set<(real, int)>, y: (real, int))
    requires y in s && s - {y} == {}
    ensures LeastIn(s, y)
  {
    forall x | x in s
      ensures x == y
    {
      assert x == y || x in s - {y};
    }
  }

  lemma {:induction false} LeastExists(s: set<(real, int)>)
    requires s != {}
    ensures exists e :: e in s && forall x :: x in s ==> KeyLe(e, x)
    decreases s
  {
    hide KeyLe;
    Inhabited(s);
    var y :| y in s;
    if s - {y} != {} {
      LeastExists(s - {y});
      var e :| e in s - {y} && forall x :: x in s - {y} ==> KeyLe(e, x);
      LeastWith(s, y, e);
    } else {
      LeastAlone(s, y);
    }
  }

  /** Whatever left tier t was used no later than every evictable segment that stayed. */
  ghost predicate OldestFirst(c: Tree, d: Tree, t: nat) {
    forall v, w ::
      v in c && w in c && w in d && LeftTier(c, d, t, v) && !LeftTier(c, d, t, w) && c[w].tier == t && Evictable(c, w)
      ==> c[v].lastAccess < c[w].lastAccess || (c[v].lastAccess == c[w].lastAccess && v <= w)
  }

  ghost predicate LeftTier(c: Tree, d: Tree, t: nat, v: int) {
    v in c && c[v].tier == t && (v !in d || d[v].tier != t)
  }

  function Key(c: Tree, v: int): (real, int)
    requires v in c
  {
    (c[v].lastAccess, v)
  }

  lemma OldestStep(c0: Tree, c1: Tree, c2: Tree, t: nat, victim: (real, int))
    requires Shape(c0) && Sheds(c0, c1, t) && Sheds(c1, c2, t) && OldestFirst(c0, c1, t)
    requires victim.1 in c1 && victim == Key(c1, victim.1)
    requires forall w :: w in c1 && c1[w].tier == t && Evictable(c1, w) ==> KeyLe(victim, Key(c1, w))
    requires forall i :: i in c1 && i != victim.1 && c1[i].tier == t ==> i in c2 && c2[i].tier == t
    ensures OldestFirst(c0, c2, t)
  {
    forall v, w | v in c0 && w in c0 && w in c2 && LeftTier(c0, c2, t, v) && !LeftTier(c0, c2, t, w)
                  && c0[w].tier == t && Evictable(c0, w)
      ensures KeyLe(Key(c0, v), Key(c0, w))
    {
      assert Kept(c0[w], c1[w]) && Kept(c1[w], c2[w]);
      if !LeftTier(c0, c1, t, v) {
        assert Kept(c0[v], c1[v]);
        ShedsEvictable(c0, c1, t, w);
      }
    }
  }

  lemma TierShrinks(c: Tree, d: Tree, t: nat, v: int)
    requires Sheds(c, d, t) && LeftTier(c, d, t, v)
    ensures AtTier(d, t) < AtTier(c, t)
  {
    forall i | i in AtTier(d, t)
      ensures i in AtTier(c, t) && i != v
    {
      assert Kept(c[i], d[i]);
    }
    assert v in AtTier(c, t);
  }

  lemma ShedsKeepsSeg(c: Tree, d: Tree, t: nat, u: nat, i: int)
    requires Sheds(c, d, t) && u <= t && i in c && c[i].tier < t
    ensures Sheds(c, d, u) && i in d && d[i] == c[i].(kids := d[i].kids)
    ensures forall j :: j in c && c[j].tier == c[i].tier ==> j in d && d[j].tier == c[j].tier
  {
    assert Kept(c[i], d[i]);
  }

  lemma TokKids(n: Seg, kids: seq<int>, plays: seq<Play>)
    ensures Tok(n.(kids := kids), plays) == Tok(n, plays)
  {
  }

  /** Pins may be taken where the parent is pinned or the segment is on the device tier,
      and given back where no lower-tier child still relies on them. */
  ghost predicate CanPin(c: Tree, i: int, d: int)
    requires i in c
  {
    && c[i].pins + d >= (if c[i].parent == -1 then 1 else 0)
    && (c[i].pins + d == 0 ==> forall k :: k in c[i].kids && k in c ==> c[k].pins <= 0 || c[k].tier == 0)
    && (d > 0 && c[i].tier > 0 && c[i].parent in c ==> c[c[i].parent].pins > 0)
  }

  lemma AddPinsSteps(c: Tree, plays: seq<Play>, i: int, d: int)
    requires Inv(c, plays) && i in c && CanPin(c, i, d)
    ensures Inv(AddPins(c, i, d), plays) && SameShape(c, AddPins(c, i, d))
    ensures forall t: nat :: TierTok(AddPins(c, i, d), plays, t) == TierTok(c, plays, t)
  {
    hide TierTok, Tiers, Pinning, Slices;
    KidsLive(c, i);
    AddPinsInv(c, plays, i, d);
    forall t: nat
      ensures TierTok(AddPins(c, i, d), plays, t) == TierTok(c, plays, t)
    {
      SameTierTok(c, AddPins(c, i, d), plays, t);
    }
  }

  lemma LeafDesc(c: Tree, i: int)
    requires Shape(c) && i in c && c[i].kids == []
    ensures Desc(c, i) == {i}
  {
    DescSplit(c, i);
  }

  lemma SplitParentEvictable(c: Tree, id: int, up: int, off: nat)
    requires Shape(c) && id in c && c[id].parent != -1 && 0 < off < c[id].nblocks && up !in c
    requires c[id].parent in c && id in c[c[id].parent].kids && c[id].parent != id
    ensures Evictable(Split(c, id, up, off), c[id].parent) <==> Evictable(c, c[id].parent)
  {
    var p, d := c[id].parent, Split(c, id, up, off);
    KidsLive(c, p);
    KidsNoDup(c, p);
    assert up !in c[p].kids;
    RenamedNoDup(c[p].kids, id, up);
    hide Shape, Renamed;
    if Evictable(c, p) {
      forall k | k in d[p].kids && k in d
        ensures d[k].tier > d[p].tier
      {
        assert k == up || k in c[p].kids;
      }
    }
    if Evictable(d, p) {
      forall k | k in c[p].kids && k in c
        ensures c[k].tier > c[p].tier
      {
        if k == id {
          assert up in d[p].kids;
        } else {
          assert k in d[p].kids;
        }
      }
    }
  }

  // ---- contents of a new root ----

  lemma AddRootInv(c: Tree, plays: seq<Play>, i: int, play: nat, now: real)
    requires Inv(c, plays) && i !in c && i >= 0 && play < |plays|
    ensures Inv(c[i := NewRoot(play, now)], plays)
    ensures forall t: nat :: TierTok(c[i := NewRoot(play, now)], plays, t) == TierTok(c, plays, t)
  {
    var d := c[i := NewRoot(play, now)];
    AddRootShape(c, i, play, now);
    assert Slices(d, plays);
    assert Tiers(d) && Pinning(d) by { AddRootTiers(c, i, play, now); }
    forall t: nat
      ensures TierTok(d, plays, t) == TierTok(c, plays, t)
    {
      SumSame(c, d, plays, AtTier(c, t));
      if t == 0 {
        SumRemove(d, plays, AtTier(d, t), i);
        assert AtTier(d, t) - {i} == AtTier(c, t);
      } else {
        assert AtTier(d, t) == AtTier(c, t);
      }
    }
  }

  function NewRoot(play: nat, now: real): Seg {
    Seg(play, -1, [], 0, 0, 0, 0, 0, 1, now)
  }

  lemma AddRootShape(c: Tree, i: int, play: nat, now: real)
    requires Shape(c) && i !in c && i >= 0
    ensures Shape(c[i := NewRoot(play, now)])
  {
    var d := c[i := NewRoot(play, now)];
    forall j | j in d && d[j].parent != -1
      ensures ChildOk(d, j)
    {
      assert ChildOk(c, j);
    }
  }

  lemma AddRootTiers(c: Tree, i: int, play: nat, now: real)
    requires Shape(c) && Tiers(c) && Pinning(c) && i !in c && i >= 0
    ensures Tiers(c[i := NewRoot(play, now)]) && Pinning(c[i := NewRoot(play, now)])
  {
    var d := c[i := NewRoot(play, now)];
    forall j | j in d
      ensures TierOk(d, j)
      ensures PinOk(d, j)
    {
      if j != i {
        assert d[j].parent == c[j].parent && TierOk(c, j) && PinOk(c, j);
      }
    }
  }

  // ---- tails and insertion ----

  ghost function SetTail(c: Tree, i: int, tail: nat): Tree
    requires i in c
  {
    c[i := c[i].(tail := tail)]
  }

  lemma SetTailInv(c: Tree, plays: seq<Play>, i: int, tail: nat)
    requires Inv(c, plays) && i in c && c[i].parent != -1
    ensures Inv(SetTail(c, i, tail), plays)
    ensures forall t: nat :: TierTok(SetTail(c, i, tail), plays, t) ==
                             TierTok(c, plays, t) + (if t == c[i].tier then tail - c[i].tail else 0)
  {
    var d := SetTail(c, i, tail);
    SetTailShape(c, i, tail);
    SetTailRest(c, plays, i, tail);
    forall t: nat
      ensures TierTok(d, plays, t) == TierTok(c, plays, t) + (if t == c[i].tier then tail - c[i].tail else 0)
    {
      assert AtTier(d, t) == AtTier(c, t);
      SumSame(c, d, plays, AtTier(c, t) - {i});
      if t == c[i].tier {
        SumRemove(c, plays, AtTier(c, t), i);
        SumRemove(d, plays, AtTier(c, t), i);
      } else {
        assert AtTier(c, t) - {i} == AtTier(c, t);
      }
    }
  }

  lemma SetTailShape(c: Tree, i: int, tail: nat)
    requires Shape(c) && i in c && c[i].parent != -1
    ensures Shape(SetTail(c, i, tail))
  {
  }

  lemma SetTailRest(c: Tree, plays: seq<Play>, i: int, tail: nat)
    requires Inv(c, plays) && i in c && c[i].parent != -1
    ensures Tiers(SetTail(c, i, tail)) && Pinning(SetTail(c, i, tail)) && Slices(SetTail(c, i, tail), plays)
  {
  }

  /** The child that takes over a segment's generated tokens. */
  function TailSeg(p: Seg, parent: int): Seg {
    Seg(p.play, parent, [], p.start + p.nblocks, 0, 0, p.tail, p.tier, 0, p.lastAccess)
  }

  function BlockSeg(p: Seg, parent: int, src: nat, nblocks: nat, now: real): Seg {
    Seg(p.play, parent, [], p.start + p.nblocks, src, nblocks, 0, 0, 1, now)
  }

  /** What `insert_child` makes of the tree: a tail on the parent first becomes a child of its own (node t). */
  ghost function Insert(c: Tree, parent: int, t: int, id: int, src: nat, nblocks: nat, now: real): Tree
    requires parent in c && t != parent
  {
    LinkFront(WithTailChild(c, parent, t), parent, id, BlockSeg(c[parent], parent, src, nblocks, now))
  }

  ghost function WithTailChild(c: Tree, parent: int, t: int): (d: Tree)
    requires parent in c && t != parent
    ensures parent in d
  {
    if c[parent].tail > 0 then LinkFront(SetTail(c, parent, 0), parent, t, TailSeg(c[parent], parent)) else c
  }

  lemma SetTailEvictable(c: Tree, i: int, tail: nat)
    requires i in c
    ensures Evictable(SetTail(c, i, tail), i) <==> Evictable(c, i)
  {
  }

  lemma NeverLive(c: Tree)
    requires Shape(c)
    ensures -1 !in c
  {
  }

  lemma PinnedStays(c: Tree, i: int)
    requires i in c && c[i].pins > 0
    ensures !Evictable(c, i)
  {
  }

  lemma RootHasNoTail(c: Tree, i: int)
    requires Shape(c) && i in c
    ensures c[i].parent == -1 ==> c[i].tail == 0 && c[i].nblocks == 0 && c[i].start == 0
  {
  }

  lemma TailSlice(p: Seg, parent: int, plays: seq<Play>)
    requires p.play < |plays|
    ensures SliceOk(TailSeg(p, parent), plays) && Tok(TailSeg(p, parent), plays) == p.tail
  {
  }

  lemma SliceAt(c: Tree, plays: seq<Play>, i: int)
    requires Slices(c, plays) && i in c
    ensures SliceOk(c[i], plays)
  {
  }

  // ---- block contents ----

  /** Equal block ids occur only at equal depths below equal prefixes. */
  ghost predicate Chained(p: Play) {
    forall r, s, a, b :: 0 <= r < |p.reqs| && 0 <= s < |p.reqs| && Covers(p, r, a) && Covers(p, s, b)
      && p.hashes[p.reqs[r].begin + a] == p.hashes[p.reqs[s].begin + b]
      ==> a == b && SameBlocks(p, r, s, a + 1)
  }

  ghost predicate Covers(p: Play, r: nat, a: int)
    requires r < |p.reqs|
  {
    0 <= a < p.reqs[r].count && p.reqs[r].begin + a < |p.hashes|
  }

  /** The first n blocks of two requests agree. */
  ghost predicate SameBlocks(p: Play, r: nat, s: nat, n: nat)
    requires r < |p.reqs| && s < |p.reqs|
  {
    forall q :: 0 <= q < n && Covers(p, r, q) && Covers(p, s, q) ==>
      p.hashes[p.reqs[r].begin + q] == p.hashes[p.reqs[s].begin + q]
  }

  /** Block q of request r. */
  function BlockOf(p: Play, r: nat, q: nat): nat
    requires r < |p.reqs| && q < p.reqs[r].count && p.reqs[r].begin + p.reqs[r].count <= |p.hashes|
  {
    p.hashes[p.reqs[r].begin + q]
  }

  function End(n: Seg): nat {
    n.start + n.nblocks
  }

  /** The block at depth q on the path to segment i. */
  ghost function PathBlock(c: Tree, plays: seq<Play>, i: int, q: nat): nat
    requires Inv(c, plays) && i in c && q < End(c[i])
    decreases Height(c[i])
  {
    assert SliceOk(c[i], plays);
    if q >= c[i].start then BlockOf(plays[c[i].play], c[i].src, q)
    else PathBlock(c, plays, c[i].parent, q)
  }

  /** The path to segment i begins with the first n blocks of request r. */
  ghost predicate PathIs(c: Tree, plays: seq<Play>, i: int, r: nat, n: nat)
    requires Inv(c, plays) && i in c
  {
    && n <= End(c[i])
    && r < |plays[c[i].play].reqs|
    && n <= plays[c[i].play].reqs[r].count
    && plays[c[i].play].reqs[r].begin + plays[c[i].play].reqs[r].count <= |plays[c[i].play].hashes|
    && forall q {:trigger PathBlock(c, plays, i, q)} :: 0 <= q < n ==>
         PathBlock(c, plays, i, q) == BlockOf(plays[c[i].play], r, q)
  }

  /** d is c after some long-idle subtrees without pins expired. */
  ghost predicate Lapsed(c: Tree, d: Tree, now: real, limit: real)
    requires Shape(c)
  {
    && Sheds(c, d, 0)
    && (forall i :: i in d ==> d[i].tier == c[i].tier)
    && (forall i :: i in c && i !in d ==> Idle(c, i, now, limit))
  }

  ghost predicate Idle(c: Tree, i: int, now: real, limit: real)
    requires Shape(c) && i in c
  {
    exists v :: v in c && Anc(c, v, i) && now - c[v].lastAccess > limit
  }

  lemma LapsedRefl(c: Tree, now: real, limit: real)
    requires Shape(c)
    ensures Lapsed(c, c, now, limit)
  {
  }

  lemma LapsedTrans(a: Tree, b: Tree, c: Tree, now: real, limit: real)
    requires Shape(a) && Shape(b) && Lapsed(a, b, now, limit) && Lapsed(b, c, now, limit)
    ensures Lapsed(a, c, now, limit)
  {
    ShedsTrans(a, b, c, 0, 0);
    forall i | i in a && i !in c
      ensures Idle(a, i, now, limit)
    {
      if i in b {
        var v :| v in b && Anc(b, v, i) && now - b[v].lastAccess > limit;
        ShedsAnc(a, b, 0, v, i);
        assert Kept(a[v], b[v]);
      }
    }
  }

  lemma RemoveLapsed(c: Tree, plays: seq<Play>, i: int, now: real, limit: real)
    requires Inv(c, plays) && i in c && c[i].parent != -1 && now - c[i].lastAccess > limit
    requires forall j :: j in Desc(c, i) ==> c[j].pins <= 0
    ensures Lapsed(c, Remove(c, i), now, limit)
  {
    hide Remove, Shape, Tiers, Pinning, Slices, Anc, Kept;
    var d := Remove(c, i);
    RemoveKept(c, i);
    forall j | j in c && j !in d
      ensures Idle(c, j, now, limit)
    {
      assert j in Desc(c, i);
    }
    forall j | j in c && c[j].pins > 0
      ensures j in d && d[j].tier == c[j].tier
    {
      assert j !in Desc(c, i);
    }
  }

  /** Removing a subtree only takes children off lists. */
  lemma RemoveKept(c: Tree, i: int)
    requires Shape(c) && i in c
    ensures forall j :: j in Remove(c, i) ==> j in c && Kept(c[j], Remove(c, i)[j]) && Remove(c, i)[j].tier == c[j].tier
    ensures Remove(c, i).Keys <= c.Keys && forall j :: j in c ==> (j in Remove(c, i) <==> j !in Desc(c, i))
  {
  }

  /** Expiry leaves the blocks on surviving paths alone. */
  lemma {:induction false} ShedsPath(c: Tree, d: Tree, plays: seq<Play>, t: nat, i: int, q: nat)
    requires Inv(c, plays) && Inv(d, plays) && Sheds(c, d, t) && i in d && q < End(d[i])
    ensures PathBlock(d, plays, i, q) == PathBlock(c, plays, i, q)
    decreases Height(d[i])
  {
    assert Kept(c[i], d[i]);
    if q < d[i].start {
      ShedsPath(c, d, plays, t, d[i].parent, q);
    }
  }

  lemma ShedsPathIs(c: Tree, d: Tree, plays: seq<Play>, t: nat, i: int, r: nat, n: nat)
    requires Inv(c, plays) && Inv(d, plays) && Sheds(c, d, t) && i in d && PathIs(c, plays, i, r, n)
    ensures PathIs(d, plays, i, r, n)
  {
    assert Kept(c[i], d[i]);
    forall q: nat | q < n
      ensures PathBlock(d, plays, i, q) == BlockOf(plays[d[i].play], r, q)
    {
      ShedsPath(c, d, plays, t, i, q);
    }
  }

  /** Descending into a child whose first blocks match extends the matched path. */
  lemma PathDown(c: Tree, plays: seq<Play>, p: int, k: int, r: nat, len: nat)
    requires Inv(c, plays) && p in c && k in c && c[k].parent == p && 0 < len <= c[k].nblocks
    requires PathIs(c, plays, p, r, End(c[p]))
    requires End(c[p]) + len <= plays[c[p].play].reqs[r].count
    requires SliceOk(c[k], plays)
    requires forall q {:trigger BlockOf(plays[c[p].play], c[k].src, q)} :: End(c[p]) <= q < End(c[p]) + len ==>
      BlockOf(plays[c[p].play], c[k].src, q) == BlockOf(plays[c[p].play], r, q)
    ensures PathIs(c, plays, k, r, End(c[p]) + len)
  {
    forall q: nat | q < End(c[p]) + len
      ensures PathBlock(c, plays, k, q) == BlockOf(plays[c[k].play], r, q)
    {
      if q >= c[k].start {
        assert BlockOf(plays[c[p].play], c[k].src, q) == BlockOf(plays[c[p].play], r, q);
      } else {
        assert PathBlock(c, plays, p, q) == BlockOf(plays[c[p].play], r, q);
      }
    }
  }

  /** With chained ids, agreeing on one block means agreeing on every block before it. */
  lemma ChainedPrefix(p: Play, r: nat, s: nat, a: nat, q: nat)
    requires Chained(p) && r < |p.reqs| && s < |p.reqs| && q <= a
    requires p.reqs[r].begin + p.reqs[r].count <= |p.hashes| && p.reqs[s].begin + p.reqs[s].count <= |p.hashes|
    requires a < p.reqs[r].count && a < p.reqs[s].count
    requires BlockOf(p, r, a) == BlockOf(p, s, a)
    ensures BlockOf(p, r, q) == BlockOf(p, s, q)
  {
    assert Covers(p, r, a) && Covers(p, s, a);
    assert SameBlocks(p, r, s, a + 1);
    assert Covers(p, r, q) && Covers(p, s, q);
  }

  /** How many blocks, from depth pos on and at most n, two requests share: the linear scan. */
  function SharedRun(p: Play, s: nat, r: nat, pos: nat, n: nat): (len: nat)
    requires s < |p.reqs| && r < |p.reqs|
    requires p.reqs[r].begin + p.reqs[r].count <= |p.hashes| && p.reqs[s].begin + p.reqs[s].count <= |p.hashes|
    requires pos + n <= p.reqs[r].count && pos + n <= p.reqs[s].count
    ensures len <= n
    ensures forall q :: pos <= q < pos + len ==> BlockOf(p, s, q) == BlockOf(p, r, q)
    ensures len < n ==> BlockOf(p, s, pos + len) != BlockOf(p, r, pos + len)
    decreases n
  {
    if n == 0 || BlockOf(p, s, pos) != BlockOf(p, r, pos) then 0 else 1 + SharedRun(p, s, r, pos + 1, n - 1)
  }

  /** The engine's binary search over a segment (its ids start at a, the request's at b) finds what the linear scan
      finds. */
  method MatchLength(p: Play, a: nat, b: nat, n: nat, ghost s: nat, ghost r: nat, ghost pos: nat) returns (lo: nat)
    requires Chained(p) && s < |p.reqs| && r < |p.reqs| && n > 0
    requires p.reqs[r].begin + p.reqs[r].count <= |p.hashes| && p.reqs[s].begin + p.reqs[s].count <= |p.hashes|
    requires pos + n <= p.reqs[r].count && pos + n <= p.reqs[s].count
    requires a == p.reqs[s].begin + pos && b == p.reqs[r].begin + pos
    requires p.hashes[a] == p.hashes[b]
    ensures lo == SharedRun(p, s, r, pos, n) && lo > 0
  {
    var hi := n;
    lo := 1;
    ghost var run := SharedRun(p, s, r, pos, n);
    while lo < hi
      invariant 1 <= lo <= run <= hi <= n
    {
      var mid := (lo + hi + 1) / 2;
      if p.hashes[a + mid - 1] == p.hashes[b + mid - 1] {
        if run < mid {
          ChainedPrefix(p, s, r, pos + mid - 1, pos + run);
        }
        lo := mid;
      } else {
        assert BlockOf(p, s, pos + mid - 1) != BlockOf(p, r, pos + mid - 1);
        hi := mid - 1;
      }
    }
  }

  // ---- lookups ----

  /** A lookup's answer: the last segment reached, the blocks matched, and how many of them lie in that segment. */
  datatype Hit = Hit(node: int, blocks: nat, off: nat, lower: bool)

  ghost predicate GoodReq(plays: seq<Play>, play: nat, r: nat) {
    && play < |plays| && r < |plays[play].reqs|
    && plays[play].reqs[r].begin + plays[play].reqs[r].count <= |plays[play].hashes|
    && Chained(plays[play])
  }

  ghost predicate StartsWith(n: Seg, plays: seq<Play>, want: nat) {
    && n.nblocks > 0 && SliceOk(n, plays)
    && BlockOf(plays[n.play], n.src, n.start) == want
  }

  /** `found` is the first child of p in list order that begins with block `want`. */
  ghost predicate FirstKid(c: Tree, plays: seq<Play>, p: int, want: nat, found: int) {
    p in c && exists m :: 0 <= m < |c[p].kids| && c[p].kids[m] == found && NoneBefore(c, plays, p, want, m)
  }

  ghost predicate NoneBefore(c: Tree, plays: seq<Play>, p: int, want: nat, m: nat) {
    p in c && forall k :: 0 <= k < m && k < |c[p].kids| && c[p].kids[k] in c ==>
      !StartsWith(c[c[p].kids[k]], plays, want)
  }

  /** No earlier sibling of i begins with the same block, so a lookup that comes to its parent and wants that block
      takes i. */
  ghost predicate FirstHere(c: Tree, plays: seq<Play>, i: int)
    requires i in c
  {
    var n := c[i];
    n.parent != -1 && n.nblocks > 0 ==>
      SliceOk(n, plays) && FirstKid(c, plays, n.parent, BlockOf(plays[n.play], n.src, n.start), i)
  }

  /** So it is all the way down to i: every lookup of what i's path holds runs along that path. */
  ghost predicate FirstPath(c: Tree, plays: seq<Play>, i: int)
    requires Shape(c) && i in c
    decreases Height(c[i])
  {
    FirstHere(c, plays, i) && (c[i].parent != -1 ==> FirstPath(c, plays, c[i].parent))
  }

  /** d differs from c in segments that are gone, and in the children of p. */
  ghost predicate SameElsewhere(c: Tree, d: Tree, p: int) {
    && p in c && p in d && d[p].(kids := []) == c[p].(kids := [])
    && forall i :: i in d && i != p ==> i in c && d[i] == c[i]
  }

  lemma SameHere(c: Tree, p: int)
    requires p in c
    ensures SameElsewhere(c, c, p)
  {
  }

  lemma RemoveElsewhere(c: Tree, x: int)
    requires Shape(c) && x in c && c[x].parent in c && c[x].parent in Remove(c, x)
    ensures SameElsewhere(c, Remove(c, x), c[x].parent)
  {
  }

  lemma ElsewhereTrans(c: Tree, d: Tree, e: Tree, p: int)
    requires SameElsewhere(c, d, p) && SameElsewhere(d, e, p)
    ensures SameElsewhere(c, e, p)
  {
  }

  lemma {:induction false} FirstPathStays(c: Tree, d: Tree, plays: seq<Play>, p: int, i: int)
    requires Shape(c) && Shape(d) && SameElsewhere(c, d, p) && i in c && i in d && FirstPath(c, plays, i)
    requires i == p || Height(c[i]) < Height(c[p])
    ensures FirstPath(d, plays, i)
    decreases Height(c[i])
  {
    hide Shape;
    if c[i].parent != -1 {
      var a := c[i].parent;
      ParentAt(c, i);
      ParentAt(d, i);
      FirstPathStays(c, d, plays, p, a);
      if c[i].nblocks > 0 {
        var want := BlockOf(plays[c[i].play], c[i].src, c[i].start);
        var m :| 0 <= m < |c[a].kids| && c[a].kids[m] == i && NoneBefore(c, plays, a, want, m);
        NoneBeforeStays(c, d, plays, p, a, want, m);
      }
    }
  }

  lemma NoneBeforeStays(c: Tree, d: Tree, plays: seq<Play>, p: int, a: int, want: nat, m: nat)
    requires SameElsewhere(c, d, p) && a in c && a in d && a != p && NoneBefore(c, plays, a, want, m)
    ensures d[a] == c[a] && NoneBefore(d, plays, a, want, m)
  {
    forall k | 0 <= k < m && k < |d[a].kids| && d[a].kids[k] in d
      ensures !StartsWith(d[d[a].kids[k]], plays, want)
    {
      var x := d[a].kids[k];
      assert x == c[a].kids[k] && x in c && d[x].(kids := []) == c[x].(kids := []);
    }
  }

  lemma FirstPathDown(c: Tree, plays: seq<Play>, p: int, i: int, want: nat)
    requires Shape(c) && p in c && i in c && c[i].parent == p && p != -1 && FirstPath(c, plays, p)
    requires FirstKid(c, plays, p, want, i) && StartsWith(c[i], plays, want)
    ensures FirstPath(c, plays, i)
  {
  }

  ghost predicate HitAt(n: Seg, h: Hit) {
    if n.parent == -1 then h.blocks == 0 && h.off == 0
    else 0 < h.off <= n.nblocks && h.blocks == n.start + h.off
  }

  /** The match cannot be extended: the segment goes on differently, or no child begins with the next block. */
  ghost predicate Deepest(c: Tree, plays: seq<Play>, h: Hit, r: nat)
    requires h.node in c && GoodReq(plays, c[h.node].play, r)
  {
    var n := c[h.node];
    h.blocks < plays[n.play].reqs[r].count ==>
      if n.parent != -1 && h.off < n.nblocks then
        SliceOk(n, plays) && h.blocks < End(n) &&
          BlockOf(plays[n.play], n.src, h.blocks) != BlockOf(plays[n.play], r, h.blocks)
      else
        forall k :: k in n.kids && k in c ==> !StartsWith(c[k], plays, BlockOf(plays[n.play], r, h.blocks))
  }

  /** A true prefix of the request, along the first child in list order at every step, that goes no further. */
  ghost predicate Found(c: Tree, plays: seq<Play>, h: Hit, play: nat, r: nat)
    requires Inv(c, plays) && GoodReq(plays, play, r)
  {
    && h.node in c && c[h.node].play == play
    && HitAt(c[h.node], h)
    && PathIs(c, plays, h.node, r, h.blocks)
    && Deepest(c, plays, h, r)
    && FirstPath(c, plays, h.node)
    && (h.lower <==> c[h.node].tier > 0)
  }

  lemma StampTok(c: Tree, plays: seq<Play>, s: set<int>, now: real)
    ensures forall t: nat :: TierTok(Stamp(c, s, now), plays, t) == TierTok(c, plays, t)
  {
    forall t: nat
      ensures TierTok(Stamp(c, s, now), plays, t) == TierTok(c, plays, t)
    {
      SameTierTok(c, Stamp(c, s, now), plays, t);
    }
  }

  lemma RemoveKid(c: Tree, p: int, m: nat)
    requires Shape(c) && p in c && m < |c[p].kids|
    ensures var x := c[p].kids[m]; (
      x in c && c[x].parent == p && p in Remove(c, x) &&
      Remove(c, x)[p].kids == c[p].kids[..m] + c[p].kids[m + 1..] &&
      (forall j :: j in Remove(c, x) ==> j in c && Remove(c, x)[j].(kids := []) == c[j].(kids := [])))
  {
    var x := c[p].kids[m];
    KidsLive(c, p);
    KidsNoDup(c, p);
    assert x in c[p].kids;
    ParentOutside(c, x);
    WithoutAt(c[p].kids, x, m);
  }

  lemma RootPath(c: Tree, plays: seq<Play>, i: int, r: nat)
    requires Inv(c, plays) && i in c && c[i].parent == -1 && GoodReq(plays, c[i].play, r)
    ensures PathIs(c, plays, i, r, 0) && End(c[i]) == 0
  {
  }

  lemma SameTiersPath(c: Tree, i: int)
    requires Shape(c) && Tiers(c) && i in c
    ensures forall a :: a in c && Anc(c, a, i) ==> c[a].tier <= c[i].tier
  {
    forall a | a in c && Anc(c, a, i)
      ensures c[a].tier <= c[i].tier
    {
      TierAlongPath(c, a, i);
    }
  }

  lemma AncSelf(c: Tree, i: int)
    requires Shape(c) && i in c
    ensures Anc(c, i, i)
  {
  }

  lemma AncUp(c: Tree, i: int, j: int)
    requires Shape(c) && i in c && j in c && Anc(c, i, j)
    ensures c[i].parent != -1 ==> c[i].parent in c && Anc(c, c[i].parent, j)
  {
    if c[i].parent == -1 { return; }
    ParentAt(c, i);
    AncSelf(c, c[i].parent);
    AncTrans(c, c[i].parent, i, j);
  }

  lemma ChildStart(c: Tree, i: int)
    requires Shape(c) && i in c && c[i].parent != -1
    ensures c[i].parent in c && c[i].start == End(c[c[i].parent])
  {
  }

  lemma LapsedPathIs(c: Tree, d: Tree, plays: seq<Play>, now: real, limit: real, i: int, r: nat, n: nat)
    requires Inv(c, plays) && Inv(d, plays) && Lapsed(c, d, now, limit) && i in d && i in c && PathIs(c, plays, i, r, n)
    ensures PathIs(d, plays, i, r, n)
  {
    ShedsPathIs(c, d, plays, 0, i, r, n);
  }

  /** Segment i continues the match at depth pos for exactly lo of its blocks. */
  ghost predicate Stepped(c: Tree, plays: seq<Play>, i: int, play: nat, r: nat, pos: nat, lo: nat)
    requires Inv(c, plays) && GoodReq(plays, play, r)
  {
    && i in c && c[i].play == play && c[i].parent != -1 && SliceOk(c[i], plays)
    && c[i].start == pos && 0 < lo <= c[i].nblocks && pos + lo <= plays[play].reqs[r].count
    && PathIs(c, plays, i, r, pos + lo)
    && (lo < c[i].nblocks && pos + lo < plays[play].reqs[r].count ==>
          BlockOf(plays[play], c[i].src, pos + lo) != BlockOf(plays[play], r, pos + lo))
  }

  lemma StepFound(c: Tree, plays: seq<Play>, p: int, i: int, play: nat, r: nat, m: nat)
    requires Inv(c, plays) && GoodReq(plays, play, r) && p in c && i in c && c[i].parent == p && c[p].play == play
    requires PathIs(c, plays, p, r, End(c[p])) && 0 < m <= c[i].nblocks && End(c[p]) + m <= plays[play].reqs[r].count
    requires m == c[i].nblocks || End(c[p]) + m == plays[play].reqs[r].count
    requires StartsWith(c[i], plays, BlockOf(plays[play], r, End(c[p])))
    ensures SliceOk(c[i], plays) && c[i].play == play && c[i].start == End(c[p])
    ensures var lo := SharedRun(plays[play], c[i].src, r, End(c[p]), m);
      lo > 0 && Stepped(c, plays, i, play, r, End(c[p]), lo)
  {
    hide Tiers, Pinning, PathIs, Chained;
    SliceAt(c, plays, i);
    ParentAt(c, i);
    ChildStart(c, i);
    assert p != -1 by { ParentAt(c, p); }
    var lo := SharedRun(plays[play], c[i].src, r, End(c[p]), m);
    assert BlockOf(plays[play], c[i].src, End(c[p])) == BlockOf(plays[play], r, End(c[p]));
    PathDown(c, plays, p, i, r, lo);
  }

  // ---- whole paths, for tier loads ----

  lemma {:induction false} SameShapeAnc(c: Tree, e: Tree, i: int, j: int)
    requires Shape(c) && Shape(e) && SameShape(c, e) && j in c
    ensures Anc(e, i, j) <==> Anc(c, i, j)
    decreases Height(c[j])
  {
    assert e[j].parent == c[j].parent;
    if i != j && c[j].parent != -1 {
      SameShapeAnc(c, e, i, c[j].parent);
    }
  }

  /** Segment i and everything above it. */
  ghost function Path(c: Tree, i: int): set<int>
    requires Shape(c) && i in c
  {
    set a | a in c && Anc(c, a, i)
  }

  lemma SameShapePath(c: Tree, e: Tree, i: int)
    requires Shape(c) && Shape(e) && SameShape(c, e) && i in c
    ensures Path(e, i) == Path(c, i)
  {
    forall a | a in c
      ensures Anc(e, a, i) <==> Anc(c, a, i)
    {
      SameShapeAnc(c, e, a, i);
    }
  }

  lemma PathUp(c: Tree, i: int)
    requires Shape(c) && i in c
    ensures i in Path(c, i)
    ensures c[i].parent == -1 ==> Path(c, i) == {i}
    ensures c[i].parent != -1 ==>
      c[i].parent in c && Path(c, i) == Path(c, c[i].parent) + {i} && i !in Path(c, c[i].parent)
  {
    if c[i].parent != -1 {
      if i in Path(c, c[i].parent) { AncIn(c, i, c[i].parent); }
    }
  }

  ghost function PinAll(c: Tree, s: set<int>, d: int): Tree {
    map i | i in c :: if i in s then c[i].(pins := c[i].pins + d) else c[i]
  }

  ghost function LiftAll(c: Tree, s: set<int>): Tree {
    map i | i in c :: if i in s then c[i].(tier := 0) else c[i]
  }

  lemma PinAllShape(c: Tree, s: set<int>, d: int)
    ensures SameShape(c, PinAll(c, s, d))
    ensures forall i {:trigger PinAll(c, s, d)[i].tier} :: i in c ==> PinAll(c, s, d)[i].tier == c[i].tier
  {
  }

  lemma LiftAllShape(c: Tree, s: set<int>)
    ensures SameShape(c, LiftAll(c, s))
  {
  }

  lemma PinAllStep(c: Tree, s: set<int>, d: int, i: int)
    requires i in c && i !in s
    ensures AddPins(PinAll(c, s, d), i, d) == PinAll(c, s + {i}, d)
  {
    var l, r := AddPins(PinAll(c, s, d), i, d), PinAll(c, s + {i}, d);
    assert forall j :: j in l <==> j in r;
    assert forall j :: j in l ==> l[j] == r[j];
  }

  lemma LiftAllStep(c: Tree, s: set<int>, i: int)
    requires i in c && i !in s
    ensures SetTier(LiftAll(c, s), i, 0) == LiftAll(c, s + {i})
  {
    var l, r := SetTier(LiftAll(c, s), i, 0), LiftAll(c, s + {i});
    assert forall j :: j in l <==> j in r;
    assert forall j :: j in l ==> l[j] == r[j];
  }

  lemma LiftInv(c: Tree, plays: seq<Play>, i: int)
    requires Inv(c, plays) && i in c && c[i].pins > 0
    requires c[i].parent != -1 && c[i].parent in c ==> c[c[i].parent].tier == 0
    ensures Inv(SetTier(c, i, 0), plays)
  {
    var e := SetTier(c, i, 0);
    SameShapeShape(c, e);
    SameShapeSlices(c, e, plays);
    LiftTiers(c, i);
    LiftPinning(c, i);
  }

  lemma LiftTiers(c: Tree, i: int)
    requires Shape(c) && Tiers(c) && i in c
    requires c[i].parent != -1 && c[i].parent in c ==> c[c[i].parent].tier == 0
    ensures Tiers(SetTier(c, i, 0))
  {
    var e := SetTier(c, i, 0);
    forall j | j in e
      ensures TierOk(e, j)
    {
      assert e[j].parent == c[j].parent && TierOk(c, j);
    }
  }

  lemma LiftPinning(c: Tree, i: int)
    requires Shape(c) && Pinning(c) && i in c
    ensures Pinning(SetTier(c, i, 0))
  {
    var e := SetTier(c, i, 0);
    forall j | j in e
      ensures PinOk(e, j)
    {
      assert e[j].parent == c[j].parent && PinOk(c, j);
    }
  }

  /** The segments of a path that lie below the device tier. */
  ghost function LowerPart(c: Tree, s: set<int>): set<int> {
    set a | a in s && a in c && c[a].tier > 0
  }

  lemma LowerStep(c: Tree, plays: seq<Play>, s: set<int>, i: int)
    requires i in c && i !in s
    ensures SumTok(c, plays, LowerPart(c, s + {i})) ==
            SumTok(c, plays, LowerPart(c, s)) + (if c[i].tier > 0 then Tok(c[i], plays) else 0)
  {
    if c[i].tier > 0 {
      assert LowerPart(c, s + {i}) - {i} == LowerPart(c, s);
      SumRemove(c, plays, LowerPart(c, s + {i}), i);
    } else {
      assert LowerPart(c, s + {i}) == LowerPart(c, s);
    }
  }

  lemma CanPinOne(c: Tree, i: int)
    requires Pinning(c) && i in c
    requires c[i].tier == 0 || (c[i].parent in c && c[c[i].parent].pins > 0)
    ensures CanPin(c, i, 1)
  {
  }

  lemma PinnedParent(c: Tree, p: int, s: set<int>)
    requires Pinning(c) && p in c && p in s
    ensures p in PinAll(c, s, 1) && PinAll(c, s, 1)[p].pins > 0
  {
  }

  lemma RootTier(c: Tree, i: int)
    requires Tiers(c) && Pinning(c) && i in c && c[i].parent == -1
    ensures c[i].tier == 0 && c[i].pins > 0
  {
  }

  lemma PinAllNone(c: Tree)
    ensures PinAll(c, {}, 1) == c
  {
  }

  lemma PathTok(c: Tree, plays: seq<Play>, i: int)
    requires Shape(c) && i in c
    ensures SumTok(c, plays, LowerPart(c, Path(c, i))) ==
            (if c[i].parent == -1 || c[i].parent !in c then 0
              else SumTok(c, plays, LowerPart(c, Path(c, c[i].parent)))) +
            (if c[i].tier > 0 then Tok(c[i], plays) else 0)
  {
    PathUp(c, i);
    if c[i].parent != -1 {
      LowerStep(c, plays, Path(c, c[i].parent), i);
    } else {
      LowerStep(c, plays, {}, i);
      SumNone(c, plays, LowerPart(c, {}));
      assert {} + {i} == {i};
    }
  }

  lemma LiftAllNone(c: Tree, s: set<int>)
    requires forall a :: a in s && a in c ==> c[a].tier == 0
    ensures LiftAll(c, s) == c
  {
    var d := LiftAll(c, s);
    assert forall j :: j in d <==> j in c;
    assert forall j :: j in d ==> d[j] == c[j];
  }

  lemma LiftAllZero(c: Tree, s: set<int>, i: int)
    requires i in c && c[i].tier == 0
    ensures LiftAll(c, s + {i}) == LiftAll(c, s)
  {
    var d, e := LiftAll(c, s + {i}), LiftAll(c, s);
    assert forall j :: j in d <==> j in e;
    assert forall j :: j in d ==> d[j] == e[j];
  }

  /** Only the segments of s hold pins below the device tier, one each. */
  ghost predicate OnlyPath(c: Tree, s: set<int>) {
    forall k {:trigger c[k].tier} :: k in c && c[k].tier > 0 && c[k].pins > 0 ==> k in s && c[k].pins == 1
  }

  lemma AddPinsShape(c: Tree, i: int, d: int)
    requires i in c
    ensures SameShape(c, AddPins(c, i, d))
  {
  }

  lemma ReleaseOk(c: Tree, plays: seq<Play>, i: int)
    requires Inv(c, plays) && i in c && OnlyPath(c, Path(c, i))
    requires c[i].pins > (if c[i].parent == -1 then 1 else 0)
    ensures CanPin(c, i, -1)
  {
    forall k | k in c[i].kids && k in c && c[k].pins > 0
      ensures c[k].tier == 0
    {
      if c[k].tier > 0 {
        KidsLive(c, i);
        assert c[k].parent == i;
        AncIn(c, k, i);
        PathUp(c, k);
        ParentAt(c, k);
      }
    }
  }

  lemma ReleaseNext(c: Tree, i: int, up: set<int>)
    requires i in c && OnlyPath(c, up + {i}) && i !in up
    requires c[i].tier > 0 ==> c[i].pins == 1
    ensures OnlyPath(AddPins(c, i, -1), up)
    ensures forall a :: a in up && a in c ==> AddPins(c, i, -1)[a] == c[a]
  {
  }

  lemma PinAllFirst(c: Tree, s: set<int>, i: int)
    requires i in c && i !in s
    ensures PinAll(AddPins(c, i, -1), s, -1) == PinAll(c, s + {i}, -1)
  {
    var l, r := PinAll(AddPins(c, i, -1), s, -1), PinAll(c, s + {i}, -1);
    assert forall j :: j in l <==> j in r;
    assert forall j :: j in l ==> l[j] == r[j];
  }

  lemma PinAllEmpty(c: Tree, s: set<int>)
    requires s == {}
    ensures PinAll(c, s, -1) == c
  {
  }

  /** Between scheduler steps every pinned segment is on the device tier. */
  ghost predicate PinnedTop(c: Tree) {
    forall k {:trigger c[k].tier} :: k in c && c[k].pins > 0 ==> c[k].tier == 0
  }

  lemma PinAllSame(c: Tree, e: Tree, plays: seq<Play>, i: int, d: int)
    requires Shape(c) && Shape(e) && i in c && e == PinAll(c, Path(c, i), d)
    ensures Path(e, i) == Path(c, i)
    ensures SumTok(e, plays, LowerPart(e, Path(c, i))) == SumTok(c, plays, LowerPart(c, Path(c, i)))
    ensures forall t: nat :: TierTok(e, plays, t) == TierTok(c, plays, t)
  {
    var s := Path(c, i);
    PinAllShape(c, s, d);
    SameShapePath(c, e, i);
    assert LowerPart(e, s) == LowerPart(c, s);
    SumSame(c, e, plays, LowerPart(c, s));
    forall t: nat
      ensures TierTok(e, plays, t) == TierTok(c, plays, t)
    {
      SameTierTok(c, e, plays, t);
    }
  }

  lemma ShedsPathSet(c: Tree, d: Tree, plays: seq<Play>, i: int)
    requires Shape(c) && Shape(d) && Sheds(c, d, 0) && i in c
    requires forall a :: a in Path(c, i) ==> a in c && c[a].pins > 0
    ensures i in d && Path(d, i) == Path(c, i)
    ensures SumTok(d, plays, LowerPart(d, Path(c, i))) == SumTok(c, plays, LowerPart(c, Path(c, i)))
    ensures forall a :: a in Path(c, i) ==>
      a in d && d[a].pins == c[a].pins && d[a].tier == c[a].tier && d[a].parent == c[a].parent
  {
    PathUp(c, i);
    forall a | a in c && a in d
      ensures Anc(d, a, i) <==> Anc(c, a, i)
    {
      ShedsAnc(c, d, 0, a, i);
    }
    forall a | a in Path(c, i)
      ensures a in d && d[a].pins == c[a].pins && d[a].tier == c[a].tier && d[a].parent == c[a].parent
      ensures Tok(d[a], plays) == Tok(c[a], plays)
    {
      assert Kept(c[a], d[a]);
    }
    assert LowerPart(d, Path(c, i)) == LowerPart(c, Path(c, i));
    SumSame(c, d, plays, LowerPart(c, Path(c, i)));
  }

  /** c1 with path p moved to the device tier, keeping one extra pin on node only. */
  ghost function Loaded(c1: Tree, p: set<int>, node: int): Tree {
    PinAll(LiftAll(c1, p), p - {node}, -1)
  }

  lemma PinnedPathOnly(c: Tree, e: Tree, d: Tree, p: set<int>)
    requires PinnedTop(c) && Pinning(c) && e == PinAll(c, p, 1) && Sheds(e, d, 0)
    ensures OnlyPath(d, p)
  {
    forall k | k in d && d[k].tier > 0 && d[k].pins > 0
      ensures k in p && d[k].pins == 1
    {
      assert Kept(e[k], d[k]) && e[k].tier == d[k].tier && c[k].tier == e[k].tier;
    }
  }

  lemma LiftedOnly(c: Tree, p: set<int>, q: set<int>)
    requires OnlyPath(c, p)
    ensures OnlyPath(LiftAll(c, p), q)
  {
    var d := LiftAll(c, p);
    forall k | k in d
      ensures d[k].tier > 0 ==> d[k].pins <= 0
    {
      if k !in p { assert d[k].tier == c[k].tier; }
    }
  }

  lemma PathPinned(c: Tree, e: Tree, i: int)
    requires Shape(c) && Shape(e) && Pinning(c) && i in c && e == PinAll(c, Path(c, i), 1)
    ensures i in e && forall a :: a in Path(c, i) ==> a in e && e[a].pins > 0
  {
  }

  lemma PathPins(c: Tree, e: Tree, i: int)
    requires Shape(c) && Shape(e) && Pinning(c) && i in c && e == PinAll(c, Path(c, i), 1)
    ensures forall a :: a in Path(c, i) ==> a in e && e[a].pins > (if e[a].parent == -1 then 1 else 0)
  {
  }

  lemma LiftPins(c: Tree, s: set<int>)
    ensures LiftAll(c, s).Keys == c.Keys
    ensures forall a :: a in c ==> LiftAll(c, s)[a].pins == c[a].pins && LiftAll(c, s)[a].parent == c[a].parent
  {
  }

  /** m is c with a place for a hit's pin: a new root, the segment itself, or the part of it that matched. */
  ghost predicate Prepared(c: Tree, m: Tree, h: Hit, p: int, play: nat, now: real) {
    if h.node == -1 then p !in c && p >= 0 && m == c[p := NewRoot(play, now)]
    else if h.node !in c then false
    else if c[h.node].parent == -1 || h.off == c[h.node].nblocks then p == h.node && m == c
    else
      && p !in c && p >= 0 && c[h.node].parent in c && h.node in c[c[h.node].parent].kids
      && 0 < h.off < c[h.node].nblocks
      && m == Split(c, h.node, p, h.off)
  }
}
