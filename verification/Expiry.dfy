/** Segments that expire while a lookup passes by. */
module Expiry {
  import opened KvTree

  ghost predicate PinnedBelow(c: Tree, id: int)
    requires Shape(c)
  {
    exists j :: j in c && j in Desc(c, id) && c[j].pins > 0
  }

  /** Segment i holds blocks, was not used for longer than the limit, and nothing in its subtree is pinned. */
  ghost predicate Expires(c: Tree, i: int, now: real, limit: real)
    requires Shape(c) && i in c
  {
    limit > 0.0 && c[i].nblocks > 0 && now - c[i].lastAccess > limit && !PinnedBelow(c, i)
  }

  /** None of the first m children of p is expired. */
  ghost predicate NoneExpires(c: Tree, p: int, m: nat, now: real, limit: real)
    requires Shape(c)
  {
    p in c && forall k :: 0 <= k < m && k < |c[p].kids| && c[p].kids[k] in c ==> !Expires(c, c[p].kids[k], now, limit)
  }

  /** Of the first n children of p the expired ones are gone with all below them, and nothing else is. */
  ghost predicate Swept(c: Tree, d: Tree, p: int, n: nat, now: real, limit: real)
    requires Shape(c)
  {
    && p in c && n <= |c[p].kids|
    && (forall k :: 0 <= k < |c[p].kids| && c[p].kids[k] in c ==>
          (c[p].kids[k] in d <==> !(k < n && Expires(c, c[p].kids[k], now, limit))))
    && (forall i :: i in c && i !in d ==> SweptUnder(c, d, p, n, i))
  }

  ghost predicate SweptUnder(c: Tree, d: Tree, p: int, n: nat, i: int)
    requires Shape(c) && p in c && n <= |c[p].kids| && i in c
  {
    exists k :: 0 <= k < n && c[p].kids[k] !in d && Anc(c, c[p].kids[k], i)
  }

  /** Segment i is not expired, nor is an earlier sibling. */
  ghost predicate FreshHere(c: Tree, i: int, now: real, limit: real)
    requires Shape(c) && i in c
  {
    var p := c[i].parent;
    p != -1 ==> (p in c && exists m ::
      0 <= m < |c[p].kids| && c[p].kids[m] == i && NoneExpires(c, p, m + 1, now, limit))
  }

  /** So it is all the way down to i. */
  ghost predicate FreshPath(c: Tree, i: int, now: real, limit: real)
    requires Shape(c) && i in c
    decreases Height(c[i])
  {
    FreshHere(c, i, now, limit) && (c[i].parent != -1 ==> FreshPath(c, c[i].parent, now, limit))
  }

  /** A lookup that matched h of `count` blocks dropped every expired segment it came by: along the path to h, and
      behind it if it looked for more there. */
  ghost predicate Fresh(c: Tree, h: Hit, count: nat, now: real, limit: real)
    requires Shape(c)
  {
    && h.node in c && FreshPath(c, h.node, now, limit)
    && (h.blocks < count && (c[h.node].parent == -1 || h.off == c[h.node].nblocks) ==>
          NoneExpires(c, h.node, |c[h.node].kids|, now, limit))
  }

  /** Pins stay, so what is expired stays so, and nothing else becomes it. */
  lemma ExpiresSame(c: Tree, d: Tree, x: int, now: real, limit: real)
    requires Shape(c) && Shape(d) && Sheds(c, d, 0) && x in d
    ensures x in c && (Expires(c, x, now, limit) <==> Expires(d, x, now, limit))
  {
    hide Shape, Anc;
    assert Kept(c[x], d[x]);
    if PinnedBelow(c, x) {
      var j :| j in c && j in Desc(c, x) && c[j].pins > 0;
      ShedsAnc(c, d, 0, x, j);
      assert j in Desc(d, x);
    }
    if PinnedBelow(d, x) {
      var j :| j in d && j in Desc(d, x) && d[j].pins > 0;
      ShedsAnc(c, d, 0, x, j);
      assert Kept(c[j], d[j]) && j in Desc(c, x);
    }
  }

  lemma NoneExpiresSame(c: Tree, d: Tree, p: int, m: nat, now: real, limit: real)
    requires Shape(c) && Shape(d) && Sheds(c, d, 0) && p in d && p in c && NoneExpires(c, p, m, now, limit)
    requires forall k :: 0 <= k < m && k < |d[p].kids| ==> k < |c[p].kids| && d[p].kids[k] == c[p].kids[k]
    ensures NoneExpires(d, p, m, now, limit)
  {
    hide Shape, Expires, Kept;
    forall k | 0 <= k < m && k < |d[p].kids| && d[p].kids[k] in d
      ensures !Expires(d, d[p].kids[k], now, limit)
    {
      ExpiresSame(c, d, d[p].kids[k], now, limit);
    }
  }

  lemma {:induction false} FreshPathStays(c: Tree, d: Tree, p: int, i: int, now: real, limit: real)
    requires Shape(c) && Shape(d) && SameElsewhere(c, d, p) && Sheds(c, d, 0) && i in c && i in d
    requires FreshPath(c, i, now, limit) && (i == p || Height(c[i]) < Height(c[p]))
    ensures FreshPath(d, i, now, limit)
    decreases Height(c[i])
  {
    hide Shape, Expires, NoneExpires, Sheds;
    if c[i].parent != -1 {
      var a := c[i].parent;
      ParentAt(c, i);
      ParentAt(d, i);
      FreshPathStays(c, d, p, a, now, limit);
      var m :| 0 <= m < |c[a].kids| && c[a].kids[m] == i && NoneExpires(c, a, m + 1, now, limit);
      NoneExpiresSame(c, d, a, m + 1, now, limit);
    }
  }

  lemma FreshDown(c: Tree, p: int, i: int, now: real, limit: real)
    requires Shape(c) && p in c && i in c && c[i].parent == p && p != -1
    requires FreshPath(c, p, now, limit) && FreshHere(c, i, now, limit)
    ensures FreshPath(c, i, now, limit)
  {
  }

  lemma LapsedFresh(c: Tree, d: Tree, p: int, now: real, limit: real)
    requires Shape(c) && Shape(d) && SameElsewhere(c, d, p) && Lapsed(c, d, now, limit)
    requires p in c && p in d && FreshPath(c, p, now, limit)
    ensures FreshPath(d, p, now, limit)
  {
    FreshPathStays(c, d, p, p, now, limit);
  }

  lemma FreshRoot(c: Tree, i: int, now: real, limit: real)
    requires Shape(c) && i in c && c[i].parent == -1
    ensures FreshPath(c, i, now, limit)
  {
  }

  /** The path to p and what is known of it outlast a scan of p's children, and go on with the child found. */
  lemma PathsOn(c: Tree, d: Tree, plays: seq<Play>, p: int, found: int, want: nat, r: nat, pos: nat, now: real,
                limit: real)
    requires Inv(c, plays) && Inv(d, plays) && p in c && p in d && SameElsewhere(c, d, p) && Lapsed(c, d, now, limit)
    requires PathIs(c, plays, p, r, pos)
    requires found != -1 ==> found in d && d[found].parent == p && StartsWith(d[found], plays, want)
    requires found != -1 ==> FirstKid(d, plays, p, want, found) && FreshHere(d, found, now, limit)
    ensures PathIs(d, plays, p, r, pos)
    ensures FirstPath(c, plays, p) ==> FirstPath(d, plays, p) && (found != -1 ==> FirstPath(d, plays, found))
    ensures FreshPath(c, p, now, limit) ==>
      FreshPath(d, p, now, limit) && (found != -1 ==> FreshPath(d, found, now, limit))
  {
    hide Shape, Tiers, Pinning, Slices, PathIs, SameElsewhere, Lapsed, FirstPath, FreshPath, FreshHere, FirstKid,
         StartsWith;
    LapsedPathIs(c, d, plays, now, limit, p, r, pos);
    ParentAt(c, p);
    if FirstPath(c, plays, p) {
      FirstPathStays(c, d, plays, p, p);
      if found != -1 { FirstPathDown(d, plays, p, found, want); }
    }
    if FreshPath(c, p, now, limit) {
      LapsedFresh(c, d, p, now, limit);
      if found != -1 { FreshDown(d, p, found, now, limit); }
    }
  }

  lemma SweptNone(c: Tree, p: int, now: real, limit: real)
    requires Shape(c) && p in c
    ensures Swept(c, c, p, 0, now, limit)
  {
  }

  /** The next child is not expired. */
  lemma SweptPast(c: Tree, d: Tree, p: int, n: nat, now: real, limit: real)
    requires Shape(c) && Swept(c, d, p, n, now, limit) && n < |c[p].kids| && c[p].kids[n] in c
    requires !Expires(c, c[p].kids[n], now, limit)
    ensures Swept(c, d, p, n + 1, now, limit)
  {
    hide Expires, Anc, Shape;
    forall i | i in c && i !in d
      ensures SweptUnder(c, d, p, n + 1, i)
    {
      assert SweptUnder(c, d, p, n, i);
    }
  }

  /** The next child is expired and goes. */
  lemma SweptMore(c: Tree, d: Tree, p: int, n: nat, now: real, limit: real)
    requires Shape(c) && Shape(d) && Swept(c, d, p, n, now, limit) && n < |c[p].kids| && Sheds(c, d, 0)
    requires c[p].kids[n] in d && Expires(c, c[p].kids[n], now, limit)
    ensures Swept(c, Remove(d, c[p].kids[n]), p, n + 1, now, limit)
  {
    hide Expires, Anc, Shape, Remove;
    var x := c[p].kids[n];
    RemoveKept(d, x);
    forall k | 0 <= k < |c[p].kids| && c[p].kids[k] in c
      ensures c[p].kids[k] in Remove(d, x) <==> !(k < n + 1 && Expires(c, c[p].kids[k], now, limit))
    {
      OnlyItself(c, d, p, k, n);
    }
    forall i | i in c && i !in Remove(d, x)
      ensures SweptUnder(c, Remove(d, x), p, n + 1, i)
    {
      if i in d {
        assert i in Desc(d, x);
        ShedsAnc(c, d, 0, x, i);
      } else {
        assert SweptUnder(c, d, p, n, i);
      }
    }
  }

  /** No child lies below another. */
  lemma OnlyItself(c: Tree, d: Tree, p: int, k: nat, n: nat)
    requires Shape(c) && Shape(d) && Sheds(c, d, 0) && p in c && k < |c[p].kids| && n < |c[p].kids|
    requires c[p].kids[n] in d
    ensures c[p].kids[k] in Desc(d, c[p].kids[n]) <==> k == n
  {
    var x, y := c[p].kids[n], c[p].kids[k];
    KidsLive(c, p);
    KidsNoDup(c, p);
    assert Kept(c[x], d[x]);
    ParentAt(d, x);
    if k == n {
      AncSelf(d, x);
    } else if y in d && Anc(d, x, y) {
      assert Kept(c[y], d[y]);
      ParentAt(d, y);
      AncIn(d, x, p);
      assert false;
    }
  }

  lemma NoneExpiresYet(c: Tree, p: int, now: real, limit: real)
    requires Shape(c) && p in c
    ensures NoneExpires(c, p, 0, now, limit)
  {
  }

  lemma NoneExpiresNext(c: Tree, p: int, m: nat, now: real, limit: real)
    requires Shape(c) && NoneExpires(c, p, m, now, limit) && m < |c[p].kids|
    requires c[p].kids[m] in c && !Expires(c, c[p].kids[m], now, limit)
    ensures NoneExpires(c, p, m + 1, now, limit)
  {
  }

  lemma FreshKid(c: Tree, p: int, m: nat, now: real, limit: real)
    requires Shape(c) && p in c && m < |c[p].kids| && NoneExpires(c, p, m + 1, now, limit)
    ensures c[p].kids[m] in c && FreshHere(c, c[p].kids[m], now, limit)
  {
    hide Shape, Expires;
    var x := c[p].kids[m];
    assert x in c[p].kids;
    KidsLive(c, p);
    ParentAt(c, p);
    assert c[c[x].parent].kids[m] == x;
  }

  /** Place m of p's children now is place n of what they were. */
  lemma NextKid(c: Tree, d: Tree, p: int, m: nat, n: nat)
    requires p in c && p in d && n <= |c[p].kids| && m < |d[p].kids| && d[p].kids[m..] == c[p].kids[n..]
    ensures n < |c[p].kids| && d[p].kids[m] == c[p].kids[n] && d[p].kids[m + 1..] == c[p].kids[n + 1..]
  {
    var s, t := d[p].kids, c[p].kids;
    var a, b := s[m..], t[n..];
    assert |a| == |s| - m && |b| == |t| - n && a == b;
    assert s[m] == a[0] && t[n] == b[0];
    assert s[m + 1..] == a[1..] && t[n + 1..] == b[1..];
  }

  lemma LapsedSame(c: Tree, d: Tree, x: int, now: real, limit: real)
    requires Shape(c) && Shape(d) && Lapsed(c, d, now, limit) && x in d
    ensures x in c && (Expires(c, x, now, limit) <==> Expires(d, x, now, limit))
  {
    ExpiresSame(c, d, x, now, limit);
  }

  lemma SweptLapsed(c: Tree, d: Tree, p: int, m: nat, n: nat, now: real, limit: real)
    requires Shape(c) && Shape(d) && Swept(c, d, p, n, now, limit) && n < |c[p].kids| && Lapsed(c, d, now, limit)
    requires p in d && m < |d[p].kids| && d[p].kids[m] == c[p].kids[n]
    requires d[p].kids[m] in d && Expires(d, d[p].kids[m], now, limit)
    ensures Swept(c, Remove(d, d[p].kids[m]), p, n + 1, now, limit)
  {
    hide Swept, Shape, PinnedBelow;
    LapsedSame(c, d, d[p].kids[m], now, limit);
    SweptMore(c, d, p, n, now, limit);
  }

  lemma LapsedStays(c: Tree, d: Tree, p: int, m: nat, now: real, limit: real)
    requires Shape(c) && Shape(d) && Lapsed(c, d, now, limit) && p in c && p in d && NoneExpires(c, p, m, now, limit)
    requires m < |c[p].kids| && d[p].kids == c[p].kids[..m] + c[p].kids[m + 1..]
    ensures NoneExpires(d, p, m, now, limit) && d[p].kids[m..] == c[p].kids[m + 1..]
  {
    NoneExpiresSame(c, d, p, m, now, limit);
  }

  // ---- one scan over the children of a segment ----

  /** The first n children of p in c were looked at: the m of them that stay neither are expired nor begin with `want`,
      the others are gone. */
  ghost predicate Scanned(c: Tree, d: Tree, plays: seq<Play>, p: int, want: nat, m: nat, n: nat, now: real, limit: real)
    requires Shape(c) && Shape(d)
  {
    && p in c && p in d && Lapsed(c, d, now, limit) && SameElsewhere(c, d, p) && (limit <= 0.0 ==> d == c)
    && Swept(c, d, p, n, now, limit) && NoneExpires(d, p, m, now, limit) && NoneBefore(d, plays, p, want, m)
    && m <= |d[p].kids| && n <= |c[p].kids| && d[p].kids[m..] == c[p].kids[n..]
  }

  lemma ScanStart(c: Tree, plays: seq<Play>, p: int, want: nat, now: real, limit: real)
    requires Shape(c) && p in c
    ensures Scanned(c, c, plays, p, want, 0, 0, now, limit)
  {
    hide Shape;
    LapsedRefl(c, now, limit);
    SameHere(c, p);
    SweptNone(c, p, now, limit);
  }

  lemma ScanFacts(c: Tree, d: Tree, plays: seq<Play>, p: int, want: nat, m: nat, n: nat, now: real, limit: real)
    requires Shape(c) && Shape(d) && Scanned(c, d, plays, p, want, m, n, now, limit)
    ensures Lapsed(c, d, now, limit) && SameElsewhere(c, d, p) && (limit <= 0.0 ==> d == c)
    ensures Swept(c, d, p, n, now, limit) && p in c && p in d && d[p].(kids := []) == c[p].(kids := [])
    ensures m <= |d[p].kids| && n <= |c[p].kids| && |d[p].kids| - m == |c[p].kids| - n
  {
    hide Lapsed, Swept, NoneExpires, NoneBefore, Shape;
    assert |d[p].kids[m..]| == |c[p].kids[n..]|;
  }

  lemma ScanPast(c: Tree, d: Tree, plays: seq<Play>, p: int, want: nat, m: nat, n: nat, now: real, limit: real)
    requires Shape(c) && Shape(d) && Scanned(c, d, plays, p, want, m, n, now, limit) && m < |d[p].kids|
    requires d[p].kids[m] in d && !Expires(d, d[p].kids[m], now, limit)
    requires !StartsWith(d[d[p].kids[m]], plays, want)
    ensures Scanned(c, d, plays, p, want, m + 1, n + 1, now, limit)
  {
    hide Shape, Lapsed, Expires, SameElsewhere, Swept, NoneExpires;
    NextKid(c, d, p, m, n);
    LapsedSame(c, d, d[p].kids[m], now, limit);
    SweptPast(c, d, p, n, now, limit);
    NoneExpiresNext(d, p, m, now, limit);
  }

  lemma ScanDrop(c: Tree, d: Tree, plays: seq<Play>, p: int, want: nat, m: nat, n: nat, now: real, limit: real)
    requires Shape(c) && Inv(d, plays) && Scanned(c, d, plays, p, want, m, n, now, limit) && m < |d[p].kids|
    requires d[p].kids[m] in d && Expires(d, d[p].kids[m], now, limit) && Inv(Remove(d, d[p].kids[m]), plays)
    ensures Scanned(c, Remove(d, d[p].kids[m]), plays, p, want, m, n + 1, now, limit)
  {
    hide Shape, Lapsed, SameElsewhere, Swept, NoneExpires, Tiers, Pinning, Slices, Remove, Expires, Desc;
    var x := d[p].kids[m];
    var e := Remove(d, x);
    NextKid(c, d, p, m, n);
    ExpiredIs(d, x, now, limit);
    RemoveKid(d, p, m);
    ParentAt(d, x);
    ParentAt(d, p);
    RemoveLapsed(d, plays, x, now, limit);
    RemoveElsewhere(d, x);
    SweptLapsed(c, d, p, m, n, now, limit);
    LapsedStays(d, e, p, m, now, limit);
    ElsewhereTrans(c, d, e, p);
    LapsedTrans(c, d, e, now, limit);
    forall k | 0 <= k < m && k < |e[p].kids| && e[p].kids[k] in e
      ensures !StartsWith(e[e[p].kids[k]], plays, want)
    {
      var y := e[p].kids[k];
      assert y == d[p].kids[k] && e[y].(kids := []) == d[y].(kids := []);
    }
  }

  lemma ExpiredIs(c: Tree, x: int, now: real, limit: real)
    requires Shape(c) && x in c && Expires(c, x, now, limit)
    ensures now - c[x].lastAccess > limit > 0.0 && forall j :: j in Desc(c, x) ==> c[j].pins <= 0
  {
  }

  lemma NonePinned(c: Tree, id: int)
    requires Shape(c) && !PinnedBelow(c, id)
    ensures forall j :: j in Desc(c, id) ==> c[j].pins <= 0
  {
  }

  /** The scan ended at a child that is not expired and begins with `want`. */
  lemma ScanFound(c: Tree, d: Tree, plays: seq<Play>, p: int, want: nat, m: nat, n: nat, now: real, limit: real)
    requires Shape(c) && Shape(d) && Scanned(c, d, plays, p, want, m, n, now, limit) && m < |d[p].kids|
    requires d[p].kids[m] in d && !Expires(d, d[p].kids[m], now, limit)
    ensures n < |c[p].kids| && d[p].kids[m] == c[p].kids[n]
    ensures FirstKid(d, plays, p, want, d[p].kids[m]) && FreshHere(d, d[p].kids[m], now, limit)
  {
    hide Shape, Lapsed, Expires, SameElsewhere, Swept, NoneExpires, NoneBefore, FreshHere;
    NextKid(c, d, p, m, n);
    NoneExpiresNext(d, p, m, now, limit);
    FreshKid(d, p, m, now, limit);
  }

  lemma ScanDone(c: Tree, d: Tree, plays: seq<Play>, p: int, want: nat, m: nat, n: nat, now: real, limit: real)
    requires Shape(c) && Shape(d) && Scanned(c, d, plays, p, want, m, n, now, limit) && m == |d[p].kids|
    ensures n == |c[p].kids| && NoneExpires(d, p, |d[p].kids|, now, limit)
    ensures forall k :: k in d[p].kids && k in d ==> !StartsWith(d[k], plays, want)
  {
    hide Shape, Lapsed, Expires, SameElsewhere, Swept, NoneExpires, StartsWith;
    assert |d[p].kids[m..]| == |c[p].kids[n..]|;
  }
}
