/** Grouping of worker chains that ran at overlapping times: a sweep that joins each interval to one active interval
    only. */
module Overlap {
  datatype Cand = Cand(t0: real, t1: real, firstOi: nat)

  predicate Before(c: Cand, d: Cand) {
    c.t0 < d.t0 || (c.t0 == d.t0 && c.firstOi < d.firstOi)
  }

  /** One of the two starts before the other, which started earlier, has ended. */
  predicate Touch(cs: seq<Cand>, a: nat, b: nat) {
    a < |cs| && b < |cs| &&
    ((Before(cs[b], cs[a]) && cs[a].t0 < cs[b].t1) || (Before(cs[a], cs[b]) && cs[b].t0 < cs[a].t1))
  }

  ghost predicate Path(cs: seq<Cand>, p: seq<nat>) {
    p != [] && (forall k :: 0 <= k < |p| ==> p[k] < |cs|) && forall k {:trigger p[k]} :: 0 < k < |p| ==>
      Touch(cs, p[k - 1], p[k])
  }

  /** Reachable through a chain of overlaps. */
  ghost predicate Connected(cs: seq<Cand>, a: nat, b: nat) {
    exists p :: Path(cs, p) && p[0] == a && p[|p| - 1] == b
  }

  lemma ConnectedSelf(cs: seq<Cand>, a: nat)
    requires a < |cs|
    ensures Connected(cs, a, a)
  {
    assert Path(cs, [a]);
  }

  lemma ConnectedTouch(cs: seq<Cand>, a: nat, b: nat)
    requires Touch(cs, a, b)
    ensures Connected(cs, a, b)
  {
    var p := [a, b];
    assert Path(cs, p) && p[0] == a && p[|p| - 1] == b;
  }

  lemma ConnectedTrans(cs: seq<Cand>, a: nat, b: nat, c: nat)
    requires Connected(cs, a, b) && Connected(cs, b, c)
    ensures Connected(cs, a, c)
  {
    var p :| Path(cs, p) && p[0] == a && p[|p| - 1] == b;
    var q :| Path(cs, q) && q[0] == b && q[|q| - 1] == c;
    var r := p + q[1..];
    forall k | 0 < k < |r|
      ensures Touch(cs, r[k - 1], r[k])
    {
      if k < |p| {
        assert Touch(cs, p[k - 1], p[k]);
      } else {
        assert Touch(cs, q[k - |p|], q[k - |p| + 1]);
      }
    }
    assert Path(cs, r) && r[0] == a && r[|r| - 1] == c;
  }

  lemma ConnectedSym(cs: seq<Cand>, a: nat, b: nat)
    requires Connected(cs, a, b)
    ensures Connected(cs, b, a)
  {
    var p :| Path(cs, p) && p[0] == a && p[|p| - 1] == b;
    BackAlong(cs, p);
  }

  lemma {:induction false} BackAlong(cs: seq<Cand>, p: seq<nat>)
    requires Path(cs, p)
    ensures Connected(cs, p[|p| - 1], p[0])
    decreases |p|
  {
    hide Connected;
    var n := |p| - 1;
    if n == 0 {
      ConnectedSelf(cs, p[0]);
    } else {
      assert Path(cs, p[..n]);
      BackAlong(cs, p[..n]);
      assert Touch(cs, p[n - 1], p[n]);
      ConnectedTouch(cs, p[n], p[n - 1]);
      ConnectedTrans(cs, p[n], p[n - 1], p[0]);
    }
  }

  // ---- the order of the sweep ----

  ghost predicate Order(cs: seq<Cand>, order: seq<nat>) {
    && |order| == |cs| && (forall k :: 0 <= k < |order| ==> order[k] < |cs|)
    && (forall j, k {:trigger order[j], order[k]} :: 0 <= j < k < |order| ==> Before(cs[order[j]], cs[order[k]]))
    && (forall x: nat :: x < |cs| ==> x in order)
  }

  method SortedOrder(cs: seq<Cand>) returns (order: seq<nat>)
    requires forall j, k :: 0 <= j < k < |cs| ==> cs[j].firstOi != cs[k].firstOi
    ensures Order(cs, order)
  {
    order := [];
    for x := 0 to |cs|
      invariant |order| == x && forall k :: 0 <= k < |order| ==> order[k] < x
      invariant forall j, k {:trigger order[j], order[k]} :: 0 <= j < k < |order| ==> Before(cs[order[j]], cs[order[k]])
      invariant forall y: nat :: y < x ==> y in order
    {
      var i := 0;
      while i < |order| && Before(cs[order[i]], cs[x])
        invariant i <= |order| && forall k :: 0 <= k < i ==> Before(cs[order[k]], cs[x])
      {
        i := i + 1;
      }
      assert i < |order| ==> order[i] < x && cs[order[i]].firstOi != cs[x].firstOi;
      InsertedAt(cs, order, i, x);
      order := order[..i] + [x] + order[i..];
    }
  }

  /** Positions before x are in order, x goes where the first later candidate was. */
  lemma InsertedAt(cs: seq<Cand>, order: seq<nat>, i: nat, x: nat)
    requires x < |cs| && |order| == x && i <= x && forall k :: 0 <= k < x ==> order[k] < x
    requires forall j, k {:trigger order[j], order[k]} :: 0 <= j < k < x ==> Before(cs[order[j]], cs[order[k]])
    requires forall y: nat :: y < x ==> y in order
    requires forall k :: 0 <= k < i ==> Before(cs[order[k]], cs[x])
    requires i < x ==> Before(cs[x], cs[order[i]])
    ensures var s := order[..i] + [x] + order[i..]; (
      |s| == x + 1 && (forall k :: 0 <= k < |s| ==> s[k] < x + 1) &&
      (forall j, k {:trigger s[j], s[k]} :: 0 <= j < k < |s| ==> Before(cs[s[j]], cs[s[k]])) &&
      (forall y: nat :: y < x + 1 ==> y in s))
  {
    var s := order[..i] + [x] + order[i..];
    assert forall k :: 0 <= k < |s| ==> s[k] == if k < i then order[k] else if k == i then x else order[k - 1];
    forall y: nat | y < x + 1
      ensures y in s
    {
      if y == x {
        assert s[i] == x;
      } else {
        assert y in order;
        var k :| 0 <= k < x && order[k] == y;
        assert s[if k < i then k else k + 1] == y;
      }
    }
    forall j, k | 0 <= j < k < |s|
      ensures Before(cs[s[j]], cs[s[k]])
    {
      if j == i && k > i + 1 { assert Before(cs[order[i]], cs[order[k - 1]]); }
    }
  }

  // ---- union-find ----

  /** Parents point to earlier starts, so every climb ends. */
  ghost predicate Forest(parent: seq<nat>, cs: seq<Cand>) {
    && |parent| == |cs|
    && (forall x {:trigger parent[x]} :: 0 <= x < |cs| ==>
          parent[x] < |cs| && (parent[x] == x || Before(cs[parent[x]], cs[x])))
  }

  ghost function EarlierSet(cs: seq<Cand>, x: nat): set<nat> {
    set y: nat | y < |cs| && x < |cs| && Before(cs[y], cs[x])
  }

  lemma EarlierShrinks(cs: seq<Cand>, x: nat, y: nat)
    requires x < |cs| && y < |cs| && Before(cs[y], cs[x])
    ensures EarlierSet(cs, y) < EarlierSet(cs, x)
  {
    assert y in EarlierSet(cs, x) && y !in EarlierSet(cs, y);
  }

  ghost function Root(parent: seq<nat>, cs: seq<Cand>, x: nat): (r: nat)
    requires Forest(parent, cs) && x < |cs|
    ensures r < |cs| && parent[r] == r
    decreases EarlierSet(cs, x)
  {
    if parent[x] == x then x
    else
      EarlierShrinks(cs, x, parent[x]);
      Root(parent, cs, parent[x])
  }

  /** Pointing a node at its grandparent changes no root. */
  lemma {:induction false} HalvingKeepsRoots(parent: seq<nat>, cs: seq<Cand>, x: nat, y: nat)
    requires Forest(parent, cs) && x < |cs| && y < |cs|
    ensures var p := parent[x := parent[parent[x]]]; Forest(p, cs) && Root(p, cs, y) == Root(parent, cs, y)
    decreases EarlierSet(cs, y)
  {
    var p := parent[x := parent[parent[x]]];
    assert Forest(p, cs);
    if parent[y] != y {
      EarlierShrinks(cs, y, parent[y]);
      HalvingKeepsRoots(parent, cs, x, parent[y]);
      if y == x && parent[parent[y]] != parent[y] {
        EarlierShrinks(cs, parent[y], parent[parent[y]]);
        HalvingKeepsRoots(parent, cs, x, parent[parent[y]]);
      }
    }
  }

  /** Intervals not started yet stand alone. */
  ghost predicate Apart(parent: seq<nat>, started: set<nat>) {
    forall z: nat :: z < |parent| && z !in started ==>
      parent[z] == z && forall w {:trigger parent[w]} :: 0 <= w < |parent| && w != z ==> parent[w] != z
  }

  /** The root of x0, shortening the way there by pointing every other node at its grandparent. */
  method Find(parent: seq<nat>, cs: seq<Cand>, x0: nat, ghost started: set<nat>) returns (x: nat, p: seq<nat>)
    requires Forest(parent, cs) && x0 < |cs| && Apart(parent, started)
    ensures Forest(p, cs) && x == Root(parent, cs, x0) && Apart(p, started)
    ensures forall y: nat :: y < |cs| ==> Root(p, cs, y) == Root(parent, cs, y)
  {
    x, p := x0, parent;
    while p[x] != x
      invariant Forest(p, cs) && x < |cs| && Root(p, cs, x) == Root(parent, cs, x0) && Apart(p, started)
      invariant forall y: nat :: y < |cs| ==> Root(p, cs, y) == Root(parent, cs, y)
      decreases EarlierSet(cs, x)
    {
      forall y: nat | y < |cs|
        ensures var q := p[x := p[p[x]]]; Forest(q, cs) && Root(q, cs, y) == Root(p, cs, y)
      {
        HalvingKeepsRoots(p, cs, x, y);
      }
      var g := p[p[x]];
      EarlierShrinks(cs, x, p[x]);
      if p[p[x]] != p[x] { EarlierShrinks(cs, p[x], g); }
      p := p[x := g];
      x := g;
    }
  }

  /** A lone node hung below another root: its own root becomes that one, nobody else's changes. */
  lemma {:induction false} HangKeepsRoots(parent: seq<nat>, cs: seq<Cand>, i: nat, r: nat, y: nat)
    requires Forest(parent, cs) && i < |cs| && r < |cs| && y < |cs| && parent[i] == i && parent[r] == r &&
      Before(cs[r], cs[i])
    requires forall z :: 0 <= z < |cs| && z != i ==> parent[z] != i
    ensures var p := parent[i := r]; Forest(p, cs) && Root(p, cs, y) == if y == i then r else Root(parent, cs, y)
    decreases EarlierSet(cs, y)
  {
    var p := parent[i := r];
    assert Forest(p, cs);
    if y != i && parent[y] != y {
      EarlierShrinks(cs, y, parent[y]);
      HangKeepsRoots(parent, cs, i, r, parent[y]);
    }
  }

  // ---- the sweep ----

  predicate EndsFirst(cs: seq<Cand>, a: nat, b: nat)
    requires a < |cs| && b < |cs|
  {
    cs[a].t1 < cs[b].t1 || (cs[a].t1 == cs[b].t1 && a <= b)
  }

  ghost predicate Started(cs: seq<Cand>, started: set<nat>) {
    && (forall x :: x in started ==> x < |cs|)
    && (forall x, z: nat :: x in started && z < |cs| && z !in started ==> Before(cs[x], cs[z]))
  }

  /** Started intervals that are no longer active had ended before anything yet to come starts. */
  ghost predicate Actives(cs: seq<Cand>, started: set<nat>, active: set<nat>) {
    && active <= started && (forall x :: x in started ==> x < |cs|)
    && (forall y, z: nat :: y in started && y !in active && z < |cs| && z !in started ==> cs[y].t1 <= cs[z].t0)
  }

  /** Among the started intervals, one tree of the forest is one connected component. */
  ghost predicate Components(parent: seq<nat>, cs: seq<Cand>, started: set<nat>)
    requires Forest(parent, cs) && forall x :: x in started ==> x < |cs|
  {
    && (forall a, b :: a in started && b in started && Root(parent, cs, a) == Root(parent, cs, b) ==>
      Connected(cs, a, b))
    && (forall a, b :: a in started && b in started && Touch(cs, a, b) ==> Root(parent, cs, a) == Root(parent, cs, b))
  }

  lemma {:induction false} RootStarted(parent: seq<nat>, cs: seq<Cand>, started: set<nat>, x: nat)
    requires Forest(parent, cs) && Apart(parent, started) && x in started && x < |cs|
    ensures Root(parent, cs, x) in started
    decreases EarlierSet(cs, x)
  {
    if parent[x] != x {
      EarlierShrinks(cs, x, parent[x]);
      RootStarted(parent, cs, started, parent[x]);
    }
  }

  /** Two intervals active at one moment touch. */
  lemma ActiveTouch(cs: seq<Cand>, started: set<nat>, a: nat, b: nat, x: nat)
    requires Started(cs, started) && a in started && b in started && x < |cs| && x !in started && a != b
    requires cs[a].t1 > cs[x].t0 && cs[b].t1 > cs[x].t0 && cs[a].firstOi != cs[b].firstOi
    ensures Touch(cs, a, b)
  {
  }

  lemma AloneStep(parent: seq<nat>, cs: seq<Cand>, started: set<nat>, x: nat)
    requires Forest(parent, cs) && Started(cs, started) && Apart(parent, started) && Components(parent, cs, started)
    requires x < |cs| && x !in started && Actives(cs, started, {})
    ensures Components(parent, cs, started + {x}) && Apart(parent, started + {x})
  {
    ConnectedSelf(cs, x);
    forall a | a in started
      ensures Root(parent, cs, a) != Root(parent, cs, x) && !Touch(cs, a, x) && !Touch(cs, x, a)
    {
      RootStarted(parent, cs, started, a);
      assert Before(cs[a], cs[x]);
    }
  }

  lemma JoinForest(parent: seq<nat>, cs: seq<Cand>, started: set<nat>, x: nat, top: nat)
    requires Forest(parent, cs) && Started(cs, started) && Apart(parent, started) && top in started
    requires x < |cs| && x !in started
    ensures var p, r := parent[x := Root(parent, cs, top)], Root(parent, cs, top); (
      r in started && Forest(p, cs) && Apart(p, started + {x}) &&
      forall y: nat :: y < |cs| ==> Root(p, cs, y) == if y == x then r else Root(parent, cs, y))
  {
    var r := Root(parent, cs, top);
    var p := parent[x := r];
    RootStarted(parent, cs, started, top);
    assert Before(cs[r], cs[x]);
    forall y: nat | y < |cs|
      ensures Forest(p, cs) && Root(p, cs, y) == if y == x then r else Root(parent, cs, y)
    {
      HangKeepsRoots(parent, cs, x, r, y);
    }
  }

  /** Whoever touches x is active when it starts, and so in the component of the earliest-ending active interval. */
  lemma JoinTouch(parent: seq<nat>, cs: seq<Cand>, started: set<nat>, active: set<nat>, x: nat, top: nat, a: nat)
    requires Forest(parent, cs) && Started(cs, started) && Components(parent, cs, started)
    requires x < |cs| && x !in started && Actives(cs, started, active) && top in active && cs[top].t1 > cs[x].t0
    requires forall y :: y in active ==> EndsFirst(cs, top, y)
    requires forall j, k :: 0 <= j < k < |cs| ==> cs[j].firstOi != cs[k].firstOi
    requires a in started && (Touch(cs, a, x) || Touch(cs, x, a))
    ensures Root(parent, cs, a) == Root(parent, cs, top)
  {
    hide Connected;
    assert Before(cs[a], cs[x]);
    assert a in active;
    if a != top {
      assert EndsFirst(cs, top, a) && cs[a].firstOi != cs[top].firstOi;
      ActiveTouch(cs, started, a, top, x);
    }
  }

  lemma JoinConnected(parent: seq<nat>, cs: seq<Cand>, started: set<nat>, x: nat, top: nat, a: nat)
    requires Forest(parent, cs) && Started(cs, started) && Components(parent, cs, started)
    requires x < |cs| && top in started && a in started && Touch(cs, x, top) &&
      Root(parent, cs, a) == Root(parent, cs, top)
    ensures Connected(cs, a, x) && Connected(cs, x, a)
  {
    hide Connected, Touch;
    ConnectedTouch(cs, x, top);
    assert Connected(cs, top, a);
    ConnectedTrans(cs, x, top, a);
    ConnectedSym(cs, x, a);
  }

  lemma JoinStep(parent: seq<nat>, cs: seq<Cand>, started: set<nat>, active: set<nat>, x: nat, top: nat)
    requires Forest(parent, cs) && Started(cs, started) && Apart(parent, started) && Components(parent, cs, started)
    requires x < |cs| && x !in started && Actives(cs, started, active) && top in active && cs[top].t1 > cs[x].t0
    requires forall y :: y in active ==> EndsFirst(cs, top, y)
    requires forall j, k :: 0 <= j < k < |cs| ==> cs[j].firstOi != cs[k].firstOi
    ensures var p := parent[x := Root(parent, cs, top)]; (
      Forest(p, cs) && Apart(p, started + {x}) && Components(p, cs, started + {x}))
  {
    hide Forest, Apart, Connected, Touch, Before, Root, EndsFirst;
    JoinForest(parent, cs, started, x, top);
    TopTouches(cs, started, x, top);
    ConnectedSelf(cs, x);
    forall a | a in started && Root(parent, cs, a) == Root(parent, cs, top)
      ensures Connected(cs, a, x) && Connected(cs, x, a)
    {
      JoinConnected(parent, cs, started, x, top, a);
    }
    forall a | a in started && (Touch(cs, a, x) || Touch(cs, x, a))
      ensures Root(parent, cs, a) == Root(parent, cs, top)
    {
      JoinTouch(parent, cs, started, active, x, top, a);
    }
  }

  lemma TopTouches(cs: seq<Cand>, started: set<nat>, x: nat, top: nat)
    requires Started(cs, started) && top in started && x < |cs| && x !in started && cs[top].t1 > cs[x].t0
    ensures Touch(cs, x, top)
  {
  }

  /** The loop of `overlap_components` over the candidates in order of their starts. */
  method Sweep(cs: seq<Cand>, order: seq<nat>) returns (parent: seq<nat>)
    requires Order(cs, order) && forall j, k :: 0 <= j < k < |cs| ==> cs[j].firstOi != cs[k].firstOi
    ensures Forest(parent, cs)
    ensures forall a: nat, b: nat :: a < |cs| && b < |cs| ==>
      (Root(parent, cs, a) == Root(parent, cs, b) <==> Connected(cs, a, b))
  {
    hide Components, Connected, Touch, Actives;
    parent := seq(|cs|, i => i);
    var active: set<nat> := {};
    ghost var started: set<nat> := {};
    StartEmpty(cs, parent);
    for k := 0 to |order|
      invariant Forest(parent, cs) && Started(cs, started) && Apart(parent, started) && Components(parent, cs, started)
      invariant Actives(cs, started, active) && forall y :: y in started <==> y in order[..k]
    {
      var x := order[k];
      assert order[..k + 1] == order[..k] + [x];
      NotYet(cs, order, k, started);
      active := PopEnded(cs, active, started, x);
      ghost var before := parent;
      if active != {} {
        var top := EarliestEnd(cs, active);
        assert top in started;
        var rx, rt;
        rx, parent := Find(parent, cs, x, started);
        SameComponents(before, parent, cs, started);
        ghost var mid := parent;
        rt, parent := Find(parent, cs, top, started);
        SameComponents(mid, parent, cs, started);
        LoneRoot(before, cs, started, x);
        JoinStep(parent, cs, started, active, x, top);
        parent := parent[rx := rt];
      } else {
        AloneStep(parent, cs, started, x);
      }
      NextStart(cs, started, active, x);
      active := active + {x};
      started := started + {x};
    }
    assert order[..|order|] == order;
    AllStarted(cs, order, started);
    SweepResult(parent, cs, started);
  }

  /** Drops from the queue, earliest end first, whatever ended by the time x starts. */
  method PopEnded(cs: seq<Cand>, active0: set<nat>, ghost started: set<nat>, x: nat) returns (active: set<nat>)
    requires Started(cs, started) && Actives(cs, started, active0) && x < |cs| && x !in started
    requires forall z: nat :: z < |cs| && z !in started && z != x ==> Before(cs[x], cs[z])
    ensures Actives(cs, started, active) && forall y :: y in active ==> y < |cs| && cs[y].t1 > cs[x].t0
  {
    active := active0;
    while active != {}
      invariant Actives(cs, started, active)
      decreases active
    {
      var top := EarliestEnd(cs, active);
      if cs[top].t1 > cs[x].t0 { break; }
      active := active - {top};
    }
  }

  method EarliestEnd(cs: seq<Cand>, active: set<nat>) returns (top: nat)
    requires active != {} && forall y :: y in active ==> y < |cs|
    ensures top in active && forall y :: y in active ==> EndsFirst(cs, top, y)
  {
    var rest := active;
    top :| top in active;
    while rest != {}
      invariant rest <= active && top in active
      invariant forall y :: y in active && y !in rest ==> EndsFirst(cs, top, y)
      decreases rest
    {
      var y :| y in rest;
      if !EndsFirst(cs, top, y) { top := y; }
      rest := rest - {y};
    }
  }

  lemma StartEmpty(cs: seq<Cand>, parent: seq<nat>)
    requires |parent| == |cs| && forall i :: 0 <= i < |cs| ==> parent[i] == i
    ensures Forest(parent, cs) && Started(cs, {}) && Apart(parent, {}) && Components(parent, cs, {}) &&
      Actives(cs, {}, {})
  {
  }

  lemma NotYet(cs: seq<Cand>, order: seq<nat>, k: nat, started: set<nat>)
    requires Order(cs, order) && k < |order| && forall y :: y in started <==> y in order[..k]
    ensures order[k] !in started && order[k] < |cs|
    ensures forall z: nat :: z < |cs| && z !in started && z != order[k] ==> Before(cs[order[k]], cs[z])
  {
    assert forall j :: 0 <= j < k ==> order[j] in order[..k];
    forall z: nat | z < |cs| && z !in started && z != order[k]
      ensures Before(cs[order[k]], cs[z])
    {
      assert z in order;
      var j :| 0 <= j < |order| && order[j] == z;
      assert k < j;
    }
    forall j | 0 <= j < k
      ensures order[j] != order[k]
    {
      assert Before(cs[order[j]], cs[order[k]]);
    }
  }

  lemma SameComponents(parent: seq<nat>, p: seq<nat>, cs: seq<Cand>, started: set<nat>)
    requires Forest(parent, cs) && Forest(p, cs) && (forall x :: x in started ==> x < |cs|) &&
      Components(parent, cs, started)
    requires forall y: nat :: y < |cs| ==> Root(p, cs, y) == Root(parent, cs, y)
    ensures Components(p, cs, started)
  {
  }

  lemma LoneRoot(parent: seq<nat>, cs: seq<Cand>, started: set<nat>, x: nat)
    requires Forest(parent, cs) && Apart(parent, started) && x < |cs| && x !in started
    ensures Root(parent, cs, x) == x
  {
  }

  lemma NextStart(cs: seq<Cand>, started: set<nat>, active: set<nat>, x: nat)
    requires Started(cs, started) && Actives(cs, started, active) && x < |cs| && x !in started
    requires forall z: nat :: z < |cs| && z !in started && z != x ==> Before(cs[x], cs[z])
    ensures Started(cs, started + {x}) && Actives(cs, started + {x}, active + {x})
  {
  }

  lemma AllStarted(cs: seq<Cand>, order: seq<nat>, started: set<nat>)
    requires Order(cs, order) && forall y :: y in started <==> y in order
    ensures forall y: nat :: y < |cs| ==> y in started
  {
  }

  lemma {:induction false} PathRoots(parent: seq<nat>, cs: seq<Cand>, started: set<nat>, p: seq<nat>)
    requires Forest(parent, cs) && (forall x :: x in started ==> x < |cs|) && Components(parent, cs, started)
    requires (forall y: nat :: y < |cs| ==> y in started) && Path(cs, p)
    ensures Root(parent, cs, p[0]) == Root(parent, cs, p[|p| - 1])
    decreases |p|
  {
    hide Connected;
    var n := |p| - 1;
    if n > 0 {
      assert Path(cs, p[..n]);
      PathRoots(parent, cs, started, p[..n]);
      assert Touch(cs, p[n - 1], p[n]);
    }
  }

  lemma SweepResult(parent: seq<nat>, cs: seq<Cand>, started: set<nat>)
    requires Forest(parent, cs) && (forall x :: x in started ==> x < |cs|) && Components(parent, cs, started)
    requires forall y: nat :: y < |cs| ==> y in started
    ensures forall a: nat, b: nat :: a < |cs| && b < |cs| ==>
      (Root(parent, cs, a) == Root(parent, cs, b) <==> Connected(cs, a, b))
  {
    forall a: nat, b: nat | a < |cs| && b < |cs| && Connected(cs, a, b)
      ensures Root(parent, cs, a) == Root(parent, cs, b)
    {
      var p :| Path(cs, p) && p[0] == a && p[|p| - 1] == b;
      PathRoots(parent, cs, started, p);
    }
  }

  // ---- the groups ----

  /** The candidates labelled k among the first n, in index order. */
  function Members(group: seq<nat>, k: nat, n: nat): seq<nat>
    requires n <= |group|
  {
    if n == 0 then [] else Members(group, k, n - 1) + (if group[n - 1] == k then [n - 1] else [])
  }

  lemma {:induction false} MembersGrow(group: seq<nat>, c: nat, k: nat, n: nat)
    requires n <= |group|
    ensures Members(group + [c], k, n) == Members(group, k, n)
    decreases n
  {
    if n > 0 { MembersGrow(group, c, k, n - 1); }
  }

  lemma MembersSnoc(group: seq<nat>, c: nat, k: nat, n: nat)
    requires n == |group|
    ensures Members(group + [c], k, n + 1) == Members(group, k, n) + (if c == k then [n] else [])
  {
    MembersGrow(group, c, k, n);
  }

  lemma {:induction false} MembersNone(group: seq<nat>, k: nat, n: nat)
    requires n <= |group| && forall i :: 0 <= i < n ==> group[i] != k
    ensures Members(group, k, n) == []
    decreases n
  {
    if n > 0 { MembersNone(group, k, n - 1); }
  }

  lemma {:induction false} MembersAre(group: seq<nat>, k: nat, n: nat)
    requires n <= |group|
    ensures forall i: nat :: i in Members(group, k, n) <==> i < n && group[i] == k
    ensures forall a, b :: 0 <= a < b < |Members(group, k, n)| ==> Members(group, k, n)[a] < Members(group, k, n)[b]
    decreases n
  {
    if n > 0 {
      MembersAre(group, k, n - 1);
      var m := Members(group, k, n - 1);
      assert forall a :: 0 <= a < |m| ==> m[a] in m;
    }
  }

  /** The first i candidates are grouped by their roots, groups in the order of their first candidates. */
  ghost predicate Grouped(roots: seq<nat>, comps: seq<seq<nat>>, compOf: map<nat, nat>, group: seq<nat>, i: nat) {
    && |group| == i <= |roots| && (forall j :: 0 <= j < i ==> group[j] < |comps|)
    && (forall j :: 0 <= j < i ==> roots[j] in compOf && compOf[roots[j]] == group[j])
    && (forall r :: r in compOf ==> compOf[r] < |comps|)
    && (forall r, q :: r in compOf && q in compOf && compOf[r] == compOf[q] ==> r == q)
    && (forall k :: 0 <= k < |comps| ==> comps[k] == Members(group, k, i) && comps[k] != [] && comps[k][0] < i)
    && (forall k, l :: 0 <= k < l < |comps| ==> comps[k][0] < comps[l][0])
  }

  /** Candidate i, whose root is r, joins the group of that root, or opens it. */
  method Place(ghost roots: seq<nat>, comps0: seq<seq<nat>>, compOf0: map<nat, nat>, ghost group0: seq<nat>, i: nat,
               r: nat)
    returns (comps: seq<seq<nat>>, compOf: map<nat, nat>, ghost group: seq<nat>)
    requires Grouped(roots, comps0, compOf0, group0, i) && i < |roots| && roots[i] == r
    ensures Grouped(roots, comps, compOf, group, i + 1)
  {
    hide Members;
    comps, compOf := comps0, compOf0;
    if r !in compOf {
      compOf := compOf[r := |comps|];
      comps := comps + [[]];
      MembersNone(group0, |comps0|, i);
    }
    var c := compOf[r];
    comps := comps[c := comps[c] + [i]];
    group := group0 + [c];
    forall k: nat | k < |comps|
      ensures comps[k] == Members(group, k, i + 1) && comps[k] != [] && comps[k][0] < i + 1
    {
      MembersSnoc(group0, c, k, i);
    }
  }

  /** A connected component of overlap, in index order. */
  ghost predicate Component(cs: seq<Cand>, comp: seq<nat>) {
    && comp != [] && (forall j, l :: 0 <= j < l < |comp| ==> comp[j] < comp[l])
    && (forall a :: a in comp ==> a < |cs|)
    && (forall a: nat, b: nat :: a in comp && b < |cs| ==> (b in comp <==> Connected(cs, a, b)))
  }

  ghost predicate InSome(comps: seq<seq<nat>>, a: nat) {
    exists comp :: comp in comps && a in comp
  }

  /** Every candidate is in exactly one group, and groups are the connected components of overlap. */
  method OverlapComponents(cs: seq<Cand>) returns (comps: seq<seq<nat>>)
    requires forall j, k :: 0 <= j < k < |cs| ==> cs[j].firstOi != cs[k].firstOi
    ensures forall k :: 0 <= k < |comps| ==> Component(cs, comps[k])
    ensures forall a: nat :: a < |cs| ==> InSome(comps, a)
    ensures forall k, l, a: nat :: 0 <= k < l < |comps| && a in comps[k] ==> a !in comps[l]
    ensures forall k, l :: 0 <= k < l < |comps| ==> comps[k] != [] && comps[l] != [] && comps[k][0] < comps[l][0]
  {
    hide Connected, Before, Touch, Members, Component, InSome;
    var order := SortedOrder(cs);
    var parent := Sweep(cs, order);
    ghost var p0 := parent;
    ghost var all := set x | x in order;
    ghost var roots: seq<nat> := seq(|cs|, j requires 0 <= j < |cs| => Root(p0, cs, j));
    var compOf: map<nat, nat> := map[];
    ghost var group: seq<nat> := [];
    comps := [];
    for i := 0 to |cs|
      invariant Forest(parent, cs) && Apart(parent, all)
      invariant forall y: nat :: y < |cs| ==> Root(parent, cs, y) == Root(p0, cs, y)
      invariant Grouped(roots, comps, compOf, group, i)
    {
      var r;
      r, parent := Find(parent, cs, i, all);
      comps, compOf, group := Place(roots, comps, compOf, group, i, r);
    }
    Spread(cs, p0, roots, comps, compOf, group);
  }

  lemma Spread(cs: seq<Cand>, parent: seq<nat>, roots: seq<nat>, comps: seq<seq<nat>>, compOf: map<nat, nat>,
               group: seq<nat>)
    requires Forest(parent, cs) && |roots| == |cs| && (forall a: nat :: a < |cs| ==> roots[a] == Root(parent, cs, a))
    requires Grouped(roots, comps, compOf, group, |cs|)
    requires forall a: nat, b: nat :: a < |cs| && b < |cs| ==>
      (Root(parent, cs, a) == Root(parent, cs, b) <==> Connected(cs, a, b))
    ensures forall k :: 0 <= k < |comps| ==> Component(cs, comps[k])
    ensures forall a: nat :: a < |cs| ==> InSome(comps, a)
    ensures forall k, l, a: nat :: 0 <= k < l < |comps| && a in comps[k] ==> a !in comps[l]
  {
    hide Connected, Members, Root, Forest;
    forall k: nat, a: nat | k < |comps|
      ensures a in comps[k] <==> a < |cs| && group[a] == k
    {
      MembersAre(group, k, |cs|);
    }
    forall k: nat | k < |comps|
      ensures Component(cs, comps[k])
    {
      MembersAre(group, k, |cs|);
      forall a: nat, b: nat | a in comps[k] && b < |cs|
        ensures b in comps[k] <==> Connected(cs, a, b)
      {
        assert group[a] == group[b] <==> roots[a] == roots[b];
      }
    }
    forall k: nat, l: nat, a: nat | k < l < |comps| && a in comps[k]
      ensures a !in comps[l]
    {
      assert a in comps[k] <==> a < |cs| && group[a] == k;
    }
    forall a: nat | a < |cs|
      ensures InSome(comps, a)
    {
      assert a in comps[group[a]];
    }
  }
}
