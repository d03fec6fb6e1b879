/** The inverse solver: a grid walked by an odometer, boundaries refined by bisection, and the final selection. */
module Solver {
  type Index = seq<nat>

  // ---- the odometer ----

  ghost predicate Shape(shape: seq<nat>) {
    forall a :: 0 <= a < |shape| ==> shape[a] > 0
  }

  predicate InGrid(shape: seq<nat>, idx: Index) {
    |idx| == |shape| && forall a :: 0 <= a < |shape| ==> idx[a] < shape[a]
  }

  ghost function Size(shape: seq<nat>): nat {
    if shape == [] then 1 else shape[0] * Size(shape[1..])
  }

  /** Position of an index vector in the walk: the first axis turns fastest. */
  ghost function Rank(shape: seq<nat>, idx: Index): nat
    requires |idx| == |shape|
  {
    if shape == [] then 0 else idx[0] + shape[0] * Rank(shape[1..], idx[1..])
  }

  lemma Tail(shape: seq<nat>, idx: Index)
    requires Shape(shape) && InGrid(shape, idx) && shape != []
    ensures Shape(shape[1..]) && InGrid(shape[1..], idx[1..]) && idx[0] < shape[0]
  {
  }

  lemma Times(s: nat, p: nat, q: nat)
    requires p <= q
    ensures s * p <= s * q
  {
  }

  /** A larger upper digit outweighs any lower one. */
  lemma Outweighs(s: nat, x: nat, y: nat, p: nat, q: nat)
    requires y < s
    ensures q < p ==> y + s * q < x + s * p
  {
    if q < p {
      Times(s, q + 1, p);
      assert s * (q + 1) == s * q + s;
    }
  }

  lemma Digits(s: nat, x: nat, y: nat, p: nat, q: nat)
    requires x < s && y < s && x + s * p == y + s * q
    ensures x == y && p == q
  {
    Outweighs(s, x, y, p, q);
    Outweighs(s, y, x, q, p);
  }

  lemma {:induction false} RankBound(shape: seq<nat>, idx: Index)
    requires Shape(shape) && InGrid(shape, idx)
    ensures Rank(shape, idx) < Size(shape)
    decreases |shape|
  {
    if shape != [] {
      Tail(shape, idx);
      RankBound(shape[1..], idx[1..]);
      Outweighs(shape[0], 0, idx[0], Size(shape[1..]), Rank(shape[1..], idx[1..]));
    }
  }

  /** No two index vectors have the same position. */
  lemma {:induction false} RankUnique(shape: seq<nat>, i: Index, j: Index)
    requires Shape(shape) && InGrid(shape, i) && InGrid(shape, j) && Rank(shape, i) == Rank(shape, j)
    ensures i == j
    decreases |shape|
  {
    if shape != [] {
      Tail(shape, i);
      Tail(shape, j);
      Digits(shape[0], i[0], j[0], Rank(shape[1..], i[1..]), Rank(shape[1..], j[1..]));
      RankUnique(shape[1..], i[1..], j[1..]);
      assert i == [i[0]] + i[1..] && j == [j[0]] + j[1..];
    }
  }

  lemma {:induction false} RankZeros(shape: seq<nat>, idx: Index)
    requires |idx| == |shape| && forall a :: 0 <= a < |idx| ==> idx[a] == 0
    ensures Rank(shape, idx) == 0
    decreases |shape|
  {
    if shape != [] {
      RankZeros(shape[1..], idx[1..]);
    }
  }

  /** One turn of axis a after the lower axes rolled over. */
  lemma {:induction false} RankTurn(shape: seq<nat>, i: Index, j: Index, a: nat)
    requires Shape(shape) && |i| == |j| == |shape| && a < |shape| && j[a] == i[a] + 1
    requires forall b :: 0 <= b < a ==> i[b] == shape[b] - 1 && j[b] == 0
    requires forall b :: a < b < |shape| ==> j[b] == i[b]
    ensures Rank(shape, j) == Rank(shape, i) + 1
    decreases |shape|
  {
    var s := shape[0];
    if a == 0 {
      assert j[1..] == i[1..];
    } else {
      RankTurn(shape[1..], i[1..], j[1..], a - 1);
      var r := Rank(shape[1..], i[1..]);
      assert s * (r + 1) == s * r + s;
    }
  }

  lemma {:induction false} RankLast(shape: seq<nat>, i: Index)
    requires Shape(shape) && |i| == |shape| && forall b :: 0 <= b < |shape| ==> i[b] == shape[b] - 1
    ensures Rank(shape, i) == Size(shape) - 1
    decreases |shape|
  {
    if shape != [] {
      RankLast(shape[1..], i[1..]);
      var s, n := shape[0], Size(shape[1..]);
      assert s * (n - 1) == s * n - s;
    }
  }

  /** `next`: one step of the odometer; false when it has rolled over to the start. */
  method Next(shape: seq<nat>, idx0: Index) returns (more: bool, idx: Index)
    requires Shape(shape) && InGrid(shape, idx0)
    ensures InGrid(shape, idx)
    ensures more ==> Rank(shape, idx) == Rank(shape, idx0) + 1
    ensures !more ==> Rank(shape, idx0) == Size(shape) - 1 && Rank(shape, idx) == 0
  {
    idx := idx0;
    for a := 0 to |shape|
      invariant |idx| == |shape|
      invariant forall b :: 0 <= b < a ==> idx0[b] == shape[b] - 1 && idx[b] == 0
      invariant forall b :: a <= b < |shape| ==> idx[b] == idx0[b]
    {
      idx := idx[a := idx[a] + 1];
      if idx[a] < shape[a] {
        RankTurn(shape, idx0, idx, a);
        return true, idx;
      }
      idx := idx[a := 0];
    }
    RankLast(shape, idx0);
    RankZeros(shape, idx);
    return false, idx;
  }

  /** The walk visits every index vector of the grid exactly once. */
  method Walk(shape: seq<nat>) returns (visited: seq<Index>)
    requires Shape(shape)
    ensures |visited| == Size(shape) && forall k :: 0 <= k < |visited| ==> InGrid(shape, visited[k])
    ensures forall j, k :: 0 <= j < k < |visited| ==> visited[j] != visited[k]
    ensures forall idx :: InGrid(shape, idx) ==> idx in visited
  {
    var idx := Zeros(|shape|);
    RankZeros(shape, idx);
    RankBound(shape, idx);
    visited := [];
    var more := true;
    while more
      invariant InGrid(shape, idx) && (more ==> Rank(shape, idx) == |visited| < Size(shape)) &&
        (!more ==> |visited| == Size(shape))
      invariant forall k :: 0 <= k < |visited| ==> InGrid(shape, visited[k]) && Rank(shape, visited[k]) == k
      decreases Size(shape) - |visited|
    {
      visited := visited + [idx];
      more, idx := Next(shape, idx);
      if more { RankBound(shape, idx); }
    }
    forall idx | InGrid(shape, idx)
      ensures idx in visited
    {
      RankBound(shape, idx);
      RankUnique(shape, idx, visited[Rank(shape, idx)]);
    }
  }

  function Zeros(n: nat): (z: Index)
    ensures |z| == n && forall a :: 0 <= a < n ==> z[a] == 0
  {
    seq(n, _ => 0)
  }

  // ---- which points the full model runs on ----

  /** Index vectors that differ by one step on one axis. */
  predicate Neighbours(shape: seq<nat>, i: Index, j: Index) {
    |i| == |j| == |shape| && exists a :: 0 <= a < |shape| && StepAt(i, j, a)
  }

  method NeighboursOf(shape: seq<nat>, idx: Index) returns (c: set<Index>)
    requires Shape(shape) && InGrid(shape, idx)
    ensures forall j :: j in c <==> InGrid(shape, j) && Neighbours(shape, idx, j)
  {
    c := {};
    for a := 0 to |shape|
      invariant forall j :: j in c <==> InGrid(shape, j) && StepsBefore(shape, idx, j, a)
    {
      ghost var c0 := c;
      if idx[a] >= 1 { c := c + {idx[a := idx[a] - 1]}; }
      if idx[a] + 1 < shape[a] { c := c + {idx[a := idx[a] + 1]}; }
      forall j
        ensures j in c <==> InGrid(shape, j) && StepsBefore(shape, idx, j, a + 1)
      {
        OneStep(shape, idx, j, a);
      }
    }
    forall j
      ensures InGrid(shape, j) ==> (StepsBefore(shape, idx, j, |shape|) <==> Neighbours(shape, idx, j))
    {
    }
  }

  predicate StepAt(i: Index, j: Index, a: nat)
    requires |i| == |j| && a < |i|
  {
    (j[a] == i[a] + 1 || i[a] == j[a] + 1) && forall b :: 0 <= b < |i| && b != a ==> i[b] == j[b]
  }

  ghost predicate StepsBefore(shape: seq<nat>, i: Index, j: Index, n: nat) {
    |i| == |j| == |shape| && exists a :: 0 <= a < n && a < |shape| && StepAt(i, j, a)
  }

  lemma OneStep(shape: seq<nat>, idx: Index, j: Index, a: nat)
    requires InGrid(shape, idx) && a < |shape|
    ensures InGrid(shape, j) && StepAt(idx, j, a) <==> (
      (idx[a] >= 1 && j == idx[a := idx[a] - 1]) || (idx[a] + 1 < shape[a] && j == idx[a := idx[a] + 1]))
  {
  }

  // ---- one evaluation ----

  /** The metrics of one run of the model. */
  type Outcome = map<string, real>

  /** The share of metric m over the first n runs: each counts for one of `all`. */
  ghost function Share(runs: nat -> Outcome, m: string, n: nat, all: nat): real
    requires all > 0
  {
    if n == 0 then 0.0
    else Share(runs, m, n - 1, all) + (if m in runs(n - 1) then runs(n - 1)[m] / all as real else 0.0)
  }

  /** y holds every metric of the first n runs and no other, each averaged over `all` runs. */
  ghost predicate Averaged(runs: nat -> Outcome, y: Outcome, n: nat, all: nat)
    requires all > 0
  {
    && (forall m :: m in y <==> exists k: nat :: k < n && m in runs(k))
    && (forall m :: m in y ==> y[m] == Share(runs, m, n, all))
  }

  method AddShares(y0: Outcome, run: Outcome, all: nat) returns (y: Outcome)
    requires all > 0
    ensures forall m :: m in y <==> m in y0 || m in run
    ensures forall m :: m in y ==>
      y[m] == (if m in y0 then y0[m] else 0.0) + (if m in run then run[m] / all as real else 0.0)
  {
    y := y0;
    var left := run.Keys;
    while left != {}
      invariant left <= run.Keys && forall m :: m in y <==> m in y0 || (m in run && m !in left)
      invariant forall m :: m in y ==>
        y[m] == (if m in y0 then y0[m] else 0.0) + (if m in run && m !in left then run[m] / all as real else 0.0)
      decreases left
    {
      var m :| m in left;
      y := y[m := (if m in y then y[m] else 0.0) + run[m] / all as real];
      left := left - {m};
    }
  }

  lemma MoreRuns(runs: nat -> Outcome, y0: Outcome, y: Outcome, n: nat, all: nat)
    requires all > 0 && Averaged(runs, y0, n, all) && forall m :: m in y <==> m in y0 || m in runs(n)
    requires forall m :: m in y ==>
      y[m] == (if m in y0 then y0[m] else 0.0) + (if m in runs(n) then runs(n)[m] / all as real else 0.0)
    ensures Averaged(runs, y, n + 1, all)
  {
    forall m | m in y
      ensures y[m] == Share(runs, m, n + 1, all)
    {
      if m !in y0 { NoShare(runs, m, n, all); }
    }
  }

  lemma {:induction false} NoShare(runs: nat -> Outcome, m: string, n: nat, all: nat)
    requires all > 0 && forall k: nat :: k < n ==> m !in runs(k)
    ensures Share(runs, m, n, all) == 0.0
    decreases n
  {
    if n > 0 { NoShare(runs, m, n - 1, all); }
  }

  /** The average of `all` runs with different seeds. */
  method Average(runs: nat -> Outcome, all: nat) returns (y: Outcome)
    requires all > 0
    ensures Averaged(runs, y, all, all)
  {
    hide Averaged;
    y := map[];
    assert Averaged(runs, y, 0, all) by { NoneAveraged(runs, all); }
    for s := 0 to all
      invariant Averaged(runs, y, s, all)
    {
      ghost var y0 := y;
      y := AddShares(y, runs(s), all);
      MoreRuns(runs, y0, y, s, all);
    }
  }

  lemma NoneAveraged(runs: nat -> Outcome, all: nat)
    requires all > 0
    ensures Averaged(runs, map[], 0, all)
  {
  }

  /** An average is determined by its runs. */
  lemma OneAverage(runs: nat -> Outcome, y: Outcome, z: Outcome, n: nat, all: nat)
    requires all > 0 && Averaged(runs, y, n, all) && Averaged(runs, z, n, all)
    ensures y == z
  {
    assert forall m :: m in y <==> m in z;
  }

  /** What is to be optimised: the model with a seed and without, how many seeds to average, the constraints on a point
      and the targets for its metrics. */
  datatype Query<!P> = Query(full: P -> Outcome, seeded: (P, nat) -> Outcome, seeds: int, within: P -> bool,
    targets: Outcome -> bool)
  {
    function RunsOf(x: P): nat -> Outcome {
      (s: nat) => seeded(x, s)
    }

    /** y is what is recorded of x: one run, or the average over the seeds. */
    ghost predicate Measures(x: P, y: Outcome) {
      if seeds > 1 then Averaged(RunsOf(x), y, seeds, seeds) else y == full(x)
    }

    ghost predicate Meets(x: P) {
      exists y :: Measures(x, y) && targets(y)
    }
  }

  class Search<P(==, !new)> {
    const shape: seq<nat>
    const point: Index -> P
    const query: Query<P>
    var evaluated: seq<P>
    var outcomes: seq<Outcome>
    var feasible: seq<bool>
    var cache: map<P, nat>
    var node: map<Index, int>

    constructor (shape: seq<nat>, point: Index -> P, query: Query<P>)
      ensures Valid() && evaluated == [] && node == map[] && this.shape == shape && this.point == point &&
        this.query == query
    {
      this.shape, this.point, this.query := shape, point, query;
      evaluated, outcomes, feasible, cache, node := [], [], [], map[], map[];
    }

    predicate within(x: P) {
      query.within(x)
    }

    /** Every point run is recorded once, and only points that satisfy the constraints are run. */
    ghost predicate Valid()
      reads this
    {
      && (forall x :: x in cache ==> cache[x] < |evaluated| && evaluated[cache[x]] == x)
      && (forall k :: 0 <= k < |evaluated| ==> evaluated[k] in cache && cache[evaluated[k]] == k)
      && (forall k :: 0 <= k < |evaluated| ==> within(evaluated[k]))
      && |outcomes| == |feasible| == |evaluated| && forall k :: 0 <= k < |evaluated| ==> Recorded(k)
    }

    /** What is recorded of an evaluation: its metrics, and whether they meet the targets. */
    ghost predicate Recorded(k: nat)
      reads this`evaluated, this`outcomes, this`feasible
      requires k < |evaluated| == |outcomes| == |feasible|
    {
      query.Measures(evaluated[k], outcomes[k]) && (feasible[k] <==> query.targets(outcomes[k]))
    }

    lemma FeasibleMeets(k: nat)
      requires k < |evaluated| == |outcomes| == |feasible| && Recorded(k)
      ensures feasible[k] <==> query.Meets(evaluated[k])
    {
      hide Averaged;
      var x := evaluated[k];
      if y :| query.Measures(x, y) && query.targets(y) {
        if query.seeds > 1 { OneAverage(query.RunsOf(x), y, outcomes[k], query.seeds, query.seeds); }
      }
    }

    /** A grid node is -1 outside the constraints, else the number of its evaluation. */
    ghost predicate NodeOk(idx: Index)
      reads this
    {
      idx in node &&
        (if within(point(idx)) then 0 <= node[idx] < |evaluated| && evaluated[node[idx]] == point(idx)
          else node[idx] == -1)
    }

    /** `run`: a point is measured once, with the average over the seeds if there are several. */
    method Run(x: P) returns (i: nat)
      requires Valid() && within(x)
      modifies this`evaluated, this`outcomes, this`feasible, this`cache
      ensures Valid() && i < |evaluated| && evaluated[i] == x && query.Measures(x, outcomes[i])
      ensures feasible[i] <==> query.Meets(x)
      ensures evaluated == if x in old(cache) then old(evaluated) else old(evaluated) + [x]
      ensures old(outcomes) <= outcomes && old(feasible) <= feasible
    {
      if x in cache {
        i := cache[x];
        FeasibleMeets(i);
        return;
      }
      var y := Measure(x);
      evaluated := evaluated + [x];
      outcomes := outcomes + [y];
      feasible := feasible + [query.targets(y) && within(x)];
      i := |evaluated| - 1;
      cache := cache[x := i];
      forall k: nat | k < |evaluated|
        ensures Recorded(k)
      {
        if k < i { assert old(Recorded(k)); }
      }
      FeasibleMeets(i);
    }

    method Measure(x: P) returns (y: Outcome)
      ensures query.Measures(x, y)
    {
      if query.seeds > 1 {
        y := Average(query.RunsOf(x), query.seeds);
      } else {
        y := query.full(x);
      }
    }

    ghost predicate Passes(screen: P -> bool, idx: Index) {
      InGrid(shape, idx) && within(point(idx)) && screen(point(idx))
    }

    /** A grid point passes the screen, or a neighbour of it does. */
    ghost predicate Promising(screen: P -> bool, idx: Index) {
      exists p :: Passes(screen, p) && (p == idx || Neighbours(shape, p, idx))
    }

    ghost predicate FromNode(x: P)
      reads this
    {
      exists i :: i in node && within(point(i)) && point(i) == x
    }

    /** All grid nodes are as they should be, and what was run is what they stand for. */
    ghost predicate Tracked()
      reads this
    {
      (forall i :: i in node ==> InGrid(shape, i) && NodeOk(i)) && forall x :: x in evaluated <==> FromNode(x)
    }

    /** One grid node is evaluated, or marked as outside the constraints. */
    method Visit(idx: Index)
      requires Valid() && InGrid(shape, idx) && Tracked() && idx !in node
      modifies this
      ensures Valid() && Tracked() && node.Keys == old(node).Keys + {idx}
    {
      hide InGrid, Search.Recorded, Query<P>.Meets, Query<P>.Measures;
      ghost var nodes0 := node;
      if !within(point(idx)) {
        node := node[idx := -1];
        assert forall i :: i in nodes0 ==> i in node;
        forall x
          ensures x in evaluated <==> FromNode(x)
        {
          if i :| i in node && within(point(i)) && point(i) == x { assert i in nodes0; }
        }
      } else {
        var n := Run(point(idx));
        node := node[idx := n];
        forall x
          ensures x in evaluated <==> FromNode(x)
        {
          if i :| i in node && within(point(i)) && point(i) == x { assert i == idx || i in nodes0; }
        }
      }
    }

    /** The grid without a screen: every point within the constraints is run. */
    method EvaluateAll()
      requires Valid() && Shape(shape) && node == map[] && evaluated == []
      modifies this
      ensures Valid() && Tracked() && forall idx :: InGrid(shape, idx) ==> idx in node
    {
      hide InGrid, Shape;
      var walk := Walk(shape);
      for k := 0 to |walk|
        invariant Valid() && Tracked() && forall i :: i in node <==> i in walk[..k]
      {
        assert walk[..k + 1] == walk[..k] + [walk[k]];
        NotBefore(walk, k);
        Visit(walk[k]);
      }
      assert walk[..|walk|] == walk;
    }

    lemma NotBefore(walk: seq<Index>, k: nat)
      requires k < |walk| && forall i, j :: 0 <= i < j < |walk| ==> walk[i] != walk[j]
      ensures walk[k] !in walk[..k]
    {
    }

    /** The first pass with a screen: nodes outside the constraints are marked, the others are picked with their
        neighbours. */
    method Pick(screen: P -> bool) returns (candidates: set<Index>)
      requires Valid() && Shape(shape) && node == map[] && evaluated == []
      modifies this`node
      ensures Valid() && Tracked() && (forall i :: i in node ==> !within(point(i)))
      ensures forall i :: InGrid(shape, i) && !within(point(i)) ==> i in node
      ensures forall i :: i in candidates <==> InGrid(shape, i) && Promising(screen, i)
    {
      hide InGrid, Shape, Neighbours, Search.Recorded, Query<P>.Meets, Query<P>.Measures;
      candidates := {};
      var walk := Walk(shape);
      for k := 0 to |walk|
        invariant Valid() && (forall i :: i in node ==> InGrid(shape, i) && NodeOk(i) && !within(point(i)))
        invariant forall i :: i in walk[..k] && !within(point(i)) ==> i in node
        invariant forall i :: i in candidates <==> InGrid(shape, i) && PickedBy(screen, walk[..k], i)
      {
        var idx := walk[k];
        assert walk[..k + 1] == walk[..k] + [idx];
        if !within(point(idx)) {
          node := node[idx := -1];
        } else if screen(point(idx)) {
          var near := NeighboursOf(shape, idx);
          candidates := candidates + {idx} + near;
        }
      }
      assert walk[..|walk|] == walk;
      PickedAll(screen, walk);
    }

    ghost predicate PickedBy(screen: P -> bool, walk: seq<Index>, idx: Index) {
      exists p :: p in walk && Passes(screen, p) && (p == idx || Neighbours(shape, p, idx))
    }

    lemma PickedAll(screen: P -> bool, walk: seq<Index>)
      requires forall i :: InGrid(shape, i) ==> i in walk
      ensures forall i :: PickedBy(screen, walk, i) <==> Promising(screen, i)
    {
    }

    /** The grid with a cheap screen: the full model runs exactly on promising points, and never outside the
        constraints. */
    method EvaluateScreened(screen: P -> bool)
      requires Valid() && Shape(shape) && node == map[] && evaluated == []
      modifies this
      ensures Valid() && Tracked()
      ensures forall idx :: InGrid(shape, idx) ==> (idx in node <==> !within(point(idx)) || Promising(screen, idx))
    {
      hide InGrid, Shape, Neighbours, Search.Recorded, Query<P>.Meets, Query<P>.Measures;
      var rest := Pick(screen);
      ghost var candidates := rest;
      while rest != {}
        invariant Valid() && Tracked() && rest <= candidates
        invariant forall i :: InGrid(shape, i) && !within(point(i)) ==> i in node
        invariant forall i :: i in node && within(point(i)) ==> i in candidates
        invariant forall i :: i in candidates && i !in rest ==> i in node
        decreases rest
      {
        var c :| c in rest;
        rest := rest - {c};
        if c !in node { Visit(c); }
      }
    }

    // ---- refining a boundary ----

    /** Points outside the constraints are not run. */
    method Probe(x: P) returns (i: int)
      requires Valid()
      modifies this`evaluated, this`outcomes, this`feasible, this`cache
      ensures Valid() && old(evaluated) <= evaluated
      ensures i >= 0 ==> i < |feasible| && (feasible[i] <==> query.Meets(x))
      ensures if within(x) then 0 <= i < |evaluated| && evaluated[i] == x else i == -1 && evaluated == old(evaluated)
      ensures forall k :: |old(evaluated)| <= k < |evaluated| ==> evaluated[k] == x
    {
      i := -1;
      if within(x) { i := Run(x); }
    }

    /** The coordinates whose point on the line `at` satisfies the constraints and meets the targets. */
    ghost function Feasible(at: real -> P): real -> bool {
      x => within(at(x)) && query.Meets(at(x))
    }

    /** Everything run since `from` lies on the line between a and b. */
    ghost predicate OnLine(at: real -> P, from: nat, a: real, b: real)
      reads this
    {
      forall k :: from <= k < |evaluated| ==> exists x :: Between(a, x, b) && evaluated[k] == at(x)
    }

    /** One probe half way: whichever half still holds the boundary is kept. */
    method HalfWay(f0: nat, at: real -> P, a0: real, b0: real, ghost left: real, ghost right: real, ghost from: nat)
      returns (f: nat, a: real, b: real)
      requires Valid() && f0 < |evaluated| && evaluated[f0] == at(a0) && Feasible(at)(a0) && !Feasible(at)(b0)
      requires Between(left, a0, right) && Between(left, b0, right) && Between(left, a0, b0) &&
        OnLine(at, from, left, right)
      modifies this`evaluated, this`outcomes, this`feasible, this`cache
      ensures Valid() && old(evaluated) <= evaluated && OnLine(at, from, left, right)
      ensures f < |evaluated| && evaluated[f] == at(a) && Feasible(at)(a) && !Feasible(at)(b)
      ensures Between(left, a, right) && Between(left, b, right) && Between(left, a, b) &&
        Gap(a, b) == Gap(a0, b0) / 2.0
    {
      hide Between, Gap, Search.Recorded, Query<P>.Meets, Query<P>.Measures;
      f, a, b := f0, a0, b0;
      var m := (a + b) / 2.0;
      Halve(left, right, a, b, m);
      var i := Probe(at(m));
      if i >= 0 && feasible[i] { a, f := m, i; } else { b := m; }
    }

    /** Between a feasible evaluated point and an infeasible coordinate: the bracket shrinks below the tolerance within
        14 probes, the point returned stands at its feasible end, and with a single boundary it keeps that boundary
        inside. */
    method Bisect(f0: nat, at: real -> P, a0: real, b0: real, range: real)
      returns (f: nat, a: real, b: real, probes: nat)
      requires Valid() && f0 < |evaluated| && evaluated[f0] == at(a0)
      requires Feasible(at)(a0) && !Feasible(at)(b0) && Gap(a0, b0) <= range
      modifies this`evaluated, this`outcomes, this`feasible, this`cache
      ensures Valid() && old(evaluated) <= evaluated && OnLine(at, |old(evaluated)|, a0, b0)
      ensures f < |evaluated| && evaluated[f] == at(a) && Feasible(at)(a) && !Feasible(at)(b)
      ensures Gap(a, b) <= range / 10000.0 && probes <= 14
      ensures Between(a0, a, b0) && Between(a0, b, b0) && Between(a0, a, b)
      ensures OneBoundary(Feasible(at), a0, b0) ==>
        forall x :: Between(a0, x, b0) ==>
          (Between(a0, x, a) ==> Feasible(at)(x)) && (Between(b, x, b0) ==> !Feasible(at)(x))
    {
      hide OneBoundary, Between, Gap, Search.Recorded, Query<P>.Meets, Query<P>.Measures;
      Reach(a0, b0);
      f, a, b, probes := f0, a0, b0, 0;
      while Gap(a, b) > range / 10000.0
        invariant Valid() && old(evaluated) <= evaluated && OnLine(at, |old(evaluated)|, a0, b0)
        invariant f < |evaluated| && evaluated[f] == at(a) && Feasible(at)(a) && !Feasible(at)(b) &&
          probes <= 14
        invariant Between(a0, a, b0) && Between(a0, b, b0) && Between(a0, a, b)
        invariant Gap(a, b) == Halved(Gap(a0, b0), probes)
        decreases 14 - probes
      {
        TooSmall(Gap(a0, b0), range, probes);
        f, a, b := HalfWay(f, at, a, b, a0, b0, |old(evaluated)|);
        probes := probes + 1;
      }
      if OneBoundary(Feasible(at), a0, b0) { Boundary(Feasible(at), a0, b0, a, b); }
    }
  }

  // ---- bisection ----

  ghost function Halved(gap: real, n: nat): real {
    if n == 0 then gap else Halved(gap, n - 1) / 2.0
  }

  function Gap(a: real, b: real): real {
    if a <= b then b - a else a - b
  }

  /** x lies on the way from a to b. */
  predicate Between(a: real, x: real, b: real) {
    a <= x <= b || b <= x <= a
  }

  /** Once lost on the way from a to b, feasibility does not come back. */
  ghost predicate OneBoundary(feasible: real -> bool, a: real, b: real) {
    forall x, y {:trigger feasible(x), feasible(y)} ::
      Between(a, x, b) && Between(a, y, b) && Between(a, x, y) && feasible(y) ==> feasible(x)
  }

  lemma Reach(a: real, b: real)
    ensures Between(a, a, b) && Between(a, b, b) && Gap(a, b) >= 0.0
  {
  }

  lemma Halve(a0: real, b0: real, a: real, b: real, m: real)
    requires Between(a0, a, b0) && Between(a0, b, b0) && Between(a0, a, b) && m == (a + b) / 2.0
    ensures Gap(a, m) == Gap(a, b) / 2.0 == Gap(m, b)
    ensures Between(a0, m, b0) && Between(a0, a, m) && Between(a0, m, b)
  {
  }

  /** After 14 halvings the bracket is below the tolerance. */
  lemma TooSmall(gap0: real, range: real, probes: nat)
    requires Halved(gap0, probes) > range / 10000.0 && 0.0 <= gap0 <= range && probes <= 14
    ensures probes < 14
  {
    Fourteen(gap0);
  }

  lemma Fourteen(gap: real)
    ensures Halved(gap, 14) == gap / 16384.0
  {
    Twice(gap, 0);
    Twice(gap, 2);
    Twice(gap, 4);
    Twice(gap, 6);
    Twice(gap, 8);
    Twice(gap, 10);
    Twice(gap, 12);
  }

  lemma Twice(gap: real, n: nat)
    ensures Halved(gap, n + 2) == Halved(gap, n) / 4.0
  {
  }

  lemma Boundary(feasible: real -> bool, a0: real, b0: real, a: real, b: real)
    requires OneBoundary(feasible, a0, b0) && feasible(a) && !feasible(b)
    requires Between(a0, a, b0) && Between(a0, b, b0) && Between(a0, a, b)
    ensures forall x :: Between(a0, x, b0) ==>
      (Between(a0, x, a) ==> feasible(x)) && (Between(b, x, b0) ==> !feasible(x))
  {
  }

  // ---- selection ----

  predicate Dominates(a: seq<real>, b: seq<real>)
    requires |a| == |b|
  {
    (forall i :: 0 <= i < |a| ==> a[i] <= b[i]) && exists i :: 0 <= i < |a| && a[i] < b[i]
  }

  lemma DominatesTrans(a: seq<real>, b: seq<real>, c: seq<real>)
    requires |a| == |b| == |c| && Dominates(a, b) && Dominates(b, c)
    ensures Dominates(a, c) && !Dominates(c, a)
  {
  }

  method DominatesAt(a: seq<real>, b: seq<real>) returns (d: bool)
    requires |a| == |b|
    ensures d <==> Dominates(a, b)
  {
    var strict := false;
    for i := 0 to |a|
      invariant forall k :: 0 <= k < i ==> a[k] <= b[k]
      invariant strict <==> exists k :: 0 <= k < i && a[k] < b[k]
    {
      if a[i] > b[i] { return false; }
      if a[i] < b[i] { strict := true; }
    }
    return strict;
  }

  ghost predicate SameWidth(keys: seq<seq<real>>) {
    forall i, j {:trigger keys[i], keys[j]} :: 0 <= i < |keys| && 0 <= j < |keys| ==> |keys[i]| == |keys[j]|
  }

  ghost predicate Dominated(keys: seq<seq<real>>, i: nat)
    requires SameWidth(keys) && i < |keys|
  {
    exists j :: 0 <= j < |keys| && Dominates(keys[j], keys[i])
  }

  /** The front: exactly the points nobody dominates, in order; and every other point is dominated by one of the
      front. */
  method ParetoFront(keys: seq<seq<real>>) returns (front: seq<nat>)
    requires SameWidth(keys)
    ensures forall i: nat :: i in front <==> i < |keys| && !Dominated(keys, i)
    ensures forall j, k :: 0 <= j < k < |front| ==> front[j] < front[k]
    ensures forall i: nat :: i < |keys| && i !in front ==>
      exists j :: j in front && j < |keys| && Dominates(keys[j], keys[i])
  {
    hide Dominates;
    front := [];
    for i := 0 to |keys|
      invariant forall x: nat :: x in front <==> x < i && !Dominated(keys, x)
      invariant forall j, k :: 0 <= j < k < |front| ==> front[j] < front[k]
    {
      var dominated := false;
      var j := 0;
      while j < |keys| && !dominated
        invariant j <= |keys|
        invariant dominated ==> Dominated(keys, i)
        invariant !dominated ==> forall k :: 0 <= k < j ==> !Dominates(keys[k], keys[i])
      {
        if j != i { dominated := DominatesAt(keys[j], keys[i]); } else { NotSelf(keys[i]); }
        j := j + 1;
      }
      assert forall k :: 0 <= k < |front| ==> front[k] in front;
      if !dominated { front := front + [i]; }
    }
    forall i: nat | i < |keys| && i !in front
      ensures exists j :: j in front && j < |keys| && Dominates(keys[j], keys[i])
    {
      var j := Climb(keys, i, {});
    }
  }

  lemma NotSelf(a: seq<real>)
    ensures !Dominates(a, a)
  {
  }

  /** From a dominated point one climbs to an undominated one that dominates it too: no point comes twice. */
  lemma {:induction false} Climb(keys: seq<seq<real>>, i: nat, passed: set<nat>) returns (j: nat)
    requires SameWidth(keys) && i < |keys| && Dominated(keys, i)
    requires forall p :: p in passed ==> p < |keys| && Dominates(keys[i], keys[p])
    ensures j < |keys| && !Dominated(keys, j) && Dominates(keys[j], keys[i])
    decreases |keys| - |passed|
  {
    hide Dominates;
    NotSelf(keys[i]);
    SizeBelow(passed + {i}, |keys|);
    var k: nat :| k < |keys| && Dominates(keys[k], keys[i]);
    j := k;
    if Dominated(keys, k) {
      forall p | p in passed + {i}
        ensures Dominates(keys[k], keys[p])
      {
        if p in passed { DominatesTrans(keys[k], keys[i], keys[p]); }
      }
      j := Climb(keys, k, passed + {i});
      DominatesTrans(keys[j], keys[k], keys[i]);
    }
  }

  lemma {:induction false} SizeBelow(s: set<nat>, n: nat)
    requires forall x :: x in s ==> x < n
    ensures |s| <= n
    decreases n
  {
    if n > 0 {
      SizeBelow(s - {n - 1}, n - 1);
    } else {
      assert s == {} by { assert forall x :: x !in s; }
    }
  }

  ghost predicate FirstBest(keys: seq<real>, feasible: seq<bool>, minimize: bool, n: nat, best: nat)
    requires n <= |keys| == |feasible| && best < n
  {
    feasible[best] && forall i :: 0 <= i < n && feasible[i] ==>
      (if minimize then keys[best] <= keys[i] else keys[best] >= keys[i]) && (i < best ==> keys[i] != keys[best])
  }

  /** The first of the best: nothing feasible is better, nothing earlier is as good. */
  method Best(keys: seq<real>, feasible: seq<bool>, minimize: bool) returns (best: int)
    requires |keys| == |feasible|
    ensures best == -1 <==> forall i :: 0 <= i < |keys| ==> !feasible[i]
    ensures best != -1 ==> 0 <= best < |keys| && FirstBest(keys, feasible, minimize, |keys|, best)
  {
    best := -1;
    for i := 0 to |keys|
      invariant -1 <= best < i && (best == -1 <==> forall k :: 0 <= k < i ==> !feasible[k])
      invariant best != -1 ==> FirstBest(keys, feasible, minimize, i, best)
    {
      if feasible[i] && (best < 0 || (if minimize then keys[i] < keys[best] else keys[i] > keys[best])) { best := i; }
    }
  }
}
