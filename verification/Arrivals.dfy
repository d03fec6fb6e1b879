/** Session graphs at run time: adjacency lists, and the countdown of unfinished predecessors. */
module Arrivals {
  import opened Commons

  import AgentChains
  import SessionGraph
  import TraceBuild
  import TraceCycles

  type Place = SessionGraph.Place

  datatype Edge = Edge(from: int, to: int)

  datatype Adjacency = Adjacency(off: seq<nat>, to: seq<nat>, delay: seq<real>)

  // ---- adjacency ----

  predicate InBounds(edges: seq<Edge>, n: nat) {
    forall e :: e in edges ==> 0 <= e.from < n && 0 <= e.to < n
  }

  /** Where the edges of node i lead, in the order they are listed. */
  function Targets(edges: seq<Edge>, i: nat): seq<nat> {
    if edges == [] then []
    else
      var e := edges[|edges| - 1];
      Targets(edges[..|edges| - 1], i) + (if e.from == i && e.to >= 0 then [e.to] else [])
  }

  /** The delays of those edges, in the same order; none is negative. */
  function Gaps(edges: seq<Edge>, delays: seq<real>, i: nat): (r: seq<real>)
    requires |delays| == |edges|
    ensures |r| == |Targets(edges, i)| && forall d :: d in r ==> d >= 0.0
  {
    if edges == [] then []
    else
      var k := |edges| - 1;
      Gaps(edges[..k], delays[..k], i)
        + (if edges[k].from == i && edges[k].to >= 0 then [NotBelowZero(delays[k])] else [])
  }

  function NotBelowZero(d: real): real {
    if d > 0.0 then d else 0.0
  }

  /** Edges that leave nodes below i. */
  function Before(edges: seq<Edge>, i: nat): nat {
    if i == 0 then 0 else Before(edges, i - 1) + |Targets(edges, i - 1)|
  }

  lemma {:induction false} BeforeSnoc(edges: seq<Edge>, e: Edge, i: nat)
    requires e.from >= 0 && e.to >= 0
    ensures Before(edges + [e], i) == Before(edges, i) + (if e.from < i then 1 else 0)
    decreases i
  {
    if i > 0 {
      BeforeSnoc(edges, e, i - 1);
      assert (edges + [e])[..|edges|] == edges;
    }
  }

  lemma {:induction false} BeforeAll(edges: seq<Edge>, n: nat)
    requires InBounds(edges, n)
    ensures Before(edges, n) == |edges|
    decreases |edges|
  {
    if edges != [] {
      var k := |edges| - 1;
      assert edges == edges[..k] + [edges[k]];
      assert edges[k] in edges;
      BeforeAll(edges[..k], n);
      BeforeSnoc(edges[..k], edges[k], n);
    } else {
      BeforeNone(n);
    }
  }

  lemma {:induction false} BeforeNone(i: nat)
    ensures Before([], i) == 0
    decreases i
  {
    if i > 0 { BeforeNone(i - 1); }
  }

  lemma {:induction false} BeforeMono(edges: seq<Edge>, i: nat, j: nat)
    requires i < j
    ensures Before(edges, i) + |Targets(edges, i)| <= Before(edges, j)
    decreases j
  {
    if i < j - 1 { BeforeMono(edges, i, j - 1); }
  }

  lemma {:induction false} TargetsGrow(edges: seq<Edge>, k: nat, i: nat)
    requires k <= |edges|
    ensures Targets(edges[..k], i) <= Targets(edges, i)
    decreases |edges| - k
  {
    if k < |edges| {
      assert edges[..k + 1][..k] == edges[..k];
      TargetsGrow(edges, k + 1, i);
    } else {
      assert edges[..k] == edges;
    }
  }

  /** Node i's targets lie at off[i] .. off[i + 1], in order. */
  ghost predicate ListedAt(a: Adjacency, edges: seq<Edge>, i: nat) {
    i + 1 < |a.off| && a.off[i] <= a.off[i + 1] <= |a.to| && a.to[a.off[i]..a.off[i + 1]] == Targets(edges, i)
  }

  /** Beside each of node i's targets lies the delay of its edge. */
  ghost predicate SpacedAt(a: Adjacency, edges: seq<Edge>, delays: seq<real>, i: nat)
    requires |delays| == |edges|
  {
    i + 1 < |a.off| && a.off[i] <= a.off[i + 1] <= |a.delay| &&
      a.delay[a.off[i]..a.off[i + 1]] == Gaps(edges, delays, i)
  }

  ghost predicate Spaced(a: Adjacency, edges: seq<Edge>, delays: seq<real>, n: nat) {
    |delays| == |edges| && |a.off| == n + 1 && |a.delay| == |edges| && forall i: nat :: i < n ==>
      SpacedAt(a, edges, delays, i)
  }

  ghost predicate Lists(a: Adjacency, edges: seq<Edge>, n: nat) {
    |a.off| == n + 1 && |a.to| == |edges| && forall i: nat :: i < n ==> ListedAt(a, edges, i)
  }

  ghost predicate Counted(cnt: seq<nat>, edges: seq<Edge>, i: nat) {
    i + 1 < |cnt| && cnt[i + 1] == |Targets(edges, i)|
  }

  ghost predicate Starts(off: seq<nat>, edges: seq<Edge>, n: nat) {
    |off| == n + 1 && forall i :: 0 <= i <= n ==> off[i] == Before(edges, i)
  }

  ghost predicate Written<T>(a: seq<T>, at: nat, s: seq<T>) {
    at + |s| <= |a| && a[at..at + |s|] == s
  }

  /** `build_graph`: refuses edges out of range, else a counting sort of the edges by their source. */
  method BuildGraph(edges: seq<Edge>, delays: seq<real>, n: nat) returns (g: Option<Adjacency>)
    requires |delays| == |edges|
    ensures g.Some? <==> n > 0 && InBounds(edges, n)
    ensures g.Some? ==> Lists(g.value, edges, n) && Spaced(g.value, edges, delays, n)
  {
    hide Targets, Gaps, Before, Written, ListedAt, SpacedAt;
    if n == 0 { return None; }
    var ok, cnt := Count(edges, n);
    if !ok { return None; }
    var off := Offsets(edges, n, cnt);
    var to, delay := Fill(edges, delays, n, off);
    forall i: nat | i < n
      ensures ListedAt(Adjacency(off, to, delay), edges, i) && SpacedAt(Adjacency(off, to, delay), edges, delays, i)
    {
      StretchIs(edges, delays, n, off, to, delay, i);
    }
    g := Some(Adjacency(off, to, delay));
  }

  lemma StretchIs(edges: seq<Edge>, delays: seq<real>, n: nat, off: seq<nat>, to: seq<nat>, delay: seq<real>, i: nat)
    requires Starts(off, edges, n) && i < n && |delays| == |edges|
    requires Written(to, off[i], Targets(edges, i)) && Written(delay, off[i], Gaps(edges, delays, i))
    ensures ListedAt(Adjacency(off, to, delay), edges, i) && SpacedAt(Adjacency(off, to, delay), edges, delays, i)
  {
  }

  method Count(edges: seq<Edge>, n: nat) returns (ok: bool, cnt: seq<nat>)
    requires n > 0
    ensures ok <==> InBounds(edges, n)
    ensures ok ==> |cnt| == n + 1 && forall i: nat :: i < n ==> Counted(cnt, edges, i)
  {
    cnt := seq(n + 1, _ => 0);
    for k := 0 to |edges|
      invariant InBounds(edges[..k], n) && |cnt| == n + 1 && forall i: nat :: i < n ==> Counted(cnt, edges[..k], i)
    {
      var e := edges[k];
      assert edges[..k + 1] == edges[..k] + [e] && edges[..k + 1][..k] == edges[..k];
      if e.from < 0 || e.from >= n || e.to < 0 || e.to >= n {
        assert e in edges;
        return false, cnt;
      }
      ghost var was, next := cnt, edges[..k + 1];
      cnt := cnt[e.from + 1 := cnt[e.from + 1] + 1];
      forall i: nat | i < n
        ensures Counted(cnt, next, i)
      {
        assert Counted(was, edges[..k], i);
      }
    }
    assert edges[..|edges|] == edges;
    ok := true;
  }

  method Offsets(edges: seq<Edge>, n: nat, cnt: seq<nat>) returns (off: seq<nat>)
    requires |cnt| == n + 1 && forall i: nat :: i < n ==> Counted(cnt, edges, i)
    ensures Starts(off, edges, n)
  {
    hide Targets;
    off := [0];
    for i := 0 to n
      invariant Starts(off, edges, i)
    {
      assert Counted(cnt, edges, i);
      off := off + [off[i] + cnt[i + 1]];
    }
  }

  /** The cursor of a node stands behind what was written for it so far; the stretches of two nodes never overlap. */
  method Fill(edges: seq<Edge>, delays: seq<real>, n: nat, off: seq<nat>) returns (to: seq<nat>, delay: seq<real>)
    requires InBounds(edges, n) && Starts(off, edges, n) && |delays| == |edges|
    ensures |to| == |delay| == |edges|
    ensures forall i: nat :: i < n ==>
      Written(to, off[i], Targets(edges, i)) && Written(delay, off[i], Gaps(edges, delays, i))
  {
    hide Targets, Gaps, Before, Written;
    to, delay := seq(|edges|, _ => 0), seq(|edges|, _ => 0.0);
    var fill := off[..n];
    Blank(edges, n, off, to);
    Blank(edges, n, off, delay);
    NoGaps(edges, delays, n);
    for k := 0 to |edges|
      invariant |to| == |delay| == |edges| && |fill| == n
      invariant forall i :: 0 <= i < n ==> fill[i] == off[i] + |Targets(edges[..k], i)|
      invariant forall i: nat :: i < n ==> Written(to, off[i], Targets(edges[..k], i))
      invariant forall i: nat :: i < n ==> Written(delay, off[i], Gaps(edges[..k], delays[..k], i))
    {
      var e := edges[k];
      assert e in edges;
      var at := fill[e.from];
      PlaceEdge(edges, n, off, to, k);
      PlaceGap(edges, delays, n, off, delay, k);
      to := to[at := e.to];
      delay := delay[at := NotBelowZero(delays[k])];
      fill := fill[e.from := at + 1];
    }
    assert edges[..|edges|] == edges && delays[..|edges|] == delays;
  }

  lemma Blank<T>(edges: seq<Edge>, n: nat, off: seq<nat>, a: seq<T>)
    requires InBounds(edges, n) && Starts(off, edges, n) && |a| == |edges|
    ensures forall i: nat :: i < n ==> Targets(edges[..0], i) == [] && Written(a, off[i], [])
  {
    BeforeAll(edges, n);
    forall i: nat | i < n
      ensures Written(a, off[i], [])
    {
      BeforeMono(edges, i, n);
    }
  }

  lemma NoGaps(edges: seq<Edge>, delays: seq<real>, n: nat)
    requires |delays| == |edges|
    ensures forall i: nat :: i < n ==> Gaps(edges[..0], delays[..0], i) == []
  {
  }

  lemma GapsSnoc(edges: seq<Edge>, delays: seq<real>, k: nat, i: nat)
    requires k < |edges| == |delays| && edges[k].to >= 0
    ensures Gaps(edges[..k + 1], delays[..k + 1], i) ==
      Gaps(edges[..k], delays[..k], i) + (if edges[k].from == i then [NotBelowZero(delays[k])] else [])
  {
    assert edges[..k + 1][..k] == edges[..k] && delays[..k + 1][..k] == delays[..k];
  }

  lemma PlaceGap(edges: seq<Edge>, delays: seq<real>, n: nat, off: seq<nat>, delay: seq<real>, k: nat)
    requires InBounds(edges, n) && Starts(off, edges, n) && |delay| == |edges| == |delays| && k < |edges|
    requires forall i: nat :: i < n ==> Written(delay, off[i], Gaps(edges[..k], delays[..k], i))
    ensures 0 <= edges[k].from < n && edges[k].to >= 0 &&
      off[edges[k].from] + |Targets(edges[..k], edges[k].from)| < |delay|
    ensures var at: nat := off[edges[k].from] + |Targets(edges[..k], edges[k].from)|;
      forall i: nat :: i < n ==>
        Written(delay[at := NotBelowZero(delays[k])], off[i], Gaps(edges[..k + 1], delays[..k + 1], i))
  {
    hide Targets, Gaps, Before;
    assert edges[k] in edges;
    var from: nat := edges[k].from;
    BeforeAll(edges, n);
    TargetsSnoc(edges, k, from);
    TargetsGrow(edges, k + 1, from);
    BeforeMono(edges, from, n);
    var at: nat := off[from] + |Targets(edges[..k], from)|;
    forall i: nat | i < n
      ensures Written(delay[at := NotBelowZero(delays[k])], off[i], Gaps(edges[..k + 1], delays[..k + 1], i))
    {
      GapsSnoc(edges, delays, k, i);
      TargetsGrow(edges, k + 1, i);
      TargetsSnoc(edges, k, i);
      assert Written(delay, off[i], Gaps(edges[..k], delays[..k], i));
      if i < from { BeforeMono(edges, i, from); }
      if from < i { BeforeMono(edges, from, i); }
    }
  }

  lemma TargetsSnoc(edges: seq<Edge>, k: nat, i: nat)
    requires k < |edges| && edges[k].to >= 0
    ensures Targets(edges[..k + 1], i) == Targets(edges[..k], i) + (if edges[k].from == i then [edges[k].to] else [])
  {
    assert edges[..k + 1][..k] == edges[..k];
  }

  /** One edge goes to the cursor of its source and touches no other node's stretch. */
  lemma PlaceEdge(edges: seq<Edge>, n: nat, off: seq<nat>, to: seq<nat>, k: nat)
    requires InBounds(edges, n) && Starts(off, edges, n) && |to| == |edges| && k < |edges|
    requires forall i: nat :: i < n ==> Written(to, off[i], Targets(edges[..k], i))
    ensures 0 <= edges[k].from < n && edges[k].to >= 0 &&
      off[edges[k].from] + |Targets(edges[..k], edges[k].from)| < |to|
    ensures forall i: nat :: i < n ==>
      |Targets(edges[..k + 1], i)| == |Targets(edges[..k], i)| + (if i == edges[k].from then 1 else 0)
    ensures var at: nat := off[edges[k].from] + |Targets(edges[..k], edges[k].from)|;
      forall i: nat :: i < n ==> Written(to[at := edges[k].to], off[i], Targets(edges[..k + 1], i))
  {
    hide Targets, Before;
    assert edges[k] in edges;
    var from: nat := edges[k].from;
    BeforeAll(edges, n);
    TargetsSnoc(edges, k, from);
    TargetsGrow(edges, k + 1, from);
    BeforeMono(edges, from, n);
    var at: nat := off[from] + |Targets(edges[..k], from)|;
    forall i: nat | i < n
      ensures |Targets(edges[..k + 1], i)| == |Targets(edges[..k], i)| + (if i == from then 1 else 0)
      ensures Written(to[at := edges[k].to], off[i], Targets(edges[..k + 1], i))
    {
      TargetsSnoc(edges, k, i);
      TargetsGrow(edges, k + 1, i);
      assert Written(to, off[i], Targets(edges[..k], i));
      if i < from { BeforeMono(edges, i, from); }
      if from < i { BeforeMono(edges, from, i); }
    }
  }

  // ---- countdown ----

  /** Primers start at once and skipped requests are not played; a warm request waits for others, but not in between. */
  datatype Class = Normal(warm: bool) | Primer | Skipped

  function Occurs(s: seq<nat>, k: nat): nat {
    if s == [] then 0 else Occurs(s[..|s| - 1], k) + (if s[|s| - 1] == k then 1 else 0)
  }

  lemma {:induction false} OccursHead(s: seq<nat>, k: nat)
    requires s != []
    ensures Occurs(s, k) == (if s[0] == k then 1 else 0) + Occurs(s[1..], k)
    decreases |s|
  {
    var n := |s| - 1;
    if n > 0 {
      OccursHead(s[..n], k);
      assert s[..n][1..] == s[1..][..n - 1];
    }
  }

  /** Edges into k from requests that are played and not done, among the first m. */
  ghost function Unfinished(edges: seq<Edge>, cls: seq<Class>, done: seq<bool>, k: nat, m: nat): nat
    requires m <= |cls| == |done|
  {
    if m == 0 then 0
    else
      Unfinished(edges, cls, done, k, m - 1) +
      (if cls[m - 1].Skipped? || done[m - 1] then 0 else Occurs(Targets(edges, m - 1), k))
  }

  lemma {:induction false} UnfinishedDone(edges: seq<Edge>, cls: seq<Class>, done: seq<bool>, k: nat, m: nat, i: nat)
    requires m <= |cls| == |done| && i < |cls| && !cls[i].Skipped? && !done[i]
    ensures Unfinished(edges, cls, done, k, m) ==
            Unfinished(edges, cls, done[i := true], k, m) + (if i < m then Occurs(Targets(edges, i), k) else 0)
    decreases m
  {
    hide Occurs, Targets;
    if m > 0 {
      UnfinishedDone(edges, cls, done, k, m - 1, i);
      assert done[i := true][m - 1] == (done[m - 1] || m - 1 == i);
    }
  }

  /** Someone is still to finish as long as the count is positive. */
  lemma {:induction false} UnfinishedWho(edges: seq<Edge>, cls: seq<Class>, done: seq<bool>, k: nat, m: nat)
    returns (i: nat)
    requires m <= |cls| == |done| && Unfinished(edges, cls, done, k, m) > 0
    ensures i < m && !cls[i].Skipped? && !done[i] && Occurs(Targets(edges, i), k) > 0
    decreases m
  {
    if !cls[m - 1].Skipped? && !done[m - 1] && Occurs(Targets(edges, m - 1), k) > 0 {
      i := m - 1;
    } else {
      i := UnfinishedWho(edges, cls, done, k, m - 1);
    }
  }

  lemma {:induction false} OccursEdge(edges: seq<Edge>, i: nat, k: nat)
    requires Occurs(Targets(edges, i), k) > 0
    ensures exists e :: e in edges && e.from == i && e.to == k
    decreases |edges|
  {
    var n := |edges| - 1;
    var e := edges[n];
    if e.from == i && e.to == k {
      assert e in edges;
    } else {
      var t := Targets(edges[..n], i);
      if e.from == i && e.to >= 0 {
        var x: nat := e.to;
        assert Targets(edges, i) == t + [x] && (t + [x])[..|t|] == t;
      } else {
        assert Targets(edges, i) == t;
      }
      OccursEdge(edges[..n], i, k);
    }
  }

  ghost function Open(cls: seq<Class>, done: seq<bool>, m: nat): nat
    requires m <= |cls| == |done|
  {
    if m == 0 then 0 else Open(cls, done, m - 1) + (if cls[m - 1].Skipped? || done[m - 1] then 0 else 1)
  }

  lemma {:induction false} OpenDone(cls: seq<Class>, done: seq<bool>, m: nat, i: nat)
    requires m <= |cls| == |done| && i < |cls| && !cls[i].Skipped? && !done[i]
    ensures Open(cls, done, m) == Open(cls, done[i := true], m) + (if i < m then 1 else 0)
    decreases m
  {
    if m > 0 { OpenDone(cls, done, m - 1, i); }
  }

  lemma {:induction false} OpenWho(cls: seq<Class>, done: seq<bool>, m: nat) returns (i: nat)
    requires m <= |cls| == |done| && Open(cls, done, m) > 0
    ensures i < m && !cls[i].Skipped? && !done[i]
    decreases m
  {
    if !cls[m - 1].Skipped? && !done[m - 1] { i := m - 1; } else { i := OpenWho(cls, done, m - 1); }
  }

  lemma {:induction false} OpenNone(cls: seq<Class>, done: seq<bool>, m: nat, i: nat)
    requires m <= |cls| == |done| && Open(cls, done, m) == 0 && i < m
    ensures cls[i].Skipped? || done[i]
    decreases m
  {
    if i < m - 1 { OpenNone(cls, done, m - 1, i); }
  }

  lemma {:induction false} InFlightIs(cls: seq<Class>, arrived: seq<bool>, done: seq<bool>, m: nat)
    requires m <= |cls| == |arrived| == |done| && forall k: nat :: k < |cls| && done[k] ==> arrived[k]
    ensures Open(cls, arrived, m) <= Open(cls, done, m)
    ensures Open(cls, arrived, m) == Open(cls, done, m) <==> forall k: nat ::
      k < m && !cls[k].Skipped? && arrived[k] ==> done[k]
    decreases m
  {
    if m > 0 { InFlightIs(cls, arrived, done, m - 1); }
  }

  /** The account of request k: its count is exact, and it is released once nothing is left to wait for. */
  ghost predicate Account(edges: seq<Edge>, cls: seq<Class>, preds: seq<int>, released: seq<bool>, done: seq<bool>,
                          extra: nat, k: nat)
    requires k < |cls| == |preds| == |released| == |done|
  {
    && (cls[k].Normal? ==>
      preds[k] == Unfinished(edges, cls, done, k, |cls|) + extra && (released[k] <==> preds[k] == 0))
    && (cls[k].Primer? ==> released[k]) && (cls[k].Skipped? ==> !released[k]) && (done[k] ==> released[k])
  }

  function NoneDone(n: nat): seq<bool> {
    seq(n, _ => false)
  }

  method CountPlayed(cls: seq<Class>, n: nat) returns (left: int)
    requires n == |cls|
    ensures left == Open(cls, NoneDone(n), n)
  {
    left := 0;
    for i := 0 to n
      invariant left == Open(cls, NoneDone(n), i)
    {
      if !cls[i].Skipped? { left := left + 1; }
    }
  }

  method CountPredecessors(n: nat, graph: Adjacency, cls: seq<Class>, ghost edges: seq<Edge>) returns (preds: seq<int>)
    requires |cls| == n && Lists(graph, edges, n) && InBounds(edges, n)
    ensures |preds| == n &&
      forall k: nat :: k < n && cls[k].Normal? ==> preds[k] == Unfinished(edges, cls, NoneDone(n), k, n)
  {
    hide Targets, Occurs, Lists;
    preds := seq(n, _ => 0);
    for i := 0 to n
      invariant |preds| == n
      invariant forall k: nat :: k < n && cls[k].Normal? ==> preds[k] == Unfinished(edges, cls, NoneDone(n), k, i)
    {
      ListOf(graph, edges, n, i);
      if !cls[i].Skipped? {
        preds := CountList(n, cls, preds, graph.to[graph.off[i]..graph.off[i + 1]]);
      }
    }
  }

  method CountList(n: nat, cls: seq<Class>, preds0: seq<int>, list: seq<nat>) returns (preds: seq<int>)
    requires |cls| == |preds0| == n && forall t :: t in list ==> t < n
    ensures |preds| == n && forall k: nat :: k < n && cls[k].Normal? ==> preds[k] == preds0[k] + Occurs(list, k)
  {
    preds := preds0;
    for j := 0 to |list|
      invariant |preds| == n &&
        forall k: nat :: k < n && cls[k].Normal? ==> preds[k] == preds0[k] + Occurs(list[..j], k)
    {
      assert list[..j + 1][..j] == list[..j] && list[j] in list;
      if cls[list[j]].Normal? { preds := preds[list[j] := preds[list[j]] + 1]; }
    }
    assert list[..|list|] == list;
  }

  // ---- ready times ----

  function Later(a: real, b: real): real {
    if a >= b then a else b
  }

  /** How long a request waits once one it waited for has ended. */
  function Wait(c: Class, delay: real): real {
    if c == Normal(true) then 0.0 else delay
  }

  /** The latest of `base` and of the ends of the finished requests among the first m edges, each with the edge's
      delay. */
  ghost function Since(edges: seq<Edge>, delays: seq<real>, cls: seq<Class>, base: seq<real>, ends: seq<real>,
                       done: seq<bool>, k: nat, m: nat): real
    requires m <= |edges| == |delays| && k < |cls| == |base| == |ends| == |done|
  {
    if m == 0 then base[k]
    else
      var r := Since(edges, delays, cls, base, ends, done, k, m - 1);
      if Counts(edges[m - 1], cls, done, k)
      then Later(r, ends[edges[m - 1].from] + Wait(cls[k], NotBelowZero(delays[m - 1])))
      else r
  }

  /** The edge leads to k from a request that was played and is done. */
  predicate Counts(e: Edge, cls: seq<Class>, done: seq<bool>, k: nat)
    requires |cls| == |done|
  {
    e.to == k && 0 <= e.from < |cls| && !cls[e.from].Skipped? && done[e.from]
  }

  /** Time r comes with or after the end of the request edge x leads from, and for a request that pauses by at least the
      edge's delay; `exactly` so. */
  ghost predicate GapKept(edges: seq<Edge>, delays: seq<real>, cls: seq<Class>, ends: seq<real>, k: nat, x: nat,
                          r: real, exactly: bool)
    requires x < |edges| == |delays| && k < |cls| == |ends| && 0 <= edges[x].from < |cls|
  {
    var end := ends[edges[x].from];
    var due := if cls[k] == Normal(true) || delays[x] <= 0.0 then end else end + delays[x];
    r >= due && (exactly ==> r == due)
  }

  /** Time r is the first at which `base` and the gaps after all requests that k waited for and that are done have
      passed. */
  ghost predicate FirstReady(edges: seq<Edge>, delays: seq<real>, cls: seq<Class>, base: seq<real>, ends: seq<real>,
                             done: seq<bool>, k: nat, m: nat, r: real)
    requires m <= |edges| == |delays| && k < |cls| == |base| == |ends| == |done|
  {
    && r >= base[k]
    && (forall x: nat :: x < m && Counts(edges[x], cls, done, k) ==> GapKept(edges, delays, cls, ends, k, x, r, false))
    && (r == base[k] ||
        exists x: nat :: x < m && Counts(edges[x], cls, done, k) && GapKept(edges, delays, cls, ends, k, x, r, true))
  }

  /** A request is ready no sooner than the recorded gap after each end it waited for, and no later than the last of
      them, or where it started from. */
  lemma {:induction false} SinceReady(edges: seq<Edge>, delays: seq<real>, cls: seq<Class>, base: seq<real>,
                                      ends: seq<real>, done: seq<bool>, k: nat, m: nat)
    requires m <= |edges| == |delays| && k < |cls| == |base| == |ends| == |done|
    ensures FirstReady(edges, delays, cls, base, ends, done, k, m,
      Since(edges, delays, cls, base, ends, done, k, m))
    decreases m
  {
    if m > 0 { SinceReady(edges, delays, cls, base, ends, done, k, m - 1); }
  }

  /** There is only one such time. */
  lemma ReadyOnce(edges: seq<Edge>, delays: seq<real>, cls: seq<Class>, base: seq<real>, ends: seq<real>,
                  done: seq<bool>, k: nat, m: nat, r: real, q: real)
    requires m <= |edges| == |delays| && k < |cls| == |base| == |ends| == |done|
    requires FirstReady(edges, delays, cls, base, ends, done, k, m, r)
    requires FirstReady(edges, delays, cls, base, ends, done, k, m, q)
    ensures r == q
  {
  }

  /** The time r moved on by each of the targets that is k, in turn. */
  function Folded(r: real, targets: seq<nat>, gaps: seq<real>, k: nat, now: real, c: Class): real
    requires |targets| == |gaps|
  {
    if targets == [] then r
    else
      var n := |targets| - 1;
      var q := Folded(r, targets[..n], gaps[..n], k, now, c);
      if targets[n] == k then Later(q, now + Wait(c, gaps[n])) else q
  }

  lemma {:induction false} FoldedLater(r: real, x: real, targets: seq<nat>, gaps: seq<real>, k: nat, now: real,
                                       c: Class)
    requires |targets| == |gaps|
    ensures Folded(Later(r, x), targets, gaps, k, now, c) == Later(Folded(r, targets, gaps, k, now, c), x)
    decreases |targets|
  {
    if targets != [] {
      var n := |targets| - 1;
      FoldedLater(r, x, targets[..n], gaps[..n], k, now, c);
    }
  }

  lemma FoldedSnoc(r: real, targets: seq<nat>, gaps: seq<real>, k: nat, now: real, c: Class, t: nat, g: real)
    requires |targets| == |gaps|
    ensures Folded(r, targets + [t], gaps + [g], k, now, c) ==
      (if t == k then Later(Folded(r, targets, gaps, k, now, c), now + Wait(c, g))
        else Folded(r, targets, gaps, k, now, c))
  {
    assert (targets + [t])[..|targets|] == targets && (gaps + [g])[..|gaps|] == gaps;
  }

  /** When request i ends, the ready times move on along its adjacency list. */
  lemma {:induction false} SinceDone(edges: seq<Edge>, delays: seq<real>, cls: seq<Class>, base: seq<real>,
                                     ends: seq<real>, done: seq<bool>, k: nat, m: nat, i: nat, now: real)
    requires m <= |edges| == |delays| && k < |cls| == |base| == |ends| == |done| && InBounds(edges, |cls|)
    requires i < |cls| && !done[i] && !cls[i].Skipped?
    ensures Since(edges, delays, cls, base, ends[i := now], done[i := true], k, m) ==
      Folded(Since(edges, delays, cls, base, ends, done, k, m), Targets(edges[..m], i),
        Gaps(edges[..m], delays[..m], i), k,
             now, cls[k])
    decreases m
  {
    hide Targets, Gaps, Later, Wait, NotBelowZero, Folded;
    if m == 0 {
      NoneFolded(edges, delays, base[k], i, k, now, cls[k]);
    } else {
      var e, r := edges[m - 1], Since(edges, delays, cls, base, ends, done, k, m - 1);
      var t, g := Targets(edges[..m - 1], i), Gaps(edges[..m - 1], delays[..m - 1], i);
      assert e in edges;
      SinceDone(edges, delays, cls, base, ends, done, k, m - 1, i, now);
      TargetsSnoc(edges, m - 1, i);
      GapsSnoc(edges, delays, m - 1, i);
      if e.from == i {
        FoldedSnoc(r, t, g, k, now, cls[k], e.to, NotBelowZero(delays[m - 1]));
      } else {
        assert t + [] == t && g + [] == g;
        if Counts(e, cls, done, k) {
          FoldedLater(r, ends[e.from] + Wait(cls[k], NotBelowZero(delays[m - 1])), t, g, k, now, cls[k]);
        }
      }
    }
  }

  lemma NoneFolded(edges: seq<Edge>, delays: seq<real>, r: real, i: nat, k: nat, now: real, c: Class)
    requires |delays| == |edges|
    ensures Folded(r, Targets(edges[..0], i), Gaps(edges[..0], delays[..0], i), k, now, c) == r
  {
  }

  // ---- the start of a play ----

  /** A request that is played and waits for one that is not. */
  ghost predicate AfterSkipped(edges: seq<Edge>, cls: seq<Class>, k: nat, m: nat)
    requires m <= |cls|
  {
    exists j: nat :: j < m && cls[j].Skipped? && Occurs(Targets(edges, j), k) > 0
  }

  /** When the recorded start of a request comes round, for a play that begins at `start` with recorded time `star`. */
  function Recorded(t: real, star: real, start: real): real {
    start + NotBelowZero(t - star)
  }

  /** What a request is ready at before any other has ended. */
  ghost function Base(edges: seq<Edge>, cls: seq<Class>, t: seq<real>, star: real, start: real, k: nat, m: nat): real
    requires m <= |cls| == |t| && k < |cls|
  {
    if cls[k] == Normal(false) && AfterSkipped(edges, cls, k, m) then Later(0.0, Recorded(t[k], star, start)) else 0.0
  }

  method SkippedReady(n: nat, graph: Adjacency, cls: seq<Class>, t: seq<real>, star: real, start: real,
                      ghost edges: seq<Edge>)
    returns (ready: seq<real>)
    requires |cls| == |t| == n && Lists(graph, edges, n) && InBounds(edges, n)
    ensures |ready| == n && forall k: nat :: k < n ==> ready[k] == Base(edges, cls, t, star, start, k, n)
  {
    hide Targets, Occurs, Lists, Later, Recorded, Base;
    ready := seq(n, _ => 0.0);
    assert forall k: nat :: k < n ==>
      Base(edges, cls, t, star, start, k, 0) == 0.0 by { NoBase(edges, cls, t, star, start, n); }
    for i := 0 to n
      invariant |ready| == n && forall k: nat :: k < n ==> ready[k] == Base(edges, cls, t, star, start, k, i)
    {
      ListOf(graph, edges, n, i);
      ghost var was := ready;
      if cls[i].Skipped? {
        ready := ReadyList(n, cls, ready, t, star, start, graph.to[graph.off[i]..graph.off[i + 1]]);
      }
      BaseNext(edges, cls, t, star, start, n, i);
      forall k: nat | k < n
        ensures ready[k] == Base(edges, cls, t, star, start, k, i + 1)
      {
        assert was[k] == Base(edges, cls, t, star, start, k, i) && BaseMoves(edges, cls, t, star, start, k, i);
      }
    }
  }

  lemma NoBase(edges: seq<Edge>, cls: seq<Class>, t: seq<real>, star: real, start: real, n: nat)
    requires n == |cls| == |t|
    ensures forall k: nat :: k < n ==> Base(edges, cls, t, star, start, k, 0) == 0.0
  {
  }

  lemma AfterNext(edges: seq<Edge>, cls: seq<Class>, k: nat, i: nat)
    requires i < |cls|
    ensures AfterSkipped(edges, cls, k, i + 1) <==>
      AfterSkipped(edges, cls, k, i) || (cls[i].Skipped? && Occurs(Targets(edges, i), k) > 0)
  {
    hide Targets, Occurs;
    if AfterSkipped(edges, cls, k, i + 1) {
      var j: nat :| j < i + 1 && cls[j].Skipped? && Occurs(Targets(edges, j), k) > 0;
      assert j == i || j < i;
    }
  }

  lemma BaseNext(edges: seq<Edge>, cls: seq<Class>, t: seq<real>, star: real, start: real, n: nat, i: nat)
    requires i < n == |cls| == |t|
    ensures forall k: nat :: k < n ==> BaseMoves(edges, cls, t, star, start, k, i)
  {
    hide Targets, Occurs, Recorded, AfterSkipped;
    forall k: nat | k < n
      ensures BaseMoves(edges, cls, t, star, start, k, i)
    {
      AfterNext(edges, cls, k, i);
    }
  }

  /** Request i, if it is skipped, has those ready that wait for it and pause. */
  ghost predicate BaseMoves(edges: seq<Edge>, cls: seq<Class>, t: seq<real>, star: real, start: real, k: nat, i: nat)
    requires i < |cls| == |t| && k < |cls|
  {
    Base(edges, cls, t, star, start, k, i + 1) ==
      if cls[i].Skipped? && cls[k] == Normal(false) && Occurs(Targets(edges, i), k) > 0
      then Later(Base(edges, cls, t, star, start, k, i), Recorded(t[k], star, start))
      else Base(edges, cls, t, star, start, k, i)
  }

  method ReadyList(n: nat, cls: seq<Class>, ready0: seq<real>, t: seq<real>, star: real, start: real, list: seq<nat>)
    returns (ready: seq<real>)
    requires |cls| == |ready0| == |t| == n && forall x :: x in list ==> x < n
    ensures |ready| == n
    ensures forall k: nat :: k < n ==>
      ready[k] ==
        if cls[k] == Normal(false) && Occurs(list, k) > 0 then Later(ready0[k], Recorded(t[k], star, start))
          else ready0[k]
  {
    hide Recorded;
    ready := ready0;
    for j := 0 to |list|
      invariant |ready| == n
      invariant forall k: nat :: k < n ==>
        ready[k] ==
          if cls[k] == Normal(false) && Occurs(list[..j], k) > 0
          then Later(ready0[k], Recorded(t[k], star, start))
          else ready0[k]
    {
      assert list[..j + 1][..j] == list[..j] && list[j] in list;
      if cls[list[j]] == Normal(false) {
        ready := ready[list[j] := Later(ready[list[j]], Recorded(t[list[j]], star, start))];
      }
    }
    assert list[..|list|] == list;
  }

  /** Where a request arrives that no other keeps waiting: a primer and a warm one when the play starts, any other when
      the time of its record comes round; and not before `ready`, unless it is a primer. */
  ghost predicate StartsAt(c: Class, t: real, star: real, start: real, ready: real, due: real) {
    match c
    case Primer => due == start
    case Normal(true) => due == if ready > start then ready else start
    case Normal(false) =>
      var at := if t > star then start + (t - star) else start;
      due == if ready > at then ready else at
    case Skipped => true
  }

  /** When a request that nothing keeps waiting arrives: a primer and a warm one at once. */
  function FirstDue(c: Class, ready: real, t: real, star: real, start: real): real {
    if c.Primer? then start else Later(if c == Normal(true) then start else Recorded(t, star, start), ready)
  }

  lemma DueStarts(cls: seq<Class>, t: seq<real>, star: real, start: real, ready: seq<real>)
    requires |cls| == |t| == |ready|
    ensures forall k: nat :: k < |cls| ==>
      StartsAt(cls[k], t[k], star, start, ready[k], FirstDue(cls[k], ready[k], t[k], star, start))
  {
  }

  /** Who waits for a request that is not played is ready when the time of its own record comes round. */
  ghost predicate BaseAt(edges: seq<Edge>, cls: seq<Class>, t: seq<real>, star: real, start: real, base: seq<real>,
                         k: nat)
    requires k < |cls| == |t| == |base|
  {
    if cls[k] == Normal(false) && AfterSkipped(edges, cls, k, |cls|)
    then StartsAt(cls[k], t[k], star, start, 0.0, base[k])
    else base[k] == 0.0
  }

  lemma BaseStarts(edges: seq<Edge>, cls: seq<Class>, t: seq<real>, star: real, start: real, base: seq<real>)
    requires |cls| == |t| == |base|
    requires forall k: nat :: k < |cls| ==> base[k] == Base(edges, cls, t, star, start, k, |cls|)
    ensures forall k: nat :: k < |cls| ==> BaseAt(edges, cls, t, star, start, base, k)
  {
  }

  /** One instance of a session graph being played. */
  class Play {
    const n: nat
    const graph: Adjacency
    const cls: seq<Class>
    ghost const edges: seq<Edge>
    ghost const delays: seq<real>
    /** Ready times before any request has ended. */
    ghost const base: seq<real>
    var preds: seq<int>
    var released: seq<bool>
    var arrived: seq<bool>
    var done: seq<bool>
    var remaining: int
    var inFlight: int
    var ready: seq<real>
    /** When each released request is to arrive. */
    var due: map<nat, real>
    /** When each request ended that is done. */
    ghost var ends: seq<real>

    ghost predicate Sized()
      reads this
    {
      |cls| == |preds| == |released| == |arrived| == |done| == n && Lists(graph, edges, n) && InBounds(edges, n)
    }

    /** Ready times are those of the requests that have ended; who is released has a time to arrive at. */
    ghost predicate Timely()
      reads this
    {
      && |ready| == |base| == |ends| == |done| == |cls| == |released| == n && |delays| == |edges|
      && Spaced(graph, edges, delays, n)
      && (forall k: nat :: k < n && cls[k].Normal? ==>
        ready[k] == Since(edges, delays, cls, base, ends, done, k, |edges|))
      && (forall k: nat :: k in due <==> k < n && released[k])
    }

    ghost predicate Valid()
      reads this
    {
      && Sized() && remaining == Open(cls, done, n) && inFlight == Open(cls, done, n) - Open(cls, arrived, n)
      && (forall k: nat :: k < n ==> (done[k] ==> arrived[k]) && (arrived[k] ==> released[k]))
      && (forall k: nat :: k < n ==> Account(edges, cls, preds, released, done, 0, k)) && Timely()
    }

    /** `start_play` at time `start`: predecessors counted along the adjacency lists; primers and requests without any
        predecessor get a time to arrive at. */
    constructor (n: nat, graph: Adjacency, cls: seq<Class>, t: seq<real>, star: real, start: real,
                 ghost edges: seq<Edge>, ghost delays: seq<real>)
      requires |cls| == |t| == n && |delays| == |edges|
      requires Lists(graph, edges, n) && InBounds(edges, n) && Spaced(graph, edges, delays, n)
      ensures Valid() && this.n == n && this.graph == graph && this.cls == cls && this.edges == edges &&
        this.delays == delays
      ensures done == arrived == seq(n, _ => false) && inFlight == 0
      ensures forall k: nat :: k < n ==>
        (released[k] <==> cls[k].Primer? || (cls[k].Normal? && Unfinished(edges, cls, done, k, n) == 0))
      ensures |base| == n && forall k: nat :: k < n ==> base[k] == Base(edges, cls, t, star, start, k, n)
      ensures forall k: nat :: k < n && released[k] ==>
        k in due && StartsAt(cls[k], t[k], star, start, base[k], due[k])
      ensures forall k: nat :: k < n ==> BaseAt(edges, cls, t, star, start, base, k)
    {
      hide Later, Recorded, Base, Spaced, Targets, Occurs, Lists, FirstDue, StartsAt, BaseAt;
      var count := CountPredecessors(n, graph, cls, edges);
      var rdy := SkippedReady(n, graph, cls, t, star, start, edges);
      BaseStarts(edges, cls, t, star, start, rdy);
      DueStarts(cls, t, star, start, rdy);
      this.n, this.graph, this.cls, this.edges, this.delays, this.base := n, graph, cls, edges, delays, rdy;
      preds := count;
      var free := seq(n, k requires 0 <= k < n => cls[k].Primer? || (cls[k].Normal? && count[k] == 0));
      released := free;
      done, arrived := NoneDone(n), NoneDone(n);
      ready, ends := rdy, seq(n, _ => 0.0);
      due := map k: nat | k < n && free[k] :: FirstDue(cls[k], rdy[k], t[k], star, start);
      var left := CountPlayed(cls, n);
      remaining, inFlight := left, 0;
      new;
      forall k: nat | k < n && cls[k].Normal?
        ensures ready[k] == Since(edges, delays, cls, base, ends, done, k, |edges|)
      {
        NoneEnded(edges, delays, cls, base, ends, done, k, |edges|);
      }
    }

    /** `on_ready`: a released request arrives. */
    method Arrive(i: nat)
      requires Valid() && i < n && released[i] && !arrived[i]
      modifies this`arrived, this`inFlight
      ensures Valid() && arrived == old(arrived)[i := true] && inFlight == old(inFlight) + 1
    {
      hide Targets, Unfinished, Open, Occurs, Lists, Since, Spaced;
      assert Account(edges, cls, preds, released, done, 0, i);
      OpenDone(cls, arrived, n, i);
      arrived := arrived[i := true];
      inFlight := inFlight + 1;
    }

    /** The play is idle, and may be moved forward, exactly when no request that has arrived is unfinished. */
    method Idle() returns (yes: bool)
      requires Valid()
      ensures yes <==> forall k: nat :: k < n && arrived[k] ==> done[k]
    {
      hide Targets, Unfinished, Occurs, Lists, Timely;
      InFlightIs(cls, arrived, done, n);
      forall k: nat | k < n && arrived[k]
        ensures !cls[k].Skipped?
      {
        assert Account(edges, cls, preds, released, done, 0, k);
      }
      yes := inFlight == 0;
    }

    /** The countdown of `after_done`, while request i's list is walked: j of its targets are behind. */
    ghost predicate Walking(i: nat, list: seq<nat>, gaps: seq<real>, j: nat, now: real, ready0: seq<real>)
      reads this
      requires j <= |list| == |gaps|
    {
      && Sized() && |ready| == |ready0| == n && (forall t :: t in list ==> t < n)
      && (forall k: nat :: k < n ==> (done[k] ==> arrived[k]) && (arrived[k] ==> released[k]))
      && (forall k: nat :: k < n ==> Account(edges, cls, preds, released, done, Occurs(list[j..], k), k))
      && (forall k: nat :: k < n && cls[k].Normal? ==>
        ready[k] == Folded(ready0[k], list[..j], gaps[..j], k, now, cls[k]))
      && (forall k: nat :: k in due <==> k < n && released[k])
    }

    /** The next target on request i's list. */
    method TickAt(i: nat, list: seq<nat>, gaps: seq<real>, j: nat, now: real, ghost ready0: seq<real>)
      returns (freed: bool)
      requires j < |list| == |gaps| && Walking(i, list, gaps, j, now, ready0)
      modifies this`preds, this`released, this`ready, this`due
      ensures Sized() && Walking(i, list, gaps, j + 1, now, ready0) && |old(released)| == n && list[j] < n
      ensures |ready| == n && forall k: nat :: k < n ==> (done[k] ==> arrived[k]) && (arrived[k] ==> released[k])
      ensures freed ==> !old(released)[list[j]] && list[j] !in old(due) && cls[list[j]].Normal?
      ensures if freed then released == old(released)[list[j] := true] && due == old(due)[list[j] := ready[list[j]]]
        else released == old(released) && due == old(due)
      ensures forall k: nat :: k < n && old(released)[k] && cls[k].Normal? ==> ready[k] == old(ready)[k]
    {
      hide Targets, Unfinished, Open, Occurs, Lists, Folded, Later, Wait;
      var t := list[j];
      assert t in list && list[j..][1..] == list[j + 1..] && list[j..][0] == t;
      Tick(edges, cls, preds, released, done, list[j..]);
      forall k: nat
        ensures Folded(if k < n then ready0[k] else 0.0, list[..j + 1], gaps[..j + 1], k, now, if k < n then cls[k]
          else Primer) ==
          (var r := Folded(if k < n then ready0[k] else 0.0, list[..j], gaps[..j], k, now, if k < n then cls[k]
            else Primer);
           if t == k then Later(r, now + Wait(if k < n then cls[k] else Primer, gaps[j])) else r)
      {
        assert list[..j + 1] == list[..j] + [t] && gaps[..j + 1] == gaps[..j] + [gaps[j]];
        FoldedSnoc(if k < n then ready0[k] else 0.0, list[..j], gaps[..j], k, now, if k < n then cls[k] else Primer, t,
          gaps[j]);
      }
      freed := false;
      if cls[t].Normal? {
        ready := ready[t := Later(ready[t], now + Wait(cls[t], gaps[j]))];
        preds := preds[t := preds[t] - 1];
        if preds[t] == 0 {
          released := released[t := true];
          due := due[t := ready[t]];
          freed := true;
        }
      }
    }

    lemma WalkStarts(i: nat, list: seq<nat>, gaps: seq<real>, now: real, ready0: seq<real>)
      requires Sized() && ready0 == ready && |ready| == n && |list| == |gaps| && forall t :: t in list ==> t < n
      requires forall k: nat :: k < n ==> (done[k] ==> arrived[k]) && (arrived[k] ==> released[k])
      requires forall k: nat :: k < n ==> Account(edges, cls, preds, released, done, Occurs(list, k), k)
      requires forall k: nat :: k in due <==> k < n && released[k]
      ensures Walking(i, list, gaps, 0, now, ready0)
    {
      hide Targets, Unfinished, Lists, Occurs;
      StartsWalk(ready0, list, gaps, now, cls);
    }

    /** The walk along request i's list. */
    method Walk(i: nat, list: seq<nat>, gaps: seq<real>, now: real, ghost ready0: seq<real>) returns (next: seq<nat>)
      requires |list| == |gaps| && Sized() && Walking(i, list, gaps, 0, now, ready0)
      modifies this`preds, this`released, this`ready, this`due
      ensures Sized() && Walking(i, list, gaps, |list|, now, ready0) && |ready| == |released| == |old(released)| == n
      ensures forall k: nat :: k < n ==> (released[k] <==> old(released)[k] || k in next)
      ensures Distinct(next) && forall k :: k in next ==> k < n && !old(released)[k] && cls[k].Normal? && released[k]
      ensures forall k: nat :: k in due ==>
        due[k] == if k in next then ready[k] else if k in old(due) then old(due)[k] else 0.0
    {
      hide Walking, Lists;
      next := [];
      assert |ready| == n by { Wide(i, list, gaps, 0, now, ready0); }
      for j := 0 to |list|
        invariant Sized() && Walking(i, list, gaps, j, now, ready0) && |ready| == n
        invariant forall k: nat :: k < n ==> (released[k] <==> old(released)[k] || k in next)
        invariant Distinct(next) &&
          forall k :: k in next ==> k < n && !old(released)[k] && cls[k].Normal? && released[k]
        invariant forall k: nat :: k in due ==>
          due[k] == if k in next then ready[k] else if k in old(due) then old(due)[k] else 0.0
      {
        var freed := TickAt(i, list, gaps, j, now, ready0);
        if freed {
          assert list[j] !in next;
          next := next + [list[j]];
        }
      }
    }

    lemma Wide(i: nat, list: seq<nat>, gaps: seq<real>, j: nat, now: real, ready0: seq<real>)
      requires j <= |list| == |gaps| && Walking(i, list, gaps, j, now, ready0)
      ensures |ready| == n
    {
    }

    lemma WalkEnds(i: nat, list: seq<nat>, gaps: seq<real>, now: real, ready0: seq<real>)
      requires |list| == |gaps| && Walking(i, list, gaps, |list|, now, ready0)
      ensures Sized() && forall k: nat :: k < n ==> Account(edges, cls, preds, released, done, 0, k)
      ensures forall k: nat :: k < n && cls[k].Normal? && released[k] ==> Unfinished(edges, cls, done, k, n) == 0
      ensures |ready| == |ready0| == n
      ensures forall k: nat :: k < n && cls[k].Normal? ==> ready[k] == Folded(ready0[k], list, gaps, k, now, cls[k])
      ensures forall k: nat :: k in due <==> k < n && released[k]
    {
      hide Targets, Unfinished, Lists, Folded;
      assert list[|list|..] == [] && list[..|list|] == list && gaps[..|gaps|] == gaps;
      Ticked(edges, cls, preds, released, done);
    }

    /** `after_done`: request i is finished at time `now`; `next` lists the requests whose last predecessor it was. */
    method Finish(i: nat, now: real) returns (next: seq<nat>)
      requires Valid() && i < n && arrived[i] && !done[i]
      modifies this`preds, this`released, this`done, this`remaining, this`inFlight, this`ready, this`due, this`ends
      ensures Valid() && done == old(done)[i := true] && remaining == old(remaining) - 1 &&
        inFlight == old(inFlight) - 1
      ensures forall k: nat :: k < n ==> (released[k] <==> old(released)[k] || k in next)
      ensures forall k :: k in next ==>
        k < n && !old(released)[k] && cls[k].Normal? && Unfinished(edges, cls, done, k, n) == 0
      ensures Distinct(next) && ends == old(ends)[i := now]
      ensures forall k: nat :: k in due ==>
        due[k] == if k in next then Since(edges, delays, cls, base, ends, done, k, |edges|)
        else if k in old(due) then old(due)[k] else 0.0
      ensures forall k: nat :: k in next ==>
        k in due && FirstReady(edges, delays, cls, base, ends, done, k, |edges|, due[k])
    {
      hide Targets, Unfinished, Open, Occurs, Lists, Since, Folded, Spaced, Gaps, Base, Walking, FirstReady;
      ghost var done0, ends0, ready0, due0, released0 := done, ends, ready, due, released;
      FinishStart(edges, cls, preds, released, done, i);
      OpenDone(cls, done, n, i);
      ListOf(graph, edges, n, i);
      GapsOf(graph, edges, delays, n, i);
      var list, gaps := graph.to[graph.off[i]..graph.off[i + 1]], graph.delay[graph.off[i]..graph.off[i + 1]];
      remaining := remaining - 1;
      inFlight := inFlight - 1;
      done := done[i := true];
      ends := ends[i := now];
      WalkStarts(i, list, gaps, now, ready0);
      next := Walk(i, list, gaps, now, ready0);
      WalkEnds(i, list, gaps, now, ready0);
      forall k: nat | k < n && cls[k].Normal?
        ensures ready[k] == Since(edges, delays, cls, base, ends, done, k, |edges|)
      {
        assert edges[..|edges|] == edges && delays[..|edges|] == delays;
        SinceDone(edges, delays, cls, base, ends0, done0, k, |edges|, i, now);
      }
      forall k: nat | k in next
        ensures k in due && FirstReady(edges, delays, cls, base, ends, done, k, |edges|, due[k])
      {
        SinceReady(edges, delays, cls, base, ends, done, k, |edges|);
      }
    }
  }

  lemma {:induction false} NoneEnded(edges: seq<Edge>, delays: seq<real>, cls: seq<Class>, base: seq<real>,
                                     ends: seq<real>, done: seq<bool>, k: nat, m: nat)
    requires m <= |edges| == |delays| && k < |cls| == |base| == |ends| == |done| &&
      forall i :: 0 <= i < |done| ==> !done[i]
    ensures Since(edges, delays, cls, base, ends, done, k, m) == base[k]
    decreases m
  {
    if m > 0 { NoneEnded(edges, delays, cls, base, ends, done, k, m - 1); }
  }

  lemma GapsOf(graph: Adjacency, edges: seq<Edge>, delays: seq<real>, n: nat, i: nat)
    requires Lists(graph, edges, n) && Spaced(graph, edges, delays, n) && i < n
    ensures i + 1 < |graph.off| && graph.off[i] <= graph.off[i + 1] <= |graph.delay|
    ensures graph.delay[graph.off[i]..graph.off[i + 1]] == Gaps(edges, delays, i)
  {
    assert SpacedAt(graph, edges, delays, i);
  }

  lemma StartsWalk(ready: seq<real>, list: seq<nat>, gaps: seq<real>, now: real, cls: seq<Class>)
    requires |list| == |gaps| && |ready| == |cls|
    ensures list[0..] == list &&
      forall k: nat :: k < |ready| ==> Folded(ready[k], list[..0], gaps[..0], k, now, cls[k]) == ready[k]
  {
  }

  lemma ListOf(graph: Adjacency, edges: seq<Edge>, n: nat, i: nat)
    requires Lists(graph, edges, n) && InBounds(edges, n) && i < n
    ensures i + 1 < |graph.off| && graph.off[i] <= graph.off[i + 1] <= |graph.to|
    ensures graph.to[graph.off[i]..graph.off[i + 1]] == Targets(edges, i)
    ensures forall t :: t in Targets(edges, i) ==> t < n
  {
    assert ListedAt(graph, edges, i);
    TargetsBound(edges, n, i);
  }

  lemma {:induction false} TargetsBound(edges: seq<Edge>, n: nat, i: nat)
    requires InBounds(edges, n)
    ensures forall t :: t in Targets(edges, i) ==> t < n
    decreases |edges|
  {
    if edges != [] {
      assert edges[|edges| - 1] in edges;
      TargetsBound(edges[..|edges| - 1], n, i);
    }
  }

  lemma FinishStart(edges: seq<Edge>, cls: seq<Class>, preds: seq<int>, released: seq<bool>, done: seq<bool>, i: nat)
    requires |cls| == |preds| == |released| == |done| && i < |cls| && released[i] && !done[i]
    requires forall k: nat :: k < |cls| ==> Account(edges, cls, preds, released, done, 0, k)
    ensures !cls[i].Skipped?
    ensures forall k: nat :: k < |cls| ==>
      Account(edges, cls, preds, released, done[i := true], Occurs(Targets(edges, i), k), k)
  {
    hide Targets, Unfinished, Occurs;
    assert Account(edges, cls, preds, released, done, 0, i);
    forall k: nat | k < |cls|
      ensures Account(edges, cls, preds, released, done[i := true], Occurs(Targets(edges, i), k), k)
    {
      assert Account(edges, cls, preds, released, done, 0, k);
      UnfinishedDone(edges, cls, done, k, |cls|, i);
    }
  }

  /** One predecessor less for the request at the front of the list. */
  lemma Tick(edges: seq<Edge>, cls: seq<Class>, preds: seq<int>, released: seq<bool>, done: seq<bool>, list: seq<nat>)
    requires |cls| == |preds| == |released| == |done| && list != [] && list[0] < |cls|
    requires forall k: nat :: k < |cls| ==> Account(edges, cls, preds, released, done, Occurs(list, k), k)
    ensures cls[list[0]].Normal? ==> preds[list[0]] > 0 && !released[list[0]]
    ensures forall k: nat :: k < |cls| ==>
      Account(edges, cls, Ticks(cls, preds, list[0]), Frees(cls, preds, released, list[0]), done,
        Occurs(list[1..], k), k)
  {
    hide Unfinished, Occurs;
    var t := list[0];
    OccursHead(list, t);
    assert Account(edges, cls, preds, released, done, Occurs(list, t), t);
    var p, r, rest := Ticks(cls, preds, t), Frees(cls, preds, released, t), list[1..];
    forall k: nat | k < |cls|
      ensures Account(edges, cls, p, r, done, Occurs(rest, k), k)
    {
      assert Account(edges, cls, preds, released, done, Occurs(list, k), k);
      OccursHead(list, k);
    }
  }

  ghost function Ticks(cls: seq<Class>, preds: seq<int>, t: nat): (p: seq<int>)
    requires |cls| == |preds| && t < |cls|
    ensures |p| == |preds|
  {
    if cls[t].Normal? then preds[t := preds[t] - 1] else preds
  }

  ghost function Frees(cls: seq<Class>, preds: seq<int>, released: seq<bool>, t: nat): (r: seq<bool>)
    requires |cls| == |preds| == |released| && t < |cls|
    ensures |r| == |released|
  {
    if cls[t].Normal? && preds[t] == 1 then released[t := true] else released
  }

  lemma Ticked(edges: seq<Edge>, cls: seq<Class>, preds: seq<int>, released: seq<bool>, done: seq<bool>)
    requires |cls| == |preds| == |released| == |done|
    requires forall k: nat :: k < |cls| ==> Account(edges, cls, preds, released, done, Occurs([], k), k)
    ensures forall k: nat :: k < |cls| ==> Account(edges, cls, preds, released, done, 0, k)
    ensures forall k: nat :: k < |cls| && cls[k].Normal? && released[k] ==> Unfinished(edges, cls, done, k, |cls|) == 0
  {
    hide Unfinished;
    forall k: nat | k < |cls|
      ensures Account(edges, cls, preds, released, done, 0, k)
      ensures cls[k].Normal? && released[k] ==> Unfinished(edges, cls, done, k, |cls|) == 0
    {
      assert Account(edges, cls, preds, released, done, Occurs([], k), k);
    }
  }

  // ---- no play gets stuck ----

  /** The edges lead from each request of p to the next. */
  ghost predicate Leads(edges: seq<Edge>, p: seq<nat>) {
    forall k {:trigger p[k]} :: 0 < k < |p| ==> Edge(p[k - 1], p[k]) in edges
  }

  ghost predicate Round(edges: seq<Edge>, p: seq<nat>) {
    |p| >= 2 && p[0] == p[|p| - 1] && Leads(edges, p)
  }

  ghost predicate Loops(edges: seq<Edge>) {
    exists p :: Round(edges, p)
  }

  /** No more than n different numbers lie below n. */
  lemma {:induction false} Pigeons(s: seq<nat>, n: nat)
    requires Distinct(s) && forall k :: 0 <= k < |s| ==> s[k] < n
    ensures |s| <= n
    decreases n
  {
    assert |s| > 0 ==> s[0] < n;
    if i :| 0 <= i < |s| && s[i] == n - 1 {
      var u := s[..i] + s[i + 1..];
      assert forall k :: 0 <= k < |u| ==> u[k] == s[if k < i then k else k + 1];
      Pigeons(u, n - 1);
    } else if n > 0 {
      Pigeons(s, n - 1);
    }
  }

  /** Walking from request to unfinished predecessor meets a released request, or comes round. */
  lemma {:induction false} WalkBack(edges: seq<Edge>, cls: seq<Class>, preds: seq<int>, released: seq<bool>,
                                    done: seq<bool>, p: seq<nat>)
    returns (i: nat)
    requires |cls| == |preds| == |released| == |done| && !Loops(edges)
    requires forall k: nat :: k < |cls| ==> Account(edges, cls, preds, released, done, 0, k)
    requires p != [] && p[0] < |cls| && !cls[p[0]].Skipped? && !done[p[0]]
    requires Leads(edges, p) && Distinct(p) && forall k :: 0 <= k < |p| ==> p[k] < |cls|
    ensures i < |cls| && released[i] && !done[i]
    decreases |cls| - |p|
  {
    hide Unfinished, Targets, Occurs;
    assert Account(edges, cls, preds, released, done, 0, p[0]);
    Pigeons(p, |cls|);
    if released[p[0]] {
      i := p[0];
    } else {
      var j := UnfinishedWho(edges, cls, done, p[0], |cls|);
      OccursEdge(edges, j, p[0]);
      var q := [j] + p;
      assert Leads(edges, q);
      NoReturn(edges, j, p);
      assert Distinct(q);
      Pigeons(q, |cls|);
      i := WalkBack(edges, cls, preds, released, done, q);
    }
  }

  lemma Return(edges: seq<Edge>, j: nat, p: seq<nat>, k: nat)
    requires Leads(edges, [j] + p) && k < |p| && p[k] == j
    ensures Loops(edges)
  {
    var q := ([j] + p)[..k + 2];
    assert q[k + 1] == p[k] && q[0] == j;
    assert Leads(edges, q);
    assert Round(edges, q);
  }

  lemma NoReturn(edges: seq<Edge>, j: nat, p: seq<nat>)
    requires Leads(edges, [j] + p) && !Loops(edges)
    ensures j !in p
  {
    hide Leads, Loops;
    if k :| 0 <= k < |p| && p[k] == j { Return(edges, j, p, k); }
  }

  /** While requests are left in a graph without cycles, one of them is released. */
  lemma SomeReleased(edges: seq<Edge>, cls: seq<Class>, preds: seq<int>, released: seq<bool>, done: seq<bool>, k: nat)
    returns (i: nat)
    requires |cls| == |preds| == |released| == |done| && !Loops(edges)
    requires forall k: nat :: k < |cls| ==> Account(edges, cls, preds, released, done, 0, k)
    requires k < |cls| && !cls[k].Skipped? && !done[k]
    ensures i < |cls| && released[i] && !done[i]
  {
    hide Account;
    i := WalkBack(edges, cls, preds, released, done, [k]);
  }

  /** On a cycle of ordinary requests nobody is ever released: each waits for the one before it. */
  lemma RoundStuck(edges: seq<Edge>, cls: seq<Class>, preds: seq<int>, released: seq<bool>, done: seq<bool>,
                   p: seq<nat>)
    requires |cls| == |preds| == |released| == |done| && Round(edges, p)
    requires forall k: nat :: k < |cls| ==> Account(edges, cls, preds, released, done, 0, k)
    requires forall x :: x in p ==> x < |cls| && cls[x].Normal? && !done[x]
    ensures forall x :: x in p ==> !released[x]
  {
    hide Unfinished, Targets, Occurs;
    forall k | 0 <= k < |p|
      ensures p[k] in p && p[k] < |cls| && !released[p[k]]
    {
      var b := if k == 0 then |p| - 1 else k;
      assert p[b] == p[k] && p[b] in p && p[b - 1] in p;
      assert Edge(p[b - 1], p[b]) in edges;
      EdgeOccurs(edges, p[b - 1], p[b]);
      WaitsFor(edges, cls, done, p[b], |cls|, p[b - 1]);
      assert Account(edges, cls, preds, released, done, 0, p[b]);
    }
  }

  lemma {:induction false} EdgeOccurs(edges: seq<Edge>, i: nat, k: nat)
    requires Edge(i, k) in edges
    ensures Occurs(Targets(edges, i), k) > 0
    decreases |edges|
  {
    hide Occurs;
    var n := |edges| - 1;
    var e := edges[n];
    var t := Targets(edges[..n], i);
    assert edges == edges[..n] + [e];
    if e != Edge(i, k) { EdgeOccurs(edges[..n], i, k); }
    if e.from == i && e.to >= 0 {
      var x: nat := e.to;
      assert Targets(edges, i) == t + [x];
      OccursSnoc(t, x, k);
    } else {
      assert Targets(edges, i) == t;
    }
  }

  lemma OccursSnoc(t: seq<nat>, x: nat, k: nat)
    ensures Occurs(t + [x], k) == Occurs(t, k) + (if x == k then 1 else 0)
  {
    assert (t + [x])[..|t|] == t;
  }

  lemma {:induction false} WaitsFor(edges: seq<Edge>, cls: seq<Class>, done: seq<bool>, k: nat, m: nat, i: nat)
    requires m <= |cls| == |done| && i < m && !cls[i].Skipped? && !done[i] && Occurs(Targets(edges, i), k) > 0
    ensures Unfinished(edges, cls, done, k, m) > 0
    decreases m
  {
    hide Occurs, Targets;
    if i < m - 1 { WaitsFor(edges, cls, done, k, m - 1, i); }
  }

  /** Played to the end, with arrivals and completions in any order: without cycles every request is played exactly
      once. */
  method PlayOut(p: Play) returns (order: seq<nat>)
    requires p.Valid() && !Loops(p.edges) && forall k :: 0 <= k < p.n ==> !p.done[k]
    modifies p
    ensures p.Valid() && p.remaining == 0 && p.inFlight == 0
    ensures forall k: nat :: k in order <==> k < p.n && !p.cls[k].Skipped?
    ensures Distinct(order)
  {
    hide Unfinished, Open, Lists, Account, Loops;
    order := [];
    while p.remaining > 0
      invariant p.Valid() && (forall k: nat :: k < p.n ==> (p.done[k] <==> k in order))
      invariant Distinct(order) && forall k :: k in order ==> k < p.n && !p.cls[k].Skipped?
      decreases 2 * p.remaining - p.inFlight
    {
      ghost var k := OpenWho(p.cls, p.done, p.n);
      ghost var w := SomeReleased(p.edges, p.cls, p.preds, p.released, p.done, k);
      var i :| 0 <= i < p.n && p.released[i] && !p.done[i];
      InFlightIs(p.cls, p.arrived, p.done, p.n);
      ReleasedPlayed(p.edges, p.cls, p.preds, p.released, p.done, i);
      if !p.arrived[i] {
        p.Arrive(i);
      } else {
        var now: real := *;
        var next := p.Finish(i, now);
        order := order + [i];
      }
      InFlightIs(p.cls, p.arrived, p.done, p.n);
    }
    InFlightIs(p.cls, p.arrived, p.done, p.n);
    forall k: nat | k < p.n && !p.cls[k].Skipped?
      ensures k in order
    {
      OpenNone(p.cls, p.done, p.n, k);
    }
  }

  lemma ReleasedPlayed(edges: seq<Edge>, cls: seq<Class>, preds: seq<int>, released: seq<bool>, done: seq<bool>, i: nat)
    requires |cls| == |preds| == |released| == |done| && i < |cls| && released[i]
    requires forall k: nat :: k < |cls| ==> Account(edges, cls, preds, released, done, 0, k)
    ensures !cls[i].Skipped?
  {
    assert Account(edges, cls, preds, released, done, 0, i);
  }

  datatype Step = Arrives(i: nat) | Finishes(i: nat, at: real)

  /** Whatever arrives and finishes, nothing on a cycle of ordinary requests is ever played, and the play never ends. */
  method RoundWaits(p: Play, ghost round: seq<nat>, steps: seq<Step>)
    requires p.Valid() && Round(p.edges, round) && forall x :: x in round ==> x < p.n && p.cls[x].Normal? && !p.done[x]
    modifies p
    ensures p.Valid() && p.remaining > 0 && forall x :: x in round ==> x < p.n && !p.released[x] && !p.done[x]
  {
    hide Unfinished, Open, Lists, Account, Round;
    for k := 0 to |steps|
      invariant p.Valid() && forall x :: x in round ==> x < p.n && !p.done[x]
    {
      RoundStuck(p.edges, p.cls, p.preds, p.released, p.done, round);
      var i := steps[k].i;
      if i < p.n && p.released[i] {
        if steps[k].Arrives? && !p.arrived[i] {
          p.Arrive(i);
        } else if steps[k].Finishes? && p.arrived[i] && !p.done[i] {
          var next := p.Finish(i, steps[k].at);
        }
      }
    }
    RoundStuck(p.edges, p.cls, p.preds, p.released, p.done, round);
    RoundOpen(p.edges, p.cls, p.done, p.n, round);
  }

  lemma RoundOpen(edges: seq<Edge>, cls: seq<Class>, done: seq<bool>, n: nat, p: seq<nat>)
    requires |cls| == |done| == n && Round(edges, p) && forall x :: x in p ==> x < n && cls[x].Normal? && !done[x]
    ensures Open(cls, done, n) > 0
  {
    assert p[0] in p;
    if Open(cls, done, n) == 0 { OpenNone(cls, done, n, p[0]); }
  }

  // ---- from the trace to the end of the play ----

  function Bare(edges: seq<SessionGraph.Edge>): (b: seq<Edge>)
    ensures |b| == |edges| && forall k :: 0 <= k < |edges| ==> b[k] == Edge(edges[k].from, edges[k].to)
  {
    seq(|edges|, k requires 0 <= k < |edges| => Edge(edges[k].from, edges[k].to))
  }

  lemma BareRound(edges: seq<SessionGraph.Edge>, p: seq<nat>)
    requires Round(Bare(edges), p)
    ensures SessionGraph.Cyclic(edges)
  {
    forall k | 0 < k < |p|
      ensures SessionGraph.Linked(edges, p[k - 1], p[k])
    {
      var j :| 0 <= j < |edges| && Bare(edges)[j] == Edge(p[k - 1], p[k]);
      assert edges[j] in edges;
    }
    assert SessionGraph.Path(edges, p);
  }

  lemma BareLoops(edges: seq<SessionGraph.Edge>)
    ensures Loops(Bare(edges)) ==> SessionGraph.Cyclic(edges)
  {
    hide SessionGraph.Cyclic, Round;
    if p :| Round(Bare(edges), p) { BareRound(edges, p); }
  }

  lemma PathRound(edges: seq<SessionGraph.Edge>, p: seq<nat>, n: nat)
    requires SessionGraph.Path(edges, p) && p[0] == p[|p| - 1] && forall e :: e in edges ==> e.from < n && e.to < n
    ensures Round(Bare(edges), p) && forall x :: x in p ==> x < n
  {
    forall k | 0 < k < |p|
      ensures Edge(p[k - 1], p[k]) in Bare(edges) && p[k] < n
    {
      assert SessionGraph.Linked(edges, p[k - 1], p[k]);
      var j :| 0 <= j < |edges| && edges[j].from == p[k - 1] && edges[j].to == p[k];
      assert Bare(edges)[j] == Edge(p[k - 1], p[k]);
    }
  }

  lemma BareIn(edges: seq<SessionGraph.Edge>, n: nat)
    requires forall e :: e in edges ==> e.from < n && e.to < n
    ensures InBounds(Bare(edges), n)
  {
  }

  /** A session built from chains that are joined later than they are spawned plays every request that is not skipped,
      once. */
  method PlaySession(main: seq<SessionGraph.Item>, subs: seq<SessionGraph.Sub>, flats: seq<seq<SessionGraph.Item>>,
                     classes: nat -> Class, star: real, start: real)
    returns (n: nat, order: seq<nat>)
    requires SessionGraph.HooksOk(main, subs, flats)
    requires (flats != [] ==> main != []) && forall f :: f in flats ==> f != []
    ensures n == |main + SessionGraph.KeptItems(main, subs) + SessionGraph.Cat(flats)|
    ensures forall k: nat :: k in order <==> k < n && !classes(k).Skipped?
    ensures forall j, k :: 0 <= j < k < |order| ==> order[j] != order[k]
  {
    hide SessionGraph.HooksOk, SessionGraph.Cyclic, SessionGraph.Emitted, SessionGraph.Delayed,
         SessionGraph.TraceMarks, SessionGraph.Upwards, SessionGraph.KeptItems, SessionGraph.Cat, SessionGraph.Line,
         SessionGraph.KeptEdges, SessionGraph.FlatEdges;
    var requests, hashIds, edges, delays;
    ghost var places;
    requests, hashIds, edges, delays, places := SessionGraph.BuildTrace(main, subs, flats);
    SessionGraph.AllEmitted(requests, hashIds, main + SessionGraph.KeptItems(main, subs) + SessionGraph.Cat(flats),
      SessionGraph.TraceMarks(main, subs, flats));
    SessionGraph.AllDelayed(delays, edges, main + SessionGraph.KeptItems(main, subs) + SessionGraph.Cat(flats));
    n, order := PlayGraph(edges, delays, seq(|requests|, k requires 0 <= k < |requests| => requests[k].t), classes,
      star, start);
  }

  /** A file whose requests later in the file start no earlier, carry block ids and take time plays out completely. */
  method PlayFile(raw: AgentChains.Reqs, normals: seq<nat>, subs: seq<TraceBuild.RawSub>, classes: nat -> Class,
                  star: real, start: real)
    returns (n: nat, order: seq<nat>)
    requires TraceBuild.Known(raw, normals) && TraceBuild.Filed(normals)
    requires TraceBuild.FileTimes(raw, normals) && TraceBuild.Solid(raw, normals)
    ensures n >= |normals| && Distinct(order) && forall k: nat :: k in order <==> k < n && !classes(k).Skipped?
  {
    hide Lists, Unfinished, SessionGraph.Cyclic, SessionGraph.HooksOk, SessionGraph.Upwards, TraceBuild.Planned,
         TraceBuild.Chained, TraceBuild.Expanded, TraceBuild.Solid, TraceBuild.FileTimes, SessionGraph.FileOrder,
         SessionGraph.Delayed, TraceBuild.AllCopied, TraceBuild.AllPause, TraceBuild.RecordsOf;
    var requests, hashIds, edges, delays;
    ghost var places, main, flats, hung, recs;
    requests, hashIds, edges, delays, places, main, flats, hung, recs := TraceBuild.BuildTrace(raw, normals, subs);
    assert |main| + |TraceBuild.CatIds(flats)| == |multiset(main + TraceBuild.CatIds(flats))| == |multiset(normals)|;
    SessionGraph.AllDelayed(delays, edges, TraceBuild.ItemsOf(raw, main) +
      SessionGraph.KeptItems(TraceBuild.ItemsOf(raw, main), hung) + TraceBuild.ItemsOf(raw, TraceBuild.CatIds(flats)));
    n, order := PlayGraph(edges, delays, seq(|requests|, k requires 0 <= k < |requests| => requests[k].t), classes,
      star, start);
  }

  /** A graph of requests with recorded starts t, played from recorded time `star` at time `start` on. */
  method PlayGraph(edges: seq<SessionGraph.Edge>, delays: seq<real>, t: seq<real>, classes: nat -> Class, star: real,
                   start: real)
    returns (n: nat, order: seq<nat>)
    requires !SessionGraph.Cyclic(edges) && |delays| == |edges| && forall e :: e in edges ==> e.from < |t| && e.to < |t|
    ensures n == |t| && Distinct(order) && forall k: nat :: k in order <==> k < n && !classes(k).Skipped?
  {
    hide Lists, Spaced, Unfinished, SessionGraph.Cyclic;
    n := |t|;
    var bare := Bare(edges);
    BareLoops(edges);
    BareIn(edges, n);
    var g := BuildGraph(bare, delays, n);
    if g.None? { return n, []; }
    var cls := seq(n, k requires 0 <= k < n => classes(k));
    var p := new Play(n, g.value, cls, t, star, start, bare, delays);
    order := PlayOut(p);
  }

  /** A session that never ends: whatever arrives and finishes, requests are left. */
  method StuckSession(steps: seq<Step>) returns (left: int)
    ensures left > 0
  {
    hide Lists, Unfinished;
    var n, edges;
    ghost var main, flats;
    n, edges, main, flats := TraceCycles.BareTrace();
    BareIn(edges, n);
    ghost var round :| SessionGraph.Path(edges, round) && round[0] == round[|round| - 1];
    PathRound(edges, round, n);
    assert round[0] in round;
    var g := BuildGraph(Bare(edges), seq(|edges|, _ => 0.0), n);
    var p := new Play(n, g.value, seq(n, _ => Normal(false)), seq(n, _ => 0.0), 0.0, 0.0, Bare(edges),
      seq(|edges|, _ => 0.0));
    RoundWaits(p, round, steps);
    left := p.remaining;
  }
}
