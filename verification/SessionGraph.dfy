/** The session graph of a trace: chains of requests hung between requests of the main chain. */
module SessionGraph {
  import opened Commons

  /** What is copied from a recorded request as it is. */
  datatype Meta = Meta(api: real, inTokens: int, outTokens: int, model: nat, streaming: bool)

  /** `oi` is the request's place in the file, `end` the time its service ended. */
  datatype Item = Item(oi: int, t: real, end: real, hashes: seq<nat>, meta: Meta)

  datatype Sub = Sub(outer: int, end: real, chains: seq<seq<Item>>)

  datatype Kind = Sequential | Background | Spawn | Join

  datatype Edge = Edge(from: nat, to: nat, kind: Kind)

  datatype Request = Request(agent: nat, outer: int, t: real, meta: Meta, begin: nat, count: nat)

  /** The agent a request is emitted under, and the place in the file it is given: of a subagent's requests, the
      marker's. */
  datatype Mark = Mark(agent: nat, outer: int)

  // ---- cycles ----

  ghost predicate Path(edges: seq<Edge>, p: seq<nat>) {
    |p| >= 2 && forall k {:trigger p[k]} :: 0 < k < |p| ==> Linked(edges, p[k - 1], p[k])
  }

  ghost predicate Linked(edges: seq<Edge>, a: nat, b: nat) {
    exists e :: e in edges && e.from == a && e.to == b
  }

  ghost predicate Cyclic(edges: seq<Edge>) {
    exists p :: Path(edges, p) && p[0] == p[|p| - 1]
  }

  /** Where a request stands: behind which request of the main chain, and how far down its own chain. */
  datatype Place = Place(main: nat, depth: nat)

  predicate Earlier(a: Place, b: Place) {
    a.main < b.main || (a.main == b.main && a.depth < b.depth)
  }

  ghost predicate Upwards(edges: seq<Edge>, places: seq<Place>) {
    forall e :: e in edges ==> e.from < |places| && e.to < |places| && Earlier(places[e.from], places[e.to])
  }

  lemma {:induction false} PathUp(edges: seq<Edge>, places: seq<Place>, p: seq<nat>)
    requires Upwards(edges, places) && Path(edges, p)
    ensures p[0] < |places| && p[|p| - 1] < |places| && Earlier(places[p[0]], places[p[|p| - 1]])
    decreases |p|
  {
    var n := |p| - 1;
    assert Linked(edges, p[n - 1], p[n]);
    if n > 1 {
      assert Path(edges, p[..n]);
      PathUp(edges, places, p[..n]);
    }
  }

  /** Edges that only lead to later places close no cycle. */
  lemma NoCycle(edges: seq<Edge>, places: seq<Place>)
    requires Upwards(edges, places)
    ensures !Cyclic(edges)
  {
    forall p | Path(edges, p)
      ensures p[0] != p[|p| - 1]
    {
      PathUp(edges, places, p);
    }
  }

  // ---- positions in the main chain ----

  ghost predicate FileOrder(main: seq<Item>) {
    forall p, q :: 0 <= p < q < |main| ==> main[p].oi < main[q].oi
  }

  ghost function LastBefore(main: seq<Item>, before: int, defaultZero: bool): (r: int)
    ensures -1 <= r && (defaultZero ==> r >= 0)
  {
    if main == [] then (if defaultZero then 0 else -1)
    else if main[|main| - 1].oi < before then |main| - 1
    else LastBefore(main[..|main| - 1], before, defaultZero)
  }

  /** The last position whose request comes before `before` in the file. */
  method PrecedingPos(main: seq<Item>, before: int, defaultZero: bool) returns (best: int)
    ensures forall p :: 0 <= p < |main| && main[p].oi < before ==> p <= best
    ensures best == (if defaultZero then 0 else -1) || (0 <= best < |main| && main[best].oi < before)
    ensures -1 <= best && (defaultZero ==> best >= 0) && best == LastBefore(main, before, defaultZero)
  {
    best := if defaultZero then 0 else -1;
    for pos := 0 to |main|
      invariant forall p :: 0 <= p < pos && main[p].oi < before ==> p <= best
      invariant best == (if defaultZero then 0 else -1) || (0 <= best < |main| && main[best].oi < before)
      invariant -1 <= best && (defaultZero ==> best >= 0)
      invariant best == LastBefore(main[..pos], before, defaultZero) && (best < pos || best == 0)
    {
      assert main[..pos + 1][..pos] == main[..pos];
      if main[pos].oi < before && pos > best { best := pos; }
    }
    assert main[..|main|] == main;
  }

  ghost predicate CanJoin(x: Item, after: int, end: real) {
    x.oi > after && x.t + 0.000001 >= end
  }

  /** The position of the request that comes first in the file among those that can join. */
  ghost function FirstJoin(main: seq<Item>, after: int, end: real): (r: int)
    ensures -1 <= r < |main| && (r == -1 <==> forall p :: 0 <= p < |main| ==> !CanJoin(main[p], after, end))
    ensures r >= 0 ==> CanJoin(main[r], after, end)
    ensures r >= 0 ==> forall p :: 0 <= p < |main| && CanJoin(main[p], after, end) ==> main[r].oi <= main[p].oi
  {
    if main == [] then -1
    else
      var n := |main| - 1;
      var r := FirstJoin(main[..n], after, end);
      if CanJoin(main[n], after, end) && (r < 0 || main[n].oi < main[r].oi) then n else r
  }

  /** Of the requests after `after` in the file that start once the chain has ended, the first in file order. */
  method JoinPos(main: seq<Item>, after: int, end: real) returns (pos: int)
    ensures -1 <= pos < |main| && (pos == -1 <==> forall p :: 0 <= p < |main| ==> !CanJoin(main[p], after, end))
    ensures pos >= 0 ==> CanJoin(main[pos], after, end)
    ensures pos >= 0 ==> forall p :: 0 <= p < |main| && CanJoin(main[p], after, end) ==> main[pos].oi <= main[p].oi
    ensures pos == FirstJoin(main, after, end)
  {
    pos := -1;
    for p := 0 to |main|
      invariant -1 <= pos < p && (pos == -1 <==> forall q :: 0 <= q < p ==> !CanJoin(main[q], after, end))
      invariant pos >= 0 ==> CanJoin(main[pos], after, end)
      invariant pos >= 0 ==> forall q :: 0 <= q < p && CanJoin(main[q], after, end) ==> main[pos].oi <= main[q].oi
      invariant pos == FirstJoin(main[..p], after, end)
    {
      assert main[..p + 1][..p] == main[..p];
      if main[p].oi > after && main[p].t + EPS >= end && (pos < 0 || main[p].oi < main[pos].oi) { pos := p; }
    }
    assert main[..|main|] == main;
  }

  // ---- the builder ----

  /** Request k of the trace is the given item under the given mark, with its own slice of the block ids. */
  ghost predicate Emitted(requests: seq<Request>, hashIds: seq<nat>, items: seq<Item>, marks: seq<Mark>) {
    |requests| == |items| == |marks| && forall k :: 0 <= k < |requests| ==>
      IsItem(requests[k], hashIds, items[k], marks[k])
  }

  lemma AllEmitted(requests: seq<Request>, hashIds: seq<nat>, items: seq<Item>, marks: seq<Mark>)
    requires Emitted(requests, hashIds, items, marks)
    ensures |requests| == |items|
  {
  }

  ghost predicate IsItem(r: Request, hashIds: seq<nat>, x: Item, m: Mark) {
    && r.agent == m.agent && r.outer == m.outer && r.t == x.t && r.meta == x.meta
    && r.begin + r.count <= |hashIds| && hashIds[r.begin..r.begin + r.count] == x.hashes
  }

  /** After item a and its service time, d is what is left until b starts; nothing if b started before that. */
  ghost predicate Waits(a: Item, b: Item, d: real) {
    if a.t + a.meta.api < b.t then a.t + a.meta.api + d == b.t else d == 0.0
  }

  /** The gap between the end of one recorded request and the start of another. */
  function Delay(a: Item, b: Item): (d: real)
    ensures Waits(a, b, d)
  {
    var gap := b.t - a.t - a.meta.api;
    if gap > 0.0 then gap else 0.0
  }

  /** Every edge has the gap between its requests for a delay. */
  ghost predicate Delayed(delays: seq<real>, edges: seq<Edge>, items: seq<Item>) {
    |delays| == |edges| && forall k :: 0 <= k < |edges| ==> DelayIs(delays[k], edges[k], items)
  }

  lemma AllDelayed(delays: seq<real>, edges: seq<Edge>, items: seq<Item>)
    requires Delayed(delays, edges, items)
    ensures |delays| == |edges|
  {
  }

  ghost predicate DelayIs(d: real, e: Edge, items: seq<Item>) {
    e.from < |items| && e.to < |items| && Waits(items[e.from], items[e.to], d)
  }

  class Builder {
    const main: seq<Item>
    var requests: seq<Request>
    var hashIds: seq<nat>
    var edges: seq<Edge>
    /** The delay of each edge. */
    var delays: seq<real>
    /** The items emitted so far, their marks, and where each stands. */
    var items: seq<Item>
    ghost var marks: seq<Mark>
    ghost var places: seq<Place>

    ghost predicate Valid()
      reads this
    {
      && Emitted(requests, hashIds, items, marks) && |places| == |requests| && Delayed(delays, edges, items)
      && (forall e :: e in edges ==> e.from < |requests| && e.to < |requests|)
    }

    constructor (main: seq<Item>)
      ensures Valid() && this.main == main && items == [] && edges == [] && places == [] && marks == []
    {
      this.main := main;
      requests, hashIds, edges, delays, items, marks, places := [], [], [], [], [], [], [];
    }

    method AddRequest(agent: nat, outer: int, x: Item, ghost place: Place) returns (id: nat)
      requires Valid()
      modifies this
      ensures Valid() && id == |old(requests)| && items == old(items) + [x] && places == old(places) + [place]
      ensures marks == old(marks) + [Mark(agent, outer)] && edges == old(edges)
    {
      id := |requests|;
      var q := Request(agent, outer, x.t, x.meta, |hashIds|, |x.hashes|);
      ghost var ids0, requests0, items0 := hashIds, requests, items;
      hashIds := hashIds + x.hashes;
      requests := requests + [q];
      items, marks, places := items + [x], marks + [Mark(agent, outer)], places + [place];
      forall k | 0 <= k < |requests|
        ensures IsItem(requests[k], hashIds, items[k], marks[k])
      {
        if k < |requests0| {
          assert IsItem(requests0[k], ids0, items[k], marks[k]);
          assert hashIds[requests[k].begin..requests[k].begin + requests[k].count] ==
                 ids0[requests[k].begin..requests[k].begin + requests[k].count];
        }
      }
      forall k | 0 <= k < |edges|
        ensures DelayIs(delays[k], edges[k], items)
      {
        assert DelayIs(delays[k], edges[k], items0);
      }
    }

    /** An edge between two requests emitted before, with the gap between them. */
    method AddEdge(from: nat, to: nat, kind: Kind)
      requires Valid() && from < |requests| && to < |requests|
      modifies this`edges, this`delays
      ensures Valid() && edges == old(edges) + [Edge(from, to, kind)]
      ensures |delays| == |edges| && delays[..|old(edges)|] == old(delays) && from < |items| && to < |items|
      ensures var a, b, d := items[from], items[to], delays[|old(edges)|]; (
        if a.t + a.meta.api < b.t then a.t + a.meta.api + d == b.t else d == 0.0)
    {
      hide Emitted;
      Lengths();
      edges := edges + [Edge(from, to, kind)];
      delays := delays + [Delay(items[from], items[to])];
    }

    /** The requests of one chain, each linked to the one before it. */
    method AddChain(agent: nat, chain: seq<Item>, marker: int, ghost pre: nat, ghost depth: nat)
      requires Valid()
      modifies this
      ensures Valid() && items == old(items) + chain && |places| == |old(places)| + |chain|
      ensures marks == old(marks) + Marks(agent, marker, chain)
      ensures places[..|old(places)|] == old(places)
      ensures forall k :: 0 <= k < |chain| ==> places[|old(places)| + k] == ChainPlace(pre, depth, k)
      ensures edges == old(edges) + Line(|old(requests)|, |chain|)
    {
      hide Emitted, Delayed;
      Lengths();
      var first := |requests|;
      for k := 0 to |chain|
        invariant Valid() && items == old(items) + chain[..k] && |places| == |old(places)| + k &&
          |requests| == first + k
        invariant marks == old(marks) + Marks(agent, marker, chain)[..k]
        invariant places[..|old(places)|] == old(places)
        invariant forall j :: 0 <= j < k ==> places[|old(places)| + j] == ChainPlace(pre, depth, j)
        invariant edges == old(edges)
      {
        assert chain[..k + 1] == chain[..k] + [chain[k]];
        var id := AddRequest(agent, if marker >= 0 then marker else chain[k].oi, chain[k], ChainPlace(pre, depth, k));
        Lengths();
      }
      assert chain[..|chain|] == chain;
      if chain == [] { return; }
      for k := 1 to |chain|
        invariant edges == old(edges) + Line(first, k)
        invariant Valid() && items == old(items) + chain && |places| == |old(places)| + |chain| &&
          |requests| == first + |chain|
        invariant marks == old(marks) + Marks(agent, marker, chain)
        invariant places[..|old(places)|] == old(places)
        invariant forall j :: 0 <= j < |chain| ==> places[|old(places)| + j] == ChainPlace(pre, depth, j)
      {
        AddEdge(first + k - 1, first + k, Sequential);
      }
    }

    lemma Lengths()
      requires Valid()
      ensures |requests| == |items| == |marks| == |places|
    {
    }

    /** Hangs a chain of n requests, the first being `start`, behind one main request and, if it is waited for, before
        another. */
    method Attach(start: nat, n: nat, preceding: nat, join: int)
      requires Valid() && start + n <= |requests| && preceding < |requests| && join < |requests|
      modifies this`edges, this`delays
      ensures Valid() && edges == old(edges) + Links(start, n, preceding, join)
      ensures n == 0 ==> edges == old(edges)
      ensures n > 0 && join < 0 ==> edges == old(edges) + [Edge(preceding, start, Background)]
      ensures n > 0 && join >= 0 ==>
        edges == old(edges) + [Edge(preceding, start, Spawn), Edge(start + n - 1, join, Join)]
    {
      hide Emitted, Delayed;
      if n == 0 { return; }
      if join < 0 {
        AddEdge(preceding, start, Background);
      } else {
        AddEdge(preceding, start, Spawn);
        AddEdge(start + n - 1, join, Join);
        assert edges == old(edges) + Links(start, n, preceding, join);
      }
    }
  }

  /** The marks of one agent's chain. */
  ghost function Marks(agent: nat, marker: int, chain: seq<Item>): (m: seq<Mark>)
    ensures |m| == |chain|
  {
    seq(|chain|, k requires 0 <= k < |chain| => Mark(agent, if marker >= 0 then marker else chain[k].oi))
  }

  /** The marks of chains that are an agent each. */
  ghost function ChainsMarks(agent: nat, marker: int, chains: seq<seq<Item>>): (m: seq<Mark>)
    ensures |m| == |Cat(chains)|
  {
    if chains == [] then []
    else
      var n := |chains| - 1;
      ChainsMarks(agent, marker, chains[..n]) + Marks(agent + n, marker, chains[n])
  }

  /** How many agents the kept subagents make. */
  ghost function Agents(main: seq<Item>, subs: seq<Sub>): nat {
    if subs == [] then 0
    else
      var n := |subs| - 1;
      Agents(main, subs[..n]) + (if Kept(main, subs[n]) then |subs[n].chains| else 0)
  }

  ghost function KeptMarks(agent: nat, main: seq<Item>, subs: seq<Sub>): (m: seq<Mark>)
    ensures |m| == |KeptItems(main, subs)|
  {
    if subs == [] then []
    else
      var n := |subs| - 1;
      KeptMarks(agent, main, subs[..n]) + SubMarks(agent + Agents(main, subs[..n]), main, subs[n])
  }

  ghost function SubMarks(agent: nat, main: seq<Item>, s: Sub): seq<Mark> {
    if Kept(main, s) then ChainsMarks(agent, s.outer, s.chains) else []
  }

  /** The marks of a whole trace: the main chain is agent 0, then the kept subagents' chains, then the flat ones. */
  ghost function TraceMarks(main: seq<Item>, subs: seq<Sub>, flats: seq<seq<Item>>): seq<Mark> {
    Marks(0, -1, main) + KeptMarks(1, main, subs) + ChainsMarks(1 + Agents(main, subs), -1, flats)
  }

  /** The main chain advances place by place, any other stays behind its main request and grows deeper. */
  ghost function ChainPlace(pre: nat, depth: nat, k: nat): Place {
    if depth == 0 then Place(pre + k, 0) else Place(pre, depth + k)
  }

  ghost function Line(first: nat, n: nat): seq<Edge> {
    if n <= 1 then [] else Line(first, n - 1) + [Edge(first + n - 2, first + n - 1, Sequential)]
  }

  function Links(start: nat, n: nat, preceding: nat, join: int): seq<Edge> {
    if n == 0 then []
    else if join < 0 then [Edge(preceding, start, Background)]
    else [Edge(preceding, start, Spawn), Edge(start + n - 1, join, Join)]
  }

  ghost predicate Steps(edges: seq<Edge>, x: nat) {
    Linked(edges, x, x + 1)
  }

  /** A chain is joined up from each request to the next, and by nothing else. */
  lemma {:induction false} LineExact(first: nat, n: nat)
    ensures |Line(first, n)| == if n == 0 then 0 else n - 1
    ensures forall k :: 0 <= k < |Line(first, n)| ==> Line(first, n)[k] == Edge(first + k, first + k + 1, Sequential)
    decreases n
  {
    if n > 1 { LineExact(first, n - 1); }
  }

  lemma {:induction false} LineIs(first: nat, n: nat)
    ensures forall e :: e in Line(first, n) ==> first <= e.from < first + n && e.to == e.from + 1 < first + n
    ensures forall x: nat :: first <= x < first + n - 1 ==> Steps(Line(first, n), x)
    decreases n
  {
    if n > 1 {
      LineIs(first, n - 1);
      var e := Edge(first + n - 2, first + n - 1, Sequential);
      assert e in Line(first, n);
      forall x: nat | first <= x < first + n - 1
        ensures Steps(Line(first, n), x)
      {
        if x < first + n - 2 {
          assert Steps(Line(first, n - 1), x);
        }
      }
    }
  }

  lemma UpLine(edges: seq<Edge>, places: seq<Place>, more: seq<Place>, pre: nat, depth: nat)
    requires Upwards(edges, places) && forall k :: 0 <= k < |more| ==> more[k] == ChainPlace(pre, depth, k)
    ensures Upwards(edges + Line(|places|, |more|), places + more)
  {
  }

  lemma UpLinks(edges: seq<Edge>, places: seq<Place>, start: nat, n: nat, preceding: nat, join: int)
    requires Upwards(edges, places) && start + n <= |places| && preceding < |places| &&
      places[preceding] == Place(preceding, 0)
    requires forall k :: 0 <= k < n ==> places[start + k] == ChainPlace(preceding, 1, k)
    requires n > 0 && join >= 0 ==> preceding < join < |places| && places[join] == Place(join, 0)
    ensures Upwards(edges + Links(start, n, preceding, join), places)
  {
    if n > 0 {
      assert places[start + 0] == ChainPlace(preceding, 1, 0) &&
        places[start + (n - 1)] == ChainPlace(preceding, 1, n - 1);
    }
  }

  lemma CyclicGrows(edges: seq<Edge>, more: seq<Edge>)
    ensures Cyclic(edges) ==> Cyclic(edges + more)
  {
  }

  /** Each of the first m requests is followed by the next. */
  ghost predicate InLine(edges: seq<Edge>, m: nat) {
    forall x: nat :: x + 1 < m ==> Steps(edges, x)
  }

  lemma LineStays(edges: seq<Edge>, more: seq<Edge>, m: nat)
    requires InLine(edges, m)
    ensures InLine(edges + more, m)
  {
    forall x: nat | x + 1 < m
      ensures Steps(edges + more, x)
    {
      assert Steps(edges, x);
    }
  }

  /** A chain that joins the main chain no later than where it was spawned closes a cycle. */
  lemma CycleMade(edges: seq<Edge>, start: nat, n: nat, pre: nat, join: nat, m: nat)
    requires n > 0 && join <= pre < m && InLine(edges, m)
    ensures Cyclic(edges + Line(start, n) + Links(start, n, pre, join))
  {
    var all := edges + Line(start, n) + Links(start, n, pre, join);
    var p := [pre] + seq(n, k => start + k) + seq(pre - join + 1, k => join + k);
    LineIs(start, n);
    LineStays(edges, Line(start, n), m);
    LineStays(edges + Line(start, n), Links(start, n, pre, join), m);
    assert Edge(pre, start, Spawn) in all && Edge(start + n - 1, join, Join) in all;
    forall k | 0 < k < |p|
      ensures Linked(all, p[k - 1], p[k])
    {
      if 1 < k <= n {
        assert Steps(Line(start, n), start + k - 2);
        assert p[k - 1] == start + k - 2 && p[k] == start + k - 1;
      } else if k > n + 1 {
        assert p[k - 1] == join + k - n - 2 && p[k] == join + k - n - 1;
        assert Steps(all, join + k - n - 2);
      }
    }
    assert Path(all, p) && p[0] == p[|p| - 1];
  }

  // ---- the whole trace ----

  function Cat(chains: seq<seq<Item>>): seq<Item> {
    if chains == [] then [] else Cat(chains[..|chains| - 1]) + chains[|chains| - 1]
  }

  /** A subagent is kept when a request of the main chain comes before it in the file. */
  predicate Kept(main: seq<Item>, s: Sub) {
    exists p :: 0 <= p < |main| && main[p].oi < s.outer
  }

  ghost function KeptItems(main: seq<Item>, subs: seq<Sub>): seq<Item> {
    if subs == [] then []
    else
      var n := |subs| - 1;
      KeptItems(main, subs[..n]) + (if Kept(main, subs[n]) then Cat(subs[n].chains) else [])
  }

  function MaxEnd(chain: seq<Item>): (m: real)
    requires chain != []
    ensures (forall x :: x in chain ==> x.end <= m) && exists x :: x in chain && x.end == m
  {
    if |chain| == 1 then assert chain[0] in chain; chain[0].end
    else
      var m := MaxEnd(chain[..|chain| - 1]);
      assert chain == chain[..|chain| - 1] + [chain[|chain| - 1]];
      if chain[|chain| - 1].end > m then chain[|chain| - 1].end else m
  }

  /** Chains between these positions of the main chain close no cycle: they are not waited for, or only later. */
  predicate HookOk(pre: int, join: int) {
    join < 0 || pre < join
  }

  ghost predicate SubHook(main: seq<Item>, s: Sub) {
    var pre := LastBefore(main, s.outer, false);
    pre < 0 || AllEmpty(s.chains) || HookOk(pre, FirstJoin(main, s.outer, s.end))
  }

  ghost predicate FlatHook(main: seq<Item>, flat: seq<Item>) {
    flat == [] || HookOk(LastBefore(main, flat[0].oi, true), FirstJoin(main, flat[0].oi, MaxEnd(flat)))
  }

  ghost predicate HooksOk(main: seq<Item>, subs: seq<Sub>, flats: seq<seq<Item>>) {
    (forall s :: s in subs ==> SubHook(main, s)) && forall f :: f in flats ==> FlatHook(main, f)
  }

  /** A flat chain may not come before the main chain in the file and yet have ended by its start. */
  ghost predicate FlatOk(main: seq<Item>, flat: seq<Item>) {
    main == [] || flat == [] || !CanJoin(main[0], flat[0].oi, MaxEnd(flat))
  }

  ghost predicate FlatsOk(main: seq<Item>, flats: seq<seq<Item>>) {
    forall f :: f in flats ==> FlatOk(main, f)
  }

  /** With the main chain in file order, only such a flat chain can close a cycle. */
  lemma OrderedHooks(main: seq<Item>, subs: seq<Sub>, flats: seq<seq<Item>>)
    requires FileOrder(main) && (flats != [] ==> main != [])
    ensures HooksOk(main, subs, flats) <==> FlatsOk(main, flats)
  {
    forall s
      ensures SubHook(main, s)
    {
      LastIs(main, s.outer, false);
    }
    forall f: seq<Item> | f in flats
      ensures FlatHook(main, f) <==> FlatOk(main, f)
    {
      if f != [] { LastIs(main, f[0].oi, true); }
    }
  }

  lemma {:induction false} LastIs(main: seq<Item>, before: int, defaultZero: bool)
    ensures var r := LastBefore(main, before, defaultZero); (
      (forall p :: 0 <= p < |main| && main[p].oi < before ==> p <= r) &&
      (r == (if defaultZero then 0 else -1) || (0 <= r < |main| && main[r].oi < before)))
    decreases |main|
  {
    if main != [] { LastIs(main[..|main| - 1], before, defaultZero); }
  }

  ghost predicate MainFirst(b: Builder)
    reads b
  {
    && |b.main| <= |b.requests| && |b.places| == |b.requests| && InLine(b.edges, |b.main|)
    && forall p :: 0 <= p < |b.main| ==> b.places[p] == Place(p, 0)
  }

  /** One chain emitted and hung up; ok as long as no cycle has been closed. */
  method Hang(b: Builder, agent: nat, marker: int, chain: seq<Item>, preceding: nat, join: int, ghost ok: bool)
    requires b.Valid() && MainFirst(b) && preceding < |b.main| && -1 <= join < |b.main|
    requires if ok then Upwards(b.edges, b.places) else Cyclic(b.edges)
    modifies b
    ensures b.Valid() && MainFirst(b) && b.items == old(b.items) + chain &&
      b.marks == old(b.marks) + Marks(agent, marker, chain)
    ensures b.edges == old(b.edges) + Line(|old(b.items)|, |chain|) + Links(|old(b.items)|, |chain|, preceding, join)
    ensures if ok && (chain == [] || HookOk(preceding, join)) then Upwards(b.edges, b.places) else Cyclic(b.edges)
  {
    hide Upwards, Cyclic, InLine, Delayed;
    ghost var edges0, places0 := b.edges, b.places;
    var start := |b.requests|;
    b.AddChain(agent, chain, marker, preceding, 1);
    ghost var more := b.places[|places0|..];
    assert b.places == places0 + more;
    ghost var edges1 := b.edges;
    b.Attach(start, |chain|, preceding, join);
    CyclicGrows(edges0, Line(start, |chain|));
    CyclicGrows(edges1, Links(start, |chain|, preceding, join));
    LineStays(edges0, Line(start, |chain|), |b.main|);
    LineStays(edges1, Links(start, |chain|, preceding, join), |b.main|);
    if ok {
      if chain == [] || HookOk(preceding, join) {
        UpLine(edges0, places0, more, preceding, 1);
        UpLinks(edges1, b.places, start, |chain|, preceding, join);
      } else {
        CycleMade(edges0, start, |chain|, preceding, join, |b.main|);
      }
    }
  }

  /** The edges of chains that hang between the same two requests of the main chain, the first request being `start`. */
  ghost function ChainsEdges(chains: seq<seq<Item>>, start: nat, pre: nat, join: int): seq<Edge> {
    if chains == [] then []
    else
      var n := |chains| - 1;
      var at := start + |Cat(chains[..n])|;
      ChainsEdges(chains[..n], start, pre, join) + Line(at, |chains[n]|) + Links(at, |chains[n]|, pre, join)
  }

  ghost function SubEdges(main: seq<Item>, s: Sub, start: nat): seq<Edge> {
    var pre := LastBefore(main, s.outer, false);
    if pre < 0 then [] else ChainsEdges(s.chains, start, pre, FirstJoin(main, s.outer, s.end))
  }

  ghost function KeptEdges(main: seq<Item>, subs: seq<Sub>, start: nat): seq<Edge> {
    if subs == [] then []
    else
      var n := |subs| - 1;
      KeptEdges(main, subs[..n], start) + SubEdges(main, subs[n], start + |KeptItems(main, subs[..n])|)
  }

  ghost function FlatEdges(main: seq<Item>, flats: seq<seq<Item>>, start: nat): seq<Edge> {
    if flats == [] then []
    else
      var n := |flats| - 1;
      FlatEdges(main, flats[..n], start) + FlatLinks(main, flats[n], start + |Cat(flats[..n])|)
  }

  ghost function FlatLinks(main: seq<Item>, flat: seq<Item>, start: nat): seq<Edge> {
    if flat == [] then []
    else
      Line(start, |flat|) +
      Links(start, |flat|, LastBefore(main, flat[0].oi, true), FirstJoin(main, flat[0].oi, MaxEnd(flat)))
  }

  lemma ChainsMore(chains: seq<seq<Item>>, i: nat, start: nat, pre: nat, join: int)
    requires i < |chains|
    ensures ChainsEdges(chains[..i + 1], start, pre, join) ==
            ChainsEdges(chains[..i], start, pre, join)
              + Line(start + |Cat(chains[..i])|, |chains[i]|)
                + Links(start + |Cat(chains[..i])|, |chains[i]|, pre, join)
    ensures Cat(chains[..i + 1]) == Cat(chains[..i]) + chains[i]
  {
    hide Line, Links;
    var f := chains[..i + 1];
    assert f[..i] == chains[..i] && f[i] == chains[i] && f != [];
  }

  lemma NoChains(start: nat, pre: nat, join: int)
    ensures ChainsEdges([], start, pre, join) == [] && Cat([]) == []
  {
  }

  lemma NoMarks(agent: nat, marker: int)
    ensures ChainsMarks(agent, marker, []) == []
  {
  }

  lemma MarksMore(agent: nat, marker: int, chains: seq<seq<Item>>, i: nat)
    requires i < |chains|
    ensures ChainsMarks(agent, marker, chains[..i + 1]) ==
      ChainsMarks(agent, marker, chains[..i]) + Marks(agent + i, marker, chains[i])
  {
    hide Marks;
    var f := chains[..i + 1];
    assert f[..i] == chains[..i] && f[i] == chains[i] && f != [];
  }

  /** A kept subagent's chains, all between the same two requests of the main chain. */
  method AddSub(b: Builder, s: Sub, agent0: nat, ghost ok: bool) returns (agent: nat)
    requires b.Valid() && MainFirst(b) && (if ok then Upwards(b.edges, b.places) else Cyclic(b.edges))
    modifies b
    ensures b.Valid() && MainFirst(b)
    ensures if ok && SubHook(b.main, s) then Upwards(b.edges, b.places) else Cyclic(b.edges)
    ensures b.items == old(b.items) + (if Kept(b.main, s) then Cat(s.chains) else [])
    ensures b.marks == old(b.marks) + SubMarks(agent0, b.main, s) &&
      agent == agent0 + (if Kept(b.main, s) then |s.chains| else 0)
    ensures b.edges == old(b.edges) + SubEdges(b.main, s, |old(b.items)|)
  {
    hide Upwards, Cyclic, Emitted, Delayed, MainFirst, Cat, ChainsEdges, ChainsMarks, Marks, Line, Links, LastBefore,
         FirstJoin, HookOk;
    agent := agent0;
    var preceding := PrecedingPos(b.main, s.outer, false);
    if preceding < 0 { return; }
    var join := JoinPos(b.main, s.outer, s.end);
    ghost var start := |b.items|;
    NoChains(start, preceding, join);
    NoMarks(agent0, s.outer);
    for i := 0 to |s.chains|
      invariant b.Valid() && MainFirst(b) && b.items == old(b.items) + Cat(s.chains[..i])
      invariant b.marks == old(b.marks) + ChainsMarks(agent0, s.outer, s.chains[..i]) && agent == agent0 + i
      invariant if ok && (AllEmpty(s.chains[..i]) || HookOk(preceding, join)) then Upwards(b.edges, b.places)
        else Cyclic(b.edges)
      invariant b.edges == old(b.edges) + ChainsEdges(s.chains[..i], start, preceding, join)
    {
      ChainsMore(s.chains, i, start, preceding, join);
      MarksMore(agent0, s.outer, s.chains, i);
      Hang(b, agent, s.outer, s.chains[i], preceding, join, ok && (AllEmpty(s.chains[..i]) || HookOk(preceding, join)));
      EmptyMore(s.chains, i);
      agent := agent + 1;
    }
    assert s.chains[..|s.chains|] == s.chains;
  }

  ghost predicate AllEmpty(chains: seq<seq<Item>>) {
    forall c :: c in chains ==> c == []
  }

  lemma EmptyMore(chains: seq<seq<Item>>, i: nat)
    requires i < |chains|
    ensures AllEmpty(chains[..i + 1]) <==> AllEmpty(chains[..i]) && chains[i] == []
  {
    assert chains[..i + 1] == chains[..i] + [chains[i]];
    assert chains[i] in chains[..i + 1];
    assert forall c :: c in chains[..i] ==> c in chains[..i + 1];
  }

  method AddFlat(b: Builder, flat: seq<Item>, agent: nat, ghost ok: bool)
    requires b.Valid() && MainFirst(b) && b.main != [] && flat != []
    requires if ok then Upwards(b.edges, b.places) else Cyclic(b.edges)
    modifies b
    ensures b.Valid() && MainFirst(b) && b.items == old(b.items) + flat &&
      b.marks == old(b.marks) + Marks(agent, -1, flat)
    ensures b.edges == old(b.edges) + FlatLinks(b.main, flat, |old(b.items)|)
    ensures if ok && FlatHook(b.main, flat) then Upwards(b.edges, b.places) else Cyclic(b.edges)
  {
    hide Upwards, Cyclic, Emitted, Delayed, MainFirst, MaxEnd, Line, Links, LastBefore, FirstJoin, HookOk;
    var preceding := PrecedingPos(b.main, flat[0].oi, true);
    var join := JoinPos(b.main, flat[0].oi, MaxEnd(flat));
    Hang(b, agent, -1, flat, preceding, join, ok);
  }

  lemma UpNotCyclic(edges: seq<Edge>, places: seq<Place>)
    ensures Upwards(edges, places) ==> !Cyclic(edges)
  {
    if Upwards(edges, places) { NoCycle(edges, places); }
  }

  /** `build_trace` given its chains: every request exactly once; and a graph without cycles exactly when no chain is
      joined where it was spawned or before. */
  method BuildTrace(main: seq<Item>, subs: seq<Sub>, flats: seq<seq<Item>>)
    returns (requests: seq<Request>, hashIds: seq<nat>, edges: seq<Edge>, delays: seq<real>, ghost places: seq<Place>)
    requires (flats != [] ==> main != []) && forall f :: f in flats ==> f != []
    ensures Emitted(requests, hashIds, main + KeptItems(main, subs) + Cat(flats), TraceMarks(main, subs, flats))
    ensures Delayed(delays, edges, main + KeptItems(main, subs) + Cat(flats))
    ensures forall e :: e in edges ==> e.from < |requests| && e.to < |requests|
    ensures edges ==
      Line(0, |main|) + KeptEdges(main, subs, |main|) + FlatEdges(main, flats, |main + KeptItems(main, subs)|)
    ensures !Cyclic(edges) <==> HooksOk(main, subs, flats)
    ensures |places| == |requests| && (HooksOk(main, subs, flats) ==> Upwards(edges, places))
  {
    hide Upwards, Cyclic, Emitted, Delayed, MainFirst, SubHook, FlatHook, Marks, KeptMarks, ChainsMarks, KeptItems,
         Cat, Line, KeptEdges, FlatEdges, Agents;
    var b := new Builder(main);
    b.AddChain(0, main, -1, 0, 0);
    assert b.items == main && b.edges == Line(0, |main|) && b.marks == Marks(0, -1, main);
    b.Lengths();
    MainUp(b, main);
    var agent := AddSubs(b, subs, 1);
    AddFlats(b, flats, agent, forall s :: s in subs ==> SubHook(main, s));
    requests, hashIds, edges, delays, places := b.requests, b.hashIds, b.edges, b.delays, b.places;
    b.Lengths();
    UpNotCyclic(edges, places);
  }

  method AddSubs(b: Builder, subs: seq<Sub>, agent0: nat) returns (agent: nat)
    requires b.Valid() && MainFirst(b) && Upwards(b.edges, b.places)
    modifies b
    ensures b.Valid() && MainFirst(b) && b.items == old(b.items) + KeptItems(b.main, subs)
    ensures b.marks == old(b.marks) + KeptMarks(agent0, b.main, subs) && agent == agent0 + Agents(b.main, subs)
    ensures if forall s :: s in subs ==> SubHook(b.main, s) then Upwards(b.edges, b.places) else Cyclic(b.edges)
    ensures b.edges == old(b.edges) + KeptEdges(b.main, subs, |old(b.items)|)
  {
    hide Upwards, Cyclic, Emitted, Delayed, MainFirst, Kept, SubEdges, SubMarks, Cat, SubHook, KeptItems, KeptMarks,
         KeptEdges, Agents;
    agent := agent0;
    ghost var ok := true;
    NoneKept(b.main, agent0, |b.items|);
    for i := 0 to |subs|
      invariant b.Valid() && MainFirst(b) && (if ok then Upwards(b.edges, b.places) else Cyclic(b.edges))
      invariant ok <==> forall j :: 0 <= j < i ==> SubHook(b.main, subs[j])
      invariant b.items == old(b.items) + KeptItems(b.main, subs[..i])
      invariant b.marks == old(b.marks) + KeptMarks(agent0, b.main, subs[..i]) &&
        agent == agent0 + Agents(b.main, subs[..i])
      invariant b.edges == old(b.edges) + KeptEdges(b.main, subs[..i], |old(b.items)|)
    {
      KeptMore(b.main, subs, i, agent0, |old(b.items)|);
      agent := AddSub(b, subs[i], agent, ok);
      ok := ok && SubHook(b.main, subs[i]);
    }
    assert subs[..|subs|] == subs;
    assert forall j :: 0 <= j < |subs| ==> subs[j] in subs;
  }

  lemma NoneKept(main: seq<Item>, agent: nat, start: nat)
    ensures KeptItems(main, []) == [] && KeptMarks(agent, main, []) == [] && KeptEdges(main, [], start) == [] &&
      Agents(main, []) == 0
  {
  }

  lemma KeptMore(main: seq<Item>, subs: seq<Sub>, i: nat, agent: nat, start: nat)
    requires i < |subs|
    ensures KeptItems(main, subs[..i + 1]) ==
      KeptItems(main, subs[..i]) + (if Kept(main, subs[i]) then Cat(subs[i].chains) else [])
    ensures KeptMarks(agent, main, subs[..i + 1]) ==
            KeptMarks(agent, main, subs[..i]) + SubMarks(agent + Agents(main, subs[..i]), main, subs[i])
    ensures KeptEdges(main, subs[..i + 1], start) ==
            KeptEdges(main, subs[..i], start) + SubEdges(main, subs[i], start + |KeptItems(main, subs[..i])|)
    ensures Agents(main, subs[..i + 1]) ==
      Agents(main, subs[..i]) + (if Kept(main, subs[i]) then |subs[i].chains| else 0)
  {
    hide SubMarks, SubEdges, Cat, Kept;
    var f := subs[..i + 1];
    assert f[..i] == subs[..i] && f[i] == subs[i] && f != [];
  }

  method AddFlats(b: Builder, flats: seq<seq<Item>>, agent: nat, ghost ok0: bool)
    requires b.Valid() && MainFirst(b) && (if ok0 then Upwards(b.edges, b.places) else Cyclic(b.edges))
    requires (flats != [] ==> b.main != []) && forall f :: f in flats ==> f != []
    modifies b
    ensures b.Valid() && b.items == old(b.items) + Cat(flats) && b.marks == old(b.marks) + ChainsMarks(agent, -1, flats)
    ensures if ok0 &&
      forall f :: f in flats ==> FlatHook(b.main, f) then Upwards(b.edges, b.places) else Cyclic(b.edges)
    ensures b.edges == old(b.edges) + FlatEdges(b.main, flats, |old(b.items)|)
  {
    hide Upwards, Cyclic, Emitted, Delayed, MainFirst, FlatLinks, Cat, FlatEdges, FlatHook, ChainsMarks, Marks;
    NoFlats(b.main, |b.items|);
    NoMarks(agent, -1);
    ghost var ok := ok0;
    for i := 0 to |flats|
      invariant b.Valid() && MainFirst(b) && b.items == old(b.items) + Cat(flats[..i])
      invariant b.edges == old(b.edges) + FlatEdges(b.main, flats[..i], |old(b.items)|)
      invariant b.marks == old(b.marks) + ChainsMarks(agent, -1, flats[..i])
      invariant ok <==> ok0 && forall j :: 0 <= j < i ==> FlatHook(b.main, flats[j])
      invariant if ok then Upwards(b.edges, b.places) else Cyclic(b.edges)
    {
      FlatsMore(b.main, flats, i, |old(b.items)|);
      MarksMore(agent, -1, flats, i);
      assert flats[i] in flats;
      AddFlat(b, flats[i], agent + i, ok);
      ok := ok && FlatHook(b.main, flats[i]);
    }
    assert flats[..|flats|] == flats;
    assert forall j :: 0 <= j < |flats| ==> flats[j] in flats;
  }

  lemma NoFlats(main: seq<Item>, start: nat)
    ensures FlatEdges(main, [], start) == [] && Cat([]) == []
  {
  }

  lemma FlatsMore(main: seq<Item>, flats: seq<seq<Item>>, i: nat, start: nat)
    requires i < |flats|
    ensures FlatEdges(main, flats[..i + 1], start) ==
      FlatEdges(main, flats[..i], start) + FlatLinks(main, flats[i], start + |Cat(flats[..i])|)
    ensures Cat(flats[..i + 1]) == Cat(flats[..i]) + flats[i]
  {
    hide FlatLinks;
    var f := flats[..i + 1];
    assert f[..i] == flats[..i] && f[i] == flats[i] && f != [];
  }

  lemma MainUp(b: Builder, main: seq<Item>)
    requires |b.places| == |main| == |b.requests| && b.main == main && b.edges == Line(0, |main|)
    requires forall k :: 0 <= k < |main| ==> b.places[k] == ChainPlace(0, 0, k)
    ensures Upwards(b.edges, b.places) && MainFirst(b)
  {
    UpLine([], [], b.places, 0, 0);
    LineIs(0, |main|);
    assert [] + Line(0, |main|) == Line(0, |main|) && [] + b.places == b.places;
  }
}
