/** Detection of agent chains in a flat list of requests: prefix extension first, then splicing across seams. */
module AgentChains {
  import opened Commons

  const MAX_GAP := 3600.0
  const MIN_OVERLAP := 0.5

  /** A recorded request; `api` is its service time when one was recorded, `out` the tokens it generated. */
  datatype Raw = Raw(t: real, finite: bool, api: real, hashes: seq<nat>, model: nat, out: int, inTokens: int,
    streaming: bool)

  function EndOf(r: Raw): real {
    r.t + (if r.finite && r.api > 0.0 then r.api else 0.0)
  }

  function Lcp(a: seq<nat>, b: seq<nat>): (n: nat)
    ensures n <= |a| && n <= |b| && a[..n] == b[..n]
    ensures n < |a| && n < |b| ==> a[n] != b[n]
    decreases |a|
  {
    if a == [] || b == [] || a[0] != b[0] then 0
    else
      assert a == [a[0]] + a[1..] && b == [b[0]] + b[1..];
      1 + Lcp(a[1..], b[1..])
  }

  method CommonPrefix(a: seq<nat>, b: seq<nat>) returns (i: nat)
    ensures i == Lcp(a, b)
  {
    var n := if |a| < |b| then |a| else |b|;
    i := 0;
    while i < n && a[i] == b[i]
      invariant i <= n && Lcp(a, b) == i + Lcp(a[i..], b[i..])
    {
      assert a[i..][1..] == a[i + 1..] && b[i..][1..] == b[i + 1..];
      i := i + 1;
    }
  }

  datatype Fork = Fork(parent: int, outer: int, depth: nat, time: real)

  datatype Chain = Chain(requests: seq<nat>, hasFork: bool, fork: Fork, splicedInto: int, tailOuter: int)

  const NO_FORK := Fork(-1, -1, 0, 0.0)

  type Reqs = map<nat, Raw>

  // ---- order in time ----

  /** Request a starts before request b, or at the same time and comes before it in the file. */
  predicate Sooner(raw: Reqs, a: nat, b: nat) {
    a in raw && b in raw && (raw[a].t < raw[b].t || (raw[a].t == raw[b].t && a < b))
  }

  /** The members of s stand in the order of their first requests. */
  ghost predicate Timely(raw: Reqs, heads: map<nat, nat>, s: seq<nat>) {
    forall j, k :: 0 <= j < k < |s| ==> HeadSooner(raw, heads, s[j], s[k])
  }

  ghost predicate HeadSooner(raw: Reqs, heads: map<nat, nat>, a: nat, b: nat) {
    a in heads && b in heads && Sooner(raw, heads[a], heads[b])
  }

  method InsertByTime(raw: Reqs, heads: map<nat, nat>, s: seq<nat>, x: nat) returns (out: seq<nat>)
    requires Timely(raw, heads, s) && x in heads && heads[x] in raw
    requires forall y :: y in s ==> y in heads && heads[y] in raw && heads[y] != heads[x]
    ensures multiset(out) == multiset(s) + multiset{x} && Timely(raw, heads, out)
  {
    assert forall k :: 0 <= k < |s| ==> s[k] in s;
    var i := 0;
    while i < |s| && Sooner(raw, heads[s[i]], heads[x])
      invariant i <= |s| && forall k :: 0 <= k < i ==> Sooner(raw, heads[s[k]], heads[x])
    {
      i := i + 1;
    }
    InsertTimely(raw, heads, s, i, x);
    assert s == s[..i] + s[i..];
    out := s[..i] + [x] + s[i..];
  }

  method SortByTime(raw: Reqs, heads: map<nat, nat>, s: seq<nat>) returns (out: seq<nat>)
    requires forall x :: x in s ==> x in heads && heads[x] in raw
    requires forall j, k :: 0 <= j < k < |s| ==> heads[s[j]] != heads[s[k]]
    ensures multiset(out) == multiset(s) && Timely(raw, heads, out)
  {
    hide Timely;
    out := [];
    assert Timely(raw, heads, out) by { NoneTimely(raw, heads); }
    for n := 0 to |s|
      invariant multiset(out) == multiset(s[..n]) && Timely(raw, heads, out)
    {
      SameMembers(out, s[..n]);
      forall y | y in out
        ensures y in heads && heads[y] in raw && heads[y] != heads[s[n]]
      {
        OtherHead(heads, s, n, y);
      }
      assert s[..n + 1] == s[..n] + [s[n]];
      out := InsertByTime(raw, heads, out, s[n]);
    }
    assert s[..|s|] == s;
  }

  lemma NoneTimely(raw: Reqs, heads: map<nat, nat>)
    ensures Timely(raw, heads, [])
  {
  }

  lemma SameMembers(s: seq<nat>, u: seq<nat>)
    requires multiset(s) == multiset(u)
    ensures forall x :: x in s <==> x in u
  {
    assert forall x :: x in s <==> x in multiset(s);
    assert forall x :: x in u <==> x in multiset(u);
  }

  lemma OtherHead(heads: map<nat, nat>, s: seq<nat>, n: nat, x: nat)
    requires n < |s| && x in s[..n] && forall y :: y in s ==> y in heads
    requires forall j, k :: 0 <= j < k < |s| ==> heads[s[j]] != heads[s[k]]
    ensures x in s && heads[x] != heads[s[n]]
  {
    var j :| 0 <= j < n && s[j] == x;
  }

  lemma InsertTimely(raw: Reqs, heads: map<nat, nat>, s: seq<nat>, i: nat, x: nat)
    requires Timely(raw, heads, s) && i <= |s| && x in heads && heads[x] in raw
    requires forall y :: y in s ==> y in heads && heads[y] in raw
    requires forall k :: 0 <= k < i ==> Sooner(raw, heads[s[k]], heads[x])
    requires i < |s| ==> !Sooner(raw, heads[s[i]], heads[x]) && heads[s[i]] != heads[x]
    ensures Timely(raw, heads, s[..i] + [x] + s[i..])
  {
    var u := s[..i] + [x] + s[i..];
    assert forall k :: 0 <= k < |u| ==> u[k] == if k < i then s[k] else if k == i then x else s[k - 1];
    assert forall k :: 0 <= k < |s| ==> s[k] in s;
    forall j, k | 0 <= j < k < |u|
      ensures HeadSooner(raw, heads, u[j], u[k])
    {
      if k < i {
        assert HeadSooner(raw, heads, s[j], s[k]);
      } else if j > i {
        assert HeadSooner(raw, heads, s[j - 1], s[k - 1]);
      } else if j == i && k > i + 1 {
        assert HeadSooner(raw, heads, s[i], s[k - 1]);
      } else if j < i < k {
        assert HeadSooner(raw, heads, s[j], s[k - 1]);
      }
    }
  }

  // ---- what a chain is ----

  /** The requests of s that carry block ids, in order. */
  function Bearing(raw: Reqs, s: seq<nat>): (b: seq<nat>)
    ensures forall x :: x in b <==> x in s && x in raw && raw[x].hashes != []
  {
    if s == [] then [] else
      Bearing(raw, s[..|s| - 1]) + (if s[|s| - 1] in raw && raw[s[|s| - 1]].hashes != [] then [s[|s| - 1]] else [])
  }

  lemma {:induction false} BearingConcat(raw: Reqs, s: seq<nat>, u: seq<nat>)
    ensures Bearing(raw, s + u) == Bearing(raw, s) + Bearing(raw, u)
    decreases |u|
  {
    hide Bearing;
    if u == [] {
      assert s + u == s;
      BearingNone(raw);
    } else {
      var n := |u| - 1;
      var a, b, x := s + u[..n], u[..n], u[n];
      BearingConcat(raw, s, b);
      BearingSnoc(raw, a, x);
      BearingSnoc(raw, b, x);
      assert a + [x] == s + u && b + [x] == u;
    }
  }

  lemma BearingNone(raw: Reqs)
    ensures Bearing(raw, []) == []
  {
  }

  lemma BearingSnoc(raw: Reqs, s: seq<nat>, x: nat)
    ensures Bearing(raw, s + [x]) == Bearing(raw, s) + (if x in raw && raw[x].hashes != [] then [x] else [])
  {
    assert (s + [x])[..|s|] == s;
  }

  function LastHash(raw: Reqs, s: seq<nat>): int {
    var b := Bearing(raw, s);
    if b == [] then -1 else b[|b| - 1]
  }

  /** One agent can have issued b right after a: same model, same opening block, b not begun before a ended. */
  predicate Follows(raw: Reqs, a: nat, b: nat) {
    a in raw && b in raw && raw[a].model == raw[b].model && SameOpening(raw, a, b) && EndOf(raw[a]) <= raw[b].t + EPS
  }

  predicate SameOpening(raw: Reqs, a: nat, b: nat) {
    a in raw && b in raw && raw[a].hashes != [] && raw[b].hashes != [] && raw[a].hashes[0] == raw[b].hashes[0]
  }

  ghost predicate Linked(raw: Reqs, s: seq<nat>) {
    var b := Bearing(raw, s);
    forall k {:trigger b[k]} :: 0 < k < |b| ==> Follows(raw, b[k - 1], b[k])
  }

  lemma LinkedConcat(raw: Reqs, s: seq<nat>, u: seq<nat>)
    requires Linked(raw, s) && Linked(raw, u)
    requires Bearing(raw, s) != [] && Bearing(raw, u) != [] ==> Follows(raw, LastHash(raw, s), Bearing(raw, u)[0])
    ensures Linked(raw, s + u)
    ensures LastHash(raw, s + u) == if Bearing(raw, u) == [] then LastHash(raw, s) else LastHash(raw, u)
  {
    BearingConcat(raw, s, u);
    var a, b, c := Bearing(raw, s), Bearing(raw, u), Bearing(raw, s + u);
    forall k | 0 < k < |c|
      ensures Follows(raw, c[k - 1], c[k])
    {
      if k < |a| {
        assert Follows(raw, a[k - 1], a[k]);
      } else if k > |a| {
        assert Follows(raw, b[k - |a| - 1], b[k - |a|]);
      }
    }
  }

  // ---- the state of the detector ----

  predicate Live(chains: seq<Chain>, i: int) {
    0 <= i < |chains| && chains[i].splicedInto < 0
  }

  /** Every request seen is in exactly one live chain, once; chainOf names that chain. */
  ghost predicate Partition(raw: Reqs, chains: seq<Chain>, chainOf: map<nat, nat>) {
    && (forall i, k {:trigger chains[i].requests[k]} :: 0 <= i < |chains| && 0 <= k < |chains[i].requests| ==>
          chains[i].requests[k] in raw)
    && (forall i, k {:trigger chains[i].requests[k]} :: Live(chains, i) && 0 <= k < |chains[i].requests| ==>
          chains[i].requests[k] in chainOf && chainOf[chains[i].requests[k]] == i)
    && (forall i, j, k {:trigger chains[i].requests[j], chains[i].requests[k]} ::
          0 <= i < |chains| && 0 <= j < k < |chains[i].requests| ==> chains[i].requests[j] != chains[i].requests[k])
    && (forall x {:trigger chainOf[x]} :: x in chainOf ==> Live(chains, chainOf[x]) && x in chains[chainOf[x]].requests)
  }

  /** Chains begin with a request of their own and stay linked; every fork looks at an earlier chain. */
  ghost predicate ChainOk(raw: Reqs, chains: seq<Chain>, i: int)
    requires 0 <= i < |chains|
  {
    var c := chains[i];
    && c.requests != [] && Linked(raw, c.requests) && -1 <= c.splicedInto < i
    && (c.hasFork <==> i > 0) && -1 <= c.fork.parent < i
    && (i > 0 ==> c.requests[0] in raw && raw[c.requests[0]].hashes != [])
    && (c.fork.outer >= 0 ==>
      i > 0 && c.fork.outer in raw && c.fork.depth == Lcp(raw[c.fork.outer].hashes, raw[c.requests[0]].hashes))
    && (c.fork.outer < 0 ==> c.fork.depth == 0)
  }

  ghost predicate ChainsOk(raw: Reqs, chains: seq<Chain>) {
    forall i {:trigger chains[i]} :: 0 <= i < |chains| ==> ChainOk(raw, chains, i)
  }

  /** A chain registered under fo begins like fo, and lies after the chain of fo; it is outdated once fo is
      overtaken. */
  ghost predicate Registered(raw: Reqs, chains: seq<Chain>, chainOf: map<nat, nat>, fo: nat, i: nat) {
    && fo in chainOf && chainOf[fo] < i < |chains| && chains[i].requests != []
    && SameOpening(raw, fo, chains[i].requests[0])
    && (Live(chains, i) ==> chains[i].fork.outer == fo || Overtaken(raw, chains, chainOf, fo))
  }

  ghost predicate Overtaken(raw: Reqs, chains: seq<Chain>, chainOf: map<nat, nat>, fo: nat) {
    fo in chainOf && chainOf[fo] < |chains| && LastHash(raw, chains[chainOf[fo]].requests) != fo
  }

  ghost predicate Good(raw: Reqs, chains: seq<Chain>, chainOf: map<nat, nat>, forks: map<nat, seq<nat>>) {
    && Partition(raw, chains, chainOf)
    && ChainsOk(raw, chains)
    && (forall fo :: fo in forks ==> forks[fo] != [])
    && (forall fo, i {:trigger i in forks[fo]} :: fo in forks && i in forks[fo] ==>
      Registered(raw, chains, chainOf, fo, i))
  }

  /** Every live chain that shares blocks with the request it forked off is in the list of those waiting there. */
  ghost predicate Waits(chains: seq<Chain>, forks: map<nat, seq<nat>>) {
    forall i {:trigger chains[i]} :: Live(chains, i) && chains[i].fork.depth > 0 ==>
      chains[i].fork.outer >= 0 && chains[i].fork.outer in forks && i in forks[chains[i].fork.outer]
  }

  /** While chains only grow, each remembers its last hash-bearing request. */
  ghost predicate Tails(raw: Reqs, chains: seq<Chain>) {
    forall i {:trigger chains[i]} :: 0 <= i < |chains| ==>
      chains[i].tailOuter == LastHash(raw, chains[i].requests) && chains[i].splicedInto < 0
  }

  // ---- phase one: extension ----

  /** The chain's whole tail is a prefix of h, from the same model, and had ended by t. */
  predicate Extends(raw: Reqs, c: Chain, h: seq<nat>, t: real, model: nat) {
    && c.tailOuter >= 0 && c.tailOuter in raw && raw[c.tailOuter].hashes != []
    && raw[c.tailOuter].hashes <= h && raw[c.tailOuter].model == model && EndOf(raw[c.tailOuter]) <= t + EPS
  }

  function TailLen(raw: Reqs, c: Chain): nat {
    if c.tailOuter >= 0 && c.tailOuter in raw then |raw[c.tailOuter].hashes| else 0
  }

  /** The first among the chains with the longest tail that h extends. */
  ghost predicate BestExtension(raw: Reqs, chains: seq<Chain>, h: seq<nat>, t: real, model: nat, n: nat, best: int)
    requires n <= |chains|
  {
    if best < 0 then best == -1 && forall i :: 0 <= i < n ==> !Extends(raw, chains[i], h, t, model)
    else
      && best < n && Extends(raw, chains[best], h, t, model)
      && forall i :: 0 <= i < n && Extends(raw, chains[i], h, t, model) ==>
           TailLen(raw, chains[i]) < TailLen(raw, chains[best]) ||
             (TailLen(raw, chains[i]) == TailLen(raw, chains[best]) && best <= i)
  }

  method FindExtensionTarget(raw: Reqs, chains: seq<Chain>, h: seq<nat>, t: real, model: nat) returns (best: int)
    ensures BestExtension(raw, chains, h, t, model, |chains|, best)
  {
    best := -1;
    var bestLen := -1;
    for idx := 0 to |chains|
      invariant BestExtension(raw, chains, h, t, model, idx, best)
      invariant bestLen == if best < 0 then -1 else TailLen(raw, chains[best])
    {
      var c := chains[idx];
      var tl := TailLen(raw, c);
      if tl == 0 || tl > |h| || tl <= bestLen { continue; }
      var tail := raw[c.tailOuter];
      if tail.model != model || EndOf(tail) > t + EPS || tail.hashes[tl - 1] != h[tl - 1] { continue; }
      if tail.hashes == h[..tl] {
        best := idx;
        bestLen := tl;
      }
    }
  }

  function Depth(raw: Reqs, c: Chain, h: seq<nat>): nat {
    if c.tailOuter >= 0 && c.tailOuter in raw then Lcp(raw[c.tailOuter].hashes, h) else 0
  }

  /** The first among the chains that share most of h, longer tails preferred. */
  ghost predicate BestParent(raw: Reqs, chains: seq<Chain>, h: seq<nat>, n: nat, best: int)
    requires n <= |chains|
  {
    if best < 0 then best == -1 && forall i :: 0 <= i < n ==> Depth(raw, chains[i], h) == 0
    else
      && best < n && Depth(raw, chains[best], h) > 0
      && forall i :: 0 <= i < n ==>
           var d, e := Depth(raw, chains[i], h), Depth(raw, chains[best], h);
           d < e || (d == e && (TailLen(raw, chains[i]) < TailLen(raw, chains[best]) ||
                                (TailLen(raw, chains[i]) == TailLen(raw, chains[best]) && best <= i)))
  }

  method MaxLcpChain(raw: Reqs, chains: seq<Chain>, h: seq<nat>) returns (best: int, depth: nat)
    ensures BestParent(raw, chains, h, |chains|, best)
    ensures depth == if best < 0 then 0 else Depth(raw, chains[best], h)
  {
    best, depth := -1, 0;
    var bestLen := 0;
    for idx := 0 to |chains|
      invariant BestParent(raw, chains, h, idx, best)
      invariant depth == (if best < 0 then 0 else Depth(raw, chains[best], h))
      invariant bestLen == if best < 0 then 0 else TailLen(raw, chains[best])
    {
      var c := chains[idx];
      if TailLen(raw, c) == 0 { continue; }
      var d := CommonPrefix(raw[c.tailOuter].hashes, h);
      if d == 0 { continue; }
      if d > depth || (d == depth && TailLen(raw, c) > bestLen) {
        best, depth, bestLen := idx, d, TailLen(raw, c);
      }
    }
  }

  // ---- what one append does ----

  function WithRequest(raw: Reqs, c: Chain, x: nat): Chain {
    c.(requests := c.requests + [x], tailOuter := if x in raw && raw[x].hashes != [] then x else c.tailOuter)
  }

  lemma BearingOne(raw: Reqs, x: nat)
    ensures Bearing(raw, [x]) == if x in raw && raw[x].hashes != [] then [x] else []
  {
  }

  lemma Appended(raw: Reqs, c: Chain, x: nat)
    requires Linked(raw, c.requests) && x in raw
    requires raw[x].hashes == [] || LastHash(raw, c.requests) == -1 || Follows(raw, LastHash(raw, c.requests), x)
    ensures Linked(raw, c.requests + [x])
    ensures LastHash(raw, c.requests + [x]) == if raw[x].hashes != [] then x else LastHash(raw, c.requests)
  {
  }

  lemma AppendPartition(raw: Reqs, chains: seq<Chain>, chainOf: map<nat, nat>, i: nat, x: nat)
    requires Partition(raw, chains, chainOf) && Live(chains, i) && x in raw && x !in chainOf
    requires forall j :: 0 <= j < |chains| ==> chains[j].splicedInto < 0
    ensures Partition(raw, chains[i := WithRequest(raw, chains[i], x)], chainOf[x := i])
  {
  }

  lemma AppendGood(raw: Reqs, chains: seq<Chain>, chainOf: map<nat, nat>, forks: map<nat, seq<nat>>, i: nat, x: nat)
    requires Good(raw, chains, chainOf, forks) && Tails(raw, chains) && i < |chains| && x in raw && x !in chainOf
    requires raw[x].hashes == [] || LastHash(raw, chains[i].requests) == -1 ||
      Follows(raw, LastHash(raw, chains[i].requests), x)
    ensures var d := chains[i := WithRequest(raw, chains[i], x)]; Good(raw, d, chainOf[x := i], forks) && Tails(raw, d)
  {
    hide Linked, Bearing, Follows, SameOpening, Partition, Lcp;
    var d, e := chains[i := WithRequest(raw, chains[i], x)], chainOf[x := i];
    AppendPartition(raw, chains, chainOf, i, x);
    assert ChainOk(raw, chains, i);
    Appended(raw, chains[i], x);
    forall j | 0 <= j < |d|
      ensures ChainOk(raw, d, j)
    {
      assert ChainOk(raw, chains, j);
    }
    hide LastHash, ChainOk;
    forall fo, j | fo in forks && j in forks[fo]
      ensures Registered(raw, d, e, fo, j)
    {
      assert Registered(raw, chains, chainOf, fo, j);
      assert d[j].requests[0] == chains[j].requests[0];
    }
  }

  /** A fork at the tail of its parent, as deep as h agrees with that tail. */
  ghost predicate ForkAt(raw: Reqs, chains: seq<Chain>, f: Fork, h: seq<nat>) {
    if f.outer < 0 then f.depth == 0
    else
      && 0 <= f.parent < |chains| && f.outer == chains[f.parent].tailOuter && f.outer in raw
      && f.depth == Lcp(raw[f.outer].hashes, h)
  }

  lemma NewPartition(raw: Reqs, chains: seq<Chain>, chainOf: map<nat, nat>, c: Chain, x: nat)
    requires Partition(raw, chains, chainOf) && x in raw && x !in chainOf && c.requests == [x] && c.splicedInto < 0
    requires forall j :: 0 <= j < |chains| ==> chains[j].splicedInto < 0
    ensures Partition(raw, chains + [c], chainOf[x := |chains|])
  {
  }

  lemma NewGood(raw: Reqs, chains: seq<Chain>, chainOf: map<nat, nat>, forks: map<nat, seq<nat>>, c: Chain, x: nat)
    requires Good(raw, chains, chainOf, forks) && Tails(raw, chains) && x in raw && x !in chainOf
    requires c.requests == [x] && c.splicedInto == -1 && (c.hasFork <==> chains != []) && -1 <= c.fork.parent < |chains|
    requires c.tailOuter == (if raw[x].hashes != [] then x else -1) && (chains != [] ==> raw[x].hashes != [])
    requires ForkAt(raw, chains, c.fork, raw[x].hashes)
    ensures var f := if c.fork.outer >= 0 && c.fork.depth > 0 then Register(forks, c.fork.outer, |chains|) else forks; (
      Good(raw, chains + [c], chainOf[x := |chains|], f) && Tails(raw, chains + [c]))
  {
    hide Linked, Bearing, Follows;
    var d, e := chains + [c], chainOf[x := |chains|];
    NewPartition(raw, chains, chainOf, c, x);
    SingleLinked(raw, x);
    forall j | 0 <= j < |d|
      ensures ChainOk(raw, d, j)
    {
      if j < |chains| { assert ChainOk(raw, chains, j); }
    }
    forall fo, j | fo in forks && j in forks[fo]
      ensures Registered(raw, d, e, fo, j)
    {
      assert Registered(raw, chains, chainOf, fo, j);
    }
    if c.fork.outer >= 0 && c.fork.depth > 0 {
      TailPlaced(raw, chains, chainOf, c.fork.parent);
      assert raw[c.fork.outer].hashes[..c.fork.depth][0] == raw[x].hashes[..c.fork.depth][0];
      assert Registered(raw, d, e, c.fork.outer, |chains|);
    }
  }

  function Register(forks: map<nat, seq<nat>>, fo: nat, i: nat): map<nat, seq<nat>> {
    forks[fo := (if fo in forks then forks[fo] else []) + [i]]
  }

  // ---- what phase one computes ----

  const FRESH := Chain([], false, NO_FORK, -1, -1)

  predicate NoTails(raw: Reqs, chains: seq<Chain>) {
    forall i :: 0 <= i < |chains| ==> TailLen(raw, chains[i]) == 0
  }

  /** The fork of a chain that x opens beside parent p. */
  function ForkOff(raw: Reqs, chains: seq<Chain>, x: nat, p: int): Fork
    requires x in raw && p < |chains|
  {
    if p < 0 then Fork(p, -1, 0, raw[x].t)
      else Fork(p, chains[p].tailOuter, Depth(raw, chains[p], raw[x].hashes), raw[x].t)
  }

  function Registering(forks: map<nat, seq<nat>>, f: Fork, i: nat): map<nat, seq<nat>> {
    if f.outer >= 0 && f.depth > 0 then Register(forks, f.outer, i) else forks
  }

  /** What classifying request x makes of chains c and forks f: it joins the first chain unless it bears blocks, else
      the chain it extends best, else it opens a chain that forks off its closest relative. */
  ghost predicate Classified(raw: Reqs, c: seq<Chain>, f: map<nat, seq<nat>>, x: nat, d: seq<Chain>,
                             g: map<nat, seq<nat>>)
    requires x in raw
  {
    if c == [] then d == [WithRequest(raw, FRESH, x)] && g == f
    else if raw[x].hashes == [] then d == c[0 := WithRequest(raw, c[0], x)] && g == f
    else exists best ::
      BestExtension(raw, c, raw[x].hashes, raw[x].t, raw[x].model, |c|, best) && Joined(raw, c, f, x, best, d, g)
  }

  ghost predicate Joined(raw: Reqs, c: seq<Chain>, f: map<nat, seq<nat>>, x: nat, best: int, d: seq<Chain>,
                         g: map<nat, seq<nat>>)
    requires x in raw && c != [] && best < |c|
  {
    if best >= 0 then d == c[best := WithRequest(raw, c[best], x)] && g == f
    else if NoTails(raw, c) then d == c[0 := WithRequest(raw, c[0], x)] && g == f
    else exists p :: BestParent(raw, c, raw[x].hashes, |c|, p) && Opened(raw, c, f, x, p, d, g)
  }

  ghost predicate Opened(raw: Reqs, c: seq<Chain>, f: map<nat, seq<nat>>, x: nat, p: int, d: seq<Chain>,
                         g: map<nat, seq<nat>>)
    requires x in raw && p < |c|
  {
    && d == c + [WithRequest(raw, FRESH.(hasFork := true, fork := ForkOff(raw, c, x, p)), x)]
    && g == Registering(f, ForkOff(raw, c, x, p), |c|)
  }

  lemma AppendWaits(raw: Reqs, chains: seq<Chain>, forks: map<nat, seq<nat>>, i: nat, x: nat)
    requires Waits(chains, forks) && i < |chains| && x in raw
    ensures Waits(chains[i := WithRequest(raw, chains[i], x)], forks)
  {
    var d := chains[i := WithRequest(raw, chains[i], x)];
    forall j | Live(d, j) && d[j].fork.depth > 0
      ensures d[j].fork.outer >= 0 && d[j].fork.outer in forks && j in forks[d[j].fork.outer]
    {
      assert Live(chains, j) && d[j].fork == chains[j].fork;
    }
  }

  lemma NewWaits(raw: Reqs, chains: seq<Chain>, forks: map<nat, seq<nat>>, c: Chain, h: seq<nat>)
    requires Waits(chains, forks) && ForkAt(raw, chains, c.fork, h)
    ensures Waits(chains + [c], Registering(forks, c.fork, |chains|))
  {
    var d, g := chains + [c], Registering(forks, c.fork, |chains|);
    forall j | Live(d, j) && d[j].fork.depth > 0
      ensures d[j].fork.outer >= 0 && d[j].fork.outer in g && j in g[d[j].fork.outer]
    {
      if j < |chains| { assert Live(chains, j) && d[j] == chains[j]; }
    }
  }

  /** Chains c and forks f are what classifying the requests of s, one after the other, leads to. */
  ghost predicate Grown(raw: Reqs, s: seq<nat>, c: seq<Chain>, f: map<nat, seq<nat>>)
    decreases |s|, 0
  {
    if s == [] then c == [] && f == map[] else GrownBy(raw, s[..|s| - 1], s[|s| - 1], c, f)
  }

  ghost predicate GrownBy(raw: Reqs, s: seq<nat>, x: nat, c: seq<Chain>, f: map<nat, seq<nat>>)
    decreases |s|, 1
  {
    x in raw && exists c0, f0 :: Grown(raw, s, c0, f0) && Classified(raw, c0, f0, x, c, f)
  }

  lemma GrownMore(raw: Reqs, s: seq<nat>, x: nat, c: seq<Chain>, f: map<nat, seq<nat>>, d: seq<Chain>,
                  g: map<nat, seq<nat>>)
    requires x in raw && Grown(raw, s, c, f) && Classified(raw, c, f, x, d, g)
    ensures Grown(raw, s + [x], d, g)
  {
  }

  lemma SingleLinked(raw: Reqs, x: nat)
    ensures Linked(raw, [x]) && LastHash(raw, [x]) == if x in raw && raw[x].hashes != [] then x else -1
  {
    BearingOne(raw, x);
  }

  lemma TailPlaced(raw: Reqs, chains: seq<Chain>, chainOf: map<nat, nat>, i: nat)
    requires Partition(raw, chains, chainOf) && Live(chains, i) && LastHash(raw, chains[i].requests) >= 0
    ensures LastHash(raw, chains[i].requests) in chainOf && chainOf[LastHash(raw, chains[i].requests)] == i
    ensures LastHash(raw, chains[i].requests) in raw && raw[LastHash(raw, chains[i].requests)].hashes != []
  {
    var b := Bearing(raw, chains[i].requests);
    assert b[|b| - 1] in b;
  }

  lemma BestIn(raw: Reqs, chains: seq<Chain>, h: seq<nat>, t: real, model: nat, best: int)
    requires BestExtension(raw, chains, h, t, model, |chains|, best)
    ensures -1 <= best < |chains| && (best >= 0 ==> Extends(raw, chains[best], h, t, model))
  {
  }

  lemma BestParentIn(raw: Reqs, chains: seq<Chain>, h: seq<nat>, p: int)
    requires BestParent(raw, chains, h, |chains|, p)
    ensures -1 <= p < |chains| && (p >= 0 ==> Depth(raw, chains[p], h) > 0) && (NoTails(raw, chains) ==> p < 0)
  {
  }

  lemma ExtensionFollows(raw: Reqs, c: Chain, x: nat)
    requires x in raw && Extends(raw, c, raw[x].hashes, raw[x].t, raw[x].model)
    ensures Follows(raw, c.tailOuter, x)
  {
  }

  class Detector {
    const raw: Reqs
    var chains: seq<Chain>
    var chainOf: map<nat, nat>
    var forks: map<nat, seq<nat>>

    ghost predicate Growing()
      reads this
    {
      Good(raw, chains, chainOf, forks) && Tails(raw, chains) && Waits(chains, forks)
    }

    constructor (raw: Reqs)
      ensures Growing() && this.raw == raw && chains == [] && chainOf == map[] && forks == map[]
    {
      this.raw := raw;
      chains, chainOf, forks := [], map[], map[];
    }

    method Append(i: nat, x: nat)
      requires Growing() && i < |chains| && x in raw && x !in chainOf
      requires raw[x].hashes == [] || LastHash(raw, chains[i].requests) == -1 ||
        Follows(raw, LastHash(raw, chains[i].requests), x)
      modifies this
      ensures Growing() && chainOf == old(chainOf)[x := i] && forks == old(forks)
      ensures chains == old(chains)[i := WithRequest(raw, old(chains)[i], x)]
    {
      hide Good, Tails, LastHash, Follows, Waits;
      AppendGood(raw, chains, chainOf, forks, i, x);
      AppendWaits(raw, chains, forks, i, x);
      chains := chains[i := chains[i].(requests := chains[i].requests + [x])];
      chainOf := chainOf[x := i];
      if raw[x].hashes != [] { chains := chains[i := chains[i].(tailOuter := x)]; }
      assert chains == old(chains)[i := WithRequest(raw, old(chains)[i], x)];
    }

    method AddChain(c: Chain, x: nat)
      requires Growing() && x in raw && x !in chainOf && c.requests == [] && c.splicedInto == -1 && c.tailOuter == -1
      requires (c.hasFork <==> chains != []) && -1 <= c.fork.parent < |chains| && (chains != [] ==> raw[x].hashes != [])
      requires ForkAt(raw, chains, c.fork, raw[x].hashes)
      modifies this
      ensures Growing() && chainOf == old(chainOf)[x := |old(chains)|] &&
        chains == old(chains) + [WithRequest(raw, c, x)]
      ensures forks == Registering(old(forks), c.fork, |old(chains)|)
    {
      hide Good, Tails, ForkAt, Waits;
      var n := |chains|;
      var d := WithRequest(raw, c, x);
      NewWaits(raw, chains, forks, d, raw[x].hashes);
      NewGood(raw, chains, chainOf, forks, d, x);
      chains := chains + [d];
      chainOf := chainOf[x := n];
      if c.fork.outer >= 0 && c.fork.depth > 0 { forks := Register(forks, c.fork.outer, n); }
    }

    /** One request joins the chain it extends best, or opens a chain of its own that forks off its closest relative. */
    method Classify(x: nat)
      requires Growing() && x in raw && x !in chainOf
      modifies this
      ensures Growing() && x in chainOf && chainOf == old(chainOf)[x := chainOf[x]]
      ensures Classified(raw, old(chains), old(forks), x, chains, forks)
    {
      hide Linked, Partition, ChainOk, Registered, Bearing, Lcp, BestExtension, BestParent;
      var h := raw[x].hashes;
      if chains == [] {
        AddChain(FRESH, x);
        return;
      }
      if h == [] {
        Append(0, x);
        return;
      }
      var target := FindExtensionTarget(raw, chains, h, raw[x].t, raw[x].model);
      BestIn(raw, chains, h, raw[x].t, raw[x].model, target);
      if target >= 0 {
        ExtensionFollows(raw, chains[target], x);
        Append(target, x);
        return;
      }
      var parent, depth := MaxLcpChain(raw, chains, h);
      BestParentIn(raw, chains, h, parent);
      var allEmpty := true;
      for i := 0 to |chains|
        invariant allEmpty <==> forall j :: 0 <= j < i ==> TailLen(raw, chains[j]) == 0
      {
        if TailLen(raw, chains[i]) != 0 { allEmpty := false; }
      }
      if parent < 0 && allEmpty {
        NoTail(raw, chains, 0);
        Append(0, x);
        return;
      }
      var c := Chain([], true, Fork(parent, if parent >= 0 then chains[parent].tailOuter else -1, depth, raw[x].t), -1,
        -1);
      assert c == FRESH.(hasFork := true, fork := ForkOff(raw, chains, x, parent));
      AddChain(c, x);
      assert Opened(raw, old(chains), old(forks), x, parent, chains, forks);
    }

    method ClassifyAll(items: seq<nat>)
      requires Growing() && chainOf == map[] && chains == [] && forks == map[]
      requires forall x :: x in items ==> x in raw
      requires forall j, k :: 0 <= j < k < |items| ==> items[j] != items[k]
      modifies this
      ensures Growing() && (forall x :: x in chainOf <==> x in items) && Grown(raw, items, chains, forks)
    {
      hide Good, Tails, Classified;
      for k := 0 to |items|
        invariant Growing() && (forall x :: x in chainOf <==> x in items[..k]) && Grown(raw, items[..k], chains, forks)
      {
        assert items[..k + 1] == items[..k] + [items[k]];
        ghost var c, f := chains, forks;
        Classify(items[k]);
        GrownMore(raw, items[..k], items[k], c, f, chains, forks);
      }
      assert items[..|items|] == items;
    }

    /** The block-bearing request of chain i that came last. */
    method LastHashOuter(i: nat) returns (x: int)
      requires i < |chains| && forall k :: 0 <= k < |chains[i].requests| ==> chains[i].requests[k] in raw
      ensures x == LastHash(raw, chains[i].requests)
    {
      var s := chains[i].requests;
      var k := |s|;
      assert s[..k] == s;
      while k > 0
        invariant k <= |s| && LastHash(raw, s[..k]) == LastHash(raw, s)
      {
        assert s[..k][..k - 1] == s[..k - 1];
        if raw[s[k - 1]].hashes != [] { return s[k - 1]; }
        k := k - 1;
      }
      return -1;
    }

    /** Follows splices upwards; every step goes to a smaller index. */
    method Resolve(alias: map<nat, nat>, i: nat) returns (r: nat)
      requires forall j :: j in alias ==> alias[j] < j
      ensures r !in alias && r <= i && (i !in alias ==> r == i)
    {
      r := i;
      while r in alias
        invariant r <= i && (i !in alias ==> r == i)
        decreases r
      {
        r := alias[r];
      }
    }

    /** Forks that were not continued look for their place at the new end of the owner's chain. */
    method RekeyLeftoverForks(registered: seq<nat>, elected: nat, owner: nat, newTail: nat, ghost fo: nat)
      returns (rekeyed: bool)
      requires Good(raw, chains, chainOf, forks) && Overtaken(raw, chains, chainOf, fo)
      requires newTail in raw && newTail in chainOf && chainOf[newTail] == owner
      requires forall i :: i in registered ==> Leftover(chains, owner, fo, newTail, i)
      modifies this`chains, this`forks
      ensures Good(raw, chains, chainOf, forks) && SameRequests(old(chains), chains)
      ensures Stage(chains, chainOf, forks) ==
        RekeyAll(raw, Stage(old(chains), chainOf, old(forks)), registered, elected, owner, newTail)
      ensures MovedOn(raw, Stage(old(chains), chainOf, old(forks)), Stage(chains, chainOf, forks), registered, elected,
        owner, newTail)
      ensures !rekeyed ==> chains == old(chains) && forks == old(forks)
      ensures rekeyed ==> forks.Keys == old(forks).Keys + {newTail}
      ensures forall f :: f != newTail && Spent(raw, old(chains), chainOf, old(forks), f) ==>
        Spent(raw, chains, chainOf, forks, f)
    {
      hide Good, Overtaken, Spent, Lcp, MovedOn;
      rekeyed := false;
      for k := 0 to |registered|
        invariant Good(raw, chains, chainOf, forks) && SameRequests(old(chains), chains) &&
          Overtaken(raw, chains, chainOf, fo)
        invariant Stage(chains, chainOf, forks) ==
          RekeyAll(raw, Stage(old(chains), chainOf, old(forks)), registered[..k], elected, owner, newTail)
        invariant !rekeyed ==> chains == old(chains) && forks == old(forks)
        invariant rekeyed ==> forks.Keys == old(forks).Keys + {newTail}
        invariant forall i :: i in registered ==> Leftover(chains, owner, fo, newTail, i)
        invariant forall f :: f != newTail && Spent(raw, old(chains), chainOf, old(forks), f) ==>
          Spent(raw, chains, chainOf, forks, f)
      {
        var ci := registered[k];
        assert ci in registered && registered[..k + 1][..k] == registered[..k];
        var c := chains[ci];
        if ci != elected && c.splicedInto < 0 && c.hasFork {
          FirstIn(raw, chains, chainOf, forks, ci);
          var d := CommonPrefix(raw[newTail].hashes, raw[c.requests[0]].hashes);
          if d > 0 {
            RekeyGood(raw, chains, chainOf, forks, ci, owner, newTail, fo);
            forall f | f != newTail && Spent(raw, chains, chainOf, forks, f)
              ensures Spent(raw, Rekeyed(raw, chains, ci, owner, newTail), chainOf, Register(forks, newTail, ci), f)
            {
              RekeySpent(raw, chains, chainOf, forks, ci, owner, newTail, fo, f);
            }
            chains := chains[ci := c.(fork := c.fork.(outer := newTail, depth := d, parent := owner))];
            forks := Register(forks, newTail, ci);
            rekeyed := true;
          }
        }
      }
      assert registered[..|registered|] == registered;
      RekeyIs(raw, Stage(old(chains), chainOf, old(forks)), registered, elected, owner, newTail);
    }

    /** The chains registered under fo that were not spliced away yet. */
    method Waiting(fo: nat) returns (w: seq<nat>)
      requires fo in forks && forall i :: i in forks[fo] ==> i < |chains|
      ensures w == LiveOf(chains, forks[fo])
      ensures forall i :: i in w <==> i in forks[fo] && Live(chains, i)
    {
      w := [];
      for k := 0 to |forks[fo]|
        invariant w == LiveOf(chains, forks[fo][..k])
        invariant forall i :: i in w <==> i in forks[fo][..k] && Live(chains, i)
      {
        assert forks[fo][..k + 1][..k] == forks[fo][..k];
        assert forks[fo][..k + 1] == forks[fo][..k] + [forks[fo][k]];
        assert forks[fo][k] in forks[fo];
        if chains[forks[fo][k]].splicedInto < 0 { w := w + [forks[fo][k]]; }
      }
      assert forks[fo][..|forks[fo]|] == forks[fo];
    }

    /** Chain `elected` goes behind request fo; what else waited there is looked at again at the new end. */
    method SpliceBehind(fo: nat, owner: nat, elected: nat, registered: seq<nat>, ghost alias: map<nat, nat>)
      returns (newTail: int, rekeyed: bool)
      requires Good(raw, chains, chainOf, forks) && fo in forks && fo in chainOf && owner == chainOf[fo] &&
        owner < |chains|
      requires LastHash(raw, chains[owner].requests) == fo && elected < |chains|
      requires registered == LiveOf(chains, forks[fo]) &&
        forall i :: i in registered <==> i in forks[fo] && Live(chains, i)
      requires Elected(raw, chains, registered, fo, elected) && Aliases(chains, alias)
      modifies this
      ensures Good(raw, chains, chainOf, forks) && chainOf.Keys == old(chainOf).Keys && |chains| == |old(chains)|
      ensures SplicedBehind(raw, Stage(old(chains), old(chainOf), old(forks)), fo, elected,
        Stage(chains, chainOf, forks))
      ensures elected in LiveSet(old(chains)) && LiveSet(chains) == LiveSet(old(chains)) - {elected}
      ensures Aliases(chains, alias[elected := owner]) && Spent(raw, chains, chainOf, forks, fo)
      ensures if rekeyed then newTail >= 0 && forks.Keys == old(forks).Keys + {newTail} else forks == old(forks)
      ensures forall f :: !(rekeyed && f == newTail) && Spent(raw, old(chains), old(chainOf), old(forks), f) ==>
        Spent(raw, chains, chainOf, forks, f)
    {
      hide Good, Spent, Overtaken, Linked, LastHash, MayFollow, Spliced, Moved, Elected, Leftover, LiveSet,
           SameRequests, Aliases;
      ForkPlaced(raw, chains, chainOf, forks, fo);
      ElectedFollows(raw, chains, chainOf, forks, fo, owner, elected, registered);
      SpliceGood(raw, chains, chainOf, forks, owner, elected, fo);
      SpliceLive(chains, owner, elected);
      SplicedAliases(chains, alias, owner, elected);
      SplicedOwner(chains, owner, elected);
      ghost var chains0, chainOf0 := chains, chainOf;
      MovedKeys(chainOf, chains[elected].requests, owner);
      chainOf := Moved(chainOf, chains[elected].requests, owner);
      chains := Spliced(chains, owner, elected);
      OvertakenSpent(raw, chains, chainOf, forks, fo);
      FirstIn(raw, chains, chainOf, forks, owner);
      EndPlaced(raw, chains, chainOf, forks, owner);
      newTail := LastHashOuter(owner);
      rekeyed := false;
      if newTail < 0 { return; }
      SplicedLeftovers(raw, chains0, chainOf0, forks, owner, elected, fo, newTail, registered);
      ghost var chains1 := chains;
      rekeyed := RekeyLeftoverForks(registered, elected, owner, newTail, fo);
      SameLive(chains1, chains, alias[elected := owner]);
      EndNotBefore(raw, chains1, chainOf, forks, owner, fo, newTail);
    }

    /** Request fo ends its chain: the best of the chains waiting behind it, if any may continue it, is spliced
        there. */
    method TrySplice(fo: nat, owner: nat, ghost alias: map<nat, nat>)
      returns (elected: int, newTail: int, rekeyed: bool)
      requires Good(raw, chains, chainOf, forks) && fo in forks && fo in chainOf && owner == chainOf[fo] &&
        owner < |chains|
      requires LastHash(raw, chains[owner].requests) == fo && Aliases(chains, alias)
      modifies this
      ensures Good(raw, chains, chainOf, forks) && chainOf.Keys == old(chainOf).Keys && |chains| == |old(chains)|
      ensures Spent(raw, chains, chainOf, forks, fo)
      ensures elected < 0 ==> chains == old(chains) && chainOf == old(chainOf) && forks == old(forks)
      ensures elected >= 0 ==>
        SplicedBehind(raw, Stage(old(chains), old(chainOf), old(forks)), fo, elected, Stage(chains, chainOf, forks))
      ensures elected >= 0 ==> elected in LiveSet(old(chains)) && LiveSet(chains) == LiveSet(old(chains)) - {elected}
      ensures elected >= 0 ==> Aliases(chains, alias[elected := owner])
      ensures if rekeyed then newTail >= 0 && forks.Keys == old(forks).Keys + {newTail} else forks == old(forks)
      ensures forall f :: !(rekeyed && f == newTail) && Spent(raw, old(chains), old(chainOf), old(forks), f) ==>
        Spent(raw, chains, chainOf, forks, f)
    {
      hide Good, Spent, Linked, LastHash, MayFollow, Elected, LiveSet, Aliases;
      ForkPlaced(raw, chains, chainOf, forks, fo);
      var registered := Waiting(fo);
      elected := ElectContinuation(raw, chains, registered, fo);
      newTail, rekeyed := -1, false;
      if elected < 0 {
        NoneSpent(raw, chains, chainOf, forks, registered, fo);
        return;
      }
      newTail, rekeyed := SpliceBehind(fo, owner, elected, registered, alias);
    }

    /** Splices until no chain is left that could continue the last request of another. */
    method ResolveSeams() returns (ghost n: nat)
      requires Good(raw, chains, chainOf, forks) && forall i :: 0 <= i < |chains| ==> chains[i].splicedInto < 0
      modifies this
      ensures Good(raw, chains, chainOf, forks) && chainOf.Keys == old(chainOf).Keys && |chains| == |old(chains)|
      ensures Sewn(raw, Stage(old(chains), old(chainOf), old(forks)), Stage(chains, chainOf, forks), n)
      ensures forall fo :: fo in forks ==> Spent(raw, chains, chainOf, forks, fo)
      ensures old(Waits(chains, forks)) ==>
        Waits(chains, forks) &&
        NoneLeft(raw, Stage(old(chains), old(chainOf), old(forks)), Stage(chains, chainOf, forks))
    {
      hide NoneLeft, Waits, Sewn, SplicedBehind, SpentBelow, SameOpening, Pending, Good, Spent, Overtaken, Linked,
           LastHash, MayFollow, Elected, LiveSet, Aliases;
      var alias: map<nat, nat> := map[];
      NoAliases(chains);
      var keys := multiset(forks.Keys);
      var processed: set<nat> := {};
      PendingAll(raw, chains, chainOf, forks);
      n := 0;
      ghost var start := Stage(chains, chainOf, forks);
      SewnNone(raw, start);
      NoneLeftSelf(raw, start);
      while keys != multiset{}
        invariant Good(raw, chains, chainOf, forks) && chainOf.Keys == old(chainOf).Keys && |chains| == |old(chains)|
        invariant Aliases(chains, alias) && Sewn(raw, start, Stage(chains, chainOf, forks), n)
        invariant old(Waits(chains, forks)) ==>
          Waits(chains, forks) && NoneLeft(raw, start, Stage(chains, chainOf, forks))
        invariant Pending(raw, chains, chainOf, forks, keys, processed)
        decreases LiveSet(chains), |keys|
      {
        LeastKey(keys);
        var fo: nat :| fo in keys && forall x :: x in keys ==> fo <= x;
        ghost var keys0, processed0 := keys, processed;
        keys := keys - multiset{fo};
        if fo in processed {
          PendingSkip(raw, chains, chainOf, forks, keys0, processed0, fo);
          continue;
        }
        processed := processed + {fo};
        PendingKey(raw, chains, chainOf, forks, keys0, processed0, fo);
        ForkPlaced(raw, chains, chainOf, forks, fo);
        AliasSmaller(raw, chains, chainOf, forks, alias);
        var owner := Resolve(alias, chainOf[fo]);
        FirstIn(raw, chains, chainOf, forks, owner);
        var last := LastHashOuter(owner);
        if last != fo {
          OvertakenIs(raw, chains, chainOf, forks, fo);
          OvertakenSpent(raw, chains, chainOf, forks, fo);
          PendingDone(raw, chains, chainOf, forks, keys0, processed0, fo);
          continue;
        }
        ghost var chains0, chainOf0, forks0 := chains, chainOf, forks;
        var elected, newTail, rekeyed := TrySplice(fo, owner, alias);
        if elected < 0 {
          PendingDone(raw, chains, chainOf, forks, keys0, processed0, fo);
          continue;
        }
        alias := alias[elected := owner];
        SewnMore(raw, start, Stage(chains0, chainOf0, forks0), Stage(chains, chainOf, forks), n, fo, elected);
        if old(Waits(chains, forks)) {
          SpliceLeaves(raw, Stage(chains0, chainOf0, forks0), fo, elected, Stage(chains, chainOf, forks));
          NoneLeftTrans(raw, start, Stage(chains0, chainOf0, forks0), Stage(chains, chainOf, forks));
        }
        n := n + 1;
        PendingSpliced(raw, chains0, chainOf0, forks0, chains, chainOf, forks, keys0, processed0, fo, newTail, rekeyed);
        if rekeyed {
          var end: nat := newTail;
          processed := processed - {end};
          keys := keys + multiset{end};
        }
      }
      PendingNone(raw, chains, chainOf, forks, processed);
    }
  }

  /** Every request that chains wait behind is still queued, or has nothing left to splice. */
  ghost predicate Pending(raw: Reqs, chains: seq<Chain>, chainOf: map<nat, nat>, forks: map<nat, seq<nat>>,
                          keys: multiset<nat>, processed: set<nat>) {
    && (forall f :: f in keys ==> f in forks)
    && (forall f :: f in forks ==> f in keys || f in processed)
    && (forall f :: f in processed ==> Spent(raw, chains, chainOf, forks, f))
  }

  lemma PendingAll(raw: Reqs, chains: seq<Chain>, chainOf: map<nat, nat>, forks: map<nat, seq<nat>>)
    ensures Pending(raw, chains, chainOf, forks, multiset(forks.Keys), {})
  {
  }

  lemma PendingNone(raw: Reqs, chains: seq<Chain>, chainOf: map<nat, nat>, forks: map<nat, seq<nat>>,
                    processed: set<nat>)
    requires Pending(raw, chains, chainOf, forks, multiset{}, processed)
    ensures forall fo :: fo in forks ==> Spent(raw, chains, chainOf, forks, fo)
  {
  }

  lemma PendingKey(raw: Reqs, chains: seq<Chain>, chainOf: map<nat, nat>, forks: map<nat, seq<nat>>,
                   keys: multiset<nat>, processed: set<nat>, fo: nat)
    requires Pending(raw, chains, chainOf, forks, keys, processed) && fo in keys
    ensures fo in forks
    ensures (forall x :: x in keys ==> fo <= x) ==> SpentBelow(raw, Stage(chains, chainOf, forks), fo)
  {
  }

  lemma PendingSkip(raw: Reqs, chains: seq<Chain>, chainOf: map<nat, nat>, forks: map<nat, seq<nat>>,
                    keys: multiset<nat>, processed: set<nat>, fo: nat)
    requires Pending(raw, chains, chainOf, forks, keys, processed) && fo in keys && fo in processed
    ensures Pending(raw, chains, chainOf, forks, keys - multiset{fo}, processed)
  {
  }

  lemma PendingDone(raw: Reqs, chains: seq<Chain>, chainOf: map<nat, nat>, forks: map<nat, seq<nat>>,
                    keys: multiset<nat>, processed: set<nat>, fo: nat)
    requires Pending(raw, chains, chainOf, forks, keys, processed) && fo in keys &&
      Spent(raw, chains, chainOf, forks, fo)
    ensures Pending(raw, chains, chainOf, forks, keys - multiset{fo}, processed + {fo})
  {
  }

  lemma PendingSpliced(raw: Reqs, chains: seq<Chain>, chainOf: map<nat, nat>, forks: map<nat, seq<nat>>,
                       d: seq<Chain>, e: map<nat, nat>, g: map<nat, seq<nat>>,
                       keys: multiset<nat>, processed: set<nat>, fo: nat, newTail: int, rekeyed: bool)
    requires Pending(raw, chains, chainOf, forks, keys, processed) && fo in keys && Spent(raw, d, e, g, fo)
    requires if rekeyed then newTail >= 0 && g.Keys == forks.Keys + {newTail} else g == forks
    requires forall f :: !(rekeyed && f == newTail) && Spent(raw, chains, chainOf, forks, f) ==> Spent(raw, d, e, g, f)
    ensures rekeyed ==>
      Pending(raw, d, e, g, keys - multiset{fo} + multiset{newTail as nat}, processed + {fo} - {newTail as nat})
    ensures !rekeyed ==> Pending(raw, d, e, g, keys - multiset{fo}, processed + {fo})
  {
    hide Spent;
  }

  /** A chain waiting under fo, or already moved on to newTail. */
  ghost predicate Leftover(chains: seq<Chain>, owner: nat, fo: nat, newTail: nat, i: nat) {
    owner < i < |chains| && (Live(chains, i) ==> chains[i].fork.outer == fo || chains[i].fork.outer == newTail)
  }

  ghost predicate SameRequests(chains0: seq<Chain>, chains: seq<Chain>) {
    |chains| == |chains0| && forall i {:trigger chains[i]} :: 0 <= i < |chains| ==>
      chains[i] == chains0[i].(fork := chains[i].fork)
  }

  lemma FirstIn(raw: Reqs, chains: seq<Chain>, chainOf: map<nat, nat>, forks: map<nat, seq<nat>>, i: nat)
    requires Good(raw, chains, chainOf, forks) && i < |chains|
    ensures chains[i].requests != [] && chains[i].requests[0] in raw
    ensures forall k :: 0 <= k < |chains[i].requests| ==> chains[i].requests[k] in raw
    ensures -1 <= chains[i].splicedInto < i
  {
  }

  function Rekeyed(raw: Reqs, chains: seq<Chain>, i: nat, owner: nat, newTail: nat): seq<Chain>
    requires i < |chains| && chains[i].requests != [] && chains[i].requests[0] in raw && newTail in raw
  {
    chains[i := chains[i].(fork := chains[i].fork.(outer := newTail, parent := owner,
                             depth := Lcp(raw[newTail].hashes, raw[chains[i].requests[0]].hashes)))]
  }

  lemma RekeyGood(raw: Reqs, chains: seq<Chain>, chainOf: map<nat, nat>, forks: map<nat, seq<nat>>,
                  i: nat, owner: nat, newTail: nat, fo: nat)
    requires Good(raw, chains, chainOf, forks) && Overtaken(raw, chains, chainOf, fo)
    requires newTail in raw && newTail in chainOf && chainOf[newTail] == owner && Live(chains, i) && chains[i].hasFork
    requires Leftover(chains, owner, fo, newTail, i)
    requires chains[i].requests != [] && chains[i].requests[0] in raw
    requires Lcp(raw[newTail].hashes, raw[chains[i].requests[0]].hashes) > 0
    ensures var d, g := Rekeyed(raw, chains, i, owner, newTail), Register(forks, newTail, i); (
      Good(raw, d, chainOf, g) && Overtaken(raw, d, chainOf, fo) && SameRequests(chains, d))
  {
    hide Linked, LastHash, MayFollow, Partition, Lcp, SameOpening;
    var d, g := Rekeyed(raw, chains, i, owner, newTail), Register(forks, newTail, i);
    OpeningOf(raw, newTail, chains[i].requests[0]);
    assert SameRequests(chains, d);
    SamePartition(raw, chains, d, chainOf);
    forall j | 0 <= j < |d|
      ensures ChainOk(raw, d, j)
    {
      assert ChainOk(raw, chains, j);
    }
    hide ChainOk;
    forall f, j | f in g && j in g[f]
      ensures Registered(raw, d, chainOf, f, j)
    {
      if !(f == newTail && j == i) {
        assert f in forks && j in forks[f] && Registered(raw, chains, chainOf, f, j);
      }
    }
  }

  lemma OpeningOf(raw: Reqs, x: nat, y: nat)
    requires x in raw && y in raw && Lcp(raw[x].hashes, raw[y].hashes) > 0
    ensures SameOpening(raw, x, y)
  {
  }

  lemma RekeySpent(raw: Reqs, chains: seq<Chain>, chainOf: map<nat, nat>, forks: map<nat, seq<nat>>,
                   i: nat, owner: nat, newTail: nat, fo: nat, f: nat)
    requires Good(raw, chains, chainOf, forks) && Overtaken(raw, chains, chainOf, fo)
    requires newTail in raw && Live(chains, i) && Leftover(chains, owner, fo, newTail, i)
    requires chains[i].requests != [] && chains[i].requests[0] in raw
    requires f != newTail && Spent(raw, chains, chainOf, forks, f)
    ensures Spent(raw, Rekeyed(raw, chains, i, owner, newTail), chainOf, Register(forks, newTail, i), f)
  {
    hide Linked, LastHash, MayFollow, Partition, ChainOk, Lcp;
    var d, g := Rekeyed(raw, chains, i, owner, newTail), Register(forks, newTail, i);
    if f in forks && i in forks[f] { assert Registered(raw, chains, chainOf, f, i); }
    if !Overtaken(raw, chains, chainOf, f) && f in forks {
      forall j | j in g[f] && Live(d, j)
        ensures !MayFollow(raw, d[j], f)
      {
        assert j in forks[f] && Live(chains, j) && !MayFollow(raw, chains[j], f);
      }
    }
  }

  lemma NoTail(raw: Reqs, chains: seq<Chain>, i: nat)
    requires Tails(raw, chains) && i < |chains| && TailLen(raw, chains[i]) == 0
    ensures LastHash(raw, chains[i].requests) == -1
  {
  }

  // ---- phase two: seams ----

  /** Chain c may continue what ended with request fo. */
  predicate Eligible(raw: Reqs, c: Chain, fo: nat) {
    && c.hasFork && c.fork.depth > 0 && fo in raw && c.requests != [] && c.requests[0] in raw
    && EndOf(raw[fo]) <= raw[c.requests[0]].t + EPS && raw[c.requests[0]].model == raw[fo].model
    && !(|raw[fo].hashes| > 0 && raw[c.requests[0]].t - EndOf(raw[fo]) > MAX_GAP
         && c.fork.depth as real / |raw[fo].hashes| as real < MIN_OVERLAP)
  }

  /** Chain c may go on from request fo: it forks off with common blocks, addresses the same model, does not begin
      before fo ended, and begins within the hour unless it shares half of the blocks of fo. */
  ghost predicate MayFollow(raw: Reqs, c: Chain, fo: nat) {
    c.hasFork && c.fork.depth > 0 && fo in raw && c.requests != [] && c.requests[0] in raw &&
    var a, b := raw[fo], raw[c.requests[0]];
    var end := if a.finite && a.api > 0.0 then a.t + a.api else a.t;
    b.model == a.model && end <= b.t + 0.000001 && (b.t <= end + 3600.0 || 2 * c.fork.depth >= |a.hashes|)
  }

  lemma EligibleIs(raw: Reqs, c: Chain, fo: nat)
    ensures Eligible(raw, c, fo) <==> MayFollow(raw, c, fo)
  {
    if fo in raw && |raw[fo].hashes| > 0 {
      HalfOf(c.fork.depth, |raw[fo].hashes|);
    }
  }

  lemma HalfOf(d: nat, n: nat)
    requires n > 0
    ensures d as real / n as real < 0.5 <==> 2 * d < n
  {
    Halved(d as real, n as real);
    assert 2.0 * d as real == (2 * d) as real;
  }

  lemma Halved(x: real, y: real)
    requires y > 0.0
    ensures x / y < 0.5 <==> 2.0 * x < y
  {
    var q := x / y;
    assert x == q * y;
    if q < 0.5 { Scale(q, 0.5, y); } else { Scale(0.5, q, y); }
  }

  lemma Scale(a: real, b: real, y: real)
    requires a <= b && y > 0.0
    ensures a * y <= b * y && (a < b ==> a * y < b * y)
  {
    assert (b - a) * y >= 0.0 && (a < b ==> (b - a) * y > 0.0);
  }

  /** Deeper forks first, then earlier ones, then lower indices. */
  predicate Preferred(chains: seq<Chain>, i: nat, j: nat)
    requires i < |chains| && j < |chains|
  {
    var f, g := chains[i].fork, chains[j].fork;
    f.depth > g.depth || (f.depth == g.depth && (f.time < g.time || (f.time == g.time && i <= j)))
  }

  ghost predicate Elected(raw: Reqs, chains: seq<Chain>, cands: seq<nat>, fo: nat, best: int) {
    if best < 0 then best == -1 && forall i :: i in cands && i < |chains| ==> !MayFollow(raw, chains[i], fo)
    else
      && best in cands && best < |chains| && MayFollow(raw, chains[best], fo)
      && forall i :: i in cands && i < |chains| && MayFollow(raw, chains[i], fo) ==> Preferred(chains, best, i)
  }

  method ElectContinuation(raw: Reqs, chains: seq<Chain>, cands: seq<nat>, fo: nat) returns (best: int)
    requires forall i :: i in cands ==> i < |chains|
    ensures Elected(raw, chains, cands, fo, best) && -1 <= best < |chains|
  {
    hide MayFollow, Eligible;
    best := -1;
    for k := 0 to |cands|
      invariant Elected(raw, chains, cands[..k], fo, best) && -1 <= best < |chains|
    {
      var ci := cands[k];
      assert ci in cands && cands[..k + 1] == cands[..k] + [ci];
      EligibleIs(raw, chains[ci], fo);
      if Eligible(raw, chains[ci], fo) {
        if best < 0 {
          best := ci;
        } else {
          var c, b := chains[ci].fork, chains[best].fork;
          if c.depth != b.depth {
            if c.depth > b.depth { best := ci; }
          } else if c.time != b.time {
            if c.time < b.time { best := ci; }
          } else if ci < best {
            best := ci;
          }
        }
      }
    }
    assert cands[..|cands|] == cands;
  }

  /** Nothing is left to splice behind request fo. */
  ghost predicate Spent(raw: Reqs, chains: seq<Chain>, chainOf: map<nat, nat>, forks: map<nat, seq<nat>>, fo: nat) {
    Overtaken(raw, chains, chainOf, fo) ||
    (fo in forks ==> forall i :: i in forks[fo] && Live(chains, i) ==> !MayFollow(raw, chains[i], fo))
  }

  function Spliced(chains: seq<Chain>, owner: nat, elected: nat): seq<Chain>
    requires owner < |chains| && elected < |chains|
  {
    chains[owner := chains[owner].(requests := chains[owner].requests + chains[elected].requests)]
          [elected := chains[elected].(splicedInto := owner)]
  }

  function Moved(chainOf: map<nat, nat>, moved: seq<nat>, owner: nat): map<nat, nat> {
    map x | x in chainOf :: if x in moved then owner else chainOf[x]
  }

  // ---- what splicing computes ----

  /** Chains, the chain of each request, and what waits behind each request, at one moment of the detection. */
  datatype Stage = Stage(chains: seq<Chain>, owner: map<nat, nat>, forks: map<nat, seq<nat>>)

  function LiveOf(chains: seq<Chain>, s: seq<nat>): seq<nat> {
    if s == [] then []
    else LiveOf(chains, s[..|s| - 1]) + (if Live(chains, s[|s| - 1]) then [s[|s| - 1]] else [])
  }

  predicate CanRekey(raw: Reqs, chains: seq<Chain>, i: nat, elected: nat, newTail: nat) {
    && i != elected && Live(chains, i) && chains[i].hasFork
    && newTail in raw && chains[i].requests != [] && chains[i].requests[0] in raw
    && Lcp(raw[newTail].hashes, raw[chains[i].requests[0]].hashes) > 0
  }

  /** Every waiting chain that shares blocks with the new end of the owner's chain waits there from now on. */
  function RekeyAll(raw: Reqs, s: Stage, waiting: seq<nat>, elected: nat, owner: nat, newTail: nat): (r: Stage)
    ensures |r.chains| == |s.chains| && r.owner == s.owner
  {
    if waiting == [] then s
    else
      var r := RekeyAll(raw, s, waiting[..|waiting| - 1], elected, owner, newTail);
      var i := waiting[|waiting| - 1];
      if CanRekey(raw, r.chains, i, elected, newTail)
      then Stage(Rekeyed(raw, r.chains, i, owner, newTail), r.owner, Register(r.forks, newTail, i))
      else r
  }

  function SpliceAt(raw: Reqs, s: Stage, fo: nat, owner: nat, elected: nat): (r: Stage)
    requires owner < |s.chains| && elected < |s.chains| && fo in s.forks
  {
    var u := Stage(Spliced(s.chains, owner, elected), Moved(s.owner, s.chains[elected].requests, owner), s.forks);
    var newTail := LastHash(raw, u.chains[owner].requests);
    if newTail < 0 then u else RekeyAll(raw, u, LiveOf(s.chains, s.forks[fo]), elected, owner, newTail)
  }

  /** Chain i waits behind request x from now on, as deep as it agrees with it. */
  ghost predicate WaitsAt(raw: Reqs, s: Stage, i: nat, x: nat, owner: nat)
    requires i < |s.chains|
  {
    var c := s.chains[i];
    && c.fork.outer == x && c.fork.parent == owner && x in raw && c.requests != [] && c.requests[0] in raw
    && c.fork.depth == Lcp(raw[x].hashes, raw[c.requests[0]].hashes) && x in s.forks && i in s.forks[x]
  }

  ghost predicate ForksGrow(s: Stage, r: Stage) {
    forall f, i :: f in s.forks && i in s.forks[f] ==> f in r.forks && i in r.forks[f]
  }

  /** From s to r, exactly those of the waiting chains moved on that share blocks with the new end and are not the one
      spliced. */
  ghost predicate MovedOn(raw: Reqs, s: Stage, r: Stage, waiting: seq<nat>, elected: nat, owner: nat, newTail: nat) {
    && SameRequests(s.chains, r.chains) && r.owner == s.owner && ForksGrow(s, r)
    && forall i :: 0 <= i < |s.chains| ==> MovedAt(raw, s, r, waiting, elected, owner, newTail, i)
  }

  ghost predicate MovedAt(raw: Reqs, s: Stage, r: Stage, waiting: seq<nat>, elected: nat, owner: nat, newTail: nat,
                          i: nat)
    requires i < |s.chains| == |r.chains|
  {
    if i in waiting && CanRekey(raw, s.chains, i, elected, newTail) then WaitsAt(raw, r, i, newTail, owner)
    else r.chains[i] == s.chains[i]
  }

  lemma MovedNone(raw: Reqs, s: Stage, elected: nat, owner: nat, newTail: nat)
    ensures MovedOn(raw, s, s, [], elected, owner, newTail)
  {
    assert forall i {:trigger s.chains[i]} :: 0 <= i < |s.chains| ==>
      s.chains[i] == s.chains[i].(fork := s.chains[i].fork);
  }

  lemma MovedMore(raw: Reqs, s: Stage, u: Stage, waiting: seq<nat>, elected: nat, owner: nat, newTail: nat)
    requires waiting != [] && MovedOn(raw, s, u, waiting[..|waiting| - 1], elected, owner, newTail)
    ensures var i := waiting[|waiting| - 1];
      if CanRekey(raw, u.chains, i, elected, newTail) then
        MovedOn(raw, s,
          Stage(Rekeyed(raw, u.chains, i, owner, newTail), u.owner, Register(u.forks, newTail, i)), waiting,
          elected, owner, newTail)
      else MovedOn(raw, s, u, waiting, elected, owner, newTail)
  {
    var n := |waiting| - 1;
    var i := waiting[n];
    assert waiting == waiting[..n] + [i];
    SameCanRekey(raw, s.chains, u.chains, i, elected, newTail);
    var r := if CanRekey(raw, u.chains, i, elected, newTail)
      then Stage(Rekeyed(raw, u.chains, i, owner, newTail), u.owner, Register(u.forks, newTail, i)) else u;
    forall j: nat | j < |s.chains|
      ensures MovedAt(raw, s, r, waiting, elected, owner, newTail, j)
    {
      assert MovedAt(raw, s, u, waiting[..n], elected, owner, newTail, j);
    }
    assert ForksGrow(s, r) && SameRequests(s.chains, r.chains);
  }

  lemma {:induction false} RekeyIs(raw: Reqs, s: Stage, waiting: seq<nat>, elected: nat, owner: nat, newTail: nat)
    ensures MovedOn(raw, s, RekeyAll(raw, s, waiting, elected, owner, newTail), waiting, elected, owner, newTail)
    decreases |waiting|
  {
    hide MovedOn, CanRekey;
    if waiting == [] {
      MovedNone(raw, s, elected, owner, newTail);
    } else {
      var n := |waiting| - 1;
      RekeyIs(raw, s, waiting[..n], elected, owner, newTail);
      MovedMore(raw, s, RekeyAll(raw, s, waiting[..n], elected, owner, newTail), waiting, elected, owner, newTail);
    }
  }

  lemma SameCanRekey(raw: Reqs, chains: seq<Chain>, d: seq<Chain>, i: nat, elected: nat, newTail: nat)
    requires SameRequests(chains, d)
    ensures CanRekey(raw, d, i, elected, newTail) <==> CanRekey(raw, chains, i, elected, newTail)
  {
  }

  /** Request fo ends the live chain it is in, and the best of the chains that wait behind it and may continue it is
      spliced. */
  ghost predicate SplicedBehind(raw: Reqs, s: Stage, fo: nat, elected: nat, r: Stage) {
    && fo in s.forks && fo in s.owner && s.owner[fo] < |s.chains| && elected < |s.chains|
    && Live(s.chains, s.owner[fo]) && LastHash(raw, s.chains[s.owner[fo]].requests) == fo
    && Elected(raw, s.chains, LiveOf(s.chains, s.forks[fo]), fo, elected)
    && r == SpliceAt(raw, s, fo, s.owner[fo], elected)
  }

  /** n splices lead from s to r. */
  ghost predicate Sewn(raw: Reqs, s: Stage, r: Stage, n: nat)
    decreases n
  {
    if n == 0 then r == s
    else exists u: Stage, fo: nat, elected: nat ::
      Sewn(raw, s, u, n - 1) && SplicedBehind(raw, u, fo, elected, r) && SpentBelow(raw, u, fo)
  }

  /** No seam at an earlier request of the file is left to sew. */
  ghost predicate SpentBelow(raw: Reqs, s: Stage, fo: nat) {
    forall f :: f in s.forks && f < fo ==> Spent(raw, s.chains, s.owner, s.forks, f)
  }

  lemma NotSpent(raw: Reqs, u: Stage, fo: nat, elected: nat, r: Stage)
    requires SplicedBehind(raw, u, fo, elected, r)
    ensures fo in u.forks && !Spent(raw, u.chains, u.owner, u.forks, fo)
  {
    hide LastHash, MayFollow, SpliceAt;
    LiveIn(u.chains, u.forks[fo], elected);
  }

  lemma {:induction false} LiveIn(chains: seq<Chain>, s: seq<nat>, i: nat)
    requires i in LiveOf(chains, s)
    ensures i in s && Live(chains, i)
    decreases |s|
  {
    var n := |s| - 1;
    if i in LiveOf(chains, s[..n]) { LiveIn(chains, s[..n], i); }
  }

  /** One stage has one next splice. */
  lemma SpliceUnique(raw: Reqs, u: Stage, fo: nat, elected: nat, r: Stage, fo1: nat, elected1: nat, r1: Stage)
    requires SplicedBehind(raw, u, fo, elected, r) && SpentBelow(raw, u, fo)
    requires SplicedBehind(raw, u, fo1, elected1, r1) && SpentBelow(raw, u, fo1)
    ensures r == r1
  {
    hide LastHash, MayFollow, SpliceAt, Spent;
    NotSpent(raw, u, fo, elected, r);
    NotSpent(raw, u, fo1, elected1, r1);
  }

  lemma {:induction false} SewnSame(raw: Reqs, s: Stage, r: Stage, r1: Stage, n: nat)
    requires Sewn(raw, s, r, n) && Sewn(raw, s, r1, n)
    ensures r == r1
    decreases n
  {
    hide SplicedBehind, SpentBelow;
    if n > 0 {
      var u: Stage, fo: nat, elected: nat :|
        Sewn(raw, s, u, n - 1) && SplicedBehind(raw, u, fo, elected, r) && SpentBelow(raw, u, fo);
      var u1: Stage, fo1: nat, elected1: nat :|
        Sewn(raw, s, u1, n - 1) && SplicedBehind(raw, u1, fo1, elected1, r1) && SpentBelow(raw, u1, fo1);
      SewnSame(raw, s, u, u1, n - 1);
      SpliceUnique(raw, u, fo, elected, r, fo1, elected1, r1);
    }
  }

  ghost predicate AllSpent(raw: Reqs, s: Stage) {
    forall fo :: fo in s.forks ==> Spent(raw, s.chains, s.owner, s.forks, fo)
  }

  /** Once all seams are spent there is no further splice. */
  lemma {:induction false} SewnLonger(raw: Reqs, s: Stage, r: Stage, n: nat, r1: Stage, n1: nat)
    requires Sewn(raw, s, r, n) && AllSpent(raw, r) && Sewn(raw, s, r1, n1)
    ensures n1 <= n
    decreases n1
  {
    hide SplicedBehind, SpentBelow, Spent;
    if n1 > 0 {
      var u: Stage, fo: nat, elected: nat :|
        Sewn(raw, s, u, n1 - 1) && SplicedBehind(raw, u, fo, elected, r1) && SpentBelow(raw, u, fo);
      SewnLonger(raw, s, r, n, u, n1 - 1);
      if n1 - 1 == n {
        SewnSame(raw, s, r, u, n);
        NotSpent(raw, u, fo, elected, r1);
      }
    }
  }

  /** The seams of the grown chains can be sewn in one way only: the outcome is a function of the requests. */
  lemma SewnUnique(raw: Reqs, s: Stage, r: Stage, n: nat, r1: Stage, n1: nat)
    requires Sewn(raw, s, r, n) && AllSpent(raw, r) && Sewn(raw, s, r1, n1) && AllSpent(raw, r1)
    ensures r == r1 && n == n1
  {
    SewnLonger(raw, s, r, n, r1, n1);
    SewnLonger(raw, s, r1, n1, r, n);
    SewnSame(raw, s, r, r1, n);
  }

  lemma SewnNone(raw: Reqs, s: Stage)
    ensures Sewn(raw, s, s, 0)
  {
  }

  lemma SewnMore(raw: Reqs, s: Stage, u: Stage, r: Stage, n: nat, fo: nat, elected: nat)
    requires Sewn(raw, s, u, n) && SplicedBehind(raw, u, fo, elected, r) && SpentBelow(raw, u, fo)
    ensures Sewn(raw, s, r, n + 1)
  {
    hide SplicedBehind, SpentBelow;
  }

  lemma Apart(raw: Reqs, chains: seq<Chain>, chainOf: map<nat, nat>, i: nat, j: nat, x: nat)
    requires Partition(raw, chains, chainOf) && Live(chains, i) && Live(chains, j) && i != j && x in chains[i].requests
    ensures x !in chains[j].requests
  {
  }

  lemma SplicePartition(raw: Reqs, chains: seq<Chain>, chainOf: map<nat, nat>, owner: nat, elected: nat)
    requires Partition(raw, chains, chainOf) && Live(chains, owner) && Live(chains, elected) && owner < elected
    ensures Partition(raw, Spliced(chains, owner, elected), Moved(chainOf, chains[elected].requests, owner))
  {
    var d, e := Spliced(chains, owner, elected), Moved(chainOf, chains[elected].requests, owner);
    var a, m := chains[owner].requests, chains[elected].requests;
    assert forall k :: 0 <= k < |a| ==> d[owner].requests[k] == a[k];
    assert forall k :: |a| <= k < |a| + |m| ==> d[owner].requests[k] == m[k - |a|];
    forall i, k | 0 <= i < |d| && 0 <= k < |d[i].requests|
      ensures d[i].requests[k] in raw
      ensures Live(d, i) ==> d[i].requests[k] in e && e[d[i].requests[k]] == i
    {
      if i == owner && k >= |a| {
        assert m[k - |a|] in m;
        assert chains[elected].requests[k - |a|] in raw;
      } else {
        assert d[i].requests[k] == chains[i].requests[k];
        if Live(d, i) { Apart(raw, chains, chainOf, i, elected, chains[i].requests[k]); }
      }
    }
    forall i, j, k | 0 <= i < |d| && 0 <= j < k < |d[i].requests|
      ensures d[i].requests[j] != d[i].requests[k]
    {
      if i == owner && k >= |a| {
        assert chains[elected].requests[k - |a|] in chainOf;
        if j < |a| {
          assert chainOf[chains[owner].requests[j]] == owner;
        } else {
          assert chains[elected].requests[j - |a|] != chains[elected].requests[k - |a|];
        }
      } else {
        assert chains[i].requests[j] != chains[i].requests[k];
      }
    }
    forall x | x in e
      ensures Live(d, e[x]) && x in d[e[x]].requests
    {
      assert Live(chains, chainOf[x]) && x in chains[chainOf[x]].requests;
    }
  }

  lemma SpliceReady(raw: Reqs, chains: seq<Chain>, chainOf: map<nat, nat>, owner: nat, elected: nat, fo: nat)
    requires Partition(raw, chains, chainOf) && ChainsOk(raw, chains)
    requires Live(chains, owner) && Live(chains, elected) && owner < elected && chains[elected].requests != []
    requires LastHash(raw, chains[owner].requests) == fo && Follows(raw, fo, chains[elected].requests[0])
    ensures CanSplice(raw, chains, chainOf, owner, elected)
  {
    hide Partition, Linked, Bearing, Follows;
    assert ChainOk(raw, chains, owner) && ChainOk(raw, chains, elected);
    FirstBears(raw, chains[elected].requests);
    LastIn(raw, chains[owner].requests);
    LinkedConcat(raw, chains[owner].requests, chains[elected].requests);
    LastIn(raw, chains[elected].requests);
  }

  lemma SpliceChains(raw: Reqs, chains: seq<Chain>, chainOf: map<nat, nat>, owner: nat, elected: nat)
    requires CanSplice(raw, chains, chainOf, owner, elected)
    ensures ChainsOk(raw, Spliced(chains, owner, elected))
  {
    hide Partition, Linked, LastHash, Lcp;
    var d := Spliced(chains, owner, elected);
    forall i | 0 <= i < |d|
      ensures ChainOk(raw, d, i)
    {
      assert ChainOk(raw, chains, i);
    }
  }

  lemma SpliceRegistered(raw: Reqs, chains: seq<Chain>, chainOf: map<nat, nat>, owner: nat, elected: nat, f: nat,
                         i: nat)
    requires CanSplice(raw, chains, chainOf, owner, elected) && Registered(raw, chains, chainOf, f, i)
    ensures Registered(raw, Spliced(chains, owner, elected), Moved(chainOf, chains[elected].requests, owner), f, i)
  {
    hide Partition, Linked, LastHash, Lcp, ChainOk, Overtaken, SameOpening;
    var d, e := Spliced(chains, owner, elected), Moved(chainOf, chains[elected].requests, owner);
    assert d[i].requests[0] == chains[i].requests[0];
    if f in chains[elected].requests { OwnedBy(raw, chains, chainOf, elected, f); }
    if Overtaken(raw, chains, chainOf, f) { OvertakenStays(raw, chains, chainOf, owner, elected, f); }
  }

  lemma OwnedBy(raw: Reqs, chains: seq<Chain>, chainOf: map<nat, nat>, i: nat, x: nat)
    requires Partition(raw, chains, chainOf) && Live(chains, i) && x in chains[i].requests
    ensures x in chainOf && chainOf[x] == i
  {
  }

  /** Splicing a later chain behind the last request of an earlier one. */
  lemma SpliceGood(raw: Reqs, chains: seq<Chain>, chainOf: map<nat, nat>, forks: map<nat, seq<nat>>, owner: nat,
                   elected: nat, fo: nat)
    requires Good(raw, chains, chainOf, forks) && Live(chains, owner) && Live(chains, elected) && owner < elected
    requires chains[elected].requests != []
    requires LastHash(raw, chains[owner].requests) == fo && Follows(raw, fo, chains[elected].requests[0])
    ensures var d, e := Spliced(chains, owner, elected), Moved(chainOf, chains[elected].requests, owner); (
      Good(raw, d, e, forks) && Overtaken(raw, d, e, fo) &&
      LastHash(raw, d[owner].requests) == LastHash(raw, chains[elected].requests) &&
      (forall f :: Spent(raw, chains, chainOf, forks, f) ==> Spent(raw, d, e, forks, f)))
  {
    hide Linked, Follows, LastHash, Registered, ChainOk, Overtaken, Spent, Partition;
    var d, e := Spliced(chains, owner, elected), Moved(chainOf, chains[elected].requests, owner);
    SplicePartition(raw, chains, chainOf, owner, elected);
    SpliceReady(raw, chains, chainOf, owner, elected, fo);
    SpliceChains(raw, chains, chainOf, owner, elected);
    LastIn(raw, chains[owner].requests);
    forall f, i | f in forks && i in forks[f]
      ensures Registered(raw, d, e, f, i)
    {
      SpliceRegistered(raw, chains, chainOf, owner, elected, f, i);
    }
    OvertakenNow(raw, chains, chainOf, owner, elected, fo);
    forall f | Spent(raw, chains, chainOf, forks, f)
      ensures Spent(raw, d, e, forks, f)
    {
      SpentStays(raw, chains, chainOf, forks, owner, elected, f);
    }
  }

  lemma FirstBears(raw: Reqs, s: seq<nat>)
    requires s != [] && s[0] in raw && raw[s[0]].hashes != []
    ensures Bearing(raw, s) != [] && Bearing(raw, s)[0] == s[0]
  {
  }

  lemma LastIn(raw: Reqs, s: seq<nat>)
    ensures LastHash(raw, s) != -1 ==> LastHash(raw, s) >= 0 && LastHash(raw, s) in s
    ensures LastHash(raw, s) != -1 <==> Bearing(raw, s) != []
  {
  }

  /** The facts about two chains and their requests that splicing rests on. */
  ghost predicate CanSplice(raw: Reqs, chains: seq<Chain>, chainOf: map<nat, nat>, owner: nat, elected: nat) {
    && Partition(raw, chains, chainOf) && Live(chains, owner) && Live(chains, elected) && owner < elected
    && ChainsOk(raw, chains)
    && Linked(raw, chains[owner].requests + chains[elected].requests)
    && LastHash(raw, chains[owner].requests + chains[elected].requests) == LastHash(raw, chains[elected].requests)
    && LastHash(raw, chains[elected].requests) in chains[elected].requests
  }

  lemma OvertakenStays(raw: Reqs, chains: seq<Chain>, chainOf: map<nat, nat>, owner: nat, elected: nat, f: nat)
    requires CanSplice(raw, chains, chainOf, owner, elected) && Overtaken(raw, chains, chainOf, f)
    ensures Overtaken(raw, Spliced(chains, owner, elected), Moved(chainOf, chains[elected].requests, owner), f)
  {
    hide Linked, LastHash, ChainOk;
    var m := chains[elected].requests;
    var l := LastHash(raw, m);
    var k :| 0 <= k < |m| && m[k] == l;
    assert chainOf[chains[elected].requests[k]] == elected;
    if f in m {
      var q :| 0 <= q < |m| && m[q] == f;
      assert chainOf[chains[elected].requests[q]] == elected;
    }
  }

  lemma OvertakenNow(raw: Reqs, chains: seq<Chain>, chainOf: map<nat, nat>, owner: nat, elected: nat, f: nat)
    requires CanSplice(raw, chains, chainOf, owner, elected) && f in chains[owner].requests
    ensures Overtaken(raw, Spliced(chains, owner, elected), Moved(chainOf, chains[elected].requests, owner), f)
  {
    hide Linked, LastHash, ChainOk;
    var a, m := chains[owner].requests, chains[elected].requests;
    var k :| 0 <= k < |m| && m[k] == LastHash(raw, m);
    assert chainOf[chains[elected].requests[k]] == elected;
    var q :| 0 <= q < |a| && a[q] == f;
    assert chainOf[chains[owner].requests[q]] == owner;
  }

  lemma SpentStays(raw: Reqs, chains: seq<Chain>, chainOf: map<nat, nat>, forks: map<nat, seq<nat>>, owner: nat,
                   elected: nat, f: nat)
    requires CanSplice(raw, chains, chainOf, owner, elected) && Spent(raw, chains, chainOf, forks, f)
    ensures Spent(raw, Spliced(chains, owner, elected), Moved(chainOf, chains[elected].requests, owner), forks, f)
  {
    hide Linked, LastHash, Partition;
    if Overtaken(raw, chains, chainOf, f) {
      OvertakenStays(raw, chains, chainOf, owner, elected, f);
    } else if f in forks {
      forall i | i in forks[f] && Live(Spliced(chains, owner, elected), i)
        ensures !MayFollow(raw, Spliced(chains, owner, elected)[i], f)
      {
        assert ChainOk(raw, chains, owner);
        assert Live(chains, i) && !MayFollow(raw, chains[i], f);
      }
    }
  }

  // ---- nothing is left waiting behind a request that was overtaken ----

  /** The live chain i still waits behind a request that does not end its chain any more. */
  ghost predicate Stranded(raw: Reqs, s: Stage, i: int) {
    Live(s.chains, i) && s.chains[i].fork.depth > 0 && s.chains[i].fork.outer >= 0 &&
    Overtaken(raw, s.chains, s.owner, s.chains[i].fork.outer)
  }

  /** No chain is stranded in r that was not so in s, behind the same request. */
  ghost predicate NoneLeft(raw: Reqs, s: Stage, r: Stage) {
    forall i :: Stranded(raw, r, i) ==> Stranded(raw, s, i) && s.chains[i].fork == r.chains[i].fork
  }

  lemma NoneLeftSelf(raw: Reqs, s: Stage)
    ensures NoneLeft(raw, s, s)
  {
  }

  lemma NoneLeftTrans(raw: Reqs, s: Stage, u: Stage, r: Stage)
    requires NoneLeft(raw, s, u) && NoneLeft(raw, u, r)
    ensures NoneLeft(raw, s, r)
  {
    hide Overtaken;
  }

  lemma {:induction false} LiveOfAll(chains: seq<Chain>, s: seq<nat>)
    ensures forall i :: i in LiveOf(chains, s) <==> i in s && Live(chains, i)
    decreases |s|
  {
    if s != [] {
      var n := |s| - 1;
      assert s == s[..n] + [s[n]];
      LiveOfAll(chains, s[..n]);
    }
  }

  /** A splice overtakes no request but the one it is made behind. */
  lemma OneOvertaken(raw: Reqs, chains: seq<Chain>, chainOf: map<nat, nat>, owner: nat, elected: nat, fo: nat, f: nat)
    requires CanSplice(raw, chains, chainOf, owner, elected) && LastHash(raw, chains[owner].requests) == fo
    requires Overtaken(raw, Spliced(chains, owner, elected), Moved(chainOf, chains[elected].requests, owner), f)
    ensures f == fo || Overtaken(raw, chains, chainOf, f)
  {
    hide Linked, LastHash, ChainsOk;
    if f in chains[elected].requests { assert chainOf[f] == elected; }
  }

  lemma SharesOpening(raw: Reqs, fo: nat, x: nat, y: nat)
    requires SameOpening(raw, fo, x) && SameOpening(raw, fo, y)
    ensures Lcp(raw[x].hashes, raw[y].hashes) > 0
  {
  }

  lemma EndOpening(raw: Reqs, fo: nat, s: seq<nat>)
    requires s != [] && s[0] in raw && raw[s[0]].hashes != [] && Linked(raw, s) && SameOpening(raw, fo, s[0])
    ensures LastHash(raw, s) >= 0 && SameOpening(raw, fo, LastHash(raw, s))
  {
    hide Bearing, Linked;
    FirstBears(raw, s);
    var b := Bearing(raw, s);
    if |b| > 1 { OneOpening(raw, s, 0, |b| - 1); }
  }

  /** The facts about one splice that waiting depends on. */
  lemma SpliceFacts(raw: Reqs, s: Stage, fo: nat, elected: nat, r: Stage) returns (u: Stage, newTail: nat)
    requires Good(raw, s.chains, s.owner, s.forks) && Waits(s.chains, s.forks) && SplicedBehind(raw, s, fo, elected, r)
    ensures SplicedTo(raw, s, u, fo, elected, r, newTail)
  {
    hide Linked, LastHash, MayFollow, Bearing, Lcp, Partition, MovedOn, SameOpening, LiveOf, Waits, CanSplice;
    var owner := s.owner[fo];
    LiveOfAll(s.chains, s.forks[fo]);
    ElectedFollows(raw, s.chains, s.owner, s.forks, fo, owner, elected, LiveOf(s.chains, s.forks[fo]));
    SpliceReady(raw, s.chains, s.owner, owner, elected, fo);
    assert ChainOk(raw, s.chains, elected);
    EndOpening(raw, fo, s.chains[elected].requests);
    LastIn(raw, s.chains[elected].requests);
    u := Stage(Spliced(s.chains, owner, elected), Moved(s.owner, s.chains[elected].requests, owner), s.forks);
    SplicedEnd(raw, s.chains, s.owner, owner, elected);
    newTail := LastHash(raw, s.chains[elected].requests);
    RekeyIs(raw, u, LiveOf(s.chains, s.forks[fo]), elected, owner, newTail);
    SplicedHolds(raw, s.chains, s.owner, elected, newTail);
  }

  lemma SplicedEnd(raw: Reqs, chains: seq<Chain>, chainOf: map<nat, nat>, owner: nat, elected: nat)
    requires CanSplice(raw, chains, chainOf, owner, elected)
    ensures LastHash(raw, Spliced(chains, owner, elected)[owner].requests) == LastHash(raw, chains[elected].requests)
  {
  }

  lemma SplicedHolds(raw: Reqs, chains: seq<Chain>, chainOf: map<nat, nat>, elected: nat, x: nat)
    requires Partition(raw, chains, chainOf) && Live(chains, elected) && x in chains[elected].requests
    ensures x in chainOf
  {
  }

  /** One splice leaves nothing waiting behind the request it overtakes. */
  lemma SpliceLeaves(raw: Reqs, s: Stage, fo: nat, elected: nat, r: Stage)
    requires Good(raw, s.chains, s.owner, s.forks) && Waits(s.chains, s.forks) && SplicedBehind(raw, s, fo, elected, r)
    ensures Waits(r.chains, r.forks) && NoneLeft(raw, s, r)
  {
    hide Linked, LastHash, MayFollow, Bearing, Lcp, Partition, SplicedBehind, SameOpening, LiveOf, CanSplice, Good,
         MovedOn;
    var u, newTail := SpliceFacts(raw, s, fo, elected, r);
    forall i {:trigger r.chains[i]} | Live(r.chains, i) && r.chains[i].fork.depth > 0
      ensures r.chains[i].fork.outer >= 0 && r.chains[i].fork.outer in r.forks && i in r.forks[r.chains[i].fork.outer]
    {
      OneWaits(raw, s, u, fo, elected, r, newTail, i);
    }
    forall i | Stranded(raw, r, i)
      ensures Stranded(raw, s, i) && s.chains[i].fork == r.chains[i].fork
    {
      OneLeaves(raw, s, u, fo, elected, r, newTail, i);
    }
  }

  /** u is s with chain `elected` spliced behind fo, newTail the new end, and r is u with the leftovers moved on. */
  ghost predicate SplicedTo(raw: Reqs, s: Stage, u: Stage, fo: nat, elected: nat, r: Stage, newTail: nat) {
    && fo in s.forks && fo in s.owner && s.owner[fo] < |s.chains| && elected < |s.chains|
    && LastHash(raw, s.chains[s.owner[fo]].requests) == fo
    && u == Stage(Spliced(s.chains, s.owner[fo], elected), Moved(s.owner, s.chains[elected].requests, s.owner[fo]),
                  s.forks)
    && newTail == LastHash(raw, u.chains[s.owner[fo]].requests) && SameOpening(raw, fo, newTail)
    && newTail in u.owner && u.owner[newTail] == s.owner[fo]
    && CanSplice(raw, s.chains, s.owner, s.owner[fo], elected)
    && Good(raw, s.chains, s.owner, s.forks) && Waits(s.chains, s.forks)
    && MovedOn(raw, u, r, LiveOf(s.chains, s.forks[fo]), elected, s.owner[fo], newTail)
  }

  lemma OneWaits(raw: Reqs, s: Stage, u: Stage, fo: nat, elected: nat, r: Stage, newTail: nat, i: int)
    requires SplicedTo(raw, s, u, fo, elected, r, newTail) && Live(r.chains, i) && r.chains[i].fork.depth > 0
    ensures r.chains[i].fork.outer >= 0 && r.chains[i].fork.outer in r.forks && i in r.forks[r.chains[i].fork.outer]
  {
    hide Linked, LastHash, MayFollow, Bearing, Lcp, Partition, LiveOf, Good;
    assert MovedAt(raw, u, r, LiveOf(s.chains, s.forks[fo]), elected, s.owner[fo], newTail, i);
    if r.chains[i] == u.chains[i] { assert Live(s.chains, i) && s.chains[i].fork == r.chains[i].fork; }
  }

  lemma OneLeaves(raw: Reqs, s: Stage, u: Stage, fo: nat, elected: nat, r: Stage, newTail: nat, i: int)
    requires SplicedTo(raw, s, u, fo, elected, r, newTail) && Stranded(raw, r, i)
    ensures Stranded(raw, s, i) && s.chains[i].fork == r.chains[i].fork
  {
    hide Linked, LastHash, MayFollow, Bearing, Lcp, Partition, LiveOf;
    var owner, w := s.owner[fo], LiveOf(s.chains, s.forks[fo]);
    LiveOfAll(s.chains, s.forks[fo]);
    assert MovedAt(raw, u, r, w, elected, owner, newTail, i);
    assert r.chains[i] == u.chains[i] && Live(s.chains, i) && s.chains[i].fork == r.chains[i].fork;
    var f: nat := s.chains[i].fork.outer;
    assert Overtaken(raw, u.chains, u.owner, f);
    OneOvertaken(raw, s.chains, s.owner, owner, elected, fo, f);
    if f == fo { OneMoves(raw, s, u, fo, elected, r, newTail, i); }
  }

  /** Whoever still waits behind fo after the splice may move on: it opens like fo, and so does the new end. */
  lemma OneMoves(raw: Reqs, s: Stage, u: Stage, fo: nat, elected: nat, r: Stage, newTail: nat, i: int)
    requires SplicedTo(raw, s, u, fo, elected, r, newTail) && Live(u.chains, i) && Live(s.chains, i)
    requires i in s.forks[fo]
    ensures i != elected && CanRekey(raw, u.chains, i, elected, newTail)
  {
    hide Linked, LastHash, MayFollow, Bearing, Lcp, Partition, LiveOf;
    assert Registered(raw, s.chains, s.owner, fo, i) && ChainOk(raw, s.chains, i);
    SharesOpening(raw, fo, newTail, s.chains[i].requests[0]);
  }

  // ---- progress of splicing ----

  ghost function LiveSet(chains: seq<Chain>): set<nat> {
    set i: nat | i < |chains| && chains[i].splicedInto < 0
  }

  lemma {:induction false} LeastOf(s: set<nat>)
    requires s != {}
    ensures exists y :: y in s && forall x :: x in s ==> y <= x
    decreases s
  {
    var y :| y in s;
    var t := set x | x in s && x < y;
    assert y in s && y !in t;
    if w :| w in t {
      LeastOf(t);
      var z :| z in t && forall x :: x in t ==> z <= x;
      forall x | x in s
        ensures z <= x
      {
        assert x < y ==> x in t;
      }
    } else {
      forall x | x in s
        ensures y <= x
      {
        assert x in t <==> x < y;
      }
    }
  }

  lemma LeastKey(keys: multiset<nat>)
    requires keys != multiset{}
    ensures exists fo :: fo in keys && forall x :: x in keys ==> fo <= x
  {
    var y :| y in keys;
    var s := set x | x in keys;
    assert y in s;
    LeastOf(s);
    var z :| z in s && forall x :: x in s ==> z <= x;
    forall x | x in keys
      ensures z <= x
    {
      assert x in s;
    }
  }

  ghost predicate Aliases(chains: seq<Chain>, alias: map<nat, nat>) {
    && (forall i: nat :: i in alias <==> i < |chains| && chains[i].splicedInto >= 0)
    && (forall i :: i in alias ==> alias[i] == chains[i].splicedInto)
  }

  lemma ForkPlaced(raw: Reqs, chains: seq<Chain>, chainOf: map<nat, nat>, forks: map<nat, seq<nat>>, fo: nat)
    requires Good(raw, chains, chainOf, forks) && fo in forks
    ensures fo in chainOf && Live(chains, chainOf[fo]) && fo in raw && fo in chains[chainOf[fo]].requests
    ensures forall i :: i in forks[fo] ==> chainOf[fo] < i < |chains|
  {
    assert forks[fo][0] in forks[fo];
    assert Registered(raw, chains, chainOf, fo, forks[fo][0]);
    forall i | i in forks[fo]
      ensures chainOf[fo] < i < |chains|
    {
      assert Registered(raw, chains, chainOf, fo, i);
    }
  }

  lemma AliasSmaller(raw: Reqs, chains: seq<Chain>, chainOf: map<nat, nat>, forks: map<nat, seq<nat>>,
                     alias: map<nat, nat>)
    requires Good(raw, chains, chainOf, forks) && Aliases(chains, alias)
    ensures forall j :: j in alias ==> alias[j] < j
    ensures forall x :: x in chainOf ==> chainOf[x] !in alias
  {
    forall j | j in alias
      ensures alias[j] < j
    {
      assert ChainOk(raw, chains, j);
    }
  }

  lemma OvertakenIs(raw: Reqs, chains: seq<Chain>, chainOf: map<nat, nat>, forks: map<nat, seq<nat>>, fo: nat)
    requires fo in chainOf && chainOf[fo] < |chains| && LastHash(raw, chains[chainOf[fo]].requests) != fo
    ensures Overtaken(raw, chains, chainOf, fo)
  {
  }

  lemma OvertakenSpent(raw: Reqs, chains: seq<Chain>, chainOf: map<nat, nat>, forks: map<nat, seq<nat>>, fo: nat)
    requires Overtaken(raw, chains, chainOf, fo)
    ensures Spent(raw, chains, chainOf, forks, fo)
  {
  }

  lemma NoneSpent(raw: Reqs, chains: seq<Chain>, chainOf: map<nat, nat>, forks: map<nat, seq<nat>>,
                  registered: seq<nat>, fo: nat)
    requires fo in forks && forall i :: i in registered <==> i in forks[fo] && Live(chains, i)
    requires Elected(raw, chains, registered, fo, -1)
    ensures Spent(raw, chains, chainOf, forks, fo)
  {
  }

  lemma ElectedFollows(raw: Reqs, chains: seq<Chain>, chainOf: map<nat, nat>, forks: map<nat, seq<nat>>,
                       fo: nat, owner: nat, elected: nat, registered: seq<nat>)
    requires Good(raw, chains, chainOf, forks) && fo in forks && fo in chainOf && owner == chainOf[fo]
    requires forall i :: i in registered <==> i in forks[fo] && Live(chains, i)
    requires Elected(raw, chains, registered, fo, elected)
    ensures elected < |chains| && Live(chains, elected) && Live(chains, owner) && owner < elected
    ensures chains[elected].requests != [] && Follows(raw, fo, chains[elected].requests[0])
  {
    assert Registered(raw, chains, chainOf, fo, elected);
  }

  lemma SpliceLive(chains: seq<Chain>, owner: nat, elected: nat)
    requires Live(chains, owner) && Live(chains, elected) && owner < elected
    ensures elected in LiveSet(chains) && LiveSet(Spliced(chains, owner, elected)) == LiveSet(chains) - {elected}
    ensures |Spliced(chains, owner, elected)| == |chains|
  {
  }

  lemma MovedKeys(chainOf: map<nat, nat>, moved: seq<nat>, owner: nat)
    ensures Moved(chainOf, moved, owner).Keys == chainOf.Keys
  {
  }

  lemma SplicedAliases(chains: seq<Chain>, alias: map<nat, nat>, owner: nat, elected: nat)
    requires Aliases(chains, alias) && Live(chains, owner) && Live(chains, elected) && owner < elected
    ensures Aliases(Spliced(chains, owner, elected), alias[elected := owner])
  {
  }

  lemma EndPlaced(raw: Reqs, chains: seq<Chain>, chainOf: map<nat, nat>, forks: map<nat, seq<nat>>, owner: nat)
    requires Good(raw, chains, chainOf, forks) && Live(chains, owner)
    ensures var x := LastHash(raw, chains[owner].requests); (
      x == -1 || (x >= 0 && x in chainOf && chainOf[x] == owner && x in raw))
  {
    LastIn(raw, chains[owner].requests);
    if LastHash(raw, chains[owner].requests) >= 0 { TailPlaced(raw, chains, chainOf, owner); }
  }

  lemma SplicedOwner(chains: seq<Chain>, owner: nat, elected: nat)
    requires Live(chains, owner) && Live(chains, elected) && owner < elected
    ensures Live(Spliced(chains, owner, elected), owner) && |Spliced(chains, owner, elected)| == |chains|
  {
  }

  lemma SplicedLeftovers(raw: Reqs, chains: seq<Chain>, chainOf: map<nat, nat>, forks: map<nat, seq<nat>>, owner: nat,
                         elected: nat, fo: nat, newTail: nat, registered: seq<nat>)
    requires Good(raw, chains, chainOf, forks) && fo in forks && fo in chainOf && owner == chainOf[fo] &&
      owner < elected < |chains|
    requires LastHash(raw, chains[owner].requests) == fo
    requires forall i :: i in registered <==> i in forks[fo] && Live(chains, i)
    ensures forall i :: i in registered ==> Leftover(Spliced(chains, owner, elected), owner, fo, newTail, i)
  {
    hide LastHash, Partition, ChainsOk, SameOpening;
    forall i | i in registered
      ensures Leftover(Spliced(chains, owner, elected), owner, fo, newTail, i)
    {
      assert Registered(raw, chains, chainOf, fo, i);
    }
  }

  lemma SameLive(chains0: seq<Chain>, chains: seq<Chain>, alias: map<nat, nat>)
    requires SameRequests(chains0, chains) && Aliases(chains0, alias)
    ensures LiveSet(chains) == LiveSet(chains0) && Aliases(chains, alias) && |chains| == |chains0|
  {
  }

  lemma EndNotBefore(raw: Reqs, chains: seq<Chain>, chainOf: map<nat, nat>, forks: map<nat, seq<nat>>, owner: nat,
                     fo: nat, newTail: nat)
    requires Overtaken(raw, chains, chainOf, fo) && newTail in chainOf && chainOf[newTail] == owner && owner < |chains|
    requires LastHash(raw, chains[owner].requests) == newTail
    ensures fo != newTail
  {
  }

  lemma NoAliases(chains: seq<Chain>)
    requires forall i :: 0 <= i < |chains| ==> chains[i].splicedInto < 0
    ensures Aliases(chains, map[])
  {
  }

  // ---- the whole detection ----

  lemma LinkedAt(raw: Reqs, s: seq<nat>, k: nat)
    requires Linked(raw, s) && 0 < k < |Bearing(raw, s)|
    ensures Follows(raw, Bearing(raw, s)[k - 1], Bearing(raw, s)[k])
  {
    hide Follows, Bearing;
  }

  /** All block-bearing requests of one chain open with the same block and address the same model. */
  lemma {:induction false} OneOpening(raw: Reqs, s: seq<nat>, j: nat, k: nat)
    requires Linked(raw, s) && j < k < |Bearing(raw, s)|
    ensures SameOpening(raw, Bearing(raw, s)[j], Bearing(raw, s)[k])
    ensures raw[Bearing(raw, s)[j]].model == raw[Bearing(raw, s)[k]].model
    decreases k - j
  {
    hide Bearing, Linked;
    LinkedAt(raw, s, k);
    if j < k - 1 { OneOpening(raw, s, j, k - 1); }
  }

  lemma SamePartition(raw: Reqs, chains: seq<Chain>, d: seq<Chain>, chainOf: map<nat, nat>)
    requires Partition(raw, chains, chainOf) && SameRequests(chains, d)
    ensures Partition(raw, d, chainOf) && forall i :: Live(d, i) <==> Live(chains, i)
  {
  }

  /** The chain that chain i ended up in. */
  function Final(chains: seq<Chain>, i: nat): nat
    requires i < |chains| && forall j :: 0 <= j < |chains| ==> chains[j].splicedInto < j
  {
    if chains[i].splicedInto < 0 then i else Final(chains, chains[i].splicedInto)
  }

  /** In d, every live chain of c names as its parent the chain that its parent ended up in. */
  ghost predicate Parented(c: seq<Chain>, d: seq<Chain>)
    requires forall j :: 0 <= j < |c| ==> c[j].splicedInto < j
  {
    |d| == |c| && forall i {:trigger d[i]} :: 0 <= i < |c| ==> ParentedAt(c, d[i], i)
  }

  ghost predicate ParentedAt(c: seq<Chain>, m: Chain, i: nat)
    requires i < |c| && forall j :: 0 <= j < |c| ==> c[j].splicedInto < j
  {
    if c[i].splicedInto < 0 && c[i].hasFork && 0 <= c[i].fork.parent < |c|
    then m == c[i].(fork := c[i].fork.(parent := Final(c, c[i].fork.parent)))
    else m == c[i]
  }

  lemma SplicedDown(raw: Reqs, chains: seq<Chain>)
    requires ChainsOk(raw, chains)
    ensures forall j :: 0 <= j < |chains| ==> chains[j].splicedInto < j
  {
  }

  /** Forks name the live chain their parent ended up in. */
  ghost predicate ParentsLive(chains: seq<Chain>) {
    forall i {:trigger chains[i]} :: Live(chains, i) && chains[i].fork.parent >= 0 ==>
      chains[i].fork.parent < i && Live(chains, chains[i].fork.parent)
  }

  method ResolveParents(raw: Reqs, chains: seq<Chain>) returns (out: seq<Chain>)
    requires ChainsOk(raw, chains)
    ensures SameRequests(chains, out) && ParentsLive(out)
    ensures (forall j :: 0 <= j < |chains| ==> chains[j].splicedInto < j) && Parented(chains, out)
  {
    hide Linked;
    SplicedDown(raw, chains);
    out := [];
    for i := 0 to |chains|
      invariant |out| == i
      invariant forall j {:trigger out[j]} :: 0 <= j < i ==> ParentedAt(chains, out[j], j)
      invariant forall j {:trigger out[j]} :: 0 <= j < i ==> out[j] == chains[j].(fork := out[j].fork)
      invariant forall j {:trigger out[j]} :: 0 <= j < i && Live(chains, j) && out[j].fork.parent >= 0 ==>
        out[j].fork.parent < j && Live(chains, out[j].fork.parent)
    {
      var c := chains[i];
      assert ChainOk(raw, chains, i);
      if c.splicedInto < 0 && c.hasFork && c.fork.parent >= 0 {
        var r: nat := c.fork.parent;
        while chains[r].splicedInto >= 0
          invariant r < i && Final(chains, r) == Final(chains, c.fork.parent)
          decreases r
        {
          assert ChainOk(raw, chains, r);
          r := chains[r].splicedInto;
        }
        c := c.(fork := c.fork.(parent := r));
      } else if c.splicedInto < 0 {
        NoParent(raw, chains, i);
      }
      out := out + [c];
    }
    assert forall j :: Live(out, j) <==> Live(chains, j);
  }

  /** The request that opens the first chain opens it for good. */
  ghost predicate OpenedBy(chains: seq<Chain>, x: nat) {
    chains != [] && chains[0].requests != [] && chains[0].requests[0] == x
  }

  lemma ClassifiedOpened(raw: Reqs, c: seq<Chain>, f: map<nat, seq<nat>>, y: nat, d: seq<Chain>, g: map<nat, seq<nat>>,
                         x: nat)
    requires y in raw && Classified(raw, c, f, y, d, g) && (if c == [] then y == x else OpenedBy(c, x))
    ensures OpenedBy(d, x)
  {
    hide ForkOff, Registering, NoTails, Extends, Depth, TailLen;
    if c == [] {
      assert d[0].requests == [] + [y];
    } else {
      assert (c[0].requests + [y])[0] == x;
      if raw[y].hashes != [] {
        var best :| BestExtension(raw, c, raw[y].hashes, raw[y].t, raw[y].model, |c|, best) &&
          Joined(raw, c, f, y, best, d, g);
        if best < 0 && !NoTails(raw, c) {
          var p :| BestParent(raw, c, raw[y].hashes, |c|, p) && Opened(raw, c, f, y, p, d, g);
          assert d[0] == c[0];
        }
      }
    }
  }

  lemma {:induction false} GrownOpened(raw: Reqs, s: seq<nat>, c: seq<Chain>, f: map<nat, seq<nat>>)
    requires Grown(raw, s, c, f) && s != []
    ensures OpenedBy(c, s[0])
    decreases |s|
  {
    hide Classified, OpenedBy;
    var n := |s| - 1;
    assert GrownBy(raw, s[..n], s[n], c, f);
    var c0, f0 :| Grown(raw, s[..n], c0, f0) && Classified(raw, c0, f0, s[n], c, f);
    if n > 0 {
      GrownOpened(raw, s[..n], c0, f0);
      OpenedSome(c0, s[0]);
    }
    ClassifiedOpened(raw, c0, f0, s[n], c, f, s[0]);
  }

  lemma OpenedSome(c: seq<Chain>, x: nat)
    requires OpenedBy(c, x)
    ensures c != []
  {
  }

  lemma {:induction false} RekeyOpened(raw: Reqs, s: Stage, waiting: seq<nat>, elected: nat, owner: nat, newTail: nat,
                                       x: nat)
    requires OpenedBy(s.chains, x)
    ensures OpenedBy(RekeyAll(raw, s, waiting, elected, owner, newTail).chains, x)
    decreases |waiting|
  {
    if waiting != [] { RekeyOpened(raw, s, waiting[..|waiting| - 1], elected, owner, newTail, x); }
  }

  lemma SpliceOpened(raw: Reqs, u: Stage, fo: nat, elected: nat, r: Stage, x: nat)
    requires SplicedBehind(raw, u, fo, elected, r) && OpenedBy(u.chains, x)
    ensures OpenedBy(r.chains, x)
  {
    hide Elected, LiveOf, RekeyAll, Moved;
    var owner := u.owner[fo];
    var v := Stage(Spliced(u.chains, owner, elected), Moved(u.owner, u.chains[elected].requests, owner), u.forks);
    assert OpenedBy(v.chains, x);
    var newTail := LastHash(raw, v.chains[owner].requests);
    if newTail >= 0 { RekeyOpened(raw, v, LiveOf(u.chains, u.forks[fo]), elected, owner, newTail, x); }
  }

  lemma {:induction false} SewnOpened(raw: Reqs, s: Stage, r: Stage, n: nat, x: nat)
    requires Sewn(raw, s, r, n) && OpenedBy(s.chains, x)
    ensures OpenedBy(r.chains, x)
    decreases n
  {
    hide SplicedBehind, OpenedBy;
    if n > 0 {
      var u: Stage, fo: nat, elected: nat :| Sewn(raw, s, u, n - 1) && SplicedBehind(raw, u, fo, elected, r);
      SewnOpened(raw, s, u, n - 1, x);
      SpliceOpened(raw, u, fo, elected, r, x);
    }
  }

  /** A chain forks off a request of its parent, a spliced chain lives on in another, and tails are requests. */
  ghost predicate Rooted(chains: seq<Chain>) {
    forall i :: 0 <= i < |chains| ==> RootedAt(chains, i)
  }

  ghost predicate RootedAt(chains: seq<Chain>, i: int)
    requires 0 <= i < |chains|
  {
    var c := chains[i];
    && (c.tailOuter >= 0 ==> c.tailOuter in c.requests)
    && (c.hasFork && c.fork.parent >= 0 ==>
          c.fork.parent < |chains| && c.fork.outer in chains[c.fork.parent].requests)
    && (c.splicedInto >= 0 ==>
          c.splicedInto < |chains| && forall x :: x in c.requests ==> x in chains[c.splicedInto].requests)
  }

  /** Chains only gain requests from c to d, and forks and splices stay. */
  lemma RootedStays(c: seq<Chain>, d: seq<Chain>, i: int)
    requires 0 <= i < |c| <= |d| && RootedAt(c, i)
    requires forall j :: 0 <= j < |c| ==> c[j].requests <= d[j].requests
    requires d[i].hasFork == c[i].hasFork && d[i].fork == c[i].fork && d[i].splicedInto == c[i].splicedInto
    requires c[i].splicedInto >= 0 ==> d[i].requests == c[i].requests
    requires d[i].tailOuter == c[i].tailOuter || d[i].tailOuter in d[i].requests
    ensures RootedAt(d, i)
  {
    assert c[i].requests <= d[i].requests;
    if c[i].hasFork && c[i].fork.parent >= 0 { assert c[c[i].fork.parent].requests <= d[c[i].fork.parent].requests; }
    if c[i].splicedInto >= 0 { assert c[c[i].splicedInto].requests <= d[c[i].splicedInto].requests; }
  }

  lemma JoinedRooted(raw: Reqs, c: seq<Chain>, i: nat, x: nat)
    requires Rooted(c) && NoneSpliced(c) && i < |c|
    ensures Rooted(c[i := WithRequest(raw, c[i], x)]) && NoneSpliced(c[i := WithRequest(raw, c[i], x)])
  {
    var d := c[i := WithRequest(raw, c[i], x)];
    forall j | 0 <= j < |d|
      ensures RootedAt(d, j)
    {
      RootedStays(c, d, j);
    }
  }

  ghost predicate NoneSpliced(c: seq<Chain>) {
    forall j :: 0 <= j < |c| ==> c[j].splicedInto < 0
  }

  lemma OpenedRooted(raw: Reqs, c: seq<Chain>, f: map<nat, seq<nat>>, x: nat, p: int, d: seq<Chain>,
                     g: map<nat, seq<nat>>)
    requires Rooted(c) && x in raw && BestParent(raw, c, raw[x].hashes, |c|, p) && Opened(raw, c, f, x, p, d, g)
    requires NoneSpliced(c)
    ensures Rooted(d) && NoneSpliced(d)
  {
    forall j | 0 <= j < |d|
      ensures RootedAt(d, j)
    {
      if j < |c| {
        RootedStays(c, d, j);
      } else if p >= 0 {
        assert RootedAt(c, p);
      }
    }
  }

  lemma ClassifiedRooted(raw: Reqs, c: seq<Chain>, f: map<nat, seq<nat>>, x: nat, d: seq<Chain>,
                         g: map<nat, seq<nat>>)
    requires x in raw && Rooted(c) && NoneSpliced(c) && Classified(raw, c, f, x, d, g)
    ensures Rooted(d) && NoneSpliced(d)
  {
    hide Rooted, Extends, Depth, TailLen, NoTails, Registering, ForkOff;
    if c == [] {
      RootedOne(d);
    } else if raw[x].hashes == [] {
      JoinedRooted(raw, c, 0, x);
    } else {
      var best :| BestExtension(raw, c, raw[x].hashes, raw[x].t, raw[x].model, |c|, best) &&
        Joined(raw, c, f, x, best, d, g);
      if best >= 0 {
        JoinedRooted(raw, c, best, x);
      } else if NoTails(raw, c) {
        JoinedRooted(raw, c, 0, x);
      } else {
        var p :| BestParent(raw, c, raw[x].hashes, |c|, p) && Opened(raw, c, f, x, p, d, g);
        OpenedRooted(raw, c, f, x, p, d, g);
      }
    }
  }

  lemma RootedOne(d: seq<Chain>)
    requires |d| == 1 && RootedAt(d, 0)
    ensures Rooted(d)
  {
  }

  lemma {:induction false} GrownRooted(raw: Reqs, s: seq<nat>, c: seq<Chain>, f: map<nat, seq<nat>>)
    requires Grown(raw, s, c, f)
    ensures Rooted(c) && NoneSpliced(c)
    decreases |s|
  {
    hide Classified;
    if s != [] {
      hide Rooted, NoneSpliced;
      var n := |s| - 1;
      assert GrownBy(raw, s[..n], s[n], c, f);
      var c0, f0 :| Grown(raw, s[..n], c0, f0) && Classified(raw, c0, f0, s[n], c, f);
      GrownRooted(raw, s[..n], c0, f0);
      ClassifiedRooted(raw, c0, f0, s[n], c, f);
    }
  }

  lemma SplicedRooted(chains: seq<Chain>, owner: nat, elected: nat)
    requires Rooted(chains) && owner < |chains| && elected < |chains| && chains[owner].splicedInto < 0
    ensures Rooted(Spliced(chains, owner, elected))
    ensures owner != elected ==> chains[owner].requests <= Spliced(chains, owner, elected)[owner].requests
  {
    var d := Spliced(chains, owner, elected);
    forall j | 0 <= j < |d|
      ensures RootedAt(d, j)
    {
      if j != elected {
        RootedStays(chains, d, j);
      } else {
        RootedStays(chains, d[j := chains[j]], j);
      }
    }
  }

  lemma RekeyRooted(raw: Reqs, s: Stage, r: Stage, waiting: seq<nat>, elected: nat, owner: nat, newTail: nat)
    requires Rooted(s.chains) && MovedOn(raw, s, r, waiting, elected, owner, newTail)
    requires owner < |s.chains| && newTail in s.chains[owner].requests
    ensures Rooted(r.chains)
  {
    forall j | 0 <= j < |r.chains|
      ensures RootedAt(r.chains, j)
    {
      assert RootedAt(s.chains, j) && MovedAt(raw, s, r, waiting, elected, owner, newTail, j);
    }
  }

  lemma SpliceRooted(raw: Reqs, u: Stage, fo: nat, elected: nat, r: Stage)
    requires SplicedBehind(raw, u, fo, elected, r) && Rooted(u.chains)
    ensures Rooted(r.chains)
  {
    hide Elected, LiveOf, RekeyAll, Moved, Rooted;
    var owner := u.owner[fo];
    SplicedRooted(u.chains, owner, elected);
    var v := Stage(Spliced(u.chains, owner, elected), Moved(u.owner, u.chains[elected].requests, owner), u.forks);
    var newTail := LastHash(raw, v.chains[owner].requests);
    if newTail >= 0 {
      LastIn(raw, v.chains[owner].requests);
      RekeyIs(raw, v, LiveOf(u.chains, u.forks[fo]), elected, owner, newTail);
      RekeyRooted(raw, v, r, LiveOf(u.chains, u.forks[fo]), elected, owner, newTail);
    }
  }

  lemma {:induction false} SewnRooted(raw: Reqs, s: Stage, r: Stage, n: nat)
    requires Sewn(raw, s, r, n) && Rooted(s.chains)
    ensures Rooted(r.chains)
    decreases n
  {
    hide SplicedBehind, Rooted;
    if n > 0 {
      var u: Stage, fo: nat, elected: nat :| Sewn(raw, s, u, n - 1) && SplicedBehind(raw, u, fo, elected, r);
      SewnRooted(raw, s, u, n - 1);
      SpliceRooted(raw, u, fo, elected, r);
    }
  }

  /** What a chain held is held by the chain it ended up in. */
  lemma {:induction false} FinalHolds(chains: seq<Chain>, i: nat, x: nat)
    requires Rooted(chains) && i < |chains| && (forall j :: 0 <= j < |chains| ==> chains[j].splicedInto < j)
    requires x in chains[i].requests
    ensures Live(chains, Final(chains, i)) && x in chains[Final(chains, i)].requests
    decreases i
  {
    assert RootedAt(chains, i);
    if chains[i].splicedInto >= 0 { FinalHolds(chains, chains[i].splicedInto, x); }
  }

  /** The parent of a chain is the chain that now holds the request it forked off. */
  ghost predicate Homed(chains: seq<Chain>, owner: map<nat, nat>) {
    forall i {:trigger chains[i]} :: Live(chains, i) && chains[i].hasFork && chains[i].fork.parent >= 0 ==>
      chains[i].fork.outer in owner && owner[chains[i].fork.outer] == chains[i].fork.parent
  }

  lemma ParentsHome(raw: Reqs, c: seq<Chain>, d: seq<Chain>, owner: map<nat, nat>)
    requires Rooted(c) && (forall j :: 0 <= j < |c| ==> c[j].splicedInto < j) && Parented(c, d)
    requires Partition(raw, c, owner)
    ensures Homed(d, owner)
  {
    hide Rooted;
    forall i {:trigger d[i]} | Live(d, i) && d[i].hasFork && d[i].fork.parent >= 0
      ensures d[i].fork.outer in owner && owner[d[i].fork.outer] == d[i].fork.parent
    {
      assert ParentedAt(c, d[i], i);
      RootedOf(c, i);
      var p: nat := c[i].fork.parent;
      FinalHolds(c, p, c[i].fork.outer);
    }
  }

  lemma RootedOf(c: seq<Chain>, i: nat)
    requires Rooted(c) && i < |c|
    ensures RootedAt(c, i)
  {
  }

  /** The requests of s in the order of their start, ties in file order. */
  ghost predicate InTime(raw: Reqs, s: seq<nat>) {
    forall j, k :: 0 <= j < k < |s| ==> Sooner(raw, s[j], s[k])
  }

  method InTimeOrder(raw: Reqs, items: seq<nat>) returns (sorted: seq<nat>)
    requires (forall x :: x in items ==> x in raw) && Distinct(items)
    ensures multiset(sorted) == multiset(items) && InTime(raw, sorted) && Distinct(sorted)
    ensures forall x :: x in sorted <==> x in items
  {
    var heads := map x | x in items :: x;
    sorted := SortByTime(raw, heads, items);
    SameMembers(sorted, items);
  }

  /** The agent chains of a list of requests, taken in the order of their start. */
  method DetectAgentChains(raw: Reqs, items: seq<nat>)
    returns (chains: seq<Chain>, mainIndex: nat, workers: seq<nat>, ghost sorted: seq<nat>, ghost owner: map<nat, nat>,
             ghost grown: Stage, ghost sewn: Stage, ghost n: nat)
    requires (forall x :: x in items ==> x in raw) && Distinct(items)
    ensures multiset(sorted) == multiset(items) && InTime(raw, sorted)
    ensures Partition(raw, chains, owner) && forall x :: x in owner <==> x in items
    ensures forall i {:trigger chains[i]} :: Live(chains, i) ==>
      Linked(raw, chains[i].requests) && chains[i].requests != []
    ensures Grown(raw, sorted, grown.chains, grown.forks) && Sewn(raw, grown, sewn, n)
    ensures Partition(raw, sewn.chains, sewn.owner)
    ensures forall fo :: fo in sewn.forks ==> Spent(raw, sewn.chains, sewn.owner, sewn.forks, fo)
    ensures Waits(sewn.chains, sewn.forks) && NoneLeft(raw, grown, sewn)
    ensures (forall j :: 0 <= j < |sewn.chains| ==> sewn.chains[j].splicedInto < j) && Parented(sewn.chains, chains)
    ensures ParentsLive(chains) && Homed(chains, owner)
    ensures items != [] ==> sorted != [] && mainIndex == 0 && Live(chains, 0) && chains[0].requests[0] == sorted[0]
    ensures items == [] ==> chains == [] && mainIndex == 0
    ensures forall i :: i in workers <==> Live(chains, i) && i != mainIndex
    ensures Distinct(workers) && WorkersInTime(raw, chains, workers)
  {
    hide Linked, Partition, Good, Tails, ParentsLive, Parented, Spent, SameRequests, ChainsOk, Grown, Sewn, InTime,
         Waits, NoneLeft, Rooted, NoneSpliced, Homed;
    var d := new Detector(raw);
    var order := InTimeOrder(raw, items);
    sorted := order;
    d.ClassifyAll(order);
    AllLive(raw, d.chains, d.chainOf, d.forks);
    grown := Stage(d.chains, d.chainOf, d.forks);
    n := d.ResolveSeams();
    sewn := Stage(d.chains, d.chainOf, d.forks);
    GoodParts(raw, d.chains, d.chainOf, d.forks);
    chains := ResolveParents(raw, d.chains);
    SamePartition(raw, d.chains, chains, d.chainOf);
    SameLinked(raw, d.chains, chains);
    owner := d.chainOf;
    GrownRooted(raw, order, grown.chains, grown.forks);
    SewnRooted(raw, grown, sewn, n);
    ParentsHome(raw, sewn.chains, chains, owner);
    mainIndex := 0;
    if order != [] {
      assert order[0] in d.chainOf;
      Placed(raw, chains, d.chainOf, order[0]);
      mainIndex := d.chainOf[order[0]];
      GrownOpened(raw, order, grown.chains, grown.forks);
      SewnOpened(raw, grown, sewn, n, order[0]);
      FirstIsMain(raw, sewn.chains, chains, owner, order[0]);
    } else {
      FirstOwned(raw, d.chains, chains, d.chainOf);
    }
    workers := WorkersOf(raw, chains, mainIndex, owner);
  }

  lemma FirstOwned(raw: Reqs, c: seq<Chain>, chains: seq<Chain>, chainOf: map<nat, nat>)
    requires Partition(raw, c, chainOf) && ChainsOk(raw, c) && SameRequests(c, chains)
    ensures chains != [] ==> chains[0].requests != [] && chains[0].requests[0] in chainOf
  {
    if chains != [] {
      assert ChainOk(raw, c, 0) && Live(c, 0);
      assert c[0].requests[0] in chainOf;
    }
  }

  lemma FirstIsMain(raw: Reqs, c: seq<Chain>, d: seq<Chain>, owner: map<nat, nat>, x: nat)
    requires OpenedBy(c, x) && SameRequests(c, d) && ChainsOk(raw, c) && Partition(raw, d, owner)
    ensures Live(d, 0) && d[0].requests[0] == x && x in owner && owner[x] == 0
  {
    assert ChainOk(raw, c, 0);
    assert d[0].requests[0] == x;
  }

  /** Chains in the order of their first requests. */
  ghost predicate WorkersInTime(raw: Reqs, chains: seq<Chain>, workers: seq<nat>) {
    forall j, k :: 0 <= j < k < |workers| ==> OpensSooner(raw, chains, workers[j], workers[k])
  }

  ghost predicate OpensSooner(raw: Reqs, chains: seq<Chain>, a: nat, b: nat) {
    && a < |chains| && b < |chains| && chains[a].requests != [] && chains[b].requests != []
    && Sooner(raw, chains[a].requests[0], chains[b].requests[0])
  }

  /** Every chain that was not spliced away, but the main one, in the order of their first requests. */
  method WorkersOf(raw: Reqs, chains: seq<Chain>, mainIndex: nat, ghost owner: map<nat, nat>)
    returns (workers: seq<nat>)
    requires Partition(raw, chains, owner) &&
      forall i {:trigger chains[i]} :: Live(chains, i) ==> chains[i].requests != []
    ensures forall i :: i in workers <==> Live(chains, i) && i != mainIndex
    ensures Distinct(workers) && WorkersInTime(raw, chains, workers)
  {
    hide Partition, Timely;
    var found: seq<nat> := [];
    for i := 0 to |chains|
      invariant forall j :: j in found <==> j < i && Live(chains, j) && j != mainIndex
      invariant forall j, k :: 0 <= j < k < |found| ==> found[j] < found[k]
    {
      assert forall j :: 0 <= j < |found| ==> found[j] in found;
      if chains[i].splicedInto < 0 && i != mainIndex { found := found + [i]; }
    }
    HeadsApart(raw, chains, owner, found);
    var heads := map i | i in found :: chains[i].requests[0];
    workers := SortByTime(raw, heads, found);
    SameMembers(workers, found);
    TimelyApart(raw, chains, heads, workers);
  }

  lemma TimelyApart(raw: Reqs, chains: seq<Chain>, heads: map<nat, nat>, s: seq<nat>)
    requires Timely(raw, heads, s)
    requires forall i :: i in heads ==> i < |chains| && chains[i].requests != [] && heads[i] == chains[i].requests[0]
    ensures Distinct(s) && WorkersInTime(raw, chains, s)
  {
    forall j, k | 0 <= j < k < |s|
      ensures s[j] != s[k] && OpensSooner(raw, chains, s[j], s[k])
    {
      assert HeadSooner(raw, heads, s[j], s[k]);
    }
  }

  lemma HeadsApart(raw: Reqs, chains: seq<Chain>, owner: map<nat, nat>, s: seq<nat>)
    requires Partition(raw, chains, owner) &&
      forall i {:trigger chains[i]} :: Live(chains, i) ==> chains[i].requests != []
    requires (forall j, k :: 0 <= j < k < |s| ==> s[j] < s[k]) && forall i :: i in s ==> Live(chains, i)
    ensures forall i :: i in s ==> i < |chains| && chains[i].requests != [] && chains[i].requests[0] in raw
    ensures forall j, k :: 0 <= j < k < |s| ==>
      s[j] in s && s[k] in s && chains[s[j]].requests[0] != chains[s[k]].requests[0]
  {
    forall i | i in s
      ensures i < |chains| && chains[i].requests != []
      ensures chains[i].requests[0] in raw && chains[i].requests[0] in owner && owner[chains[i].requests[0]] == i
    {
      assert Live(chains, i);
    }
    assert forall j :: 0 <= j < |s| ==> s[j] in s;
  }

  lemma NoParent(raw: Reqs, chains: seq<Chain>, i: nat)
    requires i < |chains| && ChainOk(raw, chains, i) && !(chains[i].hasFork && chains[i].fork.parent >= 0)
    ensures chains[i].fork.parent < 0
  {
  }

  lemma AllLive(raw: Reqs, chains: seq<Chain>, chainOf: map<nat, nat>, forks: map<nat, seq<nat>>)
    requires Good(raw, chains, chainOf, forks) && Tails(raw, chains)
    ensures forall i :: 0 <= i < |chains| ==> chains[i].splicedInto < 0
  {
  }

  lemma GoodParts(raw: Reqs, chains: seq<Chain>, chainOf: map<nat, nat>, forks: map<nat, seq<nat>>)
    requires Good(raw, chains, chainOf, forks)
    ensures Partition(raw, chains, chainOf) && ChainsOk(raw, chains)
  {
  }

  lemma SameLinked(raw: Reqs, chains: seq<Chain>, d: seq<Chain>)
    requires ChainsOk(raw, chains) && SameRequests(chains, d)
    ensures forall i {:trigger d[i]} :: 0 <= i < |d| ==> Linked(raw, d[i].requests) && d[i].requests != []
  {
  }

  lemma Placed(raw: Reqs, chains: seq<Chain>, chainOf: map<nat, nat>, x: nat)
    requires Partition(raw, chains, chainOf) && x in chainOf
    ensures Live(chains, chainOf[x]) && x in chains[chainOf[x]].requests
  {
  }
}
