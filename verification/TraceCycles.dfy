/** Two files whose session graphs have a cycle, and what the sufficient condition for none cannot do without. */
module TraceCycles {
  import opened Commons

  import opened AgentChains
  import opened TraceBuild
  import SessionGraph

  // ---- what the detector did, step by step ----

  lemma GrowLast(raw: Reqs, s: seq<nat>, x: nat, c: seq<Chain>, f: map<nat, seq<nat>>)
    returns (c0: seq<Chain>, f0: map<nat, seq<nat>>)
    requires Grown(raw, s + [x], c, f)
    ensures x in raw && Grown(raw, s, c0, f0) && Classified(raw, c0, f0, x, c, f)
  {
    hide Classified;
    var u := s + [x];
    assert u[..|u| - 1] == s && u[|u| - 1] == x;
    assert GrownBy(raw, s, x, c, f);
    c0, f0 :| Grown(raw, s, c0, f0) && Classified(raw, c0, f0, x, c, f);
  }

  lemma GrowFirst(raw: Reqs, x: nat, c: seq<Chain>, f: map<nat, seq<nat>>)
    requires Grown(raw, [x], c, f)
    ensures x in raw && c == [WithRequest(raw, FRESH, x)] && f == map[]
  {
    assert [] + [x] == [x];
    var c0, f0 := GrowLast(raw, [], x, c, f);
  }

  /** Without forks nothing is spliced. */
  lemma {:induction false} NoForks(raw: Reqs, s: Stage, r: Stage, n: nat)
    requires Sewn(raw, s, r, n) && s.forks == map[]
    ensures r == s
    decreases n
  {
    hide Elected, SpliceAt;
    if n > 0 {
      var u: Stage, fo: nat, elected: nat :| Sewn(raw, s, u, n - 1) && SplicedBehind(raw, u, fo, elected, r);
      NoForks(raw, s, u, n - 1);
      assert false;
    }
  }

  lemma TwoDiffer(s: seq<nat>)
    requires Distinct(s)
    ensures |s| > 1 ==> s[0] != s[1]
  {
  }

  /** With a single worker chain, that is the only other one. */
  lemma OneWorker(raw: Reqs, chains: seq<Chain>, i: nat, others: seq<seq<nat>>, workers: seq<nat>)
    requires Remaining(raw, chains, workers, others) && Live(chains, i) && i != 0 &&
      forall j :: Live(chains, j) ==> j == 0 || j == i
    ensures others == [chains[i].requests]
  {
    hide WorkersInTime;
    forall k | 0 <= k < |workers|
      ensures workers[k] == i
    {
      assert workers[k] in workers;
      assert Live(chains, workers[k]);
    }
    assert i in workers;
    TwoDiffer(workers);
  }

  /** The flat chain hangs between these two positions of the main chain, the second no later than the first. */
  ghost predicate Hooked(m: seq<Item>, f: seq<Item>, pre: nat, join: nat) {
    && f != [] && join <= pre && pre == SessionGraph.LastBefore(m, f[0].oi, true)
    && join == SessionGraph.FirstJoin(m, f[0].oi, SessionGraph.MaxEnd(f))
  }

  // ---- a file out of time order ----

  /** The request first in the file starts a moment after the second and takes no time. */
  const LATE: Reqs := map[
    0 := Raw(0.0000005, true, 0.0, [2], 0, 100, 1, false),
    1 := Raw(0.0, true, 1.0, [1], 0, 100, 1, false),
    2 := Raw(10.0, true, 1.0, [1, 5], 0, 100, 2, false)]

  lemma LateGrown(c: seq<Chain>, f: map<nat, seq<nat>>)
    requires Grown(LATE, [1, 0, 2], c, f)
    ensures f == map[] && |c| == 2 && c[0].requests == [1, 2] && c[1].requests == [0] &&
      c[0].splicedInto == c[1].splicedInto == -1
  {
    hide Classified, Grown;
    assert [1, 0] + [2] == [1, 0, 2] && [1] + [0] == [1, 0];
    var c2, f2 := GrowLast(LATE, [1, 0], 2, c, f);
    var c1, f1 := GrowLast(LATE, [1], 0, c2, f2);
    GrowFirst(LATE, 1, c1, f1);
    LateSecond(c1, f1, c2, f2);
    LateThird(c2, f2, c, f);
  }

  lemma LateSecond(c1: seq<Chain>, f1: map<nat, seq<nat>>, c2: seq<Chain>, f2: map<nat, seq<nat>>)
    requires c1 == [WithRequest(LATE, FRESH, 1)] && f1 == map[] && Classified(LATE, c1, f1, 0, c2, f2)
    ensures f2 == map[] &&
      c2 == c1 + [WithRequest(LATE, FRESH.(hasFork := true, fork := Fork(-1, -1, 0, 0.0000005)), 0)]
  {
    assert !Extends(LATE, c1[0], [2], 0.0000005, 0);
    assert TailLen(LATE, c1[0]) == 1;
    assert Depth(LATE, c1[0], [2]) == 0;
  }

  lemma LateThird(c2: seq<Chain>, f2: map<nat, seq<nat>>, c3: seq<Chain>, f3: map<nat, seq<nat>>)
    requires f2 == map[] && Classified(LATE, c2, f2, 2, c3, f3)
    requires c2 ==
      [WithRequest(LATE, FRESH, 1), WithRequest(LATE, FRESH.(hasFork := true, fork := Fork(-1, -1, 0, 0.0000005)), 0)]
    ensures f3 == map[] && c3 == c2[0 := WithRequest(LATE, c2[0], 2)]
  {
    assert [1] <= [1, 5];
    assert Extends(LATE, c2[0], [1, 5], 10.0, 0);
    assert [1, 5][0] != [2][0];
    assert !Extends(LATE, c2[1], [1, 5], 10.0, 0);
  }

  lemma LateSorted(s: seq<nat>)
    requires multiset(s) == multiset([0, 1, 2]) && InTime(LATE, s)
    ensures s == [1, 0, 2]
  {
    SameMembers(s, [0, 1, 2]);
    assert |s| == |multiset(s)| == 3;
    assert s[0] in s && s[1] in s && s[2] in s;
    assert Sooner(LATE, s[0], s[1]) && Sooner(LATE, s[1], s[2]);
  }

  lemma LateDetected(main: seq<nat>, others: seq<seq<nat>>)
    requires DetectedAll(LATE, [0, 1, 2], main, others)
    ensures main == [1, 2] && others == [[0]]
  {
    hide Grown, Sewn, InTime, WorkersInTime, Spent;
    LateAlike();
    var sorted, grown, sewn, n :| DetectedBy(LATE, [0, 1, 2], main, others, sorted, grown, sewn, n);
    LateSorted(sorted);
    LateGrown(grown.chains, grown.forks);
    NoForks(LATE, grown, sewn, n);
    var workers :| Remaining(LATE, sewn.chains, workers, others);
    OneWorker(LATE, sewn.chains, 1, others, workers);
  }

  lemma LateAlike()
    ensures forall x :: !IsPreamble(LATE, [0, 1, 2], x)
  {
    assert Lcp([1], [1, 5]) == 1;
    forall x
      ensures !IsPreamble(LATE, [0, 1, 2], x)
    {
      assert 1 in [0, 1, 2] && 2 in [0, 1, 2];
      assert Sooner(LATE, 1, 0) && Sooner(LATE, 1, 2);
    }
  }

  lemma LateHook(main: seq<nat>, flats: seq<seq<nat>>)
    requires main == [1, 2] && flats == [[0]]
    ensures Known(LATE, main) && KnownAll(LATE, flats) && |ChainItems(LATE, flats)[0]| == 1
    ensures Hooked(ItemsOf(LATE, main), ChainItems(LATE, flats)[0], 0, 0)
  {
    var m, f := ItemsOf(LATE, main), ChainItems(LATE, flats)[0];
    assert flats[0] == [0];
    assert f == [ItemOf(LATE, 0)] && m == [ItemOf(LATE, 1), ItemOf(LATE, 2)];
    SessionGraph.LastIs(m, 0, true);
    assert SessionGraph.CanJoin(m[0], 0, SessionGraph.MaxEnd(f));
  }

  lemma LatePlan(main: seq<nat>, flats: seq<seq<nat>>)
    requires Planned(LATE, [0, 1, 2], main, flats)
    ensures main == [1, 2] && flats == [[0]]
  {
    hide DetectedAll;
    if flats == [] {
      var found :| DetectedAll(LATE, [0, 1, 2], found, []);
      LateDetected(found, []);
    } else {
      LateDetected(main, flats);
    }
  }

  /** A file without subagents: a flat chain joined no later than it is spawned closes a cycle. */
  method Trace(raw: Reqs, normals: seq<nat>)
    returns (n: nat, edges: seq<SessionGraph.Edge>, ghost main: seq<nat>, ghost flats: seq<seq<nat>>)
    requires Known(raw, normals) && Filed(normals)
    ensures Planned(raw, normals, main, flats) && Known(raw, main) && KnownAll(raw, flats)
    ensures n == |main| + |CatIds(flats)| && forall e :: e in edges ==> e.from < n && e.to < n
    ensures edges ==
      SessionGraph.Line(0, |main|) + SessionGraph.FlatEdges(ItemsOf(raw, main), ChainItems(raw, flats), |main|)
    ensures flats != [] && !SessionGraph.FlatHook(ItemsOf(raw, main), ChainItems(raw, flats)[0]) ==>
      SessionGraph.Cyclic(edges)
  {
    hide SessionGraph.Cyclic, SessionGraph.Upwards, SessionGraph.FlatHook, SessionGraph.SubHook, Planned, Chained,
         CatIds, FileTimes, Solid, Expanded, SessionGraph.Line, SessionGraph.FlatEdges, SessionGraph.Emitted,
         SessionGraph.Delayed, SessionGraph.TraceMarks, SessionGraph.FileOrder, AllCopied, AllPause, RecordsOf;
    var requests, hashIds, delays;
    ghost var places, hung, recs;
    requests, hashIds, edges, delays, places, main, flats, hung, recs := BuildTrace(raw, normals, []);
    SessionGraph.AllEmitted(requests, hashIds, ItemsOf(raw, main) + SessionGraph.KeptItems(ItemsOf(raw, main), hung)
      + ItemsOf(raw, CatIds(flats)),
      SessionGraph.TraceMarks(ItemsOf(raw, main), hung, ChainItems(raw, flats)));
    n := |requests|;
    if flats != [] { assert ChainItems(raw, flats)[0] in ChainItems(raw, flats); }
  }

  /** The edges of a file whose flat chains are a single request. */
  lemma OneFlat(m: seq<Item>, f: seq<seq<Item>>, pre: nat, join: nat)
    requires |f| == 1 && |f[0]| == 1 && Hooked(m, f[0], pre, join)
    ensures !SessionGraph.FlatHook(m, f[0])
    ensures SessionGraph.FlatEdges(m, f, |m|) ==
      [SessionGraph.Edge(pre, |m|, SessionGraph.Spawn), SessionGraph.Edge(|m|, join, SessionGraph.Join)]
  {
    hide SessionGraph.LastBefore, SessionGraph.FirstJoin, SessionGraph.MaxEnd;
    assert f[..0] == [];
    assert SessionGraph.FlatEdges(m, [], |m|) == [] && SessionGraph.Cat([]) == [];
    assert SessionGraph.Line(|m|, 1) == [];
  }

  /** The flat chain is spawned from and joined by the first request of the main chain. */
  method LateTrace() returns (n: nat, edges: seq<SessionGraph.Edge>, ghost main: seq<nat>, ghost flats: seq<seq<nat>>)
    ensures Planned(LATE, [0, 1, 2], main, flats) && main == [1, 2] && flats == [[0]] && n == 3
    ensures edges == [SessionGraph.Edge(0, 1, SessionGraph.Sequential), SessionGraph.Edge(0, 2, SessionGraph.Spawn),
                      SessionGraph.Edge(2, 0, SessionGraph.Join)]
    ensures SessionGraph.Cyclic(edges) && forall e :: e in edges ==> e.from < n && e.to < n
  {
    hide SessionGraph.Cyclic, SessionGraph.FlatHook, Planned, ItemsOf, ChainItems, FileTimes, SessionGraph.FlatEdges;
    n, edges, main, flats := Trace(LATE, [0, 1, 2]);
    LatePlan(main, flats);
    LateHook(main, flats);
    OneFlat(ItemsOf(LATE, main), ChainItems(LATE, flats), 0, 0);
    TwoLine();
  }

  lemma TwoLine()
    ensures SessionGraph.Line(0, 2) == [SessionGraph.Edge(0, 1, SessionGraph.Sequential)]
    ensures SessionGraph.Line(0, 3) ==
      [SessionGraph.Edge(0, 1, SessionGraph.Sequential), SessionGraph.Edge(1, 2, SessionGraph.Sequential)]
    ensures CatIds([[0]]) == [0] && CatIds([[2]]) == [2]
  {
    assert SessionGraph.Line(0, 1) == [];
    var a, b: seq<seq<nat>> := [[0]], [[2]];
    assert a[..0] == [] && b[..0] == [] && CatIds([]) == [];
  }

  // ---- a file in time order, with a request that carries no blocks ----

  /** Request 3 carries no blocks and joins the first chain when it is met; request 1 is spliced behind it
      afterwards. */
  const BARE: Reqs := map[
    0 := Raw(0.0, true, 1.0, [1, 2], 0, 100, 2, false),
    1 := Raw(10.0, true, 1.0, [1, 3], 0, 100, 2, false),
    2 := Raw(11.0, true, 1.0, [9], 0, 100, 1, false),
    3 := Raw(20.0, true, 1.0, [], 0, 100, 0, false)]

  const BARE1 := [WithRequest(BARE, FRESH, 0)]
  const BARE2 := BARE1 + [WithRequest(BARE, FRESH.(hasFork := true, fork := Fork(0, 0, 1, 10.0)), 1)]
  const BARE3 := BARE2 + [WithRequest(BARE, FRESH.(hasFork := true, fork := Fork(-1, -1, 0, 11.0)), 2)]
  const BARE4 := BARE3[0 := WithRequest(BARE, BARE3[0], 3)]

  lemma BareSecond(c: seq<Chain>, f: map<nat, seq<nat>>)
    requires Classified(BARE, BARE1, map[], 1, c, f)
    ensures c == BARE2 && f == map[0 := [1]]
  {
    assert [1, 2][1] != [1, 3][1];
    assert !Extends(BARE, BARE1[0], [1, 3], 10.0, 0);
    assert TailLen(BARE, BARE1[0]) == 2;
    LcpForked();
    assert Depth(BARE, BARE1[0], [1, 3]) == 1;
    assert ForkOff(BARE, BARE1, 1, 0) == Fork(0, 0, 1, 10.0);
    var none: seq<nat> := [];
    assert none + [1] == [1];
    assert Register(map[], 0, 1) == map[0 := [1]];
  }

  lemma LcpForked()
    ensures Lcp([1, 2], [1, 3]) == 1
  {
    assert [1, 2][1..] == [2] && [1, 3][1..] == [3];
    assert Lcp([2], [3]) == 0;
  }

  lemma BareThird(c: seq<Chain>, f: map<nat, seq<nat>>)
    requires Classified(BARE, BARE2, map[0 := [1]], 2, c, f)
    ensures c == BARE3 && f == map[0 := [1]]
  {
    assert |[1, 2]| > |[9]| && |[1, 3]| > |[9]|;
    assert !Extends(BARE, BARE2[0], [9], 11.0, 0) && !Extends(BARE, BARE2[1], [9], 11.0, 0);
    assert TailLen(BARE, BARE2[0]) == 2;
    assert Depth(BARE, BARE2[0], [9]) == 0 && Depth(BARE, BARE2[1], [9]) == 0;
  }

  lemma BareGrown(c: seq<Chain>, f: map<nat, seq<nat>>)
    requires Grown(BARE, [0, 1, 2, 3], c, f)
    ensures c == BARE4 && f == map[0 := [1]]
  {
    assert [0, 1, 2] + [3] == [0, 1, 2, 3] && [0, 1] + [2] == [0, 1, 2] && [0] + [1] == [0, 1];
    hide Classified, Grown;
    var c3, f3 := GrowLast(BARE, [0, 1, 2], 3, c, f);
    var c2, f2 := GrowLast(BARE, [0, 1], 2, c3, f3);
    var c1, f1 := GrowLast(BARE, [0], 1, c2, f2);
    GrowFirst(BARE, 0, c1, f1);
    BareSecond(c2, f2);
    BareThird(c3, f3);
    BareFourth(c, f);
  }

  lemma BareFourth(c: seq<Chain>, f: map<nat, seq<nat>>)
    requires Classified(BARE, BARE3, map[0 := [1]], 3, c, f)
    ensures c == BARE4 && f == map[0 := [1]]
  {
  }

  const BARE5 := Spliced(BARE4, 0, 1)

  lemma BareRequests()
    ensures |BARE4| == 3 && BARE4[0].requests == [0, 3] && BARE4[1].requests == [1] && BARE4[2].requests == [2]
    ensures |BARE5| == 3 && BARE5[0].requests == [0, 3, 1] && BARE5[1].requests == [1] && BARE5[2].requests == [2]
  {
    assert BARE4[0].requests == [] + [0] + [3];
  }

  lemma BearingFour(raw: Reqs)
    requires 0 in raw && 1 in raw && 2 in raw && 3 in raw
    requires raw[0].hashes != [] && raw[1].hashes != [] && raw[2].hashes != [] && raw[3].hashes == []
    ensures Bearing(raw, [0, 3]) == [0] && Bearing(raw, [1]) == [1] && Bearing(raw, [2]) == [2] &&
      Bearing(raw, [0, 3, 1]) == [0, 1]
  {
    hide Bearing;
    BearingNone(raw);
    var none: seq<nat> := [];
    assert none + [0] == [0] && none + [1] == [1] && none + [2] == [2];
    BearingSnoc(raw, none, 0);
    BearingSnoc(raw, none, 1);
    BearingSnoc(raw, none, 2);
    BearingSnoc(raw, [0], 3);
    BearingSnoc(raw, [0, 3], 1);
    assert [0] + [3] == [0, 3] && [0, 3] + [1] == [0, 3, 1];
  }

  lemma BareTails(i: nat)
    requires i < 3
    ensures |BARE4| == |BARE5| == 3
    ensures LastHash(BARE, BARE4[i].requests) == i && LastHash(BARE, BARE5[i].requests) == if i == 0 then 1 else i
  {
    hide Bearing, Spliced, WithRequest;
    BareRequests();
    BearingFour(BARE);
  }

  /** The only splice there is puts request 1 behind request 3. */
  lemma BareSplice(u: Stage, fo: nat, elected: nat, r: Stage)
    requires u.forks == map[0 := [1]] && SplicedBehind(BARE, u, fo, elected, r) &&
      (u.chains == BARE4 || u.chains == BARE5)
    ensures u.chains == BARE4 && r.chains == BARE5 && r.forks == u.forks
  {
    hide LastHash, Rekeyed, MayFollow, Preferred;
    BareTails(u.owner[fo]);
    assert fo == 0 && u.owner[0] == 0 && u.chains == BARE4;
    assert [1][..0] == [];
    assert LiveOf(BARE4, []) == [];
    assert LiveOf(BARE4, [1]) == [1];
    assert elected == 1;
    var v := Stage(BARE5, Moved(u.owner, u.chains[1].requests, 0), u.forks);
    BareTails(0);
    assert RekeyAll(BARE, v, [], 1, 0, 1) == v;
    assert RekeyAll(BARE, v, [1], 1, 0, 1) == v;
  }

  lemma {:induction false} BareSewn(s: Stage, r: Stage, n: nat)
    requires s.chains == BARE4 && s.forks == map[0 := [1]] && Sewn(BARE, s, r, n)
    ensures (r.chains == BARE4 || r.chains == BARE5) && r.forks == s.forks
    decreases n
  {
    hide SplicedBehind;
    if n > 0 {
      var u: Stage, fo: nat, elected: nat :| Sewn(BARE, s, u, n - 1) && SplicedBehind(BARE, u, fo, elected, r);
      BareSewn(s, u, n - 1);
      BareSplice(u, fo, elected, r);
    }
  }

  lemma BareSpent(r: Stage)
    requires r.forks == map[0 := [1]] && Partition(BARE, r.chains, r.owner) &&
      Spent(BARE, r.chains, r.owner, r.forks, 0)
    ensures r.chains != BARE4
  {
    if r.chains == BARE4 {
      BareTails(0);
      assert Live(BARE4, 0) && BARE4[0].requests[0] == 0;
      assert MayFollow(BARE, BARE4[1], 0);
      assert false;
    }
  }

  lemma BareSorted(s: seq<nat>)
    requires multiset(s) == multiset([0, 1, 2, 3]) && InTime(BARE, s)
    ensures s == [0, 1, 2, 3]
  {
    SameMembers(s, [0, 1, 2, 3]);
    assert |s| == |multiset(s)| == 4;
    assert s[0] in s && s[1] in s && s[2] in s && s[3] in s;
    assert Sooner(BARE, s[0], s[1]) && Sooner(BARE, s[1], s[2]) && Sooner(BARE, s[2], s[3]);
  }

  lemma BareAlike()
    ensures forall x :: !IsPreamble(BARE, [0, 1, 2, 3], x)
  {
    LcpForked();
    forall x
      ensures !IsPreamble(BARE, [0, 1, 2, 3], x)
    {
      assert 0 in [0, 1, 2, 3] && 1 in [0, 1, 2, 3];
      assert Sooner(BARE, 0, 1) && Sooner(BARE, 0, 2) && Sooner(BARE, 0, 3);
    }
  }

  lemma BareDetected(main: seq<nat>, others: seq<seq<nat>>)
    requires DetectedAll(BARE, [0, 1, 2, 3], main, others)
    ensures main == [0, 3, 1] && others == [[2]]
  {
    hide Grown, Sewn, InTime, WorkersInTime, Spent, Partition, WithRequest;
    BareAlike();
    var sorted, grown, sewn, n :| DetectedBy(BARE, [0, 1, 2, 3], main, others, sorted, grown, sewn, n);
    BareSorted(sorted);
    BareGrown(grown.chains, grown.forks);
    BareSewn(grown, sewn, n);
    BareSpent(sewn);
    BareRequests();
    var workers :| Remaining(BARE, sewn.chains, workers, others);
    BareLive();
    OneWorker(BARE, sewn.chains, 2, others, workers);
  }

  lemma BareLive()
    ensures Live(BARE5, 2) && forall j :: Live(BARE5, j) ==> j == 0 || j == 2
  {
  }

  lemma BarePlan(main: seq<nat>, flats: seq<seq<nat>>)
    requires Planned(BARE, [0, 1, 2, 3], main, flats)
    ensures main == [0, 3, 1] && flats == [[2]]
  {
    hide DetectedAll;
    if flats == [] {
      var found :| DetectedAll(BARE, [0, 1, 2, 3], found, []);
      BareDetected(found, []);
    } else {
      BareDetected(main, flats);
    }
  }

  lemma BareHook(main: seq<nat>, flats: seq<seq<nat>>)
    requires main == [0, 3, 1] && flats == [[2]]
    ensures Known(BARE, main) && KnownAll(BARE, flats) && |ChainItems(BARE, flats)[0]| == 1
    ensures Hooked(ItemsOf(BARE, main), ChainItems(BARE, flats)[0], 2, 1)
  {
    assert flats[0] == [2];
    HookBack(ItemsOf(BARE, main), ChainItems(BARE, flats)[0]);
  }

  lemma HookBack(m: seq<Item>, f: seq<Item>)
    requires |m| == 3 && m[0].oi == 0 && m[1].oi == 3 && m[2].oi == 1 && m[1].t == 20.0
    requires |f| == 1 && f[0].oi == 2 && f[0].end == 12.0
    ensures Hooked(m, f, 2, 1)
  {
    SessionGraph.LastIs(m, 2, true);
    assert SessionGraph.CanJoin(m[1], 2, SessionGraph.MaxEnd(f));
  }

  ghost predicate TakeTime(raw: Reqs, s: seq<nat>) {
    forall x :: x in s ==> x in raw && EndOf(raw[x]) > raw[x].t + EPS
  }

  /** Times agree with the file and every request takes time, and still a flat chain joins before it is spawned. */
  method BareTrace() returns (n: nat, edges: seq<SessionGraph.Edge>, ghost main: seq<nat>, ghost flats: seq<seq<nat>>)
    ensures FileTimes(BARE, [0, 1, 2, 3]) && TakeTime(BARE, [0, 1, 2, 3])
    ensures Planned(BARE, [0, 1, 2, 3], main, flats) && main == [0, 3, 1] && flats == [[2]] && n == 4
    ensures edges ==
      [SessionGraph.Edge(0, 1, SessionGraph.Sequential), SessionGraph.Edge(1, 2, SessionGraph.Sequential),
                      SessionGraph.Edge(2, 3, SessionGraph.Spawn), SessionGraph.Edge(3, 1, SessionGraph.Join)]
    ensures SessionGraph.Cyclic(edges) && forall e :: e in edges ==> e.from < n && e.to < n
  {
    hide SessionGraph.Cyclic, SessionGraph.FlatHook, Planned, ItemsOf, ChainItems, FileTimes, TakeTime,
         SessionGraph.FlatEdges, Hooked, Known;
    BareTimes();
    n, edges, main, flats := Trace(BARE, [0, 1, 2, 3]);
    BarePlan(main, flats);
    BareHook(main, flats);
    OneFlat(ItemsOf(BARE, main), ChainItems(BARE, flats), 2, 1);
    TwoLine();
  }

  lemma BareTimes()
    ensures Known(BARE, [0, 1, 2, 3]) && FileTimes(BARE, [0, 1, 2, 3]) && TakeTime(BARE, [0, 1, 2, 3])
  {
  }
}
