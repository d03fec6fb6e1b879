/** The session graph from the recorded requests themselves: preamble, agent chains, subagents and their hooks. */
module TraceBuild {
  import opened Commons

  import opened AgentChains
  import SessionGraph

  const TITLE_TOKENS := 64

  type Item = SessionGraph.Item

  function ItemOf(raw: Reqs, x: nat): Item
    requires x in raw
  {
    SessionGraph.Item(x, raw[x].t, EndOf(raw[x]), raw[x].hashes, MetaOf(raw[x]))
  }

  function MetaOf(r: Raw): SessionGraph.Meta {
    SessionGraph.Meta(if r.finite then r.api else 0.0, r.inTokens, r.out, r.model, r.streaming)
  }

  function ItemsOf(raw: Reqs, s: seq<nat>): (r: seq<Item>)
    requires Known(raw, s)
    ensures |r| == |s| && forall k :: 0 <= k < |s| ==> r[k] == ItemOf(raw, s[k])
  {
    if s == [] then [] else ItemsOf(raw, s[..|s| - 1]) + [ItemOf(raw, s[|s| - 1])]
  }

  predicate Known(raw: Reqs, s: seq<nat>) {
    forall x :: x in s ==> x in raw
  }

  /** Requests are numbered in file order. */
  ghost predicate Filed(s: seq<nat>) {
    forall j, k :: 0 <= j < k < |s| ==> s[j] < s[k]
  }

  /** Request x is the first of s to start. */
  ghost predicate Earliest(raw: Reqs, s: seq<nat>, x: nat) {
    x in s && forall y :: y in s ==> y == x || Sooner(raw, x, y)
  }

  function CatIds(chains: seq<seq<nat>>): seq<nat> {
    if chains == [] then [] else CatIds(chains[..|chains| - 1]) + chains[|chains| - 1]
  }

  // ---- the preamble ----

  /** The first request stands apart: it opens unlike any other, and is a short title or shares no block at all. */
  ghost predicate IsPreamble(raw: Reqs, items: seq<nat>, lead: nat) {
    && Known(raw, items) && |items| >= 2 && Earliest(raw, items, lead) && raw[lead].hashes != []
    && (forall x :: x in items && x != lead && raw[x].hashes != [] ==> Lcp(raw[lead].hashes, raw[x].hashes) == 0)
    && (raw[lead].out <= 64 || forall x :: x in items && x != lead ==>
      NoShared(raw[lead].hashes, raw[x].hashes))
  }

  predicate NoShared(a: seq<nat>, b: seq<nat>) {
    forall h :: h in a ==> h !in b
  }

  function Without(s: seq<nat>, x: nat): (r: seq<nat>)
    ensures forall y :: y in r <==> y in s && y != x
  {
    if s == [] then [] else Without(s[..|s| - 1], x) + (if s[|s| - 1] == x then [] else [s[|s| - 1]])
  }

  method OpensAlike(raw: Reqs, ordered: seq<nat>) returns (yes: bool)
    requires Known(raw, ordered) && ordered != []
    ensures yes <==> exists k ::
      1 <= k < |ordered| && raw[ordered[k]].hashes != [] && Lcp(raw[ordered[0]].hashes, raw[ordered[k]].hashes) > 0
  {
    for k := 1 to |ordered|
      invariant forall j :: 1 <= j < k && raw[ordered[j]].hashes != [] ==>
        Lcp(raw[ordered[0]].hashes, raw[ordered[j]].hashes) == 0
    {
      var n := CommonPrefix(raw[ordered[0]].hashes, raw[ordered[k]].hashes);
      if raw[ordered[k]].hashes != [] && n > 0 { return true; }
    }
    return false;
  }

  method SharesBlock(raw: Reqs, ordered: seq<nat>) returns (yes: bool)
    requires Known(raw, ordered) && ordered != []
    ensures yes <==> exists k :: 1 <= k < |ordered| && !NoShared(raw[ordered[0]].hashes, raw[ordered[k]].hashes)
  {
    var others: set<nat> := {};
    for k := 1 to |ordered|
      invariant forall h :: h in others <==> exists j :: 1 <= j < k && h in raw[ordered[j]].hashes
    {
      others := others + set h | h in raw[ordered[k]].hashes;
    }
    var lead := raw[ordered[0]].hashes;
    for k := 0 to |lead|
      invariant forall i :: 0 <= i < k ==> lead[i] !in others
    {
      if lead[k] in others { return true; }
    }
    return false;
  }

  method StandsApart(raw: Reqs, items: seq<nat>, ordered: seq<nat>) returns (yes: bool)
    requires Known(raw, items) && |items| >= 2 && ordered != [] && Earliest(raw, items, ordered[0])
    requires Distinct(ordered) && forall x :: x in ordered <==> x in items
    ensures yes <==> IsPreamble(raw, items, ordered[0])
  {
    hide Lcp, NoShared;
    Others(items, ordered);
    yes := false;
    if raw[ordered[0]].hashes == [] { return; }
    var alike := OpensAlike(raw, ordered);
    if alike { return; }
    if raw[ordered[0]].out > TITLE_TOKENS {
      var shares := SharesBlock(raw, ordered);
      yes := !shares;
    } else {
      yes := true;
    }
  }

  /** The requests behind the first. */
  lemma Others(items: seq<nat>, ordered: seq<nat>)
    requires ordered != [] && Distinct(ordered) && forall x :: x in ordered <==> x in items
    ensures forall k :: 1 <= k < |ordered| ==> ordered[k] in items && ordered[k] != ordered[0]
    ensures forall x :: x in items && x != ordered[0] ==> exists k :: 1 <= k < |ordered| && ordered[k] == x
  {
    assert forall k :: 0 <= k < |ordered| ==> ordered[k] in ordered;
    forall x | x in items && x != ordered[0]
      ensures exists k :: 1 <= k < |ordered| && ordered[k] == x
    {
      var k :| 0 <= k < |ordered| && ordered[k] == x;
    }
  }

  method SplitOffPreamble(raw: Reqs, items: seq<nat>) returns (preamble: seq<nat>, rest: seq<nat>)
    requires Known(raw, items) && Filed(items)
    ensures if exists x :: IsPreamble(raw, items, x)
      then |preamble| == 1 && IsPreamble(raw, items, preamble[0]) && rest == Without(items, preamble[0])
      else preamble == [] && rest == items
  {
    preamble, rest := [], items;
    if |items| < 2 { return; }
    var ordered := InTimeOrder(raw, items);
    var lead := ordered[0];
    LeadIs(raw, items, ordered);
    var apart := StandsApart(raw, items, ordered);
    if !apart { return; }
    rest := [];
    for k := 0 to |items|
      invariant rest == Without(items[..k], lead)
    {
      assert items[..k + 1][..k] == items[..k];
      if items[k] != lead { rest := rest + [items[k]]; }
    }
    assert items[..|items|] == items;
    preamble := [lead];
  }

  /** Only the first request can be the preamble. */
  lemma LeadIs(raw: Reqs, items: seq<nat>, ordered: seq<nat>)
    requires Known(raw, items) && |items| >= 2 && InTime(raw, ordered) && multiset(ordered) == multiset(items)
    requires forall x :: x in ordered <==> x in items
    ensures ordered != [] && Earliest(raw, items, ordered[0])
    ensures forall x :: Earliest(raw, items, x) ==> x == ordered[0]
  {
    assert |multiset(ordered)| == |multiset(items)|;
    assert ordered[0] in ordered;
    forall y | y in items
      ensures y == ordered[0] || Sooner(raw, ordered[0], y)
    {
      var k :| 0 <= k < |ordered| && ordered[k] == y;
    }
  }

  // ---- the chains of a list of requests ----

  ghost predicate Chainy(chains: seq<Chain>, ws: seq<nat>, c: seq<seq<nat>>) {
    |c| == |ws| && forall k :: 0 <= k < |ws| ==> ws[k] < |chains| && c[k] == chains[ws[k]].requests
  }

  /** Chains that were not spliced away hold the requests they own, each once. */
  lemma {:induction false} CatOf(raw: Reqs, chains: seq<Chain>, owner: map<nat, nat>, ws: seq<nat>, c: seq<seq<nat>>)
    requires Partition(raw, chains, owner) && Distinct(ws) && (forall i :: i in ws ==> Live(chains, i)) &&
      Chainy(chains, ws, c)
    ensures Distinct(CatIds(c)) && forall x :: x in CatIds(c) <==> x in owner && owner[x] in ws
    decreases |ws|
  {
    if ws != [] {
      var n := |ws| - 1;
      assert ws[n] in ws && forall i :: i in ws[..n] ==> i in ws;
      assert forall i :: i in ws <==> i in ws[..n] || i == ws[n];
      CatOf(raw, chains, owner, ws[..n], c[..n]);
      Owned(raw, chains, owner, ws[n]);
      var a, b := CatIds(c[..n]), c[n];
      assert ws[n] !in ws[..n];
      Joined2(a, b);
    }
  }

  lemma Owned(raw: Reqs, chains: seq<Chain>, owner: map<nat, nat>, i: nat)
    requires Partition(raw, chains, owner) && Live(chains, i)
    ensures Distinct(chains[i].requests) && forall x :: x in chains[i].requests <==> x in owner && owner[x] == i
  {
    forall x | x in chains[i].requests
      ensures x in owner && owner[x] == i
    {
      var k :| 0 <= k < |chains[i].requests| && chains[i].requests[k] == x;
    }
  }

  lemma Joined2(a: seq<nat>, b: seq<nat>)
    requires Distinct(a) && Distinct(b) && forall x :: x in b ==> x !in a
    ensures Distinct(a + b) && forall x :: x in a + b <==> x in a || x in b
  {
    var c := a + b;
    assert forall k :: 0 <= k < |c| ==> if k < |a| then c[k] == a[k] && c[k] in a else c[k] == b[k - |a|] && c[k] in b;
  }

  /** Two lists without repetition that have the same members are permutations of each other. */
  lemma {:induction false} SameBag(s: seq<nat>, u: seq<nat>)
    requires Distinct(s) && Distinct(u) && forall x :: x in s <==> x in u
    ensures multiset(s) == multiset(u)
  {
    forall x: nat
      ensures multiset(s)[x] == multiset(u)[x]
    {
      Once(s, x);
      Once(u, x);
    }
  }

  lemma {:induction false} Once(s: seq<nat>, x: nat)
    requires Distinct(s)
    ensures multiset(s)[x] == (if x in s then 1 else 0)
    decreases |s|
  {
    if s != [] {
      var n := |s| - 1;
      Once(s[..n], x);
      assert s == s[..n] + [s[n]];
      assert s[n] !in s[..n];
    }
  }

  lemma {:induction false} FrontCat(a: seq<nat>, c: seq<seq<nat>>)
    ensures CatIds([a] + c) == a + CatIds(c)
    decreases |c|
  {
    if c == [] {
      assert [a] + c == [a] && [a][..0] == [];
      assert CatIds([a]) == CatIds([]) + a;
    } else {
      var n := |c| - 1;
      FrontCat(a, c[..n]);
      assert ([a] + c)[..n + 1] == [a] + c[..n] && ([a] + c)[n + 1] == c[n];
    }
  }

  /** The chains hold the given requests, each once, and the first of the main chain starts before any other. */
  ghost predicate Chained(raw: Reqs, items: seq<nat>, main: seq<nat>, others: seq<seq<nat>>) {
    && main != [] && (forall c :: c in others ==> c != []) && multiset(main + CatIds(others)) == multiset(items)
    && Earliest(raw, items, main[0])
  }

  /** main and the others are the chains left once all seams of the grown chains are sewn, in the order of their
      starts. */
  ghost predicate Sewed(raw: Reqs, sewn: Stage, main: seq<nat>, others: seq<seq<nat>>) {
    && Partition(raw, sewn.chains, sewn.owner)
    && (forall fo :: fo in sewn.forks ==> Spent(raw, sewn.chains, sewn.owner, sewn.forks, fo))
    && sewn.chains != [] && main == sewn.chains[0].requests
    && exists workers :: Remaining(raw, sewn.chains, workers, others)
  }

  ghost predicate Remaining(raw: Reqs, chains: seq<Chain>, workers: seq<nat>, others: seq<seq<nat>>) {
    && Distinct(workers) && (forall i :: i in workers <==> Live(chains, i) && i != 0)
    && WorkersInTime(raw, chains, workers) && Chainy(chains, workers, others)
  }

  ghost predicate DetectedBy(raw: Reqs, items: seq<nat>, main: seq<nat>, others: seq<seq<nat>>, sorted: seq<nat>,
                             grown: Stage, sewn: Stage, n: nat) {
    && multiset(sorted) == multiset(items) && InTime(raw, sorted)
    && Grown(raw, sorted, grown.chains, grown.forks) && Sewn(raw, grown, sewn, n) && Sewed(raw, sewn, main, others)
  }

  /** What the detector makes of a list of requests. */
  ghost predicate Detected(raw: Reqs, items: seq<nat>, main: seq<nat>, others: seq<seq<nat>>) {
    exists sorted, grown, sewn, n :: DetectedBy(raw, items, main, others, sorted, grown, sewn, n)
  }

  method Detect(raw: Reqs, items: seq<nat>) returns (main: seq<nat>, others: seq<seq<nat>>)
    requires Known(raw, items) && Distinct(items) && items != []
    ensures Chained(raw, items, main, others) && Detected(raw, items, main, others)
    ensures Linked(raw, main) && forall c :: c in others ==> Linked(raw, c)
  {
    hide Linked, Partition, ParentsLive, Spent, Grown, Sewn, InTime, WorkersInTime;
    var chains, mainIndex, workers;
    ghost var sorted, owner, grown, sewn, n;
    chains, mainIndex, workers, sorted, owner, grown, sewn, n := DetectAgentChains(raw, items);
    main := chains[mainIndex].requests;
    others := [];
    for k := 0 to |workers|
      invariant |others| == k &&
        forall j :: 0 <= j < k ==> workers[j] < |chains| && others[j] == chains[workers[j]].requests
    {
      assert workers[k] in workers;
      others := others + [chains[workers[k]].requests];
    }
    forall k | 0 <= k < |workers|
      ensures others[k] != [] && Linked(raw, others[k])
    {
      assert workers[k] in workers && Live(chains, workers[k]);
    }
    AllChained(raw, items, sorted, chains, owner, workers, others);
    SewnParts(raw, sewn.chains, chains, workers, others);
    assert DetectedBy(raw, items, main, others, sorted, grown, sewn, n);
  }

  lemma SewnParts(raw: Reqs, c: seq<Chain>, d: seq<Chain>, workers: seq<nat>, others: seq<seq<nat>>)
    requires (forall j :: 0 <= j < |c| ==> c[j].splicedInto < j) && Parented(c, d) && Remaining(raw, d, workers, others)
    ensures Remaining(raw, c, workers, others) && (d != [] ==> c != [] && c[0].requests == d[0].requests)
  {
    forall i | 0 <= i < |c|
      ensures d[i].requests == c[i].requests && d[i].splicedInto == c[i].splicedInto
    {
      assert ParentedAt(c, d[i], i);
    }
    assert WorkersInTime(raw, c, workers);
    assert forall i :: Live(c, i) <==> Live(d, i);
  }

  lemma AllChained(raw: Reqs, items: seq<nat>, sorted: seq<nat>, chains: seq<Chain>, owner: map<nat, nat>,
                   workers: seq<nat>, others: seq<seq<nat>>)
    requires Partition(raw, chains, owner) && (forall x :: x in owner <==> x in items) && Distinct(items)
    requires multiset(sorted) == multiset(items) && InTime(raw, sorted) && sorted != [] && Live(chains, 0)
    requires chains[0].requests != [] && chains[0].requests[0] == sorted[0]
    requires Distinct(workers) && (forall i :: i in workers <==> Live(chains, i) && i != 0) &&
      Chainy(chains, workers, others)
    ensures multiset(chains[0].requests + CatIds(others)) == multiset(items) && Earliest(raw, items, sorted[0])
  {
    hide Partition;
    var ws, c := [0] + workers, [chains[0].requests] + others;
    assert forall i :: i in ws <==> i == 0 || i in workers;
    assert Distinct(ws) by {
      assert forall j :: 0 <= j < |workers| ==> workers[j] in workers;
    }
    CatOf(raw, chains, owner, ws, c);
    OwnerLive(raw, chains, owner);
    FrontCat(chains[0].requests, others);
    SameBag(CatIds(c), items);
    SameMembers(sorted, items);
    assert sorted[0] in sorted;
    forall y | y in items
      ensures y == sorted[0] || Sooner(raw, sorted[0], y)
    {
      var k :| 0 <= k < |sorted| && sorted[k] == y;
    }
  }

  lemma OwnerLive(raw: Reqs, chains: seq<Chain>, owner: map<nat, nat>)
    requires Partition(raw, chains, owner)
    ensures forall x :: x in owner ==> Live(chains, owner[x])
  {
  }

  /** Every request carries block ids and takes time. */
  ghost predicate Solid(raw: Reqs, s: seq<nat>) {
    forall x :: x in s ==> x in raw && raw[x].hashes != [] && EndOf(raw[x]) > raw[x].t + EPS
  }

  lemma {:induction false} AllBear(raw: Reqs, s: seq<nat>)
    requires Solid(raw, s)
    ensures Bearing(raw, s) == s
    decreases |s|
  {
    hide Bearing;
    if s == [] {
      BearingNone(raw);
    } else {
      var n := |s| - 1;
      assert s[n] in s && forall x :: x in s[..n] ==> x in s;
      AllBear(raw, s[..n]);
      BearingSnoc(raw, s[..n], s[n]);
      assert s == s[..n] + [s[n]];
    }
  }

  /** A chain of such requests stands in the order of their start. */
  lemma {:induction false} LinkedInTime(raw: Reqs, s: seq<nat>, j: nat, k: nat)
    requires Solid(raw, s) && Linked(raw, s) && j < k < |s|
    ensures raw[s[j]].t < raw[s[k]].t
    decreases k - j
  {
    hide Bearing, EndOf, Linked;
    AllBear(raw, s);
    LinkedAt(raw, s, k);
    assert s[k - 1] in s;
    if j < k - 1 { LinkedInTime(raw, s, j, k - 1); }
  }

  lemma SolidInTime(raw: Reqs, s: seq<nat>)
    requires Solid(raw, s) && Linked(raw, s)
    ensures InTime(raw, s)
  {
    forall j, k | 0 <= j < k < |s|
      ensures Sooner(raw, s[j], s[k])
    {
      assert s[j] in s && s[k] in s;
      LinkedInTime(raw, s, j, k);
    }
  }

  lemma {:induction false} WithoutBag(s: seq<nat>, x: nat)
    requires Distinct(s) && x in s
    ensures Distinct(Without(s, x)) && multiset(Without(s, x) + [x]) == multiset(s) && |Without(s, x)| == |s| - 1
  {
    WithoutDistinct(s, x);
    Joined2(Without(s, x), [x]);
    SameBag(Without(s, x) + [x], s);
    assert |multiset(s)| == |multiset(Without(s, x) + [x])|;
  }

  lemma {:induction false} WithoutDistinct(s: seq<nat>, x: nat)
    requires Distinct(s)
    ensures Distinct(Without(s, x))
    decreases |s|
  {
    if s != [] {
      var n := |s| - 1;
      WithoutDistinct(s[..n], x);
      assert s[n] !in s[..n];
      Joined2(Without(s[..n], x), if s[n] == x then [] else [s[n]]);
    }
  }

  /** What becomes of a list of requests: the preamble is kept from the detector and put back in the main chain by
      time. */
  ghost predicate DetectedAll(raw: Reqs, items: seq<nat>, main: seq<nat>, others: seq<seq<nat>>) {
    if exists x :: IsPreamble(raw, items, x) then exists x, part :: DetectedWithout(raw, items, x, part, main, others)
    else Detected(raw, items, main, others)
  }

  ghost predicate DetectedWithout(raw: Reqs, items: seq<nat>, x: nat, part: seq<nat>, main: seq<nat>,
                                  others: seq<seq<nat>>) {
    && IsPreamble(raw, items, x) && Detected(raw, Without(items, x), part, others)
    && multiset(main) == multiset(part + [x]) && InTime(raw, main)
  }

  /** The main chain, with the preamble put back where it starts, and the other chains. */
  method DetectAll(raw: Reqs, items: seq<nat>) returns (main: seq<nat>, others: seq<seq<nat>>)
    requires Known(raw, items) && Filed(items) && items != []
    ensures Chained(raw, items, main, others) && DetectedAll(raw, items, main, others)
    ensures Solid(raw, items) ==> InTime(raw, main)
  {
    hide Linked, IsPreamble, InTime, Chained, Solid, Filed, Detected;
    FiledDistinct(items);
    var preamble, rest := SplitOffPreamble(raw, items);
    if preamble == [] {
      main, others := Detect(raw, items);
      ChainedIn(raw, items, main, others);
      if Solid(raw, items) { SolidPart(raw, items, main); SolidInTime(raw, main); }
      return;
    }
    var lead := preamble[0];
    assert preamble == [lead];
    PreambleRest(raw, items, lead);
    var found;
    found, others := Detect(raw, rest);
    ChainedIn(raw, rest, found, others);
    PutBack(raw, items, lead, found, others);
    main := InTimeOrder(raw, found + preamble);
    PutInTime(raw, items, lead, found, others, main);
    assert DetectedWithout(raw, items, lead, found, main, others);
  }

  lemma FiledDistinct(s: seq<nat>)
    requires Filed(s)
    ensures Distinct(s)
  {
  }

  lemma ChainedIn(raw: Reqs, items: seq<nat>, main: seq<nat>, others: seq<seq<nat>>)
    requires Chained(raw, items, main, others)
    ensures main != [] && forall x :: x in main ==> x in items
  {
    assert forall x :: x in main ==> x in main + CatIds(others);
    SameMembers(main + CatIds(others), items);
  }

  lemma SolidPart(raw: Reqs, items: seq<nat>, part: seq<nat>)
    requires Solid(raw, items) && forall x :: x in part ==> x in items
    ensures Solid(raw, part)
  {
  }

  lemma PreambleRest(raw: Reqs, items: seq<nat>, lead: nat)
    requires IsPreamble(raw, items, lead) && Filed(items)
    ensures Known(raw, Without(items, lead)) && Distinct(Without(items, lead)) && Without(items, lead) != [] &&
      lead in items
    ensures multiset(Without(items, lead) + [lead]) == multiset(items)
  {
    WithoutBag(items, lead);
  }

  lemma PutBack(raw: Reqs, items: seq<nat>, lead: nat, found: seq<nat>, others: seq<seq<nat>>)
    requires Known(raw, items) && Distinct(items) && lead in items && Chained(raw, Without(items, lead), found, others)
    ensures Known(raw, found + [lead]) && Distinct(found + [lead])
  {
    WithoutBag(items, lead);
    ChainedIn(raw, Without(items, lead), found, others);
    BagDistinct(found + CatIds(others), Without(items, lead));
    assert forall k :: 0 <= k < |found| ==> (found + CatIds(others))[k] == found[k];
    Joined2(found, [lead]);
  }

  /** A permutation of a list without repetition has none. */
  lemma BagDistinct(s: seq<nat>, u: seq<nat>)
    requires multiset(s) == multiset(u) && Distinct(u)
    ensures Distinct(s)
  {
    forall j, k | 0 <= j < k < |s|
      ensures s[j] != s[k]
    {
      Once(u, s[j]);
      assert s == s[..j] + [s[j]] + s[j + 1..k] + [s[k]] + s[k + 1..];
    }
  }

  lemma FirstInTime(raw: Reqs, s: seq<nat>, x: nat)
    requires InTime(raw, s) && Earliest(raw, s, x)
    ensures s[0] == x
  {
    var k :| 0 <= k < |s| && s[k] == x;
    assert s[0] in s;
    OneSooner(raw, s[0], x);
  }

  lemma OneSooner(raw: Reqs, x: nat, y: nat)
    ensures !(Sooner(raw, x, y) && Sooner(raw, y, x))
  {
  }

  lemma PutInTime(raw: Reqs, items: seq<nat>, lead: nat, found: seq<nat>, others: seq<seq<nat>>, main: seq<nat>)
    requires IsPreamble(raw, items, lead) && Filed(items) && Chained(raw, Without(items, lead), found, others)
    requires multiset(main) == multiset(found + [lead]) && InTime(raw, main)
    ensures Chained(raw, items, main, others)
  {
    PreambleRest(raw, items, lead);
    ChainedIn(raw, Without(items, lead), found, others);
    SameMembers(main, found + [lead]);
    assert lead in found + [lead];
    FirstInTime(raw, main, lead);
    calc {
      multiset(main + CatIds(others));
      multiset(found + [lead]) + multiset(CatIds(others));
      multiset(found + CatIds(others)) + multiset{lead};
      multiset(Without(items, lead) + [lead]);
    }
  }

  // ---- requests as the builder takes them ----

  predicate KnownAll(raw: Reqs, c: seq<seq<nat>>) {
    forall s :: s in c ==> Known(raw, s)
  }

  function ChainItems(raw: Reqs, c: seq<seq<nat>>): (r: seq<seq<Item>>)
    requires KnownAll(raw, c)
    ensures |r| == |c| && forall k :: 0 <= k < |c| ==> Known(raw, c[k]) && r[k] == ItemsOf(raw, c[k])
  {
    seq(|c|, k requires 0 <= k < |c| => assert c[k] in c; ItemsOf(raw, c[k]))
  }

  lemma {:induction false} ItemsConcat(raw: Reqs, a: seq<nat>, b: seq<nat>)
    requires Known(raw, a) && Known(raw, b)
    ensures Known(raw, a + b) && ItemsOf(raw, a + b) == ItemsOf(raw, a) + ItemsOf(raw, b)
  {
  }

  lemma {:induction false} CatItems(raw: Reqs, c: seq<seq<nat>>)
    requires KnownAll(raw, c)
    ensures Known(raw, CatIds(c)) && SessionGraph.Cat(ChainItems(raw, c)) == ItemsOf(raw, CatIds(c))
    decreases |c|
  {
    hide ItemsOf, ItemOf, SessionGraph.Cat, CatIds, Known;
    if c == [] {
      NoItems(raw);
    } else {
      var n := |c| - 1;
      assert c[n] in c && forall s :: s in c[..n] ==> s in c;
      CatItems(raw, c[..n]);
      ItemsConcat(raw, CatIds(c[..n]), c[n]);
      assert ChainItems(raw, c)[..n] == ChainItems(raw, c[..n]);
      CatSnoc(c, ChainItems(raw, c));
    }
  }

  lemma NoItems(raw: Reqs)
    ensures Known(raw, CatIds([])) && SessionGraph.Cat(ChainItems(raw, [])) == ItemsOf(raw, CatIds([]))
  {
  }

  lemma CatSnoc(c: seq<seq<nat>>, r: seq<seq<Item>>)
    requires c != [] && r != []
    ensures CatIds(c) == CatIds(c[..|c| - 1]) + c[|c| - 1]
    ensures SessionGraph.Cat(r) == SessionGraph.Cat(r[..|r| - 1]) + r[|r| - 1]
  {
  }

  lemma ChainedKnown(raw: Reqs, items: seq<nat>, main: seq<nat>, others: seq<seq<nat>>)
    requires Known(raw, items) && Chained(raw, items, main, others)
    ensures Known(raw, main) && KnownAll(raw, others) && forall c, x :: c in others && x in c ==> x in items
  {
    ChainedIn(raw, items, main, others);
    SameMembers(main + CatIds(others), items);
    forall c, x | c in others && x in c
      ensures x in items
    {
      InCat(others, c, x);
      assert x in main + CatIds(others);
    }
  }

  lemma {:induction false} InCat(chains: seq<seq<nat>>, c: seq<nat>, x: nat)
    requires c in chains && x in c
    ensures x in CatIds(chains)
    decreases |chains|
  {
    var n := |chains| - 1;
    assert chains == chains[..n] + [chains[n]];
    if c != chains[n] { InCat(chains[..n], c, x); }
  }

  // ---- subagents ----

  datatype RawSub = RawSub(outer: int, t: real, timed: bool, durationMs: real, reqs: seq<Raw>)

  /** Times that lie before the subagent's start count from it. */
  function Normalized(sa: RawSub, r: Raw): Raw {
    if r.t + EPS < sa.t then r.(t := sa.t + r.t) else r
  }

  function Inner(sa: RawSub): Reqs {
    map i: nat | i < |sa.reqs| :: Normalized(sa, sa.reqs[i])
  }

  function Upto(n: nat): (s: seq<nat>)
    ensures |s| == n && forall k :: 0 <= k < n ==> s[k] == k
  {
    if n == 0 then [] else Upto(n - 1) + [n - 1]
  }

  function SubEnd(sa: RawSub): real {
    if sa.timed then sa.t + (if sa.durationMs < 0.0 then 0.0 else sa.durationMs / 1000.0)
    else if sa.reqs != [] then SessionGraph.MaxEnd(ItemsOf(Inner(sa), Upto(|sa.reqs|)))
    else sa.t
  }

  /** A subagent ends after the duration recorded for it, or with the last of its requests. */
  ghost predicate EndsAt(sa: RawSub, end: real) {
    if sa.timed
      then end >= sa.t && (if sa.durationMs >= 0.0 then (end - sa.t) * 1000.0 == sa.durationMs else end == sa.t)
    else if sa.reqs == [] then end == sa.t
    else (forall r :: r in sa.reqs ==> EndOf(Normalized(sa, r)) <= end) &&
         exists r :: r in sa.reqs && EndOf(Normalized(sa, r)) == end
  }

  lemma SubEnds(sa: RawSub)
    ensures EndsAt(sa, SubEnd(sa))
  {
    if !sa.timed && sa.reqs != [] {
      var items := ItemsOf(Inner(sa), Upto(|sa.reqs|));
      forall r | r in sa.reqs
        ensures EndOf(Normalized(sa, r)) <= SubEnd(sa)
      {
        var k :| 0 <= k < |sa.reqs| && sa.reqs[k] == r;
        assert items[k] in items;
      }
      var x :| x in items && x.end == SubEnd(sa);
      var k :| 0 <= k < |items| && items[k] == x;
      assert sa.reqs[k] in sa.reqs && EndOf(Normalized(sa, sa.reqs[k])) == SubEnd(sa);
    }
  }

  /** The subagent's chains hold its requests, each once. */
  ghost predicate Expanded(sa: RawSub, s: SessionGraph.Sub) {
    s.outer == sa.outer && EndsAt(sa, s.end) && exists ids :: ExpandedAs(sa, s, ids)
  }

  ghost predicate ExpandedAs(sa: RawSub, s: SessionGraph.Sub, ids: seq<nat>) {
    && Known(Inner(sa), ids) && multiset(ids) == multiset(Upto(|sa.reqs|))
    && SessionGraph.Cat(s.chains) == ItemsOf(Inner(sa), ids)
  }

  lemma NoneExpanded(sa: RawSub, s: SessionGraph.Sub)
    requires sa.reqs == [] && s == SessionGraph.Sub(sa.outer, SubEnd(sa), [[]])
    ensures Expanded(sa, s)
  {
    assert s.chains[..0] == [] && s.chains[0] == [];
    SubEnds(sa);
    assert ExpandedAs(sa, s, []);
  }

  method ExpandSubagent(sa: RawSub) returns (s: SessionGraph.Sub)
    ensures Expanded(sa, s)
  {
    hide DetectedAll, Chained, ItemsOf, SubEnd, EndsAt, SessionGraph.Cat;
    SubEnds(sa);
    var raw, items := Inner(sa), Upto(|sa.reqs|);
    if sa.reqs == [] {
      s := SessionGraph.Sub(sa.outer, SubEnd(sa), [[]]);
      NoneExpanded(sa, s);
      return;
    }
    var main, others := DetectAll(raw, items);
    ChainedKnown(raw, items, main, others);
    var chains := [main] + others;
    s := SessionGraph.Sub(sa.outer, SubEnd(sa), ChainItems(raw, chains));
    CatItems(raw, chains);
    FrontCat(main, others);
    MainAndOthers(raw, items, main, others);
    assert ExpandedAs(sa, s, CatIds(chains));
  }

  lemma MainAndOthers(raw: Reqs, items: seq<nat>, main: seq<nat>, others: seq<seq<nat>>)
    requires Chained(raw, items, main, others)
    ensures multiset(main + CatIds(others)) == multiset(items)
  {
  }

  // ---- what was recorded ----

  /** Request q carries what r recorded. */
  ghost predicate Copies(q: SessionGraph.Request, hashIds: seq<nat>, r: Raw) {
    && q.t == r.t && (if r.finite then q.meta.api == r.api else q.meta.api == 0.0)
    && q.meta.inTokens == r.inTokens && q.meta.outTokens == r.out && q.meta.model == r.model
    && q.meta.streaming == r.streaming
    && q.begin + q.count <= |hashIds| && hashIds[q.begin..q.begin + q.count] == r.hashes
  }

  /** y is held back by d after the recorded end of x, which is where it started in the record. */
  ghost predicate Pauses(x: Raw, y: Raw, d: real) {
    var end := x.t + (if x.finite then x.api else 0.0);
    && (if end < y.t then end + d == y.t else d == 0.0)
    && EndOf(x) == (if end > x.t then end else x.t)
  }

  /** r is what subagent sa recorded for one of its requests; a time before its start counts from there. */
  ghost predicate FromSub(sa: RawSub, r: Raw) {
    exists q :: q in sa.reqs && r == q.(t := r.t) && r.t == (if q.t + EPS < sa.t then sa.t + q.t else q.t)
  }

  ghost predicate Recorded(items: seq<Item>, recs: seq<Raw>) {
    |recs| == |items| && forall k :: 0 <= k < |items| ==>
      items[k] == SessionGraph.Item(items[k].oi, recs[k].t, EndOf(recs[k]), recs[k].hashes, MetaOf(recs[k]))
  }

  ghost predicate FromSubs(subs: seq<RawSub>, recs: seq<Raw>) {
    forall k :: 0 <= k < |recs| ==> FromSome(subs, recs[k])
  }

  ghost predicate FromSome(subs: seq<RawSub>, r: Raw) {
    exists sa :: sa in subs && FromSub(sa, r)
  }

  /** The records of the requests in s. */
  ghost function Records(raw: Reqs, s: seq<nat>): (r: seq<Raw>)
    requires Known(raw, s)
    ensures |r| == |s| && forall k :: 0 <= k < |s| ==> r[k] == raw[s[k]]
  {
    seq(|s|, k requires 0 <= k < |s| => assert s[k] in s; raw[s[k]])
  }

  lemma ItemsRecorded(raw: Reqs, s: seq<nat>)
    requires Known(raw, s)
    ensures Recorded(ItemsOf(raw, s), Records(raw, s))
  {
  }

  lemma {:induction false} SubsRecorded(main: seq<Item>, subs: seq<RawSub>, hung: seq<SessionGraph.Sub>)
    returns (recs: seq<Raw>)
    requires |hung| == |subs| && forall i :: 0 <= i < |subs| ==> Expanded(subs[i], hung[i])
    ensures Recorded(SessionGraph.KeptItems(main, hung), recs) && FromSubs(subs, recs)
    decreases |subs|
  {
    hide ItemsOf, SessionGraph.Cat, SessionGraph.Kept, Expanded, Recorded, FromSub;
    recs := [];
    NoneRecorded();
    if subs != [] {
      var n := |subs| - 1;
      recs := SubsRecorded(main, subs[..n], hung[..n]);
      var items, more: seq<Raw> := SessionGraph.KeptItems(main, hung[..n]), [];
      if SessionGraph.Kept(main, hung[n]) {
        more := SubRecorded(subs[n], hung[n]);
        RecordedBoth(items, recs, SessionGraph.Cat(hung[n].chains), more);
      }
      FromMore(subs, n, recs, more);
      assert items + [] == items && recs + [] == recs;
      recs := recs + more;
    }
  }

  lemma FromMore(subs: seq<RawSub>, n: nat, recs: seq<Raw>, more: seq<Raw>)
    requires n < |subs| && FromSubs(subs[..n], recs) && forall k :: 0 <= k < |more| ==> FromSub(subs[n], more[k])
    ensures FromSubs(subs, recs + more)
  {
    hide FromSub;
    forall k | 0 <= k < |recs + more|
      ensures FromSome(subs, (recs + more)[k])
    {
      if k < |recs| {
        assert FromSome(subs[..n], recs[k]);
        var sa :| sa in subs[..n] && FromSub(sa, recs[k]);
        assert sa in subs && FromSub(sa, (recs + more)[k]);
      } else {
        assert subs[n] in subs && FromSub(subs[n], (recs + more)[k]);
      }
    }
  }

  lemma NoneRecorded()
    ensures Recorded([], [])
  {
  }

  lemma SubRecorded(sa: RawSub, s: SessionGraph.Sub) returns (recs: seq<Raw>)
    requires Expanded(sa, s)
    ensures Recorded(SessionGraph.Cat(s.chains), recs) && forall k :: 0 <= k < |recs| ==> FromSub(sa, recs[k])
  {
    hide EndsAt, SessionGraph.Cat;
    var ids :| ExpandedAs(sa, s, ids);
    recs := Records(Inner(sa), ids);
    ItemsRecorded(Inner(sa), ids);
    forall k | 0 <= k < |recs|
      ensures FromSub(sa, recs[k])
    {
      assert ids[k] in ids && sa.reqs[ids[k]] in sa.reqs;
    }
  }

  ghost predicate AllCopied(requests: seq<SessionGraph.Request>, hashIds: seq<nat>, recs: seq<Raw>) {
    |recs| == |requests| && forall k :: 0 <= k < |requests| ==> Copies(requests[k], hashIds, recs[k])
  }

  /** The records of the main chain, then those of subagents, then those in `tail`. */
  ghost predicate RecordsOf(raw: Reqs, subs: seq<RawSub>, main: seq<nat>, tail: seq<nat>, recs: seq<Raw>)
    requires Known(raw, main) && Known(raw, tail)
  {
    exists inner :: FromSubs(subs, inner) && recs == Records(raw, main) + inner + Records(raw, tail)
  }

  lemma RecordsThere(raw: Reqs, subs: seq<RawSub>, hung: seq<SessionGraph.Sub>, main: seq<nat>, tail: seq<nat>)
    returns (recs: seq<Raw>)
    requires |hung| == |subs| && forall i :: 0 <= i < |subs| ==> Expanded(subs[i], hung[i])
    requires Known(raw, main) && Known(raw, tail)
    ensures RecordsOf(raw, subs, main, tail, recs)
    ensures Recorded(ItemsOf(raw, main) + SessionGraph.KeptItems(ItemsOf(raw, main), hung) + ItemsOf(raw, tail), recs)
  {
    hide ItemsOf, Recorded, FromSubs, Known;
    var inner := SubsRecorded(ItemsOf(raw, main), subs, hung);
    recs := Records(raw, main) + inner + Records(raw, tail);
    ItemsRecorded(raw, main);
    ItemsRecorded(raw, tail);
    RecordedBoth(ItemsOf(raw, main), Records(raw, main), SessionGraph.KeptItems(ItemsOf(raw, main), hung), inner);
    RecordedBoth(ItemsOf(raw, main) + SessionGraph.KeptItems(ItemsOf(raw, main), hung), Records(raw, main) + inner,
                 ItemsOf(raw, tail), Records(raw, tail));
  }

  lemma RecordedBoth(a: seq<Item>, r: seq<Raw>, b: seq<Item>, s: seq<Raw>)
    requires Recorded(a, r) && Recorded(b, s)
    ensures Recorded(a + b, r + s)
  {
    hide EndOf, MetaOf;
  }

  lemma AllCopies(requests: seq<SessionGraph.Request>, hashIds: seq<nat>, items: seq<Item>,
                  marks: seq<SessionGraph.Mark>, recs: seq<Raw>)
    requires SessionGraph.Emitted(requests, hashIds, items, marks) && Recorded(items, recs)
    ensures AllCopied(requests, hashIds, recs)
  {
    forall k | 0 <= k < |requests|
      ensures Copies(requests[k], hashIds, recs[k])
    {
      assert SessionGraph.IsItem(requests[k], hashIds, items[k], marks[k]);
    }
  }

  ghost predicate AllPause(delays: seq<real>, edges: seq<SessionGraph.Edge>, recs: seq<Raw>) {
    |delays| == |edges| && forall k :: 0 <= k < |edges| ==>
      edges[k].from < |recs| && edges[k].to < |recs| && Pauses(recs[edges[k].from], recs[edges[k].to], delays[k])
  }

  lemma DelaysPause(delays: seq<real>, edges: seq<SessionGraph.Edge>, items: seq<Item>, recs: seq<Raw>)
    requires SessionGraph.Delayed(delays, edges, items) && Recorded(items, recs)
    ensures AllPause(delays, edges, recs)
  {
    forall k | 0 <= k < |edges|
      ensures edges[k].from < |recs| && edges[k].to < |recs| &&
        Pauses(recs[edges[k].from], recs[edges[k].to], delays[k])
    {
      assert SessionGraph.DelayIs(delays[k], edges[k], items);
    }
  }

  // ---- the whole trace ----

  /** Requests later in the file start no earlier. */
  ghost predicate FileTimes(raw: Reqs, s: seq<nat>) {
    Known(raw, s) && forall j, k :: 0 <= j < k < |s| ==> raw[s[j]].t <= raw[s[k]].t
  }

  lemma SoonerFirst(raw: Reqs, s: seq<nat>, x: nat, y: nat)
    requires Filed(s) && FileTimes(raw, s) && x in s && y in s && Sooner(raw, x, y)
    ensures x < y
  {
    var j :| 0 <= j < |s| && s[j] == x;
    var k :| 0 <= k < |s| && s[k] == y;
  }

  lemma InFileOrder(raw: Reqs, normals: seq<nat>, main: seq<nat>)
    requires Known(raw, main) && (forall x :: x in main ==> x in normals) && Filed(normals)
    requires (FileTimes(raw, normals) && InTime(raw, main)) || main == normals
    ensures SessionGraph.FileOrder(ItemsOf(raw, main))
  {
    forall p, q | 0 <= p < q < |main|
      ensures main[p] < main[q]
    {
      assert main[p] in main && main[q] in main;
      if main != normals { SoonerFirst(raw, normals, main[p], main[q]); }
    }
  }

  /** The main chain opens with the earliest request; if that is the first in the file too, every flat chain is in
      order. */
  lemma FlatsInOrder(raw: Reqs, normals: seq<nat>, main: seq<nat>, flats: seq<seq<nat>>)
    requires Known(raw, normals) && Filed(normals) && FileTimes(raw, normals) && Chained(raw, normals, main, flats)
    ensures Known(raw, main) && KnownAll(raw, flats) && SessionGraph.FlatsOk(ItemsOf(raw, main), ChainItems(raw, flats))
  {
    ChainedKnown(raw, normals, main, flats);
    var f := ChainItems(raw, flats);
    forall k | 0 <= k < |f|
      ensures SessionGraph.FlatOk(ItemsOf(raw, main), f[k])
    {
      assert flats[k] in flats && flats[k][0] in flats[k];
      var x := flats[k][0];
      if x != main[0] { SoonerFirst(raw, normals, main[0], x); }
    }
  }

  /** Which of the requests make up the main chain and which the flat ones; without workers the file is the main
      chain. */
  ghost predicate Planned(raw: Reqs, normals: seq<nat>, main: seq<nat>, flats: seq<seq<nat>>) {
    if |normals| <= 1 then main == normals && flats == []
    else if flats == [] then main == normals && exists found :: DetectedAll(raw, normals, found, [])
    else DetectedAll(raw, normals, main, flats)
  }

  method SplitUp(raw: Reqs, normals: seq<nat>) returns (main: seq<nat>, flats: seq<seq<nat>>)
    requires Known(raw, normals) && Filed(normals)
    ensures Planned(raw, normals, main, flats) && (flats != [] ==> Chained(raw, normals, main, flats))
    ensures Known(raw, main) && KnownAll(raw, flats) && multiset(main + CatIds(flats)) == multiset(normals)
    ensures flats == [] || (Solid(raw, normals) ==> InTime(raw, main))
  {
    hide DetectedAll;
    main, flats := normals, [];
    assert main + [] == main;
    if |normals| > 1 {
      var found, others := DetectAll(raw, normals);
      ChainedKnown(raw, normals, found, others);
      if others != [] { main, flats := found, others; }
    }
  }

  method ExpandAll(subs: seq<RawSub>) returns (hung: seq<SessionGraph.Sub>)
    ensures |hung| == |subs| && forall i :: 0 <= i < |subs| ==> Expanded(subs[i], hung[i])
  {
    hide Expanded;
    hung := [];
    for i := 0 to |subs|
      invariant |hung| == i && forall j :: 0 <= j < i ==> Expanded(subs[j], hung[j])
    {
      var s := ExpandSubagent(subs[i]);
      hung := hung + [s];
    }
  }

  /** `build_trace`: every request of the file exactly once; no cycle exactly when no chain is joined where it was
      spawned or before, and none when requests later in the file start no earlier, carry block ids and take time. */
  method BuildTrace(raw: Reqs, normals: seq<nat>, subs: seq<RawSub>)
    returns (requests: seq<SessionGraph.Request>, hashIds: seq<nat>, edges: seq<SessionGraph.Edge>, delays: seq<real>,
             ghost places: seq<SessionGraph.Place>, ghost main: seq<nat>, ghost flats: seq<seq<nat>>,
             ghost hung: seq<SessionGraph.Sub>, ghost recs: seq<Raw>)
    requires Known(raw, normals) && Filed(normals)
    ensures Planned(raw, normals, main, flats) && (flats != [] ==> Chained(raw, normals, main, flats))
    ensures Known(raw, main) && KnownAll(raw, flats) && multiset(main + CatIds(flats)) == multiset(normals)
    ensures |hung| == |subs| && forall i :: 0 <= i < |subs| ==> Expanded(subs[i], hung[i])
    ensures Known(raw, CatIds(flats)) && SessionGraph.Emitted(requests, hashIds,
      ItemsOf(raw, main) + SessionGraph.KeptItems(ItemsOf(raw, main), hung) + ItemsOf(raw, CatIds(flats)),
      SessionGraph.TraceMarks(ItemsOf(raw, main), hung, ChainItems(raw, flats)))
    ensures SessionGraph.Delayed(delays, edges,
      ItemsOf(raw, main) + SessionGraph.KeptItems(ItemsOf(raw, main), hung) + ItemsOf(raw, CatIds(flats)))
    ensures AllCopied(requests, hashIds, recs)
    ensures RecordsOf(raw, subs, main, CatIds(flats), recs)
    ensures AllPause(delays, edges, recs)
    ensures forall e :: e in edges ==> e.from < |requests| && e.to < |requests|
    ensures edges == SessionGraph.Line(0, |main|) + SessionGraph.KeptEdges(ItemsOf(raw, main), hung, |main|) +
      SessionGraph.FlatEdges(ItemsOf(raw, main), ChainItems(raw, flats),
        |ItemsOf(raw, main) + SessionGraph.KeptItems(ItemsOf(raw, main), hung)|)
    ensures !SessionGraph.Cyclic(edges) <==> SessionGraph.HooksOk(ItemsOf(raw, main), hung, ChainItems(raw, flats))
    ensures |places| == |requests| && (!SessionGraph.Cyclic(edges) ==> SessionGraph.Upwards(edges, places))
    ensures FileTimes(raw, normals) && SessionGraph.FileOrder(ItemsOf(raw, main)) ==> !SessionGraph.Cyclic(edges)
    ensures FileTimes(raw, normals) && Solid(raw, normals) ==> SessionGraph.FileOrder(ItemsOf(raw, main))
  {
    hide Planned, Expanded, Chained, Solid, InTime, Filed, Known, SessionGraph.Cyclic, SessionGraph.Upwards,
         SessionGraph.HooksOk, SessionGraph.Emitted, SessionGraph.Delayed, SessionGraph.FileOrder;
    var m, f := SplitUp(raw, normals);
    var h := ExpandAll(subs);
    main, flats, hung := m, f, h;
    CatItems(raw, f);
    FlatsThere(raw, normals, m, f);
    requests, hashIds, edges, delays, places := SessionGraph.BuildTrace(ItemsOf(raw, m), h, ChainItems(raw, f));
    recs := RecordsThere(raw, subs, h, m, CatIds(f));
    AllCopies(requests, hashIds,
      ItemsOf(raw, m) + SessionGraph.KeptItems(ItemsOf(raw, m), h) + ItemsOf(raw, CatIds(f)),
      SessionGraph.TraceMarks(ItemsOf(raw, m), h, ChainItems(raw, f)), recs);
    DelaysPause(delays, edges,
      ItemsOf(raw, m) + SessionGraph.KeptItems(ItemsOf(raw, m), h) + ItemsOf(raw, CatIds(f)), recs);
    PlainMain(raw, normals, m, f);
    if FileTimes(raw, normals) && Solid(raw, normals) { MainInOrder(raw, normals, m, f); }
    if FileTimes(raw, normals) && SessionGraph.FileOrder(ItemsOf(raw, m)) { HooksInOrder(raw, normals, m, f, h); }
  }

  lemma PlainMain(raw: Reqs, normals: seq<nat>, main: seq<nat>, flats: seq<seq<nat>>)
    requires Planned(raw, normals, main, flats)
    ensures flats == [] ==> main == normals
  {
  }

  lemma FlatsThere(raw: Reqs, normals: seq<nat>, main: seq<nat>, flats: seq<seq<nat>>)
    requires Known(raw, main) && KnownAll(raw, flats)
    requires flats == [] || Chained(raw, normals, main, flats)
    ensures flats != [] ==> ItemsOf(raw, main) != []
    ensures ChainItems(raw, flats) != [] ==> ItemsOf(raw, main) != []
    ensures forall f :: f in ChainItems(raw, flats) ==> f != []
  {
    forall k | 0 <= k < |flats|
      ensures ChainItems(raw, flats)[k] != []
    {
      assert flats[k] in flats;
    }
  }

  lemma MainInOrder(raw: Reqs, normals: seq<nat>, main: seq<nat>, flats: seq<seq<nat>>)
    requires Known(raw, normals) && Filed(normals) && FileTimes(raw, normals) && Known(raw, main)
    requires if flats == [] then main == normals else Chained(raw, normals, main, flats) && InTime(raw, main)
    ensures SessionGraph.FileOrder(ItemsOf(raw, main))
  {
    if flats != [] { ChainedIn(raw, normals, main, flats); }
    InFileOrder(raw, normals, main);
  }

  /** In a file in time order whose main chain keeps the file's order, every chain hangs in order. */
  lemma HooksInOrder(raw: Reqs, normals: seq<nat>, main: seq<nat>, flats: seq<seq<nat>>, hung: seq<SessionGraph.Sub>)
    requires Known(raw, normals) && Filed(normals) && FileTimes(raw, normals) && Known(raw, main) &&
      KnownAll(raw, flats)
    requires SessionGraph.FileOrder(ItemsOf(raw, main)) && (flats == [] || Chained(raw, normals, main, flats))
    ensures SessionGraph.HooksOk(ItemsOf(raw, main), hung, ChainItems(raw, flats))
  {
    if flats != [] { FlatsInOrder(raw, normals, main, flats); }
    SessionGraph.OrderedHooks(ItemsOf(raw, main), hung, ChainItems(raw, flats));
  }
}
