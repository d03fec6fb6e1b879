/** Which requests of a trace a lane plays when it joins the trace in the middle. */
module Lanes {
  import opened Commons

  import AgentChains
  import opened Arrivals
  import SessionGraph

  /** A recorded request, as far as the snapshot goes. */
  datatype Rec = Rec(agent: nat, t: real)

  ghost predicate Past(recs: seq<Rec>, star: real, i: nat)
    requires i < |recs|
  {
    recs[i].t < star
  }

  ghost predicate SameAgent(recs: seq<Rec>, i: nat, j: nat) {
    i < |recs| && j < |recs| && recs[i].agent == recs[j].agent
  }

  /** Request i is where its agent stands at the snapshot: the last of its requests before it, with others to come. */
  ghost predicate Resumes(recs: seq<Rec>, star: real, i: nat)
    requires i < |recs|
  {
    && Past(recs, star, i) && (forall j: nat :: i < j && SameAgent(recs, i, j) ==> !Past(recs, star, j))
    && (exists j: nat :: SameAgent(recs, i, j) && !Past(recs, star, j))
  }

  predicate Earlier(recs: seq<Rec>, i: nat, j: nat)
    requires i < |recs| && j < |recs|
  {
    recs[i].t < recs[j].t || (recs[i].t == recs[j].t && i < j)
  }

  /** The requests from the snapshot on that come before request i. */
  ghost function Ahead(recs: seq<Rec>, star: real, i: nat): set<nat>
    requires i < |recs|
  {
    set j: nat | j < |recs| && !Past(recs, star, j) && Earlier(recs, j, i)
  }

  /** What the snapshot makes of request i: before it, only where its agent stands is played, to warm the cache; from it
      on everything is, and the first `budget` requests without pauses. */
  ghost predicate ClassIs(recs: seq<Rec>, star: real, budget: int, i: nat, c: Class)
    requires i < |recs|
  {
    c == if Past(recs, star, i) then (if Resumes(recs, star, i) then Primer else Skipped)
         else Normal(|Ahead(recs, star, i)| < budget)
  }

  /** x is the last of agent a's requests before the snapshot, among the first m. */
  ghost predicate LastIs(recs: seq<Rec>, star: real, a: nat, m: nat, x: int)
    requires m <= |recs|
  {
    && -1 <= x < m && (x >= 0 ==> recs[x].agent == a && Past(recs, star, x))
    && forall j: nat :: x < j < m && recs[j].agent == a ==> !Past(recs, star, j)
  }

  ghost predicate HasAfter(recs: seq<Rec>, star: real, a: nat, m: nat)
    requires m <= |recs|
  {
    exists j: nat :: j < m && recs[j].agent == a && !Past(recs, star, j)
  }

  method Agents(recs: seq<Rec>, agents: nat, star: real) returns (last: seq<int>, after: seq<bool>)
    requires forall i :: 0 <= i < |recs| ==> recs[i].agent < agents
    ensures |last| == |after| == agents && forall a: nat :: a < agents ==>
      LastIs(recs, star, a, |recs|, last[a]) && (after[a] <==> HasAfter(recs, star, a, |recs|))
  {
    last, after := seq(agents, _ => -1), seq(agents, _ => false);
    for i := 0 to |recs|
      invariant |last| == |after| == agents && forall a: nat :: a < agents ==>
        LastIs(recs, star, a, i, last[a]) && (after[a] <==> HasAfter(recs, star, a, i))
    {
      if recs[i].t < star {
        last := last[recs[i].agent := i];
      } else {
        after := after[recs[i].agent := true];
      }
    }
  }

  lemma ResumesIs(recs: seq<Rec>, star: real, i: nat, last: int, after: bool)
    requires i < |recs| && Past(recs, star, i) && LastIs(recs, star, recs[i].agent, |recs|, last)
    requires after <==> HasAfter(recs, star, recs[i].agent, |recs|)
    ensures Resumes(recs, star, i) <==> after && last == i
  {
    if last == i && after {
      var j: nat :| j < |recs| && recs[j].agent == recs[i].agent && !Past(recs, star, j);
      assert SameAgent(recs, i, j);
    }
    assert last >= 0 ==> SameAgent(recs, i, last);
  }

  /** Those of the first k in order that come from the snapshot on. */
  ghost function Taken(recs: seq<Rec>, star: real, order: seq<nat>, k: nat): set<nat>
    requires k <= |order| && forall x :: x in order ==> x < |recs|
  {
    set q: nat | q < k && (assert order[q] in order; !Past(recs, star, order[q])) :: order[q]
  }

  ghost predicate Ordered(recs: seq<Rec>, order: seq<nat>) {
    && (forall i: nat :: i < |recs| <==> i in order)
    && (forall j, k :: 0 <= j < k < |order| ==> InPlace(recs, order, j, k))
  }

  ghost predicate InPlace(recs: seq<Rec>, order: seq<nat>, j: nat, k: nat) {
    && j < |order| && k < |order| && order[j] < |recs| && order[k] < |recs| && Earlier(recs, order[j], order[k])
  }

  lemma TakenAhead(recs: seq<Rec>, star: real, order: seq<nat>, p: nat)
    requires Ordered(recs, order) && p < |order|
    ensures order[p] in order && Taken(recs, star, order, p) == Ahead(recs, star, order[p])
  {
    var i := order[p];
    assert i in order;
    assert forall q: nat :: p < q < |order| ==> InPlace(recs, order, p, q);
    forall j: nat
      ensures j in Ahead(recs, star, i) ==> j in Taken(recs, star, order, p)
    {
      if j in Ahead(recs, star, i) {
        assert j in order;
        var q: nat :| q < |order| && order[q] == j;
        assert q > p ==> InPlace(recs, order, p, q);
      }
    }
    forall j: nat | j in Taken(recs, star, order, p)
      ensures j in Ahead(recs, star, i)
    {
      var q: nat :| q < p && (assert order[q] in order; !Past(recs, star, order[q])) && order[q] == j;
      assert InPlace(recs, order, q, p);
    }
  }

  lemma TakenNext(recs: seq<Rec>, star: real, order: seq<nat>, k: nat)
    requires Ordered(recs, order) && k < |order|
    ensures order[k] in order && Taken(recs, star, order, k + 1) ==
      Taken(recs, star, order, k) + (if Past(recs, star, order[k]) then {} else {order[k]})
    ensures order[k] !in Taken(recs, star, order, k)
  {
    assert order[k] in order;
    OneEach(recs, order, k);
  }

  lemma {:induction false} TakenGrows(recs: seq<Rec>, star: real, order: seq<nat>, k: nat, p: nat)
    requires Ordered(recs, order) && k <= p <= |order|
    ensures |Taken(recs, star, order, k)| <= |Taken(recs, star, order, p)|
    decreases p
  {
    hide Ordered, Past;
    if k < p {
      TakenNext(recs, star, order, p - 1);
      TakenGrows(recs, star, order, k, p - 1);
    }
  }

  function RawOf(recs: seq<Rec>): AgentChains.Reqs {
    map i: nat | i < |recs| :: AgentChains.Raw(recs[i].t, false, 0.0, [], 0, 0, 0, false)
  }

  lemma InTimeOrdered(recs: seq<Rec>, order: seq<nat>)
    requires AgentChains.InTime(RawOf(recs), order) && forall i: nat :: i < |recs| <==> i in order
    ensures Ordered(recs, order)
  {
    forall j, k | 0 <= j < k < |order|
      ensures InPlace(recs, order, j, k)
    {
      assert order[j] in order && order[k] in order && AgentChains.Sooner(RawOf(recs), order[j], order[k]);
    }
  }

  /** The requests in the order of their recorded start. */
  method InOrder(recs: seq<Rec>) returns (order: seq<nat>)
    ensures Ordered(recs, order)
  {
    hide Ordered, AgentChains.InTime;
    var all := seq(|recs|, i requires 0 <= i < |recs| => i as nat);
    forall i: nat
      ensures i in all <==> i < |recs|
    {
      if i < |recs| { assert all[i] == i; }
    }
    order := AgentChains.InTimeOrder(RawOf(recs), all);
    InTimeOrdered(recs, order);
  }

  /** The classes of the requests at the snapshot, before the budget for requests without pauses is spent. */
  method BeforeBudget(recs: seq<Rec>, agents: nat, star: real) returns (cls: seq<Class>)
    requires forall i :: 0 <= i < |recs| ==> recs[i].agent < agents
    ensures |cls| == |recs| && forall i: nat :: i < |recs| ==>
      cls[i] == if Past(recs, star, i) then (if Resumes(recs, star, i) then Primer else Skipped) else Normal(false)
  {
    hide Resumes, LastIs, HasAfter;
    var last, after := Agents(recs, agents, star);
    cls := seq(|recs|, _ => Normal(false));
    for i := 0 to |recs|
      invariant |cls| == |recs| && forall j: nat :: j < |recs| ==>
        cls[j] == if j < i && Past(recs, star, j) then (if Resumes(recs, star, j) then Primer else Skipped)
          else Normal(false)
    {
      if recs[i].t < star {
        ResumesIs(recs, star, i, last[recs[i].agent], after[recs[i].agent]);
        cls := cls[i := if after[recs[i].agent] && last[recs[i].agent] == i then Primer else Skipped];
      }
    }
  }

  /** The snapshot at which an initial play starts. */
  method Snapshot(recs: seq<Rec>, agents: nat, star: real, budget: int) returns (cls: seq<Class>)
    requires forall i :: 0 <= i < |recs| ==> recs[i].agent < agents
    ensures |cls| == |recs| && forall i: nat :: i < |recs| ==> ClassIs(recs, star, budget, i, cls[i])
  {
    hide Resumes, Taken, Ordered, Ahead;
    cls := BeforeBudget(recs, agents, star);
    ghost var cls0 := cls;
    var order := InOrder(recs);
    InRange(recs, order);
    var left := budget;
    var k := 0;
    NoneTaken(recs, star, order);
    while k < |order| && left > 0
      invariant k <= |order| && |cls| == |recs| && left == budget - |Taken(recs, star, order, k)|
      invariant forall q: nat :: q < |order| ==>
        order[q] < |recs| && cls[order[q]] == if q < k && !Past(recs, star, order[q]) then Normal(true)
          else cls0[order[q]]
      invariant forall q: nat :: q < k && !Past(recs, star, order[q]) ==> |Taken(recs, star, order, q)| < budget
    {
      TakenNext(recs, star, order, k);
      if cls[order[k]] == Normal(false) {
        OneEach(recs, order, k);
        cls := cls[order[k] := Normal(true)];
        left := left - 1;
      }
      k := k + 1;
    }
    forall i: nat | i < |recs|
      ensures ClassIs(recs, star, budget, i, cls[i])
    {
      var p := PlaceOf(recs, order, i);
      TakenAhead(recs, star, order, p);
      assert order[p] == i && Taken(recs, star, order, p) == Ahead(recs, star, i);
      if p >= k { TakenGrows(recs, star, order, k, p); }
    }
  }

  lemma InRange(recs: seq<Rec>, order: seq<nat>)
    requires Ordered(recs, order)
    ensures forall q: nat :: q < |order| ==> order[q] in order && order[q] < |recs|
    ensures forall x :: x in order ==> x < |recs|
  {
    forall q: nat | q < |order|
      ensures order[q] in order && order[q] < |recs|
    {
      assert order[q] in order;
    }
  }

  lemma NoneTaken(recs: seq<Rec>, star: real, order: seq<nat>)
    requires forall x :: x in order ==> x < |recs|
    ensures Taken(recs, star, order, 0) == {}
  {
  }

  lemma OneEach(recs: seq<Rec>, order: seq<nat>, k: nat)
    requires Ordered(recs, order) && k < |order|
    ensures forall q: nat :: q < |order| && q != k ==> order[q] != order[k]
  {
    forall q: nat | q < |order| && q != k
      ensures order[q] != order[k]
    {
      assert if q < k then InPlace(recs, order, q, k) else InPlace(recs, order, k, q);
    }
  }

  lemma PlaceOf(recs: seq<Rec>, order: seq<nat>, i: nat) returns (p: nat)
    requires Ordered(recs, order) && i < |recs|
    ensures p < |order| && order[p] == i
  {
    assert i in order;
    p :| p < |order| && order[p] == i;
  }

  // ---- a lane joins a session ----

  method AgentBound(recs: seq<Rec>) returns (agents: nat)
    ensures forall i :: 0 <= i < |recs| ==> recs[i].agent < agents
  {
    agents := 0;
    for i := 0 to |recs|
      invariant forall j :: 0 <= j < i ==> recs[j].agent < agents
    {
      if recs[i].agent >= agents { agents := recs[i].agent + 1; }
    }
  }

  /** A session joined in the middle, from chains that are joined later than they are spawned: all that the snapshot
      leaves to play is played, once. */
  method Join(main: seq<SessionGraph.Item>, subs: seq<SessionGraph.Sub>, flats: seq<seq<SessionGraph.Item>>, star: real,
              budget: int, start: real)
    returns (recs: seq<Rec>, cls: seq<Class>, order: seq<nat>)
    requires SessionGraph.HooksOk(main, subs, flats)
    requires (flats != [] ==> main != []) && forall f :: f in flats ==> f != []
    ensures |cls| == |recs| == |main + SessionGraph.KeptItems(main, subs) + SessionGraph.Cat(flats)|
    ensures forall i: nat :: i < |recs| ==> ClassIs(recs, star, budget, i, cls[i])
    ensures Distinct(order) && forall k: nat :: k in order <==> k < |cls| && !cls[k].Skipped?
  {
    hide SessionGraph.HooksOk, SessionGraph.Cyclic, SessionGraph.Emitted, SessionGraph.Delayed,
         SessionGraph.TraceMarks, SessionGraph.Upwards, SessionGraph.KeptItems, SessionGraph.Cat, SessionGraph.Line,
         SessionGraph.KeptEdges, SessionGraph.FlatEdges, ClassIs;
    var requests, hashIds, edges, delays;
    ghost var places;
    requests, hashIds, edges, delays, places := SessionGraph.BuildTrace(main, subs, flats);
    SessionGraph.AllEmitted(requests, hashIds, main + SessionGraph.KeptItems(main, subs) + SessionGraph.Cat(flats),
      SessionGraph.TraceMarks(main, subs, flats));
    SessionGraph.AllDelayed(delays, edges, main + SessionGraph.KeptItems(main, subs) + SessionGraph.Cat(flats));
    recs := seq(|requests|, k requires 0 <= k < |requests| => Rec(requests[k].agent, requests[k].t));
    var agents := AgentBound(recs);
    cls := Snapshot(recs, agents, star, budget);
    var classes := cls;
    var n;
    n, order := PlayGraph(edges, delays, seq(|recs|, k requires 0 <= k < |recs| => recs[k].t),
      (k: nat) => if k < |classes| then classes[k] else Skipped, star, start);
  }
}
