/** What the invariants of a rank mean for its users. */
module Guarantees {
  import opened Commons

  import opened KvTree
  import opened KvHolds
  import opened Requests
  import opened KvCache
  import opened Planning
  import opened Scheduler

  // ---- nothing a request relies on leaves the device tier ----

  lemma PinnedAbove(c: Tree, plays: seq<Play>, n: int, a: int)
    requires Inv(c, plays) && PinnedTop(c) && n in c && c[n].pins > 0 && Anc(c, a, n)
    ensures a in c && c[a].tier == 0 && !Evictable(c, a)
  {
    TierAlongPath(c, a, n);
    if Evictable(c, a) { EvictableSubtree(c, a, n); }
  }

  /** Every segment on the way to a segment an active request holds is live, on the device tier and safe from
      eviction. */
  lemma HeldPathStays(reqs: seq<Req>, b: seq<Entry>, c: Tree, plays: seq<Play>, caches: bool, nextn: nat, i: nat,
                      n: int, a: int)
    requires Inv(c, plays) && World(reqs, b, c, plays, caches, nextn) && i < |reqs| && Active(reqs[i])
    requires n != -1 && (n == reqs[i].hitNode || n == reqs[i].ownNode)
    ensures n in c && (Anc(c, a, n) ==> a in c && c[a].tier == 0 && !Evictable(c, a))
  {
    hide Inv, ReqsOk, Owns, BatchOk;
    HolderPinned(reqs, c, i);
    InvShape(c, plays);
    if Anc(c, a, n) { PinnedAbove(c, plays, n, a); }
  }

  /** The prompt prefix a decoding request computed on is in the tree, block for block. */
  lemma PromptResident(reqs: seq<Req>, b: seq<Entry>, c: Tree, plays: seq<Play>, nextn: nat, i: nat, q: nat)
    requires Inv(c, plays) && World(reqs, b, c, plays, true, nextn) && i < |reqs| && reqs[i].st.Decode?
    requires Fits(reqs[i], plays) && q < plays[reqs[i].play].reqs[reqs[i].tr].count
    ensures reqs[i].ownNode in c && q < End(c[reqs[i].ownNode])
    ensures PathBlock(c, plays, reqs[i].ownNode, q) == BlockOf(plays[reqs[i].play], reqs[i].tr, q)
  {
    hide PinsExact, Owns, BatchOk, PathBlock;
    assert ReqOk(reqs[i], Pend(b, i), c, plays, true);
  }

  // ---- queues ----

  /** A request is in the one list its state names, once, and in no other. */
  lemma QueuesExact(reqs: seq<Req>, waiting: seq<nat>, running: seq<nat>, loading: set<nat>, i: nat)
    requires Queues(reqs, waiting, running, loading, {}) && i < |reqs|
    ensures multiset(waiting)[i] == (if reqs[i].st.Queued? then 1 else 0)
    ensures multiset(running)[i] == (if Active(reqs[i]) then 1 else 0)
    ensures i in loading <==> reqs[i].st.Loading?
  {
    OnceIn(waiting, i);
    OnceIn(running, i);
  }

  lemma {:induction false} OnceIn(s: seq<nat>, i: nat)
    requires Distinct(s)
    ensures multiset(s)[i] == (if i in s then 1 else 0)
    decreases |s|
  {
    if s != [] {
      var n := |s| - 1;
      OnceIn(s[..n], i);
      assert s == s[..n] + [s[n]];
      assert s[n] !in s[..n];
    }
  }

  // ---- token counts ----

  lemma {:induction false} OffTreeNonNegative(reqs: seq<Req>)
    requires forall i :: 0 <= i < |reqs| ==> OffTree(reqs[i]) >= 0
    ensures OffTreeSum(reqs) >= 0
    decreases |reqs|
  {
    if reqs != [] { OffTreeNonNegative(reqs[..|reqs| - 1]); }
  }

  lemma OffTreeOne(r: Req, pend: int, c: Tree, plays: seq<Play>, caches: bool)
    requires Inv(c, plays) && ReqOk(r, pend, c, plays, caches)
    ensures OffTree(r) >= 0
    ensures OffTree(r) == (if r.st.Decode? && caches then r.generated - 1 + pend else if Active(r) then r.alloc else 0)
  {
  }

  /** As long as no preemption met a split segment, each tier counts exactly what is there: the device tier the tokens
      in the tree and those charged to requests beside it, a lower tier the tokens in the tree. */
  lemma ExactCount(reqs: seq<Req>, b: seq<Entry>, used: seq<int>, c: Tree, plays: seq<Play>, caches: bool, nextn: nat,
                   t: nat)
    requires Inv(c, plays) && World(reqs, b, c, plays, caches, nextn) && Booked(used, c, plays, OffTreeSum(reqs))
    requires t < |used|
    ensures used[t] == TierTok(c, plays, t) + (if t == 0 then OffTreeSum(reqs) else 0)
    ensures OffTreeSum(reqs) >= 0 && used[t] >= 0
  {
    hide Inv, ReqOk, PinsExact, Owns, BatchOk;
    forall i | 0 <= i < |reqs|
      ensures OffTree(reqs[i]) >= 0
    {
      OffTreeOne(reqs[i], Pend(b, i), c, plays, caches);
    }
    OffTreeNonNegative(reqs);
  }

  // ---- a run from the start ----

  /** What became of a request, whatever chunks, speculation and preemptions it went through: it fails exactly when it
      is too big for the device tier, and otherwise ends with all its output and an exact account. */
  ghost predicate Settled(r: Req, s: Req, room: int) {
    && s.isl == r.isl && s.osl == r.osl
    && (s.st.Done? ==> (s.failed <==> TooBig(r, room)))
    && (TooBig(r, room) ==> s.st.Pending? || s.st.Queued? || s.failed)
    && (s.st.Done? && !s.failed ==>
          s.generated == s.osl && s.itl == s.osl - 1 && s.alloc == s.isl - s.hitTokens + s.osl - 1)
    && (s.st.Done? && s.failed ==> s.alloc == 0)
  }

  lemma RunSettles(reqs0: seq<Req>, reqs: seq<Req>, b: seq<Entry>, c: Tree, plays: seq<Play>, caches: bool, nextn: nat,
                   i: nat, room: int)
    requires Inv(c, plays) && World(reqs, b, c, plays, caches, nextn) && Onward(reqs0, reqs) && i < |reqs| &&
      Judged(reqs, room)
    ensures Settled(reqs0[i], reqs[i], room)
  {
  }

  /** Every run of a rank from an empty cache, for every sequence of events. */
  method Simulate(cap: seq<nat>, plays: seq<Play>, limit: real, cfg: Config, reqs: seq<Req>, events: seq<Happening>)
    returns (final: seq<Req>, used: seq<int>, ghost tree: Tree, ghost leak: int)
    requires |cap| > 0 && (cfg.chunked ==> cfg.chunkTokens > 0)
    requires forall i :: 0 <= i < |reqs| ==> Untouched(reqs[i], plays)
    ensures |final| == |reqs| && forall i :: 0 <= i < |reqs| ==> Settled(reqs[i], final[i], cap[0])
    ensures |used| == |cap| && forall t :: 0 <= t < |cap| ==> used[t] <= cap[t]
    ensures leak >= 0 && Booked(used, tree, plays, OffTreeSum(final) - leak)
    ensures leak == 0 ==> OffTreeSum(final) >= 0 && forall t: nat :: t < |used| ==>
      used[t] == TierTok(tree, plays, t) + (if t == 0 then OffTreeSum(final) else 0)
  {
    hide Onward, Judged, World, Queues, Booked, Settled, Inv, Stands, Slots, Roots;
    var rank := new Rank(cap, plays, limit, cfg, reqs);
    rank.Run(events);
    final, used := rank.reqs, rank.cache.used;
    tree, leak := rank.cache.tree, rank.leak;
    SameLength(reqs, final);
    forall i | 0 <= i < |reqs|
      ensures Settled(reqs[i], final[i], cap[0])
    {
      RunSettles(reqs, final, rank.batch, tree, plays, cfg.caches, cfg.nextn, i, cap[0]);
    }
    if leak == 0 {
      forall t: nat | t < |used|
        ensures OffTreeSum(final) >= 0 && used[t] == TierTok(tree, plays, t) + (if t == 0 then OffTreeSum(final) else 0)
      {
        ExactCount(final, rank.batch, used, tree, plays, cfg.caches, cfg.nextn, t);
      }
    }
  }

  lemma SameLength(reqs0: seq<Req>, reqs: seq<Req>)
    requires Onward(reqs0, reqs)
    ensures |reqs| == |reqs0|
  {
  }
}
