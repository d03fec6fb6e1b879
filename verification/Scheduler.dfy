/** The continuous-batching scheduler of one rank over its prefix cache. */
module Scheduler {
  import opened Commons

  import opened KvTree
  import opened KvHolds
  import opened Requests
  import opened Turns
  import opened Planning
  import opened KvCache
  import opened Expiry
  import Hits

  class Rank {
    const cache: Cache
    const cfg: Config
    var reqs: seq<Req>
    var waiting: seq<nat>
    var running: seq<nat>
    var loading: nat
    var sincePrefill: int
    var batch: seq<Entry>
    var busy: bool
    ghost var loads: set<nat>
    /** Tokens of split-off segments that preemptions refunded although they stayed in the tree. */
    ghost var leak: int

    /** Requests, pins, queues and token counters agree; `done` may still be listed as running. */
    ghost predicate Sound(done: set<nat>)
      reads this, cache
    {
      && cache.Valid()
      && (cfg.chunked ==> cfg.chunkTokens > 0)
      && World(reqs, batch, cache.tree, cache.plays, cfg.caches, cfg.nextn)
      && Queues(reqs, waiting, running, loads, done) && |loads| == loading
      && Booked(cache.used, cache.tree, cache.plays, OffTreeSum(reqs) - leak) && leak >= 0
    }

    ghost function State(): View
      reads this, cache
    {
      View(reqs, waiting, running, batch, cache.tree, leak)
    }

    constructor (cap: seq<nat>, plays: seq<Play>, residencyLimit: real, cfg: Config, reqs: seq<Req>)
      requires |cap| > 0 && (cfg.chunked ==> cfg.chunkTokens > 0)
      requires forall i :: 0 <= i < |reqs| ==> Untouched(reqs[i], plays)
      ensures Steady() && Sound({}) && batch == [] && running == [] && !busy && leak == 0 && fresh(cache)
      ensures this.reqs == reqs && this.cfg == cfg && cache.plays == plays && cache.cap == cap
      ensures waiting == [] && cache.tree == map[] && cache.residencyLimit == residencyLimit && sincePrefill == 0
    {
      cache := new Cache(cap, plays, residencyLimit);
      this.cfg, this.reqs := cfg, reqs;
      waiting, running, loading, sincePrefill, batch, busy := [], [], 0, 0, [], false;
      loads, leak := {}, 0;
      new;
      UntouchedWorld(reqs, cache.tree, plays, cfg.caches, cfg.nextn);
      EmptyTok(cache.tree, plays);
    }

    /** Request id was looked up, and what its hit needs does not fit. */
    ghost predicate NoRoom(id: nat, firstChunk: int, limited: bool)
      reads this, cache
    {
      |cache.cap| > 0 &&
      NoRoomIn(cfg, cache.plays, cache.residencyLimit, cache.cap[0], State(), id, firstChunk, limited)
    }

    lemma ChunkOut(id: nat, firstChunk: int, limited: bool, c: Tree, look: Look, now: real)
      requires cache.Valid() && id < |reqs| && Inv(c, cache.plays) && Fits(reqs[id], cache.plays)
      requires Booked(cache.used, cache.tree, cache.plays, OffTreeSum(reqs) - leak)
      requires Sought(c, look, cache.plays, reqs[id], now, cache.residencyLimit) && !look.hit.lower
      requires var chunk := FirstOf(reqs[id], look.hit.blocks, cache.plays, firstChunk, limited); (
        cache.used[0] + chunk > cache.cap[0] &&
        (if cfg.caches
          then Tried(look, cache.plays, reqs[id].play, now, OffTreeSum(reqs) - leak, chunk, cache.cap[0], false,
            cache.tree)
         else look.hit == Hit(-1, 0, 0, false)))
      ensures NoRoom(id, firstChunk, limited)
    {
      hide Inv, Fits, Sought, Tried, FirstOf, OffTreeSum, Booked, TierTok;
      UsedIs(cache.used, State(), cache.plays);
      assert NoRoomAt(cfg, cache.plays, cache.residencyLimit, cache.cap[0], State(), id, firstChunk, limited, c, look,
        now);
    }

    lemma LoadOut(id: nat, firstChunk: int, limited: bool, c: Tree, look: Look, now: real)
      requires cache.Valid() && id < |reqs| && Inv(c, cache.plays) && Fits(reqs[id], cache.plays)
      requires Booked(cache.used, cache.tree, cache.plays, OffTreeSum(reqs) - leak)
      requires Sought(c, look, cache.plays, reqs[id], now, cache.residencyLimit) && look.hit.lower
      requires Sheds(look.at, cache.tree, 0) && LoadRefused(look.hit.node)
      ensures NoRoom(id, firstChunk, limited)
    {
      hide Inv, Fits, Sought, Sheds, Booked, TierTok, OffTreeSum;
      UsedIs(cache.used, State(), cache.plays);
      assert NoRoomAt(cfg, cache.plays, cache.residencyLimit, cache.cap[0], State(), id, firstChunk, limited, c, look,
        now);
    }

    /** The tokens of segment n's path below the device tier do not fit in it. */
    ghost predicate LoadRefused(n: int)
      reads this, cache
    {
      && |cache.used| == |cache.cap| > 0 && Shape(cache.tree) && n in cache.tree && cache.tree[n].tier > 0
      && cache.used[0] + SumTok(cache.tree, cache.plays, LowerPart(cache.tree, Path(cache.tree, n))) > cache.cap[0]
    }

    /** The first half of `preempt`: the request lets go of the segment it inserted. */
    method ReleaseOwn(id: nat) returns (kept: int)
      requires Sound({}) && id < |reqs| && Active(reqs[id])
      modifies cache
      ensures cache.Valid() && cache.used == old(cache.used)
      ensures OwnFound(reqs[id], old(cache.tree)) && cache.tree == OwnReleased(reqs[id], old(cache.tree))
      ensures OwnStep(reqs, old(cache.tree), cache.tree, cache.plays, id)
      ensures 0 <= kept <= OwnTok(reqs[id], old(cache.tree), cache.plays)
      ensures forall t :: 0 <= t < |cache.used| ==>
        TierTok(cache.tree, cache.plays, t) == TierTok(old(cache.tree), cache.plays, t)
          + (if t == 0 then kept - OwnTok(reqs[id], old(cache.tree), cache.plays) else 0)
    {
      hide Inv, Stands, Slots, Roots, TierTok, Firm, Fixed, ReqsOk, PinsExact, PinnedTop, Owns, BatchOk, Queues,
           Evictable, CanPin, OthersFixed, TailsKept, ReqOk, OwnStep, Remove, Desc;
      ActiveFacts(reqs, batch, cache.tree, cache.plays, cfg.caches, cfg.nextn, id);
      var r := reqs[id];
      ghost var c := cache.tree;
      InvShape(c, cache.plays);
      kept := 0;
      if r.ownNode == -1 {
        NothingReleased(reqs, c, cache.plays, id);
        return;
      }
      RepAt(cache.nodes, cache.lru, cache.tree, cache.plays, {}, r.ownNode);
      KidsNonNegative(c, cache.plays, r.ownNode);
      var n := cache.nodes[r.ownNode];
      if n.pins > 1 || n.firstChild != -1 {
        kept := cache.NodeTokens(n);
        cache.AddPin(r.ownNode, -1);
        KeptReleased(reqs, c, cache.plays, id);
      } else {
        cache.DropNodeUnaccounted(r.ownNode);
        DropReleased(reqs, c, cache.plays, id);
      }
    }

    /** The middle of `preempt`: the tokens charged to the request go back, but for those kept in the tree. */
    method ReturnTokens(id: nat)
      requires Sound({}) && id < |reqs| && Active(reqs[id])
      modifies cache
      ensures cache.Valid() && OwnStep(reqs, old(cache.tree), cache.tree, cache.plays, id)
      ensures Booked(cache.used, cache.tree, cache.plays,
        OffTreeSum(reqs) - leak - reqs[id].alloc + OwnTok(reqs[id], old(cache.tree), cache.plays))
    {
      hide Booked, Inv, Stands, Slots, Roots, TierTok, World, Queues, OwnStep, OwnReleased, OwnTok;
      ghost var c, used0 := cache.tree, cache.used;
      OwnBound(reqs, batch, c, cache.plays, cfg.caches, cfg.nextn, id);
      var kept := ReleaseOwn(id);
      BookedLetGo(used0, c, cache.tree, cache.plays, OffTreeSum(reqs) - leak, kept, OwnTok(reqs[id], c, cache.plays),
        reqs[id].alloc);
      cache.Charge(-(reqs[id].alloc - kept));
    }

    /** A preempted request's tokens and pins go back; only blocks its own segment still holds are kept. */
    method LetGo(id: nat)
      requires Sound({}) && id < |reqs| && Unfinished(reqs[id]) && forall e :: e in batch ==> e.req != id
      modifies cache
      ensures cache.Valid() &&
        World(reqs[id := Preempted(reqs[id])], batch, cache.tree, cache.plays, cfg.caches, cfg.nextn)
      ensures SplitOff(reqs[id], old(cache.tree), cache.plays) >= 0
      ensures Booked(cache.used, cache.tree, cache.plays,
        OffTreeSum(reqs[id := Preempted(reqs[id])]) - (leak + SplitOff(reqs[id], old(cache.tree), cache.plays)))
    {
      hide Booked, Inv, Stands, Slots, Roots, TierTok, Firm, Fixed, ReqsOk, PinsExact, PinnedTop, Owns, BatchOk,
           Queues, Evictable, CanPin, OthersFixed, TailsKept, ReqOk, OwnReleased;
      ghost var c := cache.tree;
      var r := reqs[id];
      ActiveFacts(reqs, batch, c, cache.plays, cfg.caches, cfg.nextn, id);
      BatchOthers(reqs, batch, cfg.nextn, id, Preempted(r));
      SplitOffIs(r, 0, c, cache.plays, cfg.caches);
      ReturnTokens(id);
      ghost var d := cache.tree;
      HitStillHeld(reqs, c, d, cache.plays, id);
      ghost var used1 := cache.used;
      cache.Unpin(r.hitNode);
      BookedKept(used1, cache.used, d, cache.tree, cache.plays,
        OffTreeSum(reqs) - leak - r.alloc + OwnTok(r, c, cache.plays));
      PreemptWorld(reqs, batch, c, d, cache.tree, cache.plays, cfg.caches, cfg.nextn, id);
      OffTreeUpdate(reqs, id, Preempted(r));
    }

    /** Recompute preemption of the request at position j of the running list. */
    method Preempt(j: nat)
      requires Sound({}) && j < |running| && forall e :: e in batch ==> e.req != running[j]
      modifies this`reqs, this`waiting, this`running, this`leak, cache
      ensures Sound({}) && old(running)[j] < |old(reqs)| && Planned(old(reqs), reqs, cache.cap[0])
      ensures reqs == old(reqs)[old(running)[j] := Preempted(old(reqs)[old(running)[j]])]
      ensures waiting == [old(running)[j]] + old(waiting)
      ensures running == old(running)[..j] + old(running)[j + 1..]
      ensures leak == old(leak) + SplitOff(old(reqs)[old(running)[j]], old(cache.tree), cache.plays)
      ensures leak >= old(leak)
      ensures leak == old(leak) <==> WholeOwn(old(reqs)[old(running)[j]], old(cache.tree))
    {
      hide Inv, World, Stands, Slots, Roots, TierTok, Queues, SplitOff, Booked;
      RunningActive(reqs, waiting, running, loads, j);
      var id := running[j];
      var r := reqs[id];
      QueuesPreempt(reqs, waiting, running, loads, j, Preempted(r));
      PreemptLeak(reqs, batch, cache.tree, cache.plays, cfg.caches, cfg.nextn, id);
      LetGo(id);
      leak := leak + SplitOff(r, old(cache.tree), cache.plays);
      PlannedOne(reqs, id, Preempted(r), cache.cap[0]);
      reqs := reqs[id := Preempted(r)];
      waiting := [id] + waiting;
      running := running[..j] + running[j + 1..];
    }

    // ---- admission ----

    /** The engine's `lookup` on this rank, as the router and the admission use it. */
    method FindPrefix(play: nat, r: nat, now: real) returns (h: Hit, ghost mid: Tree)
      requires Sound({}) && GoodReq(cache.plays, play, r)
      modifies cache
      ensures Sound({}) &&
        LookedUp(old(cache.tree), mid, cache.plays, h, cache.tree, play, r, now, cache.residencyLimit)
      ensures cache.roots == old(cache.roots)
      ensures h.node == -1 ==> h == Hit(-1, 0, 0, false) && play !in cache.roots
      ensures h.node != -1 ==> h.node in cache.tree && cache.tree[h.node].play == play && HitAt(cache.tree[h.node], h)
      ensures h.node != -1 ==>
        PathIs(cache.tree, cache.plays, h.node, r, h.blocks) && (h.lower <==> cache.tree[h.node].tier > 0)
      ensures h.node != -1 ==> h.blocks <= cache.plays[play].reqs[r].count
    {
      hide Inv, World, Stands, Slots, Roots, TierTok, Queues, Booked, PathIs, Lapsed, TouchSet, Chained, Deepest,
           StartsWith, Anc, Fresh, Sheds;
      ghost var c, used0 := cache.tree, cache.used;
      h, mid := cache.Lookup(play, r, now);
      InvShape(c, cache.plays);
      LapsedSheds(c, mid, now, cache.residencyLimit);
      WorldSheds(reqs, batch, c, mid, cache.plays, cfg.caches, cfg.nextn);
      if h.node != -1 {
        InvShape(mid, cache.plays);
        ghost var s := TouchSet(mid, h.node, now);
        WorldStamp(reqs, batch, mid, s, now, cache.plays, cfg.caches, cfg.nextn);
        StampPathIs(mid, cache.plays, s, now, h.node, r, h.blocks);
        PathBound(mid, cache.plays, h.node, r, h.blocks);
      }
      BookedKept(used0, cache.used, c, cache.tree, cache.plays, OffTreeSum(reqs) - leak);
    }

    /** The hit an admission uses: a prompt found whole gives its last block back to be recomputed. */
    method FindHit(id: nat, now: real) returns (h: Hit, ghost look: Look)
      requires Sound({}) && id < |reqs| && reqs[id].st.Queued?
      modifies cache
      ensures Sound({}) && Fits(reqs[id], cache.plays)
      ensures Sought(old(cache.tree), look, cache.plays, reqs[id], now, cache.residencyLimit) && look.hit == h &&
        look.at == cache.tree
      ensures cache.roots == old(cache.roots) && (cfg.caches && reqs[id].play in cache.roots ==> look.found.node != -1)
      ensures Usable(cache.tree, cache.plays, h, reqs[id].play, reqs[id].tr)
      ensures h.node == -1 && cfg.caches ==> reqs[id].play !in cache.roots
      ensures !cfg.caches ==> h == Hit(-1, 0, 0, false) && cache.tree == old(cache.tree)
    {
      hide Inv, Stands, Slots, Roots, TierTok, Queues, Booked, PathIs, Chained, World, Fits, HitAt, Found, Lapsed;
      h := Hit(-1, 0, 0, false);
      look := Look(cache.tree, h, cache.tree, h, cache.tree, -1, cache.tree);
      ReqFits(reqs, batch, cache.tree, cache.plays, cfg.caches, cfg.nextn, id);
      if !cfg.caches { return; }
      var play, tr := reqs[id].play, reqs[id].tr;
      ghost var mid;
      h, mid := FindPrefix(play, tr, now);
      look := Look(mid, h, cache.tree, h, cache.tree, -1, cache.tree);
      if h.blocks > 0 && h.blocks == cache.plays[play].reqs[tr].count {
        h := Hits.GiveLastBack(cache, play, tr, h);
        look := look.(hit := h);
      }
    }

    /** The tier-load branch of `admit_prefill`, as far as the cache is concerned. */
    method LoadInto(id: nat, h: Hit) returns (ok: bool, ghost moved: nat)
      requires Sound({}) && id < |reqs| && reqs[id].st.Queued? && Fits(reqs[id], cache.plays)
      requires Usable(cache.tree, cache.plays, h, reqs[id].play, reqs[id].tr) && h.lower
      modifies cache
      ensures cache.Valid() && Booked(cache.used, cache.tree, cache.plays, OffTreeSum(reqs) - leak)
      ensures !ok ==>
        World(reqs, batch, cache.tree, cache.plays, cfg.caches, cfg.nextn) && Sheds(old(cache.tree), cache.tree, 0)
      ensures !ok ==> LoadRefused(h.node)
      ensures ok ==>
        World(reqs[id := LoadingReq(reqs[id], h.node)], batch, cache.tree, cache.plays, cfg.caches, cfg.nextn)
      ensures ok ==> OffTreeSum(reqs[id := LoadingReq(reqs[id], h.node)]) == OffTreeSum(reqs)
      ensures reqs[id].play < |cache.plays| && (ok ==> moved >= cache.plays[reqs[id].play].blockSize)
    {
      hide Inv, Stands, Slots, Roots, TierTok, Queues, Booked, PathIs, Chained, World, Path, LowerPart, PinAll,
           LiftAll, Sheds, CanFree, Firm, TailsKept, ReqOk, PinnedTop, PinsExact;
      ghost var c, used0, plays := cache.tree, cache.used, cache.plays;
      WorldTop(reqs, batch, c, plays, cfg.caches, cfg.nextn);
      HitBlocks(c, plays, h, reqs[id].play, reqs[id].tr);
      LowerMoves(c, plays, h.node);
      InvShape(c, plays);
      ghost var p := Path(c, h.node);
      ghost var c1: Tree;
      ok, moved, c1 := cache.LoadHit(h.node);
      BookedKept(used0, cache.used, c, cache.tree, plays, OffTreeSum(reqs) - leak);
      if ok {
        LoadedStep(c, PinAll(c, p, 1), c1, LiftAll(c1, p), cache.tree, plays, h.node);
        LoadingWorld(reqs, batch, c, cache.tree, plays, cfg.caches, cfg.nextn, id, h.node);
      } else {
        BlockedStep(c, PinAll(c, p, 1), c1, cache.tree, plays, h.node);
        WorldSheds(reqs, batch, c, cache.tree, plays, cfg.caches, cfg.nextn);
        StillLower(c, cache.tree, h.node);
      }
    }

    /** The tier-load branch of `admit_prefill` for the request at the head of the queue. */
    method StartLoad(h: Hit) returns (ok: bool, ghost moved: nat)
      requires Sound({}) && waiting != [] && waiting[0] < |reqs| && Fits(reqs[waiting[0]], cache.plays)
      requires Usable(cache.tree, cache.plays, h, reqs[waiting[0]].play, reqs[waiting[0]].tr) && h.lower
      requires !TooBig(reqs[waiting[0]], cache.cap[0])
      modifies this`reqs, this`waiting, this`loading, this`loads, cache
      ensures Sound({}) && old(waiting[0]) < |old(reqs)| && Planned(old(reqs), reqs, cache.cap[0])
      ensures !ok ==>
        reqs == old(reqs) && waiting == old(waiting) && loading == old(loading) && Sheds(old(cache.tree), cache.tree, 0)
      ensures !ok ==> LoadRefused(h.node)
      ensures ok ==> reqs == old(reqs)[old(waiting[0]) := LoadingReq(old(reqs)[old(waiting[0])], h.node)]
      ensures ok ==> waiting == old(waiting)[1..] && loading == old(loading) + 1
      ensures old(reqs)[old(waiting[0])].play < |cache.plays|
      ensures ok ==> moved >= cache.plays[old(reqs)[old(waiting[0])].play].blockSize
    {
      hide LoadRefused, Onward, Shape, Inv, Stands, Slots, Roots, TierTok, Queues, Booked, World, Sheds, Usable, Fits;
      var id := waiting[0];
      HeadQueued(reqs, waiting, running, loads);
      ok, moved := LoadInto(id, h);
      if ok {
        QueuesPop(reqs, waiting, running, loads, LoadingReq(reqs[id], h.node));
        PlannedOne(reqs, id, LoadingReq(reqs[id], h.node), cache.cap[0]);
        reqs := reqs[id := LoadingReq(reqs[id], h.node)];
        waiting := waiting[1..];
        loading := loading + 1;
        loads := loads + {id};
      }
    }

    /** Pins an admission's hit. */
    method PinFor(id: nat, h: Hit, now: real) returns (p: int, ghost m: Tree)
      requires Sound({}) && id < |reqs| && Fits(reqs[id], cache.plays) && cfg.caches
      requires Usable(cache.tree, cache.plays, h, reqs[id].play, reqs[id].tr) && !h.lower
      requires h.node == -1 ==> reqs[id].play !in cache.roots
      modifies cache
      ensures cache.Valid() && cache.used == old(cache.used)
      ensures OnePinMore(old(cache.tree), cache.tree, cache.plays, p)
      ensures Grounded(cache.tree, cache.plays, p, reqs[id].play, reqs[id].tr, h.blocks)
      ensures Prepared(old(cache.tree), m, h, p, reqs[id].play, now) && p in m && cache.tree == AddPins(m, p, 1)
      ensures forall t :: 0 <= t < |cache.used| ==>
        TierTok(cache.tree, cache.plays, t) == TierTok(old(cache.tree), cache.plays, t)
    {
      hide Inv, Stands, Slots, Roots, TierTok, Queues, Booked, PathIs, Chained, Firm, TailsKept, Grounded, ReqsOk,
           BatchOk, Owns, PinsExact, PinnedTop;
      ghost var c := cache.tree;
      p, m := cache.PinHit(reqs[id].play, h, now);
      HitPinnedStep(c, m, cache.tree, cache.plays, h, p, reqs[id].play, reqs[id].tr, now);
    }

    /** With a prefix cache: pin the hit, make room for the first chunk beside it, give the pin back if there is
        none. */
    method PinCached(id: nat, h: Hit, chunk: int, now: real) returns (ok: bool, p: int, ghost look: Look)
      requires Sound({}) && id < |reqs| && reqs[id].st.Queued? && Fits(reqs[id], cache.plays) && cfg.caches
      requires Usable(cache.tree, cache.plays, h, reqs[id].play, reqs[id].tr) && !h.lower
      requires h.node == -1 ==> reqs[id].play !in cache.roots
      requires h.blocks < cache.plays[reqs[id].play].reqs[reqs[id].tr].count
      modifies cache
      ensures cache.Valid() && Booked(cache.used, cache.tree, cache.plays, OffTreeSum(reqs) - leak)
      ensures look.at == old(cache.tree) && look.hit == h && look.pin == p
      ensures Tried(look, cache.plays, reqs[id].play, now, OffTreeSum(reqs) - leak, chunk, cache.cap[0], ok, cache.tree)
      ensures ok <==> cache.used[0] + chunk <= cache.cap[0]
      ensures !ok ==> World(reqs, batch, cache.tree, cache.plays, cfg.caches, cfg.nextn)
      ensures ok ==> var r := AdmittedReq(reqs[id], p, h.blocks, cache.plays[reqs[id].play].blockSize); (
        World(reqs[id := r], batch, cache.tree, cache.plays, cfg.caches, cfg.nextn) &&
        OffTreeSum(reqs[id := r]) == OffTreeSum(reqs) && r.prefillLeft > 0 && Unfinished(r))
    {
      hide Inv, Stands, Slots, Roots, TierTok, Queues, Booked, PathIs, Chained, World, CanFree, Firm, TailsKept, ReqOk,
           PinnedTop, PinsExact, Grounded, Held, Sheds, OldestFirst, Prepared, RoomSought, OnePinMore, Usable,
           AdmittedReq, Fits, OffTreeSum;
      ghost var c, used0, plays, off := cache.tree, cache.used, cache.plays, OffTreeSum(reqs) - leak;
      ghost var ready;
      p, ready := PinFor(id, h, now);
      ghost var m := cache.tree;
      BookedKept(used0, used0, c, m, plays, off);
      InvShape(m, plays);
      ok := cache.EnsureFree(0, chunk);
      ghost var d, used1 := cache.tree, cache.used;
      RoomIs(m, d, plays, used0, off, chunk, cache.cap[0], ok);
      look := Look(c, h, c, h, ready, p, d);
      BookedKept(used0, used1, c, d, plays, off);
      AdmittedCached(reqs, batch, c, m, d, plays, cfg.nextn, id, p, h.blocks);
      if !ok {
        cache.Unpin(p);
        PinBackWorld(reqs, batch, c, d, plays, cfg.nextn, p);
        BookedKept(used1, cache.used, d, cache.tree, plays, off);
      }
    }

    /** The device-tier branch of `admit_prefill`, as far as the cache is concerned. */
    method PinInto(id: nat, h: Hit, firstChunk: int, limited: bool, now: real)
      returns (ok: bool, p: int, ghost look: Look)
      requires Sound({}) && id < |reqs| && reqs[id].st.Queued? && Fits(reqs[id], cache.plays)
      requires Usable(cache.tree, cache.plays, h, reqs[id].play, reqs[id].tr) && !h.lower
      requires if cfg.caches then h.node == -1 ==> reqs[id].play !in cache.roots else h.node == -1
      modifies cache
      ensures cache.Valid() && Booked(cache.used, cache.tree, cache.plays, OffTreeSum(reqs) - leak)
      ensures reqs[id].play < |cache.plays|
      ensures !ok ==> World(reqs, batch, cache.tree, cache.plays, cfg.caches, cfg.nextn)
      ensures !ok ==> cache.used[0] + FirstOf(reqs[id], h.blocks, cache.plays, firstChunk, limited) > cache.cap[0]
      ensures look.at == old(cache.tree) && look.hit == h && look.pin == p && (!cfg.caches ==> p == -1)
      ensures cfg.caches ==> Tried(look, cache.plays, reqs[id].play, now, OffTreeSum(reqs) - leak,
        FirstOf(reqs[id], h.blocks, cache.plays, firstChunk, limited), cache.cap[0], ok, cache.tree)
      ensures ok ==> var r := AdmittedReq(reqs[id], p, h.blocks, cache.plays[reqs[id].play].blockSize); (
        World(reqs[id := r], batch, cache.tree, cache.plays, cfg.caches, cfg.nextn) &&
        OffTreeSum(reqs[id := r]) == OffTreeSum(reqs) && r.prefillLeft > 0 && Unfinished(r) &&
        cache.used[0] + FirstChunk(r.prefillLeft, firstChunk, limited) <= cache.cap[0])
    {
      hide Inv, Stands, Slots, Roots, TierTok, Queues, Booked, PathIs, Chained, World, CanFree, Tried, Sheds,
           OldestFirst;
      ghost var c, used0, plays := cache.tree, cache.used, cache.plays;
      UsableBound(c, plays, h, reqs[id].play, reqs[id].tr);
      var r := reqs[id];
      ScaleNat(h.blocks, cache.plays[r.play].blockSize);
      var chunk := FirstOf(r, h.blocks, cache.plays, firstChunk, limited);
      if cfg.caches {
        ok, p, look := PinCached(id, h, chunk, now);
      } else {
        p, look := -1, Look(c, h, c, h, c, -1, c);
        ok := cache.EnsureFree(0, chunk);
        BookedKept(used0, cache.used, c, cache.tree, plays, OffTreeSum(reqs) - leak);
        WorldSheds(reqs, batch, c, cache.tree, plays, cfg.caches, cfg.nextn);
        AdmittedWorld(reqs, batch, cache.tree, cache.tree, plays, cfg.caches, cfg.nextn, id, p, h.blocks);
      }
    }

    /** The head of the queue, pinned on the segment p, runs. */
    method PopHead(p: int, blocks: nat)
      requires cache.Valid() && Queues(reqs, waiting, running, loads, {}) && |loads| == loading
      requires waiting != [] && waiting[0] < |reqs| && reqs[waiting[0]].play < |cache.plays| &&
        reqs[waiting[0]].st.Queued?
      requires (cfg.chunked ==> cfg.chunkTokens > 0) && leak >= 0
      requires var r := AdmittedReq(reqs[waiting[0]], p, blocks, cache.plays[reqs[waiting[0]].play].blockSize); (
        World(reqs[waiting[0] := r], batch, cache.tree, cache.plays, cfg.caches, cfg.nextn) &&
        OffTreeSum(reqs[waiting[0] := r]) == OffTreeSum(reqs) && Unfinished(r))
      requires Booked(cache.used, cache.tree, cache.plays, OffTreeSum(reqs) - leak) &&
        !TooBig(reqs[waiting[0]], cache.cap[0])
      modifies this`reqs, this`waiting, this`running
      ensures Sound({}) && old(waiting[0]) < |old(reqs)| == |reqs| && old(reqs)[old(waiting[0])].play < |cache.plays|
      ensures Planned(old(reqs), reqs, cache.cap[0])
      ensures reqs == old(reqs)[old(waiting[0]) := AdmittedReq(old(reqs)[old(waiting[0])], p, blocks,
                                                               cache.plays[old(reqs)[old(waiting[0])].play].blockSize)]
      ensures waiting == old(waiting)[1..] && running == old(running) + [old(waiting[0])]
    {
      hide Planned, Inv, Stands, Slots, Roots, TierTok, Queues, Booked, World;
      var id := waiting[0];
      var r := AdmittedReq(reqs[id], p, blocks, cache.plays[reqs[id].play].blockSize);
      QueuesPop(reqs, waiting, running, loads, r);
      PlannedOne(reqs, id, r, cache.cap[0]);
      reqs := reqs[id := r];
      waiting := waiting[1..];
      running := running + [id];
    }

    /** The device-tier branch of `admit_prefill` for the request at the head of the queue, which was looked up in tree
        c. */
    method PinHead(h: Hit, firstChunk: int, limited: bool, now: real, ghost c: Tree, ghost sought: Look)
      returns (a: Admission, ghost look: Look)
      requires Sound({}) && waiting != [] && waiting[0] < |reqs| && !TooBig(reqs[waiting[0]], cache.cap[0])
      requires reqs[waiting[0]].st.Queued? && Inv(c, cache.plays) && Fits(reqs[waiting[0]], cache.plays)
      requires Sought(c, sought, cache.plays, reqs[waiting[0]], now, cache.residencyLimit) && sought.hit == h &&
        sought.at == cache.tree
      requires Usable(cache.tree, cache.plays, h, reqs[waiting[0]].play, reqs[waiting[0]].tr) && !h.lower
      requires if cfg.caches then h.node == -1 ==> reqs[waiting[0]].play !in cache.roots else h == Hit(-1, 0, 0, false)
      modifies this`reqs, this`waiting, this`running, cache
      ensures Sound({}) && old(waiting[0]) < |old(reqs)| == |reqs| && Planned(old(reqs), reqs, cache.cap[0])
      ensures old(reqs)[old(waiting[0])].play < |cache.plays| && !a.Loads? && look.found == sought.found &&
        look.hit == h
      ensures Sought(c, look, cache.plays, old(reqs)[old(waiting[0])], now, cache.residencyLimit)
      ensures a.Blocked? ==> reqs == old(reqs) && waiting == old(waiting) && running == old(running)
      ensures a.Blocked? ==> NoRoom(waiting[0], firstChunk, limited)
      ensures cfg.caches ==>
        Tried(look, cache.plays, old(reqs)[old(waiting[0])].play, now, OffTreeSum(old(reqs)) - leak,
          FirstOf(old(reqs)[old(waiting[0])], h.blocks, cache.plays, firstChunk, limited), cache.cap[0], a.Ok?,
            cache.tree)
      ensures a.Ok? ==>
        reqs == old(reqs)[old(waiting[0]) := AdmittedReq(old(reqs)[old(waiting[0])], if cfg.caches
          then look.pin else -1,
        h.blocks, cache.plays[old(reqs)[old(waiting[0])].play].blockSize)]
      ensures a.Ok? ==> reqs[old(waiting[0])].prefillLeft > 0
      ensures a.Ok? ==> waiting == old(waiting)[1..] && running == old(running) + [old(waiting[0])]
      ensures a.Ok? ==>
        cache.used[0] + FirstChunk(reqs[old(waiting[0])].prefillLeft, firstChunk, limited) <= cache.cap[0]
    {
      hide Planned, Inv, Stands, Slots, Roots, TierTok, Queues, Booked, World, Sheds, Usable, Fits, PathIs, Sought,
           Tried, FirstOf, FirstChunk, NoRoom;
      PlannedSelf(reqs, cache.cap[0]);
      var id := waiting[0];
      var ok, p;
      ghost var pinned;
      ok, p, pinned := PinInto(id, h, firstChunk, limited, now);
      look := LookJoined(c, sought, pinned, cache.plays, reqs[id], now, cache.residencyLimit);
      if cfg.caches {
        TriedSame(look, pinned, cache.plays, reqs[id].play, now, OffTreeSum(reqs) - leak,
          FirstOf(reqs[id], h.blocks, cache.plays, firstChunk, limited), cache.cap[0], ok, cache.tree);
      }
      if !ok {
        ChunkOut(id, firstChunk, limited, c, look, now);
        a := Blocked;
        return;
      }
      PopHead(p, h.blocks);
      a := Ok;
    }

    /** `admit_prefill` for the request at the head of the waiting queue, and its move to where it belongs next. */
    method AdmitHead(firstChunk: int, limited: bool, now: real)
      returns (a: Admission, ghost moved: nat, ghost look: Look)
      requires Sound({}) && waiting != [] && waiting[0] < |reqs| && !TooBig(reqs[waiting[0]], cache.cap[0])
      modifies this`reqs, this`waiting, this`running, this`loading, this`loads, cache
      ensures Sound({}) && old(waiting[0]) < |old(reqs)| == |reqs| && Planned(old(reqs), reqs, cache.cap[0])
      ensures old(reqs)[old(waiting[0])].play < |cache.plays|
      ensures forall i :: 0 <= i < |reqs| && i != old(waiting[0]) ==> reqs[i] == old(reqs)[i]
      ensures a.Blocked? ==>
        reqs == old(reqs) && waiting == old(waiting) && running == old(running) && loading == old(loading)
      ensures a.Blocked? ==> NoRoom(waiting[0], firstChunk, limited)
      ensures HeadTried(cfg, cache.plays, cache.residencyLimit, cache.cap[0], old(State()), reqs, cache.tree, now,
        firstChunk, limited,
        old(reqs)[old(waiting[0])].play in old(cache.roots), look, a)
      ensures a.Loads? ==>
        reqs[old(waiting[0])].st.Loading? && moved >= cache.plays[old(reqs)[old(waiting[0])].play].blockSize
      ensures a.Loads? ==> waiting == old(waiting)[1..] && running == old(running) && loading == old(loading) + 1
      ensures a.Ok? ==> reqs[old(waiting[0])].st.Prefill? && reqs[old(waiting[0])].prefillLeft > 0
      ensures a.Ok? ==>
        waiting == old(waiting)[1..] && running == old(running) + [old(waiting[0])] && loading == old(loading)
      ensures a.Ok? ==>
        cache.used[0] + FirstChunk(reqs[old(waiting[0])].prefillLeft, firstChunk, limited) <= cache.cap[0]
    {
      hide Planned, Inv, Stands, Slots, Roots, TierTok, Queues, Booked, World, Sheds, Usable, Fits, PathIs, Sought,
           Tried, FirstOf, FirstChunk, NoRoom, LoadRefused;
      PlannedSelf(reqs, cache.cap[0]);
      var id := waiting[0];
      moved := 0;
      HeadQueued(reqs, waiting, running, loads);
      var h;
      h, look := FindHit(id, now);
      if h.lower {
        var ok;
        ok, moved := StartLoad(h);
        if !ok { LoadOut(id, firstChunk, limited, old(cache.tree), look, now); }
        a := if ok then Loads else Blocked;
        return;
      }
      a, look := PinHead(h, firstChunk, limited, now, old(cache.tree), look);
    }

    // ---- batches ----

    /** Enters a request into the batch, charging it for `tok` tokens. */
    method Schedule(id: nat, tok: int, prefill: bool)
      requires Sound({}) && id < |reqs| && EntryOk(reqs, Entry(id, tok, prefill), cfg.nextn)
      requires (forall e :: e in batch ==> e.req != id) && cache.used[0] + tok <= cache.cap[0]
      modifies this`reqs, this`batch, cache
      ensures Sound({}) && batch == old(batch) + [Entry(id, tok, prefill)] && Planned(old(reqs), reqs, cache.cap[0])
      ensures reqs == old(reqs)[id := Charged(old(reqs)[id], tok)] && cache.tree == old(cache.tree)
      ensures OffTreeSum(reqs) == OffTreeSum(old(reqs)) + tok
    {
      hide Inv, Stands, Slots, Roots, TierTok, Queues, World, BatchOk;
      ScheduledWorld(reqs, batch, cache.tree, cache.plays, cfg.caches, cfg.nextn, id, Entry(id, tok, prefill));
      QueuesSame(reqs, waiting, running, loads, {}, id, Charged(reqs[id], tok));
      cache.Charge(tok);
      PlannedOne(reqs, id, Charged(reqs[id], tok), cache.cap[0]);
      reqs := reqs[id := Charged(reqs[id], tok)];
      batch := batch + [Entry(id, tok, prefill)];
    }

    /** Makes room on the device tier; nothing any request holds is touched. */
    method MakeRoom(need: int) returns (ok: bool)
      requires Sound({})
      modifies cache
      ensures Sound({}) && (ok <==> cache.used[0] + need <= cache.cap[0])
      ensures old(cache.used[0]) + need <= cache.cap[0] ==> ok && cache.tree == old(cache.tree)
      ensures RoomSought(old(cache.tree), cache.tree, cache.plays, OffTreeSum(reqs) - leak, need, cache.cap[0], ok)
      ensures Sheds(old(cache.tree), cache.tree, 0) && (!ok ==> NoPlaceFor(cache.plays, cache.cap[0], State(), need))
    {
      hide Inv, Stands, Slots, Roots, TierTok, Queues, World, BatchOk, Booked, CanFree, OldestFirst, Sheds, Shape,
           RoomSought, NoPlaceFor, OffTreeSum;
      ghost var c, used0 := cache.tree, cache.used;
      ok := cache.EnsureFree(0, need);
      WorldSheds(reqs, batch, c, cache.tree, cache.plays, cfg.caches, cfg.nextn);
      InvShape(c, cache.plays);
      RoomIs(c, cache.tree, cache.plays, used0, OffTreeSum(reqs) - leak, need, cache.cap[0], ok);
      if !ok {
        RoomRefused(cache.plays, cache.cap[0], State().(tree := c), cache.tree, need);
        NoPlaceStays(cache.plays, cache.cap[0], State().(tree := c), State(), need);
      }
      BookedKept(used0, cache.used, c, cache.tree, cache.plays, OffTreeSum(reqs) - leak);
    }

    /** Tokens of the next chunk: a pass that does not chunk takes a prompt whole, over budget only when it is alone. */
    method ChunkFor(left: int, budget: int, alone: bool) returns (chunk: int)
      requires left > 0 && budget > 0 && (cfg.chunked ==> cfg.chunkTokens > 0)
      ensures 0 <= chunk <= left && (chunk <= budget || (!cfg.chunked && alone))
      ensures cfg.chunked ==> 0 < chunk <= cfg.chunkTokens
      ensures chunk == if Whole(left, budget) && !alone then 0 else ChunkOf(left, budget)
      ensures chunk == 0 <==> Whole(left, budget) && !alone
      ensures cfg.chunked ==>
        chunk <= budget && (chunk == left || chunk == budget || chunk == cfg.chunkTokens)
      ensures !cfg.chunked ==> chunk == left || (chunk == 0 && left > budget && !alone)
    {
      chunk := if left < budget then left else budget;
      if cfg.chunked && cfg.chunkTokens < chunk { chunk := cfg.chunkTokens; }
      if !cfg.chunked && left > budget {
        chunk := if alone then left else 0;
      }
    }

    /** The next chunk of a request that is prefilling; `budget` and `seqs` are what the pass has left and used. */
    method AddPrefillChunk(id: nat, budget0: int, seqs0: int) returns (added: bool, budget: int, seqs: int)
      requires Sound({}) && id < |reqs| && reqs[id].st.Prefill? && forall e :: e in batch ==> e.req != id
      requires Counted(batch, budget0, seqs0, cfg) && WithinCaps(batch, cfg.maxTokens, cfg.maxSeqs, cfg.chunked)
      requires budget0 > 0 && seqs0 < cfg.maxSeqs
      modifies this`reqs, this`batch, cache
      ensures Sound({}) && Planned(old(reqs), reqs, cache.cap[0])
      ensures Counted(batch, budget, seqs, cfg) && WithinCaps(batch, cfg.maxTokens, cfg.maxSeqs, cfg.chunked)
      ensures !added ==> reqs == old(reqs) && batch == old(batch)
      ensures added ==> ChunkAdded(old(reqs), reqs, old(batch), batch, id, budget0 - budget, cfg)
      ensures old(cache.used[0]) + ChunkOf(old(reqs)[id].prefillLeft, budget0) <= cache.cap[0] ==>
        cache.tree == old(cache.tree) && (added || (Whole(old(reqs)[id].prefillLeft, budget0) && old(batch) != []))
      ensures !added ==> budget == budget0 && seqs == seqs0
      ensures added ==> budget0 - budget == ChunkOf(old(reqs)[id].prefillLeft, budget0)
      ensures added || cache.used[0] + ChunkOf(reqs[id].prefillLeft, budget0) > cache.cap[0] ||
        (Whole(reqs[id].prefillLeft, budget0) && batch != [])
      ensures added || (Whole(reqs[id].prefillLeft, budget0) && batch != []) ||
        NoPlaceFor(cache.plays, cache.cap[0], State(), ChunkOf(reqs[id].prefillLeft, budget0))
      ensures Sheds(old(cache.tree), cache.tree, 0) && OffTreeSum(reqs) >= OffTreeSum(old(reqs))
    {
      hide Planned, Inv, Stands, Slots, Roots, TierTok, Queues, World, BatchOk, Booked, ChunkOf, WithinCaps,
           BatchTokens, NoPlaceFor, Sheds, OffTreeSum;
      PlannedSelf(reqs, cache.cap[0]);
      PrefillLeft(reqs, batch, cache.tree, cache.plays, cfg.caches, cfg.nextn, id);
      budget, seqs := budget0, seqs0;
      var chunk := ChunkFor(reqs[id].prefillLeft, budget, batch == []);
      ShedsSelf(cache.tree);
      if chunk <= 0 { return false, budget, seqs; }
      CapsGrow(batch, Entry(id, chunk, true), cfg.maxTokens, cfg.maxSeqs, cfg.chunked);
      added := TakeChunk(id, chunk);
      if added { budget, seqs := budget - chunk, seqs + 1; }
    }

    method TakeChunk(id: nat, chunk: int) returns (ok: bool)
      requires Sound({}) && id < |reqs| && EntryOk(reqs, Entry(id, chunk, true), cfg.nextn) &&
        forall e :: e in batch ==> e.req != id
      requires cfg.chunked ==> chunk <= cfg.chunkTokens
      modifies this`reqs, this`batch, cache
      ensures Sound({}) && Planned(old(reqs), reqs, cache.cap[0])
      ensures if ok then ChunkAdded(old(reqs), reqs, old(batch), batch, id, chunk, cfg)
        else reqs == old(reqs) && batch == old(batch)
      ensures old(cache.used[0]) + chunk <= cache.cap[0] ==> ok && cache.tree == old(cache.tree)
      ensures !ok ==> cache.used[0] + chunk > cache.cap[0] && NoPlaceFor(cache.plays, cache.cap[0], State(), chunk)
      ensures Sheds(old(cache.tree), cache.tree, 0) && OffTreeSum(reqs) >= OffTreeSum(old(reqs))
    {
      hide Planned, Inv, Stands, Slots, Roots, TierTok, Queues, World, BatchOk, Booked, NoPlaceFor, Sheds, OffTreeSum;
      PlannedSelf(reqs, cache.cap[0]);
      ok := MakeRoom(chunk);
      if ok { Schedule(id, chunk, true); }
    }

    /** A prompt that must be taken whole and exceeds what the pass has left: it has to wait for a pass of its own. */
    ghost predicate Whole(left: int, budget: int) {
      !cfg.chunked && left > budget
    }

    /** The tokens a request alone in the batch would be given. */
    ghost function ChunkOf(left: int, budget: int): int {
      ChunkSize(cfg, left, budget)
    }

    lemma ChunkFirst(left: int, budget: int)
      ensures ChunkOf(left, budget) ==
        FirstChunk(left, if cfg.chunkTokens < budget then cfg.chunkTokens else budget, cfg.chunked)
    {
    }

    /** The running decode that would be served last, if there is one after position i. */
    method LastDecode(i: nat) returns (j: nat)
      requires Sound({}) && i < |running|
      ensures i <= j < |running| && running[j] < |reqs| && NoDecodeAfter(reqs, running, j)
      ensures j > i ==> reqs[running[j]].st.Decode?
    {
      hide Inv, Stands, Slots, Roots, TierTok, Queues, World, Booked;
      j := |running| - 1;
      RunningActive(reqs, waiting, running, loads, j);
      while j > i && !reqs[running[j]].st.Decode?
        invariant i <= j < |running| && running[j] < |reqs|
        invariant NoDecodeAfter(reqs, running, j)
      {
        j := j - 1;
        RunningActive(reqs, waiting, running, loads, j);
      }
    }

    /** The request at position j, after i, is preempted; nothing changes for those up to i. */
    method GiveUp(i: nat, j: nat, ghost decoders: set<nat>, ghost late: set<nat>)
      requires Sound({}) && i < j < |running| && BatchedBefore(batch, running, i)
      requires Lined(reqs, running, decoders, late) && NoDecodeAfter(reqs, running, j)
      requires forall k :: k == i || k == j ==> running[k] < |reqs| && reqs[running[k]].st.Decode?
      modifies this`reqs, this`waiting, this`running, this`leak, cache
      ensures Sound({}) && Planned(old(reqs), reqs, cache.cap[0]) && |running| == |old(running)| - 1
      ensures SameUpTo(old(running), running, i) && BatchedBefore(batch, running, i) &&
        SameReq(old(reqs), reqs, running[i])
      ensures old(running)[j] < |old(reqs)| && leak >= old(leak)
      ensures leak == old(leak) <==> WholeOwn(old(reqs)[old(running)[j]], old(cache.tree))
      ensures running == old(running)[..j] + old(running)[j + 1..] && waiting == [old(running)[j]] + old(waiting)
      ensures Lined(reqs, running, decoders, late)
      ensures InTurn(old(running) + old(waiting), running + waiting, decoders, late)
    {
      hide Planned, Inv, Stands, Slots, Roots, TierTok, Queues, World, Booked, SplitOff, Preempted, WholeOwn,
           BatchedBefore, Lined, InTurn, NoDecodeAfter;
      GaveUp(reqs, waiting, running, loads, i, j, Preempted(reqs[running[j]]), decoders, late);
      RunningActive(reqs, waiting, running, loads, i);
      RunningDistinct(reqs, waiting, running, loads, batch, i, j);
      Preempt(j);
    }

    /** The last of the decodes that would be served after position i is preempted, if there is one. */
    method GiveWay(i: nat, ghost decoders: set<nat>, ghost late: set<nat>) returns (gave: bool, ghost j: nat)
      requires Sound({}) && i < |running| && BatchedBefore(batch, running, i)
      requires Lined(reqs, running, decoders, late) && running[i] < |reqs| && reqs[running[i]].st.Decode?
      modifies this`reqs, this`waiting, this`running, this`leak, cache
      ensures Sound({}) && leak >= old(leak) && Planned(old(reqs), reqs, cache.cap[0])
      ensures i < |running| && SameUpTo(old(running), running, i) && BatchedBefore(batch, running, i)
      ensures SameReq(old(reqs), reqs, running[i]) && Lined(reqs, running, decoders, late)
      ensures InTurn(old(running) + old(waiting), running + waiting, decoders, late)
      ensures gave ==>
        j < |old(running)| && old(running)[j] < |old(reqs)| && old(reqs)[old(running)[j]].st.Decode? &&
        running == old(running)[..j] + old(running)[j + 1..] && waiting == [old(running)[j]] + old(waiting)
      ensures !gave ==> State() == old(State()) && cache.used == old(cache.used) && NoDecodeAfter(reqs, running, i)
      ensures LastDecodes(old(State()), i) ==>
        gave && old(running)[|old(running)| - 1] < |old(reqs)| &&
        (WholeOwn(old(reqs)[old(running)[|old(running)| - 1]], old(cache.tree)) || leak > old(leak))
    {
      hide Planned, Inv, Stands, Slots, Roots, TierTok, Queues, World, Booked, SplitOff, NoDecodeAfter, Preempted,
           WholeOwn, OffTreeSum, BatchedBefore, Lined, InTurn, LastDecodes;
      PlannedSelf(reqs, cache.cap[0]);
      InTurnSelf(running + waiting, decoders, late);
      var k := LastDecode(i);
      ghost var n, last := |running| - 1, LastDecodes(State(), i);
      if last { LastAt(State(), i, k); }
      if k == i { return false, k; }
      gave, j := true, k;
      GiveUp(i, k, decoders, late);
    }

    /** GiveWay, and room is sought once more. */
    method GiveWayOnce(i: nat, ghost decoders: set<nat>, ghost late: set<nat>, ghost s: View)
      returns (gave: bool, ok: bool)
      requires Sound({}) && i < |running| && BatchedBefore(batch, running, i)
      requires Lined(reqs, running, decoders, late) && running[i] < |reqs| && reqs[running[i]].st.Decode?
      requires NoPlaceFor(cache.plays, cache.cap[0], State(), 1 + cfg.nextn) &&
        MadeWay(cache.plays, cache.cap[0], 1 + cfg.nextn, s, State()) && forall x :: x in running ==> x in s.running
      modifies this`reqs, this`waiting, this`running, this`leak, cache
      ensures Sound({}) && leak >= old(leak) && Planned(old(reqs), reqs, cache.cap[0])
      ensures i < |running| && SameUpTo(old(running), running, i) && BatchedBefore(batch, running, i)
      ensures SameReq(old(reqs), reqs, running[i]) && Lined(reqs, running, decoders, late)
      ensures InTurn(old(running) + old(waiting), running + waiting, decoders, late)
      ensures MadeWay(cache.plays, cache.cap[0], 1 + cfg.nextn, s, State()) &&
        forall x :: x in running ==> x in s.running
      ensures !gave ==>
        !ok && State() == old(State()) && cache.used == old(cache.used) && NoDecodeAfter(reqs, running, i)
      ensures gave ==> |running| < |old(running)| && (ok <==> cache.used[0] + 1 + cfg.nextn <= cache.cap[0])
      ensures !ok ==> NoPlaceFor(cache.plays, cache.cap[0], State(), 1 + cfg.nextn)
      ensures LastDecodes(old(State()), i) ==>
        gave && old(running)[|old(running)| - 1] < |old(reqs)| &&
        (WholeOwn(old(reqs)[old(running)[|old(running)| - 1]], old(cache.tree)) || leak > old(leak))
    {
      hide Planned, Inv, Stands, Slots, Roots, TierTok, Queues, World, Booked, SplitOff, NoDecodeAfter, Preempted,
           RoomSought, WholeOwn, OffTreeSum, BatchedBefore, Lined, InTurn, NoPlaceFor, MadeWay, Sheds, LastDecodes;
      ghost var v := State();
      ghost var j;
      ok := false;
      gave, j := GiveWay(i, decoders, late);
      if gave {
        VictimLeaves(cache.plays, cache.cap[0], 1 + cfg.nextn, s, v, j, State());
        ghost var w := State();
        ok := MakeRoom(1 + cfg.nextn);
        MadeWayNone(cache.plays, cache.cap[0], 1 + cfg.nextn, w, State());
        MadeWayMore(cache.plays, cache.cap[0], 1 + cfg.nextn, s, w, State());
      }
    }

    /** Room for one decode step, taken if need be from the decodes that would be served after it, the last one
        first. */
    method RoomForDecode(i: nat, ghost decoders: set<nat>, ghost late: set<nat>) returns (ok: bool)
      requires Sound({}) && i < |running| && BatchedBefore(batch, running, i)
      requires Lined(reqs, running, decoders, late) && running[i] < |reqs| && reqs[running[i]].st.Decode?
      modifies this`reqs, this`waiting, this`running, this`leak, cache
      ensures Sound({}) && leak >= old(leak) && Planned(old(reqs), reqs, cache.cap[0])
      ensures i < |running| && SameUpTo(old(running), running, i) && BatchedBefore(batch, running, i)
      ensures SameReq(old(reqs), reqs, running[i])
      ensures ok <==> cache.used[0] + 1 + cfg.nextn <= cache.cap[0]
      ensures !ok ==> NoDecodeAfter(reqs, running, i)
      ensures !ok ==> NoPlaceFor(cache.plays, cache.cap[0], State(), 1 + cfg.nextn)
      ensures MadeWay(cache.plays, cache.cap[0], 1 + cfg.nextn, old(State()), State())
      ensures forall x :: x in running ==> x in old(running)
      ensures YoungestFirst(cache.plays, cache.cap[0], old(State()), i, 1 + cfg.nextn, leak)
      ensures Lined(reqs, running, decoders, late)
      ensures InTurn(old(running) + old(waiting), running + waiting, decoders, late)
    {
      hide Planned, Inv, Stands, Slots, Roots, TierTok, Queues, World, Booked, SplitOff, NoDecodeAfter, Preempted,
           RoomSought, WholeOwn, YoungestFirst, OffTreeSum, BatchedBefore, Counted, WithinCaps, Lined, InTurn,
           NoPlaceFor, MadeWay, Sheds;
      InTurnSelf(running + waiting, decoders, late);
      PlannedSelf(reqs, cache.cap[0]);
      RunningActive(reqs, waiting, running, loads, i);
      ghost var s := State();
      ok := MakeRoom(1 + cfg.nextn);
      MadeWayNone(cache.plays, cache.cap[0], 1 + cfg.nextn, s, State());
      ghost var d, first := cache.tree, ok;
      if ok || !LastDecodes(s, i) { YoungestIs(cache.plays, cache.cap[0], s, i, 1 + cfg.nextn, leak, d, first); }
      while !ok
        invariant Sound({}) && leak >= old(leak) && Planned(old(reqs), reqs, cache.cap[0])
        invariant i < |running| && SameUpTo(old(running), running, i) && BatchedBefore(batch, running, i)
        invariant SameReq(old(reqs), reqs, running[i]) && Lined(reqs, running, decoders, late)
        invariant InTurn(old(running) + old(waiting), running + waiting, decoders, late)
        invariant ok <==> cache.used[0] + 1 + cfg.nextn <= cache.cap[0]
        invariant MadeWay(cache.plays, cache.cap[0], 1 + cfg.nextn, s, State()) &&
          forall x :: x in running ==> x in s.running
        invariant !ok ==> NoPlaceFor(cache.plays, cache.cap[0], State(), 1 + cfg.nextn)
        invariant YoungestFirst(cache.plays, cache.cap[0], s, i, 1 + cfg.nextn, leak) ||
          (!ok && State() == s.(tree := d) && LastDecodes(s, i))
        decreases |running|, !ok
      {
        ghost var before, leak0, untouched := reqs, leak, State() == s.(tree := d);
        ghost var line0, line1 := old(running) + old(waiting), running + waiting;
        var gave;
        gave, ok := GiveWayOnce(i, decoders, late, s);
        if !gave { return; }
        InTurnTrans(line0, line1, running + waiting, decoders, late);
        PlannedTrans(old(reqs), before, reqs, cache.cap[0]);
        if untouched {
          YoungestIs(cache.plays, cache.cap[0], s, i, 1 + cfg.nextn, leak, d, first);
        } else {
          YoungestGrows(cache.plays, cache.cap[0], s, i, 1 + cfg.nextn, leak0, leak);
        }
      }
    }

    /** A decode step for the request at position i, which decodes; the ones after it may lose their place. */
    method DecodeAt(i: nat, budget: int, seqs: int, ghost decoders: set<nat>, ghost late: set<nat>) returns (ok: bool)
      requires Sound({}) && i < |running| && running[i] < |reqs| && reqs[running[i]].st.Decode?
      requires BatchedBefore(batch, running, i) && DecodesServed(reqs, batch, running, i) &&
        Within(Ids(batch), running[..i])
      requires AllDecode(batch) && Counted(batch, budget, seqs, cfg) && Lined(reqs, running, decoders, late)
      modifies this`reqs, this`waiting, this`running, this`leak, this`batch, cache
      ensures Sound({}) && leak >= old(leak) && Planned(old(reqs), reqs, cache.cap[0])
      ensures SameUpTo(old(running), running, i) && BatchedBefore(batch, running, i + 1) &&
        Within(Ids(batch), running[..i + 1])
      ensures if ok then batch == old(batch) + [Entry(running[i], 1 + cfg.nextn, false)] else batch == old(batch)
      ensures if ok then DecodesServed(reqs, batch, running, i + 1)
        else cache.used[0] + 1 + cfg.nextn > cache.cap[0] && NoDecodeFrom(reqs, running, i + 1)
      ensures AllDecode(batch) && if ok then Counted(batch, budget - 1 - cfg.nextn, seqs + 1, cfg)
        else Counted(batch, budget, seqs, cfg)
      ensures YoungestFirst(cache.plays, cache.cap[0], old(State()), i, 1 + cfg.nextn, leak)
      ensures Lined(reqs, running, decoders, late)
      ensures InTurn(old(running) + old(waiting), running + waiting, decoders, late)
      ensures !ok ==> NoPlaceFor(cache.plays, cache.cap[0], State(), 1 + cfg.nextn)
      ensures MadeWay(cache.plays, cache.cap[0], 1 + cfg.nextn, old(State()), State())
      ensures forall x :: x in running ==> x in old(running)
    {
      hide Planned, Inv, Stands, Slots, Roots, TierTok, Queues, World, Booked, BatchedBefore, NoDecodeAfter,
           NoDecodeFrom, DecodesServed, YoungestFirst, Within, Ids, BatchTokens, Lined, InTurn, NoPlaceFor, MadeWay;
      ghost var before, running0 := reqs, running;
      var e := Entry(running[i], 1 + cfg.nextn, false);
      ok := RoomForDecode(i, decoders, late);
      assert running[..i] == running0[..i];
      BatchedUpTo(reqs, waiting, running, loads, batch, i, e);
      ServedStays(before, reqs, batch, running0, running, i, cache.cap[0]);
      ghost var middle, batch0, v := reqs, batch, State();
      if ok {
        BatchSnoc(batch, e);
        ServedNext(reqs, batch, running, i, e.tokens);
        Schedule(e.req, e.tokens, false);
        PlannedTrans(before, middle, reqs, cache.cap[0]);
        LinedStays(middle, reqs, running, decoders, late);
        MadeWayNone(cache.plays, cache.cap[0], 1 + cfg.nextn, v, State());
        MadeWayMore(cache.plays, cache.cap[0], 1 + cfg.nextn, old(State()), v, State());
        assert batch0[0..] == batch0 && batch[0..] == batch;
        WithinBoth(batch0, batch, 0, running, i, e);
      } else {
        NoDecodeNext(reqs, running, i);
        WithinOne(Ids(batch), running, i);
      }
    }

    /** One decode step for each decoding request in order, left out only where the caps or the memory end. */
    method AddDecodes(ghost decoders: set<nat>, ghost late: set<nat>) returns (budget: int, seqs: int)
      requires Sound({}) && batch == [] && Lined(reqs, running, decoders, late)
      modifies this`reqs, this`waiting, this`running, this`leak, this`batch, cache
      ensures Sound({}) && leak >= old(leak) && Planned(old(reqs), reqs, cache.cap[0]) && |running| <= |old(running)|
      ensures AllDecode(batch) && Counted(batch, budget, seqs, cfg) && Within(Ids(batch), running)
      ensures WithinCaps(batch, cfg.maxTokens, cfg.maxSeqs, cfg.chunked)
      ensures DecodesServed(reqs, batch, running, |running|) || budget < 1 + cfg.nextn || seqs >= cfg.maxSeqs ||
        cache.used[0] + 1 + cfg.nextn > cache.cap[0]
      ensures if old(running) != [] then running != [] && running[0] == old(running)[0]
        else running == [] && (old(NothingFits()) ==> NothingFits())
      ensures DecodesFirst(old(State()), cfg) ==>
        YoungestFirst(cache.plays, cache.cap[0], old(State()), 0, 1 + cfg.nextn, leak)
      ensures Lined(reqs, running, decoders, late)
      ensures InTurn(old(running) + old(waiting), running + waiting, decoders, late)
      ensures DecodesTaken(cfg, cache.plays, cache.cap[0], old(State()), State())
    {
      hide NothingFits, DecodesServed, Planned, Inv, Stands, Slots, Roots, TierTok, Queues, World, Booked,
           BatchedBefore, NoDecodeAfter, NoDecodeFrom, YoungestFirst, Within, Ids, LastDecodes, Extends, Lined, InTurn,
           NoPlaceFor, MadeWay, BatchTokens;
      InTurnSelf(running + waiting, decoders, late);
      ghost var s, nothing, first := State(), NothingFits(), DecodesFirst(State(), cfg);
      PlannedSelf(reqs, cache.cap[0]);
      budget, seqs := cfg.maxTokens, 0;
      var need := 1 + cfg.nextn;
      var i := 0;
      NoneBatched(running);
      NoneServed(reqs, running);
      WithinEmpty(batch, running);
      assert batch[|batch|..] == batch;
      ghost var refused := false;
      MadeWayNone(cache.plays, cache.cap[0], need, s, State());
      while i < |running|
        invariant if s.running != [] then running != [] && running[0] == s.running[0]
          else running == [] && (nothing ==> NothingFits())
        invariant Sound({}) && leak >= s.leak && Planned(s.reqs, reqs, cache.cap[0]) && |running| <= |s.running|
        invariant Lined(reqs, running, decoders, late) &&
          InTurn(s.running + s.waiting, running + waiting, decoders, late)
        invariant i <= |running| && BatchedBefore(batch, running, i) && Within(Ids(batch), running[..i])
        invariant AllDecode(batch) && Counted(batch, budget, seqs, cfg)
        invariant batch == [] || (budget >= 0 && seqs <= cfg.maxSeqs)
        invariant MadeWay(cache.plays, cache.cap[0], need, s, State()) && forall x :: x in running ==> x in s.running
        invariant refused ==> NoPlaceFor(cache.plays, cache.cap[0], State(), need)
        invariant if refused then cache.used[0] + need > cache.cap[0] && NoDecodeFrom(reqs, running, i)
          else DecodesServed(reqs, batch, running, i)
        invariant first ==>
          if i == 0 then State() == s && budget == cfg.maxTokens && seqs == 0
          else YoungestFirst(cache.plays, cache.cap[0], s, 0, need, leak)
        decreases |running| - i
      {
        var id := running[i];
        RunningActive(reqs, waiting, running, loads, i);
        if reqs[id].st.Decode? {
          if budget < need || seqs >= cfg.maxSeqs { break; }
          ghost var before, leak0, line, v := reqs, leak, running + waiting, State();
          NoneFrom(reqs, running, i);
          var ok := DecodeAt(i, budget, seqs, decoders, late);
          InTurnTrans(s.running + s.waiting, line, running + waiting, decoders, late);
          MadeWayMore(cache.plays, cache.cap[0], need, s, v, State());
          PlannedTrans(s.reqs, before, reqs, cache.cap[0]);
          if i > 0 && first {
            YoungestGrows(cache.plays, cache.cap[0], s, 0, need, leak0, leak);
          }
          if ok { budget, seqs := budget - need, seqs + 1; } else { refused := true; }
        } else {
          LaterPosition(batch, running, i, i + 1);
          WithinOne(Ids(batch), running, i);
          ServedSkip(reqs, batch, running, i);
        }
        i := i + 1;
      }
      WithinAll(Ids(batch), running, i);
    }

    ghost predicate Prefilling(i: nat)
      reads this
    {
      i < |running| && running[i] < |reqs| && reqs[running[i]].st.Prefill?
    }

    /** The device tier has no room for the next chunk of the request at position i. */
    ghost predicate ChunkRefused(i: nat, budget: int)
      reads this, cache
    {
      && |cache.used| == |cache.cap| > 0 && Prefilling(i)
      && cache.used[0] + ChunkOf(reqs[running[i]].prefillLeft, budget) > cache.cap[0]
    }

    /** The request at the head of the queue was looked up and refused. */
    ghost predicate HeadRefused(budget: int)
      reads this, cache
    {
      |cache.cap| > 0 && HeadStays(cfg, cache.plays, cache.residencyLimit, cache.cap[0], State(), budget)
    }

    /** The next chunk for the request at position i, which is prefilling. */
    method ChunkAt(i: nat, ghost n: nat, budget0: int, seqs0: int) returns (budget: int, seqs: int)
      requires Sound({}) && Prefilling(i) && PrefillsBefore(batch, running, i)
      requires n <= |batch| && Within(Ids(batch[n..]), running[..i]) && ChunksFrom(cfg, reqs, batch, n)
      requires Counted(batch, budget0, seqs0, cfg) && WithinCaps(batch, cfg.maxTokens, cfg.maxSeqs, cfg.chunked)
      requires budget0 > 0 && seqs0 < cfg.maxSeqs
      modifies this`reqs, this`batch, cache
      ensures Sound({}) && Planned(old(reqs), reqs, cache.cap[0])
      ensures PrefillsBefore(batch, running, i + 1) && Extends(old(batch), batch)
      ensures n <= |batch| && Within(Ids(batch[n..]), running[..i + 1])
      ensures Counted(batch, budget, seqs, cfg) && WithinCaps(batch, cfg.maxTokens, cfg.maxSeqs, cfg.chunked)
      ensures batch == [] ==> ChunkRefused(i, budget)
      ensures StillDecode(old(reqs), reqs, running)
      ensures ChunkStep(cfg, cache.plays, cache.cap[0], old(State()), State(), n, i) &&
        ChunkTaken(cfg, cache.plays, cache.cap[0], old(State()), State(), i)
    {
      hide Planned, Inv, Stands, Slots, Roots, TierTok, Queues, World, Booked, PrefillsBefore, WithinCaps,
           Within, Ids, ChunksFrom, NoPlaceFor, Sheds, OffTreeSum, BatchTokens, Served, ChunkSize;
      PrefillsLater(batch, running, i);
      WithinOne(Ids(batch[n..]), running, i);
      PrefillNotBatched(reqs, cache.tree, cache.plays, cfg.caches, cfg.nextn, waiting, running, loads, batch, i);
      ghost var reqs0, batch0 := reqs, batch;
      var added;
      added, budget, seqs := AddPrefillChunk(running[i], budget0, seqs0);
      if added {
        WithinBoth(batch0, batch, n, running, i, batch[|batch| - 1]);
        ChunkJoins(cfg, reqs0, reqs, batch0, batch, running[i], budget0 - budget, n);
      }
    }

    /** A chunk for each request already prefilling, in order; an empty batch means there was no room for one. */
    method ContinuePrefills(budget0: int, seqs0: int) returns (budget: int, seqs: int)
      requires Sound({}) && AllDecode(batch)
      requires Counted(batch, budget0, seqs0, cfg) && WithinCaps(batch, cfg.maxTokens, cfg.maxSeqs, cfg.chunked)
      modifies this`reqs, this`batch, cache
      ensures Sound({}) && Planned(old(reqs), reqs, cache.cap[0])
      ensures Counted(batch, budget, seqs, cfg) && WithinCaps(batch, cfg.maxTokens, cfg.maxSeqs, cfg.chunked)
      ensures Extends(old(batch), batch)
      ensures batch == [] && budget > 0 && seqs < cfg.maxSeqs ==>
        (forall i: nat :: i < |running| ==> !Prefilling(i)) || exists i: nat :: ChunkRefused(i, budget)
      ensures NonePrefills(old(State())) ==> State() == old(State()) && budget == budget0 && seqs == seqs0
      ensures |old(batch)| <= |batch| && Within(Ids(batch[|old(batch)|..]), running)
      ensures StillDecode(old(reqs), reqs, running)
      ensures Continued(cfg, cache.plays, cache.cap[0], old(State()), State())
    {
      hide Planned, Inv, Stands, Slots, Roots, TierTok, Queues, World, Booked, PrefillsBefore, AllDecode,
           WithinCaps, ChunkOf, Within, Ids, ContinuedTo, ChunkStep, ChunkTaken, BatchTokens, ChunkRefused,
           ChunksFrom, Continued;
      ghost var s := State();
      ContinuedNone(cfg, cache.plays, cache.cap[0], s);
      PlannedSelf(reqs, cache.cap[0]);
      budget, seqs := budget0, seqs0;
      assert Within(Ids(batch[|batch|..]), running[..0]) by { WithinEmpty(batch, running); }
      NoPrefills(batch, running);
      var i := 0;
      while i < |running|
        invariant Sound({}) && Planned(old(reqs), reqs, cache.cap[0])
        invariant i <= |running| && PrefillsBefore(batch, running, i) && Extends(old(batch), batch)
        invariant batch == [] ==> (forall j: nat :: j < i ==> !Prefilling(j)) || exists j: nat ::
          ChunkRefused(j, budget)
        invariant NonePrefills(old(State())) ==> State() == old(State()) && budget == budget0 && seqs == seqs0
        invariant ContinuedTo(cfg, cache.plays, cache.cap[0], s, State(), i)
        invariant |old(batch)| <= |batch| && ChunksFrom(cfg, reqs, batch, |old(batch)|)
        invariant Within(Ids(batch[|old(batch)|..]), running[..i]) && StillDecode(old(reqs), reqs, running)
        invariant Counted(batch, budget, seqs, cfg) && WithinCaps(batch, cfg.maxTokens, cfg.maxSeqs, cfg.chunked)
      {
        var id := running[i];
        RunningActive(reqs, waiting, running, loads, i);
        if reqs[id].st.Prefill? {
          assert Prefilling(i);
          if budget <= 0 || seqs >= cfg.maxSeqs { break; }
          ghost var before, v := reqs, State();
          budget, seqs := ChunkAt(i, |old(batch)|, budget, seqs);
          PlannedTrans(old(reqs), before, reqs, cache.cap[0]);
          ContinuedNext(cfg, cache.plays, cache.cap[0], s, v, State(), i);
          ContinuedChunks(cfg, cache.plays, cache.cap[0], s, State(), i + 1);
        } else {
          SkipsOn(cfg, cache.plays, cache.cap[0], s, State(), i);
          PrefillsLater(batch, running, i);
          WithinOne(Ids(batch[|old(batch)|..]), running, i);
        }
        i := i + 1;
      }
      WithinAll(Ids(batch[|old(batch)|..]), running, i);
      ContinuedFull(cfg, cache.plays, cache.cap[0], s, State(), i);
    }

    /** A request that could never fit fails at once. */
    method RejectHead()
      requires Sound({}) && waiting != [] && waiting[0] < |reqs| && TooBig(reqs[waiting[0]], cache.cap[0])
      modifies this`reqs, this`waiting
      ensures Sound({}) && old(waiting[0]) < |old(reqs)| && waiting == old(waiting)[1..] &&
        Planned(old(reqs), reqs, cache.cap[0])
      ensures reqs == old(reqs)[old(waiting[0]) := Rejected(old(reqs)[old(waiting[0])])]
    {
      hide Inv, Stands, Slots, Roots, TierTok, Queues, World, Booked;
      var id := waiting[0];
      HeadQueued(reqs, waiting, running, loads);
      RejectedWorld(reqs, batch, cache.tree, cache.plays, cfg.caches, cfg.nextn, id);
      QueuesPop(reqs, waiting, running, loads, Rejected(reqs[id]));
      waiting := waiting[1..];
      PlannedOne(reqs, id, Rejected(reqs[id]), cache.cap[0]);
      reqs := reqs[id := Rejected(reqs[id])];
    }

    /** The prompt admitted last has to be taken whole, and this pass has no budget left for it. */
    ghost predicate TakenWhole(budget: int)
      reads this, cache
    {
      LastStays(cfg, State(), budget)
    }

    /** The head of the queue, if it can ever fit, starts a load, joins the batch with its first chunk, or is
        refused. */
    method TakeIn(budget0: int, seqs0: int, now: real) returns (more: bool, budget: int, seqs: int)
      requires Sound({}) && waiting != [] && budget0 > 0 && seqs0 < cfg.maxSeqs
      requires waiting[0] < |reqs| && !TooBig(reqs[waiting[0]], cache.cap[0]) &&
        forall e :: e in batch ==> e.req != waiting[0]
      requires Counted(batch, budget0, seqs0, cfg) && WithinCaps(batch, cfg.maxTokens, cfg.maxSeqs, cfg.chunked)
      modifies this`reqs, this`waiting, this`running, this`loading, this`loads, this`batch, cache
      ensures Sound({}) && Planned(old(reqs), reqs, cache.cap[0])
      ensures Counted(batch, budget, seqs, cfg) && WithinCaps(batch, cfg.maxTokens, cfg.maxSeqs, cfg.chunked)
      ensures Extends(old(batch), batch) && loading >= old(loading)
      ensures batch == [] ==> running == old(running)
      ensures more || HeadRefused(budget) || TakenWhole(budget)
      ensures waiting == old(waiting)[1..] || (!more && waiting == old(waiting))
      ensures running == old(running) || (running == old(running) + [old(waiting[0])] && waiting == old(waiting)[1..])
      ensures StillDecode(old(reqs), reqs, old(running))
      ensures forall n: nat :: n <= |old(batch)| && ChunksFrom(cfg, old(reqs), old(batch), n) ==>
        ChunksFrom(cfg, reqs, batch, n)
      ensures cfg.caches && cfg.chunked ==>
        Turn(cfg, cache.plays, cache.residencyLimit, cache.cap[0], old(State()), State(), budget0, now)
    {
      hide Planned, Inv, Stands, Slots, Roots, TierTok, Queues, World, Booked, WithinCaps, NoRoomIn, HeadTried,
           ChunksFrom, BatchTokens, ChunkSize, Turn, Rooted, TooBig, FirstChunk, Charged, OffTreeSum, Sheds, Sought,
           Tried;
      budget, seqs, more := budget0, seqs0, true;
      ghost var s, known := State(), reqs[waiting[0]].play in cache.roots;
      var id := waiting[0];
      RootedKnown(cache.roots, cache.tree, reqs[id].play);
      HeadWaits(reqs, waiting, running, loads);
      var firstChunk := if cfg.chunkTokens < budget then cfg.chunkTokens else budget;
      ghost var moved, look;
      var a;
      a, moved, look := AdmitHead(firstChunk, cfg.chunked, now);
      ChunkFirst(reqs[id].prefillLeft, budget0);
      ghost var v, e, k := reqs, cache.tree, FirstChunk(reqs[id].prefillLeft, firstChunk, cfg.chunked);
      if a.Blocked? {
        more := false;
      } else if a.Ok? {
        more, budget, seqs := AddPrefillChunk(id, budget, seqs);
        PlannedTrans(old(reqs), v, reqs, cache.cap[0]);
      }
      JoinedChunks(cfg, s.reqs, v, reqs, s.batch, batch, id, budget0);
      if cfg.caches && cfg.chunked {
        TurnDone(cfg, cache.plays, cache.residencyLimit, cache.cap[0], s, v, e, State(), budget0, now, firstChunk,
          known, look, a, k);
      }
    }

    /** One turn of the admission loop: the head of the queue fails, starts a load, joins the batch, or ends the
        loop. */
    method AdmitNext(budget0: int, seqs0: int, now: real) returns (more: bool, budget: int, seqs: int)
      requires Sound({}) && waiting != [] && budget0 > 0 && seqs0 < cfg.maxSeqs
      requires Counted(batch, budget0, seqs0, cfg) && WithinCaps(batch, cfg.maxTokens, cfg.maxSeqs, cfg.chunked)
      modifies this`reqs, this`waiting, this`running, this`loading, this`loads, this`batch, cache
      ensures Sound({}) && Planned(old(reqs), reqs, cache.cap[0])
      ensures Counted(batch, budget, seqs, cfg) && WithinCaps(batch, cfg.maxTokens, cfg.maxSeqs, cfg.chunked)
      ensures Extends(old(batch), batch) && loading >= old(loading)
      ensures batch == [] ==> running == old(running)
      ensures more || HeadRefused(budget) || TakenWhole(budget)
      ensures waiting == old(waiting)[1..] || (!more && waiting == old(waiting))
      ensures running == old(running) || (running == old(running) + [old(waiting[0])] && waiting == old(waiting)[1..])
      ensures StillDecode(old(reqs), reqs, old(running))
      ensures forall n: nat :: n <= |old(batch)| && ChunksFrom(cfg, old(reqs), old(batch), n) ==>
        ChunksFrom(cfg, reqs, batch, n)
      ensures old(waiting[0]) < |old(reqs)|
      ensures TooBig(old(reqs)[old(waiting[0])], cache.cap[0]) ==>
        reqs == old(reqs)[old(waiting[0]) := Rejected(old(reqs)[old(waiting[0])])] && waiting == old(waiting)[1..]
      ensures cfg.caches && cfg.chunked && !TooBig(old(reqs)[old(waiting[0])], cache.cap[0]) ==>
        Turn(cfg, cache.plays, cache.residencyLimit, cache.cap[0], old(State()), State(), budget0, now)
    {
      hide Planned, Inv, Stands, Slots, Roots, TierTok, Queues, World, Booked, Counted, WithinCaps, Rejected, NoRoom,
           Turn, TooBig;
      var id := waiting[0];
      HeadQueued(reqs, waiting, running, loads);
      HeadWaits(reqs, waiting, running, loads);
      if TooBig(reqs[id], cache.cap[0]) {
        budget, seqs, more := budget0, seqs0, true;
        HeadNotBatched(reqs, batch, cache.tree, cache.plays, cfg.caches, cfg.nextn, id);
        RejectHead();
        RestChunks(cfg, old(reqs), reqs, batch, id);
      } else {
        HeadNotBatched(reqs, batch, cache.tree, cache.plays, cfg.caches, cfg.nextn, id);
        more, budget, seqs := TakeIn(budget0, seqs0, now);
      }
    }

    /** Admits waiting requests, first come first served. It stops for one of four reasons only: nobody waits, the pass
        is full, the head does not fit in the device tier, or the prompt admitted last needs a pass of its own. */
    method AdmitPrefills(budget0: int, seqs0: int, now: real) returns (budget: int, seqs: int)
      requires Sound({})
      requires Counted(batch, budget0, seqs0, cfg) && WithinCaps(batch, cfg.maxTokens, cfg.maxSeqs, cfg.chunked)
      modifies this`reqs, this`waiting, this`running, this`loading, this`loads, this`batch, cache
      ensures Sound({}) && Planned(old(reqs), reqs, cache.cap[0])
      ensures Counted(batch, budget, seqs, cfg) && WithinCaps(batch, cfg.maxTokens, cfg.maxSeqs, cfg.chunked)
      ensures Extends(old(batch), batch) && loading >= old(loading)
      ensures batch == [] ==> running == old(running)
      ensures waiting == [] || budget <= 0 || seqs >= cfg.maxSeqs || HeadRefused(budget) || TakenWhole(budget)
      ensures FirstServed(old(waiting), waiting, old(running), running)
      ensures batch == [] ==> StillDecode(old(reqs), reqs, running)
      ensures Admitted(cfg, cache.plays, cache.residencyLimit, cache.cap[0], old(State()), State())
      ensures OneWaits(cfg, old(State()), cache.cap[0]) && budget0 > 0 && seqs0 < cfg.maxSeqs ==>
        Turn(cfg, cache.plays, cache.residencyLimit, cache.cap[0], old(State()), State(), budget0, now)
    {
      hide Planned, Inv, Stands, Slots, Roots, TierTok, Queues, World, Booked, WithinCaps, HeadStays, LastStays, Turn,
           FirstServed, TooBig, ChunksFrom, BatchTokens;
      PlannedSelf(reqs, cache.cap[0]);
      FirstServedNone(waiting, running);
      ChunksNone(cfg, reqs, batch);
      budget, seqs := budget0, seqs0;
      var more := true;
      while more && waiting != [] && budget > 0 && seqs < cfg.maxSeqs
        invariant Sound({}) && Planned(old(reqs), reqs, cache.cap[0])
        invariant Extends(old(batch), batch) && loading >= old(loading)
        invariant Counted(batch, budget, seqs, cfg) && WithinCaps(batch, cfg.maxTokens, cfg.maxSeqs, cfg.chunked)
        invariant batch == [] ==> running == old(running)
        invariant more || HeadRefused(budget) || TakenWhole(budget)
        invariant FirstServed(old(waiting), waiting, old(running), running)
        invariant batch == [] ==> StillDecode(old(reqs), reqs, running)
        invariant leak == old(leak) && |old(batch)| <= |batch| && ChunksFrom(cfg, reqs, batch, |old(batch)|)
        invariant OneWaits(cfg, old(State()), cache.cap[0]) && budget0 > 0 && seqs0 < cfg.maxSeqs ==>
          if State() == old(State()) && more then budget == budget0 && seqs == seqs0
          else (waiting == [] || !more) &&
               Turn(cfg, cache.plays, cache.residencyLimit, cache.cap[0], old(State()), State(), budget0, now)
        decreases more, |waiting|
      {
        ghost var before, waiting0, running0 := reqs, waiting, running;
        more, budget, seqs := AdmitNext(budget, seqs, now);
        PlannedTrans(old(reqs), before, reqs, cache.cap[0]);
        FirstServedNext(old(waiting), waiting0, waiting, old(running), running0, running);
        if batch == [] { StillDecodeTrans(old(reqs), before, reqs, running); }
      }
    }

    method AddPrefills(budget0: int, seqs0: int, now: real, ghost decoders: set<nat>, ghost late: set<nat>)
      returns (budget: int, seqs: int)
      requires Sound({}) && AllDecode(batch) && Lined(reqs, running, decoders, late)
      requires Counted(batch, budget0, seqs0, cfg) && WithinCaps(batch, cfg.maxTokens, cfg.maxSeqs, cfg.chunked)
      modifies this`reqs, this`waiting, this`running, this`loading, this`loads, this`batch, cache
      ensures Sound({}) && Planned(old(reqs), reqs, cache.cap[0])
      ensures Counted(batch, budget, seqs, cfg) && WithinCaps(batch, cfg.maxTokens, cfg.maxSeqs, cfg.chunked)
      ensures Extends(old(batch), batch) && loading >= old(loading)
      ensures batch == [] ==> running == old(running)
      ensures batch == [] ==> NothingFits()
      ensures (NonePrefills(old(State())) && OneWaits(cfg, old(State()), cache.cap[0]) && budget0 > 0 &&
        seqs0 < cfg.maxSeqs) ==>
        Turn(cfg, cache.plays, cache.residencyLimit, cache.cap[0], old(State()), State(), budget0, now)
      ensures InTurn(old(running) + old(waiting), running + waiting, decoders, late)
      ensures batch == [] ==> Lined(reqs, running, decoders, late)
      ensures PrefillsTaken(cfg, cache.plays, cache.residencyLimit, cache.cap[0], old(State()), State())
    {
      hide Continued, Admitted, Turn, Within, FirstServed, HeadRefused, Planned, Inv, Stands, Slots, Roots, TierTok,
           Queues, World, Booked, WithinCaps, AllDecode, ChunkOf, Lined, InTurn;
      LineDistinct(reqs, waiting, running, loads);
      budget, seqs := ContinuePrefills(budget0, seqs0);
      ghost var before, m := reqs, State();
      budget, seqs := AdmitPrefills(budget, seqs, now);
      assert Continued(cfg, cache.plays, cache.cap[0], old(State()), m);
      PlannedTrans(old(reqs), before, reqs, cache.cap[0]);
      ServedInTurn(old(waiting), waiting, old(running), running, decoders, late);
      if batch == [] {
        StillDecodeTrans(old(reqs), before, reqs, running);
        LinedStays(old(reqs), reqs, running, decoders, late);
      }
    }

    method AnyDecoding() returns (yes: bool)
      requires Sound({})
      ensures yes <==> exists j :: 0 <= j < |running| && running[j] < |reqs| && reqs[running[j]].st.Decode?
    {
      hide Inv, Stands, Slots, Roots, TierTok, Queues, World, Booked;
      yes := false;
      for i := 0 to |running|
        invariant yes <==> exists j :: 0 <= j < i && running[j] < |reqs| && reqs[running[j]].st.Decode?
      {
        RunningActive(reqs, waiting, running, loads, i);
        if reqs[running[i]].st.Decode? { yes := true; }
      }
    }

    /** Nobody waits, or the head of the queue does not fit (or the pass may hold nothing at all). */
    ghost predicate NothingFits()
      reads this, cache
    {
      waiting == [] || HeadRefused(cfg.maxTokens) || cfg.maxTokens <= 0 || cfg.maxSeqs <= 0
    }

    /** Prefills, or failing that decode steps. */
    method PrefillsElseDecodes(now: real, ghost decoders: set<nat>, ghost late: set<nat>)
      requires Sound({}) && batch == [] && Lined(reqs, running, decoders, late)
      requires !cfg.mixed && !Alternates(cfg, State())
      modifies this`reqs, this`waiting, this`running, this`loading, this`loads, this`leak, this`batch, cache
      ensures Sound({}) && leak >= old(leak) && Planned(old(reqs), reqs, cache.cap[0]) &&
        WithinCaps(batch, cfg.maxTokens, cfg.maxSeqs, cfg.chunked)
      ensures batch == [] ==> |running| <= |old(running)|
      ensures AllPrefill(batch) || AllDecode(batch)
      ensures batch == [] && running == [] ==> NothingFits()
      ensures Attempted(cfg, cache.plays, cache.residencyLimit, cache.cap[0], old(State()), State(), sincePrefill)
      ensures OneTurn(cfg, old(State()), cache.cap[0]) ==>
        Formed(cfg, cache.plays, cache.residencyLimit, cache.cap[0], old(State()), State(), now)
      ensures InTurn(old(running) + old(waiting), running + waiting, decoders, late)
      ensures batch == [] ==> Lined(reqs, running, decoders, late)
    {
      hide NothingFits, ChunkOf, DecodesServed, Planned, Inv, Stands, Slots, Roots, TierTok, Queues, World, Booked,
           WithinCaps, Turn, YoungestFirst, DecodesFirst, Within, Ids, TooBig, Formed, Lined, InTurn, PrefillsTaken,
           DecodesTaken, Alternates;
      PlannedSelf(reqs, cache.cap[0]);
      EmptyCounted(cfg);
      ghost var s := State();
      ghost var turn := OneTurn(cfg, State(), cache.cap[0]);
      var budget, seqs := AddPrefills(cfg.maxTokens, 0, now, decoders, late);
      ghost var mid := State();
      if batch == [] {
        budget, seqs := AddDecodes(decoders, late);
        PlannedTrans(s.reqs, mid.reqs, reqs, cache.cap[0]);
        InTurnTrans(s.running + s.waiting, mid.running + mid.waiting, running + waiting, decoders, late);
      }
      AttemptIs(cfg, cache.plays, cache.residencyLimit, cache.cap[0], s, mid, State(), sincePrefill);
      if turn { FormedIs(cfg, cache.plays, cache.residencyLimit, cache.cap[0], s, mid, State(), now); }
    }

    /** Decode steps, or every `prefillInterval` passes prefills first, and decode steps if that gives nothing. */
    method InterleavePrefills(now: real, ghost decoders: set<nat>, ghost late: set<nat>) returns (scheduled: bool)
      requires Sound({}) && batch == [] && Lined(reqs, running, decoders, late) && Alternates(cfg, State())
      modifies this`reqs, this`waiting, this`running, this`loading, this`loads, this`leak, this`batch, cache
      ensures Sound({}) && leak >= old(leak) && Planned(old(reqs), reqs, cache.cap[0]) &&
        WithinCaps(batch, cfg.maxTokens, cfg.maxSeqs, cfg.chunked)
      ensures batch == [] ==> |running| <= |old(running)|
      ensures AllPrefill(batch) || AllDecode(batch)
      ensures batch == [] && old(running) != [] ==> running != []
      ensures Attempted(cfg, cache.plays, cache.residencyLimit, cache.cap[0], old(State()), State(), sincePrefill)
      ensures batch != [] ==> (scheduled <==> sincePrefill + 1 >= cfg.prefillInterval && batch[0].prefill)
      ensures InTurn(old(running) + old(waiting), running + waiting, decoders, late)
      ensures batch == [] ==> Lined(reqs, running, decoders, late)
    {
      hide NothingFits, ChunkOf, DecodesServed, Planned, Inv, Stands, Slots, Roots, TierTok, Queues, World, Booked,
           WithinCaps, Formed, Turn, YoungestFirst, DecodesFirst, Within, Ids, TooBig, Lined, InTurn, PrefillsTaken,
           DecodesTaken, Alternates;
      PlannedSelf(reqs, cache.cap[0]);
      EmptyCounted(cfg);
      scheduled := false;
      var budget, seqs;
      if sincePrefill + 1 >= cfg.prefillInterval {
        budget, seqs := AddPrefills(cfg.maxTokens, 0, now, decoders, late);
        scheduled := batch != [];
      } else {
        budget, seqs := AddDecodes(decoders, late);
      }
      ghost var before, line, mid := reqs, running + waiting, State();
      if batch == [] {
        budget, seqs := AddDecodes(decoders, late);
        PlannedTrans(old(reqs), before, reqs, cache.cap[0]);
        InTurnTrans(old(running) + old(waiting), line, running + waiting, decoders, late);
      }
      AttemptIs(cfg, cache.plays, cache.residencyLimit, cache.cap[0], old(State()), mid, State(), sincePrefill);
    }

    /** One attempt at a batch, in the order the scheduling mode asks for; `batch` starts out empty. */
    method FillBatch(now: real, ghost decoders: set<nat>, ghost late: set<nat>)
      requires Sound({}) && batch == [] && Lined(reqs, running, decoders, late)
      modifies this`reqs, this`waiting, this`running, this`loading, this`loads, this`leak, this`batch,
        this`sincePrefill, cache
      ensures Sound({}) && leak >= old(leak) && Planned(old(reqs), reqs, cache.cap[0]) &&
        WithinCaps(batch, cfg.maxTokens, cfg.maxSeqs, cfg.chunked)
      ensures batch == [] ==> |running| <= |old(running)|
      ensures !cfg.mixed ==> AllPrefill(batch) || AllDecode(batch)
      ensures batch == [] ==> sincePrefill == old(sincePrefill)
      ensures Attempted(cfg, cache.plays, cache.residencyLimit, cache.cap[0], old(State()), State(), old(sincePrefill))
      ensures sincePrefill == NextSince(cfg, old(State()), batch, old(sincePrefill))
      ensures batch == [] && running == [] ==> NothingFits()
      ensures OneTurn(cfg, old(State()), cache.cap[0]) ==>
        Formed(cfg, cache.plays, cache.residencyLimit, cache.cap[0], old(State()), State(), now)
      ensures InTurn(old(running) + old(waiting), running + waiting, decoders, late)
      ensures batch == [] ==> Lined(reqs, running, decoders, late)
    {
      hide Formed, Turn, YoungestFirst, DecodesFirst, Within, Ids, TooBig, NothingFits, ChunkOf, DecodesServed,
           Planned, Inv, Stands, Slots, Roots, TierTok, Queues, World, Booked, WithinCaps, Lined, InTurn,
           PrefillsTaken, DecodesTaken, Attempted;
      PlannedSelf(reqs, cache.cap[0]);
      EmptyCounted(cfg);
      var budget, seqs := cfg.maxTokens, 0;
      var decoding := AnyDecoding();
      var scheduled := false;
      if cfg.prefillInterval > 1 && decoding {
        scheduled := InterleavePrefills(now, decoders, late);
      } else if cfg.mixed {
        budget, seqs := AddDecodes(decoders, late);
        ghost var before, line, mid := reqs, running + waiting, State();
        budget, seqs := AddPrefills(budget, seqs, now, decoders, late);
        PlannedTrans(old(reqs), before, reqs, cache.cap[0]);
        InTurnTrans(old(running) + old(waiting), line, running + waiting, decoders, late);
        AttemptIs(cfg, cache.plays, cache.residencyLimit, cache.cap[0], old(State()), mid, State(), sincePrefill);
      } else {
        PrefillsElseDecodes(now, decoders, late);
      }
      if batch != [] { sincePrefill := if scheduled then 0 else sincePrefill + 1; }
    }

    /** The youngest running request is preempted, to be recomputed first of those that wait. */
    method StepBack(ghost decoders: set<nat>, ghost late: set<nat>)
      requires Sound({}) && running != [] && batch == [] && Lined(reqs, running, decoders, late)
      modifies this`reqs, this`waiting, this`running, this`leak, cache
      ensures Sound({}) && leak >= old(leak) && Planned(old(reqs), reqs, cache.cap[0])
      ensures running + waiting == old(running) + old(waiting) && |running| == |old(running)| - 1
      ensures SteppedBack(cache.plays, old(State()), State())
      ensures Lined(reqs, running, decoders, late)
    {
      hide Planned, Inv, Stands, Slots, Roots, TierTok, Queues, World, Booked, SplitOff, Preempted, Lined, WholeOwn;
      var n := |running| - 1;
      RunningActive(reqs, waiting, running, loads, n);
      OneLess(reqs, waiting, running, loads, n, Preempted(reqs[running[n]]), decoders, late);
      Preempt(n);
      assert running + waiting == old(running) + old(waiting);
    }

    /** `form_batch` for one rank: it ends with work to do, waiting for a load, or with nothing running and no room for
        more. */
    method FormBatch(now: real) returns (any: bool)
      requires Sound({}) && batch == []
      modifies this`reqs, this`waiting, this`running, this`loading, this`loads, this`leak, this`batch,
        this`sincePrefill, cache
      ensures Sound({}) && leak >= old(leak) && Planned(old(reqs), reqs, cache.cap[0]) &&
        WithinCaps(batch, cfg.maxTokens, cfg.maxSeqs, cfg.chunked)
      ensures !cfg.mixed ==> AllPrefill(batch) || AllDecode(batch)
      ensures any <==> batch != []
      ensures any || loading > 0 || (running == [] && NothingFits())
      ensures OneTurn(cfg, old(State()), cache.cap[0]) ==>
        Formed(cfg, cache.plays, cache.residencyLimit, cache.cap[0], old(State()), State(), now)
      ensures KeptInTurn(old(State()), State()) && (any ==> OldestStays(old(State()), State(), cache.cap[0]))
      ensures Passed(cfg, cache.plays, cache.residencyLimit, cache.cap[0], old(State()), State(), old(sincePrefill))
    {
      hide Formed, TooBig, NothingFits, Planned, Inv, Stands, Slots, Roots, TierTok, Queues, World, Booked, WithinCaps,
           SplitOff, Preempted, Lined, InTurn, Decoders, OldestStays, Retried, FailedAt, Attempted, SteppedBack,
           NoneLoads, NextSince;
      PlannedSelf(reqs, cache.cap[0]);
      ghost var loads0, decoders, late := loads, Decoders(reqs), Late(running, Decoders(reqs));
      LinedStart(reqs, waiting, running, loads);
      InTurnSelf(running + waiting, decoders, late);
      ghost var s, turn, begun := State(), OneTurn(cfg, State(), cache.cap[0]), false;
      ghost var tries: nat := 0;
      RetriedNone(cfg, cache.plays, cache.residencyLimit, cache.cap[0], s, sincePrefill);
      while true
        invariant Sound({}) && leak >= old(leak) && Planned(old(reqs), reqs, cache.cap[0]) && batch == []
        invariant turn ==> if begun then Formed(cfg, cache.plays, cache.residencyLimit, cache.cap[0], s, State(), now)
          else State() == s
        invariant Lined(reqs, running, decoders, late) && sincePrefill == old(sincePrefill)
        invariant InTurn(s.running + s.waiting, running + waiting, decoders, late)
        invariant Retried(cfg, cache.plays, cache.residencyLimit, cache.cap[0], s, State(), sincePrefill, tries)
        decreases |running|
      {
        ghost var before, u := reqs, State();
        FillBatch(now, decoders, late);
        InTurnTrans(s.running + s.waiting, u.running + u.waiting, running + waiting, decoders, late);
        if turn && begun { FormedGrows(cfg, cache.plays, cache.residencyLimit, cache.cap[0], s, u, State(), now); }
        begun := true;
        PlannedTrans(old(reqs), before, reqs, cache.cap[0]);
        LoadsAre(reqs, waiting, running, loads);
        if batch != [] || running == [] || loading > 0 {
          PassedIs(cfg, cache.plays, cache.residencyLimit, cache.cap[0], s, u, State(), old(sincePrefill), tries);
          break;
        }
        ghost var v := u;
        before, u := reqs, State();
        StepBack(decoders, late);
        FailedIs(cfg, cache.plays, cache.residencyLimit, cache.cap[0], v, u, State(), sincePrefill);
        RetriedMore(cfg, cache.plays, cache.residencyLimit, cache.cap[0], s, v, u, State(), sincePrefill, tries);
        tries := tries + 1;
        if turn { FormedGrows(cfg, cache.plays, cache.residencyLimit, cache.cap[0], s, u, State(), now); }
        PlannedTrans(old(reqs), before, reqs, cache.cap[0]);
      }
      any := batch != [];
      if any {
        BatchRunning(reqs, batch, cache.tree, cache.plays, cfg.caches, cfg.nextn, waiting, running, loads);
        OldestKept(s, State(), waiting, loads, loads0, cache.cap[0]);
      }
    }

    // ---- the end of a pass ----

    /** The prompt blocks a finished prefill computed become a segment of the tree. */
    method InsertPrompt(now: real, ghost done: set<nat>) returns (own: int)
      requires Sound(done) && batch != [] && batch[0].prefill && batch[0].req < |reqs| && cfg.caches
      requires reqs[batch[0].req].prefillLeft == batch[0].tokens
      modifies cache
      ensures cache.Valid() && own != -1 &&
        PromptIn(old(cache.tree), cache.tree, reqs[batch[0].req], cache.plays, own, now)
      ensures var r := Grown(reqs[batch[0].req], batch[0].tokens, own); (
        World(reqs[batch[0].req := r], batch[1..], cache.tree, cache.plays, cfg.caches, cfg.nextn) &&
        Booked(cache.used, cache.tree, cache.plays, OffTreeSum(reqs[batch[0].req := r]) - leak))
    {
      hide Inv, Stands, Slots, Roots, TierTok, Queues, World, Grounded, Insert, BlockSeg, PinnedTop, Fits;
      GrowFrom(reqs, batch, cache.tree, cache.plays, cfg.nextn, now);
      var r := reqs[batch[0].req];
      ghost var c := cache.tree;
      FitsAt(r, cache.plays);
      var slice := cache.plays[r.play].reqs[r.tr];
      ghost var t: int;
      own, t := cache.InsertChild(r.hitNode, slice.begin + r.hitBlocks, slice.count - r.hitBlocks, r.tr, now);
      InvShape(cache.tree, cache.plays);
      GrownWorld(reqs, batch, c, cache.tree, cache.plays, cfg.nextn, t, own, now);
    }

    /** A completed request leaves its output on its own segment and gives back both pins. */
    method LeaveCached(id: nat, ghost done: set<nat>)
      requires Sound(done) && id < |reqs| && reqs[id].st.Decode? && reqs[id].generated == reqs[id].osl > 0
      requires (forall e :: e in batch ==> e.req != id) && cfg.caches
      modifies cache
      ensures cache.Valid() && cache.used == old(cache.used)
      ensures World(reqs[id := Finished(reqs[id])], batch, cache.tree, cache.plays, cfg.caches, cfg.nextn)
      ensures Booked(cache.used, cache.tree, cache.plays, OffTreeSum(reqs[id := Finished(reqs[id])]) - leak)
      ensures reqs[id].ownNode in cache.tree && cache.tree[reqs[id].ownNode].tail == reqs[id].generated - 1
    {
      hide Inv, Stands, Slots, Roots, TierTok, Queues, World, PinnedTop, Fits, ReqOk, Firm, Evictable, Booked,
           OffTreeSum, OffTree, CanPin, Finished;
      ghost var c, used0, off := cache.tree, cache.used, OffTreeSum(reqs) - leak;
      ActiveFacts(reqs, batch, c, cache.plays, cfg.caches, cfg.nextn, id);
      WorldTop(reqs, batch, c, cache.plays, cfg.caches, cfg.nextn);
      var r := reqs[id];
      OwnThere(r, Pend(batch, id), c, cache.plays);
      BookedTail(cache.used, c, cache.plays, off, r.ownNode, r.generated - 1);
      cache.SetTail(r.ownNode, r.generated - 1, {});
      ghost var e := cache.tree;
      StillCanPin(c, e, cache.plays, r);
      cache.Unpin(r.ownNode);
      ghost var f := cache.tree;
      StillCanPinHit(e, f, cache.plays, r);
      BookedKept(used0, cache.used, e, f, cache.plays, off - (r.generated - 1));
      cache.Unpin(r.hitNode);
      BookedKept(used0, cache.used, f, cache.tree, cache.plays, off - (r.generated - 1));
      FinishedWorld(reqs, batch, c, e, f, cache.tree, cache.plays, cfg.nextn, id);
    }

    /** A completed request leaves the tree; uncached, all its tokens go back at once. */
    method LeaveTree(id: nat, ghost done: set<nat>)
      requires Sound(done) && id < |reqs| && reqs[id].st.Decode? && reqs[id].generated == reqs[id].osl > 0
      requires forall e :: e in batch ==> e.req != id
      modifies cache
      ensures cache.Valid()
      ensures World(reqs[id := Finished(reqs[id])], batch, cache.tree, cache.plays, cfg.caches, cfg.nextn)
      ensures Booked(cache.used, cache.tree, cache.plays, OffTreeSum(reqs[id := Finished(reqs[id])]) - leak)
      ensures Output(reqs[id], old(cache.used), cache.used, cache.tree)
    {
      hide Inv, Stands, Slots, Roots, TierTok, Queues, World, Fits, ReqOk, Booked, OffTreeSum, Finished;
      if cfg.caches {
        LeaveCached(id, done);
      } else {
        var r := reqs[id];
        ActiveFacts(reqs, batch, cache.tree, cache.plays, cfg.caches, cfg.nextn, id);
        SplitOffIs(r, Pend(batch, id), cache.tree, cache.plays, cfg.caches);
        BookedCharge(cache.used, cache.tree, cache.plays, OffTreeSum(reqs) - leak, -r.alloc);
        cache.Charge(-r.alloc);
        FinishedPlain(reqs, batch, cache.tree, cache.plays, cfg.nextn, id);
      }
    }

    /** Whether the generated tokens of a completed request r stayed in the cache, or went back with all its others. */
    ghost predicate Output(r: Req, used0: seq<int>, used: seq<int>, c: Tree) {
      if cfg.caches then used == used0 && r.ownNode in c && c[r.ownNode].tail == r.generated - 1
      else used0 != [] && used == used0[0 := used0[0] - r.alloc]
    }

    method Finish(id: nat, ghost done: set<nat>)
      requires Sound(done) && id < |reqs| && reqs[id].st.Decode? && reqs[id].generated == reqs[id].osl > 0
      requires forall e :: e in batch ==> e.req != id
      modifies this`reqs, cache
      ensures Sound(done + {id}) && reqs == old(reqs)[id := Finished(old(reqs)[id])] && Onward(old(reqs), reqs)
      ensures Output(old(reqs)[id], old(cache.used), cache.used, cache.tree)
    {
      hide Inv, Stands, Slots, Roots, TierTok, Queues, World, Booked;
      LeaveTree(id, done);
      QueuesFinish(reqs, waiting, running, loads, done, id, Finished(reqs[id]));
      OnwardOne(reqs, id, Finished(reqs[id]));
      reqs := reqs[id := Finished(reqs[id])];
    }

    /** The last chunk of a prefill: its blocks enter the tree and it decodes from here on. */
    method Grow(now: real, ghost done: set<nat>)
      requires Sound(done) && AllDone(reqs, done) && batch != [] && batch[0].prefill
      requires batch[0].req < |reqs| && Unfinished(reqs[batch[0].req]) &&
        reqs[batch[0].req].prefillLeft == batch[0].tokens
      modifies this`reqs, this`batch, cache
      ensures batch == old(batch)[1..] && old(batch)[0].req < |reqs| && Onward(old(reqs), reqs)
      ensures reqs == old(reqs)[old(batch)[0].req := reqs[old(batch)[0].req]]
      ensures reqs[old(batch)[0].req] ==
        Grown(old(reqs)[old(batch)[0].req], old(batch)[0].tokens, reqs[old(batch)[0].req].ownNode)
      ensures Sound(done + {old(batch)[0].req})
      ensures Unfinished(reqs[old(batch)[0].req]) ==> Sound(done)
      ensures if cfg.caches
        then PromptIn(old(cache.tree), cache.tree, old(reqs)[old(batch)[0].req], cache.plays,
          reqs[old(batch)[0].req].ownNode, now)
        else cache.tree == old(cache.tree)
    {
      hide Inv, Stands, Slots, Roots, TierTok, Queues, World, Booked, Fits, PromptIn;
      var id, tok := batch[0].req, batch[0].tokens;
      var own := -1;
      if cfg.caches {
        own := InsertPrompt(now, done);
      } else {
        GrownPlain(reqs, batch, cache.tree, cache.plays, cfg.nextn);
      }
      QueuesGrow(reqs, waiting, running, loads, done, id, Grown(reqs[id], tok, own));
      OnwardOne(reqs, id, Grown(reqs[id], tok, own));
      reqs := reqs[id := Grown(reqs[id], tok, own)];
      batch := batch[1..];
    }

    /** A decode step commits; tokens charged for speculation that failed go back. */
    method StepDecode(accepted: nat, ghost done: set<nat>)
      requires Sound(done) && AllDone(reqs, done) && batch != [] && !batch[0].prefill && accepted <= cfg.nextn
      requires batch[0].req < |reqs| && Unfinished(reqs[batch[0].req])
      modifies this`reqs, this`batch, cache
      ensures batch == old(batch)[1..] && old(batch)[0].req < |reqs| && Onward(old(reqs), reqs)
      ensures reqs == old(reqs)[old(batch)[0].req :=
        StepOn(old(reqs)[old(batch)[0].req], old(batch)[0].tokens,
          MaxZero(Produced(old(reqs)[old(batch)[0].req], accepted)))]
      ensures var r, s := old(reqs)[old(batch)[0].req], reqs[old(batch)[0].req]; (
        s.generated == (if r.generated + 1 + accepted < r.osl then r.generated + 1 + accepted else r.osl) &&
        s.past - r.past == s.itl - r.itl == s.generated - r.generated)
      ensures Sound(done + {old(batch)[0].req})
      ensures Unfinished(reqs[old(batch)[0].req]) ==> Sound(done)
      ensures cache.tree == old(cache.tree)
    {
      hide Inv, Stands, Slots, Roots, TierTok, Queues, World, Booked, Fits;
      var id, tok := batch[0].req, batch[0].tokens;
      var produced := Least(1 + accepted, reqs[id].osl - reqs[id].generated);
      StepWorld(reqs, batch, cache.tree, cache.plays, cfg.caches, cfg.nextn, produced);
      BookedCharge(cache.used, cache.tree, cache.plays, OffTreeSum(reqs) - leak, -(tok - produced));
      var r := StepOn(reqs[id], tok, produced);
      QueuesGrow(reqs, waiting, running, loads, done, id, r);
      cache.Charge(-(tok - produced));
      OnwardOne(reqs, id, r);
      reqs := reqs[id := r];
      batch := batch[1..];
    }

    /** A chunk that does not end its prefill counts as computed. */
    method ComputeChunk(ghost done: set<nat>)
      requires Sound(done) && AllDone(reqs, done) && batch != [] && batch[0].prefill && batch[0].req < |reqs|
      requires Unfinished(reqs[batch[0].req]) && reqs[batch[0].req].prefillLeft > batch[0].tokens
      modifies this`reqs, this`batch
      ensures Sound(done) && batch == old(batch)[1..] && old(batch)[0].req < |old(reqs)| && Onward(old(reqs), reqs)
      ensures reqs == old(reqs)[old(batch)[0].req := Computed(old(reqs)[old(batch)[0].req], old(batch)[0].tokens)]
    {
      hide Onward, Inv, Stands, Slots, Roots, TierTok, Queues, World, Booked, Fits;
      var id, r := batch[0].req, Computed(reqs[batch[0].req], batch[0].tokens);
      ChunkWorld(reqs, batch, cache.tree, cache.plays, cfg.caches, cfg.nextn);
      QueuesSame(reqs, waiting, running, loads, done, id, r);
      OnwardOne(reqs, id, r);
      reqs := reqs[id := r];
      batch := batch[1..];
    }

    /** Commits the first entry of the batch. */
    method CommitEntry(accepted: nat, now: real, ghost done: set<nat>) returns (ghost done1: set<nat>)
      requires Sound(done) && AllDone(reqs, done) && batch != [] && accepted <= cfg.nextn
      modifies this`reqs, this`batch, cache
      ensures Sound(done1) && AllDone(reqs, done1) && batch == old(batch)[1..]
      ensures old(batch)[0].req < |reqs| && Onward(old(reqs), reqs)
      ensures reqs == old(reqs)[old(batch)[0].req := reqs[old(batch)[0].req]]
      ensures reqs[old(batch)[0].req] ==
        After(old(reqs)[old(batch)[0].req], old(batch)[0], accepted, reqs[old(batch)[0].req].ownNode)
      ensures EntryTree(cfg.caches, old(reqs), reqs, old(batch)[0], old(cache.tree), cache.tree, cache.plays, now)
    {
      hide PromptIn, Onward, Inv, Stands, Slots, Roots, TierTok, Queues, World, Booked, Fits, Produced, MaxZero;
      OnwardSelf(reqs);
      RunningEntry(reqs, batch, cache.tree, cache.plays, cfg.caches, cfg.nextn, waiting, running, loads, done);
      done1 := done;
      var e := batch[0];
      var id := e.req;
      if e.prefill && reqs[id].prefillLeft > e.tokens {
        ComputeChunk(done);
        return;
      }
      if e.prefill { Grow(now, done); } else { StepDecode(accepted, done); }
      if reqs[id].generated >= reqs[id].osl {
        done1 := done + {id};
        DecodeTop(reqs, batch, cache.tree, cache.plays, cfg.caches, cfg.nextn, id);
        ghost var before := reqs;
        Finish(id, done1);
        OnwardTrans(old(reqs), before, reqs);
        assert done1 + {id} == done1;
      }
    }

    /** Requests that are done leave the running list; the others keep their order. */
    method DropDone(ghost done: set<nat>)
      requires Sound(done) && AllDone(reqs, done)
      modifies this`running
      ensures Sound({}) && running == StillRunning(reqs, old(running))
      ensures Within(running, old(running))
      ensures forall i :: i in running <==> i in old(running) && i < |reqs| && Active(reqs[i])
    {
      hide Inv, Stands, Slots, Roots, TierTok, Queues, World, Booked, AllDone;
      QueuesSettle(reqs, waiting, running, loads, done);
      StillInOrder(reqs, running);
      var kept := [];
      for i := 0 to |running|
        invariant kept == StillRunning(reqs, running[..i])
      {
        assert running[..i + 1][..i] == running[..i];
        if running[i] < |reqs| && Active(reqs[running[i]]) { kept := kept + [running[i]]; }
      }
      assert running[..|running|] == running;
      running := kept;
    }

    /** `commit_pass`: every entry of the batch takes effect and requests that are done stop running. */
    method Commit(accepts: seq<nat>, now: real)
      requires Sound({}) && |accepts| == |batch| && forall a :: a in accepts ==> a <= cfg.nextn
      modifies this`reqs, this`running, this`batch, this`busy, cache
      ensures Sound({}) && batch == [] && !busy && Onward(old(reqs), reqs)
      ensures Committed(old(reqs), reqs, old(batch), accepts, |old(batch)|)
      ensures AllMovedOn(old(reqs), reqs, old(batch), accepts)
      ensures running == StillRunning(reqs, old(running))
      ensures Within(running, old(running))
      ensures forall i :: i in running <==> i in old(running) && i < |reqs| && Active(reqs[i])
      ensures |old(batch)| == 1 ==>
        EntryTree(cfg.caches, old(reqs), reqs, old(batch)[0], old(cache.tree), cache.tree, cache.plays, now)
    {
      hide EntryTree, AllMovedOn, Onward, Inv, Stands, Slots, Roots, TierTok, Queues, World, Booked, After, Committed,
           AllDone;
      OnwardSelf(reqs);
      busy := false;
      ghost var b, reqs0, c0, waiting0, running0, loads0 := batch, reqs, cache.tree, waiting, running, loads;
      ghost var done: set<nat> := {};
      NothingCommitted(reqs, cache.tree, cache.plays, cfg.caches, cfg.nextn, b, accepts);
      var k := 0;
      while batch != []
        invariant Sound(done) && AllDone(reqs, done) && running == old(running) && !busy && Onward(old(reqs), reqs)
        invariant k <= |b| == |accepts| && batch == b[k..] && DistinctReqs(b)
        invariant Committed(reqs0, reqs, b, accepts, k)
        invariant k == 0 ==> reqs == reqs0 && cache.tree == old(cache.tree)
        invariant k == 1 ==>
          EntryTree(cfg.caches, reqs0, reqs, b[0], old(cache.tree), cache.tree, cache.plays, now)
        decreases |batch|
      {
        ghost var reqs1 := reqs;
        assert accepts[k] in accepts;
        done := CommitEntry(accepts[k], now, done);
        OnwardTrans(reqs0, reqs1, reqs);
        CommittedMore(reqs0, reqs1, reqs, b, accepts, k);
        k := k + 1;
      }
      AllMoved(reqs0, reqs, b, accepts, c0, cache.plays, cfg.caches, cfg.nextn, waiting0, running0, loads0);
      DropDone(done);
    }

    // ---- the other events ----

    /** A tier load has arrived: the pin it held goes back and the request queues in front. */
    method LoadDone(id: nat)
      requires Sound({}) && id < |reqs| && reqs[id].st.Loading?
      modifies this`reqs, this`waiting, this`loading, this`loads, cache
      ensures Sound({}) && reqs == old(reqs)[id := Arrived(old(reqs)[id])] && Onward(old(reqs), reqs)
      ensures waiting == [id] + old(waiting) && loading == old(loading) - 1
    {
      hide Inv, Stands, Slots, Roots, TierTok, Queues, World, Booked;
      ghost var c, used0 := cache.tree, cache.used;
      InFlightHeld(reqs, batch, c, cache.plays, cfg.caches, cfg.nextn, id);
      cache.Unpin(reqs[id].hitNode);
      BookedKept(used0, cache.used, c, cache.tree, cache.plays, OffTreeSum(reqs) - leak);
      ArrivedWorld(reqs, batch, c, cache.tree, cache.plays, cfg.caches, cfg.nextn, id);
      QueuesFront(reqs, waiting, running, loads, id, Arrived(reqs[id]));
      loading := loading - 1;
      OnwardOne(reqs, id, Arrived(reqs[id]));
      reqs := reqs[id := Arrived(reqs[id])];
      waiting := [id] + waiting;
      loads := loads - {id};
    }

    /** A request whose predecessors are done joins the queue. */
    method Enqueue(id: nat)
      requires Sound({}) && id < |reqs| && reqs[id].st.Pending?
      modifies this`reqs, this`waiting
      ensures Sound({}) && reqs == old(reqs)[id := old(reqs)[id].(st := Queued)] && Onward(old(reqs), reqs)
      ensures waiting == old(waiting) + [id]
    {
      hide Inv, Stands, Slots, Roots, TierTok, Queues, World, Booked;
      EnqueuedWorld(reqs, batch, cache.tree, cache.plays, cfg.caches, cfg.nextn, id);
      QueuesBack(reqs, waiting, running, loads, id, reqs[id].(st := Queued));
      OnwardOne(reqs, id, reqs[id].(st := Queued));
      reqs := reqs[id := reqs[id].(st := Queued)];
      waiting := waiting + [id];
    }

    /** `try_start_pass`: an idle rank of a worker that is free forms its next batch. */
    method StartPass(now: real, free: bool)
      requires Sound({}) && (!busy ==> batch == [])
      modifies this, cache
      ensures Sound({}) && (!busy ==> batch == []) && leak >= old(leak) && Planned(old(reqs), reqs, cache.cap[0])
      ensures free && old(!busy) ==>
        (busy <==> batch != []) && WithinCaps(batch, cfg.maxTokens, cfg.maxSeqs, cfg.chunked)
      ensures free && !busy ==> loading > 0 || (running == [] && NothingFits())
      ensures !free || old(busy) ==>
        State() == old(State()) && loading == old(loading) && busy == old(busy) && cache.used == old(cache.used)
      ensures free && old(!busy) && OneTurn(cfg, old(State()), cache.cap[0]) ==>
        Formed(cfg, cache.plays, cache.residencyLimit, cache.cap[0], old(State()), State(), now)
      ensures free && old(!busy) ==>
        KeptInTurn(old(State()), State()) && (busy ==> OldestStays(old(State()), State(), cache.cap[0])) &&
        Passed(cfg, cache.plays, cache.residencyLimit, cache.cap[0], old(State()), State(), old(sincePrefill))
    {
      hide KeptInTurn, OldestStays, Passed, Formed, OneTurn, NothingFits, Planned, Inv, Stands, Slots, Roots, TierTok,
           Queues, World, Booked, WithinCaps;
      PlannedSelf(reqs, cache.cap[0]);
      if busy || !free { return; }
      busy := FormBatch(now);
    }

    // ---- whole runs ----

    /** Between events: a pass is running exactly when there is a batch, and only requests that could never fit have
        failed. */
    ghost predicate Steady()
      reads this, cache
    {
      Sound({}) && (busy <==> batch != []) && Judged(reqs, cache.cap[0])
    }

    /** The event concerns this rank in its present state. */
    ghost predicate Applies(e: Event)
      reads this
    {
      match e
      case Ready(id) => id < |reqs| && reqs[id].st.Pending?
      case Loaded(id) => id < |reqs| && reqs[id].st.Loading?
      case PassEnd(accepts) => busy && |accepts| == |batch| && forall a :: a in accepts ==> a <= cfg.nextn
      case WriteBack => true
      case Routed(id) => false
    }

    /** One event of the engine's loop that concerns this rank takes its own effect, and then a batch is planned;
        one that does not apply changes nothing. `mid` is the state in between. */
    method Handle(e: Event, now: real, free: bool) returns (ghost mid: View)
      requires Steady()
      modifies this, cache
      ensures Steady() && Onward(old(reqs), reqs) && leak >= old(leak)
      ensures old(Applies(e)) ==>
        Took(e, cfg.caches, cache.plays, old(State()), mid, now) && Planned(mid.reqs, reqs, cache.cap[0]) &&
        (free ==> busy || loading > 0 || (running == [] && NothingFits())) &&
        (!free || mid.batch != [] ==> State() == mid) &&
        (free && mid.batch == [] && OneTurn(cfg, mid, cache.cap[0]) ==>
           Formed(cfg, cache.plays, cache.residencyLimit, cache.cap[0], mid, State(), now)) &&
        (free && mid.batch == [] ==>
           KeptInTurn(mid, State()) && (busy ==> OldestStays(mid, State(), cache.cap[0])) &&
           Passed(cfg, cache.plays, cache.residencyLimit, cache.cap[0], mid, State(), old(sincePrefill)))
      ensures !old(Applies(e)) ==>
        reqs == old(reqs) && waiting == old(waiting) && running == old(running) && loading == old(loading) &&
        batch == old(batch) && busy == old(busy)
      ensures e.Routed? && e.id < |reqs| && cfg.caches ==>
        Passing(old(cache.tree), cache.tree, cache.plays, reqs[e.id], now, cache.residencyLimit)
    {
      hide Passing, KeptInTurn, OldestStays, Passed, Formed, OneTurn, EntryTree, NothingFits, Onward, Planned, Judged,
           Inv, Stands, Slots, Roots, TierTok, Queues, World, Booked, WithinCaps, Committed, AllMovedOn, Within,
           StillRunning, Active, OffTreeSum;
      mid := State();
      OnwardSelf(reqs);
      match e
      case Ready(id) =>
        if id < |reqs| && reqs[id].st.Pending? {
          JudgedQueued(reqs, id, reqs[id].(st := Queued), cache.cap[0]);
          Enqueue(id);
          mid := State();
          PlanNext(now, free);
          OnwardTrans(old(reqs), mid.reqs, reqs);
        }
      case Loaded(id) =>
        if id < |reqs| && reqs[id].st.Loading? {
          JudgedQueued(reqs, id, Arrived(reqs[id]), cache.cap[0]);
          LoadDone(id);
          mid := State();
          PlanNext(now, free);
          OnwardTrans(old(reqs), mid.reqs, reqs);
        }
      case PassEnd(accepts) =>
        if busy && |accepts| == |batch| && forall a :: a in accepts ==> a <= cfg.nextn {
          WorldBatch(reqs, batch, cache.tree, cache.plays, cfg.caches, cfg.nextn);
          Commit(accepts, now);
          mid := State();
          JudgedCommitted(old(reqs), reqs, old(batch), accepts, cfg.nextn, cache.cap[0]);
          PlanNext(now, free);
          OnwardTrans(old(reqs), mid.reqs, reqs);
        }
      case WriteBack =>
        PlanNext(now, free);
      case Routed(id) =>
        if id < |reqs| && cfg.caches { Route(id, now); }
    }

    /** The router looks up a request that may go elsewhere. */
    method Route(id: nat, now: real)
      requires Steady() && id < |reqs| && cfg.caches
      modifies cache
      ensures Steady() && Passing(old(cache.tree), cache.tree, cache.plays, reqs[id], now, cache.residencyLimit)
    {
      hide Inv, Stands, Slots, Roots, TierTok, Queues, World, Booked, Judged, LookedUp, Fits;
      ReqFits(reqs, batch, cache.tree, cache.plays, cfg.caches, cfg.nextn, id);
      FitsGood(reqs[id], cache.plays);
      ghost var c := cache.tree;
      ghost var seen;
      var h;
      h, seen := FindPrefix(reqs[id].play, reqs[id].tr, now);
      PassingBy(c, seen, cache.plays, h, cache.tree, reqs[id], now, cache.residencyLimit);
    }

    /** An idle rank of a free worker plans its next batch. */
    method PlanNext(now: real, free: bool)
      requires Sound({}) && (busy <==> batch != []) && Judged(reqs, cache.cap[0])
      modifies this, cache
      ensures Steady() && Planned(old(reqs), reqs, cache.cap[0]) && Onward(old(reqs), reqs) && leak >= old(leak)
      ensures free ==> busy || loading > 0 || (running == [] && NothingFits())
      ensures !free || old(busy) ==> State() == old(State())
      ensures free && old(!busy) && OneTurn(cfg, old(State()), cache.cap[0]) ==>
        Formed(cfg, cache.plays, cache.residencyLimit, cache.cap[0], old(State()), State(), now)
      ensures free && old(!busy) ==>
        KeptInTurn(old(State()), State()) && (busy ==> OldestStays(old(State()), State(), cache.cap[0])) &&
        Passed(cfg, cache.plays, cache.residencyLimit, cache.cap[0], old(State()), State(), old(sincePrefill))
    {
      hide KeptInTurn, OldestStays, Passed, Formed, OneTurn, NothingFits, Onward, Planned, Judged, Inv, Stands, Slots,
           Roots, TierTok, Queues, World, Booked, WithinCaps;
      StartPass(now, free);
      PlannedOnward(old(reqs), reqs, cache.cap[0]);
      JudgedPlanned(old(reqs), reqs, cache.cap[0]);
    }

    /** Every run, whatever the order of events. */
    method Run(events: seq<Happening>)
      requires Steady()
      modifies this, cache
      ensures Steady() && Onward(old(reqs), reqs) && leak >= old(leak)
    {
      hide Onward, Steady;
      OnwardSelf(reqs);
      for i := 0 to |events|
        invariant Steady() && Onward(old(reqs), reqs) && leak >= old(leak)
      {
        ghost var before := reqs;
        ghost var mid := Handle(events[i].event, events[i].at, events[i].free);
        OnwardTrans(old(reqs), before, reqs);
      }
    }
  }
}
