/** What planning a pass may do to a rank, in terms of what the rank looks like before and after. */
module Planning {
  import opened Commons

  import opened KvTree
  import opened KvHolds
  import opened Requests
  import opened Turns
  import opened Expiry
  import KvCache

  datatype Config = Config(
    caches: bool,
    chunked: bool,
    chunkTokens: nat,
    mixed: bool,
    prefillInterval: int,
    maxTokens: int,
    maxSeqs: int,
    nextn: nat)

  /** What the pass has left of its token budget, and how many sequences it has taken. */
  ghost predicate Counted(b: seq<Entry>, budget: int, seqs: int, cfg: Config) {
    budget == cfg.maxTokens - BatchTokens(b) && seqs == |b|
  }

  /** Request id was charged for a chunk and joined the batch with it. */
  ghost predicate ChunkAdded(reqs0: seq<Req>, reqs: seq<Req>, b0: seq<Entry>, b: seq<Entry>, id: nat, chunk: int,
                             cfg: Config) {
    && id < |reqs0| && reqs == reqs0[id := Charged(reqs0[id], chunk)] && b == b0 + [Entry(id, chunk, true)]
    && 0 < chunk <= reqs0[id].prefillLeft && (cfg.chunked ==> chunk <= cfg.chunkTokens)
  }

  lemma EmptyCounted(cfg: Config)
    ensures Counted([], cfg.maxTokens, 0, cfg) && WithinCaps([], cfg.maxTokens, cfg.maxSeqs, cfg.chunked)
  {
  }

  /** What reaches one rank: a request that became ready, a finished tier load, the end of a pass (with the drafts each
      entry had accepted), a finished write-back, and a lookup by the router. */
  datatype Event = Ready(id: nat) | Loaded(id: nat) | PassEnd(accepts: seq<nat>) | WriteBack | Routed(id: nat)

  /** An event, when it comes, and whether the worker is free then: not held back by a transfer still under way. */
  datatype Happening = Happening(event: Event, at: real, free: bool)

  datatype Admission = Ok | Blocked | Loads

  /** What a lookup of request r in tree c found, and the tree e after it: only idle subtrees were lost, every expired
      one the lookup came by among them, and in what was left the match followed the first child that begins with the
      next block, until none did. */
  ghost predicate LookedUp(c: Tree, mid: Tree, plays: seq<Play>, found: Hit, e: Tree, play: nat, r: nat, now: real,
                           limit: real)
    requires Inv(c, plays) && GoodReq(plays, play, r)
  {
    if found == Hit(-1, 0, 0, false) then e == c
    else
      && Inv(mid, plays) && Lapsed(c, mid, now, limit) && (limit <= 0.0 ==> mid == c)
      && Found(mid, plays, found, play, r) && e == KvTree.Touch(mid, found.node, now)
      && Fresh(mid, found, plays[play].reqs[r].count, now, limit)
  }

  /** From c to e, request r was looked up and nothing else happened. */
  ghost predicate Passing(c: Tree, e: Tree, plays: seq<Play>, r: Req, now: real, limit: real) {
    Inv(c, plays) && Fits(r, plays) &&
    exists found, mid: Tree :: LookedUp(c, mid, plays, found, e, r.play, r.tr, now, limit)
  }

  lemma PassingBy(c: Tree, mid: Tree, plays: seq<Play>, found: Hit, e: Tree, r: Req, now: real, limit: real)
    requires Inv(c, plays) && Fits(r, plays) && LookedUp(c, mid, plays, found, e, r.play, r.tr, now, limit)
    ensures Passing(c, e, plays, r, now, limit)
  {
    hide LookedUp, Inv;
  }

  lemma FitsGood(r: Req, plays: seq<Play>)
    requires Fits(r, plays)
    ensures GoodReq(plays, r.play, r.tr)
  {
  }

  /** An admission on its way through the cache: the lookup and the tree after it, the hit it goes on with, the tree
      with a place for the pin, the pinned segment, and the tree after making room. */
  datatype Look = Look(mid: Tree, found: Hit, at: Tree, hit: Hit, ready: Tree, pin: int, made: Tree)

  ghost predicate Sought(c: Tree, look: Look, plays: seq<Play>, r: Req, now: real, limit: real)
    requires Inv(c, plays) && Fits(r, plays)
  {
    && LookedUp(c, look.mid, plays, look.found, look.at, r.play, r.tr, now, limit)
    && look.hit.blocks == BackOff(look.found.blocks, plays[r.play].reqs[r.tr].count)
    && (look.found.blocks < plays[r.play].reqs[r.tr].count ==> look.hit == look.found)
  }

  /** Room for `need` tokens beside `off` tokens off the tree was sought on the device tier. */
  ghost predicate RoomSought(c: Tree, d: Tree, plays: seq<Play>, off: int, need: int, room: int, ok: bool) {
    && Inv(c, plays) && Shape(c) && Sheds(c, d, 0) && (ok <==> CanFree(c, plays, 0, off, need, room))
    && (off + TierTok(c, plays, 0) + need <= room ==> d == c)
  }

  lemma RoomIs(c: Tree, d: Tree, plays: seq<Play>, used: seq<int>, off: int, need: int, room: int, ok: bool)
    requires Inv(c, plays) && Sheds(c, d, 0) && Booked(used, c, plays, off)
    requires Shape(c) && (ok <==> CanFree(c, plays, 0, used[0] - TierTok(c, plays, 0), need, room))
    requires used[0] + need <= room ==> d == c
    ensures RoomSought(c, d, plays, off, need, room, ok)
  {
  }

  /** The hit was pinned and room sought for a first chunk beside `off` tokens off the tree; without room the pin went
      back. */
  ghost predicate Tried(look: Look, plays: seq<Play>, play: nat, now: real, off: int, chunk: int, room: int, ok: bool,
                        e: Tree) {
    && Prepared(look.at, look.ready, look.hit, look.pin, play, now) && look.pin in look.ready
    && RoomSought(AddPins(look.ready, look.pin, 1), look.made, plays, off, chunk, room, ok)
    && look.pin in look.made && e == if ok then look.made else AddPins(look.made, look.pin, -1)
  }

  /** The lookup half and the pinning half of an admission, put together. */
  ghost function LookJoined(c: Tree, look: Look, pinned: Look, plays: seq<Play>, r: Req, now: real,
                            limit: real): (l: Look)
    requires Inv(c, plays) && Fits(r, plays) && Sought(c, look, plays, r, now, limit)
    requires pinned.at == look.at && pinned.hit == look.hit
    ensures Sought(c, l, plays, r, now, limit) && l == pinned.(mid := look.mid, found := look.found)
  {
    pinned.(mid := look.mid, found := look.found)
  }

  lemma TriedSame(look: Look, pinned: Look, plays: seq<Play>, play: nat, now: real, off: int, chunk: int, room: int,
                  ok: bool, e: Tree)
    requires Tried(pinned, plays, play, now, off, chunk, room, ok, e) &&
      look == pinned.(mid := look.mid, found := look.found)
    ensures Tried(look, plays, play, now, off, chunk, room, ok, e)
  {
  }

  /** Blocks of a match that an admission uses: at least one block is left to compute. */
  function BackOff(blocks: nat, count: nat): nat {
    if blocks > 0 && blocks == count then blocks - 1 else blocks
  }

  /** The first chunk of request r on top of `blocks` cached blocks. */
  function FirstOf(r: Req, blocks: nat, plays: seq<Play>, firstChunk: int, limited: bool): int
    requires r.play < |plays|
  {
    FirstChunk(r.isl - blocks * plays[r.play].blockSize + OutputKv(r), firstChunk, limited)
  }

  /** The first chunk of `left` tokens. */
  function FirstChunk(left: int, firstChunk: int, limited: bool): int {
    if limited && firstChunk < left then firstChunk else left
  }

  /** The prompt blocks request r computed were inserted below its pinned prefix as segment `own`. */
  ghost predicate PromptIn(c: Tree, d: Tree, r: Req, plays: seq<Play>, own: int, now: real) {
    && r.hitNode in c && r.play < |plays| && r.tr < |plays[r.play].reqs|
    && r.hitBlocks <= plays[r.play].reqs[r.tr].count
    && own != -1 && own !in c
    && exists t :: t !in c && t != own && t != r.hitNode &&
         d == Insert(c, r.hitNode, t, own, r.tr, plays[r.play].reqs[r.tr].count - r.hitBlocks, now)
  }

  /** What the end of a pass does to the tree through entry e, unless its request is done: a finished prompt enters
      it. */
  ghost predicate EntryTree(caches: bool, reqs0: seq<Req>, reqs: seq<Req>, e: Entry, c: Tree, d: Tree, plays: seq<Play>,
                            now: real)
  {
    && e.req < |reqs0| && e.req < |reqs|
    && (!reqs[e.req].st.Done? ==>
          if caches && reqs[e.req].st.Decode? && e.prefill
            then PromptIn(c, d, reqs0[e.req], plays, reqs[e.req].ownNode, now)
          else d == c)
  }

  // ---- one turn, seen from outside ----

  /** What planning reads and changes of a rank. */
  datatype View = View(reqs: seq<Req>, waiting: seq<nat>, running: seq<nat>, batch: seq<Entry>, tree: Tree, leak: int)

  ghost predicate Rooted(c: Tree, play: nat) {
    exists i :: KvCache.IsRoot(c, i) && c[i].play == play
  }

  /** The first chunk a pass with this budget left gives request r on top of `blocks` cached blocks. */
  function Take(cfg: Config, r: Req, blocks: nat, plays: seq<Play>, budget: int): int
    requires r.play < |plays|
  {
    FirstOf(r, blocks, plays, if cfg.chunkTokens < budget then cfg.chunkTokens else budget, cfg.chunked)
  }

  /** The head of the queue was looked up and tried, and joined the batch with its first chunk if there was room. */
  ghost predicate TurnBy(cfg: Config, plays: seq<Play>, limit: real, room: int, s: View, u: View, budget: int,
                         now: real, look: Look, ok: bool) {
    && s.waiting != [] && s.waiting[0] < |s.reqs| && Inv(s.tree, plays) && Fits(s.reqs[s.waiting[0]], plays)
    && var id, r := s.waiting[0], s.reqs[s.waiting[0]]; (
       Sought(s.tree, look, plays, r, now, limit) && (Rooted(s.tree, r.play) ==> look.found.node != -1) &&
       (!look.hit.lower ==>
          Tried(look, plays, r.play, now, OffTreeSum(s.reqs) - s.leak, Take(cfg, r, look.hit.blocks, plays, budget),
            room, ok, u.tree) &&
          u == Joined(cfg, plays, s, u.tree, budget, look, ok)))
  }

  ghost function Joined(cfg: Config, plays: seq<Play>, s: View, e: Tree, budget: int, look: Look, ok: bool): View
    requires s.waiting != [] && s.waiting[0] < |s.reqs| && s.reqs[s.waiting[0]].play < |plays|
  {
    var id, r := s.waiting[0], s.reqs[s.waiting[0]];
    var k := Take(cfg, r, look.hit.blocks, plays, budget);
    if ok
    then View(s.reqs[id := Charged(AdmittedReq(r, look.pin, look.hit.blocks, plays[r.play].blockSize), k)],
      s.waiting[1..],
              s.running + [id], s.batch + [Entry(id, k, true)], e, s.leak)
    else s.(tree := e)
  }

  ghost predicate Turn(cfg: Config, plays: seq<Play>, limit: real, room: int, s: View, u: View, budget: int,
                       now: real) {
    exists look, ok :: TurnBy(cfg, plays, limit, room, s, u, budget, now, look, ok)
  }

  /** What `admit_prefill` made of the head of the queue: v are the requests and e the tree after it. */
  ghost predicate HeadTried(cfg: Config, plays: seq<Play>, limit: real, room: int, s: View, v: seq<Req>, e: Tree,
                            now: real, firstChunk: int, limited: bool, known: bool, look: Look, a: Admission) {
    && s.waiting != [] && s.waiting[0] < |s.reqs| && Inv(s.tree, plays) && Fits(s.reqs[s.waiting[0]], plays)
    && var id, r := s.waiting[0], s.reqs[s.waiting[0]]; (
       Sought(s.tree, look, plays, r, now, limit) && (cfg.caches && known ==> look.found.node != -1) &&
       (a.Ok? ==>
         id < |v| &&
           v[id] == AdmittedReq(r, if cfg.caches then look.pin else -1, look.hit.blocks, plays[r.play].blockSize)) &&
       (a.Loads? ==> look.hit.lower) &&
       (cfg.caches && !look.hit.lower ==>
          Tried(look, plays, r.play, now, OffTreeSum(s.reqs) - s.leak,
            FirstOf(r, look.hit.blocks, plays, firstChunk, limited),
                room, a.Ok?, e)))
  }

  /** v is s.reqs but for the head of the queue, which took its first chunk of k tokens; u is what the rank looks like
      then. */
  ghost predicate TookChunk(s: View, v: seq<Req>, u: View, k: int)
    requires s.waiting != []
  {
    var id := s.waiting[0];
    && id < |v| == |s.reqs| && (forall i :: 0 <= i < |v| && i != id ==> v[i] == s.reqs[i])
    && u.reqs == v[id := Charged(v[id], k)] && u.waiting == s.waiting[1..] && u.leak == s.leak
    && u.running == s.running + [id] && u.batch == s.batch + [Entry(id, k, true)]
  }

  lemma TurnDone(cfg: Config, plays: seq<Play>, limit: real, room: int, s: View, v: seq<Req>, e: Tree, u: View,
                 budget: int, now: real, firstChunk: int, known: bool, look: Look, a: Admission, k: int)
    requires HeadTried(cfg, plays, limit, room, s, v, e, now, firstChunk, true, known, look, a) && cfg.caches &&
      cfg.chunked
    requires firstChunk == if cfg.chunkTokens < budget then cfg.chunkTokens else budget
    requires s.waiting[0] < |s.reqs| && Rooted(s.tree, s.reqs[s.waiting[0]].play) ==> known
    requires a.Blocked? ==> u == s.(tree := e)
    requires a.Ok? ==>
      u.tree == e && TookChunk(s, v, u, k) && k == FirstChunk(v[s.waiting[0]].prefillLeft, firstChunk, true)
    ensures Turn(cfg, plays, limit, room, s, u, budget, now)
  {
    hide Sought, Tried, Fits, Inv, Rooted, Take, OffTreeSum, AdmittedReq, FirstOf, FirstChunk;
    var id, r := s.waiting[0], s.reqs[s.waiting[0]];
    FitsPlay(r, plays);
    TakeIs(cfg, r, look.pin, look.hit.blocks, plays, budget, firstChunk);
    if a.Ok? && !look.hit.lower { assert u.reqs == s.reqs[id := Charged(v[id], k)]; }
    assert TurnBy(cfg, plays, limit, room, s, u, budget, now, look, a.Ok?);
  }

  lemma FitsPlay(r: Req, plays: seq<Play>)
    requires Fits(r, plays)
    ensures r.play < |plays|
  {
  }

  lemma TakeIs(cfg: Config, r: Req, pin: int, blocks: nat, plays: seq<Play>, budget: int, firstChunk: int)
    requires r.play < |plays| && firstChunk == if cfg.chunkTokens < budget then cfg.chunkTokens else budget
    ensures FirstOf(r, blocks, plays, firstChunk, cfg.chunked) == Take(cfg, r, blocks, plays, budget)
    ensures FirstChunk(AdmittedReq(r, pin, blocks, plays[r.play].blockSize).prefillLeft, firstChunk, cfg.chunked) ==
            Take(cfg, r, blocks, plays, budget)
  {
  }

  lemma RootedKnown(roots: map<nat, int>, c: Tree, play: nat)
    requires KvCache.Roots(roots, c)
    ensures Rooted(c, play) ==> play in roots
  {
  }

  /** No running request is still prefilling. */
  ghost predicate NonePrefills(s: View) {
    forall i: nat :: i < |s.running| && s.running[i] < |s.reqs| ==> !s.reqs[s.running[i]].st.Prefill?
  }

  /** A single request waits, which can fit and goes through the cache chunk by chunk. */
  ghost predicate OneWaits(cfg: Config, s: View, room: int) {
    cfg.caches && cfg.chunked && |s.waiting| == 1 && s.waiting[0] < |s.reqs| && !TooBig(s.reqs[s.waiting[0]], room)
  }

  /** Passes prefill before they decode and may hold something; nobody prefills and a single request waits. */
  ghost predicate OneTurn(cfg: Config, s: View, room: int) {
    !cfg.mixed && cfg.prefillInterval <= 1 && cfg.maxTokens > 0 && cfg.maxSeqs > 0 && NonePrefills(s) &&
      OneWaits(cfg, s, room)
  }

  /** The effect an event that applies has by itself, before anything is planned: from s to m. */
  ghost predicate Took(e: Event, caches: bool, plays: seq<Play>, s: View, m: View, now: real) {
    match e
    case Ready(id) => id < |s.reqs| &&
      m == s.(reqs := s.reqs[id := s.reqs[id].(st := Queued)], waiting := s.waiting + [id])
    case Loaded(id) => id < |s.reqs| &&
      m == s.(reqs := s.reqs[id := Arrived(s.reqs[id])], waiting := [id] + s.waiting, tree := m.tree)
    case PassEnd(accepts) =>
      && |accepts| == |s.batch| && Committed(s.reqs, m.reqs, s.batch, accepts, |s.batch|)
      && m == View(m.reqs, s.waiting, StillRunning(m.reqs, s.running), [], m.tree, s.leak)
      && (|s.batch| == 1 ==> EntryTree(caches, s.reqs, m.reqs, s.batch[0], s.tree, m.tree, plays, now))
    case WriteBack => m == s
    case Routed(id) => m == s
  }

  // ---- who is preempted first ----

  /** The youngest running request decodes, and comes after position i. */
  ghost predicate LastDecodes(s: View, i: nat) {
    i < |s.running| - 1 && s.running[|s.running| - 1] < |s.reqs| && s.reqs[s.running[|s.running| - 1]].st.Decode?
  }

  /** Room for `need` tokens was sought; where there was none, the youngest of the decoding requests was preempted
      first, and if its own segment was split, tokens leaked. */
  ghost predicate YoungestFirst(plays: seq<Play>, room: int, s: View, i: nat, need: int, leak: int) {
    LastDecodes(s, i) ==> exists d, ok :: SoughtFor(plays, room, s, need, d, ok) && (ok || Leaked(s, d, leak))
  }

  /** Preempting the youngest in tree d leaked tokens, if its own segment was split there. */
  ghost predicate Leaked(s: View, d: Tree, leak: int)
    requires LastDecodes(s, 0)
  {
    WholeOwn(s.reqs[s.running[|s.running| - 1]], d) || leak > s.leak
  }

  ghost predicate SoughtFor(plays: seq<Play>, room: int, s: View, need: int, d: Tree, ok: bool) {
    RoomSought(s.tree, d, plays, OffTreeSum(s.reqs) - s.leak, need, room, ok)
  }

  lemma YoungestIs(plays: seq<Play>, room: int, s: View, i: nat, need: int, leak: int, d: Tree, ok: bool)
    requires SoughtFor(plays, room, s, need, d, ok)
    requires LastDecodes(s, i) && !ok && !WholeOwn(s.reqs[s.running[|s.running| - 1]], d) ==> leak > s.leak
    ensures YoungestFirst(plays, room, s, i, need, leak)
  {
    hide SoughtFor, WholeOwn;
  }

  lemma LastAt(s: View, i: nat, j: nat)
    requires LastDecodes(s, i) && j < |s.running| && NoDecodeAfter(s.reqs, s.running, j)
    ensures j == |s.running| - 1 > i
  {
    LastIs(s.reqs, s.running, i, j);
  }

  lemma YoungestGrows(plays: seq<Play>, room: int, s: View, i: nat, need: int, leak: int, leak1: int)
    requires YoungestFirst(plays, room, s, i, need, leak) && leak <= leak1
    ensures YoungestFirst(plays, room, s, i, need, leak1)
  {
    hide SoughtFor, WholeOwn;
  }

  /** The first running request decodes, and a pass may take its step. */
  ghost predicate DecodesFirst(s: View, cfg: Config) {
    && s.running != [] && s.running[0] < |s.reqs| && s.reqs[s.running[0]].st.Decode?
    && 1 + cfg.nextn <= cfg.maxTokens && cfg.maxSeqs > 0
  }

  /** A pass that prefills before it decodes gave the head of the queue its turn, and where that left the batch empty,
      the running requests theirs. */
  ghost predicate Formed(cfg: Config, plays: seq<Play>, limit: real, room: int, s: View, u: View, now: real) {
    exists mid :: FormedBy(cfg, plays, limit, room, s, mid, u, now)
  }

  ghost predicate FormedBy(cfg: Config, plays: seq<Play>, limit: real, room: int, s: View, mid: View, u: View,
                           now: real) {
    && Turn(cfg, plays, limit, room, s, mid, cfg.maxTokens, now)
    && (mid.batch != [] ==> u == mid)
    && (mid.batch == [] && DecodesFirst(mid, cfg) ==> YoungestFirst(plays, room, mid, 0, 1 + cfg.nextn, u.leak))
  }

  lemma FormedIs(cfg: Config, plays: seq<Play>, limit: real, room: int, s: View, mid: View, u: View, now: real)
    requires FormedBy(cfg, plays, limit, room, s, mid, u, now)
    ensures Formed(cfg, plays, limit, room, s, u, now)
  {
  }

  lemma FormedGrows(cfg: Config, plays: seq<Play>, limit: real, room: int, s: View, u: View, u1: View, now: real)
    requires Formed(cfg, plays, limit, room, s, u, now) && u.batch == [] && u.leak <= u1.leak
    ensures Formed(cfg, plays, limit, room, s, u1, now)
  {
    hide Turn, YoungestFirst;
    var mid :| FormedBy(cfg, plays, limit, room, s, mid, u, now);
    if mid.batch == [] && DecodesFirst(mid, cfg) { YoungestGrows(plays, room, mid, 0, 1 + cfg.nextn, u.leak, u1.leak); }
    assert FormedBy(cfg, plays, limit, room, s, mid, u1, now);
  }

  // ---- order of service ----

  function Ids(b: seq<Entry>): seq<nat> {
    if b == [] then [] else Ids(b[..|b| - 1]) + [b[|b| - 1].req]
  }

  lemma WithinEmpty(b: seq<Entry>, running: seq<nat>)
    ensures Within(Ids(b[|b|..]), running[..0])
  {
  }

  lemma WithinBoth(b: seq<Entry>, d: seq<Entry>, n: nat, running: seq<nat>, i: nat, e: Entry)
    requires n <= |b| && i < |running| && Within(Ids(b[n..]), running[..i]) && d == b + [e] && e.req == running[i]
    ensures Within(Ids(d[n..]), running[..i + 1])
  {
    var s, t := d[n..], running[..i + 1];
    assert s[..|s| - 1] == b[n..] && s[|s| - 1] == e;
    assert t[..i] == running[..i] && t[i] == running[i];
    assert Ids(s) == Ids(b[n..]) + [running[i]];
    assert Ids(s)[..|Ids(s)| - 1] == Ids(b[n..]);
  }

  // ---- places in line ----

  ghost function Decoders(reqs: seq<Req>): set<nat> {
    set i: nat | i < |reqs| && reqs[i].st.Decode?
  }

  /** Planning from s to u kept those who run and wait in line: only decoding requests, and not the first of them, may
      have fallen behind, and only behind requests that still prefill or wait. */
  ghost predicate KeptInTurn(s: View, u: View) {
    InTurn(s.running + s.waiting, u.running + u.waiting, Decoders(s.reqs), Late(s.running, Decoders(s.reqs)))
  }

  /** The oldest running request is still the first to run, unless it went to load or cannot fit at all. */
  ghost predicate OldestStays(s: View, u: View, room: int) {
    s.running != [] && s.running[0] < |s.reqs| == |u.reqs| ==>
      (u.running != [] && u.running[0] == s.running[0]) || u.reqs[s.running[0]].st.Loading? ||
      s.reqs[s.running[0]].isl + s.reqs[s.running[0]].osl - 1 > room
  }

  ghost predicate StillDecode(reqs0: seq<Req>, reqs: seq<Req>, running: seq<nat>) {
    |reqs| == |reqs0| && forall x :: x in running && x < |reqs| ==> (reqs[x].st.Decode? <==> reqs0[x].st.Decode?)
  }

  /** `decoders` are the running requests that decode, `late` all of them but the first. */
  ghost predicate Lined(reqs: seq<Req>, running: seq<nat>, decoders: set<nat>, late: set<nat>) {
    && (forall x :: x in running ==> x < |reqs| && (x in decoders <==> reqs[x].st.Decode?))
    && LateAre(running, decoders, late)
  }

  lemma LinedStart(reqs: seq<Req>, waiting: seq<nat>, running: seq<nat>, loading: set<nat>)
    requires Queues(reqs, waiting, running, loading, {})
    ensures Lined(reqs, running, Decoders(reqs), Late(running, Decoders(reqs)))
  {
  }

  lemma LinedStays(reqs0: seq<Req>, reqs: seq<Req>, running: seq<nat>, decoders: set<nat>, late: set<nat>)
    requires Lined(reqs0, running, decoders, late) && StillDecode(reqs0, reqs, running)
    ensures Lined(reqs, running, decoders, late)
  {
  }

  lemma OneLess(reqs: seq<Req>, waiting: seq<nat>, running: seq<nat>, loading: set<nat>, j: nat, r: Req,
                decoders: set<nat>, late: set<nat>)
    requires Queues(reqs, waiting, running, loading, {}) && j < |running| && Lined(reqs, running, decoders, late)
    requires running[j] < |reqs|
    ensures Lined(reqs[running[j] := r], running[..j] + running[j + 1..], decoders, late)
  {
    var s := running[..j] + running[j + 1..];
    forall x | x in s
      ensures x in running && x != running[j]
    {
      var k :| 0 <= k < |s| && s[k] == x;
      assert x == running[if k < j then k else k + 1];
    }
    forall i, k | 0 <= i < k < |s| && s[i] in decoders && s[k] in decoders
      ensures s[k] in late
    {
      assert s[i] == running[if i < j then i else i + 1] && s[k] == running[if k < j then k else k + 1];
    }
  }

  /** Who gives up its place for a decode step falls behind those that prefill, and behind no one else. */
  lemma GaveUp(reqs: seq<Req>, waiting: seq<nat>, running: seq<nat>, loading: set<nat>, i: nat, j: nat, r: Req,
               decoders: set<nat>, late: set<nat>)
    requires Queues(reqs, waiting, running, loading, {}) && i < j < |running| && Lined(reqs, running, decoders, late)
    requires running[i] < |reqs| && reqs[running[i]].st.Decode? && running[j] < |reqs| && reqs[running[j]].st.Decode?
    requires NoDecodeAfter(reqs, running, j)
    ensures Lined(reqs[running[j] := r], running[..j] + running[j + 1..], decoders, late)
    ensures InTurn(running + waiting, (running[..j] + running[j + 1..]) + ([running[j]] + waiting), decoders, late)
  {
    hide Queues, InTurn;
    assert running[i] in running && running[j] in running;
    OneLess(reqs, waiting, running, loading, j, r, decoders, late);
    forall k | j < k < |running|
      ensures running[k] !in decoders
    {
      assert running[k] in running;
    }
    FallsBack(running, waiting, j, decoders, late);
  }

  lemma LineDistinct(reqs: seq<Req>, waiting: seq<nat>, running: seq<nat>, loading: set<nat>)
    requires Queues(reqs, waiting, running, loading, {})
    ensures Distinct(running + waiting)
  {
    var line := running + waiting;
    forall j, k | 0 <= j < k < |line|
      ensures line[j] != line[k]
    {
      if j < |running| <= k { assert line[j] in running && line[k] in waiting; }
    }
  }

  /** Who was the first to run is so still, or is no longer in line. */
  lemma OldestKept(s: View, u: View, waiting: seq<nat>, loading: set<nat>, loading0: set<nat>, room: int)
    requires Queues(s.reqs, s.waiting, s.running, loading0, {}) && Queues(u.reqs, u.waiting, u.running, loading, {})
    requires KeptInTurn(s, u) && Planned(s.reqs, u.reqs, room) && u.running != []
    ensures OldestStays(s, u, room)
  {
    hide InTurn;
    if s.running != [] {
      var o, line := s.running[0], u.running + u.waiting;
      LineDistinct(s.reqs, s.waiting, s.running, loading0);
      LineDistinct(u.reqs, u.waiting, u.running, loading);
      if o in line {
        FirstNotLate(s.running, Decoders(s.reqs));
        FirstStays(s.running + s.waiting, line, Decoders(s.reqs), Late(s.running, Decoders(s.reqs)));
      }
    }
  }

  lemma BatchRunning(reqs: seq<Req>, b: seq<Entry>, c: Tree, plays: seq<Play>, caches: bool, nextn: nat,
                     waiting: seq<nat>, running: seq<nat>, loading: set<nat>)
    requires Inv(c, plays) && World(reqs, b, c, plays, caches, nextn)
    requires Queues(reqs, waiting, running, loading, {}) && b != []
    ensures running != []
  {
    BatchRuns(reqs, b, nextn, waiting, running, loading);
    assert BatchedIn(reqs, running, b[0]);
  }

  lemma HeadWaits(reqs: seq<Req>, waiting: seq<nat>, running: seq<nat>, loading: set<nat>)
    requires Queues(reqs, waiting, running, loading, {}) && waiting != []
    ensures waiting[0] !in running
  {
  }

  lemma FirstNotLate(running: seq<nat>, decoders: set<nat>)
    requires Distinct(running) && running != []
    ensures running[0] !in Late(running, decoders)
  {
  }

  lemma StillDecodeTrans(reqs0: seq<Req>, reqs1: seq<Req>, reqs: seq<Req>, running: seq<nat>)
    requires StillDecode(reqs0, reqs1, running) && StillDecode(reqs1, reqs, running)
    ensures StillDecode(reqs0, reqs, running)
  {
  }

  // ---- room, and who found none ----

  /** Even with all evicted that may be, the device tier cannot take `need` more tokens. */
  ghost predicate NoPlaceFor(plays: seq<Play>, room: int, v: View, need: int) {
    Shape(v.tree) && !CanFree(v.tree, plays, 0, OffTreeSum(v.reqs) - v.leak, need, room)
  }

  ghost function UsedOf(plays: seq<Play>, v: View): int {
    TierTok(v.tree, plays, 0) + OffTreeSum(v.reqs) - v.leak
  }

  lemma UsedIs(used: seq<int>, v: View, plays: seq<Play>)
    requires Booked(used, v.tree, plays, OffTreeSum(v.reqs) - v.leak) && used != []
    ensures used[0] == UsedOf(plays, v)
  {
  }

  lemma NoPlaceStays(plays: seq<Play>, room: int, v: View, w: View, need: int)
    requires NoPlaceFor(plays, room, v, need) && Inv(v.tree, plays) && Inv(w.tree, plays) && Sheds(v.tree, w.tree, 0)
    requires OffTreeSum(w.reqs) - w.leak >= OffTreeSum(v.reqs) - v.leak
    ensures NoPlaceFor(plays, room, w, need)
  {
    ShedsLocked(v.tree, w.tree, plays, 0);
  }

  lemma RoomRefused(plays: seq<Play>, room: int, v: View, d: Tree, need: int)
    requires RoomSought(v.tree, d, plays, OffTreeSum(v.reqs) - v.leak, need, room, false)
    ensures NoPlaceFor(plays, room, v, need)
  {
  }

  // ---- one attempt at a batch ----

  /** The tokens a request with `left` to prefill would be given, alone in a pass with this budget left. */
  function ChunkSize(cfg: Config, left: int, budget: int): int {
    if !cfg.chunked then left
    else if left <= budget && left <= cfg.chunkTokens then left
    else if budget <= cfg.chunkTokens then budget
    else cfg.chunkTokens
  }

  /** Entries of b from n on are prefills, each of the size the budget left at its place allows. */
  ghost predicate ChunksFrom(cfg: Config, reqs: seq<Req>, b: seq<Entry>, n: nat) {
    forall k :: n <= k < |b| ==> ChunkAt(cfg, reqs, b, k)
  }

  ghost predicate ChunkAt(cfg: Config, reqs: seq<Req>, b: seq<Entry>, k: nat)
    requires k < |b|
  {
    && b[k].prefill && b[k].req < |reqs|
    && b[k].tokens == ChunkSize(cfg, reqs[b[k].req].prefillLeft, cfg.maxTokens - BatchTokens(b[..k]))
  }

  ghost predicate Prefills(s: View, i: nat) {
    i < |s.running| && s.running[i] < |s.reqs| && s.reqs[s.running[i]].st.Prefill?
  }

  /** The running request at position i got its next chunk, or the pass is full, or its chunk has to wait for a pass of
      its own, or it finds no room. */
  ghost predicate Continues(cfg: Config, plays: seq<Play>, room: int, s: View, u: View, i: nat)
    requires Prefills(s, i)
  {
    var left, budget := s.reqs[s.running[i]].prefillLeft, cfg.maxTokens - BatchTokens(u.batch);
    || Served(u.batch, s.running[i]) || budget <= 0 || |u.batch| >= cfg.maxSeqs || (!cfg.chunked && left > budget)
    || exists b :: budget <= b <= cfg.maxTokens - BatchTokens(s.batch) &&
         NoPlaceFor(plays, room, u, ChunkSize(cfg, left, b))
  }

  /** From s to u, the requests that were prefilling went on, in order. */
  ghost predicate Continued(cfg: Config, plays: seq<Play>, room: int, s: View, u: View) {
    ContinuedTo(cfg, plays, room, s, u, |s.running|)
  }

  /** So far the first n running requests were looked at. */
  ghost predicate ContinuedTo(cfg: Config, plays: seq<Play>, room: int, s: View, u: View, n: nat) {
    && u.running == s.running && u.waiting == s.waiting && u.leak == s.leak && OnlyCharged(s.reqs, u.reqs)
    && n <= |s.running| && Extends(s.batch, u.batch) && Within(Ids(u.batch[|s.batch|..]), u.running[..n])
    && ChunksFrom(cfg, u.reqs, u.batch, |s.batch|) && BatchTokens(s.batch) <= BatchTokens(u.batch)
    && forall i: nat :: i < n && Prefills(s, i) ==> Continues(cfg, plays, room, s, u, i)
  }

  ghost predicate OnlyCharged(reqs0: seq<Req>, reqs: seq<Req>) {
    |reqs| == |reqs0| && forall i {:trigger reqs[i]} {:trigger reqs0[i]} :: 0 <= i < |reqs| ==>
      reqs[i] == reqs0[i].(alloc := reqs[i].alloc)
  }

  /** From s to u, waiting requests were admitted in order, until nobody waited, the pass was full, the next found no
      room, or the last one needs a pass of its own. */
  ghost predicate Admitted(cfg: Config, plays: seq<Play>, limit: real, room: int, s: View, u: View) {
    && FirstServed(s.waiting, u.waiting, s.running, u.running) && u.leak == s.leak && Extends(s.batch, u.batch)
    && ChunksFrom(cfg, u.reqs, u.batch, |s.batch|)
    && var budget := cfg.maxTokens - BatchTokens(u.batch);
       (u.waiting == [] || budget <= 0 || |u.batch| >= cfg.maxSeqs || HeadStays(cfg, plays, limit, room, u, budget) ||
        LastStays(cfg, u, budget))
  }

  ghost predicate PrefillsTaken(cfg: Config, plays: seq<Play>, limit: real, room: int, s: View, u: View) {
    exists m :: Continued(cfg, plays, room, s, m) && Admitted(cfg, plays, limit, room, m, u)
  }

  /** The head of the queue was looked up and refused. */
  ghost predicate HeadStays(cfg: Config, plays: seq<Play>, limit: real, room: int, v: View, budget: int) {
    v.waiting != [] && NoRoomIn(cfg, plays, limit, room, v, v.waiting[0],
      if cfg.chunkTokens < budget then cfg.chunkTokens else budget, cfg.chunked)
  }

  /** The request admitted last has to be taken whole, and the pass has no budget left for it. */
  ghost predicate LastStays(cfg: Config, v: View, budget: int) {
    v.batch != [] && v.running != [] && v.running[|v.running| - 1] < |v.reqs| &&
    !cfg.chunked && v.reqs[v.running[|v.running| - 1]].prefillLeft > budget
  }

  /** Request id was looked up, and what its hit needs does not fit: the load, where the hit lies lower, and else the
      first chunk on top of it. */
  ghost predicate NoRoomIn(cfg: Config, plays: seq<Play>, limit: real, room: int, v: View, id: nat, firstChunk: int,
                           limited: bool) {
    exists c, look, now :: NoRoomAt(cfg, plays, limit, room, v, id, firstChunk, limited, c, look, now)
  }

  ghost predicate NoRoomAt(cfg: Config, plays: seq<Play>, limit: real, room: int, v: View, id: nat, firstChunk: int,
                           limited: bool, c: Tree, look: Look, now: real)
  {
    && id < |v.reqs| && Inv(c, plays) && Fits(v.reqs[id], plays) && Sought(c, look, plays, v.reqs[id], now, limit)
    && if look.hit.lower then Sheds(look.at, v.tree, 0) && LoadLeftOut(plays, room, v, look.hit.node)
       else ChunkLeftOut(cfg, plays, room, v, v.reqs[id],
         FirstOf(v.reqs[id], look.hit.blocks, plays, firstChunk, limited), look, now)
  }

  /** The first chunk does not fit, once the hit was pinned and all that could go was evicted. */
  ghost predicate ChunkLeftOut(cfg: Config, plays: seq<Play>, room: int, v: View, r: Req, chunk: int, look: Look,
                               now: real) {
    && UsedOf(plays, v) + chunk > room
    && (if cfg.caches then Tried(look, plays, r.play, now, OffTreeSum(v.reqs) - v.leak, chunk, room, false, v.tree)
        else look.hit == Hit(-1, 0, 0, false))
  }

  /** The tokens of segment n's path below the device tier do not fit in it. */
  ghost predicate LoadLeftOut(plays: seq<Play>, room: int, v: View, n: int) {
    && Shape(v.tree) && n in v.tree && v.tree[n].tier > 0
    && UsedOf(plays, v) + SumTok(v.tree, plays, LowerPart(v.tree, Path(v.tree, n))) > room
  }

  /** The last request to be preempted on the way to u left when there was no place for the decode step it made way
      for. */
  ghost predicate MadeWay(plays: seq<Play>, room: int, need: int, s: View, u: View) {
    (u.running == s.running && u.waiting == s.waiting) || exists v, j :: LastVictim(plays, room, need, v, j, u)
  }

  ghost predicate LastVictim(plays: seq<Play>, room: int, need: int, v: View, j: nat, u: View) {
    && j < |v.running| && v.running[j] < |v.reqs| && v.reqs[v.running[j]].st.Decode?
    && u.running == v.running[..j] + v.running[j + 1..] && u.waiting == [v.running[j]] + v.waiting
    && NoPlaceFor(plays, room, v, need)
  }

  /** From s to u, decoding requests took their steps in order, until the caps or the memory ended. */
  ghost predicate DecodesTaken(cfg: Config, plays: seq<Play>, room: int, s: View, u: View) {
    var need := 1 + cfg.nextn;
    && AllDecode(u.batch) && Within(Ids(u.batch), u.running) && (forall x :: x in u.running ==> x in s.running)
    && (DecodesServed(u.reqs, u.batch, u.running, |u.running|) || cfg.maxTokens - BatchTokens(u.batch) < need ||
        |u.batch| >= cfg.maxSeqs || NoPlaceFor(plays, room, u, need))
    && MadeWay(plays, room, need, s, u)
  }

  ghost predicate AnyDecodes(s: View) {
    exists j :: 0 <= j < |s.running| && s.running[j] < |s.reqs| && s.reqs[s.running[j]].st.Decode?
  }

  /** Of `interval` passes with somebody decoding, one offers the prefills their turn first. */
  ghost predicate Alternates(cfg: Config, s: View) {
    cfg.prefillInterval > 1 && AnyDecodes(s)
  }

  /** One attempt at a batch, in the order the scheduling mode asks for; `since` passes lie behind the last turn of the
      prefills. */
  ghost predicate Attempted(cfg: Config, plays: seq<Play>, limit: real, room: int, s: View, u: View, since: int) {
    exists m :: AttemptedBy(cfg, plays, limit, room, s, m, u, since)
  }

  ghost predicate AttemptedBy(cfg: Config, plays: seq<Play>, limit: real, room: int, s: View, m: View, u: View,
                              since: int) {
    if Alternates(cfg, s) then
      && (if since + 1 >= cfg.prefillInterval then PrefillsTaken(cfg, plays, limit, room, s, m)
          else DecodesTaken(cfg, plays, room, s, m))
      && (if m.batch == [] then DecodesTaken(cfg, plays, room, m, u) else u == m)
    else if cfg.mixed then
      DecodesTaken(cfg, plays, room, s, m) && PrefillsTaken(cfg, plays, limit, room, m, u)
    else
      && PrefillsTaken(cfg, plays, limit, room, s, m)
      && (if m.batch == [] then DecodesTaken(cfg, plays, room, m, u) else u == m)
  }

  /** How many passes lie behind the last turn of the prefills, after one with batch b. */
  ghost function NextSince(cfg: Config, s: View, b: seq<Entry>, since: int): int {
    if b == [] then since
    else if Alternates(cfg, s) && since + 1 >= cfg.prefillInterval && b[0].prefill then 0
    else since + 1
  }

  // ---- the whole pass ----

  ghost predicate NoneLoads(reqs: seq<Req>) {
    forall i :: 0 <= i < |reqs| ==> !reqs[i].st.Loading?
  }

  /** The youngest running request was preempted, and waits in front. */
  ghost predicate SteppedBack(plays: seq<Play>, s: View, u: View) {
    && s.running != [] && s.running[|s.running| - 1] < |s.reqs|
    && var id := s.running[|s.running| - 1];
       u.reqs == s.reqs[id := Preempted(s.reqs[id])] && u.running == s.running[..|s.running| - 1] &&
       u.waiting == [id] + s.waiting && u.batch == [] && u.leak == s.leak + SplitOff(s.reqs[id], s.tree, plays)
  }

  /** n attempts gave an empty batch although requests ran and no load was under way, and each time the youngest was
      preempted. */
  ghost predicate Retried(cfg: Config, plays: seq<Play>, limit: real, room: int, s: View, u: View, since: int, n: nat)
    decreases n
  {
    if n == 0 then u == s
    else exists v, w ::
      Retried(cfg, plays, limit, room, s, v, since, n - 1) && FailedAt(cfg, plays, limit, room, v, w, u, since)
  }

  ghost predicate FailedAt(cfg: Config, plays: seq<Play>, limit: real, room: int, v: View, w: View, u: View,
                           since: int) {
    && Attempted(cfg, plays, limit, room, v, w, since) && w.batch == [] && w.running != [] && NoneLoads(w.reqs)
    && SteppedBack(plays, w, u)
  }

  /** Forming a batch: attempts until one gives a batch, nobody runs, or a load is under way. */
  ghost predicate Passed(cfg: Config, plays: seq<Play>, limit: real, room: int, s: View, u: View, since: int) {
    && (u.batch != [] || u.running == [] || !NoneLoads(u.reqs))
    && exists m, n ::
      Retried(cfg, plays, limit, room, s, m, since, n) && Attempted(cfg, plays, limit, room, m, u, since)
  }

  lemma AttemptIs(cfg: Config, plays: seq<Play>, limit: real, room: int, s: View, m: View, u: View, since: int)
    requires AttemptedBy(cfg, plays, limit, room, s, m, u, since)
    ensures Attempted(cfg, plays, limit, room, s, u, since)
  {
    hide AttemptedBy;
  }

  lemma RetriedNone(cfg: Config, plays: seq<Play>, limit: real, room: int, s: View, since: int)
    ensures Retried(cfg, plays, limit, room, s, s, since, 0)
  {
  }

  lemma FailedIs(cfg: Config, plays: seq<Play>, limit: real, room: int, v: View, w: View, u: View, since: int)
    requires Attempted(cfg, plays, limit, room, v, w, since) && w.batch == [] && w.running != [] && NoneLoads(w.reqs)
    requires SteppedBack(plays, w, u)
    ensures FailedAt(cfg, plays, limit, room, v, w, u, since)
  {
  }

  lemma LoadsAre(reqs: seq<Req>, waiting: seq<nat>, running: seq<nat>, loading: set<nat>)
    requires Queues(reqs, waiting, running, loading, {})
    ensures NoneLoads(reqs) <==> |loading| == 0
  {
    if loading != {} {
      var i :| i in loading;
      assert reqs[i].st.Loading?;
    }
  }

  lemma RetriedMore(cfg: Config, plays: seq<Play>, limit: real, room: int, s: View, v: View, w: View, u: View,
                    since: int, n: nat)
    requires Retried(cfg, plays, limit, room, s, v, since, n) && FailedAt(cfg, plays, limit, room, v, w, u, since)
    ensures Retried(cfg, plays, limit, room, s, u, since, n + 1)
  {
    hide FailedAt;
  }

  lemma PassedIs(cfg: Config, plays: seq<Play>, limit: real, room: int, s: View, m: View, u: View, since: int, n: nat)
    requires Retried(cfg, plays, limit, room, s, m, since, n) && Attempted(cfg, plays, limit, room, m, u, since)
    requires u.batch != [] || u.running == [] || !NoneLoads(u.reqs)
    ensures Passed(cfg, plays, limit, room, s, u, since)
  {
    hide Retried, Attempted, NoneLoads;
  }

  // ---- how an attempt goes on ----

  lemma MadeWayNone(plays: seq<Play>, room: int, need: int, s: View, u: View)
    requires u.running == s.running && u.waiting == s.waiting
    ensures MadeWay(plays, room, need, s, u)
  {
  }

  lemma MadeWayMore(plays: seq<Play>, room: int, need: int, s: View, v: View, u: View)
    requires MadeWay(plays, room, need, s, v) && MadeWay(plays, room, need, v, u)
    ensures MadeWay(plays, room, need, s, u)
  {
    hide LastVictim;
    if u.running == v.running && u.waiting == v.waiting && !(u.running == s.running && u.waiting == s.waiting) {
      var w, j :| LastVictim(plays, room, need, w, j, v);
      VictimSame(plays, room, need, w, j, v, u);
    }
  }

  lemma VictimSame(plays: seq<Play>, room: int, need: int, w: View, j: nat, v: View, u: View)
    requires LastVictim(plays, room, need, w, j, v) && u.running == v.running && u.waiting == v.waiting
    ensures LastVictim(plays, room, need, w, j, u)
  {
  }

  lemma VictimIs(plays: seq<Play>, room: int, need: int, s: View, v: View, j: nat, u: View)
    requires LastVictim(plays, room, need, v, j, u)
    ensures MadeWay(plays, room, need, s, u)
  {
  }

  lemma VictimLeaves(plays: seq<Play>, room: int, need: int, s: View, v: View, j: nat, u: View)
    requires j < |v.running| && v.running[j] < |v.reqs| && v.reqs[v.running[j]].st.Decode?
    requires u.running == v.running[..j] + v.running[j + 1..] && u.waiting == [v.running[j]] + v.waiting
    requires NoPlaceFor(plays, room, v, need) && forall x :: x in v.running ==> x in s.running
    ensures MadeWay(plays, room, need, s, u) && |u.running| == |v.running| - 1
    ensures forall x :: x in u.running ==> x in s.running
  {
    hide NoPlaceFor;
    VictimIs(plays, room, need, s, v, j, u);
  }

  lemma ChunksNone(cfg: Config, reqs: seq<Req>, b: seq<Entry>)
    ensures ChunksFrom(cfg, reqs, b, |b|)
  {
  }

  /** Nobody in the batch is touched. */
  ghost predicate SameLeft(reqs0: seq<Req>, reqs: seq<Req>, b: seq<Entry>) {
    |reqs| == |reqs0| && forall e :: e in b && e.req < |reqs| ==> reqs[e.req].prefillLeft == reqs0[e.req].prefillLeft
  }

  lemma ChunksMore(cfg: Config, reqs0: seq<Req>, reqs: seq<Req>, b: seq<Entry>, n: nat, e: Entry)
    requires ChunksFrom(cfg, reqs0, b, n) && SameLeft(reqs0, reqs, b) && n <= |b|
    requires e.prefill && e.req < |reqs|
    requires e.tokens == ChunkSize(cfg, reqs[e.req].prefillLeft, cfg.maxTokens - BatchTokens(b))
    ensures ChunksFrom(cfg, reqs, b + [e], n)
  {
    var d := b + [e];
    assert d[..|b|] == b;
    forall k | n <= k < |d|
      ensures ChunkAt(cfg, reqs, d, k)
    {
      if k < |b| {
        assert ChunkAt(cfg, reqs0, b, k) && d[..k] == b[..k] && b[k] in b;
      }
    }
  }

  lemma ChunksKept(cfg: Config, reqs0: seq<Req>, reqs: seq<Req>, b: seq<Entry>, n: nat)
    requires ChunksFrom(cfg, reqs0, b, n) && SameLeft(reqs0, reqs, b)
    ensures ChunksFrom(cfg, reqs, b, n)
  {
    forall k | n <= k < |b|
      ensures ChunkAt(cfg, reqs, b, k)
    {
      assert ChunkAt(cfg, reqs0, b, k) && b[k] in b;
    }
  }

  /** What was said of the request at position i holds on as the batch grows and room is made. */
  lemma ContinuesStays(cfg: Config, plays: seq<Play>, room: int, s: View, v: View, w: View, i: nat)
    requires Prefills(s, i) && Continues(cfg, plays, room, s, v, i)
    requires Extends(v.batch, w.batch) && BatchTokens(v.batch) <= BatchTokens(w.batch)
    requires Inv(v.tree, plays) && Inv(w.tree, plays) && Sheds(v.tree, w.tree, 0)
    requires OffTreeSum(w.reqs) - w.leak >= OffTreeSum(v.reqs) - v.leak
    ensures Continues(cfg, plays, room, s, w, i)
  {
    hide Inv, Sheds, NoPlaceFor, OffTreeSum, BatchTokens, ChunkSize;
    var left, budget := s.reqs[s.running[i]].prefillLeft, cfg.maxTokens - BatchTokens(v.batch);
    if Served(v.batch, s.running[i]) {
      assert Served(w.batch, s.running[i]);
    } else if budget > 0 && |v.batch| < cfg.maxSeqs && !(!cfg.chunked && left > budget) {
      var b :| budget <= b <= cfg.maxTokens - BatchTokens(s.batch) &&
        NoPlaceFor(plays, room, v, ChunkSize(cfg, left, b));
      NoPlaceStays(plays, room, v, w, ChunkSize(cfg, left, b));
    }
  }

  /** What looking at the request at position i does, from v to w. */
  ghost predicate ChunkStep(cfg: Config, plays: seq<Play>, room: int, v: View, w: View, n: nat, i: nat) {
    && w.running == v.running && w.waiting == v.waiting && w.leak == v.leak && OnlyCharged(v.reqs, w.reqs)
    && Extends(v.batch, w.batch) && BatchTokens(v.batch) <= BatchTokens(w.batch)
    && n <= |v.batch| && i < |v.running| && Within(Ids(w.batch[n..]), w.running[..i + 1])
    && ChunksFrom(cfg, w.reqs, w.batch, n)
    && Inv(v.tree, plays) && Inv(w.tree, plays) && Sheds(v.tree, w.tree, 0) && OffTreeSum(w.reqs) >= OffTreeSum(v.reqs)
  }

  /** How the request at position i, which prefills, fared. */
  ghost predicate ChunkTaken(cfg: Config, plays: seq<Play>, room: int, v: View, w: View, i: nat)
    requires Prefills(v, i)
  {
    var left, budget := v.reqs[v.running[i]].prefillLeft, cfg.maxTokens - BatchTokens(v.batch);
    Served(w.batch, v.running[i]) || (!cfg.chunked && left > budget) ||
    NoPlaceFor(plays, room, w, ChunkSize(cfg, left, budget))
  }

  lemma ContinuedNone(cfg: Config, plays: seq<Play>, room: int, s: View)
    ensures ContinuedTo(cfg, plays, room, s, s, 0)
  {
    ChunksNone(cfg, s.reqs, s.batch);
    assert s.batch[|s.batch|..] == [];
  }

  lemma ContinuedNext(cfg: Config, plays: seq<Play>, room: int, s: View, v: View, w: View, i: nat)
    requires ContinuedTo(cfg, plays, room, s, v, i) && ChunkStep(cfg, plays, room, v, w, |s.batch|, i)
    requires Prefills(s, i) ==> Prefills(v, i) && ChunkTaken(cfg, plays, room, v, w, i)
    ensures ContinuedTo(cfg, plays, room, s, w, i + 1)
  {
    hide Inv, Sheds, NoPlaceFor, OffTreeSum, BatchTokens, ChunkSize, Within, ChunksFrom, Continues, ChunkTaken, Ids;
    forall j: nat | j < i + 1 && Prefills(s, j)
      ensures Continues(cfg, plays, room, s, w, j)
    {
      if j < i { ContinuesStays(cfg, plays, room, s, v, w, j); } else { TakenContinues(cfg, plays, room, s, v, w, i); }
    }
  }

  lemma TakenContinues(cfg: Config, plays: seq<Play>, room: int, s: View, v: View, w: View, i: nat)
    requires Prefills(s, i) && Prefills(v, i) && ChunkTaken(cfg, plays, room, v, w, i) && v.running == s.running
    requires OnlyCharged(s.reqs, v.reqs) && BatchTokens(s.batch) <= BatchTokens(v.batch) <= BatchTokens(w.batch)
    ensures Continues(cfg, plays, room, s, w, i)
  {
    hide NoPlaceFor, BatchTokens, ChunkSize, Served;
    assert v.reqs[s.running[i]].prefillLeft == s.reqs[s.running[i]].prefillLeft;
  }

  lemma ContinuedSkip(cfg: Config, plays: seq<Play>, room: int, s: View, v: View, i: nat)
    requires ContinuedTo(cfg, plays, room, s, v, i) && i < |s.running| && !Prefills(s, i)
    ensures ContinuedTo(cfg, plays, room, s, v, i + 1)
  {
    hide NoPlaceFor, BatchTokens, ChunkSize, Within, ChunksFrom, Continues, Ids;
    WithinOne(Ids(v.batch[|s.batch|..]), v.running, i);
  }

  lemma ContinuedFull(cfg: Config, plays: seq<Play>, room: int, s: View, v: View, i: nat)
    requires ContinuedTo(cfg, plays, room, s, v, i)
    requires cfg.maxTokens - BatchTokens(v.batch) <= 0 || |v.batch| >= cfg.maxSeqs || i == |s.running|
    ensures Continued(cfg, plays, room, s, v)
  {
    hide NoPlaceFor, BatchTokens, ChunkSize, Within, ChunksFrom, Ids;
    WithinAll(Ids(v.batch[|s.batch|..]), v.running, i);
    assert v.running[..|v.running|] == v.running;
  }

  lemma OnlyChargedTrans(reqs0: seq<Req>, reqs1: seq<Req>, reqs: seq<Req>)
    requires OnlyCharged(reqs0, reqs1) && OnlyCharged(reqs1, reqs)
    ensures OnlyCharged(reqs0, reqs)
  {
  }

  lemma ContinuedChunks(cfg: Config, plays: seq<Play>, room: int, s: View, u: View, n: nat)
    requires ContinuedTo(cfg, plays, room, s, u, n)
    ensures ChunksFrom(cfg, u.reqs, u.batch, |s.batch|) && |s.batch| <= |u.batch|
  {
  }

  lemma SkipsOn(cfg: Config, plays: seq<Play>, room: int, s: View, v: View, i: nat)
    requires ContinuedTo(cfg, plays, room, s, v, i) && i < |s.running| && v.running[i] < |v.reqs|
    requires !v.reqs[v.running[i]].st.Prefill?
    ensures ContinuedTo(cfg, plays, room, s, v, i + 1)
  {
    hide NoPlaceFor, BatchTokens, ChunkSize, Within, ChunksFrom, Continues, Ids;
    ContinuedSkip(cfg, plays, room, s, v, i);
  }

  /** A request joins the batch with a chunk. */
  lemma ChunkJoins(cfg: Config, reqs0: seq<Req>, reqs: seq<Req>, b0: seq<Entry>, b: seq<Entry>, id: nat, chunk: int,
                   n: nat)
    requires ChunkAdded(reqs0, reqs, b0, b, id, chunk, cfg) && ChunksFrom(cfg, reqs0, b0, n) && n <= |b0|
    requires chunk == ChunkSize(cfg, reqs0[id].prefillLeft, cfg.maxTokens - BatchTokens(b0))
    ensures ChunksFrom(cfg, reqs, b, n) && OnlyCharged(reqs0, reqs) && Served(b, id)
    ensures BatchTokens(b0) <= BatchTokens(b)
  {
    hide ChunkSize, ChunksFrom;
    var e := Entry(id, chunk, true);
    ChunksMore(cfg, reqs0, reqs, b0, n, e);
    assert b[|b| - 1] == e && b[..|b| - 1] == b0;
  }

  lemma RestChunks(cfg: Config, reqs0: seq<Req>, reqs: seq<Req>, b: seq<Entry>, id: nat)
    requires |reqs| == |reqs0| && (forall i :: 0 <= i < |reqs| && i != id ==> reqs[i] == reqs0[i])
    requires forall e :: e in b ==> e.req != id
    ensures forall n: nat :: n <= |b| && ChunksFrom(cfg, reqs0, b, n) ==> ChunksFrom(cfg, reqs, b, n)
  {
    hide ChunksFrom;
    forall n: nat | n <= |b| && ChunksFrom(cfg, reqs0, b, n)
      ensures ChunksFrom(cfg, reqs, b, n)
    {
      ChunksKept(cfg, reqs0, reqs, b, n);
    }
  }

  /** The head of the queue changed, from reqs0 to v, and may have joined the batch with a chunk. */
  lemma JoinedChunks(cfg: Config, reqs0: seq<Req>, v: seq<Req>, reqs: seq<Req>, b0: seq<Entry>, b: seq<Entry>, id: nat,
                     budget0: int)
    requires |v| == |reqs0| && (forall i :: 0 <= i < |v| && i != id ==> v[i] == reqs0[i])
    requires (forall e :: e in b0 ==> e.req != id) && budget0 == cfg.maxTokens - BatchTokens(b0) && id < |v|
    requires (reqs == v && b == b0) ||
      ChunkAdded(v, reqs, b0, b, id, ChunkSize(cfg, v[id].prefillLeft, budget0), cfg)
    ensures forall n: nat :: n <= |b0| && ChunksFrom(cfg, reqs0, b0, n) ==> ChunksFrom(cfg, reqs, b, n)
  {
    hide ChunksFrom, ChunkSize, ChunkAdded, BatchTokens;
    RestChunks(cfg, reqs0, v, b0, id);
    forall n: nat | n <= |b0| && ChunksFrom(cfg, reqs0, b0, n)
      ensures ChunksFrom(cfg, reqs, b, n)
    {
      if !(reqs == v && b == b0) {
        ChunkJoins(cfg, v, reqs, b0, b, id, ChunkSize(cfg, v[id].prefillLeft, budget0), n);
      }
    }
  }

  /** Who still runs after a pass is those of before that are not done, in the same order. */
  lemma {:induction false} StillInOrder(reqs: seq<Req>, running: seq<nat>)
    ensures Within(StillRunning(reqs, running), running)
    ensures forall i :: i in StillRunning(reqs, running) <==> i in running && i < |reqs| && Active(reqs[i])
    decreases |running|
  {
    StillIn(reqs, running);
    if running != [] {
      var n := |running| - 1;
      StillInOrder(reqs, running[..n]);
      var s, kept := StillRunning(reqs, running), StillRunning(reqs, running[..n]);
      assert s == kept || (s == kept + [running[n]] && s[..|kept|] == kept);
    }
  }
}
