/** The requests of one rank: their ledgers, the pins they hold and the tokens they are charged for. */
module Requests {
  import opened Commons

  import opened KvTree
  import opened KvHolds

  datatype RState = Pending | Queued | Loading | Prefill | Decode | Done

  datatype Req = Req(
    play: nat,
    tr: nat,
    st: RState,
    hitNode: int,
    ownNode: int,
    hitBlocks: nat,
    hitTokens: nat,
    isl: nat,
    osl: nat,
    prefillLeft: int,
    past: int,
    generated: nat,
    alloc: int,
    loaded: bool,
    itl: nat,
    failed: bool)

  datatype Entry = Entry(req: nat, tokens: int, prefill: bool)

  /** Generated tokens whose KV a recomputed prefill has to produce again. */
  function OutputKv(r: Req): nat {
    if r.generated > 0 then r.generated - 1 else 0
  }

  predicate Active(r: Req) {
    r.st.Prefill? || r.st.Decode?
  }

  /** Prompt tokens this request added to the tree. */
  function Inserted(r: Req): int {
    if r.ownNode != -1 then r.isl - r.hitTokens else 0
  }

  /** Tokens charged to the device tier for r that its tree segments do not account for. */
  function OffTree(r: Req): int {
    if Active(r) then r.alloc - Inserted(r) else 0
  }

  function OffTreeSum(reqs: seq<Req>): int {
    if reqs == [] then 0 else OffTreeSum(reqs[..|reqs| - 1]) + OffTree(reqs[|reqs| - 1])
  }

  /** Pins requests hold on segment n. */
  function Holds(r: Req, n: int): nat {
    (if r.hitNode == n && n != -1 then 1 else 0) + (if r.ownNode == n && n != -1 then 1 else 0)
  }

  function Holders(reqs: seq<Req>, n: int): nat {
    if reqs == [] then 0 else Holders(reqs[..|reqs| - 1], n) + Holds(reqs[|reqs| - 1], n)
  }

  /** Tokens of request i in the batch being computed. */
  function Pend(b: seq<Entry>, i: nat): int {
    if b == [] then 0 else Pend(b[..|b| - 1], i) + (if b[|b| - 1].req == i then b[|b| - 1].tokens else 0)
  }

  lemma {:induction false} OffTreeUpdate(reqs: seq<Req>, i: nat, r: Req)
    requires i < |reqs|
    ensures OffTreeSum(reqs[i := r]) == OffTreeSum(reqs) - OffTree(reqs[i]) + OffTree(r)
    decreases |reqs|
  {
    var n := |reqs| - 1;
    assert reqs[i := r][..n] == if i == n then reqs[..n] else reqs[..n][i := r];
    if i < n {
      OffTreeUpdate(reqs[..n], i, r);
    }
  }

  lemma {:induction false} HoldersUpdate(reqs: seq<Req>, i: nat, r: Req, n: int)
    requires i < |reqs|
    ensures Holders(reqs[i := r], n) == Holders(reqs, n) - Holds(reqs[i], n) + Holds(r, n)
    decreases |reqs|
  {
    var m := |reqs| - 1;
    assert reqs[i := r][..m] == if i == m then reqs[..m] else reqs[..m][i := r];
    if i < m {
      HoldersUpdate(reqs[..m], i, r, n);
    }
  }

  lemma {:induction false} HoldersOne(reqs: seq<Req>, i: nat, n: int)
    requires i < |reqs|
    ensures Holders(reqs, n) >= Holds(reqs[i], n)
    decreases |reqs|
  {
    var m := |reqs| - 1;
    if i < m {
      HoldersOne(reqs[..m], i, n);
    }
  }

  lemma {:induction false} HoldersTwo(reqs: seq<Req>, i: nat, j: nat, n: int)
    requires i < j < |reqs|
    ensures Holders(reqs, n) >= Holds(reqs[i], n) + Holds(reqs[j], n)
    decreases |reqs|
  {
    var m := |reqs| - 1;
    if j == m {
      HoldersOne(reqs[..m], i, n);
    } else {
      HoldersTwo(reqs[..m], i, j, n);
    }
  }

  lemma {:induction false} PendAbsent(b: seq<Entry>, i: nat)
    requires forall e :: e in b ==> e.req != i
    ensures Pend(b, i) == 0
    decreases |b|
  {
    if b != [] {
      PendAbsent(b[..|b| - 1], i);
    }
  }

  lemma PendSnoc(b: seq<Entry>, e: Entry, i: nat)
    ensures Pend(b + [e], i) == Pend(b, i) + (if e.req == i then e.tokens else 0)
  {
  }

  // ---- what every request satisfies ----

  /** The trace promises: whole blocks, at least one of them, and at least one output token. */
  ghost predicate Fits(r: Req, plays: seq<Play>) {
    && GoodReq(plays, r.play, r.tr)
    && plays[r.play].reqs[r.tr].count > 0 && plays[r.play].blockSize > 0
    && r.isl == plays[r.play].reqs[r.tr].count * plays[r.play].blockSize
    && r.osl > 0
  }

  ghost predicate HitOk(r: Req, c: Tree, plays: seq<Play>, caches: bool)
    requires Inv(c, plays) && Fits(r, plays)
  {
    && r.hitBlocks < plays[r.play].reqs[r.tr].count
    && r.hitTokens == r.hitBlocks * plays[r.play].blockSize
    && (if caches then Grounded(c, plays, r.hitNode, r.play, r.tr, r.hitBlocks)
      else r.hitNode == -1 && r.hitBlocks == 0)
  }

  /** The segment a request inserted ends its prompt: below it nothing of the prompt is missing. */
  ghost predicate OwnOk(r: Req, c: Tree, plays: seq<Play>, caches: bool)
    requires Inv(c, plays) && Fits(r, plays)
  {
    if caches then
      && Grounded(c, plays, r.ownNode, r.play, r.tr, plays[r.play].reqs[r.tr].count)
      && c[r.ownNode].parent != -1 && c[r.ownNode].start >= r.hitBlocks
    else r.ownNode == -1
  }

  ghost predicate Idle(r: Req, pend: int) {
    && r.alloc == 0 && r.past == 0 && r.prefillLeft == r.isl + OutputKv(r) && pend == 0 && r.ownNode == -1
  }

  /** The ledger of one request in each of its states. */
  ghost predicate ReqOk(r: Req, pend: int, c: Tree, plays: seq<Play>, caches: bool)
    requires Inv(c, plays)
  {
    && Fits(r, plays)
    && r.itl == OutputKv(r)
    && (r.failed ==> r.st.Done?)
    && r.generated <= r.osl && (!r.st.Done? && !r.st.Decode? ==> r.generated < r.osl)
    && match r.st
       case Pending => Idle(r, pend) && r.hitNode == -1
       case Queued => Idle(r, pend) && r.hitNode == -1
       case Loading => Idle(r, pend) && r.hitNode in c && c[r.hitNode].tier == 0 && c[r.hitNode].play == r.play
       case Prefill =>
         && HitOk(r, c, plays, caches) && r.ownNode == -1
         && r.past + r.prefillLeft == r.isl + OutputKv(r)
         && r.alloc == r.past - r.hitTokens + pend
         && 0 <= pend <= r.prefillLeft && 0 < r.prefillLeft
         && r.past >= r.hitTokens
       case Decode =>
         && HitOk(r, c, plays, caches) && OwnOk(r, c, plays, caches)
         && r.generated > 0 && r.past == r.isl + r.generated - 1
         && r.alloc == r.past - r.hitTokens + pend && pend >= 0
       case Done =>
         && r.hitNode == -1 && r.ownNode == -1 && pend == 0
         && (if r.failed then r.alloc == 0
             else r.generated == r.osl && r.past == r.isl + r.osl - 1 && r.alloc == r.isl - r.hitTokens + r.osl - 1)
  }

  /** All requests are in order, given the batch b in flight. */
  ghost predicate ReqsOk(reqs: seq<Req>, b: seq<Entry>, c: Tree, plays: seq<Play>, caches: bool)
    requires Inv(c, plays)
  {
    forall i {:trigger reqs[i]} :: 0 <= i < |reqs| ==> ReqOk(reqs[i], Pend(b, i), c, plays, caches)
  }

  /** Pins are an exact reference count. */
  ghost predicate PinsExact(reqs: seq<Req>, c: Tree) {
    forall n :: Held(c, n) == Holders(reqs, n)
  }

  /** Each live request is in the one list its state names, with output left to produce;
      while a pass commits, those it completes still run. */
  ghost predicate Queues(reqs: seq<Req>, waiting: seq<nat>, running: seq<nat>, loading: set<nat>, done: set<nat>) {
    && (forall i :: i in waiting ==> i < |reqs| && reqs[i].st.Queued?)
    && (forall i :: i in running ==> i < |reqs| && (Unfinished(reqs[i]) || i in done))
    && (forall i :: i in running ==> Active(reqs[i]) || reqs[i].st.Done?)
    && (forall i :: i in loading ==> i < |reqs| && reqs[i].st.Loading?)
    && (forall i :: 0 <= i < |reqs| ==>
          && (reqs[i].st.Queued? ==> i in waiting)
          && (Active(reqs[i]) ==> i in running)
          && (reqs[i].st.Loading? ==> i in loading))
    && Distinct(waiting) && Distinct(running)
  }

  predicate Unfinished(r: Req) {
    Active(r) && r.generated < r.osl
  }

  /** The batch names distinct running requests, in the state the entry needs. */
  ghost predicate BatchOk(reqs: seq<Req>, b: seq<Entry>, nextn: nat) {
    && (forall j {:trigger b[j]} :: 0 <= j < |b| ==> EntryOk(reqs, b[j], nextn))
    && (forall j, k {:trigger b[j], b[k]} :: 0 <= j < k < |b| ==> b[j].req != b[k].req)
  }

  ghost predicate EntryOk(reqs: seq<Req>, e: Entry, nextn: nat) {
    && e.req < |reqs| && e.tokens > 0
    && (if e.prefill then reqs[e.req].st.Prefill? && e.tokens <= reqs[e.req].prefillLeft
        else reqs[e.req].st.Decode? && e.tokens == 1 + nextn)
  }

  // ---- frames ----

  lemma HolderPinned(reqs: seq<Req>, c: Tree, i: nat)
    requires PinsExact(reqs, c) && i < |reqs|
    ensures reqs[i].hitNode != -1 ==> reqs[i].hitNode in c && c[reqs[i].hitNode].pins > 0
    ensures reqs[i].ownNode != -1 ==> reqs[i].ownNode in c && c[reqs[i].ownNode].pins > 0
  {
    HoldersOne(reqs, i, reqs[i].hitNode);
    HoldersOne(reqs, i, reqs[i].ownNode);
  }

  lemma ReqFirm(r: Req, pend: int, c: Tree, d: Tree, plays: seq<Play>, caches: bool)
    requires Inv(c, plays) && Inv(d, plays) && ReqOk(r, pend, c, plays, caches)
    requires r.hitNode != -1 ==> r.hitNode in c && Fixed(c, d, plays, r.hitNode)
    requires r.ownNode != -1 ==> r.ownNode in c && Fixed(c, d, plays, r.ownNode)
    ensures ReqOk(r, pend, d, plays, caches)
  {
    hide Inv, Fixed, Grounded;
    if caches && Active(r) {
      GroundedLive(c, plays, r.hitNode, r.play, r.tr, r.hitBlocks);
      FirmGrounded(c, d, plays, r.hitNode, r.play, r.tr, r.hitBlocks);
      if r.st.Decode? {
        GroundedLive(c, plays, r.ownNode, r.play, r.tr, plays[r.play].reqs[r.tr].count);
        FirmGrounded(c, d, plays, r.ownNode, r.play, r.tr, plays[r.play].reqs[r.tr].count);
        FixedRoot(c, d, plays, r.ownNode);
      }
    }
    if r.st.Loading? {
      InvLive(c, plays, r.hitNode);
      FixedRoot(c, d, plays, r.hitNode);
    }
  }

  lemma InvLive(c: Tree, plays: seq<Play>, i: int)
    requires Inv(c, plays) && i in c
    ensures i >= 0
  {
  }

  lemma FixedRoot(c: Tree, d: Tree, plays: seq<Play>, i: int)
    requires Inv(c, plays) && Inv(d, plays) && i in c && Fixed(c, d, plays, i)
    ensures i in d && d[i].play == c[i].play && d[i].tier <= c[i].tier && (d[i].parent == -1 <==> c[i].parent == -1)
    ensures d[i].start >= c[i].start
  {
  }

  lemma GroundedLive(c: Tree, plays: seq<Play>, i: int, play: nat, r: nat, len: nat)
    requires Inv(c, plays) && Grounded(c, plays, i, play, r, len)
    ensures i in c && c[i].play == play && i >= 0 && c[i].tier == 0 && End(c[i]) == len
    ensures c[i].parent != -1 ==> c[i].nblocks > 0
  {
  }

  /** A step of the tree that keeps pinned segments in place keeps every request in order. */
  lemma ReqsFirm(reqs: seq<Req>, b: seq<Entry>, c: Tree, d: Tree, plays: seq<Play>, caches: bool)
    requires Inv(c, plays) && Inv(d, plays) && ReqsOk(reqs, b, c, plays, caches) && PinsExact(reqs, c) &&
      Firm(c, d, plays)
    ensures ReqsOk(reqs, b, d, plays, caches)
  {
    forall i | 0 <= i < |reqs|
      ensures ReqOk(reqs[i], Pend(b, i), d, plays, caches)
    {
      hide Inv, Fixed, ReqOk, PinsExact;
      HolderPinned(reqs, c, i);
      ReqFirm(reqs[i], Pend(b, i), c, d, plays, caches);
    }
  }

  // ---- one step of one request ----

  /** No two requests own one segment, and owned segments carry no generated tokens yet. */
  ghost predicate Owns(reqs: seq<Req>, c: Tree) {
    && (forall i, j {:trigger reqs[i], reqs[j]} :: 0 <= i < j < |reqs| && reqs[i].ownNode != -1 ==>
      reqs[i].ownNode != reqs[j].ownNode)
    && (forall i {:trigger reqs[i]} :: 0 <= i < |reqs| && reqs[i].ownNode != -1 ==>
          reqs[i].ownNode in c && c[reqs[i].ownNode].tail == 0)
  }

  /** Everything the rank keeps true of its requests and its tree. */
  ghost predicate World(reqs: seq<Req>, b: seq<Entry>, c: Tree, plays: seq<Play>, caches: bool, nextn: nat)
    requires Inv(c, plays)
  {
    && ReqsOk(reqs, b, c, plays, caches)
    && PinsExact(reqs, c)
    && PinnedTop(c)
    && Owns(reqs, c)
    && BatchOk(reqs, b, nextn)
  }

  /** The tree moves on, every pinned segment stays: all is as before. */
  lemma WorldTree(reqs: seq<Req>, b: seq<Entry>, c: Tree, d: Tree, plays: seq<Play>, caches: bool, nextn: nat)
    requires Inv(c, plays) && Inv(d, plays) && World(reqs, b, c, plays, caches, nextn)
    requires Firm(c, d, plays) && TailsKept(c, d) && PinnedTop(d) && forall n :: Held(d, n) == Held(c, n)
    ensures World(reqs, b, d, plays, caches, nextn)
  {
    hide Inv, Firm, ReqsOk, BatchOk;
    ReqsFirm(reqs, b, c, d, plays, caches);
    forall i | 0 <= i < |reqs| && reqs[i].ownNode != -1
      ensures reqs[i].ownNode in d && d[reqs[i].ownNode].tail == 0
    {
      HolderPinned(reqs, d, i);
    }
  }

  /** The segments other requests hold stay in place. */
  ghost predicate OthersFixed(reqs: seq<Req>, c: Tree, d: Tree, plays: seq<Play>, i: nat)
    requires Inv(c, plays) && Inv(d, plays)
  {
    forall j {:trigger reqs[j]} :: 0 <= j < |reqs| && j != i ==>
      && (reqs[j].hitNode != -1 ==> reqs[j].hitNode in c && Fixed(c, d, plays, reqs[j].hitNode))
      && (reqs[j].ownNode != -1 ==> reqs[j].ownNode in c && Fixed(c, d, plays, reqs[j].ownNode))
  }

  lemma FirmOthers(reqs: seq<Req>, c: Tree, d: Tree, plays: seq<Play>, i: nat)
    requires Inv(c, plays) && Inv(d, plays) && Firm(c, d, plays) && PinsExact(reqs, c)
    ensures OthersFixed(reqs, c, d, plays, i)
  {
    hide Inv, Fixed, PinsExact;
    forall j | 0 <= j < |reqs| && j != i
      ensures reqs[j].hitNode != -1 ==> reqs[j].hitNode in c && Fixed(c, d, plays, reqs[j].hitNode)
      ensures reqs[j].ownNode != -1 ==> reqs[j].ownNode in c && Fixed(c, d, plays, reqs[j].ownNode)
    {
      HolderPinned(reqs, c, j);
    }
  }

  /** Request i becomes r, taking or giving back exactly the pins the tree step took or gave back. */
  lemma OneReqOk(reqs: seq<Req>, b: seq<Entry>, b1: seq<Entry>, c: Tree, d: Tree, plays: seq<Play>, caches: bool,
                 i: nat, r: Req)
    requires Inv(c, plays) && Inv(d, plays) && ReqsOk(reqs, b, c, plays, caches) && i < |reqs|
    requires OthersFixed(reqs, c, d, plays, i)
    requires ReqOk(r, Pend(b1, i), d, plays, caches)
    requires forall j: nat :: j != i ==> Pend(b1, j) == Pend(b, j)
    ensures ReqsOk(reqs[i := r], b1, d, plays, caches)
  {
    forall j | 0 <= j < |reqs|
      ensures ReqOk(reqs[i := r][j], Pend(b1, j), d, plays, caches)
    {
      hide Inv, Fixed, ReqOk;
      if j != i {
        assert Pend(b1, j) == Pend(b, j);
        ReqFirm(reqs[j], Pend(b, j), c, d, plays, caches);
      }
    }
  }

  lemma OnePins(reqs: seq<Req>, c: Tree, d: Tree, i: nat, r: Req)
    requires PinsExact(reqs, c) && i < |reqs|
    requires forall n :: Held(d, n) == Held(c, n) - Holds(reqs[i], n) + Holds(r, n)
    ensures PinsExact(reqs[i := r], d)
  {
    forall n
      ensures Held(d, n) == Holders(reqs[i := r], n)
    {
      HoldersUpdate(reqs, i, r, n);
    }
  }

  lemma OneOwns(reqs: seq<Req>, c: Tree, d: Tree, i: nat, r: Req)
    requires Owns(reqs, c) && TailsKept(c, d) && i < |reqs| && PinsExact(reqs[i := r], d)
    requires r.ownNode == -1 || r.ownNode == reqs[i].ownNode ||
      (r.ownNode !in c && r.ownNode in d && d[r.ownNode].tail == 0)
    ensures Owns(reqs[i := r], d)
  {
    var s := reqs[i := r];
    forall j | 0 <= j < |s| && s[j].ownNode != -1
      ensures s[j].ownNode in d && d[s[j].ownNode].tail == 0
    {
      HolderPinned(s, d, j);
      assert j != i ==> s[j] == reqs[j];
    }
    forall j, k | 0 <= j < k < |s| && s[j].ownNode != -1
      ensures s[j].ownNode != s[k].ownNode
    {
      assert j != i ==> s[j] == reqs[j];
      assert k != i ==> s[k] == reqs[k];
      assert reqs[j].ownNode != -1 ==> reqs[j].ownNode != reqs[k].ownNode;
    }
  }

  // ---- steps of the tree that only move pins ----

  lemma PinsStep(c: Tree, plays: seq<Play>, i: int, d: int)
    requires Inv(c, plays) && i in c && Inv(AddPins(c, i, d), plays) && (c[i].tier == 0 || d < 0) && PinnedTop(c)
    requires c[i].pins > 0 || d > 0
    ensures Firm(c, AddPins(c, i, d), plays) && TailsKept(c, AddPins(c, i, d)) && PinnedTop(AddPins(c, i, d))
    ensures forall n :: Held(AddPins(c, i, d), n) == Held(c, n) + (if n == i then d else 0)
    ensures forall n :: n in AddPins(c, i, d) <==> n in c
    ensures forall n :: n in c ==> AddPins(c, i, d)[n].kids == c[n].kids && AddPins(c, i, d)[n].tier == c[n].tier
  {
    var e := AddPins(c, i, d);
    AddPinsShape(c, i, d);
    SameShapeFirm(c, e, plays);
    SameShapeTails(c, e);
  }

  lemma FixedTrans(c: Tree, d: Tree, e: Tree, plays: seq<Play>, i: int)
    requires Inv(c, plays) && Inv(d, plays) && Inv(e, plays) && i in c && Fixed(c, d, plays, i) && Fixed(d, e, plays, i)
    ensures Fixed(c, e, plays, i)
  {
  }

  lemma OthersTrans(reqs: seq<Req>, c: Tree, d: Tree, e: Tree, plays: seq<Play>, i: nat)
    requires Inv(c, plays) && Inv(d, plays) && Inv(e, plays)
    requires OthersFixed(reqs, c, d, plays, i) && OthersFixed(reqs, d, e, plays, i)
    ensures OthersFixed(reqs, c, e, plays, i)
  {
    hide Inv, Fixed;
    forall j | 0 <= j < |reqs| && j != i
      ensures reqs[j].hitNode != -1 ==> reqs[j].hitNode in c && Fixed(c, e, plays, reqs[j].hitNode)
      ensures reqs[j].ownNode != -1 ==> reqs[j].ownNode in c && Fixed(c, e, plays, reqs[j].ownNode)
    {
      if reqs[j].hitNode != -1 { FixedTrans(c, d, e, plays, reqs[j].hitNode); }
      if reqs[j].ownNode != -1 { FixedTrans(c, d, e, plays, reqs[j].ownNode); }
    }
  }

  lemma FirmOthersHeld(reqs: seq<Req>, c: Tree, d: Tree, plays: seq<Play>, i: nat)
    requires Inv(c, plays) && Inv(d, plays) && Firm(c, d, plays)
    requires forall j :: 0 <= j < |reqs| && j != i ==>
      (reqs[j].hitNode != -1 ==> reqs[j].hitNode in c && c[reqs[j].hitNode].pins > 0) &&
      (reqs[j].ownNode != -1 ==> reqs[j].ownNode in c && c[reqs[j].ownNode].pins > 0)
    ensures OthersFixed(reqs, c, d, plays, i)
  {
  }

  // ---- preemption ----

  function Preempted(r: Req): Req {
    r.(st := Queued, ownNode := -1, hitNode := -1, alloc := 0, prefillLeft := r.isl + OutputKv(r), past := 0)
  }

  /** Prompt tokens of r that a split moved out of its own segment. */
  ghost function SplitOff(r: Req, c: Tree, plays: seq<Play>): int {
    if r.ownNode != -1 && r.ownNode in c then Inserted(r) - Tok(c[r.ownNode], plays) else 0
  }

  ghost function OwnReleased(r: Req, c: Tree): Tree
    requires Shape(c) && (r.ownNode != -1 ==> r.ownNode in c)
  {
    if r.ownNode == -1 then c
    else if c[r.ownNode].pins > 1 || c[r.ownNode].kids != [] then AddPins(c, r.ownNode, -1)
    else Remove(c, r.ownNode)
  }

  lemma SplitOffIs(r: Req, pend: int, c: Tree, plays: seq<Play>, caches: bool)
    requires Inv(c, plays) && ReqOk(r, pend, c, plays, caches) && Active(r)
    requires r.ownNode != -1 ==> r.ownNode in c && c[r.ownNode].tail == 0
    ensures SplitOff(r, c, plays) >= 0
    ensures r.ownNode != -1 ==> r.ownNode in c && Tok(c[r.ownNode], plays) <= r.alloc - pend
    ensures r.ownNode != -1 ==> (SplitOff(r, c, plays) == 0 <==> c[r.ownNode].start == r.hitBlocks)
    ensures r.alloc >= pend && r.alloc >= 0
  {
    hide Inv, HitOk, OwnOk, Fits, Tok;
    if caches {
      HitTokens(r, c, plays);
      if r.st.Decode? { OwnPortion(r, c, plays); }
    } else if r.st.Decode? {
      NoOwn(r, c, plays);
      NoHit(r, c, plays);
    } else {
      NoHit(r, c, plays);
    }
  }

  lemma HitTokens(r: Req, c: Tree, plays: seq<Play>)
    requires Inv(c, plays) && Fits(r, plays) && HitOk(r, c, plays, true)
    ensures r.hitTokens <= r.isl
  {
    Portion(plays[r.play].reqs[r.tr].count, r.hitBlocks, 0, plays[r.play].blockSize);
    Portion(plays[r.play].reqs[r.tr].count, plays[r.play].reqs[r.tr].count, r.hitBlocks, plays[r.play].blockSize);
  }

  lemma NoOwn(r: Req, c: Tree, plays: seq<Play>)
    requires Inv(c, plays) && Fits(r, plays) && OwnOk(r, c, plays, false)
    ensures r.ownNode == -1
  {
  }

  lemma NoHit(r: Req, c: Tree, plays: seq<Play>)
    requires Inv(c, plays) && Fits(r, plays) && HitOk(r, c, plays, false)
    ensures r.hitTokens == 0
  {
  }

  /** The request's own segment holds what it inserted, less what a split moved into the segment above. */
  lemma OwnPortion(r: Req, c: Tree, plays: seq<Play>)
    requires Inv(c, plays) && Fits(r, plays) && HitOk(r, c, plays, true) && OwnOk(r, c, plays, true)
    requires r.ownNode != -1 ==> r.ownNode in c && c[r.ownNode].tail == 0
    ensures r.ownNode != -1 && r.ownNode in c && Tok(c[r.ownNode], plays) <= r.isl - r.hitTokens
    ensures Tok(c[r.ownNode], plays) == r.isl - r.hitTokens <==> c[r.ownNode].start == r.hitBlocks
  {
    hide Inv, PathIs, Tok;
    var count := plays[r.play].reqs[r.tr].count;
    GroundedLive(c, plays, r.ownNode, r.play, r.tr, count);
    TokTo(c[r.ownNode], plays, count);
    Portion(count, c[r.ownNode].start, r.hitBlocks, plays[r.play].blockSize);
  }

  lemma TokTo(n: Seg, plays: seq<Play>, count: nat)
    requires n.play < |plays| && End(n) == count && n.tail == 0
    ensures Tok(n, plays) == (count - n.start) * plays[n.play].blockSize
  {
  }

  /** Of the blocks from h on, those before s are missing. */
  lemma Portion(count: nat, s: nat, h: nat, b: nat)
    requires h <= s <= count && b > 0
    ensures (count - s) * b <= count * b - h * b && ((count - s) * b == count * b - h * b <==> s == h)
  {
  }

  lemma {:induction false} RemoveBlocks(c: Tree, plays: seq<Play>, x: int, i: int, q: nat)
    requires Inv(c, plays) && x in c && Inv(Remove(c, x), plays) && i in Remove(c, x) && q < End(c[i])
    ensures PathBlock(Remove(c, x), plays, i, q) == PathBlock(c, plays, i, q)
    decreases Height(c[i])
  {
    if q < c[i].start {
      RemoveBlocks(c, plays, x, c[i].parent, q);
    }
  }

  lemma RemoveFixed(c: Tree, plays: seq<Play>, x: int, i: int)
    requires Inv(c, plays) && x in c && Inv(Remove(c, x), plays) && i in Remove(c, x)
    ensures Fixed(c, Remove(c, x), plays, i)
  {
    forall q: nat | q < End(c[i])
      ensures PathBlock(Remove(c, x), plays, i, q) == PathBlock(c, plays, i, q)
    {
      RemoveBlocks(c, plays, x, i, q);
    }
  }

  /** Removing a childless segment changes nothing but its parent's list of children. */
  lemma LeafGone(c: Tree, x: int)
    requires Shape(c) && x in c && c[x].parent != -1 && Desc(c, x) == {x}
    ensures forall n :: n in Remove(c, x) <==> n in c && n != x
    ensures forall n :: n in Remove(c, x) ==> Remove(c, x)[n] == c[n].(kids := Remove(c, x)[n].kids)
  {
  }

  /** Freeing the childless segment of its only holder leaves every other holder alone. */
  lemma DropStep(reqs: seq<Req>, c: Tree, plays: seq<Play>, i: nat)
    requires Inv(c, plays) && PinsExact(reqs, c) && PinnedTop(c) && i < |reqs| && reqs[i].ownNode != -1 &&
      reqs[i].ownNode in c
    requires reqs[i].hitNode != reqs[i].ownNode
    requires c[reqs[i].ownNode].pins <= 1 && c[reqs[i].ownNode].parent != -1 &&
      Desc(c, reqs[i].ownNode) == {reqs[i].ownNode}
    requires Inv(Remove(c, reqs[i].ownNode), plays)
    ensures var d := Remove(c, reqs[i].ownNode); (
      OthersFixed(reqs, c, d, plays, i) && TailsKept(c, d) && PinnedTop(d) &&
      (forall n :: Held(d, n) == Held(c, n) - (if n == reqs[i].ownNode then 1 else 0)))
  {
    var x := reqs[i].ownNode;
    var d := Remove(c, x);
    HoldersOne(reqs, i, x);
    LeafGone(c, x);
    hide Inv, Fixed, Remove, Desc, PinsExact;
    forall j | 0 <= j < |reqs| && j != i
      ensures reqs[j].hitNode != -1 ==> reqs[j].hitNode in c && Fixed(c, d, plays, reqs[j].hitNode)
      ensures reqs[j].ownNode != -1 ==> reqs[j].ownNode in c && Fixed(c, d, plays, reqs[j].ownNode)
    {
      hide Inv, Fixed;
      HolderPinned(reqs, c, j);
      if j < i { HoldersTwo(reqs, j, i, x); } else { HoldersTwo(reqs, i, j, x); }
      if reqs[j].hitNode != -1 { RemoveFixed(c, plays, x, reqs[j].hitNode); }
      if reqs[j].ownNode != -1 { RemoveFixed(c, plays, x, reqs[j].ownNode); }
    }
  }

  /** Giving back one pin of request i. */
  lemma GiveBack(reqs: seq<Req>, c: Tree, plays: seq<Play>, i: nat, x: int)
    requires Inv(c, plays) && PinnedTop(c) && x in c && c[x].pins > 0 && Inv(AddPins(c, x, -1), plays)
    requires forall j :: 0 <= j < |reqs| && j != i ==>
      (reqs[j].hitNode != -1 ==> reqs[j].hitNode in c && c[reqs[j].hitNode].pins > 0) &&
      (reqs[j].ownNode != -1 ==> reqs[j].ownNode in c && c[reqs[j].ownNode].pins > 0)
    ensures var d := AddPins(c, x, -1); (
      OthersFixed(reqs, c, d, plays, i) && TailsKept(c, d) && PinnedTop(d) &&
      (forall n :: Held(d, n) == Held(c, n) - (if n == x then 1 else 0)))
  {
    hide Inv, Fixed;
    PinsStep(c, plays, x, -1);
    FirmOthersHeld(reqs, c, AddPins(c, x, -1), plays, i);
  }

  /** What others hold is still pinned when request i gave back at most its own pins. */
  lemma OthersPinned(reqs: seq<Req>, c: Tree, d: Tree, i: nat)
    requires PinsExact(reqs, c) && i < |reqs|
    requires forall n :: Held(d, n) >= Held(c, n) - Holds(reqs[i], n)
    ensures forall j :: 0 <= j < |reqs| && j != i ==>
      (reqs[j].hitNode != -1 ==> reqs[j].hitNode in d && d[reqs[j].hitNode].pins > 0) &&
      (reqs[j].ownNode != -1 ==> reqs[j].ownNode in d && d[reqs[j].ownNode].pins > 0)
  {
    forall j | 0 <= j < |reqs| && j != i
      ensures reqs[j].hitNode != -1 ==> reqs[j].hitNode in d && d[reqs[j].hitNode].pins > 0
      ensures reqs[j].ownNode != -1 ==> reqs[j].ownNode in d && d[reqs[j].ownNode].pins > 0
    {
      if j < i {
        HoldersTwo(reqs, j, i, reqs[j].hitNode);
        HoldersTwo(reqs, j, i, reqs[j].ownNode);
      } else {
        HoldersTwo(reqs, i, j, reqs[j].hitNode);
        HoldersTwo(reqs, i, j, reqs[j].ownNode);
      }
    }
  }

  lemma TailsTrans(c: Tree, d: Tree, e: Tree)
    requires TailsKept(c, d) && TailsKept(d, e) && forall n :: n in c && n in e ==> n in d
    ensures TailsKept(c, e)
  {
  }

  /** Request i becomes r in tree d. */
  lemma OneWorld(reqs: seq<Req>, b: seq<Entry>, b1: seq<Entry>, c: Tree, d: Tree, plays: seq<Play>, caches: bool,
                 nextn: nat, i: nat, r: Req)
    requires Inv(c, plays) && Inv(d, plays) && World(reqs, b, c, plays, caches, nextn) && i < |reqs|
    requires OthersFixed(reqs, c, d, plays, i) && TailsKept(c, d) && PinnedTop(d)
    requires forall n :: Held(d, n) == Held(c, n) - Holds(reqs[i], n) + Holds(r, n)
    requires ReqOk(r, Pend(b1, i), d, plays, caches)
    requires forall j: nat :: j != i ==> Pend(b1, j) == Pend(b, j)
    requires BatchOk(reqs[i := r], b1, nextn)
    requires r.ownNode == -1 || r.ownNode == reqs[i].ownNode ||
      (r.ownNode !in c && r.ownNode in d && d[r.ownNode].tail == 0)
    ensures World(reqs[i := r], b1, d, plays, caches, nextn)
  {
    hide Inv, Fixed, ReqOk, ReqsOk, PinsExact, Owns, BatchOk, OthersFixed;
    OneReqOk(reqs, b, b1, c, d, plays, caches, i, r);
    OnePins(reqs, c, d, i, r);
    OneOwns(reqs, c, d, i, r);
  }

  /** Entries about other requests are untouched by what happens to request i. */
  lemma BatchOthers(reqs: seq<Req>, b: seq<Entry>, nextn: nat, i: nat, r: Req)
    requires BatchOk(reqs, b, nextn) && i < |reqs| && forall e :: e in b ==> e.req != i
    ensures BatchOk(reqs[i := r], b, nextn) && Pend(b, i) == 0
  {
  }

  // ---- steps of the tree that hold no request ----

  lemma WorldSheds(reqs: seq<Req>, b: seq<Entry>, c: Tree, d: Tree, plays: seq<Play>, caches: bool, nextn: nat)
    requires Inv(c, plays) && Inv(d, plays) && World(reqs, b, c, plays, caches, nextn) && Sheds(c, d, 0)
    ensures World(reqs, b, d, plays, caches, nextn) && Firm(c, d, plays) && forall n :: Held(d, n) == Held(c, n)
  {
    ShedsTops(c, d);
    hide Inv, Sheds, ReqsOk, PinsExact, Owns, BatchOk, Firm;
    ShedsFirm(c, d, plays);
    ShedsTails(c, d, 0);
    WorldTree(reqs, b, c, d, plays, caches, nextn);
  }

  lemma ShedsTops(c: Tree, d: Tree)
    requires Sheds(c, d, 0) && PinnedTop(c)
    ensures PinnedTop(d)
  {
  }

  lemma WorldStamp(reqs: seq<Req>, b: seq<Entry>, c: Tree, s: set<int>, now: real, plays: seq<Play>, caches: bool,
                   nextn: nat)
    requires Inv(c, plays) && World(reqs, b, c, plays, caches, nextn)
    ensures Inv(Stamp(c, s, now), plays) && World(reqs, b, Stamp(c, s, now), plays, caches, nextn)
  {
    var d := Stamp(c, s, now);
    StampInv(c, plays, s, now);
    assert SameShape(c, d) && (forall n :: Held(d, n) == Held(c, n)) && PinnedTop(d);
    SameShapeFirm(c, d, plays);
    SameShapeTails(c, d);
    hide Inv, ReqsOk, PinsExact, Owns, BatchOk, Firm;
    WorldTree(reqs, b, c, d, plays, caches, nextn);
  }

  // ---- queues ----

  ghost predicate QueueSame(r: Req, s: Req) {
    (r.st.Queued? <==> s.st.Queued?) && (r.st.Loading? <==> s.st.Loading?) && (Active(r) <==> Active(s)) &&
    (Unfinished(r) ==> Unfinished(s))
  }

  lemma QueuesSame(reqs: seq<Req>, waiting: seq<nat>, running: seq<nat>, loading: set<nat>, done: set<nat>, i: nat,
                   r: Req)
    requires Queues(reqs, waiting, running, loading, done) && i < |reqs| && QueueSame(reqs[i], r) && !reqs[i].st.Done?
    ensures Queues(reqs[i := r], waiting, running, loading, done)
  {
  }

  /** A running request goes back to the front of the waiting queue. */
  lemma QueuesPreempt(reqs: seq<Req>, waiting: seq<nat>, running: seq<nat>, loading: set<nat>, j: nat, r: Req)
    requires Queues(reqs, waiting, running, loading, {}) && j < |running| && r.st.Queued?
    ensures running[j] < |reqs|
    ensures Queues(reqs[running[j] := r], [running[j]] + waiting, running[..j] + running[j + 1..], loading, {})
  {
    var i := running[j];
    assert i in running;
    var w, u, s := [i] + waiting, running[..j] + running[j + 1..], reqs[i := r];
    assert i !in waiting;
    forall x | x in u
      ensures x in running && x != i
    {
      var k :| 0 <= k < |u| && u[k] == x;
      assert u[k] == if k < j then running[k] else running[k + 1];
    }
    forall x | x in running && x != i
      ensures x in u
    {
      var k :| 0 <= k < |running| && running[k] == x;
      assert x == if k < j then u[k] else u[k - 1];
    }
  }

  /** The head of the waiting queue moves on to state r. */
  lemma QueuesPop(reqs: seq<Req>, waiting: seq<nat>, running: seq<nat>, loading: set<nat>, r: Req)
    requires Queues(reqs, waiting, running, loading, {}) && waiting != []
    ensures waiting[0] < |reqs|
    ensures r.st.Loading? ==> Queues(reqs[waiting[0] := r], waiting[1..], running, loading + {waiting[0]}, {})
    ensures r.st.Loading? ==> waiting[0] !in loading
    ensures Unfinished(r) ==> Queues(reqs[waiting[0] := r], waiting[1..], running + [waiting[0]], loading, {})
    ensures r.st.Done? ==> Queues(reqs[waiting[0] := r], waiting[1..], running, loading, {})
  {
    var i := waiting[0];
    assert i in waiting;
    assert waiting == [i] + waiting[1..];
    assert i !in waiting[1..];
    assert i !in running && i !in loading;
    assert forall x :: x in waiting <==> x == i || x in waiting[1..];
    assert forall x :: x in running + [i] <==> x == i || x in running;
  }

  /** Where an active request's segments are. */
  lemma ActiveFacts(reqs: seq<Req>, b: seq<Entry>, c: Tree, plays: seq<Play>, caches: bool, nextn: nat, i: nat)
    requires Inv(c, plays) && World(reqs, b, c, plays, caches, nextn) && i < |reqs| && Active(reqs[i])
    ensures reqs[i].ownNode != -1 ==> OwnFacts(reqs[i], c)
    ensures reqs[i].hitNode != -1 ==>
      reqs[i].hitNode in c && Held(c, reqs[i].hitNode) > 0 && c[reqs[i].hitNode].tier == 0
    ensures reqs[i].hitNode != -1 ==> reqs[i].hitNode != reqs[i].ownNode
    ensures reqs[i].hitNode != -1 ==> CanPin(c, reqs[i].hitNode, -1)
    ensures ReqOk(reqs[i], Pend(b, i), c, plays, caches) && Fits(reqs[i], plays)
    ensures caches <==> reqs[i].hitNode != -1
    ensures !caches ==> reqs[i].ownNode == -1
  {
    hide Grounded, Firm, BatchOk;
    var r := reqs[i];
    assert ReqOk(r, Pend(b, i), c, plays, caches);
    HoldersOne(reqs, i, r.hitNode);
    HoldersOne(reqs, i, r.ownNode);
    if caches {
      GroundedLive(c, plays, r.hitNode, r.play, r.tr, r.hitBlocks);
      CanUnpin(c, r.hitNode);
      if r.st.Decode? {
        GroundedLive(c, plays, r.ownNode, r.play, r.tr, plays[r.play].reqs[r.tr].count);
        CanUnpin(c, r.ownNode);
      }
    }
  }

  ghost predicate OwnFacts(r: Req, c: Tree) {
    && r.ownNode in c && c[r.ownNode].pins > 0 && c[r.ownNode].tier == 0 && c[r.ownNode].parent != -1
    && c[r.ownNode].tail == 0
    && CanPin(c, r.ownNode, -1)
  }

  lemma CanUnpin(c: Tree, x: int)
    requires PinnedTop(c) && x in c && Held(c, x) > 0
    ensures CanPin(c, x, -1)
  {
  }

  /** What releasing a request's own segment does to everyone else. */
  ghost predicate OwnStep(reqs: seq<Req>, c: Tree, d: Tree, plays: seq<Play>, i: nat)
    requires Inv(c, plays) && Inv(d, plays) && i < |reqs|
  {
    && OthersFixed(reqs, c, d, plays, i) && TailsKept(c, d) && PinnedTop(d)
    && (forall n :: Held(d, n) == Held(c, n) - (if n == reqs[i].ownNode && n != -1 then 1 else 0))
    && (reqs[i].hitNode != -1 ==> reqs[i].hitNode in d)
    && (forall n :: n in d ==> n in c)
  }

  lemma NothingReleased(reqs: seq<Req>, c: Tree, plays: seq<Play>, i: nat)
    requires Inv(c, plays) && PinsExact(reqs, c) && PinnedTop(c) && i < |reqs| && reqs[i].ownNode == -1
    requires reqs[i].hitNode != -1 ==> reqs[i].hitNode in c
    ensures OwnStep(reqs, c, c, plays, i)
  {
    FirmRefl(c, plays);
    hide Inv, Fixed, Firm, PinsExact;
    FirmOthers(reqs, c, c, plays, i);
  }

  lemma FirmRefl(c: Tree, plays: seq<Play>)
    requires Inv(c, plays)
    ensures Firm(c, c, plays)
  {
  }

  lemma TailsRefl(c: Tree)
    ensures TailsKept(c, c)
  {
  }

  lemma KeptReleased(reqs: seq<Req>, c: Tree, plays: seq<Play>, i: nat)
    requires Inv(c, plays) && PinsExact(reqs, c) && PinnedTop(c) && i < |reqs|
    requires reqs[i].ownNode in c && reqs[i].ownNode != -1 && c[reqs[i].ownNode].pins > 0
    requires Inv(AddPins(c, reqs[i].ownNode, -1), plays) && (reqs[i].hitNode != -1 ==> reqs[i].hitNode in c)
    ensures OwnStep(reqs, c, AddPins(c, reqs[i].ownNode, -1), plays, i)
  {
    hide Inv, Fixed, PinsExact, OthersFixed;
    OthersPinned(reqs, c, c, i);
    GiveBack(reqs, c, plays, i, reqs[i].ownNode);
  }

  lemma DropReleased(reqs: seq<Req>, c: Tree, plays: seq<Play>, i: nat)
    requires Inv(c, plays) && PinsExact(reqs, c) && PinnedTop(c) && i < |reqs|
    requires reqs[i].ownNode in c && reqs[i].ownNode != -1 && reqs[i].hitNode != reqs[i].ownNode
    requires c[reqs[i].ownNode].pins <= 1 && c[reqs[i].ownNode].parent != -1
    requires Desc(c, reqs[i].ownNode) == {reqs[i].ownNode} && Inv(Remove(c, reqs[i].ownNode), plays)
    requires reqs[i].hitNode != -1 ==> reqs[i].hitNode in c
    ensures OwnStep(reqs, c, Remove(c, reqs[i].ownNode), plays, i)
  {
    hide Inv, Fixed, OthersFixed, PinsExact;
    DropStep(reqs, c, plays, i);
  }

  /** Both segments released: the preempted request is idle again and nobody else noticed. */
  lemma PreemptWorld(reqs: seq<Req>, b: seq<Entry>, c: Tree, d: Tree, e: Tree, plays: seq<Play>, caches: bool,
                     nextn: nat, i: nat)
    requires Inv(c, plays) && Inv(d, plays) && Inv(e, plays) && World(reqs, b, c, plays, caches, nextn)
    requires i < |reqs| && Unfinished(reqs[i]) && OwnStep(reqs, c, d, plays, i)
    requires e == if reqs[i].hitNode == -1 then d
      else if reqs[i].hitNode in d then AddPins(d, reqs[i].hitNode, -1) else d
    requires reqs[i].hitNode != -1 ==> d[reqs[i].hitNode].pins > 0
    requires forall x :: x in b ==> x.req != i
    ensures World(reqs[i := Preempted(reqs[i])], b, e, plays, caches, nextn)
  {
    hide Inv, Fixed, OthersFixed, PinsExact, ReqsOk, Owns, BatchOk, ReqOk;
    ActiveFacts(reqs, b, c, plays, caches, nextn, i);
    var r := reqs[i];
    if r.hitNode != -1 {
      OthersPinned(reqs, c, d, i);
      GiveBack(reqs, d, plays, i, r.hitNode);
      OthersTrans(reqs, c, d, e, plays, i);
      TailsTrans(c, d, e);
    }
    BatchOthers(reqs, b, nextn, i, Preempted(r));
    PreemptedOk(r, Pend(b, i), c, e, plays, caches);
    OneWorld(reqs, b, b, c, e, plays, caches, nextn, i, Preempted(r));
  }

  lemma PreemptedOk(r: Req, pend: int, c: Tree, e: Tree, plays: seq<Play>, caches: bool)
    requires Inv(c, plays) && Inv(e, plays) && ReqOk(r, pend, c, plays, caches) && Unfinished(r)
    ensures ReqOk(Preempted(r), 0, e, plays, caches)
  {
  }

  ghost predicate OwnFound(r: Req, c: Tree) {
    Shape(c) && (r.ownNode != -1 ==> r.ownNode in c)
  }

  ghost function OwnTok(r: Req, c: Tree, plays: seq<Play>): nat {
    if r.ownNode != -1 && r.ownNode in c then Tok(c[r.ownNode], plays) else 0
  }

  lemma KidsNonNegative(c: Tree, plays: seq<Play>, i: int)
    requires Inv(c, plays) && i in c
    ensures Shape(c) && (c[i].kids != [] ==> c[i].kids[0] >= 0)
  {
    KidsLive(c, i);
    if c[i].kids != [] { assert c[i].kids[0] in c[i].kids; }
  }

  lemma RunningActive(reqs: seq<Req>, waiting: seq<nat>, running: seq<nat>, loading: set<nat>, j: nat)
    requires Queues(reqs, waiting, running, loading, {}) && j < |running|
    ensures running[j] < |reqs| && Unfinished(reqs[running[j]])
  {
  }

  lemma HitStillHeld(reqs: seq<Req>, c: Tree, d: Tree, plays: seq<Play>, i: nat)
    requires Inv(c, plays) && Inv(d, plays) && i < |reqs| && OwnStep(reqs, c, d, plays, i)
    requires reqs[i].hitNode != -1 ==>
      reqs[i].hitNode in c && Held(c, reqs[i].hitNode) > 0 && reqs[i].hitNode != reqs[i].ownNode
    ensures reqs[i].hitNode != -1 ==>
      reqs[i].hitNode in d && d[reqs[i].hitNode].pins > 0 && CanPin(d, reqs[i].hitNode, -1)
  {
  }

  // ---- the start of a run ----

  ghost predicate Untouched(r: Req, plays: seq<Play>) {
    && Fits(r, plays) && r.st.Pending? && r.hitNode == -1 && r.ownNode == -1 && r.generated == 0 && r.itl == 0
    && !r.failed
    && r.alloc == 0 && r.past == 0 && r.prefillLeft == r.isl
  }

  lemma {:induction false} UntouchedSums(reqs: seq<Req>, plays: seq<Play>)
    requires forall i :: 0 <= i < |reqs| ==> Untouched(reqs[i], plays)
    ensures OffTreeSum(reqs) == 0 && forall n :: Holders(reqs, n) == 0
    decreases |reqs|
  {
    if reqs != [] {
      UntouchedSums(reqs[..|reqs| - 1], plays);
      assert Untouched(reqs[|reqs| - 1], plays);
    }
  }

  lemma UntouchedOk(r: Req, c: Tree, plays: seq<Play>, caches: bool)
    requires Inv(c, plays) && Untouched(r, plays)
    ensures ReqOk(r, 0, c, plays, caches)
  {
  }

  lemma UntouchedWorld(reqs: seq<Req>, c: Tree, plays: seq<Play>, caches: bool, nextn: nat)
    requires c == map[] && Inv(c, plays) && forall i :: 0 <= i < |reqs| ==> Untouched(reqs[i], plays)
    ensures World(reqs, [], c, plays, caches, nextn) && OffTreeSum(reqs) == 0
    ensures Queues(reqs, [], [], {}, {})
  {
    hide ReqOk, Fits, Inv, OffTreeSum;
    UntouchedSums(reqs, plays);
    forall i | 0 <= i < |reqs|
      ensures ReqOk(reqs[i], Pend([], i), c, plays, caches) && reqs[i].ownNode == -1 && reqs[i].st.Pending?
    {
      UntouchedOk(reqs[i], c, plays, caches);
    }
  }

  lemma EmptyTok(c: Tree, plays: seq<Play>)
    requires c == map[]
    ensures forall t: nat :: TierTok(c, plays, t) == 0
  {
  }

  /** Device-tier counter: tree tokens plus off; every other tier: tree tokens alone. */
  ghost predicate Booked(used: seq<int>, c: Tree, plays: seq<Play>, off: int) {
    && |used| > 0 && used[0] - TierTok(c, plays, 0) == off
    && forall t :: 1 <= t < |used| ==> used[t] == TierTok(c, plays, t)
  }

  lemma BookedKept(used: seq<int>, used1: seq<int>, c: Tree, d: Tree, plays: seq<Play>, off: int)
    requires Booked(used, c, plays, off) && |used1| == |used|
    requires forall t :: 0 <= t < |used| ==> used1[t] - TierTok(d, plays, t) == used[t] - TierTok(c, plays, t)
    ensures Booked(used1, d, plays, off)
  {
  }

  lemma NotInBatch(reqs: seq<Req>, b: seq<Entry>, nextn: nat, i: nat)
    requires BatchOk(reqs, b, nextn) && i < |reqs| && !Active(reqs[i])
    ensures forall e :: e in b ==> e.req != i
  {
  }

  // ---- admission ----

  function LoadingReq(r: Req, node: int): Req {
    r.(st := Loading, hitNode := node, loaded := true)
  }

  lemma LoadingOk(r: Req, pend: int, c: Tree, d: Tree, plays: seq<Play>, caches: bool, node: int)
    requires Inv(c, plays) && Inv(d, plays) && ReqOk(r, pend, c, plays, caches) && r.st.Queued?
    requires node in d && d[node].tier == 0 && d[node].play == r.play
    ensures ReqOk(LoadingReq(r, node), 0, d, plays, caches) && node >= 0 && r.hitNode == -1 && r.ownNode == -1
  {
  }

  /** A queued request that starts a tier load holds the segment being loaded, and nothing else changes. */
  lemma LoadingWorld(reqs: seq<Req>, b: seq<Entry>, c: Tree, d: Tree, plays: seq<Play>, caches: bool, nextn: nat,
                     i: nat, node: int)
    requires Inv(c, plays) && Inv(d, plays) && World(reqs, b, c, plays, caches, nextn) && i < |reqs| &&
      reqs[i].st.Queued?
    requires node in c && OnePinMore(c, d, plays, node) && node in d && d[node].tier == 0 &&
      d[node].play == reqs[i].play
    ensures World(reqs[i := LoadingReq(reqs[i], node)], b, d, plays, caches, nextn)
    ensures OffTreeSum(reqs[i := LoadingReq(reqs[i], node)]) == OffTreeSum(reqs)
  {
    hide Inv, Fixed, PinsExact, Owns, BatchOk, OthersFixed, Firm, ReqOk;
    var r := LoadingReq(reqs[i], node);
    LoadingOk(reqs[i], Pend(b, i), c, d, plays, caches, node);
    NotInBatch(reqs, b, nextn, i);
    BatchOthers(reqs, b, nextn, i, r);
    OffTreeUpdate(reqs, i, r);
    hide ReqsOk;
    FirmOthers(reqs, c, d, plays, i);
    OneWorld(reqs, b, b, c, d, plays, caches, nextn, i, r);
  }

  lemma ScaleUp(k: nat, b: nat)
    requires k > 0
    ensures k * b >= b
  {
  }

  lemma ScaleNat(k: nat, b: nat)
    ensures k * b >= 0
  {
  }

  lemma StillLower(c: Tree, d: Tree, n: int)
    requires Sheds(c, d, 0) && n in c && n in d
    ensures d[n].tier >= c[n].tier && d[n].play == c[n].play
  {
  }

  lemma LowerMoves(c: Tree, plays: seq<Play>, node: int)
    requires Inv(c, plays) && node in c && c[node].nblocks > 0 && c[node].tier > 0
    ensures SumTok(c, plays, LowerPart(c, Path(c, node))) >= plays[c[node].play].blockSize
  {
    hide Shape, Tiers, Pinning, SumTok;
    SliceAt(c, plays, node);
    PathUp(c, node);
    SumRemove(c, plays, LowerPart(c, Path(c, node)), node);
    ScaleUp(c[node].nblocks, plays[c[node].play].blockSize);
  }

  lemma HeadQueued(reqs: seq<Req>, waiting: seq<nat>, running: seq<nat>, loading: set<nat>)
    requires Queues(reqs, waiting, running, loading, {}) && waiting != []
    ensures waiting[0] < |reqs| && reqs[waiting[0]].st.Queued?
  {
  }

  lemma WorldTop(reqs: seq<Req>, b: seq<Entry>, c: Tree, plays: seq<Play>, caches: bool, nextn: nat)
    requires Inv(c, plays) && World(reqs, b, c, plays, caches, nextn)
    ensures PinnedTop(c) && PinsExact(reqs, c)
    ensures forall i :: 0 <= i < |reqs| ==> ReqOk(reqs[i], Pend(b, i), c, plays, caches)
  {
  }

  lemma HitBlocks(c: Tree, plays: seq<Play>, h: Hit, play: nat, r: nat)
    requires Inv(c, plays) && GoodReq(plays, play, r) && Usable(c, plays, h, play, r) && h.lower
    ensures h.node in c && c[h.node].nblocks > 0 && c[h.node].tier > 0 && c[h.node].play == play
  {
  }

  function AdmittedReq(r: Req, p: int, blocks: nat, blockSize: nat): Req {
    r.(st := Prefill, hitNode := p, hitBlocks := blocks, hitTokens := blocks * blockSize, past := blocks * blockSize,
       prefillLeft := r.isl - blocks * blockSize + OutputKv(r), loaded := false)
  }

  /** A further step that keeps pinned segments keeps an extra pin where it was. */
  lemma OnePinKept(c: Tree, m: Tree, d: Tree, plays: seq<Play>, p: int)
    requires Inv(c, plays) && Inv(m, plays) && Inv(d, plays) && OnePinMore(c, m, plays, p)
    requires Sheds(m, d, 0)
    ensures OnePinMore(c, d, plays, p)
  {
    ShedsTops(m, d);
    ShedsFirm(m, d, plays);
    ShedsTails(m, d, 0);
    hide Inv;
    forall i | i in c && c[i].pins > 0
      ensures Fixed(c, d, plays, i)
    {
      assert Fixed(c, m, plays, i);
      assert Held(m, i) >= Held(c, i);
      assert m[i].pins > 0;
      hide Fixed;
      FixedChain(c, m, d, plays, i);
    }
    forall i | i in c && i in d && c[i].tail == 0
      ensures d[i].tail == 0
    {
      assert Kept(m[i], d[i]);
      assert m[i].tail == 0;
    }
  }

  lemma OnePinBack(c: Tree, d: Tree, plays: seq<Play>, p: int)
    requires Inv(c, plays) && Inv(d, plays) && OnePinMore(c, d, plays, p) && p in d && d[p].pins > 0 &&
      Inv(AddPins(d, p, -1), plays)
    ensures var e := AddPins(d, p, -1); (
      Firm(c, e, plays) && TailsKept(c, e) && PinnedTop(e) && forall n :: Held(e, n) == Held(c, n))
  {
    var e := AddPins(d, p, -1);
    PinsStep(d, plays, p, -1);
    AddPinsShape(d, p, -1);
    hide Inv;
    forall i | i in c && c[i].pins > 0
      ensures Fixed(c, e, plays, i)
    {
      assert Fixed(c, d, plays, i);
      hide Fixed;
      FixedLive(c, d, plays, i);
      assert e[i].tier <= d[i].tier;
      FixedSelf(d, e, plays, i);
      FixedChain(c, d, e, plays, i);
    }
    forall i | i in c && i in e && c[i].tail == 0
      ensures e[i].tail == 0
    {
      assert d[i].tail == 0;
    }
  }

  lemma AdmittedOk(r: Req, pend: int, c: Tree, d: Tree, plays: seq<Play>, caches: bool, p: int, blocks: nat)
    requires Inv(c, plays) && Inv(d, plays) && ReqOk(r, pend, c, plays, caches) && r.st.Queued?
    requires blocks < plays[r.play].reqs[r.tr].count
    requires if caches then Grounded(d, plays, p, r.play, r.tr, blocks) else p == -1 && blocks == 0
    ensures Unfinished(AdmittedReq(r, p, blocks, plays[r.play].blockSize))
    ensures ReqOk(AdmittedReq(r, p, blocks, plays[r.play].blockSize), 0, d, plays, caches)
    ensures r.hitNode == -1 && r.ownNode == -1 && AdmittedReq(r, p, blocks, plays[r.play].blockSize).prefillLeft > 0
    ensures caches ==> p >= 0
  {
    hide Inv, Grounded;
    var count, b := plays[r.play].reqs[r.tr].count, plays[r.play].blockSize;
    Minus(count, blocks, b);
    ScaleUp(count - blocks, b);
    if caches { GroundedLive(d, plays, p, r.play, r.tr, blocks); }
  }

  /** A queued request admitted with a pinned prefix (or, without a cache, with none). */
  lemma AdmittedWorld(reqs: seq<Req>, b: seq<Entry>, c: Tree, d: Tree, plays: seq<Play>, caches: bool, nextn: nat,
                      i: nat, p: int, blocks: nat)
    requires Inv(c, plays) && Inv(d, plays) && World(reqs, b, c, plays, caches, nextn) && i < |reqs| &&
      reqs[i].st.Queued?
    requires Fits(reqs[i], plays) && blocks < plays[reqs[i].play].reqs[reqs[i].tr].count
    requires if caches then OnePinMore(c, d, plays, p) && Grounded(d, plays, p, reqs[i].play, reqs[i].tr, blocks)
             else d == c && p == -1 && blocks == 0
    ensures var r := AdmittedReq(reqs[i], p, blocks, plays[reqs[i].play].blockSize); (
      World(reqs[i := r], b, d, plays, caches, nextn) && OffTreeSum(reqs[i := r]) == OffTreeSum(reqs) &&
        r.prefillLeft > 0 &&
      Unfinished(r))
  {
    hide Inv, Fixed, PinsExact, Owns, BatchOk, OthersFixed, ReqOk, Grounded;
    var r := AdmittedReq(reqs[i], p, blocks, plays[reqs[i].play].blockSize);
    assert ReqOk(reqs[i], Pend(b, i), c, plays, caches);
    AdmittedOk(reqs[i], Pend(b, i), c, d, plays, caches, p, blocks);
    IdleAlloc(reqs[i], Pend(b, i), c, plays, caches);
    NotInBatch(reqs, b, nextn, i);
    BatchOthers(reqs, b, nextn, i, r);
    OffTreeUpdate(reqs, i, r);
    hide ReqsOk, Fits;
    if !caches { FirmRefl(c, plays); }
    FirmOthers(reqs, c, d, plays, i);
    OneWorld(reqs, b, b, c, d, plays, caches, nextn, i, r);
  }

  lemma IdleAlloc(r: Req, pend: int, c: Tree, plays: seq<Play>, caches: bool)
    requires Inv(c, plays) && ReqOk(r, pend, c, plays, caches) && r.st.Queued?
    ensures r.alloc == 0 && r.ownNode == -1
  {
  }

  lemma UsableBound(c: Tree, plays: seq<Play>, h: Hit, play: nat, r: nat)
    requires Inv(c, plays) && GoodReq(plays, play, r) && Usable(c, plays, h, play, r) && plays[play].reqs[r].count > 0
    ensures h.blocks < plays[play].reqs[r].count && (h.node == -1 ==> h.blocks == 0)
  {
  }

  /** The segment pinned for an admission is still there, and may be unpinned, after room was made. */
  lemma PinnedGrounded(c: Tree, m: Tree, d: Tree, plays: seq<Play>, p: int, play: nat, r: nat, n: nat)
    requires Inv(c, plays) && Inv(m, plays) && Inv(d, plays) && OnePinMore(c, m, plays, p) && OnePinMore(c, d, plays, p)
    requires Sheds(m, d, 0) && Grounded(m, plays, p, play, r, n)
    ensures Grounded(d, plays, p, play, r, n) && p in d && d[p].pins > 0 && CanPin(d, p, -1) && p != -1
  {
    GroundedLive(m, plays, p, play, r, n);
    ShedsFirm(m, d, plays);
    PinnedHolder(c, plays, p);
    assert Held(m, p) > 0 && Held(d, p) > 0;
    FirmGrounded(m, d, plays, p, play, r, n);
    hide Inv;
    CanUnpin(d, p);
  }

  lemma PinnedHolder(c: Tree, plays: seq<Play>, p: int)
    requires Inv(c, plays)
    ensures Held(c, p) >= 0
  {
  }

  // ---- batching ----

  function Charged(r: Req, tok: int): Req {
    r.(alloc := r.alloc + tok)
  }

  lemma ChargedOk(r: Req, c: Tree, plays: seq<Play>, caches: bool, tok: int)
    requires Inv(c, plays) && ReqOk(r, 0, c, plays, caches) && Active(r) && tok > 0
    requires r.st.Prefill? ==> tok <= r.prefillLeft
    ensures ReqOk(Charged(r, tok), tok, c, plays, caches)
  {
  }

  /** A request takes its place in the batch and is charged for the tokens computed there. */
  lemma ScheduledWorld(reqs: seq<Req>, b: seq<Entry>, c: Tree, plays: seq<Play>, caches: bool, nextn: nat, i: nat,
                       e: Entry)
    requires Inv(c, plays) && World(reqs, b, c, plays, caches, nextn) && i < |reqs| && e.req == i &&
      EntryOk(reqs, e, nextn)
    requires forall x :: x in b ==> x.req != i
    ensures World(reqs[i := Charged(reqs[i], e.tokens)], b + [e], c, plays, caches, nextn)
    ensures OffTreeSum(reqs[i := Charged(reqs[i], e.tokens)]) == OffTreeSum(reqs) + e.tokens
  {
    hide Inv, Fixed, Firm, PinsExact, Owns, OthersFixed, ReqOk, ReqsOk, BatchOk, Pend, OffTreeSum, TailsKept;
    var r := Charged(reqs[i], e.tokens);
    WorldTop(reqs, b, c, plays, caches, nextn);
    PendAbsent(b, i);
    ChargedOk(reqs[i], c, plays, caches, e.tokens);
    forall j: nat
      ensures Pend(b + [e], j) == Pend(b, j) + (if j == i then e.tokens else 0)
    {
      PendSnoc(b, e, j);
    }
    OffTreeUpdate(reqs, i, r);
    AppendBatch(reqs, b, nextn, i, e, r);
    FirmRefl(c, plays);
    TailsRefl(c);
    FirmOthers(reqs, c, c, plays, i);
    OneWorld(reqs, b, b + [e], c, c, plays, caches, nextn, i, r);
  }

  lemma AppendBatch(reqs: seq<Req>, b: seq<Entry>, nextn: nat, i: nat, e: Entry, r: Req)
    requires BatchOk(reqs, b, nextn) && i < |reqs| && e.req == i && EntryOk(reqs, e, nextn)
    requires forall x :: x in b ==> x.req != i
    requires r.st == reqs[i].st && r.prefillLeft == reqs[i].prefillLeft
    ensures BatchOk(reqs[i := r], b + [e], nextn)
  {
  }

  lemma PrefillLeft(reqs: seq<Req>, b: seq<Entry>, c: Tree, plays: seq<Play>, caches: bool, nextn: nat, i: nat)
    requires Inv(c, plays) && World(reqs, b, c, plays, caches, nextn) && i < |reqs| && reqs[i].st.Prefill?
    ensures reqs[i].prefillLeft > 0
  {
  }

  // ---- what a batch may hold ----

  function BatchTokens(b: seq<Entry>): int {
    if b == [] then 0 else BatchTokens(b[..|b| - 1]) + b[|b| - 1].tokens
  }

  lemma BatchSnoc(b: seq<Entry>, e: Entry)
    ensures BatchTokens(b + [e]) == BatchTokens(b) + e.tokens
  {
  }

  /** Within the caps, but for one prefill that does not chunk and runs alone. */
  ghost predicate WithinCaps(b: seq<Entry>, maxTokens: int, maxSeqs: int, chunked: bool) {
    b == [] || (|b| <= maxSeqs && (BatchTokens(b) <= maxTokens || (|b| == 1 && b[0].prefill && !chunked)))
  }

  ghost predicate AllPrefill(b: seq<Entry>) {
    forall e :: e in b ==> e.prefill
  }

  ghost predicate AllDecode(b: seq<Entry>) {
    forall e :: e in b ==> !e.prefill
  }

  ghost predicate BatchedIn(reqs: seq<Req>, running: seq<nat>, e: Entry) {
    && e.req in running && e.req < |reqs| && e.tokens > 0
    && (if e.prefill then reqs[e.req].st.Prefill? else reqs[e.req].st.Decode?)
  }

  /** Every entry of the batch is a running request. */
  lemma BatchRuns(reqs: seq<Req>, b: seq<Entry>, nextn: nat, waiting: seq<nat>, running: seq<nat>, loading: set<nat>)
    requires BatchOk(reqs, b, nextn) && Queues(reqs, waiting, running, loading, {})
    ensures forall e :: e in b ==> BatchedIn(reqs, running, e)
  {
  }

  /** Every batched request stands before position i of the running list. */
  ghost predicate BatchedBefore(b: seq<Entry>, running: seq<nat>, i: nat) {
    forall e :: e in b ==> exists k :: 0 <= k < i && k < |running| && running[k] == e.req
  }

  ghost predicate NoDecodeAfter(reqs: seq<Req>, running: seq<nat>, i: nat) {
    forall j :: i < j < |running| ==> running[j] < |reqs| && !reqs[running[j]].st.Decode?
  }

  /** Request id has its place in the batch. */
  ghost predicate Served(b: seq<Entry>, id: nat) {
    exists e :: e in b && e.req == id
  }

  /** Of the first i running requests, every one that decodes has its place in the batch. */
  ghost predicate DecodesServed(reqs: seq<Req>, b: seq<Entry>, running: seq<nat>, i: nat) {
    forall j :: 0 <= j < i && j < |running| && running[j] < |reqs| && reqs[running[j]].st.Decode? ==>
      Served(b, running[j])
  }

  ghost predicate NoDecodeFrom(reqs: seq<Req>, running: seq<nat>, i: nat) {
    forall j :: i <= j < |running| && running[j] < |reqs| ==> !reqs[running[j]].st.Decode?
  }

  lemma NoneServed(reqs: seq<Req>, running: seq<nat>)
    ensures DecodesServed(reqs, [], running, 0)
  {
  }

  lemma NoneFrom(reqs: seq<Req>, running: seq<nat>, i: nat)
    requires i < |running| && running[i] < |reqs| && reqs[running[i]].st.Decode?
    ensures !NoDecodeFrom(reqs, running, i)
  {
  }

  lemma LastIs(reqs: seq<Req>, running: seq<nat>, i: nat, j: nat)
    requires i < |running| - 1 && j < |running| && NoDecodeAfter(reqs, running, j)
    requires running[|running| - 1] < |reqs| && reqs[running[|running| - 1]].st.Decode?
    ensures j == |running| - 1
  {
  }

  lemma NoDecodeNext(reqs: seq<Req>, running: seq<nat>, i: nat)
    requires NoDecodeAfter(reqs, running, i)
    ensures NoDecodeFrom(reqs, running, i + 1)
  {
  }

  lemma ServedStays(reqs0: seq<Req>, reqs: seq<Req>, b: seq<Entry>, running0: seq<nat>, running: seq<nat>, i: nat,
                    room: int)
    requires DecodesServed(reqs0, b, running0, i) && Planned(reqs0, reqs, room) && SameUpTo(running0, running, i)
    ensures DecodesServed(reqs, b, running, i)
  {
  }

  lemma ServedNext(reqs: seq<Req>, b: seq<Entry>, running: seq<nat>, i: nat, need: int)
    requires DecodesServed(reqs, b, running, i) && i < |running| && running[i] < |reqs|
    ensures DecodesServed(reqs[running[i] := Charged(reqs[running[i]], need)], b
      + [Entry(running[i], need, false)], running, i + 1)
  {
  }

  lemma ServedSkip(reqs: seq<Req>, b: seq<Entry>, running: seq<nat>, i: nat)
    requires i < |running| && running[i] < |reqs| && !reqs[running[i]].st.Decode?
    ensures DecodesServed(reqs, b, running, i) ==> DecodesServed(reqs, b, running, i + 1)
    ensures NoDecodeFrom(reqs, running, i) ==> NoDecodeFrom(reqs, running, i + 1)
  {
  }

  ghost predicate SameUpTo(s: seq<nat>, t: seq<nat>, i: nat) {
    i < |t| <= |s| && forall k :: 0 <= k <= i ==> t[k] == s[k]
  }

  ghost predicate SameReq(s: seq<Req>, t: seq<Req>, i: nat) {
    i < |s| && i < |t| && t[i] == s[i]
  }

  /** A request later in the running list is not among those batched before position i. */
  lemma RunningDistinct(reqs: seq<Req>, waiting: seq<nat>, running: seq<nat>, loading: set<nat>, b: seq<Entry>, i: nat,
                        j: nat)
    requires Queues(reqs, waiting, running, loading, {}) && i < j < |running| && BatchedBefore(b, running, i)
    ensures running[j] != running[i] && forall e :: e in b ==> e.req != running[j]
    ensures BatchedBefore(b, running[..j] + running[j + 1..], i)
  {
    var s := running[..j] + running[j + 1..];
    forall e | e in b
      ensures e.req != running[j] && exists k :: 0 <= k < i && k < |s| && s[k] == e.req
    {
      var k :| 0 <= k < i && k < |running| && running[k] == e.req;
      assert s[k] == e.req;
    }
  }

  lemma NoneBatched(running: seq<nat>)
    ensures BatchedBefore([], running, 0) && BatchTokens([]) == 0
  {
  }

  lemma LaterPosition(b: seq<Entry>, running: seq<nat>, i: nat, j: nat)
    requires BatchedBefore(b, running, i) && i <= j
    ensures BatchedBefore(b, running, j)
  {
  }

  /** The request at position i joins the batch. */
  lemma BatchedUpTo(reqs: seq<Req>, waiting: seq<nat>, running: seq<nat>, loading: set<nat>, b: seq<Entry>, i: nat,
                    e: Entry)
    requires Queues(reqs, waiting, running, loading, {}) && BatchedBefore(b, running, i) && i < |running| &&
      e.req == running[i]
    ensures BatchedBefore(b, running, i + 1) && BatchedBefore(b + [e], running, i + 1)
    ensures forall x :: x in b ==> x.req != running[i]
  {
  }

  lemma CapsGrow(b: seq<Entry>, e: Entry, maxTokens: int, maxSeqs: int, chunked: bool)
    requires WithinCaps(b, maxTokens, maxSeqs, chunked) && BatchTokens(b) < maxTokens && |b| < maxSeqs
    requires BatchTokens(b) + e.tokens <= maxTokens || (b == [] && e.prefill && !chunked)
    ensures WithinCaps(b + [e], maxTokens, maxSeqs, chunked) && BatchTokens(b + [e]) == BatchTokens(b) + e.tokens
  {
  }

  /** The batch grew by prefill chunks only. */
  ghost predicate Extends(b: seq<Entry>, d: seq<Entry>) {
    b <= d && forall j :: |b| <= j < |d| ==> d[j].prefill
  }

  ghost predicate PrefillsBefore(b: seq<Entry>, running: seq<nat>, i: nat) {
    forall e :: e in b && e.prefill ==> exists k :: 0 <= k < i && k < |running| && running[k] == e.req
  }

  lemma NoPrefills(b: seq<Entry>, running: seq<nat>)
    requires AllDecode(b)
    ensures PrefillsBefore(b, running, 0)
  {
  }

  lemma PrefillsLater(b: seq<Entry>, running: seq<nat>, i: nat)
    requires PrefillsBefore(b, running, i)
    ensures PrefillsBefore(b, running, i + 1)
  {
  }

  /** A prefilling request at position i is not batched yet. */
  lemma PrefillNotBatched(reqs: seq<Req>, c: Tree, plays: seq<Play>, caches: bool, nextn: nat, waiting: seq<nat>,
                          running: seq<nat>, loading: set<nat>, b: seq<Entry>, i: nat)
    requires Inv(c, plays) && World(reqs, b, c, plays, caches, nextn) && Queues(reqs, waiting, running, loading, {})
    requires PrefillsBefore(b, running, i) && i < |running| && running[i] < |reqs| && reqs[running[i]].st.Prefill?
    ensures forall x :: x in b ==> x.req != running[i]
    ensures forall tok :: PrefillsBefore(b + [Entry(running[i], tok, true)], running, i + 1)
  {
  }

  function Rejected(r: Req): Req {
    r.(st := Done, failed := true)
  }

  function MaxZero(x: int): nat {
    if x > 0 then x else 0
  }

  lemma RejectedOk(r: Req, pend: int, c: Tree, plays: seq<Play>, caches: bool)
    requires Inv(c, plays) && ReqOk(r, pend, c, plays, caches) && r.st.Queued?
    ensures ReqOk(Rejected(r), 0, c, plays, caches)
  {
  }

  lemma RejectedWorld(reqs: seq<Req>, b: seq<Entry>, c: Tree, plays: seq<Play>, caches: bool, nextn: nat, i: nat)
    requires Inv(c, plays) && World(reqs, b, c, plays, caches, nextn) && i < |reqs| && reqs[i].st.Queued?
    ensures World(reqs[i := Rejected(reqs[i])], b, c, plays, caches, nextn)
    ensures OffTreeSum(reqs[i := Rejected(reqs[i])]) == OffTreeSum(reqs)
  {
    hide Inv, Fixed, PinsExact, Owns, BatchOk, OthersFixed, ReqOk;
    assert ReqOk(reqs[i], Pend(b, i), c, plays, caches);
    RejectedOk(reqs[i], Pend(b, i), c, plays, caches);
    NotInBatch(reqs, b, nextn, i);
    BatchOthers(reqs, b, nextn, i, Rejected(reqs[i]));
    OffTreeUpdate(reqs, i, Rejected(reqs[i]));
    FirmRefl(c, plays);
    hide ReqsOk, Firm;
    FirmOthers(reqs, c, c, plays, i);
    OneWorld(reqs, b, b, c, c, plays, caches, nextn, i, Rejected(reqs[i]));
  }

  lemma HeadNotBatched(reqs: seq<Req>, b: seq<Entry>, c: Tree, plays: seq<Play>, caches: bool, nextn: nat, i: nat)
    requires Inv(c, plays) && World(reqs, b, c, plays, caches, nextn) && i < |reqs| && reqs[i].st.Queued?
    ensures forall e :: e in b ==> e.req != i
  {
  }

  // ---- committing a pass ----

  lemma {:induction false} PendHead(b: seq<Entry>, i: nat)
    requires b != []
    ensures Pend(b, i) == (if b[0].req == i then b[0].tokens else 0) + Pend(b[1..], i)
    decreases |b|
  {
    var n := |b| - 1;
    if n > 0 {
      PendHead(b[..n], i);
      assert b[..n][1..] == b[1..][..n - 1];
    }
  }

  /** The first entry of a batch and the rest of it, once its request became r. */
  lemma BatchRest(reqs: seq<Req>, b: seq<Entry>, nextn: nat, r: Req)
    requires BatchOk(reqs, b, nextn) && b != []
    ensures EntryOk(reqs, b[0], nextn) && BatchOk(reqs[b[0].req := r], b[1..], nextn)
    ensures Pend(b[1..], b[0].req) == 0 && Pend(b, b[0].req) == b[0].tokens
    ensures forall j: nat :: j != b[0].req ==> Pend(b[1..], j) == Pend(b, j)
  {
    assert EntryOk(reqs, b[0], nextn);
    var i := b[0].req;
    forall e | e in b[1..]
      ensures e.req != i
    {
      var k :| 0 < k < |b| && b[k] == e;
      assert b[0].req != b[k].req;
    }
    forall j | 0 <= j < |b[1..]|
      ensures EntryOk(reqs[i := r], b[1..][j], nextn)
    {
      assert b[1..][j] in b[1..] && EntryOk(reqs, b[j + 1], nextn);
    }
    PendAbsent(b[1..], i);
    forall j: nat
      ensures Pend(b, j) == (if j == i then b[0].tokens else 0) + Pend(b[1..], j)
    {
      PendHead(b, j);
    }
  }

  function Computed(r: Req, tok: int): Req {
    r.(prefillLeft := r.prefillLeft - tok, past := r.past + tok)
  }

  /** The last chunk of a prefill yields the first token, unless it was produced before a preemption. */
  function Grown(r: Req, tok: int, own: int): Req {
    r.(prefillLeft := r.prefillLeft - tok, past := r.past + tok, st := Decode, ownNode := own,
       generated := if r.generated == 0 then 1 else r.generated)
  }

  function StepOn(r: Req, tok: int, produced: nat): Req {
    r.(alloc := r.alloc - (tok - produced), generated := r.generated + produced, past := r.past + produced, itl := r.itl
      + produced)
  }

  function Finished(r: Req): Req {
    r.(st := Done, ownNode := -1, hitNode := -1)
  }

  /** The first entry of the batch commits without touching the tree. */
  lemma CommitWorld(reqs: seq<Req>, b: seq<Entry>, c: Tree, plays: seq<Play>, caches: bool, nextn: nat, r: Req)
    requires Inv(c, plays) && World(reqs, b, c, plays, caches, nextn) && b != [] && b[0].req < |reqs|
    requires r.hitNode == reqs[b[0].req].hitNode && r.ownNode == reqs[b[0].req].ownNode
    requires ReqOk(r, 0, c, plays, caches)
    ensures World(reqs[b[0].req := r], b[1..], c, plays, caches, nextn)
    ensures OffTreeSum(reqs[b[0].req := r]) == OffTreeSum(reqs) - OffTree(reqs[b[0].req]) + OffTree(r)
  {
    hide Inv, Fixed, PinsExact, Owns, OthersFixed, ReqOk, ReqsOk, BatchOk, Firm;
    var i := b[0].req;
    BatchRest(reqs, b, nextn, r);
    OffTreeUpdate(reqs, i, r);
    FirmRefl(c, plays);
    FirmOthers(reqs, c, c, plays, i);
    OneWorld(reqs, b, b[1..], c, c, plays, caches, nextn, i, r);
  }

  /** What an entry of the batch says of its request. */
  lemma EntryReq(reqs: seq<Req>, b: seq<Entry>, c: Tree, plays: seq<Play>, caches: bool, nextn: nat)
    requires Inv(c, plays) && World(reqs, b, c, plays, caches, nextn) && b != []
    ensures EntryOk(reqs, b[0], nextn) && ReqOk(reqs[b[0].req], b[0].tokens, c, plays, caches)
  {
    hide Inv, PinsExact, Owns, ReqOk;
    assert EntryOk(reqs, b[0], nextn) by {
      assert BatchOk(reqs, b, nextn);
    }
    BatchRest(reqs, b, nextn, reqs[b[0].req]);
    assert ReqOk(reqs[b[0].req], Pend(b, b[0].req), c, plays, caches);
  }

  lemma ChunkWorld(reqs: seq<Req>, b: seq<Entry>, c: Tree, plays: seq<Play>, caches: bool, nextn: nat)
    requires Inv(c, plays) && World(reqs, b, c, plays, caches, nextn) && b != [] && b[0].prefill && b[0].req < |reqs|
    requires reqs[b[0].req].prefillLeft > b[0].tokens
    ensures var r := Computed(reqs[b[0].req], b[0].tokens); (
      World(reqs[b[0].req := r], b[1..], c, plays, caches, nextn) &&
        OffTreeSum(reqs[b[0].req := r]) == OffTreeSum(reqs) &&
      QueueSame(reqs[b[0].req], r))
  {
    hide World;
    EntryReq(reqs, b, c, plays, caches, nextn);
    CommitWorld(reqs, b, c, plays, caches, nextn, Computed(reqs[b[0].req], b[0].tokens));
  }

  /** A decode step keeps the tokens it produced and gives back those speculated in vain. */
  lemma StepWorld(reqs: seq<Req>, b: seq<Entry>, c: Tree, plays: seq<Play>, caches: bool, nextn: nat, produced: nat)
    requires Inv(c, plays) && World(reqs, b, c, plays, caches, nextn) && b != [] && !b[0].prefill && b[0].req < |reqs|
    requires 0 < produced <= 1 + nextn && reqs[b[0].req].generated + produced <= reqs[b[0].req].osl
    ensures var r := StepOn(reqs[b[0].req], b[0].tokens, produced); (
      World(reqs[b[0].req := r], b[1..], c, plays, caches, nextn) && b[0].tokens >= produced &&
      OffTreeSum(reqs[b[0].req := r]) == OffTreeSum(reqs) - (b[0].tokens - produced))
  {
    hide World;
    EntryReq(reqs, b, c, plays, caches, nextn);
    CommitWorld(reqs, b, c, plays, caches, nextn, StepOn(reqs[b[0].req], b[0].tokens, produced));
  }

  /** The segment below which a finished prefill inserts its blocks. */
  lemma GrowFrom(reqs: seq<Req>, b: seq<Entry>, c: Tree, plays: seq<Play>, nextn: nat, now: real)
    requires Inv(c, plays) && World(reqs, b, c, plays, true, nextn) && b != [] && b[0].prefill
    ensures b[0].req < |reqs| && Fits(reqs[b[0].req], plays)
    ensures var r := reqs[b[0].req]; var count := plays[r.play].reqs[r.tr].count; (
      Grounded(c, plays, r.hitNode, r.play, r.tr, r.hitBlocks) && r.hitBlocks < count && PinnedTop(c) &&
        r.hitNode in c &&
      c[r.hitNode].pins > 0 && c[r.hitNode].tier == 0 && (c[r.hitNode].parent != -1 ==> c[r.hitNode].nblocks > 0) &&
      (var k := BlockSeg(c[r.hitNode], r.hitNode, r.tr, count - r.hitBlocks, now);
       SliceOk(k, plays) && HashBegin(k, plays) == plays[r.play].reqs[r.tr].begin + r.hitBlocks &&
       Tok(k, plays) == r.isl - r.hitTokens))
  {
    hide ReqsOk, Owns, BatchOk, ReqOk, Inv, Grounded, SliceOk, HashBegin, Tok;
    EntryReq(reqs, b, c, plays, true, nextn);
    var r := reqs[b[0].req];
    GrowReq(r, b[0].tokens, c, plays, true);
    HolderPinned(reqs, c, b[0].req);
    GroundedLive(c, plays, r.hitNode, r.play, r.tr, r.hitBlocks);
    PromptSeg(c, plays, r, now);
  }

  /** The new segment holds exactly the prompt blocks beyond the cached prefix. */
  lemma PromptSeg(c: Tree, plays: seq<Play>, r: Req, now: real)
    requires Inv(c, plays) && Fits(r, plays) && Grounded(c, plays, r.hitNode, r.play, r.tr, r.hitBlocks)
    requires r.hitBlocks < plays[r.play].reqs[r.tr].count && r.hitTokens == r.hitBlocks * plays[r.play].blockSize
    ensures r.hitNode in c
    ensures var count := plays[r.play].reqs[r.tr].count;
      var k := BlockSeg(c[r.hitNode], r.hitNode, r.tr, count - r.hitBlocks, now); (
      SliceOk(k, plays) && HashBegin(k, plays) == plays[r.play].reqs[r.tr].begin + r.hitBlocks &&
      Tok(k, plays) == r.isl - r.hitTokens)
  {
    hide Inv, PathIs;
    Minus(plays[r.play].reqs[r.tr].count, r.hitBlocks, plays[r.play].blockSize);
  }

  lemma Minus(a: nat, b: nat, c: nat)
    ensures a * c - b * c == (a - b) * c
  {
  }

  lemma GrowReq(r: Req, pend: int, c: Tree, plays: seq<Play>, caches: bool)
    requires Inv(c, plays) && ReqOk(r, pend, c, plays, caches) && r.st.Prefill?
    ensures Fits(r, plays) && HitOk(r, c, plays, caches)
  {
  }

  lemma GrownOk(r: Req, tok: int, own: int, c: Tree, d: Tree, plays: seq<Play>, caches: bool)
    requires Inv(c, plays) && Inv(d, plays) && ReqOk(r, tok, c, plays, caches) && r.st.Prefill? && r.prefillLeft == tok
    requires HitOk(r, d, plays, caches)
    requires if caches then Grounded(d, plays, own, r.play, r.tr, plays[r.play].reqs[r.tr].count) &&
                            d[own].parent != -1 && d[own].start >= r.hitBlocks
             else own == -1
    ensures ReqOk(Grown(r, tok, own), 0, d, plays, caches)
    ensures OffTree(Grown(r, tok, own)) == OffTree(r) - (if own != -1 then r.isl - r.hitTokens else 0)
  {
  }

  /** A finished prefill: the request decodes on, holding the segment its prompt ends in. */
  lemma GrownWorld(reqs: seq<Req>, b: seq<Entry>, c: Tree, d: Tree, plays: seq<Play>, nextn: nat, t: int, own: int,
                   now: real)
    requires Inv(c, plays) && Inv(d, plays) && World(reqs, b, c, plays, true, nextn) && b != [] && b[0].prefill
    requires b[0].req < |reqs| && Fits(reqs[b[0].req], plays) && reqs[b[0].req].prefillLeft == b[0].tokens
    requires reqs[b[0].req].hitNode in c && t != reqs[b[0].req].hitNode && t != own && t !in c && own !in c
    requires reqs[b[0].req].hitBlocks < plays[reqs[b[0].req].play].reqs[reqs[b[0].req].tr].count
    requires var r := reqs[b[0].req];
      d == Insert(c, r.hitNode, t, own, r.tr, plays[r.play].reqs[r.tr].count - r.hitBlocks, now)
    ensures var r := Grown(reqs[b[0].req], b[0].tokens, own); (
      own != -1 && World(reqs[b[0].req := r], b[1..], d, plays, true, nextn) &&
      OffTreeSum(reqs[b[0].req := r]) == OffTreeSum(reqs) - (r.isl - r.hitTokens))
  {
    hide Inv, Fixed, PinsExact, Owns, OthersFixed, ReqOk, ReqsOk, BatchOk, Grounded, Insert, BlockSeg;
    var i := b[0].req;
    var r := reqs[i];
    GrowFrom(reqs, b, c, plays, nextn, now);
    EntryReq(reqs, b, c, plays, true, nextn);
    InsertFirm(c, d, plays, r.hitNode, t, own, r.play, r.tr, r.hitBlocks,
               plays[r.play].reqs[r.tr].count - r.hitBlocks, now);
    GrowReq(r, b[0].tokens, c, plays, true);
    FirmGrounded(c, d, plays, r.hitNode, r.play, r.tr, r.hitBlocks);
    GrownOk(r, b[0].tokens, own, c, d, plays, true);
    BatchRest(reqs, b, nextn, Grown(r, b[0].tokens, own));
    OffTreeUpdate(reqs, i, Grown(r, b[0].tokens, own));
    hide Firm;
    FirmOthers(reqs, c, d, plays, i);
    OneWorld(reqs, b, b[1..], c, d, plays, true, nextn, i, Grown(r, b[0].tokens, own));
  }

  /** The same without a prefix cache. */
  lemma GrownPlain(reqs: seq<Req>, b: seq<Entry>, c: Tree, plays: seq<Play>, nextn: nat)
    requires Inv(c, plays) && World(reqs, b, c, plays, false, nextn) && b != [] && b[0].prefill
    requires b[0].req < |reqs| && reqs[b[0].req].prefillLeft == b[0].tokens
    ensures var r := Grown(reqs[b[0].req], b[0].tokens, -1); (
      World(reqs[b[0].req := r], b[1..], c, plays, false, nextn) && OffTreeSum(reqs[b[0].req := r]) == OffTreeSum(reqs))
  {
    hide World;
    EntryReq(reqs, b, c, plays, false, nextn);
    GrowReq(reqs[b[0].req], b[0].tokens, c, plays, false);
    GrownOk(reqs[b[0].req], b[0].tokens, -1, c, c, plays, false);
    hide ReqOk;
    GrownNodes(reqs[b[0].req], b[0].tokens, c, plays);
    CommitWorld(reqs, b, c, plays, false, nextn, Grown(reqs[b[0].req], b[0].tokens, -1));
  }

  lemma GrownNodes(r: Req, tok: int, c: Tree, plays: seq<Play>)
    requires Inv(c, plays) && ReqOk(r, tok, c, plays, false) && r.st.Prefill?
    ensures r.ownNode == -1
  {
  }

  // ---- completion ----

  lemma TailTop(c: Tree, x: int, tail: nat)
    requires x in c && PinnedTop(c)
    ensures PinnedTop(KvTree.SetTail(c, x, tail))
    ensures forall i :: i in c && i != x && c[i].tail == 0 ==> KvTree.SetTail(c, x, tail)[i].tail == 0
  {
  }

  lemma AllPinned(reqs: seq<Req>, c: Tree, d: Tree, i: nat)
    requires PinsExact(reqs, c) && i < |reqs| && forall n :: Held(d, n) >= Held(c, n) - Holds(reqs[i], n)
    ensures forall j :: 0 <= j < |reqs| && j != i ==>
      (reqs[j].hitNode != -1 ==> reqs[j].hitNode in d && d[reqs[j].hitNode].pins > 0) &&
      (reqs[j].ownNode != -1 ==> reqs[j].ownNode in d && d[reqs[j].ownNode].pins > 0)
  {
    OthersPinned(reqs, c, d, i);
  }

  /** Writing the output and giving back both pins leaves every other holder alone. */
  lemma LeaveStep(reqs: seq<Req>, c: Tree, e: Tree, f: Tree, g: Tree, plays: seq<Play>, i: nat)
    requires Inv(c, plays) && Inv(e, plays) && Inv(f, plays) && Inv(g, plays) && PinsExact(reqs, c) && PinnedTop(c) &&
      i < |reqs|
    requires OwnFacts(reqs[i], c) && reqs[i].hitNode in c && c[reqs[i].hitNode].pins > 0 &&
      reqs[i].hitNode != reqs[i].ownNode
    requires reqs[i].generated > 0 && e == KvTree.SetTail(c, reqs[i].ownNode, reqs[i].generated - 1)
    requires f == AddPins(e, reqs[i].ownNode, -1) && reqs[i].hitNode in f && g == AddPins(f, reqs[i].hitNode, -1)
    requires reqs[i].hitNode != -1 && reqs[i].ownNode != -1
    ensures OthersFixed(reqs, c, g, plays, i) && PinnedTop(g)
    ensures forall n :: Held(g, n) == Held(c, n) - Holds(reqs[i], n)
    ensures forall n :: n in c && n != reqs[i].ownNode && c[n].tail == 0 ==> n in g && g[n].tail == 0
  {
    hide Inv, Fixed, OthersFixed, PinsExact, Firm, CanPin;
    var x, y := reqs[i].ownNode, reqs[i].hitNode;
    TailFirm(c, plays, x, reqs[i].generated - 1);
    TailTop(c, x, reqs[i].generated - 1);
    FirmOthers(reqs, c, e, plays, i);
    AllPinned(reqs, c, e, i);
    GiveBack(reqs, e, plays, i, x);
    AllPinned(reqs, c, f, i);
    GiveBack(reqs, f, plays, i, y);
    OthersTrans(reqs, c, e, f, plays, i);
    OthersTrans(reqs, c, f, g, plays, i);
  }

  lemma OwnsLeft(reqs: seq<Req>, c: Tree, d: Tree, i: nat, r: Req)
    requires Owns(reqs, c) && i < |reqs| && r.ownNode == -1
    requires forall n :: n in c && n != reqs[i].ownNode && c[n].tail == 0 ==> n in d && d[n].tail == 0
    ensures Owns(reqs[i := r], d)
  {
  }

  lemma FinishedOk(r: Req, c: Tree, d: Tree, plays: seq<Play>, caches: bool)
    requires Inv(c, plays) && Inv(d, plays) && ReqOk(r, 0, c, plays, caches) && r.st.Decode? && r.generated == r.osl
    ensures ReqOk(Finished(r), 0, d, plays, caches)
    ensures OffTree(r) == (if r.ownNode == -1 then r.alloc else r.generated - 1)
  {
  }

  lemma FinishedWorld(reqs: seq<Req>, b: seq<Entry>, c: Tree, e: Tree, f: Tree, g: Tree, plays: seq<Play>, nextn: nat,
                      i: nat)
    requires Inv(c, plays) && Inv(e, plays) && Inv(f, plays) && Inv(g, plays) && World(reqs, b, c, plays, true, nextn)
    requires i < |reqs| && reqs[i].st.Decode? && reqs[i].generated == reqs[i].osl && forall x :: x in b ==> x.req != i
    requires reqs[i].ownNode in c && reqs[i].generated > 0 &&
      e == KvTree.SetTail(c, reqs[i].ownNode, reqs[i].generated - 1)
    requires f == AddPins(e, reqs[i].ownNode, -1) && reqs[i].hitNode in f && g == AddPins(f, reqs[i].hitNode, -1)
    requires reqs[i].hitNode != -1 && reqs[i].ownNode != -1
    ensures World(reqs[i := Finished(reqs[i])], b, g, plays, true, nextn)
    ensures OffTreeSum(reqs[i := Finished(reqs[i])]) == OffTreeSum(reqs) - (reqs[i].generated - 1)
  {
    hide Inv, Fixed, OthersFixed, PinsExact, ReqsOk, Owns, BatchOk, ReqOk, CanPin;
    var r := reqs[i];
    ActiveFacts(reqs, b, c, plays, true, nextn, i);
    LeaveStep(reqs, c, e, f, g, plays, i);
    BatchOthers(reqs, b, nextn, i, Finished(r));
    FinishedOk(r, c, g, plays, true);
    OneReqOk(reqs, b, b, c, g, plays, true, i, Finished(r));
    OnePins(reqs, c, g, i, Finished(r));
    OwnsLeft(reqs, c, g, i, Finished(r));
    OffTreeUpdate(reqs, i, Finished(r));
  }

  lemma FinishedPlain(reqs: seq<Req>, b: seq<Entry>, c: Tree, plays: seq<Play>, nextn: nat, i: nat)
    requires Inv(c, plays) && World(reqs, b, c, plays, false, nextn)
    requires i < |reqs| && reqs[i].st.Decode? && reqs[i].generated == reqs[i].osl && forall x :: x in b ==> x.req != i
    ensures World(reqs[i := Finished(reqs[i])], b, c, plays, false, nextn)
    ensures OffTreeSum(reqs[i := Finished(reqs[i])]) == OffTreeSum(reqs) - reqs[i].alloc
  {
    hide Inv, Fixed, OthersFixed, PinsExact, ReqsOk, Owns, BatchOk, ReqOk, Firm;
    var r := reqs[i];
    ActiveFacts(reqs, b, c, plays, false, nextn, i);
    BatchOthers(reqs, b, nextn, i, Finished(r));
    FinishedOk(r, c, c, plays, false);
    FirmRefl(c, plays);
    FirmOthers(reqs, c, c, plays, i);
    OffTreeUpdate(reqs, i, Finished(r));
    OneWorld(reqs, b, b, c, c, plays, false, nextn, i, Finished(r));
  }

  /** Completed requests stay listed as running until the pass has committed. */
  lemma QueuesFinish(reqs: seq<Req>, waiting: seq<nat>, running: seq<nat>, loading: set<nat>, done: set<nat>, i: nat,
                     r: Req)
    requires Queues(reqs, waiting, running, loading, done) && i < |reqs| && Active(reqs[i]) && r.st.Done?
    ensures Queues(reqs[i := r], waiting, running, loading, done + {i})
  {
  }

  function Least(a: int, b: int): int {
    if a < b then a else b
  }

  /** Tokens a decode step adds to the output: one, and what was speculated right, up to the length asked for. */
  function Produced(r: Req, accepted: nat): int {
    Least(1 + accepted, r.osl - r.generated)
  }

  /** What committing entry e makes of its request; `own` is the segment its prompt ends in. */
  function After(r: Req, e: Entry, accepted: nat, own: int): Req {
    if e.prefill && r.prefillLeft > e.tokens then Computed(r, e.tokens)
    else
      var s := if e.prefill then Grown(r, e.tokens, own) else StepOn(r, e.tokens, MaxZero(Produced(r, accepted)));
      if s.generated >= s.osl then Finished(s) else s
  }

  ghost predicate AllDone(reqs: seq<Req>, done: set<nat>) {
    forall i :: i in done ==> i < |reqs| && reqs[i].st.Done?
  }

  lemma RunningEntry(reqs: seq<Req>, b: seq<Entry>, c: Tree, plays: seq<Play>, caches: bool, nextn: nat,
                     waiting: seq<nat>, running: seq<nat>, loading: set<nat>, done: set<nat>)
    requires Inv(c, plays) && World(reqs, b, c, plays, caches, nextn) && b != []
    requires Queues(reqs, waiting, running, loading, done) && AllDone(reqs, done)
    ensures b[0].req < |reqs| && Unfinished(reqs[b[0].req]) && EntryOk(reqs, b[0], nextn) && b[0].req !in done
    ensures forall e :: e in b[1..] ==> e.req != b[0].req
  {
  }

  lemma QueuesGrow(reqs: seq<Req>, waiting: seq<nat>, running: seq<nat>, loading: set<nat>, done: set<nat>, i: nat,
                   r: Req)
    requires Queues(reqs, waiting, running, loading, done) && i < |reqs| && Active(reqs[i]) && Active(r)
    ensures Queues(reqs[i := r], waiting, running, loading, done + {i})
    ensures Unfinished(r) ==> Queues(reqs[i := r], waiting, running, loading, done)
  {
  }

  /** The running list without the requests that are done, in order. */
  function StillRunning(reqs: seq<Req>, running: seq<nat>): seq<nat> {
    if running == [] then []
    else
      var i := running[|running| - 1];
      StillRunning(reqs, running[..|running| - 1]) + (if i < |reqs| && Active(reqs[i]) then [i] else [])
  }

  lemma {:induction false} StillIn(reqs: seq<Req>, running: seq<nat>)
    ensures forall i :: i in StillRunning(reqs, running) <==> i in running && i < |reqs| && Active(reqs[i])
    decreases |running|
  {
    if running != [] {
      var n := |running| - 1;
      StillIn(reqs, running[..n]);
      assert running == running[..n] + [running[n]];
      hide Active;
      forall i
        ensures i in StillRunning(reqs, running) <==> i in running && i < |reqs| && Active(reqs[i])
      {
        assert i in running <==> i in running[..n] || i == running[n];
      }
    }
  }

  lemma {:induction false} StillDistinct(reqs: seq<Req>, running: seq<nat>)
    requires Distinct(running)
    ensures Distinct(StillRunning(reqs, running))
    decreases |running|
  {
    if running != [] {
      var n := |running| - 1;
      StillDistinct(reqs, running[..n]);
      StillIn(reqs, running[..n]);
      assert running[n] !in running[..n];
    }
  }

  lemma QueuesSettle(reqs: seq<Req>, waiting: seq<nat>, running: seq<nat>, loading: set<nat>, done: set<nat>)
    requires Queues(reqs, waiting, running, loading, done) && AllDone(reqs, done)
    ensures Queues(reqs, waiting, StillRunning(reqs, running), loading, {})
  {
    StillIn(reqs, running);
    StillDistinct(reqs, running);
  }

  lemma FitsAt(r: Req, plays: seq<Play>)
    requires Fits(r, plays)
    ensures r.play < |plays| && r.tr < |plays[r.play].reqs|
  {
  }

  lemma OwnThere(r: Req, pend: int, c: Tree, plays: seq<Play>)
    requires Inv(c, plays) && ReqOk(r, pend, c, plays, true) && r.st.Decode?
    ensures r.ownNode in c && r.ownNode != -1 && r.hitNode != -1 && r.hitNode in c && r.generated > 0 &&
      c[r.ownNode].parent != -1
  {
    NeverLive(c);
  }

  lemma StillCanPin(c: Tree, e: Tree, plays: seq<Play>, r: Req)
    requires Inv(c, plays) && Inv(e, plays) && OwnFacts(r, c) && PinnedTop(c) && r.generated > 0
    requires e == KvTree.SetTail(c, r.ownNode, r.generated - 1)
    requires r.hitNode in c && Held(c, r.hitNode) > 0 && c[r.hitNode].tier == 0
    ensures r.ownNode in e && CanPin(e, r.ownNode, -1) && PinnedTop(e)
    ensures r.hitNode in e && Held(e, r.hitNode) > 0
  {
    CanUnpin(e, r.ownNode);
  }

  lemma StillCanPinHit(e: Tree, f: Tree, plays: seq<Play>, r: Req)
    requires Inv(e, plays) && Inv(f, plays) && PinnedTop(e) && r.ownNode in e && f == AddPins(e, r.ownNode, -1)
    requires r.hitNode in e && Held(e, r.hitNode) > 0 && r.hitNode != r.ownNode
    ensures r.hitNode in f && CanPin(f, r.hitNode, -1)
  {
  }

  /** Output tokens move from the request's account to the tree. */
  lemma BookedTail(used: seq<int>, c: Tree, plays: seq<Play>, off: int, x: int, tail: nat)
    requires Inv(c, plays) && Booked(used, c, plays, off) && x in c && c[x].parent != -1 && c[x].tail == 0 &&
      c[x].tier == 0
    ensures Booked(used, KvTree.SetTail(c, x, tail), plays, off - tail)
  {
    SetTailInv(c, plays, x, tail);
  }

  lemma BookedCharge(used: seq<int>, c: Tree, plays: seq<Play>, off: int, tok: int)
    requires Booked(used, c, plays, off)
    ensures Booked(used[0 := used[0] + tok], c, plays, off + tok)
  {
  }

  /** A prefix pinned for an admission is kept while room is made for the first chunk. */
  lemma AdmittedCached(reqs: seq<Req>, b: seq<Entry>, c: Tree, m: Tree, d: Tree, plays: seq<Play>, nextn: nat,
                       i: nat, p: int, blocks: nat)
    requires Inv(c, plays) && Inv(m, plays) && Inv(d, plays) && World(reqs, b, c, plays, true, nextn)
    requires i < |reqs| && reqs[i].st.Queued? && Fits(reqs[i], plays)
    requires blocks < plays[reqs[i].play].reqs[reqs[i].tr].count && OnePinMore(c, m, plays, p)
    requires Grounded(m, plays, p, reqs[i].play, reqs[i].tr, blocks) && Sheds(m, d, 0)
    ensures OnePinMore(c, d, plays, p) && p in d && d[p].pins > 0 && CanPin(d, p, -1) && p != -1
    ensures var r := AdmittedReq(reqs[i], p, blocks, plays[reqs[i].play].blockSize); (
      World(reqs[i := r], b, d, plays, true, nextn) && OffTreeSum(reqs[i := r]) == OffTreeSum(reqs) &&
        r.prefillLeft > 0 &&
      Unfinished(r))
  {
    hide Inv, World, OnePinMore, Grounded, Sheds, CanPin;
    OnePinKept(c, m, d, plays, p);
    PinnedGrounded(c, m, d, plays, p, reqs[i].play, reqs[i].tr, blocks);
    AdmittedWorld(reqs, b, c, d, plays, true, nextn, i, p, blocks);
  }

  lemma PinBackWorld(reqs: seq<Req>, b: seq<Entry>, c: Tree, d: Tree, plays: seq<Play>, nextn: nat, p: int)
    requires Inv(c, plays) && Inv(d, plays) && OnePinMore(c, d, plays, p) && p in d && d[p].pins > 0
    requires Inv(AddPins(d, p, -1), plays) && World(reqs, b, c, plays, true, nextn)
    ensures World(reqs, b, AddPins(d, p, -1), plays, true, nextn)
  {
    hide Inv, World, OnePinMore;
    OnePinBack(c, d, plays, p);
    WorldTree(reqs, b, c, AddPins(d, p, -1), plays, true, nextn);
  }

  lemma DecodeTop(reqs: seq<Req>, b: seq<Entry>, c: Tree, plays: seq<Play>, caches: bool, nextn: nat, i: nat)
    requires Inv(c, plays) && World(reqs, b, c, plays, caches, nextn) && i < |reqs|
    ensures reqs[i].generated <= reqs[i].osl && reqs[i].osl > 0
  {
  }

  ghost predicate DistinctReqs(b: seq<Entry>) {
    forall j, k {:trigger b[j], b[k]} :: 0 <= j < k < |b| ==> b[j].req != b[k].req
  }

  /** The first k entries of the batch took effect, each on its own request; nothing else changed. */
  ghost predicate Committed(reqs0: seq<Req>, reqs: seq<Req>, b: seq<Entry>, accepts: seq<nat>, k: nat) {
    && |reqs| == |reqs0| && k <= |b| == |accepts|
    && (forall j {:trigger b[j]} :: 0 <= j < k ==> CommittedAt(reqs0, reqs, b[j], accepts[j]))
    && (forall i {:trigger reqs[i]} :: 0 <= i < |reqs| && (forall j :: 0 <= j < k ==> b[j].req != i) ==>
      reqs[i] == reqs0[i])
  }

  ghost predicate CommittedAt(reqs0: seq<Req>, reqs: seq<Req>, e: Entry, accepted: nat) {
    && e.req < |reqs0| && e.req < |reqs|
    && reqs[e.req] == After(reqs0[e.req], e, accepted, reqs[e.req].ownNode)
  }

  lemma NothingCommitted(reqs: seq<Req>, c: Tree, plays: seq<Play>, caches: bool, nextn: nat, b: seq<Entry>,
                         accepts: seq<nat>)
    requires Inv(c, plays) && World(reqs, b, c, plays, caches, nextn) && |accepts| == |b|
    ensures DistinctReqs(b) && Committed(reqs, reqs, b, accepts, 0) && AllDone(reqs, {})
  {
  }

  lemma CommittedMore(reqs0: seq<Req>, reqs1: seq<Req>, reqs: seq<Req>, b: seq<Entry>, accepts: seq<nat>, k: nat)
    requires Committed(reqs0, reqs1, b, accepts, k) && DistinctReqs(b) && k < |b| == |accepts|
    requires b[k].req < |reqs| == |reqs1| && reqs == reqs1[b[k].req := reqs[b[k].req]]
    requires reqs[b[k].req] == After(reqs1[b[k].req], b[k], accepts[k], reqs[b[k].req].ownNode)
    ensures Committed(reqs0, reqs, b, accepts, k + 1)
  {
  }

  /** What committing entry e did to its request, from r to s, in numbers: a chunk of the prompt is computed, the last
      of them yields the first token, and a decode step yields one token and the accepted drafts, up to the length asked
      for. Only tokens that were not produced are given back. */
  ghost predicate MovedOn(r: Req, s: Req, e: Entry, accepted: nat) {
    && s == r.(st := s.st, past := s.past, prefillLeft := s.prefillLeft, generated := s.generated, itl := s.itl,
               alloc := s.alloc, hitNode := s.hitNode, ownNode := s.ownNode)
    && (if e.prefill then
          && s.past == r.past + e.tokens && s.prefillLeft == r.prefillLeft - e.tokens
          && s.itl == r.itl && s.alloc == r.alloc
          && s.generated == (if s.prefillLeft == 0 && r.generated == 0 then 1 else r.generated)
        else
          && s.generated == (if r.generated + 1 + accepted < r.osl then r.generated + 1 + accepted else r.osl)
          && s.past - r.past == s.itl - r.itl == s.generated - r.generated == e.tokens - (r.alloc - s.alloc)
          && s.prefillLeft == r.prefillLeft)
    && s.st == (if e.prefill && s.prefillLeft > 0 then Prefill else if s.generated == s.osl then Done else Decode)
    && (if s.st.Done? then s.hitNode == s.ownNode == -1 else s.hitNode == r.hitNode)
  }

  lemma CommittedMoved(reqs0: seq<Req>, reqs: seq<Req>, b: seq<Entry>, accepts: seq<nat>, c: Tree, plays: seq<Play>,
                       caches: bool, nextn: nat, j: nat)
    requires Inv(c, plays) && World(reqs0, b, c, plays, caches, nextn) && Committed(reqs0, reqs, b, accepts, |b|)
    requires j < |b| && b[j].req < |reqs0| && Unfinished(reqs0[b[j].req])
    ensures b[j].req < |reqs| && MovedOn(reqs0[b[j].req], reqs[b[j].req], b[j], accepts[j])
  {
    hide Inv, PinsExact, Owns, HitOk, OwnOk, Fits;
    assert EntryOk(reqs0, b[j], nextn) && CommittedAt(reqs0, reqs, b[j], accepts[j]);
    assert ReqOk(reqs0[b[j].req], Pend(b, b[j].req), c, plays, caches);
  }

  ghost predicate AllMovedOn(reqs0: seq<Req>, reqs: seq<Req>, b: seq<Entry>, accepts: seq<nat>) {
    |reqs0| == |reqs| && |accepts| == |b| && forall j {:trigger b[j]} :: 0 <= j < |b| ==>
      b[j].req < |reqs| && MovedOn(reqs0[b[j].req], reqs[b[j].req], b[j], accepts[j])
  }

  lemma AllMoved(reqs0: seq<Req>, reqs: seq<Req>, b: seq<Entry>, accepts: seq<nat>, c: Tree, plays: seq<Play>,
                 caches: bool, nextn: nat, waiting: seq<nat>, running: seq<nat>, loading: set<nat>)
    requires Inv(c, plays) && World(reqs0, b, c, plays, caches, nextn) && Committed(reqs0, reqs, b, accepts, |b|)
    requires Queues(reqs0, waiting, running, loading, {})
    ensures AllMovedOn(reqs0, reqs, b, accepts)
  {
    hide Inv, PinsExact, Owns, ReqsOk, MovedOn;
    forall j | 0 <= j < |b|
      ensures b[j].req < |reqs0| == |reqs| && MovedOn(reqs0[b[j].req], reqs[b[j].req], b[j], accepts[j])
    {
      assert EntryOk(reqs0, b[j], nextn);
      CommittedMoved(reqs0, reqs, b, accepts, c, plays, caches, nextn, j);
    }
  }

  // ---- arrivals ----

  function Arrived(r: Req): Req {
    r.(st := Queued, hitNode := -1)
  }

  lemma InFlightHeld(reqs: seq<Req>, b: seq<Entry>, c: Tree, plays: seq<Play>, caches: bool, nextn: nat, i: nat)
    requires Inv(c, plays) && World(reqs, b, c, plays, caches, nextn) && i < |reqs| && reqs[i].st.Loading?
    ensures reqs[i].hitNode in c && reqs[i].hitNode != -1 && c[reqs[i].hitNode].pins > 0 &&
      CanPin(c, reqs[i].hitNode, -1)
    ensures reqs[i].ownNode == -1 && reqs[i].alloc == 0
  {
    hide Owns, BatchOk;
    assert ReqOk(reqs[i], Pend(b, i), c, plays, caches);
    HoldersOne(reqs, i, reqs[i].hitNode);
    NeverLive(c);
    CanUnpin(c, reqs[i].hitNode);
  }

  lemma ArrivedOk(r: Req, pend: int, c: Tree, d: Tree, plays: seq<Play>, caches: bool)
    requires Inv(c, plays) && Inv(d, plays) && ReqOk(r, pend, c, plays, caches) && r.st.Loading?
    ensures ReqOk(Arrived(r), 0, d, plays, caches)
  {
  }

  lemma ArrivedWorld(reqs: seq<Req>, b: seq<Entry>, c: Tree, d: Tree, plays: seq<Play>, caches: bool, nextn: nat,
                     i: nat)
    requires Inv(c, plays) && Inv(d, plays) && World(reqs, b, c, plays, caches, nextn) && i < |reqs| &&
      reqs[i].st.Loading?
    requires reqs[i].hitNode in c && c[reqs[i].hitNode].pins > 0 && d == AddPins(c, reqs[i].hitNode, -1)
    ensures World(reqs[i := Arrived(reqs[i])], b, d, plays, caches, nextn)
    ensures OffTreeSum(reqs[i := Arrived(reqs[i])]) == OffTreeSum(reqs)
  {
    hide Inv, Fixed, PinsExact, Owns, BatchOk, OthersFixed, ReqOk, CanPin;
    var r := Arrived(reqs[i]);
    InFlightHeld(reqs, b, c, plays, caches, nextn, i);
    assert ReqOk(reqs[i], Pend(b, i), c, plays, caches);
    hide ReqsOk;
    ArrivedOk(reqs[i], Pend(b, i), c, d, plays, caches);
    NotInBatch(reqs, b, nextn, i);
    BatchOthers(reqs, b, nextn, i, r);
    OffTreeUpdate(reqs, i, r);
    AllPinned(reqs, c, c, i);
    GiveBack(reqs, c, plays, i, reqs[i].hitNode);
    OneWorld(reqs, b, b, c, d, plays, caches, nextn, i, r);
  }

  lemma EnqueuedOk(r: Req, pend: int, c: Tree, plays: seq<Play>, caches: bool)
    requires Inv(c, plays) && ReqOk(r, pend, c, plays, caches) && r.st.Pending?
    ensures ReqOk(r.(st := Queued), 0, c, plays, caches)
  {
  }

  lemma EnqueuedWorld(reqs: seq<Req>, b: seq<Entry>, c: Tree, plays: seq<Play>, caches: bool, nextn: nat, i: nat)
    requires Inv(c, plays) && World(reqs, b, c, plays, caches, nextn) && i < |reqs| && reqs[i].st.Pending?
    ensures World(reqs[i := reqs[i].(st := Queued)], b, c, plays, caches, nextn)
    ensures OffTreeSum(reqs[i := reqs[i].(st := Queued)]) == OffTreeSum(reqs)
  {
    hide Inv, Fixed, PinsExact, Owns, BatchOk, OthersFixed, ReqOk, Firm;
    var r := reqs[i].(st := Queued);
    assert ReqOk(reqs[i], Pend(b, i), c, plays, caches);
    EnqueuedOk(reqs[i], Pend(b, i), c, plays, caches);
    hide ReqsOk;
    NotInBatch(reqs, b, nextn, i);
    BatchOthers(reqs, b, nextn, i, r);
    OffTreeUpdate(reqs, i, r);
    FirmRefl(c, plays);
    FirmOthers(reqs, c, c, plays, i);
    OneWorld(reqs, b, b, c, c, plays, caches, nextn, i, r);
  }

  lemma QueuesFront(reqs: seq<Req>, waiting: seq<nat>, running: seq<nat>, loading: set<nat>, i: nat, r: Req)
    requires Queues(reqs, waiting, running, loading, {}) && i < |reqs| && reqs[i].st.Loading? && r.st.Queued?
    ensures Queues(reqs[i := r], [i] + waiting, running, loading - {i}, {}) && i in loading
  {
  }

  lemma QueuesBack(reqs: seq<Req>, waiting: seq<nat>, running: seq<nat>, loading: set<nat>, i: nat, r: Req)
    requires Queues(reqs, waiting, running, loading, {}) && i < |reqs| && reqs[i].st.Pending? && r.st.Queued?
    ensures Queues(reqs[i := r], waiting + [i], running, loading, {})
  {
  }

  // ---- what no step takes back ----

  /** A request keeps its prompt and its length, never loses output, and once done stays as it is. */
  ghost predicate OnwardReq(r: Req, s: Req) {
    && s.play == r.play && s.tr == r.tr && s.isl == r.isl && s.osl == r.osl
    && s.generated >= r.generated && s.itl >= r.itl
    && (s.st.Pending? ==> r.st.Pending?)
    && (r.st.Done? ==> s == r)
  }

  ghost predicate Onward(reqs0: seq<Req>, reqs: seq<Req>) {
    |reqs| == |reqs0| && forall i {:trigger reqs[i]} {:trigger reqs0[i]} :: 0 <= i < |reqs| ==>
      OnwardReq(reqs0[i], reqs[i])
  }

  lemma OnwardSelf(reqs: seq<Req>)
    ensures Onward(reqs, reqs)
  {
  }

  lemma OnwardOne(reqs: seq<Req>, i: nat, r: Req)
    requires i < |reqs| && OnwardReq(reqs[i], r)
    ensures Onward(reqs, reqs[i := r])
  {
  }

  lemma OnwardTrans(reqs0: seq<Req>, reqs1: seq<Req>, reqs: seq<Req>)
    requires Onward(reqs0, reqs1) && Onward(reqs1, reqs)
    ensures Onward(reqs0, reqs) && |reqs| == |reqs1| == |reqs0|
  {
  }

  // ---- what scheduling may do ----

  /** Prompt and output together exceed the whole device tier. */
  predicate TooBig(r: Req, room: int) {
    r.isl + MaxZero(r.osl - 1) > room
  }

  /** Forming a batch moves requests between queue, loads and running list. It produces no output, leaves requests
      alone that are yet to arrive, loading or done, fails only what can never fit, and admits only what can. */
  ghost predicate PlannedReq(r: Req, s: Req, room: int) {
    && s.play == r.play && s.tr == r.tr && s.isl == r.isl && s.osl == r.osl
    && s.generated == r.generated && s.itl == r.itl
    && (r.st.Pending? || r.st.Loading? || r.st.Done? ==> s == r)
    && (s.st.Pending? ==> r.st.Pending?)
    && (s.st.Decode? ==> r.st.Decode?)
    && (s.st.Done? && !r.st.Done? ==> s.failed && TooBig(r, room))
    && (s.failed ==> r.failed || s.st.Done?)
    && (r.st.Queued? && (s.st.Loading? || Active(s)) ==> !TooBig(r, room))
  }

  ghost predicate Planned(reqs0: seq<Req>, reqs: seq<Req>, room: int) {
    |reqs| == |reqs0| && forall i {:trigger reqs[i]} {:trigger reqs0[i]} :: 0 <= i < |reqs| ==>
      PlannedReq(reqs0[i], reqs[i], room)
  }

  lemma PlannedSelf(reqs: seq<Req>, room: int)
    ensures Planned(reqs, reqs, room)
  {
  }

  lemma PlannedOne(reqs: seq<Req>, i: nat, r: Req, room: int)
    requires i < |reqs| && PlannedReq(reqs[i], r, room)
    ensures Planned(reqs, reqs[i := r], room)
  {
  }

  lemma PlannedTrans(reqs0: seq<Req>, reqs1: seq<Req>, reqs: seq<Req>, room: int)
    requires Planned(reqs0, reqs1, room) && Planned(reqs1, reqs, room)
    ensures Planned(reqs0, reqs, room) && |reqs| == |reqs1| == |reqs0|
  {
  }

  lemma PlannedOnward(reqs0: seq<Req>, reqs: seq<Req>, room: int)
    requires Planned(reqs0, reqs, room)
    ensures Onward(reqs0, reqs)
  {
  }

  /** Only requests too big for the device tier fail, and none of those is ever admitted. */
  ghost predicate Judged(reqs: seq<Req>, room: int) {
    forall i {:trigger reqs[i]} :: 0 <= i < |reqs| ==> JudgedReq(reqs[i], room)
  }

  ghost predicate JudgedReq(r: Req, room: int) {
    var most := r.isl + (if r.osl > 0 then r.osl - 1 else 0);
    && (r.failed ==> most > room)
    && (r.st.Loading? || Active(r) || (r.st.Done? && !r.failed) ==> most <= room)
  }

  lemma JudgedPlanned(reqs0: seq<Req>, reqs: seq<Req>, room: int)
    requires Judged(reqs0, room) && Planned(reqs0, reqs, room)
    ensures Judged(reqs, room)
  {
  }

  lemma JudgedQueued(reqs: seq<Req>, i: nat, r: Req, room: int)
    requires Judged(reqs, room) && i < |reqs| && r.st.Queued? && r.isl == reqs[i].isl && r.osl == reqs[i].osl &&
      r.failed == reqs[i].failed
    ensures Judged(reqs[i := r], room)
  {
  }

  lemma WorldBatch(reqs: seq<Req>, b: seq<Entry>, c: Tree, plays: seq<Play>, caches: bool, nextn: nat)
    requires Inv(c, plays) && World(reqs, b, c, plays, caches, nextn)
    ensures BatchOk(reqs, b, nextn)
  {
  }

  lemma JudgedCommitted(reqs0: seq<Req>, reqs: seq<Req>, b: seq<Entry>, accepts: seq<nat>, nextn: nat, room: int)
    requires Judged(reqs0, room) && Committed(reqs0, reqs, b, accepts, |b|) && BatchOk(reqs0, b, nextn)
    ensures Judged(reqs, room)
  {
  }

  /** The segment a request inserted still begins where its cached prefix ended: no split took part of it away. */
  predicate WholeOwn(r: Req, c: Tree) {
    r.ownNode != -1 && r.ownNode in c ==> c[r.ownNode].start == r.hitBlocks
  }

  /** A preemption gives back too much exactly when the request's own segment was split. */
  lemma PreemptLeak(reqs: seq<Req>, b: seq<Entry>, c: Tree, plays: seq<Play>, caches: bool, nextn: nat, i: nat)
    requires Inv(c, plays) && World(reqs, b, c, plays, caches, nextn) && i < |reqs| && Active(reqs[i])
    ensures SplitOff(reqs[i], c, plays) >= 0 && (SplitOff(reqs[i], c, plays) == 0 <==> WholeOwn(reqs[i], c))
  {
    hide Inv, ReqsOk, PinsExact, Owns, BatchOk, ReqOk;
    ActiveFacts(reqs, b, c, plays, caches, nextn, i);
    SplitOffIs(reqs[i], Pend(b, i), c, plays, caches);
  }

  lemma ReqFits(reqs: seq<Req>, b: seq<Entry>, c: Tree, plays: seq<Play>, caches: bool, nextn: nat, i: nat)
    requires Inv(c, plays) && World(reqs, b, c, plays, caches, nextn) && i < |reqs|
    ensures Fits(reqs[i], plays)
  {
  }

  /** A preempted request's tokens go back, but for those its own segment keeps. */
  lemma BookedLetGo(used: seq<int>, c: Tree, d: Tree, plays: seq<Play>, off: int, kept: int, own: int, alloc: int)
    requires Booked(used, c, plays, off)
    requires forall t :: 0 <= t < |used| ==>
      TierTok(d, plays, t) == TierTok(c, plays, t) + (if t == 0 then kept - own else 0)
    ensures Booked(used[0 := used[0] - (alloc - kept)], d, plays, off - alloc + own)
  {
  }

  lemma OwnBound(reqs: seq<Req>, b: seq<Entry>, c: Tree, plays: seq<Play>, caches: bool, nextn: nat, i: nat)
    requires Inv(c, plays) && World(reqs, b, c, plays, caches, nextn) && i < |reqs| && Active(reqs[i])
    ensures OwnTok(reqs[i], c, plays) <= reqs[i].alloc && reqs[i].alloc >= 0
  {
    hide Inv, ReqsOk, PinsExact, Owns, BatchOk, Tok;
    ActiveFacts(reqs, b, c, plays, caches, nextn, i);
    EntryPend(reqs, b, nextn, i);
    SplitOffIs(reqs[i], Pend(b, i), c, plays, caches);
  }

  lemma {:induction false} EntryPend(reqs: seq<Req>, b: seq<Entry>, nextn: nat, i: nat)
    requires BatchOk(reqs, b, nextn)
    ensures Pend(b, i) >= 0
    decreases |b|
  {
    if b != [] {
      var n := |b| - 1;
      assert EntryOk(reqs, b[n], nextn);
      forall j | 0 <= j < n
        ensures EntryOk(reqs, b[..n][j], nextn)
      {
        assert EntryOk(reqs, b[j], nextn);
      }
      EntryPend(reqs, b[..n], nextn, i);
    }
  }
}
