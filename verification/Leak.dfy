/** A run from an empty cache in which a preemption refunds a token whose block stays in the tree. */
module Leak {
  import opened KvTree
  import opened KvHolds
  import opened Requests
  import opened KvCache
  import opened Planning
  import opened Scheduler

  // One play with three prompts: block 1 alone, blocks 7 and 8, blocks 7 and 9. The device tier holds three blocks.
  const PLAY := Play(1, [1, 7, 8, 7, 9], [Slice(0, 1), Slice(1, 2), Slice(3, 2)])
  const PLAYS := [PLAY]
  const ROOM := 3
  const CFG := Config(true, true, 10, false, 1, 10, 10, 0)

  function Fresh(tr: nat, isl: nat, osl: nat): Req {
    Req(0, tr, Pending, -1, -1, 0, 0, isl, osl, isl, 0, 0, 0, false, 0, false)
  }

  /** The request that decodes throughout, the one preempted for it, and the one whose admission splits the second's
      segment. */
  const ELDER := Fresh(0, 1, 2)
  const VICTIM := Fresh(1, 2, 2)
  const SPLITTER := Fresh(2, 2, 1)

  lemma GoodPlay()
    ensures Untouched(ELDER, PLAYS) && Untouched(VICTIM, PLAYS) && Untouched(SPLITTER, PLAYS)
  {
    assert Chained(PLAY) by {
      forall r, s, a, b | 0 <= r < 3 && 0 <= s < 3 && Covers(PLAY, r, a) && Covers(PLAY, s, b)
        && PLAY.hashes[PLAY.reqs[r].begin + a] == PLAY.hashes[PLAY.reqs[s].begin + b]
        ensures a == b && SameBlocks(PLAY, r, s, a + 1)
      {
      }
    }
  }

  // ---- the trees of the run ----

  ghost predicate Node(n: Seg, parent: int, kids: seq<int>, start: nat, src: nat, nblocks: nat) {
    && n.play == 0 && n.parent == parent && n.kids == kids && n.start == start && n.src == src && n.nblocks == nblocks
    && n.tail == 0 && n.tier == 0
  }

  ghost predicate JustRoot(c: Tree, r: int) {
    c.Keys == {r} && r >= 0 && c[r].pins > 0 && Node(c[r], -1, [], 0, 0, 0)
  }

  ghost predicate OnePrompt(c: Tree, r: int, e: int) {
    && c.Keys == {r, e} && r >= 0 && r != e && e != -1 && c[r].pins > 0 && c[e].pins > 0
    && Node(c[r], -1, [e], 0, 0, 0) && Node(c[e], r, [], 0, 0, 1)
  }

  ghost predicate TwoPrompts(c: Tree, r: int, e: int, v: int) {
    && c.Keys == {r, e, v} && r >= 0 && r != e && e != -1 && v != -1 && v != r && v != e && c[r].pins > 0
    && c[e].pins > 0 && c[v].pins > 0
    && Node(c[r], -1, [v, e], 0, 0, 0) && Node(c[e], r, [], 0, 0, 1) && Node(c[v], r, [], 0, 1, 2)
  }

  ghost predicate Parted(c: Tree, r: int, e: int, v: int, p: int) {
    && c.Keys == {r, e, v, p} && r >= 0 && r != e && v != r && v != e && p != r && p != e && p != v && e != -1
    && v != -1
    && c[r].pins > 0 && c[e].pins > 0 && c[v].pins > 0
    && Node(c[r], -1, c[r].kids, 0, 0, 0) && Node(c[e], r, c[e].kids, 0, 0, 1)
    && Node(c[p], r, c[p].kids, 0, 1, 1) && Node(c[v], p, c[v].kids, 1, 1, 1)
  }

  lemma Parting(c: Tree, r: int, e: int, v: int, p: int)
    requires TwoPrompts(c, r, e, v) && p !in c && p >= 0
    ensures Parted(AddPins(Split(c, v, p, 1), p, 1), r, e, v, p) && AddPins(Split(c, v, p, 1), p, 1)[p].pins > 0
  {
  }

  lemma PartedStays(c: Tree, d: Tree, r: int, e: int, v: int, p: int)
    requires Parted(c, r, e, v, p) && c[p].pins > 0 && Sheds(c, d, 0)
    ensures Parted(d, r, e, v, p) && Parted(AddPins(d, p, -1), r, e, v, p)
  {
  }

  lemma RootTok(c: Tree, r: int)
    requires JustRoot(c, r)
    ensures TierTok(c, PLAYS, 0) == 0
  {
    assert AtTier(c, 0) == {r};
    SumRemove(c, PLAYS, {r}, r);
    assert {r} - {r} == {};
    SumNone(c, PLAYS, {});
  }

  lemma OneTok(c: Tree, r: int, e: int)
    requires OnePrompt(c, r, e)
    ensures TierTok(c, PLAYS, 0) == 1
  {
    assert AtTier(c, 0) == {r, e};
    SumRemove(c, PLAYS, {r, e}, r);
    assert {r, e} - {r} == {e};
    SumRemove(c, PLAYS, {e}, e);
    assert {e} - {e} == {};
    SumNone(c, PLAYS, {});
  }

  lemma PartedTok(c: Tree, r: int, e: int, v: int, p: int)
    requires Parted(c, r, e, v, p)
    ensures TierTok(c, PLAYS, 0) == 3
  {
    assert AtTier(c, 0) == {r, e, v, p};
    SumRemove(c, PLAYS, {r, e, v, p}, r);
    assert {r, e, v, p} - {r} == {e, v, p};
    SumRemove(c, PLAYS, {e, v, p}, e);
    assert {e, v, p} - {e} == {v, p};
    SumRemove(c, PLAYS, {v, p}, v);
    assert {v, p} - {v} == {p};
    SumRemove(c, PLAYS, {p}, p);
    assert {p} - {p} == {};
    SumNone(c, PLAYS, {});
  }

  // ---- room ----

  lemma RoomLeft(c: Tree, d: Tree, off: int, need: int, ok: bool)
    requires RoomSought(c, d, PLAYS, off, need, ROOM, ok) && off + TierTok(c, PLAYS, 0) + need <= ROOM
    ensures ok && d == c
  {
    hide Inv, Shape, Sheds;
    FreeMeansCanFree(c, PLAYS, 0, off, need, ROOM);
  }

  /** All that the device tier holds once the segment is split is pinned or above something pinned. */
  lemma NoRoomLeft(c: Tree, d: Tree, r: int, e: int, v: int, p: int, ok: bool)
    requires RoomSought(c, d, PLAYS, 0, 1, ROOM, ok) && Parted(c, r, e, v, p)
    ensures !ok && Sheds(c, d, 0)
  {
    hide Inv, TierTok;
    PartedTok(c, r, e, v, p);
    assert ChildOk(c, v);
    StuckMeansCannotFree(c, PLAYS, 0, 0, 1, ROOM);
  }

  // ---- lookups ----

  lemma MissesAll(c: Tree, look: Look, now: real)
    requires c == map[] && Inv(c, PLAYS) && Fits(ELDER.(st := Queued), PLAYS)
    requires Sought(c, look, PLAYS, ELDER.(st := Queued), now, 0.0)
    ensures look.at == c && look.hit == Hit(-1, 0, 0, false)
  {
    hide Inv, Fits, Deepest, PathIs;
  }

  lemma FirstBlock(c: Tree, r: int, e: int)
    requires OnePrompt(c, r, e) && Inv(c, PLAYS)
    ensures PathBlock(c, PLAYS, e, 0) == 1
  {
  }

  lemma SecondBlocks(c: Tree, r: int, e: int, v: int)
    requires TwoPrompts(c, r, e, v) && Inv(c, PLAYS)
    ensures PathBlock(c, PLAYS, e, 0) == 1 && PathBlock(c, PLAYS, v, 0) == 7 && PathBlock(c, PLAYS, v, 1) == 8
    ensures v in c[r].kids && StartsWith(c[v], PLAYS, 7)
  {
  }

  /** The second prompt shares nothing with the first: its match ends at the root. */
  lemma MatchesNothing(c: Tree, look: Look, r: int, e: int, now: real)
    requires OnePrompt(c, r, e) && Inv(c, PLAYS) && Fits(VICTIM.(st := Queued), PLAYS)
    requires Sought(c, look, PLAYS, VICTIM.(st := Queued), now, 0.0)
    requires look.found.node != -1
    ensures OnePrompt(look.at, r, e) && look.hit == Hit(r, 0, 0, false)
  {
    hide Fits, Deepest, Shape, Tiers, Pinning, Slices;
    FirstBlock(c, r, e);
  }

  /** The third prompt shares its first block with the second: its match ends inside the second's segment. */
  lemma MatchesOne(c: Tree, look: Look, r: int, e: int, v: int, now: real)
    requires TwoPrompts(c, r, e, v) && Inv(c, PLAYS) && Fits(SPLITTER.(st := Queued), PLAYS)
    requires Sought(c, look, PLAYS, SPLITTER.(st := Queued), now, 0.0)
    requires look.found.node != -1
    ensures TwoPrompts(look.at, r, e, v) && look.hit == Hit(v, 1, 1, false)
  {
    hide Fits, Shape, Tiers, Pinning, Slices;
    SecondBlocks(c, r, e, v);
  }

  // ---- the states of the run ----

  /** Request q with its whole prompt in the batch, and after the pass. */
  function Reading(q: Req, root: int): Req {
    Charged(AdmittedReq(q.(st := Queued), root, 0, 1), q.isl)
  }

  function Decoding(q: Req, root: int, own: int): Req {
    Grown(Reading(q, root), q.isl, own)
  }

  ghost function ElderWaits(): View {
    View([ELDER.(st := Queued), VICTIM, SPLITTER], [0], [], [], map[], 0)
  }

  ghost function ElderReads(r: int, c: Tree): View {
    View([Reading(ELDER, r), VICTIM, SPLITTER], [], [0], [Entry(0, 1, true)], c, 0)
  }

  ghost function VictimWaits(r: int, e: int, c: Tree): View {
    View([Decoding(ELDER, r, e), VICTIM.(st := Queued), SPLITTER], [1], [0], [], c, 0)
  }

  ghost function VictimReads(r: int, e: int, c: Tree): View {
    View([Decoding(ELDER, r, e), Reading(VICTIM, r), SPLITTER], [], [0, 1], [Entry(1, 2, true)], c, 0)
  }

  ghost function SplitterWaits(r: int, e: int, v: int, c: Tree): View {
    View([Decoding(ELDER, r, e), Decoding(VICTIM, r, v), SPLITTER.(st := Queued)], [2], [0, 1], [], c, 0)
  }

  lemma OffTree3(a: Req, b: Req, c: Req)
    ensures OffTreeSum([a, b, c]) == OffTree(a) + OffTree(b) + OffTree(c)
  {
    assert [a, b, c][..2] == [a, b] && [a, b][..1] == [a] && [a][..0] == [];
    assert OffTreeSum([a]) == OffTree(a);
    assert OffTreeSum([a, b]) == OffTreeSum([a]) + OffTree(b);
  }

  /** Whoever decodes with one token produced owes the counter nothing beyond its segment. */
  lemma NothingOff(r: int, e: int, v: int, c: Tree)
    requires e != -1 && v != -1
    ensures OffTreeSum(SplitterWaits(r, e, v, c).reqs) == 0
  {
    OffTree3(Decoding(ELDER, r, e), Decoding(VICTIM, r, v), SPLITTER.(st := Queued));
  }

  // ---- planning ----

  lemma ElderTurn(u: View, now: real) returns (r: int)
    requires Formed(CFG, PLAYS, 0.0, ROOM, ElderWaits(), u, now)
    ensures JustRoot(u.tree, r) && u == ElderReads(r, u.tree)
  {
    hide Inv, Fits, Sought, RoomSought, TierTok, OffTreeSum, YoungestFirst;
    var s := ElderWaits();
    var mid :| FormedBy(CFG, PLAYS, 0.0, ROOM, s, mid, u, now);
    var look, ok :| TurnBy(CFG, PLAYS, 0.0, ROOM, s, mid, 10, now, look, ok);
    MissesAll(s.tree, look, now);
    r := look.pin;
    var c := AddPins(look.ready, r, 1);
    RootTok(c, r);
    OffTree3(s.reqs[0], s.reqs[1], s.reqs[2]);
    RoomLeft(c, look.made, 0, 1, ok);
    assert s.reqs[0 := Charged(AdmittedReq(s.reqs[0], r, 0, 1), 1)] == ElderReads(r, mid.tree).reqs;
  }

  lemma VictimTurn(r: int, e: int, c: Tree, u: View, now: real)
    requires OnePrompt(c, r, e) && Formed(CFG, PLAYS, 0.0, ROOM, VictimWaits(r, e, c), u, now)
    ensures OnePrompt(u.tree, r, e) && u == VictimReads(r, e, u.tree)
  {
    hide Inv, Fits, Sought, RoomSought, TierTok, OffTreeSum, YoungestFirst;
    var s := VictimWaits(r, e, c);
    var mid :| FormedBy(CFG, PLAYS, 0.0, ROOM, s, mid, u, now);
    var look, ok :| TurnBy(CFG, PLAYS, 0.0, ROOM, s, mid, 10, now, look, ok);
    assert IsRoot(c, r);
    MatchesNothing(c, look, r, e, now);
    var d := AddPins(look.ready, r, 1);
    OneTok(d, r, e);
    OffTree3(s.reqs[0], s.reqs[1], s.reqs[2]);
    RoomLeft(d, look.made, 0, 2, ok);
    assert s.reqs[1 := Charged(AdmittedReq(s.reqs[1], r, 0, 1), 2)] == VictimReads(r, e, mid.tree).reqs;
  }

  /** The third request finds no room, but leaves the victim's segment split. */
  lemma SplitterTry(r: int, e: int, v: int, c: Tree, mid: View, now: real, look: Look, ok: bool)
    requires TwoPrompts(c, r, e, v) && TurnBy(CFG, PLAYS, 0.0, ROOM, SplitterWaits(r, e, v, c), mid, 10, now, look, ok)
    ensures Parted(mid.tree, r, e, v, look.pin) && mid == SplitterWaits(r, e, v, mid.tree)
  {
    hide Inv, Fits, Sought, RoomSought, TierTok, OffTreeSum, Parted, Sheds, Split, Decoding;
    assert IsRoot(c, r);
    MatchesOne(c, look, r, e, v, now);
    NothingOff(r, e, v, c);
    var p := look.pin;
    Parting(look.at, r, e, v, p);
    NoRoomLeft(AddPins(look.ready, p, 1), look.made, r, e, v, p, ok);
    PartedStays(AddPins(look.ready, p, 1), look.made, r, e, v, p);
  }

  /** The decode step after it then preempts the victim, whose own segment no longer holds all it was charged for. */
  lemma SplitterTurn(r: int, e: int, v: int, c: Tree, u: View, now: real)
    requires TwoPrompts(c, r, e, v) && Formed(CFG, PLAYS, 0.0, ROOM, SplitterWaits(r, e, v, c), u, now)
    ensures u.leak > 0
  {
    hide TurnBy, YoungestFirst, TwoPrompts, Parted;
    var s := SplitterWaits(r, e, v, c);
    var mid :| FormedBy(CFG, PLAYS, 0.0, ROOM, s, mid, u, now);
    var look, ok :| TurnBy(CFG, PLAYS, 0.0, ROOM, s, mid, 10, now, look, ok);
    SplitterTry(r, e, v, c, mid, now, look, ok);
    VictimGoes(r, e, v, look.pin, mid, u.leak);
  }

  lemma VictimGoes(r: int, e: int, v: int, p: int, mid: View, leak: int)
    requires Parted(mid.tree, r, e, v, p) && mid == SplitterWaits(r, e, v, mid.tree)
    requires YoungestFirst(PLAYS, ROOM, mid, 0, 1, leak)
    ensures leak > 0
  {
    hide Inv, RoomSought, TierTok, OffTreeSum;
    NothingOff(r, e, v, mid.tree);
    assert mid.running == [0, 1] && mid.reqs[1] == Decoding(VICTIM, r, v) && LastDecodes(mid, 0);
    var d, ok :| SoughtFor(PLAYS, ROOM, mid, 1, d, ok) && (ok || Leaked(mid, d, leak));
    NoRoomLeft(mid.tree, d, r, e, v, p, ok);
  }

  // ---- the ends of the passes ----

  lemma {:induction false} AllStill(reqs: seq<Req>, running: seq<nat>)
    requires forall i :: i in running ==> i < |reqs| && Active(reqs[i])
    ensures StillRunning(reqs, running) == running
    decreases |running|
  {
    if running != [] {
      var n := |running| - 1;
      assert running == running[..n] + [running[n]] && running[n] in running;
      assert forall i :: i in running[..n] ==> i in running;
      AllStill(reqs, running[..n]);
    }
  }

  lemma ElderIn(c: Tree, r: int, t: int, e: int, now: real)
    requires JustRoot(c, r) && t != r && e !in c && e != -1
    ensures OnePrompt(Insert(c, r, t, e, 0, 1, now), r, e)
  {
  }

  lemma VictimIn(c: Tree, r: int, e: int, t: int, v: int, now: real)
    requires OnePrompt(c, r, e) && t != r && v !in c && v != -1
    ensures TwoPrompts(Insert(c, r, t, v, 1, 2, now), r, e, v)
  {
  }

  lemma ElderDone(r: int, c: Tree, m: View, now: real) returns (e: int)
    requires JustRoot(c, r)
    requires var s := View([Reading(ELDER, r), VICTIM.(st := Queued), SPLITTER], [1], [0], [Entry(0, 1, true)], c, 0);
      Took(PassEnd([0]), true, PLAYS, s, m, now)
    ensures OnePrompt(m.tree, r, e) && m == VictimWaits(r, e, m.tree)
  {
    hide JustRoot, OnePrompt, Insert, StillRunning;
    var q := Reading(ELDER, r);
    e := m.reqs[0].ownNode;
    assert CommittedAt([q, VICTIM.(st := Queued), SPLITTER], m.reqs, [Entry(0, 1, true)][0], [0][0]);
    assert m.reqs[0] == Decoding(ELDER, r, e);
    assert m.reqs[1] == VICTIM.(st := Queued) && m.reqs[2] == SPLITTER;
    assert m.reqs == [Decoding(ELDER, r, e), VICTIM.(st := Queued), SPLITTER];
    AllStill(m.reqs, [0]);
    var t :| t !in c && t != e && t != r && m.tree == Insert(c, r, t, e, 0, 1, now);
    ElderIn(c, r, t, e, now);
  }

  lemma VictimDone(r: int, e: int, c: Tree, m: View, now: real) returns (v: int)
    requires OnePrompt(c, r, e)
    requires var s := View([Decoding(ELDER, r, e), Reading(VICTIM, r), SPLITTER.(st := Queued)], [2], [0, 1],
      [Entry(1, 2, true)], c, 0);
      Took(PassEnd([0]), true, PLAYS, s, m, now)
    ensures TwoPrompts(m.tree, r, e, v) && m == SplitterWaits(r, e, v, m.tree)
  {
    hide OnePrompt, TwoPrompts, Insert, StillRunning;
    v := m.reqs[1].ownNode;
    assert CommittedAt([Decoding(ELDER, r, e), Reading(VICTIM, r), SPLITTER.(st := Queued)], m.reqs,
      [Entry(1, 2, true)][0], [0][0]);
    assert m.reqs[1] == Decoding(VICTIM, r, v);
    assert m.reqs[0] == Decoding(ELDER, r, e) && m.reqs[2] == SPLITTER.(st := Queued);
    assert m.reqs == [Decoding(ELDER, r, e), Decoding(VICTIM, r, v), SPLITTER.(st := Queued)];
    AllStill(m.reqs, [0, 1]);
    var t :| t !in c && t != v && t != r && m.tree == Insert(c, r, t, v, 1, 2, now);
    VictimIn(c, r, e, t, v, now);
  }

  // ---- the run ----

  lemma ElderAlone()
    ensures OneTurn(CFG, ElderWaits(), ROOM)
  {
  }

  lemma VictimAlone(r: int, e: int, c: Tree)
    ensures OneTurn(CFG, VictimWaits(r, e, c), ROOM)
  {
  }

  lemma SplitterAlone(r: int, e: int, v: int, c: Tree)
    ensures OneTurn(CFG, SplitterWaits(r, e, v, c), ROOM)
  {
  }

  ghost predicate Set(rank: Rank)
    reads rank, rank.cache
  {
    rank.Steady() && rank.cfg == CFG && rank.cache.plays == PLAYS && rank.cache.cap == [ROOM] &&
      rank.cache.residencyLimit == 0.0
  }

  /** m is s after request id became ready. */
  ghost predicate Readied(s: View, m: View, id: nat) {
    && id < |s.reqs| && s.reqs[id].st.Pending?
    && m == s.(reqs := s.reqs[id := s.reqs[id].(st := Queued)], waiting := s.waiting + [id])
  }

  /** A request that becomes ready on an idle rank of a free worker, alone in the queue, has its turn. */
  method Starts(rank: Rank, id: nat, now: real, ghost s: View, ghost m: View)
    requires rank.Steady() && rank.State() == s && s.batch == [] && Readied(s, m, id) && rank.cache.cap != []
    requires OneTurn(rank.cfg, m, rank.cache.cap[0])
    modifies rank, rank.cache
    ensures rank.Steady()
    ensures Formed(rank.cfg, rank.cache.plays, rank.cache.residencyLimit, rank.cache.cap[0], m, rank.State(), now)
  {
    hide Formed, World, Queues, Booked, Inv, Stands, Slots, Roots, Onward, Judged, Planned, OneTurn, Committed,
         EntryTree;
    assert rank.reqs == s.reqs && rank.batch == s.batch;
    ghost var mid := rank.Handle(Ready(id), now, true);
  }

  ghost function Empty(): View {
    View([ELDER, VICTIM, SPLITTER], [], [], [], map[], 0)
  }

  lemma ElderReadied()
    ensures Readied(Empty(), ElderWaits(), 0)
  {
    assert ElderWaits().reqs == Empty().reqs[0 := ELDER.(st := Queued)];
  }

  method ElderArrives(rank: Rank, now: real) returns (ghost r: int)
    requires Set(rank) && rank.State() == Empty()
    modifies rank, rank.cache
    ensures Set(rank) && JustRoot(rank.State().tree, r) && rank.State() == ElderReads(r, rank.State().tree)
  {
    hide Formed, JustRoot, Rank.Steady, Rank.State, OneTurn, Readied, ElderWaits, ElderReads;
    ElderAlone();
    ElderReadied();
    assert Empty().batch == [];
    Starts(rank, 0, now, Empty(), ElderWaits());
    r := ElderTurn(rank.State(), now);
  }

  /** A request that becomes ready during a pass waits. */
  method Arrives(rank: Rank, id: nat, now: real, ghost s: View)
    requires Set(rank) && rank.State() == s && s.batch != [] && id < |s.reqs| && s.reqs[id].st.Pending?
    modifies rank, rank.cache
    ensures Set(rank) &&
      rank.State() == s.(reqs := s.reqs[id := s.reqs[id].(st := Queued)], waiting := s.waiting + [id])
  {
    hide Formed, JustRoot, OnePrompt, TwoPrompts, World, Queues, Booked, Inv, Stands, Slots, Roots, Onward, Judged,
         Planned, OneTurn;
    assert rank.reqs == s.reqs && rank.batch == s.batch;
    ghost var mid := rank.Handle(Ready(id), now, true);
  }

  method ElderEnds(rank: Rank, now: real, ghost r: int) returns (ghost e: int)
    requires Set(rank) && JustRoot(rank.cache.tree, r)
    requires rank.State() ==
      View([Reading(ELDER, r), VICTIM.(st := Queued), SPLITTER], [1], [0], [Entry(0, 1, true)], rank.cache.tree, 0)
    modifies rank, rank.cache
    ensures Set(rank) && OnePrompt(rank.cache.tree, r, e) && rank.State() == VictimReads(r, e, rank.cache.tree)
  {
    hide Formed, JustRoot, OnePrompt, TwoPrompts, World, Queues, Booked, Inv, Stands, Slots, Roots, Onward, Judged,
         Planned, OneTurn;
    ghost var c := rank.cache.tree;
    assert rank.batch == rank.State().batch;
    ghost var mid := rank.Handle(PassEnd([0]), now, true);
    e := ElderDone(r, c, mid, now);
    VictimAlone(r, e, mid.tree);
    VictimTurn(r, e, mid.tree, rank.State(), now);
  }

  method VictimEnds(rank: Rank, now: real, ghost r: int, ghost e: int)
    requires Set(rank) && OnePrompt(rank.cache.tree, r, e)
    requires rank.State() ==
      View([Decoding(ELDER, r, e), Reading(VICTIM, r), SPLITTER.(st := Queued)], [2], [0, 1], [Entry(1, 2, true)],
        rank.cache.tree, 0)
    modifies rank, rank.cache
    ensures Set(rank) && rank.leak > 0
  {
    hide Formed, JustRoot, OnePrompt, TwoPrompts, World, Queues, Booked, Inv, Stands, Slots, Roots, Onward, Judged,
         Planned, OneTurn;
    ghost var c := rank.cache.tree;
    assert rank.batch == rank.State().batch;
    ghost var mid := rank.Handle(PassEnd([0]), now, true);
    ghost var v := VictimDone(r, e, c, mid, now);
    SplitterAlone(r, e, v, mid.tree);
    SplitterTurn(r, e, v, mid.tree, rank.State(), now);
  }

  lemma CountsShort(used: seq<int>, c: Tree, off: int, leak: int)
    requires Booked(used, c, PLAYS, off - leak) && leak > 0
    ensures used[0] < TierTok(c, PLAYS, 0) + off
  {
  }

  /** Three arrivals and the ends of two passes, at any times and on a worker that is free throughout: the second end
      preempts a request whose segment was split, and refunds a token that stays in the tree. */
  method LeakRun(t: seq<real>) returns (rank: Rank)
    requires |t| == 5
    ensures fresh(rank) && fresh(rank.cache) && Set(rank) && rank.leak > 0
    ensures rank.cache.used != [] && rank.cache.used[0] < TierTok(rank.cache.tree, PLAYS, 0) + OffTreeSum(rank.reqs)
  {
    hide Formed, JustRoot, OnePrompt, TwoPrompts, World, Queues, Booked, Inv, Stands, Slots, Roots, Onward, Judged,
         Planned, OneTurn, TierTok, OffTreeSum;
    GoodPlay();
    rank := new Rank([ROOM], PLAYS, 0.0, CFG, [ELDER, VICTIM, SPLITTER]);
    ghost var r := ElderArrives(rank, t[0]);
    Arrives(rank, 1, t[1], rank.State());
    assert [Reading(ELDER, r), VICTIM, SPLITTER][1 := VICTIM.(st := Queued)] ==
      [Reading(ELDER, r), VICTIM.(st := Queued), SPLITTER];
    ghost var e := ElderEnds(rank, t[2], r);
    Arrives(rank, 2, t[3], rank.State());
    VictimEnds(rank, t[4], r, e);
    CountsShort(rank.cache.used, rank.cache.tree, OffTreeSum(rank.reqs), rank.leak);
  }
}
