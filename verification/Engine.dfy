/** A play on the ranks that serve it: who is given a request, when, and how often. */
module Engine {
  import opened Commons

  import opened KvTree
  import opened Requests
  import opened Planning
  import opened Scheduler
  import Arrivals

  /** A request that was released arrives at a rank the router chose, or something else happens at a rank. */
  datatype Input = Arrival(id: nat, rank: nat, at: real, free: bool) | Elsewhere(rank: nat, event: Event, at: real,
    free: bool)

  function EventOf(input: Input): Event {
    if input.Arrival? then Ready(input.id) else input.event
  }

  // ---- what an event leaves alone ----

  lemma {:induction false} NotInBatch(reqs: seq<Req>, b: seq<Entry>, nextn: nat, i: nat)
    requires BatchOk(reqs, b, nextn) && i < |reqs| && reqs[i].st.Pending?
    ensures forall j :: 0 <= j < |b| ==> b[j].req != i
  {
    forall j | 0 <= j < |b|
      ensures b[j].req != i
    {
      assert EntryOk(reqs, b[j], nextn);
    }
  }

  /** Only its own arrival makes a request leave the state it starts in. */
  lemma StaysPending(e: Event, caches: bool, plays: seq<Play>, s: View, m: View, now: real, reqs: seq<Req>, room: int,
                     nextn: nat, i: nat)
    requires Took(e, caches, plays, s, m, now) && Planned(m.reqs, reqs, room) && BatchOk(s.reqs, s.batch, nextn)
    requires i < |s.reqs| && s.reqs[i].st.Pending? && e != Ready(i) && e != Loaded(i)
    ensures i < |reqs| && reqs[i].st.Pending?
  {
    hide EntryTree, BatchOk;
    NotInBatch(s.reqs, s.batch, nextn, i);
  }

  lemma Leaves(caches: bool, plays: seq<Play>, s: View, m: View, now: real, reqs: seq<Req>, room: int, i: nat)
    requires Took(Ready(i), caches, plays, s, m, now) && Planned(m.reqs, reqs, room)
    ensures i < |reqs| && !reqs[i].st.Pending?
  {
  }

  /** What one event at a rank does to its requests: only request `taken` leaves the initial state, and it does. */
  ghost predicate Advanced(reqs0: seq<Req>, reqs: seq<Req>, taken: int) {
    && Onward(reqs0, reqs)
    && forall i {:trigger reqs[i]} :: 0 <= i < |reqs0| ==> (reqs[i].st.Pending? <==> reqs0[i].st.Pending? && i != taken)
  }

  /** From s to u, the rank took the event and then planned. */
  ghost predicate Handled(caches: bool, plays: seq<Play>, room: int, e: Event, s: View, u: View, now: real) {
    exists m :: Took(e, caches, plays, s, m, now) && Planned(m.reqs, u.reqs, room)
  }

  lemma HandledBy(caches: bool, plays: seq<Play>, room: int, e: Event, s: View, m: View, u: View, now: real)
    requires Took(e, caches, plays, s, m, now) && Planned(m.reqs, u.reqs, room)
    ensures Handled(caches, plays, room, e, s, u, now)
  {
    hide Took, Planned;
  }

  /** One event at one rank. */
  method Happen(rank: Rank, e: Event, now: real, free: bool)
    requires rank.Steady() && (e.Ready? ==> e.id < |rank.reqs| && rank.reqs[e.id].st.Pending?)
    modifies rank, rank.cache
    ensures rank.Steady() && Advanced(old(rank.reqs), rank.reqs, if e.Ready? then e.id else -1)
    ensures |rank.cache.cap| > 0
    ensures old(rank.Applies(e)) ==>
      Handled(rank.cfg.caches, rank.cache.plays, rank.cache.cap[0], e, old(rank.State()), rank.State(), now)
  {
    hide Handled, Took, Planned, Onward, World, Queues, Booked, Inv, Judged, Formed, OneTurn, BatchOk;
    ghost var s, applies := rank.State(), rank.Applies(e);
    WorldBatch(rank.reqs, rank.batch, rank.cache.tree, rank.cache.plays, rank.cfg.caches, rank.cfg.nextn);
    ghost var m := rank.Handle(e, now, free);
    if applies {
      HandledBy(rank.cfg.caches, rank.cache.plays, rank.cache.cap[0], e, s, m, rank.State(), now);
      AllStay(e, rank.cfg.caches, rank.cache.plays, s, m, now, rank.reqs, rank.cache.cap[0], rank.cfg.nextn);
    } else {
      SameAdvanced(s.reqs, rank.reqs);
    }
  }

  lemma SameAdvanced(reqs0: seq<Req>, reqs: seq<Req>)
    requires reqs == reqs0
    ensures Advanced(reqs0, reqs, -1)
  {
  }

  lemma AllStay(e: Event, caches: bool, plays: seq<Play>, s: View, m: View, now: real, reqs: seq<Req>, room: int,
                nextn: nat)
    requires Took(e, caches, plays, s, m, now) && Planned(m.reqs, reqs, room) && BatchOk(s.reqs, s.batch, nextn)
    requires Onward(s.reqs, reqs) && (e.Loaded? ==> e.id < |s.reqs| && s.reqs[e.id].st.Loading?)
    ensures Advanced(s.reqs, reqs, if e.Ready? then e.id else -1)
  {
    hide Took, Planned, BatchOk;
    forall i | 0 <= i < |s.reqs|
      ensures i < |reqs| && (reqs[i].st.Pending? <==> s.reqs[i].st.Pending? && !(e.Ready? && i == e.id))
    {
      if e == Ready(i) {
        Leaves(caches, plays, s, m, now, reqs, room, i);
      } else if s.reqs[i].st.Pending? {
        StaysPending(e, caches, plays, s, m, now, reqs, room, nextn, i);
      }
    }
  }

  // ---- who has a request ----

  /** Request i, given to a rank, is done there. */
  ghost predicate DoneAt(at: seq<int>, states: seq<seq<Req>>, i: nat) {
    i < |at| && 0 <= at[i] < |states| && i < |states[at[i]]| && states[at[i]][i].st.Done?
  }

  /** A request is out of its initial state at the rank it was given to and nowhere else. */
  ghost predicate OnlyThere(at: seq<int>, reqs: seq<Req>, k: nat) {
    |reqs| == |at| && forall i :: 0 <= i < |reqs| ==> (reqs[i].st.Pending? <==> at[i] != k)
  }

  /** Arrivals and completions as the play counts them are those at the ranks, but for what is done at rank k and not
      yet told. */
  ghost predicate Knows(at: seq<int>, states: seq<seq<Req>>, arrived: seq<bool>, done: seq<bool>, k: int) {
    && |at| == |arrived| == |done| && (forall j: nat :: j < |states| ==> OnlyThere(at, states[j], j))
    && (forall i: nat :: i < |at| ==> -1 <= at[i] < |states| && (arrived[i] <==> at[i] >= 0))
    && (forall i: nat :: i < |at| ==>
      (done[i] ==> DoneAt(at, states, i)) && (DoneAt(at, states, i) && at[i] != k ==> done[i]))
  }

  lemma NoneKnown(at: seq<int>, states: seq<seq<Req>>, arrived: seq<bool>, done: seq<bool>)
    requires |at| == |arrived| == |done| && forall i :: 0 <= i < |at| ==> at[i] == -1 && !arrived[i] && !done[i]
    requires forall k :: 0 <= k < |states| ==>
      |states[k]| == |at| && forall i :: 0 <= i < |at| ==> states[k][i].st.Pending?
    ensures Knows(at, states, arrived, done, -1)
  {
  }

  lemma ToldOne(at: seq<int>, states: seq<seq<Req>>, arrived: seq<bool>, done: seq<bool>, k: nat, i: nat)
    requires Knows(at, states, arrived, done, k) && k < |states| && i < |states[k]| && states[k][i].st.Done?
    ensures i < |at| && arrived[i] && at[i] == k && DoneAt(at, states, i) &&
      Knows(at, states, arrived, done[i := true], k)
  {
    assert OnlyThere(at, states[k], k);
  }

  lemma AllTold(at: seq<int>, states: seq<seq<Req>>, arrived: seq<bool>, done: seq<bool>, k: int)
    requires Knows(at, states, arrived, done, k) && forall i: nat :: i < |at| && DoneAt(at, states, i) ==> done[i]
    ensures Knows(at, states, arrived, done, -1)
  {
  }

  lemma EventKnown(at: seq<int>, states: seq<seq<Req>>, arrived: seq<bool>, done: seq<bool>, k: nat, reqs: seq<Req>)
    requires Knows(at, states, arrived, done, -1) && k < |states| && Advanced(states[k], reqs, -1)
    ensures Knows(at, states[k := reqs], arrived, done, k)
  {
    assert OnlyThere(at, states[k], k);
    forall i: nat | i < |at|
      ensures DoneAt(at, states, i) ==> DoneAt(at, states[k := reqs], i)
    {
      assert i < |reqs| && OnwardReq(states[k][i], reqs[i]);
    }
  }

  lemma GiftKnown(at: seq<int>, states: seq<seq<Req>>, arrived: seq<bool>, done: seq<bool>, k: nat, reqs: seq<Req>,
                  id: nat)
    requires Knows(at, states, arrived, done, -1) && k < |states| && id < |at| && !arrived[id] &&
      Advanced(states[k], reqs, id)
    ensures Knows(at[id := k], states[k := reqs], arrived[id := true], done, k)
  {
    assert OnlyThere(at, states[k], k);
    var at1, states1 := at[id := k], states[k := reqs];
    forall j: nat | j < |states|
      ensures OnlyThere(at1, states1[j], j)
    {
      assert OnlyThere(at, states[j], j);
    }
    forall i: nat | i < |at|
      ensures i < |reqs| && (i != id ==> (DoneAt(at, states, i) ==> DoneAt(at1, states1, i)))
    {
      assert i < |reqs| && OnwardReq(states[k][i], reqs[i]);
    }
  }

  class Session {
    const play: Arrivals.Play
    const ranks: seq<Rank>
    /** The rank each request was given to, and -1 until then. */
    ghost var at: seq<int>

    ghost predicate Apart() {
      forall j, k :: 0 <= j < k < |ranks| ==> ranks[j] != ranks[k] && ranks[j].cache != ranks[k].cache
    }

    ghost function Caches(): (s: set<object>) {
      set k | 0 <= k < |ranks| :: ranks[k].cache
    }

    ghost predicate AllSteady()
      reads ranks, Caches()
    {
      forall k :: 0 <= k < |ranks| ==> ranks[k].Steady()
    }

    ghost function States(): (s: seq<seq<Req>>)
      reads ranks
      ensures |s| == |ranks| && forall k :: 0 <= k < |ranks| ==> s[k] == ranks[k].reqs
    {
      seq(|ranks|, k requires 0 <= k < |ranks| reads ranks => ranks[k].reqs)
    }

    /** Everything agrees, but for requests done at rank k that the play has not yet been told of. */
    ghost predicate Lags(k: int)
      reads this, play, ranks, Caches()
    {
      && play.Valid() && Apart() && AllSteady() && |at| == play.n == |play.arrived| == |play.done|
      && Knows(at, States(), play.arrived, play.done, k)
    }

    ghost predicate Valid()
      reads this, play, ranks, Caches()
    {
      Lags(-1)
    }

    /** Nobody has arrived yet. */
    constructor (play: Arrivals.Play, ranks: seq<Rank>)
      requires play.Valid() && |play.arrived| == |play.done| == play.n
      requires forall i: nat :: i < play.n ==> !play.arrived[i] && !play.done[i]
      requires forall j, k :: 0 <= j < k < |ranks| ==> ranks[j] != ranks[k] && ranks[j].cache != ranks[k].cache
      requires forall k :: 0 <= k < |ranks| ==> ranks[k].Steady() && |ranks[k].reqs| == play.n
      requires forall k, i {:trigger ranks[k].reqs[i]} :: 0 <= k < |ranks| && 0 <= i < |ranks[k].reqs| ==>
        ranks[k].reqs[i].st.Pending?
      ensures Valid() && this.play == play && this.ranks == ranks && at == seq(play.n, _ => -1)
    {
      hide Knows, Rank.Steady, Arrivals.Play.Valid;
      this.play, this.ranks := play, ranks;
      at := seq(play.n, _ => -1);
      new;
      NoneKnown(at, States(), play.arrived, play.done);
    }

    /** Tells the play at time `now` of the requests done at rank k, which releases those that waited for them. */
    method Collect(k: nat, now: real)
      requires k < |ranks| && Lags(k)
      modifies play
      ensures Valid() && play.arrived == old(play.arrived)
    {
      hide Knows, DoneAt, Rank.Steady, Arrivals.Play.Valid, Arrivals.Unfinished, States;
      for i := 0 to play.n
        invariant Lags(k) && play.arrived == old(play.arrived) && States() == old(States())
        invariant forall j: nat :: j < i && DoneAt(at, States(), j) ==> play.done[j]
      {
        Collected(at, States(), play.arrived, play.done, k, i);
        if ranks[k].reqs[i].st.Done? && !play.done[i] {
          ToldOne(at, States(), play.arrived, play.done, k, i);
          var next := play.Finish(i, now);
        }
      }
      AllTold(at, States(), play.arrived, play.done, k);
    }

    /** Rank k took the event, from state s on. */
    ghost predicate HandledAt(k: nat, e: Event, s: View, now: real)
      reads this, ranks, Caches()
      requires k < |ranks| && |ranks[k].cache.cap| > 0
    {
      Handled(ranks[k].cfg.caches, ranks[k].cache.plays, ranks[k].cache.cap[0], e, s, ranks[k].State(), now)
    }

    /** One event at rank k, told to the play. */
    method Serve(k: nat, e: Event, now: real, free: bool)
      requires k < |ranks| && Valid() && !e.Ready?
      modifies play, ranks[k], ranks[k].cache
      ensures Valid() && play.arrived == old(play.arrived)
      ensures old(ranks[k].Applies(e)) ==> |ranks[k].cache.cap| > 0 && HandledAt(k, e, old(ranks[k].State()), now)
    {
      hide Knows, DoneAt, Rank.Steady, Arrivals.Play.Valid, States, Advanced, Handled;
      ghost var states := States();
      Happen(ranks[k], e, now, free);
      assert States() == states[k := ranks[k].reqs];
      EventKnown(at, states, play.arrived, play.done, k, ranks[k].reqs);
      Collect(k, now);
    }

    /** A released request arrives at rank k. */
    method Give(id: nat, k: nat, now: real, free: bool)
      requires k < |ranks| && Valid() && id < play.n && |play.released| == play.n && play.released[id] &&
        !play.arrived[id]
      modifies this`at, play, ranks[k], ranks[k].cache
      ensures Valid() && at == old(at)[id := k]
      ensures |ranks[k].cache.cap| > 0 && HandledAt(k, Ready(id), old(ranks[k].State()), now)
    {
      hide Knows, DoneAt, Rank.Steady, Arrivals.Play.Valid, States, Advanced, Handled;
      ghost var states, arrived := States(), play.arrived;
      StillWaits(at, states, arrived, play.done, k, id);
      play.Arrive(id);
      Happen(ranks[k], Ready(id), now, free);
      assert States() == states[k := ranks[k].reqs];
      GiftKnown(at, states, arrived, play.done, k, ranks[k].reqs, id);
      at := at[id := k];
      Collect(k, now);
    }

    /** The input applies: a released request that has not arrived, or an event that concerns its rank. */
    ghost predicate Takes(input: Input)
      reads this, play, ranks
    {
      && input.rank < |ranks|
      && match input
         case Arrival(id, k, now, free) =>
           id < play.n && id < |play.released| && id < |play.arrived| && play.released[id] && !play.arrived[id]
         case Elsewhere(k, e, now, free) => !e.Ready? && ranks[k].Applies(e)
    }

    /** One input; one that does not apply changes nothing. */
    method Step(input: Input) returns (gave: bool)
      requires Valid()
      modifies this`at, play, ranks, Caches()
      ensures Valid() && |at| == |old(at)|
      ensures if gave
        then input.Arrival? && input.id < |old(at)| && old(at)[input.id] == -1 && input.rank < |ranks| &&
          at == old(at)[input.id := input.rank]
        else at == old(at)
      ensures gave ==> Awaited(play.edges, play.cls, old(at), input.id)
      ensures gave <==> input.Arrival? && old(Takes(input))
      ensures old(Takes(input)) ==>
        |ranks[input.rank].cache.cap| > 0 &&
        HandledAt(input.rank, EventOf(input), old(ranks[input.rank].State()), input.at)
      ensures forall k :: 0 <= k < |ranks| && k != input.rank ==> ranks[k].State() == old(ranks[k].State())
    {
      hide Knows, DoneAt, Rank.Steady, States, Awaited, Handled;
      gave := false;
      match input
      case Arrival(id, k, now, free) =>
        if k < |ranks| && id < play.n && play.released[id] && !play.arrived[id] {
          Reached(id);
          Give(id, k, now, free);
          gave := true;
        }
      case Elsewhere(k, e, now, free) =>
        if k < |ranks| && !e.Ready? { Serve(k, e, now, free); }
    }

    /** A released request waits for nobody any more, and was not given to a rank if it has not arrived. */
    lemma Reached(i: nat)
      requires Valid() && i < play.n && |play.released| == |play.cls| == play.n && play.released[i]
      ensures Awaited(play.edges, play.cls, at, i) && (!play.arrived[i] ==> at[i] == -1)
      ensures forall j: nat :: Before(play.edges, play.cls, j, i) ==> DoneAt(at, States(), j)
    {
      hide Rank.Steady, States, Arrivals.Targets, Arrivals.Occurs, Arrivals.Unfinished;
      assert Arrivals.Account(play.edges, play.cls, play.preds, play.released, play.done, 0, i);
      forall j: nat | Before(play.edges, play.cls, j, i)
        ensures DoneAt(at, States(), j)
      {
        Arrivals.EdgeOccurs(play.edges, j, i);
        if !play.done[j] { Arrivals.WaitsFor(play.edges, play.cls, play.done, i, play.n, j); }
      }
    }

    /** The engine counts in flight exactly the requests that some rank has and has not finished. */
    lemma CountsBusy()
      requires Valid()
      ensures play.inFlight == Busy(at, States(), play.n)
    {
      hide Rank.Steady, States, Arrivals.Targets, Arrivals.Occurs, Arrivals.Unfinished;
      forall i: nat | i < play.n && play.arrived[i]
        ensures !play.cls[i].Skipped?
      {
        assert Arrivals.Account(play.edges, play.cls, play.preds, play.released, play.done, 0, i);
      }
      BusyIs(at, States(), play.cls, play.arrived, play.done, play.n);
    }

    /** While a request is left in a graph without cycles, one can be given to a rank or some rank has one to finish. */
    lemma NotStuck(i: nat) returns (w: nat)
      requires Valid() && !Arrivals.Loops(play.edges) && i < play.n == |play.cls| && !play.cls[i].Skipped? &&
        !DoneAt(at, States(), i)
      ensures w < play.n && (at[w] >= 0 ==> at[w] < |ranks| && !DoneAt(at, States(), w))
      ensures at[w] == -1 ==> |play.released| == |play.arrived| == play.n && play.released[w] && !play.arrived[w]
    {
      hide Rank.Steady, States, Arrivals.Account, Arrivals.Loops;
      w := Arrivals.SomeReleased(play.edges, play.cls, play.preds, play.released, play.done, i);
    }

    /** Whatever the inputs: each request is given to at most one rank, once, and after all it waits for. */
    method Run(inputs: seq<Input>) returns (given: seq<nat>)
      requires Valid()
      modifies this`at, play, ranks, Caches()
      ensures Valid() && |at| == |old(at)| && Distinct(given)
      ensures forall i: nat :: i < |at| ==>
        if i in given then old(at)[i] == -1 && 0 <= at[i] < |ranks| else at[i] == old(at)[i]
      ensures forall a :: 0 <= a < |given| ==> InTurn(play.edges, play.cls, old(at), given, a)
    {
      hide Rank.Steady, States, Lags, Awaited, InTurn;
      given := [];
      for k := 0 to |inputs|
        invariant Valid() && |at| == |old(at)| && Distinct(given)
        invariant forall i: nat :: i < |at| ==>
          if i in given then old(at)[i] == -1 && 0 <= at[i] < |ranks| else at[i] == old(at)[i]
        invariant forall a :: 0 <= a < |given| ==> given[a] < |at| && InTurn(play.edges, play.cls, old(at), given, a)
      {
        ghost var at1 := at;
        var gave := Step(inputs[k]);
        if gave {
          TurnNext(play.edges, play.cls, old(at), at1, given, inputs[k].id);
          given := given + [inputs[k].id];
        }
      }
    }
  }

  /** How many of the first m requests some rank has and has not finished. */
  ghost function Busy(at: seq<int>, states: seq<seq<Req>>, m: nat): nat
    requires m <= |at|
  {
    if m == 0 then 0 else Busy(at, states, m - 1) + (if at[m - 1] >= 0 && !DoneAt(at, states, m - 1) then 1 else 0)
  }

  lemma {:induction false} BusyIs(at: seq<int>, states: seq<seq<Req>>, cls: seq<Arrivals.Class>, arrived: seq<bool>,
                                  done: seq<bool>, m: nat)
    requires Knows(at, states, arrived, done, -1) && m <= |at| == |cls|
    requires forall i: nat :: i < |cls| && arrived[i] ==> !cls[i].Skipped?
    ensures Arrivals.Open(cls, done, m) - Arrivals.Open(cls, arrived, m) == Busy(at, states, m)
    decreases m
  {
    if m > 0 { BusyIs(at, states, cls, arrived, done, m - 1); }
  }

  /** Request i waits for request j, which is played. */
  ghost predicate Before(edges: seq<Arrivals.Edge>, cls: seq<Arrivals.Class>, j: nat, i: nat) {
    Arrivals.Edge(j, i) in edges && j < |cls| && !cls[j].Skipped? && i < |cls| && cls[i].Normal?
  }

  /** All that request i waits for was given to a rank. */
  ghost predicate Awaited(edges: seq<Arrivals.Edge>, cls: seq<Arrivals.Class>, at: seq<int>, i: nat) {
    forall j: nat :: Before(edges, cls, j, i) ==> j < |at| && at[j] >= 0
  }

  /** All that the request given at position a waits for was given before it. */
  ghost predicate InTurn(edges: seq<Arrivals.Edge>, cls: seq<Arrivals.Class>, at0: seq<int>, given: seq<nat>, a: nat) {
    a < |given| && forall j: nat :: Before(edges, cls, j, given[a]) ==> j < |at0| && (at0[j] >= 0 || j in given[..a])
  }

  lemma TurnNext(edges: seq<Arrivals.Edge>, cls: seq<Arrivals.Class>, at0: seq<int>, at: seq<int>, given: seq<nat>,
                 i: nat)
    requires |at| == |at0| && (forall j: nat :: j < |at| ==> j in given || at[j] == at0[j]) &&
      Awaited(edges, cls, at, i)
    requires forall a :: 0 <= a < |given| ==> InTurn(edges, cls, at0, given, a)
    ensures forall a :: 0 <= a <= |given| ==> InTurn(edges, cls, at0, given + [i], a)
  {
    hide Before;
    var g := given + [i];
    forall a | 0 <= a <= |given|
      ensures InTurn(edges, cls, at0, g, a)
    {
      assert g[..a] == given[..a];
      if a < |given| { assert InTurn(edges, cls, at0, given, a); } else { assert given[..a] == given; }
    }
  }

  lemma Collected(at: seq<int>, states: seq<seq<Req>>, arrived: seq<bool>, done: seq<bool>, k: nat, i: nat)
    requires Knows(at, states, arrived, done, k) && k < |states| && i < |at|
    ensures i < |states[k]| && (DoneAt(at, states, i) ==> done[i] || states[k][i].st.Done?)
  {
    assert OnlyThere(at, states[k], k);
  }

  lemma StillWaits(at: seq<int>, states: seq<seq<Req>>, arrived: seq<bool>, done: seq<bool>, k: nat, i: nat)
    requires Knows(at, states, arrived, done, -1) && k < |states| && i < |at| && !arrived[i]
    ensures i < |states[k]| && states[k][i].st.Pending?
  {
    assert OnlyThere(at, states[k], k);
  }
}
