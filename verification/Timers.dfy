/** The event loop's clock: a heap of events and a heap of timers under a lazily applied offset, against one eager
    queue. */
module Timers {
  /** What an entry of the queue announces. */
  datatype What = Main(a: int, b: int) | Ready(req: nat)

  datatype Entry = Entry(t: real, kind: nat, num: nat, what: What)

  /** A timer is stale once its version is no longer that of its request. */
  datatype Timer = Timer(stored: real, num: nat, req: nat, ver: nat)

  const READY: nat := 2

  predicate Before(e: Entry, f: Entry) {
    e.t < f.t || (e.t == f.t && (e.kind < f.kind || (e.kind == f.kind && e.num <= f.num)))
  }

  /** e is the first of q by time, then by kind (transfers, passes, timers, the end), then by number. */
  ghost predicate IsFirst(e: Entry, q: set<Entry>) {
    forall f :: f in q ==> e.t <= f.t && (e.t == f.t ==> e.kind <= f.kind && (e.kind == f.kind ==> e.num <= f.num))
  }

  lemma FirstIs(e: Entry, q: set<Entry>)
    requires forall f :: f in q ==> Before(e, f)
    ensures IsFirst(e, q)
  {
  }

  predicate TimerBefore(x: Timer, y: Timer) {
    x.stored < y.stored || (x.stored == y.stored && x.num <= y.num)
  }

  function EntryOf(tm: Timer, offset: real): Entry {
    Entry(tm.stored - offset, READY, tm.num, Ready(tm.req))
  }

  lemma {:induction false} FirstEntry(s: set<Entry>)
    requires s != {}
    ensures exists e :: e in s && forall f :: f in s ==> Before(e, f)
    decreases s
  {
    var x :| x in s;
    var r := s - {x};
    assert forall f :: f in s ==> f == x || f in r;
    if y :| y in r {
      FirstEntry(r);
      var z :| z in r && forall f :: f in r ==> Before(z, f);
      var w := if Before(x, z) then x else z;
      assert w in s && forall f :: f in s ==> Before(w, f);
    } else {
      assert x in s && forall f :: f in s ==> Before(x, f);
    }
  }

  lemma {:induction false} FirstTimer(s: set<Timer>)
    requires s != {}
    ensures exists e :: e in s && forall f :: f in s ==> TimerBefore(e, f)
    decreases s
  {
    var x :| x in s;
    var r := s - {x};
    assert forall f :: f in s ==> f == x || f in r;
    if y :| y in r {
      FirstTimer(r);
      var z :| z in r && forall f :: f in r ==> TimerBefore(z, f);
      var w := if TimerBefore(x, z) then x else z;
      assert w in s && forall f :: f in s ==> TimerBefore(w, f);
    } else {
      assert x in s && forall f :: f in s ==> TimerBefore(x, f);
    }
  }

  // ---- the one queue behind two heaps ----

  predicate Current(tm: Timer, ver: map<nat, nat>) {
    tm.req in ver && tm.ver == ver[tm.req]
  }

  /** The events and the current timers, at their true times. */
  ghost function Queue(heap: set<Entry>, timers: set<Timer>, ver: map<nat, nat>, offset: real): set<Entry> {
    heap + set tm | tm in timers && Current(tm, ver) :: EntryOf(tm, offset)
  }

  /** The queue after all its timers moved d earlier. */
  ghost function Shifted(q: set<Entry>, d: real): set<Entry> {
    set e | e in q :: Earlier(e, d)
  }

  function Earlier(e: Entry, d: real): Entry {
    if e.what.Ready? then e.(t := e.t - d) else e
  }

  /** The queue without the entry of request r. */
  ghost function Without(q: set<Entry>, r: nat): set<Entry> {
    set e | e in q && e.what != Ready(r)
  }

  ghost predicate Mains(heap: set<Entry>) {
    forall e :: e in heap ==> e.what.Main?
  }

  /** A request with a pending timer has exactly one current timer, every other request none. */
  ghost predicate Versions(timers: set<Timer>, ver: map<nat, nat>, pending: set<nat>) {
    && (forall x, y :: x in timers && y in timers && x.req == y.req && x.ver == y.ver ==> x == y)
    && (forall x :: x in timers ==> x.req in ver && x.ver <= ver[x.req])
    && (forall r :: r in pending ==> r in ver && exists x :: x in timers && x.req == r && Current(x, ver))
    && (forall x :: x in timers && Current(x, ver) ==> x.req in pending)
  }

  lemma QueueEvent(heap: set<Entry>, timers: set<Timer>, ver: map<nat, nat>, offset: real, e: Entry)
    ensures Queue(heap + {e}, timers, ver, offset) == Queue(heap, timers, ver, offset) + {e}
  {
  }

  lemma QueueTimer(heap: set<Entry>, timers: set<Timer>, ver: map<nat, nat>, offset: real, x: Timer)
    requires Mains(heap) && forall tm :: tm in timers && tm.req == x.req ==> tm.ver < x.ver
    ensures Queue(heap, timers + {x}, ver[x.req := x.ver], offset) ==
            Without(Queue(heap, timers, ver, offset), x.req) + {EntryOf(x, offset)}
  {
  }

  lemma QueueShift(heap: set<Entry>, timers: set<Timer>, ver: map<nat, nat>, offset: real, d: real)
    requires Mains(heap)
    ensures Queue(heap, timers, ver, offset + d) == Shifted(Queue(heap, timers, ver, offset), d)
  {
  }

  /** A stale timer is in no one's queue; a current one leaves it when it goes. */
  lemma QueueDrop(heap: set<Entry>, timers: set<Timer>, ver: map<nat, nat>, pending: set<nat>, offset: real, x: Timer)
    requires Mains(heap) && x in timers && Versions(timers, ver, pending)
    ensures Queue(heap, timers - {x}, ver, offset) ==
            if Current(x, ver) then Queue(heap, timers, ver, offset) - {EntryOf(x, offset)}
              else Queue(heap, timers, ver, offset)
    ensures Versions(timers - {x}, ver, if Current(x, ver) then pending - {x.req} else pending)
    ensures Current(x, ver) ==> EntryOf(x, offset) in Queue(heap, timers, ver, offset)
  {
    var q, q1 := Queue(heap, timers, ver, offset), Queue(heap, timers - {x}, ver, offset);
    forall tm | tm in timers && Current(tm, ver) && EntryOf(tm, offset) == EntryOf(x, offset) && Current(x, ver)
      ensures tm == x
    {
      assert tm.req == x.req && tm.ver == x.ver;
    }
    forall e | e in q && !(Current(x, ver) && e == EntryOf(x, offset))
      ensures e in q1
    {
      if e !in heap {
        var tm :| tm in timers && Current(tm, ver) && e == EntryOf(tm, offset);
        assert tm in timers - {x};
      }
    }
    if Current(x, ver) { assert EntryOf(x, offset).what.Ready?; }
    assert forall e :: e in q1 ==> e in q;
    DropVersions(timers, ver, pending, x);
  }

  lemma DropVersions(timers: set<Timer>, ver: map<nat, nat>, pending: set<nat>, x: Timer)
    requires x in timers && Versions(timers, ver, pending)
    ensures Versions(timers - {x}, ver, if Current(x, ver) then pending - {x.req} else pending)
  {
  }

  lemma PushVersions(timers: set<Timer>, ver: map<nat, nat>, pending: set<nat>, x: Timer)
    requires Versions(timers, ver, pending) && forall tm :: tm in timers && tm.req == x.req ==> tm.ver < x.ver
    ensures Versions(timers + {x}, ver[x.req := x.ver], pending + {x.req})
  {
    var ver1 := ver[x.req := x.ver];
    forall r | r in pending + {x.req}
      ensures r in ver1 && exists y :: y in timers + {x} && y.req == r && Current(y, ver1)
    {
      if r == x.req {
        assert x in timers + {x} && Current(x, ver1);
      } else {
        var y :| y in timers && y.req == r && Current(y, ver);
        assert y in timers + {x} && Current(y, ver1);
      }
    }
  }

  lemma OlderVersions(timers: set<Timer>, ver: map<nat, nat>, pending: set<nat>, req: nat)
    requires Versions(timers, ver, pending)
    ensures forall tm :: tm in timers && tm.req == req ==> req in ver && tm.ver < ver[req] + 1
  {
  }

  lemma WithoutLess(q: set<Entry>, r: nat)
    ensures forall e :: e in Without(q, r) ==> e in q
  {
  }

  // ---- due times ----

  /** Every timer stands before the time recorded as due by whatever the offset grew since it was set. */
  ghost predicate Placed(q: set<Entry>, due: map<nat, real>, armed: map<nat, real>, offset: real) {
    forall e :: e in q && e.what.Ready? ==> PlacedAt(e, due, armed, offset)
  }

  ghost predicate PlacedAt(e: Entry, due: map<nat, real>, armed: map<nat, real>, offset: real) {
    && e.what.Ready? && e.what.req in due && e.what.req in armed
    && armed[e.what.req] <= offset && e.t == due[e.what.req] - (offset - armed[e.what.req])
  }

  lemma PlacedMain(heap: set<Entry>, timers: set<Timer>, ver: map<nat, nat>, offset: real, e: Entry,
                   due: map<nat, real>, armed: map<nat, real>)
    requires e.what.Main? && Placed(Queue(heap, timers, ver, offset), due, armed, offset)
    ensures Placed(Queue(heap, timers, ver, offset) + {e}, due, armed, offset)
  {
  }

  lemma PlacedReady(q: set<Entry>, r: nat, t: real, num: nat, due: map<nat, real>, armed: map<nat, real>, offset: real)
    requires Placed(q, due, armed, offset)
    ensures Placed(Without(q, r) + {Entry(t, READY, num, Ready(r))}, due[r := t], armed[r := offset], offset)
  {
  }

  lemma PlacedShift(q: set<Entry>, due: map<nat, real>, armed: map<nat, real>, offset: real, d: real)
    requires Placed(q, due, armed, offset) && d >= 0.0
    ensures Placed(Shifted(q, d), due, armed, offset + d)
  {
    forall e | e in Shifted(q, d) && e.what.Ready?
      ensures PlacedAt(e, due, armed, offset + d)
    {
      var f :| f in q && e == Earlier(f, d);
      assert PlacedAt(f, due, armed, offset);
    }
  }

  lemma PlacedLess(q: set<Entry>, e: Entry, due: map<nat, real>, armed: map<nat, real>, offset: real)
    requires Placed(q, due, armed, offset)
    ensures Placed(q - {e}, due, armed, offset)
  {
  }

  lemma PlacedKnown(q: set<Entry>, due: map<nat, real>, armed: map<nat, real>, offset: real, r: nat)
    requires Placed(q, due, armed, offset) && Announced(q, r)
    ensures r in armed
  {
    var e :| e in q && e.what == Ready(r);
    assert PlacedAt(e, due, armed, offset);
  }

  /** The timer of request r moved `gain` earlier from q to q1. */
  ghost predicate EarlierBy(q: set<Entry>, q1: set<Entry>, r: nat, gain: real) {
    exists e, f :: e in q && f in q1 && e.what == f.what == Ready(r) && f.t == e.t - gain
  }

  /** A cap that takes d off a due time moves the timer itself by d less whatever the offset grew since it was set. */
  lemma CapMoves(q: set<Entry>, q1: set<Entry>, pending: set<nat>, due: map<nat, real>, armed: map<nat, real>,
                 offset: real, first: nat, n: nat, d: real, r: nat)
    requires pending <= due.Keys && Placed(q, due, armed, offset) && Capped(q, q1, pending, due, first, n, d)
    requires InTree(r, pending, first, n) && Announced(q, r)
    ensures r in armed && forall gain :: EarlierBy(q, q1, r, gain) <==> gain == d - (offset - armed[r])
  {
    var e :| e in q && e.what == Ready(r);
    var f :| f in q1 && f.what == Ready(r);
    assert PlacedAt(e, due, armed, offset);
    forall gain
      ensures EarlierBy(q, q1, r, gain) <==> gain == d - (offset - armed[r])
    {
      if EarlierBy(q, q1, r, gain) {
        var a, b :| a in q && b in q1 && a.what == b.what == Ready(r) && b.t == a.t - gain;
        assert PlacedAt(a, due, armed, offset);
      } else {
        assert f.t != e.t - gain;
      }
    }
  }

  /** All timers of the play move d earlier exactly when no shift of all timers came since any of them was set; and
      none is postponed exactly when those shifts add up to d at most. */
  lemma CapExact(q: set<Entry>, q1: set<Entry>, pending: set<nat>, due: map<nat, real>, armed: map<nat, real>,
                 offset: real, first: nat, n: nat, d: real)
    requires pending <= due.Keys && Placed(q, due, armed, offset) && Capped(q, q1, pending, due, first, n, d)
    requires forall r :: InTree(r, pending, first, n) ==> Announced(q, r)
    ensures forall r :: InTree(r, pending, first, n) ==> r in armed
    ensures (forall r :: InTree(r, pending, first, n) ==> EarlierBy(q, q1, r, d)) <==>
            (forall r :: InTree(r, pending, first, n) ==> armed[r] == offset)
    ensures (exists r, gain :: InTree(r, pending, first, n) && EarlierBy(q, q1, r, gain) && gain < 0.0) <==>
            (exists r :: InTree(r, pending, first, n) && offset - armed[r] > d)
  {
    hide Placed, Capped, EarlierBy, Announced;
    forall r | InTree(r, pending, first, n)
      ensures r in armed && forall gain :: EarlierBy(q, q1, r, gain) <==> gain == d - (offset - armed[r])
    {
      CapMoves(q, q1, pending, due, armed, offset, first, n, d, r);
    }
    if r :| InTree(r, pending, first, n) && offset - armed[r] > d {
      assert EarlierBy(q, q1, r, d - (offset - armed[r]));
    }
  }

  /** One of the first i requests of the play that starts at `first`, with a timer set. */
  predicate InTree(r: nat, pending: set<nat>, first: nat, i: nat) {
    r in pending && first <= r < first + i
  }

  /** q1 is q with those requests announced d before they were due, and everything else as it was. */
  ghost predicate Capped(q: set<Entry>, q1: set<Entry>, pending: set<nat>, due: map<nat, real>, first: nat, i: nat,
                         d: real)
    requires pending <= due.Keys
  {
    && (forall e :: e in q1 ==>
          if e.what.Ready? && InTree(e.what.req, pending, first, i) then e.t == due[e.what.req] - d && e.kind == READY
            else e in q)
    && (forall e :: e in q && !(e.what.Ready? && InTree(e.what.req, pending, first, i)) ==> e in q1)
    && (forall r :: InTree(r, pending, first, i) ==> Announced(q1, r))
  }

  /** Of those requests, r is due first. */
  ghost predicate LeastDue(due: map<nat, real>, pending: set<nat>, first: nat, n: nat, r: nat)
  {
    InTree(r, pending, first, n) && r in due && forall x :: InTree(x, pending, first, n) ==>
      x in due && due[x] >= due[r]
  }

  ghost predicate Announced(q: set<Entry>, r: nat) {
    exists e :: e in q && e.what == Ready(r)
  }

  ghost predicate DueCut(due: map<nat, real>, due1: map<nat, real>, pending: set<nat>, first: nat, i: nat, d: real) {
    && due1.Keys == due.Keys
    && forall r :: r in due ==> due1[r] == if InTree(r, pending, first, i) then due[r] - d else due[r]
  }

  lemma CapNone(q: set<Entry>, pending: set<nat>, due: map<nat, real>, first: nat, d: real)
    requires pending <= due.Keys
    ensures Capped(q, q, pending, due, first, 0, d) && DueCut(due, due, pending, first, 0, d)
  {
  }

  lemma CapSkip(q: set<Entry>, q1: set<Entry>, pending: set<nat>, due: map<nat, real>, due1: map<nat, real>, first: nat,
                i: nat, d: real)
    requires pending <= due.Keys && first + i !in pending
    requires Capped(q, q1, pending, due, first, i, d) && DueCut(due, due1, pending, first, i, d)
    ensures Capped(q, q1, pending, due, first, i + 1, d) && DueCut(due, due1, pending, first, i + 1, d)
  {
  }

  lemma CapStep(q: set<Entry>, q1: set<Entry>, pending: set<nat>, due: map<nat, real>, due1: map<nat, real>, first: nat,
                i: nat, d: real, num: nat)
    requires pending <= due.Keys && first + i in pending
    requires Capped(q, q1, pending, due, first, i, d) && DueCut(due, due1, pending, first, i, d)
    ensures var r, t := first + i, due[first + i] - d; (
      Capped(q, Without(q1, r) + {Entry(t, READY, num, Ready(r))}, pending, due, first, i + 1, d) &&
      DueCut(due, due1[r := t], pending, first, i + 1, d))
  {
  }

  lemma CutAt(due: map<nat, real>, due1: map<nat, real>, pending: set<nat>, first: nat, i: nat, d: real)
    requires DueCut(due, due1, pending, first, i, d) && first + i in pending && first + i in due
    ensures first + i in due1 && due1[first + i] == due[first + i]
  {
  }

  lemma CutAll(due: map<nat, real>, due1: map<nat, real>, pending: set<nat>, first: nat, n: nat, d: real)
    requires pending <= due.Keys && DueCut(due, due1, pending, first, n, d)
    ensures forall r :: InTree(r, pending, first, n) ==> r in due1 && due1[r] == due[r] - d
  {
  }

  class Clock {
    var heap: set<Entry>
    var timers: set<Timer>
    var offset: real
    var nextNum: nat
    var ver: map<nat, nat>
    var pending: set<nat>
    /** When each request was last announced for; a later shift of all timers does not reach it. */
    var due: map<nat, real>
    /** The offset at that moment. */
    ghost var armed: map<nat, real>
    var now: real

    ghost function Entries(): set<Entry>
      reads this
    {
      Queue(heap, timers, ver, offset)
    }

    ghost predicate Valid()
      reads this
    {
      && Mains(heap) && Versions(timers, ver, pending)
      && (forall e :: e in heap ==> e.num < nextNum) && (forall x :: x in timers ==> x.num < nextNum)
      && (forall e :: e in Entries() ==> e.t >= now)
      && pending <= due.Keys && offset >= 0.0 && Placed(Entries(), due, armed, offset)
    }

    constructor ()
      ensures Valid() && Entries() == {} && now == 0.0 && pending == {}
      ensures timers == {} && offset == 0.0 && nextNum == 0 && due == map[] && armed == map[]
    {
      heap, timers, offset, nextNum, ver, pending, due, now := {}, {}, 0.0, 0, map[], {}, map[], 0.0;
      armed := map[];
    }

    method PushEvent(t: real, kind: nat, a: int, b: int)
      requires Valid() && t >= now
      modifies this
      ensures Valid() && Entries() == old(Entries()) + {Entry(t, kind, old(nextNum), Main(a, b))}
      ensures nextNum == old(nextNum) + 1 && now == old(now) && pending == old(pending) && due == old(due)
    {
      var e := Entry(t, kind, nextNum, Main(a, b));
      QueueEvent(heap, timers, ver, offset, e);
      PlacedMain(heap, timers, ver, offset, e, due, armed);
      heap := heap + {e};
      nextNum := nextNum + 1;
    }

    /** Setting a timer replaces the one the request still has. */
    method PushTimer(t: real, req: nat)
      requires Valid() && t >= now
      modifies this
      ensures Valid() && Entries() == Without(old(Entries()), req) + {Entry(t, 2, old(nextNum), Ready(req))}
      ensures nextNum == old(nextNum) + 1 && now == old(now) && pending == old(pending) + {req}
      ensures due == old(due)[req := t] && armed == old(armed)[req := offset] && offset == old(offset)
      ensures req in ver && timers == old(timers) + {Timer(t + offset, old(nextNum), req, ver[req])}
    {
      hide Queue, Versions, Without, Mains, Placed;
      PlacedReady(Entries(), req, t, nextNum, due, armed, offset);
      var v := if req in ver then ver[req] + 1 else 1;
      var x := Timer(t + offset, nextNum, req, v);
      OlderVersions(timers, ver, pending, req);
      assert EntryOf(x, offset) == Entry(t, READY, nextNum, Ready(req));
      WithoutLess(Queue(heap, timers, ver, offset), req);
      QueueTimer(heap, timers, ver, offset, x);
      PushVersions(timers, ver, pending, x);
      pending := pending + {req};
      ver := ver[req := v];
      due, armed := due[req := t], armed[req := offset];
      timers := timers + {x};
      nextNum := nextNum + 1;
    }

    /** An idle gap is cut short by moving all timers at once: one addition to the offset. */
    method SkipIdle(idle: real) returns (d: real)
      requires Valid() && idle >= 0.0
      modifies this`offset
      ensures Valid() && d >= 0.0 && offset == old(offset) + d && Entries() == Shifted(old(Entries()), d)
      ensures timers != {} ==> exists x :: x in timers && x.stored - offset <= now + idle
      ensures d > 0.0 ==> forall x :: x in timers ==> x.stored - offset >= now + idle
    {
      hide Queue, Shifted, Versions, Mains, Placed;
      d := 0.0;
      if timers != {} {
        FirstTimer(timers);
        var top :| top in timers && forall f :: f in timers ==> TimerBefore(top, f);
        var next := top.stored - offset;
        if next - now > idle { d := next - now - idle; }
        ShiftedLate(heap, timers, ver, offset, d, top, now);
      } else {
        ShiftedNone(heap, ver, offset, d);
      }
      QueueShift(heap, timers, ver, offset, d);
      PlacedShift(Entries(), due, armed, offset, d);
      offset := offset + d;
    }

    /** `cap_tree_idle` for the play of the n requests from `first` on: its earliest due time is moved to at most `cap`
        from now and its other due times by as much. The timers themselves move as far only if the offset did not grow
        since they were set: one for which it grew by more is postponed. */
    method CapTree(first: nat, n: nat, cap: real) returns (d: real)
      requires Valid()
      modifies this
      ensures Valid() && now == old(now) && pending == old(pending) && offset == old(offset) && d >= 0.0
      ensures d > 0.0 <==> cap > 0.0 && exists r :: LeastDue(old(due), pending, first, n, r) && old(due)[r] > now + cap
      ensures d == 0.0 ==> Entries() == old(Entries()) && due == old(due)
      ensures d > 0.0 ==>
        Capped(old(Entries()), Entries(), pending, old(due), first, n, d) && DueCut(old(due), due, pending, first, n, d)
      ensures d > 0.0 ==> exists r :: LeastDue(due, pending, first, n, r) && due[r] == now + cap
      ensures forall r :: InTree(r, pending, first, n) ==> r in old(armed)
      ensures d > 0.0 ==> forall r, gain :: InTree(r, pending, first, n) ==>
        (EarlierBy(old(Entries()), Entries(), r, gain) <==> gain == d - (offset - old(armed)[r]))
      ensures d > 0.0 ==> (
        (forall r :: InTree(r, pending, first, n) ==> EarlierBy(old(Entries()), Entries(), r, d)) <==>
        (forall r :: InTree(r, pending, first, n) ==> old(armed)[r] == offset))
      ensures d > 0.0 ==> (
        (exists r, gain ::
          InTree(r, pending, first, n) && EarlierBy(old(Entries()), Entries(), r, gain) && gain < 0.0) <==>
        (exists r :: InTree(r, pending, first, n) && offset - old(armed)[r] > d))
    {
      hide Queue, Versions, Mains, Placed, Capped, DueCut, EarlierBy;
      d := 0.0;
      ghost var armed0, q0, due1 := armed, Entries(), due;
      forall r | InTree(r, pending, first, n)
        ensures Announced(q0, r) && r in armed0
      {
        OneReady(heap, timers, ver, pending, offset, r);
        PlacedKnown(q0, due, armed, offset, r);
      }
      if cap <= 0.0 { return; }
      var any, earliest := false, 0.0;
      ghost var least: nat := 0;
      for i := 0 to n
        invariant any ==> InTree(least, pending, first, i) && due[least] == earliest
        invariant forall r :: InTree(r, pending, first, i) ==> any && due[r] >= earliest
      {
        if first + i in pending && (!any || due[first + i] < earliest) {
          any, earliest, least := true, due[first + i], first + i;
        }
      }
      assert any ==> LeastDue(due, pending, first, n, least);
      if !any || earliest - now - cap <= 0.0 { return; }
      d := earliest - now - cap;
      ghost var q, due0 := Entries(), due;
      CapNone(q, pending, due, first, d);
      for i := 0 to n
        invariant Valid() && now == old(now) && pending == old(pending) && offset == old(offset) && due0 == old(due)
        invariant Capped(q, Entries(), pending, due0, first, i, d) && DueCut(due0, due, pending, first, i, d)
      {
        if first + i in pending {
          CutAt(due0, due, pending, first, i, d);
          CapStep(q, Entries(), pending, due0, due, first, i, d, nextNum);
          PushTimer(due[first + i] - d, first + i);
          assert pending == old(pending);
        } else {
          CapSkip(q, Entries(), pending, due0, due, first, i, d);
        }
      }
      CutAll(due0, due, pending, first, n, d);
      CapExact(q0, Entries(), pending, due1, armed0, offset, first, n, d);
      forall r | InTree(r, pending, first, n)
        ensures forall gain :: EarlierBy(q0, Entries(), r, gain) <==> gain == d - (offset - armed0[r])
      {
        CapMoves(q0, Entries(), pending, due1, armed0, offset, first, n, d, r);
      }
      assert LeastDue(due, pending, first, n, least);
    }

    /** Compares the tops of both heaps. */
    method Earliest() returns (takeTimer: bool, top: Timer, first: Entry)
      requires Mains(heap) && (heap != {} || timers != {})
      ensures takeTimer ==> top in timers && forall f :: f in Entries() ==> Before(EntryOf(top, offset), f)
      ensures !takeTimer ==> first in heap && first in Entries() && forall f :: f in Entries() ==> Before(first, f)
    {
      hide Queue, Mains;
      takeTimer, top, first := false, Timer(0.0, 0, 0, 0), Entry(0.0, 0, 0, Main(0, 0));
      if timers != {} {
        FirstTimer(timers);
        top :| top in timers && forall f :: f in timers ==> TimerBefore(top, f);
        takeTimer := true;
      }
      if heap != {} {
        FirstEntry(heap);
        first :| first in heap && forall f :: f in heap ==> Before(first, f);
        if takeTimer {
          var tt := top.stored - offset;
          takeTimer := tt < first.t ||
            (tt == first.t && (READY < first.kind || (READY == first.kind && top.num < first.num)));
        }
      }
      if takeTimer {
        LeastTimer(heap, timers, ver, offset, top);
      } else {
        LeastEvent(heap, timers, ver, offset, first);
      }
    }

    /** The entry at the top of the timers goes; a stale one is not an entry of the queue. */
    method DropTimer(top: Timer) returns (live: bool)
      requires Valid() && top in timers && forall f :: f in Entries() ==> Before(EntryOf(top, offset), f)
      modifies this`timers, this`pending, this`now
      ensures Valid() && timers == old(timers) - {top} && live == Current(top, ver) &&
        (live ==> EntryOf(top, offset) in old(Entries()))
      ensures if live
        then Entries() == old(Entries()) - {EntryOf(top, offset)} && now == EntryOf(top, offset).t &&
          pending == old(pending) - {top.req}
        else Entries() == old(Entries()) && now == old(now) && pending == old(pending)
    {
      hide Queue, Versions, Mains, Before, Placed;
      PlacedLess(Entries(), EntryOf(top, offset), due, armed, offset);
      QueueDrop(heap, timers, ver, pending, offset, top);
      timers := timers - {top};
      live := Current(top, ver);
      if live {
        NotEarlier(old(Entries()), EntryOf(top, offset));
        pending := pending - {top.req};
        now := EntryOf(top, offset).t;
      }
    }

    method DropMain(first: Entry)
      requires Valid() && first in heap && forall f :: f in Entries() ==> Before(first, f)
      modifies this`heap, this`now
      ensures Valid() && first.what.Main? && Entries() == old(Entries()) - {first} && now == first.t
    {
      hide Queue, Versions, Mains, Before, Placed;
      PlacedLess(Entries(), first, due, armed, offset);
      EventGone(heap, timers, ver, offset, first);
      NotEarlier(old(Entries()), first);
      heap := heap - {first};
      now := first.t;
    }

    /** The next entry that still counts, and its removal; stale timers met on the way are thrown out. */
    method Pop() returns (found: bool, e: Entry)
      requires Valid()
      modifies this
      ensures Valid() && found == (old(Entries()) != {}) && nextNum == old(nextNum) && due == old(due) &&
        offset == old(offset)
      ensures found ==>
        e in old(Entries()) && IsFirst(e, old(Entries())) && Entries() == old(Entries()) - {e}
      ensures found ==> now == e.t && pending == (if e.what.Ready? then old(pending) - {e.what.req} else old(pending))
      ensures !found ==> now == old(now) && pending == old(pending)
      ensures armed == old(armed)
    {
      hide Queue, Versions, Mains, Before, IsFirst, Placed;
      found, e := false, Entry(0.0, 0, 0, Main(0, 0));
      while heap != {} || timers != {}
        invariant Valid() && Entries() == old(Entries()) && now == old(now) && pending == old(pending) &&
          nextNum == old(nextNum)
        invariant due == old(due) && armed == old(armed) && offset == old(offset) && !found
        decreases |timers|
      {
        var takeTimer, top, first := Earliest();
        if takeTimer {
          found := DropTimer(top);
          if found {
            e := EntryOf(top, offset);
            FirstIs(e, old(Entries()));
            return;
          }
        } else {
          DropMain(first);
          found, e := true, first;
          FirstIs(e, old(Entries()));
          return;
        }
      }
      NothingLeft(ver, offset);
    }
  }

  lemma ShiftedLate(heap: set<Entry>, timers: set<Timer>, ver: map<nat, nat>, offset: real, d: real, top: Timer,
                    now: real)
    requires Mains(heap) && (forall f :: f in timers ==> TimerBefore(top, f))
    requires (forall e :: e in Queue(heap, timers, ver, offset) ==> e.t >= now) &&
      (d == 0.0 || top.stored - offset - d >= now)
    ensures forall e :: e in Shifted(Queue(heap, timers, ver, offset), d) ==> e.t >= now
  {
  }

  lemma ShiftedNone(heap: set<Entry>, ver: map<nat, nat>, offset: real, d: real)
    requires Mains(heap)
    ensures Shifted(Queue(heap, {}, ver, offset), d) == Queue(heap, {}, ver, offset)
  {
  }

  /** A timer that wins the comparison comes before everything that counts. */
  lemma LeastTimer(heap: set<Entry>, timers: set<Timer>, ver: map<nat, nat>, offset: real, top: Timer)
    requires top in timers && (forall f :: f in timers ==> TimerBefore(top, f))
    requires forall f :: f in heap ==> Before(EntryOf(top, offset), f)
    ensures forall f :: f in Queue(heap, timers, ver, offset) ==> Before(EntryOf(top, offset), f)
  {
  }

  lemma LeastEvent(heap: set<Entry>, timers: set<Timer>, ver: map<nat, nat>, offset: real, first: Entry)
    requires first in heap && (forall f :: f in heap ==> Before(first, f))
    requires forall tm :: tm in timers ==> Before(first, EntryOf(tm, offset))
    ensures first in Queue(heap, timers, ver, offset)
    ensures forall f :: f in Queue(heap, timers, ver, offset) ==> Before(first, f)
  {
  }

  lemma EventGone(heap: set<Entry>, timers: set<Timer>, ver: map<nat, nat>, offset: real, first: Entry)
    requires Mains(heap) && first in heap
    ensures Queue(heap - {first}, timers, ver, offset) == Queue(heap, timers, ver, offset) - {first}
    ensures first.what.Main? && Mains(heap - {first})
  {
  }

  lemma NotEarlier(q: set<Entry>, e: Entry)
    requires forall f :: f in q ==> Before(e, f)
    ensures forall f :: f in q ==> f.t >= e.t
  {
  }

  lemma NothingLeft(ver: map<nat, nat>, offset: real)
    ensures Queue({}, {}, ver, offset) == {}
  {
  }

  /** A request with a pending timer is announced exactly once, any other not at all. */
  lemma OneReady(heap: set<Entry>, timers: set<Timer>, ver: map<nat, nat>, pending: set<nat>, offset: real, r: nat)
    requires Mains(heap) && Versions(timers, ver, pending)
    ensures r in pending <==> exists e :: e in Queue(heap, timers, ver, offset) && e.what == Ready(r)
    ensures forall e, f :: (e in Queue(heap, timers, ver, offset) && f in Queue(heap, timers, ver, offset)
      && e.what == Ready(r) && f.what == Ready(r)) ==> e == f
  {
    var q := Queue(heap, timers, ver, offset);
    if r in pending {
      var x :| x in timers && x.req == r && Current(x, ver);
      assert EntryOf(x, offset) in q;
    }
    forall e, f | e in q && f in q && e.what == Ready(r) && f.what == Ready(r)
      ensures e == f
    {
      var x :| x in timers && Current(x, ver) && e == EntryOf(x, offset);
      var y :| y in timers && Current(y, ver) && f == EntryOf(y, offset);
      assert x == y;
    }
  }

  lemma WithoutNone(q: set<Entry>, r: nat)
    requires forall e :: e in q ==> e.what != Ready(r)
    ensures Without(q, r) == q
  {
  }

  lemma ShiftedTwo(e: Entry, f: Entry, d: real)
    ensures Shifted({e, f}, d) == {Earlier(e, d), Earlier(f, d)}
  {
  }

  /** What the cap of two requests' timers leaves where only request 1 is pending. */
  lemma CappedOne(q: set<Entry>, q1: set<Entry>, due: map<nat, real>, d: real, num: nat)
    requires 1 in due && Capped(q, q1, {1}, due, 0, 2, d) && q == {Entry(25.0, READY, num, Ready(1))}
    requires forall e, f :: e in q1 && f in q1 && e.what == f.what == Ready(1) ==> e == f
    ensures exists e :: q1 == {e} && e.t == due[1] - d && e.what == Ready(1) && e.kind == READY
  {
    assert InTree(1, {1}, 0, 2);
    var e :| e in q1 && e.what == Ready(1);
    assert forall f :: f in q1 ==> f.what == Ready(1) && f.t == e.t;
    assert q1 == {e};
  }

  lemma MovedBy(e: Entry, f: Entry, r: nat, gain: real)
    requires e.what == f.what == Ready(r) && f.t == e.t - gain
    ensures EarlierBy({e}, {f}, r, gain)
  {
    assert e in {e} && f in {f};
  }

  /** Two timers of one play, set at 50 and 65. */
  method TwoTimers() returns (c: Clock)
    ensures fresh(c) && c.Valid() && c.now == 0.0 && c.pending == {0, 1} && c.offset == 0.0
    ensures c.due == map[0 := 50.0, 1 := 65.0] && c.armed == map[0 := 0.0, 1 := 0.0]
    ensures c.Entries() == {Entry(50.0, READY, 0, Ready(0)), Entry(65.0, READY, 1, Ready(1))}
    ensures forall x :: x in c.timers ==> x.stored == 50.0 || x.stored == 65.0
    ensures c.timers != {}
  {
    hide Queue, Versions, Mains, Placed, Without;
    c := new Clock();
    WithoutNone({}, 0);
    c.PushTimer(50.0, 0);
    WithoutNone(c.Entries(), 1);
    c.PushTimer(65.0, 1);
    assert c.due == map[0 := 50.0, 1 := 65.0] && c.armed == map[0 := 0.0, 1 := 0.0];
  }

  /** A run on which the per-tree cap postpones a timer: two timers of one play at 50 and 65, an idle gap cut to 10, the
      first timer fires and its request is over at once, and the cap of 50, far from reached, sets the second from 25 to
      60. */
  method CapPostpones() returns (c: Clock, ghost before: Entry, ghost after: Entry)
    ensures fresh(c) && c.Valid() && c.now == 10.0 && c.Entries() == {after}
    ensures before.what == after.what == Ready(1) && before.t == 25.0 && after.t == 60.0
    ensures EarlierBy({before}, c.Entries(), 1, -35.0)
  {
    hide Queue, Versions, Mains, Placed, Shifted, Capped, EarlierBy;
    c := TwoTimers();
    var skipped := c.SkipIdle(10.0);
    var first, second := Entry(10.0, READY, 0, Ready(0)), Entry(25.0, READY, 1, Ready(1));
    ShiftedTwo(Entry(50.0, READY, 0, Ready(0)), Entry(65.0, READY, 1, Ready(1)), skipped);
    assert c.Entries() == {first, second};
    var found, e := c.Pop();
    assert found && e == first;
    before := second;
    assert {first, second} - {first} == {second};
    ghost var q := c.Entries();
    assert q == {before} && c.pending == {1};
    assert LeastDue(c.due, c.pending, 0, 2, 1);
    ghost var due := c.due;
    var d := c.CapTree(0, 2, 50.0);
    assert c.due[1] == 60.0 && c.due[1] == due[1] - d;
    OneReady(c.heap, c.timers, c.ver, c.pending, c.offset, 1);
    CappedOne(q, c.Entries(), due, d, 1);
    after :| c.Entries() == {after} && after.t == due[1] - d && after.what == Ready(1) && after.kind == READY;
    MovedBy(before, after, 1, -35.0);
  }
}
