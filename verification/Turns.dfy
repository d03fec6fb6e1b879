/** Who stands before whom among the requests that run and wait. */
module Turns {
  import opened Commons

  /** s is t with some elements left out. */
  ghost predicate Within(s: seq<nat>, t: seq<nat>)
    decreases |t|
  {
    s == [] ||
      (t != [] && (Within(s, t[..|t| - 1]) || (s[|s| - 1] == t[|t| - 1] && Within(s[..|s| - 1], t[..|t| - 1]))))
  }

  /** The queue lost requests at its front only, and those that now run came from there, in that order. */
  ghost predicate FirstServed(waiting0: seq<nat>, waiting: seq<nat>, running0: seq<nat>, running: seq<nat>) {
    && |waiting| <= |waiting0| && waiting == waiting0[|waiting0| - |waiting|..]
    && running0 <= running && Within(running[|running0|..], waiting0[..|waiting0| - |waiting|])
  }

  lemma WithinOne(s: seq<nat>, running: seq<nat>, i: nat)
    requires i < |running| && Within(s, running[..i])
    ensures Within(s, running[..i + 1])
  {
    assert running[..i + 1][..i] == running[..i];
  }

  lemma {:induction false} WithinAll(s: seq<nat>, running: seq<nat>, i: nat)
    requires i <= |running| && Within(s, running[..i])
    ensures Within(s, running)
    decreases |running| - i
  {
    if i < |running| {
      WithinOne(s, running, i);
      WithinAll(s, running, i + 1);
    } else {
      assert running[..i] == running;
    }
  }

  lemma FirstServedNone(waiting: seq<nat>, running: seq<nat>)
    ensures FirstServed(waiting, waiting, running, running)
  {
  }

  lemma FirstServedNext(waiting0: seq<nat>, waiting1: seq<nat>, waiting: seq<nat>, running0: seq<nat>,
                        running1: seq<nat>, running: seq<nat>)
    requires FirstServed(waiting0, waiting1, running0, running1) && waiting1 != []
    requires waiting == waiting1[1..] || waiting == waiting1
    requires running == running1 || (running == running1 + [waiting1[0]] && waiting == waiting1[1..])
    ensures FirstServed(waiting0, waiting, running0, running)
  {
    var n := |waiting0| - |waiting1|;
    if waiting == waiting1[1..] {
      var t, s := waiting0[..n + 1], running[|running0|..];
      assert t[..n] == waiting0[..n] && t[n] == waiting1[0];
      if running != running1 { assert s[..|s| - 1] == running1[|running0|..] && s[|s| - 1] == t[n]; }
      assert Within(s, t);
    }
  }

  // ---- one line ----

  /** x stands before y. */
  ghost predicate Ahead(line: seq<nat>, x: nat, y: nat) {
    exists i, j :: 0 <= i < j < |line| && line[i] == x && line[j] == y
  }

  /** Requests that stay in line keep their places. Only one of `late` may fall behind, and only behind one that is not
      in `decoders`; nobody new comes in. */
  ghost predicate InTurn(line0: seq<nat>, line: seq<nat>, decoders: set<nat>, late: set<nat>) {
    && (forall x :: x in line ==> x in line0)
    && (forall x, y :: Ahead(line0, x, y) && x in line && y in line && !(x in late && y !in decoders) ==>
          Ahead(line, x, y))
  }

  /** All in `decoders` but the first of them count as late. */
  ghost predicate LateAre(running: seq<nat>, decoders: set<nat>, late: set<nat>) {
    forall i, j :: 0 <= i < j < |running| && running[i] in decoders && running[j] in decoders ==> running[j] in late
  }

  ghost function Late(running: seq<nat>, decoders: set<nat>): (late: set<nat>)
    ensures LateAre(running, decoders, late)
  {
    set y | y in running && y in decoders && exists x :: x in decoders && Ahead(running, x, y)
  }

  lemma InTurnSelf(line: seq<nat>, decoders: set<nat>, late: set<nat>)
    ensures InTurn(line, line, decoders, late)
  {
  }

  lemma InTurnTrans(line0: seq<nat>, line1: seq<nat>, line: seq<nat>, decoders: set<nat>, late: set<nat>)
    requires InTurn(line0, line1, decoders, late) && InTurn(line1, line, decoders, late)
    ensures InTurn(line0, line, decoders, late)
  {
    hide Ahead;
  }

  /** A decoding request that is not the first of them leaves its place j for the front of the queue. */
  lemma FallsBack(running: seq<nat>, waiting: seq<nat>, j: nat, decoders: set<nat>, late: set<nat>)
    requires j < |running| && running[j] in late
    requires forall k :: j < k < |running| ==> running[k] !in decoders
    ensures InTurn(running + waiting, (running[..j] + running[j + 1..]) + ([running[j]] + waiting), decoders, late)
  {
    var line0, line := running + waiting, (running[..j] + running[j + 1..]) + ([running[j]] + waiting);
    forall x | x in line
      ensures x in line0
    {
      var k :| 0 <= k < |line| && line[k] == x;
      assert line0[Before(k, j, |running|)] == x;
    }
    forall x, y | Ahead(line0, x, y) && x in line && y in line && !(x in late && y !in decoders)
      ensures Ahead(line, x, y)
    {
      var k, m :| 0 <= k < m < |line0| && line0[k] == x && line0[m] == y;
      var k1, m1 := Behind(k, j, |running|), Behind(m, j, |running|);
      assert line[k1] == x && line[m1] == y;
    }
  }

  /** Where the one now at place k stood, and where the one at place k stands, when the one at j of n moves to n - 1. */
  ghost function Before(k: nat, j: nat, n: nat): nat
    requires j < n
  {
    if k < j || k >= n then k else if k == n - 1 then j else k + 1
  }

  ghost function Behind(k: nat, j: nat, n: nat): nat
    requires j < n
  {
    if k < j || k >= n then k else if k == j then n - 1 else k - 1
  }

  lemma {:induction false} WithinIn(s: seq<nat>, t: seq<nat>)
    requires Within(s, t)
    ensures forall x :: x in s ==> x in t
    decreases |t|
  {
    if s != [] {
      var n := |t| - 1;
      assert t == t[..n] + [t[n]];
      if Within(s, t[..n]) {
        WithinIn(s, t[..n]);
      } else {
        WithinIn(s[..|s| - 1], t[..n]);
        assert s == s[..|s| - 1] + [t[n]];
      }
    }
  }

  lemma AheadInit(t: seq<nat>, x: nat, y: nat)
    requires Distinct(t) && Ahead(t, x, y)
    ensures x != y && x != t[|t| - 1] && (y != t[|t| - 1] ==> Ahead(t[..|t| - 1], x, y))
  {
    var i, j :| 0 <= i < j < |t| && t[i] == x && t[j] == y;
    if y != t[|t| - 1] { assert t[..|t| - 1][i] == x && t[..|t| - 1][j] == y; }
  }

  lemma AheadSnoc(s: seq<nat>, x: nat, y: nat)
    requires s != [] && (if y == s[|s| - 1] then x in s[..|s| - 1] else Ahead(s[..|s| - 1], x, y))
    ensures Ahead(s, x, y)
  {
    var m := |s| - 1;
    if y == s[m] {
      var k :| 0 <= k < m && s[..m][k] == x;
      assert s[k] == x;
    } else {
      var i, j :| 0 <= i < j < m && s[..m][i] == x && s[..m][j] == y;
      assert s[i] == x && s[j] == y;
    }
  }

  lemma {:induction false} WithinAhead(s: seq<nat>, t: seq<nat>, x: nat, y: nat)
    requires Within(s, t) && Distinct(t) && Ahead(t, x, y) && x in s && y in s
    ensures Ahead(s, x, y)
    decreases |t|
  {
    hide Ahead;
    var n, m := |t| - 1, |s| - 1;
    AheadInit(t, x, y);
    if Within(s, t[..n]) {
      WithinIn(s, t[..n]);
      WithinAhead(s, t[..n], x, y);
    } else {
      assert s == s[..m] + [t[n]];
      if y != t[n] { WithinAhead(s[..m], t[..n], x, y); }
      AheadSnoc(s, x, y);
    }
  }

  lemma {:induction false} WithinBefore(s: seq<nat>, t: seq<nat>, pre: seq<nat>)
    requires Within(s, t)
    ensures Within(pre + s, pre + t)
    decreases |t|
  {
    var u, v := pre + s, pre + t;
    if t == [] {
      WithinSelf(pre);
      assert u == pre && v == pre;
    } else {
      var n := |t| - 1;
      assert v[..|v| - 1] == pre + t[..n];
      if Within(s, t[..n]) {
        WithinBefore(s, t[..n], pre);
      } else {
        WithinBefore(s[..|s| - 1], t[..n], pre);
        assert u[..|u| - 1] == pre + s[..|s| - 1];
      }
    }
  }

  lemma {:induction false} WithinBehind(s: seq<nat>, t: seq<nat>, w: seq<nat>)
    requires Within(s, t)
    ensures Within(s + w, t + w)
    decreases |w|
  {
    var u, v := s + w, t + w;
    if w == [] {
      assert u == s && v == t;
    } else {
      var n := |w| - 1;
      WithinBehind(s, t, w[..n]);
      assert u[..|u| - 1] == s + w[..n] && v[..|v| - 1] == t + w[..n];
    }
  }

  lemma {:induction false} WithinSelf(s: seq<nat>)
    ensures Within(s, s)
    decreases |s|
  {
    if s != [] { WithinSelf(s[..|s| - 1]); }
  }

  /** Admitting from the front of the queue lets nobody pass. */
  lemma ServedInTurn(waiting0: seq<nat>, waiting: seq<nat>, running0: seq<nat>, running: seq<nat>, decoders: set<nat>,
                     late: set<nat>)
    requires FirstServed(waiting0, waiting, running0, running) && Distinct(running0 + waiting0)
    ensures InTurn(running0 + waiting0, running + waiting, decoders, late)
  {
    hide Ahead;
    var n := |waiting0| - |waiting|;
    var line0, line := running0 + waiting0, running + waiting;
    WithinBefore(running[|running0|..], waiting0[..n], running0);
    WithinBehind(running0 + running[|running0|..], running0 + waiting0[..n], waiting);
    assert line == running0 + running[|running0|..] + waiting && line0 == running0 + waiting0[..n] + waiting;
    WithinIn(line, line0);
    forall x, y | Ahead(line0, x, y) && x in line && y in line
      ensures Ahead(line, x, y)
    {
      WithinAhead(line, line0, x, y);
    }
  }

  lemma NotFirst(line: seq<nat>, x: nat, y: nat)
    requires Distinct(line) && Ahead(line, x, y)
    ensures line != [] && y != line[0]
  {
  }

  /** Whoever was first and is not late is still first, if still in line. */
  lemma FirstStays(line0: seq<nat>, line: seq<nat>, decoders: set<nat>, late: set<nat>)
    requires InTurn(line0, line, decoders, late) && Distinct(line) && line0 != [] && line0[0] !in late
    requires line0[0] in line
    ensures line[0] == line0[0]
  {
    var x, y := line0[0], line[0];
    if x != y {
      assert y in line;
      var k :| 0 <= k < |line0| && line0[k] == y;
      assert Ahead(line0, x, y);
      NotFirst(line, x, y);
    }
  }
}
