/** Measured latency tables: a trie of grid keys, and nested interpolation between its lines. */
module Interpolation {
  import opened Commons

  datatype Branch = Branch(key: real, node: Node)

  /** A leaf holds a value; below every other node the keys of one axis increase. */
  datatype Node = Node(ch: seq<Branch>, val: Option<real>)

  datatype Axis = Axis(q: real, curved: bool)

  datatype Res = Val(v: real) | OutOfRange(axis: nat, above: bool) | Miss

  // ---- blending ----

  /** The square root, by what defines it. */
  ghost predicate IsRoot(root: real -> real) {
    forall v: real {:trigger root(v)} :: v >= 0.0 ==> root(v) >= 0.0 && root(v) * root(v) == v
  }

  function Line(a: real, b: real, w: real): real {
    a + (b - a) * w
  }

  /** Values are blended as they are, or as their square roots. */
  function Blend(root: real -> real, curved: bool, a: real, b: real, w: real): real {
    if curved then Line(root(a), root(b), w) * Line(root(a), root(b), w) else Line(a, b, w)
  }

  lemma Times(x: real, y: real, w: real)
    requires x <= y && w >= 0.0
    ensures x * w <= y * w
  {
  }

  lemma Square(x: real, y: real)
    requires 0.0 <= x <= y
    ensures x * x <= y * y
  {
  }

  lemma RootMono(root: real -> real, x: real, y: real)
    requires IsRoot(root) && 0.0 <= x <= y
    ensures root(x) <= root(y)
  {
    SquareOrder(root(y), root(x));
  }

  lemma Positive(x: real, y: real)
    requires x > 0.0 && y > 0.0
    ensures x * y > 0.0
  {
  }

  lemma SquareOrder(x: real, y: real)
    requires x >= 0.0 && y >= 0.0
    ensures x < y ==> x * x < y * y
  {
    if x < y {
      Positive(y - x, y + x);
      assert (y - x) * (y + x) == y * y - x * x;
    }
  }

  function Weighted(a: real, u: real, b: real, w: real): real {
    a * u + b * w
  }

  lemma WeightedMono(a: real, b: real, c: real, d: real, w: real, u: real)
    requires a <= c && b <= d && 0.0 <= w && 0.0 <= u
    ensures Weighted(a, u, b, w) <= Weighted(c, u, d, w)
  {
  }

  lemma LineSplit(a: real, b: real, w: real, u: real)
    requires u == 1.0 - w
    ensures Line(a, b, w) == Weighted(a, u, b, w)
  {
  }

  lemma LineMono(a: real, b: real, c: real, d: real, w: real)
    requires a <= c && b <= d && 0.0 <= w <= 1.0
    ensures Line(a, b, w) <= Line(c, d, w)
  {
    hide Line, Weighted;
    var u := 1.0 - w;
    LineSplit(a, b, w, u);
    LineSplit(c, d, w, u);
    WeightedMono(a, b, c, d, w, u);
  }

  lemma LineStep(a: real, b: real, v: real, w: real)
    requires a <= b && v <= w
    ensures Line(a, b, v) <= Line(a, b, w)
  {
  }

  lemma RootPositive(root: real -> real, x: real)
    requires IsRoot(root) && x >= 0.0
    ensures root(x) >= 0.0
  {
  }

  lemma LinePositive(a: real, b: real, w: real)
    requires 0.0 <= a && 0.0 <= b && 0.0 <= w <= 1.0
    ensures Line(a, b, w) >= 0.0
  {
    LineMono(0.0, 0.0, a, b, w);
  }

  /** Larger ends, larger blend. */
  lemma BlendMono(root: real -> real, curved: bool, a: real, b: real, c: real, d: real, w: real)
    requires IsRoot(root) && 0.0 <= a <= c && 0.0 <= b <= d && 0.0 <= w <= 1.0
    ensures Blend(root, curved, a, b, w) <= Blend(root, curved, c, d, w)
  {
    hide Line, IsRoot;
    if curved {
      RootMono(root, a, c);
      RootMono(root, b, d);
      RootPositive(root, a);
      RootPositive(root, b);
      LineMono(root(a), root(b), root(c), root(d), w);
      LinePositive(root(a), root(b), w);
      Square(Line(root(a), root(b), w), Line(root(c), root(d), w));
    } else {
      LineMono(a, b, c, d, w);
    }
  }

  lemma BlendEnds(root: real -> real, curved: bool, a: real, w: real)
    requires IsRoot(root) && a >= 0.0
    ensures Blend(root, curved, a, a, w) == a
  {
  }

  /** A blend lies between its ends. */
  lemma BlendBetween(root: real -> real, curved: bool, a: real, b: real, w: real, lo: real, hi: real)
    requires IsRoot(root) && 0.0 <= lo && lo <= a <= hi && lo <= b <= hi && 0.0 <= w <= 1.0
    ensures lo <= Blend(root, curved, a, b, w) <= hi
  {
    BlendMono(root, curved, lo, lo, a, b, w);
    BlendMono(root, curved, a, b, hi, hi, w);
    BlendEnds(root, curved, lo, w);
    BlendEnds(root, curved, hi, w);
  }

  /** Further along, larger, when the far end is larger. */
  lemma BlendStep(root: real -> real, curved: bool, a: real, b: real, v: real, w: real)
    requires IsRoot(root) && 0.0 <= a <= b && 0.0 <= v <= w <= 1.0
    ensures Blend(root, curved, a, b, v) <= Blend(root, curved, a, b, w)
  {
    if curved {
      RootMono(root, a, b);
      LineStep(root(a), root(b), v, w);
      LineMono(0.0, 0.0, root(a), root(b), v);
      Square(Line(root(a), root(b), v), Line(root(a), root(b), w));
    } else {
      LineStep(a, b, v, w);
    }
  }

  // ---- the trie ----

  ghost predicate Sorted(ch: seq<Branch>) {
    forall i, j {:trigger ch[i], ch[j]} :: 0 <= i < j < |ch| ==> ch[i].key < ch[j].key
  }

  /** `lower_bound`: the first child whose key is at least c. */
  function Lower(ch: seq<Branch>, c: real): (i: nat)
    ensures i <= |ch| && (forall j :: 0 <= j < i ==> ch[j].key < c) && (i < |ch| ==> ch[i].key >= c)
  {
    if ch == [] || ch[0].key >= c then 0
    else
      assert ch == [ch[0]] + ch[1..];
      1 + Lower(ch[1..], c)
  }

  function Weight(lo: real, hi: real, c: real): real
    requires lo < hi
  {
    (c - lo) / (hi - lo)
  }

  function Mix(root: real -> real, curved: bool, rl: Res, rh: Res, w: real): Res {
    if !rl.Val? then rl else if !rh.Val? then rh else Val(Blend(root, curved, rl.v, rh.v, w))
  }

  function Resolve(root: real -> real, n: Node, axes: seq<Axis>, d: nat): Res
    requires d <= |axes|
    decreases |axes| - d
  {
    if d == |axes| then (if n.val.None? then Miss else Val(n.val.value))
    else
      var c, i := axes[d].q, Lower(n.ch, axes[d].q);
      if i < |n.ch| && n.ch[i].key == c then Resolve(root, n.ch[i].node, axes, d + 1)
      else if n.ch == [] then Miss
      else if i == 0 then OutOfRange(d, false)
      else if i == |n.ch| then OutOfRange(d, true)
      else
        Mix(root, axes[d].curved, Resolve(root, n.ch[i - 1].node, axes, d + 1),
          Resolve(root, n.ch[i].node, axes, d + 1),
            Weight(n.ch[i - 1].key, n.ch[i].key, c))
  }

  lemma WeightIn(lo: real, hi: real, c: real)
    requires lo <= c <= hi && lo < hi
    ensures 0.0 <= Weight(lo, hi, c) <= 1.0
  {
    var w, gap := Weight(lo, hi, c), hi - lo;
    assert w * gap == c - lo;
    assert (w - 1.0) * gap == w * gap - gap;
    if w < 0.0 { Positive(-w, gap); }
    if w > 1.0 { Positive(w - 1.0, gap); }
  }

  lemma WeightMono(lo: real, hi: real, c: real, e: real)
    requires lo < hi && c <= e
    ensures Weight(lo, hi, c) <= Weight(lo, hi, e)
  {
    assert Weight(lo, hi, e) - Weight(lo, hi, c) == (e - c) / (hi - lo);
  }

  // ---- bounds ----

  /** Every value stored depth levels below n lies between lo and hi. */
  ghost predicate Leaves(n: Node, depth: nat, lo: real, hi: real)
    decreases depth
  {
    if depth == 0 then n.val.Some? ==> lo <= n.val.value <= hi
    else forall i {:trigger n.ch[i]} :: 0 <= i < |n.ch| ==> Leaves(n.ch[i].node, depth - 1, lo, hi)
  }

  /** An interpolated value lies between the least and the greatest measured one, on any table. */
  lemma {:induction false} Bounded(root: real -> real, n: Node, axes: seq<Axis>, d: nat, lo: real, hi: real)
    requires IsRoot(root) && d <= |axes| && 0.0 <= lo && Leaves(n, |axes| - d, lo, hi)
    ensures var r := Resolve(root, n, axes, d); r.Val? ==> lo <= r.v <= hi
    decreases |axes| - d
  {
    if d < |axes| {
      var c, i := axes[d].q, Lower(n.ch, axes[d].q);
      if i < |n.ch| {
        Bounded(root, n.ch[i].node, axes, d + 1, lo, hi);
        if i > 0 && n.ch[i].key != c {
          Bounded(root, n.ch[i - 1].node, axes, d + 1, lo, hi);
          var rl, rh := Resolve(root, n.ch[i - 1].node, axes, d + 1), Resolve(root, n.ch[i].node, axes, d + 1);
          WeightIn(n.ch[i - 1].key, n.ch[i].key, c);
          if rl.Val? && rh.Val? {
            BlendBetween(root, axes[d].curved, rl.v, rh.v, Weight(n.ch[i - 1].key, n.ch[i].key, c), lo, hi);
          }
        }
      }
    }
  }

  // ---- grid points ----

  function Child(ch: seq<Branch>, key: real): Option<Node> {
    var i := Lower(ch, key);
    if i < |ch| && ch[i].key == key then Some(ch[i].node) else None
  }

  function WithChild(ch: seq<Branch>, key: real, n: Node): seq<Branch> {
    var i := Lower(ch, key);
    if i < |ch| && ch[i].key == key then ch[i := Branch(key, n)] else ch[..i] + [Branch(key, n)] + ch[i..]
  }

  lemma LowerIs(ch: seq<Branch>, c: real, i: nat)
    requires i <= |ch| && (forall j :: 0 <= j < i ==> ch[j].key < c) && (i < |ch| ==> ch[i].key >= c)
    ensures Lower(ch, c) == i
  {
  }

  lemma WithChildIs(ch: seq<Branch>, key: real, n: Node, other: real)
    requires Sorted(ch)
    ensures Child(WithChild(ch, key, n), other) == if other == key then Some(n) else Child(ch, other)
  {
    hide Lower;
    var i, j, m := Lower(ch, key), Lower(ch, other), WithChild(ch, key, n);
    if i < |ch| && ch[i].key == key {
      LowerIs(m, other, j);
    } else {
      WithChildAt(ch, key, n);
      NoTies(ch, i, j, key, other);
      LowerIs(m, other, if other == key then i else if other < key then j else j + 1);
    }
  }

  lemma WithChildAt(ch: seq<Branch>, key: real, n: Node)
    requires Child(ch, key).None?
    ensures var i, m := Lower(ch, key), WithChild(ch, key, n); (
      |m| == |ch| + 1 &&
      forall k :: 0 <= k < |m| ==> m[k] == if k < i then ch[k] else if k == i then Branch(key, n) else ch[k - 1])
  {
  }

  /** A new key goes between smaller and larger ones. */
  lemma NoTies(ch: seq<Branch>, i: nat, j: nat, key: real, other: real)
    requires Sorted(ch) && i == Lower(ch, key) && j == Lower(ch, other) && (i < |ch| ==> ch[i].key > key)
    ensures other < key ==> j <= i
    ensures other > key ==> i <= j
    ensures forall k :: 0 <= k < j ==> ch[k].key < other
    ensures j < |ch| ==> ch[j].key >= other
  {
  }

  lemma WithChildSorted(ch: seq<Branch>, key: real, n: Node)
    requires Sorted(ch)
    ensures Sorted(WithChild(ch, key, n))
  {
  }

  /** The value stored under exactly these keys. */
  function Stored(n: Node, keys: seq<real>): Option<real>
    decreases |keys|
  {
    if keys == [] then n.val
    else match Child(n.ch, keys[0])
      case None => None
      case Some(m) => Stored(m, keys[1..])
  }

  function Keys(axes: seq<Axis>): (k: seq<real>)
    ensures |k| == |axes|
  {
    seq(|axes|, i requires 0 <= i < |axes| => axes[i].q)
  }

  /** At a measured point the stored value is returned, untouched by interpolation. */
  lemma {:induction false} ExactAtGrid(root: real -> real, n: Node, axes: seq<Axis>, d: nat)
    requires d <= |axes| && Stored(n, Keys(axes)[d..]).Some?
    ensures Resolve(root, n, axes, d) == Val(Stored(n, Keys(axes)[d..]).value)
    decreases |axes| - d
  {
    if d < |axes| {
      assert Keys(axes)[d..][0] == axes[d].q && Keys(axes)[d..][1..] == Keys(axes)[d + 1..];
      var i := Lower(n.ch, axes[d].q);
      ExactAtGrid(root, n.ch[i].node, axes, d + 1);
    }
  }

  // ---- building the trie ----

  const EMPTY := Node([], None)

  /** One row goes to its leaf; the first row for a leaf wins. */
  function Insert(n: Node, keys: seq<real>, v: Option<real>): Node
    decreases |keys|
  {
    if keys == [] then (if n.val.None? then n.(val := v) else n)
    else
      var below := match Child(n.ch, keys[0]) case None => EMPTY case Some(m) => m;
      n.(ch := WithChild(n.ch, keys[0], Insert(below, keys[1..], v)))
  }

  ghost predicate Ordered(n: Node, depth: nat)
    decreases depth
  {
    depth > 0 ==> Sorted(n.ch) && forall i {:trigger n.ch[i]} :: 0 <= i < |n.ch| ==> Ordered(n.ch[i].node, depth - 1)
  }

  lemma {:induction false} InsertOrdered(n: Node, keys: seq<real>, v: Option<real>)
    requires Ordered(n, |keys|)
    ensures Ordered(Insert(n, keys, v), |keys|)
    decreases |keys|
  {
    if keys != [] {
      var below := match Child(n.ch, keys[0]) case None => EMPTY case Some(m) => m;
      InsertOrdered(below, keys[1..], v);
      WithChildSorted(n.ch, keys[0], Insert(below, keys[1..], v));
    }
  }

  lemma {:induction false} NothingStored(keys: seq<real>)
    ensures Stored(EMPTY, keys) == None
  {
  }

  /** What a row adds to the table, and all that it adds. */
  lemma {:induction false} InsertStores(n: Node, keys: seq<real>, v: Option<real>, other: seq<real>)
    requires Ordered(n, |keys|) && |other| == |keys|
    ensures Stored(Insert(n, keys, v), other) ==
      if other == keys && Stored(n, keys).None? then v else Stored(n, other)
    decreases |keys|
  {
    hide Lower, WithChild;
    if keys != [] {
      assert other == [other[0]] + other[1..] && keys == [keys[0]] + keys[1..];
      var below := match Child(n.ch, keys[0]) case None => EMPTY case Some(m) => m;
      ChildOrdered(n, |keys|, keys[0]);
      InsertStores(below, keys[1..], v, other[1..]);
      WithChildIs(n.ch, keys[0], Insert(below, keys[1..], v), other[0]);
      NothingStored(other[1..]);
      NothingStored(keys[1..]);
    }
  }

  lemma ChildOrdered(n: Node, depth: nat, key: real)
    requires Ordered(n, depth) && depth > 0
    ensures match Child(n.ch, key) case None => Ordered(EMPTY, depth - 1) case Some(m) => Ordered(m, depth - 1)
  {
  }

  /** `latency` is absent where the table holds no number. */
  datatype Row = Row(keys: seq<real>, latency: Option<real>)

  /** The first latency measured under these keys. */
  function FirstRow(rows: seq<Row>, keys: seq<real>): Option<real> {
    if rows == [] then None
    else
      var before := FirstRow(rows[..|rows| - 1], keys);
      if before.None? && rows[|rows| - 1].keys == keys then rows[|rows| - 1].latency else before
  }

  /** `build_trie`: after it, every lookup by keys gives the first latency with those keys, and nothing else is
      stored. */
  method BuildTrie(rows: seq<Row>, depth: nat) returns (n: Node)
    requires forall i :: 0 <= i < |rows| ==> |rows[i].keys| == depth
    ensures Ordered(n, depth)
    ensures forall keys :: |keys| == depth ==> Stored(n, keys) == FirstRow(rows, keys)
  {
    n := EMPTY;
    forall keys: seq<real> | |keys| == depth
      ensures Stored(n, keys) == FirstRow(rows[..0], keys)
    {
      NothingStored(keys);
    }
    for k := 0 to |rows|
      invariant Ordered(n, depth)
      invariant forall keys :: |keys| == depth ==> Stored(n, keys) == FirstRow(rows[..k], keys)
    {
      var r := rows[k];
      assert rows[..k + 1][..k] == rows[..k];
      InsertOrdered(n, r.keys, r.latency);
      forall keys: seq<real> | |keys| == depth
        ensures Stored(Insert(n, r.keys, r.latency), keys) == FirstRow(rows[..k + 1], keys)
      {
        InsertStores(n, r.keys, r.latency, keys);
      }
      n := Insert(n, r.keys, r.latency);
    }
    assert rows[..|rows|] == rows;
  }

  // ---- full grids ----

  ghost predicate Increasing(keys: seq<real>) {
    forall i, j {:trigger keys[i], keys[j]} :: 0 <= i < j < |keys| ==> keys[i] < keys[j]
  }

  /** A full rectangular grid with these keys on each axis and a value of at least zero at every point. */
  ghost predicate Rect(n: Node, keys: seq<seq<real>>)
    decreases |keys|
  {
    if keys == [] then n.val.Some? && n.val.value >= 0.0
    else
      && |n.ch| == |keys[0]| > 0 && Increasing(keys[0])
      && forall i {:trigger n.ch[i]} :: 0 <= i < |n.ch| ==> n.ch[i].key == keys[0][i] && Rect(n.ch[i].node, keys[1..])
  }

  /** Point by point, m is nowhere above n. */
  ghost predicate Below(m: Node, n: Node, keys: seq<seq<real>>)
    requires Rect(m, keys) && Rect(n, keys)
    decreases |keys|
  {
    if keys == [] then m.val.value <= n.val.value
    else forall i {:trigger m.ch[i]} {:trigger n.ch[i]} :: 0 <= i < |m.ch| ==>
      Below(m.ch[i].node, n.ch[i].node, keys[1..])
  }

  /** Along axis k the measured values never fall. */
  ghost predicate Rises(n: Node, keys: seq<seq<real>>, k: nat)
    requires Rect(n, keys) && k < |keys|
    decreases |keys|
  {
    if k == 0 then
      forall i, j {:trigger n.ch[i], n.ch[j]} :: 0 <= i <= j < |n.ch| ==> Below(n.ch[i].node, n.ch[j].node, keys[1..])
    else
      forall i {:trigger n.ch[i]} :: 0 <= i < |n.ch| ==> Rises(n.ch[i].node, keys[1..], k - 1)
  }

  predicate InRange(axes: seq<Axis>, d: nat, keys: seq<seq<real>>)
    requires d + |keys| == |axes| && forall k :: 0 <= k < |keys| ==> keys[k] != []
  {
    forall k :: 0 <= k < |keys| ==> keys[k][0] <= axes[d + k].q <= keys[k][|keys[k]| - 1]
  }

  lemma {:induction false} RectKeys(n: Node, keys: seq<seq<real>>)
    requires Rect(n, keys)
    ensures forall k :: 0 <= k < |keys| ==> keys[k] != []
    decreases |keys|
  {
    if keys != [] {
      RectKeys(n.ch[0].node, keys[1..]);
      forall k | 0 <= k < |keys|
        ensures keys[k] != []
      {
        if k > 0 { assert keys[1..][k - 1] != []; }
      }
    }
  }

  lemma InnerRange(axes: seq<Axis>, d: nat, keys: seq<seq<real>>)
    requires keys != [] && d + |keys| == |axes| && (forall k :: 0 <= k < |keys| ==> keys[k] != [])
    ensures InRange(axes, d, keys) <==>
      keys[0][0] <= axes[d].q <= keys[0][|keys[0]| - 1] && InRange(axes, d + 1, keys[1..])
  {
  }

  /** Where in a sorted list of children a query falls. */
  lemma LowerInRange(ch: seq<Branch>, c: real)
    requires Sorted(ch) && ch != [] && ch[0].key <= c <= ch[|ch| - 1].key
    ensures Lower(ch, c) < |ch| && (Lower(ch, c) == 0 ==> ch[0].key == c)
  {
  }

  lemma RectSorted(n: Node, keys: seq<seq<real>>)
    requires Rect(n, keys) && keys != []
    ensures Sorted(n.ch) && n.ch != [] && n.ch[0].key == keys[0][0] && n.ch[|n.ch| - 1].key == keys[0][|keys[0]| - 1]
  {
  }

  /** On a full grid a query resolves exactly when every axis is in range. */
  lemma {:induction false} ResolvesInRange(root: real -> real, n: Node, axes: seq<Axis>, d: nat, keys: seq<seq<real>>)
    requires IsRoot(root) && Rect(n, keys) && d + |keys| == |axes| && (forall k :: 0 <= k < |keys| ==> keys[k] != [])
    ensures Resolve(root, n, axes, d).Val? <==> InRange(axes, d, keys)
    ensures Resolve(root, n, axes, d).Val? ==> Resolve(root, n, axes, d).v >= 0.0
    decreases |keys|
  {
    if keys != [] {
      var c, i := axes[d].q, Lower(n.ch, axes[d].q);
      RectSorted(n, keys);
      InnerRange(axes, d, keys);
      if n.ch[0].key <= c <= n.ch[|n.ch| - 1].key {
        LowerInRange(n.ch, c);
        ResolvesInRange(root, n.ch[i].node, axes, d + 1, keys[1..]);
        if n.ch[i].key != c {
          ResolvesInRange(root, n.ch[i - 1].node, axes, d + 1, keys[1..]);
          var rl, rh := Resolve(root, n.ch[i - 1].node, axes, d + 1), Resolve(root, n.ch[i].node, axes, d + 1);
          WeightIn(n.ch[i - 1].key, n.ch[i].key, c);
          if rl.Val? && rh.Val? {
            BlendMono(root, axes[d].curved, 0.0, 0.0, rl.v, rh.v, Weight(n.ch[i - 1].key, n.ch[i].key, c));
            BlendEnds(root, axes[d].curved, 0.0, Weight(n.ch[i - 1].key, n.ch[i].key, c));
          }
        }
      }
    }
  }

  /** The answer names an axis the query leaves, the first one, and the side on which it does. */
  ghost predicate Names(r: Res, axes: seq<Axis>, d: nat, keys: seq<seq<real>>)
    requires d + |keys| == |axes| && forall k :: 0 <= k < |keys| ==> keys[k] != []
  {
    r.OutOfRange? && d <= r.axis < |axes| &&
    var ks, c := keys[r.axis - d], axes[r.axis].q;
    (if r.above then ks[|ks| - 1] < c else c < ks[0]) && InRange(axes[..r.axis], d, keys[..r.axis - d])
  }

  lemma NamesInner(r: Res, axes: seq<Axis>, d: nat, keys: seq<seq<real>>)
    requires keys != [] && d + |keys| == |axes| && (forall k :: 0 <= k < |keys| ==> keys[k] != [])
    requires keys[0][0] <= axes[d].q <= keys[0][|keys[0]| - 1] && Names(r, axes, d + 1, keys[1..])
    ensures Names(r, axes, d, keys)
  {
    var e := r.axis - d;
    assert keys[..e][1..] == keys[1..][..e - 1];
    InnerRange(axes[..r.axis], d, keys[..e]);
  }

  /** On a full grid a query that does not resolve is told the first axis it leaves, and on which side. */
  lemma {:induction false} OutIsNamed(root: real -> real, n: Node, axes: seq<Axis>, d: nat, keys: seq<seq<real>>)
    requires IsRoot(root) && Rect(n, keys) && d + |keys| == |axes| && (forall k :: 0 <= k < |keys| ==> keys[k] != [])
    ensures !Resolve(root, n, axes, d).Val? ==> Names(Resolve(root, n, axes, d), axes, d, keys)
    decreases |keys|
  {
    if keys != [] {
      hide Names, Blend, IsRoot;
      var c, i := axes[d].q, Lower(n.ch, axes[d].q);
      RectSorted(n, keys);
      if n.ch[0].key <= c <= n.ch[|n.ch| - 1].key {
        LowerInRange(n.ch, c);
        OutIsNamed(root, n.ch[i].node, axes, d + 1, keys[1..]);
        var r := Resolve(root, n.ch[i].node, axes, d + 1);
        if n.ch[i].key != c {
          OutIsNamed(root, n.ch[i - 1].node, axes, d + 1, keys[1..]);
          if !Resolve(root, n.ch[i - 1].node, axes, d + 1).Val? { r := Resolve(root, n.ch[i - 1].node, axes, d + 1); }
        }
        if !r.Val? { NamesInner(r, axes, d, keys); }
      } else {
        NamesHere(c > n.ch[0].key, axes, d, keys);
      }
    }
  }

  lemma NamesHere(above: bool, axes: seq<Axis>, d: nat, keys: seq<seq<real>>)
    requires keys != [] && d + |keys| == |axes| && (forall k :: 0 <= k < |keys| ==> keys[k] != [])
    requires if above then keys[0][|keys[0]| - 1] < axes[d].q else axes[d].q < keys[0][0]
    ensures Names(OutOfRange(d, above), axes, d, keys)
  {
  }

  /** A table nowhere above another resolves nowhere above it. */
  lemma {:induction false} BelowResolves(root: real -> real, m: Node, n: Node, axes: seq<Axis>, d: nat,
                                         keys: seq<seq<real>>)
    requires IsRoot(root) && Rect(m, keys) && Rect(n, keys) && Below(m, n, keys) && d + |keys| == |axes|
    requires (forall k :: 0 <= k < |keys| ==> keys[k] != []) && InRange(axes, d, keys)
    ensures Resolve(root, m, axes, d).Val? && Resolve(root, n, axes, d).Val?
    ensures Resolve(root, m, axes, d).v <= Resolve(root, n, axes, d).v
    decreases |keys|
  {
    hide Blend, Weight, Lower, IsRoot, InRange, Increasing;
    ResolvesInRange(root, m, axes, d, keys);
    ResolvesInRange(root, n, axes, d, keys);
    if keys != [] {
      var c, i := axes[d].q, Lower(n.ch, axes[d].q);
      RectSorted(m, keys);
      RectSorted(n, keys);
      InnerRange(axes, d, keys);
      LowerInRange(n.ch, c);
      SameLower(m, n, keys, c);
      BelowResolves(root, m.ch[i].node, n.ch[i].node, axes, d + 1, keys[1..]);
      if n.ch[i].key != c {
        BelowResolves(root, m.ch[i - 1].node, n.ch[i - 1].node, axes, d + 1, keys[1..]);
        ResolvesInRange(root, m.ch[i].node, axes, d + 1, keys[1..]);
        ResolvesInRange(root, m.ch[i - 1].node, axes, d + 1, keys[1..]);
        WeightIn(n.ch[i - 1].key, n.ch[i].key, c);
        BlendMono(root, axes[d].curved,
                  Resolve(root, m.ch[i - 1].node, axes, d + 1).v, Resolve(root, m.ch[i].node, axes, d + 1).v,
                  Resolve(root, n.ch[i - 1].node, axes, d + 1).v, Resolve(root, n.ch[i].node, axes, d + 1).v,
                  Weight(n.ch[i - 1].key, n.ch[i].key, c));
      }
    }
  }

  lemma SameLower(m: Node, n: Node, keys: seq<seq<real>>, c: real)
    requires Rect(m, keys) && Rect(n, keys) && keys != []
    ensures Lower(m.ch, c) == Lower(n.ch, c) && forall i :: 0 <= i < |n.ch| ==> m.ch[i].key == n.ch[i].key
  {
    forall i | 0 <= i < |n.ch|
      ensures m.ch[i].key == n.ch[i].key
    {
      assert n.ch[i].key == keys[0][i];
    }
    LowerIs(m.ch, c, Lower(n.ch, c));
  }

  lemma {:induction false} SameTail(root: real -> real, n: Node, axes: seq<Axis>, other: seq<Axis>, d: nat)
    requires d <= |axes| == |other| && axes[d..] == other[d..]
    ensures Resolve(root, n, axes, d) == Resolve(root, n, other, d)
    decreases |axes| - d
  {
    if d < |axes| {
      assert axes[d] == axes[d..][0] && other[d] == other[d..][0];
      assert axes[d + 1..] == axes[d..][1..] && other[d + 1..] == other[d..][1..];
      var i := Lower(n.ch, axes[d].q);
      if i < |n.ch| {
        SameTail(root, n.ch[i].node, axes, other, d + 1);
        if i > 0 { SameTail(root, n.ch[i - 1].node, axes, other, d + 1); }
      }
    }
  }

  ghost predicate Climbs(vals: seq<real>) {
    (forall k :: 0 <= k < |vals| ==> vals[k] >= 0.0) && forall k, l :: 0 <= k <= l < |vals| ==> vals[k] <= vals[l]
  }

  predicate Bracket(keys: seq<real>, i: nat, c: real)
    requires i < |keys|
  {
    if i == 0 then keys[0] == c else keys[i - 1] < c <= keys[i]
  }

  /** One axis, its lines already resolved to rising values: the interpolated value rises with the query. */
  lemma LinesRise(root: real -> real, curved: bool, keys: seq<real>, vals: seq<real>, i: nat, j: nat, c: real, e: real)
    requires IsRoot(root) && |vals| == |keys| && Increasing(keys) && c <= e && i <= j < |keys|
    requires Climbs(vals) && Bracket(keys, i, c) && Bracket(keys, j, e)
    ensures At(root, curved, keys, vals, i, c) <= At(root, curved, keys, vals, j, e)
  {
    if keys[i] != c {
      WeightIn(keys[i - 1], keys[i], c);
      BlendBetween(root, curved, vals[i - 1], vals[i], Weight(keys[i - 1], keys[i], c), vals[i - 1], vals[i]);
    }
    if keys[j] != e {
      WeightIn(keys[j - 1], keys[j], e);
      BlendBetween(root, curved, vals[j - 1], vals[j], Weight(keys[j - 1], keys[j], e), vals[j - 1], vals[j]);
      if i == j && keys[i] != c {
        WeightMono(keys[i - 1], keys[i], c, e);
        BlendStep(root, curved, vals[i - 1], vals[i], Weight(keys[i - 1], keys[i], c), Weight(keys[i - 1], keys[i], e));
      }
    }
  }

  ghost function At(root: real -> real, curved: bool, keys: seq<real>, vals: seq<real>, i: nat, c: real): real
    requires |vals| == |keys| && i < |keys| && (i > 0 ==> keys[i - 1] < keys[i])
  {
    if keys[i] == c || i == 0 then vals[i]
      else Blend(root, curved, vals[i - 1], vals[i], Weight(keys[i - 1], keys[i], c))
  }

  /** The values of all lines of one axis, at the query on the axes further in. */
  ghost function LineVals(root: real -> real, n: Node, axes: seq<Axis>, d: nat): (vals: seq<real>)
    requires d < |axes| && forall i :: 0 <= i < |n.ch| ==> Resolve(root, n.ch[i].node, axes, d + 1).Val?
    ensures |vals| == |n.ch|
  {
    seq(|n.ch|, i requires 0 <= i < |n.ch| => Resolve(root, n.ch[i].node, axes, d + 1).v)
  }

  lemma ResolveAt(root: real -> real, n: Node, axes: seq<Axis>, d: nat, keys: seq<seq<real>>)
    requires Rect(n, keys) && keys != [] && d + |keys| == |axes| && keys[0][0] <= axes[d].q <= keys[0][|keys[0]| - 1]
    requires forall i :: 0 <= i < |n.ch| ==> Resolve(root, n.ch[i].node, axes, d + 1).Val?
    ensures var i := Lower(n.ch, axes[d].q); (
      i < |keys[0]| == |n.ch| &&
      Bracket(keys[0], i, axes[d].q) &&
      Resolve(root, n, axes, d) == Val(At(root, axes[d].curved, keys[0], LineVals(root, n, axes, d), i, axes[d].q)))
  {
    hide Blend, Lower, Rect;
    RectChildren(n, keys);
    RectSorted(n, keys);
    LowerInRange(n.ch, axes[d].q);
    var i := Lower(n.ch, axes[d].q);
    if i > 0 { assert n.ch[i - 1].key < axes[d].q; }
  }

  lemma RectChildren(n: Node, keys: seq<seq<real>>)
    requires Rect(n, keys) && keys != []
    ensures |n.ch| == |keys[0]| > 0 && Increasing(keys[0])
    ensures forall i {:trigger n.ch[i]} :: 0 <= i < |n.ch| ==>
      n.ch[i].key == keys[0][i] && Rect(n.ch[i].node, keys[1..])
  {
  }

  /** Values that never fall along an axis of a full grid: nor does the interpolated value, for any query in range. */
  lemma {:induction false} RisesResolves(root: real -> real, n: Node, axes: seq<Axis>, other: seq<Axis>, d: nat,
                                         keys: seq<seq<real>>, k: nat)
    requires IsRoot(root) && Rect(n, keys) && k < |keys| && Rises(n, keys, k) && d + |keys| == |axes| == |other|
    requires (forall l :: 0 <= l < |keys| ==> keys[l] != []) && InRange(axes, d, keys) && InRange(other, d, keys)
    requires other == axes[d + k := Axis(other[d + k].q, axes[d + k].curved)] && axes[d + k].q <= other[d + k].q
    ensures Resolve(root, n, axes, d).Val? && Resolve(root, n, other, d).Val?
    ensures Resolve(root, n, axes, d).v <= Resolve(root, n, other, d).v
    decreases |keys|
  {
    hide Blend, Resolve, InRange, Below, Lower;
    InnerRange(axes, d, keys);
    InnerRange(other, d, keys);
    if k == 0 {
      FirstAxisRises(root, n, axes, other, d, keys);
    } else {
      var i := Lower(n.ch, axes[d].q);
      RectSorted(n, keys);
      LowerInRange(n.ch, axes[d].q);
      assert other[d] == axes[d];
      RisesResolves(root, n.ch[i].node, axes, other, d + 1, keys[1..], k - 1);
      ResolvesInRange(root, n.ch[i].node, axes, d + 1, keys[1..]);
      if n.ch[i].key != axes[d].q {
        RisesResolves(root, n.ch[i - 1].node, axes, other, d + 1, keys[1..], k - 1);
        ResolvesInRange(root, n.ch[i - 1].node, axes, d + 1, keys[1..]);
      }
      NodeMono(root, n, axes, other, d, i);
    }
  }

  /** Larger values on the two lines around a query give a larger value there. */
  lemma NodeMono(root: real -> real, n: Node, axes: seq<Axis>, other: seq<Axis>, d: nat, i: nat)
    requires IsRoot(root) && d < |axes| == |other| && other[d] == axes[d] && i == Lower(n.ch, axes[d].q) < |n.ch|
    requires LineAtMost(root, n.ch[i].node, axes, other, d + 1)
    requires n.ch[i].key != axes[d].q ==>
      i > 0 && n.ch[i - 1].key < axes[d].q && LineAtMost(root, n.ch[i - 1].node, axes, other, d + 1)
    ensures Resolve(root, n, axes, d).Val? && Resolve(root, n, other, d).Val?
    ensures Resolve(root, n, axes, d).v <= Resolve(root, n, other, d).v
  {
    hide Blend;
    if n.ch[i].key != axes[d].q {
      WeightIn(n.ch[i - 1].key, n.ch[i].key, axes[d].q);
      BlendMono(root, axes[d].curved,
                Resolve(root, n.ch[i - 1].node, axes, d + 1).v, Resolve(root, n.ch[i].node, axes, d + 1).v,
                Resolve(root, n.ch[i - 1].node, other, d + 1).v, Resolve(root, n.ch[i].node, other, d + 1).v,
                Weight(n.ch[i - 1].key, n.ch[i].key, axes[d].q));
    }
  }

  ghost predicate LineAtMost(root: real -> real, n: Node, axes: seq<Axis>, other: seq<Axis>, d: nat)
    requires d <= |axes| == |other|
  {
    var r, t := Resolve(root, n, axes, d), Resolve(root, n, other, d);
    r.Val? && t.Val? && 0.0 <= r.v <= t.v
  }

  lemma FirstAxisRises(root: real -> real, n: Node, axes: seq<Axis>, other: seq<Axis>, d: nat, keys: seq<seq<real>>)
    requires IsRoot(root) && Rect(n, keys) && keys != [] && Rises(n, keys, 0) && d + |keys| == |axes| == |other|
    requires (forall l :: 0 <= l < |keys| ==> keys[l] != []) && InRange(axes, d, keys) && InRange(other, d, keys)
    requires other == axes[d := Axis(other[d].q, axes[d].curved)] && axes[d].q <= other[d].q
    ensures Resolve(root, n, axes, d).Val? && Resolve(root, n, other, d).Val?
    ensures Resolve(root, n, axes, d).v <= Resolve(root, n, other, d).v
  {
    hide Blend, Resolve, InRange, Lower, Rect, At, Rises, IsRoot, Increasing, LineVals, Climbs, Bracket;
    RectChildren(n, keys);
    InnerRange(axes, d, keys);
    InnerRange(other, d, keys);
    LinesRising(root, n, axes, d, keys);
    LinesSame(root, n, axes, other, d);
    ResolveAt(root, n, axes, d, keys);
    ResolveAt(root, n, other, d, keys);
    LowerMono(n.ch, axes[d].q, other[d].q);
    LinesRise(root, axes[d].curved, keys[0], LineVals(root, n, axes, d), Lower(n.ch, axes[d].q),
      Lower(n.ch, other[d].q),
              axes[d].q, other[d].q);
  }

  /** The lines of the first axis resolve to values of at least zero that never fall. */
  lemma LinesRising(root: real -> real, n: Node, axes: seq<Axis>, d: nat, keys: seq<seq<real>>)
    requires IsRoot(root) && Rect(n, keys) && keys != [] && Rises(n, keys, 0) && d + |keys| == |axes|
    requires (forall l :: 0 <= l < |keys| ==> keys[l] != []) && InRange(axes, d + 1, keys[1..])
    ensures forall i :: 0 <= i < |n.ch| ==> Resolve(root, n.ch[i].node, axes, d + 1).Val?
    ensures Climbs(LineVals(root, n, axes, d))
  {
    hide Blend, Resolve, InRange, Lower;
    forall i | 0 <= i < |n.ch|
      ensures Resolve(root, n.ch[i].node, axes, d + 1).Val? && Resolve(root, n.ch[i].node, axes, d + 1).v >= 0.0
    {
      ResolvesInRange(root, n.ch[i].node, axes, d + 1, keys[1..]);
    }
    forall k, l | 0 <= k <= l < |n.ch|
      ensures Resolve(root, n.ch[k].node, axes, d + 1).v <= Resolve(root, n.ch[l].node, axes, d + 1).v
    {
      assert Below(n.ch[k].node, n.ch[l].node, keys[1..]);
      BelowResolves(root, n.ch[k].node, n.ch[l].node, axes, d + 1, keys[1..]);
    }
  }

  lemma LinesSame(root: real -> real, n: Node, axes: seq<Axis>, other: seq<Axis>, d: nat)
    requires d < |axes| == |other| && other == axes[d := other[d]]
    requires forall i :: 0 <= i < |n.ch| ==> Resolve(root, n.ch[i].node, axes, d + 1).Val?
    ensures forall i :: 0 <= i < |n.ch| ==> Resolve(root, n.ch[i].node, other, d + 1).Val?
    ensures LineVals(root, n, other, d) == LineVals(root, n, axes, d)
  {
    hide Resolve;
    assert axes[d + 1..] == other[d + 1..];
    forall i | 0 <= i < |n.ch|
      ensures Resolve(root, n.ch[i].node, other, d + 1) == Resolve(root, n.ch[i].node, axes, d + 1)
    {
      SameTail(root, n.ch[i].node, axes, other, d + 1);
    }
  }

  lemma LowerMono(ch: seq<Branch>, c: real, e: real)
    requires c <= e
    ensures Lower(ch, c) <= Lower(ch, e)
  {
  }

  // ---- laws that interpolation reproduces ----

  /** A straight line in the query. */
  datatype Factor = Factor(a: real, b: real)

  function LineAt(f: Factor, q: real): real {
    f.a + f.b * q
  }

  function Squared(x: real): real {
    x * x
  }

  function Scaled(m: real, x: real): real {
    m * x
  }

  /** What a table may hold along an axis: a straight line, squared where values are blended as square roots. */
  function LawAt(f: Factor, curved: bool, q: real): real {
    if curved then Squared(LineAt(f, q)) else LineAt(f, q)
  }

  /** The product of the laws of the axes from d on, at the query. */
  ghost function Product(fs: seq<Factor>, axes: seq<Axis>, d: nat): real
    requires |fs| == |axes| && d <= |axes|
    decreases |axes| - d
  {
    if d == |axes| then 1.0 else Scaled(LawAt(fs[d], axes[d].curved, axes[d].q), Product(fs, axes, d + 1))
  }

  /** Every measured value below n is m times the product of the laws at its keys, and the query is in range. */
  ghost predicate Obeys(n: Node, fs: seq<Factor>, axes: seq<Axis>, d: nat, m: real)
    requires |fs| == |axes| && d <= |axes|
    decreases |axes| - d
  {
    if d == |axes| then n.val == Some(m)
    else
      && Sorted(n.ch) && n.ch != [] && n.ch[0].key <= axes[d].q <= n.ch[|n.ch| - 1].key
      && forall i {:trigger n.ch[i]} :: 0 <= i < |n.ch| ==>
           LineAt(fs[d], n.ch[i].key) >= 0.0 &&
           Obeys(n.ch[i].node, fs, axes, d + 1, Scaled(m, LawAt(fs[d], axes[d].curved, n.ch[i].key)))
  }

  lemma ScaledPositive(m: real, x: real)
    requires m >= 0.0 && x >= 0.0
    ensures Scaled(m, x) >= 0.0
  {
    Times(0.0, m, x);
  }

  lemma RootIs(root: real -> real, x: real, y: real)
    requires IsRoot(root) && y >= 0.0 && x == y * y
    ensures root(x) == y
  {
    assert x >= 0.0;
    SquareOrder(root(x), y);
    SquareOrder(y, root(x));
  }

  lemma RootScales(root: real -> real, m: real, x: real)
    requires IsRoot(root) && m >= 0.0 && x >= 0.0
    ensures root(Scaled(m, Squared(x))) == Scaled(root(m), x)
  {
    var r := root(m);
    Times(0.0, r, x);
    assert (r * x) * (r * x) == (r * r) * (x * x);
    RootIs(root, Scaled(m, Squared(x)), Scaled(r, x));
  }

  lemma SquareScales(root: real -> real, m: real, z: real)
    requires IsRoot(root) && m >= 0.0
    ensures Squared(Scaled(root(m), z)) == Scaled(m, Squared(z))
  {
    var r := root(m);
    assert (r * z) * (r * z) == (r * r) * (z * z);
  }

  lemma LineScales(m: real, x: real, y: real, w: real)
    ensures Line(Scaled(m, x), Scaled(m, y), w) == Scaled(m, Line(x, y, w))
  {
    assert (m * y - m * x) * w == m * ((y - x) * w);
  }

  lemma BlendIs(root: real -> real, curved: bool, a: real, b: real, w: real)
    ensures Blend(root, curved, a, b, w) == if curved then Squared(Line(root(a), root(b), w)) else Line(a, b, w)
  {
    hide Line;
  }

  lemma WeightLine(f: Factor, lo: real, hi: real, c: real)
    requires lo < hi
    ensures Line(LineAt(f, lo), LineAt(f, hi), Weight(lo, hi, c)) == LineAt(f, c)
  {
    var w := Weight(lo, hi, c);
    assert w * (hi - lo) == c - lo;
    assert (f.a + f.b * hi - (f.a + f.b * lo)) * w == f.b * (w * (hi - lo));
  }

  lemma LineBetween(f: Factor, lo: real, hi: real, c: real)
    requires lo < hi && lo <= c <= hi && LineAt(f, lo) >= 0.0 && LineAt(f, hi) >= 0.0
    ensures LineAt(f, c) >= 0.0
  {
    hide LineAt, Weight;
    WeightLine(f, lo, hi, c);
    WeightIn(lo, hi, c);
    LineMono(0.0, 0.0, LineAt(f, lo), LineAt(f, hi), Weight(lo, hi, c));
  }

  lemma LawPositive(f: Factor, curved: bool, q: real)
    requires LineAt(f, q) >= 0.0
    ensures LawAt(f, curved, q) >= 0.0
  {
    ScaledPositive(LineAt(f, q), LineAt(f, q));
  }

  /** One step between two neighbouring keys: what lies on the law at both lies on it in between. */
  lemma StepLaw(root: real -> real, f: Factor, curved: bool, lo: real, hi: real, c: real, m: real)
    requires IsRoot(root) && m >= 0.0 && lo < c < hi && LineAt(f, lo) >= 0.0 && LineAt(f, hi) >= 0.0
    ensures LineAt(f, c) >= 0.0
    ensures Blend(root, curved, Scaled(m, LawAt(f, curved, lo)), Scaled(m, LawAt(f, curved, hi)), Weight(lo, hi, c)) ==
      Scaled(m, LawAt(f, curved, c))
  {
    hide Blend, Line, Weight, IsRoot, LineAt, Squared, Scaled;
    LineBetween(f, lo, hi, c);
    WeightLine(f, lo, hi, c);
    var x, y, w := LineAt(f, lo), LineAt(f, hi), Weight(lo, hi, c);
    BlendIs(root, curved, Scaled(m, LawAt(f, curved, lo)), Scaled(m, LawAt(f, curved, hi)), w);
    if curved {
      RootScales(root, m, x);
      RootScales(root, m, y);
      LineScales(root(m), x, y, w);
      SquareScales(root, m, LineAt(f, c));
    } else {
      LineScales(m, x, y, w);
    }
  }

  lemma Regroup(m: real, x: real, p: real)
    ensures Scaled(Scaled(m, x), p) == Scaled(Scaled(m, p), x) == Scaled(m, Scaled(x, p))
  {
  }

  lemma LowerAbove(ch: seq<Branch>, c: real, i: nat)
    requires Sorted(ch) && i == Lower(ch, c) && 0 < i < |ch| && ch[i].key != c
    ensures ch[i - 1].key < c < ch[i].key
  {
  }

  /** A table that follows such laws on its axes is interpolated exactly, everywhere in range. */
  lemma {:induction false} Reproduces(root: real -> real, n: Node, fs: seq<Factor>, axes: seq<Axis>, d: nat, m: real)
    requires IsRoot(root) && |fs| == |axes| && d <= |axes| && m >= 0.0 && Obeys(n, fs, axes, d, m)
    ensures Product(fs, axes, d) >= 0.0 && Resolve(root, n, axes, d) == Val(Scaled(m, Product(fs, axes, d)))
    decreases |axes| - d, 1
  {
    hide Blend, LawAt, Weight, Lower, IsRoot, LineAt, Obeys, Scaled, Squared, Sorted;
    if d == |axes| {
      LeafObeys(n, fs, axes, d, m);
    } else {
      var c, i, f, curved := axes[d].q, Lower(n.ch, axes[d].q), fs[d], axes[d].curved;
      ObeysSorted(n, fs, axes, d, m);
      LowerInRange(n.ch, c);
      var p := Product(fs, axes, d + 1);
      ReproducesAt(root, n, fs, axes, d, m, i);
      if n.ch[i].key != c {
        ReproducesAt(root, n, fs, axes, d, m, i - 1);
        var lo, hi := n.ch[i - 1].key, n.ch[i].key;
        LowerAbove(n.ch, c, i);
        ScaledPositive(m, p);
        StepLaw(root, f, curved, lo, hi, c, Scaled(m, p));
        Regroup(m, LawAt(f, curved, lo), p);
        Regroup(m, LawAt(f, curved, hi), p);
      }
      LawPositive(f, curved, c);
      ScaledPositive(LawAt(f, curved, c), p);
      Regroup(m, LawAt(f, curved, c), p);
    }
  }

  lemma LeafObeys(n: Node, fs: seq<Factor>, axes: seq<Axis>, d: nat, m: real)
    requires |fs| == |axes| == d && Obeys(n, fs, axes, d, m)
    ensures n.val == Some(m) && Scaled(m, 1.0) == m
  {
  }

  lemma ObeysSorted(n: Node, fs: seq<Factor>, axes: seq<Axis>, d: nat, m: real)
    requires |fs| == |axes| && d < |axes| && Obeys(n, fs, axes, d, m)
    ensures Sorted(n.ch) && n.ch != [] && n.ch[0].key <= axes[d].q <= n.ch[|n.ch| - 1].key
  {
  }

  lemma ReproducesAt(root: real -> real, n: Node, fs: seq<Factor>, axes: seq<Axis>, d: nat, m: real, i: nat)
    requires IsRoot(root) && |fs| == |axes| && d < |axes| && m >= 0.0 && Obeys(n, fs, axes, d, m) && i < |n.ch|
    ensures LineAt(fs[d], n.ch[i].key) >= 0.0 && Product(fs, axes, d + 1) >= 0.0
    ensures Resolve(root, n.ch[i].node, axes, d + 1) ==
      Val(Scaled(Scaled(m, LawAt(fs[d], axes[d].curved, n.ch[i].key)), Product(fs, axes, d + 1)))
    decreases |axes| - d, 0
  {
    hide LawAt, Resolve, Product, IsRoot, LineAt, Scaled;
    LawPositive(fs[d], axes[d].curved, n.ch[i].key);
    ScaledPositive(m, LawAt(fs[d], axes[d].curved, n.ch[i].key));
    Reproduces(root, n.ch[i].node, fs, axes, d + 1, Scaled(m, LawAt(fs[d], axes[d].curved, n.ch[i].key)));
  }
}
