/** Stable sorting by a numeric key, as the language's own sort promises. */
module StableSorting {

  /** `x` goes behind every element whose key is not larger. */
  function Insert<T>(s: seq<T>, x: T, key: T -> real): seq<T> {
    if s == [] || key(s[|s| - 1]) <= key(x) then s + [x]
    else Insert(s[..|s| - 1], x, key) + [s[|s| - 1]]
  }

  function StableSort<T>(xs: seq<T>, key: T -> real): seq<T> {
    if xs == [] then [] else Insert(StableSort(xs[..|xs| - 1], key), xs[|xs| - 1], key)
  }

  ghost predicate SortedBy<T>(s: seq<T>, key: T -> real) {
    forall i, j :: 0 <= i < j < |s| ==> key(s[i]) <= key(s[j])
  }

  /** The elements with key `v`, in the order they stand. */
  function Having<T>(s: seq<T>, key: T -> real, v: real): seq<T> {
    if s == [] then []
    else Having(s[..|s| - 1], key, v) + if key(s[|s| - 1]) == v then [s[|s| - 1]] else []
  }

  lemma {:induction false} HavingAppend<T>(s: seq<T>, x: T, key: T -> real, v: real)
    ensures Having(s + [x], key, v) == Having(s, key, v) + if key(x) == v then [x] else []
  {
    assert (s + [x])[..|s|] == s;
  }

  lemma {:induction false} InsertKeeps<T>(s: seq<T>, x: T, key: T -> real)
    ensures |Insert(s, x, key)| == |s| + 1
    ensures multiset(Insert(s, x, key)) == multiset(s) + multiset{x}
    decreases |s|
  {
    if s != [] && key(s[|s| - 1]) > key(x) {
      InsertKeeps(s[..|s| - 1], x, key);
      assert s == s[..|s| - 1] + [s[|s| - 1]];
    }
  }

  ghost predicate AtMost<T>(s: seq<T>, key: T -> real, bound: real) {
    forall i :: 0 <= i < |s| ==> key(s[i]) <= bound
  }

  lemma {:induction false} SortedAppend<T>(s: seq<T>, x: T, key: T -> real)
    requires SortedBy(s, key) && AtMost(s, key, key(x))
    ensures SortedBy(s + [x], key)
  {}

  lemma {:induction false} InsertSorts<T>(s: seq<T>, x: T, key: T -> real, bound: real)
    requires SortedBy(s, key)
    ensures SortedBy(Insert(s, x, key), key)
    ensures AtMost(s, key, bound) && key(x) <= bound ==> AtMost(Insert(s, x, key), key, bound)
    decreases |s|
  {
    if s == [] || key(s[|s| - 1]) <= key(x) {
      assert AtMost(s, key, key(x));
      SortedAppend(s, x, key);
    } else {
      var before, last := s[..|s| - 1], s[|s| - 1];
      InsertSorts(before, x, key, key(last));
      InsertSorts(before, x, key, bound);
      assert AtMost(before, key, key(last));
      SortedAppend(Insert(before, x, key), last, key);
    }
  }

  /** Inserting disturbs no order among elements with equal keys. */
  lemma {:induction false} InsertStable<T>(s: seq<T>, x: T, key: T -> real, v: real)
    requires SortedBy(s, key)
    ensures Having(Insert(s, x, key), key, v) == Having(s, key, v) + if key(x) == v then [x] else []
    decreases |s|
  {
    if s == [] || key(s[|s| - 1]) <= key(x) {
      HavingAppend(s, x, key, v);
    } else {
      var last := s[|s| - 1];
      InsertStable(s[..|s| - 1], x, key, v);
      HavingAppend(Insert(s[..|s| - 1], x, key), last, key, v);
      if key(last) == v {
        assert key(x) != v;
      }
    }
  }

  lemma {:induction false} StableSortSorts<T>(xs: seq<T>, key: T -> real)
    ensures SortedBy(StableSort(xs, key), key)
    decreases |xs|
  {
    if xs != [] {
      StableSortSorts(xs[..|xs| - 1], key);
      InsertSorts(StableSort(xs[..|xs| - 1], key), xs[|xs| - 1], key, 0.0);
    }
  }

  lemma {:induction false} StableSortKeeps<T>(xs: seq<T>, key: T -> real)
    ensures |StableSort(xs, key)| == |xs| && multiset(StableSort(xs, key)) == multiset(xs)
    decreases |xs|
  {
    if xs != [] {
      var before, last := xs[..|xs| - 1], xs[|xs| - 1];
      StableSortKeeps(before, key);
      InsertKeeps(StableSort(before, key), last, key);
      assert xs == before + [last];
    }
  }

  lemma {:induction false} StableSortStable<T>(xs: seq<T>, key: T -> real, v: real)
    ensures Having(StableSort(xs, key), key, v) == Having(xs, key, v)
    decreases |xs|
  {
    if xs != [] {
      var before := xs[..|xs| - 1];
      StableSortStable(before, key, v);
      StableSortSorts(before, key);
      InsertStable(StableSort(before, key), xs[|xs| - 1], key, v);
    }
  }

  /** Sorted, a permutation, and stable. */
  lemma {:induction false} StableSortCorrect<T>(xs: seq<T>, key: T -> real, v: real)
    ensures SortedBy(StableSort(xs, key), key) && |StableSort(xs, key)| == |xs|
    ensures multiset(StableSort(xs, key)) == multiset(xs)
    ensures Having(StableSort(xs, key), key, v) == Having(xs, key, v)
  {
    StableSortSorts(xs, key);
    StableSortKeeps(xs, key);
    StableSortStable(xs, key, v);
  }

  lemma {:induction false} InsertIdle<T>(s: seq<T>, x: T, key: T -> real)
    requires s != [] ==> key(s[|s| - 1]) <= key(x)
    ensures Insert(s, x, key) == s + [x]
  {}

  lemma {:induction false} PrefixIdle<T>(xs: seq<T>, key: T -> real, n: nat)
    requires n <= |xs| && SortedBy(xs, key)
    ensures StableSort(xs[..n], key) == xs[..n]
  {
    if n > 0 {
      PrefixIdle(xs, key, n - 1);
      var before, last := xs[..n - 1], xs[n - 1];
      assert xs[..n][..n - 1] == before && xs[..n][n - 1] == last;
      assert n > 1 ==> key(xs[n - 2]) <= key(xs[n - 1]);
      InsertIdle(before, last, key);
      assert xs[..n] == before + [last];
    }
  }

  /** What is sorted already is left as it is. */
  lemma {:induction false} StableSortIdle<T>(xs: seq<T>, key: T -> real)
    requires SortedBy(xs, key)
    ensures StableSort(xs, key) == xs
  {
    PrefixIdle(xs, key, |xs|);
    assert xs[..|xs|] == xs;
  }
}

/**
 Isotonic calibration by pooling adjacent violators. The stack of blocks the loop builds is proved
 to be the least-squares fit among all non-decreasing ones.
 */
module Calibration {
  import opened StableSorting

  datatype Pair = Pair(p: real, y: real)
  datatype Point = Point(p: real, cal: real)
  datatype Block = Block(ps: seq<real>, sum: real, n: nat)

  const BY_P: Pair -> real := (q: Pair) => q.p
  const POINT_BY_P: Point -> real := (q: Point) => q.p

  // ----- sums -----

  function Sum(s: seq<real>): real {
    if s == [] then 0.0 else Sum(s[..|s| - 1]) + s[|s| - 1]
  }

  lemma {:induction false} SumAppend(s: seq<real>, t: seq<real>)
    ensures Sum(s + t) == Sum(s) + Sum(t)
    decreases |t|
  {
    if t == [] {
      assert s + t == s;
    } else {
      assert (s + t)[..|s + t| - 1] == s + t[..|t| - 1];
      SumAppend(s, t[..|t| - 1]);
    }
  }

  function Ps(part: seq<Pair>): seq<real> { seq(|part|, i requires 0 <= i < |part| => part[i].p) }
  function Ys(part: seq<Pair>): seq<real> { seq(|part|, i requires 0 <= i < |part| => part[i].y) }

  function Mean(part: seq<Pair>): real
    requires part != []
  {
    Sum(Ys(part)) / |part| as real
  }

  function Clamp(x: real): real { if x < 0.0 then 0.0 else if x > 1.0 then 1.0 else x }

  /** How far the outcomes add up above `m` apiece. */
  function Drift(y: seq<real>, m: real): real {
    if y == [] then 0.0 else Drift(y[..|y| - 1], m) + (y[|y| - 1] - m)
  }

  lemma {:induction false} DriftAppend(y: seq<real>, z: seq<real>, m: real)
    ensures Drift(y + z, m) == Drift(y, m) + Drift(z, m)
    decreases |z|
  {
    if z == [] {
      assert y + z == y;
    } else {
      assert (y + z)[..|y + z| - 1] == y + z[..|z| - 1];
      DriftAppend(y, z[..|z| - 1], m);
    }
  }

  lemma {:induction false} DriftFalls(y: seq<real>, m: real, m': real)
    requires m <= m'
    ensures Drift(y, m') <= Drift(y, m) && (y != [] && m < m' ==> Drift(y, m') < Drift(y, m))
    decreases |y|
  {
    if y != [] { DriftFalls(y[..|y| - 1], m, m'); }
  }

  lemma OneMore(m: real, n: real)
    ensures m * (n + 1.0) == m * n + m
  {}

  lemma {:induction false} DriftTotal(y: seq<real>, m: real)
    ensures Drift(y, m) == Sum(y) - m * |y| as real
    decreases |y|
  {
    if y != [] {
      var n := |y| - 1;
      DriftTotal(y[..n], m);
      OneMore(m, n as real);
      assert |y| as real == n as real + 1.0;
    }
  }

  lemma {:induction false} DriftOfMean(part: seq<Pair>)
    requires part != []
    ensures Drift(Ys(part), Mean(part)) == 0.0
  {
    DriftTotal(Ys(part), Mean(part));
  }

  // ----- what the loop keeps -----

  /** The first `k` outcomes average at least `mean`. */
  predicate PrefixAbove(y: seq<real>, mean: real, k: nat)
    requires k <= |y|
  {
    Drift(y[..k], mean) >= 0.0
  }

  ghost predicate NeverBelow(y: seq<real>, mean: real) { forall k :: 0 <= k <= |y| ==> PrefixAbove(y, mean, k) }

  /** No prefix of a block averages less than the block. */
  ghost predicate Ceiling(part: seq<Pair>)
    requires part != []
  {
    NeverBelow(Ys(part), Mean(part))
  }

  /** The mean of two blocks lies between theirs. */
  lemma {:induction false} MeanBetween(a: seq<Pair>, b: seq<Pair>)
    requires a != [] && b != [] && Mean(a) >= Mean(b)
    ensures Mean(a) >= Mean(a + b) >= Mean(b)
    ensures Drift(Ys(a), Mean(a + b)) + Drift(Ys(b), Mean(a + b)) == 0.0
  {
    var c := Mean(a + b);
    assert Ys(a + b) == Ys(a) + Ys(b);
    DriftAppend(Ys(a), Ys(b), c);
    DriftOfMean(a + b);
    DriftOfMean(a);
    DriftOfMean(b);
    BetweenMeans(Ys(a), Ys(b), Mean(a), Mean(b), c);
  }

  lemma {:induction false} BetweenMeans(y: seq<real>, z: seq<real>, a: real, b: real, c: real)
    requires y != [] && z != [] && a >= b
    requires Drift(y, a) == 0.0 && Drift(z, b) == 0.0 && Drift(y, c) + Drift(z, c) == 0.0
    ensures a >= c >= b
  {
    if c > a {
      DriftFalls(y, a, c);
      DriftFalls(z, b, c);
    } else if c < b {
      DriftFalls(y, c, a);
      DriftFalls(z, c, b);
    }
  }

  lemma {:induction false} MergeNeverBelow(y: seq<real>, z: seq<real>, a: real, b: real, c: real)
    requires NeverBelow(y, a) && NeverBelow(z, b) && a >= c >= b
    requires Drift(z, b) == 0.0 && Drift(y, c) + Drift(z, c) == 0.0
    ensures NeverBelow(y + z, c)
  {
    forall k | 0 <= k <= |y + z| ensures PrefixAbove(y + z, c, k) {
      if k <= |y| {
        assert (y + z)[..k] == y[..k] && PrefixAbove(y, a, k);
        DriftFalls(y[..k], c, a);
      } else {
        MergeReaching(y, z, b, c, k - |y|);
      }
    }
  }

  /** A prefix that reaches into the second block: what it leaves out drifts down. */
  lemma {:induction false} MergeReaching(y: seq<real>, z: seq<real>, b: real, c: real, j: nat)
    requires j <= |z| && PrefixAbove(z, b, j) && c >= b
    requires Drift(z, b) == 0.0 && Drift(y, c) + Drift(z, c) == 0.0
    ensures PrefixAbove(y + z, c, |y| + j)
  {
    assert (y + z)[..|y| + j] == y + z[..j];
    assert z == z[..j] + z[j..];
    DriftAppend(y, z[..j], c);
    DriftAppend(z[..j], z[j..], b);
    DriftAppend(z[..j], z[j..], c);
    DriftFalls(z[j..], b, c);
  }

  /** Pooling a violating pair keeps the property that makes the fit optimal. */
  lemma {:induction false} MergeCeiling(a: seq<Pair>, b: seq<Pair>)
    requires a != [] && b != [] && Mean(a) >= Mean(b) && Ceiling(a) && Ceiling(b)
    ensures Ceiling(a + b)
  {
    MeanBetween(a, b);
    DriftOfMean(b);
    assert Ys(a + b) == Ys(a) + Ys(b);
    MergeNeverBelow(Ys(a), Ys(b), Mean(a), Mean(b), Mean(a + b));
  }

  lemma {:induction false} SingletonCeiling(q: Pair)
    ensures Ceiling([q]) && Sum(Ys([q])) == q.y && Ps([q]) == [q.p]
  {
    var y := Ys([q]);
    assert y == [q.y] && y[..0] == [];
    assert Sum(y) == Sum(y[..0]) + q.y;
    forall k | 0 <= k <= 1 ensures PrefixAbove(y, Mean([q]), k) {
      if k == 1 {
        assert y[..1] == y;
        DriftOfMean([q]);
      }
    }
  }

  function Flatten(parts: seq<seq<Pair>>): seq<Pair> {
    if parts == [] then [] else Flatten(parts[..|parts| - 1]) + parts[|parts| - 1]
  }

  ghost predicate NonEmpty(parts: seq<seq<Pair>>) { forall j :: 0 <= j < |parts| ==> parts[j] != [] }

  /** No mean above a later one. */
  ghost predicate Rising(parts: seq<seq<Pair>>)
    requires NonEmpty(parts)
  {
    forall i, j :: 0 <= i <= j < |parts| ==> Mean(parts[i]) <= Mean(parts[j])
  }

  ghost predicate Pooled(parts: seq<seq<Pair>>) {
    NonEmpty(parts) && forall j :: 0 <= j < |parts| ==> Ceiling(parts[j])
  }

  predicate IsBlock(b: Block, part: seq<Pair>) {
    b == Block(Ps(part), Sum(Ys(part)), |part|)
  }

  /** The stack of blocks stands for a split of the data so far into contiguous, pooled runs. */
  ghost predicate Stacks(blocks: seq<Block>, parts: seq<seq<Pair>>, data: seq<Pair>) {
    && |blocks| == |parts| && Flatten(parts) == data && Pooled(parts)
    && forall j :: 0 <= j < |parts| ==> IsBlock(blocks[j], parts[j])
  }

  lemma {:induction false} BlockMean(b: Block, part: seq<Pair>)
    requires part != [] && IsBlock(b, part)
    ensures b.n > 0 && b.sum / b.n as real == Mean(part)
  {}

  lemma {:induction false} StackPush(blocks: seq<Block>, parts: seq<seq<Pair>>, data: seq<Pair>, q: Pair)
    requires Stacks(blocks, parts, data)
    ensures Stacks(blocks + [Block([q.p], q.y, 1)], parts + [[q]], data + [q])
  {
    SingletonCeiling(q);
    assert (parts + [[q]])[..|parts|] == parts;
  }

  lemma {:induction false} FlattenTwo(parts: seq<seq<Pair>>, a: seq<Pair>, b: seq<Pair>)
    ensures Flatten(parts + [a, b]) == Flatten(parts + [a + b]) == Flatten(parts) + a + b
  {
    assert (parts + [a, b])[..|parts| + 1] == parts + [a];
    assert (parts + [a])[..|parts|] == parts;
    assert (parts + [a + b])[..|parts|] == parts;
  }

  function PointFor(part: seq<Pair>): Point
    requires part != []
  {
    Point(part[|part| - 1].p, Clamp(Mean(part)))
  }

  /** All but the newest run rise. */
  ghost predicate AlmostRising(parts: seq<seq<Pair>>)
    requires NonEmpty(parts)
  {
    forall i, j :: 0 <= i <= j < |parts| - 1 ==> Mean(parts[i]) <= Mean(parts[j])
  }

  lemma {:induction false} StackRises(parts: seq<seq<Pair>>)
    requires NonEmpty(parts) && AlmostRising(parts)
    requires var n := |parts|; n < 2 || Mean(parts[n - 2]) <= Mean(parts[n - 1])
    ensures Rising(parts)
  {
    var n := |parts|;
    forall i, j | 0 <= i <= j < n ensures Mean(parts[i]) <= Mean(parts[j]) {
      if i < j == n - 1 { assert Mean(parts[i]) <= Mean(parts[n - 2]); }
    }
  }

  lemma {:induction false} NewestReplaced(parts: seq<seq<Pair>>, part: seq<Pair>)
    requires NonEmpty(parts) && AlmostRising(parts) && |parts| >= 2 && part != []
    ensures NonEmpty(parts[..|parts| - 2] + [part]) && AlmostRising(parts[..|parts| - 2] + [part])
  {}

  lemma {:induction false} NewestPushed(parts: seq<seq<Pair>>, part: seq<Pair>)
    requires NonEmpty(parts) && Rising(parts) && part != []
    ensures NonEmpty(parts + [part]) && AlmostRising(parts + [part])
  {}

  /** One merge: two adjacent runs become one. */
  function Merged(blocks: seq<Block>): seq<Block>
    requires |blocks| >= 2
  {
    var n := |blocks|;
    var a, b := blocks[n - 2], blocks[n - 1];
    blocks[..n - 2] + [Block(a.ps + b.ps, a.sum + b.sum, a.n + b.n)]
  }

  function Joined(parts: seq<seq<Pair>>): seq<seq<Pair>>
    requires |parts| >= 2
  {
    var n := |parts|;
    parts[..n - 2] + [parts[n - 2] + parts[n - 1]]
  }

  lemma {:induction false} MergedBlock(a: Block, b: Block, p: seq<Pair>, q: seq<Pair>)
    requires IsBlock(a, p) && IsBlock(b, q)
    ensures IsBlock(Block(a.ps + b.ps, a.sum + b.sum, a.n + b.n), p + q)
  {
    assert Ys(p + q) == Ys(p) + Ys(q) && Ps(p + q) == Ps(p) + Ps(q);
    SumAppend(Ys(p), Ys(q));
  }

  lemma {:induction false} StackMerge(blocks: seq<Block>, parts: seq<seq<Pair>>, data: seq<Pair>)
    requires Stacks(blocks, parts, data) && |blocks| >= 2
    requires Mean(parts[|parts| - 2]) > Mean(parts[|parts| - 1])
    ensures Stacks(Merged(blocks), Joined(parts), data)
  {
    var n := |parts|;
    var a, b := parts[n - 2], parts[n - 1];
    MergedBlock(blocks[n - 2], blocks[n - 1], a, b);
    MergeCeiling(a, b);
    assert Flatten(Joined(parts)) == data by {
      assert parts == parts[..n - 2] + [a, b];
      FlattenTwo(parts[..n - 2], a, b);
    }
  }

  /** The inner loop: the newest block is pooled with those before it while their means fall. */
  method PoolBack(stack: seq<Block>, ghost runs: seq<seq<Pair>>, ghost data: seq<Pair>)
    returns (blocks: seq<Block>, ghost parts: seq<seq<Pair>>)
    requires Stacks(stack, runs, data) && AlmostRising(runs)
    ensures Stacks(blocks, parts, data) && Rising(parts)
  {
    blocks, parts := stack, runs;
    while |blocks| >= 2
      invariant Stacks(blocks, parts, data) && AlmostRising(parts)
      decreases |blocks|
    {
      var b, a := blocks[|blocks| - 1], blocks[|blocks| - 2];
      BlockMean(b, parts[|parts| - 1]);
      BlockMean(a, parts[|parts| - 2]);
      if a.sum / a.n as real <= b.sum / b.n as real { break; }
      StackMerge(blocks, parts, data);
      NewestReplaced(parts, parts[|parts| - 2] + parts[|parts| - 1]);
      blocks := Merged(blocks);
      parts := Joined(parts);
    }
    StackRises(parts);
  }

  // ----- least squares -----

  function Square(x: real): real { x * x }

  /** The sum of squared errors of a fit. */
  function Sse(y: seq<real>, f: seq<real>): real
    requires |y| == |f|
  {
    if y == [] then 0.0 else Sse(y[..|y| - 1], f[..|y| - 1]) + Square(y[|y| - 1] - f[|y| - 1])
  }

  function Gain(y: real, f: real, g: real): real { (y - f) * (f - g) }

  /** The cross term of expanding the square around `f`. */
  function Cross(y: seq<real>, f: seq<real>, g: seq<real>): real
    requires |y| == |f| == |g|
  {
    if y == [] then 0.0
    else
      var n := |y| - 1;
      Cross(y[..n], f[..n], g[..n]) + Gain(y[n], f[n], g[n])
  }

  lemma SquareOfSum(a: real, b: real, c: real)
    ensures Square(a - c) == Square(a - b) + 2.0 * Gain(a, b, c) + Square(b - c)
  {}

  lemma {:induction false} SseExpands(y: seq<real>, f: seq<real>, g: seq<real>)
    requires |y| == |f| == |g|
    ensures Sse(y, g) == Sse(y, f) + 2.0 * Cross(y, f, g) + Sse(f, g)
    decreases |y|
  {
    if y != [] {
      var n := |y| - 1;
      SseExpands(y[..n], f[..n], g[..n]);
      SquareOfSum(y[n], f[n], g[n]);
    }
  }

  lemma SquareSign(x: real)
    ensures Square(x) >= 0.0 && (Square(x) == 0.0 <==> x == 0.0)
  {
    var half := x / 2.0;
    if x > 0.0 {
      PositiveProduct(half, x);
      assert Square(x) == 2.0 * (half * x);
    } else if x < 0.0 {
      PositiveProduct(-half, -x);
      assert Square(x) == 2.0 * (-half * -x);
    }
  }

  lemma PositiveProduct(a: real, b: real)
    requires a > 0.0 && b > 0.0
    ensures a * b > 0.0
  {}

  lemma {:induction false} SseNonNegative(y: seq<real>, f: seq<real>)
    requires |y| == |f|
    ensures Sse(y, f) >= 0.0 && (Sse(y, f) == 0.0 <==> y == f)
    decreases |y|
  {
    if y != [] {
      var n := |y| - 1;
      SseNonNegative(y[..n], f[..n]);
      assert y == y[..n] + [y[n]] && f == f[..n] + [f[n]];
      SquareSign(y[n] - f[n]);
    }
  }

  lemma {:induction false} CrossAppend(y: seq<real>, f: seq<real>, g: seq<real>, y': seq<real>, f': seq<real>, g': seq<real>)
    requires |y| == |f| == |g| && |y'| == |f'| == |g'|
    ensures Cross(y + y', f + f', g + g') == Cross(y, f, g) + Cross(y', f', g')
    decreases |y'|
  {
    if y' == [] {
      assert y + y' == y && f + f' == f && g + g' == g;
    } else {
      var n, k := |y'| - 1, |y + y'| - 1;
      assert (y + y')[..k] == y + y'[..n] && (f + f')[..k] == f + f'[..n] && (g + g')[..k] == g + g'[..n];
      CrossAppend(y, f, g, y'[..n], f'[..n], g'[..n]);
    }
  }

  ghost predicate NonDecreasing(g: seq<real>) { forall i, j :: 0 <= i <= j < |g| ==> g[i] <= g[j] }

  function Constant(c: real, n: nat): seq<real> { seq(n, i => c) }

  // ----- one block -----

  ghost predicate Within(g: seq<real>, lo: real, hi: real) { forall i :: 0 <= i < |g| ==> lo <= g[i] <= hi }

  lemma Rise(drift: real, h0: real, h1: real)
    requires drift >= 0.0 && h0 >= h1
    ensures drift * h0 >= drift * h1
  {}

  lemma Collect(drift: real, e: real, h: real)
    ensures drift * h + e * h == (drift + e) * h
  {}

  lemma Shift(y: real, c: real, m: real, g: real)
    requires (m - c) * (c - g) >= 0.0
    ensures (y - c) * (c - g) >= (y - m) * (c - g)
  {
    Collect(y - m, m - c, c - g);
    assert (y - m) + (m - c) == y - c;
  }

  /** The level of a block is its mean, or the nearest value the fits may take. */
  ghost predicate LevelFor(c: real, m: real, g: seq<real>) { forall i :: 0 <= i < |g| ==> LevelOk(c, m, g[i]) }

  predicate LevelOk(c: real, m: real, g: real) { c == m || (c == Clamp(m) && 0.0 <= g <= 1.0) }

  lemma LevelSign(c: real, m: real, g: real)
    requires LevelOk(c, m, g)
    ensures (m - c) * (c - g) >= 0.0
  {
    if c == m {
      assert m - c == 0.0;
    } else if m > 1.0 {
      Rise(m - c, 1.0 - g, 0.0);
    } else {
      Rise(c - m, g, 0.0);
      assert (m - c) * (c - g) == (c - m) * (g - c);
    }
  }

  predicate Covers(cross: real, drift: real, h: real) { cross >= drift * h }

  /** One step of summation by parts. */
  lemma CrossStep(cross: real, cross': real, drift: real, drift': real, y: real, c: real, m: real, g0: real, g1: real)
    requires Covers(cross, drift, c - g0) && drift >= 0.0 && g0 <= g1 && LevelOk(c, m, g1)
    requires cross' == cross + Gain(y, c, g1) && drift' == drift + (y - m)
    ensures Covers(cross', drift', c - g1)
  {
    LevelSign(c, m, g1);
    Rise(drift, c - g0, c - g1);
    Shift(y, c, m, g1);
    Collect(drift, y - m, c - g1);
  }

  lemma {:induction false} CrossUnfolds(y: seq<real>, g: seq<real>, c: real, n: nat)
    requires |y| == |g| == n + 1
    ensures Cross(y, Constant(c, n + 1), g) == Cross(y[..n], Constant(c, n), g[..n]) + Gain(y[n], c, g[n])
  {
    assert Constant(c, n + 1)[..n] == Constant(c, n);
  }

  lemma {:induction false} NeverBelowPrefix(y: seq<real>, m: real, n: nat)
    requires n <= |y| && NeverBelow(y, m)
    ensures NeverBelow(y[..n], m) && Drift(y[..n], m) >= 0.0
  {
    forall k | 0 <= k <= n ensures PrefixAbove(y[..n], m, k) {
      assert y[..n][..k] == y[..k] && PrefixAbove(y, m, k);
    }
    assert PrefixAbove(y, m, n);
  }

  /** Rising values gain nothing on the level of a block whose running sums never fall below its mean. */
  lemma {:induction false} BlockGains(y: seq<real>, g: seq<real>, c: real, m: real)
    requires |y| == |g| > 0 && NonDecreasing(g) && NeverBelow(y, m) && LevelFor(c, m, g)
    ensures Covers(Cross(y, Constant(c, |y|), g), Drift(y, m), c - g[|y| - 1])
    decreases |y|
  {
    var n := |y| - 1;
    var cross, drift := Cross(y[..n], Constant(c, n), g[..n]), Drift(y[..n], m);
    var before := if n == 0 then g[0] else g[n - 1];
    CrossUnfolds(y, g, c, n);
    NeverBelowPrefix(y, m, n);
    if n > 0 {
      BlockGains(y[..n], g[..n], c, m);
    }
    CrossStep(cross, Cross(y, Constant(c, n + 1), g), drift, Drift(y, m), y[n], c, m, before, g[n]);
  }

  // ----- the whole fit -----

  /** The fitted value of a block: its mean, or what the breakpoint stores. */
  function Level(part: seq<Pair>, clamped: bool): real
    requires part != []
  {
    if clamped then Clamp(Mean(part)) else Mean(part)
  }

  /** The stepwise fit, one value per data point. */
  function Fit(parts: seq<seq<Pair>>, clamped: bool): (f: seq<real>)
    requires NonEmpty(parts)
    ensures |f| == |Flatten(parts)|
  {
    if parts == [] then []
    else
      var n := |parts| - 1;
      Fit(parts[..n], clamped) + Constant(Level(parts[n], clamped), |parts[n]|)
  }

  /** On one block no rising values gain on the fitted one. */
  lemma {:induction false} BlockCross(part: seq<Pair>, g: seq<real>, clamped: bool)
    requires part != [] && Ceiling(part) && |g| == |part| && NonDecreasing(g)
    requires clamped ==> Within(g, 0.0, 1.0)
    ensures Cross(Ys(part), Constant(Level(part, clamped), |part|), g) >= 0.0
  {
    BlockGains(Ys(part), g, Level(part, clamped), Mean(part));
    DriftOfMean(part);
  }

  lemma {:induction false} FitCross(parts: seq<seq<Pair>>, g: seq<real>, clamped: bool)
    requires Pooled(parts) && |g| == |Flatten(parts)| && NonDecreasing(g)
    requires clamped ==> Within(g, 0.0, 1.0)
    ensures Cross(Ys(Flatten(parts)), Fit(parts, clamped), g) >= 0.0
    decreases |parts|
  {
    if parts != [] {
      var n := |parts| - 1;
      var k := |Flatten(parts[..n])|;
      FitCross(parts[..n], g[..k], clamped);
      BlockCross(parts[n], g[k..], clamped);
      assert Ys(Flatten(parts)) == Ys(Flatten(parts[..n])) + Ys(parts[n]);
      assert g == g[..k] + g[k..];
      CrossAppend(Ys(Flatten(parts[..n])), Fit(parts[..n], clamped), g[..k],
                  Ys(parts[n]), Constant(Level(parts[n], clamped), |parts[n]|), g[k..]);
    }
  }

  /**
   Isotonic optimality. The block means beat every non-decreasing fit of the sorted data, by at least
   the squared distance to it, so they are the only minimum; and the stored values, clamped to
   [0, 1], beat every such fit with values in [0, 1] likewise.
   */
  lemma {:induction false} IsotonicOptimal(parts: seq<seq<Pair>>, g: seq<real>, clamped: bool)
    requires Pooled(parts) && |g| == |Flatten(parts)| && NonDecreasing(g)
    requires clamped ==> Within(g, 0.0, 1.0)
    ensures var y, f := Ys(Flatten(parts)), Fit(parts, clamped);
            && Sse(y, g) >= Sse(y, f) + Sse(f, g)
            && Sse(y, g) >= Sse(y, f) && (Sse(y, g) == Sse(y, f) ==> g == f)
  {
    var y, f := Ys(Flatten(parts)), Fit(parts, clamped);
    FitCross(parts, g, clamped);
    SseExpands(y, f, g);
    SseNonNegative(f, g);
  }

  lemma ClampMonotone(a: real, b: real)
    requires a <= b
    ensures Clamp(a) <= Clamp(b)
  {}

  lemma {:induction false} ConstantAppend(f: seq<real>, c: real, n: nat)
    requires NonDecreasing(f) && forall i :: 0 <= i < |f| ==> f[i] <= c
    ensures NonDecreasing(f + Constant(c, n))
    ensures forall i :: 0 <= i < |f + Constant(c, n)| ==> (f + Constant(c, n))[i] <= c
  {}

  /** The fit is one of the fits it beats: it does not decrease, and its stored values are probabilities. */
  lemma {:induction false} FitAdmissible(parts: seq<seq<Pair>>, clamped: bool)
    requires NonEmpty(parts) && Rising(parts)
    ensures NonDecreasing(Fit(parts, clamped))
    ensures parts != [] ==> forall i :: 0 <= i < |Fit(parts, clamped)| ==> Fit(parts, clamped)[i] <= Level(parts[|parts| - 1], clamped)
    ensures clamped ==> Within(Fit(parts, clamped), 0.0, 1.0)
    decreases |parts|
  {
    if parts != [] {
      var n := |parts| - 1;
      FitAdmissible(parts[..n], clamped);
      if n > 0 {
        ClampMonotone(Mean(parts[n - 1]), Mean(parts[n]));
        assert Level(parts[n - 1], clamped) <= Level(parts[n], clamped);
      }
      ConstantAppend(Fit(parts[..n], clamped), Level(parts[n], clamped), |parts[n]|);
    }
  }

  lemma {:induction false} DriftIsGap(y: seq<real>, m: real)
    ensures Drift(y, m) == Sum(y) - Sum(Constant(m, |y|))
    decreases |y|
  {
    if y != [] {
      var n := |y| - 1;
      DriftIsGap(y[..n], m);
      assert Constant(m, |y|)[..n] == Constant(m, n);
    }
  }

  lemma {:induction false} BlockMass(part: seq<Pair>)
    requires part != []
    ensures Sum(Constant(Mean(part), |part|)) == Sum(Ys(part))
  {
    DriftOfMean(part);
    DriftIsGap(Ys(part), Mean(part));
  }

  /** Pooling preserves mass: the block means, each times its size, add up to the outcomes. */
  lemma {:induction false} FitPreservesMass(parts: seq<seq<Pair>>)
    requires NonEmpty(parts)
    ensures Sum(Fit(parts, false)) == Sum(Ys(Flatten(parts)))
    decreases |parts|
  {
    if parts != [] {
      var n := |parts| - 1;
      FitPreservesMass(parts[..n]);
      BlockMass(parts[n]);
      assert Ys(Flatten(parts)) == Ys(Flatten(parts[..n])) + Ys(parts[n]);
      SumAppend(Ys(Flatten(parts[..n])), Ys(parts[n]));
      SumAppend(Fit(parts[..n], false), Constant(Mean(parts[n]), |parts[n]|));
    }
  }

  lemma {:induction false} DriftWithin(y: seq<real>)
    requires Within(y, 0.0, 1.0)
    ensures Drift(y, 1.0) <= 0.0 <= Drift(y, 0.0)
    decreases |y|
  {
    if y != [] { DriftWithin(y[..|y| - 1]); }
  }

  lemma {:induction false} MeanWithin(part: seq<Pair>)
    requires part != [] && Within(Ys(part), 0.0, 1.0)
    ensures 0.0 <= Mean(part) <= 1.0
  {
    var y, m := Ys(part), Mean(part);
    DriftWithin(y);
    DriftOfMean(part);
    if m > 1.0 { DriftFalls(y, 1.0, m); } else if m < 0.0 { DriftFalls(y, m, 0.0); }
  }

  lemma {:induction false} WithinSplits(y: seq<real>, z: seq<real>)
    requires Within(y + z, 0.0, 1.0)
    ensures Within(y, 0.0, 1.0) && Within(z, 0.0, 1.0)
  {
    assert forall i :: 0 <= i < |y| ==> y[i] == (y + z)[i];
    assert forall i :: 0 <= i < |z| ==> z[i] == (y + z)[|y| + i];
  }

  /** For outcomes that are probabilities the clamp does nothing. */
  lemma {:induction false} ClampIdle(parts: seq<seq<Pair>>)
    requires NonEmpty(parts) && Within(Ys(Flatten(parts)), 0.0, 1.0)
    ensures Fit(parts, true) == Fit(parts, false)
    decreases |parts|
  {
    if parts != [] {
      var n := |parts| - 1;
      assert Ys(Flatten(parts)) == Ys(Flatten(parts[..n])) + Ys(parts[n]);
      WithinSplits(Ys(Flatten(parts[..n])), Ys(parts[n]));
      ClampIdle(parts[..n]);
      MeanWithin(parts[n]);
    }
  }

  // ----- applying the map -----

  /** The last breakpoint at or before `p`. */
  function LastAtMost(s: seq<Point>, p: real): (k: nat)
    requires s != [] && s[0].p <= p
    ensures k < |s| && s[k].p <= p && forall j :: k < j < |s| ==> p < s[j].p
  {
    if s[|s| - 1].p <= p then |s| - 1 else LastAtMost(s[..|s| - 1], p)
  }

  /** The map: the nearest end outside the breakpoints, the last breakpoint passed between them. */
  function Applied(points: seq<Point>, p: real): real {
    if points == [] then p
    else
      StableSortCorrect(points, POINT_BY_P, 0.0);
      var s := StableSort(points, POINT_BY_P);
      if p <= s[0].p then s[0].cal else s[LastAtMost(s, p)].cal
  }

  /** `applyIsotonic`. */
  method ApplyIsotonic(points: seq<Point>, p: real) returns (cal: real)
    ensures cal == Applied(points, p)
  {
    if |points| == 0 { return p; }
    StableSortCorrect(points, POINT_BY_P, 0.0);
    var sorted := StableSort(points, POINT_BY_P);
    if p <= sorted[0].p { return sorted[0].cal; }
    var last := sorted[|sorted| - 1];
    if p >= last.p { return last.cal; }
    var lo := sorted[0].cal;
    for i := 0 to |sorted|
      invariant i > 0 ==> sorted[i - 1].p <= p && lo == sorted[i - 1].cal
    {
      var q := sorted[i];
      if q.p <= p {
        lo := q.cal;
      } else {
        LastAtMostIs(sorted, p, i - 1);
        return lo;
      }
    }
    return lo;
  }

  lemma {:induction false} LastAtMostIs(s: seq<Point>, p: real, k: nat)
    requires SortedBy(s, POINT_BY_P) && k + 1 < |s| && s[k].p <= p < s[k + 1].p && s[0].p <= p
    ensures LastAtMost(s, p) == k
  {
    forall j | k < j < |s| ensures p < s[j].p {
      assert j == k + 1 || POINT_BY_P(s[k + 1]) <= POINT_BY_P(s[j]);
    }
  }

  lemma {:induction false} LastAtMostRises(s: seq<Point>, p: real, p': real)
    requires SortedBy(s, POINT_BY_P) && s != [] && s[0].p <= p <= p'
    ensures LastAtMost(s, p) <= LastAtMost(s, p')
  {}

  /** Breakpoints in order, with values that do not fall. */
  ghost predicate RisingMap(s: seq<Point>) {
    && SortedBy(s, POINT_BY_P)
    && forall i, j :: 0 <= i <= j < |s| ==> s[i].cal <= s[j].cal
  }

  /** On a map with rising values, applying it is monotone and stays between the end values. */
  lemma {:induction false} ApplyMonotone(points: seq<Point>, p: real, p': real)
    requires points != [] && RisingMap(points) && p <= p'
    ensures Applied(points, p) <= Applied(points, p')
    ensures points[0].cal <= Applied(points, p) <= points[|points| - 1].cal
  {
    StableSortIdle(points, POINT_BY_P);
    if p > points[0].p { LastAtMostRises(points, p, p'); }
  }

  /** Whether breakpoints that share a `p` share a value. */
  ghost predicate TiesAgree(points: seq<Point>) {
    forall j, k :: 0 <= j < |points| && 0 <= k < |points| && points[j].p == points[k].p ==> points[j].cal == points[k].cal
  }

  predicate OwnValue(points: seq<Point>, k: nat)
    requires k < |points|
  {
    Applied(points, points[k].p) == points[k].cal
  }

  /** At a breakpoint the map gives the value of some breakpoint at the same `p`. */
  lemma {:induction false} AppliedAtBreakpoint(points: seq<Point>, k: nat) returns (j: nat)
    requires k < |points| && SortedBy(points, POINT_BY_P)
    ensures j < |points| && points[j].p == points[k].p && Applied(points, points[k].p) == points[j].cal
  {
    StableSortIdle(points, POINT_BY_P);
    var p := points[k].p;
    assert POINT_BY_P(points[0]) <= POINT_BY_P(points[k]);
    if p <= points[0].p {
      j := 0;
    } else {
      j := LastAtMost(points, p);
      assert j >= k && (j == k || POINT_BY_P(points[k]) <= POINT_BY_P(points[j]));
    }
  }

  /** Every breakpoint is mapped to its own value exactly when breakpoints that share a `p` share a value. */
  lemma {:induction false} OwnValueIff(points: seq<Point>)
    requires SortedBy(points, POINT_BY_P)
    ensures (forall k :: 0 <= k < |points| ==> OwnValue(points, k)) <==> TiesAgree(points)
  {
    if TiesAgree(points) {
      forall k | 0 <= k < |points| ensures OwnValue(points, k) {
        var j := AppliedAtBreakpoint(points, k);
      }
    } else {
      var j, k :| 0 <= j < |points| && 0 <= k < |points| && points[j].p == points[k].p && points[j].cal != points[k].cal;
      assert !OwnValue(points, j) || !OwnValue(points, k);
    }
  }

  // ----- the fitted map -----

  lemma {:induction false} FlattenPrefix(parts: seq<seq<Pair>>, j: nat)
    requires j <= |parts|
    ensures Flatten(parts[..j]) <= Flatten(parts)
    decreases |parts|
  {
    if j < |parts| {
      FlattenPrefix(parts[..|parts| - 1], j);
      assert parts[..|parts| - 1][..j] == parts[..j];
    } else {
      assert parts[..j] == parts;
    }
  }

  /** Where the last point of a run stands in the data. */
  lemma {:induction false} EndOf(parts: seq<seq<Pair>>, j: nat) returns (i: nat)
    requires j < |parts| && NonEmpty(parts)
    ensures i + 1 == |Flatten(parts[..j + 1])| && i < |Flatten(parts)| && Flatten(parts)[i] == parts[j][|parts[j]| - 1]
  {
    FlattenPrefix(parts, j + 1);
    assert parts[..j + 1][..j] == parts[..j];
    i := |Flatten(parts[..j + 1])| - 1;
  }

  lemma {:induction false} EndsInOrder(parts: seq<seq<Pair>>, j: nat, k: nat)
    requires j <= k < |parts| && NonEmpty(parts) && SortedBy(Flatten(parts), BY_P)
    ensures parts[j][|parts[j]| - 1].p <= parts[k][|parts[k]| - 1].p
  {
    var m := EndOf(parts, j);
    var n := EndOf(parts, k);
    assert parts[..k + 1][..j + 1] == parts[..j + 1];
    FlattenPrefix(parts[..k + 1], j + 1);
    assert m == n || BY_P(Flatten(parts)[m]) <= BY_P(Flatten(parts)[n]);
  }

  /** What `FitIsotonic` returns is a map with rising values, all of them probabilities. */
  lemma {:induction false} FittedMapRises(points: seq<Point>, parts: seq<seq<Pair>>)
    requires NonEmpty(parts) && Rising(parts) && SortedBy(Flatten(parts), BY_P)
    requires |points| == |parts| && forall j :: 0 <= j < |parts| ==> points[j] == PointFor(parts[j])
    ensures RisingMap(points)
    ensures forall j :: 0 <= j < |points| ==> 0.0 <= points[j].cal <= 1.0
  {
    forall i, j | 0 <= i <= j < |points| ensures points[i].p <= points[j].p && points[i].cal <= points[j].cal {
      EndsInOrder(parts, i, j);
      ClampMonotone(Mean(parts[i]), Mean(parts[j]));
    }
  }

  // ----- what the map serves at the data -----

  /** Where a point of a run stands in the data. */
  lemma {:induction false} PlaceOf(parts: seq<seq<Pair>>, j: nat, i: nat) returns (n: nat)
    requires j < |parts| && i < |parts[j]|
    ensures n == |Flatten(parts[..j])| + i < |Flatten(parts)| && Flatten(parts)[n] == parts[j][i]
  {
    n := |Flatten(parts[..j])| + i;
    FlattenPrefix(parts, j + 1);
    assert parts[..j + 1][..j] == parts[..j];
    assert Flatten(parts[..j + 1])[n] == parts[j][i];
  }

  /** A point lies between the end of the run before it and the end of its own. */
  lemma {:induction false} BetweenEnds(parts: seq<seq<Pair>>, j: nat, i: nat)
    requires j < |parts| && i < |parts[j]| && NonEmpty(parts) && SortedBy(Flatten(parts), BY_P)
    ensures parts[j][i].p <= parts[j][|parts[j]| - 1].p
    ensures j > 0 ==> parts[j - 1][|parts[j - 1]| - 1].p <= parts[j][i].p
  {
    var data := Flatten(parts);
    var n := PlaceOf(parts, j, i);
    var end := PlaceOf(parts, j, |parts[j]| - 1);
    assert n == end || BY_P(data[n]) <= BY_P(data[end]);
    if j > 0 {
      var before := PlaceOf(parts, j - 1, |parts[j - 1]| - 1);
      assert parts[..j][..j - 1] == parts[..j - 1];
      assert BY_P(data[before]) <= BY_P(data[n]);
    }
  }

  /**
   Whether breakpoint `j` decides at `p`, which lies between the one before it and itself: of the first block always;
   at the first breakpoint's own `p` when the first level is the same; at `p` of its own when those tied with it
   further on have its level; and anywhere else only when the block before has it.
   */
  ghost predicate Serves(points: seq<Point>, j: nat, p: real)
    requires j < |points|
  {
    if j == 0 then true
    else if p <= points[0].p then points[0].cal == points[j].cal
    else if p == points[j].p then forall i :: j <= i < |points| && points[i].p == p ==> points[i].cal == points[j].cal
    else points[j - 1].cal == points[j].cal
  }

  lemma {:induction false} ServesIff(points: seq<Point>, j: nat, p: real)
    requires RisingMap(points) && j < |points|
    requires p <= points[j].p && (j > 0 ==> points[j - 1].p <= p)
    ensures Applied(points, p) == points[j].cal <==> Serves(points, j, p)
    ensures p < points[j].p ==> Applied(points, p) <= points[j].cal
  {
    StableSortIdle(points, POINT_BY_P);
    assert POINT_BY_P(points[0]) <= POINT_BY_P(points[j]);
    if p > points[0].p {
      var k := LastAtMost(points, p);
      if p == points[j].p {
        assert k >= j && points[k].p == p by { assert j == k || POINT_BY_P(points[j]) <= POINT_BY_P(points[k]); }
      } else {
        LastAtMostIs(points, p, j - 1);
      }
    }
  }

  /**
   The map at the data. It gives a data point the level of its own block, which is what the fit has there, exactly
   in the cases of `Serves`; inside a block after the first it gives the level of the block before.
   */
  lemma {:induction false} ServesOwnBlockIff(points: seq<Point>, parts: seq<seq<Pair>>, j: nat, i: nat)
    requires NonEmpty(parts) && Rising(parts) && SortedBy(Flatten(parts), BY_P)
    requires |points| == |parts| && forall n :: 0 <= n < |parts| ==> points[n] == PointFor(parts[n])
    requires j < |parts| && i < |parts[j]|
    ensures Applied(points, parts[j][i].p) == Level(parts[j], true) <==> Serves(points, j, parts[j][i].p)
    ensures parts[j][i].p < points[j].p ==> Applied(points, parts[j][i].p) <= Level(parts[j], true)
  {
    FittedMapRises(points, parts);
    BetweenEnds(parts, j, i);
    ServesIff(points, j, parts[j][i].p);
  }

  ghost predicate StrictlyOrdered(data: seq<Pair>) { forall i, j :: 0 <= i < j < |data| ==> data[i].p < data[j].p }

  /**
   Without ties: a data point is given its own block's level exactly when that block is the first, the point is the
   block's last, or the block before has the same level.
   */
  lemma {:induction false} UntiedServesIff(points: seq<Point>, parts: seq<seq<Pair>>, j: nat, i: nat)
    requires NonEmpty(parts) && Rising(parts) && StrictlyOrdered(Flatten(parts))
    requires |points| == |parts| && forall n :: 0 <= n < |parts| ==> points[n] == PointFor(parts[n])
    requires j < |parts| && i < |parts[j]|
    ensures Applied(points, parts[j][i].p) == Level(parts[j], true)
            <==> j == 0 || i == |parts[j]| - 1 || Level(parts[j - 1], true) == Level(parts[j], true)
  {
    assert SortedBy(Flatten(parts), BY_P);
    ServesOwnBlockIff(points, parts, j, i);
    if j > 0 {
      AfterFirst(parts, j, i);
      LastOrBefore(parts, j, i);
      forall m | j < m < |points| ensures points[m].p != points[j].p { EndsApart(parts, j, m); }
    }
  }

  lemma {:induction false} AfterFirst(parts: seq<seq<Pair>>, j: nat, i: nat)
    requires 0 < j < |parts| && i < |parts[j]| && NonEmpty(parts) && StrictlyOrdered(Flatten(parts))
    ensures parts[0][|parts[0]| - 1].p < parts[j][i].p
  {
    var n := PlaceOf(parts, j, i);
    var first := EndOf(parts, 0);
    FlattenPrefix(parts[..j], 1);
    assert parts[..j][..1] == parts[..1];
  }

  lemma {:induction false} LastOrBefore(parts: seq<seq<Pair>>, j: nat, i: nat)
    requires j < |parts| && i < |parts[j]| && NonEmpty(parts) && StrictlyOrdered(Flatten(parts))
    ensures i < |parts[j]| - 1 ==> parts[j][i].p < parts[j][|parts[j]| - 1].p
  {
    var n := PlaceOf(parts, j, i);
    var end := PlaceOf(parts, j, |parts[j]| - 1);
  }

  lemma {:induction false} EndsApart(parts: seq<seq<Pair>>, j: nat, k: nat)
    requires j < k < |parts| && NonEmpty(parts) && StrictlyOrdered(Flatten(parts))
    ensures parts[j][|parts[j]| - 1].p < parts[k][|parts[k]| - 1].p
  {
    var m := EndOf(parts, j);
    var n := EndOf(parts, k);
    assert parts[..k][..j + 1] == parts[..j + 1] && parts[..k + 1][..k] == parts[..k];
    FlattenPrefix(parts[..k], j + 1);
  }

  const SMALL := [Pair(0.1, 0.0), Pair(0.2, 1.0), Pair(0.3, 0.0)]
  const SMALL_SPLIT := [[Pair(0.1, 0.0)], [Pair(0.2, 1.0), Pair(0.3, 0.0)]]

  const SMALL_MAP := [Point(0.1, 0.0), Point(0.3, 0.5)]

  lemma {:induction false} PairMean(a: Pair, b: Pair)
    ensures Ys([a, b]) == [a.y, b.y] && Mean([a, b]) == (a.y + b.y) / 2.0
    ensures a.y >= b.y ==> Ceiling([a, b])
  {
    SingletonCeiling(a);
    SingletonCeiling(b);
    SumAppend([a.y], [b.y]);
    assert Ys([a]) == [a.y] && Ys([b]) == [b.y];
    assert [a.y, b.y] == [a.y] + [b.y] && [a, b] == [a] + [b];
    if a.y >= b.y { MergeCeiling([a], [b]); }
  }

  lemma {:induction false} OneRun(part: seq<Pair>)
    requires part != []
    ensures Flatten([part]) == part
  {
    var runs := [part];
    assert runs[..0] == [];
    assert Flatten(runs[..0]) == [];
  }

  lemma {:induction false} TwoRunsSplit(a: Pair, b: Pair, c: Pair)
    requires a.p < b.p < c.p
    ensures Flatten([[a], [b, c]]) == [a, b, c] == StableSort([a, b, c], BY_P)
  {
    var parts := [[a], [b, c]];
    OneRun([a]);
    assert parts[..1] == [[a]];
    assert Flatten(parts) == [a] + [b, c] == [a, b, c];
    StableSortIdle([a, b, c], BY_P);
  }

  lemma {:induction false} TwoRunsPool(a: Pair, b: Pair, c: Pair)
    requires b.y >= c.y && a.y <= (b.y + c.y) / 2.0
    ensures Pooled([[a], [b, c]]) && Rising([[a], [b, c]]) && Mean([a]) == a.y && Mean([b, c]) == (b.y + c.y) / 2.0
  {
    SingletonCeiling(a);
    PairMean(b, c);
  }

  /** What `FitIsotonic` makes of three points: the second and the third pooled at one half. */
  lemma {:induction false} SmallFit()
    ensures Flatten(SMALL_SPLIT) == SMALL == StableSort(SMALL, BY_P)
    ensures Pooled(SMALL_SPLIT) && Rising(SMALL_SPLIT)
    ensures PointFor(SMALL_SPLIT[0]) == SMALL_MAP[0] && PointFor(SMALL_SPLIT[1]) == SMALL_MAP[1]
  {
    TwoRunsSplit(SMALL[0], SMALL[1], SMALL[2]);
    TwoRunsPool(SMALL[0], SMALL[1], SMALL[2]);
  }

  lemma {:induction false} BeforeSecond(a: Point, b: Point, p: real)
    requires a.p < p < b.p
    ensures Applied([a, b], p) == a.cal
  {
    StableSortIdle([a, b], POINT_BY_P);
    LastAtMostIs([a, b], p, 0);
  }

  /**
   An input on which the map does not serve the fit: the second point's block has one half, and the map gives it 0,
   the level of the block before.
   */
  lemma {:induction false} MapMissesFit()
    ensures Flatten(SMALL_SPLIT) == StableSort(SMALL, BY_P) && Pooled(SMALL_SPLIT) && Rising(SMALL_SPLIT)
    ensures SMALL_MAP == [PointFor(SMALL_SPLIT[0]), PointFor(SMALL_SPLIT[1])]
    ensures SMALL_SPLIT[1][0] == Pair(0.2, 1.0) && Level(SMALL_SPLIT[1], true) == 0.5 && Applied(SMALL_MAP, 0.2) == 0.0
  {
    SmallFit();
    assert PointFor(SMALL_SPLIT[1]).cal == Level(SMALL_SPLIT[1], true);
    BeforeSecond(SMALL_MAP[0], SMALL_MAP[1], 0.2);
  }

  /** Among the fits that do not decrease (and, when clamped, are probabilities), `f` is one, and none is better. */
  ghost predicate LeastSquares(y: seq<real>, f: seq<real>, clamped: bool) {
    && |f| == |y| && NonDecreasing(f) && (clamped ==> Within(f, 0.0, 1.0))
    && forall g :: |g| == |y| && NonDecreasing(g) && (clamped ==> Within(g, 0.0, 1.0)) ==> Sse(y, f) <= Sse(y, g)
  }

  lemma {:induction false} PoolingIsLeastSquares(parts: seq<seq<Pair>>, clamped: bool)
    requires Pooled(parts) && Rising(parts)
    ensures LeastSquares(Ys(Flatten(parts)), Fit(parts, clamped), clamped)
  {
    var y, f := Ys(Flatten(parts)), Fit(parts, clamped);
    FitAdmissible(parts, clamped);
    forall g | |g| == |y| && NonDecreasing(g) && (clamped ==> Within(g, 0.0, 1.0)) ensures Sse(y, f) <= Sse(y, g) {
      IsotonicOptimal(parts, g, clamped);
    }
  }

  // ----- the loop -----

  /** One breakpoint per block: its last `p`, and its mean clamped. */
  method Breakpoints(blocks: seq<Block>, ghost parts: seq<seq<Pair>>) returns (points: seq<Point>)
    requires NonEmpty(parts) && |blocks| == |parts| && forall j :: 0 <= j < |parts| ==> IsBlock(blocks[j], parts[j])
    ensures |points| == |parts| && forall j :: 0 <= j < |parts| ==> points[j] == PointFor(parts[j])
  {
    points := [];
    for j := 0 to |blocks|
      invariant |points| == j && forall k :: 0 <= k < j ==> points[k] == PointFor(parts[k])
    {
      var b := blocks[j];
      BlockMean(b, parts[j]);
      points := points + [Point(b.ps[|b.ps| - 1], Clamp(b.sum / b.n as real))];
    }
  }

  /**
   `fitIsotonic`: the sorted data split into contiguous runs with rising means, one breakpoint each.
   `parts` is that split, and the values stored for it are the least-squares fit.
   */
  method FitIsotonic(pairs: seq<Pair>) returns (points: seq<Point>, ghost parts: seq<seq<Pair>>)
    ensures Flatten(parts) == StableSort(pairs, BY_P) && Pooled(parts) && Rising(parts)
    ensures |points| == |parts| && forall j :: 0 <= j < |parts| ==> points[j] == PointFor(parts[j])
    ensures RisingMap(points)
    ensures LeastSquares(Ys(StableSort(pairs, BY_P)), Fit(parts, true), true)
    ensures LeastSquares(Ys(StableSort(pairs, BY_P)), Fit(parts, false), false)
  {
    var sorted := StableSort(pairs, BY_P);
    var blocks: seq<Block> := [];
    parts := [];
    for i := 0 to |sorted|
      invariant Stacks(blocks, parts, sorted[..i]) && Rising(parts)
    {
      var q := sorted[i];
      StackPush(blocks, parts, sorted[..i], q);
      assert sorted[..i + 1] == sorted[..i] + [q];
      NewestPushed(parts, [q]);
      blocks, parts := PoolBack(blocks + [Block([q.p], q.y, 1)], parts + [[q]], sorted[..i + 1]);
    }
    assert sorted[..|sorted|] == sorted;
    points := Breakpoints(blocks, parts);
    StableSortCorrect(pairs, BY_P, 0.0);
    FittedMapRises(points, parts);
    PoolingIsLeastSquares(parts, true);
    PoolingIsLeastSquares(parts, false);
  }
}
