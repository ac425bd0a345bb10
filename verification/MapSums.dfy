/**
 Sums of an integer measure over the values of a finite map.
 The money invariants speak of "the sum over the reservation rows"; these lemmas say
 how such a sum moves when one row is inserted, replaced or inspected.
 */
module MapSums {

  ghost function Sum<K, V>(m: map<K, V>, f: V -> int): int
    decreases |m|
  {
    if m == map[] then 0
    else
      var k :| k in m;
      f(m[k]) + Sum(m - {k}, f)
  }

  /** The key that is taken out first does not matter. */
  lemma {:induction false} SumRemove<K, V>(m: map<K, V>, k: K, f: V -> int)
    requires k in m
    ensures Sum(m, f) == f(m[k]) + Sum(m - {k}, f)
    decreases |m|
  {
    var j :| j in m && Sum(m, f) == f(m[j]) + Sum(m - {j}, f);
    if j != k {
      SumRemove(m - {j}, k, f);
      SumRemove(m - {k}, j, f);
      assert m - {j} - {k} == m - {k} - {j};
    }
  }

  lemma SumPut<K, V>(m: map<K, V>, k: K, v: V, f: V -> int)
    ensures Sum(m[k := v], f) == Sum(m, f) + f(v) - (if k in m then f(m[k]) else 0)
  {
    SumRemove(m[k := v], k, f);
    assert m[k := v] - {k} == m - {k};
    if k in m {
      SumRemove(m, k, f);
    } else {
      assert m - {k} == m;
    }
  }

  lemma {:induction false} SumNonNegative<K, V>(m: map<K, V>, f: V -> int)
    requires forall k :: k in m ==> f(m[k]) >= 0
    ensures Sum(m, f) >= 0
    decreases |m|
  {
    if m != map[] {
      var k :| k in m;
      SumRemove(m, k, f);
      SumNonNegative(m - {k}, f);
    }
  }

  /** One term of a sum of non-negative terms is at most the sum. */
  lemma SumAtLeastTerm<K, V>(m: map<K, V>, k: K, f: V -> int)
    requires k in m
    requires forall j :: j in m ==> f(m[j]) >= 0
    ensures f(m[k]) <= Sum(m, f)
  {
    SumRemove(m, k, f);
    SumNonNegative(m - {k}, f);
  }
}

/**
 Sums of an integer measure over a sequence. The measure is a parameter, so that nothing
 about a particular element has to be known to split or rearrange a sum.
 */
module SeqSums {

  function Total<T>(xs: seq<T>, f: T -> int): int {
    if xs == [] then 0 else f(xs[0]) + Total(xs[1..], f)
  }

  lemma {:induction false} TotalSplit<T>(a: seq<T>, b: seq<T>, f: T -> int)
    ensures Total(a + b, f) == Total(a, f) + Total(b, f)
    decreases |a|
  {
    if a == [] {
      assert a + b == b;
    } else {
      assert (a + b)[1..] == a[1..] + b;
      TotalSplit(a[1..], b, f);
    }
  }

  lemma {:induction false} TotalOne<T>(x: T, f: T -> int)
    ensures Total([x], f) == f(x)
  {
    assert Total([x][1..], f) == 0;
  }

  lemma {:induction false} TotalInsert<T>(a: seq<T>, x: T, b: seq<T>, f: T -> int)
    ensures Total(a + [x] + b, f) == f(x) + Total(a + b, f)
  {
    TotalSplit(a + [x], b, f);
    TotalSplit(a, [x], f);
    TotalSplit(a, b, f);
    TotalOne(x, f);
  }

  /** What two consecutive extensions of a log account for adds up. */
  lemma {:induction false} TotalChain<T>(a: seq<T>, b: seq<T>, c: seq<T>, f: T -> int)
    requires a <= b <= c
    ensures Total(c[|a|..], f) == Total(b[|a|..], f) + Total(c[|b|..], f)
  {
    assert c[|a|..] == b[|a|..] + c[|b|..];
    TotalSplit(b[|a|..], c[|b|..], f);
  }
}
