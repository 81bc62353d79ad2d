/** Shared vocabulary: optional values, backend URLs and counting over sequences. */
module Common {

  datatype Option<+T> = None | Some(value: T)

  /** A backend address. Two URLs are equal exactly when their texts are. */
  datatype Url = Url(text: string)

  ghost predicate NoDup<T>(s: seq<T>) {
    forall i, j :: 0 <= i < j < |s| ==> s[i] != s[j]
  }

  lemma ConcatAssociates<T>(a: seq<T>, b: seq<T>, c: seq<T>)
    ensures (a + b) + c == a + (b + c)
  {
  }

  lemma NoDupConcat<T>(a: seq<T>, b: seq<T>)
    requires NoDup(a) && NoDup(b) && forall x :: x in a ==> x !in b
    ensures NoDup(a + b)
  {
    forall i, j | 0 <= i < |a| && 0 <= j < |b|
      ensures a[i] != b[j]
    {
      assert a[i] in a && b[j] in b;
    }
  }

  lemma NoDupPicked<T>(s: seq<T>, at: seq<nat>, picked: seq<T>)
    requires NoDup(s) && |picked| == |at|
    requires forall m :: 0 <= m < |at| ==> at[m] < |s| && picked[m] == s[at[m]]
    requires forall m, n :: 0 <= m < n < |at| ==> at[m] < at[n]
    ensures NoDup(picked)
  {
  }

  /** Number of positions of `s` whose element satisfies `p`. */
  ghost function Count<T>(s: seq<T>, p: T -> bool): nat {
    if s == [] then 0
    else Count(s[..|s| - 1], p) + (if p(s[|s| - 1]) then 1 else 0)
  }

  lemma CountSnoc<T>(s: seq<T>, x: T, p: T -> bool)
    ensures Count(s + [x], p) == Count(s, p) + (if p(x) then 1 else 0)
  {
    assert (s + [x])[..|s|] == s;
  }

  lemma {:induction false} CountConcat<T>(a: seq<T>, b: seq<T>, p: T -> bool)
    ensures Count(a + b, p) == Count(a, p) + Count(b, p)
    decreases |b|
  {
    if b == [] {
      assert a + b == a;
    } else {
      var b' := b[..|b| - 1];
      assert a + b == (a + b') + [b[|b| - 1]];
      CountConcat(a, b', p);
      CountSnoc(a + b', b[|b| - 1], p);
    }
  }

  /** Replacing one element moves the count by the difference of the two verdicts. */
  lemma {:induction false} CountUpdate<T>(s: seq<T>, i: nat, x: T, p: T -> bool)
    requires i < |s|
    ensures Count(s[i := x], p) == Count(s, p) - (if p(s[i]) then 1 else 0) + (if p(x) then 1 else 0)
    decreases |s|
  {
    var n := |s| - 1;
    if i == n {
      assert s[i := x][..n] == s[..n];
    } else {
      assert s[i := x][..n] == s[..n][i := x];
      CountUpdate(s[..n], i, x, p);
    }
  }

  lemma {:induction false} CountPositive<T>(s: seq<T>, i: nat, p: T -> bool)
    requires i < |s| && p(s[i])
    ensures Count(s, p) > 0
    decreases |s|
  {
    if i < |s| - 1 {
      CountPositive(s[..|s| - 1], i, p);
    }
  }

  lemma {:induction false} CountWitness<T>(s: seq<T>, p: T -> bool) returns (i: nat)
    requires Count(s, p) > 0
    ensures i < |s| && p(s[i])
    decreases |s|
  {
    i := |s| - 1;
    if !p(s[i]) {
      i := CountWitness(s[..|s| - 1], p);
    }
  }

  /** A stronger condition is met at most as often. */
  lemma {:induction false} CountMonotone<T>(s: seq<T>, p: T -> bool, q: T -> bool)
    requires forall x :: x in s && p(x) ==> q(x)
    ensures Count(s, p) <= Count(s, q)
    decreases |s|
  {
    if s != [] {
      CountMonotone(s[..|s| - 1], p, q);
    }
  }

  // ---------- Sums over maps ----------

  /** Sum of the values of a map. */
  ghost function Sum<K>(m: map<K, int>): int
    decreases |m|
  {
    if m == map[] then 0
    else
      var u :| u in m;
      assert |m - {u}| < |m| by { assert u !in m - {u} && m == (m - {u})[u := m[u]]; }
      m[u] + Sum(m - {u})
  }

  /** The sum does not depend on the order in which keys are taken. */
  lemma {:induction false} SumTake<K>(m: map<K, int>, u: K)
    requires u in m
    ensures Sum(m) == m[u] + Sum(m - {u})
    decreases |m|
  {
    var k :| k in m && Sum(m) == m[k] + Sum(m - {k});
    if k != u {
      assert m == (m - {k})[k := m[k]] && m == (m - {u})[u := m[u]];
      SumTake(m - {k}, u);
      SumTake(m - {u}, k);
      assert m - {k} - {u} == m - {u} - {k};
    }
  }

  lemma SumUpdate<K>(m: map<K, int>, u: K, x: int)
    requires u in m
    ensures Sum(m[u := x]) == Sum(m) - m[u] + x
  {
    SumTake(m, u);
    SumTake(m[u := x], u);
    assert m[u := x] - {u} == m - {u};
  }

  lemma {:induction false} SumBounds<K>(low: map<K, int>, high: map<K, int>)
    requires low.Keys == high.Keys && forall u :: u in low ==> 0 <= low[u] <= high[u]
    ensures 0 <= Sum(low) <= Sum(high)
    ensures Sum(low) == 0 ==> forall u :: u in low ==> low[u] == 0
    decreases |low|
  {
    if low != map[] {
      var k :| k in low;
      SumTake(low, k);
      SumTake(high, k);
      assert low == (low - {k})[k := low[k]];
      SumBounds(low - {k}, high - {k});
    } else {
      assert high == map[];
    }
  }

  lemma {:induction false} SumOfZeros<K>(m: map<K, int>)
    requires forall u :: u in m ==> m[u] == 0
    ensures Sum(m) == 0
  {
    SumBounds(m, m);
    if m != map[] {
      var k :| k in m && Sum(m) == m[k] + Sum(m - {k});
      assert m == (m - {k})[k := m[k]];
      SumOfZeros(m - {k});
    }
  }
}
