/** Reservoir sampling: which requests a bounded sample holds, and how often over all draws. */
module Reservoir {
  import opened Common

  /** The random numbers drawn, oldest first. */
  type Draws = seq<nat>

  /** Draws made once `n` requests were recorded into a sample of capacity `k`. */
  function DrawCount(k: nat, n: nat): nat {
    if n <= k then 0 else n - k
  }

  /** Request number k + i (from zero) draws a number below its count k + i + 1. */
  predicate ValidDraws(k: nat, n: nat, draws: Draws) {
    |draws| == DrawCount(k, n) && forall i :: 0 <= i < |draws| ==> draws[i] <= k + i
  }

  /** The request numbers in the sample, slot by slot. */
  function Sample(k: nat, n: nat, draws: Draws): (s: seq<nat>)
    requires |draws| == DrawCount(k, n)
    ensures |s| == if n <= k then n else k
  {
    if n == 0 then []
    else if n <= k then Sample(k, n - 1, draws) + [n - 1]
    else
      var s := Sample(k, n - 1, draws[..|draws| - 1]);
      var j := draws[|draws| - 1];
      if j < k then s[j := n - 1] else s
  }

  /** The slots hold pairwise different recorded requests; while there is room, all of them in order. */
  lemma {:induction false} SampleDistinct(k: nat, n: nat, draws: Draws)
    requires |draws| == DrawCount(k, n)
    ensures NoDup(Sample(k, n, draws))
    ensures forall p :: 0 <= p < |Sample(k, n, draws)| ==> Sample(k, n, draws)[p] < n
    ensures n <= k ==> forall p :: 0 <= p < n ==> Sample(k, n, draws)[p] == p
  {
    if n == 0 {
    } else if n <= k {
      SampleDistinct(k, n - 1, draws);
    } else {
      SampleDistinct(k, n - 1, draws[..|draws| - 1]);
    }
  }

  /** Multiplication by repeated addition, which keeps the proofs below linear. */
  function Times(a: nat, b: nat): nat {
    if b == 0 then 0 else Times(a, b - 1) + a
  }

  lemma {:induction false} TimesIsProduct(a: nat, b: nat)
    ensures Times(a, b) == a * b
  {
    if b > 0 {
      TimesIsProduct(a, b - 1);
    }
  }

  lemma TimesNext(a: nat, b: nat)
    ensures Times(a + 1, b) == Times(a, b) + b
  {
    TimesIsProduct(a, b);
    TimesIsProduct(a + 1, b);
  }

  // ---------- All draws ----------

  /** `d` continued by every number below `c`. */
  function Continued(d: Draws, c: nat): seq<Draws> {
    if c == 0 then [] else Continued(d, c - 1) + [d + [c - 1]]
  }

  function Extended(ds: seq<Draws>, c: nat): seq<Draws> {
    if ds == [] then [] else Extended(ds[..|ds| - 1], c) + Continued(ds[|ds| - 1], c)
  }

  /** Every sequence of draws the first `n` requests can make. */
  function AllDraws(k: nat, n: nat): seq<Draws> {
    if n <= k then [[]] else Extended(AllDraws(k, n - 1), n)
  }

  lemma {:induction false} ContinuedMembers(d: Draws, c: nat)
    ensures |Continued(d, c)| == c
    ensures forall j :: 0 <= j < c ==> Continued(d, c)[j] == d + [j]
  {
    if c > 0 {
      ContinuedMembers(d, c - 1);
    }
  }

  lemma ContinuedContains(d: Draws, c: nat, e: Draws)
    ensures e in Continued(d, c) <==> e != [] && e[..|e| - 1] == d && e[|e| - 1] < c
  {
    ContinuedMembers(d, c);
    if e in Continued(d, c) {
      var j :| 0 <= j < c && Continued(d, c)[j] == e;
      assert e[..|e| - 1] == d;
    }
    if e != [] && e[..|e| - 1] == d && e[|e| - 1] < c {
      assert e == d + [e[|e| - 1]] == Continued(d, c)[e[|e| - 1]];
    }
  }

  lemma {:induction false} ExtendedLength(ds: seq<Draws>, c: nat)
    ensures |Extended(ds, c)| == Times(|ds|, c)
  {
    if ds == [] {
      TimesIsProduct(0, c);
    } else {
      var n := |ds| - 1;
      ExtendedLength(ds[..n], c);
      ContinuedMembers(ds[n], c);
      assert |Extended(ds, c)| == |Extended(ds[..n], c)| + |Continued(ds[n], c)|;
      TimesNext(n, c);
      assert n + 1 == |ds|;
    }
  }

  lemma {:induction false} ExtendedContains(ds: seq<Draws>, c: nat, e: Draws)
    ensures e in Extended(ds, c) <==> e != [] && e[..|e| - 1] in ds && e[|e| - 1] < c
  {
    if ds != [] {
      var n := |ds| - 1;
      ExtendedContains(ds[..n], c, e);
      ContinuedContains(ds[n], c, e);
      var a, b := Extended(ds[..n], c), Continued(ds[n], c);
      assert Extended(ds, c) == a + b;
      assert e in a + b <==> e in a || e in b;
      assert ds == ds[..n] + [ds[n]];
    }
  }

  lemma {:induction false} ExtendedNoDup(ds: seq<Draws>, c: nat)
    requires NoDup(ds)
    ensures NoDup(Extended(ds, c))
  {
    if ds != [] {
      var n := |ds| - 1;
      ExtendedNoDup(ds[..n], c);
      ContinuedMembers(ds[n], c);
      var a, b := Extended(ds[..n], c), Continued(ds[n], c);
      forall i, j | 0 <= i < |a| && 0 <= j < |b|
        ensures a[i] != b[j]
      {
        ExtendedContains(ds[..n], c, a[i]);
        ContinuedContains(ds[n], c, b[j]);
        assert a[i] in a && b[j] in b;
        assert ds[n] !in ds[..n];
      }
      forall i, j | 0 <= i < j < |b|
        ensures b[i] != b[j]
      {
        assert b[i][|ds[n]|] == i && b[j][|ds[n]|] == j;
      }
    }
  }

  /** The list of all draws holds each valid sequence once and nothing else. */
  lemma AllDrawsComplete(k: nat, n: nat)
    ensures NoDup(AllDraws(k, n))
    ensures forall d :: d in AllDraws(k, n) <==> ValidDraws(k, n, d)
  {
    AllDrawsDistinct(k, n);
    forall d
      ensures d in AllDraws(k, n) <==> ValidDraws(k, n, d)
    {
      DrawsAreAll(k, n, d);
    }
  }

  lemma {:induction false} AllDrawsDistinct(k: nat, n: nat)
    ensures NoDup(AllDraws(k, n))
  {
    if n > k {
      AllDrawsDistinct(k, n - 1);
      ExtendedNoDup(AllDraws(k, n - 1), n);
    }
  }

  lemma ValidPrefix(k: nat, n: nat, d: Draws)
    requires n > k
    ensures ValidDraws(k, n, d) <==> d != [] && ValidDraws(k, n - 1, d[..|d| - 1]) && d[|d| - 1] < n
  {
    if d != [] && ValidDraws(k, n - 1, d[..|d| - 1]) && d[|d| - 1] < n {
      forall i | 0 <= i < |d|
        ensures d[i] <= k + i
      {
        if i < |d| - 1 {
          assert d[..|d| - 1][i] == d[i];
        }
      }
    }
  }

  lemma {:induction false} DrawsAreAll(k: nat, n: nat, d: Draws)
    ensures d in AllDraws(k, n) <==> ValidDraws(k, n, d)
  {
    if n > k {
      ExtendedContains(AllDraws(k, n - 1), n, d);
      ValidPrefix(k, n, d);
      if d != [] {
        DrawsAreAll(k, n - 1, d[..|d| - 1]);
      }
    }
  }

  // ---------- Uniformity ----------

  /** Draws after which request `m` is in the sample of the first `n`. */
  ghost function Keeping(k: nat, n: nat, m: nat): Draws -> bool {
    (d: Draws) => |d| == DrawCount(k, n) && m in Sample(k, n, d)
  }

  /** In how many of all the draws of `n` requests request `m` ends up in the sample. */
  ghost function Kept(k: nat, n: nat, m: nat): nat {
    Count<Draws>(AllDraws(k, n), Keeping(k, n, m))
  }

  /** One more request: an old one survives unless its slot is drawn; the new one enters if any slot is. */
  lemma SurvivesDraw(k: nat, n: nat, m: nat, d: Draws, j: nat, p: nat)
    requires n >= k && |d| == DrawCount(k, n) && m <= n
    requires m in Sample(k, n, d) ==> p < |Sample(k, n, d)| && Sample(k, n, d)[p] == m
    ensures m in Sample(k, n + 1, d + [j]) <==> if m == n then j < k else m in Sample(k, n, d) && j != p
  {
    var s := Sample(k, n, d);
    SampleDistinct(k, n, d);
    assert (d + [j])[..|d|] == d;
    if j < k {
      var t := s[j := n];
      assert t[j] == n;
      if m in s && j != p {
        assert t[p] == m;
      }
      if m in t && m != n {
        var q :| 0 <= q < |t| && t[q] == m;
        assert s[q] == m && q != j;
        assert q == p;
      }
    }
  }

  lemma {:induction false} CountBelow(d: Draws, c: nat, p: Draws -> bool, k: nat)
    requires forall j: nat :: j < c ==> (p(d + [j]) <==> j < k)
    ensures Count<Draws>(Continued(d, c), p) == if c <= k then c else k
  {
    if c > 0 {
      CountBelow(d, c - 1, p, k);
      CountSnoc<Draws>(Continued(d, c - 1), d + [c - 1], p);
    }
  }

  lemma {:induction false} CountOther(d: Draws, c: nat, p: Draws -> bool, slot: nat)
    requires forall j: nat :: j < c ==> (p(d + [j]) <==> j != slot)
    ensures Count<Draws>(Continued(d, c), p) == if slot < c then c - 1 else c
  {
    if c > 0 {
      CountOther(d, c - 1, p, slot);
      CountSnoc<Draws>(Continued(d, c - 1), d + [c - 1], p);
    }
  }

  lemma {:induction false} CountNone(d: Draws, c: nat, p: Draws -> bool)
    requires forall j: nat :: j < c ==> !p(d + [j])
    ensures Count<Draws>(Continued(d, c), p) == 0
  {
    if c > 0 {
      CountNone(d, c - 1, p);
      CountSnoc<Draws>(Continued(d, c - 1), d + [c - 1], p);
    }
  }

  lemma KeepingNext(k: nat, n: nat, m: nat, d: Draws, j: nat, slot: nat)
    requires n >= k && |d| == DrawCount(k, n) && m <= n
    requires m in Sample(k, n, d) ==> slot < |Sample(k, n, d)| && Sample(k, n, d)[slot] == m
    ensures Keeping(k, n + 1, m)(d + [j]) <==> if m == n then j < k else m in Sample(k, n, d) && j != slot
  {
    SurvivesDraw(k, n, m, d, j, slot);
  }

  /** The c continuations of one sequence keep an old request in all but one of them. */
  lemma KeptOfRow(k: nat, n: nat, m: nat, d: Draws, c: nat, before: Draws -> bool, p: Draws -> bool)
    requires n >= k && |d| == DrawCount(k, n) && m <= n && c == n + 1
    requires before == Keeping(k, n, m) && p == Keeping(k, c, m)
    ensures Count<Draws>(Continued(d, c), p) == if m == n then k else if before(d) then n else 0
  {
    var s := Sample(k, n, d);
    var slot := 0;
    if m in s {
      slot :| 0 <= slot < |s| && s[slot] == m;
    }
    forall j: nat | j < c
      ensures p(d + [j]) <==> if m == n then j < k else m in s && j != slot
    {
      KeepingNext(k, n, m, d, j, slot);
    }
    if m == n {
      SampleDistinct(k, n, d);
      CountBelow(d, c, p, k);
    } else if m in s {
      CountOther(d, c, p, slot);
    } else {
      CountNone(d, c, p);
    }
  }

  /** Extending every sequence of a list, where each contributes the same. */
  lemma {:induction false} CountEvenRows(ds: seq<Draws>, c: nat, q: Draws -> bool, k: nat)
    requires forall d :: d in ds ==> Count<Draws>(Continued(d, c), q) == k
    ensures Count<Draws>(Extended(ds, c), q) == Times(k, |ds|)
  {
    if ds != [] {
      var d, rest := ds[|ds| - 1], ds[..|ds| - 1];
      CountEvenRows(rest, c, q, k);
      CountConcat<Draws>(Extended(rest, c), Continued(d, c), q);
    }
  }

  /** Each sequence of the list has `n` continuations with `q` if it has `p` itself, else none. */
  ghost predicate RowsContribute(ds: seq<Draws>, c: nat, p: Draws -> bool, q: Draws -> bool, n: nat) {
    ds == [] ||
    (var d := ds[|ds| - 1];
     RowsContribute(ds[..|ds| - 1], c, p, q, n) && Count<Draws>(Continued(d, c), q) == if p(d) then n else 0)
  }

  /** Extending every sequence of a list, where the ones with `p` contribute `n` each. */
  lemma {:induction false} CountRows(ds: seq<Draws>, c: nat, p: Draws -> bool, q: Draws -> bool, n: nat)
    requires RowsContribute(ds, c, p, q, n)
    ensures Count<Draws>(Extended(ds, c), q) == Times(n, Count<Draws>(ds, p))
  {
    if ds != [] {
      var d, rest := ds[|ds| - 1], ds[..|ds| - 1];
      CountRows(rest, c, p, q, n);
      CountConcat<Draws>(Extended(rest, c), Continued(d, c), q);
    }
  }

  ghost predicate HaveLength(ds: seq<Draws>, length: nat) {
    forall d :: d in ds ==> |d| == length
  }

  lemma DrawsHaveLength(k: nat, n: nat)
    ensures HaveLength(AllDraws(k, n), DrawCount(k, n))
  {
    AllDrawsComplete(k, n);
  }

  /** How the counts grow with one more request: the new one enters k times for every draw so far. */
  lemma NewRows(ds: seq<Draws>, k: nat, n: nat)
    requires k < n && HaveLength(ds, DrawCount(k, n - 1))
    ensures Count<Draws>(Extended(ds, n), Keeping(k, n, n - 1)) == Times(k, |ds|)
  {
    var q := Keeping(k, n, n - 1);
    forall d | d in ds
      ensures Count<Draws>(Continued(d, n), q) == k
    {
      KeptOfRow(k, n - 1, n - 1, d, n, Keeping(k, n - 1, n - 1), q);
    }
    CountEvenRows(ds, n, q, k);
  }

  /** And an old one stays in all but one of the n continuations of each draw that kept it. */
  lemma {:induction false} OldRows(ds: seq<Draws>, k: nat, n: nat, m: nat, p: Draws -> bool, q: Draws -> bool)
    requires k < n && m < n - 1 && HaveLength(ds, DrawCount(k, n - 1))
    requires p == Keeping(k, n - 1, m) && q == Keeping(k, n, m)
    ensures RowsContribute(ds, n, p, q, n - 1)
  {
    if ds != [] {
      OldRows(ds[..|ds| - 1], k, n, m, p, q);
      KeptOfRow(k, n - 1, m, ds[|ds| - 1], n, p, q);
    }
  }

  lemma OldKept(ds: seq<Draws>, k: nat, n: nat, m: nat, p: Draws -> bool, q: Draws -> bool)
    requires k < n && m < n - 1 && HaveLength(ds, DrawCount(k, n - 1))
    requires p == Keeping(k, n - 1, m) && q == Keeping(k, n, m)
    ensures Count<Draws>(Extended(ds, n), q) == Times(n - 1, Count<Draws>(ds, p))
  {
    OldRows(ds, k, n, m, p, q);
    CountRows(ds, n, p, q, n - 1);
  }

  lemma KeptGrows(k: nat, n: nat, m: nat)
    requires k < n && m < n
    ensures Kept(k, n, m) == if m == n - 1 then Times(k, |AllDraws(k, n - 1)|) else Times(n - 1, Kept(k, n - 1, m))
  {
    var ds := AllDraws(k, n - 1);
    DrawsHaveLength(k, n - 1);
    if m == n - 1 {
      NewRows(ds, k, n);
    } else {
      OldKept(ds, k, n, m, Keeping(k, n - 1, m), Keeping(k, n, m));
    }
  }

  ghost predicate Share(kept: nat, n: nat, k: nat, all: nat) {
    Times(kept, n) == Times(k, all)
  }

  lemma {:induction false} UniformShare(k: nat, n: nat, m: nat) returns (kept: nat, all: nat)
    requires k <= n && m < n
    ensures kept == Kept(k, n, m) && all == |AllDraws(k, n)| && Share(kept, n, k, all)
  {
    kept, all := Kept(k, n, m), |AllDraws(k, n)|;
    if n == k {
      NothingDrawn(k, m);
      FirstShare(kept, k, all);
    } else {
      ExtendedLength(AllDraws(k, n - 1), n);
      KeptGrows(k, n, m);
      if m == n - 1 {
        NewShare(kept, n, k, all, |AllDraws(k, n - 1)|);
      } else {
        var before, allBefore := UniformShare(k, n - 1, m);
        OldShare(kept, before, n, k, all, allBefore);
      }
    }
  }

  lemma FirstShare(kept: nat, k: nat, all: nat)
    requires kept == 1 && all == 1
    ensures Share(kept, k, k, all)
  {
    TimesIsProduct(1, k);
    TimesIsProduct(k, 1);
  }

  lemma NothingDrawn(k: nat, m: nat)
    requires m < k
    ensures Kept(k, k, m) == 1 && |AllDraws(k, k)| == 1
  {
    SampleDistinct(k, k, []);
    assert Sample(k, k, [])[m] == m;
    CountSnoc<Draws>([], [], Keeping(k, k, m));
    assert [] + [[]] == AllDraws(k, k);
  }

  lemma OldShare(kept: nat, before: nat, n: nat, k: nat, all: nat, allBefore: nat)
    requires n > 0 && kept == Times(n - 1, before) && all == Times(allBefore, n)
    requires Share(before, n - 1, k, allBefore)
    ensures Share(kept, n, k, all)
  {
    TimesIsProduct(before, n - 1);
    TimesIsProduct(n - 1, before);
    NewShare(kept, n, k, all, allBefore);
  }

  lemma NewShare(kept: nat, n: nat, k: nat, all: nat, allBefore: nat)
    requires kept == Times(k, allBefore) && all == Times(allBefore, n)
    ensures Share(kept, n, k, all)
  {
    TimesIsProduct(k, allBefore);
    TimesIsProduct(allBefore, n);
    TimesIsProduct(kept, n);
    TimesIsProduct(k, all);
    assert (k * allBefore) * n == k * (allBefore * n);
  }

  /** Uniformity: over all draws of the first n requests, every one of them is in the sample in the
      same fraction k/n of the draws. */
  lemma {:induction false} Uniform(k: nat, n: nat, m: nat)
    requires k <= n && m < n
    ensures Kept(k, n, m) * n == k * |AllDraws(k, n)|
  {
    var kept, all := UniformShare(k, n, m);
    TimesIsProduct(kept, n);
    TimesIsProduct(k, all);
  }
}
