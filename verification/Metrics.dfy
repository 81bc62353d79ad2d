/** The metrics collector: counters over the whole history, a bounded latency sample, percentiles. */
module Metrics {
  import opened Common
  import opened Reservoir

  const MAX_LATENCY_SAMPLES: nat := 10000

  /** One recorded request; the latency is in whole milliseconds. */
  datatype Request = Request(backend: string, latency: int, success: bool, timeout: bool, retried: bool)

  datatype BackendMetrics = BackendMetrics(requests: int, successes: int, failures: int, timeouts: int, totalLatency: int)

  datatype BackendStats = BackendStats(requests: int, successes: int, failures: int, timeouts: int, avgLatency: real)

  datatype Summary = Summary(policyName: string, total: int, successful: int, failed: int, retried: int,
                             successRate: real, retryRate: real, avgLatency: real,
                             p50: int, p95: int, p99: int, backends: map<string, BackendStats>)

  // ---------- What the counters mean ----------

  ghost function Successes(h: seq<Request>): nat {
    Count(h, (r: Request) => r.success)
  }

  ghost function Retries(h: seq<Request>): nat {
    Count(h, (r: Request) => r.retried)
  }

  function LatencySum(h: seq<Request>): int {
    if h == [] then 0 else LatencySum(h[..|h| - 1]) + h[|h| - 1].latency
  }

  function Added(m: BackendMetrics, r: Request): BackendMetrics {
    BackendMetrics(m.requests + 1,
                   m.successes + (if r.success then 1 else 0),
                   m.failures + (if r.success then 0 else 1),
                   m.timeouts + (if r.timeout then 1 else 0),
                   m.totalLatency + r.latency)
  }

  /** The part of the history one backend served. */
  function Of(h: seq<Request>, backend: string): BackendMetrics {
    if h == [] then BackendMetrics(0, 0, 0, 0, 0)
    else
      var r, rest := h[|h| - 1], Of(h[..|h| - 1], backend);
      if r.backend == backend then Added(rest, r) else rest
  }

  /** The latencies of the listed requests. */
  ghost function Latencies(h: seq<Request>, ids: seq<nat>): seq<int> {
    seq(|ids|, p requires 0 <= p < |ids| => if ids[p] < |h| then h[ids[p]].latency else 0)
  }

  ghost predicate Seen(h: seq<Request>, backend: string) {
    exists i :: 0 <= i < |h| && h[i].backend == backend
  }

  // ---------- Sorting and percentiles ----------

  ghost predicate Ascending(s: seq<int>) {
    forall i, j :: 0 <= i < j < |s| ==> s[i] <= s[j]
  }

  function Inserted(s: seq<int>, x: int): seq<int> {
    if s == [] || s[|s| - 1] <= x then s + [x]
    else Inserted(s[..|s| - 1], x) + [s[|s| - 1]]
  }

  function Sorted(s: seq<int>): seq<int> {
    if s == [] then [] else Inserted(Sorted(s[..|s| - 1]), s[|s| - 1])
  }

  lemma {:induction false} InsertedKeeps(s: seq<int>, x: int)
    ensures multiset(Inserted(s, x)) == multiset(s) + multiset{x}
    ensures |Inserted(s, x)| == |s| + 1
  {
    if s != [] && s[|s| - 1] > x {
      InsertedKeeps(s[..|s| - 1], x);
      assert s == s[..|s| - 1] + [s[|s| - 1]];
    }
  }

  lemma {:induction false} InsertedAscends(s: seq<int>, x: int)
    requires Ascending(s)
    ensures Ascending(Inserted(s, x))
    ensures forall y :: y in Inserted(s, x) ==> y == x || y in s
  {
    if s != [] && s[|s| - 1] > x {
      var rest, y := s[..|s| - 1], s[|s| - 1];
      InsertedAscends(rest, x);
      var t := Inserted(rest, x);
      assert forall z :: z in rest ==> z <= y;
      forall i | 0 <= i < |t|
        ensures t[i] <= y
      {
        assert t[i] in t;
      }
    }
  }

  lemma {:induction false} InsertedCount(s: seq<int>, x: int, p: int -> bool)
    ensures Count(Inserted(s, x), p) == Count(s, p) + (if p(x) then 1 else 0)
  {
    if s != [] && s[|s| - 1] > x {
      InsertedCount(s[..|s| - 1], x, p);
      CountSnoc(Inserted(s[..|s| - 1], x), s[|s| - 1], p);
    } else {
      CountSnoc(s, x, p);
    }
  }

  /** Sorting orders the values and keeps them all. */
  lemma {:induction false} SortedProperties(s: seq<int>)
    ensures Ascending(Sorted(s)) && multiset(Sorted(s)) == multiset(s) && |Sorted(s)| == |s|
  {
    if s != [] {
      var rest, x := s[..|s| - 1], s[|s| - 1];
      SortedProperties(rest);
      InsertedKeeps(Sorted(rest), x);
      InsertedAscends(Sorted(rest), x);
      assert s == rest + [x];
    }
  }

  lemma {:induction false} SortedCount(s: seq<int>, p: int -> bool)
    ensures Count(Sorted(s), p) == Count(s, p)
  {
    if s != [] {
      var rest, x := s[..|s| - 1], s[|s| - 1];
      SortedCount(rest, p);
      InsertedCount(Sorted(rest), x, p);
    }
  }

  function Percentile(sorted: seq<int>, p: nat): int {
    if |sorted| == 0 then 0
    else
      var index := |sorted| * p / 100;
      if index >= |sorted| then sorted[|sorted| - 1] else sorted[index]
  }

  ghost function Below(s: seq<int>, v: int): nat {
    Count(s, (x: int) => x < v)
  }

  ghost function AtMost(s: seq<int>, v: int): nat {
    Count(s, (x: int) => x <= v)
  }

  /** `v` is the value of rank p percent: few enough samples lie below it, enough reach up to it. */
  ghost predicate HasRank(s: seq<int>, v: int, p: nat) {
    Below(s, v) <= Rank(|s|, p) < AtMost(s, v)
  }

  /** The p-th percentile of n samples has this many before it; from 100 on it is the last one. */
  function Rank(n: nat, p: nat): int {
    if n * p / 100 < n then n * p / 100 else n - 1
  }

  lemma {:induction false} CountsOfPrefix(s: seq<int>, index: nat, v: int)
    requires Ascending(s) && index < |s| && s[index] == v
    ensures Below(s, v) <= index < AtMost(s, v)
    decreases |s|
  {
    var n := |s| - 1;
    if index < n {
      CountsOfPrefix(s[..n], index, v);
    } else {
      CountAtMostLength(s[..n], (x: int) => x < v);
      CountAll(s, (x: int) => x <= v);
    }
  }

  lemma {:induction false} CountAtMostLength(s: seq<int>, p: int -> bool)
    ensures Count(s, p) <= |s|
  {
    if s != [] {
      CountAtMostLength(s[..|s| - 1], p);
    }
  }

  lemma {:induction false} CountAll(s: seq<int>, p: int -> bool)
    requires forall x :: x in s ==> p(x)
    ensures Count(s, p) == |s|
  {
    if s != [] {
      var last := s[|s| - 1];
      assert last in s && p(last);
      CountAll(s[..|s| - 1], p);
    }
  }

  lemma RankIndex(n: nat, p: nat)
    requires n > 0
    ensures n * p / 100 < n <==> p < 100
    ensures 0 <= Rank(n, p) < n && (p >= 100 ==> Rank(n, p) == n - 1)
  {
    if p < 100 {
      assert n * p <= n * 99;
    } else {
      assert n * p >= n * 100;
    }
  }

  lemma SortedRank(s: seq<int>, index: nat)
    requires index < |s|
    ensures |Sorted(s)| == |s| && Below(s, Sorted(s)[index]) <= index < AtMost(s, Sorted(s)[index])
  {
    SortedProperties(s);
    var v := Sorted(s)[index];
    SortedCount(s, (x: int) => x < v);
    SortedCount(s, (x: int) => x <= v);
    CountsOfPrefix(Sorted(s), index, v);
  }

  /** The percentile read off the sorted copy has its rank in the sample itself; from 100 percent on it
      is the largest sample. */
  lemma PercentileHasRank(s: seq<int>, p: nat)
    requires |s| > 0
    ensures HasRank(s, Percentile(Sorted(s), p), p)
    ensures p < 100 ==> var v := Percentile(Sorted(s), p);
              Count(s, (x: int) => x < v) <= |s| * p / 100 < Count(s, (x: int) => x <= v)
    ensures p >= 100 ==> AtMost(s, Percentile(Sorted(s), p)) == |s|
  {
    RankIndex(|s|, p);
    SortedRank(s, Rank(|s|, p));
    if p >= 100 {
      CountAtMostLength(s, (x: int) => x <= Percentile(Sorted(s), p));
    }
  }

  /** A rank determines its value. */
  lemma RankIsUnique(s: seq<int>, v: int, w: int, p: nat)
    requires HasRank(s, v, p) && HasRank(s, w, p)
    ensures v == w
  {
    if v < w {
      CountMonotone(s, (x: int) => x <= v, (x: int) => x < w);
    } else if w < v {
      CountMonotone(s, (x: int) => x <= w, (x: int) => x < v);
    }
  }

  lemma RanksAreOrdered(s: seq<int>, p: nat, q: nat, v: int, w: int)
    requires p <= q && HasRank(s, v, p) && HasRank(s, w, q)
    ensures v <= w
  {
    assert |s| * p <= |s| * q;
    assert Rank(|s|, p) <= Rank(|s|, q);
    if w < v {
      CountMonotone(s, (x: int) => x <= w, (x: int) => x < v);
    }
  }

  // ---------- The collector ----------

  class Collector {
    const policyName: string
    var totalRequests: int
    var successfulRequests: int
    var failedRequests: int
    var retriedRequests: int
    var latencies: seq<int>
    var backendMetrics: map<string, BackendMetrics>
    var latencyCount: int
    var latencySum: int

    /** Every request recorded so far and every random number drawn for the sample. */
    ghost var history: seq<Request>
    ghost var draws: Draws

    /** The counters are those of the whole history, per backend too; the sample is the reservoir's. */
    ghost predicate Valid()
      reads this
    {
      TotalsValid(history) && SampleValid(history, draws) && BackendsValid(history)
    }

    ghost predicate TotalsValid(h: seq<Request>)
      reads `totalRequests, `successfulRequests, `failedRequests, `retriedRequests, `latencyCount, `latencySum
    {
      && totalRequests == latencyCount == |h|
      && successfulRequests == Successes(h)
      && failedRequests == |h| - Successes(h)
      && retriedRequests == Retries(h)
      && latencySum == LatencySum(h)
    }

    ghost predicate SampleValid(h: seq<Request>, draws: Draws)
      reads `latencies
    {
      && ValidDraws(MAX_LATENCY_SAMPLES, |h|, draws)
      && latencies == Latencies(h, Sample(MAX_LATENCY_SAMPLES, |h|, draws))
    }

    ghost predicate BackendsValid(h: seq<Request>)
      reads `backendMetrics
    {
      && (forall b :: b in backendMetrics <==> Seen(h, b))
      && (forall b :: b in backendMetrics ==> backendMetrics[b] == Of(h, b))
    }

    constructor (policyName: string)
      ensures Valid() && history == [] && this.policyName == policyName
    {
      this.policyName := policyName;
      totalRequests, successfulRequests, failedRequests, retriedRequests := 0, 0, 0, 0;
      latencies, backendMetrics, latencyCount, latencySum := [], map[], 0, 0;
      history, draws := [], [];
    }

    method RecordRequest(backend: string, latency: int, success: bool, timeout: bool, retried: bool)
      requires Valid()
      modifies this
      ensures Valid()
      ensures history == old(history) + [Request(backend, latency, success, timeout, retried)]
      ensures if |old(latencies)| < 10000 then draws == old(draws) && latencies == old(latencies) + [latency]
              else exists j: nat :: j < totalRequests && draws == old(draws) + [j]
                     && latencies == if j < 10000 then old(latencies)[j := latency] else old(latencies)
    {
      ghost var r := Request(backend, latency, success, timeout, retried);
      RecordTotals(r, history, latency, success, retried);
      var j := RecordSample(r, history, draws, latency);
      RecordBackend(r, history, backend, latency, success, timeout);
      SampleFull(MAX_LATENCY_SAMPLES, |history|, draws);
      if |history| >= MAX_LATENCY_SAMPLES {
        draws := draws + [j];
      }
      history := history + [r];
    }

    method RecordTotals(ghost r: Request, ghost h: seq<Request>, latency: int, success: bool, retried: bool)
      requires TotalsValid(h) && r.latency == latency && r.success == success && r.retried == retried
      modifies `totalRequests, `successfulRequests, `failedRequests, `retriedRequests, `latencyCount, `latencySum
      ensures TotalsValid(h + [r])
    {
      CountSnoc(h, r, (r: Request) => r.success);
      CountSnoc(h, r, (r: Request) => r.retried);
      assert (h + [r])[..|h|] == h;
      totalRequests := totalRequests + 1;
      if success {
        successfulRequests := successfulRequests + 1;
      } else {
        failedRequests := failedRequests + 1;
      }
      if retried {
        retriedRequests := retriedRequests + 1;
      }
      latencyCount := latencyCount + 1;
      latencySum := latencySum + latency;
    }

    /** Appends while there is room, then overwrites a random slot if the draw names one. */
    method RecordSample(ghost r: Request, ghost h: seq<Request>, ghost draws: Draws, latency: int) returns (j: nat)
      requires latencyCount == |h| + 1 && SampleValid(h, draws) && r.latency == latency
      modifies `latencies
      ensures j <= |h|
      ensures SampleValid(h + [r], if |h| < MAX_LATENCY_SAMPLES then draws else draws + [j])
      ensures latencies == if |old(latencies)| < 10000 then old(latencies) + [latency]
                           else if j < 10000 then old(latencies)[j := latency] else old(latencies)
    {
      j := 0;
      if |latencies| < MAX_LATENCY_SAMPLES {
        SampleGrows(h, r, draws, j);
        latencies := latencies + [latency];
      } else {
        j :| 0 <= j < latencyCount;
        SampleGrows(h, r, draws, j);
        if j < MAX_LATENCY_SAMPLES {
          latencies := latencies[j := latency];
        }
      }
    }

    method RecordBackend(ghost r: Request, ghost h: seq<Request>, backend: string, latency: int, success: bool, timeout: bool)
      requires BackendsValid(h)
      requires r.backend == backend && r.latency == latency && r.success == success && r.timeout == timeout
      modifies `backendMetrics
      ensures BackendsValid(h + [r])
    {
      BackendsGrow(h, r);
      if backend !in backendMetrics {
        backendMetrics := backendMetrics[backend := BackendMetrics(0, 0, 0, 0, 0)];
      }
      var bm := backendMetrics[backend];
      bm := bm.(requests := bm.requests + 1, totalLatency := bm.totalLatency + latency);
      if success {
        bm := bm.(successes := bm.successes + 1);
      } else {
        bm := bm.(failures := bm.failures + 1);
      }
      if timeout {
        bm := bm.(timeouts := bm.timeouts + 1);
      }
      backendMetrics := backendMetrics[backend := bm];
    }

    /** Totals, rates, averages and percentiles of what was recorded; nothing recorded changes. */
    method GetSummary() returns (s: Summary)
      requires Valid()
      ensures s.policyName == policyName
      ensures s.total == |history| && s.successful == Successes(history)
           && s.failed == |history| - Successes(history) && s.retried == Retries(history)
      ensures RatesOf(history, s.successRate, s.retryRate, s.avgLatency)
      ensures RanksOf(latencies, s.p50, s.p95, s.p99) && (latencies == [] <==> history == [])
      ensures forall b :: b in s.backends <==> Seen(history, b)
      ensures forall b :: b in s.backends ==> StatsOf(Of(history, b), s.backends[b])
      ensures s.total == totalRequests && s.successful == successfulRequests && s.failed == failedRequests
           && s.retried == retriedRequests && s.backends.Keys == backendMetrics.Keys
    {
      var successRate, retryRate, avgLatency := Rates();
      var p50, p95, p99 := Percentiles();
      var stats := BackendSummaries();
      s := Summary(policyName, totalRequests, successfulRequests, failedRequests, retriedRequests,
                   successRate, retryRate, avgLatency, p50, p95, p99, stats);
    }

    /** Rates in percent and the mean latency, zero before the first request. */
    method Rates() returns (successRate: real, retryRate: real, avgLatency: real)
      requires Valid()
      ensures RatesOf(history, successRate, retryRate, avgLatency)
    {
      successRate, retryRate, avgLatency := 0.0, 0.0, 0.0;
      if totalRequests > 0 {
        successRate := (successfulRequests as real) / (totalRequests as real) * 100.0;
        retryRate := (retriedRequests as real) / (totalRequests as real) * 100.0;
        RateTimesTotal(successfulRequests, totalRequests);
        RateTimesTotal(retriedRequests, totalRequests);
      }
      if latencyCount > 0 {
        avgLatency := (latencySum as real) / (latencyCount as real);
        AverageTimesCount(latencySum, latencyCount);
      }
    }

    /** Percentiles of a sorted copy of the sample. */
    method Percentiles() returns (p50: int, p95: int, p99: int)
      requires Valid()
      ensures RanksOf(latencies, p50, p95, p99) && (latencies == [] <==> history == [])
    {
      p50, p95, p99 := 0, 0, 0;
      SampleLength(MAX_LATENCY_SAMPLES, |history|, draws);
      if |latencies| > 0 {
        var sorted := Sorted(latencies);
        p50, p95, p99 := Percentile(sorted, 50), Percentile(sorted, 95), Percentile(sorted, 99);
        PercentilesRanked(latencies);
      }
    }

    method BackendSummaries() returns (stats: map<string, BackendStats>)
      requires Valid()
      ensures forall b :: b in stats <==> Seen(history, b)
      ensures forall b :: b in stats ==> StatsOf(Of(history, b), stats[b])
    {
      stats := map[];
      var left := backendMetrics.Keys;
      while left != {}
        invariant left <= backendMetrics.Keys
        invariant stats.Keys == backendMetrics.Keys - left
        invariant forall b :: b in stats ==> StatsOf(backendMetrics[b], stats[b])
        decreases |left|
      {
        var b :| b in left;
        var bm, avgLatency := backendMetrics[b], 0.0;
        if bm.requests > 0 {
          AverageTimesCount(bm.totalLatency, bm.requests);
          avgLatency := (bm.totalLatency as real) / (bm.requests as real);
        }
        stats := stats[b := BackendStats(bm.requests, bm.successes, bm.failures, bm.timeouts, avgLatency)];
        left := left - {b};
      }
    }
  }

  ghost predicate RatesOf(h: seq<Request>, successRate: real, retryRate: real, avgLatency: real) {
    if h == [] then successRate == retryRate == avgLatency == 0.0
    else
      && successRate * (|h| as real) == (Successes(h) as real) * 100.0
      && retryRate * (|h| as real) == (Retries(h) as real) * 100.0
      && avgLatency * (|h| as real) == LatencySum(h) as real
  }

  ghost predicate RanksOf(samples: seq<int>, p50: int, p95: int, p99: int) {
    if samples == [] then p50 == p95 == p99 == 0
    else HasRank(samples, p50, 50) && HasRank(samples, p95, 95) && HasRank(samples, p99, 99) && p50 <= p95 <= p99
  }

  ghost predicate StatsOf(m: BackendMetrics, s: BackendStats) {
    && s.requests == m.requests && s.successes == m.successes
    && s.failures == m.failures && s.timeouts == m.timeouts
    && s.avgLatency * (m.requests as real) == if m.requests > 0 then m.totalLatency as real else 0.0
  }

  /** The predicates of a summary in plain arithmetic over what was recorded. */
  lemma SummaryMeans(c: Collector, s: Summary)
    requires c.Valid() && c.totalRequests > 0
    requires RatesOf(c.history, s.successRate, s.retryRate, s.avgLatency)
    ensures s.successRate * (c.totalRequests as real) == 100.0 * (c.successfulRequests as real)
    ensures s.retryRate * (c.totalRequests as real) == 100.0 * (c.retriedRequests as real)
    ensures s.avgLatency * (c.totalRequests as real) == c.latencySum as real
  {
  }

  lemma StatsMean(c: Collector, b: string, s: BackendStats)
    requires c.Valid() && b in c.backendMetrics && StatsOf(Of(c.history, b), s)
    ensures var m := c.backendMetrics[b];
            && s.requests == m.requests && s.successes == m.successes && s.failures == m.failures && s.timeouts == m.timeouts
            && m.requests > 0 && s.avgLatency * (m.requests as real) == m.totalLatency as real
  {
    SeenIsCounted(c.history, b);
  }

  lemma {:induction false} SeenIsCounted(h: seq<Request>, b: string)
    requires Seen(h, b)
    ensures Of(h, b).requests > 0
  {
    OfCounts(h, b);
    var i :| 0 <= i < |h| && h[i].backend == b;
    CountPositive(h, i, (r: Request) => r.backend == b);
  }

  lemma RanksMean(samples: seq<int>, p50: int, p95: int, p99: int)
    requires RanksOf(samples, p50, p95, p99)
    ensures samples == [] ==> p50 == p95 == p99 == 0
    ensures samples != [] ==>
              && Count(samples, (x: int) => x < p50) <= |samples| * 50 / 100 < Count(samples, (x: int) => x <= p50)
              && Count(samples, (x: int) => x < p95) <= |samples| * 95 / 100 < Count(samples, (x: int) => x <= p95)
              && Count(samples, (x: int) => x < p99) <= |samples| * 99 / 100 < Count(samples, (x: int) => x <= p99)
              && p50 <= p95 <= p99
  {
  }

  /** A backend's record counts the requests booked on it, each by what it was. */
  lemma {:induction false} OfCounts(h: seq<Request>, b: string)
    ensures Of(h, b).requests == Count(h, (r: Request) => r.backend == b)
    ensures Of(h, b).successes == Count(h, (r: Request) => r.backend == b && r.success)
    ensures Of(h, b).failures == Count(h, (r: Request) => r.backend == b && !r.success)
    ensures Of(h, b).timeouts == Count(h, (r: Request) => r.backend == b && r.timeout)
  {
    if h != [] {
      OfCounts(h[..|h| - 1], b);
    }
  }

  /** And its latency is the sum of theirs. */
  lemma {:induction false} OfLatency(h: seq<Request>, b: string)
    ensures Of(h, b).totalLatency == Whole(h, (r: Request) => if r.backend == b then r.latency else 0)
  {
    if h != [] {
      OfLatency(h[..|h| - 1], b);
    }
  }

  /** The totals count the requests of the whole history. */
  lemma TotalsMean(c: Collector)
    requires c.Valid()
    ensures c.totalRequests == c.latencyCount == |c.history|
    ensures c.successfulRequests == Count(c.history, (r: Request) => r.success)
    ensures c.failedRequests == |c.history| - Count(c.history, (r: Request) => r.success)
    ensures c.retriedRequests == Count(c.history, (r: Request) => r.retried)
    ensures c.latencySum == Whole(c.history, (r: Request) => r.latency)
  {
    WholeTotals(c.history);
  }

  lemma SampleFull(k: nat, n: nat, draws: Draws)
    requires |draws| == DrawCount(k, n)
    ensures |Sample(k, n, draws)| < k <==> n < k
  {
  }

  lemma RateTimesTotal(x: int, t: int)
    requires t > 0
    ensures (x as real) / (t as real) * 100.0 * (t as real) == (x as real) * 100.0
  {
    AverageTimesCount(x, t);
    var q := (x as real) / (t as real);
    assert q * 100.0 * (t as real) == q * (t as real) * 100.0;
  }

  lemma AverageTimesCount(x: int, t: int)
    requires t > 0
    ensures (x as real) / (t as real) * (t as real) == x as real
  {
  }

  lemma {:induction false} PercentilesRanked(s: seq<int>)
    requires |s| > 0
    ensures HasRank(s, Percentile(Sorted(s), 50), 50)
    ensures HasRank(s, Percentile(Sorted(s), 95), 95)
    ensures HasRank(s, Percentile(Sorted(s), 99), 99)
    ensures Percentile(Sorted(s), 50) <= Percentile(Sorted(s), 95) <= Percentile(Sorted(s), 99)
  {
    PercentileHasRank(s, 50);
    PercentileHasRank(s, 95);
    PercentileHasRank(s, 99);
    RanksAreOrdered(s, 50, 95, Percentile(Sorted(s), 50), Percentile(Sorted(s), 95));
    RanksAreOrdered(s, 95, 99, Percentile(Sorted(s), 95), Percentile(Sorted(s), 99));
  }

  lemma SampleLength(k: nat, n: nat, draws: Draws)
    requires k > 0 && |draws| == DrawCount(k, n)
    ensures |Sample(k, n, draws)| == 0 <==> n == 0
  {
  }

  /** The latency slice follows the reservoir by one request. */
  lemma SampleGrows(h: seq<Request>, r: Request, draws: Draws, j: nat)
    requires ValidDraws(MAX_LATENCY_SAMPLES, |h|, draws) && j <= |h|
    ensures var k, n := MAX_LATENCY_SAMPLES, |h|;
            var was := Latencies(h, Sample(k, n, draws));
            var draws' := if n < k then draws else draws + [j];
            && ValidDraws(k, n + 1, draws')
            && (|was| < k <==> n < k)
            && Latencies(h + [r], Sample(k, n + 1, draws'))
               == if n < k then was + [r.latency] else if j < k then was[j := r.latency] else was
  {
    var k, n := MAX_LATENCY_SAMPLES, |h|;
    SampleDistinct(k, n, draws);
    if n >= k {
      assert (draws + [j])[..|draws|] == draws;
    }
  }

  lemma BackendsGrow(h: seq<Request>, r: Request)
    ensures forall b :: Seen(h + [r], b) <==> Seen(h, b) || b == r.backend
    ensures forall b :: Of(h + [r], b) == if b == r.backend then Added(Of(h, b), r) else Of(h, b)
    ensures forall b :: !Seen(h, b) ==> Of(h, b) == BackendMetrics(0, 0, 0, 0, 0)
  {
    var g := h + [r];
    assert g[..|h|] == h;
    forall b
      ensures Seen(g, b) <==> Seen(h, b) || b == r.backend
    {
      if Seen(h, b) {
        var i :| 0 <= i < |h| && h[i].backend == b;
        assert g[i].backend == b;
      }
      assert g[|h|].backend == r.backend;
    }
    forall b | !Seen(h, b)
      ensures Of(h, b) == BackendMetrics(0, 0, 0, 0, 0)
    {
      UnseenIsEmpty(h, b);
    }
  }

  lemma {:induction false} UnseenIsEmpty(h: seq<Request>, b: string)
    requires !Seen(h, b)
    ensures Of(h, b) == BackendMetrics(0, 0, 0, 0, 0)
  {
    if h != [] {
      assert h[|h| - 1].backend != b;
      var rest := h[..|h| - 1];
      assert forall i :: 0 <= i < |rest| ==> rest[i] == h[i];
      UnseenIsEmpty(rest, b);
    }
  }

  // ---------- The parts add up to the whole ----------

  /** A quantity every recorded request adds to, for one backend or over the whole history. */
  ghost predicate Adds(f: BackendMetrics -> int, g: Request -> int) {
    f(BackendMetrics(0, 0, 0, 0, 0)) == 0 && forall m, r :: f(Added(m, r)) == f(m) + g(r)
  }

  ghost function Whole(h: seq<Request>, g: Request -> int): int {
    if h == [] then 0 else Whole(h[..|h| - 1], g) + g(h[|h| - 1])
  }

  ghost function PerBackend(h: seq<Request>, backends: set<string>, f: BackendMetrics -> int): map<string, int> {
    map b | b in backends :: f(Of(h, b))
  }

  /** Summed over the backends, any such quantity is that of the whole history. */
  lemma {:induction false} PartsAddUp(h: seq<Request>, backends: set<string>, f: BackendMetrics -> int, g: Request -> int)
    requires Adds(f, g) && forall i :: 0 <= i < |h| ==> h[i].backend in backends
    ensures Sum(PerBackend(h, backends, f)) == Whole(h, g)
  {
    if h == [] {
      SumOfZeros(PerBackend(h, backends, f));
    } else {
      var rest, r := h[..|h| - 1], h[|h| - 1];
      var parts := PerBackend(rest, backends, f);
      PartsAddUp(rest, backends, f, g);
      SumUpdate(parts, r.backend, parts[r.backend] + g(r));
      assert PerBackend(h, backends, f) == parts[r.backend := parts[r.backend] + g(r)];
    }
  }

  lemma {:induction false} WholeTotals(h: seq<Request>)
    ensures Whole(h, (r: Request) => 1) == |h|
    ensures Whole(h, (r: Request) => r.latency) == LatencySum(h)
    ensures Whole(h, (r: Request) => if r.success then 1 else 0) == Successes(h)
    ensures Whole(h, (r: Request) => if r.success then 0 else 1) == |h| - Successes(h)
  {
    if h != [] {
      WholeTotals(h[..|h| - 1]);
    }
  }

  /** One quantity of every backend's record. */
  ghost function Column(m: map<string, BackendMetrics>, f: BackendMetrics -> int): map<string, int> {
    map b | b in m :: f(m[b])
  }

  lemma ColumnAddsUp(c: Collector, f: BackendMetrics -> int, g: Request -> int)
    requires c.Valid() && Adds(f, g)
    ensures Sum(Column(c.backendMetrics, f)) == Whole(c.history, g)
  {
    var m, h := c.backendMetrics, c.history;
    assert forall i :: 0 <= i < |h| ==> Seen(h, h[i].backend);
    PartsAddUp(h, m.Keys, f, g);
    assert PerBackend(h, m.Keys, f) == Column(m, f);
  }

  /** The per-backend counts, latencies and successes a collector holds add up to its totals. */
  lemma BackendsAddUp(c: Collector)
    requires c.Valid()
    ensures var m := c.backendMetrics;
            && Sum(Column(m, (x: BackendMetrics) => x.requests)) == c.totalRequests
            && Sum(Column(m, (x: BackendMetrics) => x.totalLatency)) == c.latencySum
            && Sum(Column(m, (x: BackendMetrics) => x.successes)) == c.successfulRequests
            && Sum(Column(m, (x: BackendMetrics) => x.failures)) == c.failedRequests
  {
    WholeTotals(c.history);
    ColumnAddsUp(c, (x: BackendMetrics) => x.requests, (r: Request) => 1);
    ColumnAddsUp(c, (x: BackendMetrics) => x.totalLatency, (r: Request) => r.latency);
    ColumnAddsUp(c, (x: BackendMetrics) => x.successes, (r: Request) => if r.success then 1 else 0);
    ColumnAddsUp(c, (x: BackendMetrics) => x.failures, (r: Request) => if r.success then 0 else 1);
  }

  /** What the sample holds: as many latencies as requests up to the capacity, of pairwise different
      recorded requests. */
  lemma SampleContents(c: Collector) returns (ids: seq<nat>)
    requires c.Valid()
    ensures |c.latencies| == if |c.history| <= 10000 then |c.history| else 10000
    ensures |ids| == |c.latencies| && NoDup(ids)
    ensures forall p :: 0 <= p < |ids| ==> ids[p] < |c.history| && c.latencies[p] == c.history[ids[p]].latency
  {
    ids := Sample(MAX_LATENCY_SAMPLES, |c.history|, c.draws);
    SampleDistinct(MAX_LATENCY_SAMPLES, |c.history|, c.draws);
  }
}
