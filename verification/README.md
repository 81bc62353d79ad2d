# Load balancer: verified model

A Dafny model of the load balancer's shared state and of what its parts promise about it. One module per
component, in the component's own form: the pool, the policies with state, the collector and the Redis
manager are classes whose methods are proved against functions on plain values; protocols and interleavings
are state machines over sequences of steps, and theorems about them hold for every sequence.

- `Common.dfy`: optional values, URLs, counting over sequences, sums over maps.
- `Pool.dfy`: what a backend is, lookup by URL, reconciliation with a discovered list (module `Pool`), and
  the mutable pool with its shared entries (module `InMemoryPool`). `SharedPool.dfy`: the same pool on values
  with the identity of its entries, so that one entry in two slots stays one entry; every method of the class
  is shown to be its counterpart there. `PoolLaws.dfy`: what reconciliation keeps.
- `RoundRobin.dfy`, `LeastConnections.dfy`, `Weighted.dfy`, `WeightedLaws.dfy`: the routing policies. Random
  draws are arbitrary values in range, so every theorem holds for every draw; for two choices and for the
  latency sample the draws themselves are counted.
- `Reservoir.dfy`, `Metrics.dfy`: reservoir sampling, and the collector built on it.
- `Proxy.dfy`: one request from first to last event. Its log is a function of what it reads (`Script`), the
  handler emits exactly that, and it keeps the rules a request follows. `Handling.dfy` says what that amounts
  to in methods, statuses and numbers.
- `System.dfy`: any number of requests, marks and syncs interleaved at every operation, with the two budget
  counters. `Budget.dfy`: what the retry budget bounds and what it does not. `Conservation.dfy`: connection
  counters against the requests that hold them; `Breaches.dfy`: the exact condition, and runs that break it.
- `Codec.dfy`, `Protocol.dfy`, `RedisManager.dfy`: the wire format, health propagation between instances,
  and the process side of it, shown to be an instance of the protocol.

Where a promise of the program needs a condition, the condition is stated:

- The counter found under a URL is the number of requests holding that backend while every add finds its
  backend, and every discovered list names no URL another source holds and repeats only URLs its own source
  holds already (repeating those puts one shared entry into two slots, which is harmless). This is exact: from
  any state with right counters and a request still to come, a step outside these limits is either an add
  that is lost at once, or a list after which some allowed continuation ends with a counter of -1
  (`AdmissibleExactly`, `RepeatBreaks`, `ForeignBreaks`). The list alone need not make a counter wrong. These
  continuations read what the pool holds and list at least one URL, as discovery does
  (internal/discovery/dns.go:57-59).
- In terms of schedules: it suffices that each source lists its own URLs, once each, and that no sync runs
  between choosing a healthy backend and adding to it, for the first attempt as for the retry
  (`DisciplinedConservation`). Choice and `AddConnections` are separate steps in the code
  (internal/proxy/proxy.go:135-142 and 203-213), and a run with a sync between them ends at -1
  (`LateAddGoesNegative`).
- SET and PUBLISH are separate commands. Two updates that cross leave every instance agreeing on a status
  that is not the key's (`CrossedUpdates`); where the updates of a URL never cross, all end with the key's
  (`UncrossedMatchStore`). Agreement among the instances does not depend on it (`Agreement`).
- The retry budget reads two counters and counts the retry later. It is a cap for requests alone, whatever
  their interleaving, exactly when there is at most one of them or at most one URL is healthy when they start
  (`CappedExactly`); with discovery at work, exactly when there is at most one (`CappedAlwaysExactly`). Both
  are statements over every routing that answers some healthy backend. Least-connections and weighted
  routing can give all requests the same backend, as the runs below need; one rule by itself may do better
  (round-robin sends two requests over two backends to different ones). The
  runs that exceed it are the handler's own, with all requests in flight retrying (`AllRetryAtOnce`,
  `BudgetIsNoCap`). In a single run it is kept if no request ends and no other retry begins between the
  reads and the count (`GrantWithinBudget`), and in every run the retries beyond a fifth of the most requests
  ever in flight are at most as many as grants were read and uncounted at one moment (`BoundedOvershoot`).
- Round-robin reduces a 64-bit counter modulo the pool size. Counts stay within one of each other over
  every window exactly for pool sizes that are powers of two (`FairExactlyForPowersOfTwo`).
- "Draining implies unhealthy" holds for a source right after its sync and is lost exactly when a mark raises
  a draining entry (`MarkKeepsDrainingDown`).

Where the code and its own comments disagree, the model follows the code: the weighted policy announces a
reset of all counters but refills only the ones that have run out (internal/algorithms/Weighted.go:84-91); it
calls its removal a swap-delete but keeps the order (internal/algorithms/Weighted.go:80-81); the collector says
it stores every latency (internal/metrics/collector.go:36) but keeps a sample once there are more than its
capacity (lines 129-137); a backend that leaves discovery with requests in flight and returns is no longer
draining but stays unhealthy until something marks it up (internal/repository/in_memory.go:141-143), which
`LeaveAndReturn` states.

## Model

| member | source | states |
|---|---|---|
| InMemoryPool.InMemory.constructor | internal/repository/in_memory.go:27-41 | the pool starts with one healthy, idle, undrained entry per configured URL, in order, every slot with an entry of its own |
| InMemoryPool.InMemory.GetHealthy | internal/repository/in_memory.go:60-71 | the entries of the healthy slots, each slot once and in pool order, as the pool's own shared entries |
| Pool.HealthyPicks | internal/repository/in_memory.go:64-70 | the healthy entries stand at ascending places of the slice, exactly the healthy ones |
| Pool.ChangesMean | internal/repository/in_memory.go:78-117 | a mark and an add change one field of the first entry with the URL and nothing else |
| SharedPool.SharedChangesMean | internal/repository/in_memory.go:78-117 | and they do so in every slot that shows that entry |
| InMemoryPool.InMemory.MarkHealthy | internal/repository/in_memory.go:78-89 | only the first entry with the URL changes and only in its flag, in every slot that shows it; an unknown URL changes nothing; sharing is as before |
| InMemoryPool.InMemory.AddConnections | internal/repository/in_memory.go:94-104 | only the first entry with the URL changes and only in its counter, in every slot that shows it; an unknown URL changes nothing |
| InMemoryPool.InMemory.RemoveConnections | internal/repository/in_memory.go:107-117 | the inverse of an add on the same entry |
| InMemoryPool.InMemory.SyncServers | internal/repository/in_memory.go:120-170 | the in-place algorithm over shared entries computes the reconciliation of the whole pool, values and identities, whatever the list repeats: known entries stay the same objects, every new one is its own |
| InMemoryPool.InMemory.SyncServersBySource | internal/repository/in_memory.go:177-235 | the same for the entries of one source |
| InMemoryPool.InMemory.ListActive | internal/repository/in_memory.go:141-156 | one entry per listed URL in list order, the known one no longer draining or a new healthy one; nothing else changes |
| InMemoryPool.InMemory.DrainMissing | internal/repository/in_memory.go:221-232 | unlisted entries with requests in flight, and only those, stay as draining and unhealthy; no other entry changes |
| Pool.FindIsLast | internal/repository/in_memory.go:186-191 | the entry known under a URL is the last one in scope that has it, none exactly if there is none |
| SharedPool.SlotOrigin | internal/repository/in_memory.go:193-232 | every slot after a sync shows a known entry, untouched, undrained or drained as its source and the list say, or a new entry for a listed URL the scope did not hold |
| SharedPool.SyncCoherent | internal/repository/in_memory.go:203-207 | slots that show one entry go on agreeing after any sync, also one that puts an entry into several slots because its list repeats a URL |
| PoolLaws.ReconcileIdempotent | internal/repository/in_memory.go:177-235 | a sync repeated with the same list changes no entry, field or position |
| PoolLaws.ReconcilePartition | internal/repository/in_memory.go:186-234 | membership after a sync, both ways: other sources' entries, one entry per listed URL, and exactly the unlisted ones with requests in flight, draining and unhealthy |
| PoolLaws.SyncOrder | internal/repository/in_memory.go:193-234 | the slice place by place: other sources' entries in their old order, one per listed URL in list order (the last known one undrained, or a new one), then the unlisted ones with requests in flight in their old order, draining and unhealthy |
| PoolLaws.ReconcileUnique | internal/repository/in_memory.go:186-234 | entries stay unique, by URL or by source and URL, exactly when the list repeats nothing and, by URL alone, names nothing of another source |
| PoolLaws.ReconcileTotal | internal/repository/in_memory.go:186-234 | a sync never loses requests in flight, and keeps their total exactly when the list repeats no URL of an entry that carries some |
| PoolLaws.ReconcileConns | internal/repository/in_memory.go:186-234 | per URL the counter survives any sync, and an entry with requests in flight is never dropped |
| PoolLaws.LeaveAndReturn | internal/repository/in_memory.go:203-232 | a backend that leaves with requests in flight and returns after any adds, releases and marks is the same entry, undrained, with the counter it has by then, and unhealthy unless marked up; one that left without requests is new and healthy |
| PoolLaws.AddsAndMarksUse | internal/repository/in_memory.go:78-117 | an add, a release or a mark, of any URL, is such use between two syncs, and only a mark up raises an entry |
| PoolLaws.InUseComposes | internal/repository/in_memory.go:78-117 | and so is any number of them one after the other |
| PoolLaws.SourceIndependence | internal/repository/in_memory.go:186-234 | a sync of one source leaves the subsequence of any other as it was, and its own result depends on its own entries alone |
| PoolLaws.SyncsCommute | internal/repository/in_memory.go:186-234 | syncs of two sources in either order give every source the same sequence and the pool the same multiset of entries |
| PoolLaws.MarkKeepsDrainingDown | internal/repository/in_memory.go:78-89 | draining implies unhealthy is kept by a mark exactly unless it raises a draining entry |
| RoundRobin.RoundRobinPolicy.GetTarget | internal/algorithms/RoundRobin.go:20-36 | fails without touching the counter exactly when nobody is healthy, else answers the healthy entry the counter names and moves it on by one, modulo 2^64 |
| RoundRobin.PickIsModular | internal/algorithms/RoundRobin.go:29-35 | the k-th call of a window picks slot (next + k) mod 2^64 mod m |
| RoundRobin.SpreadFormula | internal/algorithms/RoundRobin.go:29-35 | the exact difference of two slots' pick counts over any window, with any number of wraps |
| RoundRobin.FairUpToWraps | internal/algorithms/RoundRobin.go:29-35 | pick counts differ by at most one plus the number of wraps, which is at most one for windows shorter than 2^64 |
| RoundRobin.UnfairWindow | internal/algorithms/RoundRobin.go:33 | for every pool size that does not divide 2^64 the bound is reached in a window no longer than the pool with exactly one wrap in it |
| RoundRobin.FairExactlyForPowersOfTwo | internal/algorithms/RoundRobin.go:33 | counts stay within one over every window exactly for pool sizes that are powers of two |
| LeastConnections.Chosen | internal/algorithms/LeastConnections.go:43-53 | the chosen one of the two drawn is no busier than either, the first on a tie |
| LeastConnections.GetTarget | internal/algorithms/LeastConnections.go:26-54 | fails exactly when nobody is healthy, answers the only one if there is one, else whichever of the two drawn is no busier, the first on a tie |
| LeastConnections.DrawsArePairs | internal/algorithms/LeastConnections.go:43-47 | the draws after the skip are a bijection onto ordered pairs of distinct positions |
| LeastConnections.WinsCount | internal/algorithms/LeastConnections.go:43-53 | of all n(n-1) draws a server is chosen in two for each busier server and one for each other equally busy one |
| LeastConnections.NeverChosen | internal/algorithms/LeastConnections.go:43-53 | a server no draw chooses is exactly one strictly busier than all others |
| LeastConnections.LessLoadWinsMore | internal/algorithms/LeastConnections.go:43-53 | more draws choose one server than another exactly when it has fewer connections |
| LeastConnections.WinsTotal | internal/algorithms/LeastConnections.go:43-53 | the wins of all servers add up to the number of draws |
| Weighted.WeightedPolicy.GetTarget | internal/algorithms/Weighted.go:44-96 | for every draw: nothing changes and it fails exactly when nobody is healthy, else it spends one unit of a healthy backend with budget left, after a refill when no candidate had any |
| Weighted.WeightedPolicy.Register | internal/algorithms/Weighted.go:58-68 | every candidate seen for the first time gets its weight, at least one; known ones keep their counters |
| Weighted.RegisteredWeight | internal/algorithms/Weighted.go:61-67 | a backend seen for the first time starts with the weight configured at its first entry, and with one if that is not positive |
| Weighted.WeightedPolicy.Draw | internal/algorithms/Weighted.go:70-82 | the removal loop ends, answers a candidate with budget left if there is one, and asks for a reset exactly if there is none |
| Weighted.WeightedPolicy.StartEpoch | internal/algorithms/Weighted.go:85-91 | every counter that ran out is refilled, healthy or not, and no other |
| WeightedLaws.BudgetsUnderChurn | internal/algorithms/Weighted.go:44-96 | with the healthy set changing arbitrarily: 0 <= remaining <= original, and picks + remaining = original * (1 + refills) |
| WeightedLaws.AnswersAreHealthy | internal/algorithms/Weighted.go:50-60 | over any run every answer was healthy at its call, and a call fails exactly when nobody is |
| WeightedLaws.WeightsAreFixed | internal/algorithms/Weighted.go:59-67 | a weight once registered is the same at every later point of a run |
| WeightedLaws.ExactShares | internal/algorithms/Weighted.go:58-95 | if the first call sees these backends, whose configured weights (one where not positive) add up to W, and every later one the same set of healthy URLs, in any order and with any counters, flags, sources and configured weights, then after qW + r calls every backend has between q and q + 1 times its weight, exactly q times when r is zero |
| WeightedLaws.WeightsAreRegistered | internal/algorithms/Weighted.go:58-68 | those weights are the budgets the first call registers |
| Reservoir.SampleDistinct | internal/metrics/collector.go:129-137 | the slots hold pairwise distinct recorded requests, in order while there is room |
| Reservoir.AllDrawsComplete | internal/metrics/collector.go:133 | the draws counted below are each valid sequence of draws once and nothing else |
| Reservoir.Uniform | internal/metrics/collector.go:125-137 | over all draws every one of n requests is in the sample in the same share k/n of them |
| Metrics.Collector.RecordRequest | internal/metrics/collector.go:111-157 | the history grows by this request and everything stays what the history says; the sample takes the latency while it holds fewer than 10000, then in the slot drawn if the draw is below 10000 |
| Metrics.TotalsMean | internal/metrics/collector.go:115-127 | totals count the requests of the history and add up their latencies |
| Metrics.OfCounts | internal/metrics/collector.go:139-156 | a backend's record counts the requests booked on it: all, successes, failures, and the ones flagged as timeouts |
| Metrics.OfLatency | internal/metrics/collector.go:139-156 | and adds up their latencies |
| Metrics.Collector.GetSummary | internal/metrics/collector.go:186-237 | totals, rates, averages and per-backend records of the history, and percentiles of the sample, which is not changed |
| Metrics.SummaryMeans | internal/metrics/collector.go:201-204 | rates times the total are a hundred times successes and retries; the mean times the total is the sum of latencies |
| Metrics.StatsMean | internal/metrics/collector.go:222-234 | a backend's line repeats its record, with the mean of its latencies |
| Metrics.RanksMean | internal/metrics/collector.go:206-216 | for 50, 95 and 99 of n samples at most floor(n*p/100) are below the reported value and more are at or below it |
| Metrics.Collector.Percentiles | internal/metrics/collector.go:207-216 | the reported values have their ranks in the live sample and are ordered, zero for an empty one |
| Metrics.PercentileHasRank | internal/metrics/collector.go:288-299 | for every percentage, at most as many samples as its clamped index are below the reported value and more than that are at or below it; from 100 on it is the largest sample |
| Metrics.RankIsUnique | internal/metrics/collector.go:288-299 | that property determines the value |
| Metrics.RanksAreOrdered | internal/metrics/collector.go:213-215 | values of higher rank are not smaller, so P50 <= P95 <= P99 |
| Metrics.SampleContents | internal/metrics/collector.go:129-137 | the sample is as long as the history up to its capacity and holds latencies of pairwise distinct requests |
| Metrics.BackendsAddUp | internal/metrics/collector.go:139-156 | per-backend counts, latencies, successes and failures add up to the totals |
| Proxy.ServeHTTP | internal/proxy/proxy.go:87-234 | for everything it may read, the handler emits exactly its script; that follows the request rules, ends with nothing held, and forwards, answers, records, marks down and asks the budget as its reads require, the second time on the least busy other healthy backend with the same body |
| Proxy.ScriptIsRight | internal/proxy/proxy.go:87-234 | the script, event by event, keeps the rules, and where it ends every one of these is right |
| Proxy.ProxyRequest | internal/proxy/proxy.go:240-288 | one forward; a status below 500 is passed on, from 500 on it is a backend failure; an error is a timeout by deadline, else a disconnect, else a backend failure |
| Proxy.SelectDifferent | internal/proxy/proxy.go:294-318 | the first of the least busy healthy backends other than the excluded one, none exactly if there is no such backend |
| Proxy.TakeDown | internal/proxy/proxy.go:175-197 | after looking at the pool, the failed backend is marked down and announced once, and not if it is seen down already |
| Proxy.FollowedLogsBalance | internal/proxy/proxy.go:87-234 | a log within the rules has at most two forwards, one response and one metric, and the metric only after a forward |
| Proxy.FollowedLogsCount | internal/proxy/proxy.go:142-207 | in it, adds exceed removals by the backend held now, and retries begun exceed those ended by the one running |
| Proxy.LifeCycle | internal/proxy/proxy.go:87-234 | of a handled request: a second forward only for a retryable method within budget, no response exactly after a disconnect, one metric exactly if a backend was contacted, every acquisition released |
| Handling.Stopped | internal/proxy/proxy.go:93-142 | a body over 10485760 bytes gets 413, an unreadable one 500, nobody healthy or no target 503, and no backend is contacted |
| Handling.PassedOn | internal/proxy/proxy.go:144-160 | a response below 500 is passed on and booked as a success, a client that went away gets nothing and a failure is booked; either way one forward and no mark |
| Handling.NotRetried | internal/proxy/proxy.go:162-233 | an attempt that failed (deadline, other error, status from 500 on) gets 504 and a booked failure if retries are off, the method is not GET, PUT or DELETE, 5 * retries > requests > 0, or no other backend is healthy |
| Handling.Retried | internal/proxy/proxy.go:166-233 | otherwise the same body goes to the first of the least busy other healthy backends; below 500 its answer is passed on and booked as a retried success, else 504 and a failure of the first |
| Handling.MarkedDown | internal/proxy/proxy.go:175-197 | the failed backend is marked down exactly if a retry is allowed and no entry with its URL is seen down, and announced if there is an updater |
| Handling.FiveHundred | internal/proxy/proxy.go:167-174 | a plain 500 is retried on a GET with one retry in five requests, not with two, and never on a POST or PATCH |
| Handling.ForwardsAreHeld | internal/proxy/proxy.go:142-147 | every forward goes to the backend counted for it, the second inside a counted retry |
| Handling.BeginsAndEnds | internal/proxy/proxy.go:88-89 | counting the request is its first event and uncounting it its last |
| System.RequestsFollowTheirLogs | internal/proxy/proxy.go:87-234 | in any interleaving each request is where its own events alone put it |
| System.CounterBounds | internal/proxy/proxy.go:88-89 | over every interleaving the counters are the requests in flight and those retrying, 0 <= retries <= requests, the divisor is at least one, both zero when idle |
| Budget.GrantWithinBudget | internal/proxy/proxy.go:167-207 | in every run in which no request ends and no other retry begins between a request's reads and its retry, each retry that starts leaves 5 * (retries - 1) <= requests; arriving requests and ending retries do no harm |
| Budget.BoundedOvershoot | internal/proxy/proxy.go:167-207 | in every run, beyond a fifth of the most requests ever in flight there are at most as many retries as grants were ever read and uncounted at one moment |
| Budget.AllRetryAtOnce | internal/proxy/proxy.go:167-207 | with two healthy backends, n requests that fail on one can all be retrying at once by steps of their own; every log begins the handler's script and every read is true |
| Budget.BudgetIsNoCap | internal/proxy/proxy.go:167-207 | so with two or more such requests the retry counted last is beyond the budget |
| Budget.CappedExactly | internal/proxy/proxy.go:167-207 | every run of n requests alone keeps every retry within the budget exactly when n <= 1 or no two different URLs are healthy at the start |
| Budget.CappedAlwaysExactly | internal/proxy/proxy.go:167-207 | every run, with syncs, probes and messages too, keeps it exactly when n <= 1 |
| Budget.DiscoveryLiftsCap | internal/proxy/proxy.go:167-207 | otherwise one sync of any source, and then requests that follow the handler's script with true reads, go beyond it |
| Conservation.AddKeeps | internal/repository/in_memory.go:94-104 | while slots with the same URL show the same entry, an add moves the counter found under its URL and no other, and that stays so |
| Conservation.SyncConns | internal/repository/in_memory.go:186-234 | a sync whose list names nothing of another source and repeats only what its source holds leaves the counter found under every URL |
| Conservation.SyncOneEntry | internal/repository/in_memory.go:186-234 | and slots with the same URL go on showing the same entry |
| Conservation.SoundMeans | internal/proxy/proxy.go:141-147 | right counters mean that every held backend is in the pool and no counter is negative |
| Conservation.InFlightConservation | internal/repository/in_memory.go:177-235 | over every interleaving of adds that find their backend and such syncs, counters, held backends and signs are right |
| Conservation.ChosenIsHeld | internal/proxy/proxy.go:135-142 | a backend chosen while healthy is in the pool until the next sync, whatever else happens, for the first attempt as for the retry |
| Conservation.DisciplinedConservation | internal/proxy/proxy.go:135-213 | the same conclusion for every schedule in which sources list their own URLs once each and no sync runs between a choice and its add |
| Breaches.AdmissibleExactly | internal/repository/in_memory.go:94-117 | from right counters, with a request still to come, a step leaves all counters right under every allowed continuation exactly when it is itself allowed; continuations with true reads and non-empty lists are enough to tell |
| Breaches.RepeatBreaks | internal/repository/in_memory.go:203-218 | a list that repeats a URL the pool does not hold can be followed by allowed steps that end with a counter of -1 |
| Breaches.ForeignBreaks | internal/repository/in_memory.go:193-232 | so can a list that names another source's URL, once that source lists a different one instead |
| Breaches.RepeatedListGoesNegative | internal/repository/in_memory.go:203-218 | the whole run from the empty pool, every read true: listed twice, taken, listed once, released |
| Breaches.ForeignUrlGoesNegative | internal/repository/in_memory.go:193-232 | the whole run from one backend, every read true: listed by a second source, taken, replaced by the first, released |
| Breaches.LateAddGoesNegative | internal/proxy/proxy.go:135-147 | a run in which the backend is dropped between choice and add and comes back, ending with a counter of -1 |
| Breaches.BreakingRunsAreHandled | internal/proxy/proxy.go:125-147 | the request's log in all these runs begins the handler's script |
| Codec.OnTheWire | internal/repository/redismanager/redis.go:114 | the payload is the URL, a bar (ASCII 124), the status |
| Codec.EncodeDecode | internal/repository/redismanager/redis.go:114 | a published pair is read back as sent exactly when neither half contains a bar |
| Codec.DecodeEncode | internal/repository/redismanager/redis.go:207-212 | a payload is accepted exactly when it has one bar, and then re-encodes to itself |
| RedisManager.Manager.UpdateBackendStatus | internal/repository/redismanager/redis.go:100-116 | the key "backend:" and the URL takes the status unless SET fails; then every channel gets one message more unless PUBLISH fails; the pool is not touched; without failure it is the protocol's update |
| RedisManager.Manager.SyncOnStartUp | internal/repository/redismanager/redis.go:128-158 | whatever calls fail: a failing read leaves flag and key alone, a key found sets the flag to whether it says UP, a missing one is written as UP and announced once; no entry changes otherwise; without failure it is the protocol's re-sync of each URL |
| RedisManager.Manager.HandleMessage | internal/repository/redismanager/redis.go:207-221 | a well-formed message marks its URL, in every slot that shows the entry; malformed and unparsable ones change nothing |
| RedisManager.HandledMeans | internal/repository/redismanager/redis.go:212-221 | URL, bar, status sets the flag of the parsed URL to whether the status is UP; an unparsable URL changes nothing |
| RedisManager.MalformedMeans | internal/repository/redismanager/redis.go:207-210 | a payload with no bar or with several changes nothing |
| RedisManager.Manager.DrainPending | internal/repository/redismanager/redis.go:198-223 | pending messages are applied oldest first until none is left, however slots share entries; other subscribers' stay; with a parser that returns the URLs sent it is the protocol's delivery of each |
| RedisManager.HandledIsReplay | internal/repository/redismanager/redis.go:203-221 | the watcher's effect on the pool is the protocol's replay of the queue on the flags |
| RedisManager.SyncIsResync | internal/repository/redismanager/redis.go:128-158 | a start-up sync without failures is the protocol's re-sync of each URL |
| RedisManager.DrainedIsDelivered | internal/repository/redismanager/redis.go:203-221 | handling everything pending leads where delivering every message to this instance leads |
| Protocol.AgreementInvariant | internal/repository/redismanager/redis.go:100-116 | with SET and PUBLISH interleaving freely every instance is heading for the last word on each URL unless it has an unpublished mark |
| Protocol.Agreement | internal/repository/redismanager/redis.go:203-221 | once every mark is published and every queue empty, all instances hold the last published status of each URL |
| Protocol.AgreementWithStore | internal/repository/redismanager/redis.go:100-116 | and it is the key's exactly when the last SET and the last PUBLISH say the same |
| Protocol.UncrossedMatchStore | internal/repository/redismanager/redis.go:100-116 | where updates of a URL never cross and none is half done, every instance ends with its key's status |
| Protocol.CrossedUpdates | internal/repository/redismanager/redis.go:107-115 | a run of two crossing updates, each after a mark that changes the flag, that leaves every instance down while the key says UP |
| Protocol.ViewPlusQueueIsStore | internal/repository/redismanager/redis.go:100-158 | with both phases as one step, an instance's pending messages replayed on its flag give the key's status; every step keeps this |
| Protocol.LateResync | internal/repository/redismanager/redis.go:140-144 | a status read earlier and applied now keeps it exactly when a message is pending or the key says the same |
| Protocol.SelfStabilises | internal/repository/redismanager/redis.go:128-176 | from any flags, queues and keys, sync, drain, sync makes every instance equal to the keys for good |

## Left out

- HTTP transport, header copying, body streaming, DNS lookups, the Redis client's networking, tickers, signals and shutdown: what came of them is an outcome, a fault or a step.
- Wall-clock values (last check, latency measurement, requests per second, time series), CSV and JSON export, YAML configuration: no hard claim rests on them.
- URL parsing: a URL is its text; the parser is an arbitrary partial function, and only where the watcher is compared with the protocol (`HandledIsReplay`, `DrainedIsDelivered`, `DrainPending`) is it asked to return the URL a message was made from.
- Floating point: rates and means are exact reals, latencies whole milliseconds, the percentile index is n * p / 100 rounded down, the budget test is 5 * retries > requests.
- Integer widths: 64-bit wrap-around is modelled for the round-robin counter only; connection, request and metric counters are unbounded.
- Errors of `GetHealthy` and `GetAllServers`: the in-memory pool never returns one.
- Recognising a client disconnect by its error text: it is one of the outcomes of an attempt.
- The health checker's probing loop: it enters as arbitrary marks and updates.
- LeastConnections.GetTarget: the two counters it compares are read from one snapshot, so an add between the two reads is not modelled.
- Proxy.ServeHTTP: what it reads of the pool and the counters is arbitrary, as other requests run in between; its effects are events, applied to the shared state in `System`; the runs in `Budget` and `Breaches` read what the pool holds. The goroutine that publishes a mark is one event where it is started. The round trips' durations are not modelled.
- System.RequestsFollowTheirLogs: syncs of the whole pool without a source are not among the steps; the program uses the per-source one.
- Protocol.Agreement: the URLs an instance holds never change; a backend discovered later starts healthy whatever its key says.
- Protocol.SelfStabilises: a re-sync reads and applies in one step; what a stale read does is `LateResync`. The program syncs before it subscribes, so updates published in between reach it only with a later re-sync.
- InMemoryPool.InMemory.SyncServers: the log lines about removed backends are not modelled; the one function of the source is split into methods for its loops.
- Metrics.Collector.RecordRequest: per-backend records are values in the map instead of pointers; nothing else in the program refers to them.
