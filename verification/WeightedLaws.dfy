/** What weighted selection guarantees over whole runs, for every outcome of its random draws. */
module WeightedLaws {
  import opened Common
  import opened Pool
  import opened Weighted

  /** The calls made so far, oldest first: the healthy backends each saw, its answer, the counters after. */
  datatype History =
    | Start
    | Then(before: History, servers: seq<Server>, target: Option<Url>, after: map<Url, Counter>)

  function Counters(h: History): map<Url, Counter> {
    match h case Start => map[] case Then(_, _, _, after) => after
  }

  /** Every call is one the policy can make from the counters the previous call left. */
  ghost predicate IsRun(h: History) {
    match h
    case Start => true
    case Then(before, servers, target, after) => IsRun(before) && Step(Counters(before), servers, after, target)
  }

  function Calls(h: History): nat {
    match h case Start => 0 case Then(before, _, _, _) => Calls(before) + 1
  }

  function Picks(h: History, u: Url): nat {
    match h
    case Start => 0
    case Then(before, _, target, _) => Picks(before, u) + (if target == Some(u) then 1 else 0)
  }

  /** Epochs in which `u` had its budget refilled. */
  ghost function Refills(h: History, u: Url): nat {
    match h
    case Start => 0
    case Then(before, servers, target, after) =>
      var r := Registered(Counters(before), servers);
      Refills(before, u)
      + (if servers != [] && Exhausted(r, Urls(servers)) && u in r && r[u].remaining == 0 then 1 else 0)
  }

  ghost predicate WithinBudget(w: map<Url, Counter>) {
    forall u :: u in w ==> 0 <= w[u].remaining <= w[u].original && w[u].original >= 1
  }

  lemma {:induction false} RegisteredWithinBudget(w: map<Url, Counter>, servers: seq<Server>)
    requires WithinBudget(w)
    ensures WithinBudget(Registered(w, servers))
    ensures forall u :: u in Registered(w, servers) && u !in w ==>
              Registered(w, servers)[u].remaining == Registered(w, servers)[u].original
  {
    if servers != [] {
      RegisteredWithinBudget(w, servers[..|servers| - 1]);
    }
  }

  lemma StepWithinBudget(w: map<Url, Counter>, servers: seq<Server>, w': map<Url, Counter>, target: Option<Url>)
    requires WithinBudget(w) && Step(w, servers, w', target)
    ensures WithinBudget(w')
  {
    RegisteredWithinBudget(w, servers);
  }

  /** Picks and what is left make up whole budgets. */
  ghost predicate Balanced(h: History, u: Url) {
    if u in Counters(h)
    then Picks(h, u) + Counters(h)[u].remaining == Counters(h)[u].original * (1 + Refills(h, u))
    else Picks(h, u) == 0 && Refills(h, u) == 0
  }

  lemma BalancedStep(h: History, u: Url)
    requires IsRun(h) && h.Then? && WithinBudget(Counters(h.before)) && Balanced(h.before, u)
    ensures Balanced(h, u)
  {
    if h.servers != [] {
      var w := Counters(h.before);
      var r := Registered(w, h.servers);
      RegisteredKeys(w, h.servers);
      RegisteredWithinBudget(w, h.servers);
      if u in r {
        var o, n := r[u].original, Refills(h.before, u);
        assert o * (1 + (n + 1)) == o * (1 + n) + o;
        assert o * (1 + 0) == o;
      }
    }
  }

  /** With the healthy set changing arbitrarily between calls: a counter never leaves [0, original],
      picks and what is left always make up whole budgets, and only registered backends are picked. */
  lemma {:induction false} BudgetsUnderChurn(h: History)
    requires IsRun(h)
    ensures WithinBudget(Counters(h))
    ensures forall u :: Balanced(h, u)
  {
    if h.Then? {
      BudgetsUnderChurn(h.before);
      StepWithinBudget(Counters(h.before), h.servers, h.after, h.target);
      forall u
        ensures Balanced(h, u)
      {
        BalancedStep(h, u);
      }
    }
  }

  /** `g` is a point of the run that ends in `h`. */
  ghost predicate PartOf(g: History, h: History) {
    g == h || (h.Then? && PartOf(g, h.before))
  }

  /** A weight once registered is the same at every later point of the run, whatever is configured,
      refilled or unhealthy in between. */
  lemma {:induction false} WeightsAreFixed(g: History, h: History, u: Url)
    requires IsRun(h) && PartOf(g, h) && u in Counters(g)
    ensures u in Counters(h) && Counters(h)[u].original == Counters(g)[u].original
  {
    if g != h {
      WeightsAreFixed(g, h.before, u);
      RegisteredKeys(Counters(h.before), h.servers);
    }
  }

  /** Every call answered a backend healthy at that call, or nothing because none was. */
  ghost predicate AllAnswered(h: History) {
    match h
    case Start => true
    case Then(before, servers, target, _) =>
      && AllAnswered(before)
      && (target.None? <==> servers == [])
      && (target.Some? ==> exists s :: s in servers && s.url == target.value)
  }

  /** Over any run every pick was healthy, and a call failed exactly when no backend was. */
  lemma {:induction false} AnswersAreHealthy(h: History)
    requires IsRun(h)
    ensures AllAnswered(h)
  {
    if h.Then? {
      AnswersAreHealthy(h.before);
      if h.target.Some? {
        var k :| 0 <= k < |h.servers| && Urls(h.servers)[k] == h.target.value;
        assert h.servers[k] in h.servers;
      }
    }
  }

  // ---------- Budgets as sums ----------

  function Remaining(w: map<Url, Counter>): map<Url, int> {
    map u | u in w :: w[u].remaining
  }

  function Originals(w: map<Url, Counter>): map<Url, int> {
    map u | u in w :: w[u].original
  }

  // ---------- Exact shares with a fixed healthy set ----------

  ghost predicate SameUrls(a: seq<Server>, b: seq<Server>) {
    forall u :: u in Urls(a) <==> u in Urls(b)
  }

  /** The first call saw these backends with these weights, and every later one the same set of URLs. Order,
      counters, flags and sources may differ from call to call, and so may the weights after the first. */
  ghost predicate FixedSet(h: History, servers: seq<Server>) {
    match h
    case Start => true
    case Then(before, seen, _, _) =>
      && FixedSet(before, servers) && SameUrls(seen, servers)
      && (before == Start ==> Weights(seen) == Weights(servers))
  }

  /** The configured weight of every listed URL, at its first entry; one where it is not positive. */
  function Weights(servers: seq<Server>): map<Url, int> {
    map u | u in Urls(servers) :: ConfiguredWeight(servers, u)
  }

  function ConfiguredWeight(servers: seq<Server>, u: Url): int {
    var k := FirstAt(servers, u);
    if k < |servers| && servers[k].weight >= 1 then servers[k].weight else 1
  }

  /** These are the budgets a first call registers. */
  lemma WeightsAreRegistered(servers: seq<Server>)
    ensures Originals(Registered(map[], servers)) == Weights(servers)
  {
    RegisteredKeys(map[], servers);
    forall u | u in Urls(servers)
      ensures u in Registered(map[], servers) && Registered(map[], servers)[u].original == Weights(servers)[u]
    {
      var k :| 0 <= k < |servers| && Urls(servers)[k] == u;
      assert servers[k].url == u;
      RegisteredWeight(map[], servers, u);
    }
  }

  /** Epochs begun, counting the first: with a fixed healthy set they are the same for every backend. */
  ghost predicate InEpoch(h: History, servers: seq<Server>, epoch: nat) {
    && epoch > 0
    && Originals(Counters(h)) == Weights(servers)
    && PicksMatch(h, epoch)
    && LeftOver(Counters(h), Sum(Weights(servers)), epoch, Calls(h))
  }

  ghost predicate PicksMatch(h: History, epoch: nat) {
    forall u :: u in Counters(h) ==> Picks(h, u) == Counters(h)[u].original * epoch - Counters(h)[u].remaining
  }

  /** What is left of the epoch: every unit not spent, and at least one was. */
  ghost predicate LeftOver(w: map<Url, Counter>, total: int, epoch: nat, calls: nat) {
    Sum(Remaining(w)) == total * epoch - calls && Sum(Remaining(w)) < total
  }

  lemma SpendSums(w: map<Url, Counter>, u: Url)
    requires u in w
    ensures Sum(Remaining(Spend(w, u))) == Sum(Remaining(w)) - 1
    ensures Originals(Spend(w, u)) == Originals(w)
  {
    assert Remaining(Spend(w, u)) == Remaining(w)[u := w[u].remaining - 1];
    SumUpdate(Remaining(w), u, w[u].remaining - 1);
  }

  lemma RenewSums(w: map<Url, Counter>)
    requires forall u :: u in w ==> w[u].remaining == 0
    ensures Remaining(RenewAll(w)) == Originals(w) == Originals(RenewAll(w))
    ensures Sum(Remaining(w)) == 0
  {
    SumOfZeros(Remaining(w));
  }

  lemma {:induction false} RegisteredAgain(w: map<Url, Counter>, servers: seq<Server>)
    requires forall u :: u in Urls(servers) ==> u in w
    ensures Registered(w, servers) == w
  {
    if servers != [] {
      var n := |servers| - 1;
      assert Urls(servers) == Urls(servers[..n]) + [servers[n].url];
      assert servers[n].url in Urls(servers);
      RegisteredAgain(w, servers[..n]);
    }
  }

  lemma SameUrlsSeen(seen: seq<Server>, servers: seq<Server>)
    requires SameUrls(seen, servers) && servers != []
    ensures seen != []
  {
    assert Urls(servers)[0] in Urls(servers);
    assert Urls(servers)[0] in Urls(seen);
  }

  lemma FirstEpoch(h: History, servers: seq<Server>)
    requires servers != [] && IsRun(h) && FixedSet(h, servers) && h.Then? && h.before == Start
    ensures InEpoch(h, servers, 1)
  {
    SameUrlsSeen(h.servers, servers);
    WeightsAreRegistered(h.servers);
    var r := Registered(map[], h.servers);
    RegisteredKeys(map[], h.servers);
    RegisteredWithinBudget(map[], h.servers);
    FirstSpend(h, servers, r, h.target.value);
  }

  lemma FirstSpend(h: History, servers: seq<Server>, r: map<Url, Counter>, u: Url)
    requires h.Then? && h.before == Start && h.target == Some(u) && u in r && h.after == Spend(r, u)
    requires Originals(r) == Weights(servers) && WithinBudget(r)
    requires forall x :: x in r ==> r[x].remaining == r[x].original
    ensures InEpoch(h, servers, 1)
  {
    SpendSums(r, u);
    assert Remaining(r) == Originals(r);
  }

  /** The counters one call later, with the epoch it belongs to. */
  lemma NextCounters(w: map<Url, Counter>, servers: seq<Server>, w': map<Url, Counter>, target: Option<Url>,
                     total: int, epoch: nat, calls: nat) returns (e: nat)
    requires servers != [] && Step(w, servers, w', target) && WithinBudget(w)
    requires forall u :: u in w <==> u in Urls(servers)
    requires Sum(Originals(w)) == total && LeftOver(w, total, epoch, calls)
    ensures target.value in w && Originals(w') == Originals(w) && LeftOver(w', total, e, calls + 1)
    ensures (e == epoch && w' == Spend(w, target.value))
         || (e == epoch + 1 && w' == Spend(RenewAll(w), target.value) && forall u :: u in w ==> w[u].remaining == 0)
  {
    RegisteredAgain(w, servers);
    if Exhausted(w, Urls(servers)) {
      e := epoch + 1;
      RenewSums(w);
      SpendSums(RenewAll(w), target.value);
      assert total * (epoch + 1) == total * epoch + total;
    } else {
      e := epoch;
      SpendSums(w, target.value);
    }
  }

  lemma NextCall(h: History, servers: seq<Server>, epoch: nat) returns (e: nat)
    requires servers != [] && IsRun(h) && FixedSet(h, servers) && h.Then?
    requires InEpoch(h.before, servers, epoch) && WithinBudget(Counters(h.before))
    ensures InEpoch(h, servers, e)
  {
    var w := Counters(h.before);
    SameUrlsSeen(h.servers, servers);
    assert forall u :: u in w <==> u in Urls(h.servers) by {
      RegisteredKeys(map[], servers);
      assert forall u :: u in w <==> u in Weights(servers);
    }
    e := NextCounters(w, h.servers, h.after, h.target, Sum(Weights(servers)), epoch, Calls(h.before));
    NextPicks(h, epoch, e);
  }

  lemma NextPicks(h: History, epoch: nat, e: nat)
    requires h.Then? && PicksMatch(h.before, epoch) && h.target.Some? && h.target.value in Counters(h.before)
    requires var w := Counters(h.before);
             || (e == epoch && h.after == Spend(w, h.target.value))
             || (e == epoch + 1 && h.after == Spend(RenewAll(w), h.target.value) && forall x :: x in w ==> w[x].remaining == 0)
    ensures PicksMatch(h, e)
  {
    forall u | u in h.after
      ensures Picks(h, u) == h.after[u].original * e - h.after[u].remaining
    {
      NextPick(Counters(h.before), h.after, h.target.value, epoch, e, u);
    }
  }

  /** What one call does to `original * epoch - remaining` of one backend. */
  lemma NextPick(w: map<Url, Counter>, w': map<Url, Counter>, target: Url, epoch: nat, e: nat, u: Url)
    requires target in w && u in w'
    requires (e == epoch && w' == Spend(w, target))
          || (e == epoch + 1 && w' == Spend(RenewAll(w), target) && forall x :: x in w ==> w[x].remaining == 0)
    ensures u in w
    ensures w'[u].original * e - w'[u].remaining
         == w[u].original * epoch - w[u].remaining + (if u == target then 1 else 0)
  {
    assert w[u].original * (epoch + 1) == w[u].original * epoch + w[u].original;
  }

  lemma {:induction false} EpochOf(h: History, servers: seq<Server>) returns (epoch: nat)
    requires servers != [] && IsRun(h) && FixedSet(h, servers) && h.Then?
    ensures InEpoch(h, servers, epoch)
  {
    if h.before == Start {
      FirstEpoch(h, servers);
      epoch := 1;
    } else {
      epoch := EpochOf(h.before, servers);
      BudgetsUnderChurn(h.before);
      epoch := NextCall(h, servers, epoch);
    }
  }

  /** With a fixed set of healthy URLs of total weight W, after q*W + r calls (r < W) every backend has been
      picked between q and q+1 times its weight, and exactly q times when r is zero, whatever connections
      come and go and however discovery reorders the pool in between. */
  lemma ExactShares(h: History, servers: seq<Server>, q: nat, r: nat, u: Url)
    requires IsRun(h) && FixedSet(h, servers) && u in Urls(servers)
    requires r < Sum(Weights(servers)) && Calls(h) == q * Sum(Weights(servers)) + r
    ensures u in Weights(servers) && Weights(servers)[u] >= 1
    ensures q * Weights(servers)[u] <= Picks(h, u) <= (q + 1) * Weights(servers)[u]
    ensures r == 0 ==> Picks(h, u) == q * Weights(servers)[u]
  {
    RegisteredKeys(map[], servers);
    RegisteredWithinBudget(map[], servers);
    var total, w := Sum(Weights(servers)), Weights(servers)[u];
    if h.Start? {
      NoCalls(total, q, r);
      assert q * w == 0;
    } else {
      var epoch := EpochOf(h, servers);
      BudgetsUnderChurn(h);
      SharesInEpoch(h, Weights(servers), epoch, q, r, u);
    }
  }

  lemma NoCalls(total: int, q: nat, r: nat)
    requires r < total && 0 == q * total + r
    ensures q == 0 && r == 0
  {
    assert q * total >= 0;
    assert q > 0 ==> q * total >= total;
  }

  lemma SharesInEpoch(h: History, weights: map<Url, int>, epoch: nat, q: nat, r: nat, u: Url)
    requires Originals(Counters(h)) == weights && PicksMatch(h, epoch) && u in weights
    requires LeftOver(Counters(h), Sum(weights), epoch, Calls(h)) && WithinBudget(Counters(h))
    requires r < Sum(weights) && Calls(h) == q * Sum(weights) + r
    ensures q * weights[u] <= Picks(h, u) <= (q + 1) * weights[u]
    ensures r == 0 ==> Picks(h, u) == q * weights[u]
  {
    var c := Counters(h);
    var left := Remaining(c);
    assert left.Keys == weights.Keys by { assert left.Keys == Originals(c).Keys; }
    forall x | x in left
      ensures 0 <= left[x] <= weights[x]
    {
      assert Originals(c)[x] == c[x].original;
    }
    SumBounds(left, weights);
    EpochFromCalls(Sum(weights), epoch, q, r, Sum(left));
    assert Originals(c)[u] == c[u].original == weights[u] && left[u] == c[u].remaining;
    ShareOf(weights[u], q, epoch, c[u].remaining);
  }

  /** What `w * epoch - left` is between, in the epoch after q full ones or at the end of the q-th. */
  lemma ShareOf(w: int, q: nat, epoch: nat, left: int)
    requires 0 <= left <= w && (epoch == q || epoch == q + 1)
    ensures epoch == q + 1 ==> q * w <= w * epoch - left <= (q + 1) * w
    ensures epoch == q && left == 0 ==> w * epoch - left == q * w
  {
    assert w * (q + 1) == w * q + w && (q + 1) * w == q * w + w;
  }

  lemma EpochFromCalls(total: int, epoch: nat, q: nat, r: nat, left: int)
    requires 0 <= r < total && 0 <= left < total && left == total * epoch - (q * total + r)
    ensures if r == 0 then epoch == q && left == 0 else epoch == q + 1
  {
    assert total * (epoch - q) == total * epoch - q * total;
    var d := epoch - q;
    assert d >= 2 ==> total * d >= total * 2;
    assert d <= -1 ==> total * d <= -total;
    assert d == 1 ==> total * d == total;
    assert d == 0 ==> total * d == 0;
  }
}
