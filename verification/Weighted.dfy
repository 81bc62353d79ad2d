/** Weighted selection: every backend has a budget per epoch, spent in random order. */
module Weighted {
  import opened Common
  import opened Pool
  import opened InMemoryPool

  datatype Counter = Counter(original: int, remaining: int)

  /** The weight registered for a configured one; anything not positive counts as one. */
  function Effective(weight: int): int {
    if weight <= 0 then 1 else weight
  }

  function Urls(servers: seq<Server>): seq<Url> {
    seq(|servers|, k requires 0 <= k < |servers| => servers[k].url)
  }

  /** Counters once every listed backend has one; known backends keep theirs. */
  function Registered(w: map<Url, Counter>, servers: seq<Server>): map<Url, Counter> {
    if servers == [] then w
    else
      var s := servers[|servers| - 1];
      var r := Registered(w, servers[..|servers| - 1]);
      if s.url in r then r else r[s.url := Counter(Effective(s.weight), Effective(s.weight))]
  }

  lemma {:induction false} RegisteredKeys(w: map<Url, Counter>, servers: seq<Server>)
    ensures forall u :: u in Registered(w, servers) <==> u in w || u in Urls(servers)
    ensures forall u :: u in w ==> Registered(w, servers)[u] == w[u]
  {
    if servers != [] {
      var n := |servers| - 1;
      assert Urls(servers) == Urls(servers[..n]) + [servers[n].url];
      RegisteredKeys(w, servers[..n]);
    }
  }

  /** A backend seen for the first time gets the weight of its first entry, and one if that is not positive. */
  lemma {:induction false} RegisteredWeight(w: map<Url, Counter>, servers: seq<Server>, u: Url)
    requires u !in w && Holds(servers, u)
    ensures var x := servers[FirstAt(servers, u)].weight;
            u in Registered(w, servers)
            && Registered(w, servers)[u] == if x >= 1 then Counter(x, x) else Counter(1, 1)
  {
    var n := |servers| - 1;
    if k :| 0 <= k < n && servers[k].url == u {
      assert servers[..n][k].url == u;
      RegisteredWeight(w, servers[..n], u);
      FirstOfPrefix(servers, n, u);
      RegisteredKeys(w, servers[..n]);
    } else {
      FirstIs(servers, n, u);
      LastRegistered(w, servers, u);
    }
  }

  lemma LastRegistered(w: map<Url, Counter>, servers: seq<Server>, u: Url)
    requires servers != [] && u !in w
    requires var n := |servers| - 1; servers[n].url == u && forall k :: 0 <= k < n ==> servers[k].url != u
    ensures var x := servers[|servers| - 1].weight;
            u in Registered(w, servers)
            && Registered(w, servers)[u] == if x >= 1 then Counter(x, x) else Counter(1, 1)
  {
    var before := servers[..|servers| - 1];
    RegisteredKeys(w, before);
    assert forall k :: 0 <= k < |before| ==> Urls(before)[k] == before[k].url != u;
  }

  lemma FirstIs(v: seq<Server>, k: nat, u: Url)
    requires k < |v| && (v[k].url == u || Holds(v, u)) && forall j :: 0 <= j < k ==> v[j].url != u
    requires k == |v| - 1
    ensures FirstAt(v, u) == k && v[k].url == u
  {
  }

  lemma FirstOfPrefix(v: seq<Server>, n: nat, u: Url)
    requires n <= |v| && Holds(v[..n], u)
    ensures FirstAt(v, u) == FirstAt(v[..n], u)
  {
    var k := FirstAt(v[..n], u);
    assert v[k].url == u;
    assert forall j :: 0 <= j < k ==> v[..n][j].url != u && v[j].url != u;
  }

  function Renewed(c: Counter): Counter {
    if c.remaining == 0 then Counter(c.original, c.original) else c
  }

  function RenewAll(w: map<Url, Counter>): map<Url, Counter> {
    map u | u in w :: Renewed(w[u])
  }

  function Spend(w: map<Url, Counter>, u: Url): map<Url, Counter>
    requires u in w
  {
    w[u := w[u].(remaining := w[u].remaining - 1)]
  }

  /** No candidate has budget left in this epoch. */
  ghost predicate Exhausted(w: map<Url, Counter>, urls: seq<Url>) {
    forall u :: u in urls && u in w ==> w[u].remaining <= 0
  }

  /** One call, whatever the draws: without a healthy backend it fails and nothing changes; otherwise
      it spends one unit of a backend with budget left, after a new epoch when there was none. */
  ghost predicate Step(w: map<Url, Counter>, servers: seq<Server>, w': map<Url, Counter>, target: Option<Url>) {
    if servers == [] then target.None? && w' == w
    else
      var r := Registered(w, servers);
      && target.Some? && target.value in Urls(servers) && target.value in r
      && (if Exhausted(r, Urls(servers))
          then w' == Spend(RenewAll(r), target.value)
          else r[target.value].remaining > 0 && w' == Spend(r, target.value))
  }

  class WeightedPolicy {
    var weights: map<Url, Counter>

    constructor ()
      ensures weights == map[]
    {
      weights := map[];
    }

    method GetTarget(pool: InMemory) returns (target: Option<Url>)
      modifies this
      ensures Step(old(weights), Healthy(pool.View()), weights, target)
    {
      var servers := pool.GetHealthy();
      ghost var v := Values(servers);
      if |servers| == 0 {
        assert v == [];
        return None;
      }
      var candidates := Register(servers);
      RegisteredKeys(old(weights), v);
      assert |candidates| == |servers|;
      var candidate := Take(candidates);
      target := Some(candidate);
    }

    /** Draws a candidate, starts a new epoch if none had budget left, and spends one unit of it. */
    method Take(urls: seq<Url>) returns (candidate: Url)
      requires |urls| > 0 && forall u :: u in urls ==> u in weights
      modifies this
      ensures candidate in urls && candidate in old(weights)
      ensures if Exhausted(old(weights), urls) then weights == Spend(RenewAll(old(weights)), candidate)
              else old(weights)[candidate].remaining > 0 && weights == Spend(old(weights), candidate)
    {
      var reset;
      candidate, reset := Draw(urls);
      if reset {
        StartEpoch();
      }
      weights := weights[candidate := weights[candidate].(remaining := weights[candidate].remaining - 1)];
    }

    /** Lists the candidates and gives every backend seen for the first time its counter. */
    method Register(servers: seq<ServerState>) returns (candidates: seq<Url>)
      modifies this
      ensures weights == Registered(old(weights), Values(servers))
      ensures candidates == Urls(Values(servers))
    {
      candidates := [];
      ghost var v := Values(servers);
      for i := 0 to |servers|
        invariant weights == Registered(old(weights), v[..i])
        invariant |candidates| == i && forall k :: 0 <= k < i ==> candidates[k] == v[k].url
      {
        assert v[..i + 1][..i] == v[..i];
        candidates := candidates + [servers[i].url];
        RegisterOne(servers[i].url, servers[i].weight);
      }
      assert v[..|servers|] == v;
    }

    method RegisterOne(u: Url, configured: int)
      modifies this
      ensures weights == if u in old(weights) then old(weights)
                         else old(weights)[u := Counter(Effective(configured), Effective(configured))]
    {
      if u !in weights {
        var weight := configured;
        if weight <= 0 {
          weight := 1;
        }
        weights := weights[u := Counter(weight, weight)];
      }
    }

    /** Draws candidates at random, dropping spent ones, until one has budget left or none remains;
        with none left it answers the last one drawn. */
    method Draw(urls: seq<Url>) returns (candidate: Url, reset: bool)
      requires |urls| > 0 && forall u :: u in urls ==> u in weights
      ensures candidate in urls
      ensures reset <==> Exhausted(weights, urls)
      ensures !reset ==> weights[candidate].remaining > 0
    {
      var candidates := urls;
      candidate, reset := Url(""), true;
      while |candidates| != 0
        invariant forall u :: u in candidates ==> u in urls
        invariant forall u :: u in urls ==> u in candidates || weights[u].remaining <= 0
        invariant candidates == urls || candidate in urls
        invariant reset
        decreases |candidates|
      {
        var ri :| 0 <= ri < |candidates|;
        candidate := candidates[ri];
        if weights[candidate].remaining > 0 {
          reset := false;
          break;
        }
        ghost var was := candidates;
        candidates := candidates[..ri] + candidates[ri + 1..];
        assert was == was[..ri] + [candidate] + was[ri + 1..];
      }
    }

    /** Refills every counter that has run out, including those of backends not healthy now. */
    method StartEpoch()
      modifies this
      ensures weights == RenewAll(old(weights))
    {
      var keys := weights.Keys;
      ghost var w := weights;
      while keys != {}
        invariant keys <= w.Keys
        invariant weights == map u | u in w :: if u in keys then w[u] else Renewed(w[u])
        decreases |keys|
      {
        var key :| key in keys;
        var value := weights[key];
        if value.remaining == 0 {
          weights := weights[key := Counter(value.original, value.original)];
        }
        keys := keys - {key};
      }
    }
  }
}
