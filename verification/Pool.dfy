/** The backend pool of one load-balancer process: the values it holds and what one
    reconciliation with a discovered URL list turns them into. */
module Pool {
  import opened Common

  /** One backend as the pool sees it. `conns` counts the requests in flight on it. */
  datatype Server = Server(url: Url, weight: int, healthy: bool, conns: int, draining: bool, source: string)

  // ---------- Lookup by URL: the first match wins ----------

  /** Position of the first entry with URL `u`, or |v| when there is none. */
  function FirstAt(v: seq<Server>, u: Url): (k: nat)
    ensures k <= |v|
    ensures k < |v| ==> v[k].url == u
    ensures forall j :: 0 <= j < k ==> v[j].url != u
  {
    if v == [] then 0
    else if v[0].url == u then 0
    else 1 + FirstAt(v[1..], u)
  }

  predicate Holds(v: seq<Server>, u: Url) {
    FirstAt(v, u) < |v|
  }

  function Mark(v: seq<Server>, u: Url, up: bool): seq<Server> {
    var k := FirstAt(v, u);
    if k < |v| then v[k := v[k].(healthy := up)] else v
  }

  function AddConns(v: seq<Server>, u: Url, d: int): seq<Server> {
    var k := FirstAt(v, u);
    if k < |v| then v[k := v[k].(conns := v[k].conns + d)] else v
  }

  function Healthy(v: seq<Server>): seq<Server> {
    if v == [] then []
    else
      var rest := Healthy(v[..|v| - 1]);
      if v[|v| - 1].healthy then rest + [v[|v| - 1]] else rest
  }

  /** Places of the healthy entries. */
  ghost function HealthyAt(v: seq<Server>): (at: seq<nat>)
    ensures forall m :: 0 <= m < |at| ==> at[m] < |v| && v[at[m]].healthy
  {
    if v == [] then []
    else
      var rest := HealthyAt(v[..|v| - 1]);
      if v[|v| - 1].healthy then rest + [|v| - 1] else rest
  }

  lemma {:induction false} HealthyIsAt(v: seq<Server>)
    ensures |Healthy(v)| == |HealthyAt(v)|
    ensures forall m :: 0 <= m < |HealthyAt(v)| ==> Healthy(v)[m] == v[HealthyAt(v)[m]]
  {
    if v != [] {
      var w := v[..|v| - 1];
      HealthyIsAt(w);
      forall m | 0 <= m < |HealthyAt(v)|
        ensures Healthy(v)[m] == v[HealthyAt(v)[m]]
      {
        if m < |HealthyAt(w)| {
          assert HealthyAt(v)[m] == HealthyAt(w)[m] && w[HealthyAt(w)[m]] == v[HealthyAt(w)[m]];
        }
      }
    }
  }

  lemma {:induction false} HealthyAtAscends(v: seq<Server>)
    ensures forall m, n :: 0 <= m < n < |HealthyAt(v)| ==> HealthyAt(v)[m] < HealthyAt(v)[n]
  {
    if v != [] {
      HealthyAtAscends(v[..|v| - 1]);
    }
  }

  lemma {:induction false} HealthyAtAll(v: seq<Server>)
    ensures forall k: nat :: k in HealthyAt(v) <==> k < |v| && v[k].healthy
  {
    if v != [] {
      HealthyAtAll(v[..|v| - 1]);
    }
  }

  /** The healthy entries stand at ascending places, each healthy place once and no other. */
  lemma HealthyPicks(v: seq<Server>) returns (at: seq<nat>)
    ensures |at| == |Healthy(v)|
    ensures forall m :: 0 <= m < |at| ==> at[m] < |v| && Healthy(v)[m] == v[at[m]]
    ensures forall m, n :: 0 <= m < n < |at| ==> at[m] < at[n]
    ensures forall k: nat :: k in at <==> k < |v| && v[k].healthy
  {
    at := HealthyAt(v);
    HealthyIsAt(v);
    HealthyAtAscends(v);
    HealthyAtAll(v);
  }

  /** A mark and an add reach the first entry with the URL, change one field of it, and nothing else. */
  lemma ChangesMean(v: seq<Server>, u: Url, up: bool, d: int, k: nat)
    requires k < |v|
    ensures |Mark(v, u, up)| == |v| == |AddConns(v, u, d)|
    ensures v[k].url == u && (forall j :: 0 <= j < k ==> v[j].url != u) ==>
              Mark(v, u, up)[k] == v[k].(healthy := up) && AddConns(v, u, d)[k] == v[k].(conns := v[k].conns + d)
    ensures v[k].url != u || (exists j :: 0 <= j < k && v[j].url == u) ==>
              Mark(v, u, up)[k] == v[k] == AddConns(v, u, d)[k]
  {
    if v[k].url == u && forall j :: 0 <= j < k ==> v[j].url != u {
      assert FirstAt(v, u) == k;
    }
  }

  // ---------- Reconciliation with a discovered list ----------

  /** The entries a sync may touch: those of one source, or all of them. */
  predicate InScope(s: Server, scope: Option<string>) {
    scope.None? || s.source == scope.value
  }

  function TagOf(scope: Option<string>): string {
    if scope.Some? then scope.value else ""
  }

  /** The entry a later one with the same URL has not overwritten. */
  function Find(v: seq<Server>, scope: Option<string>, u: Url): (r: Option<Server>)
    ensures r.Some? ==> r.value in v && InScope(r.value, scope) && r.value.url == u
    ensures r.None? ==> forall k :: 0 <= k < |v| ==> !(InScope(v[k], scope) && v[k].url == u)
  {
    if v == [] then None
    else
      var s := v[|v| - 1];
      if InScope(s, scope) && s.url == u then Some(s) else Find(v[..|v| - 1], scope, u)
  }

  /** Where that entry is: the last place in scope with URL `u`, or |v| when there is none. */
  function LastAt(v: seq<Server>, scope: Option<string>, u: Url): (k: nat)
    ensures k <= |v|
    ensures k < |v| ==> InScope(v[k], scope) && v[k].url == u
    ensures forall j :: 0 <= j < |v| && (k == |v| || k < j) ==> !(InScope(v[j], scope) && v[j].url == u)
  {
    if v == [] then 0
    else
      var n := |v| - 1;
      if InScope(v[n], scope) && v[n].url == u then n
      else var k := LastAt(v[..n], scope, u); if k == n then |v| else k
  }

  /** Of several known entries with one URL the last one counts. */
  lemma {:induction false} FindIsLast(v: seq<Server>, scope: Option<string>, u: Url)
    ensures Find(v, scope, u) == if LastAt(v, scope, u) < |v| then Some(v[LastAt(v, scope, u)]) else None
  {
    if v != [] {
      FindIsLast(v[..|v| - 1], scope, u);
    }
  }

  lemma LastAtSnoc(v: seq<Server>, i: nat, scope: Option<string>, u: Url)
    requires i < |v|
    ensures LastAt(v[..i + 1], scope, u)
         == if InScope(v[i], scope) && v[i].url == u then i
            else if LastAt(v[..i], scope, u) == i then i + 1 else LastAt(v[..i], scope, u)
  {
    assert v[..i + 1][..i] == v[..i];
  }

  function Others(v: seq<Server>, scope: Option<string>): seq<Server> {
    if v == [] then []
    else
      var rest := Others(v[..|v| - 1], scope);
      if InScope(v[|v| - 1], scope) then rest else rest + [v[|v| - 1]]
  }

  function Within(v: seq<Server>, scope: Option<string>): seq<Server> {
    if v == [] then []
    else
      var rest := Within(v[..|v| - 1], scope);
      if InScope(v[|v| - 1], scope) then rest + [v[|v| - 1]] else rest
  }

  function ListedOne(v: seq<Server>, scope: Option<string>, u: Url, weight: int): Server {
    match Find(v, scope, u)
    case Some(s) => s.(draining := false)
    case None => Server(u, weight, true, 0, false, TagOf(scope))
  }

  function Listed(v: seq<Server>, scope: Option<string>, urls: seq<Url>, weight: int): seq<Server> {
    seq(|urls|, t requires 0 <= t < |urls| => ListedOne(v, scope, urls[t], weight))
  }

  function Drained(s: Server): Server {
    s.(draining := true, healthy := false)
  }

  /** No longer discovered, but requests are still in flight on it. */
  predicate Lingers(s: Server, scope: Option<string>, urls: set<Url>) {
    InScope(s, scope) && s.url !in urls && s.conns > 0
  }

  function Leaving(v: seq<Server>, scope: Option<string>, urls: set<Url>): seq<Server> {
    if v == [] then []
    else
      var rest := Leaving(v[..|v| - 1], scope, urls);
      if Lingers(v[|v| - 1], scope, urls) then rest + [Drained(v[|v| - 1])] else rest
  }

  /** Places of the entries out of scope. */
  ghost function OthersAt(v: seq<Server>, scope: Option<string>): (at: seq<nat>)
    ensures forall m :: 0 <= m < |at| ==> at[m] < |v| && !InScope(v[at[m]], scope)
  {
    if v == [] then []
    else
      var rest := OthersAt(v[..|v| - 1], scope);
      if InScope(v[|v| - 1], scope) then rest else rest + [|v| - 1]
  }

  lemma OthersAtSnoc(v: seq<Server>, i: nat, scope: Option<string>)
    requires i < |v|
    ensures OthersAt(v[..i + 1], scope)
         == if InScope(v[i], scope) then OthersAt(v[..i], scope) else OthersAt(v[..i], scope) + [i]
  {
    assert v[..i + 1][..i] == v[..i];
  }

  lemma {:induction false} OthersIsAt(v: seq<Server>, scope: Option<string>)
    ensures |Others(v, scope)| == |OthersAt(v, scope)|
    ensures forall m :: 0 <= m < |OthersAt(v, scope)| ==> Others(v, scope)[m] == v[OthersAt(v, scope)[m]]
  {
    if v != [] {
      OthersIsAt(v[..|v| - 1], scope);
    }
  }

  lemma {:induction false} OthersAtAscends(v: seq<Server>, scope: Option<string>)
    ensures forall m, n :: 0 <= m < n < |OthersAt(v, scope)| ==> OthersAt(v, scope)[m] < OthersAt(v, scope)[n]
  {
    if v != [] {
      OthersAtAscends(v[..|v| - 1], scope);
    }
  }

  /** Positions of the entries that stay behind as draining. */
  ghost function LeavingAt(v: seq<Server>, scope: Option<string>, urls: set<Url>): (at: seq<nat>)
    ensures forall m :: 0 <= m < |at| ==> at[m] < |v| && Lingers(v[at[m]], scope, urls)
  {
    if v == [] then []
    else
      var rest := LeavingAt(v[..|v| - 1], scope, urls);
      if Lingers(v[|v| - 1], scope, urls) then rest + [|v| - 1] else rest
  }

  lemma LeavingAtSnoc(v: seq<Server>, i: nat, scope: Option<string>, urls: set<Url>)
    requires i < |v|
    ensures LeavingAt(v[..i + 1], scope, urls)
         == if Lingers(v[i], scope, urls) then LeavingAt(v[..i], scope, urls) + [i] else LeavingAt(v[..i], scope, urls)
  {
    assert v[..i + 1][..i] == v[..i];
  }

  lemma {:induction false} LeavingIsAt(v: seq<Server>, scope: Option<string>, urls: set<Url>)
    ensures |Leaving(v, scope, urls)| == |LeavingAt(v, scope, urls)|
    ensures forall m :: 0 <= m < |LeavingAt(v, scope, urls)| ==>
              Leaving(v, scope, urls)[m] == Drained(v[LeavingAt(v, scope, urls)[m]])
  {
    if v != [] {
      var w := v[..|v| - 1];
      LeavingIsAt(w, scope, urls);
      var at, rest := LeavingAt(v, scope, urls), LeavingAt(w, scope, urls);
      forall m | 0 <= m < |at|
        ensures Leaving(v, scope, urls)[m] == Drained(v[at[m]])
      {
        if m < |rest| {
          assert at[m] == rest[m] && w[rest[m]] == v[rest[m]];
        }
      }
    }
  }

  lemma {:induction false} LeavingAtAscends(v: seq<Server>, scope: Option<string>, urls: set<Url>)
    ensures forall m, n :: 0 <= m < n < |LeavingAt(v, scope, urls)| ==>
              LeavingAt(v, scope, urls)[m] < LeavingAt(v, scope, urls)[n]
  {
    if v != [] {
      LeavingAtAscends(v[..|v| - 1], scope, urls);
    }
  }

  function UrlSet(urls: seq<Url>): set<Url> {
    set u | u in urls
  }

  function Reconcile(v: seq<Server>, scope: Option<string>, urls: seq<Url>, weight: int): seq<Server> {
    Others(v, scope) + Listed(v, scope, urls, weight) + Leaving(v, scope, UrlSet(urls))
  }
}

/** The pool as the process keeps it: shared, mutable entries behind one slice. */
module InMemoryPool {
  import opened Common
  import opened Pool
  import opened SharedPool

  class ServerState {
    const url: Url
    const weight: int
    const source: string
    var healthy: bool
    var conns: int
    var draining: bool

    constructor (url: Url, weight: int, source: string)
      ensures Value() == Server(url, weight, true, 0, false, source)
    {
      this.url, this.weight, this.source := url, weight, source;
      healthy, conns, draining := true, 0, false;
    }

    function Value(): Server
      reads this
    {
      Server(url, weight, healthy, conns, draining, source)
    }
  }

  /** Listed, or none of this sync's business. */
  ghost predicate Stays(s: ServerState, scope: Option<string>, active: set<Url>) {
    s.url in active || !From(s, scope)
  }

  ghost predicate From(s: ServerState, scope: Option<string>) {
    scope.None? || s.source == scope.value
  }

  function Values(ss: seq<ServerState>): seq<Server>
    reads ss
  {
    seq(|ss|, k requires 0 <= k < |ss| reads ss => ss[k].Value())
  }

  lemma ValuesAre(ss: seq<ServerState>, v: seq<Server>)
    requires |ss| == |v| && forall k :: 0 <= k < |v| ==> ss[k].Value() == v[k]
    ensures Values(ss) == v
  {
  }

  lemma ValuesConcat(a: seq<ServerState>, b: seq<ServerState>)
    ensures Values(a + b) == Values(a) + Values(b)
  {
  }

  /** Which entry every slot of a new slice shows: the one at a place of the old slice, or a new one. */
  ghost predicate Slotted(before: seq<ServerState>, after: seq<ServerState>, places: seq<nat>) {
    && |after| == |places|
    && (forall k :: 0 <= k < |after| ==>
          if places[k] < |before| then after[k] == before[places[k]] else after[k] !in before)
    && (forall j, k :: 0 <= j < k < |after| && places[j] >= |before| && places[k] >= |before| ==> after[j] != after[k])
  }

  lemma SlottedConcat(before: seq<ServerState>, a: seq<ServerState>, pa: seq<nat>, b: seq<ServerState>, pb: seq<nat>)
    requires Slotted(before, a, pa) && Slotted(before, b, pb)
    requires (forall k :: 0 <= k < |pa| ==> pa[k] < |before|) || (forall k :: 0 <= k < |pb| ==> pb[k] < |before|)
    ensures Slotted(before, a + b, pa + pb)
  {
  }

  lemma SlottedSnoc(before: seq<ServerState>, a: seq<ServerState>, pa: seq<nat>, i: nat)
    requires Slotted(before, a, pa) && i < |before|
    ensures Slotted(before, a + [before[i]], pa + [i])
  {
  }

  class InMemory {
    var servers: seq<ServerState>

    ghost function View(): seq<Server>
      reads this, servers
    {
      Values(servers)
    }

    /** No entry sits in the slice twice. */
    ghost predicate Distinct()
      reads this
    {
      NoDup(servers)
    }

    /** The slice shows this pool: same values, and equal ids exactly for the same entry. */
    ghost predicate Shows(p: Shared)
      reads this, servers
    {
      SharesAs(p) && ViewOf(p) == View()
    }

    ghost predicate SharesAs(p: Shared)
      reads this
    {
      && |p.slots| == |servers| && (forall k :: 0 <= k < |servers| ==> p.slots[k].id < p.next)
      && (forall j, k :: 0 <= j < |servers| && 0 <= k < |servers| ==>
            (p.slots[j].id == p.slots[k].id <==> servers[j] == servers[k]))
    }

    lemma ShownIsCoherent(p: Shared)
      requires Shows(p)
      ensures Coherent(p)
    {
      forall k | 0 <= k < |servers|
        ensures p.slots[k].s == servers[k].Value()
      {
        assert ViewOf(p)[k] == View()[k];
      }
    }

    /** Whatever the slice holds, some pool on values shows it. */
    lemma ShownBySome() returns (p: Shared)
      ensures Shows(p)
    {
      var ids: seq<nat> := [];
      for i := 0 to |servers|
        invariant |ids| == i && forall k :: 0 <= k < i ==> ids[k] <= k
        invariant forall j, k :: 0 <= j < i && 0 <= k < i ==> (ids[j] == ids[k] <==> servers[j] == servers[k])
      {
        if k :| 0 <= k < i && servers[k] == servers[i] {
          ids := ids + [ids[k]];
        } else {
          ids := ids + [i];
        }
      }
      var v := View();
      p := Shared(seq(|ids|, k requires 0 <= k < |ids| && k < |v| => Slot(ids[k], v[k])), |ids|);
      assert ViewOf(p) == v;
    }

    constructor (urls: seq<Url>, weights: seq<int>)
      requires |urls| == |weights|
      ensures fresh(servers) && Distinct()
      ensures Shows(Alone(View()))
      ensures View() == seq(|urls|, k requires 0 <= k < |urls| => Server(urls[k], weights[k], true, 0, false, ""))
    {
      var made: seq<ServerState> := [];
      for i := 0 to |urls|
        invariant |made| == i && fresh(made)
        invariant forall k :: 0 <= k < i ==> made[k].Value() == Server(urls[k], weights[k], true, 0, false, "")
        invariant NoDup(made)
      {
        var s := new ServerState(urls[i], weights[i], "");
        made := made + [s];
      }
      servers := made;
    }

    method GetAllServers() returns (all: seq<ServerState>)
      ensures all == servers
    {
      all := servers;
    }

    /** These entries, in this order, are the healthy ones of the slice, each slot once. */
    ghost predicate PicksHealthy(healthy: seq<ServerState>, at: seq<nat>)
      reads this, servers
    {
      && |at| == |healthy|
      && (forall m :: 0 <= m < |at| ==> at[m] < |servers| && healthy[m] == servers[at[m]])
      && (forall m, n :: 0 <= m < n < |at| ==> at[m] < at[n])
      && (forall k: nat :: k in at <==> k < |servers| && servers[k].healthy)
    }

    method GetHealthy() returns (healthy: seq<ServerState>)
      ensures Values(healthy) == Healthy(View())
      ensures forall s :: s in healthy ==> s in servers
      ensures exists at: seq<nat> :: PicksHealthy(healthy, at)
    {
      ghost var at: seq<nat> := [];
      healthy := [];
      for i := 0 to |servers|
        invariant forall s :: s in healthy ==> s in servers
        invariant Values(healthy) == Healthy(View()[..i])
        invariant |at| == |healthy| && forall m :: 0 <= m < |at| ==> at[m] < i && healthy[m] == servers[at[m]]
        invariant forall m, n :: 0 <= m < n < |at| ==> at[m] < at[n]
        invariant forall k: nat :: k in at <==> k < i && servers[k].healthy
      {
        var s := servers[i];
        assert View()[..i + 1][..i] == View()[..i];
        if s.healthy {
          healthy, at := healthy + [s], at + [i];
        }
      }
      assert View()[..|servers|] == View();
      assert PicksHealthy(healthy, at);
    }

    /** The first entry with this URL took the flag, in every slot that shows it; the others are as in `v`. */
    ghost predicate Flagged(v: seq<Server>, u: Url, up: bool)
      reads this, servers
    {
      && |servers| == |v|
      && forall k :: 0 <= k < |servers| ==>
           servers[k].Value() ==
             if FirstAt(v, u) < |v| && servers[k] == servers[FirstAt(v, u)] then v[k].(healthy := up) else v[k]
    }

    /** The same for the counter, which moved by `d`. */
    ghost predicate Counted(v: seq<Server>, u: Url, d: int)
      reads this, servers
    {
      && |servers| == |v|
      && forall k :: 0 <= k < |servers| ==>
           servers[k].Value() ==
             if FirstAt(v, u) < |v| && servers[k] == servers[FirstAt(v, u)] then v[k].(conns := v[k].conns + d) else v[k]
    }

    ghost predicate Discounted(v: seq<Server>, u: Url, d: int)
      reads this, servers
    {
      && |servers| == |v|
      && forall k :: 0 <= k < |servers| ==>
           servers[k].Value() ==
             if FirstAt(v, u) < |v| && servers[k] == servers[FirstAt(v, u)] then v[k].(conns := v[k].conns - d) else v[k]
    }

    lemma FlaggedShows(v: seq<Server>, u: Url, up: bool)
      requires Flagged(v, u, up)
      ensures forall p :: ViewOf(p) == v && SharesAs(p) ==> Shows(MarkShared(p, u, up))
    {
      forall p | ViewOf(p) == v && SharesAs(p)
        ensures Shows(MarkShared(p, u, up))
      {
        assert ViewOf(MarkShared(p, u, up)) == View();
      }
    }

    lemma FlaggedView(v: seq<Server>, u: Url, up: bool)
      requires Flagged(v, u, up) && Distinct()
      ensures View() == Mark(v, u, up)
    {
    }

    lemma CountedShows(v: seq<Server>, u: Url, d: int)
      requires Counted(v, u, d)
      ensures forall p :: ViewOf(p) == v && SharesAs(p) ==> Shows(AddShared(p, u, d))
    {
      forall p | ViewOf(p) == v && SharesAs(p)
        ensures Shows(AddShared(p, u, d))
      {
        assert ViewOf(AddShared(p, u, d)) == View();
      }
    }

    lemma CountedView(v: seq<Server>, u: Url, d: int)
      requires Counted(v, u, d) && Distinct()
      ensures View() == AddConns(v, u, d)
    {
    }

    lemma DiscountedShows(v: seq<Server>, u: Url, d: int)
      requires Discounted(v, u, d)
      ensures forall p :: ViewOf(p) == v && SharesAs(p) ==> Shows(RemoveShared(p, u, d))
    {
      forall p | ViewOf(p) == v && SharesAs(p)
        ensures Shows(RemoveShared(p, u, d))
      {
        assert ViewOf(RemoveShared(p, u, d)) == View();
      }
    }

    lemma DiscountedView(v: seq<Server>, u: Url, d: int)
      requires Discounted(v, u, d) && Distinct()
      ensures View() == AddConns(v, u, -d)
    {
    }

    /** Sets the flag of the first entry with this URL; other entries keep every field. */
    method MarkHealthy(u: Url, up: bool)
      modifies servers
      ensures Flagged(old(View()), u, up)
      ensures Distinct() ==> View() == Mark(old(View()), u, up)
      ensures forall p :: old(Shows(p)) ==> Shows(MarkShared(p, u, up))
    {
      ghost var v := View();
      for i := 0 to |servers|
        invariant View() == v
        invariant forall k :: 0 <= k < i ==> v[k].url != u
      {
        if servers[i].url == u {
          assert v[i].url == u && FirstAt(v, u) == i;
          servers[i].healthy := up;
          break;
        }
      }
      assert Flagged(v, u, up);
      FlaggedShows(v, u, up);
      if Distinct() {
        FlaggedView(v, u, up);
      }
    }

    method AddConnections(u: Url, connections: int)
      modifies servers
      ensures Counted(old(View()), u, connections)
      ensures Distinct() ==> View() == AddConns(old(View()), u, connections)
      ensures forall p :: old(Shows(p)) ==> Shows(AddShared(p, u, connections))
    {
      ghost var v := View();
      for i := 0 to |servers|
        invariant View() == v
        invariant forall k :: 0 <= k < i ==> v[k].url != u
      {
        if servers[i].url == u {
          assert v[i].url == u && FirstAt(v, u) == i;
          servers[i].conns := servers[i].conns + connections;
          break;
        }
      }
      assert Counted(v, u, connections);
      CountedShows(v, u, connections);
      if Distinct() {
        CountedView(v, u, connections);
      }
    }

    method RemoveConnections(u: Url, connections: int)
      modifies servers
      ensures Discounted(old(View()), u, connections)
      ensures Distinct() ==> View() == AddConns(old(View()), u, -connections)
      ensures forall p :: old(Shows(p)) ==> Shows(RemoveShared(p, u, connections))
    {
      ghost var v := View();
      for i := 0 to |servers|
        invariant View() == v
        invariant forall k :: 0 <= k < i ==> v[k].url != u
      {
        if servers[i].url == u {
          assert v[i].url == u && FirstAt(v, u) == i;
          servers[i].conns := servers[i].conns - connections;
          break;
        }
      }
      assert Discounted(v, u, connections);
      DiscountedShows(v, u, connections);
      if Distinct() {
        DiscountedView(v, u, connections);
      }
    }

    // ---------- Reconciliation ----------

    /** The map holds, for every URL known in scope, the last entry that has it. */
    ghost predicate Indexed(existing: map<Url, ServerState>, v: seq<Server>, scope: Option<string>)
      requires |v| <= |servers|
      reads this
    {
      forall u :: if u in existing then LastAt(v, scope, u) < |v| && servers[LastAt(v, scope, u)] == existing[u]
                  else LastAt(v, scope, u) == |v|
    }

    /** The map of known entries in scope; a later entry with the same URL replaces an earlier one. */
    method Known(scope: Option<string>) returns (existing: map<Url, ServerState>)
      ensures Indexed(existing, View(), scope)
    {
      existing := map[];
      for i := 0 to |servers|
        invariant Indexed(existing, View()[..i], scope)
      {
        var s := servers[i];
        forall u
          ensures LastAt(View()[..i + 1], scope, u)
               == if InScope(View()[i], scope) && View()[i].url == u then i
                  else if LastAt(View()[..i], scope, u) == i then i + 1 else LastAt(View()[..i], scope, u)
        {
          LastAtSnoc(View(), i, scope, u);
        }
        if InScope(s.Value(), scope) {
          existing := existing[s.url := s];
        }
      }
      assert View()[..|servers|] == View();
    }

    lemma IndexedEntries(existing: map<Url, ServerState>, scope: Option<string>)
      requires Indexed(existing, View(), scope)
      ensures forall u :: u in existing ==> existing[u] in servers && existing[u].url == u && From(existing[u], scope)
    {
      forall u | u in existing
        ensures existing[u] in servers && existing[u].url == u && From(existing[u], scope)
      {
        var k := LastAt(View(), scope, u);
        assert View()[k] == servers[k].Value();
      }
    }

    /** The entries a scoped sync leaves alone, in their order. */
    method Untouched(scope: Option<string>) returns (kept: seq<ServerState>)
      ensures Values(kept) == Others(View(), scope)
      ensures forall s :: s in kept ==> s in servers && !From(s, scope)
      ensures Distinct() ==> NoDup(kept)
      ensures Slotted(servers, kept, OthersAt(View(), scope))
    {
      kept := [];
      ghost var v := View();
      for i := 0 to |servers|
        invariant Slotted(servers, kept, OthersAt(v[..i], scope))
      {
        var s := servers[i];
        OthersAtSnoc(v, i, scope);
        if !InScope(s.Value(), scope) {
          SlottedSnoc(servers, kept, OthersAt(v[..i], scope), i);
          kept := kept + [s];
        }
      }
      assert v[..|servers|] == v;
      KeptEntries(kept, v, OthersAt(v, scope), scope);
    }

    lemma KeptEntries(kept: seq<ServerState>, v: seq<Server>, at: seq<nat>, scope: Option<string>)
      requires v == View() && at == OthersAt(v, scope) && Slotted(servers, kept, at)
      ensures Values(kept) == Others(v, scope)
      ensures forall s :: s in kept ==> s in servers && !From(s, scope)
      ensures Distinct() ==> NoDup(kept)
    {
      OthersIsAt(v, scope);
      OthersAtAscends(v, scope);
      forall m | 0 <= m < |kept|
        ensures kept[m].Value() == Others(v, scope)[m] && kept[m] in servers && !From(kept[m], scope)
      {
        assert v[at[m]] == servers[at[m]].Value();
      }
      if Distinct() {
        NoDupPicked(servers, at, kept);
      }
    }

    /** One entry per listed URL: the known one, no longer draining, or a fresh one. */
    method ListActive(existing: map<Url, ServerState>, urls: seq<Url>, weight: int, tag: string)
      returns (listed: seq<ServerState>)
      requires forall u :: u in existing ==> existing[u].url == u
      modifies existing.Values
      ensures |listed| == |urls|
      ensures forall t :: 0 <= t < |urls| ==>
                listed[t].url == urls[t]
                && (if urls[t] in existing
                    then listed[t] == existing[urls[t]]
                    else fresh(listed[t]) && listed[t].Value() == Server(urls[t], weight, true, 0, false, tag))
      ensures forall u :: u in existing ==>
                existing[u].Value() ==
                  if u in urls then old(existing[u].Value()).(draining := false) else old(existing[u].Value())
      ensures forall s, t :: 0 <= s < t < |urls| && urls[s] !in existing && urls[t] !in existing ==> listed[s] != listed[t]
    {
      listed := [];
      for i := 0 to |urls|
        invariant |listed| == i
        invariant forall t :: 0 <= t < i ==>
                listed[t].url == urls[t]
                && (if urls[t] in existing
                    then listed[t] == existing[urls[t]]
                    else fresh(listed[t]) && listed[t].Value() == Server(urls[t], weight, true, 0, false, tag))
        invariant forall u :: u in existing ==>
                existing[u].Value() ==
                  if u in urls[..i] then old(existing[u].Value()).(draining := false) else old(existing[u].Value())
        invariant forall s, t :: 0 <= s < t < i && urls[s] !in existing && urls[t] !in existing ==> listed[s] != listed[t]
      {
        var u := urls[i];
        assert urls[..i + 1] == urls[..i] + [u];
        if u in existing {
          existing[u].draining := false;
          listed := listed + [existing[u]];
        } else {
          var s := new ServerState(u, weight, tag);
          listed := listed + [s];
        }
      }
      assert urls[..|urls|] == urls;
    }

    /** Draining touches none of these. */
    ghost predicate SameApart(v: seq<Server>)
      reads `servers, servers`conns
    {
      && |servers| == |v|
      && (forall k :: 0 <= k < |v| ==>
            servers[k].conns == v[k].conns && servers[k].url == v[k].url
            && servers[k].weight == v[k].weight && servers[k].source == v[k].source)
    }

    /** The entries at these positions are collected and flagged. */
    ghost predicate Collected(at: seq<nat>, leaving: seq<ServerState>)
      reads `servers, leaving`healthy, leaving`draining
    {
      && |leaving| == |at|
      && (forall m :: 0 <= m < |at| ==> at[m] < |servers| && leaving[m] == servers[at[m]])
      && (forall m :: 0 <= m < |leaving| ==> leaving[m].draining && !leaving[m].healthy)
    }

    /** Entries that do not linger have the flags they had. */
    ghost predicate Unflagged(v: seq<Server>, scope: Option<string>, active: set<Url>)
      requires |v| == |servers|
      reads `servers, servers`healthy, servers`draining
    {
      forall k :: 0 <= k < |v| && !Lingers(v[k], scope, active) ==>
        servers[k].draining == v[k].draining && servers[k].healthy == v[k].healthy
    }

    method DrainIfMissing(i: nat, scope: Option<string>, active: set<Url>, soFar: seq<ServerState>,
                          ghost v: seq<Server>, ghost at: seq<nat>)
      returns (leaving: seq<ServerState>)
      requires i < |servers| && SameApart(v) && Unflagged(v, scope, active) && Collected(at, soFar)
      modifies servers`draining, servers`healthy
      ensures SameApart(v) && Unflagged(v, scope, active)
      ensures Collected(if Lingers(v[i], scope, active) then at + [i] else at, leaving)
    {
      leaving := soFar;
      var s := servers[i];
      if InScope(s.Value(), scope) && s.url !in active {
        if s.conns > 0 {
          s.draining := true;
          s.healthy := false;
          leaving := leaving + [s];
        }
      }
    }

    lemma DrainingDone(v: seq<Server>, scope: Option<string>, active: set<Url>, leaving: seq<ServerState>)
      requires DrainedUpTo(v, |v|, scope, active, leaving)
      ensures Values(leaving) == Leaving(v, scope, active)
      ensures forall k :: 0 <= k < |v| && Stays(servers[k], scope, active) ==> servers[k].Value() == v[k]
      ensures forall s :: s in leaving ==> s in servers && !Stays(s, scope, active)
      ensures Distinct() ==> NoDup(leaving)
      ensures Slotted(servers, leaving, LeavingAt(v, scope, active))
    {
      assert v[..|v|] == v;
      LeavingIsAt(v, scope, active);
      LeavingAtAscends(v, scope, active);
      if Distinct() {
        NoDupPicked(servers, LeavingAt(v, scope, active), leaving);
      }
    }

    /** Entries that left discovery: kept as draining while requests are in flight, else dropped. */
    method DrainMissing(scope: Option<string>, active: set<Url>) returns (leaving: seq<ServerState>)
      modifies servers`draining, servers`healthy
      ensures Values(leaving) == Leaving(old(View()), scope, active)
      ensures forall k :: 0 <= k < |servers| && Stays(servers[k], scope, active) ==> servers[k].Value() == old(View())[k]
      ensures forall s :: s in leaving ==> s in servers && !Stays(s, scope, active)
      ensures Distinct() ==> NoDup(leaving)
      ensures Slotted(servers, leaving, LeavingAt(old(View()), scope, active))
    {
      ghost var v := View();
      leaving := DrainAll(scope, active, v);
      DrainingDone(v, scope, active, leaving);
    }

    /** The first `i` entries of slice `v` are dealt with. */
    ghost predicate DrainedUpTo(v: seq<Server>, i: nat, scope: Option<string>, active: set<Url>, leaving: seq<ServerState>)
      reads this, servers, leaving
    {
      && i <= |v| && SameApart(v) && Unflagged(v, scope, active)
      && Collected(LeavingAt(v[..i], scope, active), leaving)
    }

    method DrainNext(i: nat, scope: Option<string>, active: set<Url>, soFar: seq<ServerState>, ghost v: seq<Server>)
      returns (leaving: seq<ServerState>)
      requires i < |servers| && DrainedUpTo(v, i, scope, active, soFar)
      modifies servers`draining, servers`healthy
      ensures DrainedUpTo(v, i + 1, scope, active, leaving)
    {
      LeavingAtSnoc(v, i, scope, active);
      leaving := DrainIfMissing(i, scope, active, soFar, v, LeavingAt(v[..i], scope, active));
    }

    method DrainAll(scope: Option<string>, active: set<Url>, ghost v: seq<Server>) returns (leaving: seq<ServerState>)
      requires v == View()
      modifies servers`draining, servers`healthy
      ensures DrainedUpTo(v, |v|, scope, active, leaving)
    {
      leaving := [];
      for i := 0 to |servers|
        invariant DrainedUpTo(v, i, scope, active, leaving)
      {
        leaving := DrainNext(i, scope, active, leaving, v);
      }
    }

    /** Nothing but the draining flag of listed entries changed. */
    ghost predicate Relisted(v: seq<Server>, scope: Option<string>, active: set<Url>)
      reads this, servers
    {
      |servers| == |v| && forall k :: 0 <= k < |v| ==> RelistedAt(v, k, scope, active)
    }

    ghost predicate RelistedAt(v: seq<Server>, k: nat, scope: Option<string>, active: set<Url>)
      requires k < |v| == |servers|
      reads this, servers
    {
      || servers[k].Value() == v[k]
      || (v[k].url in active && InScope(v[k], scope) && servers[k].Value() == v[k].(draining := false))
    }

    lemma RelistedKept(v: seq<Server>, kept: seq<ServerState>, scope: Option<string>, active: set<Url>)
      requires Relisted(v, scope, active) && Slotted(servers, kept, OthersAt(v, scope))
      ensures Values(kept) == Others(v, scope)
    {
      OthersIsAt(v, scope);
      forall m | 0 <= m < |kept|
        ensures kept[m].Value() == Others(v, scope)[m]
      {
        assert RelistedAt(v, OthersAt(v, scope)[m], scope, active);
      }
    }

    lemma RelistedLeaving(v: seq<Server>, scope: Option<string>, active: set<Url>)
      requires Relisted(v, scope, active)
      ensures Leaving(View(), scope, active) == Leaving(v, scope, active)
      ensures LeavingAt(View(), scope, active) == LeavingAt(v, scope, active)
    {
      forall k | 0 <= k < |v|
        ensures View()[k] == v[k] || (v[k].url in active && View()[k] == v[k].(draining := false))
      {
        assert RelistedAt(v, k, scope, active);
      }
      LeavingIgnoresListed(v, View(), scope, active);
    }

    /** Per listed URL the entry the map has, or one the old slice does not. */
    ghost predicate Picked(existing: map<Url, ServerState>, listed: seq<ServerState>, urls: seq<Url>)
      reads this
    {
      && |listed| == |urls|
      && (forall t :: 0 <= t < |urls| ==>
            if urls[t] in existing then listed[t] == existing[urls[t]] else listed[t] !in servers)
      && (forall s, t :: 0 <= s < t < |urls| && urls[s] !in existing && urls[t] !in existing ==> listed[s] != listed[t])
    }

    lemma ListedSlotted(existing: map<Url, ServerState>, v: seq<Server>, listed: seq<ServerState>,
                        scope: Option<string>, urls: seq<Url>)
      requires |v| == |servers| && Indexed(existing, v, scope) && Picked(existing, listed, urls)
      ensures Slotted(servers, listed, ListedAt(v, scope, urls))
    {
    }

    lemma ListedValues(existing: map<Url, ServerState>, v: seq<Server>, listed: seq<ServerState>,
                       scope: Option<string>, urls: seq<Url>, weight: int)
      requires |v| == |servers| && Indexed(existing, v, scope) && |listed| == |urls|
      requires forall t :: 0 <= t < |urls| ==>
                 listed[t].Value() == if urls[t] in existing then v[LastAt(v, scope, urls[t])].(draining := false)
                                      else Server(urls[t], weight, true, 0, false, TagOf(scope))
      ensures Values(listed) == Listed(v, scope, urls, weight)
    {
      forall t | 0 <= t < |urls|
        ensures listed[t].Value() == ListedOne(v, scope, urls[t], weight)
      {
        FindIsLast(v, scope, urls[t]);
      }
    }

    /** The listed part of the new slice; only the draining flag of listed known entries changes. */
    method ListScope(scope: Option<string>, urls: seq<Url>, weight: int) returns (listed: seq<ServerState>)
      modifies servers
      ensures Values(listed) == Listed(old(View()), scope, urls, weight)
      ensures forall s :: s in listed ==> (s in servers || fresh(s)) && s.url in UrlSet(urls) && From(s, scope)
      ensures NoDup(urls) ==> NoDup(listed)
      ensures Relisted(old(View()), scope, UrlSet(urls))
      ensures Slotted(servers, listed, ListedAt(old(View()), scope, urls))
    {
      var existing := Known(scope);
      IndexedEntries(existing, scope);
      ghost var v := View();
      listed := ListActive(existing, urls, weight, TagOf(scope));
      forall k | 0 <= k < |v|
        ensures RelistedAt(v, k, scope, UrlSet(urls))
      {
        if servers[k] in existing.Values {
          var u :| u in existing && existing[u] == servers[k];
        }
      }
      ListedValues(existing, v, listed, scope, urls, weight);
      ListedSlotted(existing, v, listed, scope, urls);
    }

    /** The untouched entries followed by the listed ones. */
    method KeepAndList(scope: Option<string>, urls: seq<Url>, weight: int) returns (front: seq<ServerState>)
      modifies servers
      ensures Values(front) == Others(old(View()), scope) + Listed(old(View()), scope, urls, weight)
      ensures forall s :: s in front ==> (s in servers || fresh(s)) && Stays(s, scope, UrlSet(urls))
      ensures Relisted(old(View()), scope, UrlSet(urls))
      ensures Distinct() && NoDup(urls) ==> NoDup(front)
      ensures Slotted(servers, front, OthersAt(old(View()), scope) + ListedAt(old(View()), scope, urls))
    {
      var kept := Untouched(scope);
      ghost var v := View();
      var listed := ListScope(scope, urls, weight);
      RelistedKept(v, kept, scope, UrlSet(urls));
      ValuesConcat(kept, listed);
      SlottedConcat(servers, kept, OthersAt(old(View()), scope), listed, ListedAt(old(View()), scope, urls));
      front := kept + listed;
      if Distinct() && NoDup(urls) {
        NoDupConcat(kept, listed);
      }
    }

    method Replace(scope: Option<string>, urls: seq<Url>, weight: int)
      modifies this, servers
      ensures View() == Reconcile(old(View()), scope, urls, weight)
      ensures forall s :: s in servers ==> s in old(servers) || fresh(s)
      ensures old(Distinct()) && NoDup(urls) ==> Distinct()
      ensures Slotted(old(servers), servers, Places(old(View()), scope, urls))
    {
      var front := KeepAndList(scope, urls, weight);
      ghost var shown := Values(front);
      RelistedLeaving(old(View()), scope, UrlSet(urls));
      ghost var mid := View();
      var leaving := DrainMissing(scope, UrlSet(urls));
      forall k | 0 <= k < |front|
        ensures front[k].Value() == shown[k]
      {
        assert front[k] in front;
        if front[k] in servers {
          var j :| 0 <= j < |servers| && servers[j] == front[k];
          assert mid[j] == shown[k];
        }
      }
      ValuesAre(front, shown);
      assert Values(leaving) == Leaving(mid, scope, UrlSet(urls));
      ValuesConcat(front, leaving);
      SlottedConcat(servers, front, OthersAt(old(View()), scope) + ListedAt(old(View()), scope, urls),
                    leaving, LeavingAt(old(View()), scope, UrlSet(urls)));
      servers := front + leaving;
      if old(Distinct()) && NoDup(urls) {
        NoDupConcat(front, leaving);
      }
    }

    lemma ShowsSynced(p: Shared, before: seq<ServerState>, v: seq<Server>, scope: Option<string>, urls: seq<Url>, weight: int)
      requires ViewOf(p) == v && |before| == |v| && forall k :: 0 <= k < |v| ==> p.slots[k].id < p.next
      requires forall j, k :: 0 <= j < |v| && 0 <= k < |v| ==>
                 (p.slots[j].id == p.slots[k].id <==> before[j] == before[k])
      requires View() == Reconcile(v, scope, urls, weight) && Slotted(before, servers, Places(v, scope, urls))
      ensures Shows(SyncShared(p, scope, urls, weight))
    {
      var q, at := SyncShared(p, scope, urls, weight), Places(v, scope, urls);
      PlacesMatch(v, scope, urls, weight);
      forall k | 0 <= k < |servers|
        ensures q.slots[k].s == servers[k].Value() && q.slots[k].id < q.next
        ensures q.slots[k].id == if at[k] < |v| then p.slots[at[k]].id else p.next + k
      {
        assert View()[k] == servers[k].Value();
      }
    }

    /** Reconciles the whole pool with a discovered list. */
    method SyncServers(urls: seq<Url>, weight: int)
      modifies this, servers
      ensures View() == Reconcile(old(View()), None, urls, weight)
      ensures forall s :: s in servers ==> s in old(servers) || fresh(s)
      ensures old(Distinct()) && NoDup(urls) ==> Distinct()
      ensures forall p :: old(Shows(p)) ==> Shows(SyncShared(p, None, urls, weight))
    {
      ghost var before, v := servers, View();
      Replace(None, urls, weight);
      forall p | old(Shows(p))
        ensures Shows(SyncShared(p, None, urls, weight))
      {
        ShowsSynced(p, before, v, None, urls, weight);
      }
    }

    /** Reconciles the entries of one discovery source. */
    method SyncServersBySource(tag: string, urls: seq<Url>, weight: int)
      modifies this, servers
      ensures View() == Reconcile(old(View()), Some(tag), urls, weight)
      ensures forall s :: s in servers ==> s in old(servers) || fresh(s)
      ensures old(Distinct()) && NoDup(urls) ==> Distinct()
      ensures forall p :: old(Shows(p)) ==> Shows(SyncShared(p, Some(tag), urls, weight))
    {
      ghost var before, v := servers, View();
      Replace(Some(tag), urls, weight);
      forall p | old(Shows(p))
        ensures Shows(SyncShared(p, Some(tag), urls, weight))
      {
        ShowsSynced(p, before, v, Some(tag), urls, weight);
      }
    }
  }

  /** What leaves depends only on entries that are not listed. */
  lemma {:induction false} LeavingIgnoresListed(v: seq<Server>, w: seq<Server>, scope: Option<string>, urls: set<Url>)
    requires |v| == |w|
    requires forall k :: 0 <= k < |v| ==> w[k] == v[k] || (v[k].url in urls && w[k] == v[k].(draining := false))
    ensures Leaving(v, scope, urls) == Leaving(w, scope, urls)
    ensures LeavingAt(v, scope, urls) == LeavingAt(w, scope, urls)
  {
    if v != [] {
      LeavingIgnoresListed(v[..|v| - 1], w[..|w| - 1], scope, urls);
    }
  }
}
