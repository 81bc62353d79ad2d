/** What a reconciliation keeps: counts, identity of entries, other sources, and itself on repetition. */
module PoolLaws {
  import opened Common
  import opened Pool

  // ---------- Entry identity ----------

  /** An entry is known by its URL, or by its URL within its source. */
  function Key(s: Server, bySource: bool): (Url, string) {
    (s.url, if bySource then s.source else "")
  }

  ghost predicate Unique(v: seq<Server>, bySource: bool) {
    forall i, j :: 0 <= i < j < |v| ==> Key(v[i], bySource) != Key(v[j], bySource)
  }

  ghost predicate UniqueIn(v: seq<Server>, scope: Option<string>) {
    forall i, j :: 0 <= i < j < |v| && InScope(v[i], scope) && InScope(v[j], scope) ==> v[i].url != v[j].url
  }

  ghost predicate NonNegative(v: seq<Server>) {
    forall k :: 0 <= k < |v| ==> v[k].conns >= 0
  }

  function Total(v: seq<Server>): int {
    if v == [] then 0 else Total(v[..|v| - 1]) + v[|v| - 1].conns
  }

  /** Connections of the entry a sync would keep for this URL. */
  function ConnsOf(v: seq<Server>, scope: Option<string>, u: Url): int {
    match Find(v, scope, u) case Some(s) => s.conns case None => 0
  }

  // ---------- Filters over concatenation and membership ----------

  lemma WithinSnoc(v: seq<Server>, s: Server, scope: Option<string>)
    ensures Within(v + [s], scope) == if InScope(s, scope) then Within(v, scope) + [s] else Within(v, scope)
  {
    assert (v + [s])[..|v|] == v;
  }

  lemma TotalSnoc(v: seq<Server>, s: Server)
    ensures Total(v + [s]) == Total(v) + s.conns
  {
    assert (v + [s])[..|v|] == v;
  }

  lemma {:induction false} WithinConcat(a: seq<Server>, b: seq<Server>, scope: Option<string>)
    ensures Within(a + b, scope) == Within(a, scope) + Within(b, scope)
    decreases |b|
  {
    if b == [] {
      assert a + b == a;
    } else {
      assert (a + b)[..|a + b| - 1] == a + b[..|b| - 1];
      WithinConcat(a, b[..|b| - 1], scope);
    }
  }

  lemma {:induction false} OthersConcat(a: seq<Server>, b: seq<Server>, scope: Option<string>)
    ensures Others(a + b, scope) == Others(a, scope) + Others(b, scope)
    decreases |b|
  {
    if b == [] {
      assert a + b == a;
    } else {
      assert (a + b)[..|a + b| - 1] == a + b[..|b| - 1];
      OthersConcat(a, b[..|b| - 1], scope);
    }
  }

  lemma {:induction false} LeavingConcat(a: seq<Server>, b: seq<Server>, scope: Option<string>, urls: set<Url>)
    ensures Leaving(a + b, scope, urls) == Leaving(a, scope, urls) + Leaving(b, scope, urls)
    decreases |b|
  {
    if b == [] {
      assert a + b == a;
    } else {
      assert (a + b)[..|a + b| - 1] == a + b[..|b| - 1];
      LeavingConcat(a, b[..|b| - 1], scope, urls);
    }
  }

  lemma {:induction false} FindConcat(a: seq<Server>, b: seq<Server>, scope: Option<string>, u: Url)
    ensures Find(a + b, scope, u) == if Find(b, scope, u).Some? then Find(b, scope, u) else Find(a, scope, u)
    decreases |b|
  {
    if b == [] {
      assert a + b == a;
    } else {
      assert (a + b)[..|a + b| - 1] == a + b[..|b| - 1];
      FindConcat(a, b[..|b| - 1], scope, u);
    }
  }

  lemma {:induction false} TotalConcat(a: seq<Server>, b: seq<Server>)
    ensures Total(a + b) == Total(a) + Total(b)
    decreases |b|
  {
    if b == [] {
      assert a + b == a;
    } else {
      assert (a + b)[..|a + b| - 1] == a + b[..|b| - 1];
      TotalConcat(a, b[..|b| - 1]);
    }
  }

  lemma {:induction false} OthersMembers(v: seq<Server>, scope: Option<string>)
    ensures forall s :: s in Others(v, scope) <==> s in v && !InScope(s, scope)
  {
    if v != [] {
      OthersMembers(v[..|v| - 1], scope);
      assert v == v[..|v| - 1] + [v[|v| - 1]];
    }
  }

  lemma {:induction false} WithinMembers(v: seq<Server>, scope: Option<string>)
    ensures forall s :: s in Within(v, scope) <==> s in v && InScope(s, scope)
  {
    if v != [] {
      WithinMembers(v[..|v| - 1], scope);
      assert v == v[..|v| - 1] + [v[|v| - 1]];
    }
  }

  lemma {:induction false} LeavingMembers(v: seq<Server>, scope: Option<string>, urls: set<Url>)
    ensures forall s :: s in v && Lingers(s, scope, urls) ==> Drained(s) in Leaving(v, scope, urls)
    ensures forall d :: d in Leaving(v, scope, urls) ==> exists s :: s in v && Lingers(s, scope, urls) && d == Drained(s)
  {
    if v != [] {
      LeavingMembers(v[..|v| - 1], scope, urls);
      assert v == v[..|v| - 1] + [v[|v| - 1]];
    }
  }

  lemma {:induction false} AllInScope(v: seq<Server>, scope: Option<string>)
    requires forall s :: s in v ==> InScope(s, scope)
    ensures Others(v, scope) == [] && Within(v, scope) == v
  {
    if v != [] {
      AllInScope(v[..|v| - 1], scope);
      assert v == v[..|v| - 1] + [v[|v| - 1]];
    }
  }

  lemma {:induction false} NoneInScope(v: seq<Server>, scope: Option<string>)
    requires forall s :: s in v ==> !InScope(s, scope)
    ensures Others(v, scope) == v && Within(v, scope) == []
  {
    if v != [] {
      NoneInScope(v[..|v| - 1], scope);
      assert v == v[..|v| - 1] + [v[|v| - 1]];
    }
  }

  lemma {:induction false} NoneLingers(v: seq<Server>, scope: Option<string>, urls: set<Url>)
    requires forall s :: s in v ==> !Lingers(s, scope, urls)
    ensures Leaving(v, scope, urls) == []
  {
    if v != [] {
      NoneLingers(v[..|v| - 1], scope, urls);
    }
  }

  lemma {:induction false} AllLinger(v: seq<Server>, scope: Option<string>, urls: set<Url>)
    requires forall s :: s in v ==> Lingers(s, scope, urls) && Drained(s) == s
    ensures Leaving(v, scope, urls) == v
  {
    if v != [] {
      AllLinger(v[..|v| - 1], scope, urls);
      assert v == v[..|v| - 1] + [v[|v| - 1]];
    }
  }

  /** Where every entry of a reconciled slice comes from. */
  lemma Origins(v: seq<Server>, scope: Option<string>, urls: seq<Url>, weight: int)
    ensures forall s :: s in Others(v, scope) ==> !InScope(s, scope) && s in v
    ensures forall s :: s in Listed(v, scope, urls, weight) ==>
              InScope(s, scope) && s.url in urls && !s.draining && s == ListedOne(v, scope, s.url, weight)
    ensures forall d :: d in Leaving(v, scope, UrlSet(urls)) ==>
              InScope(d, scope) && d.url !in urls && d.draining && !d.healthy && d.conns > 0
  {
    OthersMembers(v, scope);
    LeavingMembers(v, scope, UrlSet(urls));
  }

  // ---------- Idempotence ----------

  lemma {:induction false} FindListed(v: seq<Server>, scope: Option<string>, urls: seq<Url>, weight: int, u: Url)
    ensures Find(Listed(v, scope, urls, weight), scope, u)
         == if u in urls then Some(ListedOne(v, scope, u, weight)) else None
    decreases |urls|
  {
    if urls != [] {
      var urls' := urls[..|urls| - 1];
      var l := Listed(v, scope, urls, weight);
      assert l[..|l| - 1] == Listed(v, scope, urls', weight);
      FindListed(v, scope, urls', weight, u);
      assert urls == urls' + [urls[|urls| - 1]];
    }
  }

  lemma SplitOthers(o: seq<Server>, i: seq<Server>, scope: Option<string>)
    requires forall s :: s in o ==> !InScope(s, scope)
    requires forall s :: s in i ==> InScope(s, scope)
    ensures Others(o + i, scope) == o && Within(o + i, scope) == i
  {
    OthersConcat(o, i, scope);
    WithinConcat(o, i, scope);
    NoneInScope(o, scope);
    AllInScope(i, scope);
  }

  lemma SplitLeaving(o: seq<Server>, d: seq<Server>, scope: Option<string>, urls: set<Url>)
    requires forall s :: s in o ==> !Lingers(s, scope, urls)
    requires forall s :: s in d ==> Lingers(s, scope, urls) && Drained(s) == s
    ensures Leaving(o + d, scope, urls) == d
  {
    LeavingConcat(o, d, scope, urls);
    NoneLingers(o, scope, urls);
    AllLinger(d, scope, urls);
  }

  /** Reading a reconciled slice back: its three parts. */
  lemma PartsOf(v: seq<Server>, scope: Option<string>, urls: seq<Url>, weight: int)
    ensures Others(Reconcile(v, scope, urls, weight), scope) == Others(v, scope)
    ensures Within(Reconcile(v, scope, urls, weight), scope)
         == Listed(v, scope, urls, weight) + Leaving(v, scope, UrlSet(urls))
    ensures Leaving(Reconcile(v, scope, urls, weight), scope, UrlSet(urls)) == Leaving(v, scope, UrlSet(urls))
  {
    var o, l, d := Others(v, scope), Listed(v, scope, urls, weight), Leaving(v, scope, UrlSet(urls));
    Origins(v, scope, urls, weight);
    assert o + l + d == o + (l + d);
    SplitOthers(o, l + d, scope);
    SplitLeaving(o + l, d, scope, UrlSet(urls));
  }

  lemma FindReconciled(v: seq<Server>, scope: Option<string>, urls: seq<Url>, weight: int, u: Url)
    ensures Find(Reconcile(v, scope, urls, weight), scope, u)
         == if u in urls then Some(ListedOne(v, scope, u, weight)) else Find(Leaving(v, scope, UrlSet(urls)), scope, u)
  {
    var o, l, d := Others(v, scope), Listed(v, scope, urls, weight), Leaving(v, scope, UrlSet(urls));
    Origins(v, scope, urls, weight);
    FindConcat(o, l, scope, u);
    FindConcat(o + l, d, scope, u);
    FindListed(v, scope, urls, weight, u);
  }

  /** A sync repeated with the same list changes nothing: no entry, no field, no position. */
  lemma ReconcileIdempotent(v: seq<Server>, scope: Option<string>, urls: seq<Url>, weight: int)
    ensures var r := Reconcile(v, scope, urls, weight); Reconcile(r, scope, urls, weight) == r
  {
    var r := Reconcile(v, scope, urls, weight);
    PartsOf(v, scope, urls, weight);
    forall t | 0 <= t < |urls|
      ensures ListedOne(r, scope, urls[t], weight) == ListedOne(v, scope, urls[t], weight)
    {
      FindReconciled(v, scope, urls, weight, urls[t]);
    }
    assert Listed(r, scope, urls, weight) == Listed(v, scope, urls, weight);
  }

  // ---------- Which entries a source ends up with ----------

  /** After a sync the scope holds every listed URL, not draining, and beyond those exactly the
      entries that still carry requests, draining and unhealthy; all with their old counts. */
  lemma ReconcilePartition(v: seq<Server>, scope: Option<string>, urls: seq<Url>, weight: int, s: Server)
    ensures s in Reconcile(v, scope, urls, weight) <==>
              || (s in v && !InScope(s, scope))
              || (s.url in urls && s == ListedOne(v, scope, s.url, weight))
              || (exists e :: e in v && InScope(e, scope) && e.url !in urls && e.conns > 0 && s == Drained(e))
    ensures s in Reconcile(v, scope, urls, weight) && InScope(s, scope) ==>
              if s.url in urls then !s.draining else s.draining && !s.healthy && s.conns > 0
  {
    Origins(v, scope, urls, weight);
    OthersMembers(v, scope);
    LeavingMembers(v, scope, UrlSet(urls));
    if s.url in urls && s == ListedOne(v, scope, s.url, weight) {
      var t :| 0 <= t < |urls| && urls[t] == s.url;
      assert Listed(v, scope, urls, weight)[t] == s;
    }
    if e :| e in v && InScope(e, scope) && e.url !in urls && e.conns > 0 && s == Drained(e) {
      assert Lingers(e, scope, UrlSet(urls));
    }
  }

  // ---------- The slice a sync leaves, place by place ----------

  /** First the entries of other sources, in their old order; then one per listed URL, in list order, the last
      known one no longer draining or a new one; then the unlisted ones with requests in flight, in their
      old order, draining and unhealthy. */
  lemma SyncOrder(v: seq<Server>, scope: Option<string>, urls: seq<Url>, weight: int)
    returns (kept: seq<nat>, left: seq<nat>)
    ensures forall k: nat :: k in kept <==> k < |v| && scope.Some? && v[k].source != scope.value
    ensures forall k: nat :: k in left <==>
              k < |v| && (scope.None? || v[k].source == scope.value) && v[k].url !in urls && v[k].conns > 0
    ensures forall m, n :: 0 <= m < n < |kept| ==> kept[m] < kept[n]
    ensures forall m, n :: 0 <= m < n < |left| ==> left[m] < left[n]
    ensures var r := Reconcile(v, scope, urls, weight);
            && |r| == |kept| + |urls| + |left|
            && (forall m :: 0 <= m < |kept| ==> kept[m] < |v| && r[m] == v[kept[m]])
            && (forall t :: 0 <= t < |urls| ==> ListedMeans(v, scope, urls[t], weight, r[|kept| + t]))
            && (forall m :: 0 <= m < |left| ==>
                  left[m] < |v| && r[|kept| + |urls| + m] == v[left[m]].(draining := true, healthy := false))
  {
    kept, left := OthersAt(v, scope), LeavingAt(v, scope, UrlSet(urls));
    OthersIsAt(v, scope);
    LeavingIsAt(v, scope, UrlSet(urls));
    OthersAtAscends(v, scope);
    LeavingAtAscends(v, scope, UrlSet(urls));
    OthersAtAll(v, scope);
    LeavingAtAll(v, scope, UrlSet(urls));
    var r := Reconcile(v, scope, urls, weight);
    forall t | 0 <= t < |urls|
      ensures ListedMeans(v, scope, urls[t], weight, r[|kept| + t])
    {
      assert r[|kept| + t] == ListedOne(v, scope, urls[t], weight);
      ListedOneMeans(v, scope, urls[t], weight);
    }
  }

  /** The last entry in scope with this URL, no longer draining; if there is none, a new one. */
  ghost predicate ListedMeans(v: seq<Server>, scope: Option<string>, u: Url, weight: int, s: Server) {
    || (exists k :: 0 <= k < |v| && v[k].url == u && (scope.None? || v[k].source == scope.value)
          && (forall j :: k < j < |v| && v[j].url == u ==> scope.Some? && v[j].source != scope.value)
          && s == v[k].(draining := false))
    || ((forall k :: 0 <= k < |v| && v[k].url == u ==> scope.Some? && v[k].source != scope.value)
        && s == Server(u, weight, true, 0, false, if scope.Some? then scope.value else ""))
  }

  lemma ListedOneMeans(v: seq<Server>, scope: Option<string>, u: Url, weight: int)
    ensures ListedMeans(v, scope, u, weight, ListedOne(v, scope, u, weight))
  {
    FindIsLast(v, scope, u);
    var k := LastAt(v, scope, u);
    if k < |v| {
      assert v[k].url == u && InScope(v[k], scope);
      assert forall j :: k < j < |v| && v[j].url == u ==> !InScope(v[j], scope);
    } else {
      assert forall j :: 0 <= j < |v| && v[j].url == u ==> !InScope(v[j], scope);
    }
  }

  lemma {:induction false} OthersAtAll(v: seq<Server>, scope: Option<string>)
    ensures forall k: nat :: k in OthersAt(v, scope) <==> k < |v| && !InScope(v[k], scope)
  {
    if v != [] {
      OthersAtAll(v[..|v| - 1], scope);
    }
  }

  lemma {:induction false} LeavingAtAll(v: seq<Server>, scope: Option<string>, urls: set<Url>)
    ensures forall k: nat :: k in LeavingAt(v, scope, urls) <==> k < |v| && Lingers(v[k], scope, urls)
  {
    if v != [] {
      LeavingAtAll(v[..|v| - 1], scope, urls);
    }
  }

  // ---------- Uniqueness ----------

  lemma {:induction false} FiltersUnique(v: seq<Server>, scope: Option<string>, urls: set<Url>, bySource: bool)
    requires Unique(v, bySource)
    ensures Unique(Others(v, scope), bySource) && Unique(Leaving(v, scope, urls), bySource)
  {
    if v != [] {
      var v' := v[..|v| - 1];
      FiltersUnique(v', scope, urls, bySource);
      OthersMembers(v', scope);
      LeavingMembers(v', scope, urls);
      assert forall s :: s in v' ==> Key(s, bySource) != Key(v[|v| - 1], bySource);
      forall d | d in Leaving(v', scope, urls)
        ensures Key(d, bySource) != Key(v[|v| - 1], bySource)
      {
        var s :| s in v' && Lingers(s, scope, urls) && d == Drained(s);
      }
    }
  }

  lemma UniqueConcat(a: seq<Server>, b: seq<Server>, bySource: bool)
    ensures Unique(a + b, bySource) <==>
              Unique(a, bySource) && Unique(b, bySource)
              && forall s, t :: s in a && t in b ==> Key(s, bySource) != Key(t, bySource)
  {
    var c := a + b;
    if Unique(c, bySource) {
      assert forall i :: 0 <= i < |a| ==> c[i] == a[i];
      assert forall j :: 0 <= j < |b| ==> c[|a| + j] == b[j];
      forall i, j | 0 <= i < j < |b|
        ensures Key(b[i], bySource) != Key(b[j], bySource)
      {
        assert c[|a| + i] == b[i] && c[|a| + j] == b[j];
      }
      forall s, t | s in a && t in b
        ensures Key(s, bySource) != Key(t, bySource)
      {
        var i :| 0 <= i < |a| && a[i] == s;
        var j :| 0 <= j < |b| && b[j] == t;
        assert c[i] == s && c[|a| + j] == t;
      }
    }
  }

  lemma ListedUnique(v: seq<Server>, scope: Option<string>, urls: seq<Url>, weight: int, bySource: bool)
    ensures Unique(Listed(v, scope, urls, weight), bySource) <==> NoDup(urls)
  {
    var l := Listed(v, scope, urls, weight);
    assert forall t :: 0 <= t < |urls| ==> l[t].url == urls[t];
    if !NoDup(urls) {
      var i, j :| 0 <= i < j < |urls| && urls[i] == urls[j];
      assert l[i] == l[j];
    }
  }

  /** Entries stay uniquely identified exactly when the list repeats no URL and, where the URL alone
      identifies an entry, lists none that another source holds. */
  lemma ReconcileUnique(v: seq<Server>, scope: Option<string>, urls: seq<Url>, weight: int, bySource: bool)
    requires Unique(v, bySource) && (bySource ==> scope.Some?)
    ensures Unique(Reconcile(v, scope, urls, weight), bySource) <==>
              NoDup(urls) && (bySource || forall s :: s in v && !InScope(s, scope) ==> s.url !in urls)
  {
    var o, l, d := Others(v, scope), Listed(v, scope, urls, weight), Leaving(v, scope, UrlSet(urls));
    Origins(v, scope, urls, weight);
    OthersMembers(v, scope);
    LeavingMembers(v, scope, UrlSet(urls));
    FiltersUnique(v, scope, UrlSet(urls), bySource);
    ListedUnique(v, scope, urls, weight, bySource);
    UniqueConcat(o, l, bySource);
    UniqueConcat(o + l, d, bySource);
    forall s, t | s in o && t in d
      ensures Key(s, bySource) != Key(t, bySource)
    {
      var e :| e in v && Lingers(e, scope, UrlSet(urls)) && t == Drained(e);
      assert s in v && s != e;
    }
    if !bySource && exists s :: s in v && !InScope(s, scope) && s.url in urls {
      var s :| s in v && !InScope(s, scope) && s.url in urls;
      var t :| 0 <= t < |urls| && urls[t] == s.url;
      assert s in o && l[t] in l && Key(s, bySource) == Key(l[t], bySource);
    }
  }

  // ---------- Conservation of in-flight connections ----------

  /** Connections counted again because the list repeats their URL. */
  function Surplus(v: seq<Server>, scope: Option<string>, urls: seq<Url>): int {
    if v == [] then 0
    else
      var s := v[|v| - 1];
      Surplus(v[..|v| - 1], scope, urls)
      + (if InScope(s, scope) && s.url in urls then (multiset(urls)[s.url] - 1) * s.conns else 0)
  }

  lemma ListedTotalSnoc(v: seq<Server>, scope: Option<string>, urls: seq<Url>, weight: int)
    requires urls != []
    ensures Total(Listed(v, scope, urls, weight))
         == Total(Listed(v, scope, urls[..|urls| - 1], weight)) + ConnsOf(v, scope, urls[|urls| - 1])
  {
    var l := Listed(v, scope, urls, weight);
    assert l[..|l| - 1] == Listed(v, scope, urls[..|urls| - 1], weight);
  }

  lemma ConnsOfSnoc(v: seq<Server>, s: Server, scope: Option<string>, u: Url)
    requires InScope(s, scope)
    ensures ConnsOf(v + [s], scope, u) == if u == s.url then s.conns else ConnsOf(v, scope, u)
  {
    assert (v + [s])[..|v|] == v;
  }

  lemma MultisetSnoc(urls: seq<Url>, u: Url)
    requires urls != []
    ensures multiset(urls)[u]
         == multiset(urls[..|urls| - 1])[u] + (if urls[|urls| - 1] == u then 1 else 0)
  {
    assert urls == urls[..|urls| - 1] + [urls[|urls| - 1]];
  }

  lemma OneMoreTime(m: int, c: int)
    ensures (m + 1) * c == m * c + c
  {
  }

  /** A new last entry of the slice shows up once for every time the list names it. */
  lemma {:induction false} ListedTotalStep(v: seq<Server>, s: Server, scope: Option<string>, urls: seq<Url>, weight: int, c: int)
    requires InScope(s, scope) && c == s.conns - ConnsOf(v, scope, s.url)
    ensures Total(Listed(v + [s], scope, urls, weight))
         == Total(Listed(v, scope, urls, weight)) + multiset(urls)[s.url] * c
    decreases |urls|
  {
    if urls != [] {
      ListedTotalSnoc(v, scope, urls, weight);
      ListedTotalSnoc(v + [s], scope, urls, weight);
      ListedTotalStep(v, s, scope, urls[..|urls| - 1], weight, c);
      ConnsOfSnoc(v, s, scope, urls[|urls| - 1]);
      MultisetSnoc(urls, s.url);
      OneMoreTime(multiset(urls[..|urls| - 1])[s.url], c);
    }
  }

  lemma ListedUnseen(v: seq<Server>, s: Server, scope: Option<string>, urls: seq<Url>, weight: int)
    requires !InScope(s, scope)
    ensures Listed(v + [s], scope, urls, weight) == Listed(v, scope, urls, weight)
  {
    assert (v + [s])[..|v|] == v;
  }

  /** What one more entry at the end of the slice adds to the three parts. */
  lemma ScopeTotalStep(v: seq<Server>, s: Server, scope: Option<string>, urls: seq<Url>, weight: int)
    requires s.conns >= 0 && (InScope(s, scope) ==> Find(v, scope, s.url).None?)
    ensures PartsTotal(v + [s], scope, urls, weight)
         == PartsTotal(v, scope, urls, weight) + s.conns
            + (if InScope(s, scope) && s.url in urls then (multiset(urls)[s.url] - 1) * s.conns else 0)
  {
    assert (v + [s])[..|v|] == v;
    if InScope(s, scope) {
      ListedTotalStep(v, s, scope, urls, weight, s.conns);
      TotalSnoc(Leaving(v, scope, UrlSet(urls)), Drained(s));
      var m, c := multiset(urls)[s.url], s.conns;
      assert (m - 1) * c == m * c - c;
      assert s.url !in urls ==> m == 0 && m * c == 0;
    } else {
      ListedUnseen(v, s, scope, urls, weight);
      TotalSnoc(Others(v, scope), s);
    }
  }

  function PartsTotal(v: seq<Server>, scope: Option<string>, urls: seq<Url>, weight: int): int {
    Total(Others(v, scope)) + Total(Listed(v, scope, urls, weight)) + Total(Leaving(v, scope, UrlSet(urls)))
  }

  lemma {:induction false} ScopeTotal(v: seq<Server>, scope: Option<string>, urls: seq<Url>, weight: int)
    requires UniqueIn(v, scope) && NonNegative(v)
    ensures PartsTotal(v, scope, urls, weight) == Total(v) + Surplus(v, scope, urls)
    decreases |v|
  {
    if v == [] {
      FreshTotal(scope, urls, weight);
    } else {
      var s, v' := v[|v| - 1], v[..|v| - 1];
      assert v == v' + [s] && s.conns >= 0;
      ScopeTotal(v', scope, urls, weight);
      ScopeTotalStep(v', s, scope, urls, weight);
    }
  }

  lemma {:induction false} FreshTotal(scope: Option<string>, urls: seq<Url>, weight: int)
    ensures Total(Listed([], scope, urls, weight)) == 0
    decreases |urls|
  {
    if urls != [] {
      var l := Listed([], scope, urls, weight);
      assert l[..|l| - 1] == Listed([], scope, urls[..|urls| - 1], weight);
      FreshTotal(scope, urls[..|urls| - 1], weight);
    }
  }

  lemma {:induction false} SurplusZero(v: seq<Server>, scope: Option<string>, urls: seq<Url>)
    requires NonNegative(v)
    ensures Surplus(v, scope, urls) >= 0
    ensures Surplus(v, scope, urls) == 0 <==>
              forall s :: s in v && InScope(s, scope) && multiset(urls)[s.url] > 1 ==> s.conns == 0
  {
    if v != [] {
      var s, v' := v[|v| - 1], v[..|v| - 1];
      SurplusZero(v', scope, urls);
      assert v == v' + [s];
      var m := multiset(urls)[s.url];
      if InScope(s, scope) && s.url in urls {
        assert m >= 1;
        assert (m - 1) * s.conns >= 0;
        assert m > 1 && s.conns > 0 ==> (m - 1) * s.conns > 0;
        assert m == 1 || s.conns == 0 ==> (m - 1) * s.conns == 0;
      }
    }
  }

  /** A sync keeps the number of requests in flight exactly when the list does not repeat the URL of
      an entry that carries some; otherwise it inflates the number. */
  lemma ReconcileTotal(v: seq<Server>, scope: Option<string>, urls: seq<Url>, weight: int)
    requires UniqueIn(v, scope) && NonNegative(v)
    ensures Total(Reconcile(v, scope, urls, weight)) >= Total(v)
    ensures Total(Reconcile(v, scope, urls, weight)) == Total(v) <==>
              forall s :: s in v && InScope(s, scope) && multiset(urls)[s.url] > 1 ==> s.conns == 0
  {
    var o, l := Others(v, scope), Listed(v, scope, urls, weight);
    TotalConcat(o, l);
    TotalConcat(o + l, Leaving(v, scope, UrlSet(urls)));
    ScopeTotal(v, scope, urls, weight);
    SurplusZero(v, scope, urls);
  }

  lemma {:induction false} FindUnique(v: seq<Server>, scope: Option<string>, s: Server)
    requires UniqueIn(v, scope) && s in v && InScope(s, scope)
    ensures Find(v, scope, s.url) == Some(s)
  {
    var v' := v[..|v| - 1];
    assert v == v' + [v[|v| - 1]];
    if s == v[|v| - 1] {
    } else {
      assert s in v';
      FindUnique(v', scope, s);
      var k :| 0 <= k < |v'| && v'[k] == s;
      assert v[k] == s;
    }
  }

  /** Per URL, not just in total: the kept entry for a URL carries the same requests as before, whatever
      the list says, and an entry with requests in flight is still there. */
  lemma ReconcileConns(v: seq<Server>, scope: Option<string>, urls: seq<Url>, weight: int, u: Url)
    requires UniqueIn(v, scope) && NonNegative(v)
    ensures ConnsOf(Reconcile(v, scope, urls, weight), scope, u) == ConnsOf(v, scope, u)
    ensures ConnsOf(v, scope, u) > 0 ==> Find(Reconcile(v, scope, urls, weight), scope, u).Some?
  {
    var d := Leaving(v, scope, UrlSet(urls));
    FindReconciled(v, scope, urls, weight, u);
    LeavingMembers(v, scope, UrlSet(urls));
    if Find(v, scope, u).Some? {
      var e := Find(v, scope, u).value;
      var k :| 0 <= k < |v| && v[k] == e;
      assert v[k].conns >= 0;
      assert u !in urls && e.conns > 0 ==> Lingers(e, scope, UrlSet(urls)) && Drained(e) in d;
    }
    if Find(d, scope, u).Some? {
      var e :| e in v && Lingers(e, scope, UrlSet(urls)) && Find(d, scope, u).value == Drained(e);
      FindUnique(v, scope, e);
    }
  }

  /** Between two syncs: the same slots, with counters that went up or down and flags that were marked. */
  ghost predicate InUse(v: seq<Server>, w: seq<Server>) {
    |w| == |v| && forall k :: 0 <= k < |v| ==> w[k] == v[k].(conns := w[k].conns, healthy := w[k].healthy)
  }

  /** And none was marked up. */
  ghost predicate NoneRaised(v: seq<Server>, w: seq<Server>)
    requires |w| == |v|
  {
    forall k :: 0 <= k < |v| && w[k].healthy ==> v[k].healthy
  }

  lemma AddsAndMarksUse(v: seq<Server>, u: Url, d: int, up: bool)
    ensures InUse(v, AddConns(v, u, d)) && InUse(v, Mark(v, u, up))
    ensures NoneRaised(v, AddConns(v, u, d)) && (!up ==> NoneRaised(v, Mark(v, u, up)))
  {
  }

  lemma InUseComposes(v: seq<Server>, w: seq<Server>, x: seq<Server>)
    requires InUse(v, w) && InUse(w, x)
    ensures InUse(v, x) && (NoneRaised(v, w) && NoneRaised(w, x) ==> NoneRaised(v, x))
  {
  }

  lemma {:induction false} FindInUse(v: seq<Server>, w: seq<Server>, scope: Option<string>, u: Url)
    requires InUse(v, w)
    ensures Find(v, scope, u).Some? <==> Find(w, scope, u).Some?
    ensures Find(v, scope, u).Some? ==>
              var a, b := Find(v, scope, u).value, Find(w, scope, u).value;
              b == a.(conns := b.conns, healthy := b.healthy) && (NoneRaised(v, w) && b.healthy ==> a.healthy)
  {
    if v != [] {
      var n := |v| - 1;
      assert InUse(v[..n], w[..n]) && (NoneRaised(v, w) ==> NoneRaised(v[..n], w[..n]));
      FindInUse(v[..n], w[..n], scope, u);
    }
  }

  /** A backend that leaves discovery and returns after any amount of use: if requests were in flight when it
      left, it comes back as the same entry, no longer draining, with the counter it has by then, zero
      included, and unhealthy unless something marked it up; otherwise as a new and healthy one. */
  lemma LeaveAndReturn(v: seq<Server>, scope: Option<string>, away: seq<Url>, before: int, w: seq<Server>,
                       back: seq<Url>, weight: int, e: Server)
    requires UniqueIn(v, scope) && NonNegative(v) && e in v && InScope(e, scope)
    requires e.url !in away && e.url in back && InUse(Reconcile(v, scope, away, before), w)
    ensures var r, s := Find(Reconcile(w, scope, back, weight), scope, e.url), Find(w, scope, e.url);
            if e.conns > 0
            then s.Some? && r == Some(e.(draining := false, healthy := s.value.healthy, conns := s.value.conns))
                 && (NoneRaised(Reconcile(v, scope, away, before), w) ==> !s.value.healthy)
            else r == Some(Server(e.url, weight, true, 0, false, TagOf(scope)))
  {
    AwayOrGone(v, scope, away, before, e);
    FindInUse(Reconcile(v, scope, away, before), w, scope, e.url);
    FindReconciled(w, scope, back, weight, e.url);
  }

  /** What the first of the two syncs leaves of it. */
  lemma AwayOrGone(v: seq<Server>, scope: Option<string>, away: seq<Url>, weight: int, e: Server)
    requires UniqueIn(v, scope) && NonNegative(v) && e in v && InScope(e, scope) && e.url !in away
    ensures Find(Reconcile(v, scope, away, weight), scope, e.url) == if e.conns > 0 then Some(Drained(e)) else None
  {
    var d := Leaving(v, scope, UrlSet(away));
    FindReconciled(v, scope, away, weight, e.url);
    FindUnique(v, scope, e);
    LeavingMembers(v, scope, UrlSet(away));
    if e.conns > 0 {
      assert Drained(e) in d;
    }
    if Find(d, scope, e.url).Some? {
      var x :| x in v && Lingers(x, scope, UrlSet(away)) && Find(d, scope, e.url).value == Drained(x);
      FindUnique(v, scope, x);
    }
  }

  // ---------- Independence of sources ----------

  lemma {:induction false} WithinOthers(v: seq<Server>, mine: string, theirs: string)
    requires mine != theirs
    ensures Within(Others(v, Some(mine)), Some(theirs)) == Within(v, Some(theirs))
  {
    if v != [] {
      var v', s := v[..|v| - 1], v[|v| - 1];
      WithinOthers(v', mine, theirs);
      WithinSnoc(Others(v', Some(mine)), s, Some(theirs));
    }
  }

  lemma {:induction false} WithinSuffices(v: seq<Server>, scope: Option<string>, u: Url, urls: set<Url>)
    ensures Find(Within(v, scope), scope, u) == Find(v, scope, u)
    ensures Leaving(Within(v, scope), scope, urls) == Leaving(v, scope, urls)
  {
    if v != [] {
      var v', s := v[..|v| - 1], v[|v| - 1];
      WithinSuffices(v', scope, u, urls);
      var w := Within(v', scope);
      assert (w + [s])[..|w|] == w;
    }
  }

  /** A sync of one source leaves every other source's entries as they were, in order and in every
      field, and what it makes of its own entries depends on those alone. */
  lemma SourceIndependence(v: seq<Server>, mine: string, theirs: string, urls: seq<Url>, weight: int)
    requires mine != theirs
    ensures Within(Reconcile(v, Some(mine), urls, weight), Some(theirs)) == Within(v, Some(theirs))
    ensures Within(Reconcile(v, Some(mine), urls, weight), Some(mine))
         == Reconcile(Within(v, Some(mine)), Some(mine), urls, weight)
  {
    var scope := Some(mine);
    var own := Within(v, scope);
    var o, l, d := Others(v, scope), Listed(v, scope, urls, weight), Leaving(v, scope, UrlSet(urls));
    PartsOf(v, scope, urls, weight);
    Origins(v, scope, urls, weight);
    WithinConcat(o, l, Some(theirs));
    WithinConcat(o + l, d, Some(theirs));
    WithinOthers(v, mine, theirs);
    NoneInScope(l, Some(theirs));
    NoneInScope(d, Some(theirs));
    OwnPart(v, scope, urls, weight);
  }

  lemma OwnPart(v: seq<Server>, scope: Option<string>, urls: seq<Url>, weight: int)
    ensures Reconcile(Within(v, scope), scope, urls, weight)
         == Listed(v, scope, urls, weight) + Leaving(v, scope, UrlSet(urls))
  {
    var own := Within(v, scope);
    assert Others(own, scope) == [] by {
      WithinMembers(v, scope);
      AllInScope(own, scope);
    }
    assert Leaving(own, scope, UrlSet(urls)) == Leaving(v, scope, UrlSet(urls)) by {
      WithinSuffices(v, scope, Url(""), UrlSet(urls));
    }
    OwnListed(v, scope, urls, weight);
    assert [] + Listed(v, scope, urls, weight) == Listed(v, scope, urls, weight);
  }

  lemma OwnListed(v: seq<Server>, scope: Option<string>, urls: seq<Url>, weight: int)
    ensures Listed(Within(v, scope), scope, urls, weight) == Listed(v, scope, urls, weight)
  {
    forall t | 0 <= t < |urls|
      ensures ListedOne(Within(v, scope), scope, urls[t], weight) == ListedOne(v, scope, urls[t], weight)
    {
      WithinSuffices(v, scope, urls[t], {});
    }
  }

  lemma {:induction false} SourcesDetermineEntries(v: seq<Server>, s: Server)
    ensures multiset(v)[s] == multiset(Within(v, Some(s.source)))[s]
  {
    if v != [] {
      SourcesDetermineEntries(v[..|v| - 1], s);
      assert v == v[..|v| - 1] + [v[|v| - 1]];
    }
  }

  /** Syncs of two different sources commute: each source ends up with the same sequence of entries
      either way, so the two results are permutations of each other. */
  lemma SyncsCommute(v: seq<Server>, a: string, b: string, urlsA: seq<Url>, urlsB: seq<Url>, wa: int, wb: int)
    requires a != b
    ensures var ab := Reconcile(Reconcile(v, Some(a), urlsA, wa), Some(b), urlsB, wb);
            var ba := Reconcile(Reconcile(v, Some(b), urlsB, wb), Some(a), urlsA, wa);
            && (forall c :: Within(ab, Some(c)) == Within(ba, Some(c)))
            && multiset(ab) == multiset(ba)
  {
    var va, vb := Reconcile(v, Some(a), urlsA, wa), Reconcile(v, Some(b), urlsB, wb);
    var ab, ba := Reconcile(va, Some(b), urlsB, wb), Reconcile(vb, Some(a), urlsA, wa);
    forall c: string
      ensures Within(ab, Some(c)) == Within(ba, Some(c))
    {
      var other := if c == a then b else a;
      SourceIndependence(v, a, if c == a then b else c, urlsA, wa);
      SourceIndependence(v, b, if c == b then a else c, urlsB, wb);
      SourceIndependence(va, b, if c == b then a else c, urlsB, wb);
      SourceIndependence(vb, a, if c == a then b else c, urlsA, wa);
    }
    forall s: Server
      ensures multiset(ab)[s] == multiset(ba)[s]
    {
      SourcesDetermineEntries(ab, s);
      SourcesDetermineEntries(ba, s);
    }
  }

  // ---------- Lookup by URL ----------

  /** Where a URL is found depends on the URLs alone. */
  lemma {:induction false} SameUrlsSameFirst(v: seq<Server>, w: seq<Server>, u: Url)
    requires |v| == |w| && forall k :: 0 <= k < |v| ==> v[k].url == w[k].url
    ensures FirstAt(v, u) == FirstAt(w, u)
  {
    if v != [] {
      SameUrlsSameFirst(v[1..], w[1..], u);
    }
  }

  lemma {:induction false} HoldsExactly(v: seq<Server>, u: Url)
    ensures Holds(v, u) <==> exists s :: s in v && s.url == u
  {
    var k := FirstAt(v, u);
    if k < |v| {
      assert v[k] in v;
    }
  }

  lemma {:induction false} HealthyMembers(v: seq<Server>)
    ensures forall s :: s in Healthy(v) <==> s in v && s.healthy
  {
    if v != [] {
      HealthyMembers(v[..|v| - 1]);
      assert v == v[..|v| - 1] + [v[|v| - 1]];
    }
  }

  // ---------- URLs nobody has ----------

  /** A length no text in the slice or the list exceeds. */
  function Longest(v: seq<Server>, urls: seq<Url>): nat {
    if v != [] then
      var rest, n := Longest(v[..|v| - 1], urls), |v[|v| - 1].url.text|;
      if rest < n then n else rest
    else if urls != [] then
      var rest, n := Longest(v, urls[..|urls| - 1]), |urls[|urls| - 1].text|;
      if rest < n then n else rest
    else 0
  }

  lemma {:induction false} LongestBounds(v: seq<Server>, urls: seq<Url>)
    ensures forall s :: s in v ==> |s.url.text| <= Longest(v, urls)
    ensures forall u :: u in urls ==> |u.text| <= Longest(v, urls)
  {
    if v != [] {
      LongestBounds(v[..|v| - 1], urls);
      assert v == v[..|v| - 1] + [v[|v| - 1]];
    } else if urls != [] {
      LongestBounds(v, urls[..|urls| - 1]);
      assert urls == urls[..|urls| - 1] + [urls[|urls| - 1]];
    }
  }

  /** There is always a URL neither held nor listed. */
  lemma FreshUrl(v: seq<Server>, urls: seq<Url>) returns (x: Url)
    ensures x !in urls && forall s :: s in v ==> s.url != x
  {
    LongestBounds(v, urls);
    x := Url(seq(Longest(v, urls) + 1, _ => 'x'));
    assert |x.text| == Longest(v, urls) + 1;
  }

  // ---------- Draining and health ----------

  ghost predicate DrainingIsDown(v: seq<Server>) {
    forall k :: 0 <= k < |v| && v[k].draining ==> !v[k].healthy
  }

  /** "Draining implies unhealthy" survives a mark exactly unless it raises a draining entry. */
  lemma MarkKeepsDrainingDown(v: seq<Server>, u: Url, up: bool)
    requires DrainingIsDown(v)
    ensures DrainingIsDown(Mark(v, u, up)) <==> !(up && Holds(v, u) && v[FirstAt(v, u)].draining)
  {
    var k, w := FirstAt(v, u), Mark(v, u, up);
    if k < |v| && up && v[k].draining {
      assert w[k].draining && w[k].healthy;
    }
  }
}
