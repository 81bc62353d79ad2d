/** What goes wrong without the conditions of in-flight conservation, and that nothing less would do. */
module Breaches {
  import opened Common
  import opened Pool
  import opened SharedPool
  import opened PoolLaws
  import opened Proxy
  import opened System
  import opened Conservation

  // ---------- Which steps do not ----------

  /** No continuation by admissible steps ever finds a wrong counter. */
  ghost predicate NeverWrong(s: State) {
    forall steps :: Run(s, steps).Some? && AllAdmissible(s, steps) ==> Right(Run(s, steps).value)
  }

  /** The lists of a schedule are such as discovery passes on: it never reports an empty one. */
  ghost predicate ListsSomething(steps: seq<Step>) {
    forall k :: 0 <= k < |steps| && steps[k].Sync? ==> steps[k].urls != []
  }

  /** Nor does any with true reads and such lists. */
  ghost predicate NeverWrongInPractice(s: State) {
    forall steps :: Run(s, steps).Some? && AllAdmissible(s, steps) && Truthful(s, steps) && ListsSomething(steps) ==>
      Right(Run(s, steps).value)
  }

  ghost predicate GoodRun(s: State, steps: seq<Step>, r: State) {
    TrueRun(s, steps, r) && AllAdmissible(s, steps)
  }

  lemma Extend(s: State, steps: seq<Step>, r: State, step: Step, t: State) returns (more: seq<Step>)
    requires GoodRun(s, steps, r) && Enabled(r, step) && Admissible(r, step) && TruthfulStep(r, step)
    requires t == Effect(r, step)
    ensures GoodRun(s, more, t) && more == steps + [step]
  {
    more := OneMore(s, steps, r, step, t);
    assert more[..|steps|] == steps;
  }

  function At(s: State, i: nat, m: Monitor): State
    requires i < |s.reqs|
  {
    s.(reqs := s.reqs[i := m])
  }

  /** An idle request takes a healthy `u`; then one more sync; then it lets go. */
  function TakeAndLoose(v: seq<Server>, i: nat, u: Url, tag: string, urls: seq<Url>, weight: int): seq<Step> {
    [Does(i, BeginRequest), Does(i, ReadHealthy(Healthy(v))), Does(i, Choose(u)), Does(i, Add(u)),
     Does(i, Forward(u, None)), Sync(tag, urls, weight), Does(i, Remove(u))]
  }

  lemma Chooses(s: State, i: nat, u: Url) returns (steps: seq<Step>, r: State)
    requires i < |s.reqs| && s.reqs[i] == FRESH && HasHealthy(ViewOf(s.pool), u)
    ensures GoodRun(s, steps, r)
    ensures steps == [Does(i, BeginRequest), Does(i, ReadHealthy(Healthy(ViewOf(s.pool)))), Does(i, Choose(u))]
    ensures r == At(s.(total := s.total + 1), i, FRESH.(begun := true, chosen := Some(u)))
  {
    var a := At(s.(total := s.total + 1), i, FRESH.(begun := true));
    steps := Extend(s, [], s, Does(i, BeginRequest), a);
    assert At(a, i, a.reqs[i]) == a;
    steps := Extend(s, steps, a, Does(i, ReadHealthy(Healthy(ViewOf(s.pool)))), a);
    r := At(a, i, FRESH.(begun := true, chosen := Some(u)));
    steps := Extend(s, steps, a, Does(i, Choose(u)), r);
    assert r.reqs == s.reqs[i := FRESH.(begun := true, chosen := Some(u))];
  }

  lemma Takes(s: State, i: nat, u: Url) returns (steps: seq<Step>, r: State)
    requires i < |s.reqs| && s.reqs[i] == FRESH && HasHealthy(ViewOf(s.pool), u)
    ensures GoodRun(s, steps, r)
    ensures steps == [Does(i, BeginRequest), Does(i, ReadHealthy(Healthy(ViewOf(s.pool)))), Does(i, Choose(u)), Does(i, Add(u))]
    ensures r == At(s.(pool := AddShared(s.pool, u, 1), total := s.total + 1), i, FRESH.(begun := true, held := Some(u)))
  {
    HealthyMembers(ViewOf(s.pool));
    HoldsExactly(ViewOf(s.pool), u);
    var b;
    steps, b := Chooses(s, i, u);
    r := At(b.(pool := AddShared(b.pool, u, 1)), i, FRESH.(begun := true, held := Some(u)));
    steps := Extend(s, steps, b, Does(i, Add(u)), r);
    assert r.reqs == s.reqs[i := FRESH.(begun := true, held := Some(u))];
  }

  lemma Forwards(s: State, i: nat, u: Url) returns (steps: seq<Step>, r: State)
    requires i < |s.reqs| && s.reqs[i] == FRESH && HasHealthy(ViewOf(s.pool), u)
    ensures GoodRun(s, steps, r)
    ensures steps == [Does(i, BeginRequest), Does(i, ReadHealthy(Healthy(ViewOf(s.pool)))), Does(i, Choose(u)),
                      Does(i, Add(u)), Does(i, Forward(u, None))]
    ensures r.pool == AddShared(s.pool, u, 1) && i < |r.reqs| && Active(r.reqs[i]) && r.reqs[i].held == Some(u)
  {
    var a;
    steps, a := Takes(s, i, u);
    r := At(a, i, FRESH.(begun := true, held := Some(u), forwards := [(u, None)]));
    assert FRESH.forwards + [(u, None)] == [(u, None)];
    steps := Extend(s, steps, a, Does(i, Forward(u, None)), r);
  }

  lemma Loosed(s: State, i: nat, u: Url) returns (r: State)
    requires i < |s.reqs| && Active(s.reqs[i]) && s.reqs[i].held == Some(u) && Uncounted(ViewOf(s.pool), u)
    ensures Enabled(s, Does(i, Remove(u))) && r == Effect(s, Does(i, Remove(u)))
    ensures ConnsAt(ViewOf(r.pool), u) == -1 && !Right(r)
  {
    r := Effect(s, Does(i, Remove(u)));
    RemoveIsAdd(s.pool, u, 1, -1);
    AddFound(s.pool, u, -1);
  }

  /** If that sync leaves an uncounted entry under `u`, its counter ends below zero. */
  lemma EndsBelowZero(s: State, i: nat, u: Url, tag: string, urls: seq<Url>, weight: int) returns (r: State)
    requires i < |s.reqs| && s.reqs[i] == FRESH && HasHealthy(ViewOf(s.pool), u)
    requires Fits(ViewOf(AddShared(s.pool, u, 1)), tag, urls)
    requires Uncounted(ViewOf(SyncShared(AddShared(s.pool, u, 1), Some(tag), urls, weight)), u)
    ensures GoodRun(s, TakeAndLoose(ViewOf(s.pool), i, u, tag, urls, weight), r)
    ensures ConnsAt(ViewOf(r.pool), u) == -1 && !Right(r)
  {
    var steps, b := Forwards(s, i, u);
    var c := b.(pool := SyncShared(b.pool, Some(tag), urls, weight));
    steps := Extend(s, steps, b, Sync(tag, urls, weight), c);
    r := Loosed(c, i, u);
    steps := Extend(s, steps, c, Does(i, Remove(u)), r);
    assert steps == TakeAndLoose(ViewOf(s.pool), i, u, tag, urls, weight);
  }

  /** The pool finds `u`, and counts nothing under it. */
  ghost predicate Uncounted(v: seq<Server>, u: Url) {
    Holds(v, u) && ConnsAt(v, u) == 0
  }

  lemma FirstConcat(a: seq<Server>, b: seq<Server>, u: Url)
    requires Holds(a, u)
    ensures FirstAt(a + b, u) == FirstAt(a, u)
  {
    var k := FirstAt(a, u);
    var j := FirstAt(a + b, u);
    assert (a + b)[k] == a[k];
    assert j < |a| ==> (a + b)[j] == a[j];
  }

  /** A list that names a URL `e` has in another source: the second entry is not counted, and comes to be
      found first once the first one leaves discovery. */
  lemma ForeignBreaks(s: State, tag: string, urls: seq<Url>, weight: int, i: nat, e: Server, x: Url) returns (r: State)
    requires Sound(s) && i < |s.reqs| && s.reqs[i] == FRESH
    requires e in ViewOf(s.pool) && e.source != tag && e.url in urls
    requires x !in urls && forall o :: o in ViewOf(s.pool) ==> o.url != x
    ensures var t := Effect(s, Sync(tag, urls, weight));
            GoodRun(t, TakeAndLoose(ViewOf(t.pool), i, e.url, e.source, [x], weight), r)
            && ConnsAt(ViewOf(r.pool), e.url) == -1 && !Right(r)
  {
    var t, u := Effect(s, Sync(tag, urls, weight)), e.url;
    OneEntryTells(s.pool);
    SoundMeans(s);
    var v, c := ViewOf(s.pool), Server(u, weight, true, 0, false, tag);
    ForeignFirst(v, tag, urls, weight, e);
    ForeignListed(v, tag, urls, weight, e);
    SyncCoherent(s.pool, Some(tag), urls, weight);
    assert ViewOf(t.pool) == Reconcile(v, Some(tag), urls, weight);
    AddBeside(t.pool, e, c);
    var p := AddShared(t.pool, u, 1);
    LeftBehind(ViewOf(p), e, c, x, weight);
    assert ViewOf(SyncShared(p, Some(e.source), [x], weight)) == Reconcile(ViewOf(p), Some(e.source), [x], weight);
    StillFresh(s.pool, tag, urls, weight, u, x, e.source);
    r := EndsBelowZero(t, i, u, e.source, [x], weight);
  }

  /** After such a sync the URL is found at the old entry ... */
  lemma ForeignFirst(v: seq<Server>, tag: string, urls: seq<Url>, weight: int, e: Server)
    requires UrlsTell(v) && e in v && e.source != tag && e.url in urls
    ensures var r := Reconcile(v, Some(tag), urls, weight); Holds(r, e.url) && r[FirstAt(r, e.url)] == e
  {
    var o, l := Others(v, Some(tag)), Listed(v, Some(tag), urls, weight) + Leaving(v, Some(tag), UrlSet(urls));
    OthersMembers(v, Some(tag));
    HoldsExactly(o, e.url);
    FirstConcat(o, l, e.url);
    assert Reconcile(v, Some(tag), urls, weight) == o + l;
    assert o[FirstAt(o, e.url)] in o;
  }

  /** ... and every other entry with it is new. */
  lemma ForeignListed(v: seq<Server>, tag: string, urls: seq<Url>, weight: int, e: Server)
    requires UrlsTell(v) && e in v && e.source != tag && e.url in urls
    ensures var r := Reconcile(v, Some(tag), urls, weight);
            && HasHealthy(r, e.url) && Server(e.url, weight, true, 0, false, tag) in r
            && UncountedBeside(r, e)
  {
    var r, x := Reconcile(v, Some(tag), urls, weight), Server(e.url, weight, true, 0, false, tag);
    assert ListedOne(v, Some(tag), e.url, weight) == x;
    ReconcilePartition(v, Some(tag), urls, weight, x);
    HealthyMembers(r);
    forall x | x in r && x.url == e.url && x.source != e.source
      ensures x.conns == 0
    {
      ReconcilePartition(v, Some(tag), urls, weight, x);
    }
  }

  /** Entries with the URL of `e` from other sources count nothing. */
  ghost predicate UncountedBeside(v: seq<Server>, e: Server) {
    forall x :: x in v && x.url == e.url && x.source != e.source ==> x.conns == 0
  }

  /** The add moves `e` and leaves entries of other sources alone. */
  lemma AddBeside(p: Shared, e: Server, c: Server)
    requires Coherent(p) && Holds(ViewOf(p), e.url) && ViewOf(p)[FirstAt(ViewOf(p), e.url)] == e
    requires UncountedBeside(ViewOf(p), e) && c in ViewOf(p) && c.source != e.source
    ensures UncountedBeside(ViewOf(AddShared(p, e.url, 1)), e) && c in ViewOf(AddShared(p, e.url, 1))
  {
    var r, w := ViewOf(p), ViewOf(AddShared(p, e.url, 1));
    forall j | 0 <= j < |r|
      ensures w[j] == r[j] || w[j].source == e.source
    {
    }
    var j :| 0 <= j < |r| && r[j] == c;
    assert w[j] == c;
    forall x | x in w && x.url == e.url && x.source != e.source
      ensures x.conns == 0
    {
      var k :| 0 <= k < |w| && w[k] == x;
      assert r[k] in r && r[k] == x;
    }
  }

  /** A URL neither held before nor listed fits any source's next list. */
  lemma StillFresh(p: Shared, tag: string, urls: seq<Url>, weight: int, u: Url, x: Url, source: string)
    requires x !in urls && forall o :: o in ViewOf(p) ==> o.url != x
    ensures Fits(ViewOf(AddShared(SyncShared(p, Some(tag), urls, weight), u, 1)), source, [x])
  {
    var t := SyncShared(p, Some(tag), urls, weight);
    assert ViewOf(t) == Reconcile(ViewOf(p), Some(tag), urls, weight);
    forall k | 0 <= k < |t.slots|
      ensures t.slots[k].s.url != x
    {
      ReconcilePartition(ViewOf(p), Some(tag), urls, weight, ViewOf(t)[k]);
    }
    ChangesStay(t, u, 1, true);
    forall y
      ensures !Repeats([x], y)
    {
    }
  }

  /** Once the source of `e` lists something else instead, the other entry is found first. */
  lemma LeftBehind(w: seq<Server>, e: Server, c: Server, x: Url, weight: int)
    requires UncountedBeside(w, e) && c in w && c.url == e.url && c.source != e.source && x != e.url
    ensures Uncounted(Reconcile(w, Some(e.source), [x], weight), e.url)
  {
    var o := Others(w, Some(e.source));
    OthersMembers(w, Some(e.source));
    HoldsExactly(o, e.url);
    assert o[FirstAt(o, e.url)] in o;
    var rest := Listed(w, Some(e.source), [x], weight) + Leaving(w, Some(e.source), UrlSet([x]));
    FirstConcat(o, rest, e.url);
    assert Reconcile(w, Some(e.source), [x], weight) == o + rest;
  }

  /** A list that repeats a URL the pool does not hold: two new entries, the first counted and the last
      kept. */
  lemma RepeatBreaks(s: State, tag: string, urls: seq<Url>, weight: int, i: nat, u: Url) returns (r: State)
    requires Sound(s) && i < |s.reqs| && s.reqs[i] == FRESH
    requires Repeats(urls, u) && !Holds(ViewOf(s.pool), u)
    ensures var t := Effect(s, Sync(tag, urls, weight));
            GoodRun(t, TakeAndLoose(ViewOf(t.pool), i, u, tag, [u], weight), r)
            && ConnsAt(ViewOf(r.pool), u) == -1 && !Right(r)
  {
    RepeatListed(s.pool, tag, urls, weight, u);
    SyncCoherent(s.pool, Some(tag), urls, weight);
    LastUncounted(Effect(s, Sync(tag, urls, weight)).pool, u, tag, weight);
    r := EndsBelowZero(Effect(s, Sync(tag, urls, weight)), i, u, tag, [u], weight);
  }

  lemma OnlyNew(v: seq<Server>, scope: Option<string>, urls: seq<Url>, u: Url, j: nat)
    requires j < |Places(v, scope, urls)| && !Holds(v, u)
    ensures Places(v, scope, urls)[j] < |v| ==> v[Places(v, scope, urls)[j]].url != u
  {
    HoldsExactly(v, u);
    var at := Places(v, scope, urls)[j];
    if at < |v| {
      assert v[at] in v;
    }
  }

  /** Two slots or more show `u`, every one with an entry of its own that belongs to `tag` and counts
      nothing. */
  ghost predicate SeveralNew(t: Shared, u: Url, tag: string) {
    && (forall j :: 0 <= j < |t.slots| && t.slots[j].s.url == u ==> t.slots[j].s.source == tag && t.slots[j].s.conns == 0)
    && (forall j, k :: 0 <= j < k < |t.slots| && t.slots[j].s.url == u == t.slots[k].s.url ==> t.slots[j].id != t.slots[k].id)
    && exists a, b :: 0 <= a < b < |t.slots| && t.slots[a].s.url == u == t.slots[b].s.url
  }

  lemma NewSlot(p: Shared, tag: string, urls: seq<Url>, weight: int, u: Url, j: nat)
    requires !Holds(ViewOf(p), u)
    requires var q := SyncShared(p, Some(tag), urls, weight); j < |q.slots| && q.slots[j].s.url == u
    ensures var q := SyncShared(p, Some(tag), urls, weight);
            q.slots[j] == Slot(p.next + j, Server(u, weight, true, 0, false, tag))
  {
    SlotOrigin(ViewOf(p), Some(tag), urls, weight, j);
    OnlyNew(ViewOf(p), Some(tag), urls, u, j);
  }

  lemma TwoSlots(v: seq<Server>, tag: string, urls: seq<Url>, weight: int, u: Url)
    requires Repeats(urls, u)
    ensures var r := Reconcile(v, Some(tag), urls, weight); exists a, b :: 0 <= a < b < |r| && r[a].url == u == r[b].url
  {
    var r, l, n := Reconcile(v, Some(tag), urls, weight), Listed(v, Some(tag), urls, weight), |Others(v, Some(tag))|;
    var a, b :| 0 <= a < b < |urls| && urls[a] == u == urls[b];
    assert l[a].url == u && l[b].url == u && r[n + a] == l[a] && r[n + b] == l[b];
  }

  lemma RepeatListed(p: Shared, tag: string, urls: seq<Url>, weight: int, u: Url)
    requires Repeats(urls, u) && !Holds(ViewOf(p), u)
    ensures var q := SyncShared(p, Some(tag), urls, weight); HasHealthy(ViewOf(q), u) && SeveralNew(q, u, tag)
  {
    var q := SyncShared(p, Some(tag), urls, weight);
    forall j | 0 <= j < |q.slots| && q.slots[j].s.url == u
      ensures q.slots[j] == Slot(p.next + j, Server(u, weight, true, 0, false, tag))
    {
      NewSlot(p, tag, urls, weight, u, j);
    }
    TwoSlots(ViewOf(p), tag, urls, weight, u);
    assert ViewOf(q) == Reconcile(ViewOf(p), Some(tag), urls, weight);
    var a, b :| 0 <= a < b < |q.slots| && ViewOf(q)[a].url == u == ViewOf(q)[b].url;
    HealthyMembers(ViewOf(q));
    assert ViewOf(q)[a] in ViewOf(q) && ViewOf(q)[a].healthy;
    assert q.slots[a].s.url == u == q.slots[b].s.url;
  }

  /** The add reaches the first of the new entries only, and the last is another one. */
  lemma AddsToFirst(t: Shared, u: Url, tag: string)
    requires Coherent(t) && SeveralNew(t, u, tag)
    ensures var w := ViewOf(AddShared(t, u, 1));
            && (forall x :: x in w && x.url == u ==> x.source == tag)
            && LastAt(w, Some(tag), u) < |w| && w[LastAt(w, Some(tag), u)].conns == 0
  {
    var v, w, f := ViewOf(t), ViewOf(AddShared(t, u, 1)), FirstAt(ViewOf(t), u);
    var a, b :| 0 <= a < b < |t.slots| && t.slots[a].s.url == u == t.slots[b].s.url;
    assert v[a].url == u && v[b].url == u;
    assert f <= a;
    assert w[b].url == u && w[b].source == tag;
    var k := LastAt(w, Some(tag), u);
    assert b <= k < |w|;
    assert t.slots[k].s.url == u && t.slots[f].s.url == u;
  }

  lemma LastUncounted(t: Shared, u: Url, tag: string, weight: int)
    requires Coherent(t) && SeveralNew(t, u, tag)
    ensures var q := AddShared(t, u, 1);
            Fits(ViewOf(q), tag, [u]) && Uncounted(ViewOf(SyncShared(q, Some(tag), [u], weight)), u)
  {
    var q := AddShared(t, u, 1);
    var w := ViewOf(q);
    AddsToFirst(t, u, tag);
    FindIsLast(w, Some(tag), u);
    LastKept(w, tag, weight, u);
    assert ViewOf(SyncShared(q, Some(tag), [u], weight)) == Reconcile(w, Some(tag), [u], weight);
    forall y
      ensures !Repeats([u], y)
    {
    }
  }

  /** After a sync with only `u`, held by no other source, `u` is found at what was its last entry. */
  lemma LastKept(w: seq<Server>, tag: string, weight: int, u: Url)
    requires Find(w, Some(tag), u).Some? && forall x :: x in w && x.url == u ==> x.source == tag
    ensures var r := Reconcile(w, Some(tag), [u], weight);
            Holds(r, u) && ConnsAt(r, u) == Find(w, Some(tag), u).value.conns
  {
    var r, x := Reconcile(w, Some(tag), [u], weight), ListedOne(w, Some(tag), u, weight);
    ReconcilePartition(w, Some(tag), [u], weight, x);
    HoldsExactly(r, u);
    ReconcilePartition(w, Some(tag), [u], weight, r[FirstAt(r, u)]);
    assert r[FirstAt(r, u)] in r;
  }

  /** The exact condition, for a state with right counters and a request still to come: a step keeps every
      counter right, now and under every admissible continuation, exactly when it is admissible itself. If
      it is not, a continuation with true reads and non-empty lists is enough to go wrong. */
  lemma AdmissibleExactly(s: State, step: Step, i: nat)
    requires Sound(s) && Enabled(s, step) && i < |s.reqs| && s.reqs[i] == FRESH
    ensures NeverWrong(Effect(s, step)) <==> Admissible(s, step)
    ensures NeverWrongInPractice(Effect(s, step)) <==> Admissible(s, step)
  {
    var t := Effect(s, step);
    if Admissible(s, step) {
      SoundStep(s, step);
      forall steps | Run(t, steps).Some? && AllAdmissible(t, steps)
        ensures Right(Run(t, steps).value)
      {
        SoundRuns(t, steps);
      }
    } else {
      var steps := BreakingRun(s, step, i);
      assert Run(t, steps).Some?;
    }
  }

  /** A continuation the program can make after which some counter is wrong. */
  ghost predicate Breaks(t: State, steps: seq<Step>) {
    && Run(t, steps).Some? && AllAdmissible(t, steps) && Truthful(t, steps) && ListsSomething(steps)
    && !Right(Run(t, steps).value)
  }

  lemma GoodRunBreaks(t: State, i: nat, u: Url, tag: string, x: Url, weight: int, r: State)
    requires GoodRun(t, TakeAndLoose(ViewOf(t.pool), i, u, tag, [x], weight), r) && !Right(r)
    ensures Breaks(t, TakeAndLoose(ViewOf(t.pool), i, u, tag, [x], weight))
  {
    ListsOne(ViewOf(t.pool), i, u, tag, x, weight);
  }

  lemma ListsOne(v: seq<Server>, i: nat, u: Url, tag: string, x: Url, weight: int)
    ensures ListsSomething(TakeAndLoose(v, i, u, tag, [x], weight))
  {
  }

  lemma LostAddBreaks(s: State, i: nat, u: Url)
    requires Sound(s) && Enabled(s, Does(i, Add(u))) && !Holds(ViewOf(s.pool), u)
    ensures Breaks(Effect(s, Does(i, Add(u))), [])
  {
    LostAdd(s, i, u);
  }

  lemma BreakingRun(s: State, step: Step, i: nat) returns (steps: seq<Step>)
    requires Sound(s) && Enabled(s, step) && i < |s.reqs| && s.reqs[i] == FRESH && !Admissible(s, step)
    ensures Breaks(Effect(s, step), steps)
  {
    if step.Does? {
      LostAddBreaks(s, step.i, step.e.u);
      steps := [];
    } else {
      steps := BreakingSync(s, step.tag, step.urls, step.weight, i);
    }
  }

  lemma BreakingSync(s: State, tag: string, urls: seq<Url>, weight: int, i: nat) returns (steps: seq<Step>)
    requires Sound(s) && i < |s.reqs| && s.reqs[i] == FRESH && !Fits(ViewOf(s.pool), tag, urls)
    ensures Breaks(Effect(s, Sync(tag, urls, weight)), steps)
  {
    var t := Effect(s, Sync(tag, urls, weight));
    if e :| e in ViewOf(s.pool) && e.source != tag && e.url in urls {
      var x := FreshUrl(ViewOf(s.pool), urls);
      var r := ForeignBreaks(s, tag, urls, weight, i, e, x);
      GoodRunBreaks(t, i, e.url, e.source, x, weight, r);
      steps := TakeAndLoose(ViewOf(t.pool), i, e.url, e.source, [x], weight);
    } else {
      var u :| Repeats(urls, u) && Find(ViewOf(s.pool), Some(tag), u).None?;
      RepeatedIsNew(ViewOf(s.pool), tag, urls, u);
      var r := RepeatBreaks(s, tag, urls, weight, i, u);
      GoodRunBreaks(t, i, u, tag, u, weight, r);
      steps := TakeAndLoose(ViewOf(t.pool), i, u, tag, [u], weight);
    }
  }

  lemma RepeatedIsNew(v: seq<Server>, tag: string, urls: seq<Url>, u: Url)
    requires Repeats(urls, u) && Find(v, Some(tag), u).None?
    requires forall e :: e in v && e.source != tag ==> e.url !in urls
    ensures !Holds(v, u)
  {
    HoldsExactly(v, u);
  }

  /** An add that finds no backend: the request holds what nobody counts, from this step on. */
  lemma LostAdd(s: State, i: nat, u: Url)
    requires Sound(s) && Enabled(s, Does(i, Add(u))) && !Holds(ViewOf(s.pool), u)
    ensures !Right(Effect(s, Does(i, Add(u))))
  {
    var t := Effect(s, Does(i, Add(u)));
    HoldersUpdate(s.reqs, i, t.reqs[i], u);
    assert ConnsAt(ViewOf(t.pool), u) != Holders(t.reqs, u);
  }

  // ---------- Runs that break each part of the discipline ----------

  /** A new URL listed twice, taken once, listed once: its counter ends at -1. */
  lemma RepeatedListGoesNegative(n: nat, tag: string, u: Url, weight: int) returns (v: seq<Server>, r: State)
    requires n > 0
    ensures v == Reconcile([], Some(tag), [u, u], weight) && HasHealthy(v, u)
    ensures TrueRun(Initial([], n), [Sync(tag, [u, u], weight)] + TakeAndLoose(v, 0, u, tag, [u], weight), r)
    ensures ConnsAt(ViewOf(r.pool), u) == -1 && !Right(r)
  {
    var s, step := Initial([], n), Sync(tag, [u, u], weight);
    IdleSound([], n);
    assert ViewOf(s.pool) == [] && [u, u][0] == u == [u, u][1];
    var t := Effect(s, step);
    RepeatListed(s.pool, tag, [u, u], weight, u);
    r := RepeatBreaks(s, tag, [u, u], weight, 0, u);
    v := ViewOf(t.pool);
    TrueRunAfter(s, step, t, TakeAndLoose(v, 0, u, tag, [u], weight), r);
  }

  /** A URL of one source listed by another as well, taken, and replaced by the first: -1 again. */
  lemma ForeignUrlGoesNegative(n: nat, e: Server, tag: string, x: Url, weight: int) returns (v: seq<Server>, r: State)
    requires n > 0 && e.conns == 0 && e.source != tag && x != e.url
    ensures v == Reconcile([e], Some(tag), [e.url], weight) && HasHealthy(v, e.url)
    ensures TrueRun(Initial([e], n), [Sync(tag, [e.url], weight)] + TakeAndLoose(v, 0, e.url, e.source, [x], weight), r)
    ensures ConnsAt(ViewOf(r.pool), e.url) == -1 && !Right(r)
  {
    var s, step := Initial([e], n), Sync(tag, [e.url], weight);
    IdleSound([e], n);
    OneEntryTells(s.pool);
    assert ViewOf(s.pool) == [e] && [e][0] == e;
    var t := Effect(s, step);
    ForeignListed([e], tag, [e.url], weight, e);
    r := ForeignBreaks(s, tag, [e.url], weight, 0, e, x);
    v := ViewOf(t.pool);
    TrueRunAfter(s, step, t, TakeAndLoose(v, 0, e.url, e.source, [x], weight), r);
  }

  /** A request selects `u`; before it adds, `u` leaves discovery and is dropped; it then comes back. */
  function LateRun(v: seq<Server>, u: Url, other: Url, weight: int): seq<Step> {
    [Does(0, BeginRequest), Does(0, ReadHealthy(Healthy(v))), Does(0, Choose(u)), Sync("a", [other], weight),
     Does(0, Add(u)), Does(0, Forward(u, None)), Sync("a", [u], weight), Does(0, Remove(u))]
  }

  function Entry(u: Url, weight: int): Server {
    Server(u, weight, true, 0, false, "a")
  }

  function One(id: nat, u: Url, weight: int): Shared {
    Shared([Slot(id, Entry(u, weight))], id + 1)
  }

  lemma Swapped(id: nat, u: Url, other: Url, weight: int)
    requires u != other
    ensures SyncShared(One(id, u, weight), Some("a"), [other], weight) == One(id + 1, other, weight)
  {
    var v := [Entry(u, weight)];
    assert ViewOf(One(id, u, weight)) == v && v[..0] == [];
    assert Find(v, Some("a"), other) == None;
    NoneLingers(v, Some("a"), UrlSet([other]));
    AllInScope(v, Some("a"));
    assert Listed(v, Some("a"), [other], weight) == [Entry(other, weight)];
    assert OthersAt(v, Some("a")) == [] && LastAt(v, Some("a"), other) == 1;
    assert ListedAt(v, Some("a"), [other]) == [1];
    assert Reconcile(v, Some("a"), [other], weight) == [Entry(other, weight)];
    assert Places(v, Some("a"), [other])[0] == 1;
  }

  /** The add that comes late finds nothing. */
  lemma LateAdd(s: State, steps: seq<Step>, r: State, u: Url, other: Url, weight: int) returns (more: seq<Step>, t: State)
    requires TrueRun(s, steps, r) && |r.reqs| == 1 && r.pool == One(0, u, weight) && u != other
    requires r.reqs[0] == FRESH.(begun := true, chosen := Some(u))
    ensures TrueRun(s, more, t) && more == steps + [Sync("a", [other], weight), Does(0, Add(u))]
    ensures t == r.(pool := One(1, other, weight), reqs := [FRESH.(begun := true, held := Some(u))])
  {
    var a := r.(pool := One(1, other, weight));
    Swapped(0, u, other, weight);
    more := OneMore(s, steps, r, Sync("a", [other], weight), a);
    assert FirstAt(ViewOf(a.pool), u) == 1;
    t := a.(reqs := [FRESH.(begun := true, held := Some(u))]);
    assert a.reqs[0 := t.reqs[0]] == t.reqs;
    more := OneMore(s, more, a, Does(0, Add(u)), t);
  }

  lemma LateReturn(s: State, steps: seq<Step>, r: State, u: Url, other: Url, weight: int) returns (more: seq<Step>, t: State)
    requires TrueRun(s, steps, r) && r.pool == One(1, other, weight) && u != other
    requires r.reqs == [FRESH.(begun := true, held := Some(u))]
    ensures TrueRun(s, more, t) && more == steps + [Does(0, Forward(u, None)), Sync("a", [u], weight)]
    ensures t == r.(pool := One(2, u, weight), reqs := [Tried(u).(held := Some(u))])
  {
    var a := r.(reqs := [Tried(u).(held := Some(u))]);
    assert FRESH.forwards + [(u, None)] == [(u, None)];
    assert r.reqs[0 := a.reqs[0]] == a.reqs;
    more := OneMore(s, steps, r, Does(0, Forward(u, None)), a);
    t := a.(pool := One(2, u, weight));
    Swapped(1, other, u, weight);
    more := OneMore(s, more, a, Sync("a", [u], weight), t);
  }

  lemma LateChoose(s: State, u: Url, weight: int) returns (steps: seq<Step>, r: State)
    requires s == Initial([Entry(u, weight)], 1)
    ensures TrueRun(s, steps, r) && r.pool == One(0, u, weight) && r.reqs == [FRESH.(begun := true, chosen := Some(u))]
    ensures steps == [Does(0, BeginRequest), Does(0, ReadHealthy(Healthy([Entry(u, weight)]))), Does(0, Choose(u))]
  {
    var v := [Entry(u, weight)];
    assert s.pool == One(0, u, weight) && ViewOf(s.pool) == v;
    HealthyMembers(v);
    assert v[0] in v;
    steps, r := Chooses(s, 0, u);
    assert r.reqs == [r.reqs[0]];
  }

  lemma LateTaken(s: State, u: Url, other: Url, weight: int) returns (steps: seq<Step>, b: State)
    requires u != other && s == Initial([Entry(u, weight)], 1)
    ensures TrueRun(s, steps, b) && steps == LateRun([Entry(u, weight)], u, other, weight)[..5]
    ensures b.pool == One(1, other, weight) && b.reqs == [FRESH.(begun := true, held := Some(u))]
  {
    steps, b := LateChoose(s, u, weight);
    steps, b := LateAdd(s, steps, b, u, other, weight);
  }

  lemma LateHeld(u: Url, other: Url, weight: int) returns (steps: seq<Step>, b: State)
    requires u != other
    ensures TrueRun(Initial([Entry(u, weight)], 1), steps, b)
    ensures steps == LateRun([Entry(u, weight)], u, other, weight)[..7]
    ensures b.pool == One(2, u, weight) && b.reqs == [Tried(u).(held := Some(u))]
  {
    var s := Initial([Entry(u, weight)], 1);
    steps, b := LateTaken(s, u, other, weight);
    steps, b := LateReturn(s, steps, b, u, other, weight);
  }

  /** The late add counts nothing, the release counts anyway: the pool ends with a counter of -1. */
  lemma LateAddGoesNegative(u: Url, other: Url, weight: int) returns (r: State)
    requires u != other
    ensures TrueRun(Initial([Entry(u, weight)], 1), LateRun([Entry(u, weight)], u, other, weight), r)
    ensures ConnsAt(ViewOf(r.pool), u) == -1 && !Right(r)
  {
    var steps, b := LateHeld(u, other, weight);
    assert Uncounted(ViewOf(b.pool), u) by {
      assert ViewOf(b.pool)[0].url == u;
    }
    r := Loosed(b, 0, u);
    steps := OneMore(Initial([Entry(u, weight)], 1), steps, b, Does(0, Remove(u)), r);
    assert steps == LateRun([Entry(u, weight)], u, other, weight);
  }

  // ---------- The requests of these runs are the handler's ----------

  /** In both kinds of run, with the sync that comes first or without it, the request does what the handler
      does that finds its backend broken. */
  lemma BreakingRunsAreHandled(v: seq<Server>, i: nat, u: Url, other: Url, tag: string, urls: seq<Url>, weight: int,
                               first: Step, retryReply: Reply, updater: bool)
    requires HasHealthy(v, u) && first.Sync?
    ensures var env := Environment(Healthy(v), Some(u), BROKEN, 0, 0, [], [], retryReply, updater);
            && LogOf(TakeAndLoose(v, i, u, tag, urls, weight), i) <= Script(false, GET, env)
            && LogOf([first] + TakeAndLoose(v, i, u, tag, urls, weight), i) <= Script(false, GET, env)
            && LogOf(LateRun(v, u, other, weight), 0) <= Script(false, GET, env)
  {
    var env := Environment(Healthy(v), Some(u), BROKEN, 0, 0, [], [], retryReply, updater);
    assert env.healthyAtStart != [];
    TriedIsScripted(false, env);
    TakeLog(v, i, u, tag, urls, weight);
    LogAfterSync(first, TakeAndLoose(v, i, u, tag, urls, weight), i);
    LateLog(v, u, other, weight);
  }

  lemma TakeLog(v: seq<Server>, i: nat, u: Url, tag: string, urls: seq<Url>, weight: int)
    ensures LogOf(TakeAndLoose(v, i, u, tag, urls, weight), i) == TryLog(Healthy(v), u)
  {
    var steps, log := TakeAndLoose(v, i, u, tag, urls, weight), TryLog(Healthy(v), u);
    assert LogOf(steps[..0], i) == log[..0];
    for k := 0 to 5
      invariant LogOf(steps[..k], i) == log[..k]
    {
      LogSnoc(steps[..k], steps[k], i);
      assert steps[..k + 1] == steps[..k] + [steps[k]] && log[..k + 1] == log[..k] + [log[k]];
    }
    LogSnoc(steps[..5], steps[5], i);
    LogSnoc(steps[..6], steps[6], i);
    assert steps[..6] == steps[..5] + [steps[5]] && steps == steps[..6] + [steps[6]];
    assert log == log[..5] + [log[5]];
  }

  lemma LateLog(v: seq<Server>, u: Url, other: Url, weight: int)
    ensures LogOf(LateRun(v, u, other, weight), 0) == TryLog(Healthy(v), u)
  {
    var steps, log := LateRun(v, u, other, weight), TryLog(Healthy(v), u);
    var done := [0, 1, 2, 3, 3, 4, 5, 5, 6];
    for k := 0 to 8
      invariant LogOf(steps[..k], 0) == log[..done[k]]
    {
      LogSnoc(steps[..k], steps[k], 0);
      assert steps[..k + 1] == steps[..k] + [steps[k]];
      assert done[k + 1] > done[k] ==> log[..done[k + 1]] == log[..done[k]] + [log[done[k]]];
    }
    assert steps[..8] == steps && log[..6] == log;
  }
}
