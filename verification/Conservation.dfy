/** In-flight conservation: backends' connection counters against the requests that hold them. */
module Conservation {
  import opened Common
  import opened Pool
  import opened SharedPool
  import opened PoolLaws
  import opened Proxy
  import opened System

  /** The counter found under a URL, the way the pool looks it up; none if it does not hold the URL. */
  function ConnsAt(v: seq<Server>, u: Url): int {
    var k := FirstAt(v, u);
    if k < |v| then v[k].conns else 0
  }

  ghost function Holders(reqs: seq<Monitor>, u: Url): nat {
    Count(reqs, (m: Monitor) => m.held == Some(u))
  }

  /** Under every URL the pool counts the requests that hold it. */
  ghost predicate Right(s: State) {
    forall u :: ConnsAt(ViewOf(s.pool), u) == Holders(s.reqs, u)
  }

  /** Slots with the same URL show the same entry. */
  ghost predicate OneEntry(p: Shared) {
    && Coherent(p)
    && forall j, k :: 0 <= j < |p.slots| && 0 <= k < |p.slots| && p.slots[j].s.url == p.slots[k].s.url ==>
         p.slots[j].id == p.slots[k].id
  }

  ghost predicate Sound(s: State) {
    OneEntry(s.pool) && Right(s)
  }

  /** A URL determines the entry. */
  ghost predicate UrlsTell(v: seq<Server>) {
    forall a, b :: a in v && b in v && a.url == b.url ==> a == b
  }

  lemma OneEntryTells(p: Shared)
    requires OneEntry(p)
    ensures UrlsTell(ViewOf(p))
  {
  }

  lemma ConnsOfMember(v: seq<Server>, e: Server)
    requires UrlsTell(v) && e in v
    ensures ConnsAt(v, e.url) == e.conns
  {
    HoldsExactly(v, e.url);
    var k := FirstAt(v, e.url);
    assert v[k] in v;
  }

  /** Consequences: a held backend is in the pool, and no entry's counter is negative. */
  lemma SoundMeans(s: State)
    requires Sound(s)
    ensures forall i :: 0 <= i < |s.reqs| && s.reqs[i].held.Some? ==> Holds(ViewOf(s.pool), s.reqs[i].held.value)
    ensures NonNegative(ViewOf(s.pool))
  {
    var v := ViewOf(s.pool);
    forall i | 0 <= i < |s.reqs| && s.reqs[i].held.Some?
      ensures Holds(v, s.reqs[i].held.value)
    {
      var u := s.reqs[i].held.value;
      CountPositive(s.reqs, i, (m: Monitor) => m.held == Some(u));
      assert ConnsAt(v, u) > 0;
    }
    OneEntryTells(s.pool);
    forall k | 0 <= k < |v|
      ensures v[k].conns >= 0
    {
      ConnsOfMember(v, v[k]);
    }
  }

  // ---------- Counters and marks ----------

  /** Wherever else entries are shared, an add moves the counter found under its URL. */
  lemma AddFound(p: Shared, u: Url, d: int)
    requires Holds(ViewOf(p), u)
    ensures ConnsAt(ViewOf(AddShared(p, u, d)), u) == ConnsAt(ViewOf(p), u) + d
  {
    SameUrlsSameFirst(ViewOf(p), ViewOf(AddShared(p, u, d)), u);
  }

  /** The slots that show the first entry with URL `u` are those with that URL. */
  lemma ShowsThatUrl(p: Shared, u: Url)
    requires OneEntry(p)
    ensures var k := FirstAt(ViewOf(p), u);
            k < |p.slots| ==> forall j :: 0 <= j < |p.slots| ==> (p.slots[j].id == p.slots[k].id <==> p.slots[j].s.url == u)
  {
    var k := FirstAt(ViewOf(p), u);
    if k < |p.slots| {
      assert p.slots[k].s.url == u;
    }
  }

  lemma AddKeeps(p: Shared, u: Url, d: int, x: Url)
    requires OneEntry(p)
    ensures OneEntry(AddShared(p, u, d))
    ensures ConnsAt(ViewOf(AddShared(p, u, d)), x) == ConnsAt(ViewOf(p), x) + (if x == u && Holds(ViewOf(p), u) then d else 0)
  {
    ChangesCoherent(p, u, d, true);
    ShowsThatUrl(p, u);
    SameUrlsSameFirst(ViewOf(p), ViewOf(AddShared(p, u, d)), x);
  }

  lemma MarkKeeps(p: Shared, u: Url, up: bool, x: Url)
    requires OneEntry(p)
    ensures OneEntry(MarkShared(p, u, up))
    ensures ConnsAt(ViewOf(MarkShared(p, u, up)), x) == ConnsAt(ViewOf(p), x)
  {
    ChangesCoherent(p, u, 0, up);
    ShowsThatUrl(p, u);
    SameUrlsSameFirst(ViewOf(p), ViewOf(MarkShared(p, u, up)), x);
  }

  // ---------- Syncs ----------

  /** The list names no URL another source holds, and repeats only URLs this source holds already. */
  ghost predicate Fits(v: seq<Server>, tag: string, urls: seq<Url>) {
    && (forall s :: s in v && s.source != tag ==> s.url !in urls)
    && (forall u :: Repeats(urls, u) ==> Find(v, Some(tag), u).Some?)
  }

  /** Under such a list the counter found under each URL stays: its entry is kept with its counter, or
      there was nothing to count. */
  lemma SyncConns(v: seq<Server>, tag: string, urls: seq<Url>, weight: int, u: Url)
    requires UrlsTell(v) && NonNegative(v) && Fits(v, tag, urls)
    ensures ConnsAt(Reconcile(v, Some(tag), urls, weight), u) == ConnsAt(v, u)
  {
    var r := Reconcile(v, Some(tag), urls, weight);
    HoldsExactly(r, u);
    HoldsExactly(v, u);
    if Holds(r, u) {
      var x := r[FirstAt(r, u)];
      ReconcilePartition(v, Some(tag), urls, weight, x);
      if Holds(v, u) {
        assert v[FirstAt(v, u)] in v;
      }
    } else if Holds(v, u) {
      var e := v[FirstAt(v, u)];
      ReconcilePartition(v, Some(tag), urls, weight, e);
      ReconcilePartition(v, Some(tag), urls, weight, Drained(e));
      ReconcilePartition(v, Some(tag), urls, weight, ListedOne(v, Some(tag), u, weight));
      assert e in v && e.conns >= 0;
    }
  }

  lemma SyncOneEntry(p: Shared, tag: string, urls: seq<Url>, weight: int)
    requires OneEntry(p) && Fits(ViewOf(p), tag, urls)
    ensures OneEntry(SyncShared(p, Some(tag), urls, weight))
  {
    SyncCoherent(p, Some(tag), urls, weight);
    var q := SyncShared(p, Some(tag), urls, weight);
    forall j, k | 0 <= j < k < |q.slots| && q.slots[j].s.url == q.slots[k].s.url
      ensures q.slots[j].id == q.slots[k].id
    {
      SameEntry(p, tag, urls, weight, j, k);
    }
  }

  lemma SameEntry(p: Shared, tag: string, urls: seq<Url>, weight: int, j: nat, k: nat)
    requires OneEntry(p) && Fits(ViewOf(p), tag, urls)
    requires var q := SyncShared(p, Some(tag), urls, weight);
             j < k < |q.slots| && q.slots[j].s.url == q.slots[k].s.url
    ensures var q := SyncShared(p, Some(tag), urls, weight); q.slots[j].id == q.slots[k].id
  {
    var v, at := ViewOf(p), Places(ViewOf(p), Some(tag), urls);
    SlotOrigin(v, Some(tag), urls, weight, j);
    SlotOrigin(v, Some(tag), urls, weight, k);
    PlacesMatch(v, Some(tag), urls, weight);
    if at[j] == |v| == at[k] {
      NewTwice(v, Some(tag), urls, weight, j, k);
      FindIsLast(v, Some(tag), Reconcile(v, Some(tag), urls, weight)[j].url);
    }
  }

  // ---------- Which steps keep the counters right ----------

  /** An add finds its backend in the pool; a sync list fits. */
  ghost predicate Admissible(s: State, step: Step) {
    match step
    case Does(_, e) => e.Add? ==> Holds(ViewOf(s.pool), e.u)
    case Sync(tag, urls, _) => Fits(ViewOf(s.pool), tag, urls)
    case Mark(_, _) => true
  }

  lemma HoldersUpdate(reqs: seq<Monitor>, i: nat, m: Monitor, u: Url)
    requires i < |reqs|
    ensures Holders(reqs[i := m], u)
         == Holders(reqs, u) - (if reqs[i].held == Some(u) then 1 else 0) + (if m.held == Some(u) then 1 else 0)
  {
    CountUpdate(reqs, i, m, (m: Monitor) => m.held == Some(u));
  }

  lemma HeldNext(m: Monitor, e: Event)
    requires Next(m, e).Some?
    ensures if e.Add? then m.held.None? && Next(m, e).value.held == Some(e.u)
            else if e.Remove? then m.held == Some(e.u) && Next(m, e).value.held.None?
            else Next(m, e).value.held == m.held
  {
  }

  /** What an event adds to the counter found under `u`. */
  function Moves(e: Event, u: Url): int {
    if e.Add? && e.u == u then 1 else if e.Remove? && e.u == u then -1 else 0
  }

  lemma PoolMoves(s: State, e: Event, u: Url)
    requires OneEntry(s.pool) && (e.Add? || e.Remove? ==> Holds(ViewOf(s.pool), e.u))
    ensures OneEntry(Moved(s, e).pool)
    ensures ConnsAt(ViewOf(Moved(s, e).pool), u) == ConnsAt(ViewOf(s.pool), u) + Moves(e, u)
  {
    if e.Add? {
      AddKeeps(s.pool, e.u, 1, u);
    } else if e.Remove? {
      RemoveIsAdd(s.pool, e.u, 1, -1);
      AddKeeps(s.pool, e.u, -1, u);
    } else if e.MarkDown? {
      MarkKeeps(s.pool, e.u, false, u);
    }
  }

  lemma HoldersMove(reqs: seq<Monitor>, i: nat, e: Event, u: Url)
    requires i < |reqs| && Next(reqs[i], e).Some?
    ensures Holders(reqs[i := Next(reqs[i], e).value], u) == Holders(reqs, u) + Moves(e, u)
  {
    HoldersUpdate(reqs, i, Next(reqs[i], e).value, u);
    HeldNext(reqs[i], e);
  }

  lemma DoesKeeps(s: State, i: nat, e: Event, u: Url)
    requires Sound(s) && Enabled(s, Does(i, e)) && (e.Add? ==> Holds(ViewOf(s.pool), e.u))
    ensures OneEntry(Effect(s, Does(i, e)).pool)
    ensures var t := Effect(s, Does(i, e)); ConnsAt(ViewOf(t.pool), u) == Holders(t.reqs, u)
  {
    SoundMeans(s);
    HeldNext(s.reqs[i], e);
    HoldersMove(s.reqs, i, e, u);
    PoolMoves(s, e, u);
  }

  lemma SoundStep(s: State, step: Step)
    requires Sound(s) && Enabled(s, step) && Admissible(s, step)
    ensures Sound(Effect(s, step))
  {
    SoundMeans(s);
    OneEntryTells(s.pool);
    if step.Sync? {
      SyncOneEntry(s.pool, step.tag, step.urls, step.weight);
    }
    forall u
      ensures OneEntry(Effect(s, step).pool)
      ensures ConnsAt(ViewOf(Effect(s, step).pool), u) == Holders(Effect(s, step).reqs, u)
    {
      match step
      case Mark(x, up) => MarkKeeps(s.pool, x, up, u);
      case Sync(tag, urls, weight) =>
        SyncConns(ViewOf(s.pool), tag, urls, weight, u);
        assert ViewOf(Effect(s, step).pool) == Reconcile(ViewOf(s.pool), Some(tag), urls, weight);
      case Does(i, e) => DoesKeeps(s, i, e, u);
    }
    assert OneEntry(Effect(s, step).pool) by {
      assert ConnsAt(ViewOf(Effect(s, step).pool), Url("")) == Holders(Effect(s, step).reqs, Url(""));
    }
  }

  ghost predicate AllAdmissible(s: State, steps: seq<Step>) {
    steps == [] ||
    (var before := steps[..|steps| - 1];
     AllAdmissible(s, before) && (Run(s, before).Some? ==> Admissible(Run(s, before).value, steps[|steps| - 1])))
  }

  lemma {:induction false} SoundRuns(s: State, steps: seq<Step>)
    requires Sound(s) && Run(s, steps).Some? && AllAdmissible(s, steps)
    ensures Sound(Run(s, steps).value)
  {
    if steps != [] {
      var before := steps[..|steps| - 1];
      SoundRuns(s, before);
      SoundStep(Run(s, before).value, steps[|steps| - 1]);
    }
  }

  // ---------- From the start ----------

  ghost predicate Idle(pool: seq<Server>) {
    Unique(pool, false) && forall k :: 0 <= k < |pool| ==> pool[k].conns == 0
  }

  lemma IdleSound(pool: seq<Server>, n: nat)
    requires Idle(pool)
    ensures Sound(Initial(pool, n))
  {
    assert ViewOf(Alone(pool)) == pool;
    forall j, k | 0 <= j < k < |pool|
      ensures pool[j].url != pool[k].url
    {
      assert Key(pool[j], false) != Key(pool[k], false);
    }
    forall u
      ensures ConnsAt(pool, u) == Holders(Initial(pool, n).reqs, u)
    {
      NothingStarted(n, (m: Monitor) => m.held == Some(u));
    }
  }

  /** Counters, held backends and signs as they should be. */
  ghost predicate InFlightRight(s: State) {
    && Right(s) && NonNegative(ViewOf(s.pool))
    && forall i :: 0 <= i < |s.reqs| && s.reqs[i].held.Some? ==> Holds(ViewOf(s.pool), s.reqs[i].held.value)
  }

  /** In-flight conservation: over every interleaving of admissible steps the counter found under each URL
      is the number of requests holding it, no held backend has left the pool, no counter is negative. */
  lemma {:induction false} InFlightConservation(pool: seq<Server>, n: nat, steps: seq<Step>)
    requires Idle(pool) && Run(Initial(pool, n), steps).Some? && AllAdmissible(Initial(pool, n), steps)
    ensures InFlightRight(Run(Initial(pool, n), steps).value)
  {
    IdleSound(pool, n);
    SoundRuns(Initial(pool, n), steps);
    SoundMeans(Run(Initial(pool, n), steps).value);
  }

  // ---------- The discipline that makes every step admissible ----------

  /** Every entry belongs to the source that owns its URL. */
  ghost predicate Owned(v: seq<Server>, owner: Url -> string) {
    forall s :: s in v ==> s.source == owner(s.url)
  }

  /** A list without repetitions, of URLs its source owns. */
  ghost predicate OwnList(tag: string, urls: seq<Url>, owner: Url -> string) {
    NoDup(urls) && forall u :: u in urls ==> owner(u) == tag
  }

  /** Request i chose `u`, and no sync has run since. */
  ghost predicate JustChosen(steps: seq<Step>, i: nat, u: Url) {
    steps != [] &&
    (var last := steps[|steps| - 1];
     last == Does(i, Choose(u)) || (!last.Sync? && JustChosen(steps[..|steps| - 1], i, u)))
  }

  /** Sources list their own URLs, requests choose healthy ones, and no sync runs between a choice and the
      add that follows it; anything else may, the first time as on the retry. */
  ghost predicate Disciplined(s: State, steps: seq<Step>, owner: Url -> string) {
    steps == [] ||
    (var before, last := steps[..|steps| - 1], steps[|steps| - 1];
     && Disciplined(s, before, owner)
     && (last.Sync? ==> OwnList(last.tag, last.urls, owner))
     && (last.Does? && last.e.Choose? && Run(s, before).Some? ==> HasHealthy(ViewOf(Run(s, before).value.pool), last.e.u))
     && (last.Does? && last.e.Add? ==> JustChosen(before, last.i, last.e.u)))
  }

  lemma OwnedSync(v: seq<Server>, tag: string, urls: seq<Url>, weight: int, owner: Url -> string)
    requires Owned(v, owner) && OwnList(tag, urls, owner)
    ensures Owned(Reconcile(v, Some(tag), urls, weight), owner) && Fits(v, tag, urls)
  {
    var r := Reconcile(v, Some(tag), urls, weight);
    forall s | s in r
      ensures s.source == owner(s.url)
    {
      ReconcilePartition(v, Some(tag), urls, weight, s);
    }
  }

  /** Steps other than syncs change no URL and no source of the slice. */
  lemma OnlySyncsMove(s: State, step: Step)
    requires Enabled(s, step) && !step.Sync?
    ensures SamePlaces(ViewOf(s.pool), ViewOf(Effect(s, step).pool))
  {
    match step
    case Mark(u, up) => ChangesStay(s.pool, u, 0, up);
    case Does(_, e) =>
      if e.Remove? {
        RemoveIsAdd(s.pool, e.u, 1, -1);
      }
      if e.Add? || e.Remove? || e.MarkDown? {
        ChangesStay(s.pool, e.u, if e.Add? then 1 else -1, false);
      }
  }

  ghost predicate SamePlaces(v: seq<Server>, w: seq<Server>) {
    |w| == |v| && forall k :: 0 <= k < |v| ==> w[k].url == v[k].url && w[k].source == v[k].source
  }

  lemma ChangesStay(p: Shared, u: Url, d: int, up: bool)
    ensures SamePlaces(ViewOf(p), ViewOf(AddShared(p, u, d))) && SamePlaces(ViewOf(p), ViewOf(MarkShared(p, u, up)))
  {
  }

  /** A backend chosen while healthy is in the pool until the next sync, whatever else happens. */
  lemma {:induction false} ChosenIsHeld(s: State, steps: seq<Step>, owner: Url -> string, i: nat, u: Url)
    requires Run(s, steps).Some? && Disciplined(s, steps, owner) && JustChosen(steps, i, u)
    ensures Holds(ViewOf(Run(s, steps).value.pool), u)
  {
    var before, last := steps[..|steps| - 1], steps[|steps| - 1];
    var r := Run(s, before).value;
    if last == Does(i, Choose(u)) {
      HealthyMembers(ViewOf(r.pool));
      HoldsExactly(ViewOf(r.pool), u);
    } else {
      ChosenIsHeld(s, before, owner, i, u);
    }
    OnlySyncsMove(r, last);
    SameUrlsSameFirst(ViewOf(r.pool), ViewOf(Run(s, steps).value.pool), u);
  }

  lemma OwnedStep(s: State, step: Step, owner: Url -> string)
    requires Owned(ViewOf(s.pool), owner) && Enabled(s, step)
    requires step.Sync? ==> OwnList(step.tag, step.urls, owner)
    ensures Owned(ViewOf(Effect(s, step).pool), owner)
    ensures step.Sync? ==> Fits(ViewOf(s.pool), step.tag, step.urls)
  {
    var v, w := ViewOf(s.pool), ViewOf(Effect(s, step).pool);
    if step.Sync? {
      OwnedSync(v, step.tag, step.urls, step.weight, owner);
      assert w == Reconcile(v, Some(step.tag), step.urls, step.weight);
    } else {
      OnlySyncsMove(s, step);
      forall k | 0 <= k < |w|
        ensures w[k].source == owner(w[k].url)
      {
        assert v[k] in v;
      }
    }
  }

  lemma {:induction false} DisciplineAdmits(s: State, steps: seq<Step>, owner: Url -> string)
    requires Owned(ViewOf(s.pool), owner) && Run(s, steps).Some? && Disciplined(s, steps, owner)
    ensures AllAdmissible(s, steps) && Owned(ViewOf(Run(s, steps).value.pool), owner)
  {
    if steps != [] {
      var before, last := steps[..|steps| - 1], steps[|steps| - 1];
      DisciplineAdmits(s, before, owner);
      OwnedStep(Run(s, before).value, last, owner);
      if last.Does? && last.e.Add? {
        ChosenIsHeld(s, before, owner, last.i, last.e.u);
      }
    }
  }

  /** In-flight conservation in terms of schedules: while each source lists only URLs of its own, once each,
      and every selection, first or for a retry, takes a healthy backend and is added before the next sync,
      the counters are right in every reachable state. */
  lemma {:induction false} DisciplinedConservation(pool: seq<Server>, n: nat, steps: seq<Step>, owner: Url -> string)
    requires Idle(pool) && Owned(pool, owner)
    requires Run(Initial(pool, n), steps).Some? && Disciplined(Initial(pool, n), steps, owner)
    ensures InFlightRight(Run(Initial(pool, n), steps).value)
  {
    assert ViewOf(Alone(pool)) == pool;
    DisciplineAdmits(Initial(pool, n), steps, owner);
    InFlightConservation(pool, n, steps);
  }
}
