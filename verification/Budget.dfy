/** The retry budget over whole schedules: what it bounds, by how much it can be exceeded, and how. */
module Budget {
  import opened Common
  import opened Pool
  import opened SharedPool
  import opened PoolLaws
  import opened Proxy
  import opened System

  // ---------- Checked and counted as one step ----------

  /** A step that can use up budget: a request ends, or another retry is counted. */
  predicate Uses(step: Step) {
    step.Does? && (step.e.EndRequest? || step.e.BeginRetry?)
  }

  /** Request i began to read the counters, and no budget was used since. */
  ghost predicate JustRead(steps: seq<Step>, i: nat) {
    steps != [] &&
    (var last := steps[|steps| - 1];
     (last.Does? && last.i == i && last.e.ReadTotal?) || (!Uses(last) && JustRead(steps[..|steps| - 1], i)))
  }

  /** Between a request's reads and the retry they grant no request ends and no other retry begins; new
      requests may arrive and retries may end. */
  ghost predicate Uninterrupted(steps: seq<Step>) {
    forall k, i :: 0 <= k < |steps| && steps[k] == Does(i, BeginRetry) ==> JustRead(steps[..k], i)
  }

  /** There are at least as many requests, and at most as many retries, as the request has read. */
  predicate StillGood(s: State, i: nat) {
    && i < |s.reqs| && s.reqs[i].total.Some? && s.reqs[i].total.value <= s.total
    && (s.reqs[i].retries.Some? ==> s.retries <= s.reqs[i].retries.value)
  }

  lemma StillGoodStep(s: State, step: Step, i: nat)
    requires Enabled(s, step)
    requires (step.Does? && step.i == i && step.e.ReadTotal?) || (!Uses(step) && StillGood(s, i))
    ensures StillGood(Effect(s, step), i)
  {
  }

  lemma {:induction false} ReadsStayGood(pool: seq<Server>, n: nat, steps: seq<Step>, i: nat)
    requires Run(Initial(pool, n), steps).Some? && JustRead(steps, i)
    ensures StillGood(Run(Initial(pool, n), steps).value, i)
  {
    var before, last := steps[..|steps| - 1], steps[|steps| - 1];
    if !(last.Does? && last.i == i && last.e.ReadTotal?) {
      ReadsStayGood(pool, n, before, i);
    }
    StillGoodStep(Run(Initial(pool, n), before).value, last, i);
  }

  lemma {:induction false} RunPrefix(s: State, steps: seq<Step>, k: nat)
    requires k <= |steps| && Run(s, steps).Some?
    ensures Run(s, steps[..k]).Some?
    ensures k < |steps| ==> Enabled(Run(s, steps[..k]).value, steps[k])
                            && Run(s, steps[..k + 1]) == Some(Effect(Run(s, steps[..k]).value, steps[k]))
    decreases |steps|
  {
    if k < |steps| - 1 {
      var before := steps[..|steps| - 1];
      RunPrefix(s, before, k);
      assert before[..k] == steps[..k] && before[..k + 1] == steps[..k + 1];
    } else if k == |steps| - 1 {
      assert steps[..k + 1] == steps;
    } else {
      assert steps[..k] == steps;
    }
  }

  lemma BeginWithinBudget(s: State, i: nat)
    requires Enabled(s, Does(i, BeginRetry)) && StillGood(s, i) && s.reqs[i].total.value >= 1
    ensures var t := Effect(s, Does(i, BeginRetry)); 5 * (t.retries - 1) <= t.total
  {
  }

  /** Retry k of a run, counted: at most a fifth of the requests in flight retry besides it. */
  ghost predicate WithinBudget(s: State, steps: seq<Step>, k: nat)
    requires k < |steps|
  {
    Run(s, steps[..k + 1]).Some? && var t := Run(s, steps[..k + 1]).value; 5 * (t.retries - 1) <= t.total
  }

  /** Every retry of the run, as it is counted. */
  ghost predicate RetriesWithin(s: State, steps: seq<Step>) {
    forall k, i :: 0 <= k < |steps| && steps[k] == Does(i, BeginRetry) ==> WithinBudget(s, steps, k)
  }

  /** While nothing uses budget between reading and counting, every retry that starts anywhere in a run
      leaves at most a fifth of the requests in flight retrying besides itself. */
  lemma {:induction false} GrantWithinBudget(pool: seq<Server>, n: nat, steps: seq<Step>)
    requires Run(Initial(pool, n), steps).Some? && Uninterrupted(steps)
    ensures RetriesWithin(Initial(pool, n), steps)
  {
    forall k, i | 0 <= k < |steps| && steps[k] == Does(i, BeginRetry)
      ensures WithinBudget(Initial(pool, n), steps, k)
    {
      RunPrefix(Initial(pool, n), steps, k);
      RetryWithinBudget(pool, n, steps[..k], i, Run(Initial(pool, n), steps[..k]).value);
    }
  }

  lemma RetryWithinBudget(pool: seq<Server>, n: nat, steps: seq<Step>, i: nat, s: State)
    requires Run(Initial(pool, n), steps) == Some(s) && JustRead(steps, i) && Enabled(s, Does(i, BeginRetry))
    ensures var t := Effect(s, Does(i, BeginRetry)); 5 * (t.retries - 1) <= t.total
  {
    ReadsStayGood(pool, n, steps, i);
    ReadAtLeastOne(pool, n, steps, i, s);
    BeginWithinBudget(s, i);
  }

  lemma ReadAtLeastOne(pool: seq<Server>, n: nat, steps: seq<Step>, i: nat, s: State)
    requires Run(Initial(pool, n), steps) == Some(s) && i < |s.reqs| && s.reqs[i].total.Some?
    ensures s.reqs[i].total.value >= 1
  {
    OvershootInvariant(pool, n, steps, MostPending(Initial(pool, n), steps));
    assert ReadBelow(s.reqs[i], Peak(Initial(pool, n), steps));
  }

  // ---------- How far the budget can be exceeded ----------

  /** Grants read and not yet counted. */
  ghost function Pending(reqs: seq<Monitor>): nat {
    Count(reqs, (m: Monitor) => Granted(m))
  }

  function Max(a: int, b: int): int {
    if a < b then b else a
  }

  /** The most requests in flight at any moment so far. */
  ghost function Peak(s: State, steps: seq<Step>): int
    requires Run(s, steps).Some?
  {
    if steps == [] then s.total else Max(Peak(s, steps[..|steps| - 1]), Run(s, steps).value.total)
  }

  /** The most grants pending at any moment so far. */
  ghost function MostPending(s: State, steps: seq<Step>): nat
    requires Run(s, steps).Some?
  {
    if steps == [] then Pending(s.reqs) else Max(MostPending(s, steps[..|steps| - 1]), Pending(Run(s, steps).value.reqs))
  }

  /** What a request has read of the request counter is at least one and no higher than the peak. */
  predicate ReadBelow(m: Monitor, peak: int) {
    m.total.Some? ==> 1 <= m.total.value <= peak
  }

  ghost predicate AllReadBelow(reqs: seq<Monitor>, peak: int) {
    forall i :: 0 <= i < |reqs| ==> ReadBelow(reqs[i], peak)
  }

  /** A grant appears only by reading the second counter within the budget, and a retry uses one up. */
  lemma GrantedNext(m: Monitor, e: Event)
    requires Consistent(m) && Next(m, e).Some?
    ensures Granted(Next(m, e).value) && !Granted(m) ==>
              e.ReadRetries? && m.total.Some? && !OverBudget(m.total.value, e.v)
    ensures e.BeginRetry? ==> Granted(m) && !Granted(Next(m, e).value)
  {
  }

  /** One step: a grant is read while the counters are within the budget, and counting it moves it from
      the pending ones to the retries. */
  lemma PendingStep(s: State, i: nat, e: Event, peak: int, g: nat)
    requires Enabled(s, Does(i, e)) && ReadBelow(s.reqs[i], peak) && Consistent(s.reqs[i])
    requires 5 * (s.retries + Pending(s.reqs) - g) <= peak
    requires Pending(Effect(s, Does(i, e)).reqs) <= g
    ensures var t := Effect(s, Does(i, e)); 5 * (t.retries + Pending(t.reqs) - g) <= peak
  {
    var m, n := s.reqs[i], Next(s.reqs[i], e).value;
    CountUpdate(s.reqs, i, n, (m: Monitor) => Granted(m));
    GrantedNext(m, e);
  }

  lemma ReadsStep(s: State, i: nat, e: Event, peak: int)
    requires Enabled(s, Does(i, e)) && AllReadBelow(s.reqs, peak) && s.total <= peak
    requires Active(s.reqs[i]) ==> s.total >= 1
    ensures AllReadBelow(Effect(s, Does(i, e)).reqs, Max(peak, Effect(s, Does(i, e)).total))
  {
    var n := Next(s.reqs[i], e).value;
    assert ReadBelow(s.reqs[i], peak);
    assert ReadBelow(n, peak);
  }

  ghost predicate Bounded(s: State, peak: int, g: nat) {
    && AllReadBelow(s.reqs, peak) && 0 <= s.total <= peak
    && Pending(s.reqs) <= g && 5 * (s.retries + Pending(s.reqs) - g) <= peak
  }

  lemma BoundedStep(s: State, step: Step, peak: int, g: nat)
    requires Enabled(s, step) && Bounded(s, peak, g)
    requires CountersRight(s) && forall i :: 0 <= i < |s.reqs| && Active(s.reqs[i]) ==> s.total >= 1
    requires Effect(s, step).total >= 0 && Pending(Effect(s, step).reqs) <= g
    ensures Bounded(Effect(s, step), Max(peak, Effect(s, step).total), g)
  {
    if step.Does? {
      PendingStep(s, step.i, step.e, peak, g);
      ReadsStep(s, step.i, step.e, peak);
    }
  }

  lemma {:induction false} OvershootInvariant(pool: seq<Server>, n: nat, steps: seq<Step>, g: nat)
    requires Run(Initial(pool, n), steps).Some? && MostPending(Initial(pool, n), steps) <= g
    ensures Bounded(Run(Initial(pool, n), steps).value, Peak(Initial(pool, n), steps), g)
  {
    if steps == [] {
      NothingStarted(n, (m: Monitor) => Granted(m));
    } else {
      var before, last := steps[..|steps| - 1], steps[|steps| - 1];
      OvershootInvariant(pool, n, before, g);
      CountersAlways(pool, n, before);
      CounterBounds(pool, n, before);
      CounterBounds(pool, n, steps);
      BoundedStep(Run(Initial(pool, n), before).value, last, Peak(Initial(pool, n), before), g);
    }
  }

  /** Over every interleaving: beyond a fifth of the most requests ever in flight there are at most as
      many retries as grants were ever pending at one moment. */
  lemma {:induction false} BoundedOvershoot(pool: seq<Server>, n: nat, steps: seq<Step>)
    requires Run(Initial(pool, n), steps).Some?
    ensures var s := Run(Initial(pool, n), steps).value;
            5 * (s.retries - MostPending(Initial(pool, n), steps)) <= Peak(Initial(pool, n), steps)
  {
    OvershootInvariant(pool, n, steps, MostPending(Initial(pool, n), steps));
  }

  // ---------- The budget is no hard cap ----------

  /** Requests not yet begun over this pool. */
  function From(p: Shared, n: nat): State {
    State(p, 0, 0, seq(n, _ => FRESH))
  }

  /** Neither discovery nor probes nor messages from other instances interfere. */
  ghost predicate RequestsOnly(steps: seq<Step>) {
    forall k :: 0 <= k < |steps| ==> steps[k].Does?
  }

  /** A run of n requests so far: where it leads, what each request has done, every read a true one. */
  ghost predicate Reached(p: Shared, n: nat, steps: seq<Step>, r: State, logs: seq<seq<Event>>) {
    && Run(From(p, n), steps) == Some(r) && Truthful(From(p, n), steps) && RequestsOnly(steps)
    && |logs| == n == |r.reqs| && forall j :: 0 <= j < n ==> LogOf(steps, j) == logs[j]
  }

  /** Where a run is, seen by request k: the rest of the state, its monitor and its log. */
  datatype Spot = Spot(r: State, m: Monitor, log: seq<Event>)

  ghost predicate Stands(p: Shared, n: nat, steps: seq<Step>, logs: seq<seq<Event>>, k: nat, s: Spot) {
    k < n == |s.r.reqs| == |logs| && Reached(p, n, steps, At(s.r, k, s.m), logs[k := s.log])
  }

  ghost predicate Moves(s: Spot, k: nat, e: Event, t: Spot) {
    && t.r == Moved(s.r, e) && Next(s.m, e) == Some(t.m) && t.log == s.log + [e]
    && (e.ReadTotal? ==> e.v == s.r.total) && (e.ReadRetries? ==> e.v == s.r.retries)
    && TruthfulStep(s.r, Does(k, e))
  }

  /** Request k takes one more step. */
  lemma Extend(p: Shared, n: nat, steps: seq<Step>, logs: seq<seq<Event>>, k: nat, s: Spot, e: Event, t: Spot)
    returns (more: seq<Step>)
    requires Stands(p, n, steps, logs, k, s) && Moves(s, k, e, t)
    ensures Stands(p, n, more, logs, k, t) && more == steps + [Does(k, e)]
  {
    ExtendState(s, k, e, t);
    more := OneMore(From(p, n), steps, At(s.r, k, s.m), Does(k, e), At(t.r, k, t.m));
    forall j | 0 <= j < n
      ensures LogOf(more, j) == logs[k := t.log][j]
    {
      ExtendLog(steps, logs, k, s.log, e, j);
    }
  }

  lemma ExtendLog(steps: seq<Step>, logs: seq<seq<Event>>, k: nat, log: seq<Event>, e: Event, j: nat)
    requires k < |logs| && j < |logs| && LogOf(steps, j) == logs[k := log][j]
    ensures LogOf(steps + [Does(k, e)], j) == logs[k := log + [e]][j]
  {
    LogSnoc(steps, Does(k, e), j);
  }

  lemma ExtendState(s: Spot, k: nat, e: Event, t: Spot)
    requires k < |s.r.reqs| && Moves(s, k, e, t)
    ensures var a := At(s.r, k, s.m);
            Enabled(a, Does(k, e)) && TruthfulStep(a, Does(k, e)) && |t.r.reqs| == |s.r.reqs|
            && Effect(a, Does(k, e)) == At(t.r, k, t.m)
  {
    assert s.r.reqs[k := s.m][k := t.m] == t.r.reqs[k := t.m];
  }

  function At(r: State, k: nat, m: Monitor): State
    requires k < |r.reqs|
  {
    r.(reqs := r.reqs[k := m])
  }

  lemma AddRemove(p: Shared, u: Url)
    ensures RemoveShared(AddShared(p, u, 1), u, 1) == p
  {
    var k, q := FirstAt(ViewOf(p), u), AddShared(p, u, 1);
    if k < |p.slots| {
      SameUrlsSameFirst(ViewOf(p), ViewOf(q), u);
      assert RemoveShared(q, u, 1).slots == p.slots;
    }
  }

  function Asked(u: Url, n: nat): Monitor {
    Tried(u).(total := Some(n), retries := Some(0))
  }

  lemma Standing(p: Shared, n: nat, steps: seq<Step>, r: State, logs: seq<seq<Event>>, k: nat)
    requires Reached(p, n, steps, r, logs) && k < n
    ensures Stands(p, n, steps, logs, k, Spot(r, r.reqs[k], logs[k]))
  {
    assert At(r, k, r.reqs[k]) == r && logs[k := logs[k]] == logs;
  }

  /** Request k begins, reads the pool, tries `u`, gets an error and lets go. */
  lemma OneTries(p: Shared, n: nat, steps: seq<Step>, r: State, logs: seq<seq<Event>>, k: nat, u: Url)
    returns (more: seq<Step>)
    requires Reached(p, n, steps, r, logs) && k < n && r.reqs[k] == FRESH && logs[k] == []
    requires HasHealthy(ViewOf(r.pool), u)
    ensures Reached(p, n, more, At(r.(total := r.total + 1), k, Tried(u)), logs[k := TryLog(Healthy(ViewOf(r.pool)), u)])
  {
    Standing(p, n, steps, r, logs, k);
    var c, e, f;
    more, c := Begins(p, n, steps, logs, k, u, Spot(r, FRESH, []));
    more, e := Takes(p, n, more, logs, k, u, c);
    more, f := LetsGo(p, n, more, logs, k, u, c.r, e);
    assert f.log == TryLog(Healthy(ViewOf(r.pool)), u);
  }

  lemma Takes(p: Shared, n: nat, steps: seq<Step>, logs: seq<seq<Event>>, k: nat, u: Url, c: Spot)
    returns (more: seq<Step>, e: Spot)
    requires Stands(p, n, steps, logs, k, c) && c.m == FRESH.(begun := true, chosen := Some(u))
    ensures Stands(p, n, more, logs, k, e) && e.r == c.r.(pool := AddShared(c.r.pool, u, 1))
    ensures e.m == Tried(u).(held := Some(u)) && e.log == c.log + [Add(u), Forward(u, None)]
  {
    var d := Spot(c.r.(pool := AddShared(c.r.pool, u, 1)), FRESH.(begun := true, held := Some(u)), c.log + [Add(u)]);
    more := Extend(p, n, steps, logs, k, c, Add(u), d);
    e := d.(m := Tried(u).(held := Some(u)), log := d.log + [Forward(u, None)]);
    assert FRESH.forwards + [(u, None)] == [(u, None)];
    more := Extend(p, n, more, logs, k, d, Forward(u, None), e);
  }

  lemma LetsGo(p: Shared, n: nat, steps: seq<Step>, logs: seq<seq<Event>>, k: nat, u: Url, r: State, e: Spot)
    returns (more: seq<Step>, f: Spot)
    requires Stands(p, n, steps, logs, k, e) && e.r == r.(pool := AddShared(r.pool, u, 1)) && e.m == Tried(u).(held := Some(u))
    ensures Stands(p, n, more, logs, k, f) && f == Spot(r, Tried(u), e.log + [Remove(u)])
  {
    f := Spot(r, Tried(u), e.log + [Remove(u)]);
    AddRemove(r.pool, u);
    more := Extend(p, n, steps, logs, k, e, Remove(u), f);
  }

  lemma Begins(p: Shared, n: nat, steps: seq<Step>, logs: seq<seq<Event>>, k: nat, u: Url, s: Spot)
    returns (more: seq<Step>, c: Spot)
    requires Stands(p, n, steps, logs, k, s) && s.m == FRESH && s.log == [] && HasHealthy(ViewOf(s.r.pool), u)
    ensures Stands(p, n, more, logs, k, c) && c.r == s.r.(total := s.r.total + 1)
    ensures c.m == FRESH.(begun := true, chosen := Some(u))
    ensures c.log == [BeginRequest, ReadHealthy(Healthy(ViewOf(s.r.pool))), Choose(u)]
  {
    var h := Healthy(ViewOf(s.r.pool));
    var a := Spot(s.r.(total := s.r.total + 1), FRESH.(begun := true), s.log + [BeginRequest]);
    more := Extend(p, n, steps, logs, k, s, BeginRequest, a);
    var b := a.(log := a.log + [ReadHealthy(h)]);
    more := Extend(p, n, more, logs, k, a, ReadHealthy(h), b);
    c := b.(m := a.m.(chosen := Some(u)), log := b.log + [Choose(u)]);
    more := Extend(p, n, more, logs, k, b, Choose(u), c);
  }

  /** Requests below `k` have done as the first list says, the others as the second. */
  ghost predicate Phase<T>(s: seq<T>, n: nat, k: nat, x: T, y: T) {
    |s| == n && forall i :: 0 <= i < n ==> s[i] == if i < k then x else y
  }

  lemma {:induction false} AllTry(p: Shared, n: nat, k: nat, u: Url)
    returns (steps: seq<Step>, r: State, logs: seq<seq<Event>>)
    requires k <= n && HasHealthy(ViewOf(p), u)
    ensures Reached(p, n, steps, r, logs) && r.pool == p && r.total == k && r.retries == 0
    ensures Phase(r.reqs, n, k, Tried(u), FRESH) && Phase(logs, n, k, TryLog(Healthy(ViewOf(p)), u), [])
  {
    if k == 0 {
      steps, r, logs := [], From(p, n), seq(n, _ => []);
    } else {
      steps, r, logs := AllTry(p, n, k - 1, u);
      steps := OneTries(p, n, steps, r, logs, k - 1, u);
      r := At(r.(total := k), k - 1, Tried(u));
      logs := logs[k - 1 := TryLog(Healthy(ViewOf(p)), u)];
    }
  }

  lemma OneAsks(p: Shared, n: nat, steps: seq<Step>, r: State, logs: seq<seq<Event>>, k: nat, u: Url)
    returns (more: seq<Step>)
    requires Reached(p, n, steps, r, logs) && k < n && r.reqs[k] == Tried(u) && r.total == n && r.retries == 0
    ensures Reached(p, n, more, At(r, k, Asked(u, n)), logs[k := logs[k] + [ReadTotal(n), ReadRetries(0)]])
  {
    Standing(p, n, steps, r, logs, k);
    var s := Spot(r, Tried(u), logs[k]);
    var a := s.(m := Tried(u).(total := Some(n)), log := s.log + [ReadTotal(n)]);
    more := Extend(p, n, steps, logs, k, s, ReadTotal(n), a);
    var b := s.(m := Asked(u, n), log := a.log + [ReadRetries(0)]);
    more := Extend(p, n, more, logs, k, a, ReadRetries(0), b);
    assert b.log == logs[k] + [ReadTotal(n), ReadRetries(0)];
  }

  function AskLog(healthy: seq<Server>, u: Url, n: nat): seq<Event> {
    TryLog(healthy, u) + [ReadTotal(n), ReadRetries(0)]
  }

  lemma {:induction false} AllAsk(p: Shared, n: nat, k: nat, u: Url)
    returns (steps: seq<Step>, r: State, logs: seq<seq<Event>>)
    requires k <= n && HasHealthy(ViewOf(p), u)
    ensures Reached(p, n, steps, r, logs) && r.pool == p && r.total == n && r.retries == 0
    ensures Phase(r.reqs, n, k, Asked(u, n), Tried(u))
    ensures Phase(logs, n, k, AskLog(Healthy(ViewOf(p)), u, n), TryLog(Healthy(ViewOf(p)), u))
  {
    if k == 0 {
      steps, r, logs := AllTry(p, n, n, u);
    } else {
      steps, r, logs := AllAsk(p, n, k - 1, u);
      steps := OneAsks(p, n, steps, r, logs, k - 1, u);
      r, logs := At(r, k - 1, Asked(u, n)), logs[k - 1 := AskLog(Healthy(ViewOf(p)), u, n)];
    }
  }

  // ---------- From the grant to the retry ----------

  /** The pool once a request has seen `u` fail. */
  ghost function Downed(p: Shared, u: Url): Shared {
    if SeenDown(ViewOf(p), u) then p else MarkShared(p, u, false)
  }

  lemma DownedIsSeen(p: Shared, u: Url)
    requires Holds(ViewOf(p), u)
    ensures SeenDown(ViewOf(Downed(p, u)), u)
  {
    if !SeenDown(ViewOf(p), u) {
      var k := FirstAt(ViewOf(p), u);
      assert ViewOf(MarkShared(p, u, false))[k].url == u && !ViewOf(MarkShared(p, u, false))[k].healthy;
    }
  }

  ghost function RetryLog(env: Environment, w: Url): seq<Event>
    requires env.target.Some?
  {
    Takedown(env) + [ReadHealthy(env.healthyNow), Choose(w), BeginRetry]
  }

  ghost predicate EndsInRetry(steps: seq<Step>) {
    steps != [] && steps[|steps| - 1].Does? && steps[|steps| - 1].e.BeginRetry?
  }

  /** Request k marks `u` down unless that is done, chooses `w` and counts its retry. */
  lemma OneRetries(p: Shared, n: nat, steps: seq<Step>, r: State, logs: seq<seq<Event>>, k: nat, u: Url, w: Url,
                   env: Environment) returns (more: seq<Step>, s: State)
    requires Reached(p, n, steps, r, logs) && k < n && r.reqs[k] == Asked(u, n) && u != w
    requires env.target == Some(u) && env.allServers == ViewOf(r.pool) && env.healthyNow == Healthy(ViewOf(Downed(r.pool, u)))
    requires HasHealthy(ViewOf(Downed(r.pool, u)), w)
    ensures Reached(p, n, more, s, logs[k := logs[k] + RetryLog(env, w)])
    ensures s.pool == Downed(r.pool, u) && s.total == r.total && s.retries == r.retries + 1
    ensures EndsInRetry(more)
    ensures |s.reqs| == n && s.reqs[k].retrying && forall i :: 0 <= i < n && i != k ==> s.reqs[i] == r.reqs[i]
  {
    Standing(p, n, steps, r, logs, k);
    var a, d;
    more, a := TakesDown(p, n, steps, logs, k, u, env, Spot(r, Asked(u, n), logs[k]));
    more, d := Recovers(p, n, more, logs, k, u, w, a);
    s := At(d.r, k, d.m);
    assert d.log == logs[k] + RetryLog(env, w);
  }

  /** It reads the pool again, chooses `w` there and counts its retry. */
  lemma Recovers(p: Shared, n: nat, steps: seq<Step>, logs: seq<seq<Event>>, k: nat, u: Url, w: Url, a: Spot)
    returns (more: seq<Step>, d: Spot)
    requires Stands(p, n, steps, logs, k, a) && Granted(a.m) && a.m.chosen.None? && a.m.forwards == [(u, None)] && u != w
    requires HasHealthy(ViewOf(a.r.pool), w)
    ensures Stands(p, n, more, logs, k, d) && EndsInRetry(more)
    ensures d.r == a.r.(retries := a.r.retries + 1) && d.m.retrying
    ensures d.log == a.log + [ReadHealthy(Healthy(ViewOf(a.r.pool))), Choose(w), BeginRetry]
  {
    var h := Healthy(ViewOf(a.r.pool));
    var b := a.(log := a.log + [ReadHealthy(h)]);
    more := Extend(p, n, steps, logs, k, a, ReadHealthy(h), b);
    var c := b.(m := a.m.(chosen := Some(w)), log := b.log + [Choose(w)]);
    more := Extend(p, n, more, logs, k, b, Choose(w), c);
    d := Spot(c.r.(retries := c.r.retries + 1), c.m.(retrying := true), c.log + [BeginRetry]);
    more := Extend(p, n, more, logs, k, c, BeginRetry, d);
  }

  lemma TakesDown(p: Shared, n: nat, steps: seq<Step>, logs: seq<seq<Event>>, k: nat, u: Url, env: Environment, s: Spot)
    returns (more: seq<Step>, t: Spot)
    requires Stands(p, n, steps, logs, k, s) && s.m == Asked(u, n)
    requires env.target == Some(u) && env.allServers == ViewOf(s.r.pool)
    ensures Stands(p, n, more, logs, k, t) && t.r == s.r.(pool := Downed(s.r.pool, u)) && t.log == s.log + Takedown(env)
    ensures Granted(t.m) && t.m.chosen.None? && t.m.forwards == [(u, None)]
  {
    t := s.(log := s.log + [ReadAll(env.allServers)]);
    more := Extend(p, n, steps, logs, k, s, ReadAll(env.allServers), t);
    if !SeenDown(env.allServers, u) {
      more, t := Marks(p, n, more, logs, k, u, env.hasUpdater, t);
    }
    assert t.log == s.log + Takedown(env);
  }

  lemma Marks(p: Shared, n: nat, steps: seq<Step>, logs: seq<seq<Event>>, k: nat, u: Url, updater: bool, s: Spot)
    returns (more: seq<Step>, t: Spot)
    requires Stands(p, n, steps, logs, k, s) && s.m == Asked(u, n)
    ensures Stands(p, n, more, logs, k, t) && t.r == s.r.(pool := MarkShared(s.r.pool, u, false))
    ensures t.log == s.log + ([MarkDown(u)] + (if updater then [PublishDown(u)] else []))
    ensures Granted(t.m) && t.m.chosen.None? && t.m.forwards == [(u, None)]
  {
    t := Spot(s.r.(pool := MarkShared(s.r.pool, u, false)), s.m.(downs := [u]), s.log + [MarkDown(u)]);
    more := Extend(p, n, steps, logs, k, s, MarkDown(u), t);
    if updater {
      var a := t;
      t := a.(m := a.m.(published := [u]), log := a.log + [PublishDown(u)]);
      more := Extend(p, n, more, logs, k, a, PublishDown(u), t);
    }
  }

  // ---------- Everybody retries ----------

  /** What request i reads: the pool before or after `u` was marked down. */
  ghost function Reads(p: Shared, n: nat, i: nat, u: Url, reply: Reply, updater: bool): Environment {
    var down := ViewOf(Downed(p, u));
    Environment(Healthy(ViewOf(p)), Some(u), BROKEN, n, 0, if i == 0 then ViewOf(p) else down, Healthy(down), reply, updater)
  }

  ghost function WholeLog(p: Shared, n: nat, i: nat, u: Url, w: Url, reply: Reply, updater: bool): seq<Event> {
    AskLog(Healthy(ViewOf(p)), u, n) + RetryLog(Reads(p, n, i, u, reply, updater), w)
  }

  lemma HealthyIsHeld(v: seq<Server>, u: Url)
    requires HasHealthy(v, u)
    ensures Holds(v, u)
  {
    HealthyMembers(v);
    HoldsExactly(v, u);
  }

  ghost predicate Retried(p: Shared, n: nat, k: nat, u: Url, w: Url, reply: Reply, updater: bool,
                          r: State, logs: seq<seq<Event>>) {
    && r.pool == (if k == 0 then p else Downed(p, u)) && r.total == n && r.retries == k
    && |r.reqs| == n == |logs|
    && (forall i :: 0 <= i < k <= n ==> r.reqs[i].retrying && logs[i] == WholeLog(p, n, i, u, w, reply, updater))
    && (forall i :: k <= i < n ==> r.reqs[i] == Asked(u, n) && logs[i] == AskLog(Healthy(ViewOf(p)), u, n))
  }

  lemma RetriedNext(p: Shared, n: nat, k: nat, u: Url, w: Url, reply: Reply, updater: bool,
                    r: State, logs: seq<seq<Event>>, s: State)
    requires 0 < k <= n && Retried(p, n, k - 1, u, w, reply, updater, r, logs)
    requires s.pool == Downed(p, u) && s.total == n && s.retries == k && |s.reqs| == n
    requires s.reqs[k - 1].retrying && forall i :: 0 <= i < n && i != k - 1 ==> s.reqs[i] == r.reqs[i]
    ensures Retried(p, n, k, u, w, reply, updater, s,
                    logs[k - 1 := logs[k - 1] + RetryLog(Reads(p, n, k - 1, u, reply, updater), w)])
  {
  }

  /** The request whose turn it is reads the pool as it is. */
  lemma ReadsMatch(p: Shared, n: nat, k: nat, u: Url, reply: Reply, updater: bool, pool: Shared)
    requires HasHealthy(ViewOf(p), u) && pool == if k == 0 then p else Downed(p, u)
    ensures Downed(pool, u) == Downed(p, u)
    ensures var env := Reads(p, n, k, u, reply, updater);
            env.target == Some(u) && env.allServers == ViewOf(pool) && env.healthyNow == Healthy(ViewOf(Downed(pool, u)))
  {
    HealthyIsHeld(ViewOf(p), u);
    DownedIsSeen(p, u);
  }

  lemma {:induction false} RetryInTurn(p: Shared, n: nat, k: nat, u: Url, w: Url, reply: Reply, updater: bool)
    returns (steps: seq<Step>, r: State, logs: seq<seq<Event>>)
    requires k <= n && u != w && HasHealthy(ViewOf(p), u) && HasHealthy(ViewOf(Downed(p, u)), w)
    ensures Reached(p, n, steps, r, logs) && Retried(p, n, k, u, w, reply, updater, r, logs)
    ensures k > 0 ==> EndsInRetry(steps)
  {
    if k == 0 {
      steps, r, logs := AllAsk(p, n, n, u);
    } else {
      steps, r, logs := RetryInTurn(p, n, k - 1, u, w, reply, updater);
      steps, r, logs := NextRetries(p, n, k, u, w, reply, updater, steps, r, logs);
    }
  }

  lemma NextRetries(p: Shared, n: nat, k: nat, u: Url, w: Url, reply: Reply, updater: bool,
                    steps: seq<Step>, r: State, logs: seq<seq<Event>>)
    returns (more: seq<Step>, s: State, l: seq<seq<Event>>)
    requires 0 < k <= n && u != w && HasHealthy(ViewOf(p), u) && HasHealthy(ViewOf(Downed(p, u)), w)
    requires Reached(p, n, steps, r, logs) && Retried(p, n, k - 1, u, w, reply, updater, r, logs)
    ensures Reached(p, n, more, s, l) && Retried(p, n, k, u, w, reply, updater, s, l) && EndsInRetry(more)
  {
    var env := Reads(p, n, k - 1, u, reply, updater);
    ReadsMatch(p, n, k - 1, u, reply, updater, r.pool);
    more, s := OneRetries(p, n, steps, r, logs, k - 1, u, w, env);
    RetriedNext(p, n, k, u, w, reply, updater, r, logs, s);
    l := logs[k - 1 := logs[k - 1] + RetryLog(env, w)];
  }

  lemma RetryIsScripted(u: Url, w: Url, env: Environment) returns (rest: seq<Event>)
    requires env.target == Some(u) && Best(env.healthyNow, u) == Some(w)
    ensures Recovery(GET, env) == RetryLog(env, w) + rest
  {
    rest := [Add(w)] + RoundTrip(w, None, env.retryReply) + Booking(u, w, Classify(env.retryReply))
            + [Remove(w), EndRetry, EndRequest];
    var begun := [Choose(w), BeginRetry];
    assert SecondAttempt(u, w, None, env.retryReply) == begun + rest;
    ConcatAssociates(Takedown(env) + [ReadHealthy(env.healthyNow)], begun, rest);
    assert Takedown(env) + [ReadHealthy(env.healthyNow)] + begun == RetryLog(env, w);
  }

  lemma LogIsScripted(log: seq<Event>, u: Url, w: Url, n: nat, env: Environment)
    requires env.target == Some(u) && env.healthyAtStart != [] && env.reply == BROKEN
    requires env.totalRead == n && env.retriesRead == 0
    requires Best(env.healthyNow, u) == Some(w) && log == AskLog(env.healthyAtStart, u, n) + RetryLog(env, w)
    ensures log <= Script(true, GET, env)
  {
    var rest := RetryIsScripted(u, w, env);
    TriedIsScripted(true, env);
    var tried, asks, retry := TryLog(env.healthyAtStart, u), [ReadTotal(n), ReadRetries(0)], RetryLog(env, w);
    assert AfterAttempt(true, GET, env) == asks + (retry + rest);
    ConcatAssociates(tried, asks, retry + rest);
    ConcatAssociates(tried + asks, retry, rest);
  }

  /** Another healthy backend stays healthy when `u` goes down, so that there is one to retry on. */
  lemma RetryTarget(p: Shared, u: Url) returns (w: Url)
    requires Coherent(p) && exists x :: x != u && HasHealthy(ViewOf(p), x)
    ensures var down := ViewOf(Downed(p, u));
            Best(Healthy(down), u) == Some(w) && w != u && HasHealthy(down, w)
  {
    var x :| x != u && HasHealthy(ViewOf(p), x);
    var v, down := ViewOf(p), ViewOf(Downed(p, u));
    HealthyMembers(v);
    var e :| e in Healthy(v) && e.url == x;
    var j :| 0 <= j < |v| && v[j] == e;
    assert down[j] == e;
    HealthyMembers(down);
    var i :| 0 <= i < |Healthy(down)| && Healthy(down)[i] == e;
    assert IsCandidate(Healthy(down)[i], u);
    BestExists(Healthy(down), u);
    w := Best(Healthy(down), u).value;
    var k: nat :| IsBest(Healthy(down), k, u) && Healthy(down)[k].url == w;
    assert Healthy(down)[k] in Healthy(down);
  }

  /** Request i is in the middle of its retry, and all it did is the beginning of what the handler does
      when it reads what it has read. */
  ghost predicate HandledSoFar(steps: seq<Step>, i: nat, env: Environment) {
    LogOf(steps, i) <= Script(true, GET, env) && BeginRetry in LogOf(steps, i)
  }

  ghost predicate TwoHealthy(v: seq<Server>) {
    exists x, y :: x != y && HasHealthy(v, x) && HasHealthy(v, y)
  }

  /** Steps of requests only, each the handler's, reads that are each true, a retry counted last. */
  ghost predicate HandlerRun(s: State, n: nat, steps: seq<Step>, envs: seq<Environment>) {
    && Run(s, steps).Some? && Truthful(s, steps) && RequestsOnly(steps) && (n > 0 ==> EndsInRetry(steps))
    && |envs| == n && forall i :: 0 <= i < n ==> HandledSoFar(steps, i, envs[i])
  }

  /** Reading the counters and counting oneself are separate steps: with two healthy backends, any number
      of requests that fail on one of them can all be granted their retry on another before the first of
      them counts, by steps that are each the handler's and reads that are each true. */
  lemma {:induction false} AllRetryAtOnce(p: Shared, n: nat, u: Url, reply: Reply, updater: bool)
    returns (steps: seq<Step>, envs: seq<Environment>)
    requires Coherent(p) && HasHealthy(ViewOf(p), u) && exists x :: x != u && HasHealthy(ViewOf(p), x)
    ensures HandlerRun(From(p, n), n, steps, envs)
    ensures var s := Run(From(p, n), steps).value; s.total == n && s.retries == n
  {
    var w := RetryTarget(p, u);
    var r, logs;
    steps, r, logs := RetryInTurn(p, n, n, u, w, reply, updater);
    envs := seq(n, i requires 0 <= i < n => Reads(p, n, i, u, reply, updater));
    forall i | 0 <= i < n
      ensures HandledSoFar(steps, i, envs[i])
    {
      assert Healthy(ViewOf(p)) != [];
      LogIsScripted(logs[i], u, w, n, envs[i]);
      var tail := RetryLog(envs[i], w);
      assert tail[|tail| - 1] == BeginRetry;
      assert logs[i][|logs[i]| - 1] == BeginRetry;
    }
  }

  /** Two such requests are enough to pass any budget: the retry counted last is beyond it. */
  lemma {:induction false} BudgetIsNoCap(p: Shared, n: nat, u: Url, reply: Reply, updater: bool)
    returns (steps: seq<Step>, envs: seq<Environment>)
    requires n >= 2 && Coherent(p) && HasHealthy(ViewOf(p), u) && exists x :: x != u && HasHealthy(ViewOf(p), x)
    ensures HandlerRun(From(p, n), n, steps, envs)
    ensures var s := Run(From(p, n), steps).value; 5 * (s.retries - 1) > s.total
    ensures !RetriesWithin(From(p, n), steps)
  {
    steps, envs := AllRetryAtOnce(p, n, u, reply, updater);
    var k := |steps| - 1;
    assert steps[..k + 1] == steps;
    assert steps[k] == Does(steps[k].i, BeginRetry) && !WithinBudget(From(p, n), steps, k);
  }

  // ---------- Exactly when it is one ----------

  /** What a request chose, holds or tried was healthy at the start, and what it chose for its retry is not
      what it tried. */
  ghost predicate FromStart(m: Monitor, v: seq<Server>) {
    && (m.chosen.Some? ==> HasHealthy(v, m.chosen.value))
    && (m.held.Some? ==> HasHealthy(v, m.held.value) && m.chosen.None?)
    && (m.forwards != [] ==> HasHealthy(v, m.forwards[0].0))
    && (m.chosen.Some? && m.forwards != [] ==> m.chosen.value != m.forwards[0].0)
  }

  ghost predicate Shrunk(v: seq<Server>, w: seq<Server>) {
    |w| == |v| && forall k :: 0 <= k < |v| ==> w[k].url == v[k].url && (w[k].healthy ==> v[k].healthy)
  }

  lemma ShrunkHealthy(v: seq<Server>, w: seq<Server>, u: Url)
    requires Shrunk(v, w) && HasHealthy(w, u)
    ensures HasHealthy(v, u)
  {
    HealthyMembers(v);
    HealthyMembers(w);
    var e :| e in Healthy(w) && e.url == u;
    var k :| 0 <= k < |w| && w[k] == e;
    assert v[k] in v && v[k] in Healthy(v);
  }

  lemma FromStartNext(m: Monitor, e: Event, v: seq<Server>)
    requires FromStart(m, v) && Next(m, e).Some? && (e.Choose? ==> HasHealthy(v, e.u))
    ensures FromStart(Next(m, e).value, v)
  {
  }

  lemma MovedShrinks(s: State, e: Event)
    ensures Shrunk(ViewOf(s.pool), ViewOf(Moved(s, e).pool))
  {
    if e.Remove? {
      RemoveIsAdd(s.pool, e.u, 1, -1);
    }
  }

  lemma {:induction false} RequestsStayFromStart(pool: seq<Server>, n: nat, steps: seq<Step>)
    requires Run(Initial(pool, n), steps).Some? && Truthful(Initial(pool, n), steps) && RequestsOnly(steps)
    ensures var s := Run(Initial(pool, n), steps).value;
            Shrunk(pool, ViewOf(s.pool)) && forall i :: 0 <= i < |s.reqs| ==> FromStart(s.reqs[i], pool)
  {
    if steps != [] {
      var before, last := steps[..|steps| - 1], steps[|steps| - 1];
      RequestsStayFromStart(pool, n, before);
      assert last.Does?;
      var s := Run(Initial(pool, n), before).value;
      if last.e.Choose? {
        ShrunkHealthy(pool, ViewOf(s.pool), last.e.u);
      }
      FromStartNext(s.reqs[last.i], last.e, pool);
      MovedShrinks(s, last.e);
    } else {
      assert ViewOf(Alone(pool)) == pool;
    }
  }

  /** Every run of requests alone, with true reads, keeps every retry within the budget. */
  ghost predicate Capped(pool: seq<Server>, n: nat) {
    forall steps :: Run(Initial(pool, n), steps).Some? && Truthful(Initial(pool, n), steps) && RequestsOnly(steps) ==>
      RetriesWithin(Initial(pool, n), steps)
  }

  /** A retry needs a second healthy backend. */
  lemma NoRetryWithoutTwo(pool: seq<Server>, n: nat, steps: seq<Step>, k: nat, i: nat)
    requires Run(Initial(pool, n), steps).Some? && Truthful(Initial(pool, n), steps) && RequestsOnly(steps)
    requires k < |steps| && steps[k] == Does(i, BeginRetry)
    ensures TwoHealthy(pool)
  {
    RunPrefix(Initial(pool, n), steps, k);
    TruthfulPrefix(Initial(pool, n), steps, k);
    RequestsStayFromStart(pool, n, steps[..k]);
    RetryHasTwo(Run(Initial(pool, n), steps[..k]).value, i, pool);
  }

  lemma RetryHasTwo(s: State, i: nat, v: seq<Server>)
    requires Enabled(s, Does(i, BeginRetry)) && forall j :: 0 <= j < |s.reqs| ==> FromStart(s.reqs[j], v)
    ensures TwoHealthy(v)
  {
    var m := s.reqs[i];
    assert FromStart(m, v) && m.chosen.value != m.forwards[0].0;
  }

  lemma {:induction false} TruthfulPrefix(s: State, steps: seq<Step>, k: nat)
    requires k <= |steps| && Truthful(s, steps)
    ensures Truthful(s, steps[..k])
    decreases |steps|
  {
    if k == |steps| {
      assert steps[..k] == steps;
    } else {
      TruthfulPrefix(s, steps[..|steps| - 1], k);
      assert steps[..|steps| - 1][..k] == steps[..k];
    }
  }

  /** One request alone can never exceed it. */
  lemma OneIsWithin(pool: seq<Server>, n: nat, steps: seq<Step>)
    requires n <= 1 && Run(Initial(pool, n), steps).Some?
    ensures RetriesWithin(Initial(pool, n), steps)
  {
    forall k, i | 0 <= k < |steps| && steps[k] == Does(i, BeginRetry)
      ensures WithinBudget(Initial(pool, n), steps, k)
    {
      RunPrefix(Initial(pool, n), steps, k);
      CounterBounds(pool, n, steps[..k + 1]);
      RequestCount(pool, n, steps[..k + 1]);
      RetriesBelow(Run(Initial(pool, n), steps[..k + 1]).value.reqs);
    }
  }

  lemma {:induction false} RequestCount(pool: seq<Server>, n: nat, steps: seq<Step>)
    requires Run(Initial(pool, n), steps).Some?
    ensures |Run(Initial(pool, n), steps).value.reqs| == n
  {
    if steps != [] {
      RequestCount(pool, n, steps[..|steps| - 1]);
    }
  }

  lemma {:induction false} RetriesBelow(reqs: seq<Monitor>)
    ensures Retrying(reqs) <= |reqs|
  {
    if reqs != [] {
      RetriesBelow(reqs[..|reqs| - 1]);
    }
  }

  /** The budget is a cap for requests alone, whatever their interleaving and whichever healthy backends
      routing answers, exactly when there is at most one of them or at most one URL is healthy when they
      start. */
  lemma {:induction false} CappedExactly(pool: seq<Server>, n: nat)
    ensures Capped(pool, n) <==> n <= 1 || !TwoHealthy(pool)
  {
    if n >= 2 && TwoHealthy(pool) {
      var x, y :| x != y && HasHealthy(pool, x) && HasHealthy(pool, y);
      assert ViewOf(Alone(pool)) == pool;
      var steps, envs := BudgetIsNoCap(Alone(pool), n, x, BROKEN, false);
      assert From(Alone(pool), n) == Initial(pool, n);
      assert Run(Initial(pool, n), steps).Some? && !RetriesWithin(Initial(pool, n), steps);
    } else {
      forall steps | Run(Initial(pool, n), steps).Some? && Truthful(Initial(pool, n), steps) && RequestsOnly(steps)
        ensures RetriesWithin(Initial(pool, n), steps)
      {
        WithinWithout(pool, n, steps);
      }
    }
  }

  lemma WithinWithout(pool: seq<Server>, n: nat, steps: seq<Step>)
    requires n <= 1 || !TwoHealthy(pool)
    requires Run(Initial(pool, n), steps).Some? && Truthful(Initial(pool, n), steps) && RequestsOnly(steps)
    ensures RetriesWithin(Initial(pool, n), steps)
  {
    if n <= 1 {
      OneIsWithin(pool, n, steps);
    } else if k, i :| 0 <= k < |steps| && steps[k] == Does(i, BeginRetry) {
      NoRetryWithoutTwo(pool, n, steps, k, i);
    }
  }

  /** Every run with true reads, whatever probes, messages and discovery do, keeps it too. */
  ghost predicate CappedAlways(pool: seq<Server>, n: nat) {
    forall steps :: Run(Initial(pool, n), steps).Some? && Truthful(Initial(pool, n), steps) ==>
      RetriesWithin(Initial(pool, n), steps)
  }

  /** Discovery finds two backends nobody had. */
  lemma TwoDiscovered(pool: seq<Server>, tag: string, weight: int) returns (x: Url, y: Url)
    ensures x != y
    ensures var p := SyncShared(Alone(pool), Some(tag), [x, y], weight);
            Coherent(p) && HasHealthy(ViewOf(p), x) && HasHealthy(ViewOf(p), y)
  {
    x := FreshUrl(pool, []);
    y := FreshUrl(pool, [x]);
    var p := SyncShared(Alone(pool), Some(tag), [x, y], weight);
    SyncCoherent(Alone(pool), Some(tag), [x, y], weight);
    assert ViewOf(Alone(pool)) == pool;
    var r := Reconcile(pool, Some(tag), [x, y], weight);
    assert ViewOf(p) == r;
    HealthyMembers(r);
    var a, b := Server(x, weight, true, 0, false, tag), Server(y, weight, true, 0, false, tag);
    assert ListedOne(pool, Some(tag), x, weight) == a && ListedOne(pool, Some(tag), y, weight) == b;
    ReconcilePartition(pool, Some(tag), [x, y], weight, a);
    ReconcilePartition(pool, Some(tag), [x, y], weight, b);
  }

  /** With two requests or more some run, begun by a sync of any source that discovers two backends, goes
      beyond it, by steps that are each the handler's. */
  lemma DiscoveryLiftsCap(pool: seq<Server>, n: nat, tag: string, weight: int)
    returns (steps: seq<Step>, envs: seq<Environment>)
    requires n >= 2
    ensures Run(Initial(pool, n), steps).Some? && Truthful(Initial(pool, n), steps)
    ensures |envs| == n && forall i :: 0 <= i < n ==> HandledSoFar(steps, i, envs[i])
    ensures |steps| > 1 && steps[0].Sync? && steps[0].tag == tag && RequestsOnly(steps[1..])
    ensures !RetriesWithin(Initial(pool, n), steps)
  {
    var x, y := TwoDiscovered(pool, tag, weight);
    var s, step := Initial(pool, n), Sync(tag, [x, y], weight);
    var p := SyncShared(Alone(pool), Some(tag), [x, y], weight);
    var rest;
    rest, envs := BudgetIsNoCap(p, n, x, BROKEN, false);
    assert Effect(s, step) == From(p, n);
    steps := [step] + rest;
    assert steps[1..] == rest;
    forall i | 0 <= i < n
      ensures HandledSoFar(steps, i, envs[i])
    {
      LogAfterSync(step, rest, i);
      assert HandledSoFar(rest, i, envs[i]);
    }
    TrueRunAfter(s, step, From(p, n), rest, Run(From(p, n), rest).value);
    var k := |steps| - 1;
    assert steps[k] == rest[|rest| - 1] && steps[..k + 1] == steps;
    assert steps[k] == Does(steps[k].i, BeginRetry) && !WithinBudget(s, steps, k);
  }

  /** With discovery at work nothing about the pool helps: the budget is a cap exactly for one request. */
  lemma {:induction false} CappedAlwaysExactly(pool: seq<Server>, n: nat)
    ensures CappedAlways(pool, n) <==> n <= 1
  {
    if n <= 1 {
      forall steps | Run(Initial(pool, n), steps).Some? && Truthful(Initial(pool, n), steps)
        ensures RetriesWithin(Initial(pool, n), steps)
      {
        OneIsWithin(pool, n, steps);
      }
    } else {
      var steps, envs := DiscoveryLiftsCap(pool, n, "a", 1);
      assert Run(Initial(pool, n), steps).Some?;
    }
  }
}
