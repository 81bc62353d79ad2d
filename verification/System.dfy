/** Many requests at once, health marks and discovery syncs, interleaved at every single operation. */
module System {
  import opened Common
  import opened Pool
  import opened SharedPool
  import opened PoolLaws
  import opened Proxy

  datatype State = State(pool: Shared, total: int, retries: int, reqs: seq<Monitor>)

  datatype Step =
    | Does(i: nat, e: Event)                                // one operation of one request
    | Sync(tag: string, urls: seq<Url>, weight: int)        // one discovery source
    | Mark(u: Url, up: bool)                                // a health probe or a received event

  /** A request may do what its rules allow; what it reads of the counters is what they hold. */
  predicate Enabled(s: State, step: Step) {
    match step
    case Does(i, e) =>
      && i < |s.reqs| && Next(s.reqs[i], e).Some?
      && (e.ReadTotal? ==> e.v == s.total)
      && (e.ReadRetries? ==> e.v == s.retries)
    case _ => true
  }

  /** What an event does to the counters and the pool. */
  ghost function Moved(s: State, e: Event): State {
    match e
    case BeginRequest => s.(total := s.total + 1)
    case EndRequest => s.(total := s.total - 1)
    case BeginRetry => s.(retries := s.retries + 1)
    case EndRetry => s.(retries := s.retries - 1)
    case Add(u) => s.(pool := AddShared(s.pool, u, 1))
    case Remove(u) => s.(pool := RemoveShared(s.pool, u, 1))
    case MarkDown(u) => s.(pool := MarkShared(s.pool, u, false))
    case _ => s
  }

  ghost function Effect(s: State, step: Step): State
    requires Enabled(s, step)
  {
    match step
    case Sync(tag, urls, weight) => s.(pool := SyncShared(s.pool, Some(tag), urls, weight))
    case Mark(u, up) => s.(pool := MarkShared(s.pool, u, up))
    case Does(i, e) => Moved(s, e).(reqs := s.reqs[i := Next(s.reqs[i], e).value])
  }

  /** The state a schedule leads to, if every step of it can be taken. */
  ghost function Run(s: State, steps: seq<Step>): Option<State> {
    if steps == [] then Some(s)
    else
      match Run(s, steps[..|steps| - 1])
      case None => None
      case Some(r) => if Enabled(r, steps[|steps| - 1]) then Some(Effect(r, steps[|steps| - 1])) else None
  }

  /** Requests not yet begun, over a pool in which every slot has an entry of its own. */
  function Initial(pool: seq<Server>, n: nat): State {
    State(Alone(pool), 0, 0, seq(n, _ => FRESH))
  }

  // ---------- Reads of the pool ----------

  ghost predicate HasHealthy(v: seq<Server>, u: Url) {
    exists s :: s in Healthy(v) && s.url == u
  }

  /** What a request reads of the pool is what the pool holds, and it chooses a URL healthy just now. */
  ghost predicate TruthfulStep(s: State, step: Step) {
    step.Does? ==>
      match step.e
      case ReadHealthy(servers) => servers == Healthy(ViewOf(s.pool))
      case ReadAll(servers) => servers == ViewOf(s.pool)
      case Choose(u) => HasHealthy(ViewOf(s.pool), u)
      case _ => true
  }

  ghost predicate Truthful(s: State, steps: seq<Step>) {
    steps == [] ||
    (var before := steps[..|steps| - 1];
     Truthful(s, before) && (Run(s, before).Some? ==> TruthfulStep(Run(s, before).value, steps[|steps| - 1])))
  }

  ghost predicate TrueRun(s: State, steps: seq<Step>, r: State) {
    Run(s, steps) == Some(r) && Truthful(s, steps)
  }

  /** One more step at the end of a run. */
  lemma OneMore(s: State, steps: seq<Step>, r: State, step: Step, t: State) returns (more: seq<Step>)
    requires TrueRun(s, steps, r) && Enabled(r, step) && TruthfulStep(r, step) && t == Effect(r, step)
    ensures TrueRun(s, more, t) && more == steps + [step]
  {
    more := steps + [step];
    assert more[..|steps|] == steps;
  }

  // ---------- A step before a run ----------

  lemma RunOne(s: State, step: Step)
    requires Enabled(s, step)
    ensures Run(s, [step]) == Some(Effect(s, step))
  {
    assert [step][..0] == [];
  }

  lemma RunLast(s: State, steps: seq<Step>, last: Step, t: State, before: seq<Step>)
    requires Run(s, steps) == Run(t, before)
    ensures Run(s, steps + [last]) == Run(t, before + [last])
  {
    assert (steps + [last])[..|steps|] == steps && (before + [last])[..|before|] == before;
  }

  lemma {:induction false} RunAfter(s: State, step: Step, steps: seq<Step>)
    requires Enabled(s, step)
    ensures Run(s, [step] + steps) == Run(Effect(s, step), steps)
  {
    if steps == [] {
      RunOne(s, step);
      assert [step] + steps == [step];
    } else {
      var before, last := steps[..|steps| - 1], steps[|steps| - 1];
      RunAfter(s, step, before);
      RunLast(s, [step] + before, last, Effect(s, step), before);
      assert [step] + steps == ([step] + before) + [last] && steps == before + [last];
    }
  }

  lemma {:induction false} TrueRunAfter(s: State, step: Step, t: State, steps: seq<Step>, r: State)
    requires Enabled(s, step) && TruthfulStep(s, step) && t == Effect(s, step) && TrueRun(t, steps, r)
    ensures TrueRun(s, [step] + steps, r)
  {
    RunAfter(s, step, steps);
    TruthfulAfter(s, step, steps);
  }

  lemma TruthfulOne(s: State, step: Step)
    requires TruthfulStep(s, step)
    ensures Truthful(s, [step])
  {
    assert [step][..0] == [] && Truthful(s, []) && Run(s, []) == Some(s);
  }

  lemma TruthfulLast(s: State, steps: seq<Step>, last: Step)
    requires Truthful(s, steps) && (Run(s, steps).Some? ==> TruthfulStep(Run(s, steps).value, last))
    ensures Truthful(s, steps + [last])
  {
    assert (steps + [last])[..|steps|] == steps;
  }

  lemma {:induction false} TruthfulAfter(s: State, step: Step, steps: seq<Step>)
    requires Enabled(s, step) && TruthfulStep(s, step) && Truthful(Effect(s, step), steps)
    ensures Truthful(s, [step] + steps)
  {
    if steps == [] {
      TruthfulOne(s, step);
      assert [step] + steps == [step];
    } else {
      var before, last := steps[..|steps| - 1], steps[|steps| - 1];
      TruthfulAfter(s, step, before);
      RunAfter(s, step, before);
      TruthfulLast(s, [step] + before, last);
      assert [step] + steps == ([step] + before) + [last];
    }
  }

  // ---------- Each request sees its own log ----------

  function LogOf(steps: seq<Step>, i: nat): seq<Event> {
    if steps == [] then []
    else
      var before, last := LogOf(steps[..|steps| - 1], i), steps[|steps| - 1];
      if last.Does? && last.i == i then before + [last.e] else before
  }

  lemma LogSnoc(steps: seq<Step>, step: Step, i: nat)
    ensures LogOf(steps + [step], i) == if step.Does? && step.i == i then LogOf(steps, i) + [step.e] else LogOf(steps, i)
  {
    assert (steps + [step])[..|steps|] == steps;
  }

  lemma {:induction false} LogAfterSync(first: Step, steps: seq<Step>, i: nat)
    requires first.Sync?
    ensures LogOf([first] + steps, i) == LogOf(steps, i)
  {
    if steps == [] {
      assert [first] + steps == [] + [first];
      LogSnoc([], first, i);
    } else {
      var before, last := steps[..|steps| - 1], steps[|steps| - 1];
      LogAfterSync(first, before, i);
      LogSnoc([first] + before, last, i);
      assert [first] + steps == ([first] + before) + [last];
    }
  }

  /** In any interleaving a request is where its own log, read alone, puts it. */
  lemma {:induction false} RequestsFollowTheirLogs(pool: seq<Server>, n: nat, steps: seq<Step>, i: nat)
    requires i < n && Run(Initial(pool, n), steps).Some?
    ensures |Run(Initial(pool, n), steps).value.reqs| == n
    ensures Follow(LogOf(steps, i)) == Some(Run(Initial(pool, n), steps).value.reqs[i])
  {
    if steps != [] {
      var before, last := steps[..|steps| - 1], steps[|steps| - 1];
      RequestsFollowTheirLogs(pool, n, before, i);
      if last.Does? && last.i == i {
        var log := LogOf(before, i);
        assert (log + [last.e])[..|log|] == log;
      }
    }
  }

  // ---------- The two budget counters ----------

  ghost function InFlight(reqs: seq<Monitor>): nat {
    Count(reqs, (m: Monitor) => Active(m))
  }

  ghost function Retrying(reqs: seq<Monitor>): nat {
    Count(reqs, (m: Monitor) => m.retrying)
  }

  /** The counters say how many requests are in flight and how many of those are inside a retry. */
  ghost predicate CountersRight(s: State) {
    && s.total == InFlight(s.reqs) && s.retries == Retrying(s.reqs)
    && (forall i :: 0 <= i < |s.reqs| ==> Consistent(s.reqs[i]))
  }

  /** Only a request in flight retries, one that has not begun has done nothing, and the counters are read
      between the attempts. */
  predicate Consistent(m: Monitor) {
    && (m.retrying ==> Active(m)) && (!m.begun ==> m == FRESH)
    && (m.total.Some? ==> m.forwards != [] && (m.held.Some? ==> m.retrying))
  }

  lemma ConsistentNext(m: Monitor, e: Event)
    requires Consistent(m) && Next(m, e).Some?
    ensures Consistent(Next(m, e).value)
  {
  }

  lemma CountersStep(s: State, step: Step)
    requires CountersRight(s) && Enabled(s, step)
    ensures CountersRight(Effect(s, step))
  {
    if step.Does? {
      ConsistentNext(s.reqs[step.i], step.e);
      TotalStep(s, step.i, step.e);
      RetriesStep(s, step.i, step.e);
    }
  }

  lemma TotalStep(s: State, i: nat, e: Event)
    requires CountersRight(s) && Enabled(s, Does(i, e))
    ensures Effect(s, Does(i, e)).total == InFlight(Effect(s, Does(i, e)).reqs)
  {
    CountUpdate(s.reqs, i, Next(s.reqs[i], e).value, (m: Monitor) => Active(m));
  }

  lemma RetriesStep(s: State, i: nat, e: Event)
    requires CountersRight(s) && Enabled(s, Does(i, e))
    ensures Effect(s, Does(i, e)).retries == Retrying(Effect(s, Does(i, e)).reqs)
  {
    CountUpdate(s.reqs, i, Next(s.reqs[i], e).value, (m: Monitor) => m.retrying);
  }

  lemma {:induction false} NothingStarted(n: nat, p: Monitor -> bool)
    requires !p(FRESH)
    ensures Count(seq(n, _ => FRESH), p) == 0
  {
    if n > 0 {
      NothingStarted(n - 1, p);
      assert seq(n, _ => FRESH)[..n - 1] == seq(n - 1, _ => FRESH);
    }
  }

  lemma {:induction false} CountersAlways(pool: seq<Server>, n: nat, steps: seq<Step>)
    requires Run(Initial(pool, n), steps).Some?
    ensures CountersRight(Run(Initial(pool, n), steps).value)
  {
    if steps == [] {
      NothingStarted(n, (m: Monitor) => Active(m));
      NothingStarted(n, (m: Monitor) => m.retrying);
    } else {
      CountersAlways(pool, n, steps[..|steps| - 1]);
      CountersStep(Run(Initial(pool, n), steps[..|steps| - 1]).value, steps[|steps| - 1]);
    }
  }

  /** Over every interleaving: the retry counter stays between zero and the request counter, whoever is
      in flight reads a divisor of at least one, and with nobody in flight both counters are zero. */
  lemma CounterBounds(pool: seq<Server>, n: nat, steps: seq<Step>)
    requires Run(Initial(pool, n), steps).Some?
    ensures var s := Run(Initial(pool, n), steps).value;
            && s.total == InFlight(s.reqs) && s.retries == Retrying(s.reqs)
            && 0 <= s.retries <= s.total
            && (forall i :: 0 <= i < |s.reqs| && Active(s.reqs[i]) ==> s.total >= 1)
            && ((forall i :: 0 <= i < |s.reqs| ==> !Active(s.reqs[i])) ==> s.total == 0 && s.retries == 0)
  {
    CountersAlways(pool, n, steps);
    var s := Run(Initial(pool, n), steps).value;
    var active := (m: Monitor) => Active(m);
    assert forall m :: m in s.reqs ==> Consistent(m);
    CountMonotone(s.reqs, (m: Monitor) => m.retrying, active);
    forall i | 0 <= i < |s.reqs| && Active(s.reqs[i])
      ensures s.total >= 1
    {
      CountPositive(s.reqs, i, active);
    }
    if s.total > 0 {
      var i := CountWitness(s.reqs, active);
      assert Active(s.reqs[i]);
    }
  }
}
