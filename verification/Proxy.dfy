/** One proxied request: every operation it performs on shared state, in program order. What it reads
    there comes from outside, because other requests run in between. */
module Proxy {
  import opened Common
  import opened Pool

  const MAX_BODY_SIZE: nat := 10485760

  type Bytes = seq<bv8>

  datatype BodyFault = NoFault | ReadFails | CloseFails

  /** A body is what arrives before it ends, or before reading it fails. */
  datatype Incoming = Incoming(method_: string, body: Option<Bytes>, fault: BodyFault)

  /** What came of one round trip: an error, by deadline or because the client went away, or a response. */
  datatype Reply =
    | RoundTripError(deadlineExceeded: bool, clientGone: bool)
    | Response(status: int)

  datatype Outcome = Delivered(status: int) | TimedOut | Disconnected | BackendFailed

  /** Everything the handler learns while it runs. */
  datatype Environment = Environment(
    healthyAtStart: seq<Server>, target: Option<Url>, reply: Reply,
    totalRead: int, retriesRead: int, allServers: seq<Server>, healthyNow: seq<Server>,
    retryReply: Reply, hasUpdater: bool)

  datatype Metric = Metric(backend: Url, success: bool, timeout: bool, retried: bool)

  datatype Event =
    | BeginRequest | EndRequest
    | ReadHealthy(servers: seq<Server>) | ReadAll(servers: seq<Server>)
    | Choose(u: Url) | Add(u: Url) | Remove(u: Url)
    | Forward(u: Url, body: Option<Bytes>)
    | Respond(status: int)
    | Record(metric: Metric)
    | ReadTotal(v: int) | ReadRetries(v: int)
    | MarkDown(u: Url) | PublishDown(u: Url)
    | BeginRetry | EndRetry

  predicate IsIdempotent(name: string) {
    name == "GET" || name == "PUT" || name == "DELETE"
  }

  /** More than a fifth of the requests in flight are retries. */
  predicate OverBudget(total: int, retries: int) {
    total > 0 && 5 * retries > total
  }

  function Classify(reply: Reply): Outcome {
    match reply
    case RoundTripError(deadlineExceeded, clientGone) =>
      if deadlineExceeded then TimedOut else if clientGone then Disconnected else BackendFailed
    case Response(status) => if status >= 500 then BackendFailed else Delivered(status)
  }

  // ---------- The rules a request follows ----------

  /** What a request has done so far. */
  datatype Monitor = Monitor(
    begun: bool, ended: bool, chosen: Option<Url>, held: Option<Url>, retrying: bool,
    total: Option<int>, retries: Option<int>,
    forwards: seq<(Url, Option<Bytes>)>, responses: seq<int>, metrics: seq<Metric>, downs: seq<Url>, published: seq<Url>)

  const FRESH: Monitor := Monitor(false, false, None, None, false, None, None, [], [], [], [], [])

  predicate Active(m: Monitor) {
    m.begun && !m.ended
  }

  /** The first attempt is over, nothing was answered, and the budget as read allows a retry that has not
      begun. */
  predicate Granted(m: Monitor) {
    && Active(m) && m.held.None? && !m.retrying && |m.forwards| == 1 && m.responses == []
    && m.total.Some? && m.retries.Some? && !OverBudget(m.total.value, m.retries.value)
  }

  /** The rules: one backend held at a time, forwarded to only while held, a second time only as a retry
      granted within the budget, on another backend chosen before; each counter read once; at most one
      response, at most one metric and only for a contacted backend; nothing held or counted when the
      request ends. */
  function Next(m: Monitor, e: Event): Option<Monitor> {
    match e
    case BeginRequest => if !m.begun then Some(m.(begun := true)) else None
    case EndRequest => if Active(m) && m.held.None? && !m.retrying then Some(m.(ended := true)) else None
    case ReadHealthy(_) => if Active(m) && m.held.None? then Some(m) else None
    case ReadAll(_) => if Active(m) && m.held.None? then Some(m) else None
    case Choose(u) =>
      if m.chosen.None? && ((Active(m) && m.held.None? && m.forwards == []) || (Granted(m) && m.forwards[0].0 != u))
      then Some(m.(chosen := Some(u))) else None
    case Add(u) =>
      if Active(m) && m.held.None? && m.chosen == Some(u) && |m.forwards| == (if m.retrying then 1 else 0)
      then Some(m.(chosen := None, held := Some(u))) else None
    case Remove(u) => if Active(m) && m.held == Some(u) then Some(m.(held := None)) else None
    case Forward(u, body) =>
      if Active(m) && m.held == Some(u) && |m.forwards| == (if m.retrying then 1 else 0)
      then Some(m.(forwards := m.forwards + [(u, body)])) else None
    case Respond(status) => if Active(m) && m.responses == [] then Some(m.(responses := [status])) else None
    case Record(metric) =>
      if Active(m) && m.metrics == [] && m.forwards != [] then Some(m.(metrics := [metric])) else None
    case ReadTotal(v) =>
      if Active(m) && m.held.None? && !m.retrying && |m.forwards| == 1 && m.total.None? && m.retries.None?
      then Some(m.(total := Some(v))) else None
    case ReadRetries(v) =>
      if Active(m) && m.held.None? && !m.retrying && m.total.Some? && m.retries.None?
      then Some(m.(retries := Some(v))) else None
    case MarkDown(u) =>
      if Granted(m) && m.forwards[0].0 == u && m.downs == [] then Some(m.(downs := [u])) else None
    case PublishDown(u) =>
      if Active(m) && m.downs == [u] && m.published == [] then Some(m.(published := [u])) else None
    case BeginRetry => if Granted(m) && m.chosen.Some? then Some(m.(retrying := true)) else None
    case EndRetry =>
      if Active(m) && m.held.None? && m.retrying && |m.forwards| == 2 then Some(m.(retrying := false)) else None
  }

  function Follow(log: seq<Event>): Option<Monitor> {
    if log == [] then Some(FRESH)
    else
      match Follow(log[..|log| - 1])
      case None => None
      case Some(m) => Next(m, log[|log| - 1])
  }

  /** Where a request gets from `m` by these events. */
  function FollowFrom(m: Monitor, events: seq<Event>): Option<Monitor>
    decreases |events|
  {
    if events == [] then Some(m)
    else
      match Next(m, events[0])
      case None => None
      case Some(n) => FollowFrom(n, events[1..])
  }

  lemma {:induction false} FollowConcat(log: seq<Event>, events: seq<Event>)
    ensures Follow(log + events) == if Follow(log).None? then None else FollowFrom(Follow(log).value, events)
    decreases |events|
  {
    if events == [] {
      assert log + events == log;
    } else {
      assert log + events == (log + [events[0]]) + events[1..];
      assert (log + [events[0]])[..|log|] == log;
      FollowConcat(log + [events[0]], events[1..]);
    }
  }

  lemma {:induction false} FromConcat(m: Monitor, a: seq<Event>, b: seq<Event>)
    ensures FollowFrom(m, a + b) == if FollowFrom(m, a).None? then None else FollowFrom(FollowFrom(m, a).value, b)
    decreases |a|
  {
    if a == [] {
      assert a + b == b;
    } else {
      assert (a + b)[1..] == a[1..] + b;
      if Next(m, a[0]).Some? {
        FromConcat(Next(m, a[0]).value, a[1..], b);
      }
    }
  }

  lemma FromOne(m: Monitor, a: Event)
    ensures FollowFrom(m, [a]) == Next(m, a)
  {
    if Next(m, a).Some? {
      assert FollowFrom(Next(m, a).value, [a][1..]) == Next(m, a);
    }
  }

  lemma FromTwo(m: Monitor, a: Event, b: Event)
    requires Next(m, a).Some?
    ensures FollowFrom(m, [a, b]) == Next(Next(m, a).value, b)
  {
    assert [a, b][1..] == [b];
    FromOne(Next(m, a).value, b);
  }

  lemma FromThree(m: Monitor, a: Event, b: Event, c: Event)
    requires Next(m, a).Some? && Next(Next(m, a).value, b).Some?
    ensures FollowFrom(m, [a, b, c]) == Next(Next(Next(m, a).value, b).value, c)
  {
    assert [a, b, c][1..] == [b, c];
    FromTwo(Next(m, a).value, b, c);
  }

  // ---------- Choosing the retry target ----------

  predicate IsCandidate(s: Server, exclude: Url) {
    s.url != exclude && s.healthy
  }

  /** The first candidate no other candidate undercuts. */
  ghost predicate IsBest(backends: seq<Server>, k: nat, exclude: Url) {
    && k < |backends| && IsCandidate(backends[k], exclude)
    && (forall j :: 0 <= j < |backends| && IsCandidate(backends[j], exclude) ==> backends[k].conns <= backends[j].conns)
    && (forall j :: 0 <= j < k && IsCandidate(backends[j], exclude) ==> backends[k].conns < backends[j].conns)
  }

  /** The URL of that candidate. */
  ghost function Best(backends: seq<Server>, exclude: Url): Option<Url> {
    if exists k: nat :: IsBest(backends, k, exclude)
    then var k: nat :| IsBest(backends, k, exclude); Some(backends[k].url)
    else None
  }

  lemma BestIsUnique(backends: seq<Server>, k: nat, exclude: Url)
    requires IsBest(backends, k, exclude)
    ensures Best(backends, exclude) == Some(backends[k].url)
  {
    forall j: nat | IsBest(backends, j, exclude)
      ensures j == k
    {
    }
  }

  /** A healthy backend other than the failed one with fewest connections, if there is any. */
  method SelectDifferent(backends: seq<Server>, exclude: Url) returns (target: Option<Url>)
    ensures target.None? <==> forall j :: 0 <= j < |backends| ==> backends[j].url == exclude || !backends[j].healthy
    ensures target.Some? ==> exists k: nat :: k < |backends| && IsBest(backends, k, exclude) && backends[k].url == target.value
    ensures target == Best(backends, exclude)
  {
    var candidates: seq<Server> := [];
    ghost var at: seq<nat> := [];
    for i := 0 to |backends|
      invariant |at| == |candidates|
      invariant forall m :: 0 <= m < |at| ==> at[m] < i && backends[at[m]] == candidates[m] && IsCandidate(candidates[m], exclude)
      invariant forall m, n :: 0 <= m < n < |at| ==> at[m] < at[n]
      invariant forall j :: 0 <= j < i && IsCandidate(backends[j], exclude) ==> j in at
    {
      if backends[i].url != exclude && backends[i].healthy {
        candidates, at := candidates + [backends[i]], at + [i];
      }
    }
    if |candidates| == 0 {
      assert forall k: nat :: k < |backends| ==> !IsCandidate(backends[k], exclude);
      return None;
    }
    var best := candidates[0];
    ghost var b: nat := 0;
    for i := 1 to |candidates|
      invariant b < i && candidates[b] == best
      invariant forall m :: 0 <= m < i ==> best.conns <= candidates[m].conns
      invariant forall m :: 0 <= m < b ==> best.conns < candidates[m].conns
    {
      if candidates[i].conns < best.conns {
        best, b := candidates[i], i;
      }
    }
    assert IsBest(backends, at[b], exclude);
    BestIsUnique(backends, at[b], exclude);
    target := Some(best.url);
  }

  // ---------- Handling one request ----------

  predicate TooLarge(req: Incoming) {
    req.body.Some? && |req.body.value| > MAX_BODY_SIZE
  }

  predicate Unreadable(req: Incoming) {
    req.body.Some? && req.fault != NoFault
  }

  /** The request is read, some backend is healthy, and the routing rule names one. */
  ghost predicate Contacts(req: Incoming, env: Environment) {
    && !TooLarge(req) && !Unreadable(req)
    && env.healthyAtStart != [] && env.target.Some?
  }

  /** The first attempt failed in a way that may be retried. */
  ghost predicate MayRetry(retriesEnabled: bool, req: Incoming, env: Environment) {
    && Contacts(req, env)
    && (Classify(env.reply).TimedOut? || Classify(env.reply).BackendFailed?)
    && retriesEnabled && IsIdempotent(req.method_)
    && !OverBudget(env.totalRead, env.retriesRead)
  }

  ghost predicate Retries(retriesEnabled: bool, req: Incoming, env: Environment) {
    && MayRetry(retriesEnabled, req, env)
    && exists j :: 0 <= j < |env.healthyNow| && IsCandidate(env.healthyNow[j], env.target.value)
  }

  ghost predicate SeenDown(servers: seq<Server>, u: Url) {
    exists j :: 0 <= j < |servers| && servers[j].url == u && !servers[j].healthy
  }

  function LastReply(m: Monitor, env: Environment): Reply {
    if |m.forwards| == 2 then env.retryReply else env.reply
  }

  /** Which backends get the request: at most two, the second only as a retry, with the same body, on
      the least busy of the other healthy backends. */
  ghost predicate ForwardsRight(m: Monitor, retriesEnabled: bool, req: Incoming, env: Environment) {
    && |m.forwards| == (if !Contacts(req, env) then 0 else if Retries(retriesEnabled, req, env) then 2 else 1)
    && (|m.forwards| >= 1 ==> m.forwards[0] == (env.target.value, req.body))
    && (|m.forwards| == 2 ==>
          && m.forwards[1].1 == req.body
          && m.forwards[1].0 != env.target.value
          && exists k: nat :: IsBest(env.healthyNow, k, env.target.value) && env.healthyNow[k].url == m.forwards[1].0)
  }

  /** The client gets the delivered response, or one error, or nothing once it has gone away. */
  ghost predicate AnswersRight(m: Monitor, req: Incoming, env: Environment) {
    if !Contacts(req, env)
    then m.responses == [if TooLarge(req) then 413 else if Unreadable(req) then 500 else 503]
    else
      match Classify(LastReply(m, env))
      case Delivered(status) => m.responses == [status]
      case Disconnected => m.responses == if |m.forwards| == 1 then [] else [504]
      case _ => m.responses == [504]
  }

  /** One metric exactly for a contacted backend: a success is booked on the backend that delivered, a
      failure on the first one. */
  ghost predicate MetricsRight(m: Monitor, req: Incoming, env: Environment) {
    if !Contacts(req, env) then m.metrics == []
    else
      var last := Classify(LastReply(m, env));
      && |m.metrics| == 1 && |m.forwards| >= 1
      && m.metrics[0] == Metric(if last.Delivered? then m.forwards[|m.forwards| - 1].0 else m.forwards[0].0,
                                last.Delivered?, last.TimedOut?, last.Delivered? && |m.forwards| == 2)
  }

  /** The first backend is marked down when a retry is considered, unless it already is, and the mark is
      passed on if there is anyone to pass it to. */
  ghost predicate DownsRight(m: Monitor, retriesEnabled: bool, req: Incoming, env: Environment) {
    && m.downs == (if MayRetry(retriesEnabled, req, env) && !SeenDown(env.allServers, env.target.value)
                   then [env.target.value] else [])
    && m.published == if env.hasUpdater then m.downs else []
  }

  ghost predicate FirstFailed(req: Incoming, env: Environment) {
    Contacts(req, env) && (Classify(env.reply).TimedOut? || Classify(env.reply).BackendFailed?)
  }

  /** The two counters are asked once, and only for a retry that is wanted. */
  ghost predicate ReadsRight(m: Monitor, retriesEnabled: bool, req: Incoming, env: Environment) {
    if FirstFailed(req, env) && retriesEnabled && IsIdempotent(req.method_)
    then m.total == Some(env.totalRead) && m.retries == Some(env.retriesRead)
    else m.total.None? && m.retries.None?
  }

  ghost predicate Over(m: Monitor) {
    m.begun && m.ended && m.held.None? && !m.retrying
  }

  /** A finished request that did what it read asked for. */
  ghost predicate EndsRight(m: Monitor, retriesEnabled: bool, req: Incoming, env: Environment) {
    && Over(m)
    && ForwardsRight(m, retriesEnabled, req, env)
    && AnswersRight(m, req, env)
    && MetricsRight(m, req, env)
    && DownsRight(m, retriesEnabled, req, env)
    && ReadsRight(m, retriesEnabled, req, env)
  }

  /** And followed the rules all along. */
  ghost predicate LifeRight(log: seq<Event>, retriesEnabled: bool, req: Incoming, env: Environment) {
    Follow(log).Some? && EndsRight(Follow(log).value, retriesEnabled, req, env)
  }

  // ---------- The events of one request, in program order ----------

  /** The log of a request that rejects, finishes or recovers as the handler does. */
  ghost function Script(retriesEnabled: bool, req: Incoming, env: Environment): seq<Event> {
    [BeginRequest] +
    (if TooLarge(req) then Rejection(413)
     else if Unreadable(req) then Rejection(500)
     else [ReadHealthy(env.healthyAtStart)] +
          (if env.healthyAtStart == [] || env.target.None? then Rejection(503)
           else Attempt(env.target.value, req.body, env.reply) + AfterAttempt(retriesEnabled, req, env)))
  }

  function Rejection(status: int): seq<Event> {
    [Respond(status), EndRequest]
  }

  function RoundTrip(u: Url, body: Option<Bytes>, reply: Reply): seq<Event> {
    [Forward(u, body)] + (match Classify(reply) case Delivered(status) => [Respond(status)] case _ => [])
  }

  function Attempt(u: Url, body: Option<Bytes>, reply: Reply): seq<Event> {
    [Choose(u), Add(u)] + RoundTrip(u, body, reply) + [Remove(u)]
  }

  ghost function AfterAttempt(retriesEnabled: bool, req: Incoming, env: Environment): seq<Event>
    requires env.target.Some?
  {
    match Classify(env.reply)
    case Delivered(_) => Finished(Metric(env.target.value, true, false, false))
    case Disconnected => Finished(Metric(env.target.value, false, false, false))
    case _ =>
      if !(retriesEnabled && IsIdempotent(req.method_)) then GivenUp(env)
      else [ReadTotal(env.totalRead), ReadRetries(env.retriesRead)] +
           (if OverBudget(env.totalRead, env.retriesRead) then GivenUp(env) else Recovery(req, env))
  }

  function Finished(metric: Metric): seq<Event> {
    [Record(metric), EndRequest]
  }

  function GivenUp(env: Environment): seq<Event>
    requires env.target.Some?
  {
    [Record(Metric(env.target.value, false, Classify(env.reply).TimedOut?, false)), Respond(504), EndRequest]
  }

  ghost function Recovery(req: Incoming, env: Environment): seq<Event>
    requires env.target.Some?
  {
    Takedown(env) + [ReadHealthy(env.healthyNow)] +
    match Best(env.healthyNow, env.target.value)
    case None => GivenUp(env)
    case Some(other) => SecondAttempt(env.target.value, other, req.body, env.retryReply)
  }

  ghost function Takedown(env: Environment): seq<Event>
    requires env.target.Some?
  {
    [ReadAll(env.allServers)] +
    (if SeenDown(env.allServers, env.target.value) then []
     else [MarkDown(env.target.value)] + (if env.hasUpdater then [PublishDown(env.target.value)] else []))
  }

  function SecondAttempt(backend: Url, other: Url, body: Option<Bytes>, reply: Reply): seq<Event> {
    [Choose(other), BeginRetry, Add(other)] + RoundTrip(other, body, reply) + Booking(backend, other, Classify(reply))
    + [Remove(other), EndRetry, EndRequest]
  }

  function Booking(backend: Url, other: Url, outcome: Outcome): seq<Event> {
    if outcome.Delivered? then [Record(Metric(other, true, false, true))]
    else [Record(Metric(backend, false, outcome.TimedOut?, false)), Respond(504)]
  }

  // ---------- A request that finds its backend broken ----------

  const GET: Incoming := Incoming("GET", None, NoFault)
  const BROKEN: Reply := RoundTripError(false, false)

  function Tried(u: Url): Monitor {
    FRESH.(begun := true, forwards := [(u, None)])
  }

  function TryLog(healthy: seq<Server>, u: Url): seq<Event> {
    [BeginRequest, ReadHealthy(healthy), Choose(u), Add(u), Forward(u, None), Remove(u)]
  }

  /** What it does up to the end of its first attempt begins its script. */
  lemma TriedIsScripted(retriesEnabled: bool, env: Environment)
    requires env.healthyAtStart != [] && env.target.Some? && env.reply == BROKEN
    ensures Script(retriesEnabled, GET, env)
         == TryLog(env.healthyAtStart, env.target.value) + AfterAttempt(retriesEnabled, GET, env)
  {
    var u, rest := env.target.value, AfterAttempt(retriesEnabled, GET, env);
    assert Attempt(u, None, BROKEN) == [Choose(u), Add(u), Forward(u, None), Remove(u)];
    assert Script(retriesEnabled, GET, env)
        == [BeginRequest] + ([ReadHealthy(env.healthyAtStart)] + (Attempt(u, None, BROKEN) + rest));
    assert Script(retriesEnabled, GET, env) == TryLog(env.healthyAtStart, u) + rest;
  }

  // ---------- What the rules say about the log itself ----------

  lemma {:induction false} FollowedForwards(log: seq<Event>)
    requires Follow(log).Some?
    ensures Count(log, (e: Event) => e.Forward?) == |Follow(log).value.forwards| <= 2
  {
    if log != [] {
      FollowedForwards(log[..|log| - 1]);
    }
  }

  /** At most two forwards, at most one response, at most one metric and only after forwarding. */
  ghost predicate Balanced(log: seq<Event>, m: Monitor) {
    && Count(log, (e: Event) => e.Forward?) == |m.forwards| <= 2
    && Count(log, (e: Event) => e.Respond?) == |m.responses| <= 1
    && Count(log, (e: Event) => e.Record?) == |m.metrics| <= 1
    && (m.metrics != [] ==> m.forwards != [])
  }

  ghost predicate Bracketed(log: seq<Event>, m: Monitor) {
    && Count(log, (e: Event) => e.BeginRequest?) == (if m.begun then 1 else 0)
    && Count(log, (e: Event) => e.EndRequest?) == (if m.ended then 1 else 0)
    && (m.ended ==> m.begun)
  }

  /** Acquisitions and retries not yet undone are the ones the monitor shows. */
  ghost predicate CountsBalanced(log: seq<Event>, m: Monitor) {
    && Count(log, (e: Event) => e.BeginRetry?)
       == Count(log, (e: Event) => e.EndRetry?) + (if m.retrying then 1 else 0)
    && Count(log, (e: Event) => e.Add?) == Count(log, (e: Event) => e.Remove?) + (if m.held.Some? then 1 else 0)
  }

  lemma {:induction false} FollowedAnswers(log: seq<Event>)
    requires Follow(log).Some?
    ensures var m := Follow(log).value;
            && Count(log, (e: Event) => e.Respond?) == |m.responses| <= 1
            && Count(log, (e: Event) => e.Record?) == |m.metrics| <= 1
            && (m.metrics != [] ==> m.forwards != [])
  {
    if log != [] {
      FollowedAnswers(log[..|log| - 1]);
    }
  }

  lemma {:induction false} FollowedLogsBalance(log: seq<Event>)
    requires Follow(log).Some?
    ensures Balanced(log, Follow(log).value)
  {
    FollowedForwards(log);
    FollowedAnswers(log);
  }

  lemma {:induction false} FollowedLogsCount(log: seq<Event>)
    requires Follow(log).Some?
    ensures CountsBalanced(log, Follow(log).value)
  {
    if log != [] {
      FollowedLogsCount(log[..|log| - 1]);
    }
  }

  lemma {:induction false} FollowedLogsBracket(log: seq<Event>)
    requires Follow(log).Some?
    ensures Bracketed(log, Follow(log).value)
  {
    if log != [] {
      FollowedLogsBracket(log[..|log| - 1]);
    }
  }

  /** A handled request, in the events of its log. */
  lemma LifeCycle(log: seq<Event>, retriesEnabled: bool, req: Incoming, env: Environment)
    requires LifeRight(log, retriesEnabled, req, env)
    ensures Count(log, (e: Event) => e.Forward?) <= 2
    ensures Count(log, (e: Event) => e.Forward?) == 2 ==>
              retriesEnabled && IsIdempotent(req.method_) && !OverBudget(env.totalRead, env.retriesRead)
    ensures Count(log, (e: Event) => e.Respond?) <= 1
    ensures Count(log, (e: Event) => e.Respond?) == 0 <==>
              Contacts(req, env) && Classify(env.reply).Disconnected?
    ensures Count(log, (e: Event) => e.Record?) == if Contacts(req, env) then 1 else 0
    ensures Count(log, (e: Event) => e.Add?) == Count(log, (e: Event) => e.Remove?)
    ensures Count(log, (e: Event) => e.BeginRequest?) == 1 == Count(log, (e: Event) => e.EndRequest?)
    ensures Count(log, (e: Event) => e.BeginRetry?) == Count(log, (e: Event) => e.EndRetry?)
  {
    FollowedLogsBalance(log);
    FollowedLogsCount(log);
    FollowedLogsBracket(log);
  }

  // ---------- The script keeps the rules and ends as it should ----------

  function AfterFirst(u: Url, body: Option<Bytes>, outcome: Outcome): Monitor {
    FRESH.(begun := true, forwards := [(u, body)], responses := if outcome.Delivered? then [outcome.status] else [])
  }

  function AfterTrip(m: Monitor, u: Url, body: Option<Bytes>, outcome: Outcome): Monitor {
    m.(forwards := m.forwards + [(u, body)], responses := if outcome.Delivered? then [outcome.status] else [])
  }

  lemma RoundTripLeads(m: Monitor, u: Url, body: Option<Bytes>, reply: Reply)
    requires Next(m, Forward(u, body)).Some? && m.responses == []
    ensures FollowFrom(m, RoundTrip(u, body, reply)) == Some(AfterTrip(m, u, body, Classify(reply)))
  {
    match Classify(reply)
    case Delivered(status) =>
      assert RoundTrip(u, body, reply) == [Forward(u, body), Respond(status)];
      FromTwo(m, Forward(u, body), Respond(status));
    case _ =>
      assert RoundTrip(u, body, reply) == [Forward(u, body)];
  }

  lemma AttemptLeads(u: Url, body: Option<Bytes>, reply: Reply)
    ensures FollowFrom(FRESH.(begun := true), Attempt(u, body, reply)) == Some(AfterFirst(u, body, Classify(reply)))
  {
    var m := FRESH.(begun := true);
    FromTwo(m, Choose(u), Add(u));
    FromConcat(m, [Choose(u), Add(u)], RoundTrip(u, body, reply));
    RoundTripLeads(m.(held := Some(u)), u, body, reply);
    assert FRESH.forwards + [(u, body)] == [(u, body)];
    FromConcat(m, [Choose(u), Add(u)] + RoundTrip(u, body, reply), [Remove(u)]);
    FromOne(AfterFirst(u, body, Classify(reply)).(held := Some(u)), Remove(u));
  }

  /** The monitor after the first attempt failed, whatever was read and marked since. */
  ghost predicate Failed(m: Monitor, req: Incoming, env: Environment) {
    && FirstFailed(req, env)
    && m == AfterFirst(env.target.value, req.body, Classify(env.reply)).(
              total := m.total, retries := m.retries, downs := m.downs, published := m.published)
  }

  lemma GivenUpEnds(m: Monitor, retriesEnabled: bool, req: Incoming, env: Environment)
    requires Failed(m, req, env) && !Retries(retriesEnabled, req, env)
    requires DownsRight(m, retriesEnabled, req, env) && ReadsRight(m, retriesEnabled, req, env)
    ensures var n := FollowFrom(m, GivenUp(env)); n.Some? && EndsRight(n.value, retriesEnabled, req, env)
  {
    var metric := Metric(env.target.value, false, Classify(env.reply).TimedOut?, false);
    FromThree(m, Record(metric), Respond(504), EndRequest);
  }

  ghost function AfterTakedown(m: Monitor, env: Environment): Monitor
    requires env.target.Some?
  {
    if SeenDown(env.allServers, env.target.value) then m
    else m.(downs := [env.target.value], published := if env.hasUpdater then [env.target.value] else [])
  }

  lemma TakedownLeads(m: Monitor, env: Environment)
    requires env.target.Some? && Granted(m) && m.forwards[0].0 == env.target.value && m.downs == [] && m.published == []
    ensures FollowFrom(m, Takedown(env)) == Some(AfterTakedown(m, env))
  {
    var u, read := env.target.value, ReadAll(env.allServers);
    if SeenDown(env.allServers, u) {
      assert Takedown(env) == [read];
    } else if env.hasUpdater {
      assert Takedown(env) == [read, MarkDown(u), PublishDown(u)];
      FromThree(m, read, MarkDown(u), PublishDown(u));
    } else {
      assert Takedown(env) == [read, MarkDown(u)];
      FromTwo(m, read, MarkDown(u));
    }
  }

  function AfterSecond(m: Monitor, backend: Url, other: Url, body: Option<Bytes>, outcome: Outcome): Monitor {
    m.(forwards := m.forwards + [(other, body)], ended := true,
       responses := [if outcome.Delivered? then outcome.status else 504],
       metrics := [if outcome.Delivered? then Metric(other, true, false, true)
                   else Metric(backend, false, outcome.TimedOut?, false)])
  }

  lemma BookingLeads(m: Monitor, backend: Url, other: Url, outcome: Outcome)
    requires Active(m) && m.metrics == [] && m.forwards != []
    requires m.responses == if outcome.Delivered? then [outcome.status] else []
    ensures FollowFrom(m, Booking(backend, other, outcome))
         == Some(m.(responses := [if outcome.Delivered? then outcome.status else 504],
                    metrics := [if outcome.Delivered? then Metric(other, true, false, true)
                                else Metric(backend, false, outcome.TimedOut?, false)]))
  {
    var closing := Booking(backend, other, outcome);
    if outcome.Delivered? {
      FromOne(m, closing[0]);
    } else {
      FromTwo(m, closing[0], closing[1]);
    }
  }

  lemma SecondBegins(m: Monitor, other: Url)
    requires Granted(m) && m.chosen.None? && m.forwards[0].0 != other
    ensures FollowFrom(m, [Choose(other), BeginRetry, Add(other)]) == Some(m.(held := Some(other), retrying := true))
  {
    FromThree(m, Choose(other), BeginRetry, Add(other));
  }

  lemma SecondEnds(m: Monitor, other: Url)
    requires Active(m) && m.held == Some(other) && m.retrying && |m.forwards| == 2
    ensures FollowFrom(m, [Remove(other), EndRetry, EndRequest])
         == Some(m.(held := None, retrying := false, ended := true))
  {
    FromThree(m, Remove(other), EndRetry, EndRequest);
  }

  lemma SecondLeads(m: Monitor, backend: Url, other: Url, body: Option<Bytes>, reply: Reply)
    requires Granted(m) && m.metrics == [] && m.chosen.None? && m.forwards[0].0 != other
    ensures FollowFrom(m, SecondAttempt(backend, other, body, reply))
         == Some(AfterSecond(m, backend, other, body, Classify(reply)))
  {
    var outcome := Classify(reply);
    var a, b, c := [Choose(other), BeginRetry, Add(other)], RoundTrip(other, body, reply), Booking(backend, other, outcome);
    var held := m.(held := Some(other), retrying := true);
    SecondBegins(m, other);
    FromConcat(m, a, b);
    RoundTripLeads(held, other, body, reply);
    var tried := AfterTrip(held, other, body, outcome);
    FromConcat(m, a + b, c);
    BookingLeads(tried, backend, other, outcome);
    FromConcat(m, a + b + c, [Remove(other), EndRetry, EndRequest]);
    SecondEnds(FollowFrom(tried, c).value, other);
  }

  lemma BestExists(backends: seq<Server>, exclude: Url)
    ensures Best(backends, exclude).Some? <==> exists j :: 0 <= j < |backends| && IsCandidate(backends[j], exclude)
    ensures Best(backends, exclude).Some? ==>
              exists k: nat :: IsBest(backends, k, exclude) && backends[k].url == Best(backends, exclude).value
  {
    if j :| 0 <= j < |backends| && IsCandidate(backends[j], exclude) {
      var k := LeastUpTo(backends, exclude, |backends|, j);
      assert IsBest(backends, k, exclude);
    }
  }

  /** The first of the least busy candidates below `n`. */
  lemma {:induction false} LeastUpTo(backends: seq<Server>, exclude: Url, n: nat, j: nat) returns (k: nat)
    requires j < n <= |backends| && IsCandidate(backends[j], exclude)
    ensures k < n && IsBest(backends[..n], k, exclude)
    ensures n == |backends| ==> IsBest(backends, k, exclude)
  {
    if i :| 0 <= i < n - 1 && IsCandidate(backends[i], exclude) {
      k := LeastUpTo(backends, exclude, n - 1, i);
      if IsCandidate(backends[n - 1], exclude) && backends[n - 1].conns < backends[k].conns {
        k := n - 1;
      }
    } else {
      k := j;
    }
    assert backends[..|backends|] == backends;
  }

  lemma RecoveryEnds(m: Monitor, retriesEnabled: bool, req: Incoming, env: Environment)
    requires Failed(m, req, env) && MayRetry(retriesEnabled, req, env) && m.downs == [] && m.published == []
    requires m.total == Some(env.totalRead) && m.retries == Some(env.retriesRead)
    ensures var n := FollowFrom(m, Recovery(req, env)); n.Some? && EndsRight(n.value, retriesEnabled, req, env)
  {
    var u := env.target.value;
    TakedownLeads(m, env);
    var k := FollowFrom(m, Takedown(env)).value;
    FromConcat(m, Takedown(env), [ReadHealthy(env.healthyNow)]);
    FromOne(k, ReadHealthy(env.healthyNow));
    BestExists(env.healthyNow, u);
    match Best(env.healthyNow, u)
    case None =>
      FromConcat(m, Takedown(env) + [ReadHealthy(env.healthyNow)], GivenUp(env));
      GivenUpEnds(k, retriesEnabled, req, env);
    case Some(other) =>
      FromConcat(m, Takedown(env) + [ReadHealthy(env.healthyNow)], SecondAttempt(u, other, req.body, env.retryReply));
      SecondLeads(k, u, other, req.body, env.retryReply);
  }

  lemma AfterAttemptEnds(m: Monitor, retriesEnabled: bool, req: Incoming, env: Environment)
    requires Contacts(req, env) && m == AfterFirst(env.target.value, req.body, Classify(env.reply))
    ensures var n := FollowFrom(m, AfterAttempt(retriesEnabled, req, env));
            n.Some? && EndsRight(n.value, retriesEnabled, req, env)
  {
    var u := env.target.value;
    match Classify(env.reply)
    case Delivered(_) => FromTwo(m, Record(Metric(u, true, false, false)), EndRequest);
    case Disconnected => FromTwo(m, Record(Metric(u, false, false, false)), EndRequest);
    case _ => FailureEnds(m, retriesEnabled, req, env);
  }

  lemma FailureEnds(m: Monitor, retriesEnabled: bool, req: Incoming, env: Environment)
    requires FirstFailed(req, env) && m == AfterFirst(env.target.value, req.body, Classify(env.reply))
    ensures var n := FollowFrom(m, AfterAttempt(retriesEnabled, req, env));
            n.Some? && EndsRight(n.value, retriesEnabled, req, env)
  {
    if retriesEnabled && IsIdempotent(req.method_) {
      var asks := [ReadTotal(env.totalRead), ReadRetries(env.retriesRead)];
      var k := m.(total := Some(env.totalRead), retries := Some(env.retriesRead));
      FromTwo(m, asks[0], asks[1]);
      if OverBudget(env.totalRead, env.retriesRead) {
        FromConcat(m, asks, GivenUp(env));
        GivenUpEnds(k, retriesEnabled, req, env);
      } else {
        FromConcat(m, asks, Recovery(req, env));
        RecoveryEnds(k, retriesEnabled, req, env);
      }
    } else {
      GivenUpEnds(m, retriesEnabled, req, env);
    }
  }

  /** The script of a request keeps the rules at every event and ends as what it read requires. */
  lemma ScriptIsRight(retriesEnabled: bool, req: Incoming, env: Environment)
    ensures LifeRight(Script(retriesEnabled, req, env), retriesEnabled, req, env)
  {
    var m := FRESH.(begun := true);
    assert Follow([BeginRequest]) == Some(m) by {
      assert [BeginRequest][..0] == [];
    }
    if TooLarge(req) || Unreadable(req) {
      var status := if TooLarge(req) then 413 else 500;
      FromTwo(m, Respond(status), EndRequest);
      FollowConcat([BeginRequest], Rejection(status));
    } else {
      var read := [ReadHealthy(env.healthyAtStart)];
      FromOne(m, read[0]);
      if env.healthyAtStart == [] || env.target.None? {
        FromTwo(m, Respond(503), EndRequest);
        FromConcat(m, read, Rejection(503));
        FollowConcat([BeginRequest], read + Rejection(503));
      } else {
        var a, b := Attempt(env.target.value, req.body, env.reply), AfterAttempt(retriesEnabled, req, env);
        AttemptLeads(env.target.value, req.body, env.reply);
        AfterAttemptEnds(AfterFirst(env.target.value, req.body, Classify(env.reply)), retriesEnabled, req, env);
        FromConcat(m, a, b);
        FromConcat(m, read, a + b);
        FollowConcat([BeginRequest], read + (a + b));
      }
    }
  }

  // ---------- The handler ----------

  /** One round trip; a response below 500 is passed on to the client at once. */
  method ProxyRequest(log: seq<Event>, u: Url, body: Option<Bytes>, reply: Reply)
    returns (more: seq<Event>, outcome: Outcome)
    ensures outcome == Classify(reply) && more == log + RoundTrip(u, body, reply)
    ensures reply.Response? && reply.status < 500 ==>
              outcome == Delivered(reply.status) && more == log + [Forward(u, body), Respond(reply.status)]
    ensures reply.Response? && reply.status >= 500 ==> outcome.BackendFailed? && more == log + [Forward(u, body)]
    ensures reply.RoundTripError? ==>
              more == log + [Forward(u, body)]
              && outcome == if reply.deadlineExceeded then TimedOut else if reply.clientGone then Disconnected else BackendFailed
  {
    more := log + [Forward(u, body)];
    match reply {
      case RoundTripError(deadlineExceeded, clientGone) =>
        if deadlineExceeded {
          outcome := TimedOut;
        } else if clientGone {
          outcome := Disconnected;
        } else {
          outcome := BackendFailed;
        }
      case Response(status) =>
        if status >= 500 {
          outcome := BackendFailed;
        } else {
          more := more + [Respond(status)];
          outcome := Delivered(status);
        }
    }
  }

  method AlreadyDown(servers: seq<Server>, u: Url) returns (down: bool)
    ensures down <==> SeenDown(servers, u)
  {
    for i := 0 to |servers|
      invariant !SeenDown(servers[..i], u)
    {
      if servers[i].url == u && !servers[i].healthy {
        return true;
      }
      assert servers[..i + 1] == servers[..i] + [servers[i]];
    }
    assert servers[..|servers|] == servers;
    down := false;
  }

  /** Takes the failed backend out of rotation unless somebody already has. */
  method TakeDown(log: seq<Event>, env: Environment) returns (more: seq<Event>)
    requires env.target.Some?
    ensures more == log + Takedown(env)
  {
    var u := env.target.value;
    more := log + [ReadAll(env.allServers)];
    var alreadyDown := AlreadyDown(env.allServers, u);
    if !alreadyDown {
      more := more + [MarkDown(u)];
      if env.hasUpdater {
        more := more + [PublishDown(u)];
      }
    }
  }

  /** The whole life of a request, for every request and everything it may read on the way: the events
      of its script, which keep the rules and answer, record and mark as they should. */
  method ServeHTTP(retriesEnabled: bool, req: Incoming, env: Environment) returns (log: seq<Event>)
    ensures log == Script(retriesEnabled, req, env)
    ensures LifeRight(log, retriesEnabled, req, env)
  {
    log := [BeginRequest];
    ScriptIsRight(retriesEnabled, req, env);
    if req.body.Some? {
      if |req.body.value| > MAX_BODY_SIZE {
        log := log + [Respond(413), EndRequest];
        return;
      }
      if req.fault == ReadFails {
        log := log + [Respond(500), EndRequest];
        return;
      }
      if req.fault == CloseFails {
        log := log + [Respond(500), EndRequest];
        return;
      }
    }
    log := log + [ReadHealthy(env.healthyAtStart)];
    if |env.healthyAtStart| == 0 {
      log := log + [Respond(503), EndRequest];
      return;
    }
    if env.target.None? {
      log := log + [Respond(503), EndRequest];
      return;
    }
    log := Proxied(log, retriesEnabled, req, env);
  }

  /** The request from its first attempt on. */
  method Proxied(log: seq<Event>, retriesEnabled: bool, req: Incoming, env: Environment) returns (more: seq<Event>)
    requires env.target.Some?
    ensures more == log + (Attempt(env.target.value, req.body, env.reply) + AfterAttempt(retriesEnabled, req, env))
  {
    var outcome;
    more, outcome := FirstAttempt(log, env.target.value, req.body, env.reply);
    more := Conclude(more, outcome, retriesEnabled, req, env);
    ConcatAssociates(log, Attempt(env.target.value, req.body, env.reply), AfterAttempt(retriesEnabled, req, env));
  }

  method FirstAttempt(log: seq<Event>, backend: Url, body: Option<Bytes>, reply: Reply)
    returns (more: seq<Event>, outcome: Outcome)
    ensures outcome == Classify(reply) && more == log + Attempt(backend, body, reply)
  {
    more := log + [Choose(backend), Add(backend)];
    more, outcome := ProxyRequest(more, backend, body, reply);
    more := more + [Remove(backend)];
    ConcatAssociates(log, [Choose(backend), Add(backend)], RoundTrip(backend, body, reply));
    ConcatAssociates(log, [Choose(backend), Add(backend)] + RoundTrip(backend, body, reply), [Remove(backend)]);
  }

  method Conclude(log: seq<Event>, outcome: Outcome, retriesEnabled: bool, req: Incoming, env: Environment)
    returns (more: seq<Event>)
    requires env.target.Some? && outcome == Classify(env.reply)
    ensures more == log + AfterAttempt(retriesEnabled, req, env)
  {
    var backend := env.target.value;
    more := log;
    if outcome.Delivered? {
      more := more + [Record(Metric(backend, true, false, false)), EndRequest];
      return;
    }
    if outcome.Disconnected? {
      more := more + [Record(Metric(backend, false, false, false)), EndRequest];
      return;
    }
    more := Recover(more, retriesEnabled, req, env);
  }

  /** After a failed first attempt: a retry if the method, the budget and the pool allow one, else 504. */
  method Recover(log: seq<Event>, retriesEnabled: bool, req: Incoming, env: Environment) returns (more: seq<Event>)
    requires env.target.Some? && (Classify(env.reply).TimedOut? || Classify(env.reply).BackendFailed?)
    ensures more == log + AfterAttempt(retriesEnabled, req, env)
  {
    more := log;
    if retriesEnabled && IsIdempotent(req.method_) {
      more := more + [ReadTotal(env.totalRead), ReadRetries(env.retriesRead)];
      if !OverBudget(env.totalRead, env.retriesRead) {
        more := RecoverWithinBudget(more, req, env);
        return;
      }
    }
    more := GiveUp(more, env);
  }

  method RecoverWithinBudget(log: seq<Event>, req: Incoming, env: Environment) returns (more: seq<Event>)
    requires env.target.Some?
    ensures more == log + Recovery(req, env)
  {
    var backend := env.target.value;
    more := TakeDown(log, env);
    more := more + [ReadHealthy(env.healthyNow)];
    var other := SelectDifferent(env.healthyNow, backend);
    if other.Some? {
      more := Retry(more, backend, other.value, req.body, env.retryReply);
    } else {
      more := GiveUp(more, env);
    }
  }

  /** No retry: the failure is booked on the backend that was tried, and the client is told. */
  method GiveUp(log: seq<Event>, env: Environment) returns (more: seq<Event>)
    requires env.target.Some?
    ensures more == log + GivenUp(env)
  {
    more := log + [Record(Metric(env.target.value, false, Classify(env.reply).TimedOut?, false)), Respond(504)];
    more := more + [EndRequest];
  }

  /** The second attempt, counted as a retry until the request ends. */
  method Retry(log: seq<Event>, backend: Url, other: Url, body: Option<Bytes>, reply: Reply) returns (more: seq<Event>)
    ensures more == log + SecondAttempt(backend, other, body, reply)
  {
    more := log + [Choose(other), BeginRetry, Add(other)];
    var outcome;
    more, outcome := ProxyRequest(more, other, body, reply);
    if outcome.Delivered? {
      more := more + [Record(Metric(other, true, false, true))];
    } else {
      more := more + [Record(Metric(backend, false, outcome.TimedOut?, false)), Respond(504)];
    }
    more := more + [Remove(other), EndRetry, EndRequest];
  }
}
