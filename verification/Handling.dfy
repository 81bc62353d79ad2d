/** What a handled request amounts to, in the events of its log, statuses and numbers. */
module Handling {
  import opened Common
  import opened Pool
  import opened Proxy

  // ---------- What a log says ----------

  function ForwardsOf(log: seq<Event>): seq<(Url, Option<Bytes>)> {
    if log == [] then []
    else
      var before, e := ForwardsOf(log[..|log| - 1]), log[|log| - 1];
      if e.Forward? then before + [(e.u, e.body)] else before
  }

  function ResponsesOf(log: seq<Event>): seq<int> {
    if log == [] then []
    else
      var before, e := ResponsesOf(log[..|log| - 1]), log[|log| - 1];
      if e.Respond? then before + [e.status] else before
  }

  function MetricsOf(log: seq<Event>): seq<Metric> {
    if log == [] then []
    else
      var before, e := MetricsOf(log[..|log| - 1]), log[|log| - 1];
      if e.Record? then before + [e.metric] else before
  }

  function DownsOf(log: seq<Event>): seq<Url> {
    if log == [] then []
    else
      var before, e := DownsOf(log[..|log| - 1]), log[|log| - 1];
      if e.MarkDown? then before + [e.u] else before
  }

  function PublishedOf(log: seq<Event>): seq<Url> {
    if log == [] then []
    else
      var before, e := PublishedOf(log[..|log| - 1]), log[|log| - 1];
      if e.PublishDown? then before + [e.u] else before
  }

  /** The backend added last and not removed since. */
  function HeldOf(log: seq<Event>): Option<Url> {
    if log == [] then None
    else
      var e := log[|log| - 1];
      if e.Add? then Some(e.u) else if e.Remove? then None else HeldOf(log[..|log| - 1])
  }

  /** A retry was begun and has not ended. */
  function RetryingOf(log: seq<Event>): bool {
    log != [] &&
    (var e := log[|log| - 1];
     e.BeginRetry? || (!e.EndRetry? && RetryingOf(log[..|log| - 1])))
  }

  lemma {:induction false} LogForwards(log: seq<Event>)
    requires Follow(log).Some?
    ensures Follow(log).value.forwards == ForwardsOf(log)
  {
    if log != [] {
      LogForwards(log[..|log| - 1]);
    }
  }

  lemma NextRecords(m: Monitor, e: Event)
    requires Next(m, e).Some?
    ensures var n := Next(m, e).value;
            && n.responses == (if e.Respond? then m.responses + [e.status] else m.responses)
            && n.metrics == (if e.Record? then m.metrics + [e.metric] else m.metrics)
            && n.downs == (if e.MarkDown? then m.downs + [e.u] else m.downs)
            && n.published == (if e.PublishDown? then m.published + [e.u] else m.published)
  {
  }

  lemma NextHolds(m: Monitor, e: Event)
    requires Next(m, e).Some?
    ensures var n := Next(m, e).value;
            && n.held == (if e.Add? then Some(e.u) else if e.Remove? then None else m.held)
            && n.retrying == (e.BeginRetry? || (!e.EndRetry? && m.retrying))
  {
  }

  lemma {:induction false} LogAnswers(log: seq<Event>)
    requires Follow(log).Some?
    ensures Follow(log).value.responses == ResponsesOf(log) && Follow(log).value.metrics == MetricsOf(log)
  {
    if log != [] {
      LogAnswers(log[..|log| - 1]);
      NextRecords(Follow(log[..|log| - 1]).value, log[|log| - 1]);
    }
  }

  lemma {:induction false} LogDowns(log: seq<Event>)
    requires Follow(log).Some?
    ensures Follow(log).value.downs == DownsOf(log) && Follow(log).value.published == PublishedOf(log)
  {
    if log != [] {
      LogDowns(log[..|log| - 1]);
      NextRecords(Follow(log[..|log| - 1]).value, log[|log| - 1]);
    }
  }

  lemma {:induction false} LogHeld(log: seq<Event>)
    requires Follow(log).Some?
    ensures Follow(log).value.held == HeldOf(log) && Follow(log).value.retrying == RetryingOf(log)
  {
    if log != [] {
      LogHeld(log[..|log| - 1]);
      NextHolds(Follow(log[..|log| - 1]).value, log[|log| - 1]);
    }
  }

  lemma {:induction false} FollowPrefix(log: seq<Event>, k: nat)
    requires Follow(log).Some? && k < |log|
    ensures Follow(log[..k]).Some? && Next(Follow(log[..k]).value, log[k]).Some?
  {
    if k < |log| - 1 {
      FollowPrefix(log[..|log| - 1], k);
      assert log[..|log| - 1][..k] == log[..k];
    }
  }

  /** Every forward goes to the backend counted for it at that moment, the second inside a counted retry. */
  lemma ForwardsAreHeld(log: seq<Event>)
    requires Follow(log).Some?
    ensures forall k :: 0 <= k < |log| && log[k].Forward? ==> HeldOf(log[..k]) == Some(log[k].u)
    ensures forall k :: 0 <= k < |log| && log[k].Forward? ==> (RetryingOf(log[..k]) <==> ForwardsOf(log[..k]) != [])
  {
    forall k | 0 <= k < |log| && log[k].Forward?
      ensures HeldOf(log[..k]) == Some(log[k].u) && (RetryingOf(log[..k]) <==> ForwardsOf(log[..k]) != [])
    {
      FollowPrefix(log, k);
      LogHeld(log[..k]);
      LogForwards(log[..k]);
    }
  }

  /** Counting a request is the first thing it does, and uncounting it the last. */
  lemma {:induction false} BeginsAndEnds(log: seq<Event>)
    requires Follow(log).Some? && log != []
    ensures log[0].BeginRequest? && Follow(log).value.begun
    ensures Follow(log).value.ended ==> log[|log| - 1].EndRequest?
  {
    if |log| > 1 {
      BeginsAndEnds(log[..|log| - 1]);
    } else {
      assert log[..0] == [];
    }
  }

  // ---------- What the handler does ----------

  /** The body arrived, within ten mebibytes, somebody is healthy and the routing answered. */
  ghost predicate Attempted(req: Incoming, env: Environment, u: Url) {
    && (req.body.None? || (|req.body.value| <= 10485760 && req.fault.NoFault?))
    && env.healthyAtStart != [] && env.target == Some(u)
  }

  lemma AttemptedIsContacted(req: Incoming, env: Environment, u: Url)
    requires Attempted(req, env, u)
    ensures Contacts(req, env)
  {
  }

  /** A request that reaches no backend gets one error, by what stopped it. */
  lemma Stopped(log: seq<Event>, on: bool, req: Incoming, env: Environment)
    requires LifeRight(log, on, req, env)
    ensures req.body.Some? && |req.body.value| > 10485760 ==> ResponsesOf(log) == [413] && ForwardsOf(log) == []
    ensures req.body.Some? && |req.body.value| <= 10485760 && !req.fault.NoFault? ==>
              ResponsesOf(log) == [500] && ForwardsOf(log) == []
    ensures (req.body.None? || (|req.body.value| <= 10485760 && req.fault.NoFault?))
            && (env.healthyAtStart == [] || env.target.None?) ==>
              ResponsesOf(log) == [503] && ForwardsOf(log) == []
    ensures ForwardsOf(log) == [] ==> MetricsOf(log) == [] && DownsOf(log) == []
  {
    LogForwards(log);
    LogAnswers(log);
    LogDowns(log);
  }

  /** A response below 500 is passed on as it is; a client that went away gets nothing; both are the end. */
  lemma PassedOn(log: seq<Event>, on: bool, req: Incoming, env: Environment, u: Url)
    requires LifeRight(log, on, req, env) && Attempted(req, env, u)
    ensures env.reply.Response? && env.reply.status < 500 ==>
              && ForwardsOf(log) == [(u, req.body)] && ResponsesOf(log) == [env.reply.status]
              && MetricsOf(log) == [Metric(u, true, false, false)] && DownsOf(log) == []
    ensures env.reply == RoundTripError(false, true) ==>
              && ForwardsOf(log) == [(u, req.body)] && ResponsesOf(log) == []
              && MetricsOf(log) == [Metric(u, false, false, false)] && DownsOf(log) == []
  {
    LogForwards(log);
    LogAnswers(log);
    LogDowns(log);
    AttemptedIsContacted(req, env, u);
  }

  /** A deadline, another error, or a status from 500 on. */
  ghost predicate Fails(reply: Reply) {
    match reply
    case RoundTripError(deadlineExceeded, clientGone) => deadlineExceeded || !clientGone
    case Response(status) => status >= 500
  }

  /** A retry is switched on, safe for the method, and no more than a fifth of the requests are retries. */
  ghost predicate Allowed(on: bool, req: Incoming, env: Environment) {
    && on && (req.method_ == "GET" || req.method_ == "PUT" || req.method_ == "DELETE")
    && (env.totalRead <= 0 || 5 * env.retriesRead <= env.totalRead)
  }

  lemma FailsMeans(reply: Reply)
    ensures reply.Response? ==> (Fails(reply) <==> reply.status >= 500)
    ensures reply.RoundTripError? ==> (Fails(reply) <==> reply != RoundTripError(false, true))
    ensures Fails(reply) <==> Classify(reply).TimedOut? || Classify(reply).BackendFailed?
    ensures Classify(reply).TimedOut? <==> reply.RoundTripError? && reply.deadlineExceeded
  {
  }

  ghost predicate OtherHealthy(env: Environment, u: Url) {
    exists j :: 0 <= j < |env.healthyNow| && env.healthyNow[j].url != u && env.healthyNow[j].healthy
  }

  /** A failed attempt that is not retried: 504, and one failure booked on the backend tried. */
  lemma NotRetried(log: seq<Event>, on: bool, req: Incoming, env: Environment, u: Url)
    requires LifeRight(log, on, req, env) && Attempted(req, env, u) && Fails(env.reply)
    requires !Allowed(on, req, env) || !OtherHealthy(env, u)
    ensures ForwardsOf(log) == [(u, req.body)] && ResponsesOf(log) == [504]
    ensures MetricsOf(log) == [Metric(u, false, env.reply.RoundTripError? && env.reply.deadlineExceeded, false)]
  {
    LogForwards(log);
    LogAnswers(log);
    AttemptedIsContacted(req, env, u);
    FailsMeans(env.reply);
    assert forall j :: 0 <= j < |env.healthyNow| ==>
        (IsCandidate(env.healthyNow[j], u) <==> env.healthyNow[j].url != u && env.healthyNow[j].healthy);
    assert !Retries(on, req, env);
  }

  /** A failed attempt that is: the same body once more, to the first of the least busy other healthy
      backends; its answer below 500 is passed on and booked as a retried success, else 504 and a failure
      booked on the first backend. */
  lemma Retried(log: seq<Event>, on: bool, req: Incoming, env: Environment, u: Url) returns (k: nat)
    requires LifeRight(log, on, req, env) && Attempted(req, env, u) && Fails(env.reply)
    requires Allowed(on, req, env) && OtherHealthy(env, u)
    ensures k < |env.healthyNow| && env.healthyNow[k].url != u && env.healthyNow[k].healthy
    ensures forall j :: 0 <= j < |env.healthyNow| && env.healthyNow[j].url != u && env.healthyNow[j].healthy ==>
              env.healthyNow[k].conns <= env.healthyNow[j].conns
              && (j < k ==> env.healthyNow[k].conns < env.healthyNow[j].conns)
    ensures ForwardsOf(log) == [(u, req.body), (env.healthyNow[k].url, req.body)]
    ensures env.retryReply.Response? && env.retryReply.status < 500 ==>
              ResponsesOf(log) == [env.retryReply.status]
              && MetricsOf(log) == [Metric(env.healthyNow[k].url, true, false, true)]
    ensures env.retryReply.RoundTripError? || env.retryReply.status >= 500 ==>
              ResponsesOf(log) == [504]
              && MetricsOf(log) == [Metric(u, false, env.retryReply.RoundTripError? && env.retryReply.deadlineExceeded, false)]
  {
    LogForwards(log);
    LogAnswers(log);
    AttemptedIsContacted(req, env, u);
    FailsMeans(env.reply);
    FailsMeans(env.retryReply);
    CandidatesAre(env.healthyNow, u);
    assert Retries(on, req, env);
    k :| IsBest(env.healthyNow, k, u) && env.healthyNow[k].url == Follow(log).value.forwards[1].0;
  }

  lemma CandidatesAre(servers: seq<Server>, u: Url)
    ensures forall j :: 0 <= j < |servers| ==> (IsCandidate(servers[j], u) <==> servers[j].url != u && servers[j].healthy)
  {
  }

  /** The failed backend is marked down, once, exactly if a retry is allowed and no entry with its URL is seen
      down already; and announced if there is anyone to announce it to. */
  lemma MarkedDown(log: seq<Event>, on: bool, req: Incoming, env: Environment, u: Url)
    requires LifeRight(log, on, req, env) && Attempted(req, env, u)
    ensures DownsOf(log)
         == if Fails(env.reply) && Allowed(on, req, env)
               && forall j :: 0 <= j < |env.allServers| && env.allServers[j].url == u ==> env.allServers[j].healthy
            then [u] else []
    ensures PublishedOf(log) == if env.hasUpdater then DownsOf(log) else []
  {
    LogDowns(log);
    AttemptedIsContacted(req, env, u);
    FailsMeans(env.reply);
  }

  /** A plain 500 is retried on a GET while a fifth of the requests retry, not beyond that, and never on a
      POST or a PATCH. */
  lemma FiveHundred(log: seq<Event>, req: Incoming, env: Environment, u: Url)
    requires LifeRight(log, true, req, env) && Attempted(req, env, u) && env.reply == Response(500) && OtherHealthy(env, u)
    ensures req.method_ == "GET" && env.totalRead == 5 && env.retriesRead == 1 ==> |ForwardsOf(log)| == 2
    ensures req.method_ == "GET" && env.totalRead == 5 && env.retriesRead == 2 ==> |ForwardsOf(log)| == 1
    ensures req.method_ == "POST" || req.method_ == "PATCH" ==> |ForwardsOf(log)| == 1
  {
    if Allowed(true, req, env) {
      var k := Retried(log, true, req, env, u);
    } else {
      NotRetried(log, true, req, env, u);
    }
  }
}
