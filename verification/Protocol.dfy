/** Health propagation between instances: local flags, a key store, one message queue per subscriber. */
module Protocol {
  import opened Common
  import opened Codec

  /** Per instance its local flags (the URLs it holds never change) and its pending messages. */
  datatype Net = Net(local: seq<map<Url, bool>>, queue: seq<seq<string>>, store: map<Url, string>)

  datatype Step =
    | Mark(i: nat, u: Url, up: bool)       // a local probe or a failed request
    | Set(u: Url, status: string)          // first phase of an update
    | Publish(u: Url, status: string)      // second phase
    | Update(u: Url, status: string)       // both phases at once
    | Deliver(i: nat)                      // one message reaches one instance
    | Resync(i: nat, u: Url)               // read the key back; write UP if there is none

  predicate IsUp(status: string) {
    status == "UP"
  }

  /** Effect of one message; malformed ones and URLs not held have none. */
  function Received(flags: map<Url, bool>, payload: string): map<Url, bool> {
    match Decode(payload)
    case None => flags
    case Some(pair) => if Url(pair.0) in flags then flags[Url(pair.0) := IsUp(pair.1)] else flags
  }

  function Broadcast(queue: seq<seq<string>>, payload: string): seq<seq<string>> {
    seq(|queue|, k requires 0 <= k < |queue| => queue[k] + [payload])
  }

  function Published(s: Net, u: Url, status: string): Net {
    s.(queue := Broadcast(s.queue, Encode(u.text, status)))
  }

  function Updated(s: Net, u: Url, status: string): Net {
    Published(s, u, status).(store := s.store[u := status])
  }

  function Marked(s: Net, i: nat, u: Url, up: bool): Net {
    if i < |s.local| && u in s.local[i] then s.(local := s.local[i := s.local[i][u := up]]) else s
  }

  function Apply(s: Net, step: Step): Net {
    match step
    case Mark(i, u, up) => Marked(s, i, u, up)
    case Set(u, status) => s.(store := s.store[u := status])
    case Publish(u, status) => Published(s, u, status)
    case Update(u, status) => Updated(s, u, status)
    case Deliver(i) =>
      if i < |s.local| && i < |s.queue| && s.queue[i] != []
      then s.(local := s.local[i := Received(s.local[i], s.queue[i][0])], queue := s.queue[i := s.queue[i][1..]])
      else s
    case Resync(i, u) =>
      if !(i < |s.local| && u in s.local[i]) then s
      else if u in s.store then Marked(s, i, u, IsUp(s.store[u]))
      else Updated(s, u, "UP")
  }

  function Run(s: Net, steps: seq<Step>): Net {
    if steps == [] then s else Apply(Run(s, steps[..|steps| - 1]), steps[|steps| - 1])
  }

  ghost predicate Wf(s: Net) {
    |s.local| == |s.queue|
  }

  /** Texts put on the wire contain no bar, so that they can be split again. */
  ghost predicate Clean(step: Step) {
    match step
    case Publish(u, status) => BAR !in u.text && BAR !in status
    case Update(u, status) => BAR !in u.text && BAR !in status
    case Resync(_, u) => BAR !in u.text
    case _ => true
  }

  ghost predicate AllClean(steps: seq<Step>) {
    forall k :: 0 <= k < |steps| ==> Clean(steps[k])
  }

  // ---------- What an instance will believe once its queue is empty ----------

  function Replay(flags: map<Url, bool>, queue: seq<string>): map<Url, bool> {
    if queue == [] then flags else Received(Replay(flags, queue[..|queue| - 1]), queue[|queue| - 1])
  }

  ghost predicate Mentions(queue: seq<string>, u: Url) {
    exists k :: 0 <= k < |queue| && Decode(queue[k]).Some? && Decode(queue[k]).value.0 == u.text
  }

  lemma {:induction false} ReplayKeys(flags: map<Url, bool>, queue: seq<string>)
    ensures Replay(flags, queue).Keys == flags.Keys
  {
    if queue != [] {
      ReplayKeys(flags, queue[..|queue| - 1]);
    }
  }

  /** Delivering the oldest message does not change what the queue leads to. */
  lemma {:induction false} ReplayHead(flags: map<Url, bool>, queue: seq<string>)
    requires queue != []
    ensures Replay(flags, queue) == Replay(Received(flags, queue[0]), queue[1..])
  {
    var n := |queue| - 1;
    if n > 0 {
      ReplayHead(flags, queue[..n]);
      assert queue[..n][1..] == queue[1..][..n - 1];
    } else {
      assert queue[..0] == [];
    }
  }

  lemma MentionsSnoc(queue: seq<string>, payload: string, u: Url)
    ensures Mentions(queue + [payload], u) <==>
              Mentions(queue, u) || (Decode(payload).Some? && Decode(payload).value.0 == u.text)
  {
    var q := queue + [payload];
    assert q[|queue|] == payload;
    if Mentions(queue, u) {
      var k :| 0 <= k < |queue| && Decode(queue[k]).Some? && Decode(queue[k]).value.0 == u.text;
      assert q[k] == queue[k];
    }
  }

  /** A local change counts only while no message about that URL is pending. */
  lemma {:induction false} ReplayMark(flags: map<Url, bool>, queue: seq<string>, u: Url, up: bool)
    requires u in flags
    ensures Replay(flags[u := up], queue)
         == if Mentions(queue, u) then Replay(flags, queue) else Replay(flags, queue)[u := up]
  {
    if queue != [] {
      var q, m := queue[..|queue| - 1], queue[|queue| - 1];
      assert queue == q + [m];
      MentionsSnoc(q, m, u);
      ReplayMark(flags, q, u, up);
      ReplayKeys(flags, q);
      ReplayKeys(flags[u := up], q);
    }
  }

  lemma ReplayPublished(flags: map<Url, bool>, queue: seq<string>, u: Url, status: string)
    requires BAR !in u.text && BAR !in status
    ensures var q := queue + [Encode(u.text, status)];
            && Replay(flags, q) == (if u in flags then Replay(flags, queue)[u := IsUp(status)] else Replay(flags, queue))
            && (forall x :: Mentions(q, x) <==> Mentions(queue, x) || x == u)
  {
    var q := queue + [Encode(u.text, status)];
    assert q[..|queue|] == queue;
    EncodeDecode(u.text, status);
    ReplayKeys(flags, queue);
    forall x
      ensures Mentions(q, x) <==> Mentions(queue, x) || x == u
    {
      MentionsSnoc(queue, Encode(u.text, status), x);
    }
  }

  // ---------- Coherence with a reference view ----------

  ghost function View(s: Net, i: nat): map<Url, bool>
    requires Wf(s) && i < |s.local|
  {
    Replay(s.local[i], s.queue[i])
  }

  /** Instance i, if it holds u, is heading for flag `up`: a message about u is pending, or no local mark
      is newer than the last word on u. */
  ghost predicate CoherentAt(s: Net, i: nat, u: Url, up: bool, marked: bool)
    requires Wf(s)
  {
    i < |s.local| && u in s.local[i] && (Mentions(s.queue[i], u) || !marked) ==>
      u in View(s, i) && View(s, i)[u] == up
  }

  ghost predicate Coherent(s: Net, view: map<Url, bool>, marked: set<(nat, Url)>) {
    Wf(s) && forall i: nat, u :: u in view ==> CoherentAt(s, i, u, view[u], (i, u) in marked)
  }

  lemma MarkAt(s: Net, i: nat, u: Url, up: bool, j: nat, x: Url, ref: bool, marked: bool)
    requires Wf(s) && CoherentAt(s, j, x, ref, marked)
    ensures CoherentAt(Marked(s, i, u, up), j, x, ref, marked || (j, x) == (i, u))
    ensures (j, x) == (i, u) && up == ref ==> CoherentAt(Marked(s, i, u, up), j, x, ref, false)
  {
    if i < |s.local| && u in s.local[i] {
      ReplayMark(s.local[i], s.queue[i], u, up);
      ReplayKeys(s.local[i], s.queue[i]);
    }
  }

  lemma PublishAt(s: Net, u: Url, status: string, j: nat, x: Url, ref: bool, marked: bool)
    requires Wf(s) && BAR !in u.text && BAR !in status
    requires x == u || CoherentAt(s, j, x, ref, marked)
    ensures x == u ==> CoherentAt(Published(s, u, status), j, x, IsUp(status), false)
    ensures x != u ==> CoherentAt(Published(s, u, status), j, x, ref, marked)
  {
    if j < |s.local| {
      ReplayPublished(s.local[j], s.queue[j], u, status);
      ReplayKeys(s.local[j], s.queue[j]);
    }
  }

  lemma DeliverAt(s: Net, i: nat, j: nat, x: Url, ref: bool, marked: bool)
    requires Wf(s) && CoherentAt(s, j, x, ref, marked)
    ensures CoherentAt(Apply(s, Deliver(i)), j, x, ref, marked)
  {
    if i == j < |s.local| && s.queue[i] != [] {
      var q := s.queue[i];
      ReplayHead(s.local[i], q);
      if Mentions(q[1..], x) {
        var k :| 0 <= k < |q| - 1 && Decode(q[1..][k]).Some? && Decode(q[1..][k]).value.0 == x.text;
        assert q[k + 1] == q[1..][k];
      }
    }
  }

  // ---------- Agreement ----------

  /** The last word on each URL: the status published last, or the common initial flag. */
  function LastWord(init: map<Url, bool>, steps: seq<Step>): map<Url, bool> {
    if steps == [] then init
    else
      var before := LastWord(init, steps[..|steps| - 1]);
      match steps[|steps| - 1]
      case Publish(u, status) => before[u := IsUp(status)]
      case Update(u, status) => before[u := IsUp(status)]
      case _ => before
  }

  /** Local marks newer than the last publication of their URL. */
  ghost function Unpublished(steps: seq<Step>): set<(nat, Url)> {
    if steps == [] then {}
    else
      var before := Unpublished(steps[..|steps| - 1]);
      match steps[|steps| - 1]
      case Mark(i, u, _) => before + {(i, u)}
      case Publish(u, _) => set m | m in before && m.1 != u
      case Update(u, _) => set m | m in before && m.1 != u
      case _ => before
  }

  lemma {:induction false} AgreementInvariant(s: Net, init: map<Url, bool>, steps: seq<Step>)
    requires Wf(s) && Coherent(s, init, {}) && AllClean(steps)
    requires forall k :: 0 <= k < |steps| ==> !steps[k].Resync?
    ensures Coherent(Run(s, steps), LastWord(init, steps), Unpublished(steps))
  {
    if steps != [] {
      var before, step := steps[..|steps| - 1], steps[|steps| - 1];
      AgreementInvariant(s, init, before);
      var r, view, marked := Run(s, before), LastWord(init, before), Unpublished(before);
      assert Clean(step) && !step.Resync?;
      forall j: nat, x | x in LastWord(init, steps)
        ensures CoherentAt(Run(s, steps), j, x, LastWord(init, steps)[x], (j, x) in Unpublished(steps))
      {
        match step
        case Mark(i, u, up) => MarkAt(r, i, u, up, j, x, view[x], (j, x) in marked);
        case Set(_, _) =>
        case Publish(u, status) => PublishAt(r, u, status, j, x, if x in view then view[x] else true, (j, x) in marked);
        case Update(u, status) => PublishAt(r, u, status, j, x, if x in view then view[x] else true, (j, x) in marked);
        case Deliver(i) => DeliverAt(r, i, j, x, view[x], (j, x) in marked);
        case Resync(_, _) => assert false;
      }
    }
  }

  ghost predicate Quiet(s: Net) {
    forall i :: 0 <= i < |s.queue| ==> s.queue[i] == []
  }

  ghost predicate StartsEqual(s: Net, init: map<Url, bool>) {
    && Wf(s) && Quiet(s)
    && forall i, u :: 0 <= i < |s.local| && u in s.local[i] ==> u in init && s.local[i][u] == init[u]
  }

  /** Instances that start equal, exchange marks and updates in any order and lose no message agree
      once every mark has been published and every queue is empty: all hold the last word on each URL. */
  lemma Agreement(s: Net, init: map<Url, bool>, steps: seq<Step>)
    requires StartsEqual(s, init) && AllClean(steps)
    requires forall k :: 0 <= k < |steps| ==> !steps[k].Resync?
    requires Quiet(Run(s, steps)) && Unpublished(steps) == {}
    ensures var r := Run(s, steps);
            forall i: nat, u :: i < |r.local| && u in r.local[i] ==>
              u in LastWord(init, steps) && r.local[i][u] == LastWord(init, steps)[u]
  {
    assert Coherent(s, init, {});
    AgreementInvariant(s, init, steps);
    HoldingsKept(s, steps);
    var r := Run(s, steps);
    forall i: nat, u | i < |r.local| && u in r.local[i]
      ensures u in LastWord(init, steps) && r.local[i][u] == LastWord(init, steps)[u]
    {
      WordsKept(init, steps, u);
      assert CoherentAt(r, i, u, LastWord(init, steps)[u], (i, u) in Unpublished(steps));
    }
  }

  lemma {:induction false} HoldingsKept(s: Net, steps: seq<Step>)
    requires Wf(s)
    ensures Wf(Run(s, steps)) && |Run(s, steps).local| == |s.local|
    ensures forall i :: 0 <= i < |s.local| ==> Run(s, steps).local[i].Keys == s.local[i].Keys
  {
    if steps != [] {
      HoldingsKept(s, steps[..|steps| - 1]);
    }
  }

  lemma {:induction false} WordsKept(init: map<Url, bool>, steps: seq<Step>, u: Url)
    requires u in init
    ensures u in LastWord(init, steps)
  {
    if steps != [] {
      WordsKept(init, steps[..|steps| - 1], u);
    }
  }

  // ---------- The store ----------

  function LastSet(store: map<Url, string>, steps: seq<Step>): map<Url, string> {
    if steps == [] then store
    else
      var before := LastSet(store, steps[..|steps| - 1]);
      match steps[|steps| - 1]
      case Set(u, status) => before[u := status]
      case Update(u, status) => before[u := status]
      case _ => before
  }

  lemma {:induction false} StoreIsLastSet(s: Net, steps: seq<Step>)
    requires forall k :: 0 <= k < |steps| ==> !steps[k].Resync?
    ensures Run(s, steps).store == LastSet(s.store, steps)
  {
    if steps != [] {
      StoreIsLastSet(s, steps[..|steps| - 1]);
      assert !steps[|steps| - 1].Resync?;
    }
  }

  /** With SET and PUBLISH interleaving freely the agreed flag is the key's exactly when the last SET and
      the last PUBLISH for the URL say the same. */
  lemma AgreementWithStore(s: Net, init: map<Url, bool>, steps: seq<Step>, i: nat, u: Url)
    requires StartsEqual(s, init) && AllClean(steps)
    requires forall k :: 0 <= k < |steps| ==> !steps[k].Resync?
    requires Quiet(Run(s, steps)) && Unpublished(steps) == {}
    requires i < |s.local| && u in s.local[i] && u in LastSet(s.store, steps)
    ensures var r := Run(s, steps);
            && i < |r.local| && u in r.local[i] && u in r.store && u in LastWord(init, steps)
            && (r.local[i][u] == IsUp(r.store[u]) <==> LastWord(init, steps)[u] == IsUp(LastSet(s.store, steps)[u]))
  {
    Agreement(s, init, steps);
    HoldingsKept(s, steps);
    StoreIsLastSet(s, steps);
    assert u in Run(s, steps).local[i].Keys;
  }

  /** The status of `u` that is set but not yet published. */
  function Underway(steps: seq<Step>, u: Url): Option<string> {
    if steps == [] then None
    else
      match steps[|steps| - 1]
      case Set(x, status) => if x == u then Some(status) else Underway(steps[..|steps| - 1], u)
      case Publish(x, _) => if x == u then None else Underway(steps[..|steps| - 1], u)
      case _ => Underway(steps[..|steps| - 1], u)
  }

  /** Updates of `u` do not cross: nothing is set while another status is under way, and what is published
      is what was set. */
  ghost predicate NeverCross(steps: seq<Step>, u: Url) {
    steps == [] ||
    (var before := steps[..|steps| - 1];
     NeverCross(before, u) &&
     match steps[|steps| - 1]
     case Set(x, _) => x == u ==> Underway(before, u).None?
     case Publish(x, status) => x == u ==> Underway(before, u) == Some(status)
     case Update(x, _) => x == u ==> Underway(before, u).None?
     case _ => true)
  }

  lemma {:induction false} UncrossedWords(init: map<Url, bool>, store: map<Url, string>, steps: seq<Step>, u: Url)
    requires u in init && u in store && init[u] == IsUp(store[u]) && NeverCross(steps, u)
    ensures u in LastWord(init, steps) && u in LastSet(store, steps)
    ensures if Underway(steps, u).Some? then LastSet(store, steps)[u] == Underway(steps, u).value
            else LastWord(init, steps)[u] == IsUp(LastSet(store, steps)[u])
  {
    if steps != [] {
      UncrossedWords(init, store, steps[..|steps| - 1], u);
    }
  }

  /** Where the updates of a URL never cross and none is left half done, every instance ends with the
      status of its key. */
  lemma UncrossedMatchStore(s: Net, init: map<Url, bool>, steps: seq<Step>, u: Url)
    requires StartsEqual(s, init) && AllClean(steps)
    requires forall k :: 0 <= k < |steps| ==> !steps[k].Resync?
    requires Quiet(Run(s, steps)) && Unpublished(steps) == {}
    requires u in init && u in s.store && init[u] == IsUp(s.store[u])
    requires NeverCross(steps, u) && Underway(steps, u).None?
    ensures var r := Run(s, steps);
            u in r.store && forall i: nat :: i < |r.local| && u in r.local[i] ==> r.local[i][u] == IsUp(r.store[u])
  {
    UncrossedWords(init, s.store, steps, u);
    StoreIsLastSet(s, steps);
    HoldingsKept(s, steps);
    Agreement(s, init, steps);
  }

  lemma OneMoreStep(s: Net, steps: seq<Step>, k: nat, r: Net)
    requires k < |steps| && Run(s, steps[..k]) == r
    ensures Run(s, steps[..k + 1]) == Apply(r, steps[k])
  {
    assert steps[..k + 1][..k] == steps[..k];
  }

  /** A request on instance 0 marks a URL down and updates; a probe there finds it up again, and its update
      overtakes the first between SET and PUBLISH; everything is delivered. */
  function CrossedRun(u: Url): seq<Step> {
    [Mark(0, u, false), Set(u, "DOWN"), Mark(0, u, true), Set(u, "UP"), Publish(u, "UP"), Publish(u, "DOWN"),
     Deliver(0), Deliver(1), Deliver(0), Deliver(1)]
  }

  /** Marks in these runs change the flag they meet, as every mark does that is followed by an update. */
  ghost predicate MarksChange(s: Net, steps: seq<Step>) {
    forall k :: 0 <= k < |steps| && steps[k].Mark? ==> FlagIn(Run(s, steps[..k]), steps[k].i, steps[k].u) == Some(!steps[k].up)
  }

  function FlagIn(s: Net, i: nat, u: Url): Option<bool> {
    if i < |s.local| && u in s.local[i] then Some(s.local[i][u]) else None
  }

  function Pair(a: bool, b: bool, u: Url, qa: seq<string>, qb: seq<string>, key: string): Net {
    Net([map[u := a], map[u := b]], [qa, qb], map[u := key])
  }

  lemma PairMoves(a: bool, b: bool, u: Url, qa: seq<string>, qb: seq<string>, key: string, status: string)
    ensures var s := Pair(a, b, u, qa, qb, key);
            && Apply(s, Mark(0, u, IsUp(status))) == Pair(IsUp(status), b, u, qa, qb, key)
            && Apply(s, Set(u, status)) == Pair(a, b, u, qa, qb, status)
            && Apply(s, Publish(u, status))
               == Pair(a, b, u, qa + [Encode(u.text, status)], qb + [Encode(u.text, status)], key)
  {
    var s, m := Pair(a, b, u, qa, qb, key), Encode(u.text, status);
    assert map[u := a][u := IsUp(status)] == map[u := IsUp(status)];
    assert map[u := key][u := status] == map[u := status];
    assert Broadcast([qa, qb], m) == [qa + [m], qb + [m]];
  }

  lemma PairDeliveries(a: bool, b: bool, u: Url, qa: seq<string>, qb: seq<string>, key: string, status: string)
    requires BAR !in u.text && BAR !in status
    ensures var m := Encode(u.text, status);
            && Apply(Pair(a, b, u, [m] + qa, qb, key), Deliver(0)) == Pair(IsUp(status), b, u, qa, qb, key)
            && Apply(Pair(a, b, u, qa, [m] + qb, key), Deliver(1)) == Pair(a, IsUp(status), u, qa, qb, key)
  {
    var m := Encode(u.text, status);
    EncodeDecode(u.text, status);
    assert map[u := a][u := IsUp(status)] == map[u := IsUp(status)];
    assert map[u := b][u := IsUp(status)] == map[u := IsUp(status)];
    assert ([m] + qa)[1..] == qa && ([m] + qb)[1..] == qb;
  }

  /** They need not: with the two phases crossing, every instance ends down while the key says up. */
  lemma CrossedUpdates(u: Url)
    requires BAR !in u.text
    ensures var s := Pair(true, true, u, [], [], "UP");
            && StartsEqual(s, map[u := true]) && AllClean(CrossedRun(u)) && Unpublished(CrossedRun(u)) == {}
            && Run(s, CrossedRun(u)) == Pair(false, false, u, [], [], "UP")
            && MarksChange(s, CrossedRun(u))
  {
    var s := Pair(true, true, u, [], [], "UP");
    CrossedEnds(s, u);
    CrossedMarks(u);
  }

  lemma CrossedEnds(s: Net, u: Url)
    requires BAR !in u.text && s == Pair(true, true, u, [], [], "UP")
    ensures Run(s, CrossedRun(u)) == Pair(false, false, u, [], [], "UP") && MarksChange(s, CrossedRun(u))
  {
    CrossedDown(s, u);
    CrossedMarksChange(s, u);
    CrossedUp(s, u);
    CrossedPublishes(s, u);
    CrossedDelivery(s, u);
  }

  lemma CrossedDown(s: Net, u: Url)
    requires s == Pair(true, true, u, [], [], "UP")
    ensures Run(s, CrossedRun(u)[..2]) == Pair(false, true, u, [], [], "DOWN")
  {
    var steps := CrossedRun(u);
    OneMoreStep(s, steps, 0, s);
    PairMoves(true, true, u, [], [], "UP", "DOWN");
    OneMoreStep(s, steps, 1, Pair(false, true, u, [], [], "UP"));
    PairMoves(false, true, u, [], [], "UP", "DOWN");
  }

  lemma CrossedUp(s: Net, u: Url)
    requires Run(s, CrossedRun(u)[..2]) == Pair(false, true, u, [], [], "DOWN")
    ensures Run(s, CrossedRun(u)[..4]) == Pair(true, true, u, [], [], "UP")
  {
    var steps := CrossedRun(u);
    OneMoreStep(s, steps, 2, Pair(false, true, u, [], [], "DOWN"));
    PairMoves(false, true, u, [], [], "DOWN", "UP");
    OneMoreStep(s, steps, 3, Pair(true, true, u, [], [], "DOWN"));
    PairMoves(true, true, u, [], [], "DOWN", "UP");
  }

  lemma CrossedMarksChange(s: Net, u: Url)
    requires s == Pair(true, true, u, [], [], "UP")
    requires Run(s, CrossedRun(u)[..2]) == Pair(false, true, u, [], [], "DOWN")
    ensures MarksChange(s, CrossedRun(u))
  {
    assert CrossedRun(u)[..0] == [];
  }

  lemma CrossedPublishes(s: Net, u: Url)
    requires Run(s, CrossedRun(u)[..4]) == Pair(true, true, u, [], [], "UP")
    ensures var up, down := Encode(u.text, "UP"), Encode(u.text, "DOWN");
            Run(s, CrossedRun(u)[..6]) == Pair(true, true, u, [up] + [down], [up] + [down], "UP")
  {
    var steps, up := CrossedRun(u), Encode(u.text, "UP");
    OneMoreStep(s, steps, 4, Pair(true, true, u, [], [], "UP"));
    PairMoves(true, true, u, [], [], "UP", "UP");
    assert [] + [up] == [up];
    OneMoreStep(s, steps, 5, Pair(true, true, u, [up], [up], "UP"));
    PairMoves(true, true, u, [up], [up], "UP", "DOWN");
  }

  lemma CrossedFirst(s: Net, u: Url)
    requires BAR !in u.text
    requires var up, down := Encode(u.text, "UP"), Encode(u.text, "DOWN");
             Run(s, CrossedRun(u)[..6]) == Pair(true, true, u, [up] + [down], [up] + [down], "UP")
    ensures var down := Encode(u.text, "DOWN");
            Run(s, CrossedRun(u)[..8]) == Pair(true, true, u, [down], [down], "UP")
  {
    var steps, up, down := CrossedRun(u), Encode(u.text, "UP"), Encode(u.text, "DOWN");
    OneMoreStep(s, steps, 6, Pair(true, true, u, [up] + [down], [up] + [down], "UP"));
    PairDeliveries(true, true, u, [down], [up] + [down], "UP", "UP");
    OneMoreStep(s, steps, 7, Pair(true, true, u, [down], [up] + [down], "UP"));
    PairDeliveries(true, true, u, [down], [down], "UP", "UP");
  }

  lemma CrossedDelivery(s: Net, u: Url)
    requires BAR !in u.text
    requires var up, down := Encode(u.text, "UP"), Encode(u.text, "DOWN");
             Run(s, CrossedRun(u)[..6]) == Pair(true, true, u, [up] + [down], [up] + [down], "UP")
    ensures Run(s, CrossedRun(u)) == Pair(false, false, u, [], [], "UP")
  {
    CrossedFirst(s, u);
    var steps, down := CrossedRun(u), Encode(u.text, "DOWN");
    assert [down] + [] == [down];
    OneMoreStep(s, steps, 8, Pair(true, true, u, [down], [down], "UP"));
    PairDeliveries(true, true, u, [], [down], "UP", "DOWN");
    OneMoreStep(s, steps, 9, Pair(false, true, u, [], [down], "UP"));
    PairDeliveries(false, true, u, [], [], "UP", "DOWN");
    assert steps[..10] == steps;
  }

  lemma {:induction false} MarksAfterPublish(steps: seq<Step>, k: nat, u: Url)
    requires k < |steps| && steps[k].Publish? && steps[k].u == u
    requires forall j :: 0 <= j < |steps| && steps[j].Mark? ==> j < k && steps[j].u == u
    ensures Unpublished(steps) == {}
  {
    if k == |steps| - 1 {
      OnlyMarksOf(steps[..k], u);
    } else {
      var rest := steps[..|steps| - 1];
      assert forall j :: 0 <= j < |rest| ==> rest[j] == steps[j];
      MarksAfterPublish(rest, k, u);
    }
  }

  lemma {:induction false} OnlyMarksOf(steps: seq<Step>, u: Url)
    requires forall j :: 0 <= j < |steps| && steps[j].Mark? ==> steps[j].u == u
    ensures forall m :: m in Unpublished(steps) ==> m.1 == u
  {
    if steps != [] {
      var rest := steps[..|steps| - 1];
      assert forall j :: 0 <= j < |rest| ==> rest[j] == steps[j];
      OnlyMarksOf(rest, u);
    }
  }

  lemma CrossedMarks(u: Url)
    ensures Unpublished(CrossedRun(u)) == {}
  {
    MarksAfterPublish(CrossedRun(u), 4, u);
  }

  ghost predicate AtomicUpdates(steps: seq<Step>) {
    forall k :: 0 <= k < |steps| ==> !steps[k].Set? && !steps[k].Publish?
  }

  function Ups(store: map<Url, string>): map<Url, bool> {
    map u | u in store :: IsUp(store[u])
  }

  /** Local marks newer than the last update of their URL and than the instance's last re-sync of it. */
  ghost function Unsettled(steps: seq<Step>): set<(nat, Url)> {
    if steps == [] then {}
    else
      var before := Unsettled(steps[..|steps| - 1]);
      match steps[|steps| - 1]
      case Mark(i, u, _) => before + {(i, u)}
      case Update(u, _) => set m | m in before && m.1 != u
      case Resync(i, u) => before - {(i, u)}
      case _ => before
  }

  lemma ResyncAt(s: Net, i: nat, u: Url, marked: set<(nat, Url)>, j: nat, x: Url)
    requires Coherent(s, Ups(s.store), marked) && BAR !in u.text
    requires x in Apply(s, Resync(i, u)).store
    ensures CoherentAt(Apply(s, Resync(i, u)), j, x, IsUp(Apply(s, Resync(i, u)).store[x]), (j, x) in marked - {(i, u)})
  {
    if i < |s.local| && u in s.local[i] {
      if u in s.store {
        assert CoherentAt(s, j, x, Ups(s.store)[x], (j, x) in marked);
        MarkAt(s, i, u, IsUp(s.store[u]), j, x, IsUp(s.store[x]), (j, x) in marked);
      } else {
        if x != u {
          assert CoherentAt(s, j, x, Ups(s.store)[x], (j, x) in marked);
        }
        PublishAt(s, u, "UP", j, x, if x in s.store then IsUp(s.store[x]) else true, (j, x) in marked);
      }
    } else {
      assert CoherentAt(s, j, x, Ups(s.store)[x], (j, x) in marked);
    }
  }

  /** View plus queue equals store: while every update does SET and PUBLISH as one step, replaying an
      instance's pending messages on its flags yields the key's status, for every URL with a key and no
      local mark newer than the last update; marks, updates, deliveries and re-syncs all keep this. */
  lemma {:induction false} ViewPlusQueueIsStore(s: Net, steps: seq<Step>)
    requires Coherent(s, Ups(s.store), {}) && AllClean(steps) && AtomicUpdates(steps)
    ensures var r := Run(s, steps); Coherent(r, Ups(r.store), Unsettled(steps))
  {
    if steps != [] {
      var before, step := steps[..|steps| - 1], steps[|steps| - 1];
      ViewPlusQueueIsStore(s, before);
      var r, marked := Run(s, before), Unsettled(before);
      var r' := Run(s, steps);
      assert Clean(step) && !step.Set? && !step.Publish?;
      forall j: nat, x | x in r'.store
        ensures CoherentAt(r', j, x, IsUp(r'.store[x]), (j, x) in Unsettled(steps))
      {
        assert x in r.store ==> CoherentAt(r, j, x, Ups(r.store)[x], (j, x) in marked);
        match step
        case Mark(i, u, up) => MarkAt(r, i, u, up, j, x, IsUp(r.store[x]), (j, x) in marked);
        case Update(u, status) => PublishAt(r, u, status, j, x, if x in r.store then IsUp(r.store[x]) else true, (j, x) in marked);
        case Deliver(i) => DeliverAt(r, i, j, x, IsUp(r.store[x]), (j, x) in marked);
        case Resync(i, u) => ResyncAt(r, i, u, marked, j, x);
        case Set(_, _) => assert false;
        case Publish(_, _) => assert false;
      }
    }
  }

  /** A re-sync applies what it read. Applied late, it keeps an instance's view true exactly when a
      message about the URL is still pending or the key says the same by then. */
  lemma LateResync(s: Net, i: nat, u: Url, read: string)
    requires Wf(s) && i < |s.local| && u in s.local[i] && u in s.store
    requires CoherentAt(s, i, u, IsUp(s.store[u]), false)
    ensures CoherentAt(Marked(s, i, u, IsUp(read)), i, u, IsUp(s.store[u]), false) <==>
              Mentions(s.queue[i], u) || IsUp(read) == IsUp(s.store[u])
  {
    ReplayMark(s.local[i], s.queue[i], u, IsUp(read));
    ReplayKeys(s.local[i], s.queue[i]);
  }

  // ---------- Self-stabilisation ----------

  /** Every instance re-reads every URL it holds, in any order. */
  ghost predicate FullResync(s: Net, steps: seq<Step>) {
    && (forall k :: 0 <= k < |steps| ==> steps[k].Resync?)
    && (forall i: nat, u :: i < |s.local| && u in s.local[i] ==> Resync(i, u) in steps)
  }

  ghost predicate AllDeliver(steps: seq<Step>) {
    forall k :: 0 <= k < |steps| ==> steps[k].Deliver?
  }

  ghost predicate Keyed(s: Net) {
    forall i: nat, u :: i < |s.local| && u in s.local[i] ==> u in s.store
  }

  /** Every instance holds the key's status for every URL it holds, and nothing is under way. */
  ghost predicate Settled(s: Net) {
    && Wf(s) && Quiet(s) && Keyed(s)
    && forall i: nat, u :: i < |s.local| && u in s.local[i] ==> s.local[i][u] == IsUp(s.store[u])
  }

  lemma {:induction false} ResyncWritesKeys(s: Net, steps: seq<Step>, i: nat, u: Url)
    requires Wf(s) && i < |s.local| && u in s.local[i]
    requires forall k :: 0 <= k < |steps| ==> steps[k].Resync?
    requires u in s.store || Resync(i, u) in steps
    ensures u in Run(s, steps).store
  {
    if steps != [] && u !in s.store {
      var before, step := steps[..|steps| - 1], steps[|steps| - 1];
      HoldingsKept(s, before);
      assert u in Run(s, before).local[i].Keys;
      assert steps == before + [step];
      if step != Resync(i, u) {
        ResyncWritesKeys(s, before, i, u);
      }
    } else if steps != [] {
      ResyncWritesKeys(s, steps[..|steps| - 1], i, u);
    }
  }

  lemma {:induction false} DeliveriesKeepStore(s: Net, steps: seq<Step>)
    requires AllDeliver(steps)
    ensures Run(s, steps).store == s.store
  {
    if steps != [] {
      DeliveriesKeepStore(s, steps[..|steps| - 1]);
      assert steps[|steps| - 1].Deliver?;
    }
  }

  lemma {:induction false} ResyncCopiesKeys(s: Net, steps: seq<Step>, i: nat, u: Url)
    requires Wf(s) && Keyed(s) && forall k :: 0 <= k < |steps| ==> steps[k].Resync?
    ensures Run(s, steps).store == s.store && Run(s, steps).queue == s.queue
    ensures i < |s.local| && u in s.local[i] && Resync(i, u) in steps ==>
              Wf(Run(s, steps)) && u in Run(s, steps).local[i] && Run(s, steps).local[i][u] == IsUp(s.store[u])
  {
    if steps != [] {
      var before, step := steps[..|steps| - 1], steps[|steps| - 1];
      assert steps == before + [step] && step.Resync?;
      ResyncCopiesKeys(s, before, i, u);
      HoldingsKept(s, before);
      var r := Run(s, before);
      if step.i < |r.local| && step.u in r.local[step.i] {
        assert step.u in s.local[step.i].Keys;
      }
      if i < |s.local| && u in s.local[i] {
        assert u in r.local[i].Keys;
      }
    }
  }

  /** From any flags, any queue contents and any keys: once every instance has re-read its URLs, the
      queues have drained and every instance has re-read its URLs again, all of them hold the key's
      status for every URL, and further deliveries and re-syncs change nothing. */
  lemma {:induction false} SelfStabilises(s: Net, first: seq<Step>, drain: seq<Step>, second: seq<Step>)
    requires Wf(s) && FullResync(s, first) && AllDeliver(drain) && FullResync(s, second)
    requires Quiet(Run(Run(s, first), drain))
    ensures var r := Run(Run(Run(s, first), drain), second);
            Settled(r) && forall step: Step :: step.Deliver? || step.Resync? ==> Apply(r, step) == r
  {
    var a := Run(s, first);
    var b := Run(a, drain);
    var r := Run(b, second);
    HoldingsKept(s, first);
    HoldingsKept(a, drain);
    HoldingsKept(b, second);
    DeliveriesKeepStore(a, drain);
    forall i: nat, u | i < |b.local| && u in b.local[i]
      ensures u in b.store
    {
      assert u in s.local[i].Keys;
      ResyncWritesKeys(s, first, i, u);
    }
    ResyncCopiesKeys(b, second, 0, Url(""));
    forall i: nat, u | i < |r.local| && u in r.local[i]
      ensures u in r.store && r.local[i][u] == IsUp(r.store[u])
    {
      assert u in b.local[i].Keys && u in s.local[i].Keys;
      ResyncCopiesKeys(b, second, i, u);
    }
    SettledIsStable(r);
  }

  lemma SettledIsStable(s: Net)
    requires Settled(s)
    ensures forall step: Step :: step.Deliver? || step.Resync? ==> Apply(s, step) == s
  {
    forall step: Step | step.Deliver? || step.Resync?
      ensures Apply(s, step) == s
    {
      if step.Resync? && step.i < |s.local| && step.u in s.local[step.i] {
        var flags := s.local[step.i];
        assert flags[step.u := IsUp(s.store[step.u])] == flags;
        assert s.local[step.i := flags] == s.local;
      }
    }
  }
}
