/** The process side of health propagation: writing keys and the channel, applying keys and messages. */
module RedisManager {
  import opened Common
  import opened Pool
  import opened PoolLaws
  import opened SharedPool
  import opened InMemoryPool
  import opened Codec
  import opened Protocol

  const KEY_PREFIX: string := "backend:"

  function KeyOf(u: Url): string {
    KEY_PREFIX + u.text
  }

  /** What goes wrong in the calls made for one URL. */
  datatype Fault = NoFault | GetFails | SetFails | PublishFails

  /** The key store and the channel, with one pending queue per subscriber. */
  class Redis {
    var keys: map<string, string>
    var channels: seq<seq<string>>

    constructor (subscribers: nat)
      ensures keys == map[] && channels == seq(subscribers, _ => [])
    {
      keys := map[];
      channels := seq(subscribers, _ => []);
    }
  }

  /** What one process and the server hold between them. */
  datatype World = World(pool: Shared, keys: map<string, string>, channels: seq<seq<string>>)

  /** One update, as far as it gets. */
  function Written(w: World, u: Url, status: string, fault: Fault): World {
    if fault == SetFails then w
    else
      var kept := w.(keys := w.keys[KeyOf(u) := status]);
      if fault == PublishFails then kept
      else kept.(channels := Broadcast(w.channels, Encode(u.text, status)))
  }

  /** One URL of a re-sync: apply the key, or write UP where there is none; a failing read skips it. */
  function Synced(w: World, u: Url, fault: Fault): World {
    if fault == GetFails then w
    else if KeyOf(u) in w.keys then w.(pool := MarkShared(w.pool, u, IsUp(w.keys[KeyOf(u)])))
    else Written(w, u, "UP", fault)
  }

  function SyncedAll(w: World, urls: seq<Url>, faults: Url -> Fault): World {
    if urls == [] then w
    else
      var u := urls[|urls| - 1];
      Synced(SyncedAll(w, urls[..|urls| - 1], faults), u, faults(u))
  }

  class Manager {
    const client: Redis
    const pool: InMemory

    constructor (client: Redis, pool: InMemory)
      ensures this.client == client && this.pool == pool
    {
      this.client, this.pool := client, pool;
    }

    /** The process and the server are in this state. */
    ghost predicate IsIn(w: World)
      reads client, pool, pool.servers
    {
      pool.Shows(w.pool) && w.keys == client.keys && w.channels == client.channels
    }

    /** Together they are instance i of this protocol state. */
    ghost predicate Mirrors(s: Net, i: nat)
      reads client, pool, pool.servers
    {
      && Wf(s) && i < |s.local| && s.local[i] == Flags(pool.View()) && s.queue == client.channels
      && (forall u :: u in s.store <==> KeyOf(u) in client.keys)
      && (forall u :: u in s.store ==> s.store[u] == client.keys[KeyOf(u)])
    }

    /** The state they are in represents every protocol state they mirror. */
    lemma InSome() returns (w: World)
      ensures IsIn(w) && forall s, i :: Mirrors(s, i) ==> Represents(s, i, w)
    {
      var p := pool.ShownBySome();
      pool.ShownIsCoherent(p);
      w := World(p, client.keys, client.channels);
    }

    lemma InMirrors(s: Net, i: nat, w: World)
      requires IsIn(w) && Represents(s, i, w)
      ensures Mirrors(s, i)
    {
    }

    /** SET, then PUBLISH; a failing phase ends the call with an error and the earlier one stands. Without
        failure it is the protocol's update. */
    method UpdateBackendStatus(u: Url, status: string, fault: Fault) returns (failed: bool)
      modifies client
      ensures forall w :: old(IsIn(w)) ==> IsIn(Written(w, u, status, fault))
      ensures failed <==> fault == SetFails || fault == PublishFails
      ensures fault == NoFault ==> forall s, i :: old(Mirrors(s, i)) ==> Mirrors(Apply(s, Update(u, status)), i)
      ensures client.keys == if fault == SetFails then old(client.keys) else old(client.keys)["backend:" + u.text := status]
      ensures fault == SetFails || fault == PublishFails ==> client.channels == old(client.channels)
      ensures fault == NoFault || fault == GetFails ==>
                |client.channels| == |old(client.channels)|
                && forall k :: 0 <= k < |client.channels| ==>
                     client.channels[k] == old(client.channels)[k] + [u.text + "|" + status]
    {
      ghost var w := InSome();
      failed := SetAndPublish(u, status, fault);
      if fault == NoFault {
        forall s, i | old(Mirrors(s, i))
          ensures Mirrors(Apply(s, Update(u, status)), i)
        {
          WrittenIsUpdate(s, i, w, u, status);
          InMirrors(Apply(s, Update(u, status)), i, Written(w, u, status, NoFault));
        }
      }
    }

    method SetAndPublish(u: Url, status: string, fault: Fault) returns (failed: bool)
      modifies client
      ensures forall w :: old(IsIn(w)) ==> IsIn(Written(w, u, status, fault))
      ensures failed <==> fault == SetFails || fault == PublishFails
      ensures client.keys == if fault == SetFails then old(client.keys) else old(client.keys)["backend:" + u.text := status]
      ensures fault == SetFails || fault == PublishFails ==> client.channels == old(client.channels)
      ensures fault == NoFault || fault == GetFails ==>
                |client.channels| == |old(client.channels)|
                && forall k :: 0 <= k < |client.channels| ==>
                     client.channels[k] == old(client.channels)[k] + [u.text + "|" + status]
    {
      OnTheWire(u.text, status);
      if fault == SetFails {
        return true;
      }
      client.keys := client.keys[KeyOf(u) := status];
      if fault == PublishFails {
        return true;
      }
      var message := Encode(u.text, status);
      client.channels := Broadcast(client.channels, message);
      failed := false;
    }

    /** Applies the stored status of every registered backend, creating missing keys as UP. Without failure
        it is the protocol's re-sync of each of them. */
    method SyncOnStartUp(faults: Url -> Fault)
      modifies client, pool.servers
      ensures pool.servers == old(pool.servers)
      ensures forall w :: old(IsIn(w)) ==> IsIn(SyncedAll(w, UrlsOf(old(pool.View())), faults))
      ensures (forall u :: faults(u) == NoFault) ==>
                forall s, i :: old(Mirrors(s, i)) ==> Mirrors(Run(s, Resyncs(i, UrlsOf(old(pool.View())))), i)
      ensures Resynced(old(pool.View()), old(client.keys), old(client.channels), faults)
    {
      ghost var w := InSome();
      ghost var urls := UrlsOf(pool.View());
      pool.ShownIsCoherent(w.pool);
      ApplyKeys(faults);
      ResyncMeans(w, urls, faults);
      if forall u :: faults(u) == NoFault {
        forall s, i | old(Mirrors(s, i))
          ensures Mirrors(Run(s, Resyncs(i, urls)), i)
        {
          SyncIsResync(s, i, w, urls, faults);
          InMirrors(Run(s, Resyncs(i, urls)), i, SyncedAll(w, urls, faults));
        }
      }
    }

    /** What a re-sync makes of this view, these keys and these channels. */
    ghost predicate Resynced(v: seq<Server>, keys: map<string, string>, channels: seq<seq<string>>, faults: Url -> Fault)
      reads client, pool, pool.servers
    {
      && OnlyFlagsChanged(v, pool.View())
      && (forall u :: FlagsAndKeysRight(v, pool.View(), keys, client.keys, faults, u))
      && (exists news: seq<string> :: Announced(news, v, keys, faults) && Extended(channels, news, client.channels))
    }

    lemma ResyncMeans(w: World, urls: seq<Url>, faults: Url -> Fault)
      requires SharedPool.Coherent(w.pool) && urls == UrlsOf(ViewOf(w.pool)) && IsIn(SyncedAll(w, urls, faults))
      ensures Resynced(ViewOf(w.pool), w.keys, w.channels, faults)
    {
      var v := ViewOf(w.pool);
      forall u
        ensures FlagsAndKeysRight(v, pool.View(), w.keys, client.keys, faults, u)
      {
        SyncedMeans(w, urls, faults, u);
      }
      SyncedFields(w, urls, faults);
      forall u | u in urls
        ensures Holds(v, u)
      {
        FlagsKeys(v, u);
      }
      var news := SyncedNews(w, urls, faults);
      forall u
        ensures u in urls <==> Holds(v, u)
      {
        FlagsKeys(v, u);
      }
      assert Announced(news, v, w.keys, faults);
    }

    method ApplyKeys(faults: Url -> Fault)
      modifies client, pool.servers
      ensures pool.servers == old(pool.servers)
      ensures forall w :: old(IsIn(w)) ==> IsIn(SyncedAll(w, UrlsOf(old(pool.View())), faults))
    {
      var servers := pool.GetAllServers();
      ghost var urls, worlds := UrlsOf(pool.View()), iset w: World | IsIn(w);
      for i := 0 to |servers|
        invariant pool.servers == old(pool.servers)
        invariant forall w :: w in worlds ==> IsIn(SyncedAll(w, urls[..i], faults))
      {
        var u := servers[i].url;
        SyncBackend(u, faults(u));
        forall w | w in worlds
          ensures IsIn(SyncedAll(w, urls[..i + 1], faults))
        {
          SyncedAllSnoc(w, urls, i, faults);
        }
      }
      assert urls[..|servers|] == urls;
    }

    /** One backend: takes over its key, or creates it as UP; a failing read skips the backend. */
    method SyncBackend(u: Url, fault: Fault)
      modifies client, pool.servers
      ensures pool.servers == old(pool.servers)
      ensures forall w :: old(IsIn(w)) ==> IsIn(Synced(w, u, fault))
    {
      if fault != GetFails {
        if KeyOf(u) in client.keys {
          pool.MarkHealthy(u, client.keys[KeyOf(u)] == "UP");
        } else {
          var _ := UpdateBackendStatus(u, "UP", fault);
        }
      }
    }

    /** Applies one message; `parse` is the URL parser, which may reject a text. */
    method HandleMessage(payload: string, parse: string -> Option<Url>)
      modifies pool.servers
      ensures pool.servers == old(pool.servers)
      ensures forall p :: old(pool.Shows(p)) ==> pool.Shows(Handled(p, payload, parse))
    {
      var parts := Split(payload);
      if |parts| != 2 {
        return;
      }
      var serverURL := parse(parts[0]);
      var status := parts[1];
      var healthy := status == "UP";
      if serverURL.None? {
        return;
      }
      pool.MarkHealthy(serverURL.value, healthy);
    }

    /** Takes the messages pending for one subscriber, oldest first. If the parser returns the URLs the
        messages carry, it is the protocol's delivery of each. */
    method DrainPending(subscriber: nat, parse: string -> Option<Url>)
      requires subscriber < |client.channels|
      modifies client`channels, pool.servers
      ensures pool.servers == old(pool.servers)
      ensures client.channels == old(client.channels)[subscriber := []]
      ensures forall p :: old(pool.Shows(p)) ==> pool.Shows(HandledAll(p, old(client.channels)[subscriber], parse))
      ensures ParsesBack(parse, old(client.channels)[subscriber]) ==>
                forall s :: old(Mirrors(s, subscriber)) ==>
                  Mirrors(Run(s, Deliveries(subscriber, |old(client.channels)[subscriber]|)), subscriber)
    {
      ghost var w := InSome();
      ghost var queue := client.channels[subscriber];
      TakePending(subscriber, parse);
      if ParsesBack(parse, queue) {
        forall s | old(Mirrors(s, subscriber))
          ensures Mirrors(Run(s, Deliveries(subscriber, |queue|)), subscriber)
        {
          DrainedIsDelivered(s, subscriber, w, parse);
          InMirrors(Run(s, Deliveries(subscriber, |queue|)), subscriber, Emptied(w, subscriber, parse));
        }
      }
    }

    method TakePending(subscriber: nat, parse: string -> Option<Url>)
      requires subscriber < |client.channels|
      modifies client`channels, pool.servers
      ensures pool.servers == old(pool.servers)
      ensures client.channels == old(client.channels)[subscriber := []]
      ensures forall p :: old(pool.Shows(p)) ==> pool.Shows(HandledAll(p, old(client.channels)[subscriber], parse))
    {
      ghost var all := client.channels[subscriber];
      ghost var done, shown := 0, iset p: Shared | pool.Shows(p);
      while client.channels[subscriber] != []
        invariant pool.servers == old(pool.servers)
        invariant done <= |all| && subscriber < |client.channels|
        invariant client.channels == old(client.channels)[subscriber := all[done..]]
        invariant forall p :: p in shown ==> pool.Shows(HandledAll(p, all[..done], parse))
        decreases |all| - done
      {
        var message := client.channels[subscriber][0];
        client.channels := client.channels[subscriber := client.channels[subscriber][1..]];
        HandleMessage(message, parse);
        forall p | p in shown
          ensures pool.Shows(HandledAll(p, all[..done + 1], parse))
        {
          HandledAllSnoc(p, all, done, parse);
        }
        done := done + 1;
      }
      assert all[..done] == all;
    }
  }

  // ---------- What a re-sync does to one URL ----------

  /** No entry comes or goes, and nothing about one changes but its flag. */
  ghost predicate OnlyFlagsChanged(before: seq<Server>, after: seq<Server>) {
    |after| == |before| && forall k :: 0 <= k < |before| ==> after[k] == before[k].(healthy := after[k].healthy)
  }

  /** A failing read leaves flag and key alone; a key found is applied, whatever it says; a missing key is
      written as UP, unless writing fails, and lowers no flag; URLs the pool does not hold are not touched. */
  ghost predicate FlagsAndKeysRight(before: seq<Server>, after: seq<Server>, keys: map<string, string>,
                                    keysAfter: map<string, string>, faults: Url -> Fault, u: Url) {
    var key := "backend:" + u.text;
    if faults(u) == GetFails || !Holds(before, u) then
      FlagAt(after, u) == FlagAt(before, u) && (key in keysAfter <==> key in keys)
      && (key in keys ==> keysAfter[key] == keys[key])
    else if key in keys then
      FlagAt(after, u) == (keys[key] == "UP") && key in keysAfter && keysAfter[key] == keys[key]
    else if faults(u) == SetFails then
      FlagAt(after, u) == FlagAt(before, u) && key !in keysAfter
    else
      key in keysAfter && keysAfter[key] == "UP" && (FlagAt(before, u) ==> FlagAt(after, u))
      && (Once(before, u) ==> FlagAt(after, u) == FlagAt(before, u))
  }

  /** The URL sits in one slot at most. */
  ghost predicate Once(v: seq<Server>, u: Url) {
    forall j, k :: 0 <= j < k < |v| ==> v[j].url != u || v[k].url != u
  }

  /** One message for every URL held whose missing key was written and announced, and no other. */
  ghost predicate Announced(news: seq<string>, v: seq<Server>, keys: map<string, string>, faults: Url -> Fault) {
    && NoDup(news)
    && forall m :: m in news <==> exists u :: Missing(v, keys, faults, u) && m == u.text + "|" + "UP"
  }

  ghost predicate Missing(v: seq<Server>, keys: map<string, string>, faults: Url -> Fault, u: Url) {
    Holds(v, u) && ("backend:" + u.text) !in keys && faults(u) == NoFault
  }

  /** Every channel went on by the same messages. */
  ghost predicate Extended(before: seq<seq<string>>, news: seq<string>, after: seq<seq<string>>) {
    |after| == |before| && forall k :: 0 <= k < |before| ==> after[k] == before[k] + news
  }

  lemma SameText(a: string, b: string)
    requires a + "|" + "UP" == b + "|" + "UP"
    ensures a == b
  {
    assert (a + "|" + "UP")[..|a|] == a && (b + "|" + "UP")[..|b|] == b;
  }

  /** The same for the URLs handled so far. */
  ghost predicate SoFar(w: World, r: World, urls: seq<Url>, faults: Url -> Fault, u: Url) {
    var key, flag, was := "backend:" + u.text, FlagAt(ViewOf(r.pool), u), FlagAt(ViewOf(w.pool), u);
    if faults(u) == GetFails || u !in urls then
      flag == was && (key in r.keys <==> key in w.keys) && (key in w.keys ==> r.keys[key] == w.keys[key])
    else if key in w.keys then
      (Holds(ViewOf(w.pool), u) ==> flag == (w.keys[key] == "UP")) && key in r.keys && r.keys[key] == w.keys[key]
    else if faults(u) == SetFails then
      flag == was && key !in r.keys
    else
      key in r.keys && r.keys[key] == "UP" && (was ==> flag)
      && ((forall j, k :: 0 <= j < k < |urls| ==> urls[j] != u || urls[k] != u) ==> flag == was)
  }

  lemma KeyIsPrefixed(u: Url)
    ensures KeyOf(u) == "backend:" + u.text
  {
  }

  /** Handling a URL leaves what is known of the others. */
  lemma SyncedOther(w: World, x: Url, fault: Fault, u: Url)
    requires SharedPool.Coherent(w.pool) && x != u
    ensures var r := Synced(w, x, fault);
            FlagAt(ViewOf(r.pool), u) == FlagAt(ViewOf(w.pool), u)
            && (KeyOf(u) in r.keys <==> KeyOf(u) in w.keys) && (KeyOf(u) in w.keys ==> r.keys[KeyOf(u)] == w.keys[KeyOf(u)])
  {
    KeysDiffer(u, x);
    if fault != GetFails && KeyOf(x) in w.keys {
      FlagAtMark(w.pool, x, IsUp(w.keys[KeyOf(x)]), u);
    }
  }

  lemma SyncedFields1(w: World, x: Url, fault: Fault)
    requires SharedPool.Coherent(w.pool)
    ensures var r := Synced(w, x, fault);
            SharedPool.Coherent(r.pool) && OnlyFlagsChanged(ViewOf(w.pool), ViewOf(r.pool))
  {
    if KeyOf(x) in w.keys {
      ChangesCoherent(w.pool, x, 0, IsUp(w.keys[KeyOf(x)]));
    }
  }

  lemma {:induction false} SyncedFields(w: World, urls: seq<Url>, faults: Url -> Fault)
    requires SharedPool.Coherent(w.pool)
    ensures var r := SyncedAll(w, urls, faults);
            SharedPool.Coherent(r.pool) && OnlyFlagsChanged(ViewOf(w.pool), ViewOf(r.pool))
  {
    if urls != [] {
      SyncedFields(w, urls[..|urls| - 1], faults);
      SyncedFields1(SyncedAll(w, urls[..|urls| - 1], faults), urls[|urls| - 1], faults(urls[|urls| - 1]));
    }
  }

  lemma HoldsStays(before: seq<Server>, after: seq<Server>, u: Url)
    requires OnlyFlagsChanged(before, after)
    ensures Holds(after, u) <==> Holds(before, u)
    ensures FirstAt(after, u) == FirstAt(before, u)
  {
    SameUrlsSameFirst(before, after, u);
  }

  /** Handling `u` itself, once or once more. */
  lemma SoFarSelf(w: World, r: World, before: seq<Url>, faults: Url -> Fault, u: Url)
    requires SharedPool.Coherent(r.pool) && OnlyFlagsChanged(ViewOf(w.pool), ViewOf(r.pool)) && SoFar(w, r, before, faults, u)
    ensures SoFar(w, Synced(r, u, faults(u)), before + [u], faults, u)
  {
    KeyIsPrefixed(u);
    HoldsStays(ViewOf(w.pool), ViewOf(r.pool), u);
    if KeyOf(u) in r.keys {
      FlagAtMark(r.pool, u, IsUp(r.keys[KeyOf(u)]), u);
    }
    if u in before {
      var k :| 0 <= k < |before| && before[k] == u;
      assert (before + [u])[k] == u == (before + [u])[|before|];
    }
  }

  lemma SoFarOther(w: World, r: World, before: seq<Url>, faults: Url -> Fault, u: Url, x: Url)
    requires SharedPool.Coherent(r.pool) && SoFar(w, r, before, faults, u) && x != u
    ensures SoFar(w, Synced(r, x, faults(x)), before + [x], faults, u)
  {
    KeyIsPrefixed(u);
    SyncedOther(r, x, faults(x), u);
    var all := before + [x];
    assert forall j :: 0 <= j < |before| ==> all[j] == before[j];
  }

  lemma {:induction false} SyncedSoFar(w: World, urls: seq<Url>, faults: Url -> Fault, u: Url)
    requires SharedPool.Coherent(w.pool)
    ensures SoFar(w, SyncedAll(w, urls, faults), urls, faults, u)
  {
    if urls != [] {
      var before, x := urls[..|urls| - 1], urls[|urls| - 1];
      SyncedSoFar(w, before, faults, u);
      SyncedFields(w, before, faults);
      assert urls == before + [x];
      if x == u {
        SoFarSelf(w, SyncedAll(w, before, faults), before, faults, u);
      } else {
        SoFarOther(w, SyncedAll(w, before, faults), before, faults, u, x);
      }
    }
  }

  lemma SyncedMeans(w: World, urls: seq<Url>, faults: Url -> Fault, u: Url)
    requires SharedPool.Coherent(w.pool) && urls == UrlsOf(ViewOf(w.pool))
    ensures var r := SyncedAll(w, urls, faults);
            FlagsAndKeysRight(ViewOf(w.pool), ViewOf(r.pool), w.keys, r.keys, faults, u)
  {
    SyncedSoFar(w, urls, faults, u);
    FlagsKeys(ViewOf(w.pool), u);
    assert Once(ViewOf(w.pool), u) ==> forall j, k :: 0 <= j < k < |urls| ==> urls[j] != u || urls[k] != u;
  }

  /** The messages for the missing keys among these URLs. */
  ghost predicate NewsOf(news: seq<string>, v: seq<Server>, keys: map<string, string>, faults: Url -> Fault, urls: seq<Url>) {
    forall m :: m in news <==> exists u :: u in urls && Missing(v, keys, faults, u) && m == u.text + "|" + "UP"
  }

  lemma OneMoreNews(news: seq<string>, v: seq<Server>, keys: map<string, string>, faults: Url -> Fault, urls: seq<Url>, x: Url)
    requires NoDup(news) && NewsOf(news, v, keys, faults, urls) && Missing(v, keys, faults, x) && x !in urls
    ensures NoDup(news + [x.text + "|" + "UP"]) && NewsOf(news + [x.text + "|" + "UP"], v, keys, faults, urls + [x])
  {
    var m := x.text + "|" + "UP";
    if m in news {
      var u :| u in urls && Missing(v, keys, faults, u) && m == u.text + "|" + "UP";
      SameText(u.text, x.text);
    }
  }

  /** The messages a re-sync sends. */
  lemma {:induction false} SyncedNews(w: World, urls: seq<Url>, faults: Url -> Fault) returns (news: seq<string>)
    requires SharedPool.Coherent(w.pool) && forall u :: u in urls ==> Holds(ViewOf(w.pool), u)
    ensures NoDup(news) && NewsOf(news, ViewOf(w.pool), w.keys, faults, urls)
    ensures Extended(w.channels, news, SyncedAll(w, urls, faults).channels)
  {
    news := [];
    if urls != [] {
      var before, x := urls[..|urls| - 1], urls[|urls| - 1];
      news := SyncedNews(w, before, faults);
      SyncedSoFar(w, before, faults, x);
      KeyIsPrefixed(x);
      OnTheWire(x.text, "UP");
      assert urls == before + [x];
      if Missing(ViewOf(w.pool), w.keys, faults, x) && x !in before {
        OneMoreNews(news, ViewOf(w.pool), w.keys, faults, before, x);
        news := news + [x.text + "|" + "UP"];
      }
    }
  }

  /** Malformed and unparsable messages change nothing; any other sets the flag of its URL to whether its
      status is the text UP. */
  lemma HandledMeans(p: Shared, url: string, status: string, parse: string -> Option<Url>)
    requires '|' !in url && '|' !in status
    ensures Handled(p, url + "|" + status, parse)
         == if parse(url).None? then p else MarkShared(p, parse(url).value, status == "UP")
  {
    OnTheWire(url, status);
    EncodeDecode(url, status);
  }

  lemma MalformedMeans(p: Shared, payload: string, parse: string -> Option<Url>)
    requires Count(payload, (c: char) => c == '|') != 1
    ensures Handled(p, payload, parse) == p
  {
    OnTheWire(payload, "");
  }

  lemma SyncedAllSnoc(w: World, urls: seq<Url>, i: nat, faults: Url -> Fault)
    requires i < |urls|
    ensures SyncedAll(w, urls[..i + 1], faults) == Synced(SyncedAll(w, urls[..i], faults), urls[i], faults(urls[i]))
  {
    assert urls[..i + 1][..i] == urls[..i];
  }

  lemma HandledAllSnoc(p: Shared, payloads: seq<string>, i: nat, parse: string -> Option<Url>)
    requires i < |payloads|
    ensures HandledAll(p, payloads[..i + 1], parse) == Handled(HandledAll(p, payloads[..i], parse), payloads[i], parse)
  {
    assert payloads[..i + 1][..i] == payloads[..i];
  }

  function UrlsOf(v: seq<Server>): seq<Url> {
    seq(|v|, k requires 0 <= k < |v| => v[k].url)
  }

  function Handled(p: Shared, payload: string, parse: string -> Option<Url>): Shared {
    match Decode(payload)
    case None => p
    case Some(pair) =>
      match parse(pair.0)
      case None => p
      case Some(u) => MarkShared(p, u, IsUp(pair.1))
  }

  function HandledAll(p: Shared, payloads: seq<string>, parse: string -> Option<Url>): Shared {
    if payloads == [] then p
    else Handled(HandledAll(p, payloads[..|payloads| - 1], parse), payloads[|payloads| - 1], parse)
  }

  // ---------- The process as an instance of the protocol ----------

  /** The flag of the first entry with this URL. */
  function FlagAt(v: seq<Server>, u: Url): bool {
    var k := FirstAt(v, u); k < |v| && v[k].healthy
  }

  function Flags(v: seq<Server>): map<Url, bool> {
    map u | u in UrlsOf(v) :: FlagAt(v, u)
  }

  lemma FlagsKeys(v: seq<Server>, u: Url)
    ensures u in UrlsOf(v) <==> Holds(v, u)
  {
    var k := FirstAt(v, u);
    if k < |v| {
      assert UrlsOf(v)[k] == u;
    }
    if u in UrlsOf(v) {
      var j :| 0 <= j < |v| && UrlsOf(v)[j] == u;
      assert v[j].url == u;
    }
  }

  function FlagsIn(p: Shared): map<Url, bool> {
    Flags(ViewOf(p))
  }

  /** A mark changes the flag found under its URL and no other, however entries are shared. */
  lemma FlagAtMark(p: Shared, u: Url, up: bool, x: Url)
    requires SharedPool.Coherent(p)
    ensures FlagAt(ViewOf(MarkShared(p, u, up)), x) == if x == u && Holds(ViewOf(p), u) then up else FlagAt(ViewOf(p), x)
  {
    SameUrlsSameFirst(ViewOf(p), ViewOf(MarkShared(p, u, up)), x);
  }

  lemma MarkKeepsUrls(p: Shared, u: Url, up: bool)
    ensures UrlsOf(ViewOf(MarkShared(p, u, up))) == UrlsOf(ViewOf(p))
  {
  }

  lemma FlagsFrom(v: seq<Server>, w: seq<Server>, u: Url, up: bool)
    requires UrlsOf(w) == UrlsOf(v)
    requires forall x :: x in UrlsOf(v) ==> FlagAt(w, x) == if x == u then up else FlagAt(v, x)
    ensures Flags(w) == if u in Flags(v) then Flags(v)[u := up] else Flags(v)
  {
  }

  lemma FlagsOfMark(p: Shared, u: Url, up: bool)
    requires SharedPool.Coherent(p)
    ensures FlagsIn(MarkShared(p, u, up)) == if u in FlagsIn(p) then FlagsIn(p)[u := up] else FlagsIn(p)
    ensures UrlsOf(ViewOf(MarkShared(p, u, up))) == UrlsOf(ViewOf(p))
    ensures SharedPool.Coherent(MarkShared(p, u, up))
  {
    ChangesCoherent(p, u, 0, up);
    FlagsKeys(ViewOf(p), u);
    MarkKeepsUrls(p, u, up);
    forall x | x in UrlsOf(ViewOf(p))
      ensures FlagAt(ViewOf(MarkShared(p, u, up)), x) == if x == u then up else FlagAt(ViewOf(p), x)
    {
      FlagsKeys(ViewOf(p), x);
      FlagAtMark(p, u, up, x);
    }
    FlagsFrom(ViewOf(p), ViewOf(MarkShared(p, u, up)), u, up);
  }

  /** The parser returns every URL text these messages carry as the URL it is. */
  ghost predicate ParsesBack(parse: string -> Option<Url>, payloads: seq<string>) {
    forall k :: 0 <= k < |payloads| && Decode(payloads[k]).Some? ==>
      parse(Decode(payloads[k]).value.0) == Some(Url(Decode(payloads[k]).value.0))
  }

  /** Handling a message is the protocol's delivery of it. */
  lemma {:induction false} HandledIsReplay(p: Shared, payloads: seq<string>, parse: string -> Option<Url>)
    requires SharedPool.Coherent(p) && ParsesBack(parse, payloads)
    ensures SharedPool.Coherent(HandledAll(p, payloads, parse))
    ensures FlagsIn(HandledAll(p, payloads, parse)) == Replay(FlagsIn(p), payloads)
  {
    if payloads != [] {
      var rest, m := payloads[..|payloads| - 1], payloads[|payloads| - 1];
      HandledIsReplay(p, rest, parse);
      if Decode(m).Some? {
        FlagsOfMark(HandledAll(p, rest, parse), Url(Decode(m).value.0), IsUp(Decode(m).value.1));
      }
    }
  }

  /** Instance i of a protocol state is this process, and the store and queues are the server's. */
  ghost predicate Represents(s: Net, i: nat, w: World) {
    && Wf(s) && i < |s.local| && SharedPool.Coherent(w.pool)
    && s.local[i] == FlagsIn(w.pool)
    && s.queue == w.channels
    && (forall u :: u in s.store <==> KeyOf(u) in w.keys)
    && (forall u :: u in s.store ==> s.store[u] == w.keys[KeyOf(u)])
  }

  lemma KeysDiffer(u: Url, x: Url)
    ensures KeyOf(u) == KeyOf(x) <==> u == x
  {
    assert KeyOf(u)[|KEY_PREFIX|..] == u.text && KeyOf(x)[|KEY_PREFIX|..] == x.text;
  }

  lemma WrittenIsUpdate(s: Net, i: nat, w: World, u: Url, status: string)
    requires Represents(s, i, w)
    ensures Represents(Apply(s, Update(u, status)), i, Written(w, u, status, NoFault))
    ensures Represents(Apply(s, Set(u, status)), i, Written(w, u, status, PublishFails))
  {
    forall x
      ensures KeyOf(u) == KeyOf(x) <==> u == x
    {
      KeysDiffer(u, x);
    }
  }

  lemma RemarkedIsMark(s: Net, i: nat, w: World, u: Url, up: bool)
    requires Represents(s, i, w)
    ensures Represents(Marked(s, i, u, up), i, w.(pool := MarkShared(w.pool, u, up)))
    ensures UrlsOf(ViewOf(MarkShared(w.pool, u, up))) == UrlsOf(ViewOf(w.pool))
  {
    FlagsOfMark(w.pool, u, up);
  }

  lemma ResyncReads(s: Net, i: nat, u: Url)
    requires i < |s.local| && u in s.local[i]
    ensures Apply(s, Resync(i, u)) == if u in s.store then Marked(s, i, u, IsUp(s.store[u])) else Apply(s, Update(u, "UP"))
  {
  }

  lemma SyncedIsResync(s: Net, i: nat, w: World, u: Url)
    requires Represents(s, i, w) && u in UrlsOf(ViewOf(w.pool))
    ensures Represents(Apply(s, Resync(i, u)), i, Synced(w, u, NoFault))
    ensures UrlsOf(ViewOf(Synced(w, u, NoFault).pool)) == UrlsOf(ViewOf(w.pool))
  {
    assert u in s.local[i];
    ResyncReads(s, i, u);
    if KeyOf(u) in w.keys {
      assert u in s.store && s.store[u] == w.keys[KeyOf(u)];
      SyncedFromKey(s, i, w, u);
    } else {
      assert u !in s.store;
      SyncedAfresh(s, i, w, u);
    }
  }

  lemma SyncedFromKey(s: Net, i: nat, w: World, u: Url)
    requires Represents(s, i, w) && KeyOf(u) in w.keys
    ensures Represents(Marked(s, i, u, IsUp(w.keys[KeyOf(u)])), i, Synced(w, u, NoFault))
    ensures UrlsOf(ViewOf(Synced(w, u, NoFault).pool)) == UrlsOf(ViewOf(w.pool))
  {
    RemarkedIsMark(s, i, w, u, IsUp(w.keys[KeyOf(u)]));
  }

  lemma SyncedAfresh(s: Net, i: nat, w: World, u: Url)
    requires Represents(s, i, w) && KeyOf(u) !in w.keys
    ensures Represents(Apply(s, Update(u, "UP")), i, Synced(w, u, NoFault))
    ensures UrlsOf(ViewOf(Synced(w, u, NoFault).pool)) == UrlsOf(ViewOf(w.pool))
  {
    WrittenIsUpdate(s, i, w, u, "UP");
  }

  /** A fault-free start-up sync is the protocol's re-sync of every URL the process holds. */
  lemma {:induction false} SyncIsResync(s: Net, i: nat, w: World, urls: seq<Url>, faults: Url -> Fault)
    requires Represents(s, i, w) && forall u :: faults(u) == NoFault
    requires forall u :: u in urls ==> u in UrlsOf(ViewOf(w.pool))
    ensures Represents(Run(s, Resyncs(i, urls)), i, SyncedAll(w, urls, faults))
    ensures UrlsOf(ViewOf(SyncedAll(w, urls, faults).pool)) == UrlsOf(ViewOf(w.pool))
  {
    if urls != [] {
      var rest, u := urls[..|urls| - 1], urls[|urls| - 1];
      var steps := Resyncs(i, urls);
      assert steps[..|steps| - 1] == Resyncs(i, rest);
      assert urls == rest + [u];
      SyncIsResync(s, i, w, rest, faults);
      SyncedIsResync(Run(s, Resyncs(i, rest)), i, SyncedAll(w, rest, faults), u);
    }
  }

  function Deliveries(i: nat, n: nat): seq<Step> {
    seq(n, _ => Deliver(i))
  }

  /** After the first n messages reached instance i. */
  function Delivered(s: Net, i: nat, n: nat): Net
    requires Wf(s) && i < |s.local| && n <= |s.queue[i]|
  {
    s.(local := s.local[i := Replay(s.local[i], s.queue[i][..n])], queue := s.queue[i := s.queue[i][n..]])
  }

  lemma {:induction false} DeliveredAll(s: Net, i: nat, n: nat)
    requires Wf(s) && i < |s.local| && n <= |s.queue[i]|
    ensures Run(s, Deliveries(i, n)) == Delivered(s, i, n)
  {
    if n == 0 {
      assert s.local[i := s.local[i]] == s.local && s.queue[i := s.queue[i][0..]] == s.queue;
    } else {
      DeliveredAll(s, i, n - 1);
      assert Deliveries(i, n)[..n - 1] == Deliveries(i, n - 1);
      DeliverNext(s, i, n - 1);
    }
  }

  lemma DeliverNext(s: Net, i: nat, n: nat)
    requires Wf(s) && i < |s.local| && n < |s.queue[i]|
    ensures Apply(Delivered(s, i, n), Deliver(i)) == Delivered(s, i, n + 1)
  {
    var q := s.queue[i];
    assert q[..n + 1][..n] == q[..n] && q[n..][1..] == q[n + 1..] && q[n..][0] == q[..n + 1][n];
  }

  function Emptied(w: World, i: nat, parse: string -> Option<Url>): World
    requires i < |w.channels|
  {
    w.(pool := HandledAll(w.pool, w.channels[i], parse), channels := w.channels[i := []])
  }

  /** Handling everything pending is the protocol's delivery of every message to this instance. */
  lemma DrainedIsDelivered(s: Net, i: nat, w: World, parse: string -> Option<Url>)
    requires Represents(s, i, w) && ParsesBack(parse, w.channels[i])
    ensures Represents(Run(s, Deliveries(i, |w.channels[i]|)), i, Emptied(w, i, parse))
  {
    var q := w.channels[i];
    DeliveredAll(s, i, |q|);
    HandledIsReplay(w.pool, q, parse);
    assert q[..|q|] == q && q[|q|..] == [];
  }

  function Resyncs(i: nat, urls: seq<Url>): seq<Step> {
    seq(|urls|, k requires 0 <= k < |urls| => Resync(i, urls[k]))
  }
}
