/** The pool with the identity of its entries: one entry may sit in several slots of the slice. */
module SharedPool {
  import opened Common
  import opened Pool

  /** Slots with the same id show the same entry. */
  datatype Slot = Slot(id: nat, s: Server)

  datatype Shared = Shared(slots: seq<Slot>, next: nat)

  function ViewOf(p: Shared): seq<Server> {
    seq(|p.slots|, k requires 0 <= k < |p.slots| => p.slots[k].s)
  }

  /** A slice in which every slot has an entry of its own. */
  function Alone(v: seq<Server>): Shared {
    Shared(seq(|v|, k requires 0 <= k < |v| => Slot(k, v[k])), |v|)
  }

  /** An id names one entry, and no id is still to be given out. */
  ghost predicate Coherent(p: Shared) {
    && (forall k :: 0 <= k < |p.slots| ==> p.slots[k].id < p.next)
    && (forall j, k :: 0 <= j < |p.slots| && 0 <= k < |p.slots| && p.slots[j].id == p.slots[k].id ==>
          p.slots[j].s == p.slots[k].s)
  }

  /** The first entry with this URL takes the flag, in every slot that shows it. */
  function MarkShared(p: Shared, u: Url, up: bool): Shared {
    var k := FirstAt(ViewOf(p), u);
    if k < |p.slots|
    then p.(slots := seq(|p.slots|, j requires 0 <= j < |p.slots| =>
              if p.slots[j].id == p.slots[k].id then p.slots[j].(s := p.slots[j].s.(healthy := up)) else p.slots[j]))
    else p
  }

  function AddShared(p: Shared, u: Url, d: int): Shared {
    var k := FirstAt(ViewOf(p), u);
    if k < |p.slots|
    then p.(slots := seq(|p.slots|, j requires 0 <= j < |p.slots| =>
              if p.slots[j].id == p.slots[k].id
              then p.slots[j].(s := p.slots[j].s.(conns := p.slots[j].s.conns + d)) else p.slots[j]))
    else p
  }

  function RemoveShared(p: Shared, u: Url, d: int): Shared {
    var k := FirstAt(ViewOf(p), u);
    if k < |p.slots|
    then p.(slots := seq(|p.slots|, j requires 0 <= j < |p.slots| =>
              if p.slots[j].id == p.slots[k].id
              then p.slots[j].(s := p.slots[j].s.(conns := p.slots[j].s.conns - d)) else p.slots[j]))
    else p
  }

  /** A release undoes an add: as if the negated number were added. */
  lemma RemoveIsAdd(p: Shared, u: Url, d: int, e: int)
    requires d + e == 0
    ensures RemoveShared(p, u, d) == AddShared(p, u, e)
  {
    assert RemoveShared(p, u, d).slots == AddShared(p, u, e).slots;
  }

  ghost function ListedAt(v: seq<Server>, scope: Option<string>, urls: seq<Url>): seq<nat> {
    seq(|urls|, t requires 0 <= t < |urls| => LastAt(v, scope, urls[t]))
  }

  /** For every slot of a reconciled slice the old place of its entry; |v| for a new entry. */
  ghost function Places(v: seq<Server>, scope: Option<string>, urls: seq<Url>): seq<nat> {
    OthersAt(v, scope) + ListedAt(v, scope, urls) + LeavingAt(v, scope, UrlSet(urls))
  }

  lemma PlacesMatch(v: seq<Server>, scope: Option<string>, urls: seq<Url>, weight: int)
    ensures |Places(v, scope, urls)| == |Reconcile(v, scope, urls, weight)|
    ensures forall k :: 0 <= k < |Places(v, scope, urls)| ==> Places(v, scope, urls)[k] <= |v|
  {
    OthersIsAt(v, scope);
    LeavingIsAt(v, scope, UrlSet(urls));
  }

  /** Reconciliation keeps known entries, id and all, and gives every new one an id of its own. */
  ghost function SyncShared(p: Shared, scope: Option<string>, urls: seq<Url>, weight: int): Shared {
    var v := ViewOf(p);
    var r, at := Reconcile(v, scope, urls, weight), Places(v, scope, urls);
    Shared(seq(|r|, k requires 0 <= k < |r| =>
             Slot(if k < |at| && at[k] < |p.slots| then p.slots[at[k]].id else p.next + k, r[k])),
           p.next + |r|)
  }

  // ---------- What becomes of one entry ----------

  /** What a sync makes of a known entry it does not drop. */
  function After(s: Server, scope: Option<string>, urls: seq<Url>): Server {
    if !InScope(s, scope) then s else if s.url in urls then s.(draining := false) else Drained(s)
  }

  /** A slot of the reconciled slice shows a known entry or a new one. */
  lemma SlotOrigin(v: seq<Server>, scope: Option<string>, urls: seq<Url>, weight: int, k: nat)
    requires k < |Reconcile(v, scope, urls, weight)|
    ensures k < |Places(v, scope, urls)| && Places(v, scope, urls)[k] <= |v|
    ensures var at, s := Places(v, scope, urls)[k], Reconcile(v, scope, urls, weight)[k];
            if at < |v| then s == After(v[at], scope, urls) && (s.url in urls || !InScope(v[at], scope) || v[at].conns > 0)
            else s == Server(s.url, weight, true, 0, false, TagOf(scope)) && s.url in urls
                 && LastAt(v, scope, s.url) == |v|
  {
    PlacesMatch(v, scope, urls, weight);
    var o, d := Others(v, scope), Leaving(v, scope, UrlSet(urls));
    OthersIsAt(v, scope);
    LeavingIsAt(v, scope, UrlSet(urls));
    var t := k - |o|;
    if 0 <= t < |urls| {
      assert Places(v, scope, urls)[k] == LastAt(v, scope, urls[t]);
      assert Reconcile(v, scope, urls, weight)[k] == ListedOne(v, scope, urls[t], weight);
      FindIsLast(v, scope, urls[t]);
    } else if t < 0 {
      assert Places(v, scope, urls)[k] == OthersAt(v, scope)[k];
    } else {
      assert Places(v, scope, urls)[k] == LeavingAt(v, scope, UrlSet(urls))[t - |urls|];
    }
  }

  /** Two slots with new entries of the same URL: the list repeats a URL the scope did not hold. */
  lemma NewTwice(v: seq<Server>, scope: Option<string>, urls: seq<Url>, weight: int, j: nat, k: nat)
    requires j < k < |Reconcile(v, scope, urls, weight)| && |Places(v, scope, urls)| == |Reconcile(v, scope, urls, weight)|
    requires Places(v, scope, urls)[j] == |v| == Places(v, scope, urls)[k]
    requires Reconcile(v, scope, urls, weight)[j].url == Reconcile(v, scope, urls, weight)[k].url
    ensures Repeats(urls, Reconcile(v, scope, urls, weight)[j].url)
  {
    OthersIsAt(v, scope);
    LeavingIsAt(v, scope, UrlSet(urls));
    var n := |Others(v, scope)|;
    assert n <= j < k < n + |urls|;
    var l := Listed(v, scope, urls, weight);
    assert Reconcile(v, scope, urls, weight)[j] == l[j - n] && Reconcile(v, scope, urls, weight)[k] == l[k - n];
    assert l[j - n].url == urls[j - n] && l[k - n].url == urls[k - n];
  }

  ghost predicate Repeats(urls: seq<Url>, u: Url) {
    exists a, b :: 0 <= a < b < |urls| && urls[a] == u == urls[b]
  }

  lemma SyncCoherent(p: Shared, scope: Option<string>, urls: seq<Url>, weight: int)
    requires Coherent(p)
    ensures Coherent(SyncShared(p, scope, urls, weight))
  {
    var v, q := ViewOf(p), SyncShared(p, scope, urls, weight);
    PlacesMatch(v, scope, urls, weight);
    forall j, k | 0 <= j < |q.slots| && 0 <= k < |q.slots| && q.slots[j].id == q.slots[k].id
      ensures q.slots[j].s == q.slots[k].s
    {
      SlotOrigin(v, scope, urls, weight, j);
      SlotOrigin(v, scope, urls, weight, k);
    }
  }

  /** A mark and an add reach every slot that shows the first entry with the URL, change one field there, and
      nothing else. */
  lemma SharedChangesMean(p: Shared, u: Url, up: bool, d: int, f: nat, k: nat)
    requires f < |p.slots| && k < |p.slots|
    requires p.slots[f].s.url == u && forall j :: 0 <= j < f ==> p.slots[j].s.url != u
    ensures MarkShared(p, u, up).slots[k]
         == if p.slots[k].id == p.slots[f].id then Slot(p.slots[k].id, p.slots[k].s.(healthy := up)) else p.slots[k]
    ensures AddShared(p, u, d).slots[k]
         == if p.slots[k].id == p.slots[f].id
            then Slot(p.slots[k].id, p.slots[k].s.(conns := p.slots[k].s.conns + d)) else p.slots[k]
    ensures |MarkShared(p, u, up).slots| == |p.slots| == |AddShared(p, u, d).slots|
  {
    assert FirstAt(ViewOf(p), u) == f by {
      assert ViewOf(p)[f].url == u && forall j :: 0 <= j < f ==> ViewOf(p)[j].url != u;
    }
  }

  /** An unknown URL changes nothing. */
  lemma SharedUnknown(p: Shared, u: Url, up: bool, d: int)
    requires forall j :: 0 <= j < |p.slots| ==> p.slots[j].s.url != u
    ensures MarkShared(p, u, up) == p == AddShared(p, u, d)
  {
    assert forall j :: 0 <= j < |p.slots| ==> ViewOf(p)[j].url != u;
  }

  lemma ChangesCoherent(p: Shared, u: Url, d: int, up: bool)
    requires Coherent(p)
    ensures Coherent(AddShared(p, u, d)) && Coherent(MarkShared(p, u, up))
  {
  }
}
