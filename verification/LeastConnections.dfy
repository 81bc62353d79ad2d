/** Power of two choices: two distinct random backends, the less busy one wins. */
module LeastConnections {
  import opened Common
  import opened Pool

  /** The second draw has one value fewer; from the first draw on it is moved up by one. */
  function Skip(i: nat, draw: nat): nat {
    if draw >= i then draw + 1 else draw
  }

  /** Position chosen for the draws `i` in [0, n) and `draw` in [0, n - 1). */
  function Chosen(load: seq<int>, i: nat, draw: nat): (k: nat)
    requires i < |load| && draw < |load| - 1
    ensures k < |load| && (k == i || k == Skip(i, draw))
    ensures load[k] <= load[i] && load[k] <= load[Skip(i, draw)]
    ensures load[i] == load[Skip(i, draw)] ==> k == i
  {
    var j := Skip(i, draw);
    if load[i] <= load[j] then i else j
  }

  function Loads(servers: seq<Server>): seq<int> {
    seq(|servers|, k requires 0 <= k < |servers| => servers[k].conns)
  }

  /** The answer is one of the two drawn that is no busier than the other, the first if they are equal. */
  ghost predicate LessBusy(servers: seq<Server>, i: nat, j: nat, target: Option<Url>) {
    && i < |servers| && j < |servers| && i != j
    && exists k :: (k == i || k == j) && target == Some(servers[k].url)
                   && servers[k].conns <= servers[i].conns && servers[k].conns <= servers[j].conns
                   && (servers[i].conns == servers[j].conns ==> k == i)
  }

  /** Selection among the healthy backends; fails exactly when there are none. */
  function GetTarget(servers: seq<Server>, i: nat, draw: nat): (target: Option<Url>)
    requires |servers| > 1 ==> i < |servers| && draw < |servers| - 1
    ensures target.None? <==> servers == []
    ensures |servers| == 1 ==> target == Some(servers[0].url)
    ensures |servers| > 1 ==> LessBusy(servers, i, Skip(i, draw), target)
  {
    if |servers| == 0 then None
    else if |servers| == 1 then Some(servers[0].url)
    else Some(servers[Chosen(Loads(servers), i, draw)].url)
  }

  /** The draws name every ordered pair of distinct positions once. */
  lemma DrawsArePairs(n: nat, i: nat, j: nat)
    requires i < n && j < n
    ensures i != j <==> exists draw: nat :: draw < n - 1 && Skip(i, draw) == j
    ensures forall d: nat, e: nat :: Skip(i, d) == Skip(i, e) ==> d == e
    ensures forall d: nat :: d < n - 1 ==> Skip(i, d) < n
  {
    if i != j {
      var draw := if j < i then j else j - 1;
      assert Skip(i, draw) == j;
    }
  }

  // ---------- Counting draws ----------

  /** Draws below `draws` of the second number that choose `s`, the first one being `i`. */
  function RowWins(load: seq<int>, s: nat, i: nat, draws: nat): nat
    requires i < |load| && draws < |load|
  {
    if draws == 0 then 0
    else RowWins(load, s, i, draws - 1) + (if Chosen(load, i, draws - 1) == s then 1 else 0)
  }

  /** Of the draws with a first number below `rows`, those that choose `s`. */
  function Wins(load: seq<int>, s: nat, rows: nat): nat
    requires rows <= |load|
  {
    if rows == 0 then 0
    else Wins(load, s, rows - 1) + RowWins(load, s, rows - 1, |load| - 1)
  }

  function Busier(load: seq<int>, s: nat, n: nat): nat
    requires s < |load| && n <= |load|
  {
    if n == 0 then 0 else Busier(load, s, n - 1) + (if load[n - 1] > load[s] then 1 else 0)
  }

  function EquallyBusy(load: seq<int>, s: nat, n: nat): nat
    requires s < |load| && n <= |load|
  {
    if n == 0 then 0
    else EquallyBusy(load, s, n - 1) + (if n - 1 != s && load[n - 1] == load[s] then 1 else 0)
  }

  lemma {:induction false} OwnRow(load: seq<int>, s: nat, draws: nat)
    requires s < |load| && draws < |load|
    ensures var n := if draws <= s then draws else draws + 1;
            RowWins(load, s, s, draws) == Busier(load, s, n) + EquallyBusy(load, s, n)
  {
    if draws > 0 {
      OwnRow(load, s, draws - 1);
    }
  }

  lemma {:induction false} OtherRow(load: seq<int>, s: nat, i: nat, draws: nat)
    requires s < |load| && i < |load| && i != s && draws < |load|
    ensures var hit := if s < i then s else s - 1;
            RowWins(load, s, i, draws) == if draws > hit && load[i] > load[s] then 1 else 0
  {
    if draws > 0 {
      OtherRow(load, s, i, draws - 1);
    }
  }

  lemma {:induction false} WinsUpTo(load: seq<int>, s: nat, rows: nat)
    requires s < |load| && rows <= |load|
    ensures Wins(load, s, rows) == Busier(load, s, rows)
              + (if s < rows then Busier(load, s, |load|) + EquallyBusy(load, s, |load|) else 0)
  {
    if rows > 0 {
      var i := rows - 1;
      WinsUpTo(load, s, i);
      if i == s {
        OwnRow(load, s, |load| - 1);
        if |load| - 1 == s {
          assert Busier(load, s, |load|) == Busier(load, s, s);
        }
      } else {
        OtherRow(load, s, i, |load| - 1);
      }
    }
  }

  /** Of all n(n-1) draws, a server is chosen in two for every busier one and in one for every other
      one that is just as busy. */
  lemma WinsCount(load: seq<int>, s: nat)
    requires s < |load|
    ensures Wins(load, s, |load|) == 2 * Busier(load, s, |load|) + EquallyBusy(load, s, |load|)
  {
    WinsUpTo(load, s, |load|);
  }

  lemma {:induction false} NoneCounted(load: seq<int>, s: nat, n: nat)
    requires s < |load| && n <= |load|
    ensures Busier(load, s, n) + EquallyBusy(load, s, n) == 0 <==>
              forall k :: 0 <= k < n && k != s ==> load[k] < load[s]
  {
    if n > 0 {
      NoneCounted(load, s, n - 1);
    }
  }

  /** A server no draw chooses is exactly one strictly busier than all the others. */
  lemma NeverChosen(load: seq<int>, s: nat)
    requires s < |load|
    ensures Wins(load, s, |load|) == 0 <==> forall k :: 0 <= k < |load| && k != s ==> load[k] < load[s]
  {
    WinsCount(load, s);
    NoneCounted(load, s, |load|);
  }

  lemma {:induction false} LessLoadCounts(load: seq<int>, s: nat, t: nat, n: nat)
    requires s < |load| && t < |load| && n <= |load|
    ensures load[s] < load[t] ==>
              Busier(load, s, n) >= Busier(load, t, n) + EquallyBusy(load, t, n) + (if t < n then 1 else 0)
    ensures load[s] == load[t] ==>
              Busier(load, s, n) == Busier(load, t, n)
              && EquallyBusy(load, s, n) + (if s < n then 1 else 0) == EquallyBusy(load, t, n) + (if t < n then 1 else 0)
  {
    if n > 0 {
      LessLoadCounts(load, s, t, n - 1);
    }
  }

  /** The policy ranks servers by load: more draws choose `s` than `t` exactly when `s` has fewer
      connections. */
  lemma LessLoadWinsMore(load: seq<int>, s: nat, t: nat)
    requires s < |load| && t < |load|
    ensures Wins(load, s, |load|) > Wins(load, t, |load|) <==> load[s] < load[t]
  {
    WinsCount(load, s);
    WinsCount(load, t);
    LessLoadCounts(load, s, t, |load|);
    LessLoadCounts(load, t, s, |load|);
  }

  // ---------- Every draw chooses exactly one server ----------

  function RowOfFirst(load: seq<int>, servers: nat, i: nat, draws: nat): nat
    requires servers <= |load| && i < |load| && draws < |load|
  {
    if servers == 0 then 0
    else RowOfFirst(load, servers - 1, i, draws) + RowWins(load, servers - 1, i, draws)
  }

  /** Wins of the first `servers` servers together, over draws with a first number below `rows`. */
  function RowsOfFirst(load: seq<int>, servers: nat, rows: nat): nat
    requires servers <= |load| && rows <= |load|
  {
    if servers == 0 then 0
    else RowsOfFirst(load, servers - 1, rows) + Wins(load, servers - 1, rows)
  }

  lemma {:induction false} RowStep(load: seq<int>, servers: nat, i: nat, draws: nat)
    requires servers <= |load| && i < |load| && 0 < draws < |load|
    ensures RowOfFirst(load, servers, i, draws) == RowOfFirst(load, servers, i, draws - 1)
              + (if Chosen(load, i, draws - 1) < servers then 1 else 0)
  {
    if servers > 0 {
      RowStep(load, servers - 1, i, draws);
    }
  }

  lemma {:induction false} RowTotal(load: seq<int>, i: nat, draws: nat)
    requires i < |load| && draws < |load|
    ensures RowOfFirst(load, |load|, i, draws) == draws
  {
    if draws > 0 {
      RowTotal(load, i, draws - 1);
      RowStep(load, |load|, i, draws);
    } else {
      RowEmpty(load, |load|, i);
    }
  }

  lemma {:induction false} RowEmpty(load: seq<int>, servers: nat, i: nat)
    requires servers <= |load| && i < |load|
    ensures RowOfFirst(load, servers, i, 0) == 0
  {
    if servers > 0 {
      RowEmpty(load, servers - 1, i);
    }
  }

  lemma {:induction false} RowsStep(load: seq<int>, servers: nat, rows: nat)
    requires servers <= |load| && 0 < rows <= |load|
    ensures RowsOfFirst(load, servers, rows)
         == RowsOfFirst(load, servers, rows - 1) + RowOfFirst(load, servers, rows - 1, |load| - 1)
  {
    if servers > 0 {
      RowsStep(load, servers - 1, rows);
    }
  }

  lemma {:induction false} RowsTotal(load: seq<int>, rows: nat)
    requires rows <= |load|
    ensures RowsOfFirst(load, |load|, rows) == rows * (|load| - 1)
  {
    if rows > 0 {
      RowsTotal(load, rows - 1);
      RowsStep(load, |load|, rows);
      RowTotal(load, rows - 1, |load| - 1);
      assert rows * (|load| - 1) == (rows - 1) * (|load| - 1) + (|load| - 1);
    } else {
      RowsEmpty(load, |load|);
    }
  }

  lemma {:induction false} RowsEmpty(load: seq<int>, servers: nat)
    requires servers <= |load|
    ensures RowsOfFirst(load, servers, 0) == 0
  {
    if servers > 0 {
      RowsEmpty(load, servers - 1);
    }
  }

  /** Over all servers the wins add up to the n(n-1) draws there are. */
  lemma WinsTotal(load: seq<int>)
    ensures RowsOfFirst(load, |load|, |load|) == |load| * (|load| - 1)
  {
    RowsTotal(load, |load|);
  }
}
