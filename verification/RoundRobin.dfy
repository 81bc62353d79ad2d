/** Round-robin selection over an atomic 64-bit counter that wraps around. */
module RoundRobin {
  import opened Common
  import opened Pool
  import opened InMemoryPool

  const TWO_TO_THE_64: nat := 0x1_0000_0000_0000_0000

  /** The value an atomic 64-bit increment leaves behind. */
  function Incremented(next: nat): nat {
    (next + 1) % TWO_TO_THE_64
  }

  /** The slot read off the incremented value: subtract one in 64 bits, then reduce. */
  function Slot(incremented: nat, m: nat): (i: nat)
    requires m > 0
    ensures i < m
  {
    ((incremented + TWO_TO_THE_64 - 1) % TWO_TO_THE_64) % m
  }

  class RoundRobinPolicy {
    var next: nat

    ghost predicate Valid()
      reads this
    {
      next < TWO_TO_THE_64
    }

    constructor ()
      ensures Valid() && next == 0
    {
      next := 0;
    }

    /** No backend and an untouched counter when none is healthy; else the slot the counter names. */
    method GetTarget(pool: InMemory) returns (target: Option<Url>)
      requires Valid()
      modifies this
      ensures Valid()
      ensures target.None? <==> Healthy(pool.View()) == []
      ensures target.None? ==> next == old(next)
      ensures target.Some? ==>
                var healthy := Healthy(pool.View());
                next == After(old(next), 1) && target.value == healthy[Pick(old(next), 0, |healthy|)].url
    {
      var servers := pool.GetHealthy();
      assert |servers| == |Healthy(pool.View())|;
      if |servers| == 0 {
        return None;
      }
      next := (next + 1) % TWO_TO_THE_64;
      var index := ((next + TWO_TO_THE_64 - 1) % TWO_TO_THE_64) % |servers|;
      assert Values(servers)[index] == servers[index].Value();
      target := Some(servers[index].url);
    }
  }

  // ---------- A window of calls on a fixed number of servers ----------

  function After(next: nat, calls: nat): nat {
    if calls == 0 then next else Incremented(After(next, calls - 1))
  }

  /** Slot picked by the call that follows `call` earlier ones. */
  function Pick(next: nat, call: nat, m: nat): (i: nat)
    requires m > 0
    ensures i < m
  {
    Slot(After(next, call + 1), m)
  }

  function Picks(next: nat, calls: nat, m: nat, i: nat): nat
    requires m > 0
  {
    if calls == 0 then 0
    else Picks(next, calls - 1, m, i) + (if Pick(next, calls - 1, m) == i then 1 else 0)
  }

  /** Times the counter passes through zero inside the window. */
  function Wraps(next: nat, calls: nat): nat {
    if calls == 0 then 0 else (next + calls - 1) / TWO_TO_THE_64
  }

  lemma {:induction false} AfterIsModular(next: nat, calls: nat)
    requires next < TWO_TO_THE_64
    ensures After(next, calls) == (next + calls) % TWO_TO_THE_64
  {
    if calls == 0 {
      ModUnique(next, TWO_TO_THE_64, 0, next);
    } else {
      AfterIsModular(next, calls - 1);
      SuccessorMod(next + calls - 1, TWO_TO_THE_64);
      var r := (next + calls - 1) % TWO_TO_THE_64;
      if r + 1 < TWO_TO_THE_64 {
        ModUnique(r + 1, TWO_TO_THE_64, 0, r + 1);
      }
    }
  }

  lemma MultipleIsFar(d: int, m: int)
    requires m > 0
    ensures d > 0 ==> d * m >= m
    ensures d < 0 ==> d * m <= -m
  {
  }

  lemma {:induction false} ModUnique(x: nat, m: nat, q: nat, r: nat)
    requires m > 0 && r < m && x == q * m + r
    ensures x % m == r && x / m == q
  {
    var d := x / m - q;
    assert x == (x / m) * m + x % m;
    assert (x / m) * m - q * m == d * m;
    MultipleIsFar(d, m);
  }

  lemma {:induction false} SuccessorMod(x: nat, m: nat)
    requires m > 0
    ensures (x + 1) % m == if x % m + 1 == m then 0 else x % m + 1
    ensures (x + 1) / m == if x % m + 1 == m then x / m + 1 else x / m
  {
    var q, r := x / m, x % m;
    assert x == q * m + r;
    if r + 1 == m {
      assert x + 1 == (q + 1) * m;
      ModUnique(x + 1, m, q + 1, 0);
    } else {
      ModUnique(x + 1, m, q, r + 1);
    }
  }

  lemma SlotUndoesIncrement(x: nat, m: nat)
    requires m > 0
    ensures Slot((x + 1) % TWO_TO_THE_64, m) == (x % TWO_TO_THE_64) % m
  {
    var r := x % TWO_TO_THE_64;
    SuccessorMod(x, TWO_TO_THE_64);
    if r + 1 == TWO_TO_THE_64 {
      assert (0 + TWO_TO_THE_64 - 1) % TWO_TO_THE_64 == r;
    } else {
      assert (r + 1 + TWO_TO_THE_64 - 1) % TWO_TO_THE_64 == r by {
        ModUnique(r + TWO_TO_THE_64, TWO_TO_THE_64, 1, r);
      }
    }
  }

  /** The k-th call of a window reads slot (next + k) mod 2^64 mod m: wrap first, then reduce. */
  lemma PickIsModular(next: nat, call: nat, m: nat)
    requires next < TWO_TO_THE_64 && m > 0
    ensures Pick(next, call, m) == ((next + call) % TWO_TO_THE_64) % m
  {
    AfterIsModular(next, call + 1);
    SlotUndoesIncrement(next + call, m);
  }

  /** How far slot `i` is ahead of a later slot `j` once a count from zero has reached `x`. */
  function Lead(x: nat, m: nat, i: nat, j: nat): nat
    requires m > 0
  {
    if i < x % m <= j then 1 else 0
  }

  /** The lead a count of `z` has built up when it restarts from zero every `t` steps. */
  function Gain(t: nat, z: nat, m: nat, i: nat, j: nat): int
    requires t > 0 && m > 0
  {
    Lead(z % t, m, i, j) + z / t * Lead(t, m, i, j)
  }

  lemma GainStep(t: nat, z: nat, m: nat, i: nat, j: nat)
    requires t > 0 && i < j < m
    ensures Gain(t, z + 1, m, i, j) - Gain(t, z, m, i, j)
         == (if (z % t) % m == i then 1 else 0) - (if (z % t) % m == j then 1 else 0)
  {
    SuccessorMod(z, t);
    SuccessorMod(z % t, m);
    var w, l := z / t, Lead(t, m, i, j);
    assert (w + 1) * l == w * l + l;
  }

  /** The exact difference of two slots' pick counts over any window: what the leads at its two ends
      say, plus one lead of 2^64 for every wrap inside it. */
  lemma {:induction false} SpreadFormula(next: nat, calls: nat, m: nat, i: nat, j: nat)
    requires next < TWO_TO_THE_64 && i < j < m
    ensures Picks(next, calls, m, i) - Picks(next, calls, m, j)
         == Gain(TWO_TO_THE_64, next + calls, m, i, j) - Gain(TWO_TO_THE_64, next, m, i, j)
  {
    if calls > 0 {
      SpreadFormula(next, calls - 1, m, i, j);
      PickIsModular(next, calls - 1, m);
      GainStep(TWO_TO_THE_64, next + calls - 1, m, i, j);
    }
  }

  lemma {:induction false} GainBounds(t: nat, next: nat, calls: nat, m: nat, i: nat, j: nat)
    requires t > 0 && next < t && i < j < m
    ensures var g := Gain(t, next + calls, m, i, j) - Gain(t, next, m, i, j);
            var w := if calls == 0 then 0 else (next + calls - 1) / t;
            -1 <= g <= 1 + w && (Lead(t, m, i, j) == 0 ==> g <= 1)
  {
    ModUnique(next, t, 0, next);
    var z, l := next + calls, Lead(t, m, i, j);
    LastWrap(t, next, calls);
    assert z / t * l == if l == 0 then 0 else z / t;
  }

  /** A wrap on the very last call shows in no count yet. */
  lemma LastWrap(t: nat, next: nat, calls: nat)
    requires t > 0 && next < t
    ensures var w := if calls == 0 then 0 else (next + calls - 1) / t;
            (next + calls) / t == if calls > 0 && (next + calls) % t == 0 then w + 1 else w
  {
    if calls == 0 {
      ModUnique(next, t, 0, next);
    } else {
      SuccessorMod(next + calls - 1, t);
    }
  }

  function Distance(a: int, b: int): nat {
    if a < b then b - a else a - b
  }

  /** Any two slots' pick counts differ by at most one more than the number of wraps in the window. */
  lemma {:induction false} FairUpToWraps(next: nat, calls: nat, m: nat, i: nat, j: nat)
    requires next < TWO_TO_THE_64 && i < m && j < m
    ensures Distance(Picks(next, calls, m, i), Picks(next, calls, m, j)) <= 1 + Wraps(next, calls)
    ensures calls < TWO_TO_THE_64 ==> Wraps(next, calls) <= 1
    ensures next + calls <= TWO_TO_THE_64 ==> Wraps(next, calls) == 0
  {
    if i != j {
      var a, b := if i < j then i else j, if i < j then j else i;
      SpreadFormula(next, calls, m, a, b);
      GainBounds(TWO_TO_THE_64, next, calls, m, a, b);
    }
  }

  ghost predicate AlwaysFair(m: nat)
    requires m > 0
  {
    forall next: nat, calls: nat, i: nat, j: nat :: next < TWO_TO_THE_64 && i < m && j < m ==>
      Distance(Picks(next, calls, m, i), Picks(next, calls, m, j)) <= 1
  }

  /** When 2^64 is not a multiple of the pool size, the window that starts r calls before the wrap
      (r = 2^64 mod m) and runs one past it, no longer than the pool and with that one wrap in it, gives
      slot 0 two picks and slot r none. */
  lemma {:induction false} UnfairWindow(m: nat) returns (next: nat, calls: nat, j: nat)
    requires m > 0 && TWO_TO_THE_64 % m != 0
    ensures next < TWO_TO_THE_64 && calls <= m && 0 < j < m && Wraps(next, calls) == 1
    ensures Picks(next, calls, m, 0) - Picks(next, calls, m, j) == 2
  {
    next, calls, j := GainAcrossWrap(TWO_TO_THE_64, m);
    SpreadFormula(next, calls, m, 0, j);
    ModUnique(TWO_TO_THE_64, TWO_TO_THE_64, 1, 0);
  }

  lemma GainOf(t: nat, z: nat, m: nat, i: nat, j: nat, wraps: nat, rest: nat)
    requires t > 0 && m > 0 && rest < t && z == wraps * t + rest
    ensures Gain(t, z, m, i, j) == Lead(rest, m, i, j) + wraps * Lead(t, m, i, j)
  {
    ModUnique(z, t, wraps, rest);
  }

  lemma GainAcrossWrap(t: nat, m: nat) returns (next: nat, calls: nat, j: nat)
    requires t > 1 && m > 0 && t % m != 0
    ensures next < t && 0 < calls <= m && 0 < j < m && next + calls == t + 1
    ensures Gain(t, next + calls, m, 0, j) - Gain(t, next, m, 0, j) == 2
  {
    var q, r := t / m, t % m;
    assert t == q * m + r && q * m >= 0;
    next, calls, j := t - r, r + 1, r;
    GainOf(t, t + 1, m, 0, j, 1, 1);
    GainOf(t, next, m, 0, j, 0, next);
    ModUnique(next, m, q, 0);
    ModUnique(1, m, 0, 1);
  }

  // ---------- Exactly the powers of two are fair across the wrap ----------

  function Pow2(k: nat): nat {
    if k == 0 then 1 else 2 * Pow2(k - 1)
  }

  lemma {:induction false} Pow2Sum(a: nat, b: nat)
    ensures Pow2(a + b) == Pow2(a) * Pow2(b)
  {
    if a > 0 {
      Pow2Sum(a - 1, b);
      assert 2 * (Pow2(a - 1) * Pow2(b)) == Pow2(a) * Pow2(b);
    }
  }

  lemma Pow2Of64()
    ensures Pow2(64) == TWO_TO_THE_64
  {
    assert Pow2(2) == 4;
    Pow2Sum(2, 2);
    Pow2Sum(4, 4);
    Pow2Sum(8, 8);
    Pow2Sum(16, 16);
    Pow2Sum(32, 32);
  }

  lemma {:induction false} DivisorIsPow2(m: nat, q: nat, k: nat) returns (e: nat)
    requires m * q == Pow2(k)
    ensures e <= k && m == Pow2(e)
  {
    if k == 0 {
      assert m != 0 && q != 0;
      assert m >= 2 ==> m * q >= 2 * q;
      e := 0;
    } else if m % 2 == 0 {
      assert 2 * (m / 2 * q) == m * q;
      e := DivisorIsPow2(m / 2, q, k - 1);
      e := e + 1;
    } else {
      OddProduct(m, q);
      assert 2 * (m * (q / 2)) == m * q;
      e := DivisorIsPow2(m, q / 2, k - 1);
    }
  }

  lemma OddProduct(m: nat, q: nat)
    ensures m % 2 == 1 && q % 2 == 1 ==> m * q % 2 == 1
  {
    var a, b := m / 2, q / 2;
    if m % 2 == 1 && q % 2 == 1 {
      assert m * q == (2 * a + 1) * (2 * b + 1) == 2 * (2 * (a * b) + a + b) + 1;
    }
  }

  lemma {:induction false} Pow2Divides(e: nat, k: nat)
    requires e <= k
    ensures Pow2(e) > 0 && Pow2(k) % Pow2(e) == 0
    decreases k
  {
    if e == k {
      Pow2Positive(e);
    } else {
      Pow2Divides(e, k - 1);
      var q := Pow2(k - 1) / Pow2(e);
      assert Pow2(k) == 2 * q * Pow2(e);
      ModUnique(Pow2(k), Pow2(e), 2 * q, 0);
    }
  }

  lemma {:induction false} Pow2Positive(e: nat)
    ensures Pow2(e) > 0
  {
    if e > 0 {
      Pow2Positive(e - 1);
    }
  }

  /** Over every window, of any length and across any number of wraps, pick counts stay within one of
      each other exactly when the pool size is a power of two that 2^64 is a multiple of. */
  lemma FairExactlyForPowersOfTwo(m: nat)
    requires m > 0
    ensures AlwaysFair(m) <==> exists e: nat :: e <= 64 && m == Pow2(e)
  {
    Pow2Of64();
    if TWO_TO_THE_64 % m == 0 {
      assert m * (TWO_TO_THE_64 / m) == TWO_TO_THE_64;
      var e := DivisorIsPow2(m, TWO_TO_THE_64 / m, 64);
      forall next: nat, calls: nat, i: nat, j: nat | next < TWO_TO_THE_64 && i < m && j < m
        ensures Distance(Picks(next, calls, m, i), Picks(next, calls, m, j)) <= 1
      {
        if i != j {
          SpreadFormula(next, calls, m, if i < j then i else j, if i < j then j else i);
        }
      }
    } else {
      var next, calls, j := UnfairWindow(m);
      assert Distance(Picks(next, calls, m, 0), Picks(next, calls, m, j)) == 2;
      forall e: nat | e <= 64
        ensures m != Pow2(e)
      {
        Pow2Divides(e, 64);
      }
    }
  }
}
