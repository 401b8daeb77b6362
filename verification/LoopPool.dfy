/** Which loop serves the next connection. Loop 0 is the base loop; the pool's own loops
  * are 1, 2, ... in the order they were started. */
module LoopPools {
  /** One call of getNextLoop with n loops in the pool: the loop given, and the new next_. */
  function Pick(n: nat, next: nat): (nat, nat) {
    if n == 0 then (0, next)
    else (next + 1, if next + 1 >= n then 0 else next + 1)
  }

  /** The loops given by the first m calls. */
  function Served(n: nat, next: nat, m: nat): (s: seq<nat>)
    ensures |s| == m
    decreases m
  {
    if m == 0 then [] else [Pick(n, next).0] + Served(n, Pick(n, next).1, m - 1)
  }

  function Count(s: seq<nat>, i: nat): nat {
    if s == [] then 0 else (if s[0] == i then 1 else 0) + Count(s[1..], i)
  }

  lemma Wraps(n: nat, k: nat)
    requires n > 0
    ensures Pick(n, k % n) == (k % n + 1, (k + 1) % n)
  {
    var q := k / n;
    assert k == q * n + k % n;
    if k % n + 1 == n {
      assert k + 1 == (q + 1) * n;
      Residue(n, q + 1, 0, k + 1);
    } else {
      Residue(n, q, k % n + 1, k + 1);
    }
  }

  lemma Residue(n: nat, q: nat, r: nat, k: nat)
    requires r < n && k == q * n + r
    ensures k % n == r && k / n == q
  {
    var x := k / n - q;
    assert k == k / n * n + k % n;
    assert x * n == k / n * n - q * n;
    Sizes(x, n);
  }

  lemma Sizes(x: int, n: nat)
    ensures x >= 1 ==> x * n >= n
    ensures x <= -1 ==> x * n <= 0 - n
    ensures x >= 2 ==> x * n >= 2 * n
    ensures x <= -2 ==> x * n <= 0 - 2 * n
  {
    if x >= 1 { assert x * n == (x - 1) * n + n; }
    if x >= 2 { assert x * n == (x - 2) * n + 2 * n; }
    if x <= -1 { assert x * n == (x + 1) * n - n; }
    if x <= -2 { assert x * n == (x + 2) * n - 2 * n; }
  }

  /** The k-th connection goes to loop k mod n, counting from wherever the pool stands. */
  lemma {:induction false} ServedInTurn(n: nat, from: nat, m: nat, k: nat)
    requires n > 0 && k < m
    ensures Served(n, from % n, m)[k] == (from + k) % n + 1
    decreases m
  {
    Wraps(n, from);
    if m > 1 {
      ServedInTurn(n, from + 1, m - 1, if k == 0 then 0 else k - 1);
    }
  }

  /** After m calls on n loops, loop i has been given exactly (m + n - i) / n times. */
  lemma {:induction false} RoundRobin(n: nat, m: nat, i: nat)
    requires 1 <= i <= n
    ensures Count(Served(n, 0, m), i) == (m + n - i) / n
  {
    CountFrom(n, 0, m, i);
    Residue(n, 0, n - i, n - i);
    assert 0 % n == 0 by { Residue(n, 0, 0, 0); }
  }

  lemma {:induction false} CountFrom(n: nat, from: nat, m: nat, i: nat)
    requires 1 <= i <= n
    ensures Count(Served(n, from % n, m), i) == (from + m + n - i) / n - (from + n - i) / n
    decreases m
  {
    if m > 0 {
      Wraps(n, from);
      CountFrom(n, from + 1, m - 1, i);
      var s := Served(n, from % n, m);
      assert s[1..] == Served(n, (from + 1) % n, m - 1);
      OneStep(n, from, i);
    }
  }

  /** The quotient moves up exactly when the turn comes round to i. */
  lemma OneStep(n: nat, from: nat, i: nat)
    requires 1 <= i <= n
    ensures (from + 1 + n - i) / n - (from + n - i) / n == if from % n + 1 == i then 1 else 0
  {
    var q, r := from / n, from % n;
    assert from == q * n + r;
    if r + 1 < i {
      Residue(n, q, r + n - i, from + n - i);
      Residue(n, q, r + 1 + n - i, from + 1 + n - i);
    } else if r + 1 == i {
      Residue(n, q, n - 1, from + n - i);
      assert (q + 1) * n == q * n + n;
      Residue(n, q + 1, 0, from + 1 + n - i);
    } else {
      assert (q + 1) * n == q * n + n;
      Residue(n, q + 1, r - i, from + n - i);
      Residue(n, q + 1, r + 1 - i, from + 1 + n - i);
    }
  }

  /** Any two loops differ by at most one. */
  lemma Balanced(n: nat, m: nat, i: nat, j: nat)
    requires 1 <= i <= n && 1 <= j <= n
    ensures -1 <= Count(Served(n, 0, m), i) - Count(Served(n, 0, m), j) <= 1
  {
    RoundRobin(n, m, i);
    RoundRobin(n, m, j);
    Near(n, m + n - i, m + n - j);
  }

  lemma Near(n: nat, a: nat, b: nat)
    requires n > 0 && a < b + n && b < a + n
    ensures -1 <= a / n - b / n <= 1
  {
    var x := a / n - b / n;
    assert a == a / n * n + a % n && b == b / n * n + b % n;
    assert x * n == a / n * n - b / n * n;
    Sizes(x, n);
  }

  class EventLoopThreadPool {
    var loops: seq<nat>
    var next: nat
    var started: bool

    ghost predicate Valid()
      reads this
    {
      && (forall k :: 0 <= k < |loops| ==> loops[k] == k + 1)
      && (|loops| > 0 ==> next < |loops|)
      && (|loops| == 0 ==> next == 0)
    }

    constructor ()
      ensures Valid() && loops == [] && next == 0 && !started
    {
      loops, next, started := [], 0, false;
    }

    method Start(numThreads: nat)
      requires Valid() && !started && loops == []
      modifies this
      ensures Valid() && started && |loops| == numThreads && next == 0
    {
      started := true;
      for i := 0 to numThreads
        invariant |loops| == i && next == 0 && started
        invariant forall k :: 0 <= k < i ==> loops[k] == k + 1
      {
        loops := loops + [i + 1];
      }
    }

    method GetNextLoop() returns (loop: nat)
      requires Valid()
      modifies `next
      ensures Valid() && (loop, next) == Pick(|loops|, old(next))
    {
      loop := 0;
      if |loops| > 0 {
        loop := loops[next];
        next := next + 1;
        if next >= |loops| {
          next := 0;
        }
      }
    }

    /** The same loop for the same hash, whatever was given out before. */
    method GetLoopForHash(hashCode: nat) returns (loop: nat)
      requires Valid()
      ensures |loops| == 0 ==> loop == 0
      ensures |loops| > 0 ==> 1 <= loop <= |loops| && exists q: nat :: hashCode == q * |loops| + (loop - 1)
    {
      loop := 0;
      if |loops| > 0 {
        loop := loops[hashCode % |loops|];
        assert hashCode == (hashCode / |loops|) * |loops| + hashCode % |loops|;
      }
    }
  }
}
