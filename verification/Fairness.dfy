// Weighted round robin over the keys of one model: every grant of a key costs it 1 / throughput, and a key is
// admitted unless it is ahead of the key admitted last.
module Fairness {
  import opened Pow2

  /** `current` is the credit each key has used; `least`, despite its name, that of the key admitted last. */
  datatype Credits = Credits(current: seq<real>, least: real)

  predicate Weights(w: seq<real>) {
    w != [] && forall k | 0 <= k < |w| :: 0.0 < w[k]
  }

  /** checkMinCredit */
  predicate Admits(c: Credits, k: nat)
    requires k < |c.current|
  {
    c.current[k] <= c.least
  }

  /** checkWRR for key number k of the model. */
  function Poll(w: seq<real>, c: Credits, k: nat): (r: Credits)
    requires k < |w| == |c.current|
    ensures |r.current| == |w|
  {
    if Admits(c, k) then Credits(c.current[k := c.current[k] + w[k]], c.current[k] + w[k]) else c
  }

  /** renewTable: nothing used yet, and the bar at 10. */
  function Start(w: seq<real>): Credits {
    Credits(seq(|w|, _ => 0.0), 10.0)
  }

  ghost predicate Polls(w: seq<real>, polls: seq<nat>) {
    forall t | 0 <= t < |polls| :: polls[t] < |w|
  }

  function Run(w: seq<real>, polls: seq<nat>): (c: Credits)
    requires Polls(w, polls)
    ensures |c.current| == |w|
  {
    if polls == [] then Start(w) else Poll(w, Run(w, polls[..|polls|-1]), polls[|polls|-1])
  }

  /** How often key k was admitted. */
  function Grants(w: seq<real>, polls: seq<nat>, k: nat): nat
    requires Polls(w, polls) && k < |w|
  {
    if polls == [] then 0
    else
      var rest := polls[..|polls|-1];
      Grants(w, rest, k) + if polls[|polls|-1] == k && Admits(Run(w, rest), k) then 1 else 0
  }

  function Times(n: nat, x: real): real {
    if n == 0 then 0.0 else Times(n - 1, x) + x
  }

  lemma {:induction false} TimesIsProduct(n: nat, x: real)
    ensures Times(n, x) == n as real * x
  {
    if n > 0 {
      TimesIsProduct(n - 1, x);
      assert (n as real - 1.0) * x + x == n as real * x;
    }
  }

  /** A key's credit is its grants times its weight, that is, its grants divided by its throughput. */
  lemma {:induction false} CreditAddsUp(w: seq<real>, polls: seq<nat>, k: nat)
    requires Polls(w, polls) && k < |w|
    ensures Run(w, polls).current[k] == Times(Grants(w, polls, k), w[k])
  {
    if polls != [] {
      CreditAddsUp(w, polls[..|polls|-1], k);
    }
  }

  /** The key admitted last, if any was. */
  function Last(w: seq<real>, polls: seq<nat>): int
    requires Polls(w, polls)
  {
    if polls == [] then -1
    else
      var rest, k := polls[..|polls|-1], polls[|polls|-1];
      if Admits(Run(w, rest), k) then k else Last(w, rest)
  }

  /** The stored bar is the credit of the key admitted last. */
  lemma {:induction false} LeastIsLast(w: seq<real>, polls: seq<nat>)
    requires Polls(w, polls)
    ensures -1 <= Last(w, polls) < |w|
    ensures var c := Run(w, polls);
            if Last(w, polls) < 0 then c == Start(w) && polls == [] else c.least == c.current[Last(w, polls)]
  {
    if polls != [] {
      LeastIsLast(w, polls[..|polls|-1]);
    }
  }

  /** Whatever the polling order, the key that has used least is admitted: the model is never stuck. */
  lemma SmallestAdmitted(w: seq<real>, polls: seq<nat>, k: nat)
    requires Polls(w, polls) && k < |w|
    requires forall j | 0 <= j < |w| :: Run(w, polls).current[k] <= Run(w, polls).current[j]
    ensures Admits(Run(w, polls), k)
  {
    LeastIsLast(w, polls);
  }

  /** A refused key is strictly ahead of the one admitted last. */
  lemma RefusedIsAhead(w: seq<real>, polls: seq<nat>, k: nat)
    requires Polls(w, polls) && k < |w| && !Admits(Run(w, polls), k)
    ensures 0 <= Last(w, polls) < |w| && Last(w, polls) != k
    ensures Run(w, polls).current[k] > Run(w, polls).current[Last(w, polls)]
  {
    LeastIsLast(w, polls);
  }

  // ----- how far apart two keys can be -----

  /** The weights polled since key j was. */
  function Since(w: seq<real>, polls: seq<nat>, j: nat): real
    requires Polls(w, polls)
  {
    if polls == [] || polls[|polls|-1] == j then 0.0
    else Since(w, polls[..|polls|-1], j) + w[polls[|polls|-1]]
  }

  /** In any polling order: the last admitted key leads key j by no more than what was polled since j. */
  lemma {:induction false} LeadBounded(w: seq<real>, polls: seq<nat>, j: nat)
    requires Weights(w) && Polls(w, polls) && polls != [] && j < |w|
    ensures Run(w, polls).least <= Run(w, polls).current[j] + Since(w, polls, j)
  {
    var rest, k := polls[..|polls|-1], polls[|polls|-1];
    if rest == [] {
      assert Run(w, rest) == Start(w);
      assert polls[..0] == [];
    } else {
      LeadBounded(w, rest, j);
    }
  }

  /** Never polled away from j by more than `bound`, no key gets ahead of j by more than `bound`. */
  lemma {:induction false} SpreadBounded(w: seq<real>, polls: seq<nat>, i: nat, j: nat, bound: real)
    requires Weights(w) && Polls(w, polls) && i < |w| && j < |w| && 0.0 <= bound
    requires forall t | 0 <= t <= |polls| :: Since(w, polls[..t], j) <= bound
    ensures Run(w, polls).current[i] - Run(w, polls).current[j] <= bound
  {
    if polls != [] {
      var rest := polls[..|polls|-1];
      forall t | 0 <= t <= |rest| ensures Since(w, rest[..t], j) <= bound {
        assert rest[..t] == polls[..t];
      }
      SpreadBounded(w, rest, i, j, bound);
      LeadBounded(w, polls, j);
      assert polls[..|polls|] == polls;
    }
  }

  function Sum(w: seq<real>): real {
    if w == [] then 0.0 else Sum(w[..|w|-1]) + w[|w|-1]
  }

  /** The weights of those of the first `k` keys that are in `keys`. */
  function PartOf(w: seq<real>, keys: set<nat>, k: nat): real
    requires k <= |w|
  {
    if k == 0 then 0.0 else PartOf(w, keys, k - 1) + if k - 1 in keys then w[k - 1] else 0.0
  }

  lemma {:induction false} PartWithout(w: seq<real>, keys: set<nat>, j: nat, k: nat)
    requires Weights(w) && k <= |w| && j !in keys
    ensures PartOf(w, keys, k) <= Sum(w[..k]) - if j < k then w[j] else 0.0
  {
    if k != 0 {
      PartWithout(w, keys, j, k - 1);
      assert w[..k][..k - 1] == w[..k - 1];
    }
  }

  lemma {:induction false} PartAndOne(w: seq<real>, keys: set<nat>, x: nat, k: nat)
    requires k <= |w| && x < |w| && x !in keys
    ensures PartOf(w, keys + {x}, k) == PartOf(w, keys, k) + if x < k then w[x] else 0.0
  {
    if k != 0 {
      PartAndOne(w, keys, x, k - 1);
    }
  }

  lemma {:induction false} NothingOf(w: seq<real>, k: nat)
    requires k <= |w|
    ensures PartOf(w, {}, k) == 0.0
  {
    if k != 0 {
      NothingOf(w, k - 1);
    }
  }

  /** There are no more than `n` keys below `n`, and all of them if there are as many. */
  lemma {:induction false} Pigeonhole(keys: set<nat>, n: nat)
    requires forall k | k in keys :: k < n
    ensures |keys| <= n && (|keys| == n ==> forall k | 0 <= k < n :: k in keys)
  {
    if n != 0 {
      var rest := keys - {n - 1};
      Pigeonhole(rest, n - 1);
      assert keys == if n - 1 in keys then rest + {n - 1} else rest;
    }
  }

  /** The keys are polled in turn: none comes up again among the next polls of the others. */
  ghost predicate Cyclic(w: seq<real>, polls: seq<nat>) {
    w != [] && forall s, t | 0 <= s < t < |polls| && t - s < |w| :: polls[s] != polls[t]
  }

  /** That is what polling in a fixed order of the keys, over and over and from any start, amounts to. */
  lemma InOrderIsCyclic(w: seq<real>, order: seq<nat>, start: nat, polls: seq<nat>)
    requires w != [] && |order| == |w| && forall i, j | 0 <= i < j < |order| :: order[i] != order[j]
    requires forall t | 0 <= t < |polls| :: polls[t] == order[(start + t) % |w|]
    ensures Cyclic(w, polls)
  {
    forall s, t | 0 <= s < t < |polls| && t - s < |w| ensures polls[s] != polls[t] {
      SamePlace(start + s, start + t, |w|);
    }
  }

  lemma SamePlace(a: nat, b: nat, n: nat)
    requires a < b < a + n
    ensures a % n != b % n
  {
    var q := b / n - a / n;
    assert b - a == q * n + b % n - a % n;
    if q <= 0 {
      assert q * n <= 0;
    } else {
      assert 0 <= (q - 1) * n;
    }
  }

  /** And nothing else does: the first polls fix the order. */
  lemma CyclicRepeats(w: seq<real>, polls: seq<nat>, t: nat)
    requires Polls(w, polls) && Cyclic(w, polls) && t + |w| < |polls|
    ensures polls[t + |w|] == polls[t]
  {
    var keys := KeysBetween(w, polls, t + 1, |w| - 1);
    if polls[t + |w|] != polls[t] {
      assert polls[t] !in keys && polls[t + |w|] !in keys;
      Pigeonhole(keys + {polls[t]} + {polls[t + |w|]}, |w|);
      assert false;
    }
  }

  /** As many keys as polls, if these are not too many. */
  lemma {:induction false} KeysBetween(w: seq<real>, polls: seq<nat>, from: nat, n: nat) returns (keys: set<nat>)
    requires Polls(w, polls) && Cyclic(w, polls) && n <= |w| && from + n <= |polls|
    ensures |keys| == n && forall k :: k in keys <==> exists t | from <= t < from + n :: polls[t] == k
  {
    if n == 0 {
      keys := {};
    } else {
      var rest := KeysBetween(w, polls, from, n - 1);
      var x := polls[from + n - 1];
      assert x !in rest;
      keys := rest + {x};
    }
  }

  lemma CyclicFront(w: seq<real>, polls: seq<nat>)
    requires Cyclic(w, polls) && polls != []
    ensures Cyclic(w, polls[..|polls| - 1])
  {
  }

  /** The last `n` polls were of `keys`. */
  ghost predicate Latest(polls: seq<nat>, keys: set<nat>, n: nat) {
    n <= |polls| && forall k | k in keys :: exists t | |polls| - n <= t < |polls| :: polls[t] == k
  }

  lemma LatestAndOne(polls: seq<nat>, keys: set<nat>, n: nat)
    requires polls != [] && Latest(polls[..|polls| - 1], keys, n)
    ensures Latest(polls, keys + {polls[|polls| - 1]}, n + 1)
  {
    var rest := polls[..|polls| - 1];
    forall k | k in keys ensures exists t | |polls| - n - 1 <= t < |polls| :: polls[t] == k {
      var t :| |rest| - n <= t < |rest| && rest[t] == k;
      assert polls[t] == k;
    }
    assert polls[|polls| - 1] == polls[|polls| - 1];
  }

  lemma NotAgain(w: seq<real>, polls: seq<nat>, keys: set<nat>, n: nat)
    requires polls != [] && Cyclic(w, polls) && n < |w| && Latest(polls[..|polls| - 1], keys, n)
    ensures polls[|polls| - 1] !in keys
  {
    assert forall t | |polls| - 1 - n <= t < |polls| - 1 :: polls[t] != polls[|polls| - 1];
  }

  /** The keys polled since j was, each once; never all of the others and another. */
  lemma {:induction false} SinceInTurn(w: seq<real>, polls: seq<nat>, j: nat) returns (keys: set<nat>)
    requires Polls(w, polls) && Cyclic(w, polls) && j < |w|
    ensures j !in keys && |keys| < |w| && Latest(polls, keys, |keys|) && forall k | k in keys :: k < |w|
    ensures Since(w, polls, j) == PartOf(w, keys, |w|)
  {
    keys := {};
    NothingOf(w, |w|);
    if polls != [] && polls[|polls| - 1] != j {
      CyclicFront(w, polls);
      var x := polls[|polls| - 1];
      var before := SinceInTurn(w, polls[..|polls| - 1], j);
      NotAgain(w, polls, before, |before|);
      LatestAndOne(polls, before, |before|);
      PartAndOne(w, before, x, |w|);
      keys := before + {x};
      Pigeonhole(keys + {j}, |w|);
    }
  }

  /**
   * Fairness: polled cyclically, in whatever order and for however long, no key of the model is ahead of another by more credit than
   * one grant of each of the other keys; so g(i)/throughput(i) and g(j)/throughput(j), the grants over the
   * throughputs, never differ by the sum of all per-grant credits.
   */
  lemma CyclicPollingIsFair(w: seq<real>, polls: seq<nat>, i: nat, j: nat)
    requires Weights(w) && Polls(w, polls) && Cyclic(w, polls) && i < |w| && j < |w|
    ensures Run(w, polls).current[i] - Run(w, polls).current[j] <= Sum(w) - w[j]
    ensures Times(Grants(w, polls, i), w[i]) - Times(Grants(w, polls, j), w[j]) <= Sum(w) - w[j]
  {
    assert w[..|w|] == w;
    forall t | 0 <= t <= |polls| ensures Since(w, polls[..t], j) <= Sum(w) - w[j] {
      var keys := SinceInTurn(w, polls[..t], j);
      PartWithout(w, keys, j, |w|);
    }
    assert polls[..0] == [] && Since(w, polls[..0], j) == 0.0;
    SpreadBounded(w, polls, i, j, Sum(w) - w[j]);
    CreditAddsUp(w, polls, i);
    CreditAddsUp(w, polls, j);
  }

  /** Grants over throughput. */
  function Per(grants: nat, throughput: real): real
    requires 0.0 < throughput
  {
    grants as real / throughput
  }

  lemma CreditIsPer(w: seq<real>, polls: seq<nat>, k: nat, throughput: real)
    requires Polls(w, polls) && k < |w| && 0.0 < throughput && w[k] == 1.0 / throughput
    ensures Run(w, polls).current[k] == Per(Grants(w, polls, k), throughput)
  {
    CreditAddsUp(w, polls, k);
    TimesIsPer(Grants(w, polls, k), w[k], throughput);
  }

  lemma TimesIsPer(n: nat, x: real, throughput: real)
    requires 0.0 < throughput && x == 1.0 / throughput
    ensures Times(n, x) == Per(n, throughput)
  {
    TimesIsProduct(n, x);
    var q := n as real / throughput;
    assert x * throughput == 1.0;
    assert q == q * (x * throughput) == (q * throughput) * x;
    assert q * throughput == n as real;
  }
}
