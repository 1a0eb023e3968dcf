/** The round-robin splitter that deals the tests of a request to its environments. */
module Splitter {

  // ---------------------------------------------------------------- the dealt buckets

  /** `tests` dealt in turn to `n` buckets. */
  function Deal<T>(tests: seq<T>, n: nat): (buckets: seq<seq<T>>)
    requires n > 0
    ensures |buckets| == n
  {
    if tests == [] then seq(n, i => [])
    else
      var dealt := Deal(tests[..|tests| - 1], n);
      var b := (|tests| - 1) % n;
      dealt[b := dealt[b] + [tests[|tests| - 1]]]
  }

  /** Dealing one more test. */
  lemma {:induction false} DealSnoc<T>(tests: seq<T>, test: T, n: nat)
    requires n > 0
    ensures var dealt := Deal(tests, n);
            Deal(tests + [test], n) == dealt[|tests| % n := dealt[|tests| % n] + [test]]
  {
    assert (tests + [test])[..|tests|] == tests;
  }

  class RoundRobin<T> {
    var suites: seq<seq<T>>
    var current: nat

    constructor ()
      ensures suites == [] && current == 0
    {
      suites, current := [], 0;
    }

    method SetSize(size: nat)
      modifies this`suites
      ensures suites == seq(size, i => [])
    {
      suites := seq(size, i => []);
    }

    /** Divides by the number of buckets, so there has to be one. */
    method NextIndex() returns (index: nat)
      requires |suites| > 0
      modifies this`current
      ensures index < |suites| && index == old(current) % |suites|
      ensures current == old(current) + 1
    {
      index := current % |suites|;
      current := current + 1;
    }

    /** A splitter that has dealt `dealt` deals one test more. */
    method AddTest(test: T, ghost dealt: seq<T>)
      requires |suites| > 0 && current == |dealt| && suites == Deal(dealt, |suites|)
      modifies this
      ensures |suites| == |old(suites)| && current == |dealt| + 1
      ensures suites == Deal(dealt + [test], |suites|)
    {
      DealSnoc(dealt, test, |suites|);
      var index := NextIndex();
      suites := suites[index := suites[index] + [test]];
    }

    function Split(): seq<seq<T>>
      reads this
    {
      suites
    }
  }

  // ---------------------------------------------------------------- where each test goes

  lemma {:induction false} MultipleAtLeast(x: int, n: nat)
    requires x >= 1
    ensures x * n >= n
  {
  }

  lemma {:induction false} DivModUnique(a: nat, n: nat, q: nat, r: nat)
    requires n > 0 && r < n && a == q * n + r
    ensures a / n == q && a % n == r
  {
    var p, t := a / n, a % n;
    assert q * n - p * n == t - r;
    if q > p {
      MultipleAtLeast(q - p, n);
    } else if q < p {
      MultipleAtLeast(p - q, n);
    }
  }

  lemma {:induction false} DivModSucc(a: nat, n: nat)
    requires n > 0
    ensures if a % n + 1 < n then (a + 1) / n == a / n && (a + 1) % n == a % n + 1
            else (a + 1) / n == a / n + 1 && (a + 1) % n == 0
  {
    var q, r := a / n, a % n;
    assert a == q * n + r;
    if r + 1 < n {
      DivModUnique(a + 1, n, q, r + 1);
    } else {
      assert a + 1 == (q + 1) * n;
      DivModUnique(a + 1, n, q + 1, 0);
    }
  }

  function BucketSize(total: nat, n: nat, b: nat): nat
    requires n > 0
  {
    total / n + if b < total % n then 1 else 0
  }

  /** The size of every bucket: the quotient, and one more for the first few. */
  lemma {:induction false} SizeOf<T>(tests: seq<T>, n: nat, b: nat)
    requires 0 < n && b < n
    ensures |Deal(tests, n)[b]| == BucketSize(|tests|, n, b)
  {
    if tests == [] {
      DivModUnique(0, n, 0, 0);
    } else {
      SizeOf(tests[..|tests| - 1], n, b);
      DivModSucc(|tests| - 1, n);
    }
  }

  /** Bucket sizes differ by at most one. */
  lemma {:induction false} Balanced<T>(tests: seq<T>, n: nat, b: nat, c: nat)
    requires b < n && c < n
    ensures -1 <= |Deal(tests, n)[b]| - |Deal(tests, n)[c]| <= 1
  {
    SizeOf(tests, n, b);
    SizeOf(tests, n, c);
  }

  /** Test number k is at position k div n of bucket k mod n, for every k. */
  lemma {:induction false} DealtAt<T>(tests: seq<T>, n: nat, k: nat)
    requires n > 0 && k < |tests|
    ensures k / n < |Deal(tests, n)[k % n]| && Deal(tests, n)[k % n][k / n] == tests[k]
  {
    var init := tests[..|tests| - 1];
    if k == |init| {
      SizeOf(init, n, k % n);
    } else {
      DealtAt(init, n, k);
    }
  }

  /** The first `total` tests read off the buckets in turn, as far as they reach. */
  function Interleaved<T>(buckets: seq<seq<T>>, total: nat): seq<T>
    requires |buckets| > 0
  {
    if total == 0 then []
    else
      var k := total - 1;
      var bucket := buckets[k % |buckets|];
      Interleaved(buckets, k) + (if k / |buckets| < |bucket| then [bucket[k / |buckets|]] else [])
  }

  lemma {:induction false} InterleavedPrefix<T>(tests: seq<T>, n: nat, total: nat)
    requires n > 0 && total <= |tests|
    ensures Interleaved(Deal(tests, n), total) == tests[..total]
  {
    if total == 0 {
    } else {
      InterleavedPrefix(tests, n, total - 1);
      DealtAt(tests, n, total - 1);
      assert tests[..total] == tests[..total - 1] + [tests[total - 1]];
    }
  }

  /** Reading the buckets in turn gives the tests back in their order. */
  lemma {:induction false} InterleavingRestores<T>(tests: seq<T>, n: nat)
    requires n > 0
    ensures Interleaved(Deal(tests, n), |tests|) == tests
  {
    InterleavedPrefix(tests, n, |tests|);
    assert tests[..|tests|] == tests;
  }

  /** Order is kept: what comes later in a bucket came later in the input. */
  lemma {:induction false} BucketIsSubsequence<T>(tests: seq<T>, n: nat, b: nat, i: nat)
    requires b < n && i < |Deal(tests, n)[b]|
    ensures i * n + b < |tests| && Deal(tests, n)[b][i] == tests[i * n + b]
  {
    SizeOf(tests, n, b);
    var q, r := |tests| / n, |tests| % n;
    assert |tests| == q * n + r;
    if i < q { assert (i + 1) * n <= q * n; }
    DivModUnique(i * n + b, n, i, b);
    DealtAt(tests, n, i * n + b);
  }

  // ---------------------------------------------------------------- nothing lost, nothing twice

  function Pooled<T>(buckets: seq<seq<T>>): multiset<T> {
    if buckets == [] then multiset{} else Pooled(buckets[..|buckets| - 1]) + multiset(buckets[|buckets| - 1])
  }

  lemma {:induction false} PooledUpdate<T>(buckets: seq<seq<T>>, b: nat, test: T)
    requires b < |buckets|
    ensures Pooled(buckets[b := buckets[b] + [test]]) == Pooled(buckets) + multiset{test}
  {
    var more := buckets[b := buckets[b] + [test]];
    var init := buckets[..|buckets| - 1];
    if b == |buckets| - 1 {
      assert more[..|more| - 1] == init;
    } else {
      assert more[..|more| - 1] == init[b := init[b] + [test]];
      PooledUpdate(init, b, test);
    }
  }

  lemma {:induction false} PooledEmpty<T>(n: nat)
    ensures Pooled<T>(seq(n, i => [])) == multiset{}
  {
    if n > 0 {
      var empties: seq<seq<T>> := seq(n, i => []);
      assert empties[..n - 1] == seq(n - 1, i => []);
      PooledEmpty<T>(n - 1);
    }
  }

  /** The buckets together hold exactly the dealt tests. */
  lemma {:induction false} DealConserves<T>(tests: seq<T>, n: nat)
    requires n > 0
    ensures Pooled(Deal(tests, n)) == multiset(tests)
  {
    if tests == [] {
      PooledEmpty<T>(n);
    } else {
      var init := tests[..|tests| - 1];
      DealConserves(init, n);
      PooledUpdate(Deal(init, n), |init| % n, tests[|init|]);
      assert tests == init + [tests[|init|]];
    }
  }

  lemma {:induction false} DealtFrom<T>(tests: seq<T>, n: nat, b: nat, test: T)
    requires b < n && test in Deal(tests, n)[b]
    ensures test in tests
  {
    var i :| 0 <= i < |Deal(tests, n)[b]| && Deal(tests, n)[b][i] == test;
    BucketIsSubsequence(tests, n, b, i);
  }
}
