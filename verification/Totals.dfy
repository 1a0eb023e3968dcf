/** Adding up multisets over a sequence of keys. */
module Totals {

  predicate NoDuplicates<K(==)>(s: seq<K>) {
    forall i, j :: 0 <= i < j < |s| ==> s[i] != s[j]
  }

  function Total<K, T>(part: K -> multiset<T>, keys: seq<K>): multiset<T> {
    if keys == [] then multiset{} else Total(part, keys[..|keys| - 1]) + part(keys[|keys| - 1])
  }

  lemma {:induction false} TotalSnoc<K, T>(part: K -> multiset<T>, keys: seq<K>, key: K)
    ensures Total(part, keys + [key]) == Total(part, keys) + part(key)
  {
    assert (keys + [key])[..|keys|] == keys;
  }

  lemma {:induction false} TotalAppend<K, T>(part: K -> multiset<T>, a: seq<K>, b: seq<K>)
    ensures Total(part, a + b) == Total(part, a) + Total(part, b)
  {
    if b == [] {
      assert a + b == a;
    } else {
      var init := b[..|b| - 1];
      TotalAppend(part, a, init);
      assert (a + b)[..|a + b| - 1] == a + init;
    }
  }

  /** Keys with the same parts have the same total. */
  lemma {:induction false} TotalSame<K, L, T>(f: K -> multiset<T>, g: L -> multiset<T>, a: seq<K>, b: seq<L>)
    requires |a| == |b| && forall i :: 0 <= i < |a| ==> f(a[i]) == g(b[i])
    ensures Total(f, a) == Total(g, b)
  {
    if a == [] {
    } else {
      TotalSame(f, g, a[..|a| - 1], b[..|b| - 1]);
    }
  }

  function Without<K>(keys: seq<K>, k: nat): seq<K>
    requires k < |keys|
  {
    keys[..k] + keys[k + 1..]
  }

  lemma {:induction false} MiddleLast<T>(a: multiset<T>, b: multiset<T>, c: multiset<T>)
    ensures a + b + c == a + c + b
  {
  }

  lemma {:induction false} TotalWithout<K, T>(part: K -> multiset<T>, keys: seq<K>, k: nat)
    requires k < |keys|
    ensures Total(part, keys) == Total(part, Without(keys, k)) + part(keys[k])
  {
    var init, last := keys[..|keys| - 1], keys[|keys| - 1];
    if k == |init| {
      assert Without(keys, k) == init;
    } else {
      TotalWithout(part, init, k);
      assert Without(keys, k) == Without(init, k) + [last];
      TotalSnoc(part, Without(init, k), last);
      MiddleLast(Total(part, Without(init, k)), part(keys[k]), part(last));
    }
  }

  lemma {:induction false} WithoutMembers<K(!new)>(keys: seq<K>, k: nat)
    requires k < |keys| && NoDuplicates(keys)
    ensures NoDuplicates(Without(keys, k))
    ensures forall t :: t in Without(keys, k) <==> t in keys && t != keys[k]
  {
    var rest := Without(keys, k);
    forall t | t in keys && t != keys[k] ensures t in rest {
      var i :| 0 <= i < |keys| && keys[i] == t;
      assert rest[if i < k then i else i - 1] == t;
    }
    forall t | t in rest ensures t in keys && t != keys[k] {
      var i :| 0 <= i < |rest| && rest[i] == t;
      assert t == keys[if i < k then i else i + 1];
    }
  }

  lemma {:induction false} HasMember<K(!new)>(keys: seq<K>)
    requires keys != []
    ensures exists t :: t in keys
  {
    assert keys[0] in keys;
  }

  /** The order of the keys does not matter. */
  lemma {:induction false} TotalPermuted<K(!new), T>(part: K -> multiset<T>, a: seq<K>, b: seq<K>)
    requires NoDuplicates(a) && NoDuplicates(b) && forall t :: t in a <==> t in b
    ensures Total(part, a) == Total(part, b)
  {
    if a == [] {
      if b != [] { HasMember(b); }
    } else {
      var init, t := a[..|a| - 1], a[|a| - 1];
      assert t in b;
      var k :| 0 <= k < |b| && b[k] == t;
      WithoutMembers(b, k);
      TotalWithout(part, b, k);
      WithoutMembers(a, |a| - 1);
      assert Without(a, |a| - 1) == init;
      TotalPermuted(part, init, Without(b, k));
    }
  }
}
