/** Counting the entries of a finite map, as `COUNT(*) ... WHERE` does. */
module Counting {

  ghost function Matching<K, V>(m: map<K, V>, p: V -> bool): set<K> {
    set k | k in m && p(m[k])
  }

  ghost function Count<K, V>(m: map<K, V>, p: V -> bool): nat {
    |Matching(m, p)|
  }

  /** One write changes a count by what the old entry and the new entry weigh. */
  lemma CountPut<K, V>(m: map<K, V>, k: K, v: V, p: V -> bool)
    ensures Count(m[k := v], p)
         == Count(m, p) - (if k in m && p(m[k]) then 1 else 0) + (if p(v) then 1 else 0)
  {
    var others := Matching(m, p) - {k};
    assert Matching(m[k := v], p) == if p(v) then others + {k} else others;
    assert Matching(m, p) == if k in m && p(m[k]) then others + {k} else others;
  }

  lemma CountMonotone<K, V>(m: map<K, V>, p: V -> bool, q: V -> bool)
    requires forall k | k in m && p(m[k]) :: q(m[k])
    ensures Count(m, p) <= Count(m, q)
  {
    SubsetSize(Matching(m, p), Matching(m, q));
  }

  lemma CountSame<K, V>(m: map<K, V>, p: V -> bool, q: V -> bool)
    requires forall k | k in m :: p(m[k]) == q(m[k])
    ensures Count(m, p) == Count(m, q)
  {
    assert Matching(m, p) == Matching(m, q);
  }

  /** Counting by two predicates that exclude each other. */
  lemma CountSplit<K, V>(m: map<K, V>, p: V -> bool, q: V -> bool, r: V -> bool)
    requires forall k | k in m :: r(m[k]) == (p(m[k]) || q(m[k])) && !(p(m[k]) && q(m[k]))
    ensures Count(m, r) == Count(m, p) + Count(m, q)
  {
    assert Matching(m, r) == Matching(m, p) + Matching(m, q);
    assert Matching(m, p) !! Matching(m, q);
  }

  lemma {:induction false} SubsetSize<T>(a: set<T>, b: set<T>)
    requires a <= b
    ensures |a| <= |b|
  {
    assert b == a + (b - a);
  }

  lemma {:induction false} FullSubset<T>(a: set<T>, b: set<T>)
    requires a <= b && |a| == |b|
    ensures a == b
  {
    assert b == a + (b - a);
  }

  /** An injective map into `b` shows that `a` is no larger than `b`. */
  lemma {:induction false} InjectionSize<A(!new), B>(a: set<A>, b: set<B>, f: A -> B)
    requires forall x | x in a :: f(x) in b
    requires forall x, y | x in a && y in a && f(x) == f(y) :: x == y
    ensures |a| <= |b|
  {
    if a != {} {
      var x :| x in a;
      InjectionSize(a - {x}, b - {f(x)}, f);
    }
  }
}
