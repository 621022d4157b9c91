/** Facts about finite sets and multisets. */
module Collections {
  lemma {:induction false} SubsetCount<T>(a: set<T>, b: set<T>)
    requires a <= b
    ensures |a| <= |b| && (|a| == |b| ==> a == b)
  {
    if a == {} {
      assert |b| == 0 ==> b == {};
    } else {
      var x :| x in a;
      SubsetCount(a - {x}, b - {x});
    }
  }

  lemma Cancel<T>(a: multiset<T>, b: multiset<T>, c: multiset<T>)
    requires a + c == b + c
    ensures a == b
  {
    forall x: T ensures a[x] == b[x] {
      assert (a + c)[x] == (b + c)[x];
    }
  }

  lemma Larger<T>(a: multiset<T>, b: multiset<T>)
    requires a <= b
    ensures |a| <= |b|
  {
    assert b == a + (b - a);
  }

  lemma Regroup<T>(p: multiset<T>, a: multiset<T>, b: multiset<T>, c: multiset<T>, ac: multiset<T>, bc: multiset<T>)
    requires p == a + bc && bc == b + c && ac == a + c
    ensures p == b + ac
  {
  }

  /** All elements of the multisets that a map holds. */
  ghost function Bag<K, T>(m: map<K, multiset<T>>): multiset<T> {
    if m == map[] then multiset{}
    else
      var k :| k in m;
      m[k] + Bag(m - {k})
  }

  lemma {:induction false} BagAny<K, T>(m: map<K, multiset<T>>, k: K)
    requires k in m
    ensures Bag(m) == m[k] + Bag(m - {k})
  {
    var first :| first in m && Bag(m) == m[first] + Bag(m - {first});
    if first != k {
      BagAny(m - {first}, k);
      BagAny(m - {k}, first);
      var rest := m - {first} - {k};
      assert rest == m - {k} - {first};
      Regroup(Bag(m), m[first], m[k], Bag(rest), Bag(m - {k}), Bag(m - {first}));
    }
  }

  lemma BagUpdate<K, T>(m: map<K, multiset<T>>, k: K, b: multiset<T>)
    ensures Bag(m[k := b]) == b + Bag(m - {k})
  {
    BagAny(m[k := b], k);
    assert m[k := b] - {k} == m - {k};
  }

  /** Another content under one key. */
  lemma BagChange<K, T>(m: map<K, multiset<T>>, k: K, b: multiset<T>)
    ensures Bag(m[k := b]) == b + Bag(m - {k})
    ensures Bag(m) == (if k in m then m[k] else multiset{}) + Bag(m - {k})
  {
    BagUpdate(m, k, b);
    if k in m {
      BagAny(m, k);
    } else {
      assert m - {k} == m;
    }
  }

  lemma BagLess<K, T>(m: map<K, multiset<T>>, k: K)
    ensures Bag(m - {k}) <= Bag(m)
  {
    if k in m {
      BagAny(m, k);
    } else {
      assert m - {k} == m;
    }
  }

  lemma {:induction false} BagIn<K, T>(m: map<K, multiset<T>>, x: T)
    ensures x in Bag(m) <==> exists k :: k in m && x in m[k]
  {
    if m == map[] {
    } else {
      var k :| k in m && Bag(m) == m[k] + Bag(m - {k});
      var rest := m - {k};
      BagIn(rest, x);
      assert forall j :: j in m <==> j == k || j in rest;
      assert forall j :: j in rest ==> rest[j] == m[j];
      assert k in m && (x in m[k] ==> exists j :: j in m && x in m[j]);
    }
  }

  lemma Associate<T>(x: seq<T>, y: seq<T>, z: seq<T>)
    ensures x + (y + z) == x + y + z
  {
  }

  /** Two maps without a common key. */
  lemma {:induction false} BagDisjoint<K, T>(m: map<K, multiset<T>>, n: map<K, multiset<T>>)
    requires m.Keys !! n.Keys
    ensures Bag(m + n) == Bag(m) + Bag(n)
  {
    if n == map[] {
      assert m + n == m;
    } else {
      var k :| k in n;
      var rest := n - {k};
      var both := m + n;
      assert both - {k} == m + rest && both[k] == n[k];
      BagDisjoint(m, rest);
      BagAny(n, k);
      BagAny(both, k);
      Regroup(Bag(both), n[k], Bag(m), Bag(rest), Bag(n), Bag(m + rest));
    }
  }
}
