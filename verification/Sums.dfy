/** Sums over finite sets of names, in whatever order the elements are visited. */
module Sums {
  ghost function Sum(f: string -> int, s: set<string>): int {
    if s == {} then 0
    else
      var k :| k in s;
      f(k) + Sum(f, s - {k})
  }

  lemma {:induction false} SumAny(f: string -> int, s: set<string>, k: string)
    requires k in s
    ensures Sum(f, s) == f(k) + Sum(f, s - {k})
  {
    var first :| first in s && Sum(f, s) == f(first) + Sum(f, s - {first});
    if first != k {
      SumAny(f, s - {first}, k);
      SumAny(f, s - {k}, first);
      assert s - {first} - {k} == s - {k} - {first};
    }
  }

  lemma SumAdd(f: string -> int, s: set<string>, k: string)
    requires k !in s
    ensures Sum(f, s + {k}) == Sum(f, s) + f(k)
  {
    SumAny(f, s + {k}, k);
    assert s + {k} - {k} == s;
  }

  lemma {:induction false} SumSame(f: string -> int, g: string -> int, s: set<string>)
    requires forall k :: k in s ==> f(k) == g(k)
    ensures Sum(f, s) == Sum(g, s)
  {
    if s == {} {
    } else {
      var k :| k in s;
      SumAny(f, s, k);
      SumAny(g, s, k);
      SumSame(f, g, s - {k});
    }
  }

  lemma {:induction false} SumDisjoint(f: string -> int, a: set<string>, b: set<string>)
    requires a !! b
    ensures Sum(f, a + b) == Sum(f, a) + Sum(f, b)
  {
    if b == {} {
      assert a + b == a;
    } else {
      var k :| k in b;
      SumDisjoint(f, a, b - {k});
      SumAny(f, b, k);
      SumAny(f, a + b, k);
      assert a + b - {k} == a + (b - {k});
    }
  }

  /** Adding 1 for each of the chosen counts them. */
  lemma {:induction false} SumCounts(f: string -> int, s: set<string>, chosen: set<string>)
    requires chosen <= s && forall k :: k in s ==> f(k) == if k in chosen then 1 else 0
    ensures Sum(f, s) == |chosen|
  {
    if s == {} {
      assert chosen == {};
    } else {
      var k :| k in s;
      SumAny(f, s, k);
      SumCounts(f, s - {k}, chosen - {k});
      assert k !in chosen ==> chosen - {k} == chosen;
    }
  }

  ghost function Members(ids: set<string>, cell: string -> string, c: string): set<string> {
    set k | k in ids && cell(k) == c
  }

  ghost function PerCell(f: string -> int, ids: set<string>, cell: string -> string): string -> int {
    (c: string) => Sum(f, Members(ids, cell, c))
  }

  /** Summing group by group gives the same as summing all at once. */
  lemma {:induction false} SumGroups(f: string -> int, ids: set<string>, cell: string -> string, cells: set<string>)
    requires forall k :: k in ids ==> cell(k) in cells
    ensures Sum(PerCell(f, ids, cell), cells) == Sum(f, ids)
  {
    if cells == {} {
      assert ids == {};
    } else {
      var c :| c in cells;
      var here := Members(ids, cell, c);
      var rest := ids - here;
      SumAny(PerCell(f, ids, cell), cells, c);
      SumGroups(f, rest, cell, cells - {c});
      forall d | d in cells - {c} ensures PerCell(f, ids, cell)(d) == PerCell(f, rest, cell)(d) {
        assert Members(ids, cell, d) == Members(rest, cell, d);
      }
      SumSame(PerCell(f, ids, cell), PerCell(f, rest, cell), cells - {c});
      SumDisjoint(f, here, rest);
      assert here + rest == ids;
    }
  }
}
