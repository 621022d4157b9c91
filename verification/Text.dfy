/**
 Strings as the program compares and prints them: byte-wise ordering, decimal
 numbers with and without zero padding, and names assembled from separators.
 */
module Text {

  // ---------------------------------------------------------------------
  // Ordering
  // ---------------------------------------------------------------------

  /** Go's `<` on strings: the first difference decides, a proper prefix is smaller. */
  predicate Less(a: string, b: string) {
    if b == "" then false
    else if a == "" then true
    else if a[0] != b[0] then a[0] < b[0]
    else Less(a[1..], b[1..])
  }

  lemma {:induction false} LessIrreflexive(a: string)
    ensures !Less(a, a)
  {
    if a == "" {
    } else {
      LessIrreflexive(a[1..]);
    }
  }

  lemma {:induction false} LessTransitive(a: string, b: string, c: string)
    requires Less(a, b) && Less(b, c)
    ensures Less(a, c)
  {
    if a != "" && a[0] == b[0] && b[0] == c[0] { LessTransitive(a[1..], b[1..], c[1..]); }
  }

  lemma {:induction false} LessTotal(a: string, b: string)
    ensures Less(a, b) || a == b || Less(b, a)
  {
    if a != "" && b != "" && a[0] == b[0] {
      LessTotal(a[1..], b[1..]);
      assert a == [a[0]] + a[1..] && b == [b[0]] + b[1..];
    }
  }

  lemma LessAsymmetric(a: string, b: string)
    requires Less(a, b)
    ensures !Less(b, a) && a != b
  {
    LessIrreflexive(a);
    if Less(b, a) { LessTransitive(a, b, a); }
  }

  /** A common prefix does not influence the order. */
  lemma {:induction false} LessCommonPrefix(p: string, a: string, b: string)
    ensures Less(p + a, p + b) == Less(a, b)
  {
    if p == "" {
      assert p + a == a && p + b == b;
    } else {
      LessCommonPrefix(p[1..], a, b);
      assert (p + a)[1..] == p[1..] + a && (p + b)[1..] == p[1..] + b;
    }
  }

  /** Between strings of equal length, nothing appended later can change the order. */
  lemma {:induction false} LessExtend(a: string, b: string, x: string, y: string)
    requires |a| == |b| && Less(a, b)
    ensures Less(a + x, b + y)
  {
    assert (a + x)[0] == a[0] && (b + y)[0] == b[0];
    if a[0] == b[0] {
      LessExtend(a[1..], b[1..], x, y);
      assert (a + x)[1..] == a[1..] + x && (b + y)[1..] == b[1..] + y;
    }
  }

  // ---------------------------------------------------------------------
  // Sorting
  // ---------------------------------------------------------------------

  /** Strictly ascending, hence free of duplicates. */
  ghost predicate Ascending(s: seq<string>) {
    forall i, j :: 0 <= i < j < |s| ==> Less(s[i], s[j])
  }

  /** Ascending follows from the order of neighbours alone. */
  lemma {:induction false} AscendingFromNeighbours(s: seq<string>)
    requires forall i :: 0 <= i < |s| - 1 ==> Less(s[i], s[i + 1])
    ensures Ascending(s)
  {
    if |s| > 1 {
      var t := s[..|s| - 1];
      AscendingFromNeighbours(t);
      forall i, j | 0 <= i < j < |s| ensures Less(s[i], s[j]) {
        if j < |s| - 1 {
          assert Less(t[i], t[j]);
        } else if i < j - 1 {
          assert Less(t[i], t[j - 1]);
          LessTransitive(s[i], s[j - 1], s[j]);
        }
      }
    }
  }

  function Insert(x: string, s: seq<string>): seq<string> {
    if s == [] then [x]
    else if Less(s[0], x) then [s[0]] + Insert(x, s[1..])
    else [x] + s
  }

  /** `sort.Strings`. */
  function Sort(s: seq<string>): seq<string> {
    if s == [] then [] else Insert(s[0], Sort(s[1..]))
  }

  lemma {:induction false} InsertAscending(x: string, s: seq<string>)
    requires Ascending(s) && x !in s
    ensures Ascending(Insert(x, s))
    ensures forall y :: y in Insert(x, s) <==> y == x || y in s
  {
    if s == [] {
    } else {
      if Less(s[0], x) {
        InsertAscending(x, s[1..]);
        var t := Insert(x, s[1..]);
        forall j | 0 <= j < |t| ensures Less(s[0], t[j]) {
          assert t[j] in t;
        }
      } else {
        LessTotal(s[0], x);
        forall j | 0 <= j < |s| ensures Less(x, s[j]) {
          if j > 0 { LessTransitive(x, s[0], s[j]); }
        }
      }
    }
  }

  /** Sorting distinct strings gives an ascending sequence of the same strings. */
  lemma {:induction false} SortSpec(s: seq<string>)
    requires forall i, j :: 0 <= i < j < |s| ==> s[i] != s[j]
    ensures Ascending(Sort(s))
    ensures forall y :: y in Sort(s) <==> y in s
  {
    if s == [] {
    } else {
      SortSpec(s[1..]);
      assert s[0] !in s[1..];
      InsertAscending(s[0], Sort(s[1..]));
      assert forall y :: y in s <==> y == s[0] || y in s[1..];
    }
  }

  /** There is only one ascending arrangement of a set of strings. */
  lemma {:induction false} AscendingUnique(s: seq<string>, t: seq<string>)
    requires Ascending(s) && Ascending(t)
    requires forall y :: y in s <==> y in t
    ensures s == t
  {
    if t == [] {
    } else {
      assert t[0] in t;
    }
    if s == [] {
    } else {
      assert s[0] in s && s[0] in t;
      var i :| 0 <= i < |t| && t[i] == s[0];
      assert t[0] in t && t[0] in s;
      var j :| 0 <= j < |s| && s[j] == t[0];
      if i > 0 && j > 0 { LessAsymmetric(s[0], s[j]); }
      if i == 0 || j == 0 { assert s[0] == t[0]; }
      assert s[0] == t[0];
      LessIrreflexive(s[0]);
      forall y ensures y in s[1..] <==> y in t[1..] {
        if y in s[1..] {
          var k :| 1 <= k < |s| && s[k] == y;
          assert y in s && y in t && y != t[0];
        }
        if y in t[1..] {
          var k :| 1 <= k < |t| && t[k] == y;
          assert y in t && y in s && y != s[0];
        }
      }
      AscendingUnique(s[1..], t[1..]);
      assert s == [s[0]] + s[1..] && t == [t[0]] + t[1..];
    }
  }

  // ---------------------------------------------------------------------
  // Decimal numbers
  // ---------------------------------------------------------------------

  predicate IsDigit(c: char) { '0' <= c <= '9' }

  predicate AllDigits(s: string) {
    forall i :: 0 <= i < |s| ==> IsDigit(s[i])
  }

  function DigitChar(d: nat): (c: char)
    requires d < 10
    ensures IsDigit(c)
  {
    "0123456789"[d]
  }

  function Pow10(k: nat): (p: nat)
    ensures p > 0
  {
    if k == 0 then 1 else 10 * Pow10(k - 1)
  }

  /** The `w` low-order decimal digits of `n`. */
  function Fixed(n: nat, w: nat): (s: string)
    ensures |s| == w && AllDigits(s)
  {
    if w == 0 then "" else Fixed(n / 10, w - 1) + [DigitChar(n % 10)]
  }

  /** The number a string of digits denotes. */
  function Value(s: string): nat
    requires AllDigits(s)
  {
    if s == "" then 0
    else 10 * Value(s[..|s| - 1]) + (s[|s| - 1] as int - '0' as int)
  }

  lemma {:induction false} ValueFixed(n: nat, w: nat)
    requires n < Pow10(w)
    ensures Value(Fixed(n, w)) == n
  {
    if w == 0 {
    } else {
      ValueFixed(n / 10, w - 1);
      var s := Fixed(n, w);
      assert s[..|s| - 1] == Fixed(n / 10, w - 1);
      assert DigitChar(n % 10) as int - '0' as int == n % 10;
    }
  }

  /** How many decimal digits `%d` prints. */
  function Width(n: nat): (w: nat)
    ensures w > 0 && n < Pow10(w)
  {
    if n < 10 then assert Pow10(1) == 10; 1 else 1 + Width(n / 10)
  }

  /** `%d` of a non-negative number. */
  function Decimal(n: nat): (s: string)
    ensures s != "" && AllDigits(s)
  {
    Fixed(n, Width(n))
  }

  lemma DecimalInjective(m: nat, n: nat)
    requires Decimal(m) == Decimal(n)
    ensures m == n
  {
    ValueFixed(m, Width(m));
    ValueFixed(n, Width(n));
  }

  function PaddedWidth(n: nat): nat {
    if Width(n) < 6 then 6 else Width(n)
  }

  /** `%06d`. */
  function Padded(n: nat): string {
    Fixed(n, PaddedWidth(n))
  }

  /** At a fixed width the string order is the numeric order. */
  lemma {:induction false} FixedOrder(m: nat, n: nat, w: nat)
    requires m < n < Pow10(w)
    ensures Less(Fixed(m, w), Fixed(n, w))
  {
    var a, b := Fixed(m / 10, w - 1), Fixed(n / 10, w - 1);
    if m / 10 < n / 10 {
      FixedOrder(m / 10, n / 10, w - 1);
      LessExtend(a, b, [DigitChar(m % 10)], [DigitChar(n % 10)]);
    } else {
      assert m / 10 == n / 10;
      LessCommonPrefix(a, [DigitChar(m % 10)], [DigitChar(n % 10)]);
    }
  }

  lemma {:induction false} WidthBounds(n: nat, k: nat)
    ensures n < Pow10(k) && k > 0 ==> Width(n) <= k
    ensures n >= Pow10(k) ==> Width(n) > k
  {
    if n < 10 {
      if k > 0 { Pow10Grows(1, k); }
    } else if k > 0 {
      WidthBounds(n / 10, k - 1);
      if k == 1 { assert Pow10(1) == 10; }
    }
  }

  lemma {:induction false} Pow10Grows(j: nat, k: nat)
    requires j <= k
    ensures Pow10(j) <= Pow10(k)
  {
    if j < k { Pow10Grows(j, k - 1); }
  }

  /** `%06d` keeps the numeric order below one million. */
  lemma PaddedOrder(m: nat, n: nat)
    requires m < n < 1_000_000
    ensures Less(Padded(m), Padded(n))
  {
    MillionIsPow10();
    WidthBounds(m, 6);
    WidthBounds(n, 6);
    SameWidthOrder(m, n);
  }

  lemma SameWidthOrder(m: nat, n: nat)
    requires m < n && PaddedWidth(m) == PaddedWidth(n)
    ensures Less(Padded(m), Padded(n))
  {
    Pow10Grows(Width(n), PaddedWidth(n));
    FixedOrder(m, n, PaddedWidth(n));
  }

  lemma MillionIsPow10()
    ensures Pow10(6) == 1_000_000
  {
    assert Pow10(1) == 10;
    assert Pow10(2) == 100;
    assert Pow10(3) == 1000;
    assert Pow10(4) == 10_000;
    assert Pow10(5) == 100_000;
  }

  /** A number that `%06d` prints one character longer than its predecessor. */
  ghost predicate Overflows(n: nat) {
    exists k: nat :: k >= 6 && n == Pow10(k)
  }

  /**
   The exact reach of `%06d` as a sort key: a number sorts before its successor
   unless the successor needs a seventh, eighth, ... digit for the first time.
   */
  lemma PaddedSuccessor(n: nat)
    ensures Less(Padded(n), Padded(n + 1)) <==> !Overflows(n + 1)
    ensures !Overflows(n + 1) ==> |Padded(n)| == |Padded(n + 1)|
    ensures Overflows(n + 1) ==>
      |Padded(n)| > 0 && Padded(n)[0] == '9' && |Padded(n + 1)| > 0 && Padded(n + 1)[0] == '1'
  {
    MillionIsPow10();
    var w := Width(n);
    WidthBounds(n, 6);
    WidthBounds(n + 1, 6);
    if n + 1 < Pow10(6) {
      PaddedOrder(n, n + 1);
      if Overflows(n + 1) {
        var k: nat :| k >= 6 && n + 1 == Pow10(k);
        Pow10Grows(6, k);
      }
    } else if n + 1 == Pow10(w) {
      Pow10Exceeds(6, w, n + 1);
      SuccessorOverflow(n, w);
    } else {
      WidthBounds(n + 1, w);
      WidthLower(n);
      if w > 1 { WidthBounds(n + 1, w - 1); }
      assert Width(n + 1) == w;
      SameWidthOrder(n, n + 1);
      if Overflows(n + 1) {
        var k: nat :| k >= 6 && n + 1 == Pow10(k);
        if k < w { Pow10Step(k, w); WidthLower(n); } else { Pow10Grows(w, k); }
        assert false;
      }
    }
  }

  lemma Pow10Step(j: nat, k: nat)
    requires j < k
    ensures 10 * Pow10(j) <= Pow10(k)
  {
    Pow10Grows(j, k - 1);
  }

  lemma Pow10Exceeds(j: nat, k: nat, n: nat)
    requires Pow10(j) <= n == Pow10(k)
    ensures j <= k
  {
    if k < j { Pow10Step(k, j); }
  }

  lemma {:induction false} WidthLower(n: nat)
    ensures n >= 10 ==> Pow10(Width(n) - 1) <= n
  {
    if n >= 10 {
      WidthLower(n / 10);
      if n / 10 < 10 { assert Pow10(1) == 10; }
    }
  }

  lemma SuccessorOverflow(n: nat, w: nat)
    requires w == Width(n) && w >= 6 && n + 1 == Pow10(w)
    ensures !Less(Padded(n), Padded(n + 1)) && Overflows(n + 1)
    ensures Padded(n)[0] == '9' && Padded(n + 1)[0] == '1'
  {
    WidthBounds(n + 1, w);
    NextWidth(n, w);
    Nines(n, w);
    var a, b := Padded(n), Padded(n + 1);
    assert a[0] == '9';
    LeadingOne(w);
    assert b[0] == '1';
  }

  lemma NextWidth(n: nat, w: nat)
    requires n + 1 == Pow10(w) && w > 0
    ensures Width(n + 1) == w + 1
  {
    WidthBounds(n + 1, w);
    WidthBounds(n + 1, w + 1);
  }

  lemma {:induction false} Nines(n: nat, w: nat)
    requires n + 1 == Pow10(w) && w > 0
    ensures Fixed(n, w)[0] == '9'
  {
    if w > 1 {
      Nines(n / 10, w - 1);
    } else {
      assert n == 9;
      assert Fixed(n, 1) == Fixed(0, 0) + ['9'];
    }
  }

  lemma {:induction false} LeadingOne(k: nat)
    ensures Fixed(Pow10(k), k + 1)[0] == '1'
  {
    if k > 0 { LeadingOne(k - 1); }
  }

  // ---------------------------------------------------------------------
  // Names assembled from a separator and a number
  // ---------------------------------------------------------------------

  /** Two texts that continue with the same separator, absent from both heads, agree on both parts. */
  lemma {:induction false} SplitAtSeparator(a: string, x: string, b: string, y: string, sep: char)
    requires sep !in a && sep !in b
    requires a + [sep] + x == b + [sep] + y
    ensures a == b && x == y
  {
    var s, t := a + [sep] + x, b + [sep] + y;
    assert s[|a|] == sep && t[|b|] == sep;
    assert forall i :: 0 <= i < |a| ==> s[i] == a[i];
    assert forall i :: 0 <= i < |b| ==> t[i] == b[i];
    assert |a| == |b|;
    assert a == s[..|a|] == t[..|a|] == b;
    assert x == s[|a| + 1..] == t[|a| + 1..] == y;
  }

  /** The same, reading from the right: digits after the last separator. */
  lemma {:induction false} SplitAtLastDash(a: string, m: string, b: string, n: string)
    requires AllDigits(m) && AllDigits(n)
    requires a + "-" + m == b + "-" + n
    ensures a == b && m == n
  {
    var s, t := a + "-" + m, b + "-" + n;
    assert s[|a|] == '-' && t[|b|] == '-';
    assert forall i :: |a| < i < |s| ==> s[i] == m[i - |a| - 1];
    assert forall i :: |b| < i < |t| ==> t[i] == n[i - |b| - 1];
    assert |a| == |b|;
    assert a == s[..|a|] == t[..|a|] == b;
    assert m == s[|a| + 1..] == t[|a| + 1..] == n;
  }
}
