/** Python's ordering of strings (code point by code point, a proper prefix
    first) and `sorted(set(xs))`, which the processors use to order dates
    and account names. */
module Lex {

  /** `a < b` on Python strings. */
  predicate Less(a: string, b: string)
    decreases |a|
  {
    if |a| == 0 then |b| > 0
    else if |b| == 0 then false
    else if a[0] == b[0] then Less(a[1..], b[1..])
    else a[0] < b[0]
  }

  lemma {:induction false} LessIrreflexive(a: string)
    ensures !Less(a, a)
  {
    if |a| > 0 { LessIrreflexive(a[1..]); }
  }

  lemma {:induction false} LessTransitive(a: string, b: string, c: string)
    requires Less(a, b) && Less(b, c)
    ensures Less(a, c)
    decreases |a|
  {
    if |a| > 0 && a[0] == b[0] && b[0] == c[0] {
      LessTransitive(a[1..], b[1..], c[1..]);
    }
  }

  lemma {:induction false} LessTotal(a: string, b: string)
    ensures a == b || Less(a, b) || Less(b, a)
    decreases |a|
  {
    if |a| > 0 && |b| > 0 && a[0] == b[0] {
      LessTotal(a[1..], b[1..]);
      if a[1..] == b[1..] {
        assert a == [a[0]] + a[1..] && b == [b[0]] + b[1..];
      }
    }
  }

  lemma LessAsymmetric(a: string, b: string)
    requires Less(a, b)
    ensures !Less(b, a) && a != b
  {
    if Less(b, a) {
      LessTransitive(a, b, a);
      LessIrreflexive(a);
    }
    LessIrreflexive(a);
  }

  /** Strictly increasing: the shape of `sorted(set(...))`. */
  predicate StrictlySorted(s: seq<string>) {
    forall i, j :: 0 <= i < j < |s| ==> Less(s[i], s[j])
  }

  /** Insert `x` into a strictly sorted sequence, keeping it strictly sorted
      and free of duplicates. */
  function Insert(x: string, s: seq<string>): (r: seq<string>)
    requires StrictlySorted(s)
    ensures StrictlySorted(r)
    ensures forall y :: y in r <==> y == x || y in s
  {
    if s == [] then [x]
    else if x == s[0] then s
    else if Less(x, s[0]) then
      assert forall j :: 0 <= j < |s| ==> Less(x, s[j]) by {
        forall j | 0 < j < |s| ensures Less(x, s[j]) { LessTransitive(x, s[0], s[j]); }
      }
      [x] + s
    else
      LessTotal(x, s[0]);
      var t := Insert(x, s[1..]);
      assert forall y :: y in t ==> Less(s[0], y);
      [s[0]] + t
  }

  /** `sorted(set(xs))` */
  function SortedSet(xs: seq<string>): (r: seq<string>)
    ensures StrictlySorted(r)
    ensures forall y :: y in r <==> y in xs
  {
    if xs == [] then [] else Insert(xs[|xs| - 1], SortedSet(xs[..|xs| - 1]))
  }

  /** Two strictly sorted sequences with the same elements are equal, so
      `SortedSet` depends only on the set of its input. */
  lemma {:induction false} SortedUnique(a: seq<string>, b: seq<string>)
    requires StrictlySorted(a) && StrictlySorted(b)
    requires forall y :: y in a <==> y in b
    ensures a == b
  {
    assert a != [] ==> a[0] in b;
    assert b != [] ==> b[0] in a;
    if a != [] && b != [] {
      if a[0] != b[0] {
        assert a[0] in b;
        assert b[0] in a;
        var i :| 0 <= i < |b| && b[i] == a[0];
        var j :| 0 <= j < |a| && a[j] == b[0];
        assert Less(b[0], a[0]) by { LessAsymmetric(b[0], b[i]); }
        assert Less(a[0], b[0]) by { LessAsymmetric(a[0], a[j]); }
        LessAsymmetric(a[0], b[0]);
      }
      forall y ensures y in a[1..] <==> y in b[1..] {
        if y in a[1..] {
          var k :| 1 <= k < |a| && a[k] == y;
          LessAsymmetric(a[0], a[k]);
          assert y in b && y != b[0];
          assert b == [b[0]] + b[1..];
        }
        if y in b[1..] {
          var k :| 1 <= k < |b| && b[k] == y;
          LessAsymmetric(b[0], b[k]);
          assert y in a && y != a[0];
          assert a == [a[0]] + a[1..];
        }
      }
      SortedUnique(a[1..], b[1..]);
    }
  }

  /** `max(xs)` on a non-empty sequence of strings. */
  function Max(xs: seq<string>): (m: string)
    requires xs != []
    ensures m in xs
    ensures forall y :: y in xs ==> y == m || Less(y, m)
  {
    if |xs| == 1 then xs[0]
    else
      var m := Max(xs[1..]);
      LessTotal(xs[0], m);
      if Less(m, xs[0]) then
        assert forall y :: y in xs[1..] ==> y == m || Less(y, xs[0]) by {
          forall y | y in xs[1..] && y != m ensures Less(y, xs[0]) { LessTransitive(y, m, xs[0]); }
        }
        xs[0]
      else m
  }

  /** Non-decreasing: the shape of `sorted(xs)` when `xs` may repeat. */
  predicate Sorted(s: seq<string>) {
    forall i, j :: 0 <= i < j < |s| ==> !Less(s[j], s[i])
  }

  /** Insert `x` before the first element greater than it. */
  function InsertSorted(x: string, s: seq<string>): (r: seq<string>)
    ensures multiset(r) == multiset(s) + multiset{x}
  {
    if s == [] then [x]
    else if Less(s[0], x) then
      assert s == [s[0]] + s[1..];
      [s[0]] + InsertSorted(x, s[1..])
    else [x] + s
  }

  /** A sorted sequence with an element no greater than any of it in front. */
  lemma SortedCons(a: string, t: seq<string>)
    requires Sorted(t) && forall y :: y in t ==> !Less(y, a)
    ensures Sorted([a] + t)
  {
    forall i, j | 0 <= i < j < |[a] + t| ensures !Less(([a] + t)[j], ([a] + t)[i]) {
      if i > 0 { assert ([a] + t)[i] == t[i - 1]; }
      assert ([a] + t)[j] == t[j - 1];
    }
  }

  lemma {:induction false} InsertSortedSorted(x: string, s: seq<string>)
    requires Sorted(s)
    ensures Sorted(InsertSorted(x, s))
  {
    if s == [] {
    } else if Less(s[0], x) {
      var t := InsertSorted(x, s[1..]);
      assert Sorted(s[1..]) by {
        forall i, j | 0 <= i < j < |s[1..]| ensures !Less(s[1..][j], s[1..][i]) {
          assert s[1..][i] == s[i + 1] && s[1..][j] == s[j + 1];
        }
      }
      InsertSortedSorted(x, s[1..]);
      forall y | y in t ensures !Less(y, s[0]) {
        assert y in multiset(t);
        if y != x {
          assert y in multiset(s[1..]);
          var j :| 0 <= j < |s[1..]| && s[1..][j] == y;
          assert s[j + 1] == y;
        } else {
          LessAsymmetric(s[0], x);
        }
      }
      SortedCons(s[0], t);
    } else {
      forall y | y in s ensures !Less(y, x) {
        var j :| 0 <= j < |s| && s[j] == y;
        LessTotal(s[0], x);
        if j > 0 && Less(y, x) {
          LessTotal(s[0], y);
          if Less(s[0], y) { LessTransitive(s[0], y, x); }
        }
      }
      SortedCons(x, s);
    }
  }

  /** `sorted(xs)`: the same elements, as often, in non-decreasing order. */
  function Sort(xs: seq<string>): (r: seq<string>)
    ensures Sorted(r)
    ensures multiset(r) == multiset(xs)
  {
    if xs == [] then []
    else
      assert xs == xs[..|xs| - 1] + [xs[|xs| - 1]];
      var t := Sort(xs[..|xs| - 1]);
      InsertSortedSorted(xs[|xs| - 1], t);
      InsertSorted(xs[|xs| - 1], t)
  }

  /** The last element of a sorted sequence is its greatest. */
  lemma SortedLast(s: seq<string>)
    requires Sorted(s) && s != []
    ensures forall y :: y in s ==> y == s[|s| - 1] || Less(y, s[|s| - 1])
  {
    forall y | y in s ensures y == s[|s| - 1] || Less(y, s[|s| - 1]) {
      var j :| 0 <= j < |s| && s[j] == y;
      LessTotal(y, s[|s| - 1]);
    }
  }

  /** `max` depends only on the elements. */
  lemma MaxSameElements(xs: seq<string>, ys: seq<string>)
    requires xs != [] && ys != []
    requires forall y :: y in xs <==> y in ys
    ensures Max(xs) == Max(ys)
  {
    var a, b := Max(xs), Max(ys);
    if a != b {
      assert Less(a, b) && Less(b, a);
      LessAsymmetric(a, b);
    }
  }

  /** Strings of equal length compare by their first difference, so what
      follows them does not matter. */
  lemma {:induction false} LessSameLength(a: string, b: string, s: string, t: string)
    requires |a| == |b| && Less(a, b)
    ensures Less(a + s, b + t)
    decreases |a|
  {
    if a[0] == b[0] {
      assert (a + s)[1..] == a[1..] + s && (b + t)[1..] == b[1..] + t;
      LessSameLength(a[1..], b[1..], s, t);
    }
  }
}
