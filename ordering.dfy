/**
 * Python's `sorted` on strings: lexicographic order on code points, where a
 * proper prefix comes first. `SortSet` is `sorted(some_set)` and `SortSeq` is
 * `sorted(some_list)`, which keeps duplicates.
 */
module Ordering {

  /** `a` is at most `b` in Python's string order. */
  predicate LexLe(a: string, b: string)
  {
    a == [] || (b != [] && (a[0] < b[0] || (a[0] == b[0] && LexLe(a[1..], b[1..]))))
  }

  /** `a` strictly precedes `b`. */
  predicate LexLt(a: string, b: string)
  {
    LexLe(a, b) && a != b
  }

  lemma LexLeAntisymmetric(a: string, b: string)
    requires LexLe(a, b) && LexLe(b, a)
    ensures a == b
  {
    if a != [] && b != [] && a[0] == b[0] {
      LexLeAntisymmetric(a[1..], b[1..]);
      assert a == [a[0]] + a[1..] && b == [b[0]] + b[1..];
    }
  }

  lemma LexLeTransitive(a: string, b: string, c: string)
    requires LexLe(a, b) && LexLe(b, c)
    ensures LexLe(a, c)
  {
    if a != [] && b != [] && c != [] && a[0] == b[0] == c[0] {
      LexLeTransitive(a[1..], b[1..], c[1..]);
    }
  }

  lemma LexLeTotal(a: string, b: string)
    ensures LexLe(a, b) || LexLe(b, a)
  {
    if a != [] && b != [] && a[0] == b[0] {
      LexLeTotal(a[1..], b[1..]);
    }
  }

  /** Antisymmetry for all pairs at once. */
  lemma AllAntisymmetric()
    ensures forall a, b :: LexLe(a, b) && LexLe(b, a) ==> a == b
  {
    forall a, b | LexLe(a, b) && LexLe(b, a) ensures a == b {
      LexLeAntisymmetric(a, b);
    }
  }

  /** `m` is a least element of `s`. */
  predicate IsLeast(m: string, s: set<string>)
  {
    m in s && forall y :: y in s ==> LexLe(m, y)
  }

  /** Every finite non-empty set of strings has a least element. */
  lemma {:induction false} LeastExists(s: set<string>)
    requires s != {}
    ensures exists m :: IsLeast(m, s)
    decreases |s|
  {
    var x :| x in s;
    if s == {x} {
      assert IsLeast(x, s) by { LexLeTotal(x, x); }
    } else {
      LeastExists(s - {x});
      var m :| IsLeast(m, s - {x});
      LexLeTotal(m, x);
      if LexLe(m, x) {
        assert IsLeast(m, s);
      } else {
        forall y | y in s ensures LexLe(x, y) {
          if y != x { LexLeTransitive(x, m, y); } else { LexLeTotal(x, x); }
        }
        assert IsLeast(x, s);
      }
    }
  }

  /** Every element strictly precedes every later element: sorted without duplicates. */
  predicate StrictlySorted(r: seq<string>)
  {
    forall i, j :: 0 <= i < j < |r| ==> LexLt(r[i], r[j])
  }

  /** Every element is at most every later element. */
  predicate Sorted(r: seq<string>)
  {
    forall i, j :: 0 <= i < j < |r| ==> LexLe(r[i], r[j])
  }

  /** The elements of `s` in ascending order, each once: Python's `sorted(s)` on a set. */
  function SortSet(s: set<string>): (r: seq<string>)
    ensures |r| == |s|
    ensures forall x :: x in r <==> x in s
    ensures StrictlySorted(r)
    decreases |s|
  {
    if s == {} then []
    else
      LeastExists(s);
      AllAntisymmetric();
      var m :| IsLeast(m, s);
      var rest := SortSet(s - {m});
      PrependLeast(m, s, rest);
      [m] + rest
  }

  /** The least element of `s` followed by the rest of `s` in strict order is `s` in strict order. */
  lemma PrependLeast(m: string, s: set<string>, rest: seq<string>)
    requires IsLeast(m, s)
    requires |rest| == |s - {m}| && (forall x :: x in rest <==> x in s - {m}) && StrictlySorted(rest)
    ensures |[m] + rest| == |s| && (forall x :: x in [m] + rest <==> x in s) && StrictlySorted([m] + rest)
  {
    AllAntisymmetric();
    var q := [m] + rest;
    forall i, j | 0 <= i < j < |q| ensures LexLt(q[i], q[j]) {
      if i == 0 {
        assert q[j] == rest[j - 1] && q[j] in s - {m};
      } else {
        assert q[i] == rest[i - 1] && q[j] == rest[j - 1];
      }
    }
  }

  /** Two strictly sorted sequences with the same elements are equal. */
  lemma {:induction false} StrictlySortedUnique(a: seq<string>, b: seq<string>)
    requires StrictlySorted(a) && StrictlySorted(b)
    requires forall x :: x in a <==> x in b
    ensures a == b
  {
    if a != [] { assert a[0] in b; }
    if b != [] { assert b[0] in a; }
    if a != [] && b != [] {
      assert a[0] == b[0] by {
        var ia :| 0 <= ia < |a| && a[ia] == b[0];
        var ib :| 0 <= ib < |b| && b[ib] == a[0];
        if a[0] != b[0] {
          assert LexLe(a[0], a[ia]) && LexLe(b[0], b[ib]);
          LexLeAntisymmetric(a[0], b[0]);
        }
      }
      forall x ensures x in a[1..] <==> x in b[1..] {
        if x in a[1..] {
          var k :| 1 <= k < |a| && a[k] == x;
          assert x in b;
          var kb :| 0 <= kb < |b| && b[kb] == x;
          assert kb != 0;
          assert b[1..][kb - 1] == x;
        }
        if x in b[1..] {
          var k :| 1 <= k < |b| && b[k] == x;
          assert x in a;
          var ka :| 0 <= ka < |a| && a[ka] == x;
          assert ka != 0;
          assert a[1..][ka - 1] == x;
        }
      }
      StrictlySortedUnique(a[1..], b[1..]);
      assert a == [a[0]] + a[1..] && b == [b[0]] + b[1..];
    }
  }

  /** Inserts `x` into the sorted sequence `r` after every element that precedes it. */
  function Insert(x: string, r: seq<string>): (q: seq<string>)
    requires Sorted(r)
    ensures Sorted(q)
    ensures multiset(q) == multiset(r) + multiset{x}
  {
    if r == [] then [x]
    else if LexLe(x, r[0]) then
      PrependSmallest(x, r);
      [x] + r
    else
      var rest := Insert(x, r[1..]);
      PrependHead(x, r, rest);
      [r[0]] + rest
  }

  /** An element at most the head of a sorted sequence can go in front of it. */
  lemma PrependSmallest(x: string, r: seq<string>)
    requires Sorted(r) && r != [] && LexLe(x, r[0])
    ensures Sorted([x] + r)
  {
    var q := [x] + r;
    forall i, j | 0 <= i < j < |q| ensures LexLe(q[i], q[j]) {
      if i == 0 {
        if j > 1 { LexLeTransitive(x, r[0], r[j - 1]); }
      } else {
        assert q[i] == r[i - 1] && q[j] == r[j - 1];
      }
    }
  }

  /** The head of a sorted sequence can go in front of its tail with `x` inserted, when `x` does not precede it. */
  lemma PrependHead(x: string, r: seq<string>, rest: seq<string>)
    requires Sorted(r) && r != [] && !LexLe(x, r[0])
    requires Sorted(rest) && multiset(rest) == multiset(r[1..]) + multiset{x}
    ensures Sorted([r[0]] + rest)
    ensures multiset([r[0]] + rest) == multiset(r) + multiset{x}
  {
    LexLeTotal(x, r[0]);
    var q := [r[0]] + rest;
    forall i, j | 0 <= i < j < |q| ensures LexLe(q[i], q[j]) {
      if i == 0 {
        assert q[j] == rest[j - 1] && rest[j - 1] in multiset(rest);
        assert rest[j - 1] == x || rest[j - 1] in r[1..];
        if rest[j - 1] != x {
          var k :| 0 <= k < |r[1..]| && r[1..][k] == rest[j - 1];
          assert r[k + 1] == rest[j - 1];
        }
      } else {
        assert q[i] == rest[i - 1] && q[j] == rest[j - 1];
      }
    }
    assert r == [r[0]] + r[1..];
  }

  /** Python's `sorted(xs)` on a list of strings: a sorted permutation of `xs`. */
  function SortSeq(xs: seq<string>): (r: seq<string>)
    ensures Sorted(r)
    ensures multiset(r) == multiset(xs)
  {
    if xs == [] then []
    else
      assert xs == xs[..|xs| - 1] + [xs[|xs| - 1]];
      Insert(xs[|xs| - 1], SortSeq(xs[..|xs| - 1]))
  }
}
