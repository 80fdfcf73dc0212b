/** Python's ordering of `str` values (code point by code point) and
    `sorted()` over the keys of a dict. */
module StringOrder {

  /** `a <= b` on Python strings. */
  predicate LessEq(a: string, b: string)
    decreases |a|
  {
    |a| == 0 || (|b| > 0 && (a[0] < b[0] || (a[0] == b[0] && LessEq(a[1..], b[1..]))))
  }

  /** `a < b` on Python strings. */
  predicate Less(a: string, b: string) {
    LessEq(a, b) && a != b
  }

  /** Every element is strictly below every later one. */
  predicate StrictlySorted(r: seq<string>) {
    forall i, j :: 0 <= i < j < |r| ==> Less(r[i], r[j])
  }

  predicate IsLeast(m: string, s: set<string>) {
    m in s && forall x | x in s :: LessEq(m, x)
  }

  lemma {:induction false} Reflexive(a: string)
    ensures LessEq(a, a)
    decreases |a|
  {
    if |a| > 0 { Reflexive(a[1..]); }
  }

  lemma {:induction false} Antisymmetric(a: string, b: string)
    requires LessEq(a, b) && LessEq(b, a)
    ensures a == b
  {
    if |a| > 0 {
      Antisymmetric(a[1..], b[1..]);
      assert a == [a[0]] + a[1..] && b == [b[0]] + b[1..];
    }
  }

  lemma {:induction false} Total(a: string, b: string)
    ensures LessEq(a, b) || LessEq(b, a)
  {
    if |a| > 0 && |b| > 0 && a[0] == b[0] {
      Total(a[1..], b[1..]);
    }
  }

  lemma {:induction false} Transitive(a: string, b: string, c: string)
    requires LessEq(a, b) && LessEq(b, c)
    ensures LessEq(a, c)
  {
    if |a| > 0 && a[0] == b[0] && b[0] == c[0] {
      Transitive(a[1..], b[1..], c[1..]);
    }
  }

  lemma {:induction false} LeastExists(s: set<string>)
    requires s != {}
    ensures exists m :: IsLeast(m, s)
  {
    var x :| x in s;
    if s - {x} == {} {
      assert s == {x};
      Reflexive(x);
      assert IsLeast(x, s);
    } else {
      LeastExists(s - {x});
      var m :| IsLeast(m, s - {x});
      Total(x, m);
      if LessEq(x, m) {
        forall y | y in s ensures LessEq(x, y) {
          if y != x { Transitive(x, m, y); } else { Reflexive(x); }
        }
        assert IsLeast(x, s);
      } else {
        assert IsLeast(m, s);
      }
    }
  }

  lemma LeastUnique(s: set<string>)
    ensures forall m, n :: IsLeast(m, s) && IsLeast(n, s) ==> m == n
  {
    forall m, n | IsLeast(m, s) && IsLeast(n, s) ensures m == n {
      Antisymmetric(m, n);
    }
  }

  /** `sorted(d)` for a dict with keys `s`: every key once, in ascending order. */
  function SortedKeys(s: set<string>): (r: seq<string>)
    ensures |r| == |s|
    ensures forall k :: k in r <==> k in s
    ensures StrictlySorted(r)
    decreases |s|
  {
    if s == {} then []
    else
      LeastExists(s);
      LeastUnique(s);
      var m :| IsLeast(m, s);
      var rest := SortedKeys(s - {m});
      assert forall j :: 0 <= j < |rest| ==> Less(m, rest[j]) by {
        forall j | 0 <= j < |rest| ensures Less(m, rest[j]) {
          assert rest[j] in rest;
        }
      }
      [m] + rest
  }

  /** A strictly sorted sequence is determined by its elements. */
  lemma {:induction false} SortedUnique(a: seq<string>, b: seq<string>)
    requires StrictlySorted(a) && StrictlySorted(b)
    requires forall k :: k in a <==> k in b
    ensures a == b
  {
    assert a != [] ==> a[0] in b;
    assert b != [] ==> b[0] in a;
    if a != [] && b != [] {
      var i :| 0 <= i < |a| && a[i] == b[0];
      var j :| 0 <= j < |b| && b[j] == a[0];
      if i != 0 && j != 0 {
        Antisymmetric(a[0], b[0]);
      }
      forall k ensures k in a[1..] <==> k in b[1..] {
        if k in a[1..] {
          var p :| 1 <= p < |a| && a[p] == k;
          assert k in b;
        }
        if k in b[1..] {
          var q :| 1 <= q < |b| && b[q] == k;
          assert k in a;
        }
      }
      SortedUnique(a[1..], b[1..]);
      assert a == [a[0]] + a[1..] && b == [b[0]] + b[1..];
    }
  }

  /** So sorting the elements of a sorted sequence gives it back. */
  lemma SortedKeysOfSorted(r: seq<string>, s: set<string>)
    requires StrictlySorted(r)
    requires forall k :: k in r <==> k in s
    ensures SortedKeys(s) == r
  {
    SortedUnique(SortedKeys(s), r);
  }

  /** A common prefix does not change the order. */
  lemma {:induction false} PrefixLessEq(p: string, a: string, b: string)
    ensures LessEq(p + a, p + b) <==> LessEq(a, b)
    decreases |p|
  {
    if |p| == 0 {
      assert p + a == a && p + b == b;
    } else {
      assert (p + a)[0] == p[0] == (p + b)[0];
      assert (p + a)[1..] == p[1..] + a;
      assert (p + b)[1..] == p[1..] + b;
      PrefixLessEq(p[1..], a, b);
    }
  }

  /** Strings that first differ at their first character. */
  lemma FirstCharLess(a: string, b: string)
    requires |a| > 0 && |b| > 0 && a[0] < b[0]
    ensures Less(a, b)
  {
  }

  /** `Less` is transitive. */
  lemma LessTransitive(a: string, b: string, c: string)
    requires Less(a, b) && Less(b, c)
    ensures Less(a, c)
  {
    Transitive(a, b, c);
    if a == c {
      Antisymmetric(b, c);
    }
  }

  /** A sequence whose neighbours are in order is strictly sorted. */
  lemma {:induction false} ChainSorted(r: seq<string>)
    requires forall i :: 0 <= i < |r| - 1 ==> Less(r[i], r[i + 1])
    ensures StrictlySorted(r)
  {
    if |r| > 1 {
      ChainSorted(r[1..]);
      forall j | 0 < j < |r| ensures Less(r[0], r[j]) {
        if j > 1 {
          assert Less(r[1..][0], r[1..][j - 1]);
          LessTransitive(r[0], r[1], r[j]);
        }
      }
      forall i, j | 0 <= i < j < |r| ensures Less(r[i], r[j]) {
        if i > 0 {
          assert Less(r[1..][i - 1], r[1..][j - 1]);
        }
      }
    }
  }

  /** Two strings that first differ at position n are ordered by that
      position. */
  lemma {:induction false} LessAt(a: string, b: string, n: nat)
    requires n < |a| && n < |b| && a[..n] == b[..n] && a[n] < b[n]
    ensures Less(a, b)
    decreases n
  {
    if n > 0 {
      assert a[1..][..n - 1] == a[..n][1..] && b[1..][..n - 1] == b[..n][1..];
      LessAt(a[1..], b[1..], n - 1);
    }
  }

  /** A proper prefix is below the longer string. */
  lemma {:induction false} ProperPrefixLess(a: string, b: string)
    requires |a| < |b| && b[..|a|] == a
    ensures Less(a, b)
    decreases |a|
  {
    if |a| > 0 {
      assert b[1..][..|a| - 1] == a[1..];
      ProperPrefixLess(a[1..], b[1..]);
    }
  }
}
