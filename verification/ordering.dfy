/**
 * Python's ordering of `str` values (lexicographic by code point) and
 * `sorted(...)` applied to the names of a directory listing, which are
 * pairwise distinct.
 */
module Ordering {

  /** Python's `a < b` on strings. */
  predicate Below(a: string, b: string)
    decreases |a|
  {
    if |a| == 0 then |b| > 0
    else if |b| == 0 then false
    else if a[0] != b[0] then a[0] < b[0]
    else Below(a[1..], b[1..])
  }

  lemma {:induction false} BelowIrreflexive(a: string)
    ensures !Below(a, a)
  {
    if |a| > 0 {
      BelowIrreflexive(a[1..]);
    }
  }

  lemma {:induction false} BelowTransitive(a: string, b: string, c: string)
    requires Below(a, b) && Below(b, c)
    ensures Below(a, c)
    decreases |a|
  {
    if |a| > 0 && |b| > 0 && |c| > 0 && a[0] == b[0] && b[0] == c[0] {
      BelowTransitive(a[1..], b[1..], c[1..]);
    }
  }

  lemma {:induction false} BelowTotal(a: string, b: string)
    ensures a == b || Below(a, b) || Below(b, a)
    decreases |a|
  {
    if |a| > 0 && |b| > 0 && a[0] == b[0] {
      BelowTotal(a[1..], b[1..]);
      if a[1..] == b[1..] {
        assert a == [a[0]] + a[1..] && b == [b[0]] + b[1..];
      }
    }
  }

  /** Two strings of equal length keep their order whatever is appended to each. */
  lemma {:induction false} BelowExtend(a: string, b: string, s: string, t: string)
    requires |a| == |b| && Below(a, b)
    ensures Below(a + s, b + t)
    decreases |a|
  {
    assert (a + s)[0] == a[0] && (b + t)[0] == b[0];
    if a[0] == b[0] {
      assert (a + s)[1..] == a[1..] + s && (b + t)[1..] == b[1..] + t;
      BelowExtend(a[1..], b[1..], s, t);
    }
  }

  /** A common prefix does not change the order. */
  lemma {:induction false} BelowCommonPrefix(p: string, s: string, t: string)
    ensures Below(p + s, p + t) <==> Below(s, t)
    decreases |p|
  {
    if |p| > 0 {
      assert (p + s)[1..] == p[1..] + s && (p + t)[1..] == p[1..] + t;
      BelowCommonPrefix(p[1..], s, t);
    } else {
      assert p + s == s && p + t == t;
    }
  }

  predicate StrictlySorted(s: seq<string>) {
    forall i, j :: 0 <= i < j < |s| ==> Below(s[i], s[j])
  }

  lemma BelowAsymmetric()
    ensures forall a, b :: Below(a, b) ==> !Below(b, a)
  {
    forall a, b | Below(a, b)
      ensures !Below(b, a)
    {
      if Below(b, a) {
        BelowTransitive(a, b, a);
        BelowIrreflexive(a);
      }
    }
  }

  /** Every non-empty finite set of strings has a least element. */
  lemma {:induction false} MinimumExists(s: set<string>)
    requires s != {}
    ensures exists m :: m in s && forall x :: x in s && x != m ==> Below(m, x)
    decreases |s|
  {
    var x :| x in s;
    if s != {x} {
      MinimumExists(s - {x});
      var m' :| m' in s - {x} && forall y :: y in s - {x} && y != m' ==> Below(m', y);
      BelowTotal(x, m');
      if Below(x, m') {
        forall y | y in s && y != x
          ensures Below(x, y)
        {
          if y != m' {
            BelowTransitive(x, m', y);
          }
        }
      } else {
        assert forall y :: y in s && y != m' ==> Below(m', y);
      }
    }
  }

  /** The least element of a non-empty finite set of strings. */
  function Minimum(s: set<string>): (m: string)
    requires s != {}
    ensures m in s
    ensures forall x :: x in s && x != m ==> Below(m, x)
  {
    MinimumExists(s);
    BelowAsymmetric();
    var m :| m in s && forall x :: x in s && x != m ==> Below(m, x);
    m
  }

  /** Python's `sorted(names)` for a collection of distinct names. */
  function SortedNames(s: set<string>): (r: seq<string>)
    ensures StrictlySorted(r)
    ensures forall x :: x in r <==> x in s
    ensures |r| == |s|
    decreases |s|
  {
    if s == {} then []
    else
      var m := Minimum(s);
      var rest := SortedNames(s - {m});
      assert forall k :: 0 <= k < |rest| ==> Below(m, rest[k]) by {
        forall k | 0 <= k < |rest|
          ensures Below(m, rest[k])
        {
          assert rest[k] in s - {m};
        }
      }
      [m] + rest
  }

  /** A strictly sorted sequence is determined by its elements. */
  lemma {:induction false} SortedUnique(a: seq<string>, b: seq<string>)
    requires StrictlySorted(a) && StrictlySorted(b)
    requires forall x :: x in a <==> x in b
    ensures a == b
    decreases |a|
  {
    EmptyTogether(a, b);
    if |a| > 0 {
      if a[0] != b[0] {
        assert a[0] in b;
        assert b[0] in a;
        var i :| 0 <= i < |a| && a[i] == b[0];
        var j :| 0 <= j < |b| && b[j] == a[0];
        assert i > 0 && j > 0;
        assert Below(a[0], b[0]) && Below(b[0], a[0]);
        BelowTransitive(a[0], b[0], a[0]);
        BelowIrreflexive(a[0]);
      }
      assert forall x :: x in a[1..] <==> x in b[1..] by {
        forall x
          ensures x in a[1..] ==> x in b[1..]
          ensures x in b[1..] ==> x in a[1..]
        {
          BelowIrreflexive(x);
          if x in a[1..] {
            var i :| 0 <= i < |a[1..]| && a[1..][i] == x;
            assert Below(a[0], a[i + 1]);
            assert x in a && x in b;
            var j :| 0 <= j < |b| && b[j] == x;
            assert j != 0;
            assert b[1..][j - 1] == x;
          }
          if x in b[1..] {
            var j :| 0 <= j < |b[1..]| && b[1..][j] == x;
            assert Below(b[0], b[j + 1]);
            assert x in b && x in a;
            var i :| 0 <= i < |a| && a[i] == x;
            assert i != 0;
            assert a[1..][i - 1] == x;
          }
        }
      }
      SortedUnique(a[1..], b[1..]);
      assert a == [a[0]] + a[1..] && b == [b[0]] + b[1..];
    }
  }

  lemma EmptyTogether(a: seq<string>, b: seq<string>)
    requires forall x :: x in a <==> x in b
    ensures |a| == 0 <==> |b| == 0
  {
    if |a| > 0 {
      assert a[0] in b;
    }
    if |b| > 0 {
      assert b[0] in a;
    }
  }
}
