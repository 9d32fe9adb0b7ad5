/** Order-preserving filtering of sequences, the shape of `Array.prototype.filter`. */
module Seqs {

  /** `a` can be obtained from `b` by deleting elements, keeping the order of the rest. */
  predicate IsSubsequence<T(==)>(a: seq<T>, b: seq<T>)
    decreases |b|
  {
    || |a| == 0
    || (&& |b| > 0
        && (|| (a[0] == b[0] && IsSubsequence(a[1..], b[1..]))
            || IsSubsequence(a, b[1..])))
  }

  /** No element occurs twice. */
  predicate NoDuplicates<T(==)>(s: seq<T>)
  {
    forall i, j :: 0 <= i < j < |s| ==> s[i] != s[j]
  }

  /** The elements of `s` that satisfy `p`, in their original order. */
  function Filter<T(==,!new)>(p: T -> bool, s: seq<T>): (r: seq<T>)
    ensures |r| <= |s|
    ensures forall x :: multiset(r)[x] == if p(x) then multiset(s)[x] else 0
    ensures forall x :: x in r <==> x in s && p(x)
  {
    if |s| == 0 then []
    else
      assert s == [s[0]] + s[1..];
      if p(s[0]) then [s[0]] + Filter(p, s[1..]) else Filter(p, s[1..])
  }

  /** Filtering never reorders: the result is a subsequence of the input. */
  lemma {:induction false} FilterIsSubsequence<T(!new)>(p: T -> bool, s: seq<T>)
    ensures IsSubsequence(Filter(p, s), s)
  {
    if |s| > 0 {
      FilterIsSubsequence(p, s[1..]);
      if p(s[0]) {
        var r := Filter(p, s);
        assert r[0] == s[0] && r[1..] == Filter(p, s[1..]);
      }
    }
  }

  /** Filtering a duplicate-free sequence leaves it duplicate-free. */
  lemma {:induction false} FilterNoDuplicates<T(!new)>(p: T -> bool, s: seq<T>)
    ensures NoDuplicates(s) ==> NoDuplicates(Filter(p, s))
  {
    if |s| > 0 && NoDuplicates(s) {
      assert NoDuplicates(s[1..]) by {
        forall i, j | 0 <= i < j < |s[1..]| ensures s[1..][i] != s[1..][j] {
          assert s[1..][i] == s[i + 1] && s[1..][j] == s[j + 1];
        }
      }
      FilterNoDuplicates(p, s[1..]);
      if p(s[0]) {
        var t := Filter(p, s[1..]);
        assert s[0] !in s[1..];
        assert s[0] !in t;
        var r := [s[0]] + t;
        forall i, j | 0 <= i < j < |r| ensures r[i] != r[j] {
          if i == 0 {
            assert r[j] == t[j - 1];
          } else {
            assert r[i] == t[i - 1] && r[j] == t[j - 1];
          }
        }
      }
    }
  }

  /** Filtering distributes over concatenation. */
  lemma {:induction false} FilterAppend<T(!new)>(p: T -> bool, a: seq<T>, b: seq<T>)
    ensures Filter(p, a + b) == Filter(p, a) + Filter(p, b)
  {
    if |a| == 0 {
      assert a + b == b;
    } else {
      assert (a + b)[0] == a[0];
      assert (a + b)[1..] == a[1..] + b;
      FilterAppend(p, a[1..], b);
    }
  }

  /** A filter that every element passes changes nothing. */
  lemma {:induction false} FilterKeepsAll<T(!new)>(p: T -> bool, s: seq<T>)
    requires forall i :: 0 <= i < |s| ==> p(s[i])
    ensures Filter(p, s) == s
  {
    if |s| > 0 {
      FilterKeepsAll(p, s[1..]);
      assert s == [s[0]] + s[1..];
    }
  }

  /** Filtering twice by the same predicate is filtering once. */
  lemma FilterIdempotent<T(!new)>(p: T -> bool, s: seq<T>)
    ensures Filter(p, Filter(p, s)) == Filter(p, s)
  {
    var r := Filter(p, s);
    forall i | 0 <= i < |r| ensures p(r[i]) {
      assert r[i] in r;
    }
    FilterKeepsAll(p, r);
  }
}
