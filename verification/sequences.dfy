/**
 * Sequence operations the handlers are built from: the `filter` of JavaScript
 * arrays and SQL `WHERE`, a stable sort for JavaScript's `sort` and SQL
 * `ORDER BY`, and SQL `LIMIT`.
 */
module Sequences {

  /** The elements of `s` that satisfy `keep`, in their original order. */
  function Filter<T(!new)>(s: seq<T>, keep: T -> bool): (r: seq<T>)
    ensures |r| <= |s|
    ensures forall x :: x in r <==> x in s && keep(x)
  {
    if s == [] then []
    else
      assert s == [s[0]] + s[1..];
      if keep(s[0]) then [s[0]] + Filter(s[1..], keep) else Filter(s[1..], keep)
  }

  /** Filtering one more element at the end. */
  lemma {:induction false} FilterSnoc<T(!new)>(s: seq<T>, x: T, keep: T -> bool)
    ensures Filter(s + [x], keep) == Filter(s, keep) + (if keep(x) then [x] else [])
  {
    var tail := if keep(x) then [x] else [];
    if s == [] {
      assert s + [x] == [x];
      assert [x][1..] == [];
      assert Filter([x], keep) == tail;
    } else {
      var t := s + [x];
      assert t[0] == s[0];
      assert t[1..] == s[1..] + [x];
      FilterSnoc(s[1..], x, keep);
      if keep(s[0]) {
        calc {
          Filter(t, keep);
          [s[0]] + Filter(s[1..] + [x], keep);
          [s[0]] + (Filter(s[1..], keep) + tail);
          ([s[0]] + Filter(s[1..], keep)) + tail;
          Filter(s, keep) + tail;
        }
      } else {
        calc {
          Filter(t, keep);
          Filter(s[1..] + [x], keep);
          Filter(s[1..], keep) + tail;
          Filter(s, keep) + tail;
        }
      }
    }
  }

  /** `le` is total and transitive: a comparator a sort can use. */
  ghost predicate TotalPreorder<T(!new)>(le: (T, T) -> bool)
  {
    && (forall a, b :: le(a, b) || le(b, a))
    && (forall a, b, c :: le(a, b) && le(b, c) ==> le(a, c))
  }

  /** Every element is `le` every later one. */
  ghost predicate SortedBy<T>(s: seq<T>, le: (T, T) -> bool)
  {
    forall i, j :: 0 <= i < j < |s| ==> le(s[i], s[j])
  }

  /** Puts `x` before the first element it is `le`; a sorted `s` stays sorted. */
  function Insert<T(!new)>(x: T, s: seq<T>, le: (T, T) -> bool): (r: seq<T>)
    requires TotalPreorder(le) && SortedBy(s, le)
    ensures multiset(r) == multiset(s) + multiset{x}
    ensures SortedBy(r, le)
  {
    if s == [] then [x]
    else if le(x, s[0]) then
      assert SortedBy([x] + s, le) by {
        forall i, j | 0 <= i < j < |[x] + s| ensures le(([x] + s)[i], ([x] + s)[j]) {
          if i == 0 && j > 1 { assert le(s[0], s[j - 1]); }
        }
      }
      [x] + s
    else
      var rest := Insert(x, s[1..], le);
      assert s == [s[0]] + s[1..];
      assert le(s[0], x);
      assert forall y :: y in rest ==> le(s[0], y) by {
        forall y | y in rest ensures le(s[0], y) {
          assert y in multiset(rest);
          if y != x {
            assert y in multiset(s[1..]);
            var k :| 0 <= k < |s[1..]| && s[1..][k] == y;
            assert s[k + 1] == y;
          }
        }
      }
      assert SortedBy([s[0]] + rest, le) by {
        forall i, j | 0 <= i < j < |[s[0]] + rest| ensures le(([s[0]] + rest)[i], ([s[0]] + rest)[j]) {
          if i == 0 { assert rest[j - 1] in rest; }
        }
      }
      [s[0]] + rest
  }

  /**
   * A stable insertion sort: the result is a permutation of `s`, ordered by `le`,
   * and elements `le` each other both ways keep their input order.
   */
  function SortBy<T(!new)>(s: seq<T>, le: (T, T) -> bool): (r: seq<T>)
    requires TotalPreorder(le)
    ensures multiset(r) == multiset(s)
    ensures |r| == |s|
    ensures SortedBy(r, le)
  {
    if s == [] then []
    else
      assert s == [s[0]] + s[1..];
      Insert(s[0], SortBy(s[1..], le), le)
  }

  /** No element occurs twice. */
  ghost predicate Distinct<T>(s: seq<T>)
  {
    forall i, j :: 0 <= i < j < |s| ==> s[i] != s[j]
  }

  /** In a sequence without repeats every element is counted at most once. */
  lemma {:induction false} DistinctCount<T>(s: seq<T>, x: T)
    requires Distinct(s)
    ensures multiset(s)[x] <= 1
  {
    if s != [] {
      assert s == [s[0]] + s[1..];
      assert Distinct(s[1..]) by {
        forall i, j | 0 <= i < j < |s[1..]| ensures s[1..][i] != s[1..][j] {
          assert s[1..][i] == s[i + 1] && s[1..][j] == s[j + 1];
        }
      }
      DistinctCount(s[1..], x);
      if s[0] == x {
        assert x !in s[1..] by {
          forall k | 0 <= k < |s[1..]| ensures s[1..][k] != x {
            assert s[1..][k] == s[k + 1];
          }
        }
      }
    }
  }

  /** A rearrangement of a sequence without repeats has none either. */
  lemma DistinctPermutation<T>(s: seq<T>, t: seq<T>)
    requires Distinct(s) && multiset(s) == multiset(t)
    ensures Distinct(t)
  {
    forall i, j | 0 <= i < j < |t| ensures t[i] != t[j] {
      if t[i] == t[j] {
        var x := t[j];
        assert t == t[..j] + [x] + t[j + 1..];
        assert t[..j][i] == x;
        assert multiset(t[..j])[x] >= 1;
        assert multiset(t)[x] == multiset(t[..j])[x] + 1 + multiset(t[j + 1..])[x];
        DistinctCount(s, x);
        assert false;
      }
    }
  }

  /** SQL `LIMIT n`: the first `n` elements, or all of them when there are fewer. */
  function Take<T>(s: seq<T>, n: nat): (r: seq<T>)
    ensures |r| == if |s| < n then |s| else n
    ensures r <= s
  {
    if |s| < n then s else s[..n]
  }
}
