/** Option and Result values shared by the calendar, the ledger and the engine. */
module Wrappers {

  datatype Option<+T> = None | Some(value: T)

  datatype Result<+T, +E> = Success(value: T) | Failure(error: E)

  /** The elements of `s` that satisfy `keep`, in their original order. */
  function Filter<T(!new)>(s: seq<T>, keep: T -> bool): (r: seq<T>)
    ensures |r| <= |s|
    ensures forall x :: x in r <==> x in s && keep(x)
  {
    if s == [] then []
    else if keep(s[0]) then [s[0]] + Filter(s[1..], keep)
    else Filter(s[1..], keep)
  }

  /** Filtering a concatenation filters each part. */
  lemma {:induction false} FilterAppend<T(!new)>(s: seq<T>, t: seq<T>, keep: T -> bool)
    ensures Filter(s + t, keep) == Filter(s, keep) + Filter(t, keep)
  {
    if s == [] {
      assert s + t == t;
    } else {
      assert (s + t)[0] == s[0];
      assert (s + t)[1..] == s[1..] + t;
      FilterAppend(s[1..], t, keep);
    }
  }

  /** An element that `keep` rejects leaves the filtered sequence unchanged, wherever it stands. */
  lemma FilterSkip<T(!new)>(s: seq<T>, x: T, t: seq<T>, keep: T -> bool)
    requires !keep(x)
    ensures Filter(s + [x] + t, keep) == Filter(s + t, keep)
  {
    FilterAppend(s, [x], keep);
    FilterAppend(s + [x], t, keep);
    FilterAppend(s, t, keep);
    assert [x][1..] == [];
  }

  /** No two positions of `s` carry the same key. */
  predicate DistinctBy<T, K(==)>(s: seq<T>, key: T -> K)
  {
    forall i, j {:trigger key(s[i]), key(s[j])} :: 0 <= i < |s| && 0 <= j < |s| && key(s[i]) == key(s[j]) ==> i == j
  }

  /** Appending an element whose key is new keeps the keys distinct. */
  lemma DistinctAppend<T, K>(s: seq<T>, x: T, key: T -> K)
    requires DistinctBy(s, key)
    requires forall y :: y in s ==> key(y) != key(x)
    ensures DistinctBy(s + [x], key)
  {
    var t := s + [x];
    forall i | 0 <= i < |s| ensures t[i] == s[i] && key(t[i]) != key(x) {
      assert s[i] in s;
    }
  }

  /** Removing elements keeps the keys distinct. */
  lemma {:induction false} FilterDistinct<T(!new), K>(s: seq<T>, keep: T -> bool, key: T -> K)
    requires DistinctBy(s, key)
    ensures DistinctBy(Filter(s, keep), key)
  {
    if s != [] {
      var rest := s[1..];
      assert DistinctBy(rest, key) by {
        forall i, j | 0 <= i < |rest| && 0 <= j < |rest| && key(rest[i]) == key(rest[j])
          ensures i == j
        {
          assert s[i + 1] == rest[i] && s[j + 1] == rest[j];
        }
      }
      FilterDistinct(rest, keep, key);
      var fr := Filter(rest, keep);
      if keep(s[0]) {
        forall y | y in fr ensures key(y) != key(s[0]) {
          assert y in rest;
          var k :| 0 <= k < |rest| && rest[k] == y;
          assert s[k + 1] == y;
        }
        var t := [s[0]] + fr;
        forall i | 0 < i < |t| ensures t[i] == fr[i - 1] && key(t[i]) != key(s[0]) {
          assert t[i] in fr;
        }
      }
    }
  }
}
