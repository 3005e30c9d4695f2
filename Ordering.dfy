/**
 * `Array.from(set).sort(compare)`: turning the set of distinct dropdown values
 * into an ascending list, for numbers (`(a, b) => a - b`) and for strings
 * (the default comparison, modelled character by character).
 */
module Ordering {

  ghost predicate StrictTotalOrder<T(!new)>(less: (T, T) -> bool)
  {
    && (forall x :: !less(x, x))
    && (forall x, y, z :: less(x, y) && less(y, z) ==> less(x, z))
    && (forall x, y :: x != y ==> less(x, y) || less(y, x))
  }

  /** Every element is strictly smaller than every later one (so the list has no duplicates). */
  ghost predicate StrictlyAscending<T>(s: seq<T>, less: (T, T) -> bool)
  {
    forall i, j :: 0 <= i < j < |s| ==> less(s[i], s[j])
  }

  /** Lexicographic order on character sequences: a proper prefix comes first. */
  predicate StrLess(a: string, b: string)
    decreases |a|
  {
    if a == [] then b != []
    else if b == [] then false
    else if a[0] == b[0] then StrLess(a[1..], b[1..])
    else a[0] < b[0]
  }

  predicate IntLess(a: int, b: int)
  {
    a < b
  }

  lemma {:induction false} StrLessIrreflexive(a: string)
    ensures !StrLess(a, a)
    decreases |a|
  {
    if a != [] {
      StrLessIrreflexive(a[1..]);
    }
  }

  lemma {:induction false} StrLessTransitive(a: string, b: string, c: string)
    requires StrLess(a, b) && StrLess(b, c)
    ensures StrLess(a, c)
    decreases |a|
  {
    if a != [] && b != [] && c != [] && a[0] == b[0] && b[0] == c[0] {
      StrLessTransitive(a[1..], b[1..], c[1..]);
    }
  }

  lemma {:induction false} StrLessConnected(a: string, b: string)
    requires a != b
    ensures StrLess(a, b) || StrLess(b, a)
    decreases |a|
  {
    if a != [] && b != [] && a[0] == b[0] {
      assert a == [a[0]] + a[1..] && b == [b[0]] + b[1..];
      StrLessConnected(a[1..], b[1..]);
    }
  }

  /** The string comparison used to sort role names is a strict total order. */
  lemma StrLessIsStrictTotalOrder()
    ensures StrictTotalOrder(StrLess)
  {
    forall a ensures !StrLess(a, a) {
      StrLessIrreflexive(a);
    }
    forall a, b, c | StrLess(a, b) && StrLess(b, c) ensures StrLess(a, c) {
      StrLessTransitive(a, b, c);
    }
    forall a, b | a != b ensures StrLess(a, b) || StrLess(b, a) {
      StrLessConnected(a, b);
    }
  }

  lemma IntLessIsStrictTotalOrder()
    ensures StrictTotalOrder(IntLess)
  {
  }

  /** A finite non-empty set has a least element under a strict total order. */
  lemma {:induction false} Least<T(!new)>(s: set<T>, less: (T, T) -> bool) returns (m: T)
    requires StrictTotalOrder(less)
    requires s != {}
    ensures m in s && forall y :: y in s && y != m ==> less(m, y)
    decreases |s|
  {
    var x :| x in s;
    if s == {x} {
      m := x;
    } else {
      var m' := Least(s - {x}, less);
      if less(x, m') {
        m := x;
        forall y | y in s && y != x ensures less(x, y) {
          if y != m' {
            assert less(m', y);
          }
        }
      } else {
        m := m';
        assert x != m';
        assert less(m', x);
      }
    }
  }

  lemma LeastExists<T(!new)>(s: set<T>, less: (T, T) -> bool)
    requires StrictTotalOrder(less)
    requires s != {}
    ensures exists m :: m in s && forall y :: y in s && y != m ==> less(m, y)
  {
    var m := Least(s, less);
  }

  /** Lists the elements of `s` in ascending order, taking the least remaining one each round. */
  method SortSet<T(==, !new)>(s: set<T>, less: (T, T) -> bool) returns (r: seq<T>)
    requires StrictTotalOrder(less)
    ensures StrictlyAscending(r, less)
    ensures forall x :: x in r <==> x in s
    ensures |r| == |s|
  {
    r := [];
    var rest := s;
    while rest != {}
      invariant forall x :: x in s <==> x in r || x in rest
      invariant StrictlyAscending(r, less)
      invariant forall i, y :: 0 <= i < |r| && y in rest ==> less(r[i], y)
      invariant |r| + |rest| == |s|
      decreases |rest|
    {
      LeastExists(rest, less);
      var m :| m in rest && forall y :: y in rest && y != m ==> less(m, y);
      r := r + [m];
      rest := rest - {m};
    }
  }
}
