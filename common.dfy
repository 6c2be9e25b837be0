/** Values shared by every part of the model: points, optional values, and the two
    list operations the generators are built from (concatenating a list of lists,
    keeping the elements that pass a test). */
module Common {

  datatype Option<T> = None | Some(value: T)

  /** A position in space (a QVector3D). Components are modelled as reals: the
      single-precision rounding of the source is not modelled. */
  datatype Point = Point(x: real, y: real, z: real)

  /** The squared Euclidean norm. The source orders points by `length()`; since
      the square root is increasing on non-negative numbers, ordering by the
      squared norm is the same order. */
  function SquaredLength(p: Point): (d: real)
    ensures d >= 0.0
  {
    p.x * p.x + p.y * p.y + p.z * p.z
  }

  /** The in-order concatenation of a list of lists (QList's `<<` of each part). */
  function Flatten<T>(parts: seq<seq<T>>): seq<T>
  {
    if parts == [] then [] else Flatten(parts[..|parts| - 1]) + parts[|parts| - 1]
  }

  /** The sum of the lengths of a list of lists. */
  function TotalLength<T>(parts: seq<seq<T>>): nat
  {
    if parts == [] then 0 else TotalLength(parts[..|parts| - 1]) + |parts[|parts| - 1]|
  }

  lemma FlattenAppend<T>(parts: seq<seq<T>>, part: seq<T>)
    ensures Flatten(parts + [part]) == Flatten(parts) + part
    ensures TotalLength(parts + [part]) == TotalLength(parts) + |part|
  {
    assert (parts + [part])[..|parts|] == parts;
  }

  lemma {:induction false} FlattenConcat<T>(a: seq<seq<T>>, b: seq<seq<T>>)
    ensures Flatten(a + b) == Flatten(a) + Flatten(b)
    decreases |b|
  {
    if b == [] {
      assert a + b == a;
    } else {
      var b' := b[..|b| - 1];
      assert a + b == (a + b') + [b[|b| - 1]];
      FlattenAppend(a + b', b[|b| - 1]);
      FlattenConcat(a, b');
      FlattenAppend(b', b[|b| - 1]);
      assert b' + [b[|b| - 1]] == b;
    }
  }

  lemma {:induction false} FlattenLength<T>(parts: seq<seq<T>>)
    ensures |Flatten(parts)| == TotalLength(parts)
  {
    if parts != [] {
      FlattenLength(parts[..|parts| - 1]);
    }
  }

  /** Taking more leading parts never shortens the concatenation: a count taken
      over parts `0..i` is at most the count taken over parts `0..j` for `i <= j`. */
  lemma {:induction false} FlattenPrefixGrows<T>(parts: seq<seq<T>>, i: nat, j: nat)
    requires i <= j <= |parts|
    ensures |Flatten(parts[..i])| <= |Flatten(parts[..j])|
    ensures Flatten(parts[..j])[..|Flatten(parts[..i])|] == Flatten(parts[..i])
    decreases j - i
  {
    if i < j {
      FlattenPrefixGrows(parts, i, j - 1);
      assert parts[..j] == parts[..j - 1] + [parts[j - 1]];
      FlattenAppend(parts[..j - 1], parts[j - 1]);
    }
  }

  /** The elements of `s` for which `keep` holds, in their original order. */
  function Filter<T>(keep: T -> bool, s: seq<T>): seq<T>
  {
    if s == [] then []
    else Filter(keep, s[..|s| - 1]) + (if keep(s[|s| - 1]) then [s[|s| - 1]] else [])
  }

  /** Filtering keeps exactly the elements that pass, each as often as it occurs,
      and drops every other one. */
  lemma {:induction false} FilterCounts<T>(keep: T -> bool, s: seq<T>)
    ensures forall x :: multiset(Filter(keep, s))[x] == if keep(x) then multiset(s)[x] else 0
    ensures |Filter(keep, s)| <= |s|
  {
    if s != [] {
      var init, last := s[..|s| - 1], s[|s| - 1];
      FilterCounts(keep, init);
      assert s == init + [last];
      var tail := if keep(last) then [last] else [];
      assert Filter(keep, s) == Filter(keep, init) + tail;
      forall x
        ensures multiset(Filter(keep, s))[x] == if keep(x) then multiset(s)[x] else 0
      {
        assert multiset(s)[x] == multiset(init)[x] + multiset{last}[x];
        assert multiset(Filter(keep, s))[x] == multiset(Filter(keep, init))[x] + multiset(tail)[x];
      }
    }
  }

  lemma FilterMembership<T>(keep: T -> bool, s: seq<T>)
    ensures forall x :: x in Filter(keep, s) <==> x in s && keep(x)
  {
    FilterCounts(keep, s);
    forall x
      ensures x in Filter(keep, s) <==> x in s && keep(x)
    {
      assert x in Filter(keep, s) <==> multiset(Filter(keep, s))[x] > 0;
      assert x in s <==> multiset(s)[x] > 0;
    }
  }

  /** Filtering a concatenation filters each half separately, so relative order is kept. */
  lemma {:induction false} FilterConcat<T>(keep: T -> bool, a: seq<T>, b: seq<T>)
    ensures Filter(keep, a + b) == Filter(keep, a) + Filter(keep, b)
    decreases |b|
  {
    if b == [] {
      assert a + b == a;
    } else {
      var b' := b[..|b| - 1];
      assert (a + b)[..|a + b| - 1] == a + b';
      assert (a + b)[|a + b| - 1] == b[|b| - 1];
      FilterConcat(keep, a, b');
    }
  }
}
