/** The slice helpers: difference of sorted slices by merging, and removal of repetitions.

    The element type is any type with an order: of two different elements one is the smaller. */
module Difference {

  ghost predicate Ordered<T(!new)>(less: (T, T) -> bool) {
    && (forall x :: !less(x, x))
    && (forall x, y :: x != y ==> less(x, y) || less(y, x))
  }

  ghost predicate Sorted<T>(less: (T, T) -> bool, s: seq<T>) {
    forall i, j :: 0 <= i < j < |s| ==> !less(s[j], s[i])
  }

  /** What the merge keeps of `base`, for any inputs. */
  function Merged<T>(less: (T, T) -> bool, base: seq<T>, exclude: seq<T>): seq<T>
    decreases |base| + |exclude|
  {
    if base == [] || exclude == [] then base
    else if less(base[0], exclude[0]) then [base[0]] + Merged(less, base[1..], exclude)
    else if less(exclude[0], base[0]) then Merged(less, base, exclude[1..])
    else Merged(less, base[1..], exclude[1..])
  }

  lemma {:induction false} MergedMembers<T>(less: (T, T) -> bool, base: seq<T>, exclude: seq<T>, x: T)
    requires x in Merged(less, base, exclude)
    ensures x in base
    decreases |base| + |exclude|
  {
    if base == [] || exclude == [] {
    } else if less(base[0], exclude[0]) {
      if x != base[0] {
        MergedMembers(less, base[1..], exclude, x);
      }
    } else if less(exclude[0], base[0]) {
      MergedMembers(less, base, exclude[1..], x);
    } else {
      MergedMembers(less, base[1..], exclude[1..], x);
    }
  }

  lemma SortedCons<T>(less: (T, T) -> bool, x: T, s: seq<T>)
    requires Sorted(less, s) && forall y :: y in s ==> !less(y, x)
    ensures Sorted(less, [x] + s)
  {
  }

  lemma {:induction false} MergedSorted<T(!new)>(less: (T, T) -> bool, base: seq<T>, exclude: seq<T>)
    requires Sorted(less, base)
    ensures Sorted(less, Merged(less, base, exclude))
    decreases |base| + |exclude|
  {
    if base == [] || exclude == [] {
    } else if less(base[0], exclude[0]) {
      MergedSorted(less, base[1..], exclude);
      forall y | y in Merged(less, base[1..], exclude) ensures !less(y, base[0]) {
        MergedMembers(less, base[1..], exclude, y);
      }
      SortedCons(less, base[0], Merged(less, base[1..], exclude));
    } else if less(exclude[0], base[0]) {
      MergedSorted(less, base, exclude[1..]);
    } else {
      MergedSorted(less, base[1..], exclude[1..]);
    }
  }

  ghost function Count<T>(s: seq<T>, x: T): nat {
    multiset(s)[x]
  }

  lemma CountHead<T>(s: seq<T>, x: T)
    requires s != []
    ensures Count(s, x) == (if s[0] == x then 1 else 0) + Count(s[1..], x)
  {
    assert s == [s[0]] + s[1..];
  }

  lemma AbsentBelow<T>(less: (T, T) -> bool, s: seq<T>, x: T)
    requires Sorted(less, s) && s != [] && less(x, s[0]) && !less(x, x)
    ensures Count(s, x) == 0
  {
    assert x !in s;
  }

  /** On sorted inputs each element is kept as often as `base` has it beyond `exclude`. */
  lemma {:induction false} MergedCounts<T(!new)>(less: (T, T) -> bool, base: seq<T>, exclude: seq<T>, x: T)
    requires Ordered(less) && Sorted(less, base) && Sorted(less, exclude)
    ensures var b, e := Count(base, x), Count(exclude, x);
      Count(Merged(less, base, exclude), x) == if b < e then 0 else b - e
    decreases |base| + |exclude|
  {
    if base == [] || exclude == [] {
    } else if less(base[0], exclude[0]) {
      MergedCounts(less, base[1..], exclude, x);
      CountHead(base, x);
      CountHead(Merged(less, base, exclude), x);
      AbsentBelow(less, exclude, base[0]);
    } else if less(exclude[0], base[0]) {
      MergedCounts(less, base, exclude[1..], x);
      CountHead(exclude, x);
      AbsentBelow(less, base, exclude[0]);
    } else {
      MergedCounts(less, base[1..], exclude[1..], x);
      CountHead(base, x);
      CountHead(exclude, x);
    }
  }

  lemma SameCounts<T(!new)>(m: multiset<T>, n: multiset<T>)
    requires forall x :: m[x] == n[x]
    ensures m == n
  {
  }

  lemma MergedIsDifference<T(!new)>(less: (T, T) -> bool, base: seq<T>, exclude: seq<T>)
    requires Ordered(less) && Sorted(less, base) && Sorted(less, exclude)
    ensures Sorted(less, Merged(less, base, exclude))
    ensures multiset(Merged(less, base, exclude)) == multiset(base) - multiset(exclude)
  {
    MergedSorted(less, base, exclude);
    forall x ensures multiset(Merged(less, base, exclude))[x] == (multiset(base) - multiset(exclude))[x] {
      MergedCounts(less, base, exclude, x);
    }
    SameCounts(multiset(Merged(less, base, exclude)), multiset(base) - multiset(exclude));
  }

  /** One turn of the merge loop at `i`, `j`. */
  lemma MergeTurn<T>(less: (T, T) -> bool, base: seq<T>, exclude: seq<T>, i: nat, j: nat)
    requires i < |base| && j < |exclude|
    ensures Merged(less, base[i..], exclude[j..]) ==
      if less(base[i], exclude[j]) then [base[i]] + Merged(less, base[i + 1..], exclude[j..])
      else if less(exclude[j], base[i]) then Merged(less, base[i..], exclude[j + 1..])
      else Merged(less, base[i + 1..], exclude[j + 1..])
  {
    assert base[i..][1..] == base[i + 1..] && exclude[j..][1..] == exclude[j + 1..];
  }

  method SortedDifference<T(!new)>(less: (T, T) -> bool, base: seq<T>, exclude: seq<T>) returns (result: seq<T>)
    ensures result == Merged(less, base, exclude)
    ensures Ordered(less) && Sorted(less, base) && Sorted(less, exclude) ==>
              Sorted(less, result) && multiset(result) == multiset(base) - multiset(exclude)
  {
    result := [];
    var baseIdx, exclIdx := 0, 0;
    while baseIdx < |base| && exclIdx < |exclude|
      invariant 0 <= baseIdx <= |base| && 0 <= exclIdx <= |exclude|
      invariant result + Merged(less, base[baseIdx..], exclude[exclIdx..]) == Merged(less, base, exclude)
      decreases |base| - baseIdx + |exclude| - exclIdx
    {
      MergeTurn(less, base, exclude, baseIdx, exclIdx);
      if less(base[baseIdx], exclude[exclIdx]) {
        result := result + [base[baseIdx]];
        baseIdx := baseIdx + 1;
      } else if less(exclude[exclIdx], base[baseIdx]) {
        exclIdx := exclIdx + 1;
      } else {
        baseIdx := baseIdx + 1;
        exclIdx := exclIdx + 1;
      }
    }
    result := result + base[baseIdx..];
    if Ordered(less) && Sorted(less, base) && Sorted(less, exclude) {
      MergedIsDifference(less, base, exclude);
    }
  }

  /** The elements that did not occur before them. */
  function FirstOccurrences<T(==)>(s: seq<T>): seq<T> {
    if s == [] then []
    else
      var front, x := s[..|s| - 1], s[|s| - 1];
      if x in front then FirstOccurrences(front) else FirstOccurrences(front) + [x]
  }

  ghost predicate NoRepeats<T>(s: seq<T>) {
    forall i, j :: 0 <= i < j < |s| ==> s[i] != s[j]
  }

  /** The same elements, each once. */
  lemma {:induction false} FirstOccurrencesCover<T>(s: seq<T>)
    ensures forall x :: x in FirstOccurrences(s) <==> x in s
    ensures NoRepeats(FirstOccurrences(s))
    decreases |s|
  {
    if s == [] {
    } else {
      var front, x := s[..|s| - 1], s[|s| - 1];
      assert s == front + [x];
      FirstOccurrencesCover(front);
    }
  }

  lemma {:induction false} FirstOccurrencesGrow<T>(s: seq<T>, n: nat)
    requires n <= |s|
    ensures FirstOccurrences(s[..n]) <= FirstOccurrences(s)
    decreases |s| - n
  {
    if n < |s| {
      FirstOccurrencesGrow(s, n + 1);
      assert s[..n + 1][..n] == s[..n];
    } else {
      assert s[..n] == s;
    }
  }

  /** Each first occurrence stands behind exactly the first occurrences before it. */
  lemma FirstOccurrencesInOrder<T>(s: seq<T>, i: nat)
    requires i < |s| && s[i] !in s[..i]
    ensures var k := |FirstOccurrences(s[..i])|; k < |FirstOccurrences(s)| && FirstOccurrences(s)[k] == s[i]
  {
    assert s[..i + 1][..i] == s[..i];
    FirstOccurrencesGrow(s, i + 1);
  }

  method Distinct<T(==)>(src: seq<T>) returns (out: seq<T>)
    ensures out == FirstOccurrences(src)
    ensures NoRepeats(out) && forall x :: x in out <==> x in src
  {
    var seen: set<T> := {};
    out := [];
    for i := 0 to |src|
      invariant seen == set x | x in src[..i]
      invariant out == FirstOccurrences(src[..i])
    {
      assert src[..i + 1] == src[..i] + [src[i]] && src[..i + 1][..i] == src[..i];
      if src[i] !in seen {
        seen := seen + {src[i]};
        out := out + [src[i]];
      }
    }
    assert src[..|src|] == src;
    FirstOccurrencesCover(src);
  }

  lemma {:induction false} DistinctSorted<T(!new)>(less: (T, T) -> bool, s: seq<T>)
    requires Sorted(less, s)
    ensures Sorted(less, FirstOccurrences(s))
    decreases |s|
  {
    if s == [] {
    } else {
      var front, x := s[..|s| - 1], s[|s| - 1];
      DistinctSorted(less, front);
      FirstOccurrencesCover(front);
      var kept := FirstOccurrences(front);
      forall i | 0 <= i < |kept| ensures !less(x, kept[i]) {
        assert kept[i] in front;
        var j :| 0 <= j < |front| && front[j] == kept[i];
        assert s[j] == kept[i];
      }
    }
  }

  lemma {:induction false} CountOnce<T>(s: seq<T>, x: T)
    requires NoRepeats(s)
    ensures multiset(s)[x] == if x in s then 1 else 0
  {
    if s == [] {
    } else {
      assert s == [s[0]] + s[1..];
      CountOnce(s[1..], x);
    }
  }

  /** Together, on sorted slices: exact set difference, without repetitions, in order. */
  method DistinctDifference<T(==, !new)>(less: (T, T) -> bool, a: seq<T>, b: seq<T>) returns (result: seq<T>)
    requires Ordered(less) && Sorted(less, a) && Sorted(less, b)
    ensures Sorted(less, result) && NoRepeats(result)
    ensures forall x :: x in result <==> x in a && x !in b
  {
    var distinct := Distinct(a);
    DistinctSorted(less, a);
    result := SortedDifference(less, distinct, b);
    forall x ensures x in result <==> x in a && x !in b {
      CountOnce(distinct, x);
      assert x in result <==> multiset(result)[x] > 0;
      assert x in b <==> multiset(b)[x] > 0;
    }
    forall i, j | 0 <= i < j < |result| ensures result[i] != result[j] {
      CountOnce(distinct, result[i]);
      if result[i] == result[j] {
        RepeatCounts(result, i, j);
      }
    }
  }

  lemma RepeatCounts<T>(s: seq<T>, i: nat, j: nat)
    requires i < j < |s| && s[i] == s[j]
    ensures 2 <= multiset(s)[s[i]]
  {
    assert s == s[..j] + [s[j]] + s[j + 1..];
    assert s[..j][i] == s[i] && s[i] in multiset(s[..j]);
  }
}
