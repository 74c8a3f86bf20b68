/** Sequence operations that the queries of the data-access objects are
    built from: filtering (`WHERE`), stable sorting (`ORDER BY`), summing
    (`SUM`, `stream().mapToDouble(..).sum()`) and first-occurrence removal
    (`List.remove(Object)`). */
module Seqs {

  /** The elements of `s` that satisfy `p`, in their original order. */
  function Filter<T>(p: T -> bool, s: seq<T>): (r: seq<T>)
    ensures |r| <= |s|
  {
    if |s| == 0 then []
    else Filter(p, s[..|s| - 1]) + (if p(s[|s| - 1]) then [s[|s| - 1]] else [])
  }

  /** `leq` is a total preorder: every two elements compare, transitively. */
  ghost predicate TotalPreorder<T(!new)>(leq: (T, T) -> bool)
  {
    (forall a, b :: leq(a, b) || leq(b, a)) &&
    (forall a, b, c :: leq(a, b) && leq(b, c) ==> leq(a, c))
  }

  predicate SortedBy<T>(leq: (T, T) -> bool, s: seq<T>)
  {
    forall i, j :: 0 <= i < j < |s| ==> leq(s[i], s[j])
  }

  /** Inserts `x` after every element that is not above it. */
  function Insert<T>(leq: (T, T) -> bool, x: T, s: seq<T>): (r: seq<T>)
    ensures |r| == |s| + 1
  {
    if |s| == 0 then [x]
    else if leq(s[0], x) then [s[0]] + Insert(leq, x, s[1..])
    else [x] + s
  }

  /** A stable insertion sort: elements that compare equal keep the order
      they have in `s`, as rows do under `ORDER BY` in store order. */
  function Sort<T>(leq: (T, T) -> bool, s: seq<T>): (r: seq<T>)
    ensures |r| == |s|
  {
    if |s| == 0 then []
    else Insert(leq, s[|s| - 1], Sort(leq, s[..|s| - 1]))
  }

  function SumInt<T>(s: seq<T>, f: T -> int): int
  {
    if |s| == 0 then 0 else SumInt(s[..|s| - 1], f) + f(s[|s| - 1])
  }

  function SumReal<T>(s: seq<T>, f: T -> real): real
  {
    if |s| == 0 then 0.0 else SumReal(s[..|s| - 1], f) + f(s[|s| - 1])
  }

  /** `List.remove(Object)`: drops the first occurrence of `x`, if any. */
  function RemoveFirst<T(==)>(s: seq<T>, x: T): (r: seq<T>)
    ensures x !in s ==> r == s
    ensures x in s ==> |r| == |s| - 1 && multiset(r) == multiset(s) - multiset{x}
  {
    if |s| == 0 then []
    else if s[0] == x then
      assert s == [s[0]] + s[1..];
      s[1..]
    else
      assert s == [s[0]] + s[1..];
      [s[0]] + RemoveFirst(s[1..], x)
  }

  /** The index of the occurrence `RemoveFirst` drops. */
  lemma {:induction false} RemoveFirstIndex<T>(s: seq<T>, x: T) returns (k: nat)
    requires x in s
    ensures k < |s| && s[k] == x && forall i :: 0 <= i < k ==> s[i] != x
    ensures RemoveFirst(s, x) == s[..k] + s[k + 1..]
    decreases |s|
  {
    if s[0] == x {
      k := 0;
    } else {
      assert x in s[1..] by { assert s == [s[0]] + s[1..]; }
      var j := RemoveFirstIndex(s[1..], x);
      RemoveFirstPastHead(s, x, j);
      NoCopyPastHead(s, x, j);
      k := j + 1;
    }
  }

  /** One step of `RemoveFirstIndex`: when the head is not `x`, the index
      found in the tail moves up by one. */
  lemma RemoveFirstPastHead<T>(s: seq<T>, x: T, j: nat)
    requires |s| > 0 && s[0] != x && j < |s| - 1
    requires RemoveFirst(s[1..], x) == s[1..][..j] + s[1..][j + 1..]
    ensures RemoveFirst(s, x) == s[..j + 1] + s[j + 2..]
  {
    assert [s[0]] + s[1..][..j] == s[..j + 1];
    assert s[1..][j + 1..] == s[j + 2..];
  }

  /** No copy of `x` before position `j` of the tail, and none at the
      head, means none before position `j + 1` of the whole. */
  lemma NoCopyPastHead<T>(s: seq<T>, x: T, j: nat)
    requires |s| > 0 && s[0] != x && j < |s| - 1
    requires forall i :: 0 <= i < j ==> s[1..][i] != x
    ensures forall i :: 0 <= i < j + 1 ==> s[i] != x
  {
    forall i | 0 < i < j + 1
      ensures s[i] != x
    {
      assert s[i] == s[1..][i - 1];
    }
  }

  /** What `List.remove(Object)` removes is the first occurrence: the element
      at some index `k` with no earlier copy of `x`, the rest kept in order. */
  lemma RemoveFirstAt<T>(s: seq<T>, x: T)
    requires x in s
    ensures exists k :: 0 <= k < |s| && s[k] == x && x !in s[..k] && RemoveFirst(s, x) == s[..k] + s[k + 1..]
  {
    var k := RemoveFirstIndex(s, x);
    assert x !in s[..k];
  }

  // ---------------------------------------------------------------------
  // Filtering

  /** The filter keeps exactly the elements that satisfy the predicate. */
  lemma {:induction false} FilterMembers<T>(p: T -> bool, s: seq<T>)
    ensures forall i :: 0 <= i < |Filter(p, s)| ==> Filter(p, s)[i] in s && p(Filter(p, s)[i])
    ensures forall i :: 0 <= i < |s| && p(s[i]) ==> s[i] in Filter(p, s)
    decreases |s|
  {
    if |s| > 0 {
      assert s == s[..|s| - 1] + [s[|s| - 1]];
      FilterMembers(p, s[..|s| - 1]);
    }
  }

  /** Membership in a filter: an element is kept exactly when it occurs
      and satisfies the predicate. */
  lemma FilterIn<T>(p: T -> bool, s: seq<T>)
    ensures forall x :: x in Filter(p, s) <==> x in s && p(x)
  {
    FilterMembers(p, s);
    forall x | x in s && p(x) ensures x in Filter(p, s) {
      var k :| 0 <= k < |s| && s[k] == x;
    }
    forall x | x in Filter(p, s) ensures x in s && p(x) {
      var k :| 0 <= k < |Filter(p, s)| && Filter(p, s)[k] == x;
    }
  }

  lemma FilterSnoc<T>(p: T -> bool, s: seq<T>, x: T)
    ensures Filter(p, s + [x]) == Filter(p, s) + (if p(x) then [x] else [])
  {
    assert (s + [x])[..|s|] == s;
  }

  /** One step of a loop that walks `all` and keeps what satisfies `p`. */
  lemma FilterStep<T>(p: T -> bool, all: seq<T>, i: nat, acc: seq<T>, keep: bool)
    requires i < |all|
    requires acc == Filter(p, all[..i])
    requires keep == p(all[i])
    ensures (if keep then acc + [all[i]] else acc) == Filter(p, all[..i + 1])
  {
    assert all[..i + 1] == all[..i] + [all[i]];
    FilterSnoc(p, all[..i], all[i]);
  }

  // ---------------------------------------------------------------------
  // Mapping

  /** `f` applied to every element of `s`, in order. */
  function Map<T, U>(f: T -> U, s: seq<T>): (r: seq<U>)
    ensures |r| == |s|
  {
    if |s| == 0 then [] else Map(f, s[..|s| - 1]) + [f(s[|s| - 1])]
  }

  /** Element `i` of the mapped sequence is `f` of element `i`. */
  lemma {:induction false} MapAt<T, U>(f: T -> U, s: seq<T>)
    ensures forall i :: 0 <= i < |s| ==> Map(f, s)[i] == f(s[i])
    decreases |s|
  {
    if |s| > 0 {
      var front := s[..|s| - 1];
      MapAt(f, front);
      forall i | 0 <= i < |s|
        ensures Map(f, s)[i] == f(s[i])
      {
        if i < |front| {
          assert s[i] == front[i];
        }
      }
    }
  }

  /** One step of a loop that maps `all` element by element. */
  lemma MapStep<T, U>(f: T -> U, all: seq<T>, i: nat)
    requires i < |all|
    ensures Map(f, all[..i + 1]) == Map(f, all[..i]) + [f(all[i])]
  {
    assert all[..i + 1][..i] == all[..i];
  }

  /** Filtering distributes over concatenation. */
  lemma {:induction false} FilterConcat<T>(p: T -> bool, a: seq<T>, b: seq<T>)
    ensures Filter(p, a + b) == Filter(p, a) + Filter(p, b)
    decreases |b|
  {
    if |b| == 0 {
      assert a + b == a;
    } else {
      var init := b[..|b| - 1];
      assert a + b == (a + init) + [b[|b| - 1]];
      assert b == init + [b[|b| - 1]];
      FilterSnoc(p, a + init, b[|b| - 1]);
      FilterSnoc(p, init, b[|b| - 1]);
      FilterConcat(p, a, init);
    }
  }

  lemma FilterCons<T>(p: T -> bool, x: T, s: seq<T>)
    ensures Filter(p, [x] + s) == (if p(x) then [x] else []) + Filter(p, s)
  {
    FilterConcat(p, [x], s);
    assert Filter(p, [x]) == Filter(p, []) + (if p(x) then [x] else []) by {
      assert [x][..0] == [];
    }
  }

  /** Filtering by `q` after `p` is filtering by any `r` that means "p and q". */
  lemma {:induction false} FilterFilter<T>(p: T -> bool, q: T -> bool, r: T -> bool, s: seq<T>)
    requires forall x :: r(x) == (p(x) && q(x))
    ensures Filter(q, Filter(p, s)) == Filter(r, s)
    decreases |s|
  {
    if |s| > 0 {
      var init, x := s[..|s| - 1], s[|s| - 1];
      FilterFilter(p, q, r, init);
      FilterConcat(q, Filter(p, init), if p(x) then [x] else []);
      if p(x) {
        FilterSnoc(q, [], x);
      }
    }
  }

  /** A filter whose predicate holds everywhere keeps everything. */
  lemma {:induction false} FilterAll<T>(p: T -> bool, s: seq<T>)
    requires forall x :: x in s ==> p(x)
    ensures Filter(p, s) == s
    decreases |s|
  {
    if |s| > 0 {
      var init := s[..|s| - 1];
      assert s == init + [s[|s| - 1]];
      FilterAll(p, init);
      assert p(s[|s| - 1]);
    }
  }

  /** A filter whose predicate holds nowhere keeps nothing. */
  lemma {:induction false} FilterNone<T>(p: T -> bool, s: seq<T>)
    requires forall i :: 0 <= i < |s| ==> !p(s[i])
    ensures Filter(p, s) == []
    decreases |s|
  {
    if |s| > 0 {
      FilterNone(p, s[..|s| - 1]);
    }
  }

  /** Two predicates that agree on the elements of `s` filter it alike. */
  lemma {:induction false} FilterCongruent<T>(p: T -> bool, q: T -> bool, s: seq<T>)
    requires forall x :: x in s ==> p(x) == q(x)
    ensures Filter(p, s) == Filter(q, s)
    decreases |s|
  {
    if |s| > 0 {
      FilterCongruent(p, q, s[..|s| - 1]);
    }
  }

  // ---------------------------------------------------------------------
  // Sorting

  lemma {:induction false} InsertSorted<T(!new)>(leq: (T, T) -> bool, x: T, s: seq<T>)
    requires TotalPreorder(leq) && SortedBy(leq, s)
    ensures SortedBy(leq, Insert(leq, x, s))
    decreases |s|
  {
    if |s| > 0 {
      if leq(s[0], x) {
        InsertSorted(leq, x, s[1..]);
        var t := Insert(leq, x, s[1..]);
        InsertPermutation(leq, x, s[1..]);
        forall k | 0 <= k < |t| ensures leq(s[0], t[k]) {
          assert t[k] in multiset(t);
          if t[k] != x {
            assert t[k] in multiset(s[1..]);
            assert t[k] in s[1..];
          }
        }
      } else {
        assert leq(x, s[0]);
      }
    }
  }

  lemma {:induction false} InsertPermutation<T>(leq: (T, T) -> bool, x: T, s: seq<T>)
    ensures multiset(Insert(leq, x, s)) == multiset(s) + multiset{x}
    decreases |s|
  {
    if |s| > 0 && leq(s[0], x) {
      assert s == [s[0]] + s[1..];
      InsertPermutation(leq, x, s[1..]);
    }
  }

  /** `Sort` only reorders: it returns a permutation of its input. */
  lemma {:induction false} SortPermutation<T>(leq: (T, T) -> bool, s: seq<T>)
    ensures multiset(Sort(leq, s)) == multiset(s)
    decreases |s|
  {
    if |s| > 0 {
      assert s == s[..|s| - 1] + [s[|s| - 1]];
      SortPermutation(leq, s[..|s| - 1]);
      InsertPermutation(leq, s[|s| - 1], Sort(leq, s[..|s| - 1]));
    }
  }

  /** Sorting keeps exactly the elements it was given. */
  lemma SortIn<T>(leq: (T, T) -> bool, s: seq<T>)
    ensures forall x :: x in Sort(leq, s) <==> x in s
  {
    SortPermutation(leq, s);
    forall x ensures x in Sort(leq, s) <==> x in s {
      assert x in multiset(Sort(leq, s)) <==> x in multiset(s);
    }
  }

  /** `Sort` returns its input ordered by `leq`. */
  lemma {:induction false} SortSorted<T(!new)>(leq: (T, T) -> bool, s: seq<T>)
    requires TotalPreorder(leq)
    ensures SortedBy(leq, Sort(leq, s))
    decreases |s|
  {
    if |s| > 0 {
      SortSorted(leq, s[..|s| - 1]);
      InsertSorted(leq, s[|s| - 1], Sort(leq, s[..|s| - 1]));
    }
  }

  lemma FilterInsert<T(!new)>(leq: (T, T) -> bool, p: T -> bool, x: T, s: seq<T>)
    requires TotalPreorder(leq) && SortedBy(leq, s)
    ensures Filter(p, Insert(leq, x, s)) == if p(x) then Insert(leq, x, Filter(p, s)) else Filter(p, s)
  {
    if p(x) {
      FilterInsertKept(leq, p, x, s);
    } else {
      FilterInsertDropped(leq, p, x, s);
    }
  }

  lemma {:induction false} FilterInsertDropped<T>(leq: (T, T) -> bool, p: T -> bool, x: T, s: seq<T>)
    requires !p(x)
    ensures Filter(p, Insert(leq, x, s)) == Filter(p, s)
    decreases |s|
  {
    if |s| == 0 {
      FilterSnoc(p, [], x);
    } else if leq(s[0], x) {
      var h, rest := s[0], s[1..];
      FilterInsertDropped(leq, p, x, rest);
      FilterCons(p, h, Insert(leq, x, rest));
      assert s == [h] + rest;
      FilterCons(p, h, rest);
    } else {
      FilterCons(p, x, s);
    }
  }

  lemma {:induction false} FilterInsertKept<T(!new)>(leq: (T, T) -> bool, p: T -> bool, x: T, s: seq<T>)
    requires TotalPreorder(leq) && SortedBy(leq, s)
    requires p(x)
    ensures Filter(p, Insert(leq, x, s)) == Insert(leq, x, Filter(p, s))
    decreases |s|
  {
    if |s| == 0 {
      FilterSnoc(p, [], x);
    } else if leq(s[0], x) {
      var h, rest := s[0], s[1..];
      var ins := Insert(leq, x, rest);
      assert Insert(leq, x, s) == [h] + ins;
      assert SortedBy(leq, rest);
      FilterInsertKept(leq, p, x, rest);
      FilterCons(p, h, ins);
      assert s == [h] + rest;
      FilterCons(p, h, rest);
      var fr := Filter(p, rest);
      assert Filter(p, ins) == Insert(leq, x, fr);
      if p(h) {
        InsertAfterHead(leq, x, h, fr);
        assert Filter(p, s) == [h] + fr;
        assert Filter(p, [h] + ins) == [h] + Insert(leq, x, fr);
      } else {
        assert Filter(p, s) == fr;
        assert Filter(p, [h] + ins) == Insert(leq, x, fr);
      }
    } else {
      FilterInsertAtHead(leq, p, x, s);
    }
  }

  lemma InsertAfterHead<T>(leq: (T, T) -> bool, x: T, h: T, s: seq<T>)
    requires leq(h, x)
    ensures Insert(leq, x, [h] + s) == [h] + Insert(leq, x, s)
  {
    assert ([h] + s)[0] == h && ([h] + s)[1..] == s;
  }

  lemma FilterInsertAtHead<T(!new)>(leq: (T, T) -> bool, p: T -> bool, x: T, s: seq<T>)
    requires TotalPreorder(leq) && SortedBy(leq, s)
    requires |s| > 0 && !leq(s[0], x) && p(x)
    ensures Filter(p, Insert(leq, x, s)) == Insert(leq, x, Filter(p, s))
  {
    assert Insert(leq, x, s) == [x] + s;
    FilterCons(p, x, s);
    var fs := Filter(p, s);
    if |fs| > 0 {
      FilterMembers(p, s);
      assert fs[0] in s;
      var k :| 0 <= k < |s| && s[k] == fs[0];
      assert k == 0 || leq(s[0], s[k]);
      assert !leq(fs[0], x);
    }
  }

  /** Selecting rows and then ordering them is ordering and then selecting:
      the stable sort commutes with every filter. */
  lemma {:induction false} FilterSort<T(!new)>(leq: (T, T) -> bool, p: T -> bool, s: seq<T>)
    requires TotalPreorder(leq)
    ensures Filter(p, Sort(leq, s)) == Sort(leq, Filter(p, s))
    decreases |s|
  {
    if |s| > 0 {
      var init, x := s[..|s| - 1], s[|s| - 1];
      var sorted := Sort(leq, init);
      assert Sort(leq, s) == Insert(leq, x, sorted);
      SortSorted(leq, init);
      FilterInsert(leq, p, x, sorted);
      FilterSort(leq, p, init);
      var fi := Filter(p, init);
      if p(x) {
        var fs := fi + [x];
        assert Filter(p, s) == fs;
        assert fs[..|fs| - 1] == fi && fs[|fs| - 1] == x;
        assert Sort(leq, fs) == Insert(leq, x, Sort(leq, fi));
      } else {
        assert Filter(p, s) == fi;
      }
    }
  }

  // ---------------------------------------------------------------------
  // Sums

  lemma {:induction false} SumIntConcat<T>(a: seq<T>, b: seq<T>, f: T -> int)
    ensures SumInt(a + b, f) == SumInt(a, f) + SumInt(b, f)
    decreases |b|
  {
    if |b| == 0 {
      assert a + b == a;
    } else {
      assert (a + b)[..|a + b| - 1] == a + b[..|b| - 1];
      SumIntConcat(a, b[..|b| - 1], f);
    }
  }

  lemma {:induction false} SumRealConcat<T>(a: seq<T>, b: seq<T>, f: T -> real)
    ensures SumReal(a + b, f) == SumReal(a, f) + SumReal(b, f)
    decreases |b|
  {
    if |b| == 0 {
      assert a + b == a;
    } else {
      assert (a + b)[..|a + b| - 1] == a + b[..|b| - 1];
      SumRealConcat(a, b[..|b| - 1], f);
    }
  }

  lemma SumIntSnoc<T>(s: seq<T>, x: T, f: T -> int)
    ensures SumInt(s + [x], f) == SumInt(s, f) + f(x)
  {
    assert (s + [x])[..|s|] == s;
  }

  lemma SumRealSnoc<T>(s: seq<T>, x: T, f: T -> real)
    ensures SumReal(s + [x], f) == SumReal(s, f) + f(x)
  {
    assert (s + [x])[..|s|] == s;
  }

  lemma SumIntCons<T>(x: T, s: seq<T>, f: T -> int)
    ensures SumInt([x] + s, f) == f(x) + SumInt(s, f)
  {
    SumIntConcat([x], s, f);
    assert [x][..0] == [];
  }

  lemma SumRealCons<T>(x: T, s: seq<T>, f: T -> real)
    ensures SumReal([x] + s, f) == f(x) + SumReal(s, f)
  {
    SumRealConcat([x], s, f);
    assert [x][..0] == [];
  }

  lemma {:induction false} SumIntInsert<T>(leq: (T, T) -> bool, x: T, s: seq<T>, f: T -> int)
    ensures SumInt(Insert(leq, x, s), f) == SumInt(s, f) + f(x)
    decreases |s|
  {
    if |s| > 0 {
      assert s == [s[0]] + s[1..];
      SumIntCons(s[0], s[1..], f);
      if leq(s[0], x) {
        SumIntInsert(leq, x, s[1..], f);
        SumIntCons(s[0], Insert(leq, x, s[1..]), f);
      } else {
        SumIntCons(x, s, f);
      }
    }
  }

  /** Ordering rows does not change their total. */
  lemma {:induction false} SumIntSort<T>(leq: (T, T) -> bool, s: seq<T>, f: T -> int)
    ensures SumInt(Sort(leq, s), f) == SumInt(s, f)
    decreases |s|
  {
    if |s| > 0 {
      SumIntSort(leq, s[..|s| - 1], f);
      SumIntInsert(leq, s[|s| - 1], Sort(leq, s[..|s| - 1]), f);
    }
  }

  lemma {:induction false} SumRealInsert<T>(leq: (T, T) -> bool, x: T, s: seq<T>, f: T -> real)
    ensures SumReal(Insert(leq, x, s), f) == SumReal(s, f) + f(x)
    decreases |s|
  {
    if |s| > 0 {
      assert s == [s[0]] + s[1..];
      SumRealCons(s[0], s[1..], f);
      if leq(s[0], x) {
        SumRealInsert(leq, x, s[1..], f);
        SumRealCons(s[0], Insert(leq, x, s[1..]), f);
      } else {
        SumRealCons(x, s, f);
      }
    }
  }

  lemma {:induction false} SumRealSort<T>(leq: (T, T) -> bool, s: seq<T>, f: T -> real)
    ensures SumReal(Sort(leq, s), f) == SumReal(s, f)
    decreases |s|
  {
    if |s| > 0 {
      SumRealSort(leq, s[..|s| - 1], f);
      SumRealInsert(leq, s[|s| - 1], Sort(leq, s[..|s| - 1]), f);
    }
  }

  /** Dropping only elements that contribute zero leaves the total unchanged. */
  lemma {:induction false} SumIntFilterZeros<T>(p: T -> bool, s: seq<T>, f: T -> int)
    requires forall i :: 0 <= i < |s| && !p(s[i]) ==> f(s[i]) == 0
    ensures SumInt(Filter(p, s), f) == SumInt(s, f)
    decreases |s|
  {
    if |s| > 0 {
      var init, x := s[..|s| - 1], s[|s| - 1];
      assert forall i :: 0 <= i < |init| ==> init[i] == s[i];
      SumIntFilterZeros(p, init, f);
      var fi := Filter(p, init);
      if p(x) {
        assert Filter(p, s) == fi + [x];
        SumIntSnoc(fi, x, f);
      } else {
        assert Filter(p, s) == fi;
      }
    }
  }

  /** Summing the kept elements is summing every element with the dropped
      ones counted as zero. */
  lemma {:induction false} SumIntFilterMask<T>(p: T -> bool, s: seq<T>, f: T -> int, g: T -> int)
    requires forall x :: g(x) == (if p(x) then f(x) else 0)
    ensures SumInt(Filter(p, s), f) == SumInt(s, g)
    decreases |s|
  {
    if |s| > 0 {
      var init, x := s[..|s| - 1], s[|s| - 1];
      SumIntFilterMask(p, init, f, g);
      var fi := Filter(p, init);
      if p(x) {
        assert Filter(p, s) == fi + [x];
        SumIntSnoc(fi, x, f);
      } else {
        assert Filter(p, s) == fi;
      }
    }
  }

  /** Replacing one element changes the total by the difference. */
  lemma SumIntUpdate<T>(s: seq<T>, k: nat, x: T, f: T -> int)
    requires k < |s|
    ensures SumInt(s[k := x], f) == SumInt(s, f) - f(s[k]) + f(x)
  {
    var pre, post := s[..k], s[k + 1..];
    assert s == pre + [s[k]] + post;
    assert s[k := x] == pre + [x] + post;
    SumIntConcat(pre + [s[k]], post, f);
    SumIntConcat(pre + [x], post, f);
    SumIntSnoc(pre, s[k], f);
    SumIntSnoc(pre, x, f);
  }

  /** Every summand non-negative makes the sum non-negative. */
  lemma {:induction false} SumIntNonNegative<T>(s: seq<T>, f: T -> int)
    requires forall x :: x in s ==> f(x) >= 0
    ensures SumInt(s, f) >= 0
    decreases |s|
  {
    if |s| > 0 {
      SumIntNonNegative(s[..|s| - 1], f);
    }
  }

  /** A non-negative sum is zero only when every summand is. */
  lemma {:induction false} SumIntZero<T>(s: seq<T>, f: T -> int)
    requires forall x :: x in s ==> f(x) >= 0
    requires SumInt(s, f) == 0
    ensures forall x :: x in s ==> f(x) == 0
    decreases |s|
  {
    if |s| > 0 {
      SumIntNonNegative(s[..|s| - 1], f);
      SumIntZero(s[..|s| - 1], f);
      assert s == s[..|s| - 1] + [s[|s| - 1]];
    }
  }

  /** Removing an element takes exactly its share off the total. */
  lemma {:induction false} SumRealRemoveFirst<T>(s: seq<T>, x: T, f: T -> real)
    requires x in s
    ensures SumReal(RemoveFirst(s, x), f) == SumReal(s, f) - f(x)
    decreases |s|
  {
    assert s == [s[0]] + s[1..];
    SumRealCons(s[0], s[1..], f);
    if s[0] != x {
      SumRealRemoveFirst(s[1..], x, f);
      SumRealCons(s[0], RemoveFirst(s[1..], x), f);
    }
  }
}
