/**
 Stable sorting by a comparator that may leave ties: the sorted arrangement that
 keeps equal elements in their order is the only one, and it forgets the order
 of its input exactly as far as the comparator tells the elements apart.
 */
module Sorting {
  import Sequences

  ghost predicate TotalPreorder<T(!new)>(leq: (T, T) -> bool) {
    && (forall a, b :: leq(a, b) || leq(b, a))
    && (forall a, b, c :: leq(a, b) && leq(b, c) ==> leq(a, c))
  }

  predicate Sorted<T>(leq: (T, T) -> bool, s: seq<T>) {
    forall i, j | 0 <= i < j < |s| :: leq(s[i], s[j])
  }

  /** Puts x before the first element that it strictly precedes, so behind everything equal to it. */
  function StableInsert<T>(leq: (T, T) -> bool, x: T, s: seq<T>): seq<T> {
    if s == [] then [x]
    else if leq(s[0], x) then [s[0]] + StableInsert(leq, x, s[1..])
    else [x] + s
  }

  /** Inserts the elements one by one, in order. */
  function StableSort<T>(leq: (T, T) -> bool, s: seq<T>): seq<T> {
    if s == [] then [] else StableInsert(leq, s[|s| - 1], StableSort(leq, s[..|s| - 1]))
  }

  /** The elements that tie with x, in order. */
  function Class<T>(leq: (T, T) -> bool, x: T, s: seq<T>): seq<T> {
    if s == [] then [] else (if leq(s[0], x) && leq(x, s[0]) then [s[0]] else []) + Class(leq, x, s[1..])
  }

  lemma {:induction false} InsertElements<T>(leq: (T, T) -> bool, x: T, s: seq<T>)
    ensures multiset(StableInsert(leq, x, s)) == multiset(s) + multiset{x}
    ensures |StableInsert(leq, x, s)| == |s| + 1
  {
    if s != [] && leq(s[0], x) {
      InsertElements(leq, x, s[1..]);
      assert s == [s[0]] + s[1..];
    }
  }

  lemma SortedCons<T>(leq: (T, T) -> bool, x: T, s: seq<T>)
    requires Sorted(leq, s) && forall e | e in s :: leq(x, e)
    ensures Sorted(leq, [x] + s)
  {
  }

  lemma FirstIsLeast<T(!new)>(leq: (T, T) -> bool, s: seq<T>, e: T)
    requires TotalPreorder(leq) && Sorted(leq, s) && e in s
    ensures leq(s[0], e)
  {
    var j :| 0 <= j < |s| && s[j] == e;
    assert leq(s[0], s[0]);
  }

  lemma {:induction false} InsertKeeps<T(!new)>(leq: (T, T) -> bool, x: T, s: seq<T>)
    requires TotalPreorder(leq) && Sorted(leq, s)
    ensures Sorted(leq, StableInsert(leq, x, s))
    ensures multiset(StableInsert(leq, x, s)) == multiset(s) + multiset{x}
    ensures |StableInsert(leq, x, s)| == |s| + 1
  {
    InsertElements(leq, x, s);
    if s != [] && leq(s[0], x) {
      InsertKeeps(leq, x, s[1..]);
      var rest := StableInsert(leq, x, s[1..]);
      forall e | e in rest ensures leq(s[0], e) {
        assert e in multiset(rest);
        if e in s[1..] { FirstIsLeast(leq, s, e); }
      }
      SortedCons(leq, s[0], rest);
    } else if s != [] {
      forall e | e in s ensures leq(x, e) { FirstIsLeast(leq, s, e); }
      SortedCons(leq, x, s);
    }
  }

  lemma {:induction false} StableSortElements<T>(leq: (T, T) -> bool, s: seq<T>)
    ensures multiset(StableSort(leq, s)) == multiset(s)
  {
    if s != [] {
      StableSortElements(leq, s[..|s| - 1]);
      InsertElements(leq, s[|s| - 1], StableSort(leq, s[..|s| - 1]));
      assert s == s[..|s| - 1] + [s[|s| - 1]];
    }
  }

  lemma {:induction false} StableSortHolds<T(!new)>(leq: (T, T) -> bool, s: seq<T>)
    requires TotalPreorder(leq)
    ensures Sorted(leq, StableSort(leq, s))
    ensures multiset(StableSort(leq, s)) == multiset(s)
    ensures |StableSort(leq, s)| == |s|
  {
    if s != [] {
      StableSortHolds(leq, s[..|s| - 1]);
      InsertKeeps(leq, s[|s| - 1], StableSort(leq, s[..|s| - 1]));
      assert s == s[..|s| - 1] + [s[|s| - 1]];
    }
  }

  lemma ClassOfCons<T>(leq: (T, T) -> bool, x: T, y: T, s: seq<T>)
    ensures Class(leq, x, [y] + s) == (if leq(y, x) && leq(x, y) then [y] else []) + Class(leq, x, s)
  {
    Sequences.SplitFirst([y], s);
    Sequences.Singleton(y);
    Sequences.Empty(s);
  }

  lemma {:induction false} ClassOver<T>(leq: (T, T) -> bool, x: T, a: seq<T>, b: seq<T>)
    ensures Class(leq, x, a + b) == Class(leq, x, a) + Class(leq, x, b)
  {
    if a == [] {
      Sequences.Empty(b);
    } else {
      ClassOver(leq, x, a[1..], b);
      assert a == [a[0]] + a[1..];
      Sequences.Assoc([a[0]], a[1..], b);
      ClassOfCons(leq, x, a[0], a[1..] + b);
      ClassOfCons(leq, x, a[0], a[1..]);
      Sequences.Assoc(if leq(a[0], x) && leq(x, a[0]) then [a[0]] else [], Class(leq, x, a[1..]), Class(leq, x, b));
    }
  }

  lemma ClassOfSplit<T>(leq: (T, T) -> bool, x: T, s: seq<T>)
    requires s != []
    ensures Class(leq, x, s) == (if leq(s[0], x) && leq(x, s[0]) then [s[0]] else []) + Class(leq, x, s[1..])
  {
  }

  /** An inserted element comes last among those it ties with. */
  lemma {:induction false} InsertIntoClass<T(!new)>(leq: (T, T) -> bool, y: T, x: T, s: seq<T>)
    requires TotalPreorder(leq) && Sorted(leq, s)
    ensures Class(leq, y, StableInsert(leq, x, s)) == Class(leq, y, s) + if leq(x, y) && leq(y, x) then [x] else []
  {
    var own := if leq(x, y) && leq(y, x) then [x] else [];
    if s != [] && leq(s[0], x) {
      InsertIntoClass(leq, y, x, s[1..]);
      ClassOfCons(leq, y, s[0], StableInsert(leq, x, s[1..]));
      ClassOfSplit(leq, y, s);
      Sequences.Assoc(if leq(s[0], y) && leq(y, s[0]) then [s[0]] else [], Class(leq, y, s[1..]), own);
    } else {
      Sequences.Empty([x]);
      ClassOfCons(leq, y, x, s);
      if leq(x, y) && leq(y, x) { NothingTies(leq, y, x, s); }
      Sequences.Empty(own);
      Sequences.Empty(Class(leq, y, s));
    }
  }

  lemma {:induction false} NothingTies<T(!new)>(leq: (T, T) -> bool, y: T, x: T, s: seq<T>)
    requires TotalPreorder(leq) && Sorted(leq, s) && leq(x, y) && leq(y, x)
    requires s != [] ==> !leq(s[0], x)
    ensures Class(leq, y, s) == []
  {
    if s != [] {
      if |s| > 1 { assert leq(s[0], s[1]); }
      NothingTies(leq, y, x, s[1..]);
    }
  }

  /** Stability: every group of equal elements comes out in the order it went in. */
  lemma {:induction false} StableSortKeepsClasses<T(!new)>(leq: (T, T) -> bool, y: T, s: seq<T>)
    requires TotalPreorder(leq)
    ensures Class(leq, y, StableSort(leq, s)) == Class(leq, y, s)
  {
    if s != [] {
      var front, last := s[..|s| - 1], s[|s| - 1];
      StableSortKeepsClasses(leq, y, front);
      StableSortHolds(leq, front);
      InsertIntoClass(leq, y, last, StableSort(leq, front));
      ClassOver(leq, y, front, [last]);
      assert s == front + [last] && [last][1..] == [];
    }
  }

  lemma {:induction false} ClassHolds<T>(leq: (T, T) -> bool, x: T, s: seq<T>)
    ensures forall e | e in Class(leq, x, s) :: e in s && leq(e, x) && leq(x, e)
    ensures forall e | e in s && leq(e, x) && leq(x, e) :: e in Class(leq, x, s)
  {
    if s != [] { ClassHolds(leq, x, s[1..]); }
  }

  ghost predicate SameClasses<T(!new)>(leq: (T, T) -> bool, a: seq<T>, b: seq<T>) {
    forall x :: Class(leq, x, a) == Class(leq, x, b)
  }

  lemma HeadIsLeast<T(!new)>(leq: (T, T) -> bool, a: seq<T>, b: seq<T>)
    requires TotalPreorder(leq) && Sorted(leq, b) && SameClasses(leq, a, b) && a != []
    ensures b != [] && leq(b[0], a[0])
  {
    ClassHolds(leq, a[0], a);
    ClassHolds(leq, a[0], b);
    var e := a[0];
    assert leq(e, e) && e in Class(leq, e, a);
    assert e in b;
    var j :| 0 <= j < |b| && b[j] == e;
    assert j > 0 ==> leq(b[0], b[j]);
  }

  /** Two sorted arrangements with the same groups of equal elements are the same. */
  lemma {:induction false} SortedIsUnique<T(!new)>(leq: (T, T) -> bool, a: seq<T>, b: seq<T>)
    requires TotalPreorder(leq) && Sorted(leq, a) && Sorted(leq, b) && SameClasses(leq, a, b)
    ensures a == b
  {
    if a != [] {
      HeadIsLeast(leq, a, b);
      HeadIsLeast(leq, b, a);
      ClassOfSplit(leq, a[0], a);
      ClassOfSplit(leq, a[0], b);
      assert leq(a[0], a[0]);
      assert Class(leq, a[0], a)[0] == a[0] && Class(leq, a[0], b)[0] == b[0];
      forall x ensures Class(leq, x, a[1..]) == Class(leq, x, b[1..]) {
        ClassOfSplit(leq, x, a);
        ClassOfSplit(leq, x, b);
        var head := if leq(a[0], x) && leq(x, a[0]) then [a[0]] else [];
        assert Class(leq, x, a)[|head|..] == Class(leq, x, a[1..]);
        assert Class(leq, x, b)[|head|..] == Class(leq, x, b[1..]);
      }
      SortedIsUnique(leq, a[1..], b[1..]);
    } else if b != [] {
      HeadIsLeast(leq, b, a);
    }
  }

  /** Sorting what is sorted changes nothing. */
  lemma SortIsIdempotent<T(!new)>(leq: (T, T) -> bool, s: seq<T>)
    requires TotalPreorder(leq)
    ensures StableSort(leq, StableSort(leq, s)) == StableSort(leq, s)
  {
    var t := StableSort(leq, s);
    StableSortHolds(leq, s);
    StableSortHolds(leq, t);
    forall x ensures Class(leq, x, StableSort(leq, t)) == Class(leq, x, t) { StableSortKeepsClasses(leq, x, t); }
    SortedIsUnique(leq, StableSort(leq, t), t);
  }

  /** Elements that tie are equal. */
  predicate NoTies<T(==)>(leq: (T, T) -> bool, s: seq<T>) {
    forall a, b | a in s && b in s && leq(a, b) && leq(b, a) :: a == b
  }

  lemma SameElements<T>(a: seq<T>, b: seq<T>, x: T)
    requires multiset(a) == multiset(b)
    ensures x in a <==> x in b
  {
    assert x in a <==> x in multiset(a);
    assert x in b <==> x in multiset(b);
  }

  lemma SameTails<T>(a: seq<T>, b: seq<T>)
    requires multiset(a) == multiset(b) && a != [] && b != [] && a[0] == b[0]
    ensures multiset(a[1..]) == multiset(b[1..])
  {
    assert a == [a[0]] + a[1..] && b == [b[0]] + b[1..];
    assert multiset(a[1..]) == multiset(a) - multiset{a[0]};
    assert multiset(b[1..]) == multiset(b) - multiset{b[0]};
  }

  lemma SameHeads<T(!new)>(leq: (T, T) -> bool, a: seq<T>, b: seq<T>)
    requires TotalPreorder(leq) && Sorted(leq, a) && Sorted(leq, b) && multiset(a) == multiset(b) && NoTies(leq, a)
    ensures |a| == |b|
    ensures a != [] ==> a[0] == b[0]
  {
    assert |multiset(a)| == |a| && |multiset(b)| == |b|;
    if a != [] {
      SameElements(a, b, a[0]);
      SameElements(a, b, b[0]);
      FirstIsLeast(leq, a, b[0]);
      FirstIsLeast(leq, b, a[0]);
    }
  }

  /** Without ties, a sorted arrangement is determined by its elements alone. */
  lemma {:induction false} SortedByElements<T(!new)>(leq: (T, T) -> bool, a: seq<T>, b: seq<T>)
    requires TotalPreorder(leq) && Sorted(leq, a) && Sorted(leq, b) && multiset(a) == multiset(b) && NoTies(leq, a)
    ensures a == b
  {
    SameHeads(leq, a, b);
    if a != [] {
      SameTails(a, b);
      SortedByElements(leq, a[1..], b[1..]);
    }
  }

  /** Where the comparator tells all elements apart, sorting forgets the order of its input. */
  lemma SortForgetsOrder<T(!new)>(leq: (T, T) -> bool, a: seq<T>, b: seq<T>)
    requires TotalPreorder(leq) && multiset(a) == multiset(b) && NoTies(leq, a)
    ensures StableSort(leq, a) == StableSort(leq, b)
  {
    StableSortHolds(leq, a);
    StableSortHolds(leq, b);
    forall x ensures x in StableSort(leq, a) <==> x in a { SameElements(StableSort(leq, a), a, x); }
    SortedByElements(leq, StableSort(leq, a), StableSort(leq, b));
  }

  /** Two inputs sort alike exactly when their groups of equal elements are the same sequences. */
  lemma SortsAlikeIff<T(!new)>(leq: (T, T) -> bool, a: seq<T>, b: seq<T>)
    requires TotalPreorder(leq)
    ensures StableSort(leq, a) == StableSort(leq, b) <==> SameClasses(leq, a, b)
  {
    StableSortHolds(leq, a);
    StableSortHolds(leq, b);
    forall x
      ensures Class(leq, x, StableSort(leq, a)) == Class(leq, x, a)
      ensures Class(leq, x, StableSort(leq, b)) == Class(leq, x, b)
    {
      StableSortKeepsClasses(leq, x, a);
      StableSortKeepsClasses(leq, x, b);
    }
    if SameClasses(leq, a, b) { SortedIsUnique(leq, StableSort(leq, a), StableSort(leq, b)); }
  }

  // ---------- Sorting and mapping ----------

  function Map<T, U>(f: T -> U, s: seq<T>): (r: seq<U>)
    ensures |r| == |s| && forall i | 0 <= i < |r| :: r[i] == f(s[i])
  {
    seq(|s|, i requires 0 <= i < |s| => f(s[i]))
  }

  lemma {:induction false} InsertCommutesWithMap<T(!new), U>(leq: (T, T) -> bool, leqU: (U, U) -> bool, f: T -> U, x: T, s: seq<T>)
    requires forall a, b :: leqU(f(a), f(b)) == leq(a, b)
    ensures Map(f, StableInsert(leq, x, s)) == StableInsert(leqU, f(x), Map(f, s))
  {
    if s != [] {
      InsertCommutesWithMap(leq, leqU, f, x, s[1..]);
      assert Map(f, s)[1..] == Map(f, s[1..]);
    }
  }

  /** Mapping that the comparator does not notice may be done before or after sorting. */
  lemma {:induction false} SortCommutesWithMap<T(!new), U>(leq: (T, T) -> bool, leqU: (U, U) -> bool, f: T -> U, s: seq<T>)
    requires forall a, b :: leqU(f(a), f(b)) == leq(a, b)
    ensures Map(f, StableSort(leq, s)) == StableSort(leqU, Map(f, s))
  {
    if s != [] {
      var front, last := s[..|s| - 1], s[|s| - 1];
      SortCommutesWithMap(leq, leqU, f, front);
      InsertCommutesWithMap(leq, leqU, f, last, StableSort(leq, front));
      assert Map(f, s)[..|s| - 1] == Map(f, front);
    }
  }
}
