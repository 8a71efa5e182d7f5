/**
 Sets of texts as the program keeps them: repetitions dropped, then sorted by
 code unit. The result depends on nothing but which texts occur.
 */
module TextSets {
  import opened Sequences
  import opened Sorting

  predicate TextLeq(a: string, b: string) {
    a == [] || (b != [] && (a[0] < b[0] || (a[0] == b[0] && TextLeq(a[1..], b[1..]))))
  }

  const TEXT_ORDER: (string, string) -> bool := (a: string, b: string) => TextLeq(a, b)

  lemma {:induction false} TextLeqIsTotal(a: string, b: string)
    ensures TextLeq(a, b) || TextLeq(b, a)
    ensures TextLeq(a, b) && TextLeq(b, a) ==> a == b
  {
    if a != [] && b != [] && a[0] == b[0] {
      TextLeqIsTotal(a[1..], b[1..]);
      assert a == [a[0]] + a[1..] && b == [b[0]] + b[1..];
    }
  }

  lemma {:induction false} TextLeqIsTransitive(a: string, b: string, c: string)
    requires TextLeq(a, b) && TextLeq(b, c)
    ensures TextLeq(a, c)
  {
    if a != [] && a[0] == b[0] && b[0] == c[0] {
      TextLeqIsTransitive(a[1..], b[1..], c[1..]);
    }
  }

  lemma TextOrderIsTotal()
    ensures TotalPreorder(TEXT_ORDER)
    ensures forall s: seq<string> :: NoTies(TEXT_ORDER, s)
  {
    forall a, b ensures TEXT_ORDER(a, b) || TEXT_ORDER(b, a) { TextLeqIsTotal(a, b); }
    forall a, b, c | TEXT_ORDER(a, b) && TEXT_ORDER(b, c) ensures TEXT_ORDER(a, c) { TextLeqIsTransitive(a, b, c); }
    forall s: seq<string>, a, b | a in s && b in s && TEXT_ORDER(a, b) && TEXT_ORDER(b, a) ensures a == b { TextLeqIsTotal(a, b); }
  }

  /** The first occurrence of every text, in order: the texts of a Set. */
  function Unique(s: seq<string>): (r: seq<string>)
    ensures forall x :: x in r <==> x in s
    ensures Distinct(r)
  {
    if s == [] then []
    else
      var front := Unique(s[..|s| - 1]);
      assert s == s[..|s| - 1] + [s[|s| - 1]];
      if s[|s| - 1] in front then front else front + [s[|s| - 1]]
  }

  function SortedSet(s: seq<string>): seq<string> {
    StableSort(TEXT_ORDER, Unique(s))
  }

  lemma SortedSetHolds(s: seq<string>)
    ensures forall x :: x in SortedSet(s) <==> x in s
    ensures Sorted(TEXT_ORDER, SortedSet(s))
    ensures Distinct(SortedSet(s))
  {
    TextOrderIsTotal();
    var u, t := Unique(s), SortedSet(s);
    StableSortHolds(TEXT_ORDER, u);
    forall x ensures x in t <==> x in s { SameElements(t, u, x); }
    DistinctAlong(u, t);
  }

  lemma SortedSetDependsOnMembers(a: seq<string>, b: seq<string>)
    requires forall x :: x in a <==> x in b
    ensures SortedSet(a) == SortedSet(b)
  {
    TextOrderIsTotal();
    SameMembersSameElements(Unique(a), Unique(b));
    SortForgetsOrder(TEXT_ORDER, Unique(a), Unique(b));
  }

  lemma SortedSetIsIdempotent(s: seq<string>)
    ensures SortedSet(SortedSet(s)) == SortedSet(s)
  {
    SortedSetHolds(s);
    SortedSetDependsOnMembers(SortedSet(s), s);
  }

  /** Texts are compared at their first difference, and a text comes before its continuations. */
  lemma {:induction false} TextLeqExactly(a: string, b: string)
    ensures TextLeq(a, b) <==> a <= b || exists k :: 0 <= k < |a| && k < |b| && a[..k] == b[..k] && a[k] < b[k]
  {
    if a != [] && b != [] {
      if a[0] == b[0] {
        var c, d := a[1..], b[1..];
        TextLeqExactly(c, d);
        assert a == [a[0]] + c && b == [b[0]] + d;
        if k :| 0 <= k < |c| && k < |d| && c[..k] == d[..k] && c[k] < d[k] {
          assert a[..k + 1] == [a[0]] + c[..k] && b[..k + 1] == [b[0]] + d[..k];
          assert a[k + 1] < b[k + 1];
        }
        if k :| 0 <= k < |a| && k < |b| && a[..k] == b[..k] && a[k] < b[k] {
          assert c[..k - 1] == a[..k][1..] && d[..k - 1] == b[..k][1..] && c[k - 1] < d[k - 1];
        }
      } else {
        assert a[..0] == b[..0];
        forall k | 0 < k < |a| && k < |b| ensures a[..k] != b[..k] { assert a[..k][0] == a[0] && b[..k][0] == b[0]; }
      }
    }
  }
}
