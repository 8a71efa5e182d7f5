/** Small facts about sequences that several modules share. */
module Sequences {

  lemma Assoc<T>(a: seq<T>, b: seq<T>, c: seq<T>)
    ensures (a + b) + c == a + (b + c)
  {
  }

  lemma SplitFirst<T>(a: seq<T>, b: seq<T>)
    requires a != []
    ensures (a + b)[0] == a[0] && (a + b)[1..] == a[1..] + b
  {
  }

  lemma SplitLast<T>(a: seq<T>, b: seq<T>)
    requires b != []
    ensures a + b != []
    ensures (a + b)[|a + b| - 1] == b[|b| - 1] && (a + b)[..|a + b| - 1] == a + b[..|b| - 1]
  {
  }

  lemma Empty<T>(a: seq<T>)
    ensures a + [] == a && [] + a == a
  {
  }

  lemma Singleton<T>(x: T)
    ensures [x][0] == x && [x][1..] == [] && [x][..0] == []
  {
  }

  /** Pigeonhole: as many distinct elements as there are places, all of them from those places, fill them all. */
  lemma {:induction false} Pigeonhole<T>(a: seq<T>, b: seq<T>)
    requires Distinct(a)
    requires forall x | x in a :: x in b
    requires |a| == |b|
    ensures multiset(a) == multiset(b)
  {
    if a != [] {
      assert a[0] in b;
      var k := Without(b, a[0]);
      var rest := b[..k] + b[k + 1..];
      assert a == [a[0]] + a[1..];
      forall x | x in a[1..] ensures x in rest {
        var i :| 0 <= i < |a[1..]| && a[1..][i] == x;
        assert a[0] != a[i + 1];
        assert x in a;
      }
      Pigeonhole(a[1..], rest);
    }
  }

  /** One occurrence taken out of a sequence. */
  lemma Without<T>(s: seq<T>, x: T) returns (k: nat)
    requires x in s
    ensures k < |s| && s[k] == x
    ensures multiset(s) == multiset{x} + multiset(s[..k] + s[k + 1..])
    ensures forall y | y in s && y != x :: y in s[..k] + s[k + 1..]
  {
    var i :| 0 <= i < |s| && s[i] == x;
    k := i;
    assert s == s[..k] + [s[k]] + s[k + 1..];
  }

  // ---------- Sequences without repetition ----------

  predicate Distinct<T(==)>(s: seq<T>) {
    forall i, j | 0 <= i < j < |s| :: s[i] != s[j]
  }

  lemma TwiceCounts<T>(s: seq<T>, i: nat, j: nat)
    requires i < j < |s| && s[i] == s[j]
    ensures multiset(s)[s[i]] >= 2
  {
    assert s == s[..i] + [s[i]] + s[i + 1..];
    assert s[j] in s[i + 1..];
    assert s[j] in multiset(s[i + 1..]);
  }

  lemma {:induction false} OnceCounts<T>(s: seq<T>, x: T)
    requires Distinct(s)
    ensures multiset(s)[x] == if x in s then 1 else 0
  {
    if s != [] {
      var front, last := s[..|s| - 1], s[|s| - 1];
      OnceCounts(front, x);
      assert s == front + [last];
    }
  }

  /** Without repetitions, the same members are the same elements. */
  lemma SameMembersSameElements<T>(a: seq<T>, b: seq<T>)
    requires Distinct(a) && Distinct(b) && forall x :: x in a <==> x in b
    ensures multiset(a) == multiset(b)
  {
    forall x ensures multiset(a)[x] == multiset(b)[x] {
      OnceCounts(a, x);
      OnceCounts(b, x);
    }
  }

  /** A rearrangement of a sequence without repetition has none either. */
  lemma DistinctAlong<T>(a: seq<T>, b: seq<T>)
    requires multiset(a) == multiset(b) && Distinct(a)
    ensures Distinct(b)
  {
    forall i, j | 0 <= i < j < |b| ensures b[i] != b[j] {
      if b[i] == b[j] {
        TwiceCounts(b, i, j);
        OnceCounts(a, b[i]);
      }
    }
  }
}
