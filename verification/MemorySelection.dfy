/**
 The bounded window over active memory: top selection by binary insertion, which
 is the front of the stable sort, and the compatibility snapshot built from it,
 which the checks of the direct snapshot path accept.
 */
module MemorySelection {
  import opened CanonicalJson
  import opened Sorting

  datatype Memory = Memory(
    memoryId: string,
    createdAt: string,
    content: Value,
    sourceEventIds: seq<string>,
    artifactHashes: seq<string>,
    eventIds: seq<string>)

  // ---------- The comparator ----------

  /** The host's text comparison: its sign orders texts, and different texts may compare equal. */
  type Collation = (string, string) -> int

  ghost predicate Consistent(collate: Collation) {
    && (forall a, b :: collate(a, b) < 0 <==> collate(b, a) > 0)
    && (forall a, b, c :: collate(a, b) <= 0 && collate(b, c) <= 0 ==> collate(a, c) <= 0)
  }

  function CompareMemory(collate: Collation, a: Memory, b: Memory): int {
    var byCreatedAt := collate(a.createdAt, b.createdAt);
    if byCreatedAt == 0 then collate(a.memoryId, b.memoryId) else byCreatedAt
  }

  function NotAfter(collate: Collation): (Memory, Memory) -> bool {
    (a: Memory, b: Memory) => CompareMemory(collate, a, b) <= 0
  }

  lemma CompareIsPreorder(collate: Collation)
    requires Consistent(collate)
    ensures TotalPreorder(NotAfter(collate))
    ensures forall a, b :: CompareMemory(collate, a, b) < 0 <==> !NotAfter(collate)(b, a)
  {
    forall a: Memory, b: Memory, c: Memory | NotAfter(collate)(a, b) && NotAfter(collate)(b, c) ensures NotAfter(collate)(a, c) {
      CompareIsTransitive(collate, a, b, c);
    }
    forall a: Memory, b: Memory
      ensures CompareMemory(collate, a, b) < 0 <==> CompareMemory(collate, b, a) > 0
    {
    }
  }

  lemma CompareIsTransitive(collate: Collation, a: Memory, b: Memory, c: Memory)
    requires Consistent(collate) && CompareMemory(collate, a, b) <= 0 && CompareMemory(collate, b, c) <= 0
    ensures CompareMemory(collate, a, c) <= 0
  {
    assert collate(a.createdAt, b.createdAt) <= 0 && collate(b.createdAt, c.createdAt) <= 0;
    if collate(a.createdAt, c.createdAt) == 0 {
      assert collate(c.createdAt, a.createdAt) <= 0;
      assert collate(b.createdAt, a.createdAt) <= 0 && collate(c.createdAt, b.createdAt) <= 0;
      assert collate(a.memoryId, b.memoryId) <= 0 && collate(b.memoryId, c.memoryId) <= 0;
    }
  }

  // ---------- Selection by binary insertion ----------

  function Take<T>(s: seq<T>, k: nat): seq<T> {
    if k < |s| then s[..k] else s
  }

  /** Everything before p may stand before x and everything from p on must stand after it. */
  predicate Splits<T>(leq: (T, T) -> bool, x: T, s: seq<T>, p: nat) {
    p <= |s| && (forall i | 0 <= i < p :: leq(s[i], x)) && (forall i | p <= i < |s| :: !leq(s[i], x))
  }

  lemma {:induction false} InsertAt<T>(leq: (T, T) -> bool, x: T, s: seq<T>, p: nat)
    requires Splits(leq, x, s, p)
    ensures StableInsert(leq, x, s) == s[..p] + [x] + s[p..]
  {
    if p > 0 {
      InsertAt(leq, x, s[1..], p - 1);
      assert s[1..][..p - 1] == s[1..p] && s[1..][p - 1..] == s[p..];
      assert s[..p] == [s[0]] + s[1..p];
    }
  }

  /** A sorted sequence has a place for every element. */
  lemma {:induction false} HasPlace<T(!new)>(leq: (T, T) -> bool, x: T, s: seq<T>) returns (p: nat)
    requires TotalPreorder(leq) && Sorted(leq, s)
    ensures Splits(leq, x, s, p)
  {
    if s == [] || !leq(s[0], x) {
      p := 0;
      forall i | 0 <= i < |s| ensures !leq(s[i], x) { if i > 0 { assert leq(s[0], s[i]); } }
    } else {
      var q := HasPlace(leq, x, s[1..]);
      p := q + 1;
      forall i | 0 <= i < |s| ensures i < p <==> leq(s[i], x) { if i > 0 { assert s[i] == s[1..][i - 1]; } }
    }
  }

  /** Inserting and then taking the front needs nothing but the front. */
  lemma TakeOfInsert<T(!new)>(leq: (T, T) -> bool, x: T, s: seq<T>, k: nat, p: nat)
    requires TotalPreorder(leq) && Sorted(leq, s) && Splits(leq, x, Take(s, k), p)
    ensures Take(StableInsert(leq, x, s), k) == if p < k then Take(Take(s, k)[..p] + [x] + Take(s, k)[p..], k) else Take(s, k)
  {
    var q := HasPlace(leq, x, s);
    InsertAt(leq, x, s, q);
    var t := Take(s, k);
    assert forall i | 0 <= i < |t| :: t[i] == s[i];
    if p < |t| {
      assert !leq(s[p], x) && (p > 0 ==> leq(s[p - 1], x));
      assert p == q;
    } else {
      assert forall i | 0 <= i < |t| :: leq(s[i], x);
      assert q < |s| ==> !leq(s[q], x);
    }
  }

  /** One memory more, given its place among those selected so far. */
  lemma SelectOneMore<T(!new)>(leq: (T, T) -> bool, memories: seq<T>, n: nat, limit: nat, low: nat)
    requires TotalPreorder(leq) && n < |memories|
    requires Splits(leq, memories[n], Take(StableSort(leq, memories[..n]), limit), low)
    ensures var selected := Take(StableSort(leq, memories[..n]), limit);
            Take(StableSort(leq, memories[..n + 1]), limit) ==
            if low < limit then Take(selected[..low] + [memories[n]] + selected[low..], limit) else selected
  {
    StableSortHolds(leq, memories[..n]);
    assert memories[..n + 1][..n] == memories[..n];
    TakeOfInsert(leq, memories[n], StableSort(leq, memories[..n]), limit, low);
  }

  lemma FrontIsSorted<T(!new)>(leq: (T, T) -> bool, s: seq<T>, k: nat)
    requires TotalPreorder(leq)
    ensures Sorted(leq, Take(StableSort(leq, s), k)) && |Take(StableSort(leq, s), k)| <= k
  {
    StableSortHolds(leq, s);
  }

  /** The window over the first n memories. */
  function Window(collate: Collation, memories: seq<Memory>, n: nat, limit: nat): seq<Memory>
    requires n <= |memories|
  {
    Take(StableSort(NotAfter(collate), memories[..n]), limit)
  }

  lemma WindowStep(collate: Collation, memories: seq<Memory>, n: nat, limit: nat, low: nat)
    requires Consistent(collate) && n < |memories| && Splits(NotAfter(collate), memories[n], Window(collate, memories, n, limit), low)
    ensures var selected := Window(collate, memories, n, limit);
            Window(collate, memories, n + 1, limit) ==
            if low < limit then Take(selected[..low] + [memories[n]] + selected[low..], limit) else selected
  {
    CompareIsPreorder(collate);
    SelectOneMore(NotAfter(collate), memories, n, limit, low);
  }

  lemma WindowIsSorted(collate: Collation, memories: seq<Memory>, n: nat, limit: nat)
    requires Consistent(collate) && n <= |memories|
    ensures Sorted(NotAfter(collate), Window(collate, memories, n, limit)) && |Window(collate, memories, n, limit)| <= limit
  {
    CompareIsPreorder(collate);
    FrontIsSorted(NotAfter(collate), memories[..n], limit);
  }

  lemma WindowOfNone(collate: Collation, memories: seq<Memory>, limit: nat)
    ensures Window(collate, memories, 0, limit) == []
  {
    assert memories[..0] == [];
  }

  method SelectTopMemory(collate: Collation, memories: seq<Memory>, limit: nat) returns (selected: seq<Memory>)
    requires Consistent(collate)
    ensures selected == Take(StableSort(NotAfter(collate), memories), limit)
  {
    WindowOfNone(collate, memories, limit);
    selected := [];
    var n := 0;
    while n < |memories|
      invariant 0 <= n <= |memories|
      invariant selected == Window(collate, memories, n, limit)
    {
      WindowIsSorted(collate, memories, n, limit);
      var low := FindPlace(collate, memories[n], selected);
      WindowStep(collate, memories, n, limit, low);
      if low < limit {
        selected := selected[..low] + [memories[n]] + selected[low..];
        if |selected| > limit { selected := selected[..|selected| - 1]; }
      }
      n := n + 1;
    }
    assert memories[..n] == memories;
  }

  /** The binary search. */
  method FindPlace(collate: Collation, memory: Memory, selected: seq<Memory>) returns (low: nat)
    requires Consistent(collate) && Sorted(NotAfter(collate), selected)
    ensures Splits(NotAfter(collate), memory, selected, low)
  {
    CompareIsPreorder(collate);
    var high := |selected|;
    low := 0;
    while low < high
      invariant 0 <= low <= high <= |selected|
      invariant forall i | 0 <= i < low :: NotAfter(collate)(selected[i], memory)
      invariant forall i | high <= i < |selected| :: !NotAfter(collate)(selected[i], memory)
    {
      var middle := (low + high) / 2;
      if CompareMemory(collate, memory, selected[middle]) < 0 {
        forall i | middle <= i < |selected| ensures !NotAfter(collate)(selected[i], memory) {
          assert i > middle ==> NotAfter(collate)(selected[middle], selected[i]);
        }
        high := middle;
      } else {
        forall i | 0 <= i <= middle ensures NotAfter(collate)(selected[i], memory) {
          assert i < middle ==> NotAfter(collate)(selected[i], selected[middle]);
        }
        low := middle + 1;
      }
    }
  }

  /**
   What the window holds, without naming the algorithm: it is the front of the
   one sorted arrangement of the memories that keeps ties in their order; the
   selection leaves out only memories that may not precede any selected one.
   */
  lemma SelectionIsTop(collate: Collation, memories: seq<Memory>, limit: nat, arranged: seq<Memory>)
    requires Consistent(collate)
    requires Sorted(NotAfter(collate), arranged) && SameClasses(NotAfter(collate), arranged, memories)
    ensures Take(StableSort(NotAfter(collate), memories), limit) == Take(arranged, limit)
    ensures |Take(arranged, limit)| == if limit < |memories| then limit else |memories|
    ensures forall m, t | m in arranged[|Take(arranged, limit)|..] && t in Take(arranged, limit) :: NotAfter(collate)(t, m)
  {
    CompareIsPreorder(collate);
    OneArrangement(NotAfter(collate), memories, arranged);
    FrontPrecedes(NotAfter(collate), arranged, limit);
  }

  lemma OneArrangement<T(!new)>(leq: (T, T) -> bool, s: seq<T>, arranged: seq<T>)
    requires TotalPreorder(leq) && Sorted(leq, arranged) && SameClasses(leq, arranged, s)
    ensures StableSort(leq, s) == arranged && |arranged| == |s|
  {
    StableSortHolds(leq, s);
    forall x ensures Class(leq, x, StableSort(leq, s)) == Class(leq, x, arranged) {
      StableSortKeepsClasses(leq, x, s);
      assert Class(leq, x, arranged) == Class(leq, x, s);
    }
    SortedIsUnique(leq, StableSort(leq, s), arranged);
  }

  lemma FrontPrecedes<T>(leq: (T, T) -> bool, s: seq<T>, k: nat)
    requires Sorted(leq, s)
    ensures forall m, t | m in s[|Take(s, k)|..] && t in Take(s, k) :: leq(t, m)
  {
    var top := Take(s, k);
    forall m, t | m in s[|top|..] && t in top ensures leq(t, m) {
      var i :| 0 <= i < |top| && top[i] == t;
      var j :| |top| <= j < |s| && s[j] == m;
      assert s[i] == t;
    }
  }

  /** Created earlier, or at the same time and with an identifier that does not come after. */
  predicate NoLater(collate: Collation, a: Memory, b: Memory) {
    collate(a.createdAt, b.createdAt) < 0 || (collate(a.createdAt, b.createdAt) == 0 && collate(a.memoryId, b.memoryId) <= 0)
  }

  /**
   What the window holds, in terms of the collation itself: the memories stand in
   some order of creation and identifier, the window is the front of it, and so
   no memory that is left out was created before one that is selected.
   */
  lemma SelectionByTime(collate: Collation, memories: seq<Memory>, limit: nat)
    requires Consistent(collate)
    ensures var all := StableSort(NotAfter(collate), memories);
            var selected := Take(all, limit);
            && multiset(all) == multiset(memories) && |selected| == (if limit < |memories| then limit else |memories|)
            && (forall i | 0 <= i < |selected| :: selected[i] == all[i])
            && (forall i, j | 0 <= i < j < |all| :: NoLater(collate, all[i], all[j]))
            && (forall m, t | m in all[|selected|..] && t in selected :: collate(m.createdAt, t.createdAt) >= 0)
  {
    CompareIsPreorder(collate);
    StableSortHolds(NotAfter(collate), memories);
    var all := StableSort(NotAfter(collate), memories);
    var selected := Take(all, limit);
    forall i, j | 0 <= i < j < |all| ensures NoLater(collate, all[i], all[j]) {
      assert NotAfter(collate)(all[i], all[j]);
    }
    forall m, t | m in all[|selected|..] && t in selected ensures collate(m.createdAt, t.createdAt) >= 0 {
      var i :| 0 <= i < |selected| && selected[i] == t;
      var j :| |selected| <= j < |all| && all[j] == m;
      assert NoLater(collate, all[i], all[j]);
    }
  }
}
