/**
 The snapshot of working memory: the checks of the direct path, the snapshot
 that the compatibility path builds from a projection, and the proof that the
 second always passes the first, as long as its items do.
 */
module MemorySnapshot {
  import opened CanonicalJson
  import opened Sorting
  import opened TextSets
  import opened MemorySelection

  datatype Item = Item(memoryId: string, content: Value, sourceEventIds: seq<string>, artifactHashes: seq<string>)

  datatype Window = Window(order: string, limit: int, cursor: Option<string>, hasMore: bool, totalCount: int, omissionCodes: seq<string>)

  datatype Snapshot = Snapshot(
    highWaterMark: int,
    sourceRef: string,
    activeMemory: seq<Item>,
    counts: map<string, int>,
    sourceEventIds: seq<string>,
    artifactHashes: seq<string>,
    window: Window,
    emptyProof: Option<Value>,
    lifecycleRefs: seq<string>)

  datatype Error =
    | InvalidHighWaterMark | SourceMismatch | InvalidItem | InvalidCounts | InvalidIds | InvalidWindow
    | ExceedsWindow | WindowTooSmall | CountsTooSmall | ProvenanceMismatch | InvalidProof

  datatype Result = Ok(snapshot: Snapshot) | Err(error: Error)

  /** The screening of texts: an item's own fields, event identifiers, artifact hashes, cursors, omission codes, proofs. */
  datatype Screens = Screens(
    item: (string, Value) -> bool, eventId: string -> bool, hash: string -> bool, cursor: string -> bool,
    omission: string -> bool, proof: Value -> bool)

  const MAXIMUM_WINDOW := 25
  const MEMORY_SOURCE := "agent.projection.memory"

  // ---------- The direct path ----------

  predicate ItemAccepted(v: Screens, i: Item) {
    && v.item(i.memoryId, i.content)
    && (forall id | id in i.sourceEventIds :: v.eventId(id))
    && (forall h | h in i.artifactHashes :: v.hash(h))
  }

  function NormalItem(i: Item): Item {
    i.(sourceEventIds := SortedSet(i.sourceEventIds), artifactHashes := SortedSet(i.artifactHashes))
  }

  function NormalItems(items: seq<Item>): (r: seq<Item>)
    ensures |r| == |items| && forall k | 0 <= k < |r| :: r[k] == NormalItem(items[k])
  {
    seq(|items|, k requires 0 <= k < |items| => NormalItem(items[k]))
  }

  function AllEventIds(items: seq<Item>): (r: seq<string>)
    ensures forall x :: x in r <==> exists i :: i in items && x in i.sourceEventIds
  {
    if items == [] then []
    else
      assert items == [items[0]] + items[1..];
      items[0].sourceEventIds + AllEventIds(items[1..])
  }

  function AllHashes(items: seq<Item>): (r: seq<string>)
    ensures forall x :: x in r <==> exists i :: i in items && x in i.artifactHashes
  {
    if items == [] then []
    else
      assert items == [items[0]] + items[1..];
      items[0].artifactHashes + AllHashes(items[1..])
  }

  predicate IsLetter(c: char) { 'a' <= c <= 'z' || 'A' <= c <= 'Z' }

  /** A field name followed by a colon and a direction. */
  predicate OrderWellFormed(s: string) {
    exists n :: 0 < n < |s| && (s[n..] == ":asc" || s[n..] == ":desc") && IsLetter(s[0])
                && forall i | 0 < i < n :: IsLetter(s[i]) || '0' <= s[i] <= '9' || s[i] in "._-"
  }

  predicate WindowAccepted(v: Screens, w: Window) {
    && OrderWellFormed(w.order) && w.limit > 0 && w.totalCount >= 0
    && (w.cursor.Some? ==> v.cursor(w.cursor.value))
    && (forall c | c in w.omissionCodes :: v.omission(c))
  }

  predicate CountsAccepted(counts: map<string, int>) {
    (forall k | k in counts :: counts[k] >= 0) && "active" in counts && "totalCount" in counts
  }

  /** sameStringSet. */
  predicate SameTextSet(a: seq<string>, b: seq<string>) {
    SortedSet(a) == SortedSet(b)
  }

  predicate IdsAccepted(v: Screens, s: Snapshot) {
    (forall id | id in s.sourceEventIds :: v.eventId(id)) && (forall h | h in s.artifactHashes :: v.hash(h))
  }

  /** The window covers n visible items. */
  predicate WindowCovers(w: Window, n: nat) {
    w.totalCount >= n && (w.hasMore ==> w.totalCount > n)
  }

  predicate CountsCover(counts: map<string, int>, n: nat)
    requires CountsAccepted(counts)
  {
    counts["active"] >= n && counts["totalCount"] >= n
  }

  predicate ProvenanceMatches(s: Snapshot, items: seq<Item>) {
    && SameTextSet(SortedSet(s.sourceEventIds), SortedSet(AllEventIds(items)))
    && SameTextSet(SortedSet(s.artifactHashes), SortedSet(AllHashes(items)))
  }

  function Normalised(s: Snapshot, items: seq<Item>): Snapshot {
    s.(activeMemory := items, sourceEventIds := SortedSet(AllEventIds(items)), artifactHashes := SortedSet(AllHashes(items)),
       window := s.window.(omissionCodes := SortedSet(s.window.omissionCodes)), lifecycleRefs := [])
  }

  /** normalizeDirectMemorySnapshot, check by check. */
  function Direct(v: Screens, s: Snapshot): Result {
    var n := |s.activeMemory|;
    if s.highWaterMark < 0 then Err(InvalidHighWaterMark)
    else if s.sourceRef != MEMORY_SOURCE then Err(SourceMismatch)
    else if exists i :: i in s.activeMemory && !ItemAccepted(v, i) then Err(InvalidItem)
    else if !CountsAccepted(s.counts) then Err(InvalidCounts)
    else if !IdsAccepted(v, s) then Err(InvalidIds)
    else if !WindowAccepted(v, s.window) then Err(InvalidWindow)
    else if n > s.window.limit then Err(ExceedsWindow)
    else if !WindowCovers(s.window, n) then Err(WindowTooSmall)
    else if !CountsCover(s.counts, n) then Err(CountsTooSmall)
    else
      var items := NormalItems(s.activeMemory);
      if !ProvenanceMatches(s, items) then Err(ProvenanceMismatch)
      else if s.emptyProof.Some? && !v.proof(s.emptyProof.value) then Err(InvalidProof)
      else Ok(Normalised(s, items))
  }

  // ---------- The compatibility path ----------

  function ItemOf(m: Memory): Item {
    Item(m.memoryId, m.content, m.sourceEventIds, m.artifactHashes)
  }

  function ItemsOf(ms: seq<Memory>): (r: seq<Item>)
    ensures |r| == |ms| && forall k | 0 <= k < |r| :: r[k] == ItemOf(ms[k])
  {
    seq(|ms|, k requires 0 <= k < |ms| => ItemOf(ms[k]))
  }

  function AllLifecycleIds(ms: seq<Memory>): seq<string> {
    if ms == [] then [] else ms[0].eventIds + AllLifecycleIds(ms[1..])
  }

  /** The window limit: at least one, at most the maximum. */
  function WindowLimit(maxItems: Option<int>): (n: nat)
    ensures 1 <= n <= MAXIMUM_WINDOW
  {
    var asked := if maxItems.Some? then maxItems.value else MAXIMUM_WINDOW;
    if asked < 1 then 1 else if asked > MAXIMUM_WINDOW then MAXIMUM_WINDOW else asked
  }

  function SnapshotOf(selected: seq<Memory>, total: nat, limit: nat, highWaterMark: int): Snapshot {
    var items := ItemsOf(selected);
    Snapshot(highWaterMark, MEMORY_SOURCE, items, map["active" := total, "totalCount" := total],
             SortedSet(AllEventIds(items)), SortedSet(AllHashes(items)),
             Window("createdAt:asc", limit, None, total > |selected|, total, []), None, Unique(AllLifecycleIds(selected)))
  }

  method CompatibilitySnapshot(collate: Collation, memories: seq<Memory>, maxItems: Option<int>, highWaterMark: int)
    returns (snapshot: Snapshot)
    requires Consistent(collate)
    ensures snapshot == SnapshotOf(Take(StableSort(NotAfter(collate), memories), WindowLimit(maxItems)), |memories|, WindowLimit(maxItems), highWaterMark)
  {
    var total := |memories|;
    var limit := WindowLimit(maxItems);
    var selected := SelectTopMemory(collate, memories, limit);
    return SnapshotOf(selected, total, limit, highWaterMark);
  }

  lemma NormalItemsKeepIds(items: seq<Item>)
    ensures SortedSet(AllEventIds(NormalItems(items))) == SortedSet(AllEventIds(items))
    ensures SortedSet(AllHashes(NormalItems(items))) == SortedSet(AllHashes(items))
  {
    var normal := NormalItems(items);
    forall x ensures x in AllEventIds(normal) <==> x in AllEventIds(items) { EventIdsAgree(items, x); }
    forall x ensures x in AllHashes(normal) <==> x in AllHashes(items) { HashesAgree(items, x); }
    SortedSetDependsOnMembers(AllEventIds(normal), AllEventIds(items));
    SortedSetDependsOnMembers(AllHashes(normal), AllHashes(items));
  }

  lemma EventIdsAgree(items: seq<Item>, x: string)
    ensures x in AllEventIds(NormalItems(items)) <==> x in AllEventIds(items)
  {
    var normal := NormalItems(items);
    if i :| i in normal && x in i.sourceEventIds {
      var k :| 0 <= k < |items| && normal[k] == i;
      SortedSetHolds(items[k].sourceEventIds);
      assert items[k] in items;
    }
    if i :| i in items && x in i.sourceEventIds {
      var k :| 0 <= k < |items| && items[k] == i;
      SortedSetHolds(i.sourceEventIds);
      assert normal[k] in normal;
    }
  }

  lemma HashesAgree(items: seq<Item>, x: string)
    ensures x in AllHashes(NormalItems(items)) <==> x in AllHashes(items)
  {
    var normal := NormalItems(items);
    if i :| i in normal && x in i.artifactHashes {
      var k :| 0 <= k < |items| && normal[k] == i;
      SortedSetHolds(items[k].artifactHashes);
      assert items[k] in items;
    }
    if i :| i in items && x in i.artifactHashes {
      var k :| 0 <= k < |items| && items[k] == i;
      SortedSetHolds(i.artifactHashes);
      assert normal[k] in normal;
    }
  }

  lemma CreatedAscIsWellFormed()
    ensures OrderWellFormed("createdAt:asc")
  {
    var s := "createdAt:asc";
    assert s[9..] == ":asc";
  }

  lemma AcceptedIdsAreSafe(v: Screens, items: seq<Item>)
    requires forall i | i in items :: ItemAccepted(v, i)
    ensures forall id | id in SortedSet(AllEventIds(items)) :: v.eventId(id)
    ensures forall h | h in SortedSet(AllHashes(items)) :: v.hash(h)
  {
    SortedSetHolds(AllEventIds(items));
    SortedSetHolds(AllHashes(items));
  }

  lemma BuiltFromItsItems(s: Snapshot)
    requires s.sourceEventIds == SortedSet(AllEventIds(s.activeMemory)) && s.artifactHashes == SortedSet(AllHashes(s.activeMemory))
    requires s.window.omissionCodes == []
    ensures var items := NormalItems(s.activeMemory);
            ProvenanceMatches(s, items) && Normalised(s, items) == s.(activeMemory := items, lifecycleRefs := [])
  {
    NormalItemsKeepIds(s.activeMemory);
    SortedSetIsIdempotent(AllEventIds(s.activeMemory));
    SortedSetIsIdempotent(AllHashes(s.activeMemory));
    EmptySet();
  }

  lemma EmptySet()
    ensures SortedSet([]) == []
  {
  }

  /** The window and the counts that the compatibility path writes. */
  lemma WindowAndCountsHold(v: Screens, total: nat, limit: nat, n: nat)
    requires n <= total && limit > 0
    ensures var w, counts := Window("createdAt:asc", limit, None, total > n, total, []), map["active" := total, "totalCount" := total];
            WindowAccepted(v, w) && WindowCovers(w, n) && CountsAccepted(counts) && CountsCover(counts, n)
  {
    CreatedAscIsWellFormed();
  }

  /**
   Whatever the projection and the requested size, the compatibility snapshot
   passes every window, count and provenance check of the direct path: it is
   refused exactly when one of its items is, and otherwise comes out unchanged
   but for the normal form of its items.
   */
  lemma CompatibilityPassesDirect(v: Screens, selected: seq<Memory>, total: nat, limit: nat, highWaterMark: nat)
    requires |selected| <= limit && |selected| <= total && limit > 0
    ensures var s := SnapshotOf(selected, total, limit, highWaterMark);
            Direct(v, s) ==
            if forall i | i in s.activeMemory :: ItemAccepted(v, i)
            then Ok(s.(activeMemory := NormalItems(s.activeMemory), lifecycleRefs := []))
            else Err(InvalidItem)
  {
    var s := SnapshotOf(selected, total, limit, highWaterMark);
    if forall i | i in s.activeMemory :: ItemAccepted(v, i) {
      WindowAndCountsHold(v, total, limit, |selected|);
      AcceptedIdsAreSafe(v, s.activeMemory);
      BuiltFromItsItems(s);
      DirectAccepts(v, s);
    } else {
      DirectRefuses(v, s);
    }
  }

  lemma DirectAccepts(v: Screens, s: Snapshot)
    requires s.highWaterMark >= 0 && s.sourceRef == MEMORY_SOURCE && s.emptyProof.None?
    requires forall i | i in s.activeMemory :: ItemAccepted(v, i)
    requires CountsAccepted(s.counts) && CountsCover(s.counts, |s.activeMemory|) && IdsAccepted(v, s)
    requires WindowAccepted(v, s.window) && |s.activeMemory| <= s.window.limit && WindowCovers(s.window, |s.activeMemory|)
    requires ProvenanceMatches(s, NormalItems(s.activeMemory))
    ensures Direct(v, s) == Ok(Normalised(s, NormalItems(s.activeMemory)))
  {
  }

  lemma DirectRefuses(v: Screens, s: Snapshot)
    requires s.highWaterMark >= 0 && s.sourceRef == MEMORY_SOURCE
    requires !forall i | i in s.activeMemory :: ItemAccepted(v, i)
    ensures Direct(v, s) == Err(InvalidItem)
  {
  }

  /** The same for the snapshot that the selection yields. */
  lemma ProjectedSnapshotPassesDirect(
      v: Screens, collate: Collation, memories: seq<Memory>, maxItems: Option<int>, highWaterMark: nat)
    requires Consistent(collate)
    ensures var limit := WindowLimit(maxItems);
            var s := SnapshotOf(Take(StableSort(NotAfter(collate), memories), limit), |memories|, limit, highWaterMark);
            && (Direct(v, s).Ok? <==> forall i | i in s.activeMemory :: ItemAccepted(v, i))
            && (Direct(v, s).Ok? ==> Direct(v, s).snapshot == s.(activeMemory := NormalItems(s.activeMemory), lifecycleRefs := []))
            && (s.window.hasMore <==> |memories| > limit)
  {
    var limit := WindowLimit(maxItems);
    CompareIsPreorder(collate);
    StableSortHolds(NotAfter(collate), memories);
    CompatibilityPassesDirect(v, Take(StableSort(NotAfter(collate), memories), limit), |memories|, limit, highWaterMark);
  }

  // ---------- What the direct path accepts ----------

  predicate IsFieldChar(c: char) {
    IsLetter(c) || '0' <= c <= '9' || c == '.' || c == '_' || c == '-'
  }

  /** The order is a field name, a colon and a direction. */
  ghost predicate FieldAndDirection(order: string) {
    exists field: string, direction: string ::
      && order == field + direction && direction in [":asc", ":desc"]
      && |field| > 0 && IsLetter(field[0]) && forall c | c in field[1..] :: IsFieldChar(c)
  }

  lemma FieldCharExactly(c: char)
    ensures IsFieldChar(c) <==> IsLetter(c) || '0' <= c <= '9' || c in "._-"
  {
    var marks := "._-";
    assert marks[0] == '.' && marks[1] == '_' && marks[2] == '-';
  }

  lemma SplitOrder(order: string)
    requires OrderWellFormed(order)
    ensures FieldAndDirection(order)
  {
    var n :| 0 < n < |order| && (order[n..] == ":asc" || order[n..] == ":desc") && IsLetter(order[0])
             && forall i | 0 < i < n :: IsLetter(order[i]) || '0' <= order[i] <= '9' || order[i] in "._-";
    var field, direction := order[..n], order[n..];
    assert order == field + direction && field[1..] == order[1..n];
    forall c | c in field[1..] ensures IsFieldChar(c) {
      var i :| 0 <= i < |field[1..]| && field[1..][i] == c;
      FieldCharExactly(order[i + 1]);
    }
  }

  lemma JoinOrder(order: string, field: string, direction: string)
    requires order == field + direction && direction in [":asc", ":desc"]
    requires |field| > 0 && IsLetter(field[0]) && forall c | c in field[1..] :: IsFieldChar(c)
    ensures OrderWellFormed(order)
  {
    assert order[|field|..] == direction;
    forall i | 0 < i < |field| ensures IsLetter(order[i]) || '0' <= order[i] <= '9' || order[i] in "._-" {
      assert order[i] == field[1..][i - 1];
      FieldCharExactly(order[i]);
    }
  }

  lemma OrderIsFieldAndDirection(order: string)
    ensures OrderWellFormed(order) <==> FieldAndDirection(order)
  {
    if OrderWellFormed(order) { SplitOrder(order); }
    if field: string, direction: string :|
         order == field + direction && direction in [":asc", ":desc"]
         && |field| > 0 && IsLetter(field[0]) && forall c | c in field[1..] :: IsFieldChar(c) {
      JoinOrder(order, field, direction);
    }
  }

  /** The snapshot names exactly the texts that its items name. */
  predicate NamesExactly(named: seq<string>, items: seq<Item>, ofItem: Item -> seq<string>) {
    && (forall x | x in named :: exists i :: i in items && x in ofItem(i))
    && (forall i | i in items :: forall x | x in ofItem(i) :: x in named)
  }

  /** Every text of the snapshot passes its screen. */
  predicate Screened(v: Screens, s: Snapshot) {
    && (forall i | i in s.activeMemory ::
          v.item(i.memoryId, i.content) && (forall id | id in i.sourceEventIds :: v.eventId(id)) && (forall h | h in i.artifactHashes :: v.hash(h)))
    && (forall id | id in s.sourceEventIds :: v.eventId(id)) && (forall h | h in s.artifactHashes :: v.hash(h))
    && (s.window.cursor.Some? ==> v.cursor(s.window.cursor.value))
    && (forall c | c in s.window.omissionCodes :: v.omission(c))
    && (s.emptyProof.Some? ==> v.proof(s.emptyProof.value))
  }

  /** The window and the counts cover what is visible, and say so when there is more. */
  ghost predicate Covers(s: Snapshot) {
    var n := |s.activeMemory|;
    && FieldAndDirection(s.window.order) && 1 <= s.window.limit && n <= s.window.limit
    && n <= s.window.totalCount && (s.window.hasMore ==> n < s.window.totalCount)
    && (forall k | k in s.counts :: 0 <= s.counts[k])
    && "active" in s.counts && n <= s.counts["active"] && "totalCount" in s.counts && n <= s.counts["totalCount"]
  }

  lemma SameSetExactly(named: seq<string>, all: seq<string>)
    ensures SameTextSet(SortedSet(named), SortedSet(all)) <==> (forall x | x in named :: x in all) && (forall x | x in all :: x in named)
  {
    SortedSetHolds(named);
    SortedSetHolds(all);
    SortedSetHolds(SortedSet(named));
    SortedSetHolds(SortedSet(all));
    if SameTextSet(SortedSet(named), SortedSet(all)) {
      forall x ensures x in named <==> x in all { assert x in named <==> x in SortedSet(SortedSet(named)); }
    }
    if (forall x | x in named :: x in all) && (forall x | x in all :: x in named) { SortedSetDependsOnMembers(named, all); }
  }

  lemma ProvenanceExactly(s: Snapshot)
    ensures ProvenanceMatches(s, NormalItems(s.activeMemory)) <==>
            NamesExactly(s.sourceEventIds, s.activeMemory, (i: Item) => i.sourceEventIds)
            && NamesExactly(s.artifactHashes, s.activeMemory, (i: Item) => i.artifactHashes)
  {
    NormalItemsKeepIds(s.activeMemory);
    SameSetExactly(s.sourceEventIds, AllEventIds(s.activeMemory));
    SameSetExactly(s.artifactHashes, AllHashes(s.activeMemory));
  }

  /**
   The direct path accepts a snapshot exactly when it names its projection, every
   text passes its screen, window and counts cover what is visible, and it names
   exactly the events and artifacts that its items do.
   */
  lemma DirectAcceptsExactly(v: Screens, s: Snapshot)
    ensures Direct(v, s).Ok? <==>
            && s.highWaterMark >= 0 && s.sourceRef == "agent.projection.memory"
            && Screened(v, s) && Covers(s)
            && NamesExactly(s.sourceEventIds, s.activeMemory, (i: Item) => i.sourceEventIds)
            && NamesExactly(s.artifactHashes, s.activeMemory, (i: Item) => i.artifactHashes)
  {
    DirectByChecks(v, s);
    ChecksAreScreensAndCover(v, s);
    ProvenanceExactly(s);
  }

  /** The checks that come before provenance. */
  predicate EarlierChecks(v: Screens, s: Snapshot) {
    && (forall i | i in s.activeMemory :: ItemAccepted(v, i))
    && CountsAccepted(s.counts) && IdsAccepted(v, s) && WindowAccepted(v, s.window) && |s.activeMemory| <= s.window.limit
    && WindowCovers(s.window, |s.activeMemory|) && CountsCover(s.counts, |s.activeMemory|)
  }

  lemma DirectByChecks(v: Screens, s: Snapshot)
    ensures Direct(v, s).Ok? <==>
            && s.highWaterMark >= 0 && s.sourceRef == MEMORY_SOURCE && EarlierChecks(v, s)
            && ProvenanceMatches(s, NormalItems(s.activeMemory)) && (s.emptyProof.Some? ==> v.proof(s.emptyProof.value))
    ensures Direct(v, s).Ok? ==> Direct(v, s).snapshot == Normalised(s, NormalItems(s.activeMemory))
  {
  }

  lemma ChecksAreScreensAndCover(v: Screens, s: Snapshot)
    ensures EarlierChecks(v, s) && (s.emptyProof.Some? ==> v.proof(s.emptyProof.value)) <==> Screened(v, s) && Covers(s)
  {
    OrderIsFieldAndDirection(s.window.order);
  }

  /** What it hands on is the snapshot with every list of texts sorted and without repetitions, and without lifecycle references. */
  lemma DirectYieldsExactly(v: Screens, s: Snapshot)
    requires Direct(v, s).Ok?
    ensures var r := Direct(v, s).snapshot;
            && r == s.(activeMemory := r.activeMemory, sourceEventIds := r.sourceEventIds, artifactHashes := r.artifactHashes,
                       window := s.window.(omissionCodes := r.window.omissionCodes), lifecycleRefs := [])
            && |r.activeMemory| == |s.activeMemory|
            && (forall k | 0 <= k < |r.activeMemory| ::
                  && SetInOrder(s.activeMemory[k].sourceEventIds, r.activeMemory[k].sourceEventIds)
                  && SetInOrder(s.activeMemory[k].artifactHashes, r.activeMemory[k].artifactHashes)
                  && r.activeMemory[k] == s.activeMemory[k].(sourceEventIds := r.activeMemory[k].sourceEventIds,
                                                             artifactHashes := r.activeMemory[k].artifactHashes))
            && SetInOrder(s.sourceEventIds, r.sourceEventIds) && SetInOrder(s.artifactHashes, r.artifactHashes)
            && SetInOrder(s.window.omissionCodes, r.window.omissionCodes)
  {
    DirectByChecks(v, s);
    ProvenanceExactly(s);
    NormalisedExactly(s, Direct(v, s).snapshot);
  }

  lemma NormalisedExactly(s: Snapshot, r: Snapshot)
    requires r == Normalised(s, NormalItems(s.activeMemory)) && ProvenanceMatches(s, NormalItems(s.activeMemory))
    ensures |r.activeMemory| == |s.activeMemory|
    ensures forall k | 0 <= k < |r.activeMemory| ::
              && SetInOrder(s.activeMemory[k].sourceEventIds, r.activeMemory[k].sourceEventIds)
              && SetInOrder(s.activeMemory[k].artifactHashes, r.activeMemory[k].artifactHashes)
              && r.activeMemory[k] == s.activeMemory[k].(sourceEventIds := r.activeMemory[k].sourceEventIds,
                                                         artifactHashes := r.activeMemory[k].artifactHashes)
    ensures SetInOrder(s.sourceEventIds, r.sourceEventIds) && SetInOrder(s.artifactHashes, r.artifactHashes)
    ensures SetInOrder(s.window.omissionCodes, r.window.omissionCodes)
  {
    forall k | 0 <= k < |s.activeMemory|
      ensures SetInOrder(s.activeMemory[k].sourceEventIds, SortedSet(s.activeMemory[k].sourceEventIds))
      ensures SetInOrder(s.activeMemory[k].artifactHashes, SortedSet(s.activeMemory[k].artifactHashes))
    {
      SortedSetIsInOrder(s.activeMemory[k].sourceEventIds);
      SortedSetIsInOrder(s.activeMemory[k].artifactHashes);
    }
    SortedSetIsInOrder(s.window.omissionCodes);
    SetsOfItems(s);
  }

  lemma SetsOfItems(s: Snapshot)
    requires ProvenanceMatches(s, NormalItems(s.activeMemory))
    ensures SetInOrder(s.sourceEventIds, SortedSet(AllEventIds(NormalItems(s.activeMemory))))
    ensures SetInOrder(s.artifactHashes, SortedSet(AllHashes(NormalItems(s.activeMemory))))
  {
    NormalItemsKeepIds(s.activeMemory);
    SameSetExactly(s.sourceEventIds, AllEventIds(s.activeMemory));
    SameSetExactly(s.artifactHashes, AllHashes(s.activeMemory));
    SortedSetDependsOnMembers(s.sourceEventIds, AllEventIds(s.activeMemory));
    SortedSetDependsOnMembers(s.artifactHashes, AllHashes(s.activeMemory));
    SortedSetIsInOrder(s.sourceEventIds);
    SortedSetIsInOrder(s.artifactHashes);
  }

  /** The same texts, each once, in rising order. */
  predicate SetInOrder(given: seq<string>, listed: seq<string>) {
    && (forall x | x in given :: x in listed) && (forall x | x in listed :: x in given)
    && forall i, j | 0 <= i < j < |listed| :: TextLeq(listed[i], listed[j]) && listed[i] != listed[j]
  }

  lemma SortedSetIsInOrder(given: seq<string>)
    ensures SetInOrder(given, SortedSet(given))
  {
    SortedSetHolds(given);
    forall i, j | 0 <= i < j < |SortedSet(given)| ensures TextLeq(SortedSet(given)[i], SortedSet(given)[j]) {
      assert TEXT_ORDER(SortedSet(given)[i], SortedSet(given)[j]);
    }
  }

  // ---------- What the compatibility path shows ----------

  /** The window size: what was asked for, but at least one and at most twenty-five; without a wish, twenty-five. */
  predicate WindowSize(maxItems: Option<int>, limit: int) {
    && 1 <= limit <= 25
    && (maxItems == None ==> limit == 25)
    && (maxItems.Some? && 1 <= maxItems.value <= 25 ==> limit == maxItems.value)
    && (maxItems.Some? && maxItems.value < 1 ==> limit == 1)
    && (maxItems.Some? && maxItems.value > 25 ==> limit == 25)
  }

  lemma LimitIsWindowSize(maxItems: Option<int>)
    ensures WindowSize(maxItems, WindowLimit(maxItems))
  {
  }

  /** The items of the selected memories, field by field. */
  predicate ShowsMemories(items: seq<Item>, ms: seq<Memory>) {
    |items| == |ms| && forall k | 0 <= k < |ms| ::
      && items[k].memoryId == ms[k].memoryId && items[k].content == ms[k].content
      && items[k].sourceEventIds == ms[k].sourceEventIds && items[k].artifactHashes == ms[k].artifactHashes
  }

  /** Every text some item names, each once, in rising order. */
  predicate SetOfAll(items: seq<Item>, ofItem: Item -> seq<string>, listed: seq<string>) {
    && NamesExactly(listed, items, ofItem)
    && forall i, j | 0 <= i < j < |listed| :: TextLeq(listed[i], listed[j]) && listed[i] != listed[j]
  }

  /**
   The compatibility snapshot of a projection shows the memories at the front of
   the selection order, counts all of them, says whether any were left out, and
   names the events and artifacts of those it shows.
   */
  lemma CompatibilityShowsExactly(collate: Collation, memories: seq<Memory>, maxItems: Option<int>, highWaterMark: int)
    requires Consistent(collate)
    ensures var selected := Take(StableSort(NotAfter(collate), memories), WindowLimit(maxItems));
            var s := SnapshotOf(selected, |memories|, WindowLimit(maxItems), highWaterMark);
            && s.highWaterMark == highWaterMark && s.sourceRef == "agent.projection.memory" && s.emptyProof == None
            && ShowsMemories(s.activeMemory, selected)
            && s.counts == map["active" := |memories|, "totalCount" := |memories|]
            && SetOfAll(s.activeMemory, (i: Item) => i.sourceEventIds, s.sourceEventIds)
            && SetOfAll(s.activeMemory, (i: Item) => i.artifactHashes, s.artifactHashes)
            && WindowSize(maxItems, s.window.limit) && s.window.order == "createdAt:asc" && s.window.cursor == None
            && s.window.totalCount == |memories| && s.window.omissionCodes == []
            && (s.window.hasMore <==> |memories| > s.window.limit)
            && ListsEventsOf(s.lifecycleRefs, selected)
  {
    var limit := WindowLimit(maxItems);
    var selected := Take(StableSort(NotAfter(collate), memories), limit);
    CompareIsPreorder(collate);
    StableSortHolds(NotAfter(collate), memories);
    LimitIsWindowSize(maxItems);
    SetsOfSelected(selected);
    LifecycleOfSelected(selected);
  }

  /** The lifecycle events of the memories, each once. */
  predicate ListsEventsOf(listed: seq<string>, ms: seq<Memory>) {
    && (forall x | x in listed :: exists m :: m in ms && x in m.eventIds)
    && (forall m | m in ms :: forall x | x in m.eventIds :: x in listed)
    && forall i, j | 0 <= i < j < |listed| :: listed[i] != listed[j]
  }

  lemma {:induction false} LifecycleOf(ms: seq<Memory>, x: string)
    ensures x in AllLifecycleIds(ms) <==> exists m :: m in ms && x in m.eventIds
  {
    if ms != [] {
      LifecycleOf(ms[1..], x);
      assert ms == [ms[0]] + ms[1..];
    }
  }

  lemma LifecycleOfSelected(ms: seq<Memory>)
    ensures ListsEventsOf(Unique(AllLifecycleIds(ms)), ms)
  {
    forall x ensures x in AllLifecycleIds(ms) <==> exists m :: m in ms && x in m.eventIds { LifecycleOf(ms, x); }
  }

  lemma SetsOfSelected(ms: seq<Memory>)
    ensures SetOfAll(ItemsOf(ms), (i: Item) => i.sourceEventIds, SortedSet(AllEventIds(ItemsOf(ms))))
    ensures SetOfAll(ItemsOf(ms), (i: Item) => i.artifactHashes, SortedSet(AllHashes(ItemsOf(ms))))
    ensures ShowsMemories(ItemsOf(ms), ms)
  {
    SortedSetIsInOrder(AllEventIds(ItemsOf(ms)));
    SortedSetIsInOrder(AllHashes(ItemsOf(ms)));
  }
}
