/**
 The budget trimmer of evidence summaries: it drops one optional detail at a
 time, from the back, until the payload fits, and accounts for every dropped row
 in the aggregate omissions.
 */
module EvidenceBudget {
  import opened CanonicalJson
  import opened Sorting
  import opened SelectionManifest

  datatype ParseJob = ParseJob(parseJobId: string, details: Value)

  datatype Tag = Tag(tag: string, removed: bool, details: Value)

  datatype Item = Item(evidenceId: string, details: Value, parseJobs: seq<ParseJob>, tags: seq<Tag>)

  const SAMPLE_LIMIT := 3
  const ROW_OMITTED := "budget-row-omitted"
  const PARSE_DETAIL := "evidence-summary-optional-parse-detail"
  const GOVERNANCE_DETAIL := "evidence-summary-optional-governance-detail"

  // ---------- One trim ----------

  function ParseOmission(job: ParseJob): Omission {
    Omission(ROW_OMITTED, "parse-job", PARSE_DETAIL, 1, Some([SampleRef("parse-job", job.parseJobId, None)]))
  }

  function TagOmission(evidenceId: string, tag: Tag): Omission {
    Omission(ROW_OMITTED, "governance-tag", GOVERNANCE_DETAIL, 1, Some([SampleRef("governance-tag", evidenceId + ":" + tag.tag, None)]))
  }

  /** The position of the first removed tag, or the number of tags. */
  function FirstRemoved(tags: seq<Tag>): (k: nat)
    ensures k <= |tags| && (k < |tags| ==> tags[k].removed) && forall i | 0 <= i < k :: !tags[i].removed
  {
    if tags == [] || tags[0].removed then 0 else 1 + FirstRemoved(tags[1..])
  }

  datatype Trimmed = Trimmed(items: seq<Item>, omission: Omission)

  predicate HasDetail(i: Item) {
    i.parseJobs != [] || FirstRemoved(i.tags) < |i.tags|
  }

  /** The item without its last parse job or, when it has none, without its first removed tag. */
  function TrimItem(i: Item): (r: (Item, Omission))
    requires HasDetail(i)
  {
    if i.parseJobs != [] then
      (i.(parseJobs := i.parseJobs[..|i.parseJobs| - 1]), ParseOmission(i.parseJobs[|i.parseJobs| - 1]))
    else
      var k := FirstRemoved(i.tags);
      (i.(tags := i.tags[..k] + i.tags[k + 1..]), TagOmission(i.evidenceId, i.tags[k]))
  }

  /** Trims the last item that has an optional detail left. */
  function TrimOne(items: seq<Item>): Option<Trimmed> {
    if items == [] then None
    else
      var front, last := items[..|items| - 1], items[|items| - 1];
      if HasDetail(last) then Some(Trimmed(front + [TrimItem(last).0], TrimItem(last).1))
      else
        match TrimOne(front)
        case None => None
        case Some(t) => Some(Trimmed(t.items + [last], t.omission))
  }

  lemma {:induction false} TrimAt(items: seq<Item>, index: nat)
    requires index < |items| && HasDetail(items[index])
    requires forall j | index < j < |items| :: !HasDetail(items[j])
    ensures TrimOne(items) == Some(Trimmed(items[index := TrimItem(items[index]).0], TrimItem(items[index]).1))
  {
    var front := items[..|items| - 1];
    if index < |front| {
      TrimAt(front, index);
      assert front[index := TrimItem(items[index]).0] + [items[|items| - 1]] == items[index := TrimItem(items[index]).0];
    } else {
      assert front + [TrimItem(items[index]).0] == items[index := TrimItem(items[index]).0];
    }
  }

  lemma {:induction false} TrimNowhere(items: seq<Item>)
    requires forall j | 0 <= j < |items| :: !HasDetail(items[j])
    ensures TrimOne(items) == None
  {
    if items != [] { TrimNowhere(items[..|items| - 1]); }
  }

  method TrimOneOptionalDetail(items: seq<Item>) returns (trimmed: Option<Trimmed>)
    ensures trimmed == TrimOne(items)
  {
    var index := |items|;
    while index > 0
      invariant 0 <= index <= |items|
      invariant forall j | index <= j < |items| :: !HasDetail(items[j])
    {
      index := index - 1;
      var item := items[index];
      if HasDetail(item) {
        TrimAt(items, index);
        return Some(Trimmed(items[index := TrimItem(item).0], TrimItem(item).1));
      }
    }
    TrimNowhere(items);
    return None;
  }

  // ---------- The omission account ----------

  predicate SameAggregate(a: Omission, b: Omission) {
    a.reasonCode == b.reasonCode && a.refKind == b.refKind && a.aggregateKey == b.aggregateKey
  }

  /** The position of the aggregate, or the number of aggregates. */
  function FindAggregate(omissions: seq<Omission>, o: Omission): (k: nat)
    ensures k <= |omissions| && (k < |omissions| ==> SameAggregate(omissions[k], o))
  {
    if omissions == [] || SameAggregate(omissions[0], o) then 0 else 1 + FindAggregate(omissions[1..], o)
  }

  function Samples(o: Omission): seq<SampleRef> {
    if o.sampleRefs.Some? then o.sampleRefs.value else []
  }

  /** canonicalSampleRefs: sorted, and at most three. */
  function LimitedSamples(samples: seq<SampleRef>): seq<SampleRef> {
    var sorted := StableSort(SAMPLE_ORDER, samples);
    if |sorted| > SAMPLE_LIMIT then sorted[..SAMPLE_LIMIT] else sorted
  }

  function Merge(a: Omission, o: Omission): Omission {
    a.(count := a.count + o.count, sampleRefs := Some(LimitedSamples(Samples(a) + Samples(o))))
  }

  /** appendBudgetOmission: the first aggregate of the same key grows, or a new one is added. */
  function AppendOmission(omissions: seq<Omission>, o: Omission): seq<Omission> {
    var k := FindAggregate(omissions, o);
    CanonicalOmissions(if k == |omissions| then omissions + [o] else omissions[k := Merge(omissions[k], o)])
  }

  /** The summed counts of the aggregates with the key of o. */
  function CountOf(omissions: seq<Omission>, o: Omission): int {
    if omissions == [] then 0 else (if SameAggregate(omissions[0], o) then omissions[0].count else 0) + CountOf(omissions[1..], o)
  }

  lemma {:induction false} CountOver(a: seq<Omission>, b: seq<Omission>, o: Omission)
    ensures CountOf(a + b, o) == CountOf(a, o) + CountOf(b, o)
  {
    if a == [] {
      assert a + b == b;
    } else {
      CountOver(a[1..], b, o);
      assert (a + b)[1..] == a[1..] + b;
    }
  }

  lemma {:induction false} CountOfInserted(x: Omission, s: seq<Omission>, o: Omission)
    ensures CountOf(StableInsert(OMISSION_ORDER, x, s), o) == CountOf([x], o) + CountOf(s, o)
  {
    assert [x][1..] == [];
    if s != [] && OMISSION_ORDER(s[0], x) {
      CountOfInserted(x, s[1..], o);
      var rest := StableInsert(OMISSION_ORDER, x, s[1..]);
      assert ([s[0]] + rest)[1..] == rest;
    } else if s != [] {
      assert ([x] + s)[1..] == s;
    }
  }

  lemma {:induction false} CountOfSorted(s: seq<Omission>, o: Omission)
    ensures CountOf(StableSort(OMISSION_ORDER, s), o) == CountOf(s, o)
  {
    if s != [] {
      var front, last := s[..|s| - 1], s[|s| - 1];
      CountOfSorted(front, o);
      CountOfInserted(last, StableSort(OMISSION_ORDER, front), o);
      CountOver(front, [last], o);
      assert s == front + [last];
    }
  }

  lemma {:induction false} CountOfNormal(s: seq<Omission>, o: Omission)
    ensures CountOf(Map(NORMAL_OMISSION, s), o) == CountOf(s, o)
  {
    if s != [] {
      CountOfNormal(s[1..], o);
      assert Map(NORMAL_OMISSION, s)[1..] == Map(NORMAL_OMISSION, s[1..]);
    }
  }

  lemma CountReplaced(s: seq<Omission>, k: nat, x: Omission, o: Omission)
    requires k < |s|
    ensures CountOf(s[k := x], o) == CountOf(s, o) - CountOf([s[k]], o) + CountOf([x], o)
  {
    CountOver(s[..k], [s[k]] + s[k + 1..], o);
    CountOver([s[k]], s[k + 1..], o);
    CountOver(s[..k], [x] + s[k + 1..], o);
    CountOver([x], s[k + 1..], o);
    assert s == s[..k] + ([s[k]] + s[k + 1..]) && s[k := x] == s[..k] + ([x] + s[k + 1..]);
  }

  /** One omission appended: its own aggregate grows by its count, and no other changes. */
  lemma AppendedOmissionCounts(omissions: seq<Omission>, x: Omission, o: Omission)
    ensures CountOf(AppendOmission(omissions, x), o) == CountOf(omissions, o) + if SameAggregate(x, o) then x.count else 0
  {
    var k := FindAggregate(omissions, x);
    var grown := if k == |omissions| then omissions + [x] else omissions[k := Merge(omissions[k], x)];
    CountOfNormal(StableSort(OMISSION_ORDER, grown), o);
    CountOfSorted(grown, o);
    assert [x][1..] == [];
    if k == |omissions| {
      CountOver(omissions, [x], o);
    } else {
      CountReplaced(omissions, k, Merge(omissions[k], x), o);
      assert [omissions[k]][1..] == [] && [Merge(omissions[k], x)][1..] == [];
    }
  }

  // ---------- The trim order ----------

  datatype State = State(items: seq<Item>, omissions: seq<Omission>)

  function Next(s: State): Option<State> {
    match TrimOne(s.items)
    case None => None
    case Some(t) => Some(State(t.items, AppendOmission(s.omissions, t.omission)))
  }

  function RemovedTags(tags: seq<Tag>): nat {
    if tags == [] then 0 else (if tags[0].removed then 1 else 0) + RemovedTags(tags[1..])
  }

  function ActiveTags(tags: seq<Tag>): seq<Tag> {
    if tags == [] then [] else (if tags[0].removed then [] else [tags[0]]) + ActiveTags(tags[1..])
  }

  function ParseJobs(items: seq<Item>): nat {
    if items == [] then 0 else ParseJobs(items[..|items| - 1]) + |items[|items| - 1].parseJobs|
  }

  function AllRemovedTags(items: seq<Item>): nat {
    if items == [] then 0 else AllRemovedTags(items[..|items| - 1]) + RemovedTags(items[|items| - 1].tags)
  }

  /** The optional rows that are left; every trim takes one. */
  function Details(items: seq<Item>): nat {
    ParseJobs(items) + AllRemovedTags(items)
  }

  lemma {:induction false} DropRemovedTag(tags: seq<Tag>)
    requires FirstRemoved(tags) < |tags|
    ensures var k := FirstRemoved(tags); var rest := tags[..k] + tags[k + 1..];
            RemovedTags(rest) == RemovedTags(tags) - 1 && ActiveTags(rest) == ActiveTags(tags)
  {
    var k := FirstRemoved(tags);
    var rest := tags[..k] + tags[k + 1..];
    if k == 0 {
      assert rest == tags[1..];
    } else {
      DropRemovedTag(tags[1..]);
      assert rest[1..] == tags[1..][..k - 1] + tags[1..][k..];
    }
  }

  lemma {:induction false} NoRemovedTag(tags: seq<Tag>)
    requires FirstRemoved(tags) == |tags|
    ensures RemovedTags(tags) == 0
  {
    if tags != [] { NoRemovedTag(tags[1..]); }
  }

  /** What the item keeps: identity, details and active tags in order; its parse jobs stay a prefix. */
  predicate Keeps(before: Item, after: Item) {
    && after.evidenceId == before.evidenceId && after.details == before.details
    && after.parseJobs <= before.parseJobs && ActiveTags(after.tags) == ActiveTags(before.tags)
  }

  predicate AllKeep(before: seq<Item>, after: seq<Item>) {
    |before| == |after| && forall i | 0 <= i < |before| :: Keeps(before[i], after[i])
  }

  /** One trim takes one row of the kind its omission names, and keeps everything else. */
  lemma {:induction false} TrimTakesOne(items: seq<Item>)
    ensures TrimOne(items).None? <==> Details(items) == 0
    ensures TrimOne(items).Some? ==>
              var t := TrimOne(items).value;
              && AllKeep(items, t.items) && Details(t.items) == Details(items) - 1 && t.omission.count == 1
              && ParseJobs(t.items) == ParseJobs(items) - (if t.omission.aggregateKey == PARSE_DETAIL then 1 else 0)
              && (t.omission.reasonCode == ROW_OMITTED)
              && (if t.omission.aggregateKey == PARSE_DETAIL then t.omission.refKind == "parse-job"
                  else t.omission.aggregateKey == GOVERNANCE_DETAIL && t.omission.refKind == "governance-tag")
  {
    if items != [] {
      var front, last := items[..|items| - 1], items[|items| - 1];
      if HasDetail(last) {
        TrimItemTakesOne(last);
        var after := front + [TrimItem(last).0];
        assert after[..|after| - 1] == front;
      } else {
        NoRemovedTag(last.tags);
        TrimTakesOne(front);
        if TrimOne(front).Some? {
          var after := TrimOne(front).value.items + [last];
          assert after[..|after| - 1] == TrimOne(front).value.items;
        }
      }
    }
  }

  lemma TrimItemTakesOne(i: Item)
    requires HasDetail(i)
    ensures var (after, omission) := TrimItem(i);
            && Keeps(i, after) && omission.count == 1 && omission.reasonCode == ROW_OMITTED
            && (if i.parseJobs != []
                then && |after.parseJobs| == |i.parseJobs| - 1 && after.tags == i.tags
                     && omission.aggregateKey == PARSE_DETAIL && omission.refKind == "parse-job"
                else && after.parseJobs == i.parseJobs && RemovedTags(after.tags) == RemovedTags(i.tags) - 1
                     && omission.aggregateKey == GOVERNANCE_DETAIL && omission.refKind == "governance-tag")
            && (i.parseJobs == [] ==> RemovedTags(i.tags) > 0)
  {
    if i.parseJobs == [] { DropRemovedTag(i.tags); }
  }

  /** The n-th state of a step that may run out. */
  function Iterate<S>(step: S -> Option<S>, s: S, n: nat): Option<S> {
    if n == 0 then Some(s)
    else
      match Iterate(step, s, n - 1)
      case None => None
      case Some(t) => step(t)
  }

  lemma {:induction false} IterateFromNext<S>(step: S -> Option<S>, s: S, n: nat)
    requires step(s).Some?
    ensures Iterate(step, s, n + 1) == Iterate(step, step(s).value, n)
  {
    if n > 0 { IterateFromNext(step, s, n - 1); } else { assert Iterate(step, s, 0) == Some(s); }
  }

  lemma {:induction false} IterateIsPrefixClosed<S>(step: S -> Option<S>, s: S, m: nat, n: nat)
    requires m <= n && Iterate(step, s, n).Some?
    ensures Iterate(step, s, m).Some?
    decreases n
  {
    if m < n { IterateIsPrefixClosed(step, s, m, n - 1); }
  }

  /** The first n states are all there and all too large. */
  predicate LargeUpTo<S>(step: S -> Option<S>, large: S -> bool, s: S, n: nat) {
    forall m | 0 <= m < n :: Iterate(step, s, m).Some? && large(Iterate(step, s, m).value)
  }

  lemma LargeShifts<S>(step: S -> Option<S>, large: S -> bool, s: S, n: nat)
    requires large(s) && step(s).Some? && LargeUpTo(step, large, step(s).value, n)
    ensures LargeUpTo(step, large, s, n + 1)
  {
    forall m | 0 <= m < n + 1 ensures Iterate(step, s, m).Some? && large(Iterate(step, s, m).value) {
      if m > 0 { IterateFromNext(step, s, m - 1); } else { assert Iterate(step, s, 0) == Some(s); }
    }
  }

  /** A search that goes on while the state is too large stops at the first one that is not, or at the last. */
  lemma {:induction false} SearchStops<S(!new), O>(
      step: S -> Option<S>, large: S -> bool, rank: S -> nat, outcome: S -> O, s: S) returns (n: nat)
    requires forall x :: step(x).Some? ==> rank(step(x).value) == rank(x) - 1
    requires forall x :: large(x) && step(x).Some? ==> outcome(x) == outcome(step(x).value)
    ensures Iterate(step, s, n).Some? && LargeUpTo(step, large, s, n)
    ensures var t := Iterate(step, s, n).value;
            outcome(s) == outcome(t) && rank(t) + n == rank(s) && (large(t) ==> step(t).None?)
    decreases rank(s)
  {
    if large(s) && step(s).Some? {
      var m := SearchStops(step, large, rank, outcome, step(s).value);
      n := m + 1;
      IterateFromNext(step, s, m);
      LargeShifts(step, large, s, m);
    } else {
      n := 0;
    }
  }

  const NEXT: State -> Option<State> := (s: State) => Next(s)

  /** The state after n trims, if there are that many. */
  function After(s: State, n: nat): Option<State> {
    Iterate(NEXT, s, n)
  }

  lemma NextDetails(s: State)
    ensures Next(s).None? <==> Details(s.items) == 0
    ensures Next(s).Some? ==> Details(Next(s).value.items) == Details(s.items) - 1
  {
    TrimTakesOne(s.items);
  }

  // ---------- Fitting ----------

  /** The serialised size of the payload, or nothing when the payload parser refuses it. */
  type Probe = State -> Option<int>

  datatype Fit = Fitted(state: State) | DoesNotFit | PayloadRefused

  method FitBudget(probe: Probe, budget: int, items: seq<Item>, omissions: seq<Omission>) returns (fit: Fit)
    ensures fit == FitFrom(probe, budget, State(items, omissions))
  {
    var s := State(items, omissions);
    while true
      invariant FitFrom(probe, budget, s) == FitFrom(probe, budget, State(items, omissions))
      decreases Details(s.items)
    {
      var size := probe(s);
      if size.None? { return PayloadRefused; }
      if size.value <= budget { return Fitted(s); }
      var trimmed := TrimOneOptionalDetail(s.items);
      if trimmed.None? { return DoesNotFit; }
      TrimTakesOne(s.items);
      s := State(trimmed.value.items, AppendOmission(s.omissions, trimmed.value.omission));
    }
  }

  function FitFrom(probe: Probe, budget: int, s: State): Fit
    decreases Details(s.items)
  {
    match probe(s)
    case None => PayloadRefused
    case Some(size) =>
      if size <= budget then Fitted(s)
      else
        match Next(s)
        case None => DoesNotFit
        case Some(t) =>
          TrimTakesOne(s.items);
          FitFrom(probe, budget, t)
  }

  predicate TooLarge(probe: Probe, budget: int, s: State) {
    probe(s).Some? && probe(s).value > budget
  }

  /** The outcome of fitting agrees with the state it stops at. */
  predicate StopsAt(probe: Probe, budget: int, fit: Fit, t: State) {
    match fit
    case Fitted(u) => u == t && probe(t).Some? && probe(t).value <= budget
    case PayloadRefused => probe(t).None?
    case DoesNotFit => TooLarge(probe, budget, t) && Next(t).None?
  }

  lemma FitStep(probe: Probe, budget: int, s: State)
    ensures !TooLarge(probe, budget, s) || Next(s).None? ==> StopsAt(probe, budget, FitFrom(probe, budget, s), s)
    ensures TooLarge(probe, budget, s) && Next(s).Some? ==> FitFrom(probe, budget, s) == FitFrom(probe, budget, Next(s).value)
  {
  }

  /**
   The trimmer stops at the first state along the trim order that is not too
   large; it gives up only when the order has run out.
   */
  lemma FitsFirst(probe: Probe, budget: int, s: State) returns (n: nat)
    ensures n <= Details(s.items) && After(s, n).Some?
    ensures LargeUpTo(NEXT, (t: State) => TooLarge(probe, budget, t), s, n)
    ensures StopsAt(probe, budget, FitFrom(probe, budget, s), After(s, n).value)
    ensures FitFrom(probe, budget, s).DoesNotFit? ==> n == Details(s.items)
  {
    forall x ensures NEXT(x).Some? ==> Details(NEXT(x).value.items) == Details(x.items) - 1 { NextDetails(x); }
    forall x ensures TooLarge(probe, budget, x) && NEXT(x).Some? ==> FitFrom(probe, budget, x) == FitFrom(probe, budget, NEXT(x).value) {
      FitStep(probe, budget, x);
    }
    n := SearchStops(NEXT, (t: State) => TooLarge(probe, budget, t), (t: State) => Details(t.items), (t: State) => FitFrom(probe, budget, t), s);
    FitStep(probe, budget, After(s, n).value);
    NextDetails(After(s, n).value);
  }

  /** The n-th state fits, and all before it are too large. */
  predicate FitsAt(probe: Probe, budget: int, s: State, n: nat) {
    && After(s, n).Some? && LargeUpTo(NEXT, (t: State) => TooLarge(probe, budget, t), s, n)
    && probe(After(s, n).value).Some? && probe(After(s, n).value).value <= budget
  }

  lemma FirstFitIsUnique<S>(step: S -> Option<S>, large: S -> bool, s: S, k: nat, n: nat)
    requires Iterate(step, s, n).Some? && LargeUpTo(step, large, s, n) && !large(Iterate(step, s, n).value)
    requires Iterate(step, s, k).Some? && LargeUpTo(step, large, s, k)
    requires large(Iterate(step, s, k).value) ==> step(Iterate(step, s, k).value).None?
    ensures k == n
  {
    if k < n { IterateIsPrefixClosed(step, s, k + 1, n); }
  }

  /** The trimmer finds a payload exactly when some state of the trim order fits and no earlier one is refused. */
  lemma FitsExactlyWhen(probe: Probe, budget: int, s: State)
    ensures FitFrom(probe, budget, s).Fitted? <==> exists n: nat :: FitsAt(probe, budget, s, n)
  {
    var k := FitsFirst(probe, budget, s);
    if n: nat :| FitsAt(probe, budget, s, n) {
      FirstFitIsUnique(NEXT, (t: State) => TooLarge(probe, budget, t), s, k, n);
    }
    assert FitFrom(probe, budget, s).Fitted? ==> FitsAt(probe, budget, s, k);
  }

  lemma AllKeepIsTransitive(a: seq<Item>, b: seq<Item>, c: seq<Item>)
    requires AllKeep(a, b) && AllKeep(b, c)
    ensures AllKeep(a, c)
  {
    forall i | 0 <= i < |a| ensures Keeps(a[i], c[i]) { assert Keeps(a[i], b[i]) && Keeps(b[i], c[i]); }
  }

  const PARSE_AGGREGATE := Omission(ROW_OMITTED, "parse-job", PARSE_DETAIL, 0, None)
  const GOVERNANCE_AGGREGATE := Omission(ROW_OMITTED, "governance-tag", GOVERNANCE_DETAIL, 0, None)

  /**
   Conservation along the whole trim order: after n trims exactly n optional rows
   are gone; the parse-job and the governance aggregate have grown by exactly the
   rows of their kind that are gone; every other aggregate is unchanged; and each
   item keeps its identity, place, active tags and a prefix of its parse jobs.
   */
  lemma {:induction false} TrimsAreAccounted(s: State, n: nat, other: Omission)
    requires After(s, n).Some?
    requires !SameAggregate(PARSE_AGGREGATE, other) && !SameAggregate(GOVERNANCE_AGGREGATE, other)
    ensures var t := After(s, n).value;
            && AllKeep(s.items, t.items)
            && Details(t.items) == Details(s.items) - n
            && CountOf(t.omissions, PARSE_AGGREGATE) - CountOf(s.omissions, PARSE_AGGREGATE) == ParseJobs(s.items) - ParseJobs(t.items)
            && CountOf(t.omissions, GOVERNANCE_AGGREGATE) - CountOf(s.omissions, GOVERNANCE_AGGREGATE)
               == AllRemovedTags(s.items) - AllRemovedTags(t.items)
            && CountOf(t.omissions, other) == CountOf(s.omissions, other)
  {
    if n > 0 {
      TrimsAreAccounted(s, n - 1, other);
      var u := After(s, n - 1).value;
      OneTrimIsAccounted(u, other);
      AllKeepIsTransitive(s.items, u.items, Next(u).value.items);
    }
  }

  lemma OneTrimIsAccounted(u: State, other: Omission)
    requires Next(u).Some?
    requires !SameAggregate(PARSE_AGGREGATE, other) && !SameAggregate(GOVERNANCE_AGGREGATE, other)
    ensures var t := Next(u).value;
            && AllKeep(u.items, t.items)
            && Details(t.items) == Details(u.items) - 1
            && CountOf(t.omissions, PARSE_AGGREGATE) - CountOf(u.omissions, PARSE_AGGREGATE) == ParseJobs(u.items) - ParseJobs(t.items)
            && CountOf(t.omissions, GOVERNANCE_AGGREGATE) - CountOf(u.omissions, GOVERNANCE_AGGREGATE)
               == AllRemovedTags(u.items) - AllRemovedTags(t.items)
            && CountOf(t.omissions, other) == CountOf(u.omissions, other)
  {
    TrimTakesOne(u.items);
    var x := TrimOne(u.items).value.omission;
    AppendedOmissionCounts(u.omissions, x, PARSE_AGGREGATE);
    AppendedOmissionCounts(u.omissions, x, GOVERNANCE_AGGREGATE);
    AppendedOmissionCounts(u.omissions, x, other);
  }

  /** The details are taken strictly from the back: an item is touched only when all items behind it are bare. */
  lemma {:induction false} TrimsFromTheBack(s: State, n: nat, i: nat, j: nat)
    requires After(s, n).Some? && i < j < |s.items|
    ensures |After(s, n).value.items| == |s.items|
    ensures After(s, n).value.items[i] != s.items[i] ==> !HasDetail(After(s, n).value.items[j])
  {
    if n > 0 {
      TrimsFromTheBack(s, n - 1, i, j);
      var u := After(s, n - 1).value;
      TrimTakesOne(u.items);
      TrimTouches(u.items, i, j);
    }
  }

  lemma {:induction false} TrimTouches(items: seq<Item>, i: nat, j: nat)
    requires TrimOne(items).Some? && i < j < |items|
    ensures |TrimOne(items).value.items| == |items|
    ensures TrimOne(items).value.items[i] != items[i] ==> !HasDetail(items[j])
    ensures !HasDetail(items[j]) ==> TrimOne(items).value.items[j] == items[j]
  {
    TrimTakesOne(items);
    var front := items[..|items| - 1];
    if !HasDetail(items[|items| - 1]) {
      TrimTakesOne(front);
      if j < |front| { TrimTouches(front, i, j); }
    }
  }

  // ---------- One trim, in terms of the rows ----------

  /** Nothing optional is left of the item: no parse job and no removed tag. */
  predicate NothingOptional(i: Item) {
    |i.parseJobs| == 0 && forall k | 0 <= k < |i.tags| :: !i.tags[k].removed
  }

  lemma NothingOptionalExactly(i: Item)
    ensures HasDetail(i) <==> !NothingOptional(i)
  {
    var k := FirstRemoved(i.tags);
    if k < |i.tags| { assert i.tags[k].removed; }
  }

  /** The last parse job went, and its omission names it. */
  predicate ParseJobWent(before: Item, after: Item, o: Omission) {
    && |before.parseJobs| > 0
    && after == before.(parseJobs := before.parseJobs[..|before.parseJobs| - 1])
    && o.reasonCode == "budget-row-omitted" && o.refKind == "parse-job"
    && o.aggregateKey == "evidence-summary-optional-parse-detail" && o.count == 1
    && o.sampleRefs == Some([SampleRef("parse-job", before.parseJobs[|before.parseJobs| - 1].parseJobId, None)])
  }

  /** There was no parse job; the first removed tag went, and its omission names it and its item. */
  predicate TagWent(before: Item, after: Item, o: Omission) {
    && |before.parseJobs| == 0
    && exists k :: 0 <= k < |before.tags| && before.tags[k].removed && (forall m | 0 <= m < k :: !before.tags[m].removed)
         && after == before.(tags := before.tags[..k] + before.tags[k + 1..])
         && o.reasonCode == "budget-row-omitted" && o.refKind == "governance-tag"
         && o.aggregateKey == "evidence-summary-optional-governance-detail" && o.count == 1
         && o.sampleRefs == Some([SampleRef("governance-tag", before.evidenceId + ":" + before.tags[k].tag, None)])
  }

  lemma TrimItemExactly(i: Item)
    requires HasDetail(i)
    ensures ParseJobWent(i, TrimItem(i).0, TrimItem(i).1) || TagWent(i, TrimItem(i).0, TrimItem(i).1)
  {
    if |i.parseJobs| == 0 {
      var k := FirstRemoved(i.tags);
      assert i.tags[k].removed && forall m | 0 <= m < k :: !i.tags[m].removed;
    }
  }

  /** Only the last item with something optional changes: it loses its last parse job or, without one, its first removed tag. */
  lemma TrimsExactly(items: seq<Item>)
    ensures TrimOne(items).None? <==> forall k | 0 <= k < |items| :: NothingOptional(items[k])
    ensures TrimOne(items).Some? ==>
              exists k :: 0 <= k < |items| && (forall m | k < m < |items| :: NothingOptional(items[m]))
                          && |TrimOne(items).value.items| == |items|
                          && (forall m | 0 <= m < |items| && m != k :: TrimOne(items).value.items[m] == items[m])
                          && (ParseJobWent(items[k], TrimOne(items).value.items[k], TrimOne(items).value.omission)
                              || TagWent(items[k], TrimOne(items).value.items[k], TrimOne(items).value.omission))
  {
    forall i: Item ensures HasDetail(i) <==> !NothingOptional(i) { NothingOptionalExactly(i); }
    if forall k | 0 <= k < |items| :: NothingOptional(items[k]) {
      TrimNowhere(items);
    } else {
      var k := LastWithDetail(items);
      TrimAt(items, k);
      TrimItemExactly(items[k]);
    }
  }

  lemma {:induction false} LastWithDetail(items: seq<Item>) returns (k: nat)
    requires exists k :: 0 <= k < |items| && !NothingOptional(items[k])
    ensures k < |items| && !NothingOptional(items[k]) && HasDetail(items[k])
    ensures forall m | k < m < |items| :: NothingOptional(items[m]) && !HasDetail(items[m])
  {
    var last := |items| - 1;
    NothingOptionalExactly(items[last]);
    if !NothingOptional(items[last]) {
      k := last;
    } else {
      k := LastWithDetail(items[..last]);
    }
  }

  /** The samples of a merged aggregate: the first three of both lists in sample order, or all of them. */
  lemma MergedSamplesExactly(a: Omission, o: Omission)
    ensures var m, all := Merge(a, o), Samples(a) + Samples(o);
            && m == a.(count := a.count + o.count, sampleRefs := m.sampleRefs) && m.sampleRefs.Some?
            && |m.sampleRefs.value| == (if |all| < 3 then |all| else 3)
            && exists rest :: multiset(m.sampleRefs.value + rest) == multiset(all) && Sorted(SAMPLE_ORDER, m.sampleRefs.value + rest)
  {
    var all := Samples(a) + Samples(o);
    var sorted := StableSort(SAMPLE_ORDER, all);
    OrdersAreTotal();
    StableSortHolds(SAMPLE_ORDER, all);
    var front := LimitedSamples(all);
    assert sorted == front + sorted[|front|..];
  }
}
