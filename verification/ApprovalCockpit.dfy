/**
 The cockpit over the approval queue: every item is enriched with a provenance
 check, and items that were open but carry no provenance move to the blocked
 bucket. Counts, characterisations and the effect of locks carry over.
 */
module ApprovalCockpit {
  import opened CanonicalJson
  import opened ApprovalQueue

  const BYTE_TRANSFER := "provider-byte-transfer"

  datatype EnrichedItem = EnrichedItem(item: Item, reasons: seq<Reason>, approvable: bool)

  datatype CockpitQueue = CockpitQueue(
    pending: seq<EnrichedItem>, resumable: seq<EnrichedItem>, blocked: seq<EnrichedItem>, stale: seq<EnrichedItem>,
    denied: seq<EnrichedItem>, completed: seq<EnrichedItem>, failed: seq<EnrichedItem>)

  datatype Summary = Summary(pendingCount: nat, resumableCount: nat, blockedCount: nat, staleCount: nat, terminalCount: nat)

  /** Byte transfers need a source or event and an artifact; any other request needs some reference. */
  predicate HasProvenance(r: Request) {
    if r.approvalClass == BYTE_TRANSFER then
      && (exists ref :: ref in r.affectedRefs && (ref.kind == "event" || ref.kind == "source"))
      && (exists ref :: ref in r.affectedRefs && ref.kind == "artifact")
    else r.affectedRefs != [] || r.contextPackRefs != []
  }

  /** The loop of the byte-transfer check, with its two flags. */
  method ByteTransferProvenance(refs: seq<Ref>) returns (ok: bool)
    ensures ok <==> (exists ref :: ref in refs && (ref.kind == "event" || ref.kind == "source")) && (exists ref :: ref in refs && ref.kind == "artifact")
  {
    var hasSourceOrEventRef, hasArtifactRef := false, false;
    var i := 0;
    while i < |refs|
      invariant 0 <= i <= |refs|
      invariant hasSourceOrEventRef <==> exists ref :: ref in refs[..i] && (ref.kind == "event" || ref.kind == "source")
      invariant hasArtifactRef <==> exists ref :: ref in refs[..i] && ref.kind == "artifact"
    {
      assert refs[..i + 1] == refs[..i] + [refs[i]];
      assert refs[i] in refs[..i + 1];
      if refs[i].kind == "event" || refs[i].kind == "source" { hasSourceOrEventRef := true; }
      if refs[i].kind == "artifact" { hasArtifactRef := true; }
      i := i + 1;
    }
    assert refs[..i] == refs;
    return hasSourceOrEventRef && hasArtifactRef;
  }

  function Enrich(item: Item): EnrichedItem {
    var reasons :=
      if HasProvenance(item.request) || MissingProvenance in item.reasons then item.reasons else item.reasons + [MissingProvenance];
    EnrichedItem(item, reasons, !item.stale && reasons == [])
  }

  function EnrichAll(items: seq<Item>): (r: seq<EnrichedItem>)
    ensures |r| == |items| && forall k | 0 <= k < |r| :: r[k] == Enrich(items[k])
  {
    seq(|items|, k requires 0 <= k < |items| => Enrich(items[k]))
  }

  /** The enriched items with, or without, a missing provenance, in order. */
  function Sifted(items: seq<Item>, missing: bool): seq<EnrichedItem> {
    if items == [] then []
    else
      var last := Enrich(items[|items| - 1]);
      Sifted(items[..|items| - 1], missing) + if (MissingProvenance in last.reasons) == missing then [last] else []
  }

  method Sift(items: seq<Item>, blocked: seq<EnrichedItem>) returns (kept: seq<EnrichedItem>, grown: seq<EnrichedItem>)
    ensures kept == Sifted(items, false) && grown == blocked + Sifted(items, true)
  {
    kept, grown := [], blocked;
    var k := 0;
    while k < |items|
      invariant 0 <= k <= |items|
      invariant kept == Sifted(items[..k], false) && grown == blocked + Sifted(items[..k], true)
    {
      assert items[..k + 1][..k] == items[..k];
      var enriched := Enrich(items[k]);
      if MissingProvenance in enriched.reasons { grown := grown + [enriched]; } else { kept := kept + [enriched]; }
      k := k + 1;
    }
    assert items[..k] == items;
  }

  method EnrichQueue(q: Queue) returns (c: CockpitQueue)
    ensures c == CockpitOf(q)
  {
    var pending, blocked := Sift(q.pending, EnrichAll(q.blocked));
    var resumable, all := Sift(q.resumable, blocked);
    return CockpitQueue(pending, resumable, all, EnrichAll(q.stale), EnrichAll(q.denied), EnrichAll(q.completed), EnrichAll(q.failed));
  }

  function SummaryOf(c: CockpitQueue): Summary {
    Summary(|c.pending|, |c.resumable|, |c.blocked|, |c.stale|, |c.denied| + |c.completed| + |c.failed|)
  }

  function CockpitOf(q: Queue): CockpitQueue {
    CockpitQueue(Sifted(q.pending, false), Sifted(q.resumable, false),
                 EnrichAll(q.blocked) + Sifted(q.pending, true) + Sifted(q.resumable, true),
                 EnrichAll(q.stale), EnrichAll(q.denied), EnrichAll(q.completed), EnrichAll(q.failed))
  }

  // ---------- Counts ----------

  lemma {:induction false} SiftedSplits(items: seq<Item>)
    ensures |Sifted(items, true)| + |Sifted(items, false)| == |items|
  {
    if items != [] { SiftedSplits(items[..|items| - 1]); }
  }

  /** The counts of the summary add up to the number of requests. */
  lemma CountsAddUp(i: Input)
    ensures var s := SummaryOf(CockpitOf(QueueOf(i)));
            s.pendingCount + s.resumableCount + s.blockedCount + s.staleCount + s.terminalCount == |i.requests|
  {
    var q := QueueOf(i);
    EveryRequestLandsOnce((r: Request) => Classify(i, r), i.requests);
    SiftedSplits(q.pending);
    SiftedSplits(q.resumable);
  }

  // ---------- Where a request ends up ----------

  /** The cockpit bucket of a request of a normalised input. */
  function FinalBucket(i: Input, r: Request): Bucket {
    var b := Classify(i, r).0;
    if Open(b) && !HasProvenance(r) then Blocked else b
  }

  function BucketItems(c: CockpitQueue, b: Bucket): seq<EnrichedItem> {
    match b
    case Pending => c.pending
    case Resumable => c.resumable
    case Blocked => c.blocked
    case Stale => c.stale
    case Denied => c.denied
    case Completed => c.completed
    case Failed => c.failed
  }

  lemma {:induction false} InBucketMember(classify: Classifier, requests: seq<Request>, b: Bucket, r: Request)
    requires r in requests && classify(r).0 == b
    ensures classify(r).1 in InBucket(classify, requests, b)
  {
    var last := requests[|requests| - 1];
    if r != last { InBucketMember(classify, requests[..|requests| - 1], b, r); }
  }

  lemma {:induction false} SiftedMember(items: seq<Item>, item: Item)
    requires item in items
    ensures Enrich(item) in Sifted(items, MissingProvenance in Enrich(item).reasons)
  {
    if item != items[|items| - 1] { SiftedMember(items[..|items| - 1], item); }
  }

  lemma QueueReasons(r: Request, approval: Option<Approval>, hash: Option<string>, locks: seq<Lock>)
    ensures MissingProvenance !in ReasonsOf(r, approval, hash, locks)
  {
    assert forall c: bool, reason: Reason | reason != MissingProvenance :: MissingProvenance !in When(c, reason);
  }

  /** The reasons of an item go with its bucket. */
  predicate ReasonsFit(b: Bucket, reasons: seq<Reason>, stale: bool) {
    && MissingProvenance !in reasons && (stale <==> b == Stale)
    && (reasons != [] <==> b == Stale || b == Blocked)
  }

  lemma BucketFits(reasons: seq<Reason>, clear: Bucket)
    requires Open(clear) && MissingProvenance !in reasons
    ensures ReasonsFit(BucketFor(reasons, clear), reasons, ApprovalStale in reasons)
  {
  }

  lemma DecidedItem(i: Input, r: Request)
    requires !Undecided(i, r)
    ensures Terminal(Classify(i, r).0) && Classify(i, r).1.reasons == [] && !Classify(i, r).1.stale
  {
  }

  lemma UndecidedItem(i: Input, r: Request)
    requires Undecided(i, r)
    ensures var approval := Last(APPROVAL_ID, i.approvals, r.toolRequestId);
            var reasons := ReasonsOf(r, approval, CurrentHash(i, r), LocksFor(r, i.locks));
            && Classify(i, r).0 == BucketFor(reasons, if approval.None? then Pending else Resumable)
            && Classify(i, r).1.reasons == reasons && Classify(i, r).1.stale == (ApprovalStale in reasons)
  {
  }

  lemma ClassifiedItem(i: Input, r: Request)
    ensures Classify(i, r).1.request == r
    ensures ReasonsFit(Classify(i, r).0, Classify(i, r).1.reasons, Classify(i, r).1.stale)
  {
    if Undecided(i, r) {
      var approval := Last(APPROVAL_ID, i.approvals, r.toolRequestId);
      UndecidedItem(i, r);
      QueueReasons(r, approval, CurrentHash(i, r), LocksFor(r, i.locks));
      BucketFits(ReasonsOf(r, approval, CurrentHash(i, r), LocksFor(r, i.locks)), if approval.None? then Pending else Resumable);
    } else {
      DecidedItem(i, r);
    }
  }

  lemma EnrichedMember(items: seq<Item>, item: Item)
    requires item in items
    ensures Enrich(item) in EnrichAll(items)
  {
    var k :| 0 <= k < |items| && items[k] == item;
    assert EnrichAll(items)[k] == Enrich(item);
  }

  lemma EnrichMarksMissing(i: Input, r: Request)
    ensures MissingProvenance in Enrich(Classify(i, r).1).reasons <==> !HasProvenance(r)
  {
    ClassifiedItem(i, r);
  }

  /** Every request is shown in the bucket that FinalBucket says, with its reasons extended by missing provenance. */
  lemma RequestIsShown(i: Input, r: Request)
    requires r in i.requests
    ensures Enrich(Classify(i, r).1) in BucketItems(CockpitOf(QueueOf(i)), FinalBucket(i, r))
  {
    EnrichMarksMissing(i, r);
    ShownByClass((x: Request) => Classify(i, x), i.requests, r, HasProvenance(r));
  }

  lemma ShownByClass(classify: Classifier, requests: seq<Request>, r: Request, provenance: bool)
    requires r in requests && (MissingProvenance in Enrich(classify(r).1).reasons) == !provenance
    ensures var b := classify(r).0;
            Enrich(classify(r).1) in BucketItems(CockpitOf(Collect(classify, requests)), if Open(b) && !provenance then Blocked else b)
  {
    InBucketMember(classify, requests, classify(r).0, r);
    ItemIsShown(Collect(classify, requests), classify(r).0, classify(r).1, provenance);
  }

  function QueueItems(q: Queue, b: Bucket): seq<Item> {
    match b
    case Pending => q.pending
    case Resumable => q.resumable
    case Blocked => q.blocked
    case Stale => q.stale
    case Denied => q.denied
    case Completed => q.completed
    case Failed => q.failed
  }

  lemma ItemIsShown(q: Queue, b: Bucket, item: Item, provenance: bool)
    requires item in QueueItems(q, b) && (MissingProvenance in Enrich(item).reasons) == !provenance
    ensures Enrich(item) in BucketItems(CockpitOf(q), if Open(b) && !provenance then Blocked else b)
  {
    if Open(b) { SiftedMember(QueueItems(q, b), item); } else { EnrichedMember(QueueItems(q, b), item); }
  }

  /** Resumable in the cockpit, exactly. */
  lemma CockpitResumableExactly(i: Input, r: Request)
    ensures FinalBucket(i, r) == Resumable <==>
            && Undecided(i, r) && Unlocked(i, r) && HasProvenance(r)
            && var approval := Last(APPROVAL_ID, i.approvals, r.toolRequestId);
            && approval.Some?
            && CurrentHash(i, r) == Some(r.previewHash) && approval.value.approvedPreviewHash == r.previewHash
            && (approval.value.approvalClass.Some? ==> approval.value.approvalClass.value == r.approvalClass)
  {
    ResumableExactly(i, r);
  }

  lemma FinalLocksOnlyBlock(i: Input, more: Input, r: Request)
    requires AddsLocks(i, more)
    ensures FinalBucket(more, r) == if Open(FinalBucket(i, r)) && !Unlocked(more, r) then Blocked else FinalBucket(i, r)
  {
    NormalLocksOnlyBlock(i, more, r);
  }

  /** A lock of the status, as the cockpit hands it to the queue. */
  datatype StatusLock = StatusLock(lockId: string, kind: string, active: bool, details: Value)

  function LockOf(l: StatusLock): Lock {
    Lock(l.lockId, None, if l.kind == BYTE_TRANSFER then Some([BYTE_TRANSFER]) else None, l.details)
  }

  function ActiveLocks(locks: seq<StatusLock>): (r: seq<Lock>)
    ensures forall x :: x in r <==> exists l :: l in locks && l.active && x == LockOf(l)
  {
    if locks == [] then []
    else
      assert locks == [locks[0]] + locks[1..];
      (if locks[0].active then [LockOf(locks[0])] else []) + ActiveLocks(locks[1..])
  }

  /**
   In the cockpit no lock of the status can make the build throw; added or newly
   active ones move open requests to blocked and nothing else.
   */
  lemma CockpitLocksOnlyBlock(i: Input, before: seq<StatusLock>, after: seq<StatusLock>)
    requires forall l | l in before && l.active :: l in after
    ensures var a, b := Normal(i.(locks := ActiveLocks(before))), Normal(i.(locks := ActiveLocks(after)));
            && a.Some? == b.Some?
            && (a.Some? ==>
                  && a.value.requests == b.value.requests
                  && forall r | r in a.value.requests ::
                       FinalBucket(b.value, r) ==
                       if Open(FinalBucket(a.value, r)) && !Unlocked(b.value, r) then Blocked else FinalBucket(a.value, r))
  {
    var fewer, more := i.(locks := ActiveLocks(before)), i.(locks := ActiveLocks(after));
    forall l | l in fewer.locks ensures l in more.locks {}
    forall l | l in fewer.locks + more.locks ensures SupportedLock(l) {}
    NormalLocksIff(fewer.locks);
    NormalLocksIff(more.locks);
    if Normal(more).Some? { NormalWithOtherLocks(more, fewer); }
    if Normal(fewer).Some? {
      AddedLocksOnlyBlock(fewer, more);
      forall r | r in Normal(fewer).value.requests
        ensures FinalBucket(Normal(more).value, r) ==
                if Open(FinalBucket(Normal(fewer).value, r)) && !Unlocked(Normal(more).value, r) then Blocked
                else FinalBucket(Normal(fewer).value, r)
      {
        FinalLocksOnlyBlock(Normal(fewer).value, Normal(more).value, r);
      }
    }
  }

  predicate Terminal(b: Bucket) { b == Denied || b == Completed || b == Failed }

  /**
   What approvable says, exactly: the item is open in the cockpit, or it is
   terminal and carries provenance. So it does not imply that a decision is due.
   */
  lemma ApprovableExactly(i: Input, r: Request)
    ensures Enrich(Classify(i, r).1).approvable <==>
            Open(FinalBucket(i, r)) || (Terminal(FinalBucket(i, r)) && HasProvenance(r))
  {
    ClassifiedItem(i, r);
  }
}
