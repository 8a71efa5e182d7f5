/**
 Where every request of the approval queue and of the cockpit is shown, and what
 its item says, in terms of the recorded decisions, hashes and locks alone.
 Decisions are counted by their position: the last one recorded is the one.
 */
module ApprovalPlaces {
  import opened CanonicalJson
  import opened ApprovalQueue
  import opened ApprovalCockpit

  // ---------- Decisions by position ----------

  predicate HasCompletion(i: Input, id: string) {
    exists k :: 0 <= k < |i.completed| && i.completed[k].toolRequestId == id
  }

  predicate HasFailure(i: Input, id: string) {
    exists k :: 0 <= k < |i.failures| && i.failures[k].toolRequestId == id
  }

  predicate HasDenial(i: Input, id: string) {
    exists k :: 0 <= k < |i.denials| && i.denials[k].toolRequestId == id
  }

  predicate HasApproval(i: Input, id: string) {
    exists k :: 0 <= k < |i.approvals| && i.approvals[k].toolRequestId == id
  }

  predicate LastCompletion(i: Input, id: string, c: Completion) {
    exists k :: 0 <= k < |i.completed| && i.completed[k] == c && c.toolRequestId == id
                && forall j | k < j < |i.completed| :: i.completed[j].toolRequestId != id
  }

  predicate LastFailure(i: Input, id: string, f: Failure) {
    exists k :: 0 <= k < |i.failures| && i.failures[k] == f && f.toolRequestId == id
                && forall j | k < j < |i.failures| :: i.failures[j].toolRequestId != id
  }

  predicate LastDenial(i: Input, id: string, d: Denial) {
    exists k :: 0 <= k < |i.denials| && i.denials[k] == d && d.toolRequestId == id
                && forall j | k < j < |i.denials| :: i.denials[j].toolRequestId != id
  }

  predicate LastApproval(i: Input, id: string, a: Approval) {
    exists k :: 0 <= k < |i.approvals| && i.approvals[k] == a && a.toolRequestId == id
                && forall j | k < j < |i.approvals| :: i.approvals[j].toolRequestId != id
  }

  lemma {:induction false} LastByPosition<T>(idOf: T -> string, items: seq<T>, id: string)
    ensures Last(idOf, items, id).Some? <==> exists k :: 0 <= k < |items| && idOf(items[k]) == id
    ensures Last(idOf, items, id).Some? ==>
              exists k :: 0 <= k < |items| && items[k] == Last(idOf, items, id).value && idOf(items[k]) == id
                          && forall j | k < j < |items| :: idOf(items[j]) != id
  {
    if items != [] && idOf(items[|items| - 1]) != id { LastByPosition(idOf, items[..|items| - 1], id); }
  }

  lemma DecisionsByPosition(i: Input, id: string)
    ensures Last(COMPLETION_ID, i.completed, id).Some? <==> HasCompletion(i, id)
    ensures Last(FAILURE_ID, i.failures, id).Some? <==> HasFailure(i, id)
    ensures Last(DENIAL_ID, i.denials, id).Some? <==> HasDenial(i, id)
    ensures Last(APPROVAL_ID, i.approvals, id).Some? <==> HasApproval(i, id)
    ensures HasCompletion(i, id) ==> LastCompletion(i, id, Last(COMPLETION_ID, i.completed, id).value)
    ensures HasFailure(i, id) ==> LastFailure(i, id, Last(FAILURE_ID, i.failures, id).value)
    ensures HasDenial(i, id) ==> LastDenial(i, id, Last(DENIAL_ID, i.denials, id).value)
    ensures HasApproval(i, id) ==> LastApproval(i, id, Last(APPROVAL_ID, i.approvals, id).value)
  {
    LastByPosition(COMPLETION_ID, i.completed, id);
    LastByPosition(FAILURE_ID, i.failures, id);
    LastByPosition(DENIAL_ID, i.denials, id);
    LastByPosition(APPROVAL_ID, i.approvals, id);
  }

  /** There is one last approval. */
  lemma LastApprovalIsOne(i: Input, id: string, a: Approval, b: Approval)
    requires LastApproval(i, id, a) && LastApproval(i, id, b)
    ensures a == b
  {
    var k :| 0 <= k < |i.approvals| && i.approvals[k] == a && a.toolRequestId == id
             && forall j | k < j < |i.approvals| :: i.approvals[j].toolRequestId != id;
    var m :| 0 <= m < |i.approvals| && i.approvals[m] == b && b.toolRequestId == id
             && forall j | m < j < |i.approvals| :: i.approvals[j].toolRequestId != id;
    assert k == m;
  }

  // ---------- The conditions ----------

  predicate Decided(i: Input, id: string) {
    HasCompletion(i, id) || HasFailure(i, id) || HasDenial(i, id)
  }

  /** A lock with no restriction, or whose restrictions name the request and its class. */
  predicate LockedBy(l: Lock, r: Request) {
    && (l.toolRequestIds == None || r.toolRequestId in l.toolRequestIds.value)
    && (l.approvalClasses == None || r.approvalClass in l.approvalClasses.value)
  }

  predicate Locked(i: Input, r: Request) {
    exists l :: l in i.locks && LockedBy(l, r)
  }

  /** The preview on record now is this one. */
  predicate CurrentPreviewIs(i: Input, r: Request, hash: string) {
    r.toolRequestId in i.currentPreviewHashes && i.currentPreviewHashes[r.toolRequestId] == hash
  }

  /** The hash that was approved, or failing an approval requested, is not the current one or not the requested one. */
  predicate OutOfDate(i: Input, r: Request) {
    || (!HasApproval(i, r.toolRequestId) && !CurrentPreviewIs(i, r, r.previewHash))
    || (exists a :: a in i.approvals && LastApproval(i, r.toolRequestId, a)
          && (!CurrentPreviewIs(i, r, a.approvedPreviewHash) || a.approvedPreviewHash != r.previewHash))
  }

  predicate OtherClassApproved(i: Input, r: Request) {
    exists a :: a in i.approvals && LastApproval(i, r.toolRequestId, a) && a.approvalClass.Some? && a.approvalClass.value != r.approvalClass
  }

  /** The request belongs in this bucket of the queue. */
  predicate Belongs(i: Input, r: Request, b: Bucket) {
    var id := r.toolRequestId;
    match b
    case Completed => HasCompletion(i, id)
    case Failed => HasFailure(i, id) && !HasCompletion(i, id)
    case Denied => HasDenial(i, id) && !HasFailure(i, id) && !HasCompletion(i, id)
    case Stale => !Decided(i, id) && OutOfDate(i, r)
    case Blocked => !Decided(i, id) && !OutOfDate(i, r) && (Locked(i, r) || OtherClassApproved(i, r))
    case Pending => !Decided(i, id) && !OutOfDate(i, r) && !Locked(i, r) && !HasApproval(i, id)
    case Resumable => !Decided(i, id) && !OutOfDate(i, r) && !Locked(i, r) && HasApproval(i, id) && !OtherClassApproved(i, r)
  }

  lemma StaleIsOutOfDate(i: Input, r: Request)
    ensures PreviewStale(i, r) <==> OutOfDate(i, r)
    ensures ClassMismatched(i, r) <==> OtherClassApproved(i, r)
    ensures Unlocked(i, r) <==> !Locked(i, r)
  {
    var id := r.toolRequestId;
    DecisionsByPosition(i, id);
    if HasApproval(i, id) {
      forall a | LastApproval(i, id, a) ensures a == Last(APPROVAL_ID, i.approvals, id).value {
        LastApprovalIsOne(i, id, a, Last(APPROVAL_ID, i.approvals, id).value);
      }
    }
    forall l ensures Applies(l, r) <==> LockedBy(l, r) {}
  }

  lemma ClassifiedWhereItBelongs(i: Input, r: Request, b: Bucket)
    ensures Classify(i, r).0 == b <==> Belongs(i, r, b)
  {
    DecisionsByPosition(i, r.toolRequestId);
    StaleIsOutOfDate(i, r);
    if Undecided(i, r) { BucketByConditions(i, r); }
  }

  // ---------- What an item says ----------

  /** The item is the request's, with the current preview, the locks that apply in their order, and the last approval. */
  predicate ItemOf(i: Input, r: Request, item: Item) {
    && item.request == r
    && (item.currentPreviewHash.Some? <==> r.toolRequestId in i.currentPreviewHashes)
    && (item.currentPreviewHash.Some? ==> CurrentPreviewIs(i, r, item.currentPreviewHash.value))
    && (forall l | l in item.locks + i.locks :: l in item.locks <==> l in i.locks && LockedBy(l, r))
    && (item.approval.Some? <==> HasApproval(i, r.toolRequestId))
    && (item.approval.Some? ==> LastApproval(i, r.toolRequestId, item.approval.value))
  }

  /** The decision that put the item where it is, and no other. */
  predicate DecisionShown(i: Input, item: Item, b: Bucket) {
    var id := item.request.toolRequestId;
    && (item.completion.Some? <==> b == Completed) && (item.completion.Some? ==> LastCompletion(i, id, item.completion.value))
    && (item.failure.Some? <==> b == Failed) && (item.failure.Some? ==> LastFailure(i, id, item.failure.value))
    && (item.denial.Some? <==> b == Denied) && (item.denial.Some? ==> LastDenial(i, id, item.denial.value))
  }

  /** An open, stale or blocked item lists all that stands in its way; a decided one lists nothing. */
  predicate ReasonsShown(i: Input, item: Item) {
    var r := item.request;
    if Decided(i, r.toolRequestId) then item.reasons == [] && !item.stale
    else
      && (ApprovalStale in item.reasons <==> OutOfDate(i, r)) && (item.stale <==> OutOfDate(i, r))
      && (LockActive in item.reasons <==> Locked(i, r))
      && (ClassMismatch in item.reasons <==> OtherClassApproved(i, r))
      && MissingProvenance !in item.reasons
  }

  lemma ItemShowsRequest(i: Input, r: Request)
    ensures ItemOf(i, r, Classify(i, r).1)
    ensures DecisionShown(i, Classify(i, r).1, Classify(i, r).0)
  {
    DecisionsByPosition(i, r.toolRequestId);
    forall l ensures Applies(l, r) <==> LockedBy(l, r) {}
  }

  lemma ReasonsBySource(r: Request, approval: Option<Approval>, hash: Option<string>, locks: seq<Lock>)
    ensures var reasons := ReasonsOf(r, approval, hash, locks);
            && (LockActive in reasons <==> locks != [])
            && (ApprovalStale in reasons <==>
                  if approval.None? then hash != Some(r.previewHash)
                  else hash != Some(approval.value.approvedPreviewHash) || r.previewHash != approval.value.approvedPreviewHash)
            && (ClassMismatch in reasons <==>
                  approval.Some? && approval.value.approvalClass.Some? && approval.value.approvalClass.value != r.approvalClass)
            && MissingProvenance !in reasons
  {
    assert forall c: bool, reason: Reason, other: Reason :: other in When(c, reason) <==> c && other == reason;
  }

  lemma ItemShowsReasons(i: Input, r: Request)
    ensures ReasonsShown(i, Classify(i, r).1)
  {
    DecisionsByPosition(i, r.toolRequestId);
    StaleIsOutOfDate(i, r);
    UnlockedMeansNoLocks(i, r);
    ReasonsBySource(r, Last(APPROVAL_ID, i.approvals, r.toolRequestId), CurrentHash(i, r), LocksFor(r, i.locks));
  }

  // ---------- The seven arrays ----------

  /** The array lists exactly the items of the requests that belong in its bucket, each saying what it should. */
  predicate ListsExactly(i: Input, items: seq<Item>, b: Bucket) {
    && (forall item | item in items ::
          item.request in i.requests && Belongs(i, item.request, b)
          && ItemOf(i, item.request, item) && DecisionShown(i, item, b) && ReasonsShown(i, item))
    && (forall r | r in i.requests && Belongs(i, r, b) :: exists item :: item in items && item.request == r)
  }

  lemma {:induction false} BucketMembers(classify: Classifier, requests: seq<Request>, b: Bucket, item: Item)
    requires item in InBucket(classify, requests, b)
    ensures exists r :: r in requests && classify(r) == (b, item)
  {
    var last := requests[|requests| - 1];
    if classify(last) != (b, item) { BucketMembers(classify, requests[..|requests| - 1], b, item); }
  }

  lemma BucketListsExactly(i: Input, b: Bucket)
    ensures ListsExactly(i, InBucket((r: Request) => Classify(i, r), i.requests, b), b)
  {
    var classify: Classifier := (r: Request) => Classify(i, r);
    var items := InBucket(classify, i.requests, b);
    forall item | item in items
      ensures item.request in i.requests && Belongs(i, item.request, b)
      ensures ItemOf(i, item.request, item) && DecisionShown(i, item, b) && ReasonsShown(i, item)
    {
      BucketMembers(classify, i.requests, b, item);
      var r :| r in i.requests && classify(r) == (b, item);
      ItemShowsRequest(i, r);
      ItemShowsReasons(i, r);
      ClassifiedWhereItBelongs(i, r, b);
    }
    forall r | r in i.requests && Belongs(i, r, b) ensures exists item :: item in items && item.request == r {
      ClassifiedWhereItBelongs(i, r, b);
      InBucketMember(classify, i.requests, b, r);
      ItemShowsRequest(i, r);
    }
  }

  /** The queue of a normalised input: each of its seven arrays lists exactly the requests that belong there. */
  lemma QueueListsExactly(i: Input)
    ensures var q := QueueOf(i);
            && ListsExactly(i, q.pending, Pending) && ListsExactly(i, q.resumable, Resumable)
            && ListsExactly(i, q.blocked, Blocked) && ListsExactly(i, q.stale, Stale)
            && ListsExactly(i, q.denied, Denied) && ListsExactly(i, q.completed, Completed) && ListsExactly(i, q.failed, Failed)
  {
    BucketListsExactly(i, Pending);
    BucketListsExactly(i, Resumable);
    BucketListsExactly(i, Blocked);
    BucketListsExactly(i, Stale);
    BucketListsExactly(i, Denied);
    BucketListsExactly(i, Completed);
    BucketListsExactly(i, Failed);
  }

  // ---------- The cockpit ----------

  /** A byte transfer names an event or a source, and an artifact; any other request names something at all. */
  predicate Provenanced(r: Request) {
    if r.approvalClass == "provider-byte-transfer" then
      && (exists k :: 0 <= k < |r.affectedRefs| && r.affectedRefs[k].kind in {"event", "source"})
      && (exists k :: 0 <= k < |r.affectedRefs| && r.affectedRefs[k].kind == "artifact")
    else |r.affectedRefs| + |r.contextPackRefs| > 0
  }

  lemma ProvenanceByPosition(r: Request)
    ensures HasProvenance(r) <==> Provenanced(r)
  {
    if ref :| ref in r.affectedRefs && (ref.kind == "event" || ref.kind == "source") {
      var k :| 0 <= k < |r.affectedRefs| && r.affectedRefs[k] == ref;
      assert r.affectedRefs[k].kind in {"event", "source"};
    }
    if k :| 0 <= k < |r.affectedRefs| && r.affectedRefs[k].kind in {"event", "source"} {
      assert r.affectedRefs[k] in r.affectedRefs;
    }
    if k :| 0 <= k < |r.affectedRefs| && r.affectedRefs[k].kind == "artifact" {
      assert r.affectedRefs[k] in r.affectedRefs;
    }
  }

  /** An open request without provenance is blocked in the cockpit; every other is where the queue has it. */
  predicate BelongsInCockpit(i: Input, r: Request, b: Bucket) {
    match b
    case Pending => Belongs(i, r, Pending) && Provenanced(r)
    case Resumable => Belongs(i, r, Resumable) && Provenanced(r)
    case Blocked => Belongs(i, r, Blocked) || ((Belongs(i, r, Pending) || Belongs(i, r, Resumable)) && !Provenanced(r))
    case _ => Belongs(i, r, b)
  }

  lemma FinalWhereItBelongs(i: Input, r: Request, b: Bucket)
    ensures FinalBucket(i, r) == b <==> BelongsInCockpit(i, r, b)
  {
    ProvenanceByPosition(r);
    ClassifiedWhereItBelongs(i, r, b);
    ClassifiedWhereItBelongs(i, r, Pending);
    ClassifiedWhereItBelongs(i, r, Resumable);
  }

  /** The enriched item adds missing provenance to the reasons, and is approvable when nothing stands in its way. */
  predicate EnrichedAs(i: Input, e: EnrichedItem) {
    var r := e.item.request;
    && ItemOf(i, r, e.item) && ReasonsShown(i, e.item)
    && e.reasons == (if Provenanced(r) then e.item.reasons else e.item.reasons + [MissingProvenance])
    && (e.approvable <==>
          Provenanced(r) && (Decided(i, r.toolRequestId) || (!OutOfDate(i, r) && !Locked(i, r) && !OtherClassApproved(i, r))))
  }

  lemma NothingInTheWay(reasons: seq<Reason>, outOfDate: bool, locked: bool, otherClass: bool)
    requires (ApprovalStale in reasons <==> outOfDate) && (LockActive in reasons <==> locked) && (ClassMismatch in reasons <==> otherClass)
    requires MissingProvenance !in reasons
    ensures reasons == [] <==> !outOfDate && !locked && !otherClass
  {
    if reasons != [] {
      var first := reasons[0];
      assert first in reasons;
      assert first == ApprovalStale || first == LockActive || first == ClassMismatch || first == MissingProvenance;
    }
  }

  lemma EnrichedShows(i: Input, r: Request)
    ensures EnrichedAs(i, Enrich(Classify(i, r).1))
  {
    var item := Classify(i, r).1;
    ItemShowsRequest(i, r);
    ItemShowsReasons(i, r);
    ProvenanceByPosition(r);
    if !Decided(i, r.toolRequestId) { NothingInTheWay(item.reasons, OutOfDate(i, r), Locked(i, r), OtherClassApproved(i, r)); }
  }

  /** The array of the cockpit lists exactly the enriched items of the requests that belong there. */
  predicate CockpitListsExactly(i: Input, items: seq<EnrichedItem>, b: Bucket) {
    && (forall e | e in items :: e.item.request in i.requests && BelongsInCockpit(i, e.item.request, b) && EnrichedAs(i, e))
    && (forall r | r in i.requests && BelongsInCockpit(i, r, b) :: exists e :: e in items && e.item.request == r)
  }

  lemma {:induction false} SiftedMembers(items: seq<Item>, missing: bool, e: EnrichedItem)
    requires e in Sifted(items, missing)
    ensures exists item :: item in items && e == Enrich(item) && (MissingProvenance in e.reasons) == missing
  {
    var last := items[|items| - 1];
    if e in Sifted(items[..|items| - 1], missing) {
      SiftedMembers(items[..|items| - 1], missing, e);
      var item :| item in items[..|items| - 1] && e == Enrich(item) && (MissingProvenance in e.reasons) == missing;
      assert item in items;
    } else {
      assert e == Enrich(last) && last in items;
    }
  }

  /** Whatever the cockpit shows is the enriched item of a request, in its final bucket. */
  lemma ShownIsClassified(i: Input, b: Bucket, e: EnrichedItem)
    requires e in BucketItems(CockpitOf(QueueOf(i)), b)
    ensures exists r :: r in i.requests && e == Enrich(Classify(i, r).1) && FinalBucket(i, r) == b
  {
    var classify: Classifier := (r: Request) => Classify(i, r);
    var q := QueueOf(i);
    var home, item := ShownFrom(q, b, e);
    BucketMembers(classify, i.requests, home, item);
    var r :| r in i.requests && classify(r) == (home, item);
    EnrichMarksMissing(i, r);
  }

  lemma ShownFrom(q: Queue, b: Bucket, e: EnrichedItem) returns (home: Bucket, item: Item)
    requires e in BucketItems(CockpitOf(q), b)
    ensures item in QueueItems(q, home) && e == Enrich(item)
    ensures b == if Open(home) && MissingProvenance in e.reasons then Blocked else home
  {
    home := b;
    if Open(b) {
      SiftedMembers(QueueItems(q, b), false, e);
      item :| item in QueueItems(q, b) && e == Enrich(item);
    } else if b == Blocked && e in Sifted(q.pending, true) {
      SiftedMembers(q.pending, true, e);
      home := Pending;
      item :| item in q.pending && e == Enrich(item);
    } else if b == Blocked && e in Sifted(q.resumable, true) {
      SiftedMembers(q.resumable, true, e);
      home := Resumable;
      item :| item in q.resumable && e == Enrich(item);
    } else {
      var items := QueueItems(q, b);
      assert e in EnrichAll(items);
      var k :| 0 <= k < |items| && EnrichAll(items)[k] == e;
      item := items[k];
    }
  }

  lemma CockpitBucketListsExactly(i: Input, b: Bucket)
    ensures CockpitListsExactly(i, BucketItems(CockpitOf(QueueOf(i)), b), b)
  {
    var items := BucketItems(CockpitOf(QueueOf(i)), b);
    forall e | e in items ensures e.item.request in i.requests && BelongsInCockpit(i, e.item.request, b) && EnrichedAs(i, e) {
      ShownIsClassified(i, b, e);
      var r :| r in i.requests && e == Enrich(Classify(i, r).1) && FinalBucket(i, r) == b;
      EnrichedShows(i, r);
      ItemShowsRequest(i, r);
      FinalWhereItBelongs(i, r, b);
    }
    forall r | r in i.requests && BelongsInCockpit(i, r, b) ensures exists e :: e in items && e.item.request == r {
      FinalWhereItBelongs(i, r, b);
      RequestIsShown(i, r);
      ItemShowsRequest(i, r);
    }
  }

  /** The cockpit of a normalised input, array by array. */
  lemma CockpitShowsExactly(i: Input)
    ensures var c := CockpitOf(QueueOf(i));
            && CockpitListsExactly(i, c.pending, Pending) && CockpitListsExactly(i, c.resumable, Resumable)
            && CockpitListsExactly(i, c.blocked, Blocked) && CockpitListsExactly(i, c.stale, Stale)
            && CockpitListsExactly(i, c.denied, Denied) && CockpitListsExactly(i, c.completed, Completed)
            && CockpitListsExactly(i, c.failed, Failed)
  {
    CockpitBucketListsExactly(i, Pending);
    CockpitBucketListsExactly(i, Resumable);
    CockpitBucketListsExactly(i, Blocked);
    CockpitBucketListsExactly(i, Stale);
    CockpitBucketListsExactly(i, Denied);
    CockpitBucketListsExactly(i, Completed);
    CockpitBucketListsExactly(i, Failed);
  }

  // ---------- Counts ----------

  function CountWhere(belongs: Request -> bool, requests: seq<Request>): nat {
    if requests == [] then 0
    else CountWhere(belongs, requests[..|requests| - 1]) + if belongs(requests[|requests| - 1]) then 1 else 0
  }

  lemma {:induction false} BucketCounted(classify: Classifier, belongs: Request -> bool, requests: seq<Request>, b: Bucket, missing: bool)
    requires forall r :: belongs(r) <==> classify(r).0 == b && (MissingProvenance in Enrich(classify(r).1).reasons) == missing
    ensures |Sifted(InBucket(classify, requests, b), missing)| == CountWhere(belongs, requests)
  {
    if requests != [] {
      var front, last := requests[..|requests| - 1], requests[|requests| - 1];
      BucketCounted(classify, belongs, front, b, missing);
      var before := InBucket(classify, front, b);
      assert before + [] == before && (before + [classify(last).1])[..|before|] == before;
    }
  }

  lemma {:induction false} PlainBucketCounted(classify: Classifier, belongs: Request -> bool, requests: seq<Request>, b: Bucket)
    requires forall r :: belongs(r) <==> classify(r).0 == b
    ensures |InBucket(classify, requests, b)| == CountWhere(belongs, requests)
  {
    if requests != [] { PlainBucketCounted(classify, belongs, requests[..|requests| - 1], b); }
  }

  lemma {:induction false} CountsJoin(a: Request -> bool, b: Request -> bool, c: Request -> bool, requests: seq<Request>)
    requires forall r :: (c(r) <==> a(r) || b(r)) && !(a(r) && b(r))
    ensures CountWhere(c, requests) == CountWhere(a, requests) + CountWhere(b, requests)
  {
    if requests != [] { CountsJoin(a, b, c, requests[..|requests| - 1]); }
  }

  lemma OpenCounted(i: Input, b: Bucket)
    requires Open(b)
    ensures |Sifted(InBucket((r: Request) => Classify(i, r), i.requests, b), false)| ==
            CountWhere((r: Request) => Belongs(i, r, b) && Provenanced(r), i.requests)
    ensures |Sifted(InBucket((r: Request) => Classify(i, r), i.requests, b), true)| ==
            CountWhere((r: Request) => Belongs(i, r, b) && !Provenanced(r), i.requests)
  {
    forall r ensures MissingProvenance in Enrich(Classify(i, r).1).reasons <==> !Provenanced(r) {
      EnrichMarksMissing(i, r);
      ProvenanceByPosition(r);
    }
    forall r ensures Classify(i, r).0 == b <==> Belongs(i, r, b) { ClassifiedWhereItBelongs(i, r, b); }
    BucketCounted((r: Request) => Classify(i, r), (r: Request) => Belongs(i, r, b) && Provenanced(r), i.requests, b, false);
    BucketCounted((r: Request) => Classify(i, r), (r: Request) => Belongs(i, r, b) && !Provenanced(r), i.requests, b, true);
  }

  lemma OtherCounted(i: Input, b: Bucket)
    ensures |InBucket((r: Request) => Classify(i, r), i.requests, b)| == CountWhere((r: Request) => Belongs(i, r, b), i.requests)
  {
    forall r ensures Classify(i, r).0 == b <==> Belongs(i, r, b) { ClassifiedWhereItBelongs(i, r, b); }
    PlainBucketCounted((r: Request) => Classify(i, r), (r: Request) => Belongs(i, r, b), i.requests, b);
  }

  /** Each count of the summary is the number of requests that belong there. */
  lemma SummaryCountsExactly(i: Input)
    ensures var s := SummaryOf(CockpitOf(QueueOf(i)));
            && s.pendingCount == CountWhere((r: Request) => Belongs(i, r, Pending) && Provenanced(r), i.requests)
            && s.resumableCount == CountWhere((r: Request) => Belongs(i, r, Resumable) && Provenanced(r), i.requests)
            && s.blockedCount == CountWhere((r: Request) => Belongs(i, r, Blocked), i.requests)
                 + CountWhere((r: Request) => Belongs(i, r, Pending) && !Provenanced(r), i.requests)
                 + CountWhere((r: Request) => Belongs(i, r, Resumable) && !Provenanced(r), i.requests)
            && s.staleCount == CountWhere((r: Request) => Belongs(i, r, Stale), i.requests)
            && s.terminalCount == CountWhere((r: Request) => Belongs(i, r, Denied), i.requests)
                 + CountWhere((r: Request) => Belongs(i, r, Completed), i.requests)
                 + CountWhere((r: Request) => Belongs(i, r, Failed), i.requests)
  {
    OpenCounted(i, Pending);
    OpenCounted(i, Resumable);
    OtherCounted(i, Blocked);
    OtherCounted(i, Stale);
    OtherCounted(i, Denied);
    OtherCounted(i, Completed);
    OtherCounted(i, Failed);
  }

  // ---------- Classes ----------

  /** The canonical class that a name stands for. */
  predicate StandsFor(name: string, class_: string) {
    || (name == "external-message-send" && class_ == "prr-send-followup")
    || (name == "export-or-publication" && class_ == "export-publication")
    || (name == "destructive-or-repair" && class_ == "destructive-repair")
    || (name != "external-message-send" && name != "export-or-publication" && name != "destructive-or-repair" && class_ == name)
  }

  /** Some request with this identifier was let through as a human review. */
  predicate ReviewedRequest(i: Input, id: string) {
    exists r :: r in i.requests && r.toolRequestId == id && r.approvalClass == "human-review"
  }

  predicate ClassSupported(i: Input, c: Option<string>, id: string) {
    c.Some? ==> c.value != "none" && (c.value == "human-review" ==> ReviewedRequest(i, id))
  }

  /** What an input must keep to for its queue to be built. */
  predicate Supported(i: Input) {
    && (forall r | r in i.requests :: r.approvalClass != "none" && (r.approvalClass == "human-review" ==> r.trusted))
    && (forall a | a in i.approvals :: ClassSupported(i, a.approvalClass, a.toolRequestId))
    && (forall d | d in i.denials :: ClassSupported(i, d.approvalClass, d.toolRequestId))
    && (forall l | l in i.locks :: SupportedLock(l))
  }

  lemma NormalRequestExactly(r: Request)
    ensures NormalRequest(r).Some? <==> r.approvalClass != "none" && (r.approvalClass == "human-review" ==> r.trusted)
    ensures NormalRequest(r).Some? ==>
              StandsFor(r.approvalClass, NormalRequest(r).value.approvalClass)
              && NormalRequest(r).value == r.(approvalClass := NormalRequest(r).value.approvalClass)
  {
  }

  lemma RequestsNormalExactly(i: Input)
    ensures All(NORMAL_REQUEST, i.requests).Some? <==>
            forall r | r in i.requests :: r.approvalClass != "none" && (r.approvalClass == "human-review" ==> r.trusted)
    ensures All(NORMAL_REQUEST, i.requests).Some? ==>
              forall id :: id in Reviewed(All(NORMAL_REQUEST, i.requests).value) <==> ReviewedRequest(i, id)
  {
    AllIsSomeIff(NORMAL_REQUEST, i.requests);
    forall r ensures NORMAL_REQUEST(r).Some? <==> r.approvalClass != "none" && (r.approvalClass == "human-review" ==> r.trusted) {
      NormalRequestExactly(r);
    }
    if All(NORMAL_REQUEST, i.requests).Some? {
      var normal := All(NORMAL_REQUEST, i.requests).value;
      forall id ensures id in Reviewed(normal) <==> ReviewedRequest(i, id) { ReviewedExactly(i, normal, id); }
    }
  }

  lemma ReviewedExactly(i: Input, normal: seq<Request>, id: string)
    requires |normal| == |i.requests| && forall k | 0 <= k < |normal| :: NORMAL_REQUEST(i.requests[k]) == Some(normal[k])
    ensures id in Reviewed(normal) <==> ReviewedRequest(i, id)
  {
    if id in Reviewed(normal) {
      var n :| n in normal && n.approvalClass == "human-review" && n.toolRequestId == id;
      var k :| 0 <= k < |normal| && normal[k] == n;
      NormalRequestExactly(i.requests[k]);
      assert i.requests[k] in i.requests;
    }
    if r :| r in i.requests && r.toolRequestId == id && r.approvalClass == "human-review" {
      var k :| 0 <= k < |i.requests| && i.requests[k] == r;
      NormalRequestExactly(i.requests[k]);
      assert normal[k] in normal;
    }
  }

  lemma ApprovalsNormalExactly(i: Input, reviewed: set<string>)
    requires forall id :: id in reviewed <==> ReviewedRequest(i, id)
    ensures NormalApprovals(reviewed, i.approvals).Some? <==> forall a | a in i.approvals :: ClassSupported(i, a.approvalClass, a.toolRequestId)
    ensures NormalDenials(reviewed, i.denials).Some? <==> forall d | d in i.denials :: ClassSupported(i, d.approvalClass, d.toolRequestId)
  {
    AllIsSomeIff((a: Approval) => NormalApproval(a, reviewed), i.approvals);
    AllIsSomeIff((d: Denial) => NormalDenial(d, reviewed), i.denials);
    forall a | a in i.approvals ensures NormalApproval(a, reviewed).Some? <==> ClassSupported(i, a.approvalClass, a.toolRequestId) {}
    forall d | d in i.denials ensures NormalDenial(d, reviewed).Some? <==> ClassSupported(i, d.approvalClass, d.toolRequestId) {}
  }

  /**
   The queue is built for exactly the inputs whose classes it supports: none may
   be "none", and human review may be asked for by trusted requests only, and
   decided only for those.
   */
  lemma BuildsExactlyWhenSupported(i: Input)
    ensures Normal(i).Some? <==> Supported(i)
  {
    RequestsNormalExactly(i);
    NormalLocksIff(i.locks);
    if All(NORMAL_REQUEST, i.requests).Some? { ApprovalsNormalExactly(i, Reviewed(All(NORMAL_REQUEST, i.requests).value)); }
  }

  predicate OptionStandsFor(name: Option<string>, class_: Option<string>) {
    name.Some? == class_.Some? && (name.Some? ==> StandsFor(name.value, class_.value))
  }

  predicate AllStandFor(names: Option<seq<string>>, classes: Option<seq<string>>) {
    && names.Some? == classes.Some?
    && (names.Some? ==>
          |names.value| == |classes.value| && forall k | 0 <= k < |names.value| :: StandsFor(names.value[k], classes.value[k]))
  }

  /** The input the queue works on: every class under the name it stands for, and nothing else changed. */
  predicate CanonicalForm(i: Input, n: Input) {
    && n.completed == i.completed && n.failures == i.failures && n.currentPreviewHashes == i.currentPreviewHashes
    && |n.requests| == |i.requests| && |n.approvals| == |i.approvals| && |n.denials| == |i.denials| && |n.locks| == |i.locks|
    && (forall k | 0 <= k < |i.requests| ::
          StandsFor(i.requests[k].approvalClass, n.requests[k].approvalClass)
          && n.requests[k] == i.requests[k].(approvalClass := n.requests[k].approvalClass))
    && (forall k | 0 <= k < |i.approvals| ::
          OptionStandsFor(i.approvals[k].approvalClass, n.approvals[k].approvalClass)
          && n.approvals[k] == i.approvals[k].(approvalClass := n.approvals[k].approvalClass))
    && (forall k | 0 <= k < |i.denials| ::
          OptionStandsFor(i.denials[k].approvalClass, n.denials[k].approvalClass)
          && n.denials[k] == i.denials[k].(approvalClass := n.denials[k].approvalClass))
    && (forall k | 0 <= k < |i.locks| ::
          AllStandFor(i.locks[k].approvalClasses, n.locks[k].approvalClasses)
          && n.locks[k] == i.locks[k].(approvalClasses := n.locks[k].approvalClasses))
  }

  lemma ApprovalStandsFor(a: Approval, reviewed: set<string>)
    requires NormalApproval(a, reviewed).Some?
    ensures var n := NormalApproval(a, reviewed).value;
            OptionStandsFor(a.approvalClass, n.approvalClass) && n == a.(approvalClass := n.approvalClass)
  {
  }

  lemma DenialStandsFor(d: Denial, reviewed: set<string>)
    requires NormalDenial(d, reviewed).Some?
    ensures var n := NormalDenial(d, reviewed).value;
            OptionStandsFor(d.approvalClass, n.approvalClass) && n == d.(approvalClass := n.approvalClass)
  {
  }

  lemma LockStandsFor(l: Lock)
    requires NormalLock(l).Some?
    ensures var n := NormalLock(l).value;
            AllStandFor(l.approvalClasses, n.approvalClasses) && n == l.(approvalClasses := n.approvalClasses)
  {
  }

  lemma NormalByParts(i: Input)
    requires Normal(i).Some?
    ensures All(NORMAL_REQUEST, i.requests) == Some(Normal(i).value.requests)
    ensures NormalApprovals(Reviewed(Normal(i).value.requests), i.approvals) == Some(Normal(i).value.approvals)
    ensures NormalDenials(Reviewed(Normal(i).value.requests), i.denials) == Some(Normal(i).value.denials)
    ensures All(NORMAL_LOCK, i.locks) == Some(Normal(i).value.locks)
    ensures Normal(i).value == i.(requests := Normal(i).value.requests, approvals := Normal(i).value.approvals,
                                  denials := Normal(i).value.denials, locks := Normal(i).value.locks)
  {
  }

  lemma NormalIsCanonicalForm(i: Input)
    requires Normal(i).Some?
    ensures CanonicalForm(i, Normal(i).value)
  {
    var n := Normal(i).value;
    NormalByParts(i);
    var reviewed := Reviewed(n.requests);
    forall k | 0 <= k < |i.requests|
      ensures StandsFor(i.requests[k].approvalClass, n.requests[k].approvalClass)
      ensures n.requests[k] == i.requests[k].(approvalClass := n.requests[k].approvalClass)
    {
      assert NORMAL_REQUEST(i.requests[k]) == Some(n.requests[k]);
      NormalRequestExactly(i.requests[k]);
    }
    forall k | 0 <= k < |i.approvals|
      ensures OptionStandsFor(i.approvals[k].approvalClass, n.approvals[k].approvalClass)
      ensures n.approvals[k] == i.approvals[k].(approvalClass := n.approvals[k].approvalClass)
    {
      assert NormalApproval(i.approvals[k], reviewed) == Some(n.approvals[k]);
      ApprovalStandsFor(i.approvals[k], reviewed);
    }
    forall k | 0 <= k < |i.denials|
      ensures OptionStandsFor(i.denials[k].approvalClass, n.denials[k].approvalClass)
      ensures n.denials[k] == i.denials[k].(approvalClass := n.denials[k].approvalClass)
    {
      assert NormalDenial(i.denials[k], reviewed) == Some(n.denials[k]);
      DenialStandsFor(i.denials[k], reviewed);
    }
    forall k | 0 <= k < |i.locks|
      ensures AllStandFor(i.locks[k].approvalClasses, n.locks[k].approvalClasses)
      ensures n.locks[k] == i.locks[k].(approvalClasses := n.locks[k].approvalClasses)
    {
      assert NORMAL_LOCK(i.locks[k]) == Some(n.locks[k]);
      LockStandsFor(i.locks[k]);
    }
  }

  // ---------- The locks of the status ----------

  /**
   In the cockpit a request is locked exactly while some active lock of the status
   is of another kind than the byte transfer, or the request is one.
   */
  lemma CockpitLockedExactly(i: Input, locks: seq<StatusLock>, r: Request)
    requires Normal(i.(locks := ActiveLocks(locks))).Some?
    ensures Locked(Normal(i.(locks := ActiveLocks(locks))).value, r) <==>
            exists l :: l in locks && l.active && (l.kind == "provider-byte-transfer" ==> r.approvalClass == "provider-byte-transfer")
  {
    var given, normal := ActiveLocks(locks), Normal(i.(locks := ActiveLocks(locks))).value.locks;
    NormalIsCanonicalForm(i.(locks := given));
    forall k | 0 <= k < |given| ensures normal[k] == given[k] { StatusLockIsNormal(locks, given[k], normal[k]); }
    assert normal == given;
    if l :| l in locks && l.active && (l.kind == "provider-byte-transfer" ==> r.approvalClass == "provider-byte-transfer") {
      assert LockOf(l) in given && LockedBy(LockOf(l), r);
    }
    if l :| l in given && LockedBy(l, r) {
      var s :| s in locks && s.active && l == LockOf(s);
    }
  }

  lemma StatusLockIsNormal(locks: seq<StatusLock>, given: Lock, normal: Lock)
    requires given in ActiveLocks(locks) && AllStandFor(given.approvalClasses, normal.approvalClasses)
    requires normal == given.(approvalClasses := normal.approvalClasses)
    ensures normal == given
  {
    var s :| s in locks && s.active && given == LockOf(s);
    if given.approvalClasses.Some? { assert normal.approvalClasses.value == given.approvalClasses.value; }
  }
}
