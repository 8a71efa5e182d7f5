/**
 The approval queue: every tool request lands in one of seven buckets, decided
 by the last decisions recorded for it, its preview hashes, its approval class
 and the locks that apply. Legacy class names count as the names they stand for.
 */
module ApprovalQueue {
  import opened CanonicalJson

  datatype Ref = Ref(kind: string, id: string, details: Value)

  /** trusted: the request carries a review of its source boundary that matches its projection. */
  datatype Request = Request(
    toolRequestId: string, approvalClass: string, previewHash: string, trusted: bool,
    affectedRefs: seq<Ref>, contextPackRefs: seq<Value>, details: Value)

  datatype Approval = Approval(toolRequestId: string, approvedPreviewHash: string, approvalClass: Option<string>, details: Value)

  datatype Denial = Denial(toolRequestId: string, approvalClass: Option<string>, details: Value)

  datatype Completion = Completion(toolRequestId: string, details: Value)

  datatype Failure = Failure(toolRequestId: string, details: Value)

  datatype Lock = Lock(lockId: string, toolRequestIds: Option<seq<string>>, approvalClasses: Option<seq<string>>, details: Value)

  datatype Input = Input(
    requests: seq<Request>,
    approvals: seq<Approval>,
    denials: seq<Denial>,
    completed: seq<Completion>,
    failures: seq<Failure>,
    currentPreviewHashes: map<string, string>,
    locks: seq<Lock>)

  datatype Reason = ApprovalStale | LockActive | ClassMismatch | MissingProvenance

  datatype Item = Item(
    request: Request, currentPreviewHash: Option<string>, locks: seq<Lock>, reasons: seq<Reason>, stale: bool,
    approval: Option<Approval>, denial: Option<Denial>, completion: Option<Completion>, failure: Option<Failure>)

  datatype Bucket = Pending | Resumable | Blocked | Stale | Denied | Completed | Failed

  datatype Queue = Queue(
    pending: seq<Item>, resumable: seq<Item>, blocked: seq<Item>, stale: seq<Item>,
    denied: seq<Item>, completed: seq<Item>, failed: seq<Item>)

  // ---------- Approval classes ----------

  function Unalias(c: string): string {
    if c == "external-message-send" then "prr-send-followup"
    else if c == "export-or-publication" then "export-publication"
    else if c == "destructive-or-repair" then "destructive-repair"
    else c
  }

  /** normalizeAgentApprovalClass; nothing where it throws. */
  function NormalClass(c: string, allowHumanReview: bool): Option<string> {
    if c == "none" || (c == "human-review" && !allowHumanReview) then None else Some(Unalias(c))
  }

  function NormalClasses(cs: seq<string>): (r: Option<seq<string>>)
    ensures r.Some? <==> forall c | c in cs :: NormalClass(c, false).Some?
    ensures r.Some? ==> |r.value| == |cs| && forall i | 0 <= i < |cs| :: r.value[i] == Unalias(cs[i])
  {
    if cs == [] then Some([])
    else
      match (NormalClass(cs[0], false), NormalClasses(cs[1..]))
      case (Some(c), Some(rest)) => Some([c] + rest)
      case _ => assert cs == [cs[0]] + cs[1..]; None
  }

  // ---------- The input in normal form ----------

  function NormalRequest(r: Request): Option<Request> {
    match NormalClass(r.approvalClass, r.trusted)
    case None => None
    case Some(c) => Some(r.(approvalClass := c))
  }

  function NormalApproval(a: Approval, reviewed: set<string>): Option<Approval> {
    if a.approvalClass.None? then Some(a)
    else
      match NormalClass(a.approvalClass.value, a.toolRequestId in reviewed)
      case None => None
      case Some(c) => Some(a.(approvalClass := Some(c)))
  }

  function NormalDenial(d: Denial, reviewed: set<string>): Option<Denial> {
    if d.approvalClass.None? then Some(d)
    else
      match NormalClass(d.approvalClass.value, d.toolRequestId in reviewed)
      case None => None
      case Some(c) => Some(d.(approvalClass := Some(c)))
  }

  function NormalLock(l: Lock): Option<Lock> {
    if l.approvalClasses.None? then Some(l)
    else
      match NormalClasses(l.approvalClasses.value)
      case None => None
      case Some(cs) => Some(l.(approvalClasses := Some(cs)))
  }

  /** Maps a sequence through a function that may fail. */
  function All<T, U>(f: T -> Option<U>, s: seq<T>): (r: Option<seq<U>>)
    ensures r.Some? ==> |r.value| == |s| && forall i | 0 <= i < |s| :: f(s[i]) == Some(r.value[i])
    ensures r.None? ==> exists i :: 0 <= i < |s| && f(s[i]).None?
  {
    if s == [] then Some([])
    else
      match (f(s[0]), All(f, s[1..]))
      case (Some(x), Some(rest)) => Some([x] + rest)
      case (None, _) => assert f(s[0]).None?; None
      case (_, None) =>
        assert exists i :: 0 <= i < |s[1..]| && f(s[1..][i]).None?;
        assert forall i | 0 <= i < |s[1..]| :: s[1..][i] == s[i + 1];
        None
  }

  function Reviewed(requests: seq<Request>): set<string> {
    set r | r in requests && r.approvalClass == "human-review" :: r.toolRequestId
  }

  const NORMAL_REQUEST: Request -> Option<Request> := (r: Request) => NormalRequest(r)
  const NORMAL_LOCK: Lock -> Option<Lock> := (l: Lock) => NormalLock(l)

  function NormalApprovals(reviewed: set<string>, s: seq<Approval>): Option<seq<Approval>> {
    All((a: Approval) => NormalApproval(a, reviewed), s)
  }

  function NormalDenials(reviewed: set<string>, s: seq<Denial>): Option<seq<Denial>> {
    All((d: Denial) => NormalDenial(d, reviewed), s)
  }

  /** The input with every class under its own name; nothing when some class is not one that the queue supports. */
  function Normal(i: Input): Option<Input> {
    match All(NORMAL_REQUEST, i.requests)
    case None => None
    case Some(requests) =>
      var reviewed := Reviewed(requests);
      match (NormalApprovals(reviewed, i.approvals), NormalDenials(reviewed, i.denials), All(NORMAL_LOCK, i.locks))
      case (Some(approvals), Some(denials), Some(locks)) =>
        Some(i.(requests := requests, approvals := approvals, denials := denials, locks := locks))
      case _ => None
  }

  // ---------- Classifying one request ----------

  /** The last element with the given request ID. */
  function Last<T>(idOf: T -> string, items: seq<T>, id: string): Option<T> {
    if items == [] then None
    else if idOf(items[|items| - 1]) == id then Some(items[|items| - 1])
    else Last(idOf, items[..|items| - 1], id)
  }

  predicate Applies(l: Lock, r: Request) {
    && (l.toolRequestIds.Some? ==> r.toolRequestId in l.toolRequestIds.value)
    && (l.approvalClasses.Some? ==> r.approvalClass in l.approvalClasses.value)
  }

  function LocksFor(r: Request, locks: seq<Lock>): (ls: seq<Lock>)
    ensures forall l :: l in ls <==> l in locks && Applies(l, r)
  {
    if locks == [] then []
    else
      assert locks == [locks[0]] + locks[1..];
      (if Applies(locks[0], r) then [locks[0]] else []) + LocksFor(r, locks[1..])
  }

  function CurrentHash(i: Input, r: Request): Option<string> {
    if r.toolRequestId in i.currentPreviewHashes then Some(i.currentPreviewHashes[r.toolRequestId]) else None
  }

  function When(condition: bool, reason: Reason): seq<Reason> {
    if condition then [reason] else []
  }

  function ReasonsForApproved(r: Request, a: Approval, hash: Option<string>, locks: seq<Lock>): seq<Reason> {
    When(hash != Some(a.approvedPreviewHash) || r.previewHash != a.approvedPreviewHash, ApprovalStale)
    + When(locks != [], LockActive)
    + When(a.approvalClass.Some? && a.approvalClass.value != r.approvalClass, ClassMismatch)
  }

  function ReasonsForRequested(r: Request, hash: Option<string>, locks: seq<Lock>): seq<Reason> {
    When(hash != Some(r.previewHash), ApprovalStale) + When(locks != [], LockActive)
  }

  const APPROVAL_ID: Approval -> string := (a: Approval) => a.toolRequestId
  const DENIAL_ID: Denial -> string := (d: Denial) => d.toolRequestId
  const COMPLETION_ID: Completion -> string := (c: Completion) => c.toolRequestId
  const FAILURE_ID: Failure -> string := (f: Failure) => f.toolRequestId

  function BucketFor(reasons: seq<Reason>, clear: Bucket): Bucket {
    if ApprovalStale in reasons then Stale else if reasons != [] then Blocked else clear
  }

  function ReasonsOf(r: Request, approval: Option<Approval>, hash: Option<string>, locks: seq<Lock>): seq<Reason> {
    if approval.None? then ReasonsForRequested(r, hash, locks) else ReasonsForApproved(r, approval.value, hash, locks)
  }

  /** Bucket and item of one request of a normalised input. */
  function Classify(i: Input, r: Request): (Bucket, Item) {
    var id := r.toolRequestId;
    var approval := Last(APPROVAL_ID, i.approvals, id);
    var denial := Last(DENIAL_ID, i.denials, id);
    var completion := Last(COMPLETION_ID, i.completed, id);
    var failure := Last(FAILURE_ID, i.failures, id);
    var locks := LocksFor(r, i.locks);
    var hash := CurrentHash(i, r);
    if completion.Some? then (Completed, Item(r, hash, locks, [], false, approval, None, completion, None))
    else if failure.Some? then (Failed, Item(r, hash, locks, [], false, approval, None, None, failure))
    else if denial.Some? then (Denied, Item(r, hash, locks, [], false, approval, denial, None, None))
    else
      var reasons := ReasonsOf(r, approval, hash, locks);
      (BucketFor(reasons, if approval.None? then Pending else Resumable),
       Item(r, hash, locks, reasons, ApprovalStale in reasons, approval, None, None, None))
  }

  type Classifier = Request -> (Bucket, Item)

  /** The items of the requests that fall into a bucket, in request order. */
  function InBucket(classify: Classifier, requests: seq<Request>, b: Bucket): seq<Item> {
    if requests == [] then []
    else
      var last := classify(requests[|requests| - 1]);
      InBucket(classify, requests[..|requests| - 1], b) + if last.0 == b then [last.1] else []
  }

  function Collect(classify: Classifier, rs: seq<Request>): Queue {
    Queue(InBucket(classify, rs, Pending), InBucket(classify, rs, Resumable), InBucket(classify, rs, Blocked), InBucket(classify, rs, Stale),
          InBucket(classify, rs, Denied), InBucket(classify, rs, Completed), InBucket(classify, rs, Failed))
  }

  function QueueOf(i: Input): Queue {
    Collect((r: Request) => Classify(i, r), i.requests)
  }

  // ---------- The program ----------

  /** A Map filled item by item: later items overwrite earlier ones of the same request. */
  method LastByRequest<T>(idOf: T -> string, items: seq<T>) returns (byId: map<string, T>)
    ensures forall id :: Last(idOf, items, id) == if id in byId then Some(byId[id]) else None
  {
    byId := map[];
    var k := 0;
    while k < |items|
      invariant 0 <= k <= |items|
      invariant forall id :: Last(idOf, items[..k], id) == if id in byId then Some(byId[id]) else None
    {
      assert items[..k + 1][..k] == items[..k];
      byId := byId[idOf(items[k]) := items[k]];
      k := k + 1;
    }
    assert items[..k] == items;
  }

  /** The four maps of decisions. */
  datatype Decisions = Decisions(
    approvals: map<string, Approval>, denials: map<string, Denial>, completions: map<string, Completion>, failures: map<string, Failure>)

  predicate DecisionsOf(i: Input, d: Decisions) {
    && (forall id | id in d.approvals :: Last(APPROVAL_ID, i.approvals, id) == Some(d.approvals[id]))
    && (forall id | id in d.denials :: Last(DENIAL_ID, i.denials, id) == Some(d.denials[id]))
    && (forall id | id in d.completions :: Last(COMPLETION_ID, i.completed, id) == Some(d.completions[id]))
    && (forall id | id in d.failures :: Last(FAILURE_ID, i.failures, id) == Some(d.failures[id]))
  }

  /** And where a map holds nothing, no such decision was recorded. */
  ghost predicate AllDecisionsOf(i: Input, d: Decisions) {
    && DecisionsOf(i, d)
    && (forall id | id !in d.approvals :: Last(APPROVAL_ID, i.approvals, id) == None)
    && (forall id | id !in d.denials :: Last(DENIAL_ID, i.denials, id) == None)
    && (forall id | id !in d.completions :: Last(COMPLETION_ID, i.completed, id) == None)
    && (forall id | id !in d.failures :: Last(FAILURE_ID, i.failures, id) == None)
  }

  /** The body of the loop: which array an item is pushed to. */
  method ClassifyRequest(i: Input, d: Decisions, r: Request) returns (bucket: Bucket, item: Item)
    requires AllDecisionsOf(i, d)
    ensures (bucket, item) == Classify(i, r)
  {
    var id := r.toolRequestId;
    var hash, locks := CurrentHash(i, r), LocksFor(r, i.locks);
    var approval := if id in d.approvals then Some(d.approvals[id]) else None;
    if id in d.completions {
      return Completed, Item(r, hash, locks, [], false, approval, None, Some(d.completions[id]), None);
    }
    if id in d.failures {
      return Failed, Item(r, hash, locks, [], false, approval, None, None, Some(d.failures[id]));
    }
    if id in d.denials {
      return Denied, Item(r, hash, locks, [], false, approval, Some(d.denials[id]), None, None);
    }
    var reasons := ReasonsOf(r, approval, hash, locks);
    item := Item(r, hash, locks, reasons, ApprovalStale in reasons, approval, None, None, None);
    if ApprovalStale in reasons {
      bucket := Stale;
    } else if |reasons| > 0 {
      bucket := Blocked;
    } else {
      bucket := if approval.None? then Pending else Resumable;
    }
  }

  method BuildQueue(input: Input) returns (queue: Option<Queue>)
    ensures queue.None? <==> Normal(input).None?
    ensures queue.Some? ==> queue.value == QueueOf(Normal(input).value)
  {
    var normal := Normal(input);
    if normal.None? { return None; }
    var i := normal.value;
    var approvals := LastByRequest(APPROVAL_ID, i.approvals);
    var denials := LastByRequest(DENIAL_ID, i.denials);
    var completions := LastByRequest(COMPLETION_ID, i.completed);
    var failures := LastByRequest(FAILURE_ID, i.failures);
    var q := CollectAll(i, Decisions(approvals, denials, completions, failures));
    return Some(q);
  }

  method CollectAll(i: Input, d: Decisions) returns (q: Queue)
    requires AllDecisionsOf(i, d)
    ensures q == QueueOf(i)
  {
    ghost var classify: Classifier := (r: Request) => Classify(i, r);
    q := Queue([], [], [], [], [], [], []);
    var k := 0;
    while k < |i.requests|
      invariant 0 <= k <= |i.requests|
      invariant q == Collect(classify, i.requests[..k])
    {
      var bucket, item := ClassifyRequest(i, d, i.requests[k]);
      OneRequestMore(classify, i.requests, k);
      q := Put(q, bucket, item);
      k := k + 1;
    }
    assert i.requests[..k] == i.requests;
  }

  /** The queue with one more item pushed to a bucket. */
  function Put(q: Queue, b: Bucket, item: Item): Queue {
    match b
    case Pending => q.(pending := q.pending + [item])
    case Resumable => q.(resumable := q.resumable + [item])
    case Blocked => q.(blocked := q.blocked + [item])
    case Stale => q.(stale := q.stale + [item])
    case Denied => q.(denied := q.denied + [item])
    case Completed => q.(completed := q.completed + [item])
    case Failed => q.(failed := q.failed + [item])
  }

  lemma BucketGrows(classify: Classifier, requests: seq<Request>, k: nat, b: Bucket)
    requires k < |requests|
    ensures InBucket(classify, requests[..k + 1], b) ==
            InBucket(classify, requests[..k], b) + if classify(requests[k]).0 == b then [classify(requests[k]).1] else []
  {
    assert requests[..k + 1][..k] == requests[..k];
  }

  lemma OneRequestMore(classify: Classifier, requests: seq<Request>, k: nat)
    requires k < |requests|
    ensures Collect(classify, requests[..k + 1]) ==
            Put(Collect(classify, requests[..k]), classify(requests[k]).0, classify(requests[k]).1)
  {
    forall b: Bucket
      ensures InBucket(classify, requests[..k + 1], b) ==
              InBucket(classify, requests[..k], b) + if classify(requests[k]).0 == b then [classify(requests[k]).1] else []
    {
      BucketGrows(classify, requests, k, b);
    }
  }

  // ---------- What the buckets mean ----------

  function Size(q: Queue): nat {
    |q.pending| + |q.resumable| + |q.blocked| + |q.stale| + |q.denied| + |q.completed| + |q.failed|
  }

  /** Each request lands in exactly one bucket. */
  lemma {:induction false} EveryRequestLandsOnce(classify: Classifier, requests: seq<Request>)
    ensures Size(Collect(classify, requests)) == |requests|
  {
    if requests != [] {
      EveryRequestLandsOnce(classify, requests[..|requests| - 1]);
      OneRequestMore(classify, requests, |requests| - 1);
      assert requests[..|requests|] == requests;
    }
  }

  /** A bucket lists the items of its requests in request order: positions in the bucket rise with positions in the input. */
  lemma {:induction false} BucketKeepsOrder(classify: Classifier, requests: seq<Request>, b: Bucket, i: nat, j: nat)
    requires i < j < |requests| && classify(requests[i]).0 == b && classify(requests[j]).0 == b
    ensures |InBucket(classify, requests[..i], b)| < |InBucket(classify, requests[..j], b)| < |InBucket(classify, requests, b)|
    ensures InBucket(classify, requests, b)[|InBucket(classify, requests[..i], b)|] == classify(requests[i]).1
  {
    BucketPrefix(classify, requests, b, i, j);
    BucketPrefix(classify, requests, b, i, |requests|);
    BucketPrefix(classify, requests, b, j, |requests|);
    assert requests[..|requests|] == requests;
  }

  lemma {:induction false} BucketPrefix(classify: Classifier, requests: seq<Request>, b: Bucket, i: nat, n: nat)
    requires i < n <= |requests| && classify(requests[i]).0 == b
    ensures InBucket(classify, requests[..i], b) + [classify(requests[i]).1] <= InBucket(classify, requests[..n], b)
    decreases n
  {
    BucketGrows(classify, requests, n - 1, b);
    if i < n - 1 { BucketPrefix(classify, requests, b, i, n - 1); }
  }

  predicate Undecided(i: Input, r: Request) {
    && Last(COMPLETION_ID, i.completed, r.toolRequestId).None?
    && Last(FAILURE_ID, i.failures, r.toolRequestId).None?
    && Last(DENIAL_ID, i.denials, r.toolRequestId).None?
  }

  predicate Unlocked(i: Input, r: Request) {
    forall l | l in i.locks :: !Applies(l, r)
  }

  lemma UnlockedMeansNoLocks(i: Input, r: Request)
    ensures LocksFor(r, i.locks) == [] <==> Unlocked(i, r)
  {
    if LocksFor(r, i.locks) != [] { assert LocksFor(r, i.locks)[0] in LocksFor(r, i.locks); }
  }

  /**
   Resumable, exactly: nothing terminal is recorded, the last approval names the
   request's preview hash, which is still the current one, and its class if it
   names one, and no lock applies.
   */
  lemma ResumableExactly(i: Input, r: Request)
    ensures Classify(i, r).0 == Resumable <==>
            && Undecided(i, r) && Unlocked(i, r)
            && var approval := Last(APPROVAL_ID, i.approvals, r.toolRequestId);
            && approval.Some?
            && CurrentHash(i, r) == Some(r.previewHash) && approval.value.approvedPreviewHash == r.previewHash
            && (approval.value.approvalClass.Some? ==> approval.value.approvalClass.value == r.approvalClass)
  {
    UnlockedMeansNoLocks(i, r);
  }

  /** Pending, exactly: nothing is recorded, the preview is current and no lock applies. */
  lemma PendingExactly(i: Input, r: Request)
    ensures Classify(i, r).0 == Pending <==>
            && Undecided(i, r) && Unlocked(i, r)
            && Last(APPROVAL_ID, i.approvals, r.toolRequestId).None?
            && CurrentHash(i, r) == Some(r.previewHash)
  {
    UnlockedMeansNoLocks(i, r);
  }

  predicate Open(b: Bucket) { b == Pending || b == Resumable }

  predicate AddsLocks(i: Input, more: Input) {
    more == i.(locks := more.locks) && forall l | l in i.locks :: l in more.locks
  }

  predicate PreviewStale(i: Input, r: Request) {
    match Last(APPROVAL_ID, i.approvals, r.toolRequestId)
    case None => CurrentHash(i, r) != Some(r.previewHash)
    case Some(a) => CurrentHash(i, r) != Some(a.approvedPreviewHash) || r.previewHash != a.approvedPreviewHash
  }

  predicate ClassMismatched(i: Input, r: Request) {
    match Last(APPROVAL_ID, i.approvals, r.toolRequestId)
    case None => false
    case Some(a) => a.approvalClass.Some? && a.approvalClass.value != r.approvalClass
  }

  /** The bucket of an undecided request in terms of the three conditions, none of which sees the others. */
  lemma BucketByConditions(i: Input, r: Request)
    requires Undecided(i, r)
    ensures Classify(i, r).0 ==
            if PreviewStale(i, r) then Stale
            else if !Unlocked(i, r) || ClassMismatched(i, r) then Blocked
            else if Last(APPROVAL_ID, i.approvals, r.toolRequestId).None? then Pending else Resumable
  {
    UnlockedMeansNoLocks(i, r);
  }

  /** On a normalised input, locks that are added block open requests and do nothing else. */
  lemma NormalLocksOnlyBlock(i: Input, more: Input, r: Request)
    requires AddsLocks(i, more)
    ensures Classify(more, r).0 ==
            if Open(Classify(i, r).0) && !Unlocked(more, r) then Blocked else Classify(i, r).0
  {
    if Undecided(i, r) {
      BucketByConditions(i, r);
      BucketByConditions(more, r);
    }
  }

  /** A lock that names no class outside the queue; the build throws on any other. */
  predicate SupportedLock(l: Lock) {
    l.approvalClasses.Some? ==> "none" !in l.approvalClasses.value && "human-review" !in l.approvalClasses.value
  }

  lemma SupportedMeansNormal(l: Lock)
    ensures NormalLock(l).Some? <==> SupportedLock(l)
  {
    if l.approvalClasses.Some? {
      var cs := l.approvalClasses.value;
      assert (forall c | c in cs :: NormalClass(c, false).Some?) <==> "none" !in cs && "human-review" !in cs;
    }
  }

  lemma AllIsSomeIff<T, U>(f: T -> Option<U>, s: seq<T>)
    ensures All(f, s).Some? <==> forall x | x in s :: f(x).Some?
  {
    if All(f, s).Some? {
      forall x | x in s ensures f(x).Some? {
        var k :| 0 <= k < |s| && s[k] == x;
        assert f(s[k]) == Some(All(f, s).value[k]);
      }
    } else {
      var k :| 0 <= k < |s| && f(s[k]).None?;
      assert s[k] in s;
    }
  }

  lemma AllKeepsMembers<T, U>(f: T -> Option<U>, a: seq<T>, b: seq<T>)
    requires All(f, a).Some? && All(f, b).Some? && forall x | x in a :: x in b
    ensures forall y | y in All(f, a).value :: y in All(f, b).value
  {
    forall y | y in All(f, a).value ensures y in All(f, b).value {
      var k :| 0 <= k < |a| && All(f, a).value[k] == y;
      assert a[k] in b;
      var m :| 0 <= m < |b| && b[m] == a[k];
      assert f(b[m]) == Some(All(f, b).value[m]);
    }
  }

  lemma NormalLocksIff(locks: seq<Lock>)
    ensures All(NORMAL_LOCK, locks).Some? <==> forall l | l in locks :: SupportedLock(l)
  {
    AllIsSomeIff(NORMAL_LOCK, locks);
    forall l | l in locks ensures NORMAL_LOCK(l).Some? <==> SupportedLock(l) { SupportedMeansNormal(l); }
  }

  /** Of the locks, normalisation needs nothing but that each is supported, and it leaves the rest of the input alone. */
  lemma NormalWithOtherLocks(i: Input, more: Input)
    requires more == i.(locks := more.locks) && Normal(i).Some?
    ensures Normal(more).Some? <==> All(NORMAL_LOCK, more.locks).Some?
    ensures Normal(i).value.locks == All(NORMAL_LOCK, i.locks).value
    ensures Normal(more).Some? ==> Normal(more).value == Normal(i).value.(locks := All(NORMAL_LOCK, more.locks).value)
  {
  }

  /**
   Adding locks, anywhere among the others, to an input that the queue accepts:
   the build throws exactly when one of them names a class outside the queue;
   otherwise every request stays in its bucket, except that an open one to which
   a lock now applies moves to blocked.
   */
  lemma AddedLocksOnlyBlock(i: Input, more: Input)
    requires more == i.(locks := more.locks) && forall l | l in i.locks :: l in more.locks
    requires Normal(i).Some?
    ensures Normal(more).Some? <==> forall l | l in more.locks :: SupportedLock(l)
    ensures Normal(more).Some? ==>
              var a, b := Normal(i).value, Normal(more).value;
              && AddsLocks(a, b) && b.requests == a.requests
              && forall r | r in a.requests ::
                   Classify(b, r).0 == if Open(Classify(a, r).0) && !Unlocked(b, r) then Blocked else Classify(a, r).0
  {
    NormalWithOtherLocks(i, more);
    NormalLocksIff(more.locks);
    if Normal(more).Some? {
      AllKeepsMembers(NORMAL_LOCK, i.locks, more.locks);
      forall r | r in Normal(i).value.requests
        ensures Classify(Normal(more).value, r).0 ==
                if Open(Classify(Normal(i).value, r).0) && !Unlocked(Normal(more).value, r) then Blocked else Classify(Normal(i).value, r).0
      {
        NormalLocksOnlyBlock(Normal(i).value, Normal(more).value, r);
      }
    }
  }

  /** So an added lock can make the whole build throw: one that names human review does, whatever the input. */
  lemma UnsupportedLockThrows(i: Input, lockId: string, details: Value)
    ensures Normal(i.(locks := i.locks + [Lock(lockId, None, Some(["human-review"]), details)])).None?
  {
    var lock := Lock(lockId, None, Some(["human-review"]), details);
    var locks := i.locks + [lock];
    assert lock in locks && !SupportedLock(lock);
    NormalLocksIff(locks);
  }

  // ---------- Legacy names ----------

  predicate SameClass(a: string, b: string) {
    Unalias(a) == Unalias(b)
  }

  predicate SameOptionalClass(a: Option<string>, b: Option<string>) {
    a.Some? == b.Some? && (a.Some? ==> SameClass(a.value, b.value))
  }

  predicate SameClasses(a: Option<seq<string>>, b: Option<seq<string>>) {
    a.Some? == b.Some? && (a.Some? ==> |a.value| == |b.value| && forall k | 0 <= k < |a.value| :: SameClass(a.value[k], b.value[k]))
  }

  /** The two inputs differ only in which name they use for a class. */
  predicate SameButForNames(a: Input, b: Input) {
    && a.completed == b.completed && a.failures == b.failures && a.currentPreviewHashes == b.currentPreviewHashes
    && |a.requests| == |b.requests| && |a.approvals| == |b.approvals| && |a.denials| == |b.denials| && |a.locks| == |b.locks|
    && (forall k | 0 <= k < |a.requests| ::
          SameClass(a.requests[k].approvalClass, b.requests[k].approvalClass)
          && b.requests[k] == a.requests[k].(approvalClass := b.requests[k].approvalClass))
    && (forall k | 0 <= k < |a.approvals| ::
          SameOptionalClass(a.approvals[k].approvalClass, b.approvals[k].approvalClass)
          && b.approvals[k] == a.approvals[k].(approvalClass := b.approvals[k].approvalClass))
    && (forall k | 0 <= k < |a.denials| ::
          SameOptionalClass(a.denials[k].approvalClass, b.denials[k].approvalClass)
          && b.denials[k] == a.denials[k].(approvalClass := b.denials[k].approvalClass))
    && (forall k | 0 <= k < |a.locks| ::
          SameClasses(a.locks[k].approvalClasses, b.locks[k].approvalClasses)
          && b.locks[k] == a.locks[k].(approvalClasses := b.locks[k].approvalClasses))
  }

  lemma SameNormalClass(a: string, b: string, allow: bool)
    requires SameClass(a, b)
    ensures NormalClass(a, allow) == NormalClass(b, allow)
  {
  }

  lemma {:induction false} SameNormalClasses(a: seq<string>, b: seq<string>)
    requires |a| == |b| && forall k | 0 <= k < |a| :: SameClass(a[k], b[k])
    ensures NormalClasses(a) == NormalClasses(b)
  {
    if a != [] {
      SameNormalClass(a[0], b[0], false);
      SameNormalClasses(a[1..], b[1..]);
    }
  }

  lemma {:induction false} AllAgree<T, U>(f: T -> Option<U>, a: seq<T>, b: seq<T>)
    requires |a| == |b| && forall k | 0 <= k < |a| :: f(a[k]) == f(b[k])
    ensures All(f, a) == All(f, b)
  {
    if a != [] { AllAgree(f, a[1..], b[1..]); }
  }

  lemma SameNormalLocks(a: seq<Lock>, b: seq<Lock>)
    requires |a| == |b|
    requires forall k | 0 <= k < |a| ::
               SameClasses(a[k].approvalClasses, b[k].approvalClasses) && b[k] == a[k].(approvalClasses := b[k].approvalClasses)
    ensures All(NORMAL_LOCK, a) == All(NORMAL_LOCK, b)
  {
    forall k | 0 <= k < |a| ensures NormalLock(a[k]) == NormalLock(b[k]) {
      if a[k].approvalClasses.Some? { SameNormalClasses(a[k].approvalClasses.value, b[k].approvalClasses.value); }
    }
    AllAgree(NORMAL_LOCK, a, b);
  }

  lemma SameNormalApprovals(reviewed: set<string>, a: seq<Approval>, b: seq<Approval>)
    requires |a| == |b|
    requires forall k | 0 <= k < |a| ::
               SameOptionalClass(a[k].approvalClass, b[k].approvalClass) && b[k] == a[k].(approvalClass := b[k].approvalClass)
    ensures NormalApprovals(reviewed, a) == NormalApprovals(reviewed, b)
  {
    AllAgree((x: Approval) => NormalApproval(x, reviewed), a, b);
  }

  lemma SameNormalDenials(reviewed: set<string>, a: seq<Denial>, b: seq<Denial>)
    requires |a| == |b|
    requires forall k | 0 <= k < |a| ::
               SameOptionalClass(a[k].approvalClass, b[k].approvalClass) && b[k] == a[k].(approvalClass := b[k].approvalClass)
    ensures NormalDenials(reviewed, a) == NormalDenials(reviewed, b)
  {
    AllAgree((x: Denial) => NormalDenial(x, reviewed), a, b);
  }

  lemma SameNormalRequests(a: seq<Request>, b: seq<Request>)
    requires |a| == |b|
    requires forall k | 0 <= k < |a| ::
               SameClass(a[k].approvalClass, b[k].approvalClass) && b[k] == a[k].(approvalClass := b[k].approvalClass)
    ensures All(NORMAL_REQUEST, a) == All(NORMAL_REQUEST, b)
  {
    AllAgree(NORMAL_REQUEST, a, b);
  }

  /** Replacing any class anywhere by its legacy alias, or back, changes nothing in the queue. */
  lemma AliasesChangeNothing(a: Input, b: Input)
    requires SameButForNames(a, b)
    ensures Normal(a) == Normal(b)
  {
    SameNormalRequests(a.requests, b.requests);
    SameNormalLocks(a.locks, b.locks);
    forall reviewed: set<string> ensures NormalApprovals(reviewed, a.approvals) == NormalApprovals(reviewed, b.approvals) {
      SameNormalApprovals(reviewed, a.approvals, b.approvals);
    }
    forall reviewed: set<string> ensures NormalDenials(reviewed, a.denials) == NormalDenials(reviewed, b.denials) {
      SameNormalDenials(reviewed, a.denials, b.denials);
    }
  }

  /** The names that stand for each other. */
  lemma LegacyNamesAreAliases()
    ensures SameClass("external-message-send", "prr-send-followup")
    ensures SameClass("export-or-publication", "export-publication")
    ensures SameClass("destructive-or-repair", "destructive-repair")
  {
  }
}
