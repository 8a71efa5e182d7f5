/**
 The read model of recorded plans and observations: one pass that fills maps and
 collects diagnostics, a second pass for superseded plans, and the proof that
 over every ledger the recorder can build it shows exactly what was recorded.
 Also the segments of one resident loop stream.
 */
module ResidentProjection {
  import opened CanonicalJson
  import opened EventLedgers
  import opened ResidentRecorder
  import R = ResidentRecords

  // ---------- Keys ----------

  function PlanKey(p: Plan): string {
    p.identity.taskId + "|" + (p.identity.attemptId + "|" + (p.identity.runId + "|" + (R.IntText(p.revision) + "|" + p.identity.policyHash)))
  }

  function ObservationKey(o: Observation): string {
    o.planEventId + "|" + (R.IntText(o.ordinal) + "|" + o.category)
  }

  function KeyOf(e: Event): string {
    match e.body
    case PlanRecorded(p) => PlanKey(p)
    case ObservationRecorded(o) => ObservationKey(o)
    case Unrelated(_) => ""
  }

  // ---------- The fold, as a function ----------

  datatype Code = DuplicatePlanKey | PlanReadbackInvalid | PlanSuperseded | DuplicateObservationKey

  datatype Scanned = Scanned(plans: Ledger, byId: map<string, Event>, observations: Ledger, diagnostics: seq<Code>)

  datatype PlanView = PlanView(
    eventId: string, taskId: string, attemptId: string, runId: string, revision: int,
    sourceEventIds: seq<string>, contextArtifactHashes: seq<string>, authorityHash: string)

  datatype ObservationView = ObservationView(
    eventId: string, planEventId: string, taskId: string, attemptId: string, runId: string, ordinal: int, category: string)

  datatype Projection = Projection(ready: bool, plans: seq<PlanView>, observations: seq<ObservationView>, diagnostics: seq<Code>)

  function WithKey(events: Ledger, key: string): Option<Event> {
    Find(events, (e: Event) => KeyOf(e) == key)
  }

  /** samePlan: the whole payload but its revision, which the key already holds. */
  predicate SamePlan(a: Plan, b: Plan) {
    a.descriptorHash == b.descriptorHash && a.identity == b.identity
  }

  predicate SameObservation(a: Observation, b: Observation) {
    a.hash == b.hash && a.planEventId == b.planEventId && a.identity == b.identity
  }

  /** The observation names a projected plan of its own identity. */
  predicate ReadbackValid(byId: map<string, Event>, o: Observation) {
    && o.planEventId in byId
    && var plan := byId[o.planEventId];
    && IsPlan(plan) && plan.body.plan.identity == o.identity
    && o.readbackTask == o.identity.taskId && o.readbackAttempt == o.identity.attemptId && o.readbackRun == o.identity.runId
  }

  function ScanStep(s: Scanned, e: Event): Scanned {
    match e.body
    case PlanRecorded(plan) =>
      (match WithKey(s.plans, KeyOf(e))
       case None => s.(plans := s.plans + [e], byId := s.byId[e.id := e])
       case Some(prior) =>
         if prior.body.PlanRecorded? && SamePlan(prior.body.plan, plan) then s
         else s.(diagnostics := s.diagnostics + [DuplicatePlanKey]))
    case ObservationRecorded(o) =>
      if !ReadbackValid(s.byId, o) then s.(diagnostics := s.diagnostics + [PlanReadbackInvalid])
      else
        (match WithKey(s.observations, KeyOf(e))
         case None => s.(observations := s.observations + [e])
         case Some(prior) =>
           if prior.body.ObservationRecorded? && SameObservation(prior.body.observation, o) then s
           else s.(diagnostics := s.diagnostics + [DuplicateObservationKey]))
    case Unrelated(_) => s
  }

  function Scan(es: Ledger): Scanned {
    if es == [] then Scanned([], map[], [], []) else ScanStep(Scan(es[..|es| - 1]), es[|es| - 1])
  }

  predicate SupersededById(byId: map<string, Event>, o: Observation) {
    && o.planEventId in byId && IsPlan(byId[o.planEventId])
    && exists id :: id in byId && Supersedes(byId[id], byId[o.planEventId])
  }

  predicate Flagged(byId: map<string, Event>, e: Event) {
    IsObservation(e) && SupersededById(byId, e.body.observation)
  }

  function SupersededCodes(observations: Ledger, byId: map<string, Event>): (r: seq<Code>)
    ensures forall c | c in r :: c == PlanSuperseded
    ensures r == [] <==> forall e | e in observations :: !Flagged(byId, e)
  {
    if observations == [] then []
    else
      var last := observations[|observations| - 1];
      SupersededCodes(observations[..|observations| - 1], byId) + if Flagged(byId, last) then [PlanSuperseded] else []
  }

  function ViewPlan(e: Event): PlanView
    requires IsPlan(e)
  {
    var p := e.body.plan;
    PlanView(e.id, p.identity.taskId, p.identity.attemptId, p.identity.runId, p.revision, p.identity.sourceEventIds,
             p.identity.contextArtifactHashes, p.identity.authorityHash)
  }

  function ViewObservation(e: Event): ObservationView
    requires IsObservation(e)
  {
    var o := e.body.observation;
    ObservationView(e.id, o.planEventId, o.identity.taskId, o.identity.attemptId, o.identity.runId, o.ordinal, o.category)
  }

  function ViewPlans(events: Ledger): seq<PlanView>
    requires forall e | e in events :: IsPlan(e)
  {
    seq(|events|, i requires 0 <= i < |events| => ViewPlan(events[i]))
  }

  function ViewObservations(events: Ledger): seq<ObservationView>
    requires forall e | e in events :: IsObservation(e)
  {
    seq(|events|, i requires 0 <= i < |events| => ViewObservation(events[i]))
  }

  lemma {:induction false} ScanHoldsKinds(es: Ledger)
    ensures forall e | e in Scan(es).plans :: IsPlan(e)
    ensures forall e | e in Scan(es).observations :: IsObservation(e)
  {
    if es != [] { ScanHoldsKinds(es[..|es| - 1]); }
  }

  function Project(es: Ledger): Projection {
    var s := Scan(es);
    var diagnostics := s.diagnostics + SupersededCodes(s.observations, s.byId);
    if diagnostics != [] then Projection(false, [], [], diagnostics)
    else
      ScanHoldsKinds(es);
      Projection(true, ViewPlans(s.plans), ViewObservations(s.observations), [])
  }

  // ---------- The fold, as the program runs it ----------

  /** A Map together with the order in which its keys were first set. */
  predicate Indexed(order: Ledger, index: map<string, Event>) {
    && (forall e | e in order :: KeyOf(e) in index && index[KeyOf(e)] == e)
    && (forall k | k in index :: index[k] in order && KeyOf(index[k]) == k)
  }

  lemma IndexedFinds(order: Ledger, index: map<string, Event>, key: string)
    requires Indexed(order, index)
    ensures WithKey(order, key) == if key in index then Some(index[key]) else None
  {
  }

  method BuildProjection(events: Ledger) returns (projection: Projection)
    ensures projection == Project(events)
  {
    var plans: map<string, Event>, observations: map<string, Event> := map[], map[];
    var planOrder: Ledger, observationOrder: Ledger := [], [];
    var byId: map<string, Event> := map[];
    var diagnostics: seq<Code> := [];
    var i := 0;
    while i < |events|
      invariant 0 <= i <= |events|
      invariant Indexed(planOrder, plans) && Indexed(observationOrder, observations)
      invariant Scan(events[..i]) == Scanned(planOrder, byId, observationOrder, diagnostics)
    {
      var e := events[i];
      assert events[..i + 1][..i] == events[..i];
      IndexedFinds(planOrder, plans, KeyOf(e));
      IndexedFinds(observationOrder, observations, KeyOf(e));
      match e.body {
        case PlanRecorded(plan) =>
          var key := PlanKey(plan);
          if key !in plans {
            plans, planOrder, byId := plans[key := e], planOrder + [e], byId[e.id := e];
          } else if !(plans[key].body.PlanRecorded? && SamePlan(plans[key].body.plan, plan)) {
            diagnostics := diagnostics + [DuplicatePlanKey];
          }
        case ObservationRecorded(o) =>
          var key := ObservationKey(o);
          if !ReadbackValid(byId, o) {
            diagnostics := diagnostics + [PlanReadbackInvalid];
          } else if key !in observations {
            observations, observationOrder := observations[key := e], observationOrder + [e];
          } else if !(observations[key].body.ObservationRecorded? && SameObservation(observations[key].body.observation, o)) {
            diagnostics := diagnostics + [DuplicateObservationKey];
          }
        case Unrelated(_) =>
      }
      i := i + 1;
    }
    assert events[..i] == events;
    diagnostics := FlagSuperseded(observationOrder, byId, diagnostics);
    if diagnostics != [] { return Projection(false, [], [], diagnostics); }
    ScanHoldsKinds(events);
    return Projection(true, ViewPlans(planOrder), ViewObservations(observationOrder), []);
  }

  /** The second pass, over the observations in the order they were projected. */
  method FlagSuperseded(observations: Ledger, byId: map<string, Event>, first: seq<Code>) returns (diagnostics: seq<Code>)
    ensures diagnostics == first + SupersededCodes(observations, byId)
  {
    diagnostics := first;
    var k := 0;
    while k < |observations|
      invariant 0 <= k <= |observations|
      invariant diagnostics == first + SupersededCodes(observations[..k], byId)
    {
      assert observations[..k + 1][..k] == observations[..k];
      if Flagged(byId, observations[k]) { diagnostics := diagnostics + [PlanSuperseded]; }
      k := k + 1;
    }
    assert observations[..k] == observations;
  }

  // ---------- Keys tell records apart ----------

  lemma FirstBar(a: string, b: string, k: nat)
    requires NoBar(a)
    ensures (a + "|" + b)[|a|] == '|'
    ensures k < |a| ==> (a + "|" + b)[k] != '|'
  {
    if k < |a| { assert (a + "|" + b)[k] == a[k]; }
  }

  lemma SplitAtBar(a: string, b: string, c: string, d: string)
    requires NoBar(a) && NoBar(c) && a + "|" + b == c + "|" + d
    ensures a == c && b == d
  {
    var left, right := a + "|" + b, c + "|" + d;
    FirstBar(a, b, |c|);
    FirstBar(c, d, |a|);
    assert a == left[..|a|] && c == right[..|c|];
    assert b == left[|a| + 1..] && d == right[|c| + 1..];
  }

  function DigitValue(c: char): int { c as int - '0' as int }

  function ReadDigits(s: string): int {
    if s == "" then 0 else ReadDigits(s[..|s| - 1]) * 10 + DigitValue(s[|s| - 1])
  }

  lemma {:induction false} DigitsAreRead(n: nat)
    ensures R.DigitsOf(n) != "" && forall c | c in R.DigitsOf(n) :: '0' <= c <= '9'
    ensures ReadDigits(R.DigitsOf(n)) == n
  {
    if n >= 10 {
      DigitsAreRead(n / 10);
      var s := R.DigitsOf(n);
      assert s[..|s| - 1] == R.DigitsOf(n / 10);
    } else {
      assert R.DigitsOf(n)[..0] == "";
    }
  }

  lemma IntTextIsClean(a: int)
    ensures NoBar(R.IntText(a))
  {
    DigitsAreRead(if a < 0 then -a else a);
  }

  lemma DigitsTell(m: nat, n: nat)
    requires R.DigitsOf(m) == R.DigitsOf(n)
    ensures m == n
  {
    DigitsAreRead(m);
    DigitsAreRead(n);
  }

  lemma IntTextSign(a: int)
    ensures R.IntText(a) != ""
    ensures R.IntText(a)[0] == '-' <==> a < 0
    ensures R.IntText(a) == if a < 0 then "-" + R.DigitsOf(-a) else R.DigitsOf(a)
  {
    DigitsAreRead(if a < 0 then -a else a);
    if a >= 0 { assert R.IntText(a)[0] in R.DigitsOf(a); }
  }

  /** Decimal texts tell their numbers apart. */
  lemma IntTextTells(a: int, b: int)
    requires R.IntText(a) == R.IntText(b)
    ensures a == b
  {
    IntTextSign(a);
    IntTextSign(b);
    if a < 0 {
      assert R.IntText(a)[1..] == R.DigitsOf(-a) && R.IntText(b)[1..] == R.DigitsOf(-b);
      DigitsTell(-a, -b);
    } else {
      DigitsTell(a, b);
    }
  }

  lemma PlanKeyTells(p: Plan, q: Plan)
    requires IdentifiersClean(p.identity) && IdentifiersClean(q.identity) && PlanKey(p) == PlanKey(q)
    ensures p.identity.taskId == q.identity.taskId && p.identity.attemptId == q.identity.attemptId && p.identity.runId == q.identity.runId
    ensures p.revision == q.revision && p.identity.policyHash == q.identity.policyHash
  {
    var i, j := p.identity, q.identity;
    var p3, q3 := R.IntText(p.revision) + "|" + i.policyHash, R.IntText(q.revision) + "|" + j.policyHash;
    var p2, q2 := i.runId + "|" + p3, j.runId + "|" + q3;
    var p1, q1 := i.attemptId + "|" + p2, j.attemptId + "|" + q2;
    SplitAtBar(i.taskId, p1, j.taskId, q1);
    SplitAtBar(i.attemptId, p2, j.attemptId, q2);
    SplitAtBar(i.runId, p3, j.runId, q3);
    IntTextIsClean(p.revision);
    IntTextIsClean(q.revision);
    SplitAtBar(R.IntText(p.revision), i.policyHash, R.IntText(q.revision), j.policyHash);
    IntTextTells(p.revision, q.revision);
  }

  /** The category may contain anything: it comes last. */
  lemma ObservationKeyTells(o: Observation, q: Observation)
    requires NoBar(o.planEventId) && NoBar(q.planEventId) && ObservationKey(o) == ObservationKey(q)
    ensures o.planEventId == q.planEventId && o.ordinal == q.ordinal && o.category == q.category
  {
    SplitAtBar(o.planEventId, R.IntText(o.ordinal) + "|" + o.category, q.planEventId, R.IntText(q.ordinal) + "|" + q.category);
    IntTextIsClean(o.ordinal);
    IntTextIsClean(q.ordinal);
    SplitAtBar(R.IntText(o.ordinal), o.category, R.IntText(q.ordinal), q.category);
    IntTextTells(o.ordinal, q.ordinal);
  }

  // ---------- Agreement with the recorder ----------

  function Plans(es: Ledger): (r: Ledger)
    ensures forall e | e in r :: IsPlan(e) && e in es
    ensures forall e | e in es && IsPlan(e) :: e in r
  {
    if es == [] then [] else Plans(es[..|es| - 1]) + if IsPlan(es[|es| - 1]) then [es[|es| - 1]] else []
  }

  function Observations(es: Ledger): (r: Ledger)
    ensures forall e | e in r :: IsObservation(e) && e in es
    ensures forall e | e in es && IsObservation(e) :: e in r
  {
    if es == [] then [] else Observations(es[..|es| - 1]) + if IsObservation(es[|es| - 1]) then [es[|es| - 1]] else []
  }

  /** byId holds exactly the plans, each under its identifier. */
  predicate ById(byId: map<string, Event>, plans: Ledger) {
    && (forall e | e in plans :: e.id in byId && byId[e.id] == e)
    && (forall id | id in byId :: byId[id] in plans && byId[id].id == id)
  }

  predicate Clean(es: Ledger, s: Scanned) {
    s.plans == Plans(es) && s.observations == Observations(es) && s.diagnostics == [] && ById(s.byId, s.plans)
  }

  lemma PlanIsNew(es: Ledger, before: Ledger, e: Event)
    requires LedgerRecorded(es) && (forall f | f in before :: f in es) && e in es
    requires RecordOk(before, e) && IsPlan(e)
    ensures WithKey(Plans(before), KeyOf(e)) == None
  {
    var found := WithKey(Plans(before), KeyOf(e));
    if found.Some? {
      var f := found.value;
      AtItsStream(es, f);
      PlanKeyTells(f.body.plan, e.body.plan);
    }
  }

  lemma ObservationIsNew(es: Ledger, before: Ledger, e: Event)
    requires LedgerRecorded(es) && (forall f | f in before :: f in es) && e in es
    requires RecordOk(before, e) && IsObservation(e)
    ensures WithKey(Observations(before), KeyOf(e)) == None
  {
    var found := WithKey(Observations(before), KeyOf(e));
    if found.Some? {
      var f := found.value;
      ObservedPlan(es, f);
      ObservedPlan(es, e);
      ObservationKeyTells(f.body.observation, e.body.observation);
      SameObservedPlan(es, f, e);
    }
  }

  /** The plan an observation binds. */
  lemma ObservedPlan(es: Ledger, o: Event)
    requires LedgerRecorded(es) && o in es && IsObservation(o)
    ensures NoBar(o.body.observation.planEventId)
    ensures exists plan :: plan in es && IsPlan(plan) && plan.id == o.body.observation.planEventId && plan.streamId == o.streamId
  {
    var i :| 0 <= i < |es| && es[i] == o;
    assert RecordOk(es[..i], es[i]);
    var plan :| plan in es[..i] && PlanStands(es[..i], o, plan);
    AtItsStream(es, plan);
  }

  lemma SameObservedPlan(es: Ledger, o: Event, q: Event)
    requires LedgerRecorded(es) && o in es && q in es && IsObservation(o) && IsObservation(q)
    requires o.body.observation.planEventId == q.body.observation.planEventId
    ensures o.streamId == q.streamId
  {
    ObservedPlan(es, o);
    ObservedPlan(es, q);
    var plan :| plan in es && IsPlan(plan) && plan.id == o.body.observation.planEventId && plan.streamId == o.streamId;
    var other :| other in es && IsPlan(other) && other.id == q.body.observation.planEventId && other.streamId == q.streamId;
    IdIsUnique(es, plan, other);
  }

  lemma ReadbackIsValid(es: Ledger, before: Ledger, e: Event, byId: map<string, Event>)
    requires LedgerRecorded(es) && RecordOk(before, e) && IsObservation(e) && ById(byId, Plans(before))
    ensures ReadbackValid(byId, e.body.observation)
  {
    var plan :| plan in before && PlanStands(before, e, plan);
    assert plan in Plans(before);
  }

  lemma ByIdGrows(byId: map<string, Event>, plans: Ledger, e: Event)
    requires ById(byId, plans) && forall f | f in plans :: f.id != e.id
    ensures ById(byId[e.id := e], plans + [e])
  {
  }

  lemma PlanScanStep(s: Scanned, e: Event)
    requires IsPlan(e) && WithKey(s.plans, KeyOf(e)) == None
    ensures ScanStep(s, e) == Scanned(s.plans + [e], s.byId[e.id := e], s.observations, s.diagnostics)
  {
  }

  lemma CleanPlanStep(before: Ledger, e: Event, s: Scanned)
    requires Clean(before, s) && IsPlan(e) && WithKey(Plans(before), KeyOf(e)) == None && e.id !in Ids(before)
    ensures Clean(before + [e], ScanStep(s, e))
  {
    IdIsNew(before, e);
    ByIdGrows(s.byId, s.plans, e);
    PlanScanStep(s, e);
    OnePlanMore(before, e);
  }

  lemma IdIsNew(before: Ledger, e: Event)
    requires e.id !in Ids(before)
    ensures forall f | f in before :: f.id != e.id
  {
  }

  lemma OnePlanMore(before: Ledger, e: Event)
    requires IsPlan(e)
    ensures Plans(before + [e]) == Plans(before) + [e] && Observations(before + [e]) == Observations(before)
  {
    assert (before + [e])[..|before|] == before;
  }

  lemma CleanObservationStep(before: Ledger, e: Event, s: Scanned)
    requires Clean(before, s) && IsObservation(e) && ReadbackValid(s.byId, e.body.observation)
    requires WithKey(Observations(before), KeyOf(e)) == None
    ensures Clean(before + [e], ScanStep(s, e))
  {
    assert (before + [e])[..|before|] == before;
  }

  lemma CleanOtherStep(before: Ledger, e: Event, s: Scanned)
    requires Clean(before, s) && e.body.Unrelated?
    ensures Clean(before + [e], ScanStep(s, e))
  {
    assert (before + [e])[..|before|] == before;
  }

  lemma CleanStep(es: Ledger, n: nat)
    requires LedgerRecorded(es) && n < |es| && Clean(es[..n], Scan(es[..n]))
    ensures Clean(es[..n + 1], Scan(es[..n + 1]))
  {
    var before, e, s := es[..n], es[n], Scan(es[..n]);
    assert es[..n + 1] == before + [e] && es[..n + 1][..n] == before;
    assert RecordOk(before, e);
    if IsPlan(e) {
      PlanIsNew(es, before, e);
      CleanPlanStep(before, e, s);
    } else if IsObservation(e) {
      ReadbackIsValid(es, before, e, s.byId);
      ObservationIsNew(es, before, e);
      CleanObservationStep(before, e, s);
    } else {
      CleanOtherStep(before, e, s);
    }
  }

  lemma {:induction false} ScanIsClean(es: Ledger, n: nat)
    requires LedgerRecorded(es) && n <= |es|
    ensures Clean(es[..n], Scan(es[..n]))
  {
    if n > 0 {
      ScanIsClean(es, n - 1);
      CleanStep(es, n - 1);
    } else {
      assert es[..0] == [];
    }
  }

  /** Some observation binds this plan. */
  predicate Observed(es: Ledger, plan: Event) {
    exists o :: o in es && IsObservation(o) && o.body.observation.planEventId == plan.id
  }

  lemma FlaggedIffSuperseded(es: Ledger, byId: map<string, Event>, o: Event, plan: Event)
    requires ById(byId, Plans(es)) && o in es && IsObservation(o)
    requires plan in es && IsPlan(plan) && plan.id == o.body.observation.planEventId
    ensures Flagged(byId, o) <==> Superseded(plan, es)
  {
    assert byId[plan.id] == plan;
    if later :| later in es && Supersedes(later, plan) {
      assert later in Plans(es) && byId[later.id] == later;
    }
    if id :| id in byId && Supersedes(byId[id], plan) {
      assert byId[id] in Plans(es);
    }
  }

  predicate NoneSuperseded(es: Ledger) {
    forall plan | plan in es && IsPlan(plan) && Observed(es, plan) :: !Superseded(plan, es)
  }

  lemma FlagsMeanSuperseded(es: Ledger, byId: map<string, Event>)
    requires LedgerRecorded(es) && ById(byId, Plans(es))
    ensures NoneSuperseded(es) <==> forall o | o in Observations(es) :: !Flagged(byId, o)
  {
    if plan :| plan in es && IsPlan(plan) && Observed(es, plan) && Superseded(plan, es) {
      var o :| o in es && IsObservation(o) && o.body.observation.planEventId == plan.id;
      FlaggedIffSuperseded(es, byId, o, plan);
      assert o in Observations(es);
    }
    if o :| o in Observations(es) && Flagged(byId, o) {
      ObservedPlan(es, o);
      var plan :| plan in es && IsPlan(plan) && plan.id == o.body.observation.planEventId && plan.streamId == o.streamId;
      FlaggedIffSuperseded(es, byId, o, plan);
      assert Observed(es, plan);
    }
  }

  /**
   The projection agrees with the recorder: over every ledger built by recorder
   calls, it is ready exactly when no observed plan has been superseded; ready,
   it lists exactly the recorded plans and observations in ledger order; and
   blocked, its only diagnostic is that of a superseded plan.
   */
  lemma ProjectionAgreesWithRecorder(es: Ledger)
    requires LedgerRecorded(es)
    ensures Project(es).ready <==> !SomeObservedPlanOutdated(es)
    ensures Project(es).ready ==> Project(es) == Projection(true, ViewPlans(Plans(es)), ViewObservations(Observations(es)), [])
    ensures forall c | c in Project(es).diagnostics :: c == PlanSuperseded
  {
    ScanIsClean(es, |es|);
    assert es[..|es|] == es;
    FlagsMeanSuperseded(es, Scan(es).byId);
    NoneSupersededExactly(es);
    CleanProjection(es);
  }

  /** Nothing but the second pass can block a clean scan. */
  lemma CleanProjection(es: Ledger)
    requires Clean(es, Scan(es))
    ensures var codes := SupersededCodes(Observations(es), Scan(es).byId);
            Project(es) ==
            if codes == [] then Projection(true, ViewPlans(Plans(es)), ViewObservations(Observations(es)), [])
            else Projection(false, [], [], codes)
  {
    var codes := SupersededCodes(Observations(es), Scan(es).byId);
    assert [] + codes == codes;
  }

  /** The same over every run of concurrent recorder calls. */
  lemma ProjectionOfEveryRun(ws: seq<World>, ss: seq<StepLabel>, n: nat)
    requires Run(ws, ss) && n < |ws|
    ensures Project(ws[n].ledger).ready <==> !SomeObservedPlanOutdated(ws[n].ledger)
    ensures Project(ws[n].ledger).ready ==>
              Project(ws[n].ledger).plans == ViewPlans(Plans(ws[n].ledger))
              && Project(ws[n].ledger).observations == ViewObservations(Observations(ws[n].ledger))
    ensures forall c | c in Project(ws[n].ledger).diagnostics :: c == PlanSuperseded
  {
    RunKeepsRecorder(ws, ss, n);
    ProjectionAgreesWithRecorder(ws[n].ledger);
  }

  /** Some observation names a plan that a later revision of the same identity has outdated. */
  predicate SomeObservedPlanOutdated(es: Ledger) {
    exists o, p :: o in es && p in es && o.body.ObservationRecorded? && p.body.PlanRecorded?
                   && p.id == o.body.observation.planEventId && Outdated(es, p)
  }

  lemma NoneSupersededExactly(es: Ledger)
    ensures NoneSuperseded(es) <==> !SomeObservedPlanOutdated(es)
  {
    forall p | p in es && IsPlan(p) ensures Superseded(p, es) <==> Outdated(es, p) { SupersededIsOutdated(es, p); }
    if o, p :| o in es && p in es && IsObservation(o) && IsPlan(p) && p.id == o.body.observation.planEventId && Superseded(p, es) {
      assert Observed(es, p);
    }
  }

  /** The places of the flagged observations. */
  function FlaggedAt(observations: Ledger, byId: map<string, Event>): set<nat> {
    set k: nat | k < |observations| && Flagged(byId, observations[k])
  }

  lemma FlaggedAtEnd(observations: Ledger, byId: map<string, Event>, n: nat)
    requires |observations| == n + 1
    ensures FlaggedAt(observations, byId) == FlaggedAt(observations[..n], byId) + (if Flagged(byId, observations[n]) then {n} else {})
  {
    forall k: nat ensures k in FlaggedAt(observations, byId) <==>
                          k in FlaggedAt(observations[..n], byId) || (k == n && Flagged(byId, observations[n]))
    {
    }
  }

  /** The second pass adds one code for each flagged observation. */
  lemma {:induction false} OneCodeEach(observations: Ledger, byId: map<string, Event>)
    ensures |SupersededCodes(observations, byId)| == |FlaggedAt(observations, byId)|
  {
    if observations == [] {
      assert FlaggedAt(observations, byId) == {};
    } else {
      var n := |observations| - 1;
      OneCodeEach(observations[..n], byId);
      FlaggedAtEnd(observations, byId, n);
      assert n !in FlaggedAt(observations[..n], byId);
    }
  }
}
