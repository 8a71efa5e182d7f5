/**
 What the read model shows of any ledger whose event identifiers are distinct,
 whether or not the recorder wrote it: when it is ready, in terms of the events
 and their places, and what the views of a ready one say.
 */
module ResidentViews {
  import opened ResidentRecorder
  import opened ResidentProjection

  // ---------- Keys, field by field ----------

  predicate SamePlanKey(p: Plan, q: Plan) {
    && p.identity.taskId == q.identity.taskId && p.identity.attemptId == q.identity.attemptId && p.identity.runId == q.identity.runId
    && p.revision == q.revision && p.identity.policyHash == q.identity.policyHash
  }

  predicate SameObservationKey(o: Observation, q: Observation) {
    o.planEventId == q.planEventId && o.ordinal == q.ordinal && o.category == q.category
  }

  /** The joined identifiers carry no bars. */
  predicate BarFree(es: Ledger) {
    forall e | e in es ::
      (e.body.PlanRecorded? ==> IdentifiersClean(e.body.plan.identity)) && (e.body.ObservationRecorded? ==> NoBar(e.body.observation.planEventId))
  }

  lemma PlanKeysExactly(p: Plan, q: Plan)
    requires IdentifiersClean(p.identity) && IdentifiersClean(q.identity)
    ensures PlanKey(p) == PlanKey(q) <==> SamePlanKey(p, q)
  {
    if PlanKey(p) == PlanKey(q) { PlanKeyTells(p, q); }
  }

  lemma ObservationKeysExactly(o: Observation, q: Observation)
    requires NoBar(o.planEventId) && NoBar(q.planEventId)
    ensures ObservationKey(o) == ObservationKey(q) <==> SameObservationKey(o, q)
  {
    if ObservationKey(o) == ObservationKey(q) { ObservationKeyTells(o, q); }
  }

  // ---------- What the first pass objects to ----------

  /** The plan at this place is the first of its key. */
  predicate FirstPlan(es: Ledger, i: nat)
    requires i < |es|
  {
    es[i].body.PlanRecorded? && forall j | 0 <= j < i && es[j].body.PlanRecorded? :: !SamePlanKey(es[j].body.plan, es[i].body.plan)
  }

  predicate FirstObservation(es: Ledger, i: nat)
    requires i < |es|
  {
    es[i].body.ObservationRecorded?
    && forall j | 0 <= j < i && es[j].body.ObservationRecorded? :: !SameObservationKey(es[j].body.observation, es[i].body.observation)
  }

  /** Plans of one key are the same plan. */
  predicate PlanAgrees(es: Ledger, i: nat)
    requires i < |es| && es[i].body.PlanRecorded?
  {
    forall j | 0 <= j < i && es[j].body.PlanRecorded? && SamePlanKey(es[j].body.plan, es[i].body.plan) && FirstPlan(es, j) ::
      es[j].body.plan.identity == es[i].body.plan.identity && es[j].body.plan.descriptorHash == es[i].body.plan.descriptorHash
  }

  /** The observation names an earlier plan, the first of its key, of its own identity, and reads it back with that identity's run. */
  predicate BindsPlan(es: Ledger, i: nat)
    requires i < |es| && es[i].body.ObservationRecorded?
  {
    var o := es[i].body.observation;
    && o.readbackTask == o.identity.taskId && o.readbackAttempt == o.identity.attemptId && o.readbackRun == o.identity.runId
    && exists j :: 0 <= j < i && FirstPlan(es, j) && es[j].id == o.planEventId && es[j].body.plan.identity == o.identity
  }

  /** Observations of one key are the same observation. */
  predicate ObservationAgrees(es: Ledger, i: nat)
    requires i < |es| && es[i].body.ObservationRecorded?
  {
    forall j | 0 <= j < i && es[j].body.ObservationRecorded? && SameObservationKey(es[j].body.observation, es[i].body.observation) && FirstObservation(es, j) ::
      es[j].body.observation.identity == es[i].body.observation.identity && es[j].body.observation.hash == es[i].body.observation.hash
  }

  /** Nothing at this place is objected to by the first pass. */
  predicate PlaceInOrder(es: Ledger, i: nat)
    requires i < |es|
  {
    match es[i].body
    case PlanRecorded(_) => PlanAgrees(es, i)
    case ObservationRecorded(_) => BindsPlan(es, i) && ObservationAgrees(es, i)
    case Unrelated(_) => true
  }

  predicate AllInOrder(es: Ledger, n: nat)
    requires n <= |es|
  {
    forall i | 0 <= i < n :: PlaceInOrder(es, i)
  }

  // ---------- The first pass, place by place ----------

  /** What the pass has collected after n events without an objection. */
  ghost predicate Collected(es: Ledger, n: nat, s: Scanned)
    requires n <= |es|
  {
    && (forall e :: e in s.plans <==> exists i :: 0 <= i < n && es[i] == e && FirstPlan(es, i))
    && (forall e :: e in s.observations <==> exists i :: 0 <= i < n && es[i] == e && FirstObservation(es, i))
    && ById(s.byId, s.plans)
  }

  lemma PlanFound(es: Ledger, n: nat, s: Scanned)
    requires n < |es| && es[n].body.PlanRecorded? && BarFree(es) && Collected(es, n, s)
    ensures WithKey(s.plans, KeyOf(es[n])).None? <==> FirstPlan(es, n)
    ensures WithKey(s.plans, KeyOf(es[n])).Some? ==>
              exists j :: 0 <= j < n && es[j] == WithKey(s.plans, KeyOf(es[n])).value && FirstPlan(es, j)
                          && SamePlanKey(es[j].body.plan, es[n].body.plan)
  {
    forall j | 0 <= j < n && es[j].body.PlanRecorded? ensures KeyOf(es[j]) == KeyOf(es[n]) <==> SamePlanKey(es[j].body.plan, es[n].body.plan) {
      assert es[j] in es && es[n] in es;
      PlanKeysExactly(es[j].body.plan, es[n].body.plan);
    }
    if !FirstPlan(es, n) {
      var j := FirstOfPlanKey(es, n);
      assert es[j] in s.plans && KeyOf(es[j]) == KeyOf(es[n]);
    }
  }

  /** Some earlier plan of the key is the first of it. */
  lemma {:induction false} FirstOfPlanKey(es: Ledger, n: nat) returns (j: nat)
    requires n < |es| && es[n].body.PlanRecorded? && !FirstPlan(es, n)
    ensures j < n && FirstPlan(es, j) && SamePlanKey(es[j].body.plan, es[n].body.plan)
  {
    j :| 0 <= j < n && es[j].body.PlanRecorded? && SamePlanKey(es[j].body.plan, es[n].body.plan);
    if !FirstPlan(es, j) { j := FirstOfPlanKey(es, j); }
  }

  lemma OneFirstPlan(es: Ledger, i: nat, j: nat)
    requires i < |es| && j < |es| && FirstPlan(es, i) && FirstPlan(es, j) && SamePlanKey(es[i].body.plan, es[j].body.plan)
    ensures i == j
  {
  }

  lemma ObservationFound(es: Ledger, n: nat, s: Scanned)
    requires n < |es| && es[n].body.ObservationRecorded? && BarFree(es) && Collected(es, n, s)
    ensures WithKey(s.observations, KeyOf(es[n])).None? <==> FirstObservation(es, n)
    ensures WithKey(s.observations, KeyOf(es[n])).Some? ==>
              exists j :: 0 <= j < n && es[j] == WithKey(s.observations, KeyOf(es[n])).value && FirstObservation(es, j)
                          && SameObservationKey(es[j].body.observation, es[n].body.observation)
  {
    forall j | 0 <= j < n && es[j].body.ObservationRecorded?
      ensures KeyOf(es[j]) == KeyOf(es[n]) <==> SameObservationKey(es[j].body.observation, es[n].body.observation)
    {
      assert es[j] in es && es[n] in es;
      ObservationKeysExactly(es[j].body.observation, es[n].body.observation);
    }
    if !FirstObservation(es, n) {
      var j := FirstOfObservationKey(es, n);
      assert es[j] in s.observations && KeyOf(es[j]) == KeyOf(es[n]);
    }
  }

  lemma {:induction false} FirstOfObservationKey(es: Ledger, n: nat) returns (j: nat)
    requires n < |es| && es[n].body.ObservationRecorded? && !FirstObservation(es, n)
    ensures j < n && FirstObservation(es, j) && SameObservationKey(es[j].body.observation, es[n].body.observation)
  {
    j :| 0 <= j < n && es[j].body.ObservationRecorded? && SameObservationKey(es[j].body.observation, es[n].body.observation);
    if !FirstObservation(es, j) { j := FirstOfObservationKey(es, j); }
  }

  /** The ledger gives every event an identifier of its own. */
  predicate IdsApart(es: Ledger) {
    forall i, j | 0 <= i < j < |es| :: es[i].id != es[j].id
  }

  lemma PlanPlace(es: Ledger, n: nat, s: Scanned)
    requires n < |es| && es[n].body.PlanRecorded? && BarFree(es) && IdsApart(es) && Collected(es, n, s) && s.diagnostics == []
    ensures ScanStep(s, es[n]).diagnostics == [] <==> PlanAgrees(es, n)
    ensures PlanAgrees(es, n) ==> Collected(es, n + 1, ScanStep(s, es[n]))
  {
    PlanFound(es, n, s);
    if FirstPlan(es, n) {
      NewPlanCollected(es, n, s);
    } else {
      var j :| 0 <= j < n && es[j] == WithKey(s.plans, KeyOf(es[n])).value && FirstPlan(es, j) && SamePlanKey(es[j].body.plan, es[n].body.plan);
      OldPlanAgrees(es, n, j);
      NothingCollected(es, n, s);
    }
  }

  lemma OldPlanAgrees(es: Ledger, n: nat, j: nat)
    requires j < n < |es| && es[n].body.PlanRecorded? && FirstPlan(es, j) && SamePlanKey(es[j].body.plan, es[n].body.plan)
    ensures PlanAgrees(es, n) <==> SamePlan(es[j].body.plan, es[n].body.plan)
  {
    forall i | 0 <= i < n && es[i].body.PlanRecorded? && SamePlanKey(es[i].body.plan, es[n].body.plan) && FirstPlan(es, i) ensures i == j {
      OneFirstPlan(es, i, j);
    }
  }

  lemma OldObservationAgrees(es: Ledger, n: nat, j: nat)
    requires j < n < |es| && es[n].body.ObservationRecorded? && FirstObservation(es, j)
    requires SameObservationKey(es[j].body.observation, es[n].body.observation)
    ensures ObservationAgrees(es, n) <==> SameObservation(es[j].body.observation, es[n].body.observation)
  {
    forall i | 0 <= i < n && es[i].body.ObservationRecorded? && SameObservationKey(es[i].body.observation, es[n].body.observation)
               && FirstObservation(es, i)
      ensures i == j
    {
    }
  }

  lemma NewPlanCollected(es: Ledger, n: nat, s: Scanned)
    requires n < |es| && IdsApart(es) && Collected(es, n, s) && FirstPlan(es, n)
    ensures Collected(es, n + 1, s.(plans := s.plans + [es[n]], byId := s.byId[es[n].id := es[n]]))
  {
    forall f | f in s.plans ensures f.id != es[n].id {
      var i :| 0 <= i < n && es[i] == f && FirstPlan(es, i);
    }
    ByIdGrows(s.byId, s.plans, es[n]);
    forall e ensures e in s.plans + [es[n]] <==> exists i :: 0 <= i < n + 1 && es[i] == e && FirstPlan(es, i) {
      if i :| 0 <= i < n + 1 && es[i] == e && FirstPlan(es, i) { assert i < n ==> e in s.plans; }
    }
    forall e ensures e in s.observations <==> exists i :: 0 <= i < n + 1 && es[i] == e && FirstObservation(es, i) {
      if i :| 0 <= i < n + 1 && es[i] == e && FirstObservation(es, i) { assert i < n; }
    }
  }

  lemma NothingCollected(es: Ledger, n: nat, s: Scanned)
    requires n < |es| && Collected(es, n, s) && !FirstPlan(es, n) && !FirstObservation(es, n)
    ensures Collected(es, n + 1, s)
  {
    forall e ensures e in s.plans <==> exists i :: 0 <= i < n + 1 && es[i] == e && FirstPlan(es, i) {
      if i :| 0 <= i < n + 1 && es[i] == e && FirstPlan(es, i) { assert i < n; }
    }
    forall e ensures e in s.observations <==> exists i :: 0 <= i < n + 1 && es[i] == e && FirstObservation(es, i) {
      if i :| 0 <= i < n + 1 && es[i] == e && FirstObservation(es, i) { assert i < n; }
    }
  }

  lemma NewObservationCollected(es: Ledger, n: nat, s: Scanned)
    requires n < |es| && Collected(es, n, s) && FirstObservation(es, n)
    ensures Collected(es, n + 1, s.(observations := s.observations + [es[n]]))
  {
    forall e ensures e in s.plans <==> exists i :: 0 <= i < n + 1 && es[i] == e && FirstPlan(es, i) {
      if i :| 0 <= i < n + 1 && es[i] == e && FirstPlan(es, i) { assert i < n; }
    }
    forall e ensures e in s.observations + [es[n]] <==> exists i :: 0 <= i < n + 1 && es[i] == e && FirstObservation(es, i) {
      if i :| 0 <= i < n + 1 && es[i] == e && FirstObservation(es, i) { assert i < n ==> e in s.observations; }
    }
  }

  lemma ReadbackExactly(es: Ledger, n: nat, s: Scanned)
    requires n < |es| && es[n].body.ObservationRecorded? && Collected(es, n, s)
    ensures ReadbackValid(s.byId, es[n].body.observation) <==> BindsPlan(es, n)
  {
    var o := es[n].body.observation;
    if ReadbackValid(s.byId, o) {
      var plan := s.byId[o.planEventId];
      assert plan in s.plans;
      var j :| 0 <= j < n && es[j] == plan && FirstPlan(es, j);
    }
    if BindsPlan(es, n) {
      var j :| 0 <= j < n && FirstPlan(es, j) && es[j].id == o.planEventId && es[j].body.plan.identity == o.identity;
      assert es[j] in s.plans;
    }
  }

  lemma ObservationPlace(es: Ledger, n: nat, s: Scanned)
    requires n < |es| && es[n].body.ObservationRecorded? && BarFree(es) && Collected(es, n, s) && s.diagnostics == []
    ensures ScanStep(s, es[n]).diagnostics == [] <==> BindsPlan(es, n) && ObservationAgrees(es, n)
    ensures BindsPlan(es, n) && ObservationAgrees(es, n) ==> Collected(es, n + 1, ScanStep(s, es[n]))
  {
    ReadbackExactly(es, n, s);
    ObservationFound(es, n, s);
    if FirstObservation(es, n) {
      NewObservationCollected(es, n, s);
    } else {
      var j :| 0 <= j < n && es[j] == WithKey(s.observations, KeyOf(es[n])).value && FirstObservation(es, j)
               && SameObservationKey(es[j].body.observation, es[n].body.observation);
      OldObservationAgrees(es, n, j);
      NothingCollected(es, n, s);
    }
  }

  lemma ObjectionsStay(s: Scanned, e: Event)
    ensures s.diagnostics != [] ==> ScanStep(s, e).diagnostics != []
  {
  }

  lemma {:induction false} PassExactly(es: Ledger, n: nat)
    requires n <= |es| && BarFree(es) && IdsApart(es)
    ensures Scan(es[..n]).diagnostics == [] <==> AllInOrder(es, n)
    ensures AllInOrder(es, n) ==> Collected(es, n, Scan(es[..n]))
  {
    if n == 0 {
      assert es[..0] == [];
    } else {
      PassExactly(es, n - 1);
      var s := Scan(es[..n - 1]);
      assert es[..n][..n - 1] == es[..n - 1] && Scan(es[..n]) == ScanStep(s, es[n - 1]);
      OnePlace(es, n - 1, s);
    }
  }

  lemma OnePlace(es: Ledger, n: nat, s: Scanned)
    requires n < |es| && BarFree(es) && IdsApart(es)
    requires (s.diagnostics == [] <==> AllInOrder(es, n)) && (AllInOrder(es, n) ==> Collected(es, n, s))
    ensures ScanStep(s, es[n]).diagnostics == [] <==> AllInOrder(es, n + 1)
    ensures AllInOrder(es, n + 1) ==> Collected(es, n + 1, ScanStep(s, es[n]))
  {
    assert AllInOrder(es, n + 1) <==> AllInOrder(es, n) && PlaceInOrder(es, n);
    if AllInOrder(es, n) {
      match es[n].body
      case PlanRecorded(_) => PlanPlace(es, n, s);
      case ObservationRecorded(_) => ObservationPlace(es, n, s);
      case Unrelated(_) => NothingCollected(es, n, s);
    } else {
      ObjectionsStay(s, es[n]);
    }
  }

  // ---------- When any ledger is ready ----------

  /** A later revision among the collected plans, if there is one among all. */
  lemma OutdatedByCollected(es: Ledger, s: Scanned, p: Event)
    requires AllInOrder(es, |es|) && Collected(es, |es|, s) && p in s.plans
    ensures Outdated(es, p) <==> exists id :: id in s.byId && Supersedes(s.byId[id], p)
  {
    if id :| id in s.byId && Supersedes(s.byId[id], p) {
      var i :| 0 <= i < |es| && es[i] == s.byId[id] && FirstPlan(es, i);
      assert es[i] in es;
    }
    if q :| q in es && q.body.PlanRecorded? && q.id != p.id
            && q.body.plan.identity == p.body.plan.identity && q.body.plan.revision > p.body.plan.revision {
      var k :| 0 <= k < |es| && es[k] == q;
      var j := k;
      if !FirstPlan(es, k) { j := FirstOfPlanKey(es, k); }
      assert PlaceInOrder(es, k);
      assert es[j] in s.plans && s.byId[es[j].id] == es[j];
      assert Supersedes(es[j], p);
    }
  }

  /** The plan an observation in order names is collected, and there is no other of its identifier. */
  lemma BoundPlanCollected(es: Ledger, s: Scanned, i: nat) returns (p: Event)
    requires IdsApart(es) && AllInOrder(es, |es|) && Collected(es, |es|, s) && i < |es| && es[i].body.ObservationRecorded?
    ensures p in s.plans && p in es && p.id == es[i].body.observation.planEventId && s.byId[p.id] == p
    ensures forall q | q in es && q.id == p.id :: q == p
  {
    assert PlaceInOrder(es, i);
    var j :| 0 <= j < i && FirstPlan(es, j) && es[j].id == es[i].body.observation.planEventId
             && es[j].body.plan.identity == es[i].body.observation.identity;
    p := es[j];
    forall q | q in es && q.id == p.id ensures q == p {
      var k :| 0 <= k < |es| && es[k] == q;
      assert k == j;
    }
  }

  lemma FlaggedIsOutdated(es: Ledger, s: Scanned, o: Event)
    requires IdsApart(es) && AllInOrder(es, |es|) && Collected(es, |es|, s) && o in s.observations && Flagged(s.byId, o)
    ensures SomeObservedPlanOutdated(es)
  {
    var i :| 0 <= i < |es| && es[i] == o && FirstObservation(es, i);
    var p := BoundPlanCollected(es, s, i);
    OutdatedByCollected(es, s, p);
    assert es[i] in es;
  }

  /** The first observation of a key names the same plan as the others. */
  lemma FirstNamesThePlan(es: Ledger, o: Event) returns (j: nat)
    requires o in es && o.body.ObservationRecorded?
    ensures j < |es| && FirstObservation(es, j) && es[j].body.observation.planEventId == o.body.observation.planEventId
  {
    j :| 0 <= j < |es| && es[j] == o;
    if !FirstObservation(es, j) { j := FirstOfObservationKey(es, j); }
  }

  lemma OutdatedIsFlagged(es: Ledger, s: Scanned, o: Event, p: Event)
    requires IdsApart(es) && AllInOrder(es, |es|) && Collected(es, |es|, s)
    requires o in es && p in es && o.body.ObservationRecorded? && p.body.PlanRecorded?
    requires p.id == o.body.observation.planEventId && Outdated(es, p)
    ensures exists x :: x in s.observations && Flagged(s.byId, x)
  {
    var j := FirstNamesThePlan(es, o);
    var q := BoundPlanCollected(es, s, j);
    OutdatedByCollected(es, s, q);
    assert es[j] in s.observations && Flagged(s.byId, es[j]);
  }

  lemma FlagsExactly(es: Ledger, s: Scanned)
    requires IdsApart(es) && AllInOrder(es, |es|) && Collected(es, |es|, s)
    ensures (exists o :: o in s.observations && Flagged(s.byId, o)) <==> SomeObservedPlanOutdated(es)
  {
    if o :| o in s.observations && Flagged(s.byId, o) { FlaggedIsOutdated(es, s, o); }
    if o, p :| o in es && p in es && o.body.ObservationRecorded? && p.body.PlanRecorded?
               && p.id == o.body.observation.planEventId && Outdated(es, p) {
      OutdatedIsFlagged(es, s, o, p);
    }
  }

  /**
   Of any ledger with distinct identifiers the projection is ready exactly when
   plans of one key agree, every observation binds an earlier plan of its own
   identity, observations of one key agree, and no observed plan is outdated.
   */
  lemma ReadyOfAnyLedger(es: Ledger)
    requires BarFree(es) && IdsApart(es)
    ensures Project(es).ready <==> AllInOrder(es, |es|) && !SomeObservedPlanOutdated(es)
  {
    assert es[..|es|] == es;
    PassExactly(es, |es|);
    if AllInOrder(es, |es|) { FlagsExactly(es, Scan(es)); }
  }

  // ---------- What a ready one shows ----------

  /** The places of the first plans, and of the first observations, of their keys among the first n events. */
  function PlansAt(es: Ledger, n: nat): (at: seq<nat>)
    requires n <= |es|
    ensures forall k | 0 <= k < |at| :: at[k] < n
  {
    if n == 0 then [] else PlansAt(es, n - 1) + if FirstPlan(es, n - 1) then [n - 1] else []
  }

  function ObservationsAt(es: Ledger, n: nat): (at: seq<nat>)
    requires n <= |es|
    ensures forall k | 0 <= k < |at| :: at[k] < n
  {
    if n == 0 then [] else ObservationsAt(es, n - 1) + if FirstObservation(es, n - 1) then [n - 1] else []
  }

  /** Rising places, all of the first plans, or observations, and no others. */
  lemma {:induction false} PlacesExactly(es: Ledger, n: nat, k: nat, l: nat)
    requires n <= |es|
    ensures k < l < |PlansAt(es, n)| ==> PlansAt(es, n)[k] < PlansAt(es, n)[l]
    ensures k < l < |ObservationsAt(es, n)| ==> ObservationsAt(es, n)[k] < ObservationsAt(es, n)[l]
    ensures k in PlansAt(es, n) <==> k < n && FirstPlan(es, k)
    ensures k in ObservationsAt(es, n) <==> k < n && FirstObservation(es, k)
  {
    if n > 0 {
      PlacesExactly(es, n - 1, k, l);
      var plans, observations := PlansAt(es, n - 1), ObservationsAt(es, n - 1);
      if k < |plans| { assert plans[k] in plans; }
      if k < |observations| { assert observations[k] in observations; }
    }
  }

  function EventsAt(es: Ledger, at: seq<nat>): (r: Ledger)
    requires forall k | 0 <= k < |at| :: at[k] < |es|
    ensures |r| == |at| && forall k | 0 <= k < |r| :: r[k] == es[at[k]]
  {
    seq(|at|, k requires 0 <= k < |at| => es[at[k]])
  }

  lemma OneMoreAt(es: Ledger, at: seq<nat>, i: nat)
    requires i < |es| && forall k | 0 <= k < |at| :: at[k] < |es|
    ensures forall k | 0 <= k < |at + [i]| :: (at + [i])[k] < |es|
    ensures EventsAt(es, at + [i]) == EventsAt(es, at) + [es[i]]
  {
  }

  lemma {:induction false} PlansByPlace(es: Ledger, n: nat)
    requires n <= |es| && BarFree(es) && IdsApart(es) && AllInOrder(es, n)
    ensures Scan(es[..n]).plans == EventsAt(es, PlansAt(es, n))
  {
    if n == 0 {
      assert es[..0] == [];
    } else {
      PlansByPlace(es, n - 1);
      PassExactly(es, n - 1);
      assert es[..n][..n - 1] == es[..n - 1] && Scan(es[..n]) == ScanStep(Scan(es[..n - 1]), es[n - 1]);
      PlanPlaced(es, n - 1, Scan(es[..n - 1]));
    }
  }

  lemma PlanPlaced(es: Ledger, n: nat, s: Scanned)
    requires n < |es| && BarFree(es) && Collected(es, n, s) && s.plans == EventsAt(es, PlansAt(es, n))
    ensures ScanStep(s, es[n]).plans == EventsAt(es, PlansAt(es, n + 1))
  {
    if es[n].body.PlanRecorded? { PlanFound(es, n, s); }
    if FirstPlan(es, n) { OneMoreAt(es, PlansAt(es, n), n); }
  }

  lemma {:induction false} ObservationsByPlace(es: Ledger, n: nat)
    requires n <= |es| && BarFree(es) && IdsApart(es) && AllInOrder(es, n)
    ensures Scan(es[..n]).observations == EventsAt(es, ObservationsAt(es, n))
  {
    if n == 0 {
      assert es[..0] == [];
    } else {
      ObservationsByPlace(es, n - 1);
      PassExactly(es, n - 1);
      assert es[..n][..n - 1] == es[..n - 1] && Scan(es[..n]) == ScanStep(Scan(es[..n - 1]), es[n - 1]);
      ObservationPlaced(es, n - 1, Scan(es[..n - 1]));
    }
  }

  lemma ScanObservation(s: Scanned, e: Event)
    requires e.body.ObservationRecorded? && ReadbackValid(s.byId, e.body.observation)
    ensures ScanStep(s, e).observations == if WithKey(s.observations, KeyOf(e)).None? then s.observations + [e] else s.observations
  {
  }

  lemma ObservationCollects(es: Ledger, n: nat, s: Scanned)
    requires n < |es| && BarFree(es) && Collected(es, n, s) && PlaceInOrder(es, n)
    ensures ScanStep(s, es[n]).observations == s.observations + if FirstObservation(es, n) then [es[n]] else []
  {
    if es[n].body.ObservationRecorded? {
      ObservationFound(es, n, s);
      ReadbackExactly(es, n, s);
      ScanObservation(s, es[n]);
    }
  }

  lemma ObservationPlaced(es: Ledger, n: nat, s: Scanned)
    requires n < |es| && BarFree(es) && Collected(es, n, s) && PlaceInOrder(es, n) && s.observations == EventsAt(es, ObservationsAt(es, n))
    ensures ScanStep(s, es[n]).observations == EventsAt(es, ObservationsAt(es, n + 1))
  {
    ObservationCollects(es, n, s);
    if FirstObservation(es, n) { OneMoreAt(es, ObservationsAt(es, n), n); }
  }

  predicate ShowsPlan(v: PlanView, e: Event) {
    && e.body.PlanRecorded?
    && var i := e.body.plan.identity;
    && v.eventId == e.id && v.revision == e.body.plan.revision
    && v.taskId == i.taskId && v.attemptId == i.attemptId && v.runId == i.runId
    && v.sourceEventIds == i.sourceEventIds && v.contextArtifactHashes == i.contextArtifactHashes && v.authorityHash == i.authorityHash
  }

  predicate ShowsObservation(v: ObservationView, e: Event) {
    && e.body.ObservationRecorded?
    && var o := e.body.observation;
    && v.eventId == e.id && v.planEventId == o.planEventId && v.ordinal == o.ordinal && v.category == o.category
    && v.taskId == o.identity.taskId && v.attemptId == o.identity.attemptId && v.runId == o.identity.runId
  }

  lemma ViewsShow(plans: Ledger, observations: Ledger)
    requires (forall e | e in plans :: IsPlan(e)) && forall e | e in observations :: IsObservation(e)
    ensures |ViewPlans(plans)| == |plans| && forall k | 0 <= k < |plans| :: ShowsPlan(ViewPlans(plans)[k], plans[k])
    ensures |ViewObservations(observations)| == |observations|
    ensures forall k | 0 <= k < |observations| :: ShowsObservation(ViewObservations(observations)[k], observations[k])
  {
    forall k | 0 <= k < |plans| ensures ViewPlans(plans)[k] == ViewPlan(plans[k]) && IsPlan(plans[k]) { assert plans[k] in plans; }
    forall k | 0 <= k < |observations|
      ensures ViewObservations(observations)[k] == ViewObservation(observations[k]) && IsObservation(observations[k])
    {
      assert observations[k] in observations;
    }
  }

  /** A ready projection shows the first plan and the first observation of every key, in ledger order, field by field. */
  lemma ReadyShowsExactly(es: Ledger)
    requires BarFree(es) && IdsApart(es) && Project(es).ready
    ensures var p, plans, observations := Project(es), EventsAt(es, PlansAt(es, |es|)), EventsAt(es, ObservationsAt(es, |es|));
            && p.diagnostics == []
            && |p.plans| == |plans| && (forall k | 0 <= k < |plans| :: ShowsPlan(p.plans[k], plans[k]))
            && |p.observations| == |observations| && forall k | 0 <= k < |observations| :: ShowsObservation(p.observations[k], observations[k])
  {
    assert es[..|es|] == es;
    PassExactly(es, |es|);
    PlansByPlace(es, |es|);
    ObservationsByPlace(es, |es|);
    ScanHoldsKinds(es);
    ViewsShow(Scan(es).plans, Scan(es).observations);
  }
}
