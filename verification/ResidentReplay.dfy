/**
 Completing a call from what is already durable: the checks completeFromReplay
 makes on the five recorded events and on the handoff, and the round trip that
 every completed run is accepted by them.
 */
module ResidentReplay {
  import opened CanonicalJson
  import opened ResidentBudget
  import opened ResidentRecords

  predicate IsIdChar(c: char) {
    'a' <= c <= 'z' || 'A' <= c <= 'Z' || '0' <= c <= '9' || c == '_' || c == '-'
  }

  predicate IsEventId(s: string) {
    |s| > 4 && s[..4] == "evt_" && forall i | 4 <= i < |s| :: IsIdChar(s[i])
  }

  // ---------- The event chain ----------

  function Budgets(events: seq<Event>): (bs: seq<Budget>)
    ensures |bs| == |events| && forall i | 0 <= i < |bs| :: bs[i] == BudgetOf(events[i].payload)
  {
    seq(|events|, i requires 0 <= i < |events| => BudgetOf(events[i].payload))
  }

  /** Identifiers are well formed and distinct, and sequence numbers are positive and rise. */
  predicate Ordered(events: seq<Event>) {
    && (forall i | 0 <= i < |events| :: IsEventId(events[i].id) && events[i].sequence > 0)
    && (forall i, j | 0 <= i < j < |events| :: events[i].id != events[j].id && events[i].sequence < events[j].sequence)
  }

  /** What validateResidentEventChain accepts, given the verdict of the event and sequence validators. */
  predicate ChainAccepted(sequenceAccepted: bool, events: seq<Event>) {
    sequenceAccepted && Ordered(events) && Chain(Budgets(events))
  }

  predicate Accepted(events: seq<Event>) {
    Ordered(events) && Chain(Budgets(events))
  }

  /** Event i may follow the events before it. */
  predicate Follows(events: seq<Event>, i: nat)
    requires i < |events|
  {
    && IsEventId(events[i].id)
    && events[i].sequence > (if i == 0 then 0 else events[i - 1].sequence)
    && (forall j | 0 <= j < i :: events[j].id != events[i].id)
    && Valid(BudgetOf(events[i].payload))
    && (i > 0 ==> Progress(BudgetOf(events[i - 1].payload), BudgetOf(events[i].payload)))
  }

  lemma OrderedStep(events: seq<Event>, i: nat)
    requires i < |events| && Ordered(events[..i])
    requires IsEventId(events[i].id) && events[i].sequence > (if i == 0 then 0 else events[i - 1].sequence)
    requires forall j | 0 <= j < i :: events[j].id != events[i].id
    ensures Ordered(events[..i + 1])
  {
    var front, all := events[..i], events[..i + 1];
    forall k, j | 0 <= k < j < |all| ensures all[k].id != all[j].id && all[k].sequence < all[j].sequence {
      if j < i {
        assert all[k] == front[k] && all[j] == front[j];
      } else if k < i - 1 {
        assert front[k].sequence < front[i - 1].sequence;
      }
    }
    forall k | 0 <= k < |all| ensures IsEventId(all[k].id) && all[k].sequence > 0 {
      if k < i { assert all[k] == front[k]; } else if i > 0 { assert front[i - 1] == all[i - 1]; }
    }
  }

  lemma ChainStep(events: seq<Event>, i: nat)
    requires i < |events| && Chain(Budgets(events[..i])) && Valid(BudgetOf(events[i].payload))
    requires i > 0 ==> Progress(BudgetOf(events[i - 1].payload), BudgetOf(events[i].payload))
    ensures Chain(Budgets(events[..i + 1]))
  {
    var front, all := Budgets(events[..i]), Budgets(events[..i + 1]);
    assert forall k | 0 <= k < i :: all[k] == front[k];
    forall k | 0 < k < |all| ensures Progress(all[k - 1], all[k]) {
      if k < i { assert Progress(front[k - 1], front[k]); }
    }
  }

  /** Accepted events can be checked one at a time from the front. */
  lemma AcceptedOneByOne(events: seq<Event>, i: nat)
    requires i < |events|
    ensures Accepted(events[..i]) && Follows(events, i) ==> Accepted(events[..i + 1])
    ensures Accepted(events) ==> Follows(events, i)
  {
    if Accepted(events[..i]) && Follows(events, i) {
      OrderedStep(events, i);
      ChainStep(events, i);
    }
    if Accepted(events) {
      assert Budgets(events)[i] == BudgetOf(events[i].payload);
      if i > 0 {
        assert Progress(Budgets(events)[i - 1], Budgets(events)[i]);
      }
    }
  }

  lemma SeenIds(events: seq<Event>, i: nat, ids: set<string>)
    requires i < |events| && ids == set e | e in events[..i] :: e.id
    ensures events[i].id in ids <==> exists j | 0 <= j < i :: events[j].id == events[i].id
    ensures ids + {events[i].id} == set e | e in events[..i + 1] :: e.id
  {
    var id := events[i].id;
    if id in ids {
      var d :| d in events[..i] && d.id == id;
      var j :| 0 <= j < i && events[..i][j] == d;
      assert events[j].id == id;
    }
    if j :| 0 <= j < i && events[j].id == id {
      assert events[j] in events[..i];
    }
    assert events[..i + 1] == events[..i] + [events[i]];
  }

  /** The loop of validateResidentEventChain: one pass with the previous budget, sequence and the set of identifiers. */
  method ValidateEventChain(sequenceAccepted: bool, events: seq<Event>) returns (ok: bool)
    ensures ok <==> ChainAccepted(sequenceAccepted, events)
  {
    if !sequenceAccepted { return false; }
    var previous: Option<Budget> := None;
    var previousSequence := 0;
    var ids: set<string> := {};
    var i := 0;
    while i < |events|
      invariant 0 <= i <= |events|
      invariant ids == set e | e in events[..i] :: e.id
      invariant previousSequence == if i == 0 then 0 else events[i - 1].sequence
      invariant previous == if i == 0 then None else Some(BudgetOf(events[i - 1].payload))
      invariant Accepted(events[..i])
    {
      var e := events[i];
      var budget := BudgetOf(e.payload);
      SeenIds(events, i, ids);
      AcceptedOneByOne(events, i);
      if !IsEventId(e.id) || e.id in ids || e.sequence <= previousSequence { return false; }
      if !Valid(budget) || (previous.Some? && !Progress(previous.value, budget)) { return false; }
      assert Follows(events, i);
      ids, previousSequence, previous := ids + {e.id}, e.sequence, Some(budget);
      i := i + 1;
    }
    assert events[..i] == events;
    return true;
  }

  // ---------- completeFromReplay ----------

  predicate FiveEventShape(events: seq<Event>) {
    && |events| == 5
    && events[0].payload.PlanRecorded?
    && events[1].payload.ObservationRecorded?
    && events[2].payload.ToolStepRecorded?
    && events[3].payload.ObservationRecorded?
    && events[4].payload.ResultRecorded?
  }

  /** validateDurableReplayPlan: taking the binding off the durable plan gives the proposed plan. */
  predicate DurablePlanMatches(durable: Plan, proposed: Plan) {
    && |durable.steps| == |proposed.steps| == 1
    && durable.steps[0].toolRequestId.Some? && NonEmpty(durable.steps[0].toolRequestId.value)
    && durable.steps[0].executionCapabilityHash.Some? && IsHash(durable.steps[0].executionCapabilityHash.value)
    && Unbind(durable) == proposed
  }

  predicate ContextMatches(plan: Plan, planEvent: Event, first: Observation) {
    PlanReadable(plan) && first == ContextObservation(plan, planEvent.id, first.budget)
  }

  predicate ToolStepMatches(plan: Plan, planEvent: Event, step: ToolStep)
    requires |plan.steps| == 1 && plan.steps[0].toolRequestId.Some?
  {
    && step.material.readbacks.stage == Completed
    && ToolStepPayload(plan, planEvent.id, step.budget, step.material, KeyOfStep(plan.steps[0])) == Some(step)
  }

  predicate FinalMatches(plan: Plan, planEvent: Event, toolEvent: Event, step: ToolStep, final: Observation)
    requires |plan.steps| == 1 && plan.steps[0].toolRequestId.Some?
  {
    final == FinalObservation(plan, planEvent.id, toolEvent.id, step.material.resultArtifactHashes, final.budget, KeyOfStep(plan.steps[0]))
  }

  predicate ResultMatches(plan: Plan, planEvent: Event, finalEvent: Event, final: Observation, result: LoopResult) {
    && result.body.HandoffRecorded?
    && NonEmpty(result.body.handoff.manifestHash)
    && CompletedResult(plan, planEvent.id, finalEvent.id, final, final.budget, result.body.handoff) == Some(result)
  }

  /** Every check completeFromReplay makes before it reads the handoff. */
  predicate ReplayReady(sequenceAccepted: bool, events: seq<Event>, proposed: Plan) {
    && FiveEventShape(events)
    && ChainAccepted(sequenceAccepted, events)
    && var plan := events[0].payload.plan;
    && DurablePlanMatches(plan, proposed)
    && ContextMatches(plan, events[0], events[1].payload.observation)
    && ToolStepMatches(plan, events[0], events[2].payload.toolStep)
    && FinalMatches(plan, events[0], events[2], events[2].payload.toolStep, events[3].payload.observation)
    && ResultMatches(plan, events[0], events[3], events[3].payload.observation, events[4].payload.result)
  }

  /** The result event, once the handoff read after the checks is the recorded one. */
  function ReplayOutcome(events: seq<Event>, projection: HandoffProjection): Option<Event>
    requires FiveEventShape(events)
  {
    var plan, result := events[0].payload.plan, events[4].payload.result;
    if HandoffVerified(projection, plan.provenance.identity, plan.provenance.authority)
       && result.body.HandoffRecorded?
       && result.body.handoff == projection.selectedReadback
       && result.body.resultHash == projection.selectedReadback.manifestHash
    then Some(events[4]) else None
  }

  // ---------- The round trip ----------

  predicate BoundOk(proposed: Plan, b: Binding, plan: Plan) {
    BindingMatches(b, proposed) && plan == Bind(proposed, b)
  }

  predicate ContextPart(plan: Plan, planEventId: string, p: Payload) {
    && PlanReadable(plan)
    && p.ObservationRecorded?
    && Advance(plan.budget, ObservationRecords) == Some(BudgetOf(p))
    && p.observation == ContextObservation(plan, planEventId, BudgetOf(p))
  }

  predicate ToolPart(plan: Plan, planEventId: string, before: Budget, m: Material, stage: Stage, key: StepKey, p: Payload) {
    && p.ToolStepRecorded?
    && m.readbacks.stage == stage
    && Advance(before, ToolSteps) == Some(BudgetOf(p))
    && ToolStepPayload(plan, planEventId, BudgetOf(p), m, key) == Some(p.toolStep)
  }

  predicate FinalPart(plan: Plan, planEventId: string, toolEvent: Event, m: Material, key: StepKey, p: Payload) {
    && p.ObservationRecorded?
    && Advance(BudgetOf(toolEvent.payload), ObservationRecords) == Some(BudgetOf(p))
    && p.observation == FinalObservation(plan, planEventId, toolEvent.id, m.resultArtifactHashes, BudgetOf(p), key)
  }

  predicate ResultPart(plan: Plan, planEventId: string, finalEvent: Event, p: Payload) {
    && p.ResultRecorded? && p.result.body.HandoffRecorded? && finalEvent.payload.ObservationRecorded?
    && CompletedResult(plan, planEventId, finalEvent.id, finalEvent.payload.observation, BudgetOf(finalEvent.payload),
                       p.result.body.handoff) == Some(p.result)
  }

  /**
   The events are what a completed call writes for this plan, binding, gateway
   material and handoff: the exact payload each builder made, in that order, each
   spending one unit more than the one before.
   */
  predicate WrittenByAdvance(events: seq<Event>, proposed: Plan, b: Binding, m: Material, handoff: HandoffReadback) {
    && |events| == 5
    && events[0].payload.PlanRecorded? && BoundOk(proposed, b, events[0].payload.plan)
    && ContextPart(events[0].payload.plan, events[0].id, events[1].payload)
    && ToolPart(events[0].payload.plan, events[0].id, BudgetOf(events[1].payload), m, Completed, KeyOfBinding(b), events[2].payload)
    && FinalPart(events[0].payload.plan, events[0].id, events[2], m, KeyOfBinding(b), events[3].payload)
    && ResultPart(events[0].payload.plan, events[0].id, events[3], events[4].payload)
    && events[4].payload.result.body.handoff == handoff
  }

  lemma ResultSpends(plan: Plan, planEventId: string, finalEvent: Event, p: Payload)
    requires ResultPart(plan, planEventId, finalEvent, p)
    ensures Advance(BudgetOf(finalEvent.payload), ActiveExecutionMs) == Some(BudgetOf(p))
  {
  }

  lemma FiveRecordsFormChain(bs: seq<Budget>)
    requires |bs| == 5
    requires Progress(bs[0], bs[1]) && Progress(bs[1], bs[2]) && Progress(bs[2], bs[3]) && Progress(bs[3], bs[4])
    ensures Chain(bs)
  {
  }

  lemma ContextProgress(plan: Plan, planEventId: string, p: Payload)
    requires ContextPart(plan, planEventId, p)
    ensures Progress(plan.budget, BudgetOf(p))
  {
    AdvanceIsProgress(plan.budget, ObservationRecords);
  }

  lemma ToolProgress(plan: Plan, planEventId: string, before: Budget, m: Material, stage: Stage, key: StepKey, p: Payload)
    requires ToolPart(plan, planEventId, before, m, stage, key, p)
    ensures Progress(before, BudgetOf(p))
  {
    AdvanceIsProgress(before, ToolSteps);
  }

  lemma FinalProgress(plan: Plan, planEventId: string, toolEvent: Event, m: Material, key: StepKey, p: Payload)
    requires FinalPart(plan, planEventId, toolEvent, m, key, p)
    ensures Progress(BudgetOf(toolEvent.payload), BudgetOf(p))
  {
    AdvanceIsProgress(BudgetOf(toolEvent.payload), ObservationRecords);
  }

  lemma ResultProgress(plan: Plan, planEventId: string, finalEvent: Event, p: Payload)
    requires ResultPart(plan, planEventId, finalEvent, p)
    ensures Progress(BudgetOf(finalEvent.payload), BudgetOf(p))
  {
    ResultSpends(plan, planEventId, finalEvent, p);
    AdvanceIsProgress(BudgetOf(finalEvent.payload), ActiveExecutionMs);
  }

  /** The five budgets of a completed segment are an accepted chain. */
  lemma WrittenChain(events: seq<Event>, proposed: Plan, b: Binding, m: Material, handoff: HandoffReadback)
    requires WrittenByAdvance(events, proposed, b, m, handoff)
    ensures Chain(Budgets(events)) && Budgets(events)[0] == events[0].payload.plan.budget
  {
    var plan, id := events[0].payload.plan, events[0].id;
    ContextProgress(plan, id, events[1].payload);
    ToolProgress(plan, id, BudgetOf(events[1].payload), m, Completed, KeyOfBinding(b), events[2].payload);
    FinalProgress(plan, id, events[2], m, KeyOfBinding(b), events[3].payload);
    ResultProgress(plan, id, events[3], events[4].payload);
    FiveRecordsFormChain(Budgets(events));
  }

  /** Binding then unbinding restores the plan exactly when its step carried neither bound field. */
  lemma UnbindBind(p: Plan, b: Binding)
    requires |p.steps| == 1
    ensures Unbind(Bind(p, b)) == p <==> Unbound(p.steps[0])
    ensures Unbind(Unbind(p)) == Unbind(p)
  {
    var u := Unbind(Bind(p, b));
    assert u.steps[0] == p.steps[0].(toolRequestId := None, executionCapabilityHash := None);
    if Unbound(p.steps[0]) {
      assert u.steps == p.steps;
    }
    assert Unbind(Unbind(p)).steps == Unbind(p).steps;
  }

  lemma BoundPlanMatches(p: Plan, b: Binding)
    requires BindingMatches(b, p)
    ensures DurablePlanMatches(Bind(p, b), p) <==> Unbound(p.steps[0])
    ensures KeyOfStep(Bind(p, b).steps[0]) == KeyOfBinding(b)
  {
    UnbindBind(p, b);
  }

  /** Replay rebuilds each payload of a written segment exactly. */
  lemma WrittenPayloadsMatch(events: seq<Event>, proposed: Plan, b: Binding, m: Material, handoff: HandoffReadback)
    requires WrittenByAdvance(events, proposed, b, m, handoff)
    ensures FiveEventShape(events)
    ensures var plan := events[0].payload.plan;
            && |plan.steps| == 1 && plan.steps[0].toolRequestId.Some?
            && ContextMatches(plan, events[0], events[1].payload.observation)
            && ToolStepMatches(plan, events[0], events[2].payload.toolStep)
            && FinalMatches(plan, events[0], events[2], events[2].payload.toolStep, events[3].payload.observation)
  {
    BoundPlanMatches(proposed, b);
  }

  /**
   Replay round trip. For the events of a completed advance, in ledger order
   and accepted by the sequence validator, and a handoff projection that still
   selects the recorded readback, a second call with the same candidate is
   accepted and returns the recorded result event. It is accepted exactly when
   the proposed step carried neither a tool request ID nor a capability hash.
   */
  lemma ReplayRoundTrip(
      events: seq<Event>, proposed: Plan, b: Binding, m: Material, handoff: HandoffReadback, projection: HandoffProjection)
    requires WrittenByAdvance(events, proposed, b, m, handoff)
    requires Ordered(events)
    requires HandoffVerified(projection, proposed.provenance.identity, proposed.provenance.authority)
    requires projection.selectedReadback == handoff
    ensures ReplayReady(true, events, proposed) <==> Unbound(proposed.steps[0])
    ensures ReplayOutcome(events, projection) == Some(events[4])
  {
    WrittenChain(events, proposed, b, m, handoff);
    BoundPlanMatches(proposed, b);
    WrittenPayloadsMatch(events, proposed, b, m, handoff);
  }
}
