/**
 What the records of a segment say, field by field: whose they are, which event
 caused each, what they were read back from, what they carry over from the
 plan, the binding and the gateway's material, and what each one spends.
 */
module ResidentRecordFields {
  import opened CanonicalJson
  import opened ResidentBudget
  import opened ResidentRecords
  import opened ResidentReplay
  import opened ResidentLoop
  import opened ResidentCooperation
  import opened ResidentSuspension
  import Completion = ResidentLoopCompletion
  import Sequences

  // ---------- Observation identifiers ----------

  /** An underscore and at least one digit, and nothing else. */
  predicate OrdinalEnding(s: string) {
    |s| > 1 && s[0] == '_' && forall i | 1 <= i < |s| :: '0' <= s[i] <= '9'
  }

  function WithoutPrefix(planId: string): string {
    if "plan_" <= planId then planId[5..] else planId
  }

  /** What is left of a plan identifier without its prefix and without an ordinal at its end. */
  predicate BaseOf(planId: string, base: string) {
    var rest := WithoutPrefix(planId);
    && base <= rest
    && (base == rest || OrdinalEnding(rest[|base|..]))
    && (base == rest ==> forall k | 0 <= k < |rest| :: !OrdinalEnding(rest[k..]))
  }

  lemma {:induction false} DigitsEnd(s: string, n: nat)
    requires n <= |s| && (forall i | n <= i < |s| :: IsDigitChar(s[i])) && (n > 0 ==> !IsDigitChar(s[n - 1]))
    ensures BeforeDigits(s) == n
  {
    if n < |s| { DigitsEnd(s[..|s| - 1], n); }
  }

  lemma {:induction false} DigitsBegin(s: string)
    ensures forall i | BeforeDigits(s) <= i < |s| :: IsDigitChar(s[i])
  {
    if s != "" && IsDigitChar(s[|s| - 1]) { DigitsBegin(s[..|s| - 1]); }
  }

  lemma OrdinalIsCut(rest: string)
    ensures WithoutOrdinal(rest) <= rest
    ensures WithoutOrdinal(rest) == rest || OrdinalEnding(rest[|WithoutOrdinal(rest)|..])
    ensures WithoutOrdinal(rest) == rest ==> forall k | 0 <= k < |rest| :: !OrdinalEnding(rest[k..])
  {
    DigitsBegin(rest);
    forall k | 0 <= k < |rest| && OrdinalEnding(rest[k..]) ensures WithoutOrdinal(rest) != rest {
      forall i | k < i < |rest| ensures IsDigitChar(rest[i]) { assert rest[i] == rest[k..][i - k]; }
      assert rest[k] == rest[k..][0];
      DigitsEnd(rest, k + 1);
    }
  }

  lemma PlanBaseIsBase(planId: string)
    ensures BaseOf(planId, PlanBase(planId))
  {
    OrdinalIsCut(WithoutPrefix(planId));
  }

  // ---------- One record ----------

  /** The record belongs to the plan that was read back from this event. */
  predicate OfPlan(provenance: Provenance, planId: string, revision: int, readback: PlanReadback, plan: Plan, planEventId: string) {
    && provenance == plan.provenance && planId == plan.planId && revision == plan.planRevision
    && readback.eventId == planEventId && readback.identity == plan.provenance.identity
    && readback.planId == plan.planId && readback.planRevision == plan.planRevision
  }

  /** The budget is the one before with one unit of the field spent. */
  predicate SpendsOne(before: Budget, field: Field, after: Budget) {
    && Valid(before) && Valid(after)
    && forall f: Field :: after.consumed[f] == before.consumed[f] + (if f == field then 1 else 0) && after.action[f] == if f == field then 1 else 0
  }

  lemma AdvanceSpendsOne(before: Budget, field: Field, after: Budget)
    requires Advance(before, field) == Some(after)
    ensures SpendsOne(before, field, after)
  {
    AdvanceIsProgress(before, field);
  }

  /** The plan as bound: the one step names the gateway request and capability, all else is as proposed. */
  predicate PlanSays(bound: Plan, proposed: Plan, b: Binding) {
    && |bound.steps| == 1 && |proposed.steps| == 1
    && bound == proposed.(steps := bound.steps)
    && bound.steps[0].toolRequestId == Some(b.toolRequestId) && bound.steps[0].executionCapabilityHash == Some(b.executionCapabilityHash)
    && bound.steps[0].ordinal == proposed.steps[0].ordinal && bound.steps[0].toolId == proposed.steps[0].toolId
    && bound.steps[0].toolVersion == proposed.steps[0].toolVersion && bound.steps[0].details == proposed.steps[0].details
  }

  predicate ContextContent(p: Payload, plan: Plan, planEventId: string) {
    && p.ObservationRecorded?
    && var o := p.observation;
    && OfPlan(o.provenance, o.planId, o.planRevision, o.planReadback, plan, planEventId)
    && o.causationId == planEventId && o.kind == ContextVerified && o.stepOrdinal == 1 && o.toolRequestId == None
    && o.observationId == (if "plan_" <= plan.planId then "observation_" + plan.planId[5..] else plan.planId)
    && |o.artifactHashes| == |plan.provenance.contextPackRefs|
    && forall k | 0 <= k < |o.artifactHashes| :: o.artifactHashes[k] == plan.provenance.contextPackRefs[k].contentHash
  }

  predicate ContextSays(p: Payload, plan: Plan, planEventId: string) {
    ContextContent(p, plan, planEventId) && SpendsOne(plan.budget, ObservationRecords, BudgetOf(p))
  }

  /** The gateway event that a tool step names as its cause goes with the stage its record reached. */
  predicate CausedByGateway(causationId: string, r: GatewayReadbacks) {
    match r.stage
    case Completed => r.resultEventId == Some(causationId)
    case Requested => r.requestEventId == causationId
    case _ => r.executionClaimEventId == Some(causationId)
  }

  /** The step and the material name what they are about. */
  predicate StepNamed(m: Material, key: StepKey) {
    && |m.allowlistEntryHash| > 0 && |m.sideEffectClass| > 0 && |m.requiredApprovalClass| > 0 && |m.previewHash| > 0
    && key.ordinal > 0 && |key.toolRequestId| > 0 && |key.toolId| > 0 && |key.toolVersion| > 0
  }

  predicate ToolContent(p: Payload, plan: Plan, planEventId: string, m: Material, key: StepKey) {
    && p.ToolStepRecorded?
    && var t := p.toolStep;
    && OfPlan(t.provenance, t.planId, t.planRevision, t.planReadback, plan, planEventId)
    && CausedByGateway(t.causationId, m.readbacks) && |t.causationId| > 0
    && t.step.ordinal == key.ordinal && t.step.toolRequestId == key.toolRequestId
    && t.step.toolId == key.toolId && t.step.toolVersion == key.toolVersion && StepNamed(m, key)
    && (t.state == Executed <==> m.readbacks.stage == Completed) && t.material == m
  }

  predicate ToolSays(p: Payload, plan: Plan, planEventId: string, before: Budget, m: Material, b: Binding) {
    && ToolContent(p, plan, planEventId, m, StepKey(b.ordinal, b.toolRequestId, b.toolId, b.toolVersion))
    && SpendsOne(before, ToolSteps, BudgetOf(p))
  }

  predicate FinalContent(p: Payload, plan: Plan, planEventId: string, toolEventId: string, hashes: seq<string>, ordinal: int, toolRequestId: string) {
    && p.ObservationRecorded?
    && var o := p.observation;
    && OfPlan(o.provenance, o.planId, o.planRevision, o.planReadback, plan, planEventId)
    && o.causationId == toolEventId && o.kind == ToolResult && o.stepOrdinal == ordinal && o.toolRequestId == Some(toolRequestId)
    && o.artifactHashes == hashes
    && BaseOf(plan.planId, PlanBase(plan.planId))
    && o.observationId == "observation_" + PlanBase(plan.planId) +
                          (if plan.planRevision == 0 then "_final" else "_final_" + IntText(plan.planRevision + 1))
  }

  predicate FinalSays(p: Payload, plan: Plan, planEventId: string, tool: Event, m: Material, b: Binding) {
    && FinalContent(p, plan, planEventId, tool.id, m.resultArtifactHashes, b.ordinal, b.toolRequestId)
    && SpendsOne(BudgetOf(tool.payload), ObservationRecords, BudgetOf(p))
  }

  predicate ResultSays(p: Payload, plan: Plan, planEventId: string, final: Event, handoff: HandoffReadback) {
    && p.ResultRecorded? && final.payload.ObservationRecorded?
    && var r := p.result;
    && OfPlan(r.provenance, r.planId, r.planRevision, r.planReadback, plan, planEventId)
    && r.causationId == final.id && r.finalObservation.eventId == final.id
    && r.finalObservation.identity == final.payload.observation.provenance.identity
    && r.finalObservation.planId == final.payload.observation.planId && r.finalObservation.planRevision == final.payload.observation.planRevision
    && r.body.HandoffRecorded? && r.body.handoff == handoff && r.body.resultHash == handoff.manifestHash
    && SpendsOne(BudgetOf(final.payload), ActiveExecutionMs, r.budget)
  }

  predicate RecoverySays(p: Payload, prior: Plan, planEventId: string, result: Event) {
    && p.ObservationRecorded?
    && var o := p.observation;
    && OfPlan(o.provenance, o.planId, o.planRevision, o.planReadback, prior, planEventId)
    && o.causationId == result.id && o.kind == Recovery && o.stepOrdinal == 1 && o.toolRequestId == None && o.artifactHashes == []
    && BaseOf(prior.planId, PlanBase(prior.planId)) && o.observationId == "observation_" + PlanBase(prior.planId) + "_recovery"
    && SpendsOne(BudgetOf(result.payload), ObservationRecords, o.budget)
  }

  // ---------- Contents, exactly ----------

  lemma ContextExactly(plan: Plan, planEventId: string, o: Observation)
    ensures o == ContextObservation(plan, planEventId, o.budget) <==> ContextContent(ObservationRecorded(o), plan, planEventId)
  {
    if ContextContent(ObservationRecorded(o), plan, planEventId) {
      assert o.artifactHashes == ContentHashes(plan.provenance.contextPackRefs);
    }
  }

  lemma ToolExactly(plan: Plan, planEventId: string, t: ToolStep, m: Material, key: StepKey)
    ensures ToolStepPayload(plan, planEventId, t.budget, m, key) == Some(t) <==> ToolContent(ToolStepRecorded(t), plan, planEventId, m, key)
  {
  }

  lemma FinalExactly(plan: Plan, planEventId: string, toolEventId: string, hashes: seq<string>, key: StepKey, o: Observation)
    ensures o == FinalObservation(plan, planEventId, toolEventId, hashes, o.budget, key) <==>
            FinalContent(ObservationRecorded(o), plan, planEventId, toolEventId, hashes, key.ordinal, key.toolRequestId)
  {
    PlanBaseIsBase(plan.planId);
    FinalIdJoined(PlanBase(plan.planId), plan.planRevision + 1);
  }

  lemma SpendsOneExactly(before: Budget, field: Field, after: Budget)
    ensures Advance(before, field) == Some(after) <==> SpendsOne(before, field, after)
  {
    if Advance(before, field) == Some(after) { AdvanceSpendsOne(before, field, after); }
    if SpendsOne(before, field, after) {
      assert FieldValid(before, field) && FieldValid(after, field);
      AdvanceSucceedsIff(before, field);
      AdvanceSpendsOne(before, field, Advance(before, field).value);
      SameSpending(before, field, Advance(before, field).value, after);
    }
  }

  lemma SameSpending(before: Budget, field: Field, a: Budget, b: Budget)
    requires SpendsOne(before, field, a) && SpendsOne(before, field, b)
    ensures a == b
  {
    forall f: Field ensures a.ceilings[f] == b.ceilings[f] && a.remaining[f] == b.remaining[f] {
      assert FieldValid(a, f) && FieldValid(b, f);
    }
    SameUsage(a.ceilings, b.ceilings);
    SameUsage(a.consumed, b.consumed);
    SameUsage(a.remaining, b.remaining);
    SameUsage(a.action, b.action);
  }

  lemma SameUsage(u: Usage, v: Usage)
    requires Complete(u) && Complete(v) && forall f: Field :: u[f] == v[f]
    ensures u == v
  {
    forall f: Field ensures f in u <==> f in v {}
  }

  lemma ResultExactly(plan: Plan, planEventId: string, final: Event, r: LoopResult, handoff: HandoffReadback)
    requires final.payload.ObservationRecorded?
    ensures CompletedResult(plan, planEventId, final.id, final.payload.observation, BudgetOf(final.payload), handoff) == Some(r) <==>
            ResultSays(ResultRecorded(r), plan, planEventId, final, handoff)
  {
    SpendsOneExactly(BudgetOf(final.payload), ActiveExecutionMs, r.budget);
  }

  lemma BoundPlanSays(proposed: Plan, b: Binding, bound: Plan)
    requires BoundOk(proposed, b, bound)
    ensures PlanSays(bound, proposed, b)
  {
  }

  lemma ContextRecordSays(plan: Plan, planEventId: string, p: Payload)
    requires ContextPart(plan, planEventId, p)
    ensures ContextSays(p, plan, planEventId)
  {
    AdvanceSpendsOne(plan.budget, ObservationRecords, BudgetOf(p));
    ContextExactly(plan, planEventId, p.observation);
  }

  lemma ToolRecordSays(plan: Plan, planEventId: string, before: Budget, m: Material, stage: Stage, b: Binding, p: Payload)
    requires ToolPart(plan, planEventId, before, m, stage, KeyOfBinding(b), p)
    ensures ToolSays(p, plan, planEventId, before, m, b) && m.readbacks.stage == stage
  {
    AdvanceSpendsOne(before, ToolSteps, BudgetOf(p));
    ToolExactly(plan, planEventId, p.toolStep, m, KeyOfBinding(b));
  }

  lemma FinalIdJoined(base: string, revision: int)
    ensures "observation_" + base + "_final_" + IntText(revision) == "observation_" + base + ("_final_" + IntText(revision))
  {
    Sequences.Assoc("observation_" + base, "_final_", IntText(revision));
  }

  lemma FinalRecordSays(plan: Plan, planEventId: string, tool: Event, m: Material, b: Binding, p: Payload)
    requires FinalPart(plan, planEventId, tool, m, KeyOfBinding(b), p)
    ensures FinalSays(p, plan, planEventId, tool, m, b)
  {
    AdvanceSpendsOne(BudgetOf(tool.payload), ObservationRecords, BudgetOf(p));
    FinalExactly(plan, planEventId, tool.id, m.resultArtifactHashes, KeyOfBinding(b), p.observation);
  }

  lemma ResultRecordSays(plan: Plan, planEventId: string, final: Event, p: Payload, handoff: HandoffReadback)
    requires ResultPart(plan, planEventId, final, p) && p.result.body.handoff == handoff
    ensures ResultSays(p, plan, planEventId, final, handoff)
  {
    ResultExactly(plan, planEventId, final, p.result, handoff);
  }

  lemma RecoveryRecordSays(prior: Plan, planEventId: string, result: Event, p: Payload)
    requires RecoveryPart(prior, planEventId, result, p)
    ensures RecoverySays(p, prior, planEventId, result)
  {
    AdvanceSpendsOne(BudgetOf(result.payload), ObservationRecords, BudgetOf(p));
    PlanBaseIsBase(prior.planId);
  }

  // ---------- A whole segment ----------

  /** The five records of a completed segment, each caused by the one before it or by the gateway. */
  predicate SegmentSays(events: seq<Event>, proposed: Plan, b: Binding, m: Material, handoff: HandoffReadback) {
    && |events| == 5 && events[0].payload.PlanRecorded?
    && var plan, id := events[0].payload.plan, events[0].id;
    && PlanSays(plan, proposed, b)
    && ContextSays(events[1].payload, plan, id)
    && ToolSays(events[2].payload, plan, id, BudgetOf(events[1].payload), m, b) && m.readbacks.stage == Completed
    && FinalSays(events[3].payload, plan, id, events[2], m, b)
    && ResultSays(events[4].payload, plan, id, events[3], handoff)
  }

  lemma WrittenSegmentSays(events: seq<Event>, proposed: Plan, b: Binding, m: Material, handoff: HandoffReadback)
    requires WrittenByAdvance(events, proposed, b, m, handoff)
    ensures SegmentSays(events, proposed, b, m, handoff)
  {
    var plan, id := events[0].payload.plan, events[0].id;
    BoundPlanSays(proposed, b, plan);
    ContextRecordSays(plan, id, events[1].payload);
    ToolRecordSays(plan, id, BudgetOf(events[1].payload), m, Completed, b, events[2].payload);
    FinalRecordSays(plan, id, events[2], m, b, events[3].payload);
    ResultRecordSays(plan, id, events[3], events[4].payload, handoff);
  }

  /** In every run, what a call that completes has made durable says this, field by field. */
  lemma CompletedSegmentSays(ctx: Context, ws: seq<World>, ss: seq<StepLabel>, n: nat)
    requires Run(ctx, ws, ss) && n < |ss| && Completion.Completing(ws[n], ss[n])
    ensures var l := ws[n].loop.call.locals;
            && (forall e | e in Completion.SegmentEvents(l) :: e in ws[n].ledger)
            && l.event.payload.ResultRecorded? && l.event.payload.result.body.HandoffRecorded?
            && SegmentSays(Completion.SegmentEvents(l), l.proposed, l.binding, l.material, l.event.payload.result.body.handoff)
  {
    Completion.CompletedSegmentIsWrittenAndDurable(ctx, ws, ss, n);
    var l := ws[n].loop.call.locals;
    WrittenSegmentSays(Completion.SegmentEvents(l), l.proposed, l.binding, l.material, l.event.payload.result.body.handoff);
  }

  /** The four records of a suspended segment, whose tool step names the request or the claim as its cause. */
  predicate FourSay(planEvent: Event, seen: Event, tool: Event, final: Event, proposed: Plan, b: Binding, m: Material) {
    && planEvent.payload.PlanRecorded?
    && var plan, id := planEvent.payload.plan, planEvent.id;
    && PlanSays(plan, proposed, b) && ContextSays(seen.payload, plan, id)
    && ToolSays(tool.payload, plan, id, BudgetOf(seen.payload), m, b) && tool.payload.toolStep.state == SuspendedStep
    && FinalSays(final.payload, plan, id, tool, m, b)
  }

  lemma SuspendedSegmentSays(planEvent: Event, seen: Event, tool: Event, final: Event, proposed: Plan, b: Binding, m: Material, stage: Stage)
    requires WrittenToSuspend([planEvent, seen, tool, final], proposed, b, m, stage) && stage != Completed
    ensures FourSay(planEvent, seen, tool, final, proposed, b, m)
  {
    var events := [planEvent, seen, tool, final];
    assert events[0] == planEvent && events[1] == seen && events[2] == tool && events[3] == final;
    var plan, id := planEvent.payload.plan, planEvent.id;
    BoundPlanSays(proposed, b, plan);
    ContextRecordSays(plan, id, seen.payload);
    ToolRecordSays(plan, id, BudgetOf(seen.payload), m, stage, b, tool.payload);
    FinalRecordSays(plan, id, tool, m, b, final.payload);
  }

  predicate SuspendedSays(l: Locals) {
    FourSay(l.planEvent, l.contextEvent, l.toolEvent, l.event, l.proposed, l.binding, l.material)
  }

  lemma LocalsSay(l: Locals)
    requires WrittenToSuspend([l.planEvent, l.contextEvent, l.toolEvent, l.event], l.proposed, l.binding, l.material, l.current.stage)
    requires l.current.stage != Completed
    ensures SuspendedSays(l)
  {
    SuspendedSegmentSays(l.planEvent, l.contextEvent, l.toolEvent, l.event, l.proposed, l.binding, l.material, l.current.stage);
  }

  /** In every run, the records a call has made durable when it suspends say this. */
  lemma SuspendingSegmentSays(ctx: Context, ws: seq<World>, ss: seq<StepLabel>, n: nat, token: Token)
    requires Run(ctx, ws, ss) && n < |ss| && HandsOver(ws[n], ws[n + 1], token)
    ensures SuspendedSays(ws[n].loop.call.locals)
  {
    SuspendingSegmentIsWrittenAndDurable(ctx, ws, ss, n, token);
    SuspendsExactly(ctx, ws, ss, n, token);
    LocalsSay(ws[n].loop.call.locals);
  }

  // ---------- The recovery observation ----------

  /** What is appended, or read back, as the recovery is built from the suspended segment that was read. */
  predicate RecoveryBuilt(port: Port, l: Locals) {
    port == Append(RecoverySlot) || port == ReadBack(RecoverySlot) ==>
      && |l.replay| == 6 && l.replay[0].payload.PlanRecorded?
      && RecoveryPart(l.replay[0].payload.plan, l.replay[0].id, l.replay[5], l.pending)
  }

  predicate CallBuildsRecovery(call: Call) {
    match call
    case Active(_, AtPort(port, _), l) => RecoveryBuilt(port, l)
    case Active(_, AtReverify(port, _), l) => RecoveryBuilt(port, l)
    case _ => true
  }

  predicate MoveBuilds(m: Move) {
    m.Ask? ==> RecoveryBuilt(m.port, m.locals)
  }

  lemma RereadBuilds(i: Issued, m: Material, l: Locals)
    ensures MoveBuilds(AfterSuspensionReread(i, m, l))
  {
  }

  lemma IssuedBuilds(mode: Mode, port: Port, i: Issued, m: Material, l: Locals)
    ensures MoveBuilds(AfterIssued(mode, port, i, m, l))
  {
    if port == Reread(AfterSuspension) { RereadBuilds(i, m, l); }
  }

  lemma EventBuilds(mode: Mode, port: Port, e: Event, l: Locals)
    requires RecoveryBuilt(port, l)
    ensures MoveBuilds(AfterEvent(mode, port, e, l))
  {
  }

  lemma MoveBuildsRecovery(ctx: Context, mode: Mode, port: Port, reply: Reply, l: Locals)
    requires RecoveryBuilt(port, l)
    ensures MoveBuilds(After(ctx, mode, port, reply, l))
  {
    match reply
    case EventReply(e) => EventBuilds(mode, port, e, l);
    case IssuedReply(i, m) => if m.Some? { IssuedBuilds(mode, port, i, m.value, l); }
    case _ =>
  }

  lemma StepBuildsRecovery(ctx: Context, w: World, s: StepLabel)
    requires Enabled(ctx, w, s) && CallBuildsRecovery(w.loop.call)
    ensures CallBuildsRecovery(Apply(ctx, w, s).loop.call)
  {
    if s.Reverified? && s.next.Some? {
      var call := w.loop.call;
      MoveBuildsRecovery(ctx, call.mode, call.await.port, call.await.reply, call.locals);
    }
  }

  lemma {:induction false} RunBuildsRecovery(ctx: Context, ws: seq<World>, ss: seq<StepLabel>, n: nat)
    requires Run(ctx, ws, ss) && n < |ws|
    ensures CallBuildsRecovery(ws[n].loop.call)
    decreases n
  {
    if n > 0 {
      RunBuildsRecovery(ctx, ws, ss, n - 1);
      RunStep(ctx, ws, ss, n - 1);
      StepBuildsRecovery(ctx, ws[n - 1], ss[n - 1]);
    }
  }

  /** In every run the recovery observation a resume asks to append says what it should of the suspended plan and its result. */
  lemma RecoverySaysInRuns(ctx: Context, ws: seq<World>, ss: seq<StepLabel>, n: nat)
    requires Run(ctx, ws, ss) && n < |ws|
    requires ws[n].loop.call.Active? && ws[n].loop.call.await.AtPort? && ws[n].loop.call.await.port == Append(RecoverySlot)
    ensures var l := ws[n].loop.call.locals;
            && |l.replay| == 6 && l.replay[0].payload.PlanRecorded?
            && RecoverySays(l.pending, l.replay[0].payload.plan, l.replay[0].id, l.replay[5])
  {
    RunBuildsRecovery(ctx, ws, ss, n);
    var l := ws[n].loop.call.locals;
    RecoveryRecordSays(l.replay[0].payload.plan, l.replay[0].id, l.replay[5], l.pending);
  }
}
