/**
 Which advances can complete at all: exactly those whose plan has one readable
 step and a budget with room for the four records behind the plan.
 */
module ResidentCompletable {
  import opened CanonicalJson
  import opened ResidentBudget
  import opened ResidentRecords
  import opened ResidentReplay
  import opened ResidentLoop
  import opened ResidentCooperation
  import Completion = ResidentLoopCompletion

  // ---------- The budget ----------

  /** Room for two observations, a tool step and the result. */
  predicate HasRoom(b: Budget) {
    && Valid(b)
    && b.remaining[ObservationRecords] >= 2 && b.remaining[ToolSteps] >= 1 && b.remaining[ActiveExecutionMs] >= 1
  }

  /** The four budgets behind the plan's. */
  datatype Four = Four(context: Budget, tool: Budget, final: Budget, result: Budget)

  predicate Spends(b: Budget, four: Four) {
    && Advance(b, ObservationRecords) == Some(four.context)
    && Advance(four.context, ToolSteps) == Some(four.tool)
    && Advance(four.tool, ObservationRecords) == Some(four.final)
    && Advance(four.final, ActiveExecutionMs) == Some(four.result)
  }

  lemma OneUnitLess(b: Budget, field: Field)
    requires Valid(b) && b.remaining[field] > 0
    ensures Advance(b, field).Some? && Valid(Advance(b, field).value)
    ensures forall f: Field :: Advance(b, field).value.remaining[f] == b.remaining[f] - if f == field then 1 else 0
  {
    AdvanceSucceedsIff(b, field);
    AdvanceIsProgress(b, field);
  }

  lemma RoomIsSpent(b: Budget) returns (four: Four)
    requires HasRoom(b)
    ensures Spends(b, four)
  {
    OneUnitLess(b, ObservationRecords);
    var context := Advance(b, ObservationRecords).value;
    OneUnitLess(context, ToolSteps);
    var tool := Advance(context, ToolSteps).value;
    OneUnitLess(tool, ObservationRecords);
    var final := Advance(tool, ObservationRecords).value;
    OneUnitLess(final, ActiveExecutionMs);
    four := Four(context, tool, final, Advance(final, ActiveExecutionMs).value);
  }

  lemma UnitWasThere(b: Budget, field: Field)
    requires Advance(b, field).Some?
    ensures Valid(b) && b.remaining[field] > 0 && Valid(Advance(b, field).value)
    ensures forall f: Field :: b.remaining[f] == Advance(b, field).value.remaining[f] + if f == field then 1 else 0
  {
    AdvanceSucceedsIff(b, field);
    AdvanceIsProgress(b, field);
  }

  lemma SpentMeansRoom(b: Budget, four: Four)
    requires Spends(b, four)
    ensures HasRoom(b)
  {
    UnitWasThere(b, ObservationRecords);
    UnitWasThere(four.context, ToolSteps);
    UnitWasThere(four.tool, ObservationRecords);
    UnitWasThere(four.final, ActiveExecutionMs);
  }

  // ---------- The plan ----------

  predicate Completable(p: Plan) {
    && |p.steps| == 1 && PlanReadable(p) && BindingInputReadable(p)
    && HasRoom(p.budget)
  }

  // ---------- An environment for it ----------

  function Hash(): (h: string)
    ensures IsHash(h)
  {
    var digits := seq(64, _ => '0');
    var h := "sha256:" + digits;
    assert h[..7] == "sha256:" && h[7..] == digits;
    h
  }

  function BindingFor(p: Plan): (b: Binding)
    requires Completable(p)
    ensures BindingMatches(b, p)
  {
    var step := p.steps[0];
    Binding(p.provenance.identity, p.planId, p.planRevision, step.ordinal, "request", step.toolId, step.toolVersion, Hash())
  }

  function MaterialFor(stage: Stage): Material {
    Material(GatewayReadbacks(stage, AutomaticPolicy, "requested", Some("claimed"), Some("completed"), Null),
             Hash(), "none", "none", Hash(), [], [])
  }

  function IssuedFor(stage: Stage, b: Binding): Issued {
    var done := if stage == Completed then Some("done") else None;
    Issued(stage, AutomaticPolicy, b, b.executionCapabilityHash, "requested", None, None, None, done, None, done, done)
  }

  function GatewayFor(b: Binding): Gateway {
    Gateway(IssuedFor(Requested, b), MaterialFor(Requested), NOT_ISSUED, IssuedFor(Completed, b))
  }

  lemma GatewayForAnswers(b: Binding)
    ensures GatewayAnswers(Advancing, b, MaterialFor(Completed), GatewayFor(b))
  {
  }

  function HandoffFor(i: Identity, authority: Value): HandoffProjection {
    var handoff := Handoff("handoff", i.taskId, i.runId, Null);
    HandoffProjection(true, [], [handoff], handoff,
      HandoffReadback(true, i.taskId, i.runId, authority, "handoff", "recorded", "terminal", "status", Hash(), [], Null))
  }

  lemma HandoffForIsVerified(i: Identity, authority: Value)
    requires IdentityReadable(i)
    ensures HandoffVerified(HandoffFor(i, authority), i, authority)
  {
  }

  // ---------- The segment ----------

  function ContextFor(bound: Plan, four: Four): Payload {
    ObservationRecorded(ContextObservation(bound, "evt_1", four.context))
  }

  function ToolFor(bound: Plan, key: StepKey, four: Four): Payload {
    ToolStepRecorded(ToolStep(bound.provenance, four.tool, "completed", bound.planId, bound.planRevision, PlanReadbackOf("evt_1", bound),
                              key, Executed, MaterialFor(Completed)))
  }

  function FinalFor(bound: Plan, key: StepKey, four: Four): Payload {
    ObservationRecorded(FinalObservation(bound, "evt_1", "evt_3", [], four.final, key))
  }

  function ResultFor(bound: Plan, four: Four, handoff: HandoffReadback): Payload {
    var readback := PlanReadbackOf("evt_1", bound);
    ResultRecorded(LoopResult(bound.provenance, four.result, "evt_4", bound.planId, bound.planRevision, readback,
                              PlanReadbackOf("evt_4", bound), HandoffRecorded(handoff.manifestHash, handoff)))
  }

  function SegmentFor(bound: Plan, key: StepKey, four: Four, handoff: HandoffReadback): seq<Event> {
    [Event("evt_1", 1, PlanRecorded(bound), Null),
     Event("evt_2", 2, ContextFor(bound, four), Null),
     Event("evt_3", 3, ToolFor(bound, key, four), Null),
     Event("evt_4", 4, FinalFor(bound, key, four), Null),
     Event("evt_5", 5, ResultFor(bound, four, handoff), Null)]
  }

  lemma ToolForIsBuilt(bound: Plan, key: StepKey, four: Four)
    requires StepReadable(MaterialFor(Completed), key) && Advance(four.context, ToolSteps) == Some(four.tool)
    ensures ToolPart(bound, "evt_1", four.context, MaterialFor(Completed), Completed, key, ToolFor(bound, key, four))
  {
  }

  lemma ResultForIsBuilt(bound: Plan, key: StepKey, four: Four, handoff: HandoffReadback)
    requires Advance(four.final, ActiveExecutionMs) == Some(four.result)
    ensures ResultPart(bound, "evt_1", Event("evt_4", 4, FinalFor(bound, key, four), Null), ResultFor(bound, four, handoff))
  {
  }

  lemma ContextForIsBuilt(bound: Plan, four: Four)
    requires PlanReadable(bound) && Advance(bound.budget, ObservationRecords) == Some(four.context)
    ensures ContextPart(bound, "evt_1", ContextFor(bound, four))
  {
  }

  lemma FinalForIsBuilt(bound: Plan, key: StepKey, four: Four)
    requires Advance(four.tool, ObservationRecords) == Some(four.final)
    ensures FinalPart(bound, "evt_1", Event("evt_3", 3, ToolFor(bound, key, four), Null), MaterialFor(Completed), key, FinalFor(bound, key, four))
  {
  }

  lemma SegmentForIsWellFormed(bound: Plan, key: StepKey, four: Four, handoff: HandoffReadback)
    ensures forall e | e in SegmentFor(bound, key, four, handoff) :: EventWellFormed(e)
  {
  }

  lemma BoundIsReadable(p: Plan, b: Binding)
    requires BindingMatches(b, p) && PlanReadable(p)
    ensures PlanReadable(Bind(p, b)) && Bind(p, b).budget == p.budget
    ensures StepReadable(MaterialFor(Completed), KeyOfBinding(b))
  {
  }

  lemma PartsMakeSegment(events: seq<Event>, p: Plan, b: Binding, bound: Plan, m: Material, handoff: HandoffReadback)
    requires |events| == 5 && events[0].payload == PlanRecorded(bound) && BoundOk(p, b, bound)
    requires ContextPart(bound, events[0].id, events[1].payload)
    requires ToolPart(bound, events[0].id, BudgetOf(events[1].payload), m, Completed, KeyOfBinding(b), events[2].payload)
    requires FinalPart(bound, events[0].id, events[2], m, KeyOfBinding(b), events[3].payload)
    requires ResultPart(bound, events[0].id, events[3], events[4].payload) && events[4].payload.result.body.handoff == handoff
    ensures WrittenByAdvance(events, p, b, m, handoff)
  {
  }

  lemma BoundSegmentIsWritten(p: Plan, b: Binding, bound: Plan, four: Four, handoff: HandoffReadback)
    requires BoundOk(p, b, bound) && PlanReadable(bound) && Spends(bound.budget, four)
    requires StepReadable(MaterialFor(Completed), KeyOfBinding(b))
    ensures WrittenByAdvance(SegmentFor(bound, KeyOfBinding(b), four, handoff), p, b, MaterialFor(Completed), handoff)
  {
    var key := KeyOfBinding(b);
    ContextForIsBuilt(bound, four);
    ToolForIsBuilt(bound, key, four);
    FinalForIsBuilt(bound, key, four);
    ResultForIsBuilt(bound, key, four, handoff);
    PartsMakeSegment(SegmentFor(bound, key, four, handoff), p, b, bound, MaterialFor(Completed), handoff);
  }

  lemma SegmentForIsWritten(p: Plan, b: Binding, four: Four, handoff: HandoffReadback)
    requires BindingMatches(b, p) && PlanReadable(p) && Spends(p.budget, four)
    ensures WrittenByAdvance(SegmentFor(Bind(p, b), KeyOfBinding(b), four, handoff), p, b, MaterialFor(Completed), handoff)
    ensures forall e | e in SegmentFor(Bind(p, b), KeyOfBinding(b), four, handoff) :: EventWellFormed(e)
  {
    BoundIsReadable(p, b);
    SegmentForIsWellFormed(Bind(p, b), KeyOfBinding(b), four, handoff);
    BoundSegmentIsWritten(p, b, Bind(p, b), four, handoff);
  }

  // ---------- Exactly ----------

  lemma CompletableCompletes(ctx: Context, c: Candidate)
    requires AdvanceAdmissible(ctx, c) && Completable(c.plan)
    ensures exists l, ledger :: Completes(ctx, Advancing, l, ledger) && l.proposed == c.plan
  {
    var p := c.plan;
    var b, handoff := BindingFor(p), HandoffFor(p.provenance.identity, p.provenance.authority);
    var four := RoomIsSpent(p.budget);
    var events := SegmentFor(Bind(p, b), KeyOfBinding(b), four, handoff.selectedReadback);
    SegmentForIsWritten(p, b, four, handoff.selectedReadback);
    GatewayForAnswers(b);
    HandoffForIsVerified(p.provenance.identity, p.provenance.authority);
    EverySegmentIsWrittenBySomeAdvance(ctx, c, events, b, MaterialFor(Completed), GatewayFor(b), handoff);
    var l :| Completes(ctx, Advancing, l, events) && Holds(l, StartLocals(c, c.plan), events, b, MaterialFor(Completed));
    assert l.proposed == c.plan;
  }

  lemma WrittenMeansCompletable(events: seq<Event>, p: Plan, b: Binding, m: Material, handoff: HandoffReadback)
    requires WrittenByAdvance(events, p, b, m, handoff)
    ensures Completable(p)
  {
    var plan := events[0].payload.plan;
    BindingIsReadable(p, b, plan);
    ResultSpends(plan, events[0].id, events[3], events[4].payload);
    SpentMeansRoom(p.budget, Four(BudgetOf(events[1].payload), BudgetOf(events[2].payload), BudgetOf(events[3].payload), BudgetOf(events[4].payload)));
  }

  lemma CompletedIsCompletable(ctx: Context, l: Locals, ledger: seq<Event>)
    requires Completes(ctx, Advancing, l, ledger)
    ensures Completable(l.proposed)
  {
    var ws: seq<World>, ss: seq<StepLabel> :|
      && Run(ctx, ws, ss) && ss != []
      && Completion.Completing(ws[|ss| - 1], ss[|ss| - 1]) && About(ws[|ss| - 1], Advancing, l, ledger);
    Completion.CompletedSegmentIsWrittenAndDurable(ctx, ws, ss, |ss| - 1);
    WrittenMeansCompletable(Completion.SegmentEvents(l), l.proposed, l.binding, l.material, l.event.payload.result.body.handoff);
  }

  /**
   For an admissible candidate some run of an advance ends with its result
   exactly when its plan has one step, every text the builders read is present
   and the budget has room for two observations, one tool step and the result.
   */
  lemma AdvanceCanCompleteExactly(ctx: Context, c: Candidate)
    requires AdvanceAdmissible(ctx, c)
    ensures (exists l, ledger :: Completes(ctx, Advancing, l, ledger) && l.proposed == c.plan) <==> Completable(c.plan)
  {
    if Completable(c.plan) { CompletableCompletes(ctx, c); }
    if l, ledger :| Completes(ctx, Advancing, l, ledger) && l.proposed == c.plan { CompletedIsCompletable(ctx, l, ledger); }
  }
}
