/**
 The records of the resident loop: the plan a caller proposes, the binding of
 its step to a gateway request, the five kinds of durable event, and the
 builders that derive each payload from what was recorded before it.

 Nested data that the loop only copies and compares (descriptors, policies,
 authority bindings) is kept as a JSON value, so two records are equal exactly
 when their canonical texts are.
 */
module ResidentRecords {
  import opened CanonicalJson
  import opened ResidentBudget
  import Sequences

  datatype Identity = Identity(residentAgentId: string, workspaceId: string, taskId: string, attemptId: string, runId: string)

  datatype PackRef = PackRef(contentHash: string, details: Value)

  /** What every payload of a run repeats from its plan. */
  datatype Provenance = Provenance(
    identity: Identity,
    runMode: string,
    workflowDescriptor: Value,
    policy: Value,
    authority: Value,
    sourceEventIds: seq<string>,
    contextPackRefs: seq<PackRef>,
    correlationId: string)

  datatype Step = Step(
    ordinal: int,
    toolId: string,
    toolVersion: string,
    details: Value,
    toolRequestId: Option<string>,
    executionCapabilityHash: Option<string>)

  /** A plan payload; details holds the fields the loop never reads (schema version, prior readbacks). */
  datatype Plan = Plan(
    provenance: Provenance,
    causationId: string,
    budget: Budget,
    planId: string,
    planRevision: int,
    steps: seq<Step>,
    details: Value)

  /** A planned-step binding; a logical locator is the same twelve fields. */
  datatype Binding = Binding(
    identity: Identity,
    planId: string,
    planRevision: int,
    ordinal: int,
    toolRequestId: string,
    toolId: string,
    toolVersion: string,
    executionCapabilityHash: string)

  /** What a step payload takes from a binding, or from a bound step of a durable plan. */
  datatype StepKey = StepKey(ordinal: int, toolRequestId: string, toolId: string, toolVersion: string)

  datatype Stage = Requested | HumanApproved | Claimed | Completed | OtherStage(name: string)

  datatype Authorization = HumanApproval | AutomaticPolicy | OtherAuthorization(name: string)

  datatype GatewayReadbacks = GatewayReadbacks(
    stage: Stage,
    authorization: Authorization,
    requestEventId: string,
    executionClaimEventId: Option<string>,
    resultEventId: Option<string>,
    details: Value)

  datatype Material = Material(
    readbacks: GatewayReadbacks,
    allowlistEntryHash: string,
    sideEffectClass: string,
    requiredApprovalClass: string,
    previewHash: string,
    inputArtifactHashes: seq<string>,
    resultArtifactHashes: seq<string>)

  datatype PlanReadback = PlanReadback(eventId: string, identity: Identity, planId: string, planRevision: int)

  datatype ObservationKind = ContextVerified | ToolResult | Recovery

  datatype Observation = Observation(
    provenance: Provenance,
    budget: Budget,
    causationId: string,
    observationId: string,
    planId: string,
    planRevision: int,
    planReadback: PlanReadback,
    stepOrdinal: int,
    kind: ObservationKind,
    artifactHashes: seq<string>,
    toolRequestId: Option<string>)

  datatype StepState = Executed | SuspendedStep

  datatype ToolStep = ToolStep(
    provenance: Provenance,
    budget: Budget,
    causationId: string,
    planId: string,
    planRevision: int,
    planReadback: PlanReadback,
    step: StepKey,
    state: StepState,
    material: Material)

  datatype SuspensionCategory = ApprovalRequired | EffectOutcomeUnknown | OtherCategory(name: string)

  datatype Suspension = Suspension(
    provenance: Provenance,
    budget: Budget,
    category: SuspensionCategory,
    checkpointEventId: string,
    locator: Option<Binding>,
    details: Value)

  datatype HandoffReadback = HandoffReadback(
    verified: bool,
    taskId: string,
    runId: string,
    authority: Value,
    handoffId: string,
    recordedEventId: string,
    terminalRunEventId: string,
    taskStatusEventId: string,
    manifestHash: string,
    diagnostics: seq<Value>,
    details: Value)

  datatype ResultBody =
    | HandoffRecorded(resultHash: string, handoff: HandoffReadback)
    | Resumable(category: SuspensionCategory, checkpointEventId: string)
    | OtherResult(outcome: string, category: SuspensionCategory, details: Value)

  datatype LoopResult = LoopResult(
    provenance: Provenance,
    budget: Budget,
    causationId: string,
    planId: string,
    planRevision: int,
    planReadback: PlanReadback,
    finalObservation: PlanReadback,
    body: ResultBody)

  datatype Payload =
    | PlanRecorded(plan: Plan)
    | ObservationRecorded(observation: Observation)
    | ToolStepRecorded(toolStep: ToolStep)
    | LoopSuspended(suspension: Suspension)
    | ResultRecorded(result: LoopResult)

  datatype Event = Event(id: string, sequence: int, payload: Payload, context: Value)

  // ---------- Reading records ----------

  predicate NonEmpty(s: string) { s != "" }

  predicate IsLowerHex(s: string) {
    forall c | c in s :: '0' <= c <= '9' || 'a' <= c <= 'f'
  }

  predicate IsHash(s: string) {
    |s| == 71 && s[..7] == "sha256:" && IsLowerHex(s[7..])
  }

  function ProvenanceOf(p: Payload): Provenance {
    match p
    case PlanRecorded(plan) => plan.provenance
    case ObservationRecorded(o) => o.provenance
    case ToolStepRecorded(t) => t.provenance
    case LoopSuspended(s) => s.provenance
    case ResultRecorded(r) => r.provenance
  }

  function BudgetOf(p: Payload): Budget {
    match p
    case PlanRecorded(plan) => plan.budget
    case ObservationRecorded(o) => o.budget
    case ToolStepRecorded(t) => t.budget
    case LoopSuspended(s) => s.budget
    case ResultRecorded(r) => r.budget
  }

  predicate IdentityReadable(i: Identity) {
    NonEmpty(i.residentAgentId) && NonEmpty(i.workspaceId) && NonEmpty(i.taskId) && NonEmpty(i.attemptId) && NonEmpty(i.runId)
  }

  /** The required texts that the payload builders read from a plan are all present. */
  predicate PlanReadable(p: Plan) {
    && IdentityReadable(p.provenance.identity)
    && NonEmpty(p.provenance.runMode) && NonEmpty(p.provenance.correlationId) && NonEmpty(p.planId)
    && forall ref | ref in p.provenance.contextPackRefs :: NonEmpty(ref.contentHash)
  }

  /** The fields plannedStepBindingInput reads before the gateway is asked for bindings. */
  predicate BindingInputReadable(p: Plan) {
    && IdentityReadable(p.provenance.identity) && NonEmpty(p.planId)
    && forall s | s in p.steps :: s.ordinal > 0 && NonEmpty(s.toolId) && NonEmpty(s.toolVersion)
  }

  // ---------- Binding a plan and taking the binding off again ----------

  /** normalizePlannedBindings accepts exactly one binding, and it must match the plan's only step. */
  predicate BindingMatches(b: Binding, p: Plan) {
    && |p.steps| == 1
    && b.identity == p.provenance.identity && IdentityReadable(b.identity)
    && b.planId == p.planId && NonEmpty(b.planId)
    && b.planRevision == p.planRevision
    && b.ordinal == p.steps[0].ordinal && b.ordinal > 0
    && b.toolId == p.steps[0].toolId && NonEmpty(b.toolId)
    && b.toolVersion == p.steps[0].toolVersion && NonEmpty(b.toolVersion)
    && NonEmpty(b.toolRequestId)
    && IsHash(b.executionCapabilityHash)
  }

  function Bind(p: Plan, b: Binding): Plan
    requires |p.steps| == 1
  {
    p.(steps := [p.steps[0].(toolRequestId := Some(b.toolRequestId),
                             executionCapabilityHash := Some(b.executionCapabilityHash))])
  }

  function Unbind(p: Plan): Plan {
    p.(steps := seq(|p.steps|, i requires 0 <= i < |p.steps| =>
      p.steps[i].(toolRequestId := None, executionCapabilityHash := None)))
  }

  /** The step carries neither of the two fields that binding adds. */
  predicate Unbound(s: Step) {
    s.toolRequestId.None? && s.executionCapabilityHash.None?
  }

  function KeyOfBinding(b: Binding): StepKey {
    StepKey(b.ordinal, b.toolRequestId, b.toolId, b.toolVersion)
  }

  function KeyOfStep(s: Step): StepKey
    requires s.toolRequestId.Some?
  {
    StepKey(s.ordinal, s.toolRequestId.value, s.toolId, s.toolVersion)
  }

  // ---------- Observation identifiers ----------

  function WithoutPlanPrefix(planId: string): string {
    if "plan_" <= planId then planId[5..] else planId
  }

  predicate IsDigitChar(c: char) { '0' <= c <= '9' }

  /** The length of s without the digits it ends with. */
  function BeforeDigits(s: string): (n: nat)
    ensures n <= |s|
  {
    if s != "" && IsDigitChar(s[|s| - 1]) then BeforeDigits(s[..|s| - 1]) else |s|
  }

  /** Drops one trailing group of an underscore and at least one digit. */
  function WithoutOrdinal(s: string): (r: string)
    ensures r <= s
  {
    var n := BeforeDigits(s);
    if 0 < n < |s| && s[n - 1] == '_' then s[..n - 1] else s
  }

  function DigitsOf(n: nat): string {
    if n < 10 then [['0', '1', '2', '3', '4', '5', '6', '7', '8', '9'][n]]
    else DigitsOf(n / 10) + [['0', '1', '2', '3', '4', '5', '6', '7', '8', '9'][n % 10]]
  }

  function IntText(n: int): string {
    if n < 0 then "-" + DigitsOf(-n) else DigitsOf(n)
  }

  function PlanBase(planId: string): string {
    WithoutOrdinal(WithoutPlanPrefix(planId))
  }

  function ContextObservationId(planId: string): string {
    if "plan_" <= planId then "observation_" + planId[5..] else planId
  }

  function FinalObservationId(planId: string, revision: int): string {
    if revision == 0 then "observation_" + PlanBase(planId) + "_final"
    else "observation_" + PlanBase(planId) + "_final_" + IntText(revision + 1)
  }

  function RecoveryObservationId(planId: string): string {
    "observation_" + PlanBase(planId) + "_recovery"
  }

  // ---------- Payload builders ----------

  function PlanReadbackOf(eventId: string, plan: Plan): PlanReadback {
    PlanReadback(eventId, plan.provenance.identity, plan.planId, plan.planRevision)
  }

  function ContentHashes(refs: seq<PackRef>): seq<string> {
    seq(|refs|, i requires 0 <= i < |refs| => refs[i].contentHash)
  }

  function ContextObservation(plan: Plan, planEventId: string, budget: Budget): Observation {
    Observation(plan.provenance, budget, planEventId, ContextObservationId(plan.planId), plan.planId, plan.planRevision,
                PlanReadbackOf(planEventId, plan), 1, ContextVerified,
                ContentHashes(plan.provenance.contextPackRefs), None)
  }

  function RecoveryObservation(plan: Plan, planEventId: string, resultEventId: string, budget: Budget): Observation {
    Observation(plan.provenance, budget, resultEventId, RecoveryObservationId(plan.planId), plan.planId, plan.planRevision,
                PlanReadbackOf(planEventId, plan), 1, Recovery, [], None)
  }

  /** The event that caused a tool step, by the stage its gateway readback reports. */
  function ToolStepCause(r: GatewayReadbacks): Option<string> {
    var cause :=
      if r.stage == Completed then r.resultEventId
      else if r.stage == Requested then Some(r.requestEventId)
      else r.executionClaimEventId;
    if cause.Some? && NonEmpty(cause.value) then cause else None
  }

  predicate StepReadable(m: Material, key: StepKey) {
    && NonEmpty(m.allowlistEntryHash) && NonEmpty(m.sideEffectClass) && NonEmpty(m.requiredApprovalClass) && NonEmpty(m.previewHash)
    && key.ordinal > 0 && NonEmpty(key.toolRequestId) && NonEmpty(key.toolId) && NonEmpty(key.toolVersion)
  }

  function ToolStepPayload(plan: Plan, planEventId: string, budget: Budget, m: Material, key: StepKey): Option<ToolStep> {
    match ToolStepCause(m.readbacks)
    case None => None
    case Some(cause) =>
      if !StepReadable(m, key) then None
      else Some(ToolStep(plan.provenance, budget, cause, plan.planId, plan.planRevision, PlanReadbackOf(planEventId, plan), key,
                    if m.readbacks.stage == Completed then Executed else SuspendedStep, m))
  }

  function FinalObservation(plan: Plan, planEventId: string, toolEventId: string, resultHashes: seq<string>, budget: Budget, key: StepKey): Observation {
    Observation(plan.provenance, budget, toolEventId, FinalObservationId(plan.planId, plan.planRevision), plan.planId, plan.planRevision,
                PlanReadbackOf(planEventId, plan), key.ordinal, ToolResult, resultHashes, Some(key.toolRequestId))
  }

  function CompletedResult(plan: Plan, planEventId: string, finalEventId: string, final: Observation, budget: Budget, handoff: HandoffReadback): Option<LoopResult> {
    match Advance(budget, ActiveExecutionMs)
    case None => None
    case Some(spent) =>
      Some(LoopResult(plan.provenance, spent, finalEventId, plan.planId, plan.planRevision, PlanReadbackOf(planEventId, plan),
                      PlanReadback(finalEventId, final.provenance.identity, final.planId, final.planRevision),
                      HandoffRecorded(handoff.manifestHash, handoff)))
  }

  // ---------- The handoff projection ----------

  datatype Handoff = Handoff(handoffId: string, taskId: string, runId: string, details: Value)

  datatype HandoffProjection = HandoffProjection(
    taskCompleted: bool,
    diagnostics: seq<Value>,
    handoffs: seq<Handoff>,
    selectedHandoff: Handoff,
    selectedReadback: HandoffReadback)

  /** readVerifiedHandoff accepts the projection for this run. */
  predicate HandoffVerified(p: HandoffProjection, identity: Identity, authority: Value) {
    var r := p.selectedReadback;
    && p.taskCompleted && p.diagnostics == []
    && p.handoffs == [p.selectedHandoff]
    && r.verified && r.taskId == identity.taskId && r.runId == identity.runId && r.authority == authority
    && p.selectedHandoff.handoffId == r.handoffId
    && p.selectedHandoff.taskId == identity.taskId && p.selectedHandoff.runId == identity.runId
    && NonEmpty(r.taskId) && NonEmpty(r.runId) && NonEmpty(r.handoffId)
    && NonEmpty(r.recordedEventId) && NonEmpty(r.terminalRunEventId) && NonEmpty(r.taskStatusEventId)
    && IsHash(r.manifestHash) && r.diagnostics == []
  }

  // ---------- The identifiers of one plan never collide ----------

  lemma OrdinalSuffix(s: string)
    ensures var r := WithoutOrdinal(s); r == s || (|r| + 1 < |s| && s[|r|] == '_' && IsDigitChar(s[|r| + 1]))
  {
    if 0 < BeforeDigits(s) < |s| {
      DigitAfter(s);
    }
  }

  lemma {:induction false} DigitAfter(s: string)
    requires BeforeDigits(s) < |s|
    ensures IsDigitChar(s[BeforeDigits(s)])
  {
    var front := s[..|s| - 1];
    if BeforeDigits(front) < |front| {
      DigitAfter(front);
    }
  }

  lemma CancelPrefix(p: string, a: string, b: string)
    requires p + a == p + b
    ensures a == b
  {
    assert (p + a)[|p|..] == a && (p + b)[|p|..] == b;
  }

  /** A text that continues its base with an underscore and a digit, or not at all, is not the base with another ending. */
  lemma EndingsDiffer(base: string, rest: string, ending: string)
    requires rest == base || (|base| + 1 < |rest| && IsDigitChar(rest[|base| + 1]))
    requires |ending| > 1 && !IsDigitChar(ending[1])
    ensures rest != base + ending
  {
    assert (base + ending)[|base| + 1] == ending[1];
  }

  /**
   The observation identifiers the loop derives from one plan are pairwise
   different, so the store never takes one of them for a repetition of another.
   */
  lemma ObservationIdsDiffer(planId: string, revision: int)
    requires "plan_" <= planId
    ensures ContextObservationId(planId) != FinalObservationId(planId, revision)
    ensures ContextObservationId(planId) != RecoveryObservationId(planId)
    ensures FinalObservationId(planId, revision) != RecoveryObservationId(planId)
  {
    var rest, base := planId[5..], PlanBase(planId);
    var final := if revision == 0 then "_final" else "_final_" + IntText(revision + 1);
    OrdinalSuffix(rest);
    EndingsDiffer(base, rest, final);
    EndingsDiffer(base, rest, "_recovery");
    IdsByEnding(planId, revision, final);
    if "observation_" + rest == "observation_" + (base + final) { CancelPrefix("observation_", rest, base + final); }
    if "observation_" + rest == "observation_" + (base + "_recovery") { CancelPrefix("observation_", rest, base + "_recovery"); }
    if "observation_" + (base + final) == "observation_" + (base + "_recovery") {
      CancelPrefix("observation_", base + final, base + "_recovery");
      CancelPrefix(base, final, "_recovery");
    }
  }

  lemma IdsByEnding(planId: string, revision: int, final: string)
    requires "plan_" <= planId && final == if revision == 0 then "_final" else "_final_" + IntText(revision + 1)
    ensures ContextObservationId(planId) == "observation_" + planId[5..]
    ensures FinalObservationId(planId, revision) == "observation_" + (PlanBase(planId) + final)
    ensures RecoveryObservationId(planId) == "observation_" + (PlanBase(planId) + "_recovery")
  {
    Sequences.Assoc("observation_", PlanBase(planId), final);
    Sequences.Assoc("observation_", PlanBase(planId), "_recovery");
    Sequences.Assoc("observation_" + PlanBase(planId), "_final_", IntText(revision + 1));
  }
}
