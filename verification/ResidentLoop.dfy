/**
 The resident bounded loop as a state machine. One loop instance holds a
 one-use currentness token and at most one call; a call is a chain of awaited
 port requests, each followed by a reverification that spends the token. The
 environment answers requests, other writers append to the same stream, and
 the process may stop at every await and be restarted.
 */
module ResidentLoop {
  import opened CanonicalJson
  import opened ResidentBudget
  import opened ResidentRecords
  import opened ResidentReplay

  type Token = nat

  /** What a loop instance is issued with; accepts is the verdict of the event and sequence validators. */
  datatype Context = Context(identity: Identity, posture: Value, accepts: seq<Event> -> bool)

  // ---------- Values that ports return ----------

  /** A gateway record as issued; the options are the fields that only some stages carry. */
  datatype Issued = Issued(
    stage: Stage,
    authorization: Authorization,
    locator: Binding,
    executionCapabilityHash: string,
    requestEventId: string,
    decisionEventId: Option<string>,
    approvedBy: Option<string>,
    approvedPreviewHash: Option<string>,
    executionClaimEventId: Option<string>,
    category: Option<string>,
    outcomeReceiptEventId: Option<string>,
    resultEventId: Option<string>)

  datatype Candidate =
    | Initial(plan: Plan, posture: Value, constraints: Value, assessedAt: Option<string>)
    | Replan(priorPlan: Event, readback: seq<Event>, observation: Event, plan: Plan)

  datatype ResumeInput = ResumeInput(taskId: string, attemptId: string, runId: string, checkpointKey: string, plan: Plan)

  datatype Reply =
    | Rejected
    | Malformed
    | ReplayReply(identity: Identity, events: seq<Event>)
    | CandidateReply(candidate: Candidate)
    | BindingsReply(bindings: seq<Binding>)
    | EventReply(event: Event)
    | IssuedReply(issued: Issued, material: Option<Material>)
    | HandoffReply(projection: HandoffProjection)

  // ---------- Requests ----------

  datatype Slot = RecoverySlot | PlanSlot | ContextSlot | ToolSlot | FinalSlot | ResultSlot

  datatype RereadPurpose = AfterDecision | AfterExecution | AfterSuspension

  datatype Port =
    | ReadReplay
    | CreateCandidate
    | PrepareBindings
    | Append(slot: Slot)
    | ReadBack(slot: Slot)
    | RequestTool
    | ReadDecision
    | Reread(purpose: RereadPurpose)
    | ExecuteTool
    | ReadHandoff(replayed: bool)

  datatype Mode = Advancing | Resuming

  /** The local variables of a call. */
  datatype Locals = Locals(
    candidate: Candidate,
    proposed: Plan,
    replay: seq<Event>,
    plan: Plan,
    binding: Binding,
    pending: Payload,
    event: Event,
    recovery: Event,
    planEvent: Event,
    contextEvent: Event,
    toolEvent: Event,
    finalEvent: Event,
    requested: Issued,
    approved: Option<Issued>,
    current: Issued,
    material: Material)

  const NOBODY := Identity("", "", "", "", "")
  const NO_BUDGET := Budget(map[], map[], map[], map[])
  const NO_PROVENANCE := Provenance(NOBODY, "", Null, Null, Null, [], [], "")
  const NO_PLAN := Plan(NO_PROVENANCE, "", NO_BUDGET, "", 0, [], Null)
  const NO_BINDING := Binding(NOBODY, "", 0, 0, "", "", "", "")
  const NO_EVENT := Event("", 0, PlanRecorded(NO_PLAN), Null)
  const NOT_ISSUED := Issued(Requested, AutomaticPolicy, NO_BINDING, "", "", None, None, None, None, None, None, None)
  const NO_MATERIAL :=
    Material(GatewayReadbacks(Requested, AutomaticPolicy, "", None, None, Null), "", "", "", "", [], [])

  function StartLocals(candidate: Candidate, proposed: Plan): Locals {
    Locals(candidate, proposed, [], NO_PLAN, NO_BINDING, PlanRecorded(NO_PLAN), NO_EVENT, NO_EVENT, NO_EVENT, NO_EVENT,
           NO_EVENT, NO_EVENT, NOT_ISSUED, None, NOT_ISSUED, NO_MATERIAL)
  }

  // ---------- Checks ----------

  predicate IsPlanId(s: string) {
    |s| > 5 && s[..5] == "plan_" && forall i | 5 <= i < |s| :: IsIdChar(s[i])
  }

  predicate CandidateWellFormed(c: Candidate) {
    IsPlanId(c.plan.planId) && Valid(c.plan.budget)
  }

  predicate AdvanceAdmissible(ctx: Context, c: Candidate) {
    && c.Initial? && CandidateWellFormed(c)
    && c.plan.provenance.identity == ctx.identity && IdentityReadable(ctx.identity)
    && c.posture == ctx.posture
  }

  predicate ResumeAdmissible(ctx: Context, i: ResumeInput) {
    && i.taskId == ctx.identity.taskId && i.attemptId == ctx.identity.attemptId && i.runId == ctx.identity.runId
    && i.checkpointKey == "resident-suspension-" + ctx.identity.taskId
  }

  predicate EventWellFormed(e: Event) {
    IsEventId(e.id) && e.sequence > 0
  }

  predicate ReplayAdmissible(ctx: Context, identity: Identity, events: seq<Event>) {
    && identity == ctx.identity
    && forall e | e in events :: EventWellFormed(e) && ProvenanceOf(e.payload).identity == ctx.identity
  }

  predicate ApprovalPresent(i: Issued) {
    i.decisionEventId.Some? && i.approvedBy.Some? && i.approvedPreviewHash.Some?
  }

  predicate ApprovalAbsent(i: Issued) {
    i.decisionEventId.None? && i.approvedBy.None? && i.approvedPreviewHash.None?
  }

  /** The issued record carries exactly the keys its stage and authorization allow. */
  predicate ExactIssuedKeys(i: Issued) {
    match i.stage
    case HumanApproved =>
      && ApprovalPresent(i) && i.executionClaimEventId.None? && i.category.None?
      && i.outcomeReceiptEventId.None? && i.resultEventId.None?
    case Claimed =>
      && (if i.authorization == HumanApproval then ApprovalPresent(i) else ApprovalAbsent(i))
      && i.executionClaimEventId.Some? && i.category.Some? && i.outcomeReceiptEventId.None? && i.resultEventId.None?
    case Completed =>
      && (if i.authorization == HumanApproval then ApprovalPresent(i) else ApprovalAbsent(i))
      && i.executionClaimEventId.Some? && i.category.None? && i.outcomeReceiptEventId.Some? && i.resultEventId.Some?
    case _ =>
      && ApprovalAbsent(i) && i.executionClaimEventId.None? && i.category.None?
      && i.outcomeReceiptEventId.None? && i.resultEventId.None?
  }

  /** validateCanonicalMaterial. */
  predicate MaterialValid(m: Material, i: Issued, b: Binding) {
    && IsHash(m.allowlistEntryHash) && IsHash(m.previewHash)
    && (forall h | h in m.inputArtifactHashes :: IsHash(h))
    && (forall h | h in m.resultArtifactHashes :: IsHash(h))
    && m.readbacks.stage == i.stage
    && m.readbacks.authorization == i.authorization
    && m.readbacks.requestEventId == i.requestEventId && NonEmpty(i.requestEventId)
    && i.locator == b
    && i.executionCapabilityHash == b.executionCapabilityHash
    && ExactIssuedKeys(i)
  }

  /** validateSuspendedReplay, with the locator that the suspension must carry. */
  predicate SuspendedReplay(ctx: Context, events: seq<Event>) {
    && |events| == 6
    && events[0].payload.PlanRecorded?
    && events[1].payload.ObservationRecorded?
    && events[2].payload.ToolStepRecorded?
    && events[3].payload.ObservationRecorded?
    && events[4].payload.LoopSuspended?
    && events[5].payload.ResultRecorded?
    && ChainAccepted(ctx.accepts(events), events)
    && var s, r := events[4].payload.suspension, events[5].payload.result;
    && (s.category == ApprovalRequired || s.category == EffectOutcomeUnknown)
    && r.body.Resumable? && r.body.category == s.category && r.body.checkpointEventId == events[4].id
    && s.locator.Some?
  }

  predicate ReplanIdentityMatches(ctx: Context, proposed: Plan, prior: Plan) {
    proposed.provenance.identity == ctx.identity && proposed.planRevision == prior.planRevision + 1
  }

  // ---------- What a call does next ----------

  /** Ask a port, hand the checkpoint to the authority, return a result event, or throw. */
  datatype Move = Ask(port: Port, locals: Locals) | Suspend | Return(event: Event) | Throw

  function AppendNext(slot: Slot, payload: Payload, l: Locals): Move {
    Ask(Append(slot), l.(pending := payload))
  }

  /** The two verdicts are whether the events complete an advance, and whether they can be resumed. */
  function ReplayMove(mode: Mode, ready: bool, resumable: bool, l: Locals): Move {
    if mode == Advancing then
      if l.replay == [] then Ask(CreateCandidate, l)
      else if ready then Ask(ReadHandoff(true), l)
      else Throw
    else if resumable then Ask(Reread(AfterSuspension), l)
    else Throw
  }

  predicate ReplayResumable(ctx: Context, proposed: Plan, events: seq<Event>) {
    SuspendedReplay(ctx, events) && ReplanIdentityMatches(ctx, proposed, events[0].payload.plan)
  }

  function AfterReplay(ctx: Context, mode: Mode, events: seq<Event>, l: Locals): Move {
    ReplayMove(mode, ReplayReady(ctx.accepts(events), events, l.proposed), ReplayResumable(ctx, l.proposed, events),
               l.(replay := events))
  }

  function AfterBindings(mode: Mode, bindings: seq<Binding>, l: Locals): Move {
    if |bindings| != 1 || !BindingMatches(bindings[0], l.proposed) then Throw
    else
      var plan := Bind(l.proposed, bindings[0]);
      var l := l.(plan := plan, binding := bindings[0]);
      if mode == Resuming && Advance(BudgetOf(l.recovery.payload), PlanRevisions) != Some(plan.budget) then Throw
      else AppendNext(PlanSlot, PlanRecorded(plan), l)
  }

  function AppendToolStep(l: Locals): Move {
    match Advance(BudgetOf(l.contextEvent.payload), ToolSteps)
    case None => Throw
    case Some(budget) =>
      match ToolStepPayload(l.plan, l.planEvent.id, budget, l.material, KeyOfBinding(l.binding))
      case None => Throw
      case Some(step) => AppendNext(ToolSlot, ToolStepRecorded(step), l)
  }

  function AfterPlanEvent(e: Event, l: Locals): Move {
    match Advance(l.plan.budget, ObservationRecords)
    case None => Throw
    case Some(budget) =>
      if !PlanReadable(l.plan) then Throw
      else AppendNext(ContextSlot, ObservationRecorded(ContextObservation(l.plan, e.id, budget)), l.(planEvent := e))
  }

  function AfterToolEvent(e: Event, l: Locals): Move {
    match Advance(BudgetOf(e.payload), ObservationRecords)
    case None => Throw
    case Some(budget) =>
      var final := FinalObservation(l.plan, l.planEvent.id, e.id, l.material.resultArtifactHashes, budget, KeyOfBinding(l.binding));
      AppendNext(FinalSlot, ObservationRecorded(final), l.(toolEvent := e))
  }

  /** The event of a slot has been appended and read back as it was written. */
  function AfterSlot(mode: Mode, slot: Slot, e: Event, l: Locals): Move {
    match slot
    case RecoverySlot =>
      if l.replay == [] then Throw
      else Ask(CreateCandidate, l.(recovery := e, candidate := Replan(l.replay[0], l.replay + [e], e, l.proposed)))
    case PlanSlot => AfterPlanEvent(e, l)
    case ContextSlot => Ask(RequestTool, l.(contextEvent := e))
    case ToolSlot => AfterToolEvent(e, l)
    case FinalSlot =>
      if l.current.stage == Completed then Ask(ReadHandoff(false), l.(finalEvent := e))
      else if mode == Advancing && l.candidate.Initial? && l.candidate.assessedAt.Some? then Suspend
      else Throw
    case ResultSlot => Return(e)
  }

  function AfterHandoff(replayed: bool, p: HandoffProjection, l: Locals): Move {
    if replayed then
      if FiveEventShape(l.replay) && ReplayOutcome(l.replay, p).Some? then Return(l.replay[4]) else Throw
    else if !l.finalEvent.payload.ObservationRecorded? then Throw
    else if !HandoffVerified(p, l.plan.provenance.identity, l.plan.provenance.authority) then Throw
    else
      match CompletedResult(l.plan, l.planEvent.id, l.finalEvent.id, l.finalEvent.payload.observation,
                            BudgetOf(l.finalEvent.payload), p.selectedReadback)
      case None => Throw
      case Some(result) => AppendNext(ResultSlot, ResultRecorded(result), l)
  }

  function AfterRequest(mode: Mode, i: Issued, m: Material, l: Locals): Move {
    var l := l.(requested := i, current := i, material := m);
    if !MaterialValid(m, i, l.binding) then Throw
    else if mode == Resuming then
      if i.stage == Requested then Ask(ExecuteTool, l) else Throw
    else if i.authorization == HumanApproval then Ask(ReadDecision, l)
    else if i.authorization == AutomaticPolicy then Ask(ExecuteTool, l)
    else Throw
  }

  /** A gateway record that must be at the given stage becomes the current one. */
  function AdoptIssued(stage: Stage, i: Issued, m: Material, l: Locals): Move {
    if i.stage == stage && MaterialValid(m, i, l.binding) then AppendToolStep(l.(current := i, material := m)) else Throw
  }

  function AppendRecovery(prior: Plan, planEventId: string, result: Event, l: Locals): Move {
    match Advance(BudgetOf(result.payload), ObservationRecords)
    case None => Throw
    case Some(budget) =>
      if !PlanReadable(prior) then Throw
      else AppendNext(RecoverySlot, ObservationRecorded(RecoveryObservation(prior, planEventId, result.id, budget)), l)
  }

  function AfterSuspensionReread(i: Issued, m: Material, l: Locals): Move {
    if |l.replay| != 6 || !l.replay[4].payload.LoopSuspended? || l.replay[4].payload.suspension.locator.None?
       || !l.replay[0].payload.PlanRecorded? then Throw
    else if i.stage != Claimed || !MaterialValid(m, i, l.replay[4].payload.suspension.locator.value) then Throw
    else AppendRecovery(l.replay[0].payload.plan, l.replay[0].id, l.replay[5], l)
  }

  /** Only a failing decision or execution of an advance is caught; every other rejection ends the call. */
  predicate Caught(mode: Mode, port: Port) {
    mode == Advancing && (port == ReadDecision || port == ExecuteTool)
  }

  function AfterIssued(mode: Mode, port: Port, i: Issued, m: Material, l: Locals): Move {
    match port
    case RequestTool => AfterRequest(mode, i, m, l)
    case ExecuteTool => AdoptIssued(Completed, i, m, l)
    case Reread(AfterDecision) => AdoptIssued(Requested, i, m, l)
    case Reread(AfterExecution) => AdoptIssued(Claimed, i, m, l)
    case Reread(AfterSuspension) => AfterSuspensionReread(i, m, l)
    case _ => Throw
  }

  function AfterEvent(mode: Mode, port: Port, e: Event, l: Locals): Move {
    if !EventWellFormed(e) then Throw
    else
      match port
      case Append(slot) => if e.payload == l.pending then Ask(ReadBack(slot), l.(event := e)) else Throw
      case ReadBack(slot) => if e == l.event then AfterSlot(mode, slot, e, l) else Throw
      case _ => Throw
  }

  /** The continuation of a call once the answer of a port has been reverified. */
  function After(ctx: Context, mode: Mode, port: Port, reply: Reply, l: Locals): Move {
    match reply
    case Rejected =>
      if !Caught(mode, port) then Throw
      else Ask(Reread(if port == ReadDecision then AfterDecision else AfterExecution), l)
    case ReplayReply(identity, events) =>
      if port == ReadReplay && ReplayAdmissible(ctx, identity, events) then AfterReplay(ctx, mode, events, l) else Throw
    case CandidateReply(c) =>
      if port == CreateCandidate && CandidateWellFormed(c) && c == l.candidate && BindingInputReadable(l.proposed)
      then Ask(PrepareBindings, l) else Throw
    case BindingsReply(bs) => if port == PrepareBindings then AfterBindings(mode, bs, l) else Throw
    case EventReply(e) => AfterEvent(mode, port, e, l)
    case IssuedReply(i, m) =>
      if port == ReadDecision then
        if i.stage == HumanApproved then Ask(ExecuteTool, l.(approved := Some(i))) else Throw
      else if m.Some? then AfterIssued(mode, port, i, m.value, l)
      else Throw
    case HandoffReply(p) => if port.ReadHandoff? then AfterHandoff(port.replayed, p, l) else Throw
    case Malformed => Throw
  }

  // ---------- The world ----------

  datatype Await =
    | AtPort(port: Port, answer: Option<Reply>)
    | AtReverify(port: Port, reply: Reply)
    | AtSuspend
    | AtRecover
    | AtReclaim

  datatype Call = Idle | Active(mode: Mode, await: Await, locals: Locals)

  /** The mutable part of a loop instance; it is in flight exactly while a call is active. */
  datatype Loop = Loop(token: Option<Token>, call: Call)

  datatype Outcome = CompletedWith(event: Event) | SuspendedCall | FailedCall

  /** What an observer of the loop sees. */
  datatype Act =
    | Called(port: Port)
    | RejectedBy(port: Port)
    | Presented(token: Token)
    | Granted(token: Token)
    | Refused
    | PresentedToSuspend(token: Token)
    | ResumeBegun
    | Reclaimed(token: Token)
    | Ended(outcome: Outcome)
    | Restarted(token: Token)

  /** One attempt to execute a tool: the call's mode and the plan revision it executes. */
  datatype Attempt = Attempt(mode: Mode, revision: int)

  datatype World = World(loop: Loop, ledger: seq<Event>, issued: set<Token>, log: seq<Act>, attempts: seq<Attempt>)

  datatype StepLabel =
    | BeginAdvance(candidate: Candidate)
    | BeginResume(input: ResumeInput)
    | Answer(reply: Reply, appended: seq<Event>)
    | Deliver
    | Reverified(next: Option<Token>)
    | SuspendSettled(released: bool)
    | RecoverSettled(recovered: bool)
    | ReclaimSettled(next: Option<Token>)
    | Crash(restart: Token)
    | OtherWriter(appended: seq<Event>)

  /** What the environment may answer: appends may do anything to the end of the stream, reads are faithful. */
  predicate PortMayAnswer(ctx: Context, port: Port, l: Locals, ledger: seq<Event>, reply: Reply, appended: seq<Event>) {
    match port
    case ReadReplay => appended == [] && (reply.ReplayReply? ==> reply == ReplayReply(ctx.identity, ledger))
    case ReadBack(_) => appended == [] && (reply.EventReply? ==> reply.event in ledger && reply.event.id == l.event.id)
    case Append(_) => true
    case _ => appended == []
  }

  predicate Fresh(w: World, next: Option<Token>) {
    next.Some? ==> next.value !in w.issued
  }

  predicate Enabled(ctx: Context, w: World, s: StepLabel) {
    match s
    case BeginAdvance(_) => true
    case BeginResume(_) => true
    case Answer(reply, appended) =>
      && w.loop.call.Active? && w.loop.call.await.AtPort? && w.loop.call.await.answer.None?
      && PortMayAnswer(ctx, w.loop.call.await.port, w.loop.call.locals, w.ledger, reply, appended)
    case Deliver => w.loop.call.Active? && w.loop.call.await.AtPort? && w.loop.call.await.answer.Some?
    case Reverified(next) => w.loop.call.Active? && w.loop.call.await.AtReverify? && Fresh(w, next)
    case SuspendSettled(_) => w.loop.call.Active? && w.loop.call.await.AtSuspend?
    case RecoverSettled(_) => w.loop.call.Active? && w.loop.call.await.AtRecover?
    case ReclaimSettled(next) => w.loop.call.Active? && w.loop.call.await.AtReclaim? && Fresh(w, next)
    case Crash(restart) => restart !in w.issued
    case OtherWriter(_) => true
  }

  function End(w: World, token: Option<Token>, acts: seq<Act>, outcome: Outcome): World {
    w.(loop := Loop(token, Idle), log := w.log + acts + [Ended(outcome)])
  }

  /** Ask a port: the request leaves the loop, which then waits for it. */
  function AskPort(w: World, token: Option<Token>, acts: seq<Act>, mode: Mode, port: Port, l: Locals): World {
    w.(loop := Loop(token, Active(mode, AtPort(port, None), l)),
       log := w.log + acts + [Called(port)],
       attempts := if port == ExecuteTool then w.attempts + [Attempt(mode, l.plan.planRevision)] else w.attempts)
  }

  function Continue(ctx: Context, w: World, next: Token): World
    requires w.loop.call.Active? && w.loop.call.await.AtReverify?
  {
    var call := w.loop.call;
    var w := w.(issued := w.issued + {next});
    match After(ctx, call.mode, call.await.port, call.await.reply, call.locals)
    case Ask(port, l) => AskPort(w, Some(next), [Granted(next)], call.mode, port, l)
    case Suspend =>
      w.(loop := Loop(None, Active(call.mode, AtSuspend, call.locals)), log := w.log + [Granted(next), PresentedToSuspend(next)])
    case Return(e) => End(w, Some(next), [Granted(next)], CompletedWith(e))
    case Throw => End(w, Some(next), [Granted(next)], FailedCall)
  }

  function DeliverReply(w: World): World
    requires w.loop.call.Active? && w.loop.call.await.AtPort? && w.loop.call.await.answer.Some?
  {
    var call := w.loop.call;
    var port, reply := call.await.port, call.await.answer.value;
    var acts := if reply.Rejected? then [RejectedBy(port)] else [];
    if reply.Rejected? && !Caught(call.mode, port) then End(w, w.loop.token, acts, FailedCall)
    else
      match w.loop.token
      case None => End(w, None, acts, FailedCall)
      case Some(token) =>
        w.(loop := Loop(None, Active(call.mode, AtReverify(port, reply), call.locals)),
           log := w.log + acts + [Presented(token)])
  }

  function Apply(ctx: Context, w: World, s: StepLabel): World
    requires Enabled(ctx, w, s)
  {
    match s
    case BeginAdvance(c) =>
      if w.loop.call.Active? then w
      else if w.loop.token.None? || !AdvanceAdmissible(ctx, c) then End(w, w.loop.token, [], FailedCall)
      else AskPort(w, w.loop.token, [], Advancing, ReadReplay, StartLocals(c, c.plan))
    case BeginResume(i) =>
      if w.loop.call.Active? then w
      else if !ResumeAdmissible(ctx, i) then End(w, w.loop.token, [], FailedCall)
      else
        w.(loop := Loop(None, Active(Resuming, AtRecover, StartLocals(Initial(i.plan, Null, Null, None), i.plan))),
           log := w.log + [ResumeBegun])
    case Answer(reply, appended) =>
      w.(loop := w.loop.(call := w.loop.call.(await := AtPort(w.loop.call.await.port, Some(reply)))),
         ledger := w.ledger + appended)
    case Deliver => DeliverReply(w)
    case Reverified(Some(next)) => Continue(ctx, w, next)
    case Reverified(None) => End(w, None, [Refused], FailedCall)
    case SuspendSettled(released) => End(w, None, [], if released then SuspendedCall else FailedCall)
    case RecoverSettled(recovered) =>
      if recovered then w.(loop := w.loop.(call := w.loop.call.(await := AtReclaim))) else End(w, None, [], FailedCall)
    case ReclaimSettled(Some(next)) =>
      AskPort(w.(issued := w.issued + {next}), Some(next), [Reclaimed(next)], Resuming, ReadReplay, w.loop.call.locals)
    case ReclaimSettled(None) => End(w, None, [], FailedCall)
    case Crash(restart) => w.(loop := Loop(Some(restart), Idle), issued := w.issued + {restart}, log := w.log + [Restarted(restart)])
    case OtherWriter(appended) => w.(ledger := w.ledger + appended)
  }

  function Start(token: Token, ledger: seq<Event>): World {
    World(Loop(Some(token), Idle), ledger, {token}, [], [])
  }

  /** A run: every step is enabled where it happens. */
  ghost predicate Run(ctx: Context, ws: seq<World>, ss: seq<StepLabel>) {
    && |ws| == |ss| + 1
    && (exists token, ledger :: ws[0] == Start(token, ledger))
    && forall i | 0 <= i < |ss| :: Enabled(ctx, ws[i], ss[i]) && ws[i + 1] == Apply(ctx, ws[i], ss[i])
  }
}
