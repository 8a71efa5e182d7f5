/**
 When a resident loop executes a tool: never in an advance that needs a human
 decision without having read one, and only on a gateway record whose material
 agrees with the binding. What a tool step records is backed the same way.
 */
module ResidentLoopAuthorization {
  import opened CanonicalJson
  import opened ResidentRecords
  import opened ResidentReplay
  import opened ResidentLoop
  import Completion = ResidentLoopCompletion

  /** The gateway's answer to the request, checked against the binding. */
  predicate RequestChecked(m: Material, requested: Issued, b: Binding) {
    MaterialValid(m, requested, b)
  }

  predicate DecisionDue(requested: Issued) {
    requested.authorization == HumanApproval
  }

  /** The tool may run: by policy, or because a human decision was read and approves it. */
  predicate MayExecute(mode: Mode, requested: Issued, approved: Option<Issued>) {
    if mode == Resuming then requested.stage == Requested
    else
      requested.authorization == AutomaticPolicy ||
      (requested.authorization == HumanApproval && approved.Some? && approved.value.stage == HumanApproved)
  }

  /** The current gateway record and its material agree with the binding. */
  predicate Backed(m: Material, current: Issued, b: Binding) {
    MaterialValid(m, current, b)
  }

  predicate AfterExecutionPort(port: Port) {
    port == Append(ToolSlot) || port == ReadBack(ToolSlot) || port == Append(FinalSlot) || port == ReadBack(FinalSlot)
    || port == ReadHandoff(false) || port == Append(ResultSlot) || port == ReadBack(ResultSlot)
  }

  predicate PortAuthorized(mode: Mode, port: Port, l: Locals) {
    && (port == ReadDecision ==> mode == Advancing && DecisionDue(l.requested) && RequestChecked(l.material, l.requested, l.binding))
    && (port == ExecuteTool ==> MayExecute(mode, l.requested, l.approved) && RequestChecked(l.material, l.requested, l.binding))
    && (AfterExecutionPort(port) ==> Backed(l.material, l.current, l.binding))
  }

  predicate MoveAuthorized(mode: Mode, m: Move) {
    m.Ask? ==> PortAuthorized(mode, m.port, m.locals)
  }

  lemma RequestMove(mode: Mode, i: Issued, m: Material, l: Locals)
    ensures MoveAuthorized(mode, AfterRequest(mode, i, m, l))
  {
  }

  lemma AdoptMove(mode: Mode, stage: Stage, i: Issued, m: Material, l: Locals)
    ensures MoveAuthorized(mode, AdoptIssued(stage, i, m, l))
  {
  }

  lemma SuspensionMove(mode: Mode, i: Issued, m: Material, l: Locals)
    ensures MoveAuthorized(mode, AfterSuspensionReread(i, m, l))
  {
  }

  lemma IssuedMove(mode: Mode, port: Port, i: Issued, m: Material, l: Locals)
    ensures MoveAuthorized(mode, AfterIssued(mode, port, i, m, l))
  {
    match port
    case RequestTool => RequestMove(mode, i, m, l);
    case ExecuteTool => AdoptMove(mode, Completed, i, m, l);
    case Reread(AfterDecision) => AdoptMove(mode, Requested, i, m, l);
    case Reread(AfterExecution) => AdoptMove(mode, Claimed, i, m, l);
    case Reread(AfterSuspension) => SuspensionMove(mode, i, m, l);
    case _ =>
  }

  lemma ToolEventMove(mode: Mode, e: Event, l: Locals)
    requires Backed(l.material, l.current, l.binding)
    ensures MoveAuthorized(mode, AfterToolEvent(e, l))
  {
  }

  lemma PlanEventMove(mode: Mode, e: Event, l: Locals)
    ensures MoveAuthorized(mode, AfterPlanEvent(e, l))
  {
  }

  lemma SlotMove(mode: Mode, slot: Slot, e: Event, l: Locals)
    requires PortAuthorized(mode, ReadBack(slot), l)
    ensures MoveAuthorized(mode, AfterSlot(mode, slot, e, l))
  {
    match slot
    case PlanSlot => PlanEventMove(mode, e, l);
    case ToolSlot => ToolEventMove(mode, e, l);
    case _ =>
  }

  lemma EventMove(mode: Mode, port: Port, e: Event, l: Locals)
    requires PortAuthorized(mode, port, l)
    ensures MoveAuthorized(mode, AfterEvent(mode, port, e, l))
  {
    if port.ReadBack? { SlotMove(mode, port.slot, e, l); }
  }

  lemma HandoffMove(mode: Mode, replayed: bool, p: HandoffProjection, l: Locals)
    requires PortAuthorized(mode, ReadHandoff(replayed), l)
    ensures MoveAuthorized(mode, AfterHandoff(replayed, p, l))
  {
  }

  lemma BindingsMove(mode: Mode, bs: seq<Binding>, l: Locals)
    ensures MoveAuthorized(mode, AfterBindings(mode, bs, l))
  {
  }

  lemma ReplayMoves(mode: Mode, ready: bool, resumable: bool, l: Locals)
    ensures MoveAuthorized(mode, ReplayMove(mode, ready, resumable, l))
  {
  }

  /** A human-approved record is what a decision read must bring. */
  lemma DecisionMove(mode: Mode, i: Issued, l: Locals)
    requires PortAuthorized(mode, ReadDecision, l) && i.stage == HumanApproved
    ensures MoveAuthorized(mode, Ask(ExecuteTool, l.(approved := Some(i))))
  {
  }

  lemma AfterIsAuthorized(ctx: Context, mode: Mode, port: Port, reply: Reply, l: Locals)
    requires PortAuthorized(mode, port, l)
    ensures MoveAuthorized(mode, After(ctx, mode, port, reply, l))
  {
    match reply
    case ReplayReply(_, events) =>
      ReplayMoves(mode, ReplayReady(ctx.accepts(events), events, l.proposed), ReplayResumable(ctx, l.proposed, events), l.(replay := events));
    case BindingsReply(bs) => BindingsMove(mode, bs, l);
    case EventReply(e) => EventMove(mode, port, e, l);
    case IssuedReply(i, m) =>
      if port == ReadDecision {
        if i.stage == HumanApproved { DecisionMove(mode, i, l); }
      } else if m.Some? {
        IssuedMove(mode, port, i, m.value, l);
      }
    case HandoffReply(p) => if port.ReadHandoff? { HandoffMove(mode, port.replayed, p, l); }
    case _ =>
  }

  predicate CallAuthorized(call: Call) {
    match call
    case Active(mode, AtPort(port, _), l) => PortAuthorized(mode, port, l)
    case Active(mode, AtReverify(port, _), l) => PortAuthorized(mode, port, l)
    case _ => true
  }

  lemma StepKeepsAuthorization(ctx: Context, w: World, s: StepLabel)
    requires CallAuthorized(w.loop.call) && Enabled(ctx, w, s)
    ensures CallAuthorized(Apply(ctx, w, s).loop.call)
  {
    if s.Reverified? && s.next.Some? {
      var call := w.loop.call;
      AfterIsAuthorized(ctx, call.mode, call.await.port, call.await.reply, call.locals);
    }
  }

  lemma {:induction false} RunKeepsAuthorization(ctx: Context, ws: seq<World>, ss: seq<StepLabel>, n: nat)
    requires Run(ctx, ws, ss) && n < |ws|
    ensures CallAuthorized(ws[n].loop.call)
    decreases n
  {
    if n > 0 {
      RunKeepsAuthorization(ctx, ws, ss, n - 1);
      StepKeepsAuthorization(ctx, ws[n - 1], ss[n - 1]);
    }
  }

  // ---------- Main results ----------

  /**
   Whenever the tool is being run, the gateway's record of the request agrees
   with the binding, and: in an advance the request is automatic by policy, or it
   needs a human decision and an approving one has been read; in a resume the
   record is a fresh request.
   */
  lemma ExecutionIsAuthorized(ctx: Context, ws: seq<World>, ss: seq<StepLabel>, n: nat)
    requires Run(ctx, ws, ss) && n < |ws|
    requires ws[n].loop.call.Active? && ws[n].loop.call.await.AtPort? && ws[n].loop.call.await.port == ExecuteTool
    ensures var l := ws[n].loop.call.locals;
            && MaterialValid(l.material, l.requested, l.binding)
            && (ws[n].loop.call.mode == Advancing ==>
                  l.requested.authorization == AutomaticPolicy ||
                  (l.requested.authorization == HumanApproval && l.approved.Some? && l.approved.value.stage == HumanApproved))
            && (ws[n].loop.call.mode == Resuming ==> l.requested.stage == Requested)
  {
    RunKeepsAuthorization(ctx, ws, ss, n);
  }

  /** A completed call returns a result whose tool step is backed by a completed gateway record for its own binding. */
  lemma CompletedResultIsBacked(ctx: Context, ws: seq<World>, ss: seq<StepLabel>, n: nat)
    requires Run(ctx, ws, ss) && n < |ss| && Completion.Completing(ws[n], ss[n])
    ensures var l := ws[n].loop.call.locals;
            && MaterialValid(l.material, l.current, l.binding) && l.current.stage == Completed
            && l.toolEvent.payload.ToolStepRecorded? && l.toolEvent.payload.toolStep.material == l.material
  {
    BackedAtTheEnd(ctx, ws, ss, n);
    Completion.CompletingResult(ctx, ws, ss, n);
    ToolStepOfSegment(ws[n].loop.call.locals, ws[n].loop.call.locals.event.payload);
  }

  lemma BackedAtTheEnd(ctx: Context, ws: seq<World>, ss: seq<StepLabel>, n: nat)
    requires Run(ctx, ws, ss) && n < |ss| && Completion.Completing(ws[n], ss[n])
    ensures var l := ws[n].loop.call.locals; MaterialValid(l.material, l.current, l.binding)
  {
    RunKeepsAuthorization(ctx, ws, ss, n);
  }

  lemma ToolStepOfSegment(l: Locals, p: Payload)
    requires Completion.ResultOk(l, p)
    ensures l.current.stage == Completed
    ensures l.toolEvent.payload.ToolStepRecorded? && l.toolEvent.payload.toolStep.material == l.material
  {
  }
}
