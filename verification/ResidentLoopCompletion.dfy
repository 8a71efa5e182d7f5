/**
 What a completed call of a resident loop has written: every payload is the one
 its builder makes, every event is durable, the budgets form one chain, and a
 second advance with the same candidate replays the result without any append
 or gateway request. A failed execution never ends in a completed call.
 */
module ResidentLoopCompletion {
  import opened CanonicalJson
  import opened ResidentBudget
  import opened ResidentRecords
  import opened ResidentReplay
  import opened ResidentLoop
  import Sequences

  // ---------- The payloads of a segment, in order ----------

  predicate Planned(proposed: Plan, b: Binding, plan: Plan, planEvent: Event) {
    BoundOk(proposed, b, plan) && planEvent.payload == PlanRecorded(plan)
  }

  predicate ContextWritten(proposed: Plan, b: Binding, plan: Plan, planEvent: Event, p: Payload) {
    Planned(proposed, b, plan, planEvent) && ContextPart(plan, planEvent.id, p)
  }

  predicate ToolWritten(proposed: Plan, b: Binding, plan: Plan, planEvent: Event, contextEvent: Event, m: Material, stage: Stage, p: Payload) {
    && ContextWritten(proposed, b, plan, planEvent, contextEvent.payload)
    && ToolPart(plan, planEvent.id, BudgetOf(contextEvent.payload), m, stage, KeyOfBinding(b), p)
  }

  predicate FinalWritten(
      proposed: Plan, b: Binding, plan: Plan, planEvent: Event, contextEvent: Event, toolEvent: Event, m: Material, stage: Stage, p: Payload)
  {
    && ToolWritten(proposed, b, plan, planEvent, contextEvent, m, stage, toolEvent.payload)
    && FinalPart(plan, planEvent.id, toolEvent, m, KeyOfBinding(b), p)
  }

  predicate ContextOk(l: Locals, p: Payload) {
    ContextWritten(l.proposed, l.binding, l.plan, l.planEvent, p)
  }

  predicate ToolOk(l: Locals, p: Payload) {
    ToolWritten(l.proposed, l.binding, l.plan, l.planEvent, l.contextEvent, l.material, l.current.stage, p)
  }

  predicate FinalOk(l: Locals, p: Payload) {
    FinalWritten(l.proposed, l.binding, l.plan, l.planEvent, l.contextEvent, l.toolEvent, l.material, l.current.stage, p)
  }

  predicate ResultOk(l: Locals, p: Payload) {
    && FinalOk(l, l.finalEvent.payload) && l.current.stage == Completed
    && ResultPart(l.plan, l.planEvent.id, l.finalEvent, p)
  }

  predicate SlotPayloadOk(slot: Slot, l: Locals, p: Payload) {
    match slot
    case RecoverySlot =>
      p.ObservationRecorded? && |l.replay| == 6 && Advance(BudgetOf(l.replay[5].payload), ObservationRecords) == Some(BudgetOf(p))
    case PlanSlot => BoundOk(l.proposed, l.binding, l.plan) && p == PlanRecorded(l.plan)
    case ContextSlot => ContextOk(l, p)
    case ToolSlot => ToolOk(l, p)
    case FinalSlot => FinalOk(l, p)
    case ResultSlot => ResultOk(l, p)
  }

  predicate PortOk(port: Port, l: Locals) {
    match port
    case Append(slot) => SlotPayloadOk(slot, l, l.pending)
    case ReadBack(slot) => SlotPayloadOk(slot, l, l.pending) && l.event.payload == l.pending
    case RequestTool => ContextOk(l, l.contextEvent.payload)
    case ReadDecision => ContextOk(l, l.contextEvent.payload)
    case ExecuteTool => ContextOk(l, l.contextEvent.payload)
    case Reread(purpose) => purpose == AfterSuspension || ContextOk(l, l.contextEvent.payload)
    case ReadHandoff(replayed) => replayed || (FinalOk(l, l.finalEvent.payload) && l.current.stage == Completed)
    case _ => true
  }

  // ---------- Durability of what was read back ----------

  /** How many of recovery, plan, context, tool step and final observation have been read back. */
  function Written(port: Port): nat {
    match port
    case Append(RecoverySlot) => 0
    case ReadBack(RecoverySlot) => 0
    case CreateCandidate => 1
    case PrepareBindings => 1
    case Append(PlanSlot) => 1
    case ReadBack(PlanSlot) => 1
    case Append(ContextSlot) => 2
    case ReadBack(ContextSlot) => 2
    case RequestTool => 3
    case ReadDecision => 3
    case ExecuteTool => 3
    case Reread(AfterSuspension) => 0
    case Reread(_) => 3
    case Append(ToolSlot) => 3
    case ReadBack(ToolSlot) => 3
    case Append(FinalSlot) => 4
    case ReadBack(FinalSlot) => 4
    case ReadHandoff(replayed) => if replayed then 0 else 5
    case Append(ResultSlot) => 5
    case ReadBack(ResultSlot) => 5
    case ReadReplay => 0
  }

  predicate Durable(ledger: seq<Event>, n: nat, l: Locals) {
    && (n >= 2 ==> l.planEvent in ledger)
    && (n >= 3 ==> l.contextEvent in ledger)
    && (n >= 4 ==> l.toolEvent in ledger)
    && (n >= 5 ==> l.finalEvent in ledger)
  }

  /** The recovery of a resume continues the six events it read, and the new plan continues the recovery. */
  predicate ResumeChained(n: nat, port: Port, l: Locals) {
    && |l.replay| == 6
    && (n >= 1 ==> Advance(BudgetOf(l.replay[5].payload), ObservationRecords) == Some(BudgetOf(l.recovery.payload)))
    && (n >= 2 || port == Append(PlanSlot) || port == ReadBack(PlanSlot) ==>
          Advance(BudgetOf(l.recovery.payload), PlanRevisions) == Some(l.plan.budget))
  }

  /** base is whether the six events read by a resume are a suspended segment. */
  predicate Progressed(base: bool, ledger: seq<Event>, mode: Mode, port: Port, l: Locals) {
    && PortOk(port, l)
    && Durable(ledger, Written(port), l)
    && (mode == Resuming && port != ReadReplay ==>
          base && ResumeChained(Written(port), port, l) && port != ReadHandoff(true)
          && port != ReadDecision && port != Reread(AfterDecision) && port != Reread(AfterExecution))
    && (mode == Advancing ==>
          port != Append(RecoverySlot) && port != ReadBack(RecoverySlot) && port != Reread(AfterSuspension))
  }

  predicate LocalsProgressed(ctx: Context, ledger: seq<Event>, mode: Mode, port: Port, l: Locals) {
    Progressed(SuspendedReplay(ctx, l.replay), ledger, mode, port, l)
  }

  // ---------- The failure record ----------

  /** The current call has had its execution rejected. */
  predicate Failed(log: seq<Act>) {
    log != [] &&
    var last := log[|log| - 1];
    last == RejectedBy(ExecuteTool) || (!last.Ended? && !last.Restarted? && Failed(log[..|log| - 1]))
  }

  /** No completed outcome is logged by a call whose execution was rejected. */
  predicate NoFailedCompletion(log: seq<Act>) {
    forall j | 0 <= j < |log| && log[j].Ended? && log[j].outcome.CompletedWith? :: !Failed(log[..j])
  }

  /** After a rejected execution only the claimed record is taken up, and the call runs towards a suspension. */
  predicate FailurePath(port: Port, l: Locals) {
    match port
    case Reread(purpose) => purpose == AfterExecution
    case Append(slot) => (slot == ToolSlot || slot == FinalSlot) && l.current.stage == Claimed
    case ReadBack(slot) => (slot == ToolSlot || slot == FinalSlot) && l.current.stage == Claimed
    case _ => false
  }

  predicate CallProgressed(ctx: Context, ledger: seq<Event>, log: seq<Act>, call: Call) {
    match call
    case Idle => !Failed(log)
    case Active(mode, AtPort(port, answer), l) =>
      && LocalsProgressed(ctx, ledger, mode, port, l)
      && (port.ReadBack? && answer.Some? && answer.value.EventReply? ==> answer.value.event in ledger)
      && (Failed(log) ==> mode == Advancing && FailurePath(port, l))
    case Active(mode, AtReverify(port, reply), l) =>
      && LocalsProgressed(ctx, ledger, mode, port, l)
      && (port.ReadBack? && reply.EventReply? ==> reply.event in ledger)
      && (Failed(log) ==> mode == Advancing && (FailurePath(port, l) || (port == ExecuteTool && reply.Rejected?)))
    case Active(mode, await, _) => await.AtSuspend? || (mode == Resuming && !Failed(log))
  }

  predicate CompletionInvariant(ctx: Context, w: World) {
    CallProgressed(ctx, w.ledger, w.log, w.loop.call) && NoFailedCompletion(w.log)
  }

  // ---------- Growth of stream and log ----------

  lemma StreamGrowthKeeps(ctx: Context, ledger: seq<Event>, more: seq<Event>, log: seq<Act>, call: Call)
    requires CallProgressed(ctx, ledger, log, call)
    ensures CallProgressed(ctx, ledger + more, log, call)
  {
    assert forall e | e in ledger :: e in ledger + more;
  }

  lemma LogOne(log: seq<Act>, a: Act)
    ensures Failed(log + [a]) <==> (a == RejectedBy(ExecuteTool) || (!a.Ended? && !a.Restarted? && Failed(log)))
    ensures NoFailedCompletion(log) && !(a.Ended? && a.outcome.CompletedWith? && Failed(log)) ==> NoFailedCompletion(log + [a])
  {
    assert (log + [a])[..|log|] == log;
    forall j | 0 <= j < |log| ensures (log + [a])[..j] == log[..j] {}
  }

  /** A log grown by at most one quiet act and a last one. */
  lemma LogGrown(log: seq<Act>, acts: seq<Act>, last: Act)
    requires NoFailedCompletion(log) && |acts| <= 1
    requires forall a | a in acts :: !a.Ended? && !a.Restarted?
    requires last.Ended? && last.outcome.CompletedWith? ==> !Failed(log) && forall a | a in acts :: !a.RejectedBy?
    ensures NoFailedCompletion(log + acts + [last])
    ensures Failed(log + acts + [last]) <==>
            last == RejectedBy(ExecuteTool) ||
            (!last.Ended? && !last.Restarted? && (Failed(log) || RejectedBy(ExecuteTool) in acts))
  {
    LogOne(log + acts, last);
    if acts == [] {
      assert log + acts == log;
    } else {
      assert acts == [acts[0]];
      LogOne(log, acts[0]);
    }
  }

  // ---------- One continuation ----------

  /** What a move must satisfy: the next request has progressed, and a failed call stays on its path. */
  predicate GoodMove(base: bool, ledger: seq<Event>, mode: Mode, failed: bool, l: Locals, m: Move) {
    match m
    case Ask(port, l') =>
      && l'.replay == l.replay
      && Progressed(base, ledger, mode, port, l')
      && (failed ==> mode == Advancing && FailurePath(port, l'))
    case Return(e) => !failed
    case _ => true
  }

  lemma ReplayMoveIsGood(base: bool, ledger: seq<Event>, mode: Mode, ready: bool, resumable: bool, l: Locals)
    requires resumable ==> base && |l.replay| == 6
    ensures GoodMove(base, ledger, mode, false, l, ReplayMove(mode, ready, resumable, l))
  {
  }

  lemma AfterReplayIsGood(ctx: Context, ledger: seq<Event>, mode: Mode, identity: Identity, events: seq<Event>, l: Locals)
    ensures var m := After(ctx, mode, ReadReplay, ReplayReply(identity, events), l);
            GoodMove(SuspendedReplay(ctx, events), ledger, mode, false, l.(replay := events), m)
  {
    ReplayMoveIsGood(SuspendedReplay(ctx, events), ledger, mode, ReplayReady(ctx.accepts(events), events, l.proposed),
                     ReplayResumable(ctx, l.proposed, events), l.(replay := events));
  }

  lemma AfterRecoveryIsGood(base: bool, ledger: seq<Event>, e: Event, l: Locals)
    requires Progressed(base, ledger, Resuming, ReadBack(RecoverySlot), l) && e in ledger && e == l.event
    ensures GoodMove(base, ledger, Resuming, false, l, AfterSlot(Resuming, RecoverySlot, e, l))
  {
  }

  lemma AfterPlanIsGood(base: bool, ledger: seq<Event>, mode: Mode, e: Event, l: Locals)
    requires Progressed(base, ledger, mode, ReadBack(PlanSlot), l) && e in ledger && e == l.event
    ensures GoodMove(base, ledger, mode, false, l, AfterPlanEvent(e, l))
  {
  }

  lemma AfterContextIsGood(base: bool, ledger: seq<Event>, mode: Mode, e: Event, l: Locals)
    requires Progressed(base, ledger, mode, ReadBack(ContextSlot), l) && e in ledger && e == l.event
    ensures GoodMove(base, ledger, mode, false, l, AfterSlot(mode, ContextSlot, e, l))
  {
  }

  /** Everything up to the tool step is written. */
  predicate BeforeFinal(base: bool, ledger: seq<Event>, mode: Mode, l: Locals) {
    && ToolOk(l, l.toolEvent.payload) && Durable(ledger, 4, l)
    && (mode == Resuming ==> base && ResumeChained(4, Append(FinalSlot), l))
  }

  lemma IsBeforeFinal(base: bool, ledger: seq<Event>, mode: Mode, e: Event, l: Locals)
    requires Progressed(base, ledger, mode, ReadBack(ToolSlot), l) && e in ledger && e == l.event
    ensures BeforeFinal(base, ledger, mode, l.(toolEvent := e))
  {
    assert Written(ReadBack(ToolSlot)) == 3;
  }

  lemma FinalAppendIsGood(base: bool, ledger: seq<Event>, mode: Mode, failed: bool, p: Payload, l: Locals)
    requires BeforeFinal(base, ledger, mode, l)
    requires failed ==> mode == Advancing && l.current.stage == Claimed
    requires FinalPart(l.plan, l.planEvent.id, l.toolEvent, l.material, KeyOfBinding(l.binding), p)
    ensures GoodMove(base, ledger, mode, failed, l, Ask(Append(FinalSlot), l.(pending := p)))
  {
  }

  lemma AfterToolWrites(e: Event, l: Locals)
    ensures var m := AfterToolEvent(e, l);
            m == Throw ||
            (&& m.Ask? && m == Ask(Append(FinalSlot), l.(toolEvent := e, pending := m.locals.pending))
             && FinalPart(l.plan, l.planEvent.id, e, l.material, KeyOfBinding(l.binding), m.locals.pending))
  {
  }

  lemma AfterToolIsGood(base: bool, ledger: seq<Event>, mode: Mode, failed: bool, e: Event, l: Locals)
    requires Progressed(base, ledger, mode, ReadBack(ToolSlot), l) && e in ledger && e == l.event
    requires failed ==> mode == Advancing && FailurePath(ReadBack(ToolSlot), l)
    ensures GoodMove(base, ledger, mode, failed, l, AfterToolEvent(e, l))
  {
    AfterToolWrites(e, l);
    var m := AfterToolEvent(e, l);
    if m.Ask? {
      IsBeforeFinal(base, ledger, mode, e, l);
      FinalAppendIsGood(base, ledger, mode, failed, m.locals.pending, l.(toolEvent := e));
    }
  }

  lemma AfterFinalIsGood(base: bool, ledger: seq<Event>, mode: Mode, failed: bool, e: Event, l: Locals)
    requires Progressed(base, ledger, mode, ReadBack(FinalSlot), l) && e in ledger && e == l.event
    requires failed ==> mode == Advancing && FailurePath(ReadBack(FinalSlot), l)
    ensures GoodMove(base, ledger, mode, failed, l, AfterSlot(mode, FinalSlot, e, l))
  {
  }

  lemma AfterReadBackIsGood(base: bool, ledger: seq<Event>, mode: Mode, failed: bool, slot: Slot, e: Event, l: Locals)
    requires Progressed(base, ledger, mode, ReadBack(slot), l) && e in ledger && e == l.event
    requires failed ==> mode == Advancing && FailurePath(ReadBack(slot), l)
    ensures GoodMove(base, ledger, mode, failed, l, AfterSlot(mode, slot, e, l))
  {
    match slot
    case RecoverySlot => AfterRecoveryIsGood(base, ledger, e, l);
    case PlanSlot => AfterPlanIsGood(base, ledger, mode, e, l);
    case ContextSlot => AfterContextIsGood(base, ledger, mode, e, l);
    case ToolSlot => AfterToolIsGood(base, ledger, mode, failed, e, l);
    case FinalSlot => AfterFinalIsGood(base, ledger, mode, failed, e, l);
    case ResultSlot =>
  }

  lemma AfterAppendIsGood(base: bool, ledger: seq<Event>, mode: Mode, failed: bool, slot: Slot, e: Event, l: Locals)
    requires Progressed(base, ledger, mode, Append(slot), l) && e.payload == l.pending
    requires failed ==> mode == Advancing && FailurePath(Append(slot), l)
    ensures GoodMove(base, ledger, mode, failed, l, Ask(ReadBack(slot), l.(event := e)))
  {
  }

  lemma AfterBindingsIsGood(base: bool, ledger: seq<Event>, mode: Mode, bs: seq<Binding>, l: Locals)
    requires Progressed(base, ledger, mode, PrepareBindings, l)
    ensures GoodMove(base, ledger, mode, false, l, AfterBindings(mode, bs, l))
  {
  }

  /** Everything up to the context observation is written. */
  predicate BeforeTool(base: bool, ledger: seq<Event>, mode: Mode, l: Locals) {
    && ContextOk(l, l.contextEvent.payload) && Durable(ledger, 3, l)
    && (mode == Resuming ==> base && ResumeChained(3, Append(ToolSlot), l))
  }

  lemma IsBeforeTool(base: bool, ledger: seq<Event>, mode: Mode, port: Port, l: Locals)
    requires Progressed(base, ledger, mode, port, l)
    requires port == ExecuteTool || (port.Reread? && port.purpose != AfterSuspension)
    ensures BeforeTool(base, ledger, mode, l)
  {
    assert Written(port) == 3;
  }

  lemma ToolAppendIsGood(
      base: bool, ledger: seq<Event>, mode: Mode, failed: bool, i: Issued, m: Material, p: Payload, l: Locals)
    requires BeforeTool(base, ledger, mode, l)
    requires failed ==> mode == Advancing && i.stage == Claimed
    requires ToolPart(l.plan, l.planEvent.id, BudgetOf(l.contextEvent.payload), m, i.stage, KeyOfBinding(l.binding), p)
    ensures GoodMove(base, ledger, mode, failed, l, Ask(Append(ToolSlot), l.(current := i, material := m, pending := p)))
  {
  }

  lemma AdoptWrites(stage: Stage, i: Issued, m: Material, l: Locals)
    ensures var move := AdoptIssued(stage, i, m, l);
            move == Throw ||
            (&& i.stage == stage && move.Ask?
             && move == Ask(Append(ToolSlot), l.(current := i, material := m, pending := move.locals.pending))
             && ToolPart(l.plan, l.planEvent.id, BudgetOf(l.contextEvent.payload), m, i.stage, KeyOfBinding(l.binding),
                         move.locals.pending))
  {
  }

  lemma AdoptIsGood(base: bool, ledger: seq<Event>, mode: Mode, failed: bool, port: Port, stage: Stage, i: Issued, m: Material, l: Locals)
    requires Progressed(base, ledger, mode, port, l)
    requires port == ExecuteTool || (port.Reread? && port.purpose != AfterSuspension)
    requires failed ==> mode == Advancing && stage == Claimed
    ensures GoodMove(base, ledger, mode, failed, l, AdoptIssued(stage, i, m, l))
  {
    AdoptWrites(stage, i, m, l);
    var move := AdoptIssued(stage, i, m, l);
    if move.Ask? {
      IsBeforeTool(base, ledger, mode, port, l);
      ToolAppendIsGood(base, ledger, mode, failed, i, m, move.locals.pending, l);
    }
  }

  lemma AppendRecoveryIsGood(ledger: seq<Event>, prior: Plan, id: string, l: Locals)
    requires |l.replay| == 6
    ensures GoodMove(true, ledger, Resuming, false, l, AppendRecovery(prior, id, l.replay[5], l))
  {
  }

  lemma RequestedIsGood(base: bool, ledger: seq<Event>, mode: Mode, port: Port, i: Issued, m: Material, l: Locals)
    requires Progressed(base, ledger, mode, RequestTool, l)
    requires port == ExecuteTool || (port == ReadDecision && mode == Advancing)
    ensures GoodMove(base, ledger, mode, false, l, Ask(port, l.(requested := i, current := i, material := m)))
  {
  }

  lemma AfterRequestIsGood(base: bool, ledger: seq<Event>, mode: Mode, i: Issued, m: Material, l: Locals)
    requires Progressed(base, ledger, mode, RequestTool, l)
    ensures GoodMove(base, ledger, mode, false, l, AfterRequest(mode, i, m, l))
  {
    RequestedIsGood(base, ledger, mode, ExecuteTool, i, m, l);
    if mode == Advancing { RequestedIsGood(base, ledger, mode, ReadDecision, i, m, l); }
    AfterRequestMoves(mode, i, m, l);
  }

  lemma AfterRequestMoves(mode: Mode, i: Issued, m: Material, l: Locals)
    ensures var move, next := AfterRequest(mode, i, m, l), l.(requested := i, current := i, material := m);
            move == Throw || move == Ask(ExecuteTool, next) || (mode == Advancing && move == Ask(ReadDecision, next))
  {
  }

  lemma AfterIssuedIsGood(base: bool, ledger: seq<Event>, mode: Mode, failed: bool, port: Port, i: Issued, m: Material, l: Locals)
    requires Progressed(base, ledger, mode, port, l)
    requires failed ==> mode == Advancing && FailurePath(port, l)
    ensures GoodMove(base, ledger, mode, failed, l, AfterIssued(mode, port, i, m, l))
  {
    match port
    case RequestTool => AfterRequestIsGood(base, ledger, mode, i, m, l);
    case ExecuteTool => AdoptIsGood(base, ledger, mode, failed, port, Completed, i, m, l);
    case Reread(AfterDecision) => AdoptIsGood(base, ledger, mode, failed, port, Requested, i, m, l);
    case Reread(AfterExecution) => AdoptIsGood(base, ledger, mode, failed, port, Claimed, i, m, l);
    case Reread(AfterSuspension) =>
      if mode == Resuming && l.replay[0].payload.PlanRecorded? {
        AppendRecoveryIsGood(ledger, l.replay[0].payload.plan, l.replay[0].id, l);
      }
    case _ =>
  }

  lemma AfterHandoffIsGood(base: bool, ledger: seq<Event>, mode: Mode, replayed: bool, p: HandoffProjection, l: Locals)
    requires Progressed(base, ledger, mode, ReadHandoff(replayed), l)
    ensures GoodMove(base, ledger, mode, false, l, AfterHandoff(replayed, p, l))
  {
  }

  lemma AfterDecisionIsGood(base: bool, ledger: seq<Event>, mode: Mode, i: Issued, l: Locals)
    requires Progressed(base, ledger, mode, ReadDecision, l)
    ensures GoodMove(base, ledger, mode, false, l, Ask(ExecuteTool, l.(approved := Some(i))))
  {
  }

  lemma AfterCandidateIsGood(base: bool, ledger: seq<Event>, mode: Mode, l: Locals)
    requires Progressed(base, ledger, mode, CreateCandidate, l)
    ensures GoodMove(base, ledger, mode, false, l, Ask(PrepareBindings, l))
  {
  }

  lemma AfterRejectionIsGood(ctx: Context, base: bool, ledger: seq<Event>, mode: Mode, failed: bool, port: Port, l: Locals)
    requires Progressed(base, ledger, mode, port, l)
    requires failed ==> mode == Advancing && (FailurePath(port, l) || port == ExecuteTool)
    ensures GoodMove(base, ledger, mode, failed, l, After(ctx, mode, port, Rejected, l))
  {
  }

  lemma AfterEventIsGood(base: bool, ledger: seq<Event>, mode: Mode, failed: bool, port: Port, e: Event, l: Locals)
    requires Progressed(base, ledger, mode, port, l)
    requires port.ReadBack? ==> e in ledger
    requires failed ==> mode == Advancing && FailurePath(port, l)
    ensures GoodMove(base, ledger, mode, failed, l, AfterEvent(mode, port, e, l))
  {
    if port.Append? && e.payload == l.pending { AfterAppendIsGood(base, ledger, mode, failed, port.slot, e, l); }
    if port.ReadBack? && e == l.event { AfterReadBackIsGood(base, ledger, mode, failed, port.slot, e, l); }
  }

  lemma AfterIssuedReplyIsGood(
      ctx: Context, base: bool, ledger: seq<Event>, mode: Mode, failed: bool, port: Port, i: Issued, m: Option<Material>, l: Locals)
    requires Progressed(base, ledger, mode, port, l)
    requires failed ==> mode == Advancing && FailurePath(port, l)
    ensures GoodMove(base, ledger, mode, failed, l, After(ctx, mode, port, IssuedReply(i, m), l))
  {
    if port == ReadDecision {
      AfterDecisionIsGood(base, ledger, mode, i, l);
    } else if m.Some? {
      AfterIssuedIsGood(base, ledger, mode, failed, port, i, m.value, l);
    }
  }

  lemma AfterOtherReplyIsGood(ctx: Context, base: bool, ledger: seq<Event>, mode: Mode, failed: bool, port: Port, reply: Reply, l: Locals)
    requires Progressed(base, ledger, mode, port, l)
    requires reply.CandidateReply? || reply.BindingsReply? || reply.HandoffReply? || reply.Malformed?
    requires failed ==> mode == Advancing && FailurePath(port, l)
    ensures GoodMove(base, ledger, mode, failed, l, After(ctx, mode, port, reply, l))
  {
    match reply
    case CandidateReply(_) => if port == CreateCandidate { AfterCandidateIsGood(base, ledger, mode, l); }
    case BindingsReply(bs) => if port == PrepareBindings { AfterBindingsIsGood(base, ledger, mode, bs, l); }
    case HandoffReply(p) => if port.ReadHandoff? { AfterHandoffIsGood(base, ledger, mode, port.replayed, p, l); }
    case Malformed =>
  }

  lemma AfterIsGood(ctx: Context, base: bool, ledger: seq<Event>, mode: Mode, failed: bool, port: Port, reply: Reply, l: Locals)
    requires Progressed(base, ledger, mode, port, l)
    requires port.ReadBack? && reply.EventReply? ==> reply.event in ledger
    requires !reply.ReplayReply?
    requires failed ==> mode == Advancing && (FailurePath(port, l) || (port == ExecuteTool && reply.Rejected?))
    ensures GoodMove(base, ledger, mode, failed, l, After(ctx, mode, port, reply, l))
  {
    match reply
    case Rejected => AfterRejectionIsGood(ctx, base, ledger, mode, failed, port, l);
    case EventReply(e) => AfterEventIsGood(base, ledger, mode, failed, port, e, l);
    case IssuedReply(i, m) => AfterIssuedReplyIsGood(ctx, base, ledger, mode, failed, port, i, m, l);
    case _ => AfterOtherReplyIsGood(ctx, base, ledger, mode, failed, port, reply, l);
  }

  // ---------- Every step ----------

  lemma MoveKeepsCompletion(ctx: Context, w: World, next: Token, replay: seq<Event>, m: Move)
    requires NoFailedCompletion(w.log)
    requires w.loop.call.Active? && w.loop.call.await.AtReverify?
    requires m == After(ctx, w.loop.call.mode, w.loop.call.await.port, w.loop.call.await.reply, w.loop.call.locals)
    requires GoodMove(SuspendedReplay(ctx, replay), w.ledger, w.loop.call.mode, Failed(w.log), w.loop.call.locals.(replay := replay), m)
    ensures CompletionInvariant(ctx, Continue(ctx, w, next))
  {
    match m
    case Ask(p, _) => LogGrown(w.log, [Granted(next)], Called(p));
    case Suspend =>
      LogGrown(w.log, [Granted(next)], PresentedToSuspend(next));
      assert w.log + [Granted(next), PresentedToSuspend(next)] == w.log + [Granted(next)] + [PresentedToSuspend(next)];
    case Return(e) => LogGrown(w.log, [Granted(next)], Ended(CompletedWith(e)));
    case Throw => LogGrown(w.log, [Granted(next)], Ended(FailedCall));
  }

  lemma ContinueKeepsCompletion(ctx: Context, w: World, next: Token)
    requires CompletionInvariant(ctx, w)
    requires w.loop.call.Active? && w.loop.call.await.AtReverify?
    ensures CompletionInvariant(ctx, Continue(ctx, w, next))
  {
    var call := w.loop.call;
    var port, reply, l := call.await.port, call.await.reply, call.locals;
    var m := After(ctx, call.mode, port, reply, l);
    if reply.ReplayReply? && port == ReadReplay {
      AfterReplayIsGood(ctx, w.ledger, call.mode, reply.identity, reply.events, l);
      MoveKeepsCompletion(ctx, w, next, reply.events, m);
    } else {
      if !reply.ReplayReply? {
        AfterIsGood(ctx, SuspendedReplay(ctx, l.replay), w.ledger, call.mode, Failed(w.log), port, reply, l);
      }
      MoveKeepsCompletion(ctx, w, next, l.replay, m);
    }
  }

  lemma DeliverKeepsCompletion(ctx: Context, w: World)
    requires CompletionInvariant(ctx, w)
    requires w.loop.call.Active? && w.loop.call.await.AtPort? && w.loop.call.await.answer.Some?
    ensures CompletionInvariant(ctx, DeliverReply(w))
  {
    var call := w.loop.call;
    var port, reply := call.await.port, call.await.answer.value;
    var acts := if reply.Rejected? then [RejectedBy(port)] else [];
    LogGrown(w.log, acts, Ended(FailedCall));
    if w.loop.token.Some? {
      LogGrown(w.log, acts, Presented(w.loop.token.value));
    }
  }

  lemma QuietEnd(log: seq<Act>, acts: seq<Act>, last: Act)
    requires NoFailedCompletion(log) && |acts| <= 1 && forall a | a in acts :: a.Reclaimed? || a.Refused?
    requires !last.RejectedBy? && !(last.Ended? && last.outcome.CompletedWith?)
    ensures NoFailedCompletion(log + acts + [last])
    ensures Failed(log + acts + [last]) <==> !last.Ended? && !last.Restarted? && Failed(log)
  {
    LogGrown(log, acts, last);
  }

  lemma BeginKeepsCompletion(ctx: Context, w: World, s: StepLabel)
    requires CompletionInvariant(ctx, w) && (s.BeginAdvance? || s.BeginResume?)
    ensures CompletionInvariant(ctx, Apply(ctx, w, s))
  {
    assert w.log + [] == w.log;
    QuietEnd(w.log, [], Ended(FailedCall));
    QuietEnd(w.log, [], if s.BeginAdvance? then Called(ReadReplay) else ResumeBegun);
  }

  lemma AuthorityKeepsCompletion(ctx: Context, w: World, s: StepLabel)
    requires CompletionInvariant(ctx, w) && Enabled(ctx, w, s)
    requires s.SuspendSettled? || s.RecoverSettled? || s.ReclaimSettled?
    ensures CompletionInvariant(ctx, Apply(ctx, w, s))
  {
    assert w.log + [] == w.log;
    QuietEnd(w.log, [], Ended(FailedCall));
    QuietEnd(w.log, [], Ended(SuspendedCall));
    if s.ReclaimSettled? && s.next.Some? { QuietEnd(w.log, [Reclaimed(s.next.value)], Called(ReadReplay)); }
  }

  lemma GrowthKeepsCompletion(ctx: Context, w: World, s: StepLabel)
    requires CompletionInvariant(ctx, w) && Enabled(ctx, w, s) && (s.Answer? || s.OtherWriter?)
    ensures CompletionInvariant(ctx, Apply(ctx, w, s))
  {
    StreamGrowthKeeps(ctx, w.ledger, s.appended, w.log, w.loop.call);
  }

  lemma CrashKeepsCompletion(ctx: Context, w: World, restart: Token)
    requires CompletionInvariant(ctx, w) && Enabled(ctx, w, Crash(restart))
    ensures CompletionInvariant(ctx, Apply(ctx, w, Crash(restart)))
  {
    assert w.log + [] == w.log;
    QuietEnd(w.log, [], Restarted(restart));
  }

  lemma ReverifiedKeepsCompletion(ctx: Context, w: World, next: Option<Token>)
    requires CompletionInvariant(ctx, w) && Enabled(ctx, w, Reverified(next))
    ensures CompletionInvariant(ctx, Apply(ctx, w, Reverified(next)))
  {
    if next.Some? { ContinueKeepsCompletion(ctx, w, next.value); } else { QuietEnd(w.log, [Refused], Ended(FailedCall)); }
  }

  lemma StepKeepsCompletion(ctx: Context, w: World, s: StepLabel)
    requires CompletionInvariant(ctx, w) && Enabled(ctx, w, s)
    ensures CompletionInvariant(ctx, Apply(ctx, w, s))
  {
    match s
    case BeginAdvance(_) => BeginKeepsCompletion(ctx, w, s);
    case BeginResume(_) => BeginKeepsCompletion(ctx, w, s);
    case Answer(_, _) => GrowthKeepsCompletion(ctx, w, s);
    case OtherWriter(_) => GrowthKeepsCompletion(ctx, w, s);
    case Deliver => DeliverKeepsCompletion(ctx, w);
    case Reverified(next) => ReverifiedKeepsCompletion(ctx, w, next);
    case Crash(restart) => CrashKeepsCompletion(ctx, w, restart);
    case _ => AuthorityKeepsCompletion(ctx, w, s);
  }

  lemma {:induction false} RunKeepsCompletion(ctx: Context, ws: seq<World>, ss: seq<StepLabel>, n: nat)
    requires Run(ctx, ws, ss) && n < |ws|
    ensures CompletionInvariant(ctx, ws[n])
    decreases n
  {
    if n > 0 {
      RunKeepsCompletion(ctx, ws, ss, n - 1);
      StepKeepsCompletion(ctx, ws[n - 1], ss[n - 1]);
    }
  }

  // ---------- Main results ----------

  lemma {:induction false} FailureLasts(log: seq<Act>, i: nat, j: nat)
    requires i < j <= |log| && log[i] == RejectedBy(ExecuteTool)
    requires forall k | i < k < j :: !log[k].Ended? && !log[k].Restarted?
    ensures Failed(log[..j])
    decreases j
  {
    assert log[..j][..j - 1] == log[..j - 1];
    if j > i + 1 { FailureLasts(log, i, j - 1); }
  }

  /** A call whose execution was rejected never ends completed: a later completed call has begun since. */
  lemma RejectedExecutionNeverCompletes(ctx: Context, ws: seq<World>, ss: seq<StepLabel>, n: nat, i: nat, j: nat)
    requires Run(ctx, ws, ss) && n < |ws|
    requires i < j < |ws[n].log|
    requires ws[n].log[i] == RejectedBy(ExecuteTool)
    requires ws[n].log[j].Ended? && ws[n].log[j].outcome.CompletedWith?
    ensures exists k :: i < k < j && (ws[n].log[k].Ended? || ws[n].log[k].Restarted?)
  {
    RunKeepsCompletion(ctx, ws, ss, n);
    if forall k | i < k < j :: !ws[n].log[k].Ended? && !ws[n].log[k].Restarted? {
      FailureLasts(ws[n].log, i, j);
    }
  }

  /** The call is about to return the result event that it wrote and read back. */
  predicate Completing(w: World, s: StepLabel) {
    && s.Reverified? && s.next.Some?
    && w.loop.call.Active? && w.loop.call.await.AtReverify?
    && w.loop.call.await.port == ReadBack(ResultSlot)
    && w.loop.call.await.reply == EventReply(w.loop.call.locals.event)
    && EventWellFormed(w.loop.call.locals.event)
  }

  function SegmentEvents(l: Locals): seq<Event> {
    [l.planEvent, l.contextEvent, l.toolEvent, l.finalEvent, l.event]
  }

  lemma SegmentIsWritten(l: Locals)
    requires ResultOk(l, l.event.payload)
    ensures WrittenByAdvance(SegmentEvents(l), l.proposed, l.binding, l.material, l.event.payload.result.body.handoff)
  {
    var events := SegmentEvents(l);
    assert events[0] == l.planEvent && events[1] == l.contextEvent && events[2] == l.toolEvent;
    assert events[3] == l.finalEvent && events[4] == l.event;
  }

  /**
   In every run, when a call returns the result it wrote, the call ends with that
   event, all five events of its segment are in the stream, and they are exactly
   what the payload builders make of its plan, binding, gateway material and
   handoff.
   */
  lemma CompletedSegmentIsWrittenAndDurable(ctx: Context, ws: seq<World>, ss: seq<StepLabel>, n: nat)
    requires Run(ctx, ws, ss) && n < |ss| && Completing(ws[n], ss[n])
    ensures var l := ws[n].loop.call.locals;
            && ws[n + 1].log[|ws[n + 1].log| - 1] == Ended(CompletedWith(l.event))
            && (forall e | e in SegmentEvents(l) :: e in ws[n].ledger)
            && l.event.payload.ResultRecorded? && l.event.payload.result.body.HandoffRecorded?
            && WrittenByAdvance(SegmentEvents(l), l.proposed, l.binding, l.material, l.event.payload.result.body.handoff)
  {
    CompletingEnds(ctx, ws, ss, n);
    CompletingIsDurable(ctx, ws, ss, n);
    CompletingResult(ctx, ws, ss, n);
    SegmentIsWritten(ws[n].loop.call.locals);
  }

  lemma CompletingEnds(ctx: Context, ws: seq<World>, ss: seq<StepLabel>, n: nat)
    requires Run(ctx, ws, ss) && n < |ss| && Completing(ws[n], ss[n])
    ensures ws[n + 1].log != [] && ws[n + 1].log[|ws[n + 1].log| - 1] == Ended(CompletedWith(ws[n].loop.call.locals.event))
  {
    assert ws[n + 1] == Apply(ctx, ws[n], ss[n]);
    CompletingReturns(ctx, ws[n], ss[n]);
  }

  lemma CompletingIsDurable(ctx: Context, ws: seq<World>, ss: seq<StepLabel>, n: nat)
    requires Run(ctx, ws, ss) && n < |ss| && Completing(ws[n], ss[n])
    ensures forall e | e in SegmentEvents(ws[n].loop.call.locals) :: e in ws[n].ledger
  {
    RunKeepsCompletion(ctx, ws, ss, n);
    var l := ws[n].loop.call.locals;
    ReadBackIsDurable(SuspendedReplay(ctx, l.replay), ws[n].ledger, ws[n].loop.call.mode, l);
  }

  lemma CompletingResult(ctx: Context, ws: seq<World>, ss: seq<StepLabel>, n: nat)
    requires Run(ctx, ws, ss) && n < |ss| && Completing(ws[n], ss[n])
    ensures ResultOk(ws[n].loop.call.locals, ws[n].loop.call.locals.event.payload)
  {
    RunKeepsCompletion(ctx, ws, ss, n);
    var l := ws[n].loop.call.locals;
    ReadBackIsDurable(SuspendedReplay(ctx, l.replay), ws[n].ledger, ws[n].loop.call.mode, l);
  }

  lemma CompletingReturns(ctx: Context, w: World, s: StepLabel)
    requires Completing(w, s) && Enabled(ctx, w, s)
    ensures Apply(ctx, w, s).log == w.log + [Granted(s.next.value)] + [Ended(CompletedWith(w.loop.call.locals.event))]
  {
  }

  lemma ReadBackIsDurable(base: bool, ledger: seq<Event>, mode: Mode, l: Locals)
    requires Progressed(base, ledger, mode, ReadBack(ResultSlot), l)
    requires l.event in ledger
    ensures forall e | e in SegmentEvents(l) :: e in ledger
    ensures ResultOk(l, l.event.payload)
  {
  }

  /**
   A resume that completes extends the six events it read by six more, and the
   twelve budgets form one accepted chain.
   */
  lemma ResumedChainIsAccepted(ctx: Context, ws: seq<World>, ss: seq<StepLabel>, n: nat)
    requires Run(ctx, ws, ss) && n < |ss| && Completing(ws[n], ss[n])
    requires ws[n].loop.call.mode == Resuming
    ensures var l := ws[n].loop.call.locals;
            |l.replay| == 6 && Chain(Budgets(l.replay) + [BudgetOf(l.recovery.payload)] + Budgets(SegmentEvents(l)))
  {
    RunKeepsCompletion(ctx, ws, ss, n);
    var l := ws[n].loop.call.locals;
    SegmentIsWritten(l);
    SuspendedChain(ctx, l.replay);
    WrittenChain(SegmentEvents(l), l.proposed, l.binding, l.material, l.event.payload.result.body.handoff);
    ResumedChain(Budgets(l.replay), BudgetOf(l.recovery.payload), l.plan.budget, Budgets(SegmentEvents(l)));
  }

  lemma SuspendedChain(ctx: Context, events: seq<Event>)
    requires SuspendedReplay(ctx, events)
    ensures Chain(Budgets(events)) && |Budgets(events)| == 6
  {
  }

  lemma ResumedChain(front: seq<Budget>, recovery: Budget, first: Budget, segment: seq<Budget>)
    requires Chain(front) && |front| == 6
    requires Advance(front[5], ObservationRecords) == Some(recovery)
    requires Advance(recovery, PlanRevisions) == Some(first)
    requires Chain(segment) && segment != [] && segment[0] == first
    ensures Chain(front + [recovery] + segment)
  {
    AdvanceIsProgress(front[5], ObservationRecords);
    AdvanceIsProgress(recovery, PlanRevisions);
    ThreeChains(front, recovery, segment);
  }

  lemma ThreeChains(front: seq<Budget>, recovery: Budget, segment: seq<Budget>)
    requires Chain(front) && front != [] && Chain(segment) && segment != []
    requires Progress(front[|front| - 1], recovery) && Progress(recovery, segment[0])
    ensures Chain(front + [recovery] + segment)
  {
    PrependToChain(recovery, segment);
    JoinChains(front, [recovery] + segment);
    Sequences.Assoc(front, [recovery], segment);
  }

  lemma JoinChains(a: seq<Budget>, b: seq<Budget>)
    requires Chain(a) && Chain(b) && a != [] && b != [] && Progress(a[|a| - 1], b[0])
    ensures Chain(a + b)
  {
    var all := a + b;
    forall i | 0 < i < |all| ensures Progress(all[i - 1], all[i]) {
      if i < |a| {
        assert Progress(a[i - 1], a[i]);
      } else if i > |a| {
        assert Progress(b[i - |a| - 1], b[i - |a|]);
      }
    }
  }

  /**
   Replay by the loop itself: when a later advance with the same candidate reads
   exactly the five events of a completed segment, and the handoff projection
   still selects the recorded readback, it asks for the replay and the handoff
   and for nothing else, and returns the recorded result event.
   */
  lemma SecondAdvanceReturnsTheResult(
      ctx: Context, c: Candidate, events: seq<Event>, b: Binding, m: Material, handoff: HandoffReadback, p: HandoffProjection)
    requires AdvanceAdmissible(ctx, c)
    requires WrittenByAdvance(events, c.plan, b, m, handoff) && Ordered(events) && ctx.accepts(events)
    requires Unbound(c.plan.steps[0])
    requires HandoffVerified(p, ctx.identity, c.plan.provenance.authority) && p.selectedReadback == handoff
    ensures var l := StartLocals(c, c.plan);
            var first := After(ctx, Advancing, ReadReplay, ReplayReply(ctx.identity, events), l);
            && first == Ask(ReadHandoff(true), l.(replay := events))
            && After(ctx, Advancing, ReadHandoff(true), HandoffReply(p), first.locals) == Return(events[4])
  {
    var l := StartLocals(c, c.plan);
    ReplayRoundTrip(events, c.plan, b, m, handoff, p);
    WrittenIsAdmissible(ctx, events, c.plan, b, m, handoff);
    ReplayIsChecked(ctx, events, l);
    ReadyReplayAsks(ReplayResumable(ctx, c.plan, events), l.(replay := events));
    HandoffReturns(ctx, events, p, l.(replay := events));
  }

  lemma ReplayIsChecked(ctx: Context, events: seq<Event>, l: Locals)
    requires ReplayAdmissible(ctx, ctx.identity, events)
    ensures After(ctx, Advancing, ReadReplay, ReplayReply(ctx.identity, events), l) ==
            ReplayMove(Advancing, ReplayReady(ctx.accepts(events), events, l.proposed), ReplayResumable(ctx, l.proposed, events),
                       l.(replay := events))
  {
  }

  lemma ReadyReplayAsks(resumable: bool, l: Locals)
    requires l.replay != []
    ensures ReplayMove(Advancing, true, resumable, l) == Ask(ReadHandoff(true), l)
  {
  }

  lemma HandoffReturns(ctx: Context, events: seq<Event>, p: HandoffProjection, l: Locals)
    requires l.replay == events && FiveEventShape(events) && ReplayOutcome(events, p) == Some(events[4])
    ensures After(ctx, Advancing, ReadHandoff(true), HandoffReply(p), l) == Return(events[4])
  {
  }

  lemma ContextIdentity(plan: Plan, planEventId: string, p: Payload)
    requires ContextPart(plan, planEventId, p)
    ensures ProvenanceOf(p) == plan.provenance
  {
  }

  lemma ToolIdentity(plan: Plan, planEventId: string, before: Budget, m: Material, stage: Stage, key: StepKey, p: Payload)
    requires ToolPart(plan, planEventId, before, m, stage, key, p)
    ensures ProvenanceOf(p) == plan.provenance
  {
  }

  lemma FinalIdentity(plan: Plan, planEventId: string, toolEvent: Event, m: Material, key: StepKey, p: Payload)
    requires FinalPart(plan, planEventId, toolEvent, m, key, p)
    ensures ProvenanceOf(p) == plan.provenance
  {
  }

  lemma ResultIdentity(plan: Plan, planEventId: string, finalEvent: Event, p: Payload)
    requires ResultPart(plan, planEventId, finalEvent, p)
    ensures ProvenanceOf(p) == plan.provenance
  {
  }

  lemma BoundProvenance(proposed: Plan, b: Binding, plan: Plan)
    requires BoundOk(proposed, b, plan)
    ensures plan.provenance == proposed.provenance
  {
  }

  lemma WrittenProvenance(events: seq<Event>, plan: Plan, b: Binding, m: Material, handoff: HandoffReadback)
    requires WrittenByAdvance(events, plan, b, m, handoff)
    ensures ProvenanceOf(events[0].payload) == plan.provenance
    ensures ProvenanceOf(events[1].payload) == plan.provenance
    ensures ProvenanceOf(events[2].payload) == plan.provenance
    ensures ProvenanceOf(events[3].payload) == plan.provenance
    ensures ProvenanceOf(events[4].payload) == plan.provenance
  {
    var bound, id := events[0].payload.plan, events[0].id;
    BoundProvenance(plan, b, bound);
    ContextIdentity(bound, id, events[1].payload);
    ToolIdentity(bound, id, BudgetOf(events[1].payload), m, Completed, KeyOfBinding(b), events[2].payload);
    FinalIdentity(bound, id, events[2], m, KeyOfBinding(b), events[3].payload);
    ResultIdentity(bound, id, events[3], events[4].payload);
  }

  lemma WrittenIsAdmissible(ctx: Context, events: seq<Event>, plan: Plan, b: Binding, m: Material, handoff: HandoffReadback)
    requires WrittenByAdvance(events, plan, b, m, handoff) && Ordered(events)
    requires plan.provenance.identity == ctx.identity
    ensures ReplayAdmissible(ctx, ctx.identity, events)
  {
    WrittenProvenance(events, plan, b, m, handoff);
    AdmissibleByProvenance(ctx, events);
  }

  lemma AdmissibleByProvenance(ctx: Context, events: seq<Event>)
    requires Ordered(events) && |events| == 5
    requires ProvenanceOf(events[0].payload).identity == ctx.identity && ProvenanceOf(events[1].payload).identity == ctx.identity
    requires ProvenanceOf(events[2].payload).identity == ctx.identity && ProvenanceOf(events[3].payload).identity == ctx.identity
    requires ProvenanceOf(events[4].payload).identity == ctx.identity
    ensures ReplayAdmissible(ctx, ctx.identity, events)
  {
  }
}
