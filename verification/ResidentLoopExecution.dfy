/**
 Tool execution over whole runs of a resident loop: at most one attempt for
 each plan revision, and only from the durable prefix that permits it.
 */
module ResidentLoopExecution {
  import opened CanonicalJson
  import opened ResidentBudget
  import opened ResidentRecords
  import opened ResidentReplay
  import opened ResidentLoop

  // ---------- The invariant ----------

  predicate PlanDurable(ledger: seq<Event>, revision: int) {
    exists e :: e in ledger && e.payload.PlanRecorded? && e.payload.plan.planRevision == revision
  }

  /** At most one attempt by an advance and then at most one by a resume, of the next revision. */
  predicate HistoryOk(ledger: seq<Event>, attempts: seq<Attempt>) {
    || attempts == []
    || (|attempts| == 1 && attempts[0].mode == Advancing && PlanDurable(ledger, attempts[0].revision))
    || (|attempts| == 1 && attempts[0].mode == Resuming && |ledger| >= 7)
    || (|attempts| == 2 && attempts[0].mode == Advancing && attempts[1].mode == Resuming
        && PlanDurable(ledger, attempts[0].revision) && attempts[1].revision == attempts[0].revision + 1 && |ledger| >= 7)
  }

  predicate NoResume(attempts: seq<Attempt>) {
    forall a | a in attempts :: a.mode == Advancing
  }

  predicate PortBelongs(mode: Mode, port: Port) {
    match mode
    case Advancing => port != Append(RecoverySlot) && port != ReadBack(RecoverySlot) && port != Reread(AfterSuspension)
    case Resuming => port != ReadDecision && port != Reread(AfterDecision) && port != Reread(AfterExecution)
  }

  predicate PreExecution(port: Port) {
    match port
    case CreateCandidate => true
    case PrepareBindings => true
    case Append(slot) => slot == RecoverySlot || slot == PlanSlot || slot == ContextSlot
    case ReadBack(slot) => slot == RecoverySlot || slot == PlanSlot || slot == ContextSlot
    case RequestTool => true
    case ReadDecision => true
    case Reread(purpose) => purpose == AfterSuspension
    case _ => false
  }

  /** Requests made after the binding is known and before the tool runs. */
  predicate PlanBuilt(port: Port) {
    PreExecution(port) && port != CreateCandidate && port != PrepareBindings
    && port != Append(RecoverySlot) && port != ReadBack(RecoverySlot) && port != Reread(AfterSuspension)
  }

  predicate PlanKnown(port: Port) {
    PlanBuilt(port) && port != Append(PlanSlot) && port != ReadBack(PlanSlot)
  }

  predicate RecoveryKnown(port: Port) {
    PlanBuilt(port) || port == CreateCandidate || port == PrepareBindings
  }

  predicate SlotOk(port: Port, l: Locals) {
    && (port.ReadBack? ==> l.event.payload == l.pending)
    && (port == Append(PlanSlot) || port == ReadBack(PlanSlot) ==> l.pending == PlanRecorded(l.plan))
  }

  predicate PlanEventDurable(ledger: seq<Event>, l: Locals) {
    l.planEvent in ledger && l.planEvent.payload == PlanRecorded(l.plan)
  }

  predicate AdvanceOk(ledger: seq<Event>, attempts: seq<Attempt>, port: Port, l: Locals) {
    PreExecution(port) ==> attempts == [] && l.replay == [] && (PlanKnown(port) ==> PlanEventDurable(ledger, l))
  }

  /** What a resume holds on to before it executes: the six events it read, all still at the front of the stream. */
  predicate ResumeBase(ctx: Context, ledger: seq<Event>, attempts: seq<Attempt>, replay: seq<Event>, proposed: Plan) {
    && ReplayResumable(ctx, proposed, replay) && replay <= ledger
    && (attempts == [] || attempts == [Attempt(Advancing, replay[0].payload.plan.planRevision)])
  }

  predicate RecoveryPending(replay: seq<Event>, pending: Payload) {
    && |replay| == 6
    && pending.ObservationRecorded?
    && Advance(BudgetOf(replay[5].payload), ObservationRecords) == Some(BudgetOf(pending))
  }

  /** The conditions on a resume, given whether its base holds. */
  predicate ResumeOk(base: bool, ledger: seq<Event>, port: Port, l: Locals) {
    PreExecution(port) ==>
      && base
      && (port == Append(RecoverySlot) || port == ReadBack(RecoverySlot) ==> RecoveryPending(l.replay, l.pending))
      && (RecoveryKnown(port) ==> |ledger| >= 7 && l.recovery in ledger)
      && (PlanBuilt(port) ==> l.plan.planRevision == l.proposed.planRevision)
      && (PlanKnown(port) ==> PlanEventDurable(ledger, l))
  }

  predicate Shape(base: bool, ledger: seq<Event>, attempts: seq<Attempt>, mode: Mode, port: Port, l: Locals) {
    && PortBelongs(mode, port) && SlotOk(port, l)
    && (mode == Advancing ==> AdvanceOk(ledger, attempts, port, l))
    && (mode == Resuming ==> ResumeOk(base, ledger, port, l))
  }

  predicate LocalsOk(ctx: Context, ledger: seq<Event>, attempts: seq<Attempt>, mode: Mode, port: Port, l: Locals) {
    Shape(ResumeBase(ctx, ledger, attempts, l.replay, l.proposed), ledger, attempts, mode, port, l)
  }

  /** What holds of an answer from the moment it is given. */
  predicate AnswerOk(ctx: Context, ledger: seq<Event>, attempts: seq<Attempt>, mode: Mode, port: Port, reply: Reply) {
    && (port == ReadReplay && reply.ReplayReply? ==>
          && reply.events <= ledger
          && (reply.events == [] ==> attempts == [])
          && (|reply.events| == 6 ==> NoResume(attempts) && forall a | a in attempts :: PlanDurable(reply.events, a.revision)))
    && (port.ReadBack? && reply.EventReply? ==> reply.event in ledger)
  }

  predicate CallOk(ctx: Context, ledger: seq<Event>, attempts: seq<Attempt>, call: Call) {
    match call
    case Active(mode, AtPort(port, answer), l) =>
      && LocalsOk(ctx, ledger, attempts, mode, port, l)
      && (answer.Some? ==> AnswerOk(ctx, ledger, attempts, mode, port, answer.value))
    case Active(mode, AtReverify(port, reply), l) =>
      LocalsOk(ctx, ledger, attempts, mode, port, l) && AnswerOk(ctx, ledger, attempts, mode, port, reply)
    case Active(mode, await, _) => await.AtSuspend? || mode == Resuming
    case Idle => true
  }

  predicate ExecutionInvariant(ctx: Context, w: World) {
    HistoryOk(w.ledger, w.attempts) && CallOk(ctx, w.ledger, w.attempts, w.loop.call)
  }

  // ---------- Growth of the stream ----------

  lemma PlanStaysDurable(ledger: seq<Event>, more: seq<Event>, revision: int)
    requires PlanDurable(ledger, revision)
    ensures PlanDurable(ledger + more, revision)
  {
    var e :| e in ledger && e.payload.PlanRecorded? && e.payload.plan.planRevision == revision;
    assert e in ledger + more;
  }

  lemma HistoryGrows(ledger: seq<Event>, more: seq<Event>, attempts: seq<Attempt>)
    requires HistoryOk(ledger, attempts)
    ensures HistoryOk(ledger + more, attempts)
  {
    if attempts != [] && attempts[0].mode == Advancing { PlanStaysDurable(ledger, more, attempts[0].revision); }
  }

  lemma CallGrows(ctx: Context, ledger: seq<Event>, more: seq<Event>, attempts: seq<Attempt>, call: Call)
    requires CallOk(ctx, ledger, attempts, call)
    ensures CallOk(ctx, ledger + more, attempts, call)
  {
    assert forall e | e in ledger :: e in ledger + more;
  }

  lemma GrowthKeeps(ctx: Context, ledger: seq<Event>, more: seq<Event>, attempts: seq<Attempt>, call: Call)
    requires HistoryOk(ledger, attempts) && CallOk(ctx, ledger, attempts, call)
    ensures HistoryOk(ledger + more, attempts) && CallOk(ctx, ledger + more, attempts, call)
  {
    HistoryGrows(ledger, more, attempts);
    CallGrows(ctx, ledger, more, attempts, call);
  }

  // ---------- What a new answer brings ----------

  lemma AnswerIsOk(ctx: Context, w: World, reply: Reply, appended: seq<Event>)
    requires ExecutionInvariant(ctx, w) && Enabled(ctx, w, Answer(reply, appended))
    ensures AnswerOk(ctx, w.ledger + appended, w.attempts, w.loop.call.mode, w.loop.call.await.port, reply)
  {
    var port := w.loop.call.await.port;
    if port == ReadReplay && reply.ReplayReply? {
      assert w.ledger + appended == w.ledger;
    }
    if port.ReadBack? { assert w.ledger + appended == w.ledger; }
  }

  // ---------- One continuation ----------

  /** Only the first of the six events is a plan, so an executed plan among them is that one. */
  lemma OnlyPlanOfSuspendedReplay(ctx: Context, events: seq<Event>, revision: int)
    requires SuspendedReplay(ctx, events) && PlanDurable(events, revision)
    ensures revision == events[0].payload.plan.planRevision
  {
    var e :| e in events && e.payload.PlanRecorded? && e.payload.plan.planRevision == revision;
    var i :| 0 <= i < |events| && events[i] == e;
    assert i == 0;
  }

  /** A recovery record spends a unit that none of the six events has spent, so it is a seventh event. */
  lemma RecoveryIsNew(ctx: Context, ledger: seq<Event>, l: Locals, e: Event)
    requires SuspendedReplay(ctx, l.replay) && l.replay <= ledger && RecoveryPending(l.replay, l.pending)
    requires e in ledger && e.payload == l.pending
    ensures |ledger| >= 7
  {
    var spent := BudgetOf(l.pending).consumed;
    AdvanceIsProgress(BudgetOf(l.replay[5].payload), ObservationRecords);
    var i :| 0 <= i < |ledger| && ledger[i] == e;
    if i < 6 {
      assert l.replay[i] == e;
      ChainIsMonotone(Budgets(l.replay), i, 5, ObservationRecords);
      assert false;
    }
  }

  /** A resume that goes on from the events it read has its base. */
  lemma ResumeBaseFromReplay(ctx: Context, ledger: seq<Event>, attempts: seq<Attempt>, events: seq<Event>, l: Locals)
    requires HistoryOk(ledger, attempts)
    requires AnswerOk(ctx, ledger, attempts, Resuming, ReadReplay, ReplayReply(ctx.identity, events))
    requires ReplayResumable(ctx, l.proposed, events)
    ensures ResumeBase(ctx, ledger, attempts, events, l.proposed)
  {
    if attempts != [] {
      assert attempts[0] in attempts;
      OnlyPlanOfSuspendedReplay(ctx, events, attempts[0].revision);
    }
  }

  /** The move keeps what was read, keeps the invariant and does not run the tool. */
  predicate QuietMove(base: bool, ledger: seq<Event>, attempts: seq<Attempt>, mode: Mode, l: Locals, m: Move) {
    m.Ask? ==>
      && m.port != ExecuteTool
      && m.locals.replay == l.replay && m.locals.proposed == l.proposed
      && Shape(base, ledger, attempts, mode, m.port, m.locals)
  }

  /** The move runs the tool on the plan that was read back. */
  predicate ExecutingMove(port: Port, l: Locals, m: Move) {
    m.Ask? && m.port == ExecuteTool && m.locals.plan == l.plan && (port == RequestTool || port == ReadDecision)
  }

  lemma ReplayMoveKeeps(base: bool, ledger: seq<Event>, attempts: seq<Attempt>, mode: Mode, ready: bool, resumable: bool, l: Locals)
    requires mode == Advancing && l.replay == [] ==> attempts == []
    requires mode == Resuming && resumable ==> base
    ensures QuietMove(base, ledger, attempts, mode, l, ReplayMove(mode, ready, resumable, l))
  {
  }

  lemma AfterReadReplayKeeps(ctx: Context, ledger: seq<Event>, attempts: seq<Attempt>, mode: Mode, reply: Reply, l: Locals)
    requires HistoryOk(ledger, attempts)
    requires AnswerOk(ctx, ledger, attempts, mode, ReadReplay, reply)
    ensures var m := After(ctx, mode, ReadReplay, reply, l);
            m.Ask? ==> m.port != ExecuteTool && LocalsOk(ctx, ledger, attempts, mode, m.port, m.locals)
  {
    if reply.ReplayReply? && reply.identity == ctx.identity {
      var events := reply.events;
      var ready, resumable := ReplayReady(ctx.accepts(events), events, l.proposed), ReplayResumable(ctx, l.proposed, events);
      if mode == Resuming && resumable { ResumeBaseFromReplay(ctx, ledger, attempts, events, l); }
      ReplayMoveKeeps(ResumeBase(ctx, ledger, attempts, events, l.proposed), ledger, attempts, mode, ready, resumable,
                      l.(replay := events));
    }
  }

  /** Everything the next attempt needs is in place when the tool is about to run. */
  lemma ExecutionIsDue(ctx: Context, ledger: seq<Event>, attempts: seq<Attempt>, mode: Mode, port: Port, l: Locals)
    requires HistoryOk(ledger, attempts) && LocalsOk(ctx, ledger, attempts, mode, port, l)
    requires port == RequestTool || port == ReadDecision
    ensures HistoryOk(ledger, attempts + [Attempt(mode, l.plan.planRevision)])
  {
    assert PlanKnown(port);
    assert PlanDurable(ledger, l.plan.planRevision);
  }

  lemma AfterRecoveryKeeps(ctx: Context, ledger: seq<Event>, attempts: seq<Attempt>, e: Event, l: Locals)
    requires LocalsOk(ctx, ledger, attempts, Resuming, ReadBack(RecoverySlot), l)
    requires e in ledger && e == l.event
    ensures var base := ResumeBase(ctx, ledger, attempts, l.replay, l.proposed);
            QuietMove(base, ledger, attempts, Resuming, l, AfterSlot(Resuming, RecoverySlot, e, l))
  {
    RecoveryIsNew(ctx, ledger, l, e);
  }

  lemma AfterPlanEventKeeps(base: bool, ledger: seq<Event>, attempts: seq<Attempt>, mode: Mode, e: Event, l: Locals)
    requires Shape(base, ledger, attempts, mode, ReadBack(PlanSlot), l)
    requires e in ledger && e == l.event
    ensures QuietMove(base, ledger, attempts, mode, l, AfterPlanEvent(e, l))
  {
  }

  lemma AfterToolEventKeeps(base: bool, ledger: seq<Event>, attempts: seq<Attempt>, mode: Mode, e: Event, l: Locals)
    ensures QuietMove(base, ledger, attempts, mode, l, AfterToolEvent(e, l))
  {
  }

  lemma AfterSlotKeeps(ctx: Context, ledger: seq<Event>, attempts: seq<Attempt>, mode: Mode, slot: Slot, e: Event, l: Locals)
    requires LocalsOk(ctx, ledger, attempts, mode, ReadBack(slot), l)
    requires e in ledger && e == l.event
    ensures var base := ResumeBase(ctx, ledger, attempts, l.replay, l.proposed);
            QuietMove(base, ledger, attempts, mode, l, AfterSlot(mode, slot, e, l))
  {
    var base := ResumeBase(ctx, ledger, attempts, l.replay, l.proposed);
    match slot
    case RecoverySlot => AfterRecoveryKeeps(ctx, ledger, attempts, e, l);
    case PlanSlot => AfterPlanEventKeeps(base, ledger, attempts, mode, e, l);
    case ToolSlot => AfterToolEventKeeps(base, ledger, attempts, mode, e, l);
    case _ =>
  }

  lemma AfterBindingsKeeps(base: bool, ledger: seq<Event>, attempts: seq<Attempt>, mode: Mode, bs: seq<Binding>, l: Locals)
    requires Shape(base, ledger, attempts, mode, PrepareBindings, l)
    ensures QuietMove(base, ledger, attempts, mode, l, AfterBindings(mode, bs, l))
  {
  }

  lemma AppendToolStepKeeps(base: bool, ledger: seq<Event>, attempts: seq<Attempt>, mode: Mode, l: Locals)
    ensures QuietMove(base, ledger, attempts, mode, l, AppendToolStep(l))
  {
  }

  lemma AppendRecoveryKeeps(ledger: seq<Event>, attempts: seq<Attempt>, prior: Plan, id: string, l: Locals)
    requires |l.replay| == 6
    ensures QuietMove(true, ledger, attempts, Resuming, l, AppendRecovery(prior, id, l.replay[5], l))
  {
  }

  lemma AfterSuspensionRereadKeeps(base: bool, ledger: seq<Event>, attempts: seq<Attempt>, i: Issued, m: Material, l: Locals)
    requires base
    ensures QuietMove(base, ledger, attempts, Resuming, l, AfterSuspensionReread(i, m, l))
  {
    if |l.replay| == 6 && l.replay[0].payload.PlanRecorded? {
      AppendRecoveryKeeps(ledger, attempts, l.replay[0].payload.plan, l.replay[0].id, l);
    }
  }

  lemma AfterHandoffKeeps(
      base: bool, ledger: seq<Event>, attempts: seq<Attempt>, mode: Mode, replayed: bool, p: HandoffProjection, l: Locals)
    ensures QuietMove(base, ledger, attempts, mode, l, AfterHandoff(replayed, p, l))
  {
  }

  lemma AfterRequestKeeps(base: bool, ledger: seq<Event>, attempts: seq<Attempt>, mode: Mode, i: Issued, m: Material, l: Locals)
    requires Shape(base, ledger, attempts, mode, RequestTool, l)
    ensures var move := AfterRequest(mode, i, m, l);
            QuietMove(base, ledger, attempts, mode, l, move) || ExecutingMove(RequestTool, l, move)
  {
  }

  lemma AfterIssuedKeeps(
      base: bool, ledger: seq<Event>, attempts: seq<Attempt>, mode: Mode, port: Port, i: Issued, m: Material, l: Locals)
    requires Shape(base, ledger, attempts, mode, port, l)
    ensures var move := AfterIssued(mode, port, i, m, l);
            QuietMove(base, ledger, attempts, mode, l, move) || ExecutingMove(port, l, move)
  {
    match port
    case RequestTool => AfterRequestKeeps(base, ledger, attempts, mode, i, m, l);
    case Reread(AfterSuspension) => AfterSuspensionRereadKeeps(base, ledger, attempts, i, m, l);
    case _ => AppendToolStepKeeps(base, ledger, attempts, mode, l.(current := i, material := m));
  }

  lemma AfterAppendKeeps(base: bool, ledger: seq<Event>, attempts: seq<Attempt>, mode: Mode, slot: Slot, e: Event, l: Locals)
    requires Shape(base, ledger, attempts, mode, Append(slot), l) && e.payload == l.pending
    ensures Shape(base, ledger, attempts, mode, ReadBack(slot), l.(event := e))
  {
  }

  lemma AfterCandidateKeeps(base: bool, ledger: seq<Event>, attempts: seq<Attempt>, mode: Mode, l: Locals)
    requires Shape(base, ledger, attempts, mode, CreateCandidate, l)
    ensures Shape(base, ledger, attempts, mode, PrepareBindings, l)
  {
  }

  lemma AfterEventKeeps(ctx: Context, ledger: seq<Event>, attempts: seq<Attempt>, mode: Mode, port: Port, e: Event, l: Locals)
    requires LocalsOk(ctx, ledger, attempts, mode, port, l)
    requires port.ReadBack? ==> e in ledger
    ensures var base := ResumeBase(ctx, ledger, attempts, l.replay, l.proposed);
            QuietMove(base, ledger, attempts, mode, l, AfterEvent(mode, port, e, l))
  {
    if port.Append? && e.payload == l.pending {
      AfterAppendKeeps(ResumeBase(ctx, ledger, attempts, l.replay, l.proposed), ledger, attempts, mode, port.slot, e, l);
    } else if port.ReadBack? && e == l.event {
      AfterSlotKeeps(ctx, ledger, attempts, mode, port.slot, e, l);
    }
  }

  lemma AfterRejectionKeeps(ctx: Context, base: bool, ledger: seq<Event>, attempts: seq<Attempt>, mode: Mode, port: Port, l: Locals)
    requires Shape(base, ledger, attempts, mode, port, l)
    ensures QuietMove(base, ledger, attempts, mode, l, After(ctx, mode, port, Rejected, l))
  {
  }

  /** Every continuation but that of the replay itself keeps the invariant or runs the tool. */
  lemma AfterKeeps(ctx: Context, ledger: seq<Event>, attempts: seq<Attempt>, mode: Mode, port: Port, reply: Reply, l: Locals)
    requires LocalsOk(ctx, ledger, attempts, mode, port, l) && AnswerOk(ctx, ledger, attempts, mode, port, reply)
    requires !reply.ReplayReply?
    ensures var m := After(ctx, mode, port, reply, l);
            var base := ResumeBase(ctx, ledger, attempts, l.replay, l.proposed);
            QuietMove(base, ledger, attempts, mode, l, m) || ExecutingMove(port, l, m)
  {
    var base := ResumeBase(ctx, ledger, attempts, l.replay, l.proposed);
    match reply
    case Rejected => AfterRejectionKeeps(ctx, base, ledger, attempts, mode, port, l);
    case CandidateReply(_) => if port == CreateCandidate { AfterCandidateKeeps(base, ledger, attempts, mode, l); }
    case BindingsReply(bs) => if port == PrepareBindings { AfterBindingsKeeps(base, ledger, attempts, mode, bs, l); }
    case EventReply(e) => AfterEventKeeps(ctx, ledger, attempts, mode, port, e, l);
    case IssuedReply(i, m) => if m.Some? { AfterIssuedKeeps(base, ledger, attempts, mode, port, i, m.value, l); }
    case HandoffReply(p) => if port.ReadHandoff? { AfterHandoffKeeps(base, ledger, attempts, mode, port.replayed, p, l); }
    case Malformed =>
  }

  lemma ContinueKeepsExecution(ctx: Context, w: World, next: Token)
    requires ExecutionInvariant(ctx, w)
    requires w.loop.call.Active? && w.loop.call.await.AtReverify?
    ensures ExecutionInvariant(ctx, Continue(ctx, w, next))
  {
    var call := w.loop.call;
    var port, reply, l := call.await.port, call.await.reply, call.locals;
    if reply.ReplayReply? {
      if port == ReadReplay { AfterReadReplayKeeps(ctx, w.ledger, w.attempts, call.mode, reply, l); }
    } else {
      AfterKeeps(ctx, w.ledger, w.attempts, call.mode, port, reply, l);
      if ExecutingMove(port, l, After(ctx, call.mode, port, reply, l)) {
        ExecutionIsDue(ctx, w.ledger, w.attempts, call.mode, port, l);
      }
    }
  }

  lemma GrowthStepKeepsExecution(ctx: Context, w: World, s: StepLabel)
    requires ExecutionInvariant(ctx, w) && Enabled(ctx, w, s) && (s.Answer? || s.OtherWriter?)
    ensures ExecutionInvariant(ctx, Apply(ctx, w, s))
  {
    match s
    case Answer(reply, appended) =>
      AnswerIsOk(ctx, w, reply, appended);
      GrowthKeeps(ctx, w.ledger, appended, w.attempts, w.loop.call);
    case OtherWriter(appended) => GrowthKeeps(ctx, w.ledger, appended, w.attempts, w.loop.call);
  }

  lemma StepKeepsExecution(ctx: Context, w: World, s: StepLabel)
    requires ExecutionInvariant(ctx, w) && Enabled(ctx, w, s)
    ensures ExecutionInvariant(ctx, Apply(ctx, w, s))
  {
    if s.Answer? || s.OtherWriter? {
      GrowthStepKeepsExecution(ctx, w, s);
    } else if s.Reverified? && s.next.Some? {
      ContinueKeepsExecution(ctx, w, s.next.value);
    } else {
      OtherStepKeepsExecution(ctx, w, s);
    }
  }

  lemma OtherStepKeepsExecution(ctx: Context, w: World, s: StepLabel)
    requires ExecutionInvariant(ctx, w) && Enabled(ctx, w, s)
    requires !s.Answer? && !s.OtherWriter? && !(s.Reverified? && s.next.Some?)
    ensures ExecutionInvariant(ctx, Apply(ctx, w, s))
  {
  }

  lemma {:induction false} RunKeepsExecution(ctx: Context, ws: seq<World>, ss: seq<StepLabel>, n: nat)
    requires Run(ctx, ws, ss) && n < |ws|
    ensures ExecutionInvariant(ctx, ws[n])
    decreases n
  {
    if n > 0 {
      RunKeepsExecution(ctx, ws, ss, n - 1);
      StepKeepsExecution(ctx, ws[n - 1], ss[n - 1]);
    }
  }

  // ---------- Main results ----------

  /**
   Over every run of one loop, with crashes at every await, other writers and
   any port answers, no plan revision is executed twice: an advance attempts at
   most once and a resume at most once, of the following revision.
   */
  lemma AtMostOneAttemptPerRevision(ctx: Context, ws: seq<World>, ss: seq<StepLabel>, n: nat)
    requires Run(ctx, ws, ss) && n < |ws|
    ensures var attempts := ws[n].attempts;
            && (forall i, j | 0 <= i < j < |attempts| :: attempts[i].revision != attempts[j].revision)
            && |attempts| <= 2
            && (|attempts| == 2 ==> attempts[0].mode == Advancing && attempts[1].mode == Resuming)
  {
    RunKeepsExecution(ctx, ws, ss, n);
  }

  /** Only a continuation runs the tool, and only from a request or a decision. */
  lemma ExecutingStep(ctx: Context, w: World, s: StepLabel)
    requires ExecutionInvariant(ctx, w) && Enabled(ctx, w, s) && |Apply(ctx, w, s).attempts| > |w.attempts|
    ensures w.loop.call.Active? && w.loop.call.await.AtReverify?
    ensures w.loop.call.await.port == RequestTool || w.loop.call.await.port == ReadDecision
    ensures Apply(ctx, w, s).attempts == w.attempts + [Attempt(w.loop.call.mode, w.loop.call.locals.plan.planRevision)]
  {
    if s.Reverified? && s.next.Some? {
      var call := w.loop.call;
      var port, reply, l := call.await.port, call.await.reply, call.locals;
      if reply.ReplayReply? {
        if port == ReadReplay { AfterReadReplayKeeps(ctx, w.ledger, w.attempts, call.mode, reply, l); }
      } else {
        AfterKeeps(ctx, w.ledger, w.attempts, call.mode, port, reply, l);
      }
    }
  }

  /**
   An attempt is made only when it is permitted: by an advance after an empty
   replay and with its plan durable in the stream, by a resume after a replay of
   exactly six suspended events, with its recovery observation and its new plan
   durable and the stream at least seven events long.
   */
  lemma AttemptsAreBackedByTheStream(ctx: Context, ws: seq<World>, ss: seq<StepLabel>, n: nat)
    requires Run(ctx, ws, ss) && n < |ss|
    requires |ws[n + 1].attempts| > |ws[n].attempts|
    ensures ws[n].loop.call.Active?
    ensures var call, ledger := ws[n].loop.call, ws[n].ledger;
            && ws[n + 1].attempts == ws[n].attempts + [Attempt(call.mode, call.locals.plan.planRevision)]
            && call.locals.planEvent in ledger
            && call.locals.planEvent.payload == PlanRecorded(call.locals.plan)
            && (call.mode == Advancing ==> call.locals.replay == [] && ws[n].attempts == [])
            && (call.mode == Resuming ==>
                  && SuspendedReplay(ctx, call.locals.replay) && call.locals.replay <= ledger
                  && call.locals.recovery in ledger && |ledger| >= 7
                  && call.locals.plan.planRevision == call.locals.replay[0].payload.plan.planRevision + 1)
  {
    RunKeepsExecution(ctx, ws, ss, n);
    assert ws[n + 1] == Apply(ctx, ws[n], ss[n]);
    ExecutingStep(ctx, ws[n], ss[n]);
  }
}
