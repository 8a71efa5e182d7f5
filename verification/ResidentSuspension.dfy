/**
 When an advance suspends: exactly when its final observation has been read back
 while its gateway record is short of completed and the candidate says when it
 was assessed. And it does: every four records that the builders make are what
 some run has written when it hands its token to the suspension, behind a
 rejected decision as well as behind a rejected execution.
 */
module ResidentSuspension {
  import opened CanonicalJson
  import opened ResidentRecords
  import opened ResidentReplay
  import opened ResidentLoop
  import opened ResidentCooperation
  import Completion = ResidentLoopCompletion

  // ---------- When a call suspends ----------

  /** The call has read its final observation back and the answer is about to be reverified. */
  predicate FinalReadBack(call: Call) {
    && call.Active? && call.mode == Advancing
    && call.await == AtReverify(ReadBack(FinalSlot), EventReply(call.locals.event))
    && EventWellFormed(call.locals.event)
  }

  predicate SaysWhenAssessed(c: Candidate) {
    c.Initial? && c.assessedAt.Some?
  }

  /** The step hands this token to the suspension. */
  predicate HandsOver(w: World, t: World, token: Token) {
    exists k :: |w.log| <= k < |t.log| && t.log[k] == PresentedToSuspend(token)
  }

  lemma SuspendMove(ctx: Context, mode: Mode, port: Port, reply: Reply, l: Locals)
    ensures After(ctx, mode, port, reply, l) == Suspend <==>
            && mode == Advancing && port == ReadBack(FinalSlot) && reply == EventReply(l.event) && EventWellFormed(l.event)
            && l.current.stage != Completed && SaysWhenAssessed(l.candidate)
  {
  }

  lemma ThrowMove(ctx: Context, reply: Reply, l: Locals)
    requires reply == EventReply(l.event) && EventWellFormed(l.event)
    requires l.current.stage != Completed && !SaysWhenAssessed(l.candidate)
    ensures After(ctx, Advancing, ReadBack(FinalSlot), reply, l) == Throw
  {
  }

  lemma ContinueHandsOver(ctx: Context, w: World, next: Token, token: Token, m: Move)
    requires w.loop.call.Active? && w.loop.call.await.AtReverify?
    requires m == After(ctx, w.loop.call.mode, w.loop.call.await.port, w.loop.call.await.reply, w.loop.call.locals)
    ensures HandsOver(w, Continue(ctx, w, next), token) <==> m == Suspend && token == next
    ensures m == Suspend ==> Continue(ctx, w, next).log == w.log + [Granted(next), PresentedToSuspend(next)]
    ensures m == Throw ==> Continue(ctx, w, next).log == w.log + [Granted(next)] + [Ended(FailedCall)]
  {
    if m == Suspend { assert Continue(ctx, w, next).log[|w.log| + 1] == PresentedToSuspend(next); }
  }

  lemma OtherStepsHandNothingOver(ctx: Context, w: World, s: StepLabel, token: Token)
    requires Enabled(ctx, w, s) && !(s.Reverified? && s.next.Some?)
    ensures !HandsOver(w, Apply(ctx, w, s), token)
  {
  }

  lemma RunStep(ctx: Context, ws: seq<World>, ss: seq<StepLabel>, k: nat)
    requires Run(ctx, ws, ss) && k < |ss|
    ensures Enabled(ctx, ws[k], ss[k]) && ws[k + 1] == Apply(ctx, ws[k], ss[k])
  {
  }

  lemma StepHandsOver(ctx: Context, w: World, s: StepLabel, token: Token)
    requires Enabled(ctx, w, s)
    ensures HandsOver(w, Apply(ctx, w, s), token) <==>
            && s == Reverified(Some(token)) && FinalReadBack(w.loop.call)
            && w.loop.call.locals.current.stage != Completed && SaysWhenAssessed(w.loop.call.locals.candidate)
    ensures s.Reverified? && s.next.Some? && FinalReadBack(w.loop.call) && w.loop.call.locals.current.stage != Completed ==>
              Apply(ctx, w, s).log == w.log + [Granted(s.next.value)] +
                [if SaysWhenAssessed(w.loop.call.locals.candidate) then PresentedToSuspend(s.next.value) else Ended(FailedCall)]
  {
    if s.Reverified? && s.next.Some? {
      var call := w.loop.call;
      var m := After(ctx, call.mode, call.await.port, call.await.reply, call.locals);
      SuspendMove(ctx, call.mode, call.await.port, call.await.reply, call.locals);
      ContinueHandsOver(ctx, w, s.next.value, token, m);
      if FinalReadBack(call) && call.locals.current.stage != Completed && !SaysWhenAssessed(call.locals.candidate) {
        ThrowMove(ctx, call.await.reply, call.locals);
      }
      assert w.log + [Granted(s.next.value), PresentedToSuspend(s.next.value)] == w.log + [Granted(s.next.value)] + [PresentedToSuspend(s.next.value)];
    } else {
      OtherStepsHandNothingOver(ctx, w, s, token);
    }
  }

  /**
   In every run a token is handed to the suspension exactly by the reverification
   that granted it, of an advance that has read its final observation back, whose
   gateway record is not completed and whose candidate says when it was assessed.
   Without that last the call fails there.
   */
  lemma SuspendsExactly(ctx: Context, ws: seq<World>, ss: seq<StepLabel>, n: nat, token: Token)
    requires Run(ctx, ws, ss) && n < |ss|
    ensures HandsOver(ws[n], ws[n + 1], token) <==>
            && ss[n] == Reverified(Some(token)) && FinalReadBack(ws[n].loop.call)
            && ws[n].loop.call.locals.current.stage != Completed && SaysWhenAssessed(ws[n].loop.call.locals.candidate)
    ensures ss[n].Reverified? && ss[n].next.Some? && FinalReadBack(ws[n].loop.call) && ws[n].loop.call.locals.current.stage != Completed ==>
              ws[n + 1].log == ws[n].log + [Granted(ss[n].next.value)] +
                [if SaysWhenAssessed(ws[n].loop.call.locals.candidate) then PresentedToSuspend(ss[n].next.value) else Ended(FailedCall)]
  {
    RunStep(ctx, ws, ss, n);
    StepHandsOver(ctx, ws[n], ss[n], token);
  }

  // ---------- Why it suspends ----------

  /** The current call has had a request to this port rejected. */
  predicate RejectedSince(log: seq<Act>, port: Port) {
    log != [] &&
    var last := log[|log| - 1];
    last == RejectedBy(port) || (!last.Ended? && !last.Restarted? && RejectedSince(log[..|log| - 1], port))
  }

  lemma OneActMore(log: seq<Act>, a: Act, port: Port)
    ensures RejectedSince(log + [a], port) <==> a == RejectedBy(port) || (!a.Ended? && !a.Restarted? && RejectedSince(log, port))
  {
    assert (log + [a])[..|log|] == log;
  }

  lemma StillRejected(log: seq<Act>, acts: seq<Act>, last: Act, port: Port)
    requires |acts| <= 1 && (forall a | a in acts :: !a.Ended? && !a.Restarted?) && !last.Ended? && !last.Restarted?
    ensures RejectedSince(log, port) || RejectedBy(port) in acts || last == RejectedBy(port) ==> RejectedSince(log + acts + [last], port)
  {
    OneActMore(log + acts, last, port);
    if acts == [] {
      assert log + acts == log;
    } else {
      assert acts == [acts[0]];
      OneActMore(log, acts[0], port);
    }
  }

  /** The gateway record in hand says what was rejected, as far as the call has come. */
  predicate HasCause(log: seq<Act>, port: Port, l: Locals) {
    match port
    case Reread(AfterDecision) => RejectedSince(log, ReadDecision)
    case Reread(AfterExecution) => RejectedSince(log, ExecuteTool)
    case Append(slot) => slot == ToolSlot || slot == FinalSlot ==> RecordHasCause(log, l.current.stage)
    case ReadBack(slot) => slot == ToolSlot || slot == FinalSlot ==> RecordHasCause(log, l.current.stage)
    case _ => true
  }

  predicate RecordHasCause(log: seq<Act>, stage: Stage) {
    || stage == Completed
    || (stage == Requested && RejectedSince(log, ReadDecision))
    || (stage == Claimed && RejectedSince(log, ExecuteTool))
  }

  predicate CallHasCause(log: seq<Act>, call: Call) {
    match call
    case Active(_, AtPort(port, _), l) => HasCause(log, port, l)
    case Active(_, AtReverify(port, reply), l) => HasCause(log, port, l) && (reply.Rejected? ==> RejectedSince(log, port))
    case _ => true
  }

  lemma CauseCarriesOn(log: seq<Act>, more: seq<Act>, port: Port, l: Locals)
    requires HasCause(log, port, l) && forall p :: RejectedSince(log, p) ==> RejectedSince(more, p)
    ensures HasCause(more, port, l)
  {
  }

  lemma MoveHasCause(ctx: Context, log: seq<Act>, mode: Mode, port: Port, reply: Reply, l: Locals)
    requires HasCause(log, port, l) && (reply.Rejected? ==> RejectedSince(log, port))
    ensures var m := After(ctx, mode, port, reply, l); m.Ask? ==> HasCause(log, m.port, m.locals)
  {
  }

  lemma ContinueHasCause(ctx: Context, w: World, next: Token, m: Move)
    requires w.loop.call.Active? && w.loop.call.await.AtReverify? && CallHasCause(w.log, w.loop.call)
    requires m == After(ctx, w.loop.call.mode, w.loop.call.await.port, w.loop.call.await.reply, w.loop.call.locals)
    requires m.Ask? ==> HasCause(w.log, m.port, m.locals)
    ensures CallHasCause(Continue(ctx, w, next).log, Continue(ctx, w, next).loop.call)
  {
    if m.Ask? {
      var more := w.log + [Granted(next)] + [Called(m.port)];
      forall p | RejectedSince(w.log, p) ensures RejectedSince(more, p) { StillRejected(w.log, [Granted(next)], Called(m.port), p); }
      CauseCarriesOn(w.log, more, m.port, m.locals);
    }
  }

  lemma DeliverHasCause(w: World)
    requires w.loop.call.Active? && w.loop.call.await.AtPort? && w.loop.call.await.answer.Some? && CallHasCause(w.log, w.loop.call)
    ensures CallHasCause(DeliverReply(w).log, DeliverReply(w).loop.call)
  {
    var port, reply := w.loop.call.await.port, w.loop.call.await.answer.value;
    var acts := if reply.Rejected? then [RejectedBy(port)] else [];
    if w.loop.token.Some? {
      var last := Presented(w.loop.token.value);
      forall p | RejectedSince(w.log, p) || RejectedBy(p) in acts ensures RejectedSince(w.log + acts + [last], p) {
        StillRejected(w.log, acts, last, p);
      }
      CauseCarriesOn(w.log, w.log + acts + [last], port, w.loop.call.locals);
    }
  }

  lemma StepHasCause(ctx: Context, w: World, s: StepLabel)
    requires Enabled(ctx, w, s) && CallHasCause(w.log, w.loop.call)
    ensures CallHasCause(Apply(ctx, w, s).log, Apply(ctx, w, s).loop.call)
  {
    match s
    case Deliver => DeliverHasCause(w);
    case Reverified(Some(next)) =>
      var call := w.loop.call;
      var m := After(ctx, call.mode, call.await.port, call.await.reply, call.locals);
      MoveHasCause(ctx, w.log, call.mode, call.await.port, call.await.reply, call.locals);
      ContinueHasCause(ctx, w, next, m);
    case _ =>
  }

  lemma {:induction false} RunHasCause(ctx: Context, ws: seq<World>, ss: seq<StepLabel>, n: nat)
    requires Run(ctx, ws, ss) && n < |ws|
    ensures CallHasCause(ws[n].log, ws[n].loop.call)
    decreases n
  {
    if n > 0 {
      RunHasCause(ctx, ws, ss, n - 1);
      RunStep(ctx, ws, ss, n - 1);
      StepHasCause(ctx, ws[n - 1], ss[n - 1]);
    }
  }

  /**
   In every run a call that suspends has been refused something: its gateway
   record is still requested and reading the decision was rejected in this call,
   or it is claimed and the execution was.
   */
  lemma SuspensionHasCause(ctx: Context, ws: seq<World>, ss: seq<StepLabel>, n: nat, token: Token)
    requires Run(ctx, ws, ss) && n < |ss| && HandsOver(ws[n], ws[n + 1], token)
    ensures var stage := ws[n].loop.call.locals.current.stage;
            || (stage == Requested && RejectedSince(ws[n].log, ReadDecision))
            || (stage == Claimed && RejectedSince(ws[n].log, ExecuteTool))
  {
    SuspendsExactly(ctx, ws, ss, n, token);
    RunHasCause(ctx, ws, ss, n);
  }

  /** The step ends the call as suspended. */
  predicate EndsSuspended(w: World, t: World) {
    exists k :: |w.log| <= k < |t.log| && t.log[k] == Ended(SuspendedCall)
  }

  /** And the settlement of a suspension, and nothing else, ends a call as suspended. */
  lemma SuspendedExactly(ctx: Context, ws: seq<World>, ss: seq<StepLabel>, n: nat)
    requires Run(ctx, ws, ss) && n < |ss|
    ensures EndsSuspended(ws[n], ws[n + 1]) <==> ss[n] == SuspendSettled(true)
    ensures ss[n].SuspendSettled? ==> ws[n + 1].loop == Loop(None, Idle) && ws[n + 1].ledger == ws[n].ledger
  {
    RunStep(ctx, ws, ss, n);
    SettledSuspends(ctx, ws[n], ss[n]);
  }

  lemma SettledSuspends(ctx: Context, w: World, s: StepLabel)
    requires Enabled(ctx, w, s)
    ensures EndsSuspended(w, Apply(ctx, w, s)) <==> s == SuspendSettled(true)
    ensures s.SuspendSettled? ==> Apply(ctx, w, s).loop == Loop(None, Idle) && Apply(ctx, w, s).ledger == w.ledger
  {
    if s == SuspendSettled(true) { assert Apply(ctx, w, s).log[|w.log|] == Ended(SuspendedCall); }
  }

  // ---------- Every suspended segment is written by some advance ----------

  /** The four records behind a suspension, built with a gateway record at this stage. */
  predicate WrittenToSuspend(events: seq<Event>, proposed: Plan, b: Binding, m: Material, stage: Stage) {
    && |events| == 4
    && events[0].payload.PlanRecorded? && BoundOk(proposed, b, events[0].payload.plan)
    && ContextPart(events[0].payload.plan, events[0].id, events[1].payload)
    && ToolPart(events[0].payload.plan, events[0].id, BudgetOf(events[1].payload), m, stage, KeyOfBinding(b), events[2].payload)
    && FinalPart(events[0].payload.plan, events[0].id, events[2], m, KeyOfBinding(b), events[3].payload)
  }

  /** The gateway asks for a human decision, and the record stays requested. */
  predicate StaysRequested(b: Binding, g: Gateway, i: Issued, m: Material) {
    && MaterialValid(g.requestedMaterial, g.requested, b) && g.requested.authorization == HumanApproval
    && i.stage == Requested && MaterialValid(m, i, b)
  }

  /** The tool may be executed, but the record gets no further than claimed. */
  predicate StaysClaimed(b: Binding, g: Gateway, i: Issued, m: Material) {
    MayExecute(Advancing, b, g) && i.stage == Claimed && MaterialValid(m, i, b)
  }

  /** Some run arrives where the reverification of this step hands its token to the suspension. */
  ghost predicate Suspends(ctx: Context, l: Locals, ledger: seq<Event>) {
    exists ws: seq<World>, ss: seq<StepLabel>, token: Token :: Run(ctx, ws, ss) && SuspendsLast(ws, ss, token, l, ledger)
  }

  predicate SuspendsLast(ws: seq<World>, ss: seq<StepLabel>, token: Token, l: Locals, ledger: seq<Event>) {
    && |ws| == |ss| + 1 && ss != []
    && HandsOver(ws[|ss| - 1], ws[|ss|], token) && About(ws[|ss|], Advancing, l, ledger)
  }

  lemma DecisionIsNeeded(ctx: Context, g: Gateway, l: Locals)
    requires MaterialValid(g.requestedMaterial, g.requested, l.binding) && g.requested.authorization == HumanApproval
    ensures After(ctx, Advancing, RequestTool, IssuedReply(g.requested, Some(g.requestedMaterial)), l) ==
            Ask(ReadDecision, l.(requested := g.requested, current := g.requested, material := g.requestedMaterial))
  {
  }

  lemma RejectionRereads(ctx: Context, l: Locals)
    ensures After(ctx, Advancing, ReadDecision, Rejected, l) == Ask(Reread(AfterDecision), l)
    ensures After(ctx, Advancing, ExecuteTool, Rejected, l) == Ask(Reread(AfterExecution), l)
  {
  }

  lemma RecordAdopted(ctx: Context, purpose: RereadPurpose, i: Issued, m: Material, l: Locals, p: Payload)
    requires (purpose == AfterDecision && i.stage == Requested) || (purpose == AfterExecution && i.stage == Claimed)
    requires MaterialValid(m, i, l.binding)
    requires ToolPart(l.plan, l.planEvent.id, BudgetOf(l.contextEvent.payload), m, i.stage, KeyOfBinding(l.binding), p)
    ensures After(ctx, Advancing, Reread(purpose), IssuedReply(i, Some(m)), l) ==
            Ask(Append(ToolSlot), l.(current := i, material := m, pending := p))
  {
  }

  /** With the record reread after a rejection, the tool step and the final observation are written and read back. */
  lemma WritesToSuspend(
      ctx: Context, purpose: RereadPurpose, l: Locals, ledger: seq<Event>, i: Issued, m: Material, tool: Event, final: Event)
    returns (r: Locals)
    requires ReachesWaiting(ctx, Advancing, Reread(purpose), l, ledger)
    requires (purpose == AfterDecision && i.stage == Requested) || (purpose == AfterExecution && i.stage == Claimed)
    requires MaterialValid(m, i, l.binding) && EventWellFormed(tool) && EventWellFormed(final)
    requires ToolPart(l.plan, l.planEvent.id, BudgetOf(l.contextEvent.payload), m, i.stage, KeyOfBinding(l.binding), tool.payload)
    requires FinalPart(l.plan, l.planEvent.id, tool, m, KeyOfBinding(l.binding), final.payload)
    ensures r == l.(current := i, material := m, toolEvent := tool, event := final, pending := final.payload)
    ensures ReachesChecking(ctx, Advancing, ReadBack(FinalSlot), EventReply(final), r, ledger + [tool] + [final])
  {
    var first := l.(current := i, material := m, pending := tool.payload);
    RecordAdopted(ctx, purpose, i, m, l, tool.payload);
    Round(ctx, Advancing, Reread(purpose), l, ledger, IssuedReply(i, Some(m)), Ask(Append(ToolSlot), first));
    var second := first.(event := tool, toolEvent := tool, pending := final.payload);
    ToolWritten(Advancing, tool, final.payload, first.(event := tool));
    Writes(ctx, Advancing, ToolSlot, first, ledger, tool, Ask(Append(FinalSlot), second));
    r := second.(event := final);
    WritesAndReads(ctx, Advancing, FinalSlot, second, ledger + [tool], final);
  }

  lemma CheckedSuspends(ctx: Context, l: Locals, ledger: seq<Event>)
    requires ReachesChecking(ctx, Advancing, ReadBack(FinalSlot), EventReply(l.event), l, ledger) && EventWellFormed(l.event)
    requires l.current.stage != Completed && SaysWhenAssessed(l.candidate)
    ensures Suspends(ctx, l, ledger)
  {
    var ws: seq<World>, ss: seq<StepLabel> :| Run(ctx, ws, ss) && Checking(ws[|ss|], Advancing, ReadBack(FinalSlot), EventReply(l.event), l, ledger);
    var next := Bounded(ws[|ss|].issued);
    var step := Reverified(Some(next));
    Extend(ctx, ws, ss, step);
    StepHandsOver(ctx, ws[|ss|], step, next);
    SuspendedAwaits(ctx, ws[|ss|], next, l, ledger);
    var more, steps := ws + [Apply(ctx, ws[|ss|], step)], ss + [step];
    assert more[|steps| - 1] == ws[|ss|] && more[|steps|] == Apply(ctx, ws[|ss|], step);
    assert SuspendsLast(more, steps, next, l, ledger);
  }

  lemma SuspendedAwaits(ctx: Context, w: World, next: Token, l: Locals, ledger: seq<Event>)
    requires Checking(w, Advancing, ReadBack(FinalSlot), EventReply(l.event), l, ledger) && EventWellFormed(l.event)
    requires l.current.stage != Completed && SaysWhenAssessed(l.candidate)
    ensures About(Continue(ctx, w, next), Advancing, l, ledger)
  {
    SuspendMove(ctx, Advancing, ReadBack(FinalSlot), EventReply(l.event), l);
  }

  /** What the suspended call holds: the four records, the binding, and the gateway record and material it stopped at. */
  predicate HoldsFour(l: Locals, c: Candidate, events: seq<Event>, b: Binding, i: Issued, m: Material) {
    && [l.planEvent, l.contextEvent, l.toolEvent, l.event] == events
    && l.candidate == c && l.proposed == c.plan && l.binding == b && l.current == i && l.material == m
  }

  /** A human decision is asked for and rejected: the record is read again as requested. */
  lemma DecisionRejected(ctx: Context, l: Locals, ledger: seq<Event>, g: Gateway) returns (r: Locals)
    requires ReachesWaiting(ctx, Advancing, RequestTool, l, ledger)
    requires MaterialValid(g.requestedMaterial, g.requested, l.binding) && g.requested.authorization == HumanApproval
    ensures r == l.(requested := g.requested, current := g.requested, material := g.requestedMaterial)
    ensures ReachesWaiting(ctx, Advancing, Reread(AfterDecision), r, ledger)
  {
    r := l.(requested := g.requested, current := g.requested, material := g.requestedMaterial);
    DecisionIsNeeded(ctx, g, l);
    Round(ctx, Advancing, RequestTool, l, ledger, IssuedReply(g.requested, Some(g.requestedMaterial)), Ask(ReadDecision, r));
    RejectionRereads(ctx, r);
    Round(ctx, Advancing, ReadDecision, r, ledger, Rejected, Ask(Reread(AfterDecision), r));
  }

  /** The execution is attempted and rejected: the record is read again as claimed. */
  lemma ExecutionRejected(ctx: Context, l: Locals, ledger: seq<Event>, g: Gateway) returns (r: Locals)
    requires ReachesWaiting(ctx, Advancing, RequestTool, l, ledger) && MayExecute(Advancing, l.binding, g)
    ensures r == l.(requested := r.requested, current := r.current, material := r.material, approved := r.approved)
    ensures ReachesWaiting(ctx, Advancing, Reread(AfterExecution), r, ledger)
  {
    r := ReachesExecution(ctx, Advancing, l, ledger, g);
    RejectionRereads(ctx, r);
    Round(ctx, Advancing, ExecuteTool, r, ledger, Rejected, Ask(Reread(AfterExecution), r));
  }

  lemma ReachesReread(ctx: Context, l: Locals, ledger: seq<Event>, g: Gateway, i: Issued, m: Material) returns (r: Locals, purpose: RereadPurpose)
    requires ReachesWaiting(ctx, Advancing, RequestTool, l, ledger)
    requires StaysRequested(l.binding, g, i, m) || StaysClaimed(l.binding, g, i, m)
    ensures r == l.(requested := r.requested, current := r.current, material := r.material, approved := r.approved)
    ensures (purpose == AfterDecision && i.stage == Requested) || (purpose == AfterExecution && i.stage == Claimed)
    ensures ReachesWaiting(ctx, Advancing, Reread(purpose), r, ledger)
  {
    if StaysRequested(l.binding, g, i, m) {
      r := DecisionRejected(ctx, l, ledger, g);
      purpose := AfterDecision;
    } else {
      r := ExecutionRejected(ctx, l, ledger, g);
      purpose := AfterExecution;
    }
  }

  /**
   Every four records that the builders make from a request that stays requested,
   because nobody has decided, or from one that stays claimed, because its
   execution was rejected, are what some advance has written, and all there is in
   the stream, when it hands its token to the suspension.
   */
  lemma EverySuspensionOccurs(ctx: Context, c: Candidate, events: seq<Event>, b: Binding, g: Gateway, i: Issued, m: Material)
    requires AdvanceAdmissible(ctx, c) && SaysWhenAssessed(c)
    requires WrittenToSuspend(events, c.plan, b, m, i.stage) && forall e | e in events :: EventWellFormed(e)
    requires StaysRequested(b, g, i, m) || StaysClaimed(b, g, i, m)
    ensures exists l :: Suspends(ctx, l, events) && HoldsFour(l, c, events, b, i, m)
  {
    AdvanceReachesCandidate(ctx, c);
    var l := WritesFour(ctx, StartLocals(c, c.plan), b, g, i, m, events[0], events[1], events[2], events[3]);
    FourOneByOne(events);
    SuspendsHolding(ctx, c, l, events, b, i, m);
  }

  lemma AdvanceReachesCandidate(ctx: Context, c: Candidate)
    requires AdvanceAdmissible(ctx, c)
    ensures ReachesWaiting(ctx, Advancing, CreateCandidate, StartLocals(c, c.plan), [])
    ensures CandidateWellFormed(c)
  {
    var start := StartLocals(c, c.plan);
    AdvanceBegins(ctx, c);
    EmptyReplay(ctx, start);
    Round(ctx, Advancing, ReadReplay, start, [], ReplayReply(ctx.identity, []), Ask(CreateCandidate, start));
  }

  lemma FourOneByOne(events: seq<Event>)
    requires |events| == 4
    ensures [] + [events[0]] + [events[1]] + [events[2]] + [events[3]] == events
    ensures [events[0], events[1], events[2], events[3]] == events
  {
  }

  lemma SuspendsHolding(ctx: Context, c: Candidate, l: Locals, events: seq<Event>, b: Binding, i: Issued, m: Material)
    requires ReachesChecking(ctx, Advancing, ReadBack(FinalSlot), EventReply(l.event), l, events) && EventWellFormed(l.event)
    requires HoldsFour(l, c, events, b, i, m) && i.stage != Completed && SaysWhenAssessed(c)
    ensures exists r :: Suspends(ctx, r, events) && HoldsFour(r, c, events, b, i, m)
  {
    CheckedSuspends(ctx, l, events);
  }

  lemma WritesFour(
      ctx: Context, start: Locals, b: Binding, g: Gateway, i: Issued, m: Material, plan: Event, seen: Event, tool: Event, final: Event)
    returns (r: Locals)
    requires ReachesWaiting(ctx, Advancing, CreateCandidate, start, []) && CandidateWellFormed(start.candidate)
    requires EventWellFormed(plan) && EventWellFormed(seen) && EventWellFormed(tool) && EventWellFormed(final)
    requires plan.payload.PlanRecorded? && BoundOk(start.proposed, b, plan.payload.plan)
    requires ContextPart(plan.payload.plan, plan.id, seen.payload)
    requires ToolPart(plan.payload.plan, plan.id, BudgetOf(seen.payload), m, i.stage, KeyOfBinding(b), tool.payload)
    requires FinalPart(plan.payload.plan, plan.id, tool, m, KeyOfBinding(b), final.payload)
    requires StaysRequested(b, g, i, m) || StaysClaimed(b, g, i, m)
    ensures [r.planEvent, r.contextEvent, r.toolEvent, r.event] == [plan, seen, tool, final]
    ensures r.candidate == start.candidate && r.proposed == start.proposed && r.binding == b && r.current == i && r.material == m
    ensures ReachesChecking(ctx, Advancing, ReadBack(FinalSlot), EventReply(final), r, [] + [plan] + [seen] + [tool] + [final])
  {
    r := WritesBeforeRequest(ctx, Advancing, start, [], b, plan, seen);
    var purpose;
    r, purpose := ReachesReread(ctx, r, [] + [plan] + [seen], g, i, m);
    r := WritesToSuspend(ctx, purpose, r, [] + [plan] + [seen], i, m, tool, final);
  }

  // ---------- And that is all a suspending advance writes ----------

  lemma FinalIsWrittenToSuspend(l: Locals)
    requires Completion.FinalOk(l, l.event.payload)
    ensures WrittenToSuspend([l.planEvent, l.contextEvent, l.toolEvent, l.event], l.proposed, l.binding, l.material, l.current.stage)
  {
    var events := [l.planEvent, l.contextEvent, l.toolEvent, l.event];
    assert events[0] == l.planEvent && events[1] == l.contextEvent && events[2] == l.toolEvent && events[3] == l.event;
  }

  lemma FinalReadBackIsDurable(base: bool, ledger: seq<Event>, mode: Mode, l: Locals)
    requires Completion.Progressed(base, ledger, mode, ReadBack(FinalSlot), l) && l.event in ledger
    ensures forall e | e in [l.planEvent, l.contextEvent, l.toolEvent, l.event] :: e in ledger
    ensures Completion.FinalOk(l, l.event.payload)
  {
  }

  lemma FinalReadBackProgressed(ctx: Context, w: World)
    requires Completion.CompletionInvariant(ctx, w) && FinalReadBack(w.loop.call)
    ensures var l := w.loop.call.locals;
            Completion.Progressed(SuspendedReplay(ctx, l.replay), w.ledger, Advancing, ReadBack(FinalSlot), l) && l.event in w.ledger
  {
  }

  /**
   In every run, when a call hands its token to the suspension, its four records
   are in the stream and are what the builders make of its plan, binding and
   material, with the gateway record at the stage it stopped at.
   */
  lemma SuspendingSegmentIsWrittenAndDurable(ctx: Context, ws: seq<World>, ss: seq<StepLabel>, n: nat, token: Token)
    requires Run(ctx, ws, ss) && n < |ss| && HandsOver(ws[n], ws[n + 1], token)
    ensures var l := ws[n].loop.call.locals;
            && (forall e | e in [l.planEvent, l.contextEvent, l.toolEvent, l.event] :: e in ws[n].ledger)
            && WrittenToSuspend([l.planEvent, l.contextEvent, l.toolEvent, l.event], l.proposed, l.binding, l.material, l.current.stage)
  {
    SuspendsExactly(ctx, ws, ss, n, token);
    Completion.RunKeepsCompletion(ctx, ws, ss, n);
    FinalReadBackProgressed(ctx, ws[n]);
    var l := ws[n].loop.call.locals;
    FinalReadBackIsDurable(SuspendedReplay(ctx, l.replay), ws[n].ledger, Advancing, l);
    FinalIsWrittenToSuspend(l);
  }
}
